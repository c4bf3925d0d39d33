/** What an accepted queue contains: the caller's tracks, with the transitions they asked for or the station's own. */
module QueueContents {
  import opened Common
  import opened Playlist
  import opened StationModel
  import opened StationModes

  /** `n` is how a transition `t` is to be played when `inForce` are the station's defaults. */
  predicate Plays(n: Transition, t: Transition, inForce: Transition) {
    var wanted := if t.kind == Unset then inForce else t;
    if wanted.kind == Fade || wanted.kind == Crossfade then
      && n.kind == wanted.kind
      && n.durationMS == (if wanted.durationMS <= 0 then 1500 else if wanted.durationMS > 30000 then 30000
                          else wanted.durationMS)
      && n.curve == (if wanted.curve == NoCurve then EqualPower else wanted.curve)
    else n.kind == Cut && n.durationMS == 0
  }

  /** Which of the errors a caller gets: too many tracks before a stale revision before an invalid track. */
  lemma RejectionIsExact(sh: Shared, revision: nat, tracks: seq<Track>)
    ensures var verdict := QueueVerdict(sh, revision, tracks);
            var valid := forall i :: 0 <= i < |tracks| ==>
                           && !Blank(tracks[i].itemID)
                           && !Blank(tracks[i].media.bucket) && !Blank(tracks[i].media.objectKey);
            && (verdict == Some(TooLarge) <==> |tracks| > 5)
            && (verdict == Some(StaleRevision) <==> |tracks| <= 5 && revision <= sh.revision)
            && (verdict == Some(InvalidTrack) <==> |tracks| <= 5 && revision > sh.revision && !valid)
            && (verdict == None <==> |tracks| <= 5 && revision > sh.revision && valid)
  {
    forall i | 0 <= i < |tracks|
      ensures NormalizeTrack(tracks[i], sh.defaults).Some? <==>
                && !Blank(tracks[i].itemID)
                && !Blank(tracks[i].media.bucket) && !Blank(tracks[i].media.objectKey)
    {
      NormalizeTrackLaw(tracks[i], sh.defaults);
    }
    hide NormalizeTrack, Blank;
  }

  /** Over runs: an accepted list becomes the queue, position by position the caller's tracks; a track without a
      transition of its own gets the defaults set last. */
  lemma AcceptedQueueIsTheCallers(first: Transition, run: seq<Action>, revision: nat, tracks: seq<Track>, i: nat)
    requires Legal(Init(first), run) && i < |tracks|
    requires QueueVerdict(Exec(Init(first), run).shared, revision, tracks) == None
    ensures var t := Next(Exec(Init(first), run), ReplaceQueue(revision, tracks));
            && |t.shared.queue| == |tracks|
            && var item := t.shared.queue[i];
            && item.revision == revision && item.position == i
            && item.track.itemID == tracks[i].itemID && item.track.media == tracks[i].media
            && Plays(item.track.transitionIn, tracks[i].transitionIn, LastDefaults(first, run))
  {
    var s := Exec(Init(first), run);
    DefaultsAreThoseSetLast(Init(first), run);
    hide Legal, Exec;
    assert NormalizeTrack(tracks[i], s.shared.defaults).Some?;
    NormalizeTrackLaw(tracks[i], s.shared.defaults);
    NormalizeTransitionLaw(tracks[i].transitionIn, s.shared.defaults);
    hide NormalizeTrack, NormalizeTransition;
  }

  /** An announcement is refused as invalid exactly if its ID, bucket or object key is nothing but white space. */
  lemma InvalidAnnouncementExactlyIf(sh: Shared, a: Announcement)
    ensures AddVerdict(sh, a) == Invalid
       <==> Blank(a.commandID) || Blank(a.media.bucket) || Blank(a.media.objectKey)
  {
  }
}
