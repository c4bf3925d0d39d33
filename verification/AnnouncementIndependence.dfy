/** Announcements run on their own: seen through the announcement fields, the whole station is a small machine
    that no music command, queue change or track preparation can touch. */
module AnnouncementIndependence {
  import opened Common
  import opened Playlist
  import opened StationModel
  import opened StationShape
  import opened StationFrame

  /** Everything the announcement path consists of. `done` only says whether a preparer may give up. */
  datatype View = View(
    queue: seq<Announcement>,
    seen: set<string>,
    onAir: Option<Reel<Announcement>>,
    shown: Option<Announcement>,
    preparing: bool,
    job: Job<Announcement>,
    settled: seq<Settlement>,
    notices: seq<Notice>)

  function ViewOf(s: State): View {
    View(s.shared.announcements, s.shared.seen, s.loop.announcement, s.shared.currentAnn,
         s.loop.announcementPreparing, s.loop.announcementJob, s.log.settled, s.log.notices)
  }

  /** Steps of the standalone machine. A decode is told the name of the asset it may use. */
  datatype Move =
    | Add(announcement: Announcement)
    | Pop
    | Decode(outcome: StationModel.Decode, asset: nat)
    | Deliver
    | Abandon
    | Receive
    | Tick(fails: bool)
    | Stutter

  function MoveOf(s: State, a: Action): Move {
    match a
    case AddAnnouncement(x) => Add(x)
    case StartAnnouncementPrepare => Pop
    case AnnouncementDecoded(outcome) => Decode(outcome, s.log.assets)
    case AnnouncementDelivered => Deliver
    case AnnouncementAbandoned => Abandon
    case OnAnnouncementReady => Receive
    case OnTick(faults) => Tick(faults.announcement)
    case _ => Stutter
  }

  predicate CanMove(v: View, m: Move) {
    match m
    case Decode(_, _) => v.job.Decoding?
    case Deliver => v.job.Holding?
    case Abandon => v.job.Holding?
    case Receive => v.job.Delivered?
    case _ => true
  }

  function TickView(v: View, fails: bool): View {
    if v.onAir.None? then v
    else
      var reel := v.onAir.value;
      if fails then
        v.(onAir := None, shown := None, settled := v.settled + [Settlement(reel.item, Interrupted)],
           notices := v.notices + [AnnouncementFailed(reel.item)] + [AnnouncementFinished(reel.item)])
      else if reel.remaining <= BLOCK_FRAMES then
        v.(onAir := None, shown := None, settled := v.settled + [Settlement(reel.item, Resolved)],
           notices := v.notices + [AnnouncementFinished(reel.item)])
      else v.(onAir := Some(reel.(remaining := reel.remaining - BLOCK_FRAMES)))
  }

  function MoveView(v: View, m: Move): View
    requires CanMove(v, m)
  {
    match m
    case Add(x) =>
      if ValidAnnouncement(x) && x.commandID !in v.seen && |v.queue| < MAX_ANNOUNCEMENTS
      then v.(queue := v.queue + [x], seen := v.seen + {x.commandID}) else v
    case Pop =>
      if v.preparing || v.onAir.Some? || v.queue == [] then v
      else v.(queue := v.queue[1..], preparing := true, job := Decoding(v.queue[0]))
    case Decode(outcome, asset) => v.(job := DecodeJob(v.job, asset, outcome))
    case Deliver => v.(job := DeliverJob(v.job))
    case Abandon => v.(job := Abandoned(v.job.item))
    case Receive =>
      var received := v.(preparing := false, job := NoJob);
      if v.job.result.Failure? then
        received.(shown := None, settled := v.settled + [Settlement(v.job.item, Broken)],
                  notices := v.notices + [AnnouncementFailed(v.job.item), AnnouncementFailed(v.job.item)])
      else
        received.(onAir := Some(v.job.result.reel), shown := Some(v.job.result.reel.item),
                  notices := v.notices + [AnnouncementStarted(v.job.result.reel.item)])
    case Tick(fails) => TickView(v, fails)
    case Stutter => v
  }

  /** A step taken inside one run: it neither ends the run nor begins one. */
  predicate StaysInRun(s: State, a: Action)
    requires Enabled(s, a)
  {
    !a.Connect? && Next(s, a).log.exits == s.log.exits
  }

  // ---------------------------------------------------------------- projection

  lemma AfterWriteViews(s: State, block: Block, trackDone: bool, announcementDone: bool, broken: bool)
    ensures var t := AfterWrite(s, block, trackDone, announcementDone, broken);
            && ViewOf(t) == (if announcementDone && s.loop.announcement.Some?
                             then Finish(ViewOf(s), s.loop.announcement.value.item, broken) else ViewOf(s))
            && t.log.exits == s.log.exits
  {
  }

  lemma TickViews(s: State, faults: Faults)
    requires Shape(s) && Enabled(s, OnTick(faults)) && DoTick(s, faults).log.exits == s.log.exits
    ensures ViewOf(DoTick(s, faults)) == TickView(ViewOf(s), faults.announcement)
  {
    var music := RenderMusic(s.loop, faults);
    var over := ReadOverlay(s.loop.announcement, faults.announcement);
    if music.Rendered? {
      RenderedLoop(s.loop, faults);
      OverlayView(s, over, faults.announcement);
      hide RenderMusic, ReadOverlay, TickView, Shape;
      var mixed := Mixed(s, music, over);
      assert ViewOf(mixed) == ViewOf(s).(onAir := over.announcement, notices := s.log.notices + FailureNotice(over));
      hide Mixed, AfterWrite, FailureNotice;
      AfterWriteViews(mixed, music.block, music.done, over.done, over.failed);
    }
  }

  lemma OverlayView(s: State, over: Overlay, fails: bool)
    requires Shape(s) && over == ReadOverlay(s.loop.announcement, fails)
    ensures var v := ViewOf(s).(onAir := over.announcement, notices := s.log.notices + FailureNotice(over));
            TickView(ViewOf(s), fails)
            == if over.done && over.announcement.Some? then Finish(v, over.announcement.value.item, over.failed) else v
  {
    assert s.log.notices + [] == s.log.notices;
  }

  function Finish(v: View, item: Announcement, broken: bool): View {
    v.(onAir := None, shown := None,
       settled := v.settled + [Settlement(item, if broken then Interrupted else Resolved)],
       notices := v.notices + [AnnouncementFinished(item)])
  }

  lemma AnnouncementMoves(s: State, a: Action)
    requires Shape(s) && Enabled(s, a)
    requires a.AddAnnouncement? || a.StartAnnouncementPrepare? || a.OnAnnouncementReady?
             || a.AnnouncementDecoded? || a.AnnouncementDelivered? || a.AnnouncementAbandoned?
    ensures ViewOf(Next(s, a)) == MoveView(ViewOf(s), MoveOf(s, a))
  {
  }

  lemma HeadStutters(s: State, a: Action)
    requires Enabled(s, a) && (a.PromoteNext? || a.StartTrackPrepare?)
    ensures ViewOf(Next(s, a)) == ViewOf(s)
  {
  }

  lemma MusicStutters(s: State, a: Action)
    requires Enabled(s, a) && (a.OnCommand? || a.OnTrackReady?)
    ensures ViewOf(Next(s, a)) == ViewOf(s)
  {
  }

  lemma PreparationStutters(s: State, a: Action)
    requires Enabled(s, a) && (a.OnWakeup? || a.TrackDecoded? || a.TrackDelivered? || a.TrackAbandoned?)
    ensures ViewOf(Next(s, a)) == ViewOf(s)
  {
  }

  lemma OthersStutter(s: State, a: Action)
    requires Enabled(s, a)
    requires a.ReplaceQueue? || a.Send? || a.Signal? || a.UpdateConfig? || a.Cancel?
             || a.OrphanDecoded? || a.OrphanDelivered? || a.OrphanAbandoned?
    ensures ViewOf(Next(s, a)) == ViewOf(s)
  {
  }

  /** Every step inside a run is the move of the standalone machine it is mapped to, and that mapping looks at
      the action alone (apart from naming a fresh asset). Music and queue actions map to no move at all. */
  lemma Projection(s: State, a: Action)
    requires Shape(s) && Enabled(s, a) && StaysInRun(s, a)
    ensures CanMove(ViewOf(s), MoveOf(s, a))
    ensures ViewOf(Next(s, a)) == MoveView(ViewOf(s), MoveOf(s, a))
  {
    hide DoTick, DoCommand, DoTrackReady, DoAnnouncementReady, DoPromoteNext, DoStartTrackPrepare,
         DoStartAnnouncementPrepare, DoReplaceQueue, DoAddAnnouncement, TickView, Shape;
    match a
    case OnTick(faults) => TickViews(s, faults);
    case OnDone =>
    case Connect =>
    case AddAnnouncement(_) | StartAnnouncementPrepare | OnAnnouncementReady => AnnouncementMoves(s, a);
    case AnnouncementDecoded(_) | AnnouncementDelivered | AnnouncementAbandoned => AnnouncementMoves(s, a);
    case PromoteNext | StartTrackPrepare => HeadStutters(s, a);
    case OnCommand | OnTrackReady => MusicStutters(s, a);
    case OnWakeup | TrackDecoded(_) | TrackDelivered | TrackAbandoned => PreparationStutters(s, a);
    case _ => OthersStutter(s, a);
  }

  // ---------------------------------------------------------------- how long an announcement lasts

  /** A legal stretch of steps inside one run in which no announcement read fails. */
  predicate CleanStretch(s: State, run: seq<Action>)
    requires Legal(s, run)
    decreases |run|
  {
    run == [] ||
    (StaysInRun(s, run[0]) && !(run[0].OnTick? && run[0].faults.announcement)
     && CleanStretch(Next(s, run[0]), run[1..]))
  }

  function Ticks(run: seq<Action>): nat {
    if run == [] then 0 else (if run[0].OnTick? then 1 else 0) + Ticks(run[1..])
  }

  /** Blocks needed to play out `remaining` frames. */
  function BlocksLeft(remaining: nat): nat {
    CeilDiv(remaining, BLOCK_FRAMES)
  }

  /** One step of an announcement on air: only ticks count, and the last needed tick settles it. */
  lemma OnAirStep(s: State, a: Action)
    requires Shape(s) && Enabled(s, a) && StaysInRun(s, a) && !(a.OnTick? && a.faults.announcement)
    requires s.loop.announcement.Some?
    ensures var reel := s.loop.announcement.value;
            var t := Next(s, a);
            if !a.OnTick? then t.loop.announcement == s.loop.announcement && t.log.settled == s.log.settled
            else if BlocksLeft(reel.remaining) == 1
              then t.loop.announcement.None? && t.log.settled == s.log.settled + [Settlement(reel.item, Resolved)]
            else reel.remaining > BLOCK_FRAMES
                 && t.loop.announcement == Some(reel.(remaining := reel.remaining - BLOCK_FRAMES))
                 && BlocksLeft(reel.remaining - BLOCK_FRAMES) == BlocksLeft(reel.remaining) - 1
                 && t.log.settled == s.log.settled
  {
    hide Next, Shape, BlocksLeft, TickView, StaysInRun, Enabled;
    Projection(s, a);
    NothingInPreparation(s);
    if a.OnTick? { TickOnAir(ViewOf(s)); } else { QuietOnAir(ViewOf(s), MoveOf(s, a)); }
  }

  lemma NothingInPreparation(s: State)
    requires Shape(s) && s.loop.announcement.Some?
    ensures s.loop.announcementJob.NoJob? && s.loop.announcement.value.remaining > 0
  {
  }

  lemma QuietOnAir(v: View, m: Move)
    requires v.onAir.Some? && v.job.NoJob? && CanMove(v, m) && !m.Tick?
    ensures MoveView(v, m).onAir == v.onAir && MoveView(v, m).settled == v.settled
  {
  }

  lemma TickOnAir(v: View)
    requires v.onAir.Some? && v.onAir.value.remaining > 0
    ensures var reel := v.onAir.value;
            var w := TickView(v, false);
            if BlocksLeft(reel.remaining) == 1
              then w.onAir.None? && w.settled == v.settled + [Settlement(reel.item, Resolved)]
            else reel.remaining > BLOCK_FRAMES
                 && w.onAir == Some(reel.(remaining := reel.remaining - BLOCK_FRAMES)) && w.settled == v.settled
                 && BlocksLeft(reel.remaining - BLOCK_FRAMES) == BlocksLeft(reel.remaining) - 1
  {
  }

  /** An announcement with `r` frames left is still on air, with exactly the frames of the passed ticks gone, as
      long as fewer than ceil(r / 960) ticks have passed, and is settled as resolved from then on: whatever play,
      stop, skip, queue, track and configuration steps are interleaved. */
  lemma {:induction false} PlaysForExactlyItsLength(s: State, run: seq<Action>)
    requires Shape(s) && s.loop.announcement.Some?
    requires Legal(s, run) && CleanStretch(s, run)
    ensures var reel := s.loop.announcement.value;
            var t := Exec(s, run);
            if Ticks(run) < BlocksLeft(reel.remaining)
            then t.loop.announcement == Some(reel.(remaining := reel.remaining - BLOCK_FRAMES * Ticks(run)))
                 && t.log.settled == s.log.settled
            else s.log.settled + [Settlement(reel.item, Resolved)] <= t.log.settled
    decreases |run|
  {
    if run != [] {
      var t := Next(s, run[0]);
      OnAirStep(s, run[0]);
      StepKeepsShape(s, run[0]);
      if t.loop.announcement.Some? {
        PlaysForExactlyItsLength(t, run[1..]);
      } else {
        SettledStays(t, run[1..]);
      }
    }
  }

  lemma {:induction false} SettledStays(s: State, run: seq<Action>)
    requires Legal(s, run)
    ensures s.log.settled <= Exec(s, run).log.settled
    decreases |run|
  {
    if run != [] {
      StepKeepsHistory(s, run[0]);
      SettledStays(Next(s, run[0]), run[1..]);
    }
  }

  /** The same over whole lives: from any reachable state in which an announcement is on air. */
  lemma AnnouncementLasts(defaults: Transition, before: seq<Action>, run: seq<Action>)
    requires Legal(Init(defaults), before)
    requires Exec(Init(defaults), before).loop.announcement.Some?
    requires Legal(Exec(Init(defaults), before), run) && CleanStretch(Exec(Init(defaults), before), run)
    ensures var s := Exec(Init(defaults), before);
            var reel := s.loop.announcement.value;
            var t := Exec(s, run);
            && reel.remaining > 0
            && (Ticks(run) < BlocksLeft(reel.remaining) ==>
                  t.loop.announcement == Some(reel.(remaining := reel.remaining - BLOCK_FRAMES * Ticks(run)))
                  && t.log.settled == s.log.settled)
            && (Ticks(run) >= BlocksLeft(reel.remaining) ==>
                  s.log.settled + [Settlement(reel.item, Resolved)] <= t.log.settled)
  {
    RunKeepsShape(Init(defaults), before);
    PlaysForExactlyItsLength(Exec(Init(defaults), before), run);
  }
}
