/** From a track's decode to its place in the loop. */
module TrackPreparation {
  import opened Common
  import opened Playlist
  import opened StationModel
  import opened StationShape
  import opened StationFrame
  import opened AnnouncementIndependence
  import opened AnnouncementFaults
  import Laws = TransitionLaws

  /** What receiving a prepared track comes to: a failure is reported; a success starts at once exactly if nothing is on
      air and playback is not stopped, and waits as the next track otherwise. */
  lemma ReceivedTrackLaw(s: State)
    requires Shape(s) && Enabled(s, OnTrackReady)
    ensures var t := Next(s, OnTrackReady);
            var item := s.loop.trackJob.item;
            && t.loop.pc == Promoting && !t.loop.trackPreparing && t.loop.trackJob.NoJob?
            && t.shared.queue == s.shared.queue
            && match s.loop.trackJob.result
               case Failure =>
                 && t.log.trace == s.log.trace + [Failed(item)] && t.shared == s.shared
                 && t.loop.current == s.loop.current && t.loop.next == s.loop.next
               case Success(reel) =>
                 if s.loop.current.None? && s.shared.mode != Stopped then
                   && t.log.trace == s.log.trace + [Started(item)] && t.loop.current == Some(reel)
                   && t.loop.next == s.loop.next && t.shared.current == Some(item) && t.shared.mode == Playing
                 else
                   && t.log.trace == s.log.trace && t.shared == s.shared
                   && t.loop.current == s.loop.current && t.loop.next == Some(reel)
  {
  }

  // ---------------------------------------------------------------- between decode and receipt

  /** The preparer has its result, and the loop has not. */
  ghost predicate Waits(loop: Loop, item: Item, result: Prepared<Item>) {
    && loop.trackPreparing && !loop.trackJob.NoJob? && !loop.trackJob.Decoding? && loop.trackJob.item == item
    && (loop.trackJob.Holding? || loop.trackJob.Delivered? ==> loop.trackJob.result == result)
  }

  predicate NoTrackReceipt(run: seq<Action>) {
    forall i :: 0 <= i < |run| ==> !run[i].OnTrackReady?
  }

  lemma TickKeepsWaiting(s: State, faults: Faults)
    requires Enabled(s, OnTick(faults)) && StaysInRun(s, OnTick(faults))
    ensures var t := Next(s, OnTick(faults));
            t.loop.trackJob == s.loop.trackJob && t.loop.trackPreparing == s.loop.trackPreparing
  {
    Laws.TickIsWritten(s, faults);
    RenderedLoop(s.loop, faults);
    hide RenderMusic, DoTick, StaysInRun;
  }

  lemma StepKeepsWaiting(s: State, a: Action, item: Item, result: Prepared<Item>)
    requires Shape(s) && Enabled(s, a) && StaysInRun(s, a) && !a.OnTrackReady? && Waits(s.loop, item, result)
    ensures Waits(Next(s, a).loop, item, result)
  {
    hide Shape, DoTick, DoCommand, DoAnnouncementReady, DoReplaceQueue, DoAddAnnouncement, StaysInRun, ExitRender;
    match a
    case OnTick(faults) => TickKeepsWaiting(s, faults);
    case OnDone => NotInside(s, a);
    case Connect => NotInside(s, a);
    case TrackDecoded(_) | TrackDelivered | TrackAbandoned =>
    case PromoteNext | StartTrackPrepare | StartAnnouncementPrepare => HeadKeepsJob(s, a);
    case _ => OthersKeepJob(s, a);
  }

  lemma NotInside(s: State, a: Action)
    requires Enabled(s, a) && (a.OnDone? || a.Connect?)
    ensures !StaysInRun(s, a)
  {
  }

  lemma HeadKeepsJob(s: State, a: Action)
    requires Enabled(s, a) && s.loop.trackPreparing
    requires a.PromoteNext? || a.StartTrackPrepare? || a.StartAnnouncementPrepare?
    ensures Next(s, a).loop.trackJob == s.loop.trackJob && Next(s, a).loop.trackPreparing
  {
  }

  lemma OthersKeepJob(s: State, a: Action)
    requires Enabled(s, a)
    requires !a.OnTick? && !a.OnDone? && !a.Connect? && !a.TrackDecoded? && !a.TrackDelivered? && !a.TrackAbandoned?
    requires !a.PromoteNext? && !a.StartTrackPrepare? && !a.StartAnnouncementPrepare? && !a.OnTrackReady?
    ensures Next(s, a).loop.trackJob == s.loop.trackJob && Next(s, a).loop.trackPreparing == s.loop.trackPreparing
  {
    hide LogDecode;
    if IsPreparer(a) { PreparerFrame(s, a); }
  }

  lemma {:induction false} TrackWaits(s: State, wait: seq<Action>, item: Item, result: Prepared<Item>)
    requires Shape(s) && Waits(s.loop, item, result) && Legal(s, wait) && InsideRun(s, wait) && NoTrackReceipt(wait)
    ensures Shape(Exec(s, wait)) && Waits(Exec(s, wait).loop, item, result)
    decreases |wait|
  {
    if wait != [] {
      hide Next, Shape, Enabled, StaysInRun, Waits;
      StepKeepsWaiting(s, wait[0], item, result);
      StepKeepsShape(s, wait[0]);
      TrackWaits(Next(s, wait[0]), wait[1..], item, result);
    }
  }

  /** From the decode of a track to the receipt of its result. */
  ghost predicate Preparation(s: State, outcome: StationModel.Decode, wait: seq<Action>) {
    && s.loop.trackJob.Decoding? && GoodDecode(outcome)
    && var decoded := Next(s, TrackDecoded(outcome));
    && Legal(decoded, wait) && InsideRun(decoded, wait) && NoTrackReceipt(wait)
    && Enabled(Exec(decoded, wait), OnTrackReady)
  }

  lemma DecodeWaits(s: State, outcome: StationModel.Decode)
    requires Shape(s) && Enabled(s, TrackDecoded(outcome))
    ensures var t := Next(s, TrackDecoded(outcome));
            Shape(t) && Waits(t.loop, s.loop.trackJob.item, DecodeJob(s.loop.trackJob, s.log.assets, outcome).result)
  {
    StepKeepsShape(s, TrackDecoded(outcome));
  }

  /** A track is received with all the frames its decode gave and that length on record, on air or as the next one;
      if the decode gave none it is reported as failed. */
  lemma TrackEndsAsItsDecodeWent(s: State, outcome: StationModel.Decode, wait: seq<Action>)
    requires Shape(s) && Preparation(s, outcome, wait)
    ensures var item := s.loop.trackJob.item;
            var ready := Exec(Next(s, TrackDecoded(outcome)), wait);
            var t := Next(ready, OnTrackReady);
            if outcome.Decoded? then
              var reel := Reel(item, s.log.assets, outcome.frames);
              && Some(reel)
                 == (if ready.loop.current.None? && ready.shared.mode != Stopped then t.loop.current else t.loop.next)
              && item in t.log.lengths && t.log.lengths[item] == outcome.frames
            else t.log.trace == ready.log.trace + [Failed(item)]
  {
    var decoded := Next(s, TrackDecoded(outcome));
    var result := DecodeJob(s.loop.trackJob, s.log.assets, outcome).result;
    DecodeWaits(s, outcome);
    hide Shape, Waits, InsideRun, NoTrackReceipt;
    TrackWaits(decoded, wait, s.loop.trackJob.item, result);
    ReceivedTrackLaw(Exec(decoded, wait));
    ReceivedLength(Exec(decoded, wait), s.loop.trackJob.item, result);
    hide Legal, Exec, Next;
  }

  lemma ReceivedLength(s: State, item: Item, result: Prepared<Item>)
    requires Waits(s.loop, item, result) && s.loop.trackJob.Delivered?
    ensures s.loop.trackJob == Delivered(item, result)
    ensures result.Success? ==>
              var t := DoTrackReady(s); item in t.log.lengths && t.log.lengths[item] == result.reel.remaining
  {
  }
}
