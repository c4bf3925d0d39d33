/** Frames of music: every frame of a decoded track is heard exactly once if the track is finished, and a track that
    nothing disturbs lasts exactly as many ticks as it has blocks. */
module TrackFrames {
  import opened Common
  import opened Playlist
  import opened StationModel
  import opened StationShape
  import opened StationFrame
  import opened TrackOrder
  import opened AnnouncementIndependence

  // ---------------------------------------------------------------- frames in the trace

  function FramesIn(b: Block, i: Item): nat {
    match b
    case Silence => 0
    case Solo(item, n) => if item == i then n else 0
    case Blend(item, incoming, n, m, _, _) => (if item == i then n else 0) + (if incoming == i then m else 0)
  }

  function FramesOf(e: TrackEvent, i: Item): nat {
    if e.Music? then FramesIn(e.block, i) else 0
  }

  /** Frames of `i` written to the encoder so far. */
  function Heard(trace: seq<TrackEvent>, i: Item): nat {
    if trace == [] then 0 else Heard(trace[..|trace| - 1], i) + FramesOf(trace[|trace| - 1], i)
  }

  lemma HeardSnoc(trace: seq<TrackEvent>, e: TrackEvent, i: Item)
    ensures Heard(trace + [e], i) == Heard(trace, i) + FramesOf(e, i)
  {
    assert (trace + [e])[..|trace|] == trace;
  }

  lemma AddEvent(trace: seq<TrackEvent>, e: TrackEvent, i: Item)
    ensures Heard(trace + [e], i) == Heard(trace, i) + FramesOf(e, i)
    ensures IsFinished(trace + [e], i) <==> IsFinished(trace, i) || e == Finished(i)
  {
    HeardSnoc(trace, e, i);
  }

  lemma {:induction false} HeardQuiet(trace: seq<TrackEvent>, added: seq<TrackEvent>, i: Item)
    requires forall k :: 0 <= k < |added| ==> !added[k].Music?
    ensures Heard(trace + added, i) == Heard(trace, i)
  {
    if added == [] {
      assert trace + added == trace;
    } else {
      var front := added[..|added| - 1];
      HeardQuiet(trace, front, i);
      HeardSnoc(trace + front, added[|added| - 1], i);
      assert trace + added == (trace + front) + [added[|added| - 1]];
    }
  }

  // ---------------------------------------------------------------- the account of one track

  function LeftIn(reel: Option<Reel<Item>>, i: Item): Option<nat> {
    if reel.Some? && reel.value.item == i then Some(reel.value.remaining) else None
  }

  /** Frames of `i` the loop still holds, on air or as the next track. */
  function Left(loop: Loop, i: Item): Option<nat> {
    if LeftIn(loop.current, i).Some? then LeftIn(loop.current, i) else LeftIn(loop.next, i)
  }

  /** Heard and left make up the length while the track is held; finished tracks are heard whole. */
  ghost predicate Balanced(heard: nat, left: Option<nat>, length: Option<nat>, finished: bool) {
    && (length.None? ==> heard == 0 && left.None? && !finished)
    && (length.Some? ==> heard <= length.value)
    && (left.Some? ==> length.Some? && heard + left.value == length.value && !finished)
    && (finished ==> heard == length.value)
  }

  function LengthOf(s: State, i: Item): Option<nat> {
    if i in s.log.lengths then Some(s.log.lengths[i]) else None
  }

  /** At most one of the two readers is `i`'s. */
  ghost predicate HeldOnce(loop: Loop, i: Item) {
    LeftIn(loop.current, i).None? || LeftIn(loop.next, i).None?
  }

  /** Only popped tracks are measured, and none before its preparation is received. */
  ghost predicate MeasuredLate(s: State, i: Item) {
    && (i in s.log.lengths ==> i in s.log.popped)
    && (!s.loop.trackJob.NoJob? && s.loop.trackJob.item == i ==> i !in s.log.lengths && i in s.log.popped)
  }

  predicate IsFinished(trace: seq<TrackEvent>, i: Item) {
    Finished(i) in trace
  }

  ghost predicate Audited(s: State, i: Item) {
    && Balanced(Heard(s.log.trace, i), Left(s.loop, i), LengthOf(s, i), IsFinished(s.log.trace, i))
    && HeldOnce(s.loop, i) && MeasuredLate(s, i)
  }

  /** What is left of an account when the loop lets go of its readers. */
  lemma LettingGo(heard: nat, left: Option<nat>, length: Option<nat>, finished: bool)
    requires Balanced(heard, left, length, finished)
    ensures Balanced(heard, None, length, finished)
  {
  }

  /** Everything but the readers. */
  ghost predicate Released(s: State, i: Item) {
    && Balanced(Heard(s.log.trace, i), None, LengthOf(s, i), IsFinished(s.log.trace, i))
    && (i in s.log.lengths ==> i in s.log.popped)
  }

  /** Events that neither carry music nor finish the track. */
  predicate Neutral(added: seq<TrackEvent>, i: Item) {
    forall k :: 0 <= k < |added| ==> !added[k].Music? && added[k] != Finished(i)
  }

  lemma NeutralEvents(trace: seq<TrackEvent>, added: seq<TrackEvent>, i: Item)
    requires Neutral(added, i)
    ensures Heard(trace + added, i) == Heard(trace, i)
    ensures IsFinished(trace + added, i) <==> IsFinished(trace, i)
  {
    HeardQuiet(trace, added, i);
  }

  /** A step that adds events without music and hands out no new reader. */
  ghost predicate Proceeds(s: State, t: State, added: seq<TrackEvent>) {
    && t.log.trace == s.log.trace + added && t.log.lengths == s.log.lengths && t.log.popped == s.log.popped
    && (t.loop.trackJob.NoJob? || JobItems(t.loop.trackJob) == JobItems(s.loop.trackJob))
  }

  /** The loop holds `i` as before, or no more. */
  ghost predicate HoldsNoMore(before: Loop, after: Loop, i: Item) {
    HeldOnce(after, i) && (Left(after, i) == Left(before, i) || Left(after, i).None?)
  }

  lemma Proceed(s: State, t: State, added: seq<TrackEvent>, i: Item)
    requires Audited(s, i) && Proceeds(s, t, added) && Neutral(added, i) && HoldsNoMore(s.loop, t.loop, i)
    ensures Audited(t, i)
  {
    NeutralEvents(s.log.trace, added, i);
    assert !t.loop.trackJob.NoJob? ==> JobItems(t.loop.trackJob) == [t.loop.trackJob.item];
    assert !s.loop.trackJob.NoJob? ==> JobItems(s.loop.trackJob) == [s.loop.trackJob.item];
    hide Heard, IsFinished, Left, HeldOnce, Neutral;
  }

  lemma Finish(s: State, t: State, i: Item)
    requires Audited(s, i) && Proceeds(s, t, [Finished(i)])
    requires Left(s.loop, i) == Some(0) && Left(t.loop, i).None? && HeldOnce(t.loop, i)
    ensures Audited(t, i)
  {
    AddEvent(s.log.trace, Finished(i), i);
    assert !t.loop.trackJob.NoJob? ==> JobItems(t.loop.trackJob) == [t.loop.trackJob.item];
    assert !s.loop.trackJob.NoJob? ==> JobItems(s.loop.trackJob) == [s.loop.trackJob.item];
    hide Heard, IsFinished, Left, HeldOnce;
  }

  // ---------------------------------------------------------------- ticks

  lemma ReadTakes(remaining: nat, fails: bool)
    ensures var got := ReadFrames(remaining, BLOCK_FRAMES, fails);
            got.Frames? ==> got.count + got.remaining == remaining && (got.done ==> got.remaining == 0)
  {
  }

  /** A block takes from each reader exactly the frames it carries; the outgoing one is over when nothing is left. */
  ghost predicate Takes(before: Loop, after: Loop, block: Block, done: bool, i: Item) {
    && HeldOnce(after, i)
    && (Left(before, i).Some? <==> Left(after, i).Some?)
    && (Left(before, i).None? ==> FramesIn(block, i) == 0)
    && (Left(before, i).Some? ==> Left(before, i).value == Left(after, i).value + FramesIn(block, i))
    && (done ==> after.current.Some? && after.current.value.remaining == 0)
  }

  lemma BlockTakesFrames(loop: Loop, faults: Faults, i: Item)
    requires RenderMusic(loop, faults).Rendered? && HeldOnce(loop, i)
    ensures var music := RenderMusic(loop, faults); Takes(loop, music.loop, music.block, music.done, i)
  {
    if loop.current.Some? {
      var current := loop.current.value;
      ReadTakes(current.remaining, faults.current);
      var got := ReadFrames(current.remaining, BLOCK_FRAMES, faults.current);
      var played := loop.(current := Some(current.(remaining := got.remaining)));
      hide ReadFrames;
      if InTransition(loop) {
        hide InTransition;
        BlendTakesFrames(loop, played, got, faults, i);
      }
    }
  }

  lemma BlendTakesFrames(loop: Loop, played: Loop, got: StationModel.Frames, faults: Faults, i: Item)
    requires InTransition(loop) && got.Frames? && HeldOnce(loop, i)
    requires got.count + got.remaining == loop.current.value.remaining && (got.done ==> got.remaining == 0)
    requires played == loop.(current := Some(loop.current.value.(remaining := got.remaining)))
    requires RenderBlend(loop, played, got, faults).Rendered?
    ensures var music := RenderBlend(loop, played, got, faults); Takes(loop, music.loop, music.block, music.done, i)
  {
    ReadTakes(loop.next.value.remaining, faults.next);
    hide ReadFrames, TransitionFrames;
  }

  lemma ExitAudits(s: State, broken: bool, i: Item)
    requires Released(s, i)
    ensures Audited(ExitRender(s, broken), i)
  {
    var added := [RunEnded] + LoseTracks(PendingTracks(s.loop));
    var t := ExitRender(s, broken);
    assert t.log.trace == s.log.trace + added;
    assert t.log.lengths == s.log.lengths && t.log.popped == s.log.popped && t.loop == NoLoop;
    hide ExitRender, Released, Audited;
    assert Neutral(added, i);
    ReleasedProceeds(s, t, added, i);
    NothingHeld(t, i);
  }

  lemma ReleasedProceeds(s: State, t: State, added: seq<TrackEvent>, i: Item)
    requires Released(s, i) && Neutral(added, i)
    requires t.log.trace == s.log.trace + added && t.log.lengths == s.log.lengths && t.log.popped == s.log.popped
    ensures Released(t, i)
  {
    NeutralEvents(s.log.trace, added, i);
    hide Heard, IsFinished, Balanced;
  }

  lemma NothingHeld(s: State, i: Item)
    requires Released(s, i) && s.loop == NoLoop
    ensures Audited(s, i)
  {
    hide Heard, IsFinished, Balanced;
  }

  lemma MixedReleases(s: State, faults: Faults, over: Overlay, i: Item)
    requires Audited(s, i) && RenderMusic(s.loop, faults).Rendered?
    ensures Released(Mixed(s, RenderMusic(s.loop, faults), over), i)
  {
    RenderedEvents(s.loop, faults);
    NeutralEvents(s.log.trace, RenderMusic(s.loop, faults).events, i);
    LettingGo(Heard(s.log.trace, i), Left(s.loop, i), LengthOf(s, i), IsFinished(s.log.trace, i));
    hide IsFinished, Heard, RenderMusic, Balanced, Left;
  }

  /** After the write the block counts as heard. */
  lemma WriteAudits(s: State, faults: Faults, over: Overlay, i: Item)
    requires Audited(s, i) && RenderMusic(s.loop, faults).Rendered?
    ensures var music := RenderMusic(s.loop, faults);
            var mixed := Mixed(s, music, over);
            Audited(mixed.(loop := mixed.loop.(pc := Promoting),
                           log := mixed.log.(trace := mixed.log.trace + [Music(music.block)])), i)
  {
    var music := RenderMusic(s.loop, faults);
    RenderedEvents(s.loop, faults);
    RenderedLoop(s.loop, faults);
    BlockTakesFrames(s.loop, faults, i);
    NeutralEvents(s.log.trace, music.events, i);
    AddEvent(s.log.trace + music.events, Music(music.block), i);
    hide IsFinished, Heard, RenderMusic, FramesIn;
  }

  lemma FinishTrackAudits(s: State, i: Item)
    requires Audited(s, i) && s.loop.current.Some? && s.loop.current.value.remaining == 0
    ensures Audited(FinishTrack(s), i)
  {
    var finished := s.loop.current.value.item;
    var ended := s.(loop := s.loop.(current := None),
                    log := s.log.(trace := s.log.trace + [Finished(finished)]));
    EndAudits(s, ended, i);
    var started: seq<TrackEvent> := if s.loop.next.Some? then [Started(s.loop.next.value.item)] else [];
    FinishedTrack(s, ended, started);
    hide FinishTrack, Proceeds, Balanced, MeasuredLate, Left;
    MovedUp(ended.loop, FinishTrack(s).loop, i);
    assert Neutral(started, i);
    Proceed(ended, FinishTrack(s), started, i);
  }

  lemma EndAudits(s: State, ended: State, i: Item)
    requires Audited(s, i) && s.loop.current.Some? && s.loop.current.value.remaining == 0
    requires ended == s.(loop := s.loop.(current := None),
                         log := s.log.(trace := s.log.trace + [Finished(s.loop.current.value.item)]))
    ensures Audited(ended, i)
  {
    var finished := s.loop.current.value.item;
    TakenOff(s.loop, i);
    assert finished == i ==> Left(s.loop, i) == Some(0);
    hide Balanced, MeasuredLate, Left;
    if finished == i { Finish(s, ended, i); } else { Proceed(s, ended, [Finished(finished)], i); }
  }

  lemma FinishedTrack(s: State, ended: State, started: seq<TrackEvent>)
    requires s.loop.current.Some?
    requires ended == s.(loop := s.loop.(current := None),
                         log := s.log.(trace := s.log.trace + [Finished(s.loop.current.value.item)]))
    requires started == if s.loop.next.Some? then [Started(s.loop.next.value.item)] else []
    ensures var t := FinishTrack(s);
            Proceeds(ended, t, started) && t.loop.current == s.loop.next && t.loop.next == None
  {
    assert ended.log.trace + [] == ended.log.trace;
  }

  lemma TakenOff(loop: Loop, i: Item)
    requires HeldOnce(loop, i)
    ensures var after := loop.(current := None);
            HoldsNoMore(loop, after, i)
            && (loop.current.Some? && loop.current.value.item == i ==> Left(after, i).None?)
  {
  }

  lemma MovedUp(loop: Loop, after: Loop, i: Item)
    requires loop.current.None? && HeldOnce(loop, i) && after.current == loop.next && after.next.None?
    ensures HoldsNoMore(loop, after, i)
  {
  }

  lemma FinishAnnouncementAudits(s: State, broken: bool, i: Item)
    requires Audited(s, i) && s.loop.announcement.Some?
    ensures Audited(FinishAnnouncement(s, broken), i)
  {
    hide IsFinished, Heard, Balanced;
  }

  lemma AfterWriteAudits(s: State, faults: Faults, over: Overlay, i: Item)
    requires Audited(s, i) && RenderMusic(s.loop, faults).Rendered?
    ensures var music := RenderMusic(s.loop, faults);
            Audited(AfterWrite(Mixed(s, music, over), music.block, music.done, over.done, over.failed), i)
  {
    var music := RenderMusic(s.loop, faults);
    var mixed := Mixed(s, music, over);
    WriteAudits(s, faults, over, i);
    BlockTakesFrames(s.loop, faults, i);
    var written := mixed.(loop := mixed.loop.(pc := Promoting),
                          log := mixed.log.(trace := mixed.log.trace + [Music(music.block)]));
    hide Audited, RenderMusic, FinishTrack, FinishAnnouncement;
    var after := if music.done && written.loop.current.Some? then FinishTrack(written) else written;
    if music.done && written.loop.current.Some? { FinishTrackAudits(written, i); }
    if over.done && after.loop.announcement.Some? { FinishAnnouncementAudits(after, over.failed, i); }
  }

  lemma TickAudits(s: State, faults: Faults, i: Item)
    requires Audited(s, i)
    ensures Audited(DoTick(s, faults), i)
  {
    var music := RenderMusic(s.loop, faults);
    if music.MusicFault? {
      LettingGo(Heard(s.log.trace, i), Left(s.loop, i), LengthOf(s, i), IsFinished(s.log.trace, i));
      ExitAudits(WithLedger(s, music.touched), false, i);
    } else {
      var over := ReadOverlay(s.loop.announcement, faults.announcement);
      MixedReleases(s, faults, over, i);
      AfterWriteAudits(s, faults, over, i);
      hide Audited, Released, RenderMusic, ReadOverlay, Mixed, ExitRender, AfterWrite;
      if faults.write { ExitAudits(Mixed(s, music, over), over.failed, i); }
    }
  }

  // ---------------------------------------------------------------- other steps

  lemma CommandAudits(s: State, i: Item)
    requires Audited(s, i) && |s.signals.commands| > 0
    ensures Audited(DoCommand(s), i)
  {
    var received := s.(signals := s.signals.(commands := s.signals.commands[1..]), loop := s.loop.(pc := Promoting));
    ReceivedAudits(s, received, i);
    hide Audited, DoPlay, DoStop, DoSkip;
    match s.signals.commands[0]
    case Play => PlayAudits(received, i);
    case Stop => StopAudits(received, i);
    case Skip => SkipAudits(received, i);
  }

  lemma ReceivedAudits(s: State, t: State, i: Item)
    requires Audited(s, i) && t.log == s.log && t.loop == s.loop.(pc := t.loop.pc)
    ensures Audited(t, i)
  {
    hide Heard, IsFinished, Balanced;
  }

  lemma PlayAudits(s: State, i: Item)
    requires Audited(s, i)
    ensures Audited(DoPlay(s), i)
  {
    hide Left, Balanced;
    Proceed(s, DoPlay(s), [PlaybackResumed], i);
  }

  lemma StopAudits(s: State, i: Item)
    requires Audited(s, i)
    ensures Audited(DoStop(s), i)
  {
    TakenOff(s.loop, i);
    hide Left, Balanced;
    Proceed(s, DoStop(s), [PlaybackStopped], i);
  }

  lemma SkipAudits(s: State, i: Item)
    requires Audited(s, i)
    ensures Audited(DoSkip(s), i)
  {
    if s.loop.current.Some? {
      TakenOff(s.loop, i);
      hide Left, Balanced;
      Proceed(s, DoSkip(s), [Skipped(s.loop.current.value.item)], i);
    }
  }

  lemma TrackReadyAudits(s: State, i: Item)
    requires Audited(s, i) && Shape(s) && s.loop.trackJob.Delivered?
    ensures Audited(DoTrackReady(s), i)
  {
    var item := s.loop.trackJob.item;
    hide Audited, Shape;
    if s.loop.trackJob.result.Failure? {
      FailureAudits(s, i);
    } else {
      ReceivedTrack(s);
      if item == i { MeasuredAudits(s, i); } else { OtherMeasuredAudits(s, i); }
    }
  }

  lemma ReceivedTrack(s: State)
    requires Shape(s) && s.loop.trackJob.Delivered? && s.loop.trackJob.result.Success?
    ensures s.loop.trackJob.result.reel.item == s.loop.trackJob.item && s.loop.next.None?
  {
  }

  lemma FailureAudits(s: State, i: Item)
    requires Audited(s, i) && s.loop.trackJob.Delivered? && s.loop.trackJob.result.Failure?
    ensures Audited(DoTrackReady(s), i)
  {
    hide Balanced;
    Proceed(s, DoTrackReady(s), [Failed(s.loop.trackJob.item)], i);
  }

  /** The track the loop receives: nothing of it was heard, and all of it is left. */
  lemma MeasuredAudits(s: State, i: Item)
    requires Audited(s, i) && s.loop.trackJob.Delivered? && s.loop.trackJob.result.Success?
    requires s.loop.trackJob.item == i == s.loop.trackJob.result.reel.item && s.loop.next.None?
    ensures Audited(DoTrackReady(s), i)
  {
    AddEvent(s.log.trace, Started(i), i);
    hide Heard, IsFinished;
  }

  lemma OtherMeasuredAudits(s: State, i: Item)
    requires Audited(s, i) && s.loop.trackJob.Delivered? && s.loop.trackJob.result.Success?
    requires s.loop.trackJob.item == s.loop.trackJob.result.reel.item != i && s.loop.next.None?
    ensures Audited(DoTrackReady(s), i)
  {
    var t := DoTrackReady(s);
    var started: seq<TrackEvent> :=
      if s.loop.current.None? && CanPlayMusic(s) then [Started(s.loop.trackJob.item)] else [];
    assert s.log.trace + [] == s.log.trace;
    assert t.log.trace == s.log.trace + started && LengthOf(t, i) == LengthOf(s, i) && t.log.popped == s.log.popped;
    assert t.loop.trackJob.NoJob? && HoldsNoMore(s.loop, t.loop, i);
    hide DoTrackReady, HoldsNoMore, Balanced;
    Aside(s, t, started, i);
  }

  /** A step about another track. */
  lemma Aside(s: State, t: State, added: seq<TrackEvent>, i: Item)
    requires Audited(s, i) && Neutral(added, i) && HoldsNoMore(s.loop, t.loop, i) && t.loop.trackJob.NoJob?
    requires t.log.trace == s.log.trace + added && LengthOf(t, i) == LengthOf(s, i) && t.log.popped == s.log.popped
    ensures Audited(t, i)
  {
    NeutralEvents(s.log.trace, added, i);
    LettingGo(Heard(s.log.trace, i), Left(s.loop, i), LengthOf(s, i), IsFinished(s.log.trace, i));
    hide Heard, IsFinished, Left, HeldOnce, Neutral, Balanced;
  }

  lemma PromoteAudits(s: State, i: Item)
    requires Audited(s, i)
    ensures Audited(DoPromoteNext(s), i)
  {
    var t := DoPromoteNext(s);
    if s.loop.current.None? && s.loop.next.Some? && CanPlayMusic(s) {
      MovedUp(s.loop, t.loop, i);
      hide Left, Balanced;
      Proceed(s, t, [Started(s.loop.next.value.item)], i);
    } else {
      assert t.loop == s.loop.(pc := t.loop.pc);
      ReceivedAudits(s, t, i);
    }
  }

  lemma PopAudits(s: State, i: Item)
    requires Audited(s, i) && Shape(s) && QueueOrdered(s)
    ensures Audited(DoStartTrackPrepare(s), i)
  {
    if s.shared.queue != [] { HeadIsFresh(s); }
    hide IsFinished, Heard, Balanced, QueueOrdered;
  }

  lemma HeadIsFresh(s: State)
    requires QueueOrdered(s) && s.shared.queue != []
    ensures s.shared.queue[0] !in s.log.popped
  {
    var items := s.log.popped + s.shared.queue;
    forall k | 0 <= k < |s.log.popped| ensures s.log.popped[k] != s.shared.queue[0] {
      ThreadedIsIncreasing(items, k, |s.log.popped|);
    }
  }

  ghost predicate MusicKept(s: State, t: State) {
    && t.log.trace == s.log.trace && t.log.lengths == s.log.lengths && t.log.popped == s.log.popped
    && t.loop.current == s.loop.current && t.loop.next == s.loop.next
    && JobItems(t.loop.trackJob) == JobItems(s.loop.trackJob)
  }

  lemma SameMusic(s: State, t: State, i: Item)
    requires Audited(s, i) && MusicKept(s, t)
    ensures Audited(t, i)
  {
    assert !t.loop.trackJob.NoJob? ==> t.loop.trackJob.item == JobItems(s.loop.trackJob)[0];
  }

  lemma PreparersKeepMusic(s: State, a: Action)
    requires Enabled(s, a) && IsPreparer(a)
    ensures MusicKept(s, Next(s, a))
  {
    PreparerFrame(s, a);
    JobKeepsItem(s, a);
    hide Next;
  }

  lemma CallersKeepMusic(s: State, a: Action)
    requires Shape(s) && Enabled(s, a)
    requires a.ReplaceQueue? || a.AddAnnouncement? || a.Send? || a.Signal? || a.UpdateConfig? || a.Cancel?
             || a.Connect? || a.OnWakeup?
    ensures MusicKept(s, Next(s, a))
  {
  }

  lemma AnnouncementsKeepMusic(s: State, a: Action)
    requires Enabled(s, a) && (a.StartAnnouncementPrepare? || a.OnAnnouncementReady?)
    ensures MusicKept(s, Next(s, a))
  {
  }

  lemma StepAudits(s: State, a: Action, i: Item)
    requires Audited(s, i) && Shape(s) && QueueOrdered(s) && Enabled(s, a)
    ensures Audited(Next(s, a), i)
  {
    hide Audited, Shape, QueueOrdered, MusicKept, DoTick, DoCommand, DoTrackReady, DoPromoteNext, DoStartTrackPrepare,
         DoReplaceQueue, DoAddAnnouncement, DoAnnouncementReady, DoStartAnnouncementPrepare, ExitRender;
    match a
    case OnTick(faults) => TickAudits(s, faults, i);
    case OnDone => DoneAudits(s, i);
    case OnCommand => CommandAudits(s, i);
    case OnTrackReady => TrackReadyAudits(s, i);
    case PromoteNext => PromoteAudits(s, i);
    case StartTrackPrepare => PopAudits(s, i);
    case StartAnnouncementPrepare | OnAnnouncementReady =>
      AnnouncementsKeepMusic(s, a);
      SameMusic(s, Next(s, a), i);
    case ReplaceQueue(_, _) | AddAnnouncement(_) | Send(_) | Signal | UpdateConfig(_) | Cancel | Connect | OnWakeup =>
      CallersKeepMusic(s, a);
      SameMusic(s, Next(s, a), i);
    case _ =>
      PreparersKeepMusic(s, a);
      SameMusic(s, Next(s, a), i);
  }

  lemma DoneAudits(s: State, i: Item)
    requires Audited(s, i)
    ensures Audited(ExitRender(s, false), i)
  {
    LettingGo(Heard(s.log.trace, i), Left(s.loop, i), LengthOf(s, i), IsFinished(s.log.trace, i));
    ExitAudits(s, false, i);
  }

  lemma {:induction false} RunAudits(s: State, run: seq<Action>, i: Item)
    requires Audited(s, i) && Shape(s) && QueueOrdered(s) && Legal(s, run)
    ensures Audited(Exec(s, run), i)
    decreases |run|
  {
    if run != [] {
      StepAudits(s, run[0], i);
      StepKeepsShape(s, run[0]);
      StepKeepsOrder(s, run[0]);
      hide Audited, Shape, QueueOrdered, Next;
      RunAudits(Next(s, run[0]), run[1..], i);
    }
  }

  /** Over whole lives of a station, for every track: a finished track was heard to its last frame and no frame twice;
      a track on air or waiting to be was heard but for the frames its reader has left; and no track is heard beyond
      its length, or at all before it was prepared. */
  lemma FramesAreConserved(defaults: Transition, run: seq<Action>, i: Item)
    requires Legal(Init(defaults), run)
    ensures var s := Exec(Init(defaults), run);
            var heard := Heard(s.log.trace, i);
            && (Finished(i) in s.log.trace ==> i in s.log.lengths && heard == s.log.lengths[i])
            && (s.loop.current.Some? && s.loop.current.value.item == i ==>
                  i in s.log.lengths && heard + s.loop.current.value.remaining == s.log.lengths[i])
            && (s.loop.next.Some? && s.loop.next.value.item == i ==>
                  i in s.log.lengths && heard + s.loop.next.value.remaining == s.log.lengths[i])
            && heard <= if i in s.log.lengths then s.log.lengths[i] else 0
  {
    InitTracks(defaults);
    RunAudits(Init(defaults), run, i);
  }

  // ---------------------------------------------------------------- how long a track lasts

  /** A legal stretch inside one run in which no stop or skip arrives; play is allowed. */
  predicate UndisturbedStretch(s: State, run: seq<Action>)
    requires Legal(s, run)
    decreases |run|
  {
    run == [] ||
    (StaysInRun(s, run[0]) && PlaysOnly(s, run[0])
     && UndisturbedStretch(Next(s, run[0]), run[1..]))
  }

  predicate PlaysOnly(s: State, a: Action)
    requires Enabled(s, a)
  {
    a.OnCommand? ==> s.signals.commands[0].Play?
  }

  /** Ticks to play out `remaining` frames. An exhausted incoming track still takes one. */
  function TicksNeeded(remaining: nat): (n: nat)
    ensures n >= 1
  {
    Max(1, CeilDiv(remaining, BLOCK_FRAMES))
  }

  ghost predicate FinishedBetween(s: State, t: State, i: Item) {
    exists k :: |s.log.trace| <= k < |t.log.trace| && t.log.trace[k] == Finished(i)
  }

  lemma FinishedEarlier(s: State, t: State, u: State, i: Item)
    requires s.log.trace <= t.log.trace <= u.log.trace
    ensures FinishedBetween(s, t, i) || FinishedBetween(t, u, i) ==> FinishedBetween(s, u, i)
  {
  }

  /** A tick takes one block from the current track, and finishes it with the last. */
  ghost predicate PlaysOn(s: State, t: State)
    requires s.loop.current.Some?
  {
    var reel := s.loop.current.value;
    if TicksNeeded(reel.remaining) == 1 then
      FinishedBetween(s, t, reel.item)
    else
      && reel.remaining > BLOCK_FRAMES
      && t.loop.current == Some(reel.(remaining := reel.remaining - BLOCK_FRAMES))
      && TicksNeeded(reel.remaining - BLOCK_FRAMES) == TicksNeeded(reel.remaining) - 1
  }

  lemma ReadOneBlock(remaining: nat)
    ensures var got := ReadFrames(remaining, BLOCK_FRAMES, false);
            && got.Frames? && (got.done <==> TicksNeeded(remaining) == 1)
            && (!got.done ==> remaining > BLOCK_FRAMES && got.remaining == remaining - BLOCK_FRAMES
                              && TicksNeeded(remaining - BLOCK_FRAMES) == TicksNeeded(remaining) - 1)
  {
  }

  lemma RenderedCurrent(loop: Loop, faults: Faults)
    requires loop.current.Some? && RenderMusic(loop, faults).Rendered?
    ensures var music, reel := RenderMusic(loop, faults), loop.current.value;
            var got := ReadFrames(reel.remaining, BLOCK_FRAMES, false);
            && got.Frames? && music.done == got.done
            && music.loop.current == Some(reel.(remaining := got.remaining))
  {
    hide InTransition;
  }

  lemma TickPlaysOn(s: State, faults: Faults)
    requires s.loop.current.Some? && DoTick(s, faults).log.exits == s.log.exits
    ensures PlaysOn(s, DoTick(s, faults))
  {
    var music := RenderMusic(s.loop, faults);
    var over := ReadOverlay(s.loop.announcement, faults.announcement);
    if music.Rendered? {
      RenderedCurrent(s.loop, faults);
      ReadOneBlock(s.loop.current.value.remaining);
      WrittenCurrent(Mixed(s, music, over), music.block, music.done, over.done, over.failed);
      hide RenderMusic, ReadOverlay, AfterWrite, ReadFrames, TicksNeeded;
      assert s.log.trace <= Mixed(s, music, over).log.trace;
    }
  }

  lemma WrittenCurrent(s: State, block: Block, trackDone: bool, announcementDone: bool, broken: bool)
    requires s.loop.current.Some?
    ensures var t := AfterWrite(s, block, trackDone, announcementDone, broken);
            if trackDone then
              |t.log.trace| > |s.log.trace| + 1 && t.log.trace[|s.log.trace| + 1] == Finished(s.loop.current.value.item)
            else t.loop.current == s.loop.current
  {
  }

  lemma QuietStepKeepsCurrent(s: State, a: Action)
    requires Shape(s) && Enabled(s, a) && s.loop.current.Some? && !a.OnTick? && StaysInRun(s, a)
    requires PlaysOnly(s, a)
    ensures Next(s, a).loop.current == s.loop.current
  {
    hide Shape, DoCommand, DoReplaceQueue, DoAddAnnouncement, DoTrackReady, DoAnnouncementReady, DoPromoteNext,
         DoStartTrackPrepare, DoStartAnnouncementPrepare;
    match a
    case OnCommand => PlayKeepsCurrent(s);
    case OnTrackReady => TrackReadyKeepsCurrent(s);
    case PromoteNext => PromoteKeepsCurrent(s);
    case StartTrackPrepare => HeadKeepsCurrent(s);
    case OnAnnouncementReady | StartAnnouncementPrepare => AnnouncementsKeepMusic(s, a);
    case OnDone =>
    case Connect =>
    case ReplaceQueue(_, _) | AddAnnouncement(_) | Send(_) | Signal | UpdateConfig(_) | Cancel | OnWakeup =>
      CallersKeepMusic(s, a);
    case _ => PreparersKeepMusic(s, a);
  }

  lemma PlayKeepsCurrent(s: State)
    requires |s.signals.commands| > 0 && s.signals.commands[0].Play?
    ensures DoCommand(s).loop.current == s.loop.current
  {
  }

  lemma TrackReadyKeepsCurrent(s: State)
    requires s.loop.trackJob.Delivered? && s.loop.current.Some?
    ensures DoTrackReady(s).loop.current == s.loop.current
  {
  }

  lemma PromoteKeepsCurrent(s: State)
    requires s.loop.current.Some?
    ensures DoPromoteNext(s).loop.current == s.loop.current
  {
  }

  lemma HeadKeepsCurrent(s: State)
    ensures DoStartTrackPrepare(s).loop.current == s.loop.current
  {
  }

  /** A track with `r` frames left is on air, with exactly the frames of the passed ticks gone, for fewer than
      max(1, ceil(r / 960)) ticks, and has finished from then on, whatever queue, announcement and preparation steps
      are interleaved. */
  lemma {:induction false} TrackPlaysForExactlyItsLength(s: State, run: seq<Action>)
    requires Shape(s) && s.loop.current.Some?
    requires Legal(s, run) && UndisturbedStretch(s, run)
    ensures StandsSo(s, s.loop.current.value, Exec(s, run), Ticks(run))
    decreases |run|
  {
    hide Shape, Next, Enabled, StaysInRun, StandsSo, PlaysOn;
    var reel := s.loop.current.value;
    if run == [] {
      OnAirYet(s);
    } else {
      var t, u := Next(s, run[0]), Exec(Next(s, run[0]), run[1..]);
      StepPlaysOn(s, run[0]);
      TraceStays(t, run[1..]);
      if t.loop.current.Some? && !run[0].OnTick? {
        TrackPlaysForExactlyItsLength(t, run[1..]);
        StandsAsBefore(s, t, reel, u, Ticks(run));
      } else if TicksNeeded(reel.remaining) > 1 {
        OneBlockLess(s, t);
        TrackPlaysForExactlyItsLength(t, run[1..]);
        OneTickLess(s, t, u, Ticks(run));
      } else {
        LastTick(s, t, u, Ticks(run));
      }
    }
  }

  /** How a track that was on air in `s` stands in `t`, so many ticks later. */
  ghost predicate StandsSo(s: State, reel: Reel<Item>, t: State, ticks: nat) {
    if ticks < TicksNeeded(reel.remaining)
    then (ticks == 0 || reel.remaining > BLOCK_FRAMES * ticks)
         && t.loop.current == Some(reel.(remaining := reel.remaining - BLOCK_FRAMES * ticks))
    else FinishedBetween(s, t, reel.item)
  }

  lemma OnAirYet(s: State)
    requires s.loop.current.Some?
    ensures StandsSo(s, s.loop.current.value, s, 0)
  {
  }

  lemma StandsAsBefore(s: State, t: State, reel: Reel<Item>, u: State, ticks: nat)
    requires StandsSo(t, reel, u, ticks) && s.log.trace <= t.log.trace <= u.log.trace
    ensures StandsSo(s, reel, u, ticks)
  {
    FinishedEarlier(s, t, u, reel.item);
    hide FinishedBetween, TicksNeeded;
  }

  lemma OneBlockLess(s: State, t: State)
    requires s.loop.current.Some? && PlaysOn(s, t) && TicksNeeded(s.loop.current.value.remaining) > 1
    ensures t.loop.current.Some?
  {
    hide TicksNeeded;
  }

  lemma OneTickLess(s: State, t: State, u: State, ticks: nat)
    requires s.loop.current.Some? && PlaysOn(s, t) && TicksNeeded(s.loop.current.value.remaining) > 1
    requires ticks > 0 && t.loop.current.Some? && StandsSo(t, t.loop.current.value, u, ticks - 1)
    requires s.log.trace <= t.log.trace <= u.log.trace
    ensures StandsSo(s, s.loop.current.value, u, ticks)
  {
    FinishedEarlier(s, t, u, s.loop.current.value.item);
    hide FinishedBetween, TicksNeeded;
  }

  lemma LastTick(s: State, t: State, u: State, ticks: nat)
    requires s.loop.current.Some? && PlaysOn(s, t) && TicksNeeded(s.loop.current.value.remaining) == 1
    requires ticks > 0 && s.log.trace <= t.log.trace <= u.log.trace
    ensures StandsSo(s, s.loop.current.value, u, ticks)
  {
    FinishedEarlier(s, t, u, s.loop.current.value.item);
    hide FinishedBetween, TicksNeeded;
  }

  lemma StepPlaysOn(s: State, a: Action)
    requires Shape(s) && Enabled(s, a) && s.loop.current.Some? && StaysInRun(s, a)
    requires PlaysOnly(s, a)
    ensures Shape(Next(s, a)) && s.log.trace <= Next(s, a).log.trace
    ensures if a.OnTick? then PlaysOn(s, Next(s, a)) else Next(s, a).loop.current == s.loop.current
  {
    hide Shape, PlaysOn;
    StepKeepsShape(s, a);
    StepKeepsHistory(s, a);
    if a.OnTick? { TickPlaysOn(s, a.faults); } else { QuietStepKeepsCurrent(s, a); }
  }

  lemma {:induction false} TraceStays(s: State, run: seq<Action>)
    requires Legal(s, run)
    ensures s.log.trace <= Exec(s, run).log.trace
    decreases |run|
  {
    if run != [] {
      StepKeepsHistory(s, run[0]);
      TraceStays(Next(s, run[0]), run[1..]);
    }
  }
}
