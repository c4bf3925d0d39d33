/** The language of the render loop's trace: what listeners hear and what the events say always agree,
    including the arithmetic of transitions. */
module PlaybackTrace {
  import opened Common
  import opened Playlist
  import opened StationModel
  import opened StationShape
  import opened StationFrame

  /** A transition under way: its total length in frames and the number of blocks blended so far. */
  datatype Fading = Fading(total: nat, blocks: nat)

  /** What an observer of the trace knows: the item on air, the transition under way, whether playback is stopped. */
  datatype Phase = Unlawful | Phase(playing: Option<Item>, fading: Option<Fading>, stopped: bool)

  const Quiet := Phase(None, None, false)

  /** Whether `b` may be written in phase `p`. Silence is heard exactly when nothing is on air. The block number
      `k` of a transition carries the progress fraction (960 k) / max(1, total), which lies in [0, 1). */
  predicate LawfulBlock(p: Phase, b: Block)
    requires p.Phase?
  {
    match b
    case Silence => p.playing.None?
    case Solo(item, frames) => p.playing == Some(item) && p.fading.None? && frames <= BLOCK_FRAMES
    case Blend(item, incoming, frames, incomingFrames, consumed, total) =>
      && p.playing == Some(item) && p.fading.Some?
      && total == p.fading.value.total
      && consumed == BLOCK_FRAMES * p.fading.value.blocks
      && consumed < Max(1, total)
      && frames == Min(BLOCK_FRAMES, total - consumed) && incomingFrames <= BLOCK_FRAMES
      && !incoming.track.transitionIn.kind.Cut?
      && total <= Max(0, TransitionFrames(incoming.track.transitionIn))
  }

  function Advance(p: Phase, e: TrackEvent): Phase {
    if p.Unlawful? then Unlawful
    else
      match e
      case Started(i) => if p.playing.None? && !p.stopped then Phase(Some(i), None, false) else Unlawful
      case Finished(i) => if p.playing == Some(i) then Phase(None, None, p.stopped) else Unlawful
      case Skipped(i) => if p.playing == Some(i) then Phase(None, None, p.stopped) else Unlawful
      case TransitionStarted(i, _, total) =>
        if p.playing == Some(i) && p.fading.None? then p.(fading := Some(Fading(total, 0))) else Unlawful
      case PlaybackStopped => Phase(None, None, true)
      case PlaybackResumed => p.(stopped := false)
      case RunEnded => Phase(None, None, p.stopped)
      case Music(b) =>
        if !LawfulBlock(p, b) then Unlawful
        else if b.Blend? then p.(fading := Some(p.fading.value.(blocks := p.fading.value.blocks + 1)))
        else p
      case Failed(_) => p
      case Lost(_) => p
      case Surplus(_) => p
  }

  function Replay(p: Phase, trace: seq<TrackEvent>): Phase
    decreases |trace|
  {
    if trace == [] then p else Replay(Advance(p, trace[0]), trace[1..])
  }

  lemma {:induction false} ReplayConcat(p: Phase, l: seq<TrackEvent>, r: seq<TrackEvent>)
    ensures Replay(p, l + r) == Replay(Replay(p, l), r)
    decreases |l|
  {
    if l == [] {
      assert l + r == r;
    } else {
      ReplayConcat(Advance(p, l[0]), l[1..], r);
      assert (l + r)[0] == l[0] && (l + r)[1..] == l[1..] + r;
    }
  }

  lemma ReplayOne(p: Phase, trace: seq<TrackEvent>, e: TrackEvent)
    ensures Replay(p, trace + [e]) == Advance(Replay(p, trace), e)
  {
    ReplayConcat(p, trace, [e]);
    assert Replay(Advance(Replay(p, trace), e), []) == Advance(Replay(p, trace), e);
    assert [e][1..] == [];
  }

  // ---------------------------------------------------------------- the loop agrees with its trace

  function PlayingItem(loop: Loop): Option<Item> {
    if loop.current.Some? then Some(loop.current.value.item) else None
  }

  /** The transition the counters describe: none until the total is set. */
  ghost predicate Counted(fading: Option<Fading>, loop: Loop) {
    if fading.None? then loop.total == 0 && loop.consumed == 0
    else
      && loop.current.Some? && InTransition(loop)
      && loop.total == fading.value.total > 0
      && loop.consumed == BLOCK_FRAMES * fading.value.blocks
      && loop.consumed + loop.current.value.remaining == loop.total
      && loop.current.value.remaining > 0
      && loop.total <= TransitionFrames(loop.next.value.item.track.transitionIn)
  }

  ghost predicate Agrees(p: Phase, loop: Loop, mode: Mode) {
    && p.Phase?
    && p.playing == PlayingItem(loop)
    && p.stopped == mode.Stopped?
    && Counted(p.fading, loop)
  }

  ghost predicate TraceAgrees(s: State) {
    Agrees(Replay(Quiet, s.log.trace), s.loop, s.shared.mode)
  }

  lemma {:induction false} LossesAreSilent(p: Phase, items: seq<Item>)
    ensures Replay(p, LoseTracks(items)) == p
    decreases |items|
  {
    if items != [] {
      assert LoseTracks(items)[0] == Lost(items[0]) && LoseTracks(items)[1..] == LoseTracks(items[1..]);
      LossesAreSilent(Advance(p, Lost(items[0])), items[1..]);
    }
  }

  lemma ExitAgrees(s: State, broken: bool)
    requires Replay(Quiet, s.log.trace).Phase? && Replay(Quiet, s.log.trace).stopped == s.shared.mode.Stopped?
    ensures TraceAgrees(ExitRender(s, broken))
  {
    ReplayOne(Quiet, s.log.trace, RunEnded);
    ReplayConcat(Quiet, s.log.trace + [RunEnded], LoseTracks(PendingTracks(s.loop)));
    LossesAreSilent(Replay(Quiet, s.log.trace + [RunEnded]), PendingTracks(s.loop));
  }

  /** The transition counters when a blended block is about to be rendered. */
  lemma BlendArithmetic(fading: Option<Fading>, loop: Loop)
    requires Counted(fading, loop) && InTransition(loop)
    ensures var frames := TransitionFrames(loop.next.value.item.track.transitionIn);
            var remaining := loop.current.value.remaining;
            var total := if loop.total == 0 then Min(frames, remaining) else loop.total;
            && total - loop.consumed == remaining && loop.consumed < Max(1, total) && total <= frames
            && (loop.total == 0 <==> fading.None?)
  {
  }

  predicate Continues(p: Phase, q: Phase) {
    q.Phase? && p.Phase? && q.stopped == p.stopped && q.playing == p.playing
  }

  lemma SoloBlock(p: Phase, loop: Loop, mode: Mode, faults: Faults)
    requires Agrees(p, loop, mode) && RenderMusic(loop, faults).Rendered? && !InTransition(loop)
    ensures var music := RenderMusic(loop, faults);
            && music.events == [] && LawfulBlock(p, music.block) && !music.block.Blend?
            && PlayingItem(music.loop) == PlayingItem(loop)
            && Counted(p.fading, music.loop)
  {
  }

  lemma BlendBlock(p: Phase, loop: Loop, mode: Mode, faults: Faults)
    requires Agrees(p, loop, mode) && RenderMusic(loop, faults).Rendered? && InTransition(loop)
    ensures var music := RenderMusic(loop, faults);
            var total := if loop.total == 0 then loop.current.value.remaining else loop.total;
            var item := loop.current.value.item;
            && music.events == (if p.fading.None? then [TransitionStarted(item, loop.next.value.item, total)] else [])
            && LawfulBlock(p.(fading := Some(Fading(total, loop.consumed / BLOCK_FRAMES))), music.block)
            && music.block.Blend? && loop.consumed == BLOCK_FRAMES * (loop.consumed / BLOCK_FRAMES)
            && (p.fading.Some? ==> p.fading == Some(Fading(total, loop.consumed / BLOCK_FRAMES)))
            && (p.fading.None? ==> loop.consumed == 0)
  {
    BlendArithmetic(p.fading, loop);
  }

  lemma BlendCounted(p: Phase, loop: Loop, mode: Mode, faults: Faults)
    requires Agrees(p, loop, mode) && RenderMusic(loop, faults).Rendered? && InTransition(loop)
    ensures var music := RenderMusic(loop, faults);
            var total := if loop.total == 0 then loop.current.value.remaining else loop.total;
            && PlayingItem(music.loop) == PlayingItem(loop)
            && (!music.done ==> Counted(Some(Fading(total, loop.consumed / BLOCK_FRAMES + 1)), music.loop))
  {
    BlendArithmetic(p.fading, loop);
    RenderedLoop(loop, faults);
    var music := RenderMusic(loop, faults);
    assert music.loop.current.value.remaining
        == loop.current.value.remaining - Min(BLOCK_FRAMES, loop.current.value.remaining);
  }

  /** Phase in which a tick writes its block, and the phase after the write. */
  lemma RenderedBlock(p: Phase, loop: Loop, mode: Mode, faults: Faults)
    requires Agrees(p, loop, mode) && RenderMusic(loop, faults).Rendered?
    ensures var music := RenderMusic(loop, faults);
            var q := Replay(p, music.events);
            && Continues(p, q) && LawfulBlock(q, music.block)
            && var r := Advance(q, Music(music.block));
               && Continues(p, r) && p.playing == PlayingItem(music.loop)
               && (!music.done ==> Counted(r.fading, music.loop))
  {
    var music := RenderMusic(loop, faults);
    if InTransition(loop) {
      BlendBlock(p, loop, mode, faults);
      BlendCounted(p, loop, mode, faults);
      if music.events != [] {
        assert music.events[1..] == [];
        assert Replay(p, music.events) == Advance(p, music.events[0]);
      }
    } else {
      SoloBlock(p, loop, mode, faults);
    }
  }

  lemma FinishAgrees(s: State)
    requires var p := Replay(Quiet, s.log.trace); p.Phase? && p.playing == PlayingItem(s.loop) && !p.stopped
    requires s.loop.current.Some? && !s.shared.mode.Stopped?
    ensures TraceAgrees(FinishTrack(s))
  {
    var finished := Finished(s.loop.current.value.item);
    ReplayOne(Quiet, s.log.trace, finished);
    if s.loop.next.Some? { ReplayOne(Quiet, s.log.trace + [finished], Started(s.loop.next.value.item)); }
  }

  lemma AfterWriteAgrees(s: State, block: Block, trackDone: bool, announcementDone: bool, broken: bool)
    requires var p := Replay(Quiet, s.log.trace);
             p.Phase? && p.stopped == s.shared.mode.Stopped? && LawfulBlock(p, block)
             && Advance(p, Music(block)).playing == PlayingItem(s.loop)
             && (!trackDone ==> Counted(Advance(p, Music(block)).fading, s.loop))
    requires trackDone ==> s.loop.current.Some? && !s.shared.mode.Stopped?
    ensures TraceAgrees(AfterWrite(s, block, trackDone, announcementDone, broken))
  {
    ReplayOne(Quiet, s.log.trace, Music(block));
    var written := s.(loop := s.loop.(pc := Promoting), log := s.log.(trace := s.log.trace + [Music(block)]));
    if trackDone { FinishAgrees(written); }
  }

  lemma TickAgrees(s: State, faults: Faults)
    requires Shape(s) && TraceAgrees(s) && Enabled(s, OnTick(faults))
    ensures TraceAgrees(DoTick(s, faults))
  {
    var music := RenderMusic(s.loop, faults);
    if music.MusicFault? {
      ExitAgrees(WithLedger(s, music.touched), false);
    } else {
      var over := ReadOverlay(s.loop.announcement, faults.announcement);
      var mixed := Mixed(s, music, over);
      RenderedLoop(s.loop, faults);
      RenderedBlock(Replay(Quiet, s.log.trace), s.loop, s.shared.mode, faults);
      ReplayConcat(Quiet, s.log.trace, music.events);
      if faults.write {
        ExitAgrees(mixed, over.failed);
      } else {
        AfterWriteAgrees(mixed, music.block, music.done, over.done, over.failed);
      }
    }
  }

  lemma CommandAgrees(s: State)
    requires Shape(s) && TraceAgrees(s) && Enabled(s, OnCommand)
    ensures TraceAgrees(DoCommand(s))
  {
    match s.signals.commands[0]
    case Play => ReplayOne(Quiet, s.log.trace, PlaybackResumed);
    case Stop => ReplayOne(Quiet, s.log.trace, PlaybackStopped);
    case Skip =>
      if s.loop.current.Some? { ReplayOne(Quiet, s.log.trace, Skipped(s.loop.current.value.item)); }
  }

  lemma TrackReadyAgrees(s: State)
    requires Shape(s) && TraceAgrees(s) && Enabled(s, OnTrackReady)
    ensures TraceAgrees(DoTrackReady(s))
  {
    var item := s.loop.trackJob.item;
    ReplayOne(Quiet, s.log.trace, Failed(item));
    ReplayOne(Quiet, s.log.trace, Started(item));
  }

  lemma PromoteAgrees(s: State)
    requires Shape(s) && TraceAgrees(s) && Enabled(s, PromoteNext)
    ensures TraceAgrees(DoPromoteNext(s))
  {
    if s.loop.next.Some? { ReplayOne(Quiet, s.log.trace, Started(s.loop.next.value.item)); }
  }

  lemma StartTrackAgrees(s: State)
    requires Shape(s) && TraceAgrees(s) && Enabled(s, StartTrackPrepare)
    ensures TraceAgrees(DoStartTrackPrepare(s))
  {
  }

  lemma QuietAgrees(s: State, a: Action)
    requires Shape(s) && TraceAgrees(s) && Enabled(s, a)
    requires a.StartAnnouncementPrepare? || a.OnAnnouncementReady? || a.OnWakeup? || a.Connect?
    ensures TraceAgrees(Next(s, a))
  {
    hide Replay;
    match a
    case StartAnnouncementPrepare => SameMusic(s, DoStartAnnouncementPrepare(s));
    case OnAnnouncementReady => SameMusic(s, DoAnnouncementReady(s));
    case _ =>
  }

  lemma SameMusic(s: State, t: State)
    requires TraceAgrees(s)
    requires t.log.trace == s.log.trace && t.shared.mode == s.shared.mode
    requires t.loop.current == s.loop.current && t.loop.next == s.loop.next
    requires t.loop.total == s.loop.total && t.loop.consumed == s.loop.consumed
    ensures TraceAgrees(t)
  {
    hide Replay;
  }

  lemma OthersAgree(s: State, a: Action)
    requires TraceAgrees(s) && Enabled(s, a)
    requires IsPreparer(a) || a.ReplaceQueue? || a.AddAnnouncement? || a.Send? || a.Signal? || a.UpdateConfig?
      || a.Cancel?
    ensures TraceAgrees(Next(s, a))
  {
    if IsPreparer(a) { PreparerFrame(s, a); } else { CallerFrame(s, a); }
  }

  lemma StepAgrees(s: State, a: Action)
    requires Shape(s) && TraceAgrees(s) && Enabled(s, a)
    ensures TraceAgrees(Next(s, a))
  {
    hide TraceAgrees, Shape, DoTick, ExitRender, DoCommand, DoTrackReady, DoPromoteNext, DoStartTrackPrepare;
    match a
    case OnTick(faults) => TickAgrees(s, faults);
    case OnDone => ExitAgreesInLoop(s, false);
    case OnCommand => CommandAgrees(s);
    case OnTrackReady => TrackReadyAgrees(s);
    case PromoteNext => PromoteAgrees(s);
    case StartTrackPrepare => StartTrackAgrees(s);
    case StartAnnouncementPrepare | OnAnnouncementReady | OnWakeup | Connect => QuietAgrees(s, a);
    case _ => OthersAgree(s, a);
  }

  lemma ExitAgreesInLoop(s: State, broken: bool)
    requires TraceAgrees(s)
    ensures TraceAgrees(ExitRender(s, broken))
  {
    ExitAgrees(s, broken);
  }

  lemma {:induction false} RunAgrees(s: State, run: seq<Action>)
    requires Shape(s) && TraceAgrees(s) && Legal(s, run)
    ensures Shape(Exec(s, run)) && TraceAgrees(Exec(s, run))
    decreases |run|
  {
    if run != [] {
      StepKeepsShape(s, run[0]);
      StepAgrees(s, run[0]);
      RunAgrees(Next(s, run[0]), run[1..]);
    }
  }

  // ---------------------------------------------------------------- main results

  /** In every reachable state the whole trace is lawful, and the phase it leads to is the loop's own: the item
      on air, whether playback is stopped, and how far the transition is. The station's published current track
      agrees while something plays, and nothing is published while stopped. */
  lemma PlaybackLanguage(defaults: Transition, run: seq<Action>)
    requires Legal(Init(defaults), run)
    ensures var s := Exec(Init(defaults), run);
            var p := Replay(Quiet, s.log.trace);
            && p.Phase? && p.playing == PlayingItem(s.loop) && p.stopped == s.shared.mode.Stopped?
            && Counted(p.fading, s.loop)
            && (s.loop.current.None? ==> s.loop.total == 0 && s.loop.consumed == 0)
            && (p.playing.Some? ==> s.shared.current == p.playing)
            && (p.stopped ==> p.playing.None? && s.shared.current.None?)
  {
    RunAgrees(Init(defaults), run);
  }

  predicate EndsTrack(e: TrackEvent) {
    e.Finished? || e.Skipped? || e.PlaybackStopped? || e.RunEnded?
  }

  lemma {:induction false} UnlawfulLasts(trace: seq<TrackEvent>)
    ensures Replay(Unlawful, trace) == Unlawful
  {
    if trace != [] { UnlawfulLasts(trace[1..]); }
  }

  /** The phase just before event `i` of a lawful trace; the event itself is lawful there. */
  lemma LawfulAt(trace: seq<TrackEvent>, i: nat)
    requires Replay(Quiet, trace).Phase? && i < |trace|
    ensures Advance(Replay(Quiet, trace[..i]), trace[i]).Phase?
    ensures Replay(Quiet, trace[..i + 1]) == Advance(Replay(Quiet, trace[..i]), trace[i])
  {
    assert trace[..i + 1] == trace[..i] + [trace[i]];
    ReplayOne(Quiet, trace[..i], trace[i]);
    assert trace == trace[..i + 1] + trace[i + 1..];
    ReplayConcat(Quiet, trace[..i + 1], trace[i + 1..]);
    if Replay(Quiet, trace[..i + 1]).Unlawful? { UnlawfulLasts(trace[i + 1..]); }
  }

  /** Between a stop and the next play command no track starts and every music block is silence. */
  lemma {:induction false} StoppedIsSilent(trace: seq<TrackEvent>, i: nat, j: nat)
    requires Replay(Quiet, trace).Phase? && i < j < |trace| && trace[i].PlaybackStopped?
    requires forall k :: i < k < j ==> !trace[k].PlaybackResumed?
    ensures !trace[j].Started? && (trace[j].Music? ==> trace[j].block.Silence?)
    ensures var p := Replay(Quiet, trace[..j]); p.Phase? && p.stopped && p.playing.None?
  {
    LawfulAt(trace, i);
    LawfulAt(trace, j);
    if j > i + 1 {
      StoppedIsSilent(trace, i, j - 1);
      LawfulAt(trace, j - 1);
    }
  }

  /** After a start, until that track ends, it is the only one heard and no other track starts. */
  lemma {:induction false} StartsAlternateWithEnds(trace: seq<TrackEvent>, i: nat, j: nat)
    requires Replay(Quiet, trace).Phase? && i < j < |trace| && trace[i].Started?
    requires forall k :: i < k < j ==> !EndsTrack(trace[k])
    ensures !trace[j].Started?
    ensures trace[j].Finished? || trace[j].Skipped? ==> trace[j].item == trace[i].item
    ensures trace[j].Music? ==> !trace[j].block.Silence? && trace[j].block.item == trace[i].item
    ensures var p := Replay(Quiet, trace[..j]); p.Phase? && p.playing == Some(trace[i].item)
  {
    LawfulAt(trace, i);
    LawfulAt(trace, j);
    if j > i + 1 {
      StartsAlternateWithEnds(trace, i, j - 1);
      LawfulAt(trace, j - 1);
    }
  }

  function CountMusic(trace: seq<TrackEvent>): nat {
    if trace == [] then 0 else CountMusic(trace[..|trace| - 1]) + if trace[|trace| - 1].Music? then 1 else 0
  }

  /** After a transition starts and until its track ends, every block is a blend with the same total; the number
      of frames counted before the block is 960 times the number of blocks since the start, and stays below the
      total, so progress begins at exactly 0, rises by 960 / total and never reaches 1. No second transition
      starts for the same track. */
  lemma {:induction false} TransitionProgress(trace: seq<TrackEvent>, i: nat, j: nat)
    requires Replay(Quiet, trace).Phase? && i < j < |trace| && trace[i].TransitionStarted?
    requires forall k :: i < k < j ==> !EndsTrack(trace[k])
    ensures !trace[j].TransitionStarted?
    ensures trace[j].Music? ==>
              var b := trace[j].block;
              && b.Blend? && b.total == trace[i].total
              && b.consumed == BLOCK_FRAMES * CountMusic(trace[i + 1..j])
              && b.consumed < Max(1, b.total)
    ensures var p := Replay(Quiet, trace[..j]);
            && p.Phase? && p.playing.Some?
            && p.fading == Some(Fading(trace[i].total, CountMusic(trace[i + 1..j])))
  {
    LawfulAt(trace, i);
    LawfulAt(trace, j);
    if j > i + 1 {
      TransitionProgress(trace, i, j - 1);
      LawfulAt(trace, j - 1);
      assert trace[i + 1..j][..j - i - 2] == trace[i + 1..j - 1];
    }
  }
}
