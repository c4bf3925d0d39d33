/** When a transition begins and what a tick writes, in frames left and 48 frames a millisecond. */
module TransitionLaws {
  import opened Common
  import opened Playlist
  import opened StationModel
  import opened StationShape
  import opened StationFrame
  import opened AnnouncementIndependence
  import opened TrackFrames

  // ---------------------------------------------------------------- one tick

  /** What is rendered for the track on air: a blend exactly if a next track is prepared, its transition is no cut,
      and no more frames are left than that takes; a blend of up to 960 frames of this track with, for a crossfade
      only, up to 960 of the next; otherwise up to 960 frames of this track alone. The total is fixed by the first
      blend. */
  lemma BlendExactlyIf(loop: Loop, faults: Faults)
    requires loop.current.Some? && RenderMusic(loop, faults).Rendered?
    ensures var music := RenderMusic(loop, faults);
            var now, r := loop.current.value.item, loop.current.value.remaining;
            var ms := if loop.next.Some? then loop.next.value.item.track.transitionIn.durationMS else 0;
            && (music.block.Blend? <==>
                  loop.next.Some? && loop.next.value.item.track.transitionIn.kind != Cut && 0 < 48 * ms && r <= 48 * ms)
            && (!music.block.Blend? ==> music.block == Solo(now, Min(960, r)) && music.events == [])
            && (music.block.Blend? ==>
                  var next := loop.next.value;
                  var total := if loop.total == 0 then Min(48 * ms, r) else loop.total;
                  && music.block == Blend(now, next.item, Min(960, r),
                                          if next.item.track.transitionIn.kind == Crossfade
                                          then Min(960, next.remaining) else 0, loop.consumed, total)
                  && music.events == if loop.total == 0 then [TransitionStarted(now, next.item, total)] else [])
            && (music.done <==> r <= 960)
            && music.loop.current == Some(loop.current.value.(remaining := r - Min(960, r)))
  {
  }

  /** A tick that stays in its run writes one block of music. If the track on air has no more than 960 frames left it
      finishes there, and the next one, if prepared, starts at once; otherwise nothing is published any more. */
  lemma TickWritesOneBlock(s: State, faults: Faults)
    requires Enabled(s, OnTick(faults)) && StaysInRun(s, OnTick(faults))
    ensures var t := Next(s, OnTick(faults));
            var music := RenderMusic(s.loop, faults);
            && music.Rendered? && t.loop.pc == Promoting && t.shared.queue == s.shared.queue
            && (s.loop.current.None? ==>
                  t.log.trace == s.log.trace + [Music(Silence)] && t.loop.current.None?
                  && t.shared.mode == s.shared.mode && t.shared.current == s.shared.current)
            && (s.loop.current.Some? && s.loop.current.value.remaining > 960 ==>
                  t.log.trace == s.log.trace + music.events + [Music(music.block)]
                  && t.shared.mode == s.shared.mode && t.shared.current == s.shared.current
                  && t.loop.current == Some(s.loop.current.value.(remaining := s.loop.current.value.remaining - 960)))
            && (s.loop.current.Some? && s.loop.current.value.remaining <= 960 ==>
                  var ended := Finished(s.loop.current.value.item);
                  && t.loop.next.None? && t.loop.total == 0 && t.loop.consumed == 0
                  && if s.loop.next.Some? then
                       var next := s.loop.next.value.item;
                       && t.log.trace == s.log.trace + music.events + [Music(music.block)] + [ended] + [Started(next)]
                       && t.loop.current.Some? && t.loop.current.value.item == next
                       && t.shared.current == Some(next) && t.shared.mode == Playing
                     else
                       && t.log.trace == s.log.trace + music.events + [Music(music.block)] + [ended]
                       && t.loop.current.None? && t.shared.current.None?
                       && t.shared.mode == if s.shared.mode == Stopped then Stopped else Idle)
  {
    if s.loop.current.Some? {
      if RenderMusic(s.loop, faults).Rendered? { BlendExactlyIf(s.loop, faults); }
    } else {
      SilentRender(s.loop, faults);
    }
    TickIsWritten(s, faults);
    RenderedLoop(s.loop, faults);
    hide RenderMusic, DoTick, StaysInRun;
  }

  /** A tick inside the run, up to what the announcement does. */
  lemma TickIsWritten(s: State, faults: Faults)
    requires Enabled(s, OnTick(faults)) && StaysInRun(s, OnTick(faults))
    ensures RenderMusic(s.loop, faults).Rendered?
    ensures var music := RenderMusic(s.loop, faults);
            var written := s.(loop := music.loop.(pc := Promoting),
                              log := s.log.(trace := s.log.trace + music.events + [Music(music.block)]));
            var ended := if music.done && music.loop.current.Some? then FinishTrack(written) else written;
            var t := DoTick(s, faults);
            && t.loop == ended.loop.(announcement := t.loop.announcement)
            && t.shared == ended.shared.(currentAnn := t.shared.currentAnn)
            && t.log.trace == ended.log.trace
  {
    var music, over := RenderMusic(s.loop, faults), ReadOverlay(s.loop.announcement, faults.announcement);
    hide RenderMusic, ReadOverlay, AfterWrite, ExitRender, FinishTrack, MusicAlike;
    SurvivingTick(s, faults);
    var mixed := Mixed(s, music, over);
    var held := mixed.(loop := mixed.loop.(pc := Promoting),
                       log := mixed.log.(trace := mixed.log.trace + [Music(music.block)]));
    var written := s.(loop := music.loop.(pc := Promoting),
                      log := s.log.(trace := s.log.trace + music.events + [Music(music.block)]));
    WrittenAlike(s, music, over, held, written);
    AnnouncementsAside(mixed, music.block, music.done, over.done, over.failed);
    FinishAlike(held, written);
    OnlyMusic(DoTick(s, faults), if music.done && music.loop.current.Some? then FinishTrack(held) else held,
              if music.done && music.loop.current.Some? then FinishTrack(written) else written);
  }

  /** Alike but for the announcement. */
  ghost predicate MusicAlike(s: State, t: State) {
    && s.loop == t.loop.(announcement := s.loop.announcement)
    && s.shared == t.shared.(currentAnn := s.shared.currentAnn) && s.log.trace == t.log.trace
  }

  lemma WrittenAlike(s: State, music: Rendered, over: Overlay, held: State, written: State)
    requires music.Rendered?
    requires var mixed := Mixed(s, music, over);
             held == mixed.(loop := mixed.loop.(pc := Promoting),
                            log := mixed.log.(trace := mixed.log.trace + [Music(music.block)]))
    requires written == s.(loop := music.loop.(pc := Promoting),
                           log := s.log.(trace := s.log.trace + music.events + [Music(music.block)]))
    ensures MusicAlike(held, written)
  {
  }

  lemma FinishAlike(s: State, t: State)
    requires MusicAlike(s, t)
    ensures s.loop.current.Some? ==> t.loop.current.Some? && MusicAlike(FinishTrack(s), FinishTrack(t))
  {
  }

  lemma OnlyMusic(s: State, t: State, u: State)
    requires s.loop == t.loop.(announcement := s.loop.announcement)
    requires s.shared == t.shared.(currentAnn := s.shared.currentAnn) && s.log.trace == t.log.trace
    requires MusicAlike(t, u)
    ensures s.loop == u.loop.(announcement := s.loop.announcement)
    ensures s.shared == u.shared.(currentAnn := s.shared.currentAnn) && s.log.trace == u.log.trace
  {
  }

  lemma SurvivingTick(s: State, faults: Faults)
    requires Enabled(s, OnTick(faults)) && StaysInRun(s, OnTick(faults))
    ensures var music, over := RenderMusic(s.loop, faults), ReadOverlay(s.loop.announcement, faults.announcement);
            && music.Rendered?
            && DoTick(s, faults) == AfterWrite(Mixed(s, music, over), music.block, music.done, over.done, over.failed)
  {
    hide RenderMusic, ReadOverlay, AfterWrite;
  }

  /** After the write, up to what the announcement does. */
  lemma AnnouncementsAside(s: State, block: Block, trackDone: bool, announcementDone: bool, broken: bool)
    ensures var written := s.(loop := s.loop.(pc := Promoting), log := s.log.(trace := s.log.trace + [Music(block)]));
            var music := if trackDone && s.loop.current.Some? then FinishTrack(written) else written;
            var t := AfterWrite(s, block, trackDone, announcementDone, broken);
            && t.loop == music.loop.(announcement := t.loop.announcement)
            && t.shared == music.shared.(currentAnn := t.shared.currentAnn)
            && t.log.trace == music.log.trace
  {
    hide FinishTrack;
  }

  lemma SilentRender(loop: Loop, faults: Faults)
    requires loop.current.None?
    ensures RenderMusic(loop, faults) == Rendered(loop, Silence, false, [], [])
  {
  }

  // ---------------------------------------------------------------- when a transition begins

  /** Transition events between two states of a run. */
  ghost predicate NoTransitionBetween(s: State, t: State) {
    forall k :: |s.log.trace| <= k < |t.log.trace| ==> !t.log.trace[k].TransitionStarted?
  }

  ghost predicate TransitionBetween(s: State, t: State, from: Item, to: Item, total: nat) {
    exists k :: |s.log.trace| <= k < |t.log.trace| && t.log.trace[k] == TransitionStarted(from, to, total)
  }

  /** Ticks until no more than `fade` frames are left. */
  function TicksBefore(remaining: nat, fade: nat): nat {
    if remaining <= fade then 0 else CeilDiv(remaining - fade, 960)
  }

  lemma TicksBeforeLaw(remaining: nat, fade: nat)
    ensures remaining > fade ==> TicksBefore(remaining, fade) > 0
    ensures remaining > fade && remaining > 960 ==>
              TicksBefore(remaining - 960, fade) == TicksBefore(remaining, fade) - 1
    ensures remaining > fade ==> fade < remaining - 960 * TicksBefore(remaining, fade) + 960 <= fade + 960
  {
  }

  /** On air before its transition, with the next track prepared. */
  ghost predicate Approaching(s: State, fade: nat) {
    && s.loop.current.Some? && s.loop.current.value.remaining > 0 && s.loop.next.Some? && s.loop.total == 0
    && s.loop.next.value.item.track.transitionIn.kind != Cut
    && 48 * s.loop.next.value.item.track.transitionIn.durationMS == fade > 0
  }

  lemma QuietApproach(s: State, a: Action, fade: nat)
    requires Shape(s) && Approaching(s, fade) && Enabled(s, a) && !a.OnTick? && StaysInRun(s, a) && PlaysOnly(s, a)
    ensures var t := Next(s, a);
            && t.loop.current == s.loop.current && t.loop.next == s.loop.next && t.loop.total == 0
            && NoTransitionBetween(s, t)
  {
    assert s.loop.trackJob.NoJob?;
    hide Shape, StaysInRun, DoReplaceQueue, DoAddAnnouncement, DoAnnouncementReady, DoStartAnnouncementPrepare,
      ExitRender;
    if IsPreparer(a) {
      PreparerFrame(s, a);
    } else if a.OnCommand? || a.PromoteNext? || a.StartTrackPrepare? {
      HeadApproach(s, a, fade);
    } else if a.OnAnnouncementReady? || a.StartAnnouncementPrepare? {
      AnnouncementApproach(s, a);
    } else if a.OnDone? || a.Connect? {
      LeavingApproach(s, a);
    } else {
      CallerApproach(s, a);
    }
  }

  lemma HeadApproach(s: State, a: Action, fade: nat)
    requires Approaching(s, fade) && Enabled(s, a) && PlaysOnly(s, a)
    requires a.OnCommand? || a.PromoteNext? || a.StartTrackPrepare?
    ensures var t := Next(s, a);
            && t.loop.current == s.loop.current && t.loop.next == s.loop.next && t.loop.total == 0
            && NoTransitionBetween(s, t)
  {
  }

  lemma AnnouncementApproach(s: State, a: Action)
    requires Enabled(s, a) && (a.OnAnnouncementReady? || a.StartAnnouncementPrepare?)
    ensures var t := Next(s, a);
            && t.loop.current == s.loop.current && t.loop.next == s.loop.next && t.loop.total == s.loop.total
            && t.log.trace == s.log.trace
  {
  }

  lemma LeavingApproach(s: State, a: Action)
    requires Enabled(s, a) && (a.OnDone? || a.Connect?)
    ensures !StaysInRun(s, a)
  {
  }

  lemma CallerApproach(s: State, a: Action)
    requires Enabled(s, a)
    requires a.ReplaceQueue? || a.AddAnnouncement? || a.Send? || a.Signal? || a.UpdateConfig? || a.Cancel?
             || a.OnWakeup?
    ensures var t := Next(s, a);
            && t.loop.current == s.loop.current && t.loop.next == s.loop.next && t.loop.total == s.loop.total
            && t.log.trace == s.log.trace
  {
  }

  /** A tick while more frames are left than the transition takes. */
  lemma EarlyTick(s: State, faults: Faults, fade: nat)
    requires Approaching(s, fade) && Enabled(s, OnTick(faults)) && StaysInRun(s, OnTick(faults))
    requires s.loop.current.value.remaining > fade && s.loop.current.value.remaining > 960
    ensures var t := Next(s, OnTick(faults));
            && t.loop.current == Some(s.loop.current.value.(remaining := s.loop.current.value.remaining - 960))
            && t.loop.next == s.loop.next && t.loop.total == 0 && NoTransitionBetween(s, t)
  {
    TickWritesOneBlock(s, faults);
    BlendExactlyIf(s.loop, faults);
    SoloKeepsNext(s.loop, faults);
    TickIsWritten(s, faults);
    hide RenderMusic, DoTick, StaysInRun;
  }

  lemma SoloKeepsNext(loop: Loop, faults: Faults)
    requires RenderMusic(loop, faults).Rendered? && RenderMusic(loop, faults).block.Solo?
    ensures var after := RenderMusic(loop, faults).loop; after.next == loop.next && after.total == loop.total
  {
  }

  /** The first tick with no more frames left than the transition takes. */
  lemma FirstBlend(s: State, faults: Faults, fade: nat)
    requires Approaching(s, fade) && Enabled(s, OnTick(faults)) && StaysInRun(s, OnTick(faults))
    requires s.loop.current.value.remaining <= fade
    ensures TransitionBetween(s, Next(s, OnTick(faults)), s.loop.current.value.item, s.loop.next.value.item,
                              s.loop.current.value.remaining)
  {
    TickWritesOneBlock(s, faults);
    BlendExactlyIf(s.loop, faults);
    hide RenderMusic, DoTick, StaysInRun;
    var t := Next(s, OnTick(faults));
    assert t.log.trace[|s.log.trace|]
        == TransitionStarted(s.loop.current.value.item, s.loop.next.value.item, s.loop.current.value.remaining);
  }

  lemma BetweenGrows(s: State, t: State, u: State, from: Item, to: Item, total: nat)
    requires s.log.trace <= t.log.trace <= u.log.trace
    ensures NoTransitionBetween(s, t) && NoTransitionBetween(t, u) ==> NoTransitionBetween(s, u)
    ensures TransitionBetween(s, t, from, to, total) || TransitionBetween(t, u, from, to, total) ==>
              TransitionBetween(s, u, from, to, total)
  {
  }

  /** A next track held in time, with a transition of T frames, and r frames left on air: undisturbed by stop, skip
      or the end of the run, nothing begins for the ceil((r - T) / 960) ticks until no more than T frames are left,
      and the transition begins with the next tick, over exactly the frames then left: if r was more than T, over
      more than T - 960 and at most T. Only a track that ends before, which takes a transition of less than a block,
      has none. */
  lemma {:induction false} TransitionBeginsOnTime(s: State, run: seq<Action>, fade: nat)
    requires Shape(s) && Approaching(s, fade) && Legal(s, run) && UndisturbedStretch(s, run)
    ensures var t := Exec(s, run);
            var r := s.loop.current.value.remaining;
            var k := TicksBefore(r, fade);
            && (Ticks(run) <= k && 960 * Ticks(run) < r ==> NoTransitionBetween(s, t))
            && (Ticks(run) > k && 960 * k < r ==>
                  TransitionBetween(s, t, s.loop.current.value.item, s.loop.next.value.item, r - 960 * k))
            && (r > fade ==> fade - 960 < r - 960 * k <= fade)
    decreases |run|
  {
    var r := s.loop.current.value.remaining;
    TicksBeforeLaw(r, fade);
    if run != [] {
      hide Shape, Next, Enabled, StaysInRun, TicksBefore, NoTransitionBetween, TransitionBetween, PlaysOnly;
      var t, u := Next(s, run[0]), Exec(Next(s, run[0]), run[1..]);
      StepKeepsShape(s, run[0]);
      TraceGrows(s, run[0]);
      TraceStays(t, run[1..]);
      BetweenGrows(s, t, u, s.loop.current.value.item, s.loop.next.value.item,
                   r - 960 * Min(r / 960, TicksBefore(r, fade)));
      if !run[0].OnTick? {
        QuietApproach(s, run[0], fade);
        TransitionBeginsOnTime(t, run[1..], fade);
      } else if r <= fade {
        FirstBlend(s, run[0].faults, fade);
      } else if r > 960 {
        EarlyTick(s, run[0].faults, fade);
        TransitionBeginsOnTime(t, run[1..], fade);
      }
    }
  }

  lemma TraceGrows(s: State, a: Action)
    requires Enabled(s, a)
    ensures s.log.trace <= Next(s, a).log.trace
  {
    StepKeepsHistory(s, a);
  }
}
