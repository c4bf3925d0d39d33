/** Mode, announcement on display, and settings over runs; and what the end of a run leaves behind. */
module StationModes {
  import opened Common
  import opened Playlist
  import opened StationModel
  import opened StationShape
  import opened StationFrame
  import opened AnnouncementIndependence
  import Story = AnnouncementStory
  import Endings = AnnouncementFaults

  // ---------------------------------------------------------------- mode

  /** Past the promotion of the loop head. */
  predicate Promoted(pc: Pc) {
    pc.StartingTrack? || pc.StartingAnnouncement? || pc.Waiting?
  }

  ghost predicate ModeTells(s: State) {
    && (s.shared.current.Some? ==> s.shared.mode == Playing)
    && ((s.loop.pc.StartingAnnouncement? || s.loop.pc.Waiting?) && PendingTracks(s.loop) == [] && s.shared.current.None?
        ==> s.shared.mode != Playing)
    && (Promoted(s.loop.pc) && s.loop.next.Some? && s.shared.mode != Stopped ==> s.loop.current.Some?)
  }

  /** Steps that keep mode, published track, place in the loop and tracks in hand. */
  ghost predicate SameDisplay(s: State, t: State) {
    && t.shared.mode == s.shared.mode && t.shared.current == s.shared.current && t.loop.pc == s.loop.pc
    && PendingTracks(t.loop) == PendingTracks(s.loop)
    && (t.loop.next.Some? <==> s.loop.next.Some?) && (t.loop.current.Some? <==> s.loop.current.Some?)
  }

  lemma DisplayStays(s: State, t: State)
    requires ModeTells(s) && SameDisplay(s, t)
    ensures ModeTells(t)
  {
  }

  lemma PreparersKeepDisplay(s: State, a: Action)
    requires Enabled(s, a) && IsPreparer(a)
    ensures SameDisplay(s, Next(s, a))
  {
    PreparerFrame(s, a);
    TracksInHand(s, a);
    hide Next;
  }

  lemma TracksInHand(s: State, a: Action)
    requires Enabled(s, a) && IsPreparer(a)
    ensures JobItems(Next(s, a).loop.trackJob) == JobItems(s.loop.trackJob)
  {
    hide LogDecode;
  }

  lemma CallersKeepDisplay(s: State, a: Action)
    requires Enabled(s, a)
    requires a.ReplaceQueue? || a.AddAnnouncement? || a.Send? || a.Signal? || a.UpdateConfig? || a.Cancel?
    ensures SameDisplay(s, Next(s, a))
  {
  }

  lemma AnnouncementStageTells(s: State)
    requires ModeTells(s) && s.loop.pc.StartingAnnouncement?
    ensures ModeTells(DoStartAnnouncementPrepare(s))
  {
  }

  lemma TrackStageTells(s: State)
    requires ModeTells(s) && Shape(s) && s.loop.pc.StartingTrack?
    ensures ModeTells(DoStartTrackPrepare(s))
  {
  }

  lemma PromotionTells(s: State)
    requires ModeTells(s) && s.loop.pc.Promoting?
    ensures ModeTells(DoPromoteNext(s))
  {
  }

  lemma CommandTells(s: State)
    requires ModeTells(s) && |s.signals.commands| > 0
    ensures ModeTells(DoCommand(s))
  {
  }

  lemma ReadyTells(s: State, a: Action)
    requires ModeTells(s) && Enabled(s, a) && (a.OnTrackReady? || a.OnAnnouncementReady? || a.OnWakeup? || a.Connect?)
    ensures ModeTells(Next(s, a))
  {
  }

  lemma ExitTells(s: State, broken: bool)
    requires ModeTells(s)
    ensures ModeTells(ExitRender(s, broken))
  {
  }

  lemma AfterWriteTells(s: State, block: Block, trackDone: bool, announcementDone: bool, broken: bool)
    requires s.shared.current.Some? ==> s.shared.mode == Playing
    ensures ModeTells(AfterWrite(s, block, trackDone, announcementDone, broken))
  {
  }

  lemma TickTells(s: State, faults: Faults)
    requires ModeTells(s)
    ensures ModeTells(DoTick(s, faults))
  {
    var music, over := RenderMusic(s.loop, faults), ReadOverlay(s.loop.announcement, faults.announcement);
    hide RenderMusic, ReadOverlay, ExitRender, AfterWrite;
    if music.MusicFault? {
      ExitOfHeld(s, WithLedger(s, music.touched), false);
    } else if faults.write {
      ExitOfHeld(s, Mixed(s, music, over), over.failed);
    } else {
      AfterWriteTells(Mixed(s, music, over), music.block, music.done, over.done, over.failed);
    }
  }

  /** However the readers stand, leaving keeps what is published. */
  lemma ExitOfHeld(s: State, t: State, broken: bool)
    requires ModeTells(s) && t.shared == s.shared
    ensures ModeTells(ExitRender(t, broken))
  {
  }

  lemma StepTells(s: State, a: Action)
    requires ModeTells(s) && Shape(s) && Enabled(s, a)
    ensures ModeTells(Next(s, a))
  {
    hide ModeTells, Shape, SameDisplay, DoTick, DoCommand, DoTrackReady, DoAnnouncementReady, DoPromoteNext,
         DoStartTrackPrepare, DoStartAnnouncementPrepare, DoReplaceQueue, DoAddAnnouncement, ExitRender;
    match a
    case OnTick(faults) => TickTells(s, faults);
    case OnDone => ExitTells(s, false);
    case OnCommand => CommandTells(s);
    case PromoteNext => PromotionTells(s);
    case StartTrackPrepare => TrackStageTells(s);
    case StartAnnouncementPrepare => AnnouncementStageTells(s);
    case OnTrackReady | OnAnnouncementReady | OnWakeup | Connect => ReadyTells(s, a);
    case ReplaceQueue(_, _) | AddAnnouncement(_) | Send(_) | Signal | UpdateConfig(_) | Cancel =>
      CallersKeepDisplay(s, a);
      DisplayStays(s, Next(s, a));
    case _ =>
      PreparersKeepDisplay(s, a);
      DisplayStays(s, Next(s, a));
  }

  lemma {:induction false} RunTells(s: State, run: seq<Action>)
    requires ModeTells(s) && Shape(s) && Legal(s, run)
    ensures ModeTells(Exec(s, run)) && Shape(Exec(s, run))
    decreases |run|
  {
    if run != [] {
      hide ModeTells, Shape, Next, Enabled;
      StepTells(s, run[0]);
      StepKeepsShape(s, run[0]);
      RunTells(Next(s, run[0]), run[1..]);
    }
  }

  /** In every reachable state: what is published as current is playing; while the loop waits with nothing published and
      no track in hand it is idle or stopped; and a prepared next track waits only behind a current one or a stop. */
  lemma ModeTellsWhatPlays(defaults: Transition, run: seq<Action>)
    requires Legal(Init(defaults), run)
    ensures var s := Exec(Init(defaults), run);
            && (s.shared.current.Some? ==> s.shared.mode == Playing)
            && (s.loop.pc.Waiting? && PendingTracks(s.loop) == [] && s.shared.current.None? ==>
                  s.shared.mode != Playing)
            && (s.loop.pc.Waiting? && s.loop.next.Some? && s.shared.mode != Stopped ==> s.loop.current.Some?)
  {
    RunTells(Init(defaults), run);
  }

  // ---------------------------------------------------------------- the end of a run

  /** A step that ends the run leaves the shared half and the channels exactly as they are. */
  lemma EndOfRunLeavesShared(s: State, last: Action)
    requires Enabled(s, last) && (last.OnTick? || last.OnDone?) && !StaysInRun(s, last)
    ensures var t := Next(s, last); t.shared == s.shared && t.signals == s.signals && t.loop == NoLoop
  {
    if last.OnTick? {
      var music, over := RenderMusic(s.loop, last.faults), ReadOverlay(s.loop.announcement, last.faults.announcement);
      hide RenderMusic, ReadOverlay, AfterWrite;
      if music.Rendered? {
        Story.AfterWriteStays(Mixed(s, music, over), music.block, music.done, over.done, over.failed);
      }
    }
  }

  // ---------------------------------------------------------------- the announcement on display

  /** What is left on display when nothing is on air: an announcement lost on air stays there until the next one. */
  function LeftShown(settled: seq<Settlement>): Option<Announcement> {
    if settled == [] then None
    else
      var last := settled[|settled| - 1];
      match last.ending
      case LostOnAir => Some(last.announcement)
      case LostInterrupted => Some(last.announcement)
      case LostUnheard => LeftShown(settled[..|settled| - 1])
      case _ => None
  }

  ghost predicate Shows(v: View) {
    v.shown == if v.onAir.Some? then Some(v.onAir.value.item) else LeftShown(v.settled)
  }

  lemma LeftShownSnoc(settled: seq<Settlement>, x: Settlement)
    ensures LeftShown(settled + [x]) == match x.ending
              case LostOnAir => Some(x.announcement)
              case LostInterrupted => Some(x.announcement)
              case LostUnheard => LeftShown(settled)
              case _ => None
  {
    assert (settled + [x])[..|settled|] == settled;
  }

  lemma MoveShows(v: View, m: Move)
    requires Shows(v) && CanMove(v, m) && (m.Receive? ==> v.onAir.None?)
    ensures Shows(MoveView(v, m))
  {
    if v.onAir.Some? {
      LeftShownSnoc(v.settled, Settlement(v.onAir.value.item, Interrupted));
      LeftShownSnoc(v.settled, Settlement(v.onAir.value.item, Resolved));
    }
    if m.Receive? { LeftShownSnoc(v.settled, Settlement(v.job.item, Broken)); }
    hide LeftShown;
  }

  lemma LeavingShows(s: State, last: Action)
    requires Endings.InOrder(s) && Shows(ViewOf(s)) && Enabled(s, last) && !StaysInRun(s, last) && !last.Connect?
    ensures Shows(ViewOf(Next(s, last)))
  {
    hide Endings.InOrder;
    OnlyTheseLeave(s, last);
    EndOfRunLeavesShared(s, last);
    if |PendingAnnouncements(s.loop)| == 1 {
      Endings.LastStepSettles(s, last);
      LeftShownSnoc(s.log.settled, Settlement(PendingAnnouncements(s.loop)[0], Endings.LostBy(s, last)));
    } else {
      NothingToLose(s, last);
    }
    OnAirIsPending(s);
    hide Next, LeftShown, RenderMusic, StaysInRun, Enabled;
  }

  lemma OnAirIsPending(s: State)
    requires Endings.InOrder(s)
    ensures s.loop.announcement.Some? ==> PendingAnnouncements(s.loop) == [s.loop.announcement.value.item]
    ensures |PendingAnnouncements(s.loop)| <= 1
  {
  }

  lemma OnlyTheseLeave(s: State, last: Action)
    requires Enabled(s, last) && !StaysInRun(s, last) && !last.Connect?
    ensures last.OnTick? || last.OnDone?
  {
    if !last.OnTick? && !last.OnDone? { Story.OnlyTicksAndCancellationEnd(s, last); }
  }

  lemma NothingToLose(s: State, last: Action)
    requires Endings.InOrder(s) && Enabled(s, last) && !StaysInRun(s, last) && (last.OnTick? || last.OnDone?)
    requires |PendingAnnouncements(s.loop)| != 1
    ensures Next(s, last).log.settled == s.log.settled
  {
    OnAirIsPending(s);
    assert s.loop.announcement.None? && s.loop.announcementJob.NoJob?;
    hide Endings.InOrder;
    if last.OnTick? {
      var music, over := RenderMusic(s.loop, last.faults), ReadOverlay(s.loop.announcement, last.faults.announcement);
      if music.Rendered? {
        RenderedLoop(s.loop, last.faults);
        hide RenderMusic, AfterWrite;
        Story.AfterWriteStays(Mixed(s, music, over), music.block, music.done, over.done, over.failed);
      }
    }
  }

  lemma StepShows(s: State, a: Action)
    requires Endings.InOrder(s) && Shows(ViewOf(s)) && Enabled(s, a)
    ensures Shows(ViewOf(Next(s, a)))
  {
    assert Shape(s);
    if StaysInRun(s, a) {
      Projection(s, a);
      Story.EmptyAirBeforeReceipt(s, a);
      hide Endings.InOrder, Next, Shape, Shows, MoveView;
      MoveShows(ViewOf(s), MoveOf(s, a));
    } else if a.Connect? {
      assert ViewOf(Next(s, a)) == ViewOf(s);
    } else {
      hide Endings.InOrder, Next, Shape, Shows;
      LeavingShows(s, a);
    }
  }

  lemma {:induction false} RunShows(s: State, run: seq<Action>)
    requires Endings.InOrder(s) && Shows(ViewOf(s)) && Legal(s, run)
    ensures Shows(ViewOf(Exec(s, run)))
    decreases |run|
  {
    if run != [] {
      hide Endings.InOrder, Shows, ViewOf, Next, Enabled;
      StepShows(s, run[0]);
      Endings.StepStaysInOrder(s, run[0]);
      RunShows(Next(s, run[0]), run[1..]);
    }
  }

  /** Over whole lives the announcement on display is the one on air; otherwise none, except that one lost on air
      with its run stays on display until another is settled or goes on air. */
  lemma DisplayFollowsAnnouncements(defaults: Transition, run: seq<Action>)
    requires Legal(Init(defaults), run)
    ensures var s := Exec(Init(defaults), run);
            s.shared.currentAnn == if s.loop.announcement.Some? then Some(s.loop.announcement.value.item)
                                   else LeftShown(s.log.settled)
  {
    Story.Beginning(defaults);
    RunShows(Init(defaults), run);
  }

  // ---------------------------------------------------------------- settings in force

  /** The transition defaults set last. */
  function LastDefaults(first: Transition, run: seq<Action>): Transition
    decreases |run|
  {
    if run == [] then first
    else LastDefaults(if run[0].UpdateConfig? then run[0].defaults else first, run[1..])
  }

  lemma StepSetsDefaults(s: State, a: Action)
    requires Enabled(s, a)
    ensures Next(s, a).shared.defaults == if a.UpdateConfig? then a.defaults else s.shared.defaults
  {
    hide DoTick, DoTrackReady, DoAnnouncementReady, DoPromoteNext, ExitRender;
    match a
    case OnTick(faults) => TickFrame(s, faults);
    case OnDone | OnTrackReady | OnAnnouncementReady | PromoteNext | Connect => ArmFrame(s, a);
    case OnCommand | OnWakeup | StartTrackPrepare | StartAnnouncementPrepare => StagesKeepDefaults(s, a);
    case ReplaceQueue(_, _) | AddAnnouncement(_) | Send(_) | Signal | UpdateConfig(_) | Cancel =>
      CallersSetDefaults(s, a);
    case _ => PreparerFrame(s, a);
  }

  lemma StagesKeepDefaults(s: State, a: Action)
    requires Enabled(s, a) && (a.OnCommand? || a.OnWakeup? || a.StartTrackPrepare? || a.StartAnnouncementPrepare?)
    ensures Next(s, a).shared.defaults == s.shared.defaults
  {
  }

  lemma CallersSetDefaults(s: State, a: Action)
    requires Enabled(s, a)
    requires a.ReplaceQueue? || a.AddAnnouncement? || a.Send? || a.Signal? || a.UpdateConfig? || a.Cancel?
    ensures Next(s, a).shared.defaults == if a.UpdateConfig? then a.defaults else s.shared.defaults
  {
  }

  lemma {:induction false} DefaultsAreThoseSetLast(s: State, run: seq<Action>)
    requires Legal(s, run)
    ensures Exec(s, run).shared.defaults == LastDefaults(s.shared.defaults, run)
    decreases |run|
  {
    if run != [] {
      hide Next, Enabled;
      StepSetsDefaults(s, run[0]);
      DefaultsAreThoseSetLast(Next(s, run[0]), run[1..]);
    }
  }
}
