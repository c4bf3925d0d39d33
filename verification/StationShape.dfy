/** Facts about the loop's locals that every later argument rests on. */
module StationShape {
  import opened Common
  import opened Playlist
  import opened StationModel

  ghost predicate JobFits<T>(job: Job<T>, preparing: bool, done: bool) {
    && (preparing <==> !job.NoJob?)
    && (job.Abandoned? ==> done)
    && ((job.Holding? || job.Delivered?) && job.result.Success? ==>
          job.result.reel.item == job.item && job.result.reel.remaining > 0)
  }

  /** The preparing flags tell the truth, a prepared track excludes a preparation under way (so at most one
      track is pending, likewise one announcement), a playing announcement has frames left, nothing is
      playing while stopped, and outside a run all locals are gone. */
  ghost predicate Shape(s: State) {
    ShapeOf(s.loop, s.shared.mode, s.shared.current, s.signals.done)
  }

  ghost predicate ShapeOf(loop: Loop, mode: Mode, current: Option<Item>, done: bool) {
    && JobFits(loop.trackJob, loop.trackPreparing, done)
    && JobFits(loop.announcementJob, loop.announcementPreparing, done)
    && (loop.next.Some? ==> !loop.trackPreparing)
    && (loop.announcement.Some? ==> !loop.announcementPreparing && loop.announcement.value.remaining > 0)
    && (mode.Stopped? ==> loop.current.None? && current.None?)
    && (loop.current.Some? ==> current == Some(loop.current.value.item))
    && (loop.pc.Off? ==> loop == NoLoop)
  }

  ghost predicate SameItem<T>(before: Option<Reel<T>>, after: Option<Reel<T>>) {
    && (before.Some? <==> after.Some?)
    && (before.Some? ==> before.value.item == after.value.item && before.value.asset == after.value.asset)
  }

  /** Rendering music moves the two readers and the transition counters and nothing else. */
  lemma RenderedLoop(loop: Loop, faults: Faults)
    requires RenderMusic(loop, faults).Rendered?
    ensures var after := RenderMusic(loop, faults).loop;
            && after == loop.(current := after.current, next := after.next, total := after.total,
                              consumed := after.consumed)
            && SameItem(loop.current, after.current) && SameItem(loop.next, after.next)
            && (loop.current.None? ==> after == loop && !RenderMusic(loop, faults).done)
  {
  }

  lemma AfterWriteKeepsShape(s: State, block: Block, trackDone: bool, announcementDone: bool, broken: bool)
    requires s.loop.pc.Waiting?
    requires ShapeOf(s.loop.(announcement := None), s.shared.mode, s.shared.current, s.signals.done)
    requires s.loop.announcement.Some? ==> !s.loop.announcementPreparing
    requires s.loop.announcement.Some? && !announcementDone ==> s.loop.announcement.value.remaining > 0
    ensures Shape(AfterWrite(s, block, trackDone, announcementDone, broken))
  {
  }

  lemma TickKeepsShape(s: State, faults: Faults)
    requires Shape(s) && Enabled(s, OnTick(faults))
    ensures Shape(DoTick(s, faults))
  {
    var music := RenderMusic(s.loop, faults);
    if music.Rendered? {
      RenderedLoop(s.loop, faults);
      var over := ReadOverlay(s.loop.announcement, faults.announcement);
      if !faults.write { AfterWriteKeepsShape(Mixed(s, music, over), music.block, music.done, over.done, over.failed); }
    }
  }

  lemma CommandKeepsShape(s: State)
    requires Shape(s) && Enabled(s, OnCommand)
    ensures Shape(DoCommand(s))
  {
    match s.signals.commands[0]
    case Play =>
    case Stop =>
    case Skip =>
  }

  lemma TrackReadyKeepsShape(s: State)
    requires Shape(s) && Enabled(s, OnTrackReady)
    ensures Shape(DoTrackReady(s))
  {
  }

  lemma AnnouncementReadyKeepsShape(s: State)
    requires Shape(s) && Enabled(s, OnAnnouncementReady)
    ensures Shape(DoAnnouncementReady(s))
  {
  }

  lemma PromoteKeepsShape(s: State)
    requires Shape(s) && Enabled(s, PromoteNext)
    ensures Shape(DoPromoteNext(s))
  {
  }

  lemma StartTrackKeepsShape(s: State)
    requires Shape(s) && Enabled(s, StartTrackPrepare)
    ensures Shape(DoStartTrackPrepare(s))
  {
  }

  lemma StartAnnouncementKeepsShape(s: State)
    requires Shape(s) && Enabled(s, StartAnnouncementPrepare)
    ensures Shape(DoStartAnnouncementPrepare(s))
  {
  }

  lemma StepKeepsShape(s: State, a: Action)
    requires Shape(s) && Enabled(s, a)
    ensures Shape(Next(s, a))
  {
    hide Shape, DoTick, DoCommand, DoTrackReady, DoAnnouncementReady, DoPromoteNext, DoStartTrackPrepare,
         DoStartAnnouncementPrepare;
    match a
    case PromoteNext => PromoteKeepsShape(s);
    case StartTrackPrepare => StartTrackKeepsShape(s);
    case StartAnnouncementPrepare => StartAnnouncementKeepsShape(s);
    case OnTick(faults) => TickKeepsShape(s, faults);
    case OnCommand => CommandKeepsShape(s);
    case OnTrackReady => TrackReadyKeepsShape(s);
    case OnAnnouncementReady => AnnouncementReadyKeepsShape(s);
    case _ => OtherKeepsShape(s, a);
  }

  lemma OtherKeepsShape(s: State, a: Action)
    requires Shape(s) && Enabled(s, a)
    requires !a.PromoteNext? && !a.StartTrackPrepare? && !a.StartAnnouncementPrepare? && !a.OnTick? && !a.OnCommand?
             && !a.OnTrackReady? && !a.OnAnnouncementReady?
    ensures Shape(Next(s, a))
  {
    hide Shape, DoReplaceQueue, DoAddAnnouncement, ExitRender;
    match a
    case ReplaceQueue(_, _) | AddAnnouncement(_) | Send(_) | Signal | UpdateConfig(_) | Cancel =>
      CallerKeepsShape(s, a);
    case Connect | OnDone | OnWakeup => TurnKeepsShape(s, a);
    case _ => PreparerKeepsShape(s, a);
  }

  lemma CallerKeepsShape(s: State, a: Action)
    requires Shape(s) && Enabled(s, a)
    requires a.ReplaceQueue? || a.AddAnnouncement? || a.Send? || a.Signal? || a.UpdateConfig? || a.Cancel?
    ensures Shape(Next(s, a))
  {
  }

  lemma TurnKeepsShape(s: State, a: Action)
    requires Shape(s) && Enabled(s, a) && (a.Connect? || a.OnDone? || a.OnWakeup?)
    ensures Shape(Next(s, a))
  {
  }

  lemma PreparerKeepsShape(s: State, a: Action)
    requires Shape(s) && Enabled(s, a)
    requires a.TrackDecoded? || a.TrackDelivered? || a.TrackAbandoned? || a.AnnouncementDecoded?
             || a.AnnouncementDelivered? || a.AnnouncementAbandoned? || a.OrphanDecoded? || a.OrphanDelivered?
             || a.OrphanAbandoned?
    ensures Shape(Next(s, a))
  {
    hide Shape;
    match a
    case TrackDecoded(_) | TrackDelivered | TrackAbandoned => TrackPreparerKeepsShape(s, a);
    case AnnouncementDecoded(_) | AnnouncementDelivered | AnnouncementAbandoned => AnnouncementPreparerKeepsShape(s, a);
    case _ => OrphanKeepsShape(s, a);
  }

  lemma TrackPreparerKeepsShape(s: State, a: Action)
    requires Shape(s) && Enabled(s, a) && (a.TrackDecoded? || a.TrackDelivered? || a.TrackAbandoned?)
    ensures Shape(Next(s, a))
  {
  }

  lemma AnnouncementPreparerKeepsShape(s: State, a: Action)
    requires Shape(s) && Enabled(s, a)
    requires a.AnnouncementDecoded? || a.AnnouncementDelivered? || a.AnnouncementAbandoned?
    ensures Shape(Next(s, a))
  {
  }

  lemma OrphanKeepsShape(s: State, a: Action)
    requires Shape(s) && Enabled(s, a) && (a.OrphanDecoded? || a.OrphanDelivered? || a.OrphanAbandoned?)
    ensures Shape(Next(s, a))
  {
  }

  lemma {:induction false} RunKeepsShape(s: State, run: seq<Action>)
    requires Shape(s) && Legal(s, run)
    ensures Shape(Exec(s, run))
    decreases |run|
  {
    if run != [] {
      StepKeepsShape(s, run[0]);
      RunKeepsShape(Next(s, run[0]), run[1..]);
    }
  }
}
