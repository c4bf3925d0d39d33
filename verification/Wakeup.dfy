/** The one-slot wakeup token loses no work: a blocked loop with something to pop has been or will be signalled. */
module Wakeup {
  import opened Common
  import opened Playlist
  import opened StationModel
  import opened StationShape
  import opened StationFrame

  /** The token is in its slot, or some caller has unlocked the station and is about to put it there. */
  predicate Signalled(s: State) {
    s.signals.wakeup || s.signals.unsignalled > 0
  }

  predicate PastTrackStage(pc: Pc) {
    pc.StartingAnnouncement? || pc.Waiting?
  }

  ghost predicate NothingForgotten(s: State) {
    && (PastTrackStage(s.loop.pc) && TrackPoppable(s) ==> Signalled(s))
    && (s.loop.pc.Waiting? && AnnouncementPoppable(s) ==> Signalled(s))
  }

  /** A step that ends at the loop head or outside a run has nothing to show. */
  lemma ArmForgetsNothing(s: State, a: Action)
    requires Shape(s) && Enabled(s, a)
    requires a.OnDone? || a.OnCommand? || a.OnTrackReady? || a.OnAnnouncementReady? || a.OnWakeup? || a.PromoteNext?
             || a.Connect?
    ensures !PastTrackStage(Next(s, a).loop.pc)
  {
  }

  lemma TickForgetsNothing(s: State, faults: Faults)
    requires Shape(s) && Enabled(s, OnTick(faults))
    ensures !PastTrackStage(DoTick(s, faults).loop.pc)
  {
    hide RenderMusic, ReadOverlay, Mixed, Shape;
  }

  lemma StepForgetsNothing(s: State, a: Action)
    requires Shape(s) && NothingForgotten(s) && Enabled(s, a)
    ensures NothingForgotten(Next(s, a))
  {
    hide Shape, NothingForgotten, DoTick, DoCommand, DoTrackReady, DoAnnouncementReady, DoPromoteNext, ExitRender;
    match a
    case OnTick(faults) => TickForgetsNothing(s, faults); HeadForgetsNothing(Next(s, a));
    case OnDone | OnCommand | OnTrackReady | OnAnnouncementReady | OnWakeup | PromoteNext | Connect =>
      ArmForgetsNothing(s, a);
      HeadForgetsNothing(Next(s, a));
    case StartTrackPrepare | StartAnnouncementPrepare => StageForgetsNothing(s, a);
    case ReplaceQueue(_, _) | AddAnnouncement(_) | Send(_) | Signal | UpdateConfig(_) | Cancel =>
      CallerForgetsNothing(s, a);
    case _ => PreparerForgetsNothing(s, a);
  }

  lemma HeadForgetsNothing(s: State)
    requires !PastTrackStage(s.loop.pc)
    ensures NothingForgotten(s)
  {
  }

  lemma StageForgetsNothing(s: State, a: Action)
    requires Shape(s) && NothingForgotten(s) && Enabled(s, a) && (a.StartTrackPrepare? || a.StartAnnouncementPrepare?)
    ensures NothingForgotten(Next(s, a))
  {
  }

  lemma CallerForgetsNothing(s: State, a: Action)
    requires NothingForgotten(s) && Enabled(s, a)
    requires a.ReplaceQueue? || a.AddAnnouncement? || a.Send? || a.Signal? || a.UpdateConfig? || a.Cancel?
    ensures NothingForgotten(Next(s, a))
  {
  }

  lemma PreparerForgetsNothing(s: State, a: Action)
    requires Shape(s) && NothingForgotten(s) && Enabled(s, a) && IsPreparer(a)
    ensures NothingForgotten(Next(s, a))
  {
    PreparerFrame(s, a);
    StepKeepsShape(s, a);
  }

  lemma {:induction false} RunForgetsNothing(s: State, run: seq<Action>)
    requires Shape(s) && NothingForgotten(s) && Legal(s, run)
    ensures Shape(Exec(s, run)) && NothingForgotten(Exec(s, run))
    decreases |run|
  {
    if run != [] {
      StepKeepsShape(s, run[0]);
      StepForgetsNothing(s, run[0]);
      RunForgetsNothing(Next(s, run[0]), run[1..]);
    }
  }

  /** Whenever the loop is blocked in select with a track or an announcement it could pop, the token is present
      or a caller is still between its unlock and its signal. */
  lemma NoLostWakeup(defaults: Transition, run: seq<Action>)
    requires Legal(Init(defaults), run)
    ensures var s := Exec(Init(defaults), run);
            s.loop.pc.Waiting? && (TrackPoppable(s) || AnnouncementPoppable(s)) ==> Signalled(s)
  {
    RunForgetsNothing(Init(defaults), run);
  }

  /** One pass over the loop head, back into select. */
  function HeadPass(s: State): State {
    DoStartAnnouncementPrepare(DoStartTrackPrepare(DoPromoteNext(s)))
  }

  lemma TrackStagePops(s: State)
    requires Shape(s) && s.loop.pc.StartingTrack?
    ensures var t := DoStartTrackPrepare(s);
            && Enabled(t, StartAnnouncementPrepare) && !TrackPoppable(t)
            && (TrackPoppable(s) ==>
                  t.loop.trackJob == Decoding(s.shared.queue[0]) && t.shared.queue == s.shared.queue[1..])
            && t.shared.announcements == s.shared.announcements && t.signals == s.signals
            && AnnouncementPoppable(t) == AnnouncementPoppable(s)
  {
  }

  /** And the token is enough: taking it leads, in one pass over the loop head, to both pops, after which
      nothing is left to pop. */
  lemma WakeupPops(s: State)
    requires Shape(s) && Enabled(s, OnWakeup)
    ensures var t := HeadPass(Next(s, OnWakeup));
            && t.loop.pc.Waiting? && !t.signals.wakeup
            && (TrackPoppable(s) ==>
                  t.loop.trackJob == Decoding(s.shared.queue[0]) && t.shared.queue == s.shared.queue[1..])
            && (AnnouncementPoppable(s) ==>
                  t.loop.announcementJob == Decoding(s.shared.announcements[0])
                  && t.shared.announcements == s.shared.announcements[1..])
            && !TrackPoppable(t) && !AnnouncementPoppable(t)
  {
    var promoted := DoPromoteNext(Next(s, OnWakeup));
    StepKeepsShape(s, OnWakeup);
    PromoteKeepsShape(Next(s, OnWakeup));
    assert Enabled(promoted, StartTrackPrepare);
    assert TrackPoppable(s) ==> TrackPoppable(promoted);
    TrackStagePops(promoted);
  }
}
