/** Which open assets are leaked: exactly those left in the ready channel of a finished run. */
module AssetLeak {
  import opened Common
  import opened Playlist
  import opened StationModel
  import opened StationShape
  import opened StationFrame
  import opened StationRuns
  import opened AssetLedger

  function InLoop(loop: Loop, a: nat): nat {
    Held(loop.current, a) + Held(loop.next, a) + Held(loop.announcement, a)
  }

  // ---------------------------------------------------------------- on to select

  /** The loop still holds what it held, and results already delivered are still there. */
  ghost predicate StillHolds(before: Loop, after: Loop, a: nat) {
    && InLoop(after, a) == InLoop(before, a)
    && (before.trackJob.Delivered? ==> after.trackJob == before.trackJob)
    && (before.announcementJob.Delivered? ==> after.announcementJob == before.announcementJob)
  }

  lemma PromotionHolds(s: State, a: nat)
    requires s.loop.pc.Promoting?
    ensures var t := DoPromoteNext(s); StillHolds(s.loop, t.loop, a) && t.loop.pc == StartingTrack
  {
  }

  lemma TrackStageHolds(s: State, a: nat)
    requires Shape(s) && s.loop.pc.StartingTrack?
    ensures var t := DoStartTrackPrepare(s); StillHolds(s.loop, t.loop, a) && t.loop.pc == StartingAnnouncement
  {
  }

  lemma AnnouncementStageHolds(s: State, a: nat)
    requires Shape(s) && s.loop.pc.StartingAnnouncement?
    ensures var t := DoStartAnnouncementPrepare(s); StillHolds(s.loop, t.loop, a) && t.loop.pc == Waiting
  {
  }

  /** From anywhere in a run the loop gets to its select, whatever it holds. */
  lemma ToSelect(s: State, a: nat) returns (run: seq<Action>)
    requires Shape(s) && !s.loop.pc.Off?
    ensures Legal(s, run) && Exec(s, run).loop.pc.Waiting? && StillHolds(s.loop, Exec(s, run).loop, a)
    decreases if s.loop.pc.Promoting? then 3 else if s.loop.pc.StartingTrack? then 2
              else if s.loop.pc.StartingAnnouncement? then 1 else 0
  {
    run := [];
    if !s.loop.pc.Waiting? {
      var stage := match s.loop.pc
        case Promoting => PromoteNext
        case StartingTrack => StartTrackPrepare
        case _ => StartAnnouncementPrepare;
      StageHolds(s, stage, a);
      StepKeepsShape(s, stage);
      hide Shape, Next, StillHolds, Enabled;
      run := ToSelect(Next(s, stage), a);
      Chain(s, stage, run);
      run := [stage] + run;
      HoldsOn(s.loop, Next(s, stage).loop, Exec(s, run).loop, a);
    }
  }

  lemma StageHolds(s: State, stage: Action, a: nat)
    requires Shape(s) && Enabled(s, stage)
    requires stage.PromoteNext? || stage.StartTrackPrepare? || stage.StartAnnouncementPrepare?
    ensures var t := Next(s, stage);
            && StillHolds(s.loop, t.loop, a)
            && t.loop.pc == match s.loop.pc
                 case Promoting => StartingTrack
                 case StartingTrack => StartingAnnouncement
                 case _ => Waiting
  {
    hide Shape, StillHolds, DoPromoteNext, DoStartTrackPrepare, DoStartAnnouncementPrepare;
    match stage
    case PromoteNext => PromotionHolds(s, a);
    case StartTrackPrepare => TrackStageHolds(s, a);
    case _ => AnnouncementStageHolds(s, a);
  }

  lemma HoldsOn(first: Loop, second: Loop, third: Loop, a: nat)
    requires StillHolds(first, second, a) && StillHolds(second, third, a)
    ensures StillHolds(first, third, a)
  {
  }

  // ---------------------------------------------------------------- ways to close

  /** Ending the station's context ends the run from its select, and closes what the loop holds. */
  lemma LeavingCloses(s: State, a: nat)
    requires s.loop.pc.Waiting? && InLoop(s.loop, a) == 1 && Holders(s.loop, s.orphans, a) == 1
    ensures Legal(s, [Cancel, OnDone])
    ensures var t := Exec(s, [Cancel, OnDone]); Holders(t.loop, t.orphans, a) == 0
  {
    var ended := Next(s, Cancel);
    OrphansAtExit(ended, false, a);
    hide ExitRender, HeldByOrphans;
    TwoSteps(s, Cancel, OnDone);
    ExitEmpties(ended);
  }

  lemma ExitEmpties(s: State)
    ensures ExitRender(s, false).loop == NoLoop
  {
  }

  lemma LoopCanClose(s: State, a: nat) returns (run: seq<Action>)
    requires Shape(s) && AssetKept(s, a) && InLoop(s.loop, a) == 1
    ensures Legal(s, run) && Holders(Exec(s, run).loop, Exec(s, run).orphans, a) == 0
  {
    assert !s.loop.pc.Off?;
    run := ToSelect(s, a);
    RunKeepsAsset(s, run, a);
    var t := Exec(s, run);
    assert Holders(t.loop, t.orphans, a) == 1;
    hide Legal, Exec, Shape, AssetKept;
    LeavingCloses(t, a);
    JoinRuns(s, run, [Cancel, OnDone]);
    run := run + [Cancel, OnDone];
  }

  /** A job that holds its result gives it up once the context has ended. */
  lemma HoldingCanClose(s: State, abandon: Action, a: nat)
    requires AssetKept(s, a) && Holders(s.loop, s.orphans, a) == 1
    requires (abandon.TrackAbandoned? && s.loop.trackJob.Holding? && HeldByJob(s.loop.trackJob, a) == 1)
          || (abandon.AnnouncementAbandoned? && s.loop.announcementJob.Holding?
              && HeldByJob(s.loop.announcementJob, a) == 1)
    ensures Legal(s, [Cancel, abandon])
    ensures Holders(Exec(s, [Cancel, abandon]).loop, Exec(s, [Cancel, abandon]).orphans, a) == 0
  {
    hide HeldByOrphans, AssetKept;
    TwoSteps(s, Cancel, abandon);
  }

  lemma OrphanCanClose(s: State, i: nat, a: nat)
    requires Holders(s.loop, s.orphans, a) == 1 && i < |s.orphans| && s.orphans[i] == Carrying(Some(a))
    ensures Legal(s, [Cancel, OrphanAbandoned(i)])
    ensures var t := Exec(s, [Cancel, OrphanAbandoned(i)]); Holders(t.loop, t.orphans, a) == 0
  {
    OrphanChanges(s.orphans, i, Gone, a);
    OrphanBound(s.orphans, i, a);
    hide HeldByOrphans;
    TwoSteps(s, Cancel, OrphanAbandoned(i));
  }

  /** A delivered result is received into the loop. */
  lemma DeliveredIsReceived(s: State, ready: Action, a: nat)
    requires Shape(s) && Enabled(s, ready)
    requires (ready.OnTrackReady? && HeldByJob(s.loop.trackJob, a) == 1)
          || (ready.OnAnnouncementReady? && HeldByJob(s.loop.announcementJob, a) == 1)
    ensures InLoop(Next(s, ready).loop, a) >= 1
  {
  }

  lemma DeliveredCanClose(s: State, ready: Action, a: nat) returns (run: seq<Action>)
    requires Shape(s) && AssetKept(s, a)
    requires (ready.OnTrackReady? && s.loop.trackJob.Delivered? && HeldByJob(s.loop.trackJob, a) == 1)
          || (ready.OnAnnouncementReady? && s.loop.announcementJob.Delivered?
              && HeldByJob(s.loop.announcementJob, a) == 1)
    ensures Legal(s, run) && Holders(Exec(s, run).loop, Exec(s, run).orphans, a) == 0
  {
    assert !s.loop.pc.Off?;
    run := ToSelect(s, a);
    RunKeepsAsset(s, run, a);
    var t := Exec(s, run);
    assert Enabled(t, ready);
    hide Legal, Exec;
    DeliveredIsReceived(t, ready, a);
    StepKeepsShape(t, ready);
    StepKeepsAsset(t, ready, a);
    var received := Next(t, ready);
    assert InLoop(received.loop, a) == 1;
    hide Next, Enabled, Shape, AssetKept;
    var rest := LoopCanClose(received, a);
    OneStepMore(t, ready, rest);
    JoinRuns(s, run, [ready] + rest);
    run := run + ([ready] + rest);
  }

  lemma OneStepMore(s: State, a: Action, rest: seq<Action>)
    requires Enabled(s, a) && Legal(Next(s, a), rest)
    ensures Legal(s, [a] + rest) && Exec(s, [a] + rest) == Exec(Next(s, a), rest)
  {
    Chain(s, a, rest);
  }

  ghost predicate Parked(s: State, a: nat) {
    exists i :: 0 <= i < |s.orphans| && s.orphans[i] == Orphan.Parked(Some(a))
  }

  /** What is held outside the ready channels of finished runs can be let go. */
  lemma CanLetGo(s: State, a: nat) returns (run: seq<Action>)
    requires Shape(s) && AssetKept(s, a) && Holders(s.loop, s.orphans, a) == 1 && !Parked(s, a)
    ensures Legal(s, run) && Holders(Exec(s, run).loop, Exec(s, run).orphans, a) == 0
  {
    if InLoop(s.loop, a) == 1 {
      run := LoopCanClose(s, a);
    } else if HeldByJob(s.loop.trackJob, a) == 1 {
      if s.loop.trackJob.Delivered? {
        run := DeliveredCanClose(s, OnTrackReady, a);
      } else {
        HoldingCanClose(s, TrackAbandoned, a);
        run := [Cancel, TrackAbandoned];
      }
    } else if HeldByJob(s.loop.announcementJob, a) == 1 {
      if s.loop.announcementJob.Delivered? {
        run := DeliveredCanClose(s, OnAnnouncementReady, a);
      } else {
        HoldingCanClose(s, AnnouncementAbandoned, a);
        run := [Cancel, AnnouncementAbandoned];
      }
    } else {
      var i := HoldingOrphan(s.orphans, a);
      assert s.orphans[i] == Carrying(Some(a));
      OrphanCanClose(s, i, a);
      run := [Cancel, OrphanAbandoned(i)];
    }
  }

  lemma {:induction false} HoldingOrphan(orphans: seq<Orphan>, a: nat) returns (i: nat)
    requires HeldByOrphans(orphans, a) > 0
    ensures i < |orphans| && HeldByOrphan(orphans[i], a) == 1
  {
    if HeldByOrphan(orphans[0], a) == 1 {
      i := 0;
    } else {
      i := HoldingOrphan(orphans[1..], a);
      i := i + 1;
    }
  }

  // ---------------------------------------------------------------- main results

  lemma {:induction false} AssetsStay(s: State, run: seq<Action>)
    requires Legal(s, run)
    ensures s.log.assets <= Exec(s, run).log.assets
    decreases |run|
  {
    if run != [] {
      StepKeepsAssetCount(s, run[0]);
      hide Next, Enabled;
      AssetsStay(Next(s, run[0]), run[1..]);
    }
  }

  ghost predicate OpenForEver(s: State, a: nat) {
    forall run :: Legal(s, run) ==> Follow(Unborn, Exec(s, run).log.ledger, a) == Open
  }

  /** In every reachable state an open asset can still be closed by some continuation exactly if it is not parked in the
      ready channel of a finished run; parked, it stays open in all of them. */
  lemma LeakedExactlyIfParked(defaults: Transition, before: seq<Action>, a: nat)
    requires Legal(Init(defaults), before)
    requires Follow(Unborn, Exec(Init(defaults), before).log.ledger, a) == Open
    ensures var s := Exec(Init(defaults), before);
            && (Parked(s, a) <==> OpenForEver(s, a))
            && (!Parked(s, a) <==>
                  exists run :: Legal(s, run) && Follow(Unborn, Exec(s, run).log.ledger, a) == Shut)
  {
    var s := Exec(Init(defaults), before);
    RunKeepsAsset(Init(defaults), before, a);
    if Parked(s, a) {
      var i :| 0 <= i < |s.orphans| && s.orphans[i] == Orphan.Parked(Some(a));
      forall run | Legal(s, run) ensures Follow(Unborn, Exec(s, run).log.ledger, a) == Open {
        ParkedAssetsStayOpen(defaults, before, run, i);
      }
    } else {
      var run := CanLetGo(s, a);
      AssetsStay(s, run);
      RunKeepsAsset(s, run, a);
      assert Legal(s, run) && Follow(Unborn, Exec(s, run).log.ledger, a) == Shut;
    }
  }

  /** And it happens: one track, prepared while the write of a tick fails. */
  lemma ParkingHappens(defaults: Transition, track: Track)
    requires NormalizeTrack(track, defaults).Some?
    ensures var run := LeakingRun(track);
            Legal(Init(defaults), run) && Exec(Init(defaults), run).orphans == [Orphan.Parked(Some(0))]
  {
    PreparationBegins(defaults, track);
    var first := BeginningRun(track);
    var s := Exec(Init(defaults), first);
    ResultIsLeft(s);
    hide Legal, Exec, Init;
    JoinRuns(Init(defaults), first, LeavingRun());
    assert LeakingRun(track) == first + LeavingRun();
  }

  function BeginningRun(track: Track): seq<Action> {
    [ReplaceQueue(1, [track]), Connect, PromoteNext, StartTrackPrepare, StartAnnouncementPrepare]
  }

  function LeavingRun(): seq<Action> {
    [TrackDecoded(Decoded(10)), TrackDelivered, OnTick(Faults(false, false, false, true))]
  }

  /** Nothing but one track, being decoded while the loop waits. */
  ghost predicate OnlyDecoding(s: State) {
    && s.loop == NoLoop.(pc := Waiting, trackPreparing := true, trackJob := s.loop.trackJob)
    && s.loop.trackJob.Decoding? && s.orphans == [] && s.log.assets == 0
  }

  lemma PreparationBegins(defaults: Transition, track: Track)
    requires NormalizeTrack(track, defaults).Some?
    ensures Legal(Init(defaults), BeginningRun(track)) && OnlyDecoding(Exec(Init(defaults), BeginningRun(track)))
  {
    var s0 := Init(defaults);
    var s1 := Next(s0, ReplaceQueue(1, [track]));
    assert |s1.shared.queue| == 1;
    var s2 := Next(s1, Connect);
    var s3 := Next(s2, PromoteNext);
    var s4 := Next(s3, StartTrackPrepare);
    assert OnlyDecoding(Next(s4, StartAnnouncementPrepare));
    hide Next, OnlyDecoding, Init;
    OneStep(s4, StartAnnouncementPrepare);
    Chain(s3, StartTrackPrepare, [StartAnnouncementPrepare]);
    Chain(s2, PromoteNext, [StartTrackPrepare, StartAnnouncementPrepare]);
    Chain(s1, Connect, [PromoteNext, StartTrackPrepare, StartAnnouncementPrepare]);
    Chain(s0, ReplaceQueue(1, [track]), [Connect, PromoteNext, StartTrackPrepare, StartAnnouncementPrepare]);
  }

  lemma ResultIsLeft(s: State)
    requires OnlyDecoding(s)
    ensures Legal(s, LeavingRun()) && Exec(s, LeavingRun()).orphans == [Orphan.Parked(Some(0))]
  {
    var fault := OnTick(Faults(false, false, false, true));
    var s1 := Next(s, TrackDecoded(Decoded(10)));
    var s2 := Next(s1, TrackDelivered);
    assert s2.loop.trackJob == Delivered(s.loop.trackJob.item, Success(Reel(s.loop.trackJob.item, 0, 10)));
    assert Next(s2, fault).orphans == [Orphan.Parked(Some(0))];
    hide Next;
    OneStep(s2, fault);
    Chain(s1, TrackDelivered, [fault]);
    Chain(s, TrackDecoded(Decoded(10)), [TrackDelivered, fault]);
  }

  function LeakingRun(track: Track): seq<Action> {
    [ReplaceQueue(1, [track]), Connect, PromoteNext, StartTrackPrepare, StartAnnouncementPrepare,
     TrackDecoded(Decoded(10)), TrackDelivered, OnTick(Faults(false, false, false, true))]
  }
}
