/** Accepted announcements are settled once each, in order, across reconnects. */
module AnnouncementFlow {
  import opened Common
  import opened Playlist
  import opened StationModel
  import opened StationShape
  import opened StationFrame

  function Names(settled: seq<Settlement>): seq<Announcement> {
    seq(|settled|, i requires 0 <= i < |settled| => settled[i].announcement)
  }

  /** The endings of an announcement whose run ended first. */
  const LOST: set<Ending> := {LostUnheard, LostOnAir, LostInterrupted}

  function Count(settled: seq<Settlement>, endings: set<Ending>): nat {
    if settled == [] then 0 else (if settled[0].ending in endings then 1 else 0) + Count(settled[1..], endings)
  }

  lemma {:induction false} CountConcat(a: seq<Settlement>, b: seq<Settlement>, endings: set<Ending>)
    ensures Count(a + b, endings) == Count(a, endings) + Count(b, endings)
  {
    if a == [] {
      assert a + b == b;
    } else {
      CountConcat(a[1..], b, endings);
      assert (a + b)[1..] == a[1..] + b;
    }
  }

  lemma NamesConcat(a: seq<Settlement>, b: seq<Settlement>)
    ensures Names(a + b) == Names(a) + Names(b)
  {
  }

  /** Settled, then in the loop's hands, then queued: together exactly the accepted sequence. */
  ghost predicate Accounted(settled: seq<Settlement>, pending: seq<Announcement>, queue: seq<Announcement>,
                            accepted: seq<Announcement>, exits: nat) {
    && Names(settled) + (pending + queue) == accepted
    && Count(settled, {SurplusEnding}) == 0
    && Count(settled, LOST) <= exits
  }

  ghost predicate IdsMatch(accepted: seq<Announcement>, seen: set<string>) {
    && (forall i, j :: 0 <= i < j < |accepted| ==> accepted[i].commandID != accepted[j].commandID)
    && (forall i :: 0 <= i < |accepted| ==> accepted[i].commandID in seen)
    && (forall id :: id in seen ==> exists i :: 0 <= i < |accepted| && accepted[i].commandID == id)
  }

  ghost predicate AnnouncementsKept(s: State) {
    && Accounted(s.log.settled, PendingAnnouncements(s.loop), s.shared.announcements, s.log.accepted, s.log.exits)
    && IdsMatch(s.log.accepted, s.shared.seen)
    && |s.shared.announcements| <= MAX_ANNOUNCEMENTS
  }

  lemma Settle(settled: seq<Settlement>, added: seq<Settlement>, before: seq<Announcement>, after: seq<Announcement>,
               queue: seq<Announcement>, accepted: seq<Announcement>, exits: nat, exits': nat)
    requires Accounted(settled, before, queue, accepted, exits)
    requires Names(added) + after == before
    requires Count(added, {SurplusEnding}) == 0 && exits + Count(added, LOST) <= exits'
    ensures Accounted(settled + added, after, queue, accepted, exits')
  {
    CountConcat(settled, added, {SurplusEnding});
    CountConcat(settled, added, LOST);
    NamesConcat(settled, added);
    assert (Names(added) + after) + queue == Names(added) + (after + queue);
    assert (Names(settled) + Names(added)) + (after + queue) == Names(settled) + (Names(added) + (after + queue));
  }

  lemma OneSettled(x: Settlement, endings: set<Ending>)
    ensures Names([x]) + [] == [x.announcement]
    ensures Count([x], endings) == if x.ending in endings then 1 else 0
  {
    assert [x][1..] == [];
  }

  lemma ExitSettles(s: State, broken: bool)
    requires s.loop.announcement.Some? ==> s.loop.announcementJob.NoJob?
    requires AnnouncementsKept(s)
    ensures AnnouncementsKept(ExitRender(s, broken))
  {
    var pending := PendingAnnouncements(s.loop);
    assert |pending| <= 1;
    var lost := LoseAnnouncements(s.loop, broken);
    assert Names(lost) == pending && |lost| <= 1;
    Settle(s.log.settled, lost, pending, [], s.shared.announcements, s.log.accepted,
           s.log.exits, s.log.exits + 1);
  }

  lemma FinishSettles(s: State, broken: bool)
    requires s.loop.announcement.Some? && s.loop.announcementJob.NoJob?
    requires AnnouncementsKept(s)
    ensures AnnouncementsKept(FinishAnnouncement(s, broken))
  {
    var item := s.loop.announcement.value.item;
    var x := Settlement(item, if broken then Interrupted else Resolved);
    OneSettled(x, LOST);
    OneSettled(x, {SurplusEnding});
    assert PendingAnnouncements(s.loop) == [item];
    hide Accounted, IdsMatch, Count, Names;
    Settle(s.log.settled, [x], [item], [], s.shared.announcements, s.log.accepted,
           s.log.exits, s.log.exits);
  }

  /** Music work leaves everything about announcements alone. */
  ghost predicate AnnouncementSideKept(s: State, t: State) {
    && AnnouncementQueueKept(s, t)
    && PendingAnnouncements(t.loop) == PendingAnnouncements(s.loop)
    && t.log.settled == s.log.settled && t.log.exits == s.log.exits
  }

  lemma KeptSide(s: State, t: State)
    requires AnnouncementsKept(s) && AnnouncementSideKept(s, t)
    ensures AnnouncementsKept(t)
  {
  }

  lemma TickSettles(s: State, faults: Faults)
    requires Shape(s) && AnnouncementsKept(s) && Enabled(s, OnTick(faults))
    ensures AnnouncementsKept(DoTick(s, faults))
  {
    var music := RenderMusic(s.loop, faults);
    if music.MusicFault? {
      ExitSettles(WithLedger(s, music.touched), false);
    } else {
      var over := ReadOverlay(s.loop.announcement, faults.announcement);
      var mixed := Mixed(s, music, over);
      RenderedLoop(s.loop, faults);
      assert AnnouncementSideKept(s, mixed);
      if faults.write {
        ExitSettles(mixed, over.failed);
      } else {
        AfterWriteSettles(mixed, music.block, music.done, over.done, over.failed);
      }
    }
  }

  lemma AfterWriteSettles(s: State, block: Block, trackDone: bool, announcementDone: bool, broken: bool)
    requires s.loop.announcement.Some? ==> s.loop.announcementJob.NoJob?
    requires AnnouncementsKept(s)
    ensures AnnouncementsKept(AfterWrite(s, block, trackDone, announcementDone, broken))
  {
    var written := s.(loop := s.loop.(pc := Promoting), log := s.log.(trace := s.log.trace + [Music(block)]));
    var music := if trackDone && written.loop.current.Some? then FinishTrack(written) else written;
    assert AnnouncementSideKept(s, music);
    if announcementDone && music.loop.announcement.Some? { FinishSettles(music, broken); }
  }

  lemma ReadySettles(s: State)
    requires Shape(s) && AnnouncementsKept(s) && Enabled(s, OnAnnouncementReady)
    ensures AnnouncementsKept(DoAnnouncementReady(s))
  {
    assert s.loop.announcement.None? && JobFits(s.loop.announcementJob, true, s.signals.done);
    hide AnnouncementsKept, Shape;
    if s.loop.announcementJob.result.Failure? { UnpreparedSettles(s); } else { AiringSettles(s); }
  }

  lemma UnpreparedSettles(s: State)
    requires AnnouncementsKept(s) && s.loop.announcementJob.Delivered? && s.loop.announcementJob.result.Failure?
    requires s.loop.announcement.None?
    ensures AnnouncementsKept(DoAnnouncementReady(s))
  {
    var x := Settlement(s.loop.announcementJob.item, Broken);
    OneSettled(x, LOST);
    OneSettled(x, {SurplusEnding});
    assert PendingAnnouncements(s.loop) == [x.announcement];
    assert PendingAnnouncements(DoAnnouncementReady(s).loop) == [];
    hide Accounted, IdsMatch, Count, Names;
    Settle(s.log.settled, [x], [x.announcement], [], s.shared.announcements, s.log.accepted, s.log.exits, s.log.exits);
  }

  lemma AiringSettles(s: State)
    requires AnnouncementsKept(s) && s.loop.announcementJob.Delivered? && s.loop.announcementJob.result.Success?
    requires s.loop.announcement.None? && s.loop.announcementJob.result.reel.item == s.loop.announcementJob.item
    ensures AnnouncementsKept(DoAnnouncementReady(s))
  {
    hide AnnouncementsKept;
    assert PendingAnnouncements(DoAnnouncementReady(s).loop) == PendingAnnouncements(s.loop);
    KeptSide(s, DoAnnouncementReady(s));
  }

  lemma PopSettles(s: State)
    requires Shape(s) && AnnouncementsKept(s) && Enabled(s, StartAnnouncementPrepare)
    ensures AnnouncementsKept(DoStartAnnouncementPrepare(s))
  {
    if AnnouncementPoppable(s) {
      var queue := s.shared.announcements;
      assert PendingAnnouncements(s.loop) == [];
      assert [queue[0]] + queue[1..] == [] + queue;
    }
  }

  lemma AddSettles(s: State, a: Announcement)
    requires AnnouncementsKept(s)
    ensures AnnouncementsKept(DoAddAnnouncement(s, a))
  {
    if AddVerdict(s.shared, a).Queued? {
      var pending, queue := PendingAnnouncements(s.loop), s.shared.announcements;
      assert Names(s.log.settled) + (pending + (queue + [a])) == (Names(s.log.settled) + (pending + queue)) + [a];
      var after := s.log.accepted + [a];
      assert after[|s.log.accepted|] == a;
      forall id | id in s.shared.seen + {a.commandID}
        ensures exists i :: 0 <= i < |after| && after[i].commandID == id
      {
        if id != a.commandID {
          var i :| 0 <= i < |s.log.accepted| && s.log.accepted[i].commandID == id;
          assert after[i].commandID == id;
        }
      }
    }
  }

  lemma MusicStepKeepsSide(s: State, a: Action)
    requires Enabled(s, a)
    requires a.OnCommand? || a.OnTrackReady? || a.PromoteNext? || a.StartTrackPrepare? || a.OnWakeup?
    ensures AnnouncementSideKept(s, Next(s, a))
  {
    StepKeepsQueues(s, a);
    hide AnnouncementQueueKept, Next;
    if a.OnTrackReady? || a.OnCommand? { ArmKeepsSide(s, a); } else { HeadKeepsSide(s, a); }
  }

  lemma ArmKeepsSide(s: State, a: Action)
    requires Enabled(s, a) && (a.OnCommand? || a.OnTrackReady?)
    ensures var t := Next(s, a);
            && PendingAnnouncements(t.loop) == PendingAnnouncements(s.loop)
            && t.log.settled == s.log.settled && t.log.exits == s.log.exits
  {
    hide DoCommand, DoTrackReady, PendingAnnouncements;
    if a.OnCommand? { CommandKeepsSide(s); } else { TrackReadyKeepsSide(s); }
  }

  lemma CommandKeepsSide(s: State)
    requires |s.signals.commands| > 0
    ensures var t := DoCommand(s);
            && PendingAnnouncements(t.loop) == PendingAnnouncements(s.loop)
            && t.log.settled == s.log.settled && t.log.exits == s.log.exits
  {
  }

  lemma TrackReadyKeepsSide(s: State)
    requires s.loop.trackJob.Delivered?
    ensures var t := DoTrackReady(s);
            && PendingAnnouncements(t.loop) == PendingAnnouncements(s.loop)
            && t.log.settled == s.log.settled && t.log.exits == s.log.exits
  {
  }

  lemma HeadKeepsSide(s: State, a: Action)
    requires Enabled(s, a) && (a.PromoteNext? || a.StartTrackPrepare? || a.OnWakeup?)
    ensures var t := Next(s, a);
            && PendingAnnouncements(t.loop) == PendingAnnouncements(s.loop)
            && t.log.settled == s.log.settled && t.log.exits == s.log.exits
  {
  }

  lemma OtherStepKeepsSide(s: State, a: Action)
    requires Shape(s) && Enabled(s, a)
    requires a.ReplaceQueue? || a.Send? || a.Signal? || a.UpdateConfig? || a.Cancel? || a.Connect? || IsPreparer(a)
    ensures AnnouncementSideKept(s, Next(s, a))
  {
    if IsPreparer(a) { PreparerFrame(s, a); }
  }

  lemma DoneSettles(s: State, broken: bool)
    requires Shape(s) && AnnouncementsKept(s)
    ensures AnnouncementsKept(ExitRender(s, broken))
  {
    ExitSettles(s, broken);
  }

  lemma StepSettles(s: State, a: Action)
    requires Shape(s) && AnnouncementsKept(s) && Enabled(s, a)
    ensures AnnouncementsKept(Next(s, a))
  {
    hide AnnouncementsKept, AnnouncementSideKept, Shape, DoTick, ExitRender, DoAddAnnouncement,
         DoStartAnnouncementPrepare, DoAnnouncementReady;
    match a
    case AddAnnouncement(announcement) => AddSettles(s, announcement);
    case StartAnnouncementPrepare => PopSettles(s);
    case OnAnnouncementReady => ReadySettles(s);
    case OnTick(faults) => TickSettles(s, faults);
    case OnDone => DoneSettles(s, false);
    case OnCommand | OnTrackReady | PromoteNext | StartTrackPrepare | OnWakeup =>
      MusicStepKeepsSide(s, a);
      KeptSide(s, Next(s, a));
    case _ =>
      OtherStepKeepsSide(s, a);
      KeptSide(s, Next(s, a));
  }

  lemma {:induction false} RunSettles(s: State, run: seq<Action>)
    requires Shape(s) && AnnouncementsKept(s) && Legal(s, run)
    ensures Shape(Exec(s, run)) && AnnouncementsKept(Exec(s, run))
    decreases |run|
  {
    if run != [] {
      StepKeepsShape(s, run[0]);
      StepSettles(s, run[0]);
      RunSettles(Next(s, run[0]), run[1..]);
    }
  }

  // ---------------------------------------------------------------- main results

  /** Over whole lives of a station, reconnects included: settled announcements, then at most one in
      preparation or on air, then the queue of at most 32, make up exactly the accepted sequence in order.
      Command IDs are pairwise distinct, none is closed as surplus, at most one is lost per ended run. */
  lemma AnnouncementConservation(defaults: Transition, run: seq<Action>)
    requires Legal(Init(defaults), run)
    ensures var s := Exec(Init(defaults), run);
            && Names(s.log.settled) + (PendingAnnouncements(s.loop) + s.shared.announcements) == s.log.accepted
            && |PendingAnnouncements(s.loop)| <= 1 && |s.shared.announcements| <= 32
            && Count(s.log.settled, {SurplusEnding}) == 0
            && Count(s.log.settled, LOST) <= s.log.exits
            && (forall i, j :: 0 <= i < j < |s.log.accepted| ==>
                  s.log.accepted[i].commandID != s.log.accepted[j].commandID)
  {
    RunSettles(Init(defaults), run);
  }

  /** In every reachable state a valid announcement is a duplicate exactly if its ID was accepted before, full
      queue or not; otherwise it is queued exactly if there is room, and a refusal for lack of room leaves the
      ID free, so that the same call succeeds once the loop has taken one announcement. */
  lemma AdmissionIsExact(defaults: Transition, run: seq<Action>, a: Announcement)
    requires Legal(Init(defaults), run) && ValidAnnouncement(a)
    ensures var s := Exec(Init(defaults), run);
            var known := exists i :: 0 <= i < |s.log.accepted| && s.log.accepted[i].commandID == a.commandID;
            && (AddVerdict(s.shared, a).Duplicate? <==> known)
            && (AddVerdict(s.shared, a).Queued? <==> !known && |s.shared.announcements| < 32)
            && (!AddVerdict(s.shared, a).Queued? ==> DoAddAnnouncement(s, a) == s)
            && (AddVerdict(s.shared, a).QueueFull? && s.loop.pc.StartingAnnouncement? && AnnouncementPoppable(s) ==>
                  AddVerdict(DoStartAnnouncementPrepare(s).shared, a).Queued?)
  {
    RunSettles(Init(defaults), run);
  }
}
