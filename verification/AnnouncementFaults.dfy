/** How announcements end, in terms of what goes wrong: decodes that fail, reads that fail, runs that end. With it the
    number of terminal events of an announcement follows from the inputs of its run alone. */
module AnnouncementFaults {
  import opened Common
  import opened Playlist
  import opened StationModel
  import opened StationShape
  import opened StationFrame
  import opened StationRuns
  import Flow = AnnouncementFlow
  import opened AnnouncementIndependence
  import opened AnnouncementStory

  /** A legal stretch inside one run, whatever fails in it. */
  predicate InsideRun(s: State, run: seq<Action>)
    requires Legal(s, run)
    decreases |run|
  {
    run == [] || (StaysInRun(s, run[0]) && InsideRun(Next(s, run[0]), run[1..]))
  }

  /** Whether the announcement read of one of the first `ticks` ticks fails. */
  predicate ReadFailsWithin(run: seq<Action>, ticks: nat) {
    if run == [] || ticks == 0 then false
    else if run[0].OnTick? then run[0].faults.announcement || ReadFailsWithin(run[1..], ticks - 1)
    else ReadFailsWithin(run[1..], ticks)
  }

  // ---------------------------------------------------------------- on air

  lemma FailingTick(s: State, faults: Faults)
    requires Shape(s) && Enabled(s, OnTick(faults)) && StaysInRun(s, OnTick(faults)) && faults.announcement
    requires s.loop.announcement.Some?
    ensures var t := Next(s, OnTick(faults));
            && t.loop.announcement.None?
            && t.log.settled == s.log.settled + [Settlement(s.loop.announcement.value.item, Interrupted)]
  {
    hide Next, Shape, Enabled, StaysInRun;
    Projection(s, OnTick(faults));
  }

  /** An announcement with `r` frames left that stays inside its run: if a read fails within its ceil(r / 960) ticks it
      is interrupted; otherwise it is on air for that many ticks and played out from then on. */
  lemma {:induction false} EndsAsItsReadsGo(s: State, run: seq<Action>)
    requires Shape(s) && s.loop.announcement.Some? && Legal(s, run) && InsideRun(s, run)
    ensures var reel := s.loop.announcement.value;
            EndsSo(s.log.settled, reel, Exec(s, run), ReadFailsWithin(run, BlocksLeft(reel.remaining)), Ticks(run))
    decreases |run|
  {
    hide Next, Shape, Enabled, StaysInRun, BlocksLeft, EndsSo;
    var reel := s.loop.announcement.value;
    BlocksArePositive(s);
    if run == [] {
      NotYet(s);
    } else {
      var t := Next(s, run[0]);
      StepKeepsShape(s, run[0]);
      SettledStays(t, run[1..]);
      if run[0].OnTick? && run[0].faults.announcement {
        FailingTick(s, run[0].faults);
        Ended(s.log.settled, reel, Interrupted, t, Exec(t, run[1..]), true, Ticks(run));
      } else {
        OnAirStep(s, run[0]);
        if t.loop.announcement.Some? {
          EndsAsItsReadsGo(t, run[1..]);
          if run[0].OnTick? { OneTickLater(s.log.settled, reel, Exec(s, run),
                                           ReadFailsWithin(run, BlocksLeft(reel.remaining)), Ticks(run)); }
        } else {
          Ended(s.log.settled, reel, Resolved, t, Exec(t, run[1..]), false, Ticks(run));
        }
      }
    }
  }

  /** How an announcement stands in `t`, given what it stood at before, whether a read failed in time, and the ticks. */
  ghost predicate EndsSo(settled: seq<Settlement>, reel: Reel<Announcement>, t: State, fails: bool, ticks: nat) {
    if fails then settled + [Settlement(reel.item, Interrupted)] <= t.log.settled
    else if ticks < BlocksLeft(reel.remaining) then
      t.log.settled == settled
      && BLOCK_FRAMES * ticks <= reel.remaining
      && t.loop.announcement == Some(reel.(remaining := reel.remaining - BLOCK_FRAMES * ticks))
    else settled + [Settlement(reel.item, Resolved)] <= t.log.settled
  }

  lemma NotYet(s: State)
    requires s.loop.announcement.Some? && BlocksLeft(s.loop.announcement.value.remaining) > 0
    ensures EndsSo(s.log.settled, s.loop.announcement.value, s, false, 0)
  {
    hide BlocksLeft;
  }

  lemma Ended(settled: seq<Settlement>, reel: Reel<Announcement>, ending: Ending, t: State, u: State, fails: bool,
              ticks: nat)
    requires t.log.settled == settled + [Settlement(reel.item, ending)] && t.log.settled <= u.log.settled
    requires if fails then ending == Interrupted else ending == Resolved && ticks >= BlocksLeft(reel.remaining)
    ensures EndsSo(settled, reel, u, fails, ticks)
  {
    hide BlocksLeft;
  }

  lemma OneTickLater(settled: seq<Settlement>, reel: Reel<Announcement>, t: State, fails: bool, ticks: nat)
    requires reel.remaining > BLOCK_FRAMES && ticks > 0
    requires BlocksLeft(reel.remaining - BLOCK_FRAMES) == BlocksLeft(reel.remaining) - 1
    requires EndsSo(settled, reel.(remaining := reel.remaining - BLOCK_FRAMES), t, fails, ticks - 1)
    ensures EndsSo(settled, reel, t, fails, ticks)
  {
    hide BlocksLeft;
  }

  lemma BlocksArePositive(s: State)
    requires Shape(s) && s.loop.announcement.Some?
    ensures BlocksLeft(s.loop.announcement.value.remaining) > 0
  {
  }

  // ---------------------------------------------------------------- in preparation

  /** A decode has come out, and its result has not been received. */
  ghost predicate Prepared(v: View, a: Announcement, result: Prepared<Announcement>) {
    && v.onAir.None? && v.preparing && !v.job.NoJob? && !v.job.Decoding? && v.job.item == a
    && (v.job.Holding? || v.job.Delivered? ==> v.job.result == result)
  }

  predicate NoReceipt(run: seq<Action>) {
    forall i :: 0 <= i < |run| ==> !run[i].OnAnnouncementReady?
  }

  lemma StaysPrepared(v: View, m: Move, a: Announcement, result: Prepared<Announcement>)
    requires Prepared(v, a, result) && CanMove(v, m) && !m.Receive?
    ensures Prepared(MoveView(v, m), a, result) && MoveView(v, m).settled == v.settled
  {
  }

  lemma {:induction false} ResultWaits(s: State, wait: seq<Action>, a: Announcement, result: Prepared<Announcement>)
    requires Shape(s) && Prepared(ViewOf(s), a, result)
    requires Legal(s, wait) && InsideRun(s, wait) && NoReceipt(wait)
    ensures Shape(Exec(s, wait)) && Prepared(ViewOf(Exec(s, wait)), a, result)
    ensures Exec(s, wait).log.settled == s.log.settled
    decreases |wait|
  {
    if wait != [] {
      hide Next, Shape, Enabled, StaysInRun, Prepared;
      Projection(s, wait[0]);
      StaysPrepared(ViewOf(s), MoveOf(s, wait[0]), a, result);
      StepKeepsShape(s, wait[0]);
      ResultWaits(Next(s, wait[0]), wait[1..], a, result);
    }
  }

  /** From its decode to the receipt of its result. */
  ghost predicate Preparation(s: State, outcome: StationModel.Decode, wait: seq<Action>) {
    && s.loop.announcementJob.Decoding? && GoodDecode(outcome)
    && var decoded := Next(s, AnnouncementDecoded(outcome));
    && Legal(decoded, wait) && InsideRun(decoded, wait) && NoReceipt(wait)
    && Enabled(Exec(decoded, wait), OnAnnouncementReady)
  }

  ghost function Received(s: State, outcome: StationModel.Decode, wait: seq<Action>): State
    requires Preparation(s, outcome, wait)
  {
    Next(Exec(Next(s, AnnouncementDecoded(outcome)), wait), OnAnnouncementReady)
  }

  lemma DecodePrepares(s: State, outcome: StationModel.Decode)
    requires Shape(s) && s.loop.announcementJob.Decoding?
    requires Enabled(s, AnnouncementDecoded(outcome))
    ensures var t := Next(s, AnnouncementDecoded(outcome));
            && Shape(t) && t.log.settled == s.log.settled
            && Prepared(ViewOf(t), s.loop.announcementJob.item,
                        DecodeJob(s.loop.announcementJob, s.log.assets, outcome).result)
  {
    StepKeepsShape(s, AnnouncementDecoded(outcome));
  }

  /** A received announcement goes on air, with all its frames, exactly if its decode gave any; otherwise it is settled
      as broken. */
  lemma EndsAsItsDecodeWent(s: State, outcome: StationModel.Decode, wait: seq<Action>)
    requires Shape(s) && Preparation(s, outcome, wait)
    ensures var a, t := s.loop.announcementJob.item, Received(s, outcome, wait);
            && Shape(t)
            && if outcome.Decoded?
               then t.log.settled == s.log.settled && t.loop.announcement == Some(Reel(a, s.log.assets, outcome.frames))
               else t.log.settled == s.log.settled + [Settlement(a, Broken)] && t.loop.announcement.None?
  {
    var decoded := Next(s, AnnouncementDecoded(outcome));
    DecodePrepares(s, outcome);
    var result := DecodeJob(s.loop.announcementJob, s.log.assets, outcome).result;
    hide Shape, Prepared, InsideRun, NoReceipt;
    ResultWaits(decoded, wait, s.loop.announcementJob.item, result);
    StepKeepsShape(Exec(decoded, wait), OnAnnouncementReady);
    ReceiptOf(Exec(decoded, wait), s.loop.announcementJob.item, result);
  }

  lemma ReceiptOf(s: State, a: Announcement, result: Prepared<Announcement>)
    requires Prepared(ViewOf(s), a, result) && s.loop.announcementJob.Delivered?
    ensures var t := DoAnnouncementReady(s);
            if result.Success? then t.log.settled == s.log.settled && t.loop.announcement == Some(result.reel)
            else t.log.settled == s.log.settled + [Settlement(a, Broken)] && t.loop.announcement.None?
  {
  }

  // ---------------------------------------------------------------- terminal events

  /** Events and accounts of announcements are in order: true of every reachable state. */
  ghost predicate InOrder(s: State) {
    Shape(s) && Told(ViewOf(s)) && Flow.AnnouncementsKept(s)
  }

  lemma RunStaysInOrder(s: State, run: seq<Action>)
    requires InOrder(s) && Legal(s, run)
    ensures InOrder(Exec(s, run))
  {
    hide Shape, Told, ViewOf, Flow.AnnouncementsKept, Legal, Exec;
    RunTells(s, run);
    Flow.RunSettles(s, run);
  }

  lemma StepStaysInOrder(s: State, a: Action)
    requires InOrder(s) && Enabled(s, a)
    ensures InOrder(Next(s, a))
  {
    hide Shape, Told, ViewOf, Flow.AnnouncementsKept, Next, Enabled;
    StepKeepsShape(s, a);
    StepTells(s, a);
    Flow.StepSettles(s, a);
  }

  lemma ReachableIsInOrder(defaults: Transition, run: seq<Action>)
    requires Legal(Init(defaults), run)
    ensures InOrder(Exec(Init(defaults), run))
  {
    hide Legal, Exec, Shape, Told, ViewOf, Flow.AnnouncementsKept;
    Beginning(defaults);
    RunStaysInOrder(Init(defaults), run);
  }

  lemma CountSettled(s: State, before: seq<Settlement>, x: Settlement)
    requires InOrder(s) && before + [x] <= s.log.settled
    ensures Terminals(s.log.notices, x.announcement) == TerminalsOf(x.ending)
  {
    var i := |before|;
    assert s.log.settled[i] == x;
    SettledWereAccepted(s);
    hide Shape, Told, ViewOf, Flow.AnnouncementsKept, Terminals, TerminalsOf;
    TerminalsAreExact(s, i);
  }

  lemma SettledWereAccepted(s: State)
    requires Flow.AnnouncementsKept(s)
    ensures |s.log.settled| + |PendingAnnouncements(s.loop)| <= |s.log.accepted|
    ensures forall a :: PendingAnnouncements(s.loop) == [a] ==> s.log.accepted[|s.log.settled|] == a
  {
    var names, pending := Flow.Names(s.log.settled), PendingAnnouncements(s.loop);
    assert s.log.accepted == names + (pending + s.shared.announcements);
    assert pending != [] ==> s.log.accepted[|names|] == pending[0];
  }

  lemma CountPending(s: State, a: Announcement)
    requires InOrder(s) && PendingAnnouncements(s.loop) == [a]
    ensures Terminals(s.log.notices, a) == 0
  {
    SettledWereAccepted(s);
    hide Shape, Told, ViewOf, Flow.AnnouncementsKept, Terminals;
    TerminalsAreExact(s, |s.log.settled|);
  }

  /** What the outcome of the decode and the ticks inside the run make of an announcement. */
  function TerminalsFrom(outcome: StationModel.Decode, play: seq<Action>): nat {
    if !outcome.Decoded? || ReadFailsWithin(play, BlocksLeft(outcome.frames)) then 2
    else if Ticks(play) < BlocksLeft(outcome.frames) then 0
    else 1
  }

  /** An announcement has two terminal events if its decode fails or one of the reads of its ceil(r / 960) ticks does,
      none until those ticks have passed otherwise, and one from then on: so exactly one if nothing of the two goes
      wrong and the run lasts long enough. */
  lemma TerminalEventsFollowFaults(defaults: Transition, before: seq<Action>, outcome: StationModel.Decode,
                                   wait: seq<Action>, play: seq<Action>)
    requires Legal(Init(defaults), before) && Preparation(Exec(Init(defaults), before), outcome, wait)
    requires var heard := Received(Exec(Init(defaults), before), outcome, wait);
             Legal(heard, play) && InsideRun(heard, play)
    ensures var s := Exec(Init(defaults), before);
            var t := Exec(Received(s, outcome, wait), play);
            Terminals(t.log.notices, s.loop.announcementJob.item) == TerminalsFrom(outcome, play)
  {
    ReachableIsInOrder(defaults, before);
    FaultsDecide(Exec(Init(defaults), before), outcome, wait, play);
  }

  lemma FaultsDecide(s: State, outcome: StationModel.Decode, wait: seq<Action>, play: seq<Action>)
    requires InOrder(s) && Preparation(s, outcome, wait)
    requires Legal(Received(s, outcome, wait), play) && InsideRun(Received(s, outcome, wait), play)
    ensures var t := Exec(Received(s, outcome, wait), play);
            Terminals(t.log.notices, s.loop.announcementJob.item) == TerminalsFrom(outcome, play)
  {
    var a, received := s.loop.announcementJob.item, Received(s, outcome, wait);
    var t := Exec(received, play);
    ReceivedInOrder(s, outcome, wait);
    EndsAsItsDecodeWent(s, outcome, wait);
    RunStaysInOrder(received, play);
    SettledStays(received, play);
    hide InOrder, Preparation, Received, Legal, Exec, InsideRun, Terminals, Shape;
    if !outcome.Decoded? {
      CountSettled(t, s.log.settled, Settlement(a, Broken));
    } else {
      EndsAsItsReadsGo(received, play);
      hide BlocksLeft, ReadFailsWithin;
      if ReadFailsWithin(play, BlocksLeft(outcome.frames)) {
        CountSettled(t, s.log.settled, Settlement(a, Interrupted));
      } else if Ticks(play) >= BlocksLeft(outcome.frames) {
        CountSettled(t, s.log.settled, Settlement(a, Resolved));
      } else {
        OnAirIsPending(t);
        CountPending(t, a);
      }
    }
  }

  lemma OnAirIsPending(s: State)
    requires InOrder(s) && s.loop.announcement.Some?
    ensures PendingAnnouncements(s.loop) == [s.loop.announcement.value.item]
  {
  }

  lemma ReceivedInOrder(s: State, outcome: StationModel.Decode, wait: seq<Action>)
    requires InOrder(s) && Preparation(s, outcome, wait)
    ensures InOrder(Received(s, outcome, wait))
  {
    var decoded := Next(s, AnnouncementDecoded(outcome));
    hide InOrder, InsideRun, NoReceipt, Next;
    StepStaysInOrder(s, AnnouncementDecoded(outcome));
    RunStaysInOrder(decoded, wait);
    StepStaysInOrder(Exec(decoded, wait), OnAnnouncementReady);
  }

  /** A step that ends the run with an announcement in the loop's hands leaves it with no terminal event, except that a
      tick whose read fails tells so before the write that ends the run. */
  lemma LostWithItsRun(defaults: Transition, before: seq<Action>, last: Action)
    requires Legal(Init(defaults), before)
    requires var s := Exec(Init(defaults), before);
             && Enabled(s, last) && !StaysInRun(s, last) && |PendingAnnouncements(s.loop)| == 1
    ensures var s := Exec(Init(defaults), before);
            var a := PendingAnnouncements(s.loop)[0];
            Terminals(Next(s, last).log.notices, a)
            == if s.loop.announcement.Some? && last.OnTick? && last.faults.announcement
                  && RenderMusic(s.loop, last.faults).Rendered? then 1 else 0
  {
    hide InOrder, StaysInRun, Enabled, Next, RenderMusic, Legal, Exec, Terminals, PendingAnnouncements;
    ReachableIsInOrder(defaults, before);
    LastStepCounts(Exec(Init(defaults), before), last);
  }

  lemma LastStepCounts(s: State, last: Action)
    requires InOrder(s) && Enabled(s, last) && !StaysInRun(s, last) && |PendingAnnouncements(s.loop)| == 1
    ensures Terminals(Next(s, last).log.notices, PendingAnnouncements(s.loop)[0]) == TerminalsOf(LostBy(s, last))
  {
    hide InOrder, Next, Enabled, StaysInRun, Terminals, TerminalsOf, LostBy, PendingAnnouncements;
    StepStaysInOrder(s, last);
    LastStepSettles(s, last);
    CountSettled(Next(s, last), s.log.settled, Settlement(PendingAnnouncements(s.loop)[0], LostBy(s, last)));
  }

  function LostBy(s: State, last: Action): Ending {
    if s.loop.announcement.None? then LostUnheard
    else if last.OnTick? && last.faults.announcement && RenderMusic(s.loop, last.faults).Rendered? then LostInterrupted
    else LostOnAir
  }

  lemma LastStepSettles(s: State, last: Action)
    requires InOrder(s) && Enabled(s, last) && !StaysInRun(s, last) && |PendingAnnouncements(s.loop)| == 1
    ensures Next(s, last).log.settled
         == s.log.settled + [Settlement(PendingAnnouncements(s.loop)[0], LostBy(s, last))]
  {
    OnlyTheseEnd(s, last);
    OnlyOneAnnouncement(s);
    hide InOrder, DoTick, ExitRender;
    if last.OnTick? { FatalTickSettles(s, last.faults); } else { ExitLoses(s, false); }
  }

  lemma OnlyTheseEnd(s: State, last: Action)
    requires InOrder(s) && Enabled(s, last) && !StaysInRun(s, last) && |PendingAnnouncements(s.loop)| == 1
    ensures last.OnTick? || last.OnDone?
  {
    if last.Connect? {
      ConnectingHoldsNothing(s);
    } else if !last.OnTick? && !last.OnDone? {
      hide InOrder;
      OnlyTicksAndCancellationEnd(s, last);
    }
  }

  lemma ConnectingHoldsNothing(s: State)
    requires InOrder(s) && Enabled(s, Connect)
    ensures |PendingAnnouncements(s.loop)| == 0
  {
  }

  lemma ExitLoses(s: State, broken: bool)
    requires s.loop.announcement.Some? ==> s.loop.announcementJob.NoJob?
    requires |PendingAnnouncements(s.loop)| == 1 && (broken ==> s.loop.announcement.Some?)
    ensures ExitRender(s, broken).log.settled == s.log.settled + [Settlement(PendingAnnouncements(s.loop)[0],
              if s.loop.announcement.None? then LostUnheard else if broken then LostInterrupted else LostOnAir)]
  {
  }

  lemma FatalTickSettles(s: State, faults: Faults)
    requires InOrder(s) && Enabled(s, OnTick(faults)) && !StaysInRun(s, OnTick(faults))
    requires |PendingAnnouncements(s.loop)| == 1
    ensures DoTick(s, faults).log.settled
         == s.log.settled + [Settlement(PendingAnnouncements(s.loop)[0], LostBy(s, OnTick(faults)))]
  {
    OnlyOneAnnouncement(s);
    hide InOrder, StaysInRun, Mixed, ReadOverlay, ExitRender;
    if RenderMusic(s.loop, faults).MusicFault? {
      var read := WithLedger(s, RenderMusic(s.loop, faults).touched);
      ExitLoses(read, false);
    } else {
      assert faults.write by { SurvivingTickStays(s, faults); }
      FailedWriteSettles(s, faults);
    }
  }

  lemma SurvivingTickStays(s: State, faults: Faults)
    requires Enabled(s, OnTick(faults)) && RenderMusic(s.loop, faults).Rendered?
    ensures faults.write || StaysInRun(s, OnTick(faults))
  {
    var music, over := RenderMusic(s.loop, faults), ReadOverlay(s.loop.announcement, faults.announcement);
    assert Mixed(s, music, over).log.exits == s.log.exits;
    hide RenderMusic, ReadOverlay, Mixed, ExitRender;
    AfterWriteStays(Mixed(s, music, over), music.block, music.done, over.done, over.failed);
  }

  lemma FailedWriteSettles(s: State, faults: Faults)
    requires RenderMusic(s.loop, faults).Rendered? && faults.write && |PendingAnnouncements(s.loop)| == 1
    requires s.loop.announcement.Some? ==> s.loop.announcementJob.NoJob? && s.loop.announcement.value.remaining > 0
    ensures DoTick(s, faults).log.settled
         == s.log.settled + [Settlement(PendingAnnouncements(s.loop)[0], LostBy(s, OnTick(faults)))]
  {
    var music, over := RenderMusic(s.loop, faults), ReadOverlay(s.loop.announcement, faults.announcement);
    RenderedLoop(s.loop, faults);
    OverlayFails(s.loop.announcement, faults.announcement);
    MixedSettles(s, music, over);
    hide RenderMusic, ReadOverlay, ExitRender, Mixed, AfterWrite;
    ExitLoses(Mixed(s, music, over), over.failed);
  }

  lemma MixedSettles(s: State, music: Rendered, over: Overlay)
    requires music.Rendered? && music.loop.announcementJob == s.loop.announcementJob
    ensures var mixed := Mixed(s, music, over);
            && mixed.log.settled == s.log.settled && mixed.log.exits == s.log.exits
            && mixed.loop.announcement == over.announcement
            && mixed.loop.announcementJob == s.loop.announcementJob
  {
  }

  lemma OnlyOneAnnouncement(s: State)
    requires InOrder(s)
    ensures s.loop.announcement.Some? ==>
              s.loop.announcementJob.NoJob? && s.loop.announcement.value.remaining > 0
  {
  }

  lemma OverlayFails(announcement: Option<Reel<Announcement>>, fails: bool)
    requires announcement.Some? ==> announcement.value.remaining > 0
    ensures var over := ReadOverlay(announcement, fails);
            && (over.failed <==> announcement.Some? && fails) && (over.announcement.Some? <==> announcement.Some?)
            && (announcement.Some? ==> over.announcement.value.item == announcement.value.item)
  {
  }

  /** What has been settled has had all its terminal events: no later run adds one. */
  lemma TerminalsAreFinal(defaults: Transition, before: seq<Action>, run: seq<Action>, i: nat)
    requires Legal(Init(defaults), before) && i < |Exec(Init(defaults), before).log.settled|
    requires Legal(Exec(Init(defaults), before), run)
    ensures var s := Exec(Init(defaults), before);
            var a := s.log.settled[i].announcement;
            Terminals(Exec(s, run).log.notices, a) == Terminals(s.log.notices, a)
  {
    ReachableIsInOrder(defaults, before);
    SettledCountStays(Exec(Init(defaults), before), run, i);
  }

  lemma SettledCountStays(s: State, run: seq<Action>, i: nat)
    requires InOrder(s) && Legal(s, run) && i < |s.log.settled|
    ensures var a := s.log.settled[i].announcement;
            Terminals(Exec(s, run).log.notices, a) == Terminals(s.log.notices, a)
  {
    hide InOrder, Terminals, Exec, Legal, TerminalsOf;
    RunStaysInOrder(s, run);
    SettledStays(s, run);
    assert s.log.settled[..i] + [s.log.settled[i]] == s.log.settled[..i + 1];
    CountSettled(s, s.log.settled[..i], s.log.settled[i]);
    CountSettled(Exec(s, run), s.log.settled[..i], s.log.settled[i]);
  }

  // ---------------------------------------------------------------- both failures happen

  function QueuedRun(a: Announcement): seq<Action> {
    [AddAnnouncement(a), Connect, PromoteNext, StartTrackPrepare, StartAnnouncementPrepare]
  }

  /** Nothing but one announcement, being decoded while the loop waits. */
  ghost predicate OnlyPreparing(s: State, a: Announcement) {
    && s.loop == NoLoop.(pc := Waiting, announcementPreparing := true, announcementJob := Decoding(a))
    && s.log.notices == [] && s.shared.queue == []
  }

  lemma PreparationBegins(defaults: Transition, a: Announcement)
    requires ValidAnnouncement(a)
    ensures Legal(Init(defaults), QueuedRun(a)) && OnlyPreparing(Exec(Init(defaults), QueuedRun(a)), a)
  {
    var s0 := Init(defaults);
    var s1 := Next(s0, AddAnnouncement(a));
    var s2 := Next(s1, Connect);
    var s3 := Next(s2, PromoteNext);
    var s4 := Next(s3, StartTrackPrepare);
    assert OnlyPreparing(Next(s4, StartAnnouncementPrepare), a);
    hide Next, OnlyPreparing, Init, ValidAnnouncement;
    OneStep(s4, StartAnnouncementPrepare);
    Chain(s3, StartTrackPrepare, [StartAnnouncementPrepare]);
    Chain(s2, PromoteNext, [StartTrackPrepare, StartAnnouncementPrepare]);
    Chain(s1, Connect, [PromoteNext, StartTrackPrepare, StartAnnouncementPrepare]);
    Chain(s0, AddAnnouncement(a), [Connect, PromoteNext, StartTrackPrepare, StartAnnouncementPrepare]);
  }

  function FailedDecode(): seq<Action> {
    [AnnouncementDecoded(DecodeFails), AnnouncementDelivered, OnAnnouncementReady]
  }

  lemma DecodeCanFail(s: State, a: Announcement)
    requires OnlyPreparing(s, a)
    ensures Legal(s, FailedDecode())
    ensures Exec(s, FailedDecode()).log.notices == [AnnouncementFailed(a), AnnouncementFailed(a)]
  {
    var s1 := Next(s, AnnouncementDecoded(DecodeFails));
    var s2 := Next(s1, AnnouncementDelivered);
    assert Next(s2, OnAnnouncementReady).log.notices == [AnnouncementFailed(a), AnnouncementFailed(a)];
    hide Next;
    OneStep(s2, OnAnnouncementReady);
    Chain(s1, AnnouncementDelivered, [OnAnnouncementReady]);
    Chain(s, AnnouncementDecoded(DecodeFails), [AnnouncementDelivered, OnAnnouncementReady]);
  }

  function FailedRead(): seq<Action> {
    [AnnouncementDecoded(Decoded(10)), AnnouncementDelivered, OnAnnouncementReady]
    + [PromoteNext, StartTrackPrepare, StartAnnouncementPrepare, OnTick(Faults(false, false, true, false))]
  }

  /** Nothing but one announcement on air, at the loop head. */
  ghost predicate OnlyOnAir(s: State, a: Announcement) {
    && s.loop == NoLoop.(pc := Promoting, announcement := s.loop.announcement)
    && s.loop.announcement.Some? && s.loop.announcement.value.item == a && s.loop.announcement.value.remaining == 10
    && s.log.notices == [AnnouncementStarted(a)] && s.shared.queue == []
  }

  lemma GoesOnAir(s: State, a: Announcement)
    requires OnlyPreparing(s, a)
    ensures var run := [AnnouncementDecoded(Decoded(10)), AnnouncementDelivered, OnAnnouncementReady];
            Legal(s, run) && OnlyOnAir(Exec(s, run), a)
  {
    var s1 := Next(s, AnnouncementDecoded(Decoded(10)));
    var s2 := Next(s1, AnnouncementDelivered);
    assert OnlyOnAir(Next(s2, OnAnnouncementReady), a);
    hide Next, OnlyOnAir;
    OneStep(s2, OnAnnouncementReady);
    Chain(s1, AnnouncementDelivered, [OnAnnouncementReady]);
    Chain(s, AnnouncementDecoded(Decoded(10)), [AnnouncementDelivered, OnAnnouncementReady]);
  }

  lemma ReadCanFail(s: State, a: Announcement)
    requires OnlyOnAir(s, a)
    ensures var run := [PromoteNext, StartTrackPrepare, StartAnnouncementPrepare,
                        OnTick(Faults(false, false, true, false))];
            && Legal(s, run)
            && Exec(s, run).log.notices == [AnnouncementStarted(a), AnnouncementFailed(a), AnnouncementFinished(a)]
  {
    var fault := OnTick(Faults(false, false, true, false));
    var s1 := Next(s, PromoteNext);
    var s2 := Next(s1, StartTrackPrepare);
    var s3 := Next(s2, StartAnnouncementPrepare);
    assert s3.loop == s.loop.(pc := Waiting) && s3.log.notices == s.log.notices;
    assert Next(s3, fault).log.notices == [AnnouncementStarted(a), AnnouncementFailed(a), AnnouncementFinished(a)];
    hide Next;
    OneStep(s3, fault);
    Chain(s2, StartAnnouncementPrepare, [fault]);
    Chain(s1, StartTrackPrepare, [StartAnnouncementPrepare, fault]);
    Chain(s, PromoteNext, [StartTrackPrepare, StartAnnouncementPrepare, fault]);
  }

  /** Any valid announcement can end with two terminal events, in either way. */
  lemma TwoTerminalEventsHappen(defaults: Transition, a: Announcement)
    requires ValidAnnouncement(a)
    ensures var run := QueuedRun(a) + FailedDecode();
            && Legal(Init(defaults), run)
            && Exec(Init(defaults), run).log.notices == [AnnouncementFailed(a), AnnouncementFailed(a)]
    ensures var run := QueuedRun(a) + FailedRead();
            && Legal(Init(defaults), run)
            && Exec(Init(defaults), run).log.notices
               == [AnnouncementStarted(a), AnnouncementFailed(a), AnnouncementFinished(a)]
  {
    PreparationBegins(defaults, a);
    var s := Exec(Init(defaults), QueuedRun(a));
    DecodeCanFail(s, a);
    GoesOnAir(s, a);
    var onAir := [AnnouncementDecoded(Decoded(10)), AnnouncementDelivered, OnAnnouncementReady];
    ReadCanFail(Exec(s, onAir), a);
    hide Legal, Exec, Init, OnlyPreparing, OnlyOnAir;
    JoinRuns(Init(defaults), QueuedRun(a), FailedDecode());
    JoinRuns(s, onAir, [PromoteNext, StartTrackPrepare, StartAnnouncementPrepare,
                        OnTick(Faults(false, false, true, false))]);
    JoinRuns(Init(defaults), QueuedRun(a), FailedRead());
  }
}
