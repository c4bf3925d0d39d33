/** Every popped track is started, fails, is lost with its run or is still pending, in pop order;
    popping follows the newest accepted list; and a replaced queue leaves at most one stale track behind. */
module TrackOrder {
  import opened Common
  import opened Playlist
  import opened StationModel
  import opened StationShape
  import opened StationFrame

  // ---------------------------------------------------------------- decisions in the trace

  datatype Fate = WasStarted | WasFailed | WasLost | WasSurplus
  datatype Verdict = Verdict(item: Item, fate: Fate)

  function VerdictOf(e: TrackEvent): seq<Verdict> {
    match e
    case Started(i) => [Verdict(i, WasStarted)]
    case Failed(i) => [Verdict(i, WasFailed)]
    case Lost(i) => [Verdict(i, WasLost)]
    case Surplus(i) => [Verdict(i, WasSurplus)]
    case _ => []
  }

  /** The decisions about popped tracks, in the order the trace records them. */
  function Verdicts(trace: seq<TrackEvent>): seq<Verdict> {
    if trace == [] then [] else VerdictOf(trace[0]) + Verdicts(trace[1..])
  }

  function Items(verdicts: seq<Verdict>): seq<Item> {
    seq(|verdicts|, i requires 0 <= i < |verdicts| => verdicts[i].item)
  }

  function Count(verdicts: seq<Verdict>, fate: Fate): nat {
    if verdicts == [] then 0 else (if verdicts[0].fate == fate then 1 else 0) + Count(verdicts[1..], fate)
  }

  lemma {:induction false} VerdictsConcat(a: seq<TrackEvent>, b: seq<TrackEvent>)
    ensures Verdicts(a + b) == Verdicts(a) + Verdicts(b)
  {
    if a == [] {
      assert a + b == b;
    } else {
      VerdictsConcat(a[1..], b);
      assert (a + b)[0] == a[0] && (a + b)[1..] == a[1..] + b;
      hide VerdictOf;
      Assoc(VerdictOf(a[0]), Verdicts(a[1..]), Verdicts(b));
    }
  }

  lemma {:induction false} CountConcat(a: seq<Verdict>, b: seq<Verdict>, fate: Fate)
    ensures Count(a + b, fate) == Count(a, fate) + Count(b, fate)
  {
    if a == [] {
      assert a + b == b;
    } else {
      CountConcat(a[1..], b, fate);
      assert (a + b)[1..] == a[1..] + b;
    }
  }

  lemma ItemsConcat(a: seq<Verdict>, b: seq<Verdict>)
    ensures Items(a + b) == Items(a) + Items(b)
  {
  }

  // ---------------------------------------------------------------- conservation

  /** Popped tracks are exactly the decided ones followed by the pending one. */
  ghost predicate Conserved(trace: seq<TrackEvent>, pending: seq<Item>, popped: seq<Item>, exits: nat) {
    && Items(Verdicts(trace)) + pending == popped
    && Count(Verdicts(trace), WasSurplus) == 0
    && Count(Verdicts(trace), WasLost) <= exits
  }

  ghost predicate TracksConserved(s: State) {
    Conserved(s.log.trace, PendingTracks(s.loop), s.log.popped, s.log.exits)
  }

  /** Appending events that decide about a prefix of the pending tracks keeps the account balanced. */
  lemma Balance(trace: seq<TrackEvent>, added: seq<TrackEvent>, before: seq<Item>, after: seq<Item>, popped: seq<Item>,
                more: seq<Item>, exits: nat, exits': nat)
    requires Conserved(trace, before, popped, exits)
    requires Items(Verdicts(added)) + after == before + more
    requires Count(Verdicts(added), WasSurplus) == 0
    requires exits + Count(Verdicts(added), WasLost) <= exits'
    ensures Conserved(trace + added, after, popped + more, exits')
  {
    VerdictsConcat(trace, added);
    CountConcat(Verdicts(trace), Verdicts(added), WasSurplus);
    CountConcat(Verdicts(trace), Verdicts(added), WasLost);
    ItemsConcat(Verdicts(trace), Verdicts(added));
    Regroup(Items(Verdicts(trace)), Items(Verdicts(added)), after, before, more);
  }

  lemma LossesAreVerdicts(pending: seq<Item>)
    requires |pending| <= 1
    ensures var lost := Verdicts([RunEnded] + LoseTracks(pending));
            Items(lost) == pending && Count(lost, WasSurplus) == 0 && Count(lost, WasLost) <= 1
  {
    VerdictsConcat([RunEnded], LoseTracks(pending));
    if pending == [] {
      assert LoseTracks(pending) == [];
    } else {
      assert LoseTracks(pending) == [Lost(pending[0])];
    }
  }

  lemma ExitConserves(s: State, broken: bool)
    requires s.loop.next.Some? ==> s.loop.trackJob.NoJob?
    requires TracksConserved(s)
    ensures TracksConserved(ExitRender(s, broken))
  {
    var pending := PendingTracks(s.loop);
    var added := [RunEnded] + LoseTracks(pending);
    LossesAreVerdicts(pending);
    hide Verdicts, Count, Items;
    Balance(s.log.trace, added, pending, [], s.log.popped, [], s.log.exits, s.log.exits + 1);
    assert s.log.trace + added == ExitRender(s, broken).log.trace;
    assert s.log.popped + [] == s.log.popped;
  }

  /** One appended event that decides about at most the pending track. */
  lemma BalanceOne(trace: seq<TrackEvent>, e: TrackEvent, before: seq<Item>, after: seq<Item>, popped: seq<Item>,
                   exits: nat)
    requires Conserved(trace, before, popped, exits)
    requires Items(VerdictOf(e)) + after == before
    requires !e.Surplus? && !e.Lost?
    ensures Conserved(trace + [e], after, popped, exits)
  {
    assert Verdicts([e]) == VerdictOf(e) + Verdicts([]) == VerdictOf(e);
    Balance(trace, [e], before, after, popped, [], exits, exits);
    assert popped + [] == popped;
  }

  lemma FinishTrackConserves(s: State)
    requires s.loop.current.Some?
    requires s.loop.next.Some? ==> s.loop.trackJob.NoJob?
    requires TracksConserved(s)
    ensures TracksConserved(FinishTrack(s))
  {
    var finished := s.loop.current.value.item;
    BalanceOne(s.log.trace, Finished(finished), PendingTracks(s.loop), PendingTracks(s.loop), s.log.popped,
               s.log.exits);
    if s.loop.next.Some? {
      BalanceOne(s.log.trace + [Finished(finished)], Started(s.loop.next.value.item), PendingTracks(s.loop), [],
                 s.log.popped, s.log.exits);
    }
  }

  lemma AfterWriteConserves(s: State, block: Block, trackDone: bool, announcementDone: bool, broken: bool)
    requires s.loop.next.Some? ==> s.loop.trackJob.NoJob?
    requires TracksConserved(s)
    ensures TracksConserved(AfterWrite(s, block, trackDone, announcementDone, broken))
  {
    var written := s.(loop := s.loop.(pc := Promoting), log := s.log.(trace := s.log.trace + [Music(block)]));
    WritingConserves(s, written, block);
    hide TracksConserved, FinishTrack, FinishAnnouncement;
    var music := if trackDone && written.loop.current.Some? then FinishTrack(written) else written;
    if trackDone && written.loop.current.Some? { FinishTrackConserves(written); }
    if announcementDone && music.loop.announcement.Some? { FinishAnnouncementConserves(music, broken); }
  }

  lemma WritingConserves(s: State, written: State, block: Block)
    requires TracksConserved(s)
    requires written == s.(loop := s.loop.(pc := Promoting), log := s.log.(trace := s.log.trace + [Music(block)]))
    ensures TracksConserved(written)
  {
    hide Conserved;
    BalanceOne(s.log.trace, Music(block), PendingTracks(s.loop), PendingTracks(s.loop), s.log.popped, s.log.exits);
  }

  lemma FinishAnnouncementConserves(s: State, broken: bool)
    requires TracksConserved(s) && s.loop.announcement.Some?
    ensures TracksConserved(FinishAnnouncement(s, broken))
  {
    hide Conserved;
  }

  lemma TickConserves(s: State, faults: Faults)
    requires Shape(s) && TracksConserved(s) && Enabled(s, OnTick(faults))
    ensures TracksConserved(DoTick(s, faults))
  {
    var music := RenderMusic(s.loop, faults);
    if music.MusicFault? {
      ExitConserves(WithLedger(s, music.touched), false);
    } else {
      var over := ReadOverlay(s.loop.announcement, faults.announcement);
      MixedConserves(s, faults, over);
      if faults.write { ExitConserves(Mixed(s, music, over), over.failed); }
      else { AfterWriteConserves(Mixed(s, music, over), music.block, music.done, over.done, over.failed); }
    }
  }

  lemma MixedConserves(s: State, faults: Faults, over: Overlay)
    requires Shape(s) && TracksConserved(s)
    requires RenderMusic(s.loop, faults).Rendered?
    ensures var mixed := Mixed(s, RenderMusic(s.loop, faults), over);
            TracksConserved(mixed) && (mixed.loop.next.Some? ==> mixed.loop.trackJob.NoJob?)
  {
    var music := RenderMusic(s.loop, faults);
    RenderedLoop(s.loop, faults);
    RenderedEvents(s.loop, faults);
    assert PendingTracks(music.loop) == PendingTracks(s.loop);
    if music.events != [] {
      var pending := PendingTracks(s.loop);
      BalanceOne(s.log.trace, music.events[0], pending, pending, s.log.popped, s.log.exits);
    } else {
      assert s.log.trace + music.events == s.log.trace;
    }
  }

  lemma RenderedEvents(loop: Loop, faults: Faults)
    requires RenderMusic(loop, faults).Rendered?
    ensures var events := RenderMusic(loop, faults).events;
            events == [] || (|events| == 1 && events[0].TransitionStarted?)
  {
  }

  lemma StartTrackConserves(s: State)
    requires Shape(s) && TracksConserved(s) && Enabled(s, StartTrackPrepare)
    ensures TracksConserved(DoStartTrackPrepare(s))
  {
    var after := DoStartTrackPrepare(s);
    if TrackPoppable(s) {
      Balance(s.log.trace, [], PendingTracks(s.loop), PendingTracks(after.loop), s.log.popped, [s.shared.queue[0]],
              s.log.exits, s.log.exits);
      assert s.log.trace + [] == s.log.trace;
    }
  }

  lemma PromoteConserves(s: State)
    requires Shape(s) && TracksConserved(s) && Enabled(s, PromoteNext)
    ensures TracksConserved(DoPromoteNext(s))
  {
    if s.loop.next.Some? {
      BalanceOne(s.log.trace, Started(s.loop.next.value.item), PendingTracks(s.loop),
                 PendingTracks(s.loop.(next := None)), s.log.popped, s.log.exits);
    }
  }

  lemma TrackReadyConserves(s: State)
    requires Shape(s) && TracksConserved(s) && Enabled(s, OnTrackReady)
    ensures TracksConserved(DoTrackReady(s))
  {
    var item := s.loop.trackJob.item;
    var after := DoTrackReady(s);
    assert PendingTracks(s.loop) == [item];
    if s.loop.trackJob.result.Failure? {
      BalanceOne(s.log.trace, Failed(item), PendingTracks(s.loop), PendingTracks(after.loop), s.log.popped,
                 s.log.exits);
    } else if s.loop.current.None? && CanPlayMusic(s) {
      BalanceOne(s.log.trace, Started(item), PendingTracks(s.loop), PendingTracks(after.loop), s.log.popped,
                 s.log.exits);
    }
  }

  lemma CommandConserves(s: State)
    requires Shape(s) && TracksConserved(s) && Enabled(s, OnCommand)
    ensures TracksConserved(DoCommand(s))
  {
    match s.signals.commands[0]
    case Play => BalanceOne(s.log.trace, PlaybackResumed, PendingTracks(s.loop), PendingTracks(s.loop), s.log.popped,
                            s.log.exits);
    case Stop => BalanceOne(s.log.trace, PlaybackStopped, PendingTracks(s.loop), PendingTracks(s.loop), s.log.popped,
                            s.log.exits);
    case Skip =>
      if s.loop.current.Some? {
        BalanceOne(s.log.trace, Skipped(s.loop.current.value.item), PendingTracks(s.loop), PendingTracks(s.loop),
                   s.log.popped, s.log.exits);
      }
  }

  lemma StepConserves(s: State, a: Action)
    requires Shape(s) && TracksConserved(s) && Enabled(s, a)
    ensures TracksConserved(Next(s, a))
  {
    hide TracksConserved, Shape, DoTick, ExitRender, DoCommand, DoTrackReady, DoPromoteNext, DoStartTrackPrepare;
    match a
    case OnTick(faults) => TickConserves(s, faults);
    case OnDone => DoneConserves(s, false);
    case OnCommand => CommandConserves(s);
    case OnTrackReady => TrackReadyConserves(s);
    case PromoteNext => PromoteConserves(s);
    case StartTrackPrepare => StartTrackConserves(s);
    case _ => QuietConserves(s, a);
  }

  lemma DoneConserves(s: State, broken: bool)
    requires Shape(s) && TracksConserved(s)
    ensures TracksConserved(ExitRender(s, broken))
  {
    ExitConserves(s, broken);
  }

  lemma QuietConserves(s: State, a: Action)
    requires Shape(s) && TracksConserved(s) && Enabled(s, a)
    requires !a.OnTick? && !a.OnDone? && !a.OnCommand? && !a.OnTrackReady? && !a.PromoteNext? && !a.StartTrackPrepare?
    ensures TracksConserved(Next(s, a))
  {
    hide TracksConserved, Shape, DoReplaceQueue, DoAddAnnouncement, DoAnnouncementReady, DoStartAnnouncementPrepare;
    if IsPreparer(a) {
      PreparerKeepsTracks(s, a);
    } else if a.OnAnnouncementReady? || a.StartAnnouncementPrepare? {
      AnnouncementKeepsTracks(s, a);
    } else {
      CallerKeepsTracks(s, a);
    }
    SameTracks(s, Next(s, a));
  }

  ghost predicate TracksKept(s: State, t: State) {
    && PendingTracks(t.loop) == PendingTracks(s.loop) && t.log.trace == s.log.trace && t.log.popped == s.log.popped
    && t.log.exits == s.log.exits
  }

  lemma SameTracks(s: State, t: State)
    requires TracksConserved(s) && TracksKept(s, t)
    ensures TracksConserved(t)
  {
  }

  lemma PreparerKeepsTracks(s: State, a: Action)
    requires Enabled(s, a) && IsPreparer(a)
    ensures TracksKept(s, Next(s, a))
  {
    PreparerFrame(s, a);
    JobKeepsItem(s, a);
    hide Next;
  }

  lemma JobKeepsItem(s: State, a: Action)
    requires Enabled(s, a) && IsPreparer(a)
    ensures JobItems(Next(s, a).loop.trackJob) == JobItems(s.loop.trackJob)
  {
    hide LogDecode;
  }

  lemma AnnouncementKeepsTracks(s: State, a: Action)
    requires Enabled(s, a) && (a.OnAnnouncementReady? || a.StartAnnouncementPrepare?)
    ensures TracksKept(s, Next(s, a))
  {
  }

  lemma CallerKeepsTracks(s: State, a: Action)
    requires Shape(s) && Enabled(s, a)
    requires a.ReplaceQueue? || a.AddAnnouncement? || a.Send? || a.Signal? || a.UpdateConfig? || a.Cancel?
             || a.Connect? || a.OnWakeup?
    ensures TracksKept(s, Next(s, a))
  {
  }

  // ---------------------------------------------------------------- pop order

  /** `b` is the successor of `a`: the next position of the same list, or the head of a newer one. */
  predicate Follows(a: Item, b: Item) {
    if b.revision == a.revision then b.position == a.position + 1 else b.revision > a.revision && b.position == 0
  }

  ghost predicate Threaded(items: seq<Item>) {
    && (items != [] ==> items[0].position == 0)
    && (forall i :: 0 < i < |items| ==> Follows(items[i - 1], items[i]))
  }

  /** Every item names the track standing at its place in an accepted list. */
  ghost predicate FromLists(items: seq<Item>, lists: map<nat, seq<Track>>) {
    forall i :: 0 <= i < |items| ==>
      && items[i].revision in lists
      && items[i].position < |lists[items[i].revision]|
      && lists[items[i].revision][items[i].position] == items[i].track
  }

  /** The queue is the unpopped rest of the newest accepted list, and what was popped so far leads up to it. */
  ghost predicate Ordered(popped: seq<Item>, queue: seq<Item>, lists: map<nat, seq<Track>>, revision: nat) {
    var items := popped + queue;
    && Threaded(items)
    && FromLists(items, lists)
    && (forall i :: 0 <= i < |items| ==> items[i].revision <= revision)
    && (forall i :: 0 <= i < |queue| ==> queue[i].revision == revision)
    && (forall r :: r in lists ==> r <= revision && |lists[r]| <= MAX_QUEUE_TRACKS)
    && (queue != [] ==> revision in lists && queue[|queue| - 1].position + 1 == |lists[revision]|)
  }

  ghost predicate QueueOrdered(s: State) {
    Ordered(s.log.popped, s.shared.queue, s.log.lists, s.shared.revision)
  }

  lemma StampThreads(popped: seq<Item>, queue: seq<Item>, fresh': seq<Track>, newer: nat)
    requires Threaded(popped + queue)
    requires forall i :: 0 <= i < |popped| ==> popped[i].revision < newer
    ensures Threaded(popped + Stamp(fresh', newer))
  {
    var before, items := popped + queue, popped + Stamp(fresh', newer);
    forall i | 0 < i < |items| ensures Follows(items[i - 1], items[i]) {
      if i < |popped| {
        assert Follows(before[i - 1], before[i]);
      } else {
        assert items[i] == Item(fresh'[i - |popped|], newer, i - |popped|);
      }
    }
    if popped != [] { assert items[0] == before[0]; }
  }

  lemma ReplaceOrdered(popped: seq<Item>, queue: seq<Item>, lists: map<nat, seq<Track>>, revision: nat,
                       fresh': seq<Track>, newer: nat)
    requires Ordered(popped, queue, lists, revision) && newer > revision && |fresh'| <= MAX_QUEUE_TRACKS
    ensures Ordered(popped, Stamp(fresh', newer), lists[newer := fresh'], newer)
  {
    OlderPops(popped, queue, lists, revision, newer);
    StampThreads(popped, queue, fresh', newer);
    StampFromLists(popped, queue, lists, revision, fresh', newer);
    StampBounds(popped, fresh', newer);
    hide Threaded, FromLists, Stamp;
  }

  lemma StampBounds(popped: seq<Item>, fresh': seq<Track>, newer: nat)
    requires forall i :: 0 <= i < |popped| ==> popped[i].revision < newer
    ensures var queue := Stamp(fresh', newer);
            && (forall i :: 0 <= i < |popped + queue| ==> (popped + queue)[i].revision <= newer)
            && (forall i :: 0 <= i < |queue| ==> queue[i].revision == newer)
            && |queue| == |fresh'|
            && (queue != [] ==> queue[|queue| - 1].position + 1 == |fresh'|)
  {
  }

  lemma OlderPops(popped: seq<Item>, queue: seq<Item>, lists: map<nat, seq<Track>>, revision: nat, newer: nat)
    requires Ordered(popped, queue, lists, revision) && newer > revision
    ensures forall i :: 0 <= i < |popped| ==> popped[i].revision < newer
  {
    hide Threaded, FromLists;
    assert forall i :: 0 <= i < |popped| ==> popped[i] == (popped + queue)[i];
  }

  lemma StampFromLists(popped: seq<Item>, queue: seq<Item>, lists: map<nat, seq<Track>>, revision: nat,
                       fresh': seq<Track>, newer: nat)
    requires FromLists(popped + queue, lists) && forall r :: r in lists ==> r < newer
    ensures FromLists(popped + Stamp(fresh', newer), lists[newer := fresh'])
  {
    var before, items := popped + queue, popped + Stamp(fresh', newer);
    assert forall i :: 0 <= i < |popped| ==> items[i] == before[i];
    assert forall i :: |popped| <= i < |items| ==> items[i] == Item(fresh'[i - |popped|], newer, i - |popped|);
  }

  lemma PopOrdered(popped: seq<Item>, queue: seq<Item>, lists: map<nat, seq<Track>>, revision: nat)
    requires Ordered(popped, queue, lists, revision) && queue != []
    ensures Ordered(popped + [queue[0]], queue[1..], lists, revision)
  {
    assert (popped + [queue[0]]) + queue[1..] == popped + queue;
  }

  lemma StepKeepsOrder(s: State, a: Action)
    requires QueueOrdered(s) && Enabled(s, a)
    ensures QueueOrdered(Next(s, a))
  {
    StepKeepsQueues(s, a);
    match a
    case ReplaceQueue(revision, tracks) =>
      if QueueVerdict(s.shared, revision, tracks).None? {
        ReplaceOrdered(s.log.popped, s.shared.queue, s.log.lists, s.shared.revision,
                       NormalizeAll(tracks, s.shared.defaults), revision);
      }
    case StartTrackPrepare =>
      if s.shared.queue != [] { PopOrdered(s.log.popped, s.shared.queue, s.log.lists, s.shared.revision); }
    case _ =>
  }

  // ---------------------------------------------------------------- whole runs

  ghost predicate TrackInv(s: State) {
    Shape(s) && TracksConserved(s) && QueueOrdered(s)
  }

  lemma InitTracks(defaults: Transition)
    ensures TrackInv(Init(defaults))
  {
  }

  ghost predicate ListsGrow(s: State, t: State) {
    forall r :: r in s.log.lists ==> r in t.log.lists && t.log.lists[r] == s.log.lists[r]
  }

  /** From position `n` on, popped tracks belong to lists at least as new as `revision`. */
  ghost predicate NewerFrom(s: State, n: nat, revision: nat) {
    s.shared.revision >= revision && forall i :: n <= i < |s.log.popped| ==> s.log.popped[i].revision >= revision
  }

  lemma StepKeepsNewer(s: State, a: Action, n: nat, revision: nat)
    requires TrackInv(s) && Enabled(s, a) && NewerFrom(s, n, revision)
    ensures NewerFrom(Next(s, a), n, revision) && ListsGrow(s, Next(s, a))
  {
    StepKeepsQueues(s, a);
  }

  /** Along any legal run the invariant holds and history only grows. */
  lemma {:induction false} RunKeepsTracks(s: State, run: seq<Action>, n: nat, revision: nat)
    requires TrackInv(s) && Legal(s, run) && NewerFrom(s, n, revision)
    ensures var t := Exec(s, run);
            && TrackInv(t) && NewerFrom(t, n, revision) && ListsGrow(s, t)
            && s.log.popped <= t.log.popped && s.log.trace <= t.log.trace
    decreases |run|
  {
    if run != [] {
      StepKeepsShape(s, run[0]);
      StepConserves(s, run[0]);
      StepKeepsOrder(s, run[0]);
      StepKeepsHistory(s, run[0]);
      StepKeepsNewer(s, run[0], n, revision);
      RunKeepsTracks(Next(s, run[0]), run[1..], n, revision);
    }
  }

  // ---------------------------------------------------------------- main results

  predicate Before(a: Item, b: Item) {
    a.revision < b.revision || (a.revision == b.revision && a.position < b.position)
  }

  lemma {:induction false} ThreadedIsIncreasing(items: seq<Item>, i: nat, j: nat)
    requires Threaded(items) && i < j < |items|
    ensures Before(items[i], items[j])
  {
    assert Follows(items[j - 1], items[j]);
    if i < j - 1 { ThreadedIsIncreasing(items, i, j - 1); }
  }

  /** Over any interleaving, with any number of reconnects: the tracks taken from the queue are exactly the
      started, failed or lost ones in that order, followed by at most one pending track. At most one track is
      lost per ended run, no prepared track is ever surplus, and no occurrence is popped (so started) twice. */
  lemma TrackConservation(defaults: Transition, run: seq<Action>)
    requires Legal(Init(defaults), run)
    ensures var s := Exec(Init(defaults), run);
            && Items(Verdicts(s.log.trace)) + PendingTracks(s.loop) == s.log.popped
            && |PendingTracks(s.loop)| <= 1
            && Count(Verdicts(s.log.trace), WasLost) <= s.log.exits
            && Count(Verdicts(s.log.trace), WasSurplus) == 0
            && (forall i, j :: 0 <= i < j < |s.log.popped| ==> s.log.popped[i] != s.log.popped[j])
  {
    InitTracks(defaults);
    RunKeepsTracks(Init(defaults), run, 0, 0);
    var s := Exec(Init(defaults), run);
    var items := s.log.popped + s.shared.queue;
    forall i, j | 0 <= i < j < |s.log.popped| ensures s.log.popped[i] != s.log.popped[j] {
      ThreadedIsIncreasing(items, i, j);
    }
  }

  /** After an accepted replacement, the only older track that can still be decided about (started, failed or
      lost) is the one already pending, and it comes first. All later decisions follow the positions of the
      newest lists without a gap and name the tracks those lists were accepted with. */
  lemma BoundedStaleness(defaults: Transition, before: seq<Action>, revision: nat, tracks: seq<Track>, run: seq<Action>)
    requires Legal(Init(defaults), before)
    requires QueueVerdict(Exec(Init(defaults), before).shared, revision, tracks).None?
    requires Legal(DoReplaceQueue(Exec(Init(defaults), before), revision, tracks), run)
    ensures var s := DoReplaceQueue(Exec(Init(defaults), before), revision, tracks);
            var t := Exec(s, run);
            var v, w := Verdicts(s.log.trace), Verdicts(t.log.trace);
            && |v| <= |w|
            && (forall i :: |v| <= i < |w| && w[i].item.revision < revision ==>
                  i == |v| && PendingTracks(s.loop) == [w[i].item])
            && (forall i :: |v| < i < |w| ==> Follows(w[i - 1].item, w[i].item))
            && FromLists(Items(w), t.log.lists)
            && revision in t.log.lists
            && t.log.lists[revision] == NormalizeAll(tracks, Exec(Init(defaults), before).shared.defaults)
  {
    InitTracks(defaults);
    FromStart(defaults);
    hide Legal, Exec, Init, TrackInv, NewerFrom, QueueVerdict, DoReplaceQueue, NormalizeAll, Verdicts, FromLists;
    RunKeepsTracks(Init(defaults), before, 0, 0);
    var s0 := Exec(Init(defaults), before);
    var s := DoReplaceQueue(s0, revision, tracks);
    Replaced(s0, revision, tracks);
    RunKeepsTracks(s, run, |s.log.popped|, revision);
    BothInOrder(s, Exec(s, run));
    DecisionsFollowPops(s, Exec(s, run), revision);
  }

  lemma FromStart(defaults: Transition)
    ensures NewerFrom(Init(defaults), 0, 0)
  {
  }

  lemma BothInOrder(s: State, t: State)
    requires ListsGrow(s, t)
    ensures forall r :: r in s.log.lists ==> r in t.log.lists && t.log.lists[r] == s.log.lists[r]
  {
  }

  /** The state right after an accepted replacement. */
  lemma Replaced(s: State, revision: nat, tracks: seq<Track>)
    requires TrackInv(s) && QueueVerdict(s.shared, revision, tracks).None?
    ensures var t := DoReplaceQueue(s, revision, tracks);
            && TrackInv(t) && NewerFrom(t, |t.log.popped|, revision)
            && revision in t.log.lists && t.log.lists[revision] == NormalizeAll(tracks, s.shared.defaults)
  {
    StepKeepsShape(s, ReplaceQueue(revision, tracks));
    StepConserves(s, ReplaceQueue(revision, tracks));
    StepKeepsOrder(s, ReplaceQueue(revision, tracks));
    hide Shape, TracksConserved, QueueOrdered, NormalizeAll, Stamp;
  }

  lemma DecisionsFollowPops(s: State, t: State, revision: nat)
    requires TrackInv(s) && TrackInv(t) && NewerFrom(t, |s.log.popped|, revision)
    requires s.log.popped <= t.log.popped && s.log.trace <= t.log.trace
    ensures var v, w := Verdicts(s.log.trace), Verdicts(t.log.trace);
            && |v| <= |w|
            && (forall i :: |v| <= i < |w| && w[i].item.revision < revision ==>
                  i == |v| && PendingTracks(s.loop) == [w[i].item])
            && (forall i :: |v| < i < |w| ==> Follows(w[i - 1].item, w[i].item))
            && FromLists(Items(w), t.log.lists)
  {
    assert Items(Verdicts(s.log.trace)) + PendingTracks(s.loop) == s.log.popped && |PendingTracks(s.loop)| <= 1;
    DecisionsArePops(t);
    hide Verdicts, QueueOrdered, FromLists, Follows, TracksConserved;
    var more := t.log.trace[|s.log.trace|..];
    assert t.log.trace == s.log.trace + more;
    VerdictsConcat(s.log.trace, more);
    OnlyThePendingIsStale(Verdicts(s.log.trace), Verdicts(t.log.trace), PendingTracks(s.loop), s.log.popped,
                          t.log.popped, revision);
  }

  lemma OnlyThePendingIsStale(v: seq<Verdict>, w: seq<Verdict>, pending: seq<Item>, popped: seq<Item>, later: seq<Item>,
                              revision: nat)
    requires Items(v) + pending == popped && |pending| <= 1 && popped <= later
    requires |v| <= |w| <= |later| && forall i :: 0 <= i < |w| ==> w[i].item == later[i]
    requires forall i :: |popped| <= i < |later| ==> later[i].revision >= revision
    ensures forall i :: |v| <= i < |w| && w[i].item.revision < revision ==> i == |v| && pending == [w[i].item]
  {
    forall i | |v| <= i < |w| && w[i].item.revision < revision ensures i == |v| && pending == [w[i].item] {
      assert i < |popped|;
      assert (Items(v) + pending)[i] == w[i].item;
    }
  }

  lemma DecisionsArePops(t: State)
    requires TracksConserved(t) && QueueOrdered(t)
    ensures var w := Verdicts(t.log.trace);
            && |w| <= |t.log.popped|
            && (forall i :: 0 <= i < |w| ==> w[i].item == t.log.popped[i])
            && (forall i :: 0 < i < |w| ==> Follows(w[i - 1].item, w[i].item))
            && FromLists(Items(w), t.log.lists)
  {
    var w := Verdicts(t.log.trace);
    var items := t.log.popped + t.shared.queue;
    forall i | 0 <= i < |w| ensures w[i].item == t.log.popped[i] == items[i] {
      assert Items(w)[i] == w[i].item;
    }
  }

  // ---------------------------------------------------------------- revisions

  /** The revision in force is the newest one accepted, or 0 before the first. */
  ghost predicate NewestInForce(s: State) {
    && (forall r :: r in s.log.lists ==> r <= s.shared.revision)
    && (s.shared.revision == 0 || s.shared.revision in s.log.lists)
  }

  lemma StepKeepsNewest(s: State, a: Action)
    requires NewestInForce(s) && Enabled(s, a)
    ensures NewestInForce(Next(s, a))
  {
    StepKeepsQueues(s, a);
    if a.StartTrackPrepare? { StartTrackLists(s); }
    if !a.ReplaceQueue? { hide Next; }
  }

  lemma StartTrackLists(s: State)
    requires s.loop.pc.StartingTrack?
    ensures var t := DoStartTrackPrepare(s); t.shared.revision == s.shared.revision && t.log.lists == s.log.lists
  {
  }

  lemma {:induction false} RunKeepsNewest(s: State, run: seq<Action>)
    requires NewestInForce(s) && Legal(s, run)
    ensures NewestInForce(Exec(s, run)) && s.shared.revision <= Exec(s, run).shared.revision
    decreases |run|
  {
    if run != [] {
      StepKeepsNewest(s, run[0]);
      RevisionRises(s, run[0]);
      RunKeepsNewest(Next(s, run[0]), run[1..]);
    }
  }

  lemma RevisionRises(s: State, a: Action)
    requires Enabled(s, a)
    ensures s.shared.revision <= Next(s, a).shared.revision
  {
    StepKeepsQueues(s, a);
    if a.StartTrackPrepare? { StartTrackLists(s); }
    if !a.ReplaceQueue? { hide Next; }
  }

  /** In every reachable state a list of at most five valid tracks is accepted exactly if its revision is newer than
      every revision accepted before; so accepted revisions strictly increase. A rejected list changes nothing. */
  lemma ReplacementIsExact(defaults: Transition, run: seq<Action>, revision: nat, tracks: seq<Track>)
    requires Legal(Init(defaults), run)
    ensures var s := Exec(Init(defaults), run);
            && (QueueVerdict(s.shared, revision, tracks).None? <==>
                  |tracks| <= MAX_QUEUE_TRACKS && AllNormalizable(tracks, s.shared.defaults)
                  && revision > 0 && forall r :: r in s.log.lists ==> r < revision)
            && (QueueVerdict(s.shared, revision, tracks).Some? ==> DoReplaceQueue(s, revision, tracks) == s)
            && (QueueVerdict(s.shared, revision, tracks).None? ==>
                  var t := DoReplaceQueue(s, revision, tracks);
                  && t.shared.revision == revision > s.shared.revision
                  && t.loop == s.loop && t.shared.current == s.shared.current)
  {
    RunKeepsNewest(Init(defaults), run);
  }
}
