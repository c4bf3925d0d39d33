/** The event dispatcher: a bounded queue, one worker that retries every event until it is written, and closers
    (internal/events/events.go). Accepted events are numbered in the order they entered the queue; the log the
    worker appends to holds these numbers, so that a repeated write is told from a second equal event. */
module Events {
  import opened Common

  type Event = nat

  const FIRST_BACKOFF_MS: nat := 100
  const BACKOFF_CEILING_MS: nat := 5000

  // ---------------------------------------------------------------- state machine

  /** The worker waits for an event, is about to append the one it holds, waits out a back-off, or has returned:
      at the end of the closed queue, or from a back-off because it was cancelled. */
  datatype Worker =
    | Idle
    | Appending(backoff: nat, failures: nat)
    | BackingOff(backoff: nat, failures: nat)
    | Drained
    | Abandoned

  datatype CloseResult = Finished | TimedOut

  /** `taken` events have left the queue and `log` is what the stream holds. */
  datatype State = State(
    capacity: nat,
    queue: seq<Event>,
    closed: bool,
    cancelled: bool,
    worker: Worker,
    accepted: seq<Event>,
    taken: nat,
    log: seq<int>,
    closes: seq<CloseResult>)

  /** An append succeeds, fails without a trace, or fails although the event was written. */
  datatype Attempt = Written | NotWritten | WrittenButFailed

  datatype Action =
    | Publish(event: Event)
    | Close
    | CloseReturns(result: CloseResult)
    | Take
    | Append(attempt: Attempt)
    | Retry
    | SeeCancel
    | SeeEnd

  datatype PublishResult = Accepted | QueueFull | DispatcherClosed

  function Start(capacity: int): State {
    State(if capacity <= 0 then 4096 else capacity, [], false, false, Idle, [], 0, [], [])
  }

  predicate Done(s: State) {
    s.worker.Drained? || s.worker.Abandoned?
  }

  /** What can happen; a retry and a cancellation may both be possible, and either may then be chosen. */
  predicate Enabled(s: State, a: Action) {
    match a
    case Publish(_) => true
    case Close => true
    case CloseReturns(Finished) => s.closed && Done(s)
    case CloseReturns(TimedOut) => s.closed
    case Take => s.worker.Idle? && s.queue != []
    case Append(_) => s.worker.Appending?
    case Retry => s.worker.BackingOff?
    case SeeCancel => s.worker.BackingOff? && s.cancelled
    case SeeEnd => s.worker.Idle? && s.queue == [] && s.closed
  }

  function PublishOutcome(s: State): PublishResult {
    if s.closed then DispatcherClosed else if |s.queue| < s.capacity then Accepted else QueueFull
  }

  function DoPublish(s: State, e: Event): State {
    if PublishOutcome(s) == Accepted then s.(queue := s.queue + [e], accepted := s.accepted + [e]) else s
  }

  function DoTake(s: State): State
    requires s.queue != []
  {
    s.(queue := s.queue[1..], taken := s.taken + 1, worker := Appending(FIRST_BACKOFF_MS, 0))
  }

  function DoAppend(s: State, attempt: Attempt): (r: State)
    requires s.worker.Appending?
    ensures r.worker.Idle? || r.worker.BackingOff?
  {
    s.(log := if attempt == NotWritten then s.log else s.log + [s.taken - 1],
       worker := if attempt == Written then Idle else BackingOff(s.worker.backoff, s.worker.failures + 1))
  }

  function DoRetry(s: State): State
    requires s.worker.BackingOff?
  {
    s.(worker := Appending(Doubled(s.worker.backoff), s.worker.failures))
  }

  function Doubled(backoff: nat): nat {
    if backoff < BACKOFF_CEILING_MS then backoff * 2 else backoff
  }

  /** Both ways out of `Close` cancel the worker. */
  function DoCloseReturns(s: State, r: CloseResult): State {
    s.(cancelled := true, closes := s.closes + [r])
  }

  function Next(s: State, a: Action): State
    requires Enabled(s, a)
  {
    match a
    case Publish(e) => DoPublish(s, e)
    case Close => s.(closed := true)
    case CloseReturns(r) => DoCloseReturns(s, r)
    case Take => DoTake(s)
    case Append(attempt) => DoAppend(s, attempt)
    case Retry => DoRetry(s)
    case SeeCancel => s.(worker := Abandoned)
    case SeeEnd => s.(worker := Drained)
  }

  // ---------------------------------------------------------------- the log

  /** The log with every run of retries of one event reduced to one entry. */
  function Collapse(log: seq<int>): seq<int> {
    if |log| <= 1 then log
    else
      var front := log[..|log| - 1];
      if log[|log| - 1] == log[|log| - 2] then Collapse(front) else Collapse(front) + [log[|log| - 1]]
  }

  /** 0, 1, .., n - 1. */
  function FirstEvents(n: nat): (r: seq<int>)
    ensures |r| == n && forall i :: 0 <= i < n ==> r[i] == i
  {
    seq(n, i => i)
  }

  /** The worker holds an event whose append has not been reported successful. */
  predicate Holding(s: State) {
    s.worker.Appending? || s.worker.BackingOff? || s.worker.Abandoned?
  }

  /** Events whose append was reported successful. */
  function Delivered(s: State): int {
    if Holding(s) then s.taken - 1 else s.taken
  }

  /** After that many failures of one event. */
  function BackoffAfter(failures: nat): nat {
    if failures == 0 then FIRST_BACKOFF_MS else Doubled(BackoffAfter(failures - 1))
  }

  /** The log is the first `n` events, retries collapsed. */
  predicate LogIs(log: seq<int>, n: int) {
    n >= 0 && Collapse(log) == FirstEvents(n) && (log != [] ==> log[|log| - 1] == n - 1)
  }

  /** The invariant. */
  ghost predicate Sound(s: State) {
    && s.capacity > 0 && |s.queue| <= s.capacity
    && s.taken <= |s.accepted| && s.queue == s.accepted[s.taken..]
    && (Holding(s) ==> s.taken > 0)
    && (forall i :: 0 <= i < |s.log| ==> 0 <= s.log[i] < s.taken)
    && (LogIs(s.log, Delivered(s)) || (Holding(s) && LogIs(s.log, s.taken)))
    && (s.worker.Appending? ==> s.worker.backoff == BackoffAfter(s.worker.failures))
    && (s.worker.BackingOff? ==> s.worker.failures > 0 && s.worker.backoff == BackoffAfter(s.worker.failures - 1))
    && (s.worker.Drained? ==> s.closed && s.queue == [])
    && (s.worker.Abandoned? ==> s.cancelled)
    && (s.cancelled <==> s.closes != [])
    && (s.closes != [] ==> s.closed)
    && (s.closes != [] && s.closes[0] == Finished ==> s.worker.Drained?)
  }

  lemma CollapseAppend(log: seq<int>, e: nat)
    ensures Collapse(log + [e])
         == if log != [] && log[|log| - 1] == e then Collapse(log) else Collapse(log) + [e]
  {
    assert (log + [e])[..|log|] == log;
  }

  lemma FirstEventsSnoc(n: nat)
    requires n > 0
    ensures FirstEvents(n) == FirstEvents(n - 1) + [n - 1]
  {
  }

  lemma FirstWrite(log: seq<int>, n: nat)
    requires n > 0 && Collapse(log) == FirstEvents(n - 1) && (log == [] || log[|log| - 1] != n - 1)
    ensures Collapse(log + [n - 1]) == FirstEvents(n)
  {
    hide Collapse, FirstEvents;
    CollapseAppend(log, n - 1);
    FirstEventsSnoc(n);
  }

  lemma RepeatedWrite(log: seq<int>, n: nat)
    requires n > 0 && Collapse(log) == FirstEvents(n) && log != [] && log[|log| - 1] == n - 1
    ensures Collapse(log + [n - 1]) == FirstEvents(n)
  {
    hide Collapse, FirstEvents;
    CollapseAppend(log, n - 1);
  }

  lemma AppendWrites(log: seq<int>, n: nat)
    requires n > 0 && (LogIs(log, n - 1) || LogIs(log, n))
    ensures LogIs(log + [n - 1], n)
  {
    assert log == [] ==> Collapse(log) == [];
    hide Collapse, FirstEvents;
    assert (log + [n - 1])[|log|] == n - 1;
    if LogIs(log, n - 1) {
      FirstWrite(log, n);
    } else {
      assert |FirstEvents(n)| == n;
      RepeatedWrite(log, n);
    }
  }

  lemma AppendKeepsSound(s: State, attempt: Attempt)
    requires Sound(s) && s.worker.Appending?
    ensures Sound(DoAppend(s, attempt))
  {
    hide LogIs, BackoffAfter;
    AppendWrites(s.log, s.taken);
  }

  lemma StepKeepsSound(s: State, a: Action)
    requires Sound(s) && Enabled(s, a)
    ensures Sound(Next(s, a))
  {
    match a
    case Append(attempt) =>
      AppendKeepsSound(s, attempt);
    case Retry =>
      RetryKeepsSound(s);
    case Publish(e) =>
      QueueKeepsSound(s, a);
    case Take =>
      QueueKeepsSound(s, a);
    case _ =>
      hide LogIs, BackoffAfter, Doubled;
  }

  lemma RetryKeepsSound(s: State)
    requires Sound(s) && s.worker.BackingOff?
    ensures Sound(DoRetry(s))
  {
    hide LogIs;
    assert Doubled(s.worker.backoff) == BackoffAfter(s.worker.failures);
  }

  lemma QueueKeepsSound(s: State, a: Action)
    requires Sound(s) && Enabled(s, a) && (a.Publish? || a.Take?)
    ensures Sound(Next(s, a))
  {
    hide LogIs, Doubled;
  }

  // ---------------------------------------------------------------- runs

  predicate Legal(s: State, run: seq<Action>)
    decreases |run|
  {
    run == [] || (Enabled(s, run[0]) && Legal(Next(s, run[0]), run[1..]))
  }

  function Exec(s: State, run: seq<Action>): State
    requires Legal(s, run)
    decreases |run|
  {
    if run == [] then s else Exec(Next(s, run[0]), run[1..])
  }

  lemma {:induction false} RunKeepsSound(s: State, run: seq<Action>)
    requires Sound(s) && Legal(s, run)
    ensures Sound(Exec(s, run))
    decreases |run|
  {
    if run != [] {
      StepKeepsSound(s, run[0]);
      RunKeepsSound(Next(s, run[0]), run[1..]);
    }
  }

  /** At any moment of any run, whatever appends fail and however: the accepted events are those taken by the
      worker followed by the queue; and the log, retries collapsed, is the delivered events in the order they were
      accepted, with at most the event in hand after them. */
  lemma LogFollowsQueue(capacity: int, run: seq<Action>)
    requires Legal(Start(capacity), run)
    ensures var s := Exec(Start(capacity), run);
            && s.taken <= |s.accepted| && s.accepted[s.taken..] == s.queue && |s.queue| <= s.capacity
            && 0 <= Delivered(s) <= s.taken <= Delivered(s) + 1
            && (Collapse(s.log) == FirstEvents(Delivered(s)) || Collapse(s.log) == FirstEvents(s.taken))
  {
    RunKeepsSound(Start(capacity), run);
  }

  predicate HasClosed(run: seq<Action>) {
    exists i :: 0 <= i < |run| && run[i].Close?
  }

  lemma {:induction false} ClosedExactlyByClose(s: State, run: seq<Action>)
    requires Legal(s, run)
    ensures Exec(s, run).closed <==> s.closed || HasClosed(run)
    ensures Exec(s, run).capacity == s.capacity
    decreases |run|
  {
    if run != [] {
      ClosedExactlyByClose(Next(s, run[0]), run[1..]);
      CloseIsFirstOrLater(run);
      hide HasClosed;
    }
  }

  lemma CloseIsFirstOrLater(run: seq<Action>)
    requires run != []
    ensures HasClosed(run) <==> run[0].Close? || HasClosed(run[1..])
  {
    if HasClosed(run) && !run[0].Close? {
      var i :| 0 <= i < |run| && run[i].Close?;
      assert run[1..][i - 1].Close?;
    }
    if HasClosed(run[1..]) {
      var i :| 0 <= i < |run[1..]| && run[1..][i].Close?;
      assert run[i + 1].Close?;
    }
  }

  /** In every reachable state an event becomes the last accepted one exactly if no `Close` has begun and fewer events
      wait than the queue has places, 4096 if none were asked for; otherwise nothing changes, and the caller learns
      whether the dispatcher is closed or the queue full. */
  lemma AdmissionIsExact(capacity: int, run: seq<Action>, e: Event)
    requires Legal(Start(capacity), run)
    ensures var s := Exec(Start(capacity), run);
            var places := if capacity <= 0 then 4096 else capacity;
            var t := Next(s, Publish(e));
            && (PublishOutcome(s) == DispatcherClosed <==> HasClosed(run))
            && (PublishOutcome(s) == QueueFull <==> !HasClosed(run) && |s.accepted| - s.taken == places)
            && (PublishOutcome(s) == Accepted <==> !HasClosed(run) && |s.accepted| - s.taken < places)
            && if !HasClosed(run) && |s.accepted| - s.taken < places
               then t == s.(accepted := s.accepted + [e], queue := s.queue + [e]) else t == s
  {
    RunKeepsSound(Start(capacity), run);
    ClosedExactlyByClose(Start(capacity), run);
    hide Legal, Exec, HasClosed, Collapse, BackoffAfter;
  }

  /** If the first `Close` to return found the worker done, every accepted event is in the log, exactly once up to
      repeated writes, and none will be accepted any more. */
  lemma CleanCloseLosesNothing(capacity: int, run: seq<Action>)
    requires Legal(Start(capacity), run)
    requires var s := Exec(Start(capacity), run); s.closes != [] && s.closes[0] == Finished
    ensures var s := Exec(Start(capacity), run);
            && Collapse(s.log) == FirstEvents(|s.accepted|)
            && PublishOutcome(s) == DispatcherClosed
  {
    RunKeepsSound(Start(capacity), run);
  }

  /** Once the worker has returned, whatever `Close` reports, nothing accepted is missing from the log exactly if
      the worker reached the end of the queue, or the event it gave up on was the last and had been written. */
  lemma NothingMissingExactlyIf(capacity: int, run: seq<Action>)
    requires Legal(Start(capacity), run) && Done(Exec(Start(capacity), run))
    ensures var s := Exec(Start(capacity), run);
            Collapse(s.log) == FirstEvents(|s.accepted|)
            <==> s.worker.Drained? || (s.queue == [] && s.log != [] && s.log[|s.log| - 1] == s.taken - 1)
  {
    var s := Exec(Start(capacity), run);
    RunKeepsSound(Start(capacity), run);
    hide Legal, Exec, BackoffAfter;
    assert |FirstEvents(|s.accepted|)| == |s.accepted|;
    assert s.log == [] ==> Collapse(s.log) == [];
    hide Collapse, FirstEvents;
  }

  /** So a later `Close` that finds the worker done promises less: here the first one timed out, the worker gave up
      on the only event, and the second `Close` still reports success. */
  lemma SecondCloseMayLose(e: Event)
    ensures var run := [Publish(e), Take, Append(NotWritten), Close] + GivingUp();
            && Legal(Start(1), run)
            && Exec(Start(1), run).closes == [TimedOut, Finished]
            && Exec(Start(1), run).accepted == [e] && Exec(Start(1), run).log == []
  {
    var s1 := Next(Start(1), Publish(e));
    var s2 := Next(s1, Take);
    var s3 := Next(s2, Append(NotWritten));
    var s4 := Next(s3, Close);
    GivesUp(s4);
    hide Next, Exec, Legal;
    Chain(s3, Close, GivingUp());
    Chain(s2, Append(NotWritten), [Close] + GivingUp());
    Chain(s1, Take, [Append(NotWritten)] + ([Close] + GivingUp()));
    Chain(Start(1), Publish(e), [Take] + ([Append(NotWritten)] + ([Close] + GivingUp())));
    assert [Publish(e)] + ([Take] + ([Append(NotWritten)] + ([Close] + GivingUp())))
        == [Publish(e), Take, Append(NotWritten), Close] + GivingUp();
  }

  function GivingUp(): seq<Action> {
    [CloseReturns(TimedOut), SeeCancel, Close, CloseReturns(Finished)]
  }

  lemma GivesUp(s: State)
    requires s.worker.BackingOff? && s.closed
    ensures Legal(s, GivingUp())
    ensures Exec(s, GivingUp()) == s.(cancelled := true, worker := Abandoned, closes := s.closes + [TimedOut, Finished])
  {
    var s1 := Next(s, CloseReturns(TimedOut));
    var s2 := Next(s1, SeeCancel);
    var s3 := Next(s2, Close);
    var s4 := Next(s3, CloseReturns(Finished));
    assert s.closes + [TimedOut] + [Finished] == s.closes + [TimedOut, Finished];
    assert s4 == s.(cancelled := true, worker := Abandoned, closes := s.closes + [TimedOut, Finished]);
    hide Next;
    Chain(s3, CloseReturns(Finished), []);
    Chain(s2, Close, [CloseReturns(Finished)]);
    Chain(s1, SeeCancel, [Close, CloseReturns(Finished)]);
    Chain(s, CloseReturns(TimedOut), [SeeCancel, Close, CloseReturns(Finished)]);
  }

  /** The event is lost and the first `Close` times out, as in `SecondCloseMayLose`; later ones report as they like. */
  function LossyRun(reports: seq<CloseResult>): seq<Action>
    requires reports != []
  {
    if |reports| == 1 then
      [Publish(0), Take, Append(NotWritten), Close, CloseReturns(TimedOut), SeeCancel]
    else
      LossyRun(reports[..|reports| - 1]) + [CloseReturns(reports[|reports| - 1])]
  }

  lemma {:induction false} LossyRunLoses(reports: seq<CloseResult>)
    requires reports != [] && reports[0] == TimedOut
    ensures Legal(Start(1), LossyRun(reports))
    ensures Exec(Start(1), LossyRun(reports)) == State(1, [], true, true, Abandoned, [0], 1, [], reports)
  {
    if |reports| == 1 {
      assert reports == [TimedOut];
      LosesOne();
    } else {
      var front, last := reports[..|reports| - 1], reports[|reports| - 1];
      LossyRunLoses(front);
      assert front + [last] == reports;
      ExecSnoc(Start(1), LossyRun(front), CloseReturns(last));
    }
  }

  lemma LosesOne()
    ensures var run := [Publish(0), Take, Append(NotWritten), Close, CloseReturns(TimedOut), SeeCancel];
            && Legal(Start(1), run)
            && Exec(Start(1), run) == State(1, [], true, true, Abandoned, [0], 1, [], [TimedOut])
  {
    var s0 := Start(1);
    var s1 := Next(s0, Publish(0));
    var s2 := Next(s1, Take);
    var s3 := Next(s2, Append(NotWritten));
    var s4 := Next(s3, Close);
    var s5 := Next(s4, CloseReturns(TimedOut));
    var s6 := Next(s5, SeeCancel);
    assert s6 == State(1, [], true, true, Abandoned, [0], 1, [], [TimedOut]);
    hide Next;
    Chain(s5, SeeCancel, []);
    Chain(s4, CloseReturns(TimedOut), [SeeCancel]);
    Chain(s3, Close, [CloseReturns(TimedOut), SeeCancel]);
    Chain(s2, Append(NotWritten), [Close, CloseReturns(TimedOut), SeeCancel]);
    Chain(s1, Take, [Append(NotWritten), Close, CloseReturns(TimedOut), SeeCancel]);
    Chain(s0, Publish(0), [Take, Append(NotWritten), Close, CloseReturns(TimedOut), SeeCancel]);
  }

  /** What the reports of the `Close` calls so far, in order, allow to conclude: nothing accepted is missing in any run
      that gives these reports. */
  ghost predicate MeansNothingMissing(reports: seq<CloseResult>) {
    forall capacity: int, run: seq<Action> ::
      Legal(Start(capacity), run) && Exec(Start(capacity), run).closes == reports ==>
        Collapse(Exec(Start(capacity), run).log) == FirstEvents(|Exec(Start(capacity), run).accepted|)
  }

  /** The first report decides: callers may conclude that nothing is missing exactly if it was success. After a
      time-out no later success means anything. */
  lemma FirstReportDecides(reports: seq<CloseResult>)
    requires reports != []
    ensures MeansNothingMissing(reports) <==> reports[0] == Finished
  {
    if reports[0] == Finished {
      forall capacity: int, run: seq<Action>
        | Legal(Start(capacity), run) && Exec(Start(capacity), run).closes == reports
        ensures Collapse(Exec(Start(capacity), run).log) == FirstEvents(|Exec(Start(capacity), run).accepted|)
      {
        CleanCloseLosesNothing(capacity, run);
      }
    } else {
      LossyRunLoses(reports);
      var run := LossyRun(reports);
      assert Legal(Start(1), run) && Exec(Start(1), run).closes == reports;
      assert |Collapse(Exec(Start(1), run).log)| != |FirstEvents(|Exec(Start(1), run).accepted|)|;
    }
  }

  lemma Chain(s: State, a: Action, rest: seq<Action>)
    requires Enabled(s, a) && Legal(Next(s, a), rest)
    ensures Legal(s, [a] + rest) && Exec(s, [a] + rest) == Exec(Next(s, a), rest)
  {
    assert ([a] + rest)[1..] == rest;
  }

  lemma {:induction false} ExecSnoc(s: State, run: seq<Action>, a: Action)
    requires Legal(s, run) && Enabled(Exec(s, run), a)
    ensures Legal(s, run + [a]) && Exec(s, run + [a]) == Next(Exec(s, run), a)
    decreases |run|
  {
    if run == [] {
      Chain(s, a, []);
    } else {
      ExecSnoc(Next(s, run[0]), run[1..], a);
      assert run + [a] == [run[0]] + (run[1..] + [a]);
      Chain(s, run[0], run[1..] + [a]);
    }
  }

  /** A log whose collapse is 0 .. n - 1 never steps back and never skips: each entry repeats the one before it or
      is the next event. */
  lemma {:induction false} LogNeverStepsBack(log: seq<int>, n: nat)
    requires Collapse(log) == FirstEvents(n)
    ensures forall i :: 0 < i < |log| ==> log[i - 1] <= log[i] <= log[i - 1] + 1
    ensures log != [] ==> n > 0 && log[0] == 0 && log[|log| - 1] == n - 1
    ensures log == [] ==> n == 0
  {
    if |log| == 1 {
      assert log[0] == FirstEvents(n)[0];
    } else if |log| > 1 {
      var front := log[..|log| - 1];
      var last := log[|log| - 1];
      CollapseNonEmpty(front);
      if last == log[|log| - 2] {
        LogNeverStepsBack(front, n);
      } else {
        LastEntryIsNext(Collapse(front), last, n);
        LogNeverStepsBack(front, n - 1);
      }
      forall i | 0 < i < |log| ensures log[i - 1] <= log[i] <= log[i - 1] + 1 {
        if i < |front| { assert front[i - 1] <= front[i] <= front[i - 1] + 1; }
      }
    }
  }

  lemma LastEntryIsNext(before: seq<int>, last: int, n: nat)
    requires before + [last] == FirstEvents(n)
    ensures n > 0 && last == n - 1 && before == FirstEvents(n - 1)
  {
    assert (before + [last])[n - 1] == last;
    assert before == (before + [last])[..n - 1];
  }

  lemma {:induction false} CollapseNonEmpty(log: seq<int>)
    requires log != []
    ensures Collapse(log) != []
  {
    if |log| > 1 {
      CollapseNonEmpty(log[..|log| - 1]);
    }
  }

  /** The waits between attempts double from 100 ms up to 6.4 s: the doubling stops only once past 5 s. */
  lemma {:induction false} BackoffDoublesToItsCeiling(failures: nat)
    ensures BackoffAfter(failures) == if failures <= 6 then FIRST_BACKOFF_MS * Pow2(failures) else 6400
  {
    if failures > 0 {
      BackoffDoublesToItsCeiling(failures - 1);
      assert Pow2(0) == 1 && Pow2(1) == 2 && Pow2(2) == 4 && Pow2(3) == 8 && Pow2(4) == 16 && Pow2(5) == 32
          && Pow2(6) == 64;
    }
  }

  function Pow2(n: nat): nat {
    if n == 0 then 1 else 2 * Pow2(n - 1)
  }

  // ---------------------------------------------------------------- the object

  /** What happens around one step of the worker: calls of other goroutines, how an append comes out, and whether a
      cancelled back-off ends by the cancellation rather than the timer. */
  datatype Turn = Turn(calls: seq<Action>, attempt: Attempt, notice: bool)

  /** Calls of other goroutines; one that cannot happen now does not. */
  function AfterCall(s: State, a: Action): State {
    if (a.Publish? || a.Close? || a.CloseReturns?) && Enabled(s, a) then Next(s, a) else s
  }

  function AfterCalls(s: State, calls: seq<Action>): (r: State)
    ensures r.worker == s.worker && r.taken == s.taken && s.accepted <= r.accepted
  {
    if calls == [] then s else AfterCall(AfterCalls(s, calls[..|calls| - 1]), calls[|calls| - 1])
  }

  /** What the worker makes of a sequence of turns, from an idle or backing-off worker. */
  function WorkerRun(s: State, turns: seq<Turn>): State
    requires s.worker.Idle? || s.worker.BackingOff?
    decreases |turns|
  {
    if turns == [] then s
    else
      var now := AfterCalls(s, turns[0].calls);
      if now.worker.BackingOff? then
        if now.cancelled && turns[0].notice then now.(worker := Abandoned)
        else WorkerRun(DoAppend(DoRetry(now), turns[0].attempt), turns[1..])
      else if now.queue != [] then WorkerRun(DoAppend(DoTake(now), turns[0].attempt), turns[1..])
      else if now.closed then now.(worker := Drained)
      else WorkerRun(now, turns[1..])
  }

  lemma WorkerTurn(s: State, turns: seq<Turn>, i: nat)
    requires (s.worker.Idle? || s.worker.BackingOff?) && i < |turns|
    ensures var now := AfterCalls(s, turns[i].calls);
            var rest := turns[i + 1..];
            WorkerRun(s, turns[i..]) ==
              if now.worker.BackingOff? then
                if now.cancelled && turns[i].notice then now.(worker := Abandoned)
                else WorkerRun(DoAppend(DoRetry(now), turns[i].attempt), rest)
              else if now.queue != [] then WorkerRun(DoAppend(DoTake(now), turns[i].attempt), rest)
              else if now.closed then now.(worker := Drained)
              else WorkerRun(now, rest)
  {
    assert turns[i..][1..] == turns[i + 1..];
  }

  lemma AppendedWorker(s: State, attempt: Attempt)
    requires s.worker.Appending?
    ensures var t := DoAppend(s, attempt);
            && t.accepted == s.accepted && t.taken == s.taken
            && t.worker == if attempt == Written then Idle else BackingOff(s.worker.backoff, s.worker.failures + 1)
  {
  }

  lemma RetryingWorker(s: State)
    requires s.worker.BackingOff?
    ensures var t := DoRetry(s);
            && t.accepted == s.accepted && t.taken == s.taken
            && t.worker == Appending(Doubled(s.worker.backoff), s.worker.failures)
  {
  }

  lemma WorkerStops(s: State, turns: seq<Turn>)
    requires s.worker.Idle? || s.worker.BackingOff?
    ensures WorkerRun(s, turns[|turns|..]) == s
  {
  }

  predicate Undisturbed(turns: seq<Turn>) {
    forall i :: 0 <= i < |turns| ==> turns[i].calls == [] && turns[i].attempt == Written
  }

  function Numbers(first: int, n: nat): seq<int> {
    seq(n, i requires i >= 0 => first + i)
  }

  /** A closed queue is drained in one turn per event, and one more to see the end, once writes succeed. */
  lemma {:induction false} ClosedQueueDrains(s: State, turns: seq<Turn>)
    requires s.worker.Idle? && s.closed && Undisturbed(turns) && |turns| > |s.queue|
    requires s.taken + |s.queue| == |s.accepted|
    ensures var t := WorkerRun(s, turns);
            && t.worker.Drained? && t.queue == [] && t.accepted == s.accepted && t.taken == |s.accepted|
            && t.log == s.log + Numbers(s.taken, |s.queue|)
    decreases |turns|
  {
    hide Undisturbed, WorkerRun, DoAppend, Numbers;
    if s.queue == [] {
      EndIsSeen(s, turns);
    } else {
      var t := DoAppend(DoTake(s), Written);
      EventIsWritten(s, turns);
      ClosedQueueDrains(t, turns[1..]);
      NumbersFrom(s.log, s.taken, |s.queue|);
    }
  }

  lemma EndIsSeen(s: State, turns: seq<Turn>)
    requires s.worker.Idle? && s.closed && s.queue == [] && turns != [] && Undisturbed(turns)
    ensures WorkerRun(s, turns) == s.(worker := Drained) && s.log == s.log + Numbers(s.taken, 0)
  {
    assert AfterCalls(s, turns[0].calls) == s;
  }

  lemma EventIsWritten(s: State, turns: seq<Turn>)
    requires s.worker.Idle? && s.queue != [] && turns != [] && Undisturbed(turns)
    ensures var t := DoAppend(DoTake(s), Written);
            && WorkerRun(s, turns) == WorkerRun(t, turns[1..]) && Undisturbed(turns[1..])
            && t == s.(queue := s.queue[1..], taken := s.taken + 1, log := s.log + [s.taken])
  {
    assert AfterCalls(s, turns[0].calls) == s;
    assert turns[0].attempt == Written;
  }

  lemma NumbersFrom(log: seq<int>, first: int, n: nat)
    requires n > 0
    ensures (log + [first]) + Numbers(first + 1, n - 1) == log + Numbers(first, n)
  {
  }

  /** One more step of a run from the start. */
  lemma Extend(capacity: int, history: seq<Action>, a: Action)
    requires Legal(Start(capacity), history) && Enabled(Exec(Start(capacity), history), a)
    ensures Legal(Start(capacity), history + [a])
    ensures Exec(Start(capacity), history + [a]) == Next(Exec(Start(capacity), history), a)
    ensures Sound(Exec(Start(capacity), history)) && Sound(Next(Exec(Start(capacity), history), a))
  {
    ExecSnoc(Start(capacity), history, a);
    RunKeepsSound(Start(capacity), history);
    RunKeepsSound(Start(capacity), history + [a]);
  }

  /** The events a log stands for. */
  ghost predicate Spells(stream: seq<Event>, s: State) {
    && |stream| == |s.log|
    && forall i :: 0 <= i < |stream| ==> 0 <= s.log[i] < |s.accepted| && stream[i] == s.accepted[s.log[i]]
  }

  /** How the fields of a dispatcher stand for a state. */
  ghost predicate Shows(capacity: nat, queue: seq<Event>, closed: bool, cancelled: bool, done: bool,
                        stream: seq<Event>, s: State) {
    && s.capacity == capacity && s.queue == queue && s.closed == closed && s.cancelled == cancelled
    && (done <==> Done(s))
    && Spells(stream, s)
  }

  lemma AppendShows(capacity: nat, queue: seq<Event>, closed: bool, cancelled: bool, done: bool,
                    stream: seq<Event>, s: State, e: Event, attempt: Attempt)
    requires Shows(capacity, queue, closed, cancelled, done, stream, s) && s.worker.Appending?
    requires 0 < s.taken <= |s.accepted| && e == s.accepted[s.taken - 1]
    ensures Shows(capacity, queue, closed, cancelled, done,
                  if attempt == NotWritten then stream else stream + [e], DoAppend(s, attempt))
  {
  }

  lemma TakenEvent(s: State)
    requires Sound(s) && s.queue != []
    ensures s.taken < |s.accepted| && s.queue[0] == s.accepted[s.taken]
  {
  }

  class Dispatcher {
    const capacity: nat
    var queue: seq<Event>
    var closed: bool
    var cancelled: bool
    var done: bool
    /** What the Redis stream holds. */
    var stream: seq<Event>
    /** Everything that happened so far. */
    ghost var history: seq<Action>

    /** The object is where a legal run of the machine has led it. */
    ghost predicate Valid()
      reads this
    {
      && capacity > 0 && Legal(Start(capacity), history)
      && Shows(capacity, queue, closed, cancelled, done, stream, Exec(Start(capacity), history))
    }

    ghost function State(): State
      requires Valid()
      reads this
    {
      Exec(Start(capacity), history)
    }

    constructor (capacity: int)
      ensures Valid() && State() == Start(capacity)
    {
      this.capacity := if capacity <= 0 then 4096 else capacity;
      queue, closed, cancelled, done, stream, history := [], false, false, false, [], [];
    }

    method Publish(e: Event) returns (r: PublishResult)
      requires Valid()
      modifies this`queue, this`history
      ensures Valid() && history == old(history) + [Action.Publish(e)]
      ensures r == PublishOutcome(old(State())) && State() == DoPublish(old(State()), e)
    {
      Extend(capacity, history, Action.Publish(e));
      hide Legal, Exec, Sound;
      history := history + [Action.Publish(e)];
      if closed { return DispatcherClosed; }
      if |queue| < capacity {
        queue := queue + [e];
        r := Accepted;
      } else {
        r := QueueFull;
      }
    }

    method Close()
      requires Valid()
      modifies this`closed, this`history
      ensures Valid() && history == old(history) + [Action.Close]
      ensures State() == old(State()).(closed := true)
    {
      Extend(capacity, history, Action.Close);
      hide Legal, Exec, Sound;
      history := history + [Action.Close];
      closed := true;
    }

    /** The rest of a `Close` call: it reports that the worker finished only if it did. */
    method ReturnFromClose(timedOut: bool) returns (r: CloseResult)
      requires Valid() && closed && (done || timedOut)
      modifies this`cancelled, this`history
      ensures Valid() && r == (if timedOut then TimedOut else Finished) && history == old(history) + [CloseReturns(r)]
      ensures State() == DoCloseReturns(old(State()), r)
    {
      r := if timedOut then TimedOut else Finished;
      Extend(capacity, history, CloseReturns(r));
      hide Legal, Exec, Sound;
      history := history + [CloseReturns(r)];
      cancelled := true;
    }

    method Append(e: Event, attempt: Attempt) returns (ok: bool)
      requires Valid() && State().worker.Appending?
      requires 0 < State().taken <= |State().accepted| && e == State().accepted[State().taken - 1]
      modifies this`stream, this`history
      ensures Valid() && history == old(history) + [Action.Append(attempt)]
      ensures ok == attempt.Written? && State() == DoAppend(old(State()), attempt)
      ensures stream == if attempt == NotWritten then old(stream) else old(stream) + [e]
    {
      hide Legal, Exec, Sound, Shows, DoAppend, Done, Start;
      Extend(capacity, history, Action.Append(attempt));
      AppendShows(capacity, queue, closed, cancelled, done, stream, State(), e, attempt);
      history := history + [Action.Append(attempt)];
      if attempt != NotWritten { stream := stream + [e]; }
      ok := attempt == Written;
    }

    method Take() returns (e: Event)
      requires Valid() && State().worker.Idle? && queue != []
      modifies this`queue, this`history
      ensures Valid() && history == old(history) + [Action.Take] && State() == DoTake(old(State()))
      ensures 0 < State().taken <= |State().accepted| && e == State().accepted[State().taken - 1]
    {
      Extend(capacity, history, Action.Take);
      TakenEvent(State());
      hide Legal, Exec, Sound;
      history := history + [Action.Take];
      e := queue[0];
      queue := queue[1..];
    }

    /** The timer of a back-off. */
    ghost method Fire()
      requires Valid() && State().worker.BackingOff?
      modifies this`history
      ensures Valid() && history == old(history) + [Retry] && State() == DoRetry(old(State()))
    {
      Extend(capacity, history, Retry);
      hide Legal, Exec, Sound;
      history := history + [Retry];
    }

    /** The worker returns. */
    method Finish(ghost a: Action)
      requires Valid() && Enabled(State(), a) && (a.SeeCancel? || a.SeeEnd?)
      modifies this`done, this`history
      ensures Valid() && done && history == old(history) + [a] && State() == Next(old(State()), a)
    {
      Extend(capacity, history, a);
      hide Legal, Exec, Sound;
      history := history + [a];
      done := true;
    }

    /** Other goroutines get on with their calls. */
    method Interleave(calls: seq<Action>)
      requires Valid()
      modifies this`queue, this`closed, this`cancelled, this`history
      ensures Valid() && old(history) <= history
      ensures State() == AfterCalls(old(State()), calls)
    {
      hide Legal, Exec, Sound, Spells;
      for i := 0 to |calls|
        invariant Valid() && old(history) <= history
        invariant State() == AfterCalls(old(State()), calls[..i])
      {
        assert calls[..i + 1][..i] == calls[..i];
        match calls[i]
        case Publish(e) =>
          var _ := Publish(e);
        case Close =>
          Close();
        case CloseReturns(r) =>
          if closed && (done || r == TimedOut) {
            var _ := ReturnFromClose(r == TimedOut);
          }
        case _ =>
      }
      assert calls[..|calls|] == calls;
    }

    /** The worker: takes events until the queue is closed and empty, and retries each until it is written or the
        dispatcher is cancelled. `turns` is how everything else falls out; when it runs out the worker is still
        waiting or backing off. Whatever the worker does is a step of the machine. */
    method Run(turns: seq<Turn>)
      requires Valid() && State().worker.Idle?
      modifies this
      ensures Valid() && old(history) <= history
      ensures State() == WorkerRun(old(State()), turns)
    {
      hide Legal, Exec, Sound, Spells, AfterCalls, WorkerRun, DoAppend, BackoffAfter;
      var i := 0;
      assert turns[0..] == turns;
      while i < |turns|
        invariant 0 <= i <= |turns|
        invariant Valid() && State().worker.Idle? && old(history) <= history
        invariant WorkerRun(State(), turns[i..]) == WorkerRun(old(State()), turns)
      {
        WorkerTurn(State(), turns, i);
        Interleave(turns[i].calls);
        if queue == [] {
          if closed {
            Finish(SeeEnd);
            return;
          }
          i := i + 1;
        } else {
          var event := Take();
          var written;
          i, written := Deliver(event, turns, i);
          if !written { return; }
        }
      }
      WorkerStops(State(), turns);
    }

    /** The inner loop: one event, from its first attempt on. */
    method Deliver(event: Event, turns: seq<Turn>, from: nat) returns (i: nat, written: bool)
      requires Valid() && from < |turns| && State().worker == Appending(FIRST_BACKOFF_MS, 0)
      requires 0 < State().taken <= |State().accepted| && event == State().accepted[State().taken - 1]
      modifies this
      ensures Valid() && old(history) <= history && i <= |turns|
      ensures var outcome := WorkerRun(DoAppend(old(State()), turns[from].attempt), turns[from + 1..]);
              if written then from < i && State().worker.Idle? && outcome == WorkerRun(State(), turns[i..])
              else outcome == State()
    {
      hide Legal, Exec, Sound, Spells, AfterCalls, WorkerRun, DoAppend, DoRetry, Start;
      var backoff := FIRST_BACKOFF_MS;
      i := from;
      while true
        invariant Valid() && old(history) <= history && from <= i < |turns|
        invariant State().worker.Appending? && State().worker.backoff == backoff
        invariant 0 < State().taken <= |State().accepted| && event == State().accepted[State().taken - 1]
        invariant WorkerRun(DoAppend(State(), turns[i].attempt), turns[i + 1..])
               == WorkerRun(DoAppend(old(State()), turns[from].attempt), turns[from + 1..])
        decreases |turns| - i
      {
        AppendedWorker(State(), turns[i].attempt);
        var ok := Append(event, turns[i].attempt);
        i := i + 1;
        if ok { return i, true; }
        if i == |turns| {
          WorkerStops(State(), turns);
          return i, false;
        }
        WorkerTurn(State(), turns, i);
        Interleave(turns[i].calls);
        if cancelled && turns[i].notice {
          Finish(SeeCancel);
          return i, false;
        }
        RetryingWorker(State());
        Fire();
        if backoff < BACKOFF_CEILING_MS { backoff := backoff * 2; }
      }
    }
  }
}
