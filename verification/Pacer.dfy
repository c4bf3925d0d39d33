/** Real-time pacing (internal/mp3stream/streamer.go): how far the delivered audio may run ahead of the clock.
    All times are in nanoseconds. The clock only moves forward. */
module Pacing {
  import opened Common

  class Clock {
    var now: int

    constructor (now: int)
      ensures this.now == now
    {
      this.now := now;
    }

    method Advance(nanoseconds: nat)
      modifies this
      ensures now == old(now) + nanoseconds
    {
      now := now + nanoseconds;
    }
  }

  /** What a wait runs into: time passes before the clock is read, then the timer fires so much late, or the
      context or the skip channel is ready after some time. A wait without delay ignores all of it. */
  datatype Fate = TimerFires(late: nat) | ContextEnds(after: nat) | SkipArrives(after: nat)
  datatype Waiting = Waiting(before: nat, fate: Fate)

  datatype WaitResult = Completed | Cancelled | Skipped

  function Sum(durations: seq<nat>): nat {
    if durations == [] then 0 else Sum(durations[..|durations| - 1]) + durations[|durations| - 1]
  }

  // ---------------------------------------------------------------- the law of pacing

  datatype Pace = Pace(start: int, elapsed: int, lead: nat, now: int)

  /** A frame to be waited for. */
  datatype Turn = Turn(duration: nat, waiting: Waiting)

  /** How far the clock is past the moment up to which audio was accounted for. Never negative: never ahead. */
  function Lag(p: Pace): int {
    p.now - (p.start + p.elapsed - p.lead)
  }

  function Outcome(p: Pace, t: Turn): WaitResult {
    if Lag(p) + t.waiting.before >= t.duration then Completed
    else match t.waiting.fate
      case TimerFires(_) => Completed
      case ContextEnds(_) => Cancelled
      case SkipArrives(_) => Skipped
  }

  function AfterWait(p: Pace, t: Turn): Pace {
    var read := p.(now := p.now + t.waiting.before);
    var played := read.(elapsed := p.elapsed + t.duration);
    if Lag(read) >= t.duration then played
    else match t.waiting.fate
      case TimerFires(late) => played.(now := p.start + p.elapsed + t.duration - p.lead + late)
      case ContextEnds(after) => read.(now := read.now + after)
      case SkipArrives(after) => read.(now := read.now + after)
  }

  function AfterWaits(p: Pace, turns: seq<Turn>): Pace {
    if turns == [] then p else AfterWait(AfterWaits(p, turns[..|turns| - 1]), turns[|turns| - 1])
  }

  /** Durations of the frames whose wait completed. */
  function Played(p: Pace, turns: seq<Turn>): seq<nat> {
    if turns == [] then []
    else
      var front, last := turns[..|turns| - 1], turns[|turns| - 1];
      Played(p, front) + (if Outcome(AfterWaits(p, front), last).Completed? then [last.duration] else [])
  }

  /** Over any number of waits, late or interrupted as they may be: what is accounted for is exactly the frames
      whose wait completed, and it is never ahead of the clock by more than the lead. */
  lemma {:induction false} NeverAhead(p: Pace, turns: seq<Turn>)
    requires Lag(p) >= 0
    ensures var q := AfterWaits(p, turns);
            && q.start == p.start && q.lead == p.lead && q.now >= p.now
            && q.elapsed == p.elapsed + Sum(Played(p, turns))
            && q.elapsed <= q.now - q.start + q.lead
  {
    if turns != [] {
      var front, last := turns[..|turns| - 1], turns[|turns| - 1];
      NeverAhead(p, front);
      WaitKeepsPace(AfterWaits(p, front), last);
      hide AfterWait, Outcome;
      var played := Played(p, turns);
      if Outcome(AfterWaits(p, front), last).Completed? {
        assert played[..|played| - 1] == Played(p, front);
      } else {
        assert played == Played(p, front);
      }
    }
  }

  lemma WaitKeepsPace(p: Pace, t: Turn)
    requires Lag(p) >= 0
    ensures var q := AfterWait(p, t);
            && q.start == p.start && q.lead == p.lead && q.now >= p.now && Lag(q) >= 0
            && q.elapsed == p.elapsed + if Outcome(p, t).Completed? then t.duration else 0
  {
  }

  /** Every frame is ready before the one before it has played out, and its timer is at most `slack` late. */
  predicate Prompt(turns: seq<Turn>, slack: nat) {
    forall i :: 0 <= i < |turns| ==>
      var w := turns[i].waiting;
      w.before <= turns[i].duration && w.fate.TimerFires? && w.fate.late <= slack
  }

  /** Lateness does not add up: after however many late timers the clock is no further behind the audio than one
      timer's slack, or than it was at the beginning. */
  lemma {:induction false} LatenessDoesNotAccumulate(p: Pace, turns: seq<Turn>, slack: nat)
    requires Lag(p) >= 0 && Prompt(turns, slack)
    ensures 0 <= Lag(AfterWaits(p, turns)) <= Max(Lag(p), slack)
  {
    if turns != [] {
      LatenessDoesNotAccumulate(p, turns[..|turns| - 1], slack);
    }
  }

  class Pacer {
    const clock: Clock
    var start: int
    var elapsed: nat
    var lead: nat
    /** Durations of the frames whose wait completed since the last reset. */
    ghost var completed: seq<nat>

    /** `elapsed` is exactly the audio whose wait completed, and it never runs ahead of the clock by more than the
        lead: after any number of waits, however late their timers fired and however many were interrupted. */
    ghost predicate Valid()
      reads this, clock
    {
      && elapsed == Sum(completed)
      && start <= clock.now
      && elapsed <= clock.now - start + lead
    }

    function State(): Pace
      reads this, clock
    {
      Pace(start, elapsed, lead, clock.now)
    }

    constructor (clock: Clock, requestedLead: int)
      ensures Valid() && this.clock == clock && start == clock.now && lead == Max(0, requestedLead) && completed == []
    {
      this.clock := clock;
      start, elapsed, completed := clock.now, 0, [];
      lead := if requestedLead < 0 then 0 else requestedLead;
    }

    method Reset(requestedLead: int)
      modifies this
      ensures Valid() && start == clock.now && completed == [] && lead == Max(0, requestedLead)
    {
      start := clock.now;
      elapsed := 0;
      completed := [];
      lead := if requestedLead < 0 then 0 else requestedLead;
    }

    /** Time still to wait before a frame of this duration may count as played out. */
    method DelayFor(duration: nat) returns (delay: int)
      ensures delay == start + elapsed + duration - lead - clock.now
    {
      delay := start + (elapsed + duration - lead) - clock.now;
    }

    method Advance(duration: nat)
      modifies this`elapsed, this`completed
      ensures elapsed == old(elapsed) + duration && completed == old(completed) + [duration]
    {
      elapsed := elapsed + duration;
      completed := completed + [duration];
    }

    /** Waits for one frame. A completed wait accounts for exactly its frame; an interrupted one for nothing. */
    method Wait(duration: nat, w: Waiting) returns (result: WaitResult)
      requires Valid()
      modifies this`elapsed, this`completed, clock
      ensures Valid() && old(clock.now) <= clock.now
      ensures result.Completed? ==> completed == old(completed) + [duration]
      ensures !result.Completed? ==> completed == old(completed) && elapsed == old(elapsed)
      ensures result == Outcome(old(State()), Turn(duration, w))
      ensures State() == AfterWait(old(State()), Turn(duration, w))
    {
      ghost var before := completed;
      clock.Advance(w.before);
      var delay := DelayFor(duration);
      assert completed + [duration] == before + [duration];
      if delay <= 0 {
        Advance(duration);
        assert completed[..|completed| - 1] == before;
        return Completed;
      }
      match w.fate
      case TimerFires(late) =>
        clock.Advance(delay + late);
        Advance(duration);
        assert completed[..|completed| - 1] == before;
        return Completed;
      case ContextEnds(after) =>
        clock.Advance(after);
        return Cancelled;
      case SkipArrives(after) =>
        clock.Advance(after);
        return Skipped;
    }
  }
}
