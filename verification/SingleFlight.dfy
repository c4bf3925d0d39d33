/** Single-flight downloads of the media cache: among the callers that miss the cache for one key, one downloads and
    the others wait for its result (`Resolve` in internal/media/store.go), over any number of callers. */
module SingleFlight {
  import opened Common

  type Caller = nat
  type Key = nat

  /** What a download ends with: an asset, an error, or the error of its leader's context, which has ended. */
  datatype Outcome = Asset(size: nat, etag: nat) | Failed(error: nat) | Interrupted

  /** A shared download record. */
  datatype Record = Record(key: Key, leader: Caller, result: Option<Outcome>, done: bool)

  /** Where a call of `Resolve` stands. A leader downloads, has stored the result in the record, has closed the
      record's channel, or has returned; a follower waits, has returned the record's result, or was cancelled. */
  datatype Phase =
    | Missed(key: Key)
    | Downloading(key: Key, id: nat)
    | Stored(key: Key, id: nat)
    | Announced(key: Key, id: nat)
    | Led(key: Key, id: nat, outcome: Outcome)
    | Following(key: Key, id: nat)
    | Followed(key: Key, id: nat, outcome: Outcome)
    | Cancelled(key: Key)
    | Served(key: Key)

  /** `ended` are the calls whose context has ended. */
  datatype State = State(
    inflight: map<Key, nat>,
    records: seq<Record>,
    callers: map<Caller, Phase>,
    ended: set<Caller>)

  datatype Action =
    | Enter(caller: Caller, key: Key, hit: bool)
    | Join(caller: Caller)
    | Store(caller: Caller, outcome: Outcome)
    | Announce(caller: Caller)
    | Leave(caller: Caller)
    | Receive(caller: Caller)
    | Cancel(caller: Caller)
    | EndContext(caller: Caller)

  const START := State(map[], [], map[], {})

  predicate Leading(p: Phase) {
    p.Downloading? || p.Stored? || p.Announced?
  }

  predicate Returned(p: Phase) {
    p.Led? || p.Followed? || p.Cancelled? || p.Served?
  }

  predicate Enabled(s: State, a: Action) {
    if a.Enter? then a.caller !in s.callers
    else
      a.caller in s.callers &&
      var p := s.callers[a.caller];
      match a
      case Join(_) => p.Missed?
      case Store(_, outcome) =>
        p.Downloading? && p.id < |s.records| && (outcome.Interrupted? ==> a.caller in s.ended)
      case Announce(_) => p.Stored? && p.id < |s.records|
      case Leave(_) => p.Announced? && p.id < |s.records| && s.records[p.id].result.Some?
      case Receive(_) => p.Following? && p.id < |s.records| && s.records[p.id].done && s.records[p.id].result.Some?
      case Cancel(_) => p.Following? && a.caller in s.ended
      case EndContext(_) => true
  }

  function Next(s: State, a: Action): State
    requires Enabled(s, a)
  {
    match a
    case Enter(c, key, hit) => s.(callers := s.callers[c := if hit then Served(key) else Missed(key)])
    case Join(c) => DoJoin(s, c)
    case Store(c, outcome) =>
      var p := s.callers[c];
      s.(records := s.records[p.id := s.records[p.id].(result := Some(outcome))],
         callers := s.callers[c := Stored(p.key, p.id)])
    case Announce(c) =>
      var p := s.callers[c];
      s.(records := s.records[p.id := s.records[p.id].(done := true)],
         callers := s.callers[c := Announced(p.key, p.id)])
    case Leave(c) =>
      var p := s.callers[c];
      s.(inflight := s.inflight - {p.key}, callers := s.callers[c := Led(p.key, p.id, s.records[p.id].result.value)])
    case Receive(c) =>
      var p := s.callers[c];
      s.(callers := s.callers[c := Followed(p.key, p.id, s.records[p.id].result.value)])
    case Cancel(c) =>
      s.(callers := s.callers[c := Cancelled(s.callers[c].key)])
    case EndContext(c) => s.(ended := s.ended + {c})
  }

  /** The critical section: follow the download in flight, or start one. */
  function DoJoin(s: State, c: Caller): State
    requires c in s.callers && s.callers[c].Missed?
  {
    var key := s.callers[c].key;
    if key in s.inflight then s.(callers := s.callers[c := Following(key, s.inflight[key])])
    else
      State(s.inflight[key := |s.records|], s.records + [Record(key, c, None, false)],
            s.callers[c := Downloading(key, |s.records|)], s.ended)
  }

  // ---------------------------------------------------------------- the invariant

  /** A phase agrees with the record it is about. */
  predicate Fits(s: State, c: Caller, p: Phase) {
    match p
    case Missed(_) => true
    case Cancelled(_) => c in s.ended
    case Served(_) => true
    case Following(key, id) => id < |s.records| && s.records[id].key == key
    case Followed(key, id, o) =>
      id < |s.records| && s.records[id].key == key && s.records[id].done && s.records[id].result == Some(o)
    case Downloading(key, id) =>
      id < |s.records| && s.records[id] == Record(key, c, None, false) && InFlight(s, key, id)
    case Stored(key, id) =>
      id < |s.records| && s.records[id].result.Some? && s.records[id] == Record(key, c, s.records[id].result, false)
      && InFlight(s, key, id)
    case Announced(key, id) =>
      id < |s.records| && s.records[id].result.Some? && s.records[id] == Record(key, c, s.records[id].result, true)
      && InFlight(s, key, id)
    case Led(key, id, o) => id < |s.records| && s.records[id] == Record(key, c, Some(o), true)
  }

  predicate InFlight(s: State, key: Key, id: nat) {
    key in s.inflight && s.inflight[key] == id
  }

  /** The call that leads a record is still there, or has returned; and only its own context can have interrupted it. */
  predicate HasLeader(s: State, id: nat)
    requires id < |s.records|
  {
    var c := s.records[id].leader;
    && c in s.callers && (Leading(s.callers[c]) || s.callers[c].Led?) && s.callers[c].id == id
    && (s.records[id].result == Some(Interrupted) ==> c in s.ended)
  }

  /** Only the newest record of a key can be in flight, and its leader has not returned. */
  predicate Newest(s: State, key: Key) {
    key in s.inflight ==>
      var id := s.inflight[key];
      && id < |s.records| && s.records[id].key == key
      && (forall j :: id < j < |s.records| ==> s.records[j].key != key)
      && s.records[id].leader in s.callers && Leading(s.callers[s.records[id].leader])
  }

  predicate CallerFits(s: State, c: Caller) {
    c in s.callers ==> Fits(s, c, s.callers[c])
  }

  ghost predicate Sound(s: State) {
    && (forall c :: CallerFits(s, c))
    && (forall id :: 0 <= id < |s.records| ==> HasLeader(s, id))
    && (forall key :: Newest(s, key))
  }

  lemma StartIsSound()
    ensures Sound(START)
  {
  }

  lemma CallersStayFit(s: State, a: Action, c: Caller)
    requires Sound(s) && Enabled(s, a)
    ensures CallerFits(Next(s, a), c)
  {
    assert CallerFits(s, c) && CallerFits(s, a.caller);
    if a.Join? { assert Newest(s, s.callers[a.caller].key); }
  }

  lemma LeadersStay(s: State, a: Action, id: nat)
    requires Sound(s) && Enabled(s, a) && id < |Next(s, a).records|
    ensures HasLeader(Next(s, a), id)
  {
    assert CallerFits(s, a.caller);
    if id < |s.records| { assert HasLeader(s, id); }
  }

  lemma NewestStays(s: State, a: Action, key: Key)
    requires Sound(s) && Enabled(s, a)
    ensures Newest(Next(s, a), key)
  {
    assert CallerFits(s, a.caller) && Newest(s, key);
    if key in s.inflight {
      assert HasLeader(s, s.inflight[key]);
    }
  }

  lemma StepKeepsSound(s: State, a: Action)
    requires Sound(s) && Enabled(s, a)
    ensures Sound(Next(s, a))
  {
    forall c ensures CallerFits(Next(s, a), c) { CallersStayFit(s, a, c); }
    forall id | 0 <= id < |Next(s, a).records| ensures HasLeader(Next(s, a), id) { LeadersStay(s, a, id); }
    forall key ensures Newest(Next(s, a), key) { NewestStays(s, a, key); }
  }

  // ---------------------------------------------------------------- runs

  predicate Legal(s: State, run: seq<Action>)
    decreases |run|
  {
    run == [] || (Enabled(s, run[0]) && Legal(Next(s, run[0]), run[1..]))
  }

  function Exec(s: State, run: seq<Action>): State
    requires Legal(s, run)
    decreases |run|
  {
    if run == [] then s else Exec(Next(s, run[0]), run[1..])
  }

  lemma {:induction false} RunKeepsSound(s: State, run: seq<Action>)
    requires Sound(s) && Legal(s, run)
    ensures Sound(Exec(s, run))
    decreases |run|
  {
    if run != [] {
      StepKeepsSound(s, run[0]);
      RunKeepsSound(Next(s, run[0]), run[1..]);
    }
  }

  /** At any moment of any run no two calls are downloading one key, nor is one that has finished its download but
      not yet taken it out of the table. */
  lemma OneLeaderPerKey(run: seq<Action>, c: Caller, d: Caller)
    requires Legal(START, run)
    requires var s := Exec(START, run);
             c in s.callers && d in s.callers && Leading(s.callers[c]) && Leading(s.callers[d])
             && s.callers[c].key == s.callers[d].key
    ensures c == d
  {
    StartIsSound();
    RunKeepsSound(START, run);
    var s := Exec(START, run);
    assert CallerFits(s, c) && CallerFits(s, d);
  }

  /** Downloads of one key never overlap: when a later one has started, the leader of the earlier has returned. */
  lemma DownloadsOfAKeyAreSequential(run: seq<Action>, earlier: nat, later: nat)
    requires Legal(START, run)
    requires var s := Exec(START, run); earlier < later < |s.records| && s.records[earlier].key == s.records[later].key
    ensures var s := Exec(START, run);
            var leader := s.records[earlier].leader;
            && leader in s.callers && s.callers[leader].Led? && s.callers[leader].id == earlier
            && s.records[earlier].done && s.records[earlier].result == Some(s.callers[leader].outcome)
  {
    StartIsSound();
    RunKeepsSound(START, run);
    var s := Exec(START, run);
    assert HasLeader(s, earlier);
    var leader := s.records[earlier].leader;
    assert CallerFits(s, leader);
    assert Newest(s, s.records[earlier].key);
  }

  /** A follower that was not cancelled returns exactly what its leader returns, for the key it asked for. */
  lemma FollowerReturnsLeadersResult(run: seq<Action>, follower: Caller)
    requires Legal(START, run)
    requires var s := Exec(START, run); follower in s.callers && s.callers[follower].Followed?
    ensures var s := Exec(START, run);
            var p := s.callers[follower];
            && p.id < |s.records| && s.records[p.id].key == p.key && s.records[p.id].leader in s.callers
            && var q := s.callers[s.records[p.id].leader];
            && q.key == p.key && s.records[p.id].result == Some(p.outcome)
            && (q == Led(p.key, p.id, p.outcome) || q == Announced(p.key, p.id))
  {
    StartIsSound();
    RunKeepsSound(START, run);
    var s := Exec(START, run);
    var p := s.callers[follower];
    assert CallerFits(s, follower) && HasLeader(s, p.id);
    var leader := s.records[p.id].leader;
    assert CallerFits(s, leader);
  }

  /** A waiting follower is never left behind: its leader is still at work, or the result is there to be taken. */
  lemma FollowerIsNotStranded(run: seq<Action>, follower: Caller)
    requires Legal(START, run)
    requires var s := Exec(START, run); follower in s.callers && s.callers[follower].Following?
    ensures var s := Exec(START, run);
            var id := s.callers[follower].id;
            && id < |s.records| && s.records[id].leader in s.callers
            && var leader := s.records[id].leader;
            && (Enabled(s, Receive(follower)) <==> s.records[id].done)
            && (!s.records[id].done ==> s.callers[leader].Downloading? || Enabled(s, Announce(leader)))
  {
    StartIsSound();
    RunKeepsSound(START, run);
    var s := Exec(START, run);
    var id := s.callers[follower].id;
    assert CallerFits(s, follower) && HasLeader(s, id);
    var leader := s.records[id].leader;
    assert CallerFits(s, leader);
  }

  predicate AllReturned(s: State) {
    forall c :: c in s.callers ==> Returned(s.callers[c])
  }

  /** When every call has returned nothing is in flight. */
  lemma NothingInFlightAtRest(run: seq<Action>)
    requires Legal(START, run) && AllReturned(Exec(START, run))
    ensures Exec(START, run).inflight == map[]
  {
    StartIsSound();
    RunKeepsSound(START, run);
    AtRest(Exec(START, run));
  }

  lemma AtRest(s: State)
    requires Sound(s) && AllReturned(s)
    ensures s.inflight == map[]
  {
    assert forall c :: c in s.callers ==> !Leading(s.callers[c]);
    forall key ensures key !in s.inflight {
      assert Newest(s, key);
    }
    assert s.inflight.Keys == {};
  }

  /** A result, once stored, is never replaced: whoever takes it, whenever, takes the same. */
  lemma {:induction false} ResultsAreFinal(s: State, run: seq<Action>, id: nat)
    requires Sound(s) && Legal(s, run)
    requires id < |s.records| && s.records[id].result.Some?
    ensures var t := Exec(s, run);
            id < |t.records| && t.records[id].result == s.records[id].result && t.records[id].key == s.records[id].key
    decreases |run|
  {
    if run != [] {
      StepKeepsSound(s, run[0]);
      var t := Next(s, run[0]);
      assert t.records[id].result == s.records[id].result && t.records[id].key == s.records[id].key by {
        if run[0].Store? {
          assert CallerFits(s, run[0].caller);
        }
      }
      ResultsAreFinal(t, run[1..], id);
    }
  }

  // ---------------------------------------------------------------- cancellation

  /** The call returns the error of a context: its own, or the one its download ran under. */
  predicate ReturnsCancellation(p: Phase) {
    p.Cancelled? || ((p.Led? || p.Followed?) && p.outcome.Interrupted?)
  }

  /** A call whose own context is live returns the error of a context exactly if it followed a download that its
      leader's context interrupted: another call's, which has ended. */
  lemma LiveCallFailsOnlyWithItsLeader(run: seq<Action>, c: Caller)
    requires Legal(START, run)
    requires var s := Exec(START, run); c in s.callers && c !in s.ended
    ensures var s := Exec(START, run);
            var p := s.callers[c];
            && (p.Followed? ==> p.id < |s.records|)
            && (ReturnsCancellation(p) <==> p.Followed? && s.records[p.id].result == Some(Interrupted))
            && (ReturnsCancellation(p) ==>
                  var leader := s.records[p.id].leader;
                  && leader != c && leader in s.ended && leader in s.callers
                  && s.callers[leader].key == p.key)
  {
    StartIsSound();
    RunKeepsSound(START, run);
    var s := Exec(START, run);
    assert CallerFits(s, c);
    var p := s.callers[c];
    if p.Followed? || p.Led? {
      assert HasLeader(s, p.id);
      assert CallerFits(s, s.records[p.id].leader);
    }
  }

  /** And it happens: the leader's context ends, and the follower, whose own is live, returns that error. */
  lemma FollowerFailsWithItsLeader(key: Key)
    ensures var run := [Enter(0, key, false), Join(0), Enter(1, key, false), Join(1), EndContext(0),
                        Store(0, Interrupted), Announce(0), Receive(1)];
            && Legal(START, run)
            && var s := Exec(START, run);
               1 in s.callers && 1 !in s.ended && s.callers[1] == Followed(key, 0, Interrupted)
  {
    var s1 := Next(START, Enter(0, key, false));
    var s2 := Next(s1, Join(0));
    var s3 := Next(s2, Enter(1, key, false));
    var s4 := Next(s3, Join(1));
    var s5 := Next(s4, EndContext(0));
    var s6 := Next(s5, Store(0, Interrupted));
    var s7 := Next(s6, Announce(0));
    var s8 := Next(s7, Receive(1));
    assert s8.callers[1] == Followed(key, 0, Interrupted) && s8.ended == {0};
    hide Next;
    Chain(s7, Receive(1), []);
    Chain(s6, Announce(0), [Receive(1)]);
    Chain(s5, Store(0, Interrupted), [Announce(0), Receive(1)]);
    Chain(s4, EndContext(0), [Store(0, Interrupted), Announce(0), Receive(1)]);
    Chain(s3, Join(1), [EndContext(0), Store(0, Interrupted), Announce(0), Receive(1)]);
    Chain(s2, Enter(1, key, false), [Join(1), EndContext(0), Store(0, Interrupted), Announce(0), Receive(1)]);
    Chain(s1, Join(0),
          [Enter(1, key, false), Join(1), EndContext(0), Store(0, Interrupted), Announce(0), Receive(1)]);
    Chain(START, Enter(0, key, false),
          [Join(0), Enter(1, key, false), Join(1), EndContext(0), Store(0, Interrupted), Announce(0), Receive(1)]);
  }

  lemma Chain(s: State, a: Action, rest: seq<Action>)
    requires Enabled(s, a) && Legal(Next(s, a), rest)
    ensures Legal(s, [a] + rest) && Exec(s, [a] + rest) == Exec(Next(s, a), rest)
  {
    hide Enabled, Next;
    assert ([a] + rest)[1..] == rest;
  }

  // ---------------------------------------------------------------- the object

  /** The record shared by a leader and its followers. */
  class Download {
    const key: Key
    const leader: Caller
    var done: bool
    var result: Option<Outcome>

    constructor (key: Key, leader: Caller)
      ensures this.key == key && this.leader == leader && !done && result == None
    {
      this.key := key;
      this.leader := leader;
      done := false;
      result := None;
    }

    function Value(): Record
      reads this
    {
      Record(key, leader, result, done)
    }
  }

  class MediaStore {
    var inflight: map<Key, Download>
    /** Every download record ever made, and the state of the machine above. */
    ghost var downloads: seq<Download>
    ghost var state: State

    ghost predicate Valid()
      reads this, downloads
    {
      && Sound(state)
      && |downloads| == |state.records|
      && (forall i :: 0 <= i < |downloads| ==> downloads[i].Value() == state.records[i])
      && (forall i, j :: 0 <= i < |downloads| && 0 <= j < |downloads| && downloads[i] == downloads[j] ==> i == j)
      && inflight.Keys == state.inflight.Keys
      && (forall key :: key in inflight ==>
            state.inflight[key] < |downloads| && inflight[key] == downloads[state.inflight[key]])
    }

    constructor ()
      ensures Valid() && state == START && downloads == []
    {
      inflight, downloads, state := map[], [], START;
      new;
      StartIsSound();
    }

    /** A call misses the cache, or is served from it. */
    ghost method Enter(c: Caller, key: Key, hit: bool)
      requires Valid() && c !in state.callers
      modifies this`state
      ensures Valid() && state == Next(old(state), Action.Enter(c, key, hit))
    {
      StepKeepsSound(state, Action.Enter(c, key, hit));
      state := Next(state, Action.Enter(c, key, hit));
    }

    /** The context of a call ends. */
    ghost method EndContext(c: Caller)
      requires Valid() && c in state.callers
      modifies this`state
      ensures Valid() && state == Next(old(state), Action.EndContext(c))
    {
      StepKeepsSound(state, Action.EndContext(c));
      state := Next(state, Action.EndContext(c));
    }

    /** The critical section of `Resolve`: the record in flight for the key, or a new one that the caller leads. */
    method Join(c: Caller, key: Key) returns (active: Download, leads: bool)
      requires Valid() && c in state.callers && state.callers[c] == Missed(key)
      modifies this
      ensures Valid() && state == Next(old(state), Action.Join(c))
      ensures leads <==> key !in old(inflight)
      ensures active.key == key && InFlight(state, key, state.callers[c].id)
      ensures state.callers[c].id < |downloads| && active == downloads[state.callers[c].id]
      ensures downloads == if leads then old(downloads) + [active] else old(downloads)
    {
      StepKeepsSound(state, Action.Join(c));
      assert Newest(state, key);
      ghost var next := Next(state, Action.Join(c));
      hide Sound, Next, Newest;
      if key in inflight {
        active, leads := inflight[key], false;
        assert active.Value() == state.records[state.inflight[key]];
      } else {
        active := new Download(key, c);
        leads := true;
        inflight := inflight[key := active];
        downloads := downloads + [active];
      }
      state := next;
    }

    /** The leader stores what its download came to. */
    method Store(ghost c: Caller, active: Download, outcome: Outcome)
      requires Valid() && Enabled(state, Action.Store(c, outcome)) && Mine(c, active)
      modifies this`state, active`result
      ensures Valid() && state == Next(old(state), Action.Store(c, outcome)) && Mine(c, active)
      ensures active.result == Some(outcome)
    {
      StepKeepsSound(state, Action.Store(c, outcome));
      hide Sound;
      active.result := Some(outcome);
      state := Next(state, Action.Store(c, outcome));
    }

    /** It closes the record's channel: from now on followers may return. */
    method Announce(ghost c: Caller, active: Download)
      requires Valid() && Enabled(state, Action.Announce(c)) && Mine(c, active)
      modifies this`state, active`done
      ensures Valid() && state == Next(old(state), Action.Announce(c)) && Mine(c, active)
    {
      StepKeepsSound(state, Action.Announce(c));
      hide Sound;
      active.done := true;
      state := Next(state, Action.Announce(c));
    }

    /** It takes the record out of the table and returns. */
    method Leave(ghost c: Caller, key: Key, active: Download) returns (outcome: Outcome)
      requires Valid() && Enabled(state, Action.Leave(c)) && Mine(c, active) && state.callers[c].key == key
      modifies this`inflight, this`state
      ensures Valid() && state == Next(old(state), Action.Leave(c))
      ensures key !in inflight && state.callers[c] == Led(key, old(state).callers[c].id, outcome)
    {
      StepKeepsSound(state, Action.Leave(c));
      hide Sound;
      assert active.Value() == state.records[state.callers[c].id];
      outcome := active.result.value;
      inflight := inflight - {key};
      state := Next(state, Action.Leave(c));
    }

    /** A follower takes the result of a closed record. */
    method Receive(ghost c: Caller, active: Download) returns (outcome: Outcome)
      requires Valid() && c in state.callers && state.callers[c].Following? && Mine(c, active) && active.done
      modifies this`state
      ensures Valid() && Enabled(old(state), Action.Receive(c)) && state == Next(old(state), Action.Receive(c))
      ensures state.callers[c] == Followed(old(state).callers[c].key, old(state).callers[c].id, outcome)
    {
      assert active.Value() == state.records[state.callers[c].id];
      DoneHasResult(state, state.callers[c].id);
      StepKeepsSound(state, Action.Receive(c));
      hide Sound;
      outcome := active.result.value;
      state := Next(state, Action.Receive(c));
    }

    /** The record a call leads or follows. */
    ghost predicate Mine(c: Caller, active: Download)
      reads this
    {
      && c in state.callers && (Leading(state.callers[c]) || state.callers[c].Following?)
      && state.callers[c].id < |downloads| && downloads[state.callers[c].id] == active
    }
  }

  lemma DoneHasResult(s: State, id: nat)
    requires Sound(s) && id < |s.records| && s.records[id].done
    ensures s.records[id].result.Some?
  {
    assert HasLeader(s, id);
    assert CallerFits(s, s.records[id].leader);
  }
}
