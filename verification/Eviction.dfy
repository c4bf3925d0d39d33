/** Least-recently-used eviction of the media cache down to a byte budget (internal/media/store.go). The library
    sort is not stable, so any order of the files that sorts them by time of use may come out of it, and whether a
    file can be removed is up to the file system. */
module Eviction {
  import opened Common

  /** A directory entry: anything that is not a readable media file is passed over. */
  datatype Entry = Other(name: nat) | Media(name: nat, size: nat, used: int)

  function MediaOf(entries: seq<Entry>): (r: seq<Entry>)
    ensures forall i :: 0 <= i < |r| ==> r[i].Media?
  {
    if entries == [] then []
    else
      var front, last := MediaOf(entries[..|entries| - 1]), entries[|entries| - 1];
      if last.Media? then front + [last] else front
  }

  predicate AllMedia(files: seq<Entry>) {
    forall i :: 0 <= i < |files| ==> files[i].Media?
  }

  function Total(files: seq<Entry>): (t: nat)
    requires AllMedia(files)
  {
    if files == [] then 0 else files[0].size + Total(files[1..])
  }

  predicate OldestFirst(files: seq<Entry>)
    requires AllMedia(files)
  {
    forall i, j :: 0 <= i < j < |files| ==> files[i].used <= files[j].used
  }

  /** A result the sort may have on `files`. */
  ghost predicate Sorts(order: seq<Entry>, files: seq<Entry>) {
    AllMedia(order) && OldestFirst(order) && multiset(order) == multiset(files)
  }

  predicate NamesDiffer(files: seq<Entry>) {
    forall i, j :: 0 <= i < |files| && 0 <= j < |files| && files[i].name == files[j].name ==> i == j
  }

  // ---------------------------------------------------------------- what a sweep does

  /** How many files of `order` are looked at: until the total, less what was removed, is within budget. */
  function Visited(order: seq<Entry>, total: int, budget: int, stuck: set<nat>): (n: nat)
    requires AllMedia(order)
    ensures n <= |order|
  {
    if order == [] || total <= budget then 0
    else 1 + Visited(order[1..], if order[0].name in stuck then total else total - order[0].size, budget, stuck)
  }

  function Removable(files: seq<Entry>, stuck: set<nat>): (r: seq<Entry>)
    requires AllMedia(files)
    ensures AllMedia(r)
  {
    if files == [] then []
    else if files[0].name in stuck then Removable(files[1..], stuck)
    else [files[0]] + Removable(files[1..], stuck)
  }

  function Stuck(files: seq<Entry>, stuck: set<nat>): (r: seq<Entry>)
    requires AllMedia(files)
    ensures AllMedia(r)
  {
    if files == [] then []
    else if files[0].name in stuck then [files[0]] + Stuck(files[1..], stuck)
    else Stuck(files[1..], stuck)
  }

  /** Removed: whatever can be of the files looked at. The rest survives. */
  function Evicted(order: seq<Entry>, budget: int, stuck: set<nat>): seq<Entry>
    requires AllMedia(order)
  {
    Removable(order[..Visited(order, Total(order), budget, stuck)], stuck)
  }

  function Survivors(order: seq<Entry>, budget: int, stuck: set<nat>): (r: seq<Entry>)
    requires AllMedia(order)
    ensures AllMedia(r)
  {
    var n := Visited(order, Total(order), budget, stuck);
    Stuck(order[..n], stuck) + order[n..]
  }

  // ---------------------------------------------------------------- laws

  lemma {:induction false} TotalConcat(a: seq<Entry>, b: seq<Entry>)
    requires AllMedia(a) && AllMedia(b)
    ensures Total(a + b) == Total(a) + Total(b)
  {
    if a == [] {
      assert a + b == b;
    } else {
      TotalConcat(a[1..], b);
      assert (a + b)[1..] == a[1..] + b;
    }
  }

  lemma TotalCons(f: Entry, rest: seq<Entry>)
    requires f.Media? && AllMedia(rest)
    ensures Total([f] + rest) == f.size + Total(rest)
  {
    assert ([f] + rest)[1..] == rest;
  }

  lemma {:induction false} PartsAddUp(files: seq<Entry>, stuck: set<nat>)
    requires AllMedia(files)
    ensures Total(files) == Total(Removable(files, stuck)) + Total(Stuck(files, stuck))
  {
    if files != [] {
      PartsAddUp(files[1..], stuck);
      TotalCons(files[0], Removable(files[1..], stuck));
      TotalCons(files[0], Stuck(files[1..], stuck));
    }
  }

  /** The total the loop tracks, when it started from `total` and has looked at the first `k` files. */
  function Tracked(order: seq<Entry>, total: int, stuck: set<nat>, k: nat): int
    requires AllMedia(order) && k <= |order|
  {
    total - Total(Removable(order[..k], stuck))
  }

  /** The loop looks at a file exactly while the tracked total exceeds the budget. */
  lemma {:induction false} VisitedWhileOver(order: seq<Entry>, total: int, budget: int, stuck: set<nat>)
    requires AllMedia(order)
    ensures var n := Visited(order, total, budget, stuck);
            && (forall k :: 0 <= k < n ==> Tracked(order, total, stuck, k) > budget)
            && (n == |order| || Tracked(order, total, stuck, n) <= budget)
  {
    var n := Visited(order, total, budget, stuck);
    if n > 0 {
      var rest := if order[0].name in stuck then total else total - order[0].size;
      VisitedWhileOver(order[1..], rest, budget, stuck);
      forall k | 0 < k <= |order|
        ensures Tracked(order, total, stuck, k) == Tracked(order[1..], rest, stuck, k - 1)
      {
        TrackedStep(order, total, stuck, k);
      }
      assert Tracked(order, total, stuck, 0) == total;
    } else {
      assert order[..0] == [];
    }
  }

  lemma TrackedStep(order: seq<Entry>, total: int, stuck: set<nat>, k: nat)
    requires AllMedia(order) && 0 < k <= |order|
    ensures Tracked(order, total, stuck, k)
         == Tracked(order[1..], if order[0].name in stuck then total else total - order[0].size, stuck, k - 1)
  {
    assert order[..k][1..] == order[1..][..k - 1];
    TotalCons(order[0], Removable(order[1..][..k - 1], stuck));
  }

  /** The tracked total is the size of what is left in the directory, at every moment of the loop. */
  lemma TrackedIsWhatIsLeft(order: seq<Entry>, stuck: set<nat>, k: nat)
    requires AllMedia(order) && k <= |order|
    ensures Tracked(order, Total(order), stuck, k) == Total(Stuck(order[..k], stuck)) + Total(order[k..])
  {
    PartsAddUp(order[..k], stuck);
    TotalConcat(order[..k], order[k..]);
    assert order[..k] + order[k..] == order;
  }

  /** A sweep removes what it can of a shortest prefix of the oldest-first order: it stops as soon as what is left
      fits the budget, and if what is left does not fit then nothing that could be removed is left. */
  lemma SweepLaw(order: seq<Entry>, budget: int, stuck: set<nat>)
    requires AllMedia(order)
    ensures var n := Visited(order, Total(order), budget, stuck);
            && Total(Evicted(order, budget, stuck)) + Total(Survivors(order, budget, stuck)) == Total(order)
            && (forall k :: 0 <= k < n ==> Total(Stuck(order[..k], stuck)) + Total(order[k..]) > budget)
            && (Total(Survivors(order, budget, stuck)) <= budget
                || Survivors(order, budget, stuck) == Stuck(order, stuck))
  {
    var n := Visited(order, Total(order), budget, stuck);
    VisitedWhileOver(order, Total(order), budget, stuck);
    forall k | 0 <= k <= |order|
      ensures Tracked(order, Total(order), stuck, k) == Total(Stuck(order[..k], stuck)) + Total(order[k..])
    {
      TrackedIsWhatIsLeft(order, stuck, k);
    }
    TotalConcat(Stuck(order[..n], stuck), order[n..]);
    if n == |order| {
      assert order[..n] == order && order[n..] == [];
      assert Stuck(order, stuck) + [] == Stuck(order, stuck);
    }
  }

  lemma {:induction false} NothingStuck(files: seq<Entry>)
    requires AllMedia(files)
    ensures Stuck(files, {}) == []
  {
    if files != [] {
      NothingStuck(files[1..]);
    }
  }

  /** When every removal succeeds the cache fits its budget afterwards. */
  lemma FitsWhenRemovalsSucceed(order: seq<Entry>, budget: nat)
    requires AllMedia(order)
    ensures Total(Survivors(order, budget, {})) <= budget
  {
    SweepLaw(order, budget, {});
    NothingStuck(order);
  }

  /** Every removed file was used no later than any survivor that could have been removed. */
  lemma OldestGoFirst(order: seq<Entry>, budget: int, stuck: set<nat>, gone: Entry, left: Entry)
    requires AllMedia(order) && OldestFirst(order)
    requires gone in Evicted(order, budget, stuck) && left in Survivors(order, budget, stuck) && left.name !in stuck
    ensures gone.used <= left.used
  {
    var n := Visited(order, Total(order), budget, stuck);
    RemovableMembers(order[..n], stuck, gone);
    StuckMembers(order[..n], stuck, left);
    var i :| 0 <= i < n && order[..n][i] == gone;
    var j :| 0 <= j < |order[n..]| && order[n..][j] == left;
    assert order[i] == gone && order[n + j] == left;
  }

  lemma {:induction false} RemovableMembers(files: seq<Entry>, stuck: set<nat>, f: Entry)
    requires AllMedia(files)
    ensures f in Removable(files, stuck) <==> f in files && f.name !in stuck
  {
    if files != [] {
      RemovableMembers(files[1..], stuck, f);
      assert f in files <==> f == files[0] || f in files[1..];
    }
  }

  lemma {:induction false} StuckMembers(files: seq<Entry>, stuck: set<nat>, f: Entry)
    requires AllMedia(files)
    ensures f in Stuck(files, stuck) <==> f in files && f.name in stuck
  {
    if files != [] {
      StuckMembers(files[1..], stuck, f);
      assert f in files <==> f == files[0] || f in files[1..];
    }
  }

  /** The file just downloaded is the newest. It survives exactly if it cannot be removed, or if together with the
      older files that cannot be removed it fits the budget. */
  lemma NewestSurvivesExactlyIf(order: seq<Entry>, budget: int, stuck: set<nat>, newest: Entry)
    requires AllMedia(order) && NamesDiffer(order) && OldestFirst(order)
    requires newest in order && forall i :: 0 <= i < |order| && order[i] != newest ==> order[i].used < newest.used
    ensures newest in Survivors(order, budget, stuck)
       <==> newest.name in stuck || Total(Stuck(order[..|order| - 1], stuck)) + newest.size <= budget
  {
    NewestIsLast(order, newest);
    var last := |order| - 1;
    var n := Visited(order, Total(order), budget, stuck);
    StuckMembers(order[..n], stuck, newest);
    TotalCons(newest, []);
    assert order[last..] == [newest];
    hide Total, Stuck, Visited, OldestFirst, NamesDiffer;
    if n == |order| {
      SweepLaw(order, budget, stuck);
      assert Total(Stuck(order[..last], stuck)) + Total(order[last..]) > budget;
      assert order[..n] == order && order[n..] == [];
    } else {
      assert order[n..][last - n] == newest;
      VisitedWhileOver(order, Total(order), budget, stuck);
      TrackedIsWhatIsLeft(order, stuck, n);
      LaterStuckFit(order, stuck, n, newest);
    }
  }

  lemma NewestIsLast(order: seq<Entry>, newest: Entry)
    requires AllMedia(order) && OldestFirst(order) && NamesDiffer(order) && newest in order
    requires forall i :: 0 <= i < |order| && order[i] != newest ==> order[i].used < newest.used
    ensures order[|order| - 1] == newest
  {
    var i :| 0 <= i < |order| && order[i] == newest;
    if i < |order| - 1 {
      assert order[i].used <= order[|order| - 1].used;
    }
  }

  /** What is left once only the newest file is still to be looked at weighs no more than what was left before. */
  lemma LaterStuckFit(order: seq<Entry>, stuck: set<nat>, n: nat, newest: Entry)
    requires AllMedia(order) && n < |order| && order[|order| - 1] == newest
    ensures Total(Stuck(order[..|order| - 1], stuck)) + newest.size
         <= Total(Stuck(order[..n], stuck)) + Total(order[n..])
  {
    var last := |order| - 1;
    var middle := order[n..last];
    assert order[..last] == order[..n] + middle;
    assert order[n..] == middle + [newest];
    StuckConcat(order[..n], middle, stuck);
    TotalConcat(Stuck(order[..n], stuck), Stuck(middle, stuck));
    TotalConcat(middle, [newest]);
    PartsAddUp(middle, stuck);
    assert Total([newest]) == newest.size + Total([]);
  }

  lemma {:induction false} StuckConcat(a: seq<Entry>, b: seq<Entry>, stuck: set<nat>)
    requires AllMedia(a) && AllMedia(b)
    ensures Stuck(a + b, stuck) == Stuck(a, stuck) + Stuck(b, stuck)
  {
    if a == [] {
      assert a + b == b;
    } else {
      StuckConcat(a[1..], b, stuck);
      assert (a + b)[0] == a[0] && (a + b)[1..] == a[1..] + b;
      Assoc([a[0]], Stuck(a[1..], stuck), Stuck(b, stuck));
    }
  }

  // ---------------------------------------------------------------- the cache directory

  /** The entries of a directory without some names. */
  function Without(entries: seq<Entry>, names: set<nat>): seq<Entry> {
    if entries == [] then []
    else
      var front, last := Without(entries[..|entries| - 1], names), entries[|entries| - 1];
      if last.name in names then front else front + [last]
  }

  function Names(files: seq<Entry>): (r: set<nat>)
    ensures forall f :: f in files ==> f.name in r
  {
    set f | f in files :: f.name
  }

  lemma {:induction false} WithoutTwice(entries: seq<Entry>, a: set<nat>, b: set<nat>)
    ensures Without(Without(entries, a), b) == Without(entries, a + b)
  {
    if entries != [] {
      var front, last := entries[..|entries| - 1], entries[|entries| - 1];
      WithoutTwice(front, a, b);
      if last.name !in a {
        var w := Without(entries, a);
        assert w[..|w| - 1] == Without(front, a) && w[|w| - 1] == last;
      }
    }
  }

  lemma {:induction false} WithoutNone(entries: seq<Entry>)
    ensures Without(entries, {}) == entries
  {
    if entries != [] {
      WithoutNone(entries[..|entries| - 1]);
    }
  }

  class CacheDir {
    const maxBytes: int
    /** What reading the directory lists. */
    var entries: seq<Entry>

    constructor (maxBytes: int, entries: seq<Entry>)
      ensures this.maxBytes == maxBytes && this.entries == entries
    {
      this.maxBytes := maxBytes;
      this.entries := entries;
    }

    /** Fails, changing nothing, for a file that cannot be removed. */
    method Remove(name: nat, stuck: set<nat>) returns (ok: bool)
      modifies this
      ensures ok <==> name !in stuck
      ensures entries == Without(old(entries), if ok then {name} else {})
    {
      WithoutNone(entries);
      ok := name !in stuck;
      if ok { entries := Without(entries, {name}); }
    }

    /** The media files and their total size. */
    method List() returns (files: seq<Entry>, total: int)
      ensures files == MediaOf(entries) && total == Total(files)
    {
      files, total := [], 0;
      for i := 0 to |entries|
        invariant files == MediaOf(entries[..i]) && total == Total(files)
      {
        assert entries[..i + 1][..i] == entries[..i];
        if entries[i].Media? {
          TotalConcat(files, [entries[i]]);
          assert Total([entries[i]]) == entries[i].size + Total([]);
          total := total + entries[i].size;
          files := files + [entries[i]];
        }
      }
      assert entries[..|entries|] == entries;
    }

    /** `order` is the outcome of the sort and `readable` whether the directory could be read at all. */
    method Evict(order: seq<Entry>, stuck: set<nat>, readable: bool)
      requires Sorts(order, MediaOf(entries))
      modifies this
      ensures entries == if maxBytes <= 0 || !readable then old(entries)
                         else Without(old(entries), Names(Evicted(order, maxBytes, stuck)))
    {
      if maxBytes <= 0 || !readable { return; }
      assert AllMedia(order) && multiset(order) == multiset(MediaOf(entries));
      hide Total, Sorts, MediaOf, Evicted, Without;
      var files, total := List();
      TotalOfPermutation(order, files);
      Sweep(order, total, stuck);
    }

    /** The loop of `Evict`. */
    method Sweep(order: seq<Entry>, fromTotal: int, stuck: set<nat>)
      requires AllMedia(order) && fromTotal == Total(order)
      modifies this
      ensures entries == Without(old(entries), Names(Evicted(order, maxBytes, stuck)))
    {
      hide AllMedia, Total, Without, SweptTo, Names, Evicted;
      var total := fromTotal;
      SweepStarts(order, total, maxBytes, stuck, entries);
      var i := 0;
      while i < |order| && total > maxBytes
        invariant 0 <= i <= |order|
        invariant SweptTo(order, total, maxBytes, stuck, i, entries, old(entries))
      {
        var file := order[i];
        MediaAt(order, i);
        SweepMoves(order, total, maxBytes, stuck, i, entries, old(entries));
        var ok := Remove(file.name, stuck);
        if ok { total := total - file.size; }
        i := i + 1;
      }
      SweepEnds(order, total, maxBytes, stuck, i, entries, old(entries));
    }
  }

  lemma MediaAt(files: seq<Entry>, i: nat)
    requires AllMedia(files) && i < |files|
    ensures files[i].Media?
  {
  }

  /** The invariant of the loop: the total tracks what is left, the removable files of the prefix are gone, and the
      rest of the sweep is still to come. */
  ghost predicate SweptTo(order: seq<Entry>, total: int, budget: int, stuck: set<nat>, i: int,
                          now: seq<Entry>, before: seq<Entry>)
    requires AllMedia(order) && 0 <= i <= |order|
  {
    && total == Tracked(order, Total(order), stuck, i)
    && now == Without(before, Names(Removable(order[..i], stuck)))
    && Visited(order, Total(order), budget, stuck) == i + Visited(order[i..], total, budget, stuck)
  }

  lemma SweepStarts(order: seq<Entry>, total: int, budget: int, stuck: set<nat>, entries: seq<Entry>)
    requires AllMedia(order) && total == Total(order)
    ensures SweptTo(order, total, budget, stuck, 0, entries, entries)
  {
    assert order[..0] == [] && order[0..] == order;
    assert Names([]) == {};
    WithoutNone(entries);
  }

  lemma SweepMoves(order: seq<Entry>, total: int, budget: int, stuck: set<nat>, i: nat,
                   now: seq<Entry>, before: seq<Entry>)
    requires AllMedia(order) && i < |order| && total > budget
    requires SweptTo(order, total, budget, stuck, i, now, before)
    ensures var goes := order[i].name !in stuck;
            SweptTo(order, if goes then total - order[i].size else total, budget, stuck, i + 1,
                    Without(now, if goes then {order[i].name} else {}), before)
  {
    RemovableSnoc(order, stuck, i);
    assert order[i..][1..] == order[i + 1..];
    var gone := Removable(order[..i], stuck);
    var also := if order[i].name in stuck then {} else {order[i].name};
    WithoutTwice(before, Names(gone), also);
    assert Names(Removable(order[..i + 1], stuck)) == Names(gone) + also;
  }

  lemma SweepEnds(order: seq<Entry>, total: int, budget: int, stuck: set<nat>, i: nat,
                  now: seq<Entry>, before: seq<Entry>)
    requires AllMedia(order) && i <= |order| && (i == |order| || total <= budget)
    requires SweptTo(order, total, budget, stuck, i, now, before)
    ensures now == Without(before, Names(Evicted(order, budget, stuck)))
  {
  }

  lemma RemovableSnoc(order: seq<Entry>, stuck: set<nat>, i: nat)
    requires AllMedia(order) && i < |order|
    ensures var next := if order[i].name in stuck then [] else [order[i]];
            && Removable(order[..i + 1], stuck) == Removable(order[..i], stuck) + next
            && Total(Removable(order[..i + 1], stuck))
               == Total(Removable(order[..i], stuck)) + (if order[i].name in stuck then 0 else order[i].size)
  {
    var next := if order[i].name in stuck then [] else [order[i]];
    assert order[..i + 1] == order[..i] + [order[i]];
    RemovableConcat(order[..i], [order[i]], stuck);
    assert Removable([order[i]], stuck) == next + Removable([], stuck);
    TotalConcat(Removable(order[..i], stuck), next);
    assert Total(next) == if order[i].name in stuck then 0 else order[i].size + Total([]);
  }

  lemma {:induction false} RemovableConcat(a: seq<Entry>, b: seq<Entry>, stuck: set<nat>)
    requires AllMedia(a) && AllMedia(b)
    ensures Removable(a + b, stuck) == Removable(a, stuck) + Removable(b, stuck)
  {
    if a == [] {
      assert a + b == b;
    } else {
      RemovableConcat(a[1..], b, stuck);
      assert (a + b)[0] == a[0] && (a + b)[1..] == a[1..] + b;
      Assoc([a[0]], Removable(a[1..], stuck), Removable(b, stuck));
    }
  }

  lemma {:induction false} TotalOfPermutation(a: seq<Entry>, b: seq<Entry>)
    requires AllMedia(a) && AllMedia(b) && multiset(a) == multiset(b)
    ensures Total(a) == Total(b)
  {
    hide Total;
    assert |a| == |multiset(a)| == |b|;
    if a == [] {
      assert a == b;
    } else {
      TotalCons(a[0], a[1..]);
      assert a[0] in multiset(b);
      var i :| 0 <= i < |b| && b[i] == a[0];
      TakeOut(b, i);
      TakeOutMultiset(b, i);
      assert a == [a[0]] + a[1..];
      TotalOfPermutation(a[1..], b[..i] + b[i + 1..]);
    }
  }

  lemma TakeOut(b: seq<Entry>, i: nat)
    requires AllMedia(b) && i < |b|
    ensures Total(b) == b[i].size + Total(b[..i] + b[i + 1..])
  {
    hide Total;
    assert b == b[..i] + ([b[i]] + b[i + 1..]);
    TotalConcat(b[..i], b[i + 1..]);
    TotalCons(b[i], b[i + 1..]);
    TotalConcat(b[..i], [b[i]] + b[i + 1..]);
  }

  lemma TakeOutMultiset(b: seq<Entry>, i: nat)
    requires i < |b|
    ensures multiset(b[..i] + b[i + 1..]) == multiset(b) - multiset{b[i]}
  {
    assert b == b[..i] + ([b[i]] + b[i + 1..]);
  }

  // ---------------------------------------------------------------- what is left in the directory

  /** The files a sweep considers are the media files of the listing, each as often as listed, and nothing else. */
  lemma {:induction false} MediaCounts(entries: seq<Entry>, f: Entry)
    ensures multiset(MediaOf(entries))[f] == if f.Media? then multiset(entries)[f] else 0
  {
    if entries != [] {
      var front, last := entries[..|entries| - 1], entries[|entries| - 1];
      MediaCounts(front, f);
      assert entries == front + [last];
    }
  }

  lemma {:induction false} MediaWithout(entries: seq<Entry>, names: set<nat>)
    ensures MediaOf(Without(entries, names)) == Without(MediaOf(entries), names)
  {
    if entries != [] {
      var front, last := entries[..|entries| - 1], entries[|entries| - 1];
      MediaWithout(front, names);
      if last.name !in names {
        var w := Without(entries, names);
        assert w[..|w| - 1] == Without(front, names);
      }
      if last.Media? {
        var m := MediaOf(entries);
        assert m[..|m| - 1] == MediaOf(front);
      }
    }
  }

  lemma {:induction false} WithoutCounts(files: seq<Entry>, names: set<nat>, f: Entry)
    ensures multiset(Without(files, names))[f] == if f.name in names then 0 else multiset(files)[f]
  {
    if files != [] {
      var front, last := files[..|files| - 1], files[|files| - 1];
      WithoutCounts(front, names, f);
      assert files == front + [last];
    }
  }

  lemma {:induction false} StuckCounts(files: seq<Entry>, stuck: set<nat>, f: Entry)
    requires AllMedia(files)
    ensures multiset(Stuck(files, stuck))[f] == if f.name in stuck then multiset(files)[f] else 0
  {
    if files != [] {
      StuckCounts(files[1..], stuck, f);
      assert files == [files[0]] + files[1..];
    }
  }

  lemma NamesApart(order: seq<Entry>, i: nat, n: nat, f: Entry)
    requires NamesDiffer(order) && i < n <= |order| && f.name == order[i].name
    ensures f !in order[n..] && (f in order[..n] ==> f == order[i])
  {
    forall j | 0 <= j < |order[n..]| ensures order[n..][j].name != f.name {
      assert order[n..][j] == order[n + j];
    }
    if f in order[..n] {
      var j :| 0 <= j < n && order[..n][j] == f;
      assert order[j].name == order[i].name;
    }
  }

  lemma SurvivorCounts(order: seq<Entry>, n: nat, stuck: set<nat>, f: Entry)
    requires AllMedia(order) && NamesDiffer(order) && n <= |order|
    ensures multiset(Stuck(order[..n], stuck) + order[n..])[f]
         == multiset(Without(order, Names(Removable(order[..n], stuck))))[f]
  {
    hide Removable, Stuck, Without, NamesDiffer, Names;
    var names := Names(Removable(order[..n], stuck));
    StuckCounts(order[..n], stuck, f);
    WithoutCounts(order, names, f);
    SurvivesOnce(order, n, stuck, f);
    assert order == order[..n] + order[n..];
    CountsAgree(order[..n], order[n..], Stuck(order[..n], stuck), Without(order, names), f,
                f.name in names, f.name in stuck);
  }

  lemma CountsAgree(seen: seq<Entry>, unseen: seq<Entry>, kept: seq<Entry>, left: seq<Entry>, f: Entry,
                    gone: bool, stuck: bool)
    requires multiset(kept)[f] == if stuck then multiset(seen)[f] else 0
    requires multiset(left)[f] == if gone then 0 else multiset(seen + unseen)[f]
    requires gone ==> f !in unseen && (stuck ==> f !in seen)
    requires !gone && !stuck ==> f !in seen
    ensures multiset(kept + unseen)[f] == multiset(left)[f]
  {
    assert f in seen <==> multiset(seen)[f] > 0;
    assert f in unseen <==> multiset(unseen)[f] > 0;
  }

  lemma SurvivesOnce(order: seq<Entry>, n: nat, stuck: set<nat>, f: Entry)
    requires AllMedia(order) && NamesDiffer(order) && n <= |order|
    ensures f.name in Names(Removable(order[..n], stuck))
            ==> f !in order[n..] && (f.name in stuck ==> f !in order[..n])
    ensures f.name !in Names(Removable(order[..n], stuck)) && f.name !in stuck ==> f !in order[..n]
  {
    hide NamesDiffer, Removable;
    var gone := Removable(order[..n], stuck);
    if f.name in Names(gone) {
      var g :| g in gone && g.name == f.name;
      RemovableMembers(order[..n], stuck, g);
      var i :| 0 <= i < n && order[i] == g;
      NamesApart(order, i, n, f);
    } else {
      RemovableMembers(order[..n], stuck, f);
    }
  }

  /** The media files a sweep leaves in a directory are exactly the survivors; so the total it tracked is the truth,
      and it fits the budget unless every file that could be removed is gone. */
  lemma DirectoryHoldsSurvivors(entries: seq<Entry>, order: seq<Entry>, budget: int, stuck: set<nat>)
    requires Sorts(order, MediaOf(entries)) && NamesDiffer(order)
    ensures var left := MediaOf(Without(entries, Names(Evicted(order, budget, stuck))));
            && multiset(left) == multiset(Survivors(order, budget, stuck))
            && Total(left) == Total(Survivors(order, budget, stuck))
            && (Total(left) <= budget || Survivors(order, budget, stuck) == Stuck(order, stuck))
            && (stuck == {} && budget >= 0 ==> Total(left) <= budget)
  {
    var names := Names(Evicted(order, budget, stuck));
    var left := MediaOf(Without(entries, names));
    MediaWithout(entries, names);
    hide Without, MediaOf, Total, Names, OldestFirst, NamesDiffer, Stuck, Removable, Visited;
    forall f ensures multiset(left)[f] == multiset(Survivors(order, budget, stuck))[f] {
      WithoutCounts(MediaOf(entries), names, f);
      WithoutCounts(order, names, f);
      SurvivorCounts(order, Visited(order, Total(order), budget, stuck), stuck, f);
    }
    TotalOfPermutation(left, Survivors(order, budget, stuck));
    SweepLaw(order, budget, stuck);
    if stuck == {} && budget >= 0 { FitsWhenRemovalsSucceed(order, budget); }
  }
}
