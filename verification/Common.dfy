/** Small shared vocabulary: optional values, minimum, and rounding-up division. */
module Common {

  datatype Option<+T> = None | Some(value: T)

  function Min(a: int, b: int): int {
    if a <= b then a else b
  }

  function Max(a: int, b: int): int {
    if a >= b then a else b
  }

  /** The number of blocks of size `block` needed to cover `n`. */
  function CeilDiv(n: nat, block: nat): nat
    requires block > 0
  {
    (n + block - 1) / block
  }

  /** Concatenation regroups: what is added on the left of a cut may be moved to its right. */
  lemma Regroup<T>(done: seq<T>, now: seq<T>, after: seq<T>, before: seq<T>, more: seq<T>)
    requires now + after == before + more
    ensures (done + now) + after == (done + before) + more
  {
    assert (done + now) + after == done + (now + after);
    assert (done + before) + more == done + (before + more);
  }

  lemma Assoc<T>(a: seq<T>, b: seq<T>, c: seq<T>)
    ensures (a + b) + c == a + (b + c)
  {
  }

  /** Appending the next `n` elements of `s` to a prefix of it, behind `x`. */
  lemma PrefixGrows<T>(x: seq<T>, s: seq<T>, p: nat, n: nat)
    requires p + n <= |s|
    ensures (x + s[..p]) + s[p..][..n] == x + s[..p + n]
    ensures s[p..][n..] == s[p + n..]
  {
    assert s[..p] + s[p..][..n] == s[..p + n];
    Assoc(x, s[..p], s[p..][..n]);
  }
}
