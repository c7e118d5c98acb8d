/** Sequence idioms shared by the models: suffixes, Python slices, flattening and block arithmetic. */
module Seqs {

  datatype Option<+T> = None | Some(value: T) {
    predicate IsFailure() { None? }
    function PropagateFailure<U>(): Option<U>
      requires None?
    {
      None
    }
    function Extract(): T
      requires Some?
    {
      value
    }
    function GetOr(default: T): T {
      if Some? then value else default
    }
  }

  function Min(a: int, b: int): int {
    if a <= b then a else b
  }

  function Max(a: int, b: int): int {
    if a <= b then b else a
  }

  /** Python's `s[-n:]` for n >= 1: the last n elements, or all of them when there are fewer. */
  function LastN<T>(s: seq<T>, n: nat): seq<T> {
    if n <= |s| then s[|s| - n..] else s
  }

  /** Python's slice bound rule: a negative index counts from the end, and both ends are clamped. */
  function PyIndex(len: nat, i: int): (k: nat)
    ensures k <= len
  {
    if i < 0 then Max(0, len + i) else Min(i, len)
  }

  /** Python's `s[lo:hi]`. */
  function PySlice<T>(s: seq<T>, lo: int, hi: int): seq<T> {
    var a, b := PyIndex(|s|, lo), PyIndex(|s|, hi);
    if a <= b then s[a..b] else []
  }

  function Flatten<T>(ss: seq<seq<T>>): seq<T> {
    if ss == [] then [] else ss[0] + Flatten(ss[1..])
  }

  function SumLen<T>(ss: seq<seq<T>>): nat {
    if ss == [] then 0 else |ss[0]| + SumLen(ss[1..])
  }

  lemma {:induction false} FlattenLen<T>(ss: seq<seq<T>>)
    ensures |Flatten(ss)| == SumLen(ss)
  {
    if ss != [] {
      FlattenLen(ss[1..]);
    }
  }

  lemma {:induction false} FlattenAppend<T>(ss: seq<seq<T>>, x: seq<T>)
    ensures Flatten(ss + [x]) == Flatten(ss) + x
  {
    if ss == [] {
      assert Flatten([x]) == x + Flatten([]);
    } else {
      FlattenAppend(ss[1..], x);
      assert (ss + [x])[1..] == ss[1..] + [x];
    }
  }

  /** Keeping a suffix and appending commutes with keeping a suffix of the whole. */
  lemma LastNAppend<T>(g: seq<T>, x: seq<T>, n: nat)
    ensures LastN(LastN(g, n) + x, n) == LastN(g + x, n)
  {
  }

  /** A short suffix can be read off any longer suffix. */
  lemma LastNOfLastN<T>(g: seq<T>, n: nat, m: nat)
    requires m <= n
    ensures LastN(LastN(g, n), m) == LastN(g, m)
  {
  }

  lemma SliceOfSlice<T>(s: seq<T>, lo: nat, hi: nat, a: nat, b: nat)
    requires lo <= hi <= |s| && a <= b <= hi - lo
    ensures s[lo..hi][a..b] == s[lo + a..lo + b]
  {
    var t := s[lo..hi];
    forall k | 0 <= k < b - a
      ensures t[a..b][k] == s[lo + a..lo + b][k]
    {
      assert t[a..b][k] == t[a + k];
    }
  }

  lemma SliceJoin<T>(s: seq<T>, a: nat, b: nat, c: nat)
    requires a <= b <= c <= |s|
    ensures s[a..b] + s[b..c] == s[a..c]
  {
  }
}
