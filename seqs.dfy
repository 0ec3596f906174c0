/** Array helpers: `filter`, `some` and sums of counts. */
module Seqs {

  /** `s.filter(p)`: the elements of `s` that pass `p`, in their original order. */
  function Filter<T>(s: seq<T>, p: T -> bool): (r: seq<T>)
    ensures |r| <= |s|
    ensures forall i :: 0 <= i < |r| ==> r[i] in s && p(r[i])
    ensures forall i :: 0 <= i < |s| && p(s[i]) ==> s[i] in r
  {
    if s == [] then [] else (if p(s[0]) then [s[0]] else []) + Filter(s[1..], p)
  }

  /** `s.some(p)`. */
  predicate Any<T>(s: seq<T>, p: T -> bool) {
    exists i :: 0 <= i < |s| && p(s[i])
  }

  /** Filtering distributes over concatenation, so the order of the input is kept. */
  lemma {:induction false} FilterConcat<T>(s: seq<T>, t: seq<T>, p: T -> bool)
    ensures Filter(s + t, p) == Filter(s, p) + Filter(t, p)
  {
    if s == [] {
      assert s + t == t;
    } else {
      assert (s + t)[1..] == s[1..] + t;
      FilterConcat(s[1..], t, p);
    }
  }

  /** Nothing passes the filter exactly when no element satisfies `p`. */
  lemma FilterEmptyIffNone<T>(s: seq<T>, p: T -> bool)
    ensures Filter(s, p) == [] <==> !Any(s, p)
  {
    if Any(s, p) {
      var i :| 0 <= i < |s| && p(s[i]);
      assert s[i] in Filter(s, p);
    }
  }

  /** When every element passes, the filter returns its input unchanged. */
  lemma {:induction false} FilterKeepsAll<T>(s: seq<T>, p: T -> bool)
    requires forall i :: 0 <= i < |s| ==> p(s[i])
    ensures Filter(s, p) == s
  {
    if s != [] {
      FilterKeepsAll(s[1..], p);
    }
  }

  /** The sum of `f` over the values of a list of entries, accumulated front to back. */
  function SumOver<V>(d: seq<(string, V)>, f: V -> nat): nat {
    if d == [] then 0 else SumOver(d[..|d| - 1], f) + f(d[|d| - 1].1)
  }

  /** A sum of zeros is zero. */
  lemma {:induction false} SumOverZero<V>(d: seq<(string, V)>, f: V -> nat)
    requires forall i :: 0 <= i < |d| ==> f(d[i].1) == 0
    ensures SumOver(d, f) == 0
    decreases |d|
  {
    if d != [] {
      SumOverZero(d[..|d| - 1], f);
    }
  }

  /** Sums over a concatenation add up. */
  lemma {:induction false} SumOverConcat<V>(d: seq<(string, V)>, e: seq<(string, V)>, f: V -> nat)
    ensures SumOver(d + e, f) == SumOver(d, f) + SumOver(e, f)
  {
    if e != [] {
      assert (d + e)[..|d + e| - 1] == d + e[..|e| - 1];
      SumOverConcat(d, e[..|e| - 1], f);
    } else {
      assert d + e == d;
    }
  }

  /** The sum of four per-entry counts is the sum of the four per-kind sums. */
  lemma {:induction false} SumOverFour<V>(d: seq<(string, V)>, f: V -> nat, a: V -> nat, b: V -> nat,
                                          c: V -> nat, e: V -> nat)
    requires forall v :: f(v) == a(v) + b(v) + c(v) + e(v)
    ensures SumOver(d, f) == SumOver(d, a) + SumOver(d, b) + SumOver(d, c) + SumOver(d, e)
  {
    if d != [] {
      SumOverFour(d[..|d| - 1], f, a, b, c, e);
    }
  }

  /** Concatenation regrouped; stated once, generically, so that callers over large element types stay cheap. */
  lemma ConcatAssoc<T>(x: seq<T>, y: seq<T>, z: seq<T>)
    ensures (x + y) + z == x + (y + z)
  {
  }
}
