/**
 * JavaScript plain objects as insertion-ordered association lists.
 *
 * A JS object keeps its string keys in insertion order (`Object.keys`,
 * `Object.entries`), holds each key at most once, and `{...d, [k]: v}`
 * replaces the value of an existing key in place or appends a new key.
 */
module Dicts {
  import opened Wrappers

  predicate DistinctKeys<V>(d: seq<(string, V)>) {
    forall i, j :: 0 <= i < j < |d| ==> d[i].0 != d[j].0
  }

  /** A JS object: no key occurs twice. */
  type Dict<V> = d: seq<(string, V)> | DistinctKeys(d) witness []

  /** `Object.keys(d)`. */
  function Keys<V>(d: seq<(string, V)>): (ks: seq<string>)
    ensures |ks| == |d|
    ensures forall i :: 0 <= i < |d| ==> ks[i] == d[i].0
  {
    if d == [] then [] else [d[0].0] + Keys(d[1..])
  }

  /** `Object.values(d)`. */
  function Values<V>(d: seq<(string, V)>): (vs: seq<V>)
    ensures |vs| == |d|
    ensures forall i :: 0 <= i < |d| ==> vs[i] == d[i].1
  {
    if d == [] then [] else [d[0].1] + Values(d[1..])
  }

  /** The position of key `k`, or `|d|` when `k` is not a key. */
  function Find<V>(d: seq<(string, V)>, k: string): (i: nat)
    ensures i <= |d|
    ensures i < |d| ==> d[i].0 == k
    ensures forall j :: 0 <= j < i ==> d[j].0 != k
  {
    if d == [] then 0 else if d[0].0 == k then 0 else 1 + Find(d[1..], k)
  }

  /** `d[k]`, with `None` for `undefined`. */
  function Get<V>(d: seq<(string, V)>, k: string): (r: Option<V>)
    ensures r.Some? <==> k in Keys(d)
    ensures r.Some? ==> (k, r.value) in d
  {
    var i := Find(d, k);
    if i < |d| then Some(d[i].1) else None
  }

  /** `{...d, [k]: v}`. */
  function Set<V>(d: Dict<V>, k: string, v: V): (r: Dict<V>)
    ensures Get(r, k) == Some(v)
    ensures forall j :: j != k ==> Get(r, j) == Get(d, j)
    ensures k in Keys(d) ==> Keys(r) == Keys(d)
    ensures k !in Keys(d) ==> r == d + [(k, v)]
  {
    var i := Find(d, k);
    if i < |d| then
      ReplaceAt(d, k, v);
      d[i := (k, v)]
    else
      AppendAbsent(d, k, v);
      d + [(k, v)]
  }

  /** Replacing the value of a present key keeps the keys and changes only that lookup. */
  lemma ReplaceAt<V>(d: Dict<V>, k: string, v: V)
    requires Find(d, k) < |d|
    ensures var r := d[Find(d, k) := (k, v)];
            && DistinctKeys(r) && Keys(r) == Keys(d) && Get(r, k) == Some(v)
            && forall j :: j != k ==> Get(r, j) == Get(d, j)
  {
    var r := d[Find(d, k) := (k, v)];
    assert Keys(r) == Keys(d);
    SameKeysSameFind(r, d, k);
    forall j | j != k ensures Get(r, j) == Get(d, j) {
      SameKeysSameFind(r, d, j);
    }
  }

  /** Appending an absent key changes only that lookup. */
  lemma AppendAbsent<V>(d: Dict<V>, k: string, v: V)
    requires Find(d, k) == |d|
    ensures var r := d + [(k, v)];
            && DistinctKeys(r) && Get(r, k) == Some(v)
            && forall j :: j != k ==> Get(r, j) == Get(d, j)
  {
    var r := d + [(k, v)];
    FindInPrefix(d, [(k, v)], k);
    forall j | j != k ensures Get(r, j) == Get(d, j) {
      FindInPrefix(d, [(k, v)], j);
    }
  }

  /** `{...a, ...b}`: every key of `b` is set, in `b`'s order, on a copy of `a`. */
  function Merge<V>(a: Dict<V>, b: Dict<V>): (r: Dict<V>)
    ensures forall k :: Get(r, k) == (if k in Keys(b) then Get(b, k) else Get(a, k))
    decreases |b|
  {
    if b == [] then a
    else
      var rest: Dict<V> := b[1..];
      var a' := Set(a, b[0].0, b[0].1);
      var r := Merge(a', rest);
      assert forall k :: Get(r, k) == (if k in Keys(b) then Get(b, k) else Get(a, k)) by {
        forall k ensures Get(r, k) == (if k in Keys(b) then Get(b, k) else Get(a, k)) {
          GetCons(b, k);
        }
      }
      r
  }

  /** Looking up a key in a non-empty JS object: its first entry, then the rest. */
  lemma GetCons<V>(b: Dict<V>, k: string)
    requires b != []
    ensures k in Keys(b) <==> k == b[0].0 || k in Keys(b[1..])
    ensures k == b[0].0 ==> Get(b, k) == Some(b[0].1) && k !in Keys(b[1..])
    ensures k != b[0].0 ==> Get(b, k) == Get(b[1..], k)
  {
    assert Keys(b) == [b[0].0] + Keys(b[1..]);
    if k == b[0].0 {
      forall i | 0 <= i < |b| - 1 ensures Keys(b[1..])[i] != k { assert b[1..][i] == b[i + 1]; }
    }
  }

  /** Two lists with the same keys put every key at the same position. */
  lemma {:induction false} SameKeysSameFind<V>(d: seq<(string, V)>, e: seq<(string, V)>, k: string)
    requires Keys(d) == Keys(e)
    ensures Find(d, k) == Find(e, k)
  {
    if d != [] {
      assert d[0].0 == Keys(d)[0] == Keys(e)[0] == e[0].0;
      assert Keys(d[1..]) == Keys(d)[1..] == Keys(e)[1..] == Keys(e[1..]);
      SameKeysSameFind(d[1..], e[1..], k);
    }
  }

  /** Appending entries does not move the keys already present. */
  lemma {:induction false} FindInPrefix<V>(d: seq<(string, V)>, e: seq<(string, V)>, k: string)
    ensures Find(d + e, k) == if k in Keys(d) then Find(d, k) else |d| + Find(e, k)
  {
    if d != [] {
      assert (d + e)[1..] == d[1..] + e;
      assert Keys(d) == [d[0].0] + Keys(d[1..]);
      FindInPrefix(d[1..], e, k);
    } else {
      assert d + e == e;
    }
  }

  /** In a JS object, the key at a position looks up the value at that position. */
  lemma GetAt<V>(d: Dict<V>, i: nat)
    requires i < |d|
    ensures Get(d, d[i].0) == Some(d[i].1)
  {
  }

  /** In a JS object, an entry that is present is what its key looks up. */
  lemma EntryGet<V>(d: Dict<V>, k: string, v: V)
    requires (k, v) in d
    ensures Get(d, k) == Some(v)
  {
    var i :| 0 <= i < |d| && d[i] == (k, v);
    var j := Find(d, k);
    assert j <= i;
  }

  /** The keys of a prefix are keys of the whole; the next key is not among them. */
  lemma PrefixKeys<V>(d: Dict<V>, i: nat)
    requires i < |d|
    ensures d[i].0 !in Keys(d[..i])
  {
  }

  /** `d` with every value replaced by `f(key, value)`, in the same key order. */
  function MapValues<V, W>(d: Dict<V>, f: (string, V) -> W): (r: Dict<W>)
    ensures |r| == |d|
    ensures forall i :: 0 <= i < |d| ==> r[i] == (d[i].0, f(d[i].0, d[i].1))
    decreases |d|
  {
    if d == [] then []
    else
      var front: Dict<V> := d[..|d| - 1];
      MapValues(front, f) + [(d[|d| - 1].0, f(d[|d| - 1].0, d[|d| - 1].1))]
  }

  /** One more entry mapped: it is appended, and its key is new. */
  lemma MapValuesStep<V, W>(d: Dict<V>, i: nat, f: (string, V) -> W)
    requires i < |d|
    ensures MapValues(d[..i + 1], f) == MapValues(d[..i], f) + [(d[i].0, f(d[i].0, d[i].1))]
    ensures d[i].0 !in Keys(MapValues(d[..i], f))
  {
    var front: Dict<V> := d[..i + 1];
    assert front[..|front| - 1] == d[..i];
    PrefixKeys(d, i);
  }

  /** Setting the only key of a one-entry object replaces its value. */
  lemma SetOnly<V>(k: string, w: V, v: V)
    ensures Set([(k, w)], k, v) == [(k, v)]
  {
    assert Find([(k, w)], k) == 0;
  }

  /** Setting a new key on a one-entry object appends it. */
  lemma SetSecond<V>(k1: string, v1: V, k2: string, v2: V)
    requires k1 != k2
    ensures Set([(k1, v1)], k2, v2) == [(k1, v1), (k2, v2)]
  {
    assert Keys([(k1, v1)]) == [k1];
  }

  /** An update two levels down in a one-place object replaces that place's value. */
  lemma SetInOnly<V>(g: string, s: string, w: V, v: V)
    ensures SetIn([(g, [(s, w)])], g, s, v) == [(g, [(s, v)])]
  {
    var inner: Dict<V> := [(s, w)];
    assert Find([(g, inner)], g) == 0;
    assert Get([(g, inner)], g) == Some(inner);
    SetOnly(s, w, v);
    SetOnly(g, inner, [(s, v)]);
  }

  /** `d[g]?.[s]`: a lookup two levels down. */
  function GetIn<V>(d: Dict<Dict<V>>, g: string, s: string): Option<V> {
    match Get(d, g)
    case None => None
    case Some(inner) => Get(inner, s)
  }

  /** `{...d, [g]: {...d[g], [s]: v}}`: an update two levels down that leaves every other pair alone. */
  function SetIn<V>(d: Dict<Dict<V>>, g: string, s: string, v: V): (r: Dict<Dict<V>>)
    ensures GetIn(r, g, s) == Some(v)
    ensures forall g', s' :: g' != g || s' != s ==> GetIn(r, g', s') == GetIn(d, g', s')
  {
    Set(d, g, Set(Get(d, g).GetOr([]), s, v))
  }
}
