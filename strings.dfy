/** The JavaScript string operations the pages use to build labels. */
module Strings {
  import opened Wrappers

  /** `s.startsWith(p)`. */
  predicate StartsWith(s: string, p: string) {
    |p| <= |s| && s[..|p|] == p
  }

  /** `p` occurs in `s` starting at position `i`. */
  predicate OccursAt(s: string, p: string, i: nat) {
    i + |p| <= |s| && s[i..i + |p|] == p
  }

  /** `s.indexOf(p)`, with `None` for -1. */
  function IndexOf(s: string, p: string): (r: Option<nat>)
    ensures r.Some? ==> OccursAt(s, p, r.value) && forall j :: 0 <= j < r.value ==> !OccursAt(s, p, j)
    ensures r.None? ==> forall j :: 0 <= j <= |s| ==> !OccursAt(s, p, j)
  {
    if StartsWith(s, p) then Some(0)
    else if s == [] then None
    else
      var r := IndexOf(s[1..], p);
      ShiftOccurs(s, p);
      if r.None? then None else Some(r.value + 1)
  }

  /** Past its first character, `s` has the occurrences of `s[1..]`, one position later. */
  lemma ShiftOccurs(s: string, p: string)
    requires s != [] && !StartsWith(s, p)
    ensures !OccursAt(s, p, 0)
    ensures forall j :: 1 <= j <= |s| ==> (OccursAt(s[1..], p, j - 1) <==> OccursAt(s, p, j))
  {
    if |p| <= |s| { assert s[0..|p|] == s[..|p|]; }
    forall j | 1 <= j <= |s| ensures OccursAt(s[1..], p, j - 1) <==> OccursAt(s, p, j) {
      if j + |p| <= |s| { assert s[1..][j - 1..j - 1 + |p|] == s[j..j + |p|]; }
    }
  }

  /** `s.includes(p)`. */
  predicate Contains(s: string, p: string) {
    IndexOf(s, p).Some?
  }

  /** A pattern holding a character that `s` lacks does not occur in `s`. */
  lemma AbsentCharNotContained(s: string, p: string, j: nat)
    requires j < |p| && forall i :: 0 <= i < |s| ==> s[i] != p[j]
    ensures !Contains(s, p)
  {
    forall k | 0 <= k <= |s| ensures !OccursAt(s, p, k) {
      if k + |p| <= |s| {
        assert s[k..k + |p|][j] == s[k + j];
      }
    }
  }

  /** `s.includes(c)` for a one-character pattern: the character occurs somewhere. */
  lemma ContainsChar(s: string, c: char)
    ensures Contains(s, [c]) <==> FirstChar(s, c) < |s|
  {
    var i := FirstChar(s, c);
    if i < |s| {
      assert s[i..i + 1] == [c];
      assert OccursAt(s, [c], i);
    } else {
      AbsentCharNotContained(s, [c], 0);
    }
  }

  /** `s.replace(p, r)` with a string pattern: only the first occurrence is replaced. */
  function ReplaceFirst(s: string, p: string, r: string): string {
    match IndexOf(s, p)
    case None => s
    case Some(i) => s[..i] + r + s[i + |p|..]
  }

  /** A string that starts with `p` loses exactly that prefix when `p` is replaced by "". */
  lemma ReplacePrefix(s: string, p: string)
    requires StartsWith(s, p)
    ensures ReplaceFirst(s, p, "") == s[|p|..]
  {
    assert OccursAt(s, p, 0);
  }

  /** The index of the first `c` in `s`, or `|s|` when there is none. */
  function FirstChar(s: string, c: char): (i: nat)
    ensures i <= |s|
    ensures i < |s| ==> s[i] == c
    ensures forall j :: 0 <= j < i ==> s[j] != c
  {
    if s == [] then 0 else if s[0] == c then 0 else 1 + FirstChar(s[1..], c)
  }

  /** A one-character pattern occurs exactly where that character is. */
  lemma OccursAtChar(s: string, c: char, j: nat)
    ensures OccursAt(s, [c], j) <==> j < |s| && s[j] == c
  {
    if j + 1 <= |s| { assert s[j..j + 1] == [s[j]]; }
  }

  /** `s.indexOf(c)` for a one-character pattern is the first position of that character. */
  lemma IndexOfChar(s: string, c: char)
    ensures IndexOf(s, [c]) == if FirstChar(s, c) < |s| then Some(FirstChar(s, c)) else None
  {
    var i := FirstChar(s, c);
    var k := IndexOf(s, [c]);
    if k.Some? {
      OccursAtChar(s, c, k.value);
      if i < k.value { OccursAtChar(s, c, i); }
    } else if i < |s| {
      OccursAtChar(s, c, i);
    }
  }

  /** Replacing a one-character pattern changes only the first occurrence of that character. */
  lemma ReplaceFirstChar(s: string, a: char, b: char)
    ensures ReplaceFirst(s, [a], [b]) == if FirstChar(s, a) < |s| then s[FirstChar(s, a) := b] else s
  {
    IndexOfChar(s, a);
    var i := FirstChar(s, a);
    if i < |s| {
      SpliceChar(s, i, b);
    }
  }

  /** Putting one character between the parts around position `i` is updating position `i`. */
  lemma SpliceChar(s: string, i: nat, b: char)
    requires i < |s|
    ensures s[..i] + [b] + s[i + 1..] == s[i := b]
  {
  }

  /** `c.toUpperCase()` for ASCII letters; every other character is left as it is. */
  function Upper(c: char): char {
    if 'a' <= c <= 'z' then (c as int - 'a' as int + 'A' as int) as char else c
  }

  /** `s.charAt(0).toUpperCase() + s.slice(1)`. */
  function Capitalize(s: string): (r: string)
    ensures |r| == |s|
    ensures s != [] ==> r[0] == Upper(s[0]) && r[1..] == s[1..]
  {
    if s == [] then [] else [Upper(s[0])] + s[1..]
  }

  /** `s.split(c)` for a one-character separator: never empty, separators dropped. */
  function Split(s: string, c: char): (parts: seq<string>)
    ensures |parts| >= 1
    decreases |s|
  {
    var i := FirstChar(s, c);
    if i == |s| then [s] else [s[..i]] + Split(s[i + 1..], c)
  }

  /** `parts.join(c)`. */
  function Join(parts: seq<string>, c: char): string
    requires |parts| >= 1
  {
    if |parts| == 1 then parts[0] else parts[0] + [c] + Join(parts[1..], c)
  }

  /** Splitting loses nothing: joining the parts gives the string back. */
  lemma {:induction false} SplitJoin(s: string, c: char)
    ensures Join(Split(s, c), c) == s
    decreases |s|
  {
    var i := FirstChar(s, c);
    if i < |s| {
      var rest := Split(s[i + 1..], c);
      SplitJoin(s[i + 1..], c);
      assert Split(s, c) == [s[..i]] + rest;
      assert Split(s, c)[1..] == rest;
      assert s == s[..i] + [c] + s[i + 1..];
    }
  }

  /** No part of a split holds the separator. */
  lemma {:induction false} SplitPartsClean(s: string, c: char)
    ensures forall k, j :: 0 <= k < |Split(s, c)| && 0 <= j < |Split(s, c)[k]| ==> Split(s, c)[k][j] != c
    decreases |s|
  {
    var i := FirstChar(s, c);
    if i < |s| {
      var rest := Split(s[i + 1..], c);
      SplitPartsClean(s[i + 1..], c);
      assert Split(s, c) == [s[..i]] + rest;
      forall k, j | 0 <= k < |Split(s, c)| && 0 <= j < |Split(s, c)[k]| ensures Split(s, c)[k][j] != c {
        if k > 0 { assert Split(s, c)[k] == rest[k - 1]; }
      }
    }
  }

  /** The decimal digits of `n`, as `String(n)` writes them. */
  function NatToString(n: nat): string
    decreases n
  {
    var d := ['0', '1', '2', '3', '4', '5', '6', '7', '8', '9'][n % 10];
    if n < 10 then [d] else NatToString(n / 10) + [d]
  }

  /** The value of a decimal digit. */
  function DigitValue(c: char): nat {
    if '0' <= c <= '9' then c as int - '0' as int else 0
  }

  /** The number a string of decimal digits denotes, read left to right. */
  function DecimalValue(s: string): nat {
    if s == [] then 0 else DecimalValue(s[..|s| - 1]) * 10 + DigitValue(s[|s| - 1])
  }

  /** `String(n)` is a non-empty run of decimal digits that reads back as `n`. */
  lemma {:induction false} NatToStringRoundTrip(n: nat)
    ensures NatToString(n) != []
    ensures forall i :: 0 <= i < |NatToString(n)| ==> '0' <= NatToString(n)[i] <= '9'
    ensures DecimalValue(NatToString(n)) == n
    decreases n
  {
    var digits := ['0', '1', '2', '3', '4', '5', '6', '7', '8', '9'];
    var d := digits[n % 10];
    assert DigitValue(d) == n % 10;
    if n >= 10 {
      NatToStringRoundTrip(n / 10);
      var s := NatToString(n);
      assert s == NatToString(n / 10) + [d];
      assert s[..|s| - 1] == NatToString(n / 10);
    }
  }
}
