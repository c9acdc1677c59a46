/** The string operations the response generator relies on: Python's
    `str.lower()`, the substring test `k in s`, and `str.strip()`. */
module Text {

  // ---------------------------------------------------------------- lower()

  /** Lower-cases one character (ASCII letters only; see README). */
  function LowerChar(c: char): char {
    if 'A' <= c <= 'Z' then (c as int - 'A' as int + 'a' as int) as char else c
  }

  /** `s.lower()`: every character lower-cased, none added or removed. */
  function Lower(s: string): (r: string)
    ensures |r| == |s|
    ensures forall i :: 0 <= i < |s| ==> r[i] == LowerChar(s[i])
  {
    if s == [] then [] else [LowerChar(s[0])] + Lower(s[1..])
  }

  lemma {:induction false} LowerIdempotent(s: string)
    ensures Lower(Lower(s)) == Lower(s)
  {
    var l := Lower(s);
    assert forall i :: 0 <= i < |s| ==> Lower(l)[i] == l[i];
  }

  lemma {:induction false} LowerSlice(s: string, i: int, j: int)
    requires 0 <= i <= j <= |s|
    ensures Lower(s[i..j]) == Lower(s)[i..j]
  {
    assert forall k :: 0 <= k < j - i ==> Lower(s[i..j])[k] == Lower(s)[i..j][k];
  }

  // ------------------------------------------------------------- k in s

  /** `k` occurs in `s` starting at index `i`. */
  predicate OccursAt(k: string, s: string, i: int) {
    0 <= i <= |s| - |k| && s[i..i + |k|] == k
  }

  /** Python's `k in s` for strings: `k` is a contiguous part of `s`
      (the empty string is part of every string). */
  function Occurs(k: string, s: string): bool
    decreases |s|
  {
    k <= s || (s != [] && Occurs(k, s[1..]))
  }

  /** An occurrence at 0 is a prefix. */
  lemma OccursAtStart(k: string, s: string)
    ensures OccursAt(k, s, 0) <==> k <= s
  {
  }

  /** Occurrences in `s[1..]` are the occurrences in `s` shifted by one. */
  lemma OccursShift(k: string, s: string, i: int)
    requires s != [] && 1 <= i
    ensures OccursAt(k, s, i) <==> OccursAt(k, s[1..], i - 1)
  {
    if 0 <= i - 1 <= |s| - 1 - |k| {
      assert s[1..][i - 1..i - 1 + |k|] == s[i..i + |k|];
    }
  }

  lemma {:induction false} OccursIff(k: string, s: string)
    ensures Occurs(k, s) <==> exists i :: OccursAt(k, s, i)
    decreases |s|
  {
    OccursAtStart(k, s);
    if k <= s {
      assert OccursAt(k, s, 0);
    } else if s == [] {
      assert |k| > 0;
    } else {
      OccursIff(k, s[1..]);
      if Occurs(k, s[1..]) {
        var i :| OccursAt(k, s[1..], i);
        OccursShift(k, s, i + 1);
      }
      if i :| OccursAt(k, s, i) {
        OccursShift(k, s, i);
      }
    }
  }

  /** Lower-casing both sides keeps an occurrence: a keyword written in
      any mix of cases is still found by a lower-cased search. */
  lemma LowerKeepsOccurrence(k: string, s: string)
    requires Occurs(k, s)
    ensures Occurs(Lower(k), Lower(s))
  {
    OccursIff(k, s);
    var i :| OccursAt(k, s, i);
    var lk, ls := Lower(k), Lower(s);
    LowerSlice(s, i, i + |k|);
    assert s[i..i + |k|] == k;
    assert ls[i..i + |lk|] == lk;
    assert OccursAt(lk, ls, i);
    OccursIff(lk, ls);
  }

  /** `any(k in s for k in ks)`. */
  function AnyOccurs(ks: seq<string>, s: string): bool {
    if ks == [] then false else Occurs(ks[0], s) || AnyOccurs(ks[1..], s)
  }

  lemma {:induction false} AnyOccursIff(ks: seq<string>, s: string)
    ensures AnyOccurs(ks, s) <==> exists i :: 0 <= i < |ks| && Occurs(ks[i], s)
  {
    if ks != [] {
      AnyOccursIff(ks[1..], s);
      if i :| 1 <= i < |ks| && Occurs(ks[i], s) {
        assert ks[1..][i - 1] == ks[i];
      }
      if i :| 0 <= i < |ks[1..]| && Occurs(ks[1..][i], s) {
        assert ks[i + 1] == ks[1..][i];
      }
    }
  }

  // --------------------------------------------------------------- strip()

  /** Python's `str.isspace()` for one character. */
  predicate IsSpace(c: char) {
    c == ' ' || '\t' <= c <= '\r' || '\U{1C}' <= c <= '\U{1F}'
    || c == '\U{85}' || c == '\U{A0}' || c == '\U{1680}'
    || '\U{2000}' <= c <= '\U{200A}' || c == '\U{2028}' || c == '\U{2029}'
    || c == '\U{202F}' || c == '\U{205F}' || c == '\U{3000}'
  }

  /** `s.lstrip()`: drops the leading whitespace and nothing else. */
  function TrimStart(s: string): (r: string)
    ensures |r| <= |s| && r == s[|s| - |r|..]
    ensures forall i :: 0 <= i < |s| - |r| ==> IsSpace(s[i])
    ensures r != [] ==> !IsSpace(r[0])
  {
    if s != [] && IsSpace(s[0]) then TrimStart(s[1..]) else s
  }

  /** `s.rstrip()`: drops the trailing whitespace and nothing else. */
  function TrimEnd(s: string): (r: string)
    ensures |r| <= |s| && r == s[..|r|]
    ensures forall i :: |r| <= i < |s| ==> IsSpace(s[i])
    ensures r != [] ==> !IsSpace(r[|r| - 1])
  {
    if s != [] && IsSpace(s[|s| - 1]) then TrimEnd(s[..|s| - 1]) else s
  }

  /** `r` is `s` with the whitespace before index `lo` and after `r` removed. */
  predicate TrimmedAt(s: string, r: string, lo: int) {
    0 <= lo <= |s| - |r| && r == s[lo..lo + |r|]
    && (forall i :: 0 <= i < lo ==> IsSpace(s[i]))
    && (forall i :: lo + |r| <= i < |s| ==> IsSpace(s[i]))
  }

  /** `s.strip()`: the part of `s` that remains once whitespace is removed
      from both ends; it neither starts nor ends with whitespace. */
  function Strip(s: string): (r: string)
    ensures exists lo :: TrimmedAt(s, r, lo)
    ensures r != [] ==> !IsSpace(r[0]) && !IsSpace(r[|r| - 1])
  {
    var t := TrimStart(s);
    var r := TrimEnd(t);
    TrimBoth(s, t, r);
    r
  }

  lemma TrimBoth(s: string, t: string, r: string)
    requires |t| <= |s| && t == s[|s| - |t|..]
    requires forall i :: 0 <= i < |s| - |t| ==> IsSpace(s[i])
    requires |r| <= |t| && r == t[..|r|]
    requires forall i :: |r| <= i < |t| ==> IsSpace(t[i])
    ensures TrimmedAt(s, r, |s| - |t|)
  {
    var lo := |s| - |t|;
    assert t[..|r|] == s[lo..lo + |r|];
    forall i | lo + |r| <= i < |s| ensures IsSpace(s[i]) {
      assert s[i] == t[i - lo];
    }
  }

  lemma StripIdempotent(s: string)
    ensures Strip(Strip(s)) == Strip(s)
  {
    var r := Strip(s);
    var lo :| TrimmedAt(r, Strip(r), lo);
    if r != [] {
      assert lo == 0;
      assert |Strip(r)| == |r|;
    }
  }
}
