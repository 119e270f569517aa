/** Text operations used by the resolver, the scenario loader and the driver loop. */
module Strings {

  predicate IsPrefix(p: string, s: string) {
    |p| <= |s| && s[..|p|] == p
  }

  /** `pat` occurs in `s` starting at position `i`. */
  predicate OccursAt(pat: string, s: string, i: int) {
    0 <= i && i + |pat| <= |s| && s[i..i + |pat|] == pat
  }

  predicate Occurs(pat: string, s: string) {
    exists i | 0 <= i <= |s| :: OccursAt(pat, s, i)
  }

  lemma OccursShift(pat: string, s: string)
    requires |s| > 0
    ensures forall i :: 1 <= i ==> (OccursAt(pat, s, i) <==> OccursAt(pat, s[1..], i - 1))
    ensures Occurs(pat, s) <==> OccursAt(pat, s, 0) || Occurs(pat, s[1..])
  {
    forall i | 1 <= i ensures OccursAt(pat, s, i) <==> OccursAt(pat, s[1..], i - 1) {
      if i + |pat| <= |s| {
        assert s[1..][i - 1..i - 1 + |pat|] == s[i..i + |pat|];
      }
    }
    if Occurs(pat, s[1..]) {
      var i :| 0 <= i <= |s[1..]| && OccursAt(pat, s[1..], i);
      assert OccursAt(pat, s, i + 1);
    }
  }

  /** Position of the first string equal to `k`, or -1. */
  function FirstIndex(xs: seq<string>, k: string): (r: int)
    ensures -1 <= r < |xs|
    ensures r >= 0 ==> xs[r] == k
    ensures forall j :: 0 <= j < |xs| && (r < 0 || j < r) ==> xs[j] != k
  {
    if |xs| == 0 then -1
    else if xs[0] == k then 0
    else
      var r := FirstIndex(xs[1..], k);
      if r < 0 then -1 else r + 1
  }

  /**
   * Position of the first occurrence of `pat` in `s`, or -1 where
   * `std::string::find` answers `npos`.
   */
  function Find(s: string, pat: string): (r: int)
    ensures r == -1 || OccursAt(pat, s, r)
    ensures r == -1 <==> !Occurs(pat, s)
    ensures forall j :: 0 <= j < r ==> !OccursAt(pat, s, j)
    decreases |s|
  {
    if |s| < |pat| then -1
    else if s[..|pat|] == pat then (assert OccursAt(pat, s, 0); 0)
    else
      OccursShift(pat, s);
      assert !OccursAt(pat, s, 0);
      var r := Find(s[1..], pat);
      if r < 0 then -1 else r + 1
  }

  /**
   * Replaces every occurrence of `pat`, scanning left to right and resuming
   * after each replaced occurrence: `std::regex_replace` with a pattern that
   * holds no regular-expression operator.
   */
  function ReplaceAll(s: string, pat: string, rep: string): string
    requires |pat| > 0
    decreases |s|
  {
    if |s| < |pat| then s
    else if s[..|pat|] == pat then rep + ReplaceAll(s[|pat|..], pat, rep)
    else [s[0]] + ReplaceAll(s[1..], pat, rep)
  }

  /** A text that does not contain the pattern is left as it is. */
  lemma {:induction false} ReplaceAllWithoutOccurrence(s: string, pat: string, rep: string)
    requires |pat| > 0 && !Occurs(pat, s)
    ensures ReplaceAll(s, pat, rep) == s
  {
    if |s| >= |pat| {
      assert !OccursAt(pat, s, 0);
      OccursShift(pat, s);
      ReplaceAllWithoutOccurrence(s[1..], pat, rep);
    }
  }

  /** A leading occurrence followed by a rest free of the pattern becomes `rep + rest`. */
  lemma ReplaceLeadingOccurrence(pat: string, rest: string, rep: string)
    requires |pat| > 0 && !Occurs(pat, rest)
    ensures ReplaceAll(pat + rest, pat, rep) == rep + rest
  {
    var s := pat + rest;
    assert s[..|pat|] == pat && s[|pat|..] == rest;
    ReplaceAllWithoutOccurrence(rest, pat, rep);
  }

  /** Position of the last `c` in `s`, or -1. */
  function LastIndexOf(s: string, c: char): (r: int)
    ensures -1 <= r < |s|
    ensures r >= 0 ==> s[r] == c
    ensures forall j :: r < j < |s| ==> s[j] != c
  {
    if |s| == 0 then -1
    else if s[|s| - 1] == c then |s| - 1
    else LastIndexOf(s[..|s| - 1], c)
  }

  /** `s` with every `c` erased, the other characters kept in order (erase-remove). */
  function RemoveAll(s: string, c: char): (r: string)
    ensures c !in r
    ensures |r| <= |s|
    ensures c !in s ==> r == s
    ensures forall d :: d != c ==> multiset(r)[d] == multiset(s)[d]
  {
    if |s| == 0 then ""
    else if s[0] == c then
      assert multiset(s) == multiset{s[0]} + multiset(s[1..]) by { assert s == [s[0]] + s[1..]; }
      RemoveAll(s[1..], c)
    else
      assert multiset(s) == multiset{s[0]} + multiset(s[1..]) by { assert s == [s[0]] + s[1..]; }
      [s[0]] + RemoveAll(s[1..], c)
  }

  /** Erasing distributes over concatenation: the kept characters stay in their order. */
  lemma {:induction false} RemoveAllAppend(a: string, b: string, c: char)
    ensures RemoveAll(a + b, c) == RemoveAll(a, c) + RemoveAll(b, c)
  {
    if |a| == 0 {
      assert a + b == b;
    } else {
      assert (a + b)[0] == a[0];
      assert (a + b)[1..] == a[1..] + b;
      RemoveAllAppend(a[1..], b, c);
    }
  }
}
