/**
 * The `java.lang.String` operations the key and path logic relies on
 * (`startsWith`, `endsWith`, `indexOf`, `lastIndexOf`), and the splitting of a
 * `/`-separated path into segments the way a Hadoop `Path` normalises it
 * (empty segments from doubled, leading or trailing separators disappear).
 */
module Strings {

  predicate StartsWith(s: string, prefix: string) {
    |prefix| <= |s| && s[..|prefix|] == prefix
  }

  /** Extending a string keeps its prefixes. */
  lemma StartsWithAppend(s: string, t: string, prefix: string)
    requires StartsWith(s, prefix)
    ensures StartsWith(s + t, prefix)
  {
    assert (s + t)[..|prefix|] == s[..|prefix|];
  }

  /** A string that differs from `prefix` at one of its positions does not start with it. */
  lemma NotStartsWith(s: string, prefix: string, i: int)
    requires 0 <= i < |prefix| && i < |s| && s[i] != prefix[i]
    ensures !StartsWith(s, prefix)
  {
    if |prefix| <= |s| {
      assert s[..|prefix|][i] == s[i];
    }
  }

  predicate EndsWith(s: string, suffix: string) {
    |suffix| <= |s| && s[|s| - |suffix|..] == suffix
  }

  /** `pat` occurs in `s` starting at index `k`. */
  predicate OccursAt(s: string, pat: string, k: int) {
    0 <= k && k + |pat| <= |s| && s[k..k + |pat|] == pat
  }

  /** `pat` occurs nowhere in `s`. */
  predicate Absent(s: string, pat: string) {
    forall k :: 0 <= k <= |s| ==> !OccursAt(s, pat, k)
  }

  /** `String.indexOf(String)`: the first index at which `pat` occurs, or -1. */
  function IndexOf(s: string, pat: string): (r: int)
    ensures r == -1 || OccursAt(s, pat, r)
    ensures forall k :: 0 <= k && (r == -1 || k < r) ==> !OccursAt(s, pat, k)
    decreases |s|
  {
    if |s| < |pat| then -1
    else if s[..|pat|] == pat then 0
    else
      var k := IndexOf(s[1..], pat);
      ShiftOccurrence(s, pat);
      if k < 0 then -1 else k + 1
  }

  /** An occurrence at `k > 0` in `s` is an occurrence at `k - 1` in `s[1..]`. */
  lemma ShiftOccurrence(s: string, pat: string)
    requires |s| > 0
    ensures forall k :: 1 <= k ==> (OccursAt(s, pat, k) <==> OccursAt(s[1..], pat, k - 1))
  {
    forall k | 1 <= k
      ensures OccursAt(s, pat, k) <==> OccursAt(s[1..], pat, k - 1)
    {
      if k + |pat| <= |s| {
        var t := s[1..];
        var u, v := s[k..k + |pat|], t[k - 1..k - 1 + |pat|];
        assert forall i :: 0 <= i < |pat| ==> u[i] == v[i];
        assert u == v;
      }
    }
  }

  /** An occurrence wholly inside `a` is an occurrence in `a + b`, and conversely. */
  lemma OccursInFront(a: string, b: string, pat: string, k: int)
    requires 0 <= k && k + |pat| <= |a|
    ensures OccursAt(a + b, pat, k) == OccursAt(a, pat, k)
  {
    assert (a + b)[k..k + |pat|] == a[k..k + |pat|];
  }

  /** An occurrence wholly inside `b` is an occurrence in `a + b`, and conversely. */
  lemma OccursInBack(a: string, b: string, pat: string, k: int)
    requires |a| <= k
    ensures OccursAt(a + b, pat, k) == OccursAt(b, pat, k - |a|)
  {
    if k + |pat| <= |a| + |b| {
      assert (a + b)[k..k + |pat|] == b[k - |a|..k - |a| + |pat|];
    }
  }

  /** An occurrence straddling the seam would put `b[0]` inside `pat` past its head. */
  lemma OccursAcrossSeam(a: string, b: string, pat: string, k: int)
    requires 0 <= k < |a| < k + |pat| && |b| > 0
    ensures OccursAt(a + b, pat, k) ==> b[0] == pat[|a| - k]
  {
    if k + |pat| <= |a| + |b| {
      assert (a + b)[k..k + |pat|][|a| - k] == b[0];
    }
  }

  /**
   * The first occurrence in `a + b` is at the seam when `a` holds none and
   * `b` starts with `pat`, provided the first character of `pat` does not
   * recur in it (so no occurrence can straddle the seam).
   */
  lemma IndexOfAtSeam(a: string, b: string, pat: string)
    requires |pat| > 0 && forall j :: 1 <= j < |pat| ==> pat[j] != pat[0]
    requires IndexOf(a, pat) == -1 && StartsWith(b, pat)
    ensures IndexOf(a + b, pat) == |a|
  {
    var s := a + b;
    OccursInBack(a, b, pat, |a|);
    assert OccursAt(b, pat, 0);
    forall k | 0 <= k < |a|
      ensures !OccursAt(s, pat, k)
    {
      if k + |pat| <= |a| {
        OccursInFront(a, b, pat, k);
      } else {
        OccursAcrossSeam(a, b, pat, k);
      }
    }
  }

  /**
   * Neither half holds `pat`, and `b` starts with a character that occurs in
   * `pat` only at its head: the whole holds no `pat`.
   */
  lemma IndexOfMissingAppend(a: string, b: string, pat: string)
    requires |pat| > 0 && |b| > 0 && b[0] !in pat[1..]
    requires IndexOf(a, pat) == -1 && IndexOf(b, pat) == -1
    ensures IndexOf(a + b, pat) == -1
  {
    var s := a + b;
    forall k | 0 <= k
      ensures !OccursAt(s, pat, k)
    {
      if k + |pat| <= |a| {
        OccursInFront(a, b, pat, k);
      } else if |a| <= k {
        OccursInBack(a, b, pat, k);
      } else {
        OccursAcrossSeam(a, b, pat, k);
        assert pat[1..][|a| - k - 1] == pat[|a| - k];
      }
    }
  }

  /** A string lacking one of the characters of `pat` holds no `pat`. */
  lemma IndexOfMissingChar(s: string, pat: string, j: int)
    requires 0 <= j < |pat| && pat[j] !in s
    ensures IndexOf(s, pat) == -1
  {
    forall k | 0 <= k <= |s|
      ensures !OccursAt(s, pat, k)
    {
      if k + |pat| <= |s| {
        assert s[k..k + |pat|][j] == s[k + j];
        assert s[k + j] in s;
      }
    }
  }

  /** The first index holding `c`, or -1: `String.indexOf(char)` on a string, and the first match of a segment in a path. */
  function FirstIndex<T(==)>(s: seq<T>, c: T): (r: int)
    ensures -1 <= r < |s|
    ensures r >= 0 ==> s[r] == c
    ensures forall j :: 0 <= j < |s| && (r < 0 || j < r) ==> s[j] != c
    decreases |s|
  {
    if |s| == 0 then -1
    else if s[0] == c then 0
    else
      var k := FirstIndex(s[1..], c);
      if k < 0 then -1 else k + 1
  }

  /** `String.lastIndexOf(char)`: the last index holding `c`, or -1. */
  function LastIndexOfChar(s: string, c: char): (r: int)
    ensures -1 <= r < |s|
    ensures r >= 0 ==> s[r] == c
    ensures forall j :: r < j < |s| ==> s[j] != c
    decreases |s|
  {
    if |s| == 0 then -1
    else if s[|s| - 1] == c then |s| - 1
    else LastIndexOfChar(s[..|s| - 1], c)
  }

  /** The first `c` in `a + [c] + b` is the one right after `a` when `a` holds none. */
  lemma IndexOfCharAfter(a: string, c: char, b: string)
    requires c !in a
    ensures FirstIndex(a + [c] + b, c) == |a|
  {
    var s := a + [c] + b;
    assert s[|a|] == c;
    assert forall j :: 0 <= j < |a| ==> s[j] == a[j];
  }

  /** The last `c` in `a + [c] + b` is the one right after `a` when `b` holds none. */
  lemma LastIndexOfCharBefore(a: string, c: char, b: string)
    requires c !in b
    ensures LastIndexOfChar(a + [c] + b, c) == |a|
  {
    var s := a + [c] + b;
    var r := LastIndexOfChar(s, c);
    assert s[|a|] == c;
  }

  /** `c` does not occur in `s`: the first search comes back empty. */
  lemma IndexOfCharMissing(s: string, c: char)
    requires c !in s
    ensures FirstIndex(s, c) == -1
  {
    assert forall j :: 0 <= j < |s| ==> s[j] in s;
  }

  // ---------------------------------------------------------------------------
  // Path segments

  /** A segment of a normalised path: non-empty and free of separators. */
  predicate IsSegment(seg: string) {
    seg != "" && '/' !in seg
  }

  predicate AllSegments(segs: seq<string>) {
    forall i :: 0 <= i < |segs| ==> IsSegment(segs[i])
  }

  /** A concatenation is a segment list exactly when both halves are. */
  lemma AllSegmentsAppend(xs: seq<string>, ys: seq<string>)
    ensures AllSegments(xs + ys) <==> AllSegments(xs) && AllSegments(ys)
  {
    var zs := xs + ys;
    assert forall i :: 0 <= i < |xs| ==> zs[i] == xs[i];
    assert forall i :: 0 <= i < |ys| ==> zs[|xs| + i] == ys[i];
  }

  /** The segments of a `/`-separated path, empty segments dropped. */
  function Split(s: string): (r: seq<string>)
    ensures AllSegments(r)
    decreases |s|
  {
    var i := FirstIndex(s, '/');
    if i < 0 then
      if s == "" then [] else [s]
    else
      (if i == 0 then [] else [s[..i]]) + Split(s[i + 1..])
  }

  /** The segments joined with single separators. */
  function Join(segs: seq<string>): string
  {
    if |segs| == 0 then ""
    else if |segs| == 1 then segs[0]
    else segs[0] + "/" + Join(segs[1..])
  }

  /** Splitting undoes joining: a segment list survives the round trip through its path. */
  lemma {:induction false} SplitJoin(segs: seq<string>)
    requires AllSegments(segs)
    ensures Split(Join(segs)) == segs
  {
    if |segs| == 1 {
      IndexOfCharMissing(segs[0], '/');
    } else if |segs| > 1 {
      SplitCons(segs[0], Join(segs[1..]));
      SplitJoin(segs[1..]);
      assert segs == [segs[0]] + segs[1..];
    }
  }

  /** A leading segment and a separator split off as the first segment. */
  lemma SplitCons(head: string, rest: string)
    requires IsSegment(head)
    ensures Split(head + "/" + rest) == [head] + Split(rest)
  {
    var s := head + "/" + rest;
    assert s == head + ['/'] + rest;
    IndexOfCharAfter(head, '/', rest);
    assert s[|head| + 1..] == rest;
    assert s[..|head|] == head;
  }

  /** A trailing separator adds no segment, as in a Hadoop `Path`. */
  lemma {:induction false} SplitTrailingSeparator(s: string)
    ensures Split(s + "/") == Split(s)
    decreases |s|
  {
    var i := FirstIndex(s, '/');
    if i < 0 {
      SplitLastSegment(s);
    } else {
      SplitFirstSegment(s, i);
      SplitTrailingSeparator(s[i + 1..]);
    }
  }

  /** A text without separators followed by one separator is a single segment, or none. */
  lemma SplitLastSegment(s: string)
    requires FirstIndex(s, '/') < 0
    ensures Split(s + "/") == Split(s)
  {
    var t := s + "/";
    assert s + ['/'] + "" == t;
    IndexOfCharAfter(s, '/', "");
    assert t[..|s|] == s;
    assert t[|s| + 1..] == "";
  }

  /** The first separator of `s` is the first of `s + "/"`, and splitting both goes on after it. */
  lemma SplitFirstSegment(s: string, i: int)
    requires 0 <= i && i == FirstIndex(s, '/')
    ensures Split(s + "/") == (if i == 0 then [] else [s[..i]]) + Split(s[i + 1..] + "/")
  {
    var t := s + "/";
    assert t[i] == '/';
    assert FirstIndex(t, '/') == i;
    assert t[..i] == s[..i];
    assert t[i + 1..] == s[i + 1..] + "/";
  }

  /** Joining two non-empty segment lists puts one separator between their paths. */
  lemma {:induction false} JoinAppend(xs: seq<string>, ys: seq<string>)
    requires |xs| > 0 && |ys| > 0
    ensures Join(xs + ys) == Join(xs) + "/" + Join(ys)
    decreases |xs|
  {
    if |xs| == 1 {
      assert (xs + ys)[1..] == ys;
    } else {
      assert (xs + ys)[1..] == xs[1..] + ys;
      JoinAppend(xs[1..], ys);
    }
  }

  /** Every segment of a joined path contributes its characters unchanged. */
  lemma {:induction false} JoinSeparatorFree(segs: seq<string>, c: char)
    requires c != '/'
    requires forall i :: 0 <= i < |segs| ==> c !in segs[i]
    ensures c !in Join(segs)
  {
    if |segs| > 1 {
      JoinSeparatorFree(segs[1..], c);
    }
  }
}
