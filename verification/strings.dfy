/** The few Python `str` and slice operations the indexer relies on, defined
    with Python's semantics: `s[1:]`, `s[:k] == p`, `s.split(d)`, `s.find(sub)`
    and `xs[:n]` (including a negative `n`). */
module Strings {
  import opened Wrappers
  import opened Numbers

  /** `s[1:]`: everything after the first character; an empty string stays empty. */
  function DropFirst(s: string): (r: string)
    ensures |s| == 0 ==> r == ""
    ensures |s| > 0 ==> [s[0]] + r == s
  {
    if |s| == 0 then "" else s[1..]
  }

  /** `s[:|p|] == p`. A slice shorter than `p` never equals `p`, so this is exactly "p is a prefix of s". */
  predicate StartsWith(s: string, p: string)
  {
    |p| <= |s| && s[..|p|] == p
  }

  /** `s.endswith(p)`. */
  predicate EndsWith(s: string, p: string)
  {
    |p| <= |s| && s[|s| - |p|..] == p
  }

  /** The text of `s` before the first `d` (all of `s` when there is none). */
  function TakeUntil(s: string, d: char): (r: string)
    ensures d !in r
    ensures r <= s
    ensures |r| < |s| ==> s[|r|] == d
    decreases |s|
  {
    if |s| == 0 || s[0] == d then "" else [s[0]] + TakeUntil(s[1..], d)
  }

  /** `s.split(d)` for a one-character separator: the pieces between separators,
      including empty ones; `"".split(d) == [""]`. */
  function Split(s: string, d: char): (r: seq<string>)
    ensures |r| >= 1
    ensures forall i :: 0 <= i < |r| ==> d !in r[i]
    decreases |s|
  {
    if |s| == 0 then [""]
    else
      var rest := Split(s[1..], d);
      if s[0] == d then [""] + rest
      else [[s[0]] + rest[0]] + rest[1..]
  }

  /** `d.join(parts)`, the inverse of `Split`. */
  function Join(parts: seq<string>, d: char): string
    requires |parts| >= 1
    decreases |parts|
  {
    if |parts| == 1 then parts[0] else parts[0] + [d] + Join(parts[1..], d)
  }

  /** Splitting and joining again gives back the original string. */
  lemma {:induction false} SplitJoin(s: string, d: char)
    ensures Join(Split(s, d), d) == s
    decreases |s|
  {
    if |s| > 0 {
      var rest := Split(s[1..], d);
      SplitJoin(s[1..], d);
      if s[0] == d {
        assert Split(s, d) == [""] + rest;
        assert ([""] + rest)[1..] == rest;
        assert [s[0]] + s[1..] == s;
      } else {
        var r := [[s[0]] + rest[0]] + rest[1..];
        assert Split(s, d) == r;
        if |rest| == 1 {
          assert Join(rest, d) == rest[0];
          assert [s[0]] + s[1..] == s;
        } else {
          assert r[1..] == rest[1..];
          assert Join(rest, d) == rest[0] + [d] + Join(rest[1..], d);
          assert Join(r, d) == [s[0]] + rest[0] + [d] + Join(rest[1..], d);
          assert [s[0]] + s[1..] == s;
        }
      }
    }
  }

  /** A piece without separators followed by a separator is split off whole. */
  lemma {:induction false} SplitSegment(w: string, rest: string, d: char)
    requires d !in w
    ensures Split(w + [d] + rest, d) == [w] + Split(rest, d)
    decreases |w|
  {
    var s := w + [d] + rest;
    if |w| == 0 {
      assert s == [d] + rest;
      assert s[1..] == rest;
    } else {
      assert s[1..] == w[1..] + [d] + rest;
      SplitSegment(w[1..], rest, d);
      assert [w[0]] + w[1..] == w;
    }
  }

  /** A string without separators splits into itself. */
  lemma {:induction false} SplitWhole(w: string, d: char)
    requires d !in w
    ensures Split(w, d) == [w]
    decreases |w|
  {
    if |w| > 0 {
      SplitWhole(w[1..], d);
      assert [w[0]] + w[1..] == w;
    }
  }

  /** Joining separator-free pieces and splitting again gives back the pieces. */
  lemma {:induction false} JoinSplit(parts: seq<string>, d: char)
    requires |parts| >= 1
    requires forall i :: 0 <= i < |parts| ==> d !in parts[i]
    ensures Split(Join(parts, d), d) == parts
    decreases |parts|
  {
    if |parts| == 1 {
      SplitWhole(parts[0], d);
    } else {
      assert d !in parts[0];
      JoinSplit(parts[1..], d);
      SplitSegment(parts[0], Join(parts[1..], d), d);
      assert [parts[0]] + parts[1..] == parts;
    }
  }

  /** The first piece of a split is the text before the first separator. */
  lemma {:induction false} SplitHead(s: string, d: char)
    ensures Split(s, d)[0] == TakeUntil(s, d)
    decreases |s|
  {
    if |s| > 0 && s[0] != d {
      SplitHead(s[1..], d);
    }
  }

  /** A string without separators is taken whole. */
  lemma {:induction false} TakeUntilWhole(w: string, d: char)
    requires d !in w
    ensures TakeUntil(w, d) == w
    decreases |w|
  {
    if |w| > 0 {
      TakeUntilWhole(w[1..], d);
      assert [w[0]] + w[1..] == w;
    }
  }

  /** `TakeUntil` stops at the first separator. */
  lemma {:induction false} TakeUntilSegment(w: string, rest: string, d: char)
    requires d !in w
    ensures TakeUntil(w + [d] + rest, d) == w
    decreases |w|
  {
    if |w| > 0 {
      assert (w + [d] + rest)[1..] == w[1..] + [d] + rest;
      TakeUntilSegment(w[1..], rest, d);
      assert [w[0]] + w[1..] == w;
    }
  }

  /** `sub` occurs in `s` starting at index `i`. */
  predicate OccursAt(s: string, sub: string, i: int)
  {
    0 <= i && i + |sub| <= |s| && s[i..i + |sub|] == sub
  }

  /** `s.find(sub, i)`: the lowest index `>= i` where `sub` occurs, or -1. */
  function FindFrom(s: string, sub: string, i: nat): (r: int)
    requires i <= |s|
    ensures r == -1 || (i <= r && OccursAt(s, sub, r))
    ensures forall j :: i <= j < (if r == -1 then |s| + 1 else r) ==> !OccursAt(s, sub, j)
    decreases |s| - i
  {
    if OccursAt(s, sub, i) then i
    else if i == |s| then -1
    else FindFrom(s, sub, i + 1)
  }

  /** `s.find(sub)`: the lowest index where `sub` occurs, or -1 when it does not occur at all. */
  function Find(s: string, sub: string): (r: int)
    ensures r == -1 <==> forall j :: !OccursAt(s, sub, j)
    ensures r != -1 ==> OccursAt(s, sub, r) && forall j :: 0 <= j < r ==> !OccursAt(s, sub, j)
  {
    FindFrom(s, sub, 0)
  }

  /** `xs[:n]` for any integer `n`: a negative `n` counts from the end. */
  function SlicePrefix<T>(xs: seq<T>, n: int): (r: seq<T>)
    ensures r <= xs
    ensures n >= 0 ==> |r| == Min(n, |xs|)
    ensures n < 0 ==> |r| == Max(0, |xs| + n)
  {
    if n >= 0 then (if n <= |xs| then xs[..n] else xs)
    else if |xs| + n >= 0 then xs[..|xs| + n]
    else []
  }

  /** Python's prefix test `s[:len(p)] == p` is `StartsWith`: the slice is cut
      short when `s` is shorter than `p`, and a shorter slice never equals `p`. */
  lemma PrefixSliceTest(s: string, p: string)
    ensures SlicePrefix(s, |p|) == p <==> StartsWith(s, p)
  {
    if |p| > |s| {
      assert |SlicePrefix(s, |p|)| == |s| < |p|;
    }
  }
}
