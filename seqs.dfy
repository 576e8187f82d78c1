/** The JavaScript array operations the application relies on: `filter` and `slice`. */
module Seqs {

  /** `xs` is obtained from `ys` by deleting elements, keeping the order of the rest. */
  ghost predicate IsSubsequence<T>(xs: seq<T>, ys: seq<T>)
    decreases |ys|
  {
    if xs == [] then true
    else if ys == [] then false
    else if xs[0] == ys[0] then IsSubsequence(xs[1..], ys[1..])
    else IsSubsequence(xs, ys[1..])
  }

  /** `Array.prototype.filter`: the elements of `s` that satisfy `p`, in their original order. */
  function Filter<T>(s: seq<T>, p: T -> bool): (r: seq<T>)
    ensures |r| <= |s|
    ensures forall i :: 0 <= i < |r| ==> p(r[i]) && r[i] in s
    ensures forall i :: 0 <= i < |s| && p(s[i]) ==> s[i] in r
  {
    if s == [] then []
    else if p(s[0]) then [s[0]] + Filter(s[1..], p)
    else Filter(s[1..], p)
  }

  /** An element is in the filtered sequence exactly when it is in `s` and satisfies `p`. */
  lemma {:induction false} FilterMembers<T>(s: seq<T>, p: T -> bool)
    ensures forall x :: x in Filter(s, p) <==> x in s && p(x)
  {
    if s != [] {
      FilterMembers(s[1..], p);
      assert s == [s[0]] + s[1..];
    }
  }

  /** Filtering keeps every copy of an element that satisfies `p` and no copy of any other. */
  lemma {:induction false} FilterCounts<T>(s: seq<T>, p: T -> bool)
    ensures forall x :: multiset(Filter(s, p))[x] == if p(x) then multiset(s)[x] else 0
  {
    if s != [] {
      FilterCounts(s[1..], p);
      assert s == [s[0]] + s[1..];
    }
  }

  lemma {:induction false} FilterIsSubsequence<T>(s: seq<T>, p: T -> bool)
    ensures IsSubsequence(Filter(s, p), s)
  {
    if s != [] {
      FilterIsSubsequence(s[1..], p);
      var r := Filter(s, p);
      if p(s[0]) {
        assert r[0] == s[0] && r[1..] == Filter(s[1..], p);
      } else if r != [] {
        SkipHead(r, s);
      }
    }
  }

  /** A subsequence of the tail is a subsequence of the whole. */
  lemma {:induction false} SkipHead<T>(xs: seq<T>, ys: seq<T>)
    requires ys != [] && IsSubsequence(xs, ys[1..])
    ensures IsSubsequence(xs, ys)
  {
    if xs != [] && xs[0] == ys[0] {
      if |ys| > 1 {
        assert xs[1..] != [] ==> ys[1..] != [];
        SubsequenceOfTail(xs, ys[1..]);
      } else {
        assert false;
      }
    }
  }

  /** Dropping the head of a non-empty subsequence keeps it a subsequence. */
  lemma {:induction false} SubsequenceOfTail<T>(xs: seq<T>, ys: seq<T>)
    requires xs != [] && IsSubsequence(xs, ys)
    ensures IsSubsequence(xs[1..], ys)
  {
    if xs[0] == ys[0] {
      assert IsSubsequence(xs[1..], ys[1..]);
      if ys[1..] != [] {
        SkipHead(xs[1..], ys);
      } else {
        assert xs[1..] == [];
      }
    } else {
      SubsequenceOfTail(xs, ys[1..]);
      SkipHead(xs[1..], ys);
    }
  }

  /** Filtering a second time with the same predicate changes nothing. */
  lemma {:induction false} FilterIdempotent<T>(s: seq<T>, p: T -> bool)
    ensures Filter(Filter(s, p), p) == Filter(s, p)
  {
    FilterKeepsAll(Filter(s, p), p);
  }

  /** A predicate that every element satisfies filters nothing out. */
  lemma {:induction false} FilterKeepsAll<T>(s: seq<T>, p: T -> bool)
    requires forall i :: 0 <= i < |s| ==> p(s[i])
    ensures Filter(s, p) == s
  {
    if s != [] {
      FilterKeepsAll(s[1..], p);
    }
  }

  /** Predicates that agree on every element of `s` filter it the same way. */
  lemma {:induction false} FilterAgreeing<T>(s: seq<T>, p: T -> bool, q: T -> bool)
    requires forall i :: 0 <= i < |s| ==> p(s[i]) == q(s[i])
    ensures Filter(s, p) == Filter(s, q)
  {
    if s != [] {
      FilterAgreeing(s[1..], p, q);
    }
  }

  /** `if (active) s = s.filter(p)`: a step that may be switched off filters by "inactive or `p`". */
  lemma FilterStep<T>(s: seq<T>, active: bool, p: T -> bool, step: T -> bool)
    requires forall i :: 0 <= i < |s| ==> step(s[i]) == (!active || p(s[i]))
    ensures (if active then Filter(s, p) else s) == Filter(s, step)
  {
    if active {
      FilterAgreeing(s, p, step);
    } else {
      FilterKeepsAll(s, step);
    }
  }

  /** Two filters in a row are one filter by their conjunction, so the order of independent filters does not matter. */
  lemma {:induction false} FilterFuse<T>(s: seq<T>, p: T -> bool, q: T -> bool, both: T -> bool)
    requires forall i :: 0 <= i < |s| ==> both(s[i]) == (p(s[i]) && q(s[i]))
    ensures Filter(Filter(s, p), q) == Filter(s, both)
  {
    if s != [] {
      FilterFuse(s[1..], p, q, both);
    }
  }

  /** One step of the filter on a sequence given as head and tail. */
  lemma FilterCons<T>(x: T, s: seq<T>, p: T -> bool)
    ensures Filter([x] + s, p) == if p(x) then [x] + Filter(s, p) else Filter(s, p)
  {
    assert ([x] + s)[0] == x;
    assert ([x] + s)[1..] == s;
  }

  /** A predicate that no element satisfies filters everything out. */
  lemma {:induction false} FilterNone<T>(s: seq<T>, p: T -> bool)
    requires forall i :: 0 <= i < |s| ==> !p(s[i])
    ensures Filter(s, p) == []
  {
    if s != [] {
      FilterNone(s[1..], p);
    }
  }

  /** Filtering a concatenation filters each part. */
  lemma {:induction false} FilterConcat<T>(a: seq<T>, b: seq<T>, p: T -> bool)
    ensures Filter(a + b, p) == Filter(a, p) + Filter(b, p)
  {
    if a == [] {
      assert a + b == b;
    } else {
      assert (a + b)[0] == a[0];
      assert (a + b)[1..] == a[1..] + b;
      FilterConcat(a[1..], b, p);
    }
  }

  /** What a filter keeps and what it drops add up to the whole sequence. */
  lemma {:induction false} FilterSplitCount<T>(s: seq<T>, p: T -> bool)
    ensures |Filter(s, p)| + |Filter(s, x => !p(x))| == |s|
  {
    if s != [] {
      FilterSplitCount(s[1..], p);
    }
  }

  /** Index normalisation of `Array.prototype.slice`: a negative index counts from the end; the result is clamped to `[0, n]`. */
  function SliceIndex(i: int, n: nat): (r: nat)
    ensures r <= n
    ensures 0 <= i ==> r == if i <= n then i else n
    ensures i < 0 ==> r == if n + i >= 0 then n + i else 0
  {
    if i < 0 then (if n + i < 0 then 0 else n + i)
    else if i > n then n
    else i
  }

  /** Whatever a slice holds comes from the sliced sequence. */
  lemma JsSliceMembers<T>(s: seq<T>, start: int, end: int)
    ensures forall k :: 0 <= k < |JsSlice(s, start, end)| ==> JsSlice(s, start, end)[k] in s
  {
  }

  /** `s.slice(start, end)` as JavaScript defines it, negative indices included. */
  function JsSlice<T>(s: seq<T>, start: int, end: int): (r: seq<T>)
    ensures SliceIndex(start, |s|) + |r| <= |s|
    ensures start <= end ==> |r| <= end - start
    ensures |r| == if SliceIndex(start, |s|) < SliceIndex(end, |s|) then SliceIndex(end, |s|) - SliceIndex(start, |s|) else 0
    ensures forall k :: 0 <= k < |r| ==> r[k] == s[SliceIndex(start, |s|) + k]
  {
    var a := SliceIndex(start, |s|);
    var b := SliceIndex(end, |s|);
    if a < b then s[a..b] else []
  }
}
