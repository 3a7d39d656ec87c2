/** The query vocabulary the routes share: MongoDB's `find(filter)`,
    `.sort({ timestamp: -1 })` and `.limit(n)`, and the `$avg`
    accumulator, stated over sequences. */
module Sequences {
  import opened Common

  /** `find(filter)`: the elements satisfying `p`, in store order. */
  function Filter<T(!new)>(s: seq<T>, p: T -> bool): (r: seq<T>)
    ensures |r| <= |s|
    ensures forall x :: x in r <==> x in s && p(x)
    ensures multiset(r) <= multiset(s)
  {
    if s == [] then []
    else
      assert s == [s[0]] + s[1..];
      if p(s[0]) then [s[0]] + Filter(s[1..], p) else Filter(s[1..], p)
  }

  /** A filter every element passes keeps everything. */
  lemma {:induction false} FilterAll<T(!new)>(s: seq<T>, p: T -> bool)
    requires forall x :: x in s ==> p(x)
    ensures Filter(s, p) == s
  {
    if s != [] {
      assert s == [s[0]] + s[1..];
      FilterAll(s[1..], p);
    }
  }

  /** Filtering a concatenation filters each part. */
  lemma {:induction false} FilterConcat<T(!new)>(a: seq<T>, b: seq<T>, p: T -> bool)
    ensures Filter(a + b, p) == Filter(a, p) + Filter(b, p)
  {
    if a != [] {
      assert (a + b)[1..] == a[1..] + b;
      FilterConcat(a[1..], b, p);
    } else {
      assert a + b == b;
    }
  }

  /** A filter that rejects some element returns fewer elements. */
  lemma {:induction false} FilterShrinks<T(!new)>(s: seq<T>, p: T -> bool, x: T)
    requires x in s && !p(x)
    ensures |Filter(s, p)| < |s|
  {
    assert s == [s[0]] + s[1..];
    if s[0] != x {
      FilterShrinks(s[1..], p, x);
    }
  }

  /** `Filter` keeps every copy of a matching element and no copy of
      any other. */
  lemma {:induction false} FilterCounts<T(!new)>(s: seq<T>, p: T -> bool, x: T)
    ensures multiset(Filter(s, p))[x] == if p(x) then multiset(s)[x] else 0
  {
    if s != [] {
      assert s == [s[0]] + s[1..];
      FilterCounts(s[1..], p, x);
    }
  }

  /** Every position moved one place on. */
  function Shift(g: seq<int>): (h: seq<int>)
    ensures |h| == |g| && forall k :: 0 <= k < |g| ==> h[k] == g[k] + 1
  {
    if g == [] then [] else [g[0] + 1] + Shift(g[1..])
  }

  /** The positions in `s` of the positions `g` in `s[1..]`, headed by 0 when `s[0]` is kept. */
  function Extend(keep: bool, g: seq<int>): (f: seq<int>)
    ensures |f| == |g| + (if keep then 1 else 0)
  {
    (if keep then [0] else []) + Shift(g)
  }

  predicate Increasing(f: seq<int>) {
    forall k, l :: 0 <= k < l < |f| ==> f[k] < f[l]
  }

  lemma ExtendPicks<T(!new)>(s: seq<T>, p: T -> bool, g: seq<int>)
    requires s != [] && |g| == |Filter(s[1..], p)|
    requires forall k :: 0 <= k < |g| ==> 0 <= g[k] < |s[1..]| && Filter(s[1..], p)[k] == s[1..][g[k]]
    ensures var f := Extend(p(s[0]), g);
            |f| == |Filter(s, p)| && forall k :: 0 <= k < |f| ==> 0 <= f[k] < |s| && Filter(s, p)[k] == s[f[k]]
  {
    var f := Extend(p(s[0]), g);
    var head := if p(s[0]) then [0] else [];
    assert f == head + Shift(g);
    assert Filter(s, p) == (if p(s[0]) then [s[0]] else []) + Filter(s[1..], p);
    forall k | |head| <= k < |f| ensures 0 <= f[k] < |s| && Filter(s, p)[k] == s[f[k]] {
      assert s[1..][g[k - |head|]] == s[f[k]];
    }
  }

  lemma ExtendIncreasing(keep: bool, g: seq<int>)
    requires Increasing(g) && forall k :: 0 <= k < |g| ==> g[k] >= 0
    ensures Increasing(Extend(keep, g))
  {
    var head := if keep then [0] else [];
    var f := Extend(keep, g);
    assert f == head + Shift(g);
    forall k, l | 0 <= k < l < |f| ensures f[k] < f[l] {
      if k >= |head| {
        assert g[k - |head|] < g[l - |head|];
      }
    }
  }

  lemma ExtendCovers<T>(s: seq<T>, p: T -> bool, g: seq<int>)
    requires s != []
    requires forall i :: 0 <= i < |s[1..]| && p(s[1..][i]) ==> i in g
    ensures forall i :: 0 <= i < |s| && p(s[i]) ==> i in Extend(p(s[0]), g)
  {
    var head := if p(s[0]) then [0] else [];
    var f := Extend(p(s[0]), g);
    assert f == head + Shift(g);
    forall i | 0 < i < |s| && p(s[i]) ensures i in f {
      assert s[1..][i - 1] == s[i];
      assert i - 1 in g;
      var k :| 0 <= k < |g| && g[k] == i - 1;
      assert Shift(g)[k] == i;
      assert f[|head| + k] == Shift(g)[k];
    }
    if p(s[0]) {
      assert f[0] == 0;
    }
  }

  /** `Filter` keeps the store order: the k-th result is the element at
      position `f[k]` of `s`, the positions increase, and every matching
      position is among them. */
  lemma {:induction false} FilterKeepsOrder<T(!new)>(s: seq<T>, p: T -> bool) returns (f: seq<int>)
    ensures |f| == |Filter(s, p)|
    ensures forall k :: 0 <= k < |f| ==> 0 <= f[k] < |s| && Filter(s, p)[k] == s[f[k]]
    ensures Increasing(f)
    ensures forall i :: 0 <= i < |s| && p(s[i]) ==> i in f
  {
    if s == [] {
      f := [];
    } else {
      var g := FilterKeepsOrder(s[1..], p);
      ExtendPicks(s, p, g);
      ExtendIncreasing(p(s[0]), g);
      ExtendCovers(s, p, g);
      f := Extend(p(s[0]), g);
    }
  }

  /** The order `.sort({ timestamp: -1 })` produces: newest first. */
  predicate NewestFirst<T>(s: seq<T>, key: T -> int) {
    forall i, j :: 0 <= i < j < |s| ==> key(s[i]) >= key(s[j])
  }

  function InsertNewest<T>(x: T, s: seq<T>, key: T -> int): (r: seq<T>)
    requires NewestFirst(s, key)
    ensures NewestFirst(r, key)
    ensures multiset(r) == multiset(s) + multiset{x}
  {
    if s == [] || key(x) >= key(s[0]) then [x] + s
    else
      var rest := InsertNewest(x, s[1..], key);
      assert s == [s[0]] + s[1..];
      assert forall j :: 0 <= j < |rest| ==> key(s[0]) >= key(rest[j]) by {
        forall j | 0 <= j < |rest|
          ensures key(s[0]) >= key(rest[j])
        {
          assert rest[j] in multiset(rest);
          if rest[j] != x {
            assert rest[j] in multiset(s[1..]);
            var k :| 0 <= k < |s[1..]| && s[1..][k] == rest[j];
            assert s[k + 1] == rest[j];
          }
        }
      }
      [s[0]] + rest
  }

  /** `.sort({ timestamp: -1 })`: a newest-first permutation of `s`; of two
      elements with the same key, the one earlier in `s` stays earlier. */
  function SortNewestFirst<T>(s: seq<T>, key: T -> int): (r: seq<T>)
    ensures NewestFirst(r, key)
    ensures multiset(r) == multiset(s)
    ensures |r| == |s|
  {
    if s == [] then []
    else
      assert s == [s[0]] + s[1..];
      InsertNewest(s[0], SortNewestFirst(s[1..], key), key)
  }

  /** `.limit(n)` as MongoDB reads it: `0` means no limit, and a negative
      `n` returns at most `-n` documents. */
  function MongoLimit<T>(s: seq<T>, n: int): (r: seq<T>)
    ensures n == 0 ==> r == s
    ensures n != 0 ==> |r| == Min(|s|, if n < 0 then -n else n)
    ensures r == s[..|r|]
  {
    var cap := if n < 0 then -n else n;
    if n == 0 || cap >= |s| then s else s[..cap]
  }

  /** `find(…).sort({ timestamp: -1 }).limit(n)` over the documents `s`
      that already passed the filter. */
  function Newest<T>(s: seq<T>, key: T -> int, n: int): (r: seq<T>)
    ensures NewestFirst(r, key)
    ensures multiset(r) <= multiset(s)
    ensures n == 0 ==> multiset(r) == multiset(s)
    ensures n != 0 ==> |r| == Min(|s|, if n < 0 then -n else n)
  {
    var sorted := SortNewestFirst(s, key);
    var r := MongoLimit(sorted, n);
    assert sorted == r + sorted[|r|..];
    r
  }

  /** Every member of `Newest(s, key, n)` is one of the candidates `s`. */
  lemma NewestFromCandidates<T>(s: seq<T>, key: T -> int, n: int, x: T)
    requires x in Newest(s, key, n)
    ensures x in s
  {
    assert x in multiset(Newest(s, key, n));
  }

  /** What the limit leaves out is no newer than anything it keeps. */
  lemma NewestOmitsOnlyOlder<T>(s: seq<T>, key: T -> int, n: int, x: T, i: int)
    requires x in s && x !in Newest(s, key, n)
    requires 0 <= i < |Newest(s, key, n)|
    ensures key(x) <= key(Newest(s, key, n)[i])
  {
    var sorted := SortNewestFirst(s, key);
    var r := Newest(s, key, n);
    assert r == sorted[..|r|];
    assert x in multiset(sorted);
    var k :| 0 <= k < |sorted| && sorted[k] == x;
    assert forall j :: 0 <= j < |r| ==> sorted[j] == r[j];
    assert k >= |r|;
  }

  /** A document strictly newer than every other candidate heads the
      newest-first order. */
  lemma {:induction false} StrictlyNewestComesFirst<T>(s: seq<T>, key: T -> int, w: T)
    requires w in s
    requires forall x :: x in s && x != w ==> key(x) < key(w)
    ensures |SortNewestFirst(s, key)| > 0 && SortNewestFirst(s, key)[0] == w
  {
    var sorted := SortNewestFirst(s, key);
    assert w in multiset(sorted);
    var k :| 0 <= k < |sorted| && sorted[k] == w;
    assert sorted[0] in multiset(s);
    assert k == 0 || key(sorted[0]) >= key(sorted[k]);
  }

  // ---------------------------------------------------------------------
  // The `$avg` accumulator and `np.mean`.
  // ---------------------------------------------------------------------

  function Sum(xs: seq<real>): real {
    if xs == [] then 0.0 else Sum(xs[..|xs| - 1]) + xs[|xs| - 1]
  }

  function Mean(xs: seq<real>): real
    requires |xs| > 0
  {
    Sum(xs) / (|xs| as real)
  }

  lemma {:induction false} SumBounds(xs: seq<real>, lo: real, hi: real)
    requires forall i :: 0 <= i < |xs| ==> lo <= xs[i] <= hi
    ensures (|xs| as real) * lo <= Sum(xs) <= (|xs| as real) * hi
  {
    if xs != [] {
      var init := xs[..|xs| - 1];
      SumBounds(init, lo, hi);
      assert (|xs| as real) * lo == (|init| as real) * lo + lo;
      assert (|xs| as real) * hi == (|init| as real) * hi + hi;
    }
  }

  lemma DivideMonotone(a: real, b: real, n: real)
    requires a <= b && n > 0.0
    ensures a / n <= b / n
  {
    assert b / n - a / n == (b - a) / n;
  }

  /** A mean lies between the least and the greatest bound of its values. */
  lemma MeanBounds(xs: seq<real>, lo: real, hi: real)
    requires |xs| > 0
    requires forall i :: 0 <= i < |xs| ==> lo <= xs[i] <= hi
    ensures lo <= Mean(xs) <= hi
  {
    SumBounds(xs, lo, hi);
    var n := |xs| as real;
    DivideMonotone(n * lo, Sum(xs), n);
    DivideMonotone(Sum(xs), n * hi, n);
    assert n * lo / n == lo && n * hi / n == hi;
  }
}
