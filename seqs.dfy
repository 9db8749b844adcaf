/**
 * The array combinators the store and the views are built from:
 * `filter`, `find`, `map`, `slice` and a `reduce` that sums numbers.
 */
module Seqs {
  import opened Wrappers

  /** `s.filter(p)`: the elements of `s` that satisfy `p`, in their original order. */
  function Filter<T>(s: seq<T>, p: T -> bool): (r: seq<T>)
    ensures |r| <= |s|
  {
    if s == [] then [] else (if p(s[0]) then [s[0]] else []) + Filter(s[1..], p)
  }

  /** Everything kept is from `s` and satisfies `p`; everything in `s` that satisfies `p` is kept. */
  lemma {:induction false} FilterMembers<T>(s: seq<T>, p: T -> bool)
    ensures forall i :: 0 <= i < |Filter(s, p)| ==> Filter(s, p)[i] in s && p(Filter(s, p)[i])
    ensures forall i :: 0 <= i < |s| && p(s[i]) ==> s[i] in Filter(s, p)
  {
    if s != [] {
      FilterMembers(s[1..], p);
      var r := Filter(s, p);
      var head := if p(s[0]) then [s[0]] else [];
      assert r == head + Filter(s[1..], p);
      forall i | 0 <= i < |r|
        ensures r[i] in s && p(r[i])
      {
        if i >= |head| {
          assert r[i] == Filter(s[1..], p)[i - |head|];
        }
      }
      forall i | 0 <= i < |s| && p(s[i])
        ensures s[i] in r
      {
        if i > 0 {
          assert s[i] == s[1..][i - 1];
        }
      }
    }
  }

  /** `a` is `b` with some elements left out, the rest kept in order. */
  ghost predicate IsSubsequence<T>(a: seq<T>, b: seq<T>)
    decreases |b|
  {
    if a == [] then true
    else if b == [] then false
    else (a[0] == b[0] && IsSubsequence(a[1..], b[1..])) || IsSubsequence(a, b[1..])
  }

  lemma {:induction false} FilterIsSubsequence<T>(s: seq<T>, p: T -> bool)
    ensures IsSubsequence(Filter(s, p), s)
  {
    if s != [] {
      FilterIsSubsequence(s[1..], p);
      if p(s[0]) {
        assert Filter(s, p) == [s[0]] + Filter(s[1..], p);
        assert Filter(s, p)[1..] == Filter(s[1..], p);
      } else {
        assert Filter(s, p) == Filter(s[1..], p);
      }
    }
  }

  lemma {:induction false} FilterConcat<T>(a: seq<T>, b: seq<T>, p: T -> bool)
    ensures Filter(a + b, p) == Filter(a, p) + Filter(b, p)
  {
    if a == [] {
      assert a + b == b;
    } else {
      var head := if p(a[0]) then [a[0]] else [];
      assert (a + b)[0] == a[0];
      assert (a + b)[1..] == a[1..] + b;
      assert Filter(a + b, p) == head + Filter(a[1..] + b, p);
      FilterConcat(a[1..], b, p);
      assert Filter(a, p) == head + Filter(a[1..], p);
    }
  }

  /** Filtering twice is filtering once by the conjunction: chained criteria are ANDed. */
  lemma {:induction false} FilterFilter<T>(s: seq<T>, p: T -> bool, q: T -> bool)
    ensures Filter(Filter(s, p), q) == Filter(s, x => p(x) && q(x))
  {
    if s != [] {
      FilterFilter(s[1..], p, q);
      if p(s[0]) {
        assert Filter(s, p) == [s[0]] + Filter(s[1..], p);
        FilterConcat([s[0]], Filter(s[1..], p), q);
        assert [s[0]][1..] == [];
        assert Filter([s[0]], q) == if q(s[0]) then [s[0]] else [];
      } else {
        assert Filter(s, p) == Filter(s[1..], p);
      }
    }
  }

  /** Two predicates that agree on the elements of `s` select the same elements. */
  lemma {:induction false} FilterCongruent<T>(s: seq<T>, p: T -> bool, q: T -> bool)
    requires forall i :: 0 <= i < |s| ==> p(s[i]) == q(s[i])
    ensures Filter(s, p) == Filter(s, q)
  {
    if s != [] {
      FilterCongruent(s[1..], p, q);
    }
  }

  lemma {:induction false} FilterAll<T>(s: seq<T>, p: T -> bool)
    requires forall i :: 0 <= i < |s| ==> p(s[i])
    ensures Filter(s, p) == s
  {
    if s != [] {
      FilterAll(s[1..], p);
    }
  }

  lemma {:induction false} FilterNone<T>(s: seq<T>, p: T -> bool)
    requires forall i :: 0 <= i < |s| ==> !p(s[i])
    ensures Filter(s, p) == []
  {
    if s != [] {
      FilterNone(s[1..], p);
    }
  }

  /** What a filter keeps and what it drops add up to the whole (nothing is lost or duplicated). */
  lemma {:induction false} FilterPartition<T>(s: seq<T>, p: T -> bool, q: T -> bool)
    requires forall i :: 0 <= i < |s| ==> q(s[i]) == !p(s[i])
    ensures multiset(Filter(s, p)) + multiset(Filter(s, q)) == multiset(s)
  {
    if s != [] {
      FilterPartition(s[1..], p, q);
      assert s == [s[0]] + s[1..];
    }
  }

  /** A filter that keeps exactly the block `s[i..j]` keeps `j - i` elements. */
  lemma FilterBlock<T>(s: seq<T>, p: T -> bool, i: nat, j: nat)
    requires i <= j <= |s|
    requires forall k :: 0 <= k < i ==> !p(s[k])
    requires forall k :: i <= k < j ==> p(s[k])
    requires forall k :: j <= k < |s| ==> !p(s[k])
    ensures |Filter(s, p)| == j - i
  {
    var x, y, z := s[0..i], s[i..j], s[j..|s|];
    FilterSliceNone(s, p, 0, i);
    FilterSliceAll(s, p, i, j);
    FilterSliceNone(s, p, j, |s|);
    SliceThree(s, i, j);
    FilterConcat3(x, y, z, p);
    assert Filter(s, p) == [] + y + [];
  }

  lemma SliceThree<T>(s: seq<T>, i: nat, j: nat)
    requires i <= j <= |s|
    ensures s[0..i] + s[i..j] + s[j..|s|] == s
  {
  }

  lemma FilterSliceNone<T>(s: seq<T>, p: T -> bool, lo: nat, hi: nat)
    requires lo <= hi <= |s|
    requires forall k :: lo <= k < hi ==> !p(s[k])
    ensures Filter(s[lo..hi], p) == []
  {
    var y := s[lo..hi];
    assert forall k :: 0 <= k < |y| ==> y[k] == s[lo + k];
    FilterNone(y, p);
  }

  lemma FilterSliceAll<T>(s: seq<T>, p: T -> bool, lo: nat, hi: nat)
    requires lo <= hi <= |s|
    requires forall k :: lo <= k < hi ==> p(s[k])
    ensures Filter(s[lo..hi], p) == s[lo..hi]
  {
    var y := s[lo..hi];
    assert forall k :: 0 <= k < |y| ==> y[k] == s[lo + k];
    FilterAll(y, p);
  }

  /** A filter and a map in one pass (`filter(...).map(...)`, or `forEach` with a conditional `push`). */
  function Collect<T, U>(s: seq<T>, f: T -> Option<U>): (r: seq<U>)
    ensures |r| <= |s|
  {
    if s == [] then []
    else (if f(s[0]).Some? then [f(s[0]).value] else []) + Collect(s[1..], f)
  }

  /** Collecting one more element at the end appends its image, if it has one. */
  lemma {:induction false} CollectSnoc<T, U>(s: seq<T>, x: T, f: T -> Option<U>)
    ensures Collect(s + [x], f) == Collect(s, f) + (if f(x).Some? then [f(x).value] else [])
  {
    if s == [] {
      assert [x][1..] == [];
    } else {
      assert (s + [x])[1..] == s[1..] + [x];
      CollectSnoc(s[1..], x, f);
    }
  }

  /** Every collected value has a property when every image of an element has it. */
  lemma {:induction false} CollectAll<T, U>(s: seq<T>, f: T -> Option<U>, p: U -> bool)
    requires forall j :: 0 <= j < |s| && f(s[j]).Some? ==> p(f(s[j]).value)
    ensures forall y :: y in Collect(s, f) ==> p(y)
  {
    if s != [] {
      assert forall j :: 0 <= j < |s[1..]| ==> s[1..][j] == s[j + 1];
      CollectAll(s[1..], f, p);
    }
  }

  /** When every element has an image, collecting is mapping: one result per element, in order. */
  lemma {:induction false} CollectTotal<T, U>(s: seq<T>, f: T -> Option<U>)
    requires forall j :: 0 <= j < |s| ==> f(s[j]).Some?
    ensures |Collect(s, f)| == |s|
    ensures forall i :: 0 <= i < |s| ==> Collect(s, f)[i] == f(s[i]).value
  {
    if s != [] {
      CollectTotal(s[1..], f);
    }
  }

  /** Filtering by one more element at the end. */
  lemma FilterSnoc<T>(s: seq<T>, x: T, p: T -> bool)
    ensures Filter(s + [x], p) == Filter(s, p) + (if p(x) then [x] else [])
  {
    FilterConcat(s, [x], p);
    assert [x][1..] == [];
  }

  // ---------------------------------------------------------------------
  // Three-way partitions: the shape of a stable sort by a three-valued key.
  // ---------------------------------------------------------------------

  /** Every element satisfies exactly one of `p`, `q` and `r`. */
  predicate OneOf3<T>(x: T, p: T -> bool, q: T -> bool, r: T -> bool)
  {
    (p(x) || q(x) || r(x)) && !(p(x) && q(x)) && !(p(x) && r(x)) && !(q(x) && r(x))
  }

  predicate Partitions3<T>(s: seq<T>, p: T -> bool, q: T -> bool, r: T -> bool)
  {
    forall i :: 0 <= i < |s| ==> OneOf3(s[i], p, q, r)
  }

  /** No `q` or `r` element comes before a `p` element, and no `r` element before a `q` element. */
  predicate BlockOrdered<T>(s: seq<T>, p: T -> bool, q: T -> bool, r: T -> bool)
  {
    forall i, j :: 0 <= i < j < |s| ==> (p(s[j]) ==> p(s[i])) && (q(s[j]) ==> !r(s[i]))
  }

  /** The `p` block, then the `q` block, then the `r` block, each in the order of `s`. */
  function Blocks3<T>(s: seq<T>, p: T -> bool, q: T -> bool, r: T -> bool): seq<T>
  {
    Filter(s, p) + Filter(s, q) + Filter(s, r)
  }

  /** The three blocks hold exactly the elements of `s`, as often as `s` does. */
  lemma Blocks3Permutation<T>(s: seq<T>, p: T -> bool, q: T -> bool, r: T -> bool)
    requires Partitions3(s, p, q, r)
    ensures multiset(Blocks3(s, p, q, r)) == multiset(s)
  {
    var notP := (x: T) => q(x) || r(x);
    assert forall i :: 0 <= i < |s| ==> notP(s[i]) == !p(s[i]) by {
      forall i | 0 <= i < |s| ensures notP(s[i]) == !p(s[i]) {
        assert OneOf3(s[i], p, q, r);
      }
    }
    FilterPartition(s, p, notP);
    var rest := Filter(s, notP);
    FilterMembers(s, notP);
    forall i | 0 <= i < |rest|
      ensures r(rest[i]) == !q(rest[i])
    {
      assert rest[i] in s && notP(rest[i]);
      var k :| 0 <= k < |s| && s[k] == rest[i];
      assert OneOf3(s[k], p, q, r);
    }
    FilterPartition(rest, q, r);
    FilterFilterCongruent(s, notP, q, q);
    FilterFilterCongruent(s, notP, r, r);
    calc {
      multiset(Blocks3(s, p, q, r));
      multiset(Filter(s, p)) + multiset(Filter(s, q)) + multiset(Filter(s, r));
      multiset(Filter(s, p)) + (multiset(Filter(rest, q)) + multiset(Filter(rest, r)));
      multiset(Filter(s, p)) + multiset(rest);
      multiset(s);
    }
  }

  /** Filtering a concatenation of three is concatenating the three filters. */
  lemma FilterConcat3<T>(a: seq<T>, b: seq<T>, c: seq<T>, p: T -> bool)
    ensures Filter(a + b + c, p) == Filter(a, p) + Filter(b, p) + Filter(c, p)
  {
    FilterConcat(a + b, c, p);
    FilterConcat(a, b, p);
  }

  /** Each predicate selects from the blocks exactly what it selects from `s`. */
  lemma Blocks3Stable<T>(s: seq<T>, p: T -> bool, q: T -> bool, r: T -> bool)
    requires Partitions3(s, p, q, r)
    ensures Filter(Blocks3(s, p, q, r), p) == Filter(s, p)
    ensures Filter(Blocks3(s, p, q, r), q) == Filter(s, q)
    ensures Filter(Blocks3(s, p, q, r), r) == Filter(s, r)
  {
    var a, b, c := Filter(s, p), Filter(s, q), Filter(s, r);
    FilterMembers(s, p);
    FilterMembers(s, q);
    FilterMembers(s, r);
    assert forall i :: 0 <= i < |a| ==> OneOf3(a[i], p, q, r) && p(a[i]);
    assert forall i :: 0 <= i < |b| ==> OneOf3(b[i], p, q, r) && q(b[i]);
    assert forall i :: 0 <= i < |c| ==> OneOf3(c[i], p, q, r) && r(c[i]);
    FilterConcat3(a, b, c, p);
    FilterConcat3(a, b, c, q);
    FilterConcat3(a, b, c, r);
    FilterAll(a, p);
    FilterNone(b, p);
    FilterNone(c, p);
    FilterNone(a, q);
    FilterAll(b, q);
    FilterNone(c, q);
    FilterNone(a, r);
    FilterNone(b, r);
    FilterAll(c, r);
  }

  /** The blocks are in block order. */
  lemma Blocks3Ordered<T>(s: seq<T>, p: T -> bool, q: T -> bool, r: T -> bool)
    requires Partitions3(s, p, q, r)
    ensures BlockOrdered(Blocks3(s, p, q, r), p, q, r)
  {
    var a, b, c := Filter(s, p), Filter(s, q), Filter(s, r);
    FilterMembers(s, p);
    FilterMembers(s, q);
    FilterMembers(s, r);
    var t := a + b + c;
    forall i, j | 0 <= i < j < |t|
      ensures (p(t[j]) ==> p(t[i])) && (q(t[j]) ==> !r(t[i]))
    {
      var x, y := t[i], t[j];
      if i < |a| {
        assert x == a[i] && p(x);
      } else if i < |a| + |b| {
        assert x == b[i - |a|] && q(x);
        assert y == (if j < |a| + |b| then b[j - |a|] else c[j - |a| - |b|]);
      } else {
        assert x == c[i - |a| - |b|] && r(x);
        assert y == c[j - |a| - |b|];
      }
    }
  }

  lemma ConsConcat3<T>(x: T, a: seq<T>, b: seq<T>, c: seq<T>)
    ensures [x] + a + b + c == [x] + (a + b + c)
  {
  }

  /** The tail of a partitioned, block-ordered sequence is partitioned and block-ordered. */
  lemma TailBlockOrdered<T>(s: seq<T>, p: T -> bool, q: T -> bool, r: T -> bool)
    requires s != [] && Partitions3(s, p, q, r) && BlockOrdered(s, p, q, r)
    ensures Partitions3(s[1..], p, q, r) && BlockOrdered(s[1..], p, q, r)
    ensures !p(s[0]) ==> forall k :: 0 <= k < |s[1..]| ==> !p(s[1..][k])
    ensures r(s[0]) ==> forall k :: 0 <= k < |s[1..]| ==> !q(s[1..][k])
  {
    var rest := s[1..];
    forall k | 0 <= k < |rest|
      ensures rest[k] == s[k + 1]
    {
    }
  }

  /** A sequence already in block order is its own blocks. */
  lemma {:induction false} BlockOrderedIsBlocks3<T>(s: seq<T>, p: T -> bool, q: T -> bool, r: T -> bool)
    requires Partitions3(s, p, q, r) && BlockOrdered(s, p, q, r)
    ensures s == Blocks3(s, p, q, r)
  {
    if s != [] {
      var x, rest := s[0], s[1..];
      assert s == [x] + rest;
      assert OneOf3(x, p, q, r);
      TailBlockOrdered(s, p, q, r);
      BlockOrderedIsBlocks3(rest, p, q, r);
      var a, b, c := Filter(rest, p), Filter(rest, q), Filter(rest, r);
      assert rest == a + b + c;
      if p(x) {
        assert Filter(s, p) == [x] + a;
        assert Filter(s, q) == b && Filter(s, r) == c;
        ConsConcat3(x, a, b, c);
      } else if q(x) {
        FilterNone(rest, p);
        assert Filter(s, p) == [];
        assert Filter(s, q) == [x] + b;
        assert Filter(s, r) == c;
        ConsConcat3(x, [], b, c);
      } else {
        FilterNone(rest, p);
        FilterNone(rest, q);
        assert Filter(s, p) == [] && Filter(s, q) == [];
        assert Filter(s, r) == [x] + c;
        ConsConcat3(x, [], [], c);
      }
    }
  }

  /** `s.find(p)`: the first element that satisfies `p`, or `undefined`. */
  function Find<T>(s: seq<T>, p: T -> bool): (r: Option<T>)
    ensures r.None? <==> forall i :: 0 <= i < |s| ==> !p(s[i])
    ensures r.Some? ==> r.value in s && p(r.value)
  {
    if s == [] then None else if p(s[0]) then Some(s[0]) else Find(s[1..], p)
  }

  /** `s.some(p)`. */
  predicate Any<T>(s: seq<T>, p: T -> bool)
  {
    Find(s, p).Some?
  }

  lemma AnyMeaning<T>(s: seq<T>, p: T -> bool)
    ensures Any(s, p) <==> exists i :: 0 <= i < |s| && p(s[i])
  {
  }

  /** Some element of a filtered sequence satisfies `q` iff some element of the whole satisfies both. */
  lemma {:induction false} AnyFilter<T>(s: seq<T>, p: T -> bool, q: T -> bool, r: T -> bool)
    requires forall i :: 0 <= i < |s| ==> r(s[i]) == (p(s[i]) && q(s[i]))
    ensures Any(Filter(s, p), q) == Any(s, r)
  {
    if s != [] {
      AnyFilter(s[1..], p, q, r);
      if p(s[0]) {
        var f := Filter(s, p);
        assert f == [s[0]] + Filter(s[1..], p);
        assert f[0] == s[0] && f[1..] == Filter(s[1..], p);
        assert Any(f, q) == (q(s[0]) || Any(Filter(s[1..], p), q));
      } else {
        assert Filter(s, p) == Filter(s[1..], p);
      }
      assert Any(s, r) == (r(s[0]) || Any(s[1..], r));
    }
  }

  /** `find` returns the FIRST match: the element at the first index satisfying `p`. */
  lemma {:induction false} FindFirst<T>(s: seq<T>, p: T -> bool, i: nat)
    requires i < |s| && p(s[i])
    requires forall j :: 0 <= j < i ==> !p(s[j])
    ensures Find(s, p) == Some(s[i])
  {
    if i > 0 {
      FindFirst(s[1..], p, i - 1);
    }
  }

  /** The index at which `find` stopped: the first element that satisfies `p`. */
  lemma {:induction false} FindIndex<T>(s: seq<T>, p: T -> bool) returns (i: nat)
    requires Find(s, p).Some?
    ensures i < |s| && s[i] == Find(s, p).value
    ensures forall j :: 0 <= j < i ==> !p(s[j])
  {
    if p(s[0]) {
      i := 0;
    } else {
      var k := FindIndex(s[1..], p);
      i := k + 1;
    }
  }

  /** Conditional filtering, the shape of `if (criterion) list = list.filter(...)`. */
  function FilterIf<T>(s: seq<T>, cond: bool, p: T -> bool): seq<T>
  {
    if cond then Filter(s, p) else s
  }

  /** A conditional filter is the filter by `r` when `r` agrees with "no criterion, or `p`". */
  lemma FilterIfCongruent<T>(s: seq<T>, cond: bool, p: T -> bool, r: T -> bool)
    requires forall i :: 0 <= i < |s| ==> (!cond || p(s[i])) == r(s[i])
    ensures FilterIf(s, cond, p) == Filter(s, r)
  {
    if cond {
      FilterCongruent(s, p, r);
    } else {
      FilterAll(s, r);
    }
  }

  /** One more conditional filter after a filter by `q` is one filter by the conjunction `r`. */
  lemma FilterIfStep<T>(s: seq<T>, q: T -> bool, cond: bool, p: T -> bool, r: T -> bool)
    requires forall i :: 0 <= i < |s| ==> (q(s[i]) && (!cond || p(s[i]))) == r(s[i])
    ensures FilterIf(Filter(s, q), cond, p) == Filter(s, r)
  {
    if cond {
      FilterFilter(s, q, p);
      FilterCongruent(s, x => q(x) && p(x), r);
    } else {
      FilterCongruent(s, q, r);
    }
  }

  /** Filtering by `q` after `p` gives the filter by any `r` equal to their conjunction on `s`. */
  lemma FilterFilterCongruent<T>(s: seq<T>, p: T -> bool, q: T -> bool, r: T -> bool)
    requires forall i :: 0 <= i < |s| ==> (p(s[i]) && q(s[i])) == r(s[i])
    ensures Filter(Filter(s, p), q) == Filter(s, r)
  {
    FilterFilter(s, p, q);
    FilterCongruent(s, x => p(x) && q(x), r);
  }

  /** Appending at the end does not change an earlier match; otherwise the new last element is tested. */
  lemma {:induction false} FindAppend<T>(s: seq<T>, x: T, p: T -> bool)
    ensures Find(s + [x], p) == (if Find(s, p).Some? then Find(s, p) else if p(x) then Some(x) else None)
  {
    if s == [] {
      assert s + [x] == [x];
    } else {
      assert (s + [x])[0] == s[0];
      assert (s + [x])[1..] == s[1..] + [x];
      FindAppend(s[1..], x, p);
    }
  }

  /** `s.map(f)`. */
  function Map<T, U>(s: seq<T>, f: T -> U): (r: seq<U>)
    ensures |r| == |s|
    ensures forall i :: 0 <= i < |s| ==> r[i] == f(s[i])
  {
    seq(|s|, i requires 0 <= i < |s| => f(s[i]))
  }

  /**
   * `s.map(x => sel(x) ? f(x) : x)`: the store's partial-update shape. Elements
   * that are not selected are returned as they were.
   */
  function MapWhere<T>(s: seq<T>, sel: T -> bool, f: T -> T): (r: seq<T>)
    ensures |r| == |s|
    ensures forall i :: 0 <= i < |s| && !sel(s[i]) ==> r[i] == s[i]
    ensures forall i :: 0 <= i < |s| && sel(s[i]) ==> r[i] == f(s[i])
  {
    Map(s, x => if sel(x) then f(x) else x)
  }

  /** When nothing is selected, a partial update leaves the collection exactly as it was. */
  lemma MapWhereNoneSelected<T>(s: seq<T>, sel: T -> bool, f: T -> T)
    requires forall i :: 0 <= i < |s| ==> !sel(s[i])
    ensures MapWhere(s, sel, f) == s
  {
    var r := MapWhere(s, sel, f);
    assert forall i :: 0 <= i < |s| ==> r[i] == s[i];
  }

  /** `s.reduce((sum, x) => sum + f(x), 0)`. */
  function Sum<T>(s: seq<T>, f: T -> real): real
  {
    if s == [] then 0.0 else f(s[0]) + Sum(s[1..], f)
  }

  lemma {:induction false} SumConcat<T>(a: seq<T>, b: seq<T>, f: T -> real)
    ensures Sum(a + b, f) == Sum(a, f) + Sum(b, f)
  {
    if a == [] {
      assert a + b == b;
    } else {
      assert (a + b)[0] == a[0];
      assert (a + b)[1..] == a[1..] + b;
      SumConcat(a[1..], b, f);
    }
  }

  lemma {:induction false} SumNonNegative<T>(s: seq<T>, f: T -> real)
    requires forall i :: 0 <= i < |s| ==> f(s[i]) >= 0.0
    ensures Sum(s, f) >= 0.0
  {
    if s != [] {
      SumNonNegative(s[1..], f);
    }
  }

  lemma {:induction false} SumCongruent<T>(s: seq<T>, f: T -> real, g: T -> real)
    requires forall i :: 0 <= i < |s| ==> f(s[i]) == g(s[i])
    ensures Sum(s, f) == Sum(s, g)
  {
    if s != [] {
      SumCongruent(s[1..], f, g);
    }
  }

  /** Elements outside a filter whose values are zero do not change a sum. */
  lemma {:induction false} SumFilterZeros<T>(s: seq<T>, p: T -> bool, f: T -> real)
    requires forall i :: 0 <= i < |s| && !p(s[i]) ==> f(s[i]) == 0.0
    ensures Sum(Filter(s, p), f) == Sum(s, f)
  {
    if s != [] {
      SumFilterZeros(s[1..], p, f);
      if p(s[0]) {
        assert Filter(s, p) == [s[0]] + Filter(s[1..], p);
        SumConcat([s[0]], Filter(s[1..], p), f);
        assert [s[0]][1..] == [];
        assert Sum([s[0]], f) == f(s[0]);
      } else {
        assert Filter(s, p) == Filter(s[1..], p);
      }
    }
  }

  /** The end index `s.slice(0, end)` stops at: a negative `end` counts back from the end. */
  function SliceEnd(len: nat, end: int): (k: nat)
    ensures k <= len
    ensures end >= 0 ==> k == if end < len then end else len
    ensures end < 0 ==> k == if len + end > 0 then len + end else 0
  {
    if end >= 0 then (if end < len then end else len)
    else if len + end > 0 then len + end else 0
  }

  /** `s.slice(0, end)`. */
  function Take<T>(s: seq<T>, end: int): (r: seq<T>)
    ensures r == s[..SliceEnd(|s|, end)]
    ensures end >= 0 ==> |r| <= end
  {
    s[..SliceEnd(|s|, end)]
  }
}
