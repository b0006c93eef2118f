/** Stable sorting and truncation of candidate lists under any strict weak order:
    what `sort.SliceStable` followed by a slice does, and why it can be done one
    partition at a time. */
module Ranking {
  ghost predicate WeakOrder<T(!new)>(less: (T, T) -> bool)
  {
    && (forall a :: !less(a, a))
    && (forall a, b, c :: less(a, b) && less(b, c) ==> less(a, c))
    && (forall a, b, c :: less(a, b) ==> less(a, c) || less(c, b))
  }

  ghost predicate Sorted<T>(less: (T, T) -> bool, s: seq<T>)
  {
    forall i, j :: 0 <= i < j < |s| ==> !less(s[j], s[i])
  }

  /** No two entries tie. */
  ghost predicate Separated<T>(less: (T, T) -> bool, s: seq<T>)
  {
    forall i, j :: 0 <= i < j < |s| ==> less(s[i], s[j]) || less(s[j], s[i])
  }

  function Take<T>(s: seq<T>, n: nat): (r: seq<T>)
    ensures |r| == if |s| <= n then |s| else n
    ensures r <= s
  {
    if |s| <= n then s else s[..n]
  }

  /** The two lists merged, ties going to the first. */
  function Merge<T>(less: (T, T) -> bool, x: seq<T>, y: seq<T>): (r: seq<T>)
    ensures |r| == |x| + |y|
  {
    if x == [] then y
    else if y == [] then x
    else if less(y[0], x[0]) then [y[0]] + Merge(less, x, y[1..])
    else [x[0]] + Merge(less, x[1..], y)
  }

  /** The stable sort. */
  function Sort<T>(less: (T, T) -> bool, s: seq<T>): (r: seq<T>)
    ensures |r| == |s|
  {
    if s == [] then [] else Merge(less, [s[0]], Sort(less, s[1..]))
  }

  function Best<T>(less: (T, T) -> bool, s: seq<T>, n: nat): (r: seq<T>)
  {
    Take(Sort(less, s), n)
  }

  function Flatten<T>(parts: seq<seq<T>>): (r: seq<T>)
  {
    if parts == [] then [] else parts[0] + Flatten(parts[1..])
  }

  // ---------- merging ----------

  lemma {:induction false} MergeAssociative<T(!new)>(less: (T, T) -> bool, x: seq<T>, y: seq<T>, z: seq<T>)
    requires WeakOrder(less)
    ensures Merge(less, Merge(less, x, y), z) == Merge(less, x, Merge(less, y, z))
    decreases |x| + |y| + |z|
  {
    if x != [] && y != [] && z != [] {
      var xy, yz := Merge(less, x, y), Merge(less, y, z);
      if less(y[0], x[0]) {
        assert xy[1..] == Merge(less, x, y[1..]);
        if less(z[0], y[0]) {
          assert yz[1..] == Merge(less, y, z[1..]);
          MergeAssociative(less, x, y, z[1..]);
        } else {
          assert yz[1..] == Merge(less, y[1..], z);
          MergeAssociative(less, x, y[1..], z);
        }
      } else if less(z[0], x[0]) {
        assert yz[1..] == Merge(less, y, z[1..]);
        MergeAssociative(less, x, y, z[1..]);
      } else {
        assert xy[1..] == Merge(less, x[1..], y);
        MergeAssociative(less, x[1..], y, z);
      }
    }
  }

  lemma {:induction false} SortConcat<T(!new)>(less: (T, T) -> bool, a: seq<T>, b: seq<T>)
    requires WeakOrder(less)
    ensures Sort(less, a + b) == Merge(less, Sort(less, a), Sort(less, b))
  {
    if a == [] {
      assert a + b == b;
    } else {
      assert (a + b)[1..] == a[1..] + b;
      SortConcat(less, a[1..], b);
      MergeAssociative(less, [a[0]], Sort(less, a[1..]), Sort(less, b));
    }
  }

  /** The first `n` of a merge depend only on the first `n` of each side. */
  lemma {:induction false} TakeMerge<T>(less: (T, T) -> bool, x: seq<T>, y: seq<T>, x': seq<T>, y': seq<T>, n: nat)
    requires Take(x, n) == Take(x', n) && Take(y, n) == Take(y', n)
    ensures Take(Merge(less, x, y), n) == Take(Merge(less, x', y'), n)
    decreases |x| + |y|
  {
    if n == 0 || x == [] || y == [] {
    } else if less(y[0], x[0]) {
      TakeMerge(less, x, y[1..], x', y'[1..], n - 1);
    } else {
      TakeMerge(less, x[1..], y, x'[1..], y', n - 1);
    }
  }

  lemma {:induction false} MergeContents<T>(less: (T, T) -> bool, x: seq<T>, y: seq<T>)
    ensures multiset(Merge(less, x, y)) == multiset(x) + multiset(y)
    decreases |x| + |y|
  {
    if x != [] && y != [] {
      if less(y[0], x[0]) {
        MergeContents(less, x, y[1..]);
        HeadContents(y);
        HeadContents(Merge(less, x, y));
      } else {
        MergeContents(less, x[1..], y);
        HeadContents(x);
        HeadContents(Merge(less, x, y));
      }
    }
  }

  lemma HeadContents<T>(s: seq<T>)
    requires s != []
    ensures multiset(s) == multiset{s[0]} + multiset(s[1..])
  {
    assert s == [s[0]] + s[1..];
  }

  /** A bound on both lists bounds their merge. */
  lemma MergeBounded<T>(less: (T, T) -> bool, x: seq<T>, y: seq<T>, low: T)
    requires forall e | e in x :: !less(e, low)
    requires forall e | e in y :: !less(e, low)
    ensures forall e | e in Merge(less, x, y) :: !less(e, low)
  {
    MergeContents(less, x, y);
    forall e | e in Merge(less, x, y) ensures !less(e, low) {
      assert e in multiset(Merge(less, x, y));
    }
  }

  lemma SortedCons<T>(less: (T, T) -> bool, low: T, s: seq<T>)
    requires Sorted(less, s)
    requires forall e | e in s :: !less(e, low)
    ensures Sorted(less, [low] + s)
  {
    var r := [low] + s;
    forall i, j | 0 <= i < j < |r| ensures !less(r[j], r[i]) {
      assert r[j] == s[j - 1];
    }
  }

  lemma SortedHead<T>(less: (T, T) -> bool, s: seq<T>)
    requires Sorted(less, s) && s != []
    ensures Sorted(less, s[1..])
    ensures forall e | e in s[1..] :: !less(e, s[0])
  {}

  lemma {:induction false} MergeSorted<T(!new)>(less: (T, T) -> bool, x: seq<T>, y: seq<T>)
    requires WeakOrder(less) && Sorted(less, x) && Sorted(less, y)
    ensures Sorted(less, Merge(less, x, y))
    decreases |x| + |y|
  {
    if x != [] && y != [] {
      SortedHead(less, x);
      SortedHead(less, y);
      if less(y[0], x[0]) {
        MergeSorted(less, x, y[1..]);
        MergeBounded(less, x, y[1..], y[0]);
        SortedCons(less, y[0], Merge(less, x, y[1..]));
      } else {
        MergeSorted(less, x[1..], y);
        MergeBounded(less, x[1..], y, x[0]);
        SortedCons(less, x[0], Merge(less, x[1..], y));
      }
    }
  }

  // ---------- sorting ----------

  lemma {:induction false} SortSorts<T(!new)>(less: (T, T) -> bool, s: seq<T>)
    requires WeakOrder(less)
    ensures Sorted(less, Sort(less, s))
    ensures multiset(Sort(less, s)) == multiset(s)
  {
    if s != [] {
      SortSorts(less, s[1..]);
      MergeSorted(less, [s[0]], Sort(less, s[1..]));
      MergeContents(less, [s[0]], Sort(less, s[1..]));
      assert s == [s[0]] + s[1..];
    }
  }

  lemma {:induction false} SortOfSorted<T>(less: (T, T) -> bool, s: seq<T>)
    requires Sorted(less, s)
    ensures Sort(less, s) == s
  {
    if s != [] {
      SortOfSorted(less, s[1..]);
      if |s| > 1 {
        assert !less(s[1..][0], s[0]);
        assert Merge(less, [s[0]], s[1..]) == [s[0]] + s[1..];
      }
    }
  }

  /** A list without ties has one sorted arrangement. */
  lemma {:induction false} SortedUnique<T>(less: (T, T) -> bool, a: seq<T>, b: seq<T>)
    requires Sorted(less, a) && Sorted(less, b)
    requires Separated(less, a)
    requires multiset(a) == multiset(b)
    ensures a == b
  {
    if a == [] {
      assert |multiset(b)| == 0;
    } else {
      assert |multiset(b)| == |a|;
      SameHead(less, a, b);
      TailContents(a);
      TailContents(b);
      SortedUnique(less, a[1..], b[1..]);
    }
  }

  lemma TailContents<T>(s: seq<T>)
    requires s != []
    ensures multiset(s[1..]) == multiset(s) - multiset{s[0]}
  {
    assert s == [s[0]] + s[1..];
  }

  lemma SameHead<T>(less: (T, T) -> bool, a: seq<T>, b: seq<T>)
    requires Sorted(less, a) && Sorted(less, b)
    requires Separated(less, a)
    requires multiset(a) == multiset(b) && a != [] && b != []
    ensures a[0] == b[0]
  {
    assert a[0] in multiset(b) && b[0] in multiset(a);
    var j :| 0 <= j < |a| && a[j] == b[0];
    var i :| 0 <= i < |b| && b[i] == a[0];
    assert i > 0 ==> !less(b[i], b[0]);
  }

  lemma {:induction false} SeparatedPermutes<T>(less: (T, T) -> bool, a: seq<T>, b: seq<T>)
    requires Separated(less, a) && multiset(a) == multiset(b)
    requires forall x | x in a :: !less(x, x)
    ensures Separated(less, b)
  {
    forall i, j | 0 <= i < j < |b| ensures less(b[i], b[j]) || less(b[j], b[i]) {
      TwoPlaces(b, i, j);
      assert multiset{b[i], b[j]} <= multiset(a);
      var p, q := Occurs(a, b[i], b[j]);
    }
  }

  lemma TwoPlaces<T>(s: seq<T>, i: nat, j: nat)
    requires i < j < |s|
    ensures multiset{s[i], s[j]} <= multiset(s)
  {
    assert s == s[..i] + [s[i]] + s[i + 1..j] + [s[j]] + s[j + 1..];
  }

  lemma Without<T>(s: seq<T>, k: nat)
    requires k < |s|
    ensures multiset(s[..k] + s[k + 1..]) == multiset(s) - multiset{s[k]}
  {
    assert s == s[..k] + ([s[k]] + s[k + 1..]);
  }

  lemma Occurs<T>(s: seq<T>, x: T, y: T) returns (p: nat, q: nat)
    requires multiset{x, y} <= multiset(s)
    ensures p < |s| && q < |s| && p != q && s[p] == x && s[q] == y
  {
    assert x in multiset(s);
    p :| 0 <= p < |s| && s[p] == x;
    var rest := s[..p] + s[p + 1..];
    Without(s, p);
    assert y in multiset(rest);
    var k :| 0 <= k < |rest| && rest[k] == y;
    q := if k < p then k else k + 1;
  }

  /** Without ties, the sort depends only on what is in the list. */
  lemma SortPermuted<T(!new)>(less: (T, T) -> bool, a: seq<T>, b: seq<T>)
    requires WeakOrder(less) && Separated(less, a)
    requires multiset(a) == multiset(b)
    ensures Sort(less, a) == Sort(less, b)
  {
    SortSorts(less, a);
    SortSorts(less, b);
    SeparatedPermutes(less, a, Sort(less, a));
    SortedUnique(less, Sort(less, a), Sort(less, b));
  }

  // ---------- the best of many partitions ----------

  lemma SortTaken<T(!new)>(less: (T, T) -> bool, s: seq<T>, n: nat)
    requires WeakOrder(less)
    ensures Sort(less, Best(less, s, n)) == Best(less, s, n)
  {
    SortSorts(less, s);
    SortOfSorted(less, Best(less, s, n));
  }

  function BestOfEach<T>(less: (T, T) -> bool, parts: seq<seq<T>>, n: nat): (r: seq<seq<T>>)
  {
    seq(|parts|, p requires 0 <= p < |parts| => Best(less, parts[p], n))
  }

  /** The best `n` of everything are the best `n` of each partition's best `m >= n`. */
  lemma {:induction false} BestOfBests<T(!new)>(less: (T, T) -> bool, parts: seq<seq<T>>, m: nat, n: nat)
    requires WeakOrder(less) && m >= n
    ensures Best(less, Flatten(BestOfEach(less, parts, m)), n) == Best(less, Flatten(parts), n)
  {
    var tops := BestOfEach(less, parts, m);
    if parts != [] {
      assert tops[1..] == BestOfEach(less, parts[1..], m);
      var x, y := Sort(less, parts[0]), Sort(less, Flatten(parts[1..]));
      var y' := Sort(less, Flatten(tops[1..]));
      BestOfBests(less, parts[1..], m, n);
      SortConcat(less, parts[0], Flatten(parts[1..]));
      SortConcat(less, tops[0], Flatten(tops[1..]));
      SortTaken(less, parts[0], m);
      TakeMerge(less, x, y, Take(x, m), y', n);
    }
  }

  /** `r` is a top-`n` of `s`: sorted, as long as possible, and nothing left out
      comes before anything kept. */
  ghost predicate IsTop<T(!new)>(less: (T, T) -> bool, s: seq<T>, n: nat, r: seq<T>)
  {
    && Sorted(less, r)
    && |r| == (if |s| <= n then |s| else n)
    && exists rest: seq<T> ::
         && multiset(r) + multiset(rest) == multiset(s)
         && forall x, y :: x in r && y in rest ==> !less(y, x)
  }

  lemma BestIsTop<T(!new)>(less: (T, T) -> bool, s: seq<T>, n: nat)
    requires WeakOrder(less)
    ensures IsTop(less, s, n, Best(less, s, n))
  {
    SortSorts(less, s);
    var all, r := Sort(less, s), Best(less, s, n);
    var rest := all[|r|..];
    assert all == r + rest;
    assert multiset(r) + multiset(rest) == multiset(s);
    forall x, y | x in r && y in rest ensures !less(y, x) {
      var i :| 0 <= i < |r| && r[i] == x;
      var j :| 0 <= j < |rest| && rest[j] == y;
      assert all[i] == x && all[|r| + j] == y;
    }
  }

  /** Without ties there is only one. */
  lemma TopUnique<T(!new)>(less: (T, T) -> bool, s: seq<T>, n: nat, r: seq<T>)
    requires WeakOrder(less) && Separated(less, s) && IsTop(less, s, n, r)
    ensures r == Best(less, s, n)
  {
    var rest: seq<T> :| multiset(r) + multiset(rest) == multiset(s) && forall x, y :: x in r && y in rest ==> !less(y, x);
    SortSorts(less, rest);
    var tail := Sort(less, rest);
    var whole := r + tail;
    assert Sorted(less, whole) by {
      forall i, j | 0 <= i < j < |whole| ensures !less(whole[j], whole[i]) {
        if i < |r| <= j {
          assert tail[j - |r|] in multiset(rest);
          assert whole[i] in r && whole[j] in rest;
        }
      }
    }
    SortSorts(less, s);
    SeparatedPermutes(less, s, Sort(less, s));
    SortedUnique(less, Sort(less, s), whole);
  }
}
