/** Cursor pagination across partitions.

    Each page asks every partition for its first `limit` documents past the cursor,
    merges the replies, keeps `limit` of them, and hands out the last one as the next
    cursor when the page is full.  The partitions are read at different moments and
    change between pages. */
module Scroll {
  import opened Store
  import opened Ranking
  import opened QueryMerge

  /** A listed document; `key` is the value of the order-by fields. */
  datatype Doc<K> = Doc(id: Id, key: K)

  /** (key, id) order for any order on keys: ascending or descending numbers,
      strings, tuples, or, for an id scroll, no order at all. */
  function Earlier<K>(keyLess: (K, K) -> bool): (less: (Doc<K>, Doc<K>) -> bool)
  {
    (a: Doc<K>, b: Doc<K>) => keyLess(a.key, b.key) || (!keyLess(b.key, a.key) && a.id < b.id)
  }

  /** A strict weak order in which different ids never tie. */
  ghost predicate DocOrder<K(!new)>(less: (Doc<K>, Doc<K>) -> bool)
  {
    WeakOrder(less) && forall a: Doc<K>, b: Doc<K> :: a.id != b.id ==> less(a, b) || less(b, a)
  }

  lemma EarlierIsOrder<K(!new)>(keyLess: (K, K) -> bool)
    requires WeakOrder(keyLess)
    ensures DocOrder(Earlier(keyLess))
  {
    var less := Earlier(keyLess);
    forall a: Doc<K>, b: Doc<K>, c: Doc<K>
      ensures !less(a, a) && (a.id != b.id ==> less(a, b) || less(b, a))
      ensures less(a, b) && less(b, c) ==> less(a, c)
      ensures less(a, b) ==> less(a, c) || less(c, b)
    {
      assert keyLess(a.key, b.key) ==> keyLess(a.key, c.key) || keyLess(c.key, b.key);
      assert keyLess(b.key, c.key) ==> keyLess(b.key, a.key) || keyLess(a.key, c.key);
      assert keyLess(c.key, a.key) ==> keyLess(c.key, b.key) || keyLess(b.key, a.key);
    }
  }

  ghost predicate UniqueIds<K>(s: seq<Doc<K>>)
  {
    forall i, j :: 0 <= i < j < |s| ==> s[i].id != s[j].id
  }

  function After<K(!new)>(less: (Doc<K>, Doc<K>) -> bool, cursor: Option<Doc<K>>, s: seq<Doc<K>>): (r: seq<Doc<K>>)
    ensures forall d :: d in r <==> d in s && (cursor.Some? ==> less(cursor.value, d))
  {
    if s == [] then []
    else if cursor.Some? && !less(cursor.value, s[0]) then After(less, cursor, s[1..])
    else [s[0]] + After(less, cursor, s[1..])
  }

  /** What one partition replies; a limit of zero means no limit. */
  function PartPage<K(!new)>(less: (Doc<K>, Doc<K>) -> bool, part: seq<Doc<K>>, limit: nat, cursor: Option<Doc<K>>): (r: seq<Doc<K>>)
  {
    var found := After(less, cursor, part);
    Best(less, found, if limit > 0 then limit else |found|)
  }

  function PartPages<K(!new)>(less: (Doc<K>, Doc<K>) -> bool, parts: seq<seq<Doc<K>>>, limit: nat, cursor: Option<Doc<K>>): (r: seq<seq<Doc<K>>>)
    ensures |r| == |parts|
  {
    seq(|parts|, p requires 0 <= p < |parts| => PartPage(less, parts[p], limit, cursor))
  }

  /** The page one partition holding everything would reply. */
  function Page<K(!new)>(less: (Doc<K>, Doc<K>) -> bool, parts: seq<seq<Doc<K>>>, limit: nat, cursor: Option<Doc<K>>): (r: seq<Doc<K>>)
  {
    PartPage(less, Flatten(parts), limit, cursor)
  }

  /** `scrollNextCursor`: the last document of a full page. */
  function NextCursor<K>(page: seq<Doc<K>>, limit: nat): (c: Option<Doc<K>>)
    ensures c.Some? <==> 0 < limit == |page|
  {
    if limit > 0 && |page| == limit then Some(page[|page| - 1]) else None
  }

  // ---------- one page ----------

  lemma {:induction false} AfterConcat<K(!new)>(less: (Doc<K>, Doc<K>) -> bool, cursor: Option<Doc<K>>, a: seq<Doc<K>>, b: seq<Doc<K>>)
    ensures After(less, cursor, a + b) == After(less, cursor, a) + After(less, cursor, b)
  {
    if a == [] {
      assert a + b == b;
    } else {
      assert (a + b)[1..] == a[1..] + b;
      AfterConcat(less, cursor, a[1..], b);
    }
  }

  function AfterEach<K(!new)>(less: (Doc<K>, Doc<K>) -> bool, cursor: Option<Doc<K>>, parts: seq<seq<Doc<K>>>): (r: seq<seq<Doc<K>>>)
    ensures |r| == |parts|
  {
    seq(|parts|, p requires 0 <= p < |parts| => After(less, cursor, parts[p]))
  }

  lemma {:induction false} AfterFlatten<K(!new)>(less: (Doc<K>, Doc<K>) -> bool, cursor: Option<Doc<K>>, parts: seq<seq<Doc<K>>>)
    ensures Flatten(AfterEach(less, cursor, parts)) == After(less, cursor, Flatten(parts))
  {
    if parts != [] {
      assert AfterEach(less, cursor, parts)[1..] == AfterEach(less, cursor, parts[1..]);
      AfterFlatten(less, cursor, parts[1..]);
      AfterConcat(less, cursor, parts[0], Flatten(parts[1..]));
    }
  }

  lemma {:induction false} SortEach<T(!new)>(less: (T, T) -> bool, parts: seq<seq<T>>, sorted: seq<seq<T>>)
    requires WeakOrder(less) && |sorted| == |parts|
    requires forall p :: 0 <= p < |parts| ==> sorted[p] == Sort(less, parts[p])
    ensures Sort(less, Flatten(sorted)) == Sort(less, Flatten(parts))
    ensures |Flatten(sorted)| == |Flatten(parts)|
  {
    if parts != [] {
      SortEach(less, parts[1..], sorted[1..]);
      SortConcat(less, parts[0], Flatten(parts[1..]));
      SortConcat(less, sorted[0], Flatten(sorted[1..]));
      SortSorts(less, parts[0]);
      SortOfSorted(less, sorted[0]);
    }
  }

  /** Merging the partitions' pages gives the page of the whole. */
  lemma MergedPage<K(!new)>(less: (Doc<K>, Doc<K>) -> bool, parts: seq<seq<Doc<K>>>, limit: nat, cursor: Option<Doc<K>>)
    requires WeakOrder(less)
    ensures limit > 0 ==> Best(less, Flatten(PartPages(less, parts, limit, cursor)), limit) == Page(less, parts, limit, cursor)
    ensures limit == 0 ==> Sort(less, Flatten(PartPages(less, parts, limit, cursor))) == Page(less, parts, limit, cursor)
  {
    AfterFlatten(less, cursor, parts);
    var found, pages := AfterEach(less, cursor, parts), PartPages(less, parts, limit, cursor);
    if limit > 0 {
      assert pages == BestOfEach(less, found, limit);
      BestOfBests(less, found, limit, limit);
    } else {
      SortEach(less, found, pages);
    }
  }

  /** Ascending by key, and among equal keys by id. */
  ghost predicate InOrder<K>(keyLess: (K, K) -> bool, page: seq<Doc<K>>)
  {
    forall i, j :: 0 <= i < j < |page| ==>
      !keyLess(page[j].key, page[i].key) && (keyLess(page[i].key, page[j].key) || page[i].id <= page[j].id)
  }

  /** What a page is: in order, and a top of everything past the cursor, or all of it if
      there is no limit. */
  ghost predicate PageMeans<K(!new)>(keyLess: (K, K) -> bool, s: seq<Doc<K>>, limit: nat, cursor: Option<Doc<K>>, page: seq<Doc<K>>)
  {
    var found := After(Earlier(keyLess), cursor, s);
    && InOrder(keyLess, page)
    && (limit > 0 ==> IsTop(Earlier(keyLess), found, limit, page))
    && (limit == 0 ==> multiset(page) == multiset(found))
  }

  lemma PageInOrder<K(!new)>(keyLess: (K, K) -> bool, s: seq<Doc<K>>, limit: nat, cursor: Option<Doc<K>>)
    requires WeakOrder(keyLess)
    ensures PageMeans(keyLess, s, limit, cursor, PartPage(Earlier(keyLess), s, limit, cursor))
  {
    var less, found := Earlier(keyLess), After(Earlier(keyLess), cursor, s);
    EarlierIsOrder(keyLess);
    SortSorts(less, found);
    var page := PartPage(less, s, limit, cursor);
    BestIsTop(less, found, if limit > 0 then limit else |found|);
    forall i, j | 0 <= i < j < |page|
      ensures !keyLess(page[j].key, page[i].key) && (keyLess(page[i].key, page[j].key) || page[i].id <= page[j].id)
    {
      assert !less(page[j], page[i]);
    }
  }

  /** Sorting and cutting the partitions' replies gives the page of the whole. */
  lemma PageComputed<K(!new)>(keyLess: (K, K) -> bool, parts: seq<seq<Doc<K>>>, limit: nat, cursor: Option<Doc<K>>)
    requires WeakOrder(keyLess)
    ensures var less := Earlier(keyLess);
      var all := Sort(less, Flatten(PartPages(less, parts, limit, cursor)));
      var page := Page(less, parts, limit, cursor);
      && page == (if limit > 0 then Take(all, limit) else all)
      && PageMeans(keyLess, Flatten(parts), limit, cursor, page)
  {
    hide PageMeans;
    EarlierIsOrder(keyLess);
    MergedPage(Earlier(keyLess), parts, limit, cursor);
    PageInOrder(keyLess, Flatten(parts), limit, cursor);
  }

  /** `scrollFanOut`: union, sort, cut, next cursor. */
  method ScrollFanOut<K(!new)>(keyLess: (K, K) -> bool, parts: seq<seq<Doc<K>>>, limit: nat, cursor: Option<Doc<K>>)
    returns (page: seq<Doc<K>>, next: Option<Doc<K>>)
    requires WeakOrder(keyLess)
    ensures page == Page(Earlier(keyLess), parts, limit, cursor)
    ensures next == NextCursor(page, limit)
    ensures PageMeans(keyLess, Flatten(parts), limit, cursor, page)
  {
    PageComputed(keyLess, parts, limit, cursor);
    hide PageMeans, Page, PartPages, Sort, WeakOrder, Earlier, Flatten;
    var less := Earlier(keyLess);
    page := Concat(PartPages(less, parts, limit, cursor));
    page := Sort(less, page);
    if limit > 0 && |page| > limit {
      page := page[..limit];
    }
    next := if limit > 0 && |page| == limit then Some(page[|page| - 1]) else None;
  }

  // ---------- ids stay unique ----------

  lemma UniquePermutes<K>(a: seq<Doc<K>>, b: seq<Doc<K>>)
    requires UniqueIds(a) && multiset(a) == multiset(b)
    ensures UniqueIds(b)
  {
    forall i, j | 0 <= i < j < |b| ensures b[i].id != b[j].id {
      TwoPlaces(b, i, j);
      var p, q := Occurs(a, b[i], b[j]);
    }
  }

  lemma {:induction false} AfterUnique<K(!new)>(less: (Doc<K>, Doc<K>) -> bool, cursor: Option<Doc<K>>, s: seq<Doc<K>>)
    requires UniqueIds(s)
    ensures UniqueIds(After(less, cursor, s))
  {
    if s != [] {
      AfterUnique(less, cursor, s[1..]);
      var rest := After(less, cursor, s[1..]);
      forall j | 0 <= j < |rest| ensures rest[j].id != s[0].id {
        assert rest[j] in s[1..];
      }
    }
  }

  /** What one page is: the documents past the cursor in order, up to the limit. */
  lemma PageOf<K(!new)>(less: (Doc<K>, Doc<K>) -> bool, s: seq<Doc<K>>, limit: nat, cursor: Option<Doc<K>>) returns (all: seq<Doc<K>>)
    requires DocOrder(less) && UniqueIds(s)
    ensures multiset(all) == multiset(After(less, cursor, s)) && Sorted(less, all) && UniqueIds(all)
    ensures PartPage(less, s, limit, cursor) == if limit > 0 then Take(all, limit) else all
  {
    var found := After(less, cursor, s);
    all := Sort(less, found);
    SortSorts(less, found);
    AfterUnique(less, cursor, s);
    UniquePermutes(found, all);
  }

  lemma PageUnique<K(!new)>(less: (Doc<K>, Doc<K>) -> bool, s: seq<Doc<K>>, limit: nat, cursor: Option<Doc<K>>)
    requires DocOrder(less) && UniqueIds(s)
    ensures UniqueIds(PartPage(less, s, limit, cursor))
    ensures forall d :: d in PartPage(less, s, limit, cursor) ==> d in After(less, cursor, s)
  {
    var all := PageOf(less, s, limit, cursor);
    forall d | d in PartPage(less, s, limit, cursor) ensures d in After(less, cursor, s) {
      assert d in multiset(all);
    }
  }

  /** A document past the cursor is on the page, or past the next cursor. */
  lemma PageReaches<K(!new)>(less: (Doc<K>, Doc<K>) -> bool, s: seq<Doc<K>>, limit: nat, cursor: Option<Doc<K>>, d: Doc<K>)
    requires DocOrder(less) && UniqueIds(s)
    requires d in After(less, cursor, s)
    ensures var page := PartPage(less, s, limit, cursor);
      d in page || (NextCursor(page, limit).Some? && less(NextCursor(page, limit).value, d))
  {
    var all := PageOf(less, s, limit, cursor);
    assert d in multiset(all);
    var k :| 0 <= k < |all| && all[k] == d;
    var page := PartPage(less, s, limit, cursor);
    if k >= |page| {
      assert !less(all[k], all[|page| - 1]) && all[|page| - 1].id != d.id;
    }
  }

  /** A document on the page is not past the next cursor, and the next cursor is past
      the one before. */
  lemma PagePasses<K(!new)>(less: (Doc<K>, Doc<K>) -> bool, s: seq<Doc<K>>, limit: nat, cursor: Option<Doc<K>>)
    requires DocOrder(less) && UniqueIds(s)
    ensures var page := PartPage(less, s, limit, cursor);
      var next := NextCursor(page, limit);
      next.Some? ==> next.value in page && (forall d :: d in page ==> !less(next.value, d)) && (cursor.Some? ==> less(cursor.value, next.value))
  {
    var all := PageOf(less, s, limit, cursor);
    PageUnique(less, s, limit, cursor);
    var page := PartPage(less, s, limit, cursor);
    if NextCursor(page, limit).Some? {
      forall d | d in page ensures !less(page[limit - 1], d) {
        var k :| 0 <= k < |page| && page[k] == d;
        assert k < limit - 1 ==> !less(all[limit - 1], all[k]);
      }
    }
  }

  // ---------- a whole scroll ----------

  /** One page request: each partition's contents when it was read, and the page. */
  datatype Visit<K> = Visit(parts: seq<seq<Doc<K>>>, page: seq<Doc<K>>)

  /** Every document is on the partition its id routes to, ids unique there. */
  ghost predicate Placed<K>(route: Router, P: nat, parts: seq<seq<Doc<K>>>)
  {
    && |parts| == P
    && forall p :: 0 <= p < P ==> UniqueIds(parts[p]) && forall d :: d in parts[p] ==> PartitionOf(route, d.id, P) == p
  }

  /** Pages requested one after the other while the cursor is not empty. */
  ghost predicate IsScroll<K(!new)>(less: (Doc<K>, Doc<K>) -> bool, limit: nat, visits: seq<Visit<K>>, cursors: seq<Option<Doc<K>>>)
  {
    && |cursors| == |visits| + 1
    && cursors[0] == None
    && (forall i :: 0 < i < |visits| ==> cursors[i].Some?)
    && forall i :: 0 <= i < |visits| ==>
         && visits[i].page == Page(less, visits[i].parts, limit, cursors[i])
         && cursors[i + 1] == NextCursor(visits[i].page, limit)
  }

  ghost predicate AllPlaced<K>(route: Router, P: nat, visits: seq<Visit<K>>)
  {
    forall i :: 0 <= i < |visits| ==> Placed(route, P, visits[i].parts)
  }

  lemma {:induction false} FlattenUnique<K>(route: Router, P: nat, parts: seq<seq<Doc<K>>>, from: nat)
    requires Placed(route, P, parts) && from <= P
    ensures UniqueIds(Flatten(parts[from..]))
    ensures forall d :: d in Flatten(parts[from..]) ==> from <= PartitionOf(route, d.id, P)
    decreases P - from
  {
    if from < P {
      FlattenUnique(route, P, parts, from + 1);
      assert parts[from..][1..] == parts[from + 1..];
      var a: seq<Doc<K>>, b: seq<Doc<K>> := parts[from], Flatten(parts[from + 1..]);
      assert Flatten(parts[from..]) == a + b;
      var ab := a + b;
      forall i, j | 0 <= i < j < |ab| ensures ab[i].id != ab[j].id {
        if i < |a| <= j {
          assert a[i] in a && b[j - |a|] in b;
        }
      }
    }
  }

  lemma WholeUnique<K>(route: Router, P: nat, parts: seq<seq<Doc<K>>>)
    requires Placed(route, P, parts)
    ensures UniqueIds(Flatten(parts))
  {
    FlattenUnique(route, P, parts, 0);
    assert parts[0..] == parts;
  }

  /** Each cursor is strictly past every earlier one. */
  lemma {:induction false} CursorsAdvance<K(!new)>(less: (Doc<K>, Doc<K>) -> bool, route: Router, P: nat, limit: nat,
                                                   visits: seq<Visit<K>>, cursors: seq<Option<Doc<K>>>, i: nat, j: nat)
    requires DocOrder(less) && IsScroll(less, limit, visits, cursors) && AllPlaced(route, P, visits)
    requires 0 < i < j <= |visits| && cursors[j].Some?
    ensures cursors[i].Some? && less(cursors[i].value, cursors[j].value)
    decreases j
  {
    WholeUnique(route, P, visits[j - 1].parts);
    PagePasses(less, Flatten(visits[j - 1].parts), limit, cursors[j - 1]);
    if i < j - 1 { CursorsAdvance(less, route, P, limit, visits, cursors, i, j - 1); }
  }

  /** `d` is stored, unchanged, whenever its partition is read. */
  ghost predicate Stable<K>(visits: seq<Visit<K>>, d: Doc<K>)
  {
    forall i :: 0 <= i < |visits| ==> d in Flatten(visits[i].parts)
  }

  ghost predicate PastCursor<K>(less: (Doc<K>, Doc<K>) -> bool, cursor: Option<Doc<K>>, d: Doc<K>)
  {
    cursor.Some? ==> less(cursor.value, d)
  }

  /** A stable document no page has shown yet is still ahead. */
  lemma {:induction false} AheadUntilShown<K(!new)>(less: (Doc<K>, Doc<K>) -> bool, route: Router, P: nat, limit: nat,
                                                    visits: seq<Visit<K>>, cursors: seq<Option<Doc<K>>>, d: Doc<K>, n: nat)
    requires DocOrder(less) && IsScroll(less, limit, visits, cursors) && AllPlaced(route, P, visits)
    requires Stable(visits, d) && n <= |visits|
    requires forall i :: 0 <= i < n ==> d !in visits[i].page
    ensures PastCursor(less, cursors[n], d) && (n > 0 ==> cursors[n].Some?)
  {
    if n > 0 {
      AheadUntilShown(less, route, P, limit, visits, cursors, d, n - 1);
      WholeUnique(route, P, visits[n - 1].parts);
      PageReaches(less, Flatten(visits[n - 1].parts), limit, cursors[n - 1], d);
    }
  }

  /** No page after the one that shows `d` shows it again. */
  lemma NotShownAgain<K(!new)>(less: (Doc<K>, Doc<K>) -> bool, route: Router, P: nat, limit: nat,
                               visits: seq<Visit<K>>, cursors: seq<Option<Doc<K>>>, d: Doc<K>, i: nat, j: nat)
    requires DocOrder(less) && IsScroll(less, limit, visits, cursors) && AllPlaced(route, P, visits)
    requires i < j < |visits| && d in visits[i].page
    ensures d !in visits[j].page
  {
    WholeUnique(route, P, visits[i].parts);
    WholeUnique(route, P, visits[j].parts);
    PagePasses(less, Flatten(visits[i].parts), limit, cursors[i]);
    PageUnique(less, Flatten(visits[j].parts), limit, cursors[j]);
    if i + 1 < j { CursorsAdvance(less, route, P, limit, visits, cursors, i + 1, j); }
  }

  /** The exact place of a document in a scroll. */
  ghost predicate ShownOnlyAt<K>(visits: seq<Visit<K>>, id: Id, i: nat, k: nat)
  {
    && i < |visits| && k < |visits[i].page| && visits[i].page[k].id == id
    && forall j, m :: 0 <= j < |visits| && 0 <= m < |visits[j].page| && visits[j].page[m].id == id ==> j == i && m == k
  }

  /** Only `d` itself can be shown under a stable document's id. */
  lemma ShownIsStable<K(!new)>(less: (Doc<K>, Doc<K>) -> bool, route: Router, P: nat, limit: nat,
                               visits: seq<Visit<K>>, cursors: seq<Option<Doc<K>>>, d: Doc<K>, j: nat, m: nat)
    requires DocOrder(less) && IsScroll(less, limit, visits, cursors) && AllPlaced(route, P, visits)
    requires Stable(visits, d) && j < |visits| && m < |visits[j].page| && visits[j].page[m].id == d.id
    ensures visits[j].page[m] == d && UniqueIds(visits[j].page)
  {
    var whole := Flatten(visits[j].parts);
    WholeUnique(route, P, visits[j].parts);
    PageUnique(less, whole, limit, cursors[j]);
    assert visits[j].page[m] in visits[j].page;
    assert d in whole && visits[j].page[m] in whole;
  }

  /** Pagination under change: once the cursor is empty, a document stored unchanged
      throughout has been shown exactly once. */
  lemma ShownExactlyOnce<K(!new)>(keyLess: (K, K) -> bool, route: Router, P: nat, limit: nat,
                                  visits: seq<Visit<K>>, cursors: seq<Option<Doc<K>>>, d: Doc<K>)
    returns (i: nat, k: nat)
    requires WeakOrder(keyLess) && IsScroll(Earlier(keyLess), limit, visits, cursors) && AllPlaced(route, P, visits)
    requires |visits| > 0 && cursors[|visits|] == None
    requires Stable(visits, d)
    ensures ShownOnlyAt(visits, d.id, i, k) && visits[i].page[k] == d
  {
    var less := Earlier(keyLess);
    EarlierIsOrder(keyLess);
    if forall n :: 0 <= n < |visits| ==> d !in visits[n].page {
      AheadUntilShown(less, route, P, limit, visits, cursors, d, |visits|);
    }
    i :| 0 <= i < |visits| && d in visits[i].page;
    k :| 0 <= k < |visits[i].page| && visits[i].page[k] == d;
    forall j, m | 0 <= j < |visits| && 0 <= m < |visits[j].page| && visits[j].page[m].id == d.id ensures j == i && m == k {
      ShownIsStable(less, route, P, limit, visits, cursors, d, j, m);
      if i < j { NotShownAgain(less, route, P, limit, visits, cursors, d, i, j); }
      if j < i { NotShownAgain(less, route, P, limit, visits, cursors, d, j, i); }
    }
  }

  /** An id scroll ends: by its `n`-th cursor it is past `n - 1` ids, whatever is
      inserted meanwhile. */
  lemma {:induction false} IdScrollAdvances<K(!new)>(route: Router, P: nat, limit: nat,
                                                     visits: seq<Visit<K>>, cursors: seq<Option<Doc<K>>>, n: nat)
    requires IsScroll(Earlier((a: K, b: K) => false), limit, visits, cursors) && AllPlaced(route, P, visits)
    requires 0 < n <= |visits| && cursors[n].Some?
    ensures cursors[n].value.id >= n - 1
  {
    var keyLess := (a: K, b: K) => false;
    EarlierIsOrder(keyLess);
    if n > 1 {
      IdScrollAdvances(route, P, limit, visits, cursors, n - 1);
      CursorsAdvance(Earlier(keyLess), route, P, limit, visits, cursors, n - 1, n);
    }
  }

  /** With ids below `bound` (2^64 in the store) there are at most `bound + 1` pages. */
  lemma IdScrollTerminates<K(!new)>(route: Router, P: nat, limit: nat, visits: seq<Visit<K>>, cursors: seq<Option<Doc<K>>>, bound: nat)
    requires IsScroll(Earlier((a: K, b: K) => false), limit, visits, cursors) && AllPlaced(route, P, visits)
    requires forall i, d :: 0 <= i < |visits| && d in visits[i].page ==> d.id < bound
    ensures |visits| <= bound + 1
  {
    var n := |visits| - 1;
    if n > 0 {
      IdScrollAdvances(route, P, limit, visits, cursors, n);
      assert cursors[n].value in visits[n - 1].page;
    }
  }

  // ---------- static data ----------

  function Pages<K>(visits: seq<Visit<K>>): (r: seq<seq<Doc<K>>>)
    ensures |r| == |visits|
  {
    seq(|visits|, i requires 0 <= i < |visits| => visits[i].page)
  }

  /** Cutting a sorted list at one of its members leaves what is past that member. */
  lemma {:induction false} AfterSorted<K(!new)>(less: (Doc<K>, Doc<K>) -> bool, all: seq<Doc<K>>, n: nat)
    requires DocOrder(less) && Sorted(less, all) && UniqueIds(all) && 0 < n <= |all|
    ensures After(less, Some(all[n - 1]), all) == all[n..]
  {
    var cursor := Some(all[n - 1]);
    assert all == all[..n] + all[n..];
    AfterConcat(less, cursor, all[..n], all[n..]);
    AfterNone(less, cursor, all[..n]);
    AfterAll(less, cursor, all[n..]);
  }

  lemma {:induction false} AfterNone<K(!new)>(less: (Doc<K>, Doc<K>) -> bool, cursor: Option<Doc<K>>, s: seq<Doc<K>>)
    requires cursor.Some? && forall i :: 0 <= i < |s| ==> !less(cursor.value, s[i])
    ensures After(less, cursor, s) == []
  {
    if s != [] { AfterNone(less, cursor, s[1..]); }
  }

  lemma {:induction false} AfterAll<K(!new)>(less: (Doc<K>, Doc<K>) -> bool, cursor: Option<Doc<K>>, s: seq<Doc<K>>)
    requires cursor.Some? ==> forall i :: 0 <= i < |s| ==> less(cursor.value, s[i])
    ensures After(less, cursor, s) == s
  {
    if s != [] { AfterAll(less, cursor, s[1..]); }
  }

  lemma {:induction false} AfterCount<K(!new)>(less: (Doc<K>, Doc<K>) -> bool, cursor: Option<Doc<K>>, s: seq<Doc<K>>, d: Doc<K>)
    ensures multiset(After(less, cursor, s))[d] == if PastCursor(less, cursor, d) then multiset(s)[d] else 0
  {
    if s != [] {
      AfterCount(less, cursor, s[1..], d);
      assert s == [s[0]] + s[1..];
    }
  }

  /** The rest of a sorted list is what is past the cursor, sorted. */
  lemma RestSorted<K(!new)>(less: (Doc<K>, Doc<K>) -> bool, s: seq<Doc<K>>, n: nat)
    requires DocOrder(less) && UniqueIds(s) && 0 < n <= |s|
    ensures var all := Sort(less, s); Sort(less, After(less, Some(all[n - 1]), s)) == all[n..]
  {
    var all := Sort(less, s);
    SortSorts(less, s);
    UniquePermutes(s, all);
    AfterSorted(less, all, n);
    var cursor := Some(all[n - 1]);
    var found := After(less, cursor, s);
    SortSorts(less, found);
    forall d ensures multiset(found)[d] == multiset(all[n..])[d] {
      AfterCount(less, cursor, s, d);
      AfterCount(less, cursor, all, d);
    }
    assert multiset(found) == multiset(all[n..]);
    SortedUnique(less, all[n..], Sort(less, found));
  }

  /** The pages so far are a prefix of the sorted list, the cursor its last document;
      an empty cursor means everything, except before the first page. */
  ghost predicate Progress<K>(all: seq<Doc<K>>, done: seq<Doc<K>>, cursor: Option<Doc<K>>, started: bool)
  {
    && done <= all
    && (cursor.Some? ==> |done| > 0 && cursor.value == all[|done| - 1])
    && (cursor.None? ==> if started then done == all else done == [])
  }

  lemma {:induction false} StaticPrefix<K(!new)>(less: (Doc<K>, Doc<K>) -> bool, limit: nat, s: seq<Doc<K>>,
                                                 visits: seq<Visit<K>>, cursors: seq<Option<Doc<K>>>, n: nat)
    requires DocOrder(less) && IsScroll(less, limit, visits, cursors) && UniqueIds(s)
    requires forall i :: 0 <= i < |visits| ==> Flatten(visits[i].parts) == s
    requires n <= |visits|
    ensures Progress(Sort(less, s), Flatten(Pages(visits[..n])), cursors[n], n > 0)
  {
    if n > 0 {
      StaticPrefix(less, limit, s, visits, cursors, n - 1);
      var page := visits[n - 1].page;
      assert Pages(visits[..n]) == Pages(visits[..n - 1]) + [page];
      FlattenSnoc(Pages(visits[..n - 1]), page);
      assert Flatten(visits[n - 1].parts) == s;
      assert page == PartPage(less, s, limit, cursors[n - 1]);
      StaticStep(less, limit, s, Flatten(Pages(visits[..n - 1])), cursors[n - 1], n > 1);
    }
  }

  lemma StaticStep<K(!new)>(less: (Doc<K>, Doc<K>) -> bool, limit: nat, s: seq<Doc<K>>, done: seq<Doc<K>>, cursor: Option<Doc<K>>, started: bool)
    requires DocOrder(less) && UniqueIds(s)
    requires Progress(Sort(less, s), done, cursor, started) && (started ==> cursor.Some?)
    ensures var page := PartPage(less, s, limit, cursor);
      Progress(Sort(less, s), done + page, NextCursor(page, limit), true)
  {
    hide Sort, PartPage, NextCursor, DocOrder, UniqueIds;
    StaticPage(less, limit, s, cursor, |done|);
    ExtendPrefix(Sort(less, s), done, PartPage(less, s, limit, cursor), limit);
  }

  lemma ExtendPrefix<K>(all: seq<Doc<K>>, before: seq<Doc<K>>, page: seq<Doc<K>>, limit: nat)
    requires before <= all
    requires page == if limit > 0 then Take(all[|before|..], limit) else all[|before|..]
    ensures before + page <= all
    ensures NextCursor(page, limit).Some? ==> NextCursor(page, limit).value == all[|before + page| - 1]
    ensures NextCursor(page, limit).None? ==> before + page == all
  {
    assert all == before + all[|before|..];
  }

  lemma StaticPage<K(!new)>(less: (Doc<K>, Doc<K>) -> bool, limit: nat, s: seq<Doc<K>>, cursor: Option<Doc<K>>, n: nat)
    requires DocOrder(less) && UniqueIds(s) && n <= |s|
    requires if cursor.Some? then n > 0 && cursor.value == Sort(less, s)[n - 1] else n == 0
    ensures PartPage(less, s, limit, cursor) == (if limit > 0 then Take(Sort(less, s)[n..], limit) else Sort(less, s)[n..])
  {
    if cursor.Some? { RestSorted(less, s, n); } else { AfterAll(less, cursor, s); }
  }

  /** On unchanging data the pages of a finished scroll are the sorted list, cut up. */
  lemma StaticPages<K(!new)>(keyLess: (K, K) -> bool, limit: nat, s: seq<Doc<K>>, visits: seq<Visit<K>>, cursors: seq<Option<Doc<K>>>)
    requires WeakOrder(keyLess) && IsScroll(Earlier(keyLess), limit, visits, cursors) && UniqueIds(s)
    requires forall i :: 0 <= i < |visits| ==> Flatten(visits[i].parts) == s
    requires |visits| > 0 && cursors[|visits|] == None
    ensures Flatten(Pages(visits)) == Sort(Earlier(keyLess), s)
  {
    EarlierIsOrder(keyLess);
    StaticPrefix(Earlier(keyLess), limit, s, visits, cursors, |visits|);
    assert visits[..|visits|] == visits;
  }
}
