/** Fetching many points by id: drop repeats, group the ids by owning partition, ask
    each partition only for its own, split what comes back into present points and
    missing ids. */
module BatchGet {
  import opened Store
  import opened Ranking

  datatype Row = Row(id: Id, value: Option<Record>)
  datatype Point = Point(id: Id, rec: Record)
  datatype Outcome = Answered(points: seq<Point>, missing: seq<Id>) | Unreachable(p: nat)

  ghost predicate Unique(ids: seq<Id>)
  {
    forall i, j :: 0 <= i < j < |ids| ==> ids[i] != ids[j]
  }

  // ---------- repeats ----------

  /** First occurrences, in order. */
  function Firsts(ids: seq<Id>): (r: seq<Id>)
    ensures forall id: Id :: id in r <==> id in ids
    ensures Unique(r)
  {
    if ids == [] then []
    else
      var before, last := ids[..|ids| - 1], ids[|ids| - 1];
      assert ids == before + [last];
      if last in before then Firsts(before) else Firsts(before) + [last]
  }

  predicate IsFirst(ids: seq<Id>, i: nat) { i < |ids| && ids[i] !in ids[..i] }

  /** `at` are the places where an id of `ids` occurs first, in order, and `out` the ids
      there. */
  ghost predicate FirstPlaces(ids: seq<Id>, out: seq<Id>, at: seq<nat>)
  {
    && |at| == |out|
    && (forall k :: 0 <= k < |at| ==> IsFirst(ids, at[k]) && ids[at[k]] == out[k])
    && (forall k, l :: 0 <= k < l < |at| ==> at[k] < at[l])
    && forall i: nat :: IsFirst(ids, i) ==> i in at
  }

  lemma FirstStays(ids: seq<Id>, i: nat)
    requires i < |ids| - 1
    ensures IsFirst(ids, i) <==> IsFirst(ids[..|ids| - 1], i)
  {
    assert ids[..|ids| - 1][..i] == ids[..i];
  }

  /** One more id adds its place exactly if it is new. */
  lemma FirstPlacesGrow(ids: seq<Id>, out: seq<Id>, at: seq<nat>, n: nat)
    requires |ids| == n + 1 && FirstPlaces(ids[..n], out, at)
    ensures ids[n] in ids[..n] ==> FirstPlaces(ids, out, at)
    ensures ids[n] !in ids[..n] ==> FirstPlaces(ids, out + [ids[n]], at + [n])
  {
    var before := ids[..n];
    forall k | 0 <= k < |at| ensures IsFirst(ids, at[k]) && ids[at[k]] == out[k] && at[k] < n {
      assert IsFirst(before, at[k]);
      FirstStays(ids, at[k]);
    }
    forall i: nat | IsFirst(ids, i) ensures i in at || (i == n && ids[n] !in before) {
      if i < n { FirstStays(ids, i); }
    }
    var more := at + [n];
    assert forall k :: 0 <= k < |at| ==> more[k] == at[k];
    assert forall i :: i in at ==> i in more;
    assert more[|at|] == n;
  }

  lemma {:induction false} FirstsAre(ids: seq<Id>) returns (at: seq<nat>)
    ensures FirstPlaces(ids, Firsts(ids), at)
  {
    if ids == [] {
      at := [];
    } else {
      var n := |ids| - 1;
      at := FirstsAre(ids[..n]);
      FirstPlacesGrow(ids, Firsts(ids[..n]), at, n);
      hide FirstPlaces;
      at := if ids[n] in ids[..n] then at else at + [n];
    }
  }

  /** `dedupIDs`. */
  method DedupIds(ids: seq<Id>) returns (out: seq<Id>)
    ensures out == Firsts(ids)
    ensures exists at :: FirstPlaces(ids, out, at)
  {
    ghost var at := FirstsAre(ids);
    out := [];
    var seen: set<Id> := {};
    for i := 0 to |ids|
      invariant out == Firsts(ids[..i])
      invariant forall id: Id :: id in seen <==> id in ids[..i]
    {
      assert ids[..i + 1][..i] == ids[..i];
      if ids[i] !in seen {
        seen := seen + {ids[i]};
        out := out + [ids[i]];
      }
    }
    assert ids[..|ids|] == ids;
  }

  // ---------- grouping ----------

  /** The ids partition `p` owns, in request order. */
  function Owned(route: Router, P: nat, ids: seq<Id>, p: nat): (r: seq<Id>)
    ensures forall id: Id :: id in r <==> id in ids && PartitionOf(route, id, P) == p
  {
    if ids == [] then []
    else
      var before, last := ids[..|ids| - 1], ids[|ids| - 1];
      assert ids == before + [last];
      Owned(route, P, before, p) + if PartitionOf(route, last, P) == p then [last] else []
  }

  lemma {:induction false} OwnedUnique(route: Router, P: nat, ids: seq<Id>, p: nat)
    requires Unique(ids)
    ensures Unique(Owned(route, P, ids, p))
  {
    if ids != [] {
      var before := ids[..|ids| - 1];
      OwnedUnique(route, P, before, p);
      forall i | 0 <= i < |Owned(route, P, before, p)| ensures Owned(route, P, before, p)[i] in before {}
    }
  }

  method CountIds(route: Router, P: nat, ids: seq<Id>) returns (counts: array<nat>)
    requires P > 0
    ensures fresh(counts) && counts.Length == P
    ensures forall p :: 0 <= p < P ==> counts[p] == |Owned(route, P, ids, p)|
  {
    counts := new nat[P](_ => 0);
    for i := 0 to |ids|
      invariant forall p :: 0 <= p < P ==> counts[p] == |Owned(route, P, ids[..i], p)|
    {
      assert ids[..i + 1][..i] == ids[..i];
      var p := PartitionOf(route, ids[i], P);
      counts[p] := counts[p] + 1;
    }
    assert ids[..|ids|] == ids;
  }

  /** The grouping passes: every id goes to exactly one group, and each group fills
      exactly the room the counting pass found for it. */
  method GroupIds(route: Router, P: nat, ids: seq<Id>) returns (groups: array<seq<Id>>)
    requires P > 0
    ensures fresh(groups) && groups.Length == P
    ensures forall p :: 0 <= p < P ==> groups[p] == Owned(route, P, ids, p)
  {
    var counts := CountIds(route, P, ids);
    groups := new seq<Id>[P](_ => []);
    for i := 0 to |ids|
      invariant forall p :: 0 <= p < P ==> groups[p] == Owned(route, P, ids[..i], p)
      invariant forall p :: 0 <= p < P ==> counts[p] == |Owned(route, P, ids, p)|
    {
      assert ids[..i + 1][..i] == ids[..i];
      var p := PartitionOf(route, ids[i], P);
      OwnedGrows(route, P, ids, i, p);
      assert |groups[p]| < counts[p];
      groups[p] := groups[p] + [ids[i]];
    }
    assert ids[..|ids|] == ids;
    assert forall p :: 0 <= p < P ==> |groups[p]| == counts[p];
  }

  lemma {:induction false} OwnedGrows(route: Router, P: nat, ids: seq<Id>, i: nat, p: nat)
    requires i < |ids| && PartitionOf(route, ids[i], P) == p
    ensures |Owned(route, P, ids[..i], p)| < |Owned(route, P, ids, p)|
  {
    var before := ids[..|ids| - 1];
    if i < |before| {
      assert before[..i] == ids[..i];
      OwnedGrows(route, P, before, i, p);
    }
  }

  // ---------- asking the partitions ----------

  /** One row per requested id, in request order. */
  function FetchRows(parts: Partitions, ph: Phys, sub: seq<Id>): (rows: seq<Row>)
    ensures |rows| == |sub|
  {
    seq(|sub|, i requires 0 <= i < |sub| => Row(sub[i], Read(parts, ph, sub[i])))
  }

  /** The rows of the first `n` partitions, one after the other. */
  function Fetched(route: Router, parts: Partitions, t: Route, ids: seq<Id>, n: nat): (rows: seq<Row>)
  {
    if n == 0 then []
    else Fetched(route, parts, t, ids, n - 1) + FetchRows(parts, Phys(t.gen, n - 1), Owned(route, t.P, ids, n - 1))
  }

  /** Some partition that owns a requested id does not answer. */
  predicate Blocked(route: Router, t: Route, ids: seq<Id>, up: set<Phys>, p: nat)
  {
    Owned(route, t.P, ids, p) != [] && Phys(t.gen, p) !in up
  }

  /** `scatterIDsByPartition`: the rows of every owning partition, or the lowest
      partition that failed. */
  method Scatter(route: Router, parts: Partitions, t: Route, ids: seq<Id>, up: set<Phys>) returns (rows: seq<Row>, failed: Option<nat>)
    ensures failed.Some? ==> failed.value < t.P && Blocked(route, t, ids, up, failed.value) &&
                             forall p :: 0 <= p < failed.value ==> !Blocked(route, t, ids, up, p)
    ensures failed.None? ==> forall p :: 0 <= p < t.P ==> !Blocked(route, t, ids, up, p)
    ensures failed.None? ==> rows == Fetched(route, parts, t, ids, t.P)
  {
    rows, failed := [], None;
    if t.P == 0 { return; }
    var groups := GroupIds(route, t.P, ids);
    for p := 0 to t.P
      invariant rows == Fetched(route, parts, t, ids, p)
      invariant forall q :: 0 <= q < p ==> !Blocked(route, t, ids, up, q)
      invariant forall q :: 0 <= q < t.P ==> groups[q] == Owned(route, t.P, ids, q)
    {
      if |groups[p]| > 0 {
        if Phys(t.gen, p) !in up { return rows, Some(p); }
        rows := rows + FetchRows(parts, Phys(t.gen, p), groups[p]);
      }
    }
  }

  // ---------- splitting the rows ----------

  function Found(rows: seq<Row>): (r: seq<Point>)
  {
    if rows == [] then []
    else Found(rows[..|rows| - 1]) + if rows[|rows| - 1].value.Some? then [Point(rows[|rows| - 1].id, rows[|rows| - 1].value.value)] else []
  }

  function Absent(rows: seq<Row>): (r: seq<Id>)
  {
    if rows == [] then []
    else Absent(rows[..|rows| - 1]) + if rows[|rows| - 1].value.None? then [rows[|rows| - 1].id] else []
  }

  function PointLess(): (less: (Point, Point) -> bool)
    ensures WeakOrder(less)
  {
    (a: Point, b: Point) => a.id < b.id
  }

  function IdLess(): (less: (Id, Id) -> bool)
    ensures WeakOrder(less)
  {
    (a: Id, b: Id) => a < b
  }

  /** `splitBatchRows`. */
  method SplitRows(rows: seq<Row>) returns (points: seq<Point>, missing: seq<Id>)
    ensures points == Sort(PointLess(), Found(rows)) && missing == Sort(IdLess(), Absent(rows))
  {
    points, missing := [], [];
    for i := 0 to |rows|
      invariant points == Found(rows[..i]) && missing == Absent(rows[..i])
    {
      assert rows[..i + 1][..i] == rows[..i];
      if rows[i].value.Some? {
        points := points + [Point(rows[i].id, rows[i].value.value)];
      } else {
        missing := missing + [rows[i].id];
      }
    }
    assert rows[..|rows|] == rows;
    points := Sort(PointLess(), points);
    missing := Sort(IdLess(), missing);
  }

  // ---------- the answer ----------

  ghost predicate Ascending<T>(less: (T, T) -> bool, s: seq<T>)
  {
    forall i, j :: 0 <= i < j < |s| ==> less(s[i], s[j])
  }

  /** What one shard holding `content` answers: each requested id once, in ascending
      order, as a point if it is stored and as missing if it is not. */
  ghost predicate IsAnswer(content: map<Id, Record>, ids: seq<Id>, points: seq<Point>, missing: seq<Id>)
  {
    && (forall i, j :: 0 <= i < j < |points| ==> points[i].id < points[j].id)
    && (forall i, j :: 0 <= i < j < |missing| ==> missing[i] < missing[j])
    && (forall pt :: pt in points <==> pt.id in ids && pt.id in content && content[pt.id] == pt.rec)
    && forall id: Id :: id in missing <==> id in ids && id !in content
  }

  lemma {:induction false} AscendingUnique<T(!new)>(less: (T, T) -> bool, a: seq<T>, b: seq<T>)
    requires WeakOrder(less) && Ascending(less, a) && Ascending(less, b)
    requires forall x :: x in a <==> x in b
    ensures a == b
  {
    HeadIn(b);
    if a == [] {
    } else {
      assert a[0] in b;
      var j :| 0 <= j < |b| && b[j] == a[0];
      assert b[0] in a;
      var i :| 0 <= i < |a| && a[i] == b[0];
      assert a[0] == b[0];
      forall x ensures x in a[1..] <==> x in b[1..] {
        assert x in a[1..] <==> x in a && x != a[0] by { HeadOnce(less, a, x); }
        assert x in b[1..] <==> x in b && x != b[0] by { HeadOnce(less, b, x); }
      }
      AscendingUnique(less, a[1..], b[1..]);
    }
  }

  lemma HeadIn<T>(s: seq<T>)
    ensures s != [] ==> s[0] in s
  {}

  lemma HeadOnce<T(!new)>(less: (T, T) -> bool, s: seq<T>, x: T)
    requires WeakOrder(less) && Ascending(less, s) && s != []
    ensures x in s[1..] <==> x in s && x != s[0]
  {
    assert s == [s[0]] + s[1..];
  }

  /** There is only one such answer. */
  lemma AnswerUnique(content: map<Id, Record>, ids: seq<Id>, points: seq<Point>, missing: seq<Id>, points': seq<Point>, missing': seq<Id>)
    requires IsAnswer(content, ids, points, missing) && IsAnswer(content, ids, points', missing')
    ensures points == points' && missing == missing'
  {
    AscendingUnique(PointLess(), points, points');
    AscendingUnique(IdLess(), missing, missing');
  }

  function Lookup(content: map<Id, Record>, id: Id): (v: Option<Record>)
  {
    if id in content then Some(content[id]) else None
  }

  ghost predicate RowsAnswer(content: map<Id, Record>, ids: seq<Id>, rows: seq<Row>)
  {
    && (forall i, j :: 0 <= i < j < |rows| ==> rows[i].id != rows[j].id)
    && forall row :: row in rows <==> row.id in ids && row.value == Lookup(content, row.id)
  }

  lemma {:induction false} FoundIs(rows: seq<Row>)
    requires forall i, j :: 0 <= i < j < |rows| ==> rows[i].id != rows[j].id
    ensures Separated(PointLess(), Found(rows))
    ensures forall pt :: pt in Found(rows) <==> Row(pt.id, Some(pt.rec)) in rows
  {
    if rows != [] {
      var before, last := rows[..|rows| - 1], rows[|rows| - 1];
      FoundIs(before);
      assert rows == before + [last];
      forall i | 0 <= i < |Found(before)| ensures Found(before)[i].id != last.id {
        assert Found(before)[i] in Found(before);
      }
    }
  }

  lemma {:induction false} AbsentIs(rows: seq<Row>)
    requires forall i, j :: 0 <= i < j < |rows| ==> rows[i].id != rows[j].id
    ensures Separated(IdLess(), Absent(rows))
    ensures forall id: Id :: id in Absent(rows) <==> Row(id, None) in rows
  {
    if rows != [] {
      var before, last := rows[..|rows| - 1], rows[|rows| - 1];
      AbsentIs(before);
      assert rows == before + [last];
      forall i | 0 <= i < |Absent(before)| ensures Absent(before)[i] != last.id {
        assert Absent(before)[i] in Absent(before);
      }
    }
  }

  lemma SortAscends<T(!new)>(less: (T, T) -> bool, s: seq<T>)
    requires WeakOrder(less) && Separated(less, s)
    ensures Ascending(less, Sort(less, s))
    ensures forall x :: x in Sort(less, s) <==> x in s
  {
    SortSorts(less, s);
    SeparatedPermutes(less, s, Sort(less, s));
    forall x ensures x in Sort(less, s) <==> x in s {
      assert x in multiset(Sort(less, s)) <==> x in multiset(s);
    }
  }

  lemma SplitAnswers(content: map<Id, Record>, ids: seq<Id>, rows: seq<Row>)
    requires RowsAnswer(content, ids, rows)
    ensures IsAnswer(content, ids, Sort(PointLess(), Found(rows)), Sort(IdLess(), Absent(rows)))
  {
    FoundIs(rows);
    AbsentIs(rows);
    SortAscends(PointLess(), Found(rows));
    SortAscends(IdLess(), Absent(rows));
  }

  /** `whole` is everything the partitions of `t` hold, each id read at its home. */
  ghost predicate IsUnion(route: Router, parts: Partitions, t: Route, whole: map<Id, Record>)
  {
    forall id :: Read(parts, Home(route, t, id), id) == Lookup(whole, id)
  }

  lemma {:induction false} FetchedRows(route: Router, parts: Partitions, t: Route, whole: map<Id, Record>, ids: seq<Id>, n: nat)
    requires IsUnion(route, parts, t, whole) && Unique(ids)
    ensures var rows := Fetched(route, parts, t, ids, n);
      && (forall i, j :: 0 <= i < j < |rows| ==> rows[i].id != rows[j].id)
      && forall row :: row in rows <==> row.id in ids && PartitionOf(route, row.id, t.P) < n &&
                                        row.value == Lookup(whole, row.id)
  {
    if n > 0 {
      FetchedRows(route, parts, t, whole, ids, n - 1);
      var before := Fetched(route, parts, t, ids, n - 1);
      var mine := FetchRows(parts, Phys(t.gen, n - 1), Owned(route, t.P, ids, n - 1));
      OneFetch(route, parts, t, whole, ids, n - 1);
      hide FetchRows, Owned;
      forall a, b | a in before && b in mine ensures a.id != b.id {}
      JoinRows(before, mine);
    }
  }

  lemma JoinRows(a: seq<Row>, b: seq<Row>)
    requires forall i, j :: 0 <= i < j < |a| ==> a[i].id != a[j].id
    requires forall i, j :: 0 <= i < j < |b| ==> b[i].id != b[j].id
    requires forall x, y :: x in a && y in b ==> x.id != y.id
    ensures forall i, j :: 0 <= i < j < |a + b| ==> (a + b)[i].id != (a + b)[j].id
  {
    forall i, j | 0 <= i < j < |a + b| ensures (a + b)[i].id != (a + b)[j].id {
      if i < |a| <= j { assert a[i] in a && b[j - |a|] in b; }
    }
  }

  lemma OneFetch(route: Router, parts: Partitions, t: Route, whole: map<Id, Record>, ids: seq<Id>, p: nat)
    requires IsUnion(route, parts, t, whole) && Unique(ids)
    ensures var rows := FetchRows(parts, Phys(t.gen, p), Owned(route, t.P, ids, p));
      && (forall i, j :: 0 <= i < j < |rows| ==> rows[i].id != rows[j].id)
      && forall row :: row in rows <==> row.id in ids && PartitionOf(route, row.id, t.P) == p &&
                                        row.value == Lookup(whole, row.id)
  {
    var sub := Owned(route, t.P, ids, p);
    var rows := FetchRows(parts, Phys(t.gen, p), sub);
    OwnedUnique(route, t.P, ids, p);
    forall i | 0 <= i < |sub| ensures rows[i].value == Lookup(whole, sub[i]) {
      assert sub[i] in sub;
      assert Home(route, t, sub[i]) == Phys(t.gen, p);
    }
    forall row: Row | row.id in ids && PartitionOf(route, row.id, t.P) == p && row.value == Lookup(whole, row.id)
      ensures row in rows
    {
      var i :| 0 <= i < |sub| && sub[i] == row.id;
      assert rows[i] == row;
    }
  }

  lemma {:induction false} OwnedAll(route: Router, P: nat, ids: seq<Id>)
    requires P <= 1
    ensures Owned(route, P, ids, 0) == ids
  {
    if ids != [] {
      OwnedAll(route, P, ids[..|ids| - 1]);
      assert ids == ids[..|ids| - 1] + [ids[|ids| - 1]];
    }
  }

  /** `VectorGetBatch`: for every id list and partition
      count, the answer of one shard holding the union; an owning partition that
      does not answer fails the whole batch. */
  method VectorGetBatch(route: Router, parts: Partitions, t: Route, ids: seq<Id>, up: set<Phys>, ghost whole: map<Id, Record>)
    returns (r: Outcome)
    requires IsUnion(route, parts, t, whole)
    ensures r.Answered? <==> forall id | id in ids :: Home(route, t, id) in up
    ensures r.Answered? ==> IsAnswer(whole, ids, r.points, r.missing)
    ensures r.Unreachable? ==> exists id :: id in ids && Home(route, t, id) == Phys(t.gen, r.p) && Phys(t.gen, r.p) !in up
  {
    var distinct := DedupIds(ids);
    if |distinct| == 0 {
      assert forall id: Id :: id !in ids by { assert forall id: Id :: id in distinct <==> id in ids; }
      return Answered([], []);
    }
    if t.P <= 1 {
      assert Home(route, t, distinct[0]) == Phys(t.gen, 0) && distinct[0] in ids;
      if Phys(t.gen, 0) !in up { return Unreachable(0); }
      OwnedAll(route, t.P, distinct);
      OneFetch(route, parts, t, whole, distinct, 0);
      var rows := FetchRows(parts, Phys(t.gen, 0), distinct);
      assert RowsAnswer(whole, ids, rows);
      SplitAnswers(whole, ids, rows);
      var points, missing := SplitRows(rows);
      return Answered(points, missing);
    }
    var rows, failed := Scatter(route, parts, t, distinct, up);
    if failed.Some? {
      ghost var id := Owned(route, t.P, distinct, failed.value)[0];
      assert id in Owned(route, t.P, distinct, failed.value);
      assert id in ids && Home(route, t, id) == Phys(t.gen, failed.value);
      return Unreachable(failed.value);
    }
    forall id | id in ids ensures Home(route, t, id) in up {
      var p := PartitionOf(route, id, t.P);
      assert id in Owned(route, t.P, distinct, p);
      assert !Blocked(route, t, distinct, up, p);
    }
    FetchedRows(route, parts, t, whole, distinct, t.P);
    assert RowsAnswer(whole, ids, rows);
    SplitAnswers(whole, ids, rows);
    var points, missing := SplitRows(rows);
    r := Answered(points, missing);
  }
}
