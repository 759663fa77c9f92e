/** The comparison of two estimates, row by row and in total. */
module Delta {
  import opened Results
  import opened Ordering
  import opened Folds
  import opened Cost

  datatype Change = Added | Removed | Modified | Unchanged

  datatype WorkloadDelta = WorkloadDelta(
    ref: string,
    change: Change,
    beforeUSD: real,
    afterUSD: real,
    deltaUSD: real,
    beforeReps: int,
    afterReps: int,
    flags: seq<Flag>,
    autoscaled: bool,
    minReplicas: int,
    maxReplicas: int,
    floorUSD: real)

  /** The headline figures: of the authorised ceiling, and of the committed floor. */
  datatype Money = Money(
    baselineMonthlyUSD: real,
    projectedMonthlyUSD: real,
    deltaMonthlyUSD: real,
    percentIncrease: real,
    hasPercentBasis: bool,
    estateBaselineMonthlyUSD: real,
    committedBaselineUSD: real,
    committedProjectedUSD: real,
    committedDeltaUSD: real,
    committedPercent: real,
    hasCommittedBasis: bool)

  datatype Delta = Delta(money: Money, workloads: seq<WorkloadDelta>, flags: seq<string>)

  const NO_WORKLOAD: Workload :=
    Workload("", "", "", 0, NOTHING, NOTHING, 0.0, false, 0, 0, 0.0, [])

  function RefEntry(w: Workload): Option<(string, Workload)> {
    Some((w.Ref(), w))
  }

  /** The workloads of an estimate by reference; of several with one reference, the last. */
  function ByRef(ws: seq<Workload>): map<string, Workload> {
    Index(RefEntry, ws)
  }

  function OrNone(w: Option<Workload>): Workload {
    if w.Some? then w.value else NO_WORKLOAD
  }

  function ChangeOf(before: Option<Workload>, after: Option<Workload>): Change {
    if before.None? then Added
    else if after.None? then Removed
    else if after.value.monthlyUSD - before.value.monthlyUSD != 0.0 || before.value.replicas != after.value.replicas
    then Modified
    else Unchanged
  }

  function Row(ref: string, before: Option<Workload>, after: Option<Workload>): WorkloadDelta {
    var b, a := OrNone(before), OrNone(after);
    WorkloadDelta(
      ref, ChangeOf(before, after), b.monthlyUSD, a.monthlyUSD, a.monthlyUSD - b.monthlyUSD,
      b.replicas, a.replicas, if before.Some? && after.None? then b.flags else a.flags,
      a.autoscaled, a.minReplicas, a.maxReplicas, a.floorMonthlyUSD)
  }

  type Rower = string -> WorkloadDelta

  function RowFor(before: map<string, Workload>, after: map<string, Workload>): Rower {
    ref => Row(ref, Lookup(before, ref), Lookup(after, ref))
  }

  /** Largest increase first, then by reference. */
  predicate RowLeq(x: WorkloadDelta, y: WorkloadDelta) {
    if x.deltaUSD != y.deltaUSD then x.deltaUSD > y.deltaUSD else StrLeq(x.ref, y.ref)
  }

  lemma {:induction false} RowOrder()
    ensures TotalPreorder(RowLeq)
  {
    StrOrder();
  }

  /** `rows` holds one row for each reference of either side, in the report's order. */
  ghost predicate AreRows(rows: seq<WorkloadDelta>, before: map<string, Workload>, after: map<string, Workload>) {
    && SortedBy(rows, RowLeq)
    && exists order: seq<string> ::
         Enumerates(order, before.Keys + after.Keys)
         && multiset(rows) == multiset(MapSeq(RowFor(before, after), order))
  }

  function PercentOf(part: real, whole: real): real
    requires whole > 0.0
  {
    (part / whole) * 100.0
  }

  /** The basis of the committed percentage: the estate, or failing that the touched baseline. */
  function CommittedBasis(estate: real, touched: real): real {
    if estate > 0.0 then estate else touched
  }

  function PercentOrZero(part: real, whole: real): real {
    if whole > 0.0 then PercentOf(part, whole) else 0.0
  }

  function Headline(base: Estimate, head: Estimate, estate: real): Money {
    var delta := head.monthlyUSD - base.monthlyUSD;
    var committed := head.committedMonthlyUSD - base.committedMonthlyUSD;
    var basis := CommittedBasis(estate, base.committedMonthlyUSD);
    Money(
      base.monthlyUSD, head.monthlyUSD, delta, PercentOrZero(delta, estate), estate > 0.0, estate,
      base.committedMonthlyUSD, head.committedMonthlyUSD, committed, PercentOrZero(committed, basis), basis > 0.0)
  }

  /** What a call of `Compare` may answer. */
  ghost predicate IsComparison(base: Estimate, head: Estimate, estate: real, d: Delta) {
    && d.money == Headline(base, head, estate)
    && d.flags == base.flags + head.flags
    && AreRows(d.workloads, ByRef(base.workloads), ByRef(head.workloads))
  }

  method IndexWorkloads(ws: seq<Workload>) returns (m: map<string, Workload>)
    ensures m == ByRef(ws)
  {
    m := map[];
    for i := 0 to |ws|
      invariant m == ByRef(ws[..i])
    {
      assert ws[..i + 1][..i] == ws[..i];
      m := m[ws[i].Ref() := ws[i]];
    }
    assert ws[..|ws|] == ws;
  }

  /** One row per reference; the references are visited in an arbitrary order. */
  method Rows(before: map<string, Workload>, after: map<string, Workload>) returns (rows: seq<WorkloadDelta>)
    ensures AreRows(rows, before, after)
  {
    rows := [];
    var order := Enumerate(before.Keys + after.Keys);
    for i := 0 to |order|
      invariant rows == MapSeq(RowFor(before, after), order[..i])
    {
      assert order[..i + 1] == order[..i] + [order[i]];
      MapStep(RowFor(before, after), order[..i], order[i]);
      rows := rows + [Row(order[i], Lookup(before, order[i]), Lookup(after, order[i]))];
    }
    assert order[..|order|] == order;
    RowOrder();
    rows := Sort(rows, RowLeq);
  }

  method Compare(base: Estimate, head: Estimate, estateBaseline: real) returns (d: Delta)
    ensures IsComparison(base, head, estateBaseline, d)
  {
    var before := IndexWorkloads(base.workloads);
    var after := IndexWorkloads(head.workloads);
    var rows := Rows(before, after);
    d := Delta(Headline(base, head, estateBaseline), rows, base.flags + head.flags);
  }

  // ---------------------------------------------------------------- conservation

  function DeltaOf(r: WorkloadDelta): real {
    r.deltaUSD
  }

  function SumDelta(rows: seq<WorkloadDelta>): real {
    Sum(DeltaOf, rows)
  }

  function ValueIn(m: map<string, Workload>, ref: string): real {
    OrNone(Lookup(m, ref)).monthlyUSD
  }

  type Valuer = string -> real

  function ValuesIn(m: map<string, Workload>): Valuer {
    ref => ValueIn(m, ref)
  }

  /** Money of the workloads that a later one of the same reference replaces. */
  function Shadowed(ws: seq<Workload>): real {
    if ws == [] then 0.0
    else
      var front := ws[..|ws| - 1];
      Shadowed(front) + ValueIn(ByRef(front), ws[|ws| - 1].Ref())
  }

  /** Replacing one entry changes the sum over the references by the difference of its values. */
  lemma {:induction false} SumAfterUpdate(order: seq<string>, m: map<string, Workload>, ref: string, w: Workload)
    requires Distinct(order)
    ensures Sum(ValuesIn(m[ref := w]), order)
            == Sum(ValuesIn(m), order) + if ref in order then w.monthlyUSD - ValueIn(m, ref) else 0.0
  {
    if order != [] {
      var front, last := order[..|order| - 1], order[|order| - 1];
      assert order == front + [last];
      SumAfterUpdate(front, m, ref, w);
      if last == ref {
        assert ref !in front;
      }
    }
  }

  lemma {:induction false} SumOfEmpty(order: seq<string>)
    ensures Sum(ValuesIn(map[]), order) == 0.0
  {
    if order != [] {
      SumOfEmpty(order[..|order| - 1]);
    }
  }

  /** Over all references, the indexed workloads are worth the listed ones less the shadowed. */
  lemma {:induction false} IndexedMoney(order: seq<string>, ws: seq<Workload>)
    requires Distinct(order) && forall w :: w in ws ==> w.Ref() in order
    ensures Sum(ValuesIn(ByRef(ws)), order) == SumMonthly(ws) - Shadowed(ws)
  {
    if ws == [] {
      SumOfEmpty(order);
    } else {
      var front, last := ws[..|ws| - 1], ws[|ws| - 1];
      assert ws == front + [last];
      IndexedMoney(order, front);
      SumAfterUpdate(order, ByRef(front), last.Ref(), last);
    }
  }

  ghost predicate HasRef(ws: seq<Workload>, ref: string) {
    exists i :: 0 <= i < |ws| && ws[i].Ref() == ref
  }

  lemma {:induction false} ByRefKeys(ws: seq<Workload>)
    ensures forall k :: k in ByRef(ws) <==> HasRef(ws, k)
  {
    if ws != [] {
      var front, last := ws[..|ws| - 1], ws[|ws| - 1];
      ByRefKeys(front);
      forall k ensures k in ByRef(ws) <==> HasRef(ws, k) {
        assert k in ByRef(ws) <==> k == last.Ref() || HasRef(front, k);
        if HasRef(front, k) {
          var i :| 0 <= i < |front| && front[i].Ref() == k;
          assert ws[i].Ref() == k;
        }
        assert ws[|front|].Ref() == last.Ref();
      }
    }
  }

  lemma {:induction false} RowSum(order: seq<string>, before: map<string, Workload>, after: map<string, Workload>)
    ensures SumDelta(MapSeq(RowFor(before, after), order)) == Sum(ValuesIn(after), order) - Sum(ValuesIn(before), order)
  {
    if order != [] {
      var front, last := order[..|order| - 1], order[|order| - 1];
      assert order == front + [last];
      RowSum(front, before, after);
      SumStep(DeltaOf, MapSeq(RowFor(before, after), front), RowFor(before, after)(last));
    }
  }

  lemma {:induction false} RefsIn(order: seq<string>, ws: seq<Workload>)
    requires forall k :: k in ByRef(ws) ==> k in order
    ensures forall w :: w in ws ==> w.Ref() in order
  {
    ByRefKeys(ws);
    forall w | w in ws ensures w.Ref() in order {
      var i :| 0 <= i < |ws| && ws[i] == w;
      assert HasRef(ws, ws[i].Ref());
    }
  }

  /** The rows add up to the change in listed money, less what duplicates hide on either side. */
  lemma {:induction false} RowsAddUp(base: Estimate, head: Estimate, estate: real, d: Delta)
    requires IsComparison(base, head, estate, d)
    ensures SumDelta(d.workloads)
            == (SumMonthly(head.workloads) - Shadowed(head.workloads))
               - (SumMonthly(base.workloads) - Shadowed(base.workloads))
  {
    var before, after := ByRef(base.workloads), ByRef(head.workloads);
    var order: seq<string> :|
      Enumerates(order, before.Keys + after.Keys)
      && multiset(d.workloads) == multiset(MapSeq(RowFor(before, after), order));
    SumPermutes(DeltaOf, d.workloads, MapSeq(RowFor(before, after), order));
    RowSum(order, before, after);
    RefsIn(order, base.workloads);
    RefsIn(order, head.workloads);
    IndexedMoney(order, base.workloads);
    IndexedMoney(order, head.workloads);
  }

  ghost predicate TotalsItsRows(est: Estimate) {
    est.monthlyUSD == SumMonthly(est.workloads)
  }

  /** The rows account for the headline exactly when duplicates hide the same money on both sides. */
  lemma {:induction false} RowsConserveMoney(base: Estimate, head: Estimate, estate: real, d: Delta)
    requires IsComparison(base, head, estate, d)
    requires TotalsItsRows(base) && TotalsItsRows(head)
    ensures SumDelta(d.workloads) == d.money.deltaMonthlyUSD <==> Shadowed(base.workloads) == Shadowed(head.workloads)
  {
    RowsAddUp(base, head, estate, d);
  }

  /** Two workloads of one reference, and nothing before: the rows show the second only, and the headline both. */
  lemma {:induction false} DuplicatesHideMoney(
      base: Estimate, head: Estimate, estate: real, d: Delta, v: Workload, w: Workload)
    requires IsComparison(base, head, estate, d) && TotalsItsRows(base) && TotalsItsRows(head)
    requires base.workloads == [] && head.workloads == [v, w] && v.Ref() == w.Ref()
    ensures SumDelta(d.workloads) == w.monthlyUSD && d.money.deltaMonthlyUSD == v.monthlyUSD + w.monthlyUSD
  {
    RowsAddUp(base, head, estate, d);
    ShadowedPair(v, w);
  }

  lemma {:induction false} ShadowedPair(v: Workload, w: Workload)
    requires v.Ref() == w.Ref()
    ensures Shadowed([v, w]) == v.monthlyUSD && SumMonthly([v, w]) == v.monthlyUSD + w.monthlyUSD
    ensures Shadowed([]) == SumMonthly([]) == 0.0
  {
    var none: seq<Workload> := [];
    assert [v][..0] == none && [v, w][..1] == [v];
    IndexSingle(RefEntry, v);
    SumOfOne(MonthlyOf, v);
    assert Shadowed([v]) == 0.0;
  }

  lemma {:induction false} NothingShadowed(ws: seq<Workload>)
    requires DistinctRefs(ws)
    ensures Shadowed(ws) == 0.0
  {
    if ws != [] {
      var front, last := ws[..|ws| - 1], ws[|ws| - 1];
      NothingShadowed(front);
      ByRefKeys(front);
      assert forall i :: 0 <= i < |front| ==> front[i].Ref() != ws[|front|].Ref();
      assert !HasRef(front, last.Ref());
    }
  }

  // ---------------------------------------------------------------- determinism

  /** Neither the order of the map nor the sort shows: a comparison has one answer. */
  lemma {:induction false} CompareIsDeterministic(base: Estimate, head: Estimate, estate: real, d: Delta, e: Delta)
    requires IsComparison(base, head, estate, d) && IsComparison(base, head, estate, e)
    ensures d == e
  {
    var before, after := ByRef(base.workloads), ByRef(head.workloads);
    var f := RowFor(before, after);
    var p: seq<string> :| Enumerates(p, before.Keys + after.Keys) && multiset(d.workloads) == multiset(MapSeq(f, p));
    var q: seq<string> :| Enumerates(q, before.Keys + after.Keys) && multiset(e.workloads) == multiset(MapSeq(f, q));
    EnumerationsPermute(p, q, before.Keys + after.Keys);
    MapPermutes(f, p, q);
    forall x, y | x in multiset(d.workloads) && y in multiset(d.workloads) && RowLeq(x, y) && RowLeq(y, x)
      ensures x == y
    {
      RowOfItsRef(f, p, x);
      RowOfItsRef(f, p, y);
      StrAntisymmetric(x.ref, y.ref);
    }
    SortedUnique(d.workloads, e.workloads, RowLeq);
  }

  lemma {:induction false} RowOfItsRef(f: Rower, order: seq<string>, r: WorkloadDelta)
    requires r in multiset(MapSeq(f, order)) && forall k :: f(k).ref == k
    ensures r == f(r.ref)
  {
    var i :| 0 <= i < |order| && MapSeq(f, order)[i] == r;
  }

  // ---------------------------------------------------------------- what the report lists

  predicate IsListed(r: WorkloadDelta) {
    r.change != Unchanged
  }

  function Listed(rows: seq<WorkloadDelta>): seq<WorkloadDelta> {
    if rows == [] then rows
    else Listed(rows[..|rows| - 1]) + if IsListed(rows[|rows| - 1]) then [rows[|rows| - 1]] else []
  }

  /** The report's loop over the rows. */
  method ListRows(rows: seq<WorkloadDelta>) returns (changed: seq<WorkloadDelta>)
    ensures changed == Listed(rows)
  {
    changed := [];
    for i := 0 to |rows|
      invariant changed == Listed(rows[..i])
    {
      assert rows[..i + 1][..i] == rows[..i];
      if IsListed(rows[i]) {
        changed := changed + [rows[i]];
      }
    }
    assert rows[..|rows|] == rows;
  }

  lemma {:induction false} ListedSum(rows: seq<WorkloadDelta>)
    requires forall r :: r in rows && !IsListed(r) ==> r.deltaUSD == 0.0
    ensures SumDelta(Listed(rows)) == SumDelta(rows)
  {
    if rows != [] {
      var front, last := rows[..|rows| - 1], rows[|rows| - 1];
      assert rows == front + [last];
      ListedSum(front);
      ListedStep(front, last);
      SumStep(DeltaOf, front, last);
      SumStep(DeltaOf, Listed(front), last);
    }
  }

  lemma {:induction false} ListedStep(rows: seq<WorkloadDelta>, r: WorkloadDelta)
    ensures Listed(rows + [r]) == if IsListed(r) then Listed(rows) + [r] else Listed(rows)
  {
    assert (rows + [r])[..|rows|] == rows;
    assert Listed(rows) + [] == Listed(rows);
  }

  /** The rows a reader sees still account for the headline figure. */
  lemma {:induction false} ReportConservesMoney(base: Estimate, head: Estimate, estate: real, d: Delta)
    requires IsComparison(base, head, estate, d)
    requires TotalsItsRows(base) && TotalsItsRows(head)
    requires DistinctRefs(base.workloads) && DistinctRefs(head.workloads)
    ensures SumDelta(Listed(d.workloads)) == d.money.deltaMonthlyUSD
  {
    NothingShadowed(base.workloads);
    NothingShadowed(head.workloads);
    RowsConserveMoney(base, head, estate, d);
    UnlistedRowsAreFree(d.workloads, ByRef(base.workloads), ByRef(head.workloads));
    ListedSum(d.workloads);
  }

  lemma {:induction false} UnlistedRowsAreFree(
      rows: seq<WorkloadDelta>, before: map<string, Workload>, after: map<string, Workload>)
    requires AreRows(rows, before, after)
    ensures forall r :: r in rows && !IsListed(r) ==> r.deltaUSD == 0.0
  {
    var f := RowFor(before, after);
    var order: seq<string> :|
      Enumerates(order, before.Keys + after.Keys) && multiset(rows) == multiset(MapSeq(f, order));
    forall r | r in rows && !IsListed(r) ensures r.deltaUSD == 0.0 {
      assert r in multiset(rows);
      RowOfItsRef(f, order, r);
      UnchangedIsFree(r.ref, Lookup(before, r.ref), Lookup(after, r.ref));
    }
  }

  lemma {:induction false} UnchangedIsFree(ref: string, before: Option<Workload>, after: Option<Workload>)
    requires Row(ref, before, after).change == Unchanged
    ensures Row(ref, before, after).deltaUSD == 0.0
  {
  }
}
