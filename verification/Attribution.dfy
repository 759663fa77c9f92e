/** Live cost attribution: four metric queries joined into priced rows. */
module Attribution {
  import opened Results
  import opened Ordering
  import opened Folds
  import opened Pricing
  import opened Cost

  datatype Basis = Requested | Actual

  datatype Metric = Cpu | Memory

  /** The four queries, by what they measure. */
  datatype Query = Query(basis: Basis, metric: Metric)

  const QUERIES: set<Query> :=
    {Query(Actual, Cpu), Query(Actual, Memory), Query(Requested, Cpu), Query(Requested, Memory)}

  datatype Sample = Sample(namespace: string, workload: string, value: real)

  datatype Key = Key(namespace: string, workload: string, basis: Basis)

  datatype Usage = Usage(cpuCores: real, memoryGiB: real)

  datatype CostRow = CostRow(key: Key, usage: Usage, hourlyUSD: real, monthlyUSD: real)

  /** What the metrics server answers each query. */
  type Answers = map<Query, Result<seq<Sample>, string>>

  predicate Answered(answers: Answers) {
    forall q :: q in QUERIES ==> q in answers
  }

  // ---------------------------------------------------------------- the joined usage

  predicate Names(k: Key, s: Sample) {
    s.namespace == k.namespace && s.workload == k.workload
  }

  /** The value of the last sample that names a workload; samples without labels name none. */
  function Reading(samples: seq<Sample>, k: Key): Option<real> {
    if samples == [] || k.namespace == "" || k.workload == "" then None
    else
      var last := samples[|samples| - 1];
      if Names(k, last) then Some(last.value) else Reading(samples[..|samples| - 1], k)
  }

  /** The samples read so far of each query. */
  type Seen = map<Query, seq<Sample>>

  function ReadingOf(seen: Seen, k: Key, metric: Metric): Option<real> {
    var q := Query(k.basis, metric);
    if q in seen then Reading(seen[q], k) else None
  }

  function OrZero(v: Option<real>): real {
    if v.Some? then v.value else 0.0
  }

  function UsageIn(seen: Seen, k: Key): Usage {
    Usage(OrZero(ReadingOf(seen, k, Cpu)), Gib(OrZero(ReadingOf(seen, k, Memory))))
  }

  predicate IsMeasured(seen: Seen, k: Key) {
    ReadingOf(seen, k, Cpu).Some? || ReadingOf(seen, k, Memory).Some?
  }

  /** The usage map holds exactly the workloads measured on some metric, each with both figures. */
  ghost predicate Joins(usage: map<Key, Usage>, seen: Seen) {
    && (forall k :: k in usage <==> IsMeasured(seen, k))
    && (forall k :: k in usage ==> usage[k] == UsageIn(seen, k))
  }

  function Record(usage: map<Key, Usage>, k: Key, metric: Metric, value: real): map<Key, Usage> {
    var before := if k in usage then usage[k] else Usage(0.0, 0.0);
    usage[k := match metric
               case Cpu => before.(cpuCores := value)
               case Memory => before.(memoryGiB := Gib(value))]
  }

  /** Reading one more sample of a query. */
  lemma {:induction false} ReadingStep(samples: seq<Sample>, s: Sample, k: Key)
    ensures Reading(samples + [s], k)
            == if k.namespace == "" || k.workload == "" then None
               else if Names(k, s) then Some(s.value) else Reading(samples, k)
  {
    assert (samples + [s])[..|samples|] == samples;
  }

  lemma {:induction false} JoinsStep(usage: map<Key, Usage>, seen: Seen, q: Query, s: Sample)
    requires Joins(usage, seen) && q in seen
    ensures var seen' := seen[q := seen[q] + [s]];
            Joins(if s.namespace == "" || s.workload == "" then usage
                  else Record(usage, Key(s.namespace, s.workload, q.basis), q.metric, s.value), seen')
  {
    var seen' := seen[q := seen[q] + [s]];
    forall k, m
      ensures ReadingOf(seen', k, m)
              == if Query(k.basis, m) == q && Names(k, s) && k.namespace != "" && k.workload != "" then Some(s.value)
                 else ReadingOf(seen, k, m)
    {
      ReadingAfter(seen, q, s, k, m);
    }
  }

  lemma {:induction false} ReadingAfter(seen: Seen, q: Query, s: Sample, k: Key, m: Metric)
    requires q in seen
    ensures ReadingOf(seen[q := seen[q] + [s]], k, m)
            == if Query(k.basis, m) == q && Names(k, s) && k.namespace != "" && k.workload != "" then Some(s.value)
               else ReadingOf(seen, k, m)
  {
    ReadingStep(seen[q], s, k);
  }

  /** Starting on a query changes nothing. */
  lemma {:induction false} JoinsStart(usage: map<Key, Usage>, seen: Seen, q: Query)
    requires Joins(usage, seen) && q !in seen
    ensures Joins(usage, seen[q := []])
  {
    forall k, m ensures ReadingOf(seen[q := []], k, m) == ReadingOf(seen, k, m) {
    }
  }

  /** The successful answers of the given queries. */
  function SeenOf(answers: Answers, done: set<Query>): Seen {
    map q | q in done && q in answers && answers[q].Ok? :: answers[q].value
  }

  lemma {:induction false} SeenStep(answers: Answers, done: set<Query>, q: Query)
    requires q in answers && answers[q].Ok?
    ensures SeenOf(answers, done + {q}) == SeenOf(answers, done)[q := answers[q].value]
  {
  }

  /** Reads one query's samples into the map. */
  method ReadSamples(
      usage: map<Key, Usage>, ghost seen: Seen, q: Query, samples: seq<Sample>) returns (joined: map<Key, Usage>)
    requires Joins(usage, seen) && q !in seen
    ensures Joins(joined, seen[q := samples])
  {
    joined := usage;
    JoinsStart(usage, seen, q);
    for i := 0 to |samples|
      invariant Joins(joined, seen[q := samples[..i]])
    {
      var s := samples[i];
      assert samples[..i + 1] == samples[..i] + [s];
      JoinsStep(joined, seen[q := samples[..i]], q, s);
      assert seen[q := samples[..i]][q := samples[..i + 1]] == seen[q := samples[..i + 1]];
      if s.namespace != "" && s.workload != "" {
        joined := Record(joined, Key(s.namespace, s.workload, q.basis), q.metric, s.value);
      }
    }
    assert samples[..|samples|] == samples;
  }

  // ---------------------------------------------------------------- rows

  function PriceUsage(table: Table, k: Key, u: Usage): CostRow {
    var hourly := HourlyUSD(table, u.cpuCores, u.memoryGiB, 0.0);
    CostRow(k, u, hourly, hourly * table.spec.hoursPerMonth)
  }

  type Rower = Key -> CostRow

  function RowOf(table: Table, seen: Seen): Rower {
    k => PriceUsage(table, k, UsageIn(seen, k))
  }

  function BasisName(b: Basis): string {
    match b
    case Requested => "requested"
    case Actual => "actual"
  }

  /** By namespace, then workload, then basis. */
  predicate RowLeq(x: CostRow, y: CostRow) {
    if x.key.namespace != y.key.namespace then StrLeq(x.key.namespace, y.key.namespace)
    else if x.key.workload != y.key.workload then StrLeq(x.key.workload, y.key.workload)
    else StrLeq(BasisName(x.key.basis), BasisName(y.key.basis))
  }

  lemma {:induction false} RowOrder()
    ensures TotalPreorder(RowLeq)
  {
    StrOrder();
    forall x, y, z | RowLeq(x, y) && RowLeq(y, z) ensures RowLeq(x, z) {
      RowTransitive(x, y, z);
    }
  }

  lemma {:induction false} RowTransitive(x: CostRow, y: CostRow, z: CostRow)
    requires RowLeq(x, y) && RowLeq(y, z)
    ensures RowLeq(x, z)
  {
    StrOrder();
    var a, b, c := x.key, y.key, z.key;
    if a.namespace == c.namespace && a.namespace != b.namespace {
      StrAntisymmetric(a.namespace, b.namespace);
    } else if a.namespace == b.namespace == c.namespace && a.workload == c.workload && a.workload != b.workload {
      StrAntisymmetric(a.workload, b.workload);
    }
  }

  lemma {:induction false} TiedRowsShareKeys(x: CostRow, y: CostRow)
    requires RowLeq(x, y) && RowLeq(y, x)
    ensures x.key == y.key
  {
    if x.key.namespace != y.key.namespace {
      StrAntisymmetric(x.key.namespace, y.key.namespace);
    } else if x.key.workload != y.key.workload {
      StrAntisymmetric(x.key.workload, y.key.workload);
    } else {
      StrAntisymmetric(BasisName(x.key.basis), BasisName(y.key.basis));
      assert "requested"[0] != "actual"[0];
    }
  }

  /** `order` visits each measured workload once. */
  ghost predicate Visits(order: seq<Key>, seen: Seen) {
    Distinct(order) && forall k :: k in order <==> IsMeasured(seen, k)
  }

  /** One sorted row for each workload and basis that was measured. */
  ghost predicate AreRows(rows: seq<CostRow>, table: Table, seen: Seen) {
    && SortedBy(rows, RowLeq)
    && exists order: seq<Key> :: Visits(order, seen) && multiset(rows) == multiset(MapSeq(RowOf(table, seen), order))
  }

  predicate AllOk(answers: Answers) {
    forall q :: q in QUERIES ==> q in answers && answers[q].Ok?
  }

  /** What a call of `Collect` may answer. */
  ghost predicate IsCollection(table: Table, answers: Answers, r: Result<seq<CostRow>, string>) {
    && (r.Ok? <==> AllOk(answers))
    && (r.Ok? ==> AreRows(r.value, table, SeenOf(answers, QUERIES)))
  }

  class Collector {
    const table: Table

    constructor (table: Table)
      ensures this.table == table
    {
      this.table := table;
    }

    /** Queries and rows are visited in arbitrary orders. */
    method Collect(answers: Answers) returns (r: Result<seq<CostRow>, string>)
      requires Answered(answers)
      ensures IsCollection(table, answers, r)
    {
      var usage: map<Key, Usage> := map[];
      var queries := Enumerate(QUERIES);
      ghost var done: set<Query> := {};
      assert SeenOf(answers, done) == map[];
      for i := 0 to |queries|
        invariant done == set q | q in queries[..i]
        invariant forall q :: q in done ==> q in answers && answers[q].Ok?
        invariant Joins(usage, SeenOf(answers, done))
      {
        var q := queries[i];
        assert q in queries && q in QUERIES;
        assert q !in queries[..i];
        if answers[q].Err? {
          return Err(answers[q].error);
        }
        usage := ReadSamples(usage, SeenOf(answers, done), q, answers[q].value);
        SeenStep(answers, done, q);
        assert queries[..i + 1] == queries[..i] + [q];
        done := done + {q};
      }
      assert queries[..|queries|] == queries;
      assert done == QUERIES;
      var rows := PriceRows(usage, SeenOf(answers, QUERIES));
      r := Ok(rows);
    }

    method PriceRows(usage: map<Key, Usage>, ghost seen: Seen) returns (rows: seq<CostRow>)
      requires Joins(usage, seen)
      ensures AreRows(rows, table, seen)
    {
      var order := Enumerate(usage.Keys);
      rows := [];
      for i := 0 to |order|
        invariant rows == MapSeq(RowOf(table, seen), order[..i])
      {
        assert order[..i + 1] == order[..i] + [order[i]];
        assert order[i] in order && order[i] in usage;
        MapStep(RowOf(table, seen), order[..i], order[i]);
        rows := rows + [PriceUsage(table, order[i], usage[order[i]])];
      }
      assert order[..|order|] == order;
      RowOrder();
      assert Visits(order, seen);
      rows := Sort(rows, RowLeq);
    }
  }

  // ---------------------------------------------------------------- determinism

  lemma {:induction false} RowOfItsKey(rows: seq<CostRow>, table: Table, seen: Seen, order: seq<Key>, r: CostRow)
    requires multiset(rows) == multiset(MapSeq(RowOf(table, seen), order)) && r in multiset(rows)
    ensures r == RowOf(table, seen)(r.key)
  {
    var i :| 0 <= i < |order| && MapSeq(RowOf(table, seen), order)[i] == r;
  }

  lemma {:induction false} RowsAreStrict(rows: seq<CostRow>, table: Table, seen: Seen)
    requires AreRows(rows, table, seen)
    ensures StrictOn(multiset(rows), RowLeq)
  {
    var order: seq<Key> :| Visits(order, seen) && multiset(rows) == multiset(MapSeq(RowOf(table, seen), order));
    forall x, y | x in multiset(rows) && y in multiset(rows) && RowLeq(x, y) && RowLeq(y, x) ensures x == y {
      TiedRowsShareKeys(x, y);
      RowOfItsKey(rows, table, seen, order, x);
      RowOfItsKey(rows, table, seen, order, y);
    }
  }

  lemma {:induction false} RowsPermute(rows: seq<CostRow>, others: seq<CostRow>, table: Table, seen: Seen)
    requires AreRows(rows, table, seen) && AreRows(others, table, seen)
    ensures multiset(rows) == multiset(others)
  {
    var f := RowOf(table, seen);
    var p: seq<Key> :| Visits(p, seen) && multiset(rows) == multiset(MapSeq(f, p));
    var q: seq<Key> :| Visits(q, seen) && multiset(others) == multiset(MapSeq(f, q));
    EnumerationsPermute(p, q, set k | k in p);
    MapPermutes(f, p, q);
  }

  /** Whatever order the queries ran in, the usage was ranged over in, and the sort left ties in,
      the exporter publishes the same rows. */
  lemma {:induction false} CollectIsDeterministic(
      table: Table, answers: Answers, r: Result<seq<CostRow>, string>, s: Result<seq<CostRow>, string>)
    requires IsCollection(table, answers, r) && IsCollection(table, answers, s)
    ensures r.Ok? <==> s.Ok?
    ensures r.Ok? ==> r == s
  {
    if r.Ok? {
      var seen := SeenOf(answers, QUERIES);
      RowsPermute(r.value, s.value, table, seen);
      RowsAreStrict(r.value, table, seen);
      SortedUnique(r.value, s.value, RowLeq);
    }
  }
}
