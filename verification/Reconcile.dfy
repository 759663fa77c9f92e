/** The platform's central claim: what the gate predicts is what the exporter measures.

  `Reconciles` is the comparison the repository runs against a live cluster. `PredictionMeetsMeasurement`
  says when it must succeed, by relating two independent computations: the gate prices manifests root by
  root and merges; the exporter files running pods under workloads by their owners and prices the sums.
 */
module Reconcile {
  import opened Results
  import opened Manifests
  import opened Ordering
  import opened Folds
  import opened Pricing
  import opened Cost
  import opened Additivity
  import A = Attribution
  import O = Owners

  datatype Name = Name(namespace: string, workload: string)

  // ---------------------------------------------------------------- the comparison

  /** Predictions are keyed like measurements; one without a namespace or a name is not compared. */
  function PredictedEntry(w: Workload): Option<(Name, Workload)> {
    if w.namespace == "" || w.name == "" then None else Some((Name(w.namespace, w.name), w))
  }

  function MeasuredEntry(r: A.CostRow): Option<(Name, real)> {
    if r.key.basis == A.Requested then Some((Name(r.key.namespace, r.key.workload), r.monthlyUSD)) else None
  }

  function Predicted(ws: seq<Workload>): map<Name, Workload> {
    Index(PredictedEntry, ws)
  }

  function Measured(rows: seq<A.CostRow>): map<Name, real> {
    Index(MeasuredEntry, rows)
  }

  /** The floor as the comparison sees it: a floor of zero is left out of the gate's JSON output,
      and the ceiling is read in its place. */
  function BandFloor(w: Workload): real {
    if w.floorMonthlyUSD == 0.0 then w.monthlyUSD else w.floorMonthlyUSD
  }

  function Gap(x: real, y: real): real {
    if x >= y then x - y else y - x
  }

  predicate Agrees(w: Workload, m: real, tolerance: real) {
    if w.autoscaled then
      BandFloor(w) * (1.0 - tolerance) <= m <= w.monthlyUSD * (1.0 + tolerance)
    else
      Gap(w.monthlyUSD, m) / Max(w.monthlyUSD, 0.0001) <= tolerance
  }

  /** Every prediction was measured and agrees, and there was something to compare. */
  predicate Reconciles(predicted: map<Name, Workload>, measured: map<Name, real>, tolerance: real) {
    && (exists k :: k in predicted && k in measured)
    && forall k :: k in predicted ==> k in measured && Agrees(predicted[k], measured[k], tolerance)
  }

  method Compare(predicted: map<Name, Workload>, measured: map<Name, real>, tolerance: real) returns (passed: bool)
    ensures passed == Reconciles(predicted, measured, tolerance)
  {
    if measured.Keys == {} {
      return false;
    }
    var failures, missing, compared := [], [], 0;
    var keys := Enumerate(predicted.Keys + measured.Keys);
    for i := 0 to |keys|
      invariant compared > 0 <==> exists j :: 0 <= j < i && keys[j] in predicted && keys[j] in measured
      invariant compared >= 0
      invariant missing == [] <==> forall j :: 0 <= j < i && keys[j] in predicted ==> keys[j] in measured
      invariant failures == [] <==>
                forall j :: 0 <= j < i && keys[j] in predicted && keys[j] in measured
                            ==> Agrees(predicted[keys[j]], measured[keys[j]], tolerance)
    {
      var k := keys[i];
      if k !in predicted {
        continue;
      }
      if k !in measured {
        missing := missing + [k];
        continue;
      }
      compared := compared + 1;
      if !Agrees(predicted[k], measured[k], tolerance) {
        failures := failures + [k];
      }
    }
    passed := compared > 0 && missing == [] && failures == [];
    forall k | k in predicted ensures exists j :: 0 <= j < |keys| && keys[j] == k {
      assert k in keys;
    }
    if passed {
      var j :| 0 <= j < |keys| && keys[j] in predicted && keys[j] in measured;
    }
  }

  // ---------------------------------------------------------------- what is running

  /** A container's request metrics: only what it declares, in cores and in bytes. */
  function Declared(c: Value, key: string): Option<Quantity> {
    var requests := RequestsOf(AsMap(c));
    if key in requests then ParseQuantity(requests[key]) else None
  }

  function CpuMetric(c: Value): real {
    match Declared(c, "cpu")
    case None => 0.0
    case Some(q) => q.milliValue as real / 1000.0
  }

  function MemoryMetric(c: Value): real {
    match Declared(c, "memory")
    case None => 0.0
    case Some(q) => q.value as real
  }

  function PodCpu(p: O.Pod): real {
    Sum(CpuMetric, p.containers)
  }

  function PodMemory(p: O.Pod): real {
    Sum(MemoryMetric, p.containers)
  }

  function PodsOf(pods: O.Pods, n: Name): O.Pods {
    O.Filed(pods, n.namespace, n.workload)
  }

  /** The metrics server sums the requests of the pods filed under each workload. */
  ghost predicate Scraped(seen: A.Seen, pods: O.Pods) {
    forall n: Name | n.namespace != "" && n.workload != "" ::
      var mine := PodsOf(pods, n);
      var k := A.Key(n.namespace, n.workload, A.Requested);
      && A.ReadingOf(seen, k, A.Cpu) == (if mine == [] then None else Some(Sum(PodCpu, mine)))
      && A.ReadingOf(seen, k, A.Memory) == (if mine == [] then None else Some(Sum(PodMemory, mine)))
  }

  // ---------------------------------------------------------------- a faithful workload

  predicate DeclaresRequests(c: Value) {
    && c.Map? && "cpu" in RequestsOf(c.fields) && "memory" in RequestsOf(c.fields)
    && "ephemeral-storage" !in RequestsOf(c.fields)
    && CpuMetric(c) >= 0.0 && MemoryMetric(c) >= 0.0
  }

  function ContainersOf(o: Object): seq<Value> {
    AsList(Field(AsMap(PodSpecFrom(SpecOf(o))), "containers"))
  }

  /** A workload of a kind the exporter maps, whose containers declare their requests, without init
      containers and without storage of its own. */
  predicate IsPlain(o: Object) {
    && O.IsMapped(o)
    && PodSpecFrom(SpecOf(o)).Map?
    && AsList(Field(PodSpecFrom(SpecOf(o)).fields, "initContainers")) == []
    && AsList(Field(SpecOf(o), "volumeClaimTemplates")) == []
    && ContainersOf(o) != []
    && forall c :: c in ContainersOf(o) ==> DeclaresRequests(c)
  }

  /** The cluster runs the workload as its manifest says: pods with its containers, as many as it asks
      for, or as its autoscaler allows, and at least one; and it shares its name with no other. */
  ghost predicate RunsAsDeclared(
      table: Table, nodes: int, scalers: map<Target, Bounds>, pods: O.Pods, o: Object)
    requires Reserve(table, nodes, o).Ok? && Reserve(table, nodes, o).value.Reserves?
  {
    var mine := O.Owned(pods, o);
    && O.NotShared(pods, o)
    && mine != []
    && (forall p :: p in mine ==> p.containers == ContainersOf(o))
    && match Lookup(scalers, TargetOf(o))
       case None => |mine| == Reserve(table, nodes, o).value.replicas
       case Some(b) => b.min <= |mine| <= b.max
  }

  lemma {:induction false} MappedClasses(o: Object)
    requires O.IsMapped(o)
    ensures ClassOf(KindOf(o)) in {Replicated, Stateful, PerNode}
  {
  }

  lemma {:induction false} PlainContainer(table: Table, c: Value)
    requires DeclaresRequests(c) && ContainerResources(table, c).Ok?
    ensures ContainerResources(table, c).value.res
            == Resources(CpuMetric(c), Gib(MemoryMetric(c)), 0.0)
  {
  }

  /** What the gate holds for a plain pod is what the metrics report about it. */
  lemma {:induction false} HeldIsReported(table: Table, cs: seq<Value>)
    requires forall c :: c in cs ==> DeclaresRequests(c)
    requires Containers(table, cs).Ok?
    ensures var held := Held(Containers(table, cs).value);
            && held.cpu == Sum(CpuMetric, cs)
            && held.memory == Gib(Sum(MemoryMetric, cs))
            && held.storage == 0.0
  {
    if cs != [] {
      var n := |cs| - 1;
      assert cs[..n + 1] == cs;
      assert cs[n] in cs;
      HeldIsReported(table, cs[..n]);
      ContainersStep(table, cs, n);
      PlainContainer(table, cs[n]);
    }
  }

  lemma {:induction false} PlainPodHeld(table: Table, podSpec: Value)
    requires podSpec.Map? && PodResult(table, podSpec).Ok?
    requires AsList(Field(podSpec.fields, "initContainers")) == []
    ensures var cs := Containers(table, AsList(Field(podSpec.fields, "containers")));
            && cs.Ok?
            && PodResult(table, podSpec).value.res
               == Resources(Max(Held(cs.value).cpu, 0.0), Max(Held(cs.value).memory, 0.0), Held(cs.value).storage)
  {
    var cs := AsList(Field(podSpec.fields, "containers"));
    assert Inits(table, []) == Ok([]);
    assert PodOf(table, podSpec.fields).Ok?;
    assert PodOf(table, podSpec.fields).value == Pod(Containers(table, cs).value, []);
    assert Held(Sidecars([])) == NOTHING && LargestOrdinary([]) == NOTHING;
  }

  /** One pod of a plain workload, by its metrics. */
  function Reported(cs: seq<Value>): Resources {
    Resources(Sum(CpuMetric, cs), Gib(Sum(MemoryMetric, cs)), 0.0)
  }

  lemma {:induction false} PlainPod(table: Table, podSpec: Value)
    requires podSpec.Map? && PodResult(table, podSpec).Ok?
    requires AsList(Field(podSpec.fields, "initContainers")) == []
    requires forall c :: c in AsList(Field(podSpec.fields, "containers")) ==> DeclaresRequests(c)
    ensures PodResult(table, podSpec).value.res == Reported(AsList(Field(podSpec.fields, "containers")))
  {
    var cs := AsList(Field(podSpec.fields, "containers"));
    PlainPodHeld(table, podSpec);
    HeldIsReported(table, cs);
    SumNonNegative(CpuMetric, cs);
    SumNonNegative(MemoryMetric, cs);
  }

  lemma {:induction false} PlainReplicas(table: Table, spec: map<string, Value>, stateful: bool)
    requires PodSpecFrom(spec).Map? && ReserveReplicas(table, spec, stateful).Ok?
    requires AsList(Field(PodSpecFrom(spec).fields, "initContainers")) == []
    requires AsList(Field(spec, "volumeClaimTemplates")) == []
    requires forall c :: c in AsList(Field(PodSpecFrom(spec).fields, "containers")) ==> DeclaresRequests(c)
    ensures var r := ReserveReplicas(table, spec, stateful).value;
            r.Reserves? && r.per == Reported(AsList(Field(PodSpecFrom(spec).fields, "containers")))
  {
    PlainPod(table, PodSpecFrom(spec));
    NoClaims(PodResult(table, PodSpecFrom(spec)).value.res);
  }

  lemma {:induction false} NoClaims(per: Resources)
    ensures AddClaims(per, []) == Ok(per)
  {
    assert ClaimStorage([]) == Ok(NOTHING);
  }

  lemma {:induction false} PlainReservation(table: Table, nodes: int, o: Object)
    requires IsPlain(o) && Reserve(table, nodes, o).Ok?
    ensures Reserve(table, nodes, o).value.Reserves? && Reserve(table, nodes, o).value.per == Reported(ContainersOf(o))
  {
    MappedClasses(o);
    match ClassOf(KindOf(o))
    case Replicated => PlainReplicas(table, SpecOf(o), false);
    case Stateful => PlainReplicas(table, SpecOf(o), true);
    case PerNode => PlainPod(table, PodSpecFrom(SpecOf(o)));
  }

  function Times(x: real, n: int): real {
    x * n as real
  }

  lemma {:induction false} OneMore(x: real, n: int)
    ensures Times(x, n + 1) == Times(x, n) + x
  {
  }

  lemma {:induction false} EqualPods(pods: O.Pods, cs: seq<Value>)
    requires forall p :: p in pods ==> p.containers == cs
    ensures Sum(PodCpu, pods) == Times(Sum(CpuMetric, cs), |pods|)
    ensures Sum(PodMemory, pods) == Times(Sum(MemoryMetric, cs), |pods|)
  {
    if pods != [] {
      var front, last := pods[..|pods| - 1], pods[|pods| - 1];
      assert pods == front + [last];
      EqualPods(front, cs);
      SumStep(PodCpu, front, last);
      SumStep(PodMemory, front, last);
      OneMore(Sum(CpuMetric, cs), |front|);
      OneMore(Sum(MemoryMetric, cs), |front|);
    }
  }

  // ---------------------------------------------------------------- prediction and measurement

  function UnitCost(table: Table, cs: seq<Value>): real {
    CostOf(table, Reported(cs))
  }

  lemma {:induction false} ScaledByCount(table: Table, cs: seq<Value>, n: int)
    ensures CostOf(table, Reported(cs).Scale(n as real)) == Times(UnitCost(table, cs), n)
  {
    var r := Reported(cs);
    MonthlyScales(table, r.cpu, r.memory, r.storage, n as real);
  }

  lemma {:induction false} UsageScales(cpu: real, bytes: real, n: int)
    ensures Resources(Times(cpu, n), Gib(Times(bytes, n)), 0.0)
            == Resources(cpu, Gib(bytes), 0.0).Scale(n as real)
  {
  }

  /** The exporter's price of `n` equal pods is `n` times the gate's price of one. */
  lemma {:induction false} MeasuredCost(table: Table, seen: A.Seen, pods: O.Pods, n: Name, cs: seq<Value>)
    requires Scraped(seen, pods) && n.namespace != "" && n.workload != ""
    requires PodsOf(pods, n) != [] && forall p :: p in PodsOf(pods, n) ==> p.containers == cs
    ensures var k := A.Key(n.namespace, n.workload, A.Requested);
            && A.IsMeasured(seen, k)
            && A.PriceUsage(table, k, A.UsageIn(seen, k)).monthlyUSD == Times(UnitCost(table, cs), |PodsOf(pods, n)|)
  {
    var mine := PodsOf(pods, n);
    var k := A.Key(n.namespace, n.workload, A.Requested);
    ScrapedUsage(seen, pods, n, cs);
    UsageScales(Sum(CpuMetric, cs), Sum(MemoryMetric, cs), |mine|);
    ScaledByCount(table, cs, |mine|);
    UsagePrice(table, k, A.UsageIn(seen, k));
  }

  lemma {:induction false} ScrapedUsage(seen: A.Seen, pods: O.Pods, n: Name, cs: seq<Value>)
    requires Scraped(seen, pods) && n.namespace != "" && n.workload != ""
    requires PodsOf(pods, n) != [] && forall p :: p in PodsOf(pods, n) ==> p.containers == cs
    ensures var k := A.Key(n.namespace, n.workload, A.Requested);
            var count := |PodsOf(pods, n)|;
            && A.IsMeasured(seen, k)
            && A.UsageIn(seen, k)
               == A.Usage(Times(Sum(CpuMetric, cs), count), Gib(Times(Sum(MemoryMetric, cs), count)))
  {
    EqualPods(PodsOf(pods, n), cs);
  }

  lemma {:induction false} UsagePrice(table: Table, k: A.Key, u: A.Usage)
    ensures A.PriceUsage(table, k, u).monthlyUSD == CostOf(table, Resources(u.cpuCores, u.memoryGiB, 0.0))
  {
  }

  /** The gate's price of a plain workload, as ceiling and as floor. */
  lemma {:induction false} PredictedCost(table: Table, nodes: int, bounds: Option<Bounds>, o: Object)
    requires IsPlain(o) && Reserve(table, nodes, o).Ok?
    ensures Reserve(table, nodes, o).value.Reserves?
    ensures var r := Reserve(table, nodes, o).value;
            var w := Settle(table, TargetOf(o), r, bounds);
            var unit := UnitCost(table, ContainersOf(o));
            match bounds
            case None => !w.autoscaled && w.monthlyUSD == Times(unit, r.replicas) == w.floorMonthlyUSD
            case Some(b) => w.autoscaled && w.monthlyUSD == Times(unit, b.max) && w.floorMonthlyUSD == Times(unit, b.min)
  {
    PlainReservation(table, nodes, o);
    SettledPlain(table, TargetOf(o), Reserve(table, nodes, o).value, bounds, ContainersOf(o));
  }

  lemma {:induction false} SettledPlain(table: Table, id: Target, r: Reserved, bounds: Option<Bounds>, cs: seq<Value>)
    requires r.Reserves? && r.per == Reported(cs)
    ensures var w := Settle(table, id, r, bounds);
            var unit := UnitCost(table, cs);
            match bounds
            case None => !w.autoscaled && w.monthlyUSD == Times(unit, r.replicas) == w.floorMonthlyUSD
            case Some(b) => w.autoscaled && w.monthlyUSD == Times(unit, b.max) && w.floorMonthlyUSD == Times(unit, b.min)
  {
    match bounds
    case None => ScaledByCount(table, cs, r.replicas);
    case Some(b) =>
      ScaledByCount(table, cs, b.max);
      ScaledByCount(table, cs, b.min);
  }

  // ---------------------------------------------------------------- the band

  lemma {:induction false} TimesLeq(unit: real, x: real, y: real)
    requires unit > 0.0
    ensures unit * x <= unit * y <==> x <= y
  {
    if x > y {
      assert unit * (x - y) > 0.0;
    } else {
      assert unit * (y - x) >= 0.0;
    }
  }

  /** An autoscaled workload running `n` pods is accepted exactly when `n` lies between its bounds,
      up to the tolerance; but a minimum of zero is read as if it were the maximum. */
  lemma {:induction false} BandAccepts(w: Workload, unit: real, n: real, min: real, max: real, tolerance: real)
    requires w.autoscaled && unit > 0.0
    requires w.monthlyUSD == unit * max && w.floorMonthlyUSD == unit * min
    ensures Agrees(w, unit * n, tolerance) <==>
            (if min == 0.0 then max else min) * (1.0 - tolerance) <= n <= max * (1.0 + tolerance)
  {
    var low := if min == 0.0 then max else min;
    TimesLeq(unit, min, 0.0);
    TimesLeq(unit, 0.0, min);
    assert BandFloor(w) == unit * low;
    Group(unit, low, 1.0 - tolerance);
    Group(unit, max, 1.0 + tolerance);
    TimesLeq(unit, low * (1.0 - tolerance), n);
    TimesLeq(unit, n, max * (1.0 + tolerance));
  }

  lemma {:induction false} Group(x: real, y: real, z: real)
    ensures (x * y) * z == x * (y * z)
  {
  }

  lemma {:induction false} Widen(x: real, y: real, t: real)
    requires 0.0 <= x <= y && t >= 0.0
    ensures x * (1.0 - t) <= y && x <= y * (1.0 + t)
  {
    assert x * t >= 0.0 && y * t >= 0.0;
    assert x * (1.0 - t) == x - x * t;
    assert y * (1.0 + t) == y + y * t;
  }

  lemma {:induction false} FreeAgrees(w: Workload, tolerance: real)
    requires w.autoscaled && w.monthlyUSD == 0.0 && w.floorMonthlyUSD == 0.0
    ensures Agrees(w, 0.0, tolerance)
  {
  }

  /** Within its bounds, with a minimum of at least one, an autoscaled workload is always accepted. */
  lemma {:induction false} WithinBandAgrees(w: Workload, unit: real, n: int, b: Bounds, tolerance: real)
    requires w.autoscaled && unit >= 0.0 && tolerance >= 0.0 && 0 < b.min <= n <= b.max
    requires w.monthlyUSD == Times(unit, b.max) && w.floorMonthlyUSD == Times(unit, b.min)
    ensures Agrees(w, Times(unit, n), tolerance)
  {
    var min, max := b.min as real, b.max as real;
    if unit > 0.0 {
      Widen(min, n as real, tolerance);
      Widen(n as real, max, tolerance);
      BandAccepts(w, unit, n as real, min, max, tolerance);
    } else {
      FreeAgrees(w, tolerance);
    }
  }

  // ---------------------------------------------------------------- the claim

  lemma {:induction false} UnitNonNegative(table: Table, cs: seq<Value>)
    requires Validates(table) && forall c :: c in cs ==> DeclaresRequests(c)
    ensures UnitCost(table, cs) >= 0.0
  {
    SumNonNegative(CpuMetric, cs);
    SumNonNegative(MemoryMetric, cs);
    var r := Reported(cs);
    MonthlyNonNegative(table, r.cpu, r.memory, r.storage);
  }

  lemma {:induction false} EqualAgrees(w: Workload, tolerance: real)
    requires !w.autoscaled && tolerance >= 0.0
    ensures Agrees(w, w.monthlyUSD, tolerance)
  {
    assert 0.0 / Max(w.monthlyUSD, 0.0001) == 0.0;
  }

  /** The manifest side of the claim: what each object that is priced must look like. */
  ghost predicate Comparable(table: Table, nodes: int, scalers: map<Target, Bounds>, pods: O.Pods, o: Object) {
    && IsPlain(o) && Reserve(table, nodes, o).Ok?
    && Reserve(table, nodes, o).value.Reserves?
    && NamespaceOf(o) != "" && NameOf(o) != ""
    && RunsAsDeclared(table, nodes, scalers, pods, o)
    && (TargetOf(o) in scalers ==> scalers[TargetOf(o)].min > 0)
  }

  /** The measured cost of a comparable object agrees with its prediction. */
  lemma {:induction false} ComparableAgrees(
      table: Table, nodes: int, scalers: map<Target, Bounds>, pods: O.Pods, seen: A.Seen, o: Object,
      tolerance: real)
    requires Validates(table) && tolerance >= 0.0
    requires Comparable(table, nodes, scalers, pods, o) && Scraped(seen, pods)
    ensures var k := A.Key(NamespaceOf(o), NameOf(o), A.Requested);
            && A.IsMeasured(seen, k)
            && Agrees(Settle(table, TargetOf(o), Reserve(table, nodes, o).value, Lookup(scalers, TargetOf(o))),
                      A.PriceUsage(table, k, A.UsageIn(seen, k)).monthlyUSD, tolerance)
  {
    var n, cs := Name(NamespaceOf(o), NameOf(o)), ContainersOf(o);
    var bounds := Lookup(scalers, TargetOf(o));
    var w := Settle(table, TargetOf(o), Reserve(table, nodes, o).value, bounds);
    O.FiledIsOwned(pods, o);
    MeasuredCost(table, seen, pods, n, cs);
    PredictedCost(table, nodes, bounds, o);
    UnitNonNegative(table, cs);
    match bounds
    case None => EqualAgrees(w, tolerance);
    case Some(b) => WithinBandAgrees(w, UnitCost(table, cs), |PodsOf(pods, n)|, b, tolerance);
  }

  /** The published row of a measured workload is the one its name is filed under. */
  lemma {:induction false} MeasuredIs(table: Table, seen: A.Seen, rows: seq<A.CostRow>, n: Name)
    requires A.AreRows(rows, table, seen) && A.IsMeasured(seen, A.Key(n.namespace, n.workload, A.Requested))
    ensures n in Measured(rows)
    ensures var k := A.Key(n.namespace, n.workload, A.Requested);
            Measured(rows)[n] == A.PriceUsage(table, k, A.UsageIn(seen, k)).monthlyUSD
  {
    var k := A.Key(n.namespace, n.workload, A.Requested);
    var order: seq<A.Key> :| A.Visits(order, seen) && multiset(rows) == multiset(MapSeq(A.RowOf(table, seen), order));
    MeasuredRow(table, seen, rows, order, k);
    IndexOrigin(MeasuredEntry, rows);
    var r :| r in rows && MeasuredEntry(r) == Some((n, Measured(rows)[n]));
    assert r in multiset(rows);
    A.RowOfItsKey(rows, table, seen, order, r);
  }

  lemma {:induction false} MeasuredRow(table: Table, seen: A.Seen, rows: seq<A.CostRow>, order: seq<A.Key>, k: A.Key)
    requires A.Visits(order, seen) && multiset(rows) == multiset(MapSeq(A.RowOf(table, seen), order))
    requires A.IsMeasured(seen, k) && k.basis == A.Requested
    ensures Name(k.namespace, k.workload) in Measured(rows)
  {
    var f := A.RowOf(table, seen);
    var i :| 0 <= i < |order| && order[i] == k;
    var row := MapSeq(f, order)[i];
    assert row in multiset(rows);
    assert row in rows && MeasuredEntry(row) == Some((Name(k.namespace, k.workload), row.monthlyUSD));
    IndexOrigin(MeasuredEntry, rows);
  }

  /** Every object that is priced at all is comparable. */
  ghost predicate AllComparable(
      table: Table, nodes: int, scalers: map<Target, Bounds>, pods: O.Pods, objects: seq<Object>)
  {
    forall o :: o in objects && Price(table, nodes, Lookup(scalers, TargetOf(o)), o) != Ok(None)
                ==> Comparable(table, nodes, scalers, pods, o)
  }

  /** If every priced manifest is plain, its autoscaler in its own root, and the cluster runs it as
      declared, the comparison of the merged estimates passes at any tolerance, wherever the autoscalers
      have put the replica counts. */
  lemma {:induction false} PredictionMeetsMeasurement(
      table: Table, nodes: int, parts: Parts, es: seq<Estimate>, pods: O.Pods, seen: A.Seen, rows: seq<A.CostRow>,
      tolerance: real)
    requires Validates(table) && tolerance >= 0.0
    requires AreEstimates(table, nodes, parts, es) && MergeAll(es).workloads != []
    requires NoneAffected(table, nodes, Autoscalers(Flatten(parts)), parts)
    requires Scraped(seen, pods) && A.AreRows(rows, table, seen)
    requires AllComparable(table, nodes, Autoscalers(Flatten(parts)), pods, Flatten(parts))
    ensures Reconciles(Predicted(MergeAll(es).workloads), Measured(rows), tolerance)
  {
    var measured, ws := Measured(rows), MergeAll(es).workloads;
    forall w | w in ws
      ensures PredictedEntry(w).Some? && PredictedEntry(w).value.0 in measured
      ensures Agrees(w, measured[PredictedEntry(w).value.0], tolerance)
    {
      RowAgrees(table, nodes, parts, es, pods, seen, rows, tolerance, w);
    }
    AllAgree(ws, measured, tolerance);
  }

  lemma {:induction false} RowAgrees(
      table: Table, nodes: int, parts: Parts, es: seq<Estimate>, pods: O.Pods, seen: A.Seen, rows: seq<A.CostRow>,
      tolerance: real, w: Workload)
    requires Validates(table) && tolerance >= 0.0
    requires AreEstimates(table, nodes, parts, es) && w in MergeAll(es).workloads
    requires NoneAffected(table, nodes, Autoscalers(Flatten(parts)), parts)
    requires Scraped(seen, pods) && A.AreRows(rows, table, seen)
    requires AllComparable(table, nodes, Autoscalers(Flatten(parts)), pods, Flatten(parts))
    ensures PredictedEntry(w).Some? && PredictedEntry(w).value.0 in Measured(rows)
    ensures Agrees(w, Measured(rows)[PredictedEntry(w).value.0], tolerance)
  {
    var objects, scalers := Flatten(parts), Autoscalers(Flatten(parts));
    MergedSums(table, nodes, parts, es);
    UnaffectedParts(table, nodes, scalers, parts);
    SameMembers(MergeAll(es).workloads, PriceParts(table, nodes, parts).value);
    var o := PricedFrom(table, nodes, scalers, objects, w);
    assert Comparable(table, nodes, scalers, pods, o);
    ComparableAgrees(table, nodes, scalers, pods, seen, o, tolerance);
    SettledIdentity(table, nodes, Lookup(scalers, TargetOf(o)), o, w);
    MeasuredIs(table, seen, rows, Name(w.namespace, w.name));
  }

  lemma {:induction false} AllAgree(ws: seq<Workload>, measured: map<Name, real>, tolerance: real)
    requires ws != []
    requires forall w :: w in ws ==>
               && PredictedEntry(w).Some? && PredictedEntry(w).value.0 in measured
               && Agrees(w, measured[PredictedEntry(w).value.0], tolerance)
    ensures Reconciles(Predicted(ws), measured, tolerance)
  {
    var predicted := Predicted(ws);
    IndexOrigin(PredictedEntry, ws);
    forall k | k in predicted ensures k in measured && Agrees(predicted[k], measured[k], tolerance) {
      assert Files(PredictedEntry, ws, k, predicted[k]);
    }
    assert ws[0] in ws;
    assert PredictedEntry(ws[0]).value.0 in predicted;
  }

  lemma {:induction false} PricedFrom(
      table: Table, nodes: int, scalers: map<Target, Bounds>, objects: seq<Object>, w: Workload) returns (o: Object)
    requires PriceAll(table, nodes, scalers, objects).Ok? && w in PriceAll(table, nodes, scalers, objects).value
    ensures o in objects && Price(table, nodes, Lookup(scalers, TargetOf(o)), o) == Ok(Some(w))
  {
    o := Origin(PriceUnder(table, nodes, scalers), objects, w);
  }

  lemma {:induction false} SettledIdentity(table: Table, nodes: int, bounds: Option<Bounds>, o: Object, w: Workload)
    requires Price(table, nodes, bounds, o) == Ok(Some(w)) && IsPriced(table, nodes, o)
    ensures w == Settle(table, TargetOf(o), Reserve(table, nodes, o).value, bounds)
    ensures w.namespace == NamespaceOf(o) && w.name == NameOf(o)
  {
  }

  // ---------------------------------------------------------------- kinds the exporter does not map

  /** A priced ReplicaSet or ReplicationController is measured exactly when pods of something else are
      filed under its name. */
  lemma {:induction false} UnmappedMeasuredExactlyWhen(pods: O.Pods, seen: A.Seen, o: Object)
    requires Scraped(seen, pods) && O.IsUnmapped(o) && NamespaceOf(o) != "" && NameOf(o) != ""
    ensures A.IsMeasured(seen, A.Key(NamespaceOf(o), NameOf(o), A.Requested)) <==> !O.NotShared(pods, o)
  {
    O.UnmappedFiledExactlyWhen(pods, o);
    var n := Name(NamespaceOf(o), NameOf(o));
    assert PodsOf(pods, n) == O.Filed(pods, NamespaceOf(o), NameOf(o));
  }

  /** Every workload that has a row was measured. */
  lemma {:induction false} RowIsMeasured(table: Table, seen: A.Seen, rows: seq<A.CostRow>, n: Name)
    requires A.AreRows(rows, table, seen) && n in Measured(rows)
    ensures A.IsMeasured(seen, A.Key(n.namespace, n.workload, A.Requested))
  {
    var order: seq<A.Key> :| A.Visits(order, seen) && multiset(rows) == multiset(MapSeq(A.RowOf(table, seen), order));
    IndexOrigin(MeasuredEntry, rows);
    var r :| r in rows && MeasuredEntry(r) == Some((n, Measured(rows)[n]));
    assert r in multiset(rows);
    var i :| 0 <= i < |order| && MapSeq(A.RowOf(table, seen), order)[i] == r;
    assert order[i] == A.Key(n.namespace, n.workload, A.Requested);
    assert A.IsMeasured(seen, order[i]);
  }

  /** However it runs, its prediction then fails the comparison as missing. */
  lemma {:induction false} UnmappedFails(
      table: Table, ws: seq<Workload>, pods: O.Pods, seen: A.Seen, rows: seq<A.CostRow>, tolerance: real,
      o: Object, w: Workload)
    requires Scraped(seen, pods) && A.AreRows(rows, table, seen)
    requires O.IsUnmapped(o) && O.NotShared(pods, o)
    requires w in ws && w.namespace == NamespaceOf(o) != "" && w.name == NameOf(o) != ""
    ensures !Reconciles(Predicted(ws), Measured(rows), tolerance)
  {
    var n := Name(w.namespace, w.name);
    UnmappedMeasuredExactlyWhen(pods, seen, o);
    if n in Measured(rows) {
      RowIsMeasured(table, seen, rows, n);
    }
    IndexOrigin(PredictedEntry, ws);
    assert n in Predicted(ws);
  }
}
