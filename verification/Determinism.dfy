/** The order in which manifests arrive does not matter.

  Kustomize and the directory listing decide the order of the objects, and `sort.Slice` is free
  to place ties as it likes. Neither shows in the estimate when no two autoscalers share a target
  and no two priced workloads share a reference.
 */
module Determinism {
  import opened Results
  import opened Manifests
  import opened Ordering
  import opened Folds
  import opened Pricing
  import opened Cost
  import opened Additivity

  // ---------------------------------------------------------------- references

  predicate NoSlash(s: string) {
    '/' !in s
  }

  lemma {:induction false} FirstSlash(a: string, x: string, b: string, y: string)
    requires NoSlash(a) && NoSlash(b)
    requires a + ['/'] + x == b + ['/'] + y
    ensures a == b && x == y
  {
    var l, r := a + ['/'] + x, b + ['/'] + y;
    assert l[0] == if a == [] then '/' else a[0];
    assert r[0] == if b == [] then '/' else b[0];
    if a == [] && b == [] {
      assert l[1..] == x && r[1..] == y;
    } else if a != [] && b != [] {
      assert l[1..] == a[1..] + ['/'] + x && r[1..] == b[1..] + ['/'] + y;
      FirstSlash(a[1..], x, b[1..], y);
      assert a == [a[0]] + a[1..] && b == [b[0]] + b[1..];
    }
  }

  /** Kubernetes names hold no slash; then the reference tells kind, namespace and name apart. */
  lemma {:induction false} RefInjective(v: Workload, w: Workload)
    requires NoSlash(v.kind) && NoSlash(v.namespace) && NoSlash(v.name)
    requires NoSlash(w.kind) && NoSlash(w.namespace) && NoSlash(w.name)
    requires v.Ref() == w.Ref()
    ensures v.kind == w.kind && v.namespace == w.namespace && v.name == w.name
  {
    var x := if v.namespace == "" then v.name else v.namespace + ['/'] + v.name;
    var y := if w.namespace == "" then w.name else w.namespace + ['/'] + w.name;
    assert v.Ref() == v.kind + ['/'] + x;
    assert w.Ref() == w.kind + ['/'] + y;
    FirstSlash(v.kind, x, w.kind, y);
    assert v.namespace != "" ==> x[|v.namespace|] == '/';
    assert w.namespace != "" ==> y[|w.namespace|] == '/';
    if v.namespace != "" {
      FirstSlash(v.namespace, v.name, w.namespace, w.name);
    }
  }

  // ---------------------------------------------------------------- autoscalers

  ghost predicate OneScalerPerTarget(objects: seq<Object>) {
    OnePerKey(ScalerOf, objects)
  }

  // ---------------------------------------------------------------- estimates

  lemma {:induction false} DistinctRefsAreStrict(ws: seq<Workload>)
    requires DistinctRefs(ws)
    ensures StrictOn(multiset(ws), RefLeq)
  {
    forall v, w | v in multiset(ws) && w in multiset(ws) && RefLeq(v, w) && RefLeq(w, v) ensures v == w {
      StrAntisymmetric(v.Ref(), w.Ref());
      var i :| 0 <= i < |ws| && ws[i] == v;
      var j :| 0 <= j < |ws| && ws[j] == w;
    }
  }

  /** Any two estimates of the same objects, in whatever order and with whatever sort, agree:
      both fail, or both give the same rows in the same order and the same totals. */
  lemma {:induction false} EstimateIgnoresOrder(
      table: Table, nodes: int, a: seq<Object>, b: seq<Object>,
      ra: Result<Estimate, PriceError>, rb: Result<Estimate, PriceError>)
    requires IsEstimate(table, nodes, a, ra) && IsEstimate(table, nodes, b, rb)
    requires multiset(a) == multiset(b) && OneScalerPerTarget(a)
    ensures ra.Err? <==> rb.Err?
    ensures ra.Ok? && DistinctRefs(ra.value.workloads) ==> ra == rb
  {
    IndexPermutes(ScalerOf, a, b);
    var f := PriceUnder(table, nodes, Autoscalers(a));
    CollectPermutes(f, a, b);
    if ra.Ok? {
      var wa, wb := Collect(f, a).value, Collect(f, b).value;
      SumsPermute(wa, wb);
      if DistinctRefs(ra.value.workloads) {
        DistinctRefsAreStrict(ra.value.workloads);
        SortedUnique(ra.value.workloads, rb.value.workloads, RefLeq);
      }
    }
  }

  // ---------------------------------------------------------------- distinct names

  /** The object is listed in an estimate, priced or not. */
  predicate IsListed(table: Table, nodes: int, o: Object) {
    var r := Reserve(table, nodes, o);
    r.Ok? && !r.value.Skipped?
  }

  predicate HasPlainName(o: Object) {
    NoSlash(KindOf(o)) && NoSlash(NamespaceOf(o)) && NoSlash(NameOf(o))
  }

  /** The listed objects have names without slashes, and no two are of one kind, namespace and name. */
  ghost predicate DistinctNames(table: Table, nodes: int, objects: seq<Object>) {
    && (forall o :: o in objects && IsListed(table, nodes, o) ==> HasPlainName(o))
    && forall i, j :: 0 <= i < j < |objects| && IsListed(table, nodes, objects[i]) && IsListed(table, nodes, objects[j])
                      ==> TargetOf(objects[i]) != TargetOf(objects[j])
  }

  lemma {:induction false} ListedFrom(table: Table, nodes: int, bounds: Option<Bounds>, o: Object, w: Workload)
    requires Price(table, nodes, bounds, o) == Ok(Some(w))
    ensures IsListed(table, nodes, o) && TargetOf(o) == Target(w.namespace, w.kind, w.name)
  {
    OriginIdentity(table, nodes, bounds, o, w);
  }

  lemma {:induction false} DifferentNamesDifferentRefs(
      table: Table, nodes: int, x: Option<Bounds>, y: Option<Bounds>, o: Object, p: Object, v: Workload, w: Workload)
    requires Price(table, nodes, x, o) == Ok(Some(v)) && Price(table, nodes, y, p) == Ok(Some(w))
    requires HasPlainName(o) && HasPlainName(p) && TargetOf(o) != TargetOf(p)
    ensures v.Ref() != w.Ref()
  {
    ListedFrom(table, nodes, x, o, v);
    ListedFrom(table, nodes, y, p, w);
    if v.Ref() == w.Ref() {
      RefInjective(v, w);
    }
  }

  lemma {:induction false} CollectedRefs(table: Table, nodes: int, scalers: map<Target, Bounds>, objects: seq<Object>)
    requires PriceAll(table, nodes, scalers, objects).Ok? && DistinctNames(table, nodes, objects)
    ensures DistinctRefs(PriceAll(table, nodes, scalers, objects).value)
  {
    if objects != [] {
      var n := |objects| - 1;
      var f, front, last := PriceUnder(table, nodes, scalers), objects[..n], objects[n];
      FrontNames(table, nodes, objects);
      CollectedRefs(table, nodes, scalers, front);
      var ws := Collect(f, front).value;
      if f(last).value.Some? {
        var w := f(last).value.value;
        forall i | 0 <= i < |ws| ensures ws[i].Ref() != w.Ref() {
          var o := Origin(f, front, ws[i]);
          LastDiffers(table, nodes, scalers, objects, o, ws[i], w);
        }
      }
    }
  }

  lemma {:induction false} FrontNames(table: Table, nodes: int, objects: seq<Object>)
    requires objects != [] && DistinctNames(table, nodes, objects)
    ensures DistinctNames(table, nodes, objects[..|objects| - 1])
  {
    assert forall o :: o in objects[..|objects| - 1] ==> o in objects;
  }

  lemma {:induction false} LastDiffers(
      table: Table, nodes: int, scalers: map<Target, Bounds>, objects: seq<Object>, o: Object, v: Workload, w: Workload)
    requires objects != [] && DistinctNames(table, nodes, objects) && o in objects[..|objects| - 1]
    requires PriceUnder(table, nodes, scalers)(o) == Ok(Some(v))
    requires PriceUnder(table, nodes, scalers)(objects[|objects| - 1]) == Ok(Some(w))
    ensures v.Ref() != w.Ref()
  {
    var last := objects[|objects| - 1];
    var i :| 0 <= i < |objects| - 1 && objects[i] == o;
    var x, y := Lookup(scalers, TargetOf(o)), Lookup(scalers, TargetOf(last));
    ListedFrom(table, nodes, x, o, v);
    ListedFrom(table, nodes, y, last, w);
    DifferentNamesDifferentRefs(table, nodes, x, y, o, last, v, w);
  }

  lemma {:induction false} DistinctRefsPermute(a: seq<Workload>, b: seq<Workload>)
    requires DistinctRefs(a) && multiset(a) == multiset(b)
    ensures DistinctRefs(b)
  {
    forall i, j | 0 <= i < j < |b| ensures b[i].Ref() != b[j].Ref() {
      var k, l := TwoPlaces(b, a, i, j);
      assert k < l ==> a[k].Ref() != a[l].Ref();
      assert l < k ==> a[l].Ref() != a[k].Ref();
    }
  }

  /** Objects of distinct names are listed under distinct references. */
  lemma {:induction false} NamesGiveRefs(table: Table, nodes: int, objects: seq<Object>, est: Estimate)
    requires IsEstimate(table, nodes, objects, Ok(est)) && DistinctNames(table, nodes, objects)
    ensures DistinctRefs(est.workloads)
  {
    CollectedRefs(table, nodes, Autoscalers(objects), objects);
    DistinctRefsPermute(PriceAll(table, nodes, Autoscalers(objects), objects).value, est.workloads);
  }

  /** So manifests with proper names, no two alike and no two autoscalers of one target, have one estimate. */
  lemma {:induction false} NamedEstimatesAgree(
      table: Table, nodes: int, a: seq<Object>, b: seq<Object>, ea: Estimate, rb: Result<Estimate, PriceError>)
    requires IsEstimate(table, nodes, a, Ok(ea)) && IsEstimate(table, nodes, b, rb)
    requires multiset(a) == multiset(b) && OneScalerPerTarget(a) && DistinctNames(table, nodes, a)
    ensures rb == Ok(ea)
  {
    NamesGiveRefs(table, nodes, a, ea);
    EstimateIgnoresOrder(table, nodes, a, b, Ok(ea), rb);
  }

  // ---------------------------------------------------------------- tables that differ in provenance only

  lemma {:induction false} SameContainers(s: Table, t: Table, items: seq<Value>)
    requires !RatesChanged(s, t)
    ensures Containers(s, items) == Containers(t, items)
    ensures Inits(s, items) == Inits(t, items)
  {
    if items != [] {
      SameContainers(s, t, items[..|items| - 1]);
    }
  }

  lemma {:induction false} SamePod(s: Table, t: Table, podSpec: Value)
    requires !RatesChanged(s, t)
    ensures PodResult(s, podSpec) == PodResult(t, podSpec)
  {
    if podSpec.Map? {
      SameContainers(s, t, AsList(Field(podSpec.fields, "containers")));
      SameContainers(s, t, AsList(Field(podSpec.fields, "initContainers")));
    }
  }

  lemma {:induction false} SameReserve(s: Table, t: Table, nodes: int, o: Object)
    requires !RatesChanged(s, t)
    ensures Reserve(s, nodes, o) == Reserve(t, nodes, o)
  {
    match ClassOf(KindOf(o))
    case Replicated => SameReplicas(s, t, SpecOf(o), false);
    case Stateful => SameReplicas(s, t, SpecOf(o), true);
    case PerNode => SamePod(s, t, PodSpecFrom(SpecOf(o)));
    case Single => SamePod(s, t, Field(o, "spec"));
    case Claim =>
    case Batch =>
    case Other =>
  }

  lemma {:induction false} SameReplicas(s: Table, t: Table, spec: map<string, Value>, stateful: bool)
    requires !RatesChanged(s, t)
    ensures ReserveReplicas(s, spec, stateful) == ReserveReplicas(t, spec, stateful)
  {
    SamePod(s, t, PodSpecFrom(spec));
  }

  lemma {:induction false} SameSettle(s: Table, t: Table, id: Target, r: Reserved, bounds: Option<Bounds>)
    requires !RatesChanged(s, t) && r.Reserves?
    ensures Settle(s, id, r, bounds) == Settle(t, id, r, bounds)
  {
    match bounds
    case None => SameCost(s, t, r.per.Scale(r.replicas as real));
    case Some(b) =>
      SameCost(s, t, r.per.Scale(b.max as real));
      SameCost(s, t, r.per.Scale(b.min as real));
  }

  lemma {:induction false} SameCost(s: Table, t: Table, r: Resources)
    requires !RatesChanged(s, t)
    ensures CostOf(s, r) == CostOf(t, r)
  {
  }

  lemma {:induction false} SamePrice(s: Table, t: Table, nodes: int, bounds: Option<Bounds>, o: Object)
    requires !RatesChanged(s, t)
    ensures Price(s, nodes, bounds, o) == Price(t, nodes, bounds, o)
  {
    SameReserve(s, t, nodes, o);
    if IsPriced(s, nodes, o) {
      SameSettle(s, t, TargetOf(o), Reserve(s, nodes, o).value, bounds);
    }
  }

  /** If the gate finds no rate change, the two tables price every manifest set alike. */
  lemma {:induction false} UnchangedRatesPriceAlike(
      s: Table, t: Table, nodes: int, scalers: map<Target, Bounds>, objects: seq<Object>)
    requires !RatesChanged(s, t)
    ensures PriceAll(s, nodes, scalers, objects) == PriceAll(t, nodes, scalers, objects)
  {
    var f, g := PriceUnder(s, nodes, scalers), PriceUnder(t, nodes, scalers);
    forall o | o in objects ensures f(o) == g(o) {
      SamePrice(s, t, nodes, Lookup(scalers, TargetOf(o)), o);
    }
    CollectAgrees(f, g, objects);
  }
}
