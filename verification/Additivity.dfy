/** Pricing manifest sets apart and together.

  The gate prices every manifest root on its own and adds the estimates up. `MergeIsExact`
  says when that gives what pricing everything together would give.
 */
module Additivity {
  import opened Results
  import opened Manifests
  import opened Ordering
  import opened Folds
  import opened Pricing
  import opened Cost

  function Merge(a: Estimate, b: Estimate): Estimate {
    Estimate(
      a.workloads + b.workloads,
      a.monthlyUSD + b.monthlyUSD,
      a.committedMonthlyUSD + b.committedMonthlyUSD,
      a.total.Add(b.total),
      a.flags + b.flags)
  }

  // ---------------------------------------------------------------- concatenation

  lemma {:induction false} SumTotalConcat(a: seq<Workload>, b: seq<Workload>)
    ensures SumTotal(a + b) == SumTotal(a).Add(SumTotal(b))
  {
    if b == [] {
      assert a + b == a;
    } else {
      assert (a + b)[..|a + b| - 1] == a + b[..|b| - 1];
      SumTotalConcat(a, b[..|b| - 1]);
    }
  }

  lemma {:induction false} SumTotalPermutes(a: seq<Workload>, b: seq<Workload>)
    requires multiset(a) == multiset(b)
    ensures SumTotal(a) == SumTotal(b)
    decreases |a|
  {
    SameSize(a, b);
    if a != [] {
      var k := SplitAtLast(a, b);
      SumTotalPermutes(a[..|a| - 1], b[..k] + b[k + 1..]);
      SumTotalConcat(b[..k], b[k + 1..]);
      SumTotalConcat(b[..k] + [b[k]], b[k + 1..]);
      assert (b[..k] + [b[k]])[..k] == b[..k];
    }
  }

  lemma {:induction false} SumsConcat(a: seq<Workload>, b: seq<Workload>)
    ensures SumMonthly(a + b) == SumMonthly(a) + SumMonthly(b)
    ensures SumFloor(a + b) == SumFloor(a) + SumFloor(b)
    ensures SumTotal(a + b) == SumTotal(a).Add(SumTotal(b))
  {
    SumConcat(MonthlyOf, a, b);
    SumConcat(FloorOf, a, b);
    SumTotalConcat(a, b);
  }

  /** The totals do not depend on the order of the workloads. */
  lemma {:induction false} SumsPermute(a: seq<Workload>, b: seq<Workload>)
    requires multiset(a) == multiset(b)
    ensures SumMonthly(a) == SumMonthly(b)
    ensures SumFloor(a) == SumFloor(b)
    ensures SumTotal(a) == SumTotal(b)
  {
    SumPermutes(MonthlyOf, a, b);
    SumPermutes(FloorOf, a, b);
    SumTotalPermutes(a, b);
  }

  // ---------------------------------------------------------------- when merging is exact

  predicate IsPriced(table: Table, nodes: int, o: Object) {
    var r := Reserve(table, nodes, o);
    r.Ok? && r.value.Reserves?
  }

  /** Every workload priced in `objects` is under the same bounds in `own` as in `all`. */
  ghost predicate Unaffected(
      table: Table, nodes: int, own: map<Target, Bounds>, all: map<Target, Bounds>, objects: seq<Object>)
  {
    forall o :: o in objects && IsPriced(table, nodes, o)
                ==> Lookup(own, TargetOf(o)) == Lookup(all, TargetOf(o))
  }

  lemma {:induction false} UnaffectedPrice(
      table: Table, nodes: int, own: Option<Bounds>, all: Option<Bounds>, o: Object)
    requires IsPriced(table, nodes, o) ==> own == all
    ensures Price(table, nodes, own, o) == Price(table, nodes, all, o)
  {
  }

  lemma {:induction false} UnaffectedPrices(
      table: Table, nodes: int, own: map<Target, Bounds>, all: map<Target, Bounds>, objects: seq<Object>)
    requires Unaffected(table, nodes, own, all, objects)
    ensures PriceAll(table, nodes, own, objects) == PriceAll(table, nodes, all, objects)
  {
    var f, g := PriceUnder(table, nodes, own), PriceUnder(table, nodes, all);
    forall o | o in objects ensures f(o) == g(o) {
      UnaffectedPrice(table, nodes, Lookup(own, TargetOf(o)), Lookup(all, TargetOf(o)), o);
    }
    CollectAgrees(f, g, objects);
  }

  /** Whether an object prices at all never depends on the autoscalers. */
  lemma {:induction false} FailureIgnoresBounds(
      table: Table, nodes: int, x: Option<Bounds>, y: Option<Bounds>, o: Object)
    ensures Price(table, nodes, x, o).Err? == Price(table, nodes, y, o).Err?
    ensures Price(table, nodes, x, o).Err? ==> Price(table, nodes, x, o) == Price(table, nodes, y, o)
  {
  }

  lemma {:induction false} FailureIgnoresScalers(
      table: Table, nodes: int, a: map<Target, Bounds>, b: map<Target, Bounds>, objects: seq<Object>)
    ensures PriceAll(table, nodes, a, objects).Err? == PriceAll(table, nodes, b, objects).Err?
    ensures PriceAll(table, nodes, a, objects).Err?
            ==> PriceAll(table, nodes, a, objects) == PriceAll(table, nodes, b, objects)
  {
    var f, g := PriceUnder(table, nodes, a), PriceUnder(table, nodes, b);
    forall o | o in objects ensures f(o).Err? == g(o).Err? && (f(o).Err? ==> f(o) == g(o)) {
      FailureIgnoresBounds(table, nodes, Lookup(a, TargetOf(o)), Lookup(b, TargetOf(o)), o);
    }
    CollectFailsAlike(f, g, objects);
  }

  // ---------------------------------------------------------------- parts and the whole

  /** The manifest sets of the roots, in the order they are priced. */
  type Parts = seq<seq<Object>>

  type PartPricer = seq<Object> -> Result<seq<Workload>, PriceError>

  function PricingApart(table: Table, nodes: int): PartPricer {
    part => PriceAll(table, nodes, Autoscalers(part), part)
  }

  /** The workloads of every part, priced under its own autoscalers. */
  function PriceParts(table: Table, nodes: int, parts: Parts): Result<seq<Workload>, PriceError> {
    Joined(PricingApart(table, nodes), parts)
  }

  function MergeAll(es: seq<Estimate>): Estimate {
    if es == [] then EMPTY else Merge(MergeAll(es[..|es| - 1]), es[|es| - 1])
  }

  /** `es` are estimates of the parts, each on its own. */
  ghost predicate AreEstimates(table: Table, nodes: int, parts: Parts, es: seq<Estimate>) {
    && |es| == |parts|
    && (parts != [] ==>
          && AreEstimates(table, nodes, parts[..|parts| - 1], es[..|es| - 1])
          && IsEstimate(table, nodes, parts[|parts| - 1], Ok(es[|es| - 1])))
  }

  /** No autoscaler of another part changes the bounds of a workload. */
  ghost predicate NoneAffected(table: Table, nodes: int, all: map<Target, Bounds>, parts: Parts) {
    forall part :: part in parts ==> Unaffected(table, nodes, Autoscalers(part), all, part)
  }

  /** `est` totals the workloads `ws` and lists them in some order. */
  ghost predicate Sums(est: Estimate, ws: seq<Workload>) {
    && multiset(est.workloads) == multiset(ws)
    && est.monthlyUSD == SumMonthly(ws)
    && est.committedMonthlyUSD == SumFloor(ws)
    && est.total == SumTotal(ws)
  }

  lemma {:induction false} MergeSums(a: Estimate, wa: seq<Workload>, b: Estimate, wb: seq<Workload>)
    requires Sums(a, wa) && Sums(b, wb)
    ensures Sums(Merge(a, b), wa + wb)
  {
    SumsConcat(wa, wb);
    MultisetsConcat(a.workloads, wa, b.workloads, wb);
  }

  lemma {:induction false} MultisetsConcat(a: seq<Workload>, wa: seq<Workload>, b: seq<Workload>, wb: seq<Workload>)
    requires multiset(a) == multiset(wa) && multiset(b) == multiset(wb)
    ensures multiset(a + b) == multiset(wa + wb)
  {
  }

  lemma {:induction false} EmptySums()
    ensures Sums(EMPTY, [])
  {
  }

  lemma {:induction false} EstimateSums(table: Table, nodes: int, objects: seq<Object>, e: Estimate)
    requires IsEstimate(table, nodes, objects, Ok(e))
    ensures PriceAll(table, nodes, Autoscalers(objects), objects).Ok?
    ensures Sums(e, PriceAll(table, nodes, Autoscalers(objects), objects).value)
  {
  }

  /** The merged estimates list and total the workloads of the parts. */
  lemma {:induction false} MergedSums(table: Table, nodes: int, parts: Parts, es: seq<Estimate>)
    requires AreEstimates(table, nodes, parts, es)
    ensures PriceParts(table, nodes, parts).Ok? && Sums(MergeAll(es), PriceParts(table, nodes, parts).value)
  {
    if parts == [] {
      EmptySums();
    } else {
      var n := |parts| - 1;
      MergedSums(table, nodes, parts[..n], es[..n]);
      EstimateSums(table, nodes, parts[n], es[n]);
      JoinedStep(PricingApart(table, nodes), parts);
      MergeSums(MergeAll(es[..n]), PriceParts(table, nodes, parts[..n]).value,
                es[n], PricingApart(table, nodes)(parts[n]).value);
    }
  }

  lemma {:induction false} UnaffectedParts(table: Table, nodes: int, all: map<Target, Bounds>, parts: Parts)
    requires NoneAffected(table, nodes, all, parts)
    ensures PriceAll(table, nodes, all, Flatten(parts)) == PriceParts(table, nodes, parts)
  {
    var together, apart := Collecting(PriceUnder(table, nodes, all)), PricingApart(table, nodes);
    CollectFlatten(PriceUnder(table, nodes, all), parts);
    forall part | part in parts ensures together(part) == apart(part) {
      UnaffectedPrices(table, nodes, Autoscalers(part), all, part);
    }
    JoinedAgrees(together, apart, parts);
  }

  lemma {:induction false} FailuresInParts(table: Table, nodes: int, all: map<Target, Bounds>, parts: Parts)
    ensures PriceAll(table, nodes, all, Flatten(parts)).Err? <==>
            exists part :: part in parts && PricingApart(table, nodes)(part).Err?
  {
    var together, apart := Collecting(PriceUnder(table, nodes, all)), PricingApart(table, nodes);
    CollectFlatten(PriceUnder(table, nodes, all), parts);
    JoinedFails(together, parts);
    forall part | part in parts ensures together(part).Err? == apart(part).Err? {
      FailureIgnoresScalers(table, nodes, Autoscalers(part), all, part);
    }
  }

  /** Pricing everything together fails exactly when pricing one of the parts fails. */
  lemma {:induction false} TogetherFailsAsParts(
      table: Table, nodes: int, parts: Parts, rs: seq<Result<Estimate, PriceError>>, r: Result<Estimate, PriceError>)
    requires |rs| == |parts| && forall i :: 0 <= i < |parts| ==> IsEstimate(table, nodes, parts[i], rs[i])
    requires IsEstimate(table, nodes, Flatten(parts), r)
    ensures r.Err? <==> exists i :: 0 <= i < |rs| && rs[i].Err?
  {
    FailuresInParts(table, nodes, Autoscalers(Flatten(parts)), parts);
    var apart := PricingApart(table, nodes);
    forall i | 0 <= i < |rs| ensures rs[i].Err? <==> apart(parts[i]).Err? {
      assert IsEstimate(table, nodes, parts[i], rs[i]);
    }
    if r.Err? {
      var part :| part in parts && apart(part).Err?;
      var i :| 0 <= i < |parts| && parts[i] == part;
      assert rs[i].Err?;
    }
  }

  /** When no autoscaler reaches across, merging the estimates of the parts gives the estimate of the
      whole, up to the order of the rows. */
  lemma {:induction false} MergeOfUnaffected(
      table: Table, nodes: int, parts: Parts, es: seq<Estimate>, r: Result<Estimate, PriceError>)
    requires AreEstimates(table, nodes, parts, es) && IsEstimate(table, nodes, Flatten(parts), r)
    requires NoneAffected(table, nodes, Autoscalers(Flatten(parts)), parts)
    ensures r.Ok?
    ensures multiset(r.value.workloads) == multiset(MergeAll(es).workloads)
    ensures r.value.monthlyUSD == MergeAll(es).monthlyUSD
    ensures r.value.committedMonthlyUSD == MergeAll(es).committedMonthlyUSD
    ensures r.value.total == MergeAll(es).total
  {
    MergedSums(table, nodes, parts, es);
    UnaffectedParts(table, nodes, Autoscalers(Flatten(parts)), parts);
    EstimateSums(table, nodes, Flatten(parts), r.value);
  }

  // ---------------------------------------------------------------- bounds can be read off a workload

  predicate NoDefaultMax(flags: seq<Flag>) {
    forall i :: 0 <= i < |flags| ==> !flags[i].DefaultMaxReplicas?
  }

  lemma {:induction false} OwnFlags(table: Table, v: Value)
    requires ContainerResources(table, v).Ok?
    ensures NoDefaultMax(ContainerResources(table, v).value.flags)
  {
  }

  lemma {:induction false} JoinedFlags(ps: seq<Priced>)
    requires forall p :: p in ps ==> NoDefaultMax(p.flags)
    ensures NoDefaultMax(FlagsOf(ps))
  {
    if ps != [] {
      var front, last := ps[..|ps| - 1], ps[|ps| - 1];
      assert last in ps;
      JoinedFlags(front);
    }
  }

  lemma {:induction false} ContainerFlags(table: Table, items: seq<Value>)
    requires Containers(table, items).Ok?
    ensures forall p :: p in Containers(table, items).value ==> NoDefaultMax(p.flags)
  {
    if items != [] {
      ContainerFlags(table, items[..|items| - 1]);
      OwnFlags(table, items[|items| - 1]);
    }
  }

  lemma {:induction false} SidecarFlags(table: Table, items: seq<Value>)
    requires Inits(table, items).Ok?
    ensures forall p :: p in Sidecars(Inits(table, items).value) ==> NoDefaultMax(p.flags)
  {
    if items != [] {
      var n := |items| - 1;
      SidecarFlags(table, items[..n]);
      OwnFlags(table, items[n]);
      SidecarsStep(Inits(table, items[..n]).value, Inits(table, items).value[n]);
    }
  }

  lemma {:induction false} PodFlags(table: Table, podSpec: Value)
    ensures PodResult(table, podSpec).Ok? ==> NoDefaultMax(PodResult(table, podSpec).value.flags)
  {
    if PodResult(table, podSpec).Ok? && podSpec.Map? {
      var apps, inits := AsList(Field(podSpec.fields, "containers")), AsList(Field(podSpec.fields, "initContainers"));
      ContainerFlags(table, apps);
      JoinedFlags(Containers(table, apps).value);
      SidecarFlags(table, inits);
      JoinedFlags(Sidecars(Inits(table, inits).value));
    }
  }

  lemma {:induction false} ReplicaFlags(table: Table, spec: map<string, Value>, stateful: bool)
    requires ReserveReplicas(table, spec, stateful).Ok? && ReserveReplicas(table, spec, stateful).value.Reserves?
    ensures NoDefaultMax(ReserveReplicas(table, spec, stateful).value.flags)
  {
    PodFlags(table, PodSpecFrom(spec));
  }

  lemma {:induction false} ReserveFlags(table: Table, nodes: int, o: Object)
    requires IsPriced(table, nodes, o)
    ensures NoDefaultMax(Reserve(table, nodes, o).value.flags)
  {
    match ClassOf(KindOf(o))
    case Replicated => ReplicaFlags(table, SpecOf(o), false);
    case Stateful => ReplicaFlags(table, SpecOf(o), true);
    case PerNode => PodFlags(table, PodSpecFrom(SpecOf(o)));
    case Single => PodFlags(table, Field(o, "spec"));
    case Claim =>
  }

  /** The autoscalers an object set can contribute. */
  ghost predicate Gathered(scalers: map<Target, Bounds>) {
    forall t :: t in scalers ==> scalers[t].flags == [] || scalers[t].flags == [DefaultMaxReplicas]
  }

  lemma {:induction false} AutoscalersGathered(objects: seq<Object>)
    ensures Gathered(Autoscalers(objects))
  {
    IndexAll(ScalerOf, objects, (b: Bounds) => b.flags == [] || b.flags == [DefaultMaxReplicas]);
  }

  /** Settling with different bounds gives different workloads, whatever was reserved. */
  lemma {:induction false} BoundsShow(
      table: Table, id: Target, r: Reserved, q: Reserved, x: Option<Bounds>, y: Option<Bounds>)
    requires r.Reserves? && q.Reserves? && NoDefaultMax(r.flags) && NoDefaultMax(q.flags)
    requires x.Some? ==> x.value.flags == [] || x.value.flags == [DefaultMaxReplicas]
    requires y.Some? ==> y.value.flags == [] || y.value.flags == [DefaultMaxReplicas]
    requires Settle(table, id, r, x) == Settle(table, id, q, y)
    ensures x == y
  {
    if x.Some? && y.Some? {
      var v, w := Settle(table, id, r, x), Settle(table, id, q, y);
      LastTwo(r.flags, x.value.flags, v.flags[|v.flags| - 1]);
      LastTwo(q.flags, y.value.flags, w.flags[|w.flags| - 1]);
    }
  }

  lemma {:induction false} LastTwo(flags: seq<Flag>, more: seq<Flag>, last: Flag)
    requires NoDefaultMax(flags) && !last.DefaultMaxReplicas?
    requires more == [] || more == [DefaultMaxReplicas]
    ensures DefaultMaxReplicas in flags + more + [last] <==> more == [DefaultMaxReplicas]
    ensures (flags + more + [last])[|flags + more|] == last
  {
    if more == [DefaultMaxReplicas] {
      assert (flags + more + [last])[|flags|] == DefaultMaxReplicas;
    }
  }

  lemma {:induction false} PriceOfPriced(table: Table, nodes: int, bounds: Option<Bounds>, o: Object)
    requires IsPriced(table, nodes, o)
    ensures Price(table, nodes, bounds, o)
            == Ok(Some(Settle(table, TargetOf(o), Reserve(table, nodes, o).value, bounds)))
  {
  }

  /** Each priced object has its workload in the list. */
  lemma {:induction false} PricedAppears(
      table: Table, nodes: int, scalers: map<Target, Bounds>, objects: seq<Object>, o: Object)
    requires PriceAll(table, nodes, scalers, objects).Ok? && o in objects && IsPriced(table, nodes, o)
    ensures Settle(table, TargetOf(o), Reserve(table, nodes, o).value, Lookup(scalers, TargetOf(o)))
            in PriceAll(table, nodes, scalers, objects).value
  {
    PriceOfPriced(table, nodes, Lookup(scalers, TargetOf(o)), o);
    Collected(PriceUnder(table, nodes, scalers), objects, o);
  }

  lemma {:induction false} UnpriceableClass(table: Table, nodes: int, o: Object)
    requires Reserve(table, nodes, o).Ok?
    ensures Reserve(table, nodes, o).value.Unpriceable? <==> ClassOf(KindOf(o)).Batch?
  {
    match ClassOf(KindOf(o))
    case Replicated => assert Reserve(table, nodes, o) == ReserveReplicas(table, SpecOf(o), false);
    case Stateful => assert Reserve(table, nodes, o) == ReserveReplicas(table, SpecOf(o), true);
    case _ =>
  }

  /** A workload carries the identity and the class of the object it was priced from. */
  lemma {:induction false} OriginIdentity(table: Table, nodes: int, bounds: Option<Bounds>, o: Object, w: Workload)
    requires Price(table, nodes, bounds, o) == Ok(Some(w))
    ensures TargetOf(o) == Target(w.namespace, w.kind, w.name)
    ensures IsPriced(table, nodes, o) <==> !ClassOf(w.kind).Batch?
  {
    UnpriceableClass(table, nodes, o);
    match Reserve(table, nodes, o).value
    case Skipped =>
    case Unpriceable =>
    case Reserves(_, _, _) =>
  }

  /** If the whole lists the workload of `o` as its own part does, both see the same bounds. */
  lemma {:induction false} SameWorkloadSameBounds(
      table: Table, nodes: int, own: map<Target, Bounds>, all: map<Target, Bounds>,
      everything: seq<Object>, o: Object)
    requires Gathered(own) && Gathered(all)
    requires PriceAll(table, nodes, all, everything).Ok?
    requires IsPriced(table, nodes, o)
    requires Settle(table, TargetOf(o), Reserve(table, nodes, o).value, Lookup(own, TargetOf(o)))
             in PriceAll(table, nodes, all, everything).value
    ensures Lookup(own, TargetOf(o)) == Lookup(all, TargetOf(o))
  {
    var id, r := TargetOf(o), Reserve(table, nodes, o).value;
    var w := Settle(table, id, r, Lookup(own, id));
    var p := Origin(PriceUnder(table, nodes, all), everything, w);
    PriceOfPriced(table, nodes, Lookup(own, id), o);
    OriginIdentity(table, nodes, Lookup(own, id), o, w);
    OriginIdentity(table, nodes, Lookup(all, TargetOf(p)), p, w);
    PriceOfPriced(table, nodes, Lookup(all, id), p);
    ReserveFlags(table, nodes, o);
    ReserveFlags(table, nodes, p);
    BoundsShow(table, id, r, Reserve(table, nodes, p).value, Lookup(own, id), Lookup(all, id));
  }

  lemma {:induction false} SameMembers(a: seq<Workload>, b: seq<Workload>)
    requires multiset(a) == multiset(b)
    ensures forall w :: w in a ==> w in b
  {
    forall w | w in a ensures w in b {
      assert w in multiset(a);
      assert w in multiset(b);
    }
  }

  /** Merging the parts lists the workloads of the whole exactly when every priced workload is under the
      same bounds in its own part as in the whole. */
  lemma {:induction false} MergeIsExact(table: Table, nodes: int, parts: Parts, es: seq<Estimate>, e: Estimate)
    requires AreEstimates(table, nodes, parts, es) && IsEstimate(table, nodes, Flatten(parts), Ok(e))
    ensures multiset(e.workloads) == multiset(MergeAll(es).workloads) <==>
            NoneAffected(table, nodes, Autoscalers(Flatten(parts)), parts)
  {
    if NoneAffected(table, nodes, Autoscalers(Flatten(parts)), parts) {
      MergeOfUnaffected(table, nodes, parts, es, Ok(e));
    }
    if multiset(e.workloads) == multiset(MergeAll(es).workloads) {
      MergedSums(table, nodes, parts, es);
      EstimateSums(table, nodes, Flatten(parts), e);
      var whole := PriceAll(table, nodes, Autoscalers(Flatten(parts)), Flatten(parts)).value;
      SameMembers(PriceParts(table, nodes, parts).value, whole);
      forall part | part in parts
        ensures Unaffected(table, nodes, Autoscalers(part), Autoscalers(Flatten(parts)), part)
      {
        JoinedHas(PricingApart(table, nodes), parts, part);
        PartUnaffected(table, nodes, part, Flatten(parts), whole);
      }
    }
  }

  /** A part whose workloads, as priced on its own, are all among those of the whole. */
  lemma {:induction false} PartUnaffected(
      table: Table, nodes: int, part: seq<Object>, everything: seq<Object>, whole: seq<Workload>)
    requires PriceAll(table, nodes, Autoscalers(part), part).Ok?
    requires PriceAll(table, nodes, Autoscalers(everything), everything) == Ok(whole)
    requires forall w :: w in PriceAll(table, nodes, Autoscalers(part), part).value ==> w in whole
    ensures Unaffected(table, nodes, Autoscalers(part), Autoscalers(everything), part)
  {
    var own, all := Autoscalers(part), Autoscalers(everything);
    AutoscalersGathered(part);
    AutoscalersGathered(everything);
    forall o | o in part && IsPriced(table, nodes, o) ensures Lookup(own, TargetOf(o)) == Lookup(all, TargetOf(o)) {
      PricedAppears(table, nodes, own, part, o);
      SameWorkloadSameBounds(table, nodes, own, all, everything, o);
    }
  }

  /** An autoscaler kept in another root than its workload always breaks the merge. */
  lemma {:induction false} ScalerInAnotherRoot(
      table: Table, nodes: int, parts: Parts, es: seq<Estimate>, e: Estimate, i: nat, j: nat, o: Object, scaler: Object)
    requires AreEstimates(table, nodes, parts, es) && IsEstimate(table, nodes, Flatten(parts), Ok(e))
    requires i < |parts| && o in parts[i] && IsPriced(table, nodes, o) && TargetOf(o) !in Autoscalers(parts[i])
    requires j < |parts| && scaler in parts[j] && ScalerOf(scaler).Some? && ScalerOf(scaler).value.0 == TargetOf(o)
    ensures multiset(e.workloads) != multiset(MergeAll(es).workloads)
  {
    MergeIsExact(table, nodes, parts, es, e);
    IndexOrigin(ScalerOf, Flatten(parts));
    InFlatten(parts, j, scaler);
    assert Lookup(Autoscalers(Flatten(parts)), TargetOf(o)).Some?;
    assert !Unaffected(table, nodes, Autoscalers(parts[i]), Autoscalers(Flatten(parts)), parts[i]);
  }

  /** In the smallest such case the merged ceiling is the cost of the manifest's own replica count,
      while the whole is priced at the autoscaler's maximum. */
  lemma {:induction false} WorkloadApartFromScaler(
      table: Table, nodes: int, o: Object, scaler: Object, ea: Estimate, eb: Estimate, e: Estimate)
    requires IsEstimate(table, nodes, [o], Ok(ea)) && IsEstimate(table, nodes, [scaler], Ok(eb))
    requires IsEstimate(table, nodes, [o] + [scaler], Ok(e))
    requires IsPriced(table, nodes, o) && ScalerOf(o).None?
    requires ScalerOf(scaler).Some? && ScalerOf(scaler).value.0 == TargetOf(o) && ClassOf(KindOf(scaler)).Other?
    ensures var r, bounds := Reserve(table, nodes, o).value, ScalerOf(scaler).value.1;
            && Merge(ea, eb).monthlyUSD == CostOf(table, r.per.Scale(r.replicas as real))
            && e.monthlyUSD == CostOf(table, r.per.Scale(bounds.max as real))
  {
    PricesApart(table, nodes, o, scaler);
    EstimateSums(table, nodes, [o], ea);
    EstimateSums(table, nodes, [scaler], eb);
    EstimateSums(table, nodes, [o] + [scaler], e);
  }

  lemma {:induction false} PricesApart(table: Table, nodes: int, o: Object, scaler: Object)
    requires IsPriced(table, nodes, o) && ScalerOf(o).None?
    requires ScalerOf(scaler).Some? && ScalerOf(scaler).value.0 == TargetOf(o) && ClassOf(KindOf(scaler)).Other?
    ensures var r, bounds := Reserve(table, nodes, o).value, ScalerOf(scaler).value.1;
            var w, v := Settle(table, TargetOf(o), r, None), Settle(table, TargetOf(o), r, Some(bounds));
            && PriceAll(table, nodes, Autoscalers([o]), [o]) == Ok([w])
            && PriceAll(table, nodes, Autoscalers([scaler]), [scaler]) == Ok([])
            && PriceAll(table, nodes, Autoscalers([o] + [scaler]), [o] + [scaler]) == Ok([v])
            && SumMonthly([w]) == w.monthlyUSD && SumMonthly([v]) == v.monthlyUSD && SumMonthly([]) == 0.0
  {
    var none, both := Autoscalers([o]), Autoscalers([scaler]);
    ScalerIndexes(o, scaler);
    OneWorkload(table, nodes, none, o);
    OneWorkload(table, nodes, both, o);
    NoWorkload(table, nodes, both, scaler);
    CollectWithNone(PriceUnder(table, nodes, both), [o], scaler);
  }

  lemma {:induction false} ScalerIndexes(o: Object, scaler: Object)
    requires ScalerOf(o).None? && ScalerOf(scaler).Some?
    ensures Autoscalers([o]) == map[]
    ensures Autoscalers([scaler]) == Autoscalers([o] + [scaler])
            == map[ScalerOf(scaler).value.0 := ScalerOf(scaler).value.1]
  {
    IndexSingle(ScalerOf, o);
    IndexSingle(ScalerOf, scaler);
    IndexConcat(ScalerOf, [o], [scaler]);
  }

  /** The object's workload is the only one, and its cost the total. */
  lemma {:induction false} OneWorkload(table: Table, nodes: int, scalers: map<Target, Bounds>, o: Object)
    requires IsPriced(table, nodes, o)
    ensures var w := Settle(table, TargetOf(o), Reserve(table, nodes, o).value, Lookup(scalers, TargetOf(o)));
            PriceAll(table, nodes, scalers, [o]) == Ok([w]) && SumMonthly([w]) == w.monthlyUSD
  {
    var w := Settle(table, TargetOf(o), Reserve(table, nodes, o).value, Lookup(scalers, TargetOf(o)));
    PriceOfPriced(table, nodes, Lookup(scalers, TargetOf(o)), o);
    CollectSingle(PriceUnder(table, nodes, scalers), o);
    SumStep(MonthlyOf, [], w);
    assert [] + [w] == [w];
  }

  lemma {:induction false} NoWorkload(table: Table, nodes: int, scalers: map<Target, Bounds>, o: Object)
    requires ClassOf(KindOf(o)).Other?
    ensures PriceUnder(table, nodes, scalers)(o) == Ok(None)
    ensures PriceAll(table, nodes, scalers, [o]) == Ok([]) && SumMonthly([]) == 0.0
  {
    assert Reserve(table, nodes, o) == Ok(Skipped);
    CollectSingle(PriceUnder(table, nodes, scalers), o);
  }
}
