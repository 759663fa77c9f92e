/** Pricing of manifests: what each workload reserves and what that costs.

  Every operation that loops or updates state is a method, proved against a specification
  function of its inputs; the modules Timeline, Additivity and Determinism prove what those
  functions mean.
 */
module Cost {
  import opened Results
  import opened Manifests
  import opened Ordering
  import opened Folds
  import opened Pricing

  function Gib(bytes: real): real {
    bytes / 1073741824.0
  }

  const KEDA_DEFAULT_MAX_REPLICAS: int := 100

  datatype Resources = Resources(cpu: real, memory: real, storage: real) {
    function Add(o: Resources): Resources {
      Resources(cpu + o.cpu, memory + o.memory, storage + o.storage)
    }

    function Scale(n: real): Resources {
      Resources(cpu * n, memory * n, storage * n)
    }
  }

  const NOTHING: Resources := Resources(0.0, 0.0, 0.0)

  /** Assumptions made while pricing; carried into the report. */
  datatype Flag =
    | AssumedCpu(container: string, amount: string)
    | AssumedMemory(container: string, amount: string)
    | AssumedNodes(count: int)
    | RuntimeUnknown
    | DefaultMaxReplicas
    | ScaledBetween(source: string, min: int, max: int, floorUSD: real)

  datatype Workload = Workload(
    kind: string,
    namespace: string,
    name: string,
    replicas: int,
    perReplica: Resources,
    total: Resources,
    monthlyUSD: real,
    autoscaled: bool,
    minReplicas: int,
    maxReplicas: int,
    floorMonthlyUSD: real,
    flags: seq<Flag>)
  {
    function Ref(): string {
      if namespace == "" then kind + "/" + name else kind + "/" + namespace + "/" + name
    }
  }

  /** `monthlyUSD` is the authorised ceiling, `committedMonthlyUSD` the floor. */
  datatype Estimate = Estimate(
    workloads: seq<Workload>,
    monthlyUSD: real,
    committedMonthlyUSD: real,
    total: Resources,
    flags: seq<string>)

  const EMPTY: Estimate := Estimate([], 0.0, 0.0, NOTHING, [])

  datatype PriceError =
    | BadQuantity(container: string, request: string)
    | BadStorage

  datatype Target = Target(namespace: string, kind: string, name: string)

  datatype Bounds = Bounds(min: int, max: int, source: string, flags: seq<Flag>)

  // ---------------------------------------------------------------- containers and pods

  datatype Priced = Priced(res: Resources, flags: seq<Flag>)

  function Max(x: real, y: real): real {
    if x >= y then x else y
  }

  function RequestsOf(container: map<string, Value>): map<string, Value> {
    AsMap(Field(AsMap(Field(container, "resources")), "requests"))
  }

  function Request(requests: map<string, Value>, key: string, otherwise: Text): Option<Quantity> {
    ParseQuantity(if key in requests then requests[key] else Str(otherwise))
  }

  function ContainerResources(table: Table, v: Value): Result<Priced, PriceError> {
    if !v.Map? then Ok(Priced(NOTHING, []))
    else
      var name := AsText(Field(v.fields, "name"));
      var requests := RequestsOf(v.fields);
      var missing := table.spec.missingRequests;
      var cpu := Request(requests, "cpu", missing.cpu);
      var memory := Request(requests, "memory", missing.memory);
      var storage := Request(requests, "ephemeral-storage", Text("", Some(Quantity(0, 0))));
      if cpu.None? then Err(BadQuantity(name, "cpu"))
      else if memory.None? then Err(BadQuantity(name, "memory"))
      else if storage.None? then Err(BadQuantity(name, "ephemeral-storage"))
      else
        var cpuFlags := if "cpu" !in requests && missing.flag then [AssumedCpu(name, missing.cpu.s)] else [];
        var memFlags := if "memory" !in requests && missing.flag then [AssumedMemory(name, missing.memory.s)] else [];
        Ok(Priced(
             Resources(
               cpu.value.milliValue as real / 1000.0,
               Gib(memory.value.value as real),
               Gib(storage.value.value as real)),
             cpuFlags + memFlags))
  }

  /** An init container; a sidecar is one whose restart policy is `Always`. */
  datatype Init = Init(sidecar: bool, priced: Priced)

  datatype Pod = Pod(apps: seq<Priced>, inits: seq<Init>)

  predicate IsSidecar(v: Value) {
    AsText(Field(AsMap(v), "restartPolicy")) == "Always"
  }

  function Containers(table: Table, items: seq<Value>): (r: Result<seq<Priced>, PriceError>)
    ensures r.Ok? ==> |r.value| == |items|
  {
    if items == [] then Ok([])
    else
      var front :- Containers(table, items[..|items| - 1]);
      var last :- ContainerResources(table, items[|items| - 1]);
      Ok(front + [last])
  }

  function Inits(table: Table, items: seq<Value>): (r: Result<seq<Init>, PriceError>)
    ensures r.Ok? ==> |r.value| == |items|
  {
    if items == [] then Ok([])
    else
      var front :- Inits(table, items[..|items| - 1]);
      var last :- ContainerResources(table, items[|items| - 1]);
      Ok(front + [Init(IsSidecar(items[|items| - 1]), last)])
  }

  function PodOf(table: Table, podSpec: map<string, Value>): Result<Pod, PriceError> {
    var apps :- Containers(table, AsList(Field(podSpec, "containers")));
    var inits :- Inits(table, AsList(Field(podSpec, "initContainers")));
    Ok(Pod(apps, inits))
  }

  function Held(ps: seq<Priced>): Resources {
    if ps == [] then NOTHING else Held(ps[..|ps| - 1]).Add(ps[|ps| - 1].res)
  }

  function FlagsOf(ps: seq<Priced>): seq<Flag> {
    if ps == [] then [] else FlagsOf(ps[..|ps| - 1]) + ps[|ps| - 1].flags
  }

  function Sidecars(inits: seq<Init>): seq<Priced> {
    if inits == [] then []
    else
      var last := inits[|inits| - 1];
      Sidecars(inits[..|inits| - 1]) + if last.sidecar then [last.priced] else []
  }

  /** The largest ordinary init container, dimension by dimension. */
  function LargestOrdinary(inits: seq<Init>): Resources {
    if inits == [] then NOTHING
    else
      var front, last := LargestOrdinary(inits[..|inits| - 1]), inits[|inits| - 1];
      if last.sidecar then front
      else Resources(
             Max(front.cpu, last.priced.res.cpu),
             Max(front.memory, last.priced.res.memory),
             Max(front.storage, last.priced.res.storage))
  }

  /** The app containers' holding joined by the sidecars. */
  function WithSidecars(held: Priced, inits: seq<Init>): Priced {
    Priced(held.res.Add(Held(Sidecars(inits))), held.flags + FlagsOf(Sidecars(inits)))
  }

  function Combine(running: Resources, maxInit: Resources): Resources {
    Resources(Max(running.cpu, maxInit.cpu), Max(running.memory, maxInit.memory), running.storage + maxInit.storage)
  }

  /** What the gate charges a pod for. */
  function Reservation(pod: Pod): Resources {
    Combine(Held(pod.apps).Add(Held(Sidecars(pod.inits))), LargestOrdinary(pod.inits))
  }

  function PodResult(table: Table, podSpec: Value): Result<Priced, PriceError> {
    if !podSpec.Map? then Ok(Priced(NOTHING, []))
    else
      var pod :- PodOf(table, podSpec.fields);
      Ok(Priced(Reservation(pod), FlagsOf(pod.apps) + FlagsOf(Sidecars(pod.inits))))
  }

  // ---------------------------------------------------------------- storage

  function StorageRequest(spec: map<string, Value>): Result<Resources, PriceError> {
    var requests := RequestsOf(spec);
    if "storage" !in requests then Ok(NOTHING)
    else
      match ParseQuantity(requests["storage"])
      case None => Err(BadStorage)
      case Some(q) => Ok(Resources(0.0, 0.0, Gib(q.value as real)))
  }

  function ClaimSpec(template: Value): map<string, Value> {
    AsMap(Field(AsMap(template), "spec"))
  }

  function ClaimStorage(templates: seq<Value>): Result<Resources, PriceError> {
    if templates == [] then Ok(NOTHING)
    else
      var front :- ClaimStorage(templates[..|templates| - 1]);
      var last :- StorageRequest(ClaimSpec(templates[|templates| - 1]));
      Ok(front.Add(last))
  }

  function AddClaims(per: Resources, templates: seq<Value>): Result<Resources, PriceError> {
    var claims :- ClaimStorage(templates);
    Ok(per.Add(claims))
  }

  // ---------------------------------------------------------------- autoscalers

  /** The target and bounds an object contributes, if it is an autoscaler. Both kinds default
      their target kind to Deployment; only KEDA defaults its maximum to a hundred. */
  function ScalerOf(obj: Object): Option<(Target, Bounds)> {
    var spec := SpecOf(obj);
    var ref := AsMap(Field(spec, "scaleTargetRef"));
    var name, kind := AsText(Field(ref, "name")), AsText(Field(ref, "kind"));
    if name == "" then None
    else
      var target := Target(NamespaceOf(obj), if kind == "" then "Deployment" else kind, name);
      if KindOf(obj) == "ScaledObject" then
        Some((target, Bounds(
          IntOr(Field(spec, "minReplicaCount"), 0),
          IntOr(Field(spec, "maxReplicaCount"), KEDA_DEFAULT_MAX_REPLICAS),
          "KEDA ScaledObject",
          if "maxReplicaCount" !in spec then [DefaultMaxReplicas] else [])))
      else if KindOf(obj) == "HorizontalPodAutoscaler" then
        Some((target, Bounds(
          IntOr(Field(spec, "minReplicas"), 1),
          IntOr(Field(spec, "maxReplicas"), 1),
          "HorizontalPodAutoscaler",
          [])))
      else None
  }

  /** Every autoscaler of the set by the workload it targets; the last one of a target wins. */
  function Autoscalers(objects: seq<Object>): map<Target, Bounds> {
    Index(ScalerOf, objects)
  }

  // ---------------------------------------------------------------- one object

  datatype Class = Replicated | Stateful | PerNode | Single | Claim | Batch | Other

  function ClassOf(kind: string): Class {
    if kind == "Deployment" || kind == "ReplicaSet" || kind == "ReplicationController" then Replicated
    else if kind == "StatefulSet" then Stateful
    else if kind == "DaemonSet" then PerNode
    else if kind == "Pod" then Single
    else if kind == "PersistentVolumeClaim" then Claim
    else if kind == "Job" || kind == "CronJob" then Batch
    else Other
  }

  datatype Reserved =
    | Skipped
    | Unpriceable
    | Reserves(replicas: int, per: Resources, flags: seq<Flag>)

  function PodSpecFrom(spec: map<string, Value>): Value {
    Field(AsMap(Field(spec, "template")), "spec")
  }

  /** A replicated workload; volume claims are provisioned once per replica. */
  function ReserveReplicas(table: Table, spec: map<string, Value>, stateful: bool): (r: Result<Reserved, PriceError>)
    ensures r.Ok? ==> !r.value.Unpriceable?
  {
    if PodSpecFrom(spec) == Null then Ok(Skipped)
    else
      var pod :- PodResult(table, PodSpecFrom(spec));
      var per :- if stateful then AddClaims(pod.res, AsList(Field(spec, "volumeClaimTemplates"))) else Ok(pod.res);
      Ok(Reserves(IntOr(Field(spec, "replicas"), 1), per, pod.flags))
  }

  /** What one object reserves, before any autoscaler is taken into account. */
  function Reserve(table: Table, nodes: int, obj: Object): Result<Reserved, PriceError> {
    var spec := SpecOf(obj);
    match ClassOf(KindOf(obj))
    case Replicated => ReserveReplicas(table, spec, false)
    case Stateful => ReserveReplicas(table, spec, true)
    case PerNode =>
      if PodSpecFrom(spec) == Null then Ok(Skipped)
      else
        var pod :- PodResult(table, PodSpecFrom(spec));
        Ok(Reserves(nodes, pod.res, pod.flags + [AssumedNodes(nodes)]))
    case Single =>
      var pod :- PodResult(table, Field(obj, "spec"));
      Ok(Reserves(1, pod.res, pod.flags))
    case Claim =>
      var storage :- StorageRequest(spec);
      Ok(Reserves(1, storage, []))
    case Batch => Ok(Unpriceable)
    case Other => Ok(Skipped)
  }

  function TargetOf(obj: Object): Target {
    Target(NamespaceOf(obj), KindOf(obj), NameOf(obj))
  }

  function CostOf(table: Table, r: Resources): real {
    MonthlyUSD(table, r.cpu, r.memory, r.storage)
  }

  /** The finished workload: the ceiling of an autoscaled one, the plain cost of any other. */
  function Settle(table: Table, id: Target, r: Reserved, bounds: Option<Bounds>): Workload
    requires r.Reserves?
  {
    match bounds
    case None =>
      var total := r.per.Scale(r.replicas as real);
      Workload(id.kind, id.namespace, id.name, r.replicas, r.per, total, CostOf(table, total),
               false, 0, 0, CostOf(table, total), r.flags)
    case Some(b) =>
      var total, least := r.per.Scale(b.max as real), CostOf(table, r.per.Scale(b.min as real));
      Workload(id.kind, id.namespace, id.name, b.max, r.per, total, CostOf(table, total),
               true, b.min, b.max, least, r.flags + b.flags + [ScaledBetween(b.source, b.min, b.max, least)])
  }

  function Lookup<K, V>(m: map<K, V>, k: K): Option<V> {
    if k in m then Some(m[k]) else None
  }

  /** The workload an object is priced as, if it is priced at all. */
  function Price(table: Table, nodes: int, bounds: Option<Bounds>, obj: Object): Result<Option<Workload>, PriceError> {
    var reserved :- Reserve(table, nodes, obj);
    match reserved
    case Skipped => Ok(None)
    case Unpriceable =>
      Ok(Some(Workload(KindOf(obj), NamespaceOf(obj), NameOf(obj), 0, NOTHING, NOTHING, 0.0,
                       false, 0, 0, 0.0, [RuntimeUnknown])))
    case Reserves(_, _, _) => Ok(Some(Settle(table, TargetOf(obj), reserved, bounds)))
  }

  type Pricer = Object -> Result<Option<Workload>, PriceError>

  function PriceUnder(table: Table, nodes: int, scalers: map<Target, Bounds>): Pricer {
    o => Price(table, nodes, Lookup(scalers, TargetOf(o)), o)
  }

  function PriceAll(table: Table, nodes: int, scalers: map<Target, Bounds>, objects: seq<Object>)
    : Result<seq<Workload>, PriceError>
  {
    Collect(PriceUnder(table, nodes, scalers), objects)
  }

  // ---------------------------------------------------------------- estimates

  function MonthlyOf(w: Workload): real {
    w.monthlyUSD
  }

  function FloorOf(w: Workload): real {
    w.floorMonthlyUSD
  }

  function SumMonthly(ws: seq<Workload>): real {
    Sum(MonthlyOf, ws)
  }

  function SumFloor(ws: seq<Workload>): real {
    Sum(FloorOf, ws)
  }

  function SumTotal(ws: seq<Workload>): Resources {
    if ws == [] then NOTHING else SumTotal(ws[..|ws| - 1]).Add(ws[|ws| - 1].total)
  }

  predicate Totals(est: Estimate) {
    && est.monthlyUSD == SumMonthly(est.workloads)
    && est.committedMonthlyUSD == SumFloor(est.workloads)
    && est.total == SumTotal(est.workloads)
    && est.flags == []
  }

  function Include(est: Estimate, w: Workload): Estimate {
    Estimate(
      est.workloads + [w],
      est.monthlyUSD + w.monthlyUSD,
      est.committedMonthlyUSD + w.floorMonthlyUSD,
      est.total.Add(w.total),
      est.flags)
  }

  lemma {:induction false} IncludeTotals(est: Estimate, w: Workload)
    requires Totals(est)
    ensures Totals(Include(est, w))
  {
    SumStep(MonthlyOf, est.workloads, w);
    SumStep(FloorOf, est.workloads, w);
    assert (est.workloads + [w])[..|est.workloads|] == est.workloads;
  }

  predicate RefLeq(a: Workload, b: Workload) {
    StrLeq(a.Ref(), b.Ref())
  }

  ghost predicate DistinctRefs(ws: seq<Workload>) {
    forall i, j :: 0 <= i < j < |ws| ==> ws[i].Ref() != ws[j].Ref()
  }

  lemma {:induction false} RefOrder()
    ensures TotalPreorder(RefLeq)
  {
    StrOrder();
  }

  /** `est` totals the workloads `ws` and lists them by reference. */
  ghost predicate Summarises(est: Estimate, ws: seq<Workload>) {
    && multiset(est.workloads) == multiset(ws)
    && SortedBy(est.workloads, RefLeq)
    && est.monthlyUSD == SumMonthly(ws)
    && est.committedMonthlyUSD == SumFloor(ws)
    && est.total == SumTotal(ws)
    && est.flags == []
  }

  /** What a call of `Estimate` on `objects` may answer. */
  ghost predicate IsEstimate(table: Table, nodes: int, objects: seq<Object>, r: Result<Estimate, PriceError>) {
    match PriceAll(table, nodes, Autoscalers(objects), objects)
    case Err(e) => r == Err(e)
    case Ok(ws) => r.Ok? && Summarises(r.value, ws)
  }

  class Calculator {
    const table: Table
    const assumedNodeCount: int
    var autoscalers: map<Target, Bounds>

    constructor (table: Table, assumedNodeCount: int)
      ensures this.table == table && this.assumedNodeCount == assumedNodeCount
      ensures autoscalers == map[]
    {
      this.table := table;
      this.assumedNodeCount := assumedNodeCount;
      autoscalers := map[];
    }

    method CollectAutoscalers(objects: seq<Object>) returns (found: map<Target, Bounds>)
      ensures found == Autoscalers(objects)
    {
      found := map[];
      for i := 0 to |objects|
        invariant found == Autoscalers(objects[..i])
      {
        assert objects[..i + 1][..i] == objects[..i];
        match ScalerOf(objects[i]) {
          case None =>
          case Some((target, bounds)) => found := found[target := bounds];
        }
      }
      assert objects[..|objects|] == objects;
    }

    /** The app containers, held together. */
    method AppResources(containers: seq<Value>) returns (r: Result<Priced, PriceError>)
      ensures match Containers(table, containers)
              case Err(e) => r == Err(e)
              case Ok(apps) => r == Ok(Priced(Held(apps), FlagsOf(apps)))
    {
      var running, flags := NOTHING, [];
      for i := 0 to |containers|
        invariant Containers(table, containers[..i]).Ok?
        invariant running == Held(Containers(table, containers[..i]).value)
        invariant flags == FlagsOf(Containers(table, containers[..i]).value)
      {
        ContainersStep(table, containers, i);
        var c := ContainerResources(table, containers[i]);
        if c.Err? {
          return Err(c.error);
        }
        running := running.Add(c.value.res);
        flags := flags + c.value.flags;
      }
      assert containers[..|containers|] == containers;
      r := Ok(Priced(running, flags));
    }

    /** The init containers: sidecars join `held`, of the others the largest is kept. */
    method InitResources(inits: seq<Value>, held: Priced) returns (r: Result<Priced, PriceError>, maxInit: Resources)
      ensures match Inits(table, inits)
              case Err(e) => r == Err(e)
              case Ok(all) => r == Ok(WithSidecars(held, all)) && maxInit == LargestOrdinary(all)
    {
      var running := held;
      maxInit := NOTHING;
      ghost var done: seq<Init> := [];
      WithNoInits(held);
      for i := 0 to |inits|
        invariant Inits(table, inits[..i]) == Ok(done)
        invariant running == WithSidecars(held, done) && maxInit == LargestOrdinary(done)
      {
        InitsStep(table, inits, i);
        var c := ContainerResources(table, inits[i]);
        if c.Err? {
          r := Err(c.error);
          return;
        }
        WithOneMore(held, done, Init(IsSidecar(inits[i]), c.value));
        if IsSidecar(inits[i]) {
          running := Priced(running.res.Add(c.value.res), running.flags + c.value.flags);
        } else {
          maxInit := Resources(
            Max(maxInit.cpu, c.value.res.cpu),
            Max(maxInit.memory, c.value.res.memory),
            Max(maxInit.storage, c.value.res.storage));
        }
        done := done + [Init(IsSidecar(inits[i]), c.value)];
      }
      assert inits[..|inits|] == inits;
      r := Ok(running);
    }

    method PodResources(podSpec: Value) returns (r: Result<Priced, PriceError>)
      ensures r == PodResult(table, podSpec)
    {
      if !podSpec.Map? {
        return Ok(Priced(NOTHING, []));
      }
      var apps := AppResources(AsList(Field(podSpec.fields, "containers")));
      if apps.Err? {
        return Err(apps.error);
      }
      var running, maxInit := InitResources(AsList(Field(podSpec.fields, "initContainers")), apps.value);
      if running.Err? {
        return Err(running.error);
      }
      r := Ok(Priced(Combine(running.value.res, maxInit), running.value.flags));
    }

    method VolumeClaimStorage(templates: seq<Value>) returns (r: Result<Resources, PriceError>)
      ensures r == ClaimStorage(templates)
    {
      var total := NOTHING;
      for i := 0 to |templates|
        invariant ClaimStorage(templates[..i]) == Ok(total)
      {
        assert templates[..i + 1][..i] == templates[..i];
        var s := StorageRequest(ClaimSpec(templates[i]));
        if s.Err? {
          ClaimsFail(templates, i + 1);
          return Err(s.error);
        }
        total := total.Add(s.value);
      }
      assert templates[..|templates|] == templates;
      r := Ok(total);
    }

    method ReplicatedOne(spec: map<string, Value>, stateful: bool) returns (r: Result<Reserved, PriceError>)
      ensures r == ReserveReplicas(table, spec, stateful)
    {
      if PodSpecFrom(spec) == Null {
        return Ok(Skipped);
      }
      var pod := PodResources(PodSpecFrom(spec));
      if pod.Err? {
        return Err(pod.error);
      }
      var per := pod.value.res;
      if stateful {
        var storage := VolumeClaimStorage(AsList(Field(spec, "volumeClaimTemplates")));
        if storage.Err? {
          return Err(storage.error);
        }
        assert AddClaims(per, AsList(Field(spec, "volumeClaimTemplates"))).Ok?;
        per := per.Add(storage.value);
      }
      r := Ok(Reserves(IntOr(Field(spec, "replicas"), 1), per, pod.value.flags));
    }

    /** The branches on the object's kind. */
    method ReserveOne(obj: Object) returns (r: Result<Reserved, PriceError>)
      ensures r == Reserve(table, assumedNodeCount, obj)
    {
      var spec := SpecOf(obj);
      match ClassOf(KindOf(obj)) {
        case Replicated => r := ReplicatedOne(spec, false);

        case Stateful => r := ReplicatedOne(spec, true);

        case PerNode =>
          if PodSpecFrom(spec) == Null {
            return Ok(Skipped);
          }
          var pod := PodResources(PodSpecFrom(spec));
          if pod.Err? {
            return Err(pod.error);
          }
          r := Ok(Reserves(assumedNodeCount, pod.value.res, pod.value.flags + [AssumedNodes(assumedNodeCount)]));

        case Single =>
          var pod := PodResources(Field(obj, "spec"));
          if pod.Err? {
            return Err(pod.error);
          }
          r := Ok(Reserves(1, pod.value.res, pod.value.flags));

        case Claim =>
          var storage := StorageRequest(spec);
          if storage.Err? {
            return Err(storage.error);
          }
          r := Ok(Reserves(1, storage.value, []));

        case Batch => r := Ok(Unpriceable);

        case Other => r := Ok(Skipped);
      }
    }

    /** Prices one object under the autoscalers collected last. */
    method PriceOne(obj: Object) returns (r: Result<Option<Workload>, PriceError>)
      ensures r == Price(table, assumedNodeCount, Lookup(autoscalers, TargetOf(obj)), obj)
    {
      var w := Workload(KindOf(obj), NamespaceOf(obj), NameOf(obj), 0, NOTHING, NOTHING, 0.0, false, 0, 0, 0.0, []);
      var reserved := ReserveOne(obj);
      if reserved.Err? {
        return Err(reserved.error);
      }
      match reserved.value {
        case Skipped => return Ok(None);
        case Unpriceable => return Ok(Some(w.(flags := [RuntimeUnknown])));
        case Reserves(replicas, per, flags) => w := w.(replicas := replicas, perReplica := per, flags := flags);
      }

      if TargetOf(obj) in autoscalers {
        var bounds := autoscalers[TargetOf(obj)];
        var least := CostOf(table, w.perReplica.Scale(bounds.min as real));
        w := w.(autoscaled := true, minReplicas := bounds.min, maxReplicas := bounds.max, replicas := bounds.max,
                floorMonthlyUSD := least,
                flags := w.flags + bounds.flags + [ScaledBetween(bounds.source, bounds.min, bounds.max, least)]);
      }
      w := w.(total := w.perReplica.Scale(w.replicas as real));
      w := w.(monthlyUSD := CostOf(table, w.total));
      if !w.autoscaled {
        w := w.(floorMonthlyUSD := w.monthlyUSD);
      }
      r := Ok(Some(w));
    }

    /** Prices every object of the set. The answer depends on the table, the node count and
        the objects alone: whatever an earlier call left in `autoscalers` is overwritten. */
    method Estimate(objects: seq<Object>) returns (r: Result<Estimate, PriceError>)
      modifies this`autoscalers
      ensures autoscalers == Autoscalers(objects)
      ensures IsEstimate(table, assumedNodeCount, objects, r)
    {
      autoscalers := CollectAutoscalers(objects);
      ghost var scalers := autoscalers;
      var est := EMPTY;
      for i := 0 to |objects|
        invariant autoscalers == scalers
        invariant PriceAll(table, assumedNodeCount, scalers, objects[..i]) == Ok(est.workloads)
        invariant Totals(est)
      {
        CollectStep(PriceUnder(table, assumedNodeCount, scalers), objects, i);
        var w := PriceOne(objects[i]);
        if w.Err? {
          return Err(w.error);
        }
        if w.value.Some? {
          IncludeTotals(est, w.value.value);
          est := Include(est, w.value.value);
        }
      }
      assert objects[..|objects|] == objects;
      RefOrder();
      var sorted := Sort(est.workloads, RefLeq);
      r := Ok(est.(workloads := sorted));
    }
  }

  // ---------------------------------------------------------------- a first failure is final

  lemma {:induction false} ContainersStep(table: Table, items: seq<Value>, i: nat)
    requires i < |items| && Containers(table, items[..i]).Ok?
    ensures match ContainerResources(table, items[i])
            case Err(e) => Containers(table, items) == Err(e)
            case Ok(c) =>
              && Containers(table, items[..i + 1]).Ok?
              && Held(Containers(table, items[..i + 1]).value)
                 == Held(Containers(table, items[..i]).value).Add(c.res)
              && FlagsOf(Containers(table, items[..i + 1]).value)
                 == FlagsOf(Containers(table, items[..i]).value) + c.flags
  {
    assert items[..i + 1][..i] == items[..i];
    var done, c := Containers(table, items[..i]).value, ContainerResources(table, items[i]);
    if c.Err? {
      ContainersFail(table, items, i + 1);
    } else {
      assert (done + [c.value])[..|done|] == done;
    }
  }

  lemma {:induction false} InitsStep(table: Table, items: seq<Value>, i: nat)
    requires i < |items| && Inits(table, items[..i]).Ok?
    ensures match ContainerResources(table, items[i])
            case Err(e) => Inits(table, items) == Err(e)
            case Ok(c) =>
              Inits(table, items[..i + 1]) == Ok(Inits(table, items[..i]).value + [Init(IsSidecar(items[i]), c)])
  {
    assert items[..i + 1][..i] == items[..i];
    if ContainerResources(table, items[i]).Err? {
      InitsFail(table, items, i + 1);
    }
  }

  lemma {:induction false} WithNoInits(held: Priced)
    ensures WithSidecars(held, []) == held && LargestOrdinary([]) == NOTHING
  {
    assert Sidecars([]) == [] && Held([]) == NOTHING && FlagsOf([]) == [];
    assert held.flags + [] == held.flags;
  }

  lemma {:induction false} SidecarsStep(done: seq<Init>, x: Init)
    ensures Sidecars(done + [x]) == if x.sidecar then Sidecars(done) + [x.priced] else Sidecars(done)
    ensures LargestOrdinary(done + [x]) ==
            if x.sidecar then LargestOrdinary(done)
            else Resources(
                   Max(LargestOrdinary(done).cpu, x.priced.res.cpu),
                   Max(LargestOrdinary(done).memory, x.priced.res.memory),
                   Max(LargestOrdinary(done).storage, x.priced.res.storage))
  {
    assert (done + [x])[..|done|] == done;
    assert Sidecars(done) + [] == Sidecars(done);
  }

  lemma {:induction false} HeldStep(ps: seq<Priced>, p: Priced)
    ensures Held(ps + [p]) == Held(ps).Add(p.res)
    ensures FlagsOf(ps + [p]) == FlagsOf(ps) + p.flags
  {
    assert (ps + [p])[..|ps|] == ps;
  }

  lemma {:induction false} FlagsAssociate(a: seq<Flag>, b: seq<Flag>, c: seq<Flag>)
    ensures a + (b + c) == (a + b) + c
  {
  }

  lemma {:induction false} WithOneMore(held: Priced, done: seq<Init>, x: Init)
    ensures var before := WithSidecars(held, done);
            WithSidecars(held, done + [x]) ==
            if x.sidecar then Priced(before.res.Add(x.priced.res), before.flags + x.priced.flags) else before
    ensures LargestOrdinary(done + [x]) ==
            if x.sidecar then LargestOrdinary(done)
            else Resources(
                   Max(LargestOrdinary(done).cpu, x.priced.res.cpu),
                   Max(LargestOrdinary(done).memory, x.priced.res.memory),
                   Max(LargestOrdinary(done).storage, x.priced.res.storage))
  {
    SidecarsStep(done, x);
    if x.sidecar {
      HeldStep(Sidecars(done), x.priced);
      FlagsAssociate(held.flags, FlagsOf(Sidecars(done)), x.priced.flags);
    }
  }

  lemma {:induction false} ContainersFail(table: Table, items: seq<Value>, n: nat)
    requires n <= |items| && Containers(table, items[..n]).Err?
    ensures Containers(table, items) == Err(Containers(table, items[..n]).error)
    decreases |items| - n
  {
    if n == |items| {
      assert items[..n] == items;
    } else {
      assert items[..n + 1][..n] == items[..n];
      ContainersFail(table, items, n + 1);
    }
  }

  lemma {:induction false} InitsFail(table: Table, items: seq<Value>, n: nat)
    requires n <= |items| && Inits(table, items[..n]).Err?
    ensures Inits(table, items) == Err(Inits(table, items[..n]).error)
    decreases |items| - n
  {
    if n == |items| {
      assert items[..n] == items;
    } else {
      assert items[..n + 1][..n] == items[..n];
      InitsFail(table, items, n + 1);
    }
  }

  lemma {:induction false} ClaimsFail(templates: seq<Value>, n: nat)
    requires n <= |templates| && ClaimStorage(templates[..n]).Err?
    ensures ClaimStorage(templates) == Err(ClaimStorage(templates[..n]).error)
    decreases |templates| - n
  {
    if n == |templates| {
      assert templates[..n] == templates;
    } else {
      assert templates[..n + 1][..n] == templates[..n];
      ClaimsFail(templates, n + 1);
    }
  }
}
