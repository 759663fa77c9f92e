/** The charge for a pod against the pod's start-up.

  Kubernetes starts a pod in order: each init container in turn, a sidecar staying up for the
  rest of the pod's life and an ordinary one running to completion before the next begins;
  then all app containers together. `Levels` plays that start-up and records what is held at
  each moment. The gate charges `Reservation`, which never looks at the order.
 */
module Timeline {
  import opened Results
  import opened Manifests
  import opened Pricing
  import opened Cost

  datatype Dimension = Cpu | Memory | Storage

  function At(r: Resources, d: Dimension): real {
    match d
    case Cpu => r.cpu
    case Memory => r.memory
    case Storage => r.storage
  }

  function Amount(i: Init, d: Dimension): real {
    At(i.priced.res, d)
  }

  /** What is held while each init container starts or runs, and at last by the running pod. */
  function Levels(d: Dimension, held: real, inits: seq<Init>, apps: real): (levels: seq<real>)
    ensures |levels| == |inits| + 1
    decreases |inits|
  {
    if inits == [] then [held + apps]
    else
      var now := held + Amount(inits[0], d);
      [now] + Levels(d, if inits[0].sidecar then now else held, inits[1..], apps)
  }

  function Highest(levels: seq<real>): real
    requires levels != []
  {
    if |levels| == 1 then levels[0] else Max(levels[0], Highest(levels[1..]))
  }

  lemma {:induction false} HighestCons(x: real, levels: seq<real>)
    requires levels != []
    ensures Highest([x] + levels) == Max(x, Highest(levels))
  {
    assert ([x] + levels)[1..] == levels;
  }

  /** The highest level is reached, and no level is above it. */
  lemma {:induction false} HighestIsMaximum(levels: seq<real>)
    requires levels != []
    ensures Highest(levels) in levels
    ensures forall i :: 0 <= i < |levels| ==> levels[i] <= Highest(levels)
  {
    if |levels| > 1 {
      HighestIsMaximum(levels[1..]);
      forall i | 0 <= i < |levels| ensures levels[i] <= Highest(levels) {
        assert i > 0 ==> levels[i] == levels[1..][i - 1];
      }
    }
  }

  /** What the app containers hold together. */
  function AppsIn(d: Dimension, pod: Pod): real {
    At(Held(pod.apps), d)
  }

  function Peak(d: Dimension, pod: Pod): real {
    Highest(Levels(d, 0.0, pod.inits, AppsIn(d, pod)))
  }

  function SidecarSum(d: Dimension, inits: seq<Init>): real {
    if inits == [] then 0.0
    else (if inits[0].sidecar then Amount(inits[0], d) else 0.0) + SidecarSum(d, inits[1..])
  }

  function Largest(d: Dimension, inits: seq<Init>): real {
    if inits == [] then 0.0
    else if inits[0].sidecar then Largest(d, inits[1..])
    else Max(Amount(inits[0], d), Largest(d, inits[1..]))
  }

  function SidecarsIn(d: Dimension, pod: Pod): real {
    SidecarSum(d, pod.inits)
  }

  function LargestIn(d: Dimension, pod: Pod): real {
    Largest(d, pod.inits)
  }

  ghost predicate NonNegativeInits(d: Dimension, inits: seq<Init>) {
    forall i :: 0 <= i < |inits| ==> Amount(inits[i], d) >= 0.0
  }

  ghost predicate NonNegative(d: Dimension, pod: Pod) {
    NonNegativeInits(d, pod.inits) && AppsIn(d, pod) >= 0.0
  }

  function ShapeOf(inits: seq<Init>): (shape: seq<bool>)
    ensures |shape| == |inits|
    ensures forall i :: 0 <= i < |inits| ==> shape[i] == inits[i].sidecar
  {
    if inits == [] then [] else [inits[0].sidecar] + ShapeOf(inits[1..])
  }

  /** No ordinary init container comes after a sidecar. */
  ghost predicate Orderly(shape: seq<bool>) {
    forall i, j :: 0 <= i < j < |shape| && shape[i] ==> shape[j]
  }

  // ---------------------------------------------------------------- the loop's sums, front first

  lemma {:induction false} SidecarSumSnoc(d: Dimension, inits: seq<Init>, x: Init)
    ensures SidecarSum(d, inits + [x]) == SidecarSum(d, inits) + if x.sidecar then Amount(x, d) else 0.0
  {
    if inits != [] {
      assert (inits + [x])[1..] == inits[1..] + [x];
      SidecarSumSnoc(d, inits[1..], x);
    }
  }

  lemma {:induction false} LargestSnoc(d: Dimension, inits: seq<Init>, x: Init)
    ensures Largest(d, inits + [x])
            == if x.sidecar then Largest(d, inits) else Max(Largest(d, inits), Amount(x, d))
  {
    if inits != [] {
      assert (inits + [x])[1..] == inits[1..] + [x];
      LargestSnoc(d, inits[1..], x);
    } else {
      assert [x][1..] == [];
    }
  }

  lemma {:induction false} LoopSums(d: Dimension, inits: seq<Init>)
    ensures At(Held(Sidecars(inits)), d) == SidecarSum(d, inits)
    ensures At(LargestOrdinary(inits), d) == Largest(d, inits)
  {
    if inits != [] {
      var front, last := inits[..|inits| - 1], inits[|inits| - 1];
      assert inits == front + [last];
      LoopSums(d, front);
      SidecarSumSnoc(d, front, last);
      LargestSnoc(d, front, last);
      var s := Sidecars(front);
      assert (s + [last.priced])[..|s|] == s;
      assert s + [] == s;
    }
  }

  /** What is charged for `running` and `most` in one dimension. */
  function Charge(d: Dimension, running: real, most: real): real {
    if d == Storage then running + most else if running >= most then running else most
  }

  lemma {:induction false} CombineAt(d: Dimension, apps: Resources, sidecars: Resources, most: Resources)
    ensures At(Combine(apps.Add(sidecars), most), d) == Charge(d, At(apps, d) + At(sidecars, d), At(most, d))
  {
  }

  lemma {:induction false} ReservationParts(d: Dimension, pod: Pod)
      returns (apps: Resources, sidecars: Resources, most: Resources)
    ensures Reservation(pod) == Combine(apps.Add(sidecars), most)
    ensures At(apps, d) == AppsIn(d, pod) && At(sidecars, d) == LoopSidecars(d, pod) && At(most, d) == LoopLargest(d, pod)
  {
    apps, sidecars, most := Held(pod.apps), Held(Sidecars(pod.inits)), LargestOrdinary(pod.inits);
  }

  /** What the gate charges, in one dimension, in terms of its own sums. */
  lemma {:induction false} ReservationAt(d: Dimension, pod: Pod)
    ensures At(Reservation(pod), d) == Charge(d, AppsIn(d, pod) + LoopSidecars(d, pod), LoopLargest(d, pod))
  {
    var apps, sidecars, most := ReservationParts(d, pod);
    CombineAt(d, apps, sidecars, most);
  }

  function LoopSidecars(d: Dimension, pod: Pod): real {
    At(Held(Sidecars(pod.inits)), d)
  }

  function LoopLargest(d: Dimension, pod: Pod): real {
    At(LargestOrdinary(pod.inits), d)
  }

  lemma {:induction false} SumsIn(d: Dimension, pod: Pod)
    ensures LoopSidecars(d, pod) == SidecarsIn(d, pod) && LoopLargest(d, pod) == LargestIn(d, pod)
  {
    LoopSums(d, pod.inits);
  }

  lemma {:induction false} ChargeIs(
      d: Dimension, charged: real, apps: real, x: real, y: real, sidecars: real, largest: real)
    requires charged == Charge(d, apps + x, y) && x == sidecars && y == largest
    ensures charged == Charge(d, apps + sidecars, largest)
  {
  }

  /** The same in terms of the start-up's sums. */
  lemma {:induction false} ChargeOf(d: Dimension, pod: Pod)
    ensures At(Reservation(pod), d) == Charge(d, AppsIn(d, pod) + SidecarsIn(d, pod), LargestIn(d, pod))
  {
    ReservationAt(d, pod);
    SumsIn(d, pod);
    ChargeIs(d, At(Reservation(pod), d), AppsIn(d, pod), LoopSidecars(d, pod), LoopLargest(d, pod),
             SidecarsIn(d, pod), LargestIn(d, pod));
  }

  // ---------------------------------------------------------------- the peak

  /** One step of the start-up. */
  lemma {:induction false} PeakStep(
      d: Dimension, held: real, inits: seq<Init>, apps: real) returns (next: real, rest: real)
    requires inits != []
    ensures next == if inits[0].sidecar then held + Amount(inits[0], d) else held
    ensures rest == Highest(Levels(d, next, inits[1..], apps))
    ensures Highest(Levels(d, held, inits, apps)) == Max(held + Amount(inits[0], d), rest)
  {
    next := if inits[0].sidecar then held + Amount(inits[0], d) else held;
    rest := Highest(Levels(d, next, inits[1..], apps));
    HighestCons(held + Amount(inits[0], d), Levels(d, next, inits[1..], apps));
  }

  lemma {:induction false} PeakBounds(d: Dimension, held: real, inits: seq<Init>, apps: real)
    requires NonNegativeInits(d, inits) && held >= 0.0 && apps >= 0.0
    ensures SidecarSum(d, inits) >= 0.0 && Largest(d, inits) >= 0.0
    ensures var peak := Highest(Levels(d, held, inits, apps));
            && held + SidecarSum(d, inits) + apps <= peak
            && Largest(d, inits) <= peak
            && (peak <= held + SidecarSum(d, inits) + apps || peak <= held + SidecarSum(d, inits) + Largest(d, inits))
    decreases |inits|
  {
    if inits != [] {
      var next, _ := PeakStep(d, held, inits, apps);
      assert Amount(inits[0], d) >= 0.0;
      PeakBounds(d, next, inits[1..], apps);
    }
  }

  lemma {:induction false} OrderlyTail(inits: seq<Init>)
    requires inits != [] && Orderly(ShapeOf(inits))
    ensures Orderly(ShapeOf(inits[1..]))
    ensures inits[0].sidecar ==> forall i :: 0 <= i < |inits[1..]| ==> inits[1..][i].sidecar
  {
    var s, t := ShapeOf(inits), ShapeOf(inits[1..]);
    forall i, j | 0 <= i < j < |t| && t[i] ensures t[j] {
      assert s[i + 1] && s[j + 1];
    }
    if inits[0].sidecar {
      forall i | 0 <= i < |inits| - 1 ensures inits[1..][i].sidecar {
        assert s[0] && s[i + 1];
      }
    }
  }

  lemma {:induction false} OrderlyPeak(d: Dimension, held: real, inits: seq<Init>, apps: real)
    requires NonNegativeInits(d, inits) && held >= 0.0 && apps >= 0.0
    requires Orderly(ShapeOf(inits))
    requires held > 0.0 ==> forall i :: 0 <= i < |inits| ==> inits[i].sidecar
    ensures Highest(Levels(d, held, inits, apps)) == Max(held + SidecarSum(d, inits) + apps, Largest(d, inits))
    decreases |inits|
  {
    if inits != [] {
      var next, _ := PeakStep(d, held, inits, apps);
      assert Amount(inits[0], d) >= 0.0;
      OrderlyTail(inits);
      PeakBounds(d, next, inits[1..], apps);
      OrderlyPeak(d, next, inits[1..], apps);
    }
  }

  /** The peak between the start-up's sums. */
  predicate PeakBetween(apps: real, sidecars: real, largest: real, peak: real) {
    && apps >= 0.0 && sidecars >= 0.0 && largest >= 0.0
    && apps + sidecars <= peak && largest <= peak
    && (peak <= apps + sidecars || peak <= sidecars + largest)
  }

  lemma {:induction false} PodPeak(d: Dimension, pod: Pod)
    requires NonNegative(d, pod)
    ensures PeakBetween(AppsIn(d, pod), SidecarsIn(d, pod), LargestIn(d, pod), Peak(d, pod))
    ensures Orderly(ShapeOf(pod.inits)) ==> Peak(d, pod) == Max(AppsIn(d, pod) + SidecarsIn(d, pod), LargestIn(d, pod))
  {
    var apps := AppsIn(d, pod);
    PeakBounds(d, 0.0, pod.inits, apps);
    if Orderly(ShapeOf(pod.inits)) {
      OrderlyPeak(d, 0.0, pod.inits, apps);
    }
    SumsOrdered(apps, SidecarsIn(d, pod));
  }

  lemma {:induction false} SumsOrdered(apps: real, sidecars: real)
    ensures 0.0 + sidecars + apps == apps + sidecars
  {
  }

  lemma {:induction false} ChargeBelowPeak(
      d: Dimension, charged: real, apps: real, sidecars: real, largest: real, peak: real)
    requires d != Storage && charged == Charge(d, apps + sidecars, largest) && PeakBetween(apps, sidecars, largest, peak)
    ensures charged <= peak <= charged + sidecars
    ensures peak == Max(apps + sidecars, largest) ==> charged == peak
  {
  }

  /** The charge for CPU and memory is at most the true peak and falls short of it by no more
      than the sidecars; it is the true peak when no ordinary init container follows a sidecar. */
  lemma {:induction false} ChargeWithinSidecarsOfPeak(d: Dimension, pod: Pod)
    requires d != Storage && NonNegative(d, pod)
    ensures At(Reservation(pod), d) <= Peak(d, pod) <= At(Reservation(pod), d) + SidecarsIn(d, pod)
    ensures Orderly(ShapeOf(pod.inits)) ==> At(Reservation(pod), d) == Peak(d, pod)
  {
    ChargeOf(d, pod);
    PodPeak(d, pod);
    ChargeBelowPeak(d, At(Reservation(pod), d), AppsIn(d, pod), SidecarsIn(d, pod), LargestIn(d, pod), Peak(d, pod));
  }

  lemma {:induction false} ChargeAbovePeak(charged: real, apps: real, sidecars: real, largest: real, peak: real)
    requires charged == Charge(Storage, apps + sidecars, largest) && PeakBetween(apps, sidecars, largest, peak)
    ensures peak <= charged <= peak + largest
  {
  }

  /** Storage is added up instead: its charge always covers the true peak, and exceeds it by at
      most the largest ordinary init container. */
  lemma {:induction false} StorageChargeCoversPeak(pod: Pod)
    requires NonNegative(Storage, pod)
    ensures Peak(Storage, pod) <= At(Reservation(pod), Storage) <= Peak(Storage, pod) + LargestIn(Storage, pod)
  {
    ChargeOf(Storage, pod);
    PodPeak(Storage, pod);
    ChargeAbovePeak(
      At(Reservation(pod), Storage), AppsIn(Storage, pod), SidecarsIn(Storage, pod), LargestIn(Storage, pod),
      Peak(Storage, pod));
  }

  // ---------------------------------------------------------------- which shapes are charged exactly

  function Uniform(x: real): Resources {
    Resources(x, x, x)
  }

  /** A pod of the given shape whose containers at `i` and `j` hold one unit, all others none. */
  function TwoUnits(shape: seq<bool>, i: nat, j: nat): Pod {
    Pod([], seq(|shape|, k requires 0 <= k < |shape| =>
      Init(shape[k], Priced(Uniform(if k == i || k == j then 1.0 else 0.0), []))))
  }

  lemma {:induction false} LevelAt(d: Dimension, held: real, inits: seq<Init>, apps: real, j: nat)
    requires j < |inits|
    ensures Levels(d, held, inits, apps)[j] == held + SidecarSum(d, inits[..j]) + Amount(inits[j], d)
    decreases |inits|
  {
    if j > 0 {
      assert inits[..j][1..] == inits[1..][..j - 1];
      LevelAt(d, if inits[0].sidecar then held + Amount(inits[0], d) else held, inits[1..], apps, j - 1);
    } else {
      assert inits[..0] == [];
    }
  }

  lemma {:induction false} SingleUnit(d: Dimension, inits: seq<Init>, i: int)
    requires forall k :: 0 <= k < |inits| && inits[k].sidecar ==> Amount(inits[k], d) == if k == i then 1.0 else 0.0
    requires forall k :: 0 <= k < |inits| ==> Amount(inits[k], d) <= 1.0
    ensures SidecarSum(d, inits) == if 0 <= i < |inits| && inits[i].sidecar then 1.0 else 0.0
    ensures Largest(d, inits) <= 1.0
  {
    if inits != [] {
      SingleUnit(d, inits[1..], i - 1);
    }
  }

  lemma {:induction false} TwoUnitsAmounts(d: Dimension, shape: seq<bool>, i: nat, j: nat)
    requires i < |shape| && j < |shape|
    ensures var inits := TwoUnits(shape, i, j).inits;
            && |inits| == |shape|
            && ShapeOf(inits) == shape
            && forall k :: 0 <= k < |inits| ==> Amount(inits[k], d) == if k == i || k == j then 1.0 else 0.0
  {
    var inits := TwoUnits(shape, i, j).inits;
    forall k | 0 <= k < |inits|
      ensures inits[k].sidecar == shape[k] && Amount(inits[k], d) == if k == i || k == j then 1.0 else 0.0
    {
      assert inits[k] == Init(shape[k], Priced(Uniform(if k == i || k == j then 1.0 else 0.0), []));
    }
  }

  lemma {:induction false} TwoUnitsCharge(d: Dimension, pod: Pod, i: nat, j: nat)
    requires d != Storage && pod.apps == [] && i < j < |pod.inits|
    requires pod.inits[i].sidecar && !pod.inits[j].sidecar
    requires forall k :: 0 <= k < |pod.inits| ==> Amount(pod.inits[k], d) == if k == i || k == j then 1.0 else 0.0
    ensures At(Reservation(pod), d) == 1.0
  {
    ChargeOf(d, pod);
    SingleUnit(d, pod.inits, i);
    NoApps(d, pod);
    UnitCharge(d, At(Reservation(pod), d), AppsIn(d, pod), SidecarsIn(d, pod), LargestIn(d, pod));
  }

  lemma {:induction false} NoApps(d: Dimension, pod: Pod)
    requires pod.apps == []
    ensures AppsIn(d, pod) == 0.0
  {
  }

  lemma {:induction false} UnitCharge(d: Dimension, charged: real, apps: real, sidecars: real, largest: real)
    requires charged == Charge(d, apps + sidecars, largest) && d != Storage
    requires apps == 0.0 && sidecars == 1.0 && largest <= 1.0
    ensures charged == 1.0
  {
  }

  lemma {:induction false} TwoUnitsPeak(d: Dimension, pod: Pod, i: nat, j: nat)
    requires pod.apps == [] && i < j < |pod.inits|
    requires pod.inits[i].sidecar && !pod.inits[j].sidecar
    requires forall k :: 0 <= k < |pod.inits| ==> Amount(pod.inits[k], d) == if k == i || k == j then 1.0 else 0.0
    ensures Peak(d, pod) >= 2.0
  {
    var apps := AppsIn(d, pod);
    var levels := Levels(d, 0.0, pod.inits, apps);
    SingleUnit(d, pod.inits[..j], i);
    LevelAt(d, 0.0, pod.inits, apps, j);
    HighestIsMaximum(levels);
    assert levels[j] >= 2.0;
  }

  /** An ordinary init container after a sidecar makes the charge half of the true peak. */
  lemma {:induction false} DisorderUndercharges(d: Dimension, shape: seq<bool>, i: nat, j: nat)
    requires d != Storage && i < j < |shape| && shape[i] && !shape[j]
    ensures var pod := TwoUnits(shape, i, j);
            && ShapeOf(pod.inits) == shape
            && NonNegative(d, pod)
            && At(Reservation(pod), d) == 1.0
            && Peak(d, pod) >= 2.0
  {
    var pod := TwoUnits(shape, i, j);
    TwoUnitsAmounts(d, shape, i, j);
    TwoUnitsCharge(d, pod, i, j);
    TwoUnitsPeak(d, pod, i, j);
  }

  /** Exactly the orderly shapes are charged at their true peak whatever their containers hold. */
  lemma {:induction false} ExactShapes(d: Dimension, shape: seq<bool>)
    requires d != Storage
    ensures Orderly(shape) <==>
            forall pod: Pod :: ShapeOf(pod.inits) == shape && NonNegative(d, pod)
                               ==> At(Reservation(pod), d) == Peak(d, pod)
  {
    if Orderly(shape) {
      forall pod: Pod | ShapeOf(pod.inits) == shape && NonNegative(d, pod)
        ensures At(Reservation(pod), d) == Peak(d, pod)
      {
        ChargeWithinSidecarsOfPeak(d, pod);
      }
    } else {
      var i, j :| 0 <= i < j < |shape| && shape[i] && !shape[j];
      DisorderUndercharges(d, shape, i, j);
    }
  }

  // ---------------------------------------------------------------- a manifest that is undercharged

  function Container(name: string, cpu: int, always: bool): Value {
    var requests := Map(map["cpu" := Int(cpu), "memory" := Int(0)]);
    var fields := map["name" := Str(Text(name, None)), "resources" := Map(map["requests" := requests])];
    Map(if always then fields["restartPolicy" := Str(Text("Always", None))] else fields)
  }

  lemma {:induction false} ContainerReserves(table: Table, name: string, cpu: int, always: bool)
    ensures ContainerResources(table, Container(name, cpu, always)) == Ok(Priced(Resources(cpu as real, 0.0, 0.0), []))
    ensures IsSidecar(Container(name, cpu, always)) == always
  {
    var fields := Container(name, cpu, always).fields;
    var requests := map["cpu" := Int(cpu), "memory" := Int(0)];
    assert RequestsOf(fields) == requests;
    assert Request(requests, "cpu", table.spec.missingRequests.cpu) == Some(Quantity(1000 * cpu, cpu));
    assert Request(requests, "memory", table.spec.missingRequests.memory) == Some(Quantity(0, 0));
    assert (1000 * cpu) as real == 1000.0 * (cpu as real);
    assert Gib(0 as real) == 0.0;
    assert Request(requests, "ephemeral-storage", Text("", Some(Quantity(0, 0)))) == Some(Quantity(0, 0));
    var none: seq<Flag> := [];
    assert none + none == none;
  }

  /** A pod that starts a proxy as a sidecar, migrates its database behind it and then runs its app. */
  function MigratesBehindProxy(app: int, proxy: int, migration: int): map<string, Value> {
    map[
      "containers" := List([Container("app", app, false)]),
      "initContainers" := List([Container("proxy", proxy, true), Container("migration", migration, false)])]
  }

  function Holding(cpu: int): Priced {
    Priced(Resources(cpu as real, 0.0, 0.0), [])
  }

  lemma {:induction false} MigratingPod(table: Table, app: int, proxy: int, migration: int)
    ensures PodOf(table, MigratesBehindProxy(app, proxy, migration))
            == Ok(Pod([Holding(app)], SidecarThenOrdinary(Holding(proxy), Holding(migration))))
  {
    var a, p := Container("app", app, false), Container("proxy", proxy, true);
    var m := Container("migration", migration, false);
    ContainerReserves(table, "app", app, false);
    ContainerReserves(table, "proxy", proxy, true);
    ContainerReserves(table, "migration", migration, false);
    OneContainer(table, a, Holding(app));
    TwoInits(table, p, m, Holding(proxy), Holding(migration));
  }

  lemma {:induction false} OneContainer(table: Table, v: Value, held: Priced)
    requires ContainerResources(table, v) == Ok(held)
    ensures Containers(table, [v]) == Ok([held])
  {
    var none: seq<Value> := [];
    assert [v][..0] == none && Containers(table, none) == Ok([]);
    assert [] + [held] == [held];
  }

  lemma {:induction false} TwoInits(table: Table, v: Value, w: Value, x: Priced, y: Priced)
    requires ContainerResources(table, v) == Ok(x) && ContainerResources(table, w) == Ok(y)
    ensures Inits(table, [v, w]) == Ok([Init(IsSidecar(v), x), Init(IsSidecar(w), y)])
  {
    var none: seq<Value> := [];
    assert [v][..0] == none && [v, w][..1] == [v] && Inits(table, none) == Ok([]);
    assert [] + [Init(IsSidecar(v), x)] == [Init(IsSidecar(v), x)];
    assert Inits(table, [v]) == Ok([Init(IsSidecar(v), x)]);
    assert [v, w][|[v, w]| - 1] == w;
    assert [Init(IsSidecar(v), x)] + [Init(IsSidecar(w), y)] == [Init(IsSidecar(v), x), Init(IsSidecar(w), y)];
  }

  lemma {:induction false} OneApp(d: Dimension, pod: Pod, app: Priced)
    requires pod.apps == [app]
    ensures AppsIn(d, pod) == At(app.res, d)
  {
    var one, none: seq<Priced> := [app], [];
    assert one[..|one| - 1] == none && one[|one| - 1] == app;
    assert Held(one) == Held(none).Add(app.res) && Held(none) == NOTHING;
  }

  function SidecarThenOrdinary(proxy: Priced, migration: Priced): seq<Init> {
    [Init(true, proxy), Init(false, migration)]
  }

  lemma {:induction false} SmallSums(proxy: Priced, migration: Priced)
    requires migration.res.cpu >= 0.0
    ensures SidecarSum(Cpu, SidecarThenOrdinary(proxy, migration)) == proxy.res.cpu
    ensures Largest(Cpu, SidecarThenOrdinary(proxy, migration)) == migration.res.cpu
  {
    var inits, one := SidecarThenOrdinary(proxy, migration), [Init(false, migration)];
    assert inits[1..] == one && one[1..] == [];
    assert SidecarSum(Cpu, one) == 0.0;
    assert Largest(Cpu, one) == Max(Amount(one[0], Cpu), 0.0);
  }

  lemma {:induction false} SmallPeak(proxy: Priced, migration: Priced, apps: real)
    requires apps >= 0.0 && proxy.res.cpu >= 0.0 && migration.res.cpu >= 0.0
    ensures Highest(Levels(Cpu, 0.0, SidecarThenOrdinary(proxy, migration), apps))
            == Max(proxy.res.cpu + migration.res.cpu, proxy.res.cpu + apps)
  {
    var inits, x, y := SidecarThenOrdinary(proxy, migration), proxy.res.cpu, migration.res.cpu;
    assert inits[1..] == [inits[1]] && inits[1..][1..] == [];
    HighestCons(x + y, Levels(Cpu, x, [], apps));
    HighestCons(x, Levels(Cpu, x, inits[1..], apps));
  }

  lemma {:induction false} SmallPod(pod: Pod, app: Priced, proxy: Priced, migration: Priced)
    requires app.res.cpu >= 0.0 && proxy.res.cpu >= 0.0 && migration.res.cpu >= 0.0
    requires pod.apps == [app] && pod.inits == SidecarThenOrdinary(proxy, migration)
    ensures At(Reservation(pod), Cpu) == Charge(Cpu, app.res.cpu + proxy.res.cpu, migration.res.cpu)
    ensures Peak(Cpu, pod) == Max(proxy.res.cpu + migration.res.cpu, proxy.res.cpu + app.res.cpu)
  {
    OneApp(Cpu, pod, app);
    SmallSums(proxy, migration);
    SmallPeak(proxy, migration, app.res.cpu);
    ChargeOf(Cpu, pod);
  }

  /** Its charge misses the proxy while the migration runs: it falls short of the peak as soon as
      the proxy needs anything and the migration more than the app. */
  lemma {:induction false} MigrationIsUndercharged(table: Table, app: int, proxy: int, migration: int)
    requires 0 <= app && 0 <= proxy && 0 <= migration
    ensures var pod := PodOf(table, MigratesBehindProxy(app, proxy, migration));
            pod.Ok? && (At(Reservation(pod.value), Cpu) < Peak(Cpu, pod.value) <==> proxy > 0 && migration > app)
  {
    MigratingPod(table, app, proxy, migration);
    var pod := PodOf(table, MigratesBehindProxy(app, proxy, migration)).value;
    SmallPod(pod, Holding(app), Holding(proxy), Holding(migration));
  }
}
