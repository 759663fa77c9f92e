/** The touched roots against the whole estate.

  A run prices only the roots a change touches, or all roots of the head tree when the rates
  change. The figures it judges are meant as changes to the whole estate; this module says when
  they are.
 */
module Estate {
  import opened Results
  import opened Manifests
  import opened Ordering
  import opened Folds
  import opened Pricing
  import opened Cost
  import opened Determinism
  import opened Gate

  /** A commit: what each of its manifest roots renders to, every other directory rendering to nothing,
      and its rate table. */
  datatype Commit = Commit(tree: Tree, table: Table)

  predicate Holds(tree: Tree, root: string) {
    tree(root) != Rendered([])
  }

  /** Which of the two totals is compared. */
  datatype Figure = Ceiling | Floor

  function CostAt(f: Figure, c: Commit, nodes: int, root: string): real {
    match f
    case Ceiling => CeilingAt(c.tree, c.table, nodes, root)
    case Floor => FloorAt(c.tree, c.table, nodes, root)
  }

  function Costs(f: Figure, c: Commit, nodes: int): RootCost {
    match f
    case Ceiling => Ceilings(c.tree, c.table, nodes)
    case Floor => Floors(c.tree, c.table, nodes)
  }

  /** What the given roots of a commit cost together. */
  function Total(f: Figure, c: Commit, nodes: int, roots: seq<string>): real {
    Sum(Costs(f, c, nodes), roots)
  }

  /** `all` lists every root that either commit renders to something. */
  ghost predicate Lists(all: seq<string>, base: Commit, head: Commit) {
    Distinct(all) && forall r :: Holds(base.tree, r) || Holds(head.tree, r) ==> r in all
  }

  /** What a run has to evaluate: with unchanged rates, every root of the head that was not the same
      before; with changed rates, every root of the head. */
  ghost predicate InScope(base: Commit, head: Commit, roots: seq<string>) {
    Distinct(roots) && forall r :: r !in roots && Holds(head.tree, r) ==> SameCost(base, head, r)
  }

  ghost predicate SameCost(base: Commit, head: Commit, root: string) {
    !RatesChanged(base.table, head.table) && base.tree(root) == head.tree(root)
  }

  /** The roots of the base that are gone from the head and that a run does not evaluate. */
  ghost function Gone(head: Commit, all: seq<string>, roots: seq<string>): seq<string> {
    if all == [] then []
    else
      var last := all[|all| - 1];
      Gone(head, all[..|all| - 1], roots) + if last in roots || Holds(head.tree, last) then [] else [last]
  }

  // ---------------------------------------------------------------- sums over roots

  type Roots = seq<string>

  function Without(all: Roots, roots: Roots): Roots {
    if all == [] then []
    else
      var last := all[|all| - 1];
      Without(all[..|all| - 1], roots) + if last in roots then [] else [last]
  }

  lemma {:induction false} WithoutMembers(all: Roots, roots: Roots)
    ensures forall r :: r in Without(all, roots) <==> r in all && r !in roots
  {
    if all != [] {
      WithoutMembers(all[..|all| - 1], roots);
      assert all == all[..|all| - 1] + [all[|all| - 1]];
    }
  }

  lemma {:induction false} SumWithoutOne(f: RootCost, all: Roots, roots: Roots, x: string)
    requires Distinct(all) && x !in roots
    ensures Sum(f, Without(all, roots))
            == Sum(f, Without(all, roots + [x])) + if x in all then f(x) else 0.0
  {
    if all != [] {
      var front, last := all[..|all| - 1], all[|all| - 1];
      assert all == front + [last];
      SumWithoutOne(f, front, roots, x);
      if last !in roots {
        SumStep(f, Without(front, roots), last);
        if last != x {
          SumStep(f, Without(front, roots + [x]), last);
        }
      }
      Padding(Without(front, roots));
      Padding(Without(front, roots + [x]));
    }
  }

  lemma {:induction false} Padding(s: Roots)
    ensures s + [] == s
  {
  }

  /** A sum over all roots splits into the evaluated ones and the rest; an evaluated root that
      neither commit has costs nothing. */
  lemma {:induction false} SumSplits(f: RootCost, all: Roots, roots: Roots)
    requires Distinct(all) && Distinct(roots)
    requires forall r :: r in roots && r !in all ==> f(r) == 0.0
    ensures Sum(f, all) == Sum(f, roots) + Sum(f, Without(all, roots))
  {
    if roots == [] {
      WithoutNone(all);
    } else {
      var front, last := roots[..|roots| - 1], roots[|roots| - 1];
      assert roots == front + [last];
      SumSplits(f, all, front);
      SumWithoutOne(f, all, front, last);
    }
  }

  lemma {:induction false} WithoutNone(all: Roots)
    ensures Without(all, []) == all
  {
    if all != [] {
      WithoutNone(all[..|all| - 1]);
    }
  }

  lemma {:induction false} MissingRootIsFree(f: Figure, c: Commit, nodes: int, root: string)
    requires !Holds(c.tree, root)
    ensures CostAt(f, c, nodes, root) == 0.0
  {
    assert PriceAll(c.table, nodes, Autoscalers([]), []) == Ok([]);
  }

  lemma {:induction false} SameRootSameCost(f: Figure, base: Commit, head: Commit, nodes: int, root: string)
    requires SameCost(base, head, root)
    ensures CostAt(f, base, nodes, root) == CostAt(f, head, nodes, root)
  {
    if base.tree(root).Rendered? {
      var objects := base.tree(root).objects;
      UnchangedRatesPriceAlike(base.table, head.table, nodes, Autoscalers(objects), objects);
    }
  }

  // ---------------------------------------------------------------- the scoped difference

  function ScopedDelta(f: Figure, base: Commit, head: Commit, nodes: int, roots: Roots): real {
    Total(f, head, nodes, roots) - Total(f, base, nodes, roots)
  }

  lemma {:induction false} CommitSplits(f: Figure, c: Commit, nodes: int, all: Roots, roots: Roots)
    requires Distinct(all) && Distinct(roots) && forall r :: Holds(c.tree, r) ==> r in all
    ensures Total(f, c, nodes, all) == Total(f, c, nodes, roots) + Total(f, c, nodes, Without(all, roots))
  {
    forall r | r in roots && r !in all ensures Costs(f, c, nodes)(r) == 0.0 {
      MissingRootIsFree(f, c, nodes, r);
    }
    SumSplits(Costs(f, c, nodes), all, roots);
  }

  lemma {:induction false} RestIsGone(f: Figure, base: Commit, head: Commit, nodes: int, all: Roots, roots: Roots)
    requires forall r :: r !in roots && Holds(head.tree, r) ==> SameCost(base, head, r)
    ensures var rest := Without(all, roots);
            Total(f, base, nodes, rest) == Total(f, head, nodes, rest) + Total(f, base, nodes, Gone(head, all, roots))
  {
    if all != [] {
      var front, last := all[..|all| - 1], all[|all| - 1];
      var b, h := Costs(f, base, nodes), Costs(f, head, nodes);
      RestIsGone(f, base, head, nodes, front, roots);
      Padding(Without(front, roots));
      Padding(Gone(head, front, roots));
      if last !in roots {
        SumStep(b, Without(front, roots), last);
        SumStep(h, Without(front, roots), last);
        if Holds(head.tree, last) {
          SameRootSameCost(f, base, head, nodes, last);
        } else {
          MissingRootIsFree(f, head, nodes, last);
          SumStep(b, Gone(head, front, roots), last);
        }
      }
    }
  }

  /** The scoped difference exceeds the difference of the whole estates by exactly what the roots
      that are gone from the head, and were not evaluated, used to cost. */
  lemma {:induction false} ScopedExceedsWholeByRemoved(
      f: Figure, base: Commit, head: Commit, nodes: int, all: Roots, roots: Roots)
    requires Lists(all, base, head) && InScope(base, head, roots)
    ensures ScopedDelta(f, base, head, nodes, roots)
            == ScopedDelta(f, base, head, nodes, all) + Total(f, base, nodes, Gone(head, all, roots))
  {
    CommitSplits(f, base, nodes, all, roots);
    CommitSplits(f, head, nodes, all, roots);
    RestIsGone(f, base, head, nodes, all, roots);
  }

  /** With unchanged rates, and no root gone unevaluated, the scoped difference is the difference of
      the whole estates. */
  lemma {:induction false} ScopedIsWhole(f: Figure, base: Commit, head: Commit, nodes: int, all: Roots, roots: Roots)
    requires Lists(all, base, head) && Distinct(roots)
    requires forall r :: r !in roots ==> SameCost(base, head, r)
    ensures ScopedDelta(f, base, head, nodes, roots) == ScopedDelta(f, base, head, nodes, all)
  {
    ScopedExceedsWholeByRemoved(f, base, head, nodes, all, roots);
    GoneMembers(head, all, roots);
    var gone := Gone(head, all, roots);
    forall r | r in gone ensures Costs(f, base, nodes)(r) == Zero(r) {
      MissingRootIsFree(f, base, nodes, r);
    }
    SumAgrees(Costs(f, base, nodes), Zero, gone);
    SumOfZero(gone);
  }

  lemma {:induction false} GoneMembers(head: Commit, all: Roots, roots: Roots)
    ensures forall r :: r in Gone(head, all, roots) <==> r in all && r !in roots && !Holds(head.tree, r)
  {
    if all != [] {
      GoneMembers(head, all[..|all| - 1], roots);
      assert all == all[..|all| - 1] + [all[|all| - 1]];
    }
  }

  /** With new rates and a root removed, the run sees no change where the estate shrank. */
  lemma {:induction false} RemovedUnderNewRates(f: Figure, base: Commit, head: Commit, nodes: int, root: string)
    requires RatesChanged(base.table, head.table)
    requires forall r :: Holds(base.tree, r) ==> r == root
    requires forall r :: !Holds(head.tree, r)
    ensures InScope(base, head, []) && Lists([root], base, head)
    ensures ScopedDelta(f, base, head, nodes, []) == 0.0
    ensures ScopedDelta(f, base, head, nodes, [root]) == -CostAt(f, base, nodes, root)
  {
    OneRootTotal(f, base, nodes, root);
    OneRootTotal(f, head, nodes, root);
    MissingRootIsFree(f, head, nodes, root);
  }

  lemma {:induction false} OneRootTotal(f: Figure, c: Commit, nodes: int, root: string)
    ensures Total(f, c, nodes, []) == 0.0
    ensures Total(f, c, nodes, [root]) == CostAt(f, c, nodes, root)
  {
    SumOfOne(Costs(f, c, nodes), root);
  }

  function Zero(root: string): real {
    0.0
  }

  lemma {:induction false} SumOfZero(roots: Roots)
    ensures Sum(Zero, roots) == 0.0
  {
    if roots != [] {
      SumOfZero(roots[..|roots| - 1]);
    }
  }

  // ---------------------------------------------------------------- costs that are not negative

  ghost predicate SaneReservation(r: Reserved) {
    r.Reserves? ==> r.replicas >= 0 && r.per.cpu >= 0.0 && r.per.memory >= 0.0 && r.per.storage >= 0.0
  }

  ghost predicate SaneBounds(b: Bounds) {
    0 <= b.min <= b.max
  }

  /** Replica counts and quantities are not negative, and no autoscaler's minimum exceeds its maximum. */
  ghost predicate SaneObjects(table: Table, nodes: int, objects: seq<Object>) {
    && (forall o :: o in objects && Reserve(table, nodes, o).Ok? ==> SaneReservation(Reserve(table, nodes, o).value))
    && (forall o :: o in objects && ScalerOf(o).Some? ==> SaneBounds(ScalerOf(o).value.1))
  }

  ghost predicate SaneCommit(c: Commit, nodes: int) {
    && Validates(c.table)
    && forall r :: c.tree(r).Rendered? ==> SaneObjects(c.table, nodes, c.tree(r).objects)
  }

  lemma {:induction false} ScaledCost(table: Table, per: Resources, least: int, most: int)
    requires Validates(table) && per.cpu >= 0.0 && per.memory >= 0.0 && per.storage >= 0.0
    requires 0 <= least <= most
    ensures 0.0 <= CostOf(table, per.Scale(least as real)) <= CostOf(table, per.Scale(most as real))
  {
    MonthlyScales(table, per.cpu, per.memory, per.storage, least as real);
    MonthlyScales(table, per.cpu, per.memory, per.storage, most as real);
    MonthlyNonNegative(table, per.cpu, per.memory, per.storage);
    var unit := MonthlyUSD(table, per.cpu, per.memory, per.storage);
    Monotone(unit, least as real, most as real);
  }

  lemma {:induction false} Monotone(unit: real, x: real, y: real)
    requires unit >= 0.0 && 0.0 <= x <= y
    ensures 0.0 <= unit * x <= unit * y
  {
  }

  lemma {:induction false} TimesUnit(table: Table, per: Resources, x: int, y: int)
    requires CostOf(table, per) > 0.0
    ensures CostOf(table, per.Scale(x as real)) <= CostOf(table, per.Scale(y as real)) <==> x <= y
  {
    var unit := CostOf(table, per);
    MonthlyScales(table, per.cpu, per.memory, per.storage, x as real);
    MonthlyScales(table, per.cpu, per.memory, per.storage, y as real);
    if x <= y {
      Ordered(unit, x as real, y as real);
    } else {
      Ordered(unit, y as real, x as real);
    }
  }

  lemma {:induction false} Ordered(unit: real, x: real, y: real)
    requires unit > 0.0 && x <= y
    ensures unit * x <= unit * y && (x < y ==> unit * x < unit * y)
  {
    assert unit * y - unit * x == unit * (y - x);
  }

  /** The gate takes an autoscaler's bounds as they are: the floor of a workload that costs anything is
      within its ceiling exactly when the minimum is within the maximum. */
  lemma {:induction false} FloorWithinExactlyWhen(table: Table, id: Target, r: Reserved, b: Bounds)
    requires r.Reserves? && CostOf(table, r.per) > 0.0
    ensures var w := Settle(table, id, r, Some(b));
            w.floorMonthlyUSD <= w.monthlyUSD <==> b.min <= b.max
  {
    TimesUnit(table, r.per, b.min, b.max);
  }

  lemma {:induction false} SettledCosts(table: Table, id: Target, r: Reserved, bounds: Option<Bounds>)
    requires Validates(table) && r.Reserves? && SaneReservation(r) && (bounds.Some? ==> SaneBounds(bounds.value))
    ensures 0.0 <= Settle(table, id, r, bounds).floorMonthlyUSD <= Settle(table, id, r, bounds).monthlyUSD
  {
    match bounds
    case None => ScaledCost(table, r.per, r.replicas, r.replicas);
    case Some(b) => ScaledCost(table, r.per, b.min, b.max);
  }

  lemma {:induction false} PricedCosts(table: Table, nodes: int, bounds: Option<Bounds>, o: Object, w: Workload)
    requires Validates(table) && Price(table, nodes, bounds, o) == Ok(Some(w))
    requires SaneReservation(Reserve(table, nodes, o).value) && (bounds.Some? ==> SaneBounds(bounds.value))
    ensures 0.0 <= w.floorMonthlyUSD <= w.monthlyUSD
  {
    var r := Reserve(table, nodes, o).value;
    match r
    case Skipped =>
    case Unpriceable =>
    case Reserves(_, _, _) => SettledCosts(table, TargetOf(o), r, bounds);
  }

  /** Committed spend is not negative and never exceeds the authorised ceiling. */
  lemma {:induction false} FloorWithinCeiling(table: Table, nodes: int, objects: seq<Object>)
    requires Validates(table) && SaneObjects(table, nodes, objects)
    requires PriceAll(table, nodes, Autoscalers(objects), objects).Ok?
    ensures var ws := PriceAll(table, nodes, Autoscalers(objects), objects).value;
            0.0 <= SumFloor(ws) <= SumMonthly(ws)
  {
    var scalers := Autoscalers(objects);
    var f := PriceUnder(table, nodes, scalers);
    var ws := Collect(f, objects).value;
    IndexAll(ScalerOf, objects, (b: Bounds) => 0 <= b.min <= b.max);
    forall w | w in ws ensures 0.0 <= FloorOf(w) <= MonthlyOf(w) {
      var o := Origin(f, objects, w);
      PricedCosts(table, nodes, Lookup(scalers, TargetOf(o)), o, w);
    }
    SumNonNegative(FloorOf, ws);
    SumLeq(FloorOf, MonthlyOf, ws);
  }

  lemma {:induction false} RootCostsSane(c: Commit, nodes: int, root: string)
    requires SaneCommit(c, nodes)
    ensures 0.0 <= CostAt(Floor, c, nodes, root) <= CostAt(Ceiling, c, nodes, root)
  {
    if IsGood(c.tree, c.table, nodes, root) {
      FloorWithinCeiling(c.table, nodes, c.tree(root).objects);
    }
  }

  lemma {:induction false} TotalsSane(c: Commit, nodes: int, roots: Roots)
    requires SaneCommit(c, nodes)
    ensures 0.0 <= Total(Floor, c, nodes, roots) <= Total(Ceiling, c, nodes, roots)
  {
    forall r ensures 0.0 <= Costs(Floor, c, nodes)(r) <= Costs(Ceiling, c, nodes)(r) {
      RootCostsSane(c, nodes, r);
    }
    SumNonNegative(Costs(Floor, c, nodes), roots);
    SumLeq(Costs(Floor, c, nodes), Costs(Ceiling, c, nodes), roots);
  }

  /** For sane commits the scoped difference is never below the true one, in either figure. */
  lemma {:induction false} ScopedNeverTooLow(
      f: Figure, base: Commit, head: Commit, nodes: int, all: Roots, roots: Roots)
    requires Lists(all, base, head) && InScope(base, head, roots) && SaneCommit(base, nodes)
    ensures ScopedDelta(f, base, head, nodes, roots) >= ScopedDelta(f, base, head, nodes, all)
  {
    ScopedExceedsWholeByRemoved(f, base, head, nodes, all, roots);
    TotalsSane(base, nodes, Gone(head, all, roots));
  }
}
