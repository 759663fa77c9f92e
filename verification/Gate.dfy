/** One run of the gate, from the changed files to the exit code.

  Git, kustomize, the policy engine and the report file are inputs: what each of them answers,
  failure included. Everything the gate decides from those answers is modelled.
 */
module Gate {
  import opened Results
  import opened Manifests
  import opened Folds
  import opened Pricing
  import opened Cost
  import opened Additivity
  import opened Delta
  import opened Config
  import opened Verdict
  import opened Decisions

  datatype Rendering = Rendered(objects: seq<Object>) | RenderFailed(why: string)

  /** One side of the comparison: what rendering each directory of its tree gives. */
  type Tree = string -> Rendering

  datatype BaseTable = Present(table: Table) | Absent | Unreadable(why: string)

  datatype Engine = Engine(evaluate: seq<Object> -> PolicyResult) | EngineFailed(why: string)

  datatype Inputs = Inputs(
    config: Result<Config, string>,          // the parsed configuration file
    changed: Result<seq<string>, string>,    // manifest files that differ between the commits
    workTable: Result<Table, string>,        // the rate table of the working tree
    trees: Result<(Tree, Tree), string>,     // the base and the head tree
    baseTable: BaseTable,
    headTable: Result<Table, string>,
    touchedRoots: seq<string>,               // roots of the changed files
    headRoots: Result<seq<string>, string>,  // every root of the head tree
    baseRoots: Result<seq<string>, string>,  // every root of the base tree
    engine: Engine,
    delivered: Result<(), string>)           // the report was encoded and written

  datatype Evaluation = Evaluation(
    cfg: Config,
    baseTable: Table,
    headTable: Table,
    roots: seq<string>,
    headObjects: seq<Object>,
    base: Estimate,
    head: Estimate,
    costErrors: seq<string>,
    estate: real,
    delta: Delta,
    policy: PolicyResult)

  /** A run that got as far as a report; without an evaluation when no manifest changed. */
  datatype Finished = Finished(code: int, evaluation: Option<Evaluation>)

  const EXIT_PASS: int := 0
  const EXIT_FAIL: int := 1
  const EXIT_INCONCLUSIVE: int := 2

  function ExitCode(d: Decision): int {
    match d
    case Pass => EXIT_PASS
    case Fail => EXIT_FAIL
    case Inconclusive => EXIT_INCONCLUSIVE
  }

  function LoadConfig(parsed: Result<Config, string>): Result<Config, string> {
    var cfg :- parsed;
    if IsValid(cfg) then Ok(cfg) else Err("invalid gate config")
  }

  function LoadTable(parsed: Result<Table, string>): Result<Table, string> {
    var t :- parsed;
    if Validates(t) then Ok(t) else Err("invalid pricing table")
  }

  /** The base and head rate tables; a base without one is priced with the head's. */
  function LoadPricingTables(base: BaseTable, head: Result<Table, string>): Result<(Table, Table), string> {
    var h :- LoadTable(head);
    match base
    case Absent => Ok((h, h))
    case Unreadable(why) => Err(why)
    case Present(t) =>
      var b :- LoadTable(Ok(t));
      Ok((b, h))
  }

  // ---------------------------------------------------------------- what a root costs

  type RootCost = string -> real

  function RootPrice(tree: Tree, table: Table, nodes: int, root: string): Result<seq<Workload>, string> {
    match tree(root)
    case RenderFailed(why) => Err(why)
    case Rendered(objects) =>
      match PriceAll(table, nodes, Autoscalers(objects), objects)
      case Err(_) => Err("pricing")
      case Ok(ws) => Ok(ws)
  }

  predicate IsGood(tree: Tree, table: Table, nodes: int, root: string) {
    RootPrice(tree, table, nodes, root).Ok?
  }

  function CeilingAt(tree: Tree, table: Table, nodes: int, root: string): real {
    var p := RootPrice(tree, table, nodes, root);
    if p.Ok? then SumMonthly(p.value) else 0.0
  }

  function FloorAt(tree: Tree, table: Table, nodes: int, root: string): real {
    var p := RootPrice(tree, table, nodes, root);
    if p.Ok? then SumFloor(p.value) else 0.0
  }

  /** The ceiling, or the floor, of each root; nothing for a root that cannot be priced. */
  function Ceilings(tree: Tree, table: Table, nodes: int): RootCost {
    root => CeilingAt(tree, table, nodes, root)
  }

  function Floors(tree: Tree, table: Table, nodes: int): RootCost {
    root => FloorAt(tree, table, nodes, root)
  }

  function ObjectsAt(tree: Tree, roots: seq<string>): seq<Object> {
    if roots == [] then []
    else
      ObjectsAt(tree, roots[..|roots| - 1])
      + match tree(roots[|roots| - 1])
        case RenderFailed(_) => []
        case Rendered(objects) => objects
  }

  function PricedAt(tree: Tree, table: Table, nodes: int, root: string): seq<Workload> {
    var p := RootPrice(tree, table, nodes, root);
    if p.Ok? then p.value else []
  }

  /** The workloads of the given roots, root by root. */
  function WorkloadsAt(tree: Tree, table: Table, nodes: int, roots: seq<string>): seq<Workload> {
    if roots == [] then []
    else WorkloadsAt(tree, table, nodes, roots[..|roots| - 1]) + PricedAt(tree, table, nodes, roots[|roots| - 1])
  }

  lemma {:induction false} WorkloadsStep(tree: Tree, table: Table, nodes: int, roots: seq<string>, root: string)
    ensures WorkloadsAt(tree, table, nodes, roots + [root])
            == WorkloadsAt(tree, table, nodes, roots) + PricedAt(tree, table, nodes, root)
  {
    assert (roots + [root])[..|roots|] == roots;
  }

  // ---------------------------------------------------------------- the loop over the roots

  /** `est` lists the workloads of the given roots of a tree and adds up what they cost. */
  ghost predicate Covers(est: Estimate, tree: Tree, table: Table, nodes: int, roots: seq<string>) {
    && multiset(est.workloads) == multiset(WorkloadsAt(tree, table, nodes, roots))
    && est.monthlyUSD == Sum(Ceilings(tree, table, nodes), roots)
    && est.committedMonthlyUSD == Sum(Floors(tree, table, nodes), roots)
    && est.monthlyUSD == SumMonthly(est.workloads)
  }

  ghost predicate AllGood(tree: Tree, table: Table, nodes: int, roots: seq<string>) {
    forall r :: r in roots ==> IsGood(tree, table, nodes, r)
  }

  lemma {:induction false} CoversMerge(
      est: Estimate, e: Estimate, objects: seq<Object>, tree: Tree, table: Table, nodes: int,
      roots: seq<string>, root: string)
    requires Covers(est, tree, table, nodes, roots)
    requires tree(root) == Rendered(objects) && IsEstimate(table, nodes, objects, Ok(e))
    ensures IsGood(tree, table, nodes, root)
    ensures Covers(Merge(est, e), tree, table, nodes, roots + [root])
  {
    var ws := PriceAll(table, nodes, Autoscalers(objects), objects).value;
    SumStep(Ceilings(tree, table, nodes), roots, root);
    SumStep(Floors(tree, table, nodes), roots, root);
    SumConcat(MonthlyOf, est.workloads, e.workloads);
    SumPermutes(MonthlyOf, e.workloads, ws);
    WorkloadsStep(tree, table, nodes, roots, root);
    MultisetsConcat(est.workloads, WorkloadsAt(tree, table, nodes, roots), e.workloads, ws);
  }

  /** A root that cannot be priced leaves the coverage as it is. */
  lemma {:induction false} CoversSkip(
      est: Estimate, tree: Tree, table: Table, nodes: int, roots: seq<string>, root: string)
    requires Covers(est, tree, table, nodes, roots) && !IsGood(tree, table, nodes, root)
    ensures Covers(est, tree, table, nodes, roots + [root])
  {
    SumStep(Ceilings(tree, table, nodes), roots, root);
    SumStep(Floors(tree, table, nodes), roots, root);
    WorkloadsStep(tree, table, nodes, roots, root);
    assert WorkloadsAt(tree, table, nodes, roots) + [] == WorkloadsAt(tree, table, nodes, roots);
  }

  ghost predicate HeadDone(
      objects: seq<Object>, est: Estimate, tree: Tree, table: Table, nodes: int, done: seq<string>)
  {
    objects == ObjectsAt(tree, done) && Covers(est, tree, table, nodes, done)
  }

  ghost predicate BaseDone(est: Estimate, complete: bool, tree: Tree, table: Table, nodes: int, done: seq<string>) {
    est.monthlyUSD == SumMonthly(est.workloads) && (complete ==> Covers(est, tree, table, nodes, done))
  }

  lemma {:induction false} NeverComplete(
      est: Estimate, complete: bool, tree: Tree, table: Table, nodes: int, done: seq<string>, more: seq<string>)
    requires BaseDone(est, complete, tree, table, nodes, done)
    ensures BaseDone(est, false, tree, table, nodes, more)
  {
  }

  class Evaluator {
    const baseTree: Tree
    const headTree: Tree
    const baseTable: Table
    const headTable: Table
    const nodes: int
    const baseCalc: Calculator
    const headCalc: Calculator
    var headObjects: seq<Object>
    var base: Estimate
    var head: Estimate
    var costErrors: seq<string>

    ghost predicate Valid()
      reads this, baseCalc, headCalc
    {
      && baseCalc != headCalc
      && baseCalc.table == baseTable && baseCalc.assumedNodeCount == nodes
      && headCalc.table == headTable && headCalc.assumedNodeCount == nodes
    }

    constructor (baseTree: Tree, headTree: Tree, baseTable: Table, headTable: Table, nodes: int)
      ensures Valid() && fresh(baseCalc) && fresh(headCalc)
      ensures this.baseTree == baseTree && this.headTree == headTree
      ensures this.baseTable == baseTable && this.headTable == headTable && this.nodes == nodes
      ensures headObjects == [] && base == EMPTY && head == EMPTY && costErrors == []
    {
      this.baseTree, this.headTree := baseTree, headTree;
      this.baseTable, this.headTable, this.nodes := baseTable, headTable, nodes;
      baseCalc := new Calculator(baseTable, nodes);
      headCalc := new Calculator(headTable, nodes);
      headObjects, base, head, costErrors := [], EMPTY, EMPTY, [];
    }

    /** The head side after the given roots. */
    ghost predicate HeadSide(done: seq<string>)
      reads this`headObjects, this`head
    {
      HeadDone(headObjects, head, headTree, headTable, nodes, done)
    }

    /** The base side, which is only complete while nothing has failed. */
    ghost predicate BaseSide(done: seq<string>, complete: bool)
      reads this`base
    {
      BaseDone(base, complete, baseTree, baseTable, nodes, done)
    }

    ghost predicate GoodSoFar(done: seq<string>) {
      AllGood(headTree, headTable, nodes, done) && AllGood(baseTree, baseTable, nodes, done)
    }

    lemma {:induction false} GoodSoFarStep(done: seq<string>, root: string)
      ensures GoodSoFar(done + [root]) <==>
              && GoodSoFar(done)
              && IsGood(headTree, headTable, nodes, root) && IsGood(baseTree, baseTable, nodes, root)
    {
      GoodStep(headTree, headTable, nodes, done, root);
      GoodStep(baseTree, baseTable, nodes, done, root);
    }

    /** What the loop has established after the given roots. */
    ghost predicate Progress(done: seq<string>)
      reads this
    {
      HeadSide(done) && BaseSide(done, costErrors == []) && (costErrors == [] <==> GoodSoFar(done))
    }

    method EvaluateHead(root: string, ghost done: seq<string>) returns (ok: bool)
      requires Valid() && HeadSide(done)
      modifies this`headObjects, this`head, this`costErrors, headCalc
      ensures Valid() && HeadSide(done + [root])
      ensures ok == IsGood(headTree, headTable, nodes, root)
      ensures if ok then costErrors == old(costErrors) else costErrors != []
    {
      assert (done + [root])[..|done|] == done;
      var headDir := this.headTree(root);
      if headDir.RenderFailed? {
        CoversSkip(head, headTree, headTable, nodes, done, root);
        assert headObjects + [] == headObjects;
        costErrors := costErrors + ["rendering " + root + " at head: " + headDir.why];
        return false;
      }
      headObjects := headObjects + headDir.objects;

      var he := headCalc.Estimate(headDir.objects);
      if he.Err? {
        CoversSkip(head, headTree, headTable, nodes, done, root);
        costErrors := costErrors + ["pricing " + root + " at head"];
        return false;
      }
      CoversMerge(head, he.value, headDir.objects, headTree, headTable, nodes, done, root);
      head := Merge(head, he.value);
      ok := true;
    }

    method EvaluateBase(root: string, ghost done: seq<string>) returns (ok: bool)
      requires Valid() && BaseSide(done, costErrors == [])
      modifies this`base, this`costErrors, baseCalc
      ensures Valid() && BaseSide(done + [root], costErrors == [])
      ensures ok == IsGood(baseTree, baseTable, nodes, root)
      ensures if ok then costErrors == old(costErrors) else costErrors != []
    {
      var baseDir := this.baseTree(root);
      if baseDir.RenderFailed? {
        costErrors := costErrors + ["rendering " + root + " at base: " + baseDir.why];
        return false;
      }
      var be := baseCalc.Estimate(baseDir.objects);
      if be.Err? {
        costErrors := costErrors + ["pricing " + root + " at base"];
        return false;
      }
      if costErrors == [] {
        CoversMerge(base, be.value, baseDir.objects, baseTree, baseTable, nodes, done, root);
      }
      MergeTotals(base, baseTable, nodes, baseDir.objects, be.value);
      base := Merge(base, be.value);
      ok := true;
    }

    /** One turn of the loop; each failure records why this root was not covered and ends the turn. */
    method EvaluateRoot(root: string, ghost done: seq<string>)
      requires Valid() && Progress(done)
      modifies this, baseCalc, headCalc
      ensures Valid() && Progress(done + [root])
    {
      GoodSoFarStep(done, root);
      var ok := EvaluateHead(root, done);
      if !ok {
        NeverComplete(base, old(costErrors) == [], baseTree, baseTable, nodes, done, done + [root]);
        return;
      }
      var _ := EvaluateBase(root, done);
    }

    method EvaluateRoots(roots: seq<string>)
      requires Valid() && headObjects == [] && base == EMPTY && head == EMPTY && costErrors == []
      modifies this, baseCalc, headCalc
      ensures Valid() && Progress(roots)
    {
      for i := 0 to |roots|
        invariant Valid() && Progress(roots[..i])
      {
        assert roots[..i + 1] == roots[..i] + [roots[i]];
        EvaluateRoot(roots[i], roots[..i]);
      }
      assert roots[..|roots|] == roots;
    }
  }

  lemma {:induction false} MergeTotals(est: Estimate, table: Table, nodes: int, objects: seq<Object>, e: Estimate)
    requires est.monthlyUSD == SumMonthly(est.workloads) && IsEstimate(table, nodes, objects, Ok(e))
    ensures Merge(est, e).monthlyUSD == SumMonthly(Merge(est, e).workloads)
  {
    SumConcat(MonthlyOf, est.workloads, e.workloads);
    SumPermutes(MonthlyOf, e.workloads, PriceAll(table, nodes, Autoscalers(objects), objects).value);
  }

  lemma {:induction false} GoodStep(tree: Tree, table: Table, nodes: int, done: seq<string>, root: string)
    ensures AllGood(tree, table, nodes, done + [root]) <==>
            AllGood(tree, table, nodes, done) && IsGood(tree, table, nodes, root)
  {
    assert root in done + [root];
    assert forall r :: r in done ==> r in done + [root];
  }

  // ---------------------------------------------------------------- the percentage denominator

  /** The ceiling of every root of the base tree that can be priced; zero if they cannot be listed. */
  function EstateOf(tree: Tree, table: Table, nodes: int, roots: Result<seq<string>, string>): real {
    if roots.Err? then 0.0 else Sum(Ceilings(tree, table, nodes), roots.value)
  }

  method PriceEstate(tree: Tree, roots: Result<seq<string>, string>, calculator: Calculator) returns (total: real)
    modifies calculator
    ensures total == EstateOf(tree, calculator.table, calculator.assumedNodeCount, roots)
  {
    total := 0.0;
    if roots.Err? {
      return;
    }
    var costs: RootCost := Ceilings(tree, calculator.table, calculator.assumedNodeCount);
    for i := 0 to |roots.value|
      invariant total == Sum(costs, roots.value[..i])
    {
      var root := roots.value[i];
      assert roots.value[..i + 1] == roots.value[..i] + [root];
      SumStep(costs, roots.value[..i], root);
      var dir := tree(root);
      if dir.Rendered? {
        var est := calculator.Estimate(dir.objects);
        if est.Ok? {
          total := total + est.value.monthlyUSD;
        }
      }
    }
    assert roots.value[..|roots.value|] == roots.value;
  }

  // ---------------------------------------------------------------- the run

  /** The roots a run has to evaluate: all of the head tree when the rates changed. */
  function RootsToEvaluate(inputs: Inputs, baseTable: Table, headTable: Table): Result<seq<string>, string> {
    if RatesChanged(baseTable, headTable) then inputs.headRoots else Ok(inputs.touchedRoots)
  }

  function PolicyOf(engine: Engine, objects: seq<Object>): PolicyResult {
    match engine
    case EngineFailed(why) => PolicyResult([], [why])
    case Engine(evaluate) => evaluate(objects)
  }

  /** The evaluation is of these inputs: what it compared, over which roots, and what it asked
      the policy engine about. */
  ghost predicate EvaluationOf(inputs: Inputs, e: Evaluation) {
    && LoadConfig(inputs.config) == Ok(e.cfg)
    && inputs.trees.Ok?
    && LoadPricingTables(inputs.baseTable, inputs.headTable) == Ok((e.baseTable, e.headTable))
    && RootsToEvaluate(inputs, e.baseTable, e.headTable) == Ok(e.roots)
    && var (baseTree, headTree) := inputs.trees.value;
    var nodes := e.cfg.cost.assumedNodeCount;
    && e.headObjects == ObjectsAt(headTree, e.roots)
    && e.policy == PolicyOf(inputs.engine, e.headObjects)
    && e.estate == EstateOf(baseTree, e.baseTable, nodes, inputs.baseRoots)
    && IsComparison(e.base, e.head, e.estate, e.delta)
    && e.base.monthlyUSD == SumMonthly(e.base.workloads)
    && e.head.monthlyUSD == SumMonthly(e.head.workloads)
    && (e.costErrors == [] <==>
          AllGood(headTree, e.headTable, nodes, e.roots) && AllGood(baseTree, e.baseTable, nodes, e.roots))
    && (e.costErrors == [] ==>
          && Covers(e.head, headTree, e.headTable, nodes, e.roots)
          && Covers(e.base, baseTree, e.baseTable, nodes, e.roots))
  }

  /** What a run that gets as far as a report may answer: a pass without evaluation when no manifest
      changed, and otherwise the decision on an evaluation of the inputs. */
  ghost predicate IsAnswer(inputs: Inputs, code: int, evaluation: Option<Evaluation>) {
    match evaluation
    case None => inputs.changed == Ok([]) && code == EXIT_PASS
    case Some(e) =>
      && inputs.changed.Ok? && inputs.changed.value != [] && EvaluationOf(inputs, e)
      && code == ExitCode(Judge(e.cfg, e.delta, e.costErrors, e.policy).decision)
  }

  /** Everything the run asks for is answered. */
  predicate AllAnswer(inputs: Inputs) {
    && LoadConfig(inputs.config).Ok? && inputs.changed.Ok? && LoadTable(inputs.workTable).Ok?
    && inputs.trees.Ok? && LoadPricingTables(inputs.baseTable, inputs.headTable).Ok?
    && inputs.headRoots.Ok? && inputs.delivered.Ok?
  }

  method Run(inputs: Inputs) returns (r: Result<Finished, string>)
    ensures r.Ok? ==> IsAnswer(inputs, r.value.code, r.value.evaluation)
    ensures r.Ok? ==> inputs.delivered.Ok? && LoadConfig(inputs.config).Ok? && LoadTable(inputs.workTable).Ok?
    ensures AllAnswer(inputs) ==> r.Ok?
  {
    var cfg :- LoadConfig(inputs.config);
    var changed :- inputs.changed;
    var _ :- LoadTable(inputs.workTable);

    if changed == [] {
      var _ :- inputs.delivered;
      return Ok(Finished(EXIT_PASS, None));
    }

    var trees :- inputs.trees;
    var tables :- LoadPricingTables(inputs.baseTable, inputs.headTable);
    var (baseTree, headTree) := trees;
    var (baseTable, headTable) := tables;
    var roots := inputs.touchedRoots;
    if RatesChanged(baseTable, headTable) {
      roots :- inputs.headRoots;
    }

    var nodes := cfg.cost.assumedNodeCount;
    var loop := new Evaluator(baseTree, headTree, baseTable, headTable, nodes);
    loop.EvaluateRoots(roots);
    var headObjects, base, head, costErrors := loop.headObjects, loop.base, loop.head, loop.costErrors;

    var estate := PriceEstate(baseTree, inputs.baseRoots, loop.baseCalc);
    var delta := Compare(base, head, estate);
    var policy := PolicyOf(inputs.engine, headObjects);
    var verdict := Aggregate(cfg, delta, costErrors, policy);

    var _ :- inputs.delivered;
    var e := Evaluation(cfg, baseTable, headTable, roots, headObjects, base, head, costErrors, estate, delta, policy);
    r := Ok(Finished(ExitCode(verdict.decision), Some(e)));
  }

  /** What a pass must rest on: every evaluated root rendered and priced on both sides, both
      estimates covering all of them, and, where errors block, a policy engine that loaded, saw
      every head object and reported no error. */
  ghost predicate Earned(inputs: Inputs, e: Evaluation)
    requires inputs.trees.Ok?
  {
    var (baseTree, headTree) := inputs.trees.value;
    var nodes := e.cfg.cost.assumedNodeCount;
    && e.costErrors == []
    && AllGood(baseTree, e.baseTable, nodes, e.roots)
    && AllGood(headTree, e.headTable, nodes, e.roots)
    && Covers(e.base, baseTree, e.baseTable, nodes, e.roots)
    && Covers(e.head, headTree, e.headTable, nodes, e.roots)
    && (e.cfg.policy.treatErrorAsBlocking ==>
          && inputs.engine.Engine?
          && e.policy == inputs.engine.evaluate(ObjectsAt(headTree, e.roots))
          && e.policy.errors == [])
  }

  lemma {:induction false} PassIsEarned(inputs: Inputs, e: Evaluation)
    requires EvaluationOf(inputs, e)
    requires ExitCode(Judge(e.cfg, e.delta, e.costErrors, e.policy).decision) == EXIT_PASS
    ensures Earned(inputs, e)
  {
    PassesExactlyWhen(e.cfg, e.delta, e.costErrors, e.policy);
  }

  /** The process: any failure of the gate itself exits inconclusive. */
  method EvaluateCommand(inputs: Inputs) returns (code: int, evaluation: Option<Evaluation>)
    ensures IsAnswer(inputs, code, evaluation) || (code == EXIT_INCONCLUSIVE && evaluation.None?)
    ensures AllAnswer(inputs) ==> IsAnswer(inputs, code, evaluation)
    ensures LoadConfig(inputs.config).Err? ==> code == EXIT_INCONCLUSIVE && evaluation.None?
    ensures code == EXIT_PASS && evaluation.Some? ==> Earned(inputs, evaluation.value)
  {
    var r := Run(inputs);
    if r.Err? {
      return EXIT_INCONCLUSIVE, None;
    }
    code, evaluation := r.value.code, r.value.evaluation;
    if code == EXIT_PASS && evaluation.Some? {
      PassIsEarned(inputs, evaluation.value);
    }
  }
}
