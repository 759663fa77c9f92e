/** Changes that exit zero and add more than the limit.

  Each family of changes lacks one condition of a sound change. Every run on it that is answered exits
  zero, although merging adds more than the limit; `Samples` has a change of each family.
 */
module Escapes {
  import opened Results
  import opened Manifests
  import opened Ordering
  import opened Folds
  import opened Pricing
  import opened Cost
  import opened Additivity
  import opened Delta
  import opened Config
  import opened Verdict
  import opened Decisions
  import opened Render
  import opened Paths
  import opened Gate
  import opened Estate
  import opened Snapshots
  import opened Diffs
  import opened Merges

  // ---------------------------------------------------------------- what directories are worth

  /** The objects price without error, at `amount` in ceiling and floor alike. */
  predicate Worth(d: Rendering, table: Table, nodes: int, amount: real) {
    d.Rendered?
    && match PriceAll(table, nodes, Autoscalers(d.objects), d.objects)
       case Err(_) => false
       case Ok(ws) => SumMonthly(ws) == amount && SumFloor(ws) == amount
  }

  lemma {:induction false} NothingIsWorthNothing(table: Table, nodes: int)
    ensures Worth(Rendered([]), table, nodes, 0.0)
  {
    assert PriceAll(table, nodes, Autoscalers([]), []) == Ok([]);
  }

  /** An object that reserves something and is not scaled is worth what that costs. */
  lemma {:induction false} ObjectIsWorth(table: Table, nodes: int, o: Object)
    requires IsPriced(table, nodes, o) && ScalerOf(o).None?
    ensures var r := Reserve(table, nodes, o).value;
            Worth(Rendered([o]), table, nodes, CostOf(table, r.per.Scale(r.replicas as real)))
  {
    OneWorkload(table, nodes, Autoscalers([o]), o);
    IndexSingle(ScalerOf, o);
    SumOfOne(FloorOf, Settle(table, TargetOf(o), Reserve(table, nodes, o).value, None));
  }

  predicate Unscaled(objects: seq<Object>) {
    forall i :: 0 <= i < |objects| ==> ScalerOf(objects[i]).None?
  }

  lemma {:induction false} NoScalers(objects: seq<Object>)
    requires Unscaled(objects)
    ensures Autoscalers(objects) == map[]
  {
    if objects != [] {
      NoScalers(objects[..|objects| - 1]);
    }
  }

  lemma {:induction false} WorthConcat(table: Table, nodes: int, a: seq<Object>, b: seq<Object>, x: real, y: real)
    requires Unscaled(a) && Unscaled(b)
    requires Worth(Rendered(a), table, nodes, x) && Worth(Rendered(b), table, nodes, y)
    ensures Unscaled(a + b) && Worth(Rendered(a + b), table, nodes, x + y)
  {
    NoScalers(a);
    NoScalers(b);
    NoScalers(a + b);
    var f := PriceUnder(table, nodes, map[]);
    CollectConcat(f, a, b);
    SumConcat(MonthlyOf, Collect(f, a).value, Collect(f, b).value);
    SumConcat(FloorOf, Collect(f, a).value, Collect(f, b).value);
  }

  // ---------------------------------------------------------------- what files are worth

  function SumOver(value: RootCost, keys: set<string>): real {
    Sum(value, Sorted(keys))
  }

  lemma {:induction false} SumsOfMembers(f: RootCost, a: seq<string>, b: seq<string>)
    requires Distinct(a) && Distinct(b) && forall r :: r in a <==> r in b
    ensures Sum(f, a) == Sum(f, b)
  {
    var keys := set r | r in a;
    EnumerationsPermute(a, b, keys);
    SumPermutes(f, a, b);
  }

  lemma {:induction false} SumOverUnion(value: RootCost, a: set<string>, b: set<string>)
    requires a !! b
    ensures SumOver(value, a + b) == SumOver(value, a) + SumOver(value, b)
  {
    DistinctAppend(Sorted(a), Sorted(b));
    SumsOfMembers(value, Sorted(a + b), Sorted(a) + Sorted(b));
    SumConcat(value, Sorted(a), Sorted(b));
  }

  lemma {:induction false} SumOverOne(value: RootCost, k: string)
    ensures SumOver(value, {k}) == value(k)
  {
    SumsOfMembers(value, Sorted({k}), [k]);
    SumOfOne(value, k);
  }

  /** The contents decode, to objects that are not scaled and are worth the amount. */
  ghost predicate FileWorth(tool: Renderer, contents: string, table: Table, nodes: int, amount: real) {
    var objects := tool.decode(contents);
    objects.Ok? && Unscaled(objects.value) && Worth(Rendered(objects.value), table, nodes, amount)
  }

  ghost predicate NamesWorth(tool: Renderer, files: Files, names: seq<string>, table: Table, nodes: int, amount: real) {
    var objects := Joined(Decoding(tool, files), names);
    objects.Ok? && Unscaled(objects.value) && Worth(Rendered(objects.value), table, nodes, amount)
  }

  lemma {:induction false} WorthOfNames(
      tool: Renderer, files: Files, names: seq<string>, table: Table, nodes: int, value: RootCost)
    requires forall p :: p in names ==> p in files && FileWorth(tool, files[p], table, nodes, value(p))
    ensures NamesWorth(tool, files, names, table, nodes, Sum(value, names))
  {
    if names == [] {
      NothingIsWorthNothing(table, nodes);
    } else {
      var front, last := names[..|names| - 1], names[|names| - 1];
      assert names == front + [last];
      WorthOfNames(tool, files, front, table, nodes, value);
      assert FileWorth(tool, files[last], table, nodes, value(last));
      JoinedStep(Decoding(tool, files), names);
      WorthConcat(
        table, nodes, Joined(Decoding(tool, files), front).value, tool.decode(files[last]).value,
        Sum(value, front), value(last));
    }
  }

  /** A directory of such files is worth what they are worth together. */
  lemma {:induction false} WorthOfFiles(tool: Renderer, files: Files, table: Table, nodes: int, value: RootCost)
    requires forall p :: p in files ==> FileWorth(tool, files[p], table, nodes, value(p))
    ensures Worth(Plain(tool, files), table, nodes, SumOver(value, files.Keys))
  {
    WorthOfNames(tool, files, Sorted(files.Keys), table, nodes, value);
  }

  // ---------------------------------------------------------------- what trees are worth

  /** What each directory of a list is worth. */
  ghost predicate AllWorth(tree: Tree, table: Table, nodes: int, roots: seq<string>, value: RootCost) {
    forall r :: r in roots ==> Worth(tree(r), table, nodes, value(r))
  }

  lemma {:induction false} WorthOfRoot(tree: Tree, table: Table, nodes: int, r: string, amount: real)
    requires Worth(tree(r), table, nodes, amount)
    ensures IsGood(tree, table, nodes, r)
    ensures Ceilings(tree, table, nodes)(r) == Floors(tree, table, nodes)(r) == amount
  {
  }

  lemma {:induction false} WorthAddsUp(tree: Tree, table: Table, nodes: int, roots: seq<string>, value: RootCost)
    requires AllWorth(tree, table, nodes, roots, value)
    ensures AllGood(tree, table, nodes, roots)
    ensures Sum(Ceilings(tree, table, nodes), roots) == Sum(Floors(tree, table, nodes), roots) == Sum(value, roots)
  {
    forall r | r in roots
      ensures IsGood(tree, table, nodes, r)
      ensures Ceilings(tree, table, nodes)(r) == Floors(tree, table, nodes)(r) == value(r)
    {
      WorthOfRoot(tree, table, nodes, r, value(r));
    }
    SumAgrees(Ceilings(tree, table, nodes), value, roots);
    SumAgrees(Floors(tree, table, nodes), value, roots);
  }

  /** The worth of up to four directories; every other is worth nothing. */
  function Four(r: string, w: real, s: string, x: real, t: string, y: real, u: string, z: real): RootCost {
    d => if d == r then w else if d == s then x else if d == t then y else if d == u then z else 0.0
  }

  function Three(r: string, x: real, s: string, y: real, t: string, z: real): RootCost {
    d => if d == r then x else if d == s then y else if d == t then z else 0.0
  }

  function Two(r: string, x: real, s: string, y: real): RootCost {
    d => if d == r then x else if d == s then y else 0.0
  }

  function Nil(): RootCost {
    d => 0.0
  }

  lemma {:induction false} SumOfTwo(f: RootCost, r: string, s: string)
    ensures Sum(f, [r]) == f(r)
    ensures Sum(f, [r, s]) == f(r) + f(s)
  {
    SumOfOne(f, r);
    assert [r, s][..1] == [r];
  }

  lemma {:induction false} TwoSums(r: string, s: string, x: real, y: real)
    requires r != s
    ensures Sum(Two(r, x, s, y), [r, s]) == x + y
    ensures Sum(Two(r, x, s, y), [r]) == x && Sum(Two(r, x, s, y), [s]) == y
  {
    SumOfTwo(Two(r, x, s, y), r, s);
    SumOfTwo(Two(r, x, s, y), s, s);
  }

  lemma {:induction false} SumOfThree(f: RootCost, r: string, s: string, t: string)
    ensures Sum(f, [r, s, t]) == f(r) + f(s) + f(t)
  {
    SumOfTwo(f, r, s);
    assert [r, s, t][..2] == [r, s];
  }

  lemma {:induction false} ThreeSums(r: string, s: string, t: string, x: real, y: real, z: real)
    requires r != s && r != t && s != t
    ensures Sum(Three(r, x, s, y, t, z), [r, s, t]) == x + y + z
    ensures Sum(Three(r, x, s, y, t, z), [s]) == y
    ensures Sum(Three(r, x, s, y, t, z), [r, t]) == x + z && Sum(Three(r, x, s, y, t, z), [r, s]) == x + y
  {
    SumOfThree(Three(r, x, s, y, t, z), r, s, t);
    SumOfTwo(Three(r, x, s, y, t, z), s, s);
    SumOfTwo(Three(r, x, s, y, t, z), r, t);
    SumOfTwo(Three(r, x, s, y, t, z), r, s);
  }

  lemma {:induction false} FourSums(
      r: string, s: string, t: string, u: string, w: real, x: real, y: real, z: real)
    requires Distinct([r, s, t, u])
    ensures Sum(Four(r, w, s, x, t, y, u, z), [r, s, t]) == w + x + y
    ensures Sum(Four(r, w, s, x, t, y, u, z), [r, u]) == w + z && Sum(Four(r, w, s, x, t, y, u, z), [t, u]) == y + z
  {
    FourDiffer(r, s, t, u);
    SumOfThree(Four(r, w, s, x, t, y, u, z), r, s, t);
    SumOfTwo(Four(r, w, s, x, t, y, u, z), r, u);
    SumOfTwo(Four(r, w, s, x, t, y, u, z), t, u);
  }

  lemma {:induction false} FourDiffer(r: string, s: string, t: string, u: string)
    ensures Distinct([r, s, t, u]) <==> r != s && r != t && r != u && s != t && s != u && t != u
  {
    var l := [r, s, t, u];
    assert l[0] == r && l[1] == s && l[2] == t && l[3] == u;
  }

  lemma {:induction false} TwoWorth(tree: Tree, table: Table, nodes: int, r: string, s: string, value: RootCost)
    requires Worth(tree(r), table, nodes, value(r)) && Worth(tree(s), table, nodes, value(s))
    ensures AllWorth(tree, table, nodes, [r, s], value)
  {
  }

  lemma {:induction false} ThreeWorth(
      tree: Tree, table: Table, nodes: int, r: string, s: string, t: string, value: RootCost)
    requires Worth(tree(r), table, nodes, value(r)) && Worth(tree(s), table, nodes, value(s))
    requires Worth(tree(t), table, nodes, value(t))
    ensures AllWorth(tree, table, nodes, [r, s, t], value)
  {
  }

  lemma {:induction false} FourWorth(
      tree: Tree, table: Table, nodes: int, r: string, s: string, t: string, u: string,
      w: real, x: real, y: real, z: real)
    requires Distinct([r, s, t, u])
    requires Worth(tree(r), table, nodes, w) && Worth(tree(s), table, nodes, x)
    requires Worth(tree(t), table, nodes, y) && Worth(tree(u), table, nodes, z)
    ensures AllWorth(tree, table, nodes, [r, s, t, u], Four(r, w, s, x, t, y, u, z))
  {
    FourDiffer(r, s, t, u);
  }

  // ---------------------------------------------------------------- runs that pass

  /** The policy engine loads and complains of nothing. */
  ghost predicate Quiet(engine: Engine) {
    engine.Engine? && forall objects :: engine.evaluate(objects) == PolicyResult([], [])
  }

  /** Every answer of a run on these inputs exits zero. */
  ghost predicate Slips(inputs: Inputs) {
    forall code, evaluation :: IsAnswer(inputs, code, evaluation) ==> code == EXIT_PASS
  }

  /** The run is answered, and exits zero. */
  ghost predicate ExitsZero(inputs: Inputs) {
    AllAnswer(inputs) && Slips(inputs)
  }

  /** So the process exits zero. */
  method RunExitsZero(inputs: Inputs) returns (code: int)
    requires ExitsZero(inputs)
    ensures code == EXIT_PASS
  {
    var evaluation;
    code, evaluation := EvaluateCommand(inputs);
  }

  lemma {:induction false} SmallIncreasePasses(cfg: Config, e: Evaluation)
    requires e.cfg == cfg && cfg.cost.mode == Absolute && e.costErrors == [] && e.policy == PolicyResult([], [])
    requires e.delta.money == Headline(e.base, e.head, e.estate)
    requires e.base.committedMonthlyUSD == e.base.monthlyUSD && e.head.committedMonthlyUSD == e.head.monthlyUSD
    requires e.head.monthlyUSD - e.base.monthlyUSD <= cfg.cost.block.maxMonthlyDeltaUSD
    ensures Judge(e.cfg, e.delta, e.costErrors, e.policy).decision == Pass
  {
    PassesExactlyWhen(e.cfg, e.delta, e.costErrors, e.policy);
  }

  /** A run that compares the trees at the given roots, with one rate table for both. */
  ghost predicate RunsOn(inputs: Inputs, cfg: Config, trees: (Tree, Tree), table: Table, roots: seq<string>) {
    && inputs.config == Ok(cfg) && (inputs.trees.Ok? ==> inputs.trees.value == trees)
    && inputs.baseTable == Present(table) && inputs.headTable == Ok(table)
    && Distinct(roots) && Distinct(inputs.touchedRoots) && forall r :: r in roots <==> r in inputs.touchedRoots
  }

  /** A run whose roots are worth little more at the head than at the base exits zero. */
  lemma {:induction false} CheapAnswerPasses(
      cfg: Config, inputs: Inputs, e: Evaluation, trees: (Tree, Tree), table: Table,
      roots: seq<string>, before: RootCost, after: RootCost)
    requires EvaluationOf(inputs, e) && RunsOn(inputs, cfg, trees, table, roots)
    requires cfg.cost.mode == Absolute && Quiet(inputs.engine)
    requires AllWorth(trees.0, table, cfg.cost.assumedNodeCount, roots, before)
    requires AllWorth(trees.1, table, cfg.cost.assumedNodeCount, roots, after)
    requires Sum(after, roots) - Sum(before, roots) <= cfg.cost.block.maxMonthlyDeltaUSD
    ensures Judge(e.cfg, e.delta, e.costErrors, e.policy).decision == Pass
  {
    var nodes := cfg.cost.assumedNodeCount;
    WorthAddsUp(trees.0, table, nodes, roots, before);
    WorthAddsUp(trees.1, table, nodes, roots, after);
    assert e.roots == inputs.touchedRoots;
    SumsOfMembers(Ceilings(trees.0, table, nodes), roots, e.roots);
    SumsOfMembers(Floors(trees.0, table, nodes), roots, e.roots);
    SumsOfMembers(Ceilings(trees.1, table, nodes), roots, e.roots);
    SumsOfMembers(Floors(trees.1, table, nodes), roots, e.roots);
    SmallIncreasePasses(cfg, e);
  }

  lemma {:induction false} CheapRunSlips(
      cfg: Config, inputs: Inputs, trees: (Tree, Tree), table: Table,
      roots: seq<string>, before: RootCost, after: RootCost)
    requires RunsOn(inputs, cfg, trees, table, roots) && cfg.cost.mode == Absolute && Quiet(inputs.engine)
    requires AllWorth(trees.0, table, cfg.cost.assumedNodeCount, roots, before)
    requires AllWorth(trees.1, table, cfg.cost.assumedNodeCount, roots, after)
    requires Sum(after, roots) - Sum(before, roots) <= cfg.cost.block.maxMonthlyDeltaUSD
    ensures Slips(inputs)
  {
    forall code, evaluation | IsAnswer(inputs, code, evaluation) ensures code == EXIT_PASS {
      if evaluation.Some? {
        CheapAnswerPasses(cfg, inputs, evaluation.value, trees, table, roots, before, after);
      }
    }
  }

  /** The setting of the escapes: everything the run asks for is answered, there is an absolute limit, the
      rate table does not change and the policy engine finds nothing. */
  ghost predicate Setting(
      repo: Repo, cfg: Config, c: Proposal, moved: set<string>, inputs: Inputs, table: Table)
  {
    && InputsOf(repo, cfg, c, moved, inputs) && AllAnswer(inputs)
    && cfg.cost.mode == Absolute && Quiet(inputs.engine)
    && LoadTable(repo.TableOf(cfg, c.base)) == Ok(table) == LoadTable(repo.TableOf(cfg, c.head))
  }

  /** What a run sees at the given roots of a commit. */
  ghost predicate SeesWorth(repo: Repo, cfg: Config, files: Files, table: Table, roots: seq<string>, value: RootCost) {
    && LoadTable(repo.TableOf(cfg, files)) == Ok(table)
    && AllWorth(RunTree(repo.tool, files), table, cfg.cost.assumedNodeCount, roots, value)
  }

  lemma {:induction false} SeesFewer(
      repo: Repo, cfg: Config, files: Files, table: Table, roots: seq<string>, fewer: seq<string>, value: RootCost)
    requires SeesWorth(repo, cfg, files, table, roots, value) && forall r :: r in fewer ==> r in roots
    ensures SeesWorth(repo, cfg, files, table, fewer, value)
  {
  }

  lemma {:induction false} RunsAt(
      repo: Repo, cfg: Config, c: Proposal, moved: set<string>, inputs: Inputs, table: Table, roots: seq<string>)
    requires Setting(repo, cfg, c, moved, inputs, table)
    requires Distinct(roots) && forall r :: r in roots <==> r in inputs.touchedRoots
    ensures RunsOn(inputs, cfg, (RunTree(repo.tool, c.base), RunTree(repo.tool, c.head)), table, roots)
    ensures cfg.cost.mode == Absolute && Quiet(inputs.engine) && AllAnswer(inputs)
  {
  }

  /** With plain names, the run compares the trees at the roots of what differs from the fork. */
  lemma {:induction false} RunGiven(
      repo: Repo, cfg: Config, c: Proposal, inputs: Inputs, table: Table, roots: seq<string>)
    requires Setting(repo, cfg, c, {}, inputs, table) && PlainNames(repo, cfg, c)
    requires Distinct(roots) && forall r :: r in roots <==> Touched(c.fork, c.head, repo.Manifests(cfg), r)
    ensures RunsOn(inputs, cfg, (RunTree(repo.tool, c.base), RunTree(repo.tool, c.head)), table, roots)
    ensures cfg.cost.mode == Absolute && Quiet(inputs.engine) && AllAnswer(inputs)
  {
    forall r ensures r in roots <==> r in inputs.touchedRoots {
      TouchedRoots(repo, cfg, c, inputs.changed.value, inputs.touchedRoots, r);
    }
    RunsAt(repo, cfg, c, {}, inputs, table, roots);
  }

  lemma {:induction false} OneTouched(
      repo: Repo, cfg: Config, head: Files, listing: seq<string>, roots: seq<string>, r: string)
    requires AreTouched(repo, cfg, head, listing, roots) && listing != []
    requires forall i :: 0 <= i < |listing| ==>
               RootOf(Kust(head), repo.Manifests(cfg), Clean(Join(repo.at, listing[i]))) == r
    ensures forall q :: q in [r] <==> q in roots
  {
    assert RootOf(Kust(head), repo.Manifests(cfg), Clean(Join(repo.at, listing[0]))) == r;
  }

  lemma {:induction false} RunSlips(
      repo: Repo, cfg: Config, base: Files, head: Files, inputs: Inputs, table: Table,
      roots: seq<string>, before: RootCost, after: RootCost)
    requires RunsOn(inputs, cfg, (RunTree(repo.tool, base), RunTree(repo.tool, head)), table, roots)
    requires cfg.cost.mode == Absolute && Quiet(inputs.engine)
    requires SeesWorth(repo, cfg, base, table, roots, before) && SeesWorth(repo, cfg, head, table, roots, after)
    requires Sum(after, roots) - Sum(before, roots) <= cfg.cost.block.maxMonthlyDeltaUSD
    ensures Slips(inputs)
  {
    CheapRunSlips(cfg, inputs, (RunTree(repo.tool, base), RunTree(repo.tool, head)), table, roots, before, after);
  }

  // ---------------------------------------------------------------- what merges add

  /** The roots are all there are, and what the commit's manifests commit to and what they authorise
      are both `amount`. */
  ghost predicate CostsExactly(repo: Repo, cfg: Config, files: Files, roots: seq<string>, amount: real) {
    && AreRoots(files, repo.Manifests(cfg), roots) && repo.Tabled(cfg, files)
    && forall f: Figure :: Total(f, repo.CommitOf(cfg, files), cfg.cost.assumedNodeCount, roots) == amount
  }

  /** A commit's roots, what each is worth, and the rate table that makes it so. */
  ghost predicate Valued(repo: Repo, cfg: Config, files: Files, table: Table, roots: seq<string>, value: RootCost) {
    AreRoots(files, repo.Manifests(cfg), roots) && SeesWorth(repo, cfg, files, table, roots, value)
  }

  lemma {:induction false} SpendOf(
      f: Figure, repo: Repo, cfg: Config, files: Files, table: Table, roots: seq<string>, value: RootCost)
    requires Valued(repo, cfg, files, table, roots, value)
    ensures repo.Tabled(cfg, files)
    ensures Total(f, repo.CommitOf(cfg, files), cfg.cost.assumedNodeCount, roots) == Sum(value, roots)
  {
    WorthAddsUp(repo.CommitOf(cfg, files).tree, table, cfg.cost.assumedNodeCount, roots, value);
  }

  lemma {:induction false} ValuedCosts(
      repo: Repo, cfg: Config, files: Files, table: Table, roots: seq<string>, value: RootCost)
    requires Valued(repo, cfg, files, table, roots, value)
    ensures CostsExactly(repo, cfg, files, roots, Sum(value, roots))
  {
    forall f: Figure
      ensures repo.Tabled(cfg, files)
      ensures Total(f, repo.CommitOf(cfg, files), cfg.cost.assumedNodeCount, roots) == Sum(value, roots)
    {
      SpendOf(f, repo, cfg, files, table, roots, value);
    }
  }

  /** The same when a run sees more than the roots. */
  lemma {:induction false} SeenCosts(
      repo: Repo, cfg: Config, files: Files, table: Table, seen: seq<string>, roots: seq<string>, value: RootCost)
    requires SeesWorth(repo, cfg, files, table, seen, value) && (forall r :: r in roots ==> r in seen)
    requires AreRoots(files, repo.Manifests(cfg), roots)
    ensures CostsExactly(repo, cfg, files, roots, Sum(value, roots))
  {
    SeesFewer(repo, cfg, files, table, seen, roots, value);
    ValuedCosts(repo, cfg, files, table, roots, value);
  }

  // ---------------------------------------------------------------- manifests in several directories

  /** No directory on the way down to `d` is named like a kustomization. */
  ghost predicate Ordinary(m: string, d: string) {
    forall dir, name :: AtOrUnder(m, dir) && name in KUSTOMIZATIONS ==> !AtOrUnder(Join(dir, name), d)
  }

  /** Every manifest lies in an ordinary directory. */
  ghost predicate LaidOut(files: Files, m: string) {
    forall p :: p in files && Under(m, p) ==> Ordinary(m, DirOf(p))
  }

  lemma {:induction false} LaidOutIsRegular(files: Files, m: string)
    requires IsDirPath(m) && LaidOut(files, m)
    ensures Regular(files, m)
  {
    forall dir, name, p | AtOrUnder(m, dir) && p in files && name in KUSTOMIZATIONS
      ensures !Under(Join(dir, name), p)
    {
      if Under(Join(dir, name), p) {
        AtOrUnderJoin(dir, name, p);
        UnderTransitive(m, dir, p);
        ParentUnder(Join(dir, name), p);
      }
    }
  }

  /** The directories of the manifests that are builds, and those that hold YAML. */
  ghost function Builds(files: Files, m: string): set<string> {
    set p | p in files && Under(m, p) && IsKust(p) :: DirOf(p)
  }

  ghost function Plains(files: Files, m: string): set<string> {
    set p | p in files && Under(m, p) && IsYaml(p) :: DirOf(p)
  }

  lemma {:induction false} BuildOf(files: Files, m: string, d: string)
    requires IsDirPath(m) && LaidOut(files, m) && AtOrUnder(m, d)
    ensures HoldsBuild(files, d) <==> d in Builds(files, m)
  {
    LaidOutIsRegular(files, m);
    if name, p :| name in KUSTOMIZATIONS && p in files && AtOrUnder(Join(d, name), p) {
      assert p == Join(d, name);
      AtOrUnderJoin(d, name, p);
      UnderTransitive(m, d, p);
      KustomizationName(d, name);
      assert DirOf(p) in Builds(files, m);
    }
    if p :| p in files && Under(m, p) && DirOf(p) == d && IsKust(p) {
      var name :| name in KUSTOMIZATIONS && p == Join(DirOf(p), name);
      assert Exists(files, Join(d, name));
    }
  }

  lemma {:induction false} YamlOf(files: Files, m: string, d: string)
    requires IsDirPath(m) && AtOrUnder(m, d)
    ensures HoldsYaml(files, d) <==> d in Plains(files, m)
  {
    if p :| p in files && DirOf(p) == d && IsYaml(p) {
      DirectUnder(m, p);
      assert DirOf(p) in Plains(files, m);
    }
  }

  lemma {:induction false} RootOfSets(files: Files, m: string, d: string)
    requires IsDirPath(m) && LaidOut(files, m)
    ensures IsRoot(files, m, d) <==>
            && AtOrUnder(m, d) && (d in Builds(files, m) || d in Plains(files, m))
            && forall q :: q in Builds(files, m) ==> !Under(q, d)
  {
    forall q | AtOrUnder(m, q) ensures HoldsBuild(files, q) <==> q in Builds(files, m) {
      BuildOf(files, m, q);
    }
    forall p | p in files && Under(m, p) ensures AtOrUnder(m, DirOf(p)) {
      ParentUnder(m, p);
    }
    if AtOrUnder(m, d) {
      YamlOf(files, m, d);
    }
  }

  /** What rendering a directory gives, by the sets. */
  lemma {:induction false} RendersTo(tool: Renderer, files: Files, m: string, d: string)
    requires IsDirPath(m) && LaidOut(files, m) && AtOrUnder(m, d) && d !in files
    ensures RenderAt(tool, files, d)
            == if d in Builds(files, m) then tool.build(files, d)
               else if d in Plains(files, m) then Plain(tool, Direct(files, d)) else Rendered([])
  {
    BuildOf(files, m, d);
    YamlOf(files, m, d);
  }

  lemma {:induction false} EnclosingBuild(files: Files, m: string, dir: string, i: nat)
    requires IsDirPath(m) && LaidOut(files, m) && AtOrUnder(m, dir)
    requires Encloses(m, dir, i) && HoldsBuild(files, Up(dir, i))
    ensures Up(dir, i) in Builds(files, m) && AtOrUnder(Up(dir, i), dir)
  {
    var top := UpReaches(m, dir);
    EnclosesIs(m, dir, top, i);
    assert AtOrUnder(m, Up(dir, i));
    BuildOf(files, m, Up(dir, i));
  }

  /** Where at most one build encloses a file, its root is that build, or its own directory. */
  lemma {:induction false} RootByBuilds(files: Files, m: string, p: string)
    requires IsDirPath(m) && LaidOut(files, m) && Under(m, p)
    requires forall q, u ::
               (q in Builds(files, m) && u in Builds(files, m) && AtOrUnder(q, DirOf(p)) && AtOrUnder(u, DirOf(p)))
               ==> q == u
    ensures OneBuild(Kust(files), m, DirOf(p))
    ensures (forall q :: q in Builds(files, m) ==> !AtOrUnder(q, DirOf(p))) ==> RootOf(Kust(files), m, p) == DirOf(p)
  {
    var dir := DirOf(p);
    ParentUnder(m, p);
    forall i: nat | Encloses(m, dir, i) && HoldsBuild(files, Up(dir, i))
      ensures Up(dir, i) in Builds(files, m) && AtOrUnder(Up(dir, i), dir)
    {
      EnclosingBuild(files, m, dir, i);
    }
    var r := TheRoot(files, m, p);
    BuildOf(files, m, r);
  }

  lemma {:induction false} BuildIsRoot(files: Files, m: string, p: string)
    requires m != "" && Under(m, DirOf(p)) && HoldsBuild(files, DirOf(p))
    ensures RootOf(Kust(files), m, p) == DirOf(p)
  {
    assert m <= m + "/";
  }

  lemma {:induction false} SameBuilds(base: Files, head: Files, m: string)
    requires IsDirPath(m) && LaidOut(base, m) && LaidOut(head, m) && Builds(base, m) == Builds(head, m)
    ensures RemovedFlat(base, head, m) && Regular(base, m)
  {
    forall d | AtOrUnder(m, d) ensures HoldsBuild(base, d) == HoldsBuild(head, d) {
      BuildOf(base, m, d);
      BuildOf(head, m, d);
    }
    LaidOutIsRegular(base, m);
  }

  /** Something differs, and only directly in the given directory. */
  ghost predicate DiffersIn(base: Files, head: Files, m: string, d: string) {
    && (exists p :: Under(m, p) && !Alike(base, head, p))
    && forall p :: Under(m, p) && !Alike(base, head, p) ==> DirOf(p) == d
  }

  lemma {:induction false} NotAbove(a: string, s: string)
    requires Under(a, s)
    ensures !Under(s, a) && a != s
  {
  }

  // ---------------------------------------------------------------- nothing is listed

  lemma {:induction false} FirstIsIn<T>(s: seq<T>)
    ensures s != [] ==> s[0] in s
  {
  }

  lemma {:induction false} NothingListed(repo: Repo, cfg: Config, c: Proposal, listing: seq<string>)
    requires IsListing(repo, cfg, c, {}, listing) && forall f :: !Differs(repo, cfg, c, f)
    ensures listing == []
  {
    ListingIsDiffering(repo, cfg, c, {}, listing);
    FirstIsIn(listing);
  }

  /** A change to nothing below the manifests path is not evaluated, and exits zero. */
  lemma {:induction false} UnlistedExitsZero(repo: Repo, cfg: Config, c: Proposal, inputs: Inputs)
    requires InputsOf(repo, cfg, c, {}, inputs) && AllAnswer(inputs)
    requires forall f :: !Differs(repo, cfg, c, f)
    ensures ExitsZero(inputs) && inputs.changed == Ok([])
  {
    NothingListed(repo, cfg, c, inputs.changed.value);
  }

  /** With the rate table outside the manifests, that goes for a change to nothing but the rates,
      whatever the manifests cost before and after. */
  lemma {:induction false} RatesAlonePass(
      repo: Repo, cfg: Config, c: Proposal, inputs: Inputs, before: Table, after: Table,
      roots: seq<string>, was: RootCost, now: RootCost)
    requires InputsOf(repo, cfg, c, {}, inputs) && AllAnswer(inputs)
    requires c.fork == c.base && repo.ConfigOf(c.base) == Ok(cfg)
    requires !Under(repo.Manifests(cfg), repo.TablePath(cfg))
    requires forall p :: p != repo.TablePath(cfg) ==> Alike(c.base, c.head, p)
    requires Valued(repo, cfg, c.base, before, roots, was) && Valued(repo, cfg, c.head, after, roots, now)
    ensures ExitsZero(inputs) && PlainNames(repo, cfg, c)
    ensures CostsExactly(repo, cfg, c.base, roots, Sum(was, roots))
    ensures CostsExactly(repo, cfg, c.head, roots, Sum(now, roots))
  {
    UnlistedExitsZero(repo, cfg, c, inputs);
    ValuedCosts(repo, cfg, c.base, before, roots, was);
    ValuedCosts(repo, cfg, c.head, after, roots, now);
  }

  /** And for a change to nothing but the configuration, such as the assumed number of nodes: what the
      manifests cost by the new one is never judged. */
  lemma {:induction false} ConfigAlonePasses(
      repo: Repo, baseCfg: Config, cfg: Config, c: Proposal, inputs: Inputs, table: Table,
      roots: seq<string>, was: RootCost, now: RootCost)
    requires InputsOf(repo, cfg, c, {}, inputs) && AllAnswer(inputs)
    requires c.fork == c.base && repo.ConfigOf(c.base) == Ok(baseCfg)
    requires !Under(repo.Manifests(cfg), repo.configPath)
    requires forall p :: p != repo.configPath ==> Alike(c.base, c.head, p)
    requires Valued(repo, baseCfg, c.base, table, roots, was) && Valued(repo, cfg, c.head, table, roots, now)
    ensures ExitsZero(inputs) && PlainNames(repo, cfg, c)
    ensures CostsExactly(repo, baseCfg, c.base, roots, Sum(was, roots))
    ensures CostsExactly(repo, cfg, c.head, roots, Sum(now, roots))
  {
    UnlistedExitsZero(repo, cfg, c, inputs);
    ValuedCosts(repo, baseCfg, c.base, table, roots, was);
    ValuedCosts(repo, cfg, c.head, table, roots, now);
  }

  // ---------------------------------------------------------------- a name that git quotes

  /** Git prints one name, in quotes. */
  lemma {:induction false} QuotedListing(repo: Repo, cfg: Config, c: Proposal, listing: seq<string>, f: string)
    requires IsListing(repo, cfg, c, {}, listing) && NeedsQuotes(f)
    requires forall g :: Differs(repo, cfg, c, g) <==> g == f
    ensures listing == [Printed(f)]
  {
    var paths :| AreDiffering(repo, cfg, c, {}, paths) && multiset(listing) == multiset(ReadLines(Output(paths)));
    OneDiffers(repo, cfg, c, paths, f);
    ListingOfOne(listing, f);
  }

  lemma {:induction false} OneDiffers(repo: Repo, cfg: Config, c: Proposal, paths: seq<string>, f: string)
    requires AreDiffering(repo, cfg, c, {}, paths) && forall g :: Differs(repo, cfg, c, g) <==> g == f
    ensures paths == [f]
  {
    forall y ensures y in paths <==> y == f {
      assert Differs(repo, cfg, c, y) <==> y == f;
    }
    OnlyOne(paths, f);
  }

  lemma {:induction false} ListingOfOne(listing: seq<string>, f: string)
    requires NeedsQuotes(f) && multiset(listing) == multiset(ReadLines(Output([f])))
    ensures listing == [Printed(f)]
  {
    ListedAsPrinted([f]);
    assert MapSeq(Printed, [f]) == [Printed(f)];
    OneMember(listing, Printed(f));
  }

  lemma {:induction false} OnlyOne(s: seq<string>, x: string)
    requires Distinct(s) && forall y :: y in s <==> y == x
    ensures s == [x]
  {
    assert x in s;
    assert s[0] in s && s[|s| - 1] in s;
  }

  lemma {:induction false} OneMember(s: seq<string>, x: string)
    requires multiset(s) == multiset([x])
    ensures s == [x]
  {
    assert |s| == |multiset(s)| == 1;
    assert s[0] in multiset(s);
  }

  /** The directory of the quoted name: beside the manifests, if anywhere. */
  function QuotedDir(repo: Repo, f: string): string {
    DirOf(Join(repo.at, Printed(f)))
  }

  lemma {:induction false} QuotedRoot(repo: Repo, cfg: Config, head: Files, f: string)
    requires NeedsQuotes(f) && Under(repo.at, repo.Manifests(cfg)) && repo.Manifests(cfg)[|repo.at| + 1] != '"'
    ensures RootOf(Kust(head), repo.Manifests(cfg), Clean(Join(repo.at, Printed(f)))) == QuotedDir(repo, f)
  {
    var m, p := repo.Manifests(cfg), Join(repo.at, Printed(f));
    assert p[|p| - 1] == '"' && Clean(p) == p;
    assert p[|repo.at| + 1] == '"';
    assert m[|repo.at| + 1] != '"';
    var d := DirOf(p);
    var i := LastSlash(p);
    assert p[|repo.at|] == '/' && i >= |repo.at| > 0;
    assert d == p[..i];
  }

  /** A change to one manifest whose name git quotes is looked for in a directory that does not exist, and
      exits zero whatever it does. */
  lemma {:induction false} QuotedNamePasses(
      repo: Repo, cfg: Config, c: Proposal, inputs: Inputs, table: Table, f: string)
    requires Setting(repo, cfg, c, {}, inputs, table) && c.fork == c.base
    requires NeedsQuotes(f) && forall g :: Differs(repo, cfg, c, g) <==> g == f
    requires Under(repo.at, repo.Manifests(cfg)) && repo.Manifests(cfg)[|repo.at| + 1] != '"'
    requires RenderAt(repo.tool, c.base, QuotedDir(repo, f)) == Rendered([])
    requires RenderAt(repo.tool, c.head, QuotedDir(repo, f)) == Rendered([])
    ensures ExitsZero(inputs)
  {
    var d := QuotedDir(repo, f);
    QuotedGiven(repo, cfg, c, inputs, table, f);
    NothingIsWorthNothing(table, cfg.cost.assumedNodeCount);
    SumOfOne(Nil(), d);
    RunSlips(repo, cfg, c.base, c.head, inputs, table, [d], Nil(), Nil());
  }

  lemma {:induction false} QuotedGiven(
      repo: Repo, cfg: Config, c: Proposal, inputs: Inputs, table: Table, f: string)
    requires Setting(repo, cfg, c, {}, inputs, table)
    requires NeedsQuotes(f) && forall g :: Differs(repo, cfg, c, g) <==> g == f
    requires Under(repo.at, repo.Manifests(cfg)) && repo.Manifests(cfg)[|repo.at| + 1] != '"'
    ensures RunsOn(
              inputs, cfg, (RunTree(repo.tool, c.base), RunTree(repo.tool, c.head)), table, [QuotedDir(repo, f)])
    ensures cfg.cost.mode == Absolute && Quiet(inputs.engine) && AllAnswer(inputs)
  {
    QuotedListing(repo, cfg, c, inputs.changed.value, f);
    QuotedRoot(repo, cfg, c.head, f);
    OneTouched(repo, cfg, c.head, inputs.changed.value, inputs.touchedRoots, QuotedDir(repo, f));
    RunsAt(repo, cfg, c, {}, inputs, table, [QuotedDir(repo, f)]);
  }

  // ---------------------------------------------------------------- plain manifests

  /** The manifests: plain YAML in `d`, and elsewhere in `u`. */
  ghost predicate IsPlainDir(files: Files, m: string, d: string, u: string) {
    && IsDirPath(m) && LaidOut(files, m) && AtOrUnder(m, d) && AtOrUnder(m, u) && d != u
    && Builds(files, m) == {} && Plains(files, m) == {d, u} && d !in files && u !in files
  }

  lemma {:induction false} RootsWithoutBuilds(files: Files, m: string, d: string)
    requires IsDirPath(m) && LaidOut(files, m) && Builds(files, m) == {}
    ensures IsRoot(files, m, d) <==> AtOrUnder(m, d) && d in Plains(files, m)
  {
    RootOfSets(files, m, d);
  }

  /** The list has just these, once each. */
  ghost predicate Lists(roots: seq<string>, dirs: set<string>) {
    Distinct(roots) && forall r :: r in roots <==> r in dirs
  }

  lemma {:induction false} ListsTwo(r: string, s: string)
    requires r != s
    ensures Lists([r, s], {r, s})
  {
  }

  lemma {:induction false} ListsThree(r: string, s: string, t: string)
    requires r != s && r != t && s != t
    ensures Lists([r, s, t], {r, s, t})
  {
  }

  lemma {:induction false} PlainRoots(files: Files, m: string, roots: seq<string>)
    requires IsDirPath(m) && LaidOut(files, m) && Builds(files, m) == {} && Lists(roots, Plains(files, m))
    requires forall r :: r in roots ==> AtOrUnder(m, r)
    ensures AreRoots(files, m, roots)
  {
    forall r ensures IsRoot(files, m, r) <==> r in roots {
      RootsWithoutBuilds(files, m, r);
    }
  }

  lemma {:induction false} PlainDirRoots(files: Files, m: string, d: string, u: string)
    requires IsPlainDir(files, m, d, u)
    ensures AreRoots(files, m, [d, u])
  {
    ListsTwo(d, u);
    PlainRoots(files, m, [d, u]);
  }

  /** What such a commit is worth, in the one directory and in the other. */
  ghost predicate PlainWorth(
      repo: Repo, cfg: Config, files: Files, table: Table, d: string, u: string, amount: real, other: real)
  {
    var nodes := cfg.cost.assumedNodeCount;
    && IsPlainDir(files, repo.Manifests(cfg), d, u) && LoadTable(repo.TableOf(cfg, files)) == Ok(table)
    && Worth(Plain(repo.tool, Direct(files, d)), table, nodes, amount)
    && Worth(Plain(repo.tool, Direct(files, u)), table, nodes, other)
  }

  lemma {:induction false} PlainSeen(
      repo: Repo, cfg: Config, files: Files, table: Table, d: string, u: string, amount: real, other: real)
    requires PlainWorth(repo, cfg, files, table, d, u, amount, other)
    ensures SeesWorth(repo, cfg, files, table, [d, u], Two(d, amount, u, other))
  {
    var m := repo.Manifests(cfg);
    RendersTo(repo.tool, files, m, d);
    RendersTo(repo.tool, files, m, u);
    TwoWorth(
      RunTree(repo.tool, files), table, cfg.cost.assumedNodeCount, d, u, Two(d, amount, u, other));
  }

  lemma {:induction false} PlainCosts(
      repo: Repo, cfg: Config, files: Files, table: Table, d: string, u: string, amount: real, other: real)
    requires PlainWorth(repo, cfg, files, table, d, u, amount, other)
    ensures CostsExactly(repo, cfg, files, [d, u], amount + other)
  {
    PlainSeen(repo, cfg, files, table, d, u, amount, other);
    PlainDirRoots(files, repo.Manifests(cfg), d, u);
    TwoSums(d, u, amount, other);
    SeenCosts(repo, cfg, files, table, [d, u], [d, u], Two(d, amount, u, other));
  }

  lemma {:induction false} PlainTouched(fork: Files, head: Files, m: string, d: string)
    requires IsDirPath(m) && LaidOut(head, m) && Builds(head, m) == {} && DiffersIn(fork, head, m, d)
    ensures forall r :: r in [d] <==> Touched(fork, head, m, r)
    ensures OneBuildEach(fork, head, m)
  {
    forall p | Under(m, p) && !Alike(fork, head, p)
      ensures OneBuild(Kust(head), m, DirOf(p)) && RootOf(Kust(head), m, p) == d
    {
      RootByBuilds(head, m, p);
    }
  }

  lemma {:induction false} NoBuildsWellScoped(tool: Renderer, base: Files, head: Files, m: string)
    requires IsDirPath(m) && LaidOut(base, m) && LaidOut(head, m) && Builds(base, m) == {} == Builds(head, m)
    ensures WellScoped(tool, base, head, m)
  {
    forall d | AtOrUnder(m, d) ensures !HoldsBuild(base, d) {
      BuildOf(base, m, d);
    }
    forall p | Under(m, p) && !Alike(base, head, p) ensures OneBuild(Kust(head), m, DirOf(p)) {
      RootByBuilds(head, m, p);
    }
    LaidOutIsRegular(base, m);
  }

  lemma {:induction false} PlainRunSlips(
      repo: Repo, cfg: Config, base: Files, head: Files, inputs: Inputs, table: Table, d: string, u: string,
      was: real, now: real, other: real)
    requires RunsOn(inputs, cfg, (RunTree(repo.tool, base), RunTree(repo.tool, head)), table, [d])
    requires cfg.cost.mode == Absolute && Quiet(inputs.engine)
    requires PlainWorth(repo, cfg, base, table, d, u, was, other)
    requires PlainWorth(repo, cfg, head, table, d, u, now, other)
    requires now - was <= cfg.cost.block.maxMonthlyDeltaUSD
    ensures Slips(inputs)
  {
    PlainSeen(repo, cfg, base, table, d, u, was, other);
    PlainSeen(repo, cfg, head, table, d, u, now, other);
    SeesFewer(repo, cfg, base, table, [d, u], [d], Two(d, was, u, other));
    SeesFewer(repo, cfg, head, table, [d, u], [d], Two(d, now, u, other));
    TwoSums(d, u, was, other);
    TwoSums(d, u, now, other);
    RunSlips(
      repo, cfg, base, head, inputs, table, [d], Two(d, was, u, other), Two(d, now, u, other));
  }

  /** A change of plain manifests within the limit exits zero. */
  lemma {:induction false} PlainExitsZero(
      repo: Repo, cfg: Config, c: Proposal, inputs: Inputs, table: Table, d: string, u: string,
      was: real, now: real, other: real)
    requires Setting(repo, cfg, c, {}, inputs, table) && PlainNames(repo, cfg, c)
    requires DiffersIn(c.fork, c.head, repo.Manifests(cfg), d)
    requires PlainWorth(repo, cfg, c.base, table, d, u, was, other)
    requires PlainWorth(repo, cfg, c.head, table, d, u, now, other)
    requires now - was <= cfg.cost.block.maxMonthlyDeltaUSD
    ensures ExitsZero(inputs)
  {
    PlainTouched(c.fork, c.head, repo.Manifests(cfg), d);
    RunGiven(repo, cfg, c, inputs, table, [d]);
    PlainRunSlips(repo, cfg, c.base, c.head, inputs, table, d, u, was, now, other);
  }

  /** Made to the tip of the base, with its configuration and the rate table among the manifests, such a
      change is sound. */
  lemma {:induction false} PlainIsSound(
      repo: Repo, cfg: Config, c: Proposal, inputs: Inputs, table: Table, d: string, u: string,
      was: real, now: real, other: real)
    requires Setting(repo, cfg, c, {}, inputs, table) && PlainNames(repo, cfg, c)
    requires c.fork == c.base && repo.ConfigOf(c.base) == Ok(cfg)
    requires Under(repo.Manifests(cfg), repo.TablePath(cfg)) && DiffersIn(c.base, c.head, repo.Manifests(cfg), d)
    requires PlainWorth(repo, cfg, c.base, table, d, u, was, other)
    requires PlainWorth(repo, cfg, c.head, table, d, u, now, other)
    requires now - was <= cfg.cost.block.maxMonthlyDeltaUSD
    ensures Sound(repo, cfg, c, {}) && ExitsZero(inputs)
  {
    PlainExitsZero(repo, cfg, c, inputs, table, d, u, was, now, other);
    NoBuildsWellScoped(repo.tool, c.base, c.head, repo.Manifests(cfg));
  }

  /** A change that brings its own configuration is judged by that one: it exits zero within its own limit,
      whatever the limit of the base. */
  lemma {:induction false} RaisedLimitPasses(
      repo: Repo, baseCfg: Config, cfg: Config, c: Proposal, inputs: Inputs, table: Table, d: string, u: string,
      was: real, now: real, other: real)
    requires Setting(repo, cfg, c, {}, inputs, table) && PlainNames(repo, cfg, c)
    requires c.fork == c.base && repo.ConfigOf(c.base) == Ok(baseCfg) && baseCfg.paths == cfg.paths
    requires DiffersIn(c.base, c.head, repo.Manifests(cfg), d)
    requires PlainWorth(repo, cfg, c.base, table, d, u, was, other)
    requires PlainWorth(repo, cfg, c.head, table, d, u, now, other)
    requires now - was <= cfg.cost.block.maxMonthlyDeltaUSD
    ensures ExitsZero(inputs) && WellScoped(repo.tool, c.base, c.head, repo.Manifests(cfg))
    ensures CostsExactly(repo, cfg, c.base, [d, u], was + other)
    ensures CostsExactly(repo, cfg, c.head, [d, u], now + other)
  {
    PlainExitsZero(repo, cfg, c, inputs, table, d, u, was, now, other);
    NoBuildsWellScoped(repo.tool, c.base, c.head, repo.Manifests(cfg));
    PlainCosts(repo, cfg, c.base, table, d, u, was, other);
    PlainCosts(repo, cfg, c.head, table, d, u, now, other);
  }

  // ---------------------------------------------------------------- a build that looks elsewhere

  /** The manifests: an overlay in `o`, plain YAML in `s`, and more of it elsewhere in `u`. */
  ghost predicate IsOverlay(files: Files, m: string, o: string, s: string, u: string) {
    && IsDirPath(m) && LaidOut(files, m) && Under(m, o) && AtOrUnder(m, s) && AtOrUnder(m, u)
    && s != u && !AtOrUnder(o, s) && !AtOrUnder(o, u)
    && Builds(files, m) == {o} && {s, u} <= Plains(files, m) <= {o, s, u}
    && o !in files && s !in files && u !in files
  }

  lemma {:induction false} OverlayRoots(files: Files, m: string, o: string, s: string, u: string)
    requires IsOverlay(files, m, o, s, u)
    ensures AreRoots(files, m, [o, s, u])
  {
    NotUnderItself(o);
    forall d ensures IsRoot(files, m, d) <==> d in [o, s, u] {
      RootOfSets(files, m, d);
    }
  }

  /** What an overlay commit is worth, directory by directory. */
  ghost predicate OverlayWorth(
      repo: Repo, cfg: Config, files: Files, table: Table, o: string, s: string, u: string,
      built: real, plain: real, other: real)
  {
    var nodes := cfg.cost.assumedNodeCount;
    && IsOverlay(files, repo.Manifests(cfg), o, s, u) && LoadTable(repo.TableOf(cfg, files)) == Ok(table)
    && Worth(repo.tool.build(files, o), table, nodes, built)
    && Worth(Plain(repo.tool, Direct(files, s)), table, nodes, plain)
    && Worth(Plain(repo.tool, Direct(files, u)), table, nodes, other)
  }

  lemma {:induction false} OverlaySeen(
      repo: Repo, cfg: Config, files: Files, table: Table, o: string, s: string, u: string,
      built: real, plain: real, other: real)
    requires OverlayWorth(repo, cfg, files, table, o, s, u, built, plain, other)
    ensures SeesWorth(repo, cfg, files, table, [o, s, u], Three(o, built, s, plain, u, other))
  {
    var m := repo.Manifests(cfg);
    RendersTo(repo.tool, files, m, o);
    RendersTo(repo.tool, files, m, s);
    RendersTo(repo.tool, files, m, u);
    ThreeWorth(
      RunTree(repo.tool, files), table, cfg.cost.assumedNodeCount, o, s, u, Three(o, built, s, plain, u, other));
  }

  lemma {:induction false} OverlayCosts(
      repo: Repo, cfg: Config, files: Files, table: Table, o: string, s: string, u: string,
      built: real, plain: real, other: real)
    requires OverlayWorth(repo, cfg, files, table, o, s, u, built, plain, other)
    ensures CostsExactly(repo, cfg, files, [o, s, u], built + plain + other)
  {
    OverlaySeen(repo, cfg, files, table, o, s, u, built, plain, other);
    OverlayRoots(files, repo.Manifests(cfg), o, s, u);
    ThreeSums(o, s, u, built, plain, other);
    SeenCosts(repo, cfg, files, table, [o, s, u], [o, s, u], Three(o, built, s, plain, u, other));
  }

  lemma {:induction false} OverlayTouched(base: Files, head: Files, m: string, o: string, s: string, u: string)
    requires IsOverlay(base, m, o, s, u) && IsOverlay(head, m, o, s, u) && DiffersIn(base, head, m, s)
    ensures forall r :: r in [s] <==> Touched(base, head, m, r)
    ensures OneBuildEach(base, head, m) && RemovedFlat(base, head, m) && Regular(base, m)
  {
    forall p | Under(m, p) && !Alike(base, head, p)
      ensures OneBuild(Kust(head), m, DirOf(p)) && RootOf(Kust(head), m, p) == s
    {
      RootByBuilds(head, m, p);
    }
    SameBuilds(base, head, m);
  }

  /** If the overlay comes out differently, it must be looking outside its own directory. */
  lemma {:induction false} OverlayLooksOutside(
      tool: Renderer, base: Files, head: Files, m: string, o: string, s: string, u: string)
    requires Lawful(tool) && IsOverlay(base, m, o, s, u) && IsOverlay(head, m, o, s, u) && DiffersIn(base, head, m, s)
    requires tool.build(base, o) != tool.build(head, o)
    ensures !Contained(tool, base, m)
  {
    BuildOf(base, m, o);
    var p :| p in tool.looks(base, o) && !Alike(base, head, p);
    if AtOrUnder(o, p) {
      UnderTransitive(m, o, p);
      ParentUnder(o, p);
    }
  }

  lemma {:induction false} OverlayRunSlips(
      repo: Repo, cfg: Config, base: Files, head: Files, inputs: Inputs, table: Table, o: string, s: string, u: string,
      built: real, plain: real, newBuilt: real, newPlain: real, other: real)
    requires RunsOn(inputs, cfg, (RunTree(repo.tool, base), RunTree(repo.tool, head)), table, [s])
    requires cfg.cost.mode == Absolute && Quiet(inputs.engine)
    requires OverlayWorth(repo, cfg, base, table, o, s, u, built, plain, other)
    requires OverlayWorth(repo, cfg, head, table, o, s, u, newBuilt, newPlain, other)
    requires newPlain - plain <= cfg.cost.block.maxMonthlyDeltaUSD
    ensures Slips(inputs)
  {
    var before, after := Three(o, built, s, plain, u, other), Three(o, newBuilt, s, newPlain, u, other);
    OverlaySeen(repo, cfg, base, table, o, s, u, built, plain, other);
    OverlaySeen(repo, cfg, head, table, o, s, u, newBuilt, newPlain, other);
    SeesFewer(repo, cfg, base, table, [o, s, u], [s], before);
    SeesFewer(repo, cfg, head, table, [o, s, u], [s], after);
    ThreeSums(o, s, u, built, plain, other);
    ThreeSums(o, s, u, newBuilt, newPlain, other);
    RunSlips(repo, cfg, base, head, inputs, table, [s], before, after);
  }

  /** A change below one directory exits zero when it adds little there, whatever it adds to a build
      that looks into that directory from outside. */
  lemma {:induction false} OverlayPasses(
      repo: Repo, cfg: Config, c: Proposal, inputs: Inputs, table: Table, o: string, s: string, u: string,
      built: real, plain: real, newBuilt: real, newPlain: real, other: real)
    requires Setting(repo, cfg, c, {}, inputs, table) && PlainNames(repo, cfg, c) && c.fork == c.base
    requires OverlayWorth(repo, cfg, c.base, table, o, s, u, built, plain, other)
    requires OverlayWorth(repo, cfg, c.head, table, o, s, u, newBuilt, newPlain, other)
    requires DiffersIn(c.base, c.head, repo.Manifests(cfg), s)
    requires newPlain - plain <= cfg.cost.block.maxMonthlyDeltaUSD
    ensures ExitsZero(inputs)
    ensures CostsExactly(repo, cfg, c.base, [o, s, u], built + plain + other)
    ensures CostsExactly(repo, cfg, c.head, [o, s, u], newBuilt + newPlain + other)
    ensures OneBuildEach(c.base, c.head, repo.Manifests(cfg)) && RemovedFlat(c.base, c.head, repo.Manifests(cfg))
    ensures Regular(c.base, repo.Manifests(cfg))
  {
    OverlayTouched(c.base, c.head, repo.Manifests(cfg), o, s, u);
    RunGiven(repo, cfg, c, inputs, table, [s]);
    OverlayRunSlips(repo, cfg, c.base, c.head, inputs, table, o, s, u, built, plain, newBuilt, newPlain, other);
    OverlayCosts(repo, cfg, c.base, table, o, s, u, built, plain, other);
    OverlayCosts(repo, cfg, c.head, table, o, s, u, newBuilt, newPlain, other);
  }

  // ---------------------------------------------------------------- a build within a build

  /** The manifests: a build in `a`, another below it in `s`, and plain YAML elsewhere in `u`. */
  ghost predicate IsNested(files: Files, m: string, a: string, s: string, u: string) {
    && IsDirPath(m) && LaidOut(files, m) && Under(m, a) && Under(a, s) && AtOrUnder(m, u) && !AtOrUnder(a, u)
    && Builds(files, m) == {a, s} && u in Plains(files, m) && Plains(files, m) <= {a, s, u}
    && a !in files && s !in files && u !in files
  }

  /** One build above all others, and plain YAML elsewhere. */
  lemma {:induction false} TwoRoots(files: Files, m: string, a: string, u: string)
    requires IsDirPath(m) && LaidOut(files, m) && AtOrUnder(m, a) && AtOrUnder(m, u) && !AtOrUnder(a, u)
    requires a in Builds(files, m) && (forall q :: q in Builds(files, m) ==> AtOrUnder(a, q))
    requires u in Plains(files, m) && forall d :: d in Plains(files, m) ==> d == u || AtOrUnder(a, d)
    ensures AreRoots(files, m, [a, u])
  {
    ListsTwo(a, u);
    NotUnderItself(a);
    forall d ensures IsRoot(files, m, d) <==> d in [a, u] {
      RootOfSets(files, m, d);
      forall q | q in Builds(files, m) && Under(q, d) ensures Under(a, d) {
        UnderTransitive(a, q, d);
      }
      if d == a {
        forall q | q in Builds(files, m) && Under(q, a) ensures false {
          UnderTransitive(a, q, a);
        }
      }
    }
  }

  lemma {:induction false} NestedRoots(files: Files, m: string, a: string, s: string, u: string)
    requires IsNested(files, m, a, s, u)
    ensures AreRoots(files, m, [a, u])
  {
    TwoRoots(files, m, a, u);
  }

  ghost predicate NestedWorth(
      repo: Repo, cfg: Config, files: Files, table: Table, a: string, s: string, u: string,
      outer: real, inner: real, other: real)
  {
    var nodes := cfg.cost.assumedNodeCount;
    && IsNested(files, repo.Manifests(cfg), a, s, u) && LoadTable(repo.TableOf(cfg, files)) == Ok(table)
    && Worth(repo.tool.build(files, a), table, nodes, outer)
    && Worth(repo.tool.build(files, s), table, nodes, inner)
    && Worth(Plain(repo.tool, Direct(files, u)), table, nodes, other)
  }

  lemma {:induction false} NestedSeen(
      repo: Repo, cfg: Config, files: Files, table: Table, a: string, s: string, u: string,
      outer: real, inner: real, other: real)
    requires NestedWorth(repo, cfg, files, table, a, s, u, outer, inner, other)
    ensures a != s && a != u && s != u
    ensures SeesWorth(repo, cfg, files, table, [a, s, u], Three(a, outer, s, inner, u, other))
  {
    var m := repo.Manifests(cfg);
    NotAbove(a, s);
    UnderTransitive(m, a, s);
    RendersTo(repo.tool, files, m, a);
    RendersTo(repo.tool, files, m, s);
    RendersTo(repo.tool, files, m, u);
    ThreeWorth(
      RunTree(repo.tool, files), table, cfg.cost.assumedNodeCount, a, s, u, Three(a, outer, s, inner, u, other));
  }

  lemma {:induction false} NestedCosts(
      repo: Repo, cfg: Config, files: Files, table: Table, a: string, s: string, u: string,
      outer: real, inner: real, other: real)
    requires NestedWorth(repo, cfg, files, table, a, s, u, outer, inner, other)
    ensures CostsExactly(repo, cfg, files, [a, u], outer + other)
  {
    NestedSeen(repo, cfg, files, table, a, s, u, outer, inner, other);
    NestedRoots(files, repo.Manifests(cfg), a, s, u);
    ThreeSums(a, s, u, outer, inner, other);
    SeenCosts(repo, cfg, files, table, [a, s, u], [a, u], Three(a, outer, s, inner, u, other));
  }

  lemma {:induction false} NestedTouched(base: Files, head: Files, m: string, a: string, s: string, u: string)
    requires IsNested(base, m, a, s, u) && IsNested(head, m, a, s, u) && DiffersIn(base, head, m, s)
    ensures forall r :: r in [s] <==> Touched(base, head, m, r)
    ensures RemovedFlat(base, head, m) && Regular(base, m)
  {
    UnderTransitive(m, a, s);
    BuildOf(head, m, s);
    forall p | Under(m, p) && !Alike(base, head, p) ensures RootOf(Kust(head), m, p) == s {
      BuildIsRoot(head, m, p);
    }
    SameBuilds(base, head, m);
  }

  lemma {:induction false} NestedRunSlips(
      repo: Repo, cfg: Config, base: Files, head: Files, inputs: Inputs, table: Table, a: string, s: string, u: string,
      outer: real, inner: real, newOuter: real, newInner: real, other: real)
    requires RunsOn(inputs, cfg, (RunTree(repo.tool, base), RunTree(repo.tool, head)), table, [s])
    requires cfg.cost.mode == Absolute && Quiet(inputs.engine)
    requires NestedWorth(repo, cfg, base, table, a, s, u, outer, inner, other)
    requires NestedWorth(repo, cfg, head, table, a, s, u, newOuter, newInner, other)
    requires newInner - inner <= cfg.cost.block.maxMonthlyDeltaUSD
    ensures Slips(inputs)
  {
    var before, after := Three(a, outer, s, inner, u, other), Three(a, newOuter, s, newInner, u, other);
    NestedSeen(repo, cfg, base, table, a, s, u, outer, inner, other);
    NestedSeen(repo, cfg, head, table, a, s, u, newOuter, newInner, other);
    SeesFewer(repo, cfg, base, table, [a, s, u], [s], before);
    SeesFewer(repo, cfg, head, table, [a, s, u], [s], after);
    ThreeSums(a, s, u, outer, inner, other);
    ThreeSums(a, s, u, newOuter, newInner, other);
    RunSlips(repo, cfg, base, head, inputs, table, [s], before, after);
  }

  /** A change below the inner of two nested builds exits zero when it adds little to that build,
      whatever it adds to the outer one, which is the one that counts. */
  lemma {:induction false} NestedPasses(
      repo: Repo, cfg: Config, c: Proposal, inputs: Inputs, table: Table, a: string, s: string, u: string,
      outer: real, inner: real, newOuter: real, newInner: real, other: real)
    requires Setting(repo, cfg, c, {}, inputs, table) && PlainNames(repo, cfg, c) && c.fork == c.base
    requires NestedWorth(repo, cfg, c.base, table, a, s, u, outer, inner, other)
    requires NestedWorth(repo, cfg, c.head, table, a, s, u, newOuter, newInner, other)
    requires DiffersIn(c.base, c.head, repo.Manifests(cfg), s)
    requires newInner - inner <= cfg.cost.block.maxMonthlyDeltaUSD
    ensures ExitsZero(inputs)
    ensures CostsExactly(repo, cfg, c.base, [a, u], outer + other)
    ensures CostsExactly(repo, cfg, c.head, [a, u], newOuter + other)
    ensures RemovedFlat(c.base, c.head, repo.Manifests(cfg)) && Regular(c.base, repo.Manifests(cfg))
  {
    NestedTouched(c.base, c.head, repo.Manifests(cfg), a, s, u);
    RunGiven(repo, cfg, c, inputs, table, [s]);
    NestedRunSlips(repo, cfg, c.base, c.head, inputs, table, a, s, u, outer, inner, newOuter, newInner, other);
    NestedCosts(repo, cfg, c.base, table, a, s, u, outer, inner, other);
    NestedCosts(repo, cfg, c.head, table, a, s, u, newOuter, newInner, other);
  }

  // ---------------------------------------------------------------- a build that is removed

  /** The base builds `a`, with some of its manifests below it in `s`; the head has none of that, and
      plain YAML in `b` instead. Both have more elsewhere in `u`. */
  ghost predicate IsReplaced(base: Files, head: Files, m: string, a: string, s: string, b: string, u: string) {
    && IsDirPath(m) && LaidOut(base, m) && LaidOut(head, m)
    && Under(m, a) && Under(a, s) && AtOrUnder(m, b) && AtOrUnder(m, u) && !AtOrUnder(a, u)
    && b != a && b != s && b != u
    && Builds(base, m) == {a} && {s, u} <= Plains(base, m) <= {a, s, u}
    && Builds(head, m) == {} && Plains(head, m) == {b, u}
    && (forall d :: d in {a, s, b, u} ==> d !in base && d !in head)
    && forall p :: Under(m, p) && !Alike(base, head, p) ==> DirOf(p) in {a, s, b}
  }

  lemma {:induction false} ReplacedDirs(base: Files, head: Files, m: string, a: string, s: string, b: string, u: string)
    requires IsReplaced(base, head, m, a, s, b, u)
    ensures Distinct([a, s, b, u]) && AtOrUnder(m, s)
  {
    NotAbove(a, s);
    UnderTransitive(m, a, s);
    FourDiffer(a, s, b, u);
  }

  lemma {:induction false} ReplacedRoots(
      base: Files, head: Files, m: string, a: string, s: string, b: string, u: string)
    requires IsReplaced(base, head, m, a, s, b, u)
    ensures AreRoots(base, m, [a, u]) && AreRoots(head, m, [b, u])
  {
    TwoRoots(base, m, a, u);
    ListsTwo(b, u);
    PlainRoots(head, m, [b, u]);
  }

  /** Where the head has no build, a file's root is its own directory. */
  lemma {:induction false} TouchedDir(base: Files, head: Files, m: string, p: string)
    requires IsDirPath(m) && LaidOut(head, m) && Builds(head, m) == {} && Under(m, p) && !Alike(base, head, p)
    ensures Touched(base, head, m, DirOf(p)) && OneBuild(Kust(head), m, DirOf(p))
    ensures RootOf(Kust(head), m, p) == DirOf(p)
  {
    RootByBuilds(head, m, p);
  }

  lemma {:induction false} OneSided(base: Files, head: Files, m: string, d: string)
    requires IsDirPath(m) && LaidOut(base, m) && LaidOut(head, m) && Builds(head, m) == {}
    requires || d in Builds(base, m)
             || (d in Plains(base, m) && d !in Plains(head, m))
             || (d in Plains(head, m) && d !in Plains(base, m))
    ensures Touched(base, head, m, d)
  {
    if d in Builds(base, m) {
      var k :| k in base && Under(m, k) && IsKust(k) && DirOf(k) == d;
      assert k !in head by {
        assert k in head ==> DirOf(k) in Builds(head, m);
      }
      TouchedDir(base, head, m, k);
    } else if d in Plains(base, m) {
      var x :| x in base && Under(m, x) && IsYaml(x) && DirOf(x) == d;
      TouchedDir(base, head, m, x);
    } else {
      var y :| y in head && Under(m, y) && IsYaml(y) && DirOf(y) == d;
      TouchedDir(base, head, m, y);
    }
  }

  lemma {:induction false} ReplacedTouches(
      base: Files, head: Files, m: string, a: string, s: string, b: string, u: string, r: string)
    requires IsReplaced(base, head, m, a, s, b, u) && Distinct([a, s, b, u])
    ensures r in {a, s, b} <==> Touched(base, head, m, r)
  {
    FourDiffer(a, s, b, u);
    if r in {a, s, b} {
      OneSided(base, head, m, r);
    }
    if p :| Under(m, p) && !Alike(base, head, p) && RootOf(Kust(head), m, p) == r {
      TouchedDir(base, head, m, p);
    }
  }

  lemma {:induction false} ReplacedTouched(
      base: Files, head: Files, m: string, a: string, s: string, b: string, u: string)
    requires IsReplaced(base, head, m, a, s, b, u)
    ensures Distinct([a, s, b]) && forall r :: r in [a, s, b] <==> Touched(base, head, m, r)
    ensures OneBuildEach(base, head, m) && Regular(base, m)
  {
    ReplacedDirs(base, head, m, a, s, b, u);
    FourDiffer(a, s, b, u);
    forall r ensures r in [a, s, b] <==> Touched(base, head, m, r) {
      ReplacedTouches(base, head, m, a, s, b, u, r);
    }
    forall p | Under(m, p) && !Alike(base, head, p) ensures OneBuild(Kust(head), m, DirOf(p)) {
      TouchedDir(base, head, m, p);
    }
    LaidOutIsRegular(base, m);
  }

  /** What the removed build and its subdirectory were worth, and what replaces them is. */
  ghost predicate ReplacedWorth(
      repo: Repo, cfg: Config, base: Files, head: Files, table: Table, a: string, s: string, b: string, u: string,
      built: real, inner: real, added: real, other: real)
  {
    var nodes := cfg.cost.assumedNodeCount;
    && IsReplaced(base, head, repo.Manifests(cfg), a, s, b, u)
    && LoadTable(repo.TableOf(cfg, base)) == Ok(table) == LoadTable(repo.TableOf(cfg, head))
    && Worth(repo.tool.build(base, a), table, nodes, built)
    && Worth(Plain(repo.tool, Direct(base, s)), table, nodes, inner)
    && Worth(Plain(repo.tool, Direct(head, b)), table, nodes, added)
    && Worth(Plain(repo.tool, Direct(base, u)), table, nodes, other)
    && Worth(Plain(repo.tool, Direct(head, u)), table, nodes, other)
  }

  lemma {:induction false} ReplacedBaseRenders(
      tool: Renderer, base: Files, head: Files, m: string, a: string, s: string, b: string, u: string)
    requires IsReplaced(base, head, m, a, s, b, u)
    ensures RenderAt(tool, base, a) == tool.build(base, a) && RenderAt(tool, base, s) == Plain(tool, Direct(base, s))
    ensures RenderAt(tool, base, b) == Rendered([]) && RenderAt(tool, base, u) == Plain(tool, Direct(base, u))
  {
    ReplacedDirs(base, head, m, a, s, b, u);
    FourDiffer(a, s, b, u);
    RendersTo(tool, base, m, a);
    RendersTo(tool, base, m, s);
    RendersTo(tool, base, m, b);
    RendersTo(tool, base, m, u);
  }

  lemma {:induction false} ReplacedHeadRenders(
      tool: Renderer, base: Files, head: Files, m: string, a: string, s: string, b: string, u: string)
    requires IsReplaced(base, head, m, a, s, b, u)
    ensures RenderAt(tool, head, a) == RenderAt(tool, head, s) == Rendered([])
    ensures RenderAt(tool, head, b) == Plain(tool, Direct(head, b))
    ensures RenderAt(tool, head, u) == Plain(tool, Direct(head, u))
  {
    ReplacedDirs(base, head, m, a, s, b, u);
    FourDiffer(a, s, b, u);
    RendersTo(tool, head, m, a);
    RendersTo(tool, head, m, s);
    RendersTo(tool, head, m, b);
    RendersTo(tool, head, m, u);
  }

  lemma {:induction false} ReplacedBaseSeen(
      repo: Repo, cfg: Config, base: Files, head: Files, table: Table, a: string, s: string, b: string, u: string,
      built: real, inner: real, added: real, other: real)
    requires ReplacedWorth(repo, cfg, base, head, table, a, s, b, u, built, inner, added, other)
    ensures SeesWorth(repo, cfg, base, table, [a, s, b, u], Four(a, built, s, inner, b, 0.0, u, other))
  {
    var nodes := cfg.cost.assumedNodeCount;
    ReplacedBaseRenders(repo.tool, base, head, repo.Manifests(cfg), a, s, b, u);
    ReplacedDirs(base, head, repo.Manifests(cfg), a, s, b, u);
    NothingIsWorthNothing(table, nodes);
    FourWorth(RunTree(repo.tool, base), table, nodes, a, s, b, u, built, inner, 0.0, other);
  }

  lemma {:induction false} ReplacedHeadSeen(
      repo: Repo, cfg: Config, base: Files, head: Files, table: Table, a: string, s: string, b: string, u: string,
      built: real, inner: real, added: real, other: real)
    requires ReplacedWorth(repo, cfg, base, head, table, a, s, b, u, built, inner, added, other)
    ensures SeesWorth(repo, cfg, head, table, [a, s, b, u], Four(a, 0.0, s, 0.0, b, added, u, other))
  {
    var nodes := cfg.cost.assumedNodeCount;
    ReplacedHeadRenders(repo.tool, base, head, repo.Manifests(cfg), a, s, b, u);
    ReplacedDirs(base, head, repo.Manifests(cfg), a, s, b, u);
    NothingIsWorthNothing(table, nodes);
    FourWorth(RunTree(repo.tool, head), table, nodes, a, s, b, u, 0.0, 0.0, added, other);
  }

  lemma {:induction false} ReplacedCosts(
      repo: Repo, cfg: Config, base: Files, head: Files, table: Table, a: string, s: string, b: string, u: string,
      built: real, inner: real, added: real, other: real)
    requires ReplacedWorth(repo, cfg, base, head, table, a, s, b, u, built, inner, added, other)
    ensures CostsExactly(repo, cfg, base, [a, u], built + other)
    ensures CostsExactly(repo, cfg, head, [b, u], added + other)
  {
    var m := repo.Manifests(cfg);
    ReplacedDirs(base, head, m, a, s, b, u);
    ReplacedBaseSeen(repo, cfg, base, head, table, a, s, b, u, built, inner, added, other);
    ReplacedHeadSeen(repo, cfg, base, head, table, a, s, b, u, built, inner, added, other);
    ReplacedRoots(base, head, m, a, s, b, u);
    FourSums(a, s, b, u, built, inner, 0.0, other);
    FourSums(a, s, b, u, 0.0, 0.0, added, other);
    SeenCosts(repo, cfg, base, table, [a, s, b, u], [a, u], Four(a, built, s, inner, b, 0.0, u, other));
    SeenCosts(repo, cfg, head, table, [a, s, b, u], [b, u], Four(a, 0.0, s, 0.0, b, added, u, other));
  }

  lemma {:induction false} ReplacedRunSlips(
      repo: Repo, cfg: Config, base: Files, head: Files, inputs: Inputs, table: Table,
      a: string, s: string, b: string, u: string, built: real, inner: real, added: real, other: real)
    requires RunsOn(inputs, cfg, (RunTree(repo.tool, base), RunTree(repo.tool, head)), table, [a, s, b])
    requires cfg.cost.mode == Absolute && Quiet(inputs.engine)
    requires ReplacedWorth(repo, cfg, base, head, table, a, s, b, u, built, inner, added, other)
    requires added - (built + inner) <= cfg.cost.block.maxMonthlyDeltaUSD
    ensures Slips(inputs)
  {
    var before, after := Four(a, built, s, inner, b, 0.0, u, other), Four(a, 0.0, s, 0.0, b, added, u, other);
    ReplacedDirs(base, head, repo.Manifests(cfg), a, s, b, u);
    ReplacedBaseSeen(repo, cfg, base, head, table, a, s, b, u, built, inner, added, other);
    ReplacedHeadSeen(repo, cfg, base, head, table, a, s, b, u, built, inner, added, other);
    SeesFewer(repo, cfg, base, table, [a, s, b, u], [a, s, b], before);
    SeesFewer(repo, cfg, head, table, [a, s, b, u], [a, s, b], after);
    FourSums(a, s, b, u, built, inner, 0.0, other);
    FourSums(a, s, b, u, 0.0, 0.0, added, other);
    RunSlips(repo, cfg, base, head, inputs, table, [a, s, b], before, after);
  }

  /** Removing a build counts the manifests of its subdirectories as savings a second time: what
      replaces it exits zero although it costs that much more than the limit allows. */
  lemma {:induction false} RemovedBuildPasses(
      repo: Repo, cfg: Config, c: Proposal, inputs: Inputs, table: Table, a: string, s: string, b: string, u: string,
      built: real, inner: real, added: real, other: real)
    requires Setting(repo, cfg, c, {}, inputs, table) && PlainNames(repo, cfg, c) && c.fork == c.base
    requires ReplacedWorth(repo, cfg, c.base, c.head, table, a, s, b, u, built, inner, added, other)
    requires added - (built + inner) <= cfg.cost.block.maxMonthlyDeltaUSD
    ensures ExitsZero(inputs)
    ensures CostsExactly(repo, cfg, c.base, [a, u], built + other)
    ensures CostsExactly(repo, cfg, c.head, [b, u], added + other)
    ensures OneBuildEach(c.base, c.head, repo.Manifests(cfg)) && Regular(c.base, repo.Manifests(cfg))
  {
    ReplacedTouched(c.base, c.head, repo.Manifests(cfg), a, s, b, u);
    RunGiven(repo, cfg, c, inputs, table, [a, s, b]);
    ReplacedRunSlips(repo, cfg, c.base, c.head, inputs, table, a, s, b, u, built, inner, added, other);
    ReplacedCosts(repo, cfg, c.base, c.head, table, a, s, b, u, built, inner, added, other);
  }

  // ---------------------------------------------------------------- a file that is moved

  /** Plain YAML in `s`, and in the head also in `b`; what differs in `s` has moved. Both have more
      elsewhere in `u`. */
  ghost predicate IsMove(
      base: Files, head: Files, m: string, moved: set<string>, s: string, b: string, u: string)
  {
    && IsDirPath(m) && LaidOut(base, m) && LaidOut(head, m)
    && AtOrUnder(m, s) && AtOrUnder(m, b) && AtOrUnder(m, u) && b != s && u != s && u != b
    && Builds(base, m) == {} == Builds(head, m) && Plains(base, m) == {s, u} && Plains(head, m) == {s, b, u}
    && (forall d :: d in {s, b, u} ==> d !in base && d !in head)
    && forall p :: Under(m, p) && !Alike(base, head, p) ==> if p in moved then DirOf(p) == s else DirOf(p) == b
  }

  lemma {:induction false} MoveRoots(
      base: Files, head: Files, m: string, moved: set<string>, s: string, b: string, u: string)
    requires IsMove(base, head, m, moved, s, b, u)
    ensures AreRoots(base, m, [s, u]) && AreRoots(head, m, [s, b, u])
  {
    ListsTwo(s, u);
    ListsThree(s, b, u);
    PlainRoots(base, m, [s, u]);
    PlainRoots(head, m, [s, b, u]);
  }

  ghost predicate MoveWorth(
      repo: Repo, cfg: Config, base: Files, head: Files, moved: set<string>, table: Table, s: string, b: string,
      u: string, was: real, left: real, added: real, other: real)
  {
    var nodes := cfg.cost.assumedNodeCount;
    && IsMove(base, head, repo.Manifests(cfg), moved, s, b, u)
    && LoadTable(repo.TableOf(cfg, base)) == Ok(table) == LoadTable(repo.TableOf(cfg, head))
    && Worth(Plain(repo.tool, Direct(base, s)), table, nodes, was)
    && Worth(Plain(repo.tool, Direct(head, s)), table, nodes, left)
    && Worth(Plain(repo.tool, Direct(head, b)), table, nodes, added)
    && Worth(Plain(repo.tool, Direct(base, u)), table, nodes, other)
    && Worth(Plain(repo.tool, Direct(head, u)), table, nodes, other)
  }

  lemma {:induction false} MoveRenders(
      tool: Renderer, base: Files, head: Files, m: string, moved: set<string>, s: string, b: string, u: string)
    requires IsMove(base, head, m, moved, s, b, u)
    ensures RenderAt(tool, base, s) == Plain(tool, Direct(base, s)) && RenderAt(tool, base, b) == Rendered([])
    ensures RenderAt(tool, base, u) == Plain(tool, Direct(base, u))
    ensures RenderAt(tool, head, s) == Plain(tool, Direct(head, s))
    ensures RenderAt(tool, head, b) == Plain(tool, Direct(head, b))
    ensures RenderAt(tool, head, u) == Plain(tool, Direct(head, u))
  {
    RendersTo(tool, base, m, s);
    RendersTo(tool, base, m, b);
    RendersTo(tool, base, m, u);
    RendersTo(tool, head, m, s);
    RendersTo(tool, head, m, b);
    RendersTo(tool, head, m, u);
  }

  lemma {:induction false} MoveSeen(
      repo: Repo, cfg: Config, base: Files, head: Files, moved: set<string>, table: Table, s: string, b: string,
      u: string, was: real, left: real, added: real, other: real)
    requires MoveWorth(repo, cfg, base, head, moved, table, s, b, u, was, left, added, other)
    ensures SeesWorth(repo, cfg, base, table, [s, b, u], Three(s, was, b, 0.0, u, other))
    ensures SeesWorth(repo, cfg, head, table, [s, b, u], Three(s, left, b, added, u, other))
  {
    var m, nodes := repo.Manifests(cfg), cfg.cost.assumedNodeCount;
    MoveRenders(repo.tool, base, head, m, moved, s, b, u);
    NothingIsWorthNothing(table, nodes);
    ThreeWorth(RunTree(repo.tool, base), table, nodes, s, b, u, Three(s, was, b, 0.0, u, other));
    ThreeWorth(RunTree(repo.tool, head), table, nodes, s, b, u, Three(s, left, b, added, u, other));
  }

  lemma {:induction false} MoveCosts(
      repo: Repo, cfg: Config, base: Files, head: Files, moved: set<string>, table: Table, s: string, b: string,
      u: string, was: real, left: real, added: real, other: real)
    requires MoveWorth(repo, cfg, base, head, moved, table, s, b, u, was, left, added, other)
    ensures CostsExactly(repo, cfg, base, [s, u], was + other)
    ensures CostsExactly(repo, cfg, head, [s, b, u], left + added + other)
  {
    MoveSeen(repo, cfg, base, head, moved, table, s, b, u, was, left, added, other);
    MoveRoots(base, head, repo.Manifests(cfg), moved, s, b, u);
    ThreeSums(s, b, u, was, 0.0, other);
    ThreeSums(s, b, u, left, added, other);
    SeenCosts(repo, cfg, base, table, [s, b, u], [s, u], Three(s, was, b, 0.0, u, other));
    SeenCosts(repo, cfg, head, table, [s, b, u], [s, b, u], Three(s, left, b, added, u, other));
  }

  /** Not all that differs has moved. */
  ghost predicate ListsMore(repo: Repo, cfg: Config, c: Proposal, moved: set<string>) {
    exists f :: Differs(repo, cfg, c, f) && Join(repo.at, f) !in moved
  }

  lemma {:induction false} MoveListed(
      repo: Repo, cfg: Config, c: Proposal, moved: set<string>, listing: seq<string>, s: string, b: string, u: string)
    requires PlainNames(repo, cfg, c) && IsListing(repo, cfg, c, moved, listing) && c.fork == c.base
    requires IsMove(c.base, c.head, repo.Manifests(cfg), moved, s, b, u)
    requires ListsMore(repo, cfg, c, moved)
    ensures listing != []
    ensures forall i :: 0 <= i < |listing| ==>
              RootOf(Kust(c.head), repo.Manifests(cfg), Clean(Join(repo.at, listing[i]))) == b
  {
    ListingIsDiffering(repo, cfg, c, moved, listing);
    var f :| Differs(repo, cfg, c, f) && Join(repo.at, f) !in moved;
    assert f in listing;
    forall i | 0 <= i < |listing|
      ensures RootOf(Kust(c.head), repo.Manifests(cfg), Clean(Join(repo.at, listing[i]))) == b
    {
      assert listing[i] in listing;
      CleanName(repo.at, listing[i]);
      TouchedDir(c.base, c.head, repo.Manifests(cfg), Join(repo.at, listing[i]));
    }
  }

  lemma {:induction false} MoveGiven(
      repo: Repo, cfg: Config, c: Proposal, moved: set<string>, inputs: Inputs, table: Table,
      s: string, b: string, u: string)
    requires Setting(repo, cfg, c, moved, inputs, table) && PlainNames(repo, cfg, c) && c.fork == c.base
    requires IsMove(c.base, c.head, repo.Manifests(cfg), moved, s, b, u)
    requires ListsMore(repo, cfg, c, moved)
    ensures RunsOn(inputs, cfg, (RunTree(repo.tool, c.base), RunTree(repo.tool, c.head)), table, [b])
    ensures cfg.cost.mode == Absolute && Quiet(inputs.engine) && AllAnswer(inputs)
  {
    MoveListed(repo, cfg, c, moved, inputs.changed.value, s, b, u);
    OneTouched(repo, cfg, c.head, inputs.changed.value, inputs.touchedRoots, b);
    RunsAt(repo, cfg, c, moved, inputs, table, [b]);
  }

  lemma {:induction false} MoveRunSlips(
      repo: Repo, cfg: Config, base: Files, head: Files, moved: set<string>, inputs: Inputs, table: Table,
      s: string, b: string, u: string, was: real, left: real, added: real, other: real)
    requires RunsOn(inputs, cfg, (RunTree(repo.tool, base), RunTree(repo.tool, head)), table, [b])
    requires cfg.cost.mode == Absolute && Quiet(inputs.engine)
    requires MoveWorth(repo, cfg, base, head, moved, table, s, b, u, was, left, added, other)
    requires added <= cfg.cost.block.maxMonthlyDeltaUSD
    ensures Slips(inputs)
  {
    var before, after := Three(s, was, b, 0.0, u, other), Three(s, left, b, added, u, other);
    MoveSeen(repo, cfg, base, head, moved, table, s, b, u, was, left, added, other);
    SeesFewer(repo, cfg, base, table, [s, b, u], [b], before);
    SeesFewer(repo, cfg, head, table, [s, b, u], [b], after);
    ThreeSums(s, b, u, was, 0.0, other);
    ThreeSums(s, b, u, left, added, other);
    RunSlips(repo, cfg, base, head, inputs, table, [b], before, after);
  }

  /** A moved file is listed where it is now: what its leaving does to the directory it was in is not
      judged, as when an autoscaler is moved away from its workload. */
  lemma {:induction false} MovedFilePasses(
      repo: Repo, cfg: Config, c: Proposal, moved: set<string>, inputs: Inputs, table: Table,
      s: string, b: string, u: string, was: real, left: real, added: real, other: real)
    requires Setting(repo, cfg, c, moved, inputs, table) && PlainNames(repo, cfg, c) && c.fork == c.base
    requires MoveWorth(repo, cfg, c.base, c.head, moved, table, s, b, u, was, left, added, other)
    requires ListsMore(repo, cfg, c, moved)
    requires added <= cfg.cost.block.maxMonthlyDeltaUSD
    ensures ExitsZero(inputs) && WellScoped(repo.tool, c.base, c.head, repo.Manifests(cfg))
    ensures CostsExactly(repo, cfg, c.base, [s, u], was + other)
    ensures CostsExactly(repo, cfg, c.head, [s, b, u], left + added + other)
  {
    MoveGiven(repo, cfg, c, moved, inputs, table, s, b, u);
    MoveRunSlips(repo, cfg, c.base, c.head, moved, inputs, table, s, b, u, was, left, added, other);
    MoveCosts(repo, cfg, c.base, c.head, moved, table, s, b, u, was, left, added, other);
    NoBuildsWellScoped(repo.tool, c.base, c.head, repo.Manifests(cfg));
  }

  // ---------------------------------------------------------------- a head behind the base

  /** `side` keeps all files of `fork` and adds plain YAML to directory `d`. */
  ghost predicate AddsTo(fork: Files, side: Files, m: string, d: string) {
    && (forall p :: p in fork ==> Alike(fork, side, p))
    && forall p :: p in Added(fork, side) ==> Under(m, p) && DirOf(p) == d && IsYaml(p) && !IsKust(p)
  }

  function Added(fork: Files, side: Files): set<string> {
    side.Keys - fork.Keys
  }

  /** What two branches add, to one directory, merged. */
  ghost predicate BothAdd(c: Proposal, merged: Files, m: string, d: string) {
    && AddsTo(c.fork, c.base, m, d) && AddsTo(c.fork, c.head, m, d)
    && Added(c.fork, c.base) !! Added(c.fork, c.head) && IsMerge(c, merged)
  }

  lemma {:induction false} MergeHasBoth(c: Proposal, merged: Files, m: string, d: string)
    requires BothAdd(c, merged, m, d)
    ensures merged.Keys == c.fork.Keys + Added(c.fork, c.base) + Added(c.fork, c.head)
    ensures forall p :: p in c.base ==> Alike(c.base, merged, p)
    ensures forall p :: p in c.head ==> Alike(c.head, merged, p)
  {
    forall p
      ensures p in merged <==> p in c.base || p in c.head
      ensures p in c.base ==> Alike(c.base, merged, p)
      ensures p in c.head ==> Alike(c.head, merged, p)
    {
      var sameBase, sameHead := Alike(c.fork, c.base, p), Alike(c.fork, c.head, p);
      assert sameBase ==> Alike(c.head, merged, p);
      assert sameHead ==> Alike(c.base, merged, p);
      assert p in c.fork ==> sameBase && sameHead;
      assert p in Added(c.fork, c.base) ==> p !in Added(c.fork, c.head);
    }
  }

  lemma {:induction false} MergeAddsTo(c: Proposal, merged: Files, m: string, d: string)
    requires BothAdd(c, merged, m, d)
    ensures AddsTo(c.fork, merged, m, d)
    ensures Added(c.fork, merged) == Added(c.fork, c.base) + Added(c.fork, c.head)
  {
    MergeHasBoth(c, merged, m, d);
    forall p | p in c.fork ensures Alike(c.fork, merged, p) {
      assert Alike(c.fork, c.base, p);
    }
  }

  lemma {:induction false} AddedOrKept(fork: Files, side: Files, m: string, d: string, p: string)
    requires AddsTo(fork, side, m, d)
    ensures p in side <==> p in fork || p in Added(fork, side)
    ensures p in fork ==> side[p] == fork[p]
  {
    assert p in fork ==> Alike(fork, side, p);
  }

  lemma {:induction false} AddedLaidOut(fork: Files, side: Files, m: string, d: string)
    requires LaidOut(fork, m) && AddsTo(fork, side, m, d) && Ordinary(m, d)
    ensures LaidOut(side, m)
  {
    forall p | p in side && Under(m, p) ensures Ordinary(m, DirOf(p)) {
      AddedOrKept(fork, side, m, d, p);
    }
  }

  lemma {:induction false} AddedBuilds(fork: Files, side: Files, m: string, d: string)
    requires AddsTo(fork, side, m, d) && Builds(fork, m) == {}
    ensures Builds(side, m) == {}
  {
    forall p | p in side && Under(m, p) ensures !IsKust(p) {
      AddedOrKept(fork, side, m, d, p);
      assert p in fork && IsKust(p) ==> DirOf(p) in Builds(fork, m);
    }
  }

  lemma {:induction false} AddedPlains(fork: Files, side: Files, m: string, d: string)
    requires AddsTo(fork, side, m, d) && d in Plains(fork, m)
    ensures Plains(side, m) == Plains(fork, m)
  {
    forall q | q in Plains(side, m) ensures q in Plains(fork, m) {
      var p :| p in side && Under(m, p) && IsYaml(p) && DirOf(p) == q;
      AddedOrKept(fork, side, m, d, p);
    }
    forall q | q in Plains(fork, m) ensures q in Plains(side, m) {
      var p :| p in fork && Under(m, p) && IsYaml(p) && DirOf(p) == q;
      AddedOrKept(fork, side, m, d, p);
    }
  }

  lemma {:induction false} AddedDirects(fork: Files, side: Files, m: string, d: string, u: string)
    requires AddsTo(fork, side, m, d) && d != u
    ensures Direct(side, u) == Direct(fork, u)
    ensures Direct(side, d).Keys == Direct(fork, d).Keys + Added(fork, side)
  {
    forall p ensures p in Direct(side, u) <==> p in Direct(fork, u)
             ensures p in Direct(fork, u) ==> Direct(side, u)[p] == Direct(fork, u)[p]
             ensures p in Direct(side, d) <==> p in Direct(fork, d) || p in Added(fork, side)
    {
      AddedOrKept(fork, side, m, d, p);
    }
  }

  /** What is added to a plain directory leaves everything else as it was. */
  lemma {:induction false} AddedStaysPlain(fork: Files, side: Files, m: string, d: string, u: string)
    requires IsPlainDir(fork, m, d, u) && AddsTo(fork, side, m, d) && d !in side && u !in side
    ensures IsPlainDir(side, m, d, u)
    ensures Direct(side, u) == Direct(fork, u)
    ensures Direct(side, d).Keys == Direct(fork, d).Keys + Added(fork, side)
  {
    assert d in Plains(fork, m);
    var x :| x in fork && Under(m, x) && IsYaml(x) && DirOf(x) == d;
    assert Ordinary(m, d);
    AddedLaidOut(fork, side, m, d);
    AddedBuilds(fork, side, m, d);
    AddedPlains(fork, side, m, d);
    AddedDirects(fork, side, m, d, u);
  }

  /** The YAML of the directory decodes file by file, each to what its path is worth. */
  ghost predicate FilesWorth(
      tool: Renderer, files: Files, d: string, table: Table, nodes: int, value: RootCost)
  {
    forall p :: p in Direct(files, d) ==> FileWorth(tool, files[p], table, nodes, value(p))
  }

  /** What the YAML of a directory is worth, file by file. */
  function DirWorth(value: RootCost, files: Files, d: string): real {
    SumOver(value, Direct(files, d).Keys)
  }

  /** A plain commit of such files. */
  ghost predicate Itemised(
      repo: Repo, cfg: Config, files: Files, table: Table, d: string, u: string, value: RootCost, other: real)
  {
    var nodes := cfg.cost.assumedNodeCount;
    && IsPlainDir(files, repo.Manifests(cfg), d, u) && LoadTable(repo.TableOf(cfg, files)) == Ok(table)
    && FilesWorth(repo.tool, files, d, table, nodes, value)
    && Worth(Plain(repo.tool, Direct(files, u)), table, nodes, other)
  }

  lemma {:induction false} ItemisedWorth(
      repo: Repo, cfg: Config, files: Files, table: Table, d: string, u: string, value: RootCost, other: real)
    requires Itemised(repo, cfg, files, table, d, u, value, other)
    ensures PlainWorth(repo, cfg, files, table, d, u, DirWorth(value, files, d), other)
  {
    WorthOfFiles(repo.tool, Direct(files, d), table, cfg.cost.assumedNodeCount, value);
  }

  lemma {:induction false} AddedWorth(fork: Files, side: Files, m: string, d: string, u: string, value: RootCost)
    requires IsPlainDir(fork, m, d, u) && AddsTo(fork, side, m, d) && d !in side && u !in side
    ensures DirWorth(value, side, d) == DirWorth(value, fork, d) + SumOver(value, Added(fork, side))
  {
    AddedStaysPlain(fork, side, m, d, u);
    SumOverUnion(value, Direct(fork, d).Keys, Added(fork, side));
  }

  lemma {:induction false} MergedFilesWorth(
      tool: Renderer, c: Proposal, merged: Files, m: string, d: string, table: Table, nodes: int, value: RootCost)
    requires BothAdd(c, merged, m, d)
    requires FilesWorth(tool, c.base, d, table, nodes, value) && FilesWorth(tool, c.head, d, table, nodes, value)
    ensures FilesWorth(tool, merged, d, table, nodes, value)
  {
    MergeHasBoth(c, merged, m, d);
    forall p | p in Direct(merged, d) ensures FileWorth(tool, merged[p], table, nodes, value(p)) {
      if p in c.base {
        assert Alike(c.base, merged, p) && p in Direct(c.base, d);
      } else {
        assert p in c.head && Alike(c.head, merged, p) && p in Direct(c.head, d);
      }
    }
  }

  /** Merging costs what the fork did, what the base has gained since, and what the head adds. */
  lemma {:induction false} MergeAddsBoth(
      repo: Repo, cfg: Config, c: Proposal, merged: Files, table: Table, d: string, u: string,
      value: RootCost, other: real)
    requires BothAdd(c, merged, repo.Manifests(cfg), d) && d !in merged && u !in merged
    requires Itemised(repo, cfg, c.fork, table, d, u, value, other)
    requires Itemised(repo, cfg, c.base, table, d, u, value, other)
    requires Itemised(repo, cfg, c.head, table, d, u, value, other)
    requires repo.TableOf(cfg, merged) == repo.TableOf(cfg, c.base)
    ensures var was, theirs, ours :=
              DirWorth(value, c.fork, d), SumOver(value, Added(c.fork, c.base)), SumOver(value, Added(c.fork, c.head));
            && DirWorth(value, c.base, d) == was + theirs && DirWorth(value, c.head, d) == was + ours
            && DirWorth(value, merged, d) == was + theirs + ours
    ensures PlainWorth(repo, cfg, merged, table, d, u, DirWorth(value, merged, d), other)
  {
    var m := repo.Manifests(cfg);
    AddedWorth(c.fork, c.base, m, d, u, value);
    AddedWorth(c.fork, c.head, m, d, u, value);
    MergeAddsTo(c, merged, m, d);
    AddedWorth(c.fork, merged, m, d, u, value);
    SumOverUnion(value, Added(c.fork, c.base), Added(c.fork, c.head));
    AddedStaysPlain(c.fork, merged, m, d, u);
    MergedFilesWorth(repo.tool, c, merged, m, d, table, cfg.cost.assumedNodeCount, value);
    ItemisedWorth(repo, cfg, merged, table, d, u, value, other);
  }

  lemma {:induction false} AddedDiffers(fork: Files, head: Files, m: string, d: string)
    requires AddsTo(fork, head, m, d) && Added(fork, head) != {}
    ensures DiffersIn(fork, head, m, d)
  {
    var p :| p in Added(fork, head);
    assert Under(m, p) && !Alike(fork, head, p);
    forall q | Under(m, q) && !Alike(fork, head, q) ensures DirOf(q) == d {
      assert q !in fork;
    }
  }

  lemma {:induction false} StaleRunExitsZero(
      repo: Repo, cfg: Config, c: Proposal, inputs: Inputs, table: Table, d: string, u: string,
      value: RootCost, other: real)
    requires Setting(repo, cfg, c, {}, inputs, table) && PlainNames(repo, cfg, c)
    requires AddsTo(c.fork, c.base, repo.Manifests(cfg), d) && AddsTo(c.fork, c.head, repo.Manifests(cfg), d)
    requires Added(c.fork, c.head) != {} && IsPlainDir(c.fork, repo.Manifests(cfg), d, u)
    requires Itemised(repo, cfg, c.base, table, d, u, value, other)
    requires Itemised(repo, cfg, c.head, table, d, u, value, other)
    requires SumOver(value, Added(c.fork, c.head))
             <= SumOver(value, Added(c.fork, c.base)) + cfg.cost.block.maxMonthlyDeltaUSD
    ensures ExitsZero(inputs)
  {
    var m := repo.Manifests(cfg);
    AddedWorth(c.fork, c.base, m, d, u, value);
    AddedWorth(c.fork, c.head, m, d, u, value);
    ItemisedWorth(repo, cfg, c.base, table, d, u, value, other);
    ItemisedWorth(repo, cfg, c.head, table, d, u, value, other);
    AddedDiffers(c.fork, c.head, m, d);
    PlainExitsZero(
      repo, cfg, c, inputs, table, d, u, DirWorth(value, c.base, d), DirWorth(value, c.head, d), other);
  }

  /** What the merge adds to the tip of the base is all of what the head added to the fork. */
  lemma {:induction false} StaleMergeAdds(
      repo: Repo, cfg: Config, c: Proposal, merged: Files, table: Table, d: string, u: string,
      value: RootCost, other: real)
    requires BothAdd(c, merged, repo.Manifests(cfg), d) && d !in merged && u !in merged
    requires repo.TableOf(cfg, merged) == repo.TableOf(cfg, c.base)
    requires Itemised(repo, cfg, c.fork, table, d, u, value, other)
    requires Itemised(repo, cfg, c.base, table, d, u, value, other)
    requires Itemised(repo, cfg, c.head, table, d, u, value, other)
    ensures var was, theirs, ours :=
              DirWorth(value, c.fork, d), SumOver(value, Added(c.fork, c.base)), SumOver(value, Added(c.fork, c.head));
            && CostsExactly(repo, cfg, c.base, [d, u], was + theirs + other)
            && CostsExactly(repo, cfg, merged, [d, u], was + theirs + ours + other)
  {
    MergeAddsBoth(repo, cfg, c, merged, table, d, u, value, other);
    ItemisedWorth(repo, cfg, c.base, table, d, u, value, other);
    PlainCosts(repo, cfg, c.base, table, d, u, DirWorth(value, c.base, d), other);
    PlainCosts(repo, cfg, merged, table, d, u, DirWorth(value, merged, d), other);
  }

  /** With a head that does not contain the tip of the base, a run takes what the base has gained
      since the fork for a saving: a change exits zero whenever it adds no more than that and the
      limit, and merging it adds all of it. */
  lemma {:induction false} StaleHeadPasses(
      repo: Repo, cfg: Config, c: Proposal, merged: Files, inputs: Inputs, table: Table, d: string, u: string,
      value: RootCost, other: real)
    requires Setting(repo, cfg, c, {}, inputs, table) && PlainNames(repo, cfg, c)
    requires BothAdd(c, merged, repo.Manifests(cfg), d) && d !in merged && u !in merged
    requires Added(c.fork, c.head) != {} && repo.TableOf(cfg, merged) == repo.TableOf(cfg, c.base)
    requires Itemised(repo, cfg, c.fork, table, d, u, value, other)
    requires Itemised(repo, cfg, c.base, table, d, u, value, other)
    requires Itemised(repo, cfg, c.head, table, d, u, value, other)
    requires SumOver(value, Added(c.fork, c.head))
             <= SumOver(value, Added(c.fork, c.base)) + cfg.cost.block.maxMonthlyDeltaUSD
    ensures ExitsZero(inputs) && WellScoped(repo.tool, c.base, c.head, repo.Manifests(cfg))
    ensures var was, theirs, ours :=
              DirWorth(value, c.fork, d), SumOver(value, Added(c.fork, c.base)), SumOver(value, Added(c.fork, c.head));
            && CostsExactly(repo, cfg, c.base, [d, u], was + theirs + other)
            && CostsExactly(repo, cfg, merged, [d, u], was + theirs + ours + other)
  {
    StaleRunExitsZero(repo, cfg, c, inputs, table, d, u, value, other);
    NoBuildsWellScoped(repo.tool, c.base, c.head, repo.Manifests(cfg));
    StaleMergeAdds(repo, cfg, c, merged, table, d, u, value, other);
  }
}
