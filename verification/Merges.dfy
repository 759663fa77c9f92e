/** From exit codes to budgets: what runs over the files of real commits prove about the estate. */
module Merges {
  import opened Results
  import opened Ordering
  import opened Pricing
  import opened Config
  import opened Verdict
  import opened Render
  import opened Paths
  import opened Gate
  import opened Estate
  import opened Budget
  import opened Snapshots
  import opened Listing
  import opened Diffs

  /** Where the repository's trees are checked out, where its configuration lies, and the tools that read
      its files. */
  datatype Repo = Repo(
    at: DirPath,
    configPath: DirPath,
    tool: Renderer,
    load: string -> Result<Table, string>,
    configure: string -> Result<Config, string>)
  {
    function Manifests(cfg: Config): DirPath {
      Below(at, cfg.paths.manifests)
    }

    function TablePath(cfg: Config): DirPath {
      Below(at, cfg.paths.pricing)
    }

    function ConfigOf(files: Files): Result<Config, string> {
      if configPath in files then configure(files[configPath]) else Err("no such file")
    }

    function TableOf(cfg: Config, files: Files): Result<Table, string> {
      if TablePath(cfg) in files then load(files[TablePath(cfg)]) else Err("no such file")
    }

    function BaseTableOf(cfg: Config, files: Files): BaseTable {
      if TablePath(cfg) !in files then Absent
      else match TableOf(cfg, files) case Ok(t) => Present(t) case Err(why) => Unreadable(why)
    }

    /** The commit has a rate table, and a valid one. */
    predicate Tabled(cfg: Config, files: Files) {
      LoadTable(TableOf(cfg, files)).Ok?
    }

    ghost function CommitOf(cfg: Config, files: Files): Commit
      requires Tabled(cfg, files)
    {
      Commit(EstateTree(tool, files, Manifests(cfg)), TableOf(cfg, files).value)
    }
  }

  /** What a pull request is about: the commit its branch left the base at, the tip of the base now, the
      head of the branch, and the tree the gate is started in. */
  datatype Proposal = Proposal(fork: Files, base: Files, head: Files, checkout: Files)

  /** Merging takes from each side what only that side changed. */
  ghost predicate IsMerge(c: Proposal, merged: Files) {
    forall p ::
      && (Alike(c.fork, c.base, p) ==> Alike(c.head, merged, p))
      && (Alike(c.fork, c.head, p) ==> Alike(c.base, merged, p))
  }

  /** Merging a branch that contains the tip of the base gives its head. */
  lemma {:induction false} MergeIsHead(c: Proposal, merged: Files)
    requires c.fork == c.base && IsMerge(c, merged)
    ensures merged == c.head
  {
    forall p ensures p in merged <==> p in c.head
             ensures p in merged ==> merged[p] == c.head[p]
    {
      assert Alike(c.fork, c.base, p);
    }
  }

  // ---------------------------------------------------------------- what a run is given

  /** The path, relative to the repository, is of a manifest that the branch changes. */
  ghost predicate Differs(repo: Repo, cfg: Config, c: Proposal, f: string) {
    Under(repo.Manifests(cfg), Join(repo.at, f)) && !Alike(c.fork, c.head, Join(repo.at, f))
  }

  /** The manifest files that the branch changes, in the order in which git prints them; a file that git
      takes to have moved is printed under its new name only. */
  ghost predicate AreDiffering(repo: Repo, cfg: Config, c: Proposal, moved: set<string>, paths: seq<string>) {
    Distinct(paths) && forall f :: f in paths <==> Differs(repo, cfg, c, f) && Join(repo.at, f) !in moved
  }

  /** What the gate reads of git's output. */
  ghost predicate IsListing(repo: Repo, cfg: Config, c: Proposal, moved: set<string>, listing: seq<string>) {
    exists paths ::
      AreDiffering(repo, cfg, c, moved, paths) && multiset(listing) == multiset(ReadLines(Output(paths)))
  }

  ghost predicate AreTouched(repo: Repo, cfg: Config, head: Files, listing: seq<string>, roots: seq<string>) {
    Distinct(roots) && AreRootsOf(Kust(head), repo.at, listing, repo.Manifests(cfg), roots)
  }

  ghost predicate AreRoots(files: Files, m: string, roots: seq<string>) {
    Distinct(roots) && forall d :: d in roots <==> IsRoot(files, m, d)
  }

  /** The gate is started in a checkout of the head, or of the merge. */
  ghost predicate IsCheckout(c: Proposal) {
    c.checkout == c.head || IsMerge(c, c.checkout)
  }

  /** The inputs of a run on a change, whatever git or the file system fail to answer. The
      configuration is the one of the tree the gate is started in. */
  ghost predicate InputsOf(repo: Repo, cfg: Config, c: Proposal, moved: set<string>, inputs: Inputs) {
    var m := repo.Manifests(cfg);
    && IsCheckout(c) && repo.ConfigOf(c.checkout) == Ok(cfg)
    && inputs.config == Ok(cfg) && inputs.workTable == repo.TableOf(cfg, c.checkout)
    && inputs.baseTable == repo.BaseTableOf(cfg, c.base) && inputs.headTable == repo.TableOf(cfg, c.head)
    && (inputs.trees.Ok? ==> inputs.trees.value == (RunTree(repo.tool, c.base), RunTree(repo.tool, c.head)))
    && (inputs.changed.Ok? ==>
          && IsListing(repo, cfg, c, moved, inputs.changed.value)
          && AreTouched(repo, cfg, c.head, inputs.changed.value, inputs.touchedRoots))
    && (inputs.headRoots.Ok? ==> AreRoots(c.head, m, inputs.headRoots.value))
    && (inputs.baseRoots.Ok? ==> AreRoots(c.base, m, inputs.baseRoots.value))
  }

  /** No changed manifest has a name that git quotes or that is trimmed. */
  ghost predicate PlainNames(repo: Repo, cfg: Config, c: Proposal) {
    forall f :: Differs(repo, cfg, c, f) ==> IsPlainName(f)
  }

  /** What must hold of a change for a pass to bound what merging it adds, all of which can be
      checked beforehand: the head contains the tip of the base; the configuration is the base's; no
      file is listed as moved, or has a name that git quotes; the rate table is among the manifests,
      and the base has one; and the touched roots tell all. */
  ghost predicate Sound(repo: Repo, cfg: Config, c: Proposal, moved: set<string>) {
    && c.fork == c.base
    && repo.ConfigOf(c.base) == Ok(cfg)
    && moved == {} && PlainNames(repo, cfg, c)
    && Under(repo.Manifests(cfg), repo.TablePath(cfg)) && repo.Tabled(cfg, c.base)
    && WellScoped(repo.tool, c.base, c.head, repo.Manifests(cfg))
  }

  // ---------------------------------------------------------------- the roots of a run

  lemma {:induction false} Relative(repo: Repo, cfg: Config, p: string) returns (f: string)
    requires Under(repo.Manifests(cfg), p)
    ensures p == Join(repo.at, f)
  {
    UnderTransitive(repo.at, repo.Manifests(cfg), p);
    f := p[|repo.at| + 1..];
  }

  lemma {:induction false} SameMembers(a: seq<string>, b: seq<string>)
    requires multiset(a) == multiset(b)
    ensures forall x :: x in a <==> x in b
  {
    forall x ensures x in a <==> x in b {
      assert x in multiset(a) <==> x in multiset(b);
    }
  }

  /** With plain names the gate reads exactly the paths that differ. */
  lemma {:induction false} ListingIsDiffering(
      repo: Repo, cfg: Config, c: Proposal, moved: set<string>, listing: seq<string>)
    requires PlainNames(repo, cfg, c) && IsListing(repo, cfg, c, moved, listing)
    ensures forall f :: f in listing <==> Differs(repo, cfg, c, f) && Join(repo.at, f) !in moved
  {
    var paths :| AreDiffering(repo, cfg, c, moved, paths) && multiset(listing) == multiset(ReadLines(Output(paths)));
    forall i | 0 <= i < |paths| ensures IsPlainName(paths[i]) {
      assert paths[i] in paths;
    }
    ListedAsIs(paths);
    SameMembers(listing, paths);
  }

  lemma {:induction false} CleanName(at: string, f: string)
    requires IsPlainName(f)
    ensures Clean(Join(at, f)) == Join(at, f)
  {
  }

  /** With a complete listing of plain names, the touched roots are the roots of what differs from the fork. */
  lemma {:induction false} TouchedRoots(
      repo: Repo, cfg: Config, c: Proposal, listing: seq<string>, roots: seq<string>, r: string)
    requires PlainNames(repo, cfg, c) && IsListing(repo, cfg, c, {}, listing)
    requires AreTouched(repo, cfg, c.head, listing, roots)
    ensures r in roots <==> Touched(c.fork, c.head, repo.Manifests(cfg), r)
  {
    var m := repo.Manifests(cfg);
    ListingIsDiffering(repo, cfg, c, {}, listing);
    if r in roots {
      var i :| 0 <= i < |listing| && r == RootOf(Kust(c.head), m, Clean(Join(repo.at, listing[i])));
      assert listing[i] in listing;
      CleanName(repo.at, listing[i]);
    }
    if p :| Under(m, p) && !Alike(c.fork, c.head, p) && RootOf(Kust(c.head), m, p) == r {
      var f := Relative(repo, cfg, p);
      assert Differs(repo, cfg, c, f);
      CleanName(repo.at, f);
      assert f in listing;
    }
  }

  /** A root of the head that the change does not touch costs what it did. */
  lemma {:induction false} UntouchedRoot(repo: Repo, cfg: Config, c: Proposal, r: string)
    requires Proper(repo.tool, c.base, c.head)
    requires WellScoped(repo.tool, c.base, c.head, repo.Manifests(cfg))
    requires repo.Tabled(cfg, c.base) && repo.Tabled(cfg, c.head)
    requires !RatesChanged(repo.CommitOf(cfg, c.base).table, repo.CommitOf(cfg, c.head).table)
    requires Holds(repo.CommitOf(cfg, c.head).tree, r) && !Touched(c.base, c.head, repo.Manifests(cfg), r)
    ensures SameCost(repo.CommitOf(cfg, c.base), repo.CommitOf(cfg, c.head), r)
  {
    UntouchedAgrees(repo.tool, c.base, c.head, repo.Manifests(cfg), r);
  }

  lemma {:induction false} TablesOfRun(repo: Repo, cfg: Config, c: Proposal, inputs: Inputs, base: Table, head: Table)
    requires repo.Tabled(cfg, c.base)
    requires inputs.baseTable == repo.BaseTableOf(cfg, c.base) && inputs.headTable == repo.TableOf(cfg, c.head)
    requires LoadPricingTables(inputs.baseTable, inputs.headTable) == Ok((base, head))
    ensures repo.Tabled(cfg, c.head)
    ensures base == repo.CommitOf(cfg, c.base).table && head == repo.CommitOf(cfg, c.head).table
  {
  }

  // ---------------------------------------------------------------- a pass

  lemma {:induction false} ScopeOfRun(
      repo: Repo, cfg: Config, c: Proposal, inputs: Inputs, base: Table, head: Table, roots: seq<string>)
    requires InputsOf(repo, cfg, c, {}, inputs) && Sound(repo, cfg, c, {}) && inputs.changed.Ok?
    requires Proper(repo.tool, c.base, c.head)
    requires LoadPricingTables(inputs.baseTable, inputs.headTable) == Ok((base, head))
    requires RootsToEvaluate(inputs, base, head) == Ok(roots)
    ensures repo.Tabled(cfg, c.head)
    ensures InScope(repo.CommitOf(cfg, c.base), repo.CommitOf(cfg, c.head), roots)
    ensures forall r :: r in roots ==>
              Touched(c.base, c.head, repo.Manifests(cfg), r) || IsRoot(c.head, repo.Manifests(cfg), r)
  {
    TablesOfRun(repo, cfg, c, inputs, base, head);
    var b, h := repo.CommitOf(cfg, c.base), repo.CommitOf(cfg, c.head);
    forall r ensures r in inputs.touchedRoots <==> Touched(c.base, c.head, repo.Manifests(cfg), r) {
      TouchedRoots(repo, cfg, c, inputs.changed.value, inputs.touchedRoots, r);
    }
    forall r | r !in roots && Holds(h.tree, r) ensures SameCost(b, h, r) {
      assert IsRoot(c.head, repo.Manifests(cfg), r);
      UntouchedRoot(repo, cfg, c, r);
    }
  }

  lemma {:induction false} SeenByRun(repo: Repo, cfg: Config, c: Proposal, table: Table, nodes: int, roots: seq<string>)
    requires Sound(repo, cfg, c, {}) && repo.Tabled(cfg, c.head)
    requires forall r :: r in roots ==>
               Touched(c.base, c.head, repo.Manifests(cfg), r) || IsRoot(c.head, repo.Manifests(cfg), r)
    ensures AllGood(RunTree(repo.tool, c.base), table, nodes, roots)
            ==> SameAt(RunTree(repo.tool, c.base), repo.CommitOf(cfg, c.base).tree, roots)
    ensures AllGood(RunTree(repo.tool, c.head), table, nodes, roots)
            ==> SameAt(RunTree(repo.tool, c.head), repo.CommitOf(cfg, c.head).tree, roots)
  {
    var b, h := RunTree(repo.tool, c.base), RunTree(repo.tool, c.head);
    forall r | r in roots
      ensures IsGood(b, table, nodes, r) ==> b(r) == repo.CommitOf(cfg, c.base).tree(r)
      ensures IsGood(h, table, nodes, r) ==> h(r) == repo.CommitOf(cfg, c.head).tree(r)
    {
      SeenOnBothSides(repo.tool, c.base, c.head, repo.Manifests(cfg), r);
    }
  }

  lemma {:induction false} EstateListed(repo: Repo, cfg: Config, files: Files, roots: seq<string>)
    requires repo.Tabled(cfg, files) && AreRoots(files, repo.Manifests(cfg), roots)
    ensures SeesEstate(RunTree(repo.tool, files), repo.CommitOf(cfg, files), roots)
  {
  }

  function MergeOf(inputs: Inputs, evaluation: Option<Evaluation>): Merge {
    match evaluation
    case None => Unevaluated
    case Some(e) => Evaluated(inputs, e)
  }

  lemma {:induction false} ChangeSeen(
      repo: Repo, cfg: Config, c: Proposal, inputs: Inputs, base: Table, head: Table, roots: seq<string>, nodes: int)
    requires InputsOf(repo, cfg, c, {}, inputs) && Sound(repo, cfg, c, {}) && inputs.changed.Ok?
    requires Proper(repo.tool, c.base, c.head)
    requires LoadPricingTables(inputs.baseTable, inputs.headTable) == Ok((base, head))
    requires RootsToEvaluate(inputs, base, head) == Ok(roots)
    requires AllGood(RunTree(repo.tool, c.base), base, nodes, roots)
    requires AllGood(RunTree(repo.tool, c.head), head, nodes, roots)
    ensures repo.Tabled(cfg, c.head)
    ensures SeesChange(
              (RunTree(repo.tool, c.base), RunTree(repo.tool, c.head)),
              repo.CommitOf(cfg, c.base), repo.CommitOf(cfg, c.head), roots)
  {
    ScopeOfRun(repo, cfg, c, inputs, base, head, roots);
    SeenByRun(repo, cfg, c, base, nodes, roots);
    SeenByRun(repo, cfg, c, head, nodes, roots);
  }

  lemma {:induction false} EarnedOn(cfg: Config, inputs: Inputs, e: Evaluation, trees: (Tree, Tree))
    requires inputs.config == Ok(cfg) && (inputs.trees.Ok? ==> inputs.trees.value == trees)
    requires EvaluationOf(inputs, e) && Judge(e.cfg, e.delta, e.costErrors, e.policy).decision == Pass
    ensures e.cfg == cfg && inputs.trees == Ok(trees)
    ensures LoadPricingTables(inputs.baseTable, inputs.headTable) == Ok((e.baseTable, e.headTable))
    ensures RootsToEvaluate(inputs, e.baseTable, e.headTable) == Ok(e.roots)
    ensures AllGood(trees.0, e.baseTable, cfg.cost.assumedNodeCount, e.roots)
    ensures AllGood(trees.1, e.headTable, cfg.cost.assumedNodeCount, e.roots)
  {
    PassIsEarned(inputs, e);
  }

  /** What a passing evaluation of the trees has seen of the two commits. */
  ghost predicate SawAll(trees: (Tree, Tree), base: Commit, head: Commit, inputs: Inputs, e: Evaluation) {
    && e.baseTable == base.table && e.headTable == head.table
    && SeesChange(trees, base, head, e.roots)
    && (inputs.baseRoots.Ok? ==> SeesEstate(trees.0, base, inputs.baseRoots.value))
  }

  lemma {:induction false} RunSawAll(repo: Repo, cfg: Config, c: Proposal, inputs: Inputs, e: Evaluation)
    requires InputsOf(repo, cfg, c, {}, inputs) && Sound(repo, cfg, c, {}) && inputs.changed.Ok?
    requires Proper(repo.tool, c.base, c.head)
    requires LoadPricingTables(inputs.baseTable, inputs.headTable) == Ok((e.baseTable, e.headTable))
    requires RootsToEvaluate(inputs, e.baseTable, e.headTable) == Ok(e.roots)
    requires AllGood(RunTree(repo.tool, c.base), e.baseTable, cfg.cost.assumedNodeCount, e.roots)
    requires AllGood(RunTree(repo.tool, c.head), e.headTable, cfg.cost.assumedNodeCount, e.roots)
    ensures repo.Tabled(cfg, c.head)
    ensures SawAll(
              (RunTree(repo.tool, c.base), RunTree(repo.tool, c.head)),
              repo.CommitOf(cfg, c.base), repo.CommitOf(cfg, c.head), inputs, e)
  {
    TablesOfRun(repo, cfg, c, inputs, e.baseTable, e.headTable);
    ChangeSeen(repo, cfg, c, inputs, e.baseTable, e.headTable, e.roots, cfg.cost.assumedNodeCount);
    if inputs.baseRoots.Ok? {
      EstateListed(repo, cfg, c.base, inputs.baseRoots.value);
    }
  }

  lemma {:induction false} PassesFrom(
      cfg: Config, trees: (Tree, Tree), base: Commit, head: Commit, inputs: Inputs, e: Evaluation)
    requires EvaluationOf(inputs, e) && Judge(e.cfg, e.delta, e.costErrors, e.policy).decision == Pass
    requires e.cfg == cfg && inputs.trees == Ok(trees) && SawAll(trees, base, head, inputs, e)
    ensures Passes(cfg, base, head, Evaluated(inputs, e))
  {
  }

  lemma {:induction false} EvaluatedPass(repo: Repo, cfg: Config, c: Proposal, inputs: Inputs, e: Evaluation)
    requires InputsOf(repo, cfg, c, {}, inputs) && Sound(repo, cfg, c, {})
    requires Proper(repo.tool, c.base, c.head)
    requires inputs.changed.Ok? && EvaluationOf(inputs, e)
    requires Judge(e.cfg, e.delta, e.costErrors, e.policy).decision == Pass
    ensures repo.Tabled(cfg, c.head)
    ensures Passes(cfg, repo.CommitOf(cfg, c.base), repo.CommitOf(cfg, c.head), Evaluated(inputs, e))
  {
    var trees := (RunTree(repo.tool, c.base), RunTree(repo.tool, c.head));
    EarnedOn(cfg, inputs, e, trees);
    RunSawAll(repo, cfg, c, inputs, e);
    PassesFrom(cfg, trees, repo.CommitOf(cfg, c.base), repo.CommitOf(cfg, c.head), inputs, e);
  }

  lemma {:induction false} NothingDiffers(repo: Repo, cfg: Config, c: Proposal)
    requires PlainNames(repo, cfg, c) && IsListing(repo, cfg, c, {}, [])
    ensures forall p :: Under(repo.Manifests(cfg), p) ==> Alike(c.fork, c.head, p)
  {
    ListingIsDiffering(repo, cfg, c, {}, []);
    forall p | Under(repo.Manifests(cfg), p) ensures Alike(c.fork, c.head, p) {
      var f := Relative(repo, cfg, p);
      assert !Differs(repo, cfg, c, f);
    }
  }

  lemma {:induction false} UnevaluatedPass(repo: Repo, cfg: Config, c: Proposal, inputs: Inputs)
    requires InputsOf(repo, cfg, c, {}, inputs) && Sound(repo, cfg, c, {})
    requires Proper(repo.tool, c.base, c.head)
    requires inputs.changed == Ok([])
    ensures repo.Tabled(cfg, c.head)
    ensures Passes(cfg, repo.CommitOf(cfg, c.base), repo.CommitOf(cfg, c.head), Unevaluated)
  {
    NothingDiffers(repo, cfg, c);
    assert Alike(c.base, c.head, repo.TablePath(cfg));
    var b, h := repo.CommitOf(cfg, c.base), repo.CommitOf(cfg, c.head);
    forall r | Holds(h.tree, r) ensures SameCost(b, h, r) {
      UntouchedRoot(repo, cfg, c, r);
    }
  }

  /** The change is a merge of two commits with rate tables that the gate let through. */
  ghost predicate IsPass(repo: Repo, cfg: Config, c: Proposal, m: Merge) {
    && repo.Tabled(cfg, c.base) && repo.Tabled(cfg, c.head)
    && Passes(cfg, repo.CommitOf(cfg, c.base), repo.CommitOf(cfg, c.head), m)
  }

  /** Exit code zero on a sound change is a passing merge of the two estates. */
  lemma {:induction false} ExitZeroPasses(
      repo: Repo, cfg: Config, c: Proposal, inputs: Inputs, evaluation: Option<Evaluation>)
    requires InputsOf(repo, cfg, c, {}, inputs) && Sound(repo, cfg, c, {})
    requires Proper(repo.tool, c.base, c.head)
    requires IsAnswer(inputs, EXIT_PASS, evaluation)
    ensures IsPass(repo, cfg, c, MergeOf(inputs, evaluation))
  {
    match evaluation
    case None => UnevaluatedPass(repo, cfg, c, inputs);
    case Some(e) => EvaluatedPass(repo, cfg, c, inputs, e);
  }

  function InputsFor(
      repo: Repo, cfg: Config, c: Proposal, listing: Result<seq<string>, string>, touched: seq<string>,
      headRoots: seq<string>, baseRoots: seq<string>, engine: Engine, delivered: Result<(), string>): Inputs
  {
    Inputs(
      Ok(cfg), listing, repo.TableOf(cfg, c.checkout), Ok((RunTree(repo.tool, c.base), RunTree(repo.tool, c.head))),
      repo.BaseTableOf(cfg, c.base), repo.TableOf(cfg, c.head),
      touched, Ok(headRoots), Ok(baseRoots), engine, delivered)
  }

  lemma {:induction false} InputsForAre(
      repo: Repo, cfg: Config, c: Proposal, moved: set<string>, listing: Result<seq<string>, string>,
      touched: seq<string>, headRoots: seq<string>, baseRoots: seq<string>, engine: Engine, delivered: Result<(), string>)
    requires IsCheckout(c) && repo.ConfigOf(c.checkout) == Ok(cfg)
    requires listing.Ok? ==> IsListing(repo, cfg, c, moved, listing.value)
    requires listing.Ok? ==> AreTouched(repo, cfg, c.head, listing.value, touched)
    requires AreRoots(c.head, repo.Manifests(cfg), headRoots) && AreRoots(c.base, repo.Manifests(cfg), baseRoots)
    ensures InputsOf(
              repo, cfg, c, moved,
              InputsFor(repo, cfg, c, listing, touched, headRoots, baseRoots, engine, delivered))
  {
  }

  /** Git prints the manifests that the branch changes, in some order. */
  ghost predicate IsOutput(repo: Repo, cfg: Config, c: Proposal, moved: set<string>, output: string) {
    exists paths :: AreDiffering(repo, cfg, c, moved, paths) && output == Output(paths)
  }

  /** What git prints for the change, and the trees of both commits. */
  ghost predicate IsGiven(
      repo: Repo, cfg: Config, c: Proposal, moved: set<string>, output: Result<string, string>,
      baseWalk: Option<seq<Entry>>, headWalk: Option<seq<Entry>>)
  {
    && (output.Ok? ==> IsOutput(repo, cfg, c, moved, output.value))
    && CheckedOut(c.base, repo.Manifests(cfg), baseWalk) && CheckedOut(c.head, repo.Manifests(cfg), headWalk)
  }

  /** What a run gathers: what git prints, split into lines, the roots of those, and all roots of both
      trees by walking them. */
  method Gather(
      repo: Repo, cfg: Config, c: Proposal, ghost moved: set<string>, output: Result<string, string>,
      baseWalk: Option<seq<Entry>>, headWalk: Option<seq<Entry>>, engine: Engine, delivered: Result<(), string>)
      returns (inputs: Inputs)
    requires IsCheckout(c) && repo.ConfigOf(c.checkout) == Ok(cfg)
    requires IsGiven(repo, cfg, c, moved, output, baseWalk, headWalk)
    ensures InputsOf(repo, cfg, c, moved, inputs)
  {
    var m := repo.Manifests(cfg);
    var listing: Result<seq<string>, string> := Err("no listing");
    var touched := [];
    if output.Ok? {
      var files := ChangedFiles(output.value);
      listing := Ok(files);
      touched := Render.Roots(Kust(c.head), repo.at, files, m);
    }
    var baseRoots := AllRoots(m, baseWalk);
    AllRootsAreRoots(c.base, m, baseWalk, baseRoots);
    var headRoots := AllRoots(m, headWalk);
    AllRootsAreRoots(c.head, m, headWalk, headRoots);
    inputs := InputsFor(repo, cfg, c, listing, touched, headRoots, baseRoots, engine, delivered);
    InputsForAre(repo, cfg, c, moved, listing, touched, headRoots, baseRoots, engine, delivered);
  }

  /** Without a configuration, nothing else is asked for. */
  function NoInputs(why: string, engine: Engine): Inputs {
    Inputs(
      Err(why), Err(why), Err(why), Err(why), Absent, Err(why), [], Err(why), Err(why), engine, Err(why))
  }

  /** A run of the gate on a change, with the configuration of the checkout. */
  method JudgeChange(
      repo: Repo, c: Proposal, ghost moved: set<string>, output: Result<string, string>,
      baseWalk: Option<seq<Entry>>, headWalk: Option<seq<Entry>>, engine: Engine, delivered: Result<(), string>)
      returns (code: int, inputs: Inputs, evaluation: Option<Evaluation>)
    requires IsCheckout(c)
    requires var configured := repo.ConfigOf(c.checkout);
             configured.Ok? ==> IsGiven(repo, configured.value, c, moved, output, baseWalk, headWalk)
    ensures IsAnswer(inputs, code, evaluation) || (code == EXIT_INCONCLUSIVE && evaluation.None?)
    ensures match repo.ConfigOf(c.checkout)
            case Err(_) => code == EXIT_INCONCLUSIVE && evaluation.None?
            case Ok(cfg) =>
              && InputsOf(repo, cfg, c, moved, inputs)
              && (code == EXIT_PASS && Sound(repo, cfg, c, moved) && Proper(repo.tool, c.base, c.head)
                  ==> IsPass(repo, cfg, c, MergeOf(inputs, evaluation)))
  {
    var configured := repo.ConfigOf(c.checkout);
    if configured.Err? {
      inputs := NoInputs(configured.error, engine);
      code, evaluation := EvaluateCommand(inputs);
      return;
    }
    inputs := Gather(repo, configured.value, c, moved, output, baseWalk, headWalk, engine, delivered);
    code, evaluation := EvaluateCommand(inputs);
    SoundPassCounts(repo, configured.value, c, moved, inputs, code, evaluation);
  }

  lemma {:induction false} SoundPassCounts(
      repo: Repo, cfg: Config, c: Proposal, moved: set<string>, inputs: Inputs, code: int, evaluation: Option<Evaluation>)
    requires InputsOf(repo, cfg, c, moved, inputs)
    requires code == EXIT_PASS ==> IsAnswer(inputs, EXIT_PASS, evaluation)
    ensures code == EXIT_PASS && Sound(repo, cfg, c, moved) && Proper(repo.tool, c.base, c.head)
            ==> IsPass(repo, cfg, c, MergeOf(inputs, evaluation))
  {
    if code == EXIT_PASS && Sound(repo, cfg, c, moved) && Proper(repo.tool, c.base, c.head) {
      ExitZeroPasses(repo, cfg, c, inputs, evaluation);
    }
  }

  // ---------------------------------------------------------------- when the judged difference is the true one

  /** With unchanged rates, a root of the base that a sound change neither touches nor covers by a build
      costs what it did. */
  lemma {:induction false} UncoveredRoot(repo: Repo, cfg: Config, c: Proposal, r: string)
    requires Sound(repo, cfg, c, {}) && Proper(repo.tool, c.base, c.head) && repo.Tabled(cfg, c.head)
    requires !RatesChanged(repo.CommitOf(cfg, c.base).table, repo.CommitOf(cfg, c.head).table)
    requires !Touched(c.base, c.head, repo.Manifests(cfg), r)
    requires IsRoot(c.base, repo.Manifests(cfg), r) ==> Uncovered(c.head, repo.Manifests(cfg), r)
    ensures SameCost(repo.CommitOf(cfg, c.base), repo.CommitOf(cfg, c.head), r)
  {
    var m := repo.Manifests(cfg);
    if IsRoot(c.head, m, r) {
      UntouchedAgrees(repo.tool, c.base, c.head, m, r);
    } else if IsRoot(c.base, m, r) {
      UncoveredStays(c.base, c.head, m, r);
    }
  }

  /** A sound change with unchanged rates is judged at the true difference of the estates, in ceiling and
      floor, if no build of the head covers what was a root of the base. */
  lemma {:induction false} JudgedIsTrue(
      f: Figure, repo: Repo, cfg: Config, c: Proposal, inputs: Inputs, base: Table, head: Table, roots: seq<string>,
      nodes: int, all: seq<string>)
    requires InputsOf(repo, cfg, c, {}, inputs) && Sound(repo, cfg, c, {}) && inputs.changed.Ok?
    requires Proper(repo.tool, c.base, c.head) && !RatesChanged(base, head)
    requires LoadPricingTables(inputs.baseTable, inputs.headTable) == Ok((base, head))
    requires RootsToEvaluate(inputs, base, head) == Ok(roots)
    requires forall r :: IsRoot(c.base, repo.Manifests(cfg), r) ==> Uncovered(c.head, repo.Manifests(cfg), r)
    requires Distinct(all) && forall r :: IsRoot(c.base, repo.Manifests(cfg), r) || IsRoot(c.head, repo.Manifests(cfg), r)
                                          ==> r in all
    ensures repo.Tabled(cfg, c.head)
    ensures var b, h := repo.CommitOf(cfg, c.base), repo.CommitOf(cfg, c.head);
            ScopedDelta(f, b, h, nodes, roots) == ScopedDelta(f, b, h, nodes, all)
  {
    TablesOfRun(repo, cfg, c, inputs, base, head);
    var b, h := repo.CommitOf(cfg, c.base), repo.CommitOf(cfg, c.head);
    forall r | r !in roots ensures SameCost(b, h, r) {
      TouchedRoots(repo, cfg, c, inputs.changed.value, inputs.touchedRoots, r);
      UncoveredRoot(repo, cfg, c, r);
    }
    ScopedIsWhole(f, b, h, nodes, all, roots);
  }

  /** Otherwise it is judged higher, by what the roots cost that are covered now: every root that is gone
      from the head unevaluated has a build above it. */
  lemma {:induction false} GoneIsCovered(
      repo: Repo, cfg: Config, c: Proposal, inputs: Inputs, base: Table, head: Table, roots: seq<string>, r: string)
    requires InputsOf(repo, cfg, c, {}, inputs) && Sound(repo, cfg, c, {}) && inputs.changed.Ok?
    requires Proper(repo.tool, c.base, c.head) && !RatesChanged(base, head)
    requires LoadPricingTables(inputs.baseTable, inputs.headTable) == Ok((base, head))
    requires RootsToEvaluate(inputs, base, head) == Ok(roots)
    requires r !in roots && IsRoot(c.base, repo.Manifests(cfg), r) && !IsRoot(c.head, repo.Manifests(cfg), r)
    ensures !Uncovered(c.head, repo.Manifests(cfg), r)
  {
    TouchedRoots(repo, cfg, c, inputs.changed.value, inputs.touchedRoots, r);
    if Uncovered(c.head, repo.Manifests(cfg), r) {
      UncoveredStays(c.base, c.head, repo.Manifests(cfg), r);
    }
  }

  // ---------------------------------------------------------------- whole histories

  /** A pull request with its run: the configuration it read, what it was given and what it found. */
  datatype Attempt = Attempt(
    c: Proposal, cfg: Config, moved: set<string>, inputs: Inputs, evaluation: Option<Evaluation>)

  /** The run exited zero on a sound change of `base`, and merging it gave `merged`. */
  ghost predicate Merged(repo: Repo, base: Files, merged: Files, a: Attempt) {
    && a.c.base == base && IsMerge(a.c, merged)
    && InputsOf(repo, a.cfg, a.c, a.moved, a.inputs) && IsAnswer(a.inputs, EXIT_PASS, a.evaluation)
    && Sound(repo, a.cfg, a.c, a.moved) && Proper(repo.tool, base, a.c.head)
  }

  /** The change was made to the tip of the base, with the base's configuration, and merged as it is. */
  ghost predicate KeepsConfig(repo: Repo, base: Files, merged: Files, cfg: Config) {
    repo.ConfigOf(base) == Ok(cfg) == repo.ConfigOf(merged)
  }

  lemma {:induction false} MergedKeepsConfig(repo: Repo, base: Files, merged: Files, a: Attempt)
    requires Merged(repo, base, merged, a)
    ensures KeepsConfig(repo, base, merged, a.cfg)
  {
    MergeIsHead(a.c, merged);
    if a.c.checkout != a.c.head {
      MergeIsHead(a.c, a.c.checkout);
    }
  }

  lemma {:induction false} MergedPasses(repo: Repo, base: Files, merged: Files, a: Attempt)
    requires Merged(repo, base, merged, a)
    ensures repo.Tabled(a.cfg, base) && repo.Tabled(a.cfg, merged)
    ensures Passes(a.cfg, repo.CommitOf(a.cfg, base), repo.CommitOf(a.cfg, merged), MergeOf(a.inputs, a.evaluation))
  {
    MergeIsHead(a.c, merged);
    ExitZeroPasses(repo, a.cfg, a.c, a.inputs, a.evaluation);
  }

  /** The commits of a branch, the attempts merged between them, and the roots of each commit. */
  datatype Branch = Branch(commits: seq<Files>, attempts: seq<Attempt>, roots: seq<seq<string>>)

  /** The branch starts with a configuration, and grows by merging changes that exit zero. */
  ghost predicate Grows(repo: Repo, cfg: Config, b: Branch) {
    && |b.commits| == |b.roots| == |b.attempts| + 1 && b.attempts != []
    && repo.ConfigOf(b.commits[0]) == Ok(cfg)
    && (forall i :: 0 <= i < |b.attempts| ==> Merged(repo, b.commits[i], b.commits[i + 1], b.attempts[i]))
    && (forall i :: 0 <= i < |b.commits| ==> AreRoots(b.commits[i], repo.Manifests(cfg), b.roots[i]))
  }

  ghost predicate AllKeepConfig(repo: Repo, b: Branch)
    requires |b.commits| == |b.attempts| + 1
  {
    forall i :: 0 <= i < |b.attempts| ==> KeepsConfig(repo, b.commits[i], b.commits[i + 1], b.attempts[i].cfg)
  }

  lemma {:induction false} MergesKeepConfig(repo: Repo, cfg: Config, b: Branch)
    requires Grows(repo, cfg, b)
    ensures AllKeepConfig(repo, b)
  {
    forall i | 0 <= i < |b.attempts| ensures KeepsConfig(repo, b.commits[i], b.commits[i + 1], b.attempts[i].cfg) {
      MergedKeepsConfig(repo, b.commits[i], b.commits[i + 1], b.attempts[i]);
    }
  }

  /** The configuration of the branch stays what it was. */
  lemma {:induction false} OneConfig(repo: Repo, cfg: Config, b: Branch, i: nat)
    requires |b.commits| == |b.attempts| + 1 && AllKeepConfig(repo, b)
    requires repo.ConfigOf(b.commits[0]) == Ok(cfg) && i < |b.attempts|
    ensures b.attempts[i].cfg == cfg && repo.ConfigOf(b.commits[i + 1]) == Ok(cfg)
  {
    assert KeepsConfig(repo, b.commits[i], b.commits[i + 1], b.attempts[i].cfg);
    if i > 0 {
      OneConfig(repo, cfg, b, i - 1);
    }
  }

  lemma {:induction false} AttemptPasses(repo: Repo, cfg: Config, b: Branch, i: nat)
    requires Grows(repo, cfg, b) && i < |b.attempts|
    ensures repo.Tabled(cfg, b.commits[i]) && repo.Tabled(cfg, b.commits[i + 1])
    ensures Passes(
              cfg, repo.CommitOf(cfg, b.commits[i]), repo.CommitOf(cfg, b.commits[i + 1]),
              MergeOf(b.attempts[i].inputs, b.attempts[i].evaluation))
  {
    MergesKeepConfig(repo, cfg, b);
    OneConfig(repo, cfg, b, i);
    MergedPasses(repo, b.commits[i], b.commits[i + 1], b.attempts[i]);
  }

  lemma {:induction false} AllTabled(repo: Repo, cfg: Config, b: Branch, i: nat)
    requires Grows(repo, cfg, b) && i < |b.commits|
    ensures repo.Tabled(cfg, b.commits[i])
  {
    AttemptTabled(repo, cfg, b, if i < |b.attempts| then i else i - 1);
  }

  lemma {:induction false} AttemptTabled(repo: Repo, cfg: Config, b: Branch, i: nat)
    requires Grows(repo, cfg, b) && i < |b.attempts|
    ensures repo.Tabled(cfg, b.commits[i]) && repo.Tabled(cfg, b.commits[i + 1])
  {
    AttemptPasses(repo, cfg, b, i);
  }

  ghost function CommitsOf(repo: Repo, cfg: Config, b: Branch): (commits: seq<Commit>)
    requires Grows(repo, cfg, b)
    ensures |commits| == |b.commits|
    ensures forall i :: 0 <= i < |commits| ==>
              repo.Tabled(cfg, b.commits[i]) && commits[i] == repo.CommitOf(cfg, b.commits[i])
  {
    assert forall i: nat :: i < |b.commits| ==> repo.Tabled(cfg, b.commits[i]) by {
      forall i: nat | i < |b.commits| ensures repo.Tabled(cfg, b.commits[i]) {
        AllTabled(repo, cfg, b, i);
      }
    }
    seq(|b.commits|, i requires 0 <= i < |b.commits| => repo.CommitOf(cfg, b.commits[i]))
  }

  function MergesOf(b: Branch): (merges: seq<Merge>)
    ensures |merges| == |b.attempts|
    ensures forall i :: 0 <= i < |merges| ==> merges[i] == MergeOf(b.attempts[i].inputs, b.attempts[i].evaluation)
  {
    seq(|b.attempts|, i requires 0 <= i < |b.attempts| => MergeOf(b.attempts[i].inputs, b.attempts[i].evaluation))
  }

  lemma {:induction false} BranchIsHistory(repo: Repo, cfg: Config, b: Branch)
    requires Grows(repo, cfg, b)
    ensures History(cfg, CommitsOf(repo, cfg, b), MergesOf(b))
  {
    var commits, merges := CommitsOf(repo, cfg, b), MergesOf(b);
    forall i: nat | i < |merges| ensures PassesAt(cfg, commits, merges, i) {
      AttemptPasses(repo, cfg, b, i);
    }
  }

  /** Every root of any of the lists, once. */
  function Union(lists: seq<seq<string>>): seq<string> {
    if lists == [] then []
    else
      var front := Union(lists[..|lists| - 1]);
      front + Without(lists[|lists| - 1], front)
  }

  lemma {:induction false} WithoutDistinct(all: seq<string>, roots: seq<string>)
    requires Distinct(all)
    ensures Distinct(Without(all, roots))
  {
    if all != [] {
      var front, last := all[..|all| - 1], all[|all| - 1];
      WithoutDistinct(front, roots);
      WithoutMembers(front, roots);
      assert last !in Without(front, roots);
    }
  }

  lemma {:induction false} DistinctAppend(a: seq<string>, b: seq<string>)
    requires Distinct(a) && Distinct(b) && forall r :: r in b ==> r !in a
    ensures Distinct(a + b)
  {
    var all := a + b;
    forall i, j | 0 <= i < j < |all| ensures all[i] != all[j] {
      if i < |a| <= j {
        assert b[j - |a|] in b && a[i] in a;
      }
    }
  }

  lemma {:induction false} UnionDistinct(lists: seq<seq<string>>)
    requires forall i :: 0 <= i < |lists| ==> Distinct(lists[i])
    ensures Distinct(Union(lists))
  {
    if lists != [] {
      var front, last := lists[..|lists| - 1], lists[|lists| - 1];
      UnionDistinct(front);
      WithoutDistinct(last, Union(front));
      WithoutMembers(last, Union(front));
      DistinctAppend(Union(front), Without(last, Union(front)));
    }
  }

  lemma {:induction false} UnionHolds(lists: seq<seq<string>>, i: nat, r: string)
    requires i < |lists| && r in lists[i]
    ensures r in Union(lists)
  {
    var front, last := lists[..|lists| - 1], lists[|lists| - 1];
    WithoutMembers(last, Union(front));
    if i < |front| {
      UnionHolds(front, i, r);
    }
  }

  /** Replica counts, bounds and quantities of every commit are sensible. */
  ghost predicate Sensible(repo: Repo, cfg: Config, b: Branch)
    requires Grows(repo, cfg, b)
  {
    var commits := CommitsOf(repo, cfg, b);
    forall i :: 0 <= i < |commits| ==> SaneCommit(commits[i], cfg.cost.assumedNodeCount)
  }

  lemma {:induction false} BranchIsTracked(repo: Repo, cfg: Config, b: Branch)
    requires Grows(repo, cfg, b) && Sensible(repo, cfg, b)
    ensures Tracked(cfg, CommitsOf(repo, cfg, b), Union(b.roots))
  {
    UnionDistinct(b.roots);
    var commits := CommitsOf(repo, cfg, b);
    forall i, r | 0 <= i < |commits| && Holds(commits[i].tree, r) ensures r in Union(b.roots) {
      UnionHolds(b.roots, i, r);
    }
  }

  /** What a commit of the branch costs: the sum over its own roots. */
  ghost function Spend(f: Figure, repo: Repo, cfg: Config, b: Branch, i: nat): real
    requires Grows(repo, cfg, b) && i < |b.commits|
  {
    Total(f, CommitsOf(repo, cfg, b)[i], cfg.cost.assumedNodeCount, b.roots[i])
  }

  lemma {:induction false} SpendIsTotal(f: Figure, repo: Repo, cfg: Config, b: Branch, i: nat)
    requires Grows(repo, cfg, b) && Sensible(repo, cfg, b) && i < |b.commits|
    ensures Spend(f, repo, cfg, b, i)
            == Total(f, CommitsOf(repo, cfg, b)[i], cfg.cost.assumedNodeCount, Union(b.roots))
  {
    BranchIsTracked(repo, cfg, b);
    EstateListed(repo, cfg, b.commits[i], b.roots[i]);
    ListedIsWhole(f, CommitsOf(repo, cfg, b)[i], cfg.cost.assumedNodeCount, Union(b.roots), b.roots[i]);
  }

  /** Under an absolute limit, after `n` merges that the gate exited zero on, what the manifests
      commit to has grown by at most `n` times the limit, and what they authorise by at most `n`
      times the limit and the burst cap. */
  lemma {:induction false} ExitCodesBoundSpend(repo: Repo, cfg: Config, b: Branch, n: nat)
    requires IsValid(cfg) && cfg.cost.mode != Percent
    requires Grows(repo, cfg, b) && Sensible(repo, cfg, b) && n < |b.commits|
    ensures var limit, burst := cfg.cost.block.maxMonthlyDeltaUSD, cfg.cost.autoscaling.maxCeilingDeltaUSD;
            && WithinSteps(Spend(Floor, repo, cfg, b, 0), Spend(Floor, repo, cfg, b, n), n, limit)
            && WithinSteps(Spend(Ceiling, repo, cfg, b, 0), Spend(Ceiling, repo, cfg, b, n), n, limit + burst)
  {
    BranchIsHistory(repo, cfg, b);
    BranchIsTracked(repo, cfg, b);
    BudgetOverHistory(cfg, CommitsOf(repo, cfg, b), MergesOf(b), Union(b.roots), n);
    SpendIsTotal(Floor, repo, cfg, b, 0);
    SpendIsTotal(Floor, repo, cfg, b, n);
    SpendIsTotal(Ceiling, repo, cfg, b, 0);
    SpendIsTotal(Ceiling, repo, cfg, b, n);
  }

  /** Under a percentage limit, while the manifests cost something and the base tree can be listed,
      the authorised spend compounds. */
  lemma {:induction false} ExitCodesBoundGrowth(repo: Repo, cfg: Config, b: Branch, n: nat)
    requires IsValid(cfg) && cfg.cost.mode != Absolute
    requires Grows(repo, cfg, b) && Sensible(repo, cfg, b) && n < |b.commits|
    requires forall i :: 0 <= i < |b.attempts| ==> b.attempts[i].inputs.baseRoots.Ok?
    requires forall i :: 0 <= i < |b.commits| ==> Spend(Ceiling, repo, cfg, b, i) > 0.0
    ensures var percent, burst := cfg.cost.block.maxPercentIncrease, cfg.cost.autoscaling.maxCeilingDeltaUSD;
            WithinGrowth(Spend(Ceiling, repo, cfg, b, 0), Spend(Ceiling, repo, cfg, b, n), n, percent, burst)
  {
    BranchIsHistory(repo, cfg, b);
    BranchIsTracked(repo, cfg, b);
    forall i | 0 <= i < |b.commits|
      ensures Spend(Ceiling, repo, cfg, b, i) == Authorised(cfg, CommitsOf(repo, cfg, b)[i], Union(b.roots))
    {
      SpendIsTotal(Ceiling, repo, cfg, b, i);
    }
    CompoundOverHistory(cfg, CommitsOf(repo, cfg, b), MergesOf(b), Union(b.roots), n);
  }
}
