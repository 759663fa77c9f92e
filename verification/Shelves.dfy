/** Samples of changes to plain manifests: what they cost, and runs on them that exit zero. */
module Shelves {
  import opened Results
  import opened Manifests
  import opened Folds
  import opened Pricing
  import opened Cost
  import opened Config
  import opened Render
  import opened Paths
  import opened Gate
  import opened Budget
  import opened Snapshots
  import opened Diffs
  import opened Merges
  import opened Escapes
  import opened Toys

  // ---------------------------------------------------------------- plain manifests

  datatype Shelf = Shelf(d: string, u: string, x: string, y: string, z: string, rates: string)

  function ShelfLayout(n: Shelf): Layout {
    map[n.x := Place(n.d, false), n.y := Place(n.d, false), n.z := Place(n.d, false), n.rates := Place(n.u, false)]
  }

  ghost predicate IsShelf(n: Shelf) {
    && Describes(ShelfLayout(n)) && n.d != n.u && AtOrUnder(M, n.d) && AtOrUnder(M, n.u)
    && n.x != n.y && n.x != n.z && n.y != n.z && n.rates !in {n.x, n.y, n.z}
    && n.d !in {n.x, n.y, n.z, n.rates, CONFIG} && n.u !in {n.x, n.y, n.z, n.rates, CONFIG}
    && n.rates == Below(AT, RATES_NAME)
  }

  lemma {:induction false} ShelfDirs(files: Files, n: Shelf)
    requires n.x != n.y && n.x != n.z && n.y != n.z && n.rates !in {n.x, n.y, n.z}
    requires n.x in files && n.rates in files
    ensures KustDirs(files, ShelfLayout(n)) == {} && YamlDirs(files, ShelfLayout(n)) == {n.d, n.u}
  {
    var l := ShelfLayout(n);
    assert l[n.x].dir == n.d && l[n.rates].dir == n.u;
  }

  lemma {:induction false} FitsPlainDir(files: Files, l: Layout, d: string, u: string)
    requires Describes(l) && Fits(files, l) && KustDirs(files, l) == {} && YamlDirs(files, l) == {d, u}
    requires d != u && AtOrUnder(M, d) && AtOrUnder(M, u) && d !in files && u !in files
    ensures IsPlainDir(files, M, d, u)
  {
    FitsIsLaidOut(files, l);
    FitsBuilds(files, l);
    FitsPlains(files, l);
  }

  lemma {:induction false} ShelfIsPlain(files: Files, n: Shelf)
    requires IsShelf(n) && Fits(files, ShelfLayout(n)) && n.x in files && n.rates in files
    requires n.d !in files && n.u !in files
    ensures IsPlainDir(files, M, n.d, n.u)
  {
    ShelfDirs(files, n);
    FitsPlainDir(files, ShelfLayout(n), n.d, n.u);
  }

  lemma {:induction false} ShelfKeys(files: Files, n: Shelf)
    requires n.x != n.y && n.x != n.z && n.y != n.z && n.rates !in {n.x, n.y, n.z} && n.d != n.u && n.rates in files
    ensures var l := ShelfLayout(n);
            && (set p | p in files && p in l && l[p].dir == n.d) == files.Keys * {n.x, n.y, n.z}
            && (set p | p in files && p in l && l[p].dir == n.u) == {n.rates}
  {
  }

  lemma {:induction false} ShelfDirects(files: Files, n: Shelf)
    requires IsShelf(n) && Fits(files, ShelfLayout(n)) && n.rates in files
    ensures Direct(files, n.d).Keys == files.Keys * {n.x, n.y, n.z} && Direct(files, n.u).Keys == {n.rates}
  {
    FitsDirect(files, ShelfLayout(n), n.d);
    FitsDirect(files, ShelfLayout(n), n.u);
    ShelfKeys(files, n);
  }

  /** The shop of the plain samples: its builds claim what their file does, its configuration is fixed. */
  function PlainShop(cfg: Config): Repo {
    Shop(Toy(ONCE), Always(cfg))
  }

  function Amounts(n: Shelf, x: nat, y: nat, z: nat): RootCost {
    Three(n.x, x as real, n.y, y as real, n.z, z as real)
  }

  /** The files of a stocked shelf hold what they are said to. */
  ghost predicate IsStocked(files: Files, n: Shelf, x: nat, y: nat, z: nat) {
    && Fits(files, ShelfLayout(n)) && n.rates in files && files[n.rates] == "$"
    && n.d !in files && n.u !in files
    && n.x in files && files[n.x] == Sized(x)
    && (n.y in files ==> files[n.y] == Sized(y)) && (n.z in files ==> files[n.z] == Sized(z))
  }

  lemma {:induction false} StockedSize(files: Files, n: Shelf, x: nat, y: nat, z: nat, p: string) returns (k: nat)
    requires n.x != n.y && n.x != n.z && n.y != n.z && x > 0 && y > 0 && z > 0
    requires IsStocked(files, n, x, y, z) && p in files.Keys * {n.x, n.y, n.z}
    ensures k > 0 && files[p] == Sized(k) && Amounts(n, x, y, z)(p) == k as real
  {
    k := if p == n.x then x else if p == n.y then y else z;
  }

  lemma {:induction false} StockedItems(files: Files, n: Shelf, x: nat, y: nat, z: nat, nodes: int)
    requires IsShelf(n) && IsStocked(files, n, x, y, z) && x > 0 && y > 0 && z > 0
    ensures FilesWorth(Toy(ONCE), files, n.d, TableAt(1.0), nodes, Amounts(n, x, y, z))
  {
    ShelfDirects(files, n);
    forall p | p in Direct(files, n.d)
      ensures FileWorth(Toy(ONCE), files[p], TableAt(1.0), nodes, Amounts(n, x, y, z)(p))
    {
      var k := StockedSize(files, n, x, y, z, p);
      SizedAt(files, p, k, nodes, Amounts(n, x, y, z)(p));
    }
  }

  lemma {:induction false} ShopPaths(repo: Repo, cfg: Config, n: Shelf)
    requires repo.at == AT && cfg.paths == C.Paths("manifests", "policies", RATES_NAME) && IsShelf(n)
    ensures repo.Manifests(cfg) == M && repo.TablePath(cfg) == n.rates
  {
  }

  lemma {:induction false} StockedIsItemised(
      repo: Repo, cfg: Config, files: Files, n: Shelf, x: nat, y: nat, z: nat)
    requires IsShelf(n) && IsStocked(files, n, x, y, z) && x > 0 && y > 0 && z > 0
    requires repo == PlainShop(cfg) && cfg.paths == C.Paths("manifests", "policies", RATES_NAME)
    ensures Itemised(repo, cfg, files, TableAt(1.0), n.d, n.u, Amounts(n, x, y, z), 0.0)
    ensures LoadTable(repo.TableOf(cfg, files)) == Ok(TableAt(1.0)) && repo.ConfigOf(files) == Ok(cfg)
  {
    ShopPaths(repo, cfg, n);
    RatesLoad(repo, cfg, files);
    ShelfIsPlain(files, n);
    StockedItems(files, n, x, y, z, cfg.cost.assumedNodeCount);
    RatesAreWorthNothing(ONCE, 1.0, cfg.cost.assumedNodeCount);
    RatesWorthAt(repo.tool, files, n, TableAt(1.0), cfg.cost.assumedNodeCount);
  }

  // ---------------------------------------------------------------- the history of a stale head

  function Shelved(n: Shelf, x: nat): Files {
    map[CONFIG := "c", n.rates := "$", n.x := Sized(x)]
  }

  /** The fork, what one branch makes of it, what the other does, and both merged. */
  function TheFork(n: Shelf): Files {
    Shelved(n, 10)
  }

  function Theirs(n: Shelf): Files {
    TheFork(n)[n.y := Sized(25)]
  }

  function Ours(n: Shelf): Files {
    TheFork(n)[n.z := Sized(50)]
  }

  function BothMerged(n: Shelf): Files {
    Theirs(n)[n.z := Sized(50)]
  }

  lemma {:induction false} HistoryIsStocked(n: Shelf)
    requires IsShelf(n)
    ensures IsStocked(TheFork(n), n, 10, 25, 50) && IsStocked(Theirs(n), n, 10, 25, 50)
    ensures IsStocked(Ours(n), n, 10, 25, 50) && IsStocked(BothMerged(n), n, 10, 25, 50)
  {
  }

  /** The two pull requests: the first is made to the tip of the base; the second is still where the
      first began when that has been merged. */
  function First(n: Shelf): Proposal {
    Proposal(TheFork(n), TheFork(n), Theirs(n), Theirs(n))
  }

  function Second(n: Shelf): Proposal {
    Proposal(TheFork(n), Theirs(n), Ours(n), Ours(n))
  }

  lemma {:induction false} HistoryAdds(n: Shelf)
    requires n.x != n.y && n.x != n.z && n.y != n.z
    requires n.rates !in {n.x, n.y, n.z} && CONFIG !in {n.x, n.y, n.z, n.rates}
    ensures Added(TheFork(n), Theirs(n)) == {n.y} && Added(TheFork(n), Ours(n)) == {n.z}
    ensures forall p :: p in TheFork(n) ==> Alike(TheFork(n), Theirs(n), p) && Alike(TheFork(n), Ours(n), p)
    ensures IsMerge(First(n), Theirs(n)) && IsMerge(Second(n), BothMerged(n))
  {
  }

  lemma {:induction false} ShelfFile(n: Shelf, p: string)
    requires IsShelf(n) && p in {n.x, n.y, n.z}
    ensures Under(M, p) && DirOf(p) == n.d && IsYaml(p) && !IsKust(p)
  {
    assert ShelfLayout(n)[p] == Place(n.d, false);
    assert LiesAt(p, ShelfLayout(n)[p]);
  }

  lemma {:induction false} HistoryBothAdd(n: Shelf)
    requires IsShelf(n)
    ensures BothAdd(Second(n), BothMerged(n), M, n.d) && AddsTo(TheFork(n), Theirs(n), M, n.d)
    ensures Added(TheFork(n), Theirs(n)) == {n.y} && Added(TheFork(n), Ours(n)) == {n.z}
    ensures IsMerge(First(n), Theirs(n))
  {
    HistoryAdds(n);
    ShelfFile(n, n.y);
    ShelfFile(n, n.z);
  }

  lemma {:induction false} AmountsAre(n: Shelf)
    requires n.x != n.y && n.x != n.z && n.y != n.z
    ensures var value := Amounts(n, 10, 25, 50);
            SumOver(value, {n.x}) == 10.0 && SumOver(value, {n.y}) == 25.0 && SumOver(value, {n.z}) == 50.0
  {
    var value := Amounts(n, 10, 25, 50);
    SumOverOne(value, n.x);
    SumOverOne(value, n.y);
    SumOverOne(value, n.z);
  }

  lemma {:induction false} HistoryWorth(n: Shelf)
    requires IsShelf(n)
    ensures var value := Amounts(n, 10, 25, 50);
            && DirWorth(value, TheFork(n), n.d) == 10.0
            && SumOver(value, {n.y}) == 25.0 && SumOver(value, {n.z}) == 50.0
  {
    HistoryIsStocked(n);
    ShelfDirects(TheFork(n), n);
    assert TheFork(n).Keys * {n.x, n.y, n.z} == {n.x};
    AmountsAre(n);
  }

  /** The first pull request is sound and within the limit, and exits zero. */
  lemma {:induction false} FirstExitsZero(n: Shelf) returns (inputs: Inputs)
    requires IsShelf(n)
    ensures var repo, cfg := PlainShop(Budgeted(25.0)), Budgeted(25.0);
            && InputsOf(repo, cfg, First(n), {}, inputs) && Sound(repo, cfg, First(n), {}) && ExitsZero(inputs)
  {
    var repo, cfg, value := PlainShop(Budgeted(25.0)), Budgeted(25.0), Amounts(n, 10, 25, 50);
    LimitedIsValid(25.0, 1, RATES_NAME);
    ShopPaths(repo, cfg, n);
    HistoryIsStocked(n);
    StockedIsItemised(repo, cfg, TheFork(n), n, 10, 25, 50);
    StockedIsItemised(repo, cfg, Theirs(n), n, 10, 25, 50);
    PlainDirRoots(TheFork(n), M, n.d, n.u);
    PlainDirRoots(Theirs(n), M, n.d, n.u);
    inputs := HasRun(repo, cfg, First(n), {}, [n.d, n.u], [n.d, n.u], TableAt(1.0));
    FirstIsSound(n, inputs);
  }

  lemma {:induction false} FirstWorth(n: Shelf)
    requires IsShelf(n)
    ensures var repo, cfg := PlainShop(Budgeted(25.0)), Budgeted(25.0);
            && PlainWorth(repo, cfg, TheFork(n), TableAt(1.0), n.d, n.u, 10.0, 0.0)
            && PlainWorth(repo, cfg, Theirs(n), TableAt(1.0), n.d, n.u, 35.0, 0.0)
  {
    var repo, cfg, value := PlainShop(Budgeted(25.0)), Budgeted(25.0), Amounts(n, 10, 25, 50);
    HistoryIsStocked(n);
    StockedIsItemised(repo, cfg, TheFork(n), n, 10, 25, 50);
    StockedIsItemised(repo, cfg, Theirs(n), n, 10, 25, 50);
    HistoryBothAdd(n);
    HistoryWorth(n);
    AddedWorth(TheFork(n), Theirs(n), M, n.d, n.u, value);
    ItemisedWorth(repo, cfg, TheFork(n), TableAt(1.0), n.d, n.u, value, 0.0);
    ItemisedWorth(repo, cfg, Theirs(n), TableAt(1.0), n.d, n.u, value, 0.0);
  }

  lemma {:induction false} FirstIsSound(n: Shelf, inputs: Inputs)
    requires IsShelf(n) && Setting(PlainShop(Budgeted(25.0)), Budgeted(25.0), First(n), {}, inputs, TableAt(1.0))
    ensures Sound(PlainShop(Budgeted(25.0)), Budgeted(25.0), First(n), {}) && ExitsZero(inputs)
  {
    var repo, cfg := PlainShop(Budgeted(25.0)), Budgeted(25.0);
    ShopPaths(repo, cfg, n);
    HistoryIsStocked(n);
    FitsPlainNames(repo, cfg, First(n), ShelfLayout(n));
    HistoryBothAdd(n);
    AddedDiffers(TheFork(n), Theirs(n), M, n.d);
    RatesUnder(n);
    FirstWorth(n);
    PlainIsSound(repo, cfg, First(n), inputs, TableAt(1.0), n.d, n.u, 10.0, 35.0, 0.0);
  }

  lemma {:induction false} RatesUnder(n: Shelf)
    requires IsShelf(n)
    ensures Under(M, n.rates)
  {
    assert LiesAt(n.rates, ShelfLayout(n)[n.rates]);
  }

  lemma {:induction false} SecondHasRun(n: Shelf) returns (inputs: Inputs)
    requires IsShelf(n)
    ensures Setting(PlainShop(Budgeted(25.0)), Budgeted(25.0), Second(n), {}, inputs, TableAt(1.0))
  {
    var repo, cfg := PlainShop(Budgeted(25.0)), Budgeted(25.0);
    LimitedIsValid(25.0, 1, RATES_NAME);
    ShopPaths(repo, cfg, n);
    HistoryIsStocked(n);
    StockedIsItemised(repo, cfg, Theirs(n), n, 10, 25, 50);
    StockedIsItemised(repo, cfg, Ours(n), n, 10, 25, 50);
    PlainDirRoots(Theirs(n), M, n.d, n.u);
    PlainDirRoots(Ours(n), M, n.d, n.u);
    inputs := HasRun(repo, cfg, Second(n), {}, [n.d, n.u], [n.d, n.u], TableAt(1.0));
  }

  lemma {:induction false} SecondIsItemised(n: Shelf)
    requires IsShelf(n)
    ensures var repo, cfg, value := PlainShop(Budgeted(25.0)), Budgeted(25.0), Amounts(n, 10, 25, 50);
            && Itemised(repo, cfg, TheFork(n), TableAt(1.0), n.d, n.u, value, 0.0)
            && Itemised(repo, cfg, Theirs(n), TableAt(1.0), n.d, n.u, value, 0.0)
            && Itemised(repo, cfg, Ours(n), TableAt(1.0), n.d, n.u, value, 0.0)
  {
    var repo, cfg := PlainShop(Budgeted(25.0)), Budgeted(25.0);
    HistoryIsStocked(n);
    StockedIsItemised(repo, cfg, TheFork(n), n, 10, 25, 50);
    StockedIsItemised(repo, cfg, Theirs(n), n, 10, 25, 50);
    StockedIsItemised(repo, cfg, Ours(n), n, 10, 25, 50);
  }

  lemma {:induction false} SecondIsBehind(n: Shelf)
    requires IsShelf(n)
    ensures var repo, cfg, merged := PlainShop(Budgeted(25.0)), Budgeted(25.0), BothMerged(n);
            && PlainNames(repo, cfg, Second(n)) && BothAdd(Second(n), merged, repo.Manifests(cfg), n.d)
            && n.d !in merged && n.u !in merged && repo.TableOf(cfg, merged) == repo.TableOf(cfg, Theirs(n))
  {
    var repo, cfg := PlainShop(Budgeted(25.0)), Budgeted(25.0);
    ShopPaths(repo, cfg, n);
    HistoryIsStocked(n);
    FitsPlainNames(repo, cfg, Second(n), ShelfLayout(n));
    HistoryBothAdd(n);
  }

  /** The second is judged at 60 less 35, exits zero, and merging it adds 50. */
  lemma {:induction false} SecondExitsZero(n: Shelf, inputs: Inputs)
    requires IsShelf(n) && Setting(PlainShop(Budgeted(25.0)), Budgeted(25.0), Second(n), {}, inputs, TableAt(1.0))
    ensures var repo, cfg := PlainShop(Budgeted(25.0)), Budgeted(25.0);
            && ExitsZero(inputs)
            && CostsExactly(repo, cfg, Theirs(n), [n.d, n.u], 35.0)
            && CostsExactly(repo, cfg, BothMerged(n), [n.d, n.u], 85.0)
  {
    var repo, cfg, value := PlainShop(Budgeted(25.0)), Budgeted(25.0), Amounts(n, 10, 25, 50);
    SecondIsItemised(n);
    SecondIsBehind(n);
    HistoryBothAdd(n);
    HistoryWorth(n);
    StaleHeadPasses(repo, cfg, Second(n), BothMerged(n), inputs, TableAt(1.0), n.d, n.u, value, 0.0);
  }

  lemma {:induction false} ForkCosts(n: Shelf)
    requires IsShelf(n)
    ensures CostsExactly(PlainShop(Budgeted(25.0)), Budgeted(25.0), TheFork(n), [n.d, n.u], 10.0)
  {
    FirstWorth(n);
    PlainCosts(PlainShop(Budgeted(25.0)), Budgeted(25.0), TheFork(n), TableAt(1.0), n.d, n.u, 10.0, 0.0);
  }

  /** Two merges that exit zero under a limit of 25 take the manifests from 10 to 85. */
  lemma {:induction false} StaleHistory(n: Shelf) returns (first: Inputs, second: Inputs)
    requires IsShelf(n)
    ensures var repo, cfg := PlainShop(Budgeted(25.0)), Budgeted(25.0);
            && InputsOf(repo, cfg, First(n), {}, first) && ExitsZero(first) && IsMerge(First(n), Theirs(n))
            && InputsOf(repo, cfg, Second(n), {}, second) && ExitsZero(second)
            && IsMerge(Second(n), BothMerged(n)) && Second(n).base == Theirs(n)
            && CostsExactly(repo, cfg, TheFork(n), [n.d, n.u], 10.0)
            && CostsExactly(repo, cfg, BothMerged(n), [n.d, n.u], 85.0)
            && !WithinSteps(10.0, 85.0, 2, cfg.cost.block.maxMonthlyDeltaUSD)
  {
    first := FirstExitsZero(n);
    second := SecondHasRun(n);
    SecondExitsZero(n, second);
    ForkCosts(n);
    HistoryBothAdd(n);
  }

  // ---------------------------------------------------------------- one plain manifest

  /** A shelf with one manifest, among other files that are not manifests. */
  ghost predicate HoldsOne(files: Files, n: Shelf) {
    && Fits(files, ShelfLayout(n)) && n.rates in files && files[n.rates] == "$"
    && n.x in files && n.y !in files && n.z !in files && n.d !in files && n.u !in files
  }

  lemma {:induction false} RatesWorthAt(tool: Renderer, files: Files, n: Shelf, table: Table, nodes: int)
    requires IsShelf(n) && Fits(files, ShelfLayout(n)) && n.rates in files
    requires FileWorth(tool, files[n.rates], table, nodes, 0.0)
    ensures Worth(Plain(tool, Direct(files, n.u)), table, nodes, 0.0)
  {
    ShelfDirects(files, n);
    OneFileWorth(tool, files, n.u, n.rates, table, nodes, 0.0);
  }

  lemma {:induction false} OneWorthAt(tool: Renderer, files: Files, n: Shelf, table: Table, nodes: int, amount: real)
    requires IsShelf(n) && HoldsOne(files, n) && FileWorth(tool, files[n.x], table, nodes, amount)
    ensures Worth(Plain(tool, Direct(files, n.d)), table, nodes, amount)
  {
    ShelfDirects(files, n);
    assert files.Keys * {n.x, n.y, n.z} == {n.x};
    OneFileWorth(tool, files, n.d, n.x, table, nodes, amount);
  }

  /** The commit has the configuration, the rates of the table and one manifest, worth the amount. */
  ghost predicate IsOne(repo: Repo, cfg: Config, files: Files, n: Shelf, table: Table, amount: real) {
    && repo.Manifests(cfg) == M && repo.ConfigOf(files) == Ok(cfg) && LoadTable(repo.TableOf(cfg, files)) == Ok(table)
    && HoldsOne(files, n) && FileWorth(repo.tool, files[n.x], table, cfg.cost.assumedNodeCount, amount)
    && FileWorth(repo.tool, "$", table, cfg.cost.assumedNodeCount, 0.0)
  }

  lemma {:induction false} OneWorth(repo: Repo, cfg: Config, files: Files, n: Shelf, table: Table, amount: real)
    requires IsShelf(n) && IsOne(repo, cfg, files, n, table, amount)
    ensures PlainWorth(repo, cfg, files, table, n.d, n.u, amount, 0.0)
  {
    ShelfIsPlain(files, n);
    OneWorthAt(repo.tool, files, n, table, cfg.cost.assumedNodeCount, amount);
    RatesWorthAt(repo.tool, files, n, table, cfg.cost.assumedNodeCount);
  }

  lemma {:induction false} OneRoots(repo: Repo, cfg: Config, files: Files, n: Shelf, table: Table, amount: real)
    requires IsShelf(n) && IsOne(repo, cfg, files, n, table, amount)
    ensures AreRoots(files, M, [n.d, n.u]) && repo.Tabled(cfg, files)
  {
    ShelfIsPlain(files, n);
    PlainDirRoots(files, M, n.d, n.u);
  }

  lemma {:induction false} OneValued(repo: Repo, cfg: Config, files: Files, n: Shelf, table: Table, amount: real)
    requires IsShelf(n) && IsOne(repo, cfg, files, n, table, amount)
    ensures Valued(repo, cfg, files, table, [n.d, n.u], Two(n.d, amount, n.u, 0.0))
    ensures Sum(Two(n.d, amount, n.u, 0.0), [n.d, n.u]) == amount
  {
    OneWorth(repo, cfg, files, n, table, amount);
    OneRoots(repo, cfg, files, n, table, amount);
    PlainSeen(repo, cfg, files, table, n.d, n.u, amount, 0.0);
    TwoSums(n.d, n.u, amount, 0.0);
  }

  /** A change from one such commit to another has a run, with the configuration of its head. */
  lemma {:induction false} OneRun(
      repo: Repo, baseCfg: Config, cfg: Config, base: Files, head: Files, n: Shelf, before: Table, after: Table,
      was: real, now: real) returns (inputs: Inputs)
    requires IsShelf(n) && IsValid(cfg) && baseCfg.paths == cfg.paths
    requires IsOne(repo, baseCfg, base, n, before, was) && IsOne(repo, cfg, head, n, after, now)
    ensures InputsOf(repo, cfg, Change(base, head), {}, inputs) && AllAnswer(inputs) && inputs.engine == NO_COMPLAINTS
  {
    OneRoots(repo, baseCfg, base, n, before, was);
    OneRoots(repo, cfg, head, n, after, now);
    inputs := Answerable(repo, cfg, Change(base, head), {}, [n.d, n.u], [n.d, n.u]);
  }

  // ---------------------------------------------------------------- rates outside the manifests

  function Beside(n: Shelf, rates: string, k: nat): Files {
    map[CONFIG := "c", RATES_BESIDE := rates, n.rates := "$", n.x := Sized(k)]
  }

  ghost predicate IsBeside(n: Shelf) {
    && IsShelf(n) && !Under(M, RATES_BESIDE) && !Under(M, CONFIG)
    && RATES_BESIDE !in {CONFIG, n.rates, n.x, n.y, n.z, n.d, n.u}
  }

  lemma {:induction false} BesideHolds(n: Shelf, rates: string, k: nat)
    requires IsBeside(n)
    ensures HoldsOne(Beside(n, rates, k), n) && Beside(n, rates, k)[n.x] == Sized(k)
    ensures CONFIG in Beside(n, rates, k) && RATES_BESIDE in Beside(n, rates, k)
    ensures Beside(n, rates, k)[RATES_BESIDE] == rates
  {
  }

  lemma {:induction false} BesideDiffers(n: Shelf, was: string, now: string, k: nat)
    requires IsBeside(n)
    ensures forall p :: p != RATES_BESIDE ==> Alike(Beside(n, was, k), Beside(n, now, k), p)
  {
  }

  function BesideCfg(limit: real): Config {
    Limited(limit, 1, "rates")
  }

  /** The rates of these: a table as long as a gibibyte costs. */
  lemma {:induction false} BesideIsOne(n: Shelf, limit: real, rates: string, k: nat, price: real, amount: real)
    requires IsBeside(n) && k > 0 && |rates| as real == price
    requires amount == (k as real) * price
    ensures IsOne(PlainShop(BesideCfg(limit)), BesideCfg(limit), Beside(n, rates, k), n, TableAt(price), amount)
    ensures PlainShop(BesideCfg(limit)).TablePath(BesideCfg(limit)) == RATES_BESIDE
  {
    BesideHolds(n, rates, k);
    assert Validates(TableAt(price));
    SizedIsWorth(ONCE, price, 1, k, amount);
    RatesAreWorthNothing(ONCE, price, 1);
  }

  lemma {:induction false} RatesRun(
      repo: Repo, cfg: Config, base: Files, head: Files, n: Shelf, before: Table, after: Table, was: real, now: real)
      returns (inputs: Inputs)
    requires IsShelf(n) && IsValid(cfg) && !Under(M, repo.TablePath(cfg))
    requires IsOne(repo, cfg, base, n, before, was) && IsOne(repo, cfg, head, n, after, now)
    requires forall p :: p != repo.TablePath(cfg) ==> Alike(base, head, p)
    ensures InputsOf(repo, cfg, Change(base, head), {}, inputs) && ExitsZero(inputs)
    ensures CostsExactly(repo, cfg, base, [n.d, n.u], was) && CostsExactly(repo, cfg, head, [n.d, n.u], now)
  {
    inputs := OneRun(repo, cfg, cfg, base, head, n, before, after, was, now);
    OneValued(repo, cfg, base, n, before, was);
    OneValued(repo, cfg, head, n, after, now);
    RatesAlonePass(
      repo, cfg, Change(base, head), inputs, before, after, [n.d, n.u],
      Two(n.d, was, n.u, 0.0), Two(n.d, now, n.u, 0.0));
  }

  lemma {:induction false} BesideDoubled(n: Shelf, limit: real, k: nat, now: real)
    requires IsBeside(n) && k > 0 && now == (k as real) * 2.0
    ensures IsOne(PlainShop(BesideCfg(limit)), BesideCfg(limit), Beside(n, "$$", k), n, TableAt(2.0), now)
  {
    assert |"$$"| as real == 2.0;
    BesideIsOne(n, limit, "$$", k, 2.0, now);
  }

  /** Doubling the rates doubles what everything costs, and exits zero. */
  lemma {:induction false} RatesSample(n: Shelf, limit: real, k: nat, now: real) returns (inputs: Inputs)
    requires IsBeside(n) && k > 0 && limit > 0.0 && now == (k as real) * 2.0
    ensures var repo, cfg := PlainShop(BesideCfg(limit)), BesideCfg(limit);
            var c := Change(Beside(n, "$", k), Beside(n, "$$", k));
            && InputsOf(repo, cfg, c, {}, inputs) && ExitsZero(inputs)
            && CostsExactly(repo, cfg, c.base, [n.d, n.u], k as real)
            && CostsExactly(repo, cfg, c.head, [n.d, n.u], now)
  {
    LimitedIsValid(limit, 1, "rates");
    BesideIsOne(n, limit, "$", k, 1.0, k as real);
    BesideDoubled(n, limit, k, now);
    BesideDiffers(n, "$", "$$", k);
    inputs := RatesRun(
      PlainShop(BesideCfg(limit)), BesideCfg(limit), Beside(n, "$", k), Beside(n, "$$", k), n,
      TableAt(1.0), TableAt(2.0), k as real, now);
  }

  // ---------------------------------------------------------------- another configuration

  function Configured(n: Shelf, config: string, contents: string): Files {
    map[CONFIG := config, n.rates := "$", n.x := contents]
  }

  lemma {:induction false} ConfiguredHolds(n: Shelf, config: string, contents: string)
    requires IsShelf(n)
    ensures HoldsOne(Configured(n, config, contents), n) && Configured(n, config, contents)[n.x] == contents
    ensures CONFIG in Configured(n, config, contents) && Configured(n, config, contents)[CONFIG] == config
  {
  }

  lemma {:induction false} ConfiguredIsOne(
      tool: Renderer, configure: Configure, cfg: Config, n: Shelf, config: string, contents: string, amount: real)
    requires IsShelf(n) && configure(config) == Ok(cfg) && cfg.paths == C.Paths("manifests", "policies", RATES_NAME)
    requires FileWorth(tool, contents, TableAt(1.0), cfg.cost.assumedNodeCount, amount)
    requires FileWorth(tool, "$", TableAt(1.0), cfg.cost.assumedNodeCount, 0.0)
    ensures IsOne(Shop(tool, configure), cfg, Configured(n, config, contents), n, TableAt(1.0), amount)
  {
    ConfiguredHolds(n, config, contents);
    ShopPaths(Shop(tool, configure), cfg, n);
    RatesLoad(Shop(tool, configure), cfg, Configured(n, config, contents));
  }

  function Daemon(): Object {
    map[
      "kind" := Str(Text("DaemonSet", None)),
      "spec" := Fields("template", Fields("spec", OneCore()))]
  }

  lemma {:induction false} DaemonReserves(table: Table, nodes: int)
    ensures IsReserving(table, nodes, Daemon(), nodes, Resources(1.0, 0.0, 0.0))
  {
    OneCoreHolds(table);
    assert KindOf(Daemon()) == "DaemonSet" && PodSpecFrom(SpecOf(Daemon())) == OneCore();
  }

  /** Every file asks for a core on every node; the rate table for nothing. */
  function DaemonsIn(contents: string): Result<seq<Object>, string> {
    if contents == "$" then Ok([]) else Ok([Daemon()])
  }

  lemma {:induction false} DaemonWorth(table: Table, nodes: int)
    ensures Unscaled([Daemon()])
    ensures Worth(Rendered([Daemon()]), table, nodes, CostOf(table, Resources(1.0, 0.0, 0.0).Scale(nodes as real)))
  {
    DaemonReserves(table, nodes);
    ReservedWorth(table, nodes, Daemon(), nodes, Resources(1.0, 0.0, 0.0));
  }

  lemma {:induction false} DaemonIsWorth(tool: Renderer, contents: string, nodes: int)
    requires tool.decode == DaemonsIn && contents != "$"
    ensures FileWorth(tool, contents, TableAt(1.0), nodes, nodes as real)
    ensures FileWorth(tool, "$", TableAt(1.0), nodes, 0.0)
  {
    DaemonWorth(TableAt(1.0), nodes);
    CoresCost(1.0, nodes);
    NothingIsWorthNothing(TableAt(1.0), nodes);
  }

  /** The configuration of these assumes as many nodes as it is long. */
  const NODES: Configure := (contents: string) => Ok(Limited(25.0, |contents|, RATES_NAME))

  function DaemonShop(): Repo {
    Shop(Toy(ONCE).(decode := DaemonsIn), NODES)
  }

  lemma {:induction false} DaemonIsOne(n: Shelf, nodes: nat)
    requires IsShelf(n)
    ensures IsOne(
              DaemonShop(), Limited(25.0, nodes, RATES_NAME), Configured(n, Sized(nodes), "d"), n, TableAt(1.0),
              nodes as real)
  {
    var tool := Toy(ONCE).(decode := DaemonsIn);
    DaemonIsWorth(tool, "d", nodes);
    ConfiguredIsOne(tool, NODES, Limited(25.0, nodes, RATES_NAME), n, Sized(nodes), "d", nodes as real);
  }

  lemma {:induction false} ConfigRun(
      repo: Repo, baseCfg: Config, cfg: Config, base: Files, head: Files, n: Shelf, table: Table, was: real, now: real)
      returns (inputs: Inputs)
    requires IsShelf(n) && IsValid(cfg) && baseCfg.paths == cfg.paths && !Under(M, repo.configPath)
    requires IsOne(repo, baseCfg, base, n, table, was) && IsOne(repo, cfg, head, n, table, now)
    requires forall p :: p != repo.configPath ==> Alike(base, head, p)
    ensures InputsOf(repo, cfg, Change(base, head), {}, inputs) && ExitsZero(inputs)
    ensures CostsExactly(repo, baseCfg, base, [n.d, n.u], was) && CostsExactly(repo, cfg, head, [n.d, n.u], now)
  {
    inputs := OneRun(repo, baseCfg, cfg, base, head, n, table, table, was, now);
    OneValued(repo, baseCfg, base, n, table, was);
    OneValued(repo, cfg, head, n, table, now);
    ConfigAlonePasses(
      repo, baseCfg, cfg, Change(base, head), inputs, table, [n.d, n.u],
      Two(n.d, was, n.u, 0.0), Two(n.d, now, n.u, 0.0));
  }

  lemma {:induction false} ConfiguredDiffers(n: Shelf, was: string, now: string, contents: string)
    requires IsShelf(n)
    ensures forall p :: p != CONFIG ==> Alike(Configured(n, was, contents), Configured(n, now, contents), p)
  {
  }

  /** A daemon costs as much as nodes are assumed; a change that assumes any other number of them exits
      zero. */
  lemma {:induction false} NodesSample(n: Shelf, j: nat, k: nat) returns (inputs: Inputs)
    requires IsShelf(n) && j > 0 && k > 0
    ensures var repo, cfg := DaemonShop(), Limited(25.0, k, RATES_NAME);
            var c := Change(Configured(n, Sized(j), "d"), Configured(n, Sized(k), "d"));
            && InputsOf(repo, cfg, c, {}, inputs) && ExitsZero(inputs)
            && CostsExactly(repo, Limited(25.0, j, RATES_NAME), c.base, [n.d, n.u], j as real)
            && CostsExactly(repo, cfg, c.head, [n.d, n.u], k as real)
  {
    LimitedIsValid(25.0, k, RATES_NAME);
    DaemonIsOne(n, j);
    DaemonIsOne(n, k);
    ConfiguredDiffers(n, Sized(j), Sized(k), "d");
    inputs := ConfigRun(
      DaemonShop(), Limited(25.0, j, RATES_NAME), Limited(25.0, k, RATES_NAME),
      Configured(n, Sized(j), "d"), Configured(n, Sized(k), "d"), n, TableAt(1.0), j as real, k as real);
  }

  /** The configuration of these limits the increase to what it is long. */
  const LIMITS: Configure := (contents: string) => Ok(Budgeted(|contents| as real))

  function LimitShop(): Repo {
    Shop(Toy(ONCE), LIMITS)
  }

  lemma {:induction false} LimitedIsOne(n: Shelf, limit: nat, k: nat)
    requires IsShelf(n) && k > 0
    ensures IsOne(
              LimitShop(), Budgeted(limit as real), Configured(n, Sized(limit), Sized(k)), n, TableAt(1.0), k as real)
  {
    SizedIsWorth(ONCE, 1.0, 1, k, k as real);
    RatesAreWorthNothing(ONCE, 1.0, 1);
    ConfiguredIsOne(Toy(ONCE), LIMITS, Budgeted(limit as real), n, Sized(limit), Sized(k), k as real);
  }

  /** Both configurations read the same files, and price them alike. */
  predicate DifferInLimits(a: Config, b: Config) {
    a.paths == b.paths && a.cost.assumedNodeCount == b.cost.assumedNodeCount
  }

  lemma {:induction false} WorthUnderBoth(
      repo: Repo, baseCfg: Config, cfg: Config, files: Files, n: Shelf, table: Table, amount: real)
    requires IsShelf(n) && IsOne(repo, baseCfg, files, n, table, amount) && DifferInLimits(baseCfg, cfg)
    ensures PlainWorth(repo, cfg, files, table, n.d, n.u, amount, 0.0)
  {
    OneWorth(repo, baseCfg, files, n, table, amount);
  }

  lemma {:induction false} RaisedRun(
      repo: Repo, baseCfg: Config, cfg: Config, base: Files, head: Files, n: Shelf, table: Table, was: real, now: real)
      returns (inputs: Inputs)
    requires IsShelf(n) && IsValid(cfg) && cfg.cost.mode == Absolute && DifferInLimits(baseCfg, cfg)
    requires IsOne(repo, baseCfg, base, n, table, was) && IsOne(repo, cfg, head, n, table, now)
    ensures Setting(repo, cfg, Change(base, head), {}, inputs, table)
  {
    inputs := OneRun(repo, baseCfg, cfg, base, head, n, table, table, was, now);
  }

  lemma {:induction false} RaisedSlips(
      repo: Repo, baseCfg: Config, cfg: Config, base: Files, head: Files, n: Shelf, table: Table, was: real, now: real,
      inputs: Inputs)
    requires IsShelf(n) && Setting(repo, cfg, Change(base, head), {}, inputs, table) && DifferInLimits(baseCfg, cfg)
    requires IsOne(repo, baseCfg, base, n, table, was) && IsOne(repo, cfg, head, n, table, now) && repo.at == AT
    requires DiffersIn(base, head, M, n.d) && now - was <= cfg.cost.block.maxMonthlyDeltaUSD
    ensures ExitsZero(inputs)
    ensures CostsExactly(repo, cfg, base, [n.d, n.u], was + 0.0) && CostsExactly(repo, cfg, head, [n.d, n.u], now + 0.0)
  {
    WorthUnderBoth(repo, baseCfg, cfg, base, n, table, was);
    OneWorth(repo, cfg, head, n, table, now);
    FitsPlainNames(repo, cfg, Change(base, head), ShelfLayout(n));
    RaisedLimitPasses(repo, baseCfg, cfg, Change(base, head), inputs, table, n.d, n.u, was, now, 0.0);
  }

  lemma {:induction false} SizesDiffer(n: Shelf, was: string, now: string, j: nat, k: nat)
    requires IsShelf(n) && j != k
    ensures DiffersIn(Configured(n, was, Sized(j)), Configured(n, now, Sized(k)), M, n.d)
  {
    var base, head := Configured(n, was, Sized(j)), Configured(n, now, Sized(k));
    ConfiguredHolds(n, was, Sized(j));
    ConfiguredHolds(n, now, Sized(k));
    ShelfFile(n, n.x);
    assert |Sized(j)| != |Sized(k)| && !Alike(base, head, n.x);
    forall p | Under(M, p) && !Alike(base, head, p) ensures DirOf(p) == n.d {
      assert p in {n.x, CONFIG};
    }
  }

  /** A change that adds as much as the limit it brings exits zero, whatever the limit was. */
  lemma {:induction false} RaisedSample(n: Shelf, limit: nat, raised: nat, j: nat, k: nat) returns (inputs: Inputs)
    requires IsShelf(n) && raised > 0 && 0 < j < k && k as real - j as real <= raised as real
    ensures var repo, cfg := LimitShop(), Budgeted(raised as real);
            var c := Change(Configured(n, Sized(limit), Sized(j)), Configured(n, Sized(raised), Sized(k)));
            && repo.ConfigOf(c.base) == Ok(Budgeted(limit as real))
            && InputsOf(repo, cfg, c, {}, inputs) && ExitsZero(inputs)
            && CostsExactly(repo, cfg, c.base, [n.d, n.u], j as real + 0.0)
            && CostsExactly(repo, cfg, c.head, [n.d, n.u], k as real + 0.0)
  {
    var was, cfg := Budgeted(limit as real), Budgeted(raised as real);
    var base, head := Configured(n, Sized(limit), Sized(j)), Configured(n, Sized(raised), Sized(k));
    LimitedIsValid(raised as real, 1, RATES_NAME);
    LimitedIsOne(n, limit, j);
    LimitedIsOne(n, raised, k);
    SizesDiffer(n, Sized(limit), Sized(raised), j, k);
    inputs := RaisedRun(LimitShop(), was, cfg, base, head, n, TableAt(1.0), j as real, k as real);
    RaisedSlips(LimitShop(), was, cfg, base, head, n, TableAt(1.0), j as real, k as real, inputs);
  }

  // ---------------------------------------------------------------- a name that git quotes

  /** A manifest of the shelf's directory with such a name. */
  ghost predicate IsQuoted(n: Shelf, f: string) {
    var p := Join(AT, f);
    && NeedsQuotes(f) && Under(M, p) && DirOf(p) == n.d && IsYaml(p) && !IsKust(p) && p !in {n.d, n.u, CONFIG}
  }

  lemma {:induction false} QuotedIsNew(n: Shelf, f: string)
    requires IsShelf(n) && IsQuoted(n, f)
    ensures Join(AT, f) !in ShelfLayout(n)
  {
    var l, p := ShelfLayout(n), Join(AT, f);
    if p in l {
      assert LiesAt(p, l[p]);
      var g :| p == Join(AT, g) && IsPlainName(g);
      JoinTells(AT, f, g);
      assert false;
    }
  }

  lemma {:induction false} QuotedAdds(base: Files, n: Shelf, f: string, contents: string)
    requires IsShelf(n) && IsQuoted(n, f) && HoldsOne(base, n)
    ensures var p := Join(AT, f);
            var head := base[p := contents];
            && p !in base && AddsTo(base, head, M, n.d) && Added(base, head) == {p} && n.d !in head && n.u !in head
            && forall q :: q != p ==> Alike(base, head, q)
  {
    QuotedIsNew(n, f);
  }

  lemma {:induction false} QuotedDiffers(repo: Repo, cfg: Config, base: Files, head: Files, f: string)
    requires repo.at == AT && repo.Manifests(cfg) == M && Under(M, Join(AT, f))
    requires !Alike(base, head, Join(AT, f)) && forall q :: q != Join(AT, f) ==> Alike(base, head, q)
    ensures forall g :: Differs(repo, cfg, Change(base, head), g) <==> g == f
  {
    forall g ensures Differs(repo, cfg, Change(base, head), g) <==> g == f {
      if Join(AT, g) == Join(AT, f) {
        JoinTells(AT, f, g);
      }
    }
  }

  /** A directory no file is in or below renders to nothing. */
  lemma {:induction false} NothingThere(tool: Renderer, files: Files, d: string)
    requires d != "" && d !in {".", "/"} && forall p :: p in files ==> !(d <= p)
    ensures RenderAt(tool, files, d) == Rendered([])
  {
    forall name, p | p in files ensures !AtOrUnder(Join(d, name), p) {
      assert d <= Join(d, name) && Join(d, name) <= Join(d, name) + "/";
    }
    forall p | p in files ensures DirOf(p) != d {
      assert DirOf(p) <= p || DirOf(p) in {".", "/"};
    }
  }

  lemma {:induction false} SlashIsKept(p: string)
    requires '/' in p
    ensures '/' in EscapeAll(p)
  {
    if p[0] == '/' {
      assert Escape(p[0]) == "/";
      assert EscapeAll(p)[0] == '/';
    } else {
      assert '/' in p[1..];
      SlashIsKept(p[1..]);
    }
  }

  /** The directory of the quoted name begins with the quote. */
  lemma {:induction false} QuotedDirIs(repo: Repo, f: string)
    requires NeedsQuotes(f) && '/' in f
    ensures Join(repo.at, "\"") <= QuotedDir(repo, f)
  {
    var p := Join(repo.at, Printed(f));
    SlashIsKept(f);
    var k :| 0 <= k < |EscapeAll(f)| && EscapeAll(f)[k] == '/';
    assert p[|repo.at| + 2 + k] == '/';
    assert LastSlash(p) >= |repo.at| + 2 + k;
    assert p[..|repo.at| + 2] == Join(repo.at, "\"");
  }

  lemma {:induction false} NoneQuoted(tool: Renderer, files: Files, d: string)
    requires Join(AT, "\"") <= d && forall p :: p in files ==> |p| > |AT| + 1 && p[|AT| + 1] != '"'
    ensures RenderAt(tool, files, d) == Rendered([])
  {
    forall p | p in files ensures !(d <= p) {
      assert d[|AT| + 1] == '"';
    }
    NothingThere(tool, files, d);
  }

  lemma {:induction false} QuotedHeadIsPlain(base: Files, n: Shelf, f: string, contents: string)
    requires IsShelf(n) && IsQuoted(n, f) && HoldsOne(base, n)
    ensures var head := base[Join(AT, f) := contents];
            && IsPlainDir(head, M, n.d, n.u) && Direct(head, n.u) == Direct(base, n.u)
            && Direct(head, n.d).Keys == Direct(base, n.d).Keys + {Join(AT, f)}
  {
    QuotedAdds(base, n, f, contents);
    ShelfIsPlain(base, n);
    AddedStaysPlain(base, base[Join(AT, f) := contents], M, n.d, n.u);
  }

  lemma {:induction false} OneDirect(files: Files, n: Shelf)
    requires IsShelf(n) && HoldsOne(files, n)
    ensures Direct(files, n.d).Keys == {n.x}
  {
    ShelfDirects(files, n);
    assert files.Keys * {n.x, n.y, n.z} == {n.x};
  }

  lemma {:induction false} ReadsAlike(repo: Repo, cfg: Config, base: Files, head: Files)
    requires Alike(base, head, repo.configPath) && Alike(base, head, repo.TablePath(cfg))
    ensures repo.ConfigOf(head) == repo.ConfigOf(base) && repo.TableOf(cfg, head) == repo.TableOf(cfg, base)
  {
  }

  lemma {:induction false} SumOverTwo(x: string, y: string, a: real, b: real)
    requires x != y
    ensures SumOver(Two(x, a, y, b), {x, y}) == a + b
  {
    var value := Two(x, a, y, b);
    SumOverUnion(value, {x}, {y});
    SumOverOne(value, x);
    SumOverOne(value, y);
    assert {x} + {y} == {x, y};
  }

  lemma {:induction false} TwoFilesWorth(
      tool: Renderer, files: Files, d: string, x: string, y: string, table: Table, nodes: int, a: real, b: real)
    requires x != y && Direct(files, d).Keys == {x, y}
    requires FileWorth(tool, files[x], table, nodes, a) && FileWorth(tool, files[y], table, nodes, b)
    ensures Worth(Plain(tool, Direct(files, d)), table, nodes, a + b)
  {
    WorthOfFiles(tool, Direct(files, d), table, nodes, Two(x, a, y, b));
    SumOverTwo(x, y, a, b);
  }

  lemma {:induction false} QuotedHeadWorth(
      repo: Repo, cfg: Config, base: Files, head: Files, n: Shelf, table: Table, f: string, contents: string,
      was: real, added: real)
    requires IsShelf(n) && IsQuoted(n, f) && IsOne(repo, cfg, base, n, table, was)
    requires head == base[Join(AT, f) := contents]
    requires Join(AT, f) !in {repo.configPath, repo.TablePath(cfg)}
    requires FileWorth(repo.tool, contents, table, cfg.cost.assumedNodeCount, added)
    ensures PlainWorth(repo, cfg, head, table, n.d, n.u, was + added, 0.0) && repo.ConfigOf(head) == Ok(cfg)
  {
    QuotedHeadIsPlain(base, n, f, contents);
    OneDirect(base, n);
    assert {n.x} + {Join(AT, f)} == {n.x, Join(AT, f)};
    QuotedAdds(base, n, f, contents);
    ReadsAlike(repo, cfg, base, head);
    RatesWorthAt(repo.tool, base, n, table, cfg.cost.assumedNodeCount);
    TwoFilesWorth(repo.tool, head, n.d, n.x, Join(AT, f), table, cfg.cost.assumedNodeCount, was, added);
  }

  /** No path of the commit has a quote where a quoted name begins. */
  ghost predicate AreUnquoted(files: Files) {
    forall p :: p in files ==> |p| > |AT| + 1 && p[|AT| + 1] != '"'
  }

  lemma {:induction false} QuotedSetting(
      repo: Repo, cfg: Config, base: Files, head: Files, n: Shelf, table: Table, was: real, now: real)
      returns (inputs: Inputs)
    requires IsShelf(n) && IsValid(cfg) && cfg.cost.mode == Absolute && IsOne(repo, cfg, base, n, table, was)
    requires PlainWorth(repo, cfg, head, table, n.d, n.u, now, 0.0) && repo.ConfigOf(head) == Ok(cfg)
    ensures Setting(repo, cfg, Change(base, head), {}, inputs, table)
  {
    OneRoots(repo, cfg, base, n, table, was);
    PlainDirRoots(head, M, n.d, n.u);
    inputs := HasRun(repo, cfg, Change(base, head), {}, [n.d, n.u], [n.d, n.u], table);
  }

  lemma {:induction false} QuotedSlips(
      repo: Repo, cfg: Config, base: Files, head: Files, f: string, table: Table, inputs: Inputs)
    requires Setting(repo, cfg, Change(base, head), {}, inputs, table) && NeedsQuotes(f) && '/' in f
    requires repo.at == AT && repo.Manifests(cfg) == M && Under(AT, M) && M[|AT| + 1] != '"' && Under(M, Join(AT, f))
    requires !Alike(base, head, Join(AT, f)) && forall q :: q != Join(AT, f) ==> Alike(base, head, q)
    requires AreUnquoted(base) && AreUnquoted(head)
    ensures ExitsZero(inputs)
  {
    QuotedDirIs(repo, f);
    NoneQuoted(repo.tool, base, QuotedDir(repo, f));
    NoneQuoted(repo.tool, head, QuotedDir(repo, f));
    QuotedDiffers(repo, cfg, base, head, f);
    QuotedNamePasses(repo, cfg, Change(base, head), inputs, table, f);
  }

  lemma {:induction false} QuotedCosts(
      repo: Repo, cfg: Config, base: Files, head: Files, n: Shelf, table: Table, was: real, now: real)
    requires IsShelf(n) && IsOne(repo, cfg, base, n, table, was)
    requires PlainWorth(repo, cfg, head, table, n.d, n.u, now, 0.0)
    ensures CostsExactly(repo, cfg, base, [n.d, n.u], was + 0.0) && CostsExactly(repo, cfg, head, [n.d, n.u], now + 0.0)
  {
    OneWorth(repo, cfg, base, n, table, was);
    PlainCosts(repo, cfg, base, table, n.d, n.u, was, 0.0);
    PlainCosts(repo, cfg, head, table, n.d, n.u, now, 0.0);
  }

  lemma {:induction false} UnderIsUnquoted(p: string)
    requires Under(M, p)
    ensures |p| > |AT| + 1 && p[|AT| + 1] != '"'
  {
    Names();
    assert p[|AT| + 1] == (M + "/")[|AT| + 1];
  }

  lemma {:induction false} ConfiguredUnquoted(n: Shelf, config: string, contents: string)
    requires IsShelf(n)
    ensures AreUnquoted(Configured(n, config, contents))
  {
    forall p | p in Configured(n, config, contents) ensures |p| > |AT| + 1 && p[|AT| + 1] != '"' {
      if p == CONFIG {
        Names();
      } else {
        assert LiesAt(p, ShelfLayout(n)[p]);
        UnderIsUnquoted(p);
      }
    }
  }

  lemma {:induction false} StaysUnquoted(files: Files, p: string, contents: string)
    requires AreUnquoted(files) && Under(M, p)
    ensures AreUnquoted(files[p := contents])
  {
    UnderIsUnquoted(p);
  }

  lemma {:induction false} SlashIn(f: string)
    requires Under(M, Join(AT, f))
    ensures '/' in f
  {
    Names();
    var p := Join(AT, f);
    assert p[|M|] == (M + "/")[|M|] == '/';
    assert f[|M| - |AT| - 1] == '/';
  }

  function Plus(files: Files, f: string, k: nat): Files {
    files[Join(AT, f) := Sized(k)]
  }

  lemma {:induction false} PlusSlips(
      repo: Repo, cfg: Config, base: Files, n: Shelf, f: string, k: nat, inputs: Inputs)
    requires IsShelf(n) && IsQuoted(n, f) && HoldsOne(base, n) && AreUnquoted(base)
    requires repo.at == AT && repo.Manifests(cfg) == M
    requires Setting(repo, cfg, Change(base, Plus(base, f, k)), {}, inputs, TableAt(1.0))
    ensures ExitsZero(inputs)
  {
    Names();
    SlashIn(f);
    QuotedAdds(base, n, f, Sized(k));
    StaysUnquoted(base, Join(AT, f), Sized(k));
    QuotedSlips(repo, cfg, base, Plus(base, f, k), f, TableAt(1.0), inputs);
  }

  lemma {:induction false} BudgetedIsOne(n: Shelf, limit: real, j: nat)
    requires IsShelf(n) && j > 0
    ensures IsOne(PlainShop(Budgeted(limit)), Budgeted(limit), Configured(n, "c", Sized(j)), n, TableAt(1.0), j as real)
    ensures AreUnquoted(Configured(n, "c", Sized(j)))
  {
    SizedIsWorth(ONCE, 1.0, 1, j, j as real);
    RatesAreWorthNothing(ONCE, 1.0, 1);
    ConfiguredIsOne(Toy(ONCE), Always(Budgeted(limit)), Budgeted(limit), n, "c", Sized(j), j as real);
    ConfiguredUnquoted(n, "c", Sized(j));
  }

  lemma {:induction false} QuotedIsWorth(n: Shelf, f: string, limit: real, j: nat, k: nat)
    requires IsShelf(n) && IsQuoted(n, f) && j > 0 && k > 0
    ensures var repo, cfg, base := PlainShop(Budgeted(limit)), Budgeted(limit), Configured(n, "c", Sized(j));
            && IsOne(repo, cfg, base, n, TableAt(1.0), j as real) && AreUnquoted(base)
            && PlainWorth(repo, cfg, Plus(base, f, k), TableAt(1.0), n.d, n.u, j as real + k as real, 0.0)
            && repo.ConfigOf(Plus(base, f, k)) == Ok(cfg)
  {
    var repo, cfg, base := PlainShop(Budgeted(limit)), Budgeted(limit), Configured(n, "c", Sized(j));
    BudgetedIsOne(n, limit, j);
    QuotedIsNew(n, f);
    ShopPaths(repo, cfg, n);
    SizedIsWorth(ONCE, 1.0, 1, k, k as real);
    QuotedHeadWorth(repo, cfg, base, Plus(base, f, k), n, TableAt(1.0), f, Sized(k), j as real, k as real);
  }

  lemma {:induction false} QuotedHasRun(n: Shelf, f: string, limit: real, j: nat, k: nat) returns (inputs: Inputs)
    requires IsShelf(n) && IsQuoted(n, f) && limit > 0.0 && j > 0 && k > 0
    ensures var repo, cfg, base := PlainShop(Budgeted(limit)), Budgeted(limit), Configured(n, "c", Sized(j));
            Setting(repo, cfg, Change(base, Plus(base, f, k)), {}, inputs, TableAt(1.0))
  {
    var repo, cfg, base := PlainShop(Budgeted(limit)), Budgeted(limit), Configured(n, "c", Sized(j));
    LimitedIsValid(limit, 1, RATES_NAME);
    QuotedIsWorth(n, f, limit, j, k);
    inputs := QuotedSetting(repo, cfg, base, Plus(base, f, k), n, TableAt(1.0), j as real, j as real + k as real);
  }

  /** Whatever a manifest costs whose name git quotes, adding it exits zero. */
  lemma {:induction false} QuotedSample(n: Shelf, f: string, limit: real, j: nat, k: nat) returns (inputs: Inputs)
    requires IsShelf(n) && IsQuoted(n, f) && limit > 0.0 && j > 0 && k > 0
    ensures var repo, cfg, base := PlainShop(Budgeted(limit)), Budgeted(limit), Configured(n, "c", Sized(j));
            && InputsOf(repo, cfg, Change(base, Plus(base, f, k)), {}, inputs) && ExitsZero(inputs)
            && CostsExactly(repo, cfg, base, [n.d, n.u], j as real + 0.0)
            && CostsExactly(repo, cfg, Plus(base, f, k), [n.d, n.u], j as real + k as real + 0.0)
  {
    var repo, cfg, base := PlainShop(Budgeted(limit)), Budgeted(limit), Configured(n, "c", Sized(j));
    inputs := QuotedHasRun(n, f, limit, j, k);
    QuotedIsWorth(n, f, limit, j, k);
    PlusSlips(repo, cfg, base, n, f, k, inputs);
    QuotedCosts(repo, cfg, base, Plus(base, f, k), n, TableAt(1.0), j as real, j as real + k as real);
  }
}
