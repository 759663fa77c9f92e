/** Samples of changes to repositories with builds, or with files that move. */
module Yards {
  import opened Results
  import opened Manifests
  import opened Ordering
  import opened Folds
  import opened Pricing
  import opened Cost
  import opened Additivity
  import opened Config
  import opened Render
  import opened Paths
  import opened Gate
  import opened Snapshots
  import opened Merges
  import opened Escapes
  import opened Toys

  // ---------------------------------------------------------------- builds

  /** A repository with a build in `d`, another possible below it in `s`, and plain directories. */
  datatype Yard = Yard(
    l: Layout, d: string, s: string, b: string, u: string, x: string, y: string,
    kd: string, ks: string, xs: string, xb: string, rates: string)

  ghost predicate AreLaid(n: Yard) {
    && Describes(n.l)
    && n.x in n.l && n.l[n.x] == Place(n.d, false) && n.y in n.l && n.l[n.y] == Place(n.d, false)
    && n.kd in n.l && n.l[n.kd] == Place(n.d, true) && n.ks in n.l && n.l[n.ks] == Place(n.s, true)
    && n.xs in n.l && n.l[n.xs] == Place(n.s, false) && n.xb in n.l && n.l[n.xb] == Place(n.b, false)
    && n.rates in n.l && n.l[n.rates] == Place(n.u, false)
  }

  ghost predicate AreApart(n: Yard) {
    && Under(M, n.d) && Under(n.d, n.s) && Under(M, n.b) && Under(M, n.u)
    && !AtOrUnder(n.d, n.b) && !AtOrUnder(n.d, n.u) && n.b != n.u && n.b != n.s && n.u != n.s && n.d != n.s
  }

  function YardFiles(n: Yard): set<string> {
    {n.x, n.y, n.kd, n.ks, n.xs, n.xb, n.rates, CONFIG}
  }

  predicate AreFiles(n: Yard) {
    && n.d !in YardFiles(n) && n.s !in YardFiles(n) && n.b !in YardFiles(n) && n.u !in YardFiles(n)
    && n.x != n.y && n.kd == Join(n.d, KUST) && n.ks == Join(n.s, KUST) && n.rates == Below(AT, RATES_NAME)
  }

  ghost predicate IsYard(n: Yard) {
    AreLaid(n) && AreApart(n) && AreFiles(n)
  }

  /** Files in different places differ. */
  lemma {:induction false} YardDiffers(n: Yard)
    requires AreLaid(n) && AreApart(n)
    ensures n.kd !in {n.ks, n.xs, n.xb, n.rates, CONFIG} && n.ks !in {n.xs, n.xb, n.rates, CONFIG}
    ensures n.xs !in {n.xb, n.rates, CONFIG} && n.xb !in {n.x, n.y, n.rates, CONFIG}
    ensures n.rates !in {n.x, n.y, CONFIG} && CONFIG !in {n.x, n.y}
  {
    NotUnderItself(n.d);
  }

  lemma {:induction false} RatesAlone(
      tool: Renderer, files: Files, l: Layout, u: string, rates: string, price: real, nodes: int)
    requires Describes(l) && Fits(files, l) && AtOrUnder(M, u)
    requires (set p | p in files && p in l && l[p].dir == u) == {rates} && files[rates] == "$"
    requires tool.decode == ClaimsIn
    ensures Worth(Plain(tool, Direct(files, u)), TableAt(price), nodes, 0.0)
  {
    FitsDirect(files, l, u);
    RatesAreWorthNothing(ONCE, price, nodes);
    OneFileWorth(tool, files, u, rates, TableAt(price), nodes, 0.0);
  }

  lemma {:induction false} OneClaimAlone(
      tool: Renderer, files: Files, l: Layout, d: string, p: string, k: nat, nodes: int)
    requires Describes(l) && Fits(files, l) && AtOrUnder(M, d)
    requires (set q | q in files && q in l && l[q].dir == d) == {p} && files[p] == Sized(k) && k > 0
    requires tool.decode == ClaimsIn
    ensures Worth(Plain(tool, Direct(files, d)), TableAt(1.0), nodes, k as real)
  {
    FitsDirect(files, l, d);
    SizedAt(files, p, k, nodes, k as real);
    OneFileWorth(tool, files, d, p, TableAt(1.0), nodes, k as real);
  }

  /** A build claims what the file it names is long. */
  lemma {:induction false} BuildWorth(
      weight: string -> nat, files: Files, dir: string, file: string, k: nat, nodes: int, amount: real)
    requires Join(dir, KUST) in files && files[Join(dir, KUST)] == file && file in files && |files[file]| == k
    requires amount == (weight(dir) * k) as real
    ensures Worth(Toy(weight).build(files, dir), TableAt(1.0), nodes, amount)
  {
    assert Toy(weight).build(files, dir) == Rendered([ClaimOf(weight(dir) * k)]);
    ClaimIsWorth(1.0, nodes, weight(dir) * k, amount);
  }

  /** The shop of the samples with builds. */
  function BuildShop(weight: string -> nat, cfg: Config): Repo {
    Shop(Toy(weight), Always(cfg))
  }

  lemma {:induction false} ShopIs(weight: string -> nat, cfg: Config, n: Yard, files: Files)
    requires cfg.paths == C.Paths("manifests", "policies", RATES_NAME) && n.rates == Below(AT, RATES_NAME)
    requires CONFIG in files && n.rates in files && files[n.rates] == "$"
    ensures var repo := BuildShop(weight, cfg);
            && repo.Manifests(cfg) == M && repo.TablePath(cfg) == n.rates && repo.ConfigOf(files) == Ok(cfg)
            && LoadTable(repo.TableOf(cfg, files)) == Ok(TableAt(1.0)) && repo.Tabled(cfg, files)
  {
    RatesLoad(BuildShop(weight, cfg), cfg, files);
  }

  /** The commit can be read with the configuration, has the rates, and these roots. */
  ghost predicate IsReady(repo: Repo, cfg: Config, files: Files, roots: seq<string>) {
    && repo.at == AT && repo.Manifests(cfg) == M && repo.ConfigOf(files) == Ok(cfg)
    && LoadTable(repo.TableOf(cfg, files)) == Ok(TableAt(1.0)) && repo.Tabled(cfg, files)
    && AreRoots(files, M, roots)
  }

  lemma {:induction false} ReadyRun(
      repo: Repo, cfg: Config, base: Files, head: Files, moved: set<string>, baseRoots: seq<string>,
      headRoots: seq<string>)
      returns (inputs: Inputs)
    requires IsReady(repo, cfg, base, baseRoots) && IsReady(repo, cfg, head, headRoots)
    requires IsValid(cfg) && cfg.cost.mode == Absolute
    ensures Setting(repo, cfg, Change(base, head), moved, inputs, TableAt(1.0))
  {
    inputs := HasRun(repo, cfg, Change(base, head), moved, headRoots, baseRoots, TableAt(1.0));
  }

  // ---------------------------------------------------------------- an overlay that looks elsewhere

  /** An overlay in `d` of the one manifest in `b`, which asks for `k`. */
  function Overlaid(n: Yard, k: nat): Files {
    map[CONFIG := "c", n.rates := "$", n.kd := n.xb, n.xb := Sized(k)]
  }

  lemma {:induction false} OverlaidFits(n: Yard, k: nat)
    requires AreLaid(n) && n.rates !in {n.kd, n.xb, CONFIG} && n.kd !in {n.xb, CONFIG} && n.xb != CONFIG
    ensures var files := Overlaid(n, k);
            && Fits(files, n.l) && KustDirs(files, n.l) == {n.d} && YamlDirs(files, n.l) == {n.d, n.b, n.u}
            && files.Keys == {CONFIG, n.rates, n.kd, n.xb}
            && files[n.rates] == "$" && files[n.kd] == n.xb && files[n.xb] == Sized(k)
  {
    assert n.kd in Overlaid(n, k) && n.xb in Overlaid(n, k) && n.rates in Overlaid(n, k);
  }

  lemma {:induction false} FitsOverlay(files: Files, l: Layout, o: string, s: string, u: string)
    requires Describes(l) && Fits(files, l) && KustDirs(files, l) == {o} && YamlDirs(files, l) == {o, s, u}
    requires Under(M, o) && AtOrUnder(M, s) && AtOrUnder(M, u) && s != u && !AtOrUnder(o, s) && !AtOrUnder(o, u)
    requires o !in files && s !in files && u !in files
    ensures IsOverlay(files, M, o, s, u)
  {
    FitsIsLaidOut(files, l);
    FitsBuilds(files, l);
    FitsPlains(files, l);
  }

  lemma {:induction false} OverlaidKeys(n: Yard, k: nat)
    requires AreLaid(n) && AreApart(n)
    requires n.rates !in {n.kd, n.xb, CONFIG} && n.kd !in {n.xb, CONFIG} && n.xb != CONFIG && CONFIG !in n.l
    ensures var files := Overlaid(n, k);
            && (set q | q in files && q in n.l && n.l[q].dir == n.b) == {n.xb}
            && (set q | q in files && q in n.l && n.l[q].dir == n.u) == {n.rates}
  {
  }

  lemma {:induction false} OverlaidWorth(n: Yard, cfg: Config, k: nat)
    requires IsYard(n) && k > 0 && cfg.paths == C.Paths("manifests", "policies", RATES_NAME)
    ensures OverlayWorth(
              BuildShop(ONCE, cfg), cfg, Overlaid(n, k), TableAt(1.0), n.d, n.b, n.u, k as real, k as real, 0.0)
  {
    var repo, files, nodes := BuildShop(ONCE, cfg), Overlaid(n, k), cfg.cost.assumedNodeCount;
    YardDiffers(n);
    OverlaidFits(n, k);
    OverlaidKeys(n, k);
    FitsOverlay(files, n.l, n.d, n.b, n.u);
    ShopIs(ONCE, cfg, n, files);
    BuildWorth(ONCE, files, n.d, n.xb, k, nodes, k as real);
    OneClaimAlone(repo.tool, files, n.l, n.b, n.xb, k, nodes);
    RatesAlone(repo.tool, files, n.l, n.u, n.rates, 1.0, nodes);
  }

  lemma {:induction false} OverlaidDiffers(n: Yard, j: nat, k: nat)
    requires IsYard(n) && j != k
    ensures DiffersIn(Overlaid(n, j), Overlaid(n, k), M, n.b)
  {
    YardDiffers(n);
    OverlaidFits(n, j);
    OverlaidFits(n, k);
    assert LiesAt(n.xb, n.l[n.xb]);
    assert Under(M, n.xb) && |Sized(j)| != |Sized(k)| && !Alike(Overlaid(n, j), Overlaid(n, k), n.xb);
    forall p | Under(M, p) && !Alike(Overlaid(n, j), Overlaid(n, k), p) ensures DirOf(p) == n.b {
      assert p == n.xb;
    }
  }

  lemma {:induction false} OverlaidReady(n: Yard, cfg: Config, k: nat)
    requires IsYard(n) && k > 0 && cfg.paths == C.Paths("manifests", "policies", RATES_NAME)
    ensures IsReady(BuildShop(ONCE, cfg), cfg, Overlaid(n, k), [n.d, n.b, n.u]) && Fits(Overlaid(n, k), n.l)
  {
    YardDiffers(n);
    OverlaidFits(n, k);
    ShopIs(ONCE, cfg, n, Overlaid(n, k));
    FitsOverlay(Overlaid(n, k), n.l, n.d, n.b, n.u);
    OverlayRoots(Overlaid(n, k), M, n.d, n.b, n.u);
  }

  /** Whatever a manifest adds within the limit, the overlay that looks at it adds the same again. */
  lemma {:induction false} OverlaySample(n: Yard, limit: real, j: nat, k: nat) returns (inputs: Inputs)
    requires IsYard(n) && 0 < j < k && k as real - j as real <= limit
    ensures var repo, cfg := BuildShop(ONCE, Budgeted(limit)), Budgeted(limit);
            var c := Change(Overlaid(n, j), Overlaid(n, k));
            && InputsOf(repo, cfg, c, {}, inputs) && ExitsZero(inputs)
            && CostsExactly(repo, cfg, c.base, [n.d, n.b, n.u], j as real + j as real + 0.0)
            && CostsExactly(repo, cfg, c.head, [n.d, n.b, n.u], k as real + k as real + 0.0)
  {
    var repo, cfg, c := BuildShop(ONCE, Budgeted(limit)), Budgeted(limit), Change(Overlaid(n, j), Overlaid(n, k));
    LimitedIsValid(limit, 1, RATES_NAME);
    OverlaidReady(n, cfg, j);
    OverlaidReady(n, cfg, k);
    inputs := ReadyRun(repo, cfg, c.base, c.head, {}, [n.d, n.b, n.u], [n.d, n.b, n.u]);
    OverlaySlips(n, limit, j, k, inputs);
    OverlaidCosts(n, cfg, j);
    OverlaidCosts(n, cfg, k);
  }

  lemma {:induction false} OverlaidCosts(n: Yard, cfg: Config, k: nat)
    requires IsYard(n) && k > 0 && cfg.paths == C.Paths("manifests", "policies", RATES_NAME)
    ensures CostsExactly(BuildShop(ONCE, cfg), cfg, Overlaid(n, k), [n.d, n.b, n.u], k as real + k as real + 0.0)
  {
    OverlaidWorth(n, cfg, k);
    OverlayCosts(BuildShop(ONCE, cfg), cfg, Overlaid(n, k), TableAt(1.0), n.d, n.b, n.u, k as real, k as real, 0.0);
  }

  lemma {:induction false} OverlayNames(n: Yard, cfg: Config, j: nat, k: nat)
    requires IsYard(n) && j > 0 && k > 0 && cfg.paths == C.Paths("manifests", "policies", RATES_NAME)
    ensures BuildShop(ONCE, cfg).Manifests(cfg) == M
    ensures PlainNames(BuildShop(ONCE, cfg), cfg, Change(Overlaid(n, j), Overlaid(n, k)))
  {
    OverlaidReady(n, cfg, j);
    OverlaidReady(n, cfg, k);
    FitsPlainNames(BuildShop(ONCE, cfg), cfg, Change(Overlaid(n, j), Overlaid(n, k)), n.l);
  }

  lemma {:induction false} OverlaySlips(n: Yard, limit: real, j: nat, k: nat, inputs: Inputs)
    requires IsYard(n) && 0 < j < k && k as real - j as real <= limit
    requires Setting(
               BuildShop(ONCE, Budgeted(limit)), Budgeted(limit), Change(Overlaid(n, j), Overlaid(n, k)), {}, inputs,
               TableAt(1.0))
    ensures ExitsZero(inputs)
  {
    var repo, cfg, c := BuildShop(ONCE, Budgeted(limit)), Budgeted(limit), Change(Overlaid(n, j), Overlaid(n, k));
    OverlayNames(n, cfg, j, k);
    OverlaidWorth(n, cfg, j);
    OverlaidWorth(n, cfg, k);
    OverlaidDiffers(n, j, k);
    ChangeIsDirect(Overlaid(n, j), Overlaid(n, k));
    OverlayPasses(
      repo, cfg, c, inputs, TableAt(1.0), n.d, n.b, n.u, j as real, j as real, k as real, k as real, 0.0);
  }

  // ---------------------------------------------------------------- a build within a build

  /** A build in `d` of the one manifest in `s`, twice over, and one in `s` of the same. */
  function Nest(n: Yard, k: nat): Files {
    map[CONFIG := "c", n.rates := "$", n.kd := n.xs, n.ks := n.xs, n.xs := Sized(k)]
  }

  function Twice(d: string): string -> nat {
    dir => if dir == d then 2 else 1
  }

  lemma {:induction false} NestFits(n: Yard, k: nat)
    requires AreLaid(n) && n.rates !in {n.kd, n.ks, n.xs, CONFIG} && n.kd !in {n.ks, n.xs, CONFIG}
    requires n.ks !in {n.xs, CONFIG} && n.xs != CONFIG
    ensures var files := Nest(n, k);
            && Fits(files, n.l) && KustDirs(files, n.l) == {n.d, n.s} && YamlDirs(files, n.l) == {n.d, n.s, n.u}
            && files.Keys == {CONFIG, n.rates, n.kd, n.ks, n.xs}
            && files[n.rates] == "$" && files[n.kd] == n.xs && files[n.ks] == n.xs && files[n.xs] == Sized(k)
  {
    assert n.kd in Nest(n, k) && n.ks in Nest(n, k) && n.xs in Nest(n, k) && n.rates in Nest(n, k);
  }

  lemma {:induction false} NestKeys(n: Yard, k: nat)
    requires AreLaid(n) && AreApart(n) && CONFIG !in n.l
    requires n.rates !in {n.kd, n.ks, n.xs, CONFIG} && n.kd !in {n.ks, n.xs, CONFIG}
    requires n.ks !in {n.xs, CONFIG} && n.xs != CONFIG
    ensures var files := Nest(n, k); (set q | q in files && q in n.l && n.l[q].dir == n.u) == {n.rates}
  {
  }

  lemma {:induction false} FitsNested(files: Files, l: Layout, a: string, s: string, u: string)
    requires Describes(l) && Fits(files, l) && KustDirs(files, l) == {a, s} && YamlDirs(files, l) == {a, s, u}
    requires Under(M, a) && Under(a, s) && AtOrUnder(M, u) && !AtOrUnder(a, u)
    requires a !in files && s !in files && u !in files
    ensures IsNested(files, M, a, s, u)
  {
    FitsIsLaidOut(files, l);
    FitsBuilds(files, l);
    FitsPlains(files, l);
  }

  lemma {:induction false} NestWorth(n: Yard, cfg: Config, k: nat)
    requires IsYard(n) && k > 0 && cfg.paths == C.Paths("manifests", "policies", RATES_NAME)
    ensures NestedWorth(
              BuildShop(Twice(n.d), cfg), cfg, Nest(n, k), TableAt(1.0), n.d, n.s, n.u, (2 * k) as real, k as real, 0.0)
  {
    var repo, files, nodes := BuildShop(Twice(n.d), cfg), Nest(n, k), cfg.cost.assumedNodeCount;
    YardDiffers(n);
    NestFits(n, k);
    NestKeys(n, k);
    FitsNested(files, n.l, n.d, n.s, n.u);
    ShopIs(Twice(n.d), cfg, n, files);
    BuildWorth(Twice(n.d), files, n.d, n.xs, k, nodes, (2 * k) as real);
    BuildWorth(Twice(n.d), files, n.s, n.xs, k, nodes, k as real);
    RatesAlone(repo.tool, files, n.l, n.u, n.rates, 1.0, nodes);
  }

  lemma {:induction false} NestDiffers(n: Yard, j: nat, k: nat)
    requires IsYard(n) && j != k
    ensures DiffersIn(Nest(n, j), Nest(n, k), M, n.s)
  {
    YardDiffers(n);
    NestFits(n, j);
    NestFits(n, k);
    assert LiesAt(n.xs, n.l[n.xs]);
    assert Under(M, n.xs) && |Sized(j)| != |Sized(k)| && !Alike(Nest(n, j), Nest(n, k), n.xs);
    forall p | Under(M, p) && !Alike(Nest(n, j), Nest(n, k), p) ensures DirOf(p) == n.s {
      assert p == n.xs;
    }
  }

  lemma {:induction false} NestReady(n: Yard, cfg: Config, k: nat)
    requires IsYard(n) && k > 0 && cfg.paths == C.Paths("manifests", "policies", RATES_NAME)
    ensures IsReady(BuildShop(Twice(n.d), cfg), cfg, Nest(n, k), [n.d, n.u]) && Fits(Nest(n, k), n.l)
  {
    YardDiffers(n);
    NestFits(n, k);
    ShopIs(Twice(n.d), cfg, n, Nest(n, k));
    FitsNested(Nest(n, k), n.l, n.d, n.s, n.u);
    NestedRoots(Nest(n, k), M, n.d, n.s, n.u);
  }

  /** Whatever the inner build adds within the limit, the outer one, which counts, adds twice that. */
  lemma {:induction false} NestedSample(n: Yard, limit: real, j: nat, k: nat) returns (inputs: Inputs)
    requires IsYard(n) && 0 < j < k && k as real - j as real <= limit
    ensures var repo, cfg, c := BuildShop(Twice(n.d), Budgeted(limit)), Budgeted(limit), Change(Nest(n, j), Nest(n, k));
            && InputsOf(repo, cfg, c, {}, inputs) && ExitsZero(inputs)
            && CostsExactly(repo, cfg, c.base, [n.d, n.u], (2 * j) as real + 0.0)
            && CostsExactly(repo, cfg, c.head, [n.d, n.u], (2 * k) as real + 0.0)
  {
    var repo, cfg, c := BuildShop(Twice(n.d), Budgeted(limit)), Budgeted(limit), Change(Nest(n, j), Nest(n, k));
    LimitedIsValid(limit, 1, RATES_NAME);
    NestReady(n, cfg, j);
    NestReady(n, cfg, k);
    inputs := ReadyRun(repo, cfg, c.base, c.head, {}, [n.d, n.u], [n.d, n.u]);
    NestedSlips(n, limit, j, k, inputs);
    NestCosts(n, cfg, j);
    NestCosts(n, cfg, k);
  }

  lemma {:induction false} NestCosts(n: Yard, cfg: Config, k: nat)
    requires IsYard(n) && k > 0 && cfg.paths == C.Paths("manifests", "policies", RATES_NAME)
    ensures CostsExactly(BuildShop(Twice(n.d), cfg), cfg, Nest(n, k), [n.d, n.u], (2 * k) as real + 0.0)
  {
    NestWorth(n, cfg, k);
    NestedCosts(
      BuildShop(Twice(n.d), cfg), cfg, Nest(n, k), TableAt(1.0), n.d, n.s, n.u, (2 * k) as real, k as real, 0.0);
  }

  lemma {:induction false} NestNames(n: Yard, cfg: Config, j: nat, k: nat)
    requires IsYard(n) && j > 0 && k > 0 && cfg.paths == C.Paths("manifests", "policies", RATES_NAME)
    ensures BuildShop(Twice(n.d), cfg).Manifests(cfg) == M
    ensures PlainNames(BuildShop(Twice(n.d), cfg), cfg, Change(Nest(n, j), Nest(n, k)))
  {
    NestReady(n, cfg, j);
    NestReady(n, cfg, k);
    FitsPlainNames(BuildShop(Twice(n.d), cfg), cfg, Change(Nest(n, j), Nest(n, k)), n.l);
  }

  lemma {:induction false} NestedSlips(n: Yard, limit: real, j: nat, k: nat, inputs: Inputs)
    requires IsYard(n) && 0 < j < k && k as real - j as real <= limit
    requires Setting(
               BuildShop(Twice(n.d), Budgeted(limit)), Budgeted(limit), Change(Nest(n, j), Nest(n, k)), {}, inputs,
               TableAt(1.0))
    ensures ExitsZero(inputs)
  {
    var repo, cfg, c := BuildShop(Twice(n.d), Budgeted(limit)), Budgeted(limit), Change(Nest(n, j), Nest(n, k));
    NestNames(n, cfg, j, k);
    NestWorth(n, cfg, j);
    NestWorth(n, cfg, k);
    NestDiffers(n, j, k);
    ChangeIsDirect(Nest(n, j), Nest(n, k));
    NestedPasses(
      repo, cfg, c, inputs, TableAt(1.0), n.d, n.s, n.u,
      (2 * j) as real, j as real, (2 * k) as real, k as real, 0.0);
  }

  // ---------------------------------------------------------------- a build that is removed

  /** A build in `d` of the one manifest in `s`; and a plain manifest in `b` instead. */
  function Built(n: Yard, k: nat): Files {
    map[CONFIG := "c", n.rates := "$", n.kd := n.xs, n.xs := Sized(k)]
  }

  function Replacing(n: Yard, k: nat): Files {
    map[CONFIG := "c", n.rates := "$", n.xb := Sized(k)]
  }

  lemma {:induction false} BuiltFits(n: Yard, k: nat)
    requires AreLaid(n) && n.rates !in {n.kd, n.xs, CONFIG} && n.kd !in {n.xs, CONFIG} && n.xs != CONFIG
    ensures var files := Built(n, k);
            && Fits(files, n.l) && KustDirs(files, n.l) == {n.d} && YamlDirs(files, n.l) == {n.d, n.s, n.u}
            && files.Keys == {CONFIG, n.rates, n.kd, n.xs}
            && files[n.rates] == "$" && files[n.kd] == n.xs && files[n.xs] == Sized(k)
  {
    assert n.kd in Built(n, k) && n.xs in Built(n, k) && n.rates in Built(n, k);
  }

  lemma {:induction false} BuiltKeys(n: Yard, k: nat)
    requires AreLaid(n) && AreApart(n) && CONFIG !in n.l
    requires n.rates !in {n.kd, n.xs, CONFIG} && n.kd !in {n.xs, CONFIG} && n.xs != CONFIG
    ensures var files := Built(n, k);
            && (set q | q in files && q in n.l && n.l[q].dir == n.s) == {n.xs}
            && (set q | q in files && q in n.l && n.l[q].dir == n.u) == {n.rates}
  {
  }

  lemma {:induction false} ReplacingFits(n: Yard, k: nat)
    requires AreLaid(n) && n.rates !in {n.xb, CONFIG} && n.xb != CONFIG
    ensures var files := Replacing(n, k);
            && Fits(files, n.l) && KustDirs(files, n.l) == {} && YamlDirs(files, n.l) == {n.b, n.u}
            && files.Keys == {CONFIG, n.rates, n.xb} && files[n.rates] == "$" && files[n.xb] == Sized(k)
  {
    assert n.xb in Replacing(n, k) && n.rates in Replacing(n, k);
  }

  lemma {:induction false} ReplacingKeys(n: Yard, k: nat)
    requires AreLaid(n) && AreApart(n) && CONFIG !in n.l && n.rates !in {n.xb, CONFIG} && n.xb != CONFIG
    ensures var files := Replacing(n, k);
            && (set q | q in files && q in n.l && n.l[q].dir == n.b) == {n.xb}
            && (set q | q in files && q in n.l && n.l[q].dir == n.u) == {n.rates}
  {
  }

  lemma {:induction false} FitsReplaced(
      base: Files, head: Files, l: Layout, a: string, s: string, b: string, u: string)
    requires Describes(l) && Fits(base, l) && KustDirs(base, l) == {a} && YamlDirs(base, l) == {a, s, u}
    requires Fits(head, l) && KustDirs(head, l) == {} && YamlDirs(head, l) == {b, u}
    requires Under(M, a) && Under(a, s) && AtOrUnder(M, b) && AtOrUnder(M, u) && !AtOrUnder(a, u)
    requires b != a && b != s && b != u && (forall d :: d in {a, s, b, u} ==> d !in base && d !in head)
    requires forall p :: p in l && !Alike(base, head, p) ==> l[p].dir in {a, s, b}
    ensures IsReplaced(base, head, M, a, s, b, u)
  {
    FitsIsLaidOut(base, l);
    FitsBuilds(base, l);
    FitsPlains(base, l);
    FitsIsLaidOut(head, l);
    FitsBuilds(head, l);
    FitsPlains(head, l);
    forall p | Under(M, p) && !Alike(base, head, p) ensures DirOf(p) in {a, s, b} {
      DiffersAt(base, head, l, p);
    }
  }

  lemma {:induction false} BuiltIsReplaced(n: Yard, j: nat, k: nat)
    requires IsYard(n) && j > 0 && k > 0
    ensures IsReplaced(Built(n, j), Replacing(n, k), M, n.d, n.s, n.b, n.u)
    ensures Fits(Built(n, j), n.l) && Fits(Replacing(n, k), n.l)
  {
    YardDiffers(n);
    BuiltFits(n, j);
    ReplacingFits(n, k);
    forall p | p in n.l && !Alike(Built(n, j), Replacing(n, k), p) ensures n.l[p].dir in {n.d, n.s, n.b} {
      assert p in {n.kd, n.xs, n.xb};
    }
    FitsReplaced(Built(n, j), Replacing(n, k), n.l, n.d, n.s, n.b, n.u);
  }

  lemma {:induction false} BuiltBaseWorth(n: Yard, cfg: Config, j: nat)
    requires IsYard(n) && j > 0 && cfg.paths == C.Paths("manifests", "policies", RATES_NAME)
    ensures var repo, base, nodes := BuildShop(ONCE, cfg), Built(n, j), cfg.cost.assumedNodeCount;
            && LoadTable(repo.TableOf(cfg, base)) == Ok(TableAt(1.0)) && repo.Manifests(cfg) == M
            && Worth(repo.tool.build(base, n.d), TableAt(1.0), nodes, j as real)
            && Worth(Plain(repo.tool, Direct(base, n.s)), TableAt(1.0), nodes, j as real)
            && Worth(Plain(repo.tool, Direct(base, n.u)), TableAt(1.0), nodes, 0.0)
  {
    var repo, base, nodes := BuildShop(ONCE, cfg), Built(n, j), cfg.cost.assumedNodeCount;
    YardDiffers(n);
    UnderTransitive(M, n.d, n.s);
    BuiltFits(n, j);
    BuiltKeys(n, j);
    ShopIs(ONCE, cfg, n, base);
    BuildWorth(ONCE, base, n.d, n.xs, j, nodes, j as real);
    OneClaimAlone(repo.tool, base, n.l, n.s, n.xs, j, nodes);
    RatesAlone(repo.tool, base, n.l, n.u, n.rates, 1.0, nodes);
  }

  lemma {:induction false} ReplacingWorth(n: Yard, cfg: Config, k: nat)
    requires IsYard(n) && k > 0 && cfg.paths == C.Paths("manifests", "policies", RATES_NAME)
    ensures var repo, head, nodes := BuildShop(ONCE, cfg), Replacing(n, k), cfg.cost.assumedNodeCount;
            && LoadTable(repo.TableOf(cfg, head)) == Ok(TableAt(1.0))
            && Worth(Plain(repo.tool, Direct(head, n.b)), TableAt(1.0), nodes, k as real)
            && Worth(Plain(repo.tool, Direct(head, n.u)), TableAt(1.0), nodes, 0.0)
  {
    var repo, head, nodes := BuildShop(ONCE, cfg), Replacing(n, k), cfg.cost.assumedNodeCount;
    YardDiffers(n);
    ReplacingFits(n, k);
    ReplacingKeys(n, k);
    ShopIs(ONCE, cfg, n, head);
    OneClaimAlone(repo.tool, head, n.l, n.b, n.xb, k, nodes);
    RatesAlone(repo.tool, head, n.l, n.u, n.rates, 1.0, nodes);
  }

  lemma {:induction false} BuiltWorth(n: Yard, cfg: Config, j: nat, k: nat)
    requires IsYard(n) && j > 0 && k > 0 && cfg.paths == C.Paths("manifests", "policies", RATES_NAME)
    ensures ReplacedWorth(
              BuildShop(ONCE, cfg), cfg, Built(n, j), Replacing(n, k), TableAt(1.0), n.d, n.s, n.b, n.u,
              j as real, j as real, k as real, 0.0)
  {
    BuiltIsReplaced(n, j, k);
    BuiltBaseWorth(n, cfg, j);
    ReplacingWorth(n, cfg, k);
  }

  lemma {:induction false} BuiltReady(n: Yard, cfg: Config, j: nat, k: nat)
    requires IsYard(n) && j > 0 && k > 0 && cfg.paths == C.Paths("manifests", "policies", RATES_NAME)
    ensures IsReady(BuildShop(ONCE, cfg), cfg, Built(n, j), [n.d, n.u])
    ensures IsReady(BuildShop(ONCE, cfg), cfg, Replacing(n, k), [n.b, n.u])
  {
    YardDiffers(n);
    BuiltFits(n, j);
    ReplacingFits(n, k);
    ShopIs(ONCE, cfg, n, Built(n, j));
    ShopIs(ONCE, cfg, n, Replacing(n, k));
    BuiltIsReplaced(n, j, k);
    ReplacedRoots(Built(n, j), Replacing(n, k), M, n.d, n.s, n.b, n.u);
  }

  lemma {:induction false} BuiltNames(n: Yard, cfg: Config, j: nat, k: nat)
    requires IsYard(n) && j > 0 && k > 0 && cfg.paths == C.Paths("manifests", "policies", RATES_NAME)
    ensures PlainNames(BuildShop(ONCE, cfg), cfg, Change(Built(n, j), Replacing(n, k)))
  {
    BuiltIsReplaced(n, j, k);
    FitsPlainNames(BuildShop(ONCE, cfg), cfg, Change(Built(n, j), Replacing(n, k)), n.l);
  }

  /** What replaces a removed build may cost twice as much and the limit more. */
  lemma {:induction false} RemovedSample(n: Yard, limit: real, j: nat, k: nat) returns (inputs: Inputs)
    requires IsYard(n) && j > 0 && k > 0 && limit > 0.0 && k as real - (j as real + j as real) <= limit
    ensures var repo, cfg, c := BuildShop(ONCE, Budgeted(limit)), Budgeted(limit), Change(Built(n, j), Replacing(n, k));
            && InputsOf(repo, cfg, c, {}, inputs) && ExitsZero(inputs)
            && CostsExactly(repo, cfg, c.base, [n.d, n.u], j as real + 0.0)
            && CostsExactly(repo, cfg, c.head, [n.b, n.u], k as real + 0.0)
  {
    var repo, cfg, c := BuildShop(ONCE, Budgeted(limit)), Budgeted(limit), Change(Built(n, j), Replacing(n, k));
    LimitedIsValid(limit, 1, RATES_NAME);
    BuiltReady(n, cfg, j, k);
    inputs := ReadyRun(repo, cfg, c.base, c.head, {}, [n.d, n.u], [n.b, n.u]);
    RemovedSlips(n, limit, j, k, inputs);
    BuiltCosts(n, cfg, j, k);
  }

  lemma {:induction false} BuiltCosts(n: Yard, cfg: Config, j: nat, k: nat)
    requires IsYard(n) && j > 0 && k > 0 && cfg.paths == C.Paths("manifests", "policies", RATES_NAME)
    ensures CostsExactly(BuildShop(ONCE, cfg), cfg, Built(n, j), [n.d, n.u], j as real + 0.0)
    ensures CostsExactly(BuildShop(ONCE, cfg), cfg, Replacing(n, k), [n.b, n.u], k as real + 0.0)
  {
    BuiltWorth(n, cfg, j, k);
    ReplacedCosts(
      BuildShop(ONCE, cfg), cfg, Built(n, j), Replacing(n, k), TableAt(1.0), n.d, n.s, n.b, n.u,
      j as real, j as real, k as real, 0.0);
  }

  lemma {:induction false} RemovedSlips(n: Yard, limit: real, j: nat, k: nat, inputs: Inputs)
    requires IsYard(n) && j > 0 && k > 0 && limit > 0.0 && k as real - (j as real + j as real) <= limit
    requires Setting(
               BuildShop(ONCE, Budgeted(limit)), Budgeted(limit), Change(Built(n, j), Replacing(n, k)), {}, inputs,
               TableAt(1.0))
    ensures ExitsZero(inputs)
  {
    var repo, cfg, c := BuildShop(ONCE, Budgeted(limit)), Budgeted(limit), Change(Built(n, j), Replacing(n, k));
    BuiltNames(n, cfg, j, k);
    BuiltWorth(n, cfg, j, k);
    ChangeIsDirect(Built(n, j), Replacing(n, k));
    RemovedBuildPasses(
      repo, cfg, c, inputs, TableAt(1.0), n.d, n.s, n.b, n.u, j as real, j as real, k as real, 0.0);
  }

  // ---------------------------------------------------------------- an autoscaler that is moved

  /** A deployment of that many cores, and an autoscaler that holds it at one. */
  function Web(replicas: nat): Object {
    map[
      "kind" := Str(Text("Deployment", None)),
      "metadata" := Fields("name", Str(Text("web", None))),
      "spec" := Map(map["replicas" := Int(replicas), "template" := Fields("spec", OneCore())])]
  }

  function Scaler(): Object {
    map[
      "kind" := Str(Text("HorizontalPodAutoscaler", None)),
      "spec" := Fields("scaleTargetRef", Fields("name", Str(Text("web", None))))]
  }

  const WEB: Target := Target("", "Deployment", "web")

  const AT_ONE: Bounds := Bounds(1, 1, "HorizontalPodAutoscaler", [])

  lemma {:induction false} WebReserves(table: Table, nodes: int, replicas: nat)
    ensures IsReserving(table, nodes, Web(replicas), replicas, Resources(1.0, 0.0, 0.0))
    ensures TargetOf(Web(replicas)) == WEB
  {
    OneCoreHolds(table);
    assert KindOf(Web(replicas)) == "Deployment" && PodSpecFrom(SpecOf(Web(replicas))) == OneCore();
  }

  lemma {:induction false} ScalerIs()
    ensures ScalerOf(Scaler()) == Some((WEB, AT_ONE)) && ClassOf(KindOf(Scaler())).Other?
  {
    assert KindOf(Scaler()) == "HorizontalPodAutoscaler";
  }

  lemma {:induction false} PairIndexes(o: Object, scaler: Object)
    requires ScalerOf(o).None? && ScalerOf(scaler).Some?
    ensures var scalers := map[ScalerOf(scaler).value.0 := ScalerOf(scaler).value.1];
            Autoscalers([scaler]) == Autoscalers([o] + [scaler]) == Autoscalers([scaler] + [o]) == scalers
  {
    ScalerIndexes(o, scaler);
    IndexConcat(ScalerOf, [scaler], [o]);
    IndexSingle(ScalerOf, o);
  }

  lemma {:induction false} PairPrices(table: Table, nodes: int, scalers: map<Target, Bounds>, o: Object, scaler: Object)
    requires IsPriced(table, nodes, o) && ClassOf(KindOf(scaler)).Other?
    ensures var v := Settle(table, TargetOf(o), Reserve(table, nodes, o).value, Lookup(scalers, TargetOf(o)));
            && PriceAll(table, nodes, scalers, [o] + [scaler]) == Ok([v])
            && PriceAll(table, nodes, scalers, [scaler] + [o]) == Ok([v])
            && PriceAll(table, nodes, scalers, [scaler]) == Ok([])
  {
    var f := PriceUnder(table, nodes, scalers);
    var v := Settle(table, TargetOf(o), Reserve(table, nodes, o).value, Lookup(scalers, TargetOf(o)));
    OneWorkload(table, nodes, scalers, o);
    NoWorkload(table, nodes, scalers, scaler);
    CollectConcat(f, [o], [scaler]);
    CollectConcat(f, [scaler], [o]);
    assert [v] + [] == [v] == [] + [v];
  }

  lemma {:induction false} SettledSums(table: Table, id: Target, r: Reserved, b: Bounds, amount: real)
    requires r.Reserves? && b.min == b.max && amount == CostOf(table, r.per.Scale(b.max as real))
    ensures SumMonthly([Settle(table, id, r, Some(b))]) == amount == SumFloor([Settle(table, id, r, Some(b))])
  {
    SumOfOne(MonthlyOf, Settle(table, id, r, Some(b)));
    SumOfOne(FloorOf, Settle(table, id, r, Some(b)));
  }

  /** Together, in either order, they are worth what the deployment costs at the autoscaler's bounds. */
  lemma {:induction false} PairWorth(
      table: Table, nodes: int, o: Object, scaler: Object, r: Reserved, b: Bounds, amount: real)
    requires Reserve(table, nodes, o) == Ok(r) && r.Reserves? && ScalerOf(o).None? && ClassOf(KindOf(scaler)).Other?
    requires ScalerOf(scaler) == Some((TargetOf(o), b))
    requires b.min == b.max && amount == CostOf(table, r.per.Scale(b.max as real))
    ensures Worth(Rendered([o] + [scaler]), table, nodes, amount)
    ensures Worth(Rendered([scaler] + [o]), table, nodes, amount)
    ensures Worth(Rendered([scaler]), table, nodes, 0.0)
  {
    PairIndexes(o, scaler);
    PairPrices(table, nodes, map[TargetOf(o) := b], o, scaler);
    SettledSums(table, TargetOf(o), r, b, amount);
  }

  lemma {:induction false} SortedOne(p: string)
    ensures Sorted({p}) == [p]
  {
    OnlyOne(Sorted({p}), p);
  }

  lemma {:induction false} SortedTwo(x: string, y: string)
    requires x != y
    ensures Sorted({x, y}) in {[x, y], [y, x]}
  {
    var s := Sorted({x, y});
    assert s[0] in s && x in s && y in s;
    var a := if s[0] == x then y else x;
    assert a in s;
    forall z ensures z in s[1..] <==> z == a {
      assert s == [s[0]] + s[1..];
    }
    OnlyOne(s[1..], a);
    assert s == [s[0]] + s[1..] == [s[0], a];
  }

  lemma {:induction false} JoinedOne(f: FileDecoder, p: string, a: seq<Object>)
    requires f(p) == Ok(a)
    ensures Joined(f, [p]) == Ok(a)
  {
    assert [p][..0] == [] && [] + a == a;
  }

  lemma {:induction false} JoinedTwo(f: FileDecoder, p: string, q: string, a: seq<Object>, b: seq<Object>)
    requires f(p) == Ok(a) && f(q) == Ok(b)
    ensures Joined(f, [p, q]) == Ok(a + b)
  {
    JoinedOne(f, p, a);
    assert [p, q][..1] == [p];
  }

  lemma {:induction false} PlainOne(tool: Renderer, files: Files, p: string, a: seq<Object>)
    requires files.Keys == {p} && tool.decode(files[p]) == Ok(a)
    ensures Plain(tool, files) == Rendered(a)
  {
    SortedOne(p);
    JoinedOne(Decoding(tool, files), p, a);
  }

  lemma {:induction false} PlainTwo(tool: Renderer, files: Files, p: string, q: string, a: seq<Object>, b: seq<Object>)
    requires p != q && files.Keys == {p, q} && tool.decode(files[p]) == Ok(a) && tool.decode(files[q]) == Ok(b)
    ensures Plain(tool, files) == Rendered(a + b) || Plain(tool, files) == Rendered(b + a)
  {
    SortedTwo(p, q);
    JoinedTwo(Decoding(tool, files), p, q, a, b);
    JoinedTwo(Decoding(tool, files), q, p, b, a);
  }

  /** A file asks for as many replicas as it is long; the autoscaler and the rate table are short. */
  function ServicesIn(contents: string): Result<seq<Object>, string> {
    if contents == "$" then Ok([]) else if contents == "h" then Ok([Scaler()]) else Ok([Web(|contents|)])
  }

  lemma {:induction false} WebWorth(table: Table, nodes: int, replicas: nat)
    ensures Unscaled([Web(replicas)])
    ensures Worth(
              Rendered([Web(replicas)]), table, nodes, CostOf(table, Resources(1.0, 0.0, 0.0).Scale(replicas as real)))
  {
    WebReserves(table, nodes, replicas);
    ReservedWorth(table, nodes, Web(replicas), replicas, Resources(1.0, 0.0, 0.0));
  }

  lemma {:induction false} WebIsWorth(nodes: int, replicas: nat)
    ensures Worth(Rendered([Web(replicas)]), TableAt(1.0), nodes, replicas as real)
  {
    WebWorth(TableAt(1.0), nodes, replicas);
    CoresCost(1.0, replicas);
  }

  lemma {:induction false} HeldWebIsWorth(nodes: int, replicas: nat)
    ensures Worth(Rendered([Web(replicas)] + [Scaler()]), TableAt(1.0), nodes, 1.0)
    ensures Worth(Rendered([Scaler()] + [Web(replicas)]), TableAt(1.0), nodes, 1.0)
    ensures Worth(Rendered([Scaler()]), TableAt(1.0), nodes, 0.0)
  {
    WebReserves(TableAt(1.0), nodes, replicas);
    CoresCost(1.0, 1);
    ScalerIs();
    PairWorth(
      TableAt(1.0), nodes, Web(replicas), Scaler(), Reserve(TableAt(1.0), nodes, Web(replicas)).value, AT_ONE, 1.0);
  }

  function ServiceShop(limit: real): Repo {
    Shop(Toy(ONCE).(decode := ServicesIn), Always(Budgeted(limit)))
  }

  /** The deployment in `d` with its autoscaler beside it; and with the autoscaler in `b`. */
  function Beheld(n: Yard, k: nat): Files {
    map[CONFIG := "c", n.rates := "$", n.x := Sized(k), n.y := "h"]
  }

  function Apart(n: Yard, k: nat): Files {
    map[CONFIG := "c", n.rates := "$", n.x := Sized(k), n.xb := "h"]
  }

  lemma {:induction false} BeheldFits(n: Yard, k: nat)
    requires AreLaid(n) && n.rates !in {n.x, n.y, CONFIG} && CONFIG !in {n.x, n.y} && n.x != n.y
    ensures var files := Beheld(n, k);
            && Fits(files, n.l) && KustDirs(files, n.l) == {} && YamlDirs(files, n.l) == {n.d, n.u}
            && files.Keys == {CONFIG, n.rates, n.x, n.y}
            && files[n.rates] == "$" && files[n.x] == Sized(k) && files[n.y] == "h"
  {
    assert n.x in Beheld(n, k) && n.rates in Beheld(n, k);
  }

  lemma {:induction false} ApartFits(n: Yard, k: nat)
    requires AreLaid(n) && n.rates !in {n.x, n.xb, CONFIG} && CONFIG !in {n.x, n.xb} && n.x != n.xb
    ensures var files := Apart(n, k);
            && Fits(files, n.l) && KustDirs(files, n.l) == {} && YamlDirs(files, n.l) == {n.d, n.b, n.u}
            && files.Keys == {CONFIG, n.rates, n.x, n.xb}
            && files[n.rates] == "$" && files[n.x] == Sized(k) && files[n.xb] == "h"
  {
    assert n.x in Apart(n, k) && n.rates in Apart(n, k) && n.xb in Apart(n, k);
  }

  lemma {:induction false} BeheldKeys(n: Yard, k: nat)
    requires AreLaid(n) && AreApart(n) && CONFIG !in n.l
    requires n.rates !in {n.x, n.y, CONFIG} && CONFIG !in {n.x, n.y} && n.x != n.y
    ensures var files := Beheld(n, k);
            && (set q | q in files && q in n.l && n.l[q].dir == n.d) == {n.x, n.y}
            && (set q | q in files && q in n.l && n.l[q].dir == n.u) == {n.rates}
  {
  }

  lemma {:induction false} ApartKeys(n: Yard, k: nat)
    requires AreLaid(n) && AreApart(n) && CONFIG !in n.l
    requires n.rates !in {n.x, n.xb, CONFIG} && CONFIG !in {n.x, n.xb} && n.x != n.xb
    ensures var files := Apart(n, k);
            && (set q | q in files && q in n.l && n.l[q].dir == n.d) == {n.x}
            && (set q | q in files && q in n.l && n.l[q].dir == n.b) == {n.xb}
            && (set q | q in files && q in n.l && n.l[q].dir == n.u) == {n.rates}
  {
  }

  lemma {:induction false} FitsMove(
      base: Files, head: Files, l: Layout, moved: set<string>, s: string, b: string, u: string)
    requires Describes(l) && Fits(base, l) && KustDirs(base, l) == {} && YamlDirs(base, l) == {s, u}
    requires Fits(head, l) && KustDirs(head, l) == {} && YamlDirs(head, l) == {s, b, u}
    requires AtOrUnder(M, s) && AtOrUnder(M, b) && AtOrUnder(M, u) && b != s && u != s && u != b
    requires forall d :: d in {s, b, u} ==> d !in base && d !in head
    requires forall p :: p in l && !Alike(base, head, p) ==> if p in moved then l[p].dir == s else l[p].dir == b
    ensures IsMove(base, head, M, moved, s, b, u)
  {
    FitsIsLaidOut(base, l);
    FitsBuilds(base, l);
    FitsPlains(base, l);
    FitsIsLaidOut(head, l);
    FitsBuilds(head, l);
    FitsPlains(head, l);
    forall p | Under(M, p) && !Alike(base, head, p) ensures if p in moved then DirOf(p) == s else DirOf(p) == b {
      DiffersAt(base, head, l, p);
    }
  }

  lemma {:induction false} YardAround(n: Yard)
    requires AreApart(n)
    ensures n.b != n.d && n.u != n.d && n.u != n.b
  {
  }

  lemma {:induction false} BeheldIsMove(n: Yard, k: nat)
    requires IsYard(n)
    ensures IsMove(Beheld(n, k), Apart(n, k), M, {n.y}, n.d, n.b, n.u)
    ensures Fits(Beheld(n, k), n.l) && Fits(Apart(n, k), n.l)
  {
    YardDiffers(n);
    YardAround(n);
    BeheldFits(n, k);
    ApartFits(n, k);
    forall p | p in n.l && !Alike(Beheld(n, k), Apart(n, k), p)
      ensures if p in {n.y} then n.l[p].dir == n.d else n.l[p].dir == n.b
    {
      assert p in {n.y, n.xb};
    }
    FitsMove(Beheld(n, k), Apart(n, k), n.l, {n.y}, n.d, n.b, n.u);
  }

  lemma {:induction false} ServicesOf(k: nat)
    requires k > 0
    ensures ServicesIn(Sized(k)) == Ok([Web(k)]) && ServicesIn("h") == Ok([Scaler()]) && ServicesIn("$") == Ok([])
  {
    assert Sized(k)[0] == 'x';
  }

  lemma {:induction false} RatesDecodeToNothing(
      tool: Renderer, files: Files, l: Layout, u: string, rates: string, nodes: int)
    requires Describes(l) && Fits(files, l) && AtOrUnder(M, u) && tool.decode == ServicesIn
    requires (set q | q in files && q in l && l[q].dir == u) == {rates} && files[rates] == "$"
    ensures Worth(Plain(tool, Direct(files, u)), TableAt(1.0), nodes, 0.0)
  {
    FitsDirect(files, l, u);
    ServicesOf(1);
    PlainOne(tool, Direct(files, u), rates, []);
    NothingIsWorthNothing(TableAt(1.0), nodes);
  }

  lemma {:induction false} ServicesWorth(tool: Renderer, files: Files, p: string, q: string, k: nat, nodes: int)
    requires p != q && files.Keys == {p, q} && files[p] == Sized(k) && files[q] == "h"
    requires k > 0 && tool.decode == ServicesIn
    ensures Worth(Plain(tool, files), TableAt(1.0), nodes, 1.0)
  {
    ServicesOf(k);
    PlainTwo(tool, files, p, q, [Web(k)], [Scaler()]);
    HeldWebIsWorth(nodes, k);
  }

  lemma {:induction false} BeheldPlain(tool: Renderer, n: Yard, k: nat, nodes: int)
    requires IsYard(n) && k > 0 && tool.decode == ServicesIn
    ensures Worth(Plain(tool, Direct(Beheld(n, k), n.d)), TableAt(1.0), nodes, 1.0)
    ensures Worth(Plain(tool, Direct(Beheld(n, k), n.u)), TableAt(1.0), nodes, 0.0)
  {
    var files := Beheld(n, k);
    YardDiffers(n);
    BeheldFits(n, k);
    BeheldKeys(n, k);
    FitsDirect(files, n.l, n.d);
    ServicesWorth(tool, Direct(files, n.d), n.x, n.y, k, nodes);
    RatesDecodeToNothing(tool, files, n.l, n.u, n.rates, nodes);
  }

  lemma {:induction false} ApartPlain(tool: Renderer, n: Yard, k: nat, nodes: int)
    requires IsYard(n) && k > 0 && tool.decode == ServicesIn
    ensures Worth(Plain(tool, Direct(Apart(n, k), n.d)), TableAt(1.0), nodes, k as real)
    ensures Worth(Plain(tool, Direct(Apart(n, k), n.b)), TableAt(1.0), nodes, 0.0)
    ensures Worth(Plain(tool, Direct(Apart(n, k), n.u)), TableAt(1.0), nodes, 0.0)
  {
    var files := Apart(n, k);
    YardDiffers(n);
    ApartFits(n, k);
    ApartKeys(n, k);
    FitsDirect(files, n.l, n.d);
    FitsDirect(files, n.l, n.b);
    ServicesOf(k);
    PlainOne(tool, Direct(files, n.d), n.x, [Web(k)]);
    PlainOne(tool, Direct(files, n.b), n.xb, [Scaler()]);
    WebIsWorth(nodes, k);
    HeldWebIsWorth(nodes, k);
    RatesDecodeToNothing(tool, files, n.l, n.u, n.rates, nodes);
  }

  lemma {:induction false} ServiceShopIs(n: Yard, limit: real, files: Files)
    requires n.rates == Below(AT, RATES_NAME) && CONFIG in files && n.rates in files && files[n.rates] == "$"
    ensures var repo, cfg := ServiceShop(limit), Budgeted(limit);
            && repo.Manifests(cfg) == M && repo.ConfigOf(files) == Ok(cfg)
            && LoadTable(repo.TableOf(cfg, files)) == Ok(TableAt(1.0)) && repo.Tabled(cfg, files)
  {
    RatesLoad(ServiceShop(limit), Budgeted(limit), files);
  }

  lemma {:induction false} MovingWorth(n: Yard, limit: real, k: nat)
    requires IsYard(n) && k > 0
    ensures MoveWorth(
              ServiceShop(limit), Budgeted(limit), Beheld(n, k), Apart(n, k), {n.y}, TableAt(1.0), n.d, n.b, n.u,
              1.0, k as real, 0.0, 0.0)
  {
    YardDiffers(n);
    BeheldFits(n, k);
    ApartFits(n, k);
    ServiceShopIs(n, limit, Beheld(n, k));
    ServiceShopIs(n, limit, Apart(n, k));
    BeheldIsMove(n, k);
    BeheldPlain(ServiceShop(limit).tool, n, k, 1);
    ApartPlain(ServiceShop(limit).tool, n, k, 1);
  }

  lemma {:induction false} MovingReady(n: Yard, limit: real, k: nat)
    requires IsYard(n)
    ensures IsReady(ServiceShop(limit), Budgeted(limit), Beheld(n, k), [n.d, n.u])
    ensures IsReady(ServiceShop(limit), Budgeted(limit), Apart(n, k), [n.d, n.b, n.u])
  {
    YardDiffers(n);
    BeheldFits(n, k);
    ApartFits(n, k);
    ServiceShopIs(n, limit, Beheld(n, k));
    ServiceShopIs(n, limit, Apart(n, k));
    BeheldIsMove(n, k);
    MoveRoots(Beheld(n, k), Apart(n, k), M, {n.y}, n.d, n.b, n.u);
  }

  lemma {:induction false} ScalerDiffers(n: Yard, k: nat)
    requires IsYard(n)
    ensures Under(M, n.xb) && !Alike(Beheld(n, k), Apart(n, k), n.xb) && n.xb !in {n.y}
    ensures Fits(Beheld(n, k), n.l) && Fits(Apart(n, k), n.l)
  {
    YardDiffers(n);
    BeheldFits(n, k);
    ApartFits(n, k);
    assert LiesAt(n.xb, n.l[n.xb]);
  }

  lemma {:induction false} ListsNew(repo: Repo, cfg: Config, base: Files, head: Files, moved: set<string>, p: string)
    requires Under(repo.Manifests(cfg), p) && !Alike(base, head, p) && p !in moved
    ensures ListsMore(repo, cfg, Change(base, head), moved)
  {
    var f := Relative(repo, cfg, p);
    assert Differs(repo, cfg, Change(base, head), f);
  }

  lemma {:induction false} MovingListed(n: Yard, limit: real, k: nat)
    requires IsYard(n)
    ensures var repo, cfg, c := ServiceShop(limit), Budgeted(limit), Change(Beheld(n, k), Apart(n, k));
            PlainNames(repo, cfg, c) && ListsMore(repo, cfg, c, {n.y})
  {
    ScalerDiffers(n, k);
    FitsPlainNames(ServiceShop(limit), Budgeted(limit), Change(Beheld(n, k), Apart(n, k)), n.l);
    ListsNew(ServiceShop(limit), Budgeted(limit), Beheld(n, k), Apart(n, k), {n.y}, n.xb);
  }

  lemma {:induction false} MovingSlips(n: Yard, limit: real, k: nat, inputs: Inputs)
    requires IsYard(n) && limit > 0.0 && k > 0
    requires Setting(
               ServiceShop(limit), Budgeted(limit), Change(Beheld(n, k), Apart(n, k)), {n.y}, inputs, TableAt(1.0))
    ensures ExitsZero(inputs)
  {
    MovingListed(n, limit, k);
    MovingWorth(n, limit, k);
    ChangeIsDirect(Beheld(n, k), Apart(n, k));
    MovedFilePasses(
      ServiceShop(limit), Budgeted(limit), Change(Beheld(n, k), Apart(n, k)), {n.y}, inputs, TableAt(1.0),
      n.d, n.b, n.u, 1.0, k as real, 0.0, 0.0);
  }

  lemma {:induction false} MovingCosts(n: Yard, limit: real, k: nat)
    requires IsYard(n) && k > 0
    ensures CostsExactly(ServiceShop(limit), Budgeted(limit), Beheld(n, k), [n.d, n.u], 1.0 + 0.0)
    ensures CostsExactly(ServiceShop(limit), Budgeted(limit), Apart(n, k), [n.d, n.b, n.u], k as real + 0.0 + 0.0)
  {
    MovingWorth(n, limit, k);
    MoveCosts(
      ServiceShop(limit), Budgeted(limit), Beheld(n, k), Apart(n, k), {n.y}, TableAt(1.0), n.d, n.b, n.u,
      1.0, k as real, 0.0, 0.0);
  }

  /** An autoscaler that holds a deployment at one replica is moved to another directory: the deployment
      is on its own, and costs all its replicas. */
  lemma {:induction false} MovedSample(n: Yard, limit: real, k: nat) returns (inputs: Inputs)
    requires IsYard(n) && limit > 0.0 && k > 0
    ensures var repo, cfg, c := ServiceShop(limit), Budgeted(limit), Change(Beheld(n, k), Apart(n, k));
            && InputsOf(repo, cfg, c, {n.y}, inputs) && ExitsZero(inputs)
            && CostsExactly(repo, cfg, c.base, [n.d, n.u], 1.0 + 0.0)
            && CostsExactly(repo, cfg, c.head, [n.d, n.b, n.u], k as real + 0.0 + 0.0)
  {
    LimitedIsValid(limit, 1, RATES_NAME);
    MovingReady(n, limit, k);
    inputs := ReadyRun(
      ServiceShop(limit), Budgeted(limit), Beheld(n, k), Apart(n, k), {n.y}, [n.d, n.u], [n.d, n.b, n.u]);
    MovingSlips(n, limit, k, inputs);
    MovingCosts(n, limit, k);
  }
}
