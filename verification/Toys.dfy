/** What the samples of the changes that escape are made of.

  The manifests of these repositories are volume claims: a YAML file asks for as many gibibytes as it
  is long, and a gibibyte costs one a month. A kustomization names the one file it is built from.
 */
module Toys {
  import opened Results
  import opened Manifests
  import opened Ordering
  import opened Pricing
  import opened Cost
  import opened Timeline
  import opened Config
  import C = Config
  import opened Verdict
  import opened Render
  import opened Paths
  import opened Gate
  import opened Snapshots
  import opened Diffs
  import opened Merges
  import opened Escapes

  // ---------------------------------------------------------------- every change has a run

  const NO_COMPLAINTS: Engine := Engine(objects => PolicyResult([], []))

  function Relatives(at: string, c: Proposal, m: string, moved: set<string>): set<string> {
    set p | p in c.fork.Keys + c.head.Keys && Under(m, p) && !Alike(c.fork, c.head, p) && p !in moved
      :: if |p| > |at| then p[|at| + 1..] else ""
  }

  lemma {:induction false} RelativesDiffer(repo: Repo, cfg: Config, c: Proposal, moved: set<string>, f: string)
    ensures f in Relatives(repo.at, c, repo.Manifests(cfg), moved)
            <==> Differs(repo, cfg, c, f) && Join(repo.at, f) !in moved
  {
    var m := repo.Manifests(cfg);
    if Differs(repo, cfg, c, f) && Join(repo.at, f) !in moved {
      var p := Join(repo.at, f);
      assert p[|repo.at| + 1..] == f;
      assert p in c.fork.Keys + c.head.Keys;
    }
    if f in Relatives(repo.at, c, m, moved) {
      var p :| p in c.fork.Keys + c.head.Keys && Under(m, p) && !Alike(c.fork, c.head, p) && p !in moved
               && f == if |p| > |repo.at| then p[|repo.at| + 1..] else "";
      var g := Relative(repo, cfg, p);
      assert p[|repo.at| + 1..] == g;
    }
  }

  function RootsOfListing(kust: Kustomized, m: string, at: string, listing: seq<string>): set<string>
    requires m != ""
  {
    set i | 0 <= i < |listing| :: RootOf(kust, m, Clean(Join(at, listing[i])))
  }

  lemma {:induction false} PathsOf(repo: Repo, cfg: Config, c: Proposal, moved: set<string>)
      returns (paths: seq<string>)
    ensures AreDiffering(repo, cfg, c, moved, paths)
  {
    paths := Sorted(Relatives(repo.at, c, repo.Manifests(cfg), moved));
    forall f ensures f in paths <==> Differs(repo, cfg, c, f) && Join(repo.at, f) !in moved {
      RelativesDiffer(repo, cfg, c, moved, f);
    }
  }

  lemma {:induction false} TouchedOf(repo: Repo, cfg: Config, head: Files, listing: seq<string>)
      returns (touched: seq<string>)
    ensures AreTouched(repo, cfg, head, listing, touched)
  {
    touched := Sorted(RootsOfListing(Kust(head), repo.Manifests(cfg), repo.at, listing));
  }

  lemma {:induction false} TablesLoad(repo: Repo, cfg: Config, base: Files, head: Files)
    requires repo.Tabled(cfg, base) && repo.Tabled(cfg, head)
    ensures LoadPricingTables(repo.BaseTableOf(cfg, base), repo.TableOf(cfg, head)).Ok?
  {
  }

  /** Whatever a change is, git prints something for it, and a run is given something to answer. */
  lemma {:induction false} Answerable(
      repo: Repo, cfg: Config, c: Proposal, moved: set<string>, headRoots: seq<string>, baseRoots: seq<string>)
      returns (inputs: Inputs)
    requires IsCheckout(c) && repo.ConfigOf(c.checkout) == Ok(cfg) && IsValid(cfg)
    requires repo.Tabled(cfg, c.checkout) && repo.Tabled(cfg, c.base) && repo.Tabled(cfg, c.head)
    requires AreRoots(c.head, repo.Manifests(cfg), headRoots) && AreRoots(c.base, repo.Manifests(cfg), baseRoots)
    ensures InputsOf(repo, cfg, c, moved, inputs) && AllAnswer(inputs) && inputs.engine == NO_COMPLAINTS
  {
    var paths := PathsOf(repo, cfg, c, moved);
    var listing := ReadLines(Output(paths));
    assert IsListing(repo, cfg, c, moved, listing);
    var touched := TouchedOf(repo, cfg, c.head, listing);
    TablesLoad(repo, cfg, c.base, c.head);
    inputs := InputsFor(repo, cfg, c, Ok(listing), touched, headRoots, baseRoots, NO_COMPLAINTS, Ok(()));
    InputsForAre(repo, cfg, c, moved, Ok(listing), touched, headRoots, baseRoots, NO_COMPLAINTS, Ok(()));
  }

  lemma {:induction false} HasRun(
      repo: Repo, cfg: Config, c: Proposal, moved: set<string>, headRoots: seq<string>, baseRoots: seq<string>,
      table: Table) returns (inputs: Inputs)
    requires IsCheckout(c) && repo.ConfigOf(c.checkout) == Ok(cfg) && IsValid(cfg) && cfg.cost.mode == Absolute
    requires repo.Tabled(cfg, c.checkout)
    requires LoadTable(repo.TableOf(cfg, c.base)) == Ok(table) == LoadTable(repo.TableOf(cfg, c.head))
    requires AreRoots(c.head, repo.Manifests(cfg), headRoots) && AreRoots(c.base, repo.Manifests(cfg), baseRoots)
    ensures Setting(repo, cfg, c, moved, inputs, table)
  {
    inputs := Answerable(repo, cfg, c, moved, headRoots, baseRoots);
  }

  // ---------------------------------------------------------------- objects

  function Fields(key: string, v: Value): Value {
    Map(map[key := v])
  }

  function ClaimOf(gib: nat): Object {
    map[
      "kind" := Str(Text("PersistentVolumeClaim", None)),
      "spec" := Fields("resources", Fields("requests", Fields("storage", Int(gib * 1073741824))))]
  }

  /** A gibibyte of storage costs `price` a month, and a core one. */
  function TableAt(price: real): Table {
    var free := Rate("", 0.0, false);
    Table(
      Metadata("", 1, "", ""),
      Spec("USD", 1.0, Rates(Rate("", 1.0, false), free, Rate("", price, false)), free,
           MissingRequests(Text("", None), Text("", None), false)))
  }

  lemma {:induction false} ClaimReserves(table: Table, nodes: int, gib: nat)
    ensures Reserve(table, nodes, ClaimOf(gib)) == Ok(Reserves(1, Resources(0.0, 0.0, gib as real), []))
    ensures ScalerOf(ClaimOf(gib)) == None
  {
    var o := ClaimOf(gib);
    assert KindOf(o) == "PersistentVolumeClaim";
    assert RequestsOf(SpecOf(o)) == map["storage" := Int(gib * 1073741824)];
    assert (gib * 1073741824) as real == (gib as real) * 1073741824.0;
    assert Gib((gib * 1073741824) as real) == gib as real;
  }

  lemma {:induction false} StorageCosts(price: real, gib: real, amount: real)
    requires amount == gib * price
    ensures CostOf(TableAt(price), Resources(0.0, 0.0, gib).Scale(1 as real)) == amount
  {
    assert Resources(0.0, 0.0, gib).Scale(1 as real) == Resources(0.0, 0.0, gib);
  }

  lemma {:induction false} ClaimWorth(table: Table, nodes: int, gib: nat)
    ensures Unscaled([ClaimOf(gib)])
    ensures Worth(
              Rendered([ClaimOf(gib)]), table, nodes, CostOf(table, Resources(0.0, 0.0, gib as real).Scale(1 as real)))
  {
    ClaimReserves(table, nodes, gib);
    ObjectIsWorth(table, nodes, ClaimOf(gib));
  }

  lemma {:induction false} ClaimIsWorth(price: real, nodes: int, gib: nat, amount: real)
    requires amount == (gib as real) * price
    ensures Unscaled([ClaimOf(gib)]) && Worth(Rendered([ClaimOf(gib)]), TableAt(price), nodes, amount)
  {
    ClaimWorth(TableAt(price), nodes, gib);
    StorageCosts(price, gib as real, amount);
  }

  /** The object reserves that much, and is not scaled. */
  predicate IsReserving(table: Table, nodes: int, o: Object, replicas: int, per: Resources) {
    var r := Reserve(table, nodes, o);
    r.Ok? && r.value.Reserves? && r.value.replicas == replicas && r.value.per == per && ScalerOf(o) == None
  }

  lemma {:induction false} ReservedWorth(table: Table, nodes: int, o: Object, replicas: int, per: Resources)
    requires IsReserving(table, nodes, o, replicas, per)
    ensures Unscaled([o]) && Worth(Rendered([o]), table, nodes, CostOf(table, per.Scale(replicas as real)))
  {
    ObjectIsWorth(table, nodes, o);
  }

  /** A pod of one core. */
  function OneCore(): Value {
    Fields("containers", List([Container("app", 1, false)]))
  }

  lemma {:induction false} OneCoreHolds(table: Table)
    ensures PodResult(table, OneCore()).Ok? && PodResult(table, OneCore()).value.res == Resources(1.0, 0.0, 0.0)
  {
    var app := Container("app", 1, false);
    var none: seq<Value> := [];
    ContainerReserves(table, "app", 1, false);
    OneContainer(table, app, Holding(1));
    assert Inits(table, none) == Ok([]);
    assert [Holding(1)][..0] == [];
  }

  lemma {:induction false} CoresCost(price: real, n: int)
    ensures CostOf(TableAt(price), Resources(1.0, 0.0, 0.0).Scale(n as real)) == n as real
  {
    assert Resources(1.0, 0.0, 0.0).Scale(n as real) == Resources(n as real, 0.0, 0.0);
  }

  // ---------------------------------------------------------------- the repositories

  const AT: DirPath := "/tree"

  const M: DirPath := Below(AT, "manifests")

  const CONFIG: DirPath := Below(AT, "gate.yaml")

  const RATES_NAME: string := "manifests/prices/rates.yaml"

  const RATES_BESIDE: DirPath := Below(AT, "rates")

  lemma {:induction false} PlainJoin(name: string)
    requires name != "" && name[|name| - 1] != '/'
    ensures Below(AT, name) == Join(AT, name)
  {
  }

  lemma {:induction false} Names()
    ensures M == Join(AT, "manifests") && CONFIG == Join(AT, "gate.yaml") && RATES_BESIDE == Join(AT, "rates")
    ensures Under(AT, M) && M[|AT| + 1] == 'm' && CONFIG[|AT| + 1] == 'g'
  {
  }

  const KUST: string := "kustomization.yaml"

  /** A YAML file claims what it is long; the rate table nothing. */
  function ClaimsIn(contents: string): Result<seq<Object>, string> {
    if contents != "" && contents[0] == '$' then Ok([]) else Ok([ClaimOf(|contents|)])
  }

  /** A kustomization names a file; the build claims that file's length as often as the directory says. */
  function ToyBuild(weight: string -> nat, files: Files, dir: string): Rendering {
    var k := Join(dir, KUST);
    if k in files && files[k] in files then Rendered([ClaimOf(weight(dir) * |files[files[k]]|)])
    else RenderFailed("nothing to build")
  }

  function ToyLooks(files: Files, dir: string): set<string> {
    var k := Join(dir, KUST);
    if k in files then {k, files[k]} else {k}
  }

  function Toy(weight: string -> nat): Renderer {
    Renderer((files: Files, dir: string) => ToyBuild(weight, files, dir), ToyLooks, ClaimsIn)
  }

  /** Such builds depend on the two files they look at. */
  lemma {:induction false} ToyIsLawful(weight: string -> nat)
    ensures Lawful(Toy(weight))
  {
    var tool := Toy(weight);
    forall f: Files, g: Files, dir: string | forall p :: p in tool.looks(f, dir) ==> Alike(f, g, p)
      ensures tool.build(f, dir) == tool.build(g, dir)
    {
      var k := Join(dir, KUST);
      assert k in tool.looks(f, dir);
      if k in f {
        assert f[k] in tool.looks(f, dir);
        assert Alike(f, g, k) && Alike(f, g, f[k]);
      }
    }
  }

  function Sized(n: nat): (contents: string)
    ensures |contents| == n && (n > 0 ==> contents[0] != '$')
  {
    seq(n, i => 'x')
  }

  function Limited(limit: real, nodes: int, pricing: string): Config {
    Config(
      C.Paths("manifests", "policies", pricing),
      CostConfig(
        Absolute, Thresholds(limit, 0.0), Thresholds(0.0, 0.0), true, nodes, AutoscalingBudget(75.0, 0.0, 10.0)),
      PolicyConfig(["error"], map[], true))
  }

  type Configure = string -> Result<Config, string>

  /** The rate table is as long as a gibibyte costs. */
  function Shop(tool: Renderer, configure: Configure): Repo {
    Repo(AT, CONFIG, tool, contents => Ok(TableAt(|contents| as real)), configure)
  }

  function Always(cfg: Config): Configure {
    contents => Ok(cfg)
  }

  lemma {:induction false} LimitedIsValid(limit: real, nodes: int, pricing: string)
    requires limit > 0.0 && nodes >= 1 && pricing != ""
    ensures IsValid(Limited(limit, nodes, pricing))
  {
  }

  const ONCE: string -> nat := (dir: string) => 1

  function Budgeted(limit: real): Config {
    Limited(limit, 1, RATES_NAME)
  }

  /** The rates of these repositories: a gibibyte costs one a month. */
  lemma {:induction false} RatesLoad(repo: Repo, cfg: Config, files: Files)
    requires repo.load == Shop(repo.tool, repo.configure).load
    requires repo.TablePath(cfg) in files && files[repo.TablePath(cfg)] == "$"
    ensures LoadTable(repo.TableOf(cfg, files)) == Ok(TableAt(1.0)) && repo.Tabled(cfg, files)
  {
    assert |"$"| as real == 1.0;
  }

  /** A change made to the tip of the base, checked out at its head. */
  function Change(base: Files, head: Files): Proposal {
    Proposal(base, base, head, head)
  }

  lemma {:induction false} ChangeIsDirect(base: Files, head: Files)
    ensures Change(base, head).fork == Change(base, head).base
  {
  }

  // ---------------------------------------------------------------- places

  /** The directory of a manifest, and whether it makes that a build. */
  datatype Place = Place(dir: string, kust: bool)

  /** Where the manifests lie. */
  type Layout = map<string, Place>

  ghost predicate LiesAt(p: string, at: Place) {
    && Under(M, p) && DirOf(p) == at.dir && AtOrUnder(M, at.dir) && Ordinary(M, at.dir)
    && IsYaml(p) && (IsKust(p) <==> at.kust)
    && exists f :: p == Join(AT, f) && IsPlainName(f)
  }

  ghost predicate Describes(l: Layout) {
    (forall p {:trigger LiesAt(p, l[p])} :: p in l ==> LiesAt(p, l[p])) && CONFIG !in l && !Under(M, CONFIG)
  }

  /** A commit with the configuration and some of the manifests. */
  predicate Fits(files: Files, l: Layout) {
    CONFIG in files && forall p :: p in files && Under(M, p) ==> p in l
  }

  function KustDirs(files: Files, l: Layout): set<string> {
    set p | p in files && p in l && l[p].kust :: l[p].dir
  }

  function YamlDirs(files: Files, l: Layout): set<string> {
    set p | p in files && p in l :: l[p].dir
  }

  lemma {:induction false} FitsIsLaidOut(files: Files, l: Layout)
    requires Describes(l) && Fits(files, l)
    ensures LaidOut(files, M)
  {
    forall p | p in files && Under(M, p) ensures Ordinary(M, DirOf(p)) {
      assert LiesAt(p, l[p]);
    }
  }

  lemma {:induction false} FitsBuilds(files: Files, l: Layout)
    requires Describes(l) && Fits(files, l)
    ensures Builds(files, M) == KustDirs(files, l)
  {
    forall p | p in files && p in l ensures Under(M, p) && DirOf(p) == l[p].dir && (IsKust(p) <==> l[p].kust) {
      assert LiesAt(p, l[p]);
    }
  }

  lemma {:induction false} FitsPlains(files: Files, l: Layout)
    requires Describes(l) && Fits(files, l)
    ensures Plains(files, M) == YamlDirs(files, l)
  {
    forall p | p in files && p in l ensures Under(M, p) && DirOf(p) == l[p].dir && IsYaml(p) {
      assert LiesAt(p, l[p]);
    }
  }

  /** What two commits differ in. */
  lemma {:induction false} DiffersAt(base: Files, head: Files, l: Layout, p: string)
    requires Describes(l) && Fits(base, l) && Fits(head, l) && Under(M, p) && !Alike(base, head, p)
    ensures p in l && (p in base || p in head) && DirOf(p) == l[p].dir
  {
    assert p in l ==> LiesAt(p, l[p]);
  }

  lemma {:induction false} FitsDirect(files: Files, l: Layout, d: string)
    requires Describes(l) && Fits(files, l) && AtOrUnder(M, d)
    ensures Direct(files, d).Keys == set p | p in files && p in l && l[p].dir == d
  {
    forall p | p in files ensures p in Direct(files, d) <==> p in l && l[p].dir == d {
      if p in l {
        assert LiesAt(p, l[p]);
      } else if DirOf(p) == d {
        DirectUnder(M, p);
      }
    }
  }

  lemma {:induction false} JoinTells(at: string, f: string, g: string)
    requires Join(at, f) == Join(at, g)
    ensures f == g
  {
    assert Join(at, f)[|at| + 1..] == f;
    assert Join(at, g)[|at| + 1..] == g;
  }

  lemma {:induction false} FitsPlainNames(repo: Repo, cfg: Config, c: Proposal, l: Layout)
    requires repo.at == AT && repo.Manifests(cfg) == M && Describes(l) && Fits(c.fork, l) && Fits(c.head, l)
    ensures PlainNames(repo, cfg, c)
  {
    forall f | Differs(repo, cfg, c, f) ensures IsPlainName(f) {
      var p := Join(AT, f);
      DiffersAt(c.fork, c.head, l, p);
      assert LiesAt(p, l[p]);
      var g :| p == Join(AT, g) && IsPlainName(g);
      JoinTells(AT, f, g);
    }
  }

  // ---------------------------------------------------------------- what files are worth

  lemma {:induction false} SizedIsWorth(weight: string -> nat, price: real, nodes: int, n: nat, amount: real)
    requires n > 0 && amount == (n as real) * price
    ensures FileWorth(Toy(weight), Sized(n), TableAt(price), nodes, amount)
  {
    ClaimIsWorth(price, nodes, n, amount);
    assert ClaimsIn(Sized(n)) == Ok([ClaimOf(n)]);
  }

  lemma {:induction false} RatesAreWorthNothing(weight: string -> nat, price: real, nodes: int)
    ensures FileWorth(Toy(weight), "$", TableAt(price), nodes, 0.0)
  {
    NothingIsWorthNothing(TableAt(price), nodes);
  }

  /** A directory with one file is worth what that is. */
  lemma {:induction false} OneFileWorth(
      tool: Renderer, files: Files, d: string, p: string, table: Table, nodes: int, amount: real)
    requires Direct(files, d).Keys == {p} && FileWorth(tool, files[p], table, nodes, amount)
    ensures Worth(Plain(tool, Direct(files, d)), table, nodes, amount)
  {
    var value := Two(p, amount, p, amount);
    WorthOfFiles(tool, Direct(files, d), table, nodes, value);
    SumOverOne(value, p);
  }

  lemma {:induction false} SizedAt(files: Files, p: string, k: nat, nodes: int, amount: real)
    requires p in files && files[p] == Sized(k) && k > 0 && amount == k as real
    ensures FileWorth(Toy(ONCE), files[p], TableAt(1.0), nodes, amount)
  {
    SizedIsWorth(ONCE, 1.0, nodes, k, amount);
  }
}
