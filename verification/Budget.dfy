/** What passing merges can add up to. */
module Budget {
  import opened Results
  import opened Ordering
  import opened Folds
  import opened Cost
  import opened Delta
  import opened Config
  import opened Verdict
  import opened Decisions
  import opened Gate
  import opened Estate

  /** One merge: either no manifest changed, or a run evaluated the change. */
  datatype Merge = Unevaluated | Evaluated(inputs: Inputs, e: Evaluation)

  /** `roots` lists, once each, at least the roots that the tree renders to something. */
  ghost predicate Enumerated(tree: Tree, roots: seq<string>) {
    Distinct(roots) && forall r :: Holds(tree, r) ==> r in roots
  }

  /** The run sees the given directories as the commit's estate has them. */
  ghost predicate SameAt(t: Tree, u: Tree, roots: seq<string>) {
    forall r :: r in roots ==> t(r) == u(r)
  }

  /** The run compares all of the change, as the two estates have it. */
  ghost predicate SeesChange(trees: (Tree, Tree), base: Commit, head: Commit, roots: seq<string>) {
    SameAt(trees.0, base.tree, roots) && SameAt(trees.1, head.tree, roots) && InScope(base, head, roots)
  }

  /** The run takes its percentage of the whole estate at the base. */
  ghost predicate SeesEstate(tree: Tree, base: Commit, roots: seq<string>) {
    Enumerated(base.tree, roots) && SameAt(tree, base.tree, roots)
  }

  /** The gate let the change from `base` to `head` through. `Merges` derives this from an exit code. */
  ghost predicate Passes(cfg: Config, base: Commit, head: Commit, m: Merge) {
    match m
    case Unevaluated => InScope(base, head, [])
    case Evaluated(inputs, e) =>
      && EvaluationOf(inputs, e)
      && e.cfg == cfg && e.baseTable == base.table && e.headTable == head.table
      && SeesChange(inputs.trees.value, base, head, e.roots)
      && (inputs.baseRoots.Ok? ==> SeesEstate(inputs.trees.value.0, base, inputs.baseRoots.value))
      && Judge(cfg, e.delta, e.costErrors, e.policy).decision == Pass
  }

  /** The percentage was taken of the estate: its roots could be listed. */
  predicate HasEstate(m: Merge) {
    m.Evaluated? ==> m.inputs.baseRoots.Ok?
  }

  ghost predicate History(cfg: Config, commits: seq<Commit>, merges: seq<Merge>) {
    && |commits| == |merges| + 1
    && forall i: nat :: i < |merges| ==> PassesAt(cfg, commits, merges, i)
  }

  ghost predicate PassesAt(cfg: Config, commits: seq<Commit>, merges: seq<Merge>, i: nat)
    requires i < |merges| && |commits| == |merges| + 1
  {
    Passes(cfg, commits[i], commits[i + 1], merges[i])
  }

  /** Every commit of the history is sane and has its roots among `all`. */
  ghost predicate Tracked(cfg: Config, commits: seq<Commit>, all: Roots) {
    && Distinct(all)
    && forall i :: 0 <= i < |commits| ==>
         SaneCommit(commits[i], cfg.cost.assumedNodeCount) && forall r :: Holds(commits[i].tree, r) ==> r in all
  }

  function Committed(cfg: Config, c: Commit, all: Roots): real {
    Total(Floor, c, cfg.cost.assumedNodeCount, all)
  }

  function Authorised(cfg: Config, c: Commit, all: Roots): real {
    Total(Ceiling, c, cfg.cost.assumedNodeCount, all)
  }

  // ---------------------------------------------------------------- one merge

  /** The figures a run judges are the scoped differences of the estates it compared. */
  lemma {:induction false} JudgedFigures(cfg: Config, base: Commit, head: Commit, m: Merge)
    requires Passes(cfg, base, head, m) && m.Evaluated?
    ensures var nodes := cfg.cost.assumedNodeCount;
            && m.e.delta.money.committedDeltaUSD == ScopedDelta(Floor, base, head, nodes, m.e.roots)
            && m.e.delta.money.deltaMonthlyUSD == ScopedDelta(Ceiling, base, head, nodes, m.e.roots)
  {
    PassIsEarned(m.inputs, m.e);
    var trees, nodes := m.inputs.trees.value, cfg.cost.assumedNodeCount;
    CoveredTotals(m.e.base, trees.0, base, nodes, m.e.roots);
    CoveredTotals(m.e.head, trees.1, head, nodes, m.e.roots);
  }

  lemma {:induction false} CoveredTotals(est: Estimate, tree: Tree, c: Commit, nodes: int, roots: Roots)
    requires Covers(est, tree, c.table, nodes, roots) && SameAt(tree, c.tree, roots)
    ensures est.monthlyUSD == Total(Ceiling, c, nodes, roots)
    ensures est.committedMonthlyUSD == Total(Floor, c, nodes, roots)
  {
    SeenTotal(Ceiling, tree, c, nodes, roots);
    SeenTotal(Floor, tree, c, nodes, roots);
  }

  lemma {:induction false} SeenTotal(f: Figure, tree: Tree, c: Commit, nodes: int, roots: Roots)
    requires SameAt(tree, c.tree, roots)
    ensures Total(f, Commit(tree, c.table), nodes, roots) == Total(f, c, nodes, roots)
  {
    forall r | r in roots ensures CostAt(f, Commit(tree, c.table), nodes, r) == CostAt(f, c, nodes, r) {
      SameRenderingSameCost(f, tree, c, nodes, r);
    }
    SumAgrees(Costs(f, Commit(tree, c.table), nodes), Costs(f, c, nodes), roots);
  }

  lemma {:induction false} SameRenderingSameCost(f: Figure, tree: Tree, c: Commit, nodes: int, r: string)
    requires tree(r) == c.tree(r)
    ensures CostAt(f, Commit(tree, c.table), nodes, r) == CostAt(f, c, nodes, r)
  {
  }

  lemma {:induction false} UnevaluatedCosts(f: Figure, base: Commit, head: Commit, nodes: int, all: Roots)
    requires InScope(base, head, []) && Lists(all, base, head) && SaneCommit(base, nodes)
    ensures Total(f, head, nodes, all) <= Total(f, base, nodes, all)
  {
    ScopedNeverTooLow(f, base, head, nodes, all, []);
  }

  /** A merge raises the committed estate by no more than the committed increase it was judged
      at, and the authorised estate by no more than that and the headroom. */
  lemma {:induction false} MergeWithinJudged(cfg: Config, base: Commit, head: Commit, m: Merge, all: Roots)
    requires IsValid(cfg) && Passes(cfg, base, head, m) && m.Evaluated?
    requires Lists(all, base, head) && SaneCommit(base, cfg.cost.assumedNodeCount)
    ensures var money := m.e.delta.money;
            && Committed(cfg, head, all) <= Committed(cfg, base, all) + money.committedDeltaUSD
            && Authorised(cfg, head, all)
               <= Authorised(cfg, base, all) + money.committedDeltaUSD + cfg.cost.autoscaling.maxCeilingDeltaUSD
            && CommittedWithinBudget(cfg.cost, money)
  {
    var nodes := cfg.cost.assumedNodeCount;
    JudgedFigures(cfg, base, head, m);
    PassesExactlyWhen(cfg, m.e.delta, m.e.costErrors, m.e.policy);
    ScopedNeverTooLow(Floor, base, head, nodes, all, m.e.roots);
    ScopedNeverTooLow(Ceiling, base, head, nodes, all, m.e.roots);
  }

  /** In the modes with an absolute limit, one merge adds at most that limit. */
  lemma {:induction false} AbsoluteStep(cfg: Config, base: Commit, head: Commit, m: Merge, all: Roots)
    requires IsValid(cfg) && cfg.cost.mode != Percent && Passes(cfg, base, head, m)
    requires Lists(all, base, head) && SaneCommit(base, cfg.cost.assumedNodeCount)
    ensures Committed(cfg, head, all) <= Committed(cfg, base, all) + cfg.cost.block.maxMonthlyDeltaUSD
    ensures Authorised(cfg, head, all)
            <= Authorised(cfg, base, all) + cfg.cost.block.maxMonthlyDeltaUSD + cfg.cost.autoscaling.maxCeilingDeltaUSD
  {
    if m.Evaluated? {
      MergeWithinJudged(cfg, base, head, m, all);
    } else {
      UnevaluatedCosts(Floor, base, head, cfg.cost.assumedNodeCount, all);
      UnevaluatedCosts(Ceiling, base, head, cfg.cost.assumedNodeCount, all);
    }
  }

  /** Listing at least the roots that hold something misses no cost. */
  lemma {:induction false} ListedIsWhole(f: Figure, c: Commit, nodes: int, all: Roots, listed: Roots)
    requires Enumerated(c.tree, all) && Enumerated(c.tree, listed)
    ensures Total(f, c, nodes, all) == Total(f, c, nodes, listed)
  {
    CommitSplits(f, c, nodes, all, listed);
    var rest := Without(all, listed);
    WithoutMembers(all, listed);
    forall r | r in rest ensures Costs(f, c, nodes)(r) == Zero(r) {
      MissingRootIsFree(f, c, nodes, r);
    }
    SumAgrees(Costs(f, c, nodes), Zero, rest);
    SumOfZero(rest);
  }

  lemma {:induction false} EstateAt(tree: Tree, c: Commit, nodes: int, roots: Roots)
    requires SameAt(tree, c.tree, roots)
    ensures EstateOf(tree, c.table, nodes, Ok(roots)) == Total(Ceiling, c, nodes, roots)
  {
    SeenTotal(Ceiling, tree, c, nodes, roots);
  }

  /** The percentage is taken of the whole estate at the base. */
  lemma {:induction false} EstateIsAuthorised(cfg: Config, base: Commit, head: Commit, m: Merge, all: Roots)
    requires Passes(cfg, base, head, m) && m.Evaluated? && HasEstate(m) && Enumerated(base.tree, all)
    ensures m.e.estate == Authorised(cfg, base, all)
  {
    var nodes, listed := cfg.cost.assumedNodeCount, m.inputs.baseRoots.value;
    EstateAt(m.inputs.trees.value.0, base, nodes, listed);
    ListedIsWhole(Ceiling, base, nodes, all, listed);
  }

  /** So many percent of an amount. */
  function Part(percent: real, whole: real): real {
    (percent / 100.0) * whole
  }

  lemma {:induction false} PercentLimits(part: real, whole: real, limit: real)
    requires whole > 0.0 && PercentOf(part, whole) <= limit
    ensures part <= Part(limit, whole)
  {
    assert part / whole <= limit / 100.0;
    assert part == (part / whole) * whole;
    LeqTimes(part / whole, limit / 100.0, whole);
  }

  lemma {:induction false} LeqTimes(x: real, y: real, z: real)
    requires x <= y && z >= 0.0
    ensures x * z <= y * z
  {
  }

  lemma {:induction false} NonNegativeTimes(x: real, y: real)
    requires x >= 0.0 && y >= 0.0
    ensures x * y >= 0.0
  {
  }

  lemma {:induction false} ShareOfJudged(cfg: CostConfig, base: Estimate, head: Estimate, money: Money, estate: real)
    requires (cfg.mode == Percent || cfg.mode == Both) && cfg.block.maxPercentIncrease > 0.0 && estate > 0.0
    requires money == Headline(base, head, estate) && CommittedWithinBudget(cfg, money)
    ensures money.committedDeltaUSD <= Part(cfg.block.maxPercentIncrease, estate)
  {
    NonNegativeTimes(cfg.block.maxPercentIncrease / 100.0, estate);
    if money.committedDeltaUSD > 0.0 {
      PercentLimits(money.committedDeltaUSD, estate, cfg.block.maxPercentIncrease);
    }
  }

  lemma {:induction false} HasPercentLimit(cfg: Config)
    requires IsValid(cfg) && cfg.cost.mode != Absolute
    ensures (cfg.cost.mode == Percent || cfg.cost.mode == Both) && cfg.cost.block.maxPercentIncrease > 0.0
  {
  }

  lemma {:induction false} JudgedWithinShare(cfg: Config, base: Commit, head: Commit, m: Merge, all: Roots)
    requires IsValid(cfg) && cfg.cost.mode != Absolute && Passes(cfg, base, head, m) && m.Evaluated?
    requires HasEstate(m) && Enumerated(base.tree, all)
    requires Authorised(cfg, base, all) > 0.0 && CommittedWithinBudget(cfg.cost, m.e.delta.money)
    ensures m.e.delta.money.committedDeltaUSD <= Part(cfg.cost.block.maxPercentIncrease, Authorised(cfg, base, all))
  {
    HasPercentLimit(cfg);
    EstateIsAuthorised(cfg, base, head, m, all);
    JudgedHeadline(m.inputs, m.e);
    ShareOfJudged(cfg.cost, m.e.base, m.e.head, m.e.delta.money, m.e.estate);
  }

  lemma {:induction false} JudgedHeadline(inputs: Inputs, e: Evaluation)
    requires EvaluationOf(inputs, e)
    ensures e.delta.money == Headline(e.base, e.head, e.estate)
  {
  }

  /** In the modes with a percentage, one merge adds at most that share of a positive estate. */
  lemma {:induction false} PercentStep(cfg: Config, base: Commit, head: Commit, m: Merge, all: Roots)
    requires IsValid(cfg) && cfg.cost.mode != Absolute && Passes(cfg, base, head, m)
    requires Lists(all, base, head) && SaneCommit(base, cfg.cost.assumedNodeCount)
    requires HasEstate(m) && Authorised(cfg, base, all) > 0.0
    ensures var added := Part(cfg.cost.block.maxPercentIncrease, Authorised(cfg, base, all));
            && Committed(cfg, head, all) <= Committed(cfg, base, all) + added
            && Authorised(cfg, head, all)
               <= Authorised(cfg, base, all) + added + cfg.cost.autoscaling.maxCeilingDeltaUSD
  {
    if m.Evaluated? {
      MergeWithinJudged(cfg, base, head, m, all);
      JudgedWithinShare(cfg, base, head, m, all);
    } else {
      NonNegativeTimes(cfg.cost.block.maxPercentIncrease / 100.0, Authorised(cfg, base, all));
      UnevaluatedCosts(Floor, base, head, cfg.cost.assumedNodeCount, all);
      UnevaluatedCosts(Ceiling, base, head, cfg.cost.assumedNodeCount, all);
    }
  }

  // ---------------------------------------------------------------- whole histories

  /** `x`, `n` times over. */
  function Times(n: nat, x: real): real {
    if n == 0 then 0.0 else Times(n - 1, x) + x
  }

  lemma {:induction false} TimesIs(n: nat, x: real)
    ensures Times(n, x) == (n as real) * x
  {
    if n > 0 {
      TimesIs(n - 1, x);
      assert (n as real) * x == ((n - 1) as real) * x + x;
    }
  }

  type Figures = seq<real>

  lemma {:induction false} LinearGrowth(x: Figures, step: real, n: nat)
    requires n < |x| && forall i :: 0 < i < |x| ==> x[i] <= x[i - 1] + step
    ensures x[n] <= x[0] + Times(n, step)
  {
    if n > 0 {
      LinearGrowth(x, step, n - 1);
    }
  }

  /** A total of every commit of a history. */
  function Course(f: Figure, cfg: Config, commits: seq<Commit>, all: Roots): (x: Figures)
    ensures |x| == |commits|
    ensures forall i :: 0 <= i < |x| ==> x[i] == Total(f, commits[i], cfg.cost.assumedNodeCount, all)
  {
    seq(|commits|, i requires 0 <= i < |commits| => Total(f, commits[i], cfg.cost.assumedNodeCount, all))
  }

  lemma {:induction false} Neighbours(cfg: Config, commits: seq<Commit>, all: Roots, i: nat)
    requires Tracked(cfg, commits, all) && 0 < i < |commits|
    ensures Lists(all, commits[i - 1], commits[i]) && SaneCommit(commits[i - 1], cfg.cost.assumedNodeCount)
  {
  }

  lemma {:induction false} CoursesGrow(
      cfg: Config, commits: seq<Commit>, merges: seq<Merge>, all: Roots, x: Figures, y: Figures)
    requires IsValid(cfg) && cfg.cost.mode != Percent
    requires History(cfg, commits, merges) && Tracked(cfg, commits, all)
    requires x == Course(Floor, cfg, commits, all) && y == Course(Ceiling, cfg, commits, all)
    ensures var limit, burst := cfg.cost.block.maxMonthlyDeltaUSD, cfg.cost.autoscaling.maxCeilingDeltaUSD;
            forall i :: 0 < i < |commits| ==> x[i] <= x[i - 1] + limit && y[i] <= y[i - 1] + (limit + burst)
  {
    forall i | 0 < i < |commits|
      ensures x[i] <= x[i - 1] + cfg.cost.block.maxMonthlyDeltaUSD
      ensures y[i] <= y[i - 1] + (cfg.cost.block.maxMonthlyDeltaUSD + cfg.cost.autoscaling.maxCeilingDeltaUSD)
    {
      Neighbours(cfg, commits, all, i);
      assert PassesAt(cfg, commits, merges, i - 1);
      AbsoluteStep(cfg, commits[i - 1], commits[i], merges[i - 1], all);
    }
  }

  /** An amount that has grown by at most `step`, `n` times. */
  predicate WithinSteps(before: real, after: real, n: nat, step: real) {
    after <= before + (n as real) * step
  }

  lemma {:induction false} BothGrow(x: Figures, y: Figures, limit: real, burst: real, n: nat)
    requires |x| == |y| && n < |x|
    requires forall i :: 0 < i < |x| ==> x[i] <= x[i - 1] + limit && y[i] <= y[i - 1] + (limit + burst)
    ensures WithinSteps(x[0], x[n], n, limit) && WithinSteps(y[0], y[n], n, limit + burst)
  {
    LinearGrowth(x, limit, n);
    LinearGrowth(y, limit + burst, n);
    TimesIs(n, limit);
    TimesIs(n, limit + burst);
  }

  /** After any number of passing merges under an absolute limit, committed spend has grown by at
      most that limit each time, and the authorised ceiling by at most the limit and the burst cap. */
  lemma {:induction false} BudgetOverHistory(cfg: Config, commits: seq<Commit>, merges: seq<Merge>, all: Roots, n: nat)
    requires IsValid(cfg) && cfg.cost.mode != Percent
    requires History(cfg, commits, merges) && Tracked(cfg, commits, all) && n <= |merges|
    ensures var limit, burst := cfg.cost.block.maxMonthlyDeltaUSD, cfg.cost.autoscaling.maxCeilingDeltaUSD;
            && WithinSteps(Committed(cfg, commits[0], all), Committed(cfg, commits[n], all), n, limit)
            && WithinSteps(Authorised(cfg, commits[0], all), Authorised(cfg, commits[n], all), n, limit + burst)
  {
    var limit, burst := cfg.cost.block.maxMonthlyDeltaUSD, cfg.cost.autoscaling.maxCeilingDeltaUSD;
    var x, y := Course(Floor, cfg, commits, all), Course(Ceiling, cfg, commits, all);
    CoursesGrow(cfg, commits, merges, all, x, y);
    BothGrow(x, y, limit, burst, n);
  }

  function Power(x: real, n: nat): real {
    if n == 0 then 1.0 else Power(x, n - 1) * x
  }

  /** What the burst cap adds up to in the end, in terms of the percentage. */
  function Shift(percent: real, burst: real): real
    requires percent > 0.0
  {
    burst / (percent / 100.0)
  }

  /** An amount after `n` increases of so many percent. */
  function Compounded(percent: real, start: real, n: nat): real {
    start * Power(1.0 + percent / 100.0, n)
  }

  /** An amount that has grown by so many percent and the burst cap, `n` times. */
  predicate WithinGrowth(before: real, after: real, n: nat, percent: real, burst: real)
    requires percent > 0.0
  {
    after + Shift(percent, burst) <= Compounded(percent, before + Shift(percent, burst), n)
  }

  lemma {:induction false} CompoundStep(percent: real, burst: real, before: real, after: real, bound: real)
    requires percent > 0.0 && after <= before + Part(percent, before) + burst
    requires before + Shift(percent, burst) <= bound
    ensures after + Shift(percent, burst) <= bound * (1.0 + percent / 100.0)
  {
    var share, k := percent / 100.0, Shift(percent, burst);
    assert k * share == burst;
    assert (before + k) * (1.0 + share) == before + share * before + k + k * share;
    LeqTimes(before + k, bound, 1.0 + share);
  }

  lemma {:induction false} CompoundMore(percent: real, start: real, n: nat)
    requires n > 0
    ensures Compounded(percent, start, n) == Compounded(percent, start, n - 1) * (1.0 + percent / 100.0)
  {
    var x := 1.0 + percent / 100.0;
    assert start * (Power(x, n - 1) * x) == (start * Power(x, n - 1)) * x;
  }

  lemma {:induction false} CompoundGrowth(y: Figures, percent: real, burst: real, n: nat)
    requires n < |y| && percent > 0.0
    requires forall i :: 0 < i < |y| ==> y[i] <= y[i - 1] + Part(percent, y[i - 1]) + burst
    ensures y[n] + Shift(percent, burst) <= Compounded(percent, y[0] + Shift(percent, burst), n)
  {
    if n > 0 {
      var start := y[0] + Shift(percent, burst);
      CompoundGrowth(y, percent, burst, n - 1);
      CompoundStep(percent, burst, y[n - 1], y[n], Compounded(percent, start, n - 1));
      CompoundMore(percent, start, n);
    }
  }

  /** Under a percentage limit, while the estate is positive, the authorised estate compounds:
      shifted by the burst cap over the share, it grows by at most the share at each merge.
      Committed spend stays below it. */
  lemma {:induction false} CompoundOverHistory(
      cfg: Config, commits: seq<Commit>, merges: seq<Merge>, all: Roots, n: nat)
    requires IsValid(cfg) && cfg.cost.mode != Absolute
    requires History(cfg, commits, merges) && Tracked(cfg, commits, all) && n <= |merges|
    requires forall i :: 0 <= i < |merges| ==> HasEstate(merges[i])
    requires forall i :: 0 <= i < |commits| ==> Authorised(cfg, commits[i], all) > 0.0
    ensures Committed(cfg, commits[n], all) <= Authorised(cfg, commits[n], all)
    ensures var percent, burst := cfg.cost.block.maxPercentIncrease, cfg.cost.autoscaling.maxCeilingDeltaUSD;
            WithinGrowth(Authorised(cfg, commits[0], all), Authorised(cfg, commits[n], all), n, percent, burst)
  {
    var percent, burst := cfg.cost.block.maxPercentIncrease, cfg.cost.autoscaling.maxCeilingDeltaUSD;
    var y := Course(Ceiling, cfg, commits, all);
    forall i | 0 < i < |commits| ensures y[i] <= y[i - 1] + Part(percent, y[i - 1]) + burst {
      Neighbours(cfg, commits, all, i);
      assert PassesAt(cfg, commits, merges, i - 1);
      PercentStep(cfg, commits[i - 1], commits[i], merges[i - 1], all);
    }
    CompoundGrowth(y, percent, burst, n);
    TotalsSane(commits[n], cfg.cost.assumedNodeCount, all);
  }
}
