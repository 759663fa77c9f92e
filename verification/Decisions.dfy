/** What the verdict's decision means. */
module Decisions {
  import opened Folds
  import opened Delta
  import opened Config
  import opened Verdict

  // ---------------------------------------------------------------- when nothing is found

  lemma {:induction false} NoRatioFindings(cfg: AutoscalingBudget, rows: seq<WorkloadDelta>)
    ensures RatioFindings(cfg, rows) == [] <==> forall r :: r in rows ==> !RatioExceeded(cfg, r)
  {
    if rows != [] {
      var front, last := rows[..|rows| - 1], rows[|rows| - 1];
      assert rows == front + [last];
      NoRatioFindings(cfg, front);
    }
  }

  /** The headroom a change authorises is within budget, in total and workload by workload. */
  ghost predicate BurstWithinBudget(cfg: AutoscalingBudget, delta: Delta) {
    Burst(delta.money) > 0.0 ==>
      && Burst(delta.money) <= cfg.maxCeilingDeltaUSD
      && forall r :: r in delta.workloads ==> !RatioExceeded(cfg, r)
  }

  predicate CommittedWithinBudget(cfg: CostConfig, money: Money) {
    ExcusedDecrease(cfg, money) || (!AbsoluteExceeded(cfg, money) && !PercentExceeded(cfg, money))
  }

  lemma {:induction false} CostPassesExactlyWhen(cfg: CostConfig, delta: Delta, errors: seq<string>)
    ensures JudgeCost(cfg, delta, errors).passed <==>
            && errors == []
            && BurstWithinBudget(cfg.autoscaling, delta)
            && CommittedWithinBudget(cfg, delta.money)
  {
    NoRatioFindings(cfg.autoscaling, delta.workloads);
    var b, c := BurstFindings(cfg.autoscaling, delta), CommittedFindings(cfg, delta.money);
    assert b + c == [] <==> b == [] && c == [];
  }

  lemma {:induction false} NothingBlocks(cfg: PolicyConfig, vs: seq<Violation>)
    ensures Judged(cfg, vs, true) == [] <==>
            forall v :: v in vs ==> !cfg.Blocks(cfg.Severity(v.rule, v.severity))
  {
    if vs != [] {
      var front, last := vs[..|vs| - 1], vs[|vs| - 1];
      assert vs == front + [last];
      NothingBlocks(cfg, front);
      assert Effective(cfg, last).severity == cfg.Severity(last.rule, last.severity);
    }
  }

  /** The decision, by its inputs: a change passes exactly when both sub-gates could be evaluated,
      its headroom and its commitment are within budget, and no violation blocks at the severity
      the configuration gives it. */
  lemma {:induction false} PassesExactlyWhen(cfg: Config, delta: Delta, costErrors: seq<string>, pol: PolicyResult)
    ensures Judge(cfg, delta, costErrors, pol).decision == Pass <==>
            && costErrors == []
            && !PolicyInconclusive(cfg, pol.errors)
            && BurstWithinBudget(cfg.cost.autoscaling, delta)
            && CommittedWithinBudget(cfg.cost, delta.money)
            && forall v :: v in pol.violations ==> !cfg.policy.Blocks(cfg.policy.Severity(v.rule, v.severity))
  {
    CostPassesExactlyWhen(cfg.cost, delta, costErrors);
    NothingBlocks(cfg.policy, pol.violations);
  }

  /** A verdict names a reason exactly when it blocks. */
  lemma {:induction false} PassesWithoutReasons(cfg: Config, delta: Delta, costErrors: seq<string>, pol: PolicyResult)
    ensures Judge(cfg, delta, costErrors, pol).decision == Pass <==> Judge(cfg, delta, costErrors, pol).reasons == []
  {
    var cost, policy := JudgeCost(cfg.cost, delta, costErrors), JudgePolicy(cfg.policy, pol);
    var f, v := MapSeq(FindingReason, cost.fired), MapSeq(ViolationReason, policy.blocking);
    assert f == [] <==> cost.fired == [];
    assert v == [] <==> policy.blocking == [];
    var e := if cost.errors != [] then [CostUnevaluated(|cost.errors|)] else [];
    var p := if PolicyInconclusive(cfg, policy.errors) then [PolicyUnevaluated(|policy.errors|)] else [];
    assert ReasonsFor(cfg, cost, policy) == e + p + f + v;
    assert e + p + f + v == [] <==> e == [] && p == [] && f == [] && v == [];
  }

  /** A change that was evaluated fails exactly when a budget is exceeded or a violation blocks; one
      that was not is inconclusive, however much else is wrong with it. */
  lemma {:induction false} FailsExactlyWhen(cfg: Config, delta: Delta, costErrors: seq<string>, pol: PolicyResult)
    ensures var unevaluated := costErrors != [] || PolicyInconclusive(cfg, pol.errors);
            var decision := Judge(cfg, delta, costErrors, pol).decision;
            && (decision == Inconclusive <==> unevaluated)
            && (decision == Fail <==>
                  && !unevaluated
                  && (|| !BurstWithinBudget(cfg.cost.autoscaling, delta)
                      || !CommittedWithinBudget(cfg.cost, delta.money)
                      || exists v :: v in pol.violations && cfg.policy.Blocks(cfg.policy.Severity(v.rule, v.severity))))
  {
    PassesExactlyWhen(cfg, delta, costErrors, pol);
  }

  // ---------------------------------------------------------------- violations

  type Judgement = Violation -> Violation

  function Judging(cfg: PolicyConfig): Judgement {
    v => Effective(cfg, v)
  }

  lemma {:induction false} JudgedStep(cfg: PolicyConfig, vs: seq<Violation>, v: Violation, blocking: bool)
    ensures Judged(cfg, vs + [v], blocking)
            == if cfg.Blocks(Effective(cfg, v).severity) == blocking
               then Judged(cfg, vs, blocking) + [Effective(cfg, v)]
               else Judged(cfg, vs, blocking)
  {
    assert (vs + [v])[..|vs|] == vs;
    assert Judged(cfg, vs, blocking) + [] == Judged(cfg, vs, blocking);
  }

  lemma {:induction false} JudgedSeverity(cfg: PolicyConfig, vs: seq<Violation>, blocking: bool)
    ensures forall v :: v in Judged(cfg, vs, blocking) ==> cfg.Blocks(v.severity) == blocking
  {
    if vs != [] {
      var front, last := vs[..|vs| - 1], vs[|vs| - 1];
      assert vs == front + [last];
      JudgedSeverity(cfg, front, blocking);
      JudgedStep(cfg, front, last, blocking);
    }
  }

  lemma {:induction false} JoinEither(a: seq<Violation>, b: seq<Violation>, all: seq<Violation>, v: Violation)
    requires multiset(a) + multiset(b) == multiset(all)
    ensures multiset(a + [v]) + multiset(b) == multiset(all + [v])
    ensures multiset(a) + multiset(b + [v]) == multiset(all + [v])
  {
  }

  /** Blocking and warning violations partition the reported ones by effective severity. */
  lemma {:induction false} ViolationsPartition(cfg: PolicyConfig, vs: seq<Violation>)
    ensures multiset(Judged(cfg, vs, true)) + multiset(Judged(cfg, vs, false)) == multiset(MapSeq(Judging(cfg), vs))
    ensures forall v :: v in Judged(cfg, vs, true) ==> cfg.Blocks(v.severity)
    ensures forall v :: v in Judged(cfg, vs, false) ==> !cfg.Blocks(v.severity)
  {
    JudgedSeverity(cfg, vs, true);
    JudgedSeverity(cfg, vs, false);
    if vs != [] {
      var front, last := vs[..|vs| - 1], vs[|vs| - 1];
      assert vs == front + [last];
      ViolationsPartition(cfg, front);
      JudgedStep(cfg, front, last, true);
      JudgedStep(cfg, front, last, false);
      MapStep(Judging(cfg), front, last);
      JoinEither(Judged(cfg, front, true), Judged(cfg, front, false), MapSeq(Judging(cfg), front), Effective(cfg, last));
    }
  }

  /** An override never hides: the reported violation is of the same rule on the same object, and
      its message differs from the rule's own exactly when its severity was changed. */
  lemma {:induction false} OverridesAreVisible(cfg: PolicyConfig, v: Violation)
    ensures Effective(cfg, v).rule == v.rule && Effective(cfg, v).Ref() == v.Ref()
    ensures Effective(cfg, v).severity == cfg.Severity(v.rule, v.severity)
    ensures Effective(cfg, v).message == v.message <==> Effective(cfg, v).severity == v.severity
  {
    var severity := cfg.Severity(v.rule, v.severity);
    var longer := v.message + " _(severity overridden: " + v.severity + " \U{2192} " + severity + " in gate.yaml)_";
    assert |longer| > |v.message|;
  }

  // ---------------------------------------------------------------- thresholds

  /** Under an accepted configuration some limit applies to every increase in committed spend,
      and a passing change is within each limit that applies. */
  lemma {:induction false} IncreasesAreAlwaysLimited(
      cfg: Config, delta: Delta, costErrors: seq<string>, pol: PolicyResult)
    requires IsValid(cfg) && delta.money.committedDeltaUSD > 0.0
    requires Judge(cfg, delta, costErrors, pol).decision == Pass
    ensures ChecksAbsolute(cfg.cost.mode, delta.money) || ChecksPercent(cfg.cost.mode, delta.money)
    ensures ChecksAbsolute(cfg.cost.mode, delta.money)
            ==> delta.money.committedDeltaUSD <= cfg.cost.block.maxMonthlyDeltaUSD
    ensures ChecksPercent(cfg.cost.mode, delta.money)
            ==> delta.money.committedPercent <= cfg.cost.block.maxPercentIncrease
  {
    PassesExactlyWhen(cfg, delta, costErrors, pol);
  }

  /** `worse` differs from `money` only in committing to more, over the same percentage basis and
      with the same headroom. */
  predicate CommitsToMore(money: Money, worse: Money, basis: real) {
    && Burst(worse) == Burst(money)
    && worse.committedDeltaUSD >= money.committedDeltaUSD
    && money.hasCommittedBasis == worse.hasCommittedBasis == (basis > 0.0)
    && money.committedPercent == PercentOrZero(money.committedDeltaUSD, basis)
    && worse.committedPercent == PercentOrZero(worse.committedDeltaUSD, basis)
  }

  lemma {:induction false} PercentGrows(x: real, y: real, basis: real)
    requires x <= y
    ensures PercentOrZero(x, basis) <= PercentOrZero(y, basis)
  {
    if basis > 0.0 {
      assert y / basis - x / basis == (y - x) / basis;
      assert (y - x) / basis >= 0.0;
    }
  }

  /** Committing to more, adding errors or adding violations never turns a block into a pass. */
  lemma {:induction false} BlocksAreStable(
      cfg: Config, delta: Delta, worse: Delta, basis: real, costErrors: seq<string>, moreErrors: seq<string>,
      pol: PolicyResult, worsePol: PolicyResult)
    requires CommitsToMore(delta.money, worse.money, basis) && worse.workloads == delta.workloads
    requires multiset(costErrors) <= multiset(moreErrors) && multiset(pol.errors) <= multiset(worsePol.errors)
    requires multiset(pol.violations) <= multiset(worsePol.violations)
    requires Judge(cfg, delta, costErrors, pol).decision != Pass
    ensures Judge(cfg, worse, moreErrors, worsePol).decision != Pass
  {
    PassesExactlyWhen(cfg, delta, costErrors, pol);
    PassesExactlyWhen(cfg, worse, moreErrors, worsePol);
    PercentGrows(delta.money.committedDeltaUSD, worse.money.committedDeltaUSD, basis);
    NonEmptyGrows(costErrors, moreErrors);
    NonEmptyGrows(pol.errors, worsePol.errors);
    Remain(pol.violations, worsePol.violations);
  }

  lemma {:induction false} Remain(vs: seq<Violation>, more: seq<Violation>)
    requires multiset(vs) <= multiset(more)
    ensures forall v :: v in vs ==> v in more
  {
    forall v | v in vs ensures v in more {
      assert v in multiset(vs);
    }
  }

  lemma {:induction false} NonEmptyGrows<T>(a: seq<T>, b: seq<T>)
    requires multiset(a) <= multiset(b)
    ensures a != [] ==> b != []
  {
    if a != [] {
      assert a[0] in multiset(a);
      assert a[0] in multiset(b);
    }
  }
}
