/** The merge decision: cost and policy findings combined under a configuration. */
module Verdict {
  import opened Folds
  import opened Delta
  import opened Config

  datatype Decision = Pass | Fail | Inconclusive

  /** A blocking threshold that was crossed. */
  datatype Finding =
    | BurstAbove(burstUSD: real, limit: real)
    | RatioAbove(ref: string, ratio: real, limit: real)
    | CommittedAbove(deltaUSD: real, limit: real)
    | PercentAbove(percent: real, limit: real)

  datatype Advice =
    | BurstAdvised(burstUSD: real, level: real)
    | NoBaseline
    | CommittedAdvised(deltaUSD: real, level: real)
    | PercentAdvised(percent: real, level: real)

  datatype CostOutcome = CostOutcome(
    passed: bool, warned: bool, fired: seq<Finding>, warnings: seq<Advice>, errors: seq<string>)

  datatype Violation = Violation(
    rule: string, severity: string, message: string, kind: string, namespace: string, name: string, remediation: string)
  {
    function Ref(): string {
      if namespace == "" then kind + "/" + name else kind + "/" + namespace + "/" + name
    }
  }

  datatype PolicyResult = PolicyResult(violations: seq<Violation>, errors: seq<string>)

  datatype PolicyOutcome = PolicyOutcome(
    blocking: seq<Violation>, warnings: seq<Violation>, errors: seq<string>, passed: bool)

  datatype Reason =
    | CostUnevaluated(errors: nat)
    | PolicyUnevaluated(errors: nat)
    | NothingChanged
    | Fired(finding: Finding)
    | Violated(rule: string, ref: string, message: string)

  datatype Verdict = Verdict(decision: Decision, reasons: seq<Reason>, cost: CostOutcome, policy: PolicyOutcome)

  // ---------------------------------------------------------------- the cost sub-gate

  /** Spend a change authorises beyond what it commits to. */
  function Burst(money: Money): real {
    money.deltaMonthlyUSD - money.committedDeltaUSD
  }

  predicate RatioExceeded(cfg: AutoscalingBudget, r: WorkloadDelta) {
    r.autoscaled && r.floorUSD > 0.0 && r.afterUSD / r.floorUSD > cfg.maxBurstRatio
  }

  function RatioFindings(cfg: AutoscalingBudget, rows: seq<WorkloadDelta>): seq<Finding> {
    if rows == [] then []
    else
      var r := rows[|rows| - 1];
      RatioFindings(cfg, rows[..|rows| - 1])
      + if RatioExceeded(cfg, r) then [RatioAbove(r.ref, r.afterUSD / r.floorUSD, cfg.maxBurstRatio)] else []
  }

  function BurstFindings(cfg: AutoscalingBudget, delta: Delta): seq<Finding> {
    var burst := Burst(delta.money);
    if burst <= 0.0 then []
    else
      (if burst > cfg.maxCeilingDeltaUSD then [BurstAbove(burst, cfg.maxCeilingDeltaUSD)] else [])
      + RatioFindings(cfg, delta.workloads)
  }

  function BurstAdvice(cfg: AutoscalingBudget, delta: Delta): seq<Advice> {
    var burst := Burst(delta.money);
    if burst > 0.0 && burst <= cfg.maxCeilingDeltaUSD && cfg.warnCeilingDeltaUSD > 0.0 && burst > cfg.warnCeilingDeltaUSD
    then [BurstAdvised(burst, cfg.warnCeilingDeltaUSD)] else []
  }

  /** Whether the absolute limit is applied; it stands in for a percentage without a basis. */
  predicate ChecksAbsolute(mode: Mode, money: Money) {
    mode == Absolute || mode == Both || (mode == Percent && !money.hasCommittedBasis)
  }

  predicate ChecksPercent(mode: Mode, money: Money) {
    (mode == Percent || mode == Both) && money.hasCommittedBasis
  }

  predicate ExcusedDecrease(cfg: CostConfig, money: Money) {
    money.committedDeltaUSD <= 0.0 && cfg.allowUnboundedDecrease
  }

  predicate AbsoluteExceeded(cfg: CostConfig, money: Money) {
    ChecksAbsolute(cfg.mode, money) && money.committedDeltaUSD > cfg.block.maxMonthlyDeltaUSD
  }

  predicate PercentExceeded(cfg: CostConfig, money: Money) {
    ChecksPercent(cfg.mode, money) && money.committedPercent > cfg.block.maxPercentIncrease
  }

  function AbsoluteFindings(cfg: CostConfig, money: Money): seq<Finding> {
    if AbsoluteExceeded(cfg, money) then [CommittedAbove(money.committedDeltaUSD, cfg.block.maxMonthlyDeltaUSD)] else []
  }

  function PercentFindings(cfg: CostConfig, money: Money): seq<Finding> {
    if PercentExceeded(cfg, money) then [PercentAbove(money.committedPercent, cfg.block.maxPercentIncrease)] else []
  }

  function CommittedFindings(cfg: CostConfig, money: Money): seq<Finding> {
    if ExcusedDecrease(cfg, money) then []
    else AbsoluteFindings(cfg, money) + PercentFindings(cfg, money)
  }

  predicate AbsoluteAdvisory(cfg: CostConfig, money: Money) {
    && ChecksAbsolute(cfg.mode, money) && !AbsoluteExceeded(cfg, money)
    && cfg.warn.maxMonthlyDeltaUSD > 0.0 && money.committedDeltaUSD > cfg.warn.maxMonthlyDeltaUSD
  }

  predicate PercentAdvisory(cfg: CostConfig, money: Money) {
    && ChecksPercent(cfg.mode, money) && !PercentExceeded(cfg, money)
    && cfg.warn.maxPercentIncrease > 0.0 && money.committedPercent > cfg.warn.maxPercentIncrease
  }

  function BaselineAdvice(cfg: CostConfig, money: Money): seq<Advice> {
    if cfg.mode == Percent && !money.hasCommittedBasis then [NoBaseline] else []
  }

  function AbsoluteAdvice(cfg: CostConfig, money: Money): seq<Advice> {
    if AbsoluteAdvisory(cfg, money) then [CommittedAdvised(money.committedDeltaUSD, cfg.warn.maxMonthlyDeltaUSD)] else []
  }

  function PercentAdvice(cfg: CostConfig, money: Money): seq<Advice> {
    if PercentAdvisory(cfg, money) then [PercentAdvised(money.committedPercent, cfg.warn.maxPercentIncrease)] else []
  }

  function CommittedAdvice(cfg: CostConfig, money: Money): seq<Advice> {
    if ExcusedDecrease(cfg, money) then []
    else BaselineAdvice(cfg, money) + AbsoluteAdvice(cfg, money) + PercentAdvice(cfg, money)
  }

  /** Advice that counts as a warning; the missing baseline is only mentioned. */
  predicate Warns(advice: seq<Advice>) {
    exists i :: 0 <= i < |advice| && !advice[i].NoBaseline?
  }

  function JudgeCost(cfg: CostConfig, delta: Delta, errors: seq<string>): CostOutcome {
    if errors != [] then CostOutcome(false, false, [], [], errors)
    else
      var fired := BurstFindings(cfg.autoscaling, delta) + CommittedFindings(cfg, delta.money);
      var advice := BurstAdvice(cfg.autoscaling, delta) + CommittedAdvice(cfg, delta.money);
      CostOutcome(fired == [], Warns(advice), fired, advice, [])
  }

  /** The cost part of a verdict while it is being worked out. */
  class CostVerdict {
    var passed: bool
    var warned: bool
    var fired: seq<Finding>
    var warnings: seq<Advice>
    var errors: seq<string>

    constructor (errors: seq<string>)
      ensures Outcome() == CostOutcome(true, false, [], [], errors)
    {
      passed, warned, fired, warnings := true, false, [], [];
      this.errors := errors;
    }

    function Outcome(): CostOutcome
      reads this
    {
      CostOutcome(passed, warned, fired, warnings, errors)
    }

    method Block(f: Finding)
      modifies this
      ensures Outcome() == old(Outcome()).(passed := false, fired := old(fired) + [f])
    {
      passed := false;
      fired := fired + [f];
    }

    method Warn(a: Advice)
      modifies this
      ensures Outcome() == old(Outcome()).(warned := true, warnings := old(warnings) + [a])
    {
      warned := true;
      warnings := warnings + [a];
    }

    /** Judges elastic headroom, on a verdict on which nothing has been recorded yet. */
    method EvaluateAutoscaling(cfg: AutoscalingBudget, delta: Delta)
      requires Outcome() == CostOutcome(true, false, [], [], [])
      modifies this
      ensures fired == BurstFindings(cfg, delta) && warnings == BurstAdvice(cfg, delta)
      ensures passed == (fired == []) && warned == (warnings != []) && errors == []
    {
      var burst := Burst(delta.money);
      if burst <= 0.0 {
        return;
      }
      if burst > cfg.maxCeilingDeltaUSD {
        Block(BurstAbove(burst, cfg.maxCeilingDeltaUSD));
      } else if cfg.warnCeilingDeltaUSD > 0.0 && burst > cfg.warnCeilingDeltaUSD {
        Warn(BurstAdvised(burst, cfg.warnCeilingDeltaUSD));
      }
      ghost var cap := fired;
      ghost var advice := warnings;
      var rows := delta.workloads;
      for i := 0 to |rows|
        invariant fired == cap + RatioFindings(cfg, rows[..i])
        invariant warnings == advice && warned == (advice != []) && errors == []
        invariant passed == (fired == [])
      {
        assert rows[..i + 1][..i] == rows[..i];
        var r := rows[i];
        if r.autoscaled && r.floorUSD > 0.0 {
          var ratio := r.afterUSD / r.floorUSD;
          if ratio > cfg.maxBurstRatio {
            Block(RatioAbove(r.ref, ratio, cfg.maxBurstRatio));
          }
        }
      }
      assert rows[..|rows|] == rows;
    }

    predicate Consistent()
      reads this
    {
      passed == (fired == []) && warned == Warns(warnings)
    }

    method ApplyAbsolute(cfg: CostConfig, money: Money, check: bool)
      requires Consistent() && check == ChecksAbsolute(cfg.mode, money)
      modifies this
      ensures Consistent() && errors == old(errors)
      ensures fired == old(fired) + AbsoluteFindings(cfg, money)
      ensures warnings == old(warnings) + AbsoluteAdvice(cfg, money)
    {
      if check && money.committedDeltaUSD > cfg.block.maxMonthlyDeltaUSD {
        Block(CommittedAbove(money.committedDeltaUSD, cfg.block.maxMonthlyDeltaUSD));
      } else if check && cfg.warn.maxMonthlyDeltaUSD > 0.0 && money.committedDeltaUSD > cfg.warn.maxMonthlyDeltaUSD {
        WarnsOne(warnings, CommittedAdvised(money.committedDeltaUSD, cfg.warn.maxMonthlyDeltaUSD));
        Warn(CommittedAdvised(money.committedDeltaUSD, cfg.warn.maxMonthlyDeltaUSD));
      }
    }

    method ApplyPercent(cfg: CostConfig, money: Money, check: bool)
      requires Consistent() && check == ChecksPercent(cfg.mode, money)
      modifies this
      ensures Consistent() && errors == old(errors)
      ensures fired == old(fired) + PercentFindings(cfg, money)
      ensures warnings == old(warnings) + PercentAdvice(cfg, money)
    {
      if check && money.committedPercent > cfg.block.maxPercentIncrease {
        Block(PercentAbove(money.committedPercent, cfg.block.maxPercentIncrease));
      } else if check && cfg.warn.maxPercentIncrease > 0.0 && money.committedPercent > cfg.warn.maxPercentIncrease {
        WarnsOne(warnings, PercentAdvised(money.committedPercent, cfg.warn.maxPercentIncrease));
        Warn(PercentAdvised(money.committedPercent, cfg.warn.maxPercentIncrease));
      }
    }

    /** Judges committed spend, after the headroom. */
    method EvaluateCommitted(cfg: CostConfig, money: Money)
      requires Consistent()
      modifies this
      ensures Consistent() && errors == old(errors)
      ensures fired == old(fired) + CommittedFindings(cfg, money)
      ensures warnings == old(warnings) + CommittedAdvice(cfg, money)
    {
      if money.committedDeltaUSD <= 0.0 && cfg.allowUnboundedDecrease {
        assert fired + [] == fired && warnings + [] == warnings;
        return;
      }
      var checkAbsolute := cfg.mode == Absolute || cfg.mode == Both;
      var checkPercent := cfg.mode == Percent || cfg.mode == Both;
      if checkPercent && !money.hasCommittedBasis {
        checkPercent := false;
        if !checkAbsolute {
          checkAbsolute := true;
          WarnsOne(warnings, NoBaseline);
          warnings := warnings + [NoBaseline];
        }
      }
      assert warnings == old(warnings) + BaselineAdvice(cfg, money);
      ApplyAbsolute(cfg, money, checkAbsolute);
      ApplyPercent(cfg, money, checkPercent);
    }
  }

  lemma {:induction false} WarnsConcat(a: seq<Advice>, b: seq<Advice>)
    ensures Warns(a + b) <==> Warns(a) || Warns(b)
  {
    assert forall i :: 0 <= i < |a| ==> (a + b)[i] == a[i];
    assert forall i :: 0 <= i < |b| ==> (a + b)[|a| + i] == b[i];
  }

  lemma {:induction false} WarnsOne(a: seq<Advice>, x: Advice)
    ensures Warns(a + [x]) <==> Warns(a) || !x.NoBaseline?
  {
    WarnsConcat(a, [x]);
    assert !x.NoBaseline? ==> Warns([x]) by {
      assert [x][0] == x;
    }
  }

  method EvaluateCost(cfg: CostConfig, delta: Delta, errors: seq<string>) returns (cv: CostVerdict)
    ensures fresh(cv)
    ensures cv.Outcome() == JudgeCost(cfg, delta, errors)
  {
    cv := new CostVerdict(errors);
    if errors != [] {
      cv.passed := false;
      return;
    }
    cv.EvaluateAutoscaling(cfg.autoscaling, delta);
    assert cv.warnings != [] ==> !cv.warnings[0].NoBaseline?;
    cv.EvaluateCommitted(cfg, delta.money);
  }

  // ---------------------------------------------------------------- the policy sub-gate

  /** A violation as it is judged and reported: an override changes its severity and says so. */
  function Effective(cfg: PolicyConfig, v: Violation): Violation {
    var severity := cfg.Severity(v.rule, v.severity);
    if severity == v.severity then v
    else
      v.(message := v.message + " _(severity overridden: " + v.severity + " \U{2192} " + severity + " in gate.yaml)_",
         severity := severity)
  }

  /** The violations that block, or those that do not, in their order and as reported. */
  function Judged(cfg: PolicyConfig, vs: seq<Violation>, blocking: bool): seq<Violation> {
    if vs == [] then []
    else
      var v := Effective(cfg, vs[|vs| - 1]);
      Judged(cfg, vs[..|vs| - 1], blocking) + if cfg.Blocks(v.severity) == blocking then [v] else []
  }

  function JudgePolicy(cfg: PolicyConfig, result: PolicyResult): PolicyOutcome {
    var blocking := Judged(cfg, result.violations, true);
    PolicyOutcome(
      blocking, Judged(cfg, result.violations, false), result.errors,
      blocking == [] && !(cfg.treatErrorAsBlocking && result.errors != []))
  }

  method EvaluatePolicy(cfg: PolicyConfig, result: PolicyResult) returns (pv: PolicyOutcome)
    ensures pv == JudgePolicy(cfg, result)
  {
    pv := PolicyOutcome([], [], result.errors, true);
    var vs := result.violations;
    for i := 0 to |vs|
      invariant pv.blocking == Judged(cfg, vs[..i], true)
      invariant pv.warnings == Judged(cfg, vs[..i], false)
      invariant pv.errors == result.errors && pv.passed == (pv.blocking == [])
    {
      assert vs[..i + 1][..i] == vs[..i];
      var v := vs[i];
      var severity := cfg.Severity(v.rule, v.severity);
      if severity != v.severity {
        v := v.(message := v.message + " _(severity overridden: " + v.severity + " \U{2192} " + severity + " in gate.yaml)_",
                severity := severity);
      }
      if cfg.Blocks(v.severity) {
        pv := pv.(blocking := pv.blocking + [v], passed := false);
      } else {
        pv := pv.(warnings := pv.warnings + [v]);
      }
    }
    assert vs[..|vs|] == vs;
    if cfg.treatErrorAsBlocking && result.errors != [] {
      pv := pv.(passed := false);
    }
  }

  // ---------------------------------------------------------------- the verdict

  function FindingReason(f: Finding): Reason {
    Fired(f)
  }

  function ViolationReason(v: Violation): Reason {
    Violated(v.rule, v.Ref(), v.message)
  }

  predicate PolicyInconclusive(cfg: Config, policyErrors: seq<string>) {
    cfg.policy.treatErrorAsBlocking && policyErrors != []
  }

  function DecisionFor(cfg: Config, cost: CostOutcome, policy: PolicyOutcome): Decision {
    if cost.errors != [] || PolicyInconclusive(cfg, policy.errors) then Inconclusive
    else if !cost.passed || !policy.passed then Fail
    else Pass
  }

  /** Errors are summarised first, then every finding is named. */
  function ReasonsFor(cfg: Config, cost: CostOutcome, policy: PolicyOutcome): seq<Reason> {
    (if cost.errors != [] then [CostUnevaluated(|cost.errors|)] else [])
    + (if PolicyInconclusive(cfg, policy.errors) then [PolicyUnevaluated(|policy.errors|)] else [])
    + MapSeq(FindingReason, cost.fired)
    + MapSeq(ViolationReason, policy.blocking)
  }

  function Judge(cfg: Config, delta: Delta, costErrors: seq<string>, pol: PolicyResult): Verdict {
    var cost, policy := JudgeCost(cfg.cost, delta, costErrors), JudgePolicy(cfg.policy, pol);
    Verdict(DecisionFor(cfg, cost, policy), ReasonsFor(cfg, cost, policy), cost, policy)
  }

  method ListReasons(cfg: Config, cost: CostOutcome, policy: PolicyOutcome) returns (reasons: seq<Reason>)
    ensures reasons == ReasonsFor(cfg, cost, policy)
  {
    reasons := [];
    if cost.errors != [] {
      reasons := reasons + [CostUnevaluated(|cost.errors|)];
    }
    if cfg.policy.treatErrorAsBlocking && policy.errors != [] {
      reasons := reasons + [PolicyUnevaluated(|policy.errors|)];
    }
    assert reasons == (if cost.errors != [] then [CostUnevaluated(|cost.errors|)] else [])
                      + (if PolicyInconclusive(cfg, policy.errors) then [PolicyUnevaluated(|policy.errors|)] else []);
    reasons := reasons + MapSeq(FindingReason, cost.fired);
    var blocking := policy.blocking;
    var violations := [];
    for i := 0 to |blocking|
      invariant violations == MapSeq(ViolationReason, blocking[..i])
    {
      assert blocking[..i + 1] == blocking[..i] + [blocking[i]];
      MapStep(ViolationReason, blocking[..i], blocking[i]);
      violations := violations + [ViolationReason(blocking[i])];
    }
    assert blocking[..|blocking|] == blocking;
    reasons := reasons + violations;
  }

  method Aggregate(cfg: Config, delta: Delta, costErrors: seq<string>, pol: PolicyResult) returns (v: Verdict)
    ensures v == Judge(cfg, delta, costErrors, pol)
  {
    var cv := EvaluateCost(cfg.cost, delta, costErrors);
    var cost := cv.Outcome();
    var policy := EvaluatePolicy(cfg.policy, pol);
    var decision;
    if cost.errors != [] || (cfg.policy.treatErrorAsBlocking && policy.errors != []) {
      decision := Inconclusive;
    } else if !cost.passed || !policy.passed {
      decision := Fail;
    } else {
      decision := Pass;
    }
    var reasons := ListReasons(cfg, cost, policy);
    v := Verdict(decision, reasons, cost, policy);
  }
}
