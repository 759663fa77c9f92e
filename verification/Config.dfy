/** The gate's configuration and what makes one acceptable. */
module Config {
  import opened Results

  /** `Other` holds whatever else the file says, including nothing. */
  datatype Mode = Absolute | Percent | Both | Other(text: string)

  datatype Thresholds = Thresholds(maxMonthlyDeltaUSD: real, maxPercentIncrease: real)

  datatype AutoscalingBudget = AutoscalingBudget(maxCeilingDeltaUSD: real, warnCeilingDeltaUSD: real, maxBurstRatio: real)

  datatype CostConfig = CostConfig(
    mode: Mode,
    block: Thresholds,
    warn: Thresholds,
    allowUnboundedDecrease: bool,
    assumedNodeCount: int,
    autoscaling: AutoscalingBudget)

  datatype PolicyConfig = PolicyConfig(
    failOnSeverity: seq<string>,
    severityOverrides: map<string, string>,
    treatErrorAsBlocking: bool)
  {
    /** The severity a rule's violation is judged at. */
    function Severity(rule: string, declared: string): string {
      if rule in severityOverrides then severityOverrides[rule] else declared
    }

    predicate Blocks(severity: string) {
      severity in failOnSeverity
    }
  }

  datatype Paths = Paths(manifests: string, policies: string, pricing: string)

  datatype Config = Config(paths: Paths, cost: CostConfig, policy: PolicyConfig)

  datatype ConfigError =
    | BadMode
    | NoAbsoluteLimit
    | NoPercentLimit
    | DeadAbsoluteWarning
    | DeadPercentWarning
    | BadNodeCount
    | NoBurstLimit
    | BadBurstRatio
    | NoSeverity
    | MissingPath

  /** The first complaint about a configuration, if there is one. */
  function Validate(c: Config): Option<ConfigError> {
    var cost := c.cost;
    if cost.mode.Other? then Some(BadMode)
    else if cost.mode != Percent && cost.block.maxMonthlyDeltaUSD <= 0.0 then Some(NoAbsoluteLimit)
    else if cost.mode != Absolute && cost.block.maxPercentIncrease <= 0.0 then Some(NoPercentLimit)
    else if cost.warn.maxMonthlyDeltaUSD >= cost.block.maxMonthlyDeltaUSD && cost.warn.maxMonthlyDeltaUSD > 0.0 then
      Some(DeadAbsoluteWarning)
    else if cost.warn.maxPercentIncrease >= cost.block.maxPercentIncrease && cost.warn.maxPercentIncrease > 0.0 then
      Some(DeadPercentWarning)
    else if cost.assumedNodeCount < 1 then Some(BadNodeCount)
    else if cost.autoscaling.maxCeilingDeltaUSD <= 0.0 then Some(NoBurstLimit)
    else if cost.autoscaling.maxBurstRatio < 1.0 then Some(BadBurstRatio)
    else if c.policy.failOnSeverity == [] then Some(NoSeverity)
    else if c.paths.manifests == "" || c.paths.policies == "" || c.paths.pricing == "" then Some(MissingPath)
    else None
  }

  predicate IsValid(c: Config) {
    Validate(c) == None
  }
}
