/** Domain records shared by the gate, the executor, the oracles and the coordinator. */
module Models {
  import opened JsonValues

  datatype Verdict = Pass | Fail | Vulnerable | Inconclusive | Error

  datatype RiskLevel = Safe | Elevated | Destructive

  datatype AttackStep = AttackStep(
    stepId: string,
    tool: string,
    target: string,
    operation: string,
    arguments: seq<Field>,
    timeout: Option<Double>,
    destructive: bool,
    tags: seq<string>)

  /** The constructor's check of a timeout: not `timeout <= 0`, which `NaN` passes. */
  predicate TimeoutOk(timeout: Option<Double>) {
    match timeout
    case None => true
    case Some(t) => t == NotANumber || Below(Finite(0.0), t)
  }

  /** The timeout is the one float that every check of the lab lets through. */
  predicate Endless(step: AttackStep) {
    step.timeout == Some(NotANumber)
  }

  datatype AttackPlan = AttackPlan(
    planId: string,
    campaignId: Option<string>,
    title: string,
    hypothesis: string,
    risk: RiskLevel,
    steps: seq<AttackStep>,
    oracleIds: seq<string>,
    metadata: seq<Field>)

  /** What an adapter reports.  `body` is the text of the untrusted response, if any. */
  datatype Observation = Observation(
    stepId: string,
    tool: string,
    target: string,
    ok: bool,
    status: Option<int>,
    error: Option<string>,
    body: Option<string>,
    evidence: seq<Field>)

  /** `Digest` stands for the SHA-256 of the canonical evidence text, taken as injective.
      A custom oracle may also hand back the empty string. */
  datatype Fingerprint = EmptyText | Digest(evidence: Json)

  datatype OracleResult = OracleResult(oracleId: string, verdict: Verdict, fingerprint: Option<Fingerprint>)

  datatype Finding = Finding(
    campaignId: string,
    planId: string,
    title: string,
    verdict: Verdict,
    attempts: nat,
    confirmations: nat,
    results: seq<OracleResult>)

  /** Ephemeral operator approval; never part of a plan. */
  datatype Authorization = Authorization(snapshotId: string, token: string)

  /** The two environment variables the gate consults. */
  datatype Tokens = Tokens(remoteLab: Option<string>, destructive: Option<string>)

  datatype Budgets = Budgets(
    maxPlans: nat,
    maxSteps: nat,
    maxRequests: nat,
    maxPayload: nat,
    stepTimeout: real,
    planTimeout: real,
    campaignTimeout: real,
    confirmationRuns: nat)

  /** The checks of `BudgetConfig.__post_init__`. */
  predicate ValidBudgets(b: Budgets) {
    && b.maxPlans > 0 && b.maxSteps > 0 && b.maxRequests > 0 && b.maxPayload > 0 && b.confirmationRuns > 0
    && 0.0 < b.stepTimeout <= b.planTimeout <= b.campaignTimeout
  }

  datatype SafetyConfig = SafetyConfig(
    allowedTools: set<string>,
    allowedMethods: set<string>,
    allowHttps: bool,
    allowRemote: bool,
    allowedRemoteHosts: seq<string>,
    requireSnapshot: bool)

  datatype Config = Config(budgets: Budgets, safety: SafetyConfig)
}
