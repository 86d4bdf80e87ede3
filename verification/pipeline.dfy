/** The agent pipeline and the policy boundary between model proposals and trusted verdicts. */
module Pipeline {
  import opened JsonValues
  import opened Models
  import opened Targets
  import opened Safety
  import opened Oracles
  import opened Executor
  import opened Coordination

  // ----- what a role may propose -----

  datatype AgentContext = AgentContext(
    campaignId: string,
    allowedTools: seq<string>,
    allowedTargets: seq<string>,
    allowedOracles: seq<string>,
    priorPlans: seq<AttackPlan>,
    maxSteps: nat,
    maxStepTimeout: real,
    maxRisk: RiskLevel)

  const EXECUTION_KEYS: set<string> := {
    "argv", "bash", "cmd", "command", "executable", "powershell", "program", "python", "script", "shell", "subprocess"}

  const AGENT_DESTINATION_KEYS: set<string> := {
    "address", "base_url", "callback", "endpoint", "host", "hostname", "redirect", "uri", "url", "webhook"}

  predicate DestinationAllowed(ctx: AgentContext, text: string) {
    && (forall t :: t in ctx.allowedTargets ==> CanonicalText(t).Some?)
    && (StartsWith(text, "/")
        || (&& CanonicalText(text).Some?
            && exists t :: t in ctx.allowedTargets && CanonicalText(t) == CanonicalText(text)))
  }

  predicate MemberAllowed(ctx: AgentContext, f: Field) {
    && NormalKey(f.key) !in EXECUTION_KEYS
    && (NormalKey(f.key) in AGENT_DESTINATION_KEYS && f.value.Str? ==> DestinationAllowed(ctx, f.value.text))
  }

  /** `_walk_arguments`, false where it raises */
  predicate WalkArguments(ctx: AgentContext, j: Json)
    decreases j, 1
  {
    match j
    case Obj(fields) => WalkFields(ctx, fields)
    case Arr(items) => WalkItems(ctx, items)
    case _ => true
  }

  predicate WalkFields(ctx: AgentContext, fields: seq<Field>)
    decreases fields, 0
  {
    fields == []
    || (MemberAllowed(ctx, fields[0]) && WalkArguments(ctx, fields[0].value) && WalkFields(ctx, fields[1..]))
  }

  predicate WalkItems(ctx: AgentContext, items: seq<Json>)
    decreases items, 0
  {
    items == [] || (WalkArguments(ctx, items[0]) && WalkItems(ctx, items[1..]))
  }

  /** The walk accepts exactly the trees whose members are allowed at every depth. */
  lemma WalkExact(ctx: AgentContext, j: Json)
    ensures WalkArguments(ctx, j) <==> forall f :: MemberAnywhere(j, f) ==> MemberAllowed(ctx, f)
  {
    hide MemberAllowed, MemberAnywhere, Members;
    WalkAgainstMembers(ctx, j);
    forall f ensures f in Members(j) <==> MemberAnywhere(j, f) {
      MembersExact(j, f);
    }
  }

  lemma {:induction false} WalkAgainstMembers(ctx: AgentContext, j: Json)
    ensures WalkArguments(ctx, j) <==> forall f :: f in Members(j) ==> MemberAllowed(ctx, f)
    decreases j, 1
  {
    hide MemberAllowed;
    match j
    case Obj(fields) => WalkAgainstFields(ctx, fields);
    case Arr(items) => WalkAgainstItems(ctx, items);
    case _ =>
  }

  lemma {:induction false} WalkAgainstFields(ctx: AgentContext, fields: seq<Field>)
    ensures WalkFields(ctx, fields) <==> forall f :: f in MembersOfFields(fields) ==> MemberAllowed(ctx, f)
    decreases fields, 0
  {
    hide MemberAllowed;
    if fields != [] {
      WalkAgainstMembers(ctx, fields[0].value);
      WalkAgainstFields(ctx, fields[1..]);
      assert fields[0] in MembersOfFields(fields);
    }
  }

  lemma {:induction false} WalkAgainstItems(ctx: AgentContext, items: seq<Json>)
    ensures WalkItems(ctx, items) <==> forall f :: f in MembersOfItems(items) ==> MemberAllowed(ctx, f)
    decreases items, 0
  {
    hide MemberAllowed;
    if items != [] {
      WalkAgainstMembers(ctx, items[0]);
      WalkAgainstItems(ctx, items[1..]);
    }
  }

  function RiskRank(r: RiskLevel): nat {
    match r case Safe => 0 case Elevated => 1 case Destructive => 2
  }

  predicate AgentStepValid(lib: Library, ctx: AgentContext, step: AttackStep) {
    && step.tool in ctx.allowedTools
    && step.target in ctx.allowedTargets
    && (step.timeout.Some? ==> !Below(Finite(ctx.maxStepTimeout), step.timeout.value))
    && (StepRequiresAuthorization(lib, step) ==> ctx.maxRisk == Destructive)
    && WalkArguments(ctx, Obj(step.arguments))
  }

  /** `validate_agent_plan`, false where it raises */
  predicate AgentPlanValid(lib: Library, ctx: AgentContext, plan: AttackPlan) {
    && plan.campaignId == Some(ctx.campaignId)
    && |plan.steps| <= ctx.maxSteps
    && RiskRank(plan.risk) <= RiskRank(ctx.maxRisk)
    && (forall i :: 0 <= i < |plan.oracleIds| ==> plan.oracleIds[i] in ctx.allowedOracles)
    && (forall i :: 0 <= i < |plan.steps| ==> AgentStepValid(lib, ctx, plan.steps[i]))
  }

  // ----- the policy boundary -----

  function Take(s: string, n: nat): string {
    if |s| <= n then s else s[..n]
  }

  /** The HTTP tools among `tools`, sorted */
  function SortedHttpTools(tools: set<string>): seq<Json> {
    (if "http_request" in tools then [Str("http_request")] else [])
    + (if "mcp_call" in tools then [Str("mcp_call")] else [])
    + (if "upstream_counter" in tools then [Str("upstream_counter")] else [])
  }

  function DiagnosticOracles(tools: set<string>): seq<string> {
    var chosen :=
      (if tools * HTTP_TOOLS != {} then ["http_status"] else [])
      + (if "tcp_probe" in tools then ["reachability"] else []);
    if chosen == [] then ["reachability"] else chosen
  }

  const ORDINARY_STATUSES: seq<int> := [200, 204, 400, 403, 404, 405, 409, 413, 415, 422, 429]

  function DiagnosticMetadata(tools: set<string>): seq<Field> {
    [Field("expected_statuses", Ints(ORDINARY_STATUSES)),
     Field("inconclusive_statuses", Ints([401])),
     Field("status_tools", Arr(SortedHttpTools(tools))),
     Field("diagnostic_only", Bool(true)),
     Field("unexpected_status_is_vulnerability", Bool(false))]
  }

  function BoundaryNotes(candidate: AttackPlan, source: string, digest: string): seq<Field> {
    [Field("agent_role", Str("policy-boundary")),
     Field("parent_plan_id", Str(candidate.planId)),
     Field("agentic_contract", Bool(true)),
     Field("oracle_contract_source", Str(source)),
     Field("agent_candidate_sha256", Str(digest))]
  }

  function StepTools(plan: AttackPlan): set<string> {
    set s | s in plan.steps :: s.tool
  }

  /** `bind_trusted_oracle_contract`; `digest` is the SHA-256 of the candidate's JSON text. */
  function BindTrusted(candidate: AttackPlan, seed: Option<AttackPlan>, digest: string): AttackPlan {
    var tools := StepTools(candidate);
    var (oracleIds, metadata, source) :=
      match seed
      case Some(trusted) => (trusted.oracleIds, trusted.metadata, trusted.planId)
      case None => (DiagnosticOracles(tools), DiagnosticMetadata(tools), "diagnostic-default");
    candidate.(
      planId := "policy-" + Take(digest, 24),
      oracleIds := oracleIds,
      metadata := PutAll(metadata, BoundaryNotes(candidate, source, digest)))
  }

  // ----- the stage chain -----

  /** A role asks its model for a plan; `None` where the provider or the validation raises. */
  type Role = (AgentContext, Option<AttackPlan>) -> Option<AttackPlan>

  datatype Roles = Roles(recon: Role, planner: Role, critic: Role, mutator: Role, minimizer: Role)

  datatype Stage = Stage(name: string, plan: AttackPlan)

  datatype PipelineResult = PipelineResult(plan: AttackPlan, stages: seq<Stage>)

  /** `PlanningAgent.propose`: whatever the model returns is validated before it counts. */
  function Propose(lib: Library, role: Role, ctx: AgentContext, candidate: Option<AttackPlan>): Option<AttackPlan> {
    match role(ctx, candidate)
    case None => None
    case Some(plan) => if AgentPlanValid(lib, ctx, plan) then Some(plan) else None
  }

  function WithPlan(ctx: AgentContext, plan: AttackPlan): AgentContext {
    ctx.(priorPlans := ctx.priorPlans + [plan])
  }

  /** `plan.to_json()` does not raise: `NaN`, the one float the constructor lets in, is refused there. */
  predicate Encodable(plan: AttackPlan) {
    forall i :: 0 <= i < |plan.steps| && plan.steps[i].timeout.Some? ==> plan.steps[i].timeout.value.Finite?
  }

  /** One stage: a validated proposal whose JSON text could be hashed. */
  function Staged(lib: Library, role: Role, ctx: AgentContext, candidate: Option<AttackPlan>): Option<AttackPlan> {
    var plan :- Propose(lib, role, ctx, candidate);
    if Encodable(plan) then Some(plan) else None
  }

  /** Who proposes at which stage. */
  function RoleAt(roles: Roles, i: nat): Role
    requires i < 6
  {
    [roles.recon, roles.planner, roles.critic, roles.mutator, roles.critic, roles.minimizer][i]
  }

  const STAGE_NAMES: seq<string> :=
    ["recon", "planner", "critic-pre-mutation", "mutator", "critic-post-mutation", "minimizer"]

  /** What stage `i` makes of the plan before it, which at the first stage is the seed. */
  function StageOf(lib: Library, roles: Roles, ctx: AgentContext, i: nat, prior: Option<AttackPlan>)
    : Option<AttackPlan>
    requires i < 6
  {
    Staged(lib, RoleAt(roles, i), if i > 0 && prior.Some? then WithPlan(ctx, prior.value) else ctx, prior)
  }

  /** The plan that comes out of the stages from `i` on, if none of them fails. */
  function LastPlan(lib: Library, roles: Roles, ctx: AgentContext, i: nat, prior: Option<AttackPlan>)
    : Option<AttackPlan>
    requires i <= 6
    decreases 6 - i
  {
    if i == 6 then prior
    else
      var plan :- StageOf(lib, roles, ctx, i, prior);
      LastPlan(lib, roles, ctx, i + 1, Some(plan))
  }

  class AgentPipeline {
    const roles: Roles
    const lib: Library
    const digest: AttackPlan -> string

    constructor (roles: Roles, lib: Library, digest: AttackPlan -> string)
      ensures this.roles == roles && this.lib == lib && this.digest == digest
    {
      this.roles, this.lib, this.digest := roles, lib, digest;
    }

    /** Recon, plan, critique, mutate, critique, minimise, then the policy boundary: it returns a result
        exactly when no stage fails, and then each stage works on the plan of the one before it. */
    method Run(ctx: AgentContext, seed: Option<AttackPlan>) returns (result: Option<PipelineResult>)
      ensures result.Some? <==> LastPlan(lib, roles, ctx, 0, seed).Some?
      ensures result.Some? ==>
        var stages := result.value.stages;
        && |stages| == 7
        && (forall i :: 0 <= i < 6 ==> stages[i].name == STAGE_NAMES[i] && AgentPlanValid(lib, ctx, stages[i].plan))
        && StageOf(lib, roles, ctx, 0, seed) == Some(stages[0].plan)
        && (forall i :: 1 <= i < 6 ==> StageOf(lib, roles, ctx, i, Some(stages[i - 1].plan)) == Some(stages[i].plan))
        && LastPlan(lib, roles, ctx, 0, seed) == Some(stages[5].plan)
        && stages[6] == Stage("policy-boundary", result.value.plan)
        && result.value.plan == BindTrusted(stages[5].plan, seed, digest(stages[5].plan))
    {
      hide AgentPlanValid, BindTrusted, Staged, LastPlan;
      var stages: seq<Stage> := [];
      LastPlanSteps(lib, roles, ctx, 0, seed);
      var recon :- Staged(lib, roles.recon, ctx, seed);
      stages := stages + [Stage("recon", recon)];
      LastPlanSteps(lib, roles, ctx, 1, Some(recon));
      var planned :- Staged(lib, roles.planner, WithPlan(ctx, recon), Some(recon));
      stages := stages + [Stage("planner", planned)];
      LastPlanSteps(lib, roles, ctx, 2, Some(planned));
      var criticised :- Staged(lib, roles.critic, WithPlan(ctx, planned), Some(planned));
      stages := stages + [Stage("critic-pre-mutation", criticised)];
      LastPlanSteps(lib, roles, ctx, 3, Some(criticised));
      var mutated :- Staged(lib, roles.mutator, WithPlan(ctx, criticised), Some(criticised));
      stages := stages + [Stage("mutator", mutated)];
      LastPlanSteps(lib, roles, ctx, 4, Some(mutated));
      var checked :- Staged(lib, roles.critic, WithPlan(ctx, mutated), Some(mutated));
      stages := stages + [Stage("critic-post-mutation", checked)];
      LastPlanSteps(lib, roles, ctx, 5, Some(checked));
      var last :- Staged(lib, roles.minimizer, WithPlan(ctx, checked), Some(checked));
      stages := stages + [Stage("minimizer", last)];
      LastPlanSteps(lib, roles, ctx, 6, Some(last));
      var final := BindTrusted(last, seed, digest(last));
      stages := stages + [Stage("policy-boundary", final)];
      StagedIsValid(lib, roles, ctx, 0, seed);
      StagedIsValid(lib, roles, ctx, 1, Some(recon));
      StagedIsValid(lib, roles, ctx, 2, Some(planned));
      StagedIsValid(lib, roles, ctx, 3, Some(criticised));
      StagedIsValid(lib, roles, ctx, 4, Some(mutated));
      StagedIsValid(lib, roles, ctx, 5, Some(checked));
      return Some(PipelineResult(final, stages));
    }
  }

  lemma LastPlanSteps(lib: Library, roles: Roles, ctx: AgentContext, i: nat, prior: Option<AttackPlan>)
    requires i <= 6
    ensures LastPlan(lib, roles, ctx, i, prior) ==
      if i == 6 then prior
      else match StageOf(lib, roles, ctx, i, prior)
        case None => None
        case Some(plan) => LastPlan(lib, roles, ctx, i + 1, Some(plan))
  {
    hide StageOf;
  }

  lemma StagedIsValid(lib: Library, roles: Roles, ctx: AgentContext, i: nat, prior: Option<AttackPlan>)
    requires i < 6 && StageOf(lib, roles, ctx, i, prior).Some?
    ensures AgentPlanValid(lib, ctx, StageOf(lib, roles, ctx, i, prior).value)
  {
    hide AgentPlanValid;
    if i > 0 && prior.Some? {
      ValidInAnyHistory(lib, ctx, WithPlan(ctx, prior.value), StageOf(lib, roles, ctx, i, prior).value);
    }
  }

  /** Validation does not look at the plans proposed before. */
  lemma ValidInAnyHistory(lib: Library, ctx: AgentContext, other: AgentContext, plan: AttackPlan)
    requires other == ctx.(priorPlans := other.priorPlans) && AgentPlanValid(lib, other, plan)
    ensures AgentPlanValid(lib, ctx, plan)
  {
    hide MemberAllowed, StepRequiresAuthorization;
    forall i | 0 <= i < |plan.steps|
      ensures AgentStepValid(lib, ctx, plan.steps[i])
    {
      var tree := Obj(plan.steps[i].arguments);
      WalkAgainstMembers(ctx, tree);
      WalkAgainstMembers(other, tree);
      forall f ensures MemberAllowed(ctx, f) == MemberAllowed(other, f) {
        SameDestinations(ctx, other, f);
      }
    }
  }

  lemma SameDestinations(ctx: AgentContext, other: AgentContext, f: Field)
    requires ctx.allowedTargets == other.allowedTargets
    ensures MemberAllowed(ctx, f) == MemberAllowed(other, f)
  {
    hide CanonicalText;
  }

  /** A path or, read like the campaign's targets, one of them; nothing if one of those cannot be read. */
  ghost predicate MayPointTo(ctx: AgentContext, text: string) {
    && (forall t :: t in ctx.allowedTargets ==> CanonicalText(t) != None)
    && ((|text| > 0 && text[0] == '/')
        || exists t, origin ::
             t in ctx.allowedTargets && CanonicalText(t) == Some(origin) && CanonicalText(text) == Some(origin))
  }

  lemma MayPointToExactly(ctx: AgentContext, text: string)
    ensures DestinationAllowed(ctx, text) <==> MayPointTo(ctx, text)
  {
    hide CanonicalText;
    if CanonicalText(text).Some? {
      var origin := CanonicalText(text).value;
      if t :| t in ctx.allowedTargets && CanonicalText(t) == CanonicalText(text) {
        assert CanonicalText(t) == Some(origin);
      }
    }
  }

  /** An argument that a role may give: none that executes, and a destination only if it may be pointed to. */
  ghost predicate MayGive(ctx: AgentContext, f: Field) {
    && NormalKey(f.key) !in EXECUTION_KEYS
    && (NormalKey(f.key) in AGENT_DESTINATION_KEYS && f.value.Str? ==> MayPointTo(ctx, f.value.text))
  }

  lemma MayGiveExactly(ctx: AgentContext, f: Field)
    ensures MemberAllowed(ctx, f) <==> MayGive(ctx, f)
  {
    hide DestinationAllowed, MayPointTo, NormalKey;
    if f.value.Str? {
      MayPointToExactly(ctx, f.value.text);
    }
  }

  /** What a role may propose: plans of this campaign, within its size and risk, judged by allowed oracles,
      made of allowed tools and targets, with tolerable timeouts and no member that is not allowed. */
  lemma ProposalExact(lib: Library, ctx: AgentContext, plan: AttackPlan)
    ensures AgentPlanValid(lib, ctx, plan) <==>
      && plan.campaignId == Some(ctx.campaignId)
      && |plan.steps| <= ctx.maxSteps
      && (plan.risk == Destructive ==> ctx.maxRisk == Destructive)
      && (plan.risk == Elevated ==> ctx.maxRisk != Safe)
      && (forall id :: id in plan.oracleIds ==> id in ctx.allowedOracles)
      && forall s :: s in plan.steps ==>
           && s.tool in ctx.allowedTools && s.target in ctx.allowedTargets
           && (forall t :: s.timeout == Some(Finite(t)) ==> t <= ctx.maxStepTimeout)
           && s.timeout != Some(PlusInfinity)
           && (ctx.maxRisk != Destructive ==> !StepRequiresAuthorization(lib, s))
           && forall f :: MemberAnywhere(Obj(s.arguments), f) ==> MayGive(ctx, f)
  {
    forall f ensures MemberAllowed(ctx, f) <==> MayGive(ctx, f) {
      MayGiveExactly(ctx, f);
    }
    hide MemberAllowed, MayGive, MemberAnywhere, StepRequiresAuthorization, WalkArguments;
    forall s: AttackStep
      ensures AgentStepValid(lib, ctx, s) <==>
        && s.tool in ctx.allowedTools && s.target in ctx.allowedTargets
        && (forall t :: s.timeout == Some(Finite(t)) ==> t <= ctx.maxStepTimeout)
        && s.timeout != Some(PlusInfinity)
        && (ctx.maxRisk != Destructive ==> !StepRequiresAuthorization(lib, s))
        && forall f :: MemberAnywhere(Obj(s.arguments), f) ==> MemberAllowed(ctx, f)
    {
      WalkExact(ctx, Obj(s.arguments));
      if s.timeout.Some? && s.timeout.value.Finite? {
        assert s.timeout == Some(Finite(s.timeout.value.value));
      }
    }
    hide AgentStepValid;
    assert (forall i :: 0 <= i < |plan.steps| ==> AgentStepValid(lib, ctx, plan.steps[i]))
      <==> forall s :: s in plan.steps ==> AgentStepValid(lib, ctx, s);
    assert (forall i :: 0 <= i < |plan.oracleIds| ==> plan.oracleIds[i] in ctx.allowedOracles)
      <==> forall id :: id in plan.oracleIds ==> id in ctx.allowedOracles;
  }

  /** A role answers with an acceptable plan that can be written as JSON. */
  predicate Offers(lib: Library, role: Role, ctx: AgentContext, prior: Option<AttackPlan>, plan: AttackPlan) {
    && role(ctx, prior) == Some(plan) && AgentPlanValid(lib, ctx, plan)
    && forall s :: s in plan.steps ==> s.timeout != Some(NotANumber) && s.timeout != Some(PlusInfinity)
                                       && s.timeout != Some(MinusInfinity)
  }

  /** The same, shown the plan before it both as the candidate and as the latest of the prior plans. */
  predicate Reworks(lib: Library, role: Role, ctx: AgentContext, prior: AttackPlan, plan: AttackPlan) {
    Offers(lib, role, ctx.(priorPlans := ctx.priorPlans + [prior]), Some(prior), plan)
  }

  predicate Chain(lib: Library, roles: Roles, ctx: AgentContext, seed: Option<AttackPlan>, p: seq<AttackPlan>) {
    && |p| == 6 && Offers(lib, roles.recon, ctx, seed, p[0])
    && Reworks(lib, roles.planner, ctx, p[0], p[1]) && Reworks(lib, roles.critic, ctx, p[1], p[2])
    && Reworks(lib, roles.mutator, ctx, p[2], p[3]) && Reworks(lib, roles.critic, ctx, p[3], p[4])
    && Reworks(lib, roles.minimizer, ctx, p[4], p[5])
  }

  lemma StageExact(lib: Library, roles: Roles, ctx: AgentContext, i: nat, prior: Option<AttackPlan>, plan: AttackPlan)
    requires i < 6 && (i > 0 ==> prior.Some?)
    ensures StageOf(lib, roles, ctx, i, prior) == Some(plan) <==>
      var role := RoleAt(roles, i);
      if i == 0 then Offers(lib, role, ctx, prior, plan) else Reworks(lib, role, ctx, prior.value, plan)
  {
    hide AgentPlanValid;
    assert Encodable(plan) <==> forall s :: s in plan.steps ==>
      s.timeout != Some(NotANumber) && s.timeout != Some(PlusInfinity) && s.timeout != Some(MinusInfinity);
  }

  /** Plan `k` is what stage `k` makes of the plan before it. */
  predicate Follows(lib: Library, roles: Roles, ctx: AgentContext, p: seq<AttackPlan>, k: int) {
    1 <= k < |p| <= 6 && StageOf(lib, roles, ctx, k, Some(p[k - 1])) == Some(p[k])
  }

  predicate Staging(lib: Library, roles: Roles, ctx: AgentContext, seed: Option<AttackPlan>, p: seq<AttackPlan>) {
    && 1 <= |p| <= 6 && StageOf(lib, roles, ctx, 0, seed) == Some(p[0])
    && forall k :: 1 <= k < |p| ==> Follows(lib, roles, ctx, p, k)
  }

  lemma ChainIsStaging(lib: Library, roles: Roles, ctx: AgentContext, seed: Option<AttackPlan>, p: seq<AttackPlan>)
    requires |p| == 6
    ensures Chain(lib, roles, ctx, seed, p) <==> Staging(lib, roles, ctx, seed, p)
  {
    hide Offers, Reworks, StageOf;
    StageExact(lib, roles, ctx, 0, seed, p[0]);
    forall k | 1 <= k < 6
      ensures Follows(lib, roles, ctx, p, k) <==> Reworks(lib, RoleAt(roles, k), ctx, p[k - 1], p[k])
    {
      StageExact(lib, roles, ctx, k, Some(p[k - 1]), p[k]);
    }
    assert Follows(lib, roles, ctx, p, 1) <==> Reworks(lib, roles.planner, ctx, p[0], p[1]);
    assert Follows(lib, roles, ctx, p, 2) <==> Reworks(lib, roles.critic, ctx, p[1], p[2]);
    assert Follows(lib, roles, ctx, p, 3) <==> Reworks(lib, roles.mutator, ctx, p[2], p[3]);
    assert Follows(lib, roles, ctx, p, 4) <==> Reworks(lib, roles.critic, ctx, p[3], p[4]);
    assert Follows(lib, roles, ctx, p, 5) <==> Reworks(lib, roles.minimizer, ctx, p[4], p[5]);
  }

  /** The stages are recon, planner, critic, mutator, critic and minimizer, each on the plan of the one before it,
      and the last plan is the minimizer's. */
  lemma ChainExact(lib: Library, roles: Roles, ctx: AgentContext, seed: Option<AttackPlan>, p: seq<AttackPlan>)
    ensures Chain(lib, roles, ctx, seed, p) ==> LastPlan(lib, roles, ctx, 0, seed) == Some(p[5])
    ensures LastPlan(lib, roles, ctx, 0, seed).Some? ==> exists q :: Chain(lib, roles, ctx, seed, q)
  {
    hide Offers, Reworks, StageOf;
    if Chain(lib, roles, ctx, seed, p) {
      ChainIsStaging(lib, roles, ctx, seed, p);
      ChainEnds(lib, roles, ctx, seed, p, 1);
    }
    LastPlanSteps(lib, roles, ctx, 0, seed);
    if LastPlan(lib, roles, ctx, 0, seed).Some? {
      var q := Continued(lib, roles, ctx, seed, [StageOf(lib, roles, ctx, 0, seed).value]);
      ChainIsStaging(lib, roles, ctx, seed, q);
    }
  }

  lemma {:induction false} ChainEnds(lib: Library, roles: Roles, ctx: AgentContext, seed: Option<AttackPlan>,
                                     p: seq<AttackPlan>, i: nat)
    requires |p| == 6 && Staging(lib, roles, ctx, seed, p) && 1 <= i <= 6
    ensures LastPlan(lib, roles, ctx, i, Some(p[i - 1])) == Some(p[5])
    ensures LastPlan(lib, roles, ctx, 0, seed) == LastPlan(lib, roles, ctx, 1, Some(p[0]))
    decreases 6 - i
  {
    hide StageOf;
    if i < 6 {
      assert Follows(lib, roles, ctx, p, i);
      ChainEnds(lib, roles, ctx, seed, p, i + 1);
    }
  }

  lemma {:induction false} Continued(lib: Library, roles: Roles, ctx: AgentContext, seed: Option<AttackPlan>,
                                     p: seq<AttackPlan>) returns (q: seq<AttackPlan>)
    requires Staging(lib, roles, ctx, seed, p)
    requires LastPlan(lib, roles, ctx, |p|, Some(p[|p| - 1])).Some?
    ensures |q| == 6 && Staging(lib, roles, ctx, seed, q)
    decreases 6 - |p|
  {
    hide StageOf;
    if |p| == 6 {
      q := p;
    } else {
      var longer := p + [StageOf(lib, roles, ctx, |p|, Some(p[|p| - 1])).value];
      forall k | 1 <= k < |longer| ensures Follows(lib, roles, ctx, longer, k) {
        if k < |p| {
          assert Follows(lib, roles, ctx, p, k);
        }
      }
      q := Continued(lib, roles, ctx, seed, longer);
    }
  }

  /** The boundary changes the plan's identifier, oracles and metadata, and nothing else. */
  lemma BoundaryExact(candidate: AttackPlan, seed: Option<AttackPlan>, digest: string)
    ensures var final := BindTrusted(candidate, seed, digest);
      && final.steps == candidate.steps && final.risk == candidate.risk && final.campaignId == candidate.campaignId
      && final.title == candidate.title && final.hypothesis == candidate.hypothesis
      && "policy-" <= final.planId
      && (|digest| >= 24 ==> |final.planId| == 31 && final.planId[7..] <= digest)
  {
  }

  /** The final plan of a pipeline keeps to the campaign's tools and targets, and is judged by its seed. */
  lemma FinalPlanContained(lib: Library, roles: Roles, ctx: AgentContext, seed: AttackPlan, digest: string)
    requires LastPlan(lib, roles, ctx, 0, Some(seed)).Some?
    ensures var final := BindTrusted(LastPlan(lib, roles, ctx, 0, Some(seed)).value, Some(seed), digest);
      && |final.steps| <= ctx.maxSteps && final.oracleIds == seed.oracleIds
      && forall s :: s in final.steps ==> s.tool in ctx.allowedTools && s.target in ctx.allowedTargets
  {
    hide AgentPlanValid, StageOf, LastPlan;
    LastPlanIsValid(lib, roles, ctx, 0, Some(seed));
    ProposalExact(lib, ctx, LastPlan(lib, roles, ctx, 0, Some(seed)).value);
    hide MemberAnywhere, MemberAllowed, PutAll, BoundaryNotes;
  }

  lemma {:induction false} LastPlanIsValid(lib: Library, roles: Roles, ctx: AgentContext, i: nat,
                                           prior: Option<AttackPlan>)
    requires i <= 6 && LastPlan(lib, roles, ctx, i, prior).Some?
    requires i == 6 ==> AgentPlanValid(lib, ctx, prior.value)
    ensures AgentPlanValid(lib, ctx, LastPlan(lib, roles, ctx, i, prior).value)
    decreases 6 - i
  {
    hide AgentPlanValid, StageOf;
    if i < 6 {
      StagedIsValid(lib, roles, ctx, i, prior);
      LastPlanIsValid(lib, roles, ctx, i + 1, StageOf(lib, roles, ctx, i, prior));
    }
  }

  /** The boundary's notes are in the final metadata, whatever the contract or the model says under those keys. */
  lemma NotesWin(candidate: AttackPlan, seed: Option<AttackPlan>, digest: string)
    ensures var m := BindTrusted(candidate, seed, digest).metadata;
      && Get(m, "agent_role") == Some(Str("policy-boundary"))
      && Get(m, "parent_plan_id") == Some(Str(candidate.planId))
      && Get(m, "agentic_contract") == Some(Bool(true))
      && Get(m, "oracle_contract_source") == Some(Str(if seed.Some? then seed.value.planId else "diagnostic-default"))
      && Get(m, "agent_candidate_sha256") == Some(Str(digest))
  {
    hide Get, PutAll, DiagnosticMetadata, DiagnosticOracles;
    var source := if seed.Some? then seed.value.planId else "diagnostic-default";
    var notes := BoundaryNotes(candidate, source, digest);
    var metadata := if seed.Some? then seed.value.metadata else DiagnosticMetadata(StepTools(candidate));
    forall i | 0 <= i < 5 ensures Get(PutAll(metadata, notes), notes[i].key) == Some(notes[i].value) {
      GetPutAllOther(metadata, notes, i);
    }
    assert notes[0].key == "agent_role" && notes[1].key == "parent_plan_id" && notes[2].key == "agentic_contract";
    assert notes[3].key == "oracle_contract_source" && notes[4].key == "agent_candidate_sha256";
  }

  /** Without a seed the contract is the diagnostic one. */
  lemma SeedlessNotes(candidate: AttackPlan, digest: string)
    ensures var m := BindTrusted(candidate, None, digest).metadata;
      && Get(m, "diagnostic_only") == Some(Bool(true))
      && Get(m, "unexpected_status_is_vulnerability") == Some(Bool(false))
      && Get(m, "inconclusive_statuses") == Some(Arr([Int(401)]))
  {
    var tools := StepTools(candidate);
    hide StepTools, PutAll, Get, BoundaryNotes;
    DiagnosticMembers(tools);
    PastNotes(DiagnosticMetadata(tools), candidate, "diagnostic-default", digest, "diagnostic_only");
    PastNotes(DiagnosticMetadata(tools), candidate, "diagnostic-default", digest, "unexpected_status_is_vulnerability");
    PastNotes(DiagnosticMetadata(tools), candidate, "diagnostic-default", digest, "inconclusive_statuses");
  }

  lemma DiagnosticMembers(tools: set<string>)
    ensures var m := DiagnosticMetadata(tools);
      && Get(m, "diagnostic_only") == Some(Bool(true))
      && Get(m, "unexpected_status_is_vulnerability") == Some(Bool(false))
      && Get(m, "inconclusive_statuses") == Some(Arr([Int(401)]))
  {
    var m := DiagnosticMetadata(tools);
    hide Get, SortedHttpTools;
    assert m[0].key == "expected_statuses" && m[1].key == "inconclusive_statuses" && m[2].key == "status_tools";
    assert m[3].key == "diagnostic_only" && m[4].key == "unexpected_status_is_vulnerability";
    assert Ints([401]).items == [Int(401)];
    GetOfDistinct(m, 1);
    GetOfDistinct(m, 3);
    GetOfDistinct(m, 4);
  }

  // ----- the verdict does not depend on what the model chose -----

  const BOUNDARY_KEYS: set<string> :=
    {"agent_role", "parent_plan_id", "agentic_contract", "oracle_contract_source", "agent_candidate_sha256",
     "proposed_plan_id"}

  /** The boundary and the coordinator add metadata, but never touch a key an oracle reads. */
  lemma PastNotes(metadata: seq<Field>, candidate: AttackPlan, source: string, digest: string, key: string)
    requires key !in BOUNDARY_KEYS
    ensures Get(PutAll(metadata, BoundaryNotes(candidate, source, digest)), key) == Get(metadata, key)
  {
    var notes := BoundaryNotes(candidate, source, digest);
    GetIsMember(notes, key);
    GetPutAll(metadata, notes, key);
  }

  lemma NotesAreInvisible(metadata: seq<Field>, candidate: AttackPlan, source: string, digest: string, proposed: Json,
                          key: string)
    requires key !in BOUNDARY_KEYS
    ensures Get(PutDefault(PutAll(metadata, BoundaryNotes(candidate, source, digest)), "proposed_plan_id", proposed),
                key)
         == Get(metadata, key)
  {
    var notes := BoundaryNotes(candidate, source, digest);
    PastNotes(metadata, candidate, source, digest, key);
    GetPut(PutAll(metadata, notes), "proposed_plan_id", proposed, key);
  }

  /** A candidate bound to a seed and rebound by the coordinator carries exactly the seed's contract. */
  lemma SeedContract(candidate: AttackPlan, seed: AttackPlan, digest: string, campaign: string, ids: NewIds)
    ensures var bound := BindPlan(BindTrusted(candidate, Some(seed), digest), campaign, ids);
      SameContract(bound, seed) && bound.oracleIds == seed.oracleIds
  {
    var trusted := BindTrusted(candidate, Some(seed), digest);
    forall key | key in CONTRACT_KEYS
      ensures Get(BindPlan(trusted, campaign, ids).metadata, key) == Get(seed.metadata, key)
    {
      NotesAreInvisible(seed.metadata, candidate, seed.planId, digest, Str(trusted.planId), key);
    }
  }

  lemma EvaluatedAlike(p: AttackPlan, q: AttackPlan, observations: seq<Observation>)
    requires SameContract(p, q) && p.oracleIds == q.oracleIds
    ensures Evaluate(DefaultOracles(), p, observations) == Evaluate(DefaultOracles(), q, observations)
  {
    hide DefaultOracles;
    forall i | 0 <= i < |p.oracleIds|
      ensures EvaluateOne(DefaultOracles(), p.oracleIds[i], p, observations)
           == EvaluateOne(DefaultOracles(), q.oracleIds[i], q, observations)
    {
      if p.oracleIds[i] in DEFAULT_ORACLE_IDS {
        JudgedAlike(p.oracleIds[i], p, q, observations);
      }
    }
  }

  /** Non-interference for one attempt: whatever the candidate, the results are the seed's. */
  lemma CandidateCannotSteerOracles(candidate: AttackPlan, seed: AttackPlan, digest: string, campaign: string,
                                    ids: NewIds,
                                    observations: seq<Observation>)
    ensures Evaluate(DefaultOracles(), BindPlan(BindTrusted(candidate, Some(seed), digest), campaign, ids),
                     observations)
         == Evaluate(DefaultOracles(), seed, observations)
  {
    hide DefaultOracles, Evaluate, BindPlan, BindTrusted, SameContract;
    SeedContract(candidate, seed, digest, campaign, ids);
    EvaluatedAlike(BindPlan(BindTrusted(candidate, Some(seed), digest), campaign, ids), seed, observations);
  }

  /** Two plans that do the same steps at the same risk under the same contract. */
  ghost predicate SameConduct(p: AttackPlan, q: AttackPlan) {
    SameContract(p, q) && p.oracleIds == q.oracleIds && p.steps == q.steps && p.risk == q.risk
  }

  lemma {:induction false} SameWorlds(run: Run, q: AttackPlan, w: World, k: nat)
    requires run.oracles == DefaultOracles() && SameConduct(run.plan, q)
    ensures WorldAfter(run, w, k) == WorldAfter(run.(plan := q), w, k)
    ensures Attempt(run, w, k) == Attempt(run.(plan := q), w, k)
    ensures ResultsAt(run, w, k) == ResultsAt(run.(plan := q), w, k)
  {
    hide DefaultOracles, Evaluate, ExecuteSteps, StepAccepted, SameContract, AuthorizationValid;
    if k > 0 {
      SameWorlds(run, q, w, k - 1);
    }
    assert ExecutePlan(run.lab, run.authorization, run.plan, WorldAfter(run, w, k))
        == ExecutePlan(run.lab, run.authorization, q, WorldAfter(run, w, k));
    if Attempt(run, w, k).Ran? {
      EvaluatedAlike(run.plan, q, Attempt(run, w, k).observations);
    }
  }

  lemma {:induction false} SamePrefixes(run: Run, q: AttackPlan, w: World, n: nat)
    requires run.oracles == DefaultOracles() && SameConduct(run.plan, q)
    ensures SharedKeys(run, w, n) == SharedKeys(run.(plan := q), w, n)
    ensures StablePrefix(run, w, n) == StablePrefix(run.(plan := q), w, n)
    ensures AllResults(run, w, n) == AllResults(run.(plan := q), w, n)
  {
    hide DefaultOracles, WorldAfter, Attempt, ResultsAt, FailureKeys, BaseVerdict, SameConduct;
    SameWorlds(run, q, w, n);
    if n > 0 {
      SamePrefixes(run, q, w, n - 1);
      SameWorlds(run, q, w, n - 1);
    }
  }

  /** Non-interference for whole runs: title, hypothesis, metadata, oracle choice and plan ID of the
      candidate change nothing in verdict, attempts, confirmations, results or side effects. */
  lemma RunNonInterference(run: Run, q: AttackPlan, w: World)
    requires run.oracles == DefaultOracles() && SameConduct(run.plan, q)
    ensures var a, b := RunPlan(run, w), RunPlan(run.(plan := q), w);
      && a.world == b.world
      && a.finding.verdict == b.finding.verdict
      && a.finding.attempts == b.finding.attempts
      && a.finding.confirmations == b.finding.confirmations
      && a.finding.results == b.finding.results
  {
    hide DefaultOracles, WorldAfter, Attempt, ResultsAt, FailureKeys;
    hide BaseVerdict, SharedKeys, StablePrefix, AllResults, SameContract;
    var c := StablePrefix(run, w, run.required);
    SameWorlds(run, q, w, 0);
    SameWorlds(run, q, w, 1);
    SameWorlds(run, q, w, c);
    SameWorlds(run, q, w, c + 1);
    SamePrefixes(run, q, w, run.required);
    SamePrefixes(run, q, w, c);
    SamePrefixes(run, q, w, c + 1);
  }

  /** The same for two candidates bound to one seed, if they propose the same steps and risk. */
  lemma CandidatesInterchangeable(run: Run, first: AttackPlan, second: AttackPlan, seed: AttackPlan,
                                  firstDigest: string, secondDigest: string, campaign: string, ids: NewIds, w: World)
    requires first.steps == second.steps && first.risk == second.risk
    requires run.oracles == DefaultOracles()
    requires run.plan == BindPlan(BindTrusted(first, Some(seed), firstDigest), campaign, ids)
    ensures var other := run.(plan := BindPlan(BindTrusted(second, Some(seed), secondDigest), campaign, ids));
      && RunPlan(run, w).world == RunPlan(other, w).world
      && RunPlan(run, w).finding.verdict == RunPlan(other, w).finding.verdict
      && RunPlan(run, w).finding.results == RunPlan(other, w).finding.results
  {
    hide RunPlan, DefaultOracles;
    SeedContract(first, seed, firstDigest, campaign, ids);
    SeedContract(second, seed, secondDigest, campaign, ids);
    RunNonInterference(run, BindPlan(BindTrusted(second, Some(seed), secondDigest), campaign, ids), w);
  }

  // ----- authorization -----

  /** The policy boundary and the coordinator change neither steps nor risk, as far as effects go. */
  lemma BindingKeepsEffects(lib: Library, candidate: AttackPlan, seed: Option<AttackPlan>, digest: string,
                            campaign: string, ids: NewIds)
    ensures PlanRequiresAuthorization(lib, BindTrusted(candidate, seed, digest))
      == PlanRequiresAuthorization(lib, candidate)
    ensures PlanRequiresAuthorization(lib, BindPlan(candidate, campaign, ids))
      == PlanRequiresAuthorization(lib, candidate)
  {
    hide SafeSyntheticPost, EmptyPayload, EffectiveMethod;
    var bound := BindPlan(candidate, campaign, ids);
    forall i | 0 <= i < |candidate.steps|
      ensures StepRequiresAuthorization(lib, bound.steps[i]) == StepRequiresAuthorization(lib, candidate.steps[i])
    {
      RenamedStep(lib, candidate.steps[i], ids.step(i));
    }
  }

  lemma RenamedStep(lib: Library, step: AttackStep, id: string)
    ensures StepRequiresAuthorization(lib, step.(stepId := id)) == StepRequiresAuthorization(lib, step)
  {
    hide PyText, Upper, SyntheticCall;
  }

  /** Agents cannot raise the authorization level: below the destructive ceiling, neither the final
      plan nor its bound image needs authorization. */
  lemma AgentsCannotEscalate(lib: Library, ctx: AgentContext, last: AttackPlan, seed: Option<AttackPlan>,
                             digest: string,
                             campaign: string, ids: NewIds)
    requires ctx.maxRisk != Destructive && AgentPlanValid(lib, ctx, last)
    ensures var final := BindTrusted(last, seed, digest);
      !PlanRequiresAuthorization(lib, final) && !PlanRequiresAuthorization(lib, BindPlan(final, campaign, ids))
  {
    hide StepRequiresAuthorization, WalkArguments, BindTrusted, BindPlan;
    assert forall i :: 0 <= i < |last.steps| ==> AgentStepValid(lib, ctx, last.steps[i]);
    BindingKeepsEffects(lib, last, seed, digest, campaign, ids);
    BindingKeepsEffects(lib, BindTrusted(last, seed, digest), seed, digest, campaign, ids);
  }
}
