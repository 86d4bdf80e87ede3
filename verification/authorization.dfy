/** What the operator's authorization decides, from the request on the wire to the finding. */
module Supervision {
  import opened JsonValues
  import opened Models
  import opened Targets
  import opened Safety
  import opened Tools
  import opened Executor
  import opened Coordination

  /** The plan is labelled destructive, or a request of one of its steps is not harmless. */
  predicate Dangerous(lib: Library, plan: AttackPlan) {
    || plan.risk == Destructive
    || exists i :: 0 <= i < |plan.steps| && DangerousStep(lib, plan.steps[i])
  }

  predicate DangerousStep(lib: Library, step: AttackStep) {
    || step.destructive
    || (step.tool in HTTP_TOOLS && BareOrigin(step.target) && !Harmless(lib, step.tool, BuildRequest(step)))
  }

  /** The operator named a snapshot, if one is required, and gave the configured token. */
  predicate Approved(safety: SafetyConfig, tokens: Tokens, authorization: Option<Authorization>) {
    match authorization
    case None => false
    case Some(given) =>
      && (safety.requireSnapshot ==> exists i :: 0 <= i < |given.snapshotId| && !IsSpace(given.snapshotId[i]))
      && given.token != "" && tokens.destructive == Some(given.token)
  }

  lemma ApprovedExactly(gate: Gate, tokens: Tokens, authorization: Option<Authorization>)
    ensures AuthorizationValid(gate, tokens, authorization) <==> Approved(gate.config.safety, tokens, authorization)
  {
  }

  lemma DangerousNeedsAuthorization(lib: Library, plan: AttackPlan)
    requires Dangerous(lib, plan)
    ensures PlanRequiresAuthorization(lib, plan)
  {
    hide BareOrigin, Harmless, BuildRequest, StepRequiresAuthorization;
    if i :| 0 <= i < |plan.steps| && DangerousStep(lib, plan.steps[i]) {
      DangerousStepNeedsAuthorization(lib, plan.steps[i]);
    }
  }

  lemma DangerousStepNeedsAuthorization(lib: Library, step: AttackStep)
    requires DangerousStep(lib, step)
    ensures StepRequiresAuthorization(lib, step)
  {
    hide BareOrigin, Harmless, BuildRequest, EffectiveMethod, SafeSyntheticPost;
    if !step.destructive {
      GateAdapterAgreement(lib, step);
    }
  }

  /** Without the operator's approval a dangerous plan is refused, sends nothing, and reports no attempt. */
  lemma UnapprovedSendsNothing(run: Run, w: World)
    requires run.required >= 1 && Dangerous(run.lab.gate.lib, run.plan)
    requires !Approved(run.lab.gate.config.safety, run.lab.env.tokens(w.tokenReads), run.authorization)
    ensures var r := RunPlan(run, w);
      r.finding.attempts == 0 && r.finding.verdict == Error && r.world.calls == w.calls
  {
    hide StepAccepted, PlanRequiresAuthorization, AuthorizationValid, Approved;
    hide Dangerous, ExecutePlan, SharedKeys, Evaluate;
    ApprovedExactly(run.lab.gate, run.lab.env.tokens(w.tokenReads), run.authorization);
    DangerousNeedsAuthorization(run.lab.gate.lib, run.plan);
    if Missing(run.oracles, run.plan.oracleIds) == [] {
      ZeroAttempts(run, w);
      RefusedHasNoEffect(run.lab, run.authorization, run.plan, w);
    }
  }

  /** A plan is accepted exactly if it has no more steps than allowed, all of them acceptable, and the approval
      if it needs one. */
  lemma ApprovalDecides(gate: Gate, tokens: Tokens, plan: AttackPlan, authorization: Option<Authorization>)
    ensures PlanAccepted(gate, tokens, plan, authorization) <==>
      && |plan.steps| <= gate.config.budgets.maxSteps
      && (forall s :: s in plan.steps ==> StepAccepted(gate, tokens, s))
      && (PlanRequiresAuthorization(gate.lib, plan) ==> Approved(gate.config.safety, tokens, authorization))
  {
    hide StepAccepted, PlanRequiresAuthorization, AuthorizationValid, Approved;
    ApprovedExactly(gate, tokens, authorization);
  }

  /** With the approval, and everything else in order, it is attempted. */
  lemma ApprovedIsAttempted(run: Run, w: World)
    requires run.required >= 1 && Missing(run.oracles, run.plan.oracleIds) == []
    requires FixedTokens(run.lab.env) && Served(run.lab, run.plan)
    requires |run.plan.steps| <= run.lab.Budgets().maxSteps
    requires forall i :: 0 <= i < |run.plan.steps| ==>
      StepAccepted(run.lab.gate, run.lab.env.tokens(w.tokenReads), run.plan.steps[i])
    requires Approved(run.lab.gate.config.safety, run.lab.env.tokens(w.tokenReads), run.authorization)
    ensures RunPlan(run, w).finding.attempts >= 1
  {
    hide StepAccepted, PlanAccepted, PlanRequiresAuthorization, Approved, ExecutePlan, RunPlan;
    ApprovalDecides(run.lab.gate, run.lab.env.tokens(w.tokenReads), run.plan, run.authorization);
    AcceptedNeverRejected(run.lab, run.authorization, run.plan, w);
    ZeroAttempts(run, w);
  }

  // ----- what the gate asks of every step -----

  /** An authorized target whose canonical origin the campaign lists. */
  ghost predicate Listed(gate: Gate, target: string) {
    && AuthorizedTarget(gate.lib.net, gate.config.safety, target)
    && exists origin :: origin in gate.allowedTargets && CanonicalTarget(target) == Some(origin)
  }

  /** What a destination may be: a path, or a listed origin written as a URL or with a colon. */
  ghost predicate MayName(gate: Gate, text: string) {
    || (|text| > 0 && text[0] == '/')
    || (':' in text && Listed(gate, text))
  }

  /** A path, and not one that begins with another authority. */
  predicate PlainPath(path: string) {
    && |path| > 0 && path[0] == '/'
    && (|path| > 2 && path[1] == '/' ==> path[2] in {'/', '?', '#'})
  }

  /** At most the step budget, where absent and zero stand for it; `NaN` is not more. */
  predicate WithinStepBudget(timeout: Option<Double>, budget: real) {
    match timeout
    case Some(Finite(t)) => t == 0.0 || t <= budget
    case Some(other) => other != PlusInfinity
    case None => true
  }

  predicate ArgumentsClean(gate: Gate, step: AttackStep) {
    && Strict(Obj(step.arguments)) && gate.lib.payloadSize(step.arguments) <= gate.config.budgets.maxPayload
  }

  /** What is asked of the request of an HTTP tool. */
  ghost predicate RequestClean(gate: Gate, step: AttackStep)
    requires step.tool in HTTP_TOOLS
  {
    var verb := BuildRequest(step).verb;
    var path := PyText(GetOr(step.arguments, "path", Str("/")));
    && (if verb == "" then "GET" else verb) in gate.config.safety.allowedMethods
    && PlainPath(path) && !gate.lib.embedsUrl(path)
    && gate.lib.queryDestinations(path).Some?
    && forall q :: q in gate.lib.queryDestinations(path).value ==> MayName(gate, q)
  }

  /** A key that names a credential, or ends like one. */
  predicate SecretName(key: string) {
    var name := NormalKey(key);
    name in SENSITIVE_KEYS || (|name| >= 6 && name[|name| - 6..] == "_token")
  }

  lemma SecretNameExactly(key: string)
    ensures SensitiveKey(key) <==> SecretName(key)
  {
    hide NormalKey;
  }

  /** No member at any depth has a sensitive key, or a destination key and a text that may not be named. */
  ghost predicate MembersClean(gate: Gate, step: AttackStep) {
    forall f :: MemberAnywhere(Obj(step.arguments), f) ==>
      && !SecretName(f.key)
      && (NormalKey(f.key) in DESTINATION_KEYS && f.value.Str? ==> MayName(gate, f.value.text))
  }

  lemma MayNameExactly(gate: Gate, text: string)
    ensures NestedAllowed(gate, text) <==> MayName(gate, text)
  {
    hide AuthorizedTarget, CanonicalTarget;
    if IsUrl(text) {
      assert text[0] == 'h' && (text[4] == ':' || text[5] == ':');
    }
  }

  lemma PlainPathExactly(path: string)
    ensures RelativePath(path) <==> PlainPath(path)
  {
    if StartsWith(path, "//") {
      assert path[..2] == "//";
      var rest := path[2..];
      if rest != [] {
        assert rest[0] == path[2];
      }
    }
  }

  /** The gate accepts a step exactly if its tool is allowed, its target listed and, unless on loopback, the lab
      token set, its timeout and arguments within bounds, its request clean, and its arguments clean throughout. */
  lemma AcceptedExactly(gate: Gate, tokens: Tokens, step: AttackStep)
    requires 0.0 < gate.config.budgets.stepTimeout
    ensures StepAccepted(gate, tokens, step) <==>
      && step.tool in gate.config.safety.allowedTools
      && Listed(gate, step.target)
      && (tokens.remoteLab.None? ==> !IsRemoteTarget(gate.lib.net, step.target))
      && WithinStepBudget(step.timeout, gate.config.budgets.stepTimeout)
      && ArgumentsClean(gate, step)
      && (step.tool in HTTP_TOOLS ==> RequestClean(gate, step))
      && MembersClean(gate, step)
  {
    hide MemberAnywhere, SensitiveKey, NestedAllowed, MayName, AuthorizedTarget, CanonicalTarget, IsRemoteTarget;
    hide Strict, HasCredential, RelativePath, PlainPath, PyText, Upper, NestedTargets, BuildRequest, NormalKey, Get;
    forall text ensures NestedAllowed(gate, text) <==> MayName(gate, text) {
      MayNameExactly(gate, text);
    }
    forall key ensures SensitiveKey(key) <==> SecretName(key) {
      SecretNameExactly(key);
    }
    hide SecretName;
    if step.tool in HTTP_TOOLS {
      MethodAgreement(step);
      PlainPathExactly(PyText(GetOr(step.arguments, "path", Str("/"))));
    }
    if StepBasicsAccepted(gate, tokens, step) && HttpArgumentsAccepted(gate, step) {
      RefusedExactly(gate, tokens, step);
    }
  }
}
