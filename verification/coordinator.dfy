/** Campaign orchestration: a failure becomes a vulnerability only when it is reproduced. */
module Coordination {
  import opened JsonValues
  import opened Models
  import opened Safety
  import opened Oracles
  import opened Executor

  // ----- plans and verdicts -----

  /** Fresh identifiers drawn from `uuid4`. */
  datatype NewIds = NewIds(plan: string, step: nat -> string)

  /** `_bind_plan`: every proposer-controlled correlation ID is replaced. */
  function BindPlan(plan: AttackPlan, campaign: string, ids: NewIds): AttackPlan {
    plan.(
      planId := ids.plan,
      campaignId := Some(campaign),
      steps := seq(|plan.steps|, i requires 0 <= i < |plan.steps| => plan.steps[i].(stepId := ids.step(i))),
      metadata := PutDefault(plan.metadata, "proposed_plan_id", Str(plan.planId)))
  }

  /** One oracle: a missing, raising or mislabelled one counts as an error. */
  function EvaluateOne(oracles: map<string, Evaluator>, id: string, plan: AttackPlan,
                       observations: seq<Observation>): OracleResult {
    if id !in oracles then OracleResult(id, Error, None)
    else match oracles[id](plan, observations)
      case Some(r) => if r.oracleId == id then r else OracleResult(id, Error, None)
      case None => OracleResult(id, Error, None)
  }

  function Evaluate(oracles: map<string, Evaluator>, plan: AttackPlan,
                    observations: seq<Observation>): seq<OracleResult> {
    seq(|plan.oracleIds|, i requires 0 <= i < |plan.oracleIds| =>
          EvaluateOne(oracles, plan.oracleIds[i], plan, observations))
  }

  function BaseVerdict(results: seq<OracleResult>): Verdict {
    var verdicts := set r | r in results :: r.verdict;
    if Error in verdicts then Error
    else if Inconclusive in verdicts then Inconclusive
    else if Vulnerable in verdicts || Fail in verdicts then Fail
    else if results != [] && verdicts == {Pass} then Pass
    else Inconclusive
  }

  type Key = (string, Fingerprint)

  function FailureKeys(results: seq<OracleResult>): set<Key> {
    set r | r in results && r.verdict in {Fail, Vulnerable} && r.fingerprint.Some? && r.fingerprint.value != EmptyText
      :: (r.oracleId, r.fingerprint.value)
  }

  function Missing(oracles: map<string, Evaluator>, ids: seq<string>): seq<string> {
    if ids == [] then []
    else (if ids[0] in oracles then [] else [ids[0]]) + Missing(oracles, ids[1..])
  }

  // ----- specification: what the attempts would show -----

  /** A bound plan, the laboratory it runs in, and the reproduction threshold. */
  datatype Run = Run(
    lab: Lab,
    authorization: Option<Authorization>,
    oracles: map<string, Evaluator>,
    plan: AttackPlan,
    required: nat)

  /** The world after `k` back-to-back attempts, whatever they showed. */
  function WorldAfter(run: Run, w: World, k: nat): World {
    if k == 0 then w else ExecutePlan(run.lab, run.authorization, run.plan, WorldAfter(run, w, k - 1)).world
  }

  function Attempt(run: Run, w: World, k: nat): PlanOutcome {
    ExecutePlan(run.lab, run.authorization, run.plan, WorldAfter(run, w, k)).outcome
  }

  function ResultsAt(run: Run, w: World, k: nat): seq<OracleResult> {
    match Attempt(run, w, k)
    case Ran(observations) => Evaluate(run.oracles, run.plan, observations)
    case Rejected => []
  }

  predicate FailsAt(run: Run, w: World, k: nat) {
    Attempt(run, w, k).Ran? && BaseVerdict(ResultsAt(run, w, k)) == Fail
  }

  /** Attempt `k` failed, and `key` is one of its typed failures. */
  predicate FailsWith(run: Run, w: World, k: nat, key: Key) {
    FailsAt(run, w, k) && key in FailureKeys(ResultsAt(run, w, k))
  }

  predicate FailsThroughout(run: Run, w: World, n: nat, key: Key) {
    forall k :: 0 <= k < n ==> FailsWith(run, w, k, key)
  }

  /** One key fails in each of the first `n` attempts. */
  ghost predicate Reproduced(run: Run, w: World, n: nat) {
    exists key :: FailsThroughout(run, w, n, key)
  }

  /** The keys that fail in every one of the first `n + 1` attempts. */
  function SharedKeys(run: Run, w: World, n: nat): set<Key> {
    var here := if FailsAt(run, w, n) then FailureKeys(ResultsAt(run, w, n)) else {};
    if n == 0 then here else SharedKeys(run, w, n - 1) * here
  }

  /** The longest all-failing prefix of at most `n` attempts with a shared key. */
  function StablePrefix(run: Run, w: World, n: nat): nat {
    if n == 0 then 0
    else if SharedKeys(run, w, n - 1) != {} then n
    else StablePrefix(run, w, n - 1)
  }

  function AllResults(run: Run, w: World, n: nat): seq<OracleResult> {
    if n == 0 then [] else AllResults(run, w, n - 1) + ResultsAt(run, w, n - 1)
  }

  datatype FindingRun = FindingRun(finding: Finding, world: World)

  function Found(run: Run, verdict: Verdict, attempts: nat, confirmations: nat, results: seq<OracleResult>): Finding {
    Finding(if run.plan.campaignId.Some? then run.plan.campaignId.value else "", run.plan.planId, run.plan.title,
            verdict, attempts, confirmations, results)
  }

  /** The finding in terms of what back-to-back attempts would show. */
  function RunPlan(run: Run, w: World): FindingRun {
    var missing := Missing(run.oracles, run.plan.oracleIds);
    if missing != [] then
      FindingRun(
        Found(run, Error, 0, 0,
              seq(|missing|, i requires 0 <= i < |missing| => OracleResult(missing[i], Error, None))),
        w)
    else if Attempt(run, w, 0).Rejected? then FindingRun(Found(run, Error, 0, 0, []), WorldAfter(run, w, 1))
    else if !FailsAt(run, w, 0) then
      FindingRun(Found(run, BaseVerdict(ResultsAt(run, w, 0)), 1, 0, ResultsAt(run, w, 0)), WorldAfter(run, w, 1))
    else
      var c := StablePrefix(run, w, run.required);
      if c == run.required then
        FindingRun(Found(run, Vulnerable, c, c, AllResults(run, w, c)), WorldAfter(run, w, c))
      else
        // attempt c is the first that is rejected, does not fail, or shares no key
        var attempts := if c > 0 && Attempt(run, w, c).Rejected? then c else c + 1;
        FindingRun(Found(run, Fail, attempts, c, AllResults(run, w, attempts)), WorldAfter(run, w, c + 1))
  }

  // ----- the coordinator object -----

  class Coordinator {
    const executor: SafeToolExecutor
    const oracles: map<string, Evaluator>
    const required: nat

    constructor (executor: SafeToolExecutor, oracles: map<string, Evaluator>, required: nat)
      ensures this.executor == executor && this.oracles == oracles && this.required == required
    {
      this.executor := executor;
      this.oracles := oracles;
      this.required := required;
    }

    ghost function RunOf(process: Process, plan: AttackPlan, authorization: Option<Authorization>): Run
      reads executor.gate
    {
      Run(executor.LabFor(process), authorization, oracles, plan, required)
    }

    method EvaluatePlan(plan: AttackPlan, observations: seq<Observation>) returns (results: seq<OracleResult>)
      ensures results == Evaluate(oracles, plan, observations)
    {
      results := [];
      for i := 0 to |plan.oracleIds|
        invariant |results| == i
        invariant forall k :: 0 <= k < i ==> results[k] == EvaluateOne(oracles, plan.oracleIds[k], plan, observations)
      {
        results := results + [EvaluateOne(oracles, plan.oracleIds[i], plan, observations)];
      }
    }

    /** The confirmation loop stops early, yet reports what all the required attempts would show. */
    method RunBound(process: Process, bound: AttackPlan, authorization: Option<Authorization>)
      returns (finding: Finding)
      requires required >= 1 && bound.campaignId.Some?
      modifies process
      ensures FindingRun(finding, process.View()) == RunPlan(RunOf(process, bound, authorization), old(process.View()))
    {
      hide ExecutePlan, Evaluate, BaseVerdict, FailureKeys;
      ghost var run := RunOf(process, bound, authorization);
      ghost var w := process.View();
      var campaign := bound.campaignId.value;
      var missing := Missing(oracles, bound.oracleIds);
      if missing != [] {
        var errors := seq(|missing|, i requires 0 <= i < |missing| => OracleResult(missing[i], Error, None));
        return Finding(campaign, bound.planId, bound.title, Error, 0, 0, errors);
      }
      var outcome := executor.Plan(process, bound, authorization);
      assert WorldAfter(run, w, 0) == w && process.View() == WorldAfter(run, w, 1);
      if outcome.Rejected? {
        return Finding(campaign, bound.planId, bound.title, Error, 0, 0, []);
      }
      var attempts, confirmations := 1, 0;
      var first := EvaluatePlan(bound, outcome.observations);
      var all := first;
      if BaseVerdict(first) != Fail {
        return Finding(campaign, bound.planId, bound.title, BaseVerdict(first), attempts, 0, all);
      }
      var stable := FailureKeys(first);
      if stable != {} {
        confirmations := 1;
      }
      assert AllResults(run, w, 0) == [] && AllResults(run, w, 1) == [] + first == first;
      ghost var done := 1;
      while stable != {} && attempts < required
        invariant 1 <= attempts <= required && done == attempts
        invariant process.View() == WorldAfter(run, w, done)
        invariant all == AllResults(run, w, attempts)
        invariant stable == SharedKeys(run, w, attempts - 1)
        invariant confirmations == if stable != {} then attempts else attempts - 1
        invariant Attempt(run, w, attempts - 1).Ran? && FailsAt(run, w, 0)
        invariant attempts > 1 ==> SharedKeys(run, w, attempts - 2) != {}
        decreases required - attempts
      {
        outcome := executor.Plan(process, bound, authorization);
        done := done + 1;
        if outcome.Rejected? {
          assert SharedKeys(run, w, attempts) == {};
          PrefixEnds(run, w, attempts);
          return Finding(campaign, bound.planId, bound.title, Fail, attempts, confirmations, all);
        }
        attempts := attempts + 1;
        var repeated := EvaluatePlan(bound, outcome.observations);
        all := all + repeated;
        if BaseVerdict(repeated) != Fail {
          stable := {};
          break;
        }
        stable := stable * FailureKeys(repeated);
        if stable != {} {
          confirmations := confirmations + 1;
        }
      }
      if stable != {} && confirmations >= required {
        return Finding(campaign, bound.planId, bound.title, Vulnerable, attempts, confirmations, all);
      }
      if attempts == 1 {
        NoKeyNoPrefix(run, w, required);
      } else {
        PrefixEnds(run, w, attempts - 1);
      }
      return Finding(campaign, bound.planId, bound.title, Fail, attempts, confirmations, all);
    }

    method RunPlanFor(process: Process, plan: AttackPlan, campaign: string, ids: NewIds,
                      authorization: Option<Authorization>)
      returns (finding: Finding)
      requires required >= 1
      modifies process
      ensures FindingRun(finding, process.View())
           == RunPlan(RunOf(process, BindPlan(plan, campaign, ids), authorization), old(process.View()))
    {
      finding := RunBound(process, BindPlan(plan, campaign, ids), authorization);
    }

    /** Plans are run in order until the campaign deadline; `None` where the source raises. */
    method RunCampaign(process: Process, plans: seq<AttackPlan>, campaign: string, ids: nat -> NewIds,
                       authorization: Option<Authorization>)
      returns (findings: Option<seq<Finding>>)
      requires required >= 1
      modifies process
      ensures CampaignRun(findings, process.View())
           == Campaign(executor.LabFor(process), authorization, oracles, required, plans, campaign, ids,
                       old(process.View()))
    {
      hide RunPlan, BindPlan;
      var started := process.Monotonic();
      if |plans| > executor.gate.config.budgets.maxPlans {
        return None;
      }
      var deadline := started + executor.gate.config.budgets.campaignTimeout;
      var done: seq<Finding> := [];
      ghost var lab := executor.LabFor(process);
      ghost var whole := PlansFrom(lab, authorization, oracles, required, plans, 0, campaign, ids, deadline,
                                   process.View());
      assert [] + whole.findings.value == whole.findings.value;
      for i := 0 to |plans|
        invariant whole
          == Before(done,
                    PlansFrom(lab, authorization, oracles, required, plans, i, campaign, ids, deadline, process.View()))
      {
        var now := process.Monotonic();
        if now >= deadline {
          assert done + [] == done;
          return Some(done);
        }
        var finding := RunPlanFor(process, plans[i], campaign, ids(i), authorization);
        ghost var rest :=
          PlansFrom(lab, authorization, oracles, required, plans, i + 1, campaign, ids, deadline, process.View());
        BeforeTwice(done, [finding], rest);
        done := done + [finding];
      }
      assert done + [] == done;
      return Some(done);
    }
  }

  // ----- campaigns -----

  datatype CampaignRun = CampaignRun(findings: Option<seq<Finding>>, world: World)

  function Before(done: seq<Finding>, rest: CampaignRun): CampaignRun {
    if rest.findings.Some? then rest.(findings := Some(done + rest.findings.value)) else rest
  }

  lemma BeforeTwice(a: seq<Finding>, b: seq<Finding>, rest: CampaignRun)
    ensures Before(a, Before(b, rest)) == Before(a + b, rest)
  {
    if rest.findings.Some? {
      assert a + (b + rest.findings.value) == (a + b) + rest.findings.value;
    }
  }

  function PlansFrom(lab: Lab, authorization: Option<Authorization>, oracles: map<string, Evaluator>, required: nat,
                     plans: seq<AttackPlan>, i: nat, campaign: string, ids: nat -> NewIds,
                     deadline: real, w: World): (r: CampaignRun)
    requires i <= |plans|
    ensures r.findings.Some?
    decreases |plans| - i
  {
    if i == |plans| then CampaignRun(Some([]), w)
    else
      var w1 := ReadClock(lab, w);
      if w1.now >= deadline then CampaignRun(Some([]), w1)
      else
        var one := RunPlan(Run(lab, authorization, oracles, BindPlan(plans[i], campaign, ids(i)), required), w1);
        Before([one.finding],
               PlansFrom(lab, authorization, oracles, required, plans, i + 1, campaign, ids, deadline, one.world))
  }

  function Campaign(lab: Lab, authorization: Option<Authorization>, oracles: map<string, Evaluator>, required: nat,
                    plans: seq<AttackPlan>, campaign: string, ids: nat -> NewIds, w: World): CampaignRun
  {
    var w1 := ReadClock(lab, w);
    if |plans| > lab.Budgets().maxPlans then CampaignRun(None, w1)
    else
      PlansFrom(lab, authorization, oracles, required, plans, 0, campaign, ids,
                w1.now + lab.Budgets().campaignTimeout, w1)
  }

  /** `CampaignReport.verdict` */
  function CampaignVerdict(findings: seq<Finding>): Verdict {
    var values := set f | f in findings :: f.verdict;
    if Vulnerable in values then Vulnerable
    else if Error in values then Error
    else if Fail in values then Fail
    else if Inconclusive in values then Inconclusive
    else if Pass in values then Pass
    else Inconclusive
  }

  // ----- prefixes of stable failures -----

  lemma {:induction false} SharedKeysExact(run: Run, w: World, n: nat, key: Key)
    ensures key in SharedKeys(run, w, n) <==> FailsThroughout(run, w, n + 1, key)
  {
    hide FailsAt, ResultsAt, FailureKeys;
    assert FailsThroughout(run, w, n + 1, key) <==> FailsThroughout(run, w, n, key) && FailsWith(run, w, n, key);
    if n > 0 {
      SharedKeysExact(run, w, n - 1, key);
    }
  }

  lemma {:induction false} SharedKeysShrink(run: Run, w: World, m: nat, n: nat)
    requires m <= n
    ensures SharedKeys(run, w, n) <= SharedKeys(run, w, m)
  {
    hide FailsAt, ResultsAt, FailureKeys;
    if m < n {
      SharedKeysShrink(run, w, m, n - 1);
    }
  }

  /** Once no key is shared, the stable prefix has ended for good. */
  lemma {:induction false} PrefixEnds(run: Run, w: World, c: nat)
    requires c >= 1 && SharedKeys(run, w, c - 1) != {} && SharedKeys(run, w, c) == {}
    ensures forall n :: n >= c ==> StablePrefix(run, w, n) == c
  {
    hide SharedKeys;
    forall n | n >= c
      ensures StablePrefix(run, w, n) == c
    {
      PrefixStays(run, w, c, n);
    }
  }

  lemma {:induction false} PrefixStays(run: Run, w: World, c: nat, n: nat)
    requires n >= c
    requires c >= 1 ==> SharedKeys(run, w, c - 1) != {}
    requires n > c ==> SharedKeys(run, w, c) == {}
    ensures StablePrefix(run, w, n) == c
  {
    hide SharedKeys;
    if n > c {
      SharedKeysShrink(run, w, c, n - 1);
      PrefixStays(run, w, c, n - 1);
    }
  }

  lemma NoKeyNoPrefix(run: Run, w: World, n: nat)
    requires n >= 1 ==> SharedKeys(run, w, 0) == {}
    ensures StablePrefix(run, w, n) == 0
  {
    PrefixStays(run, w, 0, n);
  }

  lemma {:induction false} StablePrefixExact(run: Run, w: World, n: nat)
    ensures var c := StablePrefix(run, w, n);
      && c <= n
      && (c > 0 ==> SharedKeys(run, w, c - 1) != {})
      && (c < n ==> SharedKeys(run, w, c) == {})
  {
    hide SharedKeys;
    if n > 0 && SharedKeys(run, w, n - 1) == {} {
      StablePrefixExact(run, w, n - 1);
    }
  }

  lemma SharedIsReproduced(run: Run, w: World, n: nat)
    requires n >= 1
    ensures SharedKeys(run, w, n - 1) != {} <==> Reproduced(run, w, n)
    ensures Reproduced(run, w, n) ==> FailsAt(run, w, 0)
  {
    hide SharedKeys, FailsAt, ResultsAt, FailureKeys;
    if SharedKeys(run, w, n - 1) != {} {
      var key :| key in SharedKeys(run, w, n - 1);
      SharedKeysExact(run, w, n - 1, key);
    }
    if key :| FailsThroughout(run, w, n, key) {
      SharedKeysExact(run, w, n - 1, key);
      assert FailsWith(run, w, 0, key);
    }
  }

  // ----- main results -----

  /** Exact promotion: vulnerable if and only if no oracle is missing and one key would fail in each
      of the required attempts, all with base verdict fail; and then all of them were made and counted. */
  lemma ExactPromotion(run: Run, w: World)
    requires run.required >= 1
    ensures var f := RunPlan(run, w).finding;
      && (f.verdict == Vulnerable <==>
            Missing(run.oracles, run.plan.oracleIds) == [] && Reproduced(run, w, run.required))
      && (f.verdict == Vulnerable ==> f.attempts == f.confirmations == run.required)
  {
    hide ExecutePlan, Evaluate, SharedKeys;
    SharedIsReproduced(run, w, run.required);
    StablePrefixExact(run, w, run.required);
  }

  /** `confirmations` is the length of the longest all-failing attempt prefix with a shared key, and
      `oracle_results` are the results of exactly the counted attempts, in order. */
  lemma ConfirmationsExact(run: Run, w: World)
    requires run.required >= 1
    ensures var f := RunPlan(run, w).finding;
      f.attempts > 0 ==>
        && f.confirmations <= run.required
        && (f.confirmations > 0 ==> Reproduced(run, w, f.confirmations))
        && (forall n :: f.confirmations < n <= run.required ==> !Reproduced(run, w, n))
        && f.results == AllResults(run, w, f.attempts)
  {
    hide ExecutePlan, Evaluate, SharedKeys;
    var f := RunPlan(run, w).finding;
    StablePrefixExact(run, w, run.required);
    assert AllResults(run, w, 0) == [] && AllResults(run, w, 1) == [] + ResultsAt(run, w, 0) == ResultsAt(run, w, 0);
    if f.confirmations > 0 {
      SharedIsReproduced(run, w, f.confirmations);
    }
    if f.attempts > 0 {
      forall n | f.confirmations < n <= run.required
        ensures !Reproduced(run, w, n)
      {
        SharedIsReproduced(run, w, n);
        SharedKeysShrink(run, w, f.confirmations, n - 1);
      }
    }
  }

  /** A failure that is not promoted ran at most one attempt beyond its confirmations, and none
      exactly when the gate refused the next attempt. */
  lemma AttemptGap(run: Run, w: World)
    requires run.required >= 1 && RunPlan(run, w).finding.verdict == Fail
    ensures var f := RunPlan(run, w).finding;
      && f.attempts - f.confirmations in {0, 1}
      && 1 <= f.attempts <= run.required
      && (f.attempts == f.confirmations <==> f.confirmations >= 1 && Attempt(run, w, f.confirmations).Rejected?)
  {
    hide ExecutePlan, Evaluate, SharedKeys;
    StablePrefixExact(run, w, run.required);
  }

  /** Attempts never exceed the threshold, and zero attempts means an error finding. */
  lemma AttemptsBounded(run: Run, w: World)
    requires run.required >= 1
    ensures var f := RunPlan(run, w).finding;
      && f.attempts <= run.required
      && (f.attempts == 0 <==> Missing(run.oracles, run.plan.oracleIds) != [] || Attempt(run, w, 0).Rejected?)
      && (f.attempts == 0 ==> f.verdict == Error)
  {
    hide ExecutePlan, Evaluate, SharedKeys;
    StablePrefixExact(run, w, run.required);
  }

  /** With unchanging tokens and an adapter for every reachable step, a finding with zero attempts
      caused no adapter call. */
  lemma NoAttemptNoEffect(run: Run, w: World)
    requires run.required >= 1
    requires FixedTokens(run.lab.env) && Served(run.lab, run.plan)
    requires RunPlan(run, w).finding.attempts == 0
    ensures RunPlan(run, w).world.calls == w.calls
  {
    hide PlanAccepted, ExecuteSteps, SharedKeys, BaseVerdict, Evaluate;
    AttemptsBounded(run, w);
    if Missing(run.oracles, run.plan.oracleIds) == [] {
      assert WorldAfter(run, w, 0) == w;
      if PlanAccepted(run.lab.gate, run.lab.env.tokens(w.tokenReads), run.plan, run.authorization) {
        AcceptedNeverRejected(run.lab, run.authorization, run.plan, w);
      } else {
        RefusedHasNoEffect(run.lab, run.authorization, run.plan, w);
      }
    }
  }

  function InEnv(run: Run, env: Env): Run {
    run.(lab := Within(run.lab, env))
  }

  /** A finding has zero attempts exactly when its first execution was rejected, and then that was all. */
  lemma ZeroAttempts(run: Run, w: World)
    requires run.required >= 1 && Missing(run.oracles, run.plan.oracleIds) == []
    ensures var r, first := RunPlan(run, w), ExecutePlan(run.lab, run.authorization, run.plan, w);
      && (r.finding.attempts == 0 <==> first.outcome.Rejected?)
      && (first.outcome.Rejected? ==> r.finding.verdict == Error && r.world == first.world)
  {
    hide ExecutePlan, Evaluate, SharedKeys;
    AttemptsBounded(run, w);
    assert WorldAfter(run, w, 0) == w;
  }

  /** Zero attempts can only mean zero adapter calls: an oracle is missing, or the gate refuses the plan, or
      nothing can reject it part way, or its very first step is rejected. */
  predicate EffectFree(run: Run, w: World) {
    || Missing(run.oracles, run.plan.oracleIds) != []
    || !PlanAccepted(run.lab.gate, run.lab.env.tokens(w.tokenReads), run.plan, run.authorization)
    || PlanPassable(run.lab, run.authorization, run.plan, w)
    || FirstStepBlocked(run, w)
  }

  predicate FirstStepBlocked(run: Run, w: World) {
    && run.plan.steps != []
    && !Passable(run.lab, run.authorization, run.plan.steps, 0, w.tokenReads + 1, run.lab.Budgets().maxRequests)
  }

  lemma EffectFreeFinding(run: Run, w: World)
    requires run.required >= 1 && EffectFree(run, w) && RunPlan(run, w).finding.attempts == 0
    ensures RunPlan(run, w).world.calls == w.calls
  {
    hide PlanAccepted, ExecutePlan, PlanPassable, Passable, SharedKeys, BaseVerdict, Evaluate;
    if Missing(run.oracles, run.plan.oracleIds) == [] {
      ZeroAttempts(run, w);
      if !PlanAccepted(run.lab.gate, run.lab.env.tokens(w.tokenReads), run.plan, run.authorization) {
        RefusedHasNoEffect(run.lab, run.authorization, run.plan, w);
      } else if PlanPassable(run.lab, run.authorization, run.plan, w) {
        PassablePlanRuns(run.lab, run.authorization, run.plan, w);
      } else {
        BlockedAtOnce(run.lab, run.authorization, run.plan, w);
      }
    }
  }

  lemma EffectFreeInAnyTiming(run: Run, w: World, env: Env)
    requires env.tokens == run.lab.env.tokens
    ensures EffectFree(run, w) <==> EffectFree(InEnv(run, env), w)
  {
    hide PlanAccepted, PlanPassable, StepAccepted, AuthorizationValid;
    PassableIgnoresTiming(run.lab, run.authorization, run.plan, w, env);
  }

  /** A finding with zero attempts has no side effect, whatever the replies and the timing, exactly when
      that condition on plan, registry and tokens holds. */
  lemma EffectFreeExactly(run: Run, w: World)
    requires run.required >= 1 && run.lab.Budgets().planTimeout > 0.0
    ensures EffectFree(run, w) <==>
      forall env: Env :: env.tokens == run.lab.env.tokens && RunPlan(InEnv(run, env), w).finding.attempts == 0 ==>
        RunPlan(InEnv(run, env), w).world.calls == w.calls
  {
    hide PlanAccepted, ExecutePlan, PlanPassable, Passable, RunPlan;
    if EffectFree(run, w) {
      forall env: Env | env.tokens == run.lab.env.tokens && RunPlan(InEnv(run, env), w).finding.attempts == 0
        ensures RunPlan(InEnv(run, env), w).world.calls == w.calls
      {
        EffectFreeInAnyTiming(run, w, env);
        EffectFreeFinding(InEnv(run, env), w);
      }
    } else {
      var instant := InEnv(run, Instant(run.lab.env));
      EffectFreeInAnyTiming(run, w, instant.lab.env);
      var k := BlockedPlanRejects(instant.lab, run.authorization, run.plan, w);
      ZeroAttempts(instant, w);
      assert k > 0 && RunPlan(InEnv(run, instant.lab.env), w).world.calls != w.calls;
    }
  }

  /** Tokens that vanish after validation: the first step is called, the second one, on a remote host, is
      refused, and the finding shows zero attempts. */
  lemma RevokedTokenHidesEffect(run: Run, w: World)
    requires run.required >= 1 && Missing(run.oracles, run.plan.oracleIds) == []
    requires run.lab.Budgets().planTimeout > 0.0 && run.lab.Budgets().maxRequests >= 1
    requires PlanAccepted(run.lab.gate, run.lab.env.tokens(w.tokenReads), run.plan, run.authorization)
    requires |run.plan.steps| >= 2 && run.plan.steps[0].tool in run.lab.registry
    requires TokenFree(run.lab.gate, run.plan.steps[0]) && !TokenFree(run.lab.gate, run.plan.steps[1])
    ensures var r := RunPlan(InEnv(run, Revoking(run.lab.env, w.tokenReads)), w);
      && r.finding.attempts == 0 && r.finding.verdict == Error
      && |r.world.calls| == |w.calls| + 1
  {
    hide StepAccepted, AuthorizationValid, PlanRequiresAuthorization, TokenFree, ExecutePlan, RunPlan;
    var revoked := InEnv(run, Revoking(run.lab.env, w.tokenReads));
    var steps, at, left := run.plan.steps, w.tokenReads + 1, run.lab.Budgets().maxRequests;
    assert Passable(revoked.lab, run.authorization, steps, 0, at, left) by {
      TokenFreeStaysAccepted(run.lab.gate, steps[0], run.lab.env.tokens(w.tokenReads), Tokens(None, None));
      NotLabelled(run.lab.gate, steps[0]);
      assert steps[..0] == [];
    }
    assert !Passable(revoked.lab, run.authorization, steps, 1, at, left) by {
      if Passable(revoked.lab, run.authorization, steps, 1, at, left) {
        ClearedWithoutTokens(revoked.lab, run.authorization, steps, 1, at);
      }
    }
    hide Passable;
    var k := BlockedPlanRejects(revoked.lab, run.authorization, run.plan, w);
    assert k == 1;
    ZeroAttempts(revoked, w);
  }

  lemma NotLabelled(gate: Gate, step: AttackStep)
    requires TokenFree(gate, step)
    ensures !step.destructive
  {
  }

  // ----- the same over the fields of the results -----

  /** One result per requested oracle, in order: the oracle's own answer if it gives one under its own name,
      and an error without evidence otherwise. */
  lemma EvaluateExact(oracles: map<string, Evaluator>, plan: AttackPlan, observations: seq<Observation>)
    ensures var results := Evaluate(oracles, plan, observations);
      && |results| == |plan.oracleIds|
      && forall i :: 0 <= i < |results| ==>
           && results[i].oracleId == plan.oracleIds[i]
           && (if AnswersAs(oracles, plan.oracleIds[i], plan, observations, results[i]) then true
               else results[i].verdict == Error && results[i].fingerprint.None?
                    && forall r :: !AnswersAs(oracles, plan.oracleIds[i], plan, observations, r))
  {
  }

  predicate AnswersAs(oracles: map<string, Evaluator>, id: string, plan: AttackPlan, observations: seq<Observation>,
                      r: OracleResult)
  {
    id in oracles && oracles[id](plan, observations) == Some(r) && r.oracleId == id
  }

  predicate Blames(r: OracleResult, id: string, fingerprint: Fingerprint) {
    && r.oracleId == id && (r.verdict == Fail || r.verdict == Vulnerable)
    && r.fingerprint == Some(fingerprint) && fingerprint != EmptyText
  }

  /** The attempt ran, was judged without an open or erroneous result, and blames this piece of evidence. */
  predicate AttemptBlames(run: Run, w: World, k: nat, id: string, fingerprint: Fingerprint) {
    && Attempt(run, w, k).Ran?
    && (forall i :: 0 <= i < |ResultsAt(run, w, k)| ==>
          ResultsAt(run, w, k)[i].verdict != Error && ResultsAt(run, w, k)[i].verdict != Inconclusive)
    && exists i :: 0 <= i < |ResultsAt(run, w, k)| && Blames(ResultsAt(run, w, k)[i], id, fingerprint)
  }

  predicate BlamedThroughout(run: Run, w: World, n: nat, id: string, fingerprint: Fingerprint) {
    forall k :: 0 <= k < n ==> AttemptBlames(run, w, k, id, fingerprint)
  }

  /** One oracle blames one piece of evidence in each of the first `n` attempts. */
  ghost predicate Blamed(run: Run, w: World, n: nat) {
    exists id, fingerprint :: BlamedThroughout(run, w, n, id, fingerprint)
  }

  /** The verdict of an attempt, by which verdicts occur in it. */
  lemma BaseVerdictExact(results: seq<OracleResult>)
    ensures var v := BaseVerdict(results);
      && (v == Error <==> HasVerdict(results, Error))
      && (v == Inconclusive <==> !HasVerdict(results, Error) && (HasVerdict(results, Inconclusive) || results == []))
      && (v == Fail <==> !HasVerdict(results, Error) && !HasVerdict(results, Inconclusive)
                         && (HasVerdict(results, Fail) || HasVerdict(results, Vulnerable)))
      && (v == Pass <==> results != [] && forall i :: 0 <= i < |results| ==> results[i].verdict == Pass)
      && v != Vulnerable
  {
    var verdicts := set r | r in results :: r.verdict;
    forall v: Verdict ensures v in verdicts <==> HasVerdict(results, v) {
      if v in verdicts {
        var r :| r in results && r.verdict == v;
        var i :| 0 <= i < |results| && results[i] == r;
        assert results[i].verdict == v;
      }
      if HasVerdict(results, v) {
        var i :| 0 <= i < |results| && results[i].verdict == v;
        assert results[i] in results;
      }
    }
    if results != [] {
      assert HasVerdict(results, results[0].verdict);
      if verdicts == {Pass} {
        forall i | 0 <= i < |results| ensures results[i].verdict == Pass {
          assert HasVerdict(results, results[i].verdict);
        }
      }
      if forall i :: 0 <= i < |results| ==> results[i].verdict == Pass {
        assert forall v :: v in verdicts ==> v == Pass;
        assert Pass in verdicts;
        assert verdicts == {Pass};
      }
    }
  }

  predicate HasVerdict(results: seq<OracleResult>, v: Verdict) {
    exists i :: 0 <= i < |results| && results[i].verdict == v
  }

  lemma FailureKeysExact(results: seq<OracleResult>, id: string, fingerprint: Fingerprint)
    ensures (id, fingerprint) in FailureKeys(results) <==>
      exists i :: 0 <= i < |results| && Blames(results[i], id, fingerprint)
  {
    if (id, fingerprint) in FailureKeys(results) {
      var r :| r in results && Blames(r, id, fingerprint);
      var i :| 0 <= i < |results| && results[i] == r;
      assert Blames(results[i], id, fingerprint);
    }
    if i :| 0 <= i < |results| && Blames(results[i], id, fingerprint) {
      assert results[i] in results;
    }
  }

  lemma FailsWithBlames(run: Run, w: World, k: nat, id: string, fingerprint: Fingerprint)
    ensures FailsWith(run, w, k, (id, fingerprint)) <==> AttemptBlames(run, w, k, id, fingerprint)
  {
    hide Attempt, FailureKeys, BaseVerdict, ResultsAt, Blames;
    var results := ResultsAt(run, w, k);
    FailureKeysExact(results, id, fingerprint);
    BaseVerdictExact(results);
    if i :| 0 <= i < |results| && Blames(results[i], id, fingerprint) {
      BlameIsFailure(results, i, id, fingerprint);
    }
  }

  lemma BlameIsFailure(results: seq<OracleResult>, i: nat, id: string, fingerprint: Fingerprint)
    requires i < |results| && Blames(results[i], id, fingerprint)
    ensures HasVerdict(results, Fail) || HasVerdict(results, Vulnerable)
  {
  }

  lemma ReproducedIsBlamed(run: Run, w: World, n: nat)
    ensures Reproduced(run, w, n) <==> Blamed(run, w, n)
  {
    hide FailsWith, AttemptBlames;
    if key :| FailsThroughout(run, w, n, key) {
      forall k | 0 <= k < n ensures AttemptBlames(run, w, k, key.0, key.1) {
        assert FailsWith(run, w, k, key);
        FailsWithBlames(run, w, k, key.0, key.1);
      }
      assert BlamedThroughout(run, w, n, key.0, key.1);
    }
    if id, fingerprint :| BlamedThroughout(run, w, n, id, fingerprint) {
      forall k | 0 <= k < n ensures FailsWith(run, w, k, (id, fingerprint)) {
        assert AttemptBlames(run, w, k, id, fingerprint);
        FailsWithBlames(run, w, k, id, fingerprint);
      }
      assert FailsThroughout(run, w, n, (id, fingerprint));
    }
  }

  /** Exact promotion over the results: vulnerable if and only if every requested oracle exists and one of them
      blames one piece of evidence in each of the required attempts, none of which has an open or erroneous
      result; then all attempts were made and counted. */
  lemma PromotionExact(run: Run, w: World)
    requires run.required >= 1
    ensures var f := RunPlan(run, w).finding;
      && (f.verdict == Vulnerable <==>
            (forall i :: 0 <= i < |run.plan.oracleIds| ==> run.plan.oracleIds[i] in run.oracles)
            && Blamed(run, w, run.required))
      && (f.verdict == Vulnerable ==> f.attempts == f.confirmations == run.required)
  {
    hide RunPlan, Reproduced, Blamed;
    ExactPromotion(run, w);
    ReproducedIsBlamed(run, w, run.required);
    MissingExact(run.oracles, run.plan.oracleIds);
  }

  lemma {:induction false} MissingExact(oracles: map<string, Evaluator>, ids: seq<string>)
    ensures Missing(oracles, ids) == [] <==> forall i :: 0 <= i < |ids| ==> ids[i] in oracles
    ensures forall id :: id in Missing(oracles, ids) <==> id in ids && id !in oracles
  {
    if ids != [] {
      MissingExact(oracles, ids[1..]);
      assert ids == [ids[0]] + ids[1..];
    }
  }

  /** Confirmations over the results: the greatest number of first attempts, up to the threshold, in each of
      which one oracle blames one piece of evidence. */
  lemma ConfirmedExactly(run: Run, w: World)
    requires run.required >= 1 && RunPlan(run, w).finding.attempts > 0
    ensures var c := RunPlan(run, w).finding.confirmations;
      && c <= run.required
      && (c > 0 ==> Blamed(run, w, c))
      && forall n :: c < n <= run.required ==> !Blamed(run, w, n)
  {
    hide RunPlan, Reproduced, Blamed;
    ConfirmationsExact(run, w);
    forall n: nat ensures Reproduced(run, w, n) <==> Blamed(run, w, n) {
      ReproducedIsBlamed(run, w, n);
    }
  }

  /** What a finding reports when the first attempt ran: its verdict by the results of that attempt, unless
      it is promoted. */
  lemma VerdictExact(run: Run, w: World)
    requires run.required >= 1 && Missing(run.oracles, run.plan.oracleIds) == [] && Attempt(run, w, 0).Ran?
    ensures var v, results := RunPlan(run, w).finding.verdict, ResultsAt(run, w, 0);
      && (v == Error <==> HasVerdict(results, Error))
      && (v == Inconclusive <==> !HasVerdict(results, Error) && (HasVerdict(results, Inconclusive) || results == []))
      && (v == Pass <==> results != [] && forall i :: 0 <= i < |results| ==> results[i].verdict == Pass)
  {
    hide Attempt, ResultsAt, BaseVerdict, StablePrefix, AllResults, WorldAfter, HasVerdict;
    BaseVerdictExact(ResultsAt(run, w, 0));
  }

  /** The results of a finding are those of its attempts: those of attempt `k` come right after the
      `k * |oracle_ids|` results of the attempts before it. */
  lemma {:induction false} AllResultsExact(run: Run, w: World, n: nat, k: nat)
    requires k < n && forall j :: 0 <= j < n ==> Attempt(run, w, j).Ran?
    ensures AllResults(run, w, k) + ResultsAt(run, w, k) <= AllResults(run, w, n)
    ensures |AllResults(run, w, k)| == k * |run.plan.oracleIds|
    ensures |AllResults(run, w, n)| == n * |run.plan.oracleIds|
  {
    hide Attempt, ResultsAt;
    AllResultsSize(run, w, k);
    AllResultsSize(run, w, n);
    if k < n - 1 {
      AllResultsExact(run, w, n - 1, k);
    }
  }

  lemma {:induction false} AllResultsSize(run: Run, w: World, n: nat)
    requires forall j :: 0 <= j < n ==> Attempt(run, w, j).Ran?
    ensures |AllResults(run, w, n)| == n * |run.plan.oracleIds|
  {
    hide Attempt, ExecutePlan, WorldAfter;
    if n > 0 {
      AllResultsSize(run, w, n - 1);
      assert Attempt(run, w, n - 1).Ran?;
      EvaluateExact(run.oracles, run.plan, Attempt(run, w, n - 1).observations);
      assert (n - 1) * |run.plan.oracleIds| + |run.plan.oracleIds| == n * |run.plan.oracleIds|;
    }
  }

  // ----- what a campaign reports -----

  /** Rebinding replaces the plan, campaign and step identifiers, records the proposed plan identifier unless
      one is recorded already, and changes nothing else. */
  lemma BindPlanExact(plan: AttackPlan, campaign: string, ids: NewIds, key: string)
    ensures var bound := BindPlan(plan, campaign, ids);
      && bound.planId == ids.plan && bound.campaignId == Some(campaign)
      && bound.title == plan.title && bound.hypothesis == plan.hypothesis && bound.risk == plan.risk
      && bound.oracleIds == plan.oracleIds && |bound.steps| == |plan.steps|
      && (forall i :: 0 <= i < |plan.steps| ==> bound.steps[i] == plan.steps[i].(stepId := ids.step(i)))
      && Get(bound.metadata, key) ==
           if key == "proposed_plan_id" && Get(plan.metadata, key).None? then Some(Str(plan.planId))
           else Get(plan.metadata, key)
  {
    GetPut(plan.metadata, "proposed_plan_id", Str(plan.planId), key);
  }

  lemma FindingNames(run: Run, w: World)
    ensures var f := RunPlan(run, w).finding;
      && f.planId == run.plan.planId && f.title == run.plan.title
      && (run.plan.campaignId.Some? ==> f.campaignId == run.plan.campaignId.value)
  {
    hide Attempt, ResultsAt, BaseVerdict, StablePrefix, AllResults, WorldAfter;
  }

  /** Findings come in the order of the plans, each under its own fresh plan identifier and its plan's title;
      a plan has none only if the deadline has come. */
  ghost predicate OnPlans(f: seq<Finding>, plans: seq<AttackPlan>, i: nat, campaign: string, ids: nat -> NewIds) {
    && i + |f| <= |plans|
    && forall k :: 0 <= k < |f| ==>
         f[k].planId == ids(i + k).plan && f[k].title == plans[i + k].title && f[k].campaignId == campaign
  }

  lemma {:induction false} FindingsInOrder(
      lab: Lab, authorization: Option<Authorization>, oracles: map<string, Evaluator>, required: nat,
      plans: seq<AttackPlan>, i: nat, campaign: string, ids: nat -> NewIds, deadline: real, w: World)
    requires i <= |plans|
    ensures var r := PlansFrom(lab, authorization, oracles, required, plans, i, campaign, ids, deadline, w);
      var f := r.findings.value;
      && OnPlans(f, plans, i, campaign, ids)
      && (i + |f| < |plans| ==> r.world.now >= deadline)
    decreases |plans| - i
  {
    hide RunPlan, BindPlan;
    if i < |plans| {
      var w1 := ReadClock(lab, w);
      if w1.now < deadline {
        var bound := BindPlan(plans[i], campaign, ids(i));
        var run := Run(lab, authorization, oracles, bound, required);
        BindPlanExact(plans[i], campaign, ids(i), "");
        FindingNames(run, w1);
        var later := RunPlan(run, w1).world;
        FindingsInOrder(lab, authorization, oracles, required, plans, i + 1, campaign, ids, deadline, later);
      }
    }
  }

  /** A campaign is refused exactly when it has too many plans; otherwise it reports on its plans in order, and
      on all of them unless its time is up. */
  lemma CampaignExact(lab: Lab, authorization: Option<Authorization>, oracles: map<string, Evaluator>, required: nat,
                      plans: seq<AttackPlan>, campaign: string, ids: nat -> NewIds, w: World)
    ensures var r := Campaign(lab, authorization, oracles, required, plans, campaign, ids, w);
      && (r.findings.None? <==> |plans| > lab.Budgets().maxPlans)
      && (r.findings.Some? ==>
            var f := r.findings.value;
            && OnPlans(f, plans, 0, campaign, ids)
            && (|f| < |plans| ==> r.world.now >= w.now + lab.env.drift(w.clockReads) + lab.Budgets().campaignTimeout))
  {
    hide PlansFrom, OnPlans;
    if |plans| <= lab.Budgets().maxPlans {
      var w1 := ReadClock(lab, w);
      FindingsInOrder(lab, authorization, oracles, required, plans, 0, campaign, ids,
                      w1.now + lab.Budgets().campaignTimeout, w1);
    }
  }

  /** The report of a campaign is the worst of its findings, in this order. */
  lemma CampaignVerdictExact(findings: seq<Finding>)
    ensures var v := CampaignVerdict(findings);
      && (v == Vulnerable <==> Reports(findings, Vulnerable))
      && (v == Error <==> Reports(findings, Error) && !Reports(findings, Vulnerable))
      && (v == Fail <==> Reports(findings, Fail) && !Reports(findings, Vulnerable) && !Reports(findings, Error))
      && (v == Pass <==> findings != [] && forall i :: 0 <= i < |findings| ==> findings[i].verdict == Pass)
  {
    var values := set f | f in findings :: f.verdict;
    forall v: Verdict ensures v in values <==> Reports(findings, v) {
      if v in values {
        var f :| f in findings && f.verdict == v;
        var i :| 0 <= i < |findings| && findings[i] == f;
        assert findings[i].verdict == v;
      }
      if Reports(findings, v) {
        var i :| 0 <= i < |findings| && findings[i].verdict == v;
        assert findings[i] in findings;
      }
    }
    if findings != [] {
      assert Reports(findings, findings[0].verdict);
    }
    if CampaignVerdict(findings) == Pass {
      forall i | 0 <= i < |findings| ensures findings[i].verdict == Pass {
        assert Reports(findings, findings[i].verdict);
      }
    }
  }

  predicate Reports(findings: seq<Finding>, v: Verdict) {
    exists i :: 0 <= i < |findings| && findings[i].verdict == v
  }

  // ----- time and requests over findings and campaigns -----

  predicate SoundLab(lab: Lab, steps: seq<AttackStep>) {
    ValidBudgets(lab.Budgets()) && PositiveTimeouts(steps)
  }

  /** `k` attempts make at most `k * min(|steps|, max_requests)` calls and, if calls are punctual and
      nothing else takes time, last at most `k` plan timeouts. */
  lemma {:induction false} AttemptsInBudget(run: Run, w: World, k: nat)
    requires SoundLab(run.lab, run.plan.steps)
    ensures var v := WorldAfter(run, w, k);
      && w.calls <= v.calls && w.now <= v.now && w.clockReads <= v.clockReads
      && |v.calls| - |w.calls| <= k * Min(|run.plan.steps|, run.lab.Budgets().maxRequests)
      && (Punctual(v, |w.calls|) && Idle(run.lab.env, v.clockReads) ==>
            v.now <= w.now + (k as real) * run.lab.Budgets().planTimeout)
  {
    hide ExecutePlan;
    if k > 0 {
      AttemptsInBudget(run, w, k - 1);
      var u := WorldAfter(run, w, k - 1);
      var v := WorldAfter(run, w, k);
      PlanBounded(run.lab, run.authorization, run.plan, u);
      if Punctual(v, |w.calls|) && Idle(run.lab.env, v.clockReads) {
        assert forall i :: |w.calls| <= i < |u.calls| ==> v.calls[i] == u.calls[i];
        assert ((k - 1) as real) * run.lab.Budgets().planTimeout + run.lab.Budgets().planTimeout
            == (k as real) * run.lab.Budgets().planTimeout;
      }
      assert (k - 1) * Min(|run.plan.steps|, run.lab.Budgets().maxRequests)
        + Min(|run.plan.steps|, run.lab.Budgets().maxRequests)
          == k * Min(|run.plan.steps|, run.lab.Budgets().maxRequests);
    }
  }

  /** A finding comes from at most `required` executions. */
  lemma FindingInBudget(run: Run, w: World) returns (k: nat)
    requires run.required >= 1 && SoundLab(run.lab, run.plan.steps)
    ensures k <= run.required && RunPlan(run, w).world == WorldAfter(run, w, k)
  {
    hide ExecutePlan, Evaluate, SharedKeys;
    StablePrefixExact(run, w, run.required);
    var c := StablePrefix(run, w, run.required);
    k := if Missing(run.oracles, run.plan.oracleIds) != [] then 0
         else if !FailsAt(run, w, 0) then 1
         else if c == run.required then c
         else c + 1;
  }

  lemma RealMonotone(a: nat, b: nat, t: real)
    requires a <= b && t >= 0.0
    ensures (a as real) * t <= (b as real) * t
  {
  }

  lemma PlanRunInTime(run: Run, w: World)
    requires run.required >= 1 && SoundLab(run.lab, run.plan.steps)
    ensures var v := RunPlan(run, w).world;
      && w.calls <= v.calls && w.now <= v.now && w.clockReads <= v.clockReads
      && (Punctual(v, |w.calls|) && Idle(run.lab.env, v.clockReads) ==>
            v.now <= w.now + (run.required as real) * run.lab.Budgets().planTimeout)
  {
    hide RunPlan, WorldAfter;
    var k := FindingInBudget(run, w);
    AttemptsInBudget(run, w, k);
    RealMonotone(k, run.required, run.lab.Budgets().planTimeout);
  }

  /** What one more plan leaves to the rest of the campaign. */
  lemma PunctualPrefix(u: World, v: World, from: nat)
    requires from <= |u.calls| && u.calls <= v.calls && u.clockReads <= v.clockReads
    requires Punctual(v, from)
    ensures Punctual(u, from) && Punctual(v, |u.calls|)
  {
    assert forall j :: from <= j < |u.calls| ==> u.calls[j] == v.calls[j];
  }

  lemma PositiveProduct(n: nat, t: real)
    requires n >= 1 && t > 0.0
    ensures (n as real) * t > 0.0
  {
    RealMonotone(1, n, t);
  }

  /** A campaign stops before its deadline plus the time of one confirmed finding. */
  lemma {:induction false} PlansEndInTime(
      lab: Lab, authorization: Option<Authorization>, oracles: map<string, Evaluator>, required: nat,
      plans: seq<AttackPlan>, i: nat, campaign: string, ids: nat -> NewIds, deadline: real, w: World)
    requires i <= |plans| && required >= 1 && ValidBudgets(lab.Budgets())
    requires forall p :: p in plans ==> PositiveTimeouts(p.steps)
    ensures var r := PlansFrom(lab, authorization, oracles, required, plans, i, campaign, ids, deadline, w);
      && w.calls <= r.world.calls && w.clockReads <= r.world.clockReads
      && (Punctual(r.world, |w.calls|) && Idle(lab.env, r.world.clockReads) ==>
            r.world.now <= w.now || r.world.now < deadline + (required as real) * lab.Budgets().planTimeout)
    decreases |plans| - i
  {
    hide RunPlan, ExecutePlan, Punctual, BindPlan;
    if i < |plans| {
      var w1 := ReadClock(lab, w);
      if w1.now < deadline {
        var run := Run(lab, authorization, oracles, BindPlan(plans[i], campaign, ids(i)), required);
        BoundTimeouts(plans[i], campaign, ids(i));
        var one := RunPlan(run, w1);
        PlanRunInTime(run, w1);
        PlansEndInTime(lab, authorization, oracles, required, plans, i + 1, campaign, ids, deadline, one.world);
        var r := PlansFrom(lab, authorization, oracles, required, plans, i, campaign, ids, deadline, w);
        if Punctual(r.world, |w.calls|) && Idle(lab.env, r.world.clockReads) {
          PunctualPrefix(one.world, r.world, |w.calls|);
        }
      }
    }
  }

  lemma BoundTimeouts(plan: AttackPlan, campaign: string, ids: NewIds)
    requires PositiveTimeouts(plan.steps)
    ensures PositiveTimeouts(BindPlan(plan, campaign, ids).steps)
  {
    var bound := BindPlan(plan, campaign, ids);
    assert forall i :: 0 <= i < |bound.steps| ==> bound.steps[i].timeout == plan.steps[i].timeout;
  }

  lemma CampaignEndsInTime(
      lab: Lab, authorization: Option<Authorization>, oracles: map<string, Evaluator>, required: nat,
      plans: seq<AttackPlan>, campaign: string, ids: nat -> NewIds, w: World)
    requires required >= 1 && ValidBudgets(lab.Budgets())
    requires forall p :: p in plans ==> PositiveTimeouts(p.steps)
    requires var r := Campaign(lab, authorization, oracles, required, plans, campaign, ids, w);
      Punctual(r.world, |w.calls|) && Idle(lab.env, r.world.clockReads)
    ensures Campaign(lab, authorization, oracles, required, plans, campaign, ids, w).world.now
          < w.now + lab.Budgets().campaignTimeout + (required as real) * lab.Budgets().planTimeout
  {
    hide PlansFrom;
    var w1 := ReadClock(lab, w);
    PositiveProduct(required, lab.Budgets().planTimeout);
    if |plans| <= lab.Budgets().maxPlans {
      PlansEndInTime(lab, authorization, oracles, required, plans, 0, campaign, ids,
                     w1.now + lab.Budgets().campaignTimeout, w1);
      assert lab.env.drift(w.clockReads) == 0.0;
    }
  }
}
