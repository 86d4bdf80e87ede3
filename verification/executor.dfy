/** Budgeted execution of gated plans against an arbitrary environment. */
module Executor {
  import opened JsonValues
  import opened Models
  import opened Targets
  import opened Safety
  import opened Tools

  type Duration = r: real | r >= 0.0

  /** The adversary: what the n-th adapter call returns and how long it takes, how much time other
      code spends before the n-th clock reading, and what the n-th look at the tokens shows. */
  datatype Env = Env(
    reply: nat -> Raw,
    elapsed: nat -> Duration,
    drift: nat -> Duration,
    tokens: nat -> Tokens)

  datatype Call = Call(step: AttackStep, start: real, timeout: Double, elapsed: real)

  datatype World = World(now: real, clockReads: nat, tokenReads: nat, calls: seq<Call>)

  datatype Session = Session(deadline: real, requestsUsed: nat)

  /** Everything an execution uses but does not change. */
  datatype Lab = Lab(gate: Gate, registry: map<string, Adapter>, env: Env) {
    function Budgets(): Budgets { gate.config.budgets }
  }

  datatype StepOutcome = Observed(observation: Observation) | BudgetExceeded(message: string) | StepViolation

  datatype PlanOutcome = Ran(observations: seq<Observation>) | Rejected

  datatype StepRun = StepRun(outcome: StepOutcome, session: Session, world: World)

  datatype StepsRun = StepsRun(outcome: PlanOutcome, session: Session, world: World)

  datatype PlanRun = PlanRun(outcome: PlanOutcome, world: World)

  // ----- specification -----

  /** `time.monotonic()` */
  function ReadClock(lab: Lab, w: World): World {
    w.(now := w.now + lab.env.drift(w.clockReads), clockReads := w.clockReads + 1)
  }

  function ReadTokens(w: World): World {
    w.(tokenReads := w.tokenReads + 1)
  }

  /** `min(requested, budget, remaining)` */
  function TimeoutFor(step: AttackStep, budgets: Budgets, remaining: real): Double {
    Least(Least(RequestedTimeout(step, budgets), Finite(budgets.stepTimeout)), Finite(remaining))
  }

  /** The adapter call of a step that passed every check, `remaining` seconds before the deadline. */
  function CallAdapter(lab: Lab, step: AttackStep, s: Session, w: World): StepRun
    requires step.tool in lab.registry
  {
    var n := |w.calls|;
    var timeout := TimeoutFor(step, lab.Budgets(), s.deadline - w.now);
    StepRun(
      Observed(lab.registry[step.tool](step, lab.env.reply(n))),
      s.(requestsUsed := s.requestsUsed + 1),
      w.(now := w.now + lab.env.elapsed(n), calls := w.calls + [Call(step, w.now, timeout, lab.env.elapsed(n))]))
  }

  function ExecuteStep(lab: Lab, authorization: Option<Authorization>, step: AttackStep, s: Session,
                       w: World): StepRun {
    var w1 := ReadTokens(w);
    var w2 := if step.destructive then ReadTokens(w1) else w1;
    if !StepAccepted(lab.gate, lab.env.tokens(w.tokenReads), step) then StepRun(StepViolation, s, w1)
    else if step.destructive && !AuthorizationValid(lab.gate, lab.env.tokens(w1.tokenReads), authorization) then
      StepRun(StepViolation, s, w2)
    else if s.requestsUsed >= lab.Budgets().maxRequests then StepRun(BudgetExceeded("request budget exhausted"), s, w2)
    else
      var w3 := ReadClock(lab, w2);
      if s.deadline - w3.now <= 0.0 then StepRun(BudgetExceeded("plan deadline exceeded"), s, w3)
      else if step.tool !in lab.registry then StepRun(StepViolation, s, w3)
      else CallAdapter(lab, step, s, w3)
  }

  function CutShort(step: AttackStep, message: string): Observation {
    Observation(step.stepId, step.tool, step.target, false, None, Some(message), None, [])
  }

  function Prepend(observations: seq<Observation>, r: StepsRun): StepsRun {
    if r.outcome.Ran? then r.(outcome := Ran(observations + r.outcome.observations)) else r
  }

  function ExecuteSteps(lab: Lab, authorization: Option<Authorization>, steps: seq<AttackStep>, s: Session,
                        w: World): StepsRun
    decreases |steps|
  {
    if steps == [] then StepsRun(Ran([]), s, w)
    else
      var first := ExecuteStep(lab, authorization, steps[0], s, w);
      match first.outcome
      case StepViolation => StepsRun(Rejected, first.session, first.world)
      case BudgetExceeded(message) => StepsRun(Ran([CutShort(steps[0], message)]), first.session, first.world)
      case Observed(o) => Prepend([o], ExecuteSteps(lab, authorization, steps[1..], first.session, first.world))
  }

  function NewSession(lab: Lab, w: World): Session {
    Session(ReadClock(lab, w).now + lab.Budgets().planTimeout, 0)
  }

  function ExecutePlan(lab: Lab, authorization: Option<Authorization>, plan: AttackPlan, w: World): PlanRun {
    var w1 := ReadTokens(w);
    if !PlanAccepted(lab.gate, lab.env.tokens(w.tokenReads), plan, authorization) then PlanRun(Rejected, w1)
    else
      var r := ExecuteSteps(lab, authorization, plan.steps, NewSession(lab, w1), ReadClock(lab, w1));
      PlanRun(r.outcome, r.world)
  }

  // ----- the executor object -----

  /** The process around the executor: a clock that other code also advances, the token variables,
      and the record of every adapter call. */
  class Process {
    const env: Env
    var now: real
    var clockReads: nat
    var tokenReads: nat
    var calls: seq<Call>

    ghost function View(): World
      reads this
    {
      World(now, clockReads, tokenReads, calls)
    }

    constructor (env: Env, now: real)
      ensures this.env == env && View() == World(now, 0, 0, [])
    {
      this.env := env;
      this.now := now;
      clockReads, tokenReads, calls := 0, 0, [];
    }

    method Monotonic() returns (t: real)
      modifies this
      ensures t == now
      ensures forall lab: Lab :: lab.env == env ==> View() == ReadClock(lab, old(View()))
    {
      now := now + env.drift(clockReads);
      clockReads := clockReads + 1;
      t := now;
    }

    method LookAtTokens() returns (t: Tokens)
      modifies this`tokenReads
      ensures t == env.tokens(old(tokenReads))
      ensures View() == ReadTokens(old(View()))
    {
      t := env.tokens(tokenReads);
      tokenReads := tokenReads + 1;
    }
  }

  class ExecutionSession {
    var deadline: real
    var requestsUsed: nat

    ghost function View(): Session
      reads this
    {
      Session(deadline, requestsUsed)
    }

    constructor (deadline: real)
      ensures View() == Session(deadline, 0)
    {
      this.deadline := deadline;
      requestsUsed := 0;
    }
  }

  class SafeToolExecutor {
    const gate: SafetyGate
    const registry: map<string, Adapter>

    ghost function LabFor(process: Process): Lab
      reads gate
    {
      Lab(gate.View(), registry, process.env)
    }

    /** The source refuses a registry with a tool outside the allowlist. */
    constructor (gate: SafetyGate, registry: map<string, Adapter>)
      requires registry.Keys <= gate.config.safety.allowedTools
      ensures this.gate == gate && this.registry == registry
    {
      this.gate := gate;
      this.registry := registry;
    }

    method Step(process: Process, session: ExecutionSession, step: AttackStep, authorization: Option<Authorization>)
      returns (outcome: StepOutcome)
      modifies process, session
      ensures StepRun(outcome, session.View(), process.View())
           == ExecuteStep(LabFor(process), authorization, step, old(session.View()), old(process.View()))
    {
      hide StepAccepted, AuthorizationValid, CallAdapter;
      var tokens := process.LookAtTokens();
      var accepted := gate.ValidateStep(tokens, step);
      if !accepted {
        return StepViolation;
      }
      if step.destructive {
        tokens := process.LookAtTokens();
        var authorized := gate.ValidateAuthorization(tokens, authorization);
        if !authorized {
          return StepViolation;
        }
      }
      if session.requestsUsed >= gate.config.budgets.maxRequests {
        return BudgetExceeded("request budget exhausted");
      }
      var now := process.Monotonic();
      var remaining := session.deadline - now;
      if remaining <= 0.0 {
        return BudgetExceeded("plan deadline exceeded");
      }
      if step.tool !in registry {
        return StepViolation;
      }
      var observation := Send(process, session, step, remaining);
      return Observed(observation);
    }

    /** The last part of `execute_step`, `remaining` seconds before the deadline. */
    method Send(process: Process, session: ExecutionSession, step: AttackStep, remaining: real)
      returns (observation: Observation)
      requires step.tool in registry && remaining == session.deadline - process.now
      modifies process, session
      ensures StepRun(Observed(observation), session.View(), process.View())
           == CallAdapter(LabFor(process), step, old(session.View()), old(process.View()))
    {
      hide TimeoutFor;
      session.requestsUsed := session.requestsUsed + 1;
      var timeout := TimeoutFor(step, gate.config.budgets, remaining);
      var n := |process.calls|;
      process.calls := process.calls + [Call(step, process.now, timeout, process.env.elapsed(n))];
      process.now := process.now + process.env.elapsed(n);
      return registry[step.tool](step, process.env.reply(n));
    }

    method Plan(process: Process, plan: AttackPlan, authorization: Option<Authorization>) returns (outcome: PlanOutcome)
      modifies process
      ensures PlanRun(outcome, process.View()) == ExecutePlan(LabFor(process), authorization, plan, old(process.View()))
    {
      hide PlanAccepted, ExecuteStep;
      var tokens := process.LookAtTokens();
      var accepted := gate.ValidatePlan(tokens, plan, authorization);
      if !accepted {
        return Rejected;
      }
      var now := process.Monotonic();
      var session := new ExecutionSession(now + gate.config.budgets.planTimeout);
      ghost var whole := ExecuteSteps(LabFor(process), authorization, plan.steps, session.View(), process.View());
      var observations: seq<Observation> := [];
      for i := 0 to |plan.steps|
        invariant fresh(session)
        invariant whole == Prepend(observations,
                     ExecuteSteps(LabFor(process), authorization, plan.steps[i..], session.View(), process.View()))
      {
        var result := Step(process, session, plan.steps[i], authorization);
        assert plan.steps[i..][1..] == plan.steps[i + 1..];
        match result {
          case StepViolation =>
            return Rejected;
          case BudgetExceeded(message) =>
            return Ran(observations + [CutShort(plan.steps[i], message)]);
          case Observed(o) =>
            PrependTwice(observations, [o],
              ExecuteSteps(LabFor(process), authorization, plan.steps[i + 1..], session.View(), process.View()));
            observations := observations + [o];
        }
      }
      assert observations + [] == observations;
      return Ran(observations);
    }
  }

  lemma PrependTwice(a: seq<Observation>, b: seq<Observation>, r: StepsRun)
    ensures Prepend(a, Prepend(b, r)) == Prepend(a + b, r)
  {
    if r.outcome.Ran? {
      assert a + (b + r.outcome.observations) == (a + b) + r.outcome.observations;
    }
  }

  // ----- bounds on calls and time -----

  /** The check of `AttackStep.__post_init__` that matters here. */
  predicate PositiveTimeouts(steps: seq<AttackStep>) {
    forall i :: 0 <= i < |steps| ==> TimeoutOk(steps[i].timeout)
  }

  /** The timeout handed out is positive and keeps the call inside the step, plan and session budgets. */
  predicate WithinBudget(lab: Lab, deadline: real, call: Call) {
    && call.timeout.Finite?
    && 0.0 < call.timeout.value <= lab.Budgets().stepTimeout
    && !Below(RequestedTimeout(call.step, lab.Budgets()), call.timeout)
    && call.start + call.timeout.value <= deadline
  }

  /** The least of the step's own timeout, if it has one, the step budget, and the time left to the deadline. */
  predicate LeastOfThree(lab: Lab, deadline: real, call: Call) {
    && call.timeout.Finite?
    && var t := call.timeout.value;
    && t <= lab.Budgets().stepTimeout && call.start + t <= deadline
    && (match call.step.timeout
        case Some(Finite(own)) => t <= own && (t == own || t == lab.Budgets().stepTimeout || call.start + t == deadline)
        case _ => t == lab.Budgets().stepTimeout || call.start + t == deadline)
  }

  /** What a call is handed: the least timeout, which is within every budget, or `NaN` if its step asks for it. */
  predicate HandedOut(lab: Lab, deadline: real, call: Call) {
    if Endless(call.step) then call.timeout == NotANumber
    else WithinBudget(lab, deadline, call) && LeastOfThree(lab, deadline, call)
  }

  /** Each adapter call from the `from`-th on was handed a number and took no longer. */
  predicate Punctual(w: World, from: nat) {
    forall i :: from <= i < |w.calls| ==>
      w.calls[i].timeout.Finite? && w.calls[i].elapsed <= w.calls[i].timeout.value
  }

  predicate Idle(env: Env, upTo: nat) {
    forall n :: 0 <= n < upTo ==> env.drift(n) == 0.0
  }

  /** What any run of steps does to the session and to the record of calls. */
  predicate Bounded(lab: Lab, steps: seq<AttackStep>, s: Session, w: World, r: StepsRun) {
    && w.calls <= r.world.calls
    && w.now <= r.world.now
    && w.clockReads <= r.world.clockReads
    && r.session.deadline == s.deadline
    && r.session.requestsUsed - s.requestsUsed == |r.world.calls| - |w.calls|
    && |r.world.calls| - |w.calls| <= |steps|
    && (r.session.requestsUsed <= lab.Budgets().maxRequests || r.session.requestsUsed == s.requestsUsed)
    && forall i :: |w.calls| <= i < |r.world.calls| ==>
         && r.world.calls[i].step == steps[i - |w.calls|]
         && HandedOut(lab, s.deadline, r.world.calls[i])
         && r.world.calls[i].elapsed == lab.env.elapsed(i)
  }

  lemma StepBounded(lab: Lab, authorization: Option<Authorization>, step: AttackStep, s: Session, w: World)
    requires lab.Budgets().stepTimeout > 0.0 && TimeoutOk(step.timeout)
    ensures var r := ExecuteStep(lab, authorization, step, s, w);
      && w.now <= r.world.now && w.clockReads <= r.world.clockReads
      && r.session.deadline == s.deadline
      && if r.outcome.Observed? then
           && s.requestsUsed < lab.Budgets().maxRequests
           && r.session.requestsUsed == s.requestsUsed + 1
           && |r.world.calls| == |w.calls| + 1
           && r.world.calls == w.calls + [r.world.calls[|w.calls|]]
           && r.world.calls[|w.calls|].step == step
           && HandedOut(lab, s.deadline, r.world.calls[|w.calls|])
           && r.world.calls[|w.calls|].elapsed == lab.env.elapsed(|w.calls|)
         else r.world.calls == w.calls && r.session == s
  {
    hide StepAccepted, AuthorizationValid;
  }

  lemma {:induction false} StepsBounded(lab: Lab, authorization: Option<Authorization>, steps: seq<AttackStep>,
                                        s: Session, w: World)
    requires lab.Budgets().stepTimeout > 0.0 && PositiveTimeouts(steps)
    ensures Bounded(lab, steps, s, w, ExecuteSteps(lab, authorization, steps, s, w))
    decreases |steps|
  {
    hide ExecuteStep, HandedOut;
    if steps != [] {
      var first := ExecuteStep(lab, authorization, steps[0], s, w);
      StepBounded(lab, authorization, steps[0], s, w);
      if first.outcome.Observed? {
        StepsBounded(lab, authorization, steps[1..], first.session, first.world);
        var r := ExecuteSteps(lab, authorization, steps[1..], first.session, first.world);
        assert r.world.calls[|w.calls|] == first.world.calls[|w.calls|];
        forall i | |first.world.calls| <= i < |r.world.calls|
          ensures r.world.calls[i].step == steps[i - |w.calls|]
        {
          assert steps[1..][i - |first.world.calls|] == steps[i - |w.calls|];
        }
      }
    }
  }

  /** If no call outlasts its timeout and other code takes no time, the run ends by its deadline. */
  lemma {:induction false} StepsEndInTime(lab: Lab, authorization: Option<Authorization>, steps: seq<AttackStep>,
                                          s: Session, w: World)
    requires lab.Budgets().stepTimeout > 0.0 && PositiveTimeouts(steps)
    requires w.now <= s.deadline
    requires var r := ExecuteSteps(lab, authorization, steps, s, w);
      Punctual(r.world, |w.calls|) && Idle(lab.env, r.world.clockReads)
    ensures ExecuteSteps(lab, authorization, steps, s, w).world.now <= s.deadline
    decreases |steps|
  {
    hide StepAccepted, AuthorizationValid;
    if steps != [] {
      var first := ExecuteStep(lab, authorization, steps[0], s, w);
      if first.outcome.Observed? {
        var r := ExecuteSteps(lab, authorization, steps[1..], first.session, first.world);
        StepsBounded(lab, authorization, steps[1..], first.session, first.world);
        assert r.world.calls[|w.calls|] == first.world.calls[|w.calls|];
        StepsEndInTime(lab, authorization, steps[1..], first.session, first.world);
      } else {
        assert ExecuteSteps(lab, authorization, steps, s, w).world == first.world;
      }
    }
  }

  function Min(a: int, b: int): int {
    if a < b then a else b
  }

  /** The deadline of the session that a plan gets. */
  function PlanDeadline(lab: Lab, w: World): real {
    w.now + lab.env.drift(w.clockReads) + lab.Budgets().planTimeout
  }

  /** One plan: at most `min(|steps|, max_requests_per_plan)` calls, each in its budget, and an end
      no later than the plan timeout after its start. */
  lemma PlanBounded(lab: Lab, authorization: Option<Authorization>, plan: AttackPlan, w: World)
    requires lab.Budgets().stepTimeout > 0.0 && lab.Budgets().planTimeout > 0.0 && PositiveTimeouts(plan.steps)
    ensures var r := ExecutePlan(lab, authorization, plan, w);
      && w.calls <= r.world.calls && w.now <= r.world.now && w.clockReads <= r.world.clockReads
      && |r.world.calls| - |w.calls| <= Min(|plan.steps|, lab.Budgets().maxRequests)
      && (forall i :: |w.calls| <= i < |r.world.calls| ==>
            && r.world.calls[i].step == plan.steps[i - |w.calls|]
            && HandedOut(lab, PlanDeadline(lab, w), r.world.calls[i])
            && r.world.calls[i].elapsed == lab.env.elapsed(i))
      && (Punctual(r.world, |w.calls|) && Idle(lab.env, r.world.clockReads) ==>
            r.world.now <= w.now + lab.Budgets().planTimeout)
  {
    hide PlanAccepted, ExecuteSteps, HandedOut;
    var w1 := ReadTokens(w);
    var s := NewSession(lab, w1);
    var w2 := ReadClock(lab, w1);
    StepsBounded(lab, authorization, plan.steps, s, w2);
    var r := ExecuteSteps(lab, authorization, plan.steps, s, w2);
    if PlanAccepted(lab.gate, lab.env.tokens(w.tokenReads), plan, authorization)
       && Punctual(r.world, |w.calls|) && Idle(lab.env, r.world.clockReads) {
      StepsEndInTime(lab, authorization, plan.steps, s, w2);
      assert lab.env.drift(w.clockReads) == 0.0;
    }
  }

  // ----- what one attempt observed -----

  /** The observation of the k-th step, whose adapter call was the n-th overall. */
  function ObservedBy(lab: Lab, step: AttackStep, n: nat): Observation
    requires step.tool in lab.registry
  {
    lab.registry[step.tool](step, lab.env.reply(n))
  }

  predicate CutObservation(step: AttackStep, o: Observation) {
    && o.stepId == step.stepId && o.tool == step.tool && o.target == step.target
    && !o.ok && o.status.None? && o.body.None? && o.evidence == []
    && o.error in {Some("request budget exhausted"), Some("plan deadline exceeded")}
  }

  /** Observations are the adapters' answers in step order; a run stopped by a budget ends with one
      cut-short observation for the first step that was not called. */
  predicate ObservedShape(lab: Lab, steps: seq<AttackStep>, first: nat, done: int, seen: seq<Observation>) {
    && 0 <= done <= |steps|
    && |seen| == (if done == |steps| then done else done + 1)
    && (forall k :: 0 <= k < done ==> steps[k].tool in lab.registry && seen[k] == ObservedBy(lab, steps[k], first + k))
    && (done < |steps| ==> CutObservation(steps[done], seen[done]))
  }

  lemma StepObserved(lab: Lab, authorization: Option<Authorization>, step: AttackStep, s: Session, w: World)
    ensures var r := ExecuteStep(lab, authorization, step, s, w);
      && (r.outcome.Observed? ==>
            step.tool in lab.registry && r.outcome.observation == ObservedBy(lab, step, |w.calls|)
            && |r.world.calls| == |w.calls| + 1)
      && (r.outcome.BudgetExceeded? ==>
            CutObservation(step, CutShort(step, r.outcome.message)) && r.world.calls == w.calls)
  {
    hide StepAccepted, AuthorizationValid, RequestedTimeout;
  }

  lemma {:induction false} StepsObserved(lab: Lab, authorization: Option<Authorization>, steps: seq<AttackStep>,
                                         s: Session, w: World)
    ensures var r := ExecuteSteps(lab, authorization, steps, s, w);
      r.outcome.Ran? ==> ObservedShape(lab, steps, |w.calls|, |r.world.calls| - |w.calls|, r.outcome.observations)
    decreases |steps|
  {
    hide ExecuteStep, CutObservation, ObservedBy;
    if steps != [] {
      var first := ExecuteStep(lab, authorization, steps[0], s, w);
      StepObserved(lab, authorization, steps[0], s, w);
      if first.outcome.Observed? {
        StepsObserved(lab, authorization, steps[1..], first.session, first.world);
        var r := ExecuteSteps(lab, authorization, steps[1..], first.session, first.world);
        if r.outcome.Ran? {
          ShapeOfCons(lab, steps, |w.calls|, |r.world.calls| - |w.calls|, first.outcome.observation,
                      r.outcome.observations);
        }
      }
    }
  }

  lemma ShapeOfCons(lab: Lab, steps: seq<AttackStep>, first: nat, done: int, o: Observation, rest: seq<Observation>)
    requires steps != [] && steps[0].tool in lab.registry && o == ObservedBy(lab, steps[0], first)
    requires ObservedShape(lab, steps[1..], first + 1, done - 1, rest)
    ensures ObservedShape(lab, steps, first, done, [o] + rest)
  {
    hide CutObservation, ObservedBy;
    var seen := [o] + rest;
    forall k | 0 <= k < done
      ensures steps[k].tool in lab.registry && seen[k] == ObservedBy(lab, steps[k], first + k)
    {
      if k > 0 {
        assert steps[1..][k - 1] == steps[k] && seen[k] == rest[k - 1];
      }
    }
  }

  /** The shape of one whole attempt. */
  lemma PlanObserved(lab: Lab, authorization: Option<Authorization>, plan: AttackPlan, w: World)
    ensures var r := ExecutePlan(lab, authorization, plan, w);
      r.outcome.Ran? ==> ObservedShape(lab, plan.steps, |w.calls|, |r.world.calls| - |w.calls|, r.outcome.observations)
  {
    hide PlanAccepted, ExecuteSteps, ObservedShape;
    StepsObserved(lab, authorization, plan.steps, NewSession(lab, ReadTokens(w)), ReadClock(lab, ReadTokens(w)));
  }

  // ----- all or nothing -----

  /** A plan the gate refuses causes no adapter call. */
  lemma RefusedHasNoEffect(lab: Lab, authorization: Option<Authorization>, plan: AttackPlan, w: World)
    requires !PlanAccepted(lab.gate, lab.env.tokens(w.tokenReads), plan, authorization)
    ensures ExecutePlan(lab, authorization, plan, w).outcome.Rejected?
    ensures ExecutePlan(lab, authorization, plan, w).world.calls == w.calls
  {
  }

  /** How often the checks of these steps look at the tokens. */
  function Looks(steps: seq<AttackStep>): nat {
    if steps == [] then 0 else (if steps[0].destructive then 2 else 1) + Looks(steps[1..])
  }

  /** The gate clears step `k` when the run gets there, after `at` looks at the tokens before its first step. */
  predicate ClearedAt(lab: Lab, authorization: Option<Authorization>, steps: seq<AttackStep>, k: nat, at: nat)
    requires k < |steps|
  {
    var n := at + Looks(steps[..k]);
    && StepAccepted(lab.gate, lab.env.tokens(n), steps[k])
    && (steps[k].destructive ==> AuthorizationValid(lab.gate, lab.env.tokens(n + 1), authorization))
  }

  /** Step `k` cannot reject the run: it is cleared, and served unless the `left` requests end before it. */
  predicate Passable(lab: Lab, authorization: Option<Authorization>, steps: seq<AttackStep>, k: nat, at: nat, left: nat)
    requires k < |steps|
  {
    ClearedAt(lab, authorization, steps, k, at) && (k < left ==> steps[k].tool in lab.registry)
  }

  /** All steps that the request budget lets the run look at. */
  predicate AllPassable(lab: Lab, authorization: Option<Authorization>, steps: seq<AttackStep>, at: nat, left: nat) {
    forall k :: 0 <= k < |steps| && k <= left ==> Passable(lab, authorization, steps, k, at, left)
  }

  predicate PassableBefore(lab: Lab, authorization: Option<Authorization>, steps: seq<AttackStep>, k: nat, at: nat,
                           left: nat)
    requires k <= |steps|
  {
    forall i :: 0 <= i < k ==> Passable(lab, authorization, steps, i, at, left)
  }

  /** What step `k` is to the whole run, it is to the run after the first step. */
  lemma PassableLater(lab: Lab, authorization: Option<Authorization>, steps: seq<AttackStep>, k: nat, at: nat,
                      left: nat)
    requires 0 < k < |steps| && left > 0
    ensures Passable(lab, authorization, steps, k, at, left)
        <==> Passable(lab, authorization, steps[1..], k - 1, at + Looks(steps[..1]), left - 1)
  {
    hide StepAccepted, AuthorizationValid;
    assert steps[..k][1..] == steps[1..][..k - 1];
    assert steps[..1][1..] == [];
  }

  lemma PassableRest(lab: Lab, authorization: Option<Authorization>, steps: seq<AttackStep>, at: nat, left: nat)
    requires steps != [] && left > 0 && AllPassable(lab, authorization, steps, at, left)
    ensures AllPassable(lab, authorization, steps[1..], at + Looks(steps[..1]), left - 1)
  {
    hide Passable, Looks;
    var later, less := at + Looks(steps[..1]), left - 1;
    forall k | 0 <= k < |steps[1..]| && k <= less
      ensures Passable(lab, authorization, steps[1..], k, later, less)
    {
      PassableLater(lab, authorization, steps, k + 1, at, left);
    }
  }

  /** The first step of a run, when it is passable and when it is not. */
  lemma FirstStep(lab: Lab, authorization: Option<Authorization>, steps: seq<AttackStep>, s: Session, w: World)
    requires steps != [] && s.requestsUsed <= lab.Budgets().maxRequests
    ensures var r := ExecuteStep(lab, authorization, steps[0], s, w);
      && (r.outcome.StepViolation? ==>
            !Passable(lab, authorization, steps, 0, w.tokenReads, lab.Budgets().maxRequests - s.requestsUsed))
      && (!Passable(lab, authorization, steps, 0, w.tokenReads, lab.Budgets().maxRequests - s.requestsUsed) ==>
            !r.outcome.Observed?)
      && (!r.outcome.Observed? ==> r.world.calls == w.calls)
      && (r.outcome.Observed? ==>
            && s.requestsUsed < lab.Budgets().maxRequests && r.session == s.(requestsUsed := s.requestsUsed + 1)
            && r.world.tokenReads == w.tokenReads + Looks(steps[..1]) && |r.world.calls| == |w.calls| + 1)
  {
    hide StepAccepted, AuthorizationValid, TimeoutFor;
    assert steps[..0] == [] && steps[..1][1..] == [];
  }

  /** A run whose steps are all passable is never rejected, whatever the replies and the timing. */
  lemma {:induction false} PassableStepsRun(lab: Lab, authorization: Option<Authorization>, steps: seq<AttackStep>,
                                            s: Session, w: World)
    requires s.requestsUsed <= lab.Budgets().maxRequests
    requires AllPassable(lab, authorization, steps, w.tokenReads, lab.Budgets().maxRequests - s.requestsUsed)
    ensures ExecuteSteps(lab, authorization, steps, s, w).outcome.Ran?
    decreases |steps|
  {
    hide ExecuteStep, Passable, Looks;
    if steps != [] {
      var left := lab.Budgets().maxRequests - s.requestsUsed;
      var first := ExecuteStep(lab, authorization, steps[0], s, w);
      FirstStep(lab, authorization, steps, s, w);
      assert Passable(lab, authorization, steps, 0, w.tokenReads, left);
      if first.outcome.Observed? {
        PassableRest(lab, authorization, steps, w.tokenReads, left);
        PassableStepsRun(lab, authorization, steps[1..], first.session, first.world);
      }
    }
  }

  ghost predicate InstantEnv(env: Env) {
    forall n :: env.drift(n) == 0.0 && env.elapsed(n) == 0.0
  }

  /** In an environment that takes no time, a passable step is called if the budget allows it, and at a step
      that is not passable the run is rejected. */
  lemma InstantStep(lab: Lab, authorization: Option<Authorization>, steps: seq<AttackStep>, s: Session, w: World)
    requires steps != [] && s.requestsUsed <= lab.Budgets().maxRequests
    requires InstantEnv(lab.env) && w.now < s.deadline
    ensures var r := ExecuteStep(lab, authorization, steps[0], s, w);
      && r.world.now == w.now
      && if Passable(lab, authorization, steps, 0, w.tokenReads, lab.Budgets().maxRequests - s.requestsUsed) then
           r.outcome.Observed? <==> s.requestsUsed < lab.Budgets().maxRequests
         else r.outcome.StepViolation?
  {
    hide StepAccepted, AuthorizationValid, TimeoutFor;
    assert steps[..0] == [];
  }

  /** Such an environment reaches the first step that is not passable, after exactly `k` adapter calls. */
  lemma {:induction false} BlockedStepRejects(lab: Lab, authorization: Option<Authorization>, steps: seq<AttackStep>,
                                              s: Session, w: World, k: nat)
    requires s.requestsUsed + k <= lab.Budgets().maxRequests && k < |steps|
    requires var left := lab.Budgets().maxRequests - s.requestsUsed;
      && !Passable(lab, authorization, steps, k, w.tokenReads, left)
      && PassableBefore(lab, authorization, steps, k, w.tokenReads, left)
    requires InstantEnv(lab.env) && w.now < s.deadline
    ensures var r := ExecuteSteps(lab, authorization, steps, s, w);
      r.outcome.Rejected? && |r.world.calls| == |w.calls| + k
    decreases |steps|
  {
    hide ExecuteStep, Passable, Looks, InstantEnv;
    var left := lab.Budgets().maxRequests - s.requestsUsed;
    var first := ExecuteStep(lab, authorization, steps[0], s, w);
    FirstStep(lab, authorization, steps, s, w);
    InstantStep(lab, authorization, steps, s, w);
    if k > 0 {
      assert Passable(lab, authorization, steps, 0, w.tokenReads, left);
      var at, less := first.world.tokenReads, left - 1;
      PassableLater(lab, authorization, steps, k, w.tokenReads, left);
      forall i | 0 <= i < k - 1
        ensures Passable(lab, authorization, steps[1..], i, at, less)
      {
        PassableLater(lab, authorization, steps, i + 1, w.tokenReads, left);
      }
      BlockedStepRejects(lab, authorization, steps[1..], first.session, first.world, k - 1);
    }
  }

  /** And a passable run makes every call that the request budget allows. */
  lemma {:induction false} InstantRunsAll(lab: Lab, authorization: Option<Authorization>, steps: seq<AttackStep>,
                                          s: Session, w: World)
    requires s.requestsUsed <= lab.Budgets().maxRequests
    requires AllPassable(lab, authorization, steps, w.tokenReads, lab.Budgets().maxRequests - s.requestsUsed)
    requires InstantEnv(lab.env) && w.now < s.deadline
    ensures |ExecuteSteps(lab, authorization, steps, s, w).world.calls|
         == |w.calls| + Min(|steps|, lab.Budgets().maxRequests - s.requestsUsed)
    decreases |steps|
  {
    hide ExecuteStep, Passable, Looks, InstantEnv;
    if steps != [] {
      var left := lab.Budgets().maxRequests - s.requestsUsed;
      var first := ExecuteStep(lab, authorization, steps[0], s, w);
      FirstStep(lab, authorization, steps, s, w);
      InstantStep(lab, authorization, steps, s, w);
      assert Passable(lab, authorization, steps, 0, w.tokenReads, left);
      if first.outcome.Observed? {
        PassableRest(lab, authorization, steps, w.tokenReads, left);
        InstantRunsAll(lab, authorization, steps[1..], first.session, first.world);
      }
    }
  }

  lemma FirstBlocked(lab: Lab, authorization: Option<Authorization>, steps: seq<AttackStep>, at: nat, left: nat)
    returns (k: nat)
    requires !AllPassable(lab, authorization, steps, at, left)
    ensures k < |steps| && k <= left && !Passable(lab, authorization, steps, k, at, left)
    ensures PassableBefore(lab, authorization, steps, k, at, left)
  {
    hide Passable;
    var any: nat :| any < |steps| && any <= left && !Passable(lab, authorization, steps, any, at, left);
    k := 0;
    while Passable(lab, authorization, steps, k, at, left)
      invariant k <= any
      invariant forall i :: 0 <= i < k ==> Passable(lab, authorization, steps, i, at, left)
      decreases any - k
    {
      k := k + 1;
    }
  }

  /** The condition under which an accepted plan is not rejected part way. */
  predicate PlanPassable(lab: Lab, authorization: Option<Authorization>, plan: AttackPlan, w: World) {
    AllPassable(lab, authorization, plan.steps, w.tokenReads + 1, lab.Budgets().maxRequests)
  }

  function Within(lab: Lab, env: Env): Lab {
    lab.(env := env)
  }

  /** The same tokens, in an environment that takes no time. */
  function Instant(env: Env): Env {
    env.(drift := (n: nat) => 0.0, elapsed := (n: nat) => 0.0)
  }

  lemma PassableIgnoresTiming(lab: Lab, authorization: Option<Authorization>, plan: AttackPlan, w: World, env: Env)
    requires env.tokens == lab.env.tokens
    ensures PlanPassable(lab, authorization, plan, w) <==> PlanPassable(Within(lab, env), authorization, plan, w)
  {
    hide StepAccepted, AuthorizationValid, Looks;
    var other, at, left := Within(lab, env), w.tokenReads + 1, lab.Budgets().maxRequests;
    forall k | 0 <= k < |plan.steps|
      ensures Passable(lab, authorization, plan.steps, k, at, left)
         <==> Passable(other, authorization, plan.steps, k, at, left)
    {
    }
  }

  lemma PassablePlanRuns(lab: Lab, authorization: Option<Authorization>, plan: AttackPlan, w: World)
    requires PlanAccepted(lab.gate, lab.env.tokens(w.tokenReads), plan, authorization)
    requires PlanPassable(lab, authorization, plan, w)
    ensures ExecutePlan(lab, authorization, plan, w).outcome.Ran?
  {
    hide PlanAccepted, AllPassable, ExecuteSteps;
    PassableStepsRun(lab, authorization, plan.steps, NewSession(lab, ReadTokens(w)), ReadClock(lab, ReadTokens(w)));
  }

  /** An accepted plan that is not passable is rejected part way in an environment that takes no time. */
  lemma BlockedPlanRejects(lab: Lab, authorization: Option<Authorization>, plan: AttackPlan, w: World) returns (k: nat)
    requires lab.Budgets().planTimeout > 0.0 && InstantEnv(lab.env)
    requires PlanAccepted(lab.gate, lab.env.tokens(w.tokenReads), plan, authorization)
    requires !PlanPassable(lab, authorization, plan, w)
    ensures k < |plan.steps| && k <= lab.Budgets().maxRequests
    ensures !Passable(lab, authorization, plan.steps, k, w.tokenReads + 1, lab.Budgets().maxRequests)
    ensures PassableBefore(lab, authorization, plan.steps, k, w.tokenReads + 1, lab.Budgets().maxRequests)
    ensures var r := ExecutePlan(lab, authorization, plan, w);
      r.outcome.Rejected? && |r.world.calls| == |w.calls| + k
  {
    hide PlanAccepted, Passable, ExecuteSteps;
    k := FirstBlocked(lab, authorization, plan.steps, w.tokenReads + 1, lab.Budgets().maxRequests);
    var w1 := ReadTokens(w);
    assert lab.env.drift(w1.clockReads) == 0.0;
    BlockedStepRejects(lab, authorization, plan.steps, NewSession(lab, w1), ReadClock(lab, w1), k);
  }

  /** The gate is all or nothing exactly on passable plans: only they survive every reply and every timing. */
  lemma SurvivesExactly(lab: Lab, authorization: Option<Authorization>, plan: AttackPlan, w: World)
    requires lab.Budgets().planTimeout > 0.0
    requires PlanAccepted(lab.gate, lab.env.tokens(w.tokenReads), plan, authorization)
    ensures PlanPassable(lab, authorization, plan, w) <==>
      forall env: Env :: env.tokens == lab.env.tokens ==>
        ExecutePlan(Within(lab, env), authorization, plan, w).outcome.Ran?
  {
    hide PlanAccepted, PlanPassable, ExecutePlan;
    forall env: Env | env.tokens == lab.env.tokens && PlanPassable(lab, authorization, plan, w)
      ensures ExecutePlan(Within(lab, env), authorization, plan, w).outcome.Ran?
    {
      PassableIgnoresTiming(lab, authorization, plan, w, env);
      PassablePlanRuns(Within(lab, env), authorization, plan, w);
    }
    if !PlanPassable(lab, authorization, plan, w) {
      var instant := Within(lab, Instant(lab.env));
      PassableIgnoresTiming(lab, authorization, plan, w, instant.env);
      var k := BlockedPlanRejects(instant, authorization, plan, w);
      assert !ExecutePlan(Within(lab, instant.env), authorization, plan, w).outcome.Ran?;
    }
  }

  // ----- tokens that stay, and tokens that do not matter -----

  ghost predicate FixedTokens(env: Env) {
    forall n, m :: env.tokens(n) == env.tokens(m)
  }

  /** Every step the request budget can reach has an adapter. */
  predicate Served(lab: Lab, plan: AttackPlan) {
    forall k :: 0 <= k < |plan.steps| && k < lab.Budgets().maxRequests ==> plan.steps[k].tool in lab.registry
  }

  /** What whole-plan validation established for each step, as long as the tokens stay. */
  lemma AcceptedStays(lab: Lab, authorization: Option<Authorization>, plan: AttackPlan, w: World)
    requires FixedTokens(lab.env) && PlanAccepted(lab.gate, lab.env.tokens(w.tokenReads), plan, authorization)
    ensures PlanPassable(lab, authorization, plan, w) <==> Served(lab, plan)
  {
    hide StepAccepted, AuthorizationValid, Looks;
    var at, left := w.tokenReads + 1, lab.Budgets().maxRequests;
    forall k | 0 <= k < |plan.steps|
      ensures Passable(lab, authorization, plan.steps, k, at, left)
         <==> (k < left ==> plan.steps[k].tool in lab.registry)
    {
      var n := at + Looks(plan.steps[..k]);
      assert lab.env.tokens(n) == lab.env.tokens(w.tokenReads) == lab.env.tokens(n + 1);
      if plan.steps[k].destructive {
        assert StepRequiresAuthorization(lab.gate.lib, plan.steps[k]);
      }
    }
  }

  /** With unchanging tokens, an accepted plan whose reachable steps all have an adapter is never rejected
      part way. */
  lemma AcceptedNeverRejected(lab: Lab, authorization: Option<Authorization>, plan: AttackPlan, w: World)
    requires FixedTokens(lab.env) && Served(lab, plan)
    requires PlanAccepted(lab.gate, lab.env.tokens(w.tokenReads), plan, authorization)
    ensures ExecutePlan(lab, authorization, plan, w).outcome.Ran?
  {
    hide PlanAccepted, PlanPassable, ExecutePlan;
    AcceptedStays(lab, authorization, plan, w);
    PassablePlanRuns(lab, authorization, plan, w);
  }

  /** With unchanging tokens that condition is exact. */
  lemma ServedExactly(lab: Lab, authorization: Option<Authorization>, plan: AttackPlan, w: World)
    requires FixedTokens(lab.env) && lab.Budgets().planTimeout > 0.0
    requires PlanAccepted(lab.gate, lab.env.tokens(w.tokenReads), plan, authorization)
    ensures Served(lab, plan) <==>
      forall env: Env :: env.tokens == lab.env.tokens ==>
        ExecutePlan(Within(lab, env), authorization, plan, w).outcome.Ran?
  {
    hide PlanAccepted, PlanPassable, ExecutePlan, Served;
    AcceptedStays(lab, authorization, plan, w);
    SurvivesExactly(lab, authorization, plan, w);
  }

  /** A step on loopback without the destructive label: no token decides on it. */
  predicate TokenFree(gate: Gate, step: AttackStep) {
    !step.destructive && !IsRemoteTarget(gate.lib.net, step.target)
  }

  /** Every step the run can look at is token-free. */
  predicate Tokenless(lab: Lab, plan: AttackPlan) {
    forall k :: 0 <= k < |plan.steps| && k <= lab.Budgets().maxRequests ==> TokenFree(lab.gate, plan.steps[k])
  }

  lemma TokenFreeStaysAccepted(gate: Gate, step: AttackStep, early: Tokens, late: Tokens)
    requires TokenFree(gate, step) && StepAccepted(gate, early, step)
    ensures StepAccepted(gate, late, step)
  {
    hide HttpArgumentsAccepted, HasCredential, NestedValues, NestedAllowed, TargetAllowed, IsRemoteTarget;
  }

  /** Without tokens, only token-free steps are cleared. */
  lemma ClearedWithoutTokens(lab: Lab, authorization: Option<Authorization>, steps: seq<AttackStep>, k: nat, at: nat)
    requires k < |steps| && forall n :: n >= at ==> lab.env.tokens(n) == Tokens(None, None)
    requires ClearedAt(lab, authorization, steps, k, at)
    ensures TokenFree(lab.gate, steps[k])
  {
    hide HttpArgumentsAccepted, HasCredential, NestedValues, NestedAllowed, TargetAllowed, IsRemoteTarget, Looks;
    assert lab.env.tokens(at + Looks(steps[..k])) == lab.env.tokens(at + Looks(steps[..k]) + 1) == Tokens(None, None);
  }

  lemma TokenlessPasses(lab: Lab, authorization: Option<Authorization>, plan: AttackPlan, w: World)
    requires PlanAccepted(lab.gate, lab.env.tokens(w.tokenReads), plan, authorization)
    requires Served(lab, plan) && Tokenless(lab, plan)
    ensures PlanPassable(lab, authorization, plan, w)
  {
    hide StepAccepted, AuthorizationValid, Looks, PlanRequiresAuthorization;
    var at, left := w.tokenReads + 1, lab.Budgets().maxRequests;
    forall k | 0 <= k < |plan.steps| && k <= left
      ensures Passable(lab, authorization, plan.steps, k, at, left)
    {
      var n := at + Looks(plan.steps[..k]);
      assert TokenFree(lab.gate, plan.steps[k]);
      TokenFreeStaysAccepted(lab.gate, plan.steps[k], lab.env.tokens(w.tokenReads), lab.env.tokens(n));
    }
  }

  /** No time passes, and both tokens disappear after the look that validated the plan. */
  function Revoking(env: Env, look: nat): Env {
    Instant(env).(tokens := (n: nat) => if n <= look then env.tokens(n) else Tokens(None, None))
  }

  /** An accepted plan survives whatever becomes of the tokens exactly when every step it can look at is on
      loopback and not destructive, and every step it can reach is served. */
  lemma TokenlessExactly(lab: Lab, authorization: Option<Authorization>, plan: AttackPlan, w: World)
    requires lab.Budgets().planTimeout > 0.0
    requires PlanAccepted(lab.gate, lab.env.tokens(w.tokenReads), plan, authorization)
    ensures Served(lab, plan) && Tokenless(lab, plan) <==>
      forall env: Env :: env.tokens(w.tokenReads) == lab.env.tokens(w.tokenReads) ==>
        ExecutePlan(Within(lab, env), authorization, plan, w).outcome.Ran?
  {
    hide PlanAccepted, ExecutePlan, PlanPassable;
    if Served(lab, plan) && Tokenless(lab, plan) {
      forall env: Env | env.tokens(w.tokenReads) == lab.env.tokens(w.tokenReads)
        ensures ExecutePlan(Within(lab, env), authorization, plan, w).outcome.Ran?
      {
        var other := Within(lab, env);
        assert Served(other, plan) && Tokenless(other, plan);
        TokenlessPasses(other, authorization, plan, w);
        PassablePlanRuns(other, authorization, plan, w);
      }
    } else {
      var revoked := Within(lab, Revoking(lab.env, w.tokenReads));
      assert revoked.env.tokens(w.tokenReads) == lab.env.tokens(w.tokenReads);
      assert Served(lab, plan) == Served(revoked, plan) && Tokenless(lab, plan) == Tokenless(revoked, plan);
      assert !PlanPassable(revoked, authorization, plan, w) by {
        if PlanPassable(revoked, authorization, plan, w) {
          PassableWithoutTokens(revoked, authorization, plan, w);
        }
      }
      var k := BlockedPlanRejects(revoked, authorization, plan, w);
      assert !ExecutePlan(Within(lab, revoked.env), authorization, plan, w).outcome.Ran?;
    }
  }

  lemma PassableWithoutTokens(lab: Lab, authorization: Option<Authorization>, plan: AttackPlan, w: World)
    requires forall n :: n > w.tokenReads ==> lab.env.tokens(n) == Tokens(None, None)
    requires PlanPassable(lab, authorization, plan, w)
    ensures Served(lab, plan) && Tokenless(lab, plan)
  {
    hide ClearedAt, TokenFree;
    forall k | 0 <= k < |plan.steps| && k <= lab.Budgets().maxRequests
      ensures TokenFree(lab.gate, plan.steps[k])
      ensures k < lab.Budgets().maxRequests ==> plan.steps[k].tool in lab.registry
    {
      assert Passable(lab, authorization, plan.steps, k, w.tokenReads + 1, lab.Budgets().maxRequests);
      ClearedWithoutTokens(lab, authorization, plan.steps, k, w.tokenReads + 1);
    }
  }

  /** The first step that is not passable rejects the run before any adapter call, in every environment. */
  lemma BlockedAtOnce(lab: Lab, authorization: Option<Authorization>, plan: AttackPlan, w: World)
    requires plan.steps != []
    requires !Passable(lab, authorization, plan.steps, 0, w.tokenReads + 1, lab.Budgets().maxRequests)
    ensures ExecutePlan(lab, authorization, plan, w).world.calls == w.calls
  {
    hide PlanAccepted, ExecuteStep, Passable;
    var w1 := ReadTokens(w);
    FirstStep(lab, authorization, plan.steps, NewSession(lab, w1), ReadClock(lab, w1));
  }

  // ----- which timeouts break the budgets -----

  /** No step that the request budget can reach asks for a `NaN` timeout. */
  predicate Timed(lab: Lab, plan: AttackPlan) {
    forall k :: 0 <= k < |plan.steps| && k < lab.Budgets().maxRequests ==> !Endless(plan.steps[k])
  }

  /** Every call of the plan got a positive timeout that ends by the deadline. */
  predicate AllWithin(lab: Lab, w: World, r: World) {
    forall i :: |w.calls| <= i < |r.calls| ==> WithinBudget(lab, PlanDeadline(lab, w), r.calls[i])
  }

  /** No call outlasted its timeout, which a call handed `NaN` cannot. */
  predicate NeverOverdue(w: World, from: nat) {
    forall i :: from <= i < |w.calls| ==> !Below(w.calls[i].timeout, Finite(w.calls[i].elapsed))
  }

  /** The plan keeps its time in this environment, unless a call outlasts its timeout or other code takes time. */
  predicate InTime(lab: Lab, w: World, r: World) {
    NeverOverdue(r, |w.calls|) && Idle(lab.env, r.clockReads) ==> r.now <= w.now + lab.Budgets().planTimeout
  }

  /** Once the deadline has come, a passable run ends without another call. */
  lemma LateRunStops(lab: Lab, authorization: Option<Authorization>, steps: seq<AttackStep>, s: Session, w: World)
    requires s.requestsUsed <= lab.Budgets().maxRequests
    requires AllPassable(lab, authorization, steps, w.tokenReads, lab.Budgets().maxRequests - s.requestsUsed)
    requires lab.env.drift(w.clockReads) == 0.0 && w.now >= s.deadline
    ensures var r := ExecuteSteps(lab, authorization, steps, s, w);
      r.world.calls == w.calls && r.world.now == w.now
  {
    hide StepAccepted, AuthorizationValid, TimeoutFor, Looks;
    if steps != [] {
      assert steps[..0] == [];
      assert Passable(lab, authorization, steps, 0, w.tokenReads, lab.Budgets().maxRequests - s.requestsUsed);
    }
  }

  /** Calls before the `k`-th return at once, and that one takes until the deadline: it is the last. */
  lemma {:induction false} HangingRun(lab: Lab, authorization: Option<Authorization>, steps: seq<AttackStep>,
                                      s: Session, w: World, k: nat)
    requires k < |steps| && s.requestsUsed + k < lab.Budgets().maxRequests
    requires AllPassable(lab, authorization, steps, w.tokenReads, lab.Budgets().maxRequests - s.requestsUsed)
    requires forall n :: lab.env.drift(n) == 0.0
    requires forall n :: |w.calls| <= n < |w.calls| + k ==> lab.env.elapsed(n) == 0.0
    requires w.now < s.deadline <= w.now + lab.env.elapsed(|w.calls| + k)
    ensures var r := ExecuteSteps(lab, authorization, steps, s, w);
      |r.world.calls| == |w.calls| + k + 1 && r.world.now == w.now + lab.env.elapsed(|w.calls| + k)
    decreases |steps|
  {
    hide ExecuteStep, Passable, Looks;
    var left := lab.Budgets().maxRequests - s.requestsUsed;
    var first := ExecuteStep(lab, authorization, steps[0], s, w);
    FirstStep(lab, authorization, steps, s, w);
    assert Passable(lab, authorization, steps, 0, w.tokenReads, left);
    FirstCall(lab, authorization, steps, s, w);
    PassableRest(lab, authorization, steps, w.tokenReads, left);
    if k == 0 {
      LateRunStops(lab, authorization, steps[1..], first.session, first.world);
    } else {
      HangingRun(lab, authorization, steps[1..], first.session, first.world, k - 1);
    }
  }

  /** The call of a passable first step, when no other code takes time. */
  lemma FirstCall(lab: Lab, authorization: Option<Authorization>, steps: seq<AttackStep>, s: Session, w: World)
    requires steps != [] && s.requestsUsed < lab.Budgets().maxRequests
    requires Passable(lab, authorization, steps, 0, w.tokenReads, lab.Budgets().maxRequests - s.requestsUsed)
    requires (forall n :: lab.env.drift(n) == 0.0) && w.now < s.deadline
    ensures var r := ExecuteStep(lab, authorization, steps[0], s, w);
      r.outcome.Observed? && r.world.now == w.now + lab.env.elapsed(|w.calls|)
  {
    hide StepAccepted, AuthorizationValid, TimeoutFor;
    assert steps[..0] == [];
  }

  /** Every call is answered at once, but for the `n`-th, which takes so long. */
  function Hanging(env: Env, n: nat, long: Duration): Env {
    Instant(env).(elapsed := (i: nat) => if i == n then long else 0.0)
  }

  /** What the plan does when its `k`-th call hangs until the deadline or longer. */
  lemma HangingPlan(lab: Lab, authorization: Option<Authorization>, plan: AttackPlan, w: World, k: nat, long: Duration)
    requires lab.Budgets().planTimeout > 0.0 && long >= lab.Budgets().planTimeout
    requires k < |plan.steps| && k < lab.Budgets().maxRequests
    requires PlanAccepted(lab.gate, lab.env.tokens(w.tokenReads), plan, authorization)
    requires PlanPassable(lab, authorization, plan, w)
    ensures var r := ExecutePlan(Within(lab, Hanging(lab.env, |w.calls| + k, long)), authorization, plan, w);
      r.outcome.Ran? && |r.world.calls| == |w.calls| + k + 1 && r.world.now == w.now + long
  {
    hide PlanAccepted, Passable, ExecuteSteps;
    var hung := Within(lab, Hanging(lab.env, |w.calls| + k, long));
    PassableIgnoresTiming(lab, authorization, plan, w, hung.env);
    PassablePlanRuns(hung, authorization, plan, w);
    HangingRun(hung, authorization, plan.steps, NewSession(hung, ReadTokens(w)), ReadClock(hung, ReadTokens(w)), k);
  }

  lemma TimedPlanKeepsBudgets(lab: Lab, authorization: Option<Authorization>, plan: AttackPlan, w: World)
    requires lab.Budgets().stepTimeout > 0.0 && lab.Budgets().planTimeout > 0.0 && PositiveTimeouts(plan.steps)
    requires Timed(lab, plan)
    ensures var r := ExecutePlan(lab, authorization, plan, w).world;
      AllWithin(lab, w, r) && InTime(lab, w, r)
  {
    hide ExecutePlan, WithinBudget;
    PlanBounded(lab, authorization, plan, w);
    var r := ExecutePlan(lab, authorization, plan, w).world;
    forall i | |w.calls| <= i < |r.calls|
      ensures WithinBudget(lab, PlanDeadline(lab, w), r.calls[i])
    {
      assert !Endless(plan.steps[i - |w.calls|]);
    }
    if NeverOverdue(r, |w.calls|) {
      forall i | |w.calls| <= i < |r.calls|
        ensures r.calls[i].timeout.Finite? && r.calls[i].elapsed <= r.calls[i].timeout.value
      {
        WithinIsFinite(lab, PlanDeadline(lab, w), r.calls[i]);
      }
    }
  }

  lemma WithinIsFinite(lab: Lab, deadline: real, call: Call)
    requires WithinBudget(lab, deadline, call)
    ensures call.timeout.Finite? && call.timeout.value > 0.0
  {
  }

  /** A call that hangs on a `NaN` timeout: it is not overdue, and the plan ends after its deadline. */
  lemma EndlessCallHangs(lab: Lab, authorization: Option<Authorization>, plan: AttackPlan, w: World, k: nat)
    requires lab.Budgets().stepTimeout > 0.0 && lab.Budgets().planTimeout > 0.0 && PositiveTimeouts(plan.steps)
    requires k < |plan.steps| && k < lab.Budgets().maxRequests && Endless(plan.steps[k])
    requires PlanAccepted(lab.gate, lab.env.tokens(w.tokenReads), plan, authorization)
    requires PlanPassable(lab, authorization, plan, w)
    ensures var env := Hanging(lab.env, |w.calls| + k, lab.Budgets().planTimeout + 1.0);
      var r := ExecutePlan(Within(lab, env), authorization, plan, w).world;
      && env.tokens == lab.env.tokens
      && |r.calls| == |w.calls| + k + 1 && r.calls[|w.calls| + k].timeout == NotANumber
      && NeverOverdue(r, |w.calls|) && Idle(env, r.clockReads)
      && r.now == w.now + lab.Budgets().planTimeout + 1.0
  {
    hide PlanAccepted, PlanPassable, ExecutePlan, WithinBudget;
    var long := lab.Budgets().planTimeout + 1.0;
    var hung := Within(lab, Hanging(lab.env, |w.calls| + k, long));
    HangingPlan(lab, authorization, plan, w, k, long);
    PlanBounded(hung, authorization, plan, w);
    var r := ExecutePlan(hung, authorization, plan, w).world;
    forall i | |w.calls| <= i < |r.calls|
      ensures !Below(r.calls[i].timeout, Finite(r.calls[i].elapsed))
    {
      if !Endless(r.calls[i].step) {
        WithinIsFinite(hung, PlanDeadline(hung, w), r.calls[i]);
      }
    }
  }

  /** For a plan that is not rejected part way: all its calls are within their budgets, in every environment,
      exactly when no step it can reach asks for `NaN`; and exactly then it always keeps its time. */
  lemma TimeoutsExactly(lab: Lab, authorization: Option<Authorization>, plan: AttackPlan, w: World)
    requires lab.Budgets().stepTimeout > 0.0 && lab.Budgets().planTimeout > 0.0 && PositiveTimeouts(plan.steps)
    requires PlanAccepted(lab.gate, lab.env.tokens(w.tokenReads), plan, authorization)
    requires PlanPassable(lab, authorization, plan, w)
    ensures Timed(lab, plan) <==> forall env: Env :: env.tokens == lab.env.tokens ==>
      AllWithin(Within(lab, env), w, ExecutePlan(Within(lab, env), authorization, plan, w).world)
    ensures Timed(lab, plan) <==> forall env: Env :: env.tokens == lab.env.tokens ==>
      InTime(Within(lab, env), w, ExecutePlan(Within(lab, env), authorization, plan, w).world)
  {
    hide PlanAccepted, PlanPassable, ExecutePlan, AllWithin, InTime;
    if Timed(lab, plan) {
      forall env: Env | env.tokens == lab.env.tokens
        ensures AllWithin(Within(lab, env), w, ExecutePlan(Within(lab, env), authorization, plan, w).world)
        ensures InTime(Within(lab, env), w, ExecutePlan(Within(lab, env), authorization, plan, w).world)
      {
        assert Timed(Within(lab, env), plan);
        TimedPlanKeepsBudgets(Within(lab, env), authorization, plan, w);
      }
    } else {
      var k: nat :| k < |plan.steps| && k < lab.Budgets().maxRequests && Endless(plan.steps[k]);
      EndlessCallHangs(lab, authorization, plan, w, k);
      var env := Hanging(lab.env, |w.calls| + k, lab.Budgets().planTimeout + 1.0);
      LateAndUnbounded(Within(lab, env), w, ExecutePlan(Within(lab, env), authorization, plan, w).world, |w.calls| + k);
    }
  }

  lemma LateAndUnbounded(lab: Lab, w: World, r: World, i: nat)
    requires |w.calls| <= i < |r.calls| && r.calls[i].timeout == NotANumber
    requires NeverOverdue(r, |w.calls|) && Idle(lab.env, r.clockReads) && r.now > w.now + lab.Budgets().planTimeout
    ensures !AllWithin(lab, w, r) && !InTime(lab, w, r)
  {
    assert !WithinBudget(lab, PlanDeadline(lab, w), r.calls[i]);
  }

  /** The gate lets such a step through: a step accepted without a timeout is accepted with `NaN`. */
  lemma EndlessIsAccepted(gate: Gate, tokens: Tokens, step: AttackStep)
    requires StepAccepted(gate, tokens, step.(timeout := None))
    ensures var endless := step.(timeout := Some(NotANumber));
      TimeoutOk(endless.timeout) && Endless(endless) && StepAccepted(gate, tokens, endless)
  {
    hide HasCredential, TargetAllowed, IsRemoteTarget, Strict, NestedAllowed, PyText;
    var plain, endless := step.(timeout := None), step.(timeout := Some(NotANumber));
    assert NestedValues(gate, endless) == NestedValues(gate, plain);
    assert HttpArgumentsAccepted(gate, endless) == HttpArgumentsAccepted(gate, plain);
  }
}
