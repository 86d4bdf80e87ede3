/** Plans bound without a seed: what a model can claim with them, and what it cannot. */
module Seedless {
  import opened JsonValues
  import opened Models
  import opened Safety
  import opened Tools
  import opened Oracles
  import opened Executor
  import opened Coordination
  import opened Pipeline

  // ----- without a seed nothing can be claimed broken -----

  /** Each member of the diagnostic contract survives both bindings. */
  lemma ContractReads(candidate: AttackPlan, digest: string, campaign: string, ids: NewIds, i: nat)
    requires i < 5
    ensures var f := DiagnosticMetadata(StepTools(candidate))[i];
      Get(BindPlan(BindTrusted(candidate, None, digest), campaign, ids).metadata, f.key) == Some(f.value)
  {
    hide PutAll, PutDefault, Get, BoundaryNotes;
    var fields := DiagnosticMetadata(StepTools(candidate));
    var trusted := BindTrusted(candidate, None, digest);
    GetOfDistinct(fields, i);
    NotesAreInvisible(fields, candidate, "diagnostic-default", digest, Str(trusted.planId), fields[i].key);
  }

  /** The contract of a candidate bound without a seed. */
  lemma DiagnosticContract(candidate: AttackPlan, digest: string, campaign: string, ids: NewIds)
    ensures var bound := BindPlan(BindTrusted(candidate, None, digest), campaign, ids);
      && Get(bound.metadata, "diagnostic_only") == Some(Bool(true))
      && (forall i :: 0 <= i < |bound.oracleIds| ==> bound.oracleIds[i] in {"http_status", "reachability"})
  {
    hide PutAll, PutDefault, Get, BoundaryNotes;
    ContractReads(candidate, digest, campaign, ids, 3);
  }

  /** A diagnostic plan judged by the two diagnostic oracles never has base verdict fail. */
  lemma DiagnosticNeverFails(plan: AttackPlan, observations: seq<Observation>)
    requires Get(plan.metadata, "diagnostic_only") == Some(Bool(true))
    requires forall i :: 0 <= i < |plan.oracleIds| ==> plan.oracleIds[i] in {"http_status", "reachability"}
    ensures BaseVerdict(Evaluate(DefaultOracles(), plan, observations)) in {Pass, Inconclusive, Error}
  {
    var results := Evaluate(DefaultOracles(), plan, observations);
    assert HttpStatus(plan, observations).verdict !in {Fail, Vulnerable};
    assert Reachability(plan, observations).verdict !in {Fail, Vulnerable};
    forall r | r in results
      ensures r.verdict !in {Fail, Vulnerable}
    {
      var i :| 0 <= i < |results| && results[i] == r;
      assert r == EvaluateOne(DefaultOracles(), plan.oracleIds[i], plan, observations);
    }
  }

  /** Without a seed, no environment makes a run report a failure or a vulnerability. */
  lemma NeverFails(run: Run, w: World, candidate: AttackPlan, digest: string, campaign: string, ids: NewIds)
    requires run.oracles == DefaultOracles() && run.required >= 1
    requires run.plan == BindPlan(BindTrusted(candidate, None, digest), campaign, ids)
    ensures RunPlan(run, w).finding.verdict !in {Fail, Vulnerable}
  {
    hide DefaultOracles, Evaluate, BindPlan, BindTrusted, ExecutePlan;
    hide BaseVerdict, StablePrefix, AllResults, WorldAfter;
    DiagnosticContract(candidate, digest, campaign, ids);
    if Attempt(run, w, 0).Ran? {
      DiagnosticNeverFails(run.plan, Attempt(run, w, 0).observations);
    }
  }

  // ----- when a seedless plan passes -----

  predicate AsksForStatus(tools: set<string>) {
    tools * HTTP_TOOLS != {}
  }

  predicate AsksForProbe(tools: set<string>) {
    "tcp_probe" in tools || tools * HTTP_TOOLS == {}
  }

  /** The HTTP tools of the plan were answered, and only with ordinary statuses. */
  predicate OrdinaryStatuses(tools: set<string>, observations: seq<Observation>) {
    var seen := Statuses(observations, Some(tools * HTTP_TOOLS));
    seen != [] && forall s :: s in seen ==> s in ORDINARY_STATUSES
  }

  predicate AllReachable(observations: seq<Observation>) {
    Probes(observations) != [] && false !in Probes(observations)
  }

  /** What the diagnostic contract takes for a pass. */
  predicate OrdinaryAnswers(tools: set<string>, observations: seq<Observation>) {
    && (AsksForStatus(tools) ==> OrdinaryStatuses(tools, observations))
    && (AsksForProbe(tools) ==> AllReachable(observations))
  }

  lemma StatusToolsExact(plan: AttackPlan, tools: set<string>)
    requires Get(plan.metadata, "status_tools") == Some(Arr(SortedHttpTools(tools))) && AsksForStatus(tools)
    ensures StatusTools(plan) == Some(tools * HTTP_TOOLS)
  {
    var items := SortedHttpTools(tools);
    var names := set item | item in items :: PyText(item);
    forall t ensures t in names <==> t in tools * HTTP_TOOLS {
      if t in tools * HTTP_TOOLS {
        assert Str(t) in items && PyText(Str(t)) == t;
      }
    }
    assert names == tools * HTTP_TOOLS;
    assert items != [] by {
      var t :| t in tools * HTTP_TOOLS;
      assert Str(t) in items;
    }
  }

  lemma StatusPassExact(plan: AttackPlan, tools: set<string>, observations: seq<Observation>)
    requires Get(plan.metadata, "expected_statuses") == Some(Ints(ORDINARY_STATUSES))
    requires Get(plan.metadata, "inconclusive_statuses") == Some(Ints([401]))
    requires Get(plan.metadata, "status_tools") == Some(Arr(SortedHttpTools(tools))) && AsksForStatus(tools)
    ensures HttpStatus(plan, observations).oracleId == "http_status"
    ensures HttpStatus(plan, observations).verdict == Pass <==> OrdinaryStatuses(tools, observations)
  {
    hide IntSet, Get, Statuses, StatusTools, Ints, SortedHttpTools, AsksForStatus;
    StatusToolsExact(plan, tools);
    OrdinarySet();
    var seen := Statuses(observations, Some(tools * HTTP_TOOLS));
    ElementsIn(seen, set v | v in ORDINARY_STATUSES);
  }

  lemma OrdinarySet()
    ensures Ints(ORDINARY_STATUSES).Arr? && Ints(ORDINARY_STATUSES).items != []
    ensures IntSet(Ints(ORDINARY_STATUSES).items) == Some(set v | v in ORDINARY_STATUSES)
    ensures Ints([401]).Arr? && IntSet(Ints([401]).items) == Some({401})
    ensures 401 !in ORDINARY_STATUSES
  {
    hide IntSet;
    IntSetOfInts(ORDINARY_STATUSES);
    IntSetOfInts([401]);
    assert (set v | v in [401]) == {401};
    assert |Ints(ORDINARY_STATUSES).items| == 11;
  }

  lemma ElementsIn(seen: seq<int>, allowed: set<int>)
    ensures (forall i :: 0 <= i < |seen| ==> seen[i] in allowed) <==> (forall s :: s in seen ==> s in allowed)
  {
    if forall s :: s in seen ==> s in allowed {
      forall i | 0 <= i < |seen| ensures seen[i] in allowed {
        var s := seen[i];
        assert s in seen;
      }
    }
    if forall i :: 0 <= i < |seen| ==> seen[i] in allowed {
      forall s | s in seen ensures s in allowed {
        var i :| 0 <= i < |seen| && seen[i] == s;
      }
    }
  }

  lemma ProbePassExact(plan: AttackPlan, observations: seq<Observation>)
    ensures Reachability(plan, observations).oracleId == "reachability"
    ensures Reachability(plan, observations).verdict == Pass <==> AllReachable(observations)
  {
    hide Probes;
  }

  lemma Contract(candidate: AttackPlan, digest: string, campaign: string, ids: NewIds)
    ensures var bound, tools := BindPlan(BindTrusted(candidate, None, digest), campaign, ids), StepTools(candidate);
      && bound.oracleIds == DiagnosticOracles(tools)
      && Get(bound.metadata, "expected_statuses") == Some(Ints(ORDINARY_STATUSES))
      && Get(bound.metadata, "inconclusive_statuses") == Some(Ints([401]))
      && Get(bound.metadata, "status_tools") == Some(Arr(SortedHttpTools(tools)))
  {
    hide PutAll, PutDefault, Get, BoundaryNotes, DiagnosticOracles, SortedHttpTools, Ints;
    ContractReads(candidate, digest, campaign, ids, 0);
    ContractReads(candidate, digest, campaign, ids, 1);
    ContractReads(candidate, digest, campaign, ids, 2);
  }

  lemma PassOfAll(results: seq<OracleResult>)
    ensures BaseVerdict(results) == Pass <==> results != [] && forall r :: r in results ==> r.verdict == Pass
  {
    var verdicts := set r | r in results :: r.verdict;
    if results != [] && forall r :: r in results ==> r.verdict == Pass {
      assert results[0] in results && verdicts == {Pass};
    }
  }

  lemma DiagnosticResults(plan: AttackPlan, tools: set<string>, observations: seq<Observation>)
    requires plan.oracleIds == DiagnosticOracles(tools)
    requires HttpStatus(plan, observations).oracleId == "http_status"
    requires Reachability(plan, observations).oracleId == "reachability"
    ensures var results := Evaluate(DefaultOracles(), plan, observations);
      && results != []
      && forall r :: r in results <==>
           || (AsksForStatus(tools) && r == HttpStatus(plan, observations))
           || (AsksForProbe(tools) && r == Reachability(plan, observations))
  {
    hide HttpStatus, Reachability;
    var results := Evaluate(DefaultOracles(), plan, observations);
    var s, p := HttpStatus(plan, observations), Reachability(plan, observations);
    assert results ==
      (if AsksForStatus(tools) then [s] else []) + (if AsksForProbe(tools) then [p] else []);
  }

  /** Without a seed, an attempt passes exactly on ordinary answers to the tools its plan uses. */
  lemma PassExact(candidate: AttackPlan, digest: string, campaign: string, ids: NewIds,
                          observations: seq<Observation>)
    ensures var bound := BindPlan(BindTrusted(candidate, None, digest), campaign, ids);
      BaseVerdict(Evaluate(DefaultOracles(), bound, observations)) == Pass
      <==> OrdinaryAnswers(StepTools(candidate), observations)
  {
    hide BindPlan, BindTrusted, HttpStatus, Reachability, Get, Ints, DefaultOracles, Evaluate, BaseVerdict;
    hide OrdinaryStatuses, AllReachable, DiagnosticOracles, AsksForStatus, AsksForProbe, StepTools, SortedHttpTools;
    var bound, tools := BindPlan(BindTrusted(candidate, None, digest), campaign, ids), StepTools(candidate);
    Contract(candidate, digest, campaign, ids);
    StatusId(bound, observations);
    ProbePassExact(bound, observations);
    if AsksForStatus(tools) {
      StatusPassExact(bound, tools, observations);
    }
    DiagnosticResults(bound, tools, observations);
    PassOfAll(Evaluate(DefaultOracles(), bound, observations));
  }

  /** Passing is possible: a seedless plan of HTTP requests passes on one ordinary answer. */
  lemma CanPass(candidate: AttackPlan, digest: string, campaign: string, ids: NewIds, o: Observation)
    requires candidate.steps != [] && forall s :: s in candidate.steps ==> s.tool == "http_request"
    requires o.tool == "http_request" && o.status == Some(200)
    ensures var bound := BindPlan(BindTrusted(candidate, None, digest), campaign, ids);
      BaseVerdict(Evaluate(DefaultOracles(), bound, [o])) == Pass
  {
    hide BindPlan, BindTrusted, DefaultOracles, Evaluate, BaseVerdict;
    PassExact(candidate, digest, campaign, ids, [o]);
    var tools := StepTools(candidate);
    assert candidate.steps[0].tool in tools;
    assert tools == {"http_request"} && tools * HTTP_TOOLS == tools;
    assert [o][1..] == [];
    assert Statuses([o], Some(tools)) == [200];
    assert ORDINARY_STATUSES[0] == 200;
  }

  lemma StatusId(plan: AttackPlan, observations: seq<Observation>)
    ensures HttpStatus(plan, observations).oracleId == "http_status"
  {
    hide IntSet, PyIter, Statuses;
  }

  /** A run bound without a seed. */
  ghost predicate SeedlessRun(run: Run, candidate: AttackPlan) {
    && run.oracles == DefaultOracles() && run.required >= 1
    && exists digest, campaign, ids :: run.plan == BindPlan(BindTrusted(candidate, None, digest), campaign, ids)
  }

  lemma DiagnosticPresent(tools: set<string>)
    ensures Missing(DefaultOracles(), DiagnosticOracles(tools)) == []
  {
    var ids := DiagnosticOracles(tools);
    assert forall i :: 0 <= i < |ids| ==> ids[i] in {"http_status", "reachability"};
    assert |ids| <= 2;
    assert ids[1..] == [] || ids[1..] == [ids[1]];
    assert Missing(DefaultOracles(), ids[1..]) == [];
  }

  /** A run without a seed passes exactly when its one attempt was not rejected and got ordinary answers. */
  lemma RunPasses(run: Run, w: World, candidate: AttackPlan)
    requires SeedlessRun(run, candidate)
    ensures RunPlan(run, w).finding.verdict == Pass <==>
      Attempt(run, w, 0).Ran? && OrdinaryAnswers(StepTools(candidate), Attempt(run, w, 0).observations)
  {
    hide BindPlan, BindTrusted, DefaultOracles, OrdinaryAnswers, Attempt, Evaluate, BaseVerdict, StepTools;
    hide AllResults, WorldAfter, StablePrefix, DiagnosticOracles, Missing;
    var digest, campaign, ids :| run.plan == BindPlan(BindTrusted(candidate, None, digest), campaign, ids);
    Contract(candidate, digest, campaign, ids);
    DiagnosticPresent(StepTools(candidate));
    if Attempt(run, w, 0).Ran? {
      PassExact(candidate, digest, campaign, ids, Attempt(run, w, 0).observations);
    }
  }

  /** A plan that `AgentPipeline.propose` could have returned: bound at the boundary, with no seed. */
  ghost predicate SeedlessProposal(plan: AttackPlan) {
    exists candidate, digest :: plan == BindTrusted(candidate, None, digest)
  }

  lemma {:induction false} PlansNeverFail(lab: Lab, authorization: Option<Authorization>, required: nat,
                                          plans: seq<AttackPlan>, i: nat,
                                         campaign: string, ids: nat -> NewIds, deadline: real, w: World)
    requires required >= 1 && i <= |plans|
    requires forall k :: 0 <= k < |plans| ==> SeedlessProposal(plans[k])
    ensures forall f ::
      f in PlansFrom(lab, authorization, DefaultOracles(), required, plans, i, campaign, ids, deadline, w)
             .findings.value ==>
      f.verdict !in {Fail, Vulnerable}
    decreases |plans| - i
  {
    hide RunPlan, DefaultOracles, BindPlan, BindTrusted;
    if i < |plans| {
      var w1 := ReadClock(lab, w);
      if w1.now < deadline {
        var run := Run(lab, authorization, DefaultOracles(), BindPlan(plans[i], campaign, ids(i)), required);
        var candidate, digest :| plans[i] == BindTrusted(candidate, None, digest);
        NeverFails(run, w1, candidate, digest, campaign, ids(i));
        PlansNeverFail(lab, authorization, required, plans, i + 1, campaign, ids, deadline, RunPlan(run, w1).world);
      }
    }
  }

  /** A campaign driven by seedless proposals never reports a failure or a vulnerability. */
  lemma CampaignNeverFails(lab: Lab, authorization: Option<Authorization>, required: nat, plans: seq<AttackPlan>,
                         campaign: string, ids: nat -> NewIds, w: World)
    requires required >= 1
    requires forall k :: 0 <= k < |plans| ==> SeedlessProposal(plans[k])
    requires Campaign(lab, authorization, DefaultOracles(), required, plans, campaign, ids, w).findings.Some?
    ensures CampaignVerdict(
              Campaign(lab, authorization, DefaultOracles(), required, plans, campaign, ids, w).findings.value)
      !in {Fail, Vulnerable}
  {
    hide DefaultOracles, SeedlessProposal, PlansFrom;
    var w1 := ReadClock(lab, w);
    PlansNeverFail(lab, authorization, required, plans, 0, campaign, ids, w1.now + lab.Budgets().campaignTimeout, w1);
  }

  // ----- which replies make a seedless run pass -----

  lemma {:induction false} StatusSeen(observations: seq<Observation>, tools: set<string>, s: int)
    ensures s in Statuses(observations, Some(tools)) <==>
      exists k :: 0 <= k < |observations| && observations[k].tool in tools && observations[k].status == Some(s)
  {
    if observations != [] {
      var rest := observations[1..];
      StatusSeen(rest, tools, s);
      if k :| 0 <= k < |rest| && rest[k].tool in tools && rest[k].status == Some(s) {
        assert observations[k + 1] == rest[k];
      }
      if k :| 0 <= k < |observations| && observations[k].tool in tools && observations[k].status == Some(s) {
        assert k > 0 ==> rest[k - 1] == observations[k];
      }
    }
  }

  lemma {:induction false} ProbeSeen(observations: seq<Observation>, b: bool)
    ensures b in Probes(observations) <==>
      exists k :: 0 <= k < |observations| && Get(observations[k].evidence, "reachable") == Some(Bool(b))
  {
    hide Get;
    if observations != [] {
      var rest := observations[1..];
      ProbeSeen(rest, b);
      if k :| 0 <= k < |rest| && Get(rest[k].evidence, "reachable") == Some(Bool(b)) {
        assert observations[k + 1] == rest[k];
      }
      if k :| 0 <= k < |observations| && Get(observations[k].evidence, "reachable") == Some(Bool(b)) {
        assert k > 0 ==> rest[k - 1] == observations[k];
      }
    }
  }

  /** What the adapter of a step gets back in the n-th call. */
  function Back(lab: Lab, step: AttackStep, n: nat): Raw {
    Sent(step, lab.env.reply(n))
  }

  /** The probe of this step connects in the n-th call. */
  predicate Reaches(lab: Lab, step: AttackStep, n: nat) {
    Dialable(step.target) && Back(lab, step, n).Reply?
  }

  /** What the default adapter of a step shows to the two diagnostic oracles. */
  lemma AdapterShows(lab: Lab, step: AttackStep, n: nat)
    requires lab.registry == DefaultRegistry() && step.tool in lab.registry
    ensures var o, raw := ObservedBy(lab, step, n), Back(lab, step, n);
      && o.tool == step.tool
      && o.status == (if step.tool in HTTP_TOOLS && raw.Reply? then Some(raw.status) else None)
      && Get(o.evidence, "reachable") == (if step.tool == "tcp_probe" then Some(Bool(Reaches(lab, step, n))) else None)
  {
    hide Upper, PyText, GetOr, ObserveHttp, ObserveCounter, Get, Dialable;
    var raw := Back(lab, step, n);
    var default := if step.tool == "mcp_call" then "POST" else "GET";
    var verb := Upper(PyText(GetOr(step.arguments, "method", Str(default))));
    HttpShows(step, verb, raw);
    if step.tool == "tcp_probe" {
      GetOfDistinct(ObserveProbe(step, raw).evidence, 0);
    }
  }

  lemma HttpShows(step: AttackStep, verb: string, raw: Raw)
    ensures var o := ObserveHttp(step, verb, raw);
      && o.tool == step.tool && o.status == (if raw.Reply? then Some(raw.status) else None)
      && Get(o.evidence, "reachable").None?
    ensures var o := ObserveCounter(step, verb, raw);
      && o.tool == step.tool && o.status == (if raw.Reply? then Some(raw.status) else None)
      && Get(o.evidence, "reachable").None?
  {
    hide CounterOf, Get;
    var seen := ObserveHttp(step, verb, raw);
    var value := match CounterOf(raw) case Some(c) => Int(c) case None => Null;
    GetIsMember(seen.evidence, "reachable");
    GetPut(seen.evidence, "counter", value, "reachable");
  }

  /** Among the first `done` steps, called from the `first`-th call on, step `k` was answered over HTTP. */
  predicate Answered(lab: Lab, steps: seq<AttackStep>, first: nat, done: int, k: nat) {
    k < done && k < |steps| && steps[k].tool in HTTP_TOOLS && Back(lab, steps[k], first + k).Reply?
  }

  predicate Probed(steps: seq<AttackStep>, done: int, k: nat) {
    k < done && k < |steps| && steps[k].tool == "tcp_probe"
  }

  /** Some HTTP step was answered, and no answer had a status out of the ordinary. */
  ghost predicate GoodStatuses(lab: Lab, steps: seq<AttackStep>, first: nat, done: int) {
    && (exists k: nat :: Answered(lab, steps, first, done, k))
    && forall k: nat :: Answered(lab, steps, first, done, k) ==>
         Back(lab, steps[k], first + k).status in ORDINARY_STATUSES
  }

  /** Some probe was made, and all named a port and were answered. */
  ghost predicate GoodProbes(lab: Lab, steps: seq<AttackStep>, first: nat, done: int) {
    && (exists k: nat :: Probed(steps, done, k))
    && forall k: nat :: Probed(steps, done, k) ==> Reaches(lab, steps[k], first + k)
  }

  lemma StatusesExact(lab: Lab, steps: seq<AttackStep>, first: nat, done: int, o: seq<Observation>, tools: set<string>)
    requires lab.registry == DefaultRegistry() && ObservedShape(lab, steps, first, done, o)
    requires forall k :: 0 <= k < |steps| ==> steps[k].tool in tools
    ensures OrdinaryStatuses(tools, o) <==> GoodStatuses(lab, steps, first, done)
  {
    hide ObservedBy, DefaultRegistry, Statuses;
    var http := tools * HTTP_TOOLS;
    var seen := Statuses(o, Some(http));
    forall k: nat | k < done
      ensures Answered(lab, steps, first, done, k) <==> o[k].tool in http && o[k].status.Some?
      ensures Answered(lab, steps, first, done, k) ==> o[k].status == Some(Back(lab, steps[k], first + k).status)
    {
      AdapterShows(lab, steps[k], first + k);
      assert o[k] == ObservedBy(lab, steps[k], first + k);
    }
    forall s
      ensures s in seen <==>
        exists k: nat :: Answered(lab, steps, first, done, k) && Back(lab, steps[k], first + k).status == s
    {
      StatusSeen(o, http, s);
      if k :| 0 <= k < |o| && o[k].tool in http && o[k].status == Some(s) {
        assert Answered(lab, steps, first, done, k);
      }
      if k: nat :| Answered(lab, steps, first, done, k) && Back(lab, steps[k], first + k).status == s {
        assert o[k].tool in http && o[k].status == Some(s);
      }
    }
    forall k: nat | Answered(lab, steps, first, done, k)
      ensures Back(lab, steps[k], first + k).status in seen
    {
      var s := Back(lab, steps[k], first + k).status;
      assert s in seen;
    }
    if seen != [] {
      var s := seen[0];
      assert s in seen;
    }
  }

  lemma ProbesExact(lab: Lab, steps: seq<AttackStep>, first: nat, done: int, o: seq<Observation>)
    requires lab.registry == DefaultRegistry() && ObservedShape(lab, steps, first, done, o)
    ensures AllReachable(o) <==> GoodProbes(lab, steps, first, done)
  {
    hide ObservedBy, DefaultRegistry, Probes, Reaches;
    forall k: nat | k < |o|
      ensures Get(o[k].evidence, "reachable")
           == if Probed(steps, done, k) then Some(Bool(Reaches(lab, steps[k], first + k))) else None
    {
      if k < done {
        AdapterShows(lab, steps[k], first + k);
        assert o[k] == ObservedBy(lab, steps[k], first + k);
      }
    }
    hide Get;
    forall b
      ensures b in Probes(o) <==> exists k: nat :: Probed(steps, done, k) && Reaches(lab, steps[k], first + k) == b
    {
      ProbeSeen(o, b);
      if k :| 0 <= k < |o| && Get(o[k].evidence, "reachable") == Some(Bool(b)) {
        assert Probed(steps, done, k);
      }
      if k: nat :| Probed(steps, done, k) && Reaches(lab, steps[k], first + k) == b {
        assert Get(o[k].evidence, "reachable") == Some(Bool(b));
      }
    }
    var probes := Probes(o);
    if probes != [] {
      assert probes[0] in probes;
    }
    if k: nat :| Probed(steps, done, k) {
      assert Reaches(lab, steps[k], first + k) in probes;
    }
  }

  /** The replies to an attempt of `done` calls make its plan pass. */
  ghost predicate GoodReplies(run: Run, first: nat, done: int) {
    var tools, steps := StepTools(run.plan), run.plan.steps;
    && (AsksForStatus(tools) ==> GoodStatuses(run.lab, steps, first, done))
    && (AsksForProbe(tools) ==> GoodProbes(run.lab, steps, first, done))
  }

  /** In the laboratory a seedless run passes exactly when its attempt is not rejected and the calls it makes,
      all of them or as many as a budget allows, are answered in the ordinary way. */
  lemma LabRunPasses(run: Run, w: World, candidate: AttackPlan)
    requires SeedlessRun(run, candidate) && run.lab.registry == DefaultRegistry()
    ensures var r := ExecutePlan(run.lab, run.authorization, run.plan, w);
      RunPlan(run, w).finding.verdict == Pass <==>
        r.outcome.Ran? && GoodReplies(run, |w.calls|, |r.world.calls| - |w.calls|)
  {
    hide DefaultOracles, RunPlan, ExecutePlan, GoodStatuses;
    hide GoodProbes, OrdinaryStatuses, AllReachable, DefaultRegistry;
    hide BindPlan, BindTrusted, ObservedShape;
    var r := ExecutePlan(run.lab, run.authorization, run.plan, w);
    var first, done := |w.calls|, |r.world.calls| - |w.calls|;
    RunPasses(run, w, candidate);
    SameTools(run, candidate);
    assert WorldAfter(run, w, 0) == w && Attempt(run, w, 0) == r.outcome;
    if r.outcome.Ran? {
      PlanObserved(run.lab, run.authorization, run.plan, w);
      StatusesExact(run.lab, run.plan.steps, first, done, r.outcome.observations, StepTools(run.plan));
      ProbesExact(run.lab, run.plan.steps, first, done, r.outcome.observations);
    }
  }

  lemma SameTools(run: Run, candidate: AttackPlan)
    requires SeedlessRun(run, candidate)
    ensures StepTools(run.plan) == StepTools(candidate)
    ensures forall k :: 0 <= k < |run.plan.steps| ==> run.plan.steps[k].tool in StepTools(run.plan)
  {
    hide PutAll, PutDefault, DiagnosticMetadata, DiagnosticOracles, BoundaryNotes, DefaultOracles;
    var steps := run.plan.steps;
    assert |steps| == |candidate.steps|;
    assert forall k :: 0 <= k < |steps| ==> steps[k].tool == candidate.steps[k].tool;
    forall t ensures t in StepTools(run.plan) <==> t in StepTools(candidate) {
      if t in StepTools(run.plan) {
        var k :| 0 <= k < |steps| && steps[k].tool == t;
        assert candidate.steps[k] in candidate.steps;
      }
      if t in StepTools(candidate) {
        var k :| 0 <= k < |candidate.steps| && candidate.steps[k].tool == t;
        assert steps[k] in steps;
      }
    }
  }

  // ----- which seedless plans can pass at all -----

  /** A probe that the adapter can make. */
  predicate Probeable(step: AttackStep) {
    Dialable(step.target) && !Endless(step)
  }

  /** The first `done` steps, within the request budget, hold a step of each kind that the contract asks
      about, with a timeout that is no `NaN`, and no probe that cannot be made if it asks about probes. */
  ghost predicate CoveredBy(run: Run, done: nat) {
    var tools, steps := StepTools(run.plan), run.plan.steps;
    && done <= |steps| && done <= run.lab.Budgets().maxRequests
    && (AsksForStatus(tools) ==> exists k :: 0 <= k < done && steps[k].tool in HTTP_TOOLS && !Endless(steps[k]))
    && (AsksForProbe(tools) ==>
          && (exists k :: 0 <= k < done && steps[k].tool == "tcp_probe")
          && forall k :: 0 <= k < done && steps[k].tool == "tcp_probe" ==> Probeable(steps[k]))
  }

  ghost predicate Covered(run: Run) {
    exists done :: CoveredBy(run, done)
  }

  /** Every call is answered with a 200, and all but the last of `done` calls at once; that one takes the
      time of the plan. */
  function Friendly(run: Run, w: World, done: nat): Env
    requires done > 0 && run.lab.Budgets().planTimeout >= 0.0
  {
    Hanging(Generous(run.lab.env), |w.calls| + (done - 1), run.lab.Budgets().planTimeout)
  }

  function Generous(env: Env): Env {
    env.(reply := (n: nat) => Reply(200, "", None, 0, false))
  }

  lemma FriendlyReplies(run: Run, first: nat, done: nat)
    requires CoveredBy(run, done)
    requires forall n :: run.lab.env.reply(n) == Reply(200, "", None, 0, false)
    ensures GoodReplies(run, first, done)
  {
    hide AsksForStatus, AsksForProbe, StepTools, Dialable;
    var steps := run.plan.steps;
    assert ORDINARY_STATUSES[0] == 200;
    if k: nat :| k < done && steps[k].tool in HTTP_TOOLS && !Endless(steps[k]) {
      assert Answered(run.lab, steps, first, done, k);
    }
    if k: nat :| k < done && steps[k].tool == "tcp_probe" {
      assert Probed(steps, done, k);
    }
  }

  lemma GoodRepliesCover(run: Run, first: nat, done: nat)
    requires GoodReplies(run, first, done)
    requires done <= |run.plan.steps| && done <= run.lab.Budgets().maxRequests
    ensures CoveredBy(run, done)
  {
    hide AsksForStatus, AsksForProbe, StepTools, Dialable;
    var steps := run.plan.steps;
    if k: nat :| Answered(run.lab, steps, first, done, k) {
      assert steps[k].tool in HTTP_TOOLS;
    }
    if k: nat :| Probed(steps, done, k) {
      assert steps[k].tool == "tcp_probe";
    }
    forall k: nat | k < done && steps[k].tool == "tcp_probe" && AsksForProbe(StepTools(run.plan))
      ensures Probeable(steps[k])
    {
      assert Probed(steps, done, k);
    }
  }

  /** One kind of tool is always asked about. */
  lemma CoverNotEmpty(run: Run, done: nat)
    requires CoveredBy(run, done)
    ensures done > 0
  {
    hide Dialable, StepTools;
  }

  lemma FriendlyPasses(run: Run, w: World, candidate: AttackPlan, done: nat)
    requires SeedlessRun(run, candidate) && run.lab.registry == DefaultRegistry()
    requires run.lab.Budgets().planTimeout > 0.0
    requires PlanAccepted(run.lab.gate, run.lab.env.tokens(w.tokenReads), run.plan, run.authorization)
    requires PlanPassable(run.lab, run.authorization, run.plan, w) && CoveredBy(run, done) && done > 0
    ensures RunPlan(InEnv(run, Friendly(run, w, done)), w).finding.verdict == Pass
  {
    hide RunPlan, ExecutePlan, PlanAccepted, PlanPassable, GoodReplies, DefaultRegistry, DefaultOracles;
    var generous := Within(run.lab, Generous(run.lab.env));
    PassableIgnoresTiming(run.lab, run.authorization, run.plan, w, generous.env);
    HangingPlan(generous, run.authorization, run.plan, w, done - 1, run.lab.Budgets().planTimeout);
    var friendly := InEnv(run, Friendly(run, w, done));
    assert friendly.lab == Within(generous, friendly.lab.env);
    SameCover(run, friendly.lab.env, done);
    FriendlyReplies(friendly, |w.calls|, done);
    LabRunPasses(friendly, w, candidate);
  }

  /** Which seedless plans a model can get a PASS for: given that the plan is not rejected part way, some
      replies and timing make it pass exactly when the gate accepts it and, before the request budget or an
      probe that cannot be made, it holds a step of each kind it is asked about. */
  lemma CanPassExactly(run: Run, w: World, candidate: AttackPlan)
    requires SeedlessRun(run, candidate) && run.lab.registry == DefaultRegistry()
    requires SoundLab(run.lab, run.plan.steps)
    requires PlanPassable(run.lab, run.authorization, run.plan, w)
    ensures (exists env: Env ::
               env.tokens == run.lab.env.tokens && RunPlan(InEnv(run, env), w).finding.verdict == Pass) <==>
      PlanAccepted(run.lab.gate, run.lab.env.tokens(w.tokenReads), run.plan, run.authorization) && Covered(run)
  {
    hide RunPlan, ExecutePlan, PlanAccepted, PlanPassable, CoveredBy, GoodReplies, DefaultRegistry, DefaultOracles;
    if env: Env :| env.tokens == run.lab.env.tokens && RunPlan(InEnv(run, env), w).finding.verdict == Pass {
      var other := InEnv(run, env);
      LabRunPasses(other, w, candidate);
      PlanBounded(other.lab, run.authorization, run.plan, w);
      var done := |ExecutePlan(other.lab, run.authorization, run.plan, w).world.calls| - |w.calls|;
      GoodRepliesCover(other, |w.calls|, done);
      SameCover(run, env, done);
      if !PlanAccepted(run.lab.gate, run.lab.env.tokens(w.tokenReads), run.plan, run.authorization) {
        RefusedHasNoEffect(other.lab, run.authorization, run.plan, w);
      }
    }
    if PlanAccepted(run.lab.gate, run.lab.env.tokens(w.tokenReads), run.plan, run.authorization) && Covered(run) {
      var done :| CoveredBy(run, done);
      CoverNotEmpty(run, done);
      FriendlyPasses(run, w, candidate, done);
      assert Friendly(run, w, done).tokens == run.lab.env.tokens;
    }
  }

  lemma SameCover(run: Run, env: Env, done: nat)
    ensures CoveredBy(InEnv(run, env), done) <==> CoveredBy(run, done)
  {
  }
}
