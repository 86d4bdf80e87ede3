/** The curated denial plan, from adapter replies to the final verdict. */
module Catalog {
  import opened JsonValues
  import opened Models
  import opened Tools
  import opened Safety
  import opened Oracles
  import opened Executor
  import opened Coordination

  const MARKER := "HERACLITUS_REDTEAM_SYNTHETIC_MARKER"

  datatype LabTargets = LabTargets(upstream: string, gateway: string)

  const DENIED: set<int> := {400, 403, 404, 405, 422}

  function CounterStep(targets: LabTargets, operation: string, id: string): AttackStep {
    AttackStep(id, "upstream_counter", targets.upstream, operation,
               [Field("method", Str("GET")), Field("path", Str("/hits"))], None, false, ["oracle", operation])
  }

  function DenialStep(targets: LabTargets, toolName: string, arguments: seq<Field>, id: string): AttackStep {
    var request := Obj([
      Field("jsonrpc", Str("2.0")), Field("id", Str(MARKER)), Field("method", Str("tools/call")),
      Field("params", Obj([Field("name", Str(toolName)), Field("arguments", Obj(arguments))]))]);
    AttackStep(id, "mcp_call", targets.gateway, "deny-probe",
               [Field("method", Str("POST")), Field("path", Str("/mcp")), Field("message", request)],
               None, false, ["curated", "policy-deny", "synthetic"])
  }

  function DenialMetadata(): seq<Field> {
    [Field("expected_statuses", Ints([400, 403, 404, 405, 422])),
     Field("inconclusive_statuses", Ints([401])),
     Field("status_tools", Arr([Str("mcp_call")])),
     Field("unexpected_status_is_vulnerability", Bool(true)),
     Field("synthetic_only", Bool(true))]
  }

  /** `_mcp_denial_plan`: counter, denied call, counter */
  function DenialPlan(targets: LabTargets, title: string, toolName: string, arguments: seq<Field>,
                      ids: NewIds): AttackPlan {
    AttackPlan(
      ids.plan, None, title,
      "A call outside the policy is denied and has no effect on the synthetic upstream.", Elevated,
      [CounterStep(targets, "before", ids.step(0)), DenialStep(targets, toolName, arguments, ids.step(1)),
       CounterStep(targets, "after", ids.step(2))],
      ["http_status", "upstream_zero"],
      DenialMetadata())
  }

  // ----- the requests of the plan -----

  function DenialCall(toolName: string, arguments: seq<Field>): seq<Field> {
    [Field("jsonrpc", Str("2.0")), Field("id", Str("HERACLITUS_REDTEAM_SYNTHETIC_MARKER")),
     Field("method", Str("tools/call")),
     Field("params", Obj([Field("name", Str(toolName)), Field("arguments", Obj(arguments))]))]
  }

  lemma CounterStepArguments(targets: LabTargets, operation: string, id: string)
    ensures var step := CounterStep(targets, operation, id);
      && step.tool == "upstream_counter" && step.target == targets.upstream && !step.destructive
      && Get(step.arguments, "method") == Some(Str("GET")) && Get(step.arguments, "path") == Some(Str("/hits"))
      && Get(step.arguments, "body") == None && Get(step.arguments, "message") == None
  {
    var a := CounterStep(targets, operation, id).arguments;
    hide Get;
    assert a[0].key == "method" && a[1].key == "path";
    GetOfDistinct(a, 0);
    GetOfDistinct(a, 1);
    GetIsMember(a, "body");
    GetIsMember(a, "message");
  }

  lemma DenialStepArguments(targets: LabTargets, toolName: string, arguments: seq<Field>, id: string)
    ensures var step := DenialStep(targets, toolName, arguments, id);
      && step.tool == "mcp_call" && step.target == targets.gateway && !step.destructive
      && Get(step.arguments, "method") == Some(Str("POST")) && Get(step.arguments, "path") == Some(Str("/mcp"))
      && Get(step.arguments, "body") == None
      && Get(step.arguments, "message") == Some(Obj(DenialCall(toolName, arguments)))
  {
    var a := DenialStep(targets, toolName, arguments, id).arguments;
    hide Get;
    assert a[0].key == "method" && a[1].key == "path" && a[2].key == "message";
    GetOfDistinct(a, 0);
    GetOfDistinct(a, 1);
    GetOfDistinct(a, 2);
    GetIsMember(a, "body");
  }

  lemma CounterOnTheWire(targets: LabTargets, operation: string, id: string)
    ensures BuildRequest(CounterStep(targets, operation, id)) == Request("GET", "/hits", None)
  {
    CounterStepArguments(targets, operation, id);
    assert Upper("GET") == "GET";
    hide Get, CounterStep, Upper, BuildRequest;
    RequestExact(CounterStep(targets, operation, id));
  }

  lemma CallOnTheWire(targets: LabTargets, toolName: string, arguments: seq<Field>, id: string)
    ensures BuildRequest(DenialStep(targets, toolName, arguments, id))
         == Request("POST", "/mcp", Some(Obj(DenialCall(toolName, arguments))))
  {
    DenialStepArguments(targets, toolName, arguments, id);
    assert Upper("POST") == "POST";
    hide Get, DenialStep, DenialCall, Upper, BuildRequest;
    RequestExact(DenialStep(targets, toolName, arguments, id));
  }

  /** On the wire the plan reads the counter of the upstream before and after one JSON-RPC call of the tool. */
  lemma DenialOnTheWire(targets: LabTargets, toolName: string, arguments: seq<Field>, title: string, ids: NewIds)
    ensures var s := DenialPlan(targets, title, toolName, arguments, ids).steps;
      && |s| == 3 && (forall i :: 0 <= i < 3 ==> s[i].tool in HTTP_TOOLS)
      && s[0].target == s[2].target == targets.upstream && s[1].target == targets.gateway
      && BuildRequest(s[0]) == BuildRequest(s[2]) == Request("GET", "/hits", None)
      && BuildRequest(s[1]) == Request("POST", "/mcp", Some(Obj(DenialCall(toolName, arguments))))
  {
    CounterOnTheWire(targets, "before", ids.step(0));
    CounterOnTheWire(targets, "after", ids.step(2));
    CallOnTheWire(targets, toolName, arguments, ids.step(1));
    hide DenialCall, DenialMetadata, BuildRequest;
  }

  lemma DenialCallExact(toolName: string, arguments: seq<Field>)
    ensures SyntheticCall(Obj(DenialCall(toolName, arguments))) <==>
      && toolName == "heraclitus_redteam_forbidden_probe"
      && Get(arguments, "marker") == Some(Str("HERACLITUS_REDTEAM_SYNTHETIC_MARKER"))
  {
    var call := DenialCall(toolName, arguments);
    var params := call[3].value.fields;
    hide Get;
    assert call[0].key == "jsonrpc" && call[1].key == "id" && call[2].key == "method" && call[3].key == "params";
    assert params[0].key == "name" && params[1].key == "arguments";
    GetOfDistinct(call, 0);
    GetOfDistinct(call, 2);
    GetOfDistinct(call, 3);
    GetOfDistinct(params, 0);
    GetOfDistinct(params, 1);
  }

  lemma CounterNeedsNone(lib: Library, targets: LabTargets, operation: string, id: string)
    ensures !StepRequiresAuthorization(lib, CounterStep(targets, operation, id))
  {
    CounterStepArguments(targets, operation, id);
    assert Upper("GET") == "GET";
    hide Get, CounterStep, Upper, SafeSyntheticPost;
  }

  lemma CallNeedsNone(lib: Library, targets: LabTargets, toolName: string, arguments: seq<Field>, id: string)
    ensures !StepRequiresAuthorization(lib, DenialStep(targets, toolName, arguments, id)) <==>
      SyntheticCall(Obj(DenialCall(toolName, arguments)))
  {
    DenialStepArguments(targets, toolName, arguments, id);
    assert Upper("POST") == "POST";
    hide Get, DenialStep, DenialCall, Upper, SyntheticCall;
  }

  /** It needs no authorization exactly if it calls the forbidden synthetic tool with the marker. */
  lemma DenialNeedsNone(lib: Library, targets: LabTargets, toolName: string, arguments: seq<Field>, title: string,
                        ids: NewIds)
    ensures !PlanRequiresAuthorization(lib, DenialPlan(targets, title, toolName, arguments, ids)) <==>
      && toolName == "heraclitus_redteam_forbidden_probe"
      && Get(arguments, "marker") == Some(Str("HERACLITUS_REDTEAM_SYNTHETIC_MARKER"))
  {
    hide CounterStep, DenialStep, DenialCall, SyntheticCall, StepRequiresAuthorization, DenialMetadata, Get;
    CounterNeedsNone(lib, targets, "before", ids.step(0));
    CounterNeedsNone(lib, targets, "after", ids.step(2));
    CallNeedsNone(lib, targets, toolName, arguments, ids.step(1));
    DenialCallExact(toolName, arguments);
    var plan := DenialPlan(targets, title, toolName, arguments, ids);
    assert plan.steps[1] == DenialStep(targets, toolName, arguments, ids.step(1));
  }

  // ----- the contract, as the two oracles read it -----

  ghost predicate DenialContract(plan: AttackPlan) {
    && plan.oracleIds == ["http_status", "upstream_zero"]
    && Get(plan.metadata, "expected_statuses") == Some(Ints([400, 403, 404, 405, 422]))
    && Get(plan.metadata, "inconclusive_statuses") == Some(Ints([401]))
    && Get(plan.metadata, "status_tools") == Some(Arr([Str("mcp_call")]))
    && Get(plan.metadata, "unexpected_status_is_vulnerability") == Some(Bool(true))
    && Get(plan.metadata, "diagnostic_only").None?
    && |plan.steps| == 3
    && plan.steps[0].tool == plan.steps[2].tool == "upstream_counter"
    && plan.steps[1].tool == "mcp_call"
    && forall k :: 0 <= k < 3 ==> !Endless(plan.steps[k])
  }

  lemma BoundDenialContract(targets: LabTargets, title: string, toolName: string, arguments: seq<Field>, own: NewIds,
                            campaign: string, ids: NewIds)
    ensures DenialContract(BindPlan(DenialPlan(targets, title, toolName, arguments, own), campaign, ids))
  {
    BoundDenialMetadata(Str(own.plan));
    hide DenialMetadata, Ints, PutDefault, Get;
    var bound := BindPlan(DenialPlan(targets, title, toolName, arguments, own), campaign, ids);
    assert bound.metadata == PutDefault(DenialMetadata(), "proposed_plan_id", Str(own.plan));
  }

  lemma BoundDenialMetadata(proposed: Json)
    ensures var m := PutDefault(DenialMetadata(), "proposed_plan_id", proposed);
      && Get(m, "expected_statuses") == Some(Ints([400, 403, 404, 405, 422]))
      && Get(m, "inconclusive_statuses") == Some(Ints([401]))
      && Get(m, "status_tools") == Some(Arr([Str("mcp_call")]))
      && Get(m, "unexpected_status_is_vulnerability") == Some(Bool(true))
      && Get(m, "diagnostic_only").None?
  {
    hide Get, Put;
    var d := DenialMetadata();
    GetIsMember(d, "diagnostic_only");
    GetPut(d, "proposed_plan_id", proposed, "diagnostic_only");
    forall i | 0 <= i < 4
      ensures Get(PutDefault(d, "proposed_plan_id", proposed), d[i].key) == Some(d[i].value)
    {
      GetOfDistinct(d, i);
      GetPut(d, "proposed_plan_id", proposed, d[i].key);
    }
    hide PutDefault;
    assert d[0].key == "expected_statuses" && d[1].key == "inconclusive_statuses" && d[2].key == "status_tools"
        && d[3].key == "unexpected_status_is_vulnerability";
  }

  lemma DenialSets(plan: AttackPlan)
    requires DenialContract(plan)
    ensures IntSet(Ints([400, 403, 404, 405, 422]).items) == Some(DENIED)
    ensures IntSet(Ints([401]).items) == Some({401})
    ensures StatusTools(plan) == Some({"mcp_call"})
  {
    hide IntSet;
    var raw := [400, 403, 404, 405, 422];
    IntSetOfInts(raw);
    IntSetOfInts([401]);
    assert (set v | v in raw) == DENIED;
    assert (set v | v in [401]) == {401};
    var items := [Str("mcp_call")];
    var names := set item | item in items :: PyText(item);
    assert PyText(items[0]) == "mcp_call" && items[0] in items;
    assert names == {"mcp_call"};
  }

  /** What the status oracle says of the mcp_call statuses it saw. */
  lemma DenialStatus(plan: AttackPlan, observations: seq<Observation>)
    requires DenialContract(plan)
    ensures var seen := Statuses(observations, Some({"mcp_call"}));
      HttpStatus(plan, observations) ==
        if seen == [] then Judged("http_status", Inconclusive, None)
        else Judged("http_status",
                    if 401 in seen then Inconclusive
                    else if forall s :: s in seen ==> s in DENIED then Pass else Vulnerable,
                    Some(Ints(seen)))
  {
    hide IntSet, Statuses, StatusTools, Judged;
    DenialSets(plan);
    var seen := Statuses(observations, Some({"mcp_call"}));
    assert (exists i :: 0 <= i < |seen| && seen[i] in {401}) <==> 401 in seen;
    assert (forall i :: 0 <= i < |seen| ==> seen[i] in DENIED) <==> (forall s :: s in seen ==> s in DENIED);
  }

  // ----- one trial -----

  /** The three replies of an attempt that was not cut short. */
  datatype Trial = Trial(status: Option<int>, before: Option<nat>, after: Option<nat>)

  /** The attempt exercised the invariant: answered, authenticated, counted twice without regression. */
  predicate Conclusive(t: Trial) {
    && t.status.Some? && t.status.value != 401
    && t.before.Some? && t.after.Some? && t.before.value <= t.after.value
  }

  function Delta(t: Trial): int
    requires t.before.Some? && t.after.Some?
  {
    t.after.value - t.before.value
  }

  function StatusOf(raw: Raw): Option<int> {
    match raw
    case Reply(status, _, _, _, _) => Some(status)
    case NoReply => None
  }

  /** The k-th attempt in terms of the environment's replies; `None` if it did not make all three calls. */
  function TrialAt(run: Run, w: World, k: nat): Option<Trial> {
    var n := |WorldAfter(run, w, k).calls|;
    if Attempt(run, w, k).Ran? && |WorldAfter(run, w, k + 1).calls| == n + 3 then
      Some(Trial(StatusOf(run.lab.env.reply(n + 1)), CounterOf(run.lab.env.reply(n)),
                 CounterOf(run.lab.env.reply(n + 2))))
    else None
  }

  function TrialObservations(plan: AttackPlan, raw0: Raw, raw1: Raw, raw2: Raw): seq<Observation>
    requires |plan.steps| == 3
  {
    [ObserveCounter(plan.steps[0], Verb(plan.steps[0], "GET"), raw0),
     ObserveHttp(plan.steps[1], Verb(plan.steps[1], "POST"), raw1),
     ObserveCounter(plan.steps[2], Verb(plan.steps[2], "GET"), raw2)]
  }

  lemma CounterSeen(step: AttackStep, verb: string, raw: Raw)
    ensures Counter(ObserveCounter(step, verb, raw)) == CounterOf(raw)
    ensures Counter(ObserveHttp(step, verb, raw)) == None
    ensures Counter(CutShort(step, verb)) == None
  {
    var seen := ObserveHttp(step, verb, raw);
    var value := match CounterOf(raw) case Some(n) => Int(n) case None => Null;
    var names := ["counter", "upstream_count", "hits"];
    forall i | 0 <= i < 3
      ensures Get(seen.evidence, names[i]) == None
      ensures Get(Put(seen.evidence, "counter", value), names[i]) == if i == 0 then Some(value) else None
    {
      GetIsMember(seen.evidence, names[i]);
      GetPut(seen.evidence, "counter", value, names[i]);
    }
    assert names[0] == "counter" && names[1] == "upstream_count" && names[2] == "hits";
  }

  /** Statuses and counters of a complete trial. */
  lemma TrialSeen(plan: AttackPlan, raw0: Raw, raw1: Raw, raw2: Raw)
    requires DenialContract(plan)
    ensures var o := TrialObservations(plan, raw0, raw1, raw2);
      && Statuses(o, Some({"mcp_call"})) == (match StatusOf(raw1) case Some(s) => [s] case None => [])
      && Counters(o) == (match CounterOf(raw0) case Some(c) => [c] case None => [])
                        + (match CounterOf(raw2) case Some(c) => [c] case None => [])
  {
    hide Counter, CounterOf, Verb;
    var o := TrialObservations(plan, raw0, raw1, raw2);
    CounterSeen(plan.steps[0], Verb(plan.steps[0], "GET"), raw0);
    CounterSeen(plan.steps[1], Verb(plan.steps[1], "POST"), raw1);
    CounterSeen(plan.steps[2], Verb(plan.steps[2], "GET"), raw2);
    assert o[0].tool == o[2].tool == "upstream_counter" && o[1].tool == "mcp_call" && o[1].status == StatusOf(raw1);
    hide TrialObservations, ObserveCounter, ObserveHttp, StatusOf, DenialContract;
    ThreeSeen(o);
  }

  lemma ThreeSeen(o: seq<Observation>)
    requires |o| == 3 && o[0].tool == o[2].tool == "upstream_counter" && o[1].tool == "mcp_call" && Counter(o[1]).None?
    ensures Statuses(o, Some({"mcp_call"})) == (match o[1].status case Some(s) => [s] case None => [])
    ensures Counters(o) == (match Counter(o[0]) case Some(c) => [c] case None => [])
                           + (match Counter(o[2]) case Some(c) => [c] case None => [])
  {
    hide Counter;
    assert o[1..] == [o[1], o[2]] && o[1..][1..] == [o[2]] && o[1..][1..][1..] == [];
    UnfoldStatuses(o, Some({"mcp_call"}));
    UnfoldStatuses(o[1..], Some({"mcp_call"}));
    UnfoldStatuses(o[1..][1..], Some({"mcp_call"}));
    UnfoldCounters(o);
    UnfoldCounters(o[1..]);
    UnfoldCounters(o[1..][1..]);
  }

  lemma UnfoldStatuses(o: seq<Observation>, tools: Option<set<string>>)
    requires o != []
    ensures Statuses(o, tools)
         == (if o[0].status.Some? && (tools.None? || o[0].tool in tools.value) then [o[0].status.value] else [])
           + Statuses(o[1..], tools)
  {
  }

  lemma UnfoldCounters(o: seq<Observation>)
    requires o != []
    ensures Counters(o) == (match Counter(o[0]) case Some(n) => [n] case None => []) + Counters(o[1..])
  {
  }

  function Verb(step: AttackStep, default: string): string {
    Upper(PyText(GetOr(step.arguments, "method", Str(default))))
  }

  /** The two results of a trial, and the failure keys they carry. */
  function TrialResults(t: Trial): seq<OracleResult> {
    [match t.status
     case None => Judged("http_status", Inconclusive, None)
     case Some(s) =>
       Judged("http_status",
              if s == 401 then Inconclusive else if s in DENIED then Pass else Vulnerable, Some(Ints([s]))),
     if t.before.None? || t.after.None? then Judged("upstream_zero", Inconclusive, None)
     else if Delta(t) < 0 then Judged("upstream_zero", Inconclusive, Some(Ints([t.before.value, t.after.value])))
     else Judged("upstream_zero", if Delta(t) == 0 then Pass else Vulnerable, Some(DeltaEvidence(Delta(t))))]
  }

  lemma TrialEvaluated(plan: AttackPlan, raw0: Raw, raw1: Raw, raw2: Raw)
    requires DenialContract(plan)
    ensures Evaluate(DefaultOracles(), plan, TrialObservations(plan, raw0, raw1, raw2))
         == TrialResults(Trial(StatusOf(raw1), CounterOf(raw0), CounterOf(raw2)))
  {
    hide HttpStatus, Statuses, Counters, CounterOf, TrialObservations, Evaluate, DefaultOracles;
    var o := TrialObservations(plan, raw0, raw1, raw2);
    var t := Trial(StatusOf(raw1), CounterOf(raw0), CounterOf(raw2));
    TrialSeen(plan, raw0, raw1, raw2);
    DenialStatus(plan, o);
    TwoResults(plan, o);
    var seen := Statuses(o, Some({"mcp_call"}));
    if t.status.Some? {
      assert seen == [t.status.value];
      assert (forall s :: s in seen ==> s in DENIED) <==> t.status.value in DENIED;
    } else {
      assert seen == [];
    }
    assert HttpStatus(plan, o) == TrialResults(t)[0];
    var counters := Counters(o);
    if t.before.Some? && t.after.Some? {
      assert counters == [t.before.value, t.after.value];
    } else {
      assert |counters| < 2;
    }
    assert UpstreamEffect(plan, o) == TrialResults(t)[1];
  }

  lemma OracleIdsMatch(plan: AttackPlan, o: seq<Observation>)
    ensures HttpStatus(plan, o).oracleId == "http_status"
    ensures UpstreamEffect(plan, o).oracleId == "upstream_zero"
  {
    hide IntSet, PyIter, Statuses, Counters;
  }

  lemma TwoResults(plan: AttackPlan, o: seq<Observation>)
    requires plan.oracleIds == ["http_status", "upstream_zero"]
    ensures Evaluate(DefaultOracles(), plan, o) == [HttpStatus(plan, o), UpstreamEffect(plan, o)]
  {
    hide HttpStatus, UpstreamEffect;
    OracleIdsMatch(plan, o);
    assert EvaluateOne(DefaultOracles(), "http_status", plan, o) == HttpStatus(plan, o);
    assert EvaluateOne(DefaultOracles(), "upstream_zero", plan, o) == UpstreamEffect(plan, o);
  }

  /** The typed failures of a conclusive trial. */
  predicate TrialKey(t: Trial, key: Key)
    requires Conclusive(t)
  {
    || (key == ("http_status", Digest(Ints([t.status.value]))) && t.status.value !in DENIED)
    || (key == ("upstream_zero", Digest(DeltaEvidence(Delta(t)))) && Delta(t) > 0)
  }

  /** Verdict and keys of a trial: it passes, fails or stays open by three facts about the replies. */
  lemma TrialVerdict(t: Trial)
    ensures var v := BaseVerdict(TrialResults(t));
      && (v == Pass <==> Conclusive(t) && t.status.value in DENIED && Delta(t) == 0)
      && (v == Fail <==> Conclusive(t) && !(t.status.value in DENIED && Delta(t) == 0))
      && (v == Inconclusive <==> !Conclusive(t))
    ensures Conclusive(t) ==> forall key :: key in FailureKeys(TrialResults(t)) <==> TrialKey(t, key)
  {
    var results := TrialResults(t);
    assert results[0] in results && results[1] in results;
    assert forall r :: r in results ==> r == results[0] || r == results[1];
  }

  lemma OpenPair(a: OracleResult, b: OracleResult)
    requires Error !in {a.verdict, b.verdict} && Inconclusive in {a.verdict, b.verdict}
    ensures BaseVerdict([a, b]) == Inconclusive
  {
    var results := [a, b];
    assert results[0] in results && results[1] in results;
  }

  // ----- an attempt in the laboratory -----

  ghost predicate DenialRun(run: Run) {
    DenialContract(run.plan) && run.oracles == DefaultOracles() && run.lab.registry == DefaultRegistry()
  }

  /** Calls made by attempt `k` */
  function CallsAt(run: Run, w: World, k: nat): int {
    |WorldAfter(run, w, k + 1).calls| - |WorldAfter(run, w, k).calls|
  }

  lemma AttemptShape(run: Run, w: World, k: nat)
    requires Attempt(run, w, k).Ran?
    ensures ObservedShape(run.lab, run.plan.steps, |WorldAfter(run, w, k).calls|, CallsAt(run, w, k),
                          Attempt(run, w, k).observations)
  {
    hide ExecutePlan, ObservedShape;
    PlanObserved(run.lab, run.authorization, run.plan, WorldAfter(run, w, k));
  }

  /** An attempt stopped by a budget leaves the status or one counter unseen. */
  lemma CutEvaluated(run: Run, w: World, k: nat)
    requires DenialRun(run)
    requires Attempt(run, w, k).Ran? && TrialAt(run, w, k).None?
    ensures BaseVerdict(ResultsAt(run, w, k)) == Inconclusive
  {
    hide Attempt, WorldAfter, Evaluate, BaseVerdict, HttpStatus, Statuses, Counters, DefaultOracles, DefaultRegistry;
    var o := Attempt(run, w, k).observations;
    AttemptShape(run, w, k);
    CutObservations(run.lab, run.plan, |WorldAfter(run, w, k).calls|, CallsAt(run, w, k), o);
    TwoResults(run.plan, o);
    DenialStatus(run.plan, o);
    OpenPair(HttpStatus(run.plan, o), UpstreamEffect(run.plan, o));
  }

  lemma CutObservations(lab: Lab, plan: AttackPlan, first: nat, done: int, o: seq<Observation>)
    requires DenialContract(plan) && lab.registry == DefaultRegistry()
    requires ObservedShape(lab, plan.steps, first, done, o) && done != 3
    ensures Statuses(o, Some({"mcp_call"})) == [] || |Counters(o)| < 2
  {
    hide Counter, CounterOf, Verb, Get;
    var cut := o[done];
    assert cut.status.None? && cut == CutShort(plan.steps[done], cut.error.value);
    CounterSeen(plan.steps[done], cut.error.value, NoReply);
    if done == 0 {
      assert o[1..] == [];
      UnfoldStatuses(o, Some({"mcp_call"}));
    } else if done == 1 {
      CounterStepSilent(lab, plan.steps[0], first);
      assert o[1..] == [cut] && o[1..][1..] == [];
      UnfoldStatuses(o, Some({"mcp_call"}));
      UnfoldStatuses(o[1..], Some({"mcp_call"}));
    } else {
      McpStepCountless(lab, plan.steps[1], first + 1);
      assert o[1..] == [o[1], cut] && o[1..][1..] == [cut] && o[1..][1..][1..] == [];
      UnfoldCounters(o);
      UnfoldCounters(o[1..]);
      UnfoldCounters(o[1..][1..]);
    }
  }

  lemma CounterStepSilent(lab: Lab, step: AttackStep, n: nat)
    requires lab.registry == DefaultRegistry() && step.tool == "upstream_counter" && !Endless(step)
    ensures ObservedBy(lab, step, n).tool == "upstream_counter"
  {
    assert ObservedBy(lab, step, n) == ObserveCounter(step, Verb(step, "GET"), lab.env.reply(n));
    hide CounterOf, Verb;
  }

  lemma McpStepCountless(lab: Lab, step: AttackStep, n: nat)
    requires lab.registry == DefaultRegistry() && step.tool == "mcp_call" && !Endless(step)
    ensures Counter(ObservedBy(lab, step, n)).None?
  {
    assert ObservedBy(lab, step, n) == ObserveHttp(step, Verb(step, "POST"), lab.env.reply(n));
    CounterSeen(step, Verb(step, "POST"), lab.env.reply(n));
    hide ObserveHttp, Verb, Counter, CounterOf;
  }

  /** The results of an uncut attempt, in terms of the environment. */
  lemma AttemptEvaluated(run: Run, w: World, k: nat)
    requires DenialRun(run)
    requires TrialAt(run, w, k).Some?
    ensures Attempt(run, w, k).Ran? && ResultsAt(run, w, k) == TrialResults(TrialAt(run, w, k).value)
  {
    hide Attempt, WorldAfter, Evaluate, DefaultOracles, DefaultRegistry, TrialResults, StatusOf, CounterOf;
    var n := |WorldAfter(run, w, k).calls|;
    AttemptShape(run, w, k);
    ThreeObservations(run.lab, run.plan, n, Attempt(run, w, k).observations);
    TrialEvaluated(run.plan, run.lab.env.reply(n), run.lab.env.reply(n + 1), run.lab.env.reply(n + 2));
  }

  lemma ThreeObservations(lab: Lab, plan: AttackPlan, first: nat, o: seq<Observation>)
    requires DenialContract(plan) && lab.registry == DefaultRegistry()
    requires ObservedShape(lab, plan.steps, first, 3, o)
    ensures o == TrialObservations(plan, lab.env.reply(first), lab.env.reply(first + 1), lab.env.reply(first + 2))
  {
    hide ObserveCounter, ObserveHttp, Upper, PyText;
    assert o[0] == ObservedBy(lab, plan.steps[0], first + 0);
    assert o[1] == ObservedBy(lab, plan.steps[1], first + 1);
    assert o[2] == ObservedBy(lab, plan.steps[2], first + 2);
  }

  // ----- end to end -----

  predicate ConclusiveAt(run: Run, w: World, k: nat) {
    TrialAt(run, w, k).Some? && Conclusive(TrialAt(run, w, k).value)
  }

  /** The same positive counter delta in each of the first `n` attempts. */
  ghost predicate SameDelta(run: Run, w: World, n: nat, delta: int) {
    delta > 0 && forall k :: 0 <= k < n ==> ConclusiveAt(run, w, k) && Delta(TrialAt(run, w, k).value) == delta
  }

  /** The same unexpected status in each of the first `n` attempts. */
  ghost predicate SameStatus(run: Run, w: World, n: nat, status: int) {
    status !in DENIED && forall k :: 0 <= k < n ==>
      ConclusiveAt(run, w, k) && TrialAt(run, w, k).value.status.value == status
  }

  /** Attempt `k` in one stroke: rejected, cut short, or judged by its trial. */
  lemma AttemptVerdict(run: Run, w: World, k: nat)
    requires DenialRun(run)
    ensures var v := BaseVerdict(ResultsAt(run, w, k));
      Attempt(run, w, k).Ran? ==>
        && (v == Pass <==>
              ConclusiveAt(run, w, k) && TrialAt(run, w, k).value.status.value in DENIED
                && Delta(TrialAt(run, w, k).value) == 0)
        && (v == Fail ==> ConclusiveAt(run, w, k))
        && (v == Fail || v == Pass || v == Inconclusive)
        && (v != Pass && ConclusiveAt(run, w, k) ==> v == Fail)
    ensures ConclusiveAt(run, w, k) ==> Attempt(run, w, k).Ran?
    ensures ConclusiveAt(run, w, k) ==>
      forall key :: key in FailureKeys(ResultsAt(run, w, k)) <==> TrialKey(TrialAt(run, w, k).value, key)
  {
    hide Attempt, ResultsAt, BaseVerdict, FailureKeys, TrialResults, TrialAt, DenialRun, TrialKey;
    if TrialAt(run, w, k).Some? {
      AttemptEvaluated(run, w, k);
      TrialVerdict(TrialAt(run, w, k).value);
    } else if Attempt(run, w, k).Ran? {
      CutEvaluated(run, w, k);
    }
  }

  lemma FailsWithExactly(run: Run, w: World, k: nat, key: Key)
    requires DenialRun(run)
    ensures FailsWith(run, w, k, key) <==> ConclusiveAt(run, w, k) && TrialKey(TrialAt(run, w, k).value, key)
  {
    hide Attempt, ResultsAt, BaseVerdict, FailureKeys, TrialAt, DenialRun;
    AttemptVerdict(run, w, k);
  }

  lemma IntsInjective(a: int, b: int)
    requires Ints([a]) == Ints([b])
    ensures a == b
  {
    assert Ints([a]).items[0] == Int(a) && Ints([b]).items[0] == Int(b);
  }

  lemma ReproducedExactly(run: Run, w: World, n: nat)
    requires n >= 1 && DenialRun(run)
    ensures Reproduced(run, w, n) <==> (exists d :: SameDelta(run, w, n, d)) || (exists s :: SameStatus(run, w, n, s))
  {
    hide FailsWith, TrialAt, DenialRun;
    forall k: nat, key: Key
      ensures FailsWith(run, w, k, key) <==> ConclusiveAt(run, w, k) && TrialKey(TrialAt(run, w, k).value, key)
    {
      FailsWithExactly(run, w, k, key);
    }
    if d :| SameDelta(run, w, n, d) {
      assert FailsThroughout(run, w, n, ("upstream_zero", Digest(DeltaEvidence(d))));
    }
    if s :| SameStatus(run, w, n, s) {
      assert FailsThroughout(run, w, n, ("http_status", Digest(Ints([s]))));
    }
    if key :| FailsThroughout(run, w, n, key) {
      assert FailsWith(run, w, 0, key);
      var t := TrialAt(run, w, 0).value;
      if key.0 == "http_status" {
        forall k | 0 <= k < n
          ensures ConclusiveAt(run, w, k) && TrialAt(run, w, k).value.status.value == t.status.value
        {
          assert FailsWith(run, w, k, key);
          IntsInjective(TrialAt(run, w, k).value.status.value, t.status.value);
        }
        assert SameStatus(run, w, n, t.status.value);
      } else {
        forall k | 0 <= k < n
          ensures ConclusiveAt(run, w, k) && Delta(TrialAt(run, w, k).value) == Delta(t)
        {
          assert FailsWith(run, w, k, key);
          DeltaInjective(Delta(TrialAt(run, w, k).value), Delta(t));
        }
        assert SameDelta(run, w, n, Delta(t));
      }
    }
  }

  lemma DeltaInjective(a: int, b: int)
    requires DeltaEvidence(a) == DeltaEvidence(b)
    ensures a == b
  {
    assert DeltaEvidence(a).fields[0] == DeltaEvidence(b).fields[0];
  }

  lemma NothingMissing(run: Run)
    requires DenialRun(run)
    ensures Missing(run.oracles, run.plan.oracleIds) == []
  {
    var ids := run.plan.oracleIds;
    assert ids[0] in run.oracles && ids[1] in run.oracles;
    assert ids[1..] == [ids[1]] && ids[1..][1..] == [];
    assert Missing(run.oracles, ids[1..][1..]) == [];
    assert Missing(run.oracles, ids[1..]) == [];
  }

  /** End to end: the denial plan is vulnerable if and only if every required attempt makes all three
      calls, is answered without a 401, counts twice without regression, and all attempts show the
      same positive delta or all show the same unexpected status. */
  lemma DenialVulnerable(run: Run, w: World)
    requires run.required >= 1 && DenialRun(run)
    ensures RunPlan(run, w).finding.verdict == Vulnerable <==>
      (exists d :: SameDelta(run, w, run.required, d)) || (exists s :: SameStatus(run, w, run.required, s))
  {
    hide RunPlan, SameDelta, SameStatus, Reproduced, DenialRun;
    ExactPromotion(run, w);
    ReproducedExactly(run, w, run.required);
    NothingMissing(run);
  }

  /** The plan passes if and only if its one attempt is conclusive, denied, and without effect; an
      attempt cut short by a budget passes never. */
  lemma DenialPasses(run: Run, w: World)
    requires run.required >= 1 && DenialRun(run)
    ensures RunPlan(run, w).finding.verdict == Pass <==>
      && ConclusiveAt(run, w, 0)
      && TrialAt(run, w, 0).value.status.value in DENIED
      && Delta(TrialAt(run, w, 0).value) == 0
  {
    hide Attempt, ResultsAt, BaseVerdict, StablePrefix, AllResults, Missing, WorldAfter, DenialRun, TrialAt, Conclusive;
    NothingMissing(run);
    AttemptVerdict(run, w, 0);
  }

  /** A vulnerable denial plan made exactly three calls in each of its attempts. */
  lemma VulnerableCalls(run: Run, w: World)
    requires run.required >= 1 && DenialRun(run)
    requires RunPlan(run, w).finding.verdict == Vulnerable
    ensures |RunPlan(run, w).world.calls| == |w.calls| + 3 * run.required
  {
    hide DenialRun, TrialAt, Conclusive, ResultsAt, Missing, AllResults, WorldAfter, Attempt, SharedKeys;
    DenialVulnerable(run, w);
    assert forall k :: 0 <= k < run.required ==> ConclusiveAt(run, w, k);
    StablePrefixExact(run, w, run.required);
    CallsOfTrials(run, w, run.required);
  }

  lemma {:induction false} CallsOfTrials(run: Run, w: World, n: nat)
    requires forall k :: 0 <= k < n ==> ConclusiveAt(run, w, k)
    ensures |WorldAfter(run, w, n).calls| == |w.calls| + 3 * n
  {
    hide ExecutePlan;
    if n > 0 {
      CallsOfTrials(run, w, n - 1);
      assert ConclusiveAt(run, w, n - 1);
    }
  }
}
