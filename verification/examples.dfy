/** Concrete plans for results that say something can happen. */
module Examples {
  import opened JsonValues
  import opened Models
  import opened Targets
  import opened Safety
  import opened Tools
  import opened Oracles
  import opened Executor
  import opened Coordination
  import opened Pipeline
  import opened Seedless
  import opened Codec

  // ----- a laboratory with one local and one remote host -----

  const LOCAL := "127.0.0.1"
  const REMOTE := "10.0.0.1"

  function TcpTarget(host: string): string {
    host + ":" + Decimal(80)
  }

  /** The same local service as a URL with a final slash. */
  function SlashedTarget(): string {
    "http" + "://" + ((Bracketed(LOCAL) + ":" + Decimal(80)) + "/")
  }

  function Net(): Network {
    Network((h: string) => h == LOCAL, (h: string) => h == REMOTE)
  }

  function Lib(): Library {
    Library(Net(), (fields: seq<Field>) => 0, (text: string) => false, (path: string) => false,
            (path: string) => Some([]))
  }

  const SETTINGS := SafetyConfig({"tcp_probe"}, {}, false, true, [REMOTE], false)
  const LIMITS := Budgets(1, 2, 2, 1, 1.0, 1.0, 1.0, 1)

  function OriginOf(target: string): string {
    match CanonicalTarget(target)
    case Some(c) => c
    case None => ""
  }

  function LabGate(): Gate {
    Gate(Config(LIMITS, SETTINGS), Lib(),
         {OriginOf(TcpTarget(LOCAL)), OriginOf(TcpTarget(REMOTE)), OriginOf(SlashedTarget())})
  }

  /** The token for remote hosts is set; everything is answered at once. */
  function QuietEnv(): Env {
    Env((n: nat) => Reply(200, "", None, 0, false), (n: nat) => 0.0, (n: nat) => 0.0,
        (n: nat) => Tokens(Some("token"), None))
  }

  function ExampleLab(): Lab {
    Lab(LabGate(), DefaultRegistry(), QuietEnv())
  }

  const START := World(0.0, 0, 0, [])

  function Probe(id: string, target: string, timeout: Option<Double>): AttackStep {
    AttackStep(id, "tcp_probe", target, "probe", [], timeout, false, [])
  }

  function PlanOf(steps: seq<AttackStep>): AttackPlan {
    AttackPlan("plan", Some("campaign"), "title", "hypothesis", Safe, steps, ["reachability"], [])
  }

  function RunOf(plan: AttackPlan): Run {
    Run(ExampleLab(), None, DefaultOracles(), plan, 1)
  }

  predicate DottedDigits(host: string) {
    && (forall i :: 0 <= i < |host| ==> IsDigit(host[i]) || host[i] == '.')
    && host != [] && IsDigit(host[0]) && IsDigit(host[|host| - 1])
  }

  lemma HostIsNormal(host: string)
    requires DottedDigits(host)
    ensures NormaliseHost(host) == host && PlainHost(host) && Lower(host) == host && ':' !in host
  {
    hide NormaliseHost;
    assert Lower(host) == host;
    NormaliseOnce(host);
  }

  lemma TargetsAllowed()
    ensures var gate := LabGate();
      && TargetAllowed(gate, TcpTarget(LOCAL)) && !IsRemoteTarget(gate.lib.net, TcpTarget(LOCAL))
      && TargetAllowed(gate, TcpTarget(REMOTE)) && IsRemoteTarget(gate.lib.net, TcpTarget(REMOTE))
      && TargetAllowed(gate, SlashedTarget()) && !IsRemoteTarget(gate.lib.net, SlashedTarget())
  {
    hide NormaliseHost, Split, Decimal, CanonicalOf, Bracketed, PlainHost;
    HostIsNormal(LOCAL);
    HostIsNormal(REMOTE);
    TcpText(LOCAL, 80);
    TcpText(REMOTE, 80);
    SplitSlashed("http", LOCAL, 80);
    assert SETTINGS.allowedRemoteHosts[0] == REMOTE;
  }

  /** A probe without arguments is accepted wherever its target is. */
  lemma ProbeAccepted(step: AttackStep, tokens: Tokens)
    requires step.tool == "tcp_probe" && step.arguments == []
    requires !TimeoutTooLong(step, LIMITS) && TargetAllowed(LabGate(), step.target)
    requires IsRemoteTarget(Net(), step.target) ==> tokens.remoteLab.Some?
    ensures StepAccepted(LabGate(), tokens, step)
  {
    hide TargetAllowed, IsRemoteTarget, TimeoutTooLong, OriginOf;
    assert NestedTargets(Obj(step.arguments)) == [];
    assert NestedValues(LabGate(), step) == [];
  }

  lemma ProbesAccepted(plan: AttackPlan)
    requires plan.risk == Safe && |plan.steps| <= 2
    requires forall k :: 0 <= k < |plan.steps| ==>
      && plan.steps[k].tool == "tcp_probe" && plan.steps[k].arguments == [] && !plan.steps[k].destructive
      && !TimeoutTooLong(plan.steps[k], LIMITS)
      && plan.steps[k].target in {TcpTarget(LOCAL), TcpTarget(REMOTE), SlashedTarget()}
    ensures PlanAccepted(LabGate(), QuietEnv().tokens(0), plan, None)
    ensures PlanPassable(ExampleLab(), None, plan, START)
  {
    hide TargetAllowed, IsRemoteTarget, TimeoutTooLong, StepAccepted, AuthorizationValid, OriginOf;
    TargetsAllowed();
    forall k | 0 <= k < |plan.steps| ensures StepAccepted(LabGate(), Tokens(Some("token"), None), plan.steps[k]) {
      ProbeAccepted(plan.steps[k], Tokens(Some("token"), None));
    }
    assert FixedTokens(QuietEnv());
    assert Served(ExampleLab(), plan);
    AcceptedStays(ExampleLab(), None, plan, START);
  }

  lemma NothingMissing(plan: AttackPlan)
    requires plan.oracleIds == ["reachability"]
    ensures Missing(DefaultOracles(), plan.oracleIds) == []
  {
    assert plan.oracleIds[1..] == [];
  }

  // ----- texts and numbers -----

  /** How Python reads and writes the texts that checks compare. */
  lemma Texts()
    ensures Upper("get") == "GET" && Lower("GeT") == "get" && NormalKey("Api-Key") == "api_key"
    ensures PyText(Bool(true)) == "True" && PyText(Null) == "None"
    ensures Decimal(0) == "0" && Decimal(443) == "443" && PyText(Int(-12)) == "-12"
    ensures ParseInt("42") == Some(42) && ParseInt("-7") == Some(-7)
    ensures ParseInt("4x").None? && ParseInt("").None?
    ensures PyInt(Float(Finite(-1.5))) == Some(-1) && PyInt(Float(Finite(1.5))) == Some(1)
    ensures PyInt(Bool(true)) == Some(1) && PyInt(Float(NotANumber)).None? && PyInt(Null).None?
  {
    assert Upper("get") == "GET" && Lower("GeT") == "get";
    assert Lower("Api-Key") == "api-key";
    assert NormalKey("Api-Key") == "api_key";
    Digits();
    assert "-7"[1..] == "7" && "4x"[1] == 'x' && "42"[..1] == "4" && "7"[..0] == "" && "4"[..0] == "";
    assert !IsSpace('4') && !IsSpace('2') && !IsSpace('-') && !IsSpace('7') && !IsSpace('x');
    assert (-1.5).Floor == -2 && (1.5).Floor == 1;
  }

  lemma Digits()
    ensures Decimal(0) == "0" && Decimal(443) == "443" && Decimal(12) == "12"
  {
    assert Decimal(4) == "4" && Decimal(44) == "44" && Decimal(1) == "1";
  }

  /** Where texts begin, end, and hold other texts. */
  lemma Parts()
    ensures StartsWith("http://x", "http://") && !StartsWith("ftp://x", "http://")
    ensures EndsWith("auth_token", "_token") && !EndsWith("token_x", "_token")
    ensures Contains("a canary b", "canary") && !Contains("abc", "cb")
    ensures Blank(" \t") && !Blank(" a")
    ensures RelativePath("/hits") && !RelativePath("hits") && !RelativePath("//evil/hits")
  {
    assert "auth_token"[4..] == "_token" && "token_x"[1..] == "oken_x";
    assert "a canary b"[2..][..6] == "canary";
    assert "cb"[0] == 'c' && "cb"[1] == 'b';
    assert "abc"[0] == 'a' && "abc"[1] == 'b' && "abc"[2] == 'c';
    assert " a"[1] == 'a' && !IsSpace('a');
    assert "ftp://x"[0] == 'f' && "http://"[0] == 'h';
    assert "//evil/hits"[2..] == "evil/hits" && "evil/hits"[0] == 'e';
    assert "/hits"[1] == 'h' && "//"[1] == '/' && "hits"[0] == 'h' && "/"[0] == '/';
  }

  // ----- a token that vanishes -----

  function TwoHosts(): AttackPlan {
    PlanOf([Probe("a", TcpTarget(LOCAL), None), Probe("b", TcpTarget(REMOTE), None)])
  }

  /** The plan that probes the local and then the remote host: accepted, and if the tokens vanish then, one
      probe is sent and the finding shows no attempt. */
  lemma RevokedToken()
    ensures var run := RunOf(TwoHosts());
      var r := RunPlan(InEnv(run, Revoking(run.lab.env, 0)), START);
      && PlanAccepted(run.lab.gate, run.lab.env.tokens(0), run.plan, None)
      && r.finding.attempts == 0 && r.finding.verdict == Error && |r.world.calls| == 1
  {
    hide IsRemoteTarget, TargetAllowed, PlanAccepted, RunPlan, PlanPassable, OriginOf;
    TargetsAllowed();
    ProbesAccepted(TwoHosts());
    NothingMissing(TwoHosts());
    RevokedTokenHidesEffect(RunOf(TwoHosts()), START);
  }

  // ----- a timeout that is not a number -----

  function EndlessPlan(): AttackPlan {
    PlanOf([Probe("a", TcpTarget(LOCAL), Some(NotANumber))])
  }

  /** A plan file with `"timeout_seconds": NaN` decodes and is accepted, and its call is handed `NaN`, which
      is neither positive nor within any deadline. */
  lemma EndlessTimeout(ids: Generated)
    requires ids.plan != "" && forall i :: ids.step(i) != ""
    ensures var plan, lab := EndlessPlan(), ExampleLab();
      var r := ExecutePlan(lab, None, plan, START).world;
      && FromDict(ToDict(plan), ids) == Some(plan)
      && PlanAccepted(lab.gate, lab.env.tokens(0), plan, None)
      && |r.calls| == 1 && r.calls[0].timeout == NotANumber && !AllWithin(lab, START, r)
  {
    hide FromDict, ToDict, PlanAccepted, PlanPassable, ExecutePlan, OriginOf, TcpTarget;
    EndlessDecodes(ids);
    ProbesAccepted(EndlessPlan());
    EndlessCalled();
  }

  lemma EndlessDecodes(ids: Generated)
    requires ids.plan != "" && forall i :: ids.step(i) != ""
    ensures FromDict(ToDict(EndlessPlan()), ids) == Some(EndlessPlan())
  {
    hide FromDict, ToDict, TcpTarget;
    var plan := EndlessPlan();
    assert PlanOk(plan) by {
      assert plan.title[0] == 't' && plan.hypothesis[0] == 'h';
      EndlessStepOk();
    }
    PlanRoundTrip(plan, ids);
  }

  lemma EndlessCalled()
    ensures var r := ExecutePlan(ExampleLab(), None, EndlessPlan(), START).world;
      |r.calls| == 1 && r.calls[0].timeout == NotANumber && !AllWithin(ExampleLab(), START, r)
  {
    hide PlanAccepted, AllPassable, ExecuteSteps, OriginOf, TcpTarget;
    var lab, plan, w1 := ExampleLab(), EndlessPlan(), ReadTokens(START);
    ProbesAccepted(plan);
    InstantRunsAll(lab, None, plan.steps, NewSession(lab, w1), ReadClock(lab, w1));
    PlanBounded(lab, None, plan, START);
    var r := ExecutePlan(lab, None, plan, START).world;
    assert r.calls[0].step == plan.steps[0];
    assert !WithinBudget(lab, PlanDeadline(lab, START), r.calls[0]);
  }

  lemma EndlessStepOk()
    ensures StepOk(Probe("a", TcpTarget(LOCAL), Some(NotANumber)))
  {
    var step := Probe("a", TcpTarget(LOCAL), Some(NotANumber));
    assert step.tool[0] == 't' && step.target[0] == '1' && step.operation[0] == 'p';
  }

  // ----- a probe that cannot connect -----

  /** A seedless plan of one probe of a URL with a slash: the gate accepts it, and no environment makes it pass. */
  lemma SlashedProbeNeverPasses(campaign: string, ids: NewIds, digest: string, env: Env)
    requires env.tokens == QuietEnv().tokens
    ensures var candidate := PlanOf([Probe("a", SlashedTarget(), None)]);
      var run := RunOf(BindPlan(BindTrusted(candidate, None, digest), campaign, ids));
      && PlanAccepted(run.lab.gate, run.lab.env.tokens(0), run.plan, None)
      && RunPlan(InEnv(run, env), START).finding.verdict != Pass
  {
    hide RunPlan, PlanAccepted, PlanPassable, OriginOf, SlashedTarget, DefaultRegistry, DefaultOracles;
    hide PutAll, PutDefault, DiagnosticMetadata, DiagnosticOracles, BoundaryNotes, Dialable;
    var candidate := PlanOf([Probe("a", SlashedTarget(), None)]);
    var run := RunOf(BindPlan(BindTrusted(candidate, None, digest), campaign, ids));
    assert run.plan.steps[0] == candidate.steps[0].(stepId := ids.step(0));
    ProbesAccepted(run.plan);
    SlashedUndialable();
    assert SeedlessRun(run, candidate);
    CanPassExactly(run, START, candidate);
    OneProbe(run);
    assert !Covered(run);
  }

  lemma SlashedUndialable()
    ensures !Dialable(SlashedTarget())
  {
    var head, tail := "http" + "://" + Bracketed(LOCAL), Decimal(80) + "/";
    assert SlashedTarget() == head + ":" + tail;
    SlashedProbeUndialable(head, tail);
  }

  lemma OneProbe(run: Run)
    requires |run.plan.steps| == 1 && run.plan.steps[0].tool == "tcp_probe"
    ensures AsksForProbe(StepTools(run.plan))
    ensures forall done :: CoveredBy(run, done) ==> Probeable(run.plan.steps[0])
  {
    hide Dialable;
    assert run.plan.steps[0] in run.plan.steps;
  }
}
