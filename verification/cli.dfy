/** One campaign cycle: capacity for agentic variations, and the operator's authorization. */
module Cli {
  import opened JsonValues
  import opened Models
  import opened Targets
  import opened Safety
  import opened Coordination
  import opened Pipeline

  datatype CycleSettings = CycleSettings(
    plansPerCycle: nat,
    agentic: bool,
    destructiveProfile: bool,
    toolNames: seq<string>,
    oracleNames: seq<string>)

  function Diagnostic(plan: AttackPlan): bool {
    Get(plan.metadata, "diagnostic_only") == Some(Bool(true))
  }

  function Select(plans: seq<AttackPlan>, diagnostic: bool): seq<AttackPlan> {
    if plans == [] then []
    else (if Diagnostic(plans[0]) == diagnostic then [plans[0]] else []) + Select(plans[1..], diagnostic)
  }

  /** `sorted(seeds, key=diagnostic_only)`: stable, with the diagnostic seeds last */
  function OrderedSeeds(seeds: seq<AttackPlan>): (ordered: seq<AttackPlan>)
    ensures |ordered| == |seeds|
  {
    SelectSizes(seeds);
    Select(seeds, false) + Select(seeds, true)
  }

  lemma {:induction false} SelectSizes(seeds: seq<AttackPlan>)
    ensures |Select(seeds, false)| + |Select(seeds, true)| == |seeds|
  {
    if seeds != [] {
      SelectSizes(seeds[1..]);
    }
  }

  lemma {:induction false} OrderedSeedsPermute(seeds: seq<AttackPlan>)
    ensures multiset(OrderedSeeds(seeds)) == multiset(seeds)
  {
    SelectSplits(seeds);
  }

  lemma {:induction false} SelectSplits(seeds: seq<AttackPlan>)
    ensures multiset(Select(seeds, false)) + multiset(Select(seeds, true)) == multiset(seeds)
  {
    if seeds != [] {
      SelectSplits(seeds[1..]);
      assert seeds == [seeds[0]] + seeds[1..];
    }
  }

  predicate MarkedDiagnostic(plan: AttackPlan) {
    Get(plan.metadata, "diagnostic_only") == Some(Bool(true))
  }

  predicate Increasing(at: seq<nat>) {
    forall j, k :: 0 <= j < k < |at| ==> at[j] < at[k]
  }

  predicate StandAt(plans: seq<AttackPlan>, chosen: seq<AttackPlan>, at: seq<nat>, diagnostic: bool) {
    && |at| == |chosen| && Increasing(at)
    && forall k :: 0 <= k < |at| ==>
         at[k] < |plans| && chosen[k] == plans[at[k]] && MarkedDiagnostic(plans[at[k]]) == diagnostic
  }

  function Shifted(at: seq<nat>): (r: seq<nat>)
    ensures |r| == |at| && forall k :: 0 <= k < |at| ==> r[k] == at[k] + 1
  {
    seq(|at|, k requires 0 <= k < |at| => at[k] + 1)
  }

  lemma OneEarlier(plans: seq<AttackPlan>, chosen: seq<AttackPlan>, at: seq<nat>, diagnostic: bool)
    requires plans != [] && StandAt(plans[1..], chosen, at, diagnostic)
    ensures StandAt(plans, chosen, Shifted(at), diagnostic)
    ensures MarkedDiagnostic(plans[0]) == diagnostic ==>
      StandAt(plans, [plans[0]] + chosen, [0] + Shifted(at), diagnostic)
  {
    hide MarkedDiagnostic;
    var r := Shifted(at);
    assert forall k :: 0 <= k < |at| ==> plans[1..][at[k]] == plans[r[k]];
    hide Shifted;
  }

  /** Where the selected plans stand. */
  lemma {:induction false} SelectedFrom(plans: seq<AttackPlan>, diagnostic: bool) returns (at: seq<nat>)
    ensures StandAt(plans, Select(plans, diagnostic), at, diagnostic)
  {
    hide Get;
    at := [];
    if plans != [] {
      var later := SelectedFrom(plans[1..], diagnostic);
      OneEarlier(plans, Select(plans[1..], diagnostic), later, diagnostic);
      hide StandAt;
      SelectStep(plans, diagnostic);
      hide Select, MarkedDiagnostic;
      at := if MarkedDiagnostic(plans[0]) == diagnostic then [0] + Shifted(later) else Shifted(later);
    }
  }

  lemma SelectStep(plans: seq<AttackPlan>, diagnostic: bool)
    requires plans != []
    ensures Select(plans, diagnostic) ==
      if MarkedDiagnostic(plans[0]) == diagnostic then [plans[0]] + Select(plans[1..], diagnostic)
      else Select(plans[1..], diagnostic)
  {
  }

  /** Diagnostic seeds come last; among themselves, both kinds keep their order. */
  lemma OrderedSeedsExact(seeds: seq<AttackPlan>) returns (at: seq<nat>)
    ensures |at| == |seeds|
    ensures forall k :: 0 <= k < |at| ==> at[k] < |seeds| && OrderedSeeds(seeds)[k] == seeds[at[k]]
    ensures forall j, k :: 0 <= j < k < |at| ==>
      if MarkedDiagnostic(seeds[at[j]]) == MarkedDiagnostic(seeds[at[k]]) then at[j] < at[k]
      else !MarkedDiagnostic(seeds[at[j]])
  {
    var first := SelectedFrom(seeds, false);
    var last := SelectedFrom(seeds, true);
    SelectSizes(seeds);
    hide Select, MarkedDiagnostic;
    at := first + last;
  }

  /** `tuple(dict.fromkeys(names))` */
  function Distinct(names: seq<string>): seq<string> {
    if names == [] then []
    else
      var front := Distinct(names[..|names| - 1]);
      if names[|names| - 1] in front then front else front + [names[|names| - 1]]
  }

  function VariationContext(config: Config, settings: CycleSettings, campaign: string, seed: AttackPlan): AgentContext {
    AgentContext(
      campaign,
      settings.toolNames,
      Distinct(seq(|seed.steps|, i requires 0 <= i < |seed.steps| => seed.steps[i].target)),
      settings.oracleNames,
      [seed],
      config.budgets.maxSteps,
      config.budgets.stepTimeout,
      if settings.destructiveProfile then Destructive else Elevated)
  }

  function Capacity(config: Config, seeds: nat): nat {
    if config.budgets.maxPlans >= seeds then config.budgets.maxPlans - seeds else 0
  }

  function Least(a: nat, b: nat, c: nat): nat {
    if a <= b && a <= c then a else if b <= c then b else c
  }

  /** `plan` is some validated last stage, bound to one of the seeds. */
  ghost predicate Variation(lib: Library, config: Config, settings: CycleSettings, campaign: string,
                            seeds: seq<AttackPlan>, plan: AttackPlan) {
    exists seed, last, digest :: BoundVariation(lib, config, settings, campaign, seeds, plan, seed, last, digest)
  }

  ghost predicate BoundVariation(lib: Library, config: Config, settings: CycleSettings, campaign: string,
                                 seeds: seq<AttackPlan>,
                                 plan: AttackPlan, seed: AttackPlan, last: AttackPlan, digest: string) {
    && seed in seeds
    && AgentPlanValid(lib, VariationContext(config, settings, campaign, seed), last)
    && plan == BindTrusted(last, Some(seed), digest)
  }

  /** The variation of one seed, if its pipeline run does not raise. */
  function VariationOf(lib: Library, roles: Roles, digest: AttackPlan -> string, config: Config,
                       settings: CycleSettings, campaign: string, seed: AttackPlan): Option<AttackPlan>
  {
    var last :- LastPlan(lib, roles, VariationContext(config, settings, campaign, seed), 0, Some(seed));
    Some(BindTrusted(last, Some(seed), digest(last)))
  }

  /** The variations of the seeds whose runs did not raise, in the order of the seeds. */
  function VariationsOf(lib: Library, roles: Roles, digest: AttackPlan -> string, config: Config,
                        settings: CycleSettings, campaign: string, seeds: seq<AttackPlan>): seq<AttackPlan>
  {
    if seeds == [] then []
    else
      VariationsOf(lib, roles, digest, config, settings, campaign, seeds[..|seeds| - 1])
      + match VariationOf(lib, roles, digest, config, settings, campaign, seeds[|seeds| - 1])
        case Some(plan) => [plan]
        case None => []
  }

  /** A variation of a seed is the plan that the seed's own stages end with, bound to the seed. */
  lemma VariationExact(lib: Library, roles: Roles, digest: AttackPlan -> string, config: Config,
                       settings: CycleSettings, campaign: string, seed: AttackPlan, p: seq<AttackPlan>)
    ensures Chain(lib, roles, VariationContext(config, settings, campaign, seed), Some(seed), p) ==>
      VariationOf(lib, roles, digest, config, settings, campaign, seed)
        == Some(BindTrusted(p[5], Some(seed), digest(p[5])))
    ensures VariationOf(lib, roles, digest, config, settings, campaign, seed).Some? ==>
      exists q :: Chain(lib, roles, VariationContext(config, settings, campaign, seed), Some(seed), q)
  {
    hide Chain, LastPlan, BindTrusted, VariationContext;
    ChainExact(lib, roles, VariationContext(config, settings, campaign, seed), Some(seed), p);
  }

  /** Variations come in the order of their seeds, one for each seed whose run did not raise. */
  lemma {:induction false} VariationsInOrder(lib: Library, roles: Roles, digest: AttackPlan -> string, config: Config,
                                             settings: CycleSettings, campaign: string, seeds: seq<AttackPlan>)
    returns (at: seq<nat>)
    ensures |at| == |VariationsOf(lib, roles, digest, config, settings, campaign, seeds)| && Increasing(at)
    ensures forall k :: 0 <= k < |at| ==>
      && at[k] < |seeds|
      && VariationOf(lib, roles, digest, config, settings, campaign, seeds[at[k]])
           == Some(VariationsOf(lib, roles, digest, config, settings, campaign, seeds)[k])
    ensures forall i :: 0 <= i < |seeds| && i !in at ==>
      VariationOf(lib, roles, digest, config, settings, campaign, seeds[i]).None?
  {
    hide VariationOf;
    at := [];
    if seeds != [] {
      var n := |seeds| - 1;
      at := VariationsInOrder(lib, roles, digest, config, settings, campaign, seeds[..n]);
      if VariationOf(lib, roles, digest, config, settings, campaign, seeds[n]).Some? {
        var front := at;
        at := at + [n];
        assert forall i :: i in front ==> i in at;
        assert n in at;
      }
    }
  }

  function Requested(config: Config, settings: CycleSettings, seeds: nat, enabled: bool): nat {
    if enabled && settings.agentic then Least(settings.plansPerCycle, Capacity(config, seeds), seeds) else 0
  }

  /** How many runs are requested: none unless enabled; otherwise as many as the cycle asks for, the plan budget
      leaves room for, and there are seeds, and one of these limits is reached. */
  lemma RequestedExact(config: Config, settings: CycleSettings, seeds: nat, enabled: bool)
    ensures var n := Requested(config, settings, seeds, enabled);
      && (!enabled || !settings.agentic ==> n == 0)
      && (enabled && settings.agentic ==>
            && n <= settings.plansPerCycle && n <= seeds && (n == 0 || seeds + n <= config.budgets.maxPlans)
            && (|| n == settings.plansPerCycle || n == seeds || seeds + n == config.budgets.maxPlans
                || (n == 0 && seeds >= config.budgets.maxPlans)))
  {
  }

  lemma {:induction false} DistinctExact(names: seq<string>)
    ensures forall n :: n in Distinct(names) <==> n in names
    ensures forall i, j :: 0 <= i < j < |Distinct(names)| ==> Distinct(names)[i] != Distinct(names)[j]
  {
    if names != [] {
      DistinctExact(names[..|names| - 1]);
      assert names == names[..|names| - 1] + [names[|names| - 1]];
    }
  }

  /** What a variation of a seed is confined to: the seed's own targets, the campaign's limits, and no
      destructive risk outside that profile. */
  lemma ContextExact(config: Config, settings: CycleSettings, campaign: string, seed: AttackPlan)
    ensures var ctx := VariationContext(config, settings, campaign, seed);
      && ctx.campaignId == campaign && ctx.priorPlans == [seed]
      && ctx.allowedTools == settings.toolNames && ctx.allowedOracles == settings.oracleNames
      && (forall t :: t in ctx.allowedTargets <==> exists s :: s in seed.steps && s.target == t)
      && ctx.maxSteps == config.budgets.maxSteps && ctx.maxStepTimeout == config.budgets.stepTimeout
      && (ctx.maxRisk == Destructive <==> settings.destructiveProfile) && ctx.maxRisk != Safe
  {
    var targets := seq(|seed.steps|, i requires 0 <= i < |seed.steps| => seed.steps[i].target);
    DistinctExact(targets);
    forall t ensures t in targets <==> exists s :: s in seed.steps && s.target == t {
      if t in targets {
        var i :| 0 <= i < |targets| && targets[i] == t;
        assert seed.steps[i] in seed.steps;
      }
      if s :| s in seed.steps && s.target == t {
        var i :| 0 <= i < |seed.steps| && seed.steps[i] == s;
        assert targets[i] == t;
      }
    }
  }

  /** One pipeline run per requested seed, the diagnostic seeds last; a run that raises is recorded and
      produces no plan. */
  method AgenticVariations(pipeline: AgentPipeline, config: Config, settings: CycleSettings, campaign: string,
                           seeds: seq<AttackPlan>, enabled: bool)
    returns (plans: seq<AttackPlan>, errors: nat)
    ensures |seeds| <= config.budgets.maxPlans ==> |seeds| + |plans| <= config.budgets.maxPlans
    ensures |plans| + errors == Requested(config, settings, |seeds|, enabled)
    ensures plans == VariationsOf(pipeline.lib, pipeline.roles, pipeline.digest, config, settings, campaign,
                                  OrderedSeeds(seeds)[..Requested(config, settings, |seeds|, enabled)])
    ensures forall i :: 0 <= i < |plans| ==> Variation(pipeline.lib, config, settings, campaign, seeds, plans[i])
  {
    hide AgentPlanValid, BindTrusted, VariationContext, OrderedSeeds;
    plans, errors := [], 0;
    var requested := Requested(config, settings, |seeds|, enabled);
    var ordered := OrderedSeeds(seeds);
    OrderedSeedsPermute(seeds);
    if requested == 0 {
      return;
    }
    for i := 0 to requested
      invariant |plans| + errors == i
      invariant plans == VariationsOf(pipeline.lib, pipeline.roles, pipeline.digest, config, settings, campaign,
                                      ordered[..i])
      invariant forall k :: 0 <= k < |plans| ==> Variation(pipeline.lib, config, settings, campaign, seeds, plans[k])
    {
      var seed := ordered[i];
      assert ordered[..i + 1][..i] == ordered[..i];
      assert seed in multiset(ordered) && seed in seeds;
      var result := pipeline.Run(VariationContext(config, settings, campaign, seed), Some(seed));
      match result {
        case None => errors := errors + 1;
        case Some(made) =>
          var last := made.stages[5].plan;
          assert BoundVariation(pipeline.lib, config, settings, campaign, seeds, made.plan, seed, last,
                                pipeline.digest(last));
          plans := plans + [made.plan];
      }
    }
  }

  // ----- authorization -----

  datatype Decision = NotNeeded | Refused | Granted(authorization: Authorization)

  /** `_authorization`; `Refused` where it raises */
  function Authorize(lib: Library, settings: CycleSettings, snapshot: Option<string>, token: Option<string>,
                     plans: seq<AttackPlan>): Decision {
    if !settings.destructiveProfile
       && !(exists i :: 0 <= i < |plans| && PlanRequiresAuthorization(lib, plans[i])) then NotNeeded
    else if snapshot.None? || Blank(snapshot.value) || token.None? then Refused
    else Granted(Authorization(Trim(snapshot.value, SPACES), token.value))
  }

  /** The operator is asked exactly when the profile is destructive or some plan needs it, and then a snapshot
      that is not blank and the configured token are both required. */
  lemma AuthorizeExact(lib: Library, settings: CycleSettings, snapshot: Option<string>, token: Option<string>,
                       plans: seq<AttackPlan>)
    ensures var asked := settings.destructiveProfile || exists p :: p in plans && PlanRequiresAuthorization(lib, p);
      var given := token.Some? && snapshot.Some?
                   && exists i :: 0 <= i < |snapshot.value| && !IsSpace(snapshot.value[i]);
      var d := Authorize(lib, settings, snapshot, token, plans);
      && (d == NotNeeded <==> !asked)
      && (d == Refused <==> asked && !given)
      && (d.Granted? ==> d.authorization.token == token.value)
      && (d.Granted? ==> exists i, j :: Stripped(snapshot.value, i, j, d.authorization.snapshotId))
  {
    hide PlanRequiresAuthorization, Trim;
    if p :| p in plans && PlanRequiresAuthorization(lib, p) {
      var i :| 0 <= i < |plans| && plans[i] == p;
      assert PlanRequiresAuthorization(lib, plans[i]);
    }
    if snapshot.Some? {
      var i, j := TrimExact(snapshot.value, SPACES);
      assert Stripped(snapshot.value, i, j, Trim(snapshot.value, SPACES));
    }
  }

  /** `text` is the part of `s` between the spaces at its ends. */
  ghost predicate Stripped(s: string, i: int, j: int, text: string) {
    && 0 <= i <= j <= |s| && text == s[i..j]
    && (i < j ==> !IsSpace(s[i]) && !IsSpace(s[j - 1]))
    && forall k :: 0 <= k < i || j <= k < |s| ==> IsSpace(s[k])
  }

  lemma VariationNeedsNone(lib: Library, config: Config, settings: CycleSettings, campaign: string,
                           seeds: seq<AttackPlan>, plan: AttackPlan)
    requires !settings.destructiveProfile && Variation(lib, config, settings, campaign, seeds, plan)
    ensures !PlanRequiresAuthorization(lib, plan)
  {
    hide PlanRequiresAuthorization, AgentPlanValid, BindTrusted;
    var seed, last, digest :| BoundVariation(lib, config, settings, campaign, seeds, plan, seed, last, digest);
    AgentsCannotEscalate(lib, VariationContext(config, settings, campaign, seed), last, Some(seed), digest, campaign,
                         NewIds("", (n: nat) => ""));
  }

  /** Outside the destructive profile, adding agentic variations never changes what the operator is asked for. */
  lemma VariationsKeepDecision(lib: Library, config: Config, settings: CycleSettings, campaign: string,
                               fixed: seq<AttackPlan>,
                               variations: seq<AttackPlan>, snapshot: Option<string>, token: Option<string>)
    requires !settings.destructiveProfile
    requires forall i :: 0 <= i < |variations| ==> Variation(lib, config, settings, campaign, fixed, variations[i])
    ensures Authorize(lib, settings, snapshot, token, fixed + variations)
      == Authorize(lib, settings, snapshot, token, fixed)
  {
    hide PlanRequiresAuthorization, Variation;
    var all := fixed + variations;
    forall i | |fixed| <= i < |all|
      ensures !PlanRequiresAuthorization(lib, all[i])
    {
      assert all[i] == variations[i - |fixed|];
      VariationNeedsNone(lib, config, settings, campaign, fixed, all[i]);
    }
    assert forall i :: 0 <= i < |fixed| ==> all[i] == fixed[i];
  }
}
