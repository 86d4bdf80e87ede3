# Heraclitus Attack: verified model of the verdict engine

Heraclitus Attack runs untrusted, model-written attack plans against a disposable database and turns
what it observes into findings. This project models the part that makes a finding trustworthy, and
proves its properties for every plan, every environment and every interleaving:

- the coordinator, which promotes a failure to `VULNERABLE` only when it is reproduced
  (`coordinator.dfy`), over the budgeted executor (`executor.dfy`), the safety gate (`safety.dfy`,
  `targets.dfy`), the adapters (`tools.dfy`) and the six oracles (`oracles.dfy`); what the gate's approval
  and each oracle's verdict mean for a run is proved in `authorization.dfy` and `verdicts.dfy`;
- the policy boundary in front of it (`pipeline.dfy`, `seedless.dfy`), the campaign cycle around it
  (`cli.dfy`) and the curated denial plan, followed from adapter replies to the verdict (`catalog.dfy`);
- the schema validator, the plan codec and the schema of the planning roles (`schema.dfy`, `codec.dfy`,
  `contract.dfy`);
- the arena transport and its request session as step systems (`relay.dfy`, `arena.dfy`);
- bounded transformations: sanitizer, stream capture, prompt budget, provider rotation
  (`sanitizer.dfy`, `streams.dfy`, `prompts.dfy`, `routing.dfy`).

`json.dfy` and `models.dfy` hold the values they share; `examples.dfy` holds concrete plans for the
results that say something can happen.

## How the environment is modelled

`Executor.Env` is an adversary: arbitrary functions give the n-th adapter reply, how long that call
takes, how much time other code spends before the n-th clock reading, and what the n-th look at the
two token variables shows. A look at the tokens is one snapshot per validation. Adapters are functions
of the step and the reply; the default ones are written out, any other registry is allowed. Classes
(`Process`, `ExecutionSession`, `SafeToolExecutor`, `Coordinator`, `SafetyGate`, `AgentPipeline`,
`RoutingProvider`, `RemoteRelaySet`) carry the mutable state, and each method is proved equal to a
specification function about which the lemmas speak. `Coordination.RunPlan` is deliberately not the
loop: it is written in terms of what all back-to-back attempts would show, and the early-exit loop of
`RunBound` is proved to report the same.

A SHA-256 fingerprint is the constructor `Digest` around its evidence, hence injective. Floats are
reals, `NaN` or an infinity; rounding is not modelled. Text is ASCII as far as case, whitespace and
digits go. Answers of libraries (`ipaddress`, name resolution, JSON text parsing, URL decoding, query
parsing, encoded size) are parameters in `Safety.Library`. They do not change during a run: the source
resolves `localhost` again at every check, so results that speak of a whole run (`AcceptedNeverRejected`,
`ServedExactly`, `TokenlessExactly` and those built on them) take its resolution as fixed.

## Where code and documentation differ

The model follows the code. For each difference there is an input that shows it and the exact condition.

- `bind_trusted_oracle_contract` says that without a seed a model cannot obtain a PASS claim. It can, on
  a 200 for one (`Seedless.CanPass`). `PassExact` and `RunPasses` say on which answers, `LabRunPasses` on
  which replies (a run cut short by a budget may be one of them), and `CanPassExactly` for which plans.
  `Examples.SlashedProbeNeverPasses` is one that the gate accepts and that cannot pass, because a probe
  cuts a URL at its last colon. "Can pass" presumes that the client will send an HTTP step's target,
  headers and path. What holds is that a seedless run never fails and is never vulnerable (`NeverFails`).
- A finding with zero attempts is taken to mean that nothing was sent. `EffectFreeExactly` gives the
  condition on plan, registry and tokens; `Examples.RevokedToken` sends one probe and reports zero
  attempts because a token vanished between two steps. With tokens that stay, the condition is that every
  reachable step has an adapter (`ServedExactly`); for tokens that may change at will, also that every
  step is on loopback and not destructive (`TokenlessExactly`).
- Every call is meant to end within its budgets. A plan file may say `"timeout_seconds": NaN`, which the
  constructor, the schema's bounds and the gate let through, and `min` hands it to the adapter
  (`Examples.EndlessTimeout`). `TimeoutsExactly`: calls are within their budgets in every environment
  exactly when no reachable step asks for `NaN`; and exactly then plans keep their time with any adapters
  that respect the timeouts they get. The default adapters report failure at once, because a socket
  refuses `NaN` (`Tools.Sent`); one that takes it for no limit may hang (`EndlessCallHangs`).
- "integer" refuses an integral float, which section 6.1.1 of JSON Schema Validation (draft 2020-12)
  admits (`IntegralFloatRefused`), and a missing `maxLength` or `maxItems` means 2147483647; but `NaN`,
  no JSON value by section 6 of RFC 8259, passes every bound (`TimeoutSchemaAdmits`).
  `ValidatorAgainstStandard` is exact: what the standard accepts, minus the first two cases, plus the third.
- The router promises to rotate providers fairly. It does so for requests in a row to one pool
  (`WindowFair`); the counter is shared, so two roles with pools of two that take turns always get the
  same route (`AlternationStarves`). A pool visited every m requests is served fairly exactly when m and
  its size have no common divisor (`FairExactly`), and `ReachedExactly` says which routes it ever gets.
- The prompt module promises hard size caps. The newlines between blocks are not charged, so the text can
  exceed the budget by up to fifteen characters; `OverrunsExactly` says for which observations, and
  `BudgetExceeded` runs into it.
- `_normalise_host` is not idempotent (`NormaliseIsNotIdempotent`), so a canonical target need not be
  canonical: `CanonicalStable` gives the exact condition, a settled host. Accepted loopback targets meet
  it unless Python reads a bracket as part of a scope identifier (`ScopedTargetUnstable`); accepted remote
  targets need not (`BracketedRemoteUnstable`, `AcceptedTargetStable`).
- The agents' argument check compares destinations by a more lenient reading than the gate's: port text
  goes through `int` (`LenientPort`), and on every target that parses both agree (`CanonicalTextExtends`).

## Model

| member | source | states |
|---|---|---|
| Coordination.ExactPromotion | src/heraclitus_attack/coordinator.py:178-281 | VULNERABLE iff no oracle is missing and one typed key fails, with base verdict FAIL, in each of the required attempts, in every environment; then attempts and confirmations both equal the threshold |
| Coordination.PromotionExact | src/heraclitus_attack/coordinator.py:153-281 | the same over the fields of the results: VULNERABLE iff every requested oracle is registered and one oracle identifier and non-empty fingerprint occur, with FAIL or VULNERABLE, in each of the required attempts, all of which ran without an ERROR or INCONCLUSIVE result |
| Coordination.ConfirmationsExact | src/heraclitus_attack/coordinator.py:239-258 | `confirmations` is the length of the longest all-failing attempt prefix sharing a key; `oracle_results` are the results of exactly the counted attempts |
| Coordination.ConfirmedExactly | src/heraclitus_attack/coordinator.py:153-258 | over the fields of the results: `confirmations` is the greatest number of first attempts, up to the threshold, that share such an identifier and fingerprint |
| Coordination.VerdictExact | src/heraclitus_attack/coordinator.py:153-170 | once the first attempt ran, ERROR, INCONCLUSIVE and PASS are decided by which verdicts occur in its results |
| Coordination.AllResultsExact | src/heraclitus_attack/coordinator.py:223-258 | `oracle_results` holds the results of the attempts back to back: those of attempt k start at k times the number of requested oracles |
| Coordination.EvaluateExact | src/heraclitus_attack/coordinator.py:123-151 | the result for each requested oracle is its own answer under its own identifier, and an ERROR without evidence exactly if it gives none |
| Coordination.BindPlanExact | src/heraclitus_attack/coordinator.py:105-121 | rebinding replaces plan, campaign and step identifiers, keeps a recorded proposed identifier, and changes nothing else |
| Coordination.CampaignExact | src/heraclitus_attack/coordinator.py:283-327 | a campaign is refused iff it has too many plans; otherwise its findings are those of its plans, in order, and of all of them unless its time is up |
| Coordination.CampaignVerdictExact | src/heraclitus_attack/coordinator.py:64-76 | a campaign is VULNERABLE if any finding is, else ERROR, else FAIL, and PASS iff there are findings and all pass |
| Verdicts.CanaryVulnerable | src/heraclitus_attack/coordinator.py:178-281 | a plan judged by the canary oracle alone is VULNERABLE iff in each of the required attempts some listed marker occurs in some captured body |
| Coordination.AttemptGap | src/heraclitus_attack/coordinator.py:242-271 | an unpromoted failure ran 0 or 1 attempts beyond its confirmations, 0 exactly when the gate refused the next one |
| Coordination.AttemptsBounded | src/heraclitus_attack/coordinator.py:187-221 | attempts never exceed the threshold; zero attempts iff an oracle is missing or the first execution was rejected, and then the verdict is ERROR |
| Coordination.EffectFreeExactly | src/heraclitus_attack/coordinator.py:206-221 | zero attempts mean zero adapter calls under every reply and timing iff an oracle is missing, the gate refuses the plan, nothing can reject it part way, or its first step is already rejected |
| Coordination.RevokedTokenHidesEffect | src/heraclitus_attack/executor.py:54-56 | tokens that vanish after validation: one adapter call, then rejection, and a finding with zero attempts |
| Examples.RevokedToken | src/heraclitus_attack/executor.py:54-56 | the same for a concrete plan that probes a local and a remote host |
| Coordination.NoAttemptNoEffect | src/heraclitus_attack/coordinator.py:206-221 | with unchanging tokens and an adapter for every reachable step, zero attempts means zero adapter calls |
| Coordination.AttemptsInBudget | src/heraclitus_attack/coordinator.py:239-258 | k attempts make at most k * min(steps, max_requests_per_plan) calls and, if each call is handed a number and takes no longer, take at most k plan timeouts |
| Coordination.PlanRunInTime | src/heraclitus_attack/coordinator.py:178-281 | one finding takes at most confirmation_runs plan timeouts |
| Coordination.CampaignEndsInTime | src/heraclitus_attack/coordinator.py:310-321 | a campaign ends before its deadline plus confirmation_runs plan timeouts |
| Coordination.Coordinator.RunBound | src/heraclitus_attack/coordinator.py:187-281 | the early-exit confirmation loop reports, and leaves the world in, what the all-attempts specification says |
| Coordination.Coordinator.RunPlanFor | src/heraclitus_attack/coordinator.py:178-186 | the plan is rebound before anything else happens |
| Coordination.Coordinator.EvaluatePlan | src/heraclitus_attack/coordinator.py:123-151 | one result per requested oracle, in order; missing, raising and mislabelled oracles become errors |
| Coordination.Coordinator.RunCampaign | src/heraclitus_attack/coordinator.py:283-327 | plans run in order until the deadline; an oversized proposal is refused before any runs |
| Executor.SafeToolExecutor.Step | src/heraclitus_attack/executor.py:47-78 | outcome, session and world of one step, including which check consumed which token or clock reading |
| Executor.SafeToolExecutor.Send | src/heraclitus_attack/executor.py:66-78 | outcome, session and world of one call: one request and one call are recorded, and the timeout handed out is the least of request, step budget and time left |
| Executor.SafeToolExecutor.Plan | src/heraclitus_attack/executor.py:80-110 | outcome and world of one plan: validation first, then steps until a violation or a budget |
| Executor.PlanBounded | src/heraclitus_attack/executor.py:42-110 | at most min(steps, max_requests_per_plan) calls; a timeout handed out is exactly the least of the step's own request, the step budget and the time left, is positive and ends by the session deadline, unless the step asks for `NaN` and gets it; plans whose calls take no longer than the number they got end by plan start plus plan timeout |
| Executor.TimeoutsExactly | src/heraclitus_attack/executor.py:66-78 | for an accepted plan that is not rejected part way: all calls are within their budgets in every environment iff no reachable step asks for `NaN`, and iff so the plan keeps its time whenever no call outlasts its timeout and other code takes none |
| Executor.EndlessIsAccepted | src/heraclitus_attack/safety.py:340-342 | a step that the gate accepts without a timeout it also accepts with `NaN` |
| Executor.EndlessCallHangs | src/heraclitus_attack/executor.py:66-78 | a call handed `NaN` that hangs: it is not overdue, and its plan ends after the deadline |
| Examples.EndlessTimeout | src/heraclitus_attack/cli.py:137-147 | a plan file with a `NaN` timeout that decodes, is accepted, and has its call handed `NaN` |
| Executor.StepsBounded | src/heraclitus_attack/executor.py:57-71 | calls follow the steps in order, the session counts them, and each gets exactly the least of its own request, the step budget and the time left, or the `NaN` its step asks for |
| Executor.PlanObserved | src/heraclitus_attack/executor.py:80-110 | observations are the adapters' answers in step order, plus one cut-short observation if a budget stopped the run |
| Executor.SurvivesExactly | src/heraclitus_attack/executor.py:54-65 | an accepted plan survives every reply and timing iff each step the budget lets the run look at is cleared by the tokens it will see and, if reached, has an adapter |
| Executor.BlockedStepRejects | src/heraclitus_attack/executor.py:54-65 | an instant environment reaches the first step that is not, after exactly that many adapter calls, and rejects the run there |
| Executor.TokenlessExactly | src/heraclitus_attack/safety.py:326-340 | an accepted plan survives whatever becomes of the tokens iff every step it can look at is on loopback and not destructive and every step it can reach has an adapter |
| Executor.AcceptedNeverRejected | src/heraclitus_attack/executor.py:54-65 | with unchanging tokens, an accepted plan whose reachable steps are served is never rejected part way |
| Executor.ServedExactly | src/heraclitus_attack/executor.py:54-65 | with unchanging tokens that condition is exact: otherwise a timing exists that rejects the plan part way |
| Safety.SafetyGate.Configure | src/heraclitus_attack/safety.py:282-303 | the gate exists iff every configured target is authorized, and its allowlist is exactly their canonical forms |
| Safety.SafetyGate.ValidateStep | src/heraclitus_attack/safety.py:326-438 | the checks of one step, decided in the order of the source |
| Safety.SafetyGate.ValidatePlan | src/heraclitus_attack/safety.py:311-324 | step count, every step, and authorization when the effects need it |
| Safety.SafetyGate.ValidateAuthorization | src/heraclitus_attack/safety.py:440-455 | snapshot, configured token and matching token are all required |
| Supervision.UnapprovedSendsNothing | src/heraclitus_attack/safety.py:440-455 | a plan with a step labelled destructive or a request that is not harmless, or labelled destructive itself, run without an authorization that carries the configured token and, where required, a non-blank snapshot: ERROR, zero attempts, no adapter call |
| Supervision.ApprovalDecides | src/heraclitus_attack/safety.py:311-324 | a plan is accepted iff it has no more steps than allowed, all of them acceptable, and, if its effects need one, an authorization with the configured token and, where required, a snapshot |
| Supervision.ApprovedIsAttempted | src/heraclitus_attack/safety.py:440-455 | with it, unchanging tokens and an adapter for every reachable step, the plan is attempted |
| Supervision.AcceptedExactly | src/heraclitus_attack/safety.py:326-438 | a step is accepted iff its tool is allowed, its target is authorized with a listed origin and, without the lab token, on loopback, its timeout, payload and arguments are within bounds, the request that an HTTP tool builds has an allowed method, a plain path and only listed destinations in its query, and no member at any depth has a sensitive key or names a destination that is not listed |
| Safety.NestedExact | src/heraclitus_attack/safety.py:245-276 | the nested targets are exactly the strings directly under a destination key, at any depth |
| Safety.CredentialExact | src/heraclitus_attack/safety.py:365-378 | credentials are refused iff a key at some depth is sensitive |
| Safety.AcceptedStepContained | src/heraclitus_attack/safety.py:408-438 | in an accepted step no key is sensitive, and each destination is a path or an allowlisted origin on loopback or a listed private host |
| Safety.RefusedExactly | src/heraclitus_attack/safety.py:326-438 | beyond the checks that do not look into the tree, a step is refused iff a member is sensitive or a destination, in the tree or the query, is not allowed |
| JsonValues.MembersExact | src/heraclitus_attack/safety.py:268-276 | a walk in document order visits a member iff it sits at some path of the tree |
| JsonValues.StrictExact | src/heraclitus_attack/models.py:52-59 | a value is strict JSON iff no `NaN` and no infinity sits at any path |
| Targets.TcpAccepted | src/heraclitus_attack/safety.py:190-243 | `host:port` is accepted iff the port is in 1 to 65535 and the host is on loopback or, where remote hosts are allowed, a listed private literal |
| Targets.UrlAccepted | src/heraclitus_attack/safety.py:190-223 | a URL of such a host is accepted iff its port is not 0 and HTTPS is used only where it is allowed |
| Targets.UserInfoRefused | src/heraclitus_attack/safety.py:139-145 | a URL with user information is never accepted |
| Targets.ExplicitPort | src/heraclitus_attack/safety.py:226-243 | the canonical form of a URL keeps its port, except that 0 stands for the default one |
| Targets.DefaultPort | src/heraclitus_attack/safety.py:226-243 | the canonical form of a URL without a port has port 80, or 443 for HTTPS |
| Targets.NormaliseExact | src/heraclitus_attack/safety.py:102-103 | a normalised host is a lower-cased part of the host, with only spaces, brackets and dots around it |
| Targets.CanonicalStable | src/heraclitus_attack/safety.py:226-243 | the canonical target is a fixed point and keeps its host iff the normalised host is settled |
| Targets.AcceptedTargetStable | src/heraclitus_attack/safety.py:190-243 | if loopback literals are plain text, an accepted target has a stable canonical form iff it is on loopback or its host is settled |
| Targets.ScopedTargetUnstable | src/heraclitus_attack/safety.py:106-114 | that hypothesis is needed: an accepted loopback target, with a bracket in its scope identifier, whose canonical form changes when canonicalised |
| Targets.BracketedRemoteUnstable | src/heraclitus_attack/safety.py:175-187 | an accepted remote target whose host is not settled: canonicalising twice drops a bracket |
| Targets.CanonicalTextExtends | src/heraclitus_attack/safety.py:226-243 | canonicalising without validation agrees with canonicalising a target that parses |
| Targets.LenientPort | src/heraclitus_attack/safety.py:239-243 | without validation a signed port is read like the port itself |
| Targets.NormaliseTwice | src/heraclitus_attack/safety.py:102-103 | normalising a host twice is harmless iff no space or bracket is left at an edge |
| Targets.NormaliseIsNotIdempotent | src/heraclitus_attack/safety.py:102-103 | a host on which normalising twice differs |
| Tools.GateAdapterAgreement | src/heraclitus_attack/safety.py:76-92 | no authorization is needed iff the step is not labelled destructive, the request the adapter builds is harmless, and a read-only step hides no second payload |
| Tools.MethodAgreement | src/heraclitus_attack/safety.py:34-40 | the classified method is the method sent |
| Tools.McpArgumentsGet | src/heraclitus_attack/tools.py:267-274 | method, path and body of a delegated MCP call in terms of the step's arguments |
| Tools.RequestExact | src/heraclitus_attack/tools.py:153-164 | method, path and body of the request of each HTTP tool in terms of the step's own arguments, with the defaults of that tool |
| Tools.SyntheticExact | src/heraclitus_attack/safety.py:58-73 | a body is the POST that needs no authorization iff it is a JSON-RPC call of the forbidden synthetic tool with the marker among its arguments and no member beside those of such a call |
| Tools.HttpObserved | src/heraclitus_attack/tools.py:180-215 | an HTTP tool reports status, text, size and the method that was sent, or an error and no evidence; a call with a `NaN` timeout is not answered |
| Tools.CounterObserved | src/heraclitus_attack/tools.py:362-391 | the counter tool reports as counter the non-negative integer `hits` of the response, and nothing if there is none |
| Tools.ProbeObserved | src/heraclitus_attack/tools.py:309-334 | a probe reports as evidence whether it connected, and nothing else |
| Oracles.JudgedAlike | src/heraclitus_attack/oracles.py:47-327 | every default oracle depends on the plan only through six metadata keys |
| Verdicts.StatusExact | src/heraclitus_attack/oracles.py:53-135 | once the status oracle can judge: INCONCLUSIVE iff an observed status is declared open, or unexpected in a diagnostic plan; else PASS iff all are expected; else VULNERABLE or FAIL as the plan says |
| Verdicts.StatusUnjudged | src/heraclitus_attack/oracles.py:56-101 | otherwise: INCONCLUSIVE iff nothing is declared or no response counts, ERROR on a list that cannot be read |
| Verdicts.AvailabilityExact | src/heraclitus_attack/oracles.py:144-162 | VULNERABLE iff some observed health value is false, INCONCLUSIVE iff there is none, PASS otherwise |
| Verdicts.ReachabilityExact | src/heraclitus_attack/oracles.py:171-198 | PASS iff some probe was observed and all connected, INCONCLUSIVE otherwise |
| Verdicts.UpstreamExact | src/heraclitus_attack/oracles.py:215-250 | for the first and the last observation that carry a counter: VULNERABLE iff the last is greater, PASS iff they are two and equal, INCONCLUSIVE otherwise |
| Verdicts.CounterExact | src/heraclitus_attack/oracles.py:207-213 | the counter of an observation is the first of three evidence members that is an integer and no Boolean |
| Verdicts.LeakExact | src/heraclitus_attack/oracles.py:259-296 | VULNERABLE iff some non-empty marker occurs at some offset of some captured body, INCONCLUSIVE iff no marker is listed or no body captured, PASS otherwise |
| Verdicts.ReceiptExact | src/heraclitus_attack/oracles.py:305-327 | PASS iff some observation carries a text or an integer with some text under one of three names, INCONCLUSIVE otherwise |
| Verdicts.AnswersUnderOwnName | src/heraclitus_attack/oracles.py:47-327 | each of the six default oracles is registered and answers under its own identifier |
| Verdicts.SameStatusEvidence | src/heraclitus_attack/oracles.py:123-135 | two status failures have the same fingerprint iff the same statuses were counted in the same order |
| Verdicts.SameHealthEvidence | src/heraclitus_attack/oracles.py:155-162 | two health failures have the same fingerprint iff the health values are the same, in order |
| Verdicts.SameEffectEvidence | src/heraclitus_attack/oracles.py:226-250 | two effects have the same fingerprint iff the counter grew by the same amount |
| Verdicts.SameLeakEvidence | src/heraclitus_attack/oracles.py:276-296 | all leaks have the same fingerprint |
| Oracles.IntSetOfInts | src/heraclitus_attack/oracles.py:63-70 | a declared list of integers becomes exactly that set of statuses |
| Pipeline.SeedContract | src/heraclitus_attack/agents/pipeline.py:40-77 | a candidate bound to a seed and rebound by the coordinator carries exactly the seed's oracles and contract metadata |
| Pipeline.CandidateCannotSteerOracles | src/heraclitus_attack/agents/pipeline.py:30-77 | whatever the candidate, the oracles return what they return for the seed |
| Pipeline.RunNonInterference | src/heraclitus_attack/coordinator.py:178-281 | plans with the same steps, risk and contract give the same verdict, attempts, confirmations, results and side effects |
| Pipeline.CandidatesInterchangeable | src/heraclitus_attack/agents/pipeline.py:30-77 | two candidates with the same steps and risk, bound to one seed, are interchangeable in every run |
| Seedless.NeverFails | src/heraclitus_attack/agents/pipeline.py:45-62 | without a seed no environment makes a run report FAIL or VULNERABLE |
| Seedless.CampaignNeverFails | src/heraclitus_attack/agents/pipeline.py:199-205 | a campaign of seedless proposals never reports FAIL or VULNERABLE |
| Seedless.PassExact | src/heraclitus_attack/agents/pipeline.py:33-62 | a seedless attempt passes iff the HTTP tools its plan uses were answered with ordinary statuses only and, if it probes or uses no HTTP tool, some probe was made and all succeeded |
| Seedless.CanPass | src/heraclitus_attack/agents/pipeline.py:33-38 | a seedless plan of HTTP requests passes on one answer with status 200 |
| Seedless.RunPasses | src/heraclitus_attack/coordinator.py:187-237 | a seedless run passes iff its one attempt was not rejected and got such answers |
| Seedless.LabRunPasses | src/heraclitus_attack/tools.py:294-334 | the same in terms of the replies to the calls that were made, with the default adapters; a probe connects only if its target names a port after its last colon, and no call with a `NaN` timeout is answered |
| Seedless.CanPassExactly | src/heraclitus_attack/agents/pipeline.py:33-62 | for a seedless plan that is not rejected part way, some replies and timing give PASS iff the gate accepts it and some first steps within the request budget hold one of each kind it is asked about, with a timeout that is no `NaN`, and no probe that cannot be made |
| Examples.SlashedProbeNeverPasses | src/heraclitus_attack/tools.py:309-334 | a probe of a URL that ends in a slash: accepted by the gate, and no environment makes its plan pass |
| Tools.SlashedProbeUndialable | src/heraclitus_attack/tools.py:309-313 | a probe target that ends in a slash never connects |
| Pipeline.AgentPipeline.Run | src/heraclitus_attack/agents/pipeline.py:148-197 | a result is returned iff none of six stages fails, each a validated and encodable proposal on the plan of the stage before it; it holds seven stages, the last the policy boundary |
| Pipeline.ChainExact | src/heraclitus_attack/agents/pipeline.py:171-191 | a pipeline gets through its stages iff recon, planner, critic, mutator, critic and minimizer each answer with a valid, encodable plan, each but the first shown the plan before it as candidate and as latest prior plan; the minimizer's plan is the last |
| Pipeline.BoundaryExact | src/heraclitus_attack/agents/pipeline.py:63-77 | the boundary changes nothing but the plan's identifier, made from the first 24 digits of the digest, its oracles and its metadata |
| Pipeline.WalkExact | src/heraclitus_attack/agents/base.py:302-323 | the argument walk accepts iff every member at every depth is allowed |
| Pipeline.ProposalExact | src/heraclitus_attack/agents/base.py:326-351 | a role's plan is valid iff it belongs to the campaign, keeps to its size and risk, names only allowed oracles, and every step has an allowed tool, target, timeout and effect and no argument at any depth that is not allowed |
| Pipeline.FinalPlanContained | src/heraclitus_attack/agents/pipeline.py:148-197 | the plan a pipeline ends with keeps to the campaign's tools, targets and size and has its seed's oracles |
| Pipeline.NotesWin | src/heraclitus_attack/agents/pipeline.py:63-77 | the boundary's notes are in the final metadata whatever seed or model say under those keys |
| Pipeline.SeedlessNotes | src/heraclitus_attack/agents/pipeline.py:45-62 | without a seed the metadata is that of a diagnostic plan that claims no vulnerability |
| Pipeline.ValidInAnyHistory | src/heraclitus_attack/agents/base.py:326-351 | validation of a plan does not depend on the plans proposed before it |
| Pipeline.BindingKeepsEffects | src/heraclitus_attack/coordinator.py:105-121 | neither the boundary nor the coordinator's binding changes whether a plan needs authorization |
| Pipeline.AgentsCannotEscalate | src/heraclitus_attack/agents/base.py:326-351 | below the destructive ceiling neither the final plan nor its bound image needs authorization |
| Cli.AgenticVariations | src/heraclitus_attack/cli.py:157-216 | the plans are exactly those of the first requested seeds, diagnostic ones last, whose pipeline run returned one; the other runs are counted as errors; the total stays within max_plans, and each plan is a validated last stage bound to a seed |
| Cli.VariationExact | src/heraclitus_attack/cli.py:206-207 | a variation of a seed is the last plan of a full chain of stages that starts from that seed, bound to it |
| Cli.VariationsInOrder | src/heraclitus_attack/cli.py:184-216 | there is one variation for each seed whose run did not raise, in the order of the seeds |
| Cli.VariationsKeepDecision | src/heraclitus_attack/cli.py:219-237 | outside the destructive profile, adding variations never changes the authorization decision |
| Cli.RequestedExact | src/heraclitus_attack/cli.py:166-169 | none are requested unless enabled; otherwise the cycle's number, the room that the plan budget leaves and the number of seeds are all kept to, and one of them is reached |
| Cli.ContextExact | src/heraclitus_attack/cli.py:177-205 | a variation is confined to the targets of its seed and the campaign's tools, oracles and budgets; destructive risk only in that profile |
| Cli.AuthorizeExact | src/heraclitus_attack/cli.py:219-237 | authorization is needed iff the profile is destructive or some plan needs it, and refused iff then no non-blank snapshot or no token is given; a granted one holds the token and the stripped snapshot |
| Cli.OrderedSeedsPermute | src/heraclitus_attack/cli.py:173-176 | ordering the seeds loses and duplicates none |
| Cli.OrderedSeedsExact | src/heraclitus_attack/cli.py:173-176 | diagnostic seeds come last, and both kinds keep their order |
| Catalog.DenialVulnerable | src/heraclitus_attack/catalog.py:62-113 | VULNERABLE iff every required attempt makes its three calls, is answered without 401 and counts twice without regression, and all show the same positive delta or the same unexpected status |
| Catalog.DenialPasses | src/heraclitus_attack/oracles.py:53-250 | PASS iff the attempt is conclusive, denied and without effect; never when a budget cut it short |
| Catalog.CutEvaluated | src/heraclitus_attack/executor.py:97-109 | an attempt stopped by a budget is inconclusive |
| Catalog.VulnerableCalls | src/heraclitus_attack/coordinator.py:260-281 | a vulnerable denial plan made exactly three calls per required attempt |
| Catalog.BoundDenialContract | src/heraclitus_attack/catalog.py:75-113 | the built and bound denial plan carries the contract the verdict theorems assume |
| Catalog.DenialOnTheWire | src/heraclitus_attack/catalog.py:69-98 | its requests are two reads of the upstream counter around one JSON-RPC call of the named tool at the gateway |
| Catalog.DenialNeedsNone | src/heraclitus_attack/safety.py:43-99 | it needs no authorization iff it calls the forbidden synthetic tool with the marker |
| Schemas.ValidatorExact | src/heraclitus_attack/providers/base.py:73-150 | the validator accepts exactly the values that satisfy the schema reached at every position |
| Schemas.NumbersExact | src/heraclitus_attack/providers/base.py:98-123 | a number satisfies a schema iff its type is admitted, no enum excludes it and it is within the bounds, both included |
| Schemas.TextsExact | src/heraclitus_attack/providers/base.py:98-117 | a text satisfies a schema iff its type is admitted, it is in the enum if there is one, and its length is within the limits, both included |
| Contract.PlanAdmitted | src/heraclitus_attack/agents/base.py:151-218 | the planning roles' schema admits exactly the objects that have all eight members, each of the stated type and within the stated limits, at every step too, and no other member |
| Schemas.UnionSplits | src/heraclitus_attack/providers/base.py:87-96 | retrying the whole schema per union entry is one type check on the flattened union |
| Schemas.ValidatorAgainstStandard | src/heraclitus_attack/providers/base.py:98-144 | a value is accepted iff, wherever the schema reaches, the standard accepts it and it is neither an integral float that only "integer" could admit nor longer than 2147483647 where no limit is written, or it is a `NaN` or infinity that no bound excludes |
| Schemas.TypeDiffersExactly | src/heraclitus_attack/providers/base.py:87-108 | the `type` keyword admits what the standard admits, except an integral float where the union names "integer" and nothing that admits every number |
| Schemas.IntegralFloatRefused | src/heraclitus_attack/providers/base.py:102-108 | 1.0 is refused where "integer" is named |
| Codec.PlanRoundTrip | src/heraclitus_attack/models.py:181-239 | `from_dict(to_dict(p)) == p` iff plan and step identifiers are non-empty |
| Codec.DecodedPlan | src/heraclitus_attack/models.py:181-217 | decoding an encoded plan replaces exactly the empty identifiers |
| Codec.SchemaImpliesCodec | src/heraclitus_attack/agents/base.py:151-218 | a schema-valid value with non-blank text, distinct step identifiers and no `NaN` in arguments and metadata decodes, and encoding gives the same value back |
| Codec.TimeoutSchemaAdmits | src/heraclitus_attack/agents/base.py:151-218 | of the non-finite floats, the schema's bounds on a timeout admit exactly `NaN` |
| Codec.CodecAcceptsExactly | src/heraclitus_attack/models.py:150-217 | on schema-valid values decoding succeeds iff those conditions hold |
| Codec.StepRoundTrip | src/heraclitus_attack/models.py:94-134 | a step survives encoding and decoding, up to an empty identifier |
| Codec.StepFieldsExact | src/heraclitus_attack/models.py:94-122 | a decoded step has no unknown member, takes each member as it is given, and has the default for each that is not |
| Codec.BareStepDecodes | src/heraclitus_attack/models.py:94-122 | a step of nothing but a tool and a target decodes, with every default |
| Codec.BarePlanDecodes | src/heraclitus_attack/models.py:181-217 | a plan of nothing but a title, a hypothesis, one such step and one oracle decodes, with every default |
| Codec.PlanFieldsExact | src/heraclitus_attack/models.py:181-217 | a decoded plan has no unknown member, takes identifiers, texts and risk as given, and has the defaults for what is not |
| Codec.PlanPartsExact | src/heraclitus_attack/models.py:150-217 | it has as many steps as listed, at least one, the oracles as listed, and non-blank texts |
| Relay.RemoteRelaySet.Start | src/heraclitus_attack/arena.py:414-432 | starting succeeds iff no two endpoints share a socket file, and then every port is routed to its own endpoint |
| Relay.FileNameExact | src/heraclitus_attack/arena.py:419-421 | two endpoints share a socket file iff they share name and remote port |
| Relay.DeliveredIsPrefix | src/heraclitus_attack/arena.py:370-388 | in every interleaving, what one end reads is a prefix of what the other wrote, through both bridges |
| Relay.PortReachesItsEndpoint | src/heraclitus_attack/arena.py:390-432 | in every interleaving, a connection keeps to the endpoint that its arena port is declared for |
| Relay.OpenBridgesLoseNothing | src/heraclitus_attack/arena_worker.py:211-227 | while both bridges are open and idle, each has passed on all it took in |
| Relay.Delivers | src/heraclitus_attack/arena.py:370-388 | from any reachable state in which a connection is admitted, its bridges are open and the lock is free, transport steps of that connection alone lead to a state where one end has read exactly what the other has written, in either direction |
| Relay.Exchange | src/heraclitus_attack/arena.py:370-412 | through any declared port with a listening endpoint, some run from the start carries a request and its answer, of any length |
| Relay.ChunkSizes | src/heraclitus_attack/arena.py:374-383 | a waiting bridge can take any 1 to 65536 of the bytes that are there for it, and nothing else |
| Relay.BridgeBreaks | src/heraclitus_attack/arena_worker.py:211-227 | a bridge can end while it waits; a send can break off after any part of its data, which is all that is passed on of it |
| Relay.ClosedMovesNothing | src/heraclitus_attack/arena.py:370-388 | whatever else happens, a closed bridge stays closed and moves nothing in either direction |
| Relay.BytesForwardedExact | src/heraclitus_attack/arena.py:383-385 | no update is lost: the shared byte counter plus the sends on their way to it is the sum of completed sends over all connections |
| Relay.ConnectionsExact | src/heraclitus_attack/arena.py:406-407 | the connection counter is the number of admitted connections |
| Relay.CompletedIsSent | src/heraclitus_attack/arena.py:383-388 | completed sends are bytes handed on, all of them unless the connection's last send raised |
| Relay.MutualExclusion | src/heraclitus_attack/arena.py:384-407 | at most one thread is between acquiring and releasing the statistics lock |
| Relay.RunKeeps | src/heraclitus_attack/arena_worker.py:195-245 | every reachable relay state keeps flow order, routing, lock discipline and both counters |
| Arena.SessionAligned | src/heraclitus_attack/arena.py:735-783 | at most one request is outstanding; step k is numbered k + 1 and holds the answer to the k-th command; at most max_actions steps; `action-budget` iff all were used |
| Arena.ResponsesArriveInOrder | src/heraclitus_attack/arena.py:520-539 | for any client, the j-th response received answers the j-th command sent and is stored under a command sent as many places later as requests had timed out before it arrived |
| Arena.SessionHeld | src/heraclitus_attack/arena.py:735-783 | any commands with any answers, up to the action budget, can be held as a session that records each with its own answer and stops by itself iff the budget is used up |
| Arena.SessionEnds | src/heraclitus_attack/arena.py:735-783 | before that, a session can also end by its deadline or by its agent, with what was recorded |
| Arena.SessionFails | src/heraclitus_attack/arena.py:488-539 | a session fails, with what was recorded, if the agent raises, no response comes in time, the worker has gone, or its answer is out of protocol |
| Arena.NeverStarts | src/heraclitus_attack/arena.py:501-518 | a worker that is not ready, or has gone, ends the run before any command is sent |
| Arena.PatientClientMisaligned | src/heraclitus_attack/arena.py:488-525 | a client that goes on after a timeout stores the first answer under the second command |
| Arena.RunKeeps | src/heraclitus_attack/arena_worker.py:310-343 | every reachable session state keeps request order, response order, numbering and recorded answers |
| Sanitizer.SanitizeIdempotent | src/heraclitus_attack/memory.py:68-104 | sanitizing is idempotent, also when truncated keys collide, and changes nothing exactly on values within the bounds |
| Sanitizer.SanitizedBounded | src/heraclitus_attack/memory.py:68-104 | depth, item, key and string bounds hold at every position of the result |
| Sanitizer.CutKeepsBeginning | src/heraclitus_attack/memory.py:80-81 | a text keeps its beginning, as much of it as the bound allows |
| Sanitizer.FirstItemsKept | src/heraclitus_attack/memory.py:82-92 | an array keeps its first items, each sanitized, in order |
| Sanitizer.LastMemberKept | src/heraclitus_attack/memory.py:93-103 | an object keeps its first members, each sanitized; of those whose cut keys collide the last one counts |
| Sanitizer.SanitizedSize | src/heraclitus_attack/memory.py:68-104 | the result has at most the geometric sum of nodes |
| Sanitizer.DefaultSize | src/heraclitus_attack/memory.py:72-74 | with the default bounds, at most 1090785345 nodes |
| Streams.DigestAndTail | src/heraclitus_attack/arena_worker.py:82-100 | the first min(limit, total) bytes are kept and all bytes hashed and counted, for any split into blocks |
| Prompts.UntrustedBlocks | src/heraclitus_attack/agents/prompts.py:29-48 | at most sixteen blocks within the budget, each the rendering of its observation, stopping only when the next does not fit |
| Prompts.BlockExact | src/heraclitus_attack/agents/prompts.py:32-43 | a block is the opening with its index, a beginning of the observation's text as long as 2048 characters and the rest of the budget allow, and the closing |
| Prompts.ProducedExactly | src/heraclitus_attack/agents/prompts.py:38-47 | the number of blocks is the number of uncut blocks that the budget holds, and they have their full size |
| Prompts.SilentExactly | src/heraclitus_attack/agents/prompts.py:45-48 | no block is emitted iff there is no observation or the first does not fit |
| Prompts.OverrunsExactly | src/heraclitus_attack/agents/prompts.py:29-48 | the joined text exceeds the budget, by at most fifteen characters, iff the blocks that the budget holds leave too little of it for their newlines |
| Prompts.BudgetExceeded | src/heraclitus_attack/agents/prompts.py:43-48 | the loop run on two observations, whose text comes out longer than the budget |
| Routing.RoutingProvider.Select | src/heraclitus_attack/providers/routing.py:33-41 | the shared counter picks from the pool of the role and advances |
| Routing.PoolExact | src/heraclitus_attack/providers/routing.py:33-37 | the pool of a role is the routes that name it, and all routes if none does |
| Routing.RoutingProvider.SelectMany | src/heraclitus_attack/providers/routing.py:33-45 | any requests in a row: request i gets the route at the shared counter plus i, modulo the size of its own pool |
| Routing.RoutingProvider.AlternationStarves | src/heraclitus_attack/providers/routing.py:33-41 | two roles with pools of two that take turns: each always gets the same route |
| Routing.TurnsAreVisits | src/heraclitus_attack/providers/routing.py:36-39 | the routes of a role that comes back every m requests are the visits to its pool |
| Routing.CountExact | src/heraclitus_attack/providers/routing.py:38-39 | how often each route is taken in a window of requests in a row, exactly, from its distance to the counter |
| Routing.VisitCount | src/heraclitus_attack/providers/routing.py:38-39 | the same for a pool of k visited every m requests: a route is taken once in k / gcd(m, k) visits, or never |
| Routing.ReachedExactly | src/heraclitus_attack/providers/routing.py:38-39 | a route is ever taken iff gcd(m, k) divides its distance to the counter |
| Routing.FairExactly | src/heraclitus_attack/providers/routing.py:33-41 | every route gets floor(n/k) or ceil(n/k) of every n visits iff gcd(m, k) is 1 |
| Routing.WindowFair | src/heraclitus_attack/providers/routing.py:33-41 | in any window each route is taken floor(n/k) or ceil(n/k) times, whatever the starting counter |

## Left out

- Network, TLS, subprocess, namespace and file operations: they appear as arbitrary replies, elapsed times and steps.
- Provider clients, prompts' wording, console, report files, argument parsing: a role is any function that returns a plan or raises.
- `urlsplit` beyond `scheme://authority`: control-character stripping, percent-encoded zones and `ipaddress` checks of a bracketed host; malformed authorities are refused where the source may raise another `ValueError`.
- Query strings: the gate takes the destinations found in a query from `Safety.Library`.
- Unicode case mapping, Unicode digits and whitespace outside ASCII; underscores inside numerals given to `int()`.
- JsonValues.PyText: the Python text of floats, lists and objects is abbreviated, so a marker, tool or path given as one of them is not compared literally.
- Finding reasons, oracle reason and detail texts, timestamps and observation identifiers: no decision reads them.
- Codec.StepFromDict: `dict()` of a list of pairs and `float()` of a string are refused; that a `NaN` is not equal to itself is not modelled.
- Budgets read from a configuration file are numbers: `NaN` passes their checks as it passes those of a step.
- Uniqueness of `uuid4` identifiers: fresh identifiers are parameters, assumed distinct by the plan constructor.
- Credential injection and header limits, adapter exceptions that no tool catches, and `execute_step` without a session.
- `_http_plan`: one status oracle on one step, a simpler case of the denial plan.
- Memory sinks and `_memory_prompt_projection`: a filter and a list append around the sanitizer.
- Error texts and paths of the schema validator; schemas whose keywords have another JSON type than the lab's own.
- The worker's `inspect` and `shutdown` requests: the arena loop sends only commands, and closing ends the session.
