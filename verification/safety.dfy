/** Fail-closed validation of plans: what the gate accepts, before any adapter runs. */
module Safety {
  import opened JsonValues
  import opened Models
  import opened Targets

  /** Answers of libraries whose code is not modelled. */
  datatype Library = Library(
    net: Network,
    payloadSize: seq<Field> -> nat,                       // bytes of the encoded arguments
    jsonText: string -> bool,                             // `json.loads` accepts the text
    embedsUrl: string -> bool,                            // a URL inside the decoded path
    queryDestinations: string -> Option<seq<string>>)     // destinations in the query, None over 64 fields

  const HTTP_TOOLS: set<string> := {"http_request", "mcp_call", "upstream_counter"}
  const READ_ONLY: set<string> := {"GET", "HEAD", "OPTIONS"}
  const SYNTHETIC_TOOL := "heraclitus_redteam_forbidden_probe"
  const SYNTHETIC_MARKER := "HERACLITUS_REDTEAM_SYNTHETIC_MARKER"

  // ----- effect classification -----

  function EffectiveMethod(step: AttackStep): Option<string> {
    if step.tool !in HTTP_TOOLS then None
    else
      var default := if step.tool == "mcp_call" then "POST" else "GET";
      Some(Upper(PyText(GetOr(step.arguments, "method", Str(default)))))
  }

  predicate KeysWithin(fields: seq<Field>, names: set<string>) {
    forall f :: f in fields ==> f.key in names
  }

  /** The forbidden-tool call used by the smoke tests, and nothing else. */
  predicate SyntheticCall(body: Json) {
    && body.Obj?
    && KeysWithin(body.fields, {"jsonrpc", "id", "method", "params"})
    && Get(body.fields, "jsonrpc") == Some(Str("2.0"))
    && Get(body.fields, "method") == Some(Str("tools/call"))
    && Get(body.fields, "params").Some?
    && var params := Get(body.fields, "params").value;
    && params.Obj?
    && KeysWithin(params.fields, {"name", "arguments"})
    && Get(params.fields, "name") == Some(Str(SYNTHETIC_TOOL))
    && Get(params.fields, "arguments").Some?
    && var arguments := Get(params.fields, "arguments").value;
    && arguments.Obj?
    && Get(arguments.fields, "marker") == Some(Str(SYNTHETIC_MARKER))
  }

  predicate SafeSyntheticPost(lib: Library, step: AttackStep) {
    && step.tool == "mcp_call"
    && PyText(GetOr(step.arguments, "path", Str("/mcp"))) == "/mcp"
    && var body := GetOr(step.arguments, "body", GetOr(step.arguments, "message", Null));
    if body.Str? then !lib.jsonText(body.text) else SyntheticCall(body)
  }

  predicate EmptyPayload(value: Option<Json>) {
    value.None? || value.value in {Null, Str(""), Obj([]), Arr([])}
  }

  predicate StepRequiresAuthorization(lib: Library, step: AttackStep) {
    if step.destructive then true
    else match EffectiveMethod(step)
      case None => false
      case Some(m) =>
        if m in READ_ONLY then
          !EmptyPayload(Get(step.arguments, "body")) || !EmptyPayload(Get(step.arguments, "message"))
        else !(m == "POST" && SafeSyntheticPost(lib, step))
  }

  predicate PlanRequiresAuthorization(lib: Library, plan: AttackPlan) {
    plan.risk == Destructive || exists i :: 0 <= i < |plan.steps| && StepRequiresAuthorization(lib, plan.steps[i])
  }

  // ----- walks over the arguments -----

  const DESTINATION_KEYS: set<string> := {
    "url", "uri", "target", "endpoint", "base_url", "dest", "destination", "fetch", "host", "link",
    "next", "address", "proxy", "redirect", "return_to", "source", "callback", "webhook"}

  const SENSITIVE_KEYS: set<string> := {
    "authorization", "proxy_authorization", "cookie", "set_cookie", "api_key", "apikey", "token",
    "password", "secret", "client_secret", "credential", "credentials"}

  predicate Destination(f: Field) {
    NormalKey(f.key) in DESTINATION_KEYS && f.value.Str?
  }

  predicate SensitiveKey(key: string) {
    NormalKey(key) in SENSITIVE_KEYS || EndsWith(NormalKey(key), "_token")
  }

  function NestedTargets(j: Json): seq<string>
    decreases j, 1
  {
    match j
    case Obj(fields) => NestedInFields(fields)
    case Arr(items) => NestedInItems(items)
    case _ => []
  }

  function NestedInFields(fields: seq<Field>): seq<string>
    decreases fields, 0
  {
    if fields == [] then []
    else
      (if Destination(fields[0]) then [fields[0].value.text] else [])
      + NestedTargets(fields[0].value) + NestedInFields(fields[1..])
  }

  function NestedInItems(items: seq<Json>): seq<string>
    decreases items, 0
  {
    if items == [] then [] else NestedTargets(items[0]) + NestedInItems(items[1..])
  }

  predicate HasCredential(j: Json)
    decreases j, 1
  {
    match j
    case Obj(fields) => CredentialInFields(fields)
    case Arr(items) => CredentialInItems(items)
    case _ => false
  }

  predicate CredentialInFields(fields: seq<Field>)
    decreases fields, 0
  {
    fields != []
    && (SensitiveKey(fields[0].key) || HasCredential(fields[0].value) || CredentialInFields(fields[1..]))
  }

  predicate CredentialInItems(items: seq<Json>)
    decreases items, 0
  {
    items != [] && (HasCredential(items[0]) || CredentialInItems(items[1..]))
  }

  // ----- the gate -----

  datatype Gate = Gate(config: Config, lib: Library, allowedTargets: set<string>)

  predicate AuthorizationValid(gate: Gate, tokens: Tokens, authorization: Option<Authorization>) {
    && authorization.Some?
    && (gate.config.safety.requireSnapshot ==> !Blank(authorization.value.snapshotId))
    && tokens.destructive.Some?
    && authorization.value.token != ""
    && authorization.value.token == tokens.destructive.value
  }

  predicate TargetAllowed(gate: Gate, target: string) {
    && AuthorizedTarget(gate.lib.net, gate.config.safety, target)
    && CanonicalTarget(target).Some?
    && CanonicalTarget(target).value in gate.allowedTargets
  }

  predicate NestedAllowed(gate: Gate, nested: string) {
    if IsUrl(nested) then TargetAllowed(gate, nested)
    else if StartsWith(nested, "/") then true
    else ':' in nested && TargetAllowed(gate, nested)
  }

  /** `step.timeout_seconds or budget` */
  function RequestedTimeout(step: AttackStep, budgets: Budgets): Double {
    match step.timeout
    case Some(t) => if t != Finite(0.0) then t else Finite(budgets.stepTimeout)
    case None => Finite(budgets.stepTimeout)
  }

  /** `timeout > budget`, which `NaN` never is */
  predicate TimeoutTooLong(step: AttackStep, budgets: Budgets) {
    Below(Finite(budgets.stepTimeout), RequestedTimeout(step, budgets))
  }

  predicate RelativePath(path: string) {
    StartsWith(path, "/") && (StartsWith(path, "//") ==> Authority(path[2..]) == [])
  }

  /** `effective_http_method(step) or "GET"` */
  function GateMethod(step: AttackStep): string {
    match EffectiveMethod(step)
    case Some(m) => if m == "" then "GET" else m
    case None => "GET"
  }

  predicate HttpArgumentsAccepted(gate: Gate, step: AttackStep) {
    step.tool in HTTP_TOOLS ==>
      var path := PyText(GetOr(step.arguments, "path", Str("/")));
      && GateMethod(step) in gate.config.safety.allowedMethods
      && RelativePath(path)
      && !gate.lib.embedsUrl(path)
      && gate.lib.queryDestinations(path).Some?
  }

  /** Destinations in the query string of an HTTP tool's path */
  function QueryValues(gate: Gate, step: AttackStep): seq<string> {
    if step.tool in HTTP_TOOLS then
      match gate.lib.queryDestinations(PyText(GetOr(step.arguments, "path", Str("/"))))
      case Some(found) => found
      case None => []
    else []
  }

  function NestedValues(gate: Gate, step: AttackStep): seq<string> {
    NestedTargets(Obj(step.arguments)) + QueryValues(gate, step)
  }

  predicate StepBasicsAccepted(gate: Gate, tokens: Tokens, step: AttackStep) {
    && step.tool in gate.config.safety.allowedTools
    && TargetAllowed(gate, step.target)
    && (IsRemoteTarget(gate.lib.net, step.target) ==> tokens.remoteLab.Some?)
    && !TimeoutTooLong(step, gate.config.budgets)
    && Strict(Obj(step.arguments))
    && gate.lib.payloadSize(step.arguments) <= gate.config.budgets.maxPayload
  }

  predicate StepAccepted(gate: Gate, tokens: Tokens, step: AttackStep) {
    && StepBasicsAccepted(gate, tokens, step)
    && !HasCredential(Obj(step.arguments))
    && HttpArgumentsAccepted(gate, step)
    && var nested := NestedValues(gate, step);
    forall i :: 0 <= i < |nested| ==> NestedAllowed(gate, nested[i])
  }

  predicate PlanAccepted(gate: Gate, tokens: Tokens, plan: AttackPlan, authorization: Option<Authorization>) {
    && |plan.steps| <= gate.config.budgets.maxSteps
    && (forall i :: 0 <= i < |plan.steps| ==> StepAccepted(gate, tokens, plan.steps[i]))
    && (PlanRequiresAuthorization(gate.lib, plan) ==> AuthorizationValid(gate, tokens, authorization))
  }

  /** The gate object: its allowlist is filled once, entry by entry. */
  class SafetyGate {
    const config: Config
    const lib: Library
    var allowedTargets: set<string>

    ghost function View(): Gate
      reads this
    {
      Gate(config, lib, allowedTargets)
    }

    constructor (config: Config, lib: Library)
      ensures this.config == config && this.lib == lib && allowedTargets == {}
    {
      this.config := config;
      this.lib := lib;
      allowedTargets := {};
    }

    /** False where the constructor of the source raises on the first bad entry. */
    method Configure(configured: seq<string>) returns (ok: bool)
      requires allowedTargets == {}
      modifies this`allowedTargets
      ensures ok <==> forall t :: t in configured ==> AuthorizedTarget(lib.net, config.safety, t)
      ensures ok ==> forall c :: c in allowedTargets <==> exists t :: t in configured && CanonicalTarget(t) == Some(c)
    {
      hide *;
      for i := 0 to |configured|
        invariant forall k :: 0 <= k < i ==> AuthorizedTarget(lib.net, config.safety, configured[k])
        invariant forall c :: c in allowedTargets <==>
          exists k :: 0 <= k < i && CanonicalTarget(configured[k]) == Some(c)
      {
        if !AuthorizedTarget(lib.net, config.safety, configured[i]) {
          assert configured[i] in configured;
          return false;
        }
        allowedTargets := allowedTargets + {CanonicalTarget(configured[i]).value};
      }
      return true;
    }

    method ValidateStep(tokens: Tokens, step: AttackStep) returns (ok: bool)
      ensures ok <==> StepAccepted(View(), tokens, step)
    {
      hide AuthorizedTarget, CanonicalTarget, IsRemoteTarget, IsUrl, GateMethod;
      hide RelativePath, PyText, NestedTargets, HasCredential, Strict, TimeoutTooLong;
      if step.tool !in config.safety.allowedTools
         || !AuthorizedTarget(lib.net, config.safety, step.target)
         || (IsRemoteTarget(lib.net, step.target) && tokens.remoteLab.None?)
         || CanonicalTarget(step.target).value !in allowedTargets
         || TimeoutTooLong(step, config.budgets)
         || !Strict(Obj(step.arguments))
         || lib.payloadSize(step.arguments) > config.budgets.maxPayload
         || HasCredential(Obj(step.arguments))
      {
        return false;
      }
      var nested := NestedTargets(Obj(step.arguments));
      if step.tool in HTTP_TOOLS {
        var path := PyText(GetOr(step.arguments, "path", Str("/")));
        if GateMethod(step) !in config.safety.allowedMethods || !RelativePath(path) || lib.embedsUrl(path) {
          return false;
        }
        match lib.queryDestinations(path) {
          case None => return false;
          case Some(found) => nested := nested + found;
        }
      }
      assert nested == NestedValues(View(), step);
      for i := 0 to |nested|
        invariant forall k :: 0 <= k < i ==> NestedAllowed(View(), nested[k])
      {
        if IsUrl(nested[i]) {
          if !AuthorizedTarget(lib.net, config.safety, nested[i])
             || CanonicalTarget(nested[i]).value !in allowedTargets {
            return false;
          }
        } else if StartsWith(nested[i], "/") {
          continue;
        } else if ':' in nested[i] {
          if !AuthorizedTarget(lib.net, config.safety, nested[i])
             || CanonicalTarget(nested[i]).value !in allowedTargets {
            return false;
          }
        } else {
          return false;
        }
      }
      return true;
    }

    method ValidatePlan(tokens: Tokens, plan: AttackPlan, authorization: Option<Authorization>) returns (ok: bool)
      ensures ok <==> PlanAccepted(View(), tokens, plan, authorization)
    {
      hide StepAccepted, AuthorizationValid, PlanRequiresAuthorization;
      if |plan.steps| > config.budgets.maxSteps {
        return false;
      }
      for i := 0 to |plan.steps|
        invariant forall k :: 0 <= k < i ==> StepAccepted(View(), tokens, plan.steps[k])
      {
        var accepted := ValidateStep(tokens, plan.steps[i]);
        if !accepted {
          return false;
        }
      }
      var needed := PlanRequiresAuthorization(lib, plan);
      var given := ValidateAuthorization(tokens, authorization);
      return !needed || given;
    }

    method ValidateAuthorization(tokens: Tokens, authorization: Option<Authorization>) returns (ok: bool)
      ensures ok <==> AuthorizationValid(View(), tokens, authorization)
    {
      match authorization
      case None => return false;
      case Some(given) =>
        if config.safety.requireSnapshot && Blank(given.snapshotId) {
          return false;
        }
        match tokens.destructive
        case None => return false;
        case Some(expected) => return given.token != "" && given.token == expected;
    }
  }

  // ----- what the walks find -----

  /** `_nested_targets` yields exactly the strings directly under a destination key, at any depth. */
  lemma NestedExact(j: Json, s: string)
    ensures s in NestedTargets(j) <==> exists f :: MemberAnywhere(j, f) && Destination(f) && f.value == Str(s)
  {
    NestedAgainstMembers(j, s);
    forall f ensures f in Members(j) <==> MemberAnywhere(j, f) {
      MembersExact(j, f);
    }
  }

  lemma {:induction false} NestedAgainstMembers(j: Json, s: string)
    ensures s in NestedTargets(j) <==> exists f :: f in Members(j) && Destination(f) && f.value == Str(s)
    decreases j, 1
  {
    match j
    case Obj(fields) => NestedAgainstFields(fields, s);
    case Arr(items) => NestedAgainstItems(items, s);
    case _ =>
  }

  lemma {:induction false} NestedAgainstFields(fields: seq<Field>, s: string)
    ensures s in NestedInFields(fields) <==>
      exists f :: f in MembersOfFields(fields) && Destination(f) && f.value == Str(s)
    decreases fields, 0
  {
    if fields != [] {
      NestedAgainstMembers(fields[0].value, s);
      NestedAgainstFields(fields[1..], s);
      assert fields[0] in MembersOfFields(fields);
    }
  }

  lemma {:induction false} NestedAgainstItems(items: seq<Json>, s: string)
    ensures s in NestedInItems(items) <==> exists f :: f in MembersOfItems(items) && Destination(f) && f.value == Str(s)
    decreases items, 0
  {
    if items != [] {
      NestedAgainstMembers(items[0], s);
      NestedAgainstItems(items[1..], s);
    }
  }

  /** `reject_credentials` raises exactly when some key at some depth is sensitive. */
  lemma CredentialExact(j: Json)
    ensures HasCredential(j) <==> exists f :: MemberAnywhere(j, f) && SensitiveKey(f.key)
  {
    CredentialAgainstMembers(j);
    forall f ensures f in Members(j) <==> MemberAnywhere(j, f) {
      MembersExact(j, f);
    }
  }

  lemma {:induction false} CredentialAgainstMembers(j: Json)
    ensures HasCredential(j) <==> exists f :: f in Members(j) && SensitiveKey(f.key)
    decreases j, 1
  {
    match j
    case Obj(fields) => CredentialAgainstFields(fields);
    case Arr(items) => CredentialAgainstItems(items);
    case _ =>
  }

  lemma {:induction false} CredentialAgainstFields(fields: seq<Field>)
    ensures CredentialInFields(fields) <==> exists f :: f in MembersOfFields(fields) && SensitiveKey(f.key)
    decreases fields, 0
  {
    if fields != [] {
      CredentialAgainstMembers(fields[0].value);
      CredentialAgainstFields(fields[1..]);
      assert fields[0] in MembersOfFields(fields);
    }
  }

  lemma {:induction false} CredentialAgainstItems(items: seq<Json>)
    ensures CredentialInItems(items) <==> exists f :: f in MembersOfItems(items) && SensitiveKey(f.key)
    decreases items, 0
  {
    if items != [] {
      CredentialAgainstMembers(items[0]);
      CredentialAgainstItems(items[1..]);
    }
  }

  /** A host inside the lab: loopback, or a private literal that the operator listed. */
  predicate LabHost(gate: Gate, host: string) {
    || IsLoopbackHost(gate.lib.net, host)
    || (gate.config.safety.allowRemote && RemoteHostAllowed(gate.lib.net, gate.config.safety, host))
  }

  /** What acceptance promises about one destination. */
  predicate Contained(gate: Gate, destination: string) {
    || StartsWith(destination, "/")
    || (&& CanonicalTarget(destination).Some?
        && CanonicalTarget(destination).value in gate.allowedTargets
        && LabHost(gate, TargetHost(destination).value))
  }

  /** Every destination in the arguments of an accepted step stays inside the lab, and no key is sensitive. */
  lemma AcceptedStepContained(gate: Gate, tokens: Tokens, step: AttackStep, f: Field)
    requires StepAccepted(gate, tokens, step)
    requires MemberAnywhere(Obj(step.arguments), f)
    ensures !SensitiveKey(f.key)
    ensures Destination(f) ==> Contained(gate, f.value.text)
    ensures Contained(gate, step.target)
  {
    CredentialExact(Obj(step.arguments));
    if Destination(f) {
      NestedExact(Obj(step.arguments), f.value.text);
      var nested := NestedValues(gate, step);
      assert f.value.text in nested;
      var i :| 0 <= i < |nested| && nested[i] == f.value.text;
      assert NestedAllowed(gate, nested[i]);
    }
  }

  /** Given the checks that do not look inside the tree, a step is refused exactly when some member
      at some depth is sensitive or names a destination outside the lab, or the query names one. */
  lemma RefusedExactly(gate: Gate, tokens: Tokens, step: AttackStep)
    requires StepBasicsAccepted(gate, tokens, step) && HttpArgumentsAccepted(gate, step)
    ensures !StepAccepted(gate, tokens, step) <==>
      || (exists f :: MemberAnywhere(Obj(step.arguments), f)
            && (SensitiveKey(f.key) || (Destination(f) && !NestedAllowed(gate, f.value.text))))
      || (exists q :: q in QueryValues(gate, step) && !NestedAllowed(gate, q))
  {
    hide StepBasicsAccepted, HttpArgumentsAccepted, NestedAllowed, QueryValues;
    hide NestedTargets, HasCredential, SensitiveKey, MemberAnywhere;
    var tree := Obj(step.arguments);
    CredentialExact(tree);
    var nested := NestedValues(gate, step);
    forall s
      ensures s in NestedTargets(tree) <==>
        exists f :: MemberAnywhere(tree, f) && Destination(f) && f.value == Str(s)
    {
      NestedExact(tree, s);
    }
    assert forall s :: s in nested <==> s in NestedTargets(tree) || s in QueryValues(gate, step);
    if i :| 0 <= i < |nested| && !NestedAllowed(gate, nested[i]) {
      assert nested[i] in nested;
    }
  }
}
