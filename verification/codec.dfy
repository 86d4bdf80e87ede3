/** The plan codec: `from_dict`, `to_dict`, and the schema every planning role is held to. */
module Codec {
  import opened JsonValues
  import opened Models
  import opened Oracles
  import opened Schemas

  const STEP_KEYS: seq<string> :=
    ["step_id", "tool", "target", "operation", "arguments", "timeout_seconds", "destructive", "tags"]
  const PLAN_KEYS: seq<string> :=
    ["plan_id", "campaign_id", "title", "hypothesis", "risk", "steps", "oracle_ids", "metadata"]

  // ----- constructor checks -----

  predicate StepOk(step: AttackStep) {
    && !Blank(step.tool) && !Blank(step.target) && !Blank(step.operation)
    && TimeoutOk(step.timeout) && Strict(Obj(step.arguments))
  }

  predicate DistinctIds(steps: seq<AttackStep>) {
    forall i, j :: 0 <= i < j < |steps| ==> steps[i].stepId != steps[j].stepId
  }

  predicate PlanOk(plan: AttackPlan) {
    && !Blank(plan.title) && !Blank(plan.hypothesis)
    && plan.steps != [] && DistinctIds(plan.steps)
    && plan.oracleIds != [] && Strict(Obj(plan.metadata))
    && forall i :: 0 <= i < |plan.steps| ==> StepOk(plan.steps[i])
  }

  // ----- decoding; `None` where the source raises -----

  function Within(fields: seq<Field>, keys: seq<string>): bool {
    forall i :: 0 <= i < |fields| ==> fields[i].key in keys
  }

  /** `str(value.get(key) or fresh)` */
  function IdOr(fields: seq<Field>, key: string, unused: string): string {
    var v := GetOr(fields, key, Null);
    if PyTruth(v) then PyText(v) else unused
  }

  function TextOr(fields: seq<Field>, key: string, default: string): string {
    PyText(GetOr(fields, key, Str(default)))
  }

  /** `dict(value.get(key) or {})` */
  function ObjectOr(fields: seq<Field>, key: string): Option<seq<Field>> {
    var v := GetOr(fields, key, Null);
    if !PyTruth(v) then Some([]) else if v.Obj? then Some(v.fields) else None
  }

  function Texts(items: seq<Json>): (r: seq<string>)
    ensures |r| == |items|
  {
    seq(|items|, i requires 0 <= i < |items| => PyText(items[i]))
  }

  function TagsOf(fields: seq<Field>): Option<seq<string>> {
    var v := GetOr(fields, "tags", Null);
    if !PyTruth(v) then Some([])
    else match PyIter(v) case Some(items) => Some(Texts(items)) case None => None
  }

  /** `None` inside means no timeout; `None` outside that `float()` raises. */
  function TimeoutOf(fields: seq<Field>): Option<Option<Double>> {
    match GetOr(fields, "timeout_seconds", Null)
    case Null => Some(None)
    case Int(n) => Some(Some(Finite(n as real)))
    case Float(r) => Some(Some(r))
    case Bool(b) => Some(Some(Finite(if b then 1.0 else 0.0)))
    case _ => None
  }

  function StepFromDict(j: Json, unused: string): Option<AttackStep> {
    if !j.Obj? || !Within(j.fields, STEP_KEYS) then None
    else
      var arguments :- ObjectOr(j.fields, "arguments");
      var timeout :- TimeoutOf(j.fields);
      var tags :- TagsOf(j.fields);
      var step := AttackStep(
        IdOr(j.fields, "step_id", unused), TextOr(j.fields, "tool", ""), TextOr(j.fields, "target", ""),
        TextOr(j.fields, "operation", "execute"), arguments, timeout,
        PyTruth(GetOr(j.fields, "destructive", Bool(false))), tags);
      if StepOk(step) then Some(step) else None
  }

  function StepsFrom(items: seq<Json>, unused: nat -> string): (r: Option<seq<AttackStep>>)
    ensures r.Some? ==> |r.value| == |items|
  {
    if items == [] then Some([])
    else
      var front :- StepsFrom(items[..|items| - 1], unused);
      var last :- StepFromDict(items[|items| - 1], unused(|items| - 1));
      Some(front + [last])
  }

  function RiskText(r: RiskLevel): string {
    match r case Safe => "safe" case Elevated => "elevated" case Destructive => "destructive"
  }

  function RiskOf(text: string): Option<RiskLevel> {
    if text == "safe" then Some(Safe)
    else if text == "elevated" then Some(Elevated)
    else if text == "destructive" then Some(Destructive)
    else None
  }

  /** Identifiers generated for plans and steps that bring none. */
  datatype Generated = Generated(plan: string, step: nat -> string)

  function FromDict(fields: seq<Field>, ids: Generated): Option<AttackPlan> {
    var steps, oracles := GetOr(fields, "steps", Null), GetOr(fields, "oracle_ids", Null);
    if !Within(fields, PLAN_KEYS) || !steps.Arr? || !oracles.Arr? then None
    else
      var risk :- RiskOf(Lower(TextOr(fields, "risk", "elevated")));
      var decoded :- StepsFrom(steps.items, ids.step);
      var metadata :- ObjectOr(fields, "metadata");
      var campaign := GetOr(fields, "campaign_id", Null);
      var plan := AttackPlan(
        IdOr(fields, "plan_id", ids.plan), if campaign.Null? then None else Some(PyText(campaign)),
        TextOr(fields, "title", ""), TextOr(fields, "hypothesis", ""), risk, decoded, Texts(oracles.items), metadata);
      if PlanOk(plan) then Some(plan) else None
  }

  // ----- encoding -----

  function StrArr(texts: seq<string>): Json {
    Arr(seq(|texts|, i requires 0 <= i < |texts| => Str(texts[i])))
  }

  function StepToDict(step: AttackStep): seq<Field> {
    [Field("step_id", Str(step.stepId)), Field("tool", Str(step.tool)), Field("target", Str(step.target)),
     Field("operation", Str(step.operation)), Field("arguments", Obj(step.arguments)),
     Field("timeout_seconds", match step.timeout case Some(t) => Float(t) case None => Null),
     Field("destructive", Bool(step.destructive)), Field("tags", StrArr(step.tags))]
  }

  function StepDicts(steps: seq<AttackStep>): seq<Json> {
    seq(|steps|, i requires 0 <= i < |steps| => Obj(StepToDict(steps[i])))
  }

  function ToDict(plan: AttackPlan): seq<Field> {
    [Field("plan_id", Str(plan.planId)),
     Field("campaign_id", match plan.campaignId case Some(c) => Str(c) case None => Null),
     Field("title", Str(plan.title)), Field("hypothesis", Str(plan.hypothesis)),
     Field("risk", Str(RiskText(plan.risk))),
     Field("steps", Arr(StepDicts(plan.steps))),
     Field("oracle_ids", StrArr(plan.oracleIds)), Field("metadata", Obj(plan.metadata))]
  }

  // ----- plan to dictionary and back -----

  lemma StepKeysGet(step: AttackStep)
    ensures var d := StepToDict(step);
      && Within(d, STEP_KEYS)
      && Get(d, "step_id") == Some(Str(step.stepId)) && Get(d, "tool") == Some(Str(step.tool))
      && Get(d, "target") == Some(Str(step.target)) && Get(d, "operation") == Some(Str(step.operation))
      && Get(d, "arguments") == Some(Obj(step.arguments))
      && Get(d, "timeout_seconds") == Some(match step.timeout case Some(t) => Float(t) case None => Null)
      && Get(d, "destructive") == Some(Bool(step.destructive)) && Get(d, "tags") == Some(StrArr(step.tags))
  {
    hide Get;
    var d := StepToDict(step);
    assert forall i :: 0 <= i < 8 ==> d[i].key == STEP_KEYS[i];
    assert DistinctKeys(d);
    forall i | 0 <= i < 8 ensures Get(d, d[i].key) == Some(d[i].value) {
      GetOfDistinct(d, i);
    }
    assert d[0].key == "step_id" && d[1].key == "tool" && d[2].key == "target" && d[3].key == "operation";
    assert d[4].key == "arguments" && d[5].key == "timeout_seconds" && d[6].key == "destructive" && d[7].key == "tags";
  }

  lemma PlanKeysGet(plan: AttackPlan)
    ensures var d := ToDict(plan);
      && Within(d, PLAN_KEYS)
      && Get(d, "plan_id") == Some(Str(plan.planId))
      && Get(d, "campaign_id") == Some(match plan.campaignId case Some(c) => Str(c) case None => Null)
      && Get(d, "title") == Some(Str(plan.title)) && Get(d, "hypothesis") == Some(Str(plan.hypothesis))
      && Get(d, "risk") == Some(Str(RiskText(plan.risk)))
      && Get(d, "steps") == Some(Arr(StepDicts(plan.steps)))
      && Get(d, "oracle_ids") == Some(StrArr(plan.oracleIds)) && Get(d, "metadata") == Some(Obj(plan.metadata))
  {
    hide Get, StrArr, StepDicts, RiskText;
    var d := ToDict(plan);
    assert forall i :: 0 <= i < 8 ==> d[i].key == PLAN_KEYS[i];
    assert DistinctKeys(d);
    forall i | 0 <= i < 8 ensures Get(d, d[i].key) == Some(d[i].value) {
      GetOfDistinct(d, i);
    }
    assert d[0].key == "plan_id" && d[1].key == "campaign_id" && d[2].key == "title" && d[3].key == "hypothesis";
    assert d[4].key == "risk" && d[5].key == "steps" && d[6].key == "oracle_ids" && d[7].key == "metadata";
  }

  lemma TextsOfStrings(texts: seq<string>)
    ensures Texts(StrArr(texts).items) == texts
  {
  }

  /** A decoded step differs from the encoded one only in an identifier that was empty. */
  lemma StepRoundTrip(step: AttackStep, unused: string)
    requires StepOk(step)
    ensures StepFromDict(Obj(StepToDict(step)), unused)
      == Some(step.(stepId := if step.stepId == "" then unused else step.stepId))
  {
    hide Get, StepOk, StepToDict, Within;
    var d := StepToDict(step);
    StepKeysGet(step);
    TextsOfStrings(step.tags);
    assert TagsOf(d) == Some(step.tags);
    assert ObjectOr(d, "arguments") == Some(step.arguments);
    assert TimeoutOf(d) == Some(step.timeout);
    hide TagsOf, ObjectOr, TimeoutOf, Texts;
    var renamed := step.(stepId := if step.stepId == "" then unused else step.stepId);
    SameChecks(step, renamed);
  }

  lemma SameChecks(step: AttackStep, renamed: AttackStep)
    requires StepOk(step) && renamed == step.(stepId := renamed.stepId)
    ensures StepOk(renamed)
  {
  }

  function Renamed(steps: seq<AttackStep>, unused: nat -> string): seq<AttackStep> {
    seq(|steps|, i requires 0 <= i < |steps| =>
      steps[i].(stepId := if steps[i].stepId == "" then unused(i) else steps[i].stepId))
  }

  lemma {:induction false} StepsRoundTrip(steps: seq<AttackStep>, unused: nat -> string)
    requires forall i :: 0 <= i < |steps| ==> StepOk(steps[i])
    ensures StepsFrom(StepDicts(steps), unused) == Some(Renamed(steps, unused))
  {
    hide StepFromDict, StepToDict, StepOk;
    if steps != [] {
      var n := |steps| - 1;
      StepsRoundTrip(steps[..n], unused);
      StepRoundTrip(steps[n], unused(n));
      assert StepDicts(steps)[..n] == StepDicts(steps[..n]);
      assert Renamed(steps, unused) == Renamed(steps[..n], unused) + [Renamed(steps, unused)[n]];
    }
  }

  lemma RiskRoundTrip(r: RiskLevel)
    ensures RiskOf(Lower(RiskText(r))) == Some(r)
  {
    var text := RiskText(r);
    assert Lower(text) == text;
  }

  /** What decoding an encoded plan yields: the plan with its empty identifiers generated. */
  lemma DecodedPlan(plan: AttackPlan, ids: Generated)
    requires PlanOk(plan)
    ensures var back := plan.(
        planId := if plan.planId == "" then ids.plan else plan.planId, steps := Renamed(plan.steps, ids.step));
      FromDict(ToDict(plan), ids) == if PlanOk(back) then Some(back) else None
  {
    hide Get, StepsFrom, ToDict, PlanOk, Renamed, StepDicts, Within, Texts, StrArr;
    var d := ToDict(plan);
    PlanKeysGet(plan);
    RiskRoundTrip(plan.risk);
    StepsRoundTrip(plan.steps, ids.step) by {
      PlanStepsOk(plan);
    }
    TextsOfStrings(plan.oracleIds);
    ArrayOfStrings(plan.oracleIds);
    assert GetOr(d, "steps", Null) == Arr(StepDicts(plan.steps))
      && GetOr(d, "oracle_ids", Null) == StrArr(plan.oracleIds);
    assert TextOr(d, "risk", "elevated") == RiskText(plan.risk);
    assert TextOr(d, "title", "") == plan.title && TextOr(d, "hypothesis", "") == plan.hypothesis;
    assert ObjectOr(d, "metadata") == Some(plan.metadata);
    assert IdOr(d, "plan_id", ids.plan) == if plan.planId == "" then ids.plan else plan.planId;
    hide TextOr, ObjectOr, IdOr, RiskOf, RiskText, Lower;
  }

  lemma ArrayOfStrings(texts: seq<string>)
    ensures StrArr(texts).Arr?
  {
  }

  lemma PlanStepsOk(plan: AttackPlan)
    requires PlanOk(plan)
    ensures forall i :: 0 <= i < |plan.steps| ==> StepOk(plan.steps[i])
  {
  }

  /** `from_dict(to_dict(p)) == p` exactly for the plans whose plan and step identifiers are non-empty. */
  lemma PlanRoundTrip(plan: AttackPlan, ids: Generated)
    requires PlanOk(plan)
    requires ids.plan != "" && forall i :: 0 <= i < |plan.steps| ==> ids.step(i) != ""
    ensures FromDict(ToDict(plan), ids) == Some(plan) <==>
      plan.planId != "" && forall i :: 0 <= i < |plan.steps| ==> plan.steps[i].stepId != ""
  {
    hide FromDict, ToDict, PlanOk;
    DecodedPlan(plan, ids);
    var back := Renamed(plan.steps, ids.step);
    assert forall i :: 0 <= i < |plan.steps| && plan.steps[i].stepId == "" ==> back[i] != plan.steps[i];
    if forall i :: 0 <= i < |plan.steps| ==> plan.steps[i].stepId != "" {
      assert back == plan.steps;
    }
  }

  // ----- the schema -----

  function TextSchema(least: int, most: int): Schema {
    ANYTHING.(types := Named("string"), minLength := Some(least), maxLength := Some(most))
  }

  function StepSchema(): Schema {
    ANYTHING.(
      types := Named("object"),
      closed := true,
      required := STEP_KEYS,
      properties := [
        Property("step_id", TextSchema(1, 128)),
        Property("tool", TextSchema(1, 64)),
        Property("target", TextSchema(1, 512)),
        Property("operation", TextSchema(1, 64)),
        Property("arguments", ANYTHING.(types := Named("object"))),
        Property("timeout_seconds",
                 ANYTHING.(types := Union([Named("number"), Named("null")]), minimum := Some(0.1),
                           maximum := Some(120.0))),
        Property("destructive", ANYTHING.(types := Named("boolean"))),
        Property("tags", ANYTHING.(types := Named("array"), maxItems := Some(16),
                                   items := Some(ANYTHING.(types := Named("string"), maxLength := Some(64)))))])
  }

  function PlanSchema(maxSteps: int): Schema {
    ANYTHING.(
      types := Named("object"),
      closed := true,
      required := PLAN_KEYS,
      properties := [
        Property("plan_id", TextSchema(1, 128)),
        Property("campaign_id", ANYTHING.(types := Union([Named("string"), Named("null")]), maxLength := Some(128))),
        Property("title", TextSchema(1, 256)),
        Property("hypothesis", TextSchema(1, 1_024)),
        Property("risk", ANYTHING.(types := Named("string"), choices := Some(["safe", "elevated", "destructive"]))),
        Property("steps",
                 ANYTHING.(types := Named("array"), minItems := Some(1), maxItems := Some(maxSteps),
                           items := Some(StepSchema()))),
        Property("oracle_ids",
                 ANYTHING.(types := Named("array"), minItems := Some(1), maxItems := Some(8),
                           items := Some(TextSchema(1, 64)))),
        Property("metadata", ANYTHING.(types := Named("object")))])
  }

  lemma {:induction false} PropertyAt(properties: seq<Property>, i: nat)
    requires i < |properties| && forall j :: 0 <= j < i ==> properties[j].name != properties[i].name
    ensures PropertyOf(properties, properties[i].name) == Some(properties[i].schema)
  {
    if i > 0 {
      assert properties[1..][i - 1] == properties[i];
      PropertyAt(properties[1..], i - 1);
    }
  }

  lemma {:induction false} MemberValid(fields: seq<Field>, properties: seq<Property>, key: string)
    requires ValidFields(fields, properties) && Get(fields, key).Some? && PropertyOf(properties, key).Some?
    ensures Validate(Get(fields, key).value, PropertyOf(properties, key).value)
  {
    hide Validate;
    if fields[0].key != key {
      MemberValid(fields[1..], properties, key);
    }
  }

  /** An object valid under a closed schema has exactly the required members, each valid. */
  lemma ClosedObject(v: Json, s: Schema, keys: seq<string>)
    requires Validate(v, s) && s.types == Named("object") && s.closed && s.required == keys
    requires |s.properties| == |keys| && forall i :: 0 <= i < |keys| ==> s.properties[i].name == keys[i]
    requires forall i, j :: 0 <= i < j < |keys| ==> keys[i] != keys[j]
    ensures v.Obj? && Within(v.fields, keys)
    ensures forall i :: 0 <= i < |keys| ==>
      Get(v.fields, keys[i]).Some? && Validate(Get(v.fields, keys[i]).value, s.properties[i].schema)
  {
    assert Rest(v, s);
    hide Validate, ValidFields;
    forall i | 0 <= i < |keys|
      ensures Get(v.fields, keys[i]).Some? && Validate(Get(v.fields, keys[i]).value, s.properties[i].schema)
    {
      PropertyAt(s.properties, i);
      MemberValid(v.fields, s.properties, keys[i]);
    }
    forall i | 0 <= i < |v.fields| ensures v.fields[i].key in keys {
      PropertyExact(s.properties, v.fields[i].key);
      var p :| p in s.properties && p.name == v.fields[i].key;
      var j :| 0 <= j < |s.properties| && s.properties[j] == p;
      assert keys[j] == p.name;
    }
  }

  lemma TextValid(v: Json, least: int, most: int)
    requires Validate(v, TextSchema(least, most))
    ensures v.Str? && least <= |v.text| <= most
  {
  }

  lemma TypedValid(v: Json, s: Schema, name: string)
    requires Validate(v, s) && s.types == Named(name)
    ensures TypeOk(v, name) && Rest(v, s)
  {
    hide Rest;
  }

  lemma PairValid(v: Json, s: Schema, a: string, b: string)
    requires Validate(v, s) && s.types == Union([Named(a), Named(b)])
    ensures (TypeOk(v, a) || TypeOk(v, b)) && Rest(v, s)
  {
    hide Rest;
    UnionSplits(v, s);
    var i :| 0 <= i < 2 && MatchesType(v, s.types.options[i]);
  }

  lemma ItemsAreTexts(items: seq<Json>, s: Schema)
    requires ValidItems(items, s) && s.types == Named("string")
    ensures forall i :: 0 <= i < |items| ==> items[i].Str?
  {
    hide Rest;
    ItemsExact(items, s);
    forall i | 0 <= i < |items| ensures items[i].Str? {
      TypedValid(items[i], s, "string");
    }
  }

  // ----- dictionary to plan and back -----

  /** Equal as Python values: an integer may come back as the float of the same value. */
  predicate SameNumber(a: Json, b: Json) {
    a == b || (NumberOf(a).Some? && NumberOf(a) == NumberOf(b))
  }

  predicate SameMember(a: seq<Field>, b: seq<Field>, key: string) {
    Get(a, key).Some? && Get(a, key) == Get(b, key)
  }

  /** The same step dictionary, up to member order and the number form of the timeout. */
  predicate SameStepDict(a: Json, b: Json) {
    && a.Obj? && b.Obj? && Within(a.fields, STEP_KEYS) && Within(b.fields, STEP_KEYS)
    && SameMember(a.fields, b.fields, "step_id") && SameMember(a.fields, b.fields, "tool")
    && SameMember(a.fields, b.fields, "target") && SameMember(a.fields, b.fields, "operation")
    && SameMember(a.fields, b.fields, "arguments") && SameMember(a.fields, b.fields, "destructive")
    && SameMember(a.fields, b.fields, "tags")
    && Get(a.fields, "timeout_seconds").Some? && Get(b.fields, "timeout_seconds").Some?
    && SameNumber(Get(a.fields, "timeout_seconds").value, Get(b.fields, "timeout_seconds").value)
  }

  /** The same plan dictionary, up to member order and the number form of timeouts. */
  predicate SamePlanDict(a: seq<Field>, b: seq<Field>) {
    && Within(a, PLAN_KEYS) && Within(b, PLAN_KEYS)
    && SameMember(a, b, "plan_id") && SameMember(a, b, "campaign_id") && SameMember(a, b, "title")
    && SameMember(a, b, "hypothesis") && SameMember(a, b, "risk") && SameMember(a, b, "oracle_ids")
    && SameMember(a, b, "metadata")
    && Get(a, "steps").Some? && Get(b, "steps").Some? && Get(a, "steps").value.Arr? && Get(b, "steps").value.Arr?
    && var x, y := Get(a, "steps").value.items, Get(b, "steps").value.items;
       |x| == |y| && forall k :: 0 <= k < |x| ==> SameStepDict(x[k], y[k])
  }

  /** The text the schema cannot check: not blank. */
  predicate NonBlankText(fields: seq<Field>, key: string) {
    Get(fields, key).Some? && Get(fields, key).value.Str? && !Blank(Get(fields, key).value.text)
  }

  /** Nor can it see `NaN` and the infinities inside an object it leaves open. */
  predicate StrictMember(fields: seq<Field>, key: string) {
    Get(fields, key).Some? && Strict(Get(fields, key).value)
  }

  predicate StepBeyondSchema(j: Json) {
    && j.Obj? && NonBlankText(j.fields, "tool") && NonBlankText(j.fields, "target")
    && NonBlankText(j.fields, "operation") && StrictMember(j.fields, "arguments")
  }

  /** The typed members of a step that the schema guarantees. */
  predicate StepTyped(fields: seq<Field>) {
    && Within(fields, STEP_KEYS)
    && Get(fields, "step_id").Some? && Get(fields, "step_id").value.Str? && Get(fields, "step_id").value.text != ""
    && Get(fields, "tool").Some? && Get(fields, "tool").value.Str?
    && Get(fields, "target").Some? && Get(fields, "target").value.Str?
    && Get(fields, "operation").Some? && Get(fields, "operation").value.Str?
    && Get(fields, "arguments").Some? && Get(fields, "arguments").value.Obj?
    && Get(fields, "timeout_seconds").Some?
    && (Get(fields, "timeout_seconds").value.Null?
        || (NumberOf(Get(fields, "timeout_seconds").value).Some?
            && TimeoutOk(NumberOf(Get(fields, "timeout_seconds").value))))
    && Get(fields, "destructive").Some? && Get(fields, "destructive").value.Bool?
    && Get(fields, "tags").Some? && Get(fields, "tags").value.Arr?
    && forall k :: 0 <= k < |Get(fields, "tags").value.items| ==> Get(fields, "tags").value.items[k].Str?
  }

  lemma StepSchemaTypes(j: Json)
    requires Validate(j, StepSchema())
    ensures j.Obj? && StepTyped(j.fields)
  {
    hide Get, Validate, ValidFields, ValidItems;
    var s := StepSchema();
    ClosedObject(j, s, STEP_KEYS);
    var f := j.fields;
    assert Get(f, STEP_KEYS[0]).Some? && Get(f, STEP_KEYS[1]).Some? && Get(f, STEP_KEYS[2]).Some?
      && Get(f, STEP_KEYS[3]).Some?;
    TextValid(Get(f, STEP_KEYS[0]).value, 1, 128);
    TextValid(Get(f, STEP_KEYS[1]).value, 1, 64);
    TextValid(Get(f, STEP_KEYS[2]).value, 1, 512);
    TextValid(Get(f, STEP_KEYS[3]).value, 1, 64);
    assert Get(f, STEP_KEYS[4]).Some? && Get(f, STEP_KEYS[5]).Some? && Get(f, STEP_KEYS[6]).Some?
      && Get(f, STEP_KEYS[7]).Some?;
    TypedValid(Get(f, STEP_KEYS[4]).value, s.properties[4].schema, "object");
    PairValid(Get(f, STEP_KEYS[5]).value, s.properties[5].schema, "number", "null");
    TypedValid(Get(f, STEP_KEYS[6]).value, s.properties[6].schema, "boolean");
    TypedValid(Get(f, STEP_KEYS[7]).value, s.properties[7].schema, "array");
    ItemsAreTexts(Get(f, STEP_KEYS[7]).value.items, s.properties[7].schema.items.value);
  }

  lemma StringsOfTexts(items: seq<Json>)
    requires forall k :: 0 <= k < |items| ==> items[k].Str?
    ensures StrArr(Texts(items)) == Arr(items)
  {
    var back := StrArr(Texts(items)).items;
    assert forall k :: 0 <= k < |items| ==> back[k] == items[k];
    assert back == items;
  }

  lemma TypedParts(f: seq<Field>)
    requires StepTyped(f)
    ensures TagsOf(f) == Some(Texts(Get(f, "tags").value.items))
    ensures Get(f, "tags") == Some(StrArr(Texts(Get(f, "tags").value.items)))
    ensures ObjectOr(f, "arguments") == Some(Get(f, "arguments").value.fields)
    ensures TimeoutOf(f).Some? && TimeoutOk(TimeoutOf(f).value)
    ensures Get(f, "destructive") == Some(Bool(PyTruth(GetOr(f, "destructive", Bool(false)))))
  {
    hide Get, Within;
    var tags := Get(f, "tags").value.items;
    StringsOfTexts(tags);
    assert tags == [] ==> Texts(tags) == [];
  }

  /** The members of a typed step, one by one. */
  lemma StepMembers(j: Json, unused: string)
    requires j.Obj? && StepTyped(j.fields) && StepBeyondSchema(j)
    ensures var r := StepFromDict(j, unused);
      && r.Some?
      && Get(j.fields, "step_id") == Some(Str(r.value.stepId)) && Get(j.fields, "tool") == Some(Str(r.value.tool))
      && Get(j.fields, "target") == Some(Str(r.value.target))
      && Get(j.fields, "operation") == Some(Str(r.value.operation))
      && Get(j.fields, "arguments") == Some(Obj(r.value.arguments))
      && TimeoutOf(j.fields) == Some(r.value.timeout)
      && Get(j.fields, "destructive") == Some(Bool(r.value.destructive))
      && Get(j.fields, "tags") == Some(StrArr(r.value.tags))
  {
    TypedParts(j.fields);
    hide Get, Blank, Within, TagsOf, StrArr, Texts, ObjectOr, TimeoutOf;
  }

  /** A schema-valid step with non-blank text decodes, keeps its identifier, and encodes back. */
  lemma StepDecodes(j: Json, unused: string)
    requires Validate(j, StepSchema()) && StepBeyondSchema(j)
    ensures var r := StepFromDict(j, unused);
      && r.Some? && Get(j.fields, "step_id") == Some(Str(r.value.stepId))
      && SameStepDict(Obj(StepToDict(r.value)), j)
  {
    hide *;
    StepSchemaTypes(j);
    assert j.Obj?;
    StepMembers(j, unused);
    StepDictSame(j, StepFromDict(j, unused).value);
  }

  lemma StepDictSame(j: Json, step: AttackStep)
    requires j.Obj? && StepTyped(j.fields)
    requires Get(j.fields, "step_id") == Some(Str(step.stepId)) && Get(j.fields, "tool") == Some(Str(step.tool))
    requires Get(j.fields, "target") == Some(Str(step.target))
      && Get(j.fields, "operation") == Some(Str(step.operation))
    requires Get(j.fields, "arguments") == Some(Obj(step.arguments))
    requires TimeoutOf(j.fields) == Some(step.timeout)
    requires Get(j.fields, "destructive") == Some(Bool(step.destructive))
    requires Get(j.fields, "tags") == Some(StrArr(step.tags))
    ensures SameStepDict(Obj(StepToDict(step)), j)
  {
    hide Get, Within, StepToDict, StrArr;
    StepKeysGet(step);
  }

  /** The identifiers of the steps, as the dictionary spells them, are distinct. */
  predicate DistinctStepIds(items: seq<Json>) {
    forall i, k :: 0 <= i < k < |items| && items[i].Obj? && items[k].Obj? ==>
      Get(items[i].fields, "step_id") != Get(items[k].fields, "step_id")
  }

  lemma {:induction false} StepsDecode(items: seq<Json>, unused: nat -> string)
    requires ValidItems(items, StepSchema())
    requires forall k :: 0 <= k < |items| ==> StepBeyondSchema(items[k])
    ensures var r := StepsFrom(items, unused);
      && r.Some?
      && forall k :: 0 <= k < |items| ==>
           && StepFromDict(items[k], unused(k)) == Some(r.value[k])
           && Get(items[k].fields, "step_id") == Some(Str(r.value[k].stepId))
           && SameStepDict(Obj(StepToDict(r.value[k])), items[k])
  {
    hide Validate, StepFromDict, SameStepDict, StepToDict, StepBeyondSchema;
    if items != [] {
      var n := |items| - 1;
      ItemsExact(items, StepSchema());
      ItemsExact(items[..n], StepSchema());
      StepsDecode(items[..n], unused);
      assert StepBeyondSchema(items[n]);
      StepDecodes(items[n], unused(n)) by {
        assert StepBeyondSchema(items[n]);
      }
      var front := StepsFrom(items[..n], unused).value;
      assert forall k :: 0 <= k < n ==> items[..n][k] == items[k];
      assert StepsFrom(items, unused).value == front + [StepFromDict(items[n], unused(n)).value];
    }
  }

  /** The typed members of a plan that the schema guarantees. */
  predicate PlanTyped(f: seq<Field>) {
    && Within(f, PLAN_KEYS)
    && Get(f, "plan_id").Some? && Get(f, "plan_id").value.Str? && Get(f, "plan_id").value.text != ""
    && Get(f, "campaign_id").Some? && (Get(f, "campaign_id").value.Str? || Get(f, "campaign_id").value.Null?)
    && Get(f, "title").Some? && Get(f, "title").value.Str?
    && Get(f, "hypothesis").Some? && Get(f, "hypothesis").value.Str?
    && Get(f, "risk").Some? && Get(f, "risk").value.Str?
    && Get(f, "risk").value.text in ["safe", "elevated", "destructive"]
    && Get(f, "steps").Some? && Get(f, "steps").value.Arr? && Get(f, "steps").value.items != []
    && ValidItems(Get(f, "steps").value.items, StepSchema())
    && Get(f, "oracle_ids").Some? && Get(f, "oracle_ids").value.Arr? && Get(f, "oracle_ids").value.items != []
    && (forall k :: 0 <= k < |Get(f, "oracle_ids").value.items| ==> Get(f, "oracle_ids").value.items[k].Str?)
    && Get(f, "metadata").Some? && Get(f, "metadata").value.Obj?
  }

  lemma PlanSchemaTypes(v: Json, maxSteps: int)
    requires Validate(v, PlanSchema(maxSteps))
    ensures v.Obj? && PlanTyped(v.fields)
  {
    hide Get, Validate, ValidFields, ValidItems, StepSchema;
    var s := PlanSchema(maxSteps);
    ClosedObject(v, s, PLAN_KEYS);
    var f := v.fields;
    assert Get(f, PLAN_KEYS[0]).Some? && Get(f, PLAN_KEYS[1]).Some? && Get(f, PLAN_KEYS[2]).Some?
      && Get(f, PLAN_KEYS[3]).Some?;
    TextValid(Get(f, PLAN_KEYS[0]).value, 1, 128);
    PairValid(Get(f, PLAN_KEYS[1]).value, s.properties[1].schema, "string", "null");
    TextValid(Get(f, PLAN_KEYS[2]).value, 1, 256);
    TextValid(Get(f, PLAN_KEYS[3]).value, 1, 1_024);
    assert Get(f, PLAN_KEYS[4]).Some? && Get(f, PLAN_KEYS[5]).Some? && Get(f, PLAN_KEYS[6]).Some?
      && Get(f, PLAN_KEYS[7]).Some?;
    TypedValid(Get(f, PLAN_KEYS[4]).value, s.properties[4].schema, "string");
    TypedValid(Get(f, PLAN_KEYS[5]).value, s.properties[5].schema, "array");
    TypedValid(Get(f, PLAN_KEYS[6]).value, s.properties[6].schema, "array");
    ItemsAreTexts(Get(f, PLAN_KEYS[6]).value.items, TextSchema(1, 64));
    TypedValid(Get(f, PLAN_KEYS[7]).value, s.properties[7].schema, "object");
  }

  /** `NaN` passes the bounds that the schema sets for a timeout; no other non-finite float does. */
  lemma TimeoutSchemaAdmits(d: Double)
    requires !d.Finite?
    ensures Validate(Float(d), StepSchema().properties[5].schema) <==> d == NotANumber
  {
    var s := StepSchema().properties[5].schema;
    UnionSplits(Float(d), s);
    hide Validate;
    assert s.types.options[0] == Named("number") && TypeOk(Float(d), "number");
    assert MatchesType(Float(d), s.types.options[0]);
  }

  /** What the schema cannot see: non-blank text, distinct step identifiers, no `NaN` in the open objects. */
  predicate BeyondSchema(f: seq<Field>) {
    && NonBlankText(f, "title") && NonBlankText(f, "hypothesis") && StrictMember(f, "metadata")
    && Get(f, "steps").Some? && Get(f, "steps").value.Arr?
    && DistinctStepIds(Get(f, "steps").value.items)
    && forall k :: 0 <= k < |Get(f, "steps").value.items| ==> StepBeyondSchema(Get(f, "steps").value.items[k])
  }

  lemma RiskChoice(text: string)
    requires text in ["safe", "elevated", "destructive"]
    ensures RiskOf(Lower(text)).Some? && RiskText(RiskOf(Lower(text)).value) == text
  {
    assert Lower("safe") == "safe";
    assert Lower("elevated") == "elevated";
    assert Lower("destructive") == "destructive";
  }

  /** Every schema-valid value that meets these conditions decodes to a plan, and encoding that plan gives
      the same value back. */
  lemma SchemaImpliesCodec(v: Json, maxSteps: int, ids: Generated)
    requires Validate(v, PlanSchema(maxSteps)) && v.Obj? && BeyondSchema(v.fields)
    ensures FromDict(v.fields, ids).Some?
    ensures SamePlanDict(ToDict(FromDict(v.fields, ids).value), v.fields)
  {
    PlanSchemaTypes(v, maxSteps);
    hide Validate, Get, Blank, StepSchema, ValidItems, StepsFrom, StepBeyondSchema;
    hide SameStepDict, StepToDict, Lower, StepOk, StepFromDict, Within;
    hide SamePlanDict, ToDict, StrArr, Texts, RiskOf, RiskText, DistinctIds, DistinctStepIds;
    var f := v.fields;
    var items := Get(f, "steps").value.items;
    StepsDecode(items, ids.step);
    var steps := StepsFrom(items, ids.step).value;
    DecodedStepsOk(items, ids.step, steps);
    RiskChoice(Get(f, "risk").value.text);
    StringsOfTexts(Get(f, "oracle_ids").value.items);
    var plan := FromDict(f, ids);
    PlanDecodes(f, ids);
    PlanDictSame(f, plan.value);
  }

  /** The members of a typed dictionary, one by one. */
  lemma PlanDecodes(f: seq<Field>, ids: Generated)
    requires PlanTyped(f) && BeyondSchema(f)
    requires var items := Get(f, "steps").value.items;
      StepsFrom(items, ids.step).Some? && DistinctIds(StepsFrom(items, ids.step).value)
      && forall k :: 0 <= k < |items| ==> StepOk(StepsFrom(items, ids.step).value[k])
    ensures var plan := FromDict(f, ids);
      && plan.Some?
      && Get(f, "plan_id") == Some(Str(plan.value.planId))
      && Get(f, "campaign_id") == Some(match plan.value.campaignId case Some(c) => Str(c) case None => Null)
      && Get(f, "title") == Some(Str(plan.value.title)) && Get(f, "hypothesis") == Some(Str(plan.value.hypothesis))
      && Get(f, "risk") == Some(Str(RiskText(plan.value.risk)))
      && plan.value.oracleIds == Texts(Get(f, "oracle_ids").value.items)
      && Get(f, "metadata") == Some(Obj(plan.value.metadata))
      && plan.value.steps == StepsFrom(Get(f, "steps").value.items, ids.step).value
  {
    hide Get, Blank, ValidItems, StepSchema, StepsFrom, StepBeyondSchema, Lower;
    hide StepOk, Within, RiskText, RiskOf, DistinctIds, DistinctStepIds;
    RiskChoice(Get(f, "risk").value.text);
    assert ObjectOr(f, "metadata") == Some(Get(f, "metadata").value.fields);
  }

  lemma {:induction false} StepsFromEach(items: seq<Json>, unused: nat -> string)
    requires StepsFrom(items, unused).Some?
    ensures forall k :: 0 <= k < |items| ==>
      StepFromDict(items[k], unused(k)) == Some(StepsFrom(items, unused).value[k])
  {
    hide StepFromDict;
    if items != [] {
      StepsFromEach(items[..|items| - 1], unused);
    }
  }

  /** A decoded typed step met the conditions, and kept its identifier. */
  lemma DecodedStepText(j: Json, unused: string)
    requires j.Obj? && StepTyped(j.fields) && StepFromDict(j, unused).Some?
    ensures StepBeyondSchema(j) && Get(j.fields, "step_id") == Some(Str(StepFromDict(j, unused).value.stepId))
  {
    TypedParts(j.fields);
    hide Get, Blank, Within, TagsOf, ObjectOr, TimeoutOf, Strict;
  }

  /** An object member that is there is what `dict(value or {})` gives. */
  lemma ObjectMember(f: seq<Field>, key: string)
    requires Get(f, key).Some? && Get(f, key).value.Obj?
    ensures ObjectOr(f, key) == Some(Get(f, key).value.fields)
  {
    hide Get;
  }

  /** On schema-valid values the extra conditions are exact: decoding succeeds if and only if they hold. */
  lemma CodecAcceptsExactly(v: Json, maxSteps: int, ids: Generated)
    requires Validate(v, PlanSchema(maxSteps)) && v.Obj?
    ensures FromDict(v.fields, ids).Some? <==> BeyondSchema(v.fields)
  {
    hide Validate, Get, Blank, StepSchema, StepsFrom, StepFromDict;
    hide StepBeyondSchema, StepTyped, RiskOf, Within, Texts, ObjectOr, Strict;
    if BeyondSchema(v.fields) {
      SchemaImpliesCodec(v, maxSteps, ids);
    }
    if FromDict(v.fields, ids).Some? {
      PlanSchemaTypes(v, maxSteps);
      var items := Get(v.fields, "steps").value.items;
      ItemsExact(items, StepSchema());
      StepsFromEach(items, ids.step);
      ObjectMember(v.fields, "metadata");
      forall k | 0 <= k < |items|
        ensures StepBeyondSchema(items[k]) && items[k].Obj?
        ensures Get(items[k].fields, "step_id") == Some(Str(StepsFrom(items, ids.step).value[k].stepId))
      {
        StepSchemaTypes(items[k]);
        DecodedStepText(items[k], ids.step(k));
      }
    }
  }

  lemma DecodedStepsOk(items: seq<Json>, unused: nat -> string, steps: seq<AttackStep>)
    requires |steps| == |items| && DistinctStepIds(items)
    requires forall k :: 0 <= k < |items| ==>
      StepFromDict(items[k], unused(k)) == Some(steps[k]) && items[k].Obj?
        && Get(items[k].fields, "step_id") == Some(Str(steps[k].stepId))
    ensures DistinctIds(steps) && forall k :: 0 <= k < |steps| ==> StepOk(steps[k])
  {
    hide Get, TagsOf, TimeoutOf, ObjectOr, StepOk;
    forall k | 0 <= k < |steps| ensures StepOk(steps[k]) {
      assert StepFromDict(items[k], unused(k)).Some?;
    }
    forall i, k | 0 <= i < k < |steps| ensures steps[i].stepId != steps[k].stepId {
      assert Get(items[i].fields, "step_id") != Get(items[k].fields, "step_id");
    }
  }

  lemma PlanDictSame(f: seq<Field>, plan: AttackPlan)
    requires PlanTyped(f)
    requires Get(f, "plan_id") == Some(Str(plan.planId))
    requires Get(f, "campaign_id") == Some(match plan.campaignId case Some(c) => Str(c) case None => Null)
    requires Get(f, "title") == Some(Str(plan.title)) && Get(f, "hypothesis") == Some(Str(plan.hypothesis))
    requires Get(f, "risk") == Some(Str(RiskText(plan.risk)))
    requires Get(f, "oracle_ids") == Some(StrArr(plan.oracleIds)) && Get(f, "metadata") == Some(Obj(plan.metadata))
    requires |Get(f, "steps").value.items| == |plan.steps|
    requires forall k :: 0 <= k < |plan.steps| ==>
      SameStepDict(Obj(StepToDict(plan.steps[k])), Get(f, "steps").value.items[k])
    ensures SamePlanDict(ToDict(plan), f)
  {
    hide Get, StepToDict, SameStepDict, ValidItems, Within, StrArr, ToDict, RiskText;
    PlanKeysGet(plan);
    var x := StepDicts(plan.steps);
    assert forall k :: 0 <= k < |x| ==> x[k] == Obj(StepToDict(plan.steps[k]));
  }

  // ----- what a decoded dictionary says, member by member -----

  /** A decoded step: no unknown member, text where text is needed, and the defaults for what is not there. */
  lemma StepFieldsExact(j: Json, unused: string)
    requires StepFromDict(j, unused).Some?
    ensures j.Obj? && forall f :: f in j.fields ==> f.key in STEP_KEYS
    ensures var s, f := StepFromDict(j, unused).value, j.fields;
      && !Blank(s.tool) && !Blank(s.target) && !Blank(s.operation) && Strict(Obj(s.arguments))
      && (Get(f, "step_id").None? ==> s.stepId == unused)
      && (forall id :: Get(f, "step_id") == Some(Str(id)) && id != "" ==> s.stepId == id)
      && (forall x :: Get(f, "tool") == Some(Str(x)) ==> s.tool == x)
      && (forall x :: Get(f, "target") == Some(Str(x)) ==> s.target == x)
      && (Get(f, "operation").None? ==> s.operation == "execute")
      && (forall x :: Get(f, "operation") == Some(Str(x)) ==> s.operation == x)
      && (Get(f, "arguments").None? ==> s.arguments == [])
      && (forall x :: Get(f, "arguments") == Some(Obj(x)) ==> s.arguments == x)
      && (Get(f, "timeout_seconds").None? || Get(f, "timeout_seconds") == Some(Null) ==> s.timeout == None)
      && (forall x :: Get(f, "timeout_seconds") == Some(Float(x)) ==> s.timeout == Some(x))
      && (forall x :: Get(f, "timeout_seconds") == Some(Int(x)) ==> s.timeout == Some(Finite(x as real)))
      && (forall x :: Get(f, "timeout_seconds") == Some(Bool(x)) ==> x && s.timeout == Some(Finite(1.0)))
      && (forall x :: s.timeout == Some(Finite(x)) ==> x > 0.0)
      && (Get(f, "destructive").None? ==> !s.destructive)
      && (forall x :: Get(f, "destructive") == Some(Bool(x)) ==> s.destructive == x)
      && (Get(f, "tags").None? ==> s.tags == [])
  {
    hide Get, Blank, Strict, Texts;
  }

  /** A step of nothing but a tool and a target decodes, with every default. */
  lemma BareStepDecodes(tool: string, target: string, unused: string)
    requires !Blank(tool) && !Blank(target)
    ensures StepFromDict(Obj([Field("tool", Str(tool)), Field("target", Str(target))]), unused)
         == Some(AttackStep(unused, tool, target, "execute", [], None, false, []))
  {
    hide Get, Blank, Strict, PyIter;
    var f := [Field("tool", Str(tool)), Field("target", Str(target))];
    BareMembers(f, tool, target);
    assert Within(f, STEP_KEYS) by {
      assert STEP_KEYS[1] == "tool" && STEP_KEYS[2] == "target";
    }
  }

  lemma BareMembers(f: seq<Field>, tool: string, target: string)
    requires f == [Field("tool", Str(tool)), Field("target", Str(target))]
    ensures Get(f, "tool") == Some(Str(tool)) && Get(f, "target") == Some(Str(target))
    ensures Get(f, "step_id").None? && Get(f, "operation").None? && Get(f, "arguments").None?
    ensures Get(f, "timeout_seconds").None? && Get(f, "destructive").None? && Get(f, "tags").None?
    ensures !Blank("execute") && Strict(Obj([]))
  {
    hide Get;
    GetOfDistinct(f, 0);
    GetOfDistinct(f, 1);
    GetIsMember(f, "step_id");
    GetIsMember(f, "operation");
    GetIsMember(f, "arguments");
    GetIsMember(f, "timeout_seconds");
    GetIsMember(f, "destructive");
    GetIsMember(f, "tags");
    assert forall x :: x in f ==> x.key == "tool" || x.key == "target";
    assert "execute"[0] == 'e' && !IsSpace('e');
  }

  /** A plan of nothing but a title, a hypothesis, one such step and one oracle decodes, with every default. */
  lemma BarePlanDecodes(title: string, hypothesis: string, tool: string, target: string, oracle: string, ids: Generated)
    requires !Blank(title) && !Blank(hypothesis) && !Blank(tool) && !Blank(target)
    ensures
      var step := Obj([Field("tool", Str(tool)), Field("target", Str(target))]);
      var f := [Field("title", Str(title)), Field("hypothesis", Str(hypothesis)), Field("steps", Arr([step])),
                Field("oracle_ids", Arr([Str(oracle)]))];
      FromDict(f, ids)
        == Some(AttackPlan(ids.plan, None, title, hypothesis, Elevated,
                           [AttackStep(ids.step(0), tool, target, "execute", [], None, false, [])], [oracle], []))
  {
    var step := Obj([Field("tool", Str(tool)), Field("target", Str(target))]);
    var f := [Field("title", Str(title)), Field("hypothesis", Str(hypothesis)), Field("steps", Arr([step])),
              Field("oracle_ids", Arr([Str(oracle)]))];
    hide Get, Blank, Strict, StepFromDict, FromDict;
    BareStepDecodes(tool, target, ids.step(0));
    OneStep(step, ids);
    BarePlanMembers(f);
    BarePlanText(f, ids);
    assert Texts([Str(oracle)]) == [oracle];
  }

  lemma OneStep(step: Json, ids: Generated)
    requires StepFromDict(step, ids.step(0)).Some?
    ensures StepsFrom([step], ids.step) == Some([StepFromDict(step, ids.step(0)).value])
    ensures StepOk(StepFromDict(step, ids.step(0)).value)
  {
    hide StepOk, ObjectOr, TimeoutOf, TagsOf;
    assert [step][..0] == [];
    assert StepsFrom([], ids.step) == Some([]);
    assert StepsFrom([step], ids.step).Some?;
    StepsFromEach([step], ids.step);
    var r := StepsFrom([step], ids.step).value;
    assert StepFromDict([step][0], ids.step(0)) == Some(r[0]);
    assert r == [r[0]];
  }

  lemma BarePlanMembers(f: seq<Field>)
    requires |f| == 4 && f[0].key == "title" && f[1].key == "hypothesis" && f[2].key == "steps"
    requires f[3].key == "oracle_ids"
    ensures Get(f, "title") == Some(f[0].value) && Get(f, "hypothesis") == Some(f[1].value)
    ensures Get(f, "steps") == Some(f[2].value) && Get(f, "oracle_ids") == Some(f[3].value)
    ensures Get(f, "plan_id").None? && Get(f, "campaign_id").None? && Get(f, "risk").None? && Get(f, "metadata").None?
    ensures Within(f, PLAN_KEYS)
  {
    hide Get;
    GetOfDistinct(f, 0);
    GetOfDistinct(f, 1);
    GetOfDistinct(f, 2);
    GetOfDistinct(f, 3);
    GetIsMember(f, "plan_id");
    GetIsMember(f, "campaign_id");
    GetIsMember(f, "risk");
    GetIsMember(f, "metadata");
    assert PLAN_KEYS[2] == "title" && PLAN_KEYS[3] == "hypothesis" && PLAN_KEYS[5] == "steps";
    assert PLAN_KEYS[6] == "oracle_ids";
  }

  lemma BarePlanText(f: seq<Field>, ids: Generated)
    requires |f| == 4 && Within(f, PLAN_KEYS)
    requires Get(f, "plan_id").None? && Get(f, "campaign_id").None? && Get(f, "risk").None? && Get(f, "metadata").None?
    requires Get(f, "title").Some? && Get(f, "title").value.Str? && !Blank(Get(f, "title").value.text)
    requires Get(f, "hypothesis").Some? && Get(f, "hypothesis").value.Str? && !Blank(Get(f, "hypothesis").value.text)
    requires Get(f, "steps").Some? && Get(f, "steps").value.Arr?
    requires Get(f, "oracle_ids").Some? && Get(f, "oracle_ids").value.Arr? && Get(f, "oracle_ids").value.items != []
    requires var steps := StepsFrom(Get(f, "steps").value.items, ids.step);
      steps.Some? && |steps.value| == 1 && StepOk(steps.value[0])
    ensures FromDict(f, ids)
         == Some(AttackPlan(ids.plan, None, Get(f, "title").value.text, Get(f, "hypothesis").value.text, Elevated,
                            StepsFrom(Get(f, "steps").value.items, ids.step).value,
                            Texts(Get(f, "oracle_ids").value.items), []))
  {
    hide Get, Blank, StepOk, StepsFrom, Within;
    assert Lower("elevated") == "elevated";
    hide Lower;
  }

  /** A decoded plan: no unknown member, what it must have, and the defaults for what is not there. */
  lemma PlanFieldsExact(f: seq<Field>, ids: Generated)
    requires FromDict(f, ids).Some?
    ensures forall x :: x in f ==> x.key in PLAN_KEYS
    ensures var p := FromDict(f, ids).value;
      && (Get(f, "plan_id").None? ==> p.planId == ids.plan)
      && (forall x :: Get(f, "plan_id") == Some(Str(x)) && x != "" ==> p.planId == x)
      && (Get(f, "campaign_id").None? || Get(f, "campaign_id") == Some(Null) ==> p.campaignId == None)
      && (forall x :: Get(f, "campaign_id") == Some(Str(x)) ==> p.campaignId == Some(x))
      && (forall x :: Get(f, "title") == Some(Str(x)) ==> p.title == x)
      && (forall x :: Get(f, "hypothesis") == Some(Str(x)) ==> p.hypothesis == x)
      && (Get(f, "risk").None? ==> p.risk == Elevated)
      && (Get(f, "risk") == Some(Str("safe")) ==> p.risk == Safe)
      && (Get(f, "risk") == Some(Str("DESTRUCTIVE")) ==> p.risk == Destructive)
  {
    hide Get, PlanOk, Strict, Texts, StepsFrom;
    assert Lower("safe") == "safe" && Lower("DESTRUCTIVE") == "destructive" && Lower("elevated") == "elevated";
    hide Lower;
  }

  /** And of its parts: nothing is dropped, and what the constructor demands holds. */
  lemma PlanPartsExact(f: seq<Field>, ids: Generated)
    requires FromDict(f, ids).Some?
    ensures var p := FromDict(f, ids).value;
      && !Blank(p.title) && !Blank(p.hypothesis) && p.steps != [] && p.oracleIds != [] && DistinctIds(p.steps)
      && Strict(Obj(p.metadata))
      && (Get(f, "metadata").None? ==> p.metadata == [])
      && (forall x :: Get(f, "metadata") == Some(Obj(x)) ==> p.metadata == x)
      && Get(f, "steps").Some? && Get(f, "steps").value.Arr?
      && |p.steps| == |Get(f, "steps").value.items|
      && Get(f, "oracle_ids").Some? && Get(f, "oracle_ids").value.Arr?
      && p.oracleIds == Texts(Get(f, "oracle_ids").value.items)
  {
    hide Get, Blank, Strict, Texts, StepsFrom, DistinctIds, StepOk, Lower, PyText, Within;
  }
}
