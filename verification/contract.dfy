/** What the planning roles' schema admits, member by member. */
module Contract {
  import opened JsonValues
  import opened Schemas
  import opened Codec

  predicate Text(v: Json, least: int, most: int) {
    v.Str? && least <= |v.text| <= most
  }

  /** A number from 0.1 to 120, `NaN`, or nothing. */
  predicate Timeout(v: Json) {
    match v
    case Null => true
    case Int(n) => 1 <= n <= 120
    case Float(Finite(x)) => 0.1 <= x <= 120.0
    case Float(other) => other == NotANumber
    case _ => false
  }

  predicate Texts(v: Json, fewest: int, many: int, least: int, most: int) {
    v.Arr? && fewest <= |v.items| <= many && forall i :: 0 <= i < |v.items| ==> Text(v.items[i], least, most)
  }

  predicate StepMember(key: string, v: Json) {
    || (key == "step_id" && Text(v, 1, 128))
    || (key == "tool" && Text(v, 1, 64))
    || (key == "target" && Text(v, 1, 512))
    || (key == "operation" && Text(v, 1, 64))
    || (key == "arguments" && v.Obj?)
    || (key == "timeout_seconds" && Timeout(v))
    || (key == "destructive" && v.Bool?)
    || (key == "tags" && Texts(v, 0, 16, 0, 64))
  }

  predicate Step(v: Json) {
    && v.Obj?
    && (forall i :: 0 <= i < |STEP_KEYS| ==> Get(v.fields, STEP_KEYS[i]).Some?)
    && forall i :: 0 <= i < |v.fields| ==> StepMember(v.fields[i].key, v.fields[i].value)
  }

  predicate Steps(v: Json, most: int) {
    v.Arr? && 1 <= |v.items| <= most && forall i :: 0 <= i < |v.items| ==> Step(v.items[i])
  }

  predicate PlanMember(key: string, v: Json, maxSteps: int) {
    || (key == "plan_id" && Text(v, 1, 128))
    || (key == "campaign_id" && (v.Null? || Text(v, 0, 128)))
    || (key == "title" && Text(v, 1, 256))
    || (key == "hypothesis" && Text(v, 1, 1024))
    || (key == "risk" && v in {Str("safe"), Str("elevated"), Str("destructive")})
    || (key == "steps" && Steps(v, maxSteps))
    || (key == "oracle_ids" && Texts(v, 1, 8, 1, 64))
    || (key == "metadata" && v.Obj?)
  }

  predicate Plan(v: Json, maxSteps: int) {
    && v.Obj?
    && (forall i :: 0 <= i < |PLAN_KEYS| ==> Get(v.fields, PLAN_KEYS[i]).Some?)
    && forall i :: 0 <= i < |v.fields| ==> PlanMember(v.fields[i].key, v.fields[i].value, maxSteps)
  }

  // ----- values -----

  lemma TextAdmitted(v: Json, least: int, most: int)
    ensures Validate(v, TextSchema(least, most)) <==> Text(v, least, most)
  {
  }

  lemma NamedAdmitted(v: Json)
    ensures Validate(v, ANYTHING.(types := Named("object"))) <==> v.Obj?
    ensures Validate(v, ANYTHING.(types := Named("boolean"))) <==> v.Bool?
  {
    if v.Obj? {
      FieldsExact(v.fields, []);
    }
  }

  lemma TimeoutAdmitted(v: Json)
    ensures Validate(v, StepSchema().properties[5].schema) <==> Timeout(v)
  {
    var s := StepSchema().properties[5].schema;
    UnionSplits(v, s);
    assert s.types == Union([Named("number"), Named("null")]);
    assert MatchesType(v, s.types) <==> v.Null? || v.Int? || v.Float? by {
      assert MatchesType(v, Named("number")) <==> v.Int? || v.Float?;
      assert MatchesType(v, s.types.options[0]) <==> v.Int? || v.Float?;
      assert MatchesType(v, s.types.options[1]) <==> v.Null?;
    }
    hide Validate, MatchesType;
  }

  lemma CampaignAdmitted(v: Json)
    ensures Validate(v, PlanSchema(1).properties[1].schema) <==> v.Null? || Text(v, 0, 128)
  {
    var s := PlanSchema(1).properties[1].schema;
    UnionSplits(v, s);
    assert MatchesType(v, s.types) <==> v.Null? || v.Str? by {
      assert MatchesType(v, s.types.options[0]) <==> v.Str?;
      assert MatchesType(v, s.types.options[1]) <==> v.Null?;
    }
    hide Validate, MatchesType;
  }

  lemma TextsAdmitted(v: Json, s: Schema, fewest: int, many: int, least: int, most: int)
    requires s.items.Some?
    requires s == ANYTHING.(types := Named("array"), minItems := s.minItems, maxItems := Some(many),
                            items := Some(ANYTHING.(types := Named("string"), minLength := s.items.value.minLength,
                                                    maxLength := Some(most))))
    requires Or(s.minItems, 0) == fewest && Or(s.items.value.minLength, 0) == least
    ensures Validate(v, s) <==> Texts(v, fewest, many, least, most)
  {
    if v.Arr? {
      ItemsExact(v.items, s.items.value);
      forall i | 0 <= i < |v.items|
        ensures Validate(v.items[i], s.items.value) <==> Text(v.items[i], least, most)
      {
      }
    }
  }

  /** A closed object schema asks for its members, and admits others by no name. */
  lemma ClosedAdmits(v: Json, s: Schema)
    requires s.types == Named("object") && s.closed && s.choices.None?
    ensures Validate(v, s) <==>
      && v.Obj?
      && (forall i :: 0 <= i < |s.required| ==> Get(v.fields, s.required[i]).Some?)
      && forall i :: 0 <= i < |v.fields| ==> MemberAdmitted(s, v.fields[i].key, v.fields[i].value)
  {
    assert Validate(v, s) <==> v.Obj? && Rest(v, s);
    hide Validate, Get;
    if v.Obj? {
      FieldsExact(v.fields, s.properties);
      assert forall i :: 0 <= i < |v.fields| ==>
        (MemberAdmitted(s, v.fields[i].key, v.fields[i].value)
         <==> PropertyOf(s.properties, v.fields[i].key).Some? && FieldValid(v.fields[i], s.properties));
    }
  }

  predicate MemberAdmitted(s: Schema, key: string, v: Json) {
    PropertyOf(s.properties, key).Some? && Validate(v, PropertyOf(s.properties, key).value)
  }

  predicate Names(s: Schema, keys: seq<string>) {
    && |s.properties| == |keys| && (forall i :: 0 <= i < |keys| ==> s.properties[i].name == keys[i])
    && forall i, j :: 0 <= i < j < |keys| ==> keys[i] != keys[j]
  }

  /** Which property a name selects, by its position. */
  lemma Selected(s: Schema, keys: seq<string>, key: string)
    requires Names(s, keys)
    ensures key !in keys ==> PropertyOf(s.properties, key).None?
    ensures forall i :: 0 <= i < |keys| && keys[i] == key ==>
      PropertyOf(s.properties, key) == Some(s.properties[i].schema)
  {
    PropertyExact(s.properties, key);
    if p :| p in s.properties && p.name == key {
      var i :| 0 <= i < |s.properties| && s.properties[i] == p;
      assert keys[i] == key;
    }
    forall i | 0 <= i < |keys| && keys[i] == key
      ensures PropertyOf(s.properties, key) == Some(s.properties[i].schema)
    {
      PropertyAt(s.properties, i);
    }
  }

  // ----- steps and plans -----

  lemma StepMemberAt(i: nat, v: Json)
    requires i < 8
    ensures i < |StepSchema().properties|
    ensures Validate(v, StepSchema().properties[i].schema) <==> StepMember(STEP_KEYS[i], v)
  {
    TextAdmitted(v, 1, 128);
    TextAdmitted(v, 1, 64);
    TextAdmitted(v, 1, 512);
    TimeoutAdmitted(v);
    TextsAdmitted(v, StepSchema().properties[7].schema, 0, 16, 0, 64);
    NamedAdmitted(v);
    hide Validate, Text, Timeout, Texts;
  }

  lemma StepNames()
    ensures Names(StepSchema(), STEP_KEYS)
  {
  }

  lemma NoStepMember(key: string, v: Json)
    requires key !in STEP_KEYS
    ensures !StepMember(key, v)
  {
    hide Text, Texts, Timeout;
    assert STEP_KEYS[0] == "step_id" && STEP_KEYS[1] == "tool";
    assert STEP_KEYS[2] == "target" && STEP_KEYS[3] == "operation";
    assert STEP_KEYS[4] == "arguments" && STEP_KEYS[5] == "timeout_seconds";
    assert STEP_KEYS[6] == "destructive" && STEP_KEYS[7] == "tags";
  }

  lemma StepMemberAdmitted(key: string, v: Json)
    ensures MemberAdmitted(StepSchema(), key, v) <==> StepMember(key, v)
  {
    hide StepMember, Validate, PropertyOf, Names, StepSchema;
    StepNames();
    Selected(StepSchema(), STEP_KEYS, key);
    if key in STEP_KEYS {
      var i :| 0 <= i < |STEP_KEYS| && STEP_KEYS[i] == key;
      StepMemberAt(i, v);
    } else {
      NoStepMember(key, v);
    }
  }

  lemma StepAdmitted(v: Json)
    ensures Validate(v, StepSchema()) <==> Step(v)
  {
    var s := StepSchema();
    ClosedAdmits(v, s);
    hide Validate, Get;
    if v.Obj? {
      forall i | 0 <= i < |v.fields|
        ensures MemberAdmitted(s, v.fields[i].key, v.fields[i].value)
                <==> StepMember(v.fields[i].key, v.fields[i].value)
      {
        StepMemberAdmitted(v.fields[i].key, v.fields[i].value);
      }
    }
    hide MemberAdmitted, StepMember;
  }

  lemma StepsAdmitted(v: Json, maxSteps: int)
    ensures Validate(v, PlanSchema(maxSteps).properties[5].schema) <==> Steps(v, maxSteps)
  {
    var s := PlanSchema(maxSteps).properties[5].schema;
    hide StepSchema, Step;
    if v.Arr? {
      ItemsExact(v.items, StepSchema());
      forall i | 0 <= i < |v.items| ensures Validate(v.items[i], StepSchema()) <==> Step(v.items[i]) {
        StepAdmitted(v.items[i]);
      }
    }
  }

  lemma PlanMemberAt(i: nat, v: Json, maxSteps: int)
    requires i < 8
    ensures i < |PlanSchema(maxSteps).properties|
    ensures Validate(v, PlanSchema(maxSteps).properties[i].schema) <==> PlanMember(PLAN_KEYS[i], v, maxSteps)
  {
    hide StepSchema;
    TextAdmitted(v, 1, 128);
    TextAdmitted(v, 1, 256);
    TextAdmitted(v, 1, 1024);
    CampaignAdmitted(v);
    StepsAdmitted(v, maxSteps);
    TextsAdmitted(v, PlanSchema(maxSteps).properties[6].schema, 1, 8, 1, 64);
    RiskAdmitted(v);
    NamedAdmitted(v);
    hide Validate, Text, Texts, Steps;
  }

  lemma RiskAdmitted(v: Json)
    ensures Validate(v, PlanSchema(1).properties[4].schema) <==> v in {Str("safe"), Str("elevated"), Str("destructive")}
  {
  }

  lemma PlanNames(maxSteps: int)
    ensures Names(PlanSchema(maxSteps), PLAN_KEYS)
  {
    hide StepSchema;
  }

  lemma NoPlanMember(key: string, v: Json, maxSteps: int)
    requires key !in PLAN_KEYS
    ensures !PlanMember(key, v, maxSteps)
  {
    hide Text, Texts, Steps;
    assert PLAN_KEYS[0] == "plan_id" && PLAN_KEYS[1] == "campaign_id";
    assert PLAN_KEYS[2] == "title" && PLAN_KEYS[3] == "hypothesis";
    assert PLAN_KEYS[4] == "risk" && PLAN_KEYS[5] == "steps";
    assert PLAN_KEYS[6] == "oracle_ids" && PLAN_KEYS[7] == "metadata";
  }

  lemma PlanMemberAdmitted(key: string, v: Json, maxSteps: int)
    ensures MemberAdmitted(PlanSchema(maxSteps), key, v) <==> PlanMember(key, v, maxSteps)
  {
    hide PlanMember, Validate, PropertyOf, Names, PlanSchema;
    PlanNames(maxSteps);
    Selected(PlanSchema(maxSteps), PLAN_KEYS, key);
    if key in PLAN_KEYS {
      var i :| 0 <= i < |PLAN_KEYS| && PLAN_KEYS[i] == key;
      PlanMemberAt(i, v, maxSteps);
    } else {
      NoPlanMember(key, v, maxSteps);
    }
  }

  /** The schema admits exactly the objects with all eight members, each of the stated shape, and no other. */
  lemma PlanAdmitted(v: Json, maxSteps: int)
    ensures Validate(v, PlanSchema(maxSteps)) <==> Plan(v, maxSteps)
  {
    var s := PlanSchema(maxSteps);
    ClosedAdmits(v, s);
    hide Validate, Get;
    if v.Obj? {
      forall i | 0 <= i < |v.fields|
        ensures MemberAdmitted(s, v.fields[i].key, v.fields[i].value)
                <==> PlanMember(v.fields[i].key, v.fields[i].value, maxSteps)
      {
        PlanMemberAdmitted(v.fields[i].key, v.fields[i].value, maxSteps);
      }
    }
    hide MemberAdmitted, PlanMember;
  }
}
