/** The JSON-Schema subset of the provider boundary, and a reading of its keywords by position. */
module Schemas {
  import opened JsonValues

  /** `type`: absent, one name, or a list whose entries may be lists again */
  datatype TypeSpec = Untyped | Named(name: string) | Union(options: seq<TypeSpec>)

  datatype Schema = Schema(
    types: TypeSpec,
    choices: Option<seq<string>>,      // enum
    minLength: Option<int>,
    maxLength: Option<int>,
    minimum: Option<real>,
    maximum: Option<real>,
    minItems: Option<int>,
    maxItems: Option<int>,
    items: Option<Schema>,
    properties: seq<Property>,
    required: seq<string>,
    closed: bool)                      // additionalProperties is false

  datatype Property = Property(name: string, schema: Schema)

  const ANYTHING := Schema(Untyped, None, None, None, None, None, None, None, None, [], [], false)
  const DEFAULT_MAXIMUM: int := 2_147_483_647

  function PropertyOf(properties: seq<Property>, key: string): Option<Schema> {
    if properties == [] then None
    else if properties[0].name == key then Some(properties[0].schema)
    else PropertyOf(properties[1..], key)
  }

  function Or(o: Option<int>, default: int): int {
    match o case Some(n) => n case None => default
  }

  function NumberOf(v: Json): Option<Double> {
    match v
    case Int(n) => Some(Finite(n as real))
    case Float(r) => Some(r)
    case _ => None
  }

  predicate TypeOk(v: Json, name: string) {
    if name == "object" then v.Obj?
    else if name == "array" then v.Arr?
    else if name == "string" then v.Str?
    else if name == "integer" then v.Int?
    else if name == "number" then v.Int? || v.Float?
    else if name == "boolean" then v.Bool?
    else if name == "null" then v.Null?
    else true
  }

  // ----- the validator -----

  /** `validate_json_schema`, false where it raises.  The value shrinks, or the `type` union does. */
  predicate Validate(v: Json, s: Schema)
    decreases v, 2, s.types
  {
    match s.types
    case Union(options) => AnyOption(v, s, options)
    case Named(name) => TypeOk(v, name) && Rest(v, s)
    case Untyped => Rest(v, s)
  }

  /** The whole schema is tried again with each entry of the union in place of `type`. */
  predicate AnyOption(v: Json, s: Schema, options: seq<TypeSpec>)
    decreases v, 2, options
  {
    options != [] && (Validate(v, s.(types := options[0])) || AnyOption(v, s, options[1..]))
  }

  /** Every keyword but `type` */
  predicate Rest(v: Json, s: Schema)
    decreases v, 1
  {
    && (s.choices.Some? ==> v.Str? && v.text in s.choices.value)
    && match v
       case Str(text) => Or(s.minLength, 0) <= |text| <= Or(s.maxLength, DEFAULT_MAXIMUM)
       case Int(_) => InRange(v, s)
       case Float(_) => InRange(v, s)
       case Arr(items) =>
         && Or(s.minItems, 0) <= |items| <= Or(s.maxItems, DEFAULT_MAXIMUM)
         && (s.items.Some? ==> ValidItems(items, s.items.value))
       case Obj(fields) =>
         && (forall i :: 0 <= i < |s.required| ==> Get(fields, s.required[i]).Some?)
         && (s.closed ==> forall i :: 0 <= i < |fields| ==> PropertyOf(s.properties, fields[i].key).Some?)
         && ValidFields(fields, s.properties)
       case _ => true
  }

  predicate InRange(v: Json, s: Schema)
    requires NumberOf(v).Some?
  {
    var n := NumberOf(v).value;
    && !(s.minimum.Some? && Below(n, Finite(s.minimum.value)))
    && !(s.maximum.Some? && Below(Finite(s.maximum.value), n))
  }

  predicate ValidItems(items: seq<Json>, s: Schema)
    decreases items, 0
  {
    items == [] || (Validate(items[0], s) && ValidItems(items[1..], s))
  }

  predicate ValidFields(fields: seq<Field>, properties: seq<Property>)
    decreases fields, 0
  {
    fields == []
    || (&& (PropertyOf(properties, fields[0].key).Some? ==>
              Validate(fields[0].value, PropertyOf(properties, fields[0].key).value))
        && ValidFields(fields[1..], properties))
  }

  // ----- a declarative reading -----

  /** Some name in the flattened union fits. */
  ghost predicate MatchesType(v: Json, t: TypeSpec) {
    match t
    case Untyped => true
    case Named(name) => TypeOk(v, name)
    case Union(options) => exists i :: 0 <= i < |options| && MatchesType(v, options[i])
  }

  /** What the schema asserts about one value, without looking at its parts. */
  ghost predicate NodeValid(v: Json, s: Schema) {
    && MatchesType(v, s.types)
    && (s.choices.Some? ==> exists c :: c in s.choices.value && v == Str(c))
    && (v.Str? ==> Or(s.minLength, 0) <= |v.text| <= Or(s.maxLength, DEFAULT_MAXIMUM))
    && (NumberOf(v).Some? ==> InRange(v, s))
    && (v.Arr? ==> Or(s.minItems, 0) <= |v.items| <= Or(s.maxItems, DEFAULT_MAXIMUM))
    && (v.Obj? ==>
          && (forall k :: k in s.required ==> exists f :: f in v.fields && f.key == k)
          && (s.closed ==> forall f :: f in v.fields ==> exists p :: p in s.properties && p.name == f.key))
  }

  /** The schema that applies at a position of the value, if any does. */
  function SchemaAt(v: Json, s: Schema, path: seq<Hop>): Option<Schema>
    decreases |path|
  {
    if path == [] then Some(s)
    else match (path[0], v)
      case (Item(i), Arr(items)) =>
        if i < |items| && s.items.Some? then SchemaAt(items[i], s.items.value, path[1..]) else None
      case (Member(i), Obj(fields)) =>
        if i < |fields| && PropertyOf(s.properties, fields[i].key).Some? then
          SchemaAt(fields[i].value, PropertyOf(s.properties, fields[i].key).value, path[1..])
        else None
      case _ => None
  }

  ghost predicate ValidAt(v: Json, s: Schema, path: seq<Hop>) {
    At(v, path).Some? && SchemaAt(v, s, path).Some? ==> NodeValid(At(v, path).value, SchemaAt(v, s, path).value)
  }

  /** Every position that a schema reaches satisfies that schema's own assertions. */
  ghost predicate Valid(v: Json, s: Schema) {
    forall path :: ValidAt(v, s, path)
  }

  // ----- the validator accepts exactly the valid values -----

  lemma {:induction false} PropertyExact(properties: seq<Property>, key: string)
    ensures PropertyOf(properties, key).Some? <==> exists p :: p in properties && p.name == key
  {
    if properties != [] {
      PropertyExact(properties[1..], key);
      assert properties == [properties[0]] + properties[1..];
    }
  }

  /** Trying every entry of a union against the whole schema is the same as one type check. */
  lemma {:induction false} UnionSplits(v: Json, s: Schema)
    ensures Validate(v, s) <==> MatchesType(v, s.types) && Rest(v, s)
    decreases s.types, 1
  {
    match s.types
    case Union(options) => OptionsSplit(v, s, options);
    case _ =>
  }

  lemma {:induction false} OptionsSplit(v: Json, s: Schema, options: seq<TypeSpec>)
    ensures AnyOption(v, s, options) <==> (exists i :: 0 <= i < |options| && MatchesType(v, options[i])) && Rest(v, s)
    decreases options, 0
  {
    if options != [] {
      var first := s.(types := options[0]);
      UnionSplits(v, first);
      assert Rest(v, first) == Rest(v, s);
      OptionsSplit(v, s, options[1..]);
      assert forall i :: 0 <= i < |options| - 1 ==> options[1..][i] == options[i + 1];
      if MatchesType(v, options[0]) {
      } else if exists i :: 0 <= i < |options| && MatchesType(v, options[i]) {
        var i :| 0 <= i < |options| && MatchesType(v, options[i]);
        assert MatchesType(v, options[1..][i - 1]);
      }
    }
  }

  /** The keywords other than `type`, split into the value's own and its parts'. */
  lemma RestSplits(v: Json, s: Schema)
    ensures MatchesType(v, s.types) && Rest(v, s) <==>
      && NodeValid(v, s)
      && (v.Arr? && s.items.Some? ==> ValidItems(v.items, s.items.value))
      && (v.Obj? ==> ValidFields(v.fields, s.properties))
  {
    hide MatchesType;
    if v.Obj? {
      forall k ensures Get(v.fields, k).Some? <==> exists f :: f in v.fields && f.key == k {
        GetIsMember(v.fields, k);
      }
      forall k ensures PropertyOf(s.properties, k).Some? <==> exists p :: p in s.properties && p.name == k {
        PropertyExact(s.properties, k);
      }
      assert (forall k :: k in s.required ==> Get(v.fields, k).Some?)
        <==> (forall i :: 0 <= i < |s.required| ==> Get(v.fields, s.required[i]).Some?);
    }
  }

  lemma {:induction false} ItemsExact(items: seq<Json>, s: Schema)
    ensures ValidItems(items, s) <==> forall i :: 0 <= i < |items| ==> Validate(items[i], s)
  {
    hide Validate;
    if items != [] {
      ItemsExact(items[1..], s);
    }
  }

  ghost predicate FieldValid(f: Field, properties: seq<Property>) {
    PropertyOf(properties, f.key).Some? ==> Validate(f.value, PropertyOf(properties, f.key).value)
  }

  lemma {:induction false} FieldsExact(fields: seq<Field>, properties: seq<Property>)
    ensures ValidFields(fields, properties) <==> forall i :: 0 <= i < |fields| ==> FieldValid(fields[i], properties)
  {
    hide Validate;
    if fields != [] {
      FieldsExact(fields[1..], properties);
    }
  }

  lemma {:induction false} AcceptedAt(v: Json, s: Schema, path: seq<Hop>)
    requires Validate(v, s)
    ensures ValidAt(v, s, path)
    decreases |path|
  {
    UnionSplits(v, s);
    RestSplits(v, s);
    hide Validate, NodeValid, Rest;
    if path != [] && At(v, path).Some? && SchemaAt(v, s, path).Some? {
      match v
      case Arr(items) =>
        ItemsExact(items, s.items.value);
        AcceptedAt(items[path[0].index], s.items.value, path[1..]);
      case Obj(fields) =>
        FieldsExact(fields, s.properties);
        var f := fields[path[0].index];
        assert FieldValid(f, s.properties);
        AcceptedAt(f.value, PropertyOf(s.properties, f.key).value, path[1..]);
    }
  }

  lemma {:induction false} ValidAccepted(v: Json, s: Schema)
    requires Valid(v, s)
    ensures Validate(v, s)
    decreases v
  {
    UnionSplits(v, s);
    RestSplits(v, s);
    assert ValidAt(v, s, []);
    hide Validate, NodeValid, Rest;
    match v
    case Arr(items) =>
      if s.items.Some? {
        ItemsExact(items, s.items.value);
        forall i | 0 <= i < |items| ensures Validate(items[i], s.items.value) {
          PartValid(v, s, Item(i), items[i], s.items.value);
          ValidAccepted(items[i], s.items.value);
        }
      }
    case Obj(fields) =>
      FieldsExact(fields, s.properties);
      forall i | 0 <= i < |fields| ensures FieldValid(fields[i], s.properties) {
        var part := PropertyOf(s.properties, fields[i].key);
        if part.Some? {
          PartValid(v, s, Member(i), fields[i].value, part.value);
          ValidAccepted(fields[i].value, part.value);
        }
      }
    case _ =>
  }

  lemma PartValid(v: Json, s: Schema, hop: Hop, part: Json, schema: Schema)
    requires Valid(v, s)
    requires forall path ::
      At(v, [hop] + path) == At(part, path) && SchemaAt(v, s, [hop] + path) == SchemaAt(part, schema, path)
    ensures Valid(part, schema)
  {
    hide NodeValid;
    forall path ensures ValidAt(part, schema, path) {
      assert ValidAt(v, s, [hop] + path);
    }
  }

  /** The validator accepts exactly the values that are valid at every position. */
  lemma ValidatorExact(v: Json, s: Schema)
    ensures Validate(v, s) <==> Valid(v, s)
  {
    hide Validate, ValidAt;
    if Validate(v, s) {
      forall path ensures ValidAt(v, s, path) {
        AcceptedAt(v, s, path);
      }
    }
    if Valid(v, s) {
      ValidAccepted(v, s);
    }
  }

  // ----- numbers and lengths -----

  /** Where a schema applies to a number, its bounds are those of arithmetic, and an enum of texts admits none. */
  lemma NumbersExact(v: Json, s: Schema, x: real)
    requires v == Float(Finite(x)) || (v.Int? && v.num as real == x)
    ensures Validate(v, s) <==>
      && MatchesType(v, s.types) && s.choices.None?
      && (forall least :: s.minimum == Some(least) ==> least <= x)
      && (forall most :: s.maximum == Some(most) ==> x <= most)
  {
    UnionSplits(v, s);
    hide Validate, MatchesType;
    assert s.minimum.Some? ==> s.minimum == Some(s.minimum.value);
    assert s.maximum.Some? ==> s.maximum == Some(s.maximum.value);
  }

  /** Where it applies to a text, the length and the enum decide; without a written limit it is 2147483647. */
  lemma TextsExact(text: string, s: Schema)
    ensures Validate(Str(text), s) <==>
      && MatchesType(Str(text), s.types)
      && (forall names :: s.choices == Some(names) ==> exists k :: 0 <= k < |names| && names[k] == text)
      && (forall least :: s.minLength == Some(least) ==> least <= |text|)
      && (if s.maxLength.Some? then |text| <= s.maxLength.value else |text| <= 2_147_483_647)
  {
    UnionSplits(Str(text), s);
    hide Validate, MatchesType;
    assert s.minLength.Some? ==> s.minLength == Some(s.minLength.value);
    if s.choices.Some? {
      var names := s.choices.value;
      assert s.choices == Some(names);
      assert text in names <==> exists k :: 0 <= k < |names| && names[k] == text;
    }
  }

  // ----- against the standard -----

  /** No JSON value at all by section 6 of RFC 8259, but `json.loads` reads it. */
  predicate NonFinite(v: Json) {
    v.Float? && !v.dec.Finite?
  }

  predicate Integral(v: Json) {
    v.Float? && v.dec.Finite? && v.dec.value == v.dec.value.Floor as real
  }

  /** Section 6.1.1: any number without a fractional part is an integer. */
  predicate StandardTypeOk(v: Json, name: string) {
    if name == "integer" then v.Int? || Integral(v) else TypeOk(v, name)
  }

  predicate NamesInteger(t: TypeSpec) {
    match t
    case Untyped => false
    case Named(name) => name == "integer"
    case Union(options) => exists i :: 0 <= i < |options| && NamesInteger(options[i])
  }

  ghost predicate MatchesStandardType(v: Json, t: TypeSpec) {
    match t
    case Untyped => true
    case Named(name) => StandardTypeOk(v, name)
    case Union(options) => exists i :: 0 <= i < |options| && MatchesStandardType(v, options[i])
  }

  /** Some part of the type admits every number. */
  predicate AdmitsFloat(t: TypeSpec) {
    match t
    case Untyped => true
    case Named(name) => name !in {"object", "array", "string", "integer", "boolean", "null"}
    case Union(options) => exists i :: 0 <= i < |options| && AdmitsFloat(options[i])
  }

  /** The one kind of value on which the `type` keyword and the standard differ. */
  predicate RefusedInteger(v: Json, t: TypeSpec) {
    Integral(v) && NamesInteger(t) && !AdmitsFloat(t)
  }

  lemma {:induction false} FloatMatches(v: Json, t: TypeSpec)
    requires v.Float?
    ensures MatchesType(v, t) <==> AdmitsFloat(t)
    decreases t
  {
    match t
    case Union(options) =>
      forall i | 0 <= i < |options| ensures MatchesType(v, options[i]) <==> AdmitsFloat(options[i]) {
        FloatMatches(v, options[i]);
      }
    case _ =>
  }

  /** Only a float at a place that names "integer" is judged differently, and only if it is integral. */
  lemma {:induction false} TypeAgainstStandard(v: Json, t: TypeSpec)
    ensures MatchesStandardType(v, t) <==>
      MatchesType(v, t) || (Integral(v) && NamesInteger(t))
    decreases t
  {
    match t
    case Union(options) =>
      forall i | 0 <= i < |options|
        ensures MatchesStandardType(v, options[i]) <==>
          MatchesType(v, options[i]) || (Integral(v) && NamesInteger(options[i]))
      {
        TypeAgainstStandard(v, options[i]);
      }
    case _ =>
  }

  /** Where the code is stricter: exactly there the two readings of the `type` keyword part. */
  lemma TypeDiffersExactly(v: Json, t: TypeSpec)
    ensures MatchesType(v, t) <==> MatchesStandardType(v, t) && !RefusedInteger(v, t)
  {
    hide MatchesType, MatchesStandardType, NamesInteger, AdmitsFloat;
    TypeAgainstStandard(v, t);
    if v.Float? {
      FloatMatches(v, t);
    }
  }

  lemma IntegralFloatRefused()
    ensures !Validate(Float(Finite(1.0)), ANYTHING.(types := Named("integer")))
    ensures MatchesStandardType(Float(Finite(1.0)), Named("integer"))
  {
  }

  /** The standard's reading of the same keywords: no length limit where none is written. */
  ghost predicate NodeStandard(v: Json, s: Schema) {
    && !NonFinite(v)
    && MatchesStandardType(v, s.types)
    && (s.choices.Some? ==> exists c :: c in s.choices.value && v == Str(c))
    && (v.Str? ==> Or(s.minLength, 0) <= |v.text| && (s.maxLength.Some? ==> |v.text| <= s.maxLength.value))
    && (NumberOf(v).Some? ==> InRange(v, s))
    && (v.Arr? ==> Or(s.minItems, 0) <= |v.items| && (s.maxItems.Some? ==> |v.items| <= s.maxItems.value))
    && (v.Obj? ==>
          && (forall k :: k in s.required ==> exists f :: f in v.fields && f.key == k)
          && (s.closed ==> forall f :: f in v.fields ==> exists p :: p in s.properties && p.name == f.key))
  }

  /** An integral float that only "integer" could admit, or a length that only the implied limit refuses. */
  predicate NodeDeviates(v: Json, s: Schema) {
    || RefusedInteger(v, s.types)
    || (v.Str? && s.maxLength.None? && |v.text| > DEFAULT_MAXIMUM)
    || (v.Arr? && s.maxItems.None? && |v.items| > DEFAULT_MAXIMUM)
  }

  /** A non-finite float that the code accepts: `NaN` is neither below a minimum nor above a maximum. */
  predicate NodeLenient(v: Json, s: Schema) {
    && NonFinite(v) && AdmitsFloat(s.types) && s.choices.None?
    && !(v.dec == MinusInfinity && s.minimum.Some?) && !(v.dec == PlusInfinity && s.maximum.Some?)
  }

  ghost predicate StandardAt(v: Json, s: Schema, path: seq<Hop>) {
    At(v, path).Some? && SchemaAt(v, s, path).Some? ==> NodeStandard(At(v, path).value, SchemaAt(v, s, path).value)
  }

  ghost predicate DeviatesAt(v: Json, s: Schema, path: seq<Hop>) {
    At(v, path).Some? && SchemaAt(v, s, path).Some? && NodeDeviates(At(v, path).value, SchemaAt(v, s, path).value)
  }

  ghost predicate LenientAt(v: Json, s: Schema, path: seq<Hop>) {
    At(v, path).Some? && SchemaAt(v, s, path).Some? && NodeLenient(At(v, path).value, SchemaAt(v, s, path).value)
  }

  lemma NodeAgainstStandard(v: Json, s: Schema)
    ensures NodeValid(v, s) <==> (NodeStandard(v, s) && !NodeDeviates(v, s)) || NodeLenient(v, s)
  {
    hide MatchesType, MatchesStandardType, NamesInteger, AdmitsFloat;
    TypeDiffersExactly(v, s.types);
    if v.Float? {
      FloatMatches(v, s.types);
    }
  }

  /** The validator accepts exactly the values that, wherever the schema reaches, the standard accepts
      without a deviation, or that are a non-finite float it lets through. */
  lemma ValidatorAgainstStandard(v: Json, s: Schema)
    ensures Validate(v, s) <==>
      forall path :: (StandardAt(v, s, path) && !DeviatesAt(v, s, path)) || LenientAt(v, s, path)
  {
    ValidatorExact(v, s);
    forall path
      ensures ValidAt(v, s, path) <==>
        (StandardAt(v, s, path) && !DeviatesAt(v, s, path)) || LenientAt(v, s, path)
    {
      if At(v, path).Some? && SchemaAt(v, s, path).Some? {
        NodeAgainstStandard(At(v, path).value, SchemaAt(v, s, path).value);
      }
      hide NodeValid, NodeStandard, NodeDeviates, NodeLenient;
    }
    hide Validate, ValidAt, StandardAt, DeviatesAt, LenientAt;
  }
}
