/** JSON values as the laboratory sees them after `json.loads`, and the two tree
    positions every walker over them is judged against. */
module JsonValues {

  datatype Option<+T> = None | Some(value: T) {
    predicate IsFailure() { None? }

    function PropagateFailure<U>(): Option<U>
      requires None?
    {
      None
    }

    function Extract(): T
      requires Some?
    {
      value
    }
  }

  /** A Python float.  `json.loads` reads `NaN` and the infinities too; rounding is not modelled. */
  datatype Double = Finite(value: real) | NotANumber | PlusInfinity | MinusInfinity

  /** `a < b`: nothing is below or above `NaN`. */
  predicate Below(a: Double, b: Double) {
    match (a, b)
    case (Finite(x), Finite(y)) => x < y
    case (MinusInfinity, Finite(_)) => true
    case (MinusInfinity, PlusInfinity) => true
    case (Finite(_), PlusInfinity) => true
    case _ => false
  }

  /** `min(a, b)`: the first argument, unless the second is below it. */
  function Least(a: Double, b: Double): Double {
    if Below(b, a) then b else a
  }

  /** Objects keep their insertion order, as a Python `dict` does. */
  datatype Json =
    | Null
    | Bool(flag: bool)
    | Int(num: int)
    | Float(dec: Double)
    | Str(text: string)
    | Arr(items: seq<Json>)
    | Obj(fields: seq<Field>)

  datatype Field = Field(key: string, value: Json)

  // ----- dictionary operations -----

  function Get(fields: seq<Field>, key: string): Option<Json> {
    if fields == [] then None
    else if fields[0].key == key then Some(fields[0].value)
    else Get(fields[1..], key)
  }

  function GetOr(fields: seq<Field>, key: string, default: Json): Json {
    match Get(fields, key)
    case Some(v) => v
    case None => default
  }

  /** `d[key] = value`: an existing key keeps its place. */
  function Put(fields: seq<Field>, key: string, value: Json): seq<Field> {
    if fields == [] then [Field(key, value)]
    else if fields[0].key == key then [Field(key, value)] + fields[1..]
    else [fields[0]] + Put(fields[1..], key, value)
  }

  /** `d.setdefault(key, value)` */
  function PutDefault(fields: seq<Field>, key: string, value: Json): seq<Field> {
    if Get(fields, key).Some? then fields else Put(fields, key, value)
  }

  /** `d.pop(key)`, discarding the value */
  function Drop(fields: seq<Field>, key: string): seq<Field> {
    if fields == [] then []
    else if fields[0].key == key then Drop(fields[1..], key)
    else [fields[0]] + Drop(fields[1..], key)
  }

  /** `d.update(other)` */
  function PutAll(fields: seq<Field>, other: seq<Field>): seq<Field>
    decreases |other|
  {
    if other == [] then fields
    else PutAll(Put(fields, other[0].key, other[0].value), other[1..])
  }

  ghost predicate DistinctKeys(fields: seq<Field>) {
    forall i, j :: 0 <= i < j < |fields| ==> fields[i].key != fields[j].key
  }

  lemma {:induction false} GetPut(fields: seq<Field>, key: string, value: Json, other: string)
    ensures Get(Put(fields, key, value), other) == if other == key then Some(value) else Get(fields, other)
  {
    if fields == [] {
    } else {
      GetPut(fields[1..], key, value, other);
    }
  }

  lemma {:induction false} GetDrop(fields: seq<Field>, key: string, other: string)
    ensures Get(Drop(fields, key), other) == if other == key then None else Get(fields, other)
  {
    if fields == [] {
    } else {
      GetDrop(fields[1..], key, other);
    }
  }

  lemma {:induction false} GetPutAll(fields: seq<Field>, other: seq<Field>, key: string)
    requires Get(other, key).None?
    ensures Get(PutAll(fields, other), key) == Get(fields, key)
    decreases |other|
  {
    if other == [] {
    } else {
      GetPut(fields, other[0].key, other[0].value, key);
      GetPutAll(Put(fields, other[0].key, other[0].value), other[1..], key);
    }
  }

  lemma {:induction false} GetIsMember(fields: seq<Field>, key: string)
    ensures Get(fields, key).Some? ==> Field(key, Get(fields, key).value) in fields
    ensures Get(fields, key).None? <==> forall f :: f in fields ==> f.key != key
  {
    if fields == [] {
    } else {
      GetIsMember(fields[1..], key);
      assert fields == [fields[0]] + fields[1..];
      if fields[0].key != key && Get(fields, key).None? {
        forall f | f in fields ensures f.key != key {
          assert f == fields[0] || f in fields[1..];
        }
      }
    }
  }

  lemma {:induction false} GetOfDistinct(fields: seq<Field>, i: nat)
    requires DistinctKeys(fields) && i < |fields|
    ensures Get(fields, fields[i].key) == Some(fields[i].value)
  {
    if i == 0 {
    } else {
      assert fields[0].key != fields[i].key;
      assert fields[i] == fields[1..][i - 1];
      GetOfDistinct(fields[1..], i - 1);
    }
  }

  // ----- text -----

  function LowerChar(c: char): char {
    if 'A' <= c <= 'Z' then c - 'A' + 'a' else c
  }

  function Lower(s: string): (r: string)
    ensures |r| == |s|
    ensures forall i :: 0 <= i < |s| ==> r[i] == LowerChar(s[i])
  {
    seq(|s|, i requires 0 <= i < |s| => LowerChar(s[i]))
  }

  function UpperChar(c: char): char {
    if 'a' <= c <= 'z' then c - 'a' + 'A' else c
  }

  function Upper(s: string): (r: string)
    ensures |r| == |s|
    ensures forall i :: 0 <= i < |s| ==> r[i] == UpperChar(s[i])
  {
    seq(|s|, i requires 0 <= i < |s| => UpperChar(s[i]))
  }

  /** Case is that of the 26 letters, 32 apart; keys are compared in lower case with dashes as underscores. */
  lemma CaseExact(s: string, i: nat)
    requires i < |s|
    ensures |NormalKey(s)| == |s|
    ensures var c := s[i] as int;
      && Lower(s)[i] as int == (if 65 <= c <= 90 then c + 32 else c)
      && Upper(s)[i] as int == (if 97 <= c <= 122 then c - 32 else c)
      && NormalKey(s)[i] as int == (if c == 45 then 95 else if 65 <= c <= 90 then c + 32 else c)
  {
    var c := s[i];
    assert LowerChar(c) == '-' <==> c == '-';
    assert 'A' as int == 65 && 'Z' as int == 90 && 'a' as int == 97 && 'z' as int == 122;
    assert '-' as int == 45 && '_' as int == 95;
  }

  /** `str(key).lower().replace("-", "_")` */
  function NormalKey(key: string): string {
    var low := Lower(key);
    seq(|low|, i requires 0 <= i < |low| => if low[i] == '-' then '_' else low[i])
  }

  predicate StartsWith(s: string, prefix: string) {
    prefix <= s
  }

  predicate EndsWith(s: string, suffix: string) {
    |suffix| <= |s| && s[|s| - |suffix|..] == suffix
  }

  predicate Contains(s: string, part: string) {
    exists i :: 0 <= i <= |s| && part <= s[i..]
  }

  /** ASCII characters that `str.strip()` removes */
  const SPACES: set<char> :=
    {' ', '\t', '\n', '\r', '\U{0B}', '\U{0C}', '\U{1C}', '\U{1D}', '\U{1E}', '\U{1F}'}

  predicate IsSpace(c: char) {
    c in SPACES
  }

  predicate IsDigit(c: char) {
    '0' <= c <= '9'
  }

  /** `not text.strip()` */
  predicate Blank(s: string) {
    forall i :: 0 <= i < |s| ==> IsSpace(s[i])
  }

  function Decimal(n: nat): (s: string)
    ensures |s| > 0 && forall i :: 0 <= i < |s| ==> IsDigit(s[i])
  {
    var digit := ['0' + (n % 10) as char];
    if n < 10 then digit else Decimal(n / 10) + digit
  }

  function ParseDecimal(s: string): nat
    requires forall i :: 0 <= i < |s| ==> IsDigit(s[i])
  {
    if s == [] then 0
    else
      assert IsDigit(s[|s| - 1]);
      10 * ParseDecimal(s[..|s| - 1]) + (s[|s| - 1] as int - '0' as int)
  }

  lemma {:induction false} DecimalRoundTrip(n: nat)
    ensures ParseDecimal(Decimal(n)) == n
  {
    var digit := '0' + (n % 10) as char;
    if n < 10 {
      assert Decimal(n) == [digit];
      assert Decimal(n)[..0] == [];
    } else {
      DecimalRoundTrip(n / 10);
      assert Decimal(n) == Decimal(n / 10) + [digit];
      assert Decimal(n)[..|Decimal(n)| - 1] == Decimal(n / 10);
    }
  }

  /** `int(text)`, `None` where it raises */
  function ParseInt(s: string): Option<int> {
    if s != [] && IsSpace(s[0]) then ParseInt(s[1..])
    else if s != [] && IsSpace(s[|s| - 1]) then ParseInt(s[..|s| - 1])
    else if s != [] && s[0] == '+' then ParseDigits(s[1..])
    else if s != [] && s[0] == '-' then
      var n :- ParseDigits(s[1..]);
      Some(-n)
    else ParseDigits(s)
  }

  function ParseDigits(s: string): Option<int> {
    if s == [] || exists i :: 0 <= i < |s| && !IsDigit(s[i]) then None else Some(ParseDecimal(s))
  }

  /** `str(value)` for the scalar values; containers and floats are abbreviated. */
  function PyText(j: Json): string {
    match j
    case Null => "None"
    case Bool(b) => if b then "True" else "False"
    case Int(n) => if n < 0 then "-" + Decimal(-n) else Decimal(n)
    case Float(_) => "<float>"
    case Str(s) => s
    case Arr(_) => "[...]"
    case Obj(_) => "{...}"
  }

  /** `json.dumps(value, allow_nan=False)` does not raise. */
  predicate Strict(j: Json)
    decreases j, 1
  {
    match j
    case Float(x) => x.Finite?
    case Arr(items) => StrictItems(items)
    case Obj(fields) => StrictFields(fields)
    case _ => true
  }

  predicate StrictItems(items: seq<Json>)
    decreases items, 0
  {
    items == [] || (Strict(items[0]) && StrictItems(items[1..]))
  }

  predicate StrictFields(fields: seq<Field>)
    decreases fields, 0
  {
    fields == [] || (Strict(fields[0].value) && StrictFields(fields[1..]))
  }

  // ----- positions in a tree -----

  datatype Hop = Item(index: nat) | Member(index: nat)

  /** The value reached from `j` by following a path of array items and object members. */
  function At(j: Json, path: seq<Hop>): Option<Json>
    decreases |path|
  {
    if path == [] then Some(j)
    else match (path[0], j)
      case (Item(i), Arr(items)) =>
        if i < |items| then At(items[i], path[1..]) else None
      case (Member(i), Obj(fields)) =>
        if i < |fields| then At(fields[i].value, path[1..]) else None
      case _ => None
  }

  /** `f` is a member of the object found at `path`. */
  ghost predicate MemberAt(j: Json, path: seq<Hop>, f: Field) {
    At(j, path).Some? && At(j, path).value.Obj? && f in At(j, path).value.fields
  }

  ghost predicate MemberAnywhere(j: Json, f: Field) {
    exists path :: MemberAt(j, path, f)
  }

  /** Every object member of the tree, in document order. */
  function Members(j: Json): seq<Field>
    decreases j, 1
  {
    match j
    case Arr(items) => MembersOfItems(items)
    case Obj(fields) => MembersOfFields(fields)
    case _ => []
  }

  function MembersOfItems(items: seq<Json>): seq<Field>
    decreases items, 0
  {
    if items == [] then [] else Members(items[0]) + MembersOfItems(items[1..])
  }

  function MembersOfFields(fields: seq<Field>): seq<Field>
    decreases fields, 0
  {
    if fields == [] then []
    else [fields[0]] + Members(fields[0].value) + MembersOfFields(fields[1..])
  }

  /** `Members` lists a field exactly when it occurs at some depth of the tree. */
  lemma {:induction false} MembersExact(j: Json, f: Field)
    ensures f in Members(j) <==> MemberAnywhere(j, f)
  {
    if f in Members(j) {
      var path := FindMember(j, f);
      assert MemberAt(j, path, f);
    }
    if MemberAnywhere(j, f) {
      var path :| MemberAt(j, path, f);
      MemberIsListed(j, path, f);
    }
  }

  lemma {:induction false} FindMember(j: Json, f: Field) returns (path: seq<Hop>)
    requires f in Members(j)
    ensures MemberAt(j, path, f)
    decreases j, 1
  {
    match j
    case Arr(items) =>
      var i, rest := FindInItems(items, f);
      path := [Item(i)] + rest;
      assert path[1..] == rest;
    case Obj(fields) =>
      var i, rest := FindInFields(fields, f);
      if rest.None? {
        path := [];
      } else {
        path := [Member(i)] + rest.value;
        assert path[1..] == rest.value;
      }
  }

  lemma {:induction false} FindInItems(items: seq<Json>, f: Field) returns (i: nat, rest: seq<Hop>)
    requires f in MembersOfItems(items)
    ensures i < |items| && MemberAt(items[i], rest, f)
    decreases items, 0
  {
    if f in Members(items[0]) {
      i := 0;
      rest := FindMember(items[0], f);
    } else {
      i, rest := FindInItems(items[1..], f);
      i := i + 1;
    }
  }

  lemma {:induction false} FindInFields(fields: seq<Field>, f: Field) returns (i: nat, rest: Option<seq<Hop>>)
    requires f in MembersOfFields(fields)
    ensures i < |fields|
    ensures if rest.None? then fields[i] == f else MemberAt(fields[i].value, rest.value, f)
    decreases fields, 0
  {
    if f == fields[0] {
      i, rest := 0, None;
    } else if f in Members(fields[0].value) {
      var path := FindMember(fields[0].value, f);
      i, rest := 0, Some(path);
    } else {
      i, rest := FindInFields(fields[1..], f);
      i := i + 1;
    }
  }

  lemma {:induction false} MemberIsListed(j: Json, path: seq<Hop>, f: Field)
    requires MemberAt(j, path, f)
    ensures f in Members(j)
    decreases |path|
  {
    if path == [] {
      var i :| 0 <= i < |j.fields| && j.fields[i] == f;
      FieldIsListed(j.fields, i);
    } else {
      match j
      case Arr(items) =>
        MemberIsListed(items[path[0].index], path[1..], f);
        ItemIsListed(items, path[0].index, f);
      case Obj(fields) =>
        MemberIsListed(fields[path[0].index].value, path[1..], f);
        FieldIsListed(fields, path[0].index);
    }
  }

  lemma {:induction false} ItemIsListed(items: seq<Json>, i: nat, f: Field)
    requires i < |items| && f in Members(items[i])
    ensures f in MembersOfItems(items)
  {
    if i > 0 {
      ItemIsListed(items[1..], i - 1, f);
    }
  }

  lemma {:induction false} FieldIsListed(fields: seq<Field>, i: nat)
    requires i < |fields|
    ensures fields[i] in MembersOfFields(fields)
    ensures forall f :: f in Members(fields[i].value) ==> f in MembersOfFields(fields)
  {
    if i > 0 {
      FieldIsListed(fields[1..], i - 1);
    }
  }

  // ----- no `NaN` anywhere -----

  predicate NonFiniteAt(j: Json, path: seq<Hop>) {
    At(j, path).Some? && At(j, path).value.Float? && !At(j, path).value.dec.Finite?
  }

  /** Strict JSON is what has no `NaN` and no infinity at any position. */
  lemma {:induction false} StrictExact(j: Json)
    ensures Strict(j) <==> forall path :: !NonFiniteAt(j, path)
    decreases j, 1
  {
    if Strict(j) {
      forall path ensures !NonFiniteAt(j, path) {
        StrictAt(j, path);
      }
    }
    if !Strict(j) {
      var path := FindNonFinite(j);
    }
  }

  lemma {:induction false} StrictAt(j: Json, path: seq<Hop>)
    requires Strict(j)
    ensures At(j, path).Some? ==> Strict(At(j, path).value)
    decreases |path|
  {
    if path != [] && At(j, path).Some? {
      match j
      case Arr(items) =>
        StrictItemAt(items, path[0].index);
        StrictAt(items[path[0].index], path[1..]);
      case Obj(fields) =>
        StrictFieldAt(fields, path[0].index);
        StrictAt(fields[path[0].index].value, path[1..]);
    }
  }

  lemma {:induction false} StrictItemAt(items: seq<Json>, i: nat)
    requires StrictItems(items) && i < |items|
    ensures Strict(items[i])
  {
    if i > 0 {
      StrictItemAt(items[1..], i - 1);
    }
  }

  lemma {:induction false} StrictFieldAt(fields: seq<Field>, i: nat)
    requires StrictFields(fields) && i < |fields|
    ensures Strict(fields[i].value)
  {
    if i > 0 {
      StrictFieldAt(fields[1..], i - 1);
    }
  }

  lemma {:induction false} FindNonFinite(j: Json) returns (path: seq<Hop>)
    requires !Strict(j)
    ensures NonFiniteAt(j, path)
    decreases j, 1
  {
    match j
    case Float(_) => path := [];
    case Arr(items) =>
      var i, rest := FindInLooseItems(items);
      path := [Item(i)] + rest;
      assert path[1..] == rest;
    case Obj(fields) =>
      var i, rest := FindInLooseFields(fields);
      path := [Member(i)] + rest;
      assert path[1..] == rest;
  }

  lemma {:induction false} FindInLooseItems(items: seq<Json>) returns (i: nat, rest: seq<Hop>)
    requires !StrictItems(items)
    ensures i < |items| && NonFiniteAt(items[i], rest)
    decreases items, 0
  {
    if !Strict(items[0]) {
      i := 0;
      rest := FindNonFinite(items[0]);
    } else {
      i, rest := FindInLooseItems(items[1..]);
      i := i + 1;
    }
  }

  lemma {:induction false} FindInLooseFields(fields: seq<Field>) returns (i: nat, rest: seq<Hop>)
    requires !StrictFields(fields)
    ensures i < |fields| && NonFiniteAt(fields[i].value, rest)
    decreases fields, 0
  {
    if !Strict(fields[0].value) {
      i := 0;
      rest := FindNonFinite(fields[0].value);
    } else {
      i, rest := FindInLooseFields(fields[1..]);
      i := i + 1;
    }
  }

  // ----- later members win -----

  /** `d.update(other)`: a key of `other` has the value that `other` gives it last. */
  lemma {:induction false} GetPutAllOther(fields: seq<Field>, other: seq<Field>, i: nat)
    requires i < |other| && forall k :: i < k < |other| ==> other[k].key != other[i].key
    ensures Get(PutAll(fields, other), other[i].key) == Some(other[i].value)
    decreases |other|
  {
    var next := Put(fields, other[0].key, other[0].value);
    if i == 0 {
      GetIsMember(other[1..], other[0].key);
      GetPutAll(next, other[1..], other[0].key);
      GetPut(fields, other[0].key, other[0].value, other[0].key);
    } else {
      assert other[i] == other[1..][i - 1];
      GetPutAllOther(next, other[1..], i - 1);
    }
  }
}
