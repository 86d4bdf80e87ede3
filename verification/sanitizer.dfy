/** Bounding of untrusted JSON before it reaches a prompt. */
module Sanitizer {
  import opened JsonValues

  datatype Bounds = Bounds(maxDepth: nat, maxItems: nat, maxString: nat)

  const DEFAULT_BOUNDS := Bounds(5, 64, 2048)
  const MAX_KEY: nat := 128
  const TRUNCATED := "<TRUNCATED_DEPTH>"

  function Cut(s: string, n: nat): (r: string)
    ensures |r| <= n && (|s| <= n ==> r == s)
  {
    if |s| <= n then s else s[..n]
  }

  /** `_sanitize_untrusted` */
  function Sanitize(v: Json, depth: nat, b: Bounds): Json
    decreases v, 1
  {
    if depth >= b.maxDepth then Str(TRUNCATED)
    else match v
      case Str(s) => Str(Cut(s, b.maxString))
      case Arr(items) => Arr(SanitizeItems(items, b.maxItems, depth + 1, b))
      case Obj(fields) => Obj(SanitizeFields(fields, b.maxItems, [], depth + 1, b))
      case _ => v
  }

  /** The first `n` items */
  function SanitizeItems(items: seq<Json>, n: nat, depth: nat, b: Bounds): seq<Json>
    decreases items, 0
  {
    if items == [] || n == 0 then []
    else [Sanitize(items[0], depth, b)] + SanitizeItems(items[1..], n - 1, depth, b)
  }

  /** The first `n` members, stored one by one: keys that collide after truncation overwrite. */
  function SanitizeFields(fields: seq<Field>, n: nat, clean: seq<Field>, depth: nat, b: Bounds): seq<Field>
    decreases fields, 0
  {
    if fields == [] || n == 0 then clean
    else
      SanitizeFields(fields[1..], n - 1,
                     Put(clean, Cut(fields[0].key, MAX_KEY), Sanitize(fields[0].value, depth, b)), depth, b)
  }

  // ----- what a sanitized value looks like -----

  /** The value already respects every bound when it sits at this depth. */
  ghost predicate Fits(v: Json, depth: nat, b: Bounds)
    decreases v, 1
  {
    if depth >= b.maxDepth then v == Str(TRUNCATED)
    else match v
      case Str(s) => |s| <= b.maxString
      case Arr(items) => |items| <= b.maxItems && FitItems(items, depth + 1, b)
      case Obj(fields) => |fields| <= b.maxItems && DistinctKeys(fields) && FitFields(fields, depth + 1, b)
      case _ => true
  }

  ghost predicate FitItems(items: seq<Json>, depth: nat, b: Bounds)
    decreases items, 0
  {
    forall i :: 0 <= i < |items| ==> Fits(items[i], depth, b)
  }

  ghost predicate FitFields(fields: seq<Field>, depth: nat, b: Bounds)
    decreases fields, 0
  {
    forall i :: 0 <= i < |fields| ==> |fields[i].key| <= MAX_KEY && Fits(fields[i].value, depth, b)
  }

  lemma {:induction false} ResultFits(v: Json, depth: nat, b: Bounds)
    ensures Fits(Sanitize(v, depth, b), depth, b)
    decreases v, 1
  {
    if depth < b.maxDepth {
      match v
      case Arr(items) => ItemsFit(items, b.maxItems, depth + 1, b);
      case Obj(fields) => FieldsFit(fields, b.maxItems, [], depth + 1, b);
      case _ =>
    }
  }

  lemma {:induction false} ItemsFit(items: seq<Json>, n: nat, depth: nat, b: Bounds)
    ensures |SanitizeItems(items, n, depth, b)| <= n && FitItems(SanitizeItems(items, n, depth, b), depth, b)
    decreases items, 0
  {
    if items != [] && n > 0 {
      ResultFits(items[0], depth, b);
      ItemsFit(items[1..], n - 1, depth, b);
    }
  }

  lemma {:induction false} FieldsFit(fields: seq<Field>, n: nat, clean: seq<Field>, depth: nat, b: Bounds)
    requires DistinctKeys(clean) && FitFields(clean, depth, b)
    ensures var r := SanitizeFields(fields, n, clean, depth, b);
      |r| <= |clean| + n && DistinctKeys(r) && FitFields(r, depth, b)
    decreases fields, 0
  {
    if fields != [] && n > 0 {
      var key, value := Cut(fields[0].key, MAX_KEY), Sanitize(fields[0].value, depth, b);
      ResultFits(fields[0].value, depth, b);
      PutFits(clean, key, value, depth, b);
      FieldsFit(fields[1..], n - 1, Put(clean, key, value), depth, b);
    }
  }

  lemma {:induction false} PutFits(clean: seq<Field>, key: string, value: Json, depth: nat, b: Bounds)
    requires DistinctKeys(clean) && FitFields(clean, depth, b)
    requires |key| <= MAX_KEY && Fits(value, depth, b)
    ensures var r := Put(clean, key, value);
      && |r| <= |clean| + 1 && DistinctKeys(r) && FitFields(r, depth, b)
      && (forall i :: 0 <= i < |r| ==> r[i].key == key || exists j :: 0 <= j < |clean| && clean[j].key == r[i].key)
  {
    hide Fits;
    if clean != [] && clean[0].key != key {
      assert FitFields(clean[1..], depth, b);
      PutFits(clean[1..], key, value, depth, b);
      var rest := Put(clean[1..], key, value);
      var r := [clean[0]] + rest;
      forall i | 0 <= i < |rest|
        ensures rest[i].key != clean[0].key
        ensures rest[i].key == key || exists j :: 0 <= j < |clean| && clean[j].key == rest[i].key
      {
        if rest[i].key != key {
          var j :| 0 <= j < |clean[1..]| && clean[1..][j].key == rest[i].key;
          assert clean[j + 1].key == rest[i].key;
        }
      }
    }
  }

  // ----- bounded values are left alone -----

  lemma {:induction false} FittingUnchanged(v: Json, depth: nat, b: Bounds)
    requires Fits(v, depth, b)
    ensures Sanitize(v, depth, b) == v
    decreases v, 1
  {
    if depth < b.maxDepth {
      match v
      case Arr(items) => FittingItems(items, b.maxItems, depth + 1, b);
      case Obj(fields) =>
        FittingFields(fields, b.maxItems, [], depth + 1, b);
        assert [] + fields == fields;
      case _ =>
    }
  }

  lemma {:induction false} FittingItems(items: seq<Json>, n: nat, depth: nat, b: Bounds)
    requires FitItems(items, depth, b) && |items| <= n
    ensures SanitizeItems(items, n, depth, b) == items
    decreases items, 0
  {
    if items != [] {
      FittingUnchanged(items[0], depth, b);
      FittingItems(items[1..], n - 1, depth, b);
    }
  }

  lemma {:induction false} FittingFields(fields: seq<Field>, n: nat, clean: seq<Field>, depth: nat, b: Bounds)
    requires FitFields(fields, depth, b) && |fields| <= n && DistinctKeys(clean + fields)
    ensures SanitizeFields(fields, n, clean, depth, b) == clean + fields
    decreases fields, 0
  {
    if fields == [] {
      assert clean + fields == clean;
    } else {
      FittingUnchanged(fields[0].value, depth, b);
      var f := fields[0];
      assert (clean + fields)[|clean|] == f;
      forall i | 0 <= i < |clean| ensures clean[i].key != f.key {
        assert (clean + fields)[i] == clean[i];
      }
      PutNew(clean, f.key, f.value);
      assert clean + [f] + fields[1..] == clean + fields;
      FittingFields(fields[1..], n - 1, clean + [f], depth, b);
    }
  }

  lemma {:induction false} PutNew(clean: seq<Field>, key: string, value: Json)
    requires forall i :: 0 <= i < |clean| ==> clean[i].key != key
    ensures Put(clean, key, value) == clean + [Field(key, value)]
  {
    if clean != [] {
      PutNew(clean[1..], key, value);
    }
  }

  /** Sanitizing is idempotent, and changes nothing exactly on values within the bounds. */
  lemma SanitizeIdempotent(v: Json, depth: nat, b: Bounds)
    ensures Sanitize(Sanitize(v, depth, b), depth, b) == Sanitize(v, depth, b)
    ensures Sanitize(v, depth, b) == v <==> Fits(v, depth, b)
  {
    ResultFits(v, depth, b);
    FittingUnchanged(Sanitize(v, depth, b), depth, b);
    if Fits(v, depth, b) {
      FittingUnchanged(v, depth, b);
    }
  }

  // ----- the bounds hold at every position -----

  function MaxNat(a: nat, b: nat): nat {
    if a < b then b else a
  }

  predicate NodeWithin(v: Json, b: Bounds) {
    match v
    case Str(s) => |s| <= MaxNat(b.maxString, |TRUNCATED|)
    case Arr(items) => |items| <= b.maxItems
    case Obj(fields) => |fields| <= b.maxItems && forall i :: 0 <= i < |fields| ==> |fields[i].key| <= MAX_KEY
    case _ => true
  }

  lemma {:induction false} BoundedEverywhere(v: Json, depth: nat, b: Bounds, path: seq<Hop>)
    requires depth <= b.maxDepth && Fits(v, depth, b)
    requires At(v, path).Some?
    ensures depth + |path| <= b.maxDepth && NodeWithin(At(v, path).value, b)
    decreases |path|
  {
    if path != [] {
      var child := match v case Arr(items) => items[path[0].index] case Obj(fields) => fields[path[0].index].value;
      BoundedEverywhere(child, depth + 1, b, path[1..]);
    }
  }

  /** Depth, item, key and string bounds hold at every position of the result. */
  lemma SanitizedBounded(v: Json, b: Bounds, path: seq<Hop>)
    requires At(Sanitize(v, 0, b), path).Some?
    ensures |path| <= b.maxDepth && NodeWithin(At(Sanitize(v, 0, b), path).value, b)
  {
    ResultFits(v, 0, b);
    BoundedEverywhere(Sanitize(v, 0, b), 0, b, path);
  }

  // ----- size -----

  function Nodes(v: Json): nat
    decreases v, 1
  {
    match v
    case Arr(items) => 1 + NodesOfItems(items)
    case Obj(fields) => 1 + NodesOfFields(fields)
    case _ => 1
  }

  function NodesOfItems(items: seq<Json>): nat
    decreases items, 0
  {
    if items == [] then 0 else Nodes(items[0]) + NodesOfItems(items[1..])
  }

  function NodesOfFields(fields: seq<Field>): nat
    decreases fields, 0
  {
    if fields == [] then 0 else Nodes(fields[0].value) + NodesOfFields(fields[1..])
  }

  /** `1 + m + m^2 + ... + m^height` */
  function Geometric(m: nat, height: nat): nat {
    if height == 0 then 1 else 1 + m * Geometric(m, height - 1)
  }

  lemma {:induction false} NodesBounded(v: Json, depth: nat, b: Bounds)
    requires depth <= b.maxDepth && Fits(v, depth, b)
    ensures Nodes(v) <= Geometric(b.maxItems, b.maxDepth - depth)
    decreases v, 1
  {
    if depth < b.maxDepth {
      var g := Geometric(b.maxItems, b.maxDepth - depth - 1);
      match v
      case Arr(items) =>
        ItemNodesBounded(items, depth + 1, b);
        Scale(|items|, b.maxItems, g);
      case Obj(fields) =>
        FieldNodesBounded(fields, depth + 1, b);
        Scale(|fields|, b.maxItems, g);
      case _ =>
    }
  }

  lemma Scale(a: nat, b: nat, g: nat)
    requires a <= b
    ensures a * g <= b * g
  {
  }

  lemma {:induction false} ItemNodesBounded(items: seq<Json>, depth: nat, b: Bounds)
    requires depth <= b.maxDepth && FitItems(items, depth, b)
    ensures NodesOfItems(items) <= |items| * Geometric(b.maxItems, b.maxDepth - depth)
    decreases items, 0
  {
    if items != [] {
      var g := Geometric(b.maxItems, b.maxDepth - depth);
      NodesBounded(items[0], depth, b);
      ItemNodesBounded(items[1..], depth, b);
      assert |items| * g == g + (|items| - 1) * g;
    }
  }

  lemma {:induction false} FieldNodesBounded(fields: seq<Field>, depth: nat, b: Bounds)
    requires depth <= b.maxDepth && FitFields(fields, depth, b)
    ensures NodesOfFields(fields) <= |fields| * Geometric(b.maxItems, b.maxDepth - depth)
    decreases fields, 0
  {
    if fields != [] {
      var g := Geometric(b.maxItems, b.maxDepth - depth);
      NodesBounded(fields[0].value, depth, b);
      FieldNodesBounded(fields[1..], depth, b);
      assert |fields| * g == g + (|fields| - 1) * g;
    }
  }

  /** Whatever comes in, at most the geometric sum of nodes comes out. */
  lemma SanitizedSize(v: Json, b: Bounds)
    ensures Nodes(Sanitize(v, 0, b)) <= Geometric(b.maxItems, b.maxDepth)
  {
    ResultFits(v, 0, b);
    NodesBounded(Sanitize(v, 0, b), 0, b);
  }

  /** With the default bounds that is 1 + 64 + 64^2 + 64^3 + 64^4 + 64^5. */
  lemma DefaultSize(v: Json)
    ensures Nodes(Sanitize(v, 0, DEFAULT_BOUNDS)) <= 1_090_785_345
  {
    SanitizedSize(v, DEFAULT_BOUNDS);
    assert Geometric(64, 1) == 65;
    assert Geometric(64, 2) == 4_161;
    assert Geometric(64, 3) == 266_305;
    assert Geometric(64, 4) == 17_043_521;
  }

  // ----- which part is kept -----

  /** A text keeps its beginning, as much of it as the bound allows. */
  lemma CutKeepsBeginning(s: string, n: nat)
    ensures Cut(s, n) <= s && (|Cut(s, n)| == n || Cut(s, n) == s)
  {
  }

  /** An array keeps its first items, in order, each sanitized. */
  lemma {:induction false} FirstItemsKept(items: seq<Json>, n: nat, depth: nat, b: Bounds)
    ensures var r := SanitizeItems(items, n, depth, b);
      && |r| == (if |items| < n then |items| else n)
      && forall k :: 0 <= k < |r| ==> r[k] == Sanitize(items[k], depth, b)
  {
    hide Sanitize;
    if items != [] && n > 0 {
      FirstItemsKept(items[1..], n - 1, depth, b);
    }
  }

  /** An object keeps its first members; of those whose cut keys collide, the last one counts. */
  lemma {:induction false} LastMemberKept(fields: seq<Field>, n: nat, clean: seq<Field>, depth: nat, b: Bounds, i: nat)
    requires i < |fields| && i < n
    requires forall k :: i < k < |fields| && k < n ==> Cut(fields[k].key, MAX_KEY) != Cut(fields[i].key, MAX_KEY)
    ensures Get(SanitizeFields(fields, n, clean, depth, b), Cut(fields[i].key, MAX_KEY))
         == Some(Sanitize(fields[i].value, depth, b))
    decreases |fields|
  {
    hide Sanitize, Cut, Get;
    var key, value := Cut(fields[0].key, MAX_KEY), Sanitize(fields[0].value, depth, b);
    var next := Put(clean, key, value);
    if i == 0 {
      GetPut(clean, key, value, key);
      OtherMembersKept(fields[1..], n - 1, next, depth, b, key);
    } else {
      LastMemberKept(fields[1..], n - 1, next, depth, b, i - 1);
    }
  }

  lemma {:induction false} OtherMembersKept(fields: seq<Field>, n: nat, clean: seq<Field>, depth: nat, b: Bounds,
                                            key: string)
    requires forall k :: 0 <= k < |fields| && k < n ==> Cut(fields[k].key, MAX_KEY) != key
    ensures Get(SanitizeFields(fields, n, clean, depth, b), key) == Get(clean, key)
    decreases |fields|
  {
    hide Sanitize, Cut, Get;
    if fields != [] && n > 0 {
      var other, value := Cut(fields[0].key, MAX_KEY), Sanitize(fields[0].value, depth, b);
      GetPut(clean, other, value, key);
      OtherMembersKept(fields[1..], n - 1, Put(clean, other, value), depth, b, key);
    }
  }
}
