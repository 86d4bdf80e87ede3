/** When each oracle says what, over positions in the observations and not through the oracles' own walks. */
module Verdicts {
  import opened JsonValues
  import opened Models
  import opened Oracles
  import opened Executor
  import opened Coordination

  // ----- values -----

  /** The values that Python takes for false. */
  lemma FalsyExactly(v: Json)
    ensures !PyTruth(v) <==> v in {Null, Bool(false), Int(0), Float(Finite(0.0)), Str(""), Arr([]), Obj([])}
  {
  }

  // ----- http_status -----

  predicate ListAt(plan: AttackPlan, key: string, raw: seq<Json>) {
    Get(plan.metadata, key) == Some(Arr(raw)) && raw != []
  }

  /** Observation `i` counts: it has a status and comes from one of the tools the plan names, if it names any. */
  ghost predicate Counts(plan: AttackPlan, o: seq<Observation>, i: int) {
    && 0 <= i < |o| && o[i].status.Some?
    && (forall raw :: ListAt(plan, "status_tools", raw) ==>
          exists j :: 0 <= j < |raw| && PyText(raw[j]) == o[i].tool)
  }

  ghost predicate SomeCounts(plan: AttackPlan, o: seq<Observation>) {
    exists i :: Counts(plan, o, i)
  }

  predicate AllIntegers(raw: seq<Json>) {
    forall j :: 0 <= j < |raw| ==> PyInt(raw[j]).Some?
  }

  predicate Lists(raw: seq<Json>, n: int) {
    exists j :: 0 <= j < |raw| && PyInt(raw[j]) == Some(n)
  }

  lemma {:induction false} IntSetExact(raw: seq<Json>)
    ensures IntSet(raw).Some? <==> AllIntegers(raw)
    ensures IntSet(raw).Some? ==> forall n :: n in IntSet(raw).value <==> Lists(raw, n)
  {
    hide PyInt;
    if raw != [] {
      var rest := raw[1..];
      IntSetExact(rest);
      assert raw == [raw[0]] + rest;
      assert AllIntegers(raw) <==> PyInt(raw[0]).Some? && AllIntegers(rest);
      forall n ensures Lists(raw, n) <==> PyInt(raw[0]) == Some(n) || Lists(rest, n) {
        if j :| 0 <= j < |rest| && PyInt(rest[j]) == Some(n) {
          assert raw[j + 1] == rest[j];
        }
        if j :| 0 <= j < |raw| && PyInt(raw[j]) == Some(n) {
          assert j > 0 ==> rest[j - 1] == raw[j];
        }
      }
    }
  }

  lemma {:induction false} StatusesExact(o: seq<Observation>, tools: Option<set<string>>, s: int)
    ensures s in Statuses(o, tools) <==>
      exists i :: 0 <= i < |o| && o[i].status == Some(s) && (tools.None? || o[i].tool in tools.value)
  {
    if o != [] {
      var rest := o[1..];
      StatusesExact(rest, tools, s);
      if i :| 0 <= i < |rest| && rest[i].status == Some(s) && (tools.None? || rest[i].tool in tools.value) {
        assert o[i + 1] == rest[i];
      }
      if i :| 0 <= i < |o| && o[i].status == Some(s) && (tools.None? || o[i].tool in tools.value) {
        assert i > 0 ==> rest[i - 1] == o[i];
      }
    }
  }

  lemma CountedExactly(plan: AttackPlan, o: seq<Observation>, s: int)
    ensures s in Statuses(o, StatusTools(plan)) <==> exists i :: Counts(plan, o, i) && o[i].status == Some(s)
  {
    hide Get, PyText;
    StatusesExact(o, StatusTools(plan), s);
    forall i | 0 <= i < |o| && o[i].status.Some?
      ensures Counts(plan, o, i) <==> StatusTools(plan).None? || o[i].tool in StatusTools(plan).value
    {
      NamedToolsExact(plan, o[i].tool);
    }
    if i :| 0 <= i < |o| && o[i].status == Some(s)
            && (StatusTools(plan).None? || o[i].tool in StatusTools(plan).value) {
      assert Counts(plan, o, i);
    }
  }

  lemma NamedToolsExact(plan: AttackPlan, tool: string)
    ensures (StatusTools(plan).None? || tool in StatusTools(plan).value) <==>
      forall raw :: ListAt(plan, "status_tools", raw) ==> exists j :: 0 <= j < |raw| && PyText(raw[j]) == tool
  {
    hide Get, PyText;
    var named := Get(plan.metadata, "status_tools");
    if named.Some? && named.value.Arr? && named.value.items != [] {
      var raw := named.value.items;
      assert ListAt(plan, "status_tools", raw);
      if tool in StatusTools(plan).value {
        var item :| item in raw && PyText(item) == tool;
        var j :| 0 <= j < |raw| && raw[j] == item;
        assert PyText(raw[j]) == tool;
      }
      if j :| 0 <= j < |raw| && PyText(raw[j]) == tool {
        assert raw[j] in raw;
      }
    }
  }

  /** Everything the status oracle needs to judge is there and well formed. */
  ghost predicate StatusJudged(plan: AttackPlan, o: seq<Observation>, expected: seq<Json>, open: seq<Json>) {
    && ListAt(plan, "expected_statuses", expected) && AllIntegers(expected) && SomeCounts(plan, o)
    && PyIter(GetOr(plan.metadata, "inconclusive_statuses", Arr([]))) == Some(open) && AllIntegers(open)
  }

  /** Verdict of the status oracle once it can judge: open statuses first, then unexpected ones. */
  lemma StatusExact(plan: AttackPlan, o: seq<Observation>, expected: seq<Json>, open: seq<Json>)
    requires StatusJudged(plan, o, expected, open)
    ensures var v := HttpStatus(plan, o).verdict;
      if exists i :: Counts(plan, o, i) && Lists(open, o[i].status.value) then v == Inconclusive
      else if forall i :: Counts(plan, o, i) ==> Lists(expected, o[i].status.value) then v == Pass
      else if Get(plan.metadata, "diagnostic_only") == Some(Bool(true)) then v == Inconclusive
      else if Get(plan.metadata, "unexpected_status_is_vulnerability") == Some(Bool(true)) then v == Vulnerable
      else v == Fail
  {
    hide Get, IntSet, Statuses, StatusTools, PyIter, Counts, Lists, AllIntegers;
    IntSetExact(expected);
    IntSetExact(open);
    var seen := Statuses(o, StatusTools(plan));
    SeenExactly(plan, o);
    SeenAgainst(plan, o, IntSet(open).value, open);
    SeenAgainst(plan, o, IntSet(expected).value, expected);
  }

  /** What the oracle saw, compared with a declared list. */
  lemma SeenAgainst(plan: AttackPlan, o: seq<Observation>, values: set<int>, raw: seq<Json>)
    requires forall n :: n in values <==> Lists(raw, n)
    ensures var seen := Statuses(o, StatusTools(plan));
      && ((exists i :: 0 <= i < |seen| && seen[i] in values) <==>
          exists i :: Counts(plan, o, i) && Lists(raw, o[i].status.value))
      && ((forall i :: 0 <= i < |seen| ==> seen[i] in values) <==>
          forall i :: Counts(plan, o, i) ==> Lists(raw, o[i].status.value))
  {
    hide Statuses, StatusTools, Lists, Counts;
    var seen := Statuses(o, StatusTools(plan));
    forall i | 0 <= i < |seen| ensures exists j :: Counts(plan, o, j) && StatusAt(o, j) == Some(seen[i]) {
      SeenCounts(plan, o, i);
    }
    forall j | Counts(plan, o, j) ensures exists i :: 0 <= i < |seen| && StatusAt(o, j) == Some(seen[i]) {
      CountsSeen(plan, o, j);
    }
    forall j | Counts(plan, o, j) ensures StatusAt(o, j) == Some(o[j].status.value) {
      CountsHasStatus(plan, o, j);
    }
  }

  function StatusAt(o: seq<Observation>, i: int): Option<int> {
    if 0 <= i < |o| then o[i].status else None
  }

  lemma CountsHasStatus(plan: AttackPlan, o: seq<Observation>, j: int)
    requires Counts(plan, o, j)
    ensures 0 <= j < |o| && o[j].status.Some?
  {
  }

  lemma SeenCounts(plan: AttackPlan, o: seq<Observation>, i: int)
    requires 0 <= i < |Statuses(o, StatusTools(plan))|
    ensures exists j :: Counts(plan, o, j) && StatusAt(o, j) == Some(Statuses(o, StatusTools(plan))[i])
  {
    hide Statuses, StatusTools;
    var s := Statuses(o, StatusTools(plan))[i];
    assert s in Statuses(o, StatusTools(plan));
    CountedExactly(plan, o, s);
    var j :| Counts(plan, o, j) && o[j].status == Some(s);
    assert StatusAt(o, j) == Some(s);
  }

  lemma CountsSeen(plan: AttackPlan, o: seq<Observation>, j: int)
    requires Counts(plan, o, j)
    ensures var seen := Statuses(o, StatusTools(plan));
      exists i :: 0 <= i < |seen| && StatusAt(o, j) == Some(seen[i])
  {
    hide Statuses, StatusTools, Counts;
    CountsHasStatus(plan, o, j);
    var s := o[j].status.value;
    CountedExactly(plan, o, s);
    var seen := Statuses(o, StatusTools(plan));
    assert s in seen;
    var i :| 0 <= i < |seen| && seen[i] == s;
  }

  lemma SeenExactly(plan: AttackPlan, o: seq<Observation>)
    ensures Statuses(o, StatusTools(plan)) == [] <==> !SomeCounts(plan, o)
  {
    hide Statuses, StatusTools;
    var seen := Statuses(o, StatusTools(plan));
    if i :| Counts(plan, o, i) {
      CountedExactly(plan, o, o[i].status.value);
    }
    if seen != [] {
      CountedExactly(plan, o, seen[0]);
      assert seen[0] in seen;
    }
  }

  /** The list of open statuses cannot be read. */
  ghost predicate OpenUnreadable(plan: AttackPlan) {
    forall open :: PyIter(GetOr(plan.metadata, "inconclusive_statuses", Arr([]))) == Some(open) ==> !AllIntegers(open)
  }

  /** Otherwise it says why it cannot: nothing declared or nothing seen is open, a malformed list an error. */
  lemma StatusUnjudged(plan: AttackPlan, o: seq<Observation>)
    ensures var v := HttpStatus(plan, o).verdict;
      && ((forall raw :: !ListAt(plan, "expected_statuses", raw)) ==> v == Inconclusive)
      && forall raw :: ListAt(plan, "expected_statuses", raw) ==>
           && (!AllIntegers(raw) ==> v == Error)
           && (AllIntegers(raw) && !SomeCounts(plan, o) ==> v == Inconclusive)
           && (AllIntegers(raw) && SomeCounts(plan, o) && OpenUnreadable(plan) ==> v == Error)
  {
    hide Get, IntSet, Statuses, StatusTools, PyIter, AllIntegers, SomeCounts;
    SeenExactly(plan, o);
    var declared := Get(plan.metadata, "expected_statuses");
    if declared.Some? && declared.value.Arr? && declared.value.items != [] {
      IntSetExact(declared.value.items);
      assert ListAt(plan, "expected_statuses", declared.value.items);
    }
    var open := PyIter(GetOr(plan.metadata, "inconclusive_statuses", Arr([])));
    if open.Some? {
      IntSetExact(open.value);
    }
  }

  // ----- availability and reachability -----

  predicate HealthAt(o: seq<Observation>, i: int, v: Json) {
    0 <= i < |o| && Get(o[i].evidence, "health") == Some(v)
  }

  lemma {:induction false} HealthSeen(o: seq<Observation>, b: bool)
    ensures b in HealthValues(o) <==> exists i, v :: HealthAt(o, i, v) && PyTruth(v) == b
  {
    hide Get, PyTruth;
    if o != [] {
      var rest := o[1..];
      HealthSeen(rest, b);
      if i, v :| HealthAt(rest, i, v) && PyTruth(v) == b {
        assert HealthAt(o, i + 1, v);
      }
      if i, v :| HealthAt(o, i, v) && PyTruth(v) == b {
        if i > 0 {
          assert HealthAt(rest, i - 1, v);
        }
      }
      if Get(o[0].evidence, "health").Some? {
        assert HealthAt(o, 0, Get(o[0].evidence, "health").value);
      }
    }
  }

  /** Vulnerable if some health value is falsy, open if there is none, passed otherwise. */
  lemma AvailabilityExact(plan: AttackPlan, o: seq<Observation>)
    ensures var v := Availability(plan, o).verdict;
      && (v == Vulnerable <==> exists i, h :: HealthAt(o, i, h) && !PyTruth(h))
      && (v == Inconclusive <==> forall i, h :: !HealthAt(o, i, h))
      && (v == Pass <==> (exists i, h :: HealthAt(o, i, h)) && forall i, h :: HealthAt(o, i, h) ==> PyTruth(h))
  {
    hide PyTruth, HealthAt;
    HealthSeen(o, true);
    HealthSeen(o, false);
    SomeBool(HealthValues(o));
    hide HealthValues;
  }

  lemma SomeBool(values: seq<bool>)
    ensures values == [] <==> true !in values && false !in values
  {
    if values != [] {
      var b := values[0];
      assert b in values;
    }
  }

  predicate ProbeAt(o: seq<Observation>, i: int, b: bool) {
    0 <= i < |o| && Get(o[i].evidence, "reachable") == Some(Bool(b))
  }

  lemma {:induction false} ProbeSeen(o: seq<Observation>, b: bool)
    ensures b in Probes(o) <==> exists i :: ProbeAt(o, i, b)
  {
    hide Get;
    if o != [] {
      var rest := o[1..];
      ProbeSeen(rest, b);
      if i :| ProbeAt(rest, i, b) {
        assert ProbeAt(o, i + 1, b);
      }
      if i :| ProbeAt(o, i, b) {
        if i > 0 {
          assert ProbeAt(rest, i - 1, b);
        }
      }
      if Get(o[0].evidence, "reachable") == Some(Bool(b)) {
        assert ProbeAt(o, 0, b);
      }
    }
  }

  /** Passed if some probe connected and none failed, open otherwise; never a failure. */
  lemma ReachabilityExact(plan: AttackPlan, o: seq<Observation>)
    ensures var v := Reachability(plan, o).verdict;
      && (v == Pass <==> (exists i :: ProbeAt(o, i, true)) && forall i :: !ProbeAt(o, i, false))
      && (v != Pass ==> v == Inconclusive)
  {
    hide ProbeAt;
    ProbeSeen(o, true);
    ProbeSeen(o, false);
    SomeBool(Probes(o));
    hide Probes;
  }

  // ----- upstream_zero -----

  /** The first of three evidence members that is an integer. */
  predicate CounterAt(o: seq<Observation>, i: int, n: int) {
    && 0 <= i < |o|
    && (|| IntegerMember(o[i], "counter", n)
        || (NoInteger(o[i], "counter") && IntegerMember(o[i], "upstream_count", n))
        || (NoInteger(o[i], "counter") && NoInteger(o[i], "upstream_count") && IntegerMember(o[i], "hits", n)))
  }

  predicate IntegerMember(o: Observation, key: string, n: int) {
    Get(o.evidence, key) == Some(Int(n))
  }

  predicate NoInteger(o: Observation, key: string) {
    Get(o.evidence, key).None? || !Get(o.evidence, key).value.Int?
  }

  lemma CounterExact(o: seq<Observation>, i: int, n: int)
    requires 0 <= i < |o|
    ensures Counter(o[i]) == Some(n) <==> CounterAt(o, i, n)
  {
    hide Get;
  }

  predicate CountsAt(o: seq<Observation>, i: int) {
    0 <= i < |o| && Counter(o[i]).Some?
  }

  /** The positions of the first and the last counter. */
  lemma {:induction false} CountersEnds(o: seq<Observation>) returns (a: nat, b: nat)
    ensures Counters(o) == [] <==> forall i :: !CountsAt(o, i)
    ensures Counters(o) != [] ==>
      && a <= b < |o| && CountsAt(o, a) && CountsAt(o, b)
      && Counters(o)[0] == Counter(o[a]).value && Counters(o)[|Counters(o)| - 1] == Counter(o[b]).value
      && (forall i :: CountsAt(o, i) ==> a <= i <= b)
      && (|Counters(o)| == 1 <==> a == b)
  {
    hide Counter;
    a, b := 0, 0;
    if o != [] {
      var rest := o[1..];
      var a1, b1 := CountersEnds(rest);
      forall i | 0 <= i ensures CountsAt(rest, i) <==> CountsAt(o, i + 1) {
      }
      if CountsAt(o, 0) {
        a := 0;
        b := if Counters(rest) == [] then 0 else b1 + 1;
        assert Counters(o) == [Counter(o[0]).value] + Counters(rest);
        forall i | CountsAt(o, i) ensures a <= i <= b {
          if i > 0 {
            assert CountsAt(rest, i - 1);
          }
        }
      } else {
        a, b := a1 + 1, b1 + 1;
        assert Counters(o) == Counters(rest);
        forall i | CountsAt(o, i) ensures Counters(o) != [] && a <= i <= b {
          assert i > 0 && CountsAt(rest, i - 1);
        }
      }
    }
  }

  /** The verdict compares the last counter with the first: more is an effect, equal is none, fewer or a
      single one is open. */
  lemma UpstreamExact(plan: AttackPlan, o: seq<Observation>, a: nat, b: nat, first: int, last: int)
    requires CounterAt(o, a, first) && CounterAt(o, b, last)
    requires forall i, n :: CounterAt(o, i, n) ==> a <= i <= b
    ensures var v := UpstreamEffect(plan, o).verdict;
      v == if a == b || last < first then Inconclusive else if last == first then Pass else Vulnerable
  {
    hide Counter, CounterAt;
    CountersOf(o, a, first);
    CountersOf(o, b, last);
    var x, y := CountersEnds(o);
    assert CountsAt(o, a) && CountsAt(o, b);
    CountersAt(o, x);
    CountersAt(o, y);
    assert x == a && y == b;
  }

  lemma CountersOf(o: seq<Observation>, i: int, n: int)
    requires CounterAt(o, i, n)
    ensures CountsAt(o, i) && Counter(o[i]) == Some(n)
  {
    assert i < |o|;
    CounterExact(o, i, n);
  }

  lemma CountersAt(o: seq<Observation>, i: int)
    requires CountsAt(o, i)
    ensures exists n :: CounterAt(o, i, n)
  {
    CounterExact(o, i, Counter(o[i]).value);
  }

  /** Without any counter it is open. */
  lemma UpstreamUncounted(plan: AttackPlan, o: seq<Observation>)
    requires forall i, n :: !CounterAt(o, i, n)
    ensures UpstreamEffect(plan, o).verdict == Inconclusive
  {
    hide Counter, CounterAt;
    var x, y := CountersEnds(o);
    if Counters(o) != [] {
      CountersAt(o, x);
    }
  }

  // ----- no_sensitive_leak -----

  predicate BodyAt(o: seq<Observation>, i: int, text: string) {
    0 <= i < |o| && o[i].body == Some(text)
  }

  lemma {:induction false} BodySeen(o: seq<Observation>, text: string)
    ensures text in Bodies(o) <==> exists i :: BodyAt(o, i, text)
  {
    if o != [] {
      var rest := o[1..];
      BodySeen(rest, text);
      if i :| BodyAt(rest, i, text) {
        assert BodyAt(o, i + 1, text);
      }
      if i :| BodyAt(o, i, text) {
        if i > 0 {
          assert BodyAt(rest, i - 1, text);
        }
      }
      if o[0].body == Some(text) {
        assert BodyAt(o, 0, text);
      }
    }
  }

  /** Some non-empty marker of the list occurs at some offset of some captured body. */
  predicate LeakAt(raw: seq<Json>, o: seq<Observation>, m: int, i: int, offset: int) {
    && 0 <= m < |raw| && 0 <= i < |o| && o[i].body.Some?
    && PyText(raw[m]) != "" && OccursAt(o[i].body.value, PyText(raw[m]), offset)
  }

  predicate OccursAt(text: string, part: string, offset: int) {
    0 <= offset <= offset + |part| <= |text| && text[offset..offset + |part|] == part
  }

  lemma ContainsAt(text: string, part: string)
    ensures Contains(text, part) <==> exists i :: OccursAt(text, part, i)
  {
    if i :| 0 <= i <= |text| && part <= text[i..] {
      assert OccursAt(text, part, i);
    }
    if i :| OccursAt(text, part, i) {
      assert text[i..][..|part|] == part;
      assert part <= text[i..];
    }
  }

  /** The canary oracle: vulnerable if a marker leaked, open if no marker is listed or no body was captured,
      passed otherwise. */
  lemma LeakExact(plan: AttackPlan, o: seq<Observation>)
    ensures var v := SensitiveLeak(plan, o).verdict;
      if (forall raw :: !ListAt(plan, "forbidden_markers", raw)) || (forall i, text :: !BodyAt(o, i, text)) then
        v == Inconclusive
      else if exists raw, m, i, offset :: ListAt(plan, "forbidden_markers", raw) && LeakAt(raw, o, m, i, offset) then
        v == Vulnerable
      else v == Pass
  {
    hide Get, PyText, Contains, Bodies;
    NoBodies(o);
    var listed := Get(plan.metadata, "forbidden_markers");
    if listed.Some? && listed.value.Arr? && listed.value.items != [] {
      assert ListAt(plan, "forbidden_markers", listed.value.items);
      LeakedExactly(listed.value.items, o);
    }
  }

  lemma NoBodies(o: seq<Observation>)
    ensures Bodies(o) == [] <==> forall i, text :: !BodyAt(o, i, text)
  {
    hide Bodies;
    if Bodies(o) != [] {
      BodySeen(o, Bodies(o)[0]);
    }
    if i, text :| BodyAt(o, i, text) {
      BodySeen(o, text);
    }
  }

  lemma LeakedExactly(raw: seq<Json>, o: seq<Observation>)
    ensures (exists m, b :: m in raw && b in Bodies(o) && PyText(m) != "" && Contains(b, PyText(m))) <==>
      exists m, i, offset :: LeakAt(raw, o, m, i, offset)
  {
    hide PyText, Bodies;
    if m, b :| m in raw && b in Bodies(o) && PyText(m) != "" && Contains(b, PyText(m)) {
      var k :| 0 <= k < |raw| && raw[k] == m;
      BodySeen(o, b);
      var i :| BodyAt(o, i, b);
      ContainsAt(b, PyText(m));
      var offset :| OccursAt(b, PyText(m), offset);
      assert LeakAt(raw, o, k, i, offset);
    }
    if m, i, offset :| LeakAt(raw, o, m, i, offset) {
      var text := o[i].body.value;
      assert BodyAt(o, i, text);
      BodySeen(o, text);
      ContainsAt(text, PyText(raw[m]));
      assert raw[m] in raw;
    }
  }

  // ----- evidence_receipt -----

  /** A receipt: text, a number or a flag, with some text, under one of the three names. */
  predicate ReceiptAt(o: seq<Observation>, i: int, key: string, v: Json) {
    && 0 <= i < |o| && (key == "lsn" || key == "evidence_lsn" || key == "evidence_id")
    && Get(o[i].evidence, key) == Some(v) && (v.Str? || v.Int? || v.Bool?) && PyText(v) != ""
  }

  lemma {:induction false} ReceiptsFound(o: Observation, keys: seq<string>)
    ensures ReceiptsOf(o, keys) == [] <==> forall k :: 0 <= k < |keys| ==> !Receipt(o, keys[k])
  {
    hide Get, PyText;
    if keys != [] {
      ReceiptsFound(o, keys[1..]);
      assert keys == [keys[0]] + keys[1..];
      forall k | 1 <= k < |keys| ensures keys[k] == keys[1..][k - 1] {
      }
    }
  }

  predicate Receipt(o: Observation, key: string) {
    match Get(o.evidence, key)
    case Some(v) => (v.Str? || v.Int? || v.Bool?) && PyText(v) != ""
    case None => false
  }

  lemma {:induction false} ReceiptsSeen(o: seq<Observation>)
    ensures Receipts(o) == [] <==> forall i, key, v :: !ReceiptAt(o, i, key, v)
  {
    hide Get, PyText, ReceiptsOf;
    if o != [] {
      var rest, keys := o[1..], ["lsn", "evidence_lsn", "evidence_id"];
      ReceiptsSeen(rest);
      ReceiptsFound(o[0], keys);
      if i, key, v :| ReceiptAt(rest, i, key, v) {
        assert ReceiptAt(o, i + 1, key, v);
      }
      if i, key, v :| ReceiptAt(o, i, key, v) {
        if i > 0 {
          assert ReceiptAt(rest, i - 1, key, v);
        } else {
          assert key == keys[0] || key == keys[1] || key == keys[2];
        }
      }
      if k :| 0 <= k < 3 && Receipt(o[0], keys[k]) {
        assert ReceiptAt(o, 0, keys[k], Get(o[0].evidence, keys[k]).value);
      }
    }
  }

  /** Passed if some observation carries a receipt, open otherwise. */
  lemma ReceiptExact(plan: AttackPlan, o: seq<Observation>)
    ensures EvidenceReceipt(plan, o).verdict
         == if exists i, key, v :: ReceiptAt(o, i, key, v) then Pass else Inconclusive
  {
    hide Receipts, ReceiptAt;
    ReceiptsSeen(o);
  }

  /** Each default oracle answers under its own identifier, whatever it is asked, so none is taken for broken. */
  lemma AnswersUnderOwnName(plan: AttackPlan, o: seq<Observation>, id: string)
    requires id in {"http_status", "availability", "reachability", "upstream_zero", "no_sensitive_leak",
                    "evidence_receipt"}
    ensures id in DefaultOracles()
    ensures exists r :: AnswersAs(DefaultOracles(), id, plan, o, r)
    ensures DefaultOracles()["http_status"](plan, o) == Some(HttpStatus(plan, o))
    ensures DefaultOracles()["availability"](plan, o) == Some(Availability(plan, o))
    ensures DefaultOracles()["reachability"](plan, o) == Some(Reachability(plan, o))
    ensures DefaultOracles()["upstream_zero"](plan, o) == Some(UpstreamEffect(plan, o))
    ensures DefaultOracles()["no_sensitive_leak"](plan, o) == Some(SensitiveLeak(plan, o))
    ensures DefaultOracles()["evidence_receipt"](plan, o) == Some(EvidenceReceipt(plan, o))
  {
    hide IntSet, PyIter, Statuses, StatusTools, Get, HealthValues, Probes, Counters, Bodies, Receipts, Contains, PyText;
    var r := DefaultOracles()[id](plan, o).value;
    assert r.oracleId == id;
    assert AnswersAs(DefaultOracles(), id, plan, o, r);
  }

  // ----- which evidence is the same -----

  lemma ListsEqual(a: seq<int>, b: seq<int>)
    ensures Ints(a) == Ints(b) <==> a == b
  {
    if Ints(a) == Ints(b) {
      assert |Ints(a).items| == |Ints(b).items|;
      forall i | 0 <= i < |a| ensures a[i] == b[i] {
        assert Ints(a).items[i] == Ints(b).items[i];
      }
    }
  }

  /** Two judgements of the status oracle carry the same fingerprint exactly if they counted the same statuses
      in the same order. */
  lemma SameStatusEvidence(p: AttackPlan, q: AttackPlan, a: seq<Observation>, b: seq<Observation>)
    requires HttpStatus(p, a).verdict in {Fail, Vulnerable} && HttpStatus(q, b).verdict in {Fail, Vulnerable}
    ensures HttpStatus(p, a).fingerprint.Some? && HttpStatus(p, a).fingerprint.value != EmptyText
    ensures HttpStatus(p, a).fingerprint == HttpStatus(q, b).fingerprint <==>
      Statuses(a, StatusTools(p)) == Statuses(b, StatusTools(q))
  {
    hide IntSet, PyIter, Statuses, StatusTools, Get, Ints;
    ListsEqual(Statuses(a, StatusTools(p)), Statuses(b, StatusTools(q)));
  }

  lemma Reassociate<T>(x: seq<T>, y: seq<T>, z: seq<T>)
    ensures (x + y) + z == x + (y + z)
  {
  }

  lemma StatusesOfFirst(x: Observation, rest: seq<Observation>, tools: Option<set<string>>)
    ensures Statuses([x] + rest, tools) == Statuses([x], tools) + Statuses(rest, tools)
  {
    assert ([x] + rest)[1..] == rest && [x][1..] == [];
  }

  /** Statuses are listed in the order of the observations. */
  lemma {:induction false} StatusesInOrder(a: seq<Observation>, b: seq<Observation>, tools: Option<set<string>>)
    ensures Statuses(a + b, tools) == Statuses(a, tools) + Statuses(b, tools)
  {
    hide *;
    if a == [] {
      NoStatuses(tools);
      assert a + b == b;
    } else {
      StatusesInOrder(a[1..], b, tools);
      Reassociate([a[0]], a[1..], b);
      StatusesOfFirst(a[0], a[1..], tools);
      StatusesOfFirst(a[0], a[1..] + b, tools);
      Reassociate(Statuses([a[0]], tools), Statuses(a[1..], tools), Statuses(b, tools));
      assert [a[0]] + a[1..] == a;
    }
  }

  lemma NoStatuses(tools: Option<set<string>>)
    ensures Statuses([], tools) == []
  {
  }

  lemma HealthOfFirst(x: Observation, rest: seq<Observation>)
    ensures HealthValues([x] + rest) == HealthValues([x]) + HealthValues(rest)
  {
    assert ([x] + rest)[1..] == rest && [x][1..] == [];
  }

  /** So are health values. */
  lemma {:induction false} HealthInOrder(a: seq<Observation>, b: seq<Observation>)
    ensures HealthValues(a + b) == HealthValues(a) + HealthValues(b)
  {
    if a == [] {
      assert a + b == b;
    } else {
      HealthInOrder(a[1..], b);
      Reassociate([a[0]], a[1..], b);
      HealthOfFirst(a[0], a[1..]);
      HealthOfFirst(a[0], a[1..] + b);
      Reassociate(HealthValues([a[0]]), HealthValues(a[1..]), HealthValues(b));
      hide *;
      assert [a[0]] + a[1..] == a;
    }
  }

  /** Two health failures count as the same exactly if they saw the same health values in the same order. */
  lemma SameHealthEvidence(p: AttackPlan, q: AttackPlan, a: seq<Observation>, b: seq<Observation>)
    requires Availability(p, a).verdict == Availability(q, b).verdict == Vulnerable
    ensures Availability(p, a).fingerprint.Some? && Availability(p, a).fingerprint.value != EmptyText
    ensures Availability(p, a).fingerprint == Availability(q, b).fingerprint <==> HealthValues(a) == HealthValues(b)
  {
    hide HealthValues;
    var x, y := HealthValues(a), HealthValues(b);
    if Bools(x) == Bools(y) {
      assert |Bools(x).items| == |Bools(y).items|;
      forall i | 0 <= i < |x| ensures x[i] == y[i] {
        assert Bools(x).items[i] == Bools(y).items[i];
      }
    }
  }

  /** Two effects on the upstream count as the same exactly if the counter grew by the same amount. */
  lemma SameEffectEvidence(p: AttackPlan, q: AttackPlan, a: seq<Observation>, b: seq<Observation>)
    requires UpstreamEffect(p, a).verdict == UpstreamEffect(q, b).verdict == Vulnerable
    ensures UpstreamEffect(p, a).fingerprint.Some? && UpstreamEffect(p, a).fingerprint.value != EmptyText
    ensures var x, y := Counters(a), Counters(b);
      |x| >= 2 && |y| >= 2
      && (UpstreamEffect(p, a).fingerprint == UpstreamEffect(q, b).fingerprint <==>
            x[|x| - 1] - x[0] == y[|y| - 1] - y[0])
  {
    hide Counters;
    var x, y := Counters(a), Counters(b);
    var d, e := x[|x| - 1] - x[0], y[|y| - 1] - y[0];
    assert DeltaEvidence(d) == DeltaEvidence(e) <==> d == e by {
      if DeltaEvidence(d) == DeltaEvidence(e) {
        assert DeltaEvidence(d).fields[0] == DeltaEvidence(e).fields[0];
      }
    }
  }

  /** All leaks are the same evidence, whichever marker and body they come from. */
  lemma SameLeakEvidence(p: AttackPlan, q: AttackPlan, a: seq<Observation>, b: seq<Observation>)
    requires SensitiveLeak(p, a).verdict == SensitiveLeak(q, b).verdict == Vulnerable
    ensures SensitiveLeak(p, a).fingerprint == SensitiveLeak(q, b).fingerprint
    ensures SensitiveLeak(p, a).fingerprint.Some? && SensitiveLeak(p, a).fingerprint.value != EmptyText
  {
    hide Bodies, Get, Contains, PyText;
  }

  // ----- from the canary to the verdict -----

  /** Attempt `k` ran, and a listed marker occurs in a body it captured. */
  ghost predicate LeaksIn(run: Run, w: World, k: nat) {
    Attempt(run, w, k).Ran?
    && exists raw, m, i, offset ::
         ListAt(run.plan, "forbidden_markers", raw) && LeakAt(raw, Attempt(run, w, k).observations, m, i, offset)
  }

  lemma LeakIsBlamed(run: Run, w: World, k: nat)
    requires run.oracles == DefaultOracles() && run.plan.oracleIds == ["no_sensitive_leak"]
    ensures LeaksIn(run, w, k) <==>
      Attempt(run, w, k).Ran? && SensitiveLeak(run.plan, Attempt(run, w, k).observations).verdict == Vulnerable
    ensures Attempt(run, w, k).Ran? ==>
      ResultsAt(run, w, k) == [SensitiveLeak(run.plan, Attempt(run, w, k).observations)]
  {
    hide Attempt, SensitiveLeak, ListAt, LeakAt;
    if Attempt(run, w, k).Ran? {
      var o := Attempt(run, w, k).observations;
      LeakExact(run.plan, o);
      LeakHasBody(o);
      LeakId(run.plan, o);
      assert EvaluateOne(run.oracles, "no_sensitive_leak", run.plan, o) == SensitiveLeak(run.plan, o);
    }
  }

  lemma LeakHasBody(o: seq<Observation>)
    ensures forall raw, m, i, offset :: LeakAt(raw, o, m, i, offset) ==> exists text :: BodyAt(o, i, text)
  {
    hide PyText;
    forall raw, m, i, offset | LeakAt(raw, o, m, i, offset) ensures exists text :: BodyAt(o, i, text) {
      assert BodyAt(o, i, o[i].body.value);
    }
  }

  lemma LeakId(plan: AttackPlan, o: seq<Observation>)
    ensures SensitiveLeak(plan, o).oracleId == "no_sensitive_leak"
  {
    hide Bodies, Get, Contains, PyText;
  }

  /** A canary plan is vulnerable exactly if some listed marker leaks in each of the required attempts. */
  lemma CanaryVulnerable(run: Run, w: World)
    requires run.required >= 1
    requires run.oracles == DefaultOracles() && run.plan.oracleIds == ["no_sensitive_leak"]
    ensures RunPlan(run, w).finding.verdict == Vulnerable <==> forall k :: 0 <= k < run.required ==> LeaksIn(run, w, k)
  {
    hide RunPlan, Attempt, SensitiveLeak, LeaksIn, ResultsAt;
    PromotionExact(run, w);
    var id := "no_sensitive_leak";
    if forall k :: 0 <= k < run.required ==> LeaksIn(run, w, k) {
      assert LeaksIn(run, w, 0);
      LeakIsBlamed(run, w, 0);
      SameLeakEvidence(run.plan, run.plan, Attempt(run, w, 0).observations, Attempt(run, w, 0).observations);
      var f := SensitiveLeak(run.plan, Attempt(run, w, 0).observations).fingerprint.value;
      forall k | 0 <= k < run.required ensures AttemptBlames(run, w, k, id, f) {
        assert LeaksIn(run, w, k);
        LeakIsBlamed(run, w, k);
        LeakId(run.plan, Attempt(run, w, k).observations);
        SameLeakEvidence(run.plan, run.plan, Attempt(run, w, 0).observations, Attempt(run, w, k).observations);
        assert Blames(ResultsAt(run, w, k)[0], id, f);
      }
      assert BlamedThroughout(run, w, run.required, id, f);
    }
    if other, f :| BlamedThroughout(run, w, run.required, other, f) {
      forall k | 0 <= k < run.required ensures LeaksIn(run, w, k) {
        assert AttemptBlames(run, w, k, other, f);
        LeakIsBlamed(run, w, k);
        LeakVerdicts(run.plan, Attempt(run, w, k).observations);
      }
    }
  }

  lemma LeakVerdicts(plan: AttackPlan, o: seq<Observation>)
    ensures SensitiveLeak(plan, o).verdict in {Vulnerable, Pass, Inconclusive}
  {
    hide Bodies, Get, Contains, PyText;
  }
}
