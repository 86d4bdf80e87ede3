/** The six deterministic oracles.  They read the plan's metadata and the observations, nothing else. */
module Oracles {
  import opened JsonValues
  import opened Models

  /** `None` where the evaluation raises. */
  type Evaluator = (AttackPlan, seq<Observation>) -> Option<OracleResult>

  // ----- Python conversions -----

  /** `int(value)` */
  function PyInt(j: Json): Option<int> {
    match j
    case Int(n) => Some(n)
    case Bool(b) => Some(if b then 1 else 0)
    case Float(Finite(r)) => Some(if r >= 0.0 then r.Floor else -((-r).Floor))
    case Str(s) => ParseInt(s)
    case _ => None
  }

  /** `for item in value`, or `None` when the value is not iterable */
  function PyIter(j: Json): Option<seq<Json>> {
    match j
    case Arr(items) => Some(items)
    case Str(s) => Some(seq(|s|, i requires 0 <= i < |s| => Str([s[i]])))
    case Obj(fields) => Some(seq(|fields|, i requires 0 <= i < |fields| => Str(fields[i].key)))
    case _ => None
  }

  /** `{int(item) for item in items}` */
  function IntSet(items: seq<Json>): Option<set<int>> {
    if items == [] then Some({})
    else match (PyInt(items[0]), IntSet(items[1..]))
      case (Some(n), Some(rest)) => Some({n} + rest)
      case _ => None
  }

  /** `bool(value)` */
  predicate PyTruth(j: Json) {
    match j
    case Null => false
    case Bool(b) => b
    case Int(n) => n != 0
    case Float(r) => r != Finite(0.0)
    case Str(s) => s != ""
    case Arr(items) => items != []
    case Obj(fields) => fields != []
  }

  function Ints(values: seq<int>): Json {
    Arr(seq(|values|, i requires 0 <= i < |values| => Int(values[i])))
  }

  function Bools(values: seq<bool>): Json {
    Arr(seq(|values|, i requires 0 <= i < |values| => Bool(values[i])))
  }

  function Judged(oracleId: string, verdict: Verdict, evidence: Option<Json>): OracleResult {
    OracleResult(oracleId, verdict, match evidence case Some(e) => Some(Digest(e)) case None => None)
  }

  lemma {:induction false} IntSetOfInts(values: seq<int>)
    ensures IntSet(Ints(values).items) == Some(set v | v in values)
  {
    var all := set v | v in values;
    if values == [] {
      assert all == {};
    } else {
      IntSetOfInts(values[1..]);
      assert Ints(values).items[1..] == Ints(values[1..]).items;
      assert values == [values[0]] + values[1..];
      assert all == {values[0]} + set v | v in values[1..];
    }
  }

  // ----- http_status -----

  function StatusTools(plan: AttackPlan): Option<set<string>> {
    match Get(plan.metadata, "status_tools")
    case Some(Arr(items)) => if items == [] then None else Some(set item | item in items :: PyText(item))
    case _ => None
  }

  function Statuses(observations: seq<Observation>, tools: Option<set<string>>): seq<int> {
    if observations == [] then []
    else
      var first := observations[0];
      (if first.status.Some? && (tools.None? || first.tool in tools.value) then [first.status.value] else [])
      + Statuses(observations[1..], tools)
  }

  function HttpStatus(plan: AttackPlan, observations: seq<Observation>): OracleResult {
    match Get(plan.metadata, "expected_statuses")
    case Some(Arr(raw)) =>
      if raw == [] then Judged("http_status", Inconclusive, None) else HttpStatusDeclared(plan, observations, raw)
    case _ => Judged("http_status", Inconclusive, None)
  }

  function HttpStatusDeclared(plan: AttackPlan, observations: seq<Observation>, raw: seq<Json>): OracleResult {
    match IntSet(raw)
    case None => Judged("http_status", Error, None)
    case Some(expected) =>
      var seen := Statuses(observations, StatusTools(plan));
      if seen == [] then Judged("http_status", Inconclusive, None)
      else match PyIter(GetOr(plan.metadata, "inconclusive_statuses", Arr([])))
        case None => Judged("http_status", Error, None)
        case Some(items) =>
          match IntSet(items)
          case None => Judged("http_status", Error, None)
          case Some(inconclusive) =>
            if exists i :: 0 <= i < |seen| && seen[i] in inconclusive then
              Judged("http_status", Inconclusive, Some(Ints(seen)))
            else if forall i :: 0 <= i < |seen| ==> seen[i] in expected then
              Judged("http_status", Pass, Some(Ints(seen)))
            else if Get(plan.metadata, "diagnostic_only") == Some(Bool(true)) then
              Judged("http_status", Inconclusive, Some(Ints(seen)))
            else if Get(plan.metadata, "unexpected_status_is_vulnerability") == Some(Bool(true)) then
              Judged("http_status", Vulnerable, Some(Ints(seen)))
            else
              Judged("http_status", Fail, Some(Ints(seen)))
  }

  // ----- availability -----

  function HealthValues(observations: seq<Observation>): seq<bool> {
    if observations == [] then []
    else
      (match Get(observations[0].evidence, "health") case Some(v) => [PyTruth(v)] case None => [])
      + HealthValues(observations[1..])
  }

  function Availability(plan: AttackPlan, observations: seq<Observation>): OracleResult {
    var values := HealthValues(observations);
    if values == [] then Judged("availability", Inconclusive, None)
    else Judged("availability", if false in values then Vulnerable else Pass, Some(Bools(values)))
  }

  // ----- reachability -----

  function Probes(observations: seq<Observation>): seq<bool> {
    if observations == [] then []
    else
      (match Get(observations[0].evidence, "reachable") case Some(Bool(b)) => [b] case _ => [])
      + Probes(observations[1..])
  }

  function Reachability(plan: AttackPlan, observations: seq<Observation>): OracleResult {
    var probes := Probes(observations);
    if probes == [] then Judged("reachability", Inconclusive, None)
    else Judged("reachability", if false in probes then Inconclusive else Pass, Some(Bools(probes)))
  }

  // ----- upstream_zero -----

  function Counter(o: Observation): Option<int> {
    match Get(o.evidence, "counter")
    case Some(Int(n)) => Some(n)
    case _ =>
      match Get(o.evidence, "upstream_count")
      case Some(Int(n)) => Some(n)
      case _ =>
        match Get(o.evidence, "hits")
        case Some(Int(n)) => Some(n)
        case _ => None
  }

  function Counters(observations: seq<Observation>): seq<int> {
    if observations == [] then []
    else
      (match Counter(observations[0]) case Some(n) => [n] case None => []) + Counters(observations[1..])
  }

  function DeltaEvidence(delta: int): Json {
    Obj([Field("delta", Int(delta))])
  }

  function UpstreamEffect(plan: AttackPlan, observations: seq<Observation>): OracleResult {
    var counters := Counters(observations);
    if |counters| < 2 then Judged("upstream_zero", Inconclusive, None)
    else
      var delta := counters[|counters| - 1] - counters[0];
      if delta < 0 then Judged("upstream_zero", Inconclusive, Some(Ints(counters)))
      else Judged("upstream_zero", if delta == 0 then Pass else Vulnerable, Some(DeltaEvidence(delta)))
  }

  // ----- no_sensitive_leak -----

  function Bodies(observations: seq<Observation>): seq<string> {
    if observations == [] then []
    else
      (match observations[0].body case Some(text) => [text] case None => []) + Bodies(observations[1..])
  }

  function SensitiveLeak(plan: AttackPlan, observations: seq<Observation>): OracleResult {
    match Get(plan.metadata, "forbidden_markers")
    case Some(Arr(raw)) =>
      var bodies := Bodies(observations);
      if raw == [] || bodies == [] then Judged("no_sensitive_leak", Inconclusive, None)
      else
        var leaked := exists m, b :: m in raw && b in bodies && PyText(m) != "" && Contains(b, PyText(m));
        Judged("no_sensitive_leak", if leaked then Vulnerable else Pass,
               Some(Obj([Field("marker_leaked", Bool(leaked))])))
    case _ => Judged("no_sensitive_leak", Inconclusive, None)
  }

  // ----- evidence_receipt -----

  function ReceiptsOf(o: Observation, keys: seq<string>): seq<Json> {
    if keys == [] then []
    else
      (match Get(o.evidence, keys[0])
       case Some(v) => if (v.Str? || v.Int? || v.Bool?) && PyText(v) != "" then [Str(PyText(v))] else []
       case None => [])
      + ReceiptsOf(o, keys[1..])
  }

  function Receipts(observations: seq<Observation>): seq<Json> {
    if observations == [] then []
    else ReceiptsOf(observations[0], ["lsn", "evidence_lsn", "evidence_id"]) + Receipts(observations[1..])
  }

  function EvidenceReceipt(plan: AttackPlan, observations: seq<Observation>): OracleResult {
    var receipts := Receipts(observations);
    if receipts == [] then Judged("evidence_receipt", Inconclusive, None)
    else Judged("evidence_receipt", Pass, Some(Arr(receipts)))
  }

  const DEFAULT_ORACLE_IDS: set<string> :=
    {"http_status", "availability", "reachability", "upstream_zero", "no_sensitive_leak", "evidence_receipt"}

  function DefaultOracles(): (m: map<string, Evaluator>)
    ensures m.Keys == DEFAULT_ORACLE_IDS
  {
    map[
      "http_status" := (p: AttackPlan, o: seq<Observation>) => Some(HttpStatus(p, o)),
      "availability" := (p: AttackPlan, o: seq<Observation>) => Some(Availability(p, o)),
      "reachability" := (p: AttackPlan, o: seq<Observation>) => Some(Reachability(p, o)),
      "upstream_zero" := (p: AttackPlan, o: seq<Observation>) => Some(UpstreamEffect(p, o)),
      "no_sensitive_leak" := (p: AttackPlan, o: seq<Observation>) => Some(SensitiveLeak(p, o)),
      "evidence_receipt" := (p: AttackPlan, o: seq<Observation>) => Some(EvidenceReceipt(p, o))]
  }

  // ----- the part of a plan an oracle can see -----

  const CONTRACT_KEYS: set<string> := {
    "expected_statuses", "status_tools", "inconclusive_statuses", "diagnostic_only",
    "unexpected_status_is_vulnerability", "forbidden_markers"}

  ghost predicate SameContract(p: AttackPlan, q: AttackPlan) {
    forall key :: key in CONTRACT_KEYS ==> Get(p.metadata, key) == Get(q.metadata, key)
  }

  lemma HttpStatusAlike(p: AttackPlan, q: AttackPlan, observations: seq<Observation>)
    requires SameContract(p, q)
    ensures HttpStatus(p, observations) == HttpStatus(q, observations)
  {
    hide IntSet, PyIter, Statuses, Get, Judged, Ints;
    assert Get(p.metadata, "expected_statuses") == Get(q.metadata, "expected_statuses");
    assert Get(p.metadata, "status_tools") == Get(q.metadata, "status_tools");
    assert Get(p.metadata, "inconclusive_statuses") == Get(q.metadata, "inconclusive_statuses");
    assert Get(p.metadata, "diagnostic_only") == Get(q.metadata, "diagnostic_only");
    assert Get(p.metadata, "unexpected_status_is_vulnerability")
      == Get(q.metadata, "unexpected_status_is_vulnerability");
    assert StatusTools(p) == StatusTools(q);
  }

  lemma SensitiveLeakAlike(p: AttackPlan, q: AttackPlan, observations: seq<Observation>)
    requires SameContract(p, q)
    ensures SensitiveLeak(p, observations) == SensitiveLeak(q, observations)
  {
    hide Bodies, Get, Judged, Contains, PyText;
    assert Get(p.metadata, "forbidden_markers") == Get(q.metadata, "forbidden_markers");
  }

  /** Two plans with the same contract metadata are judged alike by every default oracle. */
  lemma JudgedAlike(id: string, p: AttackPlan, q: AttackPlan, observations: seq<Observation>)
    requires id in DEFAULT_ORACLE_IDS && SameContract(p, q)
    ensures DefaultOracles()[id](p, observations) == DefaultOracles()[id](q, observations)
  {
    HttpStatusAlike(p, q, observations);
    SensitiveLeakAlike(p, q, observations);
    hide SameContract, HttpStatus, SensitiveLeak;
  }
}
