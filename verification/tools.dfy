/** Requests and observations built by the default adapters. */
module Tools {
  import opened JsonValues
  import opened Models
  import opened Targets
  import opened Safety

  // ----- the request an adapter would send -----

  /** `body` is `None` when no body is sent; a `Str` body is sent as raw text. */
  datatype Request = Request(verb: string, path: string, body: Option<Json>)

  /** A URL with nothing after its authority, at most a final slash. */
  predicate BareOrigin(target: string) {
    Split(target).Some? && Split(target).value.Url? && Split(target).value.suffix in {"", "/"}
  }

  /** `HttpRequestTool._execute` on a bare origin, whose own path contributes nothing. */
  function HttpRequest(arguments: seq<Field>, defaultMethod: string): Request {
    var suffix := PyText(GetOr(arguments, "path", Str("/")));
    var body := GetOr(arguments, "body", Null);
    Request(
      Upper(PyText(GetOr(arguments, "method", Str(defaultMethod)))),
      if suffix == "" then "/" else suffix,
      if body.Null? then None else Some(body))
  }

  /** The arguments `McpCallTool._execute` delegates. */
  function McpArguments(arguments: seq<Field>): seq<Field> {
    var withMethod := PutDefault(arguments, "method", Str("POST"));
    var withPath := PutDefault(withMethod, "path", Str("/mcp"));
    if Get(withPath, "body").Some? then withPath
    else Put(Drop(withPath, "message"), "body", GetOr(withPath, "message", Obj([])))
  }

  /** The arguments `UpstreamCounterTool.execute` delegates. */
  function CounterArguments(arguments: seq<Field>): seq<Field> {
    PutDefault(PutDefault(arguments, "method", Str("GET")), "path", Str("/hits"))
  }

  function BuildRequest(step: AttackStep): Request
    requires step.tool in HTTP_TOOLS
  {
    if step.tool == "mcp_call" then HttpRequest(McpArguments(step.arguments), "POST")
    else if step.tool == "upstream_counter" then HttpRequest(CounterArguments(step.arguments), "GET")
    else HttpRequest(step.arguments, "GET")
  }

  /** A request that cannot change the target, judged on the wire and not on the step's labels. */
  predicate Harmless(lib: Library, tool: string, request: Request) {
    || (request.verb in READ_ONLY && EmptyPayload(request.body))
    || (&& tool == "mcp_call" && request.verb == "POST" && request.path == "/mcp"
        && request.body.Some?
        && if request.body.value.Str?
           then !lib.jsonText(request.body.value.text) else SyntheticCall(request.body.value))
  }

  lemma McpArgumentsGet(arguments: seq<Field>)
    ensures var a := McpArguments(arguments);
      && GetOr(a, "method", Null) == GetOr(arguments, "method", Str("POST"))
      && GetOr(a, "path", Null) == GetOr(arguments, "path", Str("/mcp"))
      && Get(a, "body") == Some(GetOr(arguments, "body", GetOr(arguments, "message", Obj([]))))
      && Get(a, "method").Some? && Get(a, "path").Some?
  {
    var names := ["method", "path", "body", "message"];
    var withMethod := PutDefault(arguments, "method", Str("POST"));
    var withPath := PutDefault(withMethod, "path", Str("/mcp"));
    var dropped := Drop(withPath, "message");
    forall i | 0 <= i < |names|
      ensures Get(withMethod, names[i])
           == if names[i] == "method" then Some(GetOr(arguments, "method", Str("POST"))) else Get(arguments, names[i])
      ensures Get(withPath, names[i])
           == if names[i] == "path" then Some(GetOr(arguments, "path", Str("/mcp"))) else Get(withMethod, names[i])
      ensures Get(dropped, names[i]) == if names[i] == "message" then None else Get(withPath, names[i])
      ensures Get(Put(dropped, "body", GetOr(withPath, "message", Obj([]))), names[i])
           == if names[i] == "body" then Some(GetOr(withPath, "message", Obj([]))) else Get(dropped, names[i])
    {
      GetPut(arguments, "method", Str("POST"), names[i]);
      GetPut(withMethod, "path", Str("/mcp"), names[i]);
      GetPut(arguments, "method", Str("POST"), "path");
      GetDrop(withPath, "message", names[i]);
      GetPut(dropped, "body", GetOr(withPath, "message", Obj([])), names[i]);
    }
    assert names[0] == "method" && names[1] == "path" && names[2] == "body" && names[3] == "message";
  }

  lemma CounterArgumentsGet(arguments: seq<Field>)
    ensures var a := CounterArguments(arguments);
      && GetOr(a, "method", Str("GET")) == GetOr(arguments, "method", Str("GET"))
      && GetOr(a, "path", Str("/")) == GetOr(arguments, "path", Str("/hits"))
      && Get(a, "body") == Get(arguments, "body")
  {
    var withMethod := PutDefault(arguments, "method", Str("GET"));
    GetPut(arguments, "method", Str("GET"), "method");
    GetPut(arguments, "method", Str("GET"), "body");
    GetPut(arguments, "method", Str("GET"), "path");
    GetPut(withMethod, "path", Str("/hits"), "method");
    GetPut(withMethod, "path", Str("/hits"), "body");
    GetPut(withMethod, "path", Str("/hits"), "path");
  }

  /** The request of each HTTP tool, from the step's own arguments: the defaults, and where the body comes from. */
  lemma RequestExact(step: AttackStep)
    requires step.tool in HTTP_TOOLS
    ensures var r, a := BuildRequest(step), step.arguments;
      var mcp, counter := step.tool == "mcp_call", step.tool == "upstream_counter";
      var path := PyText(GetOr(a, "path", Str(if mcp then "/mcp" else if counter then "/hits" else "/")));
      && r.verb == Upper(PyText(GetOr(a, "method", Str(if mcp then "POST" else "GET"))))
      && r.path == (if path == "" then "/" else path)
      && (Get(a, "body").Some? ==> r.body == SentBody(Get(a, "body").value))
      && (Get(a, "body").None? && !mcp ==> r.body == None)
      && (Get(a, "body").None? && mcp ==> r.body == SentBody(GetOr(a, "message", Obj([]))))
  {
    hide PyText, Upper, McpArguments, CounterArguments;
    McpArgumentsGet(step.arguments);
    CounterArgumentsGet(step.arguments);
  }

  /** `_body_bytes`: only `null` sends nothing. */
  function SentBody(value: Json): Option<Json> {
    match value
    case Null => None
    case _ => Some(value)
  }

  /** As in every Python value, no object names a member twice. */
  ghost predicate SingleNames(j: Json) {
    forall path :: At(j, path).Some? && At(j, path).value.Obj? ==> DistinctKeys(At(j, path).value.fields)
  }

  lemma SingleNamesBelow(j: Json)
    requires SingleNames(j) && j.Obj?
    ensures DistinctKeys(j.fields)
    ensures forall f :: f in j.fields ==> SingleNames(f.value)
  {
    hide DistinctKeys;
    assert At(j, []) == Some(j);
    forall f | f in j.fields ensures SingleNames(f.value) {
      var i :| 0 <= i < |j.fields| && j.fields[i] == f;
      forall path ensures At(f.value, path) == At(j, [Member(i)] + path) {
        assert ([Member(i)] + path)[1..] == path;
      }
    }
  }

  /** The one POST that needs no authorization: a call of the forbidden synthetic tool with the marker among its
      arguments, and nothing beside what such a call consists of. */
  lemma SyntheticExact(body: Json)
    requires SingleNames(body)
    ensures SyntheticCall(body) <==>
      && body.Obj?
      && (forall f :: f in body.fields ==> f.key in {"jsonrpc", "id", "method", "params"})
      && Field("jsonrpc", Str("2.0")) in body.fields
      && Field("method", Str("tools/call")) in body.fields
      && exists params: seq<Field>, arguments: seq<Field> ::
           && Field("params", Obj(params)) in body.fields
           && (forall f :: f in params ==> f.key in {"name", "arguments"})
           && Field("name", Str("heraclitus_redteam_forbidden_probe")) in params
           && Field("arguments", Obj(arguments)) in params
           && Field("marker", Str("HERACLITUS_REDTEAM_SYNTHETIC_MARKER")) in arguments
  {
    hide Get, SingleNames;
    if body.Obj? {
      var f := body.fields;
      SingleNamesBelow(body);
      GetIsMember(f, "jsonrpc");
      GetIsMember(f, "method");
      GetIsMember(f, "params");
      MemberIsGet(f);
      if Get(f, "params").Some? && Get(f, "params").value.Obj? {
        var params := Get(f, "params").value.fields;
        SingleNamesBelow(Get(f, "params").value);
        GetIsMember(params, "name");
        GetIsMember(params, "arguments");
        MemberIsGet(params);
        if Get(params, "arguments").Some? && Get(params, "arguments").value.Obj? {
          var arguments := Get(params, "arguments").value.fields;
          SingleNamesBelow(Get(params, "arguments").value);
          GetIsMember(arguments, "marker");
          MemberIsGet(arguments);
        }
      }
    }
  }

  lemma MemberIsGet(fields: seq<Field>)
    requires DistinctKeys(fields)
    ensures forall f :: f in fields ==> Get(fields, f.key) == Some(f.value)
  {
    hide Get;
    forall f | f in fields ensures Get(fields, f.key) == Some(f.value) {
      var i :| 0 <= i < |fields| && fields[i] == f;
      GetOfDistinct(fields, i);
    }
  }

  /** The method the gate classifies is the method the adapter sends. */
  lemma MethodAgreement(step: AttackStep)
    requires step.tool in HTTP_TOOLS
    ensures EffectiveMethod(step) == Some(BuildRequest(step).verb)
  {
    McpArgumentsGet(step.arguments);
    CounterArgumentsGet(step.arguments);
  }

  /** Classification and wire agree: a step on a bare origin needs no authorization exactly when
      it is not labelled destructive, the request built from it is harmless, and a read-only step
      carries no second payload that the adapter would ignore. */
  lemma GateAdapterAgreement(lib: Library, step: AttackStep)
    requires step.tool in HTTP_TOOLS && BareOrigin(step.target)
    ensures !StepRequiresAuthorization(lib, step) <==>
      && !step.destructive
      && Harmless(lib, step.tool, BuildRequest(step))
      && (BuildRequest(step).verb in READ_ONLY ==> EmptyPayload(Get(step.arguments, "message")))
  {
    hide Split, PyText, Upper, McpArguments, CounterArguments;
    MethodAgreement(step);
    McpArgumentsGet(step.arguments);
    CounterArgumentsGet(step.arguments);
  }

  // ----- the observation an adapter returns -----

  /** What the network gave back: nothing, or a response whose text may parse as JSON. */
  datatype Raw =
    | NoReply
    | Reply(status: int, text: string, decoded: Option<Json>, length: nat, truncated: bool)

  function ObserveHttp(step: AttackStep, verb: string, raw: Raw): Observation {
    match raw
    case NoReply =>
      Observation(step.stepId, step.tool, step.target, false, None,
                  Some("error during loopback tool execution"), None, [])
    case Reply(status, text, _, length, truncated) =>
      Observation(step.stepId, step.tool, step.target, 100 <= status < 600, Some(status), None, Some(text),
                  [Field("method", Str(verb)), Field("response_bytes_observed", Int(length)),
                   Field("response_truncated", Bool(truncated))])
  }

  /** The `hits` member of the response, when it is a non-negative integer. */
  function CounterOf(raw: Raw): Option<nat> {
    match raw
    case Reply(_, _, Some(Obj(fields)), _, _) =>
      (match Get(fields, "hits")
       case Some(Int(n)) => if n >= 0 then Some(n) else None
       case _ => None)
    case _ => None
  }

  function ObserveCounter(step: AttackStep, verb: string, raw: Raw): Observation {
    var seen := ObserveHttp(step, verb, raw);
    var counter := CounterOf(raw);
    seen.(
      ok := seen.ok && counter.Some?,
      error := if counter.Some? then seen.error else Some("counter unavailable"),
      evidence := Put(seen.evidence, "counter", match counter case Some(n) => Int(n) case None => Null))
  }

  /** The probe can name a port: it cuts a URL at its last colon too, and then only a bare authority will do. */
  predicate Dialable(target: string) {
    ParseInt(Partition(target).1).Some?
  }

  /** A probe of a target that ends in a slash, which the gate accepts in a URL, never connects. */
  lemma SlashedProbeUndialable(head: string, tail: string)
    requires ':' !in tail && tail != [] && tail[|tail| - 1] == '/'
    ensures !Dialable(head + ":" + tail)
  {
    var target := head + ":" + tail;
    assert target[|head|] == ':' && forall k :: |head| < k < |target| ==> target[k] == tail[k - |head| - 1];
    assert LastIndexOf(target, ':') == Some(|head|);
    assert target[|head| + 1..] == tail;
    NoNumber(tail);
  }

  lemma {:induction false} NoNumber(s: string)
    requires s != [] && s[|s| - 1] == '/'
    ensures ParseInt(s).None?
  {
    if IsSpace(s[0]) {
      NoNumber(s[1..]);
    } else {
      var digits := if s[0] in {'+', '-'} then s[1..] else s;
      assert digits[|digits| - 1] == '/';
    }
  }

  function ObserveProbe(step: AttackStep, raw: Raw): Observation {
    var reached := Dialable(step.target) && raw.Reply?;
    Observation(step.stepId, step.tool, step.target, reached, None,
                if reached then None else Some("error during loopback tool execution"), None,
                [Field("reachable", Bool(reached))])
  }

  /** What a default adapter gets: a socket refuses `NaN` as its timeout before anything is sent. */
  function Sent(step: AttackStep, raw: Raw): Raw {
    if Endless(step) then NoReply else raw
  }

  /** An adapter turns a step and what the network gave back into an observation. */
  type Adapter = (AttackStep, Raw) -> Observation

  function DefaultRegistry(): map<string, Adapter> {
    map[
      "http_request" := (step: AttackStep, raw: Raw) =>
        ObserveHttp(step, Upper(PyText(GetOr(step.arguments, "method", Str("GET")))), Sent(step, raw)),
      "mcp_call" := (step: AttackStep, raw: Raw) =>
        ObserveHttp(step, Upper(PyText(GetOr(step.arguments, "method", Str("POST")))), Sent(step, raw)),
      "tcp_probe" := (step: AttackStep, raw: Raw) => ObserveProbe(step, Sent(step, raw)),
      "upstream_counter" := (step: AttackStep, raw: Raw) =>
        ObserveCounter(step, Upper(PyText(GetOr(step.arguments, "method", Str("GET")))), Sent(step, raw))]
  }

  // ----- what the default adapters report -----

  predicate AnsweredBy(step: AttackStep, raw: Raw) {
    raw.Reply? && step.timeout != Some(NotANumber)
  }

  predicate About(o: Observation, step: AttackStep) {
    o.stepId == step.stepId && o.tool == step.tool && o.target == step.target
  }

  /** An HTTP tool reports status, text and the method that was sent, or an error and no evidence. */
  lemma HttpObserved(step: AttackStep, raw: Raw)
    requires step.tool in {"http_request", "mcp_call"}
    ensures var o := DefaultRegistry()[step.tool](step, raw);
      && About(o, step)
      && (o.ok <==> AnsweredBy(step, raw) && 100 <= raw.status && raw.status <= 599)
      && if AnsweredBy(step, raw) then
           && o.status == Some(raw.status) && o.body == Some(raw.text) && o.error == None
           && Get(o.evidence, "method") == Some(Str(BuildRequest(step).verb))
           && Get(o.evidence, "response_bytes_observed") == Some(Int(raw.length))
           && Get(o.evidence, "response_truncated") == Some(Bool(raw.truncated))
         else o.status == None && o.body == None && o.error != None && o.evidence == []
  {
    MethodAgreement(step);
    hide PyText, Upper, BuildRequest, Get;
    if AnsweredBy(step, raw) {
      var e := DefaultRegistry()[step.tool](step, raw).evidence;
      assert |e| == 3 && DistinctKeys(e);
      GetOfDistinct(e, 0);
      GetOfDistinct(e, 1);
      GetOfDistinct(e, 2);
    }
  }

  /** The counter tool reports like an HTTP tool, and the number of hits that the response names, if it is one. */
  lemma CounterObserved(step: AttackStep, raw: Raw)
    requires step.tool == "upstream_counter"
    ensures var o := DefaultRegistry()[step.tool](step, raw);
      && About(o, step)
      && o.status == (if AnsweredBy(step, raw) then Some(raw.status) else None)
      && o.body == (if AnsweredBy(step, raw) then Some(raw.text) else None)
      && (forall n :: Get(o.evidence, "counter") == Some(Int(n)) <==> AnsweredBy(step, raw) && Hits(raw, n))
      && (Get(o.evidence, "counter") == Some(Null) <==> forall n :: !(AnsweredBy(step, raw) && Hits(raw, n)))
      && (o.ok <==> AnsweredBy(step, raw) && 100 <= raw.status && raw.status <= 599 && exists n :: Hits(raw, n))
      && (o.error == None <==> AnsweredBy(step, raw) && exists n :: Hits(raw, n))
  {
    var verb := Upper(PyText(GetOr(step.arguments, "method", Str("GET"))));
    var seen := ObserveHttp(step, verb, Sent(step, raw));
    var counter := CounterOf(Sent(step, raw));
    GetPut(seen.evidence, "counter", match counter case Some(n) => Int(n) case None => Null, "counter");
    hide PyText, Upper, Put;
    forall n ensures counter == Some(n) <==> AnsweredBy(step, raw) && Hits(raw, n) {
      hide Get;
    }
  }

  /** The response is an object whose `hits` is this number, which is not negative. */
  predicate Hits(raw: Raw, n: int) {
    && raw.Reply? && raw.decoded.Some? && raw.decoded.value.Obj?
    && Get(raw.decoded.value.fields, "hits") == Some(Int(n)) && n >= 0
  }

  /** A probe reports whether it connected, and nothing else. */
  lemma ProbeObserved(step: AttackStep, raw: Raw)
    requires step.tool == "tcp_probe"
    ensures var o := DefaultRegistry()[step.tool](step, raw);
      && About(o, step) && o.status == None && o.body == None
      && (o.ok <==> AnsweredBy(step, raw) && Dialable(step.target))
      && Get(o.evidence, "reachable") == Some(Bool(o.ok)) && (o.error == None <==> o.ok)
  {
    hide Dialable;
  }
}
