/** The remote relay: arena port, in-arena forwarder, Unix socket, host relay, exact endpoint.
    Every interleaving of the two bridges of every connection is a sequence of steps. */
module Relay {
  import opened JsonValues
  import opened Targets

  type Byte = b: int | 0 <= b < 256

  datatype Endpoint = Endpoint(name: string, localPort: nat, host: string, remotePort: nat)

  // ----- listeners -----

  function FileName(e: Endpoint): string {
    e.name + "-" + Decimal(e.remotePort) + ".sock"
  }

  function ArenaPath(e: Endpoint): string {
    "/run/relay/" + FileName(e)
  }

  lemma FileNameDash(e: Endpoint)
    ensures LastIndexOf(FileName(e), '-') == Some(|e.name|)
    ensures FileName(e)[..|e.name|] == e.name
    ensures FileName(e)[|e.name| + 1..|FileName(e)| - 5] == Decimal(e.remotePort)
  {
    var s := FileName(e);
    var d := Decimal(e.remotePort);
    assert s == e.name + ("-" + d + ".sock");
    assert s[|e.name|] == '-';
    forall k | |e.name| < k < |s| ensures s[k] != '-' {
      if k - |e.name| - 1 < |d| {
        assert s[k] == d[k - |e.name| - 1];
      } else {
        assert s[k] == ".sock"[k - |e.name| - 1 - |d|];
      }
    }
  }

  /** Two endpoints share a socket file exactly when they share name and remote port. */
  lemma FileNameExact(a: Endpoint, b: Endpoint)
    ensures FileName(a) == FileName(b) <==> a.name == b.name && a.remotePort == b.remotePort
  {
    if FileName(a) == FileName(b) {
      FileNameDash(a);
      FileNameDash(b);
      DecimalRoundTrip(a.remotePort);
      DecimalRoundTrip(b.remotePort);
    }
  }

  ghost predicate UniquePorts(endpoints: seq<Endpoint>) {
    forall i, j :: 0 <= i < j < |endpoints| ==> endpoints[i].localPort != endpoints[j].localPort
  }

  ghost predicate UniqueSockets(endpoints: seq<Endpoint>) {
    forall i, j :: 0 <= i < j < |endpoints| ==>
      endpoints[i].name != endpoints[j].name || endpoints[i].remotePort != endpoints[j].remotePort
  }

  /** The routing tables once the relay is up: port to path in the arena, path to endpoint on the host. */
  datatype Tables = Tables(arenaMap: map<nat, string>, listeners: map<string, Endpoint>)

  ghost predicate Routes(t: Tables, endpoints: seq<Endpoint>) {
    && (forall e :: e in endpoints ==>
          && e.localPort in t.arenaMap && t.arenaMap[e.localPort] == ArenaPath(e)
          && ArenaPath(e) in t.listeners && t.listeners[ArenaPath(e)] == e)
    && (forall p :: p in t.arenaMap ==> exists e :: e in endpoints && e.localPort == p)
  }

  class RemoteRelaySet {
    const endpoints: seq<Endpoint>
    var arenaMap: map<nat, string>
    var listeners: map<string, Endpoint>

    /** The source refuses an empty list and repeated local ports. */
    constructor (endpoints: seq<Endpoint>)
      requires endpoints != [] && UniquePorts(endpoints)
      ensures this.endpoints == endpoints && arenaMap == map[] && listeners == map[]
    {
      this.endpoints := endpoints;
      arenaMap, listeners := map[], map[];
    }

    /** Binding fails when the socket file exists already; otherwise every port is routed. */
    method Start() returns (ok: bool)
      requires UniquePorts(endpoints) && arenaMap == map[] && listeners == map[]
      modifies this`arenaMap, this`listeners
      ensures ok <==> UniqueSockets(endpoints)
      ensures ok ==> Routes(Tables(arenaMap, listeners), endpoints)
    {
      hide ArenaPath, Routes, UniqueSockets, UniquePorts;
      NoRoutes();
      for i := 0 to |endpoints|
        invariant UniqueSockets(endpoints[..i])
        invariant Routes(Tables(arenaMap, listeners), endpoints[..i])
        invariant forall p :: p in listeners <==> exists k :: 0 <= k < i && ArenaPath(endpoints[k]) == p
      {
        var path := ArenaPath(endpoints[i]);
        assert endpoints[..i + 1] == endpoints[..i] + [endpoints[i]];
        NextSocket(endpoints, i);
        if path in listeners {
          return false;
        }
        NextRoute(Tables(arenaMap, listeners), endpoints, i);
        arenaMap := arenaMap[endpoints[i].localPort := path];
        listeners := listeners[path := endpoints[i]];
      }
      assert endpoints[..|endpoints|] == endpoints;
      return true;
    }
  }

  lemma NoRoutes()
    ensures UniqueSockets([]) && Routes(Tables(map[], map[]), [])
  {
  }

  lemma PathExact(a: Endpoint, b: Endpoint)
    ensures ArenaPath(a) == ArenaPath(b) <==> a.name == b.name && a.remotePort == b.remotePort
  {
    hide FileName;
    FileNameExact(a, b);
    assert ArenaPath(a)[11..] == FileName(a) && ArenaPath(b)[11..] == FileName(b);
  }

  /** The next socket is new exactly when no earlier endpoint has its path. */
  lemma NextSocket(endpoints: seq<Endpoint>, i: nat)
    requires i < |endpoints| && UniqueSockets(endpoints[..i])
    ensures UniqueSockets(endpoints[..i + 1]) <==>
      forall k :: 0 <= k < i ==> ArenaPath(endpoints[k]) != ArenaPath(endpoints[i])
    ensures UniqueSockets(endpoints) ==> UniqueSockets(endpoints[..i + 1])
  {
    hide ArenaPath;
    var e := endpoints[i];
    forall k | 0 <= k < i
      ensures ArenaPath(endpoints[k]) == ArenaPath(e) <==>
        endpoints[k].name == e.name && endpoints[k].remotePort == e.remotePort
    {
      PathExact(endpoints[k], e);
    }
    var front, longer := endpoints[..i], endpoints[..i + 1];
    assert forall k :: 0 <= k < i ==> front[k] == endpoints[k] == longer[k];
    assert longer[i] == e;
  }

  lemma NextRoute(t: Tables, endpoints: seq<Endpoint>, i: nat)
    requires i < |endpoints| && UniquePorts(endpoints)
    requires Routes(t, endpoints[..i]) && ArenaPath(endpoints[i]) !in t.listeners
    ensures Routes(Tables(t.arenaMap[endpoints[i].localPort := ArenaPath(endpoints[i])],
                          t.listeners[ArenaPath(endpoints[i]) := endpoints[i]]),
                   endpoints[..i + 1])
  {
    hide ArenaPath;
    var e := endpoints[i];
    var front, longer := endpoints[..i], endpoints[..i + 1];
    assert longer == front + [e];
    forall d | d in front ensures d.localPort != e.localPort {
      var k :| 0 <= k < i && front[k] == d;
      assert endpoints[k] == d;
    }
  }

  // ----- connections -----

  /** Bytes of one direction, cumulatively: written by the sender, taken in and passed on by the
      first bridge, taken in and passed on by the second, read by the receiver. */
  datatype Flow = Flow(
    sent: seq<Byte>, taken1: seq<Byte>, passed1: seq<Byte>, taken2: seq<Byte>, passed2: seq<Byte>, read: seq<Byte>)

  const NO_FLOW := Flow([], [], [], [], [], [])

  /** The in-arena bridge holds no shared state. */
  datatype Inner = InnerReady | InnerHolding(outward: bool, data: seq<Byte>) | InnerClosed

  /** The host bridge, from its place in the listener's backlog on; both counters of the relay set are
      read and written in separate steps under one lock. */
  datatype Outer =
    | Backlog | Connected | CountLocked | CountLoaded(seen: nat) | CountStored
    | Ready | Holding(outward: bool, data: seq<Byte>)
    | Sent(n: nat) | Locked(n: nat) | Loaded(n: nat, seen: nat) | Stored
    | Closed

  datatype Conn = Conn(
    port: nat, endpoint: Endpoint,
    outward: Flow, inward: Flow,
    inner: Inner, outer: Outer,
    completed: nat,     // bytes of host-side sends that returned
    partial: nat,       // bytes of a host-side send that raised
    admitted: bool)     // counted as a connection

  datatype State = State(conns: seq<Conn>, lock: Option<nat>, bytes: nat, connections: nat)

  datatype Action =
    | Write(outward: bool, data: seq<Byte>)     // the arena process or the endpoint sends
    | Read(outward: bool, n: nat)               // the endpoint or the arena process receives
    | InnerRecv(outward: bool, n: nat)
    | InnerSend
    | InnerSendFails(n: nat)
    | InnerShut                                 // EOF, error or exceptional condition
    | OuterConnect
    | OuterRefused
    | OuterRecv(outward: bool, n: nat)
    | OuterSend
    | OuterSendFails(n: nat)
    | OuterShut                                 // EOF, error, exceptional condition or stop
    | Acquire
    | Load
    | Store
    | Release

  datatype Step = Open(port: nat) | On(conn: nat, action: Action)

  const CHUNK: nat := 65_536

  function FlowOf(c: Conn, outward: bool): Flow {
    if outward then c.outward else c.inward
  }

  function WithFlow(c: Conn, outward: bool, f: Flow): Conn {
    if outward then c.(outward := f) else c.(inward := f)
  }

  /** Outward, the inner bridge comes first; inward, the outer one does. */
  function Taken(f: Flow, first: bool): seq<Byte> {
    if first then f.taken1 else f.taken2
  }

  function Passed(f: Flow, first: bool): seq<Byte> {
    if first then f.passed1 else f.passed2
  }

  function Offered(f: Flow, first: bool): seq<Byte> {
    if first then f.sent else f.passed1
  }

  function Take(f: Flow, first: bool, data: seq<Byte>): Flow {
    if first then f.(taken1 := f.taken1 + data) else f.(taken2 := f.taken2 + data)
  }

  function Pass(f: Flow, first: bool, data: seq<Byte>): Flow {
    if first then f.(passed1 := f.passed1 + data) else f.(passed2 := f.passed2 + data)
  }

  /** The next `n` bytes waiting for a bridge, if a receive can return them. */
  function Waiting(f: Flow, first: bool, n: nat): Option<seq<Byte>> {
    var from := |Taken(f, first)|;
    if 0 < n <= CHUNK && from + n <= |Offered(f, first)| then Some(Offered(f, first)[from..from + n]) else None
  }

  /** Steps that touch one connection only; `None` when the step is not enabled. */
  function Local(c: Conn, a: Action): Option<Conn> {
    match a
    case Write(outward, data) =>
      var f := FlowOf(c, outward);
      Some(WithFlow(c, outward, f.(sent := f.sent + data)))
    case Read(outward, n) =>
      var f := FlowOf(c, outward);
      if |f.read| + n <= |f.passed2| then Some(WithFlow(c, outward, f.(read := f.passed2[..|f.read| + n]))) else None
    case InnerRecv(outward, n) =>
      var f := FlowOf(c, outward);
      var data := Waiting(f, outward, n);
      if c.inner != InnerReady || data.None? then None
      else Some(WithFlow(c, outward, Take(f, outward, data.value)).(inner := InnerHolding(outward, data.value)))
    case InnerSend =>
      if !c.inner.InnerHolding? then None
      else
        var d := c.inner.outward;
        Some(WithFlow(c, d, Pass(FlowOf(c, d), d, c.inner.data)).(inner := InnerReady))
    case InnerSendFails(n) =>
      if !c.inner.InnerHolding? || n > |c.inner.data| then None
      else
        var d := c.inner.outward;
        Some(WithFlow(c, d, Pass(FlowOf(c, d), d, c.inner.data[..n])).(inner := InnerClosed))
    case InnerShut => if c.inner == InnerReady then Some(c.(inner := InnerClosed)) else None
    case OuterConnect => if c.outer == Backlog then Some(c.(outer := Connected)) else None
    case OuterRefused => if c.outer == Backlog then Some(c.(outer := Closed)) else None
    case OuterRecv(outward, n) =>
      var f := FlowOf(c, outward);
      var data := Waiting(f, !outward, n);
      if c.outer != Ready || data.None? then None
      else Some(WithFlow(c, outward, Take(f, !outward, data.value)).(outer := Holding(outward, data.value)))
    case OuterSend =>
      if !c.outer.Holding? then None
      else
        var d := c.outer.outward;
        Some(WithFlow(c, d, Pass(FlowOf(c, d), !d, c.outer.data)).(
          outer := Sent(|c.outer.data|), completed := c.completed + |c.outer.data|))
    case OuterSendFails(n) =>
      if !c.outer.Holding? || n > |c.outer.data| then None
      else
        var d := c.outer.outward;
        Some(WithFlow(c, d, Pass(FlowOf(c, d), !d, c.outer.data[..n])).(outer := Closed, partial := c.partial + n))
    case OuterShut => if c.outer == Ready then Some(c.(outer := Closed)) else None
    case _ => None
  }

  /** The counting steps, which also touch the lock and the counters. */
  function Counting(s: State, i: nat, a: Action): Option<State>
    requires i < |s.conns|
  {
    var c := s.conns[i];
    match (a, c.outer)
    case (Acquire, Sent(n)) =>
      if s.lock.None? then Some(s.(conns := s.conns[i := c.(outer := Locked(n))], lock := Some(i))) else None
    case (Load, Locked(n)) => Some(s.(conns := s.conns[i := c.(outer := Loaded(n, s.bytes))]))
    case (Store, Loaded(n, seen)) => Some(s.(conns := s.conns[i := c.(outer := Stored)], bytes := seen + n))
    case (Release, Stored) => Some(s.(conns := s.conns[i := c.(outer := Ready)], lock := None))
    case (Acquire, Connected) =>
      if s.lock.None? then Some(s.(conns := s.conns[i := c.(outer := CountLocked)], lock := Some(i))) else None
    case (Load, CountLocked) => Some(s.(conns := s.conns[i := c.(outer := CountLoaded(s.connections))]))
    case (Store, CountLoaded(seen)) =>
      Some(s.(conns := s.conns[i := c.(outer := CountStored, admitted := true)], connections := seen + 1))
    case (Release, CountStored) => Some(s.(conns := s.conns[i := c.(outer := Ready)], lock := None))
    case _ => None
  }

  function Apply(t: Tables, s: State, step: Step): Option<State> {
    match step
    case Open(port) =>
      if port in t.arenaMap && t.arenaMap[port] in t.listeners then
        Some(s.(conns := s.conns +
          [Conn(port, t.listeners[t.arenaMap[port]], NO_FLOW, NO_FLOW, InnerReady, Backlog, 0, 0, false)]))
      else None
    case On(i, action) =>
      if i >= |s.conns| then None
      else if action in {Acquire, Load, Store, Release} then Counting(s, i, action)
      else match Local(s.conns[i], action)
        case None => None
        case Some(c) => Some(s.(conns := s.conns[i := c]))
  }

  const INITIAL := State([], None, 0, 0)

  /** The state after an interleaving, if every step of it was enabled. */
  function Run(t: Tables, steps: seq<Step>): Option<State> {
    if steps == [] then Some(INITIAL)
    else match Run(t, steps[..|steps| - 1])
      case None => None
      case Some(s) => Apply(t, s, steps[|steps| - 1])
  }

  // ----- what every step keeps -----

  /** Along one direction, each stage has handed on a prefix of what it was given. */
  predicate Ordered(f: Flow) {
    f.read <= f.passed2 && f.passed2 <= f.taken2 && f.taken2 <= f.passed1 && f.passed1 <= f.taken1 && f.taken1 <= f.sent
  }

  /** What a bridge has taken in but not passed on: the chunk in its hand, or nothing while it is open. */
  predicate Conserves(f: Flow, first: bool, open: bool, hand: seq<Byte>) {
    open ==> Taken(f, first) == Passed(f, first) + hand
  }

  function InnerHand(c: Conn, outward: bool): seq<Byte> {
    if c.inner.InnerHolding? && c.inner.outward == outward then c.inner.data else []
  }

  function OuterHand(c: Conn, outward: bool): seq<Byte> {
    if c.outer.Holding? && c.outer.outward == outward then c.outer.data else []
  }

  predicate FlowKept(c: Conn, outward: bool) {
    var f := FlowOf(c, outward);
    && Ordered(f)
    && Conserves(f, outward, c.inner != InnerClosed, InnerHand(c, outward))
    && Conserves(f, !outward, c.outer != Closed, OuterHand(c, outward))
  }

  /** Bytes the host bridge has sent, in both directions. */
  function HostSent(c: Conn): nat {
    |c.outward.passed2| + |c.inward.passed1|
  }

  /** A connection is admitted from the store to its counter on; a closed one may be either. */
  predicate AdmittedIn(o: Outer, admitted: bool) {
    match o
    case Backlog => !admitted
    case Connected => !admitted
    case CountLocked => !admitted
    case CountLoaded(_) => !admitted
    case Closed => true
    case _ => admitted
  }

  predicate ConnKept(c: Conn) {
    && FlowKept(c, true) && FlowKept(c, false)
    && HostSent(c) == c.completed + c.partial
    && (c.partial > 0 ==> c.outer == Closed)
    && AdmittedIn(c.outer, c.admitted)
  }

  /** Bytes sent and not yet in the shared counter. */
  function Uncounted(c: Conn): nat {
    match c.outer
    case Sent(n) => n
    case Locked(n) => n
    case Loaded(n, _) => n
    case _ => 0
  }

  function Counted(c: Conn): int {
    c.completed - Uncounted(c)
  }

  predicate InCriticalSection(c: Conn) {
    match c.outer
    case Locked(_) => true
    case Loaded(_, _) => true
    case Stored => true
    case CountLocked => true
    case CountLoaded(_) => true
    case CountStored => true
    case _ => false
  }

  function Total(conns: seq<Conn>): int {
    if conns == [] then 0 else Total(conns[..|conns| - 1]) + Counted(conns[|conns| - 1])
  }

  function Admissions(conns: seq<Conn>): nat {
    if conns == [] then 0 else Admissions(conns[..|conns| - 1]) + if conns[|conns| - 1].admitted then 1 else 0
  }

  predicate LockKept(s: State) {
    && (forall i :: 0 <= i < |s.conns| ==> (InCriticalSection(s.conns[i]) <==> s.lock == Some(i)))
    && (forall i :: 0 <= i < |s.conns| ==>
          && (s.conns[i].outer.Loaded? ==> s.conns[i].outer.seen == s.bytes)
          && (s.conns[i].outer.CountLoaded? ==> s.conns[i].outer.seen == s.connections))
    && (s.lock.Some? ==> s.lock.value < |s.conns|)
  }

  predicate Kept(t: Tables, s: State) {
    && (forall i :: 0 <= i < |s.conns| ==>
          && ConnKept(s.conns[i])
          && s.conns[i].port in t.arenaMap && t.arenaMap[s.conns[i].port] in t.listeners
          && s.conns[i].endpoint == t.listeners[t.arenaMap[s.conns[i].port]])
    && LockKept(s)
    && s.bytes == Total(s.conns)
    && s.connections == Admissions(s.conns)
  }

  lemma {:induction false} TotalUpdate(conns: seq<Conn>, i: nat, c: Conn)
    requires i < |conns|
    ensures Total(conns[i := c]) == Total(conns) - Counted(conns[i]) + Counted(c)
  {
    hide Counted;
    var n := |conns| - 1;
    var changed := conns[i := c];
    if i == n {
      assert changed[..n] == conns[..n];
    } else {
      assert changed[..n] == conns[..n][i := c];
      TotalUpdate(conns[..n], i, c);
    }
  }

  lemma {:induction false} AdmissionsUpdate(conns: seq<Conn>, i: nat, c: Conn)
    requires i < |conns|
    ensures Admissions(conns[i := c]) + (if conns[i].admitted then 1 else 0)
         == Admissions(conns) + if c.admitted then 1 else 0
  {
    var n := |conns| - 1;
    var changed := conns[i := c];
    if i == n {
      assert changed[..n] == conns[..n];
    } else {
      assert changed[..n] == conns[..n][i := c];
      AdmissionsUpdate(conns[..n], i, c);
    }
  }

  // ----- one connection -----

  lemma TakeKeeps(f: Flow, first: bool, n: nat)
    requires Ordered(f) && Waiting(f, first, n).Some?
    requires Taken(f, first) <= Offered(f, first)
    ensures var data := Waiting(f, first, n).value;
      && Ordered(Take(f, first, data))
      && Taken(Take(f, first, data), first) == Taken(f, first) + data
  {
    var from := |Taken(f, first)|;
    var offered := Offered(f, first);
    assert offered[..from] == Taken(f, first);
    assert offered[..from + n] == offered[..from] + offered[from..from + n];
  }

  lemma PassKeeps(f: Flow, first: bool, data: seq<Byte>, rest: seq<Byte>)
    requires Ordered(f) && Taken(f, first) == Passed(f, first) + (data + rest)
    ensures Ordered(Pass(f, first, data))
    ensures Taken(f, first) == Passed(Pass(f, first, data), first) + rest
  {
    assert Passed(f, first) + (data + rest) == (Passed(f, first) + data) + rest;
  }

  lemma WriteKeeps(c: Conn, outward: bool, data: seq<Byte>)
    requires ConnKept(c)
    ensures ConnKept(Local(c, Write(outward, data)).value)
  {
    var f := FlowOf(c, outward);
    assert f.taken1 <= f.sent <= f.sent + data;
  }

  lemma ReadKeeps(c: Conn, outward: bool, n: nat)
    requires ConnKept(c) && Local(c, Read(outward, n)).Some?
    ensures ConnKept(Local(c, Read(outward, n)).value)
  {
    var f := FlowOf(c, outward);
    assert f.passed2[..|f.read| + n] <= f.passed2;
  }

  lemma InnerRecvKeeps(c: Conn, outward: bool, n: nat)
    requires ConnKept(c) && Local(c, InnerRecv(outward, n)).Some?
    ensures ConnKept(Local(c, InnerRecv(outward, n)).value)
  {
    var f := FlowOf(c, outward);
    TakeKeeps(f, outward, n);
    assert Passed(f, outward) + [] == Passed(f, outward);
  }

  lemma InnerSendKeeps(c: Conn)
    requires ConnKept(c) && Local(c, InnerSend).Some?
    ensures ConnKept(Local(c, InnerSend).value)
  {
    var d, data := c.inner.outward, c.inner.data;
    assert data + [] == data;
    PassKeeps(FlowOf(c, d), d, data, []);
  }

  lemma InnerSendFailsKeeps(c: Conn, n: nat)
    requires ConnKept(c) && Local(c, InnerSendFails(n)).Some?
    ensures ConnKept(Local(c, InnerSendFails(n)).value)
  {
    var d, data := c.inner.outward, c.inner.data;
    assert data == data[..n] + data[n..];
    PassKeeps(FlowOf(c, d), d, data[..n], data[n..]);
  }

  lemma OuterRecvKeeps(c: Conn, outward: bool, n: nat)
    requires ConnKept(c) && Local(c, OuterRecv(outward, n)).Some?
    ensures ConnKept(Local(c, OuterRecv(outward, n)).value)
  {
    var f := FlowOf(c, outward);
    TakeKeeps(f, !outward, n);
    assert Passed(f, !outward) + [] == Passed(f, !outward);
  }

  lemma OuterSendKeeps(c: Conn)
    requires ConnKept(c) && Local(c, OuterSend).Some?
    ensures ConnKept(Local(c, OuterSend).value)
  {
    var d, data := c.outer.outward, c.outer.data;
    assert data + [] == data;
    PassKeeps(FlowOf(c, d), !d, data, []);
  }

  lemma OuterSendFailsKeeps(c: Conn, n: nat)
    requires ConnKept(c) && Local(c, OuterSendFails(n)).Some?
    ensures ConnKept(Local(c, OuterSendFails(n)).value)
  {
    var d, data := c.outer.outward, c.outer.data;
    assert data == data[..n] + data[n..];
    PassKeeps(FlowOf(c, d), !d, data[..n], data[n..]);
  }

  lemma ShutKeeps(c: Conn, a: Action)
    requires ConnKept(c) && Local(c, a).Some? && (a.InnerShut? || a.OuterShut? || a.OuterConnect? || a.OuterRefused?)
    ensures ConnKept(Local(c, a).value)
  {
    hide Ordered;
  }

  /** A step on one connection keeps its route and what it has already counted. */
  lemma LocalKeepsCount(c: Conn, a: Action)
    requires Local(c, a).Some?
    ensures var d := Local(c, a).value;
      && d.port == c.port && d.endpoint == c.endpoint
      && Counted(d) == Counted(c) && d.admitted == c.admitted
      && InCriticalSection(d) == InCriticalSection(c)
      && (InCriticalSection(d) ==> d.outer == c.outer)
  {
    hide Waiting, Take, Pass;
  }

  lemma LocalKeeps(c: Conn, a: Action)
    requires ConnKept(c) && Local(c, a).Some?
    ensures ConnKept(Local(c, a).value)
  {
    hide ConnKept;
    match a
    case Write(outward, data) => WriteKeeps(c, outward, data);
    case Read(outward, n) => ReadKeeps(c, outward, n);
    case InnerRecv(outward, n) => InnerRecvKeeps(c, outward, n);
    case InnerSend => InnerSendKeeps(c);
    case InnerSendFails(n) => InnerSendFailsKeeps(c, n);
    case OuterRecv(outward, n) => OuterRecvKeeps(c, outward, n);
    case OuterSend => OuterSendKeeps(c);
    case OuterSendFails(n) => OuterSendFailsKeeps(c, n);
    case _ => ShutKeeps(c, a);
  }

  /** Moving the host bridge between counting states does not touch the flows. */
  lemma CountingKeepsConn(c: Conn, next: Outer, admitted: bool)
    requires ConnKept(c) && !c.outer.Holding? && !next.Holding? && c.outer != Closed && next != Closed
    requires AdmittedIn(next, admitted)
    ensures ConnKept(c.(outer := next, admitted := admitted))
  {
    var d := c.(outer := next, admitted := admitted);
    assert FlowKept(d, true) && FlowKept(d, false);
  }

  // ----- every interleaving -----

  /** One counting step, seen from its connection and from the counters. */
  lemma CountingStep(s: State, i: nat, a: Action)
    requires i < |s.conns| && ConnKept(s.conns[i]) && LockKept(s) && Counting(s, i, a).Some?
    ensures var r := Counting(s, i, a).value;
      && r.conns == s.conns[i := r.conns[i]]
      && r.conns[i] == s.conns[i].(outer := r.conns[i].outer, admitted := r.conns[i].admitted)
      && ConnKept(r.conns[i])
      && r.bytes - s.bytes == Counted(r.conns[i]) - Counted(s.conns[i])
      && r.connections - s.connections
         == (if r.conns[i].admitted then 1 else 0) - (if s.conns[i].admitted then 1 else 0)
  {
    hide FlowKept, HostSent;
    var r := Counting(s, i, a).value;
    CountingKeepsConn(s.conns[i], r.conns[i].outer, r.conns[i].admitted);
  }

  lemma CountingKeepsLock(s: State, i: nat, a: Action)
    requires i < |s.conns| && LockKept(s) && Counting(s, i, a).Some?
    ensures LockKept(Counting(s, i, a).value)
  {
  }

  lemma CountingKeeps(t: Tables, s: State, i: nat, a: Action)
    requires Kept(t, s) && i < |s.conns| && Counting(s, i, a).Some?
    ensures Kept(t, Counting(s, i, a).value)
  {
    hide ConnKept, Counting, LockKept;
    var r := Counting(s, i, a).value;
    CountingStep(s, i, a);
    CountingKeepsLock(s, i, a);
    TotalUpdate(s.conns, i, r.conns[i]);
    AdmissionsUpdate(s.conns, i, r.conns[i]);
  }

  lemma StepKeeps(t: Tables, s: State, step: Step)
    requires Kept(t, s) && Apply(t, s, step).Some?
    ensures Kept(t, Apply(t, s, step).value)
  {
    hide Kept, Local, Counting;
    if step.Open? {
      OpenKeeps(t, s, step);
    } else if step.action in {Acquire, Load, Store, Release} {
      CountingKeeps(t, s, step.conn, step.action);
    } else {
      LocalStepKeeps(t, s, step);
    }
  }

  lemma OpenKeeps(t: Tables, s: State, step: Step)
    requires Kept(t, s) && step.Open? && Apply(t, s, step).Some?
    ensures Kept(t, Apply(t, s, step).value)
  {
    hide ConnKept, Local, Counting;
    var r := Apply(t, s, step).value;
    FreshKept(r.conns[|s.conns|]);
    assert r.conns[..|s.conns|] == s.conns;
  }

  lemma LocalStepKeeps(t: Tables, s: State, step: Step)
    requires Kept(t, s) && !step.Open? && step.action !in {Acquire, Load, Store, Release} && Apply(t, s, step).Some?
    ensures Kept(t, Apply(t, s, step).value)
  {
    hide ConnKept, Local, Counting;
    var r := Apply(t, s, step).value;
    LocalKeeps(s.conns[step.conn], step.action);
    LocalKeepsCount(s.conns[step.conn], step.action);
    TotalUpdate(s.conns, step.conn, r.conns[step.conn]);
    AdmissionsUpdate(s.conns, step.conn, r.conns[step.conn]);
  }

  lemma FreshKept(c: Conn)
    requires c.outward == c.inward == NO_FLOW && c.inner == InnerReady && c.outer == Backlog
      && c.completed == c.partial == 0 && !c.admitted
    ensures ConnKept(c)
  {
  }

  /** Every reachable state keeps the relay invariant. */
  lemma {:induction false} RunKeeps(t: Tables, steps: seq<Step>)
    ensures Run(t, steps).Some? ==> Kept(t, Run(t, steps).value)
  {
    hide Kept, Apply;
    if steps == [] {
      InitialKept(t);
    } else {
      RunKeeps(t, steps[..|steps| - 1]);
      if Run(t, steps).Some? {
        StepKeeps(t, Run(t, steps[..|steps| - 1]).value, steps[|steps| - 1]);
      }
    }
  }

  lemma InitialKept(t: Tables)
    ensures Kept(t, INITIAL)
  {
  }

  // ----- main results -----

  /** In every run, what either end reads is a prefix of what the other end wrote. */
  lemma DeliveredIsPrefix(t: Tables, steps: seq<Step>, i: nat, outward: bool)
    requires Run(t, steps).Some? && i < |Run(t, steps).value.conns|
    ensures var f := FlowOf(Run(t, steps).value.conns[i], outward);
      f.read <= f.sent
  {
    hide Run;
    RunKeeps(t, steps);
    var c := Run(t, steps).value.conns[i];
    assert FlowKept(c, outward);
    PrefixChain(FlowOf(c, outward));
  }

  lemma PrefixChain(f: Flow)
    requires Ordered(f)
    ensures f.read <= f.sent
  {
    assert f.read <= f.taken2 && f.taken2 <= f.taken1;
    assert f.read <= f.taken1;
  }

  /** While both bridges are open and idle, nothing is lost: each has passed on all it took in. */
  lemma OpenBridgesLoseNothing(t: Tables, steps: seq<Step>, i: nat, outward: bool)
    requires Run(t, steps).Some? && i < |Run(t, steps).value.conns|
    requires var c := Run(t, steps).value.conns[i];
      c.inner == InnerReady && c.outer == Ready
    ensures var f := FlowOf(Run(t, steps).value.conns[i], outward);
      f.taken1 == f.passed1 && f.taken2 == f.passed2
  {
    hide Run;
    RunKeeps(t, steps);
    var c := Run(t, steps).value.conns[i];
    assert FlowKept(c, outward);
    assert FlowOf(c, outward).passed1 + [] == FlowOf(c, outward).passed1;
    assert FlowOf(c, outward).passed2 + [] == FlowOf(c, outward).passed2;
  }

  /** Bytes written to arena port `p` reach only the endpoint declared for `p`. */
  lemma PortReachesItsEndpoint(t: Tables, endpoints: seq<Endpoint>, steps: seq<Step>, i: nat)
    requires UniquePorts(endpoints) && Routes(t, endpoints)
    requires Run(t, steps).Some? && i < |Run(t, steps).value.conns|
    ensures var c := Run(t, steps).value.conns[i];
      c.endpoint in endpoints && c.endpoint.localPort == c.port
  {
    hide Run, FileName;
    RunKeeps(t, steps);
    var c := Run(t, steps).value.conns[i];
    var e :| e in endpoints && e.localPort == c.port;
  }

  function Completed(conns: seq<Conn>): nat {
    if conns == [] then 0 else Completed(conns[..|conns| - 1]) + conns[|conns| - 1].completed
  }

  function AllUncounted(conns: seq<Conn>): nat {
    if conns == [] then 0 else AllUncounted(conns[..|conns| - 1]) + Uncounted(conns[|conns| - 1])
  }

  lemma {:induction false} TotalSplits(conns: seq<Conn>)
    ensures Total(conns) == Completed(conns) - AllUncounted(conns)
  {
    if conns != [] {
      TotalSplits(conns[..|conns| - 1]);
    }
  }

  /** No update is lost: the shared counter plus the sends still on their way to it is the sum of the
      completed host-side sends of all connections. */
  lemma BytesForwardedExact(t: Tables, steps: seq<Step>)
    requires Run(t, steps).Some?
    ensures var s := Run(t, steps).value;
      s.bytes + AllUncounted(s.conns) == Completed(s.conns)
  {
    hide Run, Total;
    RunKeeps(t, steps);
    TotalSplits(Run(t, steps).value.conns);
  }

  /** Nor is one lost from the connection counter. */
  lemma ConnectionsExact(t: Tables, steps: seq<Step>)
    requires Run(t, steps).Some?
    ensures var s := Run(t, steps).value;
      s.connections == Admissions(s.conns)
  {
    hide Run;
    RunKeeps(t, steps);
  }

  /** A completed send is bytes actually handed to the next socket; only a connection whose host send
      raised can have handed over more. */
  lemma CompletedIsSent(t: Tables, steps: seq<Step>, i: nat)
    requires Run(t, steps).Some? && i < |Run(t, steps).value.conns|
    ensures var c := Run(t, steps).value.conns[i];
      && c.completed <= HostSent(c)
      && (c.outer != Closed ==> c.completed == HostSent(c))
  {
    hide Run, FlowKept;
    RunKeeps(t, steps);
    assert ConnKept(Run(t, steps).value.conns[i]);
  }

  /** The lock is exclusive: at most one connection is between acquiring and releasing it. */
  lemma MutualExclusion(t: Tables, steps: seq<Step>, i: nat, j: nat)
    requires Run(t, steps).Some? && i < |Run(t, steps).value.conns| && j < |Run(t, steps).value.conns|
    requires InCriticalSection(Run(t, steps).value.conns[i]) && InCriticalSection(Run(t, steps).value.conns[j])
    ensures i == j
  {
    hide Run, InCriticalSection, ConnKept;
    RunKeeps(t, steps);
  }

  // ----- broken connections -----

  /** A bridge can end while it waits, and a send can break off after any part of its data, which is then all that
      the bridge ever passes on of it. */
  lemma BridgeBreaks(t: Tables, s: State, i: nat, n: nat)
    requires i < |s.conns|
    ensures var c := s.conns[i];
      && (Apply(t, s, On(i, InnerShut)) ==
            if c.inner == InnerReady then Some(s.(conns := s.conns[i := c.(inner := InnerClosed)])) else None)
      && (Apply(t, s, On(i, OuterShut)) ==
            if c.outer == Ready then Some(s.(conns := s.conns[i := c.(outer := Closed)])) else None)
    ensures var c, r := s.conns[i], Apply(t, s, On(i, InnerSendFails(n)));
      && (r.Some? <==> c.inner.InnerHolding? && n <= |c.inner.data|)
      && (r.Some? ==>
            var d, o := r.value.conns[i], c.inner.outward;
            && d.inner == InnerClosed && FlowOf(d, !o) == FlowOf(c, !o)
            && Passed(FlowOf(d, o), o) == Passed(FlowOf(c, o), o) + c.inner.data[..n])
    ensures var c, r := s.conns[i], Apply(t, s, On(i, OuterSendFails(n)));
      && (r.Some? <==> c.outer.Holding? && n <= |c.outer.data|)
      && (r.Some? ==>
            var d, o := r.value.conns[i], c.outer.outward;
            && d.outer == Closed && FlowOf(d, !o) == FlowOf(c, !o)
            && Passed(FlowOf(d, o), !o) == Passed(FlowOf(c, o), !o) + c.outer.data[..n])
  {
  }

  /** A waiting bridge takes any number of bytes from 1 to 65536 of those that are there for it. */
  lemma ChunkSizes(t: Tables, s: State, i: nat, outward: bool, n: nat)
    requires i < |s.conns|
    ensures var f := FlowOf(s.conns[i], outward);
      var inner, outer := |Offered(f, outward)| - |Taken(f, outward)|, |Offered(f, !outward)| - |Taken(f, !outward)|;
      && (Apply(t, s, On(i, InnerRecv(outward, n))).Some? <==>
            s.conns[i].inner == InnerReady && 1 <= n <= 65536 && n <= inner)
      && (Apply(t, s, On(i, OuterRecv(outward, n))).Some? <==>
            s.conns[i].outer == Ready && 1 <= n <= 65536 && n <= outer)
  {
  }

  /** A closed bridge stays closed and moves nothing, whatever else happens. */
  lemma {:induction false} ClosedMovesNothing(t: Tables, s: State, steps: seq<Step>, i: nat)
    requires i < |s.conns| && RunFrom(t, s, steps).Some?
    ensures i < |RunFrom(t, s, steps).value.conns|
    ensures var c, d := s.conns[i], RunFrom(t, s, steps).value.conns[i];
      && (c.inner == InnerClosed ==> d.inner == InnerClosed && SameBridge(c, d, true))
      && (c.outer == Closed ==> d.outer == Closed && SameBridge(c, d, false))
  {
    hide Apply;
    if steps != [] {
      var front := steps[..|steps| - 1];
      ClosedMovesNothing(t, s, front, i);
      OneStepWhenClosed(t, RunFrom(t, s, front).value, steps[|steps| - 1], i);
    }
  }

  /** The arena's bridge, or the host's, has taken and passed on the same in both directions. */
  predicate SameBridge(c: Conn, d: Conn, inner: bool) {
    && Taken(d.outward, inner) == Taken(c.outward, inner) && Passed(d.outward, inner) == Passed(c.outward, inner)
    && Taken(d.inward, !inner) == Taken(c.inward, !inner) && Passed(d.inward, !inner) == Passed(c.inward, !inner)
  }

  lemma OneStepWhenClosed(t: Tables, s: State, step: Step, i: nat)
    requires i < |s.conns| && Apply(t, s, step).Some?
    ensures i < |Apply(t, s, step).value.conns|
    ensures var c, d := s.conns[i], Apply(t, s, step).value.conns[i];
      && (c.inner == InnerClosed ==> d.inner == InnerClosed && SameBridge(c, d, true))
      && (c.outer == Closed ==> d.outer == Closed && SameBridge(c, d, false))
  {
    hide Local, Counting, SameBridge;
    var c := s.conns[i];
    SameItself(c);
    match step
    case Open(_) =>
    case On(j, a) =>
      if a in {Acquire, Load, Store, Release} {
        CountingWhenClosed(s, j, a, i);
      } else if j == i {
        LocalWhenClosed(c, a);
      }
  }

  lemma SameItself(c: Conn)
    ensures SameBridge(c, c, true) && SameBridge(c, c, false)
  {
  }

  lemma LocalWhenClosed(c: Conn, a: Action)
    requires Local(c, a).Some?
    ensures var d := Local(c, a).value;
      && (c.inner == InnerClosed ==> d.inner == InnerClosed && SameBridge(c, d, true))
      && (c.outer == Closed ==> d.outer == Closed && SameBridge(c, d, false))
  {
    hide Waiting;
  }

  lemma CountingWhenClosed(s: State, j: nat, a: Action, i: nat)
    requires j < |s.conns| && i < |s.conns| && Counting(s, j, a).Some?
    ensures |Counting(s, j, a).value.conns| == |s.conns|
    ensures var c, d := s.conns[i], Counting(s, j, a).value.conns[i];
      && (c.inner == InnerClosed ==> d.inner == InnerClosed && SameBridge(c, d, true))
      && (c.outer == Closed ==> d.outer == Closed && SameBridge(c, d, false))
  {
  }

  // ----- delivery -----

  /** The state after more steps from `s`, if each of them was enabled. */
  function RunFrom(t: Tables, s: State, steps: seq<Step>): Option<State> {
    if steps == [] then Some(s)
    else match RunFrom(t, s, steps[..|steps| - 1])
      case None => None
      case Some(u) => Apply(t, u, steps[|steps| - 1])
  }

  lemma {:induction false} RunsOn(t: Tables, before: seq<Step>, more: seq<Step>)
    requires Run(t, before).Some?
    ensures Run(t, before + more) == RunFrom(t, Run(t, before).value, more)
  {
    hide Apply;
    if more == [] {
      assert before + more == before;
    } else {
      RunsOn(t, before, more[..|more| - 1]);
      assert (before + more)[..|before + more| - 1] == before + more[..|more| - 1];
    }
  }

  lemma {:induction false} RunsFurther(t: Tables, s: State, first: seq<Step>, second: seq<Step>)
    requires RunFrom(t, s, first).Some?
    ensures RunFrom(t, s, first + second) == RunFrom(t, RunFrom(t, s, first).value, second)
  {
    hide Apply;
    if second == [] {
      assert first + second == first;
    } else {
      RunsFurther(t, s, first, second[..|second| - 1]);
      assert (first + second)[..|first + second| - 1] == first + second[..|second| - 1];
    }
  }

  /** Steps of the bridges of connection `i` and reads at its ends: nothing is written, closed or refused. */
  predicate Transport(i: nat, steps: seq<Step>) {
    forall k :: 0 <= k < |steps| ==>
      && steps[k].On? && steps[k].conn == i
      && (steps[k].action in {InnerSend, OuterSend, Acquire, Load, Store, Release}
          || steps[k].action.Read? || steps[k].action.InnerRecv? || steps[k].action.OuterRecv?)
  }

  /** `r` comes from `s` by transport steps of connection `i`, with these flows. */
  predicate Carried(t: Tables, s: State, i: nat, steps: seq<Step>, r: State, outward: Flow, inward: Flow) {
    && Transport(i, steps) && RunFrom(t, s, steps) == Some(r)
    && |r.conns| == |s.conns| && i < |r.conns|
    && r.conns[i].outward == outward && r.conns[i].inward == inward
  }

  /** Both bridges of the connection are open and between two chunks, and nobody counts. */
  predicate AtRest(t: Tables, s: State, i: nat) {
    && Kept(t, s) && i < |s.conns| && s.lock.None?
    && s.conns[i].inner == InnerReady && s.conns[i].outer == Ready
  }

  lemma CarriedOn(t: Tables, s: State, i: nat, first: seq<Step>, u: State, second: seq<Step>, r: State,
                  outward: Flow, inward: Flow)
    requires Transport(i, first) && RunFrom(t, s, first) == Some(u) && |u.conns| == |s.conns|
    requires Carried(t, u, i, second, r, outward, inward)
    ensures Carried(t, s, i, first + second, r, outward, inward)
  {
    hide Apply;
    RunsFurther(t, s, first, second);
  }

  /** One enabled step. */
  lemma OneStep(t: Tables, s: State, step: Step)
    requires Kept(t, s)
    ensures RunFrom(t, s, [step]) == Apply(t, s, step)
    ensures Apply(t, s, step).Some? ==> Kept(t, Apply(t, s, step).value)
  {
    hide Apply, Kept;
    assert [step][..0] == [];
    assert RunFrom(t, s, []) == Some(s);
    if Apply(t, s, step).Some? {
      StepKeeps(t, s, step);
    }
  }

  /** After a send the bridge counts and is ready again. */
  lemma CountsUp(t: Tables, s: State, i: nat) returns (steps: seq<Step>, r: State)
    requires Kept(t, s) && i < |s.conns| && s.lock.None? && s.conns[i].outer.Sent?
    ensures Carried(t, s, i, steps, r, s.conns[i].outward, s.conns[i].inward)
    ensures Kept(t, r) && r.lock.None? && r.conns[i].inner == s.conns[i].inner && r.conns[i].outer == Ready
  {
    hide Kept;
    var s1 := Apply(t, s, On(i, Acquire)).value;
    OneStep(t, s, On(i, Acquire));
    var s2 := Apply(t, s1, On(i, Load)).value;
    OneStep(t, s1, On(i, Load));
    var s3 := Apply(t, s2, On(i, Store)).value;
    OneStep(t, s2, On(i, Store));
    r := Apply(t, s3, On(i, Release)).value;
    OneStep(t, s3, On(i, Release));
    hide Apply;
    CarriedOn(t, s2, i, [On(i, Store)], s3, [On(i, Release)], r, s.conns[i].outward, s.conns[i].inward);
    CarriedOn(t, s1, i, [On(i, Load)], s2, [On(i, Store)] + [On(i, Release)], r, s.conns[i].outward, s.conns[i].inward);
    steps := [On(i, Acquire)] + ([On(i, Load)] + ([On(i, Store)] + [On(i, Release)]));
    CarriedOn(t, s, i, [On(i, Acquire)], s1, [On(i, Load)] + ([On(i, Store)] + [On(i, Release)]), r,
              s.conns[i].outward, s.conns[i].inward);
  }

  /** The flow once one bridge has passed on all it is offered. */
  function Drained(f: Flow, first: bool): Flow {
    if first then f.(taken1 := f.sent, passed1 := f.sent) else f.(taken2 := f.passed1, passed2 := f.passed1)
  }

  function OutwardAfter(c: Conn, outward: bool, f: Flow): Flow {
    if outward then f else c.outward
  }

  function InwardAfter(c: Conn, outward: bool, f: Flow): Flow {
    if outward then c.inward else f
  }

  function Chunk(n: nat): nat {
    if n <= CHUNK then n else CHUNK
  }

  /** What is left for a bridge to take. */
  function Left(f: Flow, first: bool): int {
    |Offered(f, first)| - |Taken(f, first)|
  }

  /** One chunk through a bridge that is open and idle. */
  lemma ChunkMoves(f: Flow, first: bool)
    requires Ordered(f) && Taken(f, first) == Passed(f, first) && Left(f, first) > 0
    ensures var n := Chunk(Left(f, first));
      && Waiting(f, first, n).Some?
      && var data := Waiting(f, first, n).value;
      && var g := Pass(Take(f, first, data), first, data);
      && |data| == n > 0 && Offered(g, first) == Offered(f, first) && Taken(g, first) == Passed(g, first)
      && Left(g, first) == Left(f, first) - n && Drained(g, first) == Drained(f, first)
  {
  }

  lemma DrainedAlready(f: Flow, first: bool)
    requires Ordered(f) && Taken(f, first) == Passed(f, first) && Left(f, first) == 0
    ensures Drained(f, first) == f
  {
    assert Taken(f, first) <= Offered(f, first);
  }

  /** At rest, a bridge has passed on what it took. */
  lemma RestIsIdle(t: Tables, s: State, i: nat, outward: bool, first: bool)
    requires AtRest(t, s, i)
    ensures var f := FlowOf(s.conns[i], outward);
      Ordered(f) && Taken(f, first) == Passed(f, first) && Left(f, first) >= 0
  {
    var c := s.conns[i];
    assert ConnKept(c) && FlowKept(c, outward);
    var f := FlowOf(c, outward);
    assert Passed(f, first) + [] == Passed(f, first);
    assert Taken(f, first) <= Offered(f, first);
  }

  lemma InnerChunk(t: Tables, s: State, i: nat, outward: bool) returns (steps: seq<Step>, r: State)
    requires AtRest(t, s, i) && Left(FlowOf(s.conns[i], outward), outward) > 0
    ensures AtRest(t, r, i)
    ensures var f := FlowOf(s.conns[i], outward);
      var g := FlowOf(r.conns[i], outward);
      && Left(g, outward) < Left(f, outward) && Drained(g, outward) == Drained(f, outward)
      && Carried(t, s, i, steps, r, OutwardAfter(s.conns[i], outward, g), InwardAfter(s.conns[i], outward, g))
  {
    hide Kept, Waiting, Chunk, Drained, Left, Ordered;
    var f := FlowOf(s.conns[i], outward);
    RestIsIdle(t, s, i, outward, outward);
    ChunkMoves(f, outward);
    var n := Chunk(Left(f, outward));
    var u := Apply(t, s, On(i, InnerRecv(outward, n))).value;
    OneStep(t, s, On(i, InnerRecv(outward, n)));
    r := Apply(t, u, On(i, InnerSend)).value;
    OneStep(t, u, On(i, InnerSend));
    steps := [On(i, InnerRecv(outward, n))] + [On(i, InnerSend)];
    hide Apply;
    CarriedOn(t, s, i, [On(i, InnerRecv(outward, n))], u, [On(i, InnerSend)], r, r.conns[i].outward, r.conns[i].inward);
  }

  lemma OuterChunk(t: Tables, s: State, i: nat, outward: bool) returns (steps: seq<Step>, r: State)
    requires AtRest(t, s, i) && Left(FlowOf(s.conns[i], outward), !outward) > 0
    ensures AtRest(t, r, i)
    ensures var f := FlowOf(s.conns[i], outward);
      var g := FlowOf(r.conns[i], outward);
      && Left(g, !outward) < Left(f, !outward) && Drained(g, !outward) == Drained(f, !outward)
      && Carried(t, s, i, steps, r, OutwardAfter(s.conns[i], outward, g), InwardAfter(s.conns[i], outward, g))
  {
    hide Kept, Waiting, Chunk, Drained, Left, Ordered;
    var f := FlowOf(s.conns[i], outward);
    RestIsIdle(t, s, i, outward, !outward);
    ChunkMoves(f, !outward);
    var n := Chunk(Left(f, !outward));
    var u := Apply(t, s, On(i, OuterRecv(outward, n))).value;
    OneStep(t, s, On(i, OuterRecv(outward, n)));
    var v := Apply(t, u, On(i, OuterSend)).value;
    OneStep(t, u, On(i, OuterSend));
    var counting, last := CountsUp(t, v, i);
    r := last;
    hide Apply;
    CarriedOn(t, u, i, [On(i, OuterSend)], v, counting, r, r.conns[i].outward, r.conns[i].inward);
    steps := [On(i, OuterRecv(outward, n))] + ([On(i, OuterSend)] + counting);
    CarriedOn(t, s, i, [On(i, OuterRecv(outward, n))], u, [On(i, OuterSend)] + counting, r,
              r.conns[i].outward, r.conns[i].inward);
  }

  /** Chunk by chunk, a bridge passes on all it is offered. */
  lemma {:induction false} BridgeDrains(t: Tables, s: State, i: nat, outward: bool, inner: bool)
    returns (steps: seq<Step>, r: State)
    requires AtRest(t, s, i) && i < |s.conns|
    ensures var g := Drained(FlowOf(s.conns[i], outward), outward == inner);
      && AtRest(t, r, i)
      && Carried(t, s, i, steps, r, OutwardAfter(s.conns[i], outward, g), InwardAfter(s.conns[i], outward, g))
    decreases Left(FlowOf(s.conns[i], outward), outward == inner)
  {
    hide AtRest, Drained, Left, Ordered, Apply;
    var f := FlowOf(s.conns[i], outward);
    var first := outward == inner;
    RestIsIdle(t, s, i, outward, first);
    if Left(f, first) == 0 {
      DrainedAlready(f, first);
      steps, r := [], s;
    } else {
      var once, u;
      if inner {
        once, u := InnerChunk(t, s, i, outward);
      } else {
        once, u := OuterChunk(t, s, i, outward);
      }
      RestIsIdle(t, u, i, outward, first);
      var rest, last := BridgeDrains(t, u, i, outward, inner);
      steps, r := once + rest, last;
      var g := Drained(f, first);
      CarriedOn(t, s, i, once, u, rest, r, OutwardAfter(s.conns[i], outward, g), InwardAfter(s.conns[i], outward, g));
    }
  }

  /** Both bridges come to rest without losing what they hold. */
  lemma ComesToRest(t: Tables, s: State, i: nat) returns (steps: seq<Step>, r: State)
    requires Kept(t, s) && i < |s.conns| && s.lock.None? && s.conns[i].admitted
    requires s.conns[i].inner != InnerClosed && s.conns[i].outer != Closed
    ensures AtRest(t, r, i) && |r.conns| == |s.conns|
    ensures Transport(i, steps) && RunFrom(t, s, steps) == Some(r)
    ensures r.conns[i].outward.sent == s.conns[i].outward.sent && r.conns[i].inward.sent == s.conns[i].inward.sent
  {
    hide Apply, Kept, Transport, RunFrom, AtRest;
    var one, u := InnerRests(t, s, i);
    var two, v := OuterRests(t, u, i);
    TransportJoins(t, s, i, one, u, two, v);
    steps, r := one + two, v;
  }

  lemma InnerRests(t: Tables, s: State, i: nat) returns (steps: seq<Step>, r: State)
    requires Kept(t, s) && i < |s.conns| && s.conns[i].inner != InnerClosed
    ensures Transport(i, steps) && RunFrom(t, s, steps) == Some(r) && Kept(t, r) && |r.conns| == |s.conns|
    ensures r.lock == s.lock && r.conns[i].inner == InnerReady
    ensures r.conns[i].outer == s.conns[i].outer && r.conns[i].admitted == s.conns[i].admitted
    ensures r.conns[i].outward.sent == s.conns[i].outward.sent && r.conns[i].inward.sent == s.conns[i].inward.sent
  {
    hide Kept;
    if s.conns[i].inner == InnerReady {
      steps, r := [], s;
    } else {
      steps := [On(i, InnerSend)];
      OneStep(t, s, On(i, InnerSend));
      r := Apply(t, s, On(i, InnerSend)).value;
    }
  }

  lemma OuterRests(t: Tables, s: State, i: nat) returns (steps: seq<Step>, r: State)
    requires Kept(t, s) && i < |s.conns| && s.lock.None? && s.conns[i].admitted
    requires s.conns[i].inner == InnerReady && s.conns[i].outer != Closed
    ensures Transport(i, steps) && RunFrom(t, s, steps) == Some(r) && AtRest(t, r, i) && |r.conns| == |s.conns|
    ensures r.conns[i].outward.sent == s.conns[i].outward.sent && r.conns[i].inward.sent == s.conns[i].inward.sent
  {
    FreeBridge(t, s, i);
    hide Kept, Apply;
    if s.conns[i].outer == Ready {
      steps, r := [], s;
    } else if s.conns[i].outer.Sent? {
      steps, r := CountsUp(t, s, i);
    } else {
      var u := SendsOn(t, s, i);
      var counting, last := CountsUp(t, u, i);
      steps, r := [On(i, OuterSend)] + counting, last;
      hide Transport;
      TransportJoins(t, s, i, [On(i, OuterSend)], u, counting, r);
    }
  }

  lemma TransportJoins(t: Tables, s: State, i: nat, first: seq<Step>, u: State, second: seq<Step>, r: State)
    requires Transport(i, first) && RunFrom(t, s, first) == Some(u)
    requires Transport(i, second) && RunFrom(t, u, second) == Some(r)
    ensures Transport(i, first + second) && RunFrom(t, s, first + second) == Some(r)
  {
    hide Apply;
    RunsFurther(t, s, first, second);
  }

  lemma SendsOn(t: Tables, s: State, i: nat) returns (u: State)
    requires Kept(t, s) && i < |s.conns| && s.conns[i].outer.Holding?
    ensures Transport(i, [On(i, OuterSend)]) && RunFrom(t, s, [On(i, OuterSend)]) == Some(u)
    ensures Kept(t, u) && |u.conns| == |s.conns|
    ensures u.lock == s.lock && u.conns[i].inner == s.conns[i].inner && u.conns[i].outer.Sent?
    ensures u.conns[i].outward.sent == s.conns[i].outward.sent && u.conns[i].inward.sent == s.conns[i].inward.sent
  {
    hide Kept;
    OneStep(t, s, On(i, OuterSend));
    u := Apply(t, s, On(i, OuterSend)).value;
  }

  /** Where an admitted host bridge can be while the lock is free. */
  lemma FreeBridge(t: Tables, s: State, i: nat)
    requires Kept(t, s) && i < |s.conns| && s.lock.None? && s.conns[i].admitted && s.conns[i].outer != Closed
    ensures s.conns[i].outer == Ready || s.conns[i].outer.Sent? || s.conns[i].outer.Holding?
  {
    var c := s.conns[i];
    assert ConnKept(c) && !InCriticalSection(c);
    hide FlowKept;
  }

  /** The receiver reads all that has come. */
  lemma ReadsAll(t: Tables, s: State, i: nat, outward: bool) returns (steps: seq<Step>, r: State)
    requires AtRest(t, s, i)
    ensures var f := FlowOf(s.conns[i], outward);
      var g := f.(read := f.passed2);
      && AtRest(t, r, i)
      && Carried(t, s, i, steps, r, OutwardAfter(s.conns[i], outward, g), InwardAfter(s.conns[i], outward, g))
  {
    RestIsIdle(t, s, i, outward, true);
    var step := CanRead(t, s, i, outward);
    hide Kept, Apply, Ordered;
    steps := [step];
    OneStep(t, s, step);
    r := Apply(t, s, step).value;
  }

  lemma CanRead(t: Tables, s: State, i: nat, outward: bool) returns (step: Step)
    requires i < |s.conns| && FlowOf(s.conns[i], outward).read <= FlowOf(s.conns[i], outward).passed2
    ensures step.On? && step.conn == i && step.action.Read?
    ensures var c := s.conns[i];
      var f := FlowOf(c, outward);
      Apply(t, s, step) == Some(s.(conns := s.conns[i := WithFlow(c, outward, f.(read := f.passed2))]))
  {
    var f := FlowOf(s.conns[i], outward);
    step := On(i, Read(outward, |f.passed2| - |f.read|));
    assert |f.read| <= |f.passed2| && f.passed2[..|f.passed2|] == f.passed2;
  }

  /** From rest, everything one end has written is carried through both bridges and read at the other. */
  lemma CarriesAll(t: Tables, s: State, i: nat, outward: bool) returns (steps: seq<Step>, r: State)
    requires AtRest(t, s, i)
    ensures AtRest(t, r, i) && |r.conns| == |s.conns| && Transport(i, steps) && RunFrom(t, s, steps) == Some(r)
    ensures FlowOf(r.conns[i], outward).read == FlowOf(r.conns[i], outward).sent == FlowOf(s.conns[i], outward).sent
    ensures FlowOf(r.conns[i], !outward) == FlowOf(s.conns[i], !outward)
  {
    assert i < |s.conns|;
    hide AtRest, Apply, Transport, RunFrom, Drained;
    var one, u := BridgeDrains(t, s, i, outward, outward);
    var two, v := BridgeDrains(t, u, i, outward, !outward);
    var three, last := ReadsAll(t, v, i, outward);
    BothDrained(FlowOf(s.conns[i], outward), outward);
    TransportJoins(t, s, i, one, u, two, v);
    TransportJoins(t, s, i, one + two, v, three, last);
    steps, r := one + two + three, last;
  }

  /** Both bridges drained, in the order of the direction, leave all that was sent to be read. */
  lemma BothDrained(f: Flow, outward: bool)
    ensures var g := Drained(Drained(f, outward), !outward);
      outward ==> g.passed2 == g.sent == f.sent
    ensures var g := Drained(Drained(f, true), false);
      !outward ==> g.passed2 == g.sent == f.sent
  {
  }

  /** Delivery: whatever has happened, as long as a connection is admitted, both its bridges are open and no
      thread is counting, transport steps alone bring all bytes that were written in a direction to its reader. */
  lemma Delivers(t: Tables, before: seq<Step>, i: nat, outward: bool) returns (more: seq<Step>)
    requires Run(t, before).Some? && i < |Run(t, before).value.conns| && Run(t, before).value.lock.None?
    requires var c := Run(t, before).value.conns[i];
      c.admitted && c.inner != InnerClosed && c.outer != Closed
    ensures Transport(i, more) && Run(t, before + more).Some? && i < |Run(t, before + more).value.conns|
    ensures var f := FlowOf(Run(t, before + more).value.conns[i], outward);
      f.read == f.sent == FlowOf(Run(t, before).value.conns[i], outward).sent
  {
    hide Run, AtRest, Kept, Apply;
    RunKeeps(t, before);
    var s := Run(t, before).value;
    var one, u := ComesToRest(t, s, i);
    var two, r := CarriesAll(t, u, i, outward);
    more := one + two;
    RunsFurther(t, s, one, two);
    RunsOn(t, before, more);
  }

  /** One more step after some. */
  lemma StepsOn(t: Tables, s: State, steps: seq<Step>, u: State, step: Step)
    requires Kept(t, u) && RunFrom(t, s, steps) == Some(u)
    ensures RunFrom(t, s, steps + [step]) == Apply(t, u, step)
    ensures Apply(t, u, step).Some? ==> Kept(t, Apply(t, u, step).value)
  {
    hide Apply, Kept;
    OneStep(t, u, step);
    RunsFurther(t, s, steps, [step]);
  }

  /** A connection to a declared port can be opened and connected. */
  lemma Connects(t: Tables, port: nat) returns (steps: seq<Step>, r: State)
    requires port in t.arenaMap && t.arenaMap[port] in t.listeners
    ensures RunFrom(t, INITIAL, steps) == Some(r) && Kept(t, r)
    ensures var endpoint := t.listeners[t.arenaMap[port]];
      r == State([Conn(port, endpoint, NO_FLOW, NO_FLOW, InnerReady, Connected, 0, 0, false)], None, 0, 0)
  {
    InitialKept(t);
    hide Kept;
    OneStep(t, INITIAL, Open(port));
    var s := Apply(t, INITIAL, Open(port)).value;
    StepsOn(t, INITIAL, [Open(port)], s, On(0, OuterConnect));
    steps := [Open(port)] + [On(0, OuterConnect)];
    r := Apply(t, s, On(0, OuterConnect)).value;
    hide RunFrom;
  }

  /** A connected one can be counted in while the lock is free. */
  lemma CountsIn(t: Tables, s: State, i: nat) returns (steps: seq<Step>, r: State)
    requires Kept(t, s) && i < |s.conns| && s.lock.None? && s.conns[i].outer == Connected
    ensures RunFrom(t, s, steps) == Some(r) && Kept(t, r) && r.lock.None? && r.connections == s.connections + 1
    ensures |r.conns| == |s.conns| && r.conns[i] == s.conns[i].(outer := Ready, admitted := true)
  {
    hide Kept, RunFrom;
    OneStep(t, s, On(i, Acquire));
    var s1 := Apply(t, s, On(i, Acquire)).value;
    StepsOn(t, s, [On(i, Acquire)], s1, On(i, Load));
    steps := [On(i, Acquire)] + [On(i, Load)];
    var s2 := Apply(t, s1, On(i, Load)).value;
    StepsOn(t, s, steps, s2, On(i, Store));
    steps := steps + [On(i, Store)];
    var s3 := Apply(t, s2, On(i, Store)).value;
    StepsOn(t, s, steps, s3, On(i, Release));
    steps := steps + [On(i, Release)];
    r := Apply(t, s3, On(i, Release)).value;
  }

  /** So it can be admitted, and is then at rest. */
  lemma Admits(t: Tables, port: nat) returns (steps: seq<Step>, r: State)
    requires port in t.arenaMap && t.arenaMap[port] in t.listeners
    ensures RunFrom(t, INITIAL, steps) == Some(r) && AtRest(t, r, 0) && |r.conns| == 1
    ensures r.conns[0].port == port && r.conns[0].outward == r.conns[0].inward == NO_FLOW && r.connections == 1
  {
    hide Kept, RunFrom;
    var opening, s := Connects(t, port);
    var counting, u := CountsIn(t, s, 0);
    RunsFurther(t, INITIAL, opening, counting);
    steps, r := opening + counting, u;
  }

  /** So a request and its answer of any length get through a declared port, from the first step of a run. */
  lemma Exchange(t: Tables, port: nat, request: seq<Byte>, answer: seq<Byte>) returns (steps: seq<Step>, r: State)
    requires port in t.arenaMap && t.arenaMap[port] in t.listeners
    ensures Run(t, steps) == Some(r) && |r.conns| == 1
    ensures r.conns[0].outward.read == request && r.conns[0].inward.read == answer
  {
    hide Apply, AtRest;
    var opening, s := Admits(t, port);
    var asked, u := Writes(t, s, true, request);
    var carried, v := CarriesAll(t, u, 0, true);
    var answered, x := Writes(t, v, false, answer);
    var returned, last := CarriesAll(t, x, 0, false);
    r := last;
    RunsFurther(t, INITIAL, opening, asked);
    RunsFurther(t, INITIAL, opening + asked, carried);
    RunsFurther(t, INITIAL, opening + asked + carried, answered);
    RunsFurther(t, INITIAL, opening + asked + carried + answered, returned);
    steps := opening + asked + carried + answered + returned;
    RunsOn(t, [], steps);
    assert [] + steps == steps;
  }

  lemma Writes(t: Tables, s: State, outward: bool, data: seq<Byte>) returns (steps: seq<Step>, r: State)
    requires AtRest(t, s, 0)
    ensures AtRest(t, r, 0) && |r.conns| == |s.conns| && RunFrom(t, s, steps) == Some(r)
    ensures FlowOf(r.conns[0], outward).sent == FlowOf(s.conns[0], outward).sent + data
    ensures FlowOf(r.conns[0], !outward) == FlowOf(s.conns[0], !outward)
  {
    hide Kept;
    var step := On(0, Write(outward, data));
    steps := [step];
    OneStep(t, s, step);
    r := Apply(t, s, step).value;
  }
}
