/** The arena session: host loop, request lines, worker, reader thread and message queue, as steps.
    Every interleaving is a sequence of events. */
module Arena {
  import opened JsonValues

  /** What the worker prints, one JSON line each; `Gone` is what the reader queues at end of file. */
  datatype Message = Ready | NotReady | Result(payload: Json) | ProtocolError | Gone

  datatype StopReason = ActionBudget | SessionTimeout | AgentFinished

  datatype Host =
    | Starting                    // `start` waits for the ready message
    | Deciding                    // head of the action loop
    | Waiting(command: string)    // a request line is written, its response awaited
    | Stopped(reason: StopReason)
    | Failed                      // an exception ends the run without a report

  datatype ArenaStep = ArenaStep(sequence: nat, command: string, result: Message)

  /** `patient` clients go on after a response timed out; `run_arena` does not. */
  datatype Setup = Setup(maxActions: nat, patient: bool)

  datatype State = State(
    host: Host,
    sequence: nat,               // loop variable
    steps: seq<ArenaStep>,
    timeouts: nat,
    sent: seq<string>,           // every command written so far
    stdin: seq<string>,          // written, not yet read by the worker
    busy: Option<string>,        // the command the worker executes
    announced: bool,             // the worker has printed its first line
    alive: bool,
    answers: seq<Message>,       // every response the worker printed, in order
    pipe: seq<Message>,          // printed, not yet seen by the reader thread
    queue: seq<Message>)         // seen by the reader, not yet received by the host

  datatype Event =
    | Announce(ready: bool)
    | TakeLine
    | Answer(message: Message)
    | WorkerExits
    | ReaderMoves
    | HostStarts
    | DeadlinePasses
    | AgentIsDone
    | AgentRaises
    | HostSends(command: string)
    | HostReceives
    | ResponseTimesOut

  const INITIAL := State(Starting, 1, [], 0, [], [], None, false, true, [], [], [])

  /** After an action the loop continues or its range is exhausted. */
  function NextAction(setup: Setup, s: State): (r: State)
    ensures r == s.(host := r.host, sequence := r.sequence)
  {
    if s.sequence >= setup.maxActions then s.(host := Stopped(ActionBudget))
    else s.(host := Deciding, sequence := s.sequence + 1)
  }

  /** `None` when the event is not enabled. */
  function Apply(setup: Setup, s: State, e: Event): Option<State> {
    match e
    case Announce(ready) =>
      if s.alive && !s.announced then
        Some(s.(announced := true, pipe := s.pipe + [if ready then Ready else NotReady])) else None
    case TakeLine =>
      if s.alive && s.announced && s.busy.None? && s.stdin != [] then
        Some(s.(busy := Some(s.stdin[0]), stdin := s.stdin[1..])) else None
    case Answer(m) =>
      if s.alive && s.busy.Some? && (m.Result? || m.ProtocolError?) then
        Some(s.(busy := None, answers := s.answers + [m], pipe := s.pipe + [m])) else None
    case WorkerExits => if s.alive then Some(s.(alive := false, pipe := s.pipe + [Gone])) else None
    case ReaderMoves =>
      if s.pipe != [] then Some(s.(queue := s.queue + [s.pipe[0]], pipe := s.pipe[1..])) else None
    case HostStarts =>
      if s.host != Starting || s.queue == [] then None
      else Some(s.(queue := s.queue[1..], host := if s.queue[0] == Ready then Deciding else Failed))
    case DeadlinePasses => if s.host == Deciding then Some(s.(host := Stopped(SessionTimeout))) else None
    case AgentIsDone => if s.host == Deciding then Some(s.(host := Stopped(AgentFinished))) else None
    case AgentRaises => if s.host == Deciding then Some(s.(host := Failed)) else None
    case HostSends(command) =>
      if s.host == Deciding then
        Some(s.(host := Waiting(command), sent := s.sent + [command], stdin := s.stdin + [command])) else None
    case HostReceives =>
      if !s.host.Waiting? || s.queue == [] then None
      else
        var got := s.(queue := s.queue[1..]);
        if s.queue[0].Result? then
          Some(NextAction(setup, got.(steps := s.steps + [ArenaStep(s.sequence, s.host.command, s.queue[0])])))
        else Some(got.(host := Failed))
    case ResponseTimesOut =>
      if !s.host.Waiting? then None
      else if setup.patient then Some(NextAction(setup, s.(timeouts := s.timeouts + 1)))
      else Some(s.(host := Failed))
  }

  function Run(setup: Setup, events: seq<Event>): Option<State> {
    if events == [] then Some(INITIAL)
    else match Run(setup, events[..|events| - 1])
      case None => None
      case Some(s) => Apply(setup, s, events[|events| - 1])
  }

  // ----- the invariant -----

  /** Everything printed and not yet received, oldest first. */
  function InTransit(s: State): seq<Message> {
    s.queue + s.pipe
  }

  function Ending(s: State): seq<Message> {
    if s.alive then [] else [Gone]
  }

  /** Every command written is answered, being executed, or still unread, in that order. */
  predicate RequestsInOrder(s: State) {
    && |s.answers| <= |s.sent|
    && s.sent[|s.answers|..] == (if s.busy.Some? then [s.busy.value] else []) + s.stdin
  }

  /** What is in transit is the announcement, if still expected, and the unreceived answers. */
  predicate ResponsesInOrder(s: State) {
    if s.host == Starting then
      && s.sent == [] && s.steps == [] && s.answers == []
      && (if s.announced then
            InTransit(s) == [Ready] + Ending(s) || InTransit(s) == [NotReady] + Ending(s)
          else InTransit(s) == Ending(s))
    else s.host != Failed ==>
      && |s.steps| <= |s.answers|
      && InTransit(s) == s.answers[|s.steps|..] + Ending(s)
  }

  /** Loop counter, requests, results and timeouts. */
  predicate Numbered(setup: Setup, s: State) {
    && (s.host == Starting || s.host == Deciding ==>
          |s.sent| == s.sequence - 1 == |s.steps| + s.timeouts && s.sequence <= setup.maxActions)
    && (s.host.Waiting? ==>
          |s.sent| == s.sequence == |s.steps| + s.timeouts + 1 && s.sequence <= setup.maxActions
          && s.sent[s.sequence - 1] == s.host.command)
    && (s.host.Stopped? ==>
          |s.sent| == |s.steps| + s.timeouts <= setup.maxActions
          && (s.host.reason == ActionBudget <==> |s.sent| == setup.maxActions))
    && (s.host == Failed ==>
          |s.steps| + s.timeouts <= |s.sent| <= |s.steps| + s.timeouts + 1 && |s.sent| <= setup.maxActions)
    && (!setup.patient ==> s.timeouts == 0)
  }

  /** The j-th stored result is the worker's j-th answer, and its step names a command actually sent. */
  predicate Recorded(s: State) {
    forall j :: 0 <= j < |s.steps| ==> RecordedAt(s, j)
  }

  predicate RecordedAt(s: State, j: nat)
    requires j < |s.steps|
  {
    && j < |s.answers| && s.steps[j].result == s.answers[j]
    && j < s.steps[j].sequence <= |s.sent| && s.steps[j].command == s.sent[s.steps[j].sequence - 1]
    && s.steps[j].sequence <= j + 1 + s.timeouts
  }

  predicate Kept(setup: Setup, s: State) {
    RequestsInOrder(s) && ResponsesInOrder(s) && Numbered(setup, s) && Recorded(s)
    && (s.host != Starting && s.host != Failed ==> s.announced)
  }

  lemma RequestsKept(setup: Setup, s: State, e: Event)
    requires RequestsInOrder(s) && Apply(setup, s, e).Some?
    ensures RequestsInOrder(Apply(setup, s, e).value)
  {
    hide NextAction;
    var r := Apply(setup, s, e).value;
    if e.TakeLine? {
      assert s.stdin == [s.stdin[0]] + s.stdin[1..];
    } else if e.Answer? {
      AnswerKeepsOrder(s);
    } else if e.HostSends? {
      assert r.sent[|s.answers|..] == s.sent[|s.answers|..] + [e.command];
    } else {
      hide RequestsInOrder;
      RequestsUntouched(setup, s, e);
      SameRequests(s, r);
    }
  }

  lemma SameRequests(s: State, r: State)
    requires RequestsInOrder(s)
    requires r.sent == s.sent && r.answers == s.answers && r.busy == s.busy && r.stdin == s.stdin
    ensures RequestsInOrder(r)
  {
  }

  lemma RequestsUntouched(setup: Setup, s: State, e: Event)
    requires Apply(setup, s, e).Some? && !e.TakeLine? && !e.Answer? && !e.HostSends?
    ensures var r := Apply(setup, s, e).value;
      r.sent == s.sent && r.answers == s.answers && r.busy == s.busy && r.stdin == s.stdin
  {
    hide NextAction;
  }

  lemma AnswerKeepsOrder(s: State)
    requires RequestsInOrder(s) && s.busy.Some?
    ensures |s.answers| < |s.sent| && s.sent[|s.answers| + 1..] == s.stdin
  {
    assert s.sent[|s.answers|..] == [s.busy.value] + s.stdin;
    assert s.sent[|s.answers| + 1..] == s.sent[|s.answers|..][1..];
  }

  lemma TransitAfter(s: State, r: State, m: Message)
    requires r.queue == s.queue && r.pipe == s.pipe + [m]
    ensures InTransit(r) == InTransit(s) + [m]
  {
  }

  lemma AnswerKeepsResponses(setup: Setup, s: State, m: Message)
    requires RequestsInOrder(s) && ResponsesInOrder(s) && Apply(setup, s, Answer(m)).Some?
    ensures ResponsesInOrder(Apply(setup, s, Answer(m)).value)
  {
    hide NextAction, InTransit;
    var r := Apply(setup, s, Answer(m)).value;
    TransitAfter(s, r, m);
    AnswerKeepsOrder(s);
    if s.host != Starting && s.host != Failed {
      assert r.answers[|s.steps|..] == s.answers[|s.steps|..] + [m];
    }
  }

  lemma PrintKeepsResponses(setup: Setup, s: State, e: Event)
    requires ResponsesInOrder(s) && Apply(setup, s, e).Some? && (e.Announce? || e.WorkerExits?)
    requires s.host != Starting && s.host != Failed ==> s.announced
    ensures ResponsesInOrder(Apply(setup, s, e).value)
  {
    hide NextAction, InTransit;
    var r := Apply(setup, s, e).value;
    TransitAfter(s, r, r.pipe[|s.pipe|]);
  }

  /** Worker and reader steps. */
  lemma ResponsesKeptByWorker(setup: Setup, s: State, e: Event)
    requires RequestsInOrder(s) && ResponsesInOrder(s) && Apply(setup, s, e).Some?
    requires s.host != Starting && s.host != Failed ==> s.announced
    requires e.Announce? || e.TakeLine? || e.Answer? || e.WorkerExits? || e.ReaderMoves?
    ensures ResponsesInOrder(Apply(setup, s, e).value)
  {
    hide NextAction, RequestsInOrder;
    if e.Answer? {
      AnswerKeepsResponses(setup, s, e.message);
    } else if e.Announce? || e.WorkerExits? {
      PrintKeepsResponses(setup, s, e);
    } else if e.ReaderMoves? {
      assert s.pipe == [s.pipe[0]] + s.pipe[1..];
      assert InTransit(Apply(setup, s, e).value) == InTransit(s);
    }
  }

  lemma ReceivedIsNext(s: State)
    requires ResponsesInOrder(s) && s.host.Waiting? && s.queue != [] && s.queue[0].Result?
    ensures |s.steps| < |s.answers| && s.queue[0] == s.answers[|s.steps|]
    ensures s.queue[1..] + s.pipe == s.answers[|s.steps| + 1..] + Ending(s)
  {
    assert InTransit(s)[0] == s.queue[0] && InTransit(s)[1..] == s.queue[1..] + s.pipe;
    var rest := s.answers[|s.steps|..];
    assert rest != [] by {
      assert rest == [] ==> InTransit(s) == Ending(s);
    }
    assert (rest + Ending(s))[1..] == rest[1..] + Ending(s);
    assert rest[1..] == s.answers[|s.steps| + 1..];
  }

  /** Host steps. */
  lemma ResponsesKeptByHost(setup: Setup, s: State, e: Event)
    requires ResponsesInOrder(s) && Apply(setup, s, e).Some?
    requires !(e.Announce? || e.TakeLine? || e.Answer? || e.WorkerExits? || e.ReaderMoves?)
    ensures ResponsesInOrder(Apply(setup, s, e).value)
  {
    var r := Apply(setup, s, e).value;
    if e.HostReceives? && s.queue[0].Result? {
      ReceivedIsNext(s);
    } else if e.HostStarts? && s.queue[0] == Ready {
      assert InTransit(s)[0] == Ready;
      assert InTransit(s)[1..] == s.queue[1..] + s.pipe == InTransit(r);
      assert s.announced;
      assert ([Ready] + Ending(s))[1..] == Ending(s);
    }
  }

  lemma CountsKept(setup: Setup, s: State, e: Event)
    requires Kept(setup, s) && Apply(setup, s, e).Some?
    ensures Numbered(setup, Apply(setup, s, e).value)
  {
    hide RequestsInOrder, ResponsesInOrder, Recorded;
  }

  lemma RecordKept(setup: Setup, s: State, e: Event)
    requires Kept(setup, s) && Apply(setup, s, e).Some?
    ensures Recorded(Apply(setup, s, e).value)
  {
    hide RequestsInOrder, NextAction;
    var r := Apply(setup, s, e).value;
    if e.HostReceives? && s.queue[0].Result? {
      ReceivedIsNext(s);
      assert r.steps == s.steps + [ArenaStep(s.sequence, s.host.command, s.queue[0])];
    } else {
      assert r.steps == s.steps;
    }
    hide ResponsesInOrder, Numbered, InTransit, Ending;
    forall j | 0 <= j < |r.steps| ensures RecordedAt(r, j) {
      if j < |s.steps| {
        assert RecordedAt(s, j) && r.steps[j] == s.steps[j];
      }
    }
  }

  lemma EventKeeps(setup: Setup, s: State, e: Event)
    requires Kept(setup, s) && Apply(setup, s, e).Some?
    ensures Kept(setup, Apply(setup, s, e).value)
  {
    hide Apply, RequestsInOrder, ResponsesInOrder, Numbered, Recorded;
    RequestsKept(setup, s, e);
    CountsKept(setup, s, e);
    RecordKept(setup, s, e);
    AnnouncementStays(setup, s, e);
    if e.Announce? || e.TakeLine? || e.Answer? || e.WorkerExits? || e.ReaderMoves? {
      ResponsesKeptByWorker(setup, s, e);
    } else {
      ResponsesKeptByHost(setup, s, e);
    }
  }

  /** The host leaves its first state only after the worker announced itself. */
  lemma AnnouncementStays(setup: Setup, s: State, e: Event)
    requires ResponsesInOrder(s) && Apply(setup, s, e).Some?
    requires s.host != Starting && s.host != Failed ==> s.announced
    ensures var r := Apply(setup, s, e).value;
      r.host != Starting && r.host != Failed ==> r.announced
  {
    if e.HostStarts? {
      assert InTransit(s)[0] == s.queue[0];
    }
  }

  lemma {:induction false} RunKeeps(setup: Setup, events: seq<Event>)
    requires setup.maxActions >= 1
    ensures Run(setup, events).Some? ==> Kept(setup, Run(setup, events).value)
  {
    hide Kept, Apply;
    if events == [] {
      InitialKept(setup);
    } else {
      RunKeeps(setup, events[..|events| - 1]);
      if Run(setup, events).Some? {
        EventKeeps(setup, Run(setup, events[..|events| - 1]).value, events[|events| - 1]);
      }
    }
  }

  lemma InitialKept(setup: Setup)
    requires setup.maxActions >= 1
    ensures Kept(setup, INITIAL)
  {
  }

  // ----- main results -----

  /** Step `k` is numbered k + 1 and pairs the k-th command with the worker's answer to it. */
  predicate AlignedAt(s: State, k: nat)
    requires k < |s.steps|
  {
    k < |s.sent| && k < |s.answers| && s.steps[k] == ArenaStep(k + 1, s.sent[k], s.answers[k])
  }

  /** In every run of the arena: at most one request is outstanding; the k-th step is numbered k + 1,
      holds the k-th command and the worker's answer to it; there are at most `maxActions` steps, and a
      run that stops reports the action budget if and only if it used it up. */
  lemma SessionAligned(setup: Setup, events: seq<Event>)
    requires setup.maxActions >= 1 && !setup.patient && Run(setup, events).Some?
    ensures var s := Run(setup, events).value;
      && |s.steps| <= |s.sent| <= |s.steps| + 1
      && |s.steps| <= setup.maxActions
      && (forall k :: 0 <= k < |s.steps| ==> AlignedAt(s, k))
      && (s.host.Stopped? ==> (s.host.reason == ActionBudget <==> |s.steps| == setup.maxActions))
  {
    hide Run, RequestsInOrder, ResponsesInOrder;
    RunKeeps(setup, events);
    var s := Run(setup, events).value;
    forall k | 0 <= k < |s.steps| ensures AlignedAt(s, k) {
      assert RecordedAt(s, k);
    }
  }

  /** Responses that a run waited for in vain. */
  function TimedOut(events: seq<Event>): nat {
    if events == [] then 0
    else TimedOut(events[..|events| - 1]) + if events[|events| - 1].ResponseTimesOut? then 1 else 0
  }

  lemma {:induction false} TimeoutsCounted(setup: Setup, events: seq<Event>)
    requires Run(setup, events).Some? && Run(setup, events).value.host != Failed
    ensures Run(setup, events).value.timeouts == TimedOut(events)
  {
    if events != [] {
      TimeoutsCounted(setup, events[..|events| - 1]);
    }
  }

  /** The event at which the j-th response was received. */
  ghost predicate ReceivedAt(setup: Setup, events: seq<Event>, n: nat, j: nat) {
    && n < |events| && events[n] == HostReceives
    && Run(setup, events[..n]).Some? && Run(setup, events[..n]).value.host.Waiting?
    && |Run(setup, events[..n]).value.steps| == j
  }

  lemma {:induction false} FindReceived(setup: Setup, events: seq<Event>, j: nat) returns (n: nat)
    requires Run(setup, events).Some? && j < |Run(setup, events).value.steps|
    ensures ReceivedAt(setup, events, n, j)
    ensures Run(setup, events).value.steps[j].sequence == Run(setup, events[..n]).value.sequence
  {
    var before := events[..|events| - 1];
    var s := Run(setup, before).value;
    StepsGrow(setup, s, events[|events| - 1]);
    hide Apply;
    if j < |s.steps| {
      n := FindReceived(setup, before, j);
      assert before[..n] == events[..n];
    } else {
      n := |before|;
    }
  }

  lemma StepsGrow(setup: Setup, s: State, e: Event)
    requires Apply(setup, s, e).Some?
    ensures var r := Apply(setup, s, e).value;
      if e.HostReceives? && |r.steps| > |s.steps| then
        s.host.Waiting? && |r.steps| == |s.steps| + 1 && r.steps[..|s.steps|] == s.steps
        && r.steps[|s.steps|].sequence == s.sequence
      else r.steps == s.steps
  {
  }

  /** For any client of the session the j-th response received answers the j-th command sent; the command
      it is stored under was sent as many places later as requests had timed out until then.  So a step
      holds the answer to its own command exactly when no earlier request timed out. */
  lemma ResponsesArriveInOrder(setup: Setup, events: seq<Event>, j: nat) returns (n: nat)
    requires setup.maxActions >= 1 && Run(setup, events).Some? && j < |Run(setup, events).value.steps|
    ensures RecordedAt(Run(setup, events).value, j)
    ensures ReceivedAt(setup, events, n, j)
    ensures Run(setup, events).value.steps[j].sequence == j + 1 + TimedOut(events[..n])
  {
    hide Run, RequestsInOrder, ResponsesInOrder, RecordedAt, TimedOut;
    RunKeeps(setup, events);
    n := FindReceived(setup, events, j);
    RunKeeps(setup, events[..n]);
    TimeoutsCounted(setup, events[..n]);
  }

  /** A run is any chain of enabled events. */
  lemma {:induction false} ChainRuns(setup: Setup, events: seq<Event>, states: seq<State>, n: nat)
    requires n <= |events| && |states| == |events| + 1 && states[0] == INITIAL
    requires forall i :: 0 <= i < |events| ==> Apply(setup, states[i], events[i]) == Some(states[i + 1])
    ensures Run(setup, events[..n]) == Some(states[n])
  {
    hide Apply;
    if n > 0 {
      ChainRuns(setup, events, states, n - 1);
      assert events[..n][..n - 1] == events[..n - 1];
    }
  }

  function LateEvents(m: Message): seq<Event> {
    [Announce(true), ReaderMoves, HostStarts, HostSends("first"), ResponseTimesOut, HostSends("second"),
     TakeLine, Answer(m), ReaderMoves, HostReceives]
  }

  function LateStates(m: Message): seq<State> {
    var s1 := INITIAL.(announced := true, pipe := [Ready]);
    var s2 := s1.(pipe := [], queue := [Ready]);
    var s3 := s2.(queue := [], host := Deciding);
    var s4 := s3.(host := Waiting("first"), sent := ["first"], stdin := ["first"]);
    var s5 := s4.(host := Deciding, sequence := 2, timeouts := 1);
    var s6 := s5.(host := Waiting("second"), sent := ["first", "second"], stdin := ["first", "second"]);
    var s7 := s6.(stdin := ["second"], busy := Some("first"));
    var s8 := s7.(busy := None, answers := [m], pipe := [m]);
    var s9 := s8.(pipe := [], queue := [m]);
    var s10 := s9.(queue := [], steps := [ArenaStep(2, "second", m)], host := Stopped(ActionBudget));
    [INITIAL, s1, s2, s3, s4, s5, s6, s7, s8, s9, s10]
  }

  lemma LateStepEarly(m: Message, i: nat)
    requires i < 5 && m.Result?
    ensures Apply(Setup(2, true), LateStates(m)[i], LateEvents(m)[i]) == Some(LateStates(m)[i + 1])
  {
    var s, r := LateStates(m)[i], LateStates(m)[i + 1];
    if i == 0 {
      assert s.pipe + [Ready] == r.pipe;
    } else if i == 1 {
      assert s.queue + [s.pipe[0]] == r.queue && s.pipe[1..] == r.pipe;
    } else if i == 2 {
      assert s.queue[1..] == r.queue;
    } else if i == 3 {
      assert s.sent + ["first"] == r.sent && s.stdin + ["first"] == r.stdin;
    }
  }

  lemma LateStepLate(m: Message, i: nat)
    requires 5 <= i < 10 && m.Result?
    ensures Apply(Setup(2, true), LateStates(m)[i], LateEvents(m)[i]) == Some(LateStates(m)[i + 1])
  {
    var s, r := LateStates(m)[i], LateStates(m)[i + 1];
    if i == 5 {
      assert s.sent + ["second"] == r.sent && s.stdin + ["second"] == r.stdin;
    } else if i == 6 {
      assert s.stdin[1..] == r.stdin;
    } else if i == 7 {
      assert s.answers + [m] == r.answers && s.pipe + [m] == r.pipe;
    } else if i == 8 {
      assert s.queue + [s.pipe[0]] == r.queue && s.pipe[1..] == r.pipe;
    } else {
      assert s.queue[1..] == r.queue && s.steps + [ArenaStep(2, "second", m)] == r.steps;
    }
  }

  /** A client that goes on after a timeout stores the answer to the first command under the second. */
  lemma PatientClientMisaligned(late: Json)
    ensures var r := Run(Setup(2, true), LateEvents(Result(late)));
      && r.Some? && r.value.steps == [ArenaStep(2, "second", Result(late))]
      && r.value.answers == [Result(late)] && r.value.sent == ["first", "second"]
  {
    var events, states := LateEvents(Result(late)), LateStates(Result(late));
    forall i | 0 <= i < |events|
      ensures Apply(Setup(2, true), states[i], events[i]) == Some(states[i + 1])
    {
      if i < 5 {
        LateStepEarly(Result(late), i);
      } else {
        LateStepLate(Result(late), i);
      }
    }
    hide Apply;
    ChainRuns(Setup(2, true), events, states, 10);
    assert events[..10] == events;
  }

  // ----- every session can be held -----

  lemma OneMore(setup: Setup, events: seq<Event>, s: State, e: Event)
    requires Run(setup, events) == Some(s)
    ensures Run(setup, events + [e]) == Apply(setup, s, e)
  {
    hide Apply;
    assert (events + [e])[..|events|] == events;
  }

  /** The host decides, and nothing is on its way. */
  predicate Quiet(s: State) {
    && s.host == Deciding && s.alive && s.announced && s.busy.None?
    && s.stdin == [] && s.pipe == [] && s.queue == []
  }

  function Recorded1(s: State, command: string, payload: Json): State {
    s.(sent := s.sent + [command], answers := s.answers + [Result(payload)],
       steps := s.steps + [ArenaStep(s.sequence, command, Result(payload))])
  }

  /** One action: request, execution, response. */
  lemma Round(setup: Setup, events: seq<Event>, s: State, command: string, payload: Json) returns (more: seq<Event>)
    requires Run(setup, events) == Some(s) && Quiet(s)
    ensures Run(setup, events + more) == Some(NextAction(setup, Recorded1(s, command, payload)))
  {
    var m := Result(payload);
    hide Run;
    OneMore(setup, events, s, HostSends(command));
    var s1 := s.(host := Waiting(command), sent := s.sent + [command], stdin := [command]);
    assert s.stdin + [command] == [command];
    var e1 := events + [HostSends(command)];
    OneMore(setup, e1, s1, TakeLine);
    var s2 := s1.(busy := Some(command), stdin := []);
    assert s1.stdin[1..] == [];
    var e2 := e1 + [TakeLine];
    OneMore(setup, e2, s2, Answer(m));
    var s3 := s2.(busy := None, answers := s.answers + [m], pipe := [m]);
    assert s2.pipe + [m] == [m];
    var e3 := e2 + [Answer(m)];
    OneMore(setup, e3, s3, ReaderMoves);
    var s4 := s3.(pipe := [], queue := [m]);
    assert s3.queue + [m] == [m] && s3.pipe[1..] == [];
    var e4 := e3 + [ReaderMoves];
    OneMore(setup, e4, s4, HostReceives);
    assert s4.queue[1..] == [];
    var r := Recorded1(s, command, payload).(host := Waiting(command));
    assert Apply(setup, s4, HostReceives) == Some(NextAction(setup, r));
    more := [HostSends(command), TakeLine, Answer(m), ReaderMoves, HostReceives];
    assert events + more == e4 + [HostReceives];
  }

  lemma Opening(setup: Setup) returns (events: seq<Event>)
    ensures Run(setup, events) == Some(INITIAL.(announced := true, host := Deciding))
  {
    assert Run(setup, []) == Some(INITIAL);
    hide Run;
    OneMore(setup, [], INITIAL, Announce(true));
    var s1 := INITIAL.(announced := true, pipe := [Ready]);
    assert [] + [Announce(true)] == [Announce(true)] && INITIAL.pipe + [Ready] == [Ready];
    OneMore(setup, [Announce(true)], s1, ReaderMoves);
    var s2 := s1.(pipe := [], queue := [Ready]);
    assert s1.pipe[1..] == [] && s1.queue + [Ready] == [Ready];
    OneMore(setup, [Announce(true)] + [ReaderMoves], s2, HostStarts);
    assert s2.queue[1..] == [];
    events := [Announce(true)] + [ReaderMoves] + [HostStarts];
  }

  /** Any commands with any answers, up to the action budget, can be held as a session: it records each with
      its answer, and stops by itself exactly when the budget is used up. */
  lemma {:induction false} SessionHeld(setup: Setup, commands: seq<string>, payloads: seq<Json>)
    returns (events: seq<Event>)
    requires |commands| == |payloads| <= setup.maxActions && setup.maxActions >= 1
    ensures Run(setup, events).Some?
    ensures var s := Run(setup, events).value;
      && |s.steps| == |commands| && s.timeouts == 0
      && (forall k :: 0 <= k < |commands| ==> s.steps[k] == ArenaStep(k + 1, commands[k], Result(payloads[k])))
      && if |commands| == setup.maxActions then s.host == Stopped(ActionBudget)
         else Quiet(s) && s.sequence == |commands| + 1
  {
    hide Apply;
    if commands == [] {
      events := Opening(setup);
    } else {
      var n := |commands| - 1;
      var before := SessionHeld(setup, commands[..n], payloads[..n]);
      var s := Run(setup, before).value;
      var more := Round(setup, before, s, commands[n], payloads[n]);
      events := before + more;
      var r := Run(setup, events).value;
      assert r.steps == s.steps + [ArenaStep(n + 1, commands[n], Result(payloads[n]))];
      forall k | 0 <= k < n ensures r.steps[k] == ArenaStep(k + 1, commands[k], Result(payloads[k])) {
        assert commands[..n][k] == commands[k] && payloads[..n][k] == payloads[k];
      }
    }
  }

  /** Before the budget is used up, a session can also end by its deadline or by its agent. */
  lemma SessionEnds(setup: Setup, commands: seq<string>, payloads: seq<Json>, reason: StopReason)
    returns (events: seq<Event>)
    requires |commands| == |payloads| < setup.maxActions && reason != ActionBudget
    ensures Run(setup, events).Some?
    ensures var s := Run(setup, events).value;
      && s.host == Stopped(reason) && |s.steps| == |commands|
      && (forall k :: 0 <= k < |commands| ==> s.steps[k] == ArenaStep(k + 1, commands[k], Result(payloads[k])))
  {
    var before := SessionHeld(setup, commands, payloads);
    hide Run;
    var last := if reason == SessionTimeout then DeadlinePasses else AgentIsDone;
    OneMore(setup, before, Run(setup, before).value, last);
    events := before + [last];
  }

  datatype Trouble = AgentRaised | NoAnswer | WorkerGone | BadAnswer

  /** A command is sent, and its answer awaited. */
  lemma Awaits(setup: Setup, events: seq<Event>, s: State, command: string)
    requires Run(setup, events) == Some(s) && Quiet(s)
    ensures Run(setup, events + [HostSends(command)])
         == Some(s.(host := Waiting(command), sent := s.sent + [command], stdin := [command]))
  {
    hide Run;
    OneMore(setup, events, s, HostSends(command));
    assert s.stdin + [command] == [command];
  }

  /** Whatever arrives that is no result ends the run. */
  lemma FailsOn(setup: Setup, events: seq<Event>, s: State)
    requires Run(setup, events) == Some(s) && s.host.Waiting? && s.queue == [] && |s.pipe| == 1 && !s.pipe[0].Result?
    ensures Run(setup, events + [ReaderMoves] + [HostReceives]) == Some(s.(host := Failed, pipe := []))
  {
    hide Run;
    OneMore(setup, events, s, ReaderMoves);
    var u := s.(queue := s.pipe, pipe := []);
    assert s.queue + [s.pipe[0]] == s.pipe && s.pipe[1..] == [];
    OneMore(setup, events + [ReaderMoves], u, HostReceives);
    assert u.queue[1..] == [];
  }

  /** What ends a session without a report, once its host decides: the agent raises, or the response does not come
      in time, or is none because the worker has gone or answers out of protocol. */
  lemma SessionFails(setup: Setup, commands: seq<string>, payloads: seq<Json>, why: Trouble)
    returns (events: seq<Event>)
    requires |commands| == |payloads| < setup.maxActions && (why == NoAnswer ==> !setup.patient)
    ensures Run(setup, events).Some?
    ensures var s := Run(setup, events).value;
      && s.host == Failed && |s.steps| == |commands|
      && (forall k :: 0 <= k < |commands| ==> s.steps[k] == ArenaStep(k + 1, commands[k], Result(payloads[k])))
  {
    var before := SessionHeld(setup, commands, payloads);
    hide Run;
    var s := Run(setup, before).value;
    if why == AgentRaised {
      OneMore(setup, before, s, AgentRaises);
      events := before + [AgentRaises];
    } else {
      Awaits(setup, before, s, "command");
      events := before + [HostSends("command")];
      s := s.(host := Waiting("command"), sent := s.sent + ["command"], stdin := ["command"]);
      events := FailsWaiting(setup, events, s, why);
    }
  }

  lemma FailsWaiting(setup: Setup, before: seq<Event>, s: State, why: Trouble) returns (events: seq<Event>)
    requires Run(setup, before) == Some(s) && s.host.Waiting? && |s.stdin| == 1 && s.busy.None? && s.alive
    requires s.announced && s.pipe == [] && s.queue == []
    requires why != AgentRaised && (why == NoAnswer ==> !setup.patient)
    ensures Run(setup, events).Some?
    ensures Run(setup, events).value.host == Failed && Run(setup, events).value.steps == s.steps
  {
    hide Run;
    match why
    case NoAnswer =>
      OneMore(setup, before, s, ResponseTimesOut);
      events := before + [ResponseTimesOut];
    case WorkerGone =>
      OneMore(setup, before, s, WorkerExits);
      assert s.pipe + [Gone] == [Gone];
      FailsOn(setup, before + [WorkerExits], s.(alive := false, pipe := [Gone]));
      events := before + [WorkerExits] + [ReaderMoves] + [HostReceives];
    case BadAnswer =>
      OneMore(setup, before, s, TakeLine);
      var u := Apply(setup, s, TakeLine).value;
      OneMore(setup, before + [TakeLine], u, Answer(ProtocolError));
      assert u.pipe + [ProtocolError] == [ProtocolError];
      FailsOn(setup, before + [TakeLine] + [Answer(ProtocolError)],
              u.(busy := None, answers := u.answers + [ProtocolError], pipe := [ProtocolError]));
      events := before + [TakeLine] + [Answer(ProtocolError)] + [ReaderMoves] + [HostReceives];
    case _ =>
  }

  /** A worker that says it is not ready, or goes before it says anything, ends the run before the first action. */
  lemma NeverStarts(setup: Setup, first: Event) returns (events: seq<Event>)
    requires first in {Announce(false), WorkerExits}
    ensures Run(setup, events).Some?
    ensures Run(setup, events).value.host == Failed && Run(setup, events).value.sent == []
  {
    assert Run(setup, []) == Some(INITIAL);
    hide Run;
    OneMore(setup, [], INITIAL, first);
    events := [] + [first];
    var s := Run(setup, events).value;
    OneMore(setup, events, s, ReaderMoves);
    events := events + [ReaderMoves];
    s := Run(setup, events).value;
    OneMore(setup, events, s, HostStarts);
    events := events + [HostStarts];
  }
}
