/**
  The agent runtime as a state machine: every request is cut at its awaits, and any other
  request, disconnect, expiry or teardown may come in between.

  A workflow is one admitted initial request with its adapter and its server boundary; it is
  known here by a number.  Beside the runtime's own tables the state keeps two logs per
  workflow, the calls emitted and the continuations accepted.
 */
module AgentRuntime {
  import opened Results
  import opened Utf16
  import opened JsonValue
  import opened Canonicalizer
  import opened ToolSchema
  import opened CodexContract
  import opened ResponsesServer
  import Envelope

  datatype Env = Env(sha: Text -> Text, a: Arithmetic, maxWorkflows: nat)

  const CONTRACT_VERSION := Ascii("contractVersion")
  const VERSION := Ascii("codex-responses-v2-v1")

  /** The canonical text of an empty history. */
  const NO_HISTORY: Text := [LBRACKET, RBRACKET]

  /** A decoded request: its input items, projected fields and tools, and the checks left to oracles. */
  datatype Request = Request(
    items: seq<Json>, fields: Fields, toolsJson: Json, tools: seq<Tool>, profile: Profile,
    proceeds: bool, sameBinding: bool, current: bool)

  /** What an initial request fixes for its workflow. */
  datatype Setup = Setup(
    messages: seq<Message>, fields: Fields, toolsJson: Json, text: Text, initial: Initial, tools: seq<Tool>,
    profile: Profile, contract: Text)

  datatype AdapterPhase = Idle | Busy | Awaiting(call: Call) | Terminal

  datatype Flow = Flow(
    setup: Setup, adapter: AdapterPhase, closings: nat, emitted: set<Text>, eligible: set<Text>,
    calls: seq<Call>, inputs: seq<Continued>)

  datatype Entry = Entry(flow: nat, call: Call, fingerprint: Text, expiresAt: int)

  datatype Answer = Final | ToolCall(call: Call)

  datatype Stage = Yielding | InBrowser | Writing(answer: Answer)

  /** A request in flight: an initial one, or the continuation of a call. */
  datatype Task = Task(flow: nat, stage: Stage, disconnected: bool, continues: Option<Call>, fingerprint: Text)

  datatype State = State(
    pending: map<Text, Entry>, tasks: map<nat, Task>, inFlight: int, active: set<nat>, closed: bool,
    flows: map<nat, Flow>, next: nat)

  datatype Event =
    | Arrive(now: int, request: Request)
    | Yielded(task: nat, gone: bool)
    | Answered(task: nat, answer: Option<Answer>, gone: bool, identity: bool)
    | Written(task: nat, ok: bool, expiresAt: Option<int>)
    | Disconnect(task: nat)
    | Expire(now: int)
    | Shutdown

  function Start(): State {
    State(map[], map[], 0, {}, false, map[], 0)
  }

  // ----- requests -----

  datatype Kind = InitialKind | InvalidKind | ContinuationKind(callId: Text)

  /** `readContinuationLookup`: the last two items decide. */
  function KindOf(items: seq<Json>): Kind {
    if |items| < 2 then InitialKind
    else
      var call, output := items[|items| - 2], items[|items| - 1];
      var isCall, isOutput := IsText(call, TYPE, FUNCTION_CALL), IsText(output, TYPE, FUNCTION_CALL_OUTPUT);
      var callId := GetText(call, CALL_ID);
      if !isCall && !isOutput then InitialKind
      else if !isCall || !isOutput || callId.None? || !IsText(output, CALL_ID, callId.value) then InvalidKind
      else ContinuationKind(callId.value)
  }

  /** The digest of the tools under their contract version. */
  function ContractOf(toolsJson: Json, env: Env): Option<Text> {
    var text := CanonicalText(Obj([Member(CONTRACT_VERSION, Str(VERSION)), Member(TOOLS, toolsJson)]), env.a.prints);
    if text.Ok? then Some(env.sha(text.value)) else None
  }

  /** The canonical text of a projected request, if it is within the limit. */
  function ProjectedText(f: Fields, input: seq<Json>, toolsJson: Json, env: Env): Option<Text> {
    var text := CanonicalText(Body(f, input, toolsJson), env.a.prints);
    if text.Ok? && Envelope.Utf8Length(text.value) <= MAX_REQUEST_BYTES then Some(text.value) else None
  }

  /** Projection and admission of an initial request. */
  function AdmitSetup(r: Request, env: Env): Option<Setup> {
    var messages, contract := ProjectPrefix(r.items), ContractOf(r.toolsJson, env);
    if || !r.proceeds || messages.None? || contract.None?
       || !FitsIn(Arr(MessagesJson(messages.value)), MAX_INPUT_BYTES, env.a.prints)
    then None
    else
      var text := ProjectedText(r.fields, MessagesJson(messages.value), r.toolsJson, env);
      if text.None? then None
      else
        var initial := AdmitInitial(text.value, r.profile, env.a.prints);
        if initial.None? then None
        else Some(Setup(messages.value, r.fields, r.toolsJson, text.value, initial.value, r.tools, r.profile,
                        contract.value))
  }

  function Last(c: Continued): Exchange
    requires c.history != []
  {
    c.history[|c.history| - 1]
  }

  lemma ContinuedNonempty(items: seq<Json>, tools: seq<Tool>, expected: Text, env: Env)
    requires ProjectContinuation(items, tools, expected, env.sha, env.a).Ok?
    ensures ProjectContinuation(items, tools, expected, env.sha, env.a).value.history != []
  {
    hide HistoryText, ProjectHistory, ProjectPrefix, FitsIn, LeadingMessages, Envelope.Utf8Length;
    HistoryCount(items[LeadingMessages(items)..], tools, env.a);
  }

  /** Projection of a continuation against its pending entry. */
  function ProjectRequest(e: Entry, setup: Setup, r: Request, env: Env): (c: Option<Continued>)
    ensures c.Some? ==> c.value.history != []
  {
    if !r.sameBinding || ContractOf(r.toolsJson, env) != Some(setup.contract) then None
    else
      var projected := ProjectContinuation(r.items, r.tools, e.fingerprint, env.sha, env.a);
      if projected.Ok? then
        ContinuedNonempty(r.items, r.tools, e.fingerprint, env);
        Some(projected.value)
      else None
  }

  /** Whether the server boundary admits a projected continuation of the entry's call. */
  predicate Admits(flow: Flow, e: Entry, r: Request, c: Continued, env: Env)
    requires c.history != []
  {
    var text := ProjectedText(r.fields, ContinuationInput(c.messages, Last(c)), r.toolsJson, env);
    && text.Some? && r.current && e.call.callId in flow.eligible
    && AdmitContinuation(text.value, e.call, flow.setup.initial, flow.setup.profile, env.a.prints).Some?
  }

  // ----- steps -----

  /** `#closeAdapter` for each of some workflows: only a live adapter is closed. */
  function CloseAll(s: State, ws: set<nat>): State {
    s.(active := s.active - ws,
       flows := map w | w in s.flows ::
                  if w in ws && w in s.active then s.flows[w].(closings := s.flows[w].closings + 1, adapter := Terminal)
                  else s.flows[w])
  }

  function Expired(pending: map<Text, Entry>, now: int): set<Text> {
    set k | k in pending && pending[k].expiresAt <= now
  }

  function FlowsOf(pending: map<Text, Entry>, keys: set<Text>): set<nat> {
    set k | k in keys && k in pending :: pending[k].flow
  }

  function Prune(s: State, now: int): State {
    if s.closed then s
    else
      var keys := Expired(s.pending, now);
      CloseAll(s.(pending := s.pending - keys), FlowsOf(s.pending, keys))
  }

  /** The `finally` of a request whose adapter is not retained. */
  function End(s: State, t: nat): State
    requires t in s.tasks
  {
    CloseAll(s.(tasks := s.tasks - {t}, inFlight := s.inFlight - 1), {s.tasks[t].flow})
  }

  function Begin(s: State, r: Request, env: Env): State {
    var setup := AdmitSetup(r, env);
    if |s.pending| + s.inFlight >= env.maxWorkflows || setup.None? then s
    else
      s.(next := s.next + 1, inFlight := s.inFlight + 1, active := s.active + {s.next},
         flows := s.flows[s.next := Flow(setup.value, Idle, 0, {}, {}, [], [])],
         tasks := s.tasks[s.next := Task(s.next, Yielding, false, None, env.sha(NO_HISTORY))])
  }

  /** The entry is consumed before the continuation is looked at. */
  function Continue(s: State, callId: Text, r: Request, env: Env): State {
    if callId !in s.pending || s.pending[callId].flow !in s.flows then s
    else
      var e := s.pending[callId];
      var flow, taken := s.flows[e.flow], s.(pending := s.pending - {callId});
      var c := ProjectRequest(e, flow.setup, r, env);
      if c.None? then CloseAll(taken, {e.flow})
      else if ProjectedText(r.fields, ContinuationInput(c.value.messages, Last(c.value)), r.toolsJson, env).None?
      then CloseAll(taken, {e.flow})
      else
        var spent := flow.(eligible := flow.eligible - {e.call.callId});
        if !Admits(flow, e, r, c.value, env) then CloseAll(taken.(flows := s.flows[e.flow := spent]), {e.flow})
        else
          taken.(next := s.next + 1, inFlight := s.inFlight + 1,
                 flows := s.flows[e.flow := spent.(inputs := spent.inputs + [c.value])],
                 tasks := s.tasks[s.next := Task(e.flow, Yielding, false, Some(e.call), c.value.fingerprint)])
  }

  /** The adapter's turn begins, if it is in the phase the request expects. */
  function Enter(s: State, t: nat, gone: bool): State
    requires t in s.tasks && s.tasks[t].flow in s.flows
  {
    var task := s.tasks[t];
    var flow := s.flows[task.flow];
    var expected := if task.continues.None? then Idle else Awaiting(task.continues.value);
    if gone || task.disconnected || flow.adapter != expected then End(s, t)
    else
      s.(tasks := s.tasks[t := task.(stage := InBrowser)], flows := s.flows[task.flow := flow.(adapter := Busy)])
  }

  /** The coordinator's outcome: the adapter takes it, then the server makes a lifecycle of it, once per call. */
  function Receive(s: State, t: nat, answer: Option<Answer>, gone: bool, identity: bool): State
    requires t in s.tasks && s.tasks[t].flow in s.flows
  {
    var task := s.tasks[t];
    var flow := s.flows[task.flow];
    var after := if answer.Some? && answer.value.ToolCall? then Awaiting(answer.value.call) else Terminal;
    var taken := flow.(adapter := after);
    var heard := s.(flows := s.flows[task.flow := taken]);
    if answer.None? || gone || task.disconnected then End(heard, t)
    else if answer.value.Final? then
      if identity then heard.(tasks := s.tasks[t := task.(stage := Writing(Final))]) else End(heard, t)
    else
      var callId := answer.value.call.callId;
      if callId in flow.emitted || |flow.emitted| >= MAX_EMITTED_CALLS then End(heard, t)
      else
        var spent := taken.(emitted := flow.emitted + {callId});
        if !identity then End(s.(flows := s.flows[task.flow := spent]), t)
        else
          s.(tasks := s.tasks[t := task.(stage := Writing(answer.value))],
             flows := s.flows[task.flow := spent.(eligible := flow.eligible + {callId},
                                                  calls := flow.calls + [answer.value.call])])
  }

  /** The payload is out: the workflow waits for its continuation, or is over. */
  function Finish(s: State, t: nat, ok: bool, expiresAt: Option<int>): State
    requires t in s.tasks && s.tasks[t].stage.Writing?
  {
    var task := s.tasks[t];
    if !ok || task.stage.answer.Final? || expiresAt.None? then End(s, t)
    else
      var call := task.stage.answer.call;
      if s.closed || call.callId in s.pending then End(s, t)
      else
        s.(pending := s.pending[call.callId := Entry(task.flow, call, task.fingerprint, expiresAt.value)],
           tasks := s.tasks - {t}, inFlight := s.inFlight - 1)
  }

  predicate Running(s: State, t: nat) {
    t in s.tasks && s.tasks[t].flow in s.flows
  }

  function Step(s: State, e: Event, env: Env): State {
    match e
    case Arrive(now, r) =>
      if s.closed then s
      else
        var pruned := Prune(s, now);
        (match KindOf(r.items)
         case InvalidKind => pruned
         case InitialKind => Begin(pruned, r, env)
         case ContinuationKind(callId) => Continue(pruned, callId, r, env))
    case Yielded(t, gone) =>
      if Running(s, t) && s.tasks[t].stage.Yielding? then Enter(s, t, gone) else s
    case Answered(t, answer, gone, identity) =>
      if Running(s, t) && s.tasks[t].stage.InBrowser? then Receive(s, t, answer, gone, identity) else s
    case Written(t, ok, expiresAt) =>
      if Running(s, t) && s.tasks[t].stage.Writing? then Finish(s, t, ok, expiresAt) else s
    case Disconnect(t) =>
      if Running(s, t) then CloseAll(s.(tasks := s.tasks[t := s.tasks[t].(disconnected := true)]), {s.tasks[t].flow})
        else s
    case Expire(now) => Prune(s, now)
    case Shutdown =>
      if s.closed then s else CloseAll(s.(closed := true), s.active).(pending := map[])
  }

  function Run(s: State, events: seq<Event>, env: Env): State
    decreases |events|
  {
    if events == [] then s else Run(Step(s, events[0], env), events[1..], env)
  }
}
