/**
  The extension's side of a browser session as a state machine: one page, one native
  connection, and what is asked of the page.

  `commands` records the operations asked of a page (a catalog read or the start of a turn),
  `sent` the frames given to the native host, `epoch` counts the sessions opened.  Whether a
  port accepts a message, what the browser finds, and what the activation lease and the
  catalog say of an agent turn are outcomes of the events.
 */
module TabSession {
  import opened Results
  import opened Utf16

  const MAX_PERMITS: nat := 64

  datatype Status = Idle | Connecting | Connected | Failing
  datatype Stage = AwaitTabs | AwaitInjection

  datatype Page = Page(generation: nat, ready: bool)
  datatype Native = Native(generation: nat, ready: bool)

  /** A turn given to the page; `permit` is the key of an agent turn's one-shot permit. */
  datatype PageTurn = PageTurn(
    id: Text, request: Text, session: Text, permit: Option<Text>, started: bool, cancel: Option<Text>)

  /** An operation asked of the page, in which session of which generation. */
  datatype Command = Command(
    generation: nat, epoch: nat, session: Text, request: Text, turn: Option<Text>, permit: Option<Text>)

  datatype Kind =
    | SessionOpened | SessionEnded | Refusal | TurnRefusal | Report | CatalogChange
    | ReadResult | ReadFailure | TurnBegun | TurnText | TurnDone | TurnStopped | TurnFailure | CancelFailure

  /** A frame for the native host; an answer of the page names the command it answers. */
  datatype Sent = Sent(kind: Kind, request: Text, session: Option<Text>, turn: Option<Text>, epoch: nat,
                       command: Option<int>)

  datatype State = State(
    status: Status, generation: nat, stages: map<nat, Stage>, page: Option<Page>, native: Option<Native>,
    session: Option<Text>, read: Option<Text>, turn: Option<PageTurn>, orphanReads: set<Text>,
    orphanTurns: map<Text, PageTurn>, permits: set<Text>, epoch: nat, commands: seq<Command>, sent: seq<Sent>)

  /** Whether the page's port, the native port, and the native port at the very end accept what they are given. */
  datatype Ports = Ports(page: bool, native: bool, farewell: bool)

  datatype PageEvent =
    | CatalogChanged
    | CatalogResult(request: Text)
    | Started(request: Text, turnId: Text)
    | Delta(turnId: Text)
    | Completed(turnId: Text)
    | CancelledIt(request: Text, turnId: Text)
    | CommandFailed(request: Text, about: Option<Text>)
    | DocumentChanged

  datatype Application =
    | SessionConnect(request: Text, session: Text)
    | SessionDisconnect(request: Text, session: Text)
    | CapabilitiesRead(request: Text, session: Text)
    | AgentReport(request: Text, session: Text, throws: bool)
    | AgentTurnStart(request: Text, session: Text, turnId: Text, leased: bool, listed: bool, permit: Text)
    | TurnStart(request: Text, session: Text, turnId: Text, fits: bool)
    | TurnCancel(request: Text, session: Text, turnId: Text)
    | ErrorFrame
    | Unsupported(request: Text)

  datatype Found = Nothing | Something | Trouble

  datatype Event =
    | Connect
    | TabsRead(generation: nat, found: Found)
    | Injected(generation: nat, found: Found)
    | Disconnect(ports: Ports)
    | PageReady(generation: nat, opens: bool, ports: Ports)
    | PageSays(generation: nat, event: PageEvent, ports: Ports)
    | PageTrouble(generation: nat, ports: Ports)
    | PageGone(generation: nat, ports: Ports)
    | NativeReady(generation: nat, ports: Ports)
    | NativeSays(generation: nat, frame: Application, ports: Ports)
    | NativeTrouble(generation: nat, ports: Ports)
    | NativeGone(generation: nat, ports: Ports)

  function Begin(): State {
    State(Idle, 0, map[], None, None, None, None, None, {}, map[], {}, 0, [], [])
  }

  // ----- ending and sending -----

  predicate NativeUp(s: State) {
    s.native.Some? && s.native.value.ready
  }

  predicate PageUp(s: State) {
    s.page.Some? && s.page.value.ready
  }

  /** `#terminate`: `told` says that it has a reason to give the native host. */
  function Terminate(s: State, told: bool, status: Status, ports: Ports): State {
    var farewell := if told && s.session.Some? && NativeUp(s) && ports.farewell
                    then [Sent(SessionEnded, [], s.session, None, s.epoch, None)] else [];
    s.(generation := s.generation + 1, native := None, page := None, session := None, read := None, turn := None,
       orphanReads := {}, orphanTurns := map[], permits := {}, status := status, sent := s.sent + farewell)
  }

  /** `#sendNative`, in a handler whose failure ends everything. */
  function Post(s: State, frame: Sent, ports: Ports): State {
    if NativeUp(s) && ports.native then s.(sent := s.sent + [frame]) else Terminate(s, true, Failing, ports)
  }

  /** `#sendPage`, for a command that begins an operation. */
  function Ask(s: State, command: Command, ports: Ports): State {
    if PageUp(s) && ports.page then s.(commands := s.commands + [command]) else Terminate(s, true, Failing, ports)
  }

  function Plain(s: State, kind: Kind, request: Text, turn: Option<Text>): Sent {
    Sent(kind, request, s.session, turn, s.epoch, None)
  }

  /** An answer to the last command. */
  function Answer(s: State, kind: Kind, request: Text, session: Option<Text>, turn: Option<Text>): Sent {
    Sent(kind, request, session, turn, s.epoch, Some(|s.commands| - 1))
  }

  // ----- frames of the native host -----

  /** What a frame leaves behind, and the reply to it. */
  datatype Handled = Handled(state: State, reply: Option<Sent>)

  predicate HasOrphans(s: State) {
    s.orphanReads != {} || s.orphanTurns != map[]
  }

  function Refuse(s: State, request: Text): Handled {
    Handled(s, Some(Plain(s, Refusal, request, None)))
  }

  function RefuseTurn(s: State, request: Text, turn: Text): Handled {
    Handled(s, Some(Plain(s, TurnRefusal, request, Some(turn))))
  }

  function Silent(s: State): Handled {
    Handled(s, None)
  }

  function DisconnectFrame(s: State, request: Text, session: Text): Handled {
    if s.session != Some(session) then Refuse(s, request)
    else
      Handled(
        s.(orphanReads := if s.read.Some? then s.orphanReads + {s.read.value} else s.orphanReads,
           orphanTurns := if s.turn.Some? then s.orphanTurns[s.turn.value.id := s.turn.value] else s.orphanTurns,
           session := None, read := None, turn := None),
        Some(Plain(s, SessionEnded, request, None)))
  }

  function ReadFrame(s: State, request: Text, session: Text, ports: Ports): Handled {
    if s.session != Some(session) then Refuse(s, request)
    else if s.read.Some? || s.turn.Some? || HasOrphans(s) then Refuse(s, request)
    else
      Silent(Ask(s.(read := Some(request)), Command(s.generation, s.epoch, session, request, None, None), ports))
  }

  function BeginTurn(s: State, request: Text, session: Text, turn: Text, permit: Option<Text>, ports: Ports): State {
    Ask(s.(turn := Some(PageTurn(turn, request, session, permit, false, None))),
        Command(s.generation, s.epoch, session, request, Some(turn), permit), ports)
  }

  function StartFrame(s: State, f: Application, ports: Ports): Handled
    requires f.TurnStart?
  {
    if s.session != Some(f.session) || s.turn.Some? || s.read.Some? || HasOrphans(s) || !f.fits
    then RefuseTurn(s, f.request, f.turnId)
    else Silent(BeginTurn(s, f.request, f.session, f.turnId, None, ports))
  }

  function AgentStartFrame(s: State, f: Application, ports: Ports): Handled
    requires f.AgentTurnStart?
  {
    if || s.session != Some(f.session) || s.turn.Some? || s.read.Some? || HasOrphans(s) || !f.leased || !f.listed
       || |s.permits| >= MAX_PERMITS || f.permit in s.permits
    then RefuseTurn(s, f.request, f.turnId)
    else
      Silent(BeginTurn(s.(permits := s.permits + {f.permit}), f.request, f.session, f.turnId, Some(f.permit), ports))
  }

  function CancelFrame(s: State, request: Text, session: Text, turn: Text, ports: Ports): Handled {
    if s.session != Some(session) || s.turn.None? || s.turn.value.id != turn || s.turn.value.cancel.Some?
    then RefuseTurn(s, request, turn)
    else
      var asked := s.(turn := Some(s.turn.value.(cancel := Some(request))));
      Silent(if PageUp(s) && ports.page then asked else Terminate(asked, true, Failing, ports))
  }

  /** `#handleApplication`. */
  function Apply(s: State, f: Application, ports: Ports): Handled {
    match f
    case SessionConnect(request, session) =>
      if s.session.Some? then Refuse(s, request)
      else
        var after := s.(session := Some(session), epoch := s.epoch + 1);
        Handled(after, Some(Plain(after, SessionOpened, request, None)))
    case SessionDisconnect(request, session) => DisconnectFrame(s, request, session)
    case CapabilitiesRead(request, session) => ReadFrame(s, request, session, ports)
    case AgentReport(request, session, throws) =>
      if s.session != Some(session) then Refuse(s, request)
      else if throws then Silent(Terminate(s, true, Failing, ports))
      else Handled(s, Some(Plain(s, Report, request, None)))
    case AgentTurnStart(_, _, _, _, _, _) => AgentStartFrame(s, f, ports)
    case TurnStart(_, _, _, _) => StartFrame(s, f, ports)
    case TurnCancel(request, session, turn) => CancelFrame(s, request, session, turn, ports)
    case ErrorFrame => Silent(Terminate(s, true, Failing, ports))
    case Unsupported(request) => Refuse(s, request)
  }

  function NativeOp(s: State, f: Application, ports: Ports): State {
    if !NativeUp(s) then Terminate(s, true, Failing, ports)
    else
      var h := Apply(s, f, ports);
      if h.reply.None? then h.state else Post(h.state, h.reply.value, ports)
  }

  // ----- events of the page -----

  /** Whether an event belongs to an orphan. */
  datatype Drained = NotMine | Rejected | Taken(state: State)

  function TurnOf(e: PageEvent): Option<Text> {
    match e
    case Started(_, turn) => Some(turn)
    case Delta(turn) => Some(turn)
    case Completed(turn) => Some(turn)
    case CancelledIt(_, turn) => Some(turn)
    case CommandFailed(_, about) => about
    case _ => None
  }

  function DrainTurn(s: State, e: PageEvent, id: Text): Drained
    requires TurnOf(e).Some? && id in s.orphanTurns
  {
    var turn := s.orphanTurns[id];
    var without := Taken(s.(orphanTurns := s.orphanTurns - {id}));
    match e
    case Started(request, _) =>
      if turn.started || request != turn.request then Rejected
      else Taken(s.(orphanTurns := s.orphanTurns[id := turn.(started := true)]))
    case Delta(_) => if !turn.started then Rejected else Taken(s)
    case Completed(_) => if !turn.started then Rejected else without
    case CancelledIt(request, _) => if turn.cancel != Some(request) then Rejected else without
    case CommandFailed(request, _) =>
      if request == turn.request then without
      else if turn.cancel == Some(request)
      then Taken(s.(orphanTurns := s.orphanTurns[id := turn.(cancel := None)]))
      else Rejected
  }

  predicate AboutRead(e: PageEvent) {
    e.CatalogResult? || (e.CommandFailed? && e.about.None?)
  }

  function Drain(s: State, e: PageEvent): Drained {
    if AboutRead(e) && e.request in s.orphanReads then Taken(s.(orphanReads := s.orphanReads - {e.request}))
    else if TurnOf(e).None? || TurnOf(e).value !in s.orphanTurns then NotMine
    else DrainTurn(s, e, TurnOf(e).value)
  }

  predicate Expected(s: State, turn: Text) {
    s.turn.Some? && s.turn.value.id == turn && s.session == Some(s.turn.value.session)
  }

  /** The answer of the page to the current turn. */
  function AnswerTurn(s: State, u: State, kind: Kind, request: Text, ports: Ports): State
    requires s.turn.Some?
  {
    Post(u, Answer(s, kind, request, Some(s.turn.value.session), Some(s.turn.value.id)), ports)
  }

  function FailedEvent(s: State, request: Text, about: Option<Text>, ports: Ports): State {
    var reject := Terminate(s, true, Failing, ports);
    if s.read == Some(request) && about.None?
    then Post(s.(read := None), Answer(s, ReadFailure, request, s.session, None), ports)
    else if about.None? || !Expected(s, about.value) then reject
    else if s.turn.value.cancel == Some(request)
    then AnswerTurn(s, s.(turn := Some(s.turn.value.(cancel := None))), CancelFailure, request, ports)
    else if request != s.turn.value.request then reject
    else AnswerTurn(s, s.(turn := None), TurnFailure, request, ports)
  }

  /** The event of a page in a session, no orphan being concerned. */
  function SessionEvent(s: State, e: PageEvent, ports: Ports): State
    requires s.session.Some?
  {
    var reject := Terminate(s, true, Failing, ports);
    match e
    case CatalogChanged =>
      if s.read.Some? || HasOrphans(s) then s else Post(s, Plain(s, CatalogChange, [], None), ports)
    case CatalogResult(request) =>
      if s.read != Some(request) then reject
      else Post(s.(read := None), Answer(s, ReadResult, request, s.session, None), ports)
    case Started(request, turn) =>
      if !Expected(s, turn) || s.turn.value.started || request != s.turn.value.request then reject
      else AnswerTurn(s, s.(turn := Some(s.turn.value.(started := true))), TurnBegun, request, ports)
    case Delta(turn) =>
      if !Expected(s, turn) || !s.turn.value.started then reject
      else AnswerTurn(s, s, TurnText, s.turn.value.request, ports)
    case Completed(turn) =>
      if !Expected(s, turn) || !s.turn.value.started then reject
      else AnswerTurn(s, s.(turn := None), TurnDone, s.turn.value.request, ports)
    case CancelledIt(request, turn) =>
      if !Expected(s, turn) || s.turn.value.cancel != Some(request) then reject
      else AnswerTurn(s, s.(turn := None), TurnStopped, request, ports)
    case CommandFailed(request, about) => FailedEvent(s, request, about, ports)
    case DocumentChanged => reject
  }

  /** `#handlePageEvent`. */
  function PageOp(s: State, e: PageEvent, ports: Ports): State {
    var reject := Terminate(s, true, Failing, ports);
    if !PageUp(s) || e.DocumentChanged? then reject
    else
      match Drain(s, e)
      case Rejected => reject
      case Taken(drained) => drained
      case NotMine =>
        if s.session.Some? then SessionEvent(s, e, ports) else if e.CatalogChanged? then s else reject
  }

  // ----- connecting -----

  function ConnectOp(s: State): State {
    if s.status != Idle && s.status != Failing then s
    else
      var clean := Terminate(s, false, Connecting, Ports(false, false, false));
      clean.(stages := clean.stages[clean.generation := AwaitTabs])
  }

  predicate Waiting(s: State, generation: nat, step: Stage) {
    generation in s.stages && s.stages[generation] == step
  }

  /** A continuation of `connect` that has been overtaken does nothing but end. */
  function ConnectStep(s: State, generation: nat, found: Found, next: Option<Stage>, page: Option<Page>): State {
    var over := s.(stages := s.stages - {generation});
    if generation != s.generation || s.status != Connecting then over
    else if !found.Something? then Terminate(over, false, Failing, Ports(false, false, false))
    else
      s.(stages := if next.Some? then s.stages[generation := next.value] else s.stages - {generation},
         page := if page.Some? then page else s.page)
  }

  predicate ForPage(s: State, generation: nat) {
    s.page.Some? && s.page.value.generation == generation
  }

  predicate ForNative(s: State, generation: nat) {
    s.native.Some? && s.native.value.generation == generation
  }

  function Step(s: State, e: Event): State {
    match e
    case Connect => ConnectOp(s)
    case TabsRead(generation, found) =>
      if Waiting(s, generation, AwaitTabs) then ConnectStep(s, generation, found, Some(AwaitInjection), None) else s
    case Injected(generation, found) =>
      if Waiting(s, generation, AwaitInjection)
      then ConnectStep(s, generation, found, None, Some(Page(generation, false))) else s
    case Disconnect(ports) => Terminate(s, true, Idle, ports)
    case PageReady(generation, opens, ports) =>
      if !ForPage(s, generation) then s
      else if s.page.value.ready then Terminate(s, true, Failing, ports)
      else
        var ready := s.(page := Some(Page(generation, true)));
        if s.native.Some? then ready
        else if opens then ready.(native := Some(Native(generation, false)))
        else Terminate(ready, true, Failing, ports)
    case PageSays(generation, event, ports) => if !ForPage(s, generation) then s else PageOp(s, event, ports)
    case PageTrouble(generation, ports) => if !ForPage(s, generation) then s else Terminate(s, true, Failing, ports)
    case PageGone(generation, ports) => if !ForPage(s, generation) then s else Terminate(s, true, Failing, ports)
    case NativeReady(generation, ports) =>
      if !ForNative(s, generation) then s
      else if s.native.value.ready then Terminate(s, true, Failing, ports)
      else s.(native := Some(Native(generation, true)), status := Connected)
    case NativeSays(generation, frame, ports) => if !ForNative(s, generation) then s else NativeOp(s, frame, ports)
    case NativeTrouble(generation, ports) => if !ForNative(s, generation) then s else Terminate(s, true, Failing, ports)
    case NativeGone(generation, ports) => if !ForNative(s, generation) then s else Terminate(s, true, Failing, ports)
  }

  function Run(s: State, events: seq<Event>): State
    decreases |events|
  {
    if events == [] then s else Run(Step(s, events[0]), events[1..])
  }
}
