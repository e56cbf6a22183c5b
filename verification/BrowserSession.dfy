/**
  The browser session coordinator as a state machine over calls, frames, timers and the
  continuations of frame deliveries.

  A promise is a number; `unsettled` holds those not yet resolved or rejected, and `repeated`
  would record a second settlement.  `lost` holds promises that are unsettled but that no
  attempt and no turn refers to any more.  A command's timer runs exactly as long as its
  entry in `pending`; a turn has a timer of its own once it is acknowledged.

  Identifiers, schema checks, lease clocks and the port's failures are outcomes of the events.
 */
module BrowserSession {
  import opened Results
  import opened Utf16

  datatype SessionPhase = Disconnected | Connecting | Discovering | Ready | Disconnecting | Closed
  datatype TurnPhase = Starting | Streaming | Cancelling

  datatype Kind = Connect | Capabilities | DisconnectIt | StatusRead | ActivityNote | TurnStart | TurnCancel

  /** A command awaiting its answer; the turn is named for turn commands. */
  datatype Operation = Operation(kind: Kind, session: Text, turn: Text)

  datatype Connection = Connection(promise: nat, session: Text)
  datatype Attempt = Attempt(promise: nat, request: Text, session: Text)
  datatype CancelAttempt = CancelAttempt(promise: nat, previous: TurnPhase, timedOut: bool, request: Text)

  datatype Turn = Turn(
    id: Text, session: Text, startRequest: Text, started: nat, completion: nat, cancel: Option<CancelAttempt>,
    acknowledged: bool, phase: TurnPhase, timer: bool, cancellable: bool)

  /** A status report: its revision, and everything else it says. */
  datatype Agent = Agent(revision: nat, detail: Text)

  datatype Snapshot = Snapshot(generation: nat, session: Text, revision: Text, fingerprint: Text)

  /** A snapshot as installed, in the how-many-th session of the coordinator. */
  datatype Installed = Installed(snapshot: Snapshot, epoch: nat)

  /** A frame being delivered: its handler has run, or waits for the turn's consumer. */
  datatype Delivery = Handled(threw: bool) | InSink(completion: nat)

  datatype State = State(
    pending: map<Text, Operation>, connection: Option<Connection>, disconnect: Option<Attempt>,
    status: Option<Attempt>, activity: Option<Attempt>, turn: Option<Turn>, agent: Option<Agent>,
    closed: bool, lease: Option<nat>, nextLease: nat, session: Option<Text>, phase: SessionPhase,
    snapshot: Option<Snapshot>, nextGeneration: nat, revisions: map<Text, Text>, receiving: map<nat, Delivery>,
    unsettled: set<nat>, repeated: bool, lost: set<nat>, nextPromise: nat, installed: seq<Installed>, epoch: nat)

  datatype Limits = Limits(maxPending: nat, maxRevisions: nat)

  /** An identifier drawn, if the source yields one, and whether the port throws on the command. */
  datatype Sending = Sending(request: Option<Text>, throws: bool)

  datatype TurnRequest = TurnRequest(session: Text, generation: nat, revision: Text)

  datatype Frame =
    | SessionConnected(request: Text, session: Text, next: Sending)
    | SessionDisconnected(session: Text)
    | CapabilitiesResult(request: Text, session: Text, revision: Text, fingerprint: Text, next: Sending)
    | CapabilitiesChanged(session: Text, revision: Text, fingerprint: Text)
    | StatusResult(request: Text, session: Text, agent: Agent)
    | StatusChanged(session: Text, agent: Agent)
    | ActivityResult(request: Text, session: Text, agent: Agent, renews: bool)
    | TurnStarted(request: Text, session: Text, turn: Text)
    | TurnDelta(session: Text, turn: Text)
    | TurnCompleted(session: Text, turn: Text)
    | TurnEnded(session: Text, turn: Text)
    | RemoteError(request: Text)
    | Invalid

  datatype Event =
    | Attach
    | Detach(lease: nat)
    | Close
    | ConnectSession(session: Option<Text>, sending: Sending)
    | DisconnectSession(sending: Sending)
    | RefreshStatus(sending: Sending)
    | NoteActivity(stale: bool, sending: Sending)
    | StartTurn(wanted: TurnRequest, fits: bool, sending: Sending, turnId: Option<Text>, parses: bool,
                cancellable: bool)
    | CancelTurn(turn: Text, sending: Sending)
    | Deliver(lease: nat, frame: Frame)
    | SinkDone(lease: nat, ok: bool)
    | Delivered(lease: nat)
    | SendFails(lease: nat)
    | CommandTimeout(request: Text)
    | TurnTimeout(completion: nat, sending: Sending)

  function Begin(): State {
    State(map[], None, None, None, None, None, None, false, None, 1, None, Disconnected, None, 1, map[], map[],
          {}, false, {}, 0, [], 0)
  }

  // ----- promises -----

  function Settle(s: State, p: Option<nat>): State {
    if p.None? then s
    else s.(unsettled := s.unsettled - {p.value}, repeated := s.repeated || p.value !in s.unsettled)
  }

  /** A new promise, numbered `s.nextPromise`. */
  function Promise(s: State): State {
    s.(unsettled := s.unsettled + {s.nextPromise}, nextPromise := s.nextPromise + 1)
  }

  /** A promise no longer referred to. */
  function Lose(s: State, p: nat): State {
    s.(lost := s.lost + {p})
  }

  function ConnectionOf(c: Option<Connection>): Option<nat> {
    if c.Some? then Some(c.value.promise) else None
  }

  function PromiseOf(a: Option<Attempt>): Option<nat> {
    if a.Some? then Some(a.value.promise) else None
  }

  function StartedOf(t: Turn): Option<nat> {
    if t.acknowledged then None else Some(t.started)
  }

  function CancelOf(t: Turn): Option<nat> {
    if t.cancel.Some? then Some(t.cancel.value.promise) else None
  }

  // ----- endings -----

  /** `#settleActiveTurn`, for the active turn. */
  function EndTurn(s: State): State {
    if s.turn.None? then s
    else
      var t := s.turn.value;
      var requests := {t.startRequest} + if t.cancel.Some? then {t.cancel.value.request} else {};
      Settle(Settle(Settle(s.(turn := None, pending := s.pending - requests), CancelOf(t)), StartedOf(t)),
             Some(t.completion))
  }

  function AttemptsSettled(s: State): State {
    Settle(Settle(Settle(Settle(s, ConnectionOf(s.connection)), PromiseOf(s.status)), PromiseOf(s.activity)),
           PromiseOf(s.disconnect))
  }

  function AttemptsForgotten(s: State): State {
    s.(pending := map[], connection := None, status := None, activity := None, disconnect := None)
  }

  function Forgotten(s: State): State {
    s.(revisions := map[], agent := None, session := None, snapshot := None,
       phase := if s.closed then Closed else Disconnected)
  }

  /** `#resetSession`: whatever is waiting is settled and forgotten with the session. */
  function Reset(s: State): State {
    Forgotten(EndTurn(AttemptsForgotten(AttemptsSettled(s))))
  }

  function Teardown(s: State): State {
    Reset(s.(lease := None))
  }

  // ----- commands -----

  /** Whether an identifier is still pending, or is the one the active turn was started with. */
  predicate InUse(s: State, request: Text) {
    request in s.pending || (s.turn.Some? && s.turn.value.startRequest == request)
  }

  /** The identifier drawn for a command: what is in use is recent, and not drawn again. */
  function Drawn(s: State, sending: Sending): Option<Text> {
    if sending.request.Some? && InUse(s, sending.request.value) then None else sending.request
  }

  lemma DrawnIs(s: State, sending: Sending)
    ensures Drawn(s, sending).Some? ==> sending.request == Drawn(s, sending)
  {
  }

  /** What is drawn depends only on the commands and the turn's start command. */
  lemma DrawnLater(s: State, u: State, sending: Sending)
    requires s.pending == u.pending && s.turn.Some? && u.turn.Some?
    requires s.turn.value.startRequest == u.turn.value.startRequest
    ensures Drawn(s, sending) == Drawn(u, sending)
    ensures forall k, limits :: CanReserve(s, k, limits) == CanReserve(u, k, limits)
  {
  }

  predicate CanReserve(s: State, request: Text, limits: Limits) {
    request !in s.pending && |s.pending| < limits.maxPending
  }

  function Reserve(s: State, request: Text, op: Operation): State {
    s.(pending := s.pending[request := op])
  }

  /** `#send`: a port that throws ends the transport at once. */
  function Send(s: State, throws: bool): State {
    if throws then Teardown(s) else s
  }

  function ConnectOp(s: State, session: Option<Text>, sending: Sending, limits: Limits): State {
    if s.closed || s.lease.None? || s.phase != Disconnected || session.None? || Drawn(s, sending).None? then s
    else
      var begun := Promise(s).(connection := Some(Connection(s.nextPromise, session.value)), session := session,
                               phase := Connecting, epoch := s.epoch + 1);
      if !CanReserve(s, sending.request.value, limits) then Reset(begun)
      else Send(Reserve(begun, sending.request.value, Operation(Connect, session.value, [])), sending.throws)
  }

  function DisconnectOp(s: State, sending: Sending, limits: Limits): State {
    if || s.phase == Disconnected || s.closed || s.lease.None? || s.session.None? || s.disconnect.Some?
       || Drawn(s, sending).None?
    then s
    else
      var begun := Promise(s).(disconnect := Some(Attempt(s.nextPromise, sending.request.value, s.session.value)),
                               phase := Disconnecting);
      var left := Settle(begun, ConnectionOf(s.connection)).(connection := None);
      if !CanReserve(s, sending.request.value, limits) then Teardown(left)
      else Send(Reserve(left, sending.request.value, Operation(DisconnectIt, s.session.value, [])), sending.throws)
  }

  function RefreshOp(s: State, sending: Sending, limits: Limits): State {
    if || s.closed || s.lease.None? || s.phase != Ready || s.session.None? || s.status.Some? || Drawn(s, sending).None?
    then s
    else if !CanReserve(s, sending.request.value, limits) then Settle(Promise(s), Some(s.nextPromise))
    else
      var begun := Promise(s).(status := Some(Attempt(s.nextPromise, sending.request.value, s.session.value)));
      Send(Reserve(begun, sending.request.value, Operation(StatusRead, s.session.value, [])), sending.throws)
  }

  function NoteOp(s: State, stale: bool, sending: Sending, limits: Limits): State {
    if || s.closed || s.lease.None? || stale || s.agent.None? || s.phase != Ready || s.session.None? || s.activity.Some?
       || Drawn(s, sending).None?
    then s
    else if !CanReserve(s, sending.request.value, limits) then Settle(Promise(s), Some(s.nextPromise))
    else
      var begun := Promise(s).(activity := Some(Attempt(s.nextPromise, sending.request.value, s.session.value)));
      Send(Reserve(begun, sending.request.value, Operation(ActivityNote, s.session.value, [])), sending.throws)
  }

  /** Whether a turn is accepted as far as the session goes: the request names the current snapshot. */
  predicate Current(s: State, request: TurnRequest) {
    && !s.closed && s.lease.Some? && s.phase == Ready && s.snapshot.Some? && s.turn.None?
    && request.session == s.snapshot.value.session && request.generation == s.snapshot.value.generation
    && request.revision == s.snapshot.value.revision
  }

  function StartTurnOp(s: State, e: Event, limits: Limits): State
    requires e.StartTurn?
  {
    if !Current(s, e.wanted) || !e.fits || Drawn(s, e.sending).None? || e.turnId.None? || !e.parses then s
    else
      AskTurn(s, e.turnId.value, s.snapshot.value.session, e.sending.request.value, e.cancellable,
              e.sending.throws, limits)
  }

  /** The start of a turn, once its identifiers are drawn. */
  function AskTurn(s: State, id: Text, session: Text, request: Text, cancellable: bool, throws: bool,
                   limits: Limits): State {
    var turn := Turn(id, session, request, s.nextPromise, s.nextPromise + 1, None, false, Starting, false,
                     cancellable);
    var begun := Promise(Promise(s)).(turn := Some(turn));
    if !CanReserve(s, request, limits) then EndTurn(begun)
    else Send(Reserve(begun, request, Operation(TurnStart, session, id)), throws)
  }

  /** `#beginCancel`, for a turn without a cancellation under way. */
  function BeginCancel(s: State, timedOut: bool, request: Text, throws: bool, limits: Limits): State
    requires s.turn.Some?
  {
    var t := s.turn.value;
    if !CanReserve(s, request, limits) then Settle(Promise(s), Some(s.nextPromise))
    else
      var begun := Promise(s).(turn := Some(t.(cancel := Some(CancelAttempt(s.nextPromise, t.phase, timedOut, request)),
                                               phase := Cancelling)));
      Send(Reserve(begun, request, Operation(TurnCancel, t.session, t.id)), throws)
  }

  function CancelOp(s: State, turn: Text, sending: Sending, limits: Limits): State {
    if || s.turn.None? || s.turn.value.id != turn || s.turn.value.cancel.Some? || !s.turn.value.cancellable
       || Drawn(s, sending).None?
    then s
    else BeginCancel(s, false, sending.request.value, sending.throws, limits)
  }

  /** `#handleTurnTimeout`: the turn's timer has fired. */
  function TurnTimeoutOp(s: State, completion: nat, sending: Sending, limits: Limits): State {
    if s.turn.None? || s.turn.value.completion != completion || !s.turn.value.timer then s
    else
      var fired := s.(turn := Some(s.turn.value.(timer := false)));
      if || !s.turn.value.cancellable || s.turn.value.cancel.Some? || Drawn(s, sending).None?
         || !CanReserve(s, sending.request.value, limits)
      then Teardown(if s.turn.value.cancellable && s.turn.value.cancel.None? && Drawn(s, sending).Some?
                    then Settle(Promise(fired), Some(s.nextPromise)) else fired)
      else BeginCancel(fired, true, sending.request.value, sending.throws, limits)
  }

  // ----- frames -----

  /** What a frame handler leaves behind. */
  datatype Effect = Effect(state: State, threw: bool)

  function Violation(s: State): Effect {
    Effect(s, true)
  }

  function Fine(s: State): Effect {
    Effect(s, false)
  }

  predicate Expects(pending: map<Text, Operation>, request: Text, kind: Kind) {
    request in pending && pending[request].kind == kind
  }

  /** `#assertSessionIdentity`. */
  predicate Identified(s: State, expected: Text, actual: Text) {
    expected == actual && s.session == Some(actual)
  }

  function Answered(s: State, request: Text): State {
    s.(pending := s.pending - {request})
  }

  function ConnectedFrame(s: State, f: Frame, limits: Limits): Effect
    requires f.SessionConnected?
  {
    if !Expects(s.pending, f.request, Connect) || !Identified(s, s.pending[f.request].session, f.session)
      then Violation(s)
    else if s.phase != Connecting && s.phase != Disconnecting then Violation(s)
    else
      var answered := Answered(s, f.request);
      if s.phase == Disconnecting then Fine(answered)
      else if Drawn(answered, f.next).None? then Violation(answered)
      else
        var discovering := answered.(phase := Discovering);
        if !CanReserve(answered, f.next.request.value, limits) then Violation(discovering)
        else
          Fine(Send(Reserve(discovering, f.next.request.value, Operation(Capabilities, f.session, [])), f.next.throws))
  }

  /** `#installCapabilities`: a revision names one catalog per session, and a change makes a new snapshot. */
  function Install(s: State, revision: Text, fingerprint: Text, limits: Limits): Effect {
    if s.session.None? then Violation(s)
    else if revision in s.revisions && s.revisions[revision] != fingerprint then Violation(s)
    else if revision !in s.revisions && |s.revisions| >= limits.maxRevisions then Violation(s)
    else
      var known := s.(revisions := s.revisions[revision := fingerprint]);
      if s.snapshot.Some? && s.snapshot.value.revision == revision && revision in s.revisions then Fine(known)
      else
        var snapshot := Snapshot(s.nextGeneration, s.session.value, revision, fingerprint);
        Fine(known.(snapshot := Some(snapshot), nextGeneration := s.nextGeneration + 1,
                    installed := s.installed + [Installed(snapshot, s.epoch)]))
  }

  function CapabilitiesFrame(s: State, f: Frame, limits: Limits): Effect
    requires f.CapabilitiesResult?
  {
    if !Expects(s.pending, f.request, Capabilities) || !Identified(s, s.pending[f.request].session, f.session)
      then Violation(s)
    else if s.phase != Discovering && s.phase != Disconnecting then Violation(s)
    else
      var answered := Answered(s, f.request);
      if s.phase == Disconnecting then Fine(answered)
      else
        var installed := Install(answered, f.revision, f.fingerprint, limits);
        if installed.threw then installed
        else
          var ready := installed.state.(phase := Ready);
          if s.connection.None? || s.connection.value.session != f.session then Violation(ready)
          else
            Fine(RefreshOp(Settle(ready.(connection := None), Some(s.connection.value.promise)), f.next, limits))
  }

  function ChangedFrame(s: State, f: Frame, limits: Limits): Effect
    requires f.CapabilitiesChanged?
  {
    if s.session != Some(f.session) then Violation(s)
    else if s.phase == Disconnecting then Fine(s)
    else if s.phase != Ready then Violation(s)
    else Install(s, f.revision, f.fingerprint, limits)
  }

  /** `#installAgentStatus` refuses an older revision, and the same one with another content. */
  predicate Refuses(current: Option<Agent>, next: Agent) {
    current.Some? && (next.revision < current.value.revision ||
                      (next.revision == current.value.revision && next != current.value))
  }

  /** The attempt is dropped before the status is looked at: refused, its promise is lost. */
  function StatusFrame(s: State, f: Frame): Effect
    requires f.StatusResult?
  {
    if || !Expects(s.pending, f.request, StatusRead) || !Identified(s, s.pending[f.request].session, f.session)
       || s.status.None? || s.status.value.request != f.request || s.status.value.session != f.session
    then Violation(s)
    else
      var answered := Answered(s, f.request).(status := None);
      if Refuses(s.agent, f.agent) then Violation(Lose(answered, s.status.value.promise))
      else Fine(Settle(answered.(agent := Some(f.agent)), Some(s.status.value.promise)))
  }

  function ActivityFrame(s: State, f: Frame): Effect
    requires f.ActivityResult?
  {
    if || !Expects(s.pending, f.request, ActivityNote) || !Identified(s, s.pending[f.request].session, f.session)
       || s.activity.None? || s.activity.value.request != f.request || s.activity.value.session != f.session
       || !f.renews
    then Violation(s)
    else
      var answered := Answered(s, f.request).(activity := None);
      if Refuses(s.agent, f.agent) then Violation(Lose(answered, s.activity.value.promise))
      else Fine(Settle(answered.(agent := Some(f.agent)), Some(s.activity.value.promise)))
  }

  function StatusChangedFrame(s: State, f: Frame): Effect
    requires f.StatusChanged?
  {
    if s.session != Some(f.session) || s.phase == Disconnected then Violation(s)
    else if s.phase == Disconnecting then Fine(s)
    else if Refuses(s.agent, f.agent) then Violation(s)
    else Fine(s.(agent := Some(f.agent)))
  }

  predicate Names(s: State, session: Text, turn: Text) {
    s.turn.Some? && s.turn.value.session == session && s.turn.value.id == turn
  }

  function StartedFrame(s: State, f: Frame): Effect
    requires f.TurnStarted?
  {
    if || !Names(s, f.session, f.turn) || !Expects(s.pending, f.request, TurnStart)
       || s.pending[f.request].session != f.session || s.pending[f.request].turn != f.turn
       || s.turn.value.phase == Streaming
    then Violation(s)
    else
      var t := s.turn.value;
      var phase := if t.phase == Cancelling then Cancelling else Streaming;
      Fine(Settle(Answered(s, f.request), Some(t.started)).(turn := Some(t.(acknowledged := true, phase := phase,
                                                                            timer := true))))
  }

  /** A remote error answers its command; one for a timed-out turn's cancellation drops the attempt first. */
  function ErrorFrame(s: State, request: Text): Effect {
    if request !in s.pending then Violation(s)
    else
      var op, answered := s.pending[request], Answered(s, request);
      match op.kind
      case StatusRead =>
        if s.status.None? || s.status.value.request != request then Violation(answered)
        else Fine(Settle(answered.(status := None, agent := None), Some(s.status.value.promise)))
      case ActivityNote =>
        if s.activity.None? || s.activity.value.request != request then Violation(answered)
        else Fine(Settle(answered.(activity := None, agent := None), Some(s.activity.value.promise)))
      case TurnStart =>
        if Names(s, op.session, op.turn) then Fine(EndTurn(answered)) else Violation(answered)
      case TurnCancel =>
        if !Names(s, op.session, op.turn) || s.turn.value.cancel.None? || s.turn.value.cancel.value.request != request
        then Violation(answered)
        else
          var t, attempt := s.turn.value, s.turn.value.cancel.value;
          if attempt.timedOut
          then Fine(Teardown(Lose(answered, attempt.promise).(turn := Some(t.(cancel := None)))))
          else Fine(Settle(answered.(turn := Some(t.(cancel := None, phase := attempt.previous))),
                           Some(attempt.promise)))
      case _ => Fine(Teardown(answered))
  }

  function Handle(s: State, f: Frame, limits: Limits): Effect {
    match f
    case SessionConnected(_, _, _) => ConnectedFrame(s, f, limits)
    case SessionDisconnected(session) =>
      if s.session != Some(session) || s.phase == Disconnected then Violation(s) else Fine(Reset(s))
    case CapabilitiesResult(_, _, _, _, _) => CapabilitiesFrame(s, f, limits)
    case CapabilitiesChanged(_, _, _) => ChangedFrame(s, f, limits)
    case StatusResult(_, _, _) => StatusFrame(s, f)
    case StatusChanged(_, _) => StatusChangedFrame(s, f)
    case ActivityResult(_, _, _, _) => ActivityFrame(s, f)
    case TurnStarted(_, _, _) => StartedFrame(s, f)
    case TurnDelta(session, turn) =>
      if Names(s, session, turn) && s.turn.value.acknowledged then Fine(s) else Violation(s)
    case TurnCompleted(session, turn) =>
      if Names(s, session, turn) && s.turn.value.acknowledged then Fine(EndTurn(s)) else Violation(s)
    case TurnEnded(session, turn) => if Names(s, session, turn) then Fine(EndTurn(s)) else Violation(s)
    case RemoteError(request) => ErrorFrame(s, request)
    case Invalid => Violation(s)
  }

  /** `receive` up to its first await. */
  function DeliverOp(s: State, lease: nat, f: Frame, limits: Limits): State {
    if s.lease != Some(lease) then s
    else if lease in s.receiving then Teardown(s)
    else
      var o := Handle(s, f, limits);
      var delivery := if f.TurnDelta? && !o.threw && s.turn.Some? then InSink(s.turn.value.completion)
        else Handled(o.threw);
      o.state.(receiving := o.state.receiving[lease := delivery])
  }

  /** The consumer of a delta has returned or failed. */
  function SinkOp(s: State, lease: nat, ok: bool): State {
    if lease !in s.receiving || !s.receiving[lease].InSink? then s
    else
      var mine := s.turn.Some? && s.turn.value.completion == s.receiving[lease].completion;
      var after := if !ok && s.lease == Some(lease) && mine then Teardown(s) else s;
      after.(receiving := after.receiving[lease := Handled(!ok)])
  }

  /** The rest of `receive`: a handler that threw ends the transport, if it is still the same. */
  function DeliveredOp(s: State, lease: nat): State {
    if lease !in s.receiving || !s.receiving[lease].Handled? then s
    else
      var after := if s.receiving[lease].threw && s.lease == Some(lease) then Teardown(s) else s;
      after.(receiving := after.receiving - {lease})
  }

  function Step(s: State, e: Event, limits: Limits): State {
    match e
    case Attach =>
      if s.closed || s.lease.Some? then s else s.(lease := Some(s.nextLease), nextLease := s.nextLease + 1)
    case Detach(lease) => if s.lease == Some(lease) then Teardown(s) else s
    case Close => if s.closed then s else Teardown(s.(closed := true))
    case ConnectSession(session, sending) => ConnectOp(s, session, sending, limits)
    case DisconnectSession(sending) => DisconnectOp(s, sending, limits)
    case RefreshStatus(sending) => RefreshOp(s, sending, limits)
    case NoteActivity(stale, sending) => NoteOp(s, stale, sending, limits)
    case StartTurn(_, _, _, _, _, _) => StartTurnOp(s, e, limits)
    case CancelTurn(turn, sending) => CancelOp(s, turn, sending, limits)
    case Deliver(lease, frame) => DeliverOp(s, lease, frame, limits)
    case SinkDone(lease, ok) => SinkOp(s, lease, ok)
    case Delivered(lease) => DeliveredOp(s, lease)
    case SendFails(lease) => if s.lease == Some(lease) then Teardown(s) else s
    case CommandTimeout(request) => if request in s.pending then Teardown(s) else s
    case TurnTimeout(completion, sending) => TurnTimeoutOp(s, completion, sending, limits)
  }

  function Run(s: State, events: seq<Event>, limits: Limits): State
    decreases |events|
  {
    if events == [] then s else Run(Step(s, events[0], limits), events[1..], limits)
  }
}
