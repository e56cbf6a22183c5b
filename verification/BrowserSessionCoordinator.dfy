/**
  The browser session coordinator as an object: its calls, the frame handlers, the timers and
  the continuations of a delivery, each proved to make the step of the state machine.
 */
module BrowserSessionCoordinator {
  import opened Results
  import opened Utf16
  import opened BrowserSession
  import opened BrowserSessionInvariant
  import opened BrowserSessionFrames

  /** What has become of the promises handed out, and the snapshots of every session so far. */
  datatype Ledger = Ledger(unsettled: set<nat>, repeated: bool, lost: set<nat>, installed: seq<Installed>, epoch: nat)

  class BrowserSessionCoordinator {
    const limits: Limits

    var pending: map<Text, Operation>
    var connectionAttempt: Option<Connection>
    var disconnectAttempt: Option<Attempt>
    var statusReadAttempt: Option<Attempt>
    var activityAttempt: Option<Attempt>
    var activeTurn: Option<Turn>
    var agentStatus: Option<Agent>
    var closed: bool
    var lease: Option<nat>
    var nextLease: nat
    var sessionId: Option<Text>
    var sessionPhase: SessionPhase
    var snapshot: Option<Snapshot>
    var nextSnapshotGeneration: nat
    var revisionFingerprints: map<Text, Text>
    var receivingLeases: map<nat, Delivery>

    var nextPromise: nat
    ghost var ledger: Ledger

    ghost function Now(): State
      reads this
    {
      State(pending, connectionAttempt, disconnectAttempt, statusReadAttempt, activityAttempt, activeTurn, agentStatus,
            closed, lease, nextLease, sessionId, sessionPhase, snapshot, nextSnapshotGeneration, revisionFingerprints,
            receivingLeases, ledger.unsettled, ledger.repeated, ledger.lost, nextPromise, ledger.installed,
              ledger.epoch)
    }

    ghost predicate Valid()
      reads this
    {
      1 <= limits.maxPending && Sound(Now(), limits)
    }

    constructor (limits: Limits)
      requires 1 <= limits.maxPending
      ensures Valid() && Now() == Begin() && this.limits == limits
    {
      this.limits := limits;
      pending := map[];
      connectionAttempt, disconnectAttempt, statusReadAttempt, activityAttempt := None, None, None, None;
      activeTurn, agentStatus, closed, lease, nextLease, sessionId := None, None, false, None, 1, None;
      sessionPhase, snapshot, nextSnapshotGeneration := Disconnected, None, 1;
      revisionFingerprints, receivingLeases, nextPromise := map[], map[], 0;
      ledger := Ledger({}, false, {}, [], 0);
      new;
      BeginSound(limits);
    }

    // ----- promises, the command table, and endings -----

    method CreateDeferred() returns (promise: nat)
      modifies this`nextPromise, this`ledger
      ensures promise == old(nextPromise) && Now() == Promise(old(Now()))
    {
      promise := nextPromise;
      ledger := ledger.(unsettled := ledger.unsettled + {promise});
      nextPromise := promise + 1;
    }

    /** A promise resolved or rejected, if there is one. */
    method SettleDeferred(promise: Option<nat>)
      modifies this`ledger
      ensures Now() == Settle(old(Now()), promise)
    {
      if promise.Some? {
        ledger := ledger.(unsettled := ledger.unsettled - {promise.value},
                          repeated := ledger.repeated || promise.value !in ledger.unsettled);
      }
    }

    method RemovePending(request: Text)
      modifies this`pending
      ensures Now() == Answered(old(Now()), request)
    {
      pending := pending - {request};
    }

    method ReservePending(request: Text, operation: Operation) returns (ok: bool)
      modifies this`pending
      ensures ok == CanReserve(old(Now()), request, limits)
      ensures Now() == if ok then Reserve(old(Now()), request, operation) else old(Now())
    {
      ok := request !in pending && |pending| < limits.maxPending;
      if ok {
        pending := pending[request := operation];
      }
    }

    method CreateIdentifier(sending: Sending) returns (request: Option<Text>)
      ensures request == Drawn(Now(), sending)
    {
      request := sending.request;
      if request.Some? && (request.value in pending ||
                           (activeTurn.Some? && activeTurn.value.startRequest == request.value)) {
        request := None;
      }
    }

    method SettleActiveTurn()
      modifies this`activeTurn, this`pending, this`ledger
      ensures Now() == EndTurn(old(Now()))
    {
      hide Settle;
      if activeTurn.None? {
        return;
      }
      var turn := activeTurn.value;
      activeTurn := None;
      pending := pending - ({turn.startRequest} + if turn.cancel.Some? then {turn.cancel.value.request} else {});
      SettleDeferred(CancelOf(turn));
      SettleDeferred(StartedOf(turn));
      SettleDeferred(Some(turn.completion));
    }

    method SettleAttempts()
      modifies this`ledger
      ensures Now() == AttemptsSettled(old(Now()))
    {
      hide Settle;
      SettleDeferred(ConnectionOf(connectionAttempt));
      SettleDeferred(PromiseOf(statusReadAttempt));
      SettleDeferred(PromiseOf(activityAttempt));
      SettleDeferred(PromiseOf(disconnectAttempt));
    }

    method ForgetAttempts()
      modifies this`pending, this`connectionAttempt, this`statusReadAttempt, this`activityAttempt,
        this`disconnectAttempt
      ensures Now() == AttemptsForgotten(old(Now()))
    {
      pending := map[];
      connectionAttempt, statusReadAttempt, activityAttempt, disconnectAttempt := None, None, None, None;
    }

    method ForgetSession()
      modifies this`revisionFingerprints, this`agentStatus, this`sessionId, this`snapshot, this`sessionPhase
      ensures Now() == Forgotten(old(Now()))
    {
      revisionFingerprints, agentStatus, sessionId, snapshot := map[], None, None, None;
      sessionPhase := if closed then Closed else Disconnected;
    }

    method ResetSession()
      modifies this
      ensures Now() == Reset(old(Now()))
    {
      hide AttemptsSettled, AttemptsForgotten, EndTurn, Forgotten;
      SettleAttempts();
      ForgetAttempts();
      SettleActiveTurn();
      ForgetSession();
    }

    method TeardownTransport()
      modifies this
      ensures Now() == Teardown(old(Now()))
    {
      hide Reset;
      lease := None;
      ResetSession();
    }

    /** A command handed to the port, which may throw. */
    method SendCommand(throws: bool)
      modifies this
      ensures Now() == Send(old(Now()), throws)
    {
      hide Teardown;
      if throws {
        TeardownTransport();
      }
    }

    // ----- the transport -----

    method AttachTransport()
      requires Valid()
      modifies this
      ensures Valid() && Now() == Step(old(Now()), Attach, limits)
    {
      hide Sound;
      StepSound(Now(), Attach, limits);
      if closed || lease.Some? {
        return;
      }
      lease := Some(nextLease);
      nextLease := nextLease + 1;
    }

    method DetachTransport(mine: nat)
      requires Valid()
      modifies this
      ensures Valid() && Now() == Step(old(Now()), Detach(mine), limits)
    {
      hide Sound, Teardown;
      StepSound(Now(), Detach(mine), limits);
      if lease == Some(mine) {
        TeardownTransport();
      }
    }

    method CloseCoordinator()
      requires Valid()
      modifies this
      ensures Valid() && Now() == Step(old(Now()), Close, limits)
    {
      hide Sound, Teardown;
      StepSound(Now(), Close, limits);
      if closed {
        return;
      }
      closed := true;
      TeardownTransport();
    }

    /** A sent command has failed after all. */
    method SendingFailed(mine: nat)
      requires Valid()
      modifies this
      ensures Valid() && Now() == Step(old(Now()), SendFails(mine), limits)
    {
      hide Sound, Teardown;
      StepSound(Now(), SendFails(mine), limits);
      if lease == Some(mine) {
        TeardownTransport();
      }
    }

    /** The timer of a command. */
    method CommandTimer(request: Text)
      requires Valid()
      modifies this
      ensures Valid() && Now() == Step(old(Now()), CommandTimeout(request), limits)
    {
      hide Sound, Teardown;
      StepSound(Now(), CommandTimeout(request), limits);
      if request in pending {
        TeardownTransport();
      }
    }

    // ----- the public calls -----

    method OpenSession(session: Option<Text>, sending: Sending)
      requires Valid()
      modifies this
      ensures Valid() && Now() == Step(old(Now()), ConnectSession(session, sending), limits)
    {
      hide Sound, ConnectOp;
      StepSound(Now(), ConnectSession(session, sending), limits);
      OpenSessionNow(session, sending);
    }

    method BeginConnecting(session: Text)
      modifies this`nextPromise, this`ledger, this`connectionAttempt, this`sessionId, this`sessionPhase
      ensures var s := old(Now());
              Now() == Promise(s).(connection := Some(Connection(s.nextPromise, session)), session := Some(session),
                                   phase := Connecting, epoch := s.epoch + 1)
    {
      var promise := CreateDeferred();
      connectionAttempt, sessionId, sessionPhase := Some(Connection(promise, session)), Some(session), Connecting;
      ledger := ledger.(epoch := ledger.epoch + 1);
    }

    method OpenSessionNow(session: Option<Text>, sending: Sending)
      modifies this
      ensures Now() == ConnectOp(old(Now()), session, sending, limits)
    {
      hide Drawn, Reset, Send;
      if closed || lease.None? || sessionPhase != Disconnected || session.None? {
        return;
      }
      var request := CreateIdentifier(sending);
      if request.None? {
        return;
      }
      DrawnIs(Now(), sending);
      BeginConnecting(session.value);
      var reserved := ReservePending(request.value, Operation(Connect, session.value, []));
      if reserved {
        SendCommand(sending.throws);
      } else {
        ResetSession();
      }
    }

    method CloseSession(sending: Sending)
      requires Valid()
      modifies this
      ensures Valid() && Now() == Step(old(Now()), DisconnectSession(sending), limits)
    {
      hide Sound, DisconnectOp;
      StepSound(Now(), DisconnectSession(sending), limits);
      CloseSessionNow(sending);
    }

    /** The attempt to disconnect; one to connect is over. */
    method BeginDisconnecting(request: Text, session: Text)
      modifies this`nextPromise, this`ledger, this`disconnectAttempt, this`connectionAttempt, this`sessionPhase
      ensures var s := old(Now());
              var begun := Promise(s).(disconnect := Some(Attempt(s.nextPromise, request, session)),
                                       phase := Disconnecting);
              Now() == Settle(begun, ConnectionOf(s.connection)).(connection := None)
    {
      hide Settle;
      var promise := CreateDeferred();
      disconnectAttempt, sessionPhase := Some(Attempt(promise, request, session)), Disconnecting;
      SettleDeferred(ConnectionOf(connectionAttempt));
      connectionAttempt := None;
    }

    method CloseSessionNow(sending: Sending)
      modifies this
      ensures Now() == DisconnectOp(old(Now()), sending, limits)
    {
      hide Drawn, Teardown, Send, Settle;
      if sessionPhase == Disconnected || closed || lease.None? || sessionId.None? || disconnectAttempt.Some? {
        return;
      }
      var request := CreateIdentifier(sending);
      if request.None? {
        return;
      }
      DrawnIs(Now(), sending);
      var session := sessionId.value;
      BeginDisconnecting(request.value, session);
      var reserved := ReservePending(request.value, Operation(DisconnectIt, session, []));
      if reserved {
        SendCommand(sending.throws);
      } else {
        TeardownTransport();
      }
    }

    /** The call itself, and the read that follows the discovery of the catalog. */
    method ReadAgentStatus(sending: Sending)
      modifies this
      ensures Now() == RefreshOp(old(Now()), sending, limits)
    {
      hide Drawn, Send;
      if closed || lease.None? || sessionPhase != Ready || sessionId.None? || statusReadAttempt.Some? {
        return;
      }
      var request := CreateIdentifier(sending);
      if request.None? {
        return;
      }
      DrawnIs(Now(), sending);
      var promise := CreateDeferred();
      statusReadAttempt := Some(Attempt(promise, request.value, sessionId.value));
      var reserved := ReservePending(request.value, Operation(StatusRead, sessionId.value, []));
      if reserved {
        SendCommand(sending.throws);
      } else {
        statusReadAttempt := None;
        SettleDeferred(Some(promise));
      }
    }

    method RefreshAgentStatus(sending: Sending)
      requires Valid()
      modifies this
      ensures Valid() && Now() == Step(old(Now()), RefreshStatus(sending), limits)
    {
      hide Sound, RefreshOp;
      StepSound(Now(), RefreshStatus(sending), limits);
      ReadAgentStatus(sending);
    }

    method NoteAgentActivity(stale: bool, sending: Sending)
      requires Valid()
      modifies this
      ensures Valid() && Now() == Step(old(Now()), NoteActivity(stale, sending), limits)
    {
      hide Sound, NoteOp;
      StepSound(Now(), NoteActivity(stale, sending), limits);
      NoteActivityNow(stale, sending);
    }

    method NoteActivityNow(stale: bool, sending: Sending)
      modifies this
      ensures Now() == NoteOp(old(Now()), stale, sending, limits)
    {
      hide Drawn, Send, Settle;
      if closed || lease.None? || agentStatus.None? || stale || sessionPhase != Ready || sessionId.None?
         || activityAttempt.Some? {
        return;
      }
      var request := CreateIdentifier(sending);
      if request.None? {
        return;
      }
      DrawnIs(Now(), sending);
      var promise := CreateDeferred();
      activityAttempt := Some(Attempt(promise, request.value, sessionId.value));
      var reserved := ReservePending(request.value, Operation(ActivityNote, sessionId.value, []));
      if reserved {
        SendCommand(sending.throws);
      } else {
        activityAttempt := None;
        SettleDeferred(Some(promise));
      }
    }

    /** `startTurn` and `startAgentTurn`: what else they ask for is `e.fits`. */
    method StartBrowserTurn(e: Event)
      requires Valid() && e.StartTurn?
      modifies this
      ensures Valid() && Now() == Step(old(Now()), e, limits)
    {
      hide Sound, StartTurnOp;
      StepSound(Now(), e, limits);
      StartTurnNow(e);
    }

    method BeginTurn(id: Text, session: Text, request: Text, cancellable: bool)
      modifies this`nextPromise, this`ledger, this`activeTurn
      ensures var s := old(Now());
              var turn := Turn(id, session, request, s.nextPromise, s.nextPromise + 1, None, false, Starting, false,
                               cancellable);
              Now() == Promise(Promise(s)).(turn := Some(turn))
    {
      var started := CreateDeferred();
      var completion := CreateDeferred();
      activeTurn := Some(Turn(id, session, request, started, completion, None, false, Starting, false, cancellable));
    }

    method StartTurnNow(e: Event)
      requires e.StartTurn?
      modifies this
      ensures Now() == StartTurnOp(old(Now()), e, limits)
    {
      hide Drawn, AskTurn;
      if closed || lease.None? || sessionPhase != Ready || snapshot.None? || activeTurn.Some? {
        return;
      }
      var current := snapshot.value;
      if e.wanted.session != current.session || e.wanted.generation != current.generation {
        return;
      }
      if e.wanted.revision != current.revision || !e.fits {
        return;
      }
      var request := CreateIdentifier(e.sending);
      if request.None? || e.turnId.None? || !e.parses {
        return;
      }
      DrawnIs(Now(), e.sending);
      RequestTurn(e.turnId.value, current.session, request.value, e.cancellable, e.sending.throws);
    }

    method RequestTurn(id: Text, session: Text, request: Text, cancellable: bool, throws: bool)
      modifies this
      ensures Now() == AskTurn(old(Now()), id, session, request, cancellable, throws, limits)
    {
      hide Send, EndTurn;
      BeginTurn(id, session, request, cancellable);
      var reserved := ReservePending(request, Operation(TurnStart, session, id));
      if reserved {
        SendCommand(throws);
      } else {
        SettleActiveTurn();
      }
    }

    /** The cancellation of the active turn; refused, it leaves the turn as it was. */
    method StartCancelling(timedOut: bool, request: Text, throws: bool) returns (ok: bool)
      requires activeTurn.Some?
      modifies this
      ensures ok == CanReserve(old(Now()), request, limits)
      ensures Now() == BeginCancel(old(Now()), timedOut, request, throws, limits)
    {
      hide Send;
      var turn := activeTurn.value;
      var promise := CreateDeferred();
      activeTurn := Some(turn.(cancel := Some(CancelAttempt(promise, turn.phase, timedOut, request)),
                               phase := Cancelling));
      ok := ReservePending(request, Operation(TurnCancel, turn.session, turn.id));
      if ok {
        SendCommand(throws);
      } else {
        activeTurn := Some(turn);
        SettleDeferred(Some(promise));
      }
    }

    method CancelBrowserTurn(turn: Text, sending: Sending)
      requires Valid()
      modifies this
      ensures Valid() && Now() == Step(old(Now()), CancelTurn(turn, sending), limits)
    {
      hide Sound, Drawn, BeginCancel;
      StepSound(Now(), CancelTurn(turn, sending), limits);
      if activeTurn.None? || activeTurn.value.id != turn || activeTurn.value.cancel.Some?
        || !activeTurn.value.cancellable {
        return;
      }
      var request := CreateIdentifier(sending);
      if request.None? {
        return;
      }
      DrawnIs(Now(), sending);
      var started := StartCancelling(false, request.value, sending.throws);
    }

    /** The timer of a turn: it cancels the turn, or ends the transport where it cannot. */
    method TurnTimer(completion: nat, sending: Sending)
      requires Valid()
      modifies this
      ensures Valid() && Now() == Step(old(Now()), TurnTimeout(completion, sending), limits)
    {
      hide Sound, Drawn, Teardown, Send, Settle, CanReserve;
      StepSound(Now(), TurnTimeout(completion, sending), limits);
      if activeTurn.None? || activeTurn.value.completion != completion || !activeTurn.value.timer {
        return;
      }
      ghost var before := Now();
      activeTurn := Some(activeTurn.value.(timer := false));
      DrawnLater(before, Now(), sending);
      if !activeTurn.value.cancellable || activeTurn.value.cancel.Some? {
        TeardownTransport();
        return;
      }
      var request := CreateIdentifier(sending);
      if request.None? {
        TeardownTransport();
        return;
      }
      DrawnIs(Now(), sending);
      var started := StartCancelling(true, request.value, sending.throws);
      if !started {
        TeardownTransport();
      }
    }

    // ----- frame handlers: each says whether it threw -----

    method HandleSessionConnected(f: Frame) returns (threw: bool)
      requires f.SessionConnected?
      modifies this
      ensures Effect(Now(), threw) == ConnectedFrame(old(Now()), f, limits)
    {
      hide Drawn, Send;
      threw := true;
      if f.request !in pending || pending[f.request].kind != Connect || pending[f.request].session != f.session
         || sessionId != Some(f.session) {
        return;
      }
      if sessionPhase != Connecting && sessionPhase != Disconnecting {
        return;
      }
      RemovePending(f.request);
      if sessionPhase == Disconnecting {
        return false;
      }
      var request := CreateIdentifier(f.next);
      if request.None? {
        return;
      }
      DrawnIs(Now(), f.next);
      sessionPhase := Discovering;
      var reserved := ReservePending(request.value, Operation(Capabilities, f.session, []));
      if reserved {
        SendCommand(f.next.throws);
        threw := false;
      }
    }

    method InstallSnapshot(revision: Text, fingerprint: Text)
      requires sessionId.Some?
      modifies this`snapshot, this`nextSnapshotGeneration, this`ledger
      ensures var s := old(Now());
              var snapshot := Snapshot(s.nextGeneration, s.session.value, revision, fingerprint);
              Now() == s.(snapshot := Some(snapshot), nextGeneration := s.nextGeneration + 1,
                          installed := s.installed + [Installed(snapshot, s.epoch)])
    {
      var next := Snapshot(nextSnapshotGeneration, sessionId.value, revision, fingerprint);
      nextSnapshotGeneration := nextSnapshotGeneration + 1;
      snapshot := Some(next);
      ledger := ledger.(installed := ledger.installed + [Installed(next, ledger.epoch)]);
    }

    method InstallCapabilities(revision: Text, fingerprint: Text) returns (threw: bool)
      modifies this`snapshot, this`nextSnapshotGeneration, this`ledger, this`revisionFingerprints
      ensures Effect(Now(), threw) == Install(old(Now()), revision, fingerprint, limits)
    {
      threw := true;
      if sessionId.None? {
        return;
      }
      var known := revision in revisionFingerprints;
      if known && revisionFingerprints[revision] != fingerprint {
        return;
      }
      if !known && |revisionFingerprints| >= limits.maxRevisions {
        return;
      }
      threw := false;
      ghost var revisions := revisionFingerprints;
      if known {
        assert revisions[revision := fingerprint] == revisions;
      } else {
        revisionFingerprints := revisionFingerprints[revision := fingerprint];
      }
      if snapshot.Some? && snapshot.value.revision == revision && known {
        return;
      }
      InstallSnapshot(revision, fingerprint);
    }

    method FinishConnecting()
      requires connectionAttempt.Some?
      modifies this`connectionAttempt, this`ledger
      ensures var s := old(Now()); Now() == Settle(s.(connection := None), Some(s.connection.value.promise))
    {
      hide Settle;
      var promise := connectionAttempt.value.promise;
      connectionAttempt := None;
      SettleDeferred(Some(promise));
    }

    method HandleCapabilitiesResult(f: Frame) returns (threw: bool)
      requires f.CapabilitiesResult?
      modifies this
      ensures Effect(Now(), threw) == CapabilitiesFrame(old(Now()), f, limits)
    {
      hide RefreshOp, Settle, Install;
      threw := true;
      if f.request !in pending || pending[f.request].kind != Capabilities || pending[f.request].session != f.session
         || sessionId != Some(f.session) {
        return;
      }
      if sessionPhase != Discovering && sessionPhase != Disconnecting {
        return;
      }
      RemovePending(f.request);
      if sessionPhase == Disconnecting {
        return false;
      }
      var refused := InstallCapabilities(f.revision, f.fingerprint);
      if refused {
        return;
      }
      sessionPhase := Ready;
      if connectionAttempt.None? || connectionAttempt.value.session != f.session {
        return;
      }
      FinishConnecting();
      ReadAgentStatus(f.next);
      threw := false;
    }

    method HandleCapabilitiesChanged(f: Frame) returns (threw: bool)
      requires f.CapabilitiesChanged?
      modifies this
      ensures Effect(Now(), threw) == ChangedFrame(old(Now()), f, limits)
    {
      hide Install;
      if sessionId != Some(f.session) {
        return true;
      }
      if sessionPhase == Disconnecting {
        return false;
      }
      if sessionPhase != Ready {
        return true;
      }
      threw := InstallCapabilities(f.revision, f.fingerprint);
    }

    method InstallAgentStatus(next: Agent) returns (threw: bool)
      modifies this`agentStatus
      ensures threw == Refuses(old(agentStatus), next)
      ensures agentStatus == if threw then old(agentStatus) else Some(next)
    {
      threw := agentStatus.Some? && (next.revision < agentStatus.value.revision ||
                                     (next.revision == agentStatus.value.revision && next != agentStatus.value));
      if !threw {
        agentStatus := Some(next);
      }
    }

    /** The promise of an attempt already dropped, its status being refused. */
    ghost method LoseDeferred(promise: nat)
      modifies this`ledger
      ensures Now() == Lose(old(Now()), promise)
    {
      ledger := ledger.(lost := ledger.lost + {promise});
    }

    method HandleAgentStatusResult(f: Frame) returns (threw: bool)
      requires f.StatusResult?
      modifies this
      ensures Effect(Now(), threw) == StatusFrame(old(Now()), f)
    {
      hide Settle, Refuses;
      threw := true;
      if f.request !in pending || pending[f.request].kind != StatusRead || pending[f.request].session != f.session
         || sessionId != Some(f.session) {
        return;
      }
      if statusReadAttempt.None? || statusReadAttempt.value.request != f.request
         || statusReadAttempt.value.session != f.session {
        return;
      }
      var attempt := statusReadAttempt.value;
      RemovePending(f.request);
      statusReadAttempt := None;
      var refused := InstallAgentStatus(f.agent);
      if refused {
        LoseDeferred(attempt.promise);
        return;
      }
      SettleDeferred(Some(attempt.promise));
      threw := false;
    }

    method HandleAgentActivityResult(f: Frame) returns (threw: bool)
      requires f.ActivityResult?
      modifies this
      ensures Effect(Now(), threw) == ActivityFrame(old(Now()), f)
    {
      hide Settle, Refuses;
      threw := true;
      if f.request !in pending || pending[f.request].kind != ActivityNote || pending[f.request].session != f.session
         || sessionId != Some(f.session) {
        return;
      }
      if activityAttempt.None? || activityAttempt.value.request != f.request
        || activityAttempt.value.session != f.session
         || !f.renews {
        return;
      }
      var attempt := activityAttempt.value;
      RemovePending(f.request);
      activityAttempt := None;
      var refused := InstallAgentStatus(f.agent);
      if refused {
        LoseDeferred(attempt.promise);
        return;
      }
      SettleDeferred(Some(attempt.promise));
      threw := false;
    }

    method HandleAgentStatusChanged(f: Frame) returns (threw: bool)
      requires f.StatusChanged?
      modifies this
      ensures Effect(Now(), threw) == StatusChangedFrame(old(Now()), f)
    {
      hide Refuses;
      if sessionId != Some(f.session) || sessionPhase == Disconnected {
        return true;
      }
      if sessionPhase == Disconnecting {
        return false;
      }
      threw := InstallAgentStatus(f.agent);
    }

    method HandleTurnStarted(f: Frame) returns (threw: bool)
      requires f.TurnStarted?
      modifies this
      ensures Effect(Now(), threw) == StartedFrame(old(Now()), f)
    {
      hide Settle;
      threw := true;
      if activeTurn.None? || activeTurn.value.session != f.session || activeTurn.value.id != f.turn {
        return;
      }
      if f.request !in pending || pending[f.request].kind != TurnStart || pending[f.request].session != f.session
         || pending[f.request].turn != f.turn {
        return;
      }
      var turn := activeTurn.value;
      if turn.phase == Streaming {
        return;
      }
      RemovePending(f.request);
      SettleDeferred(Some(turn.started));
      var phase := if turn.phase == Cancelling then Cancelling else Streaming;
      activeTurn := Some(turn.(acknowledged := true, phase := phase, timer := true));
      threw := false;
    }

    method HandleCancelError(request: Text) returns (threw: bool)
      requires request in pending && pending[request].kind == TurnCancel
      modifies this
      ensures Effect(Now(), threw) == ErrorFrame(old(Now()), request)
    {
      hide Settle, Teardown;
      var operation := pending[request];
      RemovePending(request);
      threw := true;
      if activeTurn.None? || activeTurn.value.session != operation.session || activeTurn.value.id != operation.turn {
        return;
      }
      var turn := activeTurn.value;
      if turn.cancel.None? || turn.cancel.value.request != request {
        return;
      }
      var attempt := turn.cancel.value;
      threw := false;
      if attempt.timedOut {
        LoseDeferred(attempt.promise);
        activeTurn := Some(turn.(cancel := None));
        TeardownTransport();
      } else {
        activeTurn := Some(turn.(cancel := None, phase := attempt.previous));
        SettleDeferred(Some(attempt.promise));
      }
    }

    method HandleReportError(request: Text) returns (threw: bool)
      requires request in pending && (pending[request].kind == StatusRead || pending[request].kind == ActivityNote)
      modifies this
      ensures Effect(Now(), threw) == ErrorFrame(old(Now()), request)
    {
      hide Settle, Teardown, EndTurn;
      var kind := pending[request].kind;
      var attempt := if kind == StatusRead then statusReadAttempt else activityAttempt;
      RemovePending(request);
      if attempt.None? || attempt.value.request != request {
        return true;
      }
      if kind == StatusRead {
        statusReadAttempt := None;
      } else {
        activityAttempt := None;
      }
      agentStatus := None;
      SettleDeferred(Some(attempt.value.promise));
      threw := false;
    }

    method HandleStartError(request: Text) returns (threw: bool)
      requires request in pending && pending[request].kind == TurnStart
      modifies this
      ensures Effect(Now(), threw) == ErrorFrame(old(Now()), request)
    {
      hide Settle, Teardown, EndTurn;
      var operation := pending[request];
      RemovePending(request);
      if activeTurn.None? || activeTurn.value.session != operation.session || activeTurn.value.id != operation.turn {
        return true;
      }
      SettleActiveTurn();
      threw := false;
    }

    method HandleRemoteError(request: Text) returns (threw: bool)
      modifies this
      ensures Effect(Now(), threw) == ErrorFrame(old(Now()), request)
    {
      hide Teardown, EndTurn, Settle;
      if request !in pending {
        return true;
      }
      match pending[request].kind {
        case StatusRead | ActivityNote => threw := HandleReportError(request);
        case TurnStart => threw := HandleStartError(request);
        case TurnCancel => threw := HandleCancelError(request);
        case _ =>
          RemovePending(request);
          TeardownTransport();
          threw := false;
      }
    }

    /** The frames about the turn that need its identity only. */
    method HandleTurnFrame(f: Frame) returns (threw: bool)
      requires f.TurnDelta? || f.TurnCompleted? || f.TurnEnded?
      modifies this
      ensures Effect(Now(), threw) == Handle(old(Now()), f, limits)
    {
      hide EndTurn;
      threw := true;
      if activeTurn.None? || activeTurn.value.session != f.session || activeTurn.value.id != f.turn {
        return;
      }
      if !f.TurnEnded? && !activeTurn.value.acknowledged {
        return;
      }
      if !f.TurnDelta? {
        SettleActiveTurn();
      }
      threw := false;
    }

    method Dispatch(f: Frame) returns (threw: bool)
      modifies this
      ensures Effect(Now(), threw) == Handle(old(Now()), f, limits)
    {
      hide Reset, ConnectedFrame, CapabilitiesFrame, ChangedFrame, StatusFrame, ActivityFrame, StatusChangedFrame;
      hide StartedFrame, ErrorFrame, EndTurn;
      match f {
        case SessionConnected(_, _, _) => threw := HandleSessionConnected(f);
        case SessionDisconnected(session) =>
          threw := sessionId != Some(session) || sessionPhase == Disconnected;
          if !threw {
            ResetSession();
          }
        case CapabilitiesResult(_, _, _, _, _) => threw := HandleCapabilitiesResult(f);
        case CapabilitiesChanged(_, _, _) => threw := HandleCapabilitiesChanged(f);
        case StatusResult(_, _, _) => threw := HandleAgentStatusResult(f);
        case StatusChanged(_, _) => threw := HandleAgentStatusChanged(f);
        case ActivityResult(_, _, _, _) => threw := HandleAgentActivityResult(f);
        case TurnStarted(_, _, _) => threw := HandleTurnStarted(f);
        case RemoteError(request) => threw := HandleRemoteError(request);
        case Invalid => threw := true;
        case _ => threw := HandleTurnFrame(f);
      }
    }

    /** `receive` up to its first await. */
    method Receive(mine: nat, f: Frame)
      requires Valid()
      modifies this
      ensures Valid() && Now() == Step(old(Now()), Deliver(mine, f), limits)
    {
      hide Sound, Teardown, Handle;
      StepSound(Now(), Deliver(mine, f), limits);
      if lease != Some(mine) {
        return;
      }
      if mine in receivingLeases {
        TeardownTransport();
        return;
      }
      var turn := activeTurn;
      var threw := Dispatch(f);
      var delivery := Handled(threw);
      if f.TurnDelta? && !threw && turn.Some? {
        delivery := InSink(turn.value.completion);
      }
      receivingLeases := receivingLeases[mine := delivery];
    }

    /** The consumer of a delta has returned, or failed: that ends the transport if the turn is still its own. */
    method ConsumerDone(mine: nat, ok: bool)
      requires Valid()
      modifies this
      ensures Valid() && Now() == Step(old(Now()), SinkDone(mine, ok), limits)
    {
      hide Sound, Teardown;
      StepSound(Now(), SinkDone(mine, ok), limits);
      if mine !in receivingLeases || !receivingLeases[mine].InSink? {
        return;
      }
      if !ok && lease == Some(mine) && activeTurn.Some?
         && activeTurn.value.completion == receivingLeases[mine].completion {
        TeardownTransport();
      }
      receivingLeases := receivingLeases[mine := Handled(!ok)];
    }

    /** The rest of `receive`. */
    method FinishReceiving(mine: nat)
      requires Valid()
      modifies this
      ensures Valid() && Now() == Step(old(Now()), Delivered(mine), limits)
    {
      hide Sound, Teardown;
      StepSound(Now(), Delivered(mine), limits);
      if mine !in receivingLeases || !receivingLeases[mine].Handled? {
        return;
      }
      if receivingLeases[mine].threw && lease == Some(mine) {
        TeardownTransport();
      }
      receivingLeases := receivingLeases - {mine};
    }
  }
}
