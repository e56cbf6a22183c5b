/**
  Connecting, disconnecting, starting, cancelling and ending a turn keep the coordinator's invariant.
 */
module BrowserSessionCommands {
  import opened Results
  import opened Utf16
  import opened Tables
  import opened BrowserSession
  import opened BrowserSessionInvariant

  // ----- connecting and disconnecting -----

  /** A table in which only the connection waits. */
  lemma ConnectingTable(p: nat, k: Text, session: Text, maxPending: nat)
    requires 1 <= maxPending
    ensures var t := QUIET.(connection := Some(Connection(p, session)),
                            pending := map[k := Operation(Connect, session, [])]);
            && Held(t) == multiset{p} && Correlated(t, Some(session), maxPending) && Timed(t, Some(session))
            && ConnectionTimed(t, Connecting)
  {
    var t := QUIET.(connection := Some(Connection(p, session)), pending := map[k := Operation(Connect, session, [])]);
    assert Expects(t.pending, k, ConnectionKind(Connecting));
    assert t.pending == map[][k := Operation(Connect, session, [])];
    InsertSize(map[], k, Operation(Connect, session, []));
  }

  lemma QuietTable(s: State, limits: Limits)
    requires Sound(s, limits) && s.phase == Disconnected
    ensures TableOf(s) == QUIET && s.session.None? && s.snapshot.None? && !s.closed
  {
    hide Core, Catalogued, Correlated, Timed, ConnectionTimed;
  }

  /** A new session begins with no snapshot of its own. */
  lemma NewEpoch(installed: seq<Installed>, next: nat, epoch: nat, session: Text, revisions: map<Text, Text>)
    requires Generations(installed, next, epoch)
    ensures Generations(installed, next, epoch + 1) && Catalogued(installed, epoch + 1, Some(session), revisions, None)
  {
  }

  lemma ConnectSound(s: State, session: Option<Text>, sending: Sending, limits: Limits)
    requires Sound(s, limits) && 1 <= limits.maxPending
    ensures Sound(ConnectOp(s, session, sending, limits), limits)
  {
    hide Sound, Send, Reset, Core, Catalogued, Correlated, Timed, ConnectionTimed;
    if && !s.closed && s.lease.Some? && s.phase == Disconnected && session.Some? && Drawn(s, sending).Some? {
      var k := sending.request.value;
      QuietTable(s, limits);
      SoundCore(s, limits);
      var begun := Promise(s).(connection := Some(Connection(s.nextPromise, session.value)), session := session,
                               phase := Connecting, epoch := s.epoch + 1);
      ConnectingSound(s, begun, k, session.value, limits);
      if CanReserve(s, k, limits) {
        SendSound(Reserve(begun, k, Operation(Connect, session.value, [])), sending.throws, limits);
      } else {
        ResetSound(begun, limits);
      }
    }
  }

  lemma ConnectingSound(s: State, begun: State, k: Text, session: Text, limits: Limits)
    requires Core(s) && TableOf(s) == QUIET && !s.closed && s.lease.Some? && s.snapshot.None? && 1 <= limits.maxPending
    requires begun == Promise(s).(connection := Some(Connection(s.nextPromise, session)), session := Some(session),
                                  phase := Connecting, epoch := s.epoch + 1)
    ensures Core(begun) && Sound(Reserve(begun, k, Operation(Connect, session, [])), limits)
  {
    hide Held, Generations, Catalogued, Correlated, Timed, ConnectionTimed, Accounted, Leased;
    QuietHeld();
    PromiseMade(s, multiset{});
    ConnectingTable(s.nextPromise, k, session, limits.maxPending);
    NewEpoch(s.installed, s.nextGeneration, s.epoch, session, s.revisions);
    var t := QUIET.(connection := Some(Connection(s.nextPromise, session)));
    HeldPending(t, map[k := Operation(Connect, session, [])]);
    assert multiset{} + multiset{s.nextPromise} == multiset{s.nextPromise};
    assert map[][k := Operation(Connect, session, [])] == map[k := Operation(Connect, session, [])];
  }

  lemma HeldDisconnect(t: Table, a: Attempt)
    requires t.disconnect.None?
    ensures Held(t.(disconnect := Some(a))) == Held(t) + multiset{a.promise}
  {
    hide TurnHeld;
  }

  lemma HeldConnection(t: Table)
    ensures Held(t) == One(ConnectionOf(t.connection)) + Held(t.(connection := None))
  {
    hide TurnHeld;
  }

  lemma TimedDisconnect(t: Table, a: Attempt, session: Option<Text>)
    requires Timed(t, session) && Expects(t.pending, a.request, DisconnectIt) && session == Some(a.session)
    ensures Timed(t.(disconnect := Some(a), connection := None), session)
  {
    hide TurnTimed, Expects;
  }

  lemma DisconnectAnswers(t: Table, a: Attempt, k: Text, op: Operation, session: Option<Text>)
    requires t.disconnect.None? && Answers(t, k, op, session)
    ensures Answers(t.(disconnect := Some(a), connection := None), k, op, session)
  {
  }

  lemma DisconnectSound(s: State, sending: Sending, limits: Limits)
    requires Sound(s, limits)
    ensures Sound(DisconnectOp(s, sending, limits), limits)
  {
    hide Sound, Send, Teardown, Core, Settle, ConnectionOf, Accounted, Held;
    if && s.phase != Disconnected && !s.closed && s.lease.Some? && s.session.Some? && s.disconnect.None?
       && Drawn(s, sending).Some?
    {
      var k := sending.request.value;
      var begun := Promise(s).(disconnect := Some(Attempt(s.nextPromise, k, s.session.value)), phase := Disconnecting);
      var left := Settle(begun, ConnectionOf(s.connection)).(connection := None);
      LeavingCore(s, begun, left, k, limits);
      if CanReserve(s, k, limits) {
        LeavingSound(s, left, k, limits);
        SendSound(Reserve(left, k, Operation(DisconnectIt, s.session.value, [])), sending.throws, limits);
      } else {
        TeardownSound(left, limits);
      }
    }
  }

  lemma LeavingCore(s: State, begun: State, left: State, k: Text, limits: Limits)
    requires Sound(s, limits) && s.disconnect.None? && s.session.Some?
    requires begun == Promise(s).(disconnect := Some(Attempt(s.nextPromise, k, s.session.value)),
                                  phase := Disconnecting)
    requires left == Settle(begun, ConnectionOf(s.connection)).(connection := None)
    ensures Core(left)
    ensures left == begun.(unsettled := left.unsettled, connection := None)
    ensures Accounted(left.unsettled, Held(TableOf(left)), left.lost, left.nextPromise)
  {
    hide Held, Generations, Catalogued, Correlated, Timed, ConnectionTimed, Leased, Structured, One, Settle;
    var a := Attempt(s.nextPromise, k, s.session.value);
    PromiseMade(s, Held(TableOf(s)));
    HeldDisconnect(TableOf(s), a);
    HeldConnection(TableOf(begun));
    assert TableOf(begun) == TableOf(s).(disconnect := Some(a));
    SettleOne(begun, ConnectionOf(s.connection), Held(TableOf(begun).(connection := None)) + multiset(s.lost));
    assert TableOf(left) == TableOf(begun).(connection := None);
  }

  lemma LeavingSound(s: State, left: State, k: Text, limits: Limits)
    requires Sound(s, limits) && s.disconnect.None? && s.session.Some? && CanReserve(s, k, limits) && !InUse(s, k)
             && !s.closed
    requires left == Promise(s).(disconnect := Some(Attempt(s.nextPromise, k, s.session.value)), phase := Disconnecting,
                                 unsettled := left.unsettled, connection := None)
    requires Accounted(left.unsettled, Held(TableOf(left)), left.lost, left.nextPromise)
    ensures Sound(Reserve(left, k, Operation(DisconnectIt, s.session.value, [])), limits)
  {
    hide Held, Generations, Leased, Catalogued, Correlated, Timed, Accounted;
    var op, a := Operation(DisconnectIt, s.session.value, []), Attempt(s.nextPromise, k, s.session.value);
    var t, n := TableOf(s), Reserve(left, k, Operation(DisconnectIt, s.session.value, []));
    var u := t.(disconnect := Some(a), connection := None);
    HeldPending(u, t.pending[k := op]);
    forall j | j in t.pending && Answers(t, j, t.pending[j], s.session) ensures Answers(u, j, t.pending[j], s.session) {
      DisconnectAnswers(t, a, j, t.pending[j], s.session);
    }
    PendingAnswers(u, t.pending[k := op]);
    CorrelatedInsert(t, TableOf(n), k, op, s.session, s.session, limits.maxPending);
    TimedInsert(t, k, op, s.session);
    TimedDisconnect(t.(pending := t.pending[k := op]), a, s.session);
    assert ConnectionTimed(TableOf(n), n.phase);
    hide Answers;
    HoldSound(s, n, limits);
  }

  // ----- turns -----

  lemma HeldTurn(t: Table, turn: Turn)
    requires t.turn.None? && !turn.acknowledged && turn.cancel.None?
    ensures Held(t.(turn := Some(turn))) == Held(t) + multiset{turn.started} + multiset{turn.completion}
  {
    hide ConnectionOf, PromiseOf;
  }

  lemma TimedTurn(t: Table, turn: Turn, session: Option<Text>)
    requires Timed(t, session) && TurnTimed(t.pending, session, Some(turn))
    ensures Timed(t.(turn := Some(turn)), session)
  {
    hide TurnTimed, Expects;
  }

  lemma TurnAnswers(t: Table, turn: Turn, k: Text, op: Operation, session: Option<Text>)
    requires t.turn.None? && Answers(t, k, op, session)
    ensures Answers(t.(turn := Some(turn)), k, op, session)
  {
  }

  lemma StartTurnSound(s: State, e: Event, limits: Limits)
    requires Sound(s, limits) && e.StartTurn?
    ensures Sound(StartTurnOp(s, e, limits), limits)
  {
    hide Sound, Send, EndTurn, Core;
    if Current(s, e.wanted) && e.fits && Drawn(s, e.sending).Some? && e.turnId.Some? && e.parses {
      var k, session := e.sending.request.value, s.snapshot.value.session;
      var turn := Turn(e.turnId.value, session, k, s.nextPromise, s.nextPromise + 1, None, false, Starting, false,
                       e.cancellable);
      var begun := Promise(Promise(s)).(turn := Some(turn));
      if CanReserve(s, k, limits) {
        TurnBegun(s, begun, k, turn, limits);
        SendSound(Reserve(begun, k, Operation(TurnStart, session, turn.id)), e.sending.throws, limits);
      } else {
        TurnDropped(s, begun, k, turn, limits);
      }
    }
  }

  lemma TurnAccounted(s: State, turn: Turn, limits: Limits)
    requires Sound(s, limits) && s.turn.None? && turn.started == s.nextPromise && turn.completion == s.nextPromise + 1
    requires !turn.acknowledged && turn.cancel.None?
    ensures Accounted(Promise(Promise(s)).unsettled, Held(TableOf(s).(turn := Some(turn))), s.lost, s.nextPromise + 2)
  {
    hide Held, Generations, Leased, Catalogued, Correlated, Timed, ConnectionTimed, Structured;
    PromiseMade(s, Held(TableOf(s)));
    PromiseMade(Promise(s), Held(TableOf(s)) + multiset{s.nextPromise});
    HeldTurn(TableOf(s), turn);
  }

  lemma TurnBegun(s: State, begun: State, k: Text, turn: Turn, limits: Limits)
    requires Sound(s, limits) && CanReserve(s, k, limits) && !InUse(s, k) && s.turn.None? && s.snapshot.Some?
    requires turn == Turn(turn.id, s.snapshot.value.session, k, s.nextPromise, s.nextPromise + 1, None, false, Starting,
                          false, turn.cancellable)
    requires begun == Promise(Promise(s)).(turn := Some(turn))
    ensures Sound(Reserve(begun, k, Operation(TurnStart, turn.session, turn.id)), limits)
  {
    hide Held, Generations, Leased, Correlated, Timed, ConnectionTimed, Accounted;
    var op, t := Operation(TurnStart, turn.session, turn.id), TableOf(s);
    var u, n := t.(turn := Some(turn)), Reserve(begun, k, Operation(TurnStart, turn.session, turn.id));
    TurnAccounted(s, turn, limits);
    HeldPending(u, t.pending[k := op]);
    forall j | j in t.pending && Answers(t, j, t.pending[j], s.session) ensures Answers(u, j, t.pending[j], s.session) {
      TurnAnswers(t, turn, j, t.pending[j], s.session);
    }
    PendingAnswers(u, t.pending[k := op]);
    assert s.session == Some(turn.session);
    CorrelatedInsert(t, TableOf(n), k, op, s.session, s.session, limits.maxPending);
    TimedInsert(t, k, op, s.session);
    TimedTurn(t.(pending := t.pending[k := op]), turn, s.session);
    ConnectionTimedInsert(t, k, op, s.phase);
    SameConnection(t.(pending := t.pending[k := op]), TableOf(n), s.phase);
    hide Answers, Catalogued;
    HoldSound(s, n, limits);
  }

  /** A turn that cannot send its command is over at once. */
  lemma TurnDropped(s: State, begun: State, k: Text, turn: Turn, limits: Limits)
    requires Sound(s, limits) && s.turn.None? && k !in s.pending
    requires turn == Turn(turn.id, turn.session, k, s.nextPromise, s.nextPromise + 1, None, false, Starting, false,
                          turn.cancellable)
    requires begun == Promise(Promise(s)).(turn := Some(turn))
    ensures Sound(EndTurn(begun), limits)
  {
    hide Held, Generations, Leased, Correlated, Timed, ConnectionTimed, Catalogued, Structured;
    TurnAccounted(s, turn, limits);
    HeldWithoutTurn(TableOf(begun));
    EndTurnSettles(begun, Held(TableOf(s)) + multiset(s.lost));
    var n := EndTurn(begun);
    assert s.pending - ({k} + {}) == s.pending;
    assert TableOf(n) == TableOf(s);
  }

  lemma HeldWithoutTurn(t: Table)
    ensures Held(t) == Held(t.(turn := None)) + TurnHeld(t.turn)
  {
    hide One;
  }

  // ----- cancelling a turn -----

  lemma HeldCancel(t: Table, turn: Turn, c: CancelAttempt)
    requires t.turn == Some(turn) && turn.cancel.None?
    ensures Held(t.(turn := Some(turn.(cancel := Some(c), phase := Cancelling)))) == Held(t) + multiset{c.promise}
  {
    hide ConnectionOf, PromiseOf;
  }

  lemma CancelAnswers(t: Table, turn: Turn, c: CancelAttempt, k: Text, op: Operation, session: Option<Text>)
    requires t.turn == Some(turn) && turn.cancel.None? && Answers(t, k, op, session)
    ensures Answers(t.(turn := Some(turn.(cancel := Some(c), phase := Cancelling))), k, op, session)
  {
  }

  lemma CancelBegun(s: State, t: Turn, timedOut: bool, k: Text, n: State, limits: Limits)
    requires Sound(s, limits) && s.turn == Some(t) && t.cancel.None? && (timedOut ==> t.acknowledged)
    requires CanReserve(s, k, limits) && !InUse(s, k)
    requires var turn := t.(timer := t.timer && !timedOut, cancel := Some(CancelAttempt(s.nextPromise, t.phase,
             timedOut, k)),
                            phase := Cancelling);
             n == Reserve(Promise(s).(turn := Some(turn)), k, Operation(TurnCancel, t.session, t.id))
    ensures Sound(n, limits)
  {
    hide Held, Generations, Leased, Catalogued, Correlated, ConnectionTimed, Accounted;
    var op, c := Operation(TurnCancel, t.session, t.id), CancelAttempt(s.nextPromise, t.phase, timedOut, k);
    var turn := t.(timer := t.timer && !timedOut, cancel := Some(c), phase := Cancelling);
    var table := TableOf(s);
    var silent := table.(turn := Some(t.(timer := turn.timer)));
    var u := table.(turn := Some(turn));
    HeldTimer(table, t, turn.timer);
    HeldCancel(silent, t.(timer := turn.timer), c);
    HeldPending(u, table.pending[k := op]);
    PromiseMade(s, Held(table));
    forall j | j in table.pending && Answers(table, j, table.pending[j], s.session)
      ensures Answers(u, j, table.pending[j], s.session)
    {
      TimerAnswers(table, t, turn.timer, j, table.pending[j], s.session);
      CancelAnswers(silent, t.(timer := turn.timer), c, j, table.pending[j], s.session);
    }
    PendingAnswers(u, table.pending[k := op]);
    assert s.session == Some(t.session);
    CorrelatedInsert(table, TableOf(n), k, op, s.session, s.session, limits.maxPending);
    TimedInsert(table, k, op, s.session);
    CancelTimed(table.(pending := table.pending[k := op]), t, turn, s.session);
    TimedTurn(table.(pending := table.pending[k := op]), turn, s.session);
    ConnectionTimedInsert(table, k, op, s.phase);
    SameConnection(table.(pending := table.pending[k := op]), TableOf(n), s.phase);
    hide Answers, Timed;
    HoldSound(s, n, limits);
  }

  lemma CancelTimed(t: Table, before: Turn, turn: Turn, session: Option<Text>)
    requires Timed(t, session) && t.turn == Some(before) && before.cancel.None? && turn.cancel.Some?
    requires Expects(t.pending, turn.cancel.value.request, TurnCancel)
             && (turn.cancel.value.timedOut ==> before.acknowledged)
    requires turn == before.(timer := before.timer && !turn.cancel.value.timedOut, cancel := turn.cancel,
                             phase := Cancelling)
    requires turn.cancel.value.previous == before.phase
    ensures TurnTimed(t.pending, session, Some(turn))
  {
  }

  lemma HeldTimer(t: Table, turn: Turn, timer: bool)
    requires t.turn == Some(turn)
    ensures Held(t.(turn := Some(turn.(timer := timer)))) == Held(t)
  {
  }

  lemma TimerAnswers(t: Table, turn: Turn, timer: bool, k: Text, op: Operation, session: Option<Text>)
    requires t.turn == Some(turn) && Answers(t, k, op, session)
    ensures Answers(t.(turn := Some(turn.(timer := timer))), k, op, session)
  {
  }

  lemma CancelSound(s: State, turn: Text, sending: Sending, limits: Limits)
    requires Sound(s, limits)
    ensures Sound(CancelOp(s, turn, sending, limits), limits)
  {
    hide Sound, Send, Settle;
    if && s.turn.Some? && s.turn.value.id == turn && s.turn.value.cancel.None? && s.turn.value.cancellable
       && Drawn(s, sending).Some?
    {
      var t, k := s.turn.value, sending.request.value;
      if CanReserve(s, k, limits) {
        var n := Reserve(Promise(s).(turn := Some(t.(cancel := Some(CancelAttempt(s.nextPromise, t.phase, false, k)),
                                                     phase := Cancelling))), k, Operation(TurnCancel, t.session, t.id));
        CancelBegun(s, t, false, k, n, limits);
        SendSound(n, sending.throws, limits);
      } else {
        PromiseDropped(s, limits);
      }
    }
  }

  /** The turn's timer does not count among the promises. */
  lemma TimerCore(s: State, t: Turn, timer: bool)
    requires Core(s) && s.turn == Some(t)
    ensures Core(s.(turn := Some(t.(timer := timer))))
  {
    hide Held, Generations, Leased, Accounted;
    HeldTimer(TableOf(s), t, timer);
  }

  lemma DroppedCore(s: State)
    requires Core(s)
    ensures Core(Settle(Promise(s), Some(s.nextPromise)))
  {
    hide Held, Generations, Leased;
    PromiseMade(s, Held(TableOf(s)));
    assert s.unsettled + {s.nextPromise} - {s.nextPromise} == s.unsettled;
  }

  lemma TimeoutSound(s: State, completion: nat, sending: Sending, limits: Limits)
    requires Sound(s, limits)
    ensures Sound(TurnTimeoutOp(s, completion, sending, limits), limits)
  {
    hide Sound, Send, Settle, Teardown, Core;
    if s.turn.Some? && s.turn.value.completion == completion && s.turn.value.timer {
      var t := s.turn.value;
      var fired := s.(turn := Some(t.(timer := false)));
      SoundCore(s, limits);
      TimerCore(s, t, false);
      DroppedCore(fired);
      TeardownSound(fired, limits);
      TeardownSound(Settle(Promise(fired), Some(fired.nextPromise)), limits);
      if t.cancellable && t.cancel.None? && Drawn(s, sending).Some? && CanReserve(s, sending.request.value, limits) {
        TimerMeansAcknowledged(s, limits);
        var k := sending.request.value;
        var n := Reserve(Promise(fired).(turn := Some(t.(timer := false,
                           cancel := Some(CancelAttempt(s.nextPromise, t.phase, true, k)), phase := Cancelling))), k,
                         Operation(TurnCancel, t.session, t.id));
        CancelBegun(s, t, true, k, n, limits);
        SendSound(n, sending.throws, limits);
      }
    }
  }

  lemma TimerMeansAcknowledged(s: State, limits: Limits)
    requires Sound(s, limits) && s.turn.Some? && s.turn.value.timer
    ensures s.turn.value.acknowledged
  {
    hide Core, Catalogued, Correlated, Structured, ConnectionTimed;
  }

  // ----- the end of a turn -----

  lemma TimedWithoutTurn(t: Table, keys: set<Text>, session: Option<Text>)
    requires Timed(t, session)
    requires forall k :: k in keys && k in t.pending ==>
               t.pending[k].kind == TurnStart || t.pending[k].kind == TurnCancel
    ensures Timed(t.(turn := None, pending := t.pending - keys), session)
  {
    hide TurnTimed;
    assert TurnTimed(t.pending - keys, session, None) by {
      NoTurnTimed(t.pending - keys, session);
    }
  }

  lemma NoTurnTimed(pending: map<Text, Operation>, session: Option<Text>)
    ensures TurnTimed(pending, session, None)
  {
  }

  lemma ConnectionWithoutTurn(t: Table, u: Table, keys: set<Text>, phase: SessionPhase)
    requires u.pending == t.pending - keys && u.connection == t.connection && ConnectionTimed(t, phase)
    requires forall k :: k in keys && k in t.pending ==>
               t.pending[k].kind == TurnStart || t.pending[k].kind == TurnCancel
    ensures ConnectionTimed(u, phase)
  {
    if t.connection.Some? {
      var k :| Expects(t.pending, k, ConnectionKind(phase));
      assert Expects(u.pending, k, ConnectionKind(phase));
    }
  }

  /** The commands of a turn, by the requests it knows. */
  function TurnRequests(t: Turn): set<Text> {
    {t.startRequest} + if t.cancel.Some? then {t.cancel.value.request} else {}
  }

  /** What is pending at those requests is the turn's own. */
  lemma TurnOwns(s: State, limits: Limits)
    requires Sound(s, limits) && s.turn.Some?
    ensures forall k :: k in TurnRequests(s.turn.value) && k in s.pending ==>
              s.pending[k].kind == TurnStart || s.pending[k].kind == TurnCancel
  {
    hide Core, Catalogued, Correlated, Structured, ConnectionTimed;
  }

  lemma EndTurnSound(s: State, limits: Limits)
    requires Sound(s, limits) && s.turn.Some?
    ensures Sound(EndTurn(s), limits)
  {
    hide Held, Generations, Leased, Correlated, Timed, ConnectionTimed, Catalogued, EndTurn;
    TurnOwns(s, limits);
    var keys := TurnRequests(s.turn.value);
    var t := TableOf(s);
    HeldWithoutTurn(t);
    EndTurnSettles(s, Held(t.(turn := None)) + multiset(s.lost));
    var n := EndTurn(s);
    HeldPending(t.(turn := None), s.pending - keys);
    EndedAnswers(t, keys, s.session, limits.maxPending);
    TimedWithoutTurn(t, keys, s.session);
    if ConnectionTimed(t, s.phase) {
      ConnectionWithoutTurn(t, TableOf(n), keys, s.phase);
    }
    hide Accounted, TurnRequests;
    HoldSound(s, n, limits);
  }

  lemma EndedAnswers(t: Table, keys: set<Text>, session: Option<Text>, maxPending: nat)
    requires Correlated(t, session, maxPending) && t.turn.Some? && keys == TurnRequests(t.turn.value)
    ensures Correlated(t.(turn := None, pending := t.pending - keys), session, maxPending)
  {
    CorrelatedRemove(t, t.(turn := None, pending := t.pending - keys), keys, session, maxPending);
  }
}
