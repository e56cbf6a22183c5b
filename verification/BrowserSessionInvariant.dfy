/**
  What holds of the browser session coordinator at every await, and that settling, ending and the
  commands that read or note the agent's status keep it.
 */
module BrowserSessionInvariant {
  import opened Results
  import opened Utf16
  import opened Tables
  import opened BrowserSession

  // ----- what holds at every await -----

  /** The commands sent and whoever waits for them. */
  datatype Table = Table(
    pending: map<Text, Operation>, connection: Option<Connection>, disconnect: Option<Attempt>,
    status: Option<Attempt>, activity: Option<Attempt>, turn: Option<Turn>)

  function TableOf(s: State): Table {
    Table(s.pending, s.connection, s.disconnect, s.status, s.activity, s.turn)
  }

  function One(p: Option<nat>): multiset<nat> {
    if p.Some? then multiset{p.value} else multiset{}
  }

  function TurnHeld(t: Option<Turn>): multiset<nat> {
    if t.None? then multiset{}
    else One(CancelOf(t.value)) + One(StartedOf(t.value)) + multiset{t.value.completion}
  }

  /** The promises that the attempts and the turn refer to. */
  function Held(t: Table): multiset<nat> {
    One(ConnectionOf(t.connection)) + One(PromiseOf(t.status)) + One(PromiseOf(t.activity))
      + One(PromiseOf(t.disconnect))
    + TurnHeld(t.turn)
  }

  /** Every unsettled promise has exactly one holder or is lost. */
  predicate Accounted(unsettled: set<nat>, held: multiset<nat>, lost: set<nat>, next: nat) {
    multiset(unsettled) == held + multiset(lost) && forall p :: p in unsettled ==> p < next
  }

  /** Generations count the snapshots installed; in one session a revision has one catalog. */
  ghost predicate Generations(installed: seq<Installed>, next: nat, epoch: nat) {
    && next == |installed| + 1
    && (forall i :: 0 <= i < |installed| ==> installed[i].snapshot.generation == i + 1 && installed[i].epoch <= epoch)
    && (forall i, j :: 0 <= i < |installed| && 0 <= j < |installed| && installed[i].epoch == installed[j].epoch
                       && installed[i].snapshot.revision == installed[j].snapshot.revision ==>
          installed[i].snapshot.fingerprint == installed[j].snapshot.fingerprint)
  }

  /** In a session, the revisions known are those installed in it, and the snapshot is the last one installed. */
  ghost predicate Catalogued(installed: seq<Installed>, epoch: nat, session: Option<Text>, revisions: map<Text, Text>,
                             snapshot: Option<Snapshot>)
  {
    && (session.Some? ==>
          forall i :: 0 <= i < |installed| && installed[i].epoch == epoch ==>
            installed[i].snapshot.revision in revisions &&
            revisions[installed[i].snapshot.revision] == installed[i].snapshot.fingerprint)
    && (snapshot.Some? ==>
          installed != [] && installed[|installed| - 1] == Installed(snapshot.value, epoch)
          && session == Some(snapshot.value.session))
  }

  ghost predicate Leased(lease: Option<nat>, receiving: map<nat, Delivery>, next: nat, closed: bool) {
    && (lease.Some? ==> lease.value < next) && (forall l :: l in receiving ==> l < next)
    && (closed ==> lease.None?)
  }

  /** What a teardown needs. */
  ghost predicate Core(s: State) {
    && !s.repeated && Accounted(s.unsettled, Held(TableOf(s)), s.lost, s.nextPromise)
    && Generations(s.installed, s.nextGeneration, s.epoch) && Leased(s.lease, s.receiving, s.nextLease, s.closed)
  }

  /** A command answers to the attempt or turn that sent it. */
  predicate Answers(t: Table, k: Text, op: Operation, session: Option<Text>) {
    && session == Some(op.session)
    && match op.kind
       case StatusRead => t.status.Some? && t.status.value.request == k
       case ActivityNote => t.activity.Some? && t.activity.value.request == k
       case DisconnectIt => t.disconnect.Some? && t.disconnect.value.request == k
       case TurnStart =>
         t.turn.Some? && t.turn.value.startRequest == k && !t.turn.value.acknowledged && t.turn.value.id == op.turn
       case TurnCancel =>
         t.turn.Some? && t.turn.value.cancel.Some? && t.turn.value.cancel.value.request == k
           && t.turn.value.id == op.turn
       case _ => true
  }

  ghost predicate Correlated(t: Table, session: Option<Text>, maxPending: nat) {
    |t.pending| <= maxPending && forall k :: k in t.pending ==> Answers(t, k, t.pending[k], session)
  }

  predicate AttemptTimed(pending: map<Text, Operation>, session: Option<Text>, a: Option<Attempt>, kind: Kind) {
    a.Some? ==> Expects(pending, a.value.request, kind) && session == Some(a.value.session)
  }

  /** An unacknowledged turn waits for its start command, another for its timer or its own cancellation by timeout. */
  predicate TurnTimed(pending: map<Text, Operation>, session: Option<Text>, turn: Option<Turn>) {
    turn.Some? ==>
      var t := turn.value;
      && session == Some(t.session)
      && (!t.acknowledged ==> Expects(pending, t.startRequest, TurnStart) && !t.timer && t.phase != Streaming)
      && (t.acknowledged ==> t.timer || (t.cancel.Some? && t.cancel.value.timedOut))
      && (t.cancel.Some? ==> Expects(pending, t.cancel.value.request, TurnCancel) && CancelPhase(t, t.cancel.value))
      && (t.cancel.None? ==> t.phase != Cancelling)
      && (t.startRequest in pending ==> pending[t.startRequest].kind == TurnStart)
  }

  predicate CancelPhase(t: Turn, c: CancelAttempt) {
    && t.phase == Cancelling && c.previous != Cancelling
    && (c.timedOut ==> t.acknowledged) && (c.previous == Streaming ==> t.acknowledged)
  }

  /** A running timer for each holder of an unsettled promise but the connection. */
  predicate Timed(t: Table, session: Option<Text>) {
    && AttemptTimed(t.pending, session, t.status, StatusRead)
       && AttemptTimed(t.pending, session, t.activity, ActivityNote)
    && AttemptTimed(t.pending, session, t.disconnect, DisconnectIt) && TurnTimed(t.pending, session, t.turn)
  }

  function ConnectionKind(phase: SessionPhase): Kind {
    if phase == Connecting then Connect else Capabilities
  }

  /** The connection's, unless a frame of the current transport has failed and is about to end it. */
  ghost predicate ConnectionTimed(t: Table, phase: SessionPhase) {
    t.connection.Some? ==> exists k :: Expects(t.pending, k, ConnectionKind(phase))
  }

  predicate Doomed(lease: Option<nat>, receiving: map<nat, Delivery>) {
    lease.Some? && lease.value in receiving && receiving[lease.value] == Handled(true)
  }

  /** The session's tables live and die with it. */
  predicate Structured(t: Table, attached: bool, session: Option<Text>, phase: SessionPhase, closed: bool,
                       snapshot: Option<Snapshot>)
  {
    && (!attached ==> session.None?)
    && (session.None? <==> phase == Disconnected || phase == Closed) && (closed <==> phase == Closed)
    && (session.None? ==>
          && t.pending == map[] && t.connection.None? && t.disconnect.None? && t.status.None? && t.activity.None?
          && t.turn.None? && snapshot.None?)
    && (phase == Connecting || phase == Discovering <==> t.connection.Some?)
    && (t.connection.Some? ==> session == Some(t.connection.value.session) && snapshot.None?)
    && (phase == Disconnecting <==> t.disconnect.Some?)
    && (phase == Ready ==> snapshot.Some?)
    && (t.turn.Some? ==> snapshot.Some?)
  }

  /** Everything but the connection's timer. */
  ghost predicate Nearly(s: State, limits: Limits) {
    && Core(s) && Catalogued(s.installed, s.epoch, s.session, s.revisions, s.snapshot)
    && Correlated(TableOf(s), s.session, limits.maxPending) && Timed(TableOf(s), s.session)
    && Structured(TableOf(s), s.lease.Some?, s.session, s.phase, s.closed, s.snapshot)
  }

  ghost predicate Sound(s: State, limits: Limits) {
    Nearly(s, limits) && (ConnectionTimed(TableOf(s), s.phase) || Doomed(s.lease, s.receiving))
  }

  // ----- settling -----

  /** Settling a promise that is unsettled takes it away and nothing else. */
  lemma SettleOne(s: State, p: Option<nat>, rest: multiset<nat>)
    requires multiset(s.unsettled) == One(p) + rest && !s.repeated
    ensures var n := Settle(s, p);
            && multiset(n.unsettled) == rest && !n.repeated && n == s.(unsettled := n.unsettled)
            && n.unsettled <= s.unsettled
  {
    if p.Some? {
      assert p.value in multiset(s.unsettled);
      assert multiset(s.unsettled - {p.value}) == multiset(s.unsettled) - multiset{p.value};
    }
  }

  lemma EndTurnSettles(s: State, rest: multiset<nat>)
    requires multiset(s.unsettled) == TurnHeld(s.turn) + rest && !s.repeated
    ensures var n := EndTurn(s);
            && multiset(n.unsettled) == rest && !n.repeated && n.turn.None? && n.unsettled <= s.unsettled
            && n == s.(unsettled := n.unsettled, turn := None, pending := n.pending)
            && n.pending ==
               (if s.turn.None? then s.pending
                else s.pending - ({s.turn.value.startRequest} +
                                  if s.turn.value.cancel.Some? then {s.turn.value.cancel.value.request} else {}))
  {
    hide Settle, One, CancelOf, StartedOf;
    if s.turn.Some? {
      var t := s.turn.value;
      var requests := {t.startRequest} + if t.cancel.Some? then {t.cancel.value.request} else {};
      var first := s.(turn := None, pending := s.pending - requests);
      OneOf(t.completion);
      SettleOne(first, CancelOf(t), One(StartedOf(t)) + multiset{t.completion} + rest);
      SettleOne(Settle(first, CancelOf(t)), StartedOf(t), multiset{t.completion} + rest);
      SettleOne(Settle(Settle(first, CancelOf(t)), StartedOf(t)), Some(t.completion), rest);
    }
  }

  lemma OneOf(p: nat)
    ensures One(Some(p)) == multiset{p}
  {
  }

  lemma ResetSettles(s: State)
    requires !s.repeated && Accounted(s.unsettled, Held(TableOf(s)), s.lost, s.nextPromise)
    ensures var n := Reset(s);
            && n.unsettled == s.lost
            && n == s.(unsettled := s.lost, turn := None, pending := map[], connection := None, status := None,
                       activity := None, disconnect := None, revisions := map[], agent := None, session := None,
                       snapshot := None, phase := if s.closed then Closed else Disconnected)
  {
    hide Settle, One, TurnHeld, EndTurn;
    var c, a, b, d := ConnectionOf(s.connection), PromiseOf(s.status), PromiseOf(s.activity), PromiseOf(s.disconnect);
    var t := TurnHeld(s.turn) + multiset(s.lost);
    SettleOne(s, c, One(a) + One(b) + One(d) + t);
    var s1 := Settle(s, c);
    SettleOne(s1, a, One(b) + One(d) + t);
    var s2 := Settle(s1, a);
    SettleOne(s2, b, One(d) + t);
    var s3 := Settle(s2, b);
    SettleOne(s3, d, t);
    var s4 := Settle(s3, d).(pending := map[], connection := None, status := None, activity := None,
                             disconnect := None);
    EndTurnSettles(s4, multiset(s.lost));
    var n := EndTurn(s4);
    forall p ensures p in n.unsettled <==> p in s.lost {
      assert p in multiset(n.unsettled) <==> p in multiset(s.lost);
    }
    assert n.pending == map[];
  }

  const QUIET := Table(map[], None, None, None, None, None)

  lemma QuietHeld()
    ensures Held(QUIET) == multiset{}
  {
  }

  /** A coordinator with nothing waiting is sound, if only its accounts are. */
  lemma QuietSound(n: State, limits: Limits)
    requires TableOf(n) == QUIET && n.session.None? && n.snapshot.None?
    requires n.phase == if n.closed then Closed else Disconnected
    requires Core(n)
    ensures Sound(n, limits)
  {
    hide Core;
  }

  /** A teardown leaves a coordinator with nothing waiting, whatever had gone before. */
  lemma ResetSound(s: State, limits: Limits)
    requires Core(s)
    ensures Sound(Reset(s), limits) && Reset(s).unsettled == s.lost && Reset(s).lease == s.lease
  {
    hide Reset, Generations, Leased, Sound, Held;
    ResetSettles(s);
    LostHeld(s.unsettled, Held(TableOf(s)), s.lost, s.nextPromise);
    QuietHeld();
    QuietSound(Reset(s), limits);
  }

  lemma LostHeld(unsettled: set<nat>, held: multiset<nat>, lost: set<nat>, next: nat)
    requires Accounted(unsettled, held, lost, next)
    ensures lost <= unsettled && forall p :: p in lost ==> p < next
  {
    forall p | p in lost ensures p in unsettled {
      assert p in multiset(lost) && p in multiset(unsettled);
    }
  }

  lemma TeardownSound(s: State, limits: Limits)
    requires Core(s)
    ensures Sound(Teardown(s), limits) && Teardown(s).unsettled == s.lost && Teardown(s).lease.None?
  {
    hide Reset, Held, Generations, Sound, Accounted;
    ResetSound(s.(lease := None), limits);
  }

  // ----- commands keep it -----

  lemma SoundCore(s: State, limits: Limits)
    requires Sound(s, limits)
    ensures Core(s)
  {
    hide Core, Catalogued, Correlated, Timed, Structured, ConnectionTimed, Doomed;
  }

  lemma SendSound(s: State, throws: bool, limits: Limits)
    requires Sound(s, limits)
    ensures Sound(Send(s, throws), limits)
  {
    hide Sound, Core, Teardown;
    SoundCore(s, limits);
    if throws {
      TeardownSound(s, limits);
    }
  }

  /** A new promise is unsettled and has no holder yet. */
  lemma PromiseMade(s: State, held: multiset<nat>)
    requires Accounted(s.unsettled, held, s.lost, s.nextPromise)
    ensures Accounted(Promise(s).unsettled, held + multiset{s.nextPromise}, s.lost, s.nextPromise + 1)
    ensures s.nextPromise !in s.unsettled
  {
    assert multiset(s.unsettled + {s.nextPromise}) == multiset(s.unsettled) + multiset{s.nextPromise};
  }

  /** A promise made and rejected on the spot leaves no trace but its number. */
  lemma PromiseDropped(s: State, limits: Limits)
    requires Sound(s, limits)
    ensures var n := Settle(Promise(s), Some(s.nextPromise));
            Sound(n, limits) && n == s.(nextPromise := s.nextPromise + 1)
  {
    hide Held, Generations, Leased, Catalogued, Correlated, Timed, Structured, ConnectionTimed;
    PromiseMade(s, Held(TableOf(s)));
    assert s.unsettled + {s.nextPromise} - {s.nextPromise} == s.unsettled;
  }

  lemma CorrelatedInsert(t: Table, n: Table, k: Text, op: Operation, session: Option<Text>, session': Option<Text>,
                         maxPending: nat)
    requires Correlated(t, session, maxPending) && n.pending == t.pending[k := op] && k !in t.pending
    requires |t.pending| < maxPending && Answers(n, k, op, session')
    requires forall j :: j in t.pending && Answers(t, j, t.pending[j], session) ==>
             Answers(n, j, t.pending[j], session')
    ensures Correlated(n, session', maxPending)
  {
    hide Answers;
    InsertSize(t.pending, k, op);
  }

  lemma CorrelatedRemove(t: Table, n: Table, keys: set<Text>, session: Option<Text>, maxPending: nat)
    requires Correlated(t, session, maxPending) && n.pending == t.pending - keys
    requires forall j :: j in n.pending && Answers(t, j, t.pending[j], session) ==> Answers(n, j, t.pending[j], session)
    ensures Correlated(n, session, maxPending)
  {
    hide Answers;
    RemoveManySize(t.pending, keys);
  }

  /** The parts of `Sound` that a command which only adds to the table leaves to be shown. */
  lemma HoldSound(s: State, n: State, limits: Limits)
    requires Sound(s, limits) && !n.repeated
    requires n.installed == s.installed && n.nextGeneration == s.nextGeneration && n.lease == s.lease
             && n.receiving == s.receiving
    requires n.nextLease == s.nextLease && n.closed == s.closed && n.epoch == s.epoch && n.session == s.session
    requires n.revisions == s.revisions && n.snapshot == s.snapshot
    requires Accounted(n.unsettled, Held(TableOf(n)), n.lost, n.nextPromise)
    requires Correlated(TableOf(n), n.session, limits.maxPending) && Timed(TableOf(n), n.session)
    requires Structured(TableOf(n), n.lease.Some?, n.session, n.phase, n.closed, n.snapshot)
    requires ConnectionTimed(TableOf(s), s.phase) ==> ConnectionTimed(TableOf(n), n.phase)
    ensures Sound(n, limits)
  {
    hide Accounted, Generations, Leased, Catalogued, Correlated, Timed, Structured, ConnectionTimed;
  }

  /** A connection that already has its command keeps it when another is added. */
  lemma StillTimed(t: Table, n: Table, phase: SessionPhase, k: Text, op: Operation)
    requires ConnectionTimed(t, phase) && n.pending == t.pending[k := op] && k !in t.pending
             && n.connection == t.connection
    ensures ConnectionTimed(n, phase)
  {
    if t.connection.Some? {
      var j :| Expects(t.pending, j, ConnectionKind(phase));
      assert Expects(n.pending, j, ConnectionKind(phase));
    }
  }

  lemma RefreshSound(s: State, sending: Sending, limits: Limits)
    requires Sound(s, limits)
    ensures Sound(RefreshOp(s, sending, limits), limits)
  {
    hide Sound, Send, Settle;
    if Drawn(s, sending).Some? && s.lease.Some? && s.phase == Ready && s.session.Some? && s.status.None? && !s.closed {
      var k := sending.request.value;
      if CanReserve(s, k, limits) {
        var n := Reserve(Promise(s).(status := Some(Attempt(s.nextPromise, k, s.session.value))), k,
                         Operation(StatusRead, s.session.value, []));
        StatusHeld(s, n, k, limits);
        SendSound(n, sending.throws, limits);
      } else {
        PromiseDropped(s, limits);
      }
    }
  }

  /** A command more takes no timer away. */
  lemma TimedInsert(t: Table, k: Text, op: Operation, session: Option<Text>)
    requires Timed(t, session) && k !in t.pending && (t.turn.Some? ==> t.turn.value.startRequest != k)
    ensures Timed(t.(pending := t.pending[k := op]), session)
  {
    hide CancelPhase;
  }

  lemma ConnectionTimedInsert(t: Table, k: Text, op: Operation, phase: SessionPhase)
    requires k !in t.pending
    ensures ConnectionTimed(t, phase) ==> ConnectionTimed(t.(pending := t.pending[k := op]), phase)
  {
    if ConnectionTimed(t, phase) {
      StillTimed(t, t.(pending := t.pending[k := op]), phase, k, op);
    }
  }

  lemma HeldStatus(t: Table, a: Attempt)
    requires t.status.None?
    ensures Held(t.(status := Some(a))) == Held(t) + multiset{a.promise}
  {
    hide TurnHeld;
  }

  lemma TimedStatus(t: Table, a: Attempt, session: Option<Text>)
    requires Timed(t, session) && Expects(t.pending, a.request, StatusRead) && session == Some(a.session)
    ensures Timed(t.(status := Some(a)), session)
  {
    hide TurnTimed, Expects;
  }

  lemma StatusAnswers(t: Table, a: Attempt, k: Text, op: Operation, session: Option<Text>)
    requires t.status.None? && Answers(t, k, op, session)
    ensures Answers(t.(status := Some(a)), k, op, session)
  {
  }

  lemma StatusHeld(s: State, n: State, k: Text, limits: Limits)
    requires Sound(s, limits) && CanReserve(s, k, limits) && !InUse(s, k) && s.status.None? && s.session.Some?
             && s.phase == Ready
    requires n == Reserve(Promise(s).(status := Some(Attempt(s.nextPromise, k, s.session.value))), k,
                          Operation(StatusRead, s.session.value, []))
    ensures Sound(n, limits)
  {
    hide Held, Generations, Leased, Catalogued, Correlated, Timed, ConnectionTimed, Accounted;
    var op, a := Operation(StatusRead, s.session.value, []), Attempt(s.nextPromise, k, s.session.value);
    var t := TableOf(s);
    var u := t.(status := Some(a));
    HeldStatus(t, a);
    HeldPending(u, t.pending[k := op]);
    PromiseMade(s, Held(t));
    forall j | j in t.pending && Answers(t, j, t.pending[j], s.session) ensures Answers(u, j, t.pending[j], s.session) {
      StatusAnswers(t, a, j, t.pending[j], s.session);
    }
    PendingAnswers(u, t.pending[k := op]);
    CorrelatedInsert(t, TableOf(n), k, op, s.session, s.session, limits.maxPending);
    TimedInsert(t, k, op, s.session);
    TimedStatus(t.(pending := t.pending[k := op]), a, s.session);
    ConnectionTimedInsert(t, k, op, s.phase);
    SameConnection(t.(pending := t.pending[k := op]), TableOf(n), s.phase);
    hide Answers;
    HoldSound(s, n, limits);
  }

  lemma HeldPending(t: Table, pending: map<Text, Operation>)
    ensures Held(t.(pending := pending)) == Held(t)
  {
  }

  lemma PendingAnswers(t: Table, pending: map<Text, Operation>)
    ensures forall k, op, session :: Answers(t.(pending := pending), k, op, session) <==> Answers(t, k, op, session)
  {
  }

  lemma SameConnection(t: Table, u: Table, phase: SessionPhase)
    requires u.pending == t.pending && u.connection == t.connection
    ensures ConnectionTimed(t, phase) <==> ConnectionTimed(u, phase)
  {
  }

  lemma HeldActivity(t: Table, a: Attempt)
    requires t.activity.None?
    ensures Held(t.(activity := Some(a))) == Held(t) + multiset{a.promise}
  {
    hide TurnHeld;
  }

  lemma TimedActivity(t: Table, a: Attempt, session: Option<Text>)
    requires Timed(t, session) && Expects(t.pending, a.request, ActivityNote) && session == Some(a.session)
    ensures Timed(t.(activity := Some(a)), session)
  {
    hide TurnTimed, Expects;
  }

  lemma ActivityAnswers(t: Table, a: Attempt, k: Text, op: Operation, session: Option<Text>)
    requires t.activity.None? && Answers(t, k, op, session)
    ensures Answers(t.(activity := Some(a)), k, op, session)
  {
  }

  lemma NoteSound(s: State, stale: bool, sending: Sending, limits: Limits)
    requires Sound(s, limits)
    ensures Sound(NoteOp(s, stale, sending, limits), limits)
  {
    hide Sound, Send, Settle;
    if && Drawn(s, sending).Some? && s.lease.Some? && s.phase == Ready && s.session.Some? && s.activity.None?
      && !s.closed
       && !stale && s.agent.Some?
    {
      var k := sending.request.value;
      if CanReserve(s, k, limits) {
        var n := Reserve(Promise(s).(activity := Some(Attempt(s.nextPromise, k, s.session.value))), k,
                         Operation(ActivityNote, s.session.value, []));
        ActivityHeld(s, n, k, limits);
        SendSound(n, sending.throws, limits);
      } else {
        PromiseDropped(s, limits);
      }
    }
  }

  lemma ActivityHeld(s: State, n: State, k: Text, limits: Limits)
    requires Sound(s, limits) && CanReserve(s, k, limits) && !InUse(s, k) && s.activity.None? && s.session.Some?
             && s.phase == Ready
    requires n == Reserve(Promise(s).(activity := Some(Attempt(s.nextPromise, k, s.session.value))), k,
                          Operation(ActivityNote, s.session.value, []))
    ensures Sound(n, limits)
  {
    hide Held, Generations, Leased, Catalogued, Correlated, Timed, ConnectionTimed, Accounted;
    var op, a := Operation(ActivityNote, s.session.value, []), Attempt(s.nextPromise, k, s.session.value);
    var t := TableOf(s);
    var u := t.(activity := Some(a));
    HeldActivity(t, a);
    HeldPending(u, t.pending[k := op]);
    PromiseMade(s, Held(t));
    forall j | j in t.pending && Answers(t, j, t.pending[j], s.session) ensures Answers(u, j, t.pending[j], s.session) {
      ActivityAnswers(t, a, j, t.pending[j], s.session);
    }
    PendingAnswers(u, t.pending[k := op]);
    CorrelatedInsert(t, TableOf(n), k, op, s.session, s.session, limits.maxPending);
    TimedInsert(t, k, op, s.session);
    TimedActivity(t.(pending := t.pending[k := op]), a, s.session);
    ConnectionTimedInsert(t, k, op, s.phase);
    SameConnection(t.(pending := t.pending[k := op]), TableOf(n), s.phase);
    hide Answers;
    HoldSound(s, n, limits);
  }
}
