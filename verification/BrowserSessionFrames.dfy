/**
  Every frame, delivery and timer keeps the coordinator's invariant, and so does every run.
 */
module BrowserSessionFrames {
  import opened Results
  import opened Utf16
  import opened BrowserSession
  import opened BrowserSessionInvariant
  import opened BrowserSessionCommands

  // ----- frames keep it -----

  /** A handler that returns leaves a sound coordinator; one that throws may leave the connection without a timer. */
  ghost predicate Handles(s: State, o: Effect, limits: Limits) {
    && Nearly(o.state, limits) && (!o.threw ==> ConnectionTimed(TableOf(o.state), o.state.phase))
    && (o.state.lease == s.lease || o.state.lease.None?) && o.state.receiving == s.receiving
    && o.state.nextLease == s.nextLease
  }

  lemma SoundHandles(s: State, n: State, threw: bool, limits: Limits)
    requires Sound(n, limits) && !Doomed(n.lease, n.receiving) && n.receiving == s.receiving
    requires (n.lease == s.lease || n.lease.None?) && n.nextLease == s.nextLease
    ensures Handles(s, Effect(n, threw), limits)
  {
    hide Nearly, ConnectionTimed;
  }

  lemma TimedAnswered(t: Table, k: Text, session: Option<Text>)
    requires Timed(t, session) && k in t.pending && (t.pending[k].kind == Connect || t.pending[k].kind == Capabilities)
    ensures Timed(t.(pending := t.pending - {k}), session)
  {
  }

  lemma AnsweredNearly(s: State, k: Text, limits: Limits)
    requires Nearly(s, limits) && k in s.pending && (s.pending[k].kind == Connect || s.pending[k].kind == Capabilities)
    ensures Nearly(Answered(s, k), limits)
  {
    hide Held, Generations, Leased, Accounted, Catalogued, Correlated, Timed;
    var t := TableOf(s);
    HeldPending(t, t.pending - {k});
    PendingAnswers(t, t.pending - {k});
    CorrelatedRemove(t, t.(pending := t.pending - {k}), {k}, s.session, limits.maxPending);
    TimedAnswered(t, k, s.session);
  }

  lemma PhaseNearly(s: State, phase: SessionPhase, limits: Limits)
    requires Nearly(s, limits) && s.phase == Connecting && phase == Discovering
    ensures Nearly(s.(phase := phase), limits)
  {
    hide Held, Generations, Leased, Accounted, Catalogued, Correlated, Timed;
  }

  lemma DiscoveringSound(s: State, k: Text, op: Operation, limits: Limits)
    requires Nearly(s, limits) && CanReserve(s, k, limits) && !InUse(s, k) && s.phase == Discovering
    requires op.kind == Capabilities && s.session == Some(op.session)
    ensures Sound(Reserve(s, k, op), limits)
  {
    hide Held, Generations, Leased, Accounted, Catalogued, Correlated, Timed;
    var t := TableOf(s);
    HeldPending(t, t.pending[k := op]);
    PendingAnswers(t, t.pending[k := op]);
    CorrelatedInsert(t, t.(pending := t.pending[k := op]), k, op, s.session, s.session, limits.maxPending);
    TimedInsert(t, k, op, s.session);
    assert Expects(t.pending[k := op], k, ConnectionKind(Discovering));
  }

  lemma ConnectedSound(s: State, f: Frame, limits: Limits)
    requires f.SessionConnected? && Nearly(s, limits) && ConnectionTimed(TableOf(s), s.phase)
    requires !Doomed(s.lease, s.receiving)
    ensures Handles(s, ConnectedFrame(s, f, limits), limits)
  {
    hide Nearly, ConnectionTimed, Send;
    if && Expects(s.pending, f.request, Connect) && Identified(s, s.pending[f.request].session, f.session)
       && (s.phase == Connecting || s.phase == Disconnecting)
    {
      var answered := Answered(s, f.request);
      AnsweredNearly(s, f.request, limits);
      if s.phase == Disconnecting {
        NoConnection(answered, limits);
      } else if Drawn(answered, f.next).Some? {
        var discovering := answered.(phase := Discovering);
        PhaseNearly(answered, Discovering, limits);
        var k := f.next.request.value;
        if CanReserve(answered, k, limits) {
          var op := Operation(Capabilities, f.session, []);
          DiscoveringSound(discovering, k, op, limits);
          SentHandles(s, Reserve(discovering, k, op), f.next.throws, limits);
        }
      }
    }
  }

  /** Off the connecting phases there is no connection to time. */
  lemma NoConnection(s: State, limits: Limits)
    requires Nearly(s, limits) && s.phase != Connecting && s.phase != Discovering
    ensures ConnectionTimed(TableOf(s), s.phase)
  {
    hide Core, Catalogued, Correlated, Timed;
  }

  lemma SentHandles(s: State, n: State, throws: bool, limits: Limits)
    requires Sound(n, limits) && !Doomed(n.lease, n.receiving) && n.receiving == s.receiving
    requires (n.lease == s.lease || n.lease.None?) && n.nextLease == s.nextLease
    ensures Handles(s, Fine(Send(n, throws)), limits)
  {
    hide Nearly, ConnectionTimed, Teardown;
    SendSound(n, throws, limits);
    SoundCore(n, limits);
    if throws {
      TeardownSound(n, limits);
      TeardownLeaves(n);
    }
    SoundHandles(s, Send(n, throws), false, limits);
  }

  lemma TeardownLeaves(s: State)
    requires Core(s)
    ensures var n := Teardown(s);
            && n.receiving == s.receiving && n.nextLease == s.nextLease && n.installed == s.installed
               && n.closed == s.closed
            && n.lease.None? && n.lost == s.lost && n.nextPromise == s.nextPromise
  {
    hide Held, Generations, Accounted, Reset;
    ResetSettles(s.(lease := None));
  }

  // ----- capabilities -----

  lemma InstallCatalogued(s: State, revision: Text, fingerprint: Text, limits: Limits)
    requires Generations(s.installed, s.nextGeneration, s.epoch) && s.session.Some?
    requires Catalogued(s.installed, s.epoch, s.session, s.revisions, s.snapshot)
    requires !Install(s, revision, fingerprint, limits).threw
    ensures var n := Install(s, revision, fingerprint, limits).state;
            && Generations(n.installed, n.nextGeneration, n.epoch)
            && Catalogued(n.installed, n.epoch, n.session, n.revisions, n.snapshot) && n.snapshot.Some?
  {
    var n := Install(s, revision, fingerprint, limits).state;
    if n.installed != s.installed {
      var last := Installed(Snapshot(s.nextGeneration, s.session.value, revision, fingerprint), s.epoch);
      assert n.installed == s.installed + [last];
      forall i | 0 <= i < |s.installed| && s.installed[i].epoch == s.epoch
        && s.installed[i].snapshot.revision == revision
        ensures s.installed[i].snapshot.fingerprint == fingerprint
      {
        assert s.revisions[revision] == fingerprint;
      }
    }
  }

  lemma InstallFrame(s: State, revision: Text, fingerprint: Text, limits: Limits)
    ensures var o := Install(s, revision, fingerprint, limits);
            && (o.threw ==> o.state == s)
            && o.state == s.(revisions := o.state.revisions, snapshot := o.state.snapshot,
                             installed := o.state.installed,
                             nextGeneration := o.state.nextGeneration)
  {
  }

  lemma ChangedSound(s: State, f: Frame, limits: Limits)
    requires f.CapabilitiesChanged? && Nearly(s, limits) && ConnectionTimed(TableOf(s), s.phase)
    ensures Handles(s, ChangedFrame(s, f, limits), limits)
  {
    hide Held, Generations, Leased, Accounted, Catalogued, Correlated, Timed, ConnectionTimed, Install;
    InstallFrame(s, f.revision, f.fingerprint, limits);
    if s.session == Some(f.session) && s.phase == Ready && !Install(s, f.revision, f.fingerprint, limits).threw {
      InstallCatalogued(s, f.revision, f.fingerprint, limits);
    }
  }

  lemma CapabilitiesSound(s: State, f: Frame, limits: Limits)
    requires f.CapabilitiesResult? && Nearly(s, limits) && ConnectionTimed(TableOf(s), s.phase)
    requires !Doomed(s.lease, s.receiving)
    ensures Handles(s, CapabilitiesFrame(s, f, limits), limits)
  {
    hide Nearly, ConnectionTimed, Install, RefreshOp, Settle;
    if && Expects(s.pending, f.request, Capabilities) && Identified(s, s.pending[f.request].session, f.session)
       && (s.phase == Discovering || s.phase == Disconnecting)
    {
      var answered := Answered(s, f.request);
      AnsweredNearly(s, f.request, limits);
      InstallFrame(answered, f.revision, f.fingerprint, limits);
      if s.phase == Disconnecting {
        NoConnection(answered, limits);
      } else if !Install(answered, f.revision, f.fingerprint, limits).threw {
        ConnectionThere(answered, limits);
        var ready := Install(answered, f.revision, f.fingerprint, limits).state.(phase := Ready);
        var settled := Settle(ready.(connection := None), Some(s.connection.value.promise));
        ReadySound(answered, f, ready, settled, limits);
        RefreshSound(settled, f.next, limits);
        RefreshLeaves(settled, f.next, limits);
        SoundHandles(s, RefreshOp(settled, f.next, limits), false, limits);
      }
    }
  }

  lemma ConnectionThere(s: State, limits: Limits)
    requires Nearly(s, limits) && s.phase == Discovering
    ensures s.connection.Some? && s.session == Some(s.connection.value.session) && s.snapshot.None?
  {
    hide Core, Catalogued, Correlated, Timed;
  }

  lemma TimedUnconnected(t: Table, session: Option<Text>, maxPending: nat)
    requires Timed(t, session) && Correlated(t, session, maxPending)
    ensures Timed(t.(connection := None), session) && Correlated(t.(connection := None), session, maxPending)
  {
    hide TurnTimed;
    forall k | k in t.pending ensures Answers(t.(connection := None), k, t.pending[k], session) {
      assert Answers(t, k, t.pending[k], session);
    }
  }

  lemma ReadySound(s: State, f: Frame, ready: State, settled: State, limits: Limits)
    requires f.CapabilitiesResult? && Nearly(s, limits) && s.phase == Discovering && s.connection.Some?
    requires !Install(s, f.revision, f.fingerprint, limits).threw
    requires ready == Install(s, f.revision, f.fingerprint, limits).state.(phase := Ready)
    requires settled == Settle(ready.(connection := None), Some(s.connection.value.promise))
    ensures Sound(settled, limits) && settled.lease == s.lease && settled.receiving == s.receiving
    ensures settled.nextLease == s.nextLease
  {
    hide Held, Generations, Leased, Accounted, Catalogued, Correlated, Timed, Install, Settle;
    InstallFrame(s, f.revision, f.fingerprint, limits);
    InstallCatalogued(s, f.revision, f.fingerprint, limits);
    var t := TableOf(s);
    ConnectionSettled(s, ready, settled);
    TimedUnconnected(t, s.session, limits.maxPending);
    assert TableOf(settled) == t.(connection := None);
  }

  lemma ConnectionSettled(s: State, ready: State, settled: State)
    requires s.connection.Some? && Accounted(s.unsettled, Held(TableOf(s)), s.lost, s.nextPromise) && !s.repeated
    requires ready.connection == s.connection && TableOf(ready) == TableOf(s) && ready.unsettled == s.unsettled
    requires ready.lost == s.lost && ready.nextPromise == s.nextPromise && !ready.repeated
    requires settled == Settle(ready.(connection := None), Some(s.connection.value.promise))
    ensures settled == ready.(connection := None, unsettled := settled.unsettled)
    ensures Accounted(settled.unsettled, Held(TableOf(s).(connection := None)), s.lost, s.nextPromise)
  {
    hide Held, Settle, One;
    HeldConnection(TableOf(s));
    SettleOne(ready.(connection := None), ConnectionOf(s.connection),
              Held(TableOf(s).(connection := None)) + multiset(s.lost));
  }

  lemma RefreshLeaves(s: State, sending: Sending, limits: Limits)
    requires Sound(s, limits)
    ensures var n := RefreshOp(s, sending, limits);
            n.receiving == s.receiving && n.nextLease == s.nextLease && (n.lease == s.lease || n.lease.None?)
  {
    hide Nearly, ConnectionTimed, Teardown, Doomed;
    if && Drawn(s, sending).Some? && s.lease.Some? && s.phase == Ready && s.session.Some? && s.status.None? && !s.closed
       && CanReserve(s, sending.request.value, limits)
    {
      var k := sending.request.value;
      var n := Reserve(Promise(s).(status := Some(Attempt(s.nextPromise, k, s.session.value))), k,
                       Operation(StatusRead, s.session.value, []));
      StatusHeld(s, n, k, limits);
      SoundCore(n, limits);
      TeardownLeaves(n);
    }
  }

  // ----- status and activity reports -----

  lemma HeldNoStatus(t: Table)
    ensures Held(t) == One(PromiseOf(t.status)) + Held(t.(status := None))
  {
    hide TurnHeld;
  }

  lemma HeldNoActivity(t: Table)
    ensures Held(t) == One(PromiseOf(t.activity)) + Held(t.(activity := None))
  {
    hide TurnHeld;
  }

  /** A promise leaves its holder: it is settled, or lost. */
  lemma Release(s: State, p: nat, rest: multiset<nat>)
    requires Accounted(s.unsettled, One(Some(p)) + rest, s.lost, s.nextPromise) && !s.repeated
    ensures var n := Settle(s, Some(p));
            n == s.(unsettled := n.unsettled) && Accounted(n.unsettled, rest, s.lost, s.nextPromise)
    ensures Accounted(s.unsettled, rest, s.lost + {p}, s.nextPromise) && p !in s.lost
  {
    var all := multiset{p} + rest + multiset(s.lost);
    assert multiset(s.unsettled) == all;
    assert all[p] >= 1 && multiset(s.unsettled)[p] <= 1;
    assert p !in s.lost;
    assert multiset(s.lost + {p}) == multiset(s.lost) + multiset{p};
    SettleOne(s, Some(p), rest + multiset(s.lost));
  }

  lemma TimedNoStatus(t: Table, k: Text, session: Option<Text>, maxPending: nat)
    requires Timed(t, session) && Correlated(t, session, maxPending)
    requires k in t.pending && t.pending[k].kind == StatusRead
    ensures var u := t.(status := None, pending := t.pending - {k});
            Timed(u, session) && Correlated(u, session, maxPending)
  {
    var u := t.(status := None, pending := t.pending - {k});
    assert Answers(t, k, t.pending[k], session);
    forall j | j in u.pending && Answers(t, j, t.pending[j], session) ensures Answers(u, j, t.pending[j], session) {
    }
    CorrelatedRemove(t, u, {k}, session, maxPending);
  }

  lemma TimedNoActivity(t: Table, k: Text, session: Option<Text>, maxPending: nat)
    requires Timed(t, session) && Correlated(t, session, maxPending)
    requires k in t.pending && t.pending[k].kind == ActivityNote
    ensures var u := t.(activity := None, pending := t.pending - {k});
            Timed(u, session) && Correlated(u, session, maxPending)
  {
    var u := t.(activity := None, pending := t.pending - {k});
    assert Answers(t, k, t.pending[k], session);
    forall j | j in u.pending && Answers(t, j, t.pending[j], session) ensures Answers(u, j, t.pending[j], session) {
    }
    CorrelatedRemove(t, u, {k}, session, maxPending);
  }

  lemma ConnectionKept(t: Table, u: Table, k: Text, phase: SessionPhase)
    requires ConnectionTimed(t, phase) && u.pending == t.pending - {k} && u.connection == t.connection
    requires k in t.pending && t.pending[k].kind != Connect && t.pending[k].kind != Capabilities
    ensures ConnectionTimed(u, phase)
  {
    if t.connection.Some? {
      var j :| Expects(t.pending, j, ConnectionKind(phase));
      assert Expects(u.pending, j, ConnectionKind(phase));
    }
  }

  /** The state after a status attempt has been answered, whatever becomes of its promise. */
  lemma StatusAnswered(s: State, k: Text, n: State, limits: Limits)
    requires Nearly(s, limits) && ConnectionTimed(TableOf(s), s.phase) && Expects(s.pending, k, StatusRead)
    requires s.status.Some?
    requires n == s.(pending := s.pending - {k}, status := None, agent := n.agent, unsettled := n.unsettled,
                     lost := n.lost)
    requires Accounted(n.unsettled, Held(TableOf(s).(status := None)), n.lost, n.nextPromise)
    ensures Nearly(n, limits) && ConnectionTimed(TableOf(n), n.phase)
  {
    hide Held, Generations, Leased, Accounted, Catalogued, Correlated, Timed, ConnectionTimed;
    var t := TableOf(s);
    HeldPending(t.(status := None), s.pending - {k});
    TimedNoStatus(t, k, s.session, limits.maxPending);
    ConnectionKept(t, TableOf(n), k, s.phase);
    assert TableOf(n) == t.(status := None, pending := t.pending - {k});
  }

  lemma ActivityAnswered(s: State, k: Text, n: State, limits: Limits)
    requires Nearly(s, limits) && ConnectionTimed(TableOf(s), s.phase) && Expects(s.pending, k, ActivityNote)
    requires s.activity.Some?
    requires n == s.(pending := s.pending - {k}, activity := None, agent := n.agent, unsettled := n.unsettled,
                     lost := n.lost)
    requires Accounted(n.unsettled, Held(TableOf(s).(activity := None)), n.lost, n.nextPromise)
    ensures Nearly(n, limits) && ConnectionTimed(TableOf(n), n.phase)
  {
    hide Held, Generations, Leased, Accounted, Catalogued, Correlated, Timed, ConnectionTimed;
    var t := TableOf(s);
    HeldPending(t.(activity := None), s.pending - {k});
    TimedNoActivity(t, k, s.session, limits.maxPending);
    ConnectionKept(t, TableOf(n), k, s.phase);
    assert TableOf(n) == t.(activity := None, pending := t.pending - {k});
  }

  lemma StatusReleased(s: State, k: Text, agent: Option<Agent>, limits: Limits)
    requires Nearly(s, limits) && ConnectionTimed(TableOf(s), s.phase) && Expects(s.pending, k, StatusRead)
    requires s.status.Some?
    ensures var p, answered := s.status.value.promise, Answered(s, k).(status := None);
            && Handles(s, Violation(Lose(answered, p)), limits) && p !in s.lost
            && Handles(s, Fine(Settle(answered.(agent := agent), Some(p))), limits)
            && Settle(answered.(agent := agent), Some(p)).lost == s.lost
  {
    hide Held, Nearly, ConnectionTimed, Settle;
    var p, answered := s.status.value.promise, Answered(s, k).(status := None);
    NearlyAccounted(s, limits);
    HeldNoStatus(TableOf(s));
    Release(s, p, Held(TableOf(s).(status := None)));
    Release(answered.(agent := agent), p, Held(TableOf(s).(status := None)));
    StatusAnswered(s, k, Lose(answered, p), limits);
    StatusAnswered(s, k, Settle(answered.(agent := agent), Some(p)), limits);
  }

  lemma ActivityReleased(s: State, k: Text, agent: Option<Agent>, limits: Limits)
    requires Nearly(s, limits) && ConnectionTimed(TableOf(s), s.phase) && Expects(s.pending, k, ActivityNote)
    requires s.activity.Some?
    ensures var p, answered := s.activity.value.promise, Answered(s, k).(activity := None);
            && Handles(s, Violation(Lose(answered, p)), limits) && p !in s.lost
            && Handles(s, Fine(Settle(answered.(agent := agent), Some(p))), limits)
            && Settle(answered.(agent := agent), Some(p)).lost == s.lost
  {
    hide Held, Nearly, ConnectionTimed, Settle;
    var p, answered := s.activity.value.promise, Answered(s, k).(activity := None);
    NearlyAccounted(s, limits);
    HeldNoActivity(TableOf(s));
    Release(s, p, Held(TableOf(s).(activity := None)));
    Release(answered.(agent := agent), p, Held(TableOf(s).(activity := None)));
    ActivityAnswered(s, k, Lose(answered, p), limits);
    ActivityAnswered(s, k, Settle(answered.(agent := agent), Some(p)), limits);
  }

  lemma NearlyAccounted(s: State, limits: Limits)
    requires Nearly(s, limits)
    ensures !s.repeated && Accounted(s.unsettled, Held(TableOf(s)), s.lost, s.nextPromise)
  {
    hide Held, Generations, Leased, Accounted, Catalogued, Correlated, Timed, Structured;
  }

  /** Nothing but a status report changes. */
  lemma AgentHandles(s: State, agent: Option<Agent>, threw: bool, limits: Limits)
    requires Nearly(s, limits) && ConnectionTimed(TableOf(s), s.phase)
    ensures Handles(s, Effect(s.(agent := agent), threw), limits)
  {
    hide Held, Generations, Leased, Accounted, Catalogued, Correlated, Timed, ConnectionTimed, Structured;
  }

  // ----- turn frames -----

  lemma HeldOtherTurn(t: Table, turn: Turn, after: Turn, p: nat)
    requires t.turn == Some(turn) && TurnHeld(Some(turn)) == One(Some(p)) + TurnHeld(Some(after))
    ensures Held(t) == One(Some(p)) + Held(t.(turn := Some(after)))
  {
    hide One, TurnHeld, Held;
    var u := t.(turn := Some(after));
    assert u.(turn := None) == t.(turn := None);
    HeldWithoutTurn(t);
    HeldWithoutTurn(u);
  }

  lemma HeldStarted(t: Table, turn: Turn, after: Turn)
    requires t.turn == Some(turn) && !turn.acknowledged
    requires after == turn.(acknowledged := true, phase := after.phase, timer := true)
    ensures Held(t) == One(Some(turn.started)) + Held(t.(turn := Some(after)))
  {
    hide Held;
    HeldOtherTurn(t, turn, after, turn.started);
  }

  lemma HeldCancelled(t: Table, turn: Turn, phase: TurnPhase)
    requires t.turn == Some(turn) && turn.cancel.Some?
    ensures Held(t) == One(Some(turn.cancel.value.promise)) + Held(t.(turn := Some(turn.(cancel := None,
            phase := phase))))
  {
    hide Held;
    HeldOtherTurn(t, turn, turn.(cancel := None, phase := phase), turn.cancel.value.promise);
  }

  lemma StartedTimed(t: Table, turn: Turn, after: Turn, k: Text, session: Option<Text>, maxPending: nat)
    requires Timed(t, session) && Correlated(t, session, maxPending) && t.turn == Some(turn) && !turn.acknowledged
    requires Expects(t.pending, k, TurnStart) && k == turn.startRequest
    requires after == turn.(acknowledged := true, phase := after.phase, timer := true)
    requires after.phase == if turn.phase == Cancelling then Cancelling else Streaming
    ensures var u := t.(turn := Some(after), pending := t.pending - {k});
            Timed(u, session) && Correlated(u, session, maxPending)
  {
    var u := t.(turn := Some(after), pending := t.pending - {k});
    forall j | j in u.pending && Answers(t, j, t.pending[j], session) ensures Answers(u, j, t.pending[j], session) {
      assert t.pending[j].kind != TurnStart;
    }
    CorrelatedRemove(t, u, {k}, session, maxPending);
  }

  lemma StartedAnswer(s: State, k: Text, limits: Limits)
    requires Nearly(s, limits) && Expects(s.pending, k, TurnStart)
    ensures s.turn.Some? && s.turn.value.startRequest == k && !s.turn.value.acknowledged
  {
    hide Core, Catalogued, Timed, Structured;
    assert Answers(TableOf(s), k, s.pending[k], s.session);
  }

  lemma StartedSound(s: State, f: Frame, limits: Limits)
    requires f.TurnStarted? && Nearly(s, limits) && ConnectionTimed(TableOf(s), s.phase)
    ensures Handles(s, StartedFrame(s, f), limits)
  {
    hide Held, Nearly, ConnectionTimed, Settle;
    if && Names(s, f.session, f.turn) && Expects(s.pending, f.request, TurnStart)
       && s.pending[f.request].session == f.session && s.pending[f.request].turn == f.turn
          && s.turn.value.phase != Streaming
    {
      var turn := s.turn.value;
      var phase := if turn.phase == Cancelling then Cancelling else Streaming;
      var after := turn.(acknowledged := true, phase := phase, timer := true);
      var answered := Answered(s, f.request);
      StartedAnswer(s, f.request, limits);
      NearlyAccounted(s, limits);
      HeldStarted(TableOf(s), turn, after);
      Release(answered, turn.started, Held(TableOf(s).(turn := Some(after))));
      TurnAcknowledged(s, turn, after, f.request, Settle(answered, Some(turn.started)).(turn := Some(after)), limits);
    }
  }

  lemma TurnAcknowledged(s: State, turn: Turn, after: Turn, k: Text, n: State, limits: Limits)
    requires Nearly(s, limits) && ConnectionTimed(TableOf(s), s.phase) && s.turn == Some(turn) && !turn.acknowledged
    requires Expects(s.pending, k, TurnStart) && k == turn.startRequest
    requires after == turn.(acknowledged := true, phase := after.phase, timer := true)
    requires after.phase == if turn.phase == Cancelling then Cancelling else Streaming
    requires n == s.(pending := s.pending - {k}, turn := Some(after), unsettled := n.unsettled)
    requires Accounted(n.unsettled, Held(TableOf(s).(turn := Some(after))), n.lost, n.nextPromise)
    ensures Handles(s, Fine(n), limits)
  {
    hide Held, Generations, Leased, Accounted, Catalogued, Correlated, Timed, ConnectionTimed;
    var t := TableOf(s);
    HeldPending(t.(turn := Some(after)), s.pending - {k});
    StartedTimed(t, turn, after, k, s.session, limits.maxPending);
    ConnectionKept(t, TableOf(n), k, s.phase);
    assert TableOf(n) == t.(turn := Some(after), pending := t.pending - {k});
  }

  lemma EndedHandles(s: State, n: State, limits: Limits)
    requires Sound(s, limits) && s.turn.Some? && !Doomed(s.lease, s.receiving)
    requires n == EndTurn(s)
    ensures Handles(s, Fine(n), limits)
  {
    hide Nearly, ConnectionTimed, EndTurn, Held, Doomed;
    EndTurnSound(s, limits);
    NearlyAccounted(s, limits);
    HeldWithoutTurn(TableOf(s));
    EndTurnSettles(s, Held(TableOf(s).(turn := None)) + multiset(s.lost));
    SoundHandles(s, n, false, limits);
  }

  // ----- remote errors -----

  lemma AnsweredCore(s: State, k: Text)
    requires Core(s)
    ensures Core(Answered(s, k))
  {
    hide Held, Generations, Leased, Accounted;
    HeldPending(TableOf(s), s.pending - {k});
  }

  lemma TornDown(s: State, n: State, limits: Limits)
    requires Core(n) && n.receiving == s.receiving && n.nextLease == s.nextLease
    ensures Handles(s, Fine(Teardown(n)), limits)
  {
    hide Nearly, ConnectionTimed, Teardown, Core;
    TeardownSound(n, limits);
    TeardownLeaves(n);
    SoundHandles(s, Teardown(n), false, limits);
  }

  lemma EndAfterAnswer(s: State, k: Text)
    requires s.turn.Some? && k == s.turn.value.startRequest
    ensures EndTurn(Answered(s, k)) == EndTurn(s)
  {
    var keys := TurnRequests(s.turn.value);
    assert s.pending - {k} - keys == s.pending - keys;
  }

  lemma CancelRejectedTimed(t: Table, turn: Turn, k: Text, session: Option<Text>, maxPending: nat)
    requires Timed(t, session) && Correlated(t, session, maxPending) && t.turn == Some(turn) && turn.cancel.Some?
    requires k == turn.cancel.value.request && !turn.cancel.value.timedOut
    ensures var u := t.(turn := Some(turn.(cancel := None, phase := turn.cancel.value.previous)),
                        pending := t.pending - {k});
            Timed(u, session) && Correlated(u, session, maxPending)
  {
    var u := t.(turn := Some(turn.(cancel := None, phase := turn.cancel.value.previous)), pending := t.pending - {k});
    forall j | j in u.pending && Answers(t, j, t.pending[j], session) ensures Answers(u, j, t.pending[j], session) {
    }
    CorrelatedRemove(t, u, {k}, session, maxPending);
  }

  lemma CancelRejected(s: State, k: Text, limits: Limits)
    requires Nearly(s, limits) && ConnectionTimed(TableOf(s), s.phase) && Expects(s.pending, k, TurnCancel)
    requires s.turn.Some? && s.turn.value.cancel.Some? && s.turn.value.cancel.value.request == k
    requires !s.turn.value.cancel.value.timedOut
    ensures var t, c := s.turn.value, s.turn.value.cancel.value;
            var n := Settle(Answered(s, k).(turn := Some(t.(cancel := None, phase := c.previous))), Some(c.promise));
            Handles(s, Fine(n), limits) && n.lost == s.lost
  {
    hide Held, Generations, Leased, Accounted, Catalogued, Correlated, Timed, ConnectionTimed, Settle;
    var turn, c := s.turn.value, s.turn.value.cancel.value;
    var after := turn.(cancel := None, phase := c.previous);
    var t := TableOf(s);
    var left := Answered(s, k).(turn := Some(after));
    HeldCancelled(t, turn, c.previous);
    HeldPending(t.(turn := Some(after)), s.pending - {k});
    Release(left, c.promise, Held(t.(turn := Some(after))));
    var n := Settle(left, Some(c.promise));
    CancelRejectedTimed(t, turn, k, s.session, limits.maxPending);
    ConnectionKept(t, TableOf(n), k, s.phase);
    assert TableOf(n) == t.(turn := Some(after), pending := t.pending - {k});
  }

  /** The attempt of a timed-out turn is dropped unsettled before the transport ends. */
  lemma CancelLost(s: State, k: Text, limits: Limits)
    requires Nearly(s, limits) && s.turn.Some? && s.turn.value.cancel.Some?
    ensures var t, c := s.turn.value, s.turn.value.cancel.value;
            var n := Lose(Answered(s, k), c.promise).(turn := Some(t.(cancel := None)));
            Core(n) && Handles(s, Fine(Teardown(n)), limits) && c.promise !in s.lost
  {
    hide Held, Generations, Leased, Accounted, Catalogued, Correlated, Timed, Structured, ConnectionTimed, Teardown;
    var turn, c := s.turn.value, s.turn.value.cancel.value;
    var after := turn.(cancel := None);
    var t := TableOf(s);
    HeldCancelled(t, turn, turn.phase);
    assert turn.(cancel := None, phase := turn.phase) == after;
    HeldPending(t.(turn := Some(after)), s.pending - {k});
    Release(s, c.promise, Held(t.(turn := Some(after))));
    var n := Lose(Answered(s, k), c.promise).(turn := Some(after));
    assert TableOf(n) == t.(turn := Some(after), pending := s.pending - {k});
    TornDown(s, n, limits);
  }

  /** Whatever is pending is answered to by its own attempt or turn. */
  lemma Owner(s: State, k: Text, limits: Limits)
    requires Nearly(s, limits) && k in s.pending
    ensures Answers(TableOf(s), k, s.pending[k], s.session)
    ensures s.turn.Some? && (s.pending[k].kind == TurnStart || s.pending[k].kind == TurnCancel) ==>
              Names(s, s.pending[k].session, s.pending[k].turn)
  {
    hide Core, Catalogued, Structured;
    assert Answers(TableOf(s), k, s.pending[k], s.session);
  }

  lemma ErrorSound(s: State, k: Text, limits: Limits)
    requires Nearly(s, limits) && ConnectionTimed(TableOf(s), s.phase) && !Doomed(s.lease, s.receiving)
    ensures Handles(s, ErrorFrame(s, k), limits)
  {
    hide Nearly, ConnectionTimed, Teardown, EndTurn, Settle, Core;
    if k in s.pending {
      Owner(s, k, limits);
      NearlyCore(s, limits);
      match s.pending[k].kind
      case StatusRead => StatusReleased(s, k, None, limits);
      case ActivityNote => ActivityReleased(s, k, None, limits);
      case TurnStart =>
        EndAfterAnswer(s, k);
        EndedHandles(s, EndTurn(s), limits);
      case TurnCancel =>
        if s.turn.value.cancel.value.timedOut {
          CancelLost(s, k, limits);
        } else {
          CancelRejected(s, k, limits);
        }
      case _ =>
        AnsweredCore(s, k);
        TornDown(s, Answered(s, k), limits);
    }
  }

  lemma NearlyCore(s: State, limits: Limits)
    requires Nearly(s, limits)
    ensures Core(s)
  {
    hide Core, Catalogued, Correlated, Timed, Structured;
  }

  // ----- deliveries -----

  lemma StaysHandles(s: State, threw: bool, limits: Limits)
    requires Nearly(s, limits) && ConnectionTimed(TableOf(s), s.phase)
    ensures Handles(s, Effect(s, threw), limits)
  {
    hide Nearly, ConnectionTimed;
  }

  lemma HandleSound(s: State, f: Frame, limits: Limits)
    requires Nearly(s, limits) && ConnectionTimed(TableOf(s), s.phase) && !Doomed(s.lease, s.receiving)
    ensures Handles(s, Handle(s, f, limits), limits)
  {
    hide Nearly, ConnectionTimed, ConnectedFrame, CapabilitiesFrame, ChangedFrame, StartedFrame, ErrorFrame, Handles,
      EndTurn, Reset, Settle, Doomed;
    StaysHandles(s, true, limits);
    StaysHandles(s, false, limits);
    match f
    case SessionConnected(_, _, _) => ConnectedSound(s, f, limits);
    case SessionDisconnected(_) => DisconnectedSound(s, limits);
    case CapabilitiesResult(_, _, _, _, _) => CapabilitiesSound(s, f, limits);
    case CapabilitiesChanged(_, _, _) => ChangedSound(s, f, limits);
    case StatusResult(request, _, agent) =>
      if Expects(s.pending, request, StatusRead) && s.status.Some? {
        StatusReleased(s, request, Some(agent), limits);
      }
    case StatusChanged(_, agent) => AgentHandles(s, Some(agent), false, limits);
    case ActivityResult(request, _, agent, _) =>
      if Expects(s.pending, request, ActivityNote) && s.activity.Some? {
        ActivityReleased(s, request, Some(agent), limits);
      }
    case TurnStarted(_, _, _) => StartedSound(s, f, limits);
    case TurnCompleted(_, _) =>
      if s.turn.Some? {
        EndedHandles(s, EndTurn(s), limits);
      }
    case TurnEnded(_, _) =>
      if s.turn.Some? {
        EndedHandles(s, EndTurn(s), limits);
      }
    case RemoteError(request) => ErrorSound(s, request, limits);
    case TurnDelta(_, _) =>
    case Invalid =>
  }

  lemma DisconnectedSound(s: State, limits: Limits)
    requires Nearly(s, limits) && !Doomed(s.lease, s.receiving)
    ensures Handles(s, Fine(Reset(s)), limits)
  {
    hide Nearly, ConnectionTimed, Reset, Held, Generations, Accounted;
    NearlyCore(s, limits);
    ResetSound(s, limits);
    ResetSettles(s);
    SoundHandles(s, Reset(s), false, limits);
  }

  lemma ReceivingNearly(s: State, receiving: map<nat, Delivery>, limits: Limits)
    requires Nearly(s, limits) && forall l :: l in receiving ==> l < s.nextLease
    ensures Nearly(s.(receiving := receiving), limits)
  {
    hide Held, Generations, Accounted, Catalogued, Correlated, Timed, Structured;
  }

  lemma ReceivingBelow(s: State, limits: Limits)
    requires Nearly(s, limits)
    ensures (s.lease.Some? ==> s.lease.value < s.nextLease) && forall l :: l in s.receiving ==> l < s.nextLease
  {
    hide Held, Generations, Accounted, Catalogued, Correlated, Timed, Structured;
  }

  lemma Detached(s: State, limits: Limits)
    requires Nearly(s, limits) && s.lease.None?
    ensures ConnectionTimed(TableOf(s), s.phase)
  {
    hide Core, Catalogued, Correlated, Timed;
  }

  lemma DeliverSound(s: State, lease: nat, f: Frame, limits: Limits)
    requires Sound(s, limits)
    ensures Sound(DeliverOp(s, lease, f, limits), limits)
  {
    hide Nearly, ConnectionTimed, Handle, Teardown;
    if s.lease == Some(lease) {
      if lease in s.receiving {
        NearlyCore(s, limits);
        TeardownSound(s, limits);
      } else {
        HandleSound(s, f, limits);
        var o := Handle(s, f, limits);
        ReceivingBelow(s, limits);
        var n := DeliverOp(s, lease, f, limits);
        ReceivingNearly(o.state, n.receiving, limits);
        assert TableOf(n) == TableOf(o.state);
        if o.state.lease.None? {
          Detached(o.state, limits);
        }
      }
    }
  }

  lemma SinkSound(s: State, lease: nat, ok: bool, limits: Limits)
    requires Sound(s, limits)
    ensures Sound(SinkOp(s, lease, ok), limits)
  {
    hide Nearly, ConnectionTimed, Teardown;
    if lease in s.receiving && s.receiving[lease].InSink? {
      NearlyCore(s, limits);
      TeardownSound(s, limits);
      TeardownLeaves(s);
      ReceivingBelow(s, limits);
      var mine := s.turn.Some? && s.turn.value.completion == s.receiving[lease].completion;
      var after := if !ok && s.lease == Some(lease) && mine then Teardown(s) else s;
      var n := SinkOp(s, lease, ok);
      ReceivingNearly(after, n.receiving, limits);
      assert TableOf(n) == TableOf(after);
    }
  }

  lemma DeliveredSound(s: State, lease: nat, limits: Limits)
    requires Sound(s, limits)
    ensures Sound(DeliveredOp(s, lease), limits)
  {
    hide Nearly, ConnectionTimed, Teardown;
    if lease in s.receiving && s.receiving[lease].Handled? {
      NearlyCore(s, limits);
      TeardownSound(s, limits);
      TeardownLeaves(s);
      ReceivingBelow(s, limits);
      var after := if s.receiving[lease].threw && s.lease == Some(lease) then Teardown(s) else s;
      var n := DeliveredOp(s, lease);
      ReceivingNearly(after, n.receiving, limits);
      assert TableOf(n) == TableOf(after);
    }
  }

  lemma AttachSound(s: State, limits: Limits)
    requires Sound(s, limits)
    ensures Sound(Step(s, Attach, limits), limits)
  {
    hide Held, Generations, Accounted, Catalogued, Correlated, Timed;
  }

  lemma CloseSound(s: State, limits: Limits)
    requires Sound(s, limits)
    ensures Sound(Step(s, Close, limits), limits)
  {
    hide Held, Generations, Accounted, Catalogued, Correlated, Timed, ConnectionTimed, Structured, Reset, Sound;
    if !s.closed {
      var quiet := s.(lease := None, closed := true);
      assert Core(quiet) by {
        SoundCore(s, limits);
      }
      ResetSound(quiet, limits);
      assert s.(closed := true).(lease := None) == quiet;
    }
  }

  lemma StepSound(s: State, e: Event, limits: Limits)
    requires Sound(s, limits) && 1 <= limits.maxPending
    ensures Sound(Step(s, e, limits), limits)
  {
    hide Sound, Core, Teardown, ConnectOp, DisconnectOp, RefreshOp, NoteOp, StartTurnOp, CancelOp, DeliverOp, SinkOp,
      DeliveredOp, TurnTimeoutOp;
    SoundCore(s, limits);
    TeardownSound(s, limits);
    match e
    case Attach => AttachSound(s, limits);
    case Close => CloseSound(s, limits);
    case ConnectSession(session, sending) => ConnectSound(s, session, sending, limits);
    case DisconnectSession(sending) => DisconnectSound(s, sending, limits);
    case RefreshStatus(sending) => RefreshSound(s, sending, limits);
    case NoteActivity(stale, sending) => NoteSound(s, stale, sending, limits);
    case StartTurn(_, _, _, _, _, _) => StartTurnSound(s, e, limits);
    case CancelTurn(turn, sending) => CancelSound(s, turn, sending, limits);
    case Deliver(lease, frame) => DeliverSound(s, lease, frame, limits);
    case SinkDone(lease, ok) => SinkSound(s, lease, ok, limits);
    case Delivered(lease) => DeliveredSound(s, lease, limits);
    case TurnTimeout(completion, sending) => TimeoutSound(s, completion, sending, limits);
    case Detach(_) =>
    case SendFails(_) =>
    case CommandTimeout(_) =>
  }

  /** Under every interleaving of calls, frames, timers and failures. */
  lemma {:induction false} RunSound(s: State, events: seq<Event>, limits: Limits)
    requires Sound(s, limits) && 1 <= limits.maxPending
    ensures Sound(Run(s, events, limits), limits)
    decreases |events|
  {
    hide Sound, Step;
    if events != [] {
      StepSound(s, events[0], limits);
      RunSound(Step(s, events[0], limits), events[1..], limits);
    }
  }

  lemma BeginSound(limits: Limits)
    ensures Sound(Begin(), limits)
  {
    QuietHeld();
    assert TableOf(Begin()) == QUIET;
    QuietSound(Begin(), limits);
  }

  // ----- snapshots and routes, in every run -----

  /**
    A turn starts only for the snapshot installed last: generations never repeat, so a route
    taken from an earlier snapshot is refused for good, even if the catalog returns to its
    revision; and within a session a revision always names the same catalog.
   */
  lemma RoutesAreCurrent(events: seq<Event>, limits: Limits, wanted: TurnRequest, i: nat, j: nat)
    requires 1 <= limits.maxPending
    requires i < |Run(Begin(), events, limits).installed| && j < |Run(Begin(), events, limits).installed|
    ensures var s := Run(Begin(), events, limits);
            var a, b := s.installed[i], s.installed[j];
            && (a.snapshot.generation == b.snapshot.generation <==> i == j)
            && (a.epoch == b.epoch && a.snapshot.revision == b.snapshot.revision ==>
                  a.snapshot.fingerprint == b.snapshot.fingerprint)
            && (Current(s, wanted) && wanted.generation == a.snapshot.generation ==>
                  i == |s.installed| - 1 && wanted == TurnRequest(a.snapshot.session, i + 1, a.snapshot.revision))
  {
    hide Run, Held, Accounted, Leased, Correlated, Timed, ConnectionTimed, Structured;
    BeginSound(limits);
    RunSound(Begin(), events, limits);
  }
}
