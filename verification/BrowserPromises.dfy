/**
  What becomes of the promises that the coordinator hands out.
 */
module BrowserPromises {
  import opened Results
  import opened Utf16
  import opened BrowserSession
  import opened BrowserSessionInvariant
  import opened BrowserSessionFrames

  // ----- promises, in every run -----

  lemma MultisetOfSet(p: nat, all: set<nat>)
    ensures multiset(all)[p] == if p in all then 1 else 0
  {
  }

  /**
    In every run: no promise settles twice; an unsettled one is held exactly once or lost, and
    never both; its holder has a running timer, or the connection's is about to be ended by a
    failed frame; and once the transport is gone only lost promises are unsettled.
   */
  lemma PromisesAccounted(events: seq<Event>, limits: Limits, p: nat)
    requires 1 <= limits.maxPending
    ensures var s := Run(Begin(), events, limits);
            && !s.repeated
            && (p in s.unsettled ==> Held(TableOf(s))[p] == if p in s.lost then 0 else 1)
            && (p in Held(TableOf(s)) || p in s.lost ==> p in s.unsettled)
            && Timed(TableOf(s), s.session)
            && (ConnectionTimed(TableOf(s), s.phase) || Doomed(s.lease, s.receiving))
            && (s.lease.None? ==> s.unsettled == s.lost)
  {
    hide Run, Held, Generations, Leased, Catalogued, Correlated, Timed, ConnectionTimed, Doomed;
    BeginSound(limits);
    RunSound(Begin(), events, limits);
    var s := Run(Begin(), events, limits);
    MultisetOfSet(p, s.unsettled);
    MultisetOfSet(p, s.lost);
    assert (Held(TableOf(s)) + multiset(s.lost))[p] == Held(TableOf(s))[p] + multiset(s.lost)[p];
    if s.lease.None? {
      QuietHeld();
      assert TableOf(s) == QUIET;
      forall q ensures q in s.unsettled <==> q in s.lost {
        assert q in multiset(s.unsettled) <==> q in multiset(s.lost);
      }
    }
  }

  /**
    The promise an event drops unsettled: a correlated status or activity report that the
    installed status refuses, or an error for the cancellation of a timed-out turn.
   */
  function Dropped(s: State, e: Event): Option<nat> {
    if !e.Deliver? || s.lease != Some(e.lease) || e.lease in s.receiving then None
    else
      match e.frame
      case StatusResult(request, session, agent) =>
        if && Expects(s.pending, request, StatusRead) && Identified(s, s.pending[request].session, session)
           && s.status.Some? && s.status.value.request == request && s.status.value.session == session
           && Refuses(s.agent, agent)
        then Some(s.status.value.promise) else None
      case ActivityResult(request, session, agent, renews) =>
        if && Expects(s.pending, request, ActivityNote) && Identified(s, s.pending[request].session, session)
           && s.activity.Some? && s.activity.value.request == request && s.activity.value.session == session
           && renews && Refuses(s.agent, agent)
        then Some(s.activity.value.promise) else None
      case RemoteError(request) =>
        if && Expects(s.pending, request, TurnCancel) && Names(s, s.pending[request].session, s.pending[request].turn)
           && s.turn.value.cancel.Some? && s.turn.value.cancel.value.request == request
              && s.turn.value.cancel.value.timedOut
        then Some(s.turn.value.cancel.value.promise) else None
      case _ => None
  }

  function Only(p: Option<nat>): set<nat> {
    if p.Some? then {p.value} else {}
  }

  lemma SettleKeepsLost(s: State, p: Option<nat>)
    ensures Settle(s, p).lost == s.lost
  {
  }

  lemma EndTurnKeepsLost(s: State)
    ensures EndTurn(s).lost == s.lost
  {
    hide Settle;
    if s.turn.Some? {
      var t := s.turn.value;
      var requests := {t.startRequest} + if t.cancel.Some? then {t.cancel.value.request} else {};
      var first := s.(turn := None, pending := s.pending - requests);
      SettleKeepsLost(first, CancelOf(t));
      SettleKeepsLost(Settle(first, CancelOf(t)), StartedOf(t));
      SettleKeepsLost(Settle(Settle(first, CancelOf(t)), StartedOf(t)), Some(t.completion));
    }
  }

  lemma ResetKeepsLost(s: State)
    ensures Reset(s).lost == s.lost && Teardown(s).lost == s.lost
  {
    ResetOnceKeepsLost(s);
    ResetOnceKeepsLost(s.(lease := None));
    hide Reset;
  }

  lemma ResetOnceKeepsLost(s: State)
    ensures Reset(s).lost == s.lost
  {
    hide Settle, EndTurn;
    var s1 := Settle(s, ConnectionOf(s.connection));
    var s2 := Settle(s1, PromiseOf(s.status));
    var s3 := Settle(s2, PromiseOf(s.activity));
    var s4 := Settle(s3, PromiseOf(s.disconnect));
    SettleKeepsLost(s, ConnectionOf(s.connection));
    SettleKeepsLost(s1, PromiseOf(s.status));
    SettleKeepsLost(s2, PromiseOf(s.activity));
    SettleKeepsLost(s3, PromiseOf(s.disconnect));
    EndTurnKeepsLost(s4.(pending := map[], connection := None, status := None, activity := None, disconnect := None));
  }

  /** No ending and no sending loses a promise. */
  lemma EndingsKeepLost()
    ensures forall n: State, p :: Settle(n, p).lost == n.lost
    ensures forall n: State :: EndTurn(n).lost == n.lost
    ensures forall n: State :: Reset(n).lost == n.lost
    ensures forall n: State :: Teardown(n).lost == n.lost
    ensures forall n: State, throws :: Send(n, throws).lost == n.lost
  {
    hide Settle, EndTurn, Reset, Teardown;
    forall n: State, p ensures Settle(n, p).lost == n.lost {
      SettleKeepsLost(n, p);
    }
    forall n: State ensures EndTurn(n).lost == n.lost {
      EndTurnKeepsLost(n);
    }
    forall n: State ensures Reset(n).lost == n.lost && Teardown(n).lost == n.lost {
      ResetKeepsLost(n);
    }
  }

  lemma StartsKeepLost(s: State, e: Event, limits: Limits)
    requires e.ConnectSession? || e.DisconnectSession? || e.RefreshStatus? || e.NoteActivity? || e.StartTurn?
    ensures Step(s, e, limits).lost == s.lost
  {
    hide Settle, EndTurn, Reset, Teardown, Send, CanReserve, InUse;
    EndingsKeepLost();
  }

  lemma BeginCancelKeepsLost(s: State, timedOut: bool, sending: Sending, limits: Limits)
    requires s.turn.Some? && sending.request.Some?
    ensures BeginCancel(s, timedOut, sending.request.value, sending.throws, limits).lost == s.lost
  {
    hide Settle, Send, CanReserve;
    EndingsKeepLost();
  }

  lemma OthersKeepLost(s: State, e: Event, limits: Limits)
    requires !e.Deliver? && !(e.ConnectSession? || e.DisconnectSession? || e.RefreshStatus? || e.NoteActivity?
                              || e.StartTurn?)
    ensures Step(s, e, limits).lost == s.lost
  {
    hide Settle, EndTurn, Reset, Teardown, Send, CanReserve, InUse, BeginCancel;
    EndingsKeepLost();
    if e.CancelTurn? && s.turn.Some? && e.sending.request.Some? {
      BeginCancelKeepsLost(s, false, e.sending, limits);
    } else if e.TurnTimeout? && s.turn.Some? && e.sending.request.Some? {
      BeginCancelKeepsLost(s.(turn := Some(s.turn.value.(timer := false))), true, e.sending, limits);
    }
  }

  lemma SessionFrameLost(s: State, f: Frame, limits: Limits)
    requires f.SessionConnected? || f.CapabilitiesResult? || f.CapabilitiesChanged? || f.SessionDisconnected?
    ensures Handle(s, f, limits).state.lost == s.lost
  {
    hide Settle, EndTurn, Reset, Teardown, Send, CanReserve, Drawn, Install, Expects, Identified;
    EndingsKeepLost();
    if f.CapabilitiesResult? {
      InstallFrame(Answered(s, f.request), f.revision, f.fingerprint, limits);
    } else if f.CapabilitiesChanged? {
      InstallFrame(s, f.revision, f.fingerprint, limits);
    }
  }

  lemma StatusFrameLost(s: State, f: Frame, lease: nat)
    requires f.StatusResult? && s.lease == Some(lease) && lease !in s.receiving
    ensures StatusFrame(s, f).state.lost == s.lost + Only(Dropped(s, Deliver(lease, f)))
  {
    hide Settle, Refuses, Expects, Identified;
    EndingsKeepLost();
  }

  lemma ActivityFrameLost(s: State, f: Frame, lease: nat)
    requires f.ActivityResult? && s.lease == Some(lease) && lease !in s.receiving
    ensures ActivityFrame(s, f).state.lost == s.lost + Only(Dropped(s, Deliver(lease, f)))
  {
    hide Settle, Refuses, Expects, Identified;
    EndingsKeepLost();
  }

  lemma ReportFrameLost(s: State, f: Frame, lease: nat, limits: Limits)
    requires f.StatusResult? || f.ActivityResult? || f.StatusChanged?
    requires s.lease == Some(lease) && lease !in s.receiving
    ensures Handle(s, f, limits).state.lost == s.lost + Only(Dropped(s, Deliver(lease, f)))
  {
    hide Refuses, StatusFrame, ActivityFrame;
    if f.StatusResult? {
      hide Dropped;
      StatusFrameLost(s, f, lease);
    } else if f.ActivityResult? {
      hide Dropped;
      ActivityFrameLost(s, f, lease);
    }
  }

  lemma ErrorFrameLost(s: State, request: Text, lease: nat)
    requires s.lease == Some(lease) && lease !in s.receiving
    ensures ErrorFrame(s, request).state.lost == s.lost + Only(Dropped(s, Deliver(lease, RemoteError(request))))
  {
    hide Settle, EndTurn, Teardown;
    EndingsKeepLost();
  }

  lemma TurnFrameLost(s: State, f: Frame, lease: nat, limits: Limits)
    requires f.TurnStarted? || f.TurnDelta? || f.TurnCompleted? || f.TurnEnded? || f.Invalid? || f.RemoteError?
    requires s.lease == Some(lease) && lease !in s.receiving
    ensures Handle(s, f, limits).state.lost == s.lost + Only(Dropped(s, Deliver(lease, f)))
  {
    hide Settle, EndTurn, Reset, Teardown, Expects, ErrorFrame;
    EndingsKeepLost();
    if f.RemoteError? {
      ErrorFrameLost(s, f.request, lease);
    }
  }

  /** A promise is lost exactly by an event that drops it, and never again settled. */
  lemma LostExactly(s: State, e: Event, limits: Limits)
    requires Sound(s, limits)
    ensures Step(s, e, limits).lost == s.lost + Only(Dropped(s, e))
    ensures Dropped(s, e).Some? ==> Dropped(s, e).value !in s.lost && Dropped(s, e).value in s.unsettled
  {
    hide Handle, Teardown, Nearly, ConnectionTimed, Held, Expects, Identified, Refuses, Names;
    if e.Deliver? {
      ResetKeepsLost(s);
      if s.lease == Some(e.lease) && e.lease !in s.receiving {
        var f := e.frame;
        if f.SessionConnected? || f.CapabilitiesResult? || f.CapabilitiesChanged? || f.SessionDisconnected? {
          SessionFrameLost(s, f, limits);
        } else if f.StatusResult? || f.ActivityResult? || f.StatusChanged? {
          ReportFrameLost(s, f, e.lease, limits);
        } else {
          TurnFrameLost(s, f, e.lease, limits);
        }
        DroppedIsHeld(s, e, limits);
      }
    } else if e.ConnectSession? || e.DisconnectSession? || e.RefreshStatus? || e.NoteActivity? || e.StartTurn? {
      StartsKeepLost(s, e, limits);
    } else {
      OthersKeepLost(s, e, limits);
    }
  }

  lemma HeldOnce(t: Table, unsettled: set<nat>, lost: set<nat>, next: nat, p: nat)
    requires Accounted(unsettled, Held(t), lost, next) && p in Held(t)
    ensures p in unsettled && p !in lost
  {
    hide Held;
    MultisetOfSet(p, unsettled);
    MultisetOfSet(p, lost);
    assert (Held(t) + multiset(lost))[p] == Held(t)[p] + multiset(lost)[p];
  }

  lemma HoldersHold(t: Table)
    ensures t.status.Some? ==> t.status.value.promise in Held(t)
    ensures t.activity.Some? ==> t.activity.value.promise in Held(t)
    ensures t.turn.Some? && t.turn.value.cancel.Some? ==> t.turn.value.cancel.value.promise in Held(t)
  {
  }

  lemma DroppedHeld(s: State, e: Event)
    ensures Dropped(s, e).Some? ==> Dropped(s, e).value in Held(TableOf(s))
  {
    hide Held, Refuses, Identified, Expects;
    HoldersHold(TableOf(s));
  }

  lemma DroppedIsHeld(s: State, e: Event, limits: Limits)
    requires Nearly(s, limits)
    ensures Dropped(s, e).Some? ==> Dropped(s, e).value !in s.lost && Dropped(s, e).value in s.unsettled
  {
    hide Dropped, Held, Nearly, Accounted;
    NearlyAccounted(s, limits);
    DroppedHeld(s, e);
    if Dropped(s, e).Some? {
      HeldOnce(TableOf(s), s.unsettled, s.lost, s.nextPromise, Dropped(s, e).value);
    }
  }

  /** How many promises a run drops. */
  function Drops(s: State, events: seq<Event>, limits: Limits): nat
    decreases |events|
  {
    if events == [] then 0
    else |Only(Dropped(s, events[0]))| + Drops(Step(s, events[0], limits), events[1..], limits)
  }

  /** Every promise is settled or held if and only if no event of the run drops one; each such event loses one. */
  lemma {:induction false} LostCounted(s: State, events: seq<Event>, limits: Limits)
    requires Sound(s, limits) && 1 <= limits.maxPending
    ensures |Run(s, events, limits).lost| == |s.lost| + Drops(s, events, limits)
    ensures s.lost <= Run(s, events, limits).lost
    decreases |events|
  {
    hide Sound, Step, Dropped;
    if events != [] {
      StepSound(s, events[0], limits);
      LostExactly(s, events[0], limits);
      LostCounted(Step(s, events[0], limits), events[1..], limits);
    }
  }

  // ----- a lost promise -----

  lemma RunStep(s: State, e: Event, rest: seq<Event>, limits: Limits)
    ensures Run(s, [e] + rest, limits) == Run(Step(s, e, limits), rest, limits)
  {
    hide Step;
    assert ([e] + rest)[1..] == rest;
  }

  lemma RunNothing(s: State, limits: Limits)
    ensures Run(s, [], limits) == s
  {
  }

  /** A session is opened and its status asked for; a report of a later status crosses the answer. */
  function Opening(rest: seq<Event>): seq<Event> {
    [Attach] + ([ConnectSession(Some([1]), Sending(Some([10]), false))] +
      ([Deliver(1, SessionConnected([10], [1], Sending(Some([11]), false)))] + ([Delivered(1)] +
        ([Deliver(1, CapabilitiesResult([11], [1], [2], [3], Sending(Some([12]), false)))] + rest))))
  }

  function Crossing(): seq<Event> {
    [Delivered(1)] + ([Deliver(1, StatusChanged([1], Agent(5, [])))] + ([Delivered(1)] +
      ([Deliver(1, StatusResult([12], [1], Agent(4, [])))] + ([Delivered(1)] + []))))
  }

  /** The state after `Opening`, the read's promise being numbered 1. */
  function Opened(): State {
    var snapshot := Snapshot(1, [1], [2], [3]);
    Begin().(lease := Some(1), nextLease := 2, phase := Ready, session := Some([1]), epoch := 1,
             pending := map[[12] := Operation(StatusRead, [1], [])], status := Some(Attempt(1, [12], [1])),
             snapshot := Some(snapshot), nextGeneration := 2, revisions := map[[2] := [3]],
             installed := [Installed(snapshot, 1)], unsettled := {1}, nextPromise := 2,
             receiving := map[1 := Handled(false)])
  }

  /** On the way there: the transport attached, the session asked for, and the catalog asked for. */
  function Attached(): State {
    Begin().(lease := Some(1), nextLease := 2)
  }

  function Asked(): State {
    Attached().(connection := Some(Connection(0, [1])), session := Some([1]), phase := Connecting, epoch := 1,
                unsettled := {0}, nextPromise := 1, pending := map[[10] := Operation(Connect, [1], [])])
  }

  function Discovery(receiving: map<nat, Delivery>): State {
    Asked().(phase := Discovering, pending := map[[11] := Operation(Capabilities, [1], [])], receiving := receiving)
  }

  lemma AskedSteps(limits: Limits)
    requires 1 <= limits.maxPending
    ensures Step(Begin(), Attach, limits) == Attached()
    ensures Step(Attached(), ConnectSession(Some([1]), Sending(Some([10]), false)), limits) == Asked()
  {
  }

  lemma ConnectedStep(limits: Limits)
    requires 1 <= limits.maxPending
    ensures Step(Asked(), Deliver(1, SessionConnected([10], [1], Sending(Some([11]), false))), limits)
            == Discovery(map[1 := Handled(false)])
  {
    hide Teardown, Reset;
    var op := Operation(Capabilities, [1], []);
    assert (Asked().pending - {[10]})[[11] := op] == map[[11] := op];
  }

  lemma DiscoveryStep(limits: Limits)
    ensures Step(Discovery(map[1 := Handled(false)]), Delivered(1), limits) == Discovery(map[])
  {
    hide Teardown, Reset;
  }

  lemma CatalogInstalled(limits: Limits)
    requires 1 <= limits.maxRevisions
    ensures Install(Discovery(map[]).(pending := map[]), [2], [3], limits)
            == Fine(Discovery(map[]).(pending := map[], snapshot := Opened().snapshot, nextGeneration := 2,
                                      revisions := map[[2] := [3]], installed := Opened().installed))
  {
    assert Discovery(map[]).installed == [];
  }

  lemma OpenedStep(limits: Limits)
    requires 1 <= limits.maxPending && 1 <= limits.maxRevisions
    ensures Step(Discovery(map[]), Deliver(1, CapabilitiesResult([11], [1], [2], [3], Sending(Some([12]), false))),
                 limits)
            == Opened()
  {
    hide Teardown, Reset, Install;
    CatalogInstalled(limits);
    assert Discovery(map[]).pending - {[11]} == map[];
    assert Discovery(map[]).unsettled - {0} + {1} == {1};
  }

  lemma OpeningRun(rest: seq<Event>, limits: Limits)
    requires 1 <= limits.maxPending && 1 <= limits.maxRevisions
    ensures Run(Begin(), Opening(rest), limits) == Run(Opened(), rest, limits)
  {
    hide Run, Step, Attached, Asked, Discovery, Opened;
    var e2 := ConnectSession(Some([1]), Sending(Some([10]), false));
    var e3 := Deliver(1, SessionConnected([10], [1], Sending(Some([11]), false)));
    var e5 := Deliver(1, CapabilitiesResult([11], [1], [2], [3], Sending(Some([12]), false)));
    AskedSteps(limits);
    ConnectedStep(limits);
    DiscoveryStep(limits);
    OpenedStep(limits);
    RunStep(Discovery(map[]), e5, rest, limits);
    RunStep(Discovery(map[1 := Handled(false)]), Delivered(1), [e5] + rest, limits);
    RunStep(Asked(), e3, [Delivered(1)] + ([e5] + rest), limits);
    RunStep(Attached(), e2, [e3] + ([Delivered(1)] + ([e5] + rest)), limits);
    RunStep(Begin(), Attach, [e2] + ([e3] + ([Delivered(1)] + ([e5] + rest))), limits);
  }

  /** A later status has been installed; then the answer to the read has been refused. */
  function Overtaken(receiving: map<nat, Delivery>): State {
    Opened().(agent := Some(Agent(5, [])), receiving := receiving)
  }

  function Refused(): State {
    Overtaken(map[1 := Handled(true)]).(pending := map[], status := None, lost := {1})
  }

  lemma CrossingSteps(limits: Limits)
    ensures Step(Opened(), Delivered(1), limits) == Opened().(receiving := map[])
    ensures Step(Opened().(receiving := map[]), Deliver(1, StatusChanged([1], Agent(5, []))), limits)
            == Overtaken(map[1 := Handled(false)])
    ensures Step(Overtaken(map[1 := Handled(false)]), Delivered(1), limits) == Overtaken(map[])
  {
    hide Teardown, Reset;
  }

  lemma RefusedStep(limits: Limits)
    ensures Step(Overtaken(map[]), Deliver(1, StatusResult([12], [1], Agent(4, []))), limits) == Refused()
  {
    hide Teardown, Reset;
    assert Refused().pending == Overtaken(map[]).pending - {[12]};
  }

  lemma RefusedEnds(limits: Limits)
    ensures var s := Step(Refused(), Delivered(1), limits);
            1 in s.unsettled && 1 in s.lost && s.lease.None? && TableOf(s) == QUIET
  {
  }

  /** In this run the read's promise, numbered 1, outlives the transport unsettled, and nothing refers to it. */
  lemma PromiseLost(limits: Limits)
    requires 1 <= limits.maxPending && 1 <= limits.maxRevisions
    ensures var s := Run(Begin(), Opening(Crossing()), limits);
            1 in s.unsettled && 1 in s.lost && s.lease.None? && TableOf(s) == QUIET
  {
    hide Run, Step, Opened, Overtaken, Refused;
    var later, answer := Deliver(1, StatusChanged([1], Agent(5, []))),
      Deliver(1, StatusResult([12], [1], Agent(4, [])));
    var done := Delivered(1);
    OpeningRun(Crossing(), limits);
    CrossingSteps(limits);
    RefusedStep(limits);
    RefusedEnds(limits);
    RunStep(Refused(), done, [], limits);
    RunNothing(Step(Refused(), done, limits), limits);
    RunStep(Overtaken(map[]), answer, [done] + [], limits);
    RunStep(Overtaken(map[1 := Handled(false)]), done, [answer] + ([done] + []), limits);
    RunStep(Opened().(receiving := map[]), later, [done] + ([answer] + ([done] + [])), limits);
    RunStep(Opened(), done, [later] + ([done] + ([answer] + ([done] + []))), limits);
  }
}
