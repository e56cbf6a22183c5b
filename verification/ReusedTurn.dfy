/**
  Why a fair page's late refusals must not meet a newer turn of the same name: a run in which
  the refusal for one session is sent to the native host in another.
 */
module ReusedTurn {
  import opened Results
  import opened Utf16
  import opened TabSession
  import opened FairPages

  const FINE := Ports(true, true, true)
  const FIRST: Text := [1]
  const SECOND: Text := [2]
  const TURN: Text := [3]
  const CANCEL: Text := [9]

  // ----- single steps, page and native connection being up in generation 1 -----

  predicate Up(s: State) {
    s.generation == 1 && s.page == Some(Page(1, true)) && s.native == Some(Native(1, true))
  }

  function Says(f: Application): Told {
    Told(NativeSays(1, f, FINE), 0)
  }

  function Refuses(request: Text): Told {
    Told(PageSays(1, CommandFailed(request, Some(TURN)), FINE), 0)
  }

  function Opened(s: State, request: Text, session: Text): State {
    s.(session := Some(session), epoch := s.epoch + 1,
       sent := s.sent + [Sent(SessionOpened, request, Some(session), None, s.epoch + 1, None)])
  }

  lemma Opens(s: State, request: Text, session: Text)
    requires Up(s) && s.session.None?
    ensures Step(s, Says(SessionConnect(request, session)).event) == Opened(s, request, session)
  {
  }

  function Closed(s: State, request: Text): State {
    s.(session := None, sent := s.sent + [Sent(SessionEnded, request, s.session, None, s.epoch, None)])
  }

  lemma Closes(s: State, request: Text, session: Text)
    requires Up(s) && s.session == Some(session) && s.read.None? && s.turn.None?
    ensures Step(s, Says(SessionDisconnect(request, session)).event) == Closed(s, request)
  {
  }

  function Begun(s: State, request: Text, session: Text): State {
    s.(turn := Some(PageTurn(TURN, request, session, None, false, None)),
       commands := s.commands + [Command(1, s.epoch, session, request, Some(TURN), None)])
  }

  lemma Begins(s: State, request: Text, session: Text)
    requires Up(s) && s.session == Some(session) && s.read.None? && s.turn.None? && !HasOrphans(s)
    ensures Step(s, Says(TurnStart(request, session, TURN, true)).event) == Begun(s, request, session)
  {
  }

  function Cancelling(s: State): State
    requires s.turn.Some?
  {
    s.(turn := Some(s.turn.value.(cancel := Some(CANCEL))))
  }

  lemma Cancels(s: State, session: Text)
    requires Up(s) && s.session == Some(session) && s.turn.Some? && s.turn.value.id == TURN && s.turn.value.cancel.None?
    ensures Step(s, Says(TurnCancel(CANCEL, session, TURN)).event) == Cancelling(s)
  {
  }

  function Failed(s: State, kind: Kind, request: Text, turn: Option<PageTurn>): State {
    s.(turn := turn, sent := s.sent + [Answer(s, kind, request, s.session, Some(TURN))])
  }

  /** The failure of a start, or the refusal of a cancellation, as an answer to the current turn. */
  lemma Fails(s: State, request: Text)
    requires Up(s) && s.session.Some? && s.turn.Some? && s.turn.value.id == TURN
             && s.turn.value.session == s.session.value
    requires s.read.None? && s.orphanReads == {} && s.orphanTurns == map[]
    requires request == CANCEL || request == s.turn.value.request
    requires s.turn.value.cancel == Some(CANCEL) && s.turn.value.request != CANCEL
    ensures Step(s, Refuses(request).event) ==
            if request == CANCEL then Failed(s, CancelFailure, request, Some(s.turn.value.(cancel := None)))
            else Failed(s, TurnFailure, request, None)
  {
  }

  // ----- the run -----

  /** A page and a native connection come up. */
  function Start(): State {
    Begin().(status := Connected, generation := 1, page := Some(Page(1, true)), native := Some(Native(1, true)))
  }

  function Connecting(rest: seq<Told>): seq<Told> {
    [Told(Connect, 0)] + ([Told(TabsRead(1, Something), 0)] + ([Told(Injected(1, Something), 0)] +
      ([Told(PageReady(1, true, FINE), 0)] + ([Told(NativeReady(1, FINE), 0)] + rest))))
  }

  /** In the first session a turn fails to start while its cancellation is on the way. */
  function FirstSession(rest: seq<Told>): seq<Told> {
    [Says(SessionConnect([4], FIRST))] + ([Says(TurnStart([5], FIRST, TURN, true))] +
      ([Says(TurnCancel(CANCEL, FIRST, TURN))] + ([Refuses([5])] + ([Says(SessionDisconnect([6], FIRST))] + rest))))
  }

  /** In the second one a turn of that name is cancelled by a request of that name. */
  function SecondSession(): seq<Told> {
    [Says(SessionConnect([7], SECOND))] + ([Says(TurnStart([8], SECOND, TURN, true))] +
      ([Says(TurnCancel(CANCEL, SECOND, TURN))] + []))
  }

  function AfterFirst(): State {
    Closed(Failed(Cancelling(Begun(Opened(Start(), [4], FIRST), [5], FIRST)), TurnFailure, [5], None), [6])
  }

  function AfterSecond(): State {
    Cancelling(Begun(Opened(AfterFirst(), [7], SECOND), [8], SECOND))
  }

  lemma Onward(w: World, t: Told, rest: seq<Told>)
    ensures AdvanceAll(w, [t] + rest) == AdvanceAll(Advance(w, t), rest)
    ensures AllFair(w, [t] + rest) <==> Fair(w, t) && AllFair(Advance(w, t), rest)
  {
    hide Advance, Fair;
    assert ([t] + rest)[1..] == rest;
  }

  /** A step that is none of the page's answers. */
  lemma Quiet(w: World, t: Told, rest: seq<Told>)
    requires !t.event.PageSays?
    ensures AdvanceAll(w, [t] + rest) == AdvanceAll(World(Step(w.state, t.event), w.finished), rest)
    ensures AllFair(w, [t] + rest) <==> AllFair(World(Step(w.state, t.event), w.finished), rest)
  {
    hide Step, AllFair, AdvanceAll;
    Onward(w, t, rest);
  }

  lemma ConnectingRun(rest: seq<Told>)
    ensures AdvanceAll(World(Begin(), {}), Connecting(rest)) == AdvanceAll(World(Start(), {}), rest)
    ensures AllFair(World(Begin(), {}), Connecting(rest)) <==> AllFair(World(Start(), {}), rest)
  {
    hide AllFair, AdvanceAll;
    var s1 := Begin().(status := Status.Connecting, generation := 1, stages := map[1 := AwaitTabs]);
    var s2 := s1.(stages := map[1 := AwaitInjection]);
    var s3 := s1.(stages := map[], page := Some(Page(1, false)));
    var s4 := s1.(stages := map[], page := Some(Page(1, true)), native := Some(Native(1, false)));
    assert Step(Begin(), Connect) == s1;
    assert Step(s1, TabsRead(1, Something)) == s2;
    assert Step(s2, Injected(1, Something)) == s3;
    assert Step(s3, PageReady(1, true, FINE)) == s4;
    assert Step(s4, NativeReady(1, FINE)) == Start();
    Quiet(World(s4, {}), Told(NativeReady(1, FINE), 0), rest);
    Quiet(World(s3, {}), Told(PageReady(1, true, FINE), 0), [Told(NativeReady(1, FINE), 0)] + rest);
    var ready := [Told(PageReady(1, true, FINE), 0)] + ([Told(NativeReady(1, FINE), 0)] + rest);
    Quiet(World(s2, {}), Told(Injected(1, Something), 0), ready);
    Quiet(World(s1, {}), Told(TabsRead(1, Something), 0), [Told(Injected(1, Something), 0)] + ready);
    Quiet(World(Begin(), {}), Told(Connect, 0),
          [Told(TabsRead(1, Something), 0)] + ([Told(Injected(1, Something), 0)] + ready));
  }

  /** What the steps of the first session ask of the states between them. */
  lemma FirstStates()
    ensures var s1 := Opened(Start(), [4], FIRST);
            var s2 := Begun(s1, [5], FIRST);
            var s3 := Cancelling(s2);
            var s4 := Failed(s3, TurnFailure, [5], None);
            && Up(Start()) && Start().session.None? && Start().read.None?
            && Up(s1) && s1.session == Some(FIRST) && s1.read.None? && s1.turn.None? && !HasOrphans(s1)
            && Up(s2) && s2.session == Some(FIRST) && s2.turn == Some(PageTurn(TURN, [5], FIRST, None, false, None))
            && Up(s3) && s3.session == Some(FIRST) && s3.turn ==
               Some(PageTurn(TURN, [5], FIRST, None, false, Some(CANCEL)))
            && s3.read.None? && s3.orphanReads == {} && s3.orphanTurns == map[]
            && s3.commands == [Command(1, 1, FIRST, [5], Some(TURN), None)]
            && Up(s4) && s4.session == Some(FIRST) && s4.read.None? && s4.turn.None?
  {
  }

  /** The page's last word on the first turn. */
  lemma FirstFailure(s: State)
    requires Up(s) && s.session == Some(FIRST) && s.turn == Some(PageTurn(TURN, [5], FIRST, None, false, Some(CANCEL)))
    requires s.read.None? && s.orphanReads == {} && s.orphanTurns == map[]
    requires s.commands == [Command(1, 1, FIRST, [5], Some(TURN), None)]
    ensures Fair(World(s, {}), Refuses([5]))
    ensures Advance(World(s, {}), Refuses([5])) == World(Failed(s, TurnFailure, [5], None), {0})
  {
    hide Step;
    Fails(s, [5]);
    assert {} + {0} == {0};
  }

  lemma FirstRun(rest: seq<Told>)
    ensures AdvanceAll(World(Start(), {}), FirstSession(rest)) == AdvanceAll(World(AfterFirst(), {0}), rest)
    ensures AllFair(World(Start(), {}), FirstSession(rest)) <==> AllFair(World(AfterFirst(), {0}), rest)
  {
    hide AllFair, AdvanceAll, Step, Advance, Fair, Failed, Cancelling, Begun, Opened, Closed;
    FirstStates();
    var s1 := Opened(Start(), [4], FIRST);
    var s2 := Begun(s1, [5], FIRST);
    var s3 := Cancelling(s2);
    var s4 := Failed(s3, TurnFailure, [5], None);
    Opens(Start(), [4], FIRST);
    Begins(s1, [5], FIRST);
    Cancels(s2, FIRST);
    Closes(s4, [6], FIRST);
    var close, fail := Says(SessionDisconnect([6], FIRST)), Refuses([5]);
    var cancel, begin := Says(TurnCancel(CANCEL, FIRST, TURN)), Says(TurnStart([5], FIRST, TURN, true));
    Quiet(World(s4, {0}), close, rest);
    FirstFailure(s3);
    Onward(World(s3, {}), fail, [close] + rest);
    Quiet(World(s2, {}), cancel, [fail] + ([close] + rest));
    Quiet(World(s1, {}), begin, [cancel] + ([fail] + ([close] + rest)));
    Quiet(World(Start(), {}), Says(SessionConnect([4], FIRST)), [begin] + ([cancel] + ([fail] + ([close] + rest))));
  }

  lemma SecondRun()
    ensures AdvanceAll(World(AfterFirst(), {0}), SecondSession()) == World(AfterSecond(), {0})
    ensures AllFair(World(AfterFirst(), {0}), SecondSession())
  {
    hide AllFair, AdvanceAll, Step, AfterFirst;
    FirstLeaves();
    var s0 := AfterFirst();
    var s1 := Opened(s0, [7], SECOND);
    var s2 := Begun(s1, [8], SECOND);
    Opens(s0, [7], SECOND);
    Begins(s1, [8], SECOND);
    Cancels(s2, SECOND);
    var cancel, begin := Says(TurnCancel(CANCEL, SECOND, TURN)), Says(TurnStart([8], SECOND, TURN, true));
    Quiet(World(s2, {0}), cancel, []);
    Quiet(World(s1, {0}), begin, [cancel] + []);
    Quiet(World(s0, {0}), Says(SessionConnect([7], SECOND)), [begin] + ([cancel] + []));
    Ended(World(AfterSecond(), {0}));
  }

  lemma Ended(w: World)
    ensures AdvanceAll(w, []) == w && AllFair(w, [])
  {
  }

  lemma FirstLeaves()
    ensures var s := AfterFirst();
            && Up(s) && s.session.None? && s.read.None? && s.turn.None? && !HasOrphans(s) && s.epoch == 1
            && s.commands == [Command(1, 1, FIRST, [5], Some(TURN), None)]
  {
  }

  /**
    After this run the page refuses the cancellation of the first session's turn, having had its
    last word on that turn; the refusal goes out in the second session, as an answer to its turn.
   */
  lemma RefusalMisdelivered()
    ensures var told := Connecting(FirstSession(SecondSession()));
            var w := AdvanceAll(World(Begin(), {}), told);
            var late := Refuses(CANCEL);
            var u := Step(w.state, late.event);
            && AllFair(World(Begin(), {}), told) && Answering(w.state, late.event) && 0 in w.finished
            && |w.state.commands| == 2 && w.state.commands[0].session == FIRST
            && Belongs(late.event.event, w.state.commands[0]) && Renamed(w.state, 0)
            && u.sent == w.state.sent + [Sent(CancelFailure, CANCEL, Some(SECOND), Some(TURN), 2, Some(1))]
  {
    hide AllFair, AdvanceAll, Step, AfterFirst;
    ConnectingRun(FirstSession(SecondSession()));
    FirstRun(SecondSession());
    SecondRun();
    FirstLeaves();
    Fails(AfterSecond(), CANCEL);
  }
}
