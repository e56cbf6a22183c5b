/**
  Against a page that answers what it was asked, every answer reaches the session it is for.
 */
module FairPages {
  import opened Results
  import opened Utf16
  import opened Tables
  import opened TabSession
  import opened TabSessionInvariant

  // ----- answers reach the session of their command -----

  /** The identifiers of an event are those of the command. */
  predicate Belongs(e: PageEvent, c: Command) {
    match e
    case CatalogResult(request) => c.turn.None? && c.request == request
    case Started(request, turn) => c.turn == Some(turn) && c.request == request
    case Delta(turn) => c.turn == Some(turn)
    case Completed(turn) => c.turn == Some(turn)
    case CancelledIt(_, turn) => c.turn == Some(turn)
    case CommandFailed(request, about) => c.turn == about && (about.None? ==> c.request == request)
    case _ => false
  }

  /** An event that is a page's last word on a command. */
  predicate Ends(e: PageEvent, c: Command) {
    e.CatalogResult? || e.Completed? || e.CancelledIt? || (e.CommandFailed? && e.request == c.request)
  }

  /** An event, and for one of the page the command that the page means. */
  datatype Told = Told(event: Event, about: nat)

  /** A state, with the commands that the page has had its last word on. */
  datatype World = World(state: State, finished: set<nat>)

  predicate Answering(s: State, e: Event) {
    e.PageSays? && ForPage(s, e.generation) && !e.event.CatalogChanged? && !e.event.DocumentChanged?
  }

  /** The refusal of a cancellation of a turn; it may come after the page's last word on the turn. */
  predicate RefusesCancel(e: PageEvent) {
    e.CommandFailed? && e.about.Some?
  }

  /** A newer operation is a turn of the same name. */
  predicate Renamed(s: State, about: nat)
    requires about < |s.commands|
  {
    about < |s.commands| - 1 && Last(s.commands).turn == s.commands[about].turn
  }

  /**
    A page answers only what it was asked, and after its last word on a turn only refuses
    cancellations of it that came too late, no newer turn having its name.
   */
  predicate Fair(w: World, t: Told) {
    Answering(w.state, t.event) ==>
      && t.about < |w.state.commands| && w.state.commands[t.about].generation == w.state.generation
      && Belongs(t.event.event, w.state.commands[t.about])
      && (t.about in w.finished ==> RefusesCancel(t.event.event) && !Renamed(w.state, t.about))
  }

  function Advance(w: World, t: Told): World {
    World(Step(w.state, t.event),
          if && Answering(w.state, t.event) && t.about < |w.state.commands|
             && Ends(t.event.event, w.state.commands[t.about])
          then w.finished + {t.about} else w.finished)
  }

  function AdvanceAll(w: World, told: seq<Told>): World
    decreases |told|
  {
    if told == [] then w else AdvanceAll(Advance(w, told[0]), told[1..])
  }

  predicate AllFair(w: World, told: seq<Told>)
    decreases |told|
  {
    told != [] ==> Fair(w, told[0]) && AllFair(Advance(w, told[0]), told[1..])
  }

  /** What the page still has to answer is the operation outstanding. */
  ghost predicate Matched(s: State, finished: set<nat>) {
    forall c: nat :: c < |s.commands| && s.commands[c].generation == s.generation && c !in finished ==>
      c == |s.commands| - 1 && Busy(WorkOf(s)) == 1
  }

  /** Only answers to the last command, in the session now open, or frames that answer none. */
  ghost predicate Extends(s: State, u: State, answer: bool) {
    && |s.sent| <= |u.sent| && u.sent[..|s.sent|] == s.sent
    && forall k :: |s.sent| <= k < |u.sent| && u.sent[k].command.Some? ==>
         answer && u.sent[k].command == Some(|s.commands| - 1) && u.sent[k].epoch == s.epoch
           && u.sent[k].session == s.session
  }

  /** An event ends the page, ends at most what it says, or asks for one more operation when there is none. */
  ghost predicate Kept(s: State, u: State, ended: bool) {
    if u.generation != s.generation then u.generation == s.generation + 1 && u.commands == s.commands
    else if u.commands == s.commands then
      Busy(WorkOf(u)) == Busy(WorkOf(s)) || (ended && Busy(WorkOf(u)) + 1 == Busy(WorkOf(s)))
    else
      && |u.commands| == |s.commands| + 1 && u.commands[..|s.commands|] == s.commands
      && Busy(WorkOf(s)) == 0 && Busy(WorkOf(u)) == 1
  }

  lemma TerminateKeeps(s: State, told: bool, status: Status, ports: Ports)
    ensures var u := Terminate(s, told, status, ports); Extends(s, u, false) && Kept(s, u, false)
  {
  }

  lemma PostKeeps(s: State, f: Sent, ports: Ports)
    ensures var u := Post(s, f, ports);
            && |s.sent| <= |u.sent| && u.sent[..|s.sent|] == s.sent
            && (forall k :: |s.sent| <= k < |u.sent| && u.sent[k].command.Some? ==> u.sent[k] == f)
            && (u.generation == s.generation + 1 || (u.generation == s.generation && WorkOf(u) == WorkOf(s)))
            && u.commands == s.commands
  {
    hide Terminate;
    TerminateKeeps(s, true, Failing, ports);
    TerminateLeaves(s, true, Failing, ports);
  }

  lemma AskKeeps(s: State, u: State, c: Command, ports: Ports)
    requires u.commands == s.commands && u.generation == s.generation && u.sent == s.sent
    requires Busy(WorkOf(s)) == 0 && Busy(WorkOf(u)) == 1
    ensures Extends(s, Ask(u, c, ports), false) && Kept(s, Ask(u, c, ports), false)
  {
    hide Terminate, Busy;
    TerminateKeeps(u, true, Failing, ports);
    TerminateLeaves(u, true, Failing, ports);
  }

  lemma NothingBusy(w: Work)
    requires w.read.None? && w.turn.None? && w.orphanReads == {} && w.orphanTurns == map[]
    ensures Busy(w) == 0
  {
  }

  lemma DisconnectKeeps(s: State, request: Text, session: Text)
    requires Sound(s)
    ensures var u := DisconnectFrame(s, request, session).state;
            u.sent == s.sent && u.commands == s.commands && u.generation == s.generation
              && Busy(WorkOf(u)) == Busy(WorkOf(s))
  {
    hide Answered, PermitsOnce, PermitsKnown, ProgressOf, Bounded, Linked;
    if s.session == Some(session) && s.read.Some? {
      NoOrphans(WorkOf(s));
      assert DisconnectFrame(s, request, session).state.orphanReads == {s.read.value};
    } else if s.session == Some(session) && s.turn.Some? {
      NoOrphans(WorkOf(s));
      assert DisconnectFrame(s, request, session).state.orphanTurns == map[s.turn.value.id := s.turn.value];
      SizeOfOne(s.turn.value.id, s.turn.value);
    }
  }

  lemma TurnKeeps(s: State, v: State, request: Text, session: Text, turn: Text, permit: Option<Text>, ports: Ports)
    requires s.turn.None? && s.read.None? && !HasOrphans(s) && v == s.(permits := v.permits)
    ensures var u := BeginTurn(v, request, session, turn, permit, ports); Extends(s, u, false) && Kept(s, u, false)
  {
    hide Extends, Kept, Ask;
    NothingBusy(WorkOf(s));
    var asked := v.(turn := Some(PageTurn(turn, request, session, permit, false, None)));
    AskKeeps(s, asked, Command(v.generation, v.epoch, session, request, Some(turn), permit), ports);
  }

  /** A frame leaves what is outstanding alone, or adds to nothing; its reply is not sent yet. */
  lemma ApplyKeeps(s: State, f: Application, ports: Ports)
    requires Sound(s)
    ensures var h := Apply(s, f, ports);
            && Extends(s, h.state, false) && Kept(s, h.state, false)
            && (h.reply.Some? ==>
                  h.reply.value.command.None? && h.state.sent == s.sent && h.state.commands == s.commands
                  && h.state.generation == s.generation)
  {
    hide Sound, Terminate, Ask, Busy, Extends, Kept, BeginTurn, DisconnectFrame;
    SameKeeps(s, s);
    TerminateKeeps(s, true, Failing, ports);
    match f {
      case SessionConnect(request, session) => SameKeeps(s, s.(session := Some(session), epoch := s.epoch + 1));
      case SessionDisconnect(request, session) =>
        DisconnectKeeps(s, request, session);
        SameKeeps(s, DisconnectFrame(s, request, session).state);
        DisconnectReplies(s, request, session);
      case CapabilitiesRead(request, session) =>
        if s.read.None? && s.turn.None? && !HasOrphans(s) {
          ReadKeeps(s, request, session, ports);
        }
      case AgentTurnStart(_, _, _, _, _, _) =>
        if s.read.None? && s.turn.None? && !HasOrphans(s) {
          TurnKeeps(s, s.(permits := s.permits + {f.permit}), f.request, f.session, f.turnId, Some(f.permit), ports);
        }
      case TurnStart(_, _, _, _) =>
        if s.read.None? && s.turn.None? && !HasOrphans(s) {
          TurnKeeps(s, s, f.request, f.session, f.turnId, None, ports);
        }
      case TurnCancel(request, session, turn) =>
        if s.turn.Some? {
          CancelKeeps(s, request, session, turn, ports);
        }
      case _ =>
    }
  }

  lemma DisconnectReplies(s: State, request: Text, session: Text)
    ensures var h := DisconnectFrame(s, request, session); h.reply.Some? && h.reply.value.command.None?
  {
  }

  lemma ReadKeeps(s: State, request: Text, session: Text, ports: Ports)
    requires s.turn.None? && s.read.None? && !HasOrphans(s)
    ensures var u := Ask(s.(read := Some(request)), Command(s.generation, s.epoch, session, request, None, None),
                         ports);
            Extends(s, u, false) && Kept(s, u, false)
  {
    hide Extends, Kept, Ask;
    NothingBusy(WorkOf(s));
    AskKeeps(s, s.(read := Some(request)), Command(s.generation, s.epoch, session, request, None, None), ports);
  }

  lemma SameKeeps(s: State, u: State)
    requires u.sent == s.sent && u.commands == s.commands && u.generation == s.generation
    requires Busy(WorkOf(u)) == Busy(WorkOf(s)) || u == s || WorkOf(u) == WorkOf(s).(session := u.session)
    ensures Extends(s, u, false) && Kept(s, u, false)
  {
  }

  lemma CancelKeeps(s: State, request: Text, session: Text, turn: Text, ports: Ports)
    ensures var u := CancelFrame(s, request, session, turn, ports).state; Extends(s, u, false) && Kept(s, u, false)
  {
    hide Terminate;
    if s.turn.Some? {
      var asked := s.(turn := Some(s.turn.value.(cancel := Some(request))));
      TerminateKeeps(asked, true, Failing, ports);
      TerminateLeaves(asked, true, Failing, ports);
    }
  }

  lemma NativeKeeps(s: State, f: Application, ports: Ports)
    requires Sound(s)
    ensures var u := NativeOp(s, f, ports); Extends(s, u, false) && Kept(s, u, false)
  {
    hide Sound, Terminate, Apply, Post, Busy;
    TerminateKeeps(s, true, Failing, ports);
    if NativeUp(s) {
      ApplyKeeps(s, f, ports);
      var h := Apply(s, f, ports);
      if h.reply.Some? {
        PostKeeps(h.state, h.reply.value, ports);
      }
    }
  }

  // ----- what an event of the page changes -----

  lemma DrainKeeps(s: State, e: PageEvent)
    requires Sound(s) && Drain(s, e).Taken?
    ensures var u := Drain(s, e).state;
            && u.sent == s.sent && u.commands == s.commands && u.generation == s.generation
            && (Busy(WorkOf(u)) == Busy(WorkOf(s))
                || (s.commands != [] && Ends(e, Last(s.commands)) && Busy(WorkOf(u)) + 1 == Busy(WorkOf(s))))
  {
    hide Answered, PermitsOnce, PermitsKnown, ProgressOf, Bounded, Linked;
    if !(AboutRead(e) && e.request in s.orphanReads) {
      var id := TurnOf(e).value;
      var turn := s.orphanTurns[id];
      InsertSize(s.orphanTurns, id, turn.(started := true));
      InsertSize(s.orphanTurns, id, turn.(cancel := None));
      RemoveSize(s.orphanTurns, id);
    }
  }

  /** The answer given in a handler that leaves `u`. */
  lemma AnswerKeeps(s: State, u: State, f: Sent, ports: Ports, ended: bool)
    requires u.sent == s.sent && u.commands == s.commands && u.generation == s.generation
    requires f.command == Some(|s.commands| - 1) ==> f.epoch == s.epoch && f.session == s.session
    requires f.command == Some(|s.commands| - 1) || f.command.None?
    requires Busy(WorkOf(u)) == Busy(WorkOf(s)) || (ended && Busy(WorkOf(u)) + 1 == Busy(WorkOf(s)))
    ensures Extends(s, Post(u, f, ports), true) && Kept(s, Post(u, f, ports), ended)
  {
    hide Post, Busy;
    PostKeeps(u, f, ports);
  }

  lemma ReadAnswerKeeps(s: State, kind: Kind, request: Text, e: PageEvent, ports: Ports)
    requires Sound(s) && s.read == Some(request) && Ends(e, Command(0, 0, [], request, None, None))
    ensures var u := Post(s.(read := None), Answer(s, kind, request, s.session, None), ports);
            Extends(s, u, true) && Kept(s, u, s.commands != [] && Ends(e, Last(s.commands)))
  {
    hide Answered, PermitsOnce, PermitsKnown, ProgressOf, Bounded, Linked, Post, Extends, Kept, Busy, Current;
    LessBusy(WorkOf(s));
    AnswerKeeps(s, s.(read := None), Answer(s, kind, request, s.session, None), ports, true);
  }

  /** Where the turn is kept, or the event ends it. */
  lemma TurnAnswerKeeps(s: State, after: Option<PageTurn>, kind: Kind, request: Text, e: PageEvent, ports: Ports)
    requires Sound(s) && s.turn.Some? && s.session == Some(s.turn.value.session)
    requires after.None? ==> Ends(e, Command(0, 0, [], s.turn.value.request, None, None))
    ensures var u := AnswerTurn(s, s.(turn := after), kind, request, ports);
            Extends(s, u, true) && Kept(s, u, s.commands != [] && Ends(e, Last(s.commands)))
  {
    hide Answered, PermitsOnce, PermitsKnown, ProgressOf, Bounded, Linked, Post, Extends, Kept, Busy, Current;
    var f := Answer(s, kind, request, Some(s.turn.value.session), Some(s.turn.value.id));
    if after.Some? {
      SameBusy(WorkOf(s), after);
    } else {
      LessBusy(WorkOf(s));
    }
    AnswerKeeps(s, s.(turn := after), f, ports, s.commands != [] && Ends(e, Last(s.commands)));
  }

  lemma LessBusy(w: Work)
    ensures w.read.Some? ==> Busy(w.(read := None)) + 1 == Busy(w)
    ensures w.turn.Some? ==> Busy(w.(turn := None)) + 1 == Busy(w)
  {
  }

  lemma SameBusy(w: Work, turn: Option<PageTurn>)
    requires w.turn.Some? && turn.Some?
    ensures Busy(w.(turn := turn)) == Busy(w)
  {
  }

  lemma KeptAnyway(s: State, u: State, answer: bool, ended: bool)
    requires Extends(s, u, false) && Kept(s, u, false)
    ensures Extends(s, u, answer) && Kept(s, u, ended)
  {
  }

  lemma SessionEventKeeps(s: State, e: PageEvent, ports: Ports)
    requires Sound(s) && s.session.Some?
    ensures var u := SessionEvent(s, e, ports);
            Extends(s, u, !e.CatalogChanged? && !e.DocumentChanged?)
            && Kept(s, u, s.commands != [] && Ends(e, Last(s.commands)))
  {
    hide Sound, Terminate, Post, Extends, Kept, AnswerTurn, Busy;
    var answer, ended := !e.CatalogChanged? && !e.DocumentChanged?, s.commands != [] && Ends(e, Last(s.commands));
    TerminateKeeps(s, true, Failing, ports);
    KeptAnyway(s, Terminate(s, true, Failing, ports), answer, ended);
    match e {
      case CatalogChanged => ChangeKeeps(s, ports, ended);
      case CatalogResult(request) =>
        if s.read == Some(request) {
          ReadAnswerKeeps(s, ReadResult, request, e, ports);
        }
      case Started(request, turn) =>
        if Expected(s, turn) {
          TurnAnswerKeeps(s, Some(s.turn.value.(started := true)), TurnBegun, request, e, ports);
        }
      case Delta(turn) =>
        if Expected(s, turn) {
          TurnAnswerKeeps(s, s.turn, TurnText, s.turn.value.request, e, ports);
        }
      case Completed(turn) =>
        if Expected(s, turn) {
          TurnAnswerKeeps(s, None, TurnDone, s.turn.value.request, e, ports);
        }
      case CancelledIt(request, turn) =>
        if Expected(s, turn) {
          TurnAnswerKeeps(s, None, TurnStopped, request, e, ports);
        }
      case CommandFailed(request, about) =>
        if s.read == Some(request) && about.None? {
          ReadAnswerKeeps(s, ReadFailure, request, e, ports);
        } else if about.Some? && Expected(s, about.value) {
          if s.turn.value.cancel == Some(request) {
            TurnAnswerKeeps(s, Some(s.turn.value.(cancel := None)), CancelFailure, request, e, ports);
          } else if request == s.turn.value.request {
            TurnAnswerKeeps(s, None, TurnFailure, request, e, ports);
          }
        }
      case DocumentChanged =>
    }
  }

  lemma ChangeKeeps(s: State, ports: Ports, ended: bool)
    ensures var u := SessionEvent(s.(session := if s.session.Some? then s.session else Some([])), CatalogChanged,
                                  ports);
            s.session.Some? ==> Extends(s, u, false) && Kept(s, u, ended)
  {
    hide Post, Busy;
    PostKeeps(s, Plain(s, CatalogChange, [], None), ports);
  }

  lemma PageKeeps(s: State, e: PageEvent, ports: Ports)
    requires Sound(s)
    ensures var u := PageOp(s, e, ports);
            Extends(s, u, !e.CatalogChanged? && !e.DocumentChanged?)
            && Kept(s, u, s.commands != [] && Ends(e, Last(s.commands)))
  {
    hide Sound, Terminate, Extends, Kept, SessionEvent, Drain;
    var answer, ended := !e.CatalogChanged? && !e.DocumentChanged?, s.commands != [] && Ends(e, Last(s.commands));
    TerminateKeeps(s, true, Failing, ports);
    KeptAnyway(s, Terminate(s, true, Failing, ports), answer, ended);
    SameKeeps(s, s);
    KeptAnyway(s, s, answer, ended);
    if Drain(s, e).Taken? {
      DrainKeeps(s, e);
      TakenKeeps(s, Drain(s, e).state, answer, ended);
    }
    if s.session.Some? {
      SessionEventKeeps(s, e, ports);
    }
  }

  lemma TakenKeeps(s: State, u: State, answer: bool, ended: bool)
    requires u.sent == s.sent && u.commands == s.commands && u.generation == s.generation
    requires Busy(WorkOf(u)) == Busy(WorkOf(s)) || (ended && Busy(WorkOf(u)) + 1 == Busy(WorkOf(s)))
    ensures Extends(s, u, answer) && Kept(s, u, ended)
  {
  }

  lemma ConnectingKeeps(s: State, e: Event)
    requires e.Connect? || e.TabsRead? || e.Injected? || e.PageReady? || e.NativeReady?
    ensures Extends(s, Step(s, e), false) && Kept(s, Step(s, e), false)
  {
    hide Terminate, Busy;
    TerminateKeeps(s, false, Connecting, Ports(false, false, false));
    TerminateLeaves(s, false, Connecting, Ports(false, false, false));
    if e.TabsRead? || e.Injected? {
      var over := s.(stages := s.stages - {e.generation});
      TerminateKeeps(over, false, Failing, Ports(false, false, false));
      TerminateLeaves(over, false, Failing, Ports(false, false, false));
    } else if e.PageReady? {
      TerminateKeeps(s, true, Failing, e.ports);
      TerminateKeeps(s.(page := Some(Page(e.generation, true))), true, Failing, e.ports);
    } else if e.NativeReady? {
      TerminateKeeps(s, true, Failing, e.ports);
    }
  }

  lemma StepKeeps(s: State, e: Event)
    requires Sound(s)
    ensures Extends(s, Step(s, e), Answering(s, e))
            && Kept(s, Step(s, e), Answering(s, e) && s.commands != [] && Ends(e.event, Last(s.commands)))
  {
    hide Sound, Terminate, Extends, Kept, PageOp, NativeOp, ConnectOp, ConnectStep;
    var answer, ended := Answering(s, e), Answering(s, e) && s.commands != [] && Ends(e.event, Last(s.commands));
    SameKeeps(s, s);
    KeptAnyway(s, s, answer, ended);
    if e.Connect? || e.TabsRead? || e.Injected? || e.PageReady? || e.NativeReady? {
      ConnectingKeeps(s, e);
      KeptAnyway(s, Step(s, e), answer, ended);
    } else if e.PageSays? {
      PageKeeps(s, e.event, e.ports);
    } else if e.NativeSays? {
      NativeKeeps(s, e.frame, e.ports);
      KeptAnyway(s, NativeOp(s, e.frame, e.ports), answer, ended);
    } else {
      TerminateKeeps(s, true, Failing, e.ports);
      KeptAnyway(s, Terminate(s, true, Failing, e.ports), answer, ended);
      TerminateKeeps(s, true, Idle, e.ports);
      KeptAnyway(s, Terminate(s, true, Idle, e.ports), answer, ended);
    }
  }

  // ----- fair pages -----

  /** An event about a turn that is not outstanding ends everything. */
  lemma UnknownTurnEnds(s: State, e: PageEvent, ports: Ports)
    requires TurnOf(e).Some? && TurnOf(e).value !in s.orphanTurns
    requires s.turn.None? || s.turn.value.id != TurnOf(e).value
    ensures PageOp(s, e, ports) == Terminate(s, true, Failing, ports)
  {
    hide Terminate, Post;
  }

  /** A turn that is no longer outstanding: its command is not the last one, or nothing is outstanding. */
  lemma NotOutstanding(s: State, about: nat)
    requires Sound(s) && about < |s.commands| && s.commands[about].turn.Some? && !Renamed(s, about)
    requires about < |s.commands| - 1 || Busy(WorkOf(s)) == 0
    ensures var turn := s.commands[about].turn.value;
            turn !in s.orphanTurns && (s.turn.None? || s.turn.value.id != turn)
  {
    hide Answered, PermitsOnce, PermitsKnown, ProgressOf, Bounded, Linked, Current;
    if Busy(WorkOf(s)) == 0 {
      assert s.orphanTurns.Keys == {} by {
        assert |s.orphanTurns| == 0;
      }
    }
  }

  /** A refusal that comes too late is about the operation outstanding, or ends everything. */
  lemma LateRefusal(w: World, t: Told)
    requires Sound(w.state) && Fair(w, t) && Answering(w.state, t.event) && t.about in w.finished
    requires t.about < |w.state.commands| - 1 || Busy(WorkOf(w.state)) == 0
    ensures Step(w.state, t.event) == Terminate(w.state, true, Failing, t.event.ports)
  {
    hide Sound, Terminate, PageOp, Busy;
    NotOutstanding(w.state, t.about);
    UnknownTurnEnds(w.state, t.event.event, t.event.ports);
  }

  lemma MatchedStep(w: World, t: Told)
    requires Sound(w.state) && Matched(w.state, w.finished) && Fair(w, t)
    ensures var v := Advance(w, t); Sound(v.state) && Matched(v.state, v.finished)
    ensures var s, u := w.state, Step(w.state, t.event);
            forall k :: |s.sent| <= k < |u.sent| && u.sent[k].command.Some? ==>
              Answering(s, t.event) && u.sent[k].command == Some(t.about)
  {
    hide Step, Answered, PermitsOnce, PermitsKnown, ProgressOf, OneAtATime, Linked, Current, Belongs, Ends,
      RefusesCancel, Terminate, Renamed;
    StepSound(w.state, t.event);
    StepKeeps(w.state, t.event);
    var s, u := w.state, Step(w.state, t.event);
    if Answering(s, t.event) {
      if t.about in w.finished && t.about < |s.commands| - 1 {
        LateRefusal(w, t);
        TerminateKeeps(s, true, Failing, t.event.ports);
        TerminateLeaves(s, true, Failing, t.event.ports);
      } else {
        assert t.about == |s.commands| - 1;
      }
    }
    assert u.generation > s.generation ==>
             forall c :: 0 <= c < |u.commands| ==> u.commands[c].generation < u.generation;
  }

  lemma {:induction false} AllMatched(w: World, told: seq<Told>)
    requires Sound(w.state) && Matched(w.state, w.finished) && AllFair(w, told)
    ensures Sound(AdvanceAll(w, told).state) && Matched(AdvanceAll(w, told).state, AdvanceAll(w, told).finished)
    decreases |told|
  {
    hide Sound, Matched, Advance, Fair;
    if told != [] {
      MatchedStep(w, told[0]);
      AllMatched(Advance(w, told[0]), told[1..]);
    }
  }

  /**
    Against a fair page, in every run: a frame that goes out for an event of the page goes out
    in the session in which the page was asked what the event answers, that session being the
    one still open.
   */
  lemma AnswersReachTheirSession(told: seq<Told>, t: Told, k: nat)
    requires AllFair(World(Begin(), {}), told) && Fair(AdvanceAll(World(Begin(), {}), told), t)
    requires var s := AdvanceAll(World(Begin(), {}), told).state;
             |s.sent| <= k < |Step(s, t.event).sent| && Step(s, t.event).sent[k].command.Some?
    ensures var s := AdvanceAll(World(Begin(), {}), told).state;
            var f := Step(s, t.event).sent[k];
            && Answering(s, t.event) && t.about < |s.commands| && f.command == Some(t.about)
            && f.session == Some(s.commands[t.about].session) == s.session
            && f.epoch == s.commands[t.about].epoch == s.epoch
  {
    hide Step, AdvanceAll, AllFair, PermitsOnce, PermitsKnown, ProgressOf, OneAtATime, Linked, Current, Ends, Matched,
      Kept;
    BeginSound();
    NothingAsked();
    AllMatched(World(Begin(), {}), told);
    var w := AdvanceAll(World(Begin(), {}), told);
    MatchedStep(w, t);
    StepKeeps(w.state, t.event);
    StepSound(w.state, t.event);
    var u := Step(w.state, t.event);
    assert Answers(u.sent[k], u.commands[t.about]);
    var last := w.state.commands;
    SameCommand(w.state, u, t.about, Answering(w.state, t.event) && last != [] && Ends(t.event.event, Last(last)));
  }

  lemma NothingAsked()
    ensures Matched(Begin(), {})
  {
  }

  lemma SameCommand(s: State, u: State, c: nat, ended: bool)
    requires Kept(s, u, ended) && c < |s.commands|
    ensures c < |u.commands| && u.commands[c] == s.commands[c]
  {
    if u.commands != s.commands {
      assert u.commands[..|s.commands|][c] == s.commands[c];
    }
  }

  // ----- refusals that come too late -----

  /** No cancellation under way carries the request its turn was started with. */
  ghost predicate Apart(w: Work) {
    && (w.turn.Some? ==> w.turn.value.cancel != Some(w.turn.value.request))
    && (forall t :: t in w.orphanTurns ==> w.orphanTurns[t].cancel != Some(w.orphanTurns[t].request))
  }

  /** The native host does not cancel a turn with the very request that started it. */
  predicate Careful(s: State, e: Event) {
    e.NativeSays? && e.frame.TurnCancel? && s.turn.Some? ==> e.frame.request != s.turn.value.request
  }

  predicate AllCareful(w: World, told: seq<Told>)
    decreases |told|
  {
    told != [] ==> Careful(w.state, told[0].event) && AllCareful(Advance(w, told[0]), told[1..])
  }

  /** What is outstanding still has the page's last word before it. */
  ghost predicate Live(s: State, finished: set<nat>) {
    && Apart(WorkOf(s)) && (forall c :: c in finished ==> c < |s.commands|)
    && (Busy(WorkOf(s)) == 1 ==> s.commands != [] && |s.commands| - 1 !in finished)
  }

  lemma ApplyApart(s: State, f: Application, ports: Ports)
    requires Apart(WorkOf(s)) && Careful(s, NativeSays(s.generation, f, ports))
    ensures Apart(WorkOf(Apply(s, f, ports).state))
  {
  }

  lemma NativeApart(s: State, f: Application, ports: Ports)
    requires Apart(WorkOf(s)) && Careful(s, NativeSays(s.generation, f, ports))
    ensures Apart(WorkOf(NativeOp(s, f, ports)))
  {
    hide Apply;
    ApplyApart(s, f, ports);
  }

  lemma DrainApart(s: State, e: PageEvent)
    requires Apart(WorkOf(s)) && Drain(s, e).Taken?
    ensures Apart(WorkOf(Drain(s, e).state))
  {
  }

  lemma PostApart(s: State, f: Sent, ports: Ports)
    requires Apart(WorkOf(s))
    ensures Apart(WorkOf(Post(s, f, ports)))
  {
  }

  lemma SessionEventApart(s: State, e: PageEvent, ports: Ports)
    requires Apart(WorkOf(s)) && s.session.Some?
    ensures Apart(WorkOf(SessionEvent(s, e, ports)))
  {
    hide Post;
    forall n: State, f | Apart(WorkOf(n)) ensures Apart(WorkOf(Post(n, f, ports))) {
      PostApart(n, f, ports);
    }
  }

  lemma StepApart(s: State, e: Event)
    requires Apart(WorkOf(s)) && Careful(s, e)
    ensures Apart(WorkOf(Step(s, e)))
  {
    hide Drain, SessionEvent, NativeOp, Apart;
    NothingApart();
    if e.PageSays? {
      if Drain(s, e.event).Taken? {
        DrainApart(s, e.event);
      }
      if s.session.Some? {
        SessionEventApart(s, e.event, e.ports);
      }
    } else if e.NativeSays? {
      NativeApart(s, e.frame, e.ports);
    }
  }

  lemma NothingApart()
    ensures Apart(Work(None, None, None, {}, map[]))
  {
  }

  /** What an event leaves when its page's last word is on the operation outstanding: nothing, or a new generation. */
  ghost predicate Cleared(s: State, u: State) {
    u.generation == s.generation + 1 || Busy(WorkOf(u)) == 0
  }

  lemma PostCleared(s: State, u: State, f: Sent, ports: Ports)
    requires Cleared(s, u) && u.generation == s.generation
    ensures Cleared(s, Post(u, f, ports))
  {
    hide Terminate;
    TerminateLeaves(u, true, Failing, ports);
  }

  lemma RejectCleared(s: State, ports: Ports)
    ensures Cleared(s, Terminate(s, true, Failing, ports))
  {
  }

  /** The last word on a read. */
  lemma ReadEnds(s: State, e: PageEvent, ports: Ports)
    requires Sound(s) && Busy(WorkOf(s)) == 1 && AboutRead(e) && s.commands != [] && Belongs(e, Last(s.commands))
             && PageUp(s)
    ensures Cleared(s, PageOp(s, e, ports))
  {
    hide Answered, PermitsOnce, PermitsKnown, ProgressOf, Bounded, Current, Post, Busy, Cleared, Terminate;
    RejectCleared(s, ports);
    LessBusy(WorkOf(s));
    if e.request in s.orphanReads {
      NoneButOrphan(WorkOf(s), e.request);
      ClearedByCount(s, s.(orphanReads := s.orphanReads - {e.request}));
    } else {
      var kind := if e.CatalogResult? then ReadResult else ReadFailure;
      var u := s.(read := None);
      ReadOutstanding(WorkOf(s), s.commands, s.generation, s.epoch);
      ClearedByCount(s, u);
      PostCleared(s, u, Answer(s, kind, e.request, s.session, None), ports);
    }
  }

  lemma ClearedByCount(s: State, u: State)
    requires Busy(WorkOf(s)) == 1 && Busy(WorkOf(u)) + 1 == Busy(WorkOf(s))
    ensures Cleared(s, u)
  {
  }

  lemma NoneButOrphan(w: Work, request: Text)
    requires request in w.orphanReads
    ensures Busy(w.(orphanReads := w.orphanReads - {request})) + 1 == Busy(w)
  {
  }

  lemma NoneButTurn(w: Work, id: Text)
    requires id in w.orphanTurns
    ensures Busy(w.(orphanTurns := w.orphanTurns - {id})) + 1 == Busy(w)
  {
    RemoveSize(w.orphanTurns, id);
  }

  /** The operation outstanding is a read if the last command is one, and a turn otherwise. */
  lemma ReadOutstanding(w: Work, commands: seq<Command>, generation: nat, epoch: nat)
    requires OneAtATime(w, commands, generation, epoch) && Busy(w) == 1 && commands != []
    ensures Last(commands).turn.None? ==>
              w.read == Some(Last(commands).request) || Last(commands).request in w.orphanReads
    ensures Last(commands).turn.Some? ==>
              || (w.turn.Some? && w.turn.value.id == Last(commands).turn.value)
              || Last(commands).turn.value in w.orphanTurns
  {
    if w.orphanReads != {} {
      var r :| r in w.orphanReads;
    }
    if w.orphanTurns != map[] {
      var t :| t in w.orphanTurns;
    }
  }

  /** The last word on a turn that a closed session left behind. */
  lemma OrphanEnds(s: State, e: PageEvent, ports: Ports)
    requires Sound(s) && Busy(WorkOf(s)) == 1 && s.commands != [] && Ends(e, Last(s.commands)) && PageUp(s)
    requires Belongs(e, Last(s.commands)) && TurnOf(e).Some? && TurnOf(e).value in s.orphanTurns
    ensures Cleared(s, PageOp(s, e, ports))
  {
    hide Answered, PermitsOnce, PermitsKnown, ProgressOf, Bounded, Current, Post, Busy, Cleared, Terminate;
    RejectCleared(s, ports);
    NoneButTurn(WorkOf(s), TurnOf(e).value);
    ClearedByCount(s, s.(orphanTurns := s.orphanTurns - {TurnOf(e).value}));
  }

  /** The last word on the turn of the session. */
  lemma TurnEnds(s: State, e: PageEvent, ports: Ports)
    requires Sound(s) && Apart(WorkOf(s)) && Busy(WorkOf(s)) == 1 && s.commands != [] && Ends(e, Last(s.commands))
             && PageUp(s)
    requires Belongs(e, Last(s.commands)) && s.turn.Some? && TurnOf(e) == Some(s.turn.value.id)
             && s.orphanTurns == map[]
    ensures Cleared(s, PageOp(s, e, ports))
  {
    hide Answered, PermitsOnce, PermitsKnown, ProgressOf, Bounded, Current, Post, Busy, Cleared, Terminate;
    RejectCleared(s, ports);
    LessBusy(WorkOf(s));
    var u := s.(turn := None);
    ClearedByCount(s, u);
    var kind := if e.Completed? then TurnDone else if e.CancelledIt? then TurnStopped else TurnFailure;
    var request := if e.Completed? then s.turn.value.request else e.request;
    PostCleared(s, u, Answer(s, kind, request, Some(s.turn.value.session), Some(s.turn.value.id)), ports);
  }

  /** The page's last word on what is outstanding leaves nothing outstanding. */
  lemma LastWord(s: State, e: PageEvent, ports: Ports)
    requires Sound(s) && Apart(WorkOf(s)) && Busy(WorkOf(s)) == 1 && s.commands != []
    requires Ends(e, Last(s.commands)) && Belongs(e, Last(s.commands))
    ensures Cleared(s, PageOp(s, e, ports))
  {
    hide Core, Linked, Current, PermitsKnown, PageOp, Cleared, OneAtATime, Busy, Apart;
    if !PageUp(s) {
      RejectsUnready(s, e, ports);
    } else if AboutRead(e) {
      ReadEnds(s, e, ports);
    } else {
      ReadOutstanding(WorkOf(s), s.commands, s.generation, s.epoch);
      if TurnOf(e).value in s.orphanTurns {
        OrphanEnds(s, e, ports);
      } else {
        BusyIsOne(WorkOf(s));
        TurnEnds(s, e, ports);
      }
    }
  }

  lemma RejectsUnready(s: State, e: PageEvent, ports: Ports)
    requires !PageUp(s)
    ensures Cleared(s, PageOp(s, e, ports))
  {
    hide Terminate, Cleared, Drain, SessionEvent;
    RejectCleared(s, ports);
  }

  lemma BusyIsOne(w: Work)
    requires Busy(w) == 1 && w.turn.Some?
    ensures w.orphanTurns == map[]
  {
    NoOrphans(w);
  }

  lemma LiveStep(w: World, t: Told)
    requires Sound(w.state) && Matched(w.state, w.finished) && Live(w.state, w.finished)
    requires Fair(w, t) && Careful(w.state, t.event)
    ensures Live(Advance(w, t).state, Advance(w, t).finished)
  {
    hide Step, Answered, PermitsOnce, PermitsKnown, ProgressOf, Bounded, Linked, Current, Belongs, Ends, RefusesCancel,
      Terminate, Renamed, Busy, Apart, Careful, PageOp, Matched;
    var s, u := w.state, Step(w.state, t.event);
    StepSound(s, t.event);
    StepKeeps(s, t.event);
    StepApart(s, t.event);
    BusyBound(s);
    if u.generation != s.generation {
      GoneIsIdle(s, t.event);
    } else if Answering(s, t.event) && t.about == |s.commands| - 1 && Ends(t.event.event, Last(s.commands)) {
      if Busy(WorkOf(s)) == 1 {
        LastWord(s, t.event.event, t.event.ports);
        SaysOp(s, t.event);
      }
    }
  }

  lemma BusyBound(s: State)
    requires Sound(s)
    ensures Busy(WorkOf(s)) <= 1
  {
  }

  lemma SaysOp(s: State, e: Event)
    requires Answering(s, e)
    ensures Step(s, e) == PageOp(s, e.event, e.ports)
  {
  }

  /** A generation begins with nothing asked. */
  lemma GoneIsIdle(s: State, e: Event)
    requires Sound(s) && Step(s, e).generation != s.generation
    ensures Busy(WorkOf(Step(s, e))) == 0
  {
    hide Step, Bounded, PermitsOnce, PermitsKnown, Linked, Current, Answered;
    StepSound(s, e);
    StepKeeps(s, e);
    FreshIsIdle(s, Step(s, e));
  }

  lemma FreshIsIdle(s: State, u: State)
    requires Core(s) && OneAtATime(WorkOf(u), u.commands, u.generation, u.epoch)
    requires u.generation == s.generation + 1 && u.commands == s.commands
    ensures Busy(WorkOf(u)) == 0
  {
    hide Answered, PermitsOnce;
    assert !LeftOver(u.commands, u.generation, u.epoch, u.session)
      && !Ours(u.commands, u.generation, u.epoch, u.session);
    assert u.orphanReads == {} && u.orphanTurns.Keys == {};
    NothingBusy(WorkOf(u));
  }

  lemma {:induction false} AllLive(w: World, told: seq<Told>)
    requires Sound(w.state) && Matched(w.state, w.finished) && Live(w.state, w.finished)
    requires AllFair(w, told) && AllCareful(w, told)
    ensures Live(AdvanceAll(w, told).state, AdvanceAll(w, told).finished)
    decreases |told|
  {
    hide Sound, Matched, Live, Advance, Fair, Careful;
    if told != [] {
      MatchedStep(w, told[0]);
      LiveStep(w, told[0]);
      AllLive(Advance(w, told[0]), told[1..]);
    }
  }

  /**
    Against a fair page, in every run whose cancellations have identifiers of their own: a
    refusal that comes after the page's last word on its turn ends the page, the native
    connection and the session, whichever session is open by then; it is not sent on.
   */
  lemma LateRefusalsEnd(told: seq<Told>, t: Told)
    requires AllFair(World(Begin(), {}), told) && AllCareful(World(Begin(), {}), told)
    requires var w := AdvanceAll(World(Begin(), {}), told);
             Fair(w, t) && Answering(w.state, t.event) && t.about in w.finished
    ensures var s := AdvanceAll(World(Begin(), {}), told).state;
            Step(s, t.event) == Terminate(s, true, Failing, t.event.ports)
  {
    hide Step, AdvanceAll, AllFair, AllCareful, Terminate, Matched, Busy, Fair, Answering, Sound;
    BeginSound();
    NothingAsked();
    NothingLive();
    AllMatched(World(Begin(), {}), told);
    AllLive(World(Begin(), {}), told);
    var w := AdvanceAll(World(Begin(), {}), told);
    BusyBound(w.state);
    FairAbout(w, t);
    LateRefusal(w, t);
  }

  lemma FairAbout(w: World, t: Told)
    requires Fair(w, t) && Answering(w.state, t.event)
    ensures t.about < |w.state.commands|
  {
  }

  lemma NothingLive()
    ensures Live(Begin(), {})
  {
  }
}
