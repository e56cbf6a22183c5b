/**
  What holds of the tab session at every moment: at most one operation of the page is outstanding,
  and what the native host has heard of each command.
 */
module TabSessionInvariant {
  import opened Results
  import opened Utf16
  import opened Tables
  import opened TabSession

  // ----- one operation at a time -----

  /** What is asked of the page, for the session and for sessions that are over. */
  datatype Work = Work(
    session: Option<Text>, read: Option<Text>, turn: Option<PageTurn>, orphanReads: set<Text>,
    orphanTurns: map<Text, PageTurn>)

  function WorkOf(s: State): Work {
    Work(s.session, s.read, s.turn, s.orphanReads, s.orphanTurns)
  }

  function Busy(w: Work): nat {
    (if w.read.Some? then 1 else 0) + (if w.turn.Some? then 1 else 0) + |w.orphanReads| + |w.orphanTurns|
  }

  function Last(commands: seq<Command>): Command
    requires commands != []
  {
    commands[|commands| - 1]
  }

  /** The last command was given in this session. */
  predicate Ours(commands: seq<Command>, generation: nat, epoch: nat, session: Option<Text>) {
    && commands != [] && Last(commands).generation == generation && Last(commands).epoch == epoch
    && session == Some(Last(commands).session)
  }

  /** The last command was given in a session that is over. */
  predicate LeftOver(commands: seq<Command>, generation: nat, epoch: nat, session: Option<Text>) {
    && commands != [] && Last(commands).generation == generation && (session.Some? ==> Last(commands).epoch < epoch)
  }

  predicate IsTurn(c: Command, id: Text, t: PageTurn) {
    t.id == id && c.turn == Some(id) && t.request == c.request && t.session == c.session
  }

  /** At most one operation is outstanding, and it is the last command. */
  ghost predicate OneAtATime(w: Work, commands: seq<Command>, generation: nat, epoch: nat) {
    && Busy(w) <= 1
    && (w.read.Some? ==>
          Ours(commands, generation, epoch, w.session) && Last(commands).turn.None?
            && Last(commands).request == w.read.value)
    && (w.turn.Some? ==>
          Ours(commands, generation, epoch, w.session)
            && IsTurn(Last(commands), w.turn.value.id, w.turn.value))
    && (forall r :: r in w.orphanReads ==>
          LeftOver(commands, generation, epoch, w.session) && Last(commands).turn.None? && Last(commands).request == r)
    && (forall t :: t in w.orphanTurns ==>
          LeftOver(commands, generation, epoch, w.session) && IsTurn(Last(commands), t, w.orphanTurns[t]))
  }

  ghost predicate Bounded(commands: seq<Command>, generation: nat, epoch: nat) {
    forall c :: 0 <= c < |commands| ==> commands[c].generation <= generation && commands[c].epoch <= epoch
  }

  // ----- what the native host hears of a command -----

  datatype Progress = Unanswered | Running | Ended | Broken

  /** A read has one answer; a turn begins at most once, streams, and ends once. */
  function Next(p: Progress, isRead: bool, kind: Kind): Progress {
    if isRead then if p.Unanswered? && (kind.ReadResult? || kind.ReadFailure?) then Ended else Broken
    else if p.Unanswered? && kind.TurnBegun? then Running
    else if p.Running? && kind.TurnText? then Running
    else if p.Running? && kind.TurnDone? then Ended
    else if (p.Unanswered? || p.Running?) && (kind.TurnStopped? || kind.TurnFailure?) then Ended
    else if (p.Unanswered? || p.Running?) && kind.CancelFailure? then p
    else Broken
  }

  function ProgressOf(sent: seq<Sent>, c: int, isRead: bool): Progress {
    if sent == [] then Unanswered
    else
      var before, last := ProgressOf(sent[..|sent| - 1], c, isRead), sent[|sent| - 1];
      if last.command == Some(c) then Next(before, isRead, last.kind) else before
  }

  predicate Answers(f: Sent, c: Command) {
    && f.session == Some(c.session) && f.epoch == c.epoch && f.turn == c.turn
    && (f.kind.TurnStopped? || f.kind.CancelFailure? || f.request == c.request)
  }

  /** Each answer goes out in the session of its command, and each command is answered in order. */
  ghost predicate Answered(sent: seq<Sent>, commands: seq<Command>) {
    && (forall k :: 0 <= k < |sent| && sent[k].command.Some? ==>
          0 <= sent[k].command.value < |commands| && Answers(sent[k], commands[sent[k].command.value]))
    && (forall c :: 0 <= c < |commands| ==> !ProgressOf(sent, c, commands[c].turn.None?).Broken?)
  }

  ghost predicate Current(w: Work, sent: seq<Sent>, commands: seq<Command>) {
    && (w.read.Some? ==> ProgressOf(sent, |commands| - 1, true).Unanswered?)
    && (w.turn.Some? ==>
          ProgressOf(sent, |commands| - 1, false) == if w.turn.value.started then Running else Unanswered)
  }

  // ----- permits, links -----

  /** In one generation no permit is used twice. */
  ghost predicate PermitsOnce(commands: seq<Command>) {
    forall i, j ::
      (0 <= i < j < |commands| && commands[i].generation == commands[j].generation && commands[i].permit.Some?) ==>
        commands[i].permit != commands[j].permit
  }

  ghost predicate PermitsKnown(permits: set<Text>, commands: seq<Command>, generation: nat) {
    && |permits| <= MAX_PERMITS
    && forall c :: 0 <= c < |commands| && commands[c].generation == generation && commands[c].permit.Some? ==>
         commands[c].permit.value in permits
  }

  /** A session needs a native connection, that a page; a page waits for nothing. */
  ghost predicate Linked(s: State) {
    && (forall g :: g in s.stages ==> g <= s.generation)
    && (s.page.Some? ==> s.page.value.generation == s.generation && s.generation !in s.stages)
    && (s.native.Some? ==> s.native.value.generation == s.generation && PageUp(s))
    && (s.session.Some? ==> NativeUp(s))
  }

  ghost predicate Core(s: State) {
    && Bounded(s.commands, s.generation, s.epoch) && Answered(s.sent, s.commands) && PermitsOnce(s.commands)
    && (forall g :: g in s.stages ==> g <= s.generation)
  }

  ghost predicate Sound(s: State) {
    && Core(s) && Linked(s) && OneAtATime(WorkOf(s), s.commands, s.generation, s.epoch)
    && Current(WorkOf(s), s.sent, s.commands) && PermitsKnown(s.permits, s.commands, s.generation)
  }

  // ----- the log of frames -----

  lemma ProgressOfMore(sent: seq<Sent>, f: Sent, c: int, isRead: bool)
    ensures ProgressOf(sent + [f], c, isRead) ==
            if f.command == Some(c) then Next(ProgressOf(sent, c, isRead), isRead, f.kind)
              else ProgressOf(sent, c, isRead)
  {
    assert (sent + [f])[..|sent|] == sent;
  }

  lemma {:induction false} Untouched(sent: seq<Sent>, c: int, isRead: bool)
    requires forall k :: 0 <= k < |sent| ==> sent[k].command != Some(c)
    ensures ProgressOf(sent, c, isRead).Unanswered?
    decreases |sent|
  {
    if sent != [] {
      Untouched(sent[..|sent| - 1], c, isRead);
    }
  }

  /** A frame that answers no command. */
  lemma PlainFrame(sent: seq<Sent>, f: Sent, commands: seq<Command>, w: Work)
    requires f.command.None? && Answered(sent, commands) && Current(w, sent, commands)
    ensures Answered(sent + [f], commands) && Current(w, sent + [f], commands)
  {
    hide ProgressOf, Answers;
    forall c | 0 <= c < |commands|
      ensures ProgressOf(sent + [f], c, commands[c].turn.None?) == ProgressOf(sent, c, commands[c].turn.None?)
    {
      ProgressOfMore(sent, f, c, commands[c].turn.None?);
    }
    ProgressOfMore(sent, f, |commands| - 1, true);
    ProgressOfMore(sent, f, |commands| - 1, false);
  }

  /** An answer to the last command, in its turn. */
  lemma AnswerFrame(sent: seq<Sent>, f: Sent, commands: seq<Command>)
    requires commands != [] && Answered(sent, commands)
    requires f.command == Some(|commands| - 1) && Answers(f, Last(commands))
    requires var isRead := Last(commands).turn.None?;
             !Next(ProgressOf(sent, |commands| - 1, isRead), isRead, f.kind).Broken?
    ensures var isRead := Last(commands).turn.None?;
            && Answered(sent + [f], commands)
            && ProgressOf(sent + [f], |commands| - 1, isRead) ==
               Next(ProgressOf(sent, |commands| - 1, isRead), isRead, f.kind)
  {
    hide ProgressOf, Answers, Next;
    forall c | 0 <= c < |commands|
      ensures !ProgressOf(sent + [f], c, commands[c].turn.None?).Broken?
    {
      ProgressOfMore(sent, f, c, commands[c].turn.None?);
    }
    ProgressOfMore(sent, f, |commands| - 1, Last(commands).turn.None?);
  }

  lemma NewCommand(sent: seq<Sent>, commands: seq<Command>, c: Command)
    requires Answered(sent, commands)
    ensures Answered(sent, commands + [c]) && ProgressOf(sent, |commands|, c.turn.None?).Unanswered?
  {
    hide ProgressOf, Answers;
    Untouched(sent, |commands|, c.turn.None?);
  }
  // ----- endings and single messages -----

  lemma TerminateSound(s: State, told: bool, status: Status, ports: Ports)
    requires Core(s)
    ensures Sound(Terminate(s, told, status, ports))
  {
    hide Answered, PermitsOnce;
    var u := Terminate(s, told, status, ports);
    if u.sent != s.sent {
      var f := u.sent[|s.sent|];
      assert u.sent == s.sent + [f];
      PlainFrame(s.sent, f, s.commands, WorkOf(u));
    } else {
      assert u.sent == s.sent;
    }
  }

  lemma PlainSound(s: State, f: Sent, ports: Ports)
    requires Sound(s) && f.command.None?
    ensures Sound(Post(s, f, ports))
  {
    hide Answered, Current, OneAtATime, PermitsOnce, PermitsKnown, Terminate;
    TerminateSound(s, true, Failing, ports);
    PlainFrame(s.sent, f, s.commands, WorkOf(s));
  }

  /** The page's answer to the last command; `u` is what the handler leaves. */
  lemma AnswerSound(u: State, f: Sent, ports: Ports)
    requires Core(u) && Linked(u) && OneAtATime(WorkOf(u), u.commands, u.generation, u.epoch)
    requires PermitsKnown(u.permits, u.commands, u.generation) && u.commands != []
    requires f.command == Some(|u.commands| - 1) && Answers(f, Last(u.commands))
    requires var isRead := Last(u.commands).turn.None?;
             var next := Next(ProgressOf(u.sent, |u.commands| - 1, isRead), isRead, f.kind);
             !next.Broken? && u.read.None? && (u.turn.Some? ==> !isRead && next == if u.turn.value.started
                                               then Running else Unanswered)
    ensures Sound(Post(u, f, ports))
  {
    hide Answered, OneAtATime, PermitsOnce, PermitsKnown, Terminate, Answers, Next, ProgressOf;
    TerminateSound(u, true, Failing, ports);
    AnswerFrame(u.sent, f, u.commands);
  }

  /** A command given to the page while nothing else is outstanding. */
  lemma AskSound(u: State, c: Command, ports: Ports)
    requires Core(u) && Linked(u)
    requires c.generation == u.generation && c.epoch == u.epoch
    requires OneAtATime(WorkOf(u), u.commands + [c], u.generation, u.epoch)
    requires u.turn.Some? ==> !u.turn.value.started && c.turn.Some?
    requires u.read.Some? ==> c.turn.None?
    requires PermitsOnce(u.commands + [c]) && PermitsKnown(u.permits, u.commands + [c], u.generation)
    ensures Sound(Ask(u, c, ports))
  {
    hide Answered, OneAtATime, PermitsOnce, PermitsKnown, Terminate, ProgressOf;
    TerminateSound(u, true, Failing, ports);
    NewCommand(u.sent, u.commands, c);
  }

  // ----- frames of the native host -----

  lemma OpenSound(s: State, session: Text)
    requires Sound(s) && NativeUp(s) && s.session.None?
    ensures Sound(s.(session := Some(session), epoch := s.epoch + 1))
  {
    hide Answered, PermitsOnce, PermitsKnown, ProgressOf;
  }

  lemma NoOrphans(w: Work)
    requires Busy(w) <= 1 && (w.read.Some? || w.turn.Some?)
    ensures w.orphanReads == {} && w.orphanTurns == map[] && (w.read.None? || w.turn.None?)
  {
    assert |w.orphanReads| == 0 && |w.orphanTurns| == 0;
    assert w.orphanTurns.Keys == {};
  }

  lemma SizeOfOne<K, V>(k: K, v: V)
    ensures |map[k := v]| == 1
  {
    assert map[k := v].Keys == {k};
  }

  lemma ReadLeftOver(w: Work, commands: seq<Command>, generation: nat, epoch: nat)
    requires OneAtATime(w, commands, generation, epoch) && w.read.Some?
    ensures w.turn.None? && w.orphanTurns == map[] && w.orphanReads + {w.read.value} == {w.read.value}
    ensures OneAtATime(Work(None, None, None, {w.read.value}, map[]), commands, generation, epoch)
  {
    NoOrphans(w);
  }

  lemma TurnLeftOver(w: Work, commands: seq<Command>, generation: nat, epoch: nat)
    requires OneAtATime(w, commands, generation, epoch) && w.turn.Some?
    ensures w.read.None? && w.orphanReads == {} && w.orphanTurns[w.turn.value.id := w.turn.value] ==
            map[w.turn.value.id := w.turn.value]
    ensures OneAtATime(Work(None, None, None, {}, map[w.turn.value.id := w.turn.value]), commands, generation, epoch)
  {
    NoOrphans(w);
    SizeOfOne(w.turn.value.id, w.turn.value);
  }

  lemma DisconnectSound(s: State, request: Text, session: Text)
    requires Sound(s)
    ensures Sound(DisconnectFrame(s, request, session).state)
  {
    hide Answered, PermitsOnce, PermitsKnown, ProgressOf, OneAtATime;
    if s.session == Some(session) {
      if s.read.Some? {
        ReadLeftOver(WorkOf(s), s.commands, s.generation, s.epoch);
      } else if s.turn.Some? {
        TurnLeftOver(WorkOf(s), s.commands, s.generation, s.epoch);
      } else {
        OrphansLeftOver(WorkOf(s), s.commands, s.generation, s.epoch);
      }
    }
  }

  lemma OrphansLeftOver(w: Work, commands: seq<Command>, generation: nat, epoch: nat)
    requires OneAtATime(w, commands, generation, epoch) && w.read.None? && w.turn.None?
    ensures OneAtATime(w.(session := None), commands, generation, epoch)
  {
  }

  lemma ReadSound(s: State, request: Text, session: Text, ports: Ports)
    requires Sound(s)
    ensures Sound(ReadFrame(s, request, session, ports).state)
  {
    hide Answered, PermitsOnce, PermitsKnown, ProgressOf, Ask;
    var c := Command(s.generation, s.epoch, session, request, None, None);
    PermitsFree(s.permits, s.commands, c);
    if s.session == Some(session) && s.read.None? && s.turn.None? && !HasOrphans(s) {
      AskSound(s.(read := Some(request)), c, ports);
    }
  }

  lemma PermitsFree(permits: set<Text>, commands: seq<Command>, c: Command)
    requires PermitsOnce(commands) && PermitsKnown(permits, commands, c.generation) && c.permit.None?
    ensures PermitsOnce(commands + [c]) && PermitsKnown(permits, commands + [c], c.generation)
  {
  }

  lemma PermitsTaken(permits: set<Text>, commands: seq<Command>, c: Command)
    requires PermitsOnce(commands) && PermitsKnown(permits, commands, c.generation)
    requires c.permit.Some? && c.permit.value !in permits && |permits| < MAX_PERMITS
    ensures PermitsOnce(commands + [c]) && PermitsKnown(permits + {c.permit.value}, commands + [c], c.generation)
  {
  }

  lemma TurnAsked(s: State, request: Text, session: Text, turn: Text, permit: Option<Text>, ports: Ports)
    requires Core(s) && Linked(s) && s.session == Some(session) && s.read.None? && s.turn.None? && !HasOrphans(s)
    requires var c := Command(s.generation, s.epoch, session, request, Some(turn), permit);
             PermitsOnce(s.commands + [c]) && PermitsKnown(s.permits, s.commands + [c], s.generation)
    ensures Sound(BeginTurn(s, request, session, turn, permit, ports))
  {
    hide Answered, PermitsOnce, PermitsKnown, ProgressOf, Ask;
    var c := Command(s.generation, s.epoch, session, request, Some(turn), permit);
    AskSound(s.(turn := Some(PageTurn(turn, request, session, permit, false, None))), c, ports);
  }

  lemma StartSound(s: State, f: Application, ports: Ports)
    requires Sound(s) && f.TurnStart?
    ensures Sound(StartFrame(s, f, ports).state)
  {
    hide Answered, PermitsOnce, PermitsKnown, OneAtATime, Current, BeginTurn;
    var c := Command(s.generation, s.epoch, f.session, f.request, Some(f.turnId), None);
    PermitsFree(s.permits, s.commands, c);
    if s.session == Some(f.session) && s.turn.None? && s.read.None? && !HasOrphans(s) && f.fits {
      TurnAsked(s, f.request, f.session, f.turnId, None, ports);
    }
  }

  lemma AgentStartSound(s: State, f: Application, ports: Ports)
    requires Sound(s) && f.AgentTurnStart?
    ensures Sound(AgentStartFrame(s, f, ports).state)
  {
    hide Answered, PermitsOnce, PermitsKnown, OneAtATime, Current, BeginTurn;
    var c := Command(s.generation, s.epoch, f.session, f.request, Some(f.turnId), Some(f.permit));
    if && s.session == Some(f.session) && s.turn.None? && s.read.None? && !HasOrphans(s)
       && |s.permits| < MAX_PERMITS && f.permit !in s.permits {
      PermitsTaken(s.permits, s.commands, c);
      TurnAsked(s.(permits := s.permits + {f.permit}), f.request, f.session, f.turnId, Some(f.permit), ports);
    }
  }

  lemma CancelSound(s: State, request: Text, session: Text, turn: Text, ports: Ports)
    requires Sound(s)
    ensures Sound(CancelFrame(s, request, session, turn, ports).state)
  {
    hide Answered, PermitsOnce, PermitsKnown, ProgressOf, Terminate;
    if s.turn.Some? {
      var asked := s.(turn := Some(s.turn.value.(cancel := Some(request))));
      TerminateSound(asked, true, Failing, ports);
    }
  }

  lemma ApplySound(s: State, f: Application, ports: Ports)
    requires Sound(s) && NativeUp(s)
    ensures var h := Apply(s, f, ports); Sound(h.state) && (h.reply.Some? ==> h.reply.value.command.None?)
  {
    hide Sound, Core, Terminate, Ask;
    SoundCore(s);
    match f {
      case SessionConnect(request, session) =>
        if s.session.None? {
          OpenSound(s, session);
        }
      case SessionDisconnect(request, session) => DisconnectSound(s, request, session);
      case CapabilitiesRead(request, session) => ReadSound(s, request, session, ports);
      case AgentTurnStart(_, _, _, _, _, _) => AgentStartSound(s, f, ports);
      case TurnStart(_, _, _, _) => StartSound(s, f, ports);
      case TurnCancel(request, session, turn) => CancelSound(s, request, session, turn, ports);
      case _ => TerminateSound(s, true, Failing, ports);
    }
  }

  lemma SoundCore(s: State)
    requires Sound(s)
    ensures Core(s)
  {
  }

  lemma NativeSound(s: State, f: Application, ports: Ports)
    requires Sound(s)
    ensures Sound(NativeOp(s, f, ports))
  {
    hide Sound, Core, Terminate, Apply, Post;
    SoundCore(s);
    TerminateSound(s, true, Failing, ports);
    if NativeUp(s) {
      ApplySound(s, f, ports);
      var h := Apply(s, f, ports);
      if h.reply.Some? {
        PlainSound(h.state, h.reply.value, ports);
      }
    }
  }

  // ----- events of the page -----

  lemma DrainReadSound(s: State, request: Text)
    requires Sound(s) && request in s.orphanReads
    ensures Sound(s.(orphanReads := s.orphanReads - {request}))
  {
    hide Answered, PermitsOnce, PermitsKnown, ProgressOf;
  }

  lemma DrainTurnSound(s: State, e: PageEvent, id: Text)
    requires Sound(s) && id in s.orphanTurns && TurnOf(e).Some?
    ensures var d := DrainTurn(s, e, id); d.Taken? ==> Sound(d.state)
  {
    hide Answered, PermitsOnce, PermitsKnown, ProgressOf;
    var turn := s.orphanTurns[id];
    RemoveSize(s.orphanTurns, id);
    InsertSize(s.orphanTurns, id, turn.(started := true));
    InsertSize(s.orphanTurns, id, turn.(cancel := None));
  }

  lemma DrainSound(s: State, e: PageEvent)
    requires Sound(s)
    ensures var d := Drain(s, e); d.Taken? ==> Sound(d.state)
  {
    hide Sound, DrainTurn;
    if AboutRead(e) && e.request in s.orphanReads {
      DrainReadSound(s, e.request);
    } else if TurnOf(e).Some? && TurnOf(e).value in s.orphanTurns {
      DrainTurnSound(s, e, TurnOf(e).value);
    }
  }

  lemma ReadAnswered(s: State, kind: Kind, ports: Ports)
    requires Sound(s) && s.read.Some? && s.session.Some? && (kind.ReadResult? || kind.ReadFailure?)
    ensures Sound(Post(s.(read := None), Answer(s, kind, s.read.value, s.session, None), ports))
  {
    hide Answered, PermitsOnce, PermitsKnown, ProgressOf, Post;
    NoOrphans(WorkOf(s));
    AnswerSound(s.(read := None), Answer(s, kind, s.read.value, s.session, None), ports);
  }

  lemma TurnEnded(s: State, kind: Kind, request: Text, ports: Ports)
    requires Sound(s) && s.turn.Some?
    requires || (kind.TurnDone? && s.turn.value.started) || kind.TurnStopped? || kind.TurnFailure?
    requires kind.TurnStopped? || request == s.turn.value.request
    ensures Sound(AnswerTurn(s, s.(turn := None), kind, request, ports))
  {
    hide Answered, PermitsOnce, PermitsKnown, ProgressOf, Post;
    NoOrphans(WorkOf(s));
    AnswerSound(s.(turn := None), Answer(s, kind, request, Some(s.turn.value.session), Some(s.turn.value.id)), ports);
  }

  lemma TurnContinues(s: State, after: PageTurn, kind: Kind, request: Text, ports: Ports)
    requires Sound(s) && s.turn.Some? && after == s.turn.value.(started := after.started, cancel := after.cancel)
    requires || (kind.TurnBegun? && !s.turn.value.started && after.started)
             || (kind.TurnText? && s.turn.value.started && after.started)
             || (kind.CancelFailure? && after.started == s.turn.value.started)
    requires kind.CancelFailure? || request == s.turn.value.request
    ensures Sound(AnswerTurn(s, s.(turn := Some(after)), kind, request, ports))
  {
    hide Answered, PermitsOnce, PermitsKnown, ProgressOf, Post;
    NoOrphans(WorkOf(s));
    AnswerSound(s.(turn := Some(after)), Answer(s, kind, request, Some(s.turn.value.session), Some(s.turn.value.id)),
                ports);
  }

  lemma FailedSound(s: State, request: Text, about: Option<Text>, ports: Ports)
    requires Sound(s) && s.session.Some?
    ensures Sound(FailedEvent(s, request, about, ports))
  {
    hide Sound, Core, Terminate, Post, AnswerTurn;
    SoundCore(s);
    TerminateSound(s, true, Failing, ports);
    if s.read == Some(request) && about.None? {
      ReadAnswered(s, ReadFailure, ports);
    } else if s.turn.Some? && about.Some? && Expected(s, about.value) {
      if s.turn.value.cancel == Some(request) {
        TurnContinues(s, s.turn.value.(cancel := None), CancelFailure, request, ports);
      } else if request == s.turn.value.request {
        TurnEnded(s, TurnFailure, request, ports);
      }
    }
  }

  lemma SessionEventSound(s: State, e: PageEvent, ports: Ports)
    requires Sound(s) && s.session.Some?
    ensures Sound(SessionEvent(s, e, ports))
  {
    hide Sound, Core, Terminate, Post, AnswerTurn, FailedEvent;
    SoundCore(s);
    TerminateSound(s, true, Failing, ports);
    match e {
      case CatalogChanged => PlainSound(s, Plain(s, CatalogChange, [], None), ports);
      case CatalogResult(request) =>
        if s.read == Some(request) {
          ReadAnswered(s, ReadResult, ports);
        }
      case Started(request, turn) =>
        if Expected(s, turn) && !s.turn.value.started && request == s.turn.value.request {
          TurnContinues(s, s.turn.value.(started := true), TurnBegun, request, ports);
        }
      case Delta(turn) =>
        if Expected(s, turn) && s.turn.value.started {
          TurnContinues(s, s.turn.value, TurnText, s.turn.value.request, ports);
        }
      case Completed(turn) =>
        if Expected(s, turn) && s.turn.value.started {
          TurnEnded(s, TurnDone, s.turn.value.request, ports);
        }
      case CancelledIt(request, turn) =>
        if Expected(s, turn) {
          TurnEnded(s, TurnStopped, request, ports);
        }
      case CommandFailed(request, about) => FailedSound(s, request, about, ports);
      case DocumentChanged =>
    }
  }

  lemma PageSound(s: State, e: PageEvent, ports: Ports)
    requires Sound(s)
    ensures Sound(PageOp(s, e, ports))
  {
    hide Sound, Core, Terminate, Drain, SessionEvent;
    SoundCore(s);
    TerminateSound(s, true, Failing, ports);
    DrainSound(s, e);
    if s.session.Some? {
      SessionEventSound(s, e, ports);
    }
  }

  // ----- connecting -----

  lemma ConnectSound(s: State)
    requires Sound(s)
    ensures Sound(ConnectOp(s))
  {
    hide Answered, PermitsOnce, PermitsKnown, OneAtATime, Current, Terminate;
    TerminateSound(s, false, Connecting, Ports(false, false, false));
    var clean := Terminate(s, false, Connecting, Ports(false, false, false));
    TerminateLeaves(s, false, Connecting, Ports(false, false, false));
  }

  lemma TerminateLeaves(s: State, told: bool, status: Status, ports: Ports)
    ensures var u := Terminate(s, told, status, ports);
            u.page.None? && u.native.None? && u.session.None? && u.generation == s.generation + 1
              && u.stages == s.stages
            && u.commands == s.commands
  {
  }

  lemma ConnectStepSound(s: State, generation: nat, found: Found, next: Option<Stage>, page: Option<Page>)
    requires Sound(s) && generation in s.stages
    requires page.Some? ==> page.value == Page(generation, false) && next.None?
    ensures Sound(ConnectStep(s, generation, found, next, page))
  {
    hide Answered, PermitsOnce, PermitsKnown, OneAtATime, Current, Terminate;
    var over := s.(stages := s.stages - {generation});
    TerminateSound(over, false, Failing, Ports(false, false, false));
  }

  lemma StepSound(s: State, e: Event)
    requires Sound(s)
    ensures Sound(Step(s, e))
  {
    hide Answered, PermitsOnce, PermitsKnown, OneAtATime, Current, Terminate, ConnectOp, ConnectStep, PageOp, NativeOp;
    match e {
      case Connect => ConnectSound(s);
      case TabsRead(generation, found) =>
        if Waiting(s, generation, AwaitTabs) {
          ConnectStepSound(s, generation, found, Some(AwaitInjection), None);
        }
      case Injected(generation, found) =>
        if Waiting(s, generation, AwaitInjection) {
          ConnectStepSound(s, generation, found, None, Some(Page(generation, false)));
        }
      case Disconnect(ports) => TerminateSound(s, true, Idle, ports);
      case PageReady(generation, opens, ports) =>
        TerminateSound(s, true, Failing, ports);
        TerminateSound(s.(page := Some(Page(generation, true))), true, Failing, ports);
      case PageSays(generation, event, ports) => PageSound(s, event, ports);
      case PageTrouble(generation, ports) => TerminateSound(s, true, Failing, ports);
      case PageGone(generation, ports) => TerminateSound(s, true, Failing, ports);
      case NativeReady(generation, ports) => TerminateSound(s, true, Failing, ports);
      case NativeSays(generation, frame, ports) => NativeSound(s, frame, ports);
      case NativeTrouble(generation, ports) => TerminateSound(s, true, Failing, ports);
      case NativeGone(generation, ports) => TerminateSound(s, true, Failing, ports);
    }
  }

  lemma {:induction false} RunSound(s: State, events: seq<Event>)
    requires Sound(s)
    ensures Sound(Run(s, events))
    decreases |events|
  {
    hide Sound, Step;
    if events != [] {
      StepSound(s, events[0]);
      RunSound(Step(s, events[0]), events[1..]);
    }
  }

  lemma BeginSound()
    ensures Sound(Begin())
  {
  }

  /**
    In every run at most one operation of the page is outstanding, counting the read, the turn
    and what closed sessions left behind; and what the native host has heard of any command went
    out in the session of that command, in order: a read is answered once, a turn begins once,
    streams only then and ends once.
   */
  lemma OneOperation(events: seq<Event>, k: nat, c: nat)
    ensures var s := Run(Begin(), events);
            && Busy(WorkOf(s)) <= 1
            && (k < |s.sent| && s.sent[k].command.Some? ==>
                  0 <= s.sent[k].command.value < |s.commands|
                    && Answers(s.sent[k], s.commands[s.sent[k].command.value]))
            && (c < |s.commands| ==> !ProgressOf(s.sent, c, s.commands[c].turn.None?).Broken?)
  {
    hide Run, Bounded, PermitsOnce, PermitsKnown, ProgressOf, Answers, Linked, Current;
    BeginSound();
    RunSound(Begin(), events);
  }

  /** No agent turn's permit is used twice with one page, and no more than the limit are used. */
  lemma PermitsAreOneShot(events: seq<Event>, i: nat, j: nat)
    ensures var s := Run(Begin(), events);
            && |s.permits| <= MAX_PERMITS
            && (i < j < |s.commands| && s.commands[i].generation == s.commands[j].generation
                && s.commands[i].permit.Some? ==>
                  s.commands[i].permit != s.commands[j].permit)
  {
    hide Run, Bounded, Answered, OneAtATime, Linked, Current;
    BeginSound();
    RunSound(Begin(), events);
  }
}
