/**
  The tab session as an object.  A handler that throws says so, and the receiving method then
  ends the page and the native connection, as the source's `catch` does.
 */
module BrowserTabSession {
  import opened Results
  import opened Utf16
  import opened TabSession
  import opened TabSessionInvariant

  /** What has been asked and told so far. */
  datatype Ledger = Ledger(epoch: nat, commands: seq<Command>, sent: seq<Sent>)

  class BrowserTabSession {
    var status: Status
    var generation: nat
    var stages: map<nat, Stage>
    var page: Option<Page>
    var native: Option<Native>
    var sessionId: Option<Text>
    var pendingCatalogRequest: Option<Text>
    var turn: Option<PageTurn>
    var orphanedCatalogRequests: set<Text>
    var orphanedTurns: map<Text, PageTurn>
    var consumedPermits: set<Text>
    var ledger: Ledger

    ghost function Now(): State
      reads this
    {
      State(status, generation, stages, page, native, sessionId, pendingCatalogRequest, turn, orphanedCatalogRequests,
            orphanedTurns, consumedPermits, ledger.epoch, ledger.commands, ledger.sent)
    }

    ghost predicate Valid()
      reads this
    {
      Sound(Now())
    }

    constructor ()
      ensures Valid() && Now() == Begin()
    {
      status, generation, stages, page, native, sessionId := Idle, 0, map[], None, None, None;
      pendingCatalogRequest, turn, orphanedCatalogRequests, orphanedTurns, consumedPermits := None, None, {}, map[], {};
      ledger := Ledger(0, [], []);
      new;
      BeginSound();
    }

    // ----- ending and sending -----

    /** A frame the native port has accepted. */
    method Log(frame: Sent)
      modifies this`ledger
      ensures Now() == old(Now()).(sent := old(Now()).sent + [frame])
    {
      ledger := ledger.(sent := ledger.sent + [frame]);
    }

    method ForgetWork()
      modifies this`pendingCatalogRequest, this`turn, this`orphanedCatalogRequests, this`orphanedTurns,
        this`consumedPermits
      ensures Now() == old(Now()).(read := None, turn := None, orphanReads := {}, orphanTurns := map[], permits := {})
    {
      pendingCatalogRequest, turn, orphanedCatalogRequests, orphanedTurns, consumedPermits := None, None, {}, map[], {};
    }

    method ForgetLinks()
      modifies this`native, this`page, this`sessionId, this`generation
      ensures Now() == old(Now()).(native := None, page := None, session := None,
                                   generation := old(Now()).generation + 1)
    {
      native, page, sessionId := None, None, None;
      generation := generation + 1;
    }

    method End(told: bool, next: Status, ports: Ports)
      modifies this
      ensures Now() == Terminate(old(Now()), told, next, ports)
    {
      var up := native.Some? && native.value.ready;
      var session := sessionId;
      ForgetLinks();
      ForgetWork();
      if told && session.Some? && up && ports.farewell {
        Log(Sent(SessionEnded, [], session, None, ledger.epoch, None));
      }
      status := next;
    }

    /** `#sendNative`. */
    method SendNative(frame: Sent, ports: Ports) returns (threw: bool)
      modifies this`ledger
      ensures Post(old(Now()), frame, ports) == if threw then Terminate(Now(), true, Failing, ports) else Now()
      ensures threw ==> Now() == old(Now())
    {
      hide Terminate;
      threw := native.None? || !native.value.ready || !ports.native;
      if !threw {
        Log(frame);
      }
    }

    /** `#sendPage`, for the command of an operation. */
    method SendPage(command: Command, ports: Ports)
      modifies this
      ensures Now() == Ask(old(Now()), command, ports)
    {
      hide Terminate;
      if page.None? || !page.value.ready || !ports.page {
        End(true, Failing, ports);
      } else {
        ledger := ledger.(commands := ledger.commands + [command]);
      }
    }

    // ----- frames of the native host -----

    predicate HasOrphanedPageOperation()
      reads this
      ensures HasOrphanedPageOperation() == HasOrphans(Now())
    {
      orphanedCatalogRequests != {} || orphanedTurns != map[]
    }

    method CloseSession(request: Text, session: Text) returns (reply: Option<Sent>)
      modifies this
      ensures Handled(Now(), reply) == DisconnectFrame(old(Now()), request, session)
    {
      var kind := if sessionId == Some(session) then SessionEnded else Refusal;
      reply := Some(Sent(kind, request, sessionId, None, ledger.epoch, None));
      if sessionId != Some(session) {
        return;
      }
      if pendingCatalogRequest.Some? {
        orphanedCatalogRequests := orphanedCatalogRequests + {pendingCatalogRequest.value};
      }
      if turn.Some? {
        orphanedTurns := orphanedTurns[turn.value.id := turn.value];
      }
      sessionId, pendingCatalogRequest, turn := None, None, None;
    }

    method ReadCapabilities(request: Text, session: Text, ports: Ports) returns (reply: Option<Sent>)
      modifies this
      ensures Handled(Now(), reply) == ReadFrame(old(Now()), request, session, ports)
    {
      hide Ask;
      if sessionId != Some(session) || pendingCatalogRequest.Some? || turn.Some? || HasOrphanedPageOperation() {
        return Some(Sent(Refusal, request, sessionId, None, ledger.epoch, None));
      }
      pendingCatalogRequest := Some(request);
      SendPage(Command(generation, ledger.epoch, session, request, None, None), ports);
      reply := None;
    }

    method StartTurn(request: Text, session: Text, turnId: Text, permit: Option<Text>, ports: Ports)
      modifies this
      ensures Now() == BeginTurn(old(Now()), request, session, turnId, permit, ports)
    {
      hide Ask;
      turn := Some(PageTurn(turnId, request, session, permit, false, None));
      SendPage(Command(generation, ledger.epoch, session, request, Some(turnId), permit), ports);
    }

    method StartTextTurn(f: Application, ports: Ports) returns (reply: Option<Sent>)
      requires f.TurnStart?
      modifies this
      ensures Handled(Now(), reply) == StartFrame(old(Now()), f, ports)
    {
      hide BeginTurn;
      if sessionId != Some(f.session) || turn.Some? || pendingCatalogRequest.Some? || HasOrphanedPageOperation()
        || !f.fits {
        return Some(Sent(TurnRefusal, f.request, sessionId, Some(f.turnId), ledger.epoch, None));
      }
      StartTurn(f.request, f.session, f.turnId, None, ports);
      reply := None;
    }

    method StartAgentTurn(f: Application, ports: Ports) returns (reply: Option<Sent>)
      requires f.AgentTurnStart?
      modifies this
      ensures Handled(Now(), reply) == AgentStartFrame(old(Now()), f, ports)
    {
      hide BeginTurn;
      reply := Some(Sent(TurnRefusal, f.request, sessionId, Some(f.turnId), ledger.epoch, None));
      if sessionId != Some(f.session) || turn.Some? || pendingCatalogRequest.Some? || HasOrphanedPageOperation() {
        return;
      }
      if !f.leased || !f.listed || |consumedPermits| >= MAX_PERMITS || f.permit in consumedPermits {
        return;
      }
      consumedPermits := consumedPermits + {f.permit};
      StartTurn(f.request, f.session, f.turnId, Some(f.permit), ports);
      reply := None;
    }

    method CancelPageTurn(request: Text, session: Text, turnId: Text, ports: Ports) returns (reply: Option<Sent>)
      modifies this
      ensures Handled(Now(), reply) == CancelFrame(old(Now()), request, session, turnId, ports)
    {
      hide Terminate;
      if sessionId != Some(session) || turn.None? || turn.value.id != turnId || turn.value.cancel.Some? {
        return Some(Sent(TurnRefusal, request, sessionId, Some(turnId), ledger.epoch, None));
      }
      turn := Some(turn.value.(cancel := Some(request)));
      if page.None? || !page.value.ready || !ports.page {
        End(true, Failing, ports);
      }
      reply := None;
    }

    method HandleApplication(f: Application, ports: Ports) returns (reply: Option<Sent>)
      modifies this
      ensures Handled(Now(), reply) == Apply(old(Now()), f, ports)
    {
      hide Terminate, DisconnectFrame, ReadFrame, AgentStartFrame, StartFrame, CancelFrame;
      match f {
        case SessionConnect(request, session) =>
          if sessionId.Some? {
            return Some(Sent(Refusal, request, sessionId, None, ledger.epoch, None));
          }
          sessionId := Some(session);
          ledger := ledger.(epoch := ledger.epoch + 1);
          reply := Some(Sent(SessionOpened, request, sessionId, None, ledger.epoch, None));
        case SessionDisconnect(request, session) => reply := CloseSession(request, session);
        case CapabilitiesRead(request, session) => reply := ReadCapabilities(request, session, ports);
        case AgentReport(request, session, throws) =>
          if sessionId != Some(session) {
            return Some(Sent(Refusal, request, sessionId, None, ledger.epoch, None));
          }
          if throws {
            End(true, Failing, ports);
            return None;
          }
          reply := Some(Sent(Report, request, sessionId, None, ledger.epoch, None));
        case AgentTurnStart(_, _, _, _, _, _) => reply := StartAgentTurn(f, ports);
        case TurnStart(_, _, _, _) => reply := StartTextTurn(f, ports);
        case TurnCancel(request, session, turnId) => reply := CancelPageTurn(request, session, turnId, ports);
        case ErrorFrame =>
          End(true, Failing, ports);
          reply := None;
        case Unsupported(request) => reply := Some(Sent(Refusal, request, sessionId, None, ledger.epoch, None));
      }
    }

    method ReceiveFromNative(mine: nat, f: Application, ports: Ports)
      requires Valid()
      modifies this
      ensures Valid() && Now() == Step(old(Now()), NativeSays(mine, f, ports))
    {
      hide Sound, Apply, Terminate, Post;
      StepSound(Now(), NativeSays(mine, f, ports));
      if native.None? || native.value.generation != mine {
        return;
      }
      if !native.value.ready {
        End(true, Failing, ports);
        return;
      }
      var reply := HandleApplication(f, ports);
      if reply.Some? {
        var threw := SendNative(reply.value, ports);
        if threw {
          End(true, Failing, ports);
        }
      }
    }

    // ----- events of the page -----

    method DrainOrphanedTurn(e: PageEvent, id: Text) returns (threw: bool)
      requires id in orphanedTurns && TurnOf(e).Some?
      modifies this
      ensures DrainTurn(old(Now()), e, id) == if threw then Rejected else Taken(Now())
      ensures threw ==> Now() == old(Now())
    {
      var orphan := orphanedTurns[id];
      threw := true;
      match e {
        case Started(request, _) =>
          if orphan.started || request != orphan.request {
            return;
          }
          orphanedTurns := orphanedTurns[id := orphan.(started := true)];
        case Delta(_) =>
          if !orphan.started {
            return;
          }
        case Completed(_) =>
          if !orphan.started {
            return;
          }
          orphanedTurns := orphanedTurns - {id};
        case CancelledIt(request, _) =>
          if orphan.cancel != Some(request) {
            return;
          }
          orphanedTurns := orphanedTurns - {id};
        case CommandFailed(request, _) =>
          if request == orphan.request {
            orphanedTurns := orphanedTurns - {id};
          } else if orphan.cancel == Some(request) {
            orphanedTurns := orphanedTurns[id := orphan.(cancel := None)];
          } else {
            return;
          }
      }
      threw := false;
    }

    /** `#drainOrphanedPageEvent`. */
    method DrainOrphanedPageEvent(e: PageEvent) returns (drained: bool, threw: bool)
      modifies this
      ensures Drain(old(Now()), e) == if threw then Rejected else if drained then Taken(Now()) else NotMine
      ensures threw || !drained ==> Now() == old(Now())
    {
      hide DrainTurn;
      drained, threw := false, false;
      if AboutRead(e) && e.request in orphanedCatalogRequests {
        orphanedCatalogRequests := orphanedCatalogRequests - {e.request};
        drained := true;
        return;
      }
      var id := TurnOf(e);
      if id.None? || id.value !in orphanedTurns {
        return;
      }
      threw := DrainOrphanedTurn(e, id.value);
      drained := !threw;
    }

    /** `#handlePageFailure`. */
    method HandlePageFailure(request: Text, about: Option<Text>, ports: Ports) returns (threw: bool)
      modifies this
      ensures FailedEvent(old(Now()), request, about, ports) ==
              if threw then Terminate(Now(), true, Failing, ports) else Now()
    {
      hide Terminate, Post;
      var last := |ledger.commands| - 1;
      if pendingCatalogRequest == Some(request) && about.None? {
        pendingCatalogRequest := None;
        threw := SendNative(Sent(ReadFailure, request, sessionId, None, ledger.epoch, Some(last)), ports);
        return;
      }
      if turn.None? || about != Some(turn.value.id) || sessionId != Some(turn.value.session) {
        return true;
      }
      var mine := turn.value;
      if mine.cancel == Some(request) {
        turn := Some(mine.(cancel := None));
        threw := SendNative(Sent(CancelFailure, request, Some(mine.session), Some(mine.id), ledger.epoch, Some(last)),
                            ports);
        return;
      }
      if request != mine.request {
        return true;
      }
      turn := None;
      threw := SendNative(Sent(TurnFailure, request, Some(mine.session), Some(mine.id), ledger.epoch, Some(last)),
                          ports);
    }

    method HandleTurnEvent(e: PageEvent, ports: Ports) returns (threw: bool)
      requires sessionId.Some? && (e.Started? || e.Delta? || e.Completed? || e.CancelledIt?)
      modifies this
      ensures SessionEvent(old(Now()), e, ports) == if threw then Terminate(Now(), true, Failing, ports) else Now()
    {
      hide Terminate, Post;
      var last := |ledger.commands| - 1;
      if turn.None? || turn.value.id != e.turnId || sessionId != Some(turn.value.session) {
        return true;
      }
      var mine := turn.value;
      var kind, request := TurnText, mine.request;
      match e {
        case Started(asked, _) =>
          if mine.started || asked != mine.request {
            return true;
          }
          turn := Some(mine.(started := true));
          kind := TurnBegun;
        case CancelledIt(asked, _) =>
          if mine.cancel != Some(asked) {
            return true;
          }
          turn := None;
          kind, request := TurnStopped, asked;
        case Completed(_) =>
          if !mine.started {
            return true;
          }
          turn := None;
          kind := TurnDone;
        case Delta(_) =>
          if !mine.started {
            return true;
          }
      }
      threw := SendNative(Sent(kind, request, Some(mine.session), Some(mine.id), ledger.epoch, Some(last)), ports);
    }

    method HandleSessionEvent(e: PageEvent, ports: Ports) returns (threw: bool)
      requires sessionId.Some? && !e.DocumentChanged?
      modifies this
      ensures SessionEvent(old(Now()), e, ports) == if threw then Terminate(Now(), true, Failing, ports) else Now()
    {
      hide Terminate, Post, FailedEvent, AnswerTurn;
      match e {
        case CatalogChanged =>
          if pendingCatalogRequest.Some? || HasOrphanedPageOperation() {
            return false;
          }
          threw := SendNative(Sent(CatalogChange, [], sessionId, None, ledger.epoch, None), ports);
        case CatalogResult(request) =>
          if pendingCatalogRequest != Some(request) {
            return true;
          }
          pendingCatalogRequest := None;
          threw := SendNative(Sent(ReadResult, request, sessionId, None, ledger.epoch, Some(|ledger.commands| - 1)),
                              ports);
        case CommandFailed(request, about) => threw := HandlePageFailure(request, about, ports);
        case Started(_, _) | Delta(_) | Completed(_) | CancelledIt(_, _) => threw := HandleTurnEvent(e, ports);
      }
    }

    /** `#handlePageEvent`, for a page that is ready. */
    method HandlePageEvent(e: PageEvent, ports: Ports) returns (threw: bool)
      requires PageUp(Now())
      modifies this
      ensures PageOp(old(Now()), e, ports) == if threw then Terminate(Now(), true, Failing, ports) else Now()
    {
      hide Terminate, Drain, SessionEvent;
      if e.DocumentChanged? {
        End(true, Failing, ports);
        return false;
      }
      var drained, rejected := DrainOrphanedPageEvent(e);
      if drained || rejected {
        return rejected;
      }
      if sessionId.None? {
        return !e.CatalogChanged?;
      }
      threw := HandleSessionEvent(e, ports);
    }

    method ReceiveFromPage(mine: nat, e: PageEvent, ports: Ports)
      requires Valid()
      modifies this
      ensures Valid() && Now() == Step(old(Now()), PageSays(mine, e, ports))
    {
      hide Sound, Terminate;
      StepSound(Now(), PageSays(mine, e, ports));
      if page.None? || page.value.generation != mine {
        return;
      }
      var threw := true;
      if page.value.ready {
        hide PageOp;
        threw := HandlePageEvent(e, ports);
      }
      if threw {
        End(true, Failing, ports);
      }
    }

    // ----- connecting -----

    method Open()
      requires Valid()
      modifies this
      ensures Valid() && Now() == Step(old(Now()), Connect)
    {
      hide Sound, Terminate;
      StepSound(Now(), Connect);
      if status != Idle && status != Failing {
        return;
      }
      End(false, Connecting, Ports(false, false, false));
      stages := stages[generation := AwaitTabs];
    }

    /** After the browser has named its tabs. */
    method AfterTabs(mine: nat, found: Found)
      requires Valid() && Waiting(Now(), mine, AwaitTabs)
      modifies this
      ensures Valid() && Now() == Step(old(Now()), TabsRead(mine, found))
    {
      hide Sound, Terminate;
      StepSound(Now(), TabsRead(mine, found));
      if generation != mine || status != Connecting {
        stages := stages - {mine};
      } else if found.Something? {
        stages := stages[mine := AwaitInjection];
      } else {
        stages := stages - {mine};
        End(false, Failing, Ports(false, false, false));
      }
    }

    /** After the content script has been injected. */
    method AfterInjection(mine: nat, found: Found)
      requires Valid() && Waiting(Now(), mine, AwaitInjection)
      modifies this
      ensures Valid() && Now() == Step(old(Now()), Injected(mine, found))
    {
      hide Sound, Terminate;
      StepSound(Now(), Injected(mine, found));
      var current := generation == mine && status == Connecting;
      stages := stages - {mine};
      if current && found.Something? {
        page := Some(Page(mine, false));
      } else if current {
        End(false, Failing, Ports(false, false, false));
      }
    }

    method Close(ports: Ports)
      requires Valid()
      modifies this
      ensures Valid() && Now() == Step(old(Now()), Disconnect(ports))
    {
      hide Sound, Terminate;
      StepSound(Now(), Disconnect(ports));
      End(true, Idle, ports);
    }

    /** The page reports that it is ready; `opens`: the native host can be reached. */
    method ReceivePageReady(mine: nat, opens: bool, ports: Ports)
      requires Valid()
      modifies this
      ensures Valid() && Now() == Step(old(Now()), PageReady(mine, opens, ports))
    {
      hide Sound, Terminate;
      StepSound(Now(), PageReady(mine, opens, ports));
      if page.None? || page.value.generation != mine {
        return;
      }
      if page.value.ready {
        End(true, Failing, ports);
        return;
      }
      page := Some(Page(mine, true));
      if native.Some? {
        return;
      }
      if opens {
        native := Some(Native(mine, false));
      } else {
        End(true, Failing, ports);
      }
    }

    method ReceiveNativeReady(mine: nat, ports: Ports)
      requires Valid()
      modifies this
      ensures Valid() && Now() == Step(old(Now()), NativeReady(mine, ports))
    {
      hide Sound, Terminate;
      StepSound(Now(), NativeReady(mine, ports));
      if native.None? || native.value.generation != mine {
        return;
      }
      if native.value.ready {
        End(true, Failing, ports);
        return;
      }
      native := Some(Native(mine, true));
      status := Connected;
    }

    /** A page that disconnects, or breaks its protocol. */
    method PageDisconnected(mine: nat, ports: Ports)
      requires Valid()
      modifies this
      ensures Valid() && Now() == Step(old(Now()), PageGone(mine, ports)) == Step(old(Now()), PageTrouble(mine, ports))
    {
      hide Sound, Terminate;
      StepSound(Now(), PageGone(mine, ports));
      if page.Some? && page.value.generation == mine {
        End(true, Failing, ports);
      }
    }

    /** A native host that disconnects, or breaks its protocol. */
    method NativeDisconnected(mine: nat, ports: Ports)
      requires Valid()
      modifies this
      ensures Valid() && Now() == Step(old(Now()), NativeGone(mine, ports)) ==
              Step(old(Now()), NativeTrouble(mine, ports))
    {
      hide Sound, Terminate;
      StepSound(Now(), NativeGone(mine, ports));
      if native.Some? && native.value.generation == mine {
        End(true, Failing, ports);
      }
    }
  }
}
