/**
  The agent session coordinator as a state machine.  An asynchronous call is cut at its
  awaits: while a workflow renews its activity, is in a browser turn, or has thrown and not
  yet reached its handler, it can be cancelled, closed, or superseded by a newer one.

  Checks of bindings, leases, manifests and prompts are outcomes of the events; the browser
  boundary does not call back while it is called.
 */
module AgentSession {
  import opened Results
  import opened Utf16
  import opened Tables

  const MAX_ROUNDS := 33
  const MAX_CALLS := 32
  const MAX_RESULT_BYTES := 128 * 1024
  const MAX_AGGREGATE_BYTES := 512 * 1024
  const MAX_ENVELOPE_BYTES := 256 * 1024
  const MAX_DELTAS := 4096
  const IDENTIFIER_ATTEMPTS := 8
  const MAX_RECENT := 4096

  datatype Failure =
    | Cancelled | BudgetExhausted | ContinuationMismatch | ResultTooLarge | BrowserChanged | LoopIncomplete
    | TurnMismatch | RoundMismatch | ChallengeMismatch | ManifestMismatch | ToolUnknown | ArgumentsInvalid
    | EnvelopeTooLarge | Unparsed

  datatype Phase =
    | Idle | Submitted | AwaitingAssistant | AwaitingChild | Completed | Failed | CancelledPhase | ClosedPhase

  datatype Commit = Commit(callId: Text, callRef: Text, itemId: Text, tool: Text, round: nat)

  /** What a workflow has done: rounds prompted and outcomes returned. */
  datatype Act = Prompt(round: nat) | Outcome(round: nat)

  datatype Workflow = Workflow(
    alias: Text, manifest: Text, aggregate: nat, calls: nat, challenge: Option<Text>, pending: Option<Commit>,
    round: nat, terminal: Option<Failure>, handle: bool, results: seq<nat>, acts: seq<Act>)

  datatype Stage = Renewing | InTurn | Throwing(failure: Failure)

  /** A call of `startWorkflow` or `continueWorkflow` that has not settled, with its sink's counters. */
  datatype Activation = Activation(stage: Stage, deltas: nat, bytes: nat, sinkFailure: Option<Failure>)

  datatype State = State(
    active: Option<nat>, closed: bool, phase: Phase, terminalCode: Option<Failure>,
    flows: map<nat, Workflow>, running: map<nat, Activation>, next: nat, recent: seq<Text>, issued: seq<Text>)

  /** How the part of a round up to its next await goes. */
  datatype Submission = Refused(failure: Failure) | Renews | StartFails(failure: Failure) | Starts

  /** The assistant's reply to a round: not an envelope, a final text, or a call. */
  datatype Reply =
    | NoEnvelope(failure: Failure)
    | FinalReply(turn: Text, round: int, challenge: Text, manifest: Text)
    | CallReply(turn: Text, round: int, challenge: Text, manifest: Text, known: bool, valid: bool, tool: Text)

  /** How a browser turn ends. */
  datatype Ending =
    | TurnFails(failure: Failure) | BindingChanged | TurnCancelled | TurnIncomplete | TurnStops(reply: Reply)

  /** The strings the random source yields, attempt by attempt; nothing where it fails. */
  type Draws = d: seq<Option<Text>> | |d| <= IDENTIFIER_ATTEMPTS

  datatype Event =
    | StartWorkflow(bound: bool, manifest: Text, alias: Draws, challenge: Draws, prompted: bool, submission: Submission)
    | ContinueWorkflow(boundaryOk: bool, matches: bool, classified: bool, bytes: nat, challenge: Draws,
                       serialized: bool,
                       submission: Submission)
    | Renewed(flow: nat, submission: Submission)
    | Delta(flow: nat, bound: bool, wellFormed: bool, bytes: nat)
    | Settled(flow: nat, ending: Ending, callId: Draws, callRef: Draws, itemId: Draws)
    | Caught(flow: nat)
    | CancelActive
    | Close

  function Begin(): State {
    State(None, false, Idle, None, map[], map[], 0, [], [])
  }

  // ----- unique random values -----

  /** The value drawn, if any, and the window of recent values after it. */
  datatype Drawn = Drawn(value: Option<Text>, recent: seq<Text>)

  function Draw(recent: seq<Text>, draws: Draws): Drawn {
    if draws == [] || draws[0].None? then Drawn(None, recent)
    else if draws[0].value in recent then Draw(recent, draws[1..])
    else
      var longer := recent + [draws[0].value];
      Drawn(draws[0], if |longer| > MAX_RECENT then longer[1..] else longer)
  }

  function Issue(s: State, draws: Draws): State {
    var d := Draw(s.recent, draws);
    s.(recent := d.recent, issued := if d.value.Some? then s.issued + [d.value.value] else s.issued)
  }

  function Value(s: State, draws: Draws): Option<Text> {
    Draw(s.recent, draws).value
  }

  // ----- workflow liveness and endings -----

  predicate Live(s: State, w: nat) {
    w in s.flows && s.flows[w].terminal.None? && s.active == Some(w)
  }

  function LiveFailure(s: State, w: nat): Failure
    requires w in s.flows
  {
    if s.flows[w].terminal.Some? then s.flows[w].terminal.value else LoopIncomplete
  }

  /** `#fail`: the workflow is terminal, and the coordinator too if the workflow is still its own. */
  function FailOp(s: State, w: nat, failure: Failure): State
    requires w in s.flows
  {
    var flow := s.flows[w];
    var ended := s.(flows := s.flows[w := if flow.terminal.Some? then flow else flow.(terminal := Some(failure))]);
    if s.active != Some(w) then ended
    else
      ended.(active := None, phase := if failure == Cancelled then CancelledPhase else Failed,
             terminalCode := Some(failure))
  }

  function Throw(s: State, w: nat, failure: Failure): State {
    s.(running := s.running[w := Activation(Throwing(failure), 0, 0, None)])
  }

  // ----- rounds -----

  /** `#submitRound` from its start to its first await. */
  function Submit(s: State, w: nat, how: Submission): State
    requires w in s.flows
  {
    match how
    case Refused(failure) => Throw(s, w, failure)
    case Renews => s.(running := s.running[w := Activation(Renewing, 0, 0, None)])
    case StartFails(failure) => Throw(s.(phase := AwaitingAssistant), w, failure)
    case Starts =>
      s.(phase := AwaitingAssistant, flows := s.flows[w := s.flows[w].(handle := true)],
         running := s.running[w := Activation(InTurn, 0, 0, None)])
  }

  function StartOp(s: State, bound: bool, manifest: Text, alias: Draws, challenge: Draws, prompted: bool,
                   how: Submission): State
  {
    if s.closed || s.active.Some? || !bound then s
    else
      var named := Issue(s, alias);
      if Value(s, alias).None? then named
      else
        var challenged := Issue(named, challenge);
        if Value(named, challenge).None? then challenged
        else
          var w := s.next;
          var flow := Workflow(Value(s, alias).value, manifest, 0, 0, Value(named, challenge), None, 0, None, false, [],
                               [Prompt(0)]);
          var begun := challenged.(next := w + 1, active := Some(w), phase := Submitted, terminalCode := None,
                                    flows := s.flows[w := flow]);
          if prompted then Submit(begun, w, how) else FailOp(begun, w, LoopIncomplete)
  }

  /** Why a continuation is refused, before a challenge is drawn for it. */
  function ContinueFailure(flow: Workflow, e: Event): Option<Failure>
    requires e.ContinueWorkflow?
  {
    if !e.boundaryOk then Some(BrowserChanged)
    else if flow.pending.None? || !e.matches then Some(ContinuationMismatch)
    else if e.bytes > MAX_RESULT_BYTES || flow.aggregate + e.bytes > MAX_AGGREGATE_BYTES then Some(ResultTooLarge)
    else if !e.classified then Some(ContinuationMismatch)
    else if flow.round + 1 >= MAX_ROUNDS then Some(BudgetExhausted)
    else None
  }

  /** A continuation out of phase is refused without a trace; any other refusal ends the workflow. */
  function ContinueOp(s: State, e: Event): State
    requires e.ContinueWorkflow?
  {
    if s.closed || s.active.None? || s.phase != AwaitingChild || s.active.value !in s.flows then s
    else
      var w := s.active.value;
      var flow := s.flows[w];
      var refused := if !Live(s, w) then Some(LiveFailure(s, w)) else ContinueFailure(flow, e);
      if refused.Some? then FailOp(s, w, refused.value)
      else
        var challenged := Issue(s, e.challenge);
        if Value(s, e.challenge).None? then FailOp(challenged, w, LoopIncomplete)
        else if !e.serialized then FailOp(challenged, w, ContinuationMismatch)
        else
          var next := flow.(aggregate := flow.aggregate + e.bytes, round := flow.round + 1,
                            challenge := Value(s, e.challenge), pending := None,
                            results := flow.results + [e.bytes], acts := flow.acts + [Prompt(flow.round + 1)]);
          Submit(challenged.(flows := s.flows[w := next], phase := Submitted), w, e.submission)
  }

  function RenewedOp(s: State, w: nat, how: Submission): State
    requires w in s.flows && w in s.running
  {
    if !Live(s, w) then Throw(s, w, LiveFailure(s, w)) else if how.Renews? then s else Submit(s, w, how)
  }

  /** The sink's `onDelta`; a throw is remembered and fails the round when the turn ends. */
  function DeltaOp(s: State, w: nat, bound: bool, wellFormed: bool, bytes: nat): State
    requires w in s.flows && w in s.running
  {
    var a := s.running[w];
    var counted := a.(deltas := a.deltas + 1);
    var added := counted.(bytes := a.bytes + bytes);
    var after := if !Live(s, w) then a.(sinkFailure := Some(LiveFailure(s, w)))
                 else if !bound then a.(sinkFailure := Some(BrowserChanged))
                 else if counted.deltas > MAX_DELTAS then counted.(sinkFailure := Some(BudgetExhausted))
                 else if !wellFormed then counted.(sinkFailure := Some(Unparsed))
                 else if added.bytes > MAX_ENVELOPE_BYTES then added.(sinkFailure := Some(EnvelopeTooLarge))
                 else added;
    s.(running := s.running[w := after])
  }

  /** Why a turn that has ended yields no reply. */
  function TurnFailure(s: State, w: nat, ending: Ending): Option<Failure>
    requires w in s.flows && w in s.running
  {
    var sink := s.running[w].sinkFailure;
    if ending.TurnFails? then Some(if sink.Some? then sink.value else ending.failure)
    else if sink.Some? then sink
    else if !Live(s, w) then Some(LiveFailure(s, w))
    else
      match ending
      case BindingChanged => Some(BrowserChanged)
      case TurnCancelled => Some(Cancelled)
      case TurnIncomplete => Some(LoopIncomplete)
      case _ => None
  }

  /** The protocol's schema: a call is answered in rounds 0 to 31, a final text in rounds 0 to 32. */
  predicate Conforms(reply: Reply) {
    match reply
    case NoEnvelope(_) => false
    case FinalReply(_, round, _, _) => 0 <= round < MAX_ROUNDS
    case CallReply(_, round, _, _, _, _, _) => 0 <= round < MAX_CALLS
  }

  /** What a reply is refused for: it must answer this round of this workflow. */
  function ReplyFailure(flow: Workflow, reply: Reply): Option<Failure> {
    if reply.NoEnvelope? then Some(reply.failure)
    else if !Conforms(reply) then Some(Unparsed)
    else if reply.turn != flow.alias then Some(TurnMismatch)
    else if reply.round != flow.round then Some(RoundMismatch)
    else if Some(reply.challenge) != flow.challenge then Some(ChallengeMismatch)
    else if reply.manifest != flow.manifest then Some(ManifestMismatch)
    else if reply.FinalReply? then None
    else if flow.calls >= MAX_CALLS then Some(BudgetExhausted)
    else if !reply.known then Some(ToolUnknown)
    else if !reply.valid then Some(ArgumentsInvalid)
    else None
  }

  /** The end of a turn: the handle is dropped, the challenge spent, the reply judged. */
  function SettledOp(s: State, w: nat, e: Event): State
    requires e.Settled? && w in s.flows && w in s.running
  {
    var dropped := s.(flows := s.flows[w := s.flows[w].(handle := false)]);
    var failed := TurnFailure(s, w, e.ending);
    if failed.Some? || !e.ending.TurnStops? then
      Throw(dropped, w, if failed.Some? then failed.value else LoopIncomplete)
    else
      var spent := dropped.(flows := s.flows[w := s.flows[w].(handle := false, challenge := None)]);
      var refused := ReplyFailure(s.flows[w], e.ending.reply);
      if refused.Some? then Throw(spent, w, refused.value)
      else if e.ending.reply.FinalReply? then Finish(spent, w) else CommitCall(spent, w, e)
  }

  /** `#complete`, and the activation returns. */
  function Finish(s: State, w: nat): State
    requires w in s.flows
  {
    var flow := s.flows[w];
    var over := s.(running := s.running - {w}, flows := s.flows[w := flow.(acts := flow.acts + [Outcome(flow.round)])]);
    if s.active == Some(w) then over.(active := None, phase := Completed, terminalCode := None) else over
  }

  function CommitCall(s: State, w: nat, e: Event): State
    requires e.Settled? && e.ending.TurnStops? && e.ending.reply.CallReply? && w in s.flows
  {
    var first := Issue(s, e.callId);
    var second := Issue(first, e.callRef);
    var third := Issue(second, e.itemId);
    if Value(s, e.callId).None? then Throw(first, w, LoopIncomplete)
    else if Value(first, e.callRef).None? then Throw(second, w, LoopIncomplete)
    else if Value(second, e.itemId).None? then Throw(third, w, LoopIncomplete)
    else
      var flow := s.flows[w];
      var commit := Commit(Value(s, e.callId).value, Value(first, e.callRef).value, Value(second, e.itemId).value,
                           e.ending.reply.tool, flow.round);
      third.(phase := AwaitingChild, running := s.running - {w},
             flows := s.flows[w := flow.(calls := flow.calls + 1, pending := Some(commit),
                                         acts := flow.acts + [Outcome(flow.round)])])
  }

  // ----- cancelling and closing -----

  /** The active workflow, if any, is told it is over; its browser turn is cancelled with it. */
  function Abandon(s: State, phase: Phase): State {
    if s.active.None? || s.active.value !in s.flows then s
    else
      var w := s.active.value;
      s.(active := None, phase := phase, terminalCode := Some(Cancelled),
         flows := s.flows[w := s.flows[w].(terminal := Some(Cancelled))])
  }

  function CloseOp(s: State): State {
    if s.closed then s
    else Abandon(s, ClosedPhase).(closed := true, active := None, phase := ClosedPhase, terminalCode := Some(Cancelled),
                                  recent := [])
  }

  predicate At(s: State, w: nat, stage: Stage) {
    w in s.flows && w in s.running && s.running[w].stage == stage
  }

  function Step(s: State, e: Event): State {
    match e
    case StartWorkflow(bound, manifest, alias, challenge, prompted, how) =>
      StartOp(s, bound, manifest, alias, challenge, prompted, how)
    case ContinueWorkflow(_, _, _, _, _, _, _) => ContinueOp(s, e)
    case Renewed(w, how) => if At(s, w, Renewing) then RenewedOp(s, w, how) else s
    case Delta(w, bound, wellFormed, bytes) => if At(s, w, InTurn) then DeltaOp(s, w, bound, wellFormed, bytes) else s
    case Settled(w, _, _, _, _) => if At(s, w, InTurn) then SettledOp(s, w, e) else s
    case Caught(w) =>
      if w in s.flows && w in s.running && s.running[w].stage.Throwing?
      then FailOp(s, w, s.running[w].stage.failure).(running := s.running - {w}) else s
    case CancelActive => Abandon(s, CancelledPhase)
    case Close => CloseOp(s)
  }

  function Run(s: State, events: seq<Event>): State
    decreases |events|
  {
    if events == [] then s else Run(Step(s, events[0]), events[1..])
  }

  // ----- what holds at every await -----

  function Sum(bytes: seq<nat>): nat {
    if bytes == [] then 0 else Sum(bytes[..|bytes| - 1]) + bytes[|bytes| - 1]
  }

  /** The first acts of a workflow that alternates: a prompt, its outcome, the next prompt. */
  function Alternating(n: nat): seq<Act> {
    if n == 0 then []
    else Alternating(n - 1) + [if n % 2 == 1 then Prompt((n - 1) / 2) else Outcome((n - 2) / 2)]
  }

  /** Bounds and bookkeeping of one workflow, `answered` or not in its current round. */
  predicate Bounded(f: Workflow) {
    && f.round < MAX_ROUNDS && f.calls <= MAX_CALLS && f.round <= f.calls <= f.round + 1
    && f.aggregate == Sum(f.results) <= MAX_AGGREGATE_BYTES && |f.results| == f.round
    && (forall b :: b in f.results ==> b <= MAX_RESULT_BYTES)
    && (f.acts == Alternating(2 * f.round + 1) || f.acts == Alternating(2 * f.round + 2))
  }

  /** Before the reply of a round: as many calls as rounds gone by. */
  predicate AwaitsReply(f: Workflow) {
    f.calls == f.round && f.pending.None? && f.acts == Alternating(2 * f.round + 1)
  }

  /** After it: one call more, and that call pending. */
  predicate AwaitsChild(f: Workflow) {
    && f.calls == f.round + 1 && f.pending.Some? && f.pending.value.round == f.round && f.challenge.None?
    && f.acts == Alternating(2 * f.round + 2) && !f.handle
  }

  predicate ActivationSound(a: Activation, f: Workflow) {
    && (f.handle <==> a.stage.InTurn?)
    && (a.sinkFailure.None? ==> a.deltas <= MAX_DELTAS && a.bytes <= MAX_ENVELOPE_BYTES)
  }

  /** The coordinator's own workflow: alive, and where the phase says it is. */
  predicate ActiveSound(s: State, w: nat) {
    && w in s.flows && s.flows[w].terminal.None? && !s.closed
    && (match s.phase
        case Submitted =>
          && AwaitsReply(s.flows[w]) && w in s.running && !s.running[w].stage.InTurn?
          && (s.running[w].stage.Renewing? ==> s.flows[w].challenge.Some?)
        case AwaitingAssistant =>
          && AwaitsReply(s.flows[w]) && w in s.running && !s.running[w].stage.Renewing?
          && (s.running[w].stage.InTurn? ==> s.flows[w].challenge.Some?)
        case AwaitingChild => AwaitsChild(s.flows[w]) && w !in s.running
        case _ => false)
  }

  predicate Idling(phase: Phase) {
    phase != Submitted && phase != AwaitingAssistant && phase != AwaitingChild
  }

  ghost predicate FlowsSound(flows: map<nat, Workflow>, running: map<nat, Activation>, active: Option<nat>, next: nat) {
    && (forall w :: w in flows ==> w < next && Bounded(flows[w]))
    && (forall w :: w in flows && w !in running ==> !flows[w].handle)
    && (forall w :: w in running ==> w in flows && ActivationSound(running[w], flows[w]))
    && (forall w :: w in running && active != Some(w) ==> flows[w].terminal.Some?)
  }

  /** The recent values are the last ones issued, all different. */
  ghost predicate Window(recent: seq<Text>, issued: seq<Text>, closed: bool) {
    && |recent| <= MAX_RECENT
    && (!closed ==> |recent| <= |issued| && recent == issued[|issued| - |recent|..]
                    && (|recent| < MAX_RECENT ==> |recent| == |issued|))
    && (forall i, j :: 0 <= i < j < |issued| && j - i <= MAX_RECENT ==> issued[i] != issued[j])
  }

  ghost predicate Sound(s: State) {
    && FlowsSound(s.flows, s.running, s.active, s.next) && Window(s.recent, s.issued, s.closed)
    && (s.active.Some? ==> ActiveSound(s, s.active.value))
    && (s.active.None? ==> Idling(s.phase))
    && (s.closed ==> s.phase == ClosedPhase && s.active.None?)
  }

  // ----- drawing -----

  lemma {:induction false} DrawnIsNew(recent: seq<Text>, draws: Draws)
    requires Draw(recent, draws).value.Some?
    ensures Draw(recent, draws).value.value !in recent
    ensures var longer := recent + [Draw(recent, draws).value.value];
            Draw(recent, draws).recent == if |longer| > MAX_RECENT then longer[1..] else longer
    decreases |draws|
  {
    if draws[0].value in recent {
      DrawnIsNew(recent, draws[1..]);
    }
  }

  lemma {:induction false} NothingDrawn(recent: seq<Text>, draws: Draws)
    requires Draw(recent, draws).value.None?
    ensures Draw(recent, draws).recent == recent
    decreases |draws|
  {
    if draws != [] && draws[0].Some? {
      NothingDrawn(recent, draws[1..]);
    }
  }

  lemma IssueWindow(s: State, draws: Draws)
    requires Window(s.recent, s.issued, s.closed) && !s.closed
    ensures Window(Issue(s, draws).recent, Issue(s, draws).issued, false)
  {
    hide Draw;
    var n := Issue(s, draws);
    if Value(s, draws).Some? {
      DrawnIsNew(s.recent, draws);
      var value := Value(s, draws).value;
      forall i | 0 <= i < |s.issued| && |s.issued| - i <= MAX_RECENT ensures s.issued[i] != value {
        assert s.issued[i] == s.recent[i - (|s.issued| - |s.recent|)];
      }
    } else {
      NothingDrawn(s.recent, draws);
    }
  }

  /** Drawing changes the window and the log alone. */
  lemma IssueSound(s: State, draws: Draws)
    requires Sound(s) && !s.closed
    ensures Sound(Issue(s, draws))
    ensures Issue(s, draws).(recent := s.recent, issued := s.issued) == s
  {
    hide Draw, FlowsSound, Window, AwaitsReply, AwaitsChild;
    IssueWindow(s, draws);
  }

  // ----- every step keeps it -----

  /** One workflow and its activation are replaced; it may become or stop being the active one. */
  lemma PlaceFlow(flows: map<nat, Workflow>, running: map<nat, Activation>, active: Option<nat>, next: nat,
                  w: nat, f: Workflow, a: Option<Activation>, active': Option<nat>, next': nat)
    requires FlowsSound(flows, running, active, next) && next <= next' && w < next' && Bounded(f)
    requires match a
             case Some(activation) => ActivationSound(activation, f) && (active' != Some(w) ==> f.terminal.Some?)
             case None => !f.handle
    requires active == active' || active == Some(w) || active == None
    ensures FlowsSound(flows[w := f], if a.Some? then running[w := a.value] else running - {w}, active', next')
  {
    hide Bounded, ActivationSound;
  }

  lemma KnownFlow(s: State, w: nat)
    requires Sound(s) && w in s.flows
    ensures w < s.next && Bounded(s.flows[w]) && (w !in s.running ==> !s.flows[w].handle)
    ensures w in s.running ==> ActivationSound(s.running[w], s.flows[w])
    ensures w in s.running && s.active != Some(w) ==> s.flows[w].terminal.Some?
  {
    hide Bounded, ActivationSound, Window, ActiveSound;
  }

  lemma TerminalBounded(f: Workflow, terminal: Option<Failure>, handle: bool, challenge: Option<Text>)
    requires Bounded(f)
    ensures Bounded(f.(terminal := terminal, handle := handle, challenge := challenge))
  {
    hide Alternating, Sum;
  }

  /** An activation throws, its workflow having lost its handle. */
  lemma ThrowSound(s: State, w: nat, failure: Failure, f: Workflow)
    requires Sound(s) && w in s.flows && w in s.running && !f.handle && Bounded(f) && f.terminal == s.flows[w].terminal
    requires s.active == Some(w) ==> AwaitsReply(f) && s.phase != AwaitingChild
    ensures Sound(Throw(s.(flows := s.flows[w := f]), w, failure))
  {
    hide Bounded, FlowsSound, Window, AwaitsReply, AwaitsChild;
    KnownFlow(s, w);
    var a := Activation(Throwing(failure), 0, 0, None);
    PlaceFlow(s.flows, s.running, s.active, s.next, w, f, Some(a), s.active, s.next);
  }

  lemma FailSound(s: State, w: nat, failure: Failure)
    requires Sound(s) && w in s.flows
    ensures var n := FailOp(s, w, failure);
            Sound(n) && n.active != Some(w) && n.running == s.running && w in n.flows
              && n.flows[w].handle == s.flows[w].handle
  {
    hide Bounded, FlowsSound, Window, AwaitsReply, AwaitsChild;
    KnownFlow(s, w);
    var n := FailOp(s, w, failure);
    TerminalBounded(s.flows[w], Some(failure), s.flows[w].handle, s.flows[w].challenge);
    PlaceFlow(s.flows, s.running, s.active, s.next, w, n.flows[w], if w in s.running then Some(s.running[w]) else None,
              n.active, s.next);
    assert (if w in s.running then s.running[w := s.running[w]] else s.running - {w}) == s.running;
  }

  /** A round that has just been opened goes on to its first await. */
  lemma SubmitSound(s: State, w: nat, how: Submission)
    requires w in s.flows && w < s.next && s.active == Some(w) && s.phase == Submitted && !s.closed
    requires FlowsSound(s.flows - {w}, s.running - {w}, None, s.next) && Window(s.recent, s.issued, false)
    requires Bounded(s.flows[w]) && AwaitsReply(s.flows[w]) && s.flows[w].challenge.Some? && s.flows[w].terminal.None?
    requires !s.flows[w].handle
    ensures Sound(Submit(s, w, how))
  {
    hide Bounded, FlowsSound, Window, AwaitsReply, AwaitsChild;
    var n := Submit(s, w, how);
    TerminalBounded(s.flows[w], None, true, s.flows[w].challenge);
    HandleAwaits(s.flows[w], true);
    PlaceFlow(s.flows - {w}, s.running - {w}, None, s.next, w, n.flows[w], Some(n.running[w]), Some(w), s.next);
    assert (s.flows - {w})[w := n.flows[w]] == n.flows && (s.running - {w})[w := n.running[w]] == n.running;
  }

  lemma HandleAwaits(f: Workflow, handle: bool)
    requires AwaitsReply(f)
    ensures AwaitsReply(f.(handle := handle))
  {
  }

  lemma WithoutFlow(flows: map<nat, Workflow>, running: map<nat, Activation>, active: Option<nat>, next: nat, w: nat)
    requires FlowsSound(flows, running, active, next) && (active == None || active == Some(w))
    ensures FlowsSound(flows - {w}, running - {w}, None, next)
  {
    hide Bounded, ActivationSound;
  }

  lemma RenewedSound(s: State, w: nat, how: Submission)
    requires Sound(s) && At(s, w, Renewing)
    ensures Sound(RenewedOp(s, w, how))
  {
    hide Bounded, FlowsSound, Window, AwaitsReply, AwaitsChild;
    KnownFlow(s, w);
    assert s.flows[w := s.flows[w]] == s.flows;
    if !Live(s, w) {
      ThrowSound(s, w, LiveFailure(s, w), s.flows[w]);
    } else if !how.Renews? {
      WithoutFlow(s.flows, s.running, s.active, s.next, w);
      SubmitSound(s, w, how);
    }
  }

  lemma DeltaSound(s: State, w: nat, bound: bool, wellFormed: bool, bytes: nat)
    requires Sound(s) && At(s, w, InTurn)
    ensures Sound(DeltaOp(s, w, bound, wellFormed, bytes))
  {
    hide Bounded, FlowsSound, Window, AwaitsReply, AwaitsChild;
    KnownFlow(s, w);
    var n := DeltaOp(s, w, bound, wellFormed, bytes);
    PlaceFlow(s.flows, s.running, s.active, s.next, w, s.flows[w], Some(n.running[w]), s.active, s.next);
    assert s.flows[w := s.flows[w]] == s.flows;
  }

  lemma NewFlow(alias: Text, manifest: Text, challenge: Text)
    ensures var f := Workflow(alias, manifest, 0, 0, Some(challenge), None, 0, None, false, [], [Prompt(0)]);
            Bounded(f) && AwaitsReply(f)
  {
    assert Alternating(0) == [];
    assert Alternating(1) == [Prompt(0)];
  }

  lemma StartSound(s: State, e: Event)
    requires Sound(s) && e.StartWorkflow?
    ensures Sound(Step(s, e))
  {
    hide Bounded, FlowsSound, Window, AwaitsReply, AwaitsChild, Issue, Value, Submit, FailOp;
    if !s.closed && s.active.None? && e.bound {
      IssueSound(s, e.alias);
      var named := Issue(s, e.alias);
      IssueSound(named, e.challenge);
      var challenged := Issue(named, e.challenge);
      if Value(s, e.alias).Some? && Value(named, e.challenge).Some? {
        StartedSound(s, challenged, e, Value(s, e.alias).value, Value(named, e.challenge).value);
      }
    }
  }

  lemma StartedSound(s: State, challenged: State, e: Event, alias: Text, challenge: Text)
    requires Sound(challenged) && e.StartWorkflow? && !s.closed && s.active.None?
    requires challenged.(recent := s.recent, issued := s.issued) == s
    ensures var w := s.next;
            var flow := Workflow(alias, e.manifest, 0, 0, Some(challenge), None, 0, None, false, [], [Prompt(0)]);
            var begun := challenged.(next := w + 1, active := Some(w), phase := Submitted, terminalCode := None,
                                     flows := s.flows[w := flow]);
            Sound(if e.prompted then Submit(begun, w, e.submission) else FailOp(begun, w, LoopIncomplete))
  {
    hide Bounded, Window, AwaitsReply, AwaitsChild, Submit, ActivationSound;
    var w := s.next;
    var flow := Workflow(alias, e.manifest, 0, 0, Some(challenge), None, 0, None, false, [], [Prompt(0)]);
    NewFlow(alias, e.manifest, challenge);
    assert w !in s.flows && w !in s.running;
    assert s.flows[w := flow] - {w} == s.flows && s.running - {w} == s.running;
    assert FlowsSound(s.flows, s.running, None, w + 1);
    var begun := challenged.(next := w + 1, active := Some(w), phase := Submitted, terminalCode := None,
                             flows := s.flows[w := flow]);
    if e.prompted {
      hide FlowsSound;
      SubmitSound(begun, w, e.submission);
    } else {
      hide FlowsSound;
      TerminalBounded(flow, Some(LoopIncomplete), false, flow.challenge);
      PlaceFlow(s.flows, s.running, None, w + 1, w, flow.(terminal := Some(LoopIncomplete)), None, None, w + 1);
      assert s.flows[w := flow][w := flow.(terminal := Some(LoopIncomplete))] ==
             s.flows[w := flow.(terminal := Some(LoopIncomplete))];
    }
  }

  /** The next round of a workflow whose call has been answered. */
  lemma NextRound(f: Workflow, bytes: nat, challenge: Option<Text>)
    requires Bounded(f) && AwaitsChild(f) && bytes <= MAX_RESULT_BYTES && f.aggregate + bytes <= MAX_AGGREGATE_BYTES
    ensures f.round + 1 < MAX_ROUNDS
    ensures var n := f.(aggregate := f.aggregate + bytes, round := f.round + 1, challenge := challenge, pending := None,
                        results := f.results + [bytes], acts := f.acts + [Prompt(f.round + 1)]);
            Bounded(n) && AwaitsReply(n)
  {
    var results := f.results + [bytes];
    assert results[..|f.results|] == f.results;
    assert Alternating(2 * (f.round + 1) + 1) == Alternating(2 * f.round + 2) + [Prompt(f.round + 1)];
  }

  lemma ContinueSound(s: State, e: Event)
    requires Sound(s) && e.ContinueWorkflow?
    ensures Sound(ContinueOp(s, e))
  {
    hide Bounded, FlowsSound, Window, AwaitsReply, Issue, Value, Submit, FailOp;
    if !s.closed && s.active.Some? && s.phase == AwaitingChild && s.active.value in s.flows {
      var w := s.active.value;
      var flow := s.flows[w];
      KnownFlow(s, w);
      var refused := ContinueFailure(flow, e);
      if refused.Some? {
        FailSound(s, w, refused.value);
      } else {
        IssueSound(s, e.challenge);
        var challenged := Issue(s, e.challenge);
        FailSound(challenged, w, LoopIncomplete);
        FailSound(challenged, w, ContinuationMismatch);
        NextRound(flow, e.bytes, Value(s, e.challenge));
        if Value(s, e.challenge).Some? && e.serialized {
          var next := flow.(aggregate := flow.aggregate + e.bytes, round := flow.round + 1,
                            challenge := Value(s, e.challenge), pending := None,
                            results := flow.results + [e.bytes], acts := flow.acts + [Prompt(flow.round + 1)]);
          WithoutFlow(s.flows, s.running, s.active, s.next, w);
          assert s.flows[w := next] - {w} == s.flows - {w};
          SubmitSound(challenged.(flows := s.flows[w := next], phase := Submitted), w, e.submission);
        }
      }
    }
  }

  /** The reply of a round: a final text ends the workflow, a call is counted and pending. */
  lemma AnsweredRound(f: Workflow, commit: Commit)
    requires Bounded(f) && AwaitsReply(f) && f.challenge.None? && !f.handle && commit.round == f.round
    ensures Bounded(f.(acts := f.acts + [Outcome(f.round)]))
    ensures f.calls < MAX_CALLS ==>
              var n := f.(calls := f.calls + 1, pending := Some(commit), acts := f.acts + [Outcome(f.round)]);
              Bounded(n) && AwaitsChild(n)
  {
    hide Sum;
    assert Alternating(2 * f.round + 2) == Alternating(2 * f.round + 1) + [Outcome(f.round)];
  }

  lemma FinishSound(s: State, w: nat)
    requires Sound(s) && w in s.running && Live(s, w) && AwaitsReply(s.flows[w]) && s.phase == AwaitingAssistant
    requires FlowsSound(s.flows, s.running, s.active, s.next)
    ensures Sound(Finish(s.(flows := s.flows[w := s.flows[w].(handle := false, challenge := None)]), w))
  {
    hide Bounded, FlowsSound, Window, AwaitsReply, AwaitsChild;
    KnownFlow(s, w);
    var spent := s.flows[w].(handle := false, challenge := None);
    TerminalBounded(s.flows[w], s.flows[w].terminal, false, None);
    SpentAwaits(s.flows[w]);
    AnsweredRound(spent, Commit([], [], [], [], spent.round));
    var done := spent.(acts := spent.acts + [Outcome(spent.round)]);
    PlaceFlow(s.flows, s.running, s.active, s.next, w, done, None, None, s.next);
    assert s.flows[w := spent][w := done] == s.flows[w := done];
  }

  lemma SpentAwaits(f: Workflow)
    requires AwaitsReply(f)
    ensures AwaitsReply(f.(handle := false, challenge := None))
  {
  }

  lemma CommitSound(s: State, w: nat, e: Event, spent: State)
    requires Sound(s) && w in s.running && Live(s, w) && AwaitsReply(s.flows[w]) && s.phase == AwaitingAssistant
    requires spent == s.(flows := s.flows[w := s.flows[w].(handle := false, challenge := None)])
    requires e.Settled? && e.ending.TurnStops? && e.ending.reply.CallReply? && s.flows[w].calls < MAX_CALLS
    ensures Sound(CommitCall(spent, w, e))
  {
    hide Bounded, FlowsSound, Window, AwaitsReply, AwaitsChild, Issue, Value;
    KnownFlow(s, w);
    var f := spent.flows[w];
    TerminalBounded(s.flows[w], s.flows[w].terminal, false, None);
    SpentAwaits(s.flows[w]);
    IssueSpent(s, spent, e.callId);
    IssueSpent(Issue(s, e.callId), Issue(spent, e.callId), e.callRef);
    IssueSpent(Issue(Issue(s, e.callId), e.callRef), Issue(Issue(spent, e.callId), e.callRef), e.itemId);
    var first := Issue(s, e.callId);
    var second := Issue(first, e.callRef);
    var third := Issue(second, e.itemId);
    ThrowSound(first, w, LoopIncomplete, f);
    ThrowSound(second, w, LoopIncomplete, f);
    ThrowSound(third, w, LoopIncomplete, f);
    if Value(s, e.callId).Some? && Value(first, e.callRef).Some? && Value(second, e.itemId).Some? {
      var commit := Commit(Value(s, e.callId).value, Value(first, e.callRef).value, Value(second, e.itemId).value,
                           e.ending.reply.tool, f.round);
      AnsweredRound(f, commit);
      var n := f.(calls := f.calls + 1, pending := Some(commit), acts := f.acts + [Outcome(f.round)]);
      CommittedSound(third, w, f, n);
    }
  }

  lemma CommittedSound(s: State, w: nat, f: Workflow, n: Workflow)
    requires Sound(s) && w in s.running && Live(s, w) && Bounded(n) && AwaitsChild(n) && n.terminal.None?
    ensures Sound(s.(phase := AwaitingChild, running := s.running - {w}, flows := s.flows[w := f][w := n]))
  {
    hide Bounded, FlowsSound, Window, AwaitsReply;
    KnownFlow(s, w);
    PlaceFlow(s.flows, s.running, s.active, s.next, w, n, None, s.active, s.next);
    assert s.flows[w := f][w := n] == s.flows[w := n];
  }

  /** Drawing commutes with replacing a workflow. */
  lemma IssueSpent(s: State, spent: State, draws: Draws)
    requires Sound(s) && !s.closed && spent == s.(flows := spent.flows)
    ensures Sound(Issue(s, draws)) && Issue(spent, draws) == Issue(s, draws).(flows := spent.flows)
    ensures Value(spent, draws) == Value(s, draws)
    ensures Issue(s, draws).(recent := s.recent, issued := s.issued) == s
  {
    hide Draw, Sound;
    IssueSound(s, draws);
  }

  /** Whatever reply passes every check, its call is within the budget. */
  lemma CallWithinBudget(f: Workflow, reply: Reply)
    requires AwaitsReply(f) && reply.CallReply?
    ensures ReplyFailure(f, reply) != Some(BudgetExhausted)
    ensures ReplyFailure(f, reply).None? ==> f.calls < MAX_CALLS
  {
    hide Alternating;
  }

  lemma SettledSound(s: State, w: nat, e: Event)
    requires Sound(s) && At(s, w, InTurn) && e.Settled?
    ensures Sound(SettledOp(s, w, e))
  {
    hide Bounded, FlowsSound, Window, AwaitsReply, AwaitsChild, Finish, CommitCall, Throw, ReplyFailure;
    KnownFlow(s, w);
    var f := s.flows[w];
    TerminalBounded(f, f.terminal, false, f.challenge);
    TerminalBounded(f, f.terminal, false, None);
    var failed := TurnFailure(s, w, e.ending);
    if s.active == Some(w) {
      HandleAwaits(f, false);
      SpentAwaits(f);
    }
    if failed.Some? || !e.ending.TurnStops? {
      ThrowSound(s, w, if failed.Some? then failed.value else LoopIncomplete, f.(handle := false));
    } else {
      var refused := ReplyFailure(f, e.ending.reply);
      var spent := s.(flows := s.flows[w := f.(handle := false, challenge := None)]);
      assert s.flows[w := f.(handle := false)][w := f.(handle := false, challenge := None)] == spent.flows;
      if refused.Some? {
        ThrowSound(s, w, refused.value, f.(handle := false, challenge := None));
      } else if e.ending.reply.FinalReply? {
        FinishSound(s, w);
      } else {
        NoEnvelopeRefused(f, e.ending.reply);
        CallWithinBudget(f, e.ending.reply);
        CommitSound(s, w, e, spent);
      }
    }
  }

  lemma NoEnvelopeRefused(f: Workflow, reply: Reply)
    requires ReplyFailure(f, reply).None?
    ensures !reply.NoEnvelope?
  {
  }

  lemma CaughtSound(s: State, w: nat)
    requires Sound(s) && w in s.flows && w in s.running && s.running[w].stage.Throwing?
    ensures Sound(Step(s, Caught(w)))
  {
    hide Bounded, FlowsSound, Window, AwaitsReply, AwaitsChild, FailOp;
    KnownFlow(s, w);
    FailSound(s, w, s.running[w].stage.failure);
    var n := FailOp(s, w, s.running[w].stage.failure);
    KnownFlow(n, w);
    PlaceFlow(n.flows, n.running, n.active, n.next, w, n.flows[w], None, n.active, n.next);
    assert n.flows[w := n.flows[w]] == n.flows;
  }

  lemma AbandonSound(s: State, phase: Phase)
    requires Sound(s) && Idling(phase) && phase != ClosedPhase
    ensures Sound(Abandon(s, phase)) && Abandon(s, phase).active.None?
    ensures Abandon(s, phase).recent == s.recent && Abandon(s, phase).issued == s.issued
  {
    hide Bounded, FlowsSound, Window, AwaitsReply, AwaitsChild;
    if s.active.Some? && s.active.value in s.flows {
      var w := s.active.value;
      KnownFlow(s, w);
      TerminalBounded(s.flows[w], Some(Cancelled), s.flows[w].handle, s.flows[w].challenge);
      PlaceFlow(s.flows, s.running, s.active, s.next, w, s.flows[w].(terminal := Some(Cancelled)),
                if w in s.running then Some(s.running[w]) else None, None, s.next);
      assert (if w in s.running then s.running[w := s.running[w]] else s.running - {w}) == s.running;
    }
  }

  lemma CloseSound(s: State)
    requires Sound(s)
    ensures Sound(CloseOp(s))
  {
    hide FlowsSound, ActiveSound;
    if !s.closed {
      AbandonSound(s, CancelledPhase);
    }
  }

  lemma StepSound(s: State, e: Event)
    requires Sound(s)
    ensures Sound(Step(s, e))
  {
    hide Sound, StartOp, ContinueOp, RenewedOp, DeltaOp, SettledOp, FailOp, Abandon, CloseOp;
    match e
    case StartWorkflow(_, _, _, _, _, _) => StartSound(s, e);
    case ContinueWorkflow(_, _, _, _, _, _, _) => ContinueSound(s, e);
    case Renewed(w, how) =>
      if At(s, w, Renewing) {
        RenewedSound(s, w, how);
      }
    case Delta(w, bound, wellFormed, bytes) =>
      if At(s, w, InTurn) {
        DeltaSound(s, w, bound, wellFormed, bytes);
      }
    case Settled(w, _, _, _, _) =>
      if At(s, w, InTurn) {
        SettledSound(s, w, e);
      }
    case Caught(w) =>
      if w in s.flows && w in s.running && s.running[w].stage.Throwing? {
        CaughtSound(s, w);
      }
    case CancelActive => AbandonSound(s, CancelledPhase);
    case Close => CloseSound(s);
  }

  /** Under every interleaving. */
  lemma {:induction false} RunSound(s: State, events: seq<Event>)
    requires Sound(s)
    ensures Sound(Run(s, events))
    decreases |events|
  {
    hide Sound, Step;
    if events != [] {
      StepSound(s, events[0]);
      RunSound(Step(s, events[0]), events[1..]);
    }
  }

  lemma BeginSound()
    ensures Sound(Begin())
  {
  }

  // ----- main results -----

  /**
    Every workflow alternates prompt and outcome for at most 33 rounds within its byte budget;
    the coordinator's own has as many calls as rounds gone by while it awaits the assistant,
    and one more while it awaits the child.
   */
  lemma WorkflowsAlternate(events: seq<Event>, w: nat)
    requires w in Run(Begin(), events).flows
    ensures var s := Run(Begin(), events);
            var f := s.flows[w];
            && f.round <= 32 && |f.acts| <= 66 && f.aggregate == Sum(f.results) <= MAX_AGGREGATE_BYTES
            && (f.acts == Alternating(2 * f.round + 1) || f.acts == Alternating(2 * f.round + 2))
            && (s.active == Some(w) && s.phase == AwaitingAssistant ==> f.calls == f.round && f.pending.None?)
            && (s.active == Some(w) && s.phase == AwaitingChild ==> f.calls == f.round + 1 && f.pending.Some?)
  {
    hide Run, FlowsSound, Window, Alternating, Sum;
    BeginSound();
    RunSound(Begin(), events);
    var s := Run(Begin(), events);
    KnownFlow(s, w);
    AlternatingLength(2 * s.flows[w].round + 1);
    AlternatingLength(2 * s.flows[w].round + 2);
  }

  lemma {:induction false} AlternatingLength(n: nat)
    ensures |Alternating(n)| == n
  {
    if n > 0 {
      AlternatingLength(n - 1);
    }
  }

  /** The two tests of the call and round budgets are never what refuses a continuation or a reply. */
  lemma BudgetTestsCannotFire(events: seq<Event>, e: Event, reply: Reply)
    requires e.ContinueWorkflow? && reply.CallReply?
    requires var s := Run(Begin(), events); s.active.Some?
    ensures var s := Run(Begin(), events);
            && s.active.value in s.flows
            && (s.phase == AwaitingChild ==> ContinueFailure(s.flows[s.active.value], e) != Some(BudgetExhausted))
            && (s.phase == AwaitingAssistant ==> ReplyFailure(s.flows[s.active.value], reply) != Some(BudgetExhausted))
  {
    hide Run, FlowsSound, Window, Alternating, Sum, ReplyFailure;
    BeginSound();
    RunSound(Begin(), events);
    var s := Run(Begin(), events);
    KnownFlow(s, s.active.value);
    if s.phase == AwaitingAssistant {
      CallWithinBudget(s.flows[s.active.value], reply);
    }
  }

  function FlowOf(e: Event): Option<nat> {
    match e
    case Renewed(w, _) => Some(w)
    case Delta(w, _, _, _) => Some(w)
    case Settled(w, _, _, _, _) => Some(w)
    case Caught(w) => Some(w)
    case _ => None
  }

  /** Whatever still happens to a superseded workflow leaves the newer one, and the coordinator, as they are. */
  lemma SupersededTouchesNothing(s: State, e: Event, w: nat, v: nat)
    requires FlowOf(e) == Some(w) && s.active == Some(v) && w != v
    ensures var n := Step(s, e);
            && n.active == s.active && n.phase == s.phase && n.terminalCode == s.terminalCode && n.closed == s.closed
            && n.recent == s.recent && n.issued == s.issued
            && (v in s.flows ==> v in n.flows && n.flows[v] == s.flows[v])
            && (v in s.running <==> v in n.running) && (v in s.running ==> n.running[v] == s.running[v])
  {
    hide ReplyFailure;
  }

  /** Generated values never repeat within a window of 4096. */
  lemma IssuedDistinct(events: seq<Event>, i: nat, j: nat)
    requires i < j < |Run(Begin(), events).issued| && j - i <= MAX_RECENT
    ensures Run(Begin(), events).issued[i] != Run(Begin(), events).issued[j]
  {
    hide Run, FlowsSound, ActiveSound;
    BeginSound();
    RunSound(Begin(), events);
  }
}
