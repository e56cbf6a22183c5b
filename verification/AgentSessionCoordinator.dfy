/**
  The coordinator object.  Its asynchronous methods are cut at their awaits; `flows` holds the
  workflow objects they keep and update, `running` what a call keeps across an await.
 */
module AgentSessionCoordinator {
  import opened Results
  import opened Utf16
  import opened AgentSession

  class AgentSessionCoordinator {
    var active: Option<nat>
    var closed: bool
    var phase: Phase
    var terminalCode: Option<Failure>
    var flows: map<nat, Workflow>
    var running: map<nat, Activation>
    var next: nat
    var recent: seq<Text>
    ghost var issued: seq<Text>

    ghost function Now(): State
      reads this
    {
      State(active, closed, phase, terminalCode, flows, running, next, recent, issued)
    }

    ghost predicate Valid()
      reads this
    {
      Sound(Now())
    }

    constructor ()
      ensures Valid() && Now() == Begin()
    {
      active, closed, phase, terminalCode, flows, running, next := None, false, Idle, None, map[], map[], 0;
      recent, issued := [], [];
      new;
      BeginSound();
    }

    /** `startWorkflow` up to its first await: what precedes the workflow's identifier is `bound`. */
    method StartWorkflow(bound: bool, manifest: Text, aliases: Draws, challenges: Draws, prompted: bool,
                         how: Submission)
      requires Valid()
      modifies this
      ensures Valid() && Now() == Step(old(Now()), Event.StartWorkflow(bound, manifest, aliases, challenges, prompted,
                                                                       how))
    {
      hide Sound, Draw, Submit, FailOp;
      StepSound(Now(), Event.StartWorkflow(bound, manifest, aliases, challenges, prompted, how));
      if closed || active.Some? || !bound {
        return;
      }
      var alias := CreateUniqueRandomValue(aliases);
      if alias.None? {
        return;
      }
      var challenge := CreateUniqueRandomValue(challenges);
      if challenge.None? {
        return;
      }
      var w := next;
      next := w + 1;
      flows := flows[w := Workflow(alias.value, manifest, 0, 0, challenge, None, 0, None, false, [], [Prompt(0)])];
      active := Some(w);
      phase := Submitted;
      terminalCode := None;
      if prompted {
        SubmitRound(w, how);
      } else {
        FailWorkflow(w, LoopIncomplete);
      }
    }

    /** `continueWorkflow` up to its first await. */
    method ContinueWorkflow(e: Event)
      requires Valid() && e.ContinueWorkflow?
      modifies this
      ensures Valid() && Now() == Step(old(Now()), e)
    {
      hide Sound, Draw, Submit, FailOp;
      StepSound(Now(), e);
      if closed || active.None? || phase != AwaitingChild || active.value !in flows {
        return;
      }
      var w := active.value;
      var flow := flows[w];
      if flow.terminal.Some? {
        FailWorkflow(w, flow.terminal.value);
        return;
      }
      if !e.boundaryOk {
        FailWorkflow(w, BrowserChanged);
        return;
      }
      if flow.pending.None? || !e.matches {
        FailWorkflow(w, ContinuationMismatch);
        return;
      }
      if e.bytes > MAX_RESULT_BYTES || flow.aggregate + e.bytes > MAX_AGGREGATE_BYTES {
        FailWorkflow(w, ResultTooLarge);
        return;
      }
      if !e.classified {
        FailWorkflow(w, ContinuationMismatch);
        return;
      }
      var nextRound := flow.round + 1;
      if nextRound >= MAX_ROUNDS {
        FailWorkflow(w, BudgetExhausted);
        return;
      }
      var challenge := CreateUniqueRandomValue(e.challenge);
      if challenge.None? {
        FailWorkflow(w, LoopIncomplete);
        return;
      }
      if !e.serialized {
        FailWorkflow(w, ContinuationMismatch);
        return;
      }
      flows := flows[w := flow.(aggregate := flow.aggregate + e.bytes, round := nextRound, challenge := challenge,
                                pending := None, results := flow.results + [e.bytes],
                                acts := flow.acts + [Prompt(nextRound)])];
      phase := Submitted;
      SubmitRound(w, e.submission);
    }

    /** After the renewal of the browser's activity. */
    method AfterRenewal(w: nat, how: Submission)
      requires Valid() && At(Now(), w, Renewing)
      modifies this
      ensures Valid() && Now() == Step(old(Now()), Renewed(w, how))
    {
      hide Sound, Submit;
      StepSound(Now(), Renewed(w, how));
      if flows[w].terminal.Some? || active != Some(w) {
        ThrowLater(w, if flows[w].terminal.Some? then flows[w].terminal.value else LoopIncomplete);
        return;
      }
      if !how.Renews? {
        SubmitRound(w, how);
      }
    }

    /** The sink's `onDelta`. */
    method OnDelta(w: nat, bound: bool, wellFormed: bool, bytes: nat)
      requires Valid() && At(Now(), w, InTurn)
      modifies this
      ensures Valid() && Now() == Step(old(Now()), Delta(w, bound, wellFormed, bytes))
    {
      hide Sound;
      StepSound(Now(), Delta(w, bound, wellFormed, bytes));
      var a := running[w];
      var failure: Option<Failure> := None;
      if flows[w].terminal.Some? {
        failure := flows[w].terminal;
      } else if active != Some(w) {
        failure := Some(LoopIncomplete);
      } else if !bound {
        failure := Some(BrowserChanged);
      } else {
        a := a.(deltas := a.deltas + 1);
        if a.deltas > MAX_DELTAS {
          failure := Some(BudgetExhausted);
        } else if !wellFormed {
          failure := Some(Unparsed);
        } else {
          a := a.(bytes := a.bytes + bytes);
          if a.bytes > MAX_ENVELOPE_BYTES {
            failure := Some(EnvelopeTooLarge);
          }
        }
      }
      running := running[w := if failure.Some? then a.(sinkFailure := failure) else a];
    }

    /** When the browser turn has ended. */
    method AfterTurn(w: nat, e: Event)
      requires Valid() && At(Now(), w, InTurn) && e.Settled? && e.flow == w
      modifies this
      ensures Valid() && Now() == Step(old(Now()), e)
    {
      hide Sound, ReplyFailure, Finish, CommitCall;
      StepSound(Now(), e);
      var flow := flows[w];
      var sink := running[w].sinkFailure;
      var live := flow.terminal.None? && active == Some(w);
      var failed: Option<Failure> := None;
      if sink.Some? {
        failed := sink;
      } else if e.ending.TurnFails? {
        failed := Some(e.ending.failure);
      } else if !live {
        failed := Some(if flow.terminal.Some? then flow.terminal.value else LoopIncomplete);
      } else if e.ending.BindingChanged? {
        failed := Some(BrowserChanged);
      } else if e.ending.TurnCancelled? {
        failed := Some(Cancelled);
      } else if e.ending.TurnIncomplete? {
        failed := Some(LoopIncomplete);
      }
      assert failed == TurnFailure(Now(), w, e.ending);
      flows := flows[w := flow.(handle := false)];
      if failed.Some? {
        ThrowLater(w, failed.value);
        return;
      }
      flows := flows[w := flow.(handle := false, challenge := None)];
      assert flows == old(flows)[w := flow.(handle := false, challenge := None)];
      var refused := ReplyFailure(flow, e.ending.reply);
      if refused.Some? {
        ThrowLater(w, refused.value);
        return;
      }
      if e.ending.reply.FinalReply? {
        CompleteWorkflow(w);
      } else {
        NoEnvelopeRefused(flow, e.ending.reply);
        CommitToolCall(w, e);
      }
    }

    method CompleteWorkflow(w: nat)
      requires w in flows
      modifies this
      ensures Now() == Finish(old(Now()), w)
    {
      var flow := flows[w];
      flows := flows[w := flow.(acts := flow.acts + [Outcome(flow.round)])];
      running := running - {w};
      if active == Some(w) {
        active, phase, terminalCode := None, Completed, None;
      }
    }

    method CommitToolCall(w: nat, e: Event)
      requires e.Settled? && e.ending.TurnStops? && e.ending.reply.CallReply? && w in flows
      modifies this
      ensures Now() == CommitCall(old(Now()), w, e)
    {
      hide Draw;
      var callId := CreateUniqueRandomValue(e.callId);
      if callId.None? {
        ThrowLater(w, LoopIncomplete);
        return;
      }
      var callRef := CreateUniqueRandomValue(e.callRef);
      if callRef.None? {
        ThrowLater(w, LoopIncomplete);
        return;
      }
      var itemId := CreateUniqueRandomValue(e.itemId);
      if itemId.None? {
        ThrowLater(w, LoopIncomplete);
        return;
      }
      var flow := flows[w];
      var commit := Commit(callId.value, callRef.value, itemId.value, e.ending.reply.tool, flow.round);
      flows := flows[w := flow.(calls := flow.calls + 1, pending := Some(commit),
                                acts := flow.acts + [Outcome(flow.round)])];
      running := running - {w};
      phase := AwaitingChild;
    }

    /** The handler of a call that has thrown across an await. */
    method AfterThrow(w: nat)
      requires Valid() && w in flows && w in running && running[w].stage.Throwing?
      modifies this
      ensures Valid() && Now() == Step(old(Now()), Caught(w))
    {
      hide Sound;
      StepSound(Now(), Caught(w));
      FailWorkflow(w, running[w].stage.failure);
      running := running - {w};
    }

    method CancelActive() returns (cancelled: bool)
      requires Valid()
      modifies this
      ensures Valid() && Now() == Step(old(Now()), Event.CancelActive)
      ensures cancelled <==> old(active).Some?
    {
      hide FlowsSound, Window, AwaitsReply, AwaitsChild;
      StepSound(Now(), Event.CancelActive);
      cancelled := active.Some?;
      if cancelled {
        var w := active.value;
        flows := flows[w := flows[w].(terminal := Some(Cancelled))];
        active, phase, terminalCode := None, CancelledPhase, Some(Cancelled);
      }
    }

    method CloseSession()
      requires Valid()
      modifies this
      ensures Valid() && Now() == Step(old(Now()), Close)
    {
      hide FlowsSound, Window, AwaitsReply, AwaitsChild;
      StepSound(Now(), Close);
      if closed {
        return;
      }
      closed := true;
      if active.Some? {
        var w := active.value;
        flows := flows[w := flows[w].(terminal := Some(Cancelled))];
      }
      active, phase, terminalCode, recent := None, ClosedPhase, Some(Cancelled), [];
    }

    /** `#submitRound` up to its first await. */
    method SubmitRound(w: nat, how: Submission)
      requires w in flows
      modifies this
      ensures Now() == Submit(old(Now()), w, how)
    {
      match how
      case Refused(failure) => ThrowLater(w, failure);
      case Renews => running := running[w := Activation(Renewing, 0, 0, None)];
      case StartFails(failure) =>
        phase := AwaitingAssistant;
        ThrowLater(w, failure);
      case Starts =>
        phase := AwaitingAssistant;
        flows := flows[w := flows[w].(handle := true)];
        running := running[w := Activation(InTurn, 0, 0, None)];
    }

    method ThrowLater(w: nat, failure: Failure)
      modifies this`running
      ensures Now() == Throw(old(Now()), w, failure)
    {
      running := running[w := Activation(Throwing(failure), 0, 0, None)];
    }

    /** `#fail`. */
    method FailWorkflow(w: nat, failure: Failure)
      requires w in flows
      modifies this
      ensures Now() == FailOp(old(Now()), w, failure)
    {
      var flow := flows[w];
      flows := flows[w := if flow.terminal.Some? then flow else flow.(terminal := Some(failure))];
      if active != Some(w) {
        return;
      }
      active := None;
      phase := if failure == Cancelled then CancelledPhase else Failed;
      terminalCode := Some(failure);
    }

    /** `#createUniqueRandomValue`: the first value drawn that is not among the recent ones. */
    method CreateUniqueRandomValue(draws: Draws) returns (value: Option<Text>)
      modifies this`recent, this`issued
      ensures value == Value(old(Now()), draws) && Now() == Issue(old(Now()), draws)
    {
      hide Draw;
      var attempt := 0;
      assert draws[0..] == draws;
      while attempt < |draws|
        invariant 0 <= attempt <= |draws| && Now() == old(Now())
        invariant Draw(recent, draws) == Draw(recent, draws[attempt..])
      {
        DrawNext(recent, draws, attempt);
        if draws[attempt].None? {
          return None;
        }
        var drawn := draws[attempt].value;
        if drawn !in recent {
          var longer := recent + [drawn];
          recent := if |longer| > MAX_RECENT then longer[1..] else longer;
          issued := issued + [drawn];
          return Some(drawn);
        }
        attempt := attempt + 1;
      }
      DrawNothing(recent);
      assert draws[attempt..] == [];
      return None;
    }
  }

  lemma DrawNothing(recent: seq<Text>)
    ensures Draw(recent, []) == Drawn(None, recent)
  {
  }

  lemma DrawNext(recent: seq<Text>, draws: Draws, i: nat)
    requires i < |draws|
    ensures Draw(recent, draws[i..]) ==
            if draws[i].None? then Drawn(None, recent)
            else if draws[i].value in recent then Draw(recent, draws[i + 1..])
            else
              var longer := recent + [draws[i].value];
              Drawn(draws[i], if |longer| > MAX_RECENT then longer[1..] else longer)
  {
    assert draws[i..][1..] == draws[i + 1..];
  }
}
