/**
  The runtime object.  Its asynchronous handlers are methods from one await to the next; what
  a handler keeps in local variables across an await is its entry in `tasks`, and the
  adapters and server boundaries it holds are the workflows of `flows`.
 */
module ResponsesAgentRuntime {
  import opened Results
  import opened Utf16
  import opened CodexContract
  import opened ResponsesServer
  import opened AgentRuntime
  import opened AgentRuntimeInvariant

  class ResponsesAgentRuntime {
    const env: Env
    var pending: map<Text, Entry>
    var tasks: map<nat, Task>
    var inFlight: int
    var active: set<nat>
    var closed: bool
    var flows: map<nat, Flow>
    var next: nat

    ghost function Now(): State
      reads this
    {
      State(pending, tasks, inFlight, active, closed, flows, next)
    }

    ghost predicate Valid()
      reads this
    {
      Injective(env.sha) && Sound(Now(), env)
    }

    constructor (env: Env)
      requires Injective(env.sha) && 1 <= env.maxWorkflows
      ensures Valid() && Now() == Start() && this.env == env
    {
      this.env := env;
      pending, tasks, inFlight, active, closed, flows, next := map[], map[], 0, {}, false, map[], 0;
      new;
      StartSound(env);
    }

    /** From the arrival of a request to its first await, or to its answer. */
    method HandleRequest(now: int, request: Request)
      requires Valid() && PlainEvent(Arrive(now, request))
      modifies this
      ensures Valid() && Now() == Step(old(Now()), Arrive(now, request), env)
    {
      hide SoundBut, Injective, Prune, Begin, Continue, PlainEvent, KindOf;
      StepSound(Now(), Arrive(now, request), env);
      if closed {
        return;
      }
      PruneEntries(now);
      match KindOf(request.items)
      case InvalidKind =>
      case InitialKind => HandleInitial(request);
      case ContinuationKind(callId) => HandleContinuation(callId, request);
    }

    method HandleInitial(request: Request)
      modifies this
      ensures Now() == Begin(old(Now()), request, env)
    {
      hide AdmitSetup;
      if |pending| + inFlight >= env.maxWorkflows {
        return;
      }
      var setup := AdmitSetup(request, env);
      if setup.None? {
        return;
      }
      inFlight := inFlight + 1;
      flows := flows[next := Flow(setup.value, Idle, 0, {}, {}, [], [])];
      active := active + {next};
      tasks := tasks[next := Task(next, Yielding, false, None, env.sha(NO_HISTORY))];
      next := next + 1;
    }

    method HandleContinuation(callId: Text, request: Request)
      modifies this
      ensures Now() == Continue(old(Now()), callId, request, env)
    {
      hide ProjectRequest, Admits, ProjectedText, CloseAll, Last;
      if callId !in pending || pending[callId].flow !in flows {
        return;
      }
      var entry := pending[callId];
      pending := pending - {callId};
      var flow := flows[entry.flow];
      var projected := ProjectRequest(entry, flow.setup, request, env);
      if projected.None? {
        CloseAdapters({entry.flow});
        return;
      }
      var text := ProjectedText(request.fields, ContinuationInput(projected.value.messages, Last(projected.value)),
                                request.toolsJson, env);
      if text.None? {
        CloseAdapters({entry.flow});
        return;
      }
      var spent := flow.(eligible := flow.eligible - {entry.call.callId});
      if !Admits(flow, entry, request, projected.value, env) {
        flows := flows[entry.flow := spent];
        CloseAdapters({entry.flow});
        return;
      }
      inFlight := inFlight + 1;
      flows := flows[entry.flow := spent.(inputs := spent.inputs + [projected.value])];
      tasks := tasks[next := Task(entry.flow, Yielding, false, Some(entry.call), projected.value.fingerprint)];
      next := next + 1;
    }

    /** After the yield before the browser is touched. */
    method AfterYield(t: nat, gone: bool)
      requires Valid() && Running(Now(), t) && tasks[t].stage.Yielding?
      modifies this
      ensures Valid() && Now() == Step(old(Now()), Yielded(t, gone), env)
    {
      hide SoundBut, Injective, CloseAll;
      StepSound(Now(), Yielded(t, gone), env);
      var task := tasks[t];
      var flow := flows[task.flow];
      var expected := if task.continues.None? then Idle else Awaiting(task.continues.value);
      if gone || task.disconnected || flow.adapter != expected {
        EndTask(t);
        return;
      }
      tasks := tasks[t := task.(stage := InBrowser)];
      flows := flows[task.flow := flow.(adapter := Busy)];
    }

    /** When the coordinator has settled. */
    method AfterAnswer(t: nat, answer: Option<Answer>, gone: bool, identity: bool)
      requires Valid() && Running(Now(), t) && tasks[t].stage.InBrowser?
      modifies this
      ensures Valid() && Now() == Step(old(Now()), Answered(t, answer, gone, identity), env)
    {
      hide SoundBut, Injective, Receive;
      StepSound(Now(), Answered(t, answer, gone, identity), env);
      TakeAnswer(t, answer, gone, identity);
    }

    method TakeAnswer(t: nat, answer: Option<Answer>, gone: bool, identity: bool)
      requires t in tasks && tasks[t].flow in flows
      modifies this
      ensures Now() == Receive(old(Now()), t, answer, gone, identity)
    {
      hide CloseAll;
      var task := tasks[t];
      var before := flows[task.flow];
      var after := if answer.Some? && answer.value.ToolCall? then Awaiting(answer.value.call) else Terminal;
      var flow := before.(adapter := after);
      flows := flows[task.flow := flow];
      if answer.None? || gone || task.disconnected {
        EndTask(t);
        return;
      }
      if answer.value.Final? {
        if identity {
          tasks := tasks[t := task.(stage := Writing(Final))];
        } else {
          EndTask(t);
        }
        return;
      }
      var callId := answer.value.call.callId;
      if callId in flow.emitted || |flow.emitted| >= MAX_EMITTED_CALLS {
        EndTask(t);
        return;
      }
      flow := flow.(emitted := flow.emitted + {callId});
      flows := flows[task.flow := flow];
      if !identity {
        assert flows == old(flows)[task.flow := flow];
        EndTask(t);
        return;
      }
      flows := flows[task.flow := flow.(eligible := flow.eligible + {callId},
                                        calls := flow.calls + [answer.value.call])];
      tasks := tasks[t := task.(stage := Writing(answer.value))];
      assert flows == old(flows)[task.flow := flows[task.flow]];
    }

    /** When the payload has been written, or could not be. */
    method AfterWrite(t: nat, ok: bool, expiresAt: Option<int>)
      requires Valid() && Running(Now(), t) && tasks[t].stage.Writing?
      modifies this
      ensures Valid() && Now() == Step(old(Now()), Written(t, ok, expiresAt), env)
    {
      hide SoundBut, Injective, CloseAll;
      StepSound(Now(), Written(t, ok, expiresAt), env);
      var task := tasks[t];
      if !ok || task.stage.answer.Final? || expiresAt.None? {
        EndTask(t);
        return;
      }
      var call := task.stage.answer.call;
      if closed || call.callId in pending {
        EndTask(t);
        return;
      }
      pending := pending[call.callId := Entry(task.flow, call, task.fingerprint, expiresAt.value)];
      tasks := tasks - {t};
      inFlight := inFlight - 1;
    }

    method OnDisconnect(t: nat)
      requires Valid() && Running(Now(), t)
      modifies this
      ensures Valid() && Now() == Step(old(Now()), Disconnect(t), env)
    {
      hide SoundBut, Injective, CloseAll;
      StepSound(Now(), Disconnect(t), env);
      tasks := tasks[t := tasks[t].(disconnected := true)];
      CloseAdapters({tasks[t].flow});
    }

    /** The expiry timer, and every reading of the pending count. */
    method PruneExpired(now: int)
      requires Valid()
      modifies this
      ensures Valid() && Now() == Step(old(Now()), Expire(now), env)
    {
      hide SoundBut, Injective, Prune;
      StepSound(Now(), Expire(now), env);
      PruneEntries(now);
    }

    method Close()
      requires Valid()
      modifies this
      ensures Valid() && Now() == Step(old(Now()), Shutdown, env)
    {
      hide SoundBut, Injective, CloseAll;
      StepSound(Now(), Shutdown, env);
      if closed {
        return;
      }
      closed := true;
      CloseAdapters(active);
      pending := map[];
    }

    /** The `finally` of a handler that did not retain its workflow. */
    method EndTask(t: nat)
      requires t in tasks
      modifies this
      ensures Now() == End(old(Now()), t)
    {
      hide CloseAll;
      var flow := tasks[t].flow;
      tasks := tasks - {t};
      inFlight := inFlight - 1;
      CloseAdapters({flow});
    }

    method PruneEntries(now: int)
      modifies this
      ensures Now() == Prune(old(Now()), now)
    {
      hide CloseAll, FlowsOf, Expired;
      if closed {
        return;
      }
      ghost var before := Now();
      ghost var all := Expired(pending, now);
      var left := Expired(pending, now);
      NoFlows(pending);
      CloseNothing(before);
      assert all - left == {} && pending - (all - left) == pending;
      while left != {}
        invariant left <= all && !closed
        invariant Now() == CloseAll(before.(pending := before.pending - (all - left)),
                                    FlowsOf(before.pending, all - left))
        decreases |left|
      {
        var k :| k in left;
        ExpiredIsPending(before.pending, now, k);
        assert (all - (left - {k})) == (all - left) + {k};
        PruneOne(before, all - left, k);
        CloseLeavesPending(before.(pending := before.pending - (all - left)), FlowsOf(before.pending, all - left));
        var flow := pending[k].flow;
        pending := pending - {k};
        CloseAdapter(flow);
        left := left - {k};
      }
      assert all - left == all;
    }

    method CloseAdapters(ws: set<nat>)
      modifies this`active, this`flows
      ensures Now() == CloseAll(old(Now()), ws)
    {
      hide CloseAll;
      var left := ws;
      ghost var before := Now();
      CloseNothing(before);
      assert ws - left == {};
      while left != {}
        invariant left <= ws
        invariant Now() == CloseAll(before, ws - left)
        decreases |left|
      {
        var w :| w in left;
        assert (ws - (left - {w})) == (ws - left) + {w};
        CloseOneMore(before, ws - left, w);
        CloseAdapter(w);
        left := left - {w};
      }
      assert ws - left == ws;
    }

    /** `#closeAdapter`. */
    method CloseAdapter(w: nat)
      modifies this`active, this`flows
      ensures Now() == CloseAll(old(Now()), {w})
    {
      if w !in active {
        assert flows == CloseAll(old(Now()), {w}).flows;
        return;
      }
      active := active - {w};
      if w in flows {
        flows := flows[w := flows[w].(closings := flows[w].closings + 1, adapter := Terminal)];
      }
      assert flows == CloseAll(old(Now()), {w}).flows;
    }
  }

  lemma CloseNothing(s: State)
    ensures CloseAll(s, {}) == s
  {
    assert CloseAll(s, {}).flows == s.flows;
  }

  lemma CloseOneMore(s: State, ws: set<nat>, w: nat)
    ensures CloseAll(CloseAll(s, ws), {w}) == CloseAll(s, ws + {w})
  {
    assert CloseAll(CloseAll(s, ws), {w}).flows == CloseAll(s, ws + {w}).flows;
    assert s.active - ws - {w} == s.active - (ws + {w});
  }

  lemma NoFlows(pending: map<Text, Entry>)
    ensures FlowsOf(pending, {}) == {}
  {
  }

  lemma ExpiredIsPending(pending: map<Text, Entry>, now: int, k: Text)
    requires k in Expired(pending, now)
    ensures k in pending
  {
  }

  lemma OneMoreFlow(pending: map<Text, Entry>, done: set<Text>, k: Text)
    requires k in pending
    ensures FlowsOf(pending, done + {k}) == FlowsOf(pending, done) + {pending[k].flow}
  {
  }

  lemma CloseLeavesPending(s: State, ws: set<nat>)
    ensures CloseAll(s, ws).pending == s.pending
  {
  }

  lemma CloseKeepsPending(s: State, ws: set<nat>, pending: map<Text, Entry>)
    ensures CloseAll(s, ws).(pending := pending) == CloseAll(s.(pending := pending), ws)
  {
  }

  lemma PruneOne(before: State, done: set<Text>, k: Text)
    requires k in before.pending && k !in done
    ensures var fewer := before.pending - (done + {k});
            && k in before.pending - done && before.pending - done - {k} == fewer
            && CloseAll(CloseAll(before.(pending := before.pending - done),
                                 FlowsOf(before.pending, done)).(pending := fewer),
                        {before.pending[k].flow})
               == CloseAll(before.(pending := fewer), FlowsOf(before.pending, done + {k}))
  {
    hide CloseAll, FlowsOf;
    var fewer := before.pending - (done + {k});
    assert before.pending - done - {k} == fewer;
    CloseKeepsPending(before.(pending := before.pending - done), FlowsOf(before.pending, done), fewer);
    CloseOneMore(before.(pending := fewer), FlowsOf(before.pending, done), before.pending[k].flow);
    OneMoreFlow(before.pending, done, k);
  }
}
