/**
  What holds of the agent runtime at every await, and the history every accepted continuation has.
 */
module AgentRuntimeInvariant {
  import opened Results
  import opened Utf16
  import opened Tables
  import opened Numerals
  import opened JsonValue
  import opened Canonicalizer
  import opened CodexContract
  import opened ResponsesServer
  import Envelope
  import opened AgentRuntime

  // ----- what holds at every await -----

  function Latest(inputs: seq<Continued>): seq<Exchange> {
    if inputs == [] then [] else inputs[|inputs| - 1].history
  }

  /** A fingerprint stands for a history that has a canonical text. */
  predicate Prints(fingerprint: Text, history: seq<Exchange>, env: Env) {
    var text := HistoryText(history, env.a.prints);
    text.Ok? && fingerprint == env.sha(text.value)
  }

  /**
    The n-th continuation accepted is the initial messages and n + 1 exchanges: those of the
    continuation before it, and one for the next call emitted.
   */
  predicate Chained(inputs: seq<Continued>, calls: seq<Call>, messages: seq<Message>) {
    && |inputs| <= |calls| <= |inputs| + 1
    && (forall n :: 0 <= n < |inputs| ==> Accepted(inputs, n, calls, messages))
  }

  predicate Accepted(inputs: seq<Continued>, n: nat, calls: seq<Call>, messages: seq<Message>)
    requires n < |inputs|
  {
    && inputs[n].messages == messages && |inputs[n].history| == n + 1 && n < |calls|
    && inputs[n].history[n].call == calls[n]
    && inputs[n].history[..n] == Latest(inputs[..n])
  }

  /** No call is emitted twice. */
  predicate EmittedOnce(calls: seq<Call>, emitted: set<Text>) {
    && (forall i :: 0 <= i < |calls| ==> calls[i].callId in emitted)
    && (forall i, j :: 0 <= i < j < |calls| ==> calls[i].callId != calls[j].callId)
  }

  predicate SetupSound(setup: Setup, env: Env) {
    && Plain(setup.toolsJson)
    && CanonicalText(Body(setup.fields, MessagesJson(setup.messages), setup.toolsJson), env.a.prints) == Ok(setup.text)
    && AdmitInitial(setup.text, setup.profile, env.a.prints) == Some(setup.initial)
  }

  predicate FlowSound(flow: Flow, env: Env) {
    && flow.closings <= 1 && flow.eligible <= flow.emitted
    && Chained(flow.inputs, flow.calls, flow.setup.messages) && EmittedOnce(flow.calls, flow.emitted)
    && SetupSound(flow.setup, env)
  }

  predicate LastCall(flow: Flow, call: Call) {
    flow.calls != [] && flow.calls[|flow.calls| - 1] == call
  }

  /** A pending entry waits for its workflow's last call, which its server still accepts. */
  predicate EntrySound(e: Entry, k: Text, flow: Flow, live: bool, env: Env) {
    && e.call.callId == k && k in flow.eligible
    && |flow.calls| == |flow.inputs| + 1 && LastCall(flow, e.call)
    && Prints(e.fingerprint, Latest(flow.inputs), env)
    && (live ==> flow.adapter == Awaiting(e.call))
  }

  predicate TaskSound(task: Task, flow: Flow, live: bool, env: Env) {
    && Prints(task.fingerprint, Latest(flow.inputs), env)
    && (match task.stage
        case Yielding =>
          && |flow.calls| == |flow.inputs| && (task.continues.Some? ==> LastCall(flow, task.continues.value))
          && (live ==> flow.adapter == if task.continues.None? then Idle else Awaiting(task.continues.value))
        case InBrowser =>
          |flow.calls| == |flow.inputs| && (live ==> flow.adapter == Busy)
        case Writing(Final) => true
        case Writing(ToolCall(call)) =>
          && |flow.calls| == |flow.inputs| + 1 && LastCall(flow, call) && call.callId in flow.eligible
          && (live ==> flow.adapter == Awaiting(call)))
  }

  /** No adapter has two owners. */
  ghost predicate Apart(pending: map<Text, Entry>, tasks: map<nat, Task>) {
    && (forall j, k :: j in pending && k in pending && pending[j].flow == pending[k].flow ==> j == k)
    && (forall t, u :: t in tasks && u in tasks && tasks[t].flow == tasks[u].flow ==> t == u)
    && (forall k, t :: k in pending && t in tasks ==> pending[k].flow != tasks[t].flow)
  }

  predicate HasOwner(pending: map<Text, Entry>, tasks: map<nat, Task>, w: nat) {
    (exists k :: k in pending && pending[k].flow == w) || (exists t :: t in tasks && tasks[t].flow == w)
  }

  ghost predicate FlowsSound(flows: map<nat, Flow>, active: set<nat>, next: nat, env: Env) {
    && (forall w :: w in flows ==> w < next && FlowSound(flows[w], env))
    && (forall w :: w in active ==> w in flows && flows[w].closings == 0)
  }

  ghost predicate EntriesSound(pending: map<Text, Entry>, flows: map<nat, Flow>, active: set<nat>, env: Env) {
    forall k :: k in pending ==>
      && pending[k].flow in flows
      && EntrySound(pending[k], k, flows[pending[k].flow], pending[k].flow in active, env)
  }

  ghost predicate TasksSound(tasks: map<nat, Task>, flows: map<nat, Flow>, active: set<nat>, next: nat, env: Env) {
    forall t :: t in tasks ==>
      && t < next && tasks[t].flow in flows
      && TaskSound(tasks[t], flows[tasks[t].flow], tasks[t].flow in active, env)
  }

  ghost predicate Owned(pending: map<Text, Entry>, tasks: map<nat, Task>, ws: set<nat>) {
    forall w :: w in ws ==> HasOwner(pending, tasks, w)
  }

  /** All that holds, but that some workflows may have lost their owner. */
  ghost predicate SoundBut(s: State, ws: set<nat>, env: Env) {
    && FlowsSound(s.flows, s.active, s.next, env)
    && EntriesSound(s.pending, s.flows, s.active, env) && TasksSound(s.tasks, s.flows, s.active, s.next, env)
    && Apart(s.pending, s.tasks) && Owned(s.pending, s.tasks, s.active - ws)
    && s.inFlight == |s.tasks| && |s.pending| + s.inFlight <= env.maxWorkflows
    && (s.closed ==> s.active == {} && s.pending == map[])
  }

  ghost predicate Sound(s: State, env: Env) {
    SoundBut(s, {}, env)
  }

  lemma ClosedFlowSound(flow: Flow, env: Env)
    requires FlowSound(flow, env) && flow.closings == 0
    ensures FlowSound(flow.(closings := 1, adapter := Terminal), env)
  {
    hide Chained, EmittedOnce, SetupSound;
  }

  lemma ClosedEntrySound(e: Entry, k: Text, flow: Flow, closings: nat, env: Env)
    requires EntrySound(e, k, flow, true, env)
    ensures EntrySound(e, k, flow.(closings := closings, adapter := Terminal), false, env)
  {
  }

  lemma ClosedTaskSound(task: Task, flow: Flow, closings: nat, env: Env)
    requires TaskSound(task, flow, true, env)
    ensures TaskSound(task, flow.(closings := closings, adapter := Terminal), false, env)
  {
  }

  function CloseFlows(flows: map<nat, Flow>, active: set<nat>, ws: set<nat>): map<nat, Flow> {
    map w | w in flows :: if w in ws && w in active then flows[w].(closings := flows[w].closings + 1,
                                                                   adapter := Terminal)
                          else flows[w]
  }

  lemma CloseFlowsSound(flows: map<nat, Flow>, active: set<nat>, ws: set<nat>, next: nat, env: Env)
    requires FlowsSound(flows, active, next, env)
    ensures FlowsSound(CloseFlows(flows, active, ws), active - ws, next, env)
  {
    hide FlowSound;
    var n := CloseFlows(flows, active, ws);
    forall w | w in n ensures FlowSound(n[w], env) {
      if w in ws && w in active {
        ClosedFlowSound(flows[w], env);
      }
    }
  }

  lemma CloseEntriesSound(pending: map<Text, Entry>, flows: map<nat, Flow>, active: set<nat>, ws: set<nat>, env: Env)
    requires EntriesSound(pending, flows, active, env)
    ensures EntriesSound(pending, CloseFlows(flows, active, ws), active - ws, env)
  {
    hide EntrySound;
    var n := CloseFlows(flows, active, ws);
    forall k | k in pending ensures EntrySound(pending[k], k, n[pending[k].flow], pending[k].flow in active - ws, env) {
      var w := pending[k].flow;
      if w in ws && w in active {
        ClosedEntrySound(pending[k], k, flows[w], flows[w].closings + 1, env);
      }
    }
  }

  lemma CloseTasksSound(tasks: map<nat, Task>, flows: map<nat, Flow>, active: set<nat>, ws: set<nat>, next: nat,
                        env: Env)
    requires TasksSound(tasks, flows, active, next, env)
    ensures TasksSound(tasks, CloseFlows(flows, active, ws), active - ws, next, env)
  {
    hide TaskSound;
    var n := CloseFlows(flows, active, ws);
    forall t | t in tasks ensures TaskSound(tasks[t], n[tasks[t].flow], tasks[t].flow in active - ws, env) {
      var w := tasks[t].flow;
      if w in ws && w in active {
        ClosedTaskSound(tasks[t], flows[w], flows[w].closings + 1, env);
      }
    }
  }

  /** Closing the workflows that have lost their owner puts everything right again. */
  lemma CloseAllSound(s: State, ws: set<nat>, env: Env)
    requires SoundBut(s, ws, env)
    ensures Sound(CloseAll(s, ws), env)
  {
    hide FlowsSound, EntriesSound, TasksSound, Owned, Apart;
    CloseFlowsSound(s.flows, s.active, ws, s.next, env);
    CloseEntriesSound(s.pending, s.flows, s.active, ws, env);
    CloseTasksSound(s.tasks, s.flows, s.active, ws, s.next, env);
    assert (s.active - ws) - {} == s.active - ws;
  }

  /** Who owns a workflow after some of the tables have lost or gained keys. */
  lemma OwnerStays(pending: map<Text, Entry>, tasks: map<nat, Task>, pending': map<Text, Entry>, tasks': map<nat, Task>,
                   w: nat)
    requires HasOwner(pending, tasks, w)
    requires forall k :: k in pending && pending[k].flow == w ==> k in pending' && pending'[k].flow == w
    requires forall t :: t in tasks && tasks[t].flow == w ==> t in tasks' && tasks'[t].flow == w
    ensures HasOwner(pending', tasks', w)
  {
  }

  lemma TaskOwns(pending: map<Text, Entry>, tasks: map<nat, Task>, t: nat)
    requires t in tasks
    ensures HasOwner(pending, tasks, tasks[t].flow)
  {
  }

  lemma EntryOwns(pending: map<Text, Entry>, tasks: map<nat, Task>, k: Text)
    requires k in pending
    ensures HasOwner(pending, tasks, pending[k].flow)
  {
  }

  lemma OwnedWithoutTask(pending: map<Text, Entry>, tasks: map<nat, Task>, active: set<nat>, t: nat)
    requires Owned(pending, tasks, active) && t in tasks
    ensures Owned(pending, tasks - {t}, active - {tasks[t].flow})
  {
    hide HasOwner;
    forall w | w in active - {tasks[t].flow} ensures HasOwner(pending, tasks - {t}, w) {
      OwnerStays(pending, tasks, pending, tasks - {t}, w);
    }
  }

  lemma RemoveTask(s: State, t: nat, env: Env)
    requires Sound(s, env) && t in s.tasks
    ensures SoundBut(s.(tasks := s.tasks - {t}, inFlight := s.inFlight - 1), {s.tasks[t].flow}, env)
    ensures Unowned(s.(tasks := s.tasks - {t}, inFlight := s.inFlight - 1), s.tasks[t].flow)
  {
    hide FlowsSound, EntriesSound, TaskSound, Owned;
    RemoveSize(s.tasks, t);
    OwnedWithoutTask(s.pending, s.tasks, s.active - {}, t);
    assert s.active - {} - {s.tasks[t].flow} == s.active - {s.tasks[t].flow};
  }

  lemma FlowOfKey(pending: map<Text, Entry>, keys: set<Text>, k: Text)
    requires k in pending && k in keys
    ensures pending[k].flow in FlowsOf(pending, keys)
  {
  }

  lemma OwnedWithoutEntries(pending: map<Text, Entry>, tasks: map<nat, Task>, active: set<nat>, keys: set<Text>)
    requires Owned(pending, tasks, active)
    ensures Owned(pending - keys, tasks, active - FlowsOf(pending, keys))
  {
    hide HasOwner, FlowsOf;
    forall w | w in active - FlowsOf(pending, keys) ensures HasOwner(pending - keys, tasks, w) {
      forall k | k in pending && pending[k].flow == w ensures k in pending - keys {
        if k in keys {
          FlowOfKey(pending, keys, k);
        }
      }
      OwnerStays(pending, tasks, pending - keys, tasks, w);
    }
  }

  lemma FewerEntries(pending: map<Text, Entry>, tasks: map<nat, Task>, flows: map<nat, Flow>, active: set<nat>,
                     keys: set<Text>, env: Env)
    requires EntriesSound(pending, flows, active, env) && Apart(pending, tasks)
    ensures EntriesSound(pending - keys, flows, active, env) && Apart(pending - keys, tasks)
  {
    hide EntrySound;
  }

  lemma RemoveEntries(s: State, keys: set<Text>, env: Env)
    requires Sound(s, env)
    ensures SoundBut(s.(pending := s.pending - keys), FlowsOf(s.pending, keys), env)
  {
    hide FlowsSound, EntriesSound, TasksSound, Apart, Owned, FlowsOf;
    RemoveManySize(s.pending, keys);
    FewerEntries(s.pending, s.tasks, s.flows, s.active, keys, env);
    OwnedWithoutEntries(s.pending, s.tasks, s.active - {}, keys);
    assert s.active - {} - FlowsOf(s.pending, keys) == s.active - FlowsOf(s.pending, keys);
    if s.closed {
      assert s.pending - keys == map[];
    }
  }

  lemma FlowOfOne(pending: map<Text, Entry>, k: Text)
    requires k in pending
    ensures FlowsOf(pending, {k}) == {pending[k].flow}
  {
  }

  lemma TakeEntry(s: State, k: Text, env: Env)
    requires Sound(s, env) && k in s.pending
    ensures SoundBut(s.(pending := s.pending - {k}), {s.pending[k].flow}, env)
    ensures Unowned(s.(pending := s.pending - {k}), s.pending[k].flow) && |s.pending - {k}| == |s.pending| - 1
  {
    hide FlowsSound, EntriesSound, TasksSound, Owned, FlowsOf;
    RemoveEntries(s, {k}, env);
    RemoveSize(s.pending, k);
    FlowOfOne(s.pending, k);
  }

  lemma PruneSound(s: State, now: int, env: Env)
    requires Sound(s, env)
    ensures Sound(Prune(s, now), env)
  {
    hide SoundBut;
    if !s.closed {
      var keys := Expired(s.pending, now);
      RemoveEntries(s, keys, env);
      CloseAllSound(s.(pending := s.pending - keys), FlowsOf(s.pending, keys), env);
    }
  }

  lemma EndSound(s: State, t: nat, env: Env)
    requires Sound(s, env) && t in s.tasks
    ensures Sound(End(s, t), env)
  {
    hide SoundBut, CloseAll;
    RemoveTask(s, t, env);
    CloseAllSound(s.(tasks := s.tasks - {t}, inFlight := s.inFlight - 1), {s.tasks[t].flow}, env);
  }

  ghost predicate Unowned(s: State, w: nat) {
    && (forall k :: k in s.pending ==> s.pending[k].flow != w)
    && (forall t :: t in s.tasks ==> s.tasks[t].flow != w)
  }

  lemma SetUnowned(s: State, w: nat, flow: Flow, env: Env)
    requires SoundBut(s, {w}, env) && Unowned(s, w) && w in s.flows && FlowSound(flow, env)
    requires flow.closings == s.flows[w].closings
    ensures SoundBut(s.(flows := s.flows[w := flow]), {w}, env)
  {
    hide FlowSound, EntrySound, TaskSound, Owned, Apart;
  }

  lemma OwnedWithTask(pending: map<Text, Entry>, tasks: map<nat, Task>, active: set<nat>, t: nat, task: Task)
    requires Owned(pending, tasks, active - {task.flow}) && t !in tasks
    ensures Owned(pending, tasks[t := task], active - {})
  {
    hide HasOwner;
    forall w | w in active ensures HasOwner(pending, tasks[t := task], w) {
      if w == task.flow {
        TaskOwns(pending, tasks[t := task], t);
      } else {
        OwnerStays(pending, tasks, pending, tasks[t := task], w);
      }
    }
  }

  lemma AddTask(s: State, t: nat, task: Task, env: Env)
    requires SoundBut(s, {task.flow}, env) && Unowned(s, task.flow) && task.flow in s.flows && t !in s.tasks
             && t < s.next
    requires TaskSound(task, s.flows[task.flow], task.flow in s.active, env)
    requires |s.pending| + s.inFlight < env.maxWorkflows
    ensures Sound(s.(tasks := s.tasks[t := task], inFlight := s.inFlight + 1), env)
  {
    hide FlowsSound, EntriesSound, TaskSound, Owned;
    InsertSize(s.tasks, t, task);
    OwnedWithTask(s.pending, s.tasks, s.active, t, task);
  }

  lemma OwnedWithEntry(pending: map<Text, Entry>, tasks: map<nat, Task>, active: set<nat>, k: Text, e: Entry)
    requires Owned(pending, tasks, active - {e.flow}) && k !in pending
    ensures Owned(pending[k := e], tasks, active - {})
  {
    hide HasOwner;
    forall w | w in active ensures HasOwner(pending[k := e], tasks, w) {
      if w == e.flow {
        EntryOwns(pending[k := e], tasks, k);
      } else {
        OwnerStays(pending, tasks, pending[k := e], tasks, w);
      }
    }
  }

  lemma AddEntry(s: State, k: Text, e: Entry, env: Env)
    requires SoundBut(s, {e.flow}, env) && Unowned(s, e.flow) && e.flow in s.flows && k !in s.pending && !s.closed
    requires EntrySound(e, k, s.flows[e.flow], e.flow in s.active, env)
    requires |s.pending| + s.inFlight < env.maxWorkflows
    ensures Sound(s.(pending := s.pending[k := e]), env)
  {
    hide FlowsSound, TasksSound, EntrySound, Owned;
    InsertSize(s.pending, k, e);
    OwnedWithEntry(s.pending, s.tasks, s.active, k, e);
  }

  lemma TaskFlowKnown(s: State, t: nat, env: Env)
    requires Sound(s, env) && t in s.tasks
    ensures t < s.next && s.tasks[t].flow in s.flows && s.tasks[t].flow < s.next
    ensures FlowSound(s.flows[s.tasks[t].flow], env)
    ensures TaskSound(s.tasks[t], s.flows[s.tasks[t].flow], s.tasks[t].flow in s.active, env)
  {
    hide FlowSound, TaskSound;
  }

  /** A request in flight moves on, and with it its workflow. */
  lemma UpdateTask(s: State, t: nat, task: Task, flow: Flow, env: Env)
    requires Sound(s, env) && t in s.tasks && task.flow == s.tasks[t].flow && FlowSound(flow, env)
    requires task.flow in s.flows && flow.closings == s.flows[task.flow].closings
    requires TaskSound(task, flow, task.flow in s.active, env)
    ensures Sound(s.(tasks := s.tasks[t := task], flows := s.flows[task.flow := flow]), env)
  {
    hide FlowsSound, EntriesSound, TasksSound, Owned, Apart, FlowSound, TaskSound;
    var w := task.flow;
    TaskFlowKnown(s, t, env);
    var removed := s.(tasks := s.tasks - {t}, inFlight := s.inFlight - 1);
    RemoveTask(s, t, env);
    SetUnowned(removed, w, flow, env);
    var placed := removed.(flows := s.flows[w := flow]);
    AddTask(placed, t, task, env);
    assert placed.tasks[t := task] == s.tasks[t := task];
  }

  /** A request ends, leaving its workflow with a log or an adapter of its own making. */
  lemma EndWith(s: State, t: nat, flow: Flow, env: Env)
    requires Sound(s, env) && t in s.tasks && FlowSound(flow, env) && s.tasks[t].flow in s.flows
    requires flow.closings == s.flows[s.tasks[t].flow].closings
    ensures Sound(End(s.(flows := s.flows[s.tasks[t].flow := flow]), t), env)
  {
    hide FlowsSound, EntriesSound, TasksSound, Owned, Apart, FlowSound, CloseAll;
    var w := s.tasks[t].flow;
    TaskFlowKnown(s, t, env);
    var removed := s.(tasks := s.tasks - {t}, inFlight := s.inFlight - 1);
    RemoveTask(s, t, env);
    SetUnowned(removed, w, flow, env);
    CloseAllSound(removed.(flows := s.flows[w := flow]), {w}, env);
  }

  // ----- every step keeps it -----

  lemma EntryFlowKnown(s: State, k: Text, env: Env)
    requires Sound(s, env) && k in s.pending
    ensures s.pending[k].flow in s.flows && FlowSound(s.flows[s.pending[k].flow], env)
    ensures EntrySound(s.pending[k], k, s.flows[s.pending[k].flow], s.pending[k].flow in s.active, env)
  {
    hide FlowSound, EntrySound;
  }

  lemma NoHistoryPrints(env: Env)
    ensures Prints(env.sha(NO_HISTORY), [], env)
  {
    hide NO_HISTORY;
    assert HistoryItems([]) == [];
    EmptyArray(env.a.prints);
  }

  lemma EmptyArray(prints: Numeral -> bool)
    ensures CanonicalText(Arr([]), prints) == Ok(NO_HISTORY)
  {
    assert [LBRACKET] + Join([]) + [RBRACKET] == NO_HISTORY;
  }

  lemma AdmittedSetup(r: Request, env: Env)
    requires AdmitSetup(r, env).Some? && Plain(r.toolsJson)
    ensures SetupSound(AdmitSetup(r, env).value, env)
  {
    hide Body, MessagesJson, CanonicalText, ProjectPrefix, FitsIn, AdmitInitial, ContractOf, Envelope.Utf8Length, Plain;
  }

  lemma NewFlowSound(setup: Setup, env: Env)
    requires SetupSound(setup, env)
    ensures FlowSound(Flow(setup, Idle, 0, {}, {}, [], []), env)
  {
    hide SetupSound;
  }

  /** A fresh workflow, still without its request. */
  lemma AddFlow(s: State, flow: Flow, env: Env)
    requires Sound(s, env) && FlowSound(flow, env) && flow.closings == 0 && !s.closed
    ensures var n := s.(next := s.next + 1, active := s.active + {s.next}, flows := s.flows[s.next := flow]);
            SoundBut(n, {s.next}, env) && Unowned(n, s.next)
  {
    hide FlowSound, EntrySound, TaskSound, Owned, Apart;
    assert s.next !in s.flows && s.next !in s.active;
    assert s.active + {s.next} - {s.next} == s.active - {};
    hide EntriesSound, TasksSound;
    AddFlowTables(s, flow, env);
  }

  lemma AddFlowTables(s: State, flow: Flow, env: Env)
    requires Sound(s, env) && s.next !in s.flows && s.next !in s.active
    ensures EntriesSound(s.pending, s.flows[s.next := flow], s.active + {s.next}, env)
    ensures TasksSound(s.tasks, s.flows[s.next := flow], s.active + {s.next}, s.next + 1, env)
    ensures Unowned(s, s.next)
  {
    hide FlowSound, EntrySound, TaskSound, Owned, Apart;
  }

  lemma BeginSound(s: State, r: Request, env: Env)
    requires Sound(s, env) && Plain(r.toolsJson) && !s.closed
    ensures Sound(Begin(s, r, env), env)
  {
    hide SoundBut, FlowSound, TaskSound, SetupSound, AdmitSetup, Plain, NO_HISTORY, Prints;
    if |s.pending| + s.inFlight < env.maxWorkflows && AdmitSetup(r, env).Some? {
      var setup := AdmitSetup(r, env).value;
      AdmittedSetup(r, env);
      NewFlowSound(setup, env);
      var flow := Flow(setup, Idle, 0, {}, {}, [], []);
      AddFlow(s, flow, env);
      var task := Task(s.next, Yielding, false, None, env.sha(NO_HISTORY));
      NewTaskSound(task, flow, env);
      FreshTask(s, env);
      AddTask(s.(next := s.next + 1, active := s.active + {s.next}, flows := s.flows[s.next := flow]), s.next, task,
              env);
    }
  }

  lemma NewTaskSound(task: Task, flow: Flow, env: Env)
    requires task.stage == Yielding && task.continues.None? && task.fingerprint == env.sha(NO_HISTORY)
    requires flow.inputs == [] && flow.calls == [] && flow.adapter == Idle
    ensures TaskSound(task, flow, true, env)
  {
    hide Prints, NO_HISTORY;
    NoHistoryPrints(env);
  }

  lemma FreshTask(s: State, env: Env)
    requires Sound(s, env)
    ensures s.next !in s.tasks
  {
    hide FlowSound, TaskSound;
  }

  // ----- a continuation extends its workflow's history by one exchange -----

  lemma ContinuationLinks(e: Entry, k: Text, flow: Flow, live: bool, r: Request, env: Env)
    requires FlowSound(flow, env) && EntrySound(e, k, flow, live, env) && Injective(env.sha) && Plain(r.toolsJson)
    requires ProjectRequest(e, flow.setup, r, env).Some?
    requires Admits(flow, e, r, ProjectRequest(e, flow.setup, r, env).value, env)
    ensures var c := ProjectRequest(e, flow.setup, r, env).value;
            && c.messages == flow.setup.messages && c.history[..|c.history| - 1] == Latest(flow.inputs)
            && Last(c).call == e.call && Prints(c.fingerprint, c.history, env)
  {
    hide Chained, EmittedOnce, ProjectContinuation, AdmitContinuation, AdmitInitial, CanonicalText, Body, MessagesJson,
      ContinuationInput, ContractOf, HistoryText, Plain, Envelope.Utf8Length;
    var c := ProjectRequest(e, flow.setup, r, env).value;
    HistoryExtends(r.items, r.tools, Latest(flow.inputs), env.sha, env.a);
    var text := ProjectedText(r.fields, ContinuationInput(c.messages, Last(c)), r.toolsJson, env).value;
    ContinuationBound(r.fields, c.messages, Last(c), r.toolsJson, text, flow.setup.fields, flow.setup.messages,
                      flow.setup.toolsJson, flow.setup.text, e.call, flow.setup.initial, flow.setup.profile,
                        env.a.prints);
  }

  /** The logs after an accepted continuation. */
  lemma LinkedFlowSound(flow: Flow, c: Continued, call: Call, env: Env)
    requires FlowSound(flow, env) && |flow.calls| == |flow.inputs| + 1 && LastCall(flow, call)
    requires c.messages == flow.setup.messages && c.history != [] && c.history[..|c.history| - 1] == Latest(flow.inputs)
    requires Last(c).call == call
    ensures var n := flow.(eligible := flow.eligible - {call.callId}, inputs := flow.inputs + [c]);
            FlowSound(n, env) && Latest(n.inputs) == c.history && LastCall(n, call)
  {
    hide SetupSound, EmittedOnce;
    var inputs := flow.inputs + [c];
    LatestLength(flow.inputs, flow.calls, flow.setup.messages);
    assert inputs[..|flow.inputs|] == flow.inputs;
    forall n | 0 <= n < |inputs| ensures Accepted(inputs, n, flow.calls, flow.setup.messages) {
      if n < |flow.inputs| {
        assert inputs[..n] == flow.inputs[..n];
        assert Accepted(flow.inputs, n, flow.calls, flow.setup.messages);
      }
    }
  }

  lemma LatestLength(inputs: seq<Continued>, calls: seq<Call>, messages: seq<Message>)
    requires Chained(inputs, calls, messages)
    ensures |Latest(inputs)| == |inputs|
  {
    if inputs != [] {
      assert Accepted(inputs, |inputs| - 1, calls, messages);
    }
  }

  lemma SpentFlowSound(flow: Flow, callId: Text, env: Env)
    requires FlowSound(flow, env)
    ensures FlowSound(flow.(eligible := flow.eligible - {callId}), env)
  {
    hide SetupSound, Chained, EmittedOnce;
  }

  lemma ContinueSound(s: State, callId: Text, r: Request, env: Env)
    requires Sound(s, env) && Plain(r.toolsJson) && Injective(env.sha)
    ensures Sound(Continue(s, callId, r, env), env)
  {
    hide SoundBut, FlowSound, TaskSound, EntrySound, SetupSound, Plain, ProjectRequest, Admits, ProjectedText, CloseAll,
      Injective, Last, Prints;
    if callId in s.pending && s.pending[callId].flow in s.flows {
      var e := s.pending[callId];
      var flow, taken := s.flows[e.flow], s.(pending := s.pending - {callId});
      TakeEntry(s, callId, env);
      EntryFlowKnown(s, callId, env);
      var c := ProjectRequest(e, flow.setup, r, env);
      CloseAllSound(taken, {e.flow}, env);
      if c.Some? && ProjectedText(r.fields, ContinuationInput(c.value.messages, Last(c.value)), r.toolsJson,
                                  env).Some? {
        if Admits(flow, e, r, c.value, env) {
          ContinueAdmitted(s, taken, callId, r, c.value, env);
        } else {
          var spent := flow.(eligible := flow.eligible - {e.call.callId});
          SpentFlowSound(flow, e.call.callId, env);
          SetUnowned(taken, e.flow, spent, env);
          CloseAllSound(taken.(flows := s.flows[e.flow := spent]), {e.flow}, env);
        }
      }
    }
  }

  lemma ContinueAdmitted(s: State, taken: State, callId: Text, r: Request, c: Continued, env: Env)
    requires Sound(s, env) && Plain(r.toolsJson) && Injective(env.sha) && callId in s.pending
    requires taken == s.(pending := s.pending - {callId}) && s.pending[callId].flow in s.flows
    requires SoundBut(taken, {s.pending[callId].flow}, env) && Unowned(taken, s.pending[callId].flow)
    requires |s.pending - {callId}| == |s.pending| - 1
    requires var e := s.pending[callId];
             ProjectRequest(e, s.flows[e.flow].setup, r, env) == Some(c) && Admits(s.flows[e.flow], e, r, c, env)
    ensures var e := s.pending[callId];
            var flow := s.flows[e.flow].(eligible := s.flows[e.flow].eligible - {e.call.callId});
            Sound(taken.(next := s.next + 1, inFlight := s.inFlight + 1,
                         flows := s.flows[e.flow := flow.(inputs := flow.inputs + [c])],
                         tasks := s.tasks[s.next := Task(e.flow, Yielding, false, Some(e.call), c.fingerprint)]), env)
  {
    hide SoundBut, FlowSound, TaskSound, EntrySound, SetupSound, Plain, ProjectRequest, Admits, Injective, Last, Prints;
    var e := s.pending[callId];
    var flow := s.flows[e.flow];
    EntryFlowKnown(s, callId, env);
    ContinuationLinks(e, callId, flow, e.flow in s.active, r, env);
    EntryCalls(e, callId, flow, e.flow in s.active, env);
    LinkedFlowSound(flow, c, e.call, env);
    var linked := flow.(eligible := flow.eligible - {e.call.callId}, inputs := flow.inputs + [c]);
    SetUnowned(taken, e.flow, linked, env);
    var placed := taken.(flows := s.flows[e.flow := linked]);
    var task := Task(e.flow, Yielding, false, Some(e.call), c.fingerprint);
    LinkedTaskSound(task, linked, e.flow in s.active, c, env);
    FreshTask(s, env);
    Count(s, env);
    MoreIds(placed, {e.flow}, env);
    AddTask(placed.(next := s.next + 1), s.next, task, env);
  }

  lemma Count(s: State, env: Env)
    requires Sound(s, env)
    ensures |s.pending| + s.inFlight <= env.maxWorkflows
  {
    hide FlowsSound, EntriesSound, TasksSound, Owned, Apart;
  }

  lemma MoreIds(s: State, ws: set<nat>, env: Env)
    requires SoundBut(s, ws, env)
    ensures SoundBut(s.(next := s.next + 1), ws, env)
  {
    hide FlowSound, EntriesSound, TaskSound, Owned, Apart;
  }

  lemma EntryCalls(e: Entry, k: Text, flow: Flow, live: bool, env: Env)
    requires EntrySound(e, k, flow, live, env)
    ensures |flow.calls| == |flow.inputs| + 1 && LastCall(flow, e.call) && (live ==> flow.adapter == Awaiting(e.call))
  {
    hide Prints;
  }

  lemma LinkedTaskSound(task: Task, flow: Flow, live: bool, c: Continued, env: Env)
    requires task.stage == Yielding && task.continues.Some? && task.fingerprint == c.fingerprint
    requires Latest(flow.inputs) == c.history && Prints(c.fingerprint, c.history, env)
    requires |flow.calls| == |flow.inputs| && LastCall(flow, task.continues.value)
    requires live ==> flow.adapter == Awaiting(task.continues.value)
    ensures TaskSound(task, flow, live, env)
  {
    hide Prints;
  }

  // ----- the steps of a request in flight -----

  lemma AdapterFlowSound(flow: Flow, adapter: AdapterPhase, env: Env)
    requires FlowSound(flow, env)
    ensures FlowSound(flow.(adapter := adapter), env)
  {
    hide SetupSound, Chained, EmittedOnce;
  }

  lemma EnterSound(s: State, t: nat, gone: bool, env: Env)
    requires Sound(s, env) && Running(s, t) && s.tasks[t].stage.Yielding?
    ensures Sound(Enter(s, t, gone), env)
  {
    hide SoundBut, FlowSound, End, Prints;
    var task := s.tasks[t];
    var flow := s.flows[task.flow];
    TaskFlowKnown(s, t, env);
    EndSound(s, t, env);
    AdapterFlowSound(flow, Busy, env);
    UpdateTask(s, t, task.(stage := InBrowser), flow.(adapter := Busy), env);
  }

  lemma EmittedFlowSound(flow: Flow, adapter: AdapterPhase, call: Call, env: Env)
    requires FlowSound(flow, env) && call.callId !in flow.emitted && |flow.calls| == |flow.inputs|
    ensures FlowSound(flow.(adapter := adapter, emitted := flow.emitted + {call.callId}), env)
    ensures var n := flow.(adapter := adapter, emitted := flow.emitted + {call.callId},
                           eligible := flow.eligible + {call.callId}, calls := flow.calls + [call]);
            FlowSound(n, env) && LastCall(n, call)
  {
    hide SetupSound, Latest;
    var calls := flow.calls + [call];
    forall n | 0 <= n < |flow.inputs| ensures Accepted(flow.inputs, n, calls, flow.setup.messages) {
      assert Accepted(flow.inputs, n, flow.calls, flow.setup.messages);
    }
  }

  lemma ReceiveCallSound(s: State, t: nat, call: Call, identity: bool, env: Env)
    requires Sound(s, env) && Running(s, t) && s.tasks[t].stage.InBrowser?
    ensures Sound(Receive(s, t, Some(ToolCall(call)), false, identity), env)
  {
    hide SoundBut, FlowSound, End, Prints, EmittedOnce;
    var task := s.tasks[t];
    var flow := s.flows[task.flow];
    TaskFlowKnown(s, t, env);
    AdapterFlowSound(flow, Awaiting(call), env);
    EndWith(s, t, flow.(adapter := Awaiting(call)), env);
    if !task.disconnected && call.callId !in flow.emitted && |flow.emitted| < MAX_EMITTED_CALLS {
      EmittedFlowSound(flow, Awaiting(call), call, env);
      if identity {
        UpdateTask(s, t, task.(stage := Writing(ToolCall(call))),
                   flow.(adapter := Awaiting(call), emitted := flow.emitted + {call.callId},
                         eligible := flow.eligible + {call.callId}, calls := flow.calls + [call]), env);
      } else {
        EndWith(s, t, flow.(adapter := Awaiting(call), emitted := flow.emitted + {call.callId}), env);
      }
    }
  }

  lemma ReceiveSound(s: State, t: nat, answer: Option<Answer>, gone: bool, identity: bool, env: Env)
    requires Sound(s, env) && Running(s, t) && s.tasks[t].stage.InBrowser?
    ensures Sound(Receive(s, t, answer, gone, identity), env)
  {
    hide SoundBut, FlowSound, End, Prints;
    var task := s.tasks[t];
    var flow := s.flows[task.flow];
    TaskFlowKnown(s, t, env);
    var after := if answer.Some? && answer.value.ToolCall? then Awaiting(answer.value.call) else Terminal;
    AdapterFlowSound(flow, after, env);
    EndWith(s, t, flow.(adapter := after), env);
    if answer.Some? && !gone && !task.disconnected {
      if answer.value.Final? {
        UpdateTask(s, t, task.(stage := Writing(Final)), flow.(adapter := after), env);
      } else {
        ReceiveCallSound(s, t, answer.value.call, identity, env);
      }
    }
  }

  lemma WaitingEntry(task: Task, flow: Flow, live: bool, expiresAt: int, env: Env)
    requires TaskSound(task, flow, live, env) && task.stage.Writing? && task.stage.answer.ToolCall?
    ensures var call := task.stage.answer.call;
            EntrySound(Entry(task.flow, call, task.fingerprint, expiresAt), call.callId, flow, live, env)
  {
    hide Prints, LastCall;
  }

  lemma FinishSound(s: State, t: nat, ok: bool, expiresAt: Option<int>, env: Env)
    requires Sound(s, env) && Running(s, t) && s.tasks[t].stage.Writing?
    ensures Sound(Finish(s, t, ok, expiresAt), env)
  {
    hide SoundBut, FlowSound, End, TaskSound, EntrySound;
    EndSound(s, t, env);
    var task := s.tasks[t];
    if ok && task.stage.answer.ToolCall? && expiresAt.Some? && !s.closed
      && task.stage.answer.call.callId !in s.pending {
      var call := task.stage.answer.call;
      TaskFlowKnown(s, t, env);
      WaitingEntry(task, s.flows[task.flow], task.flow in s.active, expiresAt.value, env);
      Count(s, env);
      RemoveTask(s, t, env);
      AddEntry(s.(tasks := s.tasks - {t}, inFlight := s.inFlight - 1), call.callId,
               Entry(task.flow, call, task.fingerprint, expiresAt.value), env);
    }
  }

  lemma DisconnectSound(s: State, t: nat, env: Env)
    requires Sound(s, env) && Running(s, t)
    ensures Sound(Step(s, Disconnect(t), env), env)
  {
    hide FlowsSound, EntriesSound, TasksSound, Owned, Apart, FlowSound, CloseAll, Prints;
    var task := s.tasks[t];
    TaskFlowKnown(s, t, env);
    UpdateTask(s, t, task.(disconnected := true), s.flows[task.flow], env);
    assert s.flows[task.flow := s.flows[task.flow]] == s.flows;
    var n := s.(tasks := s.tasks[t := task.(disconnected := true)]);
    FewerOwned(n.pending, n.tasks, n.active - {}, n.active - {task.flow});
    CloseAllSound(n, {task.flow}, env);
  }

  lemma FewerOwned(pending: map<Text, Entry>, tasks: map<nat, Task>, active: set<nat>, fewer: set<nat>)
    requires Owned(pending, tasks, active) && fewer <= active
    ensures Owned(pending, tasks, fewer)
  {
    hide HasOwner;
  }

  lemma ShutdownSound(s: State, env: Env)
    requires Sound(s, env)
    ensures Sound(Step(s, Shutdown, env), env)
  {
    hide FlowsSound, EntriesSound, TasksSound, Apart, HasOwner;
    if !s.closed {
      FewerOwned(s.pending, s.tasks, s.active - {}, s.active - s.active);
      CloseAllSound(s, s.active, env);
      var n := CloseAll(s, s.active);
      assert n.active == {};
      RemoveEntries(n, n.pending.Keys, env);
      assert n.pending - n.pending.Keys == map[];
    }
  }

  /** The event's tools are a plain JavaScript value. */
  predicate PlainEvent(e: Event) {
    e.Arrive? ==> Plain(e.request.toolsJson)
  }

  lemma StepSound(s: State, e: Event, env: Env)
    requires Sound(s, env) && PlainEvent(e) && Injective(env.sha)
    ensures Sound(Step(s, e, env), env)
  {
    hide SoundBut, Plain, Injective, Prune, Begin, Continue, Enter, Receive, Finish, CloseAll;
    match e
    case Arrive(now, r) =>
      if !s.closed {
        PruneSound(s, now, env);
        PruneStaysOpen(s, now);
        BeginSound(Prune(s, now), r, env);
        if KindOf(r.items).ContinuationKind? {
          ContinueSound(Prune(s, now), KindOf(r.items).callId, r, env);
        }
      }
    case Yielded(t, gone) =>
      if Running(s, t) && s.tasks[t].stage.Yielding? {
        EnterSound(s, t, gone, env);
      }
    case Answered(t, answer, gone, identity) =>
      if Running(s, t) && s.tasks[t].stage.InBrowser? {
        ReceiveSound(s, t, answer, gone, identity, env);
      }
    case Written(t, ok, expiresAt) =>
      if Running(s, t) && s.tasks[t].stage.Writing? {
        FinishSound(s, t, ok, expiresAt, env);
      }
    case Disconnect(t) =>
      if Running(s, t) {
        DisconnectSound(s, t, env);
      }
    case Expire(now) => PruneSound(s, now, env);
    case Shutdown => ShutdownSound(s, env);
  }

  lemma PruneStaysOpen(s: State, now: int)
    requires !s.closed
    ensures !Prune(s, now).closed
  {
  }

  /**
    At every await of every run: workflows in flight are counted and within the limit, each
    live adapter has exactly one owner and no adapter is closed twice, each waiting call is
    its server's to continue, and each log of accepted continuations is chained.
   */
  lemma {:induction false} RunSound(s: State, events: seq<Event>, env: Env)
    requires Sound(s, env) && Injective(env.sha) && forall i :: 0 <= i < |events| ==> PlainEvent(events[i])
    ensures Sound(Run(s, events, env), env)
    decreases |events|
  {
    hide SoundBut, Step, PlainEvent, Injective;
    if events != [] {
      StepSound(s, events[0], env);
      RunSound(Step(s, events[0], env), events[1..], env);
    }
  }

  lemma StartSound(env: Env)
    ensures Sound(Start(), env)
  {
  }

  /** What `Sound` comes to, spelled out. */
  lemma AtEveryAwait(events: seq<Event>, env: Env)
    requires Injective(env.sha) && forall i :: 0 <= i < |events| ==> PlainEvent(events[i])
    ensures var s := Run(Start(), events, env);
            && s.inFlight == |s.tasks| && |s.pending| + s.inFlight <= env.maxWorkflows
            && Apart(s.pending, s.tasks) && (forall w :: w in s.active ==> HasOwner(s.pending, s.tasks, w))
            && (forall w :: w in s.flows ==> s.flows[w].closings <= 1 && s.flows[w].eligible <= s.flows[w].emitted)
            && (forall w :: w in s.active ==> w in s.flows && s.flows[w].closings == 0)
            && (forall k :: k in s.pending ==>
                  s.pending[k].flow in s.flows && s.pending[k].call.callId == k
                    && k in s.flows[s.pending[k].flow].eligible)
            && (s.closed ==> s.active == {} && s.pending == map[])
  {
    hide Run, PlainEvent, Injective, Apart, HasOwner, Chained, EmittedOnce, SetupSound, Prints, TaskSound, LastCall;
    StartSound(env);
    RunSound(Start(), events, env);
  }

  /**
    In every run, the input accepted at a workflow's n-th continuation is its initial messages
    followed by exactly its first n calls, each emitted once, with one output each; and every
    later input starts with the same exchanges.
   */
  lemma AcceptedHistory(events: seq<Event>, env: Env, w: nat, n: nat, m: nat)
    requires Injective(env.sha) && forall i :: 0 <= i < |events| ==> PlainEvent(events[i])
    requires var s := Run(Start(), events, env); w in s.flows && n <= m < |s.flows[w].inputs|
    ensures var flow := Run(Start(), events, env).flows[w];
            && m < |flow.calls| && EmittedOnce(flow.calls, flow.emitted)
            && flow.inputs[n].messages == flow.setup.messages && |flow.inputs[n].history| == n + 1
            && (forall i :: 0 <= i <= n ==> flow.inputs[n].history[i].call == flow.calls[i])
            && flow.inputs[n].history <= flow.inputs[m].history
  {
    hide SoundBut, Run, PlainEvent, Injective, EmittedOnce, SetupSound;
    StartSound(env);
    RunSound(Start(), events, env);
    var s := Run(Start(), events, env);
    KnownFlow(s, w, env);
    var flow := s.flows[w];
    HistoryCalls(flow.inputs, n, flow.calls, flow.setup.messages);
    HistoryPrefix(flow.inputs, n, m, flow.calls, flow.setup.messages);
    assert Accepted(flow.inputs, n, flow.calls, flow.setup.messages);
    assert Accepted(flow.inputs, m, flow.calls, flow.setup.messages);
  }

  lemma KnownFlow(s: State, w: nat, env: Env)
    requires Sound(s, env) && w in s.flows
    ensures FlowSound(s.flows[w], env)
  {
    hide FlowSound, EntrySound, TaskSound, Apart, Owned;
  }

  lemma {:induction false} HistoryCalls(inputs: seq<Continued>, n: nat, calls: seq<Call>, messages: seq<Message>)
    requires Chained(inputs, calls, messages) && n < |inputs|
    ensures |inputs[n].history| == n + 1 && n < |calls|
    ensures forall i :: 0 <= i <= n ==> inputs[n].history[i].call == calls[i]
  {
    assert Accepted(inputs, n, calls, messages);
    if n > 0 {
      HistoryCalls(inputs, n - 1, calls, messages);
      assert inputs[..n][n - 1] == inputs[n - 1];
      forall i | 0 <= i < n ensures inputs[n].history[i].call == calls[i] {
        assert inputs[n].history[..n][i] == inputs[n - 1].history[i];
      }
    }
  }

  lemma {:induction false} HistoryPrefix(inputs: seq<Continued>, n: nat, m: nat, calls: seq<Call>,
                                         messages: seq<Message>)
    requires Chained(inputs, calls, messages) && n <= m < |inputs|
    ensures |inputs[n].history| == n + 1 && |inputs[m].history| == m + 1
    ensures inputs[m].history[..n + 1] == inputs[n].history
    decreases m
  {
    assert Accepted(inputs, n, calls, messages) && Accepted(inputs, m, calls, messages);
    if n < m {
      HistoryPrefix(inputs, n, m - 1, calls, messages);
      assert inputs[..m][m - 1] == inputs[m - 1];
      assert inputs[m].history[..m][..n + 1] == inputs[m].history[..n + 1];
    } else {
      assert inputs[m].history[..n + 1] == inputs[m].history;
    }
  }
}
