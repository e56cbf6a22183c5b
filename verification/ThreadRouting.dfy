/**
  The thread router's tables across prepare, settle, discard, clear and forget: pinned
  routes, quarantined threads, reserved slots and blocked threads.
 */
module ThreadRouting {
  import opened Results
  import opened Utf16
  import opened Decimal
  import opened Tables
  import opened ThreadRoute

  datatype Limits = Limits(maxPending: nat, maxThreads: nat)

  datatype Pending = Pending(
    forkSource: Option<Text>, resume: Option<Text>, quarantined: Option<Text>,
    requiresNew: bool, requiresForkIdentity: bool, reserves: bool, route: Route)

  datatype State = State(
    blocked: set<Text>, pending: map<Text, Pending>, provisional: map<Text, nat>, threads: map<Text, Route>,
    reservations: int, compromised: bool)

  datatype Request = Request(
    direction: Direction, id: RequestId, via: Lifecycle, params: Option<Params>, revision: Option<Text>)

  /** A response: its id, if it is a request id at all, and the fields settlement reads. */
  datatype Reply = Reply(
    id: Option<RequestId>, failed: bool, threadId: Raw, model: Raw, modelProvider: Raw, effort: Raw,
    threadProvider: Raw, forkedFrom: Raw)

  /** How a response settles; a refused one may block the thread it names. */
  datatype Verdict =
    | Unknown
    | Failed
    | Invalid(block: Option<Text>)
    | Throws(error: RoutingError, block: Option<Text>)
    | Committed(thread: Text, route: Route)

  datatype Event =
    | Prepare(request: Request, catalog: Catalog)
    | Settle(direction: Direction, reply: Reply, catalog: Catalog)
    | Discard(direction: Direction, id: RequestId)
    | Clear
    | Forget(thread: Text)

  function Empty(): State {
    State({}, map[], map[], map[], 0, false)
  }

  // ----- specification -----

  function RouteOf(threads: map<Text, Route>, thread: Option<Text>): Option<Route> {
    if thread.Some? && thread.value in threads then Some(threads[thread.value]) else None
  }

  /** `#assertThreadAvailable`. */
  function Availability(s: State, thread: Option<Text>): Outcome<RoutingError> {
    if thread.Some? && thread.value in s.blocked then Fail(ThreadRouteBlocked)
    else if thread.Some? && thread.value in s.provisional then Fail(ThreadRoutePending)
    else Pass
  }

  function SourceThread(params: Option<Params>): Option<Text> {
    if params.Some? then ReadString(params.value.threadId) else None
  }

  /** The decision `prepareThreadLifecycle` records, or the error it throws. */
  function Admit(s: State, request: Request, limits: Limits, catalog: Catalog): Result<Pending, RoutingError> {
    if s.compromised then Err(ThreadRouteBlocked)
    else if !ValidId(request.id) then Err(InvalidParams)
    else if Key(request.direction, request.id) in s.pending then Err(RequestIdConflict)
    else if |s.pending| >= limits.maxPending then Err(PendingCapacity)
    else if DefinesProvider(request.params) then Err(InvalidParams)
    else if request.via != Start && SourceThread(request.params).None? then Err(InvalidParams)
    else
      var source := SourceThread(request.params);
      var sourceRoute := RouteOf(s.threads, source);
      var overrides := Overrides(request.via, request.params);
      var web := sourceRoute.Some? && sourceRoute.value.kind.Web?;
      var available := if !overrides || web then Availability(s, source) else Pass;
      if available.Fail? then Err(available.error)
      else
        var decided := Decide(request.via, request.params, if overrides && !web then None else sourceRoute,
                              request.revision, catalog);
        if decided.Err? then Err(decided.error)
        else AdmitRoute(s, request, source, sourceRoute, decided.value, limits, catalog)
  }

  function AdmitRoute(s: State, request: Request, source: Option<Text>, sourceRoute: Option<Route>, route: Route,
                      limits: Limits, catalog: Catalog): Result<Pending, RoutingError>
  {
    var effective := if Overrides(request.via, request.params) && route.kind.Native? then None else source;
    var reserves := request.via != Resume || effective.None? || sourceRoute.None?;
    if route.kind.Web? && !SupportedForWeb(request.via, request.params) then Err(InvalidParams)
    else if reserves && |s.threads| + s.reservations >= limits.maxThreads then Err(ThreadCapacity)
    else if route.kind.Web? && Inject(request.params, route, catalog).None? then Err(InvalidParams)
    else
      Ok(Pending(if request.via == Fork then effective else None,
                 if request.via == Resume then effective else None,
                 if request.via != Start then effective else None,
                 request.via != Resume, request.via == Fork, reserves, route))
  }

  function Quarantine(provisional: map<Text, nat>, thread: Option<Text>): map<Text, nat> {
    if thread.None? then provisional
    else provisional[thread.value := 1 + if thread.value in provisional then provisional[thread.value] else 0]
  }

  function Released(provisional: map<Text, nat>, thread: Option<Text>): map<Text, nat> {
    if thread.None? then provisional
    else if thread.value !in provisional || provisional[thread.value] <= 1 then provisional - {thread.value}
    else provisional[thread.value := provisional[thread.value] - 1]
  }

  function Record(s: State, key: Text, p: Pending): State {
    s.(pending := s.pending[key := p], provisional := Quarantine(s.provisional, p.quarantined),
       reservations := s.reservations + if p.reserves then 1 else 0)
  }

  /** `#releasePending`. */
  function Release(s: State, key: Text): State
    requires key in s.pending
  {
    var p := s.pending[key];
    s.(pending := s.pending - {key}, provisional := Released(s.provisional, p.quarantined),
       reservations := s.reservations - if p.reserves then 1 else 0)
  }

  predicate Matches(raw: Raw, expected: Option<Text>) {
    expected.Some? && raw == String(expected.value)
  }

  /** `readResponseThreadId`: the thread a response names, if the rest of it fits the route. */
  function ResponseThread(reply: Reply, route: Route, catalog: Catalog): Option<Text> {
    var provider, model := ReadString(reply.modelProvider), ReadString(reply.model);
    if route.kind.Web? then
      if && Matches(reply.model, route.providerModel) && reply.modelProvider == String(catalog.provider)
         && Matches(reply.effort, route.effort) && reply.threadProvider == String(catalog.provider)
      then ReadString(reply.threadId)
      else None
    else if && model.Some? && provider.Some? && provider == ReadString(reply.threadProvider)
            && provider != Some(catalog.provider) && !catalog.reserved(model.value)
    then ReadString(reply.threadId)
    else None
  }

  /** The rest of `settleThreadLifecycle`, once the request has been released. */
  function Judge(s: State, p: Pending, reply: Reply, limits: Limits, catalog: Catalog): Verdict {
    var thread := ResponseThread(reply, p.route, catalog);
    var forkedFrom := ReadString(reply.forkedFrom);
    if reply.failed then Failed
    else if || thread.None? || (p.resume.Some? && thread != p.resume) || BadFork(p, thread, forkedFrom)
            || (p.requiresNew && thread.value in s.threads)
    then Invalid(ReadString(reply.threadId))
    else if Availability(s, thread).Fail? then Throws(Availability(s, thread).error, None)
    else if p.requiresForkIdentity && Availability(s, forkedFrom).Fail?
    then Throws(Availability(s, forkedFrom).error, None)
    else
      Settled(s, p.route, thread.value, if p.requiresForkIdentity then RouteOf(s.threads, forkedFrom) else None, limits)
  }

  predicate BadFork(p: Pending, thread: Option<Text>, forkedFrom: Option<Text>) {
    && p.requiresForkIdentity
    && (forkedFrom.None? || forkedFrom == thread || (p.forkSource.Some? && forkedFrom != p.forkSource))
  }

  function Settled(s: State, route: Route, thread: Text, forkSource: Option<Route>, limits: Limits): Verdict {
    var existing := RouteOf(s.threads, Some(thread));
    if route.kind.Native? && forkSource.Some? && forkSource.value.kind.Web? then Invalid(Some(thread))
    else
      var committed := if route.kind.Native? && existing.Some? && existing.value.kind.Native? then existing.value
                       else if route.kind.Native? && forkSource.Some? then forkSource.value
                       else route;
      if existing.Some? && existing.value != committed then Throws(RouteConflict, Some(thread))
      else if existing.None? && |s.threads| >= limits.maxThreads then Throws(ThreadCapacity, Some(thread))
      else Committed(thread, committed)
  }

  function Block(s: State, thread: Option<Text>, limits: Limits): State {
    if thread.None? || thread.value in s.blocked then s
    else if |s.blocked| >= limits.maxThreads then s.(compromised := true)
    else s.(blocked := s.blocked + {thread.value})
  }

  lemma BlockNothing(s: State, limits: Limits)
    ensures Block(s, None, limits) == s
  {
  }

  function Apply(s: State, v: Verdict, limits: Limits): State {
    match v
    case Invalid(block) => Block(s, block, limits)
    case Throws(_, block) => Block(s, block, limits)
    case Committed(thread, route) => s.(threads := s.threads[thread := route])
    case Unknown => s
    case Failed => s
  }

  predicate Settles(s: State, direction: Direction, id: Option<RequestId>) {
    id.Some? && ValidId(id.value) && Key(direction, id.value) in s.pending
  }

  function VerdictOf(s: State, direction: Direction, reply: Reply, limits: Limits, catalog: Catalog): Verdict {
    if reply.id.Some? && reply.id.value.Name? && !ValidId(reply.id.value) then Throws(InvalidParams, None)
    else if !Settles(s, direction, reply.id) then Unknown
    else
      var key := Key(direction, reply.id.value);
      Judge(Release(s, key), s.pending[key], reply, limits, catalog)
  }

  function Step(s: State, e: Event, limits: Limits): State {
    match e
    case Prepare(request, catalog) =>
      var admitted := Admit(s, request, limits, catalog);
      if admitted.Ok? then Record(s, Key(request.direction, request.id), admitted.value) else s
    case Settle(direction, reply, catalog) =>
      if !Settles(s, direction, reply.id) then s
      else Apply(Release(s, Key(direction, reply.id.value)), VerdictOf(s, direction, reply, limits, catalog), limits)
    case Discard(direction, id) =>
      if Settles(s, direction, Some(id)) then Release(s, Key(direction, id)) else s
    case Clear => s.(pending := map[], provisional := map[], reservations := 0)
    case Forget(thread) => s.(threads := s.threads - {thread})
  }

  function Run(s: State, events: seq<Event>, limits: Limits): State
    decreases |events|
  {
    if events == [] then s else Run(Step(s, events[0], limits), events[1..], limits)
  }

  // ----- invariants -----

  ghost predicate Holds(pending: map<Text, Pending>, key: Text, thread: Text) {
    key in pending && pending[key].quarantined == Some(thread)
  }

  /** Each quarantined thread belongs to exactly one pending request, and is counted once. */
  ghost predicate Quarantined(pending: map<Text, Pending>, provisional: map<Text, nat>) {
    && (forall t :: t in provisional ==> provisional[t] == 1 && exists k :: Holds(pending, k, t))
    && (forall k, t :: Holds(pending, k, t) ==> t in provisional)
    && (forall j, k, t :: Holds(pending, j, t) && Holds(pending, k, t) ==> j == k)
  }

  function Reserving(pending: map<Text, Pending>): set<Text> {
    set k | k in pending && pending[k].reserves
  }

  /** While a thread is quarantined its route, if it still has one, is the one its request will commit. */
  ghost predicate Steady(pending: map<Text, Pending>, threads: map<Text, Route>) {
    forall k, t :: Holds(pending, k, t) && t in threads ==> threads[t] == pending[k].route
  }

  predicate WellFormed(p: Pending) {
    && (!p.reserves ==> p.resume.Some? && p.quarantined == p.resume && !p.requiresForkIdentity)
    && (p.requiresForkIdentity ==> p.quarantined == p.forkSource && p.resume.None? && p.requiresNew)
    && (p.requiresForkIdentity && p.route.kind.Web? ==> p.forkSource.Some?)
  }

  ghost predicate Sound(s: State, limits: Limits) {
    && Quarantined(s.pending, s.provisional) && Steady(s.pending, s.threads)
    && s.reservations == |Reserving(s.pending)|
    && (forall k :: k in s.pending ==> WellFormed(s.pending[k]))
    && |s.pending| <= limits.maxPending && |s.threads| <= limits.maxThreads && |s.blocked| <= limits.maxThreads
  }

  /** What an admitted request looks like. */
  lemma AdmittedForm(s: State, request: Request, limits: Limits, catalog: Catalog)
    requires Admit(s, request, limits, catalog).Ok?
    ensures var p := Admit(s, request, limits, catalog).value;
            && WellFormed(p)
            && (p.quarantined.Some? ==> p.quarantined.value !in s.provisional)
            && (p.quarantined.Some? && p.quarantined.value in s.threads ==> s.threads[p.quarantined.value] == p.route)
            && (!p.reserves ==> p.resume.value in s.threads)
            && (p.reserves ==> |s.threads| + s.reservations < limits.maxThreads)
            && |s.pending| < limits.maxPending && Key(request.direction, request.id) !in s.pending
  {
    hide Decide, Overrides, SupportedForWeb, Inject, DefinesProvider, ReadString, Key, ValidId;
    var source := SourceThread(request.params);
    var sourceRoute := RouteOf(s.threads, source);
    var overrides := Overrides(request.via, request.params);
    var web := sourceRoute.Some? && sourceRoute.value.kind.Web?;
    if request.via != Start {
      DecisionInherits(request.via, request.params, if overrides && !web then None else sourceRoute, request.revision,
                       catalog);
    }
  }

  lemma RecordQuarantined(s: State, key: Text, p: Pending)
    requires Quarantined(s.pending, s.provisional) && key !in s.pending
    requires p.quarantined.Some? ==> p.quarantined.value !in s.provisional
    ensures var n := Record(s, key, p); Quarantined(n.pending, n.provisional)
    ensures forall k, t :: Holds(Record(s, key, p).pending, k, t) <==>
                           Holds(s.pending, k, t) || (k == key && p.quarantined == Some(t))
  {
    var n := Record(s, key, p);
    forall k, t ensures Holds(n.pending, k, t) <==> Holds(s.pending, k, t) || (k == key && p.quarantined == Some(t)) {}
    forall t | t in n.provisional ensures n.provisional[t] == 1 && exists k :: Holds(n.pending, k, t) {
      if t in s.provisional {
        var k :| Holds(s.pending, k, t);
        assert Holds(n.pending, k, t);
      } else {
        assert Holds(n.pending, key, t);
      }
    }
  }

  lemma RecordSound(s: State, key: Text, p: Pending, limits: Limits)
    requires Sound(s, limits) && WellFormed(p) && key !in s.pending && |s.pending| < limits.maxPending
    requires p.quarantined.Some? ==> p.quarantined.value !in s.provisional
    requires p.quarantined.Some? && p.quarantined.value in s.threads ==> s.threads[p.quarantined.value] == p.route
    ensures Sound(Record(s, key, p), limits)
  {
    hide WellFormed, Quarantined, Quarantine;
    var n := Record(s, key, p);
    RecordQuarantined(s, key, p);
    assert Steady(n.pending, n.threads) by {
      hide Holds;
    }
    RecordCounts(s, key, p);
  }

  lemma RecordCounts(s: State, key: Text, p: Pending)
    requires key !in s.pending
    ensures var n := Record(s, key, p);
            && |n.pending| == |s.pending| + 1
            && |Reserving(n.pending)| == |Reserving(s.pending)| + if p.reserves then 1 else 0
  {
    hide Reserving, Quarantine;
    InsertSize(s.pending, key, p);
    ReservingInsert(s.pending, key, p);
  }

  lemma ReservingInsert(pending: map<Text, Pending>, key: Text, p: Pending)
    requires key !in pending
    ensures |Reserving(pending[key := p])| == |Reserving(pending)| + if p.reserves then 1 else 0
  {
    if p.reserves {
      assert Reserving(pending[key := p]) == Reserving(pending) + {key};
    } else {
      assert Reserving(pending[key := p]) == Reserving(pending);
    }
  }

  lemma ReservingRemove(pending: map<Text, Pending>, key: Text)
    requires key in pending
    ensures |Reserving(pending - {key})| == |Reserving(pending)| - if pending[key].reserves then 1 else 0
  {
    assert Reserving(pending - {key}) == Reserving(pending) - {key};
  }

  lemma ReleaseQuarantined(s: State, key: Text)
    requires Quarantined(s.pending, s.provisional) && key in s.pending
    ensures var n := Release(s, key); Quarantined(n.pending, n.provisional)
    ensures forall k, t :: Holds(Release(s, key).pending, k, t) <==> Holds(s.pending, k, t) && k != key
  {
    var p, n := s.pending[key], Release(s, key);
    forall k, t ensures Holds(n.pending, k, t) <==> Holds(s.pending, k, t) && k != key {}
    if p.quarantined.Some? {
      assert Holds(s.pending, key, p.quarantined.value);
    }
    forall t | t in n.provisional ensures n.provisional[t] == 1 && exists k :: Holds(n.pending, k, t) {
      var k :| Holds(s.pending, k, t);
      assert Holds(n.pending, k, t);
    }
  }

  lemma ReleaseSound(s: State, key: Text, limits: Limits)
    requires Sound(s, limits) && key in s.pending
    ensures Sound(Release(s, key), limits)
  {
    hide WellFormed, Quarantined, Released, Reserving;
    ReleaseQuarantined(s, key);
    assert Steady(Release(s, key).pending, s.threads) by {
      hide Holds;
    }
    RemoveSize(s.pending, key);
    ReservingRemove(s.pending, key);
  }

  /** What a committed verdict says of the released state. */
  lemma CommittedForm(s: State, p: Pending, reply: Reply, limits: Limits, catalog: Catalog)
    requires Judge(s, p, reply, limits, catalog).Committed? && |s.threads| <= limits.maxThreads
    ensures var v := Judge(s, p, reply, limits, catalog);
            && v.thread !in s.provisional && v.thread !in s.blocked
            && (v.thread in s.threads ==> s.threads[v.thread] == v.route)
            && (v.thread !in s.threads ==> |s.threads| < limits.maxThreads)
            && (p.resume.Some? ==> v.thread == p.resume.value)
            && (p.requiresNew ==> v.thread !in s.threads)
  {
    hide ResponseThread, ReadString;
  }

  lemma CommitSound(s: State, thread: Text, route: Route, limits: Limits)
    requires Sound(s, limits) && thread !in s.provisional
    requires thread in s.threads ==> s.threads[thread] == route
    requires thread !in s.threads ==> |s.threads| < limits.maxThreads
    ensures Sound(s.(threads := s.threads[thread := route]), limits)
  {
    hide WellFormed, Reserving, Steady, Quarantined;
    InsertSize(s.threads, thread, route);
    CommitSteady(s.pending, s.provisional, s.threads, thread, route);
  }

  lemma CommitSteady(pending: map<Text, Pending>, provisional: map<Text, nat>, threads: map<Text, Route>, thread: Text,
                     route: Route)
    requires Quarantined(pending, provisional) && Steady(pending, threads) && thread !in provisional
    ensures Steady(pending, threads[thread := route])
  {
    var after := threads[thread := route];
    forall k, t | Holds(pending, k, t) && t in after ensures after[t] == pending[k].route {
      assert t in provisional;
    }
  }

  lemma BlockSound(s: State, thread: Option<Text>, limits: Limits)
    requires Sound(s, limits)
    ensures Sound(Block(s, thread, limits), limits) && Block(s, thread, limits).threads == s.threads
  {
    hide WellFormed, Reserving, Steady, Quarantined;
  }

  lemma SettleSound(s: State, direction: Direction, reply: Reply, catalog: Catalog, limits: Limits)
    requires Sound(s, limits)
    ensures Sound(Step(s, Settle(direction, reply, catalog), limits), limits)
  {
    hide Sound, Release, Judge, Block, Key, ValidId;
    if Settles(s, direction, reply.id) {
      var key := Key(direction, reply.id.value);
      ReleaseSound(s, key, limits);
      var r := Release(s, key);
      match Judge(r, s.pending[key], reply, limits, catalog)
      case Invalid(block) => BlockSound(r, block, limits);
      case Throws(_, block) => BlockSound(r, block, limits);
      case Committed(thread, route) =>
        SoundBounds(r, limits);
        CommittedForm(r, s.pending[key], reply, limits, catalog);
        CommitSound(r, thread, route, limits);
      case Unknown =>
      case Failed =>
    }
  }

  lemma SoundBounds(s: State, limits: Limits)
    requires Sound(s, limits)
    ensures |s.threads| <= limits.maxThreads && s.reservations == |Reserving(s.pending)|
  {
  }

  lemma ForgetSound(s: State, thread: Text, limits: Limits)
    requires Sound(s, limits)
    ensures Sound(Step(s, Forget(thread), limits), limits)
  {
    hide WellFormed, Reserving, Quarantined;
    RemoveSize(s.threads, thread);
    assert Steady(s.pending, s.threads - {thread}) by {
      hide Holds;
    }
  }

  lemma StepSound(s: State, e: Event, limits: Limits)
    requires Sound(s, limits)
    ensures Sound(Step(s, e, limits), limits)
  {
    match e
    case Prepare(request, catalog) =>
      hide Sound, Admit, Key, Record;
      if Admit(s, request, limits, catalog).Ok? {
        AdmittedForm(s, request, limits, catalog);
        RecordSound(s, Key(request.direction, request.id), Admit(s, request, limits, catalog).value, limits);
      }
    case Settle(direction, reply, catalog) =>
      SettleSound(s, direction, reply, catalog, limits);
    case Discard(direction, id) =>
      hide Sound, Release, Key, ValidId;
      if Settles(s, direction, Some(id)) {
        ReleaseSound(s, Key(direction, id), limits);
      }
    case Clear =>
      assert Reserving(map[]) == {};
    case Forget(thread) =>
      ForgetSound(s, thread, limits);
  }

  /** In every reachable state the counters count what they should and no table is over its limit. */
  lemma {:induction false} RunSound(s: State, events: seq<Event>, limits: Limits)
    requires Sound(s, limits)
    ensures Sound(Run(s, events, limits), limits)
    decreases |events|
  {
    hide Sound, Step;
    if events != [] {
      StepSound(s, events[0], limits);
      RunSound(Step(s, events[0], limits), events[1..], limits);
    }
  }

  lemma EmptySound(limits: Limits)
    ensures Sound(Empty(), limits)
  {
    assert Reserving(map[]) == {};
  }

  // ----- pinned routes -----

  lemma PinnedStep(s: State, e: Event, limits: Limits, thread: Text)
    requires Sound(s, limits) && thread in s.threads && e != Forget(thread)
    ensures thread in Step(s, e, limits).threads && Step(s, e, limits).threads[thread] == s.threads[thread]
  {
    hide Admit, Judge, Key, ValidId, Quarantined, Steady;
    if e.Settle? && Settles(s, e.direction, e.reply.id) {
      var key := Key(e.direction, e.reply.id.value);
      if Judge(Release(s, key), s.pending[key], e.reply, limits, e.catalog).Committed? {
        CommittedForm(Release(s, key), s.pending[key], e.reply, limits, e.catalog);
      }
    }
  }

  /** A pinned thread keeps its route until it is forgotten. */
  lemma {:induction false} PinnedUntilForgotten(s: State, events: seq<Event>, limits: Limits, thread: Text)
    requires Sound(s, limits) && thread in s.threads && Forget(thread) !in events
    ensures thread in Run(s, events, limits).threads
    ensures Run(s, events, limits).threads[thread] == s.threads[thread]
    decreases |events|
  {
    hide Sound, Step;
    if events != [] {
      assert events[0] in events;
      PinnedStep(s, events[0], limits, thread);
      StepSound(s, events[0], limits);
      PinnedUntilForgotten(Step(s, events[0], limits), events[1..], limits, thread);
    }
  }

  lemma ForkRoute(s: State, r: State, p: Pending, reply: Reply, limits: Limits, catalog: Catalog)
    requires Judge(r, p, reply, limits, catalog).Committed? && p.requiresForkIdentity && p.requiresNew
    requires p.route.kind.Web? ==> p.forkSource.Some?
    requires p.forkSource.Some? && p.forkSource.value in r.threads ==> r.threads[p.forkSource.value] == p.route
    ensures var v := Judge(r, p, reply, limits, catalog);
            var source := ReadString(reply.forkedFrom);
            && source.Some? && source != Some(v.thread) && v.thread !in r.threads
            && (source.value in r.threads ==> v.route == r.threads[source.value])
  {
    hide ReadString;
    var v := Judge(r, p, reply, limits, catalog);
    var thread := ResponseThread(reply, p.route, catalog);
    assert v.thread == thread.value by {
      hide ResponseThread;
    }
    hide ResponseThread;
  }

  /**
    A committed fork takes the route of the thread it was reported to come from, whenever
    that thread is pinned, and both then keep it until one of them is forgotten.
   */
  lemma ForkSharesRoute(s: State, direction: Direction, reply: Reply, catalog: Catalog, later: seq<Event>,
                        limits: Limits)
    requires Sound(s, limits) && Settles(s, direction, reply.id)
    requires s.pending[Key(direction, reply.id.value)].requiresForkIdentity
    requires VerdictOf(s, direction, reply, limits, catalog).Committed?
    ensures var v := VerdictOf(s, direction, reply, limits, catalog);
            var source := ReadString(reply.forkedFrom);
            && source.Some? && source != Some(v.thread) && v.thread !in s.threads
            && (source.value in s.threads && Forget(v.thread) !in later && Forget(source.value) !in later ==>
                  var end := Run(Step(s, Settle(direction, reply, catalog), limits), later, limits);
                  && v.thread in end.threads && source.value in end.threads
                  && end.threads[v.thread] == end.threads[source.value] == s.threads[source.value])
  {
    hide Quarantined, Judge, Key, ValidId, ReadString, Run;
    var key := Key(direction, reply.id.value);
    var p, r := s.pending[key], Release(s, key);
    if p.forkSource.Some? {
      assert Holds(s.pending, key, p.forkSource.value);
    }
    ForkRoute(s, r, p, reply, limits, catalog);
    var v, source := VerdictOf(s, direction, reply, limits, catalog), ReadString(reply.forkedFrom);
    if source.value in s.threads && Forget(v.thread) !in later && Forget(source.value) !in later {
      var n := Step(s, Settle(direction, reply, catalog), limits);
      SettleSound(s, direction, reply, catalog, limits);
      assert n.threads == s.threads[v.thread := v.route];
      PinnedUntilForgotten(n, later, limits, v.thread);
      PinnedUntilForgotten(n, later, limits, source.value);
    }
  }

  // ----- room in the thread table -----

  /** Pending resumes without a slot of their own whose thread has been forgotten meanwhile. */
  function Orphans(s: State): set<Text> {
    set k | k in s.pending && !s.pending[k].reserves && RouteOf(s.threads, s.pending[k].resume).None?
  }

  /** Whether an event forgets a thread that a pending resume counts on. */
  predicate Fault(s: State, e: Event) {
    e.Forget? && e.thread in s.threads &&
    exists k :: k in s.pending && !s.pending[k].reserves && s.pending[k].resume == Some(e.thread)
  }

  function Faults(s: State, events: seq<Event>, limits: Limits): nat
    decreases |events|
  {
    if events == [] then 0
    else (if Fault(s, events[0]) then 1 else 0) + Faults(Step(s, events[0], limits), events[1..], limits)
  }

  /** Slots taken, promised, or owed to an orphan. */
  function Load(s: State): int {
    |s.threads| + |Reserving(s.pending)| + |Orphans(s)|
  }

  ghost predicate Roomy(s: State, limits: Limits, faults: nat) {
    |Orphans(s)| <= faults && Load(s) <= limits.maxThreads + faults
  }

  lemma ReleaseRoomy(s: State, key: Text)
    requires key in s.pending
    ensures var r := Release(s, key);
            && r.threads == s.threads
            && |Reserving(r.pending)| == |Reserving(s.pending)| - (if s.pending[key].reserves then 1 else 0)
            && |Orphans(r)| == |Orphans(s)| - (if key in Orphans(s) then 1 else 0)
  {
    hide Reserving, Released;
    ReservingRemove(s.pending, key);
    OrphansRemove(s, key);
  }

  lemma OrphansRemove(s: State, key: Text)
    requires key in s.pending
    ensures |Orphans(Release(s, key))| == |Orphans(s)| - (if key in Orphans(s) then 1 else 0)
  {
    hide RouteOf, Released;
    assert Orphans(Release(s, key)) == Orphans(s) - {key};
  }

  lemma ThreadsGrow(s: State, thread: Text, route: Route)
    ensures var n := s.(threads := s.threads[thread := route]);
            && |n.threads| == |s.threads| + (if thread in s.threads then 0 else 1)
            && |Orphans(n)| <= |Orphans(s)|
  {
    InsertSize(s.threads, thread, route);
    SubsetSize(Orphans(s.(threads := s.threads[thread := route])), Orphans(s));
  }

  lemma RoomySettle(s: State, direction: Direction, reply: Reply, catalog: Catalog, limits: Limits, faults: nat)
    requires Sound(s, limits) && Roomy(s, limits, faults)
    ensures Roomy(Step(s, Settle(direction, reply, catalog), limits), limits, faults)
  {
    hide Judge, Key, ValidId, Quarantined, Steady, Reserving, Orphans;
    if Settles(s, direction, reply.id) {
      var key := Key(direction, reply.id.value);
      var p, r := s.pending[key], Release(s, key);
      ReleaseRoomy(s, key);
      match Judge(r, p, reply, limits, catalog)
      case Invalid(block) => BlockRoomy(r, block, limits);
      case Throws(_, block) => BlockRoomy(r, block, limits);
      case Committed(thread, route) =>
        CommittedForm(r, p, reply, limits, catalog);
        ThreadsGrow(r, thread, route);
        if !p.reserves && thread !in s.threads {
          OrphanedResume(s, key);
        }
      case Unknown =>
      case Failed =>
    }
  }

  lemma OrphanedResume(s: State, key: Text)
    requires key in s.pending && !s.pending[key].reserves && RouteOf(s.threads, s.pending[key].resume).None?
    ensures key in Orphans(s)
  {
  }

  lemma BlockRoomy(s: State, thread: Option<Text>, limits: Limits)
    ensures var n := Block(s, thread, limits);
            n.threads == s.threads && n.pending == s.pending && Orphans(n) == Orphans(s)
  {
  }

  lemma RoomyPrepare(s: State, request: Request, catalog: Catalog, limits: Limits, faults: nat)
    requires Sound(s, limits) && Roomy(s, limits, faults)
    ensures Roomy(Step(s, Prepare(request, catalog), limits), limits, faults)
  {
    hide Admit, Key, Quarantined, Steady, Reserving, Orphans, Record;
    if Admit(s, request, limits, catalog).Ok? {
      AdmittedForm(s, request, limits, catalog);
      var key, p := Key(request.direction, request.id), Admit(s, request, limits, catalog).value;
      RecordCounts(s, key, p);
      OrphansInsert(s, key, p);
    }
  }

  lemma OrphansInsert(s: State, key: Text, p: Pending)
    requires key !in s.pending && (!p.reserves ==> RouteOf(s.threads, p.resume).Some?)
    ensures Record(s, key, p).threads == s.threads && Orphans(Record(s, key, p)) == Orphans(s)
  {
    hide RouteOf, Quarantine;
  }

  /** Forgetting a thread orphans at most the one resume that has it in quarantine. */
  lemma OrphansForget(s: State, thread: Text)
    requires Quarantined(s.pending, s.provisional) && forall k :: k in s.pending ==> WellFormed(s.pending[k])
    ensures var n := s.(threads := s.threads - {thread});
            |Orphans(n)| <= |Orphans(s)| + if Fault(s, Forget(thread)) then 1 else 0
  {
    var n := s.(threads := s.threads - {thread});
    if Fault(s, Forget(thread)) {
      var key :| key in s.pending && !s.pending[key].reserves && s.pending[key].resume == Some(thread);
      assert Holds(s.pending, key, thread);
      forall k | k in Orphans(n) ensures k in Orphans(s) + {key} {
        if s.pending[k].resume == Some(thread) {
          assert Holds(s.pending, k, thread);
        }
      }
      SubsetSize(Orphans(n), Orphans(s) + {key});
    } else {
      SubsetSize(Orphans(n), Orphans(s));
    }
  }

  lemma RoomyForget(s: State, thread: Text, limits: Limits, faults: nat)
    requires Sound(s, limits) && Roomy(s, limits, faults)
    ensures Roomy(Step(s, Forget(thread), limits), limits, faults + if Fault(s, Forget(thread)) then 1 else 0)
  {
    hide Steady, Reserving, Orphans;
    OrphansForget(s, thread);
    RemoveSize(s.threads, thread);
  }

  lemma RoomyStep(s: State, e: Event, limits: Limits, faults: nat)
    requires Sound(s, limits) && Roomy(s, limits, faults)
    ensures Roomy(Step(s, e, limits), limits, faults + if Fault(s, e) then 1 else 0)
  {
    hide Sound, Key, ValidId, Admit, Judge;
    match e
    case Prepare(request, catalog) => RoomyPrepare(s, request, catalog, limits, faults);
    case Settle(direction, reply, catalog) => RoomySettle(s, direction, reply, catalog, limits, faults);
    case Discard(direction, id) =>
      if Settles(s, direction, Some(id)) {
        ReleaseRoomy(s, Key(direction, id));
      }
    case Clear =>
      SoundBounds(s, limits);
      assert Reserving(map[]) == {} && Orphans(Step(s, e, limits)) == {};
    case Forget(thread) => RoomyForget(s, thread, limits, faults);
  }

  /**
    Threads, reservations and orphans never exceed the capacity by more than the number of
    times a thread was forgotten while a resume of it was pending.
   */
  lemma {:induction false} RunRoomy(s: State, events: seq<Event>, limits: Limits, faults: nat)
    requires Sound(s, limits) && Roomy(s, limits, faults)
    ensures Roomy(Run(s, events, limits), limits, faults + Faults(s, events, limits))
    decreases |events|
  {
    hide Sound, Step, Roomy, Fault;
    if events != [] {
      StepSound(s, events[0], limits);
      RoomyStep(s, events[0], limits, faults);
      RunRoomy(Step(s, events[0], limits), events[1..], limits, faults + if Fault(s, events[0]) then 1 else 0);
    }
  }

  lemma RoomForReply(s: State, limits: Limits, direction: Direction, reply: Reply, catalog: Catalog)
    requires Sound(s, limits) && Roomy(s, limits, 0)
    ensures var v := VerdictOf(s, direction, reply, limits, catalog); v.Throws? ==> v.error != ThreadCapacity
  {
    hide Key, ValidId, Quarantined, Steady, ReadString, ResponseThread, Reserving, Orphans, Release, BadFork;
    if Settles(s, direction, reply.id) {
      var key := Key(direction, reply.id.value);
      var p := s.pending[key];
      ReleaseRoomy(s, key);
      if p.reserves {
        ReservingCounts(s, key);
      } else if RouteOf(s.threads, p.resume).None? {
        OrphanedResume(s, key);
        SubsetSize({key}, Orphans(s));
      }
    }
  }

  /** The verdict where there is room, and where the table is full. */
  function WithoutRoom(s: State, w: Verdict, limits: Limits): Verdict {
    if w.Committed? && w.thread !in s.threads && |s.threads| == limits.maxThreads
    then Throws(ThreadCapacity, Some(w.thread)) else w
  }

  lemma SettledForRoom(s: State, route: Route, thread: Text, forkSource: Option<Route>, limits: Limits, larger: Limits)
    requires |s.threads| <= limits.maxThreads < larger.maxThreads
    ensures var w := Settled(s, route, thread, forkSource, larger);
            && Settled(s, route, thread, forkSource, limits) == WithoutRoom(s, w, limits)
            && !(w.Throws? && w.error == ThreadCapacity)
  {
  }

  lemma JudgedForRoom(s: State, p: Pending, reply: Reply, catalog: Catalog, limits: Limits, larger: Limits)
    requires |s.threads| <= limits.maxThreads < larger.maxThreads
    ensures var w := Judge(s, p, reply, larger, catalog);
            Judge(s, p, reply, limits, catalog) == WithoutRoom(s, w, limits)
              && !(w.Throws? && w.error == ThreadCapacity)
  {
    hide Settled, ResponseThread, BadFork;
    var thread := ResponseThread(reply, p.route, catalog);
    if thread.Some? {
      var source := if p.requiresForkIdentity then RouteOf(s.threads, ReadString(reply.forkedFrom)) else None;
      SettledForRoom(s, p.route, thread.value, source, limits, larger);
    }
  }

  /**
    Exactly when a response is refused for lack of room: the table is full, and with more room it
    would commit a thread that is not pinned.  Any other verdict does not depend on the room.
   */
  lemma RefusedForRoom(s: State, direction: Direction, reply: Reply, catalog: Catalog, limits: Limits, larger: Limits)
    requires Sound(s, limits) && limits.maxThreads < larger.maxThreads
    ensures var v := VerdictOf(s, direction, reply, limits, catalog);
            var w := VerdictOf(s, direction, reply, larger, catalog);
            && (v.Throws? && v.error == ThreadCapacity <==>
                  w.Committed? && w.thread !in s.threads && |s.threads| == limits.maxThreads)
            && v == WithoutRoom(s, w, limits)
  {
    hide Key, ValidId, Judge, Quarantined, Steady, Released;
    if Settles(s, direction, reply.id) {
      var key := Key(direction, reply.id.value);
      JudgedForRoom(Release(s, key), s.pending[key], reply, catalog, limits, larger);
    }
  }

  /** Without such a fault no response is ever refused for lack of room. */
  lemma ReservedRoom(events: seq<Event>, limits: Limits, direction: Direction, reply: Reply, catalog: Catalog)
    requires Faults(Empty(), events, limits) == 0
    ensures var s := Run(Empty(), events, limits);
            var v := VerdictOf(s, direction, reply, limits, catalog);
            |s.threads| + s.reservations <= limits.maxThreads && (v.Throws? ==> v.error != ThreadCapacity)
  {
    hide Run, VerdictOf, Faults, Quarantined, Steady;
    EmptySound(limits);
    assert Roomy(Empty(), limits, 0) by {
      assert Orphans(Empty()) == {} && |Empty().threads| == 0;
      EmptyReserving();
    }
    RunSound(Empty(), events, limits);
    RunRoomy(Empty(), events, limits, 0);
    RoomForReply(Run(Empty(), events, limits), limits, direction, reply, catalog);
  }

  lemma EmptyReserving()
    ensures Reserving(map[]) == {}
  {
  }

  lemma ReservingCounts(s: State, key: Text)
    requires key in s.pending && s.pending[key].reserves
    ensures 1 <= |Reserving(s.pending)|
  {
    SubsetSize({key}, Reserving(s.pending));
  }

  // ----- a forgotten thread can overbook the table -----

  function NativeRequest(id: int, via: Lifecycle, thread: Raw): Request {
    Request(ClientToServer, Number(id), via, Some(Params(thread, Missing, false, Missing, Missing, Missing, NoConfig,
                                                         true)),
            None)
  }

  function NativeReply(id: int, thread: Text): Reply {
    Reply(Some(Number(id)), false, String(thread), String([0x6D]), String([0x6F]), Missing, String([0x6F]), Missing)
  }

  const PLAIN := Route(Native, None, None, None, None)
  const STARTING := Pending(None, None, None, true, false, true, PLAIN)
  const A: Text := [0x41]
  const B: Text := [0x42]
  const RESUMING := Pending(None, Some(A), Some(A), false, false, false, PLAIN)

  lemma NativeStart(s: State, id: int, limits: Limits, catalog: Catalog)
    requires SafeInteger(id) && !s.compromised && Key(ClientToServer, Number(id)) !in s.pending
    requires |s.pending| < limits.maxPending && |s.threads| + s.reservations < limits.maxThreads
    ensures Step(s, Prepare(NativeRequest(id, Start, Missing), catalog), limits) ==
            Record(s, Key(ClientToServer, Number(id)), STARTING)
  {
    hide Key, SafeInteger, Record;
  }

  lemma NativeResume(s: State, id: int, limits: Limits, catalog: Catalog)
    requires SafeInteger(id) && !s.compromised && Key(ClientToServer, Number(id)) !in s.pending
    requires |s.pending| < limits.maxPending && s.blocked == {} && s.provisional == map[]
             && s.threads == map[A := PLAIN]
    ensures Step(s, Prepare(NativeRequest(id, Resume, String(A)), catalog), limits) ==
            Record(s, Key(ClientToServer, Number(id)), RESUMING)
  {
    hide Key, SafeInteger, Record;
  }

  lemma NativeVerdict(s: State, id: int, thread: Text, limits: Limits, catalog: Catalog)
    requires SafeInteger(id) && Key(ClientToServer, Number(id)) in s.pending && thread in [A, B]
    requires var p, r := s.pending[Key(ClientToServer, Number(id))], Release(s, Key(ClientToServer, Number(id)));
             && (p == STARTING || (p == RESUMING && thread == A))
             && r.blocked == {} && r.provisional == map[] && thread !in r.threads
    requires catalog.provider != [0x6F] && !catalog.reserved([0x6D])
    ensures VerdictOf(s, ClientToServer, NativeReply(id, thread), limits, catalog) ==
            if |s.threads| >= limits.maxThreads then Throws(ThreadCapacity, Some(thread)) else Committed(thread, PLAIN)
  {
    hide Key, SafeInteger;
  }

  lemma NativeCommit(s: State, r: State, id: int, thread: Text, limits: Limits, catalog: Catalog)
    requires SafeInteger(id) && Key(ClientToServer, Number(id)) in s.pending && thread in [A, B]
    requires s.pending[Key(ClientToServer, Number(id))] == STARTING ||
             (s.pending[Key(ClientToServer, Number(id))] == RESUMING && thread == A)
    requires r == Release(s, Key(ClientToServer, Number(id)))
    requires r.blocked == {} && r.provisional == map[] && thread !in r.threads && |s.threads| < limits.maxThreads
    requires catalog.provider != [0x6F] && !catalog.reserved([0x6D])
    ensures Step(s, Settle(ClientToServer, NativeReply(id, thread), catalog), limits) ==
            r.(threads := r.threads[thread := PLAIN])
  {
    hide Key, SafeInteger, Release, VerdictOf;
    NativeVerdict(s, id, thread, limits, catalog);
  }

  function Overbooking(catalog: Catalog): seq<Event> {
    [Prepare(NativeRequest(1, Start, Missing), catalog), Settle(ClientToServer, NativeReply(1, A), catalog),
     Prepare(NativeRequest(2, Resume, String(A)), catalog), Forget(A),
     Prepare(NativeRequest(3, Start, Missing), catalog), Settle(ClientToServer, NativeReply(2, A), catalog)]
  }

  function Middle(s: State, catalog: Catalog, limits: Limits): State {
    Step(Step(Step(s, Prepare(NativeRequest(1, Start, Missing), catalog), limits),
              Settle(ClientToServer, NativeReply(1, A), catalog), limits),
         Prepare(NativeRequest(2, Resume, String(A)), catalog), limits)
  }

  lemma OverbookingRun(catalog: Catalog, limits: Limits)
    ensures var middle := Middle(Empty(), catalog, limits);
            Run(Empty(), Overbooking(catalog), limits) ==
            Step(Step(Step(middle, Forget(A), limits), Prepare(NativeRequest(3, Start, Missing), catalog), limits),
                 Settle(ClientToServer, NativeReply(2, A), catalog), limits)
  {
    hide Step, NativeRequest, NativeReply;
    var e := Overbooking(catalog);
    RunSix(Empty(), e, limits);
  }

  lemma RunSix(s: State, e: seq<Event>, limits: Limits)
    requires |e| == 6
    ensures Run(s, e, limits) ==
            Step(Step(Step(Step(Step(Step(s, e[0], limits), e[1], limits), e[2], limits), e[3], limits), e[4],
                      limits), e[5], limits)
  {
    hide Step;
    var s1 := Step(s, e[0], limits);
    var s2 := Step(s1, e[1], limits);
    var s3 := Step(s2, e[2], limits);
    var s4 := Step(s3, e[3], limits);
    var s5 := Step(s4, e[4], limits);
    assert e[1..][1..] == e[2..] && e[2..][1..] == e[3..] && e[3..][1..] == e[4..] && e[4..][1..] == e[5..];
    assert Run(s5, e[5..], limits) == Run(Step(s5, e[5], limits), e[5..][1..], limits);
    assert Run(s4, e[4..], limits) == Run(s5, e[5..], limits);
    assert Run(s3, e[3..], limits) == Run(s4, e[4..], limits);
    assert Run(s2, e[2..], limits) == Run(s3, e[3..], limits);
    assert Run(s1, e[1..], limits) == Run(s2, e[2..], limits);
  }

  /**
    The condition is needed: with room for one thread, forgetting it while it is being
    resumed lets a start reserve the slot the resume takes back, and the start is refused.
   */
  lemma ForgettingOverbooks(catalog: Catalog)
    requires catalog.provider != [0x6F] && !catalog.reserved([0x6D])
    ensures var limits := Limits(2, 1);
            VerdictOf(Run(Empty(), Overbooking(catalog), limits), ClientToServer, NativeReply(3, B), limits, catalog)
            == Throws(ThreadCapacity, Some(B))
  {
    hide Key, Step, VerdictOf, Run, NativeReply, NativeRequest;
    var limits := Limits(2, 1);
    OverbookingRun(catalog, limits);
    OverbookingMiddle(catalog, limits);
    var k2, k3 := Key(ClientToServer, Number(2)), Key(ClientToServer, Number(3));
    if k2 == k3 {
      KeyInjective(ClientToServer, Number(2), ClientToServer, Number(3));
    }
    var s3 := Empty().(pending := map[k2 := RESUMING], provisional := map[A := 1], threads := map[A := PLAIN]);
    var s4 := s3.(threads := map[]);
    ForgetStep(s3, A, limits);
    NativeStart(s4, 3, limits, catalog);
    var s5 := s4.(pending := map[k2 := RESUMING, k3 := STARTING], reservations := 1);
    assert Record(s4, k3, STARTING) == s5;
    var r5 := Empty().(pending := map[k3 := STARTING], reservations := 1);
    assert Release(s5, k2) == r5;
    NativeCommit(s5, r5, 2, A, limits, catalog);
    var s6 := r5.(threads := map[A := PLAIN]);
    assert Release(s6, k3) == Empty().(threads := map[A := PLAIN]);
    NativeVerdict(s6, 3, B, limits, catalog);
  }

  lemma ForgetStep(s: State, thread: Text, limits: Limits)
    ensures Step(s, Forget(thread), limits) == s.(threads := s.threads - {thread})
  {
  }

  lemma OverbookingMiddle(catalog: Catalog, limits: Limits)
    requires limits == Limits(2, 1) && catalog.provider != [0x6F] && !catalog.reserved([0x6D])
    ensures Middle(Empty(), catalog, limits) ==
            Empty().(pending := map[Key(ClientToServer, Number(2)) := RESUMING], provisional := map[A := 1],
                     threads := map[A := PLAIN])
  {
    hide Key, Step, NativeReply, NativeRequest;
    var k1 := Key(ClientToServer, Number(1));
    NativeStart(Empty(), 1, limits, catalog);
    var s1 := Empty().(pending := map[k1 := STARTING], reservations := 1);
    assert Record(Empty(), k1, STARTING) == s1 && Release(s1, k1) == Empty();
    NativeCommit(s1, Empty(), 1, A, limits, catalog);
    NativeResume(Empty().(threads := map[A := PLAIN]), 2, limits, catalog);
  }

  /** A blocked thread that is not pinned never will be. */
  lemma {:induction false} BlockedNeverPinned(s: State, events: seq<Event>, limits: Limits, thread: Text)
    requires Sound(s, limits) && thread in s.blocked && thread !in s.threads
    ensures thread in Run(s, events, limits).blocked && thread !in Run(s, events, limits).threads
    decreases |events|
  {
    if events != [] {
      hide Sound, Step;
      BlockedStep(s, events[0], limits, thread);
      StepSound(s, events[0], limits);
      BlockedNeverPinned(Step(s, events[0], limits), events[1..], limits, thread);
    }
  }

  lemma BlockedStep(s: State, e: Event, limits: Limits, thread: Text)
    requires Sound(s, limits) && thread in s.blocked && thread !in s.threads
    ensures thread in Step(s, e, limits).blocked && thread !in Step(s, e, limits).threads
  {
    hide Admit, Judge, Key, ValidId, Sound, Quarantine, Released;
    SoundBounds(s, limits);
    if e.Settle? && Settles(s, e.direction, e.reply.id) {
      var key := Key(e.direction, e.reply.id.value);
      if Judge(Release(s, key), s.pending[key], e.reply, limits, e.catalog).Committed? {
        CommittedForm(Release(s, key), s.pending[key], e.reply, limits, e.catalog);
      }
    }
  }
}
