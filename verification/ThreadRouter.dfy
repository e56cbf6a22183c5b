/** The router object: each method is one step of `ThreadRouting`. */
module ThreadRouter {
  import opened Results
  import opened Utf16
  import opened ThreadRoute
  import opened ThreadRouting
  import opened ThreadBound

  /** What `prepareThreadLifecycle` returns: the parameters to send on, the key and the kind of route. */
  datatype Prepared = Prepared(params: Option<Params>, key: Text, kind: Kind)

  function PreparedOf(request: Request, p: Pending, catalog: Catalog): Prepared {
    Prepared(if p.route.kind.Web? then Inject(request.params, p.route, catalog) else request.params,
             Key(request.direction, request.id), p.route.kind)
  }

  class ThreadRouter {
    const limits: Limits
    var blocked: set<Text>
    var pending: map<Text, Pending>
    var provisional: map<Text, nat>
    var threads: map<Text, Route>
    var reservations: int
    var compromised: bool

    ghost function Now(): State
      reads this
    {
      State(blocked, pending, provisional, threads, reservations, compromised)
    }

    ghost predicate Valid()
      reads this
    {
      Sound(Now(), limits)
    }

    constructor (limits: Limits)
      requires 1 <= limits.maxPending && 1 <= limits.maxThreads
      ensures Valid() && Now() == Empty() && this.limits == limits
    {
      this.limits := limits;
      blocked, pending, provisional, threads, reservations, compromised := {}, map[], map[], map[], 0, false;
      new;
      EmptySound(limits);
    }

    /** `#assertThreadAvailable`. */
    method AssertAvailable(thread: Option<Text>) returns (r: Outcome<RoutingError>)
      ensures r == Availability(Now(), thread)
    {
      if thread.Some? && thread.value in blocked {
        return Fail(ThreadRouteBlocked);
      }
      if thread.Some? && thread.value in provisional {
        return Fail(ThreadRoutePending);
      }
      return Pass;
    }

    /** A request bound to a thread changes nothing here. */
    method ValidateThreadBound(params: BoundParams, catalog: Catalog) returns (r: Result<BoundParams, RoutingError>)
      ensures r == ValidateBound(Now(), params, catalog)
    {
      hide Bind, SelectedProvider;
      if compromised {
        return Err(ThreadRouteBlocked);
      }
      if DefinesProvider(Some(Common(params))) {
        return Err(InvalidParams);
      }
      var thread := ReadString(params.threadId);
      var available := AssertAvailable(thread);
      if available.Fail? {
        return Err(available.error);
      }
      var pinned := if thread.Some? && thread.value in threads then Some(threads[thread.value]) else None;
      r := Bind(params, pinned, catalog);
    }

    method PrepareThreadLifecycle(request: Request, catalog: Catalog) returns (r: Result<Prepared, RoutingError>)
      requires Valid()
      modifies this
      ensures Valid() && Now() == Step(old(Now()), Prepare(request, catalog), limits)
      ensures match Admit(old(Now()), request, limits, catalog)
              case Ok(p) => r == Ok(PreparedOf(request, p, catalog))
              case Err(e) => r == Err(e)
    {
      hide Sound, Decide, Overrides, AdmitRoute, Record, DefinesProvider, Key, ValidId;
      StepSound(Now(), Prepare(request, catalog), limits);
      if compromised {
        return Err(ThreadRouteBlocked);
      }
      if !ValidId(request.id) {
        return Err(InvalidParams);
      }
      var key := Key(request.direction, request.id);
      if key in pending {
        return Err(RequestIdConflict);
      }
      if |pending| >= limits.maxPending {
        return Err(PendingCapacity);
      }
      if DefinesProvider(request.params) {
        return Err(InvalidParams);
      }
      var source := SourceThread(request.params);
      if request.via != Start && source.None? {
        return Err(InvalidParams);
      }
      var sourceRoute := RouteOf(threads, source);
      var overrides := Overrides(request.via, request.params);
      var web := sourceRoute.Some? && sourceRoute.value.kind.Web?;
      if !overrides || web {
        var available := AssertAvailable(source);
        if available.Fail? {
          return Err(available.error);
        }
      }
      var decided := Decide(request.via, request.params, if overrides && !web then None else sourceRoute,
                            request.revision, catalog);
      if decided.Err? {
        return Err(decided.error);
      }
      r := RecordDecision(request, key, source, sourceRoute, decided.value, catalog);
    }

    /** The end of `prepareThreadLifecycle`: the slot, the parameters to send on, and the pending decision. */
    method RecordDecision(request: Request, key: Text, source: Option<Text>, sourceRoute: Option<Route>, route: Route,
                          catalog: Catalog) returns (r: Result<Prepared, RoutingError>)
      requires key == Key(request.direction, request.id)
      modifies this`pending, this`provisional, this`reservations
      ensures match AdmitRoute(old(Now()), request, source, sourceRoute, route, limits, catalog)
              case Ok(p) => r == Ok(PreparedOf(request, p, catalog)) && Now() == Record(old(Now()), key, p)
              case Err(e) => r == Err(e) && Now() == old(Now())
    {
      hide Overrides, SupportedForWeb, Inject, Key, Quarantine;
      if route.kind.Web? && !SupportedForWeb(request.via, request.params) {
        return Err(InvalidParams);
      }
      var effective := if Overrides(request.via, request.params) && route.kind.Native? then None else source;
      var reserves := request.via != Resume || effective.None? || sourceRoute.None?;
      if reserves && |threads| + reservations >= limits.maxThreads {
        return Err(ThreadCapacity);
      }
      var params := request.params;
      if route.kind.Web? {
        params := Inject(request.params, route, catalog);
        if params.None? {
          return Err(InvalidParams);
        }
      }
      var quarantined := if request.via != Start then effective else None;
      pending := pending[key := Pending(if request.via == Fork then effective else None,
                                        if request.via == Resume then effective else None,
                                        quarantined, request.via != Resume, request.via == Fork, reserves, route)];
      QuarantineThread(quarantined);
      if reserves {
        reservations := reservations + 1;
      }
      return Ok(Prepared(params, key, route.kind));
    }

    method SettleThreadLifecycle(direction: Direction, reply: Reply, catalog: Catalog) returns (v: Verdict)
      requires Valid()
      modifies this
      ensures Valid() && Now() == Step(old(Now()), Settle(direction, reply, catalog), limits)
      ensures v == VerdictOf(old(Now()), direction, reply, limits, catalog)
    {
      hide Sound, ResponseThread, ReadString, BadFork, Key, ValidId, Release, Settled, Block;
      StepSound(Now(), Settle(direction, reply, catalog), limits);
      if reply.id.None? {
        return Unknown;
      }
      if !ValidId(reply.id.value) {
        return if reply.id.value.Name? then Throws(InvalidParams, None) else Unknown;
      }
      var key := Key(direction, reply.id.value);
      if key !in pending {
        return Unknown;
      }
      var p := pending[key];
      ReleasePending(key);
      BlockNothing(Now(), limits);
      if reply.failed {
        return Failed;
      }
      var thread := ResponseThread(reply, p.route, catalog);
      var forkedFrom := ReadString(reply.forkedFrom);
      if || thread.None? || (p.resume.Some? && thread != p.resume) || BadFork(p, thread, forkedFrom)
         || (p.requiresNew && thread.value in threads)
      {
        v := Invalid(ReadString(reply.threadId));
        BlockThread(v.block);
        return;
      }
      var available := AssertAvailable(thread);
      if available.Fail? {
        return Throws(available.error, None);
      }
      if p.requiresForkIdentity {
        available := AssertAvailable(forkedFrom);
        if available.Fail? {
          return Throws(available.error, None);
        }
      }
      v := Commit(p.route, thread.value, if p.requiresForkIdentity then RouteOf(threads, forkedFrom) else None);
    }

    /** The end of a settlement: the route to commit, compared with the thread's own and with the fork's source. */
    method Commit(route: Route, thread: Text, forkSource: Option<Route>) returns (v: Verdict)
      modifies this`threads, this`blocked, this`compromised
      ensures v == Settled(old(Now()), route, thread, forkSource, limits) && Now() == Apply(old(Now()), v, limits)
    {
      var existing := RouteOf(threads, Some(thread));
      if route.kind.Native? && forkSource.Some? && forkSource.value.kind.Web? {
        BlockThread(Some(thread));
        return Invalid(Some(thread));
      }
      var committed := if route.kind.Native? && existing.Some? && existing.value.kind.Native? then existing.value
                       else if route.kind.Native? && forkSource.Some? then forkSource.value
                       else route;
      if existing.Some? && existing.value != committed {
        BlockThread(Some(thread));
        return Throws(RouteConflict, Some(thread));
      }
      if existing.None? && |threads| >= limits.maxThreads {
        BlockThread(Some(thread));
        return Throws(ThreadCapacity, Some(thread));
      }
      threads := threads[thread := committed];
      return Committed(thread, committed);
    }

    method DiscardPending(direction: Direction, id: RequestId) returns (r: Result<bool, RoutingError>)
      requires Valid()
      modifies this
      ensures Valid() && Now() == Step(old(Now()), Discard(direction, id), limits)
      ensures r == if !ValidId(id) then Err(InvalidParams) else Ok(Settles(old(Now()), direction, Some(id)))
    {
      hide Sound, Key, ValidId, Released;
      StepSound(Now(), Discard(direction, id), limits);
      if !ValidId(id) {
        return Err(InvalidParams);
      }
      var key := Key(direction, id);
      if key !in pending {
        return Ok(false);
      }
      ReleasePending(key);
      return Ok(true);
    }

    method ClearPending() returns (count: nat)
      requires Valid()
      modifies this
      ensures Valid() && Now() == Step(old(Now()), Clear, limits) && count == |old(pending)|
    {
      hide Sound;
      StepSound(Now(), Clear, limits);
      count := |pending|;
      pending, provisional, reservations := map[], map[], 0;
    }

    method ForgetThread(thread: Text) returns (known: bool)
      requires Valid()
      modifies this
      ensures Valid() && Now() == Step(old(Now()), Forget(thread), limits) && known == (thread in old(threads))
    {
      hide Sound;
      StepSound(Now(), Forget(thread), limits);
      known := thread in threads;
      threads := threads - {thread};
    }

    method ReleasePending(key: Text)
      requires key in pending
      modifies this`pending, this`provisional, this`reservations
      ensures Now() == Release(old(Now()), key)
    {
      var p := pending[key];
      pending := pending - {key};
      ReleaseThreadQuarantine(p.quarantined);
      if p.reserves {
        reservations := reservations - 1;
      }
    }

    method BlockThread(thread: Option<Text>)
      modifies this`blocked, this`compromised
      ensures Now() == Block(old(Now()), thread, limits)
    {
      if thread.None? || thread.value in blocked {
        return;
      }
      if |blocked| >= limits.maxThreads {
        compromised := true;
        return;
      }
      blocked := blocked + {thread.value};
    }

    method QuarantineThread(thread: Option<Text>)
      modifies this`provisional
      ensures provisional == Quarantine(old(provisional), thread)
    {
      if thread.Some? {
        var count := if thread.value in provisional then provisional[thread.value] else 0;
        provisional := provisional[thread.value := count + 1];
      }
    }

    method ReleaseThreadQuarantine(thread: Option<Text>)
      modifies this`provisional
      ensures provisional == Released(old(provisional), thread)
    {
      if thread.None? {
        return;
      }
      if thread.value !in provisional || provisional[thread.value] <= 1 {
        provisional := provisional - {thread.value};
        return;
      }
      provisional := provisional[thread.value := provisional[thread.value] - 1];
    }
  }
}
