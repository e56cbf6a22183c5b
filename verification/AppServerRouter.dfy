/**
  The request facade: a table of the client's requests over the thread router, kept in step
  with the router's own pending table.
 */
module AppServerRouter {
  import opened Results
  import opened Utf16
  import opened ThreadRoute
  import opened ThreadRouting
  import opened ThreadRouter

  datatype Owned = Initialize | ModelList | Passthrough | Lifecycle

  datatype FacadeError = Conflict | Capacity | Routing(error: RoutingError) | Unsendable | Local

  /** What the facade does with a message: send it on (with these parameters), answer it, or fail. */
  datatype Dispatch = Forward | ForwardParams(params: Option<Params>) | Answer(error: FacadeError) | Broken

  /**
    The client's request table and the router's agree: the lifecycle requests owned here
    are exactly the requests pending there.
   */
  ghost predicate Agree(owned: map<Text, Owned>, pending: map<Text, Pending>) {
    forall k :: k in pending <==> k in owned && owned[k] == Lifecycle
  }

  class AppServerRouter {
    const maxOwned: nat
    const router: ThreadRouter
    var owned: map<Text, Owned>

    ghost predicate Valid()
      reads this, router
    {
      router.Valid() && Agree(owned, router.pending) && |owned| <= maxOwned
    }

    constructor (maxOwned: nat, router: ThreadRouter)
      requires 1 <= maxOwned && router.Valid() && router.pending == map[]
      ensures Valid() && this.router == router && this.maxOwned == maxOwned && owned == map[]
    {
      this.maxOwned, this.router, owned := maxOwned, router, map[];
    }

    method ReserveOwned(key: Text, kind: Owned) returns (r: Outcome<FacadeError>)
      requires |owned| <= maxOwned
      modifies this`owned
      ensures r == if key in old(owned) then Fail(Conflict) else if |old(owned)| >= maxOwned then Fail(Capacity)
              else Pass
      ensures owned == (if r.Pass? then old(owned)[key := kind] else old(owned)) && |owned| <= maxOwned
    {
      if key in owned {
        return Fail(Conflict);
      }
      if |owned| >= maxOwned {
        return Fail(Capacity);
      }
      assert (owned[key := kind]).Keys == owned.Keys + {key};
      assert |owned[key := kind]| == |(owned[key := kind]).Keys| && |owned| == |owned.Keys|;
      owned := owned[key := kind];
      return Pass;
    }

    method DropOwned(key: Text)
      requires |owned| <= maxOwned
      modifies this`owned
      ensures owned == old(owned) - {key} && |owned| <= maxOwned
    {
      assert (owned - {key}).Keys == owned.Keys - {key};
      assert |owned - {key}| == |(owned - {key}).Keys| && |owned| == |owned.Keys|;
      owned := owned - {key};
    }

    /**
      A lifecycle request of the client; `sendable` is whether the rewritten request fits its
      schema.  A refused request changes neither table, so it discards nobody else's.
     */
    method HandleLifecycle(request: Request, catalog: Catalog, sendable: bool) returns (d: Dispatch)
      requires Valid() && request.direction == ClientToServer
      modifies this`owned, router
      ensures Valid()
      ensures router.threads == old(router.threads) && router.blocked == old(router.blocked)
      ensures d.Answer? ==> owned == old(owned) && router.pending == old(router.pending)
      ensures d.ForwardParams? <==>
              && sendable && ValidId(request.id) && Key(ClientToServer, request.id) !in old(owned)
              && |old(owned)| < maxOwned && Admit(old(router.Now()), request, router.limits, catalog).Ok?
      ensures d.ForwardParams? ==>
              var p := Admit(old(router.Now()), request, router.limits, catalog).value;
              && d.params == PreparedOf(request, p, catalog).params
              && owned == old(owned)[Key(ClientToServer, request.id) := Lifecycle]
              && router.pending == old(router.pending)[Key(ClientToServer, request.id) := p]
    {
      hide Admit, Sound, Key, ValidId, Step, Inject;
      ghost var before := router.Now();
      if !ValidId(request.id) {
        return Answer(Routing(InvalidParams));
      }
      var key := Key(ClientToServer, request.id);
      if key in owned {
        return Answer(Conflict);
      }
      PrepareThenDiscard(before, request, catalog, router.limits);
      var prepared := router.PrepareThreadLifecycle(request, catalog);
      var error: FacadeError;
      if prepared.Ok? {
        var reserved := ReserveOwned(key, Lifecycle);
        if reserved.Pass? && sendable {
          return ForwardParams(prepared.value.params);
        }
        error := if reserved.Fail? then reserved.error else Unsendable;
      } else {
        error := Routing(prepared.error);
      }
      DropOwned(key);
      var _ := router.DiscardPending(ClientToServer, request.id);
      assert owned == old(owned);
      return Answer(error);
    }

    /**
      Any other request of the client: `admitted` unless its own checks refuse it or, for a
      model list, it is answered here; `sendable` is whether a request sent on with other
      parameters still fits its schema.  A model list is sent on as it came, or with another
      cursor, a string in place of one, so that it fits as it did on arrival.
     */
    method HandleRequest(id: RequestId, kind: Owned, admitted: bool, sendable: bool) returns (d: Dispatch)
      requires Valid() && kind != Lifecycle
      modifies this`owned
      ensures Valid()
      ensures d.Forward? <==>
              && ValidId(id) && Key(ClientToServer, id) !in old(owned) && admitted && |old(owned)| < maxOwned
              && (kind == Passthrough ==> sendable)
      ensures d.Forward? || d.Answer?
      ensures owned == if d.Forward? then old(owned)[Key(ClientToServer, id) := kind] else old(owned)
    {
      hide Sound, Key, ValidId;
      if !ValidId(id) {
        return Answer(Routing(InvalidParams));
      }
      var key := Key(ClientToServer, id);
      if key in owned {
        return Answer(Conflict);
      }
      if !admitted {
        return Answer(Local);
      }
      var reserved := ReserveOwned(key, kind);
      if reserved.Fail? {
        return Answer(reserved.error);
      }
      if kind == Passthrough && !sendable {
        DropOwned(key);
        assert owned == old(owned);
        return Answer(Unsendable);
      }
      return Forward;
    }

    /** A response of the server: the owner is released, and a lifecycle request settles. */
    method HandleResponse(reply: Reply, catalog: Catalog) returns (d: Dispatch)
      requires Valid() && reply.id.Some?
      modifies this`owned, router
      ensures Valid()
      ensures var key := Key(ClientToServer, reply.id.value);
              if !ValidId(reply.id.value) || key !in old(owned) then
                owned == old(owned) && unchanged(router) && d == Forward
              else
                && owned == old(owned) - {key}
                && (old(owned)[key] != Lifecycle ==> unchanged(router) && d == Forward)
                && (old(owned)[key] == Lifecycle ==>
                      && router.Now() == Step(old(router.Now()), Settle(ClientToServer, reply, catalog), router.limits)
                      && key !in router.pending
                      && var v := VerdictOf(old(router.Now()), ClientToServer, reply, router.limits, catalog);
                         d == if v.Committed? || v.Failed? then Forward else Broken)
    {
      hide Sound, Key, ValidId, Judge, Released;
      if !ValidId(reply.id.value) {
        return Forward;
      }
      var key := Key(ClientToServer, reply.id.value);
      if key !in owned {
        return Forward;
      }
      var kind := owned[key];
      DropOwned(key);
      if kind != Lifecycle {
        return Forward;
      }
      var v := router.SettleThreadLifecycle(ClientToServer, reply, catalog);
      assert router.pending == old(router.pending) - {key} by {
        SettleReleases(old(router.Now()), ClientToServer, reply, catalog, router.limits);
      }
      return if v.Committed? || v.Failed? then Forward else Broken;
    }

    method ClearPending()
      requires Valid()
      modifies this`owned, router
      ensures Valid() && owned == map[] && router.pending == map[]
    {
      hide Sound;
      owned := map[];
      var _ := router.ClearPending();
    }
  }

  /** Preparing adds one pending request and nothing else that shows; discarding it takes it away again. */
  lemma PrepareThenDiscard(s: State, request: Request, catalog: Catalog, limits: Limits)
    requires Key(request.direction, request.id) !in s.pending
    ensures var n := Step(s, Prepare(request, catalog), limits);
            var d := Step(n, Discard(request.direction, request.id), limits);
            && n.threads == d.threads == s.threads && n.blocked == d.blocked == s.blocked && d.pending == s.pending
            && n.pending == match Admit(s, request, limits, catalog)
                            case Ok(p) => s.pending[Key(request.direction, request.id) := p]
                            case Err(_) => s.pending
  {
    hide Admit, Key, ValidId, Quarantine, Released;
    if Admit(s, request, limits, catalog).Ok? {
      var p := Admit(s, request, limits, catalog).value;
      assert ValidId(request.id) by {
        AdmitsValid(s, request, catalog, limits);
      }
      assert s.pending[Key(request.direction, request.id) := p] - {Key(request.direction, request.id)} == s.pending;
    }
  }

  lemma AdmitsValid(s: State, request: Request, catalog: Catalog, limits: Limits)
    requires Admit(s, request, limits, catalog).Ok?
    ensures ValidId(request.id)
  {
    hide ValidId, AdmitRoute, Decide;
  }

  lemma SettleReleases(s: State, direction: Direction, reply: Reply, catalog: Catalog, limits: Limits)
    requires Settles(s, direction, reply.id)
    ensures Step(s, Settle(direction, reply, catalog), limits).pending == s.pending - {Key(direction, reply.id.value)}
  {
    hide Key, ValidId, Judge;
  }
}
