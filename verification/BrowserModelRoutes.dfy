/**
  The models published from the coordinator's current snapshot, and the resolution of a route
  token.  `token` stands for the digest of a route, `key` for the shortened digest shown to
  clients: the first is assumed injective, of the second nothing is known.
 */
module BrowserModelRoutes {
  import opened Results
  import opened Utf16
  import BrowserSession
  import BrowserSessionFrames

  datatype Profile = TextV1 | AgentV2
  datatype Route = Route(session: Text, generation: nat, revision: Text, model: Text, profile: Profile)

  /** A model as the browser lists it. */
  datatype Listed = Listed(id: Text, effort: Text)

  /** The coordinator's snapshot: its capabilities in the three flags and the models. */
  datatype Source = Source(
    session: Text, generation: nat, revision: Text, models: seq<Listed>, discovers: bool, streams: bool, cancels: bool)

  datatype Published = Published(route: Route, effort: Text, publicModel: Text, providerModel: Text)

  /** What a token resolves to; two models that cannot be told apart make every lookup fail. */
  datatype Resolution = Unknown | Collision | Resolved(route: Route, effort: Text)

  type Naming = Route -> Text

  ghost predicate Injective(token: Naming) {
    forall r, s :: token(r) == token(s) ==> r == s
  }

  function RouteOf(source: Source, profile: Profile, model: Text): Route {
    Route(source.session, source.generation, source.revision, model, profile)
  }

  function Publication(source: Source, profile: Profile, model: Listed, token: Naming, key: Naming): Published {
    var route := RouteOf(source, profile, model.id);
    Published(route, model.effort, key(route), token(route))
  }

  predicate Offers(source: Option<Source>) {
    source.Some? && source.value.discovers && source.value.streams && source.value.cancels
  }

  /** The models of a snapshot as published, in their order. */
  function Publications(source: Source, profile: Profile, token: Naming, key: Naming): (p: seq<Published>)
    ensures |p| == |source.models|
  {
    seq(|source.models|, i requires 0 <= i < |source.models| => Publication(source, profile, source.models[i], token,
                                                                            key))
  }

  ghost predicate Distinct(p: seq<Published>) {
    forall i, j :: 0 <= i < j < |p| ==> p[i].publicModel != p[j].publicModel && p[i].providerModel != p[j].providerModel
  }

  function PublicModels(p: seq<Published>): set<Text> {
    set i | 0 <= i < |p| :: p[i].publicModel
  }

  function RouteTokens(p: seq<Published>): set<Text> {
    set i | 0 <= i < |p| :: p[i].providerModel
  }

  lemma OneMore(p: seq<Published>, next: Published)
    ensures PublicModels(p + [next]) == PublicModels(p) + {next.publicModel}
    ensures RouteTokens(p + [next]) == RouteTokens(p) + {next.providerModel}
  {
    var q := p + [next];
    assert q[|p|] == next && forall i :: 0 <= i < |p| ==> q[i] == p[i];
  }

  lemma OneMoreDistinct(p: seq<Published>, next: Published)
    ensures Distinct(p + [next]) <==>
            Distinct(p) && next.publicModel !in PublicModels(p) && next.providerModel !in RouteTokens(p)
  {
    var q := p + [next];
    assert q[|p|] == next && forall i :: 0 <= i < |p| ==> q[i] == p[i];
    if next.publicModel in PublicModels(p) || next.providerModel in RouteTokens(p) {
      var i :| 0 <= i < |p| && (p[i].publicModel == next.publicModel || p[i].providerModel == next.providerModel);
      assert q[i] == p[i];
    }
  }

  lemma FirstDistinct(p: seq<Published>, n: nat)
    requires n <= |p| && Distinct(p)
    ensures Distinct(p[..n])
  {
  }

  /** `#readPublished`: `None` where the source throws. */
  method ReadPublished(source: Option<Source>, active: bool, token: Naming, key: Naming)
    returns (published: Option<seq<Published>>)
    ensures published ==
              if !Offers(source) then Some([])
              else
                var all := Publications(source.value, if active then AgentV2 else TextV1, token, key);
                if Distinct(all) then Some(all) else None
  {
    hide Distinct, PublicModels, RouteTokens;
    if source.None? || !source.value.discovers || !source.value.streams || !source.value.cancels {
      return Some([]);
    }
    var profile := if active then AgentV2 else TextV1;
    ghost var all := Publications(source.value, profile, token, key);
    var models: seq<Published> := [];
    var publicModels: set<Text> := {};
    var routeTokens: set<Text> := {};
    NothingPublished();
    for n := 0 to |source.value.models|
      invariant models == all[..n] && Distinct(models)
      invariant publicModels == PublicModels(models) && routeTokens == RouteTokens(models)
    {
      var next := Publication(source.value, profile, source.value.models[n], token, key);
      assert all[..n + 1] == models + [next];
      OneMoreDistinct(models, next);
      if next.publicModel in publicModels || next.providerModel in routeTokens {
        if Distinct(all) {
          FirstDistinct(all, n + 1);
        }
        return None;
      }
      OneMore(models, next);
      publicModels := publicModels + {next.publicModel};
      routeTokens := routeTokens + {next.providerModel};
      models := models + [next];
    }
    assert all[..|all|] == all;
    published := Some(models);
  }

  lemma NothingPublished()
    ensures Distinct([]) && PublicModels([]) == {} && RouteTokens([]) == {}
  {
  }

  /** What a lookup means, without the publication: the token names a model of the current snapshot. */
  ghost predicate Names(source: Option<Source>, active: bool, value: Text, i: nat, token: Naming) {
    && Offers(source) && i < |source.value.models|
    && value == token(RouteOf(source.value, if active then AgentV2 else TextV1, source.value.models[i].id))
  }

  /** `resolveModelRoute`, for a value that has the form of a token. */
  method ResolveModelRoute(source: Option<Source>, active: bool, value: Text, token: Naming, key: Naming)
    returns (found: Resolution)
    ensures var profile := if active then AgentV2 else TextV1;
            && (found.Collision? <==> Offers(source) && !Distinct(Publications(source.value, profile, token, key)))
            && (found.Unknown? ==> forall i: nat :: !Names(source, active, value, i, token))
            && (found.Resolved? ==>
                  exists i: nat :: Names(source, active, value, i, token) &&
                    found == Resolved(RouteOf(source.value, profile, source.value.models[i].id),
                                      source.value.models[i].effort))
  {
    var published := ReadPublished(source, active, token, key);
    if published.None? {
      return Collision;
    }
    for n := 0 to |published.value|
      invariant forall i: nat :: i < n ==> !Names(source, active, value, i, token)
    {
      var model := published.value[n];
      if model.providerModel == value {
        assert Names(source, active, value, n, token);
        return Resolved(model.route, model.effort);
      }
    }
    found := Unknown;
  }

  /** Models are told apart if and only if no two have one identifier or one public key. */
  lemma DistinctModels(source: Source, profile: Profile, token: Naming, key: Naming)
    requires Injective(token)
    ensures Distinct(Publications(source, profile, token, key)) <==>
            forall i, j :: 0 <= i < j < |source.models| ==>
              source.models[i].id != source.models[j].id &&
              key(RouteOf(source, profile, source.models[i].id)) != key(RouteOf(source, profile, source.models[j].id))
  {
    var models := source.models;
    var all := Publications(source, profile, token, key);
    forall i, j | 0 <= i < j < |models|
      ensures all[i].publicModel == all[j].publicModel <==>
              key(RouteOf(source, profile, models[i].id)) == key(RouteOf(source, profile, models[j].id))
      ensures all[i].providerModel == all[j].providerModel <==> models[i].id == models[j].id
    {
      var a, b := RouteOf(source, profile, models[i].id), RouteOf(source, profile, models[j].id);
      assert token(a) == token(b) ==> a == b;
    }
  }

  /** A route's own token names nothing but that route: same session, generation, revision and profile. */
  lemma TokenNamesItsRoute(route: Route, source: Option<Source>, active: bool, i: nat, token: Naming)
    requires Injective(token) && Names(source, active, token(route), i, token)
    ensures route == RouteOf(source.value, if active then AgentV2 else TextV1, source.value.models[i].id)
  {
    var other := RouteOf(source.value, if active then AgentV2 else TextV1, source.value.models[i].id);
    assert token(route) == token(other) ==> route == other;
  }

  /** The source that publishes an installed snapshot. */
  predicate Publishes(source: Source, installed: BrowserSession.Installed) {
    && source.session == installed.snapshot.session && source.generation == installed.snapshot.generation
    && source.revision == installed.snapshot.revision
  }

  /**
    In every run of the coordinator: a token published from the i-th snapshot resolves against
    the j-th only if they are the same, and then to its own route; and a turn asked for by that
    route is current only if the snapshot is the last one installed.
   */
  lemma TokensDieWithTheirSnapshot(
      events: seq<BrowserSession.Event>, limits: BrowserSession.Limits, i: nat, j: nat, route: Route, source: Source,
      active: bool, k: nat, token: Naming)
    requires 1 <= limits.maxPending && Injective(token)
    requires var s := BrowserSession.Run(BrowserSession.Begin(), events, limits);
             && i < |s.installed| && j < |s.installed| && Publishes(source, s.installed[j])
             && route.generation == s.installed[i].snapshot.generation
             && Names(Some(source), active, token(route), k, token)
    ensures i == j && route.session == source.session && route.revision == source.revision
    ensures var s := BrowserSession.Run(BrowserSession.Begin(), events, limits);
            BrowserSession.Current(s, BrowserSession.TurnRequest(route.session, route.generation, route.revision)) ==>
              j == |s.installed| - 1
  {
    hide BrowserSession.Run, BrowserSession.Current;
    TokenNamesItsRoute(route, Some(source), active, k, token);
    var wanted := BrowserSession.TurnRequest(route.session, route.generation, route.revision);
    BrowserSessionFrames.RoutesAreCurrent(events, limits, wanted, i, j);
  }
}
