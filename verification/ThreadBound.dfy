/**
  Requests bound to a thread, such as the start of a turn: what they may name, and what is
  sent on in place of what they name.
 */
module ThreadBound {
  import opened Results
  import opened Utf16
  import opened ThreadRoute
  import opened ThreadRouting

  /** `collaborationMode`: absent, not a record with settings, or the settings' model and effort. */
  datatype Mode = NoMode | BadMode | Settings(model: Raw, effort: Raw)

  datatype BoundParams = BoundParams(
    threadId: Raw, model: Raw, modelProvider: Raw, effort: Raw, config: ConfigField, mode: Mode, cloneable: bool)

  datatype Collaboration = Collaboration(model: Option<Text>, effort: Option<Text>, raw: Raw)

  /** `readCollaborationSelection`. */
  function ReadMode(mode: Mode): Result<Collaboration, RoutingError> {
    match mode
    case NoMode => Ok(Collaboration(None, None, Missing))
    case BadMode => Err(InvalidParams)
    case Settings(model, effort) =>
      if ReadRouting(effort).Err? then Err(InvalidParams)
      else if ReadRouting(model).Err? then Err(InvalidParams)
      else Ok(Collaboration(ReadRouting(model).value, ReadRouting(effort).value, model))
  }

  /** The part of the parameters that provider definitions and the provider's name are read from. */
  function Common(p: BoundParams): Params {
    Params(p.threadId, Missing, false, p.model, p.modelProvider, p.effort, p.config, p.cloneable)
  }

  /** `assertAvailableWebReference`: a name in the bridge's name space must be on offer, or be the thread's own. */
  predicate Unavailable(raw: Raw, selected: Option<VirtualModel>, permitted: Option<Text>, catalog: Catalog) {
    selected.None? && raw.String? && Some(raw.text) != permitted && catalog.reserved(raw.text)
  }

  function Permitted(pinned: Option<Route>): Option<Text> {
    if pinned.Some? && pinned.value.kind.Web? then pinned.value.providerModel else None
  }

  /** The rewritten request of a web thread. */
  function Pin(p: BoundParams, pinned: Route): BoundParams
    requires pinned.providerModel.Some?
  {
    var model := String(pinned.providerModel.value);
    p.(model := model,
       effort := if pinned.effort.Some? then String(pinned.effort.value) else p.effort,
       mode := match p.mode
               case Settings(_, effort) =>
                 Settings(model, if pinned.effort.Some? then String(pinned.effort.value) else effort)
               case other => other)
  }

  /** The checks of a request to a web thread. */
  function WebVerdict(p: BoundParams, c: Collaboration, provider: Option<Text>, pinned: Route, catalog: Catalog):
    Outcome<RoutingError>
  {
    var model := ReadString(p.model);
    if provider.Some? && provider != Some(catalog.provider) then Fail(ProviderSwitch)
    else if PinnedSelection(model, Selected(model, catalog), pinned).Fail?
    then PinnedSelection(model, Selected(model, catalog), pinned)
    else if PinnedSelection(c.model, Selected(c.model, catalog), pinned).Fail?
    then PinnedSelection(c.model, Selected(c.model, catalog), pinned)
    else if || (ReadString(p.effort).Some? && ReadString(p.effort) != pinned.effort)
            || (c.effort.Some? && c.effort != pinned.effort)
    then Fail(PinnedSelectionMismatch)
    else if pinned.providerModel.None? || !p.cloneable then Fail(InvalidParams)
    else Pass
  }

  /** `validateThreadBound` after the availability of the thread: what is sent on. */
  function Bind(p: BoundParams, pinned: Option<Route>, catalog: Catalog): Result<BoundParams, RoutingError> {
    var model := ReadString(p.model);
    var selected := Selected(model, catalog);
    var provider := SelectedProvider(Some(Common(p)));
    var collaboration := ReadMode(p.mode);
    if provider.Err? then Err(provider.error)
    else if Unavailable(p.model, selected, Permitted(pinned), catalog) then Err(WebModelUnavailable)
    else if collaboration.Err? then Err(collaboration.error)
    else
      var c := collaboration.value;
      var named := selected.Some? || Selected(c.model, catalog).Some?;
      if Unavailable(c.raw, Selected(c.model, catalog), Permitted(pinned), catalog) then Err(WebModelUnavailable)
      else if pinned.None? then
        if !named then Ok(p) else if ReadString(p.threadId).None? then Err(InvalidParams) else Err(ThreadRouteUnknown)
      else if pinned.value.kind.Native? then
        if named || provider.value == Some(catalog.provider) then Err(ProviderSwitch) else Ok(p)
      else
        var verdict := WebVerdict(p, c, provider.value, pinned.value, catalog);
        if verdict.Fail? then Err(verdict.error)
        else if pinned.value.providerModel.None? then Err(InvalidParams)
        else Ok(Pin(p, pinned.value))
  }

  /** `validateThreadBound`, for parameters that are a record. */
  function ValidateBound(s: State, p: BoundParams, catalog: Catalog): Result<BoundParams, RoutingError> {
    var thread := ReadString(p.threadId);
    if s.compromised then Err(ThreadRouteBlocked)
    else if DefinesProvider(Some(Common(p))) then Err(InvalidParams)
    else if Availability(s, thread).Fail? then Err(Availability(s, thread).error)
    else Bind(p, RouteOf(s.threads, thread), catalog)
  }

  /** Whether a model named in a request to a web thread means the thread's own. */
  predicate MeansPinned(model: Option<Text>, pinned: Route, catalog: Catalog) {
    model.None? || model == pinned.providerModel ||
    (model.value in catalog.models &&
     var m := catalog.models[model.value];
     Some(m.publicModel) == pinned.model && Some(m.providerModel) == pinned.providerModel &&
     Some(m.catalogRevision) == pinned.catalogRevision)
  }

  /**
    A request to a web thread is sent on if and only if all it names is the thread's own, in
    every place it can be named; a request to a native or unknown thread only if it names no
    model on offer and, to a native one, not the bridge's provider, and then it is unchanged.
   */
  lemma BindAccepts(p: BoundParams, pinned: Option<Route>, catalog: Catalog)
    requires SelectedProvider(Some(Common(p))).Ok? && ReadMode(p.mode).Ok?
    ensures var c, provider := ReadMode(p.mode).value, SelectedProvider(Some(Common(p))).value;
            var model := ReadString(p.model);
            var offered := !Unavailable(p.model, Selected(model, catalog), Permitted(pinned), catalog) &&
                           !Unavailable(c.raw, Selected(c.model, catalog), Permitted(pinned), catalog);
            && (pinned.Some? && pinned.value.kind.Web? ==>
                  (Bind(p, pinned, catalog).Ok? <==>
                    && offered && pinned.value.providerModel.Some? && p.cloneable
                    && (provider.None? || provider == Some(catalog.provider))
                    && MeansPinned(model, pinned.value, catalog) && MeansPinned(c.model, pinned.value, catalog)
                    && (ReadString(p.effort).None? || ReadString(p.effort) == pinned.value.effort)
                    && (c.effort.None? || c.effort == pinned.value.effort)))
            && (pinned.None? || pinned.value.kind.Native? ==>
                  (Bind(p, pinned, catalog).Ok? <==>
                    && offered && Selected(model, catalog).None? && Selected(c.model, catalog).None?
                    && (pinned.Some? ==> provider != Some(catalog.provider)))
                  && (Bind(p, pinned, catalog).Ok? ==> Bind(p, pinned, catalog).value == p))
  {
    hide SelectedProvider, ReadMode, ReadString, Common;
  }

  /** What is sent on is accepted again, unchanged. */
  lemma BindIdempotent(p: BoundParams, pinned: Route, catalog: Catalog)
    requires pinned.kind.Web? && Bind(p, Some(pinned), catalog).Ok? && pinned.effort.Some?
    requires 1 <= |pinned.providerModel.value| <= MAX_IDENTIFIER_LENGTH
             && 1 <= |pinned.effort.value| <= MAX_IDENTIFIER_LENGTH
    ensures var sent := Bind(p, Some(pinned), catalog).value;
            Bind(sent, Some(pinned), catalog) == Ok(sent)
  {
    hide Selected, Unavailable;
    var sent := Pin(p, pinned);
    assert SelectedProvider(Some(Common(sent))) == SelectedProvider(Some(Common(p)));
    OwnIsAvailable(pinned, catalog);
  }

  lemma OwnIsAvailable(pinned: Route, catalog: Catalog)
    requires pinned.kind.Web? && pinned.providerModel.Some?
    ensures forall selected :: !Unavailable(String(pinned.providerModel.value), selected, Permitted(Some(pinned)),
                                            catalog)
    ensures forall selected, permitted :: !Unavailable(Missing, selected, permitted, catalog)
  {
  }

  /**
    A web thread runs on one model with one effort for life: whatever has happened since it was
    pinned, short of forgetting it, every request sent on for it names that model and effort.
   */
  lemma BoundForLife(s: State, events: seq<Event>, limits: Limits, thread: Text, p: BoundParams, catalog: Catalog)
    requires Sound(s, limits) && thread in s.threads && Forget(thread) !in events && s.threads[thread].kind.Web?
    requires ReadString(p.threadId) == Some(thread) && ValidateBound(Run(s, events, limits), p, catalog).Ok?
    ensures var sent, route := ValidateBound(Run(s, events, limits), p, catalog).value, s.threads[thread];
            && route.providerModel.Some? && sent.model == String(route.providerModel.value)
            && sent.threadId == p.threadId
            && (sent.mode.Settings? ==> sent.mode.model == sent.model)
            && (route.effort.Some? ==>
                  sent.effort == String(route.effort.value) && (sent.mode.Settings? ==>
                                                                sent.mode.effort == sent.effort))
  {
    hide Run, Sound, SelectedProvider, ReadMode, WebVerdict, Selected, Unavailable;
    PinnedUntilForgotten(s, events, limits, thread);
  }
}
