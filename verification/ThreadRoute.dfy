/**
  The route a lifecycle request asks for: a web model, pinned for the life of its thread,
  or a native one.  Request parameters are records of optional fields; `reserved` is the
  test for names inside the bridge's model namespace.
 */
module ThreadRoute {
  import opened Results
  import opened Utf16
  import opened Decimal

  const MAX_REQUEST_ID_LENGTH := 256
  const MAX_IDENTIFIER_LENGTH := 1024

  datatype RoutingError =
    | InvalidParams | PendingCapacity | PinnedSelectionMismatch | ProviderSwitch | RequestIdConflict
    | RouteConflict | ThreadCapacity | ThreadRouteBlocked | ThreadRoutePending | ThreadRouteUnknown
    | WebModelUnavailable

  datatype Kind = Native | Web

  /** `modelProvider` is left out: it is the bridge's provider exactly when the kind is `Web`. */
  datatype Route = Route(
    kind: Kind, catalogRevision: Option<Text>, model: Option<Text>, providerModel: Option<Text>,
    effort: Option<Text>)

  datatype VirtualModel = VirtualModel(
    catalogRevision: Text, defaultEffort: Text, providerModel: Text, publicModel: Text, efforts: seq<Text>)

  datatype Direction = ClientToServer | ServerToClient
  datatype RequestId = Number(n: int) | Name(text: Text)
  datatype Lifecycle = Start | Resume | Fork

  /** A field of an unchecked record: missing or null, a string, or anything else. */
  datatype Raw = Missing | String(text: Text) | Other

  /** Whose definition of the bridge's provider a configuration table holds. */
  datatype ProviderTable = NoProvider | ClientProvider | BridgeProvider

  datatype Config = Config(model: Raw, modelProvider: Raw, effort: Raw, provider: ProviderTable, ambiguous: bool)

  datatype ConfigField = NoConfig | Table(config: Config) | NotATable

  datatype Params = Params(
    threadId: Raw, path: Raw, history: bool, model: Raw, modelProvider: Raw, effort: Raw,
    config: ConfigField, cloneable: bool)

  // ----- request keys -----

  predicate ValidId(id: RequestId) {
    match id
    case Number(n) => SafeInteger(n)
    case Name(text) => |text| <= MAX_REQUEST_ID_LENGTH
  }

  function KeyHead(direction: Direction, numeric: bool): (head: Text)
    ensures |head| == 24
  {
    (match direction
     case ClientToServer => Ascii("client-to-server")
     case ServerToClient => Ascii("server-to-client"))
    + Ascii(if numeric then ":number:" else ":string:")
  }

  function KeyTail(id: RequestId): Text {
    match id
    case Number(n) => PrintInteger(n)
    case Name(text) => PrintInteger(|text|) + [0x3A] + text
  }

  /** `serializeDirectionalRequestId`. */
  function Key(direction: Direction, id: RequestId): Text {
    KeyHead(direction, id.Number?) + KeyTail(id)
  }

  lemma PrintIntegerInjective(m: int, n: int)
    requires PrintInteger(m) == PrintInteger(n)
    ensures m == n
  {
    ValueOfDigits(if m < 0 then -m else m);
    ValueOfDigits(if n < 0 then -n else n);
    if m < 0 {
      assert PrintInteger(m)[1..] == Digits(-m);
    }
    if n < 0 {
      assert PrintInteger(n)[1..] == Digits(-n);
    }
  }

  lemma {:induction false} DigitsThenColon(a: Text, b: Text, rest: Text, more: Text)
    requires AllDigits(a) && AllDigits(b) && a + [0x3A] + rest == b + [0x3A] + more
    ensures a == b && rest == more
    decreases |a|
  {
    var left, right := a + [0x3A] + rest, b + [0x3A] + more;
    if a == [] || b == [] {
      assert left[0] == right[0];
      assert a == b;
      assert left[1..] == rest && right[1..] == more;
    } else {
      assert left[0] == right[0] && left[1..] == a[1..] + [0x3A] + rest && right[1..] == b[1..] + [0x3A] + more;
      DigitsThenColon(a[1..], b[1..], rest, more);
      assert a == [a[0]] + a[1..] && b == [b[0]] + b[1..];
    }
  }

  lemma KeyHeadInjective(d: Direction, numeric: bool, e: Direction, other: bool)
    requires KeyHead(d, numeric) == KeyHead(e, other)
    ensures d == e && numeric == other
  {
    assert KeyHead(d, numeric)[0] == KeyHead(e, other)[0] && KeyHead(d, numeric)[17] == KeyHead(e, other)[17];
  }

  /** Two requests share a key only if they have the same direction and the same id. */
  lemma KeyInjective(d: Direction, id: RequestId, e: Direction, other: RequestId)
    requires Key(d, id) == Key(e, other)
    ensures d == e && id == other
  {
    hide PrintInteger, KeyHead;
    var left, right := Key(d, id), Key(e, other);
    assert KeyHead(d, id.Number?) == left[..24] == right[..24] == KeyHead(e, other.Number?);
    assert KeyTail(id) == left[24..] == right[24..] == KeyTail(other);
    KeyHeadInjective(d, id.Number?, e, other.Number?);
    match id
    case Number(n) => PrintIntegerInjective(n, other.n);
    case Name(text) =>
      PrintLength(text);
      PrintLength(other.text);
      DigitsThenColon(PrintInteger(|text|), PrintInteger(|other.text|), text, other.text);
  }

  lemma PrintLength(text: Text)
    ensures AllDigits(PrintInteger(|text|))
  {
  }

  // ----- reading parameters -----

  /** `readOptionalString`: a string of acceptable length, or nothing. */
  function ReadString(raw: Raw): Option<Text> {
    if raw.String? && 1 <= |raw.text| <= MAX_IDENTIFIER_LENGTH then Some(raw.text) else None
  }

  /** `readOptionalRoutingString`: like `ReadString`, but anything present must be such a string. */
  function ReadRouting(raw: Raw): Result<Option<Text>, RoutingError> {
    if raw.Missing? then Ok(None)
    else if ReadString(raw).None? then Err(InvalidParams)
    else Ok(ReadString(raw))
  }

  /** Two places for one setting: they must agree where both speak. */
  function Agreed(direct: Option<Text>, configured: Option<Text>): Result<Option<Text>, RoutingError> {
    if direct.Some? && configured.Some? && direct != configured then Err(InvalidParams)
    else Ok(if direct.Some? then direct else configured)
  }

  function ConfigOf(params: Option<Params>): Option<Config> {
    if params.Some? && params.value.config.Table? then Some(params.value.config.config) else None
  }

  function LifecycleModel(params: Option<Params>): Result<Option<Text>, RoutingError> {
    var direct := ReadRouting(if params.Some? then params.value.model else Missing);
    var configured := ReadRouting(if ConfigOf(params).Some? then ConfigOf(params).value.model else Missing);
    if direct.Err? then direct
    else if configured.Err? then configured
    else Agreed(direct.value, configured.value)
  }

  function SelectedProvider(params: Option<Params>): Result<Option<Text>, RoutingError> {
    Agreed(ReadString(if params.Some? then params.value.modelProvider else Missing),
           ReadString(if ConfigOf(params).Some? then ConfigOf(params).value.modelProvider else Missing))
  }

  function LifecycleEffort(params: Option<Params>): Result<Option<Text>, RoutingError> {
    Agreed(ReadString(if params.Some? then params.value.effort else Missing),
           ReadString(if ConfigOf(params).Some? then ConfigOf(params).value.effort else Missing))
  }

  predicate DefinesProvider(params: Option<Params>) {
    ConfigOf(params).Some? && !ConfigOf(params).value.provider.NoProvider?
  }

  /** `lifecycleIdentityOverridesThreadId`: a history or a path names the thread instead of its id. */
  predicate Overrides(via: Lifecycle, params: Option<Params>) {
    && params.Some?
    && (|| (via == Resume && params.value.history)
        || (via != Start && params.value.path.String? && params.value.path.text != []))
  }

  /** `assertSupportedWebLifecycleIdentity` and `assertNoAmbiguousWebConfigTables`. */
  predicate SupportedForWeb(via: Lifecycle, params: Option<Params>) {
    params.Some? ==>
      && !(via == Resume && params.value.history)
      && (via != Start ==> params.value.path.Missing? || params.value.path == String([]))
      && (ConfigOf(params).Some? ==> !ConfigOf(params).value.ambiguous)
  }

  // ----- the decision -----

  /** The provider's own name, and what else decides a route: the models on offer and the namespace test. */
  datatype Catalog = Catalog(provider: Text, models: map<Text, VirtualModel>, reserved: Text -> bool)

  function Selected(model: Option<Text>, catalog: Catalog): Option<VirtualModel> {
    if model.Some? && model.value in catalog.models then Some(catalog.models[model.value]) else None
  }

  function WebRoute(m: VirtualModel, effort: Option<Text>): Result<Route, RoutingError> {
    var chosen := if effort.Some? then effort.value else m.defaultEffort;
    if chosen !in m.efforts then Err(InvalidParams)
    else Ok(Route(Web, Some(m.catalogRevision), Some(m.publicModel), Some(m.providerModel), Some(chosen)))
  }

  /** `assertPinnedModelSelection`. */
  function PinnedSelection(model: Option<Text>, selected: Option<VirtualModel>, pinned: Route): Outcome<RoutingError> {
    if model.None? || model == pinned.providerModel then Pass
    else if selected.None? then Fail(ProviderSwitch)
    else if && pinned.kind.Web? && Some(selected.value.publicModel) == pinned.model
            && Some(selected.value.providerModel) == pinned.providerModel
            && Some(selected.value.catalogRevision) == pinned.catalogRevision
    then Pass
    else Fail(PinnedSelectionMismatch)
  }

  /** The fields of a lifecycle request that bear on its route. */
  datatype Choice = Choice(model: Option<Text>, provider: Option<Text>, effort: Option<Text>)

  function ReadChoice(params: Option<Params>): Result<Choice, RoutingError> {
    var model, provider, effort := LifecycleModel(params), SelectedProvider(params), LifecycleEffort(params);
    if model.Err? then Err(model.error)
    else if provider.Err? then Err(provider.error)
    else if effort.Err? then Err(effort.error)
    else Ok(Choice(model.value, provider.value, effort.value))
  }

  /** `#decideLifecycleRoute`. */
  function Decide(via: Lifecycle, params: Option<Params>, source: Option<Route>, revision: Option<Text>,
                  catalog: Catalog): Result<Route, RoutingError>
  {
    var choice := ReadChoice(params);
    if choice.Err? then Err(choice.error) else DecideChoice(via, choice.value, source, revision, catalog)
  }

  function DecideChoice(via: Lifecycle, choice: Choice, source: Option<Route>, revision: Option<Text>,
                        catalog: Catalog): Result<Route, RoutingError>
  {
    var selected := Selected(choice.model, catalog);
    var permitted := if source.Some? && source.value.kind.Web? then source.value.providerModel else None;
    var foreign := choice.provider.Some? && choice.provider != Some(catalog.provider);
    if choice.model.Some? && selected.None? && choice.model != permitted && catalog.reserved(choice.model.value)
    then Err(WebModelUnavailable)
    else if source.Some? && source.value.kind.Web? then
      if foreign then Err(ProviderSwitch)
      else
        var pinned := PinnedSelection(choice.model, selected, source.value);
        if pinned.Fail? then Err(pinned.error)
        else if choice.effort.Some? && choice.effort != source.value.effort then Err(PinnedSelectionMismatch)
        else Ok(source.value)
    else if source.Some? && (selected.Some? || choice.provider == Some(catalog.provider)) then Err(ProviderSwitch)
    else if selected.Some? then
      if foreign then Err(ProviderSwitch)
      else if via != Start then Err(ThreadRouteUnknown)
      else WebRoute(selected.value, choice.effort)
    else if choice.provider == Some(catalog.provider) then Err(InvalidParams)
    else if revision == Some([]) then Err(InvalidParams)
    else if via != Start && source.Some? then Ok(source.value)
    else Ok(Route(Native, revision, choice.model, choice.model, choice.effort))
  }

  /** Off a start, a route is web only by inheritance, and a known source is always inherited. */
  lemma DecisionInherits(via: Lifecycle, params: Option<Params>, source: Option<Route>, revision: Option<Text>,
                         catalog: Catalog)
    requires via != Start && Decide(via, params, source, revision, catalog).Ok?
    ensures var route := Decide(via, params, source, revision, catalog).value;
            match source
            case Some(pinned) => route == pinned
            case None => route.kind.Native?
  {
    hide ReadChoice, Selected, PinnedSelection, WebRoute;
  }

  /** `#injectWebRoute`: what is sent on for a web route. */
  function Inject(params: Option<Params>, route: Route, catalog: Catalog): Option<Params> {
    if params.None? || route.providerModel.None? || !params.value.cloneable || params.value.config.NotATable? then None
    else
      var given := if params.value.config.Table? then params.value.config.config
                   else Config(Missing, Missing, Missing, NoProvider, false);
      var model := String(route.providerModel.value);
      var config := given.(model := model, modelProvider := String(catalog.provider), provider := BridgeProvider,
                           effort := if route.effort.Some? then String(route.effort.value) else given.effort);
      Some(params.value.(config := Table(config), model := model, modelProvider := String(catalog.provider)))
  }

  /**
    A forwarded web request carries its route and nothing else: read again, both places for
    the model, the provider and the effort agree, and the provider table is the bridge's.
   */
  lemma InjectedChoice(via: Lifecycle, params: Option<Params>, source: Option<Route>, revision: Option<Text>,
                       catalog: Catalog)
    requires var decided := Decide(via, params, source, revision, catalog);
             && decided.Ok? && Inject(params, decided.value, catalog).Some?
             && decided.value.kind.Web? && decided.value.effort.Some?
             && forall name :: name in [decided.value.providerModel.value, catalog.provider, decided.value.effort.value]
                               ==> 1 <= |name| <= MAX_IDENTIFIER_LENGTH
    ensures var route := Decide(via, params, source, revision, catalog).value;
            var sent := Inject(params, route, catalog);
            && ReadChoice(sent) == Ok(Choice(route.providerModel, Some(catalog.provider), route.effort))
            && ConfigOf(sent).value.provider.BridgeProvider?
  {
    var route := Decide(via, params, source, revision, catalog).value;
    var names := [route.providerModel.value, catalog.provider, route.effort.value];
    assert names[0] in names && names[1] in names && names[2] in names;
    DecidedEffort(via, params, source, revision, catalog);
  }

  /** The effort a client gives beside its configuration is never another one than the route's. */
  lemma DecidedEffort(via: Lifecycle, params: Option<Params>, source: Option<Route>, revision: Option<Text>,
                      catalog: Catalog)
    requires Decide(via, params, source, revision, catalog).Ok? && params.Some?
    requires Decide(via, params, source, revision, catalog).value.kind.Web?
    ensures var direct := ReadString(params.value.effort);
            direct.Some? ==> direct == Decide(via, params, source, revision, catalog).value.effort
  {
  }
}
