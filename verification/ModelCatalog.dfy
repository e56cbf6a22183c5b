/**
  Model list pagination: the bridge's own models are spliced in after an unknown number of
  native pages, behind opaque cursors of an expiring store.  The source of virtual models,
  clock readings, random strings and native replies are arguments.
 */
module ModelCatalog {
  import opened Results
  import opened Utf16
  import opened CursorStore

  const MAX_CATALOG_CURSOR_LENGTH := 4096
  const MAX_MODEL_IDENTIFIER_LENGTH := 512
  const MAX_NATIVE_MODELS_PER_PAGE := 4096
  const MAX_OBSERVED_NATIVE_MODELS := 4096
  const MAX_MODEL_LIST_LIMIT := 4294967295

  datatype CatalogError = Store(error: CursorError) | BadCursor | InvalidLimit | InvalidModelPage | ModelCollision

  /** The two keys of an entry; the rest of it is carried along untouched. */
  datatype Model = Model(id: Text, model: Text)

  datatype CursorState =
    | NativeState(complete: bool, includeHidden: bool, ids: set<Text>, models: set<Text>, nativeCursor: Text,
                  virtuals: seq<Model>)
    | VirtualState(includeHidden: bool, virtuals: seq<Model>)

  datatype Context = Context(
    complete: bool, includeHidden: bool, limit: nat, nativeCursor: Option<Text>, ids: set<Text>, models: set<Text>,
    virtuals: seq<Model>)

  datatype Request = Request(cursor: Option<Text>, includeHidden: bool, limit: Option<int>)

  /** A native reply: not a page at all, or entries and a cursor. */
  datatype NativePage = NotAPage | NativePage(data: seq<Model>, next: Option<Text>)

  datatype Page = Page(data: seq<Model>, next: Option<Text>)

  datatype Prepared = ForwardNative(context: Context, upstream: Option<Text>) | ReturnVirtual(page: Page)

  /** A page before its continuation has been put in the store. */
  datatype Turn = Turn(data: seq<Model>, next: Option<CursorState>)

  type Entries = seq<Entry<CursorState>>

  datatype Answer<+R> = Answer(entries: Entries, result: Result<R, CatalogError>)

  // ----- specification -----

  function NormalLimit(limit: int): Result<nat, CatalogError> {
    if 0 <= limit <= MAX_MODEL_LIST_LIMIT then Ok(if limit == 0 then 1 else limit) else Err(InvalidLimit)
  }

  predicate ValidIdentifier(s: Text) {
    1 <= |s| <= MAX_MODEL_IDENTIFIER_LENGTH
  }

  predicate ValidPage(page: NativePage) {
    && page.NativePage? && |page.data| <= MAX_NATIVE_MODELS_PER_PAGE
    && (page.next.Some? ==> 1 <= |page.next.value| <= MAX_CATALOG_CURSOR_LENGTH)
    && ValidEntries(page.data)
  }

  predicate ValidEntries(data: seq<Model>) {
    forall i :: 0 <= i < |data| ==> ValidIdentifier(data[i].id) && ValidIdentifier(data[i].model)
  }

  function Ids(data: seq<Model>): set<Text> {
    set m | m in data :: m.id
  }

  function Names(data: seq<Model>): set<Text> {
    set m | m in data :: m.model
  }

  /** `assertNoNativeCollision`: neither a virtual key nor a reserved name among the native ones. */
  ghost predicate NoCollision(ids: set<Text>, models: set<Text>, virtuals: seq<Model>, reserved: Text -> bool) {
    && (forall v :: v in virtuals ==> v.id !in ids && v.model !in models)
    && (forall x :: x in ids || x in models ==> !reserved(x))
  }

  function Least(a: int, b: int): int {
    if a < b then a else b
  }

  /** The first `limit` models and the state that continues after them. */
  function VirtualTurn(virtuals: seq<Model>, limit: nat, includeHidden: bool): Turn {
    var n := Least(limit, |virtuals|);
    Turn(virtuals[..n], if n == |virtuals| then None else Some(VirtualState(includeHidden, virtuals[n..])))
  }

  /** What `mergeNativePage` makes of a native page. */
  ghost function NativeTurn(c: Context, page: NativePage, reserved: Text -> bool): Result<Turn, CatalogError> {
    if !ValidPage(page) then Err(InvalidModelPage)
    else
      var ids, models := c.ids + Ids(page.data), c.models + Names(page.data);
      if |ids| > MAX_OBSERVED_NATIVE_MODELS || |models| > MAX_OBSERVED_NATIVE_MODELS then Err(InvalidModelPage)
      else if !NoCollision(ids, models, c.virtuals, reserved) then Err(ModelCollision)
      else if page.next.Some?
      then Ok(Turn(page.data, Some(NativeState(c.complete, c.includeHidden, ids, models, page.next.value, c.virtuals))))
      else if !c.complete then Ok(Turn(page.data, None))
      else
        var room := if c.limit > |page.data| then c.limit - |page.data| else 0;
        var rest := VirtualTurn(c.virtuals, room, c.includeHidden);
        Ok(Turn(page.data + rest.data, rest.next))
  }

  /** Puts the continuation of a page in the store. */
  function Publish(entries: Entries, turn: Turn, now: int, randoms: seq<Text>, st: Settings): Answer<Page>
    requires |randoms| == ATTEMPTS
  {
    if turn.next.None? then Answer(entries, Ok(Page(turn.data, None)))
    else
      var created := CreateOp(entries, turn.next.value, now, randoms, st);
      Answer(created.entries,
             if created.result.Ok? then Ok(Page(turn.data, Some(created.result.value)))
             else Err(Store(created.result.error)))
  }

  function ContextOf(s: CursorState, limit: nat): Context
    requires s.NativeState?
  {
    Context(s.complete, s.includeHidden, limit, Some(s.nativeCursor), s.ids, s.models, s.virtuals)
  }

  function Forward(c: Context): Prepared {
    ForwardNative(c, c.nativeCursor)
  }

  /** `prepare`: `now` is read for the cursor, then `later` and `randoms` serve a virtual page's own cursor. */
  function PrepareOp(entries: Entries, request: Request, defaultLimit: int, now: int, later: int, randoms: seq<Text>,
                     source: seq<Model>, st: Settings): Answer<Prepared>
    requires |randoms| == ATTEMPTS
  {
    var limit := NormalLimit(if request.limit.Some? then request.limit.value else defaultLimit);
    if limit.Err? then Answer(entries, Err(limit.error))
    else if request.cursor.Some? && !(1 <= |request.cursor.value| <= MAX_CATALOG_CURSOR_LENGTH)
    then Answer(entries, Err(BadCursor))
    else if request.cursor.Some? && Owns(request.cursor.value, st.prefix) then
      var found := ReadOp(entries, request.cursor.value, now, st);
      if found.result.Err? then Answer(found.entries, Err(Store(found.result.error)))
      else Resume(found.entries, found.result.value, request.includeHidden, limit.value, later, randoms, st)
    else
      Answer(entries, Ok(Forward(Context(request.cursor.None?, request.includeHidden, limit.value, request.cursor,
                                         {}, {}, source))))
  }

  function Resume(entries: Entries, s: CursorState, includeHidden: bool, limit: nat, later: int, randoms: seq<Text>,
                  st: Settings): Answer<Prepared>
    requires |randoms| == ATTEMPTS
  {
    if s.includeHidden != includeHidden then Answer(entries, Err(BadCursor))
    else if s.NativeState? then Answer(entries, Ok(Forward(ContextOf(s, limit))))
    else
      var published := Publish(entries, VirtualTurn(s.virtuals, limit, includeHidden), later, randoms, st);
      Answer(published.entries,
             if published.result.Ok? then Ok(ReturnVirtual(published.result.value)) else Err(published.result.error))
  }

  ghost function MergeOp(entries: Entries, c: Context, page: NativePage, now: int, randoms: seq<Text>,
                         reserved: Text -> bool, st: Settings): Answer<Page>
    requires |randoms| == ATTEMPTS
  {
    var turn := NativeTurn(c, page, reserved);
    if turn.Err? then Answer(entries, Err(turn.error)) else Publish(entries, turn.value, now, randoms, st)
  }

  // ----- following the cursors -----

  /**
    One page of a client that follows cursors: the calls others make on the store before its
    request (`before`) and while its native page is fetched (`during`), and what the
    request, its clock readings and the native server bring.
   */
  datatype Visit = Visit(
    before: seq<Op<CursorState>>, limit: Option<int>, readAt: int, during: seq<Op<CursorState>>, native: NativePage,
    createAt: int, randoms: seq<Text>)

  datatype Setup = Setup(st: Settings, defaultLimit: int, includeHidden: bool, source: seq<Model>,
                         reserved: Text -> bool)

  predicate Ready(ops: seq<Op<CursorState>>) {
    forall i :: 0 <= i < |ops| ==> CursorStore.WellFormed(ops[i])
  }

  predicate ReadyVisit(v: Visit) {
    Ready(v.before) && Ready(v.during) && |v.randoms| == ATTEMPTS
  }

  ghost function Exchange(entries: Entries, cursor: Option<Text>, v: Visit, setup: Setup): Answer<Page>
    requires ReadyVisit(v)
  {
    var prepared := PrepareOp(Run(entries, v.before, setup.st), Request(cursor, setup.includeHidden, v.limit),
                              setup.defaultLimit, v.readAt, v.createAt, v.randoms, setup.source, setup.st);
    if prepared.result.Err? then Answer(prepared.entries, Err(prepared.result.error))
    else
      match prepared.result.value
      case ReturnVirtual(page) => Answer(prepared.entries, Ok(page))
      case ForwardNative(context, _) =>
        MergeOp(Run(prepared.entries, v.during, setup.st), context, v.native, v.createAt, v.randoms, setup.reserved,
                setup.st)
  }

  /** Everything listed by one visit after another, up to the page without a cursor. */
  ghost function Follow(entries: Entries, cursor: Option<Text>, visits: seq<Visit>, setup: Setup):
    Result<Page, CatalogError>
    requires forall i :: 0 <= i < |visits| ==> ReadyVisit(visits[i])
    decreases |visits|
  {
    if visits == [] then Ok(Page([], cursor))
    else
      var first := Exchange(entries, cursor, visits[0], setup);
      if first.result.Err? then Err(first.result.error)
      else if first.result.value.next.None? then Ok(first.result.value)
      else
        var rest := Follow(first.entries, first.result.value.next, visits[1..], setup);
        if rest.Err? then rest else Ok(Page(first.result.value.data + rest.value.data, rest.value.next))
  }

  /** The native entries fetched: every page up to the last one. */
  function Natives(visits: seq<Visit>): seq<Model> {
    if visits == [] || visits[0].native.NotAPage? then []
    else if visits[0].native.next.None? then visits[0].native.data
    else visits[0].native.data + Natives(visits[1..])
  }

  /** How many visits fetch a native page; the last of them, if it has no cursor, ends the native list. */
  function NativeVisits(visits: seq<Visit>): nat {
    if visits == [] then 0
    else if visits[0].native.NativePage? && visits[0].native.next.None? then 1
    else 1 + NativeVisits(visits[1..])
  }

  predicate Ended(visits: seq<Visit>) {
    visits != [] && ((visits[0].native.NativePage? && visits[0].native.next.None?) || Ended(visits[1..]))
  }

  /** The store keeps the cursor of one visit for the next: few calls between them, and no late clock. */
  predicate Patient(visits: seq<Visit>, st: Settings)
    requires forall i :: 0 <= i < |visits| ==> ReadyVisit(visits[i])
  {
    forall i :: 0 < i < |visits| ==> Keeps(visits[i], visits[i - 1].createAt + st.ttl, st)
  }

  predicate Keeps(v: Visit, expiry: int, st: Settings) {
    && Creates(v.before) < st.maxEntries && (forall k :: 0 <= k < |v.before| ==> !Reaches(v.before[k], expiry))
    && ValidClock(v.readAt) && v.readAt < expiry
  }

  /** The cursor reads back its state until the expiry is observed or the store has moved on. */
  ghost predicate Readable(entries: Entries, cursor: Text, expiry: int, s: CursorState, st: Settings) {
    && Sound(entries, st) && Stored(entries, Entry(cursor, expiry, s), 0)
    && Owns(cursor, st.prefix) && 1 <= |cursor| <= MAX_CATALOG_CURSOR_LENGTH
  }

  predicate Configured(st: Settings) {
    1 <= st.maxEntries && 1 <= st.ttl && 1 <= |st.prefix| <= 128
  }

  lemma PublishReadable(entries: Entries, turn: Turn, now: int, randoms: seq<Text>, st: Settings)
    requires Sound(entries, st) && Configured(st) && |randoms| == ATTEMPTS
             && Publish(entries, turn, now, randoms, st).result.Ok?
    ensures var a := Publish(entries, turn, now, randoms, st);
            && a.result.value.data == turn.data && (a.result.value.next.Some? <==> turn.next.Some?)
            && Sound(a.entries, st)
            && (turn.next.Some? ==> Readable(a.entries, a.result.value.next.value, now + st.ttl, turn.next.value, st))
  {
    hide Sound, Stored, CreateOp;
    if turn.next.Some? {
      CreateSound(entries, turn.next.value, now, randoms, st);
      CreatedStored(entries, turn.next.value, now, randoms, st);
      CreatedCursor(entries, turn.next.value, now, randoms, st);
    }
  }

  lemma CreatedCursor(entries: Entries, value: CursorState, now: int, randoms: seq<Text>, st: Settings)
    requires |randoms| == ATTEMPTS && CreateOp(entries, value, now, randoms, st).result.Ok?
    ensures var c := CreateOp(entries, value, now, randoms, st).result.value;
            Owns(c, st.prefix) && |st.prefix| + MIN_ENTROPY_LENGTH <= |c| <= |st.prefix| + MAX_ENTROPY_LENGTH
  {
    hide Fresh, Prune, Evict;
    FreshIsNew(Prune(entries, now), st.prefix, randoms);
  }

  /** A patient visit finds the state its cursor stands for. */
  lemma VisitReads(entries: Entries, cursor: Text, expiry: int, s: CursorState, v: Visit, setup: Setup)
    requires ReadyVisit(v) && Readable(entries, cursor, expiry, s, setup.st) && Configured(setup.st)
    requires Keeps(v, expiry, setup.st) && s.includeHidden == setup.includeHidden
    requires Exchange(entries, Some(cursor), v, setup).result.Ok?
    ensures var limit := NormalLimit(if v.limit.Some? then v.limit.value else setup.defaultLimit);
            var found := ReadOp(Run(entries, v.before, setup.st), cursor, v.readAt, setup.st);
            && limit.Ok? && 1 <= limit.value && Sound(found.entries, setup.st)
            && Exchange(entries, Some(cursor), v, setup) ==
               match s
               case NativeState(_, _, _, _, _, _) =>
                 MergeOp(Run(found.entries, v.during, setup.st), ContextOf(s, limit.value), v.native, v.createAt,
                         v.randoms, setup.reserved, setup.st)
               case VirtualState(_, virtuals) =>
                 Publish(found.entries, VirtualTurn(virtuals, limit.value, setup.includeHidden), v.createAt, v.randoms,
                         setup.st)
  {
    hide Sound, Stored, MergeOp, Publish, Run, Reaches, ReadOp, VirtualTurn;
    var e := Entry(cursor, expiry, s);
    RunStored(entries, v.before, setup.st, e, 0);
    var now := Run(entries, v.before, setup.st);
    ReadStored(now, v.readAt, setup.st, e, Creates(v.before));
    StepSound(now, CursorStore.Read(cursor, v.readAt), setup.st);
    assert ReadOp(now, cursor, v.readAt, setup.st).entries == Step(now, CursorStore.Read(cursor, v.readAt), setup.st);
  }

  // ----- what following lists -----

  /** The virtual part of a listing: in order, complete when the cursors end, and growing until then. */
  predicate Splices(virtual: seq<Model>, next: Option<Text>, visits: nat, virtuals: seq<Model>) {
    && virtual <= virtuals
    && (next.None? ==> virtual == virtuals)
    && (next.Some? ==> visits <= |virtual| < |virtuals|)
  }

  lemma {:induction false} FollowVirtual(entries: Entries, cursor: Text, expiry: int, s: CursorState,
                                         visits: seq<Visit>,
                                         setup: Setup)
    requires forall i :: 0 <= i < |visits| ==> ReadyVisit(visits[i])
    requires Configured(setup.st) && Readable(entries, cursor, expiry, s, setup.st) && Patient(visits, setup.st)
    requires visits != [] ==> Keeps(visits[0], expiry, setup.st)
    requires s.VirtualState? && s.virtuals != [] && s.includeHidden == setup.includeHidden
    requires Follow(entries, Some(cursor), visits, setup).Ok?
    ensures var page := Follow(entries, Some(cursor), visits, setup).value;
            Splices(page.data, page.next, |visits|, s.virtuals)
    decreases |visits|
  {
    hide Readable, Keeps, Exchange, Publish, ReadOp, Run, NormalLimit;
    if visits != [] {
      var v := visits[0];
      VisitReads(entries, cursor, expiry, s, v, setup);
      var limit := NormalLimit(if v.limit.Some? then v.limit.value else setup.defaultLimit).value;
      var mid := ReadOp(Run(entries, v.before, setup.st), cursor, v.readAt, setup.st).entries;
      var turn := VirtualTurn(s.virtuals, limit, setup.includeHidden);
      PublishReadable(mid, turn, v.createAt, v.randoms, setup.st);
      if turn.next.Some? {
        var first := Exchange(entries, Some(cursor), v, setup);
        FollowVirtual(first.entries, first.result.value.next.value, v.createAt + setup.st.ttl, turn.next.value,
                      visits[1..], setup);
        assert s.virtuals == turn.data + turn.next.value.virtuals;
      } else {
        assert turn.data == s.virtuals;
      }
    }
  }

  /**
    A listing: the native entries in order, none of them colliding, and after the last native
    page the virtual models in order.
   */
  ghost predicate Listed(page: Page, visits: seq<Visit>, ids: set<Text>, models: set<Text>, virtuals: seq<Model>,
                         reserved: Text -> bool)
  {
    var native := Natives(visits);
    && native <= page.data
    && NoCollision(ids + Ids(native), models + Names(native), virtuals, reserved)
    && (if Ended(visits)
        then NativeVisits(visits) <= |visits| &&
             Splices(page.data[|native|..], page.next, |visits| - NativeVisits(visits), virtuals)
        else page.data == native && page.next.Some?)
  }

  lemma {:induction false} FollowNative(entries: Entries, cursor: Text, expiry: int, s: CursorState, visits: seq<Visit>,
                                        setup: Setup)
    requires forall i :: 0 <= i < |visits| ==> ReadyVisit(visits[i])
    requires Configured(setup.st) && Readable(entries, cursor, expiry, s, setup.st) && Patient(visits, setup.st)
    requires visits != [] ==> Keeps(visits[0], expiry, setup.st)
    requires s.NativeState? && s.complete && s.includeHidden == setup.includeHidden
    requires NoCollision(s.ids, s.models, s.virtuals, setup.reserved)
    requires Follow(entries, Some(cursor), visits, setup).Ok?
    ensures Listed(Follow(entries, Some(cursor), visits, setup).value, visits, s.ids, s.models, s.virtuals,
                   setup.reserved)
    decreases |visits|, 1
  {
    hide Readable, Keeps, Exchange, MergeOp, ReadOp, Run, NormalLimit, NoCollision, Listed;
    if visits == [] {
      ListedNothing(cursor, s.ids, s.models, s.virtuals, setup.reserved);
    } else {
      var v := visits[0];
      VisitReads(entries, cursor, expiry, s, v, setup);
      var limit := NormalLimit(if v.limit.Some? then v.limit.value else setup.defaultLimit).value;
      var found := ReadOp(Run(entries, v.before, setup.st), cursor, v.readAt, setup.st).entries;
      RunSound(found, v.during, setup.st);
      FollowMerged(Run(found, v.during, setup.st), ContextOf(s, limit), visits, setup);
    }
  }

  lemma ListedNothing(cursor: Text, ids: set<Text>, models: set<Text>, virtuals: seq<Model>, reserved: Text -> bool)
    requires NoCollision(ids, models, virtuals, reserved)
    ensures Listed(Page([], Some(cursor)), [], ids, models, virtuals, reserved)
  {
    assert ids + Ids([]) == ids && models + Names([]) == models;
  }

  /** The listing from the moment a native page arrives. */
  ghost function MergeThenFollow(mid: Entries, c: Context, visits: seq<Visit>, setup: Setup): Result<Page, CatalogError>
    requires visits != [] && ReadyVisit(visits[0]) && forall i :: 0 <= i < |visits| ==> ReadyVisit(visits[i])
  {
    var v := visits[0];
    var first := MergeOp(mid, c, v.native, v.createAt, v.randoms, setup.reserved, setup.st);
    if first.result.Err? then Err(first.result.error)
    else if first.result.value.next.None? then Ok(first.result.value)
    else
      var rest := Follow(first.entries, first.result.value.next, visits[1..], setup);
      if rest.Err? then rest else Ok(Page(first.result.value.data + rest.value.data, rest.value.next))
  }

  lemma {:induction false} FollowMerged(mid: Entries, c: Context, visits: seq<Visit>, setup: Setup)
    requires visits != [] && forall i :: 0 <= i < |visits| ==> ReadyVisit(visits[i])
    requires Configured(setup.st) && Sound(mid, setup.st) && Patient(visits, setup.st)
    requires c.complete && c.includeHidden == setup.includeHidden && MergeThenFollow(mid, c, visits, setup).Ok?
    ensures Listed(MergeThenFollow(mid, c, visits, setup).value, visits, c.ids, c.models, c.virtuals, setup.reserved)
    decreases |visits|, 0
  {
    hide Sound, Readable, Keeps, Publish, NoCollision, Listed, ValidEntries, Follow;
    var v := visits[0];
    var turn := NativeTurn(c, v.native, setup.reserved).value;
    var first := MergeOp(mid, c, v.native, v.createAt, v.randoms, setup.reserved, setup.st);
    PublishReadable(mid, turn, v.createAt, v.randoms, setup.st);
    if turn.next.None? {
      LastListed(c, visits, turn, setup.reserved);
    } else {
      var rest := Follow(first.entries, first.result.value.next, visits[1..], setup).value;
      if turn.next.value.NativeState? {
        FollowNative(first.entries, first.result.value.next.value, v.createAt + setup.st.ttl, turn.next.value,
                     visits[1..],
                     setup);
        ListedMore(c, visits, turn, rest, setup.reserved);
      } else {
        FollowVirtual(first.entries, first.result.value.next.value, v.createAt + setup.st.ttl, turn.next.value,
                      visits[1..],
                      setup);
        SplicedMore(c, visits, turn, rest, setup.reserved);
      }
    }
  }

  lemma KeysConcat(a: seq<Model>, b: seq<Model>)
    ensures Ids(a + b) == Ids(a) + Ids(b) && Names(a + b) == Names(a) + Names(b)
  {
  }

  lemma LastListed(c: Context, visits: seq<Visit>, turn: Turn, reserved: Text -> bool)
    requires visits != [] && c.complete && NativeTurn(c, visits[0].native, reserved) == Ok(turn) && turn.next.None?
    ensures Listed(Page(turn.data, None), visits, c.ids, c.models, c.virtuals, reserved)
  {
    hide NoCollision, ValidEntries, Ids, Names;
    assert turn.data[|visits[0].native.data|..] == c.virtuals;
  }

  lemma ListedMore(c: Context, visits: seq<Visit>, turn: Turn, rest: Page, reserved: Text -> bool)
    requires visits != [] && c.complete && NativeTurn(c, visits[0].native, reserved) == Ok(turn)
    requires turn.next.Some? && turn.next.value.NativeState?
    requires Listed(rest, visits[1..], turn.next.value.ids, turn.next.value.models, c.virtuals, reserved)
    ensures Listed(Page(turn.data + rest.data, rest.next), visits, c.ids, c.models, c.virtuals, reserved)
  {
    hide NoCollision, ValidEntries, Ids, Names;
    var data, more := visits[0].native.data, Natives(visits[1..]);
    KeysConcat(data, more);
    assert c.ids + (Ids(data) + Ids(more)) == (c.ids + Ids(data)) + Ids(more);
    assert c.models + (Names(data) + Names(more)) == (c.models + Names(data)) + Names(more);
    assert (turn.data + rest.data)[|data + more|..] == rest.data[|more|..];
  }

  lemma SplicedMore(c: Context, visits: seq<Visit>, turn: Turn, rest: Page, reserved: Text -> bool)
    requires visits != [] && c.complete && NativeTurn(c, visits[0].native, reserved) == Ok(turn)
    requires turn.next.Some? && turn.next.value.VirtualState?
    requires Splices(rest.data, rest.next, |visits| - 1, turn.next.value.virtuals)
    ensures Listed(Page(turn.data + rest.data, rest.next), visits, c.ids, c.models, c.virtuals, reserved)
  {
    hide NoCollision, ValidEntries, Ids, Names;
    var data := visits[0].native.data;
    var spliced := turn.data[|data|..];
    assert spliced + turn.next.value.virtuals == c.virtuals;
    assert (turn.data + rest.data)[|data|..] == spliced + rest.data;
  }

  lemma FirstExchange(entries: Entries, visits: seq<Visit>, setup: Setup)
    requires visits != [] && forall i :: 0 <= i < |visits| ==> ReadyVisit(visits[i])
    requires Follow(entries, None, visits, setup).Ok?
    ensures var v := visits[0];
            var limit := NormalLimit(if v.limit.Some? then v.limit.value else setup.defaultLimit);
            && limit.Ok?
            && Follow(entries, None, visits, setup) ==
               MergeThenFollow(Run(Run(entries, v.before, setup.st), v.during, setup.st),
                               Context(true, setup.includeHidden, limit.value, None, {}, {}, setup.source), visits,
                                 setup)
  {
    hide MergeOp, Run, NormalLimit;
  }

  /**
    A client that starts without a cursor and follows the cursors it is given, with any
    limits and whatever others do, is listed all native entries and then each virtual model
    of the first snapshot once, in order, and the cursors end.  No virtual model appears
    before the native list has ended with no collision in it.
   */
  lemma FollowingListsAll(entries: Entries, visits: seq<Visit>, setup: Setup)
    requires visits != [] && forall i :: 0 <= i < |visits| ==> ReadyVisit(visits[i])
    requires Configured(setup.st) && Sound(entries, setup.st) && Patient(visits, setup.st)
    requires Follow(entries, None, visits, setup).Ok?
    ensures var page := Follow(entries, None, visits, setup).value;
            && Listed(page, visits, {}, {}, setup.source, setup.reserved)
            && (page.next.None? ==> page.data == Natives(visits) + setup.source)
            && (!Ended(visits) ==> page.data == Natives(visits))
            && (Ended(visits) && NativeVisits(visits) + |setup.source| <= |visits| ==> page.next.None?)
  {
    hide Run, Sound, MergeThenFollow, NoCollision, Follow, Keeps;
    FirstExchange(entries, visits, setup);
    var v := visits[0];
    RunSound(entries, v.before, setup.st);
    RunSound(Run(entries, v.before, setup.st), v.during, setup.st);
    FollowMerged(Run(Run(entries, v.before, setup.st), v.during, setup.st),
                 Context(true, setup.includeHidden,
                         NormalLimit(if v.limit.Some? then v.limit.value else setup.defaultLimit).value, None, {}, {},
                         setup.source), visits, setup);
    var page := Follow(entries, None, visits, setup).value;
    assert page.data == Natives(visits) + page.data[|Natives(visits)|..];
  }

  // ----- the catalog object -----

  class VirtualModelCatalog {
    const store: OpaqueCursorStore<CursorState>
    const defaultLimit: int
    const reserved: Text -> bool

    ghost predicate Valid()
      reads this, store
    {
      store.Valid()
    }

    constructor (store: OpaqueCursorStore<CursorState>, defaultLimit: int, reserved: Text -> bool)
      requires store.Valid() && NormalLimit(defaultLimit).Ok?
      ensures Valid() && this.store == store && this.defaultLimit == defaultLimit && this.reserved == reserved
    {
      this.store, this.defaultLimit, this.reserved := store, defaultLimit, reserved;
    }

    method PrepareList(request: Request, now: int, later: int, randoms: seq<Text>, source: seq<Model>)
      returns (r: Result<Prepared, CatalogError>)
      requires Valid() && |randoms| == ATTEMPTS
      modifies store
      ensures Valid()
      ensures Answer(store.entries, r) ==
              PrepareOp(old(store.entries), request, defaultLimit, now, later, randoms, source, store.st)
    {
      hide Sound, ReadOp, CreateOp;
      var limit := NormalLimit(if request.limit.Some? then request.limit.value else defaultLimit);
      if limit.Err? {
        return Err(limit.error);
      }
      if request.cursor.Some? && !(1 <= |request.cursor.value| <= MAX_CATALOG_CURSOR_LENGTH) {
        return Err(BadCursor);
      }
      if request.cursor.Some? && Owns(request.cursor.value, store.st.prefix) {
        var state := store.Read(request.cursor.value, now);
        if state.Err? {
          return Err(CatalogError.Store(state.error));
        }
        if state.value.includeHidden != request.includeHidden {
          return Err(BadCursor);
        }
        if state.value.VirtualState? {
          var page := PaginateVirtualModels(state.value.virtuals, limit.value, request.includeHidden, later, randoms);
          return if page.Ok? then Ok(ReturnVirtual(page.value)) else Err(page.error);
        }
        return Ok(Forward(ContextOf(state.value, limit.value)));
      }
      return Ok(Forward(Context(request.cursor.None?, request.includeHidden, limit.value, request.cursor, {}, {},
                                source)));
    }

    method PaginateVirtualModels(virtuals: seq<Model>, limit: nat, includeHidden: bool, now: int, randoms: seq<Text>)
      returns (r: Result<Page, CatalogError>)
      requires Valid() && |randoms| == ATTEMPTS
      modifies store
      ensures Valid()
      ensures Answer(store.entries, r) ==
              Publish(old(store.entries), VirtualTurn(virtuals, limit, includeHidden), now, randoms, store.st)
    {
      hide Sound, CreateOp;
      var data := virtuals[..Least(limit, |virtuals|)];
      var remaining := virtuals[|data|..];
      if remaining == [] {
        return Ok(Page(data, None));
      }
      var next := store.Create(VirtualState(includeHidden, remaining), now, randoms);
      return if next.Ok? then Ok(Page(data, Some(next.value))) else Err(CatalogError.Store(next.error));
    }

    method MergeNativePage(c: Context, page: NativePage, now: int, randoms: seq<Text>)
      returns (r: Result<Page, CatalogError>)
      requires Valid() && |randoms| == ATTEMPTS
      modifies store
      ensures Valid() && Answer(store.entries, r) == MergeOp(old(store.entries), c, page, now, randoms, reserved,
                                                             store.st)
    {
      hide Sound, CreateOp, NoCollision, ValidEntries, Ids, Names;
      if !ValidPage(page) {
        return Err(InvalidModelPage);
      }
      var ids, models := Observe(c, page.data);
      if |ids| > MAX_OBSERVED_NATIVE_MODELS || |models| > MAX_OBSERVED_NATIVE_MODELS {
        return Err(InvalidModelPage);
      }
      var collides := Collides(ids, models, c.virtuals);
      if collides {
        return Err(ModelCollision);
      }
      if page.next.Some? {
        var next := store.Create(NativeState(c.complete, c.includeHidden, ids, models, page.next.value, c.virtuals),
                                 now, randoms);
        return if next.Ok? then Ok(Page(page.data, Some(next.value))) else Err(CatalogError.Store(next.error));
      }
      if !c.complete || c.virtuals == [] {
        assert page.data + [] == page.data;
        return Ok(Page(page.data, None));
      }
      var slots := if c.limit > |page.data| then c.limit - |page.data| else 0;
      var appended := c.virtuals[..Least(slots, |c.virtuals|)];
      var remaining := c.virtuals[|appended|..];
      if remaining == [] {
        return Ok(Page(page.data + appended, None));
      }
      var next := store.Create(VirtualState(c.includeHidden, remaining), now, randoms);
      return if next.Ok? then Ok(Page(page.data + appended, Some(next.value))) else Err(CatalogError.Store(next.error));
    }

    method Observe(c: Context, data: seq<Model>) returns (ids: set<Text>, models: set<Text>)
      ensures ids == c.ids + Ids(data) && models == c.models + Names(data)
    {
      ids, models := c.ids, c.models;
      for i := 0 to |data|
        invariant ids == c.ids + Ids(data[..i]) && models == c.models + Names(data[..i])
      {
        KeysConcat(data[..i], [data[i]]);
        assert data[..i] + [data[i]] == data[..i + 1];
        KeysOfOne(data[i]);
        ids, models := ids + {data[i].id}, models + {data[i].model};
      }
      assert data[..|data|] == data;
    }

    method Collides(ids: set<Text>, models: set<Text>, virtuals: seq<Model>) returns (found: bool)
      ensures found <==> !NoCollision(ids, models, virtuals, reserved)
    {
      for i := 0 to |virtuals|
        invariant forall k :: 0 <= k < i ==> virtuals[k].id !in ids && virtuals[k].model !in models
      {
        if virtuals[i].id in ids || virtuals[i].model in models {
          return true;
        }
      }
      var rest := ids + models;
      while rest != {}
        invariant rest <= ids + models
        invariant forall x :: (x in ids || x in models) && x !in rest ==> !reserved(x)
      {
        var x :| x in rest;
        if reserved(x) {
          return true;
        }
        rest := rest - {x};
      }
      return false;
    }
  }

  lemma KeysOfOne(m: Model)
    ensures Ids([m]) == {m.id} && Names([m]) == {m.model}
  {
  }
}
