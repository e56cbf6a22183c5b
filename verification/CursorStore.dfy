/**
  The expiring, insertion-ordered store behind opaque cursors.  Clock readings and random
  strings are arguments: `randoms` holds what the entropy source would return, in order.
 */
module CursorStore {
  import opened Results
  import opened Utf16
  import opened Decimal

  const ATTEMPTS := 8
  const MIN_ENTROPY_LENGTH := 16
  const MAX_ENTROPY_LENGTH := 256

  datatype CursorError = InvalidCursor | CursorExpired | GenerationFailed | InvalidConfiguration

  datatype Entry<+T> = Entry(cursor: Text, expiresAt: int, value: T)

  /** A store after a call, and what the call returned or threw. */
  datatype After<+T, +R> = After(entries: seq<Entry<T>>, result: Result<R, CursorError>)

  datatype Settings = Settings(maxEntries: nat, ttl: nat, prefix: Text)

  /** One call of the public interface. */
  datatype Op<+T> = Create(value: T, now: int, randoms: seq<Text>) | Read(cursor: Text, now: int) | Size(now: int)

  predicate ValidClock(now: int) {
    0 <= now <= MAX_SAFE_INTEGER
  }

  predicate UrlSafe(c: CodeUnit) {
    0x30 <= c <= 0x39 || 0x41 <= c <= 0x5A || 0x61 <= c <= 0x7A || c == 0x2D || c == 0x5F
  }

  predicate ValidEntropy(s: Text) {
    MIN_ENTROPY_LENGTH <= |s| <= MAX_ENTROPY_LENGTH && forall i :: 0 <= i < |s| ==> UrlSafe(s[i])
  }

  predicate Owns(cursor: Text, prefix: Text) {
    prefix <= cursor
  }

  // ----- specification -----

  predicate Has<T>(entries: seq<Entry<T>>, cursor: Text) {
    exists i :: 0 <= i < |entries| && entries[i].cursor == cursor
  }

  function Find<T>(entries: seq<Entry<T>>, cursor: Text): Option<Entry<T>> {
    if entries == [] then None
    else if entries[0].cursor == cursor then Some(entries[0])
    else Find(entries[1..], cursor)
  }

  function Prune<T>(entries: seq<Entry<T>>, now: int): seq<Entry<T>> {
    if entries == [] then []
    else (if entries[0].expiresAt <= now then [] else [entries[0]]) + Prune(entries[1..], now)
  }

  /** The first new cursor among the next attempts. */
  function Fresh<T>(entries: seq<Entry<T>>, prefix: Text, randoms: seq<Text>): Result<Text, CursorError> {
    if randoms == [] then Err(GenerationFailed)
    else if !ValidEntropy(randoms[0]) then Err(GenerationFailed)
    else if Find(entries, prefix + randoms[0]).Some? then Fresh(entries, prefix, randoms[1..])
    else Ok(prefix + randoms[0])
  }

  function Evict<T>(entries: seq<Entry<T>>, maxEntries: nat): seq<Entry<T>> {
    if |entries| < maxEntries || entries == [] then entries else entries[1..]
  }

  /** `create`: an expiry out of range is found only after an old entry has made room. */
  function CreateOp<T>(entries: seq<Entry<T>>, value: T, now: int, randoms: seq<Text>, st: Settings): After<T, Text>
    requires |randoms| == ATTEMPTS
  {
    if !ValidClock(now) then After(entries, Err(InvalidConfiguration))
    else
      var pruned := Prune(entries, now);
      var cursor := Fresh(pruned, st.prefix, randoms);
      if cursor.Err? then After(pruned, Err(cursor.error))
      else
        var room := Evict(pruned, st.maxEntries);
        if !ValidClock(now + st.ttl) then After(room, Err(InvalidConfiguration))
        else After(room + [Entry(cursor.value, now + st.ttl, value)], Ok(cursor.value))
  }

  function ReadOp<T>(entries: seq<Entry<T>>, cursor: Text, now: int, st: Settings): After<T, T> {
    if !Owns(cursor, st.prefix) then After(entries, Err(InvalidCursor))
    else if !ValidClock(now) then After(entries, Err(InvalidConfiguration))
    else
      match Find(entries, cursor)
      case None => After(Prune(entries, now), Err(InvalidCursor))
      case Some(e) =>
        if e.expiresAt <= now then After(Prune(entries, now), Err(CursorExpired))
        else After(Prune(entries, now), Ok(e.value))
  }

  predicate WellFormed<T>(op: Op<T>) {
    op.Create? ==> |op.randoms| == ATTEMPTS
  }

  function Step<T>(entries: seq<Entry<T>>, op: Op<T>, st: Settings): seq<Entry<T>>
    requires WellFormed(op)
  {
    match op
    case Create(value, now, randoms) => CreateOp(entries, value, now, randoms, st).entries
    case Read(cursor, now) => ReadOp(entries, cursor, now, st).entries
    case Size(now) => if ValidClock(now) then Prune(entries, now) else entries
  }

  function Run<T>(entries: seq<Entry<T>>, ops: seq<Op<T>>, st: Settings): seq<Entry<T>>
    requires forall i :: 0 <= i < |ops| ==> WellFormed(ops[i])
    decreases |ops|
  {
    if ops == [] then entries else Run(Step(entries, ops[0], st), ops[1..], st)
  }

  function Creates<T>(ops: seq<Op<T>>): nat {
    if ops == [] then 0 else (if ops[0].Create? then 1 else 0) + Creates(ops[1..])
  }

  // ----- what every call keeps -----

  ghost predicate Distinct<T>(entries: seq<Entry<T>>) {
    forall i, j :: 0 <= i < j < |entries| ==> entries[i].cursor != entries[j].cursor
  }

  ghost predicate Sound<T>(entries: seq<Entry<T>>, st: Settings) {
    && |entries| <= st.maxEntries && Distinct(entries)
    && (forall i :: 0 <= i < |entries| ==> Owns(entries[i].cursor, st.prefix))
  }

  lemma {:induction false} FindNone<T>(entries: seq<Entry<T>>, cursor: Text)
    ensures Find(entries, cursor).None? <==> !Has(entries, cursor)
  {
    if entries != [] {
      FindNone(entries[1..], cursor);
      if Has(entries[1..], cursor) {
        var i :| 0 <= i < |entries[1..]| && entries[1..][i].cursor == cursor;
        assert entries[i + 1].cursor == cursor;
      }
      if Has(entries, cursor) && entries[0].cursor != cursor {
        var i :| 0 <= i < |entries| && entries[i].cursor == cursor;
        assert entries[1..][i - 1].cursor == cursor;
      }
    }
  }

  lemma {:induction false} FindAt<T>(entries: seq<Entry<T>>, i: nat)
    requires i < |entries| && Distinct(entries)
    ensures Find(entries, entries[i].cursor) == Some(entries[i])
  {
    if i > 0 {
      FindAt(entries[1..], i - 1);
      assert entries[0].cursor != entries[i].cursor;
    }
  }

  /** What pruning keeps, in order: an entry that has not expired stays, with no more behind it than before. */
  lemma {:induction false} PruneKeeps<T>(entries: seq<Entry<T>>, now: int, i: nat)
    requires i < |entries| && entries[i].expiresAt > now
    ensures exists j :: 0 <= j < |Prune(entries, now)| && Prune(entries, now)[j] == entries[i]
                        && |Prune(entries, now)| - j <= |entries| - i
    ensures |Prune(entries, now)| <= |entries|
  {
    PruneSize(entries[1..], now);
    var rest := Prune(entries[1..], now);
    var p := Prune(entries, now);
    if i == 0 {
      assert p[0] == entries[0];
    } else {
      PruneKeeps(entries[1..], now, i - 1);
      var j :| 0 <= j < |rest| && rest[j] == entries[1..][i - 1] && |rest| - j <= |entries[1..]| - (i - 1);
      if entries[0].expiresAt <= now {
        assert p == rest;
        assert p[j] == entries[i];
      } else {
        assert p[j + 1] == entries[i];
      }
    }
  }

  lemma {:induction false} PruneSize<T>(entries: seq<Entry<T>>, now: int)
    ensures |Prune(entries, now)| <= |entries|
    ensures forall e :: e in Prune(entries, now) ==> e in entries && e.expiresAt > now
  {
    if entries != [] {
      PruneSize(entries[1..], now);
    }
  }

  lemma {:induction false} PruneSound<T>(entries: seq<Entry<T>>, now: int, st: Settings)
    requires Sound(entries, st)
    ensures Sound(Prune(entries, now), st)
  {
    if entries != [] {
      PruneSound(entries[1..], now, st);
      PruneSize(entries[1..], now);
      PruneSize(entries, now);
      var rest := Prune(entries[1..], now);
      forall e | e in rest ensures e.cursor != entries[0].cursor {
        var i :| 0 <= i < |entries[1..]| && entries[1..][i] == e;
        assert entries[i + 1] == e;
      }
    }
  }

  lemma {:induction false} FreshIsNew<T>(entries: seq<Entry<T>>, prefix: Text, randoms: seq<Text>)
    requires Fresh(entries, prefix, randoms).Ok?
    ensures var c := Fresh(entries, prefix, randoms).value; Owns(c, prefix) && !Has(entries, c)
    ensures var n := |Fresh(entries, prefix, randoms).value|;
            |prefix| + MIN_ENTROPY_LENGTH <= n <= |prefix| + MAX_ENTROPY_LENGTH
  {
    hide Has;
    if Find(entries, prefix + randoms[0]).Some? {
      FreshIsNew(entries, prefix, randoms[1..]);
    } else {
      FindNone(entries, prefix + randoms[0]);
    }
  }

  lemma CreateSound<T>(entries: seq<Entry<T>>, value: T, now: int, randoms: seq<Text>, st: Settings)
    requires Sound(entries, st) && |randoms| == ATTEMPTS && 1 <= st.maxEntries
    ensures Sound(CreateOp(entries, value, now, randoms, st).entries, st)
  {
    hide Fresh;
    var pruned := Prune(entries, now);
    PruneSound(entries, now, st);
    if Fresh(pruned, st.prefix, randoms).Ok? {
      FreshIsNew(pruned, st.prefix, randoms);
    }
  }

  /** No call leaves more entries than the capacity, or two with one cursor. */
  lemma StepSound<T>(entries: seq<Entry<T>>, op: Op<T>, st: Settings)
    requires Sound(entries, st) && WellFormed(op) && 1 <= st.maxEntries
    ensures Sound(Step(entries, op, st), st)
  {
    hide Sound, CreateOp, Find, Prune;
    match op
    case Create(value, now, randoms) => CreateSound(entries, value, now, randoms, st);
    case Read(_, now) => PruneSound(entries, now, st);
    case Size(now) => PruneSound(entries, now, st);
  }

  /** Nor does any run of calls. */
  lemma {:induction false} RunSound<T>(entries: seq<Entry<T>>, ops: seq<Op<T>>, st: Settings)
    requires Sound(entries, st) && 1 <= st.maxEntries && forall i :: 0 <= i < |ops| ==> WellFormed(ops[i])
    ensures Sound(Run(entries, ops, st), st)
    decreases |ops|
  {
    hide Sound, Step;
    if ops != [] {
      StepSound(entries, ops[0], st);
      RunSound(Step(entries, ops[0], st), ops[1..], st);
    }
  }

  // ----- how long a cursor lasts -----

  /** The entry is stored with at most `behind` younger ones. */
  ghost predicate Stored<T>(entries: seq<Entry<T>>, e: Entry<T>, behind: int) {
    exists i :: 0 <= i < |entries| && entries[i] == e && |entries| - 1 - i <= behind
  }

  /** Whether a call reads a clock that has reached the time. */
  predicate Reaches<T>(op: Op<T>, time: int) {
    ValidClock(op.now) && time <= op.now
  }

  lemma PruneStored<T>(entries: seq<Entry<T>>, now: int, e: Entry<T>, behind: int)
    requires Stored(entries, e, behind) && now < e.expiresAt
    ensures Stored(Prune(entries, now), e, behind)
  {
    hide Prune;
    var i :| 0 <= i < |entries| && entries[i] == e && |entries| - 1 - i <= behind;
    PruneKeeps(entries, now, i);
  }

  lemma CreateStored<T>(entries: seq<Entry<T>>, value: T, now: int, randoms: seq<Text>, st: Settings, e: Entry<T>,
                        behind: int)
    requires Sound(entries, st) && |randoms| == ATTEMPTS && Stored(entries, e, behind)
    requires behind + 1 < st.maxEntries && (ValidClock(now) ==> now < e.expiresAt)
    ensures Stored(CreateOp(entries, value, now, randoms, st).entries, e, behind + 1)
  {
    hide Fresh, Prune, Sound;
    if ValidClock(now) {
      var pruned := Prune(entries, now);
      PruneStored(entries, now, e, behind);
      var i :| 0 <= i < |pruned| && pruned[i] == e && |pruned| - 1 - i <= behind;
      var r := CreateOp(entries, value, now, randoms, st).entries;
      var j := if Fresh(pruned, st.prefix, randoms).Ok? && st.maxEntries <= |pruned| then i - 1 else i;
      assert r[j] == e;
    } else {
      var i :| 0 <= i < |entries| && entries[i] == e && |entries| - 1 - i <= behind;
      assert CreateOp(entries, value, now, randoms, st).entries[i] == e;
    }
  }

  lemma StepStored<T>(entries: seq<Entry<T>>, op: Op<T>, st: Settings, e: Entry<T>, behind: int)
    requires Sound(entries, st) && WellFormed(op) && Stored(entries, e, behind) && !Reaches(op, e.expiresAt)
    requires op.Create? ==> behind + 1 < st.maxEntries
    ensures Stored(Step(entries, op, st), e, behind + if op.Create? then 1 else 0)
  {
    hide Sound, Stored, CreateOp, Prune, Find;
    match op
    case Create(value, now, randoms) => CreateStored(entries, value, now, randoms, st, e, behind);
    case Read(_, now) =>
      if ValidClock(now) {
        PruneStored(entries, now, e, behind);
      }
    case Size(now) =>
      if ValidClock(now) {
        PruneStored(entries, now, e, behind);
      }
  }

  lemma {:induction false} RunStored<T>(entries: seq<Entry<T>>, ops: seq<Op<T>>, st: Settings, e: Entry<T>, behind: nat)
    requires forall i :: 0 <= i < |ops| ==> WellFormed(ops[i]) && !Reaches(ops[i], e.expiresAt)
    requires Sound(entries, st) && Stored(entries, e, behind) && behind + Creates(ops) < st.maxEntries
    ensures Sound(Run(entries, ops, st), st) && Stored(Run(entries, ops, st), e, behind + Creates(ops))
    decreases |ops|
  {
    hide Sound, Stored, Step, Reaches;
    if ops != [] {
      StepSound(entries, ops[0], st);
      StepStored(entries, ops[0], st, e, behind);
      RunStored(Step(entries, ops[0], st), ops[1..], st, e, behind + if ops[0].Create? then 1 else 0);
    }
  }

  lemma ReadStored<T>(entries: seq<Entry<T>>, now: int, st: Settings, e: Entry<T>, behind: int)
    requires Sound(entries, st) && Stored(entries, e, behind) && ValidClock(now) && now < e.expiresAt
    ensures ReadOp(entries, e.cursor, now, st).result == Ok(e.value)
  {
    var i :| 0 <= i < |entries| && entries[i] == e && |entries| - 1 - i <= behind;
    FindAt(entries, i);
  }

  lemma CreatedStored<T>(entries: seq<Entry<T>>, value: T, now: int, randoms: seq<Text>, st: Settings)
    requires |randoms| == ATTEMPTS && CreateOp(entries, value, now, randoms, st).result.Ok?
    ensures var created := CreateOp(entries, value, now, randoms, st);
            Stored(created.entries, Entry(created.result.value, now + st.ttl, value), 0)
  {
    hide Prune, Fresh, Evict;
    var created := CreateOp(entries, value, now, randoms, st);
    assert created.entries[|created.entries| - 1] == Entry(created.result.value, now + st.ttl, value);
  }

  /**
    A cursor reads back its value until a call observes its expiry or as many further create
    calls as the capacity have been made, whatever else is called in between.
   */
  lemma CursorLasts<T>(entries: seq<Entry<T>>, value: T, now: int, randoms: seq<Text>, ops: seq<Op<T>>, later: int,
                       st: Settings)
    requires Sound(entries, st) && |randoms| == ATTEMPTS
    requires CreateOp(entries, value, now, randoms, st).result.Ok? && Creates(ops) < st.maxEntries
    requires forall i :: 0 <= i < |ops| ==> WellFormed(ops[i]) && !Reaches(ops[i], now + st.ttl)
    requires ValidClock(later) && later < now + st.ttl
    ensures var created := CreateOp(entries, value, now, randoms, st);
            && Sound(Run(created.entries, ops, st), st)
            && ReadOp(Run(created.entries, ops, st), created.result.value, later, st).result == Ok(value)
  {
    hide Run, Reaches, Sound, CreateOp, ReadOp, Stored;
    var created := CreateOp(entries, value, now, randoms, st);
    var e := Entry(created.result.value, now + st.ttl, value);
    CreateSound(entries, value, now, randoms, st);
    CreatedStored(entries, value, now, randoms, st);
    RunStored(created.entries, ops, st, e, 0);
    ReadStored(Run(created.entries, ops, st), later, st, e, Creates(ops));
  }

  // ----- the store object -----

  class OpaqueCursorStore<T> {
    const st: Settings
    var entries: seq<Entry<T>>

    ghost predicate Valid()
      reads this
    {
      1 <= st.maxEntries && Sound(entries, st)
    }

    constructor (st: Settings)
      requires 1 <= st.maxEntries && 1 <= st.ttl && 1 <= |st.prefix| <= 128
      ensures Valid() && entries == [] && this.st == st
    {
      this.st, entries := st, [];
    }

    method Create(value: T, now: int, randoms: seq<Text>) returns (r: Result<Text, CursorError>)
      requires Valid() && |randoms| == ATTEMPTS
      modifies this
      ensures Valid() && After(entries, r) == CreateOp(old(entries), value, now, randoms, st)
    {
      hide Sound, Prune, Find, ValidEntropy;
      CreateSound(entries, value, now, randoms, st);
      if !ValidClock(now) {
        return Err(InvalidConfiguration);
      }
      PruneExpired(now);
      var attempt := 0;
      assert randoms[0..] == randoms;
      while attempt < ATTEMPTS
        invariant 0 <= attempt <= ATTEMPTS
        invariant entries == Prune(old(entries), now)
        invariant Fresh(entries, st.prefix, randoms) == Fresh(entries, st.prefix, randoms[attempt..])
      {
        var entropy := randoms[attempt];
        if !ValidEntropy(entropy) {
          return Err(GenerationFailed);
        }
        var cursor := st.prefix + entropy;
        assert randoms[attempt..][1..] == randoms[attempt + 1..];
        if Find(entries, cursor).None? {
          entries := Evict(entries, st.maxEntries);
          if !ValidClock(now + st.ttl) {
            return Err(InvalidConfiguration);
          }
          entries := entries + [Entry(cursor, now + st.ttl, value)];
          return Ok(cursor);
        }
        attempt := attempt + 1;
      }
      return Err(GenerationFailed);
    }

    method Read(cursor: Text, now: int) returns (r: Result<T, CursorError>)
      requires Valid()
      modifies this
      ensures Valid() && After(entries, r) == ReadOp(old(entries), cursor, now, st)
    {
      hide Sound, Prune, Find;
      PruneSound(entries, now, st);
      if !Owns(cursor, st.prefix) {
        return Err(InvalidCursor);
      }
      if !ValidClock(now) {
        return Err(InvalidConfiguration);
      }
      var stored := Find(entries, cursor);
      PruneExpired(now);
      return if stored.None? then Err(InvalidCursor)
             else if stored.value.expiresAt <= now then Err(CursorExpired)
             else Ok(stored.value.value);
    }

    method ActiveSize(now: int) returns (r: Result<nat, CursorError>)
      requires Valid()
      modifies this
      ensures Valid() && entries == Step(old(entries), Size(now), st)
      ensures r == if ValidClock(now) then Ok(|entries|) else Err(InvalidConfiguration)
    {
      hide Sound, Prune;
      PruneSound(entries, now, st);
      if !ValidClock(now) {
        return Err(InvalidConfiguration);
      }
      PruneExpired(now);
      return Ok(|entries|);
    }

    method PruneExpired(now: int)
      modifies this
      ensures entries == Prune(old(entries), now)
    {
      hide Prune;
      var kept: seq<Entry<T>> := [];
      var i := 0;
      assert entries[0..] == entries && [] + Prune(entries, now) == Prune(entries, now);
      while i < |entries|
        invariant 0 <= i <= |entries|
        invariant Prune(entries, now) == kept + Prune(entries[i..], now)
        modifies {}
      {
        PruneNext(kept, entries, i, now);
        if entries[i].expiresAt > now {
          kept := kept + [entries[i]];
        }
        i := i + 1;
      }
      PruneNothing<T>(now);
      assert entries[i..] == [];
      assert kept + [] == kept;
      entries := kept;
    }
  }

  lemma PruneNothing<T>(now: int)
    ensures Prune<T>([], now) == []
  {
  }

  lemma PruneNext<T>(kept: seq<Entry<T>>, entries: seq<Entry<T>>, i: nat, now: int)
    requires i < |entries|
    ensures kept + Prune(entries[i..], now) ==
            (if entries[i].expiresAt > now then kept + [entries[i]] else kept) + Prune(entries[i + 1..], now)
  {
    var rest := Prune(entries[i + 1..], now);
    assert entries[i..][1..] == entries[i + 1..];
    assert kept + ([entries[i]] + rest) == (kept + [entries[i]]) + rest;
    assert kept + ([] + rest) == kept + rest;
  }
}
