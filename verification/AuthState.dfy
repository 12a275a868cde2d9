/**
 The auth state of one chip (apps/session-worker/src/baileys/postgres-auth-state.ts): an in-memory
 key store, and a write coalescer that copies it to the chip's row with at most one write in flight.

 `runWrites` is cut at its `await`: every call of it that has been started and has not returned is one
 element of `loops`, holding the snapshot its update carries. `Land` is the moment the row takes the
 value and `Resolve`/`Reject` the later moment at which the coroutine resumes.
 */
module AuthState {
  import opened Prelude

  type KeyStore = map<string, map<string, string>>

  datatype Memory = Memory(creds: string, keys: KeyStore)

  // ---------------------------------------------------------------- the key store

  /** Updates of one bucket in key order; None stands for null or undefined and deletes the id. */
  type Entries = seq<(string, Option<string>)>

  type KeyData = seq<(string, Entries)>

  type PlainStore = map<(string, string), string>

  /** The key store as one flat map: buckets, empty ones included, are not observable. */
  function Plain(keys: KeyStore): PlainStore {
    map kind, id | kind in keys && id in keys[kind] :: (kind, id) := keys[kind][id]
  }

  function PlainPut(m: PlainStore, kind: string, id: string, value: Option<string>): PlainStore {
    if value.Some? then m[(kind, id) := value.value] else m - {(kind, id)}
  }

  function PlainBucket(m: PlainStore, kind: string, entries: Entries): PlainStore {
    if entries == [] then m
    else
      var n := |entries| - 1;
      PlainPut(PlainBucket(m, kind, entries[..n]), kind, entries[n].0, entries[n].1)
  }

  function PlainSet(m: PlainStore, data: KeyData): PlainStore {
    if data == [] then m
    else
      var n := |data| - 1;
      PlainBucket(PlainSet(m, data[..n]), data[n].0, data[n].1)
  }

  // ---------------------------------------------------------------- the coalescer

  /** An update on its way: the snapshot it carries and whether the row already holds it. */
  datatype Write = Write(snapshot: Memory, landed: bool)

  datatype Store = Store(memory: Memory, dirty: bool, writing: bool, loops: seq<Write>, row: Option<Memory>)

  datatype Event =
    | Mutate(memory: Memory)
    | Persist
    | Land(loop: nat)
    | Resolve(loop: nat)
    | Reject(loop: nat)

  predicate Enabled(s: Store, e: Event) {
    match e
    case Mutate(_) => true
    case Persist => true
    case Land(i) => i < |s.loops|
    case Resolve(i) => i < |s.loops| && s.loops[i].landed
    case Reject(i) => i < |s.loops|
  }

  function Without<T>(s: seq<T>, i: nat): seq<T>
    requires i < |s|
  {
    s[..i] + s[i + 1..]
  }

  function Step(s: Store, e: Event): Store
    requires Enabled(s, e)
  {
    match e
    case Mutate(m) => s.(memory := m)
    case Persist =>
      if s.writing then s.(dirty := true)
      else s.(dirty := false, writing := true, loops := s.loops + [Write(s.memory, false)])
    case Land(i) =>
      s.(row := Some(s.loops[i].snapshot), loops := s.loops[i := s.loops[i].(landed := true)])
    case Resolve(i) =>
      if s.dirty then s.(dirty := false, loops := s.loops[i := Write(s.memory, false)])
      else s.(writing := false, loops := Without(s.loops, i))
    case Reject(i) => s.(dirty := true, writing := false, loops := Without(s.loops, i))
  }

  // ---------------------------------------------------------------- observed runs

  /**
   A run with what an observer records beside it: every value the memory has had, which of them the last
   `persist` call saw, which ones the writes in flight carry, and which one the row holds.
   */
  datatype Trace = Trace(
    s: Store,
    history: seq<Memory>,
    asked: Option<nat>,
    flight: seq<nat>,
    saved: Option<nat>,
    persists: nat,
    writes: nat)

  function Observe(t: Trace, e: Event): Trace
    requires Enabled(t.s, e) && |t.flight| == |t.s.loops| && t.history != []
  {
    var s', last := Step(t.s, e), |t.history| - 1;
    match e
    case Mutate(m) => t.(s := s', history := t.history + [m])
    case Persist =>
      if t.s.writing then t.(s := s', asked := Some(last), persists := t.persists + 1)
      else t.(s := s', asked := Some(last), flight := t.flight + [last],
              persists := t.persists + 1, writes := t.writes + 1)
    case Land(i) => t.(s := s', saved := Some(t.flight[i]))
    case Resolve(i) =>
      if t.s.dirty then t.(s := s', flight := t.flight[i := last], writes := t.writes + 1)
      else t.(s := s', flight := Without(t.flight, i))
    case Reject(i) => t.(s := s', flight := Without(t.flight, i))
  }

  ghost predicate Possible(t: Trace, es: seq<Event>)
    decreases |es|
  {
    |t.flight| == |t.s.loops| && t.history != [] &&
    (es == [] || (Enabled(t.s, es[0]) && Possible(Observe(t, es[0]), es[1..])))
  }

  ghost function Run(t: Trace, es: seq<Event>): Trace
    requires Possible(t, es)
    decreases |es|
  {
    if es == [] then t else Run(Observe(t, es[0]), es[1..])
  }

  /** The state `usePostgresAuthState` returns: memory as loaded, nothing asked for, nothing in flight. */
  function Opened(m: Memory, row: Option<Memory>): Trace {
    Trace(Store(m, false, false, [], row), [m], None, [], None, 0, 0)
  }

  /** Index `k` is at least the one the last `persist` saw. */
  predicate Covers(t: Trace, k: nat) {
    t.asked.Some? ==> t.asked.value <= k
  }

  predicate FlightAt(t: Trace, i: nat)
    requires i < |t.flight| == |t.s.loops|
  {
    t.flight[i] < |t.history| && t.s.loops[i].snapshot == t.history[t.flight[i]]
  }

  /** The observer's marks are marks in the history, and say what the store holds. */
  ghost predicate Marked(t: Trace, row0: Option<Memory>) {
    && t.history != [] && t.s.memory == t.history[|t.history| - 1]
    && (t.asked.Some? ==> t.asked.value < |t.history|)
    && |t.flight| == |t.s.loops|
    && (forall i :: 0 <= i < |t.flight| ==> FlightAt(t, i))
    && t.s.row == (if t.saved.Some? && t.saved.value < |t.history| then Some(t.history[t.saved.value]) else row0)
    && (t.saved.Some? ==> t.saved.value < |t.history|)
  }

  ghost predicate Inv(t: Trace, row0: Option<Memory>) {
    && Marked(t, row0)
    // single flight, and `writing` says so
    && |t.s.loops| == (if t.s.writing then 1 else 0) && (t.s.writing ==> t.asked.Some?)
    // the row is never ahead of the write in flight
    && (t.s.writing && t.saved.Some? ==> t.saved.value <= t.flight[0])
    && (t.s.writing && t.s.loops[0].landed ==> t.saved == Some(t.flight[0]))
    // no update is lost: what was asked for is in flight or saved, unless `dirty` remembers it
    && (!t.s.dirty && t.s.writing ==> Covers(t, t.flight[0]))
    && (!t.s.dirty && !t.s.writing && t.asked.Some? ==> t.saved.Some? && Covers(t, t.saved.value))
    // every write started answers a `persist` of its own
    && t.writes + (if t.s.dirty && t.s.writing then 1 else 0) <= t.persists
  }

  lemma ObserveKeepsMarks(t: Trace, e: Event, row0: Option<Memory>)
    requires Marked(t, row0) && Enabled(t.s, e)
    ensures Marked(Observe(t, e), row0)
  {
    var t' := Observe(t, e);
    if e.Land? || e.Resolve? || e.Reject? {
      assert FlightAt(t, e.loop);
    }
    forall i | 0 <= i < |t'.flight| ensures FlightAt(t', i) {
      if i < |t.flight| {
        assert FlightAt(t, i);
      }
      if i + 1 < |t.flight| {
        assert FlightAt(t, i + 1);
      }
    }
  }

  lemma ObserveKeepsInv(t: Trace, e: Event, row0: Option<Memory>)
    requires Inv(t, row0) && Enabled(t.s, e)
    ensures Inv(Observe(t, e), row0)
  {
    ObserveKeepsMarks(t, e, row0);
  }

  lemma {:induction false} RunKeepsInv(t: Trace, es: seq<Event>, row0: Option<Memory>)
    requires Inv(t, row0) && Possible(t, es)
    ensures Inv(Run(t, es), row0)
    decreases |es|
  {
    if es != [] {
      ObserveKeepsInv(t, es[0], row0);
      RunKeepsInv(Observe(t, es[0]), es[1..], row0);
    }
  }

  /** In every interleaving: one write in flight at most, `writing` is never stuck, snapshots are current. */
  lemma SingleFlight(m: Memory, row0: Option<Memory>, es: seq<Event>)
    requires Possible(Opened(m, row0), es)
    ensures var t := Run(Opened(m, row0), es);
      && |t.s.loops| <= 1
      && (t.s.writing <==> |t.s.loops| == 1)
      && (t.s.writing && !t.s.dirty && t.asked == Some(|t.history| - 1) ==>
            t.s.loops[0].snapshot == t.s.memory)
  {
    RunKeepsInv(Opened(m, row0), es, row0);
    var t := Run(Opened(m, row0), es);
    assert t.s.writing ==> FlightAt(t, 0);
  }

  /**
   No update is lost: whenever the coalescer is idle and clean the row holds a value of the memory at
   least as new as the one the last `persist` call saw; if nothing changed since, it holds the memory.
   */
  lemma NoUpdateLost(m: Memory, row0: Option<Memory>, es: seq<Event>)
    requires Possible(Opened(m, row0), es)
    ensures var t := Run(Opened(m, row0), es);
      !t.s.writing && !t.s.dirty && t.asked.Some? ==>
        && (exists k :: t.asked.value <= k < |t.history| && t.s.row == Some(t.history[k]))
        && (t.asked.value == |t.history| - 1 ==> t.s.row == Some(t.s.memory))
  {
    RunKeepsInv(Opened(m, row0), es, row0);
  }

  /** Being idle and still dirty takes a failed write: without failures idle always means saved. */
  lemma {:induction false} IdleIsCleanWithoutFailures(t: Trace, es: seq<Event>, row0: Option<Memory>)
    requires Inv(t, row0) && Possible(t, es)
    requires !t.s.writing ==> !t.s.dirty
    requires forall e :: e in es ==> !e.Reject?
    ensures var t' := Run(t, es); !t'.s.writing ==> !t'.s.dirty
    decreases |es|
  {
    if es != [] {
      ObserveKeepsInv(t, es[0], row0);
      assert es[0] in es;
      IdleIsCleanWithoutFailures(Observe(t, es[0]), es[1..], row0);
    }
  }

  /** A write fails, and `persist` is called again. */
  function Retried(t: Trace): Trace
    requires t.s.writing && |t.flight| == |t.s.loops| == 1 && t.history != []
  {
    Observe(Observe(t, Reject(0)), Persist)
  }

  /** What the row holds is at least as new as what the last `persist` saw. */
  ghost predicate Repaired(t: Trace) {
    && !t.s.dirty
    && t.asked.Some? && t.saved.Some? && t.asked.value <= t.saved.value < |t.history|
    && t.s.row == Some(t.history[t.saved.value])
    && (t.asked.value == |t.history| - 1 ==> t.s.row == Some(t.s.memory))
  }

  lemma {:induction false} AskedStays(t: Trace, es: seq<Event>)
    requires Possible(t, es) && t.asked.Some?
    ensures Run(t, es).asked.Some?
    decreases |es|
  {
    if es != [] {
      AskedStays(Observe(t, es[0]), es[1..]);
    }
  }

  /**
   A failed write is repaired by the next `persist`, at any point of any run and whatever is mutated or asked
   for meanwhile: if no write fails after the retry, then whenever the coalescer is idle again the row covers
   every `persist` made, and is the memory when nothing changed since the last of them. And should a write fail
   once more, at any moment, `writing` is free again, so that the same holds of the next `persist`.
   */
  lemma FailureIsRepaired(t: Trace, row0: Option<Memory>, es: seq<Event>)
    requires Inv(t, row0) && t.s.writing
    requires Possible(Retried(t), es) && (forall e :: e in es ==> !e.Reject?)
    ensures var t' := Run(Retried(t), es);
      && Inv(t', row0)
      && (!t'.s.writing ==> Repaired(t'))
      && (t'.s.writing ==> var again := Step(t'.s, Reject(0)); again.dirty && !again.writing && again.loops == [])
  {
    var failed := Observe(t, Reject(0));
    ObserveKeepsInv(t, Reject(0), row0);
    ObserveKeepsInv(failed, Persist, row0);
    RunKeepsInv(Retried(t), es, row0);
    IdleIsCleanWithoutFailures(Retried(t), es, row0);
    AskedStays(Retried(t), es);
  }

  /** The steps of a coalescer left alone with a database that works: land and return, twice if it is dirty. */
  function Settling(dirty: bool): seq<Event> {
    if dirty then [Land(0), Resolve(0)] + Settling(false) else [Land(0), Resolve(0)]
  }

  lemma LandAndReturn(t: Trace, row0: Option<Memory>, rest: seq<Event>)
    requires Inv(t, row0) && t.s.writing
    ensures var t' := Observe(Observe(t, Land(0)), Resolve(0));
      && Inv(t', row0) && t'.history == t.history && t'.asked == t.asked
      && t'.s.writing == t.s.dirty && !t'.s.dirty
      && (Possible(t', rest) ==>
            Possible(t, [Land(0), Resolve(0)] + rest) && Run(t, [Land(0), Resolve(0)] + rest) == Run(t', rest))
  {
    var landed := Observe(t, Land(0));
    ObserveKeepsInv(t, Land(0), row0);
    ObserveKeepsInv(landed, Resolve(0), row0);
    var es := [Land(0), Resolve(0)] + rest;
    assert es[1..] == [Resolve(0)] + rest && es[1..][1..] == rest;
  }

  lemma WritingSettles(t: Trace, row0: Option<Memory>)
    requires Inv(t, row0) && t.s.writing
    ensures Possible(t, Settling(t.s.dirty))
    ensures var t' := Run(t, Settling(t.s.dirty));
      !t'.s.writing && t'.s.memory == t.s.memory && t'.asked == t.asked && Repaired(t')
    decreases t.s.dirty
  {
    if t.s.dirty {
      var t' := Observe(Observe(t, Land(0)), Resolve(0));
      LandAndReturn(t, row0, Settling(false));
      WritingSettles(t', row0);
    } else {
      LandAndReturn(t, row0, []);
      assert Settling(false) == [Land(0), Resolve(0)] + [];
    }
  }

  /** What it takes to be saved: nothing, a `persist` after a failure, or the end of the writes under way. */
  function Recovering(s: Store): seq<Event> {
    if s.writing then Settling(s.dirty) else if s.dirty then [Persist] + Settling(false) else []
  }

  /**
   The coalescer is never stuck: from any point of any run, idle after a failure included, one `persist` and two
   writes at most lead to an idle, clean coalescer whose row covers every `persist` made.
   */
  lemma AlwaysSettles(t: Trace, row0: Option<Memory>)
    requires Inv(t, row0)
    ensures Possible(t, Recovering(t.s))
    ensures var t' := Run(t, Recovering(t.s));
      !t'.s.writing && !t'.s.dirty && t'.s.memory == t.s.memory && (t.asked.Some? || t.s.dirty ==> Repaired(t'))
  {
    if t.s.writing {
      WritingSettles(t, row0);
    } else if t.s.dirty {
      ObserveKeepsInv(t, Persist, row0);
      WritingSettles(Observe(t, Persist), row0);
      assert ([Persist] + Settling(false))[1..] == Settling(false);
    }
  }

  /** Writes started never exceed `persist` calls, so finitely many calls start finitely many writes. */
  lemma WritesAreBounded(m: Memory, row0: Option<Memory>, es: seq<Event>)
    requires Possible(Opened(m, row0), es)
    ensures var t := Run(Opened(m, row0), es); t.writes <= t.persists && t.persists == Count(es, (e: Event) => e.Persist?)
  {
    RunKeepsInv(Opened(m, row0), es, row0);
    PersistsAreCounted(Opened(m, row0), es);
  }

  lemma {:induction false} PersistsAreCounted(t: Trace, es: seq<Event>)
    requires Possible(t, es)
    ensures Run(t, es).persists == t.persists + Count(es, (e: Event) => e.Persist?)
    decreases |es|
  {
    if es != [] {
      PersistsAreCounted(Observe(t, es[0]), es[1..]);
      CountConcat([es[0]], es[1..], (e: Event) => e.Persist?);
      assert [es[0]] + es[1..] == es;
      CountAppend([], es[0], (e: Event) => e.Persist?);
      assert [] + [es[0]] == [es[0]];
    }
  }

  // ---------------------------------------------------------------- crashes

  lemma {:induction false} SavedOnlyGrows(t: Trace, es: seq<Event>, row0: Option<Memory>)
    requires Inv(t, row0) && Possible(t, es)
    ensures var t' := Run(t, es);
      && t.history <= t'.history
      && (t.saved.Some? ==> t'.saved.Some? && t.saved.value <= t'.saved.value)
    decreases |es|
  {
    if es != [] {
      ObserveKeepsInv(t, es[0], row0);
      SavedOnlyGrows(Observe(t, es[0]), es[1..], row0);
    }
  }

  /** What parsing a blob yields; either part can be missing. */
  datatype Parsed = Parsed(creds: Option<string>, keys: Option<KeyStore>)

  /** `loadMemory`: a missing, unreadable or creds-less blob starts over with fresh creds. */
  function LoadMemory(blob: Option<string>, parse: string -> Option<Parsed>, freshCreds: string): Memory {
    if blob.Some? && parse(blob.value).Some? && parse(blob.value).value.creds.Some? then
      var parsed := parse(blob.value).value;
      Memory(parsed.creds.value, if parsed.keys.Some? then parsed.keys.value else map[])
    else
      Memory(freshCreds, map[])
  }

  /**
   What is loaded, case by case: nothing of a row that is missing, unreadable or without creds, so that the chip
   pairs anew; otherwise the creds of the blob and, bucket by bucket, its keys.
   */
  lemma LoadedExactly(blob: Option<string>, parse: string -> Option<Parsed>, freshCreds: string)
    ensures var m := LoadMemory(blob, parse, freshCreds);
      && (blob == None ==> m.creds == freshCreds && Plain(m.keys) == map[])
      && (forall b :: blob == Some(b) ==>
        match parse(b)
        case None => m.creds == freshCreds && Plain(m.keys) == map[]
        case Some(Parsed(None, _)) => m.creds == freshCreds && Plain(m.keys) == map[]
        case Some(Parsed(Some(creds), None)) => m.creds == creds && Plain(m.keys) == map[]
        case Some(Parsed(Some(creds), Some(keys))) => m.creds == creds && m.keys == keys)
  {
    NoKeys();
  }

  lemma NoKeys()
    ensures Plain(map[]) == map[]
  {
    PlainEqual(Plain(map[]), map[]);
  }

  /** The blob in the row of a run that started from `blob0`. */
  function RowBlob(t: Trace, blob0: Option<string>, serialize: Memory -> string): Option<string> {
    if t.saved.Some? && t.s.row.Some? then Some(serialize(t.s.row.value)) else blob0
  }

  /**
   A crash after any run, and another one later in the same run: each reload finds a whole value the memory
   has had (or the blob the run began with), and the later reload never finds an older one.
   */
  lemma CrashSafety(m: Memory, row0: Option<Memory>, es: seq<Event>, more: seq<Event>,
                    blob0: Option<string>, serialize: Memory -> string, parse: string -> Option<Parsed>, creds: string)
    requires Possible(Opened(m, row0), es) && Possible(Run(Opened(m, row0), es), more)
    requires forall x :: parse(serialize(x)) == Some(Parsed(Some(x.creds), Some(x.keys)))
    ensures
      var t := Run(Opened(m, row0), es);
      var t' := Run(t, more);
      var reload := LoadMemory(RowBlob(t, blob0, serialize), parse, creds);
      var reload' := LoadMemory(RowBlob(t', blob0, serialize), parse, creds);
      if t.saved.None? then
        reload == LoadMemory(blob0, parse, creds)
      else
        exists k: nat, k': nat :: k <= k' < |t'.history| && k < |t.history| && t.history[k] == t'.history[k]
                        && reload == t.history[k] && reload' == t'.history[k']
  {
    var t := Run(Opened(m, row0), es);
    RunKeepsInv(Opened(m, row0), es, row0);
    RunKeepsInv(t, more, row0);
    SavedOnlyGrows(t, more, row0);
    var t' := Run(t, more);
    if t.saved.Some? {
      var k, k' := t.saved.value, t'.saved.value;
      assert t.history[k] == t'.history[k];
    }
  }

  // ---------------------------------------------------------------- key updates, seen one key at a time

  /** The last update of one key in `data`, if any. */
  function LastInBucket(entries: Entries, id: string): Option<Option<string>> {
    if entries == [] then None
    else
      var n := |entries| - 1;
      if entries[n].0 == id then Some(entries[n].1) else LastInBucket(entries[..n], id)
  }

  function LastUpdate(data: KeyData, kind: string, id: string): Option<Option<string>> {
    if data == [] then None
    else
      var n := |data| - 1;
      if data[n].0 == kind && LastInBucket(data[n].1, id).Some? then LastInBucket(data[n].1, id)
      else LastUpdate(data[..n], kind, id)
  }

  function PlainGet(m: PlainStore, kind: string, id: string): Option<string> {
    if (kind, id) in m then Some(m[(kind, id)]) else None
  }

  lemma {:induction false} BucketByKey(m: PlainStore, bucket: string, entries: Entries, kind: string, id: string)
    ensures PlainGet(PlainBucket(m, bucket, entries), kind, id) ==
            if bucket == kind && LastInBucket(entries, id).Some? then LastInBucket(entries, id).value
            else PlainGet(m, kind, id)
  {
    if entries != [] {
      BucketByKey(m, bucket, entries[..|entries| - 1], kind, id);
    }
  }

  /** After `set`, every key reads as its last update, or as before when it has none. */
  lemma {:induction false} SetByKey(m: PlainStore, data: KeyData, kind: string, id: string)
    ensures PlainGet(PlainSet(m, data), kind, id) ==
            if LastUpdate(data, kind, id).Some? then LastUpdate(data, kind, id).value
            else PlainGet(m, kind, id)
  {
    if data != [] {
      var n := |data| - 1;
      SetByKey(m, data[..n], kind, id);
      BucketByKey(PlainSet(m, data[..n]), data[n].0, data[n].1, kind, id);
    }
  }

  lemma PlainAt(keys: KeyStore, kind: string, id: string)
    ensures PlainGet(Plain(keys), kind, id) ==
            if kind in keys && id in keys[kind] then Some(keys[kind][id]) else None
  {
    var plain := Plain(keys);
    if kind in keys && id in keys[kind] {
      assert (kind, id) in plain;
    }
  }

  lemma PlainEqual(m: PlainStore, m': PlainStore)
    requires forall kind, id :: PlainGet(m, kind, id) == PlainGet(m', kind, id)
    ensures m == m'
  {
    forall p: (string, string) ensures p in m <==> p in m' {
      assert PlainGet(m, p.0, p.1) == PlainGet(m', p.0, p.1);
    }
    forall p | p in m ensures m[p] == m'[p] {
      assert PlainGet(m, p.0, p.1) == PlainGet(m', p.0, p.1);
    }
  }

  /** Writing a bucket back with one entry changed changes that key of the flat map and no other. */
  lemma PutInBucket(keys: KeyStore, kind: string, id: string, value: Option<string>, bucket: map<string, string>)
    requires kind in keys
    requires bucket == if value.Some? then keys[kind][id := value.value] else keys[kind] - {id}
    ensures Plain(keys[kind := bucket]) == PlainPut(Plain(keys), kind, id, value)
  {
    var keys' := keys[kind := bucket];
    forall k, i ensures PlainGet(Plain(keys'), k, i) == PlainGet(PlainPut(Plain(keys), kind, id, value), k, i) {
      PlainAt(keys, k, i);
      PlainAt(keys', k, i);
    }
    PlainEqual(Plain(keys'), PlainPut(Plain(keys), kind, id, value));
  }

  lemma EmptyBucketIsInvisible(keys: KeyStore, kind: string)
    ensures Plain(keys[kind := if kind in keys then keys[kind] else map[]]) == Plain(keys)
  {
    var keys' := keys[kind := if kind in keys then keys[kind] else map[]];
    forall k, i ensures PlainGet(Plain(keys'), k, i) == PlainGet(Plain(keys), k, i) {
      PlainAt(keys, k, i);
      PlainAt(keys', k, i);
    }
    PlainEqual(Plain(keys'), Plain(keys));
  }

  // ---------------------------------------------------------------- the store itself

  /** The object `usePostgresAuthState` returns, with the row it writes to. */
  class AuthStore {
    var memory: Memory
    var dirty: bool
    var writing: bool
    var loops: seq<Write>
    var row: Option<Memory>

    ghost function State(): Store
      reads this
    {
      Store(memory, dirty, writing, loops, row)
    }

    constructor (m: Memory, r: Option<Memory>)
      ensures State() == Opened(m, r).s
    {
      memory, dirty, writing, loops, row := m, false, false, [], r;
    }

    /** `persist`, up to the first `await` of the coroutine it may start. */
    method Save()
      modifies this
      ensures State() == Step(old(State()), Persist)
    {
      dirty := true;
      if !writing {
        dirty := false;
        loops := loops + [Write(memory, false)];
        writing := true;
      }
    }

    /** `runWrites` resuming from its `await`: the loop test, the catch and the finally. */
    method Resume(loop: nat, ok: bool)
      requires loop < |loops| && (ok ==> loops[loop].landed)
      modifies this
      ensures State() == Step(old(State()), if ok then Resolve(loop) else Reject(loop))
    {
      if ok && dirty {
        dirty := false;
        loops := loops[loop := Write(memory, false)];
      } else {
        if !ok {
          dirty := true;
        }
        loops := loops[..loop] + loops[loop + 1..];
        writing := false;
      }
    }

    method Clear()
      modifies this
      ensures State() == Step(Step(old(State()), Mutate(Memory(old(memory).creds, map[]))), Persist)
      ensures Plain(memory.keys) == map[]
    {
      memory := memory.(keys := map[]);
      Save();
    }

    /** `keys.set`: bucket by bucket, entry by entry, then persist. */
    method Set(data: KeyData)
      modifies this
      ensures Plain(memory.keys) == PlainSet(old(Plain(memory.keys)), data)
      ensures memory.creds == old(memory).creds
      ensures State() == Step(Step(old(State()), Mutate(memory)), Persist)
    {
      var i := 0;
      while i < |data|
        invariant i <= |data|
        invariant Plain(memory.keys) == PlainSet(old(Plain(memory.keys)), data[..i])
        invariant memory.creds == old(memory).creds
        invariant State() == old(State()).(memory := memory)
      {
        var kind, entries := data[i].0, data[i].1;
        EmptyBucketIsInvisible(memory.keys, kind);
        memory := memory.(keys := memory.keys[kind := if kind in memory.keys then memory.keys[kind] else map[]]);
        SetBucket(kind, entries);
        assert data[..i + 1][..i] == data[..i];
        i := i + 1;
      }
      assert data[..i] == data;
      Save();
    }

    /** One bucket of `keys.set`, updated in place. */
    method SetBucket(kind: string, entries: Entries)
      requires kind in memory.keys
      modifies this`memory
      ensures Plain(memory.keys) == PlainBucket(old(Plain(memory.keys)), kind, entries)
      ensures memory.creds == old(memory).creds
    {
      ghost var before := Plain(memory.keys);
      var j := 0;
      while j < |entries|
        invariant j <= |entries| && kind in memory.keys
        invariant Plain(memory.keys) == PlainBucket(before, kind, entries[..j])
        invariant memory.creds == old(memory).creds
      {
        var id, value := entries[j].0, entries[j].1;
        var bucket := if value.Some? then memory.keys[kind][id := value.value] else memory.keys[kind] - {id};
        PutInBucket(memory.keys, kind, id, value, bucket);
        memory := memory.(keys := memory.keys[kind := bucket]);
        assert entries[..j + 1][..j] == entries[..j];
        j := j + 1;
      }
      assert entries[..j] == entries;
    }

    /** `keys.get`: the stored ids among those asked for; sync keys are rebuilt from their plain form. */
    method Get(kind: string, ids: seq<string>, rebuild: string -> string) returns (out: map<string, string>)
      ensures forall id :: id in out <==> id in ids && (kind, id) in Plain(memory.keys)
      ensures forall id :: id in out ==>
        out[id] == var v := Plain(memory.keys)[(kind, id)]; if kind == "app-state-sync-key" then rebuild(v) else v
    {
      var bucket := if kind in memory.keys then memory.keys[kind] else map[];
      out := map[];
      var i := 0;
      while i < |ids|
        invariant i <= |ids|
        invariant forall id :: id in out <==> id in ids[..i] && id in bucket
        invariant forall id :: id in out ==>
          out[id] == if kind == "app-state-sync-key" then rebuild(bucket[id]) else bucket[id]
      {
        if ids[i] in bucket {
          var value := bucket[ids[i]];
          if kind == "app-state-sync-key" {
            value := rebuild(value);
          }
          out := out[ids[i] := value];
        }
        i := i + 1;
      }
      forall id ensures PlainGet(Plain(memory.keys), kind, id) == if id in bucket then Some(bucket[id]) else None {
        PlainAt(memory.keys, kind, id);
      }
    }
  }
}
