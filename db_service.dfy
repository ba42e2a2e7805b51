/**
 * The per-session context repository of services/dbService.js: four
 * collections keyed by session id (`contexts`, `conversations`,
 * `user_preferences`, `sessions`) behind a memoised connection. The MongoDB
 * backend is replaced by maps and sequences, `new Date()` by an injected
 * clock, and a network or server failure by the flag `up` that every
 * operation receives ("the backend serves this call").
 */
module DbService {
  import opened Wrappers
  import opened Json

  /** The injected clock standing for `new Date()`: each reading is later than the one before. */
  class Clock {
    var now: nat

    constructor (start: nat)
      ensures now == start
    {
      now := start;
    }

    method Read() returns (t: nat)
      modifies this
      ensures t == old(now) && now == old(now) + 1
    {
      t := now;
      now := now + 1;
    }
  }

  /**
   * The connection fields of `DatabaseService` (`isConnected`, `client`,
   * `db`), plus the number of `MongoClient`s created so far, which names the
   * next one.
   */
  datatype Connection = Connection(isConnected: bool, client: Option<nat>, db: Option<nat>, created: nat)

  /** The result `{ success: true }` of every write. */
  const Success: Value := Obj(map["success" := Bool(true)])

  /** Which of the four deletes of `deleteContext` the backend fails. */
  datatype DeleteFaults = DeleteFaults(contexts: bool, conversations: bool, preferences: bool, sessions: bool)

  /** No delete fails. */
  predicate AllDeleted(lost: DeleteFaults) {
    !lost.contexts && !lost.conversations && !lost.preferences && !lost.sessions
  }

  /** `connect()` returns at once when connected and a handle is held. */
  predicate IsOpen(c: Connection) {
    c.isConnected && c.db.Some?
  }

  /**
   * The connection `connect()` leaves: the same one when already open;
   * otherwise a new client, which is kept when the backend is reachable and
   * dropped, with `isConnected`, `db` and `client` reset, when it is not.
   */
  function Reconnect(c: Connection, reachable: bool): Connection {
    if IsOpen(c) then c
    else if reachable then Connection(true, Some(c.created), Some(c.created), c.created + 1)
    else Connection(false, None, None, c.created + 1)
  }

  /** What `disconnect()` leaves: the client object is kept, the handle is dropped. */
  function Disconnected(c: Connection): Connection {
    if c.client.Some? then c.(isConnected := false, db := None) else c
  }

  /** A stored document belongs to session `s` when its `sessionId` field is `s`. */
  predicate BelongsTo(d: Doc, s: string) {
    "sessionId" in d && d["sessionId"] == Str(s)
  }

  function Lookup(m: map<string, Doc>, s: string): Option<Doc> {
    if s in m then Some(m[s]) else None
  }

  /**
   * MongoDB refuses an update whose `$set` and `$setOnInsert` name the same
   * path; `createdAt` is the only path `$setOnInsert` names here.
   */
  predicate ConflictsWithInsert(update: Doc) {
    "createdAt" in update
  }

  /**
   * The document an upsert `{ $set: { ...update, sessionId, updatedAt: now },
   * $setOnInsert: { createdAt: now } }` leaves behind.
   */
  function Merged(existing: Option<Doc>, sessionId: string, update: Doc, now: nat): (d: Doc)
    requires !ConflictsWithInsert(update)
    ensures BelongsTo(d, sessionId) && "updatedAt" in d && d["updatedAt"] == Time(now)
  {
    var base := if existing.Some? then existing.value else map["createdAt" := Time(now)];
    (base + update)["sessionId" := Str(sessionId)]["updatedAt" := Time(now)]
  }

  /**
   * The merge overwrites exactly the supplied fields, always sets
   * `sessionId` and `updatedAt`, keeps every other field, and sets
   * `createdAt` only on insert.
   */
  lemma MergedFields(existing: Option<Doc>, sessionId: string, update: Doc, now: nat)
    requires !ConflictsWithInsert(update)
    ensures var d := Merged(existing, sessionId, update, now);
            && (forall k :: k in update && k != "sessionId" && k != "updatedAt" ==> k in d && d[k] == update[k])
            && (existing.Some? ==> forall k :: k in existing.value && k !in update && k != "sessionId" && k != "updatedAt" ==> k in d && d[k] == existing.value[k])
            && (existing.Some? ==> d.Keys == existing.value.Keys + update.Keys + {"sessionId", "updatedAt"})
            && (existing.None? ==> d.Keys == update.Keys + {"sessionId", "updatedAt", "createdAt"} && d["createdAt"] == Time(now))
  {
  }

  /** The conversation document `{ sessionId, ...message, timestamp: now }`. */
  function Stamped(sessionId: string, message: Doc, now: nat): Doc {
    (map["sessionId" := Str(sessionId)] + message)["timestamp" := Time(now)]
  }

  /** A turn's `timestamp`, or -1 when it has none. */
  function TurnTime(d: Doc): int {
    if "timestamp" in d && d["timestamp"].Time? then d["timestamp"].t else -1
  }

  /** Timestamps strictly increase along the log. */
  ghost predicate Chronological(log: seq<Doc>) {
    forall i, j :: 0 <= i < j < |log| ==> TurnTime(log[i]) < TurnTime(log[j])
  }

  /** The documents of `log`, in order, that belong to `s` (`keep`) or do not (`!keep`). */
  function Select(log: seq<Doc>, s: string, keep: bool): seq<Doc> {
    if log == [] then []
    else (if BelongsTo(log[0], s) == keep then [log[0]] else []) + Select(log[1..], s, keep)
  }

  /** `find({ sessionId })` on the conversations. */
  function TurnsOf(log: seq<Doc>, s: string): seq<Doc> {
    Select(log, s, true)
  }

  /** The last `n` elements, or all of them when `n` is 0 (MongoDB's "no limit"). */
  function Recent(xs: seq<Doc>, n: nat): seq<Doc> {
    if n == 0 || n >= |xs| then xs else xs[|xs| - n..]
  }

  function Abs(n: int): nat {
    if n < 0 then -n else n
  }

  /**
   * `find({ sessionId }).sort({ timestamp: -1 }).limit(limit)` reversed. The
   * driver takes a negative limit as its absolute value and 0 as no limit.
   */
  function History(log: seq<Doc>, s: string, limit: int): seq<Doc> {
    Recent(TurnsOf(log, s), Abs(limit))
  }

  function Reversed(xs: seq<Doc>): seq<Doc> {
    if xs == [] then [] else Reversed(xs[1..]) + [xs[0]]
  }

  /** A `user_preferences` document. */
  datatype Preference = Preference(sessionId: string, key: string, value: Value, createdAt: nat, updatedAt: nat)

  /** At most one preference document per `(sessionId, key)`. */
  ghost predicate UniquePrefs(rows: seq<Preference>) {
    forall i, j :: 0 <= i < j < |rows| ==> !(rows[i].sessionId == rows[j].sessionId && rows[i].key == rows[j].key)
  }

  /** The position of the document for `(s, k)`, if there is one. */
  function FindPref(rows: seq<Preference>, s: string, k: string): (r: Option<nat>)
    ensures r.Some? ==> r.value < |rows| && rows[r.value].sessionId == s && rows[r.value].key == k
    ensures r.None? ==> forall i :: 0 <= i < |rows| ==> !(rows[i].sessionId == s && rows[i].key == k)
  {
    if rows == [] then None
    else if rows[0].sessionId == s && rows[0].key == k then Some(0)
    else match FindPref(rows[1..], s, k)
      case None => None
      case Some(i) => Some(i + 1)
  }

  /** The collection after `updateOne({ sessionId, key }, { $set: ..., $setOnInsert: ... }, { upsert: true })`. */
  function Upserted(rows: seq<Preference>, s: string, k: string, v: Value, now: nat): seq<Preference> {
    match FindPref(rows, s, k)
    case Some(i) => rows[i := Preference(s, k, v, rows[i].createdAt, now)]
    case None => rows + [Preference(s, k, v, now, now)]
  }

  /** The `result` object `getUserPreferences` fills: `result[pref.key] = pref.value` for each of `s`'s documents in order. */
  function PrefMap(rows: seq<Preference>, s: string): map<string, Value> {
    if rows == [] then map[]
    else
      var m := PrefMap(rows[..|rows| - 1], s);
      var last := rows[|rows| - 1];
      if last.sessionId == s then m[last.key := last.value] else m
  }

  /** The preference documents left by `deleteMany({ sessionId: s })`. */
  function PrefsWithout(rows: seq<Preference>, s: string): seq<Preference> {
    if rows == [] then []
    else
      var last := rows[|rows| - 1];
      PrefsWithout(rows[..|rows| - 1], s) + (if last.sessionId != s then [last] else [])
  }

  /** `$regex` with option `i`, taken as a literal case-insensitive substring test on a string field. */
  predicate TextMatches(v: Value, query: string) {
    v.Str? && Contains(Lower(v.s), Lower(query))
  }

  /** The filter of `searchContexts`: `context` or `metadata` matches, and the session when one is given. */
  predicate SearchMatches(d: Doc, query: string, sessionId: Option<string>) {
    (TextMatches(Get(d, "context"), query) || TextMatches(Get(d, "metadata"), query))
    && (sessionId.Some? && sessionId.value != "" ==> BelongsTo(d, sessionId.value))
  }

  /** The sort key `updatedAt`; a document without one sorts last in descending order. */
  function UpdatedStamp(d: Doc): int {
    if "updatedAt" in d && d["updatedAt"].Time? then d["updatedAt"].t else -1
  }

  /** The maximum page size of `searchContexts`. */
  const SearchLimit: nat := 10

  lemma {:induction false} NewestExists(docs: map<string, Doc>, pool: set<string>)
    requires pool != {} && pool <= docs.Keys
    ensures exists k :: k in pool && forall x :: x in pool ==> UpdatedStamp(docs[x]) <= UpdatedStamp(docs[k])
  {
    var y :| y in pool;
    if pool != {y} {
      var rest := pool - {y};
      NewestExists(docs, rest);
      var k :| k in rest && forall x :: x in rest ==> UpdatedStamp(docs[x]) <= UpdatedStamp(docs[k]);
      if UpdatedStamp(docs[y]) <= UpdatedStamp(docs[k]) {
        assert k in pool && forall x :: x in pool ==> UpdatedStamp(docs[x]) <= UpdatedStamp(docs[k]);
      } else {
        assert y in pool && forall x :: x in pool ==> UpdatedStamp(docs[x]) <= UpdatedStamp(docs[y]);
      }
    } else {
      assert forall x :: x in pool ==> UpdatedStamp(docs[x]) <= UpdatedStamp(docs[y]);
    }
  }

  /**
   * `picked` is the page `.sort({ updatedAt: -1 }).limit(limit)` returns from
   * the documents named by `keys`: distinct, newest first, and no document
   * left out is newer than one returned; fewer than `limit` only when every
   * one was returned.
   */
  ghost predicate NewestPage(docs: map<string, Doc>, keys: set<string>, limit: nat, picked: seq<string>)
    requires keys <= docs.Keys
  {
    && |picked| == (if |keys| < limit then |keys| else limit)
    && (forall i :: 0 <= i < |picked| ==> picked[i] in keys)
    && (forall i, j :: 0 <= i < j < |picked| ==> picked[i] != picked[j])
    && (forall i, j :: 0 <= i < j < |picked| ==> UpdatedStamp(docs[picked[j]]) <= UpdatedStamp(docs[picked[i]]))
    && (forall k, i :: k in keys && k !in picked && 0 <= i < |picked| ==> UpdatedStamp(docs[k]) <= UpdatedStamp(docs[picked[i]]))
    && (|picked| < limit ==> forall k :: k in keys ==> k in picked)
  }

  /**
   * The state of the selection after some rounds: `picked` is a newest-first
   * prefix of the page, and `pool` holds exactly the keys not yet picked.
   */
  ghost predicate Selecting(docs: map<string, Doc>, keys: set<string>, limit: nat, pool: set<string>, picked: seq<string>)
    requires keys <= docs.Keys
  {
    && pool <= keys
    && (forall i :: 0 <= i < |picked| ==> picked[i] in keys && picked[i] !in pool)
    && (forall k :: k in keys ==> k in pool || k in picked)
    && |pool| + |picked| == |keys|
    && |picked| <= limit
    && (forall i, j :: 0 <= i < j < |picked| ==> picked[i] != picked[j])
    && (forall i, j :: 0 <= i < j < |picked| ==> UpdatedStamp(docs[picked[j]]) <= UpdatedStamp(docs[picked[i]]))
    && (forall k, i :: k in pool && 0 <= i < |picked| ==> UpdatedStamp(docs[k]) <= UpdatedStamp(docs[picked[i]]))
  }

  /** Moving the newest pooled key to the end of `picked` keeps the selection state. */
  lemma PickNewest(docs: map<string, Doc>, keys: set<string>, limit: nat, pool: set<string>, picked: seq<string>, k: string)
    requires keys <= docs.Keys && Selecting(docs, keys, limit, pool, picked) && |picked| < limit
    requires k in pool && forall x :: x in pool ==> UpdatedStamp(docs[x]) <= UpdatedStamp(docs[k])
    ensures Selecting(docs, keys, limit, pool - {k}, picked + [k])
  {
    var picked' := picked + [k];
    assert forall i :: 0 <= i < |picked| ==> picked'[i] == picked[i];
  }

  /** Once the selection stops, the picked keys are the page. */
  lemma SelectionDone(docs: map<string, Doc>, keys: set<string>, limit: nat, pool: set<string>, picked: seq<string>)
    requires keys <= docs.Keys && Selecting(docs, keys, limit, pool, picked)
    requires |picked| >= limit || pool == {}
    ensures NewestPage(docs, keys, limit, picked)
  {
  }

  /** Selection of the newest document, `limit` times: the sort and limit of `searchContexts`. */
  method NewestFirst(docs: map<string, Doc>, keys: set<string>, limit: nat) returns (picked: seq<string>)
    requires keys <= docs.Keys
    ensures NewestPage(docs, keys, limit, picked)
  {
    var pool := keys;
    picked := [];
    while |picked| < limit && pool != {}
      invariant Selecting(docs, keys, limit, pool, picked)
      decreases |pool|
    {
      NewestExists(docs, pool);
      var k :| k in pool && forall x :: x in pool ==> UpdatedStamp(docs[x]) <= UpdatedStamp(docs[k]);
      PickNewest(docs, keys, limit, pool, picked, k);
      picked := picked + [k];
      pool := pool - {k};
    }
    SelectionDone(docs, keys, limit, pool, picked);
  }

  function DocsAt(docs: map<string, Doc>, picked: seq<string>): (r: seq<Doc>)
    requires forall i :: 0 <= i < |picked| ==> picked[i] in docs
    ensures |r| == |picked| && forall i :: 0 <= i < |picked| ==> r[i] == docs[picked[i]]
  {
    seq(|picked|, i requires 0 <= i < |picked| => docs[picked[i]])
  }

  /** The keys of the documents `searchContexts`'s filter selects. */
  function MatchingKeys(docs: map<string, Doc>, query: string, sessionId: Option<string>): (keys: set<string>)
    ensures keys <= docs.Keys
  {
    set k | k in docs && SearchMatches(docs[k], query, sessionId)
  }

  /**
   * The session's most recent turns, as the sorted, limited and reversed
   * cursor yields them: scans the log from its newest end.
   */
  method RecentTurns(log: seq<Doc>, s: string, n: nat) returns (turns: seq<Doc>)
    ensures turns == Recent(TurnsOf(log, s), n)
  {
    var newestFirst: seq<Doc> := [];
    var i := |log|;
    while i > 0 && (n == 0 || |newestFirst| < n)
      invariant 0 <= i <= |log|
      invariant newestFirst == Reversed(TurnsOf(log[i..], s))
      invariant n == 0 || |newestFirst| <= n
    {
      i := i - 1;
      assert log[i..][1..] == log[i + 1..];
      var older := TurnsOf(log[i + 1..], s);
      if BelongsTo(log[i], s) {
        assert TurnsOf(log[i..], s) == [log[i]] + older;
        assert ([log[i]] + older)[1..] == older;
        newestFirst := newestFirst + [log[i]];
      } else {
        assert TurnsOf(log[i..], s) == [] + older == older;
      }
    }
    ReversedLength(TurnsOf(log[i..], s));
    ReversedTwice(TurnsOf(log[i..], s));
    turns := Reversed(newestFirst);
    SelectSplit(log, i, s, true);
    assert log == log[..i] + log[i..];
  }

  lemma {:induction false} ReversedLength(xs: seq<Doc>)
    ensures |Reversed(xs)| == |xs|
  {
    if xs != [] { ReversedLength(xs[1..]); }
  }

  lemma {:induction false} ReversedAppend(xs: seq<Doc>, ys: seq<Doc>)
    ensures Reversed(xs + ys) == Reversed(ys) + Reversed(xs)
  {
    if xs == [] {
      assert xs + ys == ys;
    } else {
      assert (xs + ys)[1..] == xs[1..] + ys;
      ReversedAppend(xs[1..], ys);
    }
  }

  lemma {:induction false} ReversedTwice(xs: seq<Doc>)
    ensures Reversed(Reversed(xs)) == xs
  {
    if xs != [] {
      ReversedAppend(Reversed(xs[1..]), [xs[0]]);
      ReversedTwice(xs[1..]);
      assert Reversed([xs[0]]) == [xs[0]];
      assert xs == [xs[0]] + xs[1..];
    }
  }

  lemma {:induction false} SelectAppend(xs: seq<Doc>, ys: seq<Doc>, s: string, keep: bool)
    ensures Select(xs + ys, s, keep) == Select(xs, s, keep) + Select(ys, s, keep)
  {
    if xs == [] {
      assert xs + ys == ys;
    } else {
      var head := if BelongsTo(xs[0], s) == keep then [xs[0]] else [];
      assert (xs + ys)[0] == xs[0];
      assert (xs + ys)[1..] == xs[1..] + ys;
      SelectAppend(xs[1..], ys, s, keep);
      calc {
        Select(xs + ys, s, keep);
        head + Select(xs[1..] + ys, s, keep);
        head + (Select(xs[1..], s, keep) + Select(ys, s, keep));
        (head + Select(xs[1..], s, keep)) + Select(ys, s, keep);
        Select(xs, s, keep) + Select(ys, s, keep);
      }
    }
  }

  lemma SelectSplit(log: seq<Doc>, i: nat, s: string, keep: bool)
    requires i <= |log|
    ensures Select(log, s, keep) == Select(log[..i], s, keep) + Select(log[i..], s, keep)
  {
    assert log == log[..i] + log[i..];
    SelectAppend(log[..i], log[i..], s, keep);
  }

  /**
   * The repository. `connect` and `disconnect` drive the connection fields;
   * every other operation connects first and then reads or writes one or
   * more collections.
   */
  class DatabaseService {
    const clock: Clock
    var isConnected: bool
    var client: Option<nat>
    var db: Option<nat>
    var clientsCreated: nat
    var contexts: map<string, Doc>
    var conversations: seq<Doc>
    var preferences: seq<Preference>
    var sessions: map<string, Doc>

    function Conn(): Connection
      reads this
    {
      Connection(isConnected, client, db, clientsCreated)
    }

    ghost predicate Valid()
      reads this, clock
    {
      && (isConnected <==> db.Some?)
      && (db.Some? ==> client.Some?)
      && (forall s :: s in contexts ==> BelongsTo(contexts[s], s))
      && (forall s :: s in sessions ==> BelongsTo(sessions[s], s))
      && Chronological(conversations)
      && (forall i :: 0 <= i < |conversations| ==> 0 <= TurnTime(conversations[i]) < clock.now)
      && UniquePrefs(preferences)
    }

    constructor (clock: Clock)
      ensures Valid() && this.clock == clock
      ensures Conn() == Connection(false, None, None, 0)
      ensures contexts == map[] && conversations == [] && preferences == [] && sessions == map[]
    {
      this.clock := clock;
      isConnected, client, db, clientsCreated := false, None, None, 0;
      contexts, conversations, preferences, sessions := map[], [], [], map[];
    }

    /** `connect()`: memoised; on failure the three connection fields are reset and the error rethrown. */
    method Connect(reachable: bool) returns (r: Result<nat>)
      requires Valid()
      modifies this
      ensures Valid()
      ensures Conn() == Reconnect(old(Conn()), reachable)
      ensures r.Ok? <==> IsOpen(old(Conn())) || reachable
      ensures r.Ok? ==> db == Some(r.value) && (IsOpen(old(Conn())) ==> r.value == old(db).value)
      ensures contexts == old(contexts) && conversations == old(conversations)
      ensures preferences == old(preferences) && sessions == old(sessions)
    {
      if isConnected && db.Some? {
        return Ok(db.value);
      }
      var id := clientsCreated;
      clientsCreated := clientsCreated + 1;
      client := Some(id);
      if !reachable {
        isConnected := false;
        db := None;
        client := None;
        return Err("MongoDB connection error");
      }
      db := Some(id);
      isConnected := true;
      return Ok(id);
    }

    /** `disconnect()`. */
    method Disconnect()
      requires Valid()
      modifies this
      ensures Valid()
      ensures Conn() == Disconnected(old(Conn()))
      ensures contexts == old(contexts) && conversations == old(conversations)
      ensures preferences == old(preferences) && sessions == old(sessions)
    {
      if client.Some? {
        isConnected := false;
        db := None;
      }
    }

    /** `saveContext(sessionId, context)`: partial-field upsert of the session's context document. */
    method SaveContext(sessionId: string, update: Doc, up: bool) returns (r: Result<Value>)
      requires Valid()
      modifies this, clock
      ensures Valid()
      ensures Conn() == Reconnect(old(Conn()), up)
      ensures r.Ok? <==> up && !ConflictsWithInsert(update)
      ensures r.Ok? ==> r.value == Success
      ensures clock.now == old(clock.now) + (if r.Ok? then 1 else 0)
      ensures r.Ok? ==> contexts == old(contexts)[sessionId := Merged(Lookup(old(contexts), sessionId), sessionId, update, old(clock.now))]
      ensures r.Err? ==> contexts == old(contexts)
      ensures conversations == old(conversations) && preferences == old(preferences) && sessions == old(sessions)
    {
      var c := Connect(up);
      if c.Err? { return Err(c.message); }
      if !up { return Err("contexts.updateOne failed"); }
      if ConflictsWithInsert(update) { return Err("Updating the path 'createdAt' would create a conflict at 'createdAt'"); }
      var now := clock.Read();
      contexts := contexts[sessionId := Merged(Lookup(contexts, sessionId), sessionId, update, now)];
      return Ok(Success);
    }

    /** `getContext(sessionId)`: the session's document, or null. */
    method GetContext(sessionId: string, up: bool) returns (r: Result<Option<Doc>>)
      requires Valid()
      modifies this
      ensures Valid()
      ensures Conn() == Reconnect(old(Conn()), up)
      ensures r.Ok? <==> up
      ensures r.Ok? ==> r.value == Lookup(contexts, sessionId)
      ensures contexts == old(contexts) && conversations == old(conversations)
      ensures preferences == old(preferences) && sessions == old(sessions)
    {
      var c := Connect(up);
      if c.Err? { return Err(c.message); }
      if !up { return Err("contexts.findOne failed"); }
      return Ok(Lookup(contexts, sessionId));
    }

    /** `addConversationHistory(sessionId, message)`: inserts `{ sessionId, ...message, timestamp }`. */
    method AddConversationHistory(sessionId: string, message: Doc, up: bool) returns (r: Result<Value>)
      requires Valid()
      modifies this, clock
      ensures Valid()
      ensures Conn() == Reconnect(old(Conn()), up)
      ensures r.Ok? <==> up
      ensures r.Ok? ==> r.value == Success
      ensures clock.now == old(clock.now) + (if r.Ok? then 1 else 0)
      ensures r.Ok? ==> conversations == old(conversations) + [Stamped(sessionId, message, old(clock.now))]
      ensures r.Err? ==> conversations == old(conversations)
      ensures contexts == old(contexts) && preferences == old(preferences) && sessions == old(sessions)
    {
      var c := Connect(up);
      if c.Err? { return Err(c.message); }
      if !up { return Err("conversations.insertOne failed"); }
      var now := clock.Read();
      var turn := Stamped(sessionId, message, now);
      assert TurnTime(turn) == now;
      conversations := conversations + [turn];
      return Ok(Success);
    }

    /** `getConversationHistory(sessionId, limit = 50)`: the newest `limit` turns, oldest first. */
    method GetConversationHistory(sessionId: string, limit: int, up: bool) returns (r: Result<seq<Doc>>)
      requires Valid()
      modifies this
      ensures Valid()
      ensures Conn() == Reconnect(old(Conn()), up)
      ensures r.Ok? <==> up
      ensures r.Ok? ==> r.value == History(conversations, sessionId, limit)
      ensures contexts == old(contexts) && conversations == old(conversations)
      ensures preferences == old(preferences) && sessions == old(sessions)
    {
      var c := Connect(up);
      if c.Err? { return Err(c.message); }
      if !up { return Err("conversations.find failed"); }
      var turns := RecentTurns(conversations, sessionId, Abs(limit));
      return Ok(turns);
    }

    /** `saveUserPreference(sessionId, key, value)`: upsert on `(sessionId, key)`. */
    method SaveUserPreference(sessionId: string, key: string, value: Value, up: bool) returns (r: Result<Value>)
      requires Valid()
      modifies this, clock
      ensures Valid()
      ensures Conn() == Reconnect(old(Conn()), up)
      ensures r.Ok? <==> up
      ensures r.Ok? ==> r.value == Success
      ensures clock.now == old(clock.now) + (if r.Ok? then 1 else 0)
      ensures r.Ok? ==> preferences == Upserted(old(preferences), sessionId, key, value, old(clock.now))
      ensures r.Err? ==> preferences == old(preferences)
      ensures contexts == old(contexts) && conversations == old(conversations) && sessions == old(sessions)
    {
      var c := Connect(up);
      if c.Err? { return Err(c.message); }
      if !up { return Err("user_preferences.updateOne failed"); }
      var now := clock.Read();
      UpsertedUnique(preferences, sessionId, key, value, now);
      preferences := Upserted(preferences, sessionId, key, value, now);
      return Ok(Success);
    }

    /** `getUserPreferences(sessionId)`: fills a key-to-value object from the session's documents. */
    method GetUserPreferences(sessionId: string, up: bool) returns (r: Result<map<string, Value>>)
      requires Valid()
      modifies this
      ensures Valid()
      ensures Conn() == Reconnect(old(Conn()), up)
      ensures r.Ok? <==> up
      ensures r.Ok? ==> r.value == PrefMap(preferences, sessionId)
      ensures contexts == old(contexts) && conversations == old(conversations)
      ensures preferences == old(preferences) && sessions == old(sessions)
    {
      var c := Connect(up);
      if c.Err? { return Err(c.message); }
      if !up { return Err("user_preferences.find failed"); }
      var result: map<string, Value> := map[];
      for i := 0 to |preferences|
        invariant result == PrefMap(preferences[..i], sessionId)
      {
        assert preferences[..i + 1][..i] == preferences[..i];
        if preferences[i].sessionId == sessionId {
          result := result[preferences[i].key := preferences[i].value];
        }
      }
      assert preferences[..|preferences|] == preferences;
      return Ok(result);
    }

    /** `saveSessionData(sessionId, data)`: the same partial-field upsert, on `sessions`. */
    method SaveSessionData(sessionId: string, data: Doc, up: bool) returns (r: Result<Value>)
      requires Valid()
      modifies this, clock
      ensures Valid()
      ensures Conn() == Reconnect(old(Conn()), up)
      ensures r.Ok? <==> up && !ConflictsWithInsert(data)
      ensures r.Ok? ==> r.value == Success
      ensures clock.now == old(clock.now) + (if r.Ok? then 1 else 0)
      ensures r.Ok? ==> sessions == old(sessions)[sessionId := Merged(Lookup(old(sessions), sessionId), sessionId, data, old(clock.now))]
      ensures r.Err? ==> sessions == old(sessions)
      ensures contexts == old(contexts) && conversations == old(conversations) && preferences == old(preferences)
    {
      var c := Connect(up);
      if c.Err? { return Err(c.message); }
      if !up { return Err("sessions.updateOne failed"); }
      if ConflictsWithInsert(data) { return Err("Updating the path 'createdAt' would create a conflict at 'createdAt'"); }
      var now := clock.Read();
      sessions := sessions[sessionId := Merged(Lookup(sessions, sessionId), sessionId, data, now)];
      return Ok(Success);
    }

    /** `getSessionData(sessionId)`: the session document, or null. */
    method GetSessionData(sessionId: string, up: bool) returns (r: Result<Option<Doc>>)
      requires Valid()
      modifies this
      ensures Valid()
      ensures Conn() == Reconnect(old(Conn()), up)
      ensures r.Ok? <==> up
      ensures r.Ok? ==> r.value == Lookup(sessions, sessionId)
      ensures contexts == old(contexts) && conversations == old(conversations)
      ensures preferences == old(preferences) && sessions == old(sessions)
    {
      var c := Connect(up);
      if c.Err? { return Err(c.message); }
      if !up { return Err("sessions.findOne failed"); }
      return Ok(Lookup(sessions, sessionId));
    }

    /**
     * `searchContexts(query, sessionId = null)`: at most ten matching context
     * documents, most recently updated first. A non-string pattern is refused
     * by the server.
     */
    method SearchContexts(query: Value, sessionId: Option<string>, up: bool) returns (r: Result<seq<Doc>>)
      requires Valid()
      modifies this
      ensures Valid()
      ensures Conn() == Reconnect(old(Conn()), up)
      ensures r.Ok? <==> up && query.Str?
      ensures r.Ok? ==> exists picked :: NewestPage(contexts, MatchingKeys(contexts, query.s, sessionId), SearchLimit, picked)
                                          && r.value == DocsAt(contexts, picked)
      ensures contexts == old(contexts) && conversations == old(conversations)
      ensures preferences == old(preferences) && sessions == old(sessions)
    {
      var c := Connect(up);
      if c.Err? { return Err(c.message); }
      if !up { return Err("contexts.find failed"); }
      if !query.Str? { return Err("$regex has to be a string"); }
      var keys := MatchingKeys(contexts, query.s, sessionId);
      var picked := NewestFirst(contexts, keys, SearchLimit);
      var found := DocsAt(contexts, picked);
      return Ok(found);
    }

    /**
     * `deleteContext(sessionId)`: four independent deletes under
     * `Promise.all`, one per collection. Each one the backend serves takes
     * effect whether or not the others do; the call succeeds only when all
     * four are served.
     */
    method DeleteContext(sessionId: string, up: bool, lost: DeleteFaults) returns (r: Result<Value>)
      requires Valid()
      modifies this
      ensures Valid()
      ensures Conn() == Reconnect(old(Conn()), up)
      ensures r.Ok? <==> up && AllDeleted(lost)
      ensures r.Ok? ==> r.value == Success
      ensures contexts == if up && !lost.contexts then old(contexts) - {sessionId} else old(contexts)
      ensures conversations == if up && !lost.conversations then Select(old(conversations), sessionId, false) else old(conversations)
      ensures preferences == if up && !lost.preferences then PrefsWithout(old(preferences), sessionId) else old(preferences)
      ensures sessions == if up && !lost.sessions then old(sessions) - {sessionId} else old(sessions)
    {
      var c := Connect(up);
      if c.Err? { return Err(c.message); }
      if !up { return Err("deleteMany failed"); }
      if !lost.contexts { DropContext(sessionId); }
      if !lost.conversations { DropTurns(sessionId); }
      if !lost.preferences { DropPreferences(sessionId); }
      if !lost.sessions { DropSession(sessionId); }
      if !AllDeleted(lost) {
        return Err("deleteMany failed");
      }
      return Ok(Success);
    }

    /** `contexts.deleteMany({ sessionId })`. */
    method DropContext(sessionId: string)
      requires Valid()
      modifies this
      ensures Valid() && Conn() == old(Conn())
      ensures contexts == old(contexts) - {sessionId}
      ensures conversations == old(conversations) && preferences == old(preferences) && sessions == old(sessions)
    {
      contexts := contexts - {sessionId};
    }

    /** `conversations.deleteMany({ sessionId })`. */
    method DropTurns(sessionId: string)
      requires Valid()
      modifies this
      ensures Valid() && Conn() == old(Conn())
      ensures conversations == Select(old(conversations), sessionId, false)
      ensures contexts == old(contexts) && preferences == old(preferences) && sessions == old(sessions)
    {
      SelectKeepsStamps(conversations, sessionId, false, clock.now);
      conversations := Select(conversations, sessionId, false);
    }

    /** `user_preferences.deleteMany({ sessionId })`. */
    method DropPreferences(sessionId: string)
      requires Valid()
      modifies this
      ensures Valid() && Conn() == old(Conn())
      ensures preferences == PrefsWithout(old(preferences), sessionId)
      ensures contexts == old(contexts) && conversations == old(conversations) && sessions == old(sessions)
    {
      PrefsWithoutUnique(preferences, sessionId);
      preferences := PrefsWithout(preferences, sessionId);
    }

    /** `sessions.deleteOne({ sessionId })`. */
    method DropSession(sessionId: string)
      requires Valid()
      modifies this
      ensures Valid() && Conn() == old(Conn())
      ensures sessions == old(sessions) - {sessionId}
      ensures contexts == old(contexts) && conversations == old(conversations) && preferences == old(preferences)
    {
      sessions := sessions - {sessionId};
    }
  }

  lemma {:induction false} SelectSubset(log: seq<Doc>, s: string, keep: bool)
    ensures forall d :: d in Select(log, s, keep) ==> d in log && BelongsTo(d, s) == keep
  {
    if log != [] {
      SelectSubset(log[1..], s, keep);
    }
  }

  /** Selecting from a chronological log keeps it chronological and keeps every timestamp. */
  lemma {:induction false} SelectKeepsOrder(log: seq<Doc>, s: string, keep: bool)
    requires Chronological(log)
    ensures Chronological(Select(log, s, keep))
    ensures forall d :: d in Select(log, s, keep) ==> d in log
  {
    SelectSubset(log, s, keep);
    if log != [] {
      assert Chronological(log[1..]);
      SelectKeepsOrder(log[1..], s, keep);
      var rest := Select(log[1..], s, keep);
      SelectSubset(log[1..], s, keep);
      forall j | 0 <= j < |rest| ensures TurnTime(log[0]) < TurnTime(rest[j]) {
        assert rest[j] in log[1..];
        var k :| 0 <= k < |log[1..]| && log[1..][k] == rest[j];
        assert log[k + 1] == rest[j];
      }
    }
  }

  /** What `Valid` asks of the log survives a selection: order and timestamps below `now`. */
  lemma SelectKeepsStamps(log: seq<Doc>, s: string, keep: bool, now: int)
    requires Chronological(log)
    requires forall i :: 0 <= i < |log| ==> 0 <= TurnTime(log[i]) < now
    ensures Chronological(Select(log, s, keep))
    ensures forall i :: 0 <= i < |Select(log, s, keep)| ==> 0 <= TurnTime(Select(log, s, keep)[i]) < now
  {
    SelectKeepsOrder(log, s, keep);
    var kept := Select(log, s, keep);
    forall i | 0 <= i < |kept| ensures 0 <= TurnTime(kept[i]) < now {
      assert kept[i] in log;
    }
  }

  lemma {:induction false} PrefsWithoutSubset(rows: seq<Preference>, s: string)
    ensures forall p :: p in PrefsWithout(rows, s) ==> p in rows[..] && p.sessionId != s
  {
    if rows != [] {
      PrefsWithoutSubset(rows[..|rows| - 1], s);
    }
  }

  lemma {:induction false} PrefsWithoutUnique(rows: seq<Preference>, s: string)
    requires UniquePrefs(rows)
    ensures UniquePrefs(PrefsWithout(rows, s))
  {
    if rows != [] {
      var init := rows[..|rows| - 1];
      var last := rows[|rows| - 1];
      PrefsWithoutUnique(init, s);
      PrefsWithoutSubset(init, s);
      var kept := PrefsWithout(init, s);
      if last.sessionId != s {
        forall i | 0 <= i < |kept|
          ensures !(kept[i].sessionId == last.sessionId && kept[i].key == last.key)
        {
          assert kept[i] in init;
          var j :| 0 <= j < |init| && init[j] == kept[i];
          assert rows[j] == kept[i];
        }
      }
    }
  }

  lemma UpsertedUnique(rows: seq<Preference>, s: string, k: string, v: Value, now: nat)
    requires UniquePrefs(rows)
    ensures UniquePrefs(Upserted(rows, s, k, v, now))
  {
  }
}
