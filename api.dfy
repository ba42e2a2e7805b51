/**
 * The query gateway of `routes/api.js`: the in-memory credential map shared
 * with the OAuth routes, the session gate in front of the routes, and the
 * `/query` handler. The handler reads the session's context, recent turns
 * and preferences for the assistant and records the exchange afterwards;
 * every store failure there is swallowed and only the assistant's own
 * failure reaches the client.
 */
module Api {
  import opened Wrappers
  import opened Json
  import opened DbService

  /** The credential map `tokenStore`: session id to the OAuth tokens of that session. */
  class TokenStore {
    var entries: map<string, Value>

    constructor()
      ensures entries == map[]
    {
      entries := map[];
    }
  }

  /** `tokenStore.get(id)`: `undefined` for an id with no entry. */
  function TokensOf(entries: map<string, Value>, id: string): Value {
    if id in entries then entries[id] else Undefined
  }

  /** The outcome of the `getTokens` gate: the request goes on with the session's tokens, or is answered. */
  datatype Gate = Pass(tokens: Value) | Block(status: nat, error: string)

  /**
   * `getTokens`: the `x-session-id` header (absent is `None`) must be
   * non-empty and name an entry whose tokens are truthy.
   */
  function GetTokens(entries: map<string, Value>, header: Option<string>): (g: Gate)
    ensures g.Block? ==> g.status == 401
    ensures g == Block(401, "No session ID provided") <==> header.None? || header.value == ""
    ensures g.Pass? <==> header.Some? && header.value != "" && Truthy(TokensOf(entries, header.value))
    ensures g.Pass? ==> header.value in entries && g.tokens == entries[header.value]
  {
    if header.None? || header.value == "" then Block(401, "No session ID provided")
    else
      var tokens := TokensOf(entries, header.value);
      if !Truthy(tokens) then Block(401, "Invalid session") else Pass(tokens)
  }

  /**
   * The assistant built from a session's tokens. Its source is not part of
   * this model: each operation is an arbitrary function of its arguments
   * that answers or throws.
   */
  datatype Assistant = Assistant(
    processQuery: (Value, Value, seq<Doc>, Value, map<string, Value>) -> Result<Value>,
    handleScheduleQuery: (Value, Value) -> Result<Value>,
    handleTravelQuery: (Value, Value) -> Result<Value>)

  /** The turn recorded for the user's query. */
  function UserTurn(query: Value): Doc {
    map["type" := Str("user"), "content" := query, "method" := Str("query")]
  }

  /** The turn recorded for the assistant's answer. */
  function AssistantTurn(content: Value, metadata: Value): Doc {
    map["type" := Str("assistant"), "content" := content, "method" := Str("query"), "metadata" := metadata]
  }

  /** Each `last*` field the query saves in the context, with the property of the response it copies. */
  const MirroredFields: seq<(string, string)> := [
    ("lastResponse", "content"), ("lastEvents", "events"), ("lastTravelTimes", "travelTimes"),
    ("lastMeeting", "meeting"), ("lastTasks", "tasks"), ("lastFiles", "files"),
    ("lastContacts", "contacts"), ("lastMessages", "messages"), ("lastVideos", "videos"),
    ("lastWeather", "weather"), ("lastForecasts", "forecasts"), ("lastPlaces", "places"),
    ("lastTimezone", "timezone"), ("lastForms", "forms"), ("lastResults", "results"),
    ("lastPlaylists", "playlists")]

  /** No field is named twice. */
  predicate DistinctFields(fields: seq<(string, string)>) {
    forall i, j :: 0 <= i < j < |fields| ==> fields[i].0 != fields[j].0
  }

  /** The fields `{ name: response?.property, ... }`, in order. */
  function Mirror(response: Value, fields: seq<(string, string)>): Doc {
    if fields == [] then map[]
    else
      var last := fields[|fields| - 1];
      Mirror(response, fields[..|fields| - 1])[last.0 := OptionalGet(response, last.1)]
  }

  /** The mirror has exactly the listed names. */
  lemma {:induction false} MirrorKeys(response: Value, fields: seq<(string, string)>)
    ensures forall k :: k in Mirror(response, fields) <==> exists i :: 0 <= i < |fields| && fields[i].0 == k
  {
    if fields != [] {
      var init := fields[..|fields| - 1];
      MirrorKeys(response, init);
      forall k | k in Mirror(response, fields) ensures exists i :: 0 <= i < |fields| && fields[i].0 == k {
        if k != fields[|fields| - 1].0 {
          assert k in Mirror(response, init);
          var i :| 0 <= i < |init| && init[i].0 == k;
          assert fields[i] == init[i];
        }
      }
      forall k | exists i :: 0 <= i < |fields| && fields[i].0 == k ensures k in Mirror(response, fields) {
        var i :| 0 <= i < |fields| && fields[i].0 == k;
        if i < |init| {
          assert init[i] == fields[i];
        }
      }
    }
  }

  /** With distinct names, each name holds the response's property it copies. */
  lemma {:induction false} MirrorValue(response: Value, fields: seq<(string, string)>, i: nat)
    requires DistinctFields(fields) && i < |fields|
    ensures fields[i].0 in Mirror(response, fields)
    ensures Mirror(response, fields)[fields[i].0] == OptionalGet(response, fields[i].1)
  {
    if i < |fields| - 1 {
      var init := fields[..|fields| - 1];
      assert init[i] == fields[i];
      MirrorValue(response, init, i);
    }
  }

  /** The names the update or the merge writes on their own. */
  predicate IsFixedKey(k: string) {
    k in {"lastQuery", "lastUpdated", "conversationCount", "createdAt", "sessionId", "updatedAt"}
  }

  /** The sixteen `last*` names are distinct. */
  lemma MirroredFieldsDistinct()
    ensures DistinctFields(MirroredFields)
  {
  }

  /** No `last*` name is one the update or the merge writes on its own. */
  lemma MirroredFieldsNotFixed()
    ensures forall i :: 0 <= i < |MirroredFields| ==> !IsFixedKey(MirroredFields[i].0)
  {
  }

  /** Both facts about the names, for callers that need them together. */
  lemma MirroredFieldsNames()
    ensures DistinctFields(MirroredFields)
    ensures forall i :: 0 <= i < |MirroredFields| ==> !IsFixedKey(MirroredFields[i].0)
  {
    MirroredFieldsDistinct();
    MirroredFieldsNotFixed();
  }

  /**
   * The partial context a query saves: every `last*` field, `undefined` when
   * the response lacks it, the query, the count read before the call plus
   * one, and the time.
   */
  function QueryContextUpdate(query: Value, response: Value, count: Value, now: nat): (u: Doc)
    ensures !ConflictsWithInsert(u)
  {
    MirrorKeys(response, MirroredFields);
    MirroredFieldsNames();
    Mirror(response, MirroredFields)["lastQuery" := query]["conversationCount" := PlusOne(count)]["lastUpdated" := Time(now)]
  }

  /** The query's update names the sixteen `last*` fields, the query, the count and the time, and nothing else. */
  lemma QueryContextUpdateKeys(query: Value, response: Value, count: Value, now: nat)
    ensures forall k :: k in QueryContextUpdate(query, response, count, now) <==>
                        k in {"lastQuery", "conversationCount", "lastUpdated"} ||
                        exists i :: 0 <= i < |MirroredFields| && MirroredFields[i].0 == k
  {
    var m := Mirror(response, MirroredFields);
    assert QueryContextUpdate(query, response, count, now) == m["lastQuery" := query]["conversationCount" := PlusOne(count)]["lastUpdated" := Time(now)];
    MirrorKeys(response, MirroredFields);
  }

  /** Each field of the query's update holds what the route copies into it. */
  lemma QueryContextUpdateFields(query: Value, response: Value, count: Value, now: nat)
    ensures var u := QueryContextUpdate(query, response, count, now);
            && (forall i :: 0 <= i < |MirroredFields| ==>
                  MirroredFields[i].0 in u && u[MirroredFields[i].0] == OptionalGet(response, MirroredFields[i].1))
            && "lastQuery" in u && u["lastQuery"] == query
            && "lastUpdated" in u && u["lastUpdated"] == Time(now)
            && "conversationCount" in u && u["conversationCount"] == PlusOne(count)
  {
    var m := Mirror(response, MirroredFields);
    var u := QueryContextUpdate(query, response, count, now);
    assert u == m["lastQuery" := query]["conversationCount" := PlusOne(count)]["lastUpdated" := Time(now)];
    MirroredFieldsNames();
    forall i | 0 <= i < |MirroredFields|
      ensures MirroredFields[i].0 in u && u[MirroredFields[i].0] == OptionalGet(response, MirroredFields[i].1)
    {
      MirrorValue(response, MirroredFields, i);
      assert !IsFixedKey(MirroredFields[i].0);
    }
  }

  /** A context document that records a query: its `last*` fields, the query and the incremented count. */
  predicate RecordsQuery(d: Doc, query: Value, response: Value, count: Value) {
    && (forall i :: 0 <= i < |MirroredFields| ==>
          MirroredFields[i].0 in d && d[MirroredFields[i].0] == OptionalGet(response, MirroredFields[i].1))
    && "lastQuery" in d && d["lastQuery"] == query
    && "conversationCount" in d && d["conversationCount"] == PlusOne(count)
  }

  /** Saving the query's update records the query, whatever the document held before. */
  lemma SavedQueryRecorded(existing: Option<Doc>, s: string, query: Value, response: Value, count: Value, now: nat, t: nat)
    ensures RecordsQuery(Merged(existing, s, QueryContextUpdate(query, response, count, now), t), query, response, count)
  {
    MirroredFieldsNames();
    QueryContextUpdateFields(query, response, count, now);
    var u := QueryContextUpdate(query, response, count, now);
    var d := Merged(existing, s, u, t);
    MergedFields(existing, s, u, t);
    forall i | 0 <= i < |MirroredFields|
      ensures MirroredFields[i].0 in d && d[MirroredFields[i].0] == OptionalGet(response, MirroredFields[i].1)
    {
      var k := MirroredFields[i].0;
      assert k in u && k != "sessionId" && k != "updatedAt";
    }
  }

  /** `currentLocation || context?.currentLocation || null`. */
  function QueryLocation(currentLocation: Value, context: Value): (r: Value)
    ensures Truthy(currentLocation) ==> r == currentLocation
    ensures !Truthy(currentLocation) && Truthy(OptionalGet(context, "currentLocation")) ==> r == OptionalGet(context, "currentLocation")
    ensures !Truthy(currentLocation) && !Truthy(OptionalGet(context, "currentLocation")) ==> r == Null
  {
    Or(currentLocation, Or(OptionalGet(context, "currentLocation"), Null))
  }

  /** What the assistant is given: the context (`{}` when none), the last ten turns and the preferences. */
  datatype Snapshot = Snapshot(context: Value, history: seq<Doc>, preferences: map<string, Value>)

  /**
   * The snapshot `/query` holds after its reads: a read that fails ends
   * the block, and it and every later read leave their defaults.
   */
  function ReadSnapshot(contexts: map<string, Doc>, conversations: seq<Doc>, preferences: seq<Preference>,
                        s: string, up0: bool, up1: bool, up2: bool): Snapshot
  {
    var context := if up0 then Obj(match Lookup(contexts, s) case Some(d) => d case None => map[]) else Obj(map[]);
    var history := if up0 && up1 then History(conversations, s, 10) else [];
    var prefs := if up0 && up1 && up2 then PrefMap(preferences, s) else map[];
    Snapshot(context, history, prefs)
  }

  /**
   * Which of the store calls of one `/query` the backend fails, call site
   * by call site: the three reads, the user's turn, the assistant's turn
   * and the context save. A call that is never reached ignores its flag.
   */
  datatype Outages = Outages(context: bool, history: bool, preferences: bool, userTurn: bool, reply: bool, save: bool)

  /** The user's turn is recorded only when the three reads and the append all succeed. */
  predicate UserRecorded(o: Outages) {
    !o.context && !o.history && !o.preferences && !o.userTurn
  }

  /** The clock readings the first block takes: one when the user's turn is recorded. */
  function UserTicks(o: Outages): nat {
    if UserRecorded(o) then 1 else 0
  }

  /** The reply of a route: a JSON body, or an error status with its message. */
  datatype Response = Json(body: Value) | Failure(status: nat, error: string)

  /**
   * The first `try` block of `/query`: the three reads, then the user's
   * turn, each call served unless its flag in `o` is set.
   */
  method LoadQueryContext(db: DatabaseService, s: string, query: Value, o: Outages)
    returns (snap: Snapshot)
    requires db.Valid()
    modifies db, db.clock
    ensures db.Valid()
    ensures snap == ReadSnapshot(old(db.contexts), old(db.conversations), old(db.preferences), s, !o.context, !o.history, !o.preferences)
    ensures db.conversations == old(db.conversations) + UserPart(s, query, o, old(db.clock.now))
    ensures db.clock.now == old(db.clock.now) + UserTicks(o)
    ensures db.contexts == old(db.contexts) && db.preferences == old(db.preferences) && db.sessions == old(db.sessions)
  {
    snap := Snapshot(Obj(map[]), [], map[]);
    var found := db.GetContext(s, !o.context);
    if found.Err? { return; }
    snap := snap.(context := Obj(match found.value case Some(d) => d case None => map[]));
    var history := db.GetConversationHistory(s, 10, !o.history);
    if history.Err? { return; }
    snap := snap.(history := history.value);
    var prefs := db.GetUserPreferences(s, !o.preferences);
    if prefs.Err? { return; }
    snap := snap.(preferences := prefs.value);
    var added := db.AddConversationHistory(s, UserTurn(query), !o.userTurn);
  }

  /** The assistant's answer to the query, given what the reads gathered. */
  function Ask(assistant: Assistant, query: Value, currentLocation: Value, snap: Snapshot): Result<Value> {
    assistant.processQuery(query, QueryLocation(currentLocation, snap.context), snap.history, snap.context, snap.preferences)
  }

  /** The assistant's answer is recorded when it has a readable `content` and the append is served. */
  predicate AnswerRecorded(answer: Result<Value>, o: Outages) {
    answer.Ok? && Member(answer.value, "content").Ok? && !o.reply
  }

  /** The context is updated when the answer is recorded and the save that follows is served. */
  predicate ContextRecorded(answer: Result<Value>, o: Outages) {
    AnswerRecorded(answer, o) && !o.save
  }

  /**
   * The turns one `/query` that starts at clock reading `t` appends: the
   * user's turn when the first block completes, then the assistant's when
   * it is recorded.
   */
  function QueryTurns(s: string, query: Value, answer: Result<Value>, o: Outages, t: nat): seq<Doc> {
    UserPart(s, query, o, t) + ReplyPart(s, answer, o, t)
  }

  /** The user's turn, stamped `t`, when it is recorded. */
  function UserPart(s: string, query: Value, o: Outages, t: nat): seq<Doc> {
    if UserRecorded(o) then [Stamped(s, UserTurn(query), t)] else []
  }

  /** The assistant's turn, stamped with the reading after the first block's, when it is recorded. */
  function ReplyPart(s: string, answer: Result<Value>, o: Outages, t: nat): seq<Doc> {
    if AnswerRecorded(answer, o)
    then [Stamped(s, AssistantTurn(Member(answer.value, "content").value, answer.value), t + UserTicks(o))]
    else []
  }

  /**
   * The contexts after one `/query` that starts at clock reading `t`: the
   * session's document merged with the query's update when it is saved.
   * The update's `lastUpdated` is the reading after the assistant's turn.
   */
  function ContextAfterQuery(contexts: map<string, Doc>, s: string, query: Value, answer: Result<Value>,
                             count: Value, o: Outages, t: nat): map<string, Doc> {
    if ContextRecorded(answer, o)
    then QuerySaved(contexts, s, query, answer.value, count, t + UserTicks(o) + 1)
    else contexts
  }

  /** The contexts after the query's update, read at `t`, is merged into the session's document. */
  function QuerySaved(contexts: map<string, Doc>, s: string, query: Value, response: Value, count: Value, t: nat): map<string, Doc> {
    contexts[s := Merged(Lookup(contexts, s), s, QueryContextUpdate(query, response, count, t), t + 1)]
  }

  /**
   * A query appends at most two turns, both the session's, with increasing
   * timestamps; the user's comes first and is there exactly when the reads
   * and its append succeed, so a failed read leaves only an assistant turn.
   */
  lemma QueryTurnsShape(s: string, query: Value, answer: Result<Value>, o: Outages, t: nat)
    ensures var turns := QueryTurns(s, query, answer, o, t);
            && |turns| == UserTicks(o) + (if AnswerRecorded(answer, o) then 1 else 0)
            && (forall i :: 0 <= i < |turns| ==> BelongsTo(turns[i], s) && TurnTime(turns[i]) == t + i)
            && (UserRecorded(o) ==> Get(turns[0], "type") == Str("user") && Get(turns[0], "content") == query)
            && (!UserRecorded(o) ==> forall i :: 0 <= i < |turns| ==> Get(turns[i], "type") == Str("assistant"))
            && (AnswerRecorded(answer, o) ==> Get(turns[|turns| - 1], "metadata") == answer.value)
  {
    var turns := QueryTurns(s, query, answer, o, t);
    StampedUserTurn(s, query, t);
    if AnswerRecorded(answer, o) {
      StampedAssistantTurn(s, Member(answer.value, "content").value, answer.value, t + UserTicks(o));
      assert turns[|turns| - 1] == Stamped(s, AssistantTurn(Member(answer.value, "content").value, answer.value), t + UserTicks(o));
    }
  }

  /** The user's turn, once stamped, is the session's, says who spoke and what was asked, and bears its time. */
  lemma StampedUserTurn(s: string, query: Value, t: nat)
    ensures var u := Stamped(s, UserTurn(query), t);
            BelongsTo(u, s) && TurnTime(u) == t && Get(u, "type") == Str("user") && Get(u, "content") == query
  {
    assert "sessionId" !in UserTurn(query);
  }

  /** The assistant's turn, once stamped, is the session's, says who spoke, keeps the metadata and bears its time. */
  lemma StampedAssistantTurn(s: string, content: Value, metadata: Value, t: nat)
    ensures var a := Stamped(s, AssistantTurn(content, metadata), t);
            BelongsTo(a, s) && TurnTime(a) == t && Get(a, "type") == Str("assistant") && Get(a, "metadata") == metadata
  {
    assert "sessionId" !in AssistantTurn(content, metadata);
  }

  /** A query changes only its own session's context, and none when the save does not happen. */
  lemma QueryContextOthers(contexts: map<string, Doc>, s: string, query: Value, answer: Result<Value>,
                           count: Value, o: Outages, t: nat)
    ensures ContextAfterQuery(contexts, s, query, answer, count, o, t) - {s} == contexts - {s}
    ensures !ContextRecorded(answer, o) ==> ContextAfterQuery(contexts, s, query, answer, count, o, t) == contexts
  {
    if ContextRecorded(answer, o) {
      var saved := t + UserTicks(o) + 1;
      assert ContextAfterQuery(contexts, s, query, answer, count, o, t) == QuerySaved(contexts, s, query, answer.value, count, saved);
      QuerySavedShape(contexts, s, query, answer.value, count, saved);
    }
  }

  /**
   * When the save is served, the session's context records the query, the
   * answer's `last*` fields and the count read before the call plus one.
   */
  lemma QueryContextRecords(contexts: map<string, Doc>, s: string, query: Value, answer: Result<Value>,
                            count: Value, o: Outages, t: nat)
    requires ContextRecorded(answer, o)
    ensures var after := ContextAfterQuery(contexts, s, query, answer, count, o, t);
            s in after && RecordsQuery(after[s], query, answer.value, count)
  {
    var saved := t + UserTicks(o) + 1;
    var after := ContextAfterQuery(contexts, s, query, answer, count, o, t);
    assert after == QuerySaved(contexts, s, query, answer.value, count, saved);
    QuerySavedShape(contexts, s, query, answer.value, count, saved);
    assert s in after && RecordsQuery(after[s], query, answer.value, count);
  }

  /** Saving the query's update touches only the session's document, which then records the query. */
  lemma QuerySavedShape(contexts: map<string, Doc>, s: string, query: Value, response: Value, count: Value, t: nat)
    ensures var after := QuerySaved(contexts, s, query, response, count, t);
            after - {s} == contexts - {s} && s in after && RecordsQuery(after[s], query, response, count)
  {
    var d := Merged(Lookup(contexts, s), s, QueryContextUpdate(query, response, count, t), t + 1);
    SavedQueryRecorded(Lookup(contexts, s), s, query, response, count, t, t + 1);
    assert QuerySaved(contexts, s, query, response, count, t) == contexts[s := d];
    assert contexts[s := d] - {s} == contexts - {s};
  }

  /**
   * The context update at the end of the second `try` block: the clock is
   * read for `lastUpdated`, then the partial update is saved.
   */
  method SaveQueryContext(db: DatabaseService, s: string, query: Value, response: Value, count: Value, up: bool,
                          ghost at: nat)
    requires db.Valid() && db.clock.now == at
    modifies db, db.clock
    ensures db.Valid()
    ensures db.conversations == old(db.conversations)
    ensures db.preferences == old(db.preferences) && db.sessions == old(db.sessions)
    ensures db.contexts == if up then QuerySaved(old(db.contexts), s, query, response, count, at) else old(db.contexts)
  {
    var now := db.clock.Read();
    assert now == at;
    var update := QueryContextUpdate(query, response, count, now);
    ghost var expected := QuerySaved(old(db.contexts), s, query, response, count, at);
    assert expected == old(db.contexts)[s := Merged(Lookup(old(db.contexts), s), s, update, at + 1)];
    var saved := db.SaveContext(s, update, up);
    assert saved.Ok? <==> up;
  }

  /**
   * What follows the assistant's call: a failed call is the 500 reply;
   * otherwise the second `try` block records the assistant's turn, then
   * the context update, and the answer is the reply. Reading `content` of
   * an `undefined` or `null` answer throws before either write.
   */
  method Respond(db: DatabaseService, s: string, query: Value, answer: Result<Value>, count: Value,
                 o: Outages, ghost t: nat) returns (r: Response)
    requires db.Valid() && db.clock.now == t + UserTicks(o)
    modifies db, db.clock
    ensures db.Valid()
    ensures r == (if answer.Ok? then Json(answer.value) else Failure(500, answer.message))
    ensures db.preferences == old(db.preferences) && db.sessions == old(db.sessions)
    ensures db.conversations == old(db.conversations) + ReplyPart(s, answer, o, t)
    ensures db.contexts == ContextAfterQuery(old(db.contexts), s, query, answer, count, o, t)
  {
    if answer.Err? {
      return Failure(500, answer.message);
    }
    r := Json(answer.value);
    if Member(answer.value, "content").Ok? {
      RecordReply(db, s, query, answer, count, o, t);
    } else {
      assert ReplyPart(s, answer, o, t) == [];
      assert ContextAfterQuery(old(db.contexts), s, query, answer, count, o, t) == old(db.contexts);
    }
  }

  /** The second `try` block once `content` is read: the assistant's turn, then the context update. */
  method RecordReply(db: DatabaseService, s: string, query: Value, answer: Result<Value>, count: Value,
                     o: Outages, ghost t: nat)
    requires db.Valid() && db.clock.now == t + UserTicks(o)
    requires answer.Ok? && Member(answer.value, "content").Ok?
    modifies db, db.clock
    ensures db.Valid()
    ensures db.preferences == old(db.preferences) && db.sessions == old(db.sessions)
    ensures db.conversations == old(db.conversations) + ReplyPart(s, answer, o, t)
    ensures db.contexts == ContextAfterQuery(old(db.contexts), s, query, answer, count, o, t)
  {
    ghost var contexts := db.contexts;
    var recorded := AppendReply(db, s, answer, o, t);
    if recorded {
      ghost var saved := t + UserTicks(o) + 1;
      assert ContextAfterQuery(contexts, s, query, answer, count, o, t)
          == if !o.save then QuerySaved(contexts, s, query, answer.value, count, saved) else contexts;
      SaveQueryContext(db, s, query, answer.value, count, !o.save, saved);
    } else {
      assert ContextAfterQuery(contexts, s, query, answer, count, o, t) == contexts;
    }
  }

  /** The assistant's turn, once its `content` is read. */
  method AppendReply(db: DatabaseService, s: string, answer: Result<Value>, o: Outages, ghost t: nat) returns (recorded: bool)
    requires db.Valid() && db.clock.now == t + UserTicks(o)
    requires answer.Ok? && Member(answer.value, "content").Ok?
    modifies db, db.clock
    ensures db.Valid()
    ensures recorded == AnswerRecorded(answer, o)
    ensures db.clock.now == t + UserTicks(o) + (if recorded then 1 else 0)
    ensures db.conversations == old(db.conversations) + ReplyPart(s, answer, o, t)
    ensures db.contexts == old(db.contexts) && db.preferences == old(db.preferences) && db.sessions == old(db.sessions)
  {
    var added := db.AddConversationHistory(s, AssistantTurn(Member(answer.value, "content").value, answer.value), !o.reply);
    recorded := added.Ok?;
  }

  /**
   * `POST /query` behind `getTokens`. A request the gate blocks, or one
   * without a query, is answered before any store access.
   */
  method Query(db: DatabaseService, store: TokenStore, header: Option<string>, body: Doc,
               assistantFor: Value -> Assistant, o: Outages) returns (r: Response)
    requires db.Valid()
    modifies db, db.clock
    ensures db.Valid()
    ensures GetTokens(store.entries, header).Block? ==>
              r == Failure(401, GetTokens(store.entries, header).error) && unchanged(db) && unchanged(db.clock)
    ensures GetTokens(store.entries, header).Pass? && !Truthy(Get(body, "query")) ==>
              r == Failure(400, "Query is required") && unchanged(db) && unchanged(db.clock)
    ensures GetTokens(store.entries, header).Pass? && Truthy(Get(body, "query")) ==>
              var s := header.value;
              var query := Get(body, "query");
              var snap := ReadSnapshot(old(db.contexts), old(db.conversations), old(db.preferences), s, !o.context, !o.history, !o.preferences);
              var answer := Ask(assistantFor(GetTokens(store.entries, header).tokens), query, Get(body, "currentLocation"), snap);
              && r == (if answer.Ok? then Json(answer.value) else Failure(500, answer.message))
              && db.conversations == old(db.conversations) + QueryTurns(s, query, answer, o, old(db.clock.now))
              && db.contexts == ContextAfterQuery(old(db.contexts), s, query, answer, OptionalGet(snap.context, "conversationCount"),
                                                  o, old(db.clock.now))
    ensures db.preferences == old(db.preferences) && db.sessions == old(db.sessions)
  {
    var gate := GetTokens(store.entries, header);
    if gate.Block? {
      return Failure(gate.status, gate.error);
    }
    var query := Get(body, "query");
    if !Truthy(query) {
      return Failure(400, "Query is required");
    }
    var s := header.value;
    ghost var t := db.clock.now;
    var read := LoadQueryContext(db, s, query, o);
    var answer := Ask(assistantFor(gate.tokens), query, Get(body, "currentLocation"), read);
    r := Respond(db, s, query, answer, OptionalGet(read.context, "conversationCount"), o, t);
  }
}
