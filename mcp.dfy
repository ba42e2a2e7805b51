/**
 * The command dispatcher of routes/mcp.js, `POST /execute`: a session
 * check against the credential map, three reads that form the snapshot
 * (context, last ten turns, preferences), then one of eleven commands,
 * each with its own parameter checks and store writes. Everything runs in
 * one `try`: a failed store call or a failing assistant is a 500 reply.
 *
 * The handler is a method over the store, proved against `Outcome`, a
 * function from the store's contents to the reply and the new contents;
 * the properties of the route are lemmas about `Outcome`.
 */
module Mcp {
  import opened Wrappers
  import opened Json
  import opened DbService
  import Api

  /** The `method` of a request: one of the eleven `case` labels, or anything else. */
  datatype Command =
    | Query
    | GetSchedule
    | GetTravelTime
    | SaveContext
    | GetContext
    | GetConversationHistory
    | SavePreference
    | GetPreferences
    | SearchContext
    | UpdateLocation
    | ClearContext
    | Unknown(text: string)

  /** The `case` label of a listed command. */
  function CommandName(c: Command): string
    requires !c.Unknown?
  {
    match c
    case Query => "query"
    case GetSchedule => "get_schedule"
    case GetTravelTime => "get_travel_time"
    case SaveContext => "save_context"
    case GetContext => "get_context"
    case GetConversationHistory => "get_conversation_history"
    case SavePreference => "save_preference"
    case GetPreferences => "get_preferences"
    case SearchContext => "search_context"
    case UpdateLocation => "update_location"
    case ClearContext => "clear_context"
  }

  /**
   * The branch `switch (method)` takes: `case` compares with `===`, so only
   * the exact strings select a command; any other value falls to `default`,
   * which shows it as a template literal does.
   */
  function ParseCommand(selector: Value): (c: Command)
    ensures !c.Unknown? ==> selector == Str(CommandName(c))
    ensures c.Unknown? ==> c.text == Display(selector)
  {
    if selector == Str("query") then Query
    else if selector == Str("get_schedule") then GetSchedule
    else if selector == Str("get_travel_time") then GetTravelTime
    else if selector == Str("save_context") then SaveContext
    else if selector == Str("get_context") then GetContext
    else if selector == Str("get_conversation_history") then GetConversationHistory
    else if selector == Str("save_preference") then SavePreference
    else if selector == Str("get_preferences") then GetPreferences
    else if selector == Str("search_context") then SearchContext
    else if selector == Str("update_location") then UpdateLocation
    else if selector == Str("clear_context") then ClearContext
    else Unknown(Display(selector))
  }

  /** Every listed command is selected by its own label, so no two commands share one. */
  lemma CommandRoundTrip(c: Command)
    requires !c.Unknown?
    ensures ParseCommand(Str(CommandName(c))) == c
  {
  }

  /** The contents of the four collections and the clock. */
  datatype Store = Store(contexts: map<string, Doc>, conversations: seq<Doc>, preferences: seq<Preference>,
                         sessions: map<string, Doc>, now: nat)

  function StateOf(db: DatabaseService): Store
    reads db, db.clock
  {
    Store(db.contexts, db.conversations, db.preferences, db.sessions, db.clock.now)
  }

  /**
   * Which store calls of one request the backend fails: the three reads,
   * and the first, second and third call the command makes (only `query`
   * makes more than one), and which of the four deletes of `clear_context`
   * fail once it has connected. A call that is never reached ignores its flag.
   */
  datatype Faults = Faults(context: bool, history: bool, preferences: bool, first: bool, second: bool, third: bool,
                           deletes: DeleteFaults)

  /**
   * The reply the specification gives: a JSON body, a refusal with its
   * status and message, a 500 (whose message is the thrown error's), or a
   * page of the search, which is any newest-first page of the given
   * context documents (documents updated at the same time may come in
   * either order).
   */
  datatype Reply = Answered(body: Value) | Refused(status: nat, error: string) | Crashed | SearchPage(keys: set<string>)

  /** `{ result: v }` */
  function ResultBody(v: Value): Value {
    Obj(map["result" := v])
  }

  /** An array of documents. */
  function DocList(docs: seq<Doc>): Value {
    List(seq(|docs|, i requires 0 <= i < |docs| => Obj(docs[i])))
  }

  /** The handler's response is the one the specification gives. */
  ghost predicate Conforms(r: Api.Response, e: Reply, contexts: map<string, Doc>) {
    match e
    case Answered(b) => r == Api.Json(b)
    case Refused(status, error) => r == Api.Failure(status, error)
    case Crashed => r.Failure? && r.status == 500
    case SearchPage(keys) =>
      keys <= contexts.Keys
      && exists picked :: NewestPage(contexts, keys, SearchLimit, picked) && r == Api.Json(ResultBody(DocList(DocsAt(contexts, picked))))
  }

  // ---- the store's operations, on its contents ----

  /** `saveContext(s, update)` at the current reading. */
  function WithContext(st: Store, s: string, update: Doc): Store
    requires !ConflictsWithInsert(update)
  {
    st.(contexts := st.contexts[s := Merged(Lookup(st.contexts, s), s, update, st.now)], now := st.now + 1)
  }

  /** `addConversationHistory(s, message)` at the current reading. */
  function WithTurn(st: Store, s: string, message: Doc): Store {
    st.(conversations := st.conversations + [Stamped(s, message, st.now)], now := st.now + 1)
  }

  /** `saveUserPreference(s, k, v)` at the current reading. */
  function WithPreference(st: Store, s: string, k: string, v: Value): Store {
    st.(preferences := Upserted(st.preferences, s, k, v, st.now), now := st.now + 1)
  }

  /** `deleteContext(s)` when the deletes in `lost` fail and the others are served. */
  function Cleared(st: Store, s: string, lost: DeleteFaults): Store {
    st.(contexts := if lost.contexts then st.contexts else st.contexts - {s},
        conversations := if lost.conversations then st.conversations else Select(st.conversations, s, false),
        preferences := if lost.preferences then st.preferences else PrefsWithout(st.preferences, s),
        sessions := if lost.sessions then st.sessions else st.sessions - {s})
  }

  /** `deleteContext(s)` with every delete served. */
  function WithoutSession(st: Store, s: string): Store {
    Cleared(st, s, DeleteFaults(false, false, false, false))
  }

  /** A `new Date()` in the handler itself. */
  function Tick(st: Store): Store {
    st.(now := st.now + 1)
  }

  /** `getContext` answers the document or `null`. */
  function ContextValue(d: Option<Doc>): Value {
    match d
    case Some(x) => Obj(x)
    case None => Null
  }

  /** What the three reads before the `switch` return. */
  function Snap(st: Store, s: string): Api.Snapshot {
    Api.Snapshot(ContextValue(Lookup(st.contexts, s)), History(st.conversations, s, 10), PrefMap(st.preferences, s))
  }

  // ---- the commands ----

  /** `{ type: response.type, ...response }` */
  function Metadata(response: Value): Doc {
    map["type" := OptionalGet(response, "type")] + Spread(response)
  }

  /** The reply of `query`: the answer, and the size of the history read before the `switch`. */
  function QueryBody(response: Value, snap: Api.Snapshot): Value {
    Obj(map["result" := response,
            "context" := Obj(map["hasHistory" := Bool(|snap.history| > 0),
                                 "historyCount" := Num(|snap.history|),
                                 "preferences" := Obj(snap.preferences)])])
  }

  /**
   * `query`: the user's turn, the assistant's answer, then what
   * `AnswerOutcome` records. Reading `query` of missing `params`, or
   * `content` of a missing answer, throws.
   */
  function QueryOutcome(st: Store, s: string, params: Value, a: Api.Assistant, snap: Api.Snapshot, f: Faults): (Reply, Store) {
    var q := Member(params, "query");
    if q.Err? || f.first then (Crashed, st)
    else
      var asked := WithTurn(st, s, Api.UserTurn(q.value));
      var response := a.processQuery(q.value, Or(OptionalGet(snap.context, "currentLocation"), Null),
                                     snap.history, snap.context, snap.preferences);
      if response.Err? || Member(response.value, "content").Err? then (Crashed, asked)
      else AnswerOutcome(asked, s, q.value, response.value, snap, f)
  }

  /** The assistant's turn, then `ContextOutcome`. */
  function AnswerOutcome(st: Store, s: string, query: Value, response: Value, snap: Api.Snapshot, f: Faults): (Reply, Store)
    requires Member(response, "content").Ok?
  {
    if f.second then (Crashed, st)
    else
      var turn := Api.AssistantTurn(Member(response, "content").value, Obj(Metadata(response)));
      ContextOutcome(WithTurn(st, s, turn), s, query, response, snap, f)
  }

  /** The context update, whose `lastUpdated` is read just before the save. */
  function ContextOutcome(st: Store, s: string, query: Value, response: Value, snap: Api.Snapshot, f: Faults): (Reply, Store) {
    var update := Api.QueryContextUpdate(query, response, OptionalGet(snap.context, "conversationCount"), st.now);
    if f.third then (Crashed, Tick(st))
    else (Answered(QueryBody(response, snap)), WithContext(Tick(st), s, update))
  }

  /** `get_schedule`: the assistant's schedule, saved as `lastSchedule`. */
  function ScheduleOutcome(st: Store, s: string, params: Value, a: Api.Assistant, f: Faults): (Reply, Store) {
    var q := Member(params, "query");
    if q.Err? then (Crashed, st)
    else
      var schedule := a.handleScheduleQuery(Or(q.value, Str("get schedule")), Null);
      if schedule.Err? || f.first then (Crashed, st)
      else (Answered(ResultBody(schedule.value)),
            WithContext(st, s, map["lastSchedule" := schedule.value, "lastQuery" := Str("get_schedule")]))
  }

  /** The travel question: the given query, or one made from `origin` and `destination`. */
  function TravelQuestion(query: Value, params: Value): Value {
    if Truthy(query) then query
    else Str("travel time from " + Display(OptionalGet(params, "origin")) + " to " + Display(OptionalGet(params, "destination")))
  }

  /** `get_travel_time`: the assistant's answer, saved as `lastTravelTime`. */
  function TravelOutcome(st: Store, s: string, params: Value, a: Api.Assistant, snap: Api.Snapshot, f: Faults): (Reply, Store) {
    var q := Member(params, "query");
    if q.Err? then (Crashed, st)
    else
      var travel := a.handleTravelQuery(TravelQuestion(q.value, params), Or(OptionalGet(snap.context, "currentLocation"), Null));
      if travel.Err? || f.first then (Crashed, st)
      else (Answered(ResultBody(travel.value)),
            WithContext(st, s, map["lastTravelTime" := travel.value, "lastQuery" := Str("get_travel_time")]))
  }

  /** `save_context`: the fields of `params.context || {}` merged into the session's document. */
  function SaveContextOutcome(st: Store, s: string, params: Value, f: Faults): (Reply, Store) {
    var c := Member(params, "context");
    if c.Err? then (Crashed, st)
    else
      var update := Spread(Or(c.value, Obj(map[])));
      if ConflictsWithInsert(update) || f.first then (Crashed, st)
      else (Answered(ResultBody(Success)), WithContext(st, s, update))
  }

  /** `get_context`: the stored document, read again, or `{}`. */
  function GetContextOutcome(st: Store, s: string, f: Faults): (Reply, Store) {
    if f.first then (Crashed, st)
    else (Answered(ResultBody(Obj(match Lookup(st.contexts, s) case Some(d) => d case None => map[]))), st)
  }

  /** `get_conversation_history`: `params.limit || 50` turns; the driver refuses a limit that is not a number. */
  function HistoryOutcome(st: Store, s: string, params: Value, f: Faults): (Reply, Store) {
    var l := Member(params, "limit");
    if l.Err? then (Crashed, st)
    else
      var limit := Or(l.value, Num(50));
      if !limit.Num? || f.first then (Crashed, st)
      else (Answered(ResultBody(DocList(History(st.conversations, s, limit.n)))), st)
  }

  /** `save_preference`: `key` is required; the key is stored under its text. */
  function SavePreferenceOutcome(st: Store, s: string, params: Value, f: Faults): (Reply, Store) {
    var key := Member(params, "key");
    if key.Err? then (Crashed, st)
    else if !Truthy(key.value) then (Refused(400, "key is required"), st)
    else if f.first then (Crashed, st)
    else (Answered(ResultBody(Success)), WithPreference(st, s, Display(key.value), OptionalGet(params, "value")))
  }

  /** `get_preferences`: the preference map, read again. */
  function GetPreferencesOutcome(st: Store, s: string, f: Faults): (Reply, Store) {
    if f.first then (Crashed, st)
    else (Answered(ResultBody(Obj(PrefMap(st.preferences, s)))), st)
  }

  /** `search_context`: `query` is required; the search is limited to the session. */
  function SearchOutcome(st: Store, s: string, params: Value, f: Faults): (Reply, Store) {
    var q := Member(params, "query");
    if q.Err? then (Crashed, st)
    else if !Truthy(q.value) then (Refused(400, "query is required"), st)
    else if !q.value.Str? || f.first then (Crashed, st)
    else (SearchPage(MatchingKeys(st.contexts, q.value.s, Some(s))), st)
  }

  /** `update_location`: `location` is required; it is saved with the time it was given. */
  function LocationOutcome(st: Store, s: string, params: Value, f: Faults): (Reply, Store) {
    var l := Member(params, "location");
    if l.Err? then (Crashed, st)
    else if !Truthy(l.value) then (Refused(400, "location is required"), st)
    else if f.first then (Crashed, Tick(st))
    else (Answered(ResultBody(Obj(map["success" := Bool(true), "location" := l.value]))),
          WithContext(Tick(st), s, map["currentLocation" := l.value, "locationUpdatedAt" := Time(st.now)]))
  }

  /**
   * `clear_context`: the session's documents leave each collection whose
   * delete is served; the reply is a 500 unless all four are.
   */
  function ClearOutcome(st: Store, s: string, f: Faults): (Reply, Store) {
    if f.first then (Crashed, st)
    else if AllDeleted(f.deletes) then (Answered(ResultBody(Success)), WithoutSession(st, s))
    else (Crashed, Cleared(st, s, f.deletes))
  }

  /** The `switch`. */
  function Dispatched(st: Store, s: string, c: Command, params: Value, a: Api.Assistant, snap: Api.Snapshot, f: Faults): (Reply, Store) {
    match c
    case Query => QueryOutcome(st, s, params, a, snap, f)
    case GetSchedule => ScheduleOutcome(st, s, params, a, f)
    case GetTravelTime => TravelOutcome(st, s, params, a, snap, f)
    case SaveContext => SaveContextOutcome(st, s, params, f)
    case GetContext => GetContextOutcome(st, s, f)
    case GetConversationHistory => HistoryOutcome(st, s, params, f)
    case SavePreference => SavePreferenceOutcome(st, s, params, f)
    case GetPreferences => GetPreferencesOutcome(st, s, f)
    case SearchContext => SearchOutcome(st, s, params, f)
    case UpdateLocation => LocationOutcome(st, s, params, f)
    case ClearContext => ClearOutcome(st, s, f)
    case Unknown(text) => (Refused(400, "Unknown method: " + text), st)
  }

  /** `tokenStore.get(sessionId)`: the map's keys are strings, so any other value finds nothing. */
  function SessionTokens(entries: map<string, Value>, sessionId: Value): Value {
    if sessionId.Str? then Api.TokensOf(entries, sessionId.s) else Undefined
  }

  /** The request gets past the session checks. */
  predicate Admitted(entries: map<string, Value>, body: Doc) {
    Truthy(Get(body, "sessionId")) && Truthy(SessionTokens(entries, Get(body, "sessionId")))
  }

  /** `POST /execute` over store contents `st`, with credential map `entries`. */
  function Outcome(st: Store, entries: map<string, Value>, body: Doc, assistantFor: Value -> Api.Assistant, f: Faults): (Reply, Store) {
    var sessionId := Get(body, "sessionId");
    if !Truthy(sessionId) then (Refused(400, "sessionId is required"), st)
    else
      var tokens := SessionTokens(entries, sessionId);
      if !Truthy(tokens) then (Refused(401, "Invalid session"), st)
      else if f.context || f.history || f.preferences then (Crashed, st)
      else
        var s := sessionId.s;
        Dispatched(st, s, ParseCommand(Get(body, "method")), Get(body, "params"), assistantFor(tokens), Snap(st, s), f)
  }

  // ---- the handler ----

  /** `POST /execute`. */
  method Execute(db: DatabaseService, store: Api.TokenStore, body: Doc, assistantFor: Value -> Api.Assistant, f: Faults)
    returns (r: Api.Response)
    requires db.Valid()
    modifies db, db.clock
    ensures db.Valid()
    ensures Conforms(r, Outcome(old(StateOf(db)), store.entries, body, assistantFor, f).0, old(db.contexts))
    ensures StateOf(db) == Outcome(old(StateOf(db)), store.entries, body, assistantFor, f).1
  {
    var sessionId := Get(body, "sessionId");
    if !Truthy(sessionId) {
      return Api.Failure(400, "sessionId is required");
    }
    var tokens := SessionTokens(store.entries, sessionId);
    if !Truthy(tokens) {
      return Api.Failure(401, "Invalid session");
    }
    var s := sessionId.s;
    var found := db.GetContext(s, !f.context);
    if found.Err? {
      return Api.Failure(500, found.message);
    }
    var history := db.GetConversationHistory(s, 10, !f.history);
    if history.Err? {
      return Api.Failure(500, history.message);
    }
    var prefs := db.GetUserPreferences(s, !f.preferences);
    if prefs.Err? {
      return Api.Failure(500, prefs.message);
    }
    var snap := Api.Snapshot(ContextValue(found.value), history.value, prefs.value);
    assert snap == Snap(old(StateOf(db)), s);
    r := Dispatch(db, s, ParseCommand(Get(body, "method")), Get(body, "params"), assistantFor(tokens), snap, f);
  }

  /** The `switch` over the command. */
  method Dispatch(db: DatabaseService, s: string, c: Command, params: Value, a: Api.Assistant, snap: Api.Snapshot, f: Faults)
    returns (r: Api.Response)
    requires db.Valid()
    modifies db, db.clock
    ensures db.Valid()
    ensures Conforms(r, Dispatched(old(StateOf(db)), s, c, params, a, snap, f).0, old(db.contexts))
    ensures StateOf(db) == Dispatched(old(StateOf(db)), s, c, params, a, snap, f).1
  {
    match c
    case Query => r := RunQuery(db, s, params, a, snap, f);
    case GetSchedule => r := RunSchedule(db, s, params, a, f);
    case GetTravelTime => r := RunTravel(db, s, params, a, snap, f);
    case SaveContext => r := RunSaveContext(db, s, params, f);
    case GetContext => r := RunGetContext(db, s, f);
    case GetConversationHistory => r := RunHistory(db, s, params, f);
    case SavePreference => r := RunSavePreference(db, s, params, f);
    case GetPreferences => r := RunGetPreferences(db, s, f);
    case SearchContext => r := RunSearch(db, s, params, f);
    case UpdateLocation => r := RunUpdateLocation(db, s, params, f);
    case ClearContext => r := RunClear(db, s, f);
    case Unknown(text) => r := Api.Failure(400, "Unknown method: " + text);
  }

  /** `case 'query'`. */
  method RunQuery(db: DatabaseService, s: string, params: Value, a: Api.Assistant, snap: Api.Snapshot, f: Faults)
    returns (r: Api.Response)
    requires db.Valid()
    modifies db, db.clock
    ensures db.Valid()
    ensures Conforms(r, QueryOutcome(old(StateOf(db)), s, params, a, snap, f).0, old(db.contexts))
    ensures StateOf(db) == QueryOutcome(old(StateOf(db)), s, params, a, snap, f).1
  {
    ghost var st := StateOf(db);
    var q := Member(params, "query");
    if q.Err? {
      return Api.Failure(500, q.message);
    }
    var added := db.AddConversationHistory(s, Api.UserTurn(q.value), !f.first);
    if added.Err? {
      return Api.Failure(500, added.message);
    }
    assert StateOf(db) == WithTurn(st, s, Api.UserTurn(q.value));
    var response := a.processQuery(q.value, Or(OptionalGet(snap.context, "currentLocation"), Null),
                                   snap.history, snap.context, snap.preferences);
    if response.Err? {
      return Api.Failure(500, response.message);
    }
    var content := Member(response.value, "content");
    if content.Err? {
      return Api.Failure(500, content.message);
    }
    r := RecordAnswer(db, s, q.value, response.value, snap, f);
  }

  /** The rest of `case 'query'`, once the answer's `content` is read. */
  method RecordAnswer(db: DatabaseService, s: string, query: Value, response: Value, snap: Api.Snapshot, f: Faults)
    returns (r: Api.Response)
    requires db.Valid() && Member(response, "content").Ok?
    modifies db, db.clock
    ensures db.Valid()
    ensures Conforms(r, AnswerOutcome(old(StateOf(db)), s, query, response, snap, f).0, old(db.contexts))
    ensures StateOf(db) == AnswerOutcome(old(StateOf(db)), s, query, response, snap, f).1
  {
    ghost var st := StateOf(db);
    var turn := Api.AssistantTurn(Member(response, "content").value, Obj(Metadata(response)));
    var reply := db.AddConversationHistory(s, turn, !f.second);
    if reply.Err? {
      return Api.Failure(500, reply.message);
    }
    assert StateOf(db) == WithTurn(st, s, turn);
    r := SaveAnswerContext(db, s, query, response, snap, f);
  }

  /** The context update that ends `case 'query'`. */
  method SaveAnswerContext(db: DatabaseService, s: string, query: Value, response: Value, snap: Api.Snapshot, f: Faults)
    returns (r: Api.Response)
    requires db.Valid()
    modifies db, db.clock
    ensures db.Valid()
    ensures Conforms(r, ContextOutcome(old(StateOf(db)), s, query, response, snap, f).0, old(db.contexts))
    ensures StateOf(db) == ContextOutcome(old(StateOf(db)), s, query, response, snap, f).1
  {
    ghost var st := StateOf(db);
    var now := db.clock.Read();
    assert StateOf(db) == Tick(st);
    var update := Api.QueryContextUpdate(query, response, OptionalGet(snap.context, "conversationCount"), now);
    var saved := db.SaveContext(s, update, !f.third);
    if saved.Err? {
      return Api.Failure(500, saved.message);
    }
    assert StateOf(db) == WithContext(Tick(st), s, update);
    r := Api.Json(QueryBody(response, snap));
  }

  /** `case 'get_schedule'`. */
  method RunSchedule(db: DatabaseService, s: string, params: Value, a: Api.Assistant, f: Faults)
    returns (r: Api.Response)
    requires db.Valid()
    modifies db, db.clock
    ensures db.Valid()
    ensures Conforms(r, ScheduleOutcome(old(StateOf(db)), s, params, a, f).0, old(db.contexts))
    ensures StateOf(db) == ScheduleOutcome(old(StateOf(db)), s, params, a, f).1
  {
    var q := Member(params, "query");
    if q.Err? {
      return Api.Failure(500, q.message);
    }
    var schedule := a.handleScheduleQuery(Or(q.value, Str("get schedule")), Null);
    if schedule.Err? {
      return Api.Failure(500, schedule.message);
    }
    var saved := db.SaveContext(s, map["lastSchedule" := schedule.value, "lastQuery" := Str("get_schedule")], !f.first);
    if saved.Err? {
      return Api.Failure(500, saved.message);
    }
    r := Api.Json(ResultBody(schedule.value));
  }

  /** `case 'get_travel_time'`. */
  method RunTravel(db: DatabaseService, s: string, params: Value, a: Api.Assistant, snap: Api.Snapshot, f: Faults)
    returns (r: Api.Response)
    requires db.Valid()
    modifies db, db.clock
    ensures db.Valid()
    ensures Conforms(r, TravelOutcome(old(StateOf(db)), s, params, a, snap, f).0, old(db.contexts))
    ensures StateOf(db) == TravelOutcome(old(StateOf(db)), s, params, a, snap, f).1
  {
    var q := Member(params, "query");
    if q.Err? {
      return Api.Failure(500, q.message);
    }
    var travel := a.handleTravelQuery(TravelQuestion(q.value, params), Or(OptionalGet(snap.context, "currentLocation"), Null));
    if travel.Err? {
      return Api.Failure(500, travel.message);
    }
    var saved := db.SaveContext(s, map["lastTravelTime" := travel.value, "lastQuery" := Str("get_travel_time")], !f.first);
    if saved.Err? {
      return Api.Failure(500, saved.message);
    }
    r := Api.Json(ResultBody(travel.value));
  }

  /** `case 'save_context'`. */
  method RunSaveContext(db: DatabaseService, s: string, params: Value, f: Faults) returns (r: Api.Response)
    requires db.Valid()
    modifies db, db.clock
    ensures db.Valid()
    ensures Conforms(r, SaveContextOutcome(old(StateOf(db)), s, params, f).0, old(db.contexts))
    ensures StateOf(db) == SaveContextOutcome(old(StateOf(db)), s, params, f).1
  {
    var c := Member(params, "context");
    if c.Err? {
      return Api.Failure(500, c.message);
    }
    var saved := db.SaveContext(s, Spread(Or(c.value, Obj(map[]))), !f.first);
    if saved.Err? {
      return Api.Failure(500, saved.message);
    }
    r := Api.Json(ResultBody(saved.value));
  }

  /** `case 'get_context'`. */
  method RunGetContext(db: DatabaseService, s: string, f: Faults) returns (r: Api.Response)
    requires db.Valid()
    modifies db
    ensures db.Valid()
    ensures Conforms(r, GetContextOutcome(old(StateOf(db)), s, f).0, old(db.contexts))
    ensures StateOf(db) == GetContextOutcome(old(StateOf(db)), s, f).1
  {
    var found := db.GetContext(s, !f.first);
    if found.Err? {
      return Api.Failure(500, found.message);
    }
    r := Api.Json(ResultBody(Or(ContextValue(found.value), Obj(map[]))));
  }

  /** `case 'get_conversation_history'`. */
  method RunHistory(db: DatabaseService, s: string, params: Value, f: Faults) returns (r: Api.Response)
    requires db.Valid()
    modifies db
    ensures db.Valid()
    ensures Conforms(r, HistoryOutcome(old(StateOf(db)), s, params, f).0, old(db.contexts))
    ensures StateOf(db) == HistoryOutcome(old(StateOf(db)), s, params, f).1
  {
    var l := Member(params, "limit");
    if l.Err? {
      return Api.Failure(500, l.message);
    }
    var limit := Or(l.value, Num(50));
    if !limit.Num? {
      return Api.Failure(500, "Operation \"limit\" requires an integer");
    }
    var history := db.GetConversationHistory(s, limit.n, !f.first);
    if history.Err? {
      return Api.Failure(500, history.message);
    }
    r := Api.Json(ResultBody(DocList(history.value)));
  }

  /** `case 'save_preference'`. */
  method RunSavePreference(db: DatabaseService, s: string, params: Value, f: Faults) returns (r: Api.Response)
    requires db.Valid()
    modifies db, db.clock
    ensures db.Valid()
    ensures Conforms(r, SavePreferenceOutcome(old(StateOf(db)), s, params, f).0, old(db.contexts))
    ensures StateOf(db) == SavePreferenceOutcome(old(StateOf(db)), s, params, f).1
  {
    var key := Member(params, "key");
    if key.Err? {
      return Api.Failure(500, key.message);
    }
    if !Truthy(key.value) {
      return Api.Failure(400, "key is required");
    }
    var saved := db.SaveUserPreference(s, Display(key.value), OptionalGet(params, "value"), !f.first);
    if saved.Err? {
      return Api.Failure(500, saved.message);
    }
    r := Api.Json(ResultBody(saved.value));
  }

  /** `case 'get_preferences'`. */
  method RunGetPreferences(db: DatabaseService, s: string, f: Faults) returns (r: Api.Response)
    requires db.Valid()
    modifies db
    ensures db.Valid()
    ensures Conforms(r, GetPreferencesOutcome(old(StateOf(db)), s, f).0, old(db.contexts))
    ensures StateOf(db) == GetPreferencesOutcome(old(StateOf(db)), s, f).1
  {
    var prefs := db.GetUserPreferences(s, !f.first);
    if prefs.Err? {
      return Api.Failure(500, prefs.message);
    }
    r := Api.Json(ResultBody(Obj(prefs.value)));
  }

  /** `case 'search_context'`. */
  method RunSearch(db: DatabaseService, s: string, params: Value, f: Faults) returns (r: Api.Response)
    requires db.Valid()
    modifies db
    ensures db.Valid()
    ensures Conforms(r, SearchOutcome(old(StateOf(db)), s, params, f).0, old(db.contexts))
    ensures StateOf(db) == SearchOutcome(old(StateOf(db)), s, params, f).1
  {
    var q := Member(params, "query");
    if q.Err? {
      return Api.Failure(500, q.message);
    }
    if !Truthy(q.value) {
      return Api.Failure(400, "query is required");
    }
    var found := db.SearchContexts(q.value, Some(s), !f.first);
    if found.Err? {
      return Api.Failure(500, found.message);
    }
    r := Api.Json(ResultBody(DocList(found.value)));
  }

  /** `case 'update_location'`. */
  method RunUpdateLocation(db: DatabaseService, s: string, params: Value, f: Faults) returns (r: Api.Response)
    requires db.Valid()
    modifies db, db.clock
    ensures db.Valid()
    ensures Conforms(r, LocationOutcome(old(StateOf(db)), s, params, f).0, old(db.contexts))
    ensures StateOf(db) == LocationOutcome(old(StateOf(db)), s, params, f).1
  {
    var l := Member(params, "location");
    if l.Err? {
      return Api.Failure(500, l.message);
    }
    if !Truthy(l.value) {
      return Api.Failure(400, "location is required");
    }
    ghost var st := StateOf(db);
    var now := db.clock.Read();
    assert StateOf(db) == Tick(st);
    var update := map["currentLocation" := l.value, "locationUpdatedAt" := Time(now)];
    var saved := db.SaveContext(s, update, !f.first);
    if saved.Err? {
      return Api.Failure(500, saved.message);
    }
    assert StateOf(db) == WithContext(Tick(st), s, update);
    r := Api.Json(ResultBody(Obj(map["success" := Bool(true), "location" := l.value])));
  }

  /** `case 'clear_context'`. */
  method RunClear(db: DatabaseService, s: string, f: Faults) returns (r: Api.Response)
    requires db.Valid()
    modifies db
    ensures db.Valid()
    ensures Conforms(r, ClearOutcome(old(StateOf(db)), s, f).0, old(db.contexts))
    ensures StateOf(db) == ClearOutcome(old(StateOf(db)), s, f).1
  {
    var cleared := db.DeleteContext(s, !f.first, f.deletes);
    if cleared.Err? {
      return Api.Failure(500, cleared.message);
    }
    r := Api.Json(ResultBody(cleared.value));
  }
}
