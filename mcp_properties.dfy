/**
 * What `POST /execute` promises, stated over `Mcp.Outcome`: the session
 * checks and the read failures come before any write, an unknown method
 * or a missing parameter writes nothing, `query` records the exchange and
 * reports the history read before it, and a command's write is what the
 * next command reads back.
 */
module McpProperties {
  import opened Wrappers
  import opened Json
  import opened DbService
  import opened DbProperties
  import Api
  import opened Mcp

  /** A request body `{ sessionId, method, params }`. */
  function Request(s: string, command: string, params: Value): Doc {
    map["sessionId" := Str(s), "method" := Str(command), "params" := params]
  }

  /** The `result` of a 200 reply, `undefined` for any other reply. */
  function ResultOf(e: Reply): Value {
    if e.Answered? && e.body.Obj? && "result" in e.body.fields then e.body.fields["result"] else Undefined
  }

  /** No store call of the request fails. */
  predicate Served(f: Faults) {
    !f.context && !f.history && !f.preferences && !f.first && !f.second && !f.third && AllDeleted(f.deletes)
  }

  /** A request for a listed command from a session with a credential, once the reads are served, is that command's outcome. */
  lemma RequestDispatched(st: Store, entries: map<string, Value>, s: string, c: Command, params: Value,
                          assistantFor: Value -> Api.Assistant, f: Faults)
    requires Truthy(SessionTokens(entries, Str(s))) && s != "" && !c.Unknown?
    requires !f.context && !f.history && !f.preferences
    ensures Outcome(st, entries, Request(s, CommandName(c), params), assistantFor, f)
            == Dispatched(st, s, c, params, assistantFor(SessionTokens(entries, Str(s))), Snap(st, s), f)
  {
    var body := Request(s, CommandName(c), params);
    assert Get(body, "sessionId") == Str(s);
    assert Get(body, "method") == Str(CommandName(c));
    assert Get(body, "params") == params;
    CommandRoundTrip(c);
  }

  /** Inside the `switch` the only refusals are 400s: a 401 comes from the session check alone. */
  lemma DispatchRefusesWith400(st: Store, s: string, c: Command, params: Value, a: Api.Assistant, snap: Api.Snapshot, f: Faults)
    ensures Dispatched(st, s, c, params, a, snap, f).0.Refused? ==> Dispatched(st, s, c, params, a, snap, f).0.status == 400
  {
    if c == Query {
      QueryNeverRefuses(st, s, params, a, snap, f);
    }
  }

  /** `query` has no 400 of its own: what it cannot read, it throws on. */
  lemma QueryNeverRefuses(st: Store, s: string, params: Value, a: Api.Assistant, snap: Api.Snapshot, f: Faults)
    ensures !QueryOutcome(st, s, params, a, snap, f).0.Refused?
  {
    if Member(params, "query").Ok? && !f.first {
      var q := Member(params, "query").value;
      var response := a.processQuery(q, Or(OptionalGet(snap.context, "currentLocation"), Null), snap.history, snap.context, snap.preferences);
      if response.Ok? && Member(response.value, "content").Ok? {
        assert QueryOutcome(st, s, params, a, snap, f) == AnswerOutcome(WithTurn(st, s, Api.UserTurn(q)), s, q, response.value, snap, f);
      }
    }
  }

  // ---- before the switch ----

  /**
   * A request without a session id is a 400, and one whose id has no
   * credential a 401; neither touches the store.
   */
  lemma SessionChecksFirst(st: Store, entries: map<string, Value>, body: Doc, assistantFor: Value -> Api.Assistant, f: Faults)
    ensures !Truthy(Get(body, "sessionId")) ==>
              Outcome(st, entries, body, assistantFor, f) == (Refused(400, "sessionId is required"), st)
    ensures Truthy(Get(body, "sessionId")) && !Truthy(SessionTokens(entries, Get(body, "sessionId"))) ==>
              Outcome(st, entries, body, assistantFor, f) == (Refused(401, "Invalid session"), st)
    ensures Outcome(st, entries, body, assistantFor, f).0.Refused? && Outcome(st, entries, body, assistantFor, f).0.status == 401 ==>
              !Admitted(entries, body)
  {
    var sessionId := Get(body, "sessionId");
    if Admitted(entries, body) && !f.context && !f.history && !f.preferences {
      var s := sessionId.s;
      DispatchRefusesWith400(st, s, ParseCommand(Get(body, "method")), Get(body, "params"),
                             assistantFor(SessionTokens(entries, sessionId)), Snap(st, s), f);
    }
  }

  /** A failed read before the `switch` is a 500 and writes nothing. */
  lemma ReadFailureWritesNothing(st: Store, entries: map<string, Value>, body: Doc, assistantFor: Value -> Api.Assistant, f: Faults)
    requires Admitted(entries, body)
    requires f.context || f.history || f.preferences
    ensures Outcome(st, entries, body, assistantFor, f) == (Crashed, st)
  {
  }

  /** An unrecognised method is a 400 naming it, and the store is as the reads left it. */
  lemma UnknownMethodWritesNothing(st: Store, entries: map<string, Value>, body: Doc, assistantFor: Value -> Api.Assistant, f: Faults)
    requires Admitted(entries, body) && !f.context && !f.history && !f.preferences
    requires ParseCommand(Get(body, "method")).Unknown?
    ensures Outcome(st, entries, body, assistantFor, f) == (Refused(400, "Unknown method: " + Display(Get(body, "method"))), st)
  {
  }

  /** Only the eleven exact labels select a command. */
  lemma UnknownMeansUnlisted(v: Value)
    ensures ParseCommand(v).Unknown? <==> forall c: Command :: !c.Unknown? ==> v != Str(CommandName(c))
  {
    if !ParseCommand(v).Unknown? {
      CommandRoundTrip(ParseCommand(v));
    }
  }

  // ---- query ----

  /** The answer the assistant gives to the query `q` over the snapshot. */
  function QueryAnswer(q: Value, a: Api.Assistant, snap: Api.Snapshot): Result<Value> {
    a.processQuery(q, Or(OptionalGet(snap.context, "currentLocation"), Null), snap.history, snap.context, snap.preferences)
  }

  /** Asked `q` over the snapshot, the assistant answers `response`, whose `content` can be read. */
  predicate Answers(a: Api.Assistant, snap: Api.Snapshot, q: Value, response: Value) {
    QueryAnswer(q, a, snap) == Ok(response) && Member(response, "content").Ok?
  }

  /** The assistant's turn for `response`. */
  function ReplyTurn(response: Value): Doc
    requires Member(response, "content").Ok?
  {
    Api.AssistantTurn(Member(response, "content").value, Obj(Metadata(response)))
  }

  /** A served `query`: both turns, a reading for `lastUpdated`, the save, and the reply with the snapshot. */
  lemma QueryServed(st: Store, s: string, params: Value, a: Api.Assistant, snap: Api.Snapshot, f: Faults,
                    q: Value, response: Value)
    requires Served(f) && Member(params, "query") == Ok(q) && Answers(a, snap, q, response)
    ensures QueryOutcome(st, s, params, a, snap, f)
            == (Answered(QueryBody(response, snap)), Exchanged(st, s, q, response, OptionalGet(snap.context, "conversationCount")))
  {
    var answered := WithTurn(WithTurn(st, s, Api.UserTurn(q)), s, ReplyTurn(response));
    var count := OptionalGet(snap.context, "conversationCount");
    assert QueryOutcome(st, s, params, a, snap, f) == AnswerOutcome(WithTurn(st, s, Api.UserTurn(q)), s, q, response, snap, f);
    assert QueryOutcome(st, s, params, a, snap, f).1 == WithContext(Tick(answered), s, Api.QueryContextUpdate(q, response, count, answered.now));
    ExchangedStore(st, s, q, response, count);
  }

  /** The store after a served `query`, field by field. */
  function Exchanged(st: Store, s: string, q: Value, response: Value, count: Value): Store
    requires Member(response, "content").Ok?
  {
    Store(Api.QuerySaved(st.contexts, s, q, response, count, st.now + 2),
          st.conversations + [Stamped(s, Api.UserTurn(q), st.now)] + [Stamped(s, ReplyTurn(response), st.now + 1)],
          st.preferences, st.sessions, st.now + 4)
  }

  /** The four store calls of a served `query`, composed. */
  lemma ExchangedStore(st: Store, s: string, q: Value, response: Value, count: Value)
    requires Member(response, "content").Ok?
    ensures var answered := WithTurn(WithTurn(st, s, Api.UserTurn(q)), s, ReplyTurn(response));
            WithContext(Tick(answered), s, Api.QueryContextUpdate(q, response, count, answered.now)) == Exchanged(st, s, q, response, count)
  {
  }

  /**
   * A served `query` appends exactly two turns, the user's and then the
   * assistant's, at consecutive readings, and leaves the preferences and
   * the session documents alone.
   */
  lemma QueryAppendsTwoTurns(st: Store, s: string, params: Value, a: Api.Assistant, snap: Api.Snapshot, f: Faults,
                             q: Value, response: Value)
    requires Served(f) && Member(params, "query") == Ok(q) && Answers(a, snap, q, response)
    ensures var after := QueryOutcome(st, s, params, a, snap, f).1;
            && after.conversations == st.conversations + [Stamped(s, Api.UserTurn(q), st.now)] + [Stamped(s, ReplyTurn(response), st.now + 1)]
            && after.preferences == st.preferences && after.sessions == st.sessions
  {
    QueryServed(st, s, params, a, snap, f, q, response);
  }

  /**
   * A served `query` saves the session's context exactly as `POST /query`
   * does: the same update, read after both turns, merged into the
   * session's document (`Api.QuerySavedShape` shows what that records and
   * that no other session's context changes).
   */
  lemma QueryRecordsContext(st: Store, s: string, params: Value, a: Api.Assistant, snap: Api.Snapshot, f: Faults,
                            q: Value, response: Value)
    requires Served(f) && Member(params, "query") == Ok(q) && Answers(a, snap, q, response)
    ensures QueryOutcome(st, s, params, a, snap, f).1.contexts
            == Api.QuerySaved(st.contexts, s, q, response, OptionalGet(snap.context, "conversationCount"), st.now + 2)
  {
    QueryServed(st, s, params, a, snap, f, q, response);
  }

  /**
   * The reply of a served `query` is the answer with the size of the
   * history read before the `switch`, not counting this call's two turns,
   * and `hasHistory` exactly when it is not zero.
   */
  lemma QueryReportsSnapshot(st: Store, s: string, params: Value, a: Api.Assistant, snap: Api.Snapshot, f: Faults,
                             q: Value, response: Value)
    requires Served(f) && Member(params, "query") == Ok(q) && Answers(a, snap, q, response)
    ensures var e := QueryOutcome(st, s, params, a, snap, f).0;
            && OptionalGet(e.body, "result") == response
            && OptionalGet(OptionalGet(e.body, "context"), "historyCount") == Num(|snap.history|)
            && OptionalGet(OptionalGet(e.body, "context"), "hasHistory") == Bool(|snap.history| > 0)
  {
    QueryServed(st, s, params, a, snap, f, q, response);
  }

  /** The history the snapshot reports holds at most ten of the session's turns. */
  lemma SnapshotHistoryBounded(st: Store, s: string)
    ensures |Snap(st, s).history| <= 10 && |Snap(st, s).history| <= |TurnsOf(st.conversations, s)|
  {
    HistoryBounded(st.conversations, s, 10);
  }

  /** After a served `query` the session has two more turns, and every other session none. */
  lemma QueryGrowsOwnLog(st: Store, s: string, other: string, params: Value, a: Api.Assistant, snap: Api.Snapshot, f: Faults,
                         q: Value, response: Value)
    requires Served(f) && Member(params, "query") == Ok(q) && Answers(a, snap, q, response)
    ensures var after := QueryOutcome(st, s, params, a, snap, f).1;
            && |TurnsOf(after.conversations, s)| == |TurnsOf(st.conversations, s)| + 2
            && (other != s ==> TurnsOf(after.conversations, other) == TurnsOf(st.conversations, other))
  {
    QueryAppendsTwoTurns(st, s, params, a, snap, f, q, response);
    TurnsBelong(s, q, Member(response, "content").value, Obj(Metadata(response)), st.now);
    TwoOwnTurns(st.conversations, Stamped(s, Api.UserTurn(q), st.now), Stamped(s, ReplyTurn(response), st.now + 1), s, other);
  }

  /** Both turns of an exchange carry the session's id. */
  lemma TurnsBelong(s: string, q: Value, content: Value, metadata: Value, now: nat)
    ensures BelongsTo(Stamped(s, Api.UserTurn(q), now), s)
    ensures BelongsTo(Stamped(s, Api.AssistantTurn(content, metadata), now + 1), s)
  {
    assert "sessionId" !in Api.UserTurn(q);
    assert "sessionId" !in Api.AssistantTurn(content, metadata);
  }

  lemma TwoOwnTurns(log: seq<Doc>, u: Doc, t: Doc, s: string, other: string)
    requires BelongsTo(u, s) && BelongsTo(t, s)
    ensures |TurnsOf(log + [u] + [t], s)| == |TurnsOf(log, s)| + 2
    ensures other != s ==> TurnsOf(log + [u] + [t], other) == TurnsOf(log, other)
  {
    assert log + [u] + [t] == log + [u, t];
    SelectAppend(log, [u, t], s, true);
    SelectAppend(log, [u, t], other, true);
    SelectPair(u, t, s, other);
  }

  lemma SelectPair(u: Doc, t: Doc, s: string, other: string)
    requires BelongsTo(u, s) && BelongsTo(t, s)
    ensures TurnsOf([u, t], s) == [u, t]
    ensures other != s ==> TurnsOf([u, t], other) == []
  {
    assert [t][0] == t && [t][1..] == [];
    assert Select([t], s, true) == [t];
    assert [u, t][0] == u && [u, t][1..] == [t];
    assert Select([u, t], s, true) == [u] + [t];
    if other != s {
      assert !BelongsTo(u, other) && !BelongsTo(t, other);
      assert Select([t], other, true) == [];
      assert Select([u, t], other, true) == [];
    }
  }

  /**
   * `query` does not swallow store errors: when the assistant fails, or
   * its turn cannot be written, the reply is a 500 and the user's turn
   * stays recorded without an answer.
   */
  lemma QueryFailureKeepsUserTurn(st: Store, s: string, params: Value, a: Api.Assistant, snap: Api.Snapshot, f: Faults, q: Value)
    requires Member(params, "query") == Ok(q) && !f.first
    requires QueryAnswer(q, a, snap).Err? || Member(QueryAnswer(q, a, snap).value, "content").Err? || f.second
    ensures QueryOutcome(st, s, params, a, snap, f) == (Crashed, WithTurn(st, s, Api.UserTurn(q)))
  {
  }

  // ---- required parameters ----

  /**
   * `save_preference` without `key`, `search_context` without `query` and
   * `update_location` without `location` are a 400 and write nothing.
   */
  lemma MissingParameterWritesNothing(st: Store, s: string, params: Value, f: Faults)
    requires !(params.Undefined? || params.Null?)
    ensures !Truthy(OptionalGet(params, "key")) ==> SavePreferenceOutcome(st, s, params, f) == (Refused(400, "key is required"), st)
    ensures !Truthy(OptionalGet(params, "query")) ==> SearchOutcome(st, s, params, f) == (Refused(400, "query is required"), st)
    ensures !Truthy(OptionalGet(params, "location")) ==> LocationOutcome(st, s, params, f) == (Refused(400, "location is required"), st)
  {
  }

  // ---- a write, then the read that sees it ----

  /** `get_context` on a session with no document answers `{}`. */
  lemma GetContextWithoutDocument(st: Store, s: string, f: Faults)
    requires s !in st.contexts && !f.first
    ensures GetContextOutcome(st, s, f) == (Answered(ResultBody(Obj(map[]))), st)
  {
  }

  /** `update_location(l)` then `get_context`: the context's `currentLocation` is `l`. */
  lemma LocationIsRead(st: Store, entries: map<string, Value>, s: string, l: Value,
                       assistantFor: Value -> Api.Assistant, f1: Faults, f2: Faults)
    requires Truthy(SessionTokens(entries, Str(s))) && s != ""
    requires Truthy(l) && Served(f1) && Served(f2)
    ensures var after := Outcome(st, entries, Request(s, CommandName(UpdateLocation), Obj(map["location" := l])), assistantFor, f1);
            var read := Outcome(after.1, entries, Request(s, CommandName(GetContext), Obj(map[])), assistantFor, f2);
            && after.0 == Answered(ResultBody(Obj(map["success" := Bool(true), "location" := l])))
            && OptionalGet(ResultOf(read.0), "currentLocation") == l
  {
    var update := map["currentLocation" := l, "locationUpdatedAt" := Time(st.now)];
    var after := WithContext(Tick(st), s, update);
    LocationSaved(st, entries, s, l, assistantFor, f1);
    LocationStored(Tick(st), s, l, update);
    ContextReadBack(after, entries, s, assistantFor, f2);
    var read := Outcome(after, entries, Request(s, CommandName(GetContext), Obj(map[])), assistantFor, f2);
    assert ResultOf(read.0) == Obj(after.contexts[s]);
  }

  /** Saving `currentLocation: l` leaves `l` in the session's document. */
  lemma LocationStored(st: Store, s: string, l: Value, update: Doc)
    requires !ConflictsWithInsert(update) && "currentLocation" in update && update["currentLocation"] == l
    ensures var after := WithContext(st, s, update);
            s in after.contexts && "currentLocation" in after.contexts[s] && after.contexts[s]["currentLocation"] == l
  {
    MergedFields(Lookup(st.contexts, s), s, update, st.now);
    SavedContextRead(st, s, update);
  }

  /** A served `update_location` with a location. */
  lemma LocationSaved(st: Store, entries: map<string, Value>, s: string, l: Value,
                      assistantFor: Value -> Api.Assistant, f: Faults)
    requires Truthy(SessionTokens(entries, Str(s))) && s != ""
    requires Truthy(l) && Served(f)
    ensures Outcome(st, entries, Request(s, CommandName(UpdateLocation), Obj(map["location" := l])), assistantFor, f)
            == (Answered(ResultBody(Obj(map["success" := Bool(true), "location" := l]))),
                WithContext(Tick(st), s, map["currentLocation" := l, "locationUpdatedAt" := Time(st.now)]))
  {
    var params := Obj(map["location" := l]);
    RequestDispatched(st, entries, s, UpdateLocation, params, assistantFor, f);
    var a := assistantFor(SessionTokens(entries, Str(s)));
    assert Dispatched(st, s, UpdateLocation, params, a, Snap(st, s), f) == LocationOutcome(st, s, params, f);
  }

  /** A served `get_context` answers the stored document. */
  lemma ContextReadBack(st: Store, entries: map<string, Value>, s: string, assistantFor: Value -> Api.Assistant, f: Faults)
    requires Truthy(SessionTokens(entries, Str(s))) && s != "" && Served(f)
    requires s in st.contexts
    ensures Outcome(st, entries, Request(s, CommandName(GetContext), Obj(map[])), assistantFor, f).0
            == Answered(ResultBody(Obj(st.contexts[s])))
  {
    RequestDispatched(st, entries, s, GetContext, Obj(map[]), assistantFor, f);
    var a := assistantFor(SessionTokens(entries, Str(s)));
    assert Dispatched(st, s, GetContext, Obj(map[]), a, Snap(st, s), f) == GetContextOutcome(st, s, f);
  }

  lemma SavedContextRead(st: Store, s: string, update: Doc)
    requires !ConflictsWithInsert(update)
    ensures Lookup(WithContext(st, s, update).contexts, s) == Some(Merged(Lookup(st.contexts, s), s, update, st.now))
  {
  }

  /** `save_preference { key: k, value: v }` then `get_preferences`: `k` maps to `v`, every other key as before. */
  lemma PreferenceIsRead(st: Store, entries: map<string, Value>, s: string, k: string, v: Value,
                         assistantFor: Value -> Api.Assistant, f1: Faults, f2: Faults)
    requires Truthy(SessionTokens(entries, Str(s))) && s != "" && k != ""
    requires UniquePrefs(st.preferences) && Served(f1) && Served(f2)
    ensures var after := Outcome(st, entries, Request(s, CommandName(SavePreference), Obj(map["key" := Str(k), "value" := v])), assistantFor, f1);
            var read := Outcome(after.1, entries, Request(s, CommandName(GetPreferences), Obj(map[])), assistantFor, f2);
            ResultOf(read.0) == Obj(PrefMap(st.preferences, s)[k := v])
  {
    var after := WithPreference(st, s, k, v);
    PreferenceSaved(st, entries, s, k, v, assistantFor, f1);
    PreferencesReadBack(after, entries, s, assistantFor, f2);
    SavedPreferenceIsRead(st.preferences, s, k, v, st.now);
  }

  /** A served `save_preference` with a key. */
  lemma PreferenceSaved(st: Store, entries: map<string, Value>, s: string, k: string, v: Value,
                        assistantFor: Value -> Api.Assistant, f: Faults)
    requires Truthy(SessionTokens(entries, Str(s))) && s != "" && k != "" && Served(f)
    ensures Outcome(st, entries, Request(s, CommandName(SavePreference), Obj(map["key" := Str(k), "value" := v])), assistantFor, f)
            == (Answered(ResultBody(Success)), WithPreference(st, s, k, v))
  {
    var params := Obj(map["key" := Str(k), "value" := v]);
    RequestDispatched(st, entries, s, SavePreference, params, assistantFor, f);
    var a := assistantFor(SessionTokens(entries, Str(s)));
    assert Dispatched(st, s, SavePreference, params, a, Snap(st, s), f) == SavePreferenceOutcome(st, s, params, f);
  }

  /** A served `get_preferences` answers the session's preference map. */
  lemma PreferencesReadBack(st: Store, entries: map<string, Value>, s: string, assistantFor: Value -> Api.Assistant, f: Faults)
    requires Truthy(SessionTokens(entries, Str(s))) && s != "" && Served(f)
    ensures Outcome(st, entries, Request(s, CommandName(GetPreferences), Obj(map[])), assistantFor, f).0
            == Answered(ResultBody(Obj(PrefMap(st.preferences, s))))
  {
    RequestDispatched(st, entries, s, GetPreferences, Obj(map[]), assistantFor, f);
    var a := assistantFor(SessionTokens(entries, Str(s)));
    assert Dispatched(st, s, GetPreferences, Obj(map[]), a, Snap(st, s), f) == GetPreferencesOutcome(st, s, f);
  }

  /**
   * `clear_context` removes the session's context, turns, preferences and
   * session document and no other session's; the credential stays, so the
   * next request for the session still passes the session checks.
   */
  lemma ClearKeepsCredential(st: Store, entries: map<string, Value>, s: string, other: string, next: Doc,
                             assistantFor: Value -> Api.Assistant, f: Faults, g: Faults)
    requires Truthy(SessionTokens(entries, Str(s))) && s != "" && Served(f)
    requires Get(next, "sessionId") == Str(s)
    ensures var after := Outcome(st, entries, Request(s, CommandName(ClearContext), Obj(map[])), assistantFor, f).1;
            && Lookup(after.contexts, s).None? && s !in after.sessions
            && TurnsOf(after.conversations, s) == [] && PrefMap(after.preferences, s) == map[]
            && (other != s ==> Lookup(after.contexts, other) == Lookup(st.contexts, other)
                               && TurnsOf(after.conversations, other) == TurnsOf(st.conversations, other)
                               && PrefMap(after.preferences, other) == PrefMap(st.preferences, other))
            && Admitted(entries, next)
            && Outcome(after, entries, next, assistantFor, g).0 != Refused(401, "Invalid session")
  {
    ContextCleared(st, entries, s, assistantFor, f);
    DeleteClearsHistory(st.conversations, s, other);
    DeletedPreferences(st.preferences, s, other);
    SessionChecksFirst(WithoutSession(st, s), entries, next, assistantFor, g);
  }

  /** A served `clear_context` deletes the session. */
  lemma ContextCleared(st: Store, entries: map<string, Value>, s: string, assistantFor: Value -> Api.Assistant, f: Faults)
    requires Truthy(SessionTokens(entries, Str(s))) && s != "" && Served(f)
    ensures Outcome(st, entries, Request(s, CommandName(ClearContext), Obj(map[])), assistantFor, f)
            == (Answered(ResultBody(Success)), WithoutSession(st, s))
  {
    RequestDispatched(st, entries, s, ClearContext, Obj(map[]), assistantFor, f);
    var a := assistantFor(SessionTokens(entries, Str(s)));
    assert Dispatched(st, s, ClearContext, Obj(map[]), a, Snap(st, s), f) == ClearOutcome(st, s, f);
  }

  /**
   * A `clear_context` whose connection holds but one of whose deletes fails
   * answers 500, yet the deletes that were served have taken effect: the
   * session can be left with a context and no turns, or turns and no
   * context.
   */
  lemma ClearFailsPartway(st: Store, entries: map<string, Value>, s: string, assistantFor: Value -> Api.Assistant, f: Faults)
    requires Truthy(SessionTokens(entries, Str(s))) && s != ""
    requires !f.context && !f.history && !f.preferences && !f.first && !AllDeleted(f.deletes)
    ensures var (e, after) := Outcome(st, entries, Request(s, CommandName(ClearContext), Obj(map[])), assistantFor, f);
            && e == Crashed
            && (Lookup(after.contexts, s).None? <==> !f.deletes.contexts || Lookup(st.contexts, s).None?)
            && (s in after.sessions <==> f.deletes.sessions && s in st.sessions)
            && TurnsOf(after.conversations, s) == (if f.deletes.conversations then TurnsOf(st.conversations, s) else [])
            && PrefMap(after.preferences, s) == (if f.deletes.preferences then PrefMap(st.preferences, s) else map[])
  {
    RequestDispatched(st, entries, s, ClearContext, Obj(map[]), assistantFor, f);
    var a := assistantFor(SessionTokens(entries, Str(s)));
    assert Dispatched(st, s, ClearContext, Obj(map[]), a, Snap(st, s), f) == ClearOutcome(st, s, f);
    DeleteClearsHistory(st.conversations, s, s);
    DeletedPreferences(st.preferences, s, s);
  }
}
