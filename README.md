# Personal assistant backend: context store, command dispatcher and request builders

This project models the stateful core of an Express backend for a Google-workspace
personal assistant, and proves properties of that model.

- **Context repository** (`DbService`). `DatabaseService` keeps four collections keyed by session id:
  - `contexts`: one document per session, upserted field by field;
  - `conversations`: an append-only log of turns, each stamped by the server;
  - `user_preferences`: rows upserted per session and key;
  - `sessions`.

  The MongoDB backend is replaced by maps and sequences. `new Date()` is replaced by a `Clock` object whose reading goes up by one each time it is read. `connect` and `disconnect` are a small state machine over the client, the database handle and the connected flag. Each store operation takes a flag saying whether the backend serves that call. An operation that is not served fails. A single-collection operation then changes nothing. `deleteContext` runs four independent deletes, one per collection, and each has its own flag. A failed delete does not undo the others, so a failed clear can leave some of the session's documents behind.
- **Command dispatcher** (`Mcp`, `POST /execute`). The handler:
  1. checks the session and its credential;
  2. reads a snapshot: the context, the last ten turns and the preferences;
  3. dispatches over eleven command names.

  Each command has its own required-parameter checks and store writes. `Mcp.Outcome` is a function that gives the reply and the new store contents. Each handler method is proved to produce exactly that. `McpProperties` proves the rules the route promises about that function.
- **Query gateway and credential map** (`Api`, `Auth`). `Api.Query` models `POST /query` behind the `getTokens` gate. On that route, persistence failures are swallowed. `Auth.Callback` models the OAuth callback, which files tokens in the shared `tokenStore`; `Auth.LookupTokens` models the lookup route that reads them back.
- **Request builders** (`Forms`, `Docs`, `Tasks`). Each is modelled as the requests it would send, given what the remote API answered:
  - `Forms`: question-request construction, consecutive indexing, form-info updates and the update mask of a question update;
  - `Docs`: the document insertion point, slide layouts, title and body text boxes, and newline collapsing;
  - `Tasks`: task-query and task-body shapes, and the merge, sort and truncate of upcoming tasks.

JavaScript values are modelled by `Json.Value`. The model covers truthiness, `||`, optional chaining, `String(v)`, `trim`, `toLowerCase` on ASCII letters and `split('\n')`. A JavaScript exception is modelled as `Err` of a `Result`.

## Model

| member | source | states |
|---|---|---|
| DbService.Clock.constructor | services/dbService.js:7-11 | the injected clock starts at the given reading |
| DbService.Clock.Read | services/dbService.js:119-122 | a reading returns the current time and advances the clock by one, so later writes are stamped later |
| DbService.DatabaseService.constructor | services/dbService.js:7-11 | a new service is disconnected, with no client or handle, and all four collections are empty |
| DbService.DatabaseService.Connect | services/dbService.js:13-96 | succeeds exactly when already connected or the backend is reachable; an open connection keeps its handle; a failure resets to disconnected; the collections are unchanged |
| DbService.DatabaseService.Disconnect | services/dbService.js:98-105 | when a client exists, clears the connected flag and the handle but keeps the closed client object, as the code does; the collections are unchanged |
| DbService.Merged | services/dbService.js:108-126 | the saved document always belongs to the session and carries `updatedAt` set to the current time |
| DbService.MergedFields | services/dbService.js:108-126 | with update keys read as literal field names, the saved document overwrites exactly the supplied fields, keeps every other existing field, and adds `createdAt` only on first insert |
| DbService.DatabaseService.SaveContext | services/dbService.js:108-133 | fails, writing nothing, when the backend is down or the update itself sets a literal `createdAt` key (a conflicting update); otherwise the session's context becomes the literal-key merge; the other collections are unchanged |
| DbService.DatabaseService.GetContext | services/dbService.js:135-146 | answers the session's document, or none; changes nothing |
| DbService.DatabaseService.AddConversationHistory | services/dbService.js:148-164 | appends exactly one turn, stamped with the session and the clock's reading, to the end of the log |
| DbService.DatabaseService.GetConversationHistory | services/dbService.js:166-182 | answers the history function of the log: the newest `limit` turns of the session, oldest first |
| DbService.RecentTurns | services/dbService.js:170-177 | the loop that keeps the newest `n` turns equals the last-`n` slice of the session's turns |
| DbService.DatabaseService.SaveUserPreference | services/dbService.js:184-210 | upserts the `(session, key)` row: the rows become `Upserted` of the old rows; other collections unchanged |
| DbService.DatabaseService.GetUserPreferences | services/dbService.js:212-229 | answers the key-to-value map of the session's rows, built by the `forEach` loop |
| DbService.DatabaseService.SaveSessionData | services/dbService.js:231-256 | the same merge as saving a context, applied to the `sessions` collection |
| DbService.DatabaseService.GetSessionData | services/dbService.js:258-269 | answers the session's session document, or none |
| DbService.DatabaseService.SearchContexts | services/dbService.js:271-298 | fails for a non-string query; otherwise answers a page of matching contexts, at most ten, newest `updatedAt` first |
| DbService.DatabaseService.DeleteContext | services/dbService.js:300-320 | each served delete takes effect on its own: the session leaves contexts, its turns leave the log, its rows leave the preferences, it leaves sessions; the call succeeds exactly when the connection holds and all four deletes are served |
| DbService.FindPref | services/dbService.js:190-204 | finds the row of `(session, key)` when one exists, and reports absence only when no row matches |
| DbService.NewestExists | services/dbService.js:291 | a non-empty candidate set has a document with the greatest `updatedAt` |
| DbService.PickNewest | services/dbService.js:291-292 | taking the newest remaining candidate keeps the selection a newest-first prefix |
| DbService.SelectionDone | services/dbService.js:291-292 | a selection that is full or has run out of candidates is a newest-first page |
| DbService.NewestFirst | services/dbService.js:289-292 | the selection loop yields a page with at most `limit` entries, in non-increasing `updatedAt` order, and every skipped candidate no newer than the last pick |
| DbService.MatchingKeys | services/dbService.js:276-288 | the search only ever considers stored documents |
| DbService.ReversedLength | services/dbService.js:176-177 | reversing the newest-first page keeps its length |
| DbService.ReversedAppend | services/dbService.js:176-177 | reversal turns a concatenation around |
| DbService.ReversedTwice | services/dbService.js:176-177 | reversing twice gives back the log order |
| DbService.SelectAppend | services/dbService.js:170-175 | filtering by session distributes over concatenation |
| DbService.SelectSplit | services/dbService.js:170-175 | filtering a log equals filtering its two halves |
| DbService.SelectSubset | services/dbService.js:170-175 | the filtered log holds only logged turns of the selected session |
| DbService.SelectKeepsOrder | services/dbService.js:170-175 | filtering a chronological log keeps it chronological |
| DbService.SelectKeepsStamps | services/dbService.js:170-175 | filtering keeps every stamp below the clock |
| DbService.PrefsWithoutSubset | services/dbService.js:308-313 | deleting a session's preference rows keeps only other sessions' rows |
| DbService.PrefsWithoutUnique | services/dbService.js:308-313 | deleting preference rows keeps `(session, key)` unique |
| DbService.UpsertedUnique | services/dbService.js:190-204 | the upsert keeps at most one row per `(session, key)` |
| DbProperties.SaveContextIdempotent | services/dbService.js:113-125 | saving the same partial update twice gives the same document except for `updatedAt` |
| DbProperties.SaveContextAccumulates | services/dbService.js:113-125 | two saves of different fields keep both, and `createdAt` of the first |
| DbProperties.HistoryBounded | services/dbService.js:166-177 | a history read returns at most the limit's absolute value, never more than the session has, and only the session's turns |
| DbProperties.HistoryChronological | services/dbService.js:166-177 | the history is in non-decreasing timestamp order |
| DbProperties.HistoryIsNewest | services/dbService.js:166-177 | the history is the newest suffix of the session's turns: all of them or exactly the limit, each newer than every turn left out |
| DbProperties.AppendedTurnIsLast | services/dbService.js:148-164 | after an append, the session's turns grow by that turn, which is the last one any non-zero history read returns |
| DbProperties.AppendedTurnTimestamp | services/dbService.js:153-157 | the server timestamp overrides any `timestamp` in the message; every other field is kept |
| DbProperties.AppendLeavesOtherSessions | services/dbService.js:148-164 | an append leaves every other session's history unchanged |
| DbProperties.DeleteClearsHistory | services/dbService.js:300-313 | after a delete the session has no turns, and every other session has the same turns |
| DbProperties.PrefMapKeys | services/dbService.js:212-224 | the preference map has exactly the keys that have a row for the session |
| DbProperties.PrefMapValue | services/dbService.js:212-224 | each key of the preference map holds its row's value |
| DbProperties.SavedPreferenceIsRead | services/dbService.js:184-224 | after saving `(k, v)`, the session's map is the old map with `k` set to `v` |
| DbProperties.SavedPreferenceOtherSessions | services/dbService.js:184-224 | saving a preference leaves every other session's map unchanged |
| DbProperties.DeletedPreferences | services/dbService.js:300-313 | after a delete the session's map is empty and every other session's map is unchanged |
| DbProperties.SearchPageFiltered | services/dbService.js:276-291 | a search page has at most ten documents, each matching the query, and all of the given session when one is given |
| DbProperties.ConnectIsMemoised | services/dbService.js:14-16 | once connected, a later connect keeps the same client and handle, reachable or not |
| DbProperties.ConnectFailureResets | services/dbService.js:91-94 | a failed connect leaves no flag, no handle and no client |
| DbProperties.DisconnectThenConnect | services/dbService.js:14-16 | after a disconnect, the next connect creates a new client instead of reusing the closed one |
| Api.TokenStore.constructor | routes/api.js:17 | the shared credential map starts empty |
| Api.GetTokens | routes/api.js:20-33 | blocks with 401 "No session ID provided" exactly when the header is absent or empty, and with 401 otherwise unless the id has truthy tokens; a pass carries the stored tokens |
| Api.MirrorKeys | routes/api.js:95-110 | the copied `last*` fields are exactly the listed names |
| Api.MirrorValue | routes/api.js:95-110 | each `last*` field holds the response's property it copies, `undefined` when absent |
| Api.MirroredFieldsDistinct | routes/api.js:95-110 | the sixteen `last*` names are distinct |
| Api.MirroredFieldsNotFixed | routes/api.js:94-112 | no `last*` name collides with `lastQuery`, the count, the time or the merge's own fields |
| Api.MirroredFieldsNames | routes/api.js:94-112 | both facts about the names together |
| Api.QueryContextUpdate | routes/api.js:93-113 | the query's partial update never conflicts with the first-insert fields, so its save cannot be refused for that |
| Api.QueryContextUpdateKeys | routes/api.js:93-113 | the update names the sixteen `last*` fields, `lastQuery`, `conversationCount` and `lastUpdated`, and nothing else |
| Api.QueryContextUpdateFields | routes/api.js:93-113 | each field holds what the route copies: the response's property, the query, the time, and the count read before the call plus one |
| Api.SavedQueryRecorded | routes/api.js:93-113 | whatever the document held, after the save it records the query, the answer's fields and the incremented count |
| Api.QueryLocation | routes/api.js:73 | the request's `currentLocation` when truthy, otherwise the stored context's when truthy, otherwise `null` |
| Api.LoadQueryContext | routes/api.js:52-68 | the first `try` block: a failed read ends the block, leaving that read and the later ones at their defaults, and no user turn is recorded; only the log and the clock change |
| Api.QueryTurnsShape | routes/api.js:52-117 | a query appends at most two turns, both the session's, stamped in order; the user's turn comes first and exists exactly when the first block completes |
| Api.StampedUserTurn | routes/api.js:60-64 | the stored user turn belongs to the session, says `user`, holds the query and bears its time |
| Api.StampedAssistantTurn | routes/api.js:85-90 | the stored assistant turn belongs to the session, says `assistant`, keeps the whole answer as metadata and bears its time |
| Api.QueryContextOthers | routes/api.js:79-117 | a query changes only its own session's context, and no context at all when the save is not served |
| Api.QueryContextRecords | routes/api.js:93-113 | when the save is served, the session's context records the query, the answer's fields and the incremented count |
| Api.QuerySavedShape | routes/api.js:93-113 | the save touches only the session's document, which then records the query |
| Api.SaveQueryContext | routes/api.js:92-116 | reads the clock for `lastUpdated` and saves the update; only the contexts change |
| Api.AppendReply | routes/api.js:84-90 | records the assistant's turn exactly when that append is served |
| Api.RecordReply | routes/api.js:79-117 | the second `try` block: the assistant's turn, then the context update, with failures swallowed |
| Api.Respond | routes/api.js:71-128 | the reply is the assistant's answer whatever the store did, or a 500 when the assistant fails |
| Api.Query | routes/api.js:36-129 | 401 from the gate and 400 for a missing query, both with the store untouched; otherwise the answer, with the log grown by `QueryTurns` and the contexts by `ContextAfterQuery` |
| Auth.Callback | routes/auth.js:12-32 | the route's reply and the new credential map are `CallbackOutcome` of the old map |
| Auth.LookupTokens | routes/auth.js:34-43 | 404 "Session not found" exactly when the id has no truthy tokens; otherwise exactly the stored tokens |
| Auth.FailedCallbackStoresNothing | routes/auth.js:15-31 | no code gives 400, a failed exchange gives 500, and neither stores anything |
| Auth.CallbackFilesSession | routes/auth.js:20-27 | a completed exchange files the tokens under an id that starts with `session_` and the time; the redirect carries that id; every other id is unchanged |
| Auth.CallbackThenLookup | routes/auth.js:20-42 | after a completed exchange, the lookup answers those tokens and the API gate lets the new id through |
| Auth.NatStringSingle | routes/auth.js:23 | the decimal time is one digit exactly below ten |
| Auth.NatStringInjective | routes/auth.js:23 | different times give different decimal texts |
| Auth.DigitCharInjective | routes/auth.js:23 | different digits give different characters |
| Auth.SameDigits | routes/auth.js:23 | a number is fixed by its last digit and the rest |
| Auth.SessionIdInjective | routes/auth.js:23 | ids minted at different times or with different random parts differ |
| Mcp.ParseCommand | routes/mcp.js:32-178 | a listed command is selected only by its own exact label; any other value falls to `default`, which names it as a template literal does |
| Mcp.CommandRoundTrip | routes/mcp.js:32-178 | each command's label selects that command, so no two commands share a label |
| Mcp.Execute | routes/mcp.js:8-184 | the reply and the store after `POST /execute` are `Outcome` of the store before it, including the partial effects of a `clear_context` that fails partway |
| Mcp.Dispatch | routes/mcp.js:32-179 | the `switch` does what `Dispatched` says for each command, with each store call, and each of the four deletes of `clear_context`, failing or served on its own |
| Mcp.RunQuery | routes/mcp.js:33-92 | `case 'query'` does what `QueryOutcome` says |
| Mcp.RecordAnswer | routes/mcp.js:50-91 | the assistant's turn and the rest of `query` do what `AnswerOutcome` says |
| Mcp.SaveAnswerContext | routes/mcp.js:61-91 | the context update that ends `query` does what `ContextOutcome` says |
| Mcp.RunSchedule | routes/mcp.js:94-104 | `get_schedule` saves `lastSchedule` and `lastQuery` and answers the schedule |
| Mcp.RunTravel | routes/mcp.js:106-119 | `get_travel_time` asks the given question, or one built from `origin` and `destination`, and saves the answer |
| Mcp.RunSaveContext | routes/mcp.js:121-124 | `save_context` merges `params.context || {}` |
| Mcp.RunGetContext | routes/mcp.js:126-129 | `get_context` answers the stored document or `{}` |
| Mcp.RunHistory | routes/mcp.js:131-135 | `get_conversation_history` answers `params.limit || 50` turns |
| Mcp.RunSavePreference | routes/mcp.js:137-144 | `save_preference` requires `key`, then upserts it |
| Mcp.RunGetPreferences | routes/mcp.js:146-149 | `get_preferences` answers the preference map |
| Mcp.RunSearch | routes/mcp.js:151-158 | `search_context` requires `query`, then searches within the session |
| Mcp.RunUpdateLocation | routes/mcp.js:160-170 | `update_location` requires `location`, saves it with its time, and echoes it |
| Mcp.RunClear | routes/mcp.js:172-175 | `clear_context` removes the session from each collection whose delete is served, and answers 500 unless all four are served |
| McpProperties.RequestDispatched | routes/mcp.js:10-32 | a request for a listed command, from a session with a credential and with the reads served, has that command's outcome |
| McpProperties.DispatchRefusesWith400 | routes/mcp.js:32-178 | inside the `switch` every refusal is a 400 |
| McpProperties.QueryNeverRefuses | routes/mcp.js:33-92 | `query` has no refusal of its own |
| McpProperties.SessionChecksFirst | routes/mcp.js:12-22 | no session id gives 400 and an id without credential gives 401, both before any store access; every 401 comes from that check |
| McpProperties.ReadFailureWritesNothing | routes/mcp.js:27-29 | a failed snapshot read is a 500 and writes nothing |
| McpProperties.UnknownMethodWritesNothing | routes/mcp.js:177-178 | an unknown method is a 400 "Unknown method" naming it and the store is unchanged |
| McpProperties.UnknownMeansUnlisted | routes/mcp.js:32-178 | a method value is unknown exactly when it is none of the eleven labels |
| McpProperties.QueryServed | routes/mcp.js:33-91 | a fully served `query` makes its four store calls and replies with the answer and the snapshot |
| McpProperties.ExchangedStore | routes/mcp.js:35-82 | the four store calls of a served `query` compose to `Exchanged` |
| McpProperties.QueryAppendsTwoTurns | routes/mcp.js:35-59 | a served `query` appends exactly the user's turn then the assistant's, at consecutive readings, and leaves preferences and sessions alone |
| McpProperties.QueryRecordsContext | routes/mcp.js:61-82 | a served `query` merges the same update `/query` saves, so `conversationCount` is the snapshot count plus one, with missing counted as 0 |
| McpProperties.QueryReportsSnapshot | routes/mcp.js:28-91 | `historyCount` is the size of the history read before the `switch`, and `hasHistory` holds exactly when it is not zero |
| McpProperties.SnapshotHistoryBounded | routes/mcp.js:28 | the reported history has at most ten of the session's turns |
| McpProperties.QueryGrowsOwnLog | routes/mcp.js:35-59 | after a served `query` the session has two more turns and every other session the same turns |
| McpProperties.TurnsBelong | routes/mcp.js:35-59 | both turns of an exchange carry the session's id |
| McpProperties.TwoOwnTurns | routes/mcp.js:35-59 | two appended turns of the session grow its turns by two and no other session's |
| McpProperties.SelectPair | routes/mcp.js:35-59 | filtering the pair of turns keeps both for the session and none for another |
| McpProperties.QueryFailureKeepsUserTurn | routes/mcp.js:35-59 | when the assistant or its append fails, the reply is a 500 and only the user's turn is recorded |
| McpProperties.MissingParameterWritesNothing | routes/mcp.js:138-164 | `save_preference` without `key`, `search_context` without `query` and `update_location` without `location` are 400s that write nothing |
| McpProperties.GetContextWithoutDocument | routes/mcp.js:126-129 | `get_context` on a session with no document answers `{}` |
| McpProperties.LocationIsRead | routes/mcp.js:126-169 | `update_location(l)` followed by `get_context` answers a context whose `currentLocation` is `l` |
| McpProperties.LocationStored | routes/mcp.js:165-168 | saving `currentLocation: l` leaves `l` in the session's document |
| McpProperties.LocationSaved | routes/mcp.js:160-170 | a served `update_location` stores the location and echoes it |
| McpProperties.ContextReadBack | routes/mcp.js:126-129 | a served `get_context` answers the stored document |
| McpProperties.SavedContextRead | routes/mcp.js:121-129 | after a save, the session's document is the merge of the update into the old one |
| McpProperties.PreferenceIsRead | routes/mcp.js:142-147 | `save_preference {key: k, value: v}` followed by `get_preferences` maps `k` to `v` and leaves every other key as before |
| McpProperties.PreferenceSaved | routes/mcp.js:137-144 | a served `save_preference` with a key upserts it |
| McpProperties.PreferencesReadBack | routes/mcp.js:146-149 | a served `get_preferences` answers the session's map |
| McpProperties.ClearKeepsCredential | routes/mcp.js:172-174 | `clear_context` removes the session's data and no other session's, but keeps the credential, so the next request still passes the session check |
| McpProperties.ClearFailsPartway | routes/mcp.js:172-175 | a `clear_context` whose connection holds but one of whose deletes fails answers 500, and every served delete has still removed the session's data from its collection |
| McpProperties.ContextCleared | routes/mcp.js:172-175 | a served `clear_context` deletes the session |
| Json.PlusOne | routes/mcp.js:80 | `(count || 0) + 1` is 1 for a missing count and the successor of a number |
| Json.Trim | services/docsService.js:36 | the result is a slice of the input with only spaces before and after it; it is empty exactly when the input is all spaces, and otherwise starts and ends with a non-space |
| Json.Spread | routes/mcp.js:55-58 | spreading an object copies its fields and spreading a non-object copies no `createdAt` |
| Forms.KindOfAliases | services/formsService.js:168-219 | each question kind is chosen exactly by its aliases; any other type becomes a short-text question |
| Forms.KindIgnoresCase | services/formsService.js:168 | types that differ only in letter case lower-case to the same text and choose the same kind |
| Forms.OptionValue | services/formsService.js:174 | an option fails exactly when it is `undefined` or `null`; a string option is its own value |
| Forms.OptionList | services/formsService.js:173-175 | the option list keeps the input's length and order, each entry wrapping that option's value |
| Forms.StringOptionsVerbatim | services/formsService.js:173-189 | a string option appears verbatim as its entry's value |
| Forms.BuildQuestionRequest | services/formsService.js:157-229 | the branch-by-branch construction equals the question-request function |
| Forms.QuestionRequestShape | services/formsService.js:158-225 | an explicit `index` overrides the positional one; the title is `title || question || ''`; `required` defaults to false; the kind's own field is set, and the question has no other field |
| Forms.ChoiceOptionsKept | services/formsService.js:170-190 | a choice question has the chosen type and the mapped options of `options || choices || []`, one entry per option |
| Forms.ScaleDefaults | services/formsService.js:195-201 | a scale question defaults `low` to 1 and `high` to 5 |
| Forms.Collect | services/formsService.js:265-267 | the batch succeeds exactly when every question does, keeping order |
| Forms.QuestionRequests | services/formsService.js:265-267 | the batch of requests is question `i`'s request at index `start + i`, failing when any question fails |
| Forms.QuestionsFollowItems | services/formsService.js:263-278 | `questionsAdded` is the number of questions; no batch is sent for none; unindexed question `i` is placed at the current item count plus `i` |
| Forms.UpdateForm | services/formsService.js:96-139 | throws for missing updates; otherwise sends the info requests when there are any and reports success |
| Forms.InfoRequestsOrder | services/formsService.js:101-132 | a title request comes before a description request, each only when its value is truthy, and none when neither is |
| Forms.SplitComma | services/formsService.js:328 | splitting a mask always gives at least one part |
| Forms.FirstComma | services/formsService.js:328 | the first comma of a mask is found, with none before it |
| Forms.FirstCommaAfter | services/formsService.js:328 | a comma-free name followed by a comma ends at that comma |
| Forms.SplitJoin | services/formsService.js:328 | splitting comma-joined comma-free names gives the names back |
| Forms.SplitAtFirst | services/formsService.js:328 | splitting at the first comma gives the first name and the split of the rest |
| Forms.UpdateQuestion | services/formsService.js:285-339 | fails exactly when `updates` is `undefined`/`null` or the given options are not an array or hold an unreadable option; no changed field gives `{success: false, 'No fields to update'}` and no request; otherwise exactly one request, `QuestionUpdate`, and `{success, formId, questionId}` |
| Forms.QuestionUpdate | services/formsService.js:317-330 | the request targets `questionId`; its question carries `title`, `required` and the mapped options each exactly when given, with the given values; the index is the given one or 0; the mask joins the changed field names |
| Forms.MaskNamesChanges | services/formsService.js:290-311 | the mask names `title`, `required` and `choiceQuestion.options` exactly when each is given, at most three, with `title` first |
| Forms.MaskMatchesQuestion | services/formsService.js:290-328 | the fields named in the request's mask are exactly the fields its question object changes |
| Forms.MaskRoundTrip | services/formsService.js:328 | the joined mask splits back into the changed field names |
| Docs.KeptLines | services/docsService.js:39 | the kept paragraphs are the non-blank or empty lines, the first kept when it qualifies |
| Docs.FirstLineNotBlank | services/docsService.js:36-39 | trimmed non-blank content has a non-blank first paragraph, so the loop builds a request |
| Docs.CreateDocument | services/docsService.js:19-90 | the paragraph loop ends in the document-insert function: one insert of the whole trimmed content, or none |
| Docs.CreatedTextTrimmed | services/docsService.js:19-88 | content is inserted exactly when it has a non-space; the text is `Trim` of the content; it goes at the last element's `endIndex - 1`, or at 1 in an empty body |
| Docs.AppendInsert | services/docsService.js:261-273 | appending fails exactly when the body has no elements |
| Docs.AppendFollowsBody | services/docsService.js:262-273 | appending inserts at the same index as creation, and the text starts with a newline |
| Docs.LayoutCycle | services/docsService.js:141-148 | only slide 0 is a title slide; layouts repeat every twelve slides after it, and a slide that is both a third and a fourth gets two columns |
| Docs.LayoutBatchShape | services/docsService.js:124-161 | a delete of the default slide comes first only when there are slides and an existing slide; create request `i` has insertion index `i` and layout `i` |
| Docs.LayoutRequests | services/docsService.js:124-161 | the layout loop builds exactly the layout batch |
| Docs.TextBoxes | services/docsService.js:191-193 | text-box selection never yields more boxes than elements |
| Docs.Collapse | services/docsService.js:212 | collapsing never lengthens the text, keeps it empty only when it was empty, and keeps a leading newline |
| Docs.NewlineRun | services/docsService.js:212 | the leading newline run is measured exactly |
| Docs.UnlinedAppend | services/docsService.js:212 | dropping newlines distributes over concatenation |
| Docs.UnlinedNewlines | services/docsService.js:212 | a run of newlines has no other text |
| Docs.CollapseNoTriple | services/docsService.js:212 | collapsed text has no run of three newlines |
| Docs.CollapseKeepsText | services/docsService.js:212 | collapsing removes only newlines |
| Docs.RunKeepsText | services/docsService.js:212 | collapsing a leading run keeps the other text |
| Docs.CollapsedRunDropped | services/docsService.js:212 | the collapsed run has no other text |
| Docs.RunDropped | services/docsService.js:212 | a newline run has no other text |
| Docs.CollapseJoin | services/docsService.js:212 | up to two newlines before clean text starting with a non-newline stay clean |
| Docs.CollapseKeepsClean | services/docsService.js:212 | text without a triple newline is left as it is |
| Docs.CollapseAppend | services/docsService.js:212 | text that does not end in a newline collapses on its own, whatever follows it |
| Docs.CollapseRun | services/docsService.js:212 | a run of `k` newlines before other text becomes exactly two newlines when `k` is three or more, and stays as it is otherwise |
| Docs.CollapseIdempotent | services/docsService.js:212 | collapsing twice is collapsing once |
| Docs.ContentStops | services/docsService.js:183-231 | a slide whose content throws ends the loop with that error |
| Docs.FillSlides | services/docsService.js:183-231 | the content loop concatenates the batches up to the first error |
| Docs.CreatePresentation | services/docsService.js:102-253 | the layout batch and the content batch; no slides gives no requests |
| Docs.TitleTextShape | services/docsService.js:185-207 | the title goes to the first text box at index 0, with `Slide i+1` for a missing title |
| Docs.BodyTextShape | services/docsService.js:196-219 | body content goes to the second text box, only when it differs from the title box, as the slide's content trimmed and collapsed, with no triple newline |
| Docs.SingleBoxDropsContent | services/docsService.js:196-230 | with a single text box only the title is inserted: the fallback branch cannot run and the content is dropped |
| Docs.ContentPrefix | services/docsService.js:183-231 | the content batch of fewer slides is a prefix of the batch of more |
| Tasks.TasksQuery | services/tasksService.js:17-26 | tasks are listed from `@default` unless a list is given, excluding completed and hidden ones |
| Tasks.NewTaskFields | services/tasksService.js:40-48 | a new task has `title`, `notes` defaulting to `''`, `status: needsAction`, and `due` only when truthy |
| Tasks.CompletePatch | services/tasksService.js:67-73 | completing patches only `status`, to `completed` |
| Tasks.CompareAsWrittenInconsistent | services/tasksService.js:99-103 | the comparator as written answers "after" both ways for two undated tasks |
| Tasks.CompareDueConsistent | services/tasksService.js:99-103 | the corrected comparator is antisymmetric, total and transitive, and orders dated before undated |
| Tasks.InsertByDue | services/tasksService.js:99-103 | insertion adds the task and keeps every other task |
| Tasks.InsertKeepsSorted | services/tasksService.js:99-103 | insertion into a due-ordered list keeps it due-ordered |
| Tasks.SortedTail | services/tasksService.js:99-103 | the tail of a sorted list is sorted |
| Tasks.ConsSorted | services/tasksService.js:99-103 | a task no later than a sorted list's tasks can head it |
| Tasks.HeadBeforeAll | services/tasksService.js:99-103 | the head of a sorted list is no later than any task inserted behind it |
| Tasks.SortByDue | services/tasksService.js:99-103 | the sort is a permutation in due order, dated tasks first |
| Tasks.Slice | services/tasksService.js:105 | `slice(0, n)` is a prefix of at most `n` tasks |
| Tasks.GetUpcomingTasks | services/tasksService.js:82-110 | the loop, sort and slice give the first `maxResults` of the sorted, annotated tasks of all lists |
| Tasks.GatheredFromLists | services/tasksService.js:90-96 | every gathered task comes from one of the lists, carrying its title |
| Tasks.UpcomingTasks | services/tasksService.js:90-105 | for any `maxResults`: the first `maxResults` tasks (a negative count drops that many from the end), each from a list with its title, dated before undated, dated in due order |

## Left out

- The MongoDB driver: the connection string, the ping and the diagnostics are not modelled. Documents carry no `_id`. `$regex` is modelled as a literal, case-insensitive substring match.
- DbService.Merged: the keys of an update are taken as literal field names. MongoDB's `$set` reads a dotted key such as `a.b` as a path into a nested document, and fails when `a` holds a scalar. It also refuses keys that start with `$` and empty keys. None of this is modelled. Every update the server builds itself uses plain keys. Only `save_context` (`routes/mcp.js`) passes a client's keys through.
- DbService.MergedFields: holds only for plain keys (no dot, no leading `$`, not empty), for the reason given for `DbService.Merged`.
- DbService.DatabaseService.SaveContext: the error condition covers only a literal `createdAt` key. The driver also refuses `$`-prefixed keys, empty keys, `createdAt.`-prefixed keys and dotted paths through a scalar. The model accepts them and merges them literally.
- DbService.DatabaseService.SaveSessionData: the same literal-key merge as `SaveContext`, with the same gap.
- Values that are `undefined` are stored as `undefined`. The driver would serialise them as `null`, or drop them.
- Concurrency: the `Promise.all` in `deleteContext` is four deletes that each succeed or fail on their own. Their timing is not modelled, and neither is which rejection's message is reported. Interleaving between requests is not modelled.
- Numbers: JSON numbers are integers only (`Json.Value.Num(n: int)`). Fractional values such as a `limit` of 2.5, an `index` of 1.5 or a `maxResults` of 2.5, and `NaN`, are not representable. So the model does not cover how `slice`, the Forms index and the Tasks page size treat them.
- Wall-clock time and randomness: `new Date()` and `Date.now()` are clock readings, and the random base-36 suffix of a session id is a parameter.
- The assistant (`processQuery`, `handleScheduleQuery`, `handleTravelQuery`) is an uninterpreted function parameter. `services/assistantService.js` is not part of this model.
- Google API calls are inputs, not modelled behaviour:
  - Forms: the current item count is an input.
  - Docs: the body's end indices are inputs.
  - Slides: the existing slides and each slide's elements are inputs.
  - Tasks: the task lists and the fetched tasks are inputs.
  - The remote batch updates are represented by the requests that would be sent.
- Date parsing: `new Date(due)`, `toISOString()` and the due comparison are parameters (`iso`, `time`). A date that is not valid, which would throw `RangeError`, is not modelled.
- Return values that only echo ids are not modelled: document and presentation URLs and `{ success: true }` replies.
- A `slides` argument that is missing is modelled as an empty sequence.
- Text functions: `toLowerCase` is modelled on ASCII letters only, and `trim` on the common whitespace characters.
- Other routes and functions outside this model:
  - the `/health` and `/debug` routes of `routes/mcp.js`;
  - `/login` and `getAuthUrl`;
  - every route of `routes/api.js` other than `/query`;
  - `getTaskLists`;
  - `addQuestionToForm`;
  - the other service wrappers;
  - the UI;
  - server bootstrap.
- Error messages of 500 replies are fixed strings, not the runtime's exact text.
- `save_preference` stores a non-string key under its `String(key)` text.
- Tasks.GetUpcomingTasks: sorts with the corrected comparator (see Findings). With the comparator as written, the order `Array.prototype.sort` produces for several undated tasks depends on the engine.

## Findings

| source | as written | input that shows it | evidently intended | confidence | as-written member | corrected member |
|---|---|---|---|---|---|---|
| services/tasksService.js:99-103 | the comparator returns 1 whenever `a` has no due date, before looking at `b` | two tasks, neither with `due`: `compare(a, b)` and `compare(b, a)` are both 1 | undated tasks compare equal to each other and after every dated task (a consistent comparator) | not executed | Tasks.CompareAsWrittenInconsistent | Tasks.CompareDueConsistent |
