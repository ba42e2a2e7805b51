/**
 * What the repository's operations promise, stated over the functions that
 * specify them in DbService: the merge of `saveContext`, the ordered and
 * bounded history read, the preference upsert and its read-back, the
 * delete, the search page, and the memoised connection.
 */
module DbProperties {
  import opened Wrappers
  import opened Json
  import opened DbService

  // ---- saveContext ----

  /** Saving the same partial update twice leaves the document of the first save, with only `updatedAt` moved on. */
  lemma SaveContextIdempotent(existing: Option<Doc>, s: string, update: Doc, t1: nat, t2: nat)
    requires !ConflictsWithInsert(update)
    ensures Merged(Some(Merged(existing, s, update, t1)), s, update, t2)
            == Merged(existing, s, update, t1)["updatedAt" := Time(t2)]
  {
    var once := Merged(existing, s, update, t1);
    var twice := Merged(Some(once), s, update, t2);
    MergedFields(existing, s, update, t1);
    MergedFields(Some(once), s, update, t2);
    assert twice.Keys == once.Keys;
    forall k | k in twice ensures twice[k] == once["updatedAt" := Time(t2)][k] {
      if k != "updatedAt" && k != "sessionId" && k !in update {
        assert twice[k] == once[k];
      }
    }
  }

  /** Two saves of different fields accumulate: both fields, the session id and both timestamps are there. */
  lemma SaveContextAccumulates(s: string, t1: nat, t2: nat)
    ensures var d := Merged(Some(Merged(None, s, map["a" := Num(1)], t1)), s, map["b" := Num(2)], t2);
            && d["a"] == Num(1) && d["b"] == Num(2) && d["sessionId"] == Str(s)
            && d["createdAt"] == Time(t1) && d["updatedAt"] == Time(t2)
  {
    var first := Merged(None, s, map["a" := Num(1)], t1);
    MergedFields(None, s, map["a" := Num(1)], t1);
    MergedFields(Some(first), s, map["b" := Num(2)], t2);
    assert first["a"] == Num(1) && first["createdAt"] == Time(t1);
  }

  // ---- conversation history ----

  /** The history read returns at most `limit` turns (0 meaning no limit), all of them the session's. */
  lemma HistoryBounded(log: seq<Doc>, s: string, limit: int)
    ensures limit != 0 ==> |History(log, s, limit)| <= Abs(limit)
    ensures |History(log, s, limit)| <= |TurnsOf(log, s)|
    ensures forall i :: 0 <= i < |History(log, s, limit)| ==> BelongsTo(History(log, s, limit)[i], s)
  {
    SelectSubset(log, s, true);
    var t := TurnsOf(log, s);
    forall i | 0 <= i < |History(log, s, limit)| ensures BelongsTo(History(log, s, limit)[i], s) {
      assert History(log, s, limit)[i] in t;
    }
  }

  /** Over a log kept in timestamp order, the history is in increasing timestamp order. */
  lemma HistoryChronological(log: seq<Doc>, s: string, limit: int)
    requires Chronological(log)
    ensures Chronological(History(log, s, limit))
    ensures forall i, j :: 0 <= i < j < |History(log, s, limit)| ==> TurnTime(History(log, s, limit)[i]) <= TurnTime(History(log, s, limit)[j])
  {
    SelectKeepsOrder(log, s, true);
  }

  /**
   * The history is the newest part of the session's turns: a suffix of
   * them, cut only by the limit, and every turn left out is older than every
   * turn returned.
   */
  lemma HistoryIsNewest(log: seq<Doc>, s: string, limit: int)
    requires Chronological(log)
    ensures var t := TurnsOf(log, s); var h := History(log, s, limit);
            && h == t[|t| - |h|..]
            && (|h| == |t| || |h| == Abs(limit))
            && forall j, k :: 0 <= j < |t| - |h| && 0 <= k < |h| ==> TurnTime(t[j]) < TurnTime(h[k])
  {
    SelectKeepsOrder(log, s, true);
    var t := TurnsOf(log, s);
    var h := History(log, s, limit);
    forall j, k | 0 <= j < |t| - |h| && 0 <= k < |h| ensures TurnTime(t[j]) < TurnTime(h[k]) {
      assert h[k] == t[|t| - |h| + k];
    }
  }

  /** After an append for `s`, the session's turns gain exactly that turn, and a history read with any non-zero limit ends with it. */
  lemma AppendedTurnIsLast(log: seq<Doc>, s: string, message: Doc, now: nat, limit: int)
    requires "sessionId" !in message
    ensures var turn := Stamped(s, message, now);
            && TurnsOf(log + [turn], s) == TurnsOf(log, s) + [turn]
            && (limit != 0 ==>
                  |History(log + [turn], s, limit)| >= 1
                  && History(log + [turn], s, limit)[|History(log + [turn], s, limit)| - 1] == turn)
  {
    var turn := Stamped(s, message, now);
    assert BelongsTo(turn, s);
    SelectAppend(log, [turn], s, true);
    assert Select([turn], s, true) == [turn];
  }

  /** The appended turn carries the server's timestamp, whatever `timestamp` the message held. */
  lemma AppendedTurnTimestamp(s: string, message: Doc, now: nat)
    ensures TurnTime(Stamped(s, message, now)) == now
    ensures forall k :: k in message && k != "timestamp" ==> Stamped(s, message, now)[k] == message[k]
  {
  }

  /** An append for one session leaves every other session's history as it was. */
  lemma AppendLeavesOtherSessions(log: seq<Doc>, s: string, other: string, message: Doc, now: nat, limit: int)
    requires s != other && "sessionId" !in message
    ensures History(log + [Stamped(s, message, now)], other, limit) == History(log, other, limit)
  {
    var turn := Stamped(s, message, now);
    assert !BelongsTo(turn, other);
    SelectAppend(log, [turn], other, true);
    assert Select([turn], other, true) == [];
    assert TurnsOf(log, other) + [] == TurnsOf(log, other);
  }

  /** Removing a session's turns empties its history and leaves every other session's. */
  lemma {:induction false} DeleteClearsHistory(log: seq<Doc>, s: string, other: string)
    ensures TurnsOf(Select(log, s, false), s) == []
    ensures other != s ==> TurnsOf(Select(log, s, false), other) == TurnsOf(log, other)
  {
    if log != [] {
      DeleteClearsHistory(log[1..], s, other);
      var rest := Select(log[1..], s, false);
      if !BelongsTo(log[0], s) {
        assert Select(log, s, false) == [log[0]] + rest;
        assert ([log[0]] + rest)[1..] == rest;
      } else {
        assert Select(log, s, false) == rest;
      }
    }
  }

  // ---- preferences ----

  /** A key is in the preference map exactly when the session has a document for it. */
  lemma {:induction false} PrefMapKeys(rows: seq<Preference>, s: string, k: string)
    ensures k in PrefMap(rows, s) <==> exists i :: 0 <= i < |rows| && rows[i].sessionId == s && rows[i].key == k
  {
    if rows != [] {
      var init := rows[..|rows| - 1];
      PrefMapKeys(init, s, k);
      if exists i :: 0 <= i < |init| && init[i].sessionId == s && init[i].key == k {
        var i :| 0 <= i < |init| && init[i].sessionId == s && init[i].key == k;
        assert rows[i] == init[i];
      }
      if exists i :: 0 <= i < |rows| && rows[i].sessionId == s && rows[i].key == k {
        var i :| 0 <= i < |rows| && rows[i].sessionId == s && rows[i].key == k;
        if i < |init| {
          assert init[i] == rows[i];
        }
      }
    }
  }

  /** With one document per key, the map holds each of the session's documents' value. */
  lemma {:induction false} PrefMapValue(rows: seq<Preference>, s: string, i: nat)
    requires UniquePrefs(rows) && i < |rows| && rows[i].sessionId == s
    ensures rows[i].key in PrefMap(rows, s) && PrefMap(rows, s)[rows[i].key] == rows[i].value
  {
    var init := rows[..|rows| - 1];
    if i < |rows| - 1 {
      assert init[i] == rows[i];
      PrefMapValue(init, s, i);
    }
  }

  /** `saveUserPreference(s, k, v)` then `getUserPreferences(s)`: `k` maps to `v`, every other key as before. */
  lemma SavedPreferenceIsRead(rows: seq<Preference>, s: string, k: string, v: Value, now: nat)
    requires UniquePrefs(rows)
    ensures PrefMap(Upserted(rows, s, k, v, now), s) == PrefMap(rows, s)[k := v]
  {
    var after := Upserted(rows, s, k, v, now);
    match FindPref(rows, s, k)
    case None =>
      assert after[..|after| - 1] == rows;
    case Some(i) =>
      UpsertedUnique(rows, s, k, v, now);
      var a := PrefMap(after, s);
      var b := PrefMap(rows, s)[k := v];
      forall key ensures key in a <==> key in b {
        PrefMapKeys(after, s, key);
        PrefMapKeys(rows, s, key);
        if key in b && key != k {
          var j :| 0 <= j < |rows| && rows[j].sessionId == s && rows[j].key == key;
          assert after[j] == rows[j];
        }
        if key in a {
          var j :| 0 <= j < |after| && after[j].sessionId == s && after[j].key == key;
          if j != i { assert after[j] == rows[j]; }
        }
        if key == k { assert after[i].sessionId == s && after[i].key == k; }
      }
      forall key | key in a ensures a[key] == b[key] {
        PrefMapKeys(after, s, key);
        var j :| 0 <= j < |after| && after[j].sessionId == s && after[j].key == key;
        PrefMapValue(after, s, j);
        if j != i {
          assert after[j] == rows[j];
          PrefMapValue(rows, s, j);
        }
      }
      assert a == b;
  }

  /** Saving a preference for one session changes no other session's map. */
  lemma SavedPreferenceOtherSessions(rows: seq<Preference>, s: string, other: string, k: string, v: Value, now: nat)
    requires UniquePrefs(rows) && s != other
    ensures PrefMap(Upserted(rows, s, k, v, now), other) == PrefMap(rows, other)
  {
    var after := Upserted(rows, s, k, v, now);
    match FindPref(rows, s, k)
    case None =>
      assert after[..|after| - 1] == rows;
    case Some(i) =>
      UpsertedUnique(rows, s, k, v, now);
      var a := PrefMap(after, other);
      var b := PrefMap(rows, other);
      forall key ensures key in a <==> key in b {
        PrefMapKeys(after, other, key);
        PrefMapKeys(rows, other, key);
        if key in b {
          var j :| 0 <= j < |rows| && rows[j].sessionId == other && rows[j].key == key;
          assert after[j] == rows[j];
        }
        if key in a {
          var j :| 0 <= j < |after| && after[j].sessionId == other && after[j].key == key;
          assert after[j] == rows[j];
        }
      }
      forall key | key in a ensures a[key] == b[key] {
        PrefMapKeys(after, other, key);
        var j :| 0 <= j < |after| && after[j].sessionId == other && after[j].key == key;
        PrefMapValue(after, other, j);
        assert after[j] == rows[j];
        PrefMapValue(rows, other, j);
      }
      assert a == b;
  }

  /** Removing a session's preference documents empties its map and leaves every other session's. */
  lemma {:induction false} DeletedPreferences(rows: seq<Preference>, s: string, other: string)
    ensures PrefMap(PrefsWithout(rows, s), s) == map[]
    ensures other != s ==> PrefMap(PrefsWithout(rows, s), other) == PrefMap(rows, other)
  {
    if rows != [] {
      var init := rows[..|rows| - 1];
      var last := rows[|rows| - 1];
      DeletedPreferences(init, s, other);
      var kept := PrefsWithout(init, s);
      if last.sessionId != s {
        assert (kept + [last])[..|kept|] == kept;
      } else {
        assert kept + [] == kept;
      }
    }
  }

  // ---- search ----

  /** A search page holds at most ten documents, each matching, and only the given session's. */
  lemma SearchPageFiltered(docs: map<string, Doc>, query: string, sessionId: Option<string>, picked: seq<string>)
    requires NewestPage(docs, MatchingKeys(docs, query, sessionId), SearchLimit, picked)
    ensures |DocsAt(docs, picked)| <= SearchLimit
    ensures forall i :: 0 <= i < |picked| ==> SearchMatches(DocsAt(docs, picked)[i], query, sessionId)
    ensures sessionId.Some? && sessionId.value != "" ==> forall i :: 0 <= i < |picked| ==> BelongsTo(DocsAt(docs, picked)[i], sessionId.value)
  {
  }

  // ---- the connection ----

  /** Once `connect` has succeeded, a later `connect` keeps the same client and handle, whether or not the backend is reachable. */
  lemma ConnectIsMemoised(c: Connection, reachable: bool)
    ensures IsOpen(Reconnect(c, true))
    ensures Reconnect(Reconnect(c, true), reachable) == Reconnect(c, true)
  {
  }

  /** A failed `connect` leaves the disconnected state: not connected, no handle, no client. */
  lemma ConnectFailureResets(c: Connection)
    requires !IsOpen(c)
    ensures var r := Reconnect(c, false); !r.isConnected && r.db.None? && r.client.None?
  {
  }

  /** After `disconnect`, the next successful `connect` creates a new client rather than reusing the closed one. */
  lemma DisconnectThenConnect(c: Connection)
    requires IsOpen(c) && c.client.Some? && c.client.value < c.created
    ensures IsOpen(Reconnect(Disconnected(c), true))
    ensures Reconnect(Disconnected(c), true).client != c.client
  {
  }
}
