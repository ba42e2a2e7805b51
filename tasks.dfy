/**
 * The request logic of `services/tasksService.js`: the list query of
 * `getTasks`, the bodies `createTask` and `completeTask` send, and
 * `getUpcomingTasks`, which gathers the tasks of every list, names each
 * with its list's title, orders them by due date and keeps the first
 * `maxResults`. The Tasks API is a parameter: `fetch` answers a list query
 * with that list's tasks, and `time` is what `new Date(due)` makes of a due
 * date.
 */
module Tasks {
  import opened Wrappers
  import opened Json

  // ---- requests ----

  /** `getTasks(tokens, tasklistId = '@default')`: open, visible tasks of one list. */
  function TasksQuery(tasklistId: Value): (q: Doc)
    ensures Get(q, "showCompleted") == Bool(false) && Get(q, "showHidden") == Bool(false)
    ensures Get(q, "tasklist") == (if tasklistId.Undefined? then Str("@default") else tasklistId)
  {
    map["tasklist" := if tasklistId.Undefined? then Str("@default") else tasklistId,
        "showCompleted" := Bool(false), "showHidden" := Bool(false)]
  }

  /**
   * `createTask`'s body: the title, the notes (`''` when not passed), status
   * `needsAction`, and `due` as `iso` renders it, only when a due date is
   * given.
   */
  function NewTask(title: Value, notes: Value, due: Value, iso: Value -> string): Doc {
    var task := map["title" := title, "notes" := if notes.Undefined? then Str("") else notes,
                    "status" := Str("needsAction")];
    if Truthy(due) then task["due" := Str(iso(due))] else task
  }

  lemma NewTaskFields(title: Value, notes: Value, due: Value, iso: Value -> string)
    ensures var t := NewTask(title, notes, due, iso);
            && t.Keys == {"title", "notes", "status"} + (if Truthy(due) then {"due"} else {})
            && t["status"] == Str("needsAction") && t["title"] == title
            && t["notes"] == (if notes.Undefined? then Str("") else notes)
            && ("due" in t ==> t["due"] == Str(iso(due)))
  {
  }

  /** `completeTask`'s patch: the status, and nothing else. */
  function CompletePatch(): (patch: Doc)
    ensures patch.Keys == {"status"} && patch["status"] == Str("completed")
  {
    map["status" := Str("completed")]
  }

  // ---- ordering by due date ----

  /** A task with a truthy `due`. */
  predicate Dated(task: Doc) {
    Truthy(Get(task, "due"))
  }

  /** The comparator as written: an undated first argument always sorts after. */
  function CompareAsWritten(time: Value -> int, a: Doc, b: Doc): int {
    if !Dated(a) then 1
    else if !Dated(b) then -1
    else time(Get(a, "due")) - time(Get(b, "due"))
  }

  /**
   * Two undated tasks each claim to sort after the other, so the comparator
   * is not consistent and the order `sort` gives undated tasks is left to
   * the engine.
   */
  lemma CompareAsWrittenInconsistent(time: Value -> int)
    ensures var a, b := map["title" := Str("a")], map["title" := Str("b")];
            CompareAsWritten(time, a, b) > 0 && CompareAsWritten(time, b, a) > 0
  {
    var a: Doc := map["title" := Str("a")];
    assert Get(a, "due") == Undefined;
    var b: Doc := map["title" := Str("b")];
    assert Get(b, "due") == Undefined;
  }

  /** The comparator as evidently meant: dated tasks first by due time, undated ones equal. */
  function CompareDue(time: Value -> int, a: Doc, b: Doc): int {
    if !Dated(a) && !Dated(b) then 0
    else CompareAsWritten(time, a, b)
  }

  /** `a` may come before `b`: `a` is dated and due no later, or `b` is undated. */
  predicate NoLater(time: Value -> int, a: Doc, b: Doc) {
    !Dated(b) || (Dated(a) && time(Get(a, "due")) <= time(Get(b, "due")))
  }

  /**
   * The corrected comparator is consistent: swapping its arguments flips
   * its sign, and it orders exactly as `NoLater`, a total preorder.
   */
  lemma CompareDueConsistent(time: Value -> int, a: Doc, b: Doc, c: Doc)
    ensures CompareDue(time, a, b) < 0 <==> CompareDue(time, b, a) > 0
    ensures CompareDue(time, a, b) == 0 <==> CompareDue(time, b, a) == 0
    ensures CompareDue(time, a, b) <= 0 <==> NoLater(time, a, b)
    ensures NoLater(time, a, b) || NoLater(time, b, a)
    ensures NoLater(time, a, b) && NoLater(time, b, c) ==> NoLater(time, a, c)
  {
  }

  predicate SortedByDue(time: Value -> int, s: seq<Doc>) {
    forall i, j :: 0 <= i < j < |s| ==> NoLater(time, s[i], s[j])
  }

  /** Puts `x` after every task of `s` due no later than it. */
  function InsertByDue(time: Value -> int, x: Doc, s: seq<Doc>): (r: seq<Doc>)
    ensures multiset(r) == multiset(s) + multiset{x}
  {
    if s == [] then [x]
    else if NoLater(time, s[0], x) then
      assert s == [s[0]] + s[1..];
      [s[0]] + InsertByDue(time, x, s[1..])
    else [x] + s
  }

  /** Inserting into a sorted list keeps it sorted. */
  lemma {:induction false} InsertKeepsSorted(time: Value -> int, x: Doc, s: seq<Doc>)
    requires SortedByDue(time, s)
    ensures SortedByDue(time, InsertByDue(time, x, s))
  {
    if s == [] {
    } else if NoLater(time, s[0], x) {
      var rest := InsertByDue(time, x, s[1..]);
      SortedTail(time, s);
      InsertKeepsSorted(time, x, s[1..]);
      HeadBeforeAll(time, x, s, rest);
      ConsSorted(time, s[0], rest);
    } else {
      forall k | 0 <= k < |s| ensures NoLater(time, x, s[k]) {
        CompareDueConsistent(time, s[0], x, s[k]);
        CompareDueConsistent(time, x, s[0], s[k]);
      }
      ConsSorted(time, x, s);
    }
  }

  lemma SortedTail(time: Value -> int, s: seq<Doc>)
    requires s != [] && SortedByDue(time, s)
    ensures SortedByDue(time, s[1..])
  {
    forall i, j | 0 <= i < j < |s[1..]| ensures NoLater(time, s[1..][i], s[1..][j]) {
      assert s[1..][i] == s[i + 1] && s[1..][j] == s[j + 1];
    }
  }

  lemma ConsSorted(time: Value -> int, h: Doc, rest: seq<Doc>)
    requires SortedByDue(time, rest) && forall k :: 0 <= k < |rest| ==> NoLater(time, h, rest[k])
    ensures SortedByDue(time, [h] + rest)
  {
    var r := [h] + rest;
    forall i, j | 0 <= i < j < |r| ensures NoLater(time, r[i], r[j]) {
      assert r[j] == rest[j - 1];
      if i > 0 {
        assert r[i] == rest[i - 1];
      }
    }
  }

  /** The head of a sorted list, due no later than `x`, comes before everything inserting `x` into the rest makes. */
  lemma HeadBeforeAll(time: Value -> int, x: Doc, s: seq<Doc>, rest: seq<Doc>)
    requires s != [] && SortedByDue(time, s) && NoLater(time, s[0], x)
    requires multiset(rest) == multiset(s[1..]) + multiset{x}
    ensures forall k :: 0 <= k < |rest| ==> NoLater(time, s[0], rest[k])
  {
    forall k | 0 <= k < |rest| ensures NoLater(time, s[0], rest[k]) {
      var y := rest[k];
      assert y in multiset(rest);
      if y != x {
        assert y in multiset(s[1..]);
        var m :| 0 <= m < |s[1..]| && s[1..][m] == y;
        assert s[m + 1] == y;
      }
    }
  }

  /** `allTasks.sort(...)` with the corrected comparator, as an insertion sort. */
  function SortByDue(time: Value -> int, s: seq<Doc>): (r: seq<Doc>)
    ensures multiset(r) == multiset(s)
    ensures SortedByDue(time, r)
  {
    if s == [] then []
    else
      assert s == s[..|s| - 1] + [s[|s| - 1]];
      InsertKeepsSorted(time, s[|s| - 1], SortByDue(time, s[..|s| - 1]));
      InsertByDue(time, s[|s| - 1], SortByDue(time, s[..|s| - 1]))
  }

  // ---- upcoming tasks ----

  /** A task list: its id and its title. */
  datatype TaskList = TaskList(id: Value, title: Value)

  /** `{ ...task, taskListName: title }` for every task of a list. */
  function Annotate(tasks: seq<Doc>, title: Value): (r: seq<Doc>)
    ensures |r| == |tasks|
    ensures forall k :: 0 <= k < |tasks| ==> r[k] == tasks[k]["taskListName" := title]
  {
    seq(|tasks|, k requires 0 <= k < |tasks| => tasks[k]["taskListName" := title])
  }

  /** The tasks of every list, list by list, each named with its list's title. */
  function Gathered(lists: seq<TaskList>, fetch: Doc -> seq<Doc>): seq<Doc> {
    if lists == [] then []
    else
      var last := lists[|lists| - 1];
      Gathered(lists[..|lists| - 1], fetch) + Annotate(fetch(TasksQuery(last.id)), last.title)
  }

  /** `arr.slice(0, n)`: a negative end counts back from the length. */
  function Slice(s: seq<Doc>, n: int): (r: seq<Doc>)
    ensures r <= s
    ensures n >= 0 ==> |r| == if n < |s| then n else |s|
    ensures n < 0 ==> |r| == if |s| + n > 0 then |s| + n else 0
  {
    if n >= 0 then (if n < |s| then s[..n] else s)
    else if |s| + n > 0 then s[..|s| + n] else []
  }

  /**
   * `getUpcomingTasks`: gathers every list's open tasks in list order,
   * sorts them by due date and keeps the first `maxResults`.
   */
  method GetUpcomingTasks(lists: seq<TaskList>, fetch: Doc -> seq<Doc>, time: Value -> int, maxResults: int)
    returns (r: seq<Doc>)
    ensures r == Slice(SortByDue(time, Gathered(lists, fetch)), maxResults)
  {
    var allTasks: seq<Doc> := [];
    var i := 0;
    while i < |lists|
      invariant 0 <= i <= |lists|
      invariant allTasks == Gathered(lists[..i], fetch)
    {
      var taskList := lists[i];
      var taskListTasks := fetch(TasksQuery(taskList.id));
      allTasks := allTasks + Annotate(taskListTasks, taskList.title);
      i := i + 1;
      assert lists[..i][..i - 1] == lists[..i - 1];
    }
    assert lists[..i] == lists;
    var sorted := SortByDue(time, allTasks);
    r := Slice(sorted, maxResults);
  }

  /** The gathered tasks are exactly the fetched tasks of some list, each named with that list's title. */
  lemma {:induction false} GatheredFromLists(lists: seq<TaskList>, fetch: Doc -> seq<Doc>, t: Doc)
    requires t in Gathered(lists, fetch)
    ensures exists k, j :: 0 <= k < |lists| && 0 <= j < |fetch(TasksQuery(lists[k].id))|
              && t == fetch(TasksQuery(lists[k].id))[j]["taskListName" := lists[k].title]
  {
    var n := |lists|;
    var last := lists[n - 1];
    var before := Gathered(lists[..n - 1], fetch);
    var mine := Annotate(fetch(TasksQuery(last.id)), last.title);
    if t in before {
      GatheredFromLists(lists[..n - 1], fetch, t);
      var k, j :| 0 <= k < n - 1 && 0 <= j < |fetch(TasksQuery(lists[..n - 1][k].id))|
                  && t == fetch(TasksQuery(lists[..n - 1][k].id))[j]["taskListName" := lists[..n - 1][k].title];
      assert lists[..n - 1][k] == lists[k];
    } else {
      var j :| 0 <= j < |mine| && mine[j] == t;
      assert t == fetch(TasksQuery(lists[n - 1].id))[j]["taskListName" := lists[n - 1].title];
    }
  }

  /**
   * What `getUpcomingTasks` answers: at most `maxResults` tasks (all of
   * them when fewer; a negative count drops that many from the end, as
   * `slice` does), each one a task of some list named with that list's
   * title, dated tasks before undated ones, in order of due time.
   */
  lemma UpcomingTasks(lists: seq<TaskList>, fetch: Doc -> seq<Doc>, time: Value -> int, maxResults: int)
    ensures var all := Gathered(lists, fetch);
            var r := Slice(SortByDue(time, all), maxResults);
            && (maxResults >= 0 ==> |r| == if maxResults < |all| then maxResults else |all|)
            && (maxResults < 0 ==> |r| == if |all| + maxResults > 0 then |all| + maxResults else 0)
            && (forall t :: t in r ==>
                  exists k, j :: 0 <= k < |lists| && 0 <= j < |fetch(TasksQuery(lists[k].id))|
                    && t == fetch(TasksQuery(lists[k].id))[j]["taskListName" := lists[k].title])
            && (forall i, j :: 0 <= i < j < |r| && Dated(r[j]) ==> Dated(r[i]))
            && (forall i, j :: 0 <= i < j < |r| && Dated(r[i]) && Dated(r[j]) ==>
                  time(Get(r[i], "due")) <= time(Get(r[j], "due")))
  {
    var all := Gathered(lists, fetch);
    var sorted := SortByDue(time, all);
    var r := Slice(sorted, maxResults);
    forall t | t in r
      ensures exists k, j :: 0 <= k < |lists| && 0 <= j < |fetch(TasksQuery(lists[k].id))|
                && t == fetch(TasksQuery(lists[k].id))[j]["taskListName" := lists[k].title]
    {
      assert t in sorted;
      assert t in multiset(sorted);
      assert t in all;
      GatheredFromLists(lists, fetch, t);
    }
    assert forall i :: 0 <= i < |r| ==> r[i] == sorted[i];
  }
}
