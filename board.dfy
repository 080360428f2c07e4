/**
 * The page's board state (js/board.js): the board loaded once when the page
 * starts, and the two handlers that change it, adding a task from the form
 * and deleting a task from its card. Rendering, event wiring and focus
 * handling are outside the model; the browser's store is the `saved` field,
 * and the id a new task gets is handed in by the caller.
 */
module Kanban {
  import opened Wrappers
  import opened Text
  import opened Json
  import opened Storage

  // --------------------------------------------------------------- columns

  /** `COLUMN_IDS.includes(value) ? value : "todo"`. */
  function ResolveColumn(value: string): (c: ColumnId)
    ensures value in ColumnIds ==> ColumnName(c) == value
    ensures value !in ColumnIds ==> c == Todo
  {
    ParseColumn(value).GetOr(Todo)
  }

  /** Every key in `ids` is present in the map and truthy. */
  function EveryPresent(ids: seq<string>, columnMap: map<string, bool>): (r: bool)
    ensures r <==> forall i :: 0 <= i < |ids| ==> ids[i] in columnMap && columnMap[ids[i]]
  {
    if ids == [] then true
    else (ids[0] in columnMap && columnMap[ids[0]]) && EveryPresent(ids[1..], columnMap)
  }

  /**
   * `hasAllColumns`: every column key maps to an element. A map entry is
   * `true` when the page has that element and `false` when the lookup came
   * back empty.
   */
  function HasAllColumns(columnMap: map<string, bool>): (r: bool)
    ensures r <==> forall c :: ColumnName(c) in columnMap && columnMap[ColumnName(c)]
  {
    var r := EveryPresent(ColumnIds, columnMap);
    assert r ==> forall c :: ColumnName(c) in columnMap && columnMap[ColumnName(c)] by {
      if r {
        forall c ensures ColumnName(c) in columnMap && columnMap[ColumnName(c)] {
          assert ColumnIds[ColumnIndex(c)] == ColumnName(c);
        }
      }
    }
    assert (forall c :: ColumnName(c) in columnMap && columnMap[ColumnName(c)]) ==> r by {
      assert ColumnIds == [ColumnName(Todo), ColumnName(InProgress), ColumnName(Done)];
    }
    r
  }

  // ------------------------------------------------------------------- ids

  /** The ids of a task list, in order. */
  function Ids(ts: seq<Task>): (r: seq<string>)
    ensures |r| == |ts|
    ensures forall i :: 0 <= i < |ts| ==> r[i] == ts[i].id
  {
    seq(|ts|, i requires 0 <= i < |ts| => ts[i].id)
  }

  /** The ids of two lists one after the other. */
  lemma {:induction false} IdsAppend(a: seq<Task>, b: seq<Task>)
    ensures Ids(a + b) == Ids(a) + Ids(b)
  {
  }

  /** Every id on the board, column by column. */
  function AllIds(b: Board): seq<string> {
    Ids(b.todo) + Ids(b.inProgress) + Ids(b.done)
  }

  /** No id occurs twice anywhere on the board. */
  predicate DistinctIds(b: Board) {
    forall x | x in multiset(AllIds(b)) :: multiset(AllIds(b))[x] <= 1
  }

  /** The ids of a list with one task put in front. */
  lemma {:induction false} IdsPrepend(t: Task, ts: seq<Task>)
    ensures Ids([t] + ts) == [t.id] + Ids(ts)
  {
    IdsAppend([t], ts);
  }

  /** The ids of the board are the ids of its columns, whichever column is replaced. */
  lemma {:induction false} AllIdsWithColumn(b: Board, c: ColumnId, ts: seq<Task>)
    ensures multiset(AllIds(WithColumn(b, c, ts)))
      == multiset(AllIds(b)) - multiset(Ids(Column(b, c))) + multiset(Ids(ts))
  {
    match c
    case Todo =>
    case InProgress =>
    case Done =>
  }

  /** A column's ids are among the board's ids. */
  lemma {:induction false} ColumnIdsWithin(b: Board, c: ColumnId)
    ensures multiset(Ids(Column(b, c))) <= multiset(AllIds(b))
  {
    match c
    case Todo =>
    case InProgress =>
    case Done =>
  }

  // ---------------------------------------------------------------- delete

  /** `tasks.filter((task) => task.id !== taskId)`. */
  function Remove(ts: seq<Task>, id: string): (r: seq<Task>)
    ensures |r| <= |ts|
  {
    if ts == [] then []
    else
      var rest := Remove(ts[1..], id);
      if ts[0].id == id then rest else [ts[0]] + rest
  }

  /** The list gets shorter exactly when the id occurs in it. */
  lemma {:induction false} RemoveShortensIffPresent(ts: seq<Task>, id: string)
    ensures |Remove(ts, id)| < |ts| <==> id in Ids(ts)
    decreases |ts|
  {
    if ts != [] {
      RemoveShortensIffPresent(ts[1..], id);
      IdsPrepend(ts[0], ts[1..]);
      assert ts == [ts[0]] + ts[1..];
    }
  }

  /** A list without the id comes back unchanged. */
  lemma {:induction false} RemoveAbsent(ts: seq<Task>, id: string)
    requires id !in Ids(ts)
    ensures Remove(ts, id) == ts
    decreases |ts|
  {
    if ts != [] {
      IdsPrepend(ts[0], ts[1..]);
      assert ts == [ts[0]] + ts[1..];
      RemoveAbsent(ts[1..], id);
    }
  }

  /** Exactly the tasks without that id are kept. */
  lemma {:induction false} RemoveMembers(ts: seq<Task>, id: string)
    ensures forall t :: t in Remove(ts, id) <==> t in ts && t.id != id
    decreases |ts|
  {
    if ts != [] {
      RemoveMembers(ts[1..], id);
      assert forall t :: t in ts <==> t == ts[0] || t in ts[1..];
    }
  }

  /** Filtering a list with a task in front filters the rest. */
  lemma {:induction false} RemoveCons(t: Task, ts: seq<Task>, id: string)
    ensures Remove([t] + ts, id) == (if t.id == id then [] else [t]) + Remove(ts, id)
  {
    assert ([t] + ts)[1..] == ts;
  }

  /** Filtering distributes over concatenation: the tasks kept stay in their order. */
  lemma {:induction false} RemoveAppend(a: seq<Task>, b: seq<Task>, id: string)
    ensures Remove(a + b, id) == Remove(a, id) + Remove(b, id)
    decreases |a|
  {
    if a == [] {
      assert a + b == b;
    } else {
      RemoveAppend(a[1..], b, id);
      assert a == [a[0]] + a[1..];
      assert a + b == [a[0]] + (a[1..] + b);
      RemoveCons(a[0], a[1..], id);
      RemoveCons(a[0], a[1..] + b, id);
    }
  }

  /** Filtering removes every occurrence of the id and leaves the count of every other id alone. */
  lemma {:induction false} RemoveIds(ts: seq<Task>, id: string)
    ensures multiset(Ids(Remove(ts, id))) == multiset(Ids(ts))[id := 0]
    decreases |ts|
  {
    if ts != [] {
      RemoveIds(ts[1..], id);
      IdsPrepend(ts[0], ts[1..]);
      assert ts == [ts[0]] + ts[1..];
      if ts[0].id != id {
        IdsPrepend(ts[0], Remove(ts[1..], id));
      }
    }
  }

  /** Deleting from one column cannot make two ids equal. */
  lemma {:induction false} RemoveKeepsDistinct(b: Board, c: ColumnId, id: string)
    requires DistinctIds(b)
    ensures DistinctIds(WithColumn(b, c, Remove(Column(b, c), id)))
  {
    var after := WithColumn(b, c, Remove(Column(b, c), id));
    RemoveIds(Column(b, c), id);
    AllIdsWithColumn(b, c, Remove(Column(b, c), id));
    ColumnIdsWithin(b, c);
    forall x ensures multiset(AllIds(after))[x] <= 1 {
      assert multiset(AllIds(after))[x] <= multiset(AllIds(b))[x];
    }
  }

  /**
   * Loading does not remove duplicate ids: a stored `todo` array holding the
   * same task twice loads with both copies, so distinct ids on the page
   * depend on the stored board already having them.
   */
  lemma {:induction false} LoadKeepsDuplicateIds(task: Json, stored: Json)
    requires task == JObject(map["id" := JString("x"), "title" := JString("a")])
    requires stored == JObject(map["todo" := JArray([task, task])])
    ensures Ids(LoadBoard(Some(stored)).todo) == ["x", "x"]
    ensures !DistinctIds(LoadBoard(Some(stored)))
  {
    var t := DuplicateTaskKept(task);
    var b := LoadBoard(Some(stored));
    SanitizeBoardColumns(stored, Todo);
    assert RawTasks(stored, "todo") == [task, task];
    assert b.todo == [t, t];
    RepeatedIdNotDistinct(b, t.id);
  }

  /** The array `[task, task]` sanitises to two copies of the same task. */
  lemma {:induction false} DuplicateTaskKept(task: Json) returns (t: Task)
    requires task == JObject(map["id" := JString("x"), "title" := JString("a")])
    ensures t.id == "x" && SanitizeList([task, task]) == [t, t]
  {
    t := Task("x", "a", Some(DefaultPriority));
    SampleTaskKept(task);
    SanitizeListSingle(task);
    SanitizeListAppend([task], [task]);
    assert [task] + [task] == [task, task];
  }

  /** The task object of the example sanitises to itself with the default priority. */
  lemma {:induction false} SampleTaskKept(task: Json)
    requires task == JObject(map["id" := JString("x"), "title" := JString("a")])
    ensures SanitizeTask(task) == Some(Task("x", "a", Some(DefaultPriority)))
  {
    TrimTrimmed("x");
    TrimTrimmed("a");
    assert TrimmedField(task, "id") == "x";
    assert TrimmedField(task, "title") == "a";
    assert Get(task, "priority") == None;
  }

  /** A todo column holding the same id twice breaks distinctness. */
  lemma {:induction false} RepeatedIdNotDistinct(b: Board, id: string)
    requires |b.todo| == 2 && b.todo[0].id == id && b.todo[1].id == id
    ensures Ids(b.todo) == [id, id]
    ensures !DistinctIds(b)
  {
    assert Ids(b.todo) == [id, id];
    assert multiset(AllIds(b))[id] >= 2;
  }

  // ------------------------------------------------------------------- add

  /** Putting a task with an unused id in front of a column keeps the ids distinct. */
  lemma {:induction false} PrependKeepsDistinct(b: Board, c: ColumnId, t: Task)
    requires DistinctIds(b)
    requires t.id !in AllIds(b)
    ensures DistinctIds(WithColumn(b, c, [t] + Column(b, c)))
  {
    AllIdsPrepend(b, c, t);
    AddUnusedKeepsSingles(multiset(AllIds(b)), t.id);
  }

  /** Putting a task in front of a column adds its id to the board's ids. */
  lemma {:induction false} AllIdsPrepend(b: Board, c: ColumnId, t: Task)
    ensures multiset(AllIds(WithColumn(b, c, [t] + Column(b, c)))) == multiset(AllIds(b)) + multiset{t.id}
  {
    IdsPrepend(t, Column(b, c));
    AllIdsWithColumn(b, c, [t] + Column(b, c));
    ColumnIdsWithin(b, c);
  }

  /** Adding an element not yet present to a multiset of singles keeps it a multiset of singles. */
  lemma {:induction false} AddUnusedKeepsSingles(m: multiset<string>, y: string)
    requires forall x | x in m :: m[x] <= 1
    requires y !in m
    ensures forall x | x in m + multiset{y} :: (m + multiset{y})[x] <= 1
  {
    forall x | x in m + multiset{y} ensures (m + multiset{y})[x] <= 1 {
      if x != y {
        assert (m + multiset{y})[x] == m[x];
      }
    }
  }

  /**
   * What the store receives after an add: the sanitised copy puts the new
   * task first in its column with its title cut to 120 characters and the
   * default priority, neither of which the board in memory has.
   */
  lemma {:induction false} SavedCopyOfAddedTask(b: Board, c: ColumnId, t: Task)
    requires t.id != [] && IsTrimmed(t.id)
    requires t.title != [] && IsTrimmed(t.title)
    requires t.priority.None?
    ensures
      var saved := SanitizeBoard(BoardToJson(WithColumn(b, c, [t] + Column(b, c))));
      |Column(saved, c)| > 0
      && Column(saved, c)[0] == Task(t.id, Take(t.title, MaxTitleLength), Some(DefaultPriority))
  {
    var after := WithColumn(b, c, [t] + Column(b, c));
    var rest := Column(b, c);
    SanitizeBoardToJsonColumn(after, c);
    assert TasksToJson([t] + rest) == [TaskToJson(t)] + TasksToJson(rest);
    SanitizeListAppend([TaskToJson(t)], TasksToJson(rest));
    SanitizeListSingle(TaskToJson(t));
    TaskToJsonFields(t);
    TrimTrimmed(t.id);
    TrimTrimmed(t.title);
  }

  // ----------------------------------------------------------------- state

  /**
   * The board the page holds (`let board` in `initBoard`), one task list per
   * column, together with the value last written to the browser's store.
   */
  class BoardState {
    var todo: seq<Task>
    var inProgress: seq<Task>
    var done: seq<Task>
    /** The decoded value under the board's storage key; `None` when the key is absent, empty or unparseable. */
    var saved: Option<Json>

    function Snapshot(): Board
      reads this
    {
      Board(todo, inProgress, done)
    }

    /** `let board = loadBoard()`: the page starts from whatever the store holds, healed. */
    constructor (stored: Option<Json>)
      ensures Snapshot() == LoadBoard(stored)
      ensures ShapedBoard(Snapshot())
      ensures saved == stored
    {
      var b := LoadBoard(stored);
      todo := b.todo;
      inProgress := b.inProgress;
      done := b.done;
      saved := stored;
    }

    /** Replaces one column and nothing else. */
    method SetColumn(c: ColumnId, ts: seq<Task>)
      modifies this
      ensures Snapshot() == WithColumn(old(Snapshot()), c, ts)
      ensures saved == old(saved)
    {
      match c
      case Todo => todo := ts;
      case InProgress => inProgress := ts;
      case Done => done := ts;
    }

    /** `saveBoard(board)`: the store receives the sanitised copy of the board. */
    method Save()
      modifies this
      ensures Snapshot() == old(Snapshot())
      ensures saved == Some(SaveBoard(Snapshot()))
    {
      saved := Some(SaveBoard(Snapshot()));
    }

    /**
     * The submit handler: trim the input, refuse an empty title, fall back
     * to `todo` for an unknown column, put `{id, title}` in front of the
     * column and save. `freshId` stands for `createTaskId()`; when it is
     * unused, the ids on the board stay distinct.
     */
    method AddTask(columnValue: string, inputValue: string, freshId: string) returns (added: bool)
      modifies this
      ensures added <==> Trim(inputValue) != []
      ensures !added ==> Snapshot() == old(Snapshot()) && saved == old(saved)
      ensures added ==> Snapshot() == WithColumn(old(Snapshot()), ResolveColumn(columnValue),
                          [Task(freshId, Trim(inputValue), None)] + Column(old(Snapshot()), ResolveColumn(columnValue)))
      ensures added ==> saved == Some(SaveBoard(Snapshot()))
      ensures DistinctIds(old(Snapshot())) && freshId !in AllIds(old(Snapshot())) ==> DistinctIds(Snapshot())
    {
      var title := Trim(inputValue);
      var columnId := ResolveColumn(columnValue);
      if title == [] {
        return false;
      }
      var before := Snapshot();
      var task := Task(freshId, title, None);
      SetColumn(columnId, [task] + Column(before, columnId));
      Save();
      if DistinctIds(before) && freshId !in AllIds(before) {
        PrependKeepsDistinct(before, columnId, task);
      }
      return true;
    }

    /**
     * The delete click handler: ignore a card without an id or with an
     * unknown column, drop every task with that id from that column, and
     * save only when the column got shorter.
     */
    method DeleteTask(taskId: string, columnValue: string) returns (changed: bool)
      modifies this
      ensures taskId == [] || columnValue !in ColumnIds ==>
        !changed && Snapshot() == old(Snapshot()) && saved == old(saved)
      ensures taskId != [] && columnValue in ColumnIds ==>
        var c := ParseColumn(columnValue).value;
        Snapshot() == WithColumn(old(Snapshot()), c, Remove(Column(old(Snapshot()), c), taskId))
        && (changed <==> |Column(Snapshot(), c)| < |Column(old(Snapshot()), c)|)
        && (changed <==> taskId in Ids(Column(old(Snapshot()), c)))
      ensures changed ==> saved == Some(SaveBoard(Snapshot()))
      ensures !changed ==> saved == old(saved) && Snapshot() == old(Snapshot())
      ensures DistinctIds(old(Snapshot())) ==> DistinctIds(Snapshot())
    {
      if taskId == [] || columnValue !in ColumnIds {
        return false;
      }
      var before := Snapshot();
      var columnId := ParseColumn(columnValue).value;
      var previousLength := |Column(before, columnId)|;
      SetColumn(columnId, Remove(Column(before, columnId), taskId));
      RemoveShortensIffPresent(Column(before, columnId), taskId);
      if DistinctIds(before) {
        RemoveKeepsDistinct(before, columnId, taskId);
      }
      if |Column(Snapshot(), columnId)| == previousLength {
        RemoveAbsent(Column(before, columnId), taskId);
        BoardExtensionality(Snapshot(), before);
        return false;
      }
      Save();
      return true;
    }
  }
}
