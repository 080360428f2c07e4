/**
 * The persistence boundary of the board (js/storage.js): the board shape,
 * the sanitiser that heals any decoded JSON value into that shape, and the
 * load/save rules around it. Reading and writing the browser's key-value
 * store and the JSON text codec are outside the model: a load receives the
 * decoded value (or nothing) and a save yields the value it would encode.
 */
module Storage {
  import opened Wrappers
  import opened Text
  import opened Json

  // ---------------------------------------------------------------- columns

  datatype ColumnId = Todo | InProgress | Done

  /** The fixed column keys, in canonical order. */
  const ColumnIds: seq<string> := ["todo", "in-progress", "done"]

  function ColumnName(c: ColumnId): (r: string)
    ensures r in ColumnIds
  {
    match c
    case Todo => "todo"
    case InProgress => "in-progress"
    case Done => "done"
  }

  /** Where a column's key stands among the column keys. */
  function ColumnIndex(c: ColumnId): (k: nat)
    ensures k < |ColumnIds| && ColumnIds[k] == ColumnName(c)
  {
    match c
    case Todo => 0
    case InProgress => 1
    case Done => 2
  }

  /** `COLUMN_IDS.includes(s)`, returning the column it names. */
  function ParseColumn(s: string): (r: Option<ColumnId>)
    ensures r.Some? <==> s in ColumnIds
    ensures r.Some? ==> ColumnName(r.value) == s
  {
    if s == "todo" then Some(Todo)
    else if s == "in-progress" then Some(InProgress)
    else if s == "done" then Some(Done)
    else None
  }

  /** Column names and column ids are in one-to-one correspondence. */
  lemma {:induction false} ParseColumnName(c: ColumnId)
    ensures ParseColumn(ColumnName(c)) == Some(c)
  {
  }

  // ------------------------------------------------------------- priorities

  datatype Priority = Low | Medium | High

  const PriorityLevels: seq<string> := ["low", "medium", "high"]
  const DefaultPriority: Priority := Medium

  function PriorityName(p: Priority): (r: string)
    ensures r in PriorityLevels
  {
    match p
    case Low => "low"
    case Medium => "medium"
    case High => "high"
  }

  function ParsePriority(s: string): (r: Option<Priority>)
    ensures r.Some? <==> s in PriorityLevels
    ensures r.Some? ==> PriorityName(r.value) == s
  {
    if s == "low" then Some(Low)
    else if s == "medium" then Some(Medium)
    else if s == "high" then Some(High)
    else None
  }

  /** The text `normalizePriority` compares: trimmed and lower-cased, or empty for a non-string. */
  function PriorityText(v: Option<Json>): (r: string)
    ensures IsTrimmed(r)
    ensures forall i :: 0 <= i < |r| ==> !IsUpper(r[i])
    ensures !(v.Some? && v.value.JString?) ==> r == []
  {
    LowerKeepsTrimmed(match v case Some(JString(s)) => Trim(s) case _ => "");
    match v
    case Some(JString(s)) => Lower(Trim(s))
    case _ => ""
  }

  /**
   * `normalizePriority`: the level the normalised text names, and the
   * default level for any other text and for a value that is not a string.
   */
  function NormalizePriority(v: Option<Json>): (r: Priority)
    ensures PriorityText(v) in PriorityLevels ==> PriorityName(r) == PriorityText(v)
    ensures PriorityText(v) !in PriorityLevels ==> r == DefaultPriority
    ensures !(v.Some? && v.value.JString?) ==> r == DefaultPriority
  {
    ParsePriority(PriorityText(v)).GetOr(DefaultPriority)
  }

  /** A level's own name normalises back to that level. */
  lemma {:induction false} NormalizePriorityName(p: Priority)
    ensures NormalizePriority(Some(JString(PriorityName(p)))) == p
  {
    var name := PriorityName(p);
    TrimTrimmed(name);
    LowerWithoutUpper(name);
    assert PriorityText(Some(JString(name))) == name;
  }

  /** Surrounding spaces and upper case are tolerated. */
  lemma {:induction false} NormalizePriorityExample()
    ensures NormalizePriority(Some(JString(" HIGH\n"))) == High
  {
    var s := " HIGH\n";
    assert TrimStart(s[1..]) == s[1..];
    assert TrimStart(s) == "HIGH\n";
    assert "HIGH\n"[..4] == "HIGH";
    assert TrimEnd("HIGH") == "HIGH";
    assert TrimEnd("HIGH\n") == "HIGH";
    assert Lower("HIGH") == "high";
  }

  /** Any other text, and any value that is not a string, gives the default level. */
  lemma {:induction false} NormalizePriorityFallbackExample()
    ensures NormalizePriority(Some(JString("urgent"))) == Medium
    ensures NormalizePriority(Some(JNumber(3.0))) == Medium
    ensures NormalizePriority(None) == Medium
  {
    assert Trim("urgent") == "urgent";
    assert Lower("urgent") == "urgent";
  }

  // ------------------------------------------------------------------ tasks

  /**
   * A task as the board holds it. A task loaded from storage always has a
   * priority; a task added on the page has none until it is saved.
   */
  datatype Task = Task(id: string, title: string, priority: Option<Priority>)

  /** Longest title kept by the sanitiser. */
  const MaxTitleLength: nat := 120

  /** The shape every sanitised task has. */
  predicate Shaped(t: Task) {
    && t.id != [] && IsTrimmed(t.id)
    && t.title != [] && !IsSpace(t.title[0]) && |t.title| <= MaxTitleLength
    && t.priority.Some?
  }

  /** A shaped task whose title is trimmed at both ends too: one the sanitiser leaves alone. */
  predicate Canonical(t: Task) {
    Shaped(t) && IsTrimmed(t.title)
  }

  /** `typeof value[key] === "string" ? value[key].trim() : ""`. */
  function TrimmedField(v: Json, key: string): (r: string)
    ensures IsTrimmed(r)
    ensures r != [] ==>
      (v.JObject? && key in v.fields && v.fields[key].JString? && r == Trim(v.fields[key].s))
  {
    match Get(v, key)
    case Some(JString(s)) => Trim(s)
    case _ => ""
  }

  /**
   * `sanitizeTask`: rejects anything but an object whose `id` and `title`
   * are strings with non-space text; otherwise keeps the trimmed id, the
   * trimmed title cut to its first 120 characters, and the normalised
   * priority.
   */
  function SanitizeTask(v: Json): (r: Option<Task>)
    ensures r.None? <==> !v.JObject? || TrimmedField(v, "id") == [] || TrimmedField(v, "title") == []
    ensures r.Some? ==> Shaped(r.value)
    ensures r.Some? ==> r.value.id == TrimmedField(v, "id")
    ensures r.Some? ==> r.value.title == Take(TrimmedField(v, "title"), MaxTitleLength)
    ensures r.Some? ==> r.value.priority == Some(NormalizePriority(Get(v, "priority")))
  {
    if !Truthy(v) || !IsObjectType(v) then None
    else
      var id := TrimmedField(v, "id");
      var title := TrimmedField(v, "title");
      var priority := NormalizePriority(Get(v, "priority"));
      if id == [] || title == [] then None
      else Some(Task(id, Take(title, MaxTitleLength), Some(priority)))
  }

  /** The object a task is when it is handed to the sanitiser; a task without a priority has no `priority` field. */
  function TaskToJson(t: Task): Json {
    JObject(ObjectOf(TaskMembers(t)))
  }

  function TaskMembers(t: Task): seq<(string, Json)> {
    [("id", JString(t.id)), ("title", JString(t.title))]
      + match t.priority
        case Some(p) => [("priority", JString(PriorityName(p)))]
        case None => []
  }

  /** What the sanitiser reads back from a task's own object. */
  lemma {:induction false} TaskToJsonFields(t: Task)
    ensures TrimmedField(TaskToJson(t), "id") == Trim(t.id)
    ensures TrimmedField(TaskToJson(t), "title") == Trim(t.title)
    ensures t.priority.Some? ==> Get(TaskToJson(t), "priority") == Some(JString(PriorityName(t.priority.value)))
    ensures t.priority.None? ==> Get(TaskToJson(t), "priority").None?
  {
    var ms := TaskMembers(t);
    ObjectOfSnoc([], "id", JString(t.id));
    assert [] + [("id", JString(t.id))] == [("id", JString(t.id))];
    ObjectOfSnoc([("id", JString(t.id))], "title", JString(t.title));
    var two := [("id", JString(t.id)), ("title", JString(t.title))];
    assert [("id", JString(t.id))] + [("title", JString(t.title))] == two;
    var base := ObjectOf(two);
    assert base == map["id" := JString(t.id), "title" := JString(t.title)];
    if t.priority.Some? {
      ObjectOfSnoc(two, "priority", JString(PriorityName(t.priority.value)));
      assert ObjectOf(ms) == base["priority" := JString(PriorityName(t.priority.value))];
    } else {
      assert ms == two;
    }
  }

  /** A canonical task survives re-sanitising unchanged. */
  lemma {:induction false} SanitizeCanonicalTask(t: Task)
    requires Canonical(t)
    ensures SanitizeTask(TaskToJson(t)) == Some(t)
  {
    TaskToJsonFields(t);
    TrimTrimmed(t.id);
    TrimTrimmed(t.title);
    NormalizePriorityName(t.priority.value);
  }

  /** A task that survives re-sanitising unchanged is canonical. */
  lemma {:induction false} SanitizeFixedTaskCanonical(t: Task)
    requires SanitizeTask(TaskToJson(t)) == Some(t)
    ensures Canonical(t)
  {
    TaskToJsonFields(t);
    TrimFixedIffTrimmed(t.id);
    TakeOfTrimIsTrimmed(t.title);
  }

  /** A string equal to its own trimmed, truncated form is trimmed and short enough. */
  lemma {:induction false} TakeOfTrimIsTrimmed(s: string)
    requires Take(Trim(s), MaxTitleLength) == s
    ensures IsTrimmed(s) && |s| <= MaxTitleLength
  {
  }

  /** Re-sanitising a shaped task keeps it and makes it canonical. */
  lemma {:induction false} SanitizeShapedTask(t: Task)
    requires Shaped(t)
    ensures SanitizeTask(TaskToJson(t)).Some?
    ensures Canonical(SanitizeTask(TaskToJson(t)).value)
  {
    TaskToJsonFields(t);
    TrimEmptyIffAllSpaces(t.title);
    assert Trim(t.title) != [];
    TrimTrimmed(Trim(t.title));
    assert |Trim(t.title)| <= MaxTitleLength;
  }

  // ------------------------------------------------------------ task lists

  /** `.filter((task) => task !== null)`: the present values, in order. */
  function DropNulls(opts: seq<Option<Task>>): (r: seq<Task>)
    ensures |r| <= |opts|
    ensures |r| == |opts| <==> forall i :: 0 <= i < |opts| ==> opts[i].Some?
    ensures forall i :: 0 <= i < |r| ==> Some(r[i]) in opts
  {
    if opts == [] then []
    else
      var rest := DropNulls(opts[1..]);
      assert forall i :: 0 <= i < |opts| - 1 ==> opts[1..][i] == opts[i + 1];
      match opts[0]
      case Some(t) => [t] + rest
      case None => rest
  }

  /** `rawTasks.map(sanitizeTask)`. */
  function SanitizeEach(elems: seq<Json>): (r: seq<Option<Task>>)
    ensures |r| == |elems|
    ensures forall i :: 0 <= i < |elems| ==> r[i] == SanitizeTask(elems[i])
  {
    seq(|elems|, i requires 0 <= i < |elems| => SanitizeTask(elems[i]))
  }

  /** `rawTasks.map(sanitizeTask).filter((task) => task !== null)`. */
  function SanitizeList(elems: seq<Json>): (r: seq<Task>)
    ensures |r| <= |elems|
    ensures forall i :: 0 <= i < |r| ==> Shaped(r[i])
    ensures |r| == |elems| <==> forall i :: 0 <= i < |elems| ==> SanitizeTask(elems[i]).Some?
  {
    var opts := SanitizeEach(elems);
    var r := DropNulls(opts);
    assert forall i :: 0 <= i < |r| ==> Some(r[i]) in opts;
    r
  }

  /** The sanitised list of a single element: the element's task if it has one. */
  lemma {:induction false} SanitizeListSingle(v: Json)
    ensures SanitizeList([v]) == match SanitizeTask(v) case Some(t) => [t] case None => []
  {
    assert SanitizeEach([v]) == [SanitizeTask(v)];
    assert [SanitizeTask(v)][1..] == [];
  }

  /** A value is kept exactly when it is present among the inputs. */
  lemma {:induction false} DropNullsMembers(opts: seq<Option<Task>>, t: Task)
    ensures t in DropNulls(opts) <==> Some(t) in opts
    decreases |opts|
  {
    if opts != [] {
      DropNullsMembers(opts[1..], t);
      assert opts == [opts[0]] + opts[1..];
    }
  }

  /** Dropping the nulls distributes over concatenation. */
  lemma {:induction false} DropNullsAppend(a: seq<Option<Task>>, b: seq<Option<Task>>)
    ensures DropNulls(a + b) == DropNulls(a) + DropNulls(b)
    decreases |a|
  {
    if a == [] {
      assert a + b == b;
    } else {
      assert (a + b)[0] == a[0];
      assert (a + b)[1..] == a[1..] + b;
      DropNullsAppend(a[1..], b);
    }
  }

  /** When nothing is null, the i-th result is the i-th value. */
  lemma {:induction false} DropNullsAllPresent(opts: seq<Option<Task>>, i: nat)
    requires i < |opts|
    requires forall k :: 0 <= k < |opts| ==> opts[k].Some?
    ensures |DropNulls(opts)| == |opts|
    ensures DropNulls(opts)[i] == opts[i].value
    decreases |opts|
  {
    if i > 0 {
      assert forall k :: 0 <= k < |opts[1..]| ==> opts[1..][k] == opts[k + 1];
      DropNullsAllPresent(opts[1..], i - 1);
    }
  }

  /** When every input is present, the result is exactly the present values. */
  lemma {:induction false} DropNullsOfValues(opts: seq<Option<Task>>, ts: seq<Task>)
    requires |opts| == |ts|
    requires forall i :: 0 <= i < |ts| ==> opts[i] == Some(ts[i])
    ensures DropNulls(opts) == ts
    decreases |ts|
  {
    if ts != [] {
      assert forall i :: 0 <= i < |ts| - 1 ==> opts[1..][i] == opts[i + 1] && ts[1..][i] == ts[i + 1];
      DropNullsOfValues(opts[1..], ts[1..]);
      assert ts == [ts[0]] + ts[1..];
    }
  }

  /** `map` distributes over concatenation. */
  lemma {:induction false} SanitizeEachAppend(a: seq<Json>, b: seq<Json>)
    ensures SanitizeEach(a + b) == SanitizeEach(a) + SanitizeEach(b)
  {
  }

  /** Sanitising distributes over concatenation, so survivors keep their relative order. */
  lemma {:induction false} SanitizeListAppend(a: seq<Json>, b: seq<Json>)
    ensures SanitizeList(a + b) == SanitizeList(a) + SanitizeList(b)
  {
    SanitizeEachAppend(a, b);
    DropNullsAppend(SanitizeEach(a), SanitizeEach(b));
  }

  /** When every element is a valid task, the i-th survivor is the i-th element's task. */
  lemma {:induction false} SanitizeListAllValid(elems: seq<Json>, i: nat)
    requires i < |elems|
    requires forall k :: 0 <= k < |elems| ==> SanitizeTask(elems[k]).Some?
    ensures |SanitizeList(elems)| == |elems|
    ensures SanitizeList(elems)[i] == SanitizeTask(elems[i]).value
  {
    DropNullsAllPresent(SanitizeEach(elems), i);
  }

  /** The objects a task list is when handed to the sanitiser. */
  function TasksToJson(ts: seq<Task>): (r: seq<Json>)
    ensures |r| == |ts|
    ensures forall i :: 0 <= i < |ts| ==> r[i] == TaskToJson(ts[i])
  {
    if ts == [] then [] else [TaskToJson(ts[0])] + TasksToJson(ts[1..])
  }

  /** A list of canonical tasks survives re-sanitising unchanged. */
  lemma {:induction false} SanitizeCanonicalList(ts: seq<Task>)
    requires forall i :: 0 <= i < |ts| ==> Canonical(ts[i])
    ensures SanitizeList(TasksToJson(ts)) == ts
  {
    var opts := SanitizeEach(TasksToJson(ts));
    forall i | 0 <= i < |ts| ensures opts[i] == Some(ts[i]) {
      SanitizeCanonicalTask(ts[i]);
    }
    DropNullsOfValues(opts, ts);
  }

  /** A task list that survives re-sanitising unchanged holds only canonical tasks. */
  lemma {:induction false} SanitizeFixedListCanonical(ts: seq<Task>)
    requires SanitizeList(TasksToJson(ts)) == ts
    ensures forall i :: 0 <= i < |ts| ==> Canonical(ts[i])
  {
    var enc := TasksToJson(ts);
    var r := SanitizeList(enc);
    assert |r| == |enc|;
    assert forall k :: 0 <= k < |enc| ==> SanitizeTask(enc[k]).Some?;
    forall i | 0 <= i < |ts| ensures Canonical(ts[i]) {
      SanitizeListAllValid(enc, i);
      assert SanitizeTask(TaskToJson(ts[i])) == Some(r[i]);
      SanitizeFixedTaskCanonical(ts[i]);
    }
  }

  /** Re-sanitising a list of shaped tasks keeps every task and makes each canonical. */
  lemma {:induction false} SanitizeShapedList(ts: seq<Task>)
    requires forall i :: 0 <= i < |ts| ==> Shaped(ts[i])
    ensures |SanitizeList(TasksToJson(ts))| == |ts|
    ensures forall i :: 0 <= i < |ts| ==> Canonical(SanitizeList(TasksToJson(ts))[i])
  {
    var enc := TasksToJson(ts);
    forall i | 0 <= i < |enc| ensures SanitizeTask(enc[i]).Some? {
      SanitizeShapedTask(ts[i]);
    }
    var r := SanitizeList(enc);
    forall i | 0 <= i < |ts| ensures Canonical(r[i]) {
      SanitizeListAllValid(enc, i);
      SanitizeShapedTask(ts[i]);
    }
  }

  // ----------------------------------------------------------------- board

  /** The three columns and their ordered tasks, newest first. */
  datatype Board = Board(todo: seq<Task>, inProgress: seq<Task>, done: seq<Task>)

  function Column(b: Board, c: ColumnId): seq<Task> {
    match c
    case Todo => b.todo
    case InProgress => b.inProgress
    case Done => b.done
  }

  /** `b` with column `c` replaced by `ts`. */
  function WithColumn(b: Board, c: ColumnId, ts: seq<Task>): (r: Board)
    ensures forall d :: Column(r, d) == if d == c then ts else Column(b, d)
  {
    match c
    case Todo => b.(todo := ts)
    case InProgress => b.(inProgress := ts)
    case Done => b.(done := ts)
  }

  /** `createEmptyBoard`. */
  function EmptyBoard(): (r: Board)
    ensures forall c :: Column(r, c) == []
  {
    Board([], [], [])
  }

  predicate ShapedBoard(b: Board) {
    forall c, i :: 0 <= i < |Column(b, c)| ==> Shaped(Column(b, c)[i])
  }

  predicate CanonicalBoard(b: Board) {
    forall c, i :: 0 <= i < |Column(b, c)| ==> Canonical(Column(b, c)[i])
  }

  /** The object the board is: exactly the three column keys, each an array of task objects. */
  function BoardToJson(b: Board): (r: Json)
    ensures r.JObject? && r.fields.Keys == {"todo", "in-progress", "done"}
    ensures forall c :: ColumnName(c) in r.fields && r.fields[ColumnName(c)] == JArray(TasksToJson(Column(b, c)))
  {
    BoardMembersObject(b);
    JObject(ObjectOf(BoardMembers(b)))
  }

  lemma {:induction false} BoardMembersObject(b: Board)
    ensures ObjectOf(BoardMembers(b)).Keys == {"todo", "in-progress", "done"}
    ensures forall c :: (ColumnName(c) in ObjectOf(BoardMembers(b))
      && ObjectOf(BoardMembers(b))[ColumnName(c)] == JArray(TasksToJson(Column(b, c))))
  {
    var ms := BoardMembers(b);
    ObjectOfSnoc([], ms[0].0, ms[0].1);
    assert [] + [ms[0]] == ms[..1];
    ObjectOfSnoc(ms[..1], ms[1].0, ms[1].1);
    assert ms[..1] + [ms[1]] == ms[..2];
    ObjectOfSnoc(ms[..2], ms[2].0, ms[2].1);
    assert ms[..2] + [ms[2]] == ms;
  }

  function BoardMembers(b: Board): seq<(string, Json)> {
    [ ("todo", JArray(TasksToJson(b.todo))),
      ("in-progress", JArray(TasksToJson(b.inProgress))),
      ("done", JArray(TasksToJson(b.done))) ]
  }

  /** `Array.isArray(value[key]) ? value[key] : []`. */
  function RawTasks(v: Json, key: string): (r: seq<Json>)
    ensures r != [] ==> v.JObject? && key in v.fields && v.fields[key] == JArray(r)
    ensures v.JObject? && key in v.fields && v.fields[key].JArray? ==> r == v.fields[key].elems
  {
    match Get(v, key)
    case Some(JArray(elems)) => elems
    case _ => []
  }

  /** One column of the sanitised board: the column's array with the invalid elements dropped. */
  function SanitizeColumn(v: Json, c: ColumnId): (r: seq<Task>)
    ensures |r| <= |RawTasks(v, ColumnName(c))|
    ensures forall i :: 0 <= i < |r| ==> Shaped(r[i])
  {
    SanitizeList(RawTasks(v, ColumnName(c)))
  }

  /**
   * `sanitizeBoard`: a fresh board with the three columns, each sanitised
   * from the matching field, or the empty board when the input is not an
   * object (this covers falsy values, strings, numbers, booleans and
   * arrays, which have no column fields).
   */
  function SanitizeBoard(v: Json): (r: Board)
    ensures !v.JObject? ==> r == EmptyBoard()
  {
    if !Truthy(v) || !IsObjectType(v) then EmptyBoard()
    else Board(SanitizeColumn(v, Todo), SanitizeColumn(v, InProgress), SanitizeColumn(v, Done))
  }

  /**
   * Whatever the input, the sanitised board is well shaped, and no column
   * is longer than the array it came from; anything but an object gives
   * the empty board.
   */
  lemma {:induction false} SanitizeBoardShape(v: Json)
    ensures ShapedBoard(SanitizeBoard(v))
    ensures !v.JObject? ==> SanitizeBoard(v) == EmptyBoard()
    ensures forall c :: |Column(SanitizeBoard(v), c)| <= |RawTasks(v, ColumnName(c))|
  {
    forall c ensures Column(SanitizeBoard(v), c) == SanitizeColumn(v, c) {
      SanitizeBoardColumns(v, c);
    }
  }

  /** Every column of the sanitised board is that column's array with the invalid elements dropped. */
  lemma {:induction false} SanitizeBoardColumns(v: Json, c: ColumnId)
    ensures Column(SanitizeBoard(v), c) == SanitizeColumn(v, c)
  {
    if !v.JObject? {
      assert RawTasks(v, ColumnName(c)) == [];
      assert SanitizeEach([]) == [];
    }
  }

  /**
   * `sanitizeBoard` as written: start from the empty board and, walking the
   * column keys in order, fill each column from the matching field.
   */
  method SanitizeBoardByColumns(v: Json) returns (next: Board)
    ensures next == SanitizeBoard(v)
  {
    next := EmptyBoard();
    if !Truthy(v) || !IsObjectType(v) {
      return;
    }
    for k := 0 to |ColumnIds|
      invariant forall d :: Column(next, d) == if ColumnIndex(d) < k then SanitizeColumn(v, d) else []
    {
      var c := ParseColumn(ColumnIds[k]).value;
      assert ColumnIndex(c) == k;
      next := WithColumn(next, c, SanitizeColumn(v, c));
    }
    BoardExtensionality(next, SanitizeBoard(v));
  }

  /** A column whose field is missing or not an array comes out empty. */
  lemma {:induction false} SanitizeBoardNonArrayColumn(v: Json, c: ColumnId)
    requires !(Get(v, ColumnName(c)).Some? && Get(v, ColumnName(c)).value.JArray?)
    ensures Column(SanitizeBoard(v), c) == []
  {
    SanitizeBoardColumns(v, c);
    assert SanitizeEach([]) == [];
  }

  /** The columns of the board's own object are its columns' task objects. */
  lemma {:induction false} BoardToJsonColumns(b: Board)
    ensures forall c :: RawTasks(BoardToJson(b), ColumnName(c)) == TasksToJson(Column(b, c))
  {
  }

  /** Each column of a re-sanitised board is its own task list, re-sanitised. */
  lemma {:induction false} SanitizeBoardToJsonColumn(b: Board, c: ColumnId)
    ensures Column(SanitizeBoard(BoardToJson(b)), c) == SanitizeList(TasksToJson(Column(b, c)))
  {
    BoardToJsonColumns(b);
    SanitizeBoardColumns(BoardToJson(b), c);
  }

  /** A canonical board survives re-sanitising unchanged. */
  lemma {:induction false} SanitizeCanonicalBoard(b: Board)
    requires CanonicalBoard(b)
    ensures SanitizeBoard(BoardToJson(b)) == b
  {
    forall c ensures Column(SanitizeBoard(BoardToJson(b)), c) == Column(b, c) {
      SanitizeBoardToJsonColumn(b, c);
      SanitizeCanonicalList(Column(b, c));
    }
    BoardExtensionality(SanitizeBoard(BoardToJson(b)), b);
  }

  /** A board that survives re-sanitising unchanged is canonical. */
  lemma {:induction false} SanitizeFixedBoardCanonical(b: Board)
    requires SanitizeBoard(BoardToJson(b)) == b
    ensures CanonicalBoard(b)
  {
    SanitizeBoardToJsonColumn(b, Todo);
    SanitizeBoardToJsonColumn(b, InProgress);
    SanitizeBoardToJsonColumn(b, Done);
    FixedColumnsCanonical(b);
  }

  /** Columns that each survive re-sanitising unchanged hold only canonical tasks. */
  lemma {:induction false} FixedColumnsCanonical(b: Board)
    requires SanitizeList(TasksToJson(b.todo)) == b.todo
    requires SanitizeList(TasksToJson(b.inProgress)) == b.inProgress
    requires SanitizeList(TasksToJson(b.done)) == b.done
    ensures CanonicalBoard(b)
  {
    SanitizeFixedListCanonical(b.todo);
    SanitizeFixedListCanonical(b.inProgress);
    SanitizeFixedListCanonical(b.done);
    forall c, i | 0 <= i < |Column(b, c)| ensures Canonical(Column(b, c)[i]) {
      match c
      case Todo =>
      case InProgress =>
      case Done =>
    }
  }

  /** A board comes back from the sanitiser unchanged exactly when every task is canonical. */
  lemma {:induction false} SanitizeBoardFixedIffCanonical(b: Board)
    ensures SanitizeBoard(BoardToJson(b)) == b <==> CanonicalBoard(b)
  {
    if CanonicalBoard(b) { SanitizeCanonicalBoard(b); }
    if SanitizeBoard(BoardToJson(b)) == b { SanitizeFixedBoardCanonical(b); }
  }

  /** Boards with the same columns are the same board. */
  lemma {:induction false} BoardExtensionality(a: Board, b: Board)
    requires forall c :: Column(a, c) == Column(b, c)
    ensures a == b
  {
    assert Column(a, Todo) == Column(b, Todo);
    assert Column(a, InProgress) == Column(b, InProgress);
    assert Column(a, Done) == Column(b, Done);
  }

  /** Re-sanitising a sanitised board keeps every task and leaves a canonical board. */
  lemma {:induction false} SanitizeShapedBoard(b: Board)
    requires ShapedBoard(b)
    ensures CanonicalBoard(SanitizeBoard(BoardToJson(b)))
    ensures forall c :: |Column(SanitizeBoard(BoardToJson(b)), c)| == |Column(b, c)|
  {
    var again := SanitizeBoard(BoardToJson(b));
    forall c ensures Column(again, c) == SanitizeList(TasksToJson(Column(b, c))) {
      SanitizeBoardToJsonColumn(b, c);
    }
    ShapedColumnsCanonical(b, again);
  }

  /** Re-sanitising the columns of a shaped board one by one keeps every task and makes each canonical. */
  lemma {:induction false} ShapedColumnsCanonical(b: Board, again: Board)
    requires ShapedBoard(b)
    requires forall c :: Column(again, c) == SanitizeList(TasksToJson(Column(b, c)))
    ensures CanonicalBoard(again)
    ensures forall c :: |Column(again, c)| == |Column(b, c)|
  {
    forall c ensures |Column(again, c)| == |Column(b, c)|
      && forall i :: 0 <= i < |Column(b, c)| ==> Canonical(Column(again, c)[i])
    {
      SanitizeShapedList(Column(b, c));
    }
  }

  /** From the second pass on, sanitising changes nothing. */
  lemma {:induction false} SanitizeStableFromSecondPass(v: Json)
    ensures
      var twice := SanitizeBoard(BoardToJson(SanitizeBoard(v)));
      SanitizeBoard(BoardToJson(twice)) == twice
  {
    var once := SanitizeBoard(v);
    SanitizeBoardShape(v);
    SanitizeShapedBoard(once);
    SanitizeCanonicalBoard(SanitizeBoard(BoardToJson(once)));
  }

  /** `"a" * count`. */
  function Repeat(c: char, count: nat): (r: string)
    ensures |r| == count && forall i :: 0 <= i < count ==> r[i] == c
  {
    if count == 0 then [] else [c] + Repeat(c, count - 1)
  }

  /**
   * Sanitising is not idempotent: cutting a trimmed title to 120 characters
   * can end it on a space, which the next pass trims away.
   */
  lemma SanitizeNotIdempotent()
    ensures
      var title := Repeat('a', 119) + " b";
      var v := JObject(map["todo" := JArray([JObject(map["id" := JString("t1"), "title" := JString(title)])])]);
      SanitizeBoard(BoardToJson(SanitizeBoard(v))) != SanitizeBoard(v)
  {
    var title := Repeat('a', 119) + " b";
    var task := JObject(map["id" := JString("t1"), "title" := JString(title)]);
    var v := JObject(map["todo" := JArray([task])]);
    LongTitleCutOnSpace(task, title);
    SanitizeListSingle(task);
    var once := SanitizeBoard(v);
    assert once.todo == [SanitizeTask(task).value];
    assert !Canonical(once.todo[0]);
    SanitizeBoardFixedIffCanonical(once);
  }

  /** The title of the counterexample is kept up to and including a space. */
  lemma {:induction false} LongTitleCutOnSpace(task: Json, title: string)
    requires title == Repeat('a', 119) + " b"
    requires task == JObject(map["id" := JString("t1"), "title" := JString(title)])
    ensures SanitizeTask(task).Some? && !IsTrimmed(SanitizeTask(task).value.title)
  {
    assert IsTrimmed(title);
    TrimTrimmed(title);
    TrimTrimmed("t1");
    assert TrimmedField(task, "title") == title;
    var cut := Take(title, MaxTitleLength);
    assert cut == Repeat('a', 119) + " ";
    assert !IsTrimmed(cut);
  }

  /** A column field that is not an array heals to an empty column. */
  lemma NonArrayColumnHeals()
    ensures SanitizeBoard(JObject(map["todo" := JString("not-an-array")])) == EmptyBoard()
  {
  }

  // ------------------------------------------------------------ load, save

  /**
   * `loadBoard`: `None` stands for a stored value that is absent, empty or
   * not parseable as JSON, all of which give the empty board; a decoded
   * value is sanitised.
   */
  function LoadBoard(stored: Option<Json>): (r: Board)
    ensures ShapedBoard(r)
    ensures stored.None? ==> r == EmptyBoard()
    ensures stored.Some? && !stored.value.JObject? ==> r == EmptyBoard()
  {
    match stored
    case None => EmptyBoard()
    case Some(v) => SanitizeBoardShape(v); SanitizeBoard(v)
  }

  /** `saveBoard`: the value written is the sanitised copy of the board, never the board itself. */
  function SaveBoard(b: Board): (stored: Json)
    ensures stored.JObject? && stored.fields.Keys == {"todo", "in-progress", "done"}
    ensures forall c :: stored.fields[ColumnName(c)].JArray?
  {
    BoardToJson(SanitizeBoard(BoardToJson(b)))
  }

  /**
   * What is written holds only tasks that meet the task invariants: loading
   * it back keeps every written task and gives a canonical board.
   */
  lemma {:induction false} SavedTasksReload(b: Board)
    ensures forall c :: |Column(LoadBoard(Some(SaveBoard(b))), c)| == |Column(SanitizeBoard(BoardToJson(b)), c)|
    ensures CanonicalBoard(LoadBoard(Some(SaveBoard(b))))
  {
    SanitizeBoardShape(BoardToJson(b));
    SanitizeShapedBoard(SanitizeBoard(BoardToJson(b)));
  }

  /** Saving then loading a canonical board gives the same board back. */
  lemma {:induction false} LoadAfterSaveCanonical(b: Board)
    requires CanonicalBoard(b)
    ensures LoadBoard(Some(SaveBoard(b))) == b
  {
    SanitizeBoardFixedIffCanonical(b);
  }

  /** After one save-and-load cycle, further cycles change nothing. */
  lemma {:induction false} SaveLoadStable(b: Board)
    ensures
      var loaded := LoadBoard(Some(SaveBoard(b)));
      LoadBoard(Some(SaveBoard(loaded))) == loaded
  {
    var once := SanitizeBoard(BoardToJson(b));
    SanitizeBoardShape(BoardToJson(b));
    var loaded := SanitizeBoard(BoardToJson(once));
    SanitizeShapedBoard(once);
    SanitizeCanonicalBoard(loaded);
    assert SaveBoard(loaded) == BoardToJson(loaded);
    assert LoadBoard(Some(SaveBoard(loaded))) == loaded;
  }
}
