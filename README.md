# Kanban board: persisted-board sanitiser and board mutations

This project models the logic of a client-side kanban board with three fixed
columns, `todo`, `in-progress` and `done`, and proves properties of it.

- `js/storage.js` holds the persistence boundary. `loadBoard` decodes the
  stored document and heals it with `sanitizeBoard`. `saveBoard` writes the
  sanitised copy of the board. `sanitizeBoard`, `sanitizeTask` and
  `normalizePriority` turn any decoded JSON value into a well-shaped board:
  - exactly the three columns;
  - each task with a trimmed, non-empty id;
  - a trimmed, non-empty title cut to 120 characters;
  - a priority among `low`, `medium` and `high`, with `medium` as the default.
- `js/board.js` holds the page's board state and the two handlers that
  change it:
  - the form submit, which adds a task to the front of a column;
  - the delete click, which filters a task id out of one column.

  It also holds `COLUMN_IDS` and `hasAllColumns`.

Files:

- `wrappers.dfy`: the `Option` type.
- `text.dfy` (module `Text`): JavaScript's `trim` over the exact ECMAScript
  white-space and line-terminator set, `slice(0, n)` and an ASCII
  `toLowerCase`.
- `json.dfy` (module `Json`): the decoded JSON value. Objects are maps from
  keys to values, and a later duplicate key wins, as in `JSON.parse`. The
  module also has the three JavaScript tests the sanitiser applies:
  truthiness, `typeof v === "object"` and property lookup.
- `storage.dfy` (module `Storage`): the board, `sanitizeTask`,
  `normalizePriority` and `sanitizeBoard`. It has two forms of
  `sanitizeBoard`, a function and a method with the source's loop over the
  column keys. It also has `loadBoard` and `saveBoard`, and the lemmas about
  all of these.
- `board.dfy` (module `Kanban`): the class `BoardState` with the add and
  delete handlers as methods. The class also holds the stored value they
  save to. The module has the column fallback, `hasAllColumns`, the id filter
  and the lemmas that ids stay distinct.

Two representation choices matter:

- A task in memory carries an optional priority. A task added on the page
  is `{id, title}` without a priority until it is saved and loaded again.
- The board handed to `saveBoard` is encoded as the JSON object it is
  (`Storage.BoardToJson`). The sanitiser therefore reads the in-memory board
  exactly as it reads a stored one.

Facts about the code that the model follows, where a reader might expect
otherwise:

- Sanitising is not idempotent.
  - The title is trimmed first and then cut to 120 characters, so the cut
    can end on a space that the next pass trims away.
  - `Storage.SanitizeNotIdempotent` exhibits such an input.
  - `Storage.SanitizeBoardFixedIffCanonical` states exactly which boards are
    left alone.
  - `Storage.SanitizeStableFromSecondPass` shows that the second pass is a
    fixed point.
- Adding neither truncates the title nor sets a priority. The submit handler
  stores the trimmed title with no priority. The cut and the default
  priority appear only in the saved copy (`Kanban.SavedCopyOfAddedTask`).
- Loading does not remove duplicate ids. A stored `todo` array holding the
  same task twice loads with both copies (`Kanban.LoadKeepsDuplicateIds`).
  Add and delete therefore keep ids distinct only when the loaded board
  already had distinct ids.
- Deleting does not look up one task. The click handler filters every task
  with the card's id out of the card's own column, and leaves the other
  columns alone.
- There is no inline editing, no drag-and-drop, no moving of tasks between
  columns and no choice of priority when a task is created. None of these is
  modelled.

## Model

| member | source | states |
|---|---|---|
| Text.Trim | js/storage.js:52-53 | the result of `trim` starts and ends with a non-space and is no longer than its input |
| Text.TrimDropsSpaces | js/storage.js:52-53 | `trim` keeps a contiguous infix of the input, and every character it drops before or after that infix is a space |
| Text.TrimEmptyIffAllSpaces | js/storage.js:55 | a trimmed field is empty exactly when the string is all spaces (the `!id \|\| !title` rejection) |
| Text.TrimFixedIffTrimmed | js/storage.js:52-53 | `trim` leaves a string unchanged exactly when it neither starts nor ends with a space |
| Text.TrimStartDropsSpaces | js/storage.js:52-53 | trimming the front drops a prefix made only of spaces |
| Text.TrimEndDropsSpaces | js/storage.js:52-53 | trimming the end drops a suffix made only of spaces |
| Text.Take | js/storage.js:58 | `slice(0, 120)` yields the first `min(120, length)` characters of the title, as a prefix |
| Text.Lower | js/storage.js:62 | `toLowerCase` over ASCII: the result has the same length and no capital letter; each capital becomes its small letter and every other character stays |
| Text.LowerWithoutUpper | js/storage.js:62 | a string with no capital letter is its own lower case |
| Text.LowerIdempotent | js/storage.js:62 | lower-casing twice is lower-casing once |
| Text.LowerKeepsTrimmed | js/storage.js:62 | lower-casing trimmed text leaves it trimmed, so the priority text has no surrounding spaces |
| Text.LowerChar | js/storage.js:62 | one character of `toLowerCase`: never a capital afterwards; a capital becomes the small letter at the same alphabet position; anything else is unchanged |
| Text.IsSpace | js/storage.js:52-53 | the characters `trim` removes: the ECMAScript white-space and line-terminator set |
| Json.Get | js/storage.js:52-54 | `value[key]` is present exactly when the value is an object with that key, and then it is that field |
| Json.RejectedUnlessObjectOrArray | js/storage.js:48-50 | the test `!value \|\| typeof value !== "object"` rejects exactly the values that are neither objects nor arrays |
| Json.Truthy | js/storage.js:35 | the `!value` test: `null`, `false`, `0` and `""` are falsy, and every array and object is truthy |
| Json.IsObjectType | js/storage.js:49 | `typeof value === "object"`: true for `null`, arrays and objects |
| Storage.ColumnName | js/storage.js:2 | every column's key is one of the three column keys |
| Storage.ParseColumn | js/storage.js:2 | a string names a column exactly when it is in `COLUMN_IDS`, and then it is that column's key |
| Storage.ParseColumnName | js/storage.js:2 | column keys and columns correspond one to one |
| Storage.ColumnIndex | js/storage.js:39 | each column's key stands at its position in the ordered key list the loop walks |
| Storage.ParsePriority | js/storage.js:3 | a string names a priority exactly when it is in `PRIORITY_LEVELS`, and then it is that level's name |
| Storage.NormalizePriority | js/storage.js:61-64 | the result is always a level; it is the trimmed, lower-cased text when that is a level, and `medium` otherwise, including for any non-string |
| Storage.PriorityText | js/storage.js:62 | the text compared with the levels is trimmed and has no capital letter, and is empty for a value that is not a string |
| Storage.NormalizePriorityName | js/storage.js:61-64 | every level's own name normalises back to that level |
| Storage.NormalizePriorityExample | js/storage.js:62-63 | `" HIGH\n"` normalises to `high` |
| Storage.NormalizePriorityFallbackExample | js/storage.js:62-63 | an unknown level, a number and a missing field all give `medium` |
| Storage.SanitizeTask | js/storage.js:48-59 | null exactly when the value is not an object or its trimmed `id` or `title` is empty; otherwise the trimmed id, the trimmed title cut to 120 characters and the normalised priority, so every surviving task is well shaped |
| Storage.TrimmedField | js/storage.js:52-53 | the field read is trimmed, and non-empty only when the value is an object whose field is a string, whose trim it then is |
| Storage.SanitizeCanonicalTask | js/storage.js:48-59 | a task with trimmed non-empty id and title of at most 120 characters and a priority comes back unchanged |
| Storage.SanitizeFixedTaskCanonical | js/storage.js:52-58 | a task that comes back unchanged has exactly those properties |
| Storage.TakeOfTrimIsTrimmed | js/storage.js:53-58 | a title equal to its own trimmed 120-character cut is trimmed and at most 120 characters long |
| Storage.SanitizeShapedTask | js/storage.js:48-59 | a task the sanitiser produced survives re-sanitising and comes out canonical |
| Storage.TaskToJsonFields | js/storage.js:52-54 | the sanitiser reads back a task's own id, title and priority, and no priority when the task has none |
| Storage.DropNulls | js/storage.js:43 | `filter(task !== null)` keeps only present values, is never longer, and keeps everything exactly when nothing is null |
| Storage.DropNullsMembers | js/storage.js:43 | a task survives the filter exactly when it was present among the inputs |
| Storage.DropNullsAppend | js/storage.js:43 | the filter distributes over concatenation, so survivors keep their order |
| Storage.DropNullsAllPresent | js/storage.js:43 | when nothing is null, the i-th survivor is the i-th value |
| Storage.DropNullsOfValues | js/storage.js:43 | when every input is present, the result is exactly the present values |
| Storage.SanitizeEachAppend | js/storage.js:42 | `map(sanitizeTask)` distributes over concatenation |
| Storage.SanitizeList | js/storage.js:40-43 | `map(sanitizeTask)` followed by the null filter: a column is never longer than its input array; every element is well shaped; nothing is dropped exactly when every element is a valid task |
| Storage.SanitizeListSingle | js/storage.js:41-43 | a one-element array gives that element's task, or nothing |
| Storage.SanitizeListAppend | js/storage.js:41-43 | sanitising distributes over concatenation: invalid elements are dropped and the rest keep their order |
| Storage.SanitizeListAllValid | js/storage.js:41-43 | when every element is valid, the i-th task comes from the i-th element |
| Storage.TasksToJson | js/storage.js:29 | a task list is handed to the sanitiser as one task object per task, in order |
| Storage.SanitizeCanonicalList | js/storage.js:40-43 | a list of canonical tasks comes back unchanged |
| Storage.SanitizeFixedListCanonical | js/storage.js:40-43 | a list that comes back unchanged holds only canonical tasks |
| Storage.SanitizeShapedList | js/storage.js:40-43 | re-sanitising a sanitised list keeps every task and makes each canonical |
| Storage.WithColumn | js/board.js:71-72 | replacing one column changes that column and leaves the other two as they were |
| Storage.EmptyBoard | js/storage.js:6-12 | `createEmptyBoard`: every column is empty |
| Storage.BoardToJson | js/storage.js:29 | the board object has exactly the keys `todo`, `in-progress` and `done`, each an array of its column's task objects |
| Storage.BoardMembersObject | js/storage.js:7-11 | the three members of a board object give exactly the three column keys |
| Storage.SanitizeColumn | js/storage.js:40-43 | each column is no longer than the matching array and holds only well-shaped tasks |
| Storage.RawTasks | js/storage.js:40 | the field's array when it holds one, and non-empty only when the value is an object whose field is that array |
| Storage.SanitizeBoard | js/storage.js:33-46 | `sanitizeBoard`: anything but an object gives the empty board (`SanitizeBoardShape` and `SanitizeBoardColumns` give the rest of its contract) |
| Storage.SanitizeBoardShape | js/storage.js:33-46 | for every input the result has only well-shaped tasks; anything but an object (falsy values, strings, numbers, booleans, arrays) gives the empty board; no column is longer than its source array |
| Storage.SanitizeBoardColumns | js/storage.js:39-44 | each column of the result is the matching field's array with the invalid elements dropped |
| Storage.SanitizeBoardByColumns | js/storage.js:33-46 | the loop over the column keys, starting from the empty board, computes the sanitised board |
| Storage.SanitizeBoardNonArrayColumn | js/storage.js:40 | a column whose field is missing or not an array comes out empty |
| Storage.NonArrayColumnHeals | js/storage.js:40 | `{todo: "not-an-array"}` gives the empty board |
| Storage.BoardToJsonColumns | js/storage.js:40 | the array the sanitiser finds under each key of a board object is that column's task objects |
| Storage.SanitizeBoardToJsonColumn | js/storage.js:40-43 | each column of a re-sanitised board is that column's task list, re-sanitised |
| Storage.SanitizeCanonicalBoard | js/storage.js:33-59 | a board of canonical tasks is a fixed point of the sanitiser |
| Storage.SanitizeFixedBoardCanonical | js/storage.js:33-59 | a fixed point of the sanitiser holds only canonical tasks |
| Storage.FixedColumnsCanonical | js/storage.js:33-59 | a board whose three columns each come back unchanged holds only canonical tasks |
| Storage.SanitizeBoardFixedIffCanonical | js/storage.js:33-59 | a board comes back unchanged exactly when every task is canonical |
| Storage.BoardExtensionality | js/storage.js:6-12 | a board is determined by its three columns |
| Storage.SanitizeShapedBoard | js/storage.js:33-59 | re-sanitising a sanitised board keeps every task and leaves only canonical tasks |
| Storage.ShapedColumnsCanonical | js/storage.js:40-43 | re-sanitising well-shaped columns one by one keeps their lengths and makes every task canonical |
| Storage.SanitizeStableFromSecondPass | js/storage.js:33-59 | from the second pass on, sanitising changes nothing |
| Storage.Repeat | js/storage.js:58 | builds the long titles of the counterexample: `count` copies of one character |
| Storage.SanitizeNotIdempotent | js/storage.js:53-58 | a title of 119 letters, a space and a letter makes a second pass change the board, because the cut ends on the space |
| Storage.LongTitleCutOnSpace | js/storage.js:53-58 | that title survives the first pass cut to a string ending in a space |
| Storage.LoadBoard | js/storage.js:14-26 | never fails once the stored entry has been read; an absent, empty or unparseable stored value gives the empty board, and so does a decoded value that is not an object; otherwise the result is well shaped |
| Storage.SaveBoard | js/storage.js:28-31 | the value written always has exactly the three column keys, each an array |
| Storage.SavedTasksReload | js/storage.js:28-31 | what `saveBoard` writes holds only tasks meeting the task invariants: loading it back keeps every written task, column by column, and gives a board of canonical tasks |
| Storage.LoadAfterSaveCanonical | js/storage.js:14-31 | saving a canonical board and loading it again gives that board back |
| Storage.SaveLoadStable | js/storage.js:14-31 | after one save and load, further save and load cycles change nothing |
| Kanban.ResolveColumn | js/board.js:27-29 | a selected column in `COLUMN_IDS` is used as is, and any other value falls back to `todo` |
| Kanban.EveryPresent | js/board.js:152 | `every` holds exactly when every listed key maps to a truthy entry |
| Kanban.HasAllColumns | js/board.js:151-153 | holds exactly when each of the three column keys maps to an element |
| Kanban.IdsAppend | js/board.js:72 | the ids of two lists one after the other are the two id lists one after the other |
| Kanban.IdsPrepend | js/board.js:35 | putting a task in front puts its id in front |
| Kanban.AllIdsWithColumn | js/board.js:71-72 | replacing one column swaps that column's ids for the new list's ids |
| Kanban.ColumnIdsWithin | js/board.js:72 | a column's ids are among the board's ids |
| Kanban.Remove | js/board.js:72 | the filtered column is never longer than the column |
| Kanban.RemoveShortensIffPresent | js/board.js:71-73 | the column gets shorter exactly when the id occurs in it |
| Kanban.RemoveAbsent | js/board.js:71-75 | a column without the id comes back unchanged, so the handler's no-change return leaves the board as it was |
| Kanban.RemoveMembers | js/board.js:72 | exactly the tasks whose id differs are kept |
| Kanban.RemoveCons | js/board.js:72 | the filter keeps or drops the first task and filters the rest |
| Kanban.RemoveAppend | js/board.js:72 | the filter distributes over concatenation, so the kept tasks stay in order |
| Kanban.RemoveIds | js/board.js:72 | every occurrence of the id is removed and the count of every other id is unchanged |
| Kanban.RemoveKeepsDistinct | js/board.js:72 | deleting from one column keeps the ids on the board pairwise distinct |
| Kanban.LoadKeepsDuplicateIds | js/storage.js:39-44 | a stored `todo` array holding one task twice loads with both copies, so the loaded board need not have distinct ids |
| Kanban.DuplicateTaskKept | js/storage.js:41-43 | the array `[task, task]` sanitises to two copies of the same task |
| Kanban.SampleTaskKept | js/storage.js:48-59 | the example task object sanitises to its own id and title with priority `medium` |
| Kanban.RepeatedIdNotDistinct | js/board.js:72 | a column holding one id twice breaks distinctness |
| Kanban.PrependKeepsDistinct | js/board.js:35-38 | putting a task with an unused id in front of a column keeps the ids distinct |
| Kanban.AllIdsPrepend | js/board.js:35-38 | putting a task in front of a column adds exactly its id to the board's ids |
| Kanban.AddUnusedKeepsSingles | js/board.js:35-38 | adding an id not yet present keeps every id single |
| Kanban.SavedCopyOfAddedTask | js/board.js:35-40 | the copy that is saved after an add has the new task first in its column, with the title cut to 120 characters and priority `medium`, neither of which the board in memory has |
| Kanban.BoardState.constructor | js/board.js:20 | the page starts from the loaded board, which is well shaped, and the store is untouched |
| Kanban.BoardState.SetColumn | js/board.js:71-72 | one column is replaced and nothing else changes |
| Kanban.BoardState.Save | js/board.js:40 | the store receives the sanitised copy of the board, and the board itself is unchanged |
| Kanban.BoardState.AddTask | js/board.js:23-47 | adds exactly when the trimmed input is non-empty. Otherwise the board and the store are unchanged. When it adds, `{id, trimmed title}` goes in front of the selected column, or of `todo` for an unknown column. The other columns are unchanged, the sanitised board is saved, and ids stay distinct when the new id is unused |
| Kanban.BoardState.DeleteTask | js/board.js:49-79 | a missing task id or an unknown column changes nothing. Otherwise every task with that id is filtered out of that column only. It reports a change exactly when the column got shorter, which is exactly when the id was in it. It saves only on a change; without a change the board and the store are exactly as before. Ids stay distinct |

## Left out

- Rendering and DOM lookup (`renderBoard`, `createTaskCard`, `createEmptyState`, `getTaskListMap`, `getTaskCountMap`): these are view code with no board state.
- Event-listener wiring, `preventDefault`, `form.reset`, restoring the selected column and focus handling in the two handlers: these are UI effects only.
- The early return of `initBoard` when form elements or column elements are missing: the class models the state after a successful start. `Kanban.HasAllColumns` states the guard's test.
- `localStorage.getItem`/`setItem` and `JSON.parse`/`JSON.stringify`: foreign I/O and library calls. A load receives the decoded value, with `None` standing for a missing, empty or unparseable entry, and a save yields the value that would be encoded. Their exceptions are not modelled: `getItem` (js/storage.js:15) is outside the `try`, and a throwing `setItem` (js/storage.js:30) aborts the handlers after the board in memory changed and before re-rendering. The model assumes the store is always readable and writable.
- `createTaskId` (`crypto.randomUUID`, `Date.now`, `Math.random`): randomness and clocks. The id is a parameter, and distinctness is stated for an unused id.
- `js/theme.js`: DOM, storage and media-query UI with no board logic.
- The click handler's DOM walk (`closest`, `dataset`): the delete method receives the card's task id and column, with an absent attribute given as the empty string.
- Text.Lower, Text.LowerChar: only ASCII letters are lower-cased, where `toLowerCase` maps all of Unicode. No other text can become a priority level under either mapping.
- Text.Take: counts Unicode scalar values, where `slice` counts UTF-16 code units. A title with characters outside the Basic Multilingual Plane can be cut at a different place.
- JSON numbers are unbounded reals, because only their truthiness is used. Objects hold only their own fields, because the sanitiser reads only `id`, `title`, `priority` and the column keys.
