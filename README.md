# Kanban task store and board, modelled in Dafny

The browser kanban board keeps its tasks in one `localStorage` cell, `kanban.tasks`: a JSON array of
`{id, title, desc, status}` records. A small store reads the cell at the start of every operation.
Save, add, update on a known id and delete rewrite the whole cell. Load and get write only when they
seed: when a load finds the cell missing, empty or unparseable, it stores example tasks and returns
them. An update on an unknown id writes nothing beyond such a seed. The board renderer loads the list and splits it into the
columns `todo`, `doing` and `done`. Each column is headed `LABEL (n)`, and each task becomes a card
showing its title and its description, or `No description`.

The store exists twice. storage.js is the modular copy, used by render.js. script.js is a monolithic
copy: it seeds four tasks, logs a warning on a parse failure, returns the merged task (or null) from
`updateTask` and has no `deleteTask`. Both copies are modelled.

Modules:

- `Wrappers` (wrappers.dfy): `Option`, standing for `undefined`/`null` results.
- `Tasks` (tasks.dfy): the task record, the patch (one `Option` per field), the cell, and the list
  operations between a load and a save: `findIndex`, `find` and the object spread of an update,
  which both stores perform, and the filter of a delete, which only storage.js has. Also the id source `IdSource` that stands for `uid()`, and the lemmas about
  these operations.
- `Board` (board.dfy): the pure part of `renderBoard` and `taskCard`: stable status filters,
  headings with decimal counts, card text, and the partition lemmas.
- `Storage` (storage.dfy): class `Store` for storage.js. Its field `cell` is the persisted cell, and
  every method states the new cell in terms of the list it loaded.
- `Render` (render.dfy): `renderBoard` of render.js, over a `Storage.Store`.
- `Script` (script.dfy): class `Store` for lines 1-146 of script.js, including its `renderBoard`.
- `Scenarios` (scenarios.dfy): callers that use only the contracts. They cover the save/load round
  trip, the persisted seed, distinct ids across a delete, and an end-to-end run: seed, create, move
  and delete, with the column counts after each step.

How the cell is modelled. `Cell = Missing | EmptyText | Unparseable | Holds(tasks)`. `Missing` and
`EmptyText` are the two values the `if (raw)` test rejects (`null` and `""`). `Unparseable` is a
text on which `JSON.parse` throws. `Holds(ts)` is a text that parses to `ts`. Serialising and then
parsing is taken to be the identity on task lists. So `saveTasks(ts)` writes `Holds(ts)`, and the
empty list `"[]"` counts as a stored list that is not re-seeded.

How `uid()` is modelled. The source draws a random UUID, or a timestamp with a random suffix. Its
uniqueness is only probabilistic. The model's `IdSource` keeps the history of ids it has handed
out. `Next(avoid)` returns an id that is in neither that history nor the given list. Its invariant
is that the history has no duplicates, which is the "no two generated ids are equal" property.
`LoadOutcome` (one per store) says what one load returns. For a stored list it is that list, and no
id is drawn. Otherwise it is the seed, built from the ids drawn during the call.

## Model

| member | source | states |
|---|---|---|
| Tasks.IndexOf | storage.js:38 | the index `findIndex` reports is the first position holding the id; None (-1) exactly when no task holds it |
| Tasks.IndexOfFirst | script.js:65 | any position holding the id with no earlier one is the index `findIndex` reports |
| Tasks.Find | storage.js:50-52 | `find` returns the first task holding the id; nothing exactly when no task holds it |
| Tasks.Merge | storage.js:40 | the spread with an empty patch is the task itself, and a patch without an `id` keeps the id |
| Tasks.MergeFields | script.js:67 | every field the patch carries wins, and every field it leaves out keeps the task's value |
| Tasks.Updated | storage.js:36-42 | the list `updateTask` leaves stored has the loaded length, and is the loaded list itself when no task holds the id |
| Tasks.UpdatedFrame | storage.js:36-42 | an update keeps the length; it replaces only the first match, with its merge; an absent id leaves the list as it was |
| Tasks.UpdatedThenFind | storage.js:40 | after an update whose patch has no id, getTask on that id returns the merge |
| Tasks.UpdatedKeepsUniqueIds | storage.js:40 | an update whose patch has no id keeps the list of ids and their uniqueness |
| Tasks.Without | storage.js:46 | the filtered list is no longer than the input, and holds only tasks of the input whose id differs |
| Tasks.WithoutAppend | storage.js:46 | the delete filter splits over concatenation, so the survivors keep their relative order |
| Tasks.WithoutAbsent | storage.js:44-48 | deleting an id that no task holds leaves the list unchanged |
| Tasks.DeleteTwice | storage.js:44-48 | deleting the same id twice is deleting it once, and afterwards no task holds it |
| Tasks.WithoutKeepsOthers | storage.js:46 | every task with another id survives the delete as many times as it occurred; tasks with the id are removed |
| Tasks.WithoutKeepsUniqueIds | storage.js:46 | deleting keeps ids unique |
| Tasks.AppendKeepsUniqueIds | storage.js:30-31 | appending a task whose id is new to the list keeps ids unique |
| Tasks.FreshId | storage.js:3-7 | the generated id is none of the ids it must avoid |
| Tasks.IdSource.Next | script.js:10-15 | `uid()` returns an id not returned before and not in the given list, and records it |
| Board.Column | render.js:6-8 | a column is no longer than the list and holds only tasks of the list with its status |
| Board.ColumnAppend | render.js:6-8 | a column is a stable filter: it splits over concatenation, so storage order is kept and nothing is sorted |
| Board.ColumnCounts | render.js:6-8 | a column holds every task of its status, as many times as the list does, and no other task |
| Board.OnBoardCounts | script.js:88-92 | the tasks with a recognised status are exactly those with status todo, doing or done, with multiplicity |
| Board.Partition | render.js:6-8 | together the three columns hold exactly the tasks with a recognised status, as a multiset |
| Board.PartitionSizes | script.js:88-92 | the three column lengths add up to the number of tasks with a recognised status |
| Board.ExactlyOneColumn | render.js:6-8 | a task with a recognised status is in its own column and in no other; any other task is in none |
| Board.Decimal | script.js:111 | a count is printed as a non-empty run of decimal digits with no leading zero; zero is printed as `0` |
| Board.DecimalRoundTrip | render.js:14-16 | the printed digits denote the count |
| Board.ColumnTitle | script.js:109-111 | a heading starts with its label and ends with `)` |
| Board.TitleRoundTrip | render.js:14-16 | reading the count back out of `LABEL (n)` gives n |
| Board.CanonicalRoundTrip | render.js:14-16 | a digit run as a count is printed (non-empty, no leading zero) is the printing of the number it denotes |
| Board.TitleCountExact | script.js:111 | a heading whose count reads back as n is exactly `LABEL (n)`, so the read-back pins the heading text |
| Board.TitleInjective | script.js:98-100 | two headings with the same label are equal exactly when their counts are |
| Board.DescText | render.js:32 | the description line is `No description` for an empty `desc` and `desc` otherwise; it is never empty |
| Board.TaskCard | script.js:131-146 | a card carries the task's id and title, and shows `desc`, or `No description` when `desc` is empty |
| Board.ColumnOf | render.js:6-16 | a column view has one card per task of its status, in list order, under a heading `LABEL (n)` with n the column length |
| Board.View | script.js:86-101 | each of the three column views shows exactly the tasks of its own status, as cards in list order, headed with its length; the cards add up to the tasks with a recognised status |
| Storage.Seed | storage.js:15-19 | the first-run seed has three tasks with the drawn ids and statuses todo, doing, done, in that order |
| Storage.Store.SaveTasks | storage.js:24-26 | the cell is overwritten with the whole list |
| Storage.Store.LoadTasks | storage.js:9-22 | a stored list is returned and nothing is written; a missing, empty or unparseable cell is replaced by the seed, which is returned |
| Storage.Store.AddTask | storage.js:28-34 | the saved list is the loaded one plus one task at the end, with the given fields and a newly drawn id absent from the list |
| Storage.Store.UpdateTask | storage.js:36-42 | an unknown id writes nothing; otherwise only the first match is replaced by its merge with the patch |
| Storage.Store.DeleteTask | storage.js:44-48 | the saved list is the loaded one without every task holding the id |
| Storage.Store.GetTask | storage.js:50-52 | returns the first task holding the id, or nothing; writes nothing except a first-run seed |
| Storage.SeedIsFresh | storage.js:15-20 | a seeded list has ids that are unique and never drawn before, and one task per status |
| Render.RenderBoard | render.js:3-17 | the board is the projection of the loaded list; the cell changes only by a first-run seed |
| Render.SeedBoard | render.js:14-16 | the first-run board has one card per column, headed `TODO (1)`, `DOING (1)`, `DONE (1)` |
| Script.Seed | script.js:27-32 | the seed has four tasks with the drawn ids and statuses todo, todo, doing, done |
| Script.Store.SaveTasks | script.js:41-43 | the cell is overwritten with the whole list |
| Script.Store.LoadTasks | script.js:21-35 | a stored list is returned unchanged; otherwise the four-task seed is persisted and returned, and a parse failure adds one warning |
| Script.Store.AddTask | script.js:50-56 | the task with the new id and the given fields is appended at the end and returned |
| Script.Store.UpdateTask | script.js:63-70 | an unknown id gives null and no write; otherwise the merge is stored at the first match and returned |
| Script.Store.GetTask | script.js:77-79 | returns the first task holding the id, or nothing |
| Script.Store.RenderBoard | script.js:86-101 | the groups are the status filters of the loaded list, each headed by its label and its length |
| Script.SeedIsFresh | script.js:21-35 | the four seeded ids are unique and new; the board has 2, 1 and 1 cards; a warning is logged exactly for an unparseable cell |
| Scenarios.SaveThenLoad | storage.js:9-26 | `saveTasks(ts)` then `loadTasks()` returns `ts` whatever the cell held, including the empty list |
| Scenarios.SeedPersists | storage.js:9-22 | on a missing, empty or unparseable cell, a second load returns the list the first one seeded |
| Scenarios.CreateDeleteCreate | storage.js:28-48 | two tasks created one after the other have different ids, even with a delete in between |
| Scenarios.EndToEnd | render.js:3-17 | seed, create "Write spec", move it to doing, delete it: the counts go 2/1/1, 1/2/1, 1/1/1, and the final list is the three-task seed |
| Scenarios.CreateStep | storage.js:28-34 | creating a todo task on the seeded board gives counts 2/1/1 |
| Scenarios.MoveStep | storage.js:36-42 | patching only the status moves the task to doing and gives counts 1/2/1 |
| Scenarios.DeleteStep | storage.js:44-48 | deleting the created task leaves the cell holding the seed, which a load returns, and gives counts 1/1/1 |
| Scenarios.SeedColumns | render.js:6-8 | a three-task list with one task per status has one task in each column |
| Scenarios.ColumnsOfSeedPlus | render.js:6-8 | an appended task adds one to its own column and nothing to the others |

## Left out

- Painting the page (`paintList`, `innerHTML`, `textContent`, `appendChild`) is left out; the model stops at the card data.
  One difference between the copies cannot be expressed: render.js:30-33 inserts the title and description as HTML markup,
  while script.js:138 and script.js:142 insert them as plain text.
- modal.js, events.js, main.js and script.js:148-249 are form and button wiring and are left out. Their only bearing on the
  store: they call `addTask`/`updateTask` only with a non-empty trimmed title. The store itself never checks this, so
  it is not a precondition here. `AppendKeepsUniqueIds` and `UpdatedKeepsUniqueIds` state the list invariants that do hold.
- Tasks.IdSource.Next: the randomness of `crypto.randomUUID` and `Date.now`/`Math.random` is left out. The model returns
  a deterministic id that is provably fresh. The source's ids are only unique with high probability.
- `JSON.stringify`/`JSON.parse` are left out. A parsed text that is not a task array (`"null"`, a number, records with
  missing fields) is not modelled. The source would return it from `loadTasks` unchecked.
- Board.DescText: a task whose `desc` field is missing (`undefined`) also gets `No description` in the source. The model's
  task always has a `desc`, so only the empty string is covered.
- Storage.Store.AddTask and Script.Store.AddTask take the three fields the callers pass. The source's
  `{ id: uid(), ...data }` would let an `id` inside `data` override the new id, but no caller passes one.
- Several `localStorage` writers in other tabs, and a storage medium that is unavailable or full, are outside the
  sequential model.
- The code enforces none of the following, and the model follows the code:
  - It does not keep statuses within the three values. It does not keep ids unique under `saveTasks` or under a patch
    that carries an `id`, and it does not reject a blank title.
  - It reports no parse error in storage.js, which drops it silently; only script.js logs it.
  - It does not skip the write in `deleteTask` when nothing matches: the cell is rewritten with the same list.
