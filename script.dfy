/**
 * The monolithic copy of the store and the board in script.js (its first 146 lines). It
 * differs from storage.js and render.js in three ways: the first run seeds four tasks, an
 * unparseable cell logs a warning before the seed replaces it, and `updateTask` returns the
 * merged task or null. It has no `deleteTask`.
 */
module Script {
  import opened Wrappers
  import opened Tasks
  import opened Board

  /** The text `console.warn` is given when `JSON.parse` throws. */
  const ParseWarning: string := "Failed parse tasks"

  /** The example tasks of a first run: two to do, one in progress, one done. */
  function Seed(ids: seq<string>): (ts: seq<Task>)
    requires |ids| == 4
    ensures Ids(ts) == ids
    ensures |ts| == 4 && ts[0].status == Todo && ts[1].status == Todo && ts[2].status == Doing && ts[3].status == Done
  {
    [Task(ids[0], "Launch Epic Career \U{1F680}", "Define vision, targets, and roadmap.", Todo),
     Task(ids[1], "Conquer React \U{1F9E9}", "Components, hooks, state management.", Todo),
     Task(ids[2], "Master JavaScript \U{1F49B}", "Get comfortable with the fundamentals", Doing),
     Task(ids[3], "Have fun \U{1F63A}", "Enjoy learning", Done)]
  }

  /** What one `loadTasks()` returns from the cell `c0`, how the id history goes from `i0`
      to `i1` and the console log from `l0` to `l1`. */
  ghost predicate LoadOutcome(c0: Cell, i0: seq<string>, i1: seq<string>, l0: seq<string>, l1: seq<string>, ts: seq<Task>)
  {
    if c0.Holds? then ts == c0.tasks && i1 == i0 && l1 == l0
    else
      && |i1| == |i0| + 4 && i1[..|i0|] == i0 && ts == Seed(i1[|i0|..])
      && l1 == l0 + (if c0.Unparseable? then [ParseWarning] else [])
  }

  class Store {
    var cell: Cell
    const source: IdSource
    /** The console warnings written so far. */
    var warnings: seq<string>

    ghost predicate Valid()
      reads this, source
    {
      source.Valid()
    }

    constructor (initial: Cell)
      ensures Valid() && fresh(source)
      ensures cell == initial && source.issued == [] && warnings == []
    {
      cell := initial;
      source := new IdSource();
      warnings := [];
    }

    /** `saveTasks(tasks)`. */
    method SaveTasks(ts: seq<Task>)
      modifies this`cell
      ensures cell == Holds(ts)
    {
      cell := Holds(ts);
    }

    /** `loadTasks()`. */
    method LoadTasks() returns (ts: seq<Task>)
      requires Valid()
      modifies this, source
      ensures Valid()
      ensures LoadOutcome(old(cell), old(source.issued), source.issued, old(warnings), warnings, ts)
      ensures old(cell).Holds? ==> cell == old(cell)
      ensures cell == Holds(ts)
    {
      var raw := cell;
      if raw != Missing && raw != EmptyText {
        if raw.Holds? {
          return raw.tasks;
        }
        warnings := warnings + [ParseWarning];
      }
      ghost var i0 := source.issued;
      var a := source.Next([]);
      var b := source.Next([]);
      var c := source.Next([]);
      var d := source.Next([]);
      assert source.issued[|i0|..] == [a, b, c, d];
      ts := Seed([a, b, c, d]);
      SaveTasks(ts);
    }

    /** `addTask(partial)`: appends a task with a new id and returns it. */
    method AddTask(title: string, desc: string, status: string) returns (task: Task, ghost loaded: seq<Task>)
      requires Valid()
      modifies this, source
      ensures Valid()
      ensures |source.issued| > 0
      ensures LoadOutcome(old(cell), old(source.issued), source.issued[..|source.issued| - 1], old(warnings), warnings, loaded)
      ensures task == Task(source.issued[|source.issued| - 1], title, desc, status)
      ensures task.id !in Ids(loaded) && task.id !in old(source.issued)
      ensures cell == Holds(loaded + [task])
    {
      var tasks := LoadTasks();
      loaded := tasks;
      ghost var mid := source.issued;
      var id := source.Next(tasks);
      assert source.issued[..|source.issued| - 1] == mid;
      task := Task(id, title, desc, status);
      tasks := tasks + [task];
      SaveTasks(tasks);
    }

    /** `updateTask(id, patch)`: null and no write for an unknown id; otherwise the merge is
        stored at the first position holding `id` and returned. */
    method UpdateTask(id: string, patch: Patch) returns (r: Option<Task>, ghost loaded: seq<Task>)
      requires Valid()
      modifies this, source
      ensures Valid()
      ensures LoadOutcome(old(cell), old(source.issued), source.issued, old(warnings), warnings, loaded)
      ensures r.None? <==> IndexOf(loaded, id).None?
      ensures r.None? ==> cell == Holds(loaded)
      ensures forall i :: IndexOf(loaded, id) == Some(i) ==>
                r == Some(Merge(loaded[i], patch)) && cell == Holds(loaded[i := Merge(loaded[i], patch)])
      ensures cell == Holds(Updated(loaded, id, patch))
    {
      var tasks := LoadTasks();
      loaded := tasks;
      var idx := IndexOf(tasks, id);
      if idx.None? {
        return None, loaded;
      }
      tasks := tasks[idx.value := Merge(tasks[idx.value], patch)];
      SaveTasks(tasks);
      r := Some(tasks[idx.value]);
    }

    /** `getTask(id)`: the first task holding `id`, or `undefined`. */
    method GetTask(id: string) returns (r: Option<Task>, ghost loaded: seq<Task>)
      requires Valid()
      modifies this, source
      ensures Valid()
      ensures LoadOutcome(old(cell), old(source.issued), source.issued, old(warnings), warnings, loaded)
      ensures cell == Holds(loaded)
      ensures r.None? <==> forall j :: 0 <= j < |loaded| ==> loaded[j].id != id
      ensures r.Some? ==> exists i :: IndexOf(loaded, id) == Some(i) && r.value == loaded[i]
    {
      var tasks := LoadTasks();
      loaded := tasks;
      r := Find(tasks, id);
    }

    /** `renderBoard()`: the groups `todo`, `doing` and `done` of the loaded list, each headed
        by `setTitle` with its length, each task as a `taskCard`. */
    method RenderBoard() returns (view: BoardView, ghost loaded: seq<Task>)
      requires Valid()
      modifies this, source
      ensures Valid()
      ensures LoadOutcome(old(cell), old(source.issued), source.issued, old(warnings), warnings, loaded)
      ensures old(cell).Holds? ==> cell == old(cell)
      ensures cell == Holds(loaded)
      ensures view == View(loaded)
    {
      var tasks := LoadTasks();
      loaded := tasks;
      var todo := ColumnOf(tasks, Todo, TodoLabel);
      var doing := ColumnOf(tasks, Doing, DoingLabel);
      var done := ColumnOf(tasks, Done, DoneLabel);
      view := BoardView(todo, doing, done);
    }
  }

  /** A seed of script.js has ids no earlier `uid()` call returned, all different, and a board
      of two, one and one cards. */
  lemma SeedIsFresh(c0: Cell, i0: seq<string>, i1: seq<string>, l0: seq<string>, l1: seq<string>, ts: seq<Task>)
    requires LoadOutcome(c0, i0, i1, l0, l1, ts) && NoDuplicates(i1) && !c0.Holds?
    ensures UniqueIds(ts)
    ensures forall j :: 0 <= j < |ts| ==> ts[j].id !in i0
    ensures |Column(ts, Todo)| == 2 && |Column(ts, Doing)| == 1 && |Column(ts, Done)| == 1
    ensures c0.Unparseable? <==> l1 == l0 + [ParseWarning]
  {
    assert Ids(ts) == i1[|i0|..];
    forall j | 0 <= j < |ts| ensures ts[j].id !in i0 {
      assert ts[j].id == i1[|i0| + j];
    }
    forall j, k | 0 <= j < k < |ts| ensures ts[j].id != ts[k].id {
      assert ts[j].id == i1[|i0| + j] && ts[k].id == i1[|i0| + k];
    }
    assert ts == [ts[0], ts[1]] + [ts[2], ts[3]];
    ColumnAppend([ts[0], ts[1]], [ts[2], ts[3]], Todo);
    ColumnAppend([ts[0], ts[1]], [ts[2], ts[3]], Doing);
    ColumnAppend([ts[0], ts[1]], [ts[2], ts[3]], Done);
  }
}
