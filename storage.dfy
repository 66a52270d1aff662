/**
 * The modular task store of storage.js. Every operation loads the `kanban.tasks` cell, and
 * a load seeds it with three example tasks when it is missing, empty or unparseable. Add,
 * update on a known id and delete then rewrite the whole cell; load and get write only when
 * they seed, and update on an unknown id writes nothing more.
 */
module Storage {
  import opened Wrappers
  import opened Tasks

  /** The example tasks of a first run, one per status, with the ids `uid()` gave them. */
  function Seed(ids: seq<string>): (ts: seq<Task>)
    requires |ids| == 3
    ensures Ids(ts) == ids
    ensures |ts| == 3 && ts[0].status == Todo && ts[1].status == Doing && ts[2].status == Done
  {
    [Task(ids[0], "Launch Epic Career \U{1F680}", "Define roadmap.", Todo),
     Task(ids[1], "Master JavaScript \U{1F49B}", "Deep JS study.", Doing),
     Task(ids[2], "Have fun \U{1F63A}", "Enjoy learning!", Done)]
  }

  /** What one `loadTasks()` returns from the cell `c0`, and how the id history goes from
      `i0` to `i1`: a stored list is returned as it is; anything else is replaced by the
      seed, whose three ids are the ones drawn during the call. */
  ghost predicate LoadOutcome(c0: Cell, i0: seq<string>, i1: seq<string>, ts: seq<Task>)
  {
    if c0.Holds? then ts == c0.tasks && i1 == i0
    else |i1| == |i0| + 3 && i1[..|i0|] == i0 && ts == Seed(i1[|i0|..])
  }

  class Store {
    /** `localStorage.getItem("kanban.tasks")`, read through `JSON.parse`. */
    var cell: Cell
    /** `uid()`. */
    const source: IdSource

    ghost predicate Valid()
      reads this, source
    {
      source.Valid()
    }

    constructor (initial: Cell)
      ensures Valid() && fresh(source)
      ensures cell == initial && source.issued == []
    {
      cell := initial;
      source := new IdSource();
    }

    /** `saveTasks(tasks)`: the cell is overwritten with the whole list. */
    method SaveTasks(ts: seq<Task>)
      modifies this`cell
      ensures cell == Holds(ts)
    {
      cell := Holds(ts);
    }

    /** `loadTasks()`. Whatever it returns is stored afterwards. */
    method LoadTasks() returns (ts: seq<Task>)
      requires Valid()
      modifies this, source
      ensures Valid()
      ensures LoadOutcome(old(cell), old(source.issued), source.issued, ts)
      ensures old(cell).Holds? ==> cell == old(cell)
      ensures cell == Holds(ts)
    {
      var raw := cell;
      if raw != Missing && raw != EmptyText {
        if raw.Holds? {
          return raw.tasks;
        }
        // JSON.parse threw; the error is dropped
      }
      ghost var i0 := source.issued;
      var a := source.Next([]);
      var b := source.Next([]);
      var c := source.Next([]);
      assert source.issued[|i0|..] == [a, b, c];
      ts := Seed([a, b, c]);
      SaveTasks(ts);
    }

    /** `addTask({title, desc, status})`: a task with a new id goes at the end. */
    method AddTask(title: string, desc: string, status: string) returns (task: Task, ghost loaded: seq<Task>)
      requires Valid()
      modifies this, source
      ensures Valid()
      ensures |source.issued| > 0
      ensures LoadOutcome(old(cell), old(source.issued), source.issued[..|source.issued| - 1], loaded)
      ensures task == Task(source.issued[|source.issued| - 1], title, desc, status)
      ensures task.id !in Ids(loaded) && task.id !in old(source.issued)
      ensures cell == Holds(loaded + [task])
    {
      var tasks := LoadTasks();
      loaded := tasks;
      ghost var mid := source.issued;
      var id := source.Next(tasks);
      assert source.issued[..|source.issued| - 1] == mid;
      task := Task(id, title, desc, status);
      tasks := tasks + [task];
      SaveTasks(tasks);
    }

    /** `updateTask(id, changes)`: the first task holding `id` becomes its merge with the
        patch and the list is saved; an unknown id saves nothing. */
    method UpdateTask(id: string, changes: Patch) returns (ghost loaded: seq<Task>)
      requires Valid()
      modifies this, source
      ensures Valid()
      ensures LoadOutcome(old(cell), old(source.issued), source.issued, loaded)
      ensures IndexOf(loaded, id).None? ==> cell == Holds(loaded)
      ensures forall i :: IndexOf(loaded, id) == Some(i) ==> cell == Holds(loaded[i := Merge(loaded[i], changes)])
      ensures cell == Holds(Updated(loaded, id, changes))
    {
      var tasks := LoadTasks();
      loaded := tasks;
      var i := IndexOf(tasks, id);
      if i.None? {
        return;
      }
      tasks := tasks[i.value := Merge(tasks[i.value], changes)];
      SaveTasks(tasks);
    }

    /** `deleteTask(id)`: every task holding `id` is dropped and the list is saved. */
    method DeleteTask(id: string) returns (ghost loaded: seq<Task>)
      requires Valid()
      modifies this, source
      ensures Valid()
      ensures LoadOutcome(old(cell), old(source.issued), source.issued, loaded)
      ensures cell == Holds(Without(loaded, id))
    {
      var tasks := LoadTasks();
      loaded := tasks;
      tasks := Without(tasks, id);
      SaveTasks(tasks);
    }

    /** `getTask(id)`: the first task holding `id`, from a fresh load. */
    method GetTask(id: string) returns (r: Option<Task>, ghost loaded: seq<Task>)
      requires Valid()
      modifies this, source
      ensures Valid()
      ensures LoadOutcome(old(cell), old(source.issued), source.issued, loaded)
      ensures cell == Holds(loaded)
      ensures r.None? <==> forall j :: 0 <= j < |loaded| ==> loaded[j].id != id
      ensures r.Some? ==> exists i :: IndexOf(loaded, id) == Some(i) && r.value == loaded[i]
    {
      var tasks := LoadTasks();
      loaded := tasks;
      r := Find(tasks, id);
    }
  }

  /** The list a seeding load returns has one task per status
      with ids that no earlier `uid()` call returned and that differ from each other. */
  lemma SeedIsFresh(c0: Cell, i0: seq<string>, i1: seq<string>, ts: seq<Task>)
    requires LoadOutcome(c0, i0, i1, ts) && NoDuplicates(i1) && !c0.Holds?
    ensures UniqueIds(ts)
    ensures forall j :: 0 <= j < |ts| ==> ts[j].id !in i0
    ensures |ts| == 3 && ts[0].status == Todo && ts[1].status == Doing && ts[2].status == Done
  {
    var ids := i1[|i0|..];
    assert Ids(ts) == ids;
    forall j | 0 <= j < |ts| ensures ts[j].id !in i0 {
      assert ts[j].id == i1[|i0| + j];
    }
    forall j, k | 0 <= j < k < |ts| ensures ts[j].id != ts[k].id {
      assert ts[j].id == i1[|i0| + j] && ts[k].id == i1[|i0| + k];
    }
  }

  /** A load from a cell that holds a list returns it and draws no id: this is both
      `saveTasks(ts)` followed by `loadTasks()` and a second load after a seeding one. */
  lemma LoadAfterSave(ts: seq<Task>, i0: seq<string>, i1: seq<string>, r: seq<Task>)
    requires LoadOutcome(Holds(ts), i0, i1, r)
    ensures r == ts && i1 == i0
  {
  }
}
