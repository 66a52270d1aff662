/**
 * Callers of the modular store, each on a store of its own: what a page can rely on from the
 * contracts of Storage.Store and Render.RenderBoard alone.
 */
module Scenarios {
  import opened Wrappers
  import opened Tasks
  import opened Board
  import Storage
  import Render

  /** `saveTasks(ts)` then `loadTasks()` returns `ts`, whatever the cell held before; the empty
      list included, since `"[]"` is not an empty text and is not re-seeded. */
  method SaveThenLoad(before: Cell, ts: seq<Task>) returns (r: seq<Task>)
    ensures r == ts
  {
    var s := new Storage.Store(before);
    s.SaveTasks(ts);
    r := s.LoadTasks();
  }

  /** On a cell without a readable list, the first load seeds and the second returns the same
      list: the seed is persisted, not drawn again. */
  method SeedPersists(before: Cell) returns (first: seq<Task>, second: seq<Task>)
    requires !before.Holds?
    ensures first == second
    ensures |first| == 3 && first[0].status == Todo && first[1].status == Doing && first[2].status == Done
    ensures UniqueIds(first)
  {
    var s := new Storage.Store(before);
    first := s.LoadTasks();
    Storage.SeedIsFresh(before, [], s.source.issued, first);
    second := s.LoadTasks();
  }

  /** Two tasks created one after the other never share an id, even when the first is deleted
      in between. */
  method CreateDeleteCreate(before: Cell, title: string) returns (t1: Task, t2: Task)
    ensures t1.id != t2.id
  {
    var s := new Storage.Store(before);
    ghost var loaded: seq<Task>;
    t1, loaded := s.AddTask(title, "", Todo);
    loaded := s.DeleteTask(t1.id);
    t2, loaded := s.AddTask(title, "", Todo);
  }

  /** The column lengths of a board, todo first. */
  function Counts(v: BoardView): (nat, nat, nat)
  {
    (|v.todo.cards|, |v.doing.cards|, |v.done.cards|)
  }

  /** Start from empty storage; the first load seeds three tasks; create "Write spec" as a task
      to do; move it to doing; delete it. The board counts go 2/1/1, then 1/2/1, then 1/1/1, the
      headings say so, and the list ends as the seed with its three tasks. */
  method EndToEnd() returns (seed: seq<Task>, afterAdd: BoardView, afterUpdate: BoardView, afterDelete: BoardView, final: seq<Task>)
    ensures Counts(afterAdd) == (2, 1, 1) && TitleCount(afterAdd.todo.title, TodoLabel) == Some(2)
    ensures Counts(afterUpdate) == (1, 2, 1) && TitleCount(afterUpdate.doing.title, DoingLabel) == Some(2)
    ensures Counts(afterDelete) == (1, 1, 1) && TitleCount(afterDelete.doing.title, DoingLabel) == Some(1)
    ensures final == seed && |final| == 3
  {
    var s := new Storage.Store(Missing);
    seed := s.LoadTasks();
    Storage.SeedIsFresh(Missing, [], s.source.issued, seed);
    var id;
    id, afterAdd := CreateStep(s, seed);
    afterUpdate := MoveStep(s, seed, id);
    afterDelete, final := DeleteStep(s, seed, id);
  }

  /** The seeded board after `addTask({title: "Write spec", desc: "", status: "todo"})`. */
  method CreateStep(s: Storage.Store, seed: seq<Task>) returns (id: string, view: BoardView)
    requires s.Valid() && s.cell == Holds(seed) && UniqueIds(seed)
    requires |seed| == 3 && seed[0].status == Todo && seed[1].status == Doing && seed[2].status == Done
    modifies s, s.source
    ensures s.Valid() && id !in Ids(seed)
    ensures s.cell == Holds(seed + [Task(id, "Write spec", "", Todo)])
    ensures Counts(view) == (2, 1, 1) && TitleCount(view.todo.title, TodoLabel) == Some(2)
  {
    var created, loaded := s.AddTask("Write spec", "", Todo);
    id := created.id;
    view, loaded := Render.RenderBoard(s);
    ColumnsOfSeedPlus(seed, created);
  }

  /** The board after `updateTask(id, {status: "doing"})` on the task just created. */
  method MoveStep(s: Storage.Store, seed: seq<Task>, id: string) returns (view: BoardView)
    requires s.Valid() && s.cell == Holds(seed + [Task(id, "Write spec", "", Todo)]) && id !in Ids(seed)
    requires |seed| == 3 && seed[0].status == Todo && seed[1].status == Doing && seed[2].status == Done
    modifies s, s.source
    ensures s.Valid()
    ensures s.cell == Holds(seed + [Task(id, "Write spec", "", Doing)])
    ensures Counts(view) == (1, 2, 1) && TitleCount(view.doing.title, DoingLabel) == Some(2)
  {
    ghost var list := seed + [Task(id, "Write spec", "", Todo)];
    ghost var moved := Task(id, "Write spec", "", Doing);
    forall j | 0 <= j < 3 ensures list[j].id != id {
      assert Ids(seed)[j] == list[j].id;
    }
    IndexOfFirst(list, id, 3);
    assert list[3 := moved] == seed + [moved];
    ghost var loaded := s.UpdateTask(id, Patch(None, None, None, Some(Doing)));
    view, loaded := Render.RenderBoard(s);
    ColumnsOfSeedPlus(seed, moved);
  }

  /** The board after `deleteTask(id)`: the seed again. */
  method DeleteStep(s: Storage.Store, seed: seq<Task>, id: string) returns (view: BoardView, final: seq<Task>)
    requires s.Valid() && s.cell == Holds(seed + [Task(id, "Write spec", "", Doing)]) && id !in Ids(seed)
    requires |seed| == 3 && seed[0].status == Todo && seed[1].status == Doing && seed[2].status == Done
    modifies s, s.source
    ensures s.cell == Holds(seed) && final == seed
    ensures Counts(view) == (1, 1, 1) && TitleCount(view.doing.title, DoingLabel) == Some(1)
  {
    ghost var moved := Task(id, "Write spec", "", Doing);
    forall j | 0 <= j < 3 ensures seed[j].id != id {
      assert Ids(seed)[j] == seed[j].id;
    }
    WithoutAppend(seed, [moved], id);
    WithoutAbsent(seed, id);
    assert seed + [] == seed;
    ghost var loaded := s.DeleteTask(id);
    view, loaded := Render.RenderBoard(s);
    SeedColumns(seed);
    final := s.LoadTasks();
  }

  /** A three-task list with one task per status has one task in each column. */
  lemma SeedColumns(seed: seq<Task>)
    requires |seed| == 3 && seed[0].status == Todo && seed[1].status == Doing && seed[2].status == Done
    ensures |Column(seed, Todo)| == 1 && |Column(seed, Doing)| == 1 && |Column(seed, Done)| == 1
  {
    assert seed == [seed[0]] + [seed[1]] + [seed[2]];
    forall s | s == Todo || s == Doing || s == Done
      ensures |Column(seed, s)| == 1
    {
      ColumnAppend([seed[0]] + [seed[1]], [seed[2]], s);
      ColumnAppend([seed[0]], [seed[1]], s);
    }
  }

  /** The columns of a seed with one task appended: the new task adds one to the column of
      its status and nothing to the others. */
  lemma ColumnsOfSeedPlus(seed: seq<Task>, t: Task)
    requires |seed| == 3 && seed[0].status == Todo && seed[1].status == Doing && seed[2].status == Done
    ensures |Column(seed + [t], Todo)| == 1 + (if t.status == Todo then 1 else 0)
    ensures |Column(seed + [t], Doing)| == 1 + (if t.status == Doing then 1 else 0)
    ensures |Column(seed + [t], Done)| == 1 + (if t.status == Done then 1 else 0)
  {
    SeedColumns(seed);
    ColumnAppend(seed, [t], Todo);
    ColumnAppend(seed, [t], Doing);
    ColumnAppend(seed, [t], Done);
  }
}
