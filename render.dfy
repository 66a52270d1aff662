/**
 * `renderBoard()` of render.js: load the list through the modular store, split it into the
 * three status columns and head each column with its count. Painting the cards into the page
 * is not modelled; the projection the page is painted from is.
 */
module Render {
  import opened Tasks
  import opened Board
  import Storage

  method RenderBoard(store: Storage.Store) returns (view: BoardView, ghost loaded: seq<Task>)
    requires store.Valid()
    modifies store, store.source
    ensures store.Valid()
    ensures Storage.LoadOutcome(old(store.cell), old(store.source.issued), store.source.issued, loaded)
    ensures old(store.cell).Holds? ==> store.cell == old(store.cell)
    ensures store.cell == Holds(loaded)
    ensures view == View(loaded)
  {
    var tasks := store.LoadTasks();
    loaded := tasks;
    var todo := ColumnOf(tasks, Todo, TodoLabel);
    var doing := ColumnOf(tasks, Doing, DoingLabel);
    var done := ColumnOf(tasks, Done, DoneLabel);
    view := BoardView(todo, doing, done);
  }

  /** The board of a first run: one card in each column, headed with a count of one. */
  lemma SeedBoard(ids: seq<string>)
    requires |ids| == 3
    ensures var v := View(Storage.Seed(ids));
            |v.todo.cards| == 1 && |v.doing.cards| == 1 && |v.done.cards| == 1
            && v.todo.title == "TODO (1)" && v.doing.title == "DOING (1)" && v.done.title == "DONE (1)"
  {
    var ts := Storage.Seed(ids);
    assert ts == [ts[0]] + [ts[1]] + [ts[2]];
    ColumnAppend([ts[0]] + [ts[1]], [ts[2]], Todo);
    ColumnAppend([ts[0]], [ts[1]], Todo);
    ColumnAppend([ts[0]] + [ts[1]], [ts[2]], Doing);
    ColumnAppend([ts[0]], [ts[1]], Doing);
    ColumnAppend([ts[0]] + [ts[1]], [ts[2]], Done);
    ColumnAppend([ts[0]], [ts[1]], Done);
  }
}
