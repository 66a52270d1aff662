/**
 * The task record, the persisted cell and the list operations the task store performs
 * between a load and a save: `findIndex`, `find` and the update spread, shared by storage.js
 * and script.js, and the delete filter, which only storage.js has.
 */
module Tasks {
  import opened Wrappers

  const Todo: string := "todo"
  const Doing: string := "doing"
  const Done: string := "done"

  /** One task as it is stored: `{id, title, desc, status}`. The status is an open string:
      a stored list may hold statuses other than the three the board knows. */
  datatype Task = Task(id: string, title: string, desc: string, status: string)

  /** The argument of `updateTask`: each field is present (Some) or absent (None) in the object
      that is spread over the old task. */
  datatype Patch = Patch(id: Option<string>, title: Option<string>, desc: Option<string>, status: Option<string>)

  /** The `localStorage` cell under the key `kanban.tasks`. `Holds(ts)` stands for a text that
      `JSON.parse` turns back into `ts`; `EmptyText` and `Missing` are the two falsy readings
      (`""` and `null`); `Unparseable` is a text on which `JSON.parse` throws. */
  datatype Cell = Missing | EmptyText | Unparseable | Holds(tasks: seq<Task>)

  /** The ids of a list, position by position. */
  function Ids(ts: seq<Task>): (r: seq<string>)
    ensures |r| == |ts|
    ensures forall i :: 0 <= i < |ts| ==> r[i] == ts[i].id
  {
    seq(|ts|, i requires 0 <= i < |ts| => ts[i].id)
  }

  /** No id occurs twice in the list. */
  predicate UniqueIds(ts: seq<Task>)
  {
    NoDuplicates(Ids(ts))
  }

  /** No string occurs twice. */
  predicate NoDuplicates(ss: seq<string>)
  {
    forall i, j :: 0 <= i < j < |ss| ==> ss[i] != ss[j]
  }

  /** `tasks.findIndex(t => t.id === id)`: the first position holding `id`, or None for -1. */
  function IndexOf(ts: seq<Task>, id: string): (r: Option<nat>)
    ensures r.Some? ==> r.value < |ts| && ts[r.value].id == id
    ensures r.Some? ==> forall j :: 0 <= j < r.value ==> ts[j].id != id
    ensures r.None? <==> forall j :: 0 <= j < |ts| ==> ts[j].id != id
  {
    if ts == [] then None
    else if ts[0].id == id then Some(0)
    else match IndexOf(ts[1..], id)
      case None => None
      case Some(k) => Some(k + 1)
  }

  /** `tasks.find(t => t.id === id)`: the first task holding `id`, or None for `undefined`. */
  function Find(ts: seq<Task>, id: string): (r: Option<Task>)
    ensures r.None? <==> forall j :: 0 <= j < |ts| ==> ts[j].id != id
    ensures r.Some? ==> exists i :: 0 <= i < |ts| && ts[i] == r.value && r.value.id == id
                                    && forall j :: 0 <= j < i ==> ts[j].id != id
  {
    match IndexOf(ts, id)
    case None => None
    case Some(i) => Some(ts[i])
  }

  /** A patch with no fields. */
  const NoChange: Patch := Patch(None, None, None, None)

  /** `{ ...t, ...p }`: every field the patch carries replaces the task's. */
  function Merge(t: Task, p: Patch): (r: Task)
    ensures p == NoChange ==> r == t
    ensures p.id.None? ==> r.id == t.id
  {
    Task(if p.id.Some? then p.id.value else t.id,
         if p.title.Some? then p.title.value else t.title,
         if p.desc.Some? then p.desc.value else t.desc,
         if p.status.Some? then p.status.value else t.status)
  }

  /** The list `updateTask` saves: the first task holding `id` is replaced by its merge with
      the patch; a list without `id` is not saved at all, which is the list itself. */
  function Updated(ts: seq<Task>, id: string, p: Patch): (r: seq<Task>)
    ensures |r| == |ts|
    ensures (forall j :: 0 <= j < |ts| ==> ts[j].id != id) ==> r == ts
  {
    match IndexOf(ts, id)
    case None => ts
    case Some(i) => ts[i := Merge(ts[i], p)]
  }

  /** `tasks.filter(t => t.id !== id)`. */
  function Without(ts: seq<Task>, id: string): (r: seq<Task>)
    ensures |r| <= |ts|
    ensures forall j :: 0 <= j < |r| ==> r[j].id != id && r[j] in ts
  {
    if ts == [] then []
    else (if ts[0].id == id then [] else [ts[0]]) + Without(ts[1..], id)
  }

  /** The longest string of the list has at most this length. */
  function MaxLength(ss: seq<string>): (m: nat)
    ensures forall i :: 0 <= i < |ss| ==> |ss[i]| <= m
  {
    if ss == [] then 0
    else
      var rest := MaxLength(ss[1..]);
      if |ss[0]| > rest then |ss[0]| else rest
  }

  /** A string of `n` copies of `c`. */
  function Repeat(c: char, n: nat): (r: string)
    ensures |r| == n
  {
    if n == 0 then [] else [c] + Repeat(c, n - 1)
  }

  /** An id that is none of `taken`: `"id-"` followed by more digits than any taken id is long. */
  function FreshId(taken: seq<string>): (id: string)
    ensures id !in taken
  {
    var id := "id-" + Repeat('0', MaxLength(taken) + 1);
    assert forall i :: 0 <= i < |taken| ==> |taken[i]| < |id|;
    id
  }

  /**
   * The id generator `uid()`. The source draws a random UUID (or a timestamp with a random
   * suffix); the model keeps the history of the ids it has handed out and returns one that
   * is neither in that history nor in the list it is asked to avoid.
   */
  class IdSource {
    var issued: seq<string>

    ghost predicate Valid()
      reads this
    {
      NoDuplicates(issued)
    }

    constructor ()
      ensures Valid() && issued == []
    {
      issued := [];
    }

    method Next(avoid: seq<Task>) returns (id: string)
      requires Valid()
      modifies this
      ensures Valid()
      ensures id !in old(issued) && id !in Ids(avoid)
      ensures issued == old(issued) + [id]
    {
      id := FreshId(issued + Ids(avoid));
      issued := issued + [id];
    }
  }

  // ---------------------------------------------------------------------------------
  // Properties of the list operations
  // ---------------------------------------------------------------------------------

  /** Find returns the task at the position IndexOf reports. */
  lemma FindAtIndex(ts: seq<Task>, id: string, i: nat)
    requires IndexOf(ts, id) == Some(i)
    ensures Find(ts, id) == Some(ts[i])
  {
  }

  /** A merge takes every field the patch carries and keeps every field it leaves out, in
      particular the id. */
  lemma MergeFields(t: Task, p: Patch)
    ensures p.id.Some? ==> Merge(t, p).id == p.id.value
    ensures p.title.Some? ==> Merge(t, p).title == p.title.value
    ensures p.desc.Some? ==> Merge(t, p).desc == p.desc.value
    ensures p.status.Some? ==> Merge(t, p).status == p.status.value
    ensures p.id.None? ==> Merge(t, p).id == t.id
    ensures p.title.None? ==> Merge(t, p).title == t.title
    ensures p.desc.None? ==> Merge(t, p).desc == t.desc
    ensures p.status.None? ==> Merge(t, p).status == t.status
    ensures Merge(t, NoChange) == t
  {
  }

  /** updateTask keeps the length and every entry except the first one holding `id`; an id
      that is not in the list leaves it as it is. */
  lemma UpdatedFrame(ts: seq<Task>, id: string, p: Patch)
    ensures |Updated(ts, id, p)| == |ts|
    ensures (forall j :: 0 <= j < |ts| ==> ts[j].id != id) ==> Updated(ts, id, p) == ts
    ensures forall i :: IndexOf(ts, id) == Some(i) ==>
              Updated(ts, id, p)[i] == Merge(ts[i], p) &&
              forall j :: 0 <= j < |ts| && j != i ==> Updated(ts, id, p)[j] == ts[j]
  {
  }

  /** A patch without an id field leaves the updated task findable under its id, and a
      later `getTask(id)` returns the merge. */
  lemma UpdatedThenFind(ts: seq<Task>, id: string, p: Patch)
    requires p.id.None?
    requires exists j :: 0 <= j < |ts| && ts[j].id == id
    ensures exists i :: IndexOf(ts, id) == Some(i) && Find(Updated(ts, id, p), id) == Some(Merge(ts[i], p))
  {
    var i :| IndexOf(ts, id) == Some(i);
    var r := Updated(ts, id, p);
    IndexOfFirst(r, id, i);
  }

  /** Any position holding `id` with no earlier one is what IndexOf reports. */
  lemma {:induction false} IndexOfFirst(ts: seq<Task>, id: string, i: nat)
    requires i < |ts| && ts[i].id == id
    requires forall j :: 0 <= j < i ==> ts[j].id != id
    ensures IndexOf(ts, id) == Some(i)
  {
    if i > 0 {
      IndexOfFirst(ts[1..], id, i - 1);
    }
  }

  /** A patch without an id field keeps the ids unique. */
  lemma UpdatedKeepsUniqueIds(ts: seq<Task>, id: string, p: Patch)
    requires UniqueIds(ts) && p.id.None?
    ensures UniqueIds(Updated(ts, id, p))
    ensures Ids(Updated(ts, id, p)) == Ids(ts)
  {
  }

  /** Deleting keeps the tasks with other ids and their relative order: it splits over
      concatenation. */
  lemma {:induction false} WithoutAppend(a: seq<Task>, b: seq<Task>, id: string)
    ensures Without(a + b, id) == Without(a, id) + Without(b, id)
  {
    if a == [] {
      assert a + b == b;
    } else {
      assert (a + b)[1..] == a[1..] + b;
      WithoutAppend(a[1..], b, id);
    }
  }

  /** Deleting an id that is not in the list leaves it unchanged. */
  lemma {:induction false} WithoutAbsent(ts: seq<Task>, id: string)
    requires forall j :: 0 <= j < |ts| ==> ts[j].id != id
    ensures Without(ts, id) == ts
  {
    if ts != [] {
      WithoutAbsent(ts[1..], id);
    }
  }

  /** Deleting the same id twice is deleting it once, and afterwards getTask finds nothing. */
  lemma DeleteTwice(ts: seq<Task>, id: string)
    ensures Without(Without(ts, id), id) == Without(ts, id)
    ensures Find(Without(ts, id), id).None?
  {
    WithoutAbsent(Without(ts, id), id);
  }

  /** Every task with another id survives the delete as often as it occurred. */
  lemma {:induction false} WithoutKeepsOthers(ts: seq<Task>, id: string, t: Task)
    ensures multiset(Without(ts, id))[t] == if t.id == id then 0 else multiset(ts)[t]
  {
    if ts != [] {
      WithoutKeepsOthers(ts[1..], id, t);
      assert ts == [ts[0]] + ts[1..];
    }
  }

  /** Deleting keeps the ids unique. */
  lemma {:induction false} WithoutKeepsUniqueIds(ts: seq<Task>, id: string)
    requires UniqueIds(ts)
    ensures UniqueIds(Without(ts, id))
  {
    if ts != [] {
      WithoutKeepsUniqueIds(ts[1..], id);
      var rest := Without(ts[1..], id);
      forall j | 0 <= j < |rest| ensures rest[j].id != ts[0].id {
        var k :| 0 <= k < |ts[1..]| && ts[1..][k] == rest[j];
        assert ts[k + 1] == rest[j];
      }
    }
  }

  /** Appending a task with an id that is new to the list keeps the ids unique. */
  lemma AppendKeepsUniqueIds(ts: seq<Task>, t: Task)
    requires UniqueIds(ts) && t.id !in Ids(ts)
    ensures UniqueIds(ts + [t])
  {
    forall i | 0 <= i < |ts| ensures ts[i].id != t.id {
      assert Ids(ts)[i] == ts[i].id;
    }
  }
}
