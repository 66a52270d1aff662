/**
 * The board projection of render.js (and of the same code in script.js): the three status
 * columns, their headings `LABEL (n)` and the text each card shows.
 */
module Board {
  import opened Wrappers
  import opened Tasks

  /** `tasks.filter(t => t.status === s)`. */
  function Column(ts: seq<Task>, s: string): (col: seq<Task>)
    ensures |col| <= |ts|
    ensures forall j :: 0 <= j < |col| ==> col[j].status == s && col[j] in ts
  {
    if ts == [] then []
    else (if ts[0].status == s then [ts[0]] else []) + Column(ts[1..], s)
  }

  /** The statuses that have a column. */
  predicate Recognised(s: string)
  {
    s == Todo || s == Doing || s == Done
  }

  /** The tasks that have a column, in list order. */
  function OnBoard(ts: seq<Task>): (r: seq<Task>)
    ensures forall j :: 0 <= j < |r| ==> Recognised(r[j].status)
  {
    if ts == [] then []
    else (if Recognised(ts[0].status) then [ts[0]] else []) + OnBoard(ts[1..])
  }

  /** A column is a stable filter: it splits over concatenation, so tasks keep the order they
      have in storage and nothing is sorted. */
  lemma {:induction false} ColumnAppend(a: seq<Task>, b: seq<Task>, s: string)
    ensures Column(a + b, s) == Column(a, s) + Column(b, s)
  {
    if a == [] {
      assert a + b == b;
    } else {
      assert (a + b)[1..] == a[1..] + b;
      ColumnAppend(a[1..], b, s);
    }
  }

  /** A column holds every task of its status, as often as the list does, and nothing else. */
  lemma {:induction false} ColumnCounts(ts: seq<Task>, s: string, t: Task)
    ensures multiset(Column(ts, s))[t] == if t.status == s then multiset(ts)[t] else 0
  {
    if ts != [] {
      ColumnCounts(ts[1..], s, t);
      assert ts == [ts[0]] + ts[1..];
    }
  }

  /** The tasks on the board are those of a recognised status, as often as the list holds them. */
  lemma {:induction false} OnBoardCounts(ts: seq<Task>, t: Task)
    ensures multiset(OnBoard(ts))[t] == if Recognised(t.status) then multiset(ts)[t] else 0
  {
    if ts != [] {
      OnBoardCounts(ts[1..], t);
      assert ts == [ts[0]] + ts[1..];
    }
  }

  /** The three columns together hold exactly the tasks with a recognised status. */
  lemma Partition(ts: seq<Task>)
    ensures multiset(Column(ts, Todo)) + multiset(Column(ts, Doing)) + multiset(Column(ts, Done))
            == multiset(OnBoard(ts))
  {
    forall t: Task
      ensures (multiset(Column(ts, Todo)) + multiset(Column(ts, Doing)) + multiset(Column(ts, Done)))[t]
              == multiset(OnBoard(ts))[t]
    {
      ColumnCounts(ts, Todo, t);
      ColumnCounts(ts, Doing, t);
      ColumnCounts(ts, Done, t);
      OnBoardCounts(ts, t);
    }
  }

  /** The column lengths add up to the number of tasks with a recognised status. */
  lemma PartitionSizes(ts: seq<Task>)
    ensures |Column(ts, Todo)| + |Column(ts, Doing)| + |Column(ts, Done)| == |OnBoard(ts)|
  {
    Partition(ts);
    assert |multiset(OnBoard(ts))| == |OnBoard(ts)|;
  }

  /** A task with a recognised status is in exactly its own column; any other task is in none. */
  lemma ExactlyOneColumn(ts: seq<Task>, t: Task)
    requires t in ts
    ensures Recognised(t.status) ==> t in Column(ts, t.status)
    ensures forall s :: s != t.status ==> t !in Column(ts, s)
  {
    ColumnCounts(ts, t.status, t);
  }

  // ---------------------------------------------------------------------------------
  // Column headings
  // ---------------------------------------------------------------------------------

  const TodoLabel: string := "TODO"
  const DoingLabel: string := "DOING"
  const DoneLabel: string := "DONE"

  predicate IsDigit(c: char)
  {
    '0' <= c <= '9'
  }

  /** A run of decimal digits as a template literal prints a number: not empty, and with no
      leading zero unless it is "0" itself. */
  predicate Canonical(s: string)
  {
    && |s| > 0
    && (forall i :: 0 <= i < |s| ==> IsDigit(s[i]))
    && (s[0] == '0' ==> |s| == 1)
  }

  /** How a template literal prints a natural number. */
  function Decimal(n: nat): (r: string)
    ensures Canonical(r)
    ensures n == 0 ==> r == "0"
    ensures n > 0 ==> r[0] != '0'
  {
    if n < 10 then [(n as int + '0' as int) as char]
    else Decimal(n / 10) + [((n % 10) as int + '0' as int) as char]
  }

  /** The number a string of decimal digits denotes. */
  function DigitsValue(s: string): nat
    requires forall i :: 0 <= i < |s| ==> IsDigit(s[i])
  {
    if s == [] then 0
    else DigitsValue(s[..|s| - 1]) * 10 + DigitValue(s[|s| - 1])
  }

  function DigitValue(c: char): nat
    requires IsDigit(c)
  {
    c as int - '0' as int
  }

  lemma {:induction false} DecimalRoundTrip(n: nat)
    ensures DigitsValue(Decimal(n)) == n
  {
    if n >= 10 {
      DecimalRoundTrip(n / 10);
      var d := Decimal(n);
      assert d[..|d| - 1] == Decimal(n / 10);
    }
  }

  /** A digit run that does not start with '0' denotes a positive number. */
  lemma {:induction false} LeadingDigitPositive(s: string)
    requires |s| > 0 && (forall i :: 0 <= i < |s| ==> IsDigit(s[i])) && s[0] != '0'
    ensures DigitsValue(s) > 0
  {
    if |s| > 1 {
      LeadingDigitPositive(s[..|s| - 1]);
    }
  }

  /** Printing the number a canonical digit run denotes gives the run back. */
  lemma {:induction false} CanonicalRoundTrip(s: string)
    requires Canonical(s)
    ensures Decimal(DigitsValue(s)) == s
  {
    var d := DigitValue(s[|s| - 1]);
    if |s| == 1 {
      assert s[..0] == [];
      assert DigitsValue(s) == d;
    } else {
      var p := s[..|s| - 1];
      assert p[0] == s[0];
      LeadingDigitPositive(p);
      CanonicalRoundTrip(p);
      var n := DigitsValue(s);
      assert n == DigitsValue(p) * 10 + d;
      assert n / 10 == DigitsValue(p) && n % 10 == d;
      assert s == p + [s[|s| - 1]];
    }
  }

  /** `${caption} (${n})`. */
  function ColumnTitle(caption: string, n: nat): (r: string)
    ensures |r| > |caption| + 3 && r[..|caption|] == caption && r[|r| - 1] == ')'
  {
    caption + " (" + Decimal(n) + ")"
  }

  /** Reads the count back out of a heading for the given caption. */
  function TitleCount(title: string, caption: string): (r: Option<nat>)
  {
    var k := |caption| + 2;
    if |title| > k && title[..k] == caption + " (" && title[|title| - 1] == ')'
       && Canonical(title[k..|title| - 1])
    then Some(DigitsValue(title[k..|title| - 1]))
    else None
  }

  /** A heading states its column's length: reading it back gives the count. */
  lemma TitleRoundTrip(caption: string, n: nat)
    ensures TitleCount(ColumnTitle(caption, n), caption) == Some(n)
  {
    var t := ColumnTitle(caption, n);
    var k := |caption| + 2;
    assert t[..k] == caption + " (";
    assert t[k..|t| - 1] == Decimal(n);
    DecimalRoundTrip(n);
  }

  /** A heading whose count reads back as n is exactly the heading printed for n. */
  lemma TitleCountExact(title: string, caption: string, n: nat)
    requires TitleCount(title, caption) == Some(n)
    ensures title == ColumnTitle(caption, n)
  {
    var k := |caption| + 2;
    var digits := title[k..|title| - 1];
    CanonicalRoundTrip(digits);
    assert title == title[..k] + digits + [title[|title| - 1]];
  }

  /** Two headings of the same caption are equal exactly when their counts are. */
  lemma TitleInjective(caption: string, m: nat, n: nat)
    ensures ColumnTitle(caption, m) == ColumnTitle(caption, n) <==> m == n
  {
    TitleRoundTrip(caption, m);
    TitleRoundTrip(caption, n);
  }

  // ---------------------------------------------------------------------------------
  // Cards
  // ---------------------------------------------------------------------------------

  const Placeholder: string := "No description"

  /** `task.desc || "No description"`. */
  function DescText(desc: string): (r: string)
    ensures desc == "" ==> r == Placeholder
    ensures r != ""
    ensures r == desc <==> desc != ""
  {
    if desc == "" then Placeholder else desc
  }

  /** What a card carries: the task id (its data attribute), its title and the description line. */
  datatype Card = Card(id: string, title: string, text: string)

  function TaskCard(t: Task): (c: Card)
    ensures c.id == t.id && c.title == t.title
    ensures t.desc == "" ==> c.text == Placeholder
    ensures c.text != "" && (c.text == t.desc <==> t.desc != "")
  {
    Card(t.id, t.title, DescText(t.desc))
  }

  datatype ColumnView = ColumnView(title: string, cards: seq<Card>)

  datatype BoardView = BoardView(todo: ColumnView, doing: ColumnView, done: ColumnView)

  /** The view shows the column of `status`: one card per task of the column, in column order,
      under a heading whose count is the column length. */
  predicate Shows(v: ColumnView, ts: seq<Task>, status: string, caption: string)
  {
    && TitleCount(v.title, caption) == Some(|Column(ts, status)|)
    && |v.cards| == |Column(ts, status)|
    && forall i :: 0 <= i < |v.cards| ==> v.cards[i] == TaskCard(Column(ts, status)[i])
  }

  /** One column: its heading and one card per task, in column order. */
  function ColumnOf(ts: seq<Task>, status: string, caption: string): (v: ColumnView)
    ensures Shows(v, ts, status, caption)
  {
    var col := Column(ts, status);
    TitleRoundTrip(caption, |col|);
    ColumnView(ColumnTitle(caption, |col|), seq(|col|, i requires 0 <= i < |col| => TaskCard(col[i])))
  }

  /** What renderBoard paints for a loaded list. */
  function View(ts: seq<Task>): (v: BoardView)
    ensures Shows(v.todo, ts, Todo, TodoLabel)
    ensures Shows(v.doing, ts, Doing, DoingLabel)
    ensures Shows(v.done, ts, Done, DoneLabel)
    ensures |v.todo.cards| + |v.doing.cards| + |v.done.cards| == |OnBoard(ts)|
  {
    PartitionSizes(ts);
    BoardView(ColumnOf(ts, Todo, TodoLabel), ColumnOf(ts, Doing, DoingLabel), ColumnOf(ts, Done, DoneLabel))
  }
}
