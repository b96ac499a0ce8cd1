/**
 How the database numbers execution rows: each insert takes one more than the largest id in the table, over all cases,
 and rebuilding a case deletes its rows before inserting them again. A start therefore never gets an id that was issued
 before, while a rebuild may hand an old id to another execution.
 */
module RowIds {
  datatype Row = Row(caseId: string, id: nat)

  function MaxId(rows: seq<Row>): nat {
    if rows == [] then 0
    else
      var rest, last := MaxId(rows[..|rows| - 1]), rows[|rows| - 1].id;
      if last > rest then last else rest
  }

  function Others(rows: seq<Row>, c: string): seq<Row> {
    if rows == [] then []
    else
      var n := |rows| - 1;
      if rows[n].caseId == c then Others(rows[..n], c) else Others(rows[..n], c) + [rows[n]]
  }

  function Count(rows: seq<Row>, c: string): nat {
    if rows == [] then 0
    else
      var n := |rows| - 1;
      Count(rows[..n], c) + if rows[n].caseId == c then 1 else 0
  }

  function Inserted(rows: seq<Row>, c: string): seq<Row> {
    rows + [Row(c, MaxId(rows) + 1)]
  }

  function InsertedAll(rows: seq<Row>, c: string, n: nat): seq<Row> {
    if n == 0 then rows else Inserted(InsertedAll(rows, c, n - 1), c)
  }

  datatype Act = Start(caseId: string) | Rebuild(caseId: string)

  /** `issued` is history: every id any row ever had. */
  datatype Table = Table(rows: seq<Row>, issued: set<nat>)

  function Ids(rows: seq<Row>): set<nat> {
    set i | 0 <= i < |rows| :: rows[i].id
  }

  function Do(t: Table, a: Act): Table {
    var rows := match a
      case Start(c) => Inserted(t.rows, c)
      case Rebuild(c) => InsertedAll(Others(t.rows, c), c, Count(t.rows, c));
    Table(rows, t.issued + Ids(rows))
  }

  function Run(acts: seq<Act>): Table {
    if acts == [] then Table([], {}) else Do(Run(acts[..|acts| - 1]), acts[|acts| - 1])
  }

  /** The largest id never moves down: whatever lies above all other cases' rows is refilled without a gap. */
  ghost predicate Dense(t: Table) {
    && (forall c :: MaxId(t.rows) <= MaxId(Others(t.rows, c)) + Count(t.rows, c))
    && (forall id :: id in t.issued ==> id <= MaxId(t.rows))
  }

  lemma OneMore(rows: seq<Row>, row: Row, c: string)
    ensures Others(rows + [row], c) == if row.caseId == c then Others(rows, c) else Others(rows, c) + [row]
    ensures Count(rows + [row], c) == Count(rows, c) + if row.caseId == c then 1 else 0
    ensures MaxId(rows + [row]) == if row.id > MaxId(rows) then row.id else MaxId(rows)
  {
    assert (rows + [row])[..|rows|] == rows;
  }

  lemma {:induction false} MaxIsLargest(rows: seq<Row>, i: nat)
    requires i < |rows|
    ensures rows[i].id <= MaxId(rows)
  {
    if i < |rows| - 1 { MaxIsLargest(rows[..|rows| - 1], i); }
  }

  lemma {:induction false} OthersHaveNone(rows: seq<Row>, c: string)
    ensures Count(Others(rows, c), c) == 0 && Others(Others(rows, c), c) == Others(rows, c)
  {
    if rows != [] {
      var n := |rows| - 1;
      OthersHaveNone(rows[..n], c);
      if rows[n].caseId != c { OneMore(Others(rows[..n], c), rows[n], c); }
    }
  }

  /** n fresh inserts move the largest id by n, give the case n rows, and leave its others. */
  lemma {:induction false} InsertingMoves(rows: seq<Row>, c: string, n: nat)
    ensures MaxId(InsertedAll(rows, c, n)) == MaxId(rows) + n
    ensures Count(InsertedAll(rows, c, n), c) == Count(rows, c) + n
    ensures Others(InsertedAll(rows, c, n), c) == Others(rows, c)
  {
    if n > 0 {
      var before := InsertedAll(rows, c, n - 1);
      InsertingMoves(rows, c, n - 1);
      OneMore(before, Row(c, MaxId(before) + 1), c);
    }
  }

  /** The newest row belongs to the others of any other case. */
  lemma NewestIsAnOther(rows: seq<Row>, c: string, d: string)
    requires c != d
    ensures MaxId(Others(Inserted(rows, d), c)) >= MaxId(Inserted(rows, d))
  {
    var row := Row(d, MaxId(rows) + 1);
    OneMore(rows, row, c);
    OneMore(Others(rows, c), row, c);
  }

  lemma {:induction false} NoneMeansAll(rows: seq<Row>, c: string)
    requires Count(rows, c) == 0
    ensures Others(rows, c) == rows
  {
    if rows != [] { NoneMeansAll(rows[..|rows| - 1], c); }
  }

  lemma StartStaysDense(t: Table, d: string)
    requires Dense(t)
    ensures Dense(Do(t, Start(d)))
  {
    var t' := Do(t, Start(d));
    OneMore(t.rows, Row(d, MaxId(t.rows) + 1), d);
    forall c ensures MaxId(t'.rows) <= MaxId(Others(t'.rows, c)) + Count(t'.rows, c) {
      if c == d {
        assert MaxId(t.rows) <= MaxId(Others(t.rows, c)) + Count(t.rows, c);
      } else {
        NewestIsAnOther(t.rows, c, d);
      }
    }
    IssuedIsBounded(t, t'.rows);
  }

  lemma LastInsert(rows: seq<Row>, c: string, n: nat)
    requires n > 0
    ensures InsertedAll(rows, c, n) == Inserted(InsertedAll(rows, c, n - 1), c)
  {
  }

  lemma NoInsert(rows: seq<Row>, c: string)
    ensures InsertedAll(rows, c, 0) == rows
  {
  }

  lemma RebuildStaysDense(t: Table, d: string)
    requires Dense(t)
    ensures Dense(Do(t, Rebuild(d)))
  {
    hide MaxId, Others, Count, InsertedAll;
    var t' := Do(t, Rebuild(d));
    var rest, n := Others(t.rows, d), Count(t.rows, d);
    OthersHaveNone(t.rows, d);
    InsertingMoves(rest, d, n);
    forall c ensures MaxId(t'.rows) <= MaxId(Others(t'.rows, c)) + Count(t'.rows, c) {
      if c == d {
      } else if n > 0 {
        assert t'.rows == Inserted(InsertedAll(rest, d, n - 1), d) by { LastInsert(rest, d, n); }
        NewestIsAnOther(InsertedAll(rest, d, n - 1), c, d);
      } else {
        NoneMeansAll(t.rows, d);
        assert t'.rows == t.rows by { NoInsert(rest, d); }
        assert MaxId(t.rows) <= MaxId(Others(t.rows, c)) + Count(t.rows, c);
      }
    }
    assert MaxId(t.rows) <= MaxId(rest) + n;
    IssuedIsBounded(t, t'.rows);
  }

  lemma IssuedIsBounded(t: Table, rows: seq<Row>)
    requires Dense(t) && MaxId(t.rows) <= MaxId(rows)
    ensures forall id :: id in t.issued + Ids(rows) ==> id <= MaxId(rows)
  {
    forall i: nat | i < |rows| ensures rows[i].id <= MaxId(rows) { MaxIsLargest(rows, i); }
  }

  lemma {:induction false} AlwaysDense(acts: seq<Act>)
    ensures Dense(Run(acts))
  {
    if acts != [] {
      var t, a := Run(acts[..|acts| - 1]), acts[|acts| - 1];
      AlwaysDense(acts[..|acts| - 1]);
      match a
      case Start(c) => StartStaysDense(t, c);
      case Rebuild(c) => RebuildStaysDense(t, c);
    }
  }

  /** After any starts and rebuilds of any cases, the next started execution gets an id no row ever had. */
  lemma StartedIdsAreNew(acts: seq<Act>, c: string)
    ensures var t := Run(acts);
      MaxId(t.rows) + 1 !in t.issued && Run(acts + [Start(c)]).rows == t.rows + [Row(c, MaxId(t.rows) + 1)]
  {
    AlwaysDense(acts);
    RunOneMore(acts, Start(c));
  }

  lemma RunOneMore(acts: seq<Act>, a: Act)
    ensures Run(acts + [a]) == Do(Run(acts), a)
  {
    assert (acts + [a])[..|acts|] == acts;
  }

  /** A rebuild, however, may give an execution an id that another execution of the case had before. */
  lemma RebuildMayReissue(a: string, b: string)
    requires a != b
    ensures Run([Start(a), Start(b), Start(a)]).rows == [Row(a, 1), Row(b, 2), Row(a, 3)]
    ensures Do(Run([Start(a), Start(b), Start(a)]), Rebuild(a)).rows == [Row(b, 2), Row(a, 3), Row(a, 4)]
  {
    ThreeStarts(a, b);
    var rows := [Row(a, 1), Row(b, 2), Row(a, 3)];
    OthersOfThree(a, b);
    InsertingTwo([Row(b, 2)], a, 2);
  }

  lemma RowsOf(row: Row, c: string)
    ensures MaxId([row]) == row.id && Others([row], c) == (if row.caseId == c then [] else [row])
    ensures Count([row], c) == if row.caseId == c then 1 else 0
  {
    OneMore([], row, c);
    assert [] + [row] == [row];
  }

  lemma OthersOfThree(a: string, b: string)
    requires a != b
    ensures var rows := [Row(a, 1), Row(b, 2), Row(a, 3)];
      Others(rows, a) == [Row(b, 2)] && Count(rows, a) == 2 && MaxId(rows) == 3 && MaxId([Row(b, 2)]) == 2
  {
    var two := [Row(a, 1), Row(b, 2)];
    RowsOf(Row(a, 1), a);
    RowsOf(Row(b, 2), a);
    OneMore([Row(a, 1)], Row(b, 2), a);
    assert [Row(a, 1)] + [Row(b, 2)] == two;
    OneMore(two, Row(a, 3), a);
    assert two + [Row(a, 3)] == [Row(a, 1), Row(b, 2), Row(a, 3)];
  }

  lemma InsertingTwo(rows: seq<Row>, c: string, m: nat)
    requires MaxId(rows) == m
    ensures InsertedAll(rows, c, 2) == rows + [Row(c, m + 1), Row(c, m + 2)]
  {
    assert InsertedAll(rows, c, 0) == rows;
    OneMore(rows, Row(c, m + 1), c);
    var one := InsertedAll(rows, c, 1);
    assert one == rows + [Row(c, m + 1)];
    assert InsertedAll(rows, c, 2) == one + [Row(c, m + 2)];
  }

  lemma ThreeStarts(a: string, b: string)
    ensures Run([Start(a), Start(b), Start(a)]).rows == [Row(a, 1), Row(b, 2), Row(a, 3)]
  {
    hide Others, Count, InsertedAll, Ids;
    var s1, s2 := [Start(a)], [Start(a), Start(b)];
    RunOneMore([], Start(a));
    assert [] + [Start(a)] == s1;
    RowsOf(Row(a, 1), a);
    assert Run(s1).rows == [Row(a, 1)];
    RunOneMore(s1, Start(b));
    assert s1 + [Start(b)] == s2;
    assert Run(s2).rows == [Row(a, 1)] + [Row(b, 2)] == [Row(a, 1), Row(b, 2)];
    OneMore([Row(a, 1)], Row(b, 2), a);
    RunOneMore(s2, Start(a));
    assert s2 + [Start(a)] == [Start(a), Start(b), Start(a)];
  }
}
