/**
 Upgrading a ledger written before events were chained: every row gets the missing fields it lacks, in row order,
 and every stream head is set from the last row of its case. A falsy column (NULL, 0 or the empty text) is None.
 */
module Migration {
  import opened Prelude
  import opened EventChain

  datatype Row<+P> = Row(
    caseId: string, body: P, stepName: string, actor: string, timestamp: string,
    eventId: Option<string>, sequence: Option<int>, createdAt: Option<string>,
    previous: Option<Hash>, hash: Option<Hash>)

  predicate Full(row: Row) {
    row.eventId.Some? && row.sequence.Some? && row.createdAt.Some? && row.previous.Some? && row.hash.Some?
  }

  predicate Bare(row: Row) {
    row.eventId.None? && row.sequence.None? && row.createdAt.None? && row.previous.None? && row.hash.None?
  }

  function EventOf<P>(row: Row<P>): Event<P>
    requires Full(row)
  {
    var content := Content(row.eventId.value, row.stepName, row.actor, row.createdAt.value, row.body);
    Event(Envelope(content, row.caseId, row.sequence.value, row.previous.value), row.hash.value)
  }

  function Or<T>(column: Option<T>, otherwise: T): T {
    if column.Some? then column.value else otherwise
  }

  /** What a new row would get: a minted id, the timestamp as ISO text, and the digest. */
  datatype Filler<!P> = Filler(mint: nat -> string, iso: string -> string, digest: Envelope<P> -> Hash)

  /** The row with every missing column supplied; `last` is where its case's stream stands. */
  function Fill<P>(row: Row<P>, last: Head, i: nat, fill: Filler<P>): (filled: Row<P>)
    ensures Full(filled) && filled.caseId == row.caseId
  {
    var eventId := Or(row.eventId, fill.mint(i));
    var sequence := Or(row.sequence, last.sequence + 1);
    var createdAt := Or(row.createdAt, fill.iso(row.timestamp));
    var previous := Or(row.previous, last.hash);
    var content := Content(eventId, row.stepName, row.actor, createdAt, row.body);
    var envelope := Envelope(content, row.caseId, sequence, previous);
    row.(eventId := Some(eventId), sequence := Some(sequence), createdAt := Some(createdAt),
         previous := Some(previous), hash := Some(Or(row.hash, fill.digest(envelope))))
  }

  lemma FullRowFillsToItself<P>(row: Row<P>, last: Head, i: nat, fill: Filler<P>)
    requires Full(row)
    ensures Fill(row, last, i, fill) == row
  {
  }

  predicate AllFull(rows: seq<Row>) {
    forall i :: 0 <= i < |rows| ==> Full(rows[i])
  }

  /** The events of one case, in row order. */
  function StreamOf<P>(rows: seq<Row<P>>, c: string): seq<Event<P>>
    requires AllFull(rows)
    decreases |rows|
  {
    if rows == [] then []
    else
      var n := |rows| - 1;
      StreamOf(rows[..n], c) + OwnEvent(rows[n], c)
  }

  function OwnEvent<P>(row: Row<P>, c: string): seq<Event<P>>
    requires Full(row)
  {
    if row.caseId == c then [EventOf(row)] else []
  }

  /** Where a stream stands: its last recorded sequence and hash. */
  function Tip<P>(events: seq<Event<P>>): Head {
    if events == [] then Head(0, GENESIS)
    else
      var last := events[|events| - 1];
      Head(last.envelope.sequence, last.hash)
  }

  /** Each row filled in from where its case's stream stood just before it. */
  function Upgrade<P>(rows: seq<Row<P>>, fill: Filler<P>): (after: seq<Row<P>>)
    ensures |after| == |rows| && AllFull(after)
    decreases |rows|
  {
    if rows == [] then []
    else
      var n := |rows| - 1;
      var done := Upgrade(rows[..n], fill);
      done + [Fill(rows[n], Tip(StreamOf(done, rows[n].caseId)), n, fill)]
  }

  lemma UpgradeOneMore<P>(rows: seq<Row<P>>, i: nat, fill: Filler<P>)
    requires i < |rows|
    ensures var done := Upgrade(rows[..i], fill);
      Upgrade(rows[..i + 1], fill) == done + [Fill(rows[i], Tip(StreamOf(done, rows[i].caseId)), i, fill)]
  {
    assert rows[..i + 1][..i] == rows[..i];
  }

  /** What a row says stays said. */
  predicate Keeps<P(==)>(row: Row<P>, after: Row<P>) {
    && after.caseId == row.caseId && after.body == row.body && after.stepName == row.stepName
    && after.actor == row.actor && after.timestamp == row.timestamp
    && (row.eventId.Some? ==> after.eventId == row.eventId) && (row.sequence.Some? ==> after.sequence == row.sequence)
    && (row.createdAt.Some? ==> after.createdAt == row.createdAt)
    && (row.previous.Some? ==> after.previous == row.previous) && (row.hash.Some? ==> after.hash == row.hash)
  }

  /** A missing column continues the case's stream, is told from the row's own columns, or is newly minted. */
  predicate Supplied<P>(row: Row<P>, after: Row<P>, last: Head, i: nat, fill: Filler<P>) {
    && Full(after)
    && (row.sequence.None? ==> after.sequence == Some(last.sequence + 1))
    && (row.previous.None? ==> after.previous == Some(last.hash))
    && (row.createdAt.None? ==> after.createdAt == Some(fill.iso(row.timestamp)))
    && (row.eventId.None? ==> after.eventId == Some(fill.mint(i)))
    && (row.hash.None? ==> after.hash == Some(fill.digest(EventOf(after).envelope)))
  }

  lemma FillTells<P>(row: Row<P>, last: Head, i: nat, fill: Filler<P>)
    ensures Keeps(row, Fill(row, last, i, fill)) && Supplied(row, Fill(row, last, i, fill), last, i, fill)
  {
  }

  /** The upgrade only ever fills in: each row keeps what it has and is supplied from the rows of its case before it. */
  lemma {:induction false} MigrationOnlyFills<P>(rows: seq<Row<P>>, fill: Filler<P>, i: nat)
    requires i < |rows|
    ensures var after := Upgrade(rows, fill);
      && Keeps(rows[i], after[i])
      && Supplied(rows[i], after[i], Tip(StreamOf(after[..i], rows[i].caseId)), i, fill)
    decreases |rows|
  {
    hide Fill, Keeps, Supplied, StreamOf, Tip;
    var n := |rows| - 1;
    var after, done := Upgrade(rows, fill), Upgrade(rows[..n], fill);
    assert after[..i] == done[..i];
    if i < n {
      MigrationOnlyFills(rows[..n], fill, i);
      assert rows[..n][i] == rows[i] && done[i] == after[i];
    } else {
      assert done[..n] == done;
      FillTells(rows[n], Tip(StreamOf(done, rows[n].caseId)), n, fill);
    }
  }

  lemma UpdateAtFront<T>(done: seq<T>, before: seq<T>, i: nat, item: T)
    requires |done| == i < |before|
    ensures (done + before[i..])[i := item] == done + [item] + before[i + 1..]
    ensures item == before[i] ==> done + before[i..] == done + [item] + before[i + 1..]
  {
  }

  /** `last` holds where each case's stream stands, and only for cases that have rows. */
  ghost predicate Tracks<P>(last: map<string, Head>, done: seq<Row<P>>)
    requires AllFull(done)
  {
    forall c :: TracksCase(last, done, c)
  }

  predicate TracksCase<P>(last: map<string, Head>, done: seq<Row<P>>, c: string)
    requires AllFull(done)
  {
    var events := StreamOf(done, c);
    (c in last <==> events != []) && (c in last ==> last[c] == Tip(events))
  }

  lemma TracksOneMore<P>(last: map<string, Head>, done: seq<Row<P>>, filled: Row<P>)
    requires AllFull(done) && Full(filled) && Tracks(last, done)
    ensures AllFull(done + [filled])
    ensures Tracks(last[filled.caseId := Head(filled.sequence.value, filled.hash.value)], done + [filled])
  {
    var next := last[filled.caseId := Head(filled.sequence.value, filled.hash.value)];
    StreamOneMore(done, filled, filled.caseId);
    forall c ensures TracksCase(next, done + [filled], c) {
      StreamOneMore(done, filled, c);
      assert TracksCase(last, done, c);
    }
  }

  class EventDatabase<P(==)> {
    var rows: seq<Row<P>>
    var heads: map<string, Head>

    /** One transaction over all rows in (case_id, id) order. */
    method MigrateEventStream(fill: Filler<P>)
      modifies this
      ensures rows == Upgrade(old(rows), fill)
      ensures exists last :: Tracks(last, rows) && heads == old(heads) + last
    {
      var lastByCase: map<string, Head> := map[];
      ghost var before := rows;
      ghost var done: seq<Row<P>> := [];
      for i := 0 to |rows|
        invariant |rows| == |before| && heads == old(heads)
        invariant done == Upgrade(before[..i], fill) && rows == done + before[i..]
        invariant Tracks(lastByCase, done)
      {
        var row := rows[i];
        assert TracksCase(lastByCase, done, row.caseId);
        var last := if row.caseId in lastByCase then lastByCase[row.caseId] else Head(0, GENESIS);
        var filled := Fill(row, last, i, fill);
        UpgradeOneMore(before, i, fill);
        TracksOneMore(lastByCase, done, filled);
        UpdateAtFront(done, before, i, filled);
        if !Full(row) {
          rows := rows[i := filled];
        } else {
          FullRowFillsToItself(row, last, i, fill);
        }
        lastByCase := lastByCase[row.caseId := Head(filled.sequence.value, filled.hash.value)];
        done := done + [filled];
      }
      assert rows == done && before[..|rows|] == before;
      heads := heads + lastByCase;
    }
  }

  /** Appending one filled row extends its own case's stream by that event and no other stream. */
  lemma StreamOneMore<P>(done: seq<Row<P>>, filled: Row<P>, c: string)
    requires AllFull(done) && Full(filled)
    ensures AllFull(done + [filled])
    ensures StreamOf(done + [filled], c) == StreamOf(done, c) + OwnEvent(filled, c)
  {
    assert (done + [filled])[..|done|] == done;
  }

  /** A row's own columns agree with the place its case's stream gives it. */
  predicate FitsAt<P>(row: Row<P>, last: Head, i: nat, fill: Filler<P>) {
    && (row.sequence.Some? ==> row.sequence.value == last.sequence + 1)
    && (row.previous.Some? ==> row.previous.value == last.hash)
    && (row.hash.Some? ==> row.hash.value == fill.digest(EventOf(Fill(row, last, i, fill)).envelope))
  }

  /** No row of the case already carries a sequence, previous hash or hash that contradicts its place. */
  predicate Fits<P>(rows: seq<Row<P>>, c: string, fill: Filler<P>)
    decreases |rows|
  {
    rows == [] ||
    var n := |rows| - 1;
    && Fits(rows[..n], c, fill)
    && (rows[n].caseId == c ==> FitsAt(rows[n], Tip(StreamOf(Upgrade(rows[..n], fill), c)), n, fill))
  }

  /** A filled row continues its stream exactly when the columns it already had agree with its place. */
  lemma FittingRowIsLinked<P>(events: seq<Event<P>>, row: Row<P>, i: nat, fill: Filler<P>)
    requires Tip(events) == HeadOf(events)
    ensures var all := events + [EventOf(Fill(row, Tip(events), i, fill))];
      && (FitsAt(row, Tip(events), i, fill) <==> LinkedAt(all, fill.digest, |events|))
      && (FitsAt(row, Tip(events), i, fill) ==> Tip(all) == HeadOf(all))
  {
  }

  lemma {:induction false} ChainedIffRowsFit<P>(rows: seq<Row<P>>, c: string, fill: Filler<P>)
    ensures Chained(StreamOf(Upgrade(rows, fill), c), fill.digest) <==> Fits(rows, c, fill)
    ensures Fits(rows, c, fill) ==> Tip(StreamOf(Upgrade(rows, fill), c)) == HeadOf(StreamOf(Upgrade(rows, fill), c))
    decreases |rows|
  {
    if rows != [] {
      var n := |rows| - 1;
      var done := Upgrade(rows[..n], fill);
      var events := StreamOf(done, c);
      var filled := Fill(rows[n], Tip(StreamOf(done, rows[n].caseId)), n, fill);
      assert Upgrade(rows, fill) == done + [filled];
      ChainedIffRowsFit(rows[..n], c, fill);
      StreamOneMore(done, filled, c);
      assert StreamOf(Upgrade(rows, fill), c) == events + OwnEvent(filled, c);
      if rows[n].caseId == c {
        ChainedOneMore(events, EventOf(filled), fill.digest);
        if Fits(rows[..n], c, fill) { FittingRowIsLinked(events, rows[n], n, fill); }
      } else {
        assert events + OwnEvent(filled, c) == events;
      }
    }
  }

  lemma ChainedOneMore<P>(events: seq<Event<P>>, event: Event<P>, digest: Envelope<P> -> Hash)
    ensures Chained(events + [event], digest) <==>
      Chained(events, digest) && LinkedAt(events + [event], digest, |events|)
  {
    var all := events + [event];
    forall i | 0 <= i < |events| ensures LinkedAt(all, digest, i) == LinkedAt(events, digest, i) {}
  }

  // ---------------------------------------------------------------------------------------------------------------
  // What the query returns
  // ---------------------------------------------------------------------------------------------------------------

  function SequenceAt<P>(events: seq<Event<P>>, i: nat): int
    requires i < |events|
  {
    events[i].envelope.sequence
  }

  predicate Ascending<P>(events: seq<Event<P>>) {
    forall i, j :: 0 <= i < j < |events| ==> SequenceAt(events, i) < SequenceAt(events, j)
  }

  /** The rows of a case ordered by sequence, ties in any order. */
  ghost predicate Arranges<P>(read: seq<Event<P>>, stored: seq<Event<P>>) {
    && (forall i, j :: 0 <= i < j < |read| ==> SequenceAt(read, i) <= SequenceAt(read, j))
    && multiset(read) == multiset(stored)
  }

  lemma ChainedAscends<P>(events: seq<Event<P>>, digest: Envelope<P> -> Hash)
    requires Chained(events, digest)
    ensures Ascending(events)
  {
    forall i, j | 0 <= i < j < |events| ensures SequenceAt(events, i) < SequenceAt(events, j) {
      assert LinkedAt(events, digest, i) && LinkedAt(events, digest, j);
    }
  }

  lemma SameLast<P>(read: seq<Event<P>>, stored: seq<Event<P>>)
    requires Arranges(read, stored) && Ascending(stored) && stored != []
    ensures read != [] && read[|read| - 1] == stored[|stored| - 1]
  {
    var top := stored[|stored| - 1];
    assert top in multiset(read);
    var i :| 0 <= i < |read| && read[i] == top;
    var last := read[|read| - 1];
    assert last in multiset(stored);
    var j :| 0 <= j < |stored| && stored[j] == last;
    assert SequenceAt(read, i) <= SequenceAt(read, |read| - 1);
    assert j < |stored| - 1 ==> SequenceAt(stored, j) < SequenceAt(stored, |stored| - 1);
  }

  lemma DropLast<T>(s: seq<T>)
    requires s != []
    ensures multiset(s[..|s| - 1]) == multiset(s) - multiset{s[|s| - 1]}
  {
    assert s == s[..|s| - 1] + [s[|s| - 1]];
  }

  lemma WithoutLast<P>(read: seq<Event<P>>, stored: seq<Event<P>>)
    requires Arranges(read, stored) && Ascending(stored) && stored != [] && read != []
    requires read[|read| - 1] == stored[|stored| - 1]
    ensures Arranges(read[..|read| - 1], stored[..|stored| - 1]) && Ascending(stored[..|stored| - 1])
  {
    var a, b := read[..|read| - 1], stored[..|stored| - 1];
    DropLast(read);
    DropLast(stored);
    forall i, j | 0 <= i < j < |a| ensures SequenceAt(a, i) <= SequenceAt(a, j) {
      assert SequenceAt(read, i) <= SequenceAt(read, j);
    }
    forall i, j | 0 <= i < j < |b| ensures SequenceAt(b, i) < SequenceAt(b, j) {
      assert SequenceAt(stored, i) < SequenceAt(stored, j);
    }
  }

  /** Rows already in sequence order are read as they are stored. */
  lemma {:induction false} AscendingIsReadAsStored<P>(read: seq<Event<P>>, stored: seq<Event<P>>)
    requires Arranges(read, stored) && Ascending(stored)
    ensures read == stored
    decreases |stored|
  {
    if stored == [] {
      assert |multiset(read)| == |multiset(stored)|;
    } else {
      SameLast(read, stored);
      WithoutLast(read, stored);
      hide Arranges, Ascending;
      AscendingIsReadAsStored(read[..|read| - 1], stored[..|stored| - 1]);
      assert read == read[..|read| - 1] + [read[|read| - 1]];
      assert stored == stored[..|stored| - 1] + [stored[|stored| - 1]];
    }
  }

  /**
   None of a case's rows contradicted its place if and only if the case verifies after the migration and its rows
   stand in sequence order; `read` is what the query then returns.
   */
  lemma MigratedCaseVerifiesIffRowsFit<P>(rows: seq<Row<P>>, c: string, fill: Filler<P>, read: seq<Event<P>>)
    requires Arranges(read, StreamOf(Upgrade(rows, fill), c))
    ensures var stored := StreamOf(Upgrade(rows, fill), c);
      && (Fits(rows, c, fill) <==> Verify(read, fill.digest) == Intact && Ascending(stored))
      && (Fits(rows, c, fill) ==> read == stored && Tip(stored) == HeadOf(stored))
  {
    var stored := StreamOf(Upgrade(rows, fill), c);
    ChainedIffRowsFit(rows, c, fill);
    VerifyIsChained(read, fill.digest);
    if Fits(rows, c, fill) { ChainedAscends(stored, fill.digest); }
    if Ascending(stored) { AscendingIsReadAsStored(read, stored); }
  }

  lemma VerifyIsChained<P>(events: seq<Event<P>>, digest: Envelope<P> -> Hash)
    ensures Verify(events, digest) == Intact <==> Chained(events, digest)
  {
    if Chained(events, digest) {
      VerifyAccepts(events, digest, 0);
    } else {
      var i := FirstBreak(events, digest);
      VerifyFindsBreak(events, digest, 0, i);
    }
  }

  lemma FirstBreak<P>(events: seq<Event<P>>, digest: Envelope<P> -> Hash) returns (i: nat)
    requires !Chained(events, digest)
    ensures i < |events| && !LinkedAt(events, digest, i) && forall j :: 0 <= j < i ==> LinkedAt(events, digest, j)
  {
    i := 0;
    while LinkedAt(events, digest, i)
      invariant i < |events| && forall j :: 0 <= j < i ==> LinkedAt(events, digest, j)
      decreases |events| - i
    {
      if i == |events| - 1 { assert Chained(events, digest); }
      i := i + 1;
    }
  }

  /** Complete rows of a verified stream stored in another order go on verifying, although they do not fit. */
  lemma PermutedRowsVerify<P>(rows: seq<Row<P>>, c: string, fill: Filler<P>, read: seq<Event<P>>)
    requires AllFull(Own(rows, c)) && Arranges(read, StreamOf(Own(rows, c), c))
    requires Verify(read, fill.digest) == Intact && read != StreamOf(Own(rows, c), c)
    ensures Arranges(read, StreamOf(Upgrade(rows, fill), c)) && !Fits(rows, c, fill)
  {
    FullRowsAreKept(rows, c, fill);
    MigratedCaseVerifiesIffRowsFit(rows, c, fill, read);
  }

  /** The rows of one case. */
  function Own<P>(rows: seq<Row<P>>, c: string): seq<Row<P>>
    decreases |rows|
  {
    if rows == [] then []
    else
      var n := |rows| - 1;
      Own(rows[..n], c) + if rows[n].caseId == c then [rows[n]] else []
  }

  /** Complete rows keep their stream, whatever other cases need: nothing already recorded is rewritten. */
  lemma {:induction false} FullRowsAreKept<P>(rows: seq<Row<P>>, c: string, fill: Filler<P>)
    requires AllFull(Own(rows, c))
    ensures StreamOf(Upgrade(rows, fill), c) == StreamOf(Own(rows, c), c)
    decreases |rows|
  {
    if rows != [] {
      var n := |rows| - 1;
      var own, done := Own(rows[..n], c), Upgrade(rows[..n], fill);
      var filled := Fill(rows[n], Tip(StreamOf(done, rows[n].caseId)), n, fill);
      assert Upgrade(rows, fill) == done + [filled];
      assert own <= Own(rows, c);
      assert AllFull(own);
      FullRowsAreKept(rows[..n], c, fill);
      StreamOneMore(done, filled, c);
      assert StreamOf(Upgrade(rows, fill), c) == StreamOf(own, c) + OwnEvent(filled, c);
      if rows[n].caseId == c {
        assert Own(rows, c) == own + [rows[n]];
        assert Own(rows, c)[|own|] == rows[n];
        FullRowFillsToItself(rows[n], Tip(StreamOf(done, c)), n, fill);
        assert filled == rows[n];
        StreamOneMore(own, rows[n], c);
      } else {
        assert Own(rows, c) == own;
        assert OwnEvent(filled, c) == [];
      }
    }
  }

  /** The shape an upgrade meets: a verified stream so far, then rows with none of the five columns. */
  predicate ChainedThenBare<P>(rows: seq<Row<P>>, c: string, digest: Envelope<P> -> Hash, k: nat)
    requires k <= |rows|
  {
    && AllFull(Own(rows[..k], c)) && Chained(StreamOf(Own(rows[..k], c), c), digest)
    && forall i :: k <= i < |rows| && rows[i].caseId == c ==> Bare(rows[i])
  }

  lemma {:induction false} LegacyRowsFit<P>(rows: seq<Row<P>>, c: string, fill: Filler<P>, k: nat)
    requires k <= |rows| && ChainedThenBare(rows, c, fill.digest, k)
    ensures Fits(rows, c, fill)
    decreases |rows|
  {
    if k == |rows| {
      assert rows[..k] == rows;
      FullRowsAreKept(rows, c, fill);
      ChainedIffRowsFit(rows, c, fill);
    } else {
      var n := |rows| - 1;
      assert rows[..n][..k] == rows[..k];
      LegacyRowsFit(rows[..n], c, fill, k);
    }
  }

  /**
   A case of that shape verifies after the upgrade, its head is its last event, and its recorded rows are a prefix.
   */
  lemma LegacyCaseVerifies<P>(rows: seq<Row<P>>, c: string, fill: Filler<P>, k: nat, read: seq<Event<P>>)
    requires k <= |rows| && ChainedThenBare(rows, c, fill.digest, k)
    requires Arranges(read, StreamOf(Upgrade(rows, fill), c))
    ensures Verify(read, fill.digest) == Intact && Tip(StreamOf(Upgrade(rows, fill), c)) == HeadOf(read)
    ensures StreamOf(Own(rows[..k], c), c) <= read
  {
    LegacyRowsFit(rows, c, fill, k);
    MigratedCaseVerifiesIffRowsFit(rows, c, fill, read);
    FullRowsAreKept(rows[..k], c, fill);
    StreamsGrow(rows, c, fill, k);
  }

  lemma {:induction false} StreamIsOfCase<P>(rows: seq<Row<P>>, c: string)
    requires AllFull(rows)
    ensures forall i :: 0 <= i < |StreamOf(rows, c)| ==> StreamOf(rows, c)[i].envelope.caseId == c
    decreases |rows|
  {
    if rows != [] { StreamIsOfCase(rows[..|rows| - 1], c); }
  }

  /** A migrated case then takes appends from racing sessions like any other: its stream keeps verifying. */
  lemma MigratedStreamKeepsGrowing<P>(rows: seq<Row<P>>, c: string, fill: Filler<P>, k: nat, acts: seq<Act<P>>)
    requires k <= |rows| && ChainedThenBare(rows, c, fill.digest, k)
    ensures var events := StreamOf(Upgrade(rows, fill), c);
      var s := DoAll(Stream(events, Tip(events), map[]), c, fill.digest, acts);
      Verify(s.events, fill.digest) == Intact && events <= s.events && s.head == HeadOf(s.events)
  {
    var events := StreamOf(Upgrade(rows, fill), c);
    var start: Stream<P> := Stream(events, Tip(events), map[]);
    LegacyRowsFit(rows, c, fill, k);
    ChainedIffRowsFit(rows, c, fill);
    StreamIsOfCase(Upgrade(rows, fill), c);
    StreamAlwaysChained(start, c, fill.digest, acts);
    VerifyAccepts(DoAll(start, c, fill.digest, acts).events, fill.digest, 0);
  }

  lemma {:induction false} StreamsGrow<P>(rows: seq<Row<P>>, c: string, fill: Filler<P>, k: nat)
    requires k <= |rows|
    ensures StreamOf(Upgrade(rows[..k], fill), c) <= StreamOf(Upgrade(rows, fill), c)
    decreases |rows|
  {
    hide Fill, Tip, Upgrade;
    if k == |rows| {
      assert rows[..k] == rows;
    } else {
      var n := |rows| - 1;
      assert rows[..n][..k] == rows[..k];
      StreamsGrow(rows[..n], c, fill, k);
      var done := Upgrade(rows[..n], fill);
      var filled := Fill(rows[n], Tip(StreamOf(done, rows[n].caseId)), n, fill);
      UpgradeOneMore(rows, n, fill);
      assert rows[..n + 1] == rows;
      StreamOneMore(done, filled, c);
      assert StreamOf(Upgrade(rows, fill), c) == StreamOf(done, c) + OwnEvent(filled, c);
    }
  }

  lemma TracksIsUnique<P>(a: map<string, Head>, b: map<string, Head>, done: seq<Row<P>>)
    requires AllFull(done) && Tracks(a, done) && Tracks(b, done)
    ensures a == b
  {
    forall c: string ensures (c in a <==> c in b) && (c in a ==> a[c] == b[c]) {
      assert TracksCase(a, done, c) && TracksCase(b, done, c);
    }
  }

  /**
   A second run rewrites no row, so it never meets the append-only trigger the first one installed, and no head;
   `first` and `second` are what the runs upsert.
   */
  lemma SecondRunChangesNothing<P>(rows: seq<Row<P>>, heads: map<string, Head>, fill: Filler<P>, again: Filler<P>,
                                   first: map<string, Head>, second: map<string, Head>)
    requires Tracks(first, Upgrade(rows, fill)) && Tracks(second, Upgrade(Upgrade(rows, fill), again))
    ensures Upgrade(Upgrade(rows, fill), again) == Upgrade(rows, fill)
    ensures heads + first + second == heads + first
  {
    CompleteRowsStay(Upgrade(rows, fill), again);
    TracksIsUnique(first, second, Upgrade(rows, fill));
  }

  lemma {:induction false} CompleteRowsStay<P>(rows: seq<Row<P>>, fill: Filler<P>)
    requires AllFull(rows)
    ensures Upgrade(rows, fill) == rows
    decreases |rows|
  {
    if rows != [] { CompleteRowsStay(rows[..|rows| - 1], fill); }
  }
}
