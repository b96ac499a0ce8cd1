/**
 The live tables against the fold over the recorded facts: for every sequence of repository operations the two
 agree up to lapsed deadlines, and what rebuilding restores depends on the facts alone.
 */
module Rebuild {
  import opened Prelude
  import opened Outcomes
  import opened Claims
  import opened Ledger

  predicate Distinct(ids: seq<nat>) {
    forall i, j :: 0 <= i < j < |ids| ==> ids[i] != ids[j]
  }

  /** What the fold knows about a deadline: it has no branch for the lapse event. */
  function Unlapsed(d: Deadline): Deadline {
    if d.status == OVERDUE then d.(status := PENDING) else d
  }

  function Unlapse(deadlines: map<string, Deadline>): map<string, Deadline> {
    map k | k in deadlines :: Unlapsed(deadlines[k])
  }

  /**
   What an operation needs from its surroundings: a start gets an id no row had before (RowIds), a completion lands on
   the execution its id was issued for, and the money-moved event follows the case row, as the engine writes them.
   */
  predicate Legal(l: Ledger, op: Op) {
    match op
    case StartExecution(id, _) => id !in l.ids && id !in Started(l.facts)
    case CompleteExecution(id, completion) => Lands(l, id, completion)
    case RecordMoneyMoved => l.dispute.Some? ==> l.dispute.value.moneyMoved
    case Rebuild(ids) => Distinct(ids)
    case _ => true
  }

  /**
   The row with this id is gone, and the call raises; or it is the execution whose start event recorded the id; or
   both executions the id stands for were completed exactly so before.
   */
  predicate Lands(l: Ledger, id: nat, completion: Completion) {
    var row, start := Find(l.ids, id), Find(Started(l.facts), id);
    || row.None?
    || start == row
    || (start.Some? && CompletedAs(l, row.value, completion) && CompletedAs(l, start.value, completion))
  }

  predicate CompletedAs(l: Ledger, i: nat, completion: Completion) {
    i < |l.executions| && l.executions[i].completion == Some(completion)
  }

  /** The execution ids the start events recorded, in order. */
  function Started(facts: seq<Fact>): seq<nat> {
    if facts == [] then []
    else
      var n := |facts| - 1;
      Started(facts[..n]) + if facts[n].ExecutionStarted? then [facts[n].id] else []
  }

  predicate AllLegal(l: Ledger, ops: seq<Op>)
    decreases |ops|
  {
    ops == [] || (AllLegal(l, ops[..|ops| - 1]) && Legal(Run(l, ops[..|ops| - 1]), ops[|ops| - 1]))
  }

  // ---------------------------------------------------------------------------------------------------------------
  // The fold
  // ---------------------------------------------------------------------------------------------------------------

  lemma FoldAppend(anchor: CaseRow, facts: seq<Fact>, fact: Fact)
    ensures var rest := Fold(anchor, facts);
      Fold(anchor, facts + [fact]) == if rest.Err? then rest else Apply(rest.value, fact)
    ensures Started(facts + [fact]) == Started(facts) + if fact.ExecutionStarted? then [fact.id] else []
  {
    assert (facts + [fact])[..|facts|] == facts;
  }

  /** Starting from a case row left in any state gives the same tables once the first event is CASE_CREATED. */
  lemma {:induction false} FoldIgnoresAnchor(a: CaseRow, b: CaseRow, facts: seq<Fact>)
    requires facts != [] && facts[0].CaseCreated?
    ensures Fold(a, facts) == Fold(b, facts)
    decreases |facts|
  {
    var n := |facts| - 1;
    if n > 0 {
      FoldIgnoresAnchor(a, b, facts[..n]);
    } else {
      assert facts[..n] == [];
    }
  }

  lemma LapseFolds(anchor: CaseRow, facts: seq<Fact>, kind: string)
    ensures Fold(anchor, facts + [DeadlineLapsed(kind)]) == Fold(anchor, facts)
    ensures Started(facts + [DeadlineLapsed(kind)]) == Started(facts)
  {
    FoldAppend(anchor, facts, DeadlineLapsed(kind));
  }

  lemma {:induction false} LapsesFoldToNothing(anchor: CaseRow, facts: seq<Fact>, order: seq<string>,
                                               deadlines: map<string, Deadline>, now: Instant)
    ensures Fold(anchor, facts + LapsedFacts(order, deadlines, now)) == Fold(anchor, facts)
    ensures Started(facts + LapsedFacts(order, deadlines, now)) == Started(facts)
    decreases |order|
  {
    hide Fold, Started, Lapses;
    if order == [] {
      assert facts + [] == facts;
    } else {
      var n := |order| - 1;
      var before := LapsedFacts(order[..n], deadlines, now);
      LapsesFoldToNothing(anchor, facts, order[..n], deadlines, now);
      if order[n] in deadlines && Lapses(deadlines[order[n]], now) {
        LapseFolds(anchor, facts + before, order[n]);
        assert facts + LapsedFacts(order, deadlines, now) == (facts + before) + [DeadlineLapsed(order[n])];
      } else {
        assert LapsedFacts(order, deadlines, now) == before;
      }
    }
  }

  lemma {:induction false} SourcesAreStarted(anchor: CaseRow, facts: seq<Fact>)
    requires Fold(anchor, facts).Ok?
    ensures Fold(anchor, facts).value.sources == Started(facts)
    decreases |facts|
  {
    if facts != [] {
      SourcesAreStarted(anchor, facts[..|facts| - 1]);
    }
  }

  /** The fact changes a row that another fact has to have created. */
  predicate NeedsRow(f: Fact) {
    f.ExecutionCompleted? || f.IntentCommitted? || f.ClaimTransitioned? || f.DeadlineResolved?
    || f.ObligationActivated? || f.ObligationSatisfied?
  }

  predicate Creates(g: Fact, f: Fact) {
    || (g.ExecutionStarted? && f.ExecutionCompleted? && g.id == f.id)
    || (g.IntentStaged? && f.IntentCommitted? && g.key == f.key)
    || (g.EffectClaimed? && f.ClaimTransitioned? && g.key == f.key)
    || (g.DeadlineCreated? && f.DeadlineResolved? && g.kind == f.kind)
    || (g.ObligationCreated? && (f.ObligationActivated? || f.ObligationSatisfied?) && g.kind == f.kind)
  }

  predicate Sourced(facts: seq<Fact>, f: Fact) {
    exists j :: 0 <= j < |facts| && Creates(facts[j], f)
  }

  /** The tables under reconstruction have the row the fact changes. */
  predicate HasRow(p: Projection, f: Fact)
    requires NeedsRow(f)
  {
    match f
    case ExecutionCompleted(id, _) => id in p.sources
    case IntentCommitted(key) => key in p.tables.intents
    case ClaimTransitioned(key, _, _) => key in p.tables.claims
    case DeadlineResolved(kind, _) => kind in p.tables.deadlines
    case ObligationActivated(kind, _) => kind in p.tables.obligations
    case ObligationSatisfied(kind, _) => kind in p.tables.obligations
  }

  lemma ApplyCreates(p: Projection, fact: Fact, f: Fact)
    requires |p.sources| == |p.tables.executions| && Apply(p, fact).Ok? && NeedsRow(f)
    ensures HasRow(Apply(p, fact).value, f) <==> HasRow(p, f) || Creates(fact, f)
  {
  }

  lemma ApplyRefuses(p: Projection, fact: Fact)
    requires |p.sources| == |p.tables.executions|
    ensures Apply(p, fact).Err? <==> NeedsRow(fact) && !HasRow(p, fact)
  {
  }

  lemma {:induction false} FoldHasRows(anchor: CaseRow, facts: seq<Fact>, f: Fact)
    requires Fold(anchor, facts).Ok? && NeedsRow(f)
    ensures HasRow(Fold(anchor, facts).value, f) <==> Sourced(facts, f)
    decreases |facts|
  {
    hide Apply, HasRow, Creates;
    if facts == [] {
      NothingHasRows(anchor, f);
    } else {
      var n := |facts| - 1;
      FoldHasRows(anchor, facts[..n], f);
      ApplyCreates(Fold(anchor, facts[..n]).value, facts[n], f);
      SourcedOneMore(facts, f);
    }
  }

  lemma NothingHasRows(anchor: CaseRow, f: Fact)
    requires NeedsRow(f)
    ensures !HasRow(Blank(anchor), f)
  {
  }

  lemma SourcedOneMore(facts: seq<Fact>, f: Fact)
    requires facts != []
    ensures Sourced(facts, f) <==> Sourced(facts[..|facts| - 1], f) || Creates(facts[|facts| - 1], f)
  {
    var n := |facts| - 1;
    if Sourced(facts[..n], f) {
      var j :| 0 <= j < n && Creates(facts[..n][j], f);
      assert Creates(facts[j], f);
    }
    if Sourced(facts, f) {
      var j :| 0 <= j < |facts| && Creates(facts[j], f);
      if j < n { assert Creates(facts[..n][j], f); }
    }
  }

  /** Folding refuses exactly the histories in which a fact changes a row no earlier fact created. */
  lemma {:induction false} FoldRefusesExactly(anchor: CaseRow, facts: seq<Fact>)
    ensures Fold(anchor, facts).Ok? <==>
      forall i :: 0 <= i < |facts| && NeedsRow(facts[i]) ==> Sourced(facts[..i], facts[i])
    decreases |facts|
  {
    if facts != [] {
      var n := |facts| - 1;
      FoldRefusesExactly(anchor, facts[..n]);
      assert forall i :: 0 <= i < n ==> facts[..n][..i] == facts[..i] && facts[..n][i] == facts[i];
      if Fold(anchor, facts[..n]).Ok? {
        ApplyRefuses(Fold(anchor, facts[..n]).value, facts[n]);
        if NeedsRow(facts[n]) { FoldHasRows(anchor, facts[..n], facts[n]); }
      }
    }
  }

  // ---------------------------------------------------------------------------------------------------------------
  // The invariant
  // ---------------------------------------------------------------------------------------------------------------

  /** The facts fold to the live tables, deadlines unlapsed. */
  predicate Agrees(l: Ledger) {
    && l.dispute.Some? && l.facts != [] && l.facts[0].CaseCreated?
    && var folded := Fold(l.dispute.value, l.facts);
    && folded.Ok?
    && folded.value.tables == TablesOf(l).(deadlines := Unlapse(l.deadlines))
    && Distinct(l.ids) && Distinct(Started(l.facts))
  }

  lemma AgreesAfter(l: Ledger, next: Ledger, fact: Fact)
    requires Agrees(l) && next.dispute.Some? && next.facts == l.facts + [fact]
    requires Distinct(next.ids)
    requires fact.ExecutionStarted? ==> fact.id !in Started(l.facts)
    requires var applied := Apply(Fold(l.dispute.value, l.facts).value, fact);
      applied.Ok? && applied.value.tables == TablesOf(next).(deadlines := Unlapse(next.deadlines))
    ensures Agrees(next)
  {
    FoldAppend(l.dispute.value, l.facts, fact);
    FoldIgnoresAnchor(l.dispute.value, next.dispute.value, next.facts);
  }

  lemma CreationAgrees(member: string, procedure: string, amount: Cents, currency: string)
    ensures Agrees(Exec(EMPTY, CreateCase(member, procedure, amount, currency)))
  {
    hide Fold, Started;
    var row := CaseRow(member, procedure, amount, currency, "RECEIVED", false);
    var l := Exec(EMPTY, CreateCase(member, procedure, amount, currency));
    assert l == EMPTY.(dispute := Some(row), facts := [CaseCreated(row)]);
    FirstFactFolds(row);
    assert Unlapse(l.deadlines) == map[];
  }

  lemma FirstFactFolds(row: CaseRow)
    ensures Fold(row, [CaseCreated(row)]) == Ok(Blank(row)) && Started([CaseCreated(row)]) == []
  {
    FoldAppend(row, [], CaseCreated(row));
    assert [] + [CaseCreated(row)] == [CaseCreated(row)];
  }

  lemma CaseOpAgrees(l: Ledger, op: Op)
    requires Agrees(l) && Legal(l, op)
    requires op.UpdateStatus? || op.RecordMoneyMoved? || op.RecordNote?
    ensures Agrees(Exec(l, op))
  {
    var next := Exec(l, op);
    AgreesAfter(l, next, next.facts[|l.facts|]);
  }

  lemma ExecutionOpAgrees(l: Ledger, op: Op)
    requires Agrees(l) && Legal(l, op) && (op.StartExecution? || op.CompleteExecution?)
    ensures Agrees(Exec(l, op))
  {
    var next := Exec(l, op);
    SourcesAreStarted(l.dispute.value, l.facts);
    if next != l {
      AgreesAfter(l, next, next.facts[|l.facts|]);
    }
  }

  lemma IntentOpAgrees(l: Ledger, op: Op)
    requires Agrees(l) && (op.StageIntent? || op.MarkIntentCommitted?)
    ensures Agrees(Exec(l, op))
  {
    var next := Exec(l, op);
    if next.facts != l.facts {
      AgreesAfter(l, next, next.facts[|l.facts|]);
    }
  }

  lemma ClaimAgrees(l: Ledger, op: Op)
    requires Agrees(l) && op.ClaimEffect?
    ensures Agrees(Exec(l, op))
  {
    var next := Exec(l, op);
    if next.facts != l.facts {
      AgreesAfter(l, next, next.facts[|l.facts|]);
    }
  }

  lemma TransitionAgrees(l: Ledger, op: Op)
    requires Agrees(l) && op.TransitionClaim?
    ensures Agrees(Exec(l, op))
  {
    var next := Exec(l, op);
    if next.facts != l.facts {
      AgreesAfter(l, next, next.facts[|l.facts|]);
    }
  }

  lemma ObligationCreationAgrees(l: Ledger, op: Op)
    requires Agrees(l) && op.CreateObligation?
    ensures Agrees(Exec(l, op))
  {
    var next := Exec(l, op);
    if next.facts != l.facts {
      AgreesAfter(l, next, next.facts[|l.facts|]);
    }
  }

  lemma ActivationAgrees(l: Ledger, op: Op)
    requires Agrees(l) && op.ActivateObligation?
    ensures Agrees(Exec(l, op))
  {
    var next := Exec(l, op);
    if next.facts != l.facts {
      AgreesAfter(l, next, next.facts[|l.facts|]);
    }
  }

  lemma SatisfactionAgrees(l: Ledger, op: Op)
    requires Agrees(l) && op.SatisfyObligation?
    ensures Agrees(Exec(l, op))
  {
    var next := Exec(l, op);
    if next.facts != l.facts {
      AgreesAfter(l, next, next.facts[|l.facts|]);
    }
  }

  lemma DeadlineCreationAgrees(l: Ledger, op: Op)
    requires Agrees(l) && op.CreateDeadline?
    ensures Agrees(Exec(l, op))
  {
    var next := Exec(l, op);
    if next.facts != l.facts {
      UnlapseUpdate(l.deadlines, op.kind, next.deadlines[op.kind]);
      AgreesAfter(l, next, next.facts[|l.facts|]);
    }
  }

  lemma ResolutionAgrees(l: Ledger, op: Op)
    requires Agrees(l) && op.ResolveDeadline?
    ensures Agrees(Exec(l, op))
  {
    var next := Exec(l, op);
    if next.facts != l.facts {
      UnlapseUpdate(l.deadlines, op.kind, next.deadlines[op.kind]);
      AgreesAfter(l, next, next.facts[|l.facts|]);
    }
  }

  lemma UnlapseUpdate(deadlines: map<string, Deadline>, k: string, d: Deadline)
    ensures Unlapse(deadlines[k := d]) == Unlapse(deadlines)[k := Unlapsed(d)]
  {
  }

  lemma OverdueAgrees(l: Ledger, now: Instant)
    requires Agrees(l)
    ensures Agrees(Exec(l, MarkOverdue(now)))
  {
    LapsesFoldToNothing(l.dispute.value, l.facts, l.order, l.deadlines, now);
    assert Unlapse(Lapse(l.deadlines, now)) == Unlapse(l.deadlines);
  }

  lemma RebuildAgrees(l: Ledger, ids: seq<nat>)
    requires Agrees(l) && Distinct(ids)
    ensures Agrees(Exec(l, Rebuild(ids)))
  {
    hide Fold;
    var next := Exec(l, Rebuild(ids));
    FoldIgnoresAnchor(l.dispute.value, next.dispute.value, l.facts);
    assert Unlapse(Unlapse(l.deadlines)) == Unlapse(l.deadlines);
  }

  lemma StepAgrees(l: Ledger, op: Op)
    requires Agrees(l) && Legal(l, op)
    ensures Agrees(Exec(l, op))
  {
    match op
    case CreateCase(_, _, _, _) =>
    case UpdateStatus(_, _) => CaseOpAgrees(l, op);
    case RecordMoneyMoved => CaseOpAgrees(l, op);
    case RecordNote(_) => CaseOpAgrees(l, op);
    case StartExecution(_, _) => ExecutionOpAgrees(l, op);
    case CompleteExecution(_, _) => ExecutionOpAgrees(l, op);
    case StageIntent(_, _, _) => IntentOpAgrees(l, op);
    case MarkIntentCommitted(_) => IntentOpAgrees(l, op);
    case ClaimEffect(_, _, _, _, _) => ClaimAgrees(l, op);
    case TransitionClaim(_, _, _, _, _, _) => TransitionAgrees(l, op);
    case CreateDeadline(_, _) => DeadlineCreationAgrees(l, op);
    case ResolveDeadline(_, _) => ResolutionAgrees(l, op);
    case MarkOverdue(now) => OverdueAgrees(l, now);
    case CreateObligation(_, _, _) => ObligationCreationAgrees(l, op);
    case ActivateObligation(_, _) => ActivationAgrees(l, op);
    case SatisfyObligation(_, _) => SatisfactionAgrees(l, op);
    case Rebuild(ids) => RebuildAgrees(l, ids);
  }

  lemma {:induction false} RunAgrees(l: Ledger, ops: seq<Op>)
    requires Agrees(l) && AllLegal(l, ops)
    ensures Agrees(Run(l, ops))
    decreases |ops|
  {
    if ops != [] {
      RunAgrees(l, ops[..|ops| - 1]);
      StepAgrees(Run(l, ops[..|ops| - 1]), ops[|ops| - 1]);
    }
  }

  // ---------------------------------------------------------------------------------------------------------------
  // Main results
  // ---------------------------------------------------------------------------------------------------------------

  /** No clock handed to `mark_overdue_deadlines` was later than `now`. */
  predicate MarkedBy(ops: seq<Op>, now: Instant) {
    forall i :: 0 <= i < |ops| && ops[i].MarkOverdue? ==> ops[i].now <= now
  }

  predicate OverdueIsDue(l: Ledger, now: Instant) {
    forall k :: k in l.deadlines && l.deadlines[k].status == OVERDUE ==> l.deadlines[k].dueAt <= now
  }

  predicate NothingOverdue(l: Ledger) {
    forall k :: k in l.deadlines ==> l.deadlines[k].status != OVERDUE
  }

  lemma StepOverdueIsDue(l: Ledger, op: Op, now: Instant)
    requires Agrees(l) && OverdueIsDue(l, now) && (op.MarkOverdue? ==> op.now <= now)
    ensures OverdueIsDue(Exec(l, op), now)
  {
    hide Fold, Find;
  }

  lemma {:induction false} RunOverdueIsDue(l: Ledger, ops: seq<Op>, now: Instant)
    requires Agrees(l) && AllLegal(l, ops) && OverdueIsDue(l, now) && MarkedBy(ops, now)
    ensures OverdueIsDue(Run(l, ops), now)
    decreases |ops|
  {
    if ops != [] {
      var n := |ops| - 1;
      RunAgrees(l, ops[..n]);
      RunOverdueIsDue(l, ops[..n], now);
      StepOverdueIsDue(Run(l, ops[..n]), ops[n], now);
    }
  }

  /**
   The facts of any run rebuild to its live tables once lapsed deadlines are marked at one clock on both sides, and
   to exactly the live tables if and only if no deadline stands OVERDUE.
   */
  lemma RebuildEqualsLive(member: string, procedure: string, amount: Cents, currency: string, ops: seq<Op>,
                          now: Instant)
    requires AllLegal(Exec(EMPTY, CreateCase(member, procedure, amount, currency)), ops) && MarkedBy(ops, now)
    ensures var l := Run(Exec(EMPTY, CreateCase(member, procedure, amount, currency)), ops);
      && l.dispute.Some? && Rebuilt(l.dispute, l.facts).Ok?
      && var t := Rebuilt(l.dispute, l.facts).value.tables;
      && t.(deadlines := Lapse(t.deadlines, now)) == TablesOf(l).(deadlines := Lapse(l.deadlines, now))
      && (t == TablesOf(l) <==> NothingOverdue(l))
  {
    var start := Exec(EMPTY, CreateCase(member, procedure, amount, currency));
    CreationAgrees(member, procedure, amount, currency);
    RunAgrees(start, ops);
    RunOverdueIsDue(start, ops, now);
    LapseForgetsUnlapse(Run(start, ops), now);
  }

  lemma LapseForgetsUnlapse(l: Ledger, now: Instant)
    requires OverdueIsDue(l, now)
    ensures Lapse(Unlapse(l.deadlines), now) == Lapse(l.deadlines, now)
    ensures Unlapse(l.deadlines) == l.deadlines <==> NothingOverdue(l)
  {
    if Unlapse(l.deadlines) == l.deadlines {
      forall k | k in l.deadlines ensures l.deadlines[k].status != OVERDUE {
        assert Unlapse(l.deadlines)[k] == l.deadlines[k];
      }
    } else {
      var k :| k in l.deadlines && Unlapse(l.deadlines)[k] != l.deadlines[k];
    }
  }

  /** Rebuilding again changes nothing but the allocated row ids, and never adds history. */
  lemma RebuildTwiceIsOnce(l: Ledger, a: seq<nat>, b: seq<nat>)
    requires Rebuilt(l.dispute, l.facts).Ok? && |a| == |Rebuilt(l.dispute, l.facts).value.sources| == |b|
    ensures Exec(Exec(l, Rebuild(a)), Rebuild(b)) == Exec(l, Rebuild(b))
    ensures Exec(l, Rebuild(a)).facts == l.facts && Exec(l, Rebuild(a)).(ids := b) == Exec(l, Rebuild(b))
  {
    FoldIgnoresAnchor(l.dispute.value, Exec(l, Rebuild(a)).dispute.value, l.facts);
  }

  /** Whatever happened to the tables, rebuilding restores what the facts say, provided the case row survives. */
  lemma RebuildRestoresDestroyedTables(l: Ledger, wrecked: Ledger, ids: seq<nat>)
    requires Rebuilt(l.dispute, l.facts).Ok? && |ids| == |Rebuilt(l.dispute, l.facts).value.sources|
    requires wrecked.facts == l.facts
    ensures Exec(wrecked, Rebuild(ids)) == if wrecked.dispute.Some? then Exec(l, Rebuild(ids)) else wrecked
  {
    if wrecked.dispute.Some? {
      FoldIgnoresAnchor(l.dispute.value, wrecked.dispute.value, l.facts);
    }
  }

  lemma StepAppends(l: Ledger, op: Op)
    ensures l.facts <= Exec(l, op).facts
  {
  }

  lemma {:induction false} HistoryIsAppendOnly(l: Ledger, ops: seq<Op>)
    ensures l.facts <= Run(l, ops).facts
    decreases |ops|
  {
    if ops != [] {
      HistoryIsAppendOnly(l, ops[..|ops| - 1]);
      StepAppends(Run(l, ops[..|ops| - 1]), ops[|ops| - 1]);
    }
  }

  lemma StepKeepsMoneyMoved(l: Ledger, op: Op)
    requires Agrees(l) && Legal(l, op) && l.dispute.value.moneyMoved
    ensures Exec(l, op).dispute.Some? && Exec(l, op).dispute.value.moneyMoved
  {
  }

  /** Once the case row says money moved, nothing, rebuilding included, takes it back. */
  lemma {:induction false} MoneyMovedIsNeverForgotten(l: Ledger, ops: seq<Op>)
    requires Agrees(l) && AllLegal(l, ops) && l.dispute.value.moneyMoved
    ensures Run(l, ops).dispute.Some? && Run(l, ops).dispute.value.moneyMoved
    decreases |ops|
  {
    if ops != [] {
      MoneyMovedIsNeverForgotten(l, ops[..|ops| - 1]);
      RunAgrees(l, ops[..|ops| - 1]);
      StepKeepsMoneyMoved(Run(l, ops[..|ops| - 1]), ops[|ops| - 1]);
    }
  }

  // ---------------------------------------------------------------------------------------------------------------
  // Where the fold and the tables part
  // ---------------------------------------------------------------------------------------------------------------

  /** Completing keeps rebuilt and live tables equal exactly when it lands on the execution the id was issued for. */
  lemma CompletionAgreesExactly(l: Ledger, id: nat, completion: Completion)
    requires Agrees(l)
    ensures Agrees(Exec(l, CompleteExecution(id, completion))) <==> Lands(l, id, completion)
  {
    if Lands(l, id, completion) {
      ExecutionOpAgrees(l, CompleteExecution(id, completion));
    } else if Find(Started(l.facts), id).None? {
      StaleExecutionIdBreaksRebuild(l, id, completion, []);
    } else {
      ReissuedIdMisdirectsCompletion(l, id, completion);
    }
  }

  /** The event alone marks the rebuilt case row: it agrees with the live one exactly when that was marked before. */
  lemma MoneyEventAgreesExactly(l: Ledger)
    requires Agrees(l)
    ensures var next := Exec(l, RecordMoneyMoved);
      && next.dispute == l.dispute
      && Rebuilt(next.dispute, next.facts).Ok?
      && Rebuilt(next.dispute, next.facts).value.tables.dispute == l.dispute.value.(moneyMoved := true)
      && (Agrees(next) <==> l.dispute.value.moneyMoved)
  {
    FoldAppend(l.dispute.value, l.facts, MoneyMoved);
    if l.dispute.value.moneyMoved { CaseOpAgrees(l, RecordMoneyMoved); }
  }

  /** The id was re-issued to another execution: the row completed is not the one whose start the rebuild completes. */
  lemma ReissuedIdMisdirectsCompletion(l: Ledger, id: nat, completion: Completion)
    requires Agrees(l) && !Lands(l, id, completion) && id in Started(l.facts)
    ensures var next := Exec(l, CompleteExecution(id, completion));
      && Rebuilt(next.dispute, next.facts).Ok?
      && Rebuilt(next.dispute, next.facts).value.tables.executions != next.executions
  {
    var i, j := Find(l.ids, id).value, Find(Started(l.facts), id).value;
    var next := Exec(l, CompleteExecution(id, completion));
    SourcesAreStarted(l.dispute.value, l.facts);
    FoldAppend(l.dispute.value, l.facts, ExecutionCompleted(id, completion));
    var rebuilt := Rebuilt(next.dispute, next.facts).value.tables.executions;
    assert rebuilt == l.executions[j := l.executions[j].(completion := Some(completion))];
    assert next.executions == l.executions[i := l.executions[i].(completion := Some(completion))];
    assert rebuilt[i] != next.executions[i] || rebuilt[j] != next.executions[j];
  }

  /** Completing a row by an id no start event recorded makes every later rebuild refuse, whatever else happens. */
  lemma StaleExecutionIdBreaksRebuild(l: Ledger, id: nat, completion: Completion, ops: seq<Op>)
    requires Agrees(l) && id in l.ids && id !in Started(l.facts)
    ensures var later := Run(Exec(l, CompleteExecution(id, completion)), ops);
      Rebuilt(later.dispute, later.facts) == Err(NoStartEvent(id))
  {
    var next := Exec(l, CompleteExecution(id, completion));
    SourcesAreStarted(l.dispute.value, l.facts);
    FoldAppend(l.dispute.value, l.facts, ExecutionCompleted(id, completion));
    RefusalIsFinal(next, ops, NoStartEvent(id));
  }

  lemma StepKeepsCase(l: Ledger, op: Op)
    requires l.dispute.Some?
    ensures Exec(l, op).dispute.Some?
  {
  }

  /** A history that does not fold never folds again. */
  lemma {:induction false} RefusalIsFinal(l: Ledger, ops: seq<Op>, error: IntegrityError)
    requires l.dispute.Some? && l.facts != [] && l.facts[0].CaseCreated? && Fold(l.dispute.value, l.facts) == Err(error)
    ensures var later := Run(l, ops);
      && later.dispute.Some? && later.facts != [] && later.facts[0].CaseCreated?
      && Fold(later.dispute.value, later.facts) == Err(error)
    decreases |ops|
  {
    if ops != [] {
      var before, op := Run(l, ops[..|ops| - 1]), ops[|ops| - 1];
      RefusalIsFinal(l, ops[..|ops| - 1], error);
      StepKeepsCase(before, op);
      StepAppends(before, op);
      var later := Exec(before, op);
      FoldIgnoresAnchor(before.dispute.value, later.dispute.value, before.facts);
      assert later.facts[..|before.facts|] == before.facts;
      ErrorsStick(later.dispute.value, later.facts, |before.facts|);
    }
  }

  /** Two executions under ids 1 and 3, rebuilt under 3 and 4: what a worker still holding 3 completes. */
  function MisdirectingRun(first: Opening, second: Opening, completion: Completion): seq<Op> {
    [StartExecution(1, first), StartExecution(3, second), Rebuild([3, 4]), CompleteExecution(3, completion)]
  }

  /**
   The ids are the ones the database gives when a row of another case holds 2 (RowIds.RebuildMayReissue). The worker
   that started the second execution completes the first; the next rebuild succeeds and moves the completion over.
   */
  lemma RebuildWhileRunningMisdirects(l: Ledger, first: Opening, second: Opening, completion: Completion)
    requires Agrees(l) && l.executions == [] && l.ids == [] && Started(l.facts) == []
    ensures var next := Run(l, MisdirectingRun(first, second, completion));
      && next.executions == [Execution(first, Some(completion)), Execution(second, None)]
      && Rebuilt(next.dispute, next.facts).Ok?
      && Rebuilt(next.dispute, next.facts).value.tables.executions
           == [Execution(first, None), Execution(second, Some(completion))]
  {
    var l2 := Exec(Exec(l, StartExecution(1, first)), StartExecution(3, second));
    TwoStarted(l, first, second);
    RebuiltUnder(l2, [3, 4]);
    MisdirectedCompletion(Exec(l2, Rebuild([3, 4])), first, second, completion);
    var ops := MisdirectingRun(first, second, completion);
    RunFour(l, ops);
    assert Run(l, ops) == Exec(Exec(l2, Rebuild([3, 4])), CompleteExecution(3, completion));
  }

  lemma TwoStarted(l: Ledger, first: Opening, second: Opening)
    requires Agrees(l) && l.executions == [] && l.ids == [] && Started(l.facts) == []
    ensures var l2 := Exec(Exec(l, StartExecution(1, first)), StartExecution(3, second));
      && Agrees(l2) && l2.ids == [1, 3] && Started(l2.facts) == [1, 3]
      && l2.executions == [Execution(first, None), Execution(second, None)]
  {
    hide Exec, Fold, Started, Find;
    var l1 := Exec(l, StartExecution(1, first));
    StepAgrees(l, StartExecution(1, first));
    StartEffect(l, 1, first);
    assert l1.ids == [1] && Started(l1.facts) == [1];
    StepAgrees(l1, StartExecution(3, second));
    StartEffect(l1, 3, second);
  }

  lemma RebuiltUnder(l: Ledger, ids: seq<nat>)
    requires Agrees(l) && |ids| == |l.ids| && Distinct(ids)
    ensures var next := Exec(l, Rebuild(ids));
      Agrees(next) && next.ids == ids && next.executions == l.executions && next.facts == l.facts
  {
    RebuildAgrees(l, ids);
  }

  lemma FindInPairs()
    ensures Find([3, 4], 3) == Some(0) && Find([1, 3], 3) == Some(1)
  {
    assert [3, 4][..1] == [3];
    assert Find([3], 3) == Some(0);
  }

  lemma MisdirectedCompletion(l: Ledger, first: Opening, second: Opening, completion: Completion)
    requires Agrees(l) && l.executions == [Execution(first, None), Execution(second, None)]
    requires l.ids == [3, 4] && Started(l.facts) == [1, 3]
    ensures var next := Exec(l, CompleteExecution(3, completion));
      && next.executions == [Execution(first, Some(completion)), Execution(second, None)]
      && Rebuilt(next.dispute, next.facts).Ok?
      && Rebuilt(next.dispute, next.facts).value.tables.executions
           == [Execution(first, None), Execution(second, Some(completion))]
  {
    hide Find;
    FindInPairs();
    SourcesAreStarted(l.dispute.value, l.facts);
    FoldAppend(l.dispute.value, l.facts, ExecutionCompleted(3, completion));
  }

  lemma RunFour(l: Ledger, ops: seq<Op>)
    requires |ops| == 4
    ensures Run(l, ops) == Exec(Exec(Exec(Exec(l, ops[0]), ops[1]), ops[2]), ops[3])
  {
    assert ops[..3][..2] == ops[..2] && ops[..2][..1] == ops[..1] && ops[..1][..0] == [];
    assert Run(l, []) == l;
    assert Run(l, ops[..1]) == Exec(l, ops[0]);
    assert Run(l, ops[..2]) == Exec(Exec(l, ops[0]), ops[1]);
    assert Run(l, ops[..3]) == Exec(Exec(Exec(l, ops[0]), ops[1]), ops[2]);
  }

  // ---------------------------------------------------------------------------------------------------------------
  // What callers can see to
  // ---------------------------------------------------------------------------------------------------------------

  /** Every id a start or a rebuild has handed out. */
  function Issued(ops: seq<Op>): set<nat> {
    if ops == [] then {}
    else
      var before := Issued(ops[..|ops| - 1]);
      match ops[|ops| - 1]
      case StartExecution(id, _) => before + {id}
      case Rebuild(ids) => before + set i | 0 <= i < |ids| :: ids[i]
      case _ => before
  }

  /** The ids started since the last rebuild. */
  function StartedSinceRebuild(ops: seq<Op>): set<nat> {
    if ops == [] then {}
    else
      var before := StartedSinceRebuild(ops[..|ops| - 1]);
      match ops[|ops| - 1]
      case StartExecution(id, _) => before + {id}
      case Rebuild(_) => {}
      case _ => before
  }

  /** The ids started and not yet completed. */
  function Running(ops: seq<Op>): set<nat> {
    if ops == [] then {}
    else
      var before := Running(ops[..|ops| - 1]);
      match ops[|ops| - 1]
      case StartExecution(id, _) => before + {id}
      case CompleteExecution(id, _) => before - {id}
      case _ => before
  }

  predicate MoneyMarked(ops: seq<Op>) {
    ops != [] && (MoneyMarked(ops[..|ops| - 1]) || IsMark(ops[|ops| - 1]))
  }

  predicate IsMark(op: Op) {
    op.UpdateStatus? && op.moneyMoved == Some(true)
  }

  /** Seen from the calls alone: new ids for starts, and completions only by ids started since the last rebuild. */
  predicate Disciplined(ops: seq<Op>) {
    ops == [] ||
    var before := ops[..|ops| - 1];
    && Disciplined(before)
    && match ops[|ops| - 1]
       case StartExecution(id, _) => id !in Issued(before)
       case CompleteExecution(id, _) => id in StartedSinceRebuild(before)
       case RecordMoneyMoved => MoneyMarked(before)
       case Rebuild(ids) => Distinct(ids)
       case _ => true
  }

  /** Everybody completes what they started, once, and nothing is running when a rebuild comes. */
  predicate Orderly(ops: seq<Op>) {
    ops == [] ||
    var before := ops[..|ops| - 1];
    && Orderly(before)
    && match ops[|ops| - 1]
       case StartExecution(id, _) => id !in Issued(before)
       case CompleteExecution(id, _) => id in Running(before)
       case RecordMoneyMoved => MoneyMarked(before)
       case Rebuild(ids) => Distinct(ids) && Running(before) == {}
       case _ => true
  }

  lemma {:induction false} OrderlyIsDisciplined(ops: seq<Op>)
    requires Orderly(ops)
    ensures Disciplined(ops) && Running(ops) <= StartedSinceRebuild(ops)
    decreases |ops|
  {
    if ops != [] { OrderlyIsDisciplined(ops[..|ops| - 1]); }
  }

  lemma {:induction false} FindAppend(ids: seq<nat>, added: nat, id: nat)
    ensures Find(ids + [added], id) == if id == added then Some(|ids|) else Find(ids, id)
  {
    assert (ids + [added])[..|ids|] == ids;
  }

  /** What the calls so far imply of the ledger they lead to. */
  ghost predicate Tracks(l: Ledger, ops: seq<Op>) {
    && Agrees(l) && |l.ids| == |Started(l.facts)|
    && (forall id :: id in l.ids || id in Started(l.facts) ==> id in Issued(ops))
    && (forall id :: id in StartedSinceRebuild(ops) ==> Find(l.ids, id) == Find(Started(l.facts), id))
    && (MoneyMarked(ops) ==> l.dispute.value.moneyMoved)
  }

  lemma StartEffect(l: Ledger, id: nat, opening: Opening)
    requires l.dispute.Some?
    ensures var next := Exec(l, StartExecution(id, opening));
      && next.ids == l.ids + [id] && Started(next.facts) == Started(l.facts) + [id] && next.dispute == l.dispute
      && next.executions == l.executions + [Execution(opening, None)]
  {
    FoldAppend(l.dispute.value, l.facts, ExecutionStarted(id, opening));
  }

  lemma CallStarted(ops: seq<Op>, id: nat, opening: Opening)
    ensures var more := ops + [StartExecution(id, opening)];
      && Issued(more) == Issued(ops) + {id} && StartedSinceRebuild(more) == StartedSinceRebuild(ops) + {id}
      && MoneyMarked(more) == MoneyMarked(ops)
  {
    assert (ops + [StartExecution(id, opening)])[..|ops|] == ops;
  }

  lemma StartTracks(l: Ledger, ops: seq<Op>, id: nat, opening: Opening)
    requires Tracks(l, ops) && id !in Issued(ops)
    ensures Legal(l, StartExecution(id, opening))
    ensures Tracks(Exec(l, StartExecution(id, opening)), ops + [StartExecution(id, opening)])
  {
    var next, more := Exec(l, StartExecution(id, opening)), ops + [StartExecution(id, opening)];
    StepAgrees(l, StartExecution(id, opening));
    StartEffect(l, id, opening);
    CallStarted(ops, id, opening);
    forall other | other in StartedSinceRebuild(more)
      ensures Find(next.ids, other) == Find(Started(next.facts), other)
    {
      FindAppend(l.ids, id, other);
      FindAppend(Started(l.facts), id, other);
    }
  }

  lemma MarkSetsMoneyMoved(l: Ledger, op: Op)
    requires l.dispute.Some? && IsMark(op)
    ensures Exec(l, op).dispute.Some? && Exec(l, op).dispute.value.moneyMoved
  {
  }

  lemma OtherTracks(l: Ledger, ops: seq<Op>, op: Op)
    requires Tracks(l, ops) && Legal(l, op) && !op.StartExecution? && !op.Rebuild?
    ensures Tracks(Exec(l, op), ops + [op])
  {
    hide Exec, Fold, Started, Find, Legal;
    assert (ops + [op])[..|ops|] == ops;
    StepAgrees(l, op);
    OtherOpsKeepIds(l, op);
    if MoneyMarked(ops) { StepKeepsMoneyMoved(l, op); }
    if IsMark(op) { MarkSetsMoneyMoved(l, op); }
  }

  lemma OtherOpsKeepIds(l: Ledger, op: Op)
    requires l.dispute.Some? && !op.StartExecution? && !op.Rebuild?
    ensures Exec(l, op).ids == l.ids && Started(Exec(l, op).facts) == Started(l.facts)
  {
    if op.MarkOverdue? {
      LapsesFoldToNothing(l.dispute.value, l.facts, l.order, l.deadlines, op.now);
    } else {
      OneFactAtMost(l, op);
      if Exec(l, op).facts != l.facts {
        FoldAppend(l.dispute.value, l.facts, Exec(l, op).facts[|l.facts|]);
      }
    }
  }

  lemma OneFactAtMost(l: Ledger, op: Op)
    requires l.dispute.Some? && !op.StartExecution? && !op.Rebuild? && !op.MarkOverdue?
    ensures var next := Exec(l, op);
      && next.ids == l.ids
      && (next.facts == l.facts ||
          (|next.facts| == |l.facts| + 1 && next.facts == l.facts + [next.facts[|l.facts|]]
           && !next.facts[|l.facts|].ExecutionStarted?))
  {
  }

  lemma RebuildKeepsStarts(l: Ledger, ids: seq<nat>)
    requires Agrees(l)
    ensures var next := Exec(l, Rebuild(ids));
      next.facts == l.facts && |next.ids| == |l.ids| && (next.ids == l.ids || next.ids == ids)
  {
    hide Fold;
  }

  lemma RebuildTracks(l: Ledger, ops: seq<Op>, ids: seq<nat>)
    requires Tracks(l, ops) && Distinct(ids)
    ensures Tracks(Exec(l, Rebuild(ids)), ops + [Rebuild(ids)])
  {
    hide Exec, Fold, Started, Find;
    assert (ops + [Rebuild(ids)])[..|ops|] == ops;
    RebuildAgrees(l, ids);
    RebuildKeepsStarts(l, ids);
    if MoneyMarked(ops) { StepKeepsMoneyMoved(l, Rebuild(ids)); }
  }

  lemma DisciplinedStep(l: Ledger, ops: seq<Op>, op: Op)
    requires Tracks(l, ops) && Disciplined(ops + [op])
    ensures Legal(l, op) && Tracks(Exec(l, op), ops + [op])
  {
    assert (ops + [op])[..|ops|] == ops;
    match op
    case StartExecution(id, opening) => StartTracks(l, ops, id, opening);
    case Rebuild(ids) => RebuildTracks(l, ops, ids);
    case _ => OtherTracks(l, ops, op);
  }

  lemma TracksNothing(l: Ledger)
    requires Agrees(l) && l.ids == [] && Started(l.facts) == []
    ensures Tracks(l, [])
  {
  }

  lemma {:induction false} DisciplinedTracks(l: Ledger, ops: seq<Op>)
    requires Agrees(l) && l.ids == [] && Started(l.facts) == [] && Disciplined(ops)
    ensures AllLegal(l, ops) && Tracks(Run(l, ops), ops)
    decreases |ops|
  {
    hide Tracks, Exec, Legal, Agrees;
    if ops == [] {
      TracksNothing(l);
    } else {
      DisciplinedTracks(l, ops[..|ops| - 1]);
      assert ops == ops[..|ops| - 1] + [ops[|ops| - 1]];
      DisciplinedStep(Run(l, ops[..|ops| - 1]), ops[..|ops| - 1], ops[|ops| - 1]);
    }
  }

  /** Calls that keep to the discipline are legal, so every result about legal runs holds of them. */
  lemma DisciplinedIsLegal(member: string, procedure: string, amount: Cents, currency: string, ops: seq<Op>)
    requires Disciplined(ops)
    ensures AllLegal(Exec(EMPTY, CreateCase(member, procedure, amount, currency)), ops)
  {
    var l := Exec(EMPTY, CreateCase(member, procedure, amount, currency));
    CreationAgrees(member, procedure, amount, currency);
    FirstFactFolds(l.dispute.value);
    DisciplinedTracks(l, ops);
  }

  /** A claim row no event accounts for. */
  predicate Unrecorded(l: Ledger, key: string) {
    && key in l.claims
    && l.dispute.Some? && l.facts != [] && l.facts[0].CaseCreated?
    && var folded := Fold(l.dispute.value, l.facts);
    && (folded.Ok? ==> key !in folded.value.tables.claims && l.claims[key].fence.status == CLAIMED)
  }

  lemma UnrecordedAfter(l: Ledger, next: Ledger, fact: Fact, key: string)
    requires Unrecorded(l, key) && next.dispute.Some? && next.facts == l.facts + [fact] && key in next.claims
    requires fact.EffectClaimed? ==> fact.key != key
    requires (fact.ClaimTransitioned? && fact.key == key) || next.claims[key] == l.claims[key]
    ensures Unrecorded(next, key)
  {
    FoldIgnoresAnchor(l.dispute.value, next.dispute.value, next.facts);
    FoldAppend(l.dispute.value, l.facts, fact);
  }

  lemma UnrecordedClaimStep(l: Ledger, op: Op, key: string)
    requires Unrecorded(l, key) && (op.ClaimEffect? || op.TransitionClaim?)
    ensures Unrecorded(Exec(l, op), key)
  {
    hide Fold;
    var next := Exec(l, op);
    if Fold(l.dispute.value, l.facts).Err? {
      if next.facts != l.facts { FoldAppend(l.dispute.value, l.facts, next.facts[|l.facts|]); }
    } else if next.facts != l.facts {
      UnrecordedAfter(l, next, next.facts[|l.facts|], key);
    }
  }

  lemma UnrecordedStep(l: Ledger, op: Op, key: string)
    requires Unrecorded(l, key) && !op.Rebuild?
    ensures Unrecorded(Exec(l, op), key)
  {
    var next := Exec(l, op);
    if op.MarkOverdue? {
      LapsesFoldToNothing(l.dispute.value, l.facts, l.order, l.deadlines, op.now);
    } else if op.ClaimEffect? || op.TransitionClaim? {
      UnrecordedClaimStep(l, op, key);
    } else {
      OtherOpsKeepClaims(l, op);
      if next.facts != l.facts { UnrecordedAfter(l, next, next.facts[|l.facts|], key); }
    }
  }

  lemma OtherOpsKeepClaims(l: Ledger, op: Op)
    requires l.dispute.Some? && !op.ClaimEffect? && !op.TransitionClaim? && !op.Rebuild? && !op.MarkOverdue?
    ensures var next := Exec(l, op);
      && next.claims == l.claims && next.dispute.Some?
      && (next.facts == l.facts ==> next.dispute == l.dispute)
      && (next.facts != l.facts ==> |next.facts| == |l.facts| + 1)
      && (next.facts != l.facts ==> next.facts == l.facts + [next.facts[|l.facts|]])
      && (next.facts != l.facts ==> !next.facts[|l.facts|].EffectClaimed?)
  {
  }

  lemma {:induction false} UnrecordedRun(l: Ledger, ops: seq<Op>, key: string)
    requires Unrecorded(l, key) && forall i :: 0 <= i < |ops| ==> !ops[i].Rebuild?
    ensures Unrecorded(Run(l, ops), key)
    decreases |ops|
  {
    if ops != [] {
      UnrecordedRun(l, ops[..|ops| - 1], key);
      UnrecordedStep(Run(l, ops[..|ops| - 1]), ops[|ops| - 1], key);
    }
  }

  /** A claim taken before the case row exists leaves no event: no later history rebuilds it. */
  lemma ClaimBeforeCaseIsLost(key: string, identity: Identity, owner: Owner, now: Instant, ttl: int,
                              member: string, procedure: string, amount: Cents, currency: string, ops: seq<Op>)
    requires forall i :: 0 <= i < |ops| ==> !ops[i].Rebuild?
    ensures var early := Exec(EMPTY, ClaimEffect(key, identity, owner, now, ttl));
      var l := Run(Exec(early, CreateCase(member, procedure, amount, currency)), ops);
      && key in l.claims
      && (Rebuilt(l.dispute, l.facts).Ok? ==> key !in Rebuilt(l.dispute, l.facts).value.tables.claims)
  {
    EarlyClaimIsUnrecorded(key, identity, owner, now, ttl, member, procedure, amount, currency);
    var early := Exec(EMPTY, ClaimEffect(key, identity, owner, now, ttl));
    UnrecordedRun(Exec(early, CreateCase(member, procedure, amount, currency)), ops, key);
  }

  lemma EarlyClaimIsUnrecorded(key: string, identity: Identity, owner: Owner, now: Instant, ttl: int,
                               member: string, procedure: string, amount: Cents, currency: string)
    ensures var early := Exec(EMPTY, ClaimEffect(key, identity, owner, now, ttl));
      Unrecorded(Exec(early, CreateCase(member, procedure, amount, currency)), key)
  {
    var early := Exec(EMPTY, ClaimEffect(key, identity, owner, now, ttl));
    var l := Exec(early, CreateCase(member, procedure, amount, currency));
    assert l.facts == [] + [l.facts[0]];
    FoldAppend(l.dispute.value, [], l.facts[0]);
    assert Fold(l.dispute.value, []) == Ok(Blank(l.dispute.value));
  }
}
