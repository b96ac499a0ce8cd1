/**
 The repository over one case: mutable tables beside a hash-chained event stream. Every method is proved to do what
 `Ledger.Exec` says, so the rebuild and fencing results about operation sequences hold of these methods' calls.
 */
module Repository {
  import opened Prelude
  import opened Outcomes
  import opened Claims
  import opened EventChain
  import opened Ledger

  /** Event id, step, actor and time of the n-th event: fresh values and a clock the caller supplies. */
  datatype Stamp = Stamp(eventId: string, stepName: string, actor: string, createdAt: string)

  datatype EffectClaim = EffectClaim(acquired: bool, status: ReportedStatus, token: nat, owner: Owner)

  /** A new claim reports its row's status; an existing one only whether the effect is already applied. */
  datatype ReportedStatus = Held(status: ClaimStatus) | ReportsApplied | ReportsClaimed

  /** Position i is the last that holds the id. */
  predicate LastAt(ids: seq<nat>, id: nat, i: nat) {
    i < |ids| && ids[i] == id && id !in ids[i + 1..]
  }

  /** Row i alone got the completion. */
  predicate Completes(before: seq<Execution>, after: seq<Execution>, i: nat, completion: Completion) {
    i < |before| && after == before[i := Execution(before[i].opening, Some(completion))]
  }

  lemma {:induction false} FindIsLast(ids: seq<nat>, id: nat)
    requires Find(ids, id).Some?
    ensures LastAt(ids, id, Find(ids, id).value)
  {
    if ids[|ids| - 1] != id {
      var i := Find(ids, id).value;
      FindIsLast(ids[..|ids| - 1], id);
      assert ids[i + 1..] == ids[..|ids| - 1][i + 1..] + [ids[|ids| - 1]];
    }
  }

  predicate Matches(fence: Claim, owner: Owner, token: nat, from: set<ClaimStatus>) {
    fence.owner == owner && fence.token == token && fence.status in from
  }

  function Facts(stream: seq<Event<Fact>>): seq<Fact> {
    seq(|stream|, i requires 0 <= i < |stream| => stream[i].envelope.content.body)
  }

  class LedgerRepository {
    const caseId: string
    const digest: Envelope<Fact> -> Hash
    const stamp: nat -> Stamp

    var dispute: Option<CaseRow>
    var executions: seq<Execution>
    var ids: seq<nat>
    var intents: map<string, Intent>
    var claims: map<string, ClaimRow>
    var deadlines: map<string, Deadline>
    var order: seq<string>
    var obligations: map<string, Obligation>
    var stream: seq<Event<Fact>>
    var head: Head

    constructor (caseId: string, digest: Envelope<Fact> -> Hash, stamp: nat -> Stamp)
      ensures Valid() && View() == EMPTY
      ensures this.caseId == caseId && this.digest == digest && this.stamp == stamp
    {
      this.caseId, this.digest, this.stamp := caseId, digest, stamp;
      dispute, executions, ids, intents, claims := None, [], [], map[], map[];
      deadlines, order, obligations, stream, head := map[], [], map[], [], Head(0, GENESIS);
    }

    /** Tables as the foreign keys and unique keys allow them. */
    ghost predicate Shaped()
      reads this
    {
      && |ids| == |executions|
      && (forall k :: k in deadlines ==> k in order)
      && (dispute.None? ==> executions == [] && intents == map[] && deadlines == map[] && obligations == map[])
      && (dispute.None? ==> stream == [])
    }

    ghost predicate Valid()
      reads this
    {
      Shaped() && Chained(stream, digest) && head == HeadOf(stream)
    }

    ghost function View(): Ledger
      reads this
      requires Shaped()
    {
      LedgerRows(dispute, executions, ids, intents, claims, deadlines, order, obligations, Facts(stream))
    }

    /** Links one event to the stream head and advances the head. */
    method RecordEvent(fact: Fact)
      requires Valid() && dispute.Some?
      modifies `stream, `head
      ensures Valid() && Facts(stream) == old(Facts(stream)) + [fact] && old(stream) <= stream
    {
      var sequence, previous := head.sequence + 1, head.hash;
      var s := stamp(|stream|);
      var envelope := Envelope(Content(s.eventId, s.stepName, s.actor, s.createdAt, fact), caseId, sequence, previous);
      var event := Event(envelope, digest(envelope));
      ghost var before := stream;
      stream := stream + [event];
      head := Head(sequence, event.hash);
      forall i | 0 <= i < |stream| ensures LinkedAt(stream, digest, i) {
        if i < |before| { assert LinkedAt(before, digest, i); }
      }
    }

    /** An event that describes no table. */
    method RecordAudit(name: string) returns (ok: bool)
      requires Valid()
      modifies `stream, `head
      ensures Valid() && View() == Exec(old(View()), RecordNote(name))
      ensures ok == dispute.Some?
      ensures Facts(stream) == old(Facts(stream)) + if ok then [Note(name)] else []
    {
      if dispute.None? { return false; }
      RecordEvent(Note(name));
      ok := true;
    }

    /** The event the engine writes right after the case row was marked. */
    method RecordMoney() returns (ok: bool)
      requires Valid()
      modifies `stream, `head
      ensures Valid() && View() == Exec(old(View()), RecordMoneyMoved)
      ensures ok == dispute.Some?
      ensures Facts(stream) == old(Facts(stream)) + if ok then [MoneyMoved] else []
    {
      if dispute.None? { return false; }
      RecordEvent(MoneyMoved);
      ok := true;
    }

    method CreateOrGetCase(member: string, procedure: string, amount: Cents, currency: string) returns (row: CaseRow)
      requires Valid()
      modifies `dispute, `stream, `head
      ensures Valid() && View() == Exec(old(View()), CreateCase(member, procedure, amount, currency))
      ensures dispute == Some(row)
      ensures var created := CaseRow(member, procedure, amount, currency, "RECEIVED", false);
        row == if old(dispute).Some? then old(dispute).value else created
      ensures Facts(stream) == old(Facts(stream)) + if old(dispute).None? then [CaseCreated(row)] else []
    {
      if dispute.None? {
        dispute := Some(CaseRow(member, procedure, amount, currency, "RECEIVED", false));
        RecordEvent(CaseCreated(dispute.value));
      }
      row := dispute.value;
    }

    method UpdateCaseStatus(status: string, moneyMoved: Option<bool>) returns (found: bool)
      requires Valid()
      modifies `dispute, `stream, `head
      ensures Valid() && View() == Exec(old(View()), UpdateStatus(status, moneyMoved))
      ensures found == old(dispute).Some?
      ensures found ==> dispute.Some? && dispute.value == old(dispute).value.(
        status := status, moneyMoved := old(dispute).value.moneyMoved || moneyMoved == Some(true))
      ensures Facts(stream) == old(Facts(stream)) +
        if found then [StatusUpdated(status, dispute.value.moneyMoved)] else []
    {
      if dispute.None? { return false; }
      dispute := Some(dispute.value.(status := status));
      if moneyMoved.Some? {
        dispute := Some(dispute.value.(moneyMoved := dispute.value.moneyMoved || moneyMoved.value));
      }
      RecordEvent(StatusUpdated(status, dispute.value.moneyMoved));
      found := true;
    }

    /** `id` is the row id the database allocates. */
    method StartExecution(id: nat, opening: Opening) returns (ok: bool)
      requires Valid()
      modifies `executions, `ids, `stream, `head
      ensures Valid() && View() == Exec(old(View()), Op.StartExecution(id, opening))
      ensures ok == old(dispute).Some?
      ensures executions == old(executions) + if ok then [Execution(opening, None)] else []
      ensures ids == old(ids) + if ok then [id] else []
      ensures Facts(stream) == old(Facts(stream)) + if ok then [ExecutionStarted(id, opening)] else []
    {
      if dispute.None? { return false; }
      executions, ids := executions + [Execution(opening, None)], ids + [id];
      RecordEvent(ExecutionStarted(id, opening));
      ok := true;
    }

    method CompleteExecution(id: nat, completion: Completion) returns (found: bool)
      requires Valid()
      modifies `executions, `stream, `head
      ensures Valid() && View() == Exec(old(View()), Op.CompleteExecution(id, completion))
      ensures found <==> id in old(ids)
      ensures found ==> exists i: nat :: LastAt(ids, id, i) && Completes(old(executions), executions, i, completion)
      ensures !found ==> executions == old(executions)
      ensures Facts(stream) == old(Facts(stream)) + if found then [ExecutionCompleted(id, completion)] else []
    {
      var at := Find(ids, id);
      if at.Some? { FindIsLast(ids, id); }
      if at.None? { return false; }
      executions := executions[at.value := executions[at.value].(completion := Some(completion))];
      RecordEvent(ExecutionCompleted(id, completion));
      found := true;
    }

    method StageIntent(key: string, capability: string, now: Instant) returns (ok: bool)
      requires Valid()
      modifies `intents, `stream, `head
      ensures Valid() && View() == Exec(old(View()), Op.StageIntent(key, capability, now))
      ensures ok == old(dispute).Some?
      ensures ok ==> intents == WithStaged(old(intents), key, capability, now)
      ensures var staged := ok && key !in old(intents);
        && intents == (if staged then old(intents)[key := Intent(capability, false, now)] else old(intents))
        && Facts(stream) == old(Facts(stream)) + if staged then [IntentStaged(key, intents[key])] else []
    {
      if dispute.None? { return false; }
      if key !in intents {
        intents := intents[key := Intent(capability, false, now)];
        RecordEvent(IntentStaged(key, intents[key]));
      }
      ok := true;
    }

    method MarkIntentCommitted(key: string)
      requires Valid()
      modifies `intents, `stream, `head
      ensures Valid() && View() == Exec(old(View()), Op.MarkIntentCommitted(key))
      ensures intents == WithCommitted(old(intents), key)
      ensures var commits := key in old(intents) && !old(intents)[key].committed;
        && intents == (if commits then old(intents)[key := old(intents)[key].(committed := true)] else old(intents))
        && Facts(stream) == old(Facts(stream)) + if commits then [IntentCommitted(key)] else []
    {
      if key in intents && !intents[key].committed {
        intents := intents[key := intents[key].(committed := true)];
        RecordEvent(IntentCommitted(key));
      }
    }

    method ClaimEffect(key: string, identity: Identity, owner: Owner, now: Instant, ttl: int) returns (c: EffectClaim)
      requires Valid()
      modifies `claims, `stream, `head
      ensures Valid() && View() == Exec(old(View()), Op.ClaimEffect(key, identity, owner, now, ttl))
      ensures key in claims && c.token == claims[key].fence.token && c.owner == claims[key].fence.owner
      ensures c.acquired <==> key !in old(claims) || old(claims)[key].fence.status == FAILED_RETRYABLE
      ensures c.acquired ==> c.status == Held(CLAIMED) && c.owner == owner
      ensures !c.acquired ==> c.status == if claims[key].fence.status == APPLIED then ReportsApplied else ReportsClaimed
      ensures c.acquired ==> c.token == if key in old(claims) then old(claims)[key].fence.token + 1 else 1
      ensures c.acquired ==> claims == old(claims)[key := claims[key]] && claims[key] == ClaimRow(
        if key in old(claims) then old(claims)[key].identity else identity,
        Claim(CLAIMED, owner, c.token), now, now, now + ttl, now)
      ensures !c.acquired ==> claims == old(claims)
      ensures Facts(stream) == old(Facts(stream)) +
        if c.acquired && dispute.Some? then [EffectClaimed(key, claims[key])] else []
    {
      hide Exec, Chained, HeadOf, ClaimRowAfter, Facts;
      var acquired := key !in claims;
      if acquired {
        FirstClaimIs(View(), key, identity, owner, now, ttl);
        claims := claims[key := ClaimRow(identity, Claim(CLAIMED, owner, 1), now, now, now + ttl, now)];
      } else if claims[key].fence.status == FAILED_RETRYABLE {
        var fence := Reclaim(Some(claims[key].fence), claims[key].fence.token, owner);
        acquired := fence.Some?;
        ReclaimIs(View(), key, identity, owner, now, ttl);
        if acquired {
          claims := claims[key := ClaimRow(claims[key].identity, fence.value, now, now, now + ttl, now)];
        }
      } else {
        RefusedClaimIs(View(), key, identity, owner, now, ttl);
      }
      if acquired && dispute.Some? {
        RecordEvent(EffectClaimed(key, claims[key]));
      }
      var fence := claims[key].fence;
      var existing := if fence.status == APPLIED then ReportsApplied else ReportsClaimed;
      c := EffectClaim(acquired, if acquired then Held(fence.status) else existing, fence.token, fence.owner);
    }

    /** Moves the claim only for its current fenced owner; without a case row the event's foreign key undoes it. */
    method TransitionEffectClaim(key: string, owner: Owner, token: nat, from: set<ClaimStatus>, to: ClaimStatus,
                                 now: Instant)
        returns (moved: bool)
      requires Valid()
      modifies `claims, `stream, `head
      ensures Valid() && View() == Exec(old(View()), TransitionClaim(key, owner, token, from, to, now))
      ensures moved ==> key in claims && claims[key].fence == Claim(to, owner, token)
      ensures moved <==> old(dispute).Some? && key in old(claims) && Matches(old(claims)[key].fence, owner, token, from)
      ensures moved ==> claims == old(claims)[key := old(claims)[key].(
        fence := Claim(to, owner, token), heartbeatAt := now, updatedAt := now)]
      ensures !moved ==> claims == old(claims)
      ensures Facts(stream) == old(Facts(stream)) +
        if moved then [ClaimTransitioned(key, Claim(to, owner, token), now)] else []
    {
      if dispute.None? || key !in claims { return false; }
      var fence := Transition(Some(claims[key].fence), owner, token, from, to);
      if fence.None? { return false; }
      claims := claims[key := claims[key].(fence := fence.value, heartbeatAt := now, updatedAt := now)];
      RecordEvent(ClaimTransitioned(key, fence.value, now));
      moved := true;
    }

    method CreateDeadline(kind: string, dueAt: Instant) returns (ok: bool)
      requires Valid()
      modifies `deadlines, `order, `stream, `head
      ensures Valid() && View() == Exec(old(View()), Op.CreateDeadline(kind, dueAt))
      ensures ok == dispute.Some?
      ensures var created := ok && kind !in old(deadlines);
        && deadlines == (if created then old(deadlines)[kind := Deadline(dueAt, PENDING, None)] else old(deadlines))
        && order == old(order) + (if created then [kind] else [])
        && Facts(stream) == old(Facts(stream)) + if created then [DeadlineCreated(kind, dueAt)] else []
    {
      if dispute.None? { return false; }
      if kind !in deadlines {
        deadlines, order := deadlines[kind := Deadline(dueAt, PENDING, None)], order + [kind];
        RecordEvent(DeadlineCreated(kind, dueAt));
      }
      ok := true;
    }

    method ResolveDeadline(kind: string, now: Instant) returns (resolved: Option<Deadline>)
      requires Valid()
      modifies `deadlines, `stream, `head
      ensures Valid() && View() == Exec(old(View()), Op.ResolveDeadline(kind, now))
      ensures resolved.Some? <==> kind in old(deadlines) && old(deadlines)[kind].status != MET
      ensures resolved.Some? ==>
        && resolved.value == Deadline(old(deadlines)[kind].dueAt, MET, Some(now))
        && deadlines == old(deadlines)[kind := resolved.value]
      ensures resolved.None? ==> deadlines == old(deadlines)
      ensures Facts(stream) == old(Facts(stream)) + if resolved.Some? then [DeadlineResolved(kind, now)] else []
    {
      hide Chained, HeadOf, Lapse, LapsedFacts;
      if kind !in deadlines || deadlines[kind].status == MET { return None; }
      deadlines := deadlines[kind := deadlines[kind].(status := MET, resolvedAt := Some(now))];
      RecordEvent(DeadlineResolved(kind, now));
      resolved := Some(deadlines[kind]);
    }

    method CreateObligation(kind: string, dueAt: Instant, now: Instant) returns (ok: bool)
      requires Valid()
      modifies `obligations, `stream, `head
      ensures Valid() && View() == Exec(old(View()), Op.CreateObligation(kind, dueAt, now))
      ensures ok == dispute.Some?
      ensures var created, planned := ok && kind !in old(obligations), Obligation(dueAt, PLANNED, now, None, None);
        && obligations == (if created then old(obligations)[kind := planned] else old(obligations))
        && Facts(stream) == old(Facts(stream)) + if created then [ObligationCreated(kind, planned)] else []
    {
      if dispute.None? { return false; }
      if kind !in obligations {
        obligations := obligations[kind := Obligation(dueAt, PLANNED, now, None, None)];
        RecordEvent(ObligationCreated(kind, obligations[kind]));
      }
      ok := true;
    }

    method ActivateObligation(kind: string, now: Instant) returns (found: bool)
      requires Valid()
      modifies `obligations, `stream, `head
      ensures Valid() && View() == Exec(old(View()), Op.ActivateObligation(kind, now))
      ensures found <==> kind in old(obligations)
      ensures var activates := found && old(obligations)[kind].status == PLANNED;
        && obligations == (if activates then old(obligations)[kind := old(obligations)[kind].(
             status := ACTIVE, activatedAt := Some(now))] else old(obligations))
        && Facts(stream) == old(Facts(stream)) + if activates then [ObligationActivated(kind, now)] else []
    {
      if kind !in obligations { return false; }
      if obligations[kind].status == PLANNED {
        obligations := obligations[kind := obligations[kind].(status := ACTIVE, activatedAt := Some(now))];
        RecordEvent(ObligationActivated(kind, now));
      }
      found := true;
    }

    method SatisfyObligation(kind: string, now: Instant) returns (found: bool)
      requires Valid()
      modifies `obligations, `stream, `head
      ensures Valid() && View() == Exec(old(View()), Op.SatisfyObligation(kind, now))
      ensures found <==> kind in old(obligations)
      ensures var satisfies := found && old(obligations)[kind].status != SATISFIED;
        && obligations == (if satisfies then old(obligations)[kind := old(obligations)[kind].(
             status := SATISFIED, satisfiedAt := Some(now))] else old(obligations))
        && Facts(stream) == old(Facts(stream)) + if satisfies then [ObligationSatisfied(kind, now)] else []
    {
      if kind !in obligations { return false; }
      if obligations[kind].status != SATISFIED {
        obligations := obligations[kind := obligations[kind].(status := SATISFIED, satisfiedAt := Some(now))];
        RecordEvent(ObligationSatisfied(kind, now));
      }
      found := true;
    }

    /** Collects the lapsed deadlines, marks every one of them, then records one event for each. */
    method MarkOverdueDeadlines(now: Instant) returns (overdue: seq<string>)
      requires Valid()
      modifies `deadlines, `stream, `head
      ensures Valid() && View() == Exec(old(View()), MarkOverdue(now))
      ensures overdue == Lapsing(order, old(deadlines), now)
      ensures forall k :: k in overdue <==>
        k in old(deadlines) && old(deadlines)[k].status == PENDING && now >= old(deadlines)[k].dueAt
      ensures deadlines.Keys == old(deadlines).Keys
      ensures forall k :: k in deadlines ==>
        deadlines[k] == if k in overdue then old(deadlines)[k].(status := OVERDUE) else old(deadlines)[k]
      ensures |Facts(stream)| == |old(Facts(stream))| + |overdue| && old(Facts(stream)) <= Facts(stream)
      ensures forall i :: 0 <= i < |overdue| ==>
        Facts(stream)[|old(Facts(stream))| + i] == DeadlineLapsed(overdue[i])
    {
      hide Exec, Lapsing, Chained;
      overdue := SelectLapsed(now);
      LapsingIsComplete(order, deadlines, now);
      assert overdue != [] ==> overdue[0] in deadlines;
      MarkingIs(View(), now);
      MarkAll(overdue, now);
      RecordLapses(overdue);
    }

    method MarkAll(overdue: seq<string>, now: Instant)
      requires forall k :: k in overdue <==> k in deadlines && Lapses(deadlines[k], now)
      modifies `deadlines
      ensures deadlines == Lapse(old(deadlines), now)
    {
      for i := 0 to |overdue|
        invariant deadlines.Keys == old(deadlines).Keys
        invariant forall k :: k in deadlines ==>
          deadlines[k] == if k in overdue[..i] then old(deadlines)[k].(status := OVERDUE) else old(deadlines)[k]
      {
        deadlines := deadlines[overdue[i] := deadlines[overdue[i]].(status := OVERDUE)];
      }
    }

    method SelectLapsed(now: Instant) returns (overdue: seq<string>)
      ensures overdue == Lapsing(order, deadlines, now)
    {
      overdue := [];
      for i := 0 to |order|
        invariant overdue == Lapsing(order[..i], deadlines, now)
      {
        assert order[..i + 1][..i] == order[..i];
        if order[i] in deadlines && Lapses(deadlines[order[i]], now) {
          overdue := overdue + [order[i]];
        }
      }
      assert order[..|order|] == order;
    }

    method RecordLapses(overdue: seq<string>)
      requires Valid() && (overdue != [] ==> dispute.Some?)
      modifies `stream, `head
      ensures Valid() && Facts(stream) == old(Facts(stream)) + LapseEvents(overdue)
    {
      for i := 0 to |overdue|
        invariant Valid() && Facts(stream) == old(Facts(stream)) + LapseEvents(overdue[..i])
      {
        RecordEvent(DeadlineLapsed(overdue[i]));
        assert LapseEvents(overdue[..i + 1]) == LapseEvents(overdue[..i]) + [DeadlineLapsed(overdue[i])];
      }
      assert overdue[..|overdue|] == overdue;
    }

    /** Verifies the chain, folds the events, and replaces every table; nothing changes when it refuses. */
    method RebuildCase(allocate: nat -> nat) returns (r: Result<(), IntegrityError>)
      requires Shaped()
      modifies `dispute, `executions, `ids, `intents, `claims, `deadlines, `order, `obligations
      ensures Shaped()
      ensures var outcome := RebuildOutcome(Verify(stream, digest), old(dispute), Facts(stream));
        match outcome
        case Err(e) => r == Err(e) && View() == old(View())
        case Ok(p) =>
          r == Ok(()) && View() == Restore(old(View()), p.tables, Allocated(|p.tables.executions|, allocate))
    {
      var outcome := DeriveTables();
      if outcome.Err? { return Err(outcome.error); }
      DerivedTablesAreShaped(Verify(stream, digest), dispute, Facts(stream));
      Install(outcome.value.tables, Allocated(|outcome.value.tables.executions|, allocate));
      r := Ok(());
    }

    /** Deletes the case's rows and inserts the given ones; the case row is overwritten in place. */
    method Install(t: Tables, newIds: seq<nat>)
      requires Shaped() && dispute.Some? && |newIds| == |t.executions| && forall k :: k in t.deadlines ==> k in t.order
      modifies `dispute, `executions, `ids, `intents, `claims, `deadlines, `order, `obligations
      ensures Shaped() && View() == Restore(old(View()), t, newIds)
    {
      dispute, executions, intents, claims := Some(t.dispute), t.executions, t.intents, t.claims;
      deadlines, order, obligations := t.deadlines, t.order, t.obligations;
      ids := newIds;
    }

    method DeriveTables() returns (r: Result<Projection, IntegrityError>)
      ensures r == RebuildOutcome(Verify(stream, digest), dispute, Facts(stream))
    {
      var v := VerifyEventChain(stream, digest);
      if v.Broken? { return Err(BrokenChain(v.sequence)); }
      if stream == [] || !stream[0].envelope.content.body.CaseCreated? { return Err(NoCaseCreated); }
      if dispute.None? { return Err(NoCaseAnchor); }
      r := ReplayEvents(dispute.value);
    }

    /** The loop over the events in sequence order. */
    method ReplayEvents(anchor: CaseRow) returns (r: Result<Projection, IntegrityError>)
      ensures r == Fold(anchor, Facts(stream))
    {
      var p := Blank(anchor);
      ghost var facts := Facts(stream);
      for i := 0 to |stream|
        invariant Fold(anchor, facts[..i]) == Ok(p)
      {
        assert facts[..i + 1][..i] == facts[..i];
        var applied := Apply(p, stream[i].envelope.content.body);
        if applied.Err? {
          ErrorsStick(anchor, facts, i + 1);
          return Err(applied.error);
        }
        p := applied.value;
      }
      assert facts[..|stream|] == facts;
      r := Ok(p);
    }
  }

  /** Why a rebuild refuses, or the tables it derives. */
  function RebuildOutcome(v: Verification, anchor: Option<CaseRow>, facts: seq<Fact>)
    : Result<Projection, IntegrityError>
  {
    match v
    case Broken(at) => Err(BrokenChain(at))
    case Intact => Rebuilt(anchor, facts)
  }

  lemma DerivedTablesAreShaped(v: Verification, anchor: Option<CaseRow>, facts: seq<Fact>)
    requires RebuildOutcome(v, anchor, facts).Ok?
    ensures anchor.Some? && facts != []
    ensures var t := RebuildOutcome(v, anchor, facts).value.tables; forall k :: k in t.deadlines ==> k in t.order
  {
    FoldKeepsOrder(anchor.value, facts);
  }

  /** The refusals that come before any event is folded, each with what it names. */
  lemma RebuildRefusesFirst(v: Verification, anchor: Option<CaseRow>, facts: seq<Fact>)
    ensures var r := RebuildOutcome(v, anchor, facts);
      var started := facts != [] && facts[0].CaseCreated?;
      && (v.Broken? ==> r == Err(BrokenChain(v.sequence)))
      && (v == Intact && !started ==> r == Err(NoCaseCreated))
      && (v == Intact && started && anchor.None? ==> r == Err(NoCaseAnchor))
      && (v == Intact && started && anchor.Some? ==> r == Fold(anchor.value, facts))
  {
  }

  /** Over an intact chain this is the rebuild operation that the results on operation sequences speak of. */
  lemma IntactRebuildIsExec(l: Ledger, allocate: nat -> nat)
    requires RebuildOutcome(Intact, l.dispute, l.facts).Ok?
    ensures var t := RebuildOutcome(Intact, l.dispute, l.facts).value.tables;
      var ids := Allocated(|t.executions|, allocate);
      Restore(l, t, ids) == Exec(l, Rebuild(ids))
  {
  }

  /** The row ids the database gives to n inserted rows. */
  function Allocated(n: nat, allocate: nat -> nat): (ids: seq<nat>)
    ensures |ids| == n
  {
    if n == 0 then [] else Allocated(n - 1, allocate) + [allocate(n - 1)]
  }

  function LapseEvents(kinds: seq<string>): seq<Fact> {
    seq(|kinds|, j requires 0 <= j < |kinds| => DeadlineLapsed(kinds[j]))
  }

  /** The kinds `mark_overdue_deadlines` selects, in row order. */
  function Lapsing(order: seq<string>, deadlines: map<string, Deadline>, now: Instant): seq<string> {
    if order == [] then []
    else
      var n := |order| - 1;
      Lapsing(order[..n], deadlines, now)
        + if order[n] in deadlines && Lapses(deadlines[order[n]], now) then [order[n]] else []
  }

  lemma {:induction false} LapsingIsComplete(order: seq<string>, deadlines: map<string, Deadline>, now: Instant)
    ensures forall k :: k in Lapsing(order, deadlines, now) <==>
      k in order && k in deadlines && Lapses(deadlines[k], now)
    decreases |order|
  {
    if order != [] {
      var n := |order| - 1;
      LapsingIsComplete(order[..n], deadlines, now);
      assert order == order[..n] + [order[n]];
    }
  }

  /** The selection keeps the row order. */
  lemma {:induction false} LapsingKeepsOrder(order: seq<string>, deadlines: map<string, Deadline>, now: Instant,
                                             i: nat, j: nat)
    requires i < j < |Lapsing(order, deadlines, now)|
    ensures var kinds := Lapsing(order, deadlines, now);
      exists a, b :: 0 <= a < b < |order| && order[a] == kinds[i] && order[b] == kinds[j]
    decreases |order|
  {
    var n := |order| - 1;
    var before := Lapsing(order[..n], deadlines, now);
    if j < |before| {
      LapsingKeepsOrder(order[..n], deadlines, now, i, j);
      var a, b :| 0 <= a < b < n && order[..n][a] == before[i] && order[..n][b] == before[j];
      assert order[a] == before[i] && order[b] == before[j];
    } else {
      LapsingIsComplete(order[..n], deadlines, now);
      assert before[i] in before;
      var a :| 0 <= a < n && order[..n][a] == before[i];
      assert order[a] == before[i] && order[n] == Lapsing(order, deadlines, now)[j];
    }
  }

  lemma {:induction false} LapsingGivesFacts(order: seq<string>, deadlines: map<string, Deadline>, now: Instant)
    ensures var kinds := Lapsing(order, deadlines, now);
      LapsedFacts(order, deadlines, now) == LapseEvents(kinds)
    decreases |order|
  {
    if order != [] {
      LapsingGivesFacts(order[..|order| - 1], deadlines, now);
    }
  }

  lemma {:induction false} NothingLapses(order: seq<string>, now: Instant)
    ensures Lapsing(order, map[], now) == []
  {
    if order != [] { NothingLapses(order[..|order| - 1], now); }
  }

  /** What the operation does, in terms of the kinds selected; without a case row there are no deadlines. */
  lemma MarkingIs(l: Ledger, now: Instant)
    requires l.dispute.None? ==> l.deadlines == map[]
    ensures var marked := LapseEvents(Lapsing(l.order, l.deadlines, now));
      Exec(l, MarkOverdue(now)) == l.(deadlines := Lapse(l.deadlines, now), facts := l.facts + marked)
  {
    LapsingIsComplete(l.order, l.deadlines, now);
    LapsingGivesFacts(l.order, l.deadlines, now);
    NothingLapses(l.order, now);
  }

  /** A claim row written with its event, which only a case row admits. */
  function ClaimedBy(l: Ledger, key: string, row: ClaimRow): Ledger {
    var claimed := l.(claims := l.claims[key := row]);
    if l.dispute.None? then claimed else Record(claimed, EffectClaimed(key, row))
  }

  lemma FirstClaimIs(l: Ledger, key: string, identity: Identity, owner: Owner, now: Instant, ttl: int)
    requires key !in l.claims
    ensures Exec(l, Op.ClaimEffect(key, identity, owner, now, ttl))
      == ClaimedBy(l, key, ClaimRow(identity, Claim(CLAIMED, owner, 1), now, now, now + ttl, now))
  {
  }

  lemma ReclaimIs(l: Ledger, key: string, identity: Identity, owner: Owner, now: Instant, ttl: int)
    requires key in l.claims && l.claims[key].fence.status == FAILED_RETRYABLE
    ensures var row := l.claims[key];
      Exec(l, Op.ClaimEffect(key, identity, owner, now, ttl))
      == ClaimedBy(l, key, ClaimRow(row.identity, Claim(CLAIMED, owner, row.fence.token + 1), now, now, now + ttl, now))
  {
  }

  lemma RefusedClaimIs(l: Ledger, key: string, identity: Identity, owner: Owner, now: Instant, ttl: int)
    requires key in l.claims && l.claims[key].fence.status != FAILED_RETRYABLE
    ensures Exec(l, Op.ClaimEffect(key, identity, owner, now, ttl)) == l
  {
  }

  lemma ApplyKeepsOrder(p: Projection, fact: Fact)
    requires |p.sources| == |p.tables.executions| && Apply(p, fact).Ok?
    requires forall k :: k in p.tables.deadlines ==> k in p.tables.order
    ensures var t := Apply(p, fact).value.tables; forall k :: k in t.deadlines ==> k in t.order
  {
  }

  lemma {:induction false} FoldKeepsOrder(anchor: CaseRow, facts: seq<Fact>)
    requires Fold(anchor, facts).Ok?
    ensures var t := Fold(anchor, facts).value.tables; forall k :: k in t.deadlines ==> k in t.order
    decreases |facts|
  {
    if facts != [] {
      var n := |facts| - 1;
      FoldKeepsOrder(anchor, facts[..n]);
      ApplyKeepsOrder(Fold(anchor, facts[..n]).value, facts[n]);
    }
  }
}
