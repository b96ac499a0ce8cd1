/** Taking over the claims a dead worker left behind, by asking the target what happened to each. */
module CrashRecovery {
  import opened Prelude
  import opened Outcomes
  import opened Claims
  import opened Ledger
  import opened Repository
  import Inquiry
  import CaseLease
  import L = Lease
  import P = Protocol

  const CREDIT := "core.post_provisional_credit"
  const ADAPTERS := {CREDIT, "processor.file_chargeback", "docs.send_notice"}
  const DONE := {"SUCCESS", "COMPLETED", "ALREADY_APPLIED"}

  predicate Live(status: ClaimStatus) {
    status == CLAIMED || status == APPLYING
  }

  datatype Decision = Skip | Stuck(code: Code) | Confirm(ref: string) | Release

  /**
   One walk: the claims as its query read them, in row order, what the death check says of their owners, and what the
   target answers. Somebody else may have moved a claim between that query and the walk's own update.
   */
  datatype Walk = Walk(
    rows: seq<string>, read: map<string, ClaimRow>, dead: Owner -> bool, inquire: ClaimRow -> Inquiry.Verdict)
  {
    ghost predicate Valid() {
      (forall k :: k in rows <==> k in read) && forall i, j :: 0 <= i < j < |rows| ==> rows[i] != rows[j]
    }
  }

  /** The conditional update will match: owner and token are those that were read, and the claim is still in flight. */
  predicate StillHeld(claims: map<string, ClaimRow>, key: string, read: ClaimRow) {
    key in claims && Matches(claims[key].fence, read.fence.owner, read.fence.token, {CLAIMED, APPLYING})
  }

  /** What recovery does about one claim: only a live claim of a dead owner is asked about. */
  function Decide(w: Walk, claims: map<string, ClaimRow>, key: string): Decision
    requires key in w.read
  {
    var row := w.read[key];
    if !Live(row.fence.status) then Skip
    else if !w.dead(row.fence.owner) then Stuck(AlreadyClaimed)
    else if row.identity.capability !in ADAPTERS then Stuck(TargetReconciliationUnavailable)
    else match w.inquire(row)
      case Present(r) => if StillHeld(claims, key, row) then Confirm(r) else Stuck(TargetReconciliationUnavailable)
      case Absent => if StillHeld(claims, key, row) then Release else Stuck(TargetReconciliationUnavailable)
      case _ => Stuck(TargetReconciliationUnavailable)
  }

  /** What recovery decides, case by case of who owns the claim, what it is and what the target answers. */
  lemma DecisionTells(w: Walk, claims: map<string, ClaimRow>, key: string)
    requires key in w.read
    ensures var row, d := w.read[key], Decide(w, claims, key);
      var inFlight := row.fence.status in {CLAIMED, APPLYING};
      var known := row.identity.capability in
        {"core.post_provisional_credit", "processor.file_chargeback", "docs.send_notice"};
      var asked := inFlight && w.dead(row.fence.owner) && known;
      var held := key in claims && claims[key].fence.status in {CLAIMED, APPLYING}
        && claims[key].fence.owner == row.fence.owner && claims[key].fence.token == row.fence.token;
      && (d == Skip <==> !inFlight)
      && (d == Stuck(AlreadyClaimed) <==> inFlight && !w.dead(row.fence.owner))
      && (forall ref :: d == Confirm(ref) <==> asked && w.inquire(row) == Inquiry.Present(ref) && held)
      && (d == Release <==> asked && w.inquire(row) == Inquiry.Absent && held)
      && (d.Stuck? ==> d.code == AlreadyClaimed || d.code == TargetReconciliationUnavailable)
  {
  }

  function FenceAfter(fence: Claim, d: Decision): Claim {
    match d
    case Confirm(_) => fence.(status := APPLIED)
    case Release => fence.(status := FAILED_RETRYABLE)
    case _ => fence
  }

  predicate HasCompleted(executions: seq<Execution>, capability: string) {
    exists i :: 0 <= i < |executions| && CompletedFor(executions[i], capability)
  }

  predicate CompletedFor(e: Execution, capability: string) {
    e.opening.capability == capability && e.completion.Some? && e.completion.value.status in DONE
  }

  /** The first n rows are decided and carry what was decided; the others are untouched. */
  ghost predicate DecidedUpTo(w: Walk, before: map<string, ClaimRow>, after: map<string, ClaimRow>, n: nat)
    requires w.Valid() && n <= |w.rows|
  {
    && after.Keys == before.Keys
    && (forall i :: 0 <= i < n ==> DecidedAt(w, before, after, w.rows[i]))
    && (forall k :: k in before && k !in w.rows[..n] ==> after[k] == before[k])
  }

  predicate DecidedAt(w: Walk, before: map<string, ClaimRow>, after: map<string, ClaimRow>, key: string)
    requires key in w.read && after.Keys == before.Keys
  {
    var d := Decide(w, before, key);
    !d.Stuck? && (key in before ==> after[key].fence == FenceAfter(before[key].fence, d))
  }

  /** The tables a confirmation writes beside the claim. */
  datatype Books = Books(intents: map<string, Intent>, executions: seq<Execution>, dispute: Option<CaseRow>)

  ghost function BooksOf(repo: LedgerRepository): Books
    reads repo
  {
    Books(repo.intents, repo.executions, repo.dispute)
  }

  /** The execution the dead worker never recorded. */
  function RecoveredExecution(key: string, identity: Identity, ref: string, now: Instant): Execution {
    Execution(
      Opening(identity.capability, "1.0.0", "COMMIT", Some(key), Some(identity.member), Some(identity.amount),
              "AUTOMATION", None, now),
      Some(Completion("COMPLETED", Some(identity.member), Some(identity.amount), None, Some(ref),
                      identity.capability == CREDIT, now)))
  }

  /** What confirming one claim adds: its execution unless one is finished, its intent, and the money for the credit. */
  function Confirmed(b: Books, key: string, row: ClaimRow, ref: string, now: Instant): Books {
    var capability := row.identity.capability;
    Books(
      WithCommitted(WithStaged(b.intents, key, capability, now), key),
      if HasCompleted(b.executions, capability) then b.executions
      else b.executions + [RecoveredExecution(key, row.identity, ref, now)],
      if capability == CREDIT && b.dispute.Some?
      then Some(b.dispute.value.(status := "PROVISIONAL_CREDIT_POSTED", moneyMoved := true)) else b.dispute)
  }

  function BooksAfter(b: Books, key: string, row: ClaimRow, d: Decision, now: Instant): Books {
    match d
    case Confirm(ref) => Confirmed(b, key, row, ref, now)
    case _ => b
  }

  /** The books after the first n rows were decided. */
  ghost function BooksUpTo(w: Walk, b: Books, before: map<string, ClaimRow>, n: nat, now: Instant): Books
    requires w.Valid() && n <= |w.rows|
  {
    if n == 0 then b
    else
      var key := w.rows[n - 1];
      BooksAfter(BooksUpTo(w, b, before, n - 1, now), key, w.read[key], Decide(w, before, key), now)
  }

  /** A committed intent, a finished execution and, for the credit, the case marked as having moved money. */
  predicate Accounted(b: Books, row: ClaimRow, key: string) {
    && key in b.intents && b.intents[key].committed
    && HasCompleted(b.executions, row.identity.capability)
    && (row.identity.capability == CREDIT && b.dispute.Some? ==> b.dispute.value.moneyMoved)
  }

  predicate Grows(b: Books, after: Books) {
    && (forall k :: k in b.intents && b.intents[k].committed ==> k in after.intents && after.intents[k].committed)
    && b.executions <= after.executions
    && (b.dispute.Some? <==> after.dispute.Some?)
    && (b.dispute.Some? && b.dispute.value.moneyMoved ==> after.dispute.value.moneyMoved)
  }

  lemma ConfirmedAccounts(b: Books, key: string, row: ClaimRow, ref: string, now: Instant)
    ensures Accounted(Confirmed(b, key, row, ref, now), row, key) && Grows(b, Confirmed(b, key, row, ref, now))
  {
    var after := Confirmed(b, key, row, ref, now);
    if !HasCompleted(b.executions, row.identity.capability) {
      assert CompletedFor(after.executions[|b.executions|], row.identity.capability);
    }
  }

  lemma AccountedStays(b: Books, after: Books, row: ClaimRow, key: string)
    requires Grows(b, after) && Accounted(b, row, key)
    ensures Accounted(after, row, key)
  {
    var i :| 0 <= i < |b.executions| && CompletedFor(b.executions[i], row.identity.capability);
    assert CompletedFor(after.executions[i], row.identity.capability);
  }

  /** Every confirmed row is accounted for, however many follow it. */
  lemma {:induction false} ConfirmedRowsAreAccounted(
      w: Walk, b: Books, before: map<string, ClaimRow>, n: nat, now: Instant, i: nat)
    requires w.Valid() && i < n <= |w.rows| && Decide(w, before, w.rows[i]).Confirm?
    ensures Accounted(BooksUpTo(w, b, before, n, now), w.read[w.rows[i]], w.rows[i])
    decreases n
  {
    hide Confirmed, Accounted, Grows;
    var key, prev := w.rows[n - 1], BooksUpTo(w, b, before, n - 1, now);
    var d := Decide(w, before, key);
    if d.Confirm? { ConfirmedAccounts(prev, key, w.read[key], d.ref, now); }
    if i < n - 1 {
      ConfirmedRowsAreAccounted(w, b, before, n - 1, now, i);
      if d.Confirm? { AccountedStays(prev, BooksUpTo(w, b, before, n, now), w.read[w.rows[i]], w.rows[i]); }
    }
  }

  /** A finished execution of this very claim, on the strength of the target's reference. */
  predicate Evidences(e: Execution, key: string, row: ClaimRow, ref: string, now: Instant) {
    && e.opening.key == Some(key) && e.opening.version == "1.0.0" && e.opening.startedAt == now
    && e.opening.effectClass == "COMMIT" && e.opening.actor == "AUTOMATION"
    && e.opening.expectedEntity == Some(row.identity.member) && e.opening.expectedAmount == Some(row.identity.amount)
    && FinishedFor(e, row.identity.capability)
    && e.completion.value.status == "COMPLETED" && e.completion.value.completedAt == now
    && e.completion.value.auditRef == Some(ref) && e.completion.value.failureCategory == None
    && e.completion.value.observedEntity == Some(row.identity.member)
    && e.completion.value.observedAmount == Some(row.identity.amount)
    && (e.completion.value.moneyMoved <==> row.identity.capability == "core.post_provisional_credit")
  }

  predicate EvidencedIn(executions: seq<Execution>, key: string, row: ClaimRow, ref: string, now: Instant) {
    exists i :: 0 <= i < |executions| && Evidences(executions[i], key, row, ref, now)
  }

  /** No execution of the capability has finished with a confirmed effect. */
  predicate Unfinished(executions: seq<Execution>, capability: string) {
    forall i :: 0 <= i < |executions| ==> !FinishedFor(executions[i], capability)
  }

  predicate FinishedFor(e: Execution, capability: string) {
    && e.opening.capability == capability && e.completion.Some?
    && e.completion.value.status in {"SUCCESS", "COMPLETED", "ALREADY_APPLIED"}
  }

  lemma ConfirmingEvidences(b: Books, key: string, row: ClaimRow, ref: string, now: Instant)
    requires Unfinished(b.executions, row.identity.capability)
    ensures EvidencedIn(Confirmed(b, key, row, ref, now).executions, key, row, ref, now)
  {
    var after := Confirmed(b, key, row, ref, now).executions;
    assert !HasCompleted(b.executions, row.identity.capability);
    assert Evidences(after[|b.executions|], key, row, ref, now);
  }

  /** Confirming another capability's claim finishes nothing of this one. */
  lemma ConfirmingKeepsUnfinished(b: Books, key: string, row: ClaimRow, d: Decision, now: Instant, capability: string)
    requires Unfinished(b.executions, capability) && (d.Confirm? ==> row.identity.capability != capability)
    ensures Unfinished(BooksAfter(b, key, row, d, now).executions, capability)
  {
  }

  lemma {:induction false} StaysUnfinished(w: Walk, b: Books, before: map<string, ClaimRow>, n: nat, now: Instant,
                                           capability: string)
    requires w.Valid() && n <= |w.rows| && Unfinished(b.executions, capability)
    requires forall j :: 0 <= j < n && w.read[w.rows[j]].identity.capability == capability ==>
      !Decide(w, before, w.rows[j]).Confirm?
    ensures Unfinished(BooksUpTo(w, b, before, n, now).executions, capability)
    decreases n
  {
    if n > 0 {
      var key := w.rows[n - 1];
      StaysUnfinished(w, b, before, n - 1, now, capability);
      var books := BooksUpTo(w, b, before, n - 1, now);
      ConfirmingKeepsUnfinished(books, key, w.read[key], Decide(w, before, key), now, capability);
    }
  }

  lemma {:induction false} BooksGrow(w: Walk, b: Books, before: map<string, ClaimRow>, n: nat, m: nat, now: Instant)
    requires w.Valid() && n <= m <= |w.rows|
    ensures Grows(BooksUpTo(w, b, before, n, now), BooksUpTo(w, b, before, m, now))
    decreases m
  {
    if n < m {
      var key, prev := w.rows[m - 1], BooksUpTo(w, b, before, m - 1, now);
      var d := Decide(w, before, key);
      BooksGrow(w, b, before, n, m - 1, now);
      if d.Confirm? { ConfirmedAccounts(prev, key, w.read[key], d.ref, now); }
    }
  }

  /**
   The first confirmed claim of a capability without a finished execution gets one: under the claim's key, for its
   member and amount, with the target's reference, as money moved exactly for the credit. It is still there when the
   walk ends.
   */
  lemma ConfirmedRowIsEvidenced(w: Walk, b: Books, before: map<string, ClaimRow>, n: nat, now: Instant, i: nat)
    requires w.Valid() && i < n <= |w.rows| && Decide(w, before, w.rows[i]).Confirm?
    requires Unfinished(b.executions, w.read[w.rows[i]].identity.capability)
    requires forall j :: 0 <= j < i ==>
      w.read[w.rows[j]].identity.capability == w.read[w.rows[i]].identity.capability ==>
      !Decide(w, before, w.rows[j]).Confirm?
    ensures var key := w.rows[i];
      EvidencedIn(BooksUpTo(w, b, before, n, now).executions, key, w.read[key], Decide(w, before, key).ref, now)
  {
    hide Confirmed, Evidences, Unfinished;
    var key := w.rows[i];
    var prev, next := BooksUpTo(w, b, before, i, now), BooksUpTo(w, b, before, i + 1, now);
    StaysUnfinished(w, b, before, i, now, w.read[key].identity.capability);
    var ref := Decide(w, before, key).ref;
    ConfirmingEvidences(prev, key, w.read[key], ref, now);
    BooksGrow(w, b, before, i + 1, n, now);
    var j :| 0 <= j < |next.executions| && Evidences(next.executions[j], key, w.read[key], ref, now);
    assert BooksUpTo(w, b, before, n, now).executions[j] == next.executions[j];
  }

  /** A capability that has a finished execution is not given another one. */
  lemma {:induction false} FinishedIsNotRepeated(w: Walk, b: Books, before: map<string, ClaimRow>, n: nat, now: Instant,
                                                 capability: string)
    requires w.Valid() && n <= |w.rows| && !Unfinished(b.executions, capability)
    ensures var after := BooksUpTo(w, b, before, n, now).executions;
      && b.executions <= after
      && forall i :: |b.executions| <= i < |after| ==> after[i].opening.capability != capability
    decreases n
  {
    if n > 0 {
      var prev := BooksUpTo(w, b, before, n - 1, now).executions;
      FinishedIsNotRepeated(w, b, before, n - 1, now, capability);
      var i :| 0 <= i < |b.executions| && FinishedFor(b.executions[i], capability);
      assert CompletedFor(prev[i], capability);
    }
  }

  /** Some row among the first n confirmed the credit. */
  ghost predicate CreditConfirmed(w: Walk, before: map<string, ClaimRow>, n: nat)
    requires w.Valid() && n <= |w.rows|
  {
    exists j :: 0 <= j < n && CreditConfirmedAt(w, before, w.rows[j])
  }

  predicate CreditConfirmedAt(w: Walk, before: map<string, ClaimRow>, key: string)
    requires key in w.read
  {
    Decide(w, before, key).Confirm? && w.read[key].identity.capability == "core.post_provisional_credit"
  }

  /** The case row changes exactly if the credit was confirmed, and then says so. */
  lemma {:induction false} CaseMarkedExactly(w: Walk, b: Books, before: map<string, ClaimRow>, n: nat, now: Instant)
    requires w.Valid() && n <= |w.rows| && b.dispute.Some?
    ensures var after := BooksUpTo(w, b, before, n, now).dispute;
      after == if CreditConfirmed(w, before, n)
               then Some(b.dispute.value.(status := "PROVISIONAL_CREDIT_POSTED", moneyMoved := true)) else b.dispute
    decreases n
  {
    if n > 0 {
      CaseMarkedExactly(w, b, before, n - 1, now);
      assert CreditConfirmed(w, before, n) <==>
        CreditConfirmed(w, before, n - 1) || CreditConfirmedAt(w, before, w.rows[n - 1]);
    }
  }

  /** Intents are only touched under the keys of confirmed rows. */
  lemma {:induction false} OtherIntentsStay(w: Walk, b: Books, before: map<string, ClaimRow>, n: nat, now: Instant,
                                            key: string)
    requires w.Valid() && n <= |w.rows|
    requires forall j :: 0 <= j < n && w.rows[j] == key ==> !Decide(w, before, w.rows[j]).Confirm?
    ensures var after := BooksUpTo(w, b, before, n, now).intents;
      (key in after <==> key in b.intents) && (key in after ==> after[key] == b.intents[key])
    decreases n
  {
    if n > 0 { OtherIntentsStay(w, b, before, n - 1, now, key); }
  }

  /** The events of confirming one claim, given which rows were there before. */
  function ConfirmedFacts(b: Books, key: string, row: ClaimRow, ref: string, id: nat, now: Instant): seq<Fact> {
    var capability := row.identity.capability;
    [ClaimTransitioned(key, Claim(APPLIED, row.fence.owner, row.fence.token), now)]
      + (if HasCompleted(b.executions, capability) then [] else RecoveredFacts(key, row.identity, ref, id, now))
      + IntentFacts(b.intents, key, capability, now) + CreditFacts(capability)
  }

  function RecoveredFacts(key: string, identity: Identity, ref: string, id: nat, now: Instant): seq<Fact> {
    var e := RecoveredExecution(key, identity, ref, now);
    [ExecutionStarted(id, e.opening), ExecutionCompleted(id, e.completion.value)]
  }

  function IntentFacts(intents: map<string, Intent>, key: string, capability: string, now: Instant): seq<Fact> {
    if key !in intents then [IntentStaged(key, Intent(capability, false, now)), IntentCommitted(key)]
    else if !intents[key].committed then [IntentCommitted(key)]
    else []
  }

  function CreditFacts(capability: string): seq<Fact> {
    (if capability == CREDIT then [StatusUpdated("PROVISIONAL_CREDIT_POSTED", true)] else [])
      + [Note("CRASH_RECOVERY_CONFIRMED_APPLIED")]
  }

  method ConfirmApplied(repo: LedgerRepository, key: string, row: ClaimRow, ref: string, id: nat, now: Instant)
    requires repo.Valid() && repo.dispute.Some? && StillHeld(repo.claims, key, row)
    modifies repo
    ensures repo.Valid()
    ensures repo.claims == old(repo.claims)[key := Settled(old(repo.claims)[key], APPLIED, now)]
    ensures BooksOf(repo) == Confirmed(old(BooksOf(repo)), key, row, ref, now)
    ensures Facts(repo.stream) == old(Facts(repo.stream))
      + ConfirmedFacts(old(BooksOf(repo)), key, row, ref, id, now)
  {
    hide Exec, Facts, RecoveredExecution, RecoveredFacts, IntentFacts, CreditFacts, WithCommitted, WithStaged;
    ghost var before, intents, capability := Facts(repo.stream), repo.intents, row.identity.capability;
    var finished := HasCompleted(repo.executions, row.identity.capability);
    SettleClaim(repo, key, row, APPLIED, now);
    if !finished {
      RecordExecution(repo, key, row.identity, ref, id, now);
    }
    CommitIntent(repo, key, row.identity.capability, now);
    MarkCredit(repo, row.identity.capability);
    Appended(before, [ClaimTransitioned(key, Claim(APPLIED, row.fence.owner, row.fence.token), now)],
             if finished then [] else RecoveredFacts(key, row.identity, ref, id, now),
             IntentFacts(intents, key, capability, now), CreditFacts(capability));
  }

  method MarkCredit(repo: LedgerRepository, capability: string)
    requires repo.Valid() && repo.dispute.Some?
    modifies repo`dispute, repo`stream, repo`head
    ensures repo.Valid()
    ensures repo.dispute == Some(if capability == CREDIT
      then old(repo.dispute).value.(status := "PROVISIONAL_CREDIT_POSTED", moneyMoved := true)
      else old(repo.dispute).value)
    ensures Facts(repo.stream) == old(Facts(repo.stream)) + CreditFacts(capability)
  {
    hide Exec;
    if capability == CREDIT {
      var found := repo.UpdateCaseStatus("PROVISIONAL_CREDIT_POSTED", Some(true));
    }
    var noted := repo.RecordAudit("CRASH_RECOVERY_CONFIRMED_APPLIED");
  }

  method ConfirmAbsent(repo: LedgerRepository, key: string, row: ClaimRow, now: Instant)
    requires repo.Valid() && repo.dispute.Some? && StillHeld(repo.claims, key, row)
    modifies repo`claims, repo`stream, repo`head
    ensures repo.Valid()
    ensures repo.claims == old(repo.claims)[key := Settled(old(repo.claims)[key], FAILED_RETRYABLE, now)]
    ensures Facts(repo.stream) == old(Facts(repo.stream))
      + [ClaimTransitioned(key, Claim(FAILED_RETRYABLE, row.fence.owner, row.fence.token), now),
         Note("CRASH_RECOVERY_CONFIRMED_ABSENT")]
  {
    SettleClaim(repo, key, row, FAILED_RETRYABLE, now);
    var noted := repo.RecordAudit("CRASH_RECOVERY_CONFIRMED_ABSENT");
  }

  function Settled(row: ClaimRow, to: ClaimStatus, now: Instant): ClaimRow {
    row.(fence := row.fence.(status := to), heartbeatAt := now, updatedAt := now)
  }

  /** The transition under the owner and token that were read. */
  method SettleClaim(repo: LedgerRepository, key: string, row: ClaimRow, to: ClaimStatus, now: Instant)
    requires repo.Valid() && repo.dispute.Some? && StillHeld(repo.claims, key, row)
    modifies repo`claims, repo`stream, repo`head
    ensures repo.Valid() && repo.claims == old(repo.claims)[key := Settled(old(repo.claims)[key], to, now)]
    ensures Facts(repo.stream) == old(Facts(repo.stream))
      + [ClaimTransitioned(key, Claim(to, row.fence.owner, row.fence.token), now)]
  {
    var moved := repo.TransitionEffectClaim(key, row.fence.owner, row.fence.token, {CLAIMED, APPLYING}, to, now);
  }

  method CommitIntent(repo: LedgerRepository, key: string, capability: string, now: Instant)
    requires repo.Valid() && repo.dispute.Some?
    modifies repo`intents, repo`stream, repo`head
    ensures repo.Valid() && repo.intents == WithCommitted(WithStaged(old(repo.intents), key, capability, now), key)
    ensures Facts(repo.stream) == old(Facts(repo.stream)) + IntentFacts(old(repo.intents), key, capability, now)
  {
    hide Exec;
    var staged := repo.StageIntent(key, capability, now);
    repo.MarkIntentCommitted(key);
  }

  method RecordExecution(repo: LedgerRepository, key: string, identity: Identity, ref: string, id: nat, now: Instant)
    requires repo.Valid() && repo.dispute.Some?
    modifies repo`executions, repo`ids, repo`stream, repo`head
    ensures repo.Valid() && repo.executions == old(repo.executions) + [RecoveredExecution(key, identity, ref, now)]
    ensures Facts(repo.stream) == old(Facts(repo.stream)) + RecoveredFacts(key, identity, ref, id, now)
  {
    var row := RecoveredExecution(key, identity, ref, now);
    var started := repo.StartExecution(id, row.opening);
    var completed := repo.CompleteExecution(id, row.completion.value);
  }

  method CarryOut(repo: LedgerRepository, key: string, row: ClaimRow, d: Decision, id: nat, now: Instant)
    requires repo.Valid() && repo.dispute.Some? && !d.Stuck? && (!d.Skip? ==> StillHeld(repo.claims, key, row))
    modifies repo
    ensures repo.Valid() && repo.dispute.Some? && repo.claims.Keys == old(repo.claims).Keys
    ensures key in repo.claims ==> repo.claims[key].fence == FenceAfter(old(repo.claims)[key].fence, d)
    ensures forall k :: k in repo.claims && k != key ==> repo.claims[k] == old(repo.claims)[k]
    ensures BooksOf(repo) == BooksAfter(old(BooksOf(repo)), key, row, d, now)
  {
    if d.Confirm? {
      ConfirmApplied(repo, key, row, d.ref, id, now);
    } else if d.Release? {
      ConfirmAbsent(repo, key, row, now);
    }
  }

  /** A lease a dead worker still holds is given back, with its event, before its claims are looked at. */
  method ReleaseDeadLease(lease: CaseLease.LeaseStore, dead: Owner -> bool, now: Instant)
    requires lease.Valid()
    modifies lease`row, lease.ledger`stream, lease.ledger`head
    ensures lease.Valid()
    ensures var row := old(lease.row);
      var held := row.Some? && row.value.releasedAt.None? && dead(row.value.owner);
      && lease.row == (if held then L.Release(row, None, None, now) else row)
      && lease.ledger.View() == CaseLease.Noted(old(lease.ledger.View()), held, CaseLease.RELEASED)
  {
    if lease.row.Some? && lease.row.value.releasedAt.None? && dead(lease.row.value.owner) {
      var released := lease.ReleaseLease(Some(lease.row.value.owner), Some(lease.row.value.token), now);
    }
  }

  lemma DecidedOneMore(w: Walk, before: map<string, ClaimRow>, claims: map<string, ClaimRow>,
                       after: map<string, ClaimRow>, n: nat)
    requires w.Valid() && n < |w.rows| && DecidedUpTo(w, before, claims, n) && after.Keys == claims.Keys
    requires forall k :: k in claims && k != w.rows[n] ==> after[k] == claims[k]
    requires DecidedAt(w, before, after, w.rows[n])
    ensures DecidedUpTo(w, before, after, n + 1)
  {
    assert w.rows[..n + 1] == w.rows[..n] + [w.rows[n]];
    forall i | 0 <= i < n + 1 ensures DecidedAt(w, before, after, w.rows[i]) {
      if i < n { assert DecidedAt(w, before, claims, w.rows[i]); }
    }
  }

  /** The walk ended at row n, which it could not resolve, for this reason. */
  ghost predicate StuckAt(w: Walk, before: map<string, ClaimRow>, after: map<string, ClaimRow>, n: nat, code: Code)
    requires w.Valid() && n < |w.rows|
  {
    DecidedUpTo(w, before, after, n) && Decide(w, before, w.rows[n]) == Stuck(code)
  }

  /** The row is as the walk found it. */
  lemma Untouched(w: Walk, before: map<string, ClaimRow>, claims: map<string, ClaimRow>, n: nat)
    requires w.Valid() && n < |w.rows| && DecidedUpTo(w, before, claims, n)
    ensures w.rows[n] in claims <==> w.rows[n] in before
    ensures w.rows[n] in claims ==> claims[w.rows[n]] == before[w.rows[n]]
    ensures Decide(w, claims, w.rows[n]) == Decide(w, before, w.rows[n])
  {
    assert w.rows[n] !in w.rows[..n];
  }

  /** One turn of the walk: `before` and `books` are what the walk started from. */
  method ResolveRow(repo: LedgerRepository, w: Walk, n: nat, id: nat, now: Instant,
                    ghost before: map<string, ClaimRow>, ghost books: Books) returns (stuck: Option<Code>)
    requires repo.Valid() && repo.dispute.Some? && w.Valid() && n < |w.rows|
    requires DecidedUpTo(w, before, repo.claims, n) && BooksOf(repo) == BooksUpTo(w, books, before, n, now)
    modifies repo
    ensures repo.Valid() && repo.dispute.Some?
    ensures stuck.None? ==> DecidedUpTo(w, before, repo.claims, n + 1)
    ensures stuck.None? ==> BooksOf(repo) == BooksUpTo(w, books, before, n + 1, now)
    ensures stuck.Some? ==> repo.View() == old(repo.View()) && StuckAt(w, before, repo.claims, n, stuck.value)
  {
    var key := w.rows[n];
    Untouched(w, before, repo.claims, n);
    var d := Decide(w, repo.claims, key);
    if d.Stuck? { return Some(d.code); }
    ghost var claims := repo.claims;
    hide Decide;
    assert !d.Skip? ==> StillHeld(repo.claims, key, w.read[key]) by { DecidedMeansHeld(w, repo.claims, key); }
    CarryOut(repo, key, w.read[key], d, id, now);
    DecidedOneMore(w, before, claims, repo.claims, n);
    stuck := None;
  }

  lemma DecidedMeansHeld(w: Walk, claims: map<string, ClaimRow>, key: string)
    requires key in w.read
    ensures var d := Decide(w, claims, key); d.Confirm? || d.Release? ==> StillHeld(claims, key, w.read[key])
  {
  }

  /**
   Gives back a dead worker's lease, then walks the claims. `allocate` gives the execution ids the database draws;
   `decided` is how many claims were resolved.
   */
  method RecoverDeadEffectClaims(repo: LedgerRepository, lease: CaseLease.LeaseStore, w: Walk, allocate: nat -> nat,
                                 now: Instant)
      returns (r: Option<Code>, decided: nat)
    requires lease.ledger == repo && lease.Valid() && repo.dispute.Some? && w.Valid()
    modifies repo, lease`row
    ensures lease.Valid() && decided <= |w.rows|
    ensures DecidedUpTo(w, old(repo.claims), repo.claims, decided)
    ensures BooksOf(repo) == BooksUpTo(w, old(BooksOf(repo)), old(repo.claims), decided, now)
    ensures r.None? ==> decided == |w.rows|
    ensures r.Some? ==> decided < |w.rows| && StuckAt(w, old(repo.claims), repo.claims, decided, r.value)
    ensures lease.row.Some? && lease.row.value.releasedAt.None? ==> !w.dead(lease.row.value.owner)
  {
    hide Decide, BooksUpTo, Exec;
    ReleaseDeadLease(lease, w.dead, now);
    r, decided := WalkClaims(repo, w, allocate, now);
  }

  /** Resolves the claims in row order and stops at the first it cannot resolve. */
  method WalkClaims(repo: LedgerRepository, w: Walk, allocate: nat -> nat, now: Instant)
      returns (r: Option<Code>, decided: nat)
    requires repo.Valid() && repo.dispute.Some? && w.Valid()
    modifies repo
    ensures repo.Valid() && repo.dispute.Some? && decided <= |w.rows|
    ensures DecidedUpTo(w, old(repo.claims), repo.claims, decided)
    ensures BooksOf(repo) == BooksUpTo(w, old(BooksOf(repo)), old(repo.claims), decided, now)
    ensures r.None? ==> decided == |w.rows|
    ensures r.Some? ==> decided < |w.rows| && StuckAt(w, old(repo.claims), repo.claims, decided, r.value)
  {
    ghost var before, books := repo.claims, BooksOf(repo);
    decided := 0;
    while decided < |w.rows|
      invariant decided <= |w.rows| && repo.Valid() && repo.dispute.Some?
      invariant DecidedUpTo(w, before, repo.claims, decided)
      invariant BooksOf(repo) == BooksUpTo(w, books, before, decided, now)
    {
      r := ResolveRow(repo, w, decided, allocate(|repo.ids|), now, before, books);
      if r.Some? { return; }
      decided := decided + 1;
    }
    r := None;
  }

  lemma DecidedIsSettled(w: Walk, before: map<string, ClaimRow>, after: map<string, ClaimRow>, key: string)
    requires key in w.read && key in before && after.Keys == before.Keys && DecidedAt(w, before, after, key)
    ensures w.read[key].fence == before[key].fence ==> !Live(after[key].fence.status)
  {
  }

  /** When the walk ends with nothing to report, a claim still in flight is one that moved after it was read. */
  lemma NoClaimLeftInFlight(w: Walk, before: map<string, ClaimRow>, after: map<string, ClaimRow>, k: string)
    requires w.Valid() && DecidedUpTo(w, before, after, |w.rows|) && k in after && Live(after[k].fence.status)
    ensures k in before && (k in w.read ==> w.read[k].fence != before[k].fence)
  {
    hide Decide, DecidedAt;
    if k in w.read {
      var i :| 0 <= i < |w.rows| && w.rows[i] == k;
      assert DecidedAt(w, before, after, w.rows[i]);
      if k in before { DecidedIsSettled(w, before, after, k); }
    }
  }

  /** What recovery does to one dead owner's claim, moved in between or not, is the protocol's recovery commit. */
  lemma RecoveryIsItsStep(cfg: P.Config, s: P.State, worker: Owner, w: Walk, claims: map<string, ClaimRow>, key: string)
    requires key in w.read && key in claims && s.claim == Some(claims[key].fence)
    requires var row := w.read[key];
      Live(row.fence.status) && w.dead(row.fence.owner) && row.identity.capability in ADAPTERS
    ensures var row, d := w.read[key], Decide(w, claims, key);
      var t := P.RecoveryStep(cfg, s, worker, row.fence.owner, row.fence.token, w.inquire(row));
      && t.claim == Some(FenceAfter(claims[key].fence, d))
      && (P.At(t, worker) == (if d.Stuck? then P.Done(false) else P.Idle))
  {
  }
}
