/**
 The engine's durable transactions over the repository and the lease, one method per commit, each shown to make the
 step of the protocol that stands for it; and a whole call, which may be killed between any two of them.
 */
module Engine {
  import opened Prelude
  import opened Outcomes
  import opened Claims
  import opened EngineCall
  import opened Ledger
  import opened Repository
  import opened Inquiry
  import opened Replay
  import CaseLease
  import L = Lease
  import P = Protocol

  /** One effect as one engine instance pursues it. */
  datatype Call = Call(key: string, identity: Identity, owner: Owner, version: string, movesMoney: bool)

  function CodeName(code: Code): string {
    match code
    case Completed => "COMPLETED"
    case ConfirmedApplied => "CONFIRMED_APPLIED"
    case NotApplied => "NOT_APPLIED"
    case ConfirmedNotApplied => "CONFIRMED_NOT_APPLIED"
    case MemberNotFound => "MEMBER_NOT_FOUND"
    case AlreadyApplied => "ALREADY_APPLIED"
    case AlreadyClaimed => "ALREADY_CLAIMED"
    case PolicyDenied => "POLICY_DENIED"
    case SessionExpired => "SESSION_EXPIRED"
    case PageDrift => "PAGE_DRIFT"
    case NetworkTimeout => "NETWORK_TIMEOUT"
    case EntityBindingMismatch => "ENTITY_BINDING_MISMATCH"
    case AmountMismatch => "AMOUNT_MISMATCH"
    case PolicyViolation => "POLICY_VIOLATION"
    case LeaseFenced => "LEASE_FENCED"
    case PrecheckUnavailable => "PRECHECK_UNAVAILABLE"
    case PrecheckAmbiguous => "PRECHECK_AMBIGUOUS"
    case PrecheckInvalidResponse => "PRECHECK_INVALID_RESPONSE"
    case PostcheckUnavailable => "POSTCHECK_UNAVAILABLE"
    case PostcheckAmbiguous => "POSTCHECK_AMBIGUOUS"
    case PostcheckInvalidResponse => "POSTCHECK_INVALID_RESPONSE"
    case TargetLedgerDivergence => "TARGET_LEDGER_DIVERGENCE"
    case TargetReconciliationUnavailable => "TARGET_RECONCILIATION_UNAVAILABLE"
    case PossiblyApplied => "POSSIBLY_APPLIED"
    case UncertainCode => "UNCERTAIN_EFFECT"
    case ComplianceInterstitial => "COMPLIANCE_INTERSTITIAL"
  }

  ghost function ClaimOf(repo: LedgerRepository, key: string): Option<Claim>
    reads repo
  {
    if key in repo.claims then Some(repo.claims[key].fence) else None
  }

  /** The repository's claim row and money flag are the protocol state's. */
  ghost predicate Represents(repo: LedgerRepository, key: string, s: P.State)
    reads repo
  {
    && s.claim == ClaimOf(repo, key)
    && repo.dispute.Some? && s.caseMoved == repo.dispute.value.moneyMoved
  }

  /** No other row of the table was touched. */
  ghost predicate KeptElsewhere<V>(before: map<string, V>, after: map<string, V>, key: string) {
    && before.Keys + {key} == after.Keys + {key}
    && forall k :: k in before && k != key ==> k in after && after[k] == before[k]
  }

  /** The row that records an effect found before anything was sent. */
  function FoundAlready(call: Call, ref: string, now: Instant): Execution {
    Execution(
      Opening(call.identity.capability, call.version, "COMMIT", Some(call.key), None, None, "AUTOMATION", None, now),
      Some(Completion("ALREADY_APPLIED", None, None, None, Some(ref), false, now)))
  }

  /** Admission: insert or reclaim, in one transaction. */
  method Admit(repo: LedgerRepository, call: Call, now: Instant, ttl: int) returns (c: EffectClaim)
    requires repo.Valid() && repo.dispute.Some?
    modifies repo`claims, repo`stream, repo`head
    ensures repo.Valid() && call.key in repo.claims && KeptElsewhere(old(repo.claims), repo.claims, call.key)
    ensures var granted := Acquire(old(ClaimOf(repo, call.key)), call.owner);
      && (c.acquired <==> granted.Some?)
      && ClaimOf(repo, call.key) == (if granted.Some? then granted else old(ClaimOf(repo, call.key)))
      && (granted.Some? ==> granted == Some(Claim(CLAIMED, call.owner, c.token)))
    ensures Facts(repo.stream) == old(Facts(repo.stream)) +
      if c.acquired then [EffectClaimed(call.key, repo.claims[call.key])] else [Note("EFFECT_CLAIM_REJECTED")]
  {
    c := repo.ClaimEffect(call.key, call.identity, call.owner, now, ttl);
    if !c.acquired {
      var noted := repo.RecordAudit("EFFECT_CLAIM_REJECTED");
    }
  }

  /** That transaction is the protocol's admission, followed by its reclaim when the claim read was retryable. */
  lemma AdmissionIsItsSteps(cfg: P.Config, s: P.State, w: Owner)
    requires P.At(s, w) == P.Idle
    ensures var read := P.Next(cfg, s, P.Admit(w));
      var done := if P.At(read, w).SawRetryable? then P.Next(cfg, read, P.RetryClaim(w)) else read;
      var granted := Acquire(s.claim, w);
      && done.claim == (if granted.Some? then granted else s.claim)
      && P.At(done, w) == if granted.Some? then P.Working(granted.value.token, P.Fresh) else P.Done(P.IsApplied(s))
  {
  }

  predicate MayMove(claim: Option<Claim>, call: Call, token: nat) {
    claim == Some(Claim(CLAIMED, call.owner, token))
  }

  /** The precheck's events, given whether the intent is on file and whether the claim still is the caller's. */
  function PrecheckFacts(call: Call, token: nat, v: Verdict, id: nat, staged: bool, moves: bool, now: Instant)
    : seq<Fact>
  {
    match v
    case Present(r) =>
      [Note("PRECHECK_ALREADY_APPLIED")] + FoundFacts(call, id, r, now) + MovedFacts(call, token, APPLIED, moves, now)
    case Absent => StagedFacts(call, staged, now)
    case _ => MovedFacts(call, token, FAILED_RETRYABLE, moves, now) + [Note("PRECHECK_HALTED")]
  }

  function StagedFacts(call: Call, staged: bool, now: Instant): seq<Fact> {
    (if staged then [] else [IntentStaged(call.key, Intent(call.identity.capability, false, now))])
      + [Note("EFFECT_INTENT_STAGED")]
  }

  function FoundFacts(call: Call, id: nat, ref: string, now: Instant): seq<Fact> {
    var row := FoundAlready(call, ref, now);
    [ExecutionStarted(id, row.opening), ExecutionCompleted(id, row.completion.value)]
  }

  function MovedFacts(call: Call, token: nat, to: ClaimStatus, moves: bool, now: Instant): seq<Fact> {
    if moves then [ClaimTransitioned(call.key, Claim(to, call.owner, token), now)] else []
  }

  /** The precheck's transaction: found, free to go ahead, or no usable answer. */
  method CommitPrecheck(repo: LedgerRepository, call: Call, token: nat, v: Verdict, id: nat, now: Instant,
                        ghost s: P.State)
    requires repo.Valid() && Represents(repo, call.key, s)
    modifies repo`claims, repo`executions, repo`ids, repo`intents, repo`stream, repo`head
    ensures repo.Valid() && Represents(repo, call.key, P.PrecheckStep(s, call.owner, token, v))
    ensures KeptElsewhere(old(repo.claims), repo.claims, call.key)
    ensures repo.executions == old(repo.executions) + if v.Present? then [FoundAlready(call, v.ref, now)] else []
    ensures repo.intents == if v == Absent
      then WithStaged(old(repo.intents), call.key, call.identity.capability, now)
      else old(repo.intents)
    ensures Facts(repo.stream) == old(Facts(repo.stream)) + PrecheckFacts(
      call, token, v, id, old(call.key in repo.intents), MayMove(old(ClaimOf(repo, call.key)), call, token), now)
  {
    hide Exec, Facts, FoundFacts, MovedFacts, StagedFacts, FoundAlready, WithStaged, MayMove;
    ghost var before, moves := Facts(repo.stream), MayMove(ClaimOf(repo, call.key), call, token);
    if v.Present? {
      var noted := repo.RecordAudit("PRECHECK_ALREADY_APPLIED");
      RecordFound(repo, call, id, v.ref, now);
      MoveClaimed(repo, call, token, APPLIED, now);
      Appended(before, [Note("PRECHECK_ALREADY_APPLIED")], FoundFacts(call, id, v.ref, now),
               MovedFacts(call, token, APPLIED, moves, now), []);
    } else if v == Absent {
      StageAndNote(repo, call, now);
    } else {
      MoveClaimed(repo, call, token, FAILED_RETRYABLE, now);
      var noted := repo.RecordAudit("PRECHECK_HALTED");
      Appended(before, MovedFacts(call, token, FAILED_RETRYABLE, moves, now), [Note("PRECHECK_HALTED")], [], []);
    }
  }

  /** The conditional update whose result the precheck branches ignore. */
  method MoveClaimed(repo: LedgerRepository, call: Call, token: nat, to: ClaimStatus, now: Instant)
    requires repo.Valid() && repo.dispute.Some?
    modifies repo`claims, repo`stream, repo`head
    ensures repo.Valid() && KeptElsewhere(old(repo.claims), repo.claims, call.key)
    ensures var moved := Transition(old(ClaimOf(repo, call.key)), call.owner, token, {CLAIMED}, to);
      ClaimOf(repo, call.key) == if moved.Some? then moved else old(ClaimOf(repo, call.key))
    ensures Facts(repo.stream) == old(Facts(repo.stream))
      + MovedFacts(call, token, to, MayMove(old(ClaimOf(repo, call.key)), call, token), now)
  {
    var moved := repo.TransitionEffectClaim(call.key, call.owner, token, {CLAIMED}, to, now);
  }

  method StageAndNote(repo: LedgerRepository, call: Call, now: Instant)
    requires repo.Valid() && repo.dispute.Some?
    modifies repo`intents, repo`stream, repo`head
    ensures repo.Valid() && repo.intents == WithStaged(old(repo.intents), call.key, call.identity.capability, now)
    ensures Facts(repo.stream) == old(Facts(repo.stream)) + StagedFacts(call, old(call.key in repo.intents), now)
  {
    var staged := repo.StageIntent(call.key, call.identity.capability, now);
    var noted := repo.RecordAudit("EFFECT_INTENT_STAGED");
  }

  method RecordFound(repo: LedgerRepository, call: Call, id: nat, ref: string, now: Instant)
    requires repo.Valid() && repo.dispute.Some?
    modifies repo`executions, repo`ids, repo`stream, repo`head
    ensures repo.Valid() && repo.executions == old(repo.executions) + [FoundAlready(call, ref, now)]
    ensures Facts(repo.stream) == old(Facts(repo.stream)) + FoundFacts(call, id, ref, now)
  {
    var row := FoundAlready(call, ref, now);
    var started := repo.StartExecution(id, row.opening);
    var completed := repo.CompleteExecution(id, row.completion.value);
  }

  function StartedExecution(call: Call, now: Instant): Execution {
    Execution(
      Opening(call.identity.capability, call.version, "COMMIT", Some(call.key), Some(call.identity.member),
              Some(call.identity.amount), "AUTOMATION", None, now),
      None)
  }

  /**
   The lease, APPLYING and the started execution commit together; a conflict or a stale token undoes all three, so the
   claim is looked at before anything is written.
   */
  method EnterApplying(repo: LedgerRepository, lease: CaseLease.LeaseStore, call: Call, token: nat, id: nat, ttl: int,
                       now: Instant, ghost s: P.State)
      returns (leaseToken: Option<nat>)
    requires lease.ledger == repo && lease.Valid() && Represents(repo, call.key, s)
    modifies repo`claims, repo`executions, repo`ids, repo`stream, repo`head, lease`row
    ensures lease.Valid() && Represents(repo, call.key, s.(claim := ClaimOf(repo, call.key)))
    ensures KeptElsewhere(old(repo.claims), repo.claims, call.key)
    ensures var acquired := L.Acquire(old(lease.row), L.Request(call.owner, L.AUTOMATION, repo.caseId, ttl), now);
      var moved := Transition(s.claim, call.owner, token, {CLAIMED}, APPLYING);
      && (leaseToken.Some? <==> acquired.Ok? && moved.Some?)
      && (leaseToken.Some? ==> ClaimOf(repo, call.key) == moved && lease.row == Some(acquired.value))
      && (leaseToken.Some? ==> leaseToken.value == acquired.value.token)
    ensures leaseToken.Some? ==>
      repo.executions == old(repo.executions) + [StartedExecution(call, now)] && repo.ids == old(repo.ids) + [id]
    ensures leaseToken.Some? ==> L.Validates(lease.row, call.owner, leaseToken.value, now)
    ensures leaseToken.Some? ==>
      var issued := old(lease.row).None? || leaseToken.value != old(lease.row).value.token;
      var leased := CaseLease.Noted(old(repo.View()), issued, CaseLease.ACQUIRED);
      repo.View() == AppliedAndStarted(leased, call, token, id, now)
    ensures leaseToken.None? ==> repo.View() == old(repo.View()) && lease.row == old(lease.row)
  {
    hide Exec;
    var claim := if call.key in repo.claims then Some(repo.claims[call.key].fence) else None;
    if Transition(claim, call.owner, token, {CLAIMED}, APPLYING).None? { return None; }
    var held := lease.AcquireLease(call.owner, Some("AUTOMATION"), now, ttl, None);
    if held.Err? { return None; }
    var started := ApplyAndStart(repo, call, token, id, now);
    leaseToken := Some(held.value.token);
  }

  function AppliedAndStarted(l: Ledger, call: Call, token: nat, id: nat, now: Instant): Ledger {
    Exec(Exec(l, TransitionClaim(call.key, call.owner, token, {CLAIMED}, APPLYING, now)),
         Op.StartExecution(id, StartedExecution(call, now).opening))
  }

  method ApplyAndStart(repo: LedgerRepository, call: Call, token: nat, id: nat, now: Instant) returns (ok: bool)
    requires repo.Valid() && repo.dispute.Some?
    modifies repo`claims, repo`executions, repo`ids, repo`stream, repo`head
    ensures repo.Valid() && KeptElsewhere(old(repo.claims), repo.claims, call.key)
    ensures var moved := Transition(old(ClaimOf(repo, call.key)), call.owner, token, {CLAIMED}, APPLYING);
      ok == moved.Some? && (ok ==> ClaimOf(repo, call.key) == moved)
    ensures ok ==>
      repo.executions == old(repo.executions) + [StartedExecution(call, now)] && repo.ids == old(repo.ids) + [id]
    ensures repo.View() == if ok then AppliedAndStarted(old(repo.View()), call, token, id, now) else old(repo.View())
  {
    ok := repo.TransitionEffectClaim(call.key, call.owner, token, {CLAIMED}, APPLYING, now);
    if ok {
      StartRow(repo, id, StartedExecution(call, now));
    }
  }

  method StartRow(repo: LedgerRepository, id: nat, row: Execution)
    requires repo.Valid() && repo.dispute.Some? && row.completion.None?
    modifies repo`executions, repo`ids, repo`stream, repo`head
    ensures repo.Valid() && repo.executions == old(repo.executions) + [row] && repo.ids == old(repo.ids) + [id]
    ensures repo.View() == Exec(old(repo.View()), Op.StartExecution(id, row.opening))
  {
    var started := repo.StartExecution(id, row.opening);
  }

  /** What settling writes to the case row. */
  function SettledCase(row: CaseRow, o: Outcome): CaseRow {
    var marked := if o.moneyMoved then row.(status := "PROVISIONAL_CREDIT_POSTED", moneyMoved := true) else row;
    match o.category
    case UncertainEffect => marked.(status := "UNCERTAIN_EFFECT")
    case NeedsHuman => marked.(status := "NEEDS_HUMAN")
    case HardFailure => marked.(status := "FAILED")
    case _ => marked
  }

  lemma SettledMoney(row: CaseRow, o: Outcome)
    ensures SettledCase(row, o).moneyMoved == (row.moneyMoved || o.moneyMoved)
  {
  }

  function CategoryName(c: Category): string {
    match c
    case Success => "SUCCESS"
    case BusinessOutcome => "BUSINESS_OUTCOME"
    case RecoverableFailure => "RECOVERABLE_FAILURE"
    case HardFailure => "HARD_FAILURE"
    case UncertainEffect => "UNCERTAIN_EFFECT"
    case NeedsHuman => "NEEDS_HUMAN"
  }

  function CompletionOf(call: Call, o: Outcome, now: Instant): Completion {
    Completion(CodeName(o.code), Some(call.identity.member), if o.moneyMoved then Some(call.identity.amount) else None,
               if o.IsSuccess() then None else Some(CategoryName(o.category)), o.auditRef, o.moneyMoved, now)
  }

  /** The events of marking the case, `moved` being the money flag before. */
  function MarkedFacts(o: Outcome, moved: bool): seq<Fact> {
    MoneyFacts(o.moneyMoved) + ReconciledFacts(o.code) + CategoryFacts(o.category, moved || o.moneyMoved)
  }

  function MoneyFacts(moves: bool): seq<Fact> {
    if moves then [StatusUpdated("PROVISIONAL_CREDIT_POSTED", true), MoneyMoved] else []
  }

  function ReconciledFacts(code: Code): seq<Fact> {
    if code == ConfirmedApplied then [Note("EFFECT_RECONCILED")] else []
  }

  function CategoryFacts(category: Category, moved: bool): seq<Fact> {
    match category
    case UncertainEffect => [StatusUpdated("UNCERTAIN_EFFECT", moved), Note("UNCERTAIN_EFFECT_ESCALATION")]
    case NeedsHuman => [StatusUpdated("NEEDS_HUMAN", moved), Note("HUMAN_HANDOFF_REQUIRED")]
    case HardFailure => [StatusUpdated("FAILED", moved), Note("HARD_FAILURE")]
    case _ => []
  }

  method MarkCase(repo: LedgerRepository, o: Outcome)
    requires repo.Valid() && repo.dispute.Some?
    modifies repo`dispute, repo`stream, repo`head
    ensures repo.Valid() && repo.dispute == Some(SettledCase(old(repo.dispute).value, o))
    ensures Facts(repo.stream) == old(Facts(repo.stream)) + MarkedFacts(o, old(repo.dispute).value.moneyMoved)
  {
    hide Exec, MoneyFacts, ReconciledFacts, CategoryFacts, Facts;
    ghost var before, moved := Facts(repo.stream), repo.dispute.value.moneyMoved;
    MarkMoney(repo, o.moneyMoved);
    NoteReconciled(repo, o.code);
    MarkCategory(repo, o.category);
    Appended(before, MoneyFacts(o.moneyMoved), ReconciledFacts(o.code),
             CategoryFacts(o.category, moved || o.moneyMoved), []);
  }

  method MarkMoney(repo: LedgerRepository, moves: bool)
    requires repo.Valid() && repo.dispute.Some?
    modifies repo`dispute, repo`stream, repo`head
    ensures repo.Valid() && repo.dispute == if !moves then old(repo.dispute)
      else Some(old(repo.dispute).value.(status := "PROVISIONAL_CREDIT_POSTED", moneyMoved := true))
    ensures Facts(repo.stream) == old(Facts(repo.stream)) + MoneyFacts(moves)
  {
    hide Exec;
    if moves {
      var found := repo.UpdateCaseStatus("PROVISIONAL_CREDIT_POSTED", Some(true));
      var noted := repo.RecordMoney();
    }
  }

  method NoteReconciled(repo: LedgerRepository, code: Code)
    requires repo.Valid() && repo.dispute.Some?
    modifies repo`stream, repo`head
    ensures repo.Valid() && Facts(repo.stream) == old(Facts(repo.stream)) + ReconciledFacts(code)
  {
    hide Exec;
    if code == ConfirmedApplied {
      var noted := repo.RecordAudit("EFFECT_RECONCILED");
    }
  }

  method MarkCategory(repo: LedgerRepository, category: Category)
    requires repo.Valid() && repo.dispute.Some?
    modifies repo`dispute, repo`stream, repo`head
    ensures repo.Valid()
    ensures repo.dispute == Some(SettledCase(old(repo.dispute).value, Plain(category, NotApplied, BeforeSubmit)))
    ensures Facts(repo.stream) == old(Facts(repo.stream)) + CategoryFacts(category, old(repo.dispute).value.moneyMoved)
  {
    hide Exec, Facts;
    if category == UncertainEffect {
      MarkAs(repo, "UNCERTAIN_EFFECT", "UNCERTAIN_EFFECT_ESCALATION");
    } else if category == NeedsHuman {
      MarkAs(repo, "NEEDS_HUMAN", "HUMAN_HANDOFF_REQUIRED");
    } else if category == HardFailure {
      MarkAs(repo, "FAILED", "HARD_FAILURE");
    }
  }

  method MarkAs(repo: LedgerRepository, status: string, note: string)
    requires repo.Valid() && repo.dispute.Some?
    modifies repo`dispute, repo`stream, repo`head
    ensures repo.Valid() && repo.dispute == Some(old(repo.dispute).value.(status := status))
    ensures Facts(repo.stream) == old(Facts(repo.stream)) + [StatusUpdated(status, old(repo.dispute).value.moneyMoved),
                                                             Note(note)]
  {
    hide Exec;
    var found := repo.UpdateCaseStatus(status, None);
    var noted := repo.RecordAudit(note);
  }

  /** What would make the settlement raise, each undoing everything the transaction wrote. */
  predicate MaySettle(ids: seq<nat>, claim: Option<Claim>, lease: Option<L.Lease>, call: Call, token: nat,
                      leaseToken: nat, id: nat, o: Outcome, now: Instant)
  {
    && id in ids
    && Transition(claim, call.owner, token, {APPLYING}, SettleClaimStatus(o)).Some?
    && (lease.Some? ==> L.Release(lease, Some(call.owner), Some(leaseToken), now).Some?)
  }

  /** The settlement's events, in order; `commits` says that the intent was waiting to be committed. */
  function SettlementFacts(call: Call, token: nat, id: nat, o: Outcome, moved: bool, commits: bool, now: Instant)
    : seq<Fact>
  {
    [ExecutionCompleted(id, CompletionOf(call, o, now))] + MarkedFacts(o, moved)
      + [ClaimTransitioned(call.key, Claim(SettleClaimStatus(o), call.owner, token), now)]
      + if commits then [IntentCommitted(call.key)] else []
  }

  predicate Waiting(intents: map<string, Intent>, key: string) {
    key in intents && !intents[key].committed
  }

  method WriteSettlement(repo: LedgerRepository, call: Call, token: nat, id: nat, o: Outcome, now: Instant)
    requires repo.Valid() && repo.dispute.Some? && id in repo.ids
    requires Transition(ClaimOf(repo, call.key), call.owner, token, {APPLYING}, SettleClaimStatus(o)).Some?
    modifies repo`dispute, repo`executions, repo`intents, repo`claims, repo`stream, repo`head
    ensures repo.Valid() && repo.dispute == Some(SettledCase(old(repo.dispute).value, o))
    ensures repo.executions == WithCompletion(old(repo.executions), repo.ids, id, CompletionOf(call, o, now))
    ensures ClaimOf(repo, call.key)
      == Transition(old(ClaimOf(repo, call.key)), call.owner, token, {APPLYING}, SettleClaimStatus(o))
    ensures repo.intents == if o.IsSuccess() then WithCommitted(old(repo.intents), call.key) else old(repo.intents)
    ensures KeptElsewhere(old(repo.claims), repo.claims, call.key)
    ensures var moved := old(repo.dispute).value.moneyMoved;
      var commits := o.IsSuccess() && Waiting(old(repo.intents), call.key);
      Facts(repo.stream) == old(Facts(repo.stream)) + SettlementFacts(call, token, id, o, moved, commits, now)
  {
    hide Facts, CompletionOf, MarkedFacts, SettleClaimStatus, WithCompletion, WithCommitted, SettledCase, Exec;
    ghost var before, moved := Facts(repo.stream), repo.dispute.value.moneyMoved;
    ghost var commits := o.IsSuccess() && Waiting(repo.intents, call.key);
    CompleteRow(repo, id, CompletionOf(call, o, now));
    MarkCase(repo, o);
    SettleClaim(repo, call, token, SettleClaimStatus(o), now);
    if o.IsSuccess() { CommitIntent(repo, call.key); }
    Appended(before, [ExecutionCompleted(id, CompletionOf(call, o, now))], MarkedFacts(o, moved),
             [ClaimTransitioned(call.key, Claim(SettleClaimStatus(o), call.owner, token), now)],
             if commits then [IntentCommitted(call.key)] else []);
  }

  method CompleteRow(repo: LedgerRepository, id: nat, completion: Completion)
    requires repo.Valid() && repo.dispute.Some? && id in repo.ids
    modifies repo`executions, repo`stream, repo`head
    ensures repo.Valid() && repo.executions == WithCompletion(old(repo.executions), repo.ids, id, completion)
    ensures Facts(repo.stream) == old(Facts(repo.stream)) + [ExecutionCompleted(id, completion)]
  {
    var found := repo.CompleteExecution(id, completion);
  }

  method CommitIntent(repo: LedgerRepository, key: string)
    requires repo.Valid() && repo.dispute.Some?
    modifies repo`intents, repo`stream, repo`head
    ensures repo.Valid() && repo.intents == WithCommitted(old(repo.intents), key)
    ensures Facts(repo.stream) == old(Facts(repo.stream))
      + if Waiting(old(repo.intents), key) then [IntentCommitted(key)] else []
  {
    repo.MarkIntentCommitted(key);
  }

  /**
   The settlement: execution, case row, claim, intent and lease commit together or not at all. The guards are read
   first because a miss at any of them rolls back the writes before it.
   */
  method Settle(repo: LedgerRepository, lease: CaseLease.LeaseStore, call: Call, token: nat, leaseToken: nat, id: nat,
                o: Outcome, now: Instant, ghost s: P.State) returns (ok: bool)
    requires lease.ledger == repo && lease.Valid() && Represents(repo, call.key, s)
    modifies repo`dispute, repo`executions, repo`intents, repo`claims, repo`stream, repo`head, lease`row
    ensures lease.Valid()
    ensures ok == MaySettle(repo.ids, s.claim, old(lease.row), call, token, leaseToken, id, o, now)
    ensures ok ==> Represents(repo, call.key, P.SettleStep(s, call.owner, token, o))
    ensures ok ==> ClaimOf(repo, call.key) == Some(Claim(SettleClaimStatus(o), call.owner, token))
    ensures ok ==> repo.dispute == Some(SettledCase(old(repo.dispute).value, o))
    ensures ok ==> id in repo.ids
    ensures ok ==> repo.executions == WithCompletion(old(repo.executions), repo.ids, id, CompletionOf(call, o, now))
    ensures ok ==>
      repo.intents == if o.IsSuccess() then WithCommitted(old(repo.intents), call.key) else old(repo.intents)
    ensures KeptElsewhere(old(repo.claims), repo.claims, call.key)
    ensures ok ==>
      var commits := o.IsSuccess() && Waiting(old(repo.intents), call.key);
      var settled := SettlementFacts(call, token, id, o, old(repo.dispute).value.moneyMoved, commits, now);
      var released := if old(lease.row).Some? then [Note(CaseLease.RELEASED)] else [];
      Facts(repo.stream) == old(Facts(repo.stream)) + settled + released
    ensures ok ==> forall owner, t, later :: !L.Validates(lease.row, owner, t, later)
    ensures !ok ==> repo.View() == old(repo.View()) && lease.row == old(lease.row)
  {
    hide Exec, CompletionOf, WithCompletion, WithCommitted, SettledCase, SettlementFacts;
    var claim := if call.key in repo.claims then Some(repo.claims[call.key].fence) else None;
    ok := MaySettle(repo.ids, claim, lease.row, call, token, leaseToken, id, o, now);
    if !ok { return; }
    SettledMoney(repo.dispute.value, o);
    WriteSettlement(repo, call, token, id, o, now);
    CaseLease.NotedFacts(repo.View(), lease.row.Some?, CaseLease.RELEASED);
    var released := lease.ReleaseLease(Some(call.owner), Some(leaseToken), now);
  }

  function WithCompletion(executions: seq<Execution>, ids: seq<nat>, id: nat, completion: Completion): seq<Execution>
    requires |ids| == |executions| && id in ids
  {
    var i := Find(ids, id).value;
    executions[i := executions[i].(completion := Some(completion))]
  }

  method SettleClaim(repo: LedgerRepository, call: Call, token: nat, to: ClaimStatus, now: Instant)
    requires repo.Valid() && repo.dispute.Some?
    requires Transition(ClaimOf(repo, call.key), call.owner, token, {APPLYING}, to).Some?
    modifies repo`claims, repo`stream, repo`head
    ensures repo.Valid()
    ensures ClaimOf(repo, call.key) == Transition(old(ClaimOf(repo, call.key)), call.owner, token, {APPLYING}, to)
    ensures KeptElsewhere(old(repo.claims), repo.claims, call.key)
    ensures Facts(repo.stream) == old(Facts(repo.stream))
      + [ClaimTransitioned(call.key, Claim(to, call.owner, token), now)]
  {
    var moved := repo.TransitionEffectClaim(call.key, call.owner, token, {APPLYING}, to, now);
  }

  // ---------------------------------------------------------------------------------------------------------------
  // A whole call
  // ---------------------------------------------------------------------------------------------------------------

  predicate LeaseIsFree(row: Option<L.Lease>, caseId: string, call: Call, ttl: int, now: Instant) {
    L.Acquire(row, L.Request(call.owner, L.AUTOMATION, caseId, ttl), now).Ok?
  }

  /** One engine call: four transactions, any of which may be its last. `id` is the execution id the database gives. */
  method ExecuteCapability(repo: LedgerRepository, lease: CaseLease.LeaseStore, call: Call, script: Script, left: nat,
                           id: nat, ttl: int, now: Instant) returns (ended: Ended, rest: nat)
    requires lease.ledger == repo && lease.Valid() && repo.dispute.Some?
    requires script.leaseFree == LeaseIsFree(lease.row, repo.caseId, call, ttl, now)
    modifies repo, lease
    ensures lease.Valid()
    ensures CallEffect(ClaimOf(repo, call.key), ended, rest)
      == CallLeaves(old(ClaimOf(repo, call.key)), call.owner, call.movesMoney, script, left)
  {
    if left == 0 { return Killed, 0; }
    var claim := Admit(repo, call, now, ttl);
    if !claim.acquired {
      return Returned(Refusal(repo.claims[call.key].fence, script.precheck)), left - 1;
    }
    ended, rest := Precheck(repo, lease, call, claim.token, script, left - 1, id, ttl, now);
  }

  method Precheck(repo: LedgerRepository, lease: CaseLease.LeaseStore, call: Call, token: nat, script: Script,
                  left: nat, id: nat, ttl: int, now: Instant) returns (ended: Ended, rest: nat)
    requires lease.ledger == repo && lease.Valid() && repo.dispute.Some?
    requires script.leaseFree == LeaseIsFree(lease.row, repo.caseId, call, ttl, now)
    requires ClaimOf(repo, call.key) == Some(Claim(CLAIMED, call.owner, token))
    modifies repo, lease
    ensures lease.Valid()
    ensures CallEffect(ClaimOf(repo, call.key), ended, rest)
      == PrecheckLeaves(Claim(CLAIMED, call.owner, token), call.movesMoney, script, left)
  {
    if left == 0 { return Killed, 0; }
    ghost var s := P.State(ClaimOf(repo, call.key), [], repo.dispute.value.moneyMoved, [], 0, map[], []);
    CommitPrecheck(repo, call, token, script.precheck, id, now, s);
    if script.precheck != Absent { return Returned(PrecheckOutcome(script.precheck)), left - 1; }
    ended, rest := Attempt(repo, lease, call, token, script, left - 1, id, ttl, now);
  }

  lemma UndisturbedMaySettle(ids: seq<nat>, lease: L.Lease, call: Call, token: nat, id: nat, o: Outcome, now: Instant)
    requires id in ids && L.Validates(Some(lease), call.owner, lease.token, now)
    ensures MaySettle(ids, Some(Claim(APPLYING, call.owner, token)), Some(lease), call, token, lease.token, id, o, now)
  {
  }

  method Attempt(repo: LedgerRepository, lease: CaseLease.LeaseStore, call: Call, token: nat, script: Script, left: nat,
                 id: nat, ttl: int, now: Instant) returns (ended: Ended, rest: nat)
    requires lease.ledger == repo && lease.Valid() && repo.dispute.Some?
    requires script.leaseFree == LeaseIsFree(lease.row, repo.caseId, call, ttl, now)
    requires ClaimOf(repo, call.key) == Some(Claim(CLAIMED, call.owner, token))
    modifies repo, lease
    ensures lease.Valid()
    ensures CallEffect(ClaimOf(repo, call.key), ended, rest)
      == AttemptLeaves(Claim(CLAIMED, call.owner, token), call.movesMoney, script, left)
  {
    hide Exec, Facts, AppliedAndStarted, SettledCase, CompletionOf, SettlementFacts, MaySettle, L.Acquire;
    if script.leaseFree && left == 0 { return Killed, 0; }
    ghost var s := P.State(ClaimOf(repo, call.key), [], repo.dispute.value.moneyMoved, [], 0, map[], []);
    var leaseToken := EnterApplying(repo, lease, call, token, id, ttl, now, s);
    if leaseToken.None? { return Raised, left; }
    if left == 1 { return Killed, 0; }
    var o := CommitOutcome(script.attempt, call.movesMoney);
    s := s.(claim := ClaimOf(repo, call.key));
    UndisturbedMaySettle(repo.ids, lease.row.value, call, token, id, o, now);
    var settled := Settle(repo, lease, call, token, leaseToken.value, id, o, now, s);
    return EngineCall.Settled(o), left - 2;
  }
}
