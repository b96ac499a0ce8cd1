/**
 One engine call as a function: where its transactions, any of which may be its last, leave the claim when nobody else
 touches it, what the call returns, and what both say about the effect.
 */
module EngineCall {
  import opened Prelude
  import opened Outcomes
  import opened Claims
  import opened Inquiry
  import opened Replay

  /** `Settled` returns an outcome that its own last transaction made durable. */
  datatype Ended = Returned(o: Outcome) | Settled(o: Outcome) | Raised | Killed

  /** What one call meets: the answer of its precheck, the attempt, and whether the lease can be had. */
  datatype Script = Script(precheck: Verdict, attempt: Attempt, leaseFree: bool)

  /** `left` is how many more commits the process lives for. */
  datatype CallEffect = CallEffect(claim: Option<Claim>, ended: Ended, left: nat)

  /** What an admission refused by an existing claim reports; APPLIED is confirmed at the target first. */
  function Refusal(c: Claim, precheck: Verdict): Outcome {
    if c.status != APPLIED then Plain(BusinessOutcome, AlreadyClaimed, BeforeSubmit)
    else if precheck.Present? then PrecheckOutcome(precheck)
    else Plain(BusinessOutcome, AlreadyApplied, BeforeSubmit)
  }

  /** Admission first; a process that lives for no more commits dies before the next one. */
  function CallLeaves(row: Option<Claim>, owner: Owner, movesMoney: bool, script: Script, left: nat): CallEffect {
    var granted := Acquire(row, owner);
    if left == 0 then CallEffect(row, Killed, 0)
    else if granted.None? then CallEffect(row, Returned(Refusal(row.value, script.precheck)), left - 1)
    else PrecheckLeaves(granted.value, movesMoney, script, left - 1)
  }

  function PrecheckLeaves(held: Claim, movesMoney: bool, script: Script, left: nat): CallEffect {
    if left == 0 then CallEffect(Some(held), Killed, 0)
    else match script.precheck
      case Absent => AttemptLeaves(held, movesMoney, script, left - 1)
      case Present(_) =>
        CallEffect(Some(held.(status := APPLIED)), Returned(PrecheckOutcome(script.precheck)), left - 1)
      case _ =>
        CallEffect(Some(held.(status := FAILED_RETRYABLE)), Returned(PrecheckOutcome(script.precheck)), left - 1)
  }

  function AttemptLeaves(held: Claim, movesMoney: bool, script: Script, left: nat): CallEffect {
    if !script.leaseFree then CallEffect(Some(held), Raised, left)
    else if left == 0 then CallEffect(Some(held), Killed, 0)
    else if left == 1 then CallEffect(Some(held.(status := APPLYING)), Killed, 0)
    else
      var o := CommitOutcome(script.attempt, movesMoney);
      CallEffect(Some(held.(status := SettleClaimStatus(o))), Settled(o), left - 2)
  }

  /** The commits of a call that is not killed. */
  function CallCommits(row: Option<Claim>, owner: Owner, script: Script): nat {
    if Acquire(row, owner).None? then 1 else if script.precheck != Absent || !script.leaseFree then 2 else 4
  }

  /** A call is killed exactly when the process does not live for all its commits; otherwise the rest remains. */
  lemma CallBudget(row: Option<Claim>, owner: Owner, movesMoney: bool, script: Script, left: nat)
    ensures var n := CallCommits(row, owner, script);
      var e := CallLeaves(row, owner, movesMoney, script, left);
      && (e.ended == Killed <==> left < n)
      && (left >= n ==> e == CallLeaves(row, owner, movesMoney, script, n).(left := left - n))
  {
  }

  /** What the caller takes for done: a success, or an effect that was there already. */
  predicate Succeeds(e: Ended) {
    (e.Returned? || e.Settled?) && (e.o.IsSuccess() || e.o.code == AlreadyApplied)
  }

  /** A claim that can be had: there is none yet, or it was put back. */
  predicate Admissible(row: Option<Claim>) {
    row.None? || row.value.status == FAILED_RETRYABLE
  }

  /** The target holds the effect already, or holds it once the attempt was made. */
  predicate Lands(script: Script, movesMoney: bool) {
    || script.precheck.Present?
    || (script.precheck == Absent && script.leaseFree
        && var d := Deciding(script.attempt, movesMoney); d.Some? && d.value.Present?)
  }

  /**
   An unkilled call on a claim that is not applied yet succeeds exactly when the claim can be had and the target ends
   up holding the effect; it then leaves the claim APPLIED, and moves money exactly if it sent the credit itself.
   */
  lemma CallSucceedsExactly(row: Option<Claim>, owner: Owner, movesMoney: bool, script: Script, left: nat)
    requires (row.Some? ==> row.value.status != APPLIED) && left >= CallCommits(row, owner, script)
    ensures var e := CallLeaves(row, owner, movesMoney, script, left);
      && (Succeeds(e.ended) <==> Admissible(row) && Lands(script, movesMoney))
      && (Succeeds(e.ended) ==> e.claim.Some? && e.claim.value.status == APPLIED)
      && (Succeeds(e.ended) ==> (e.ended.Settled? <==> script.precheck == Absent))
      && (e.ended.Settled? ==> (e.ended.o.moneyMoved <==> Succeeds(e.ended) && movesMoney))
      && (Succeeds(e.ended) && e.ended.Settled? ==> e.ended.o.category == Success)
  {
    PhaseSoundness(script.attempt, movesMoney);
  }

  /**
   What a finished or killed call says about the effect: APPLIED is reached only on a matching record; a claim is put
   back as retryable only if nothing was sent, or the target refused it, or an inquiry found nothing; and a kill never
   leaves a settled claim behind that was not settled before.
   */
  lemma CallIsSound(row: Option<Claim>, owner: Owner, movesMoney: bool, script: Script, left: nat)
    requires Acquire(row, owner).Some?
    ensures var e := CallLeaves(row, owner, movesMoney, script, left);
      var d := Deciding(script.attempt, movesMoney);
      var status := if e.claim.Some? then e.claim.value.status else CLAIMED;
      && (e.ended == Killed ==> e.claim == row || status in {CLAIMED, APPLYING})
      && (e.ended != Killed && status == APPLIED ==> script.precheck.Present? || (d.Some? && d.value.Present?))
      && (e.ended != Killed && status == FAILED_RETRYABLE ==>
            || script.precheck != Absent
            || !Actuated(script.attempt.transport) || RefusedBeforeActing(script.attempt.transport)
            || d == Some(Absent))
      && (e.ended.Settled? && e.ended.o.moneyMoved ==> status == APPLIED && movesMoney)
  {
    PhaseSoundness(script.attempt, movesMoney);
  }
}
