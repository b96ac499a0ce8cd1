/** The outcome taxonomy of an execution, and how a COMMIT outcome settles its durable claim. */
module Outcomes {
  import opened Prelude

  datatype Category = Success | BusinessOutcome | RecoverableFailure | HardFailure | UncertainEffect | NeedsHuman

  datatype Phase = BeforeSubmit | SubmitInitiated | SubmitConfirmed | AfterSubmitUnknown

  datatype Code =
    | Completed | ConfirmedApplied | NotApplied | ConfirmedNotApplied
    | MemberNotFound | AlreadyApplied | AlreadyClaimed | PolicyDenied
    | SessionExpired | PageDrift | NetworkTimeout
    | EntityBindingMismatch | AmountMismatch | PolicyViolation | LeaseFenced
    | PrecheckUnavailable | PrecheckAmbiguous | PrecheckInvalidResponse
    | PostcheckUnavailable | PostcheckAmbiguous | PostcheckInvalidResponse
    | TargetLedgerDivergence | TargetReconciliationUnavailable
    | PossiblyApplied | UncertainCode
    | ComplianceInterstitial

  datatype Outcome = Outcome(category: Category, code: Code, phase: Phase, moneyMoved: bool, auditRef: Option<string>) {
    predicate IsSuccess() { category == Success }
  }

  /** An outcome that carries neither money nor an audit reference. */
  function Plain(category: Category, code: Code, phase: Phase): Outcome {
    Outcome(category, code, phase, false, None)
  }

  datatype ClaimStatus = CLAIMED | APPLYING | APPLIED | UNCERTAIN | FAILED_RETRYABLE | FAILED_PERMANENT

  /** Statuses no engine or recovery step ever leaves. */
  predicate Terminal(s: ClaimStatus) {
    s == APPLIED || s == UNCERTAIN || s == FAILED_PERMANENT
  }

  /** The order of the branches matters: proof of absence outranks the phase, the phase outranks the category. */
  function SettleClaimStatus(o: Outcome): ClaimStatus {
    if o.IsSuccess() then APPLIED
    else if o.category == UncertainEffect then UNCERTAIN
    else if o.code == ConfirmedNotApplied then FAILED_RETRYABLE
    else if o.phase != BeforeSubmit then UNCERTAIN
    else if o.category == RecoverableFailure || o.category == NeedsHuman then FAILED_RETRYABLE
    else FAILED_PERMANENT
  }
}
