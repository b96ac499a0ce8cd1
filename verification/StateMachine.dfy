/** The statuses of a Regulation E case, the permitted transitions, and the happy path the workflow follows. */
module StateMachine {
  datatype RegEState =
    | RECEIVED | MEMBER_VERIFIED | TRANSACTION_VERIFIED | DUPLICATE_CHECKED | CHARGEBACK_FILED
    | PROVISIONAL_CREDIT_POSTED | NOTICE_PENDING | NOTICE_SENT | WAITING_RESOLUTION
    | RESOLVED | NEEDS_HUMAN | UNCERTAIN_EFFECT | FAILED

  function ValidTransitions(s: RegEState): set<RegEState> {
    match s
    case RECEIVED => {MEMBER_VERIFIED, FAILED, NEEDS_HUMAN}
    case MEMBER_VERIFIED => {TRANSACTION_VERIFIED, FAILED, NEEDS_HUMAN}
    case TRANSACTION_VERIFIED => {DUPLICATE_CHECKED, FAILED, NEEDS_HUMAN}
    case DUPLICATE_CHECKED => {CHARGEBACK_FILED, PROVISIONAL_CREDIT_POSTED, RESOLVED, NEEDS_HUMAN, FAILED}
    case CHARGEBACK_FILED => {PROVISIONAL_CREDIT_POSTED, NEEDS_HUMAN, UNCERTAIN_EFFECT, FAILED}
    case PROVISIONAL_CREDIT_POSTED => {NOTICE_PENDING, NOTICE_SENT, NEEDS_HUMAN, UNCERTAIN_EFFECT, FAILED}
    case NOTICE_PENDING => {NOTICE_SENT, NEEDS_HUMAN, FAILED}
    case NOTICE_SENT => {WAITING_RESOLUTION, RESOLVED}
    case WAITING_RESOLUTION => {RESOLVED, NEEDS_HUMAN}
    case NEEDS_HUMAN =>
      {MEMBER_VERIFIED, TRANSACTION_VERIFIED, DUPLICATE_CHECKED, CHARGEBACK_FILED, PROVISIONAL_CREDIT_POSTED,
       NOTICE_PENDING, NOTICE_SENT, WAITING_RESOLUTION, RESOLVED, FAILED}
    case UNCERTAIN_EFFECT => {NEEDS_HUMAN, RESOLVED, FAILED}
    case RESOLVED => {}
    case FAILED => {}
  }

  predicate CanTransition(current: RegEState, target: RegEState) {
    current == target || target in ValidTransitions(current)
  }

  /** Position on the happy path, or -1. */
  function Milestone(s: RegEState): int {
    match s
    case RECEIVED => 0
    case MEMBER_VERIFIED => 1
    case TRANSACTION_VERIFIED => 2
    case DUPLICATE_CHECKED => 3
    case CHARGEBACK_FILED => 4
    case PROVISIONAL_CREDIT_POSTED => 5
    case NOTICE_PENDING => 6
    case NOTICE_SENT => 7
    case WAITING_RESOLUTION => 8
    case _ => -1
  }

  /**
   The permitted moves by rule: one milestone forward, past the chargeback or past the pending notice; to a human from
   anywhere not yet told to the member or ended, and from there anywhere but back to the start or into uncertainty; into
   uncertainty only while money is on its way; to an end not from another one.
   */
  lemma TransitionsExactly(a: RegEState, b: RegEState)
    ensures CanTransition(a, b) <==>
      || a == b
      || (0 <= Milestone(a) && Milestone(b) == Milestone(a) + 1)
      || (a == DUPLICATE_CHECKED && b == PROVISIONAL_CREDIT_POSTED)
      || (a == PROVISIONAL_CREDIT_POSTED && b == NOTICE_SENT)
      || (a == NEEDS_HUMAN && b != RECEIVED && b != UNCERTAIN_EFFECT)
      || (b == NEEDS_HUMAN && a != NOTICE_SENT && a != RESOLVED && a != FAILED)
      || (b == FAILED && a != NOTICE_SENT && a != WAITING_RESOLUTION && a != RESOLVED)
      || (b == UNCERTAIN_EFFECT && (a == CHARGEBACK_FILED || a == PROVISIONAL_CREDIT_POSTED))
      || (b == RESOLVED && a in {DUPLICATE_CHECKED, NOTICE_SENT, WAITING_RESOLUTION, UNCERTAIN_EFFECT})
  {
  }

  /** The status after the workflow makes sure a milestone is reached: catch up if permitted, never fall back. */
  function Reached(current: RegEState, milestone: RegEState): RegEState {
    if 0 <= Milestone(milestone) <= Milestone(current) then current
    else if CanTransition(current, milestone) then milestone
    else current
  }
}
