/** What else a workflow run writes rests on: recovered claims, the notice's obligation and deadline, and commits. */
module RunFacts {
  import opened Prelude
  import opened Outcomes
  import opened StateMachine
  import opened RegE
  import opened RegERuns
  import CrashRecovery
  import EngineCall
  import Ledger
  import P = Procedure

  // ---------------------------------------------------------------------------------------------------------------
  // Recovery
  // ---------------------------------------------------------------------------------------------------------------

  predicate InFlight(x: Case, c: P.Capability) {
    StatusOf(x, c) == Some(CLAIMED) || StatusOf(x, c) == Some(APPLYING)
  }

  /** A claim in flight can be settled when its owner is dead and the target says whether it holds the effect. */
  predicate Telling(q: Inquest) {
    q.dead && (q.verdict.Present? || q.verdict.Absent?)
  }

  predicate Decidable(x: Case, c: P.Capability, inquests: PerEffect<Inquest>) {
    InFlight(x, c) ==> Telling(inquests.Of(c))
  }

  /** Recovery gets past effect c: chargeback, credit and notice are taken in this order. */
  predicate GetsPast(x: Case, c: P.Capability, inquests: PerEffect<Inquest>) {
    && Decidable(x, P.Chargeback, inquests)
    && (c != P.Chargeback ==> Decidable(x, P.Credit, inquests))
    && (c == P.Notice ==> Decidable(x, P.Notice, inquests))
  }

  predicate Settles(x: Case, c: P.Capability, inquests: PerEffect<Inquest>) {
    InFlight(x, c) && GetsPast(x, c, inquests)
  }

  /** An effect that was found is applied, an absent one put back. */
  function SettledAs(q: Inquest): ClaimStatus {
    if q.verdict.Present? then APPLIED else FAILED_RETRYABLE
  }

  /** The case but for its claims, and the money mark and status of a credit that was found. */
  predicate MarksCredit(x: Case, y: Case, credited: bool) {
    y == x.(claims := y.claims, moneyMoved := x.moneyMoved || credited,
            status := if credited then PROVISIONAL_CREDIT_POSTED else x.status)
  }

  lemma ResolvedTells(x: Case, c: P.Capability, q: Inquest)
    ensures Resolved(x, c, q).Some? <==> (InFlight(x, c) ==> Telling(q))
    ensures Resolved(x, c, q).Some? ==>
      var y := Resolved(x, c, q).value;
      && (forall d :: StatusOf(y, d) == if d == c && InFlight(x, c) then Some(SettledAs(q)) else StatusOf(x, d))
      && MarksCredit(x, y, c == P.Credit && InFlight(x, c) && q.verdict.Present?)
  {
  }

  lemma RecoverUnrolls(x: Case, inquests: PerEffect<Inquest>)
    ensures Recover(x, ROW_ORDER, inquests) ==
      match Resolved(x, P.Chargeback, inquests.chargeback)
      case None => Recovery(x, false)
      case Some(a) =>
        match Resolved(a, P.Credit, inquests.credit)
        case None => Recovery(a, false)
        case Some(b) =>
          match Resolved(b, P.Notice, inquests.notice)
          case None => Recovery(b, false)
          case Some(n) => Recovery(n, true)
  {
    hide Resolved;
    assert ROW_ORDER[1..] == [P.Credit, P.Notice] && ROW_ORDER[1..][1..] == [P.Notice];
    assert ROW_ORDER[1..][1..][1..] == [];
  }

  /** Recovery stops at the first claim it cannot settle; those before it are applied if found, put back if absent. */
  lemma RecoveryTells(x: Case, inquests: PerEffect<Inquest>)
    ensures var r := Recover(x, ROW_ORDER, inquests);
      && (r.ok <==> GetsPast(x, P.Notice, inquests))
      && (forall c :: StatusOf(r.x, c) ==
            if Settles(x, c, inquests) then Some(SettledAs(inquests.Of(c))) else StatusOf(x, c))
      && MarksCredit(x, r.x, Settles(x, P.Credit, inquests) && inquests.credit.verdict.Present?)
  {
    hide Resolved, Recover, StatusOf, Telling, SettledAs;
    RecoverUnrolls(x, inquests);
    ResolvedTells(x, P.Chargeback, inquests.chargeback);
    var a := Resolved(x, P.Chargeback, inquests.chargeback);
    if a.Some? {
      ResolvedTells(a.value, P.Credit, inquests.credit);
      var b := Resolved(a.value, P.Credit, inquests.credit);
      if b.Some? { ResolvedTells(b.value, P.Notice, inquests.notice); }
    }
  }

  /** The workflow's view of one claim's recovery is the walk's decision on its row. */
  lemma ResolvedIsDecided(x: Case, c: P.Capability, q: Inquest, w: CrashRecovery.Walk,
                          claims: map<string, Ledger.ClaimRow>, key: string)
    requires key in w.read && key in claims && claims[key] == w.read[key]
    requires StatusOf(x, c) == Some(w.read[key].fence.status)
    requires w.read[key].identity.capability in CrashRecovery.ADAPTERS
    requires q == Inquest(w.dead(w.read[key].fence.owner), w.inquire(w.read[key]))
    ensures var d, y := CrashRecovery.Decide(w, claims, key), Resolved(x, c, q);
      && (d.Stuck? <==> y.None?)
      && (y.Some? ==> StatusOf(y.value, c) == Some(CrashRecovery.FenceAfter(claims[key].fence, d).status))
  {
  }

  // ---------------------------------------------------------------------------------------------------------------
  // The notice's obligation and deadline
  // ---------------------------------------------------------------------------------------------------------------

  function Rank(o: Option<Ledger.ObligationStatus>): nat {
    match o
    case None => 0
    case Some(PLANNED) => 1
    case Some(ACTIVE) => 2
    case Some(SATISFIED) => 3
  }

  /**
   The obligation only moves on, to active with an applied credit and to satisfied with an applied notice; the deadline
   is created pending with an applied credit and met with an applied notice.
   */
  predicate Follows(x: Case, y: Case) {
    && (forall c :: Has(x, c) ==> Has(y, c))
    && Rank(x.obligation) <= Rank(y.obligation)
    && (Rank(x.obligation) < 2 <= Rank(y.obligation) ==> Has(y, P.Credit))
    && (Rank(x.obligation) < 3 <= Rank(y.obligation) ==> Has(y, P.Notice))
    && (|| y.noticeDeadline == x.noticeDeadline
        || (x.noticeDeadline == None && y.noticeDeadline == Some(Ledger.PENDING) && Has(y, P.Credit))
        || (y.noticeDeadline == Some(Ledger.MET) && Has(y, P.Notice)))
  }

  /** Neither is touched. */
  predicate Leaves(x: Case, y: Case) {
    (forall c :: Has(x, c) ==> Has(y, c)) && y.obligation == x.obligation && y.noticeDeadline == x.noticeDeadline
  }

  lemma FollowsComposes(x: Case, y: Case, z: Case)
    requires Follows(x, y) && Follows(y, z)
    ensures Follows(x, z)
  {
  }

  lemma LeavesFollows(x: Case, y: Case)
    requires Leaves(x, y)
    ensures Follows(x, y)
  {
  }

  lemma OpenedFollows(x: Case, env: Environment, left: nat)
    ensures Follows(x, Opened(x, env, left).x)
  {
    hide Recover;
    if x.onFile {
      RecoveryTells(x, env.inquests);
      forall c | Has(x, c) ensures Has(Recover(x, ROW_ORDER, env.inquests).x, c) {
        assert !InFlight(x, c);
      }
    }
  }

  lemma VerifiedLeaves(x: Case, env: Environment, left: nat)
    ensures Leaves(x, Verified(x, env, left).x) && Verified(x, env, left).x.claims == x.claims
  {
    hide CanTransition;
  }

  lemma GaveUpLeaves(x: Case, y: Case, target: RegEState, left: nat)
    requires Leaves(x, y)
    ensures Leaves(x, GaveUp(y, target, left).x)
  {
  }

  lemma ActedLeaves(x: Case, c: P.Capability, env: Environment, left: nat)
    ensures Leaves(x, Acted(x, c, env, left).x)
    ensures Acted(x, c, env, left).flow.Go? ==> Has(Acted(x, c, env, left).x, c)
  {
    hide GaveUp, SettledStatus, FailureStatus;
    ActedGoes(x, c, env, left);
    GaveUpLeaves(x, x, NEEDS_HUMAN, left);
    if !Has(x, c) {
      var call := Called(x, c, env.effects.Of(c), left);
      CallLeavesCase(x, c, call);
      if call.ended.Returned? || call.ended.Settled? {
        GaveUpLeaves(x, AfterCall(x, c, call), FailureStatus(call.ended.o), call.left);
      }
    }
  }

  lemma CallLeavesCase(x: Case, c: P.Capability, call: EngineCall.CallEffect)
    requires !Has(x, c)
    ensures Leaves(x, AfterCall(x, c, call))
  {
  }

  lemma CaughtUpLeaves(x: Case, milestone: RegEState, left: nat)
    ensures Leaves(x, CaughtUp(x, milestone, left).x)
  {
  }

  lemma NotedFollows(x: Case, left: nat)
    requires Has(x, P.Credit)
    ensures Follows(x, Noted(x, left).x) && Has(Noted(x, left).x, P.Credit)
  {
  }

  lemma NoticeSettledFollows(x: Case, left: nat)
    requires Has(x, P.Credit) && Has(x, P.Notice)
    ensures Follows(x, NoticeSettled(x, left).x)
  {
  }

  lemma CreditedFollows(x: Case, env: Environment, left: nat)
    ensures Follows(x, Credited(x, env, left).x)
    ensures Credited(x, env, left).flow.Go? ==> Has(Credited(x, env, left).x, P.Credit)
  {
    hide Acted, CaughtUp, Noted, Follows;
    var a := Acted(x, P.Chargeback, env, left);
    ActedLeaves(x, P.Chargeback, env, left);
    LeavesFollows(x, a.x);
    if a.flow.Go? {
      var b := CaughtUp(a.x, CHARGEBACK_FILED, a.flow.left);
      CaughtUpLeaves(a.x, CHARGEBACK_FILED, a.flow.left);
      LeavesFollows(x, b.x);
      if b.flow.Go? {
        var c := Acted(b.x, P.Credit, env, b.flow.left);
        ActedLeaves(b.x, P.Credit, env, b.flow.left);
        LeavesFollows(x, c.x);
        if c.flow.Go? {
          NotedFollows(c.x, c.flow.left);
          FollowsComposes(x, c.x, Noted(c.x, c.flow.left).x);
        }
      }
    }
  }

  lemma NotifiedFollows(x: Case, env: Environment, left: nat)
    requires Has(x, P.Credit)
    ensures Follows(x, Notified(x, env, left).x)
  {
    hide Acted, CaughtUp, NoticeSettled, Follows;
    var p := if Has(x, P.Notice) then Stepped(x, Go(left)) else CaughtUp(x, NOTICE_PENDING, left);
    CaughtUpLeaves(x, NOTICE_PENDING, left);
    LeavesFollows(x, p.x);
    if p.flow.Go? {
      var a := Acted(p.x, P.Notice, env, p.flow.left);
      ActedLeaves(p.x, P.Notice, env, p.flow.left);
      LeavesFollows(x, a.x);
      if a.flow.Go? {
        NoticeSettledFollows(a.x, a.flow.left);
        FollowsComposes(x, a.x, NoticeSettled(a.x, a.flow.left).x);
      }
    }
  }

  /** Over every run, however it ends, the notice's obligation and deadline follow the effects they stand for. */
  lemma ObligationFollowsEffects(x: Case, env: Environment, left: nat)
    ensures Follows(x, Ran(x, env, left).x)
  {
    hide Opened, Verified, Credited, Notified, Follows, Leaves;
    var o := Opened(x, env, left);
    OpenedFollows(x, env, left);
    if o.flow.Go? {
      var v := Verified(o.x, env, o.flow.left);
      VerifiedLeaves(o.x, env, o.flow.left);
      LeavesFollows(o.x, v.x);
      FollowsComposes(x, o.x, v.x);
      if v.flow.Go? {
        var c := Credited(v.x, env, v.flow.left);
        CreditedFollows(v.x, env, v.flow.left);
        FollowsComposes(x, v.x, c.x);
        if c.flow.Go? {
          NotifiedFollows(c.x, env, c.flow.left);
          FollowsComposes(x, c.x, Notified(c.x, env, c.flow.left).x);
        }
      }
    }
  }

  // ---------------------------------------------------------------------------------------------------------------
  // Commits
  // ---------------------------------------------------------------------------------------------------------------

  /** Wherever a run has got to, a process that lives for no further commit changes nothing. */
  lemma NothingWithoutACommit(x: Case, env: Environment, c: P.Capability, r: Read, target: RegEState)
    ensures Ran(x, env, 0).x == x && ReadOnce(x, r, 0).x == x && Acted(x, c, env, 0).x == x
    ensures CaughtUp(x, target, 0).x == x && GaveUp(x, target, 0).x == x
    ensures Noted(x, 0).x == x && NoticeSettled(x, 0).x == x
  {
    assert RowOf(x, c).Some? ==> x.claims[c := x.claims[c]] == x.claims;
  }
}
