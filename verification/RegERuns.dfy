/** What single runs and whole histories of killed, stopped and resumed runs of the workflow do to a case. */
module RegERuns {
  import opened Prelude
  import opened Outcomes
  import opened Inquiry
  import opened StateMachine
  import opened RegE
  import EngineCall
  import Ledger
  import Replay
  import P = Procedure

  predicate AllRead(x: Case) {
    VerifyMember in x.done && LocateTransaction in x.done && CheckDuplicate in x.done
  }

  /** A status from which the workflow finds its way: the happy path, or a case parked for a human. */
  predicate OnCourse(x: Case) {
    Milestone(x.status) >= 0 || x.status == NEEDS_HUMAN
  }

  /** The READ capabilities complete in order, and a happy-path status says exactly how many have. */
  predicate ReadsMatch(x: Case) {
    && (LocateTransaction in x.done ==> VerifyMember in x.done)
    && (CheckDuplicate in x.done ==> LocateTransaction in x.done)
    && (Milestone(x.status) >= 0 ==>
          && (VerifyMember in x.done <==> Milestone(x.status) >= 1)
          && (LocateTransaction in x.done <==> Milestone(x.status) >= 2)
          && (CheckDuplicate in x.done <==> Milestone(x.status) >= 3))
  }

  /** What every commit of the workflow keeps. */
  predicate Valid(x: Case) {
    && (!x.onFile ==> x.status == RECEIVED && x.done == {} && x.claims == map[])
    && ReadsMatch(x)
    && (Milestone(x.status) >= 5 ==> x.moneyMoved)
    && (x.status == UNCERTAIN_EFFECT ==> AllRead(x))
    && (x.claims != map[] ==> AllRead(x) && x.obligation.Some?)
  }

  /** Past the READs, with the obligation on file. */
  predicate Underway(x: Case) {
    Valid(x) && x.onFile && AllRead(x) && x.obligation.Some?
  }

  /** So no READ ever finds its own status already there. */
  lemma ReadsNeverRepeatAStatus(x: Case, r: Read)
    requires Valid(x) && r !in x.done
    ensures x.status != ReadState(r)
  {
  }

  // ---------------------------------------------------------------------------------------------------------------
  // Single steps keep the case valid
  // ---------------------------------------------------------------------------------------------------------------

  lemma ResolvedIsValid(x: Case, c: P.Capability, q: Inquest)
    requires Valid(x) && x.onFile
    ensures Resolved(x, c, q).Some? ==> Valid(Resolved(x, c, q).value) && Resolved(x, c, q).value.onFile
  {
  }

  lemma {:induction false} RecoverIsValid(x: Case, order: seq<P.Capability>, inquests: PerEffect<Inquest>)
    requires Valid(x) && x.onFile
    ensures Valid(Recover(x, order, inquests).x) && Recover(x, order, inquests).x.onFile
    decreases |order|
  {
    if order != [] {
      ResolvedIsValid(x, order[0], inquests.Of(order[0]));
      var y := Resolved(x, order[0], inquests.Of(order[0]));
      if y.Some? { RecoverIsValid(y.value, order[1..], inquests); }
    }
  }

  lemma OpenedIsValid(x: Case, env: Environment, left: nat)
    requires Valid(x)
    ensures var o := Opened(x, env, left);
      Valid(o.x) && (o.flow.Go? ==> o.x.onFile && o.x.obligation.Some?)
  {
    hide Recover;
    if x.onFile { RecoverIsValid(x, ROW_ORDER, env.inquests); }
  }

  lemma ReadOnceIsValid(x: Case, r: Read, left: nat)
    requires Valid(x) && x.onFile
    requires InOrder(x, r)
    ensures Valid(ReadOnce(x, r, left).x) && ReadOnce(x, r, left).x.onFile
  {
  }

  lemma GaveUpIsValid(x: Case, target: RegEState, left: nat)
    requires Valid(x) && x.onFile && Milestone(target) < 0
    ensures Valid(GaveUp(x, target, left).x) && GaveUp(x, target, left).x.(status := x.status) == x
    ensures GaveUp(x, target, left).flow.Exit? && GaveUp(x, target, left).flow.result != Finished
  {
  }

  lemma VerifiedIsValid(x: Case, env: Environment, left: nat)
    requires Valid(x) && x.onFile
    ensures var v := Verified(x, env, left);
      Valid(v.x) && v.x.onFile && v.x.obligation == x.obligation && (v.flow.Go? ==> AllRead(v.x))
  {
    if VerifyMember !in x.done && !env.memberFound {
      GaveUpIsValid(x, FAILED, left);
    } else {
      var a := ReadOnce(x, VerifyMember, left);
      ReadOnceIsValid(x, VerifyMember, left);
      if a.flow.Go? && !env.accountFound {
        GaveUpIsValid(a.x, NEEDS_HUMAN, a.flow.left);
      } else if a.flow.Go? {
        var b := ReadOnce(a.x, LocateTransaction, a.flow.left);
        ReadOnceIsValid(a.x, LocateTransaction, a.flow.left);
        if b.flow.Go? { ReadOnceIsValid(b.x, CheckDuplicate, b.flow.left); }
      }
    }
  }

  lemma EnsuredStaysUnderway(x: Case, milestone: RegEState, moved: bool)
    requires Underway(x) && Milestone(milestone) >= 3
    requires Milestone(milestone) >= 5 ==> moved || x.moneyMoved || !OnCourse(x)
    ensures Underway(Ensured(x, milestone, moved))
    ensures OnCourse(Ensured(x, milestone, moved)) <==> OnCourse(x)
  {
  }

  lemma AfterCallStaysUnderway(x: Case, c: P.Capability, e: Effect, left: nat)
    requires Underway(x)
    ensures Underway(AfterCall(x, c, Called(x, c, e, left)))
  {
  }

  lemma ActedStaysUnderway(x: Case, c: P.Capability, env: Environment, left: nat)
    requires Underway(x)
    ensures Underway(Acted(x, c, env, left).x)
    ensures Acted(x, c, env, left).flow != Exit(Finished)
  {
    var e := env.effects.Of(c);
    if !Has(x, c) && e.policy == Denies {
      GaveUpIsValid(x, NEEDS_HUMAN, left);
    } else if !Has(x, c) && e.policy == Passes {
      var call := Called(x, c, e, left);
      AfterCallStaysUnderway(x, c, e, left);
      if (call.ended.Returned? || call.ended.Settled?) && !EngineCall.Succeeds(call.ended) {
        GaveUpIsValid(AfterCall(x, c, call), FailureStatus(call.ended.o), call.left);
      }
    }
  }

  // ---------------------------------------------------------------------------------------------------------------
  // Where a phase that goes through leads, and what it costs
  // ---------------------------------------------------------------------------------------------------------------

  function One(missing: bool): nat { if missing then 1 else 0 }

  /** This run itself gets the effect to the target. */
  predicate Sends(x: Case, c: P.Capability, env: Environment) {
    !Has(x, c) && env.effects.Of(c).script.precheck == Absent
  }

  /** The effect is there, or the policy lets it through, its claim can be had, and the target ends up holding it. */
  predicate Goes(x: Case, c: P.Capability, env: Environment) {
    var e := env.effects.Of(c);
    || Has(x, c)
    || (e.policy == Passes && EngineCall.Admissible(RowOf(x, c)) && EngineCall.Lands(e.script, c == P.Credit))
  }

  function ActedTo(x: Case, c: P.Capability, env: Environment): Case {
    if Has(x, c) then x else AppliedBy(x, c, env.effects.Of(c))
  }

  /** The claim is APPLIED; a credit this run sent also moved the money. */
  function AppliedBy(x: Case, c: P.Capability, e: Effect): Case {
    if c == P.Credit && e.script.precheck == Absent then
      WithClaim(x, c, APPLIED).(status := PROVISIONAL_CREDIT_POSTED, moneyMoved := true)
    else WithClaim(x, c, APPLIED)
  }

  function ActCost(x: Case, c: P.Capability, env: Environment): nat {
    if Has(x, c) then 0 else EngineCall.CallCommits(RowOf(x, c), "", env.effects.Of(c).script)
  }

  lemma CallGoes(x: Case, c: P.Capability, e: Effect, left: nat)
    requires !Has(x, c)
    ensures var call := Called(x, c, e, left);
      var n := EngineCall.CallCommits(RowOf(x, c), "", e.script);
      && (EngineCall.Succeeds(call.ended) <==>
            left >= n && EngineCall.Admissible(RowOf(x, c)) && EngineCall.Lands(e.script, c == P.Credit))
      && (EngineCall.Succeeds(call.ended) ==> call.left == left - n)
      && (EngineCall.Succeeds(call.ended) ==> AfterCall(x, c, call) == AppliedBy(x, c, e))
  {
    EngineCall.CallBudget(RowOf(x, c), "", c == P.Credit, e.script, left);
    if left >= EngineCall.CallCommits(RowOf(x, c), "", e.script) {
      EngineCall.CallSucceedsExactly(RowOf(x, c), "", c == P.Credit, e.script, left);
    }
  }

  lemma ActedGoes(x: Case, c: P.Capability, env: Environment, left: nat)
    ensures var a := Acted(x, c, env, left);
      && (a.flow.Go? <==> left >= ActCost(x, c, env) && Goes(x, c, env))
      && (a.flow.Go? ==> a.flow.left == left - ActCost(x, c, env) && a.x == ActedTo(x, c, env))
  {
    if !Has(x, c) { CallGoes(x, c, env.effects.Of(c), left); }
  }

  lemma CaughtUpGoes(x: Case, milestone: RegEState, left: nat)
    ensures var a := CaughtUp(x, milestone, left);
      && (a.flow.Go? <==> left >= Catches(x, milestone, false))
      && (a.flow.Go? ==> a.flow.left == left - Catches(x, milestone, false) && a.x == Ensured(x, milestone, false))
  {
  }

  function ReadsMissing(x: Case): nat {
    One(VerifyMember !in x.done) + One(LocateTransaction !in x.done) + One(CheckDuplicate !in x.done)
  }

  predicate Readable(x: Case, env: Environment) {
    (VerifyMember in x.done || env.memberFound) && env.accountFound && (AllRead(x) || OnCourse(x))
  }

  function ReadAll(x: Case): Case {
    if AllRead(x) then x else x.(done := {VerifyMember, LocateTransaction, CheckDuplicate}, status := DUPLICATE_CHECKED)
  }

  function ReadTo(x: Case, r: Read): Case {
    if r in x.done then x else x.(done := x.done + {r}, status := ReadState(r))
  }

  predicate InOrder(x: Case, r: Read) {
    (r == LocateTransaction ==> VerifyMember in x.done) && (r == CheckDuplicate ==> LocateTransaction in x.done)
  }

  lemma ReadGoes(x: Case, r: Read, left: nat)
    requires Valid(x) && x.onFile && InOrder(x, r)
    ensures var a := ReadOnce(x, r, left);
      && (a.flow.Go? <==> left >= One(r !in x.done) && (r in x.done || OnCourse(x)))
      && (a.flow.Go? ==> a.flow.left == left - One(r !in x.done) && a.x == ReadTo(x, r))
    ensures Valid(ReadTo(x, r)) || (r !in x.done && !OnCourse(x))
    ensures r !in x.done ==> OnCourse(ReadTo(x, r))
  {
  }

  lemma VerifiedGoes(x: Case, env: Environment, left: nat)
    requires Valid(x) && x.onFile
    ensures var v := Verified(x, env, left);
      && (v.flow.Go? <==> left >= ReadsMissing(x) && Readable(x, env))
      && (v.flow.Go? ==> v.flow.left == left - ReadsMissing(x) && v.x == ReadAll(x))
  {
    hide ReadOnce, Valid;
    var a := ReadOnce(x, VerifyMember, left);
    ReadGoes(x, VerifyMember, left);
    if a.flow.Go? {
      var b := ReadOnce(a.x, LocateTransaction, a.flow.left);
      ReadGoes(a.x, LocateTransaction, a.flow.left);
      if b.flow.Go? {
        ReadGoes(b.x, CheckDuplicate, b.flow.left);
        EveryRead(ReadTo(b.x, CheckDuplicate).done);
      }
    }
    ReadsAreOrdered(x);
  }

  lemma ReadsAreOrdered(x: Case)
    requires Valid(x)
    ensures CheckDuplicate in x.done ==> LocateTransaction in x.done
    ensures LocateTransaction in x.done ==> VerifyMember in x.done
  {
  }

  lemma EveryRead(s: set<Read>)
    requires VerifyMember in s && LocateTransaction in s && CheckDuplicate in s
    ensures s == {VerifyMember, LocateTransaction, CheckDuplicate}
  {
    forall r: Read | r in s ensures r in {VerifyMember, LocateTransaction, CheckDuplicate} {
      assert r.VerifyMember? || r.LocateTransaction? || r.CheckDuplicate?;
    }
  }

  function ChargedTo(x: Case, env: Environment): Case {
    Ensured(ActedTo(x, P.Chargeback, env), CHARGEBACK_FILED, false)
  }

  function CreditedTo(x: Case, env: Environment): Case {
    Ensured(ActiveNotice(ActedTo(ChargedTo(x, env), P.Credit, env)), PROVISIONAL_CREDIT_POSTED, true)
  }

  function ChargeCost(x: Case, env: Environment): nat {
    ActCost(x, P.Chargeback, env) + Catches(ActedTo(x, P.Chargeback, env), CHARGEBACK_FILED, false)
  }

  function CreditCost(x: Case, env: Environment): nat {
    ActCost(x, P.Credit, env)
      + Catches(ActiveNotice(ActedTo(x, P.Credit, env)), PROVISIONAL_CREDIT_POSTED, true) + 1
  }

  lemma NotedGoes(x: Case, left: nat)
    requires x.obligation.Some?
    ensures var n := Noted(x, left);
      var cost := Catches(ActiveNotice(x), PROVISIONAL_CREDIT_POSTED, true) + 1;
      && (n.flow.Go? <==> left >= cost)
      && (n.flow.Go? ==> n.flow.left == left - cost && n.x == Ensured(ActiveNotice(x), PROVISIONAL_CREDIT_POSTED, true))
  {
  }

  lemma ChargedGoes(x: Case, env: Environment, left: nat)
    ensures var a := Acted(x, P.Chargeback, env, left);
      var b := CaughtUp(a.x, CHARGEBACK_FILED, if a.flow.Go? then a.flow.left else 0);
      && (a.flow.Go? && b.flow.Go? <==> left >= ChargeCost(x, env) && Goes(x, P.Chargeback, env))
      && (a.flow.Go? && b.flow.Go? ==> b.flow.left == left - ChargeCost(x, env) && b.x == ChargedTo(x, env))
  {
    var a := Acted(x, P.Chargeback, env, left);
    ActedGoes(x, P.Chargeback, env, left);
    if a.flow.Go? { CaughtUpGoes(a.x, CHARGEBACK_FILED, a.flow.left); }
  }

  lemma CreditStepGoes(x: Case, env: Environment, left: nat)
    requires x.obligation.Some?
    ensures var c := Acted(x, P.Credit, env, left);
      var n := Noted(c.x, if c.flow.Go? then c.flow.left else 0);
      var to := Ensured(ActiveNotice(ActedTo(x, P.Credit, env)), PROVISIONAL_CREDIT_POSTED, true);
      && (c.flow.Go? && n.flow.Go? <==> left >= CreditCost(x, env) && Goes(x, P.Credit, env))
      && (c.flow.Go? && n.flow.Go? ==> n.flow.left == left - CreditCost(x, env) && n.x == to)
  {
    var c := Acted(x, P.Credit, env, left);
    ActedGoes(x, P.Credit, env, left);
    if c.flow.Go? { NotedGoes(c.x, c.flow.left); }
  }

  predicate Creditable(x: Case, env: Environment) {
    && Goes(x, P.Chargeback, env) && Goes(x, P.Credit, env)
    && (Has(x, P.Credit) || !env.killAfterCredit)
  }

  lemma ChargingKeepsCredit(x: Case, env: Environment)
    ensures var y := ChargedTo(x, env);
      && y.obligation == x.obligation && y.noticeDeadline == x.noticeDeadline
      && y.done == x.done && y.onFile == x.onFile
      && StatusOf(y, P.Credit) == StatusOf(x, P.Credit) && StatusOf(y, P.Notice) == StatusOf(x, P.Notice)
      && Has(y, P.Chargeback) && (Goes(y, P.Credit, env) <==> Goes(x, P.Credit, env))
  {
  }

  lemma CreditedGoes(x: Case, env: Environment, left: nat)
    requires x.obligation.Some?
    ensures var c := Credited(x, env, left);
      var cost := ChargeCost(x, env) + CreditCost(ChargedTo(x, env), env);
      && (c.flow.Go? <==> left >= cost && Creditable(x, env))
      && (c.flow.Go? ==> c.flow.left == left - cost && c.x == CreditedTo(x, env))
  {
    hide Acted, CaughtUp, Noted, ChargeCost, CreditCost, ChargedTo, Goes, ActedTo;
    ChargedGoes(x, env, left);
    ChargingKeepsCredit(x, env);
    if left >= ChargeCost(x, env) {
      CreditStepGoes(ChargedTo(x, env), env, left - ChargeCost(x, env));
    }
  }

  function PendingTo(x: Case): Case {
    if Has(x, P.Notice) then x else Ensured(x, NOTICE_PENDING, false)
  }

  function NotifiedTo(x: Case, env: Environment): Case {
    Ensured(Ensured(SettledNotice(ActedTo(PendingTo(x), P.Notice, env)), NOTICE_SENT, false), WAITING_RESOLUTION, false)
  }

  function SettleCost(x: Case): nat {
    Catches(SettledNotice(x), NOTICE_SENT, false)
      + Catches(Ensured(SettledNotice(x), NOTICE_SENT, false), WAITING_RESOLUTION, false) + 1
  }

  function NoticeCost(x: Case, env: Environment): nat {
    (if Has(x, P.Notice) then 0 else Catches(x, NOTICE_PENDING, false))
      + ActCost(PendingTo(x), P.Notice, env) + SettleCost(ActedTo(PendingTo(x), P.Notice, env))
  }

  lemma NoticeSettledGoes(x: Case, left: nat)
    requires x.obligation.Some?
    ensures var n := NoticeSettled(x, left);
      && (n.flow.Go? <==> left >= SettleCost(x))
      && (n.flow.Go? ==> n.flow.left == left - SettleCost(x))
      && (n.flow.Go? ==> n.x == Ensured(Ensured(SettledNotice(x), NOTICE_SENT, false), WAITING_RESOLUTION, false))
      && n.flow != Exit(Finished)
  {
  }

  lemma PendingGoes(x: Case, env: Environment, left: nat)
    ensures Goes(PendingTo(x), P.Notice, env) <==> Goes(x, P.Notice, env)
    ensures PendingTo(x).obligation == x.obligation
  {
  }

  lemma NotifiedGoes(x: Case, env: Environment, left: nat)
    requires x.obligation.Some? && Underway(x)
    ensures var n := Notified(x, env, left);
      && (n.flow == Exit(Finished) <==> left >= NoticeCost(x, env) && Goes(x, P.Notice, env))
      && (n.flow == Exit(Finished) ==> n.x == NotifiedTo(x, env))
  {
    PendingGoes(x, env, left);
    if !Has(x, P.Notice) { CaughtUpGoes(x, NOTICE_PENDING, left); }
    var p := if Has(x, P.Notice) then Stepped(x, Go(left)) else CaughtUp(x, NOTICE_PENDING, left);
    if p.flow.Go? {
      var a := Acted(p.x, P.Notice, env, p.flow.left);
      ActedGoes(p.x, P.Notice, env, p.flow.left);
      ActedNeverFinishes(p.x, P.Notice, env, p.flow.left);
      if a.flow.Go? { NoticeSettledGoes(a.x, a.flow.left); }
    }
  }

  lemma ActedNeverFinishes(x: Case, c: P.Capability, env: Environment, left: nat)
    ensures Acted(x, c, env, left).flow != Exit(Finished)
  {
  }

  // ---------------------------------------------------------------------------------------------------------------
  // One run
  // ---------------------------------------------------------------------------------------------------------------

  /** The case once recovery has looked at its claims. */
  function Base(x: Case, env: Environment): Case {
    Planned(if x.onFile then Recover(x, ROW_ORDER, env.inquests).x else x.(onFile := true))
  }

  /**
   Every claim in flight belongs to a dead worker and the target says what became of it; whatever is applied then agrees
   with its target.
   */
  predicate Resumable(x: Case, env: Environment) {
    x.onFile ==>
      var r := Recover(x, ROW_ORDER, env.inquests);
      r.ok && (env.reconciled || forall c: P.Capability :: !Has(r.x, c))
  }

  lemma OpenedGoes(x: Case, env: Environment, left: nat)
    ensures var o := Opened(x, env, left);
      && (o.flow.Go? <==> left >= 2 && Resumable(x, env))
      && (o.flow.Go? ==> o.flow.left == left - 2 && o.x == Base(x, env))
      && o.flow != Exit(Finished)
  {
    hide Recover;
    var r := if x.onFile then Recover(x, ROW_ORDER, env.inquests).x else x;
    if !Has(r, P.Chargeback) && !Has(r, P.Credit) && !Has(r, P.Notice) {
      forall c: P.Capability ensures !Has(r, c) {
        match c case Chargeback => case Credit => case Notice =>
      }
    }
  }

  lemma BaseIsValid(x: Case, env: Environment)
    requires Valid(x)
    ensures Valid(Base(x, env)) && Base(x, env).onFile && Base(x, env).obligation.Some?
  {
    if x.onFile { RecoverIsValid(x, ROW_ORDER, env.inquests); }
  }

  /** From an opened case: nothing outside the ledger stands in the way, and the status permits the missing READs. */
  predicate Clear(b: Case, env: Environment) {
    Readable(b, env) && Creditable(b, env) && Goes(b, P.Notice, env)
  }

  predicate Favourable(x: Case, env: Environment) {
    Resumable(x, env) && Clear(Base(x, env), env)
  }

  /** The commits of a run that goes through: READs, chargeback, credit, notice. */
  function PhaseCosts(b: Case, env: Environment): nat {
    var r := ReadAll(b);
    ReadsMissing(b) + ChargeCost(r, env) + CreditCost(ChargedTo(r, env), env) + NoticeCost(CreditedTo(r, env), env)
  }

  /** Opening takes two more. */
  function Commits(x: Case, env: Environment): nat {
    2 + PhaseCosts(Base(x, env), env)
  }

  lemma ReadAllIsUnderway(x: Case)
    requires Valid(x) && x.onFile && x.obligation.Some? && (AllRead(x) || OnCourse(x))
    ensures Underway(ReadAll(x)) && (OnCourse(ReadAll(x)) <==> OnCourse(x)) && ReadAll(x).claims == x.claims
    ensures ReadAll(x).noticeDeadline == x.noticeDeadline && ReadAll(x).obligation == x.obligation
  {
  }

  lemma ActedToStaysUnderway(x: Case, c: P.Capability, env: Environment)
    requires Underway(x)
    ensures Underway(ActedTo(x, c, env)) && Has(ActedTo(x, c, env), c)
    ensures OnCourse(ActedTo(x, c, env)) <==> OnCourse(x) || (c == P.Credit && Sends(x, c, env))
    ensures forall d: P.Capability :: d != c ==> StatusOf(ActedTo(x, c, env), d) == StatusOf(x, d)
  {
  }

  /** Past the credit: with the money marked as moved and the notice deadline set, or off course for good. */
  predicate AfterCredit(x: Case) {
    && Underway(x) && x.noticeDeadline.Some? && (Milestone(x.status) >= 5 || !OnCourse(x))
    && Has(x, P.Chargeback) && Has(x, P.Credit)
  }

  lemma CreditedToIsAfterCredit(x: Case, env: Environment)
    requires Underway(x)
    ensures AfterCredit(CreditedTo(x, env))
    ensures OnCourse(CreditedTo(x, env)) <==> OnCourse(x) || Sends(x, P.Credit, env)
    ensures StatusOf(CreditedTo(x, env), P.Notice) == StatusOf(x, P.Notice)
  {
    var a := ActedTo(x, P.Chargeback, env);
    ActedToStaysUnderway(x, P.Chargeback, env);
    EnsuredStaysUnderway(a, CHARGEBACK_FILED, false);
    ChargingKeepsCredit(x, env);
    var b := ChargedTo(x, env);
    ActedToStaysUnderway(b, P.Credit, env);
    NotingIsAfterCredit(ActedTo(b, P.Credit, env));
  }

  lemma NotingIsAfterCredit(x: Case)
    requires Underway(x) && Has(x, P.Chargeback) && Has(x, P.Credit)
    ensures var y := Ensured(ActiveNotice(x), PROVISIONAL_CREDIT_POSTED, true);
      && AfterCredit(y) && (OnCourse(y) <==> OnCourse(x)) && y.claims == x.claims
  {
    EnsuredStaysUnderway(ActiveNotice(x), PROVISIONAL_CREDIT_POSTED, true);
  }

  /** Every effect is at the target and on the ledger, and the notice's obligation and deadline are settled. */
  predicate Complete(y: Case) {
    && Valid(y) && Has(y, P.Chargeback) && Has(y, P.Credit) && Has(y, P.Notice)
    && y.obligation == Some(Ledger.SATISFIED) && y.noticeDeadline == Some(Ledger.MET)
  }

  lemma NotifiedToIsComplete(x: Case, env: Environment)
    requires AfterCredit(x)
    ensures Complete(NotifiedTo(x, env))
    ensures NotifiedTo(x, env).status == WAITING_RESOLUTION <==> OnCourse(x)
  {
    var p := PendingTo(x);
    EnsuredStaysUnderway(x, NOTICE_PENDING, false);
    assert AfterCredit(p) && (OnCourse(p) <==> OnCourse(x));
    ActedToStaysUnderway(p, P.Notice, env);
    SettlingCompletes(ActedTo(p, P.Notice, env));
  }

  lemma SettlingCompletes(x: Case)
    requires AfterCredit(x) && Has(x, P.Notice)
    ensures var y := Ensured(Ensured(SettledNotice(x), NOTICE_SENT, false), WAITING_RESOLUTION, false);
      Complete(y) && (y.status == WAITING_RESOLUTION <==> OnCourse(x))
  {
  }

  /** From an opened case on: exactly when the run finishes, and where. */
  lemma FromOpenedFinishes(x: Case, env: Environment, left: nat)
    requires Valid(x) && x.onFile && x.obligation.Some?
    ensures var y := FromOpened(x, env, left);
      && (y.flow == Exit(Finished) <==> left >= PhaseCosts(x, env) && Clear(x, env))
      && (y.flow == Exit(Finished) ==> y.x == NotifiedTo(CreditedTo(ReadAll(x), env), env))
  {
    hide Verified, Credited, Notified, ChargeCost, CreditCost, NoticeCost, CreditedTo, NotifiedTo;
    var v := Verified(x, env, left);
    VerifiedGoes(x, env, left);
    VerifiedNeverFinishes(x, env, left);
    if v.flow.Go? {
      ReadAllIsUnderway(x);
      GoesOnClaimsAlone(v.x, x, env);
      var c := Credited(v.x, env, v.flow.left);
      CreditedGoes(v.x, env, v.flow.left);
      CreditedNeverFinishes(v.x, env, v.flow.left);
      if c.flow.Go? {
        CreditedToIsAfterCredit(v.x, env);
        assert Goes(c.x, P.Notice, env) <==> Goes(x, P.Notice, env);
        NotifiedGoes(c.x, env, c.flow.left);
      }
    }
  }

  lemma GoesOnClaimsAlone(x: Case, y: Case, env: Environment)
    requires x.claims == y.claims
    ensures Creditable(x, env) == Creditable(y, env)
    ensures forall c: P.Capability :: Goes(x, c, env) == Goes(y, c, env)
  {
  }

  lemma VerifiedNeverFinishes(x: Case, env: Environment, left: nat)
    ensures Verified(x, env, left).flow != Exit(Finished)
  {
  }

  lemma CreditedNeverFinishes(x: Case, env: Environment, left: nat)
    ensures Credited(x, env, left).flow != Exit(Finished)
  {
    var a := Acted(x, P.Chargeback, env, left);
    ActedNeverFinishes(x, P.Chargeback, env, left);
    if a.flow.Go? {
      var b := CaughtUp(a.x, CHARGEBACK_FILED, a.flow.left);
      if b.flow.Go? { ActedNeverFinishes(b.x, P.Credit, env, b.flow.left); }
    }
  }

  /** A run that returns SUCCESS. */
  predicate Finishes(x: Case, env: Environment, left: nat) {
    Ran(x, env, left).flow == Exit(Finished)
  }

  predicate FinishesFrom(b: Case, env: Environment, left: int) {
    left >= 0 && FromOpened(b, env, left).flow == Exit(Finished)
  }

  lemma FinishesFromBase(x: Case, env: Environment, left: nat)
    ensures Finishes(x, env, left) <==> Resumable(x, env) && FinishesFrom(Base(x, env), env, left - 2)
  {
    hide FromOpened;
    OpenedGoes(x, env, left);
  }

  lemma FinishesIfClear(b: Case, env: Environment, left: int)
    requires Valid(b) && b.onFile && b.obligation.Some?
    ensures FinishesFrom(b, env, left) <==> left >= PhaseCosts(b, env) && Clear(b, env)
  {
    if left >= 0 { FromOpenedFinishes(b, env, left); }
  }

  /** A run returns SUCCESS exactly when its surroundings are favourable and it is not killed before its last commit. */
  lemma RunFinishesExactly(x: Case, env: Environment, left: nat)
    requires Valid(x)
    ensures Finishes(x, env, left) <==> Favourable(x, env) && left >= Commits(x, env)
  {
    BaseIsValid(x, env);
    FinishesIfClear(Base(x, env), env, left - 2);
    FinishesFromBase(x, env, left);
  }

  /** Recovery finds that an earlier run's credit landed. */
  predicate RecoversCredit(x: Case, env: Environment) {
    !Has(x, P.Credit) && Has(Base(x, env), P.Credit)
  }

  lemma BaseCourse(x: Case, env: Environment)
    requires Valid(x) && Resumable(x, env)
    ensures OnCourse(Base(x, env)) <==> OnCourse(x) || RecoversCredit(x, env)
    ensures Has(x, P.Credit) ==> Has(Base(x, env), P.Credit)
  {
    if x.onFile { RecoverCourse(x, ROW_ORDER, env.inquests); }
  }

  lemma ResolvedCourse(x: Case, c: P.Capability, q: Inquest)
    requires Resolved(x, c, q).Some?
    ensures var y := Resolved(x, c, q).value;
      && (OnCourse(y) <==> OnCourse(x) || (!Has(x, P.Credit) && Has(y, P.Credit)))
      && (Has(x, P.Credit) ==> Has(y, P.Credit))
  {
  }

  lemma {:induction false} RecoverCourse(x: Case, order: seq<P.Capability>, inquests: PerEffect<Inquest>)
    ensures var y := Recover(x, order, inquests).x;
      && (OnCourse(y) <==> OnCourse(x) || (!Has(x, P.Credit) && Has(y, P.Credit)))
      && (Has(x, P.Credit) ==> Has(y, P.Credit))
    decreases |order|
  {
    if order != [] {
      var y := Resolved(x, order[0], inquests.Of(order[0]));
      if y.Some? {
        ResolvedCourse(x, order[0], inquests.Of(order[0]));
        RecoverCourse(y.value, order[1..], inquests);
      }
    }
  }

  /**
   A run that returns SUCCESS leaves every effect applied and the notice settled; the case then waits for its
   resolution exactly if the run found it on course or a credit, recovered or sent by this very run, put it there.
   */
  lemma FinishedRunIsComplete(x: Case, env: Environment, left: nat)
    requires Valid(x) && Finishes(x, env, left)
    ensures var y := Ran(x, env, left).x;
      && Complete(y)
      && (y.status == WAITING_RESOLUTION <==>
            OnCourse(x) || RecoversCredit(x, env) || Sends(Base(x, env), P.Credit, env))
      && (y.status == WAITING_RESOLUTION ==> y.moneyMoved)
  {
    BaseIsValid(x, env);
    FinishedRunEnds(x, env, left);
    BaseCourse(x, env);
    FinalIsComplete(Base(x, env), env);
  }

  /** Where a run that goes through takes an opened case. */
  function FinalCase(b: Case, env: Environment): Case {
    NotifiedTo(CreditedTo(ReadAll(b), env), env)
  }

  lemma FinishedRunEnds(x: Case, env: Environment, left: nat)
    requires Valid(x) && Finishes(x, env, left)
    ensures Resumable(x, env) && Readable(Base(x, env), env) && Ran(x, env, left).x == FinalCase(Base(x, env), env)
  {
    hide FromOpened, FinalCase, Readable;
    BaseIsValid(x, env);
    OpenedGoes(x, env, left);
    FromOpenedEnds(Base(x, env), env, left - 2);
  }

  lemma FromOpenedEnds(b: Case, env: Environment, left: nat)
    requires Valid(b) && b.onFile && b.obligation.Some? && FromOpened(b, env, left).flow == Exit(Finished)
    ensures Readable(b, env) && FromOpened(b, env, left).x == FinalCase(b, env)
  {
    FromOpenedFinishes(b, env, left);
  }

  lemma FinalIsComplete(b: Case, env: Environment)
    requires Valid(b) && b.onFile && b.obligation.Some? && Readable(b, env)
    ensures var y := FinalCase(b, env);
      && Complete(y) && (y.status == WAITING_RESOLUTION <==> OnCourse(b) || Sends(b, P.Credit, env))
      && (y.status == WAITING_RESOLUTION ==> y.moneyMoved)
  {
    ReadAllIsUnderway(b);
    assert Sends(ReadAll(b), P.Credit, env) <==> Sends(b, P.Credit, env);
    CreditedToIsAfterCredit(ReadAll(b), env);
    NotifiedToIsComplete(CreditedTo(ReadAll(b), env), env);
  }

  // ---------------------------------------------------------------------------------------------------------------
  // Every run, wherever it is killed
  // ---------------------------------------------------------------------------------------------------------------

  lemma CaughtUpStaysUnderway(x: Case, milestone: RegEState, left: nat)
    requires Underway(x) && Milestone(milestone) >= 3
    requires Milestone(milestone) >= 5 ==> x.moneyMoved || !OnCourse(x)
    ensures Underway(CaughtUp(x, milestone, left).x)
  {
    EnsuredStaysUnderway(x, milestone, false);
  }

  lemma NotedStaysUnderway(x: Case, left: nat)
    requires Underway(x)
    ensures Underway(Noted(x, left).x)
  {
    EnsuredStaysUnderway(ActiveNotice(x), PROVISIONAL_CREDIT_POSTED, true);
  }

  lemma CreditedStaysUnderway(x: Case, env: Environment, left: nat)
    requires Underway(x)
    ensures Underway(Credited(x, env, left).x)
  {
    var a := Acted(x, P.Chargeback, env, left);
    ActedStaysUnderway(x, P.Chargeback, env, left);
    if a.flow.Go? {
      var b := CaughtUp(a.x, CHARGEBACK_FILED, a.flow.left);
      CaughtUpStaysUnderway(a.x, CHARGEBACK_FILED, a.flow.left);
      if b.flow.Go? {
        var c := Acted(b.x, P.Credit, env, b.flow.left);
        ActedStaysUnderway(b.x, P.Credit, env, b.flow.left);
        if c.flow.Go? { NotedStaysUnderway(c.x, c.flow.left); }
      }
    }
  }

  lemma NoticeSettledStaysUnderway(x: Case, left: nat)
    requires AfterCredit(x)
    ensures Underway(NoticeSettled(x, left).x)
  {
    EnsuredStaysUnderway(SettledNotice(x), NOTICE_SENT, false);
    EnsuredStaysUnderway(Ensured(SettledNotice(x), NOTICE_SENT, false), WAITING_RESOLUTION, false);
  }

  lemma NotifiedStaysUnderway(x: Case, env: Environment, left: nat)
    requires AfterCredit(x)
    ensures Underway(Notified(x, env, left).x)
  {
    hide Acted, NoticeSettled, Goes, ActCost;
    var p := if Has(x, P.Notice) then Stepped(x, Go(left)) else CaughtUp(x, NOTICE_PENDING, left);
    CaughtUpStaysUnderway(x, NOTICE_PENDING, left);
    if p.flow.Go? {
      assert AfterCredit(p.x);
      var a := Acted(p.x, P.Notice, env, p.flow.left);
      ActedStaysUnderway(p.x, P.Notice, env, p.flow.left);
      ActedGoes(p.x, P.Notice, env, p.flow.left);
      if a.flow.Go? { NoticeSettledStaysUnderway(a.x, a.flow.left); }
    }
  }

  lemma FromOpenedKeepsValid(x: Case, env: Environment, left: nat)
    requires Valid(x) && x.onFile && x.obligation.Some?
    ensures Valid(FromOpened(x, env, left).x)
  {
    var v := Verified(x, env, left);
    VerifiedIsValid(x, env, left);
    if v.flow.Go? {
      var c := Credited(v.x, env, v.flow.left);
      CreditedStaysUnderway(v.x, env, v.flow.left);
      CreditedGoes(v.x, env, v.flow.left);
      if c.flow.Go? {
        CreditedToIsAfterCredit(v.x, env);
        NotifiedStaysUnderway(c.x, env, c.flow.left);
      }
    }
  }

  lemma RunKeepsValid(x: Case, env: Environment, left: nat)
    requires Valid(x)
    ensures Valid(Ran(x, env, left).x)
  {
    OpenedIsValid(x, env, left);
    var o := Opened(x, env, left);
    if o.flow.Go? { FromOpenedKeepsValid(o.x, env, o.flow.left); }
  }

  // ---------------------------------------------------------------------------------------------------------------
  // Progress
  // ---------------------------------------------------------------------------------------------------------------

  /** Claims stay on file, and decided ones as they were decided. */
  predicate ClaimsStay(before: map<P.Capability, ClaimStatus>, now: map<P.Capability, ClaimStatus>) {
    forall c :: c in before ==> c in now && (Terminal(before[c]) ==> now[c] == before[c])
  }

  /** What has been achieved stays: READs, decided claims, the money, the notice's obligation and deadline. */
  predicate Progresses(x: Case, y: Case) {
    && x.done <= y.done && (x.moneyMoved ==> y.moneyMoved) && (x.onFile ==> y.onFile)
    && ClaimsStay(x.claims, y.claims)
    && (x.obligation.Some? ==> y.obligation.Some?)
    && (x.obligation == Some(Ledger.SATISFIED) ==> y.obligation == Some(Ledger.SATISFIED))
    && (x.noticeDeadline == Some(Ledger.MET) ==> y.noticeDeadline == Some(Ledger.MET))
  }

  lemma ProgressComposes(x: Case, y: Case, z: Case)
    requires Progresses(x, y) && Progresses(y, z)
    ensures Progresses(x, z)
  {
  }

  lemma CallKeepsDecided(x: Case, c: P.Capability, e: Effect, left: nat)
    ensures var claim := Called(x, c, e, left).claim;
      && (StatusOf(x, c).Some? ==> claim.Some?)
      && (StatusOf(x, c).Some? && Terminal(StatusOf(x, c).value) ==> claim.value.status == StatusOf(x, c).value)
  {
  }

  lemma AfterCallProgresses(x: Case, c: P.Capability, e: Effect, left: nat)
    ensures Progresses(x, AfterCall(x, c, Called(x, c, e, left)))
  {
    CallKeepsDecided(x, c, e, left);
  }

  lemma GaveUpProgresses(x: Case, target: RegEState, left: nat)
    ensures Progresses(x, GaveUp(x, target, left).x)
  {
  }

  lemma ActedProgresses(x: Case, c: P.Capability, env: Environment, left: nat)
    ensures Progresses(x, Acted(x, c, env, left).x)
  {
    var e := env.effects.Of(c);
    if !Has(x, c) && e.policy == Denies {
      GaveUpProgresses(x, NEEDS_HUMAN, left);
    } else if !Has(x, c) && e.policy == Passes {
      var call := Called(x, c, e, left);
      var y := AfterCall(x, c, call);
      AfterCallProgresses(x, c, e, left);
      if (call.ended.Returned? || call.ended.Settled?) && !EngineCall.Succeeds(call.ended) {
        GaveUpProgresses(y, FailureStatus(call.ended.o), call.left);
        ProgressComposes(x, y, GaveUp(y, FailureStatus(call.ended.o), call.left).x);
      }
    }
  }

  lemma CaughtUpProgresses(x: Case, milestone: RegEState, left: nat)
    ensures Progresses(x, CaughtUp(x, milestone, left).x)
  {
  }

  lemma EnsuredProgresses(x: Case, y: Case, milestone: RegEState, moved: bool)
    requires Progresses(x, y)
    ensures Progresses(x, Ensured(y, milestone, moved))
  {
  }

  lemma NotedProgresses(x: Case, left: nat)
    ensures Progresses(x, Noted(x, left).x)
  {
    EnsuredProgresses(x, ActiveNotice(x), PROVISIONAL_CREDIT_POSTED, true);
  }

  lemma NoticeSettledProgresses(x: Case, left: nat)
    ensures Progresses(x, NoticeSettled(x, left).x)
  {
    var sent := Ensured(SettledNotice(x), NOTICE_SENT, false);
    EnsuredProgresses(x, SettledNotice(x), NOTICE_SENT, false);
    EnsuredProgresses(x, sent, WAITING_RESOLUTION, false);
  }

  lemma CreditedProgresses(x: Case, env: Environment, left: nat)
    ensures Progresses(x, Credited(x, env, left).x)
  {
    var a := Acted(x, P.Chargeback, env, left);
    ActedProgresses(x, P.Chargeback, env, left);
    if a.flow.Go? {
      var b := CaughtUp(a.x, CHARGEBACK_FILED, a.flow.left);
      CaughtUpProgresses(a.x, CHARGEBACK_FILED, a.flow.left);
      ProgressComposes(x, a.x, b.x);
      if b.flow.Go? {
        var c := Acted(b.x, P.Credit, env, b.flow.left);
        ActedProgresses(b.x, P.Credit, env, b.flow.left);
        ProgressComposes(x, b.x, c.x);
        if c.flow.Go? {
          NotedProgresses(c.x, c.flow.left);
          ProgressComposes(x, c.x, Noted(c.x, c.flow.left).x);
        }
      }
    }
  }

  lemma NotifiedProgresses(x: Case, env: Environment, left: nat)
    ensures Progresses(x, Notified(x, env, left).x)
  {
    var p := if Has(x, P.Notice) then Stepped(x, Go(left)) else CaughtUp(x, NOTICE_PENDING, left);
    CaughtUpProgresses(x, NOTICE_PENDING, left);
    if p.flow.Go? {
      var a := Acted(p.x, P.Notice, env, p.flow.left);
      ActedProgresses(p.x, P.Notice, env, p.flow.left);
      ProgressComposes(x, p.x, a.x);
      if a.flow.Go? {
        NoticeSettledProgresses(a.x, a.flow.left);
        ProgressComposes(x, a.x, NoticeSettled(a.x, a.flow.left).x);
      }
    }
  }

  lemma {:induction false} RecoverProgresses(x: Case, order: seq<P.Capability>, inquests: PerEffect<Inquest>)
    ensures Progresses(x, Recover(x, order, inquests).x)
    decreases |order|
  {
    if order != [] {
      var y := Resolved(x, order[0], inquests.Of(order[0]));
      if y.Some? {
        assert Progresses(x, y.value);
        RecoverProgresses(y.value, order[1..], inquests);
        ProgressComposes(x, y.value, Recover(y.value, order[1..], inquests).x);
      }
    }
  }

  lemma OpenedProgresses(x: Case, env: Environment, left: nat)
    ensures Progresses(x, Opened(x, env, left).x)
  {
    RecoverProgresses(x, ROW_ORDER, env.inquests);
  }

  lemma ReadProgresses(x: Case, r: Read, left: nat)
    ensures Progresses(x, ReadOnce(x, r, left).x)
  {
  }

  lemma VerifiedProgresses(x: Case, env: Environment, left: nat)
    ensures Progresses(x, Verified(x, env, left).x)
  {
    var a := ReadOnce(x, VerifyMember, left);
    ReadProgresses(x, VerifyMember, left);
    GaveUpProgresses(x, FAILED, left);
    if a.flow.Go? {
      GaveUpProgresses(a.x, NEEDS_HUMAN, a.flow.left);
      ProgressComposes(x, a.x, GaveUp(a.x, NEEDS_HUMAN, a.flow.left).x);
      var b := ReadOnce(a.x, LocateTransaction, a.flow.left);
      ReadProgresses(a.x, LocateTransaction, a.flow.left);
      ProgressComposes(x, a.x, b.x);
      if b.flow.Go? {
        ReadProgresses(b.x, CheckDuplicate, b.flow.left);
        ProgressComposes(x, b.x, ReadOnce(b.x, CheckDuplicate, b.flow.left).x);
      }
    }
  }

  /** No run, however it ends, undoes anything. */
  lemma RunProgresses(x: Case, env: Environment, left: nat)
    ensures Progresses(x, Ran(x, env, left).x)
  {
    var o := Opened(x, env, left);
    OpenedProgresses(x, env, left);
    if o.flow.Go? {
      var v := Verified(o.x, env, o.flow.left);
      VerifiedProgresses(o.x, env, o.flow.left);
      ProgressComposes(x, o.x, v.x);
      if v.flow.Go? {
        var c := Credited(v.x, env, v.flow.left);
        CreditedProgresses(v.x, env, v.flow.left);
        ProgressComposes(x, v.x, c.x);
        if c.flow.Go? {
          NotifiedProgresses(c.x, env, c.flow.left);
          ProgressComposes(x, c.x, Notified(c.x, env, c.flow.left).x);
        }
      }
    }
  }

  // ---------------------------------------------------------------------------------------------------------------
  // Histories, and which cases can still be finished
  // ---------------------------------------------------------------------------------------------------------------

  /** One run's surroundings, and the number of commits it lives for. */
  datatype Run = Run(env: Environment, left: nat)

  /** The case after any number of runs, each in its own surroundings and killed wherever. */
  function History(x: Case, runs: seq<Run>): Case
    decreases |runs|
  {
    if runs == [] then x else Ran(History(x, runs[..|runs| - 1]), runs[|runs| - 1].env, runs[|runs| - 1].left).x
  }

  lemma {:induction false} HistoryIsValid(x: Case, runs: seq<Run>)
    requires Valid(x)
    ensures Valid(History(x, runs))
    decreases |runs|
  {
    if runs != [] {
      HistoryIsValid(x, runs[..|runs| - 1]);
      RunKeepsValid(History(x, runs[..|runs| - 1]), runs[|runs| - 1].env, runs[|runs| - 1].left);
    }
  }

  /** However often runs were killed or stopped before, a favourable run of 24 commits finishes the case. */
  lemma WorkflowConverges(runs: seq<Run>, env: Environment, left: nat)
    requires Favourable(History(UNSEEN, runs), env) && left >= 24
    ensures var x := History(UNSEEN, runs);
      Finishes(x, env, left) && Complete(Ran(x, env, left).x)
  {
    var x := History(UNSEEN, runs);
    HistoryIsValid(UNSEEN, runs);
    CommitsAreFew(x, env);
    RunFinishesExactly(x, env, left);
    FinishedRunIsComplete(x, env, left);
  }

  lemma CommitsAreFew(x: Case, env: Environment)
    ensures Commits(x, env) <= 24
  {
    var b := Base(x, env);
    var r := ReadAll(b);
    ChargingIsShort(r, env);
    CreditingIsShort(ChargedTo(r, env), env);
    NotifyingIsShort(CreditedTo(r, env), env);
    hide ChargeCost, CreditCost, NoticeCost, ChargedTo, CreditedTo;
  }

  lemma ChargingIsShort(x: Case, env: Environment)
    ensures ChargeCost(x, env) <= 5
  {
  }

  lemma CreditingIsShort(x: Case, env: Environment)
    ensures CreditCost(x, env) <= 6
  {
  }

  lemma NotifyingIsShort(x: Case, env: Environment)
    ensures NoticeCost(x, env) <= 8
  {
    hide PendingTo;
  }

  /** An effect that may have happened, or was refused for good, is never tried again. */
  predicate Blocks(x: Case, c: P.Capability) {
    StatusOf(x, c) == Some(ClaimStatus.UNCERTAIN) || StatusOf(x, c) == Some(FAILED_PERMANENT)
  }

  /** A case some run may still finish. */
  predicate Finishable(x: Case) {
    && !Blocks(x, P.Chargeback) && !Blocks(x, P.Credit) && !Blocks(x, P.Notice)
    && (AllRead(x) || (x.status != FAILED && x.status != RESOLVED))
  }

  /** Dead owners, a target that has every effect, and nothing else in the way. */
  function Helpful(attempt: Replay.Attempt): Environment {
    var there := Present("M");
    var done := Effect(Passes, EngineCall.Script(there, attempt, true));
    Environment(
      PerEffect(Inquest(true, there), Inquest(true, there), Inquest(true, there)), true, true, true,
      PerEffect(done, done, done), false)
  }

  lemma {:induction false} RecoverKeepsReads(x: Case, order: seq<P.Capability>, inquests: PerEffect<Inquest>)
    ensures Recover(x, order, inquests).x.done == x.done
    ensures x.claims == map[] ==> Recover(x, order, inquests).x == x
    decreases |order|
  {
    if order != [] {
      var y := Resolved(x, order[0], inquests.Of(order[0]));
      if y.Some? { RecoverKeepsReads(y.value, order[1..], inquests); }
    }
  }

  /** What a favourable run needs of the case alone. */
  lemma OnlyFinishableCasesFinish(x: Case, env: Environment)
    requires Valid(x) && Favourable(x, env)
    ensures Finishable(x)
  {
    var b := Base(x, env);
    RecoverProgresses(x, ROW_ORDER, env.inquests);
    RecoverKeepsReads(x, ROW_ORDER, env.inquests);
    assert ClaimsStay(x.claims, b.claims);
    GoesUnblocked(x, b, P.Chargeback, env);
    GoesUnblocked(x, b, P.Credit, env);
    GoesUnblocked(x, b, P.Notice, env);
    if !AllRead(x) { assert b.status == x.status; }
  }

  lemma GoesUnblocked(x: Case, b: Case, c: P.Capability, env: Environment)
    requires ClaimsStay(x.claims, b.claims) && Goes(b, c, env)
    ensures !Blocks(x, c)
  {
  }

  predicate InFlight(x: Case, c: P.Capability) {
    StatusOf(x, c) == Some(CLAIMED) || StatusOf(x, c) == Some(APPLYING)
  }

  /** With a helpful world around it recovery goes through and leaves nothing in flight. */
  lemma {:induction false} RecoverHelps(x: Case, order: seq<P.Capability>, inquests: PerEffect<Inquest>)
    requires forall c: P.Capability :: inquests.Of(c).dead && inquests.Of(c).verdict.Present?
    ensures Recover(x, order, inquests).ok
    ensures forall c: P.Capability :: Blocks(Recover(x, order, inquests).x, c) ==> Blocks(x, c)
    ensures forall c: P.Capability :: InFlight(Recover(x, order, inquests).x, c) ==> InFlight(x, c) && c !in order
    decreases |order|
  {
    if order != [] {
      var y := Resolved(x, order[0], inquests.Of(order[0])).value;
      assert !InFlight(y, order[0]);
      assert order == [order[0]] + order[1..];
      RecoverHelps(y, order[1..], inquests);
    }
  }

  predicate Free(b: Case, c: P.Capability) {
    !Blocks(b, c) && !InFlight(b, c)
  }

  lemma HelpfulBase(x: Case, attempt: Replay.Attempt)
    requires Valid(x) && Finishable(x)
    ensures var b := Base(x, Helpful(attempt));
      && Free(b, P.Chargeback) && Free(b, P.Credit) && Free(b, P.Notice) && (AllRead(b) || OnCourse(b))
    ensures Resumable(x, Helpful(attempt))
  {
    var inquests := Helpful(attempt).inquests;
    RecoverHelps(x, ROW_ORDER, inquests);
    RecoverKeepsReads(x, ROW_ORDER, inquests);
    var r := if x.onFile then Recover(x, ROW_ORDER, inquests).x else x;
    assert AllRead(r) || OnCourse(r);
    assert Base(x, Helpful(attempt)).claims == r.claims;
  }

  lemma HelpfulGoes(b: Case, c: P.Capability, attempt: Replay.Attempt)
    requires Free(b, c)
    ensures Goes(b, c, Helpful(attempt))
  {
  }

  lemma HelpfulIsClear(b: Case, attempt: Replay.Attempt)
    requires Free(b, P.Chargeback) && Free(b, P.Credit) && Free(b, P.Notice) && (AllRead(b) || OnCourse(b))
    ensures Clear(b, Helpful(attempt))
  {
    HelpfulGoes(b, P.Chargeback, attempt);
    HelpfulGoes(b, P.Credit, attempt);
    HelpfulGoes(b, P.Notice, attempt);
  }

  lemma HelpfulRunFinishes(x: Case, attempt: Replay.Attempt)
    requires Valid(x) && Finishable(x)
    ensures Finishes(x, Helpful(attempt), 24)
  {
    HelpfulBase(x, attempt);
    HelpfulIsClear(Base(x, Helpful(attempt)), attempt);
    CommitsAreFew(x, Helpful(attempt));
    RunFinishesExactly(x, Helpful(attempt), 24);
  }

  /**
   Some run can still finish a case if and only if no effect of it is uncertain or refused for good, and the case did
   not fail or get resolved before its READs were complete.
   */
  lemma CanFinishExactly(x: Case)
    requires Valid(x)
    ensures (exists env, left: nat :: Finishes(x, env, left)) <==> Finishable(x)
  {
    if Finishable(x) {
      HelpfulRunFinishes(x, Replay.Attempt(Replay.HttpRequest(Replay.RaisesFirst), [], 0));
    }
    forall env, left: nat | Finishes(x, env, left) ensures Finishable(x) {
      RunFinishesExactly(x, env, left);
      OnlyFinishableCasesFinish(x, env);
    }
  }

  lemma RunCannotUnblock(x: Case, env: Environment, left: nat)
    requires Valid(x) && !Finishable(x)
    ensures !Finishable(Ran(x, env, left).x)
  {
    RunProgresses(x, env, left);
    if !Blocks(x, P.Chargeback) && !Blocks(x, P.Credit) && !Blocks(x, P.Notice) {
      EarlyEndIsFinal(x, env, left);
    }
  }

  /** A case that ended before its READs were complete is left as it is. */
  lemma EarlyEndIsFinal(x: Case, env: Environment, left: nat)
    requires Valid(x) && !AllRead(x) && (x.status == FAILED || x.status == RESOLVED)
    ensures var y := Ran(x, env, left).x; !AllRead(y) && y.status == x.status
  {
    RecoverKeepsReads(x, ROW_ORDER, env.inquests);
    var o := Opened(x, env, left);
    assert o.x == x || o.x == Planned(x);
    if o.flow.Go? {
      NothingToRead(o.x, env, o.flow.left);
      assert Ran(x, env, left).x == o.x;
    }
  }

  lemma NothingToRead(x: Case, env: Environment, left: nat)
    requires Valid(x) && x.onFile && !AllRead(x) && (x.status == FAILED || x.status == RESOLVED)
    ensures Verified(x, env, left).x == x && Verified(x, env, left).flow.Exit?
  {
  }

  /** And once it cannot be finished any more, no history of runs makes it so again. */
  lemma {:induction false} BlockedForGood(x: Case, runs: seq<Run>)
    requires Valid(x) && !Finishable(x)
    ensures !Finishable(History(x, runs))
    decreases |runs|
  {
    if runs != [] {
      var y := History(x, runs[..|runs| - 1]);
      HistoryIsValid(x, runs[..|runs| - 1]);
      BlockedForGood(x, runs[..|runs| - 1]);
      RunCannotUnblock(y, runs[|runs| - 1].env, runs[|runs| - 1].left);
    }
  }

  // ---------------------------------------------------------------------------------------------------------------
  // Completed effects are left alone
  // ---------------------------------------------------------------------------------------------------------------

  /** Two environments that differ at most in what the engine would meet for one effect. */
  predicate SameBut(c: P.Capability, e: Environment, f: Environment) {
    && e.inquests == f.inquests && e.reconciled == f.reconciled && e.memberFound == f.memberFound
    && e.accountFound == f.accountFound && e.killAfterCredit == f.killAfterCredit
    && forall d: P.Capability :: d != c ==> e.effects.Of(d) == f.effects.Of(d)
  }

  lemma ActedKeepsDone(x: Case, c: P.Capability, d: P.Capability, e: Environment, f: Environment, left: nat)
    requires Has(x, c) && SameBut(c, e, f)
    ensures Acted(x, d, e, left) == Acted(x, d, f, left) && Has(Acted(x, d, e, left).x, c)
  {
    ActedProgresses(x, d, e, left);
  }

  lemma CreditedLeavesDone(x: Case, c: P.Capability, e: Environment, f: Environment, left: nat)
    requires Has(x, c) && SameBut(c, e, f)
    ensures Credited(x, e, left) == Credited(x, f, left) && Has(Credited(x, e, left).x, c)
  {
    var a := Acted(x, P.Chargeback, e, left);
    ActedKeepsDone(x, c, P.Chargeback, e, f, left);
    if a.flow.Go? {
      var b := CaughtUp(a.x, CHARGEBACK_FILED, a.flow.left);
      assert b.x.claims == a.x.claims;
      if b.flow.Go? { ActedKeepsDone(b.x, c, P.Credit, e, f, b.flow.left); }
    }
    CreditedProgresses(x, e, left);
  }

  lemma NotifiedLeavesDone(x: Case, c: P.Capability, e: Environment, f: Environment, left: nat)
    requires Has(x, c) && SameBut(c, e, f)
    ensures Notified(x, e, left) == Notified(x, f, left)
  {
    var p := if Has(x, P.Notice) then Stepped(x, Go(left)) else CaughtUp(x, NOTICE_PENDING, left);
    assert p.x.claims == x.claims;
    if p.flow.Go? { ActedKeepsDone(p.x, c, P.Notice, e, f, p.flow.left); }
  }

  /** An effect that is completed, or that recovery finds to be, never reaches the engine again in any run. */
  lemma CompletedEffectsAreNotRepeated(x: Case, c: P.Capability, e: Environment, f: Environment, left: nat)
    requires Has(Base(x, e), c) && SameBut(c, e, f)
    ensures Ran(x, e, left) == Ran(x, f, left)
  {
    var o := Opened(x, e, left);
    OpenedGoes(x, e, left);
    assert Opened(x, f, left) == o;
    if o.flow.Go? {
      var v := Verified(o.x, e, o.flow.left);
      VerifiedProgresses(o.x, e, o.flow.left);
      assert Verified(o.x, f, o.flow.left) == v;
      if v.flow.Go? {
        CreditedLeavesDone(v.x, c, e, f, v.flow.left);
        var r := Credited(v.x, e, v.flow.left);
        if r.flow.Go? { NotifiedLeavesDone(r.x, c, e, f, r.flow.left); }
      }
    }
  }
}
