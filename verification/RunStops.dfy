/** Which status a run of the workflow leaves behind when something stops it. */
module RunStops {
  import opened Prelude
  import opened Outcomes
  import opened Inquiry
  import opened Settlement
  import opened StateMachine
  import opened RegE
  import opened RegERuns
  import EngineCall
  import P = Procedure

  /** The status asked for, where the state machine permits it. */
  predicate LeavesStatus(y: Case, before: RegEState, asked: RegEState) {
    y.status == if CanTransition(before, asked) then asked else before
  }

  /**
   After an attempt that did not land: an effect in doubt and a mismatch are written with the settlement, whatever the
   status was, and so is a fault that waits for an operator; everything else goes to a human if it may.
   */
  predicate AttemptTells(c: Cause, before: RegEState, y: Case) {
    if c.Answered? && c.v != Absent && !c.v.Present? then y.status == UNCERTAIN_EFFECT
    else if c.Faulted? && (c.f.PolicyFault? || c.f.EntityFault? || c.f.AmountFault?) then y.status == FAILED
    else if c.Faulted? && (c.f.ComplianceFault? || c.f.LeaseFault?) then y.status == NEEDS_HUMAN
    else LeavesStatus(y, before, NEEDS_HUMAN)
  }

  /** What stopped effect c tells the status: policy, claim, precheck, lease or attempt, in this order. */
  ghost predicate EffectTells(x: Case, c: P.Capability, env: Environment, y: Case) {
    var e := env.effects.Of(c);
    var claim := StatusOf(x, c);
    if e.policy.Raises? then y == x
    else if e.policy.Denies? then LeavesStatus(y, x.status, NEEDS_HUMAN)
    else if claim.Some? && claim.value != FAILED_RETRYABLE then LeavesStatus(y, x.status, NEEDS_HUMAN)
    else match e.script.precheck
      case Present(_) => false
      case Absent =>
        if !e.script.leaseFree then y.status == x.status
        else forall cause :: Causes(e.script.attempt, cause) ==> !Landed(cause) && AttemptTells(cause, x.status, y)
      case _ => LeavesStatus(y, x.status, FAILED)
  }

  /** The READs: a missing member fails the case, a missing account parks it, an illegal status leaves it alone. */
  predicate ReadsTell(x: Case, env: Environment, y: Case) {
    if VerifyMember !in x.done && !env.memberFound then LeavesStatus(y, x.status, FAILED)
    else if VerifyMember !in x.done && !OnCourse(x) then y == x
    else if !env.accountFound then
      LeavesStatus(y, if VerifyMember in x.done then x.status else MEMBER_VERIFIED, NEEDS_HUMAN)
    else y.status == x.status && !OnCourse(x)
  }

  lemma GaveUpTells(x: Case, target: RegEState, left: nat)
    requires GaveUp(x, target, left).flow == Exit(Stopped)
    ensures LeavesStatus(GaveUp(x, target, left).x, x.status, target)
  {
  }

  lemma ReadsStopTells(x: Case, env: Environment, left: nat)
    requires Valid(x) && x.onFile && Verified(x, env, left).flow == Exit(Stopped)
    ensures ReadsTell(x, env, Verified(x, env, left).x) && !Readable(x, env)
  {
    VerifiedGoes(x, env, left);
    var a := ReadOnce(x, VerifyMember, left);
    ReadGoes(x, VerifyMember, left);
    if VerifyMember !in x.done && !env.memberFound {
      GaveUpTells(x, FAILED, left);
    } else if a.flow.Go? && !env.accountFound {
      GaveUpTells(a.x, NEEDS_HUMAN, a.flow.left);
    }
  }

  /** A settled outcome tells the status by its cause; the settlement itself writes the first three. */
  lemma SettledTells(x: Case, o: Outcome, cause: Cause, movesMoney: bool, left: nat)
    requires Tells(o, cause, movesMoney) && !Landed(cause)
    requires var y := x.(status := SettledStatus(x.status, o));
      GaveUp(y, FailureStatus(o), left).flow == Exit(Stopped)
    ensures var y := x.(status := SettledStatus(x.status, o));
      AttemptTells(cause, x.status, GaveUp(y, FailureStatus(o), left).x)
  {
    var y := x.(status := SettledStatus(x.status, o));
    GaveUpTells(y, FailureStatus(o), left);
  }

  /** The engine is called for effect c, and the run stops there. */
  predicate StopsInCall(x: Case, c: P.Capability, env: Environment, left: nat) {
    !Has(x, c) && env.effects.Of(c).policy.Passes? && Acted(x, c, env, left).flow == Exit(Stopped)
  }

  lemma AttemptStopTells(x: Case, c: P.Capability, env: Environment, left: nat)
    requires StopsInCall(x, c, env, left) && Called(x, c, env.effects.Of(c), left).ended.Settled?
    ensures EffectTells(x, c, env, Acted(x, c, env, left).x)
  {
    hide GaveUp, AttemptTells, SettledStatus, FailureStatus, Causes;
    var script, call := env.effects.Of(c).script, Called(x, c, env.effects.Of(c), left);
    var y := AfterCall(x, c, call);
    forall cause | Causes(script.attempt, cause)
      ensures !Landed(cause) && AttemptTells(cause, x.status, Acted(x, c, env, left).x)
    {
      OutcomeByCause(script.attempt, cause, c == P.Credit);
      SettledTells(y.(status := x.status), call.ended.o, cause, c == P.Credit, call.left);
    }
  }

  lemma RefusalStopTells(x: Case, c: P.Capability, env: Environment, left: nat)
    requires StopsInCall(x, c, env, left) && Called(x, c, env.effects.Of(c), left).ended.Returned?
    ensures EffectTells(x, c, env, Acted(x, c, env, left).x)
  {
    hide GaveUp;
    var call := Called(x, c, env.effects.Of(c), left);
    GaveUpTells(AfterCall(x, c, call), FailureStatus(call.ended.o), call.left);
  }

  lemma RaisedStopTells(x: Case, c: P.Capability, env: Environment, left: nat)
    requires StopsInCall(x, c, env, left) && Called(x, c, env.effects.Of(c), left).ended.Raised?
    ensures EffectTells(x, c, env, Acted(x, c, env, left).x)
  {
  }

  lemma CallStopTells(x: Case, c: P.Capability, env: Environment, left: nat)
    requires StopsInCall(x, c, env, left)
    ensures EffectTells(x, c, env, Acted(x, c, env, left).x)
  {
    hide EffectTells, Called;
    match Called(x, c, env.effects.Of(c), left).ended
    case Settled(_) => AttemptStopTells(x, c, env, left);
    case Returned(_) => RefusalStopTells(x, c, env, left);
    case Raised => RaisedStopTells(x, c, env, left);
    case Killed =>
  }

  lemma EffectStopTells(x: Case, c: P.Capability, env: Environment, left: nat)
    requires Acted(x, c, env, left).flow == Exit(Stopped)
    ensures EffectTells(x, c, env, Acted(x, c, env, left).x) && !Goes(x, c, env)
  {
    ActedGoes(x, c, env, left);
    var e := env.effects.Of(c);
    if e.policy.Denies? {
      GaveUpTells(x, NEEDS_HUMAN, left);
    } else if e.policy.Passes? {
      CallStopTells(x, c, env, left);
      if left < ActCost(x, c, env) { CallIsKilledShort(x, c, env, left); }
    }
  }

  /** A call that goes through does so with the commits it takes; with fewer it is killed, not stopped. */
  lemma CallIsKilledShort(x: Case, c: P.Capability, env: Environment, left: nat)
    requires !Has(x, c) && env.effects.Of(c).policy.Passes? && left < ActCost(x, c, env)
    ensures Acted(x, c, env, left).flow == Exit(Killed)
  {
    EngineCall.CallBudget(RowOf(x, c), "", c == P.Credit, env.effects.Of(c).script, left);
  }

  // ---------------------------------------------------------------------------------------------------------------
  // Whole runs
  // ---------------------------------------------------------------------------------------------------------------

  /** Chargeback, credit, the provoked crash after it, and the notice: whichever stops an opened case past its READs. */
  ghost predicate EffectsTell(x: Case, env: Environment, y: Case) {
    var charged, credited := ChargedTo(x, env), CreditedTo(x, env);
    if !Goes(x, P.Chargeback, env) then EffectTells(x, P.Chargeback, env, y)
    else if !Goes(charged, P.Credit, env) then EffectTells(charged, P.Credit, env, y)
    else if !Has(x, P.Credit) && env.killAfterCredit then y == credited
    else EffectTells(PendingTo(credited), P.Notice, env, y)
  }

  /**
   What stopped a run tells the status it leaves: recovery or reconciliation park the case whatever its status was;
   then the READs; then the effects, each from the case as the run had brought it there.
   */
  ghost predicate StopTells(x: Case, env: Environment, y: Case) {
    var b := Base(x, env);
    if !Resumable(x, env) then y.status == NEEDS_HUMAN
    else if !Readable(b, env) then ReadsTell(b, env, y)
    else EffectsTell(ReadAll(b), env, y)
  }

  lemma CreditedStops(x: Case, env: Environment, left: nat)
    requires x.obligation.Some? && Credited(x, env, left).flow == Exit(Stopped)
    ensures EffectsTell(x, env, Credited(x, env, left).x)
  {
    hide Acted, CaughtUp, Noted, EffectTells, Goes, ActedTo, ChargedTo, ChargeCost, CreditCost, Ensured;
    var a := Acted(x, P.Chargeback, env, left);
    ChargedGoes(x, env, left);
    ChargingKeepsCredit(x, env);
    if a.flow.Exit? {
      EffectStopTells(x, P.Chargeback, env, left);
    } else {
      var b := CaughtUp(a.x, CHARGEBACK_FILED, a.flow.left);
      CatchingUpNeverStops(a.x, CHARGEBACK_FILED, a.flow.left);
      CreditStepGoes(b.x, env, b.flow.left);
      var c := Acted(b.x, P.Credit, env, b.flow.left);
      if c.flow.Exit? {
        EffectStopTells(b.x, P.Credit, env, b.flow.left);
      } else {
        CallKeepsObligation(b.x, P.Credit, env, b.flow.left);
        NotingNeverStops(c.x, c.flow.left);
      }
    }
  }

  lemma CatchingUpNeverStops(x: Case, milestone: RegEState, left: nat)
    ensures CaughtUp(x, milestone, left).flow != Exit(Stopped) && CaughtUp(x, milestone, left).flow != Exit(Finished)
    ensures CaughtUp(x, milestone, left).x.obligation == x.obligation
  {
  }

  lemma CallKeepsObligation(x: Case, c: P.Capability, env: Environment, left: nat)
    ensures Acted(x, c, env, left).x.obligation == x.obligation
  {
  }

  lemma NotingNeverStops(x: Case, left: nat)
    requires x.obligation.Some?
    ensures Noted(x, left).flow != Exit(Stopped) && NoticeSettled(x, left).flow != Exit(Stopped)
  {
  }

  lemma NotifiedStops(x: Case, env: Environment, left: nat)
    requires x.obligation.Some? && Notified(x, env, left).flow == Exit(Stopped)
    ensures EffectTells(PendingTo(x), P.Notice, env, Notified(x, env, left).x)
  {
    hide Acted, EffectTells, NoticeSettled;
    CatchingUpNeverStops(x, NOTICE_PENDING, left);
    CaughtUpGoes(x, NOTICE_PENDING, left);
    var p := if Has(x, P.Notice) then Stepped(x, Go(left)) else CaughtUp(x, NOTICE_PENDING, left);
    var a := Acted(p.x, P.Notice, env, p.flow.left);
    if a.flow.Exit? {
      EffectStopTells(p.x, P.Notice, env, p.flow.left);
    } else {
      CallKeepsObligation(p.x, P.Notice, env, p.flow.left);
      NotingNeverStops(a.x, a.flow.left);
    }
  }

  lemma FromOpenedStops(b: Case, env: Environment, left: nat)
    requires Valid(b) && b.onFile && b.obligation.Some? && FromOpened(b, env, left).flow == Exit(Stopped)
    ensures var y := FromOpened(b, env, left).x;
      if !Readable(b, env) then ReadsTell(b, env, y) else EffectsTell(ReadAll(b), env, y)
  {
    hide Verified, Credited, Notified, Readable, ReadsTell, EffectTells, Goes, ChargeCost, CreditCost;
    var v := Verified(b, env, left);
    VerifiedGoes(b, env, left);
    if v.flow.Exit? {
      ReadsStopTells(b, env, left);
    } else {
      ReadAllIsUnderwayWhenRead(b, env);
      var c := Credited(v.x, env, v.flow.left);
      CreditedGoes(v.x, env, v.flow.left);
      ChargingKeepsCredit(v.x, env);
      if c.flow.Exit? {
        CreditedStops(v.x, env, v.flow.left);
      } else {
        CreditedToIsAfterCredit(v.x, env);
        NotifiedStops(c.x, env, c.flow.left);
      }
    }
  }

  lemma ReadAllIsUnderwayWhenRead(b: Case, env: Environment)
    requires Valid(b) && b.onFile && b.obligation.Some? && Readable(b, env)
    ensures Underway(ReadAll(b))
  {
    ReadAllIsUnderway(b);
  }

  /** The status of every stopped run, from what stopped it. */
  lemma StoppedRunTells(x: Case, env: Environment, left: nat)
    requires Valid(x) && Ran(x, env, left).flow == Exit(Stopped)
    ensures StopTells(x, env, Ran(x, env, left).x)
  {
    hide FromOpened, Readable, ReadsTell, EffectsTell, Valid;
    OpenedGoes(x, env, left);
    BaseIsValid(x, env);
    if Resumable(x, env) && left >= 2 {
      FromOpenedStops(Base(x, env), env, left - 2);
    } else {
      OpeningStops(x, env, left);
    }
  }

  lemma OpeningStops(x: Case, env: Environment, left: nat)
    requires Opened(x, env, left).flow == Exit(Stopped)
    ensures !Resumable(x, env) && Opened(x, env, left).x.status == NEEDS_HUMAN
  {
  }
}
