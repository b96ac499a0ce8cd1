/**
 What one commit attempt comes down to, read off the page, the request and the inquiries alone, and what its outcome
 and its claim must be for each such cause.
 */
module Settlement {
  import opened Prelude
  import opened Outcomes
  import opened Inquiry
  import opened Replay
  import opened Claims
  import EngineCall

  /**
   The postcheck confirmed the effect; the last reconciliation inquiry gave an answer; a fault ended the replay, before
   or after a SUBMIT was initiated; or the policy, a page without records or the target itself turned the attempt away.
   */
  datatype Cause =
    | Confirmed(ref: string)
    | Answered(v: Verdict)
    | Faulted(f: Fault, submitted: bool)
    | Denied
    | BlankPage
    | Unauthorized

  predicate RunsUpTo(script: BrowserScript, k: nat) {
    forall j :: 0 <= j < k ==> EventAt(script, j) == Performed
  }

  predicate SubmittedBefore(steps: seq<StepAction>, k: nat) {
    exists j :: 0 <= j < k && j < |steps| && steps[j] == Submit
  }

  /** Step k is the first that is not performed. */
  predicate FirstTrouble(steps: seq<StepAction>, script: BrowserScript, k: nat) {
    k < |steps| && RunsUpTo(script, k) && EventAt(script, k) != Performed
  }

  /** The executor takes up the steps at all. */
  predicate TakesUp(t: Transport) {
    t.Browser? && HttpPost !in t.steps && t.script.admission == Admitted
  }

  predicate RaisesAt(steps: seq<StepAction>, script: BrowserScript, k: nat, f: Fault, submitted: bool) {
    && FirstTrouble(steps, script, k)
    && (|| (EventAt(script, k) == RaisesBefore(f) && submitted == SubmittedBefore(steps, k))
        || (EventAt(script, k) == RaisesDuring(f) && submitted == SubmittedBefore(steps, k + 1)))
  }

  /** All steps ran, and then an internal violation or a missing output ended the replay of a present effect. */
  predicate EndsBadly(script: BrowserScript) {
    script.ending.Violates? || (script.ending.v.Present? && !script.ending.outputsFound)
  }

  /** Which fault ends the attempt, and whether a SUBMIT had been initiated by then. */
  ghost predicate FaultEnds(t: Transport, f: Fault, submitted: bool) {
    match t
    case HttpRequest(http) =>
      && !submitted
      && (|| (http.Unstructured? && f == PolicyFault) || (http.InvalidRequest? && f == PolicyFault)
          || (http.GuardEntity? && f == EntityFault) || (http.GuardAmount? && f == AmountFault))
    case Browser(steps, script) =>
      || (HttpPost in steps && f == PolicyFault && !submitted)
      || (HttpPost !in steps && script.admission == Rejected(f) && !submitted)
      || (TakesUp(t) && exists k: nat :: RaisesAt(steps, script, k, f, submitted))
      || (TakesUp(t) && RunsUpTo(script, |steps|) && EndsBadly(script) && f == OtherFault
          && submitted == SubmittedBefore(steps, |steps|))
  }

  /** Whether the effect landed can only be asked: nothing else is known once the submit may have gone out. */
  ghost predicate MustAsk(t: Transport) {
    match t
    case HttpRequest(http) =>
      || http.RaisesFirst?
      || (http.Dispatched? && http.reply.TransportFailed?)
      || (http.Dispatched? && http.reply.Replied? && http.reply.status != 401
          && (http.reply.status >= 400 || !http.reply.v.Present?))
    case Browser(steps, script) =>
      || FaultEnds(t, OtherFault, true)
      || (TakesUp(t) && RunsUpTo(script, |steps|) && script.ending.Checked? && !script.ending.v.Present?)
  }

  /** The first answer that is no outage, or an outage if the permitted inquiries give nothing else. */
  ghost predicate LastAnswer(inquiries: seq<Verdict>, permitted: int, v: Verdict) {
    exists k: nat :: AnswersAt(inquiries, permitted, k, v)
  }

  predicate AnswersAt(inquiries: seq<Verdict>, permitted: int, k: nat, v: Verdict) {
    && InquiryAt(inquiries, k) == v && (k > 0 ==> k < permitted)
    && (forall j :: 0 <= j < k ==> InquiryAt(inquiries, j) == Unavailable)
    && (v == Unavailable ==> permitted <= k + 1)
  }

  ghost predicate Causes(a: Attempt, c: Cause) {
    var t := a.transport;
    match c
    case Confirmed(r) =>
      || (TakesUp(t) && RunsUpTo(t.script, |t.steps|) && t.script.ending == Checked(Present(r), true))
      || (t.HttpRequest? && t.http.Dispatched? && t.http.reply.Replied? && t.http.reply.status < 400
          && t.http.reply.v == Present(r))
    case Answered(v) => MustAsk(t) && LastAnswer(a.inquiries, a.maxInquiries, v)
    case Faulted(f, submitted) => FaultEnds(t, f, submitted) && !(submitted && f == OtherFault)
    case Denied => t.Browser? && HttpPost !in t.steps && t.script.admission == Admission.Denied
    case BlankPage => TakesUp(t) && exists k: nat :: BlankAt(t.steps, t.script, k)
    case Unauthorized => RefusedBeforeActing(t)
  }

  // ---------------------------------------------------------------------------------------------------------------
  // The step loop and the inquiries against these descriptions
  // ---------------------------------------------------------------------------------------------------------------

  function PhaseBefore(steps: seq<StepAction>, k: nat): Phase {
    if SubmittedBefore(steps, k) then SubmitConfirmed else BeforeSubmit
  }

  /** The loop reaches step k in the phase the SUBMITs before it say. */
  lemma {:induction false} LoopReaches(steps: seq<StepAction>, script: BrowserScript, i: nat, k: nat)
    requires i <= k <= |steps| && RunsUpTo(script, k)
    ensures RunSteps(steps, script, i, PhaseBefore(steps, i)) == RunSteps(steps, script, k, PhaseBefore(steps, k))
    decreases k - i
  {
    if i < k {
      assert EventAt(script, i) == Performed;
      assert SubmittedBefore(steps, i + 1) <==> SubmittedBefore(steps, i) || steps[i] == Submit;
      LoopReaches(steps, script, i + 1, k);
    }
  }

  lemma LoopFromStart(steps: seq<StepAction>, script: BrowserScript, k: nat)
    requires k <= |steps| && RunsUpTo(script, k)
    ensures RunSteps(steps, script, 0, BeforeSubmit) == RunSteps(steps, script, k, PhaseBefore(steps, k))
  {
    LoopReaches(steps, script, 0, k);
  }

  /** The loop's end at the first trouble. */
  lemma LoopStops(steps: seq<StepAction>, script: BrowserScript, k: nat)
    requires FirstTrouble(steps, script, k)
    ensures var run := RunSteps(steps, script, 0, BeforeSubmit);
      match EventAt(script, k)
      case RaisesBefore(f) => run == Stopped(Report(f, PhaseBefore(steps, k)))
      case RaisesDuring(f) =>
        run == Stopped(Report(f, if steps[k] == Submit then SubmitInitiated else PhaseBefore(steps, k)))
      case NoRecords => run == Stopped(Plain(BusinessOutcome, MemberNotFound, BeforeSubmit))
      case Performed => true
  {
    LoopFromStart(steps, script, k);
  }

  lemma AnswerDecides(a: Attempt, v: Verdict)
    requires LastAnswer(a.inquiries, a.maxInquiries, v)
    ensures ReconciledVerdict(a.inquiries, a.maxInquiries) == v
  {
    var k: nat :| AnswersAt(a.inquiries, a.maxInquiries, k, v);
    var n := Attempts(a.inquiries, Limit(a.maxInquiries), 1);
    assert InquiryAt(a.inquiries, n - 1) == ReconciledVerdict(a.inquiries, a.maxInquiries);
    assert forall j: nat :: j < k ==> InquiryAt(a.inquiries, j) == Unavailable;
    assert forall j: nat :: j < n - 1 ==> InquiryAt(a.inquiries, j) == Unavailable;
  }

  lemma SomeAnswerIsLast(a: Attempt)
    ensures LastAnswer(a.inquiries, a.maxInquiries, ReconciledVerdict(a.inquiries, a.maxInquiries))
  {
    var n := Attempts(a.inquiries, Limit(a.maxInquiries), 1);
    assert AnswersAt(a.inquiries, a.maxInquiries, n - 1, ReconciledVerdict(a.inquiries, a.maxInquiries));
  }

  // ---------------------------------------------------------------------------------------------------------------
  // The outcome of each cause
  // ---------------------------------------------------------------------------------------------------------------

  /** A mismatch or a breach of policy: repeating the attempt would repeat it. */
  predicate Mismatch(f: Fault) {
    f == PolicyFault || f == EntityFault || f == AmountFault
  }

  /** A condition an operator has to clear. */
  predicate Waits(f: Fault) {
    f == ComplianceFault || f == LeaseFault
  }

  predicate CodeTells(code: Code, f: Fault) {
    && (code == PolicyViolation <==> f == PolicyFault) && (code == EntityBindingMismatch <==> f == EntityFault)
    && (code == AmountMismatch <==> f == AmountFault) && (code == PageDrift <==> f == DriftFault)
    && (code == ComplianceInterstitial <==> f == ComplianceFault) && (code == SessionExpired <==> f == SessionFault)
    && (code == LeaseFenced <==> f == LeaseFault) && (code == NetworkTimeout <==> f == OtherFault)
  }

  predicate Found(o: Outcome, code: Code, ref: string, movesMoney: bool) {
    o.category == Success && o.code == code && o.auditRef == Some(ref) && o.moneyMoved == movesMoney
  }

  predicate NotFound(o: Outcome, category: Category, code: Code) {
    o.category == category && o.code == code && o.auditRef == None && !o.moneyMoved
  }

  /** What the caller is told for each cause. */
  predicate Tells(o: Outcome, c: Cause, movesMoney: bool) {
    match c
    case Confirmed(r) => Found(o, Completed, r, movesMoney)
    case Answered(Present(r)) => Found(o, ConfirmedApplied, r, movesMoney) && o.phase == SubmitConfirmed
    case Answered(Absent) => NotFound(o, BusinessOutcome, ConfirmedNotApplied) && o.phase == AfterSubmitUnknown
    case Answered(_) => NotFound(o, UncertainEffect, UncertainCode) && o.phase == AfterSubmitUnknown
    case Faulted(f, submitted) =>
      && CodeTells(o.code, f) && (o.phase == BeforeSubmit <==> !submitted)
      && NotFound(o, if Mismatch(f) then HardFailure else if Waits(f) then NeedsHuman else RecoverableFailure, o.code)
    case Denied => NotFound(o, BusinessOutcome, PolicyDenied) && o.phase == BeforeSubmit
    case BlankPage => NotFound(o, BusinessOutcome, MemberNotFound) && o.phase == BeforeSubmit
    case Unauthorized => NotFound(o, RecoverableFailure, SessionExpired) && o.phase == BeforeSubmit
  }

  lemma AskedOutcome(a: Attempt, v: Verdict, movesMoney: bool)
    requires Reconciles(a.transport, movesMoney) && LastAnswer(a.inquiries, a.maxInquiries, v)
    ensures Tells(CommitOutcome(a, movesMoney), Answered(v), movesMoney)
  {
    AnswerDecides(a, v);
  }

  lemma RaisedIsReported(steps: seq<StepAction>, script: BrowserScript, k: nat, f: Fault, submitted: bool)
    requires RaisesAt(steps, script, k, f, submitted)
    ensures var run := RunSteps(steps, script, 0, BeforeSubmit);
      run.Stopped? && Reported(run.o, f, submitted)
  {
    hide RunSteps, Report, Reported;
    LoopStops(steps, script, k);
    assert SubmittedBefore(steps, k + 1) <==> SubmittedBefore(steps, k) || steps[k] == Submit;
    var phase := if EventAt(script, k).RaisesDuring? && steps[k] == Submit then SubmitInitiated
                 else PhaseBefore(steps, k);
    ReportTells(f, phase, submitted);
  }

  lemma ReportTells(f: Fault, phase: Phase, submitted: bool)
    requires phase != AfterSubmitUnknown && (phase == BeforeSubmit <==> !submitted)
    ensures Reported(Report(f, phase), f, submitted)
  {
  }

  predicate Reported(o: Outcome, f: Fault, submitted: bool) {
    if submitted && f == OtherFault then o.code == PossiblyApplied
    else Tells(o, Faulted(f, submitted), false) && o.phase != AfterSubmitUnknown && o.code != PossiblyApplied
  }

  /** A fault of the replay is reported as such, unless it leaves the effect in doubt. */
  lemma FaultIsReported(steps: seq<StepAction>, script: BrowserScript, f: Fault, submitted: bool, movesMoney: bool)
    requires FaultEnds(Browser(steps, script), f, submitted)
    ensures Reported(ReplayOutcome(steps, script, movesMoney), f, submitted)
  {
    if HttpPost in steps || script.admission != Admitted {
    } else if RunsUpTo(script, |steps|) && EndsBadly(script) && f == OtherFault
      && submitted == SubmittedBefore(steps, |steps|)
    {
      LoopFromStart(steps, script, |steps|);
    } else {
      var k: nat :| RaisesAt(steps, script, k, f, submitted);
      RaisedIsReported(steps, script, k, f, submitted);
    }
  }

  /** Where the effect can only be asked for, it is. */
  lemma MustAskReconciles(t: Transport, movesMoney: bool)
    requires MustAsk(t)
    ensures Reconciles(t, movesMoney)
  {
    if t.Browser? {
      if FaultEnds(t, OtherFault, true) {
        FaultIsReported(t.steps, t.script, OtherFault, true, movesMoney);
      } else {
        LoopFromStart(t.steps, t.script, |t.steps|);
      }
    }
  }

  lemma BrowserOutcome(a: Attempt, c: Cause, movesMoney: bool)
    requires a.transport.Browser? && Causes(a, c) && !c.Answered?
    ensures Tells(CommitOutcome(a, movesMoney), c, movesMoney)
  {
    var steps, script := a.transport.steps, a.transport.script;
    match c
    case Confirmed(r) => LoopFromStart(steps, script, |steps|);
    case Faulted(f, submitted) => FaultIsReported(steps, script, f, submitted, movesMoney);
    case BlankPage =>
      var k: nat :| BlankAt(steps, script, k);
      LoopStops(steps, script, k);
    case _ =>
  }

  lemma HttpCauseOutcome(a: Attempt, c: Cause, movesMoney: bool)
    requires a.transport.HttpRequest? && Causes(a, c) && !c.Answered?
    ensures Tells(CommitOutcome(a, movesMoney), c, movesMoney)
  {
  }

  /** The outcome of a commit is told by what caused it, for both transports and every behaviour of the target. */
  lemma OutcomeByCause(a: Attempt, c: Cause, movesMoney: bool)
    requires Causes(a, c)
    ensures Tells(CommitOutcome(a, movesMoney), c, movesMoney)
  {
    if c.Answered? {
      MustAskReconciles(a.transport, movesMoney);
      AskedOutcome(a, c.v, movesMoney);
    } else if a.transport.Browser? {
      BrowserOutcome(a, c, movesMoney);
    } else {
      HttpCauseOutcome(a, c, movesMoney);
    }
  }

  /** A confirmation names the phase that was reached: after a SUBMIT or the request it is that of a confirmed one. */
  lemma ConfirmedPhase(a: Attempt, ref: string, movesMoney: bool)
    requires Causes(a, Confirmed(ref))
    ensures CommitOutcome(a, movesMoney).phase ==
      if a.transport.Browser? && Submit !in a.transport.steps then BeforeSubmit else SubmitConfirmed
  {
    if a.transport.Browser? {
      LoopFromStart(a.transport.steps, a.transport.script, |a.transport.steps|);
    }
  }

  // ---------------------------------------------------------------------------------------------------------------
  // Every attempt has one cause
  // ---------------------------------------------------------------------------------------------------------------

  lemma FirstTroubleOf(steps: seq<StepAction>, script: BrowserScript) returns (k: nat)
    ensures k <= |steps| && RunsUpTo(script, k)
    ensures k < |steps| ==> FirstTrouble(steps, script, k)
  {
    k := 0;
    while k < |steps| && EventAt(script, k) == Performed
      invariant k <= |steps| && RunsUpTo(script, k)
    {
      k := k + 1;
    }
  }

  /** A fault either is the cause or leaves only the inquiry to decide. */
  function AfterFault(f: Fault, submitted: bool, answer: Verdict): Cause {
    if submitted && f == OtherFault then Answered(answer) else Faulted(f, submitted)
  }

  lemma BrowserCause(a: Attempt) returns (c: Cause)
    requires a.transport.Browser?
    ensures Causes(a, c)
  {
    var t := a.transport;
    var steps, script := t.steps, t.script;
    var answer := ReconciledVerdict(a.inquiries, a.maxInquiries);
    SomeAnswerIsLast(a);
    if HttpPost in steps {
      c := Faulted(PolicyFault, false);
    } else if script.admission == Admission.Denied {
      c := Cause.Denied;
    } else if script.admission.Rejected? {
      c := Faulted(script.admission.f, false);
    } else {
      var k := FirstTroubleOf(steps, script);
      if k < |steps| {
        c := TroubleCause(a, k, answer);
      } else if EndsBadly(script) {
        c := AfterFault(OtherFault, SubmittedBefore(steps, |steps|), answer);
        assert FaultEnds(t, OtherFault, SubmittedBefore(steps, |steps|));
      } else {
        c := if script.ending.v.Present? then Confirmed(script.ending.v.ref) else Answered(answer);
      }
    }
  }

  lemma TroubleCause(a: Attempt, k: nat, answer: Verdict) returns (c: Cause)
    requires TakesUp(a.transport) && FirstTrouble(a.transport.steps, a.transport.script, k)
    requires LastAnswer(a.inquiries, a.maxInquiries, answer)
    ensures Causes(a, c)
  {
    var steps, script := a.transport.steps, a.transport.script;
    match EventAt(script, k)
    case NoRecords =>
      c := BlankPage;
      assert BlankAt(steps, script, k);
    case RaisesBefore(f) =>
      c := AfterFault(f, SubmittedBefore(steps, k), answer);
      assert RaisesAt(steps, script, k, f, SubmittedBefore(steps, k));
    case RaisesDuring(f) =>
      c := AfterFault(f, SubmittedBefore(steps, k + 1), answer);
      assert RaisesAt(steps, script, k, f, SubmittedBefore(steps, k + 1));
  }

  lemma HttpCause(a: Attempt) returns (c: Cause)
    requires a.transport.HttpRequest?
    ensures Causes(a, c)
  {
    SomeAnswerIsLast(a);
    var answer := Answered(ReconciledVerdict(a.inquiries, a.maxInquiries));
    match a.transport.http
    case RaisesFirst => c := answer;
    case Unstructured => c := Faulted(PolicyFault, false);
    case InvalidRequest => c := Faulted(PolicyFault, false);
    case GuardEntity => c := Faulted(EntityFault, false);
    case GuardAmount => c := Faulted(AmountFault, false);
    case Dispatched(TransportFailed) => c := answer;
    case Dispatched(Replied(status, v)) =>
      c := if status == 401 then Unauthorized
           else if status < 400 && v.Present? then Confirmed(v.ref) else answer;
  }

  lemma CauseOf(a: Attempt) returns (c: Cause)
    ensures Causes(a, c)
  {
    if a.transport.Browser? { c := BrowserCause(a); } else { c := HttpCause(a); }
  }

  // ---------------------------------------------------------------------------------------------------------------
  // Settlement
  // ---------------------------------------------------------------------------------------------------------------

  /** Provably nothing happened, and the same attempt may succeed later. */
  predicate Retryable(c: Cause) {
    || c.Unauthorized? || c == Answered(Absent)
    || (c.Faulted? && !c.submitted && !Mismatch(c.f))
  }

  /** Provably nothing happened that the target would not see again, or the page had nothing to act on. */
  predicate Permanent(c: Cause) {
    || c.Denied? || c.BlankPage? || (c.Faulted? && !c.submitted && Mismatch(c.f))
  }

  predicate Landed(c: Cause) {
    c.Confirmed? || (c.Answered? && c.v.Present?)
  }

  lemma SettledByCause(a: Attempt, c: Cause, movesMoney: bool)
    requires Causes(a, c)
    ensures var s := SettleClaimStatus(CommitOutcome(a, movesMoney));
      && (s == APPLIED <==> Landed(c)) && (s == FAILED_RETRYABLE <==> Retryable(c))
      && (s == FAILED_PERMANENT <==> Permanent(c))
      && (s == ClaimStatus.UNCERTAIN <==> !Landed(c) && !Retryable(c) && !Permanent(c))
  {
    OutcomeByCause(a, c, movesMoney);
  }

  /**
   A commit settles APPLIED, FAILED_RETRYABLE or FAILED_PERMANENT exactly when something that caused it says so, and
   UNCERTAIN exactly when an inquiry stayed without a verdict or a fault other than a lost connection came after SUBMIT.
   */
  lemma SettlesExactly(a: Attempt, movesMoney: bool)
    ensures var s := SettleClaimStatus(CommitOutcome(a, movesMoney));
      && (s == APPLIED <==> exists c :: Causes(a, c) && Landed(c))
      && (s == FAILED_RETRYABLE <==> exists c :: Causes(a, c) && Retryable(c))
      && (s == FAILED_PERMANENT <==> exists c :: Causes(a, c) && Permanent(c))
      && (s == ClaimStatus.UNCERTAIN <==>
            exists c :: Causes(a, c) && ((c.Faulted? && c.submitted)
              || (c.Answered? && !c.v.Present? && c.v != Absent)))
  {
    var c := CauseOf(a);
    SettledByCause(a, c, movesMoney);
    forall d | Causes(a, d)
      ensures Landed(d) == Landed(c) && Retryable(d) == Retryable(c) && Permanent(d) == Permanent(c)
    {
      SettledByCause(a, d, movesMoney);
    }
  }

  // ---------------------------------------------------------------------------------------------------------------
  // A whole call
  // ---------------------------------------------------------------------------------------------------------------

  /** The target was asked, did not have the effect, and the lease could be had: the attempt was made. */
  predicate Attempted(script: EngineCall.Script) {
    script.precheck == Absent && script.leaseFree
  }

  /** An unkilled call that got the claim leaves it under its own owner and token, in the status the answers give. */
  lemma CallLeavesExactly(row: Option<Claim>, owner: Owner, movesMoney: bool, script: EngineCall.Script, left: nat,
                          c: Cause)
    requires Acquire(row, owner).Some? && left >= EngineCall.CallCommits(row, owner, script)
    requires Causes(script.attempt, c)
    ensures var e := EngineCall.CallLeaves(row, owner, movesMoney, script, left);
      e.claim.Some? && e.claim.value.owner == owner && e.claim.value.token == Acquire(row, owner).value.token
    ensures var e := EngineCall.CallLeaves(row, owner, movesMoney, script, left);
      var s := e.claim.value.status;
      && (s == APPLIED <==> script.precheck.Present? || (Attempted(script) && Landed(c)))
      && (s == FAILED_RETRYABLE <==>
            (!script.precheck.Present? && script.precheck != Absent) || (Attempted(script) && Retryable(c)))
      && (s == FAILED_PERMANENT <==> Attempted(script) && Permanent(c))
      && (s == CLAIMED <==> script.precheck == Absent && !script.leaseFree) && s != APPLYING
      && (e.ended.Raised? <==> s == CLAIMED)
  {
    SettledByCause(script.attempt, c, movesMoney);
  }

  /** A killed call leaves the claim as it was, CLAIMED, or APPLYING, by how many commits it lived for. */
  lemma KilledCallLeaves(row: Option<Claim>, owner: Owner, movesMoney: bool, script: EngineCall.Script, left: nat)
    requires Acquire(row, owner).Some? && left < EngineCall.CallCommits(row, owner, script)
    ensures var claim := EngineCall.CallLeaves(row, owner, movesMoney, script, left).claim;
      claim == if left == 0 then row
               else Some(Acquire(row, owner).value.(status := if left < 3 then CLAIMED else APPLYING))
  {
  }

  /** A claim that cannot be had is left alone; the caller learns whether it is applied, and its reference if asked. */
  lemma RefusedCallTells(row: Claim, owner: Owner, movesMoney: bool, script: EngineCall.Script, left: nat)
    requires row.status != FAILED_RETRYABLE && left > 0
    ensures var e := EngineCall.CallLeaves(Some(row), owner, movesMoney, script, left);
      && e.claim == Some(row) && e.ended.Returned? && e.left == left - 1
      && e.ended.o.category == BusinessOutcome && !e.ended.o.moneyMoved
      && e.ended.o.code == (if row.status == APPLIED then AlreadyApplied else AlreadyClaimed)
      && e.ended.o.auditRef ==
        (if row.status == APPLIED && script.precheck.Present? then Some(script.precheck.ref) else None)
  {
  }
}
