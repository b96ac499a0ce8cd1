/**
 How one COMMIT is actuated and reported: the browser step loop with its execution phase, the single HTTP
 request, the bounded read-only reconciliation, and what the reported outcome proves about the submit.
 */
module Replay {
  import opened Prelude
  import opened Outcomes
  import opened Inquiry

  datatype StepAction = Navigate | Fill | Click | Submit | AssertContainer | HttpPost

  /** The exceptions the executor distinguishes; everything else is OtherFault. */
  datatype Fault =
    | PolicyFault | EntityFault | AmountFault | DriftFault | ComplianceFault | SessionFault | LeaseFault | OtherFault

  /**
   What the page does at one step: it shows no matching record before the step acts, raises before the control
   is touched, or raises while the action runs (for a SUBMIT: after the submit was marked as initiated).
   */
  datatype StepEvent = Performed | NoRecords | RaisesBefore(f: Fault) | RaisesDuring(f: Fault)

  datatype Admission = Admitted | Denied | Rejected(f: Fault)

  /** After the last step: an internal violation, or a postcheck and whether every declared output was found. */
  datatype Ending = Violates | Checked(v: Verdict, outputsFound: bool)

  datatype BrowserScript = BrowserScript(admission: Admission, events: seq<StepEvent>, ending: Ending)

  function EventAt(script: BrowserScript, i: nat): StepEvent {
    if i < |script.events| then script.events[i] else Performed
  }

  /** The outcome an exception becomes, given how far the submit had progressed. */
  function Report(f: Fault, phase: Phase): Outcome {
    match f
    case PolicyFault => Plain(HardFailure, PolicyViolation, phase)
    case EntityFault => Plain(HardFailure, EntityBindingMismatch, phase)
    case AmountFault => Plain(HardFailure, AmountMismatch, phase)
    case DriftFault => Plain(RecoverableFailure, PageDrift, phase)
    case ComplianceFault => Plain(NeedsHuman, ComplianceInterstitial, phase)
    case SessionFault => Plain(RecoverableFailure, SessionExpired, phase)
    case LeaseFault => Plain(NeedsHuman, LeaseFenced, phase)
    case OtherFault =>
      if phase == SubmitInitiated || phase == SubmitConfirmed
      then Plain(UncertainEffect, PossiblyApplied, AfterSubmitUnknown)
      else Plain(RecoverableFailure, NetworkTimeout, BeforeSubmit)
  }

  /** A run of the steps either stops with an outcome or reaches the end in some phase. */
  datatype Progress = Stopped(o: Outcome) | Reached(phase: Phase)

  function RunSteps(steps: seq<StepAction>, script: BrowserScript, i: nat, phase: Phase): Progress
    decreases |steps| - i
  {
    if i >= |steps| then Reached(phase)
    else match EventAt(script, i)
      case NoRecords => Stopped(Plain(BusinessOutcome, MemberNotFound, BeforeSubmit))
      case RaisesBefore(f) => Stopped(Report(f, phase))
      case RaisesDuring(f) => Stopped(Report(f, if steps[i] == Submit then SubmitInitiated else phase))
      case Performed => RunSteps(steps, script, i + 1, if steps[i] == Submit then SubmitConfirmed else phase)
  }

  function Conclude(ending: Ending, phase: Phase, movesMoney: bool): Outcome {
    match ending
    case Violates => Report(OtherFault, phase)
    case Checked(v, found) =>
      if !v.Present? then PostcheckOutcome(v, movesMoney).(phase := AfterSubmitUnknown)
      else if !found then Report(OtherFault, phase)
      else PostcheckOutcome(v, movesMoney).(phase := phase)
  }

  function ReplayOutcome(steps: seq<StepAction>, script: BrowserScript, movesMoney: bool): Outcome {
    if HttpPost in steps then Report(PolicyFault, BeforeSubmit)
    else match script.admission
      case Denied => Plain(BusinessOutcome, PolicyDenied, BeforeSubmit)
      case Rejected(f) => Report(f, BeforeSubmit)
      case Admitted =>
        match RunSteps(steps, script, 0, BeforeSubmit)
        case Stopped(o) => o
        case Reached(phase) => Conclude(script.ending, phase, movesMoney)
  }

  /** The SUBMIT at step i was initiated: every earlier step was performed and step i got past its guard. */
  predicate InitiatedAt(steps: seq<StepAction>, script: BrowserScript, i: nat) {
    && i < |steps| && steps[i] == Submit
    && (forall j :: 0 <= j < i ==> EventAt(script, j) == Performed)
    && (EventAt(script, i) == Performed || EventAt(script, i).RaisesDuring?)
  }

  ghost predicate BrowserActuated(steps: seq<StepAction>, script: BrowserScript) {
    HttpPost !in steps && script.admission == Admitted && exists i: nat :: InitiatedAt(steps, script, i)
  }

  /** The run reached step k and found the no-matching-record page there. */
  predicate BlankAt(steps: seq<StepAction>, script: BrowserScript, k: nat) {
    k < |steps| && EventAt(script, k) == NoRecords && forall j :: 0 <= j < k ==> EventAt(script, j) == Performed
  }

  /** A step after a SUBMIT found the no-matching-record page. */
  ghost predicate BlankAfterSubmit(steps: seq<StepAction>, script: BrowserScript) {
    && BrowserActuated(steps, script)
    && exists k: nat :: BlankAt(steps, script, k)
  }

  /**
   The executor's loop. `actuated` records whether a SUBMIT control was marked as initiated, which is the moment
   from which the external mutation may have happened.
   */
  method Execute(steps: seq<StepAction>, script: BrowserScript, movesMoney: bool) returns (o: Outcome, actuated: bool)
    ensures o == ReplayOutcome(steps, script, movesMoney)
    ensures actuated == BrowserActuated(steps, script)
  {
    if HttpPost in steps { return Report(PolicyFault, BeforeSubmit), false; }
    if script.admission == Denied { return Plain(BusinessOutcome, PolicyDenied, BeforeSubmit), false; }
    if script.admission.Rejected? { return Report(script.admission.f, BeforeSubmit), false; }
    var phase := BeforeSubmit;
    actuated := false;
    var i := 0;
    while i < |steps|
      invariant 0 <= i <= |steps|
      invariant forall j :: 0 <= j < i ==> EventAt(script, j) == Performed
      invariant actuated == exists j: nat :: j < i && InitiatedAt(steps, script, j)
      invariant RunSteps(steps, script, 0, BeforeSubmit) == RunSteps(steps, script, i, phase)
    {
      var event := EventAt(script, i);
      if event == NoRecords { return Plain(BusinessOutcome, MemberNotFound, BeforeSubmit), actuated; }
      if event.RaisesBefore? { return Report(event.f, phase), actuated; }
      if steps[i] == Submit {
        phase := SubmitInitiated;
        actuated := true;
        assert InitiatedAt(steps, script, i);
      }
      if event.RaisesDuring? { return Report(event.f, phase), actuated; }
      if steps[i] == Submit { phase := SubmitConfirmed; }
      i := i + 1;
    }
    o := Conclude(script.ending, phase, movesMoney);
  }

  /** An outcome that claims nothing about the effect having landed. */
  predicate Unconfirmed(o: Outcome) {
    !o.IsSuccess() && !o.moneyMoved && o.auditRef == None && o.code !in {Completed, ConfirmedApplied, AlreadyApplied}
  }

  /** What a run's end says about the SUBMITs it initiated and the page it found. */
  ghost predicate PhaseTells(steps: seq<StepAction>, script: BrowserScript, run: Progress) {
    var hit := exists j: nat :: InitiatedAt(steps, script, j);
    match run
    case Reached(phase) =>
      && phase == (if hit then SubmitConfirmed else BeforeSubmit)
      && (forall k: nat :: k < |steps| ==> EventAt(script, k) == Performed)
    case Stopped(o) =>
      && Unconfirmed(o) && o.code != ConfirmedNotApplied
      && (o.category == UncertainEffect ==> o.phase == AfterSubmitUnknown)
      && (hit ==> (o.phase == BeforeSubmit <==> o.code == MemberNotFound))
      && (o.code == MemberNotFound ==> o == Plain(BusinessOutcome, MemberNotFound, BeforeSubmit))
      && (o.code == MemberNotFound <==> exists k: nat :: BlankAt(steps, script, k))
  }

  /** What the executor's phase proves, for every list of steps and every behaviour of the page. */
  lemma {:induction false} StepsPhase(steps: seq<StepAction>, script: BrowserScript, i: nat, phase: Phase)
    requires i <= |steps|
    requires phase == BeforeSubmit || phase == SubmitConfirmed
    requires forall j :: 0 <= j < i ==> EventAt(script, j) == Performed
    requires phase == SubmitConfirmed <==> exists j: nat :: j < i && InitiatedAt(steps, script, j)
    ensures PhaseTells(steps, script, RunSteps(steps, script, i, phase))
    decreases |steps| - i
  {
    if i < |steps| && EventAt(script, i) == Performed {
      assert steps[i] == Submit ==> InitiatedAt(steps, script, i);
      hide PhaseTells;
      StepsPhase(steps, script, i + 1, if steps[i] == Submit then SubmitConfirmed else phase);
    } else if i < |steps| {
      StoppedPhase(steps, script, i, phase);
    }
  }

  /** The run stops at step i. */
  lemma StoppedPhase(steps: seq<StepAction>, script: BrowserScript, i: nat, phase: Phase)
    requires i < |steps| && EventAt(script, i) != Performed
    requires phase == BeforeSubmit || phase == SubmitConfirmed
    requires forall j :: 0 <= j < i ==> EventAt(script, j) == Performed
    requires phase == SubmitConfirmed <==> exists j: nat :: j < i && InitiatedAt(steps, script, j)
    ensures PhaseTells(steps, script, RunSteps(steps, script, i, phase))
  {
    StoppedHits(steps, script, i);
    hide InitiatedAt, BlankAt;
  }

  lemma StoppedHits(steps: seq<StepAction>, script: BrowserScript, i: nat)
    requires i < |steps| && EventAt(script, i) != Performed
    requires forall j :: 0 <= j < i ==> EventAt(script, j) == Performed
    ensures (exists j: nat :: InitiatedAt(steps, script, j)) <==>
      || (exists j: nat :: j < i && InitiatedAt(steps, script, j))
      || (EventAt(script, i).RaisesDuring? && steps[i] == Submit)
    ensures (exists k: nat :: BlankAt(steps, script, k)) <==> EventAt(script, i) == NoRecords
  {
    assert forall j: nat :: i < j ==> !InitiatedAt(steps, script, j);
    assert EventAt(script, i) == NoRecords <==> BlankAt(steps, script, i);
    assert forall k: nat :: BlankAt(steps, script, k) ==> k == i;
    assert EventAt(script, i).RaisesDuring? && steps[i] == Submit ==> InitiatedAt(steps, script, i);
  }

  /** The reply to the single POST; the postcheck verdict matters only when the request was accepted. */
  datatype PostReply = TransportFailed | Replied(status: int, v: Verdict)

  datatype HttpScript =
    | RaisesFirst                    // the lease heartbeat or the identity raised before the request was built
    | Unstructured                   // not exactly one guarded HTTP_POST step
    | InvalidRequest
    | GuardEntity
    | GuardAmount
    | Dispatched(reply: PostReply)

  datatype Transport = Browser(steps: seq<StepAction>, script: BrowserScript) | HttpRequest(http: HttpScript)

  function HttpOutcome(script: HttpScript, movesMoney: bool): Option<Outcome> {
    match script
    case RaisesFirst => None
    case Unstructured => Some(Plain(HardFailure, PolicyViolation, BeforeSubmit))
    case InvalidRequest => Some(Plain(HardFailure, PolicyViolation, BeforeSubmit))
    case GuardEntity => Some(Plain(HardFailure, EntityBindingMismatch, BeforeSubmit))
    case GuardAmount => Some(Plain(HardFailure, AmountMismatch, BeforeSubmit))
    case Dispatched(TransportFailed) => Some(Plain(UncertainEffect, PossiblyApplied, AfterSubmitUnknown))
    case Dispatched(Replied(status, v)) =>
      if status == 401 then Some(Plain(RecoverableFailure, SessionExpired, BeforeSubmit))
      else if status >= 400 then Some(Plain(UncertainEffect, PossiblyApplied, AfterSubmitUnknown))
      else if v.Present? then Some(PostcheckOutcome(v, movesMoney).(phase := SubmitConfirmed))
      else Some(PostcheckOutcome(v, movesMoney).(phase := AfterSubmitUnknown))
  }

  /** None when the transport raised instead of reporting. */
  function Transported(t: Transport, movesMoney: bool): Option<Outcome> {
    match t
    case Browser(steps, script) => Some(ReplayOutcome(steps, script, movesMoney))
    case HttpRequest(http) => HttpOutcome(http, movesMoney)
  }

  /** The k-th reconciliation inquiry; a script that ends stays unavailable. */
  function InquiryAt(inquiries: seq<Verdict>, k: nat): Verdict {
    if k < |inquiries| then inquiries[k] else Unavailable
  }

  function Limit(maxInquiries: int): nat { if maxInquiries > 1 then maxInquiries else 1 }

  /** The number of inquiries made: repeated only while unavailable, never beyond the limit. */
  function Attempts(inquiries: seq<Verdict>, limit: nat, made: nat): (n: nat)
    requires 1 <= made <= limit
    ensures made <= n <= limit
    ensures forall k: nat :: made - 1 <= k < n - 1 ==> InquiryAt(inquiries, k) == Unavailable
    ensures n < limit ==> InquiryAt(inquiries, n - 1) != Unavailable
    decreases limit - made
  {
    if InquiryAt(inquiries, made - 1) == Unavailable && made < limit then Attempts(inquiries, limit, made + 1) else made
  }

  function ReconciledVerdict(inquiries: seq<Verdict>, maxInquiries: int): Verdict {
    InquiryAt(inquiries, Attempts(inquiries, Limit(maxInquiries), 1) - 1)
  }

  function ReconciliationOutcome(v: Verdict, movesMoney: bool): Outcome {
    match v
    case Present(r) => Outcome(Success, ConfirmedApplied, SubmitConfirmed, movesMoney, Some(r))
    case Absent => Plain(BusinessOutcome, ConfirmedNotApplied, AfterSubmitUnknown)
    case _ => Plain(UncertainEffect, UncertainCode, AfterSubmitUnknown)
  }

  /** Repeats only the inquiry, and stops at the first answer that is not an outage. */
  method Reconcile(inquiries: seq<Verdict>, maxInquiries: int, movesMoney: bool) returns (o: Outcome, attempts: nat)
    ensures 1 <= attempts <= Limit(maxInquiries)
    ensures forall k: nat :: k < attempts - 1 ==> InquiryAt(inquiries, k) == Unavailable
    ensures attempts < Limit(maxInquiries) ==> InquiryAt(inquiries, attempts - 1) != Unavailable
    ensures o == ReconciliationOutcome(InquiryAt(inquiries, attempts - 1), movesMoney)
    ensures o == ReconciliationOutcome(ReconciledVerdict(inquiries, maxInquiries), movesMoney)
  {
    var limit := Limit(maxInquiries);
    var last := InquiryAt(inquiries, 0);
    attempts := 1;
    while last == Unavailable && attempts < limit
      invariant 1 <= attempts <= limit
      invariant last == InquiryAt(inquiries, attempts - 1)
      invariant forall k: nat :: k < attempts - 1 ==> InquiryAt(inquiries, k) == Unavailable
      invariant Attempts(inquiries, limit, 1) == Attempts(inquiries, limit, attempts)
    {
      last := InquiryAt(inquiries, attempts);
      attempts := attempts + 1;
    }
    o := ReconciliationOutcome(last, movesMoney);
  }

  /** One COMMIT attempt, from the transport's behaviour to the answers its inquiries would get. */
  datatype Attempt = Attempt(transport: Transport, inquiries: seq<Verdict>, maxInquiries: int)

  predicate Reconciles(t: Transport, movesMoney: bool) {
    var first := Transported(t, movesMoney);
    first == None || first.value.code == PossiblyApplied || first.value.phase == AfterSubmitUnknown
  }

  function CommitOutcome(a: Attempt, movesMoney: bool): Outcome {
    if Reconciles(a.transport, movesMoney)
    then ReconciliationOutcome(ReconciledVerdict(a.inquiries, a.maxInquiries), movesMoney)
    else Transported(a.transport, movesMoney).value
  }

  /** The external mutation may have been requested. */
  ghost predicate Actuated(t: Transport) {
    match t
    case Browser(steps, script) => BrowserActuated(steps, script)
    case HttpRequest(http) => http.Dispatched?
  }

  /** The target answered 401: it saw the request and refused it before acting. */
  predicate RefusedBeforeActing(t: Transport) {
    t.HttpRequest? && t.http.Dispatched? && t.http.reply.Replied? && t.http.reply.status == 401
  }

  ghost predicate LeftBlankPage(t: Transport) {
    t.Browser? && BlankAfterSubmit(t.steps, t.script)
  }

  /** The answer of the last inquiry, when the outcome rests on one. */
  function Deciding(a: Attempt, movesMoney: bool): Option<Verdict> {
    if Reconciles(a.transport, movesMoney) then Some(ReconciledVerdict(a.inquiries, a.maxInquiries))
    else var o := Transported(a.transport, movesMoney).value;
      if o.IsSuccess() && o.auditRef.Some? then Some(Present(o.auditRef.value)) else None
  }

  /** What a transport's own report says: it succeeds only with a reference, and BEFORE_SUBMIT is not said lightly. */
  ghost predicate Faithful(t: Transport, o: Outcome, movesMoney: bool) {
    && (o.IsSuccess() ==> o.auditRef.Some? && o.code == Completed && o.moneyMoved == movesMoney)
    && (!o.IsSuccess() ==> Unconfirmed(o))
    && (o.code == ConfirmedNotApplied ==> o.phase == AfterSubmitUnknown)
    && (o.category == UncertainEffect ==> o.phase == AfterSubmitUnknown)
    && (!o.IsSuccess() && Actuated(t) && !RefusedBeforeActing(t) ==>
          (o.phase == BeforeSubmit <==> LeftBlankPage(t)))
    && (LeftBlankPage(t) ==> o == Plain(BusinessOutcome, MemberNotFound, BeforeSubmit))
  }

  lemma BrowserReport(steps: seq<StepAction>, script: BrowserScript, movesMoney: bool)
    ensures Faithful(Browser(steps, script), ReplayOutcome(steps, script, movesMoney), movesMoney)
  {
    if HttpPost !in steps && script.admission == Admitted {
      StepsPhase(steps, script, 0, BeforeSubmit);
      var run := RunSteps(steps, script, 0, BeforeSubmit);
      assert run.Reached? ==> forall k: nat :: !BlankAt(steps, script, k);
    }
  }

  lemma HttpReport(http: HttpScript, movesMoney: bool)
    ensures http != RaisesFirst ==> Faithful(HttpRequest(http), HttpOutcome(http, movesMoney).value, movesMoney)
  {
  }

  /**
   Phase soundness. APPLIED rests on a matching record, with its reference; FAILED_RETRYABLE means the submit was
   never initiated, or the target refused it, or an inquiry made afterwards reported absence; any other attempt
   that reached the submit is UNCERTAIN, except one that met the no-matching-record page after its SUBMIT.
   */
  lemma PhaseSoundness(a: Attempt, movesMoney: bool)
    ensures var o, d := CommitOutcome(a, movesMoney), Deciding(a, movesMoney);
      var s := SettleClaimStatus(o);
      && (s == APPLIED <==> d.Some? && d.value.Present?)
      && (s == APPLIED ==> o.auditRef == Some(d.value.ref) && o.moneyMoved == movesMoney)
      && (s == APPLIED ==> o.code in {Completed, ConfirmedApplied})
      && (s != APPLIED ==> Unconfirmed(o))
      && (s == FAILED_RETRYABLE ==> !Actuated(a.transport) || RefusedBeforeActing(a.transport) || d == Some(Absent))
      && (Actuated(a.transport) && !RefusedBeforeActing(a.transport) ==>
            && (s == FAILED_RETRYABLE <==> d == Some(Absent))
            && (s == FAILED_PERMANENT <==> LeftBlankPage(a.transport)))
  {
    if a.transport.Browser? {
      BrowserReport(a.transport.steps, a.transport.script, movesMoney);
    } else {
      HttpReport(a.transport.http, movesMoney);
    }
  }

  /** The only SUBMIT is the last step. */
  predicate SubmitsLast(steps: seq<StepAction>) {
    forall j :: 0 <= j < |steps| && steps[j] == Submit ==> j == |steps| - 1
  }

  /** The steps of the provisional credit capability. */
  const POST_CREDIT_STEPS := [Navigate, Fill, Click, Click, Fill, Fill, Click, Submit]

  /**
   A capability that submits last, as the credit does, or by its one request, as the others do, never meets the
   exception: once it acted it is permanently failed only if the target refused it.
   */
  lemma SubmitLastIsNeverLost(a: Attempt, movesMoney: bool)
    requires a.transport.Browser? ==> SubmitsLast(a.transport.steps)
    ensures SubmitsLast(POST_CREDIT_STEPS)
    ensures !LeftBlankPage(a.transport)
    ensures SettleClaimStatus(CommitOutcome(a, movesMoney)) == FAILED_PERMANENT ==>
      !Actuated(a.transport) || RefusedBeforeActing(a.transport)
  {
    if a.transport.Browser? {
      var steps, script := a.transport.steps, a.transport.script;
      forall i: nat, k: nat | InitiatedAt(steps, script, i) ensures !BlankAt(steps, script, k) {
        assert i == |steps| - 1;
      }
    }
    PhaseSoundness(a, movesMoney);
  }

  /**
   That exception is real, for a capability that acts after its SUBMIT: the claim ends permanently failed although the
   submit went out.
   */
  lemma BlankPageAfterSubmitFailsPermanently()
    ensures var t := Browser([Submit, AssertContainer], BrowserScript(Admitted, [Performed, NoRecords], Violates));
      Actuated(t) && SettleClaimStatus(CommitOutcome(Attempt(t, [], 1), true)) == FAILED_PERMANENT
  {
    var steps, script := [Submit, AssertContainer], BrowserScript(Admitted, [Performed, NoRecords], Violates);
    assert InitiatedAt(steps, script, 0);
    assert RunSteps(steps, script, 0, BeforeSubmit) == RunSteps(steps, script, 1, SubmitConfirmed);
  }
}
