/**
 The read-only target inquiries made before and after a submit: both turn one HTTP response into a verdict
 and differ only in where they look for the target's immutable reference.
 */
module Inquiry {
  import opened Prelude
  import opened Outcomes

  /** A parsed body; `amount` is None when the target's amount is missing or not a valid amount of cents. */
  datatype Body = NotJson | NotObject | Record(fields: map<string, string>, amount: Option<int>)

  datatype Response = TransportError | Http(status: int, body: Body)

  datatype Adapter = Credits | Chargebacks | Notices | NoAdapter

  datatype Verdict = Present(ref: string) | Absent | Unavailable | Invalid | Ambiguous

  /** The inputs that name one effect; the engine has already put the amount in cents. */
  datatype Subject = Subject(capability: string, inputs: map<string, string>, amount: int)

  function Field(m: map<string, string>, key: string): string {
    if key in m then m[key] else ""
  }

  /** The eight identity fields and the value each must carry, in the order they are compared. */
  function Expected(subject: Subject): seq<(string, string)> {
    [ ("institution_id", Field(subject.inputs, "institution_id")),
      ("procedure_id", "reg_e_dispute"),
      ("capability_id", subject.capability),
      ("case_id", Field(subject.inputs, "case_id")),
      ("member_id", Field(subject.inputs, "member_id")),
      ("account_id", Field(subject.inputs, "account_id")),
      ("currency", Field(subject.inputs, "currency")),
      ("business_reference", Field(subject.inputs, "case_id")) ]
  }

  /** The first field that is unset in the subject or differs in the target's record. */
  function FirstMismatch(expected: seq<(string, string)>, data: map<string, string>): Option<string> {
    if expected == [] then None
    else if expected[0].1 == "" || Field(data, expected[0].0) != expected[0].1 then Some(expected[0].0)
    else FirstMismatch(expected[1..], data)
  }

  /** Every expected value is set and the target's record carries it. */
  predicate Carries(expected: seq<(string, string)>, data: map<string, string>) {
    forall i :: 0 <= i < |expected| ==> expected[i].1 != "" && Field(data, expected[i].0) == expected[i].1
  }

  lemma {:induction false} NoMismatchIffCarries(expected: seq<(string, string)>, data: map<string, string>)
    ensures FirstMismatch(expected, data) == None <==> Carries(expected, data)
  {
    if expected != [] {
      NoMismatchIffCarries(expected[1..], data);
      assert forall i :: 1 <= i < |expected| ==> expected[i] == expected[1..][i - 1];
      assert forall i :: 0 <= i < |expected| - 1 ==> expected[1..][i] == expected[i + 1];
    }
  }

  function ReferenceField(adapter: Adapter): string {
    match adapter
    case Credits => "memo_code"
    case Chargebacks => "network_ref"
    case Notices => "notice_id"
    case NoAdapter => ""
  }

  /** The postcheck reads the adapter's own reference field. */
  function PostcheckReference(adapter: Adapter, data: map<string, string>): string {
    Field(data, ReferenceField(adapter))
  }

  /** The precheck takes the first of the three reference fields that is set. */
  function PrecheckReference(data: map<string, string>): string {
    if Field(data, "memo_code") != "" then Field(data, "memo_code")
    else if Field(data, "network_ref") != "" then Field(data, "network_ref")
    else Field(data, "notice_id")
  }

  function Classify(adapter: Adapter, subject: Subject, response: Response,
                    reference: map<string, string> -> string): Verdict {
    if Field(subject.inputs, "case_id") == "" || adapter == NoAdapter then Invalid
    else match response
      case TransportError => Unavailable
      case Http(status, body) =>
        if status == 404 then Absent
        else if status != 200 then Unavailable
        else match body
          case NotJson => Invalid
          case NotObject => Invalid
          case Record(data, amount) =>
            if FirstMismatch(Expected(subject), data) != None || amount != Some(subject.amount) then Ambiguous
            else if reference(data) == "" || Field(data, "status") == "" then Invalid
            else Present(reference(data))
  }

  function Postcheck(adapter: Adapter, subject: Subject, response: Response): Verdict {
    Classify(adapter, subject, response, data => PostcheckReference(adapter, data))
  }

  function Precheck(adapter: Adapter, subject: Subject, response: Response): Verdict {
    Classify(adapter, subject, response, PrecheckReference)
  }

  /** The target's field holds what the input says, and the input says something. */
  predicate Agrees(subject: Subject, data: map<string, string>, input: string, field: string) {
    Field(subject.inputs, input) != "" && Field(data, field) == Field(subject.inputs, input)
  }

  /** The target's record is of this very effect: procedure, capability, case, member, account and all. */
  predicate SameEffect(subject: Subject, data: map<string, string>) {
    && Agrees(subject, data, "institution_id", "institution_id") && Agrees(subject, data, "case_id", "case_id")
    && Agrees(subject, data, "member_id", "member_id") && Agrees(subject, data, "account_id", "account_id")
    && Agrees(subject, data, "currency", "currency") && Agrees(subject, data, "case_id", "business_reference")
    && Field(data, "procedure_id") == "reg_e_dispute"
    && subject.capability != "" && Field(data, "capability_id") == subject.capability
  }

  lemma CarriesIffSameEffect(subject: Subject, data: map<string, string>)
    ensures Carries(Expected(subject), data) <==> SameEffect(subject, data)
  {
    var expected := Expected(subject);
    assert |expected| == 8;
    if Carries(expected, data) {
      assert forall i :: 0 <= i < 8 ==> expected[i].1 != "" && Field(data, expected[i].0) == expected[i].1;
      assert expected[0].0 == "institution_id" && expected[1].0 == "procedure_id" && expected[2].0 == "capability_id";
      assert expected[3].0 == "case_id" && expected[4].0 == "member_id" && expected[5].0 == "account_id";
      assert expected[6].0 == "currency" && expected[7].0 == "business_reference";
    }
  }

  predicate HasRecord(response: Response) {
    response.Http? && response.status == 200 && response.body.Record?
  }

  /** A record of the effect with the exact amount; no other record is taken for it. */
  predicate MatchingRecord(subject: Subject, response: Response) {
    && HasRecord(response) && SameEffect(subject, response.body.fields)
    && response.body.amount == Some(subject.amount)
  }

  /** The record of a response that carries the complete identity, the exact amount and a status. */
  predicate FullRecord(subject: Subject, response: Response) {
    MatchingRecord(subject, response) && Field(response.body.fields, "status") != ""
  }

  /** The reference each adapter's target gives. */
  predicate References(adapter: Adapter, data: map<string, string>, ref: string) {
    match adapter
    case Credits => Field(data, "memo_code") == ref
    case Chargebacks => Field(data, "network_ref") == ref
    case Notices => Field(data, "notice_id") == ref
    case NoAdapter => false
  }

  /** The precheck knows no adapter: the memo code wins over the network reference, and both over the notice id. */
  predicate FirstReference(data: map<string, string>, ref: string) {
    || Field(data, "memo_code") == ref
    || (Field(data, "memo_code") == "" && Field(data, "network_ref") == ref)
    || (Field(data, "memo_code") == Field(data, "network_ref") == "" && Field(data, "notice_id") == ref)
  }

  /** Presence is only ever read off a complete, matching record, and absence only off a 404. */
  lemma VerdictIsExact(adapter: Adapter, subject: Subject, response: Response)
    requires adapter != NoAdapter && Field(subject.inputs, "case_id") != ""
    ensures forall r :: Postcheck(adapter, subject, response) == Present(r) <==>
      FullRecord(subject, response) && References(adapter, response.body.fields, r) && r != ""
    ensures forall r :: Precheck(adapter, subject, response) == Present(r) <==>
      FullRecord(subject, response) && FirstReference(response.body.fields, r) && r != ""
    ensures Postcheck(adapter, subject, response) == Absent <==> response.Http? && response.status == 404
    ensures Precheck(adapter, subject, response) == Absent <==> response.Http? && response.status == 404
  {
    if response.Http? && response.body.Record? {
      NoMismatchIffCarries(Expected(subject), response.body.fields);
      CarriesIffSameEffect(subject, response.body.fields);
    }
  }

  predicate DoubtTells(v: Verdict, subject: Subject, response: Response) {
    && (v == Unavailable <==> response.TransportError? || (response.status != 200 && response.status != 404))
    && (v == Ambiguous <==> HasRecord(response) && !MatchingRecord(subject, response))
    && (v == Invalid ==> response.Http? && response.status == 200)
  }

  /**
   Of the answers that decide nothing, an outage is a transport error or any status but 200 and 404, and so may be asked
   again; a record of another effect or amount is ambiguous; anything else unreadable or incomplete is invalid.
   */
  lemma DoubtIsExact(adapter: Adapter, subject: Subject, response: Response)
    requires adapter != NoAdapter && Field(subject.inputs, "case_id") != ""
    ensures DoubtTells(Postcheck(adapter, subject, response), subject, response)
    ensures DoubtTells(Precheck(adapter, subject, response), subject, response)
  {
    if response.Http? && response.body.Record? {
      NoMismatchIffCarries(Expected(subject), response.body.fields);
      CarriesIffSameEffect(subject, response.body.fields);
    }
  }

  /** Without a case or a target to ask, nothing is asked. */
  lemma NothingToAsk(adapter: Adapter, subject: Subject, response: Response)
    ensures adapter == NoAdapter || Field(subject.inputs, "case_id") == "" ==>
      Postcheck(adapter, subject, response) == Precheck(adapter, subject, response) == Invalid
  {
  }

  /**
   The two inquiries classify a response alike unless it is a full record on which they read different
   references; a record carrying only its own adapter's reference is always classified alike.
   */
  lemma InquiriesAgree(adapter: Adapter, subject: Subject, response: Response)
    requires adapter != NoAdapter && Field(subject.inputs, "case_id") != ""
    ensures Precheck(adapter, subject, response) == Postcheck(adapter, subject, response) <==>
      (FullRecord(subject, response) ==>
        PrecheckReference(response.body.fields) == PostcheckReference(adapter, response.body.fields))
    ensures FullRecord(subject, response)
      && (forall a: Adapter :: a != NoAdapter && a != adapter ==> Field(response.body.fields, ReferenceField(a)) == "")
      ==> Precheck(adapter, subject, response) == Postcheck(adapter, subject, response)
  {
    VerdictIsExact(adapter, subject, response);
    if response.Http? && response.body.Record? {
      NoMismatchIffCarries(Expected(subject), response.body.fields);
      CarriesIffSameEffect(subject, response.body.fields);
      assert ReferenceField(Credits) == "memo_code" && ReferenceField(Chargebacks) == "network_ref"
        && ReferenceField(Notices) == "notice_id";
    }
  }

  function PrecheckOutcome(v: Verdict): Outcome {
    match v
    case Present(r) => Outcome(BusinessOutcome, AlreadyApplied, BeforeSubmit, false, Some(r))
    case Absent => Plain(Success, NotApplied, BeforeSubmit)
    case Unavailable => Plain(HardFailure, PrecheckUnavailable, BeforeSubmit)
    case Invalid => Plain(HardFailure, PrecheckInvalidResponse, BeforeSubmit)
    case Ambiguous => Plain(HardFailure, PrecheckAmbiguous, BeforeSubmit)
  }

  function PostcheckOutcome(v: Verdict, movesMoney: bool): Outcome {
    match v
    case Present(r) => Outcome(Success, Completed, BeforeSubmit, movesMoney, Some(r))
    case Absent => Plain(BusinessOutcome, ConfirmedNotApplied, BeforeSubmit)
    case Unavailable => Plain(UncertainEffect, PostcheckUnavailable, BeforeSubmit)
    case Invalid => Plain(UncertainEffect, PostcheckInvalidResponse, BeforeSubmit)
    case Ambiguous => Plain(UncertainEffect, PostcheckAmbiguous, BeforeSubmit)
  }

  /** Only proven absence lets a commit go on, only proven presence says it is applied; neither moves money. */
  lemma PrecheckTells(v: Verdict)
    ensures var o := PrecheckOutcome(v);
      && (o.IsSuccess() <==> v == Absent) && (o.code == NotApplied <==> v == Absent)
      && (o.code == AlreadyApplied <==> v.Present?) && o.auditRef == (if v.Present? then Some(v.ref) else None)
      && (o.category == HardFailure <==> v == Unavailable || v == Invalid || v == Ambiguous)
      && (o.code == PrecheckUnavailable <==> v == Unavailable) && (o.code == PrecheckInvalidResponse <==> v == Invalid)
      && (o.code == PrecheckAmbiguous <==> v == Ambiguous) && !o.moneyMoved && o.phase == BeforeSubmit
  {
  }

  /** After the submit only proven presence is a success, with the target's reference; doubt is an uncertain effect. */
  lemma PostcheckTells(v: Verdict, movesMoney: bool)
    ensures var o := PostcheckOutcome(v, movesMoney);
      && (o.IsSuccess() <==> v.Present?) && o.auditRef == (if v.Present? then Some(v.ref) else None)
      && (o.moneyMoved <==> v.Present? && movesMoney) && (o.code == ConfirmedNotApplied <==> v == Absent)
      && (o.category == UncertainEffect <==> v == Unavailable || v == Invalid || v == Ambiguous)
      && (o.code == PostcheckUnavailable <==> v == Unavailable)
      && (o.code == PostcheckInvalidResponse <==> v == Invalid) && (o.code == PostcheckAmbiguous <==> v == Ambiguous)
  {
  }
}
