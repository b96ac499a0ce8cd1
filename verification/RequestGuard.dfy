/**
 The identity of one external effect, the payload it submits, and the checks that payload passes on its way out:
 the policy bound before the engine starts and the request-identity guard right before dispatch.
 */
module RequestGuard {
  import opened Prelude
  import opened Money
  import Inquiry

  datatype Identity = Identity(
    institution: string, procedure: string, capability: string, caseId: string, member: string, account: string,
    currency: string, reference: string, amount: Money)

  /** What constructing an identity establishes: no empty field, a three-letter currency, an amount in range. */
  predicate ValidIdentity(id: Identity) {
    && id.institution != "" && id.procedure != "" && id.capability != "" && id.caseId != "" && id.member != ""
    && id.account != "" && id.reference != "" && |id.currency| == 3 && id.amount.InRange()
  }

  /** The eight fields the guard compares, in its order. */
  function Expected(id: Identity): seq<(string, string)> {
    [ ("institution_id", id.institution), ("procedure_id", id.procedure), ("capability_id", id.capability),
      ("case_id", id.caseId), ("member_id", id.member), ("account_id", id.account),
      ("currency", id.currency), ("business_reference", id.reference) ]
  }

  function CanonicalPayload(id: Identity): map<string, string> {
    map["account_id" := id.account, "amount" := FormatMoney(id.amount), "business_reference" := id.reference,
        "capability_id" := id.capability, "case_id" := id.caseId, "currency" := id.currency,
        "institution_id" := id.institution, "member_id" := id.member, "procedure_id" := id.procedure]
  }

  /** How text is read as a number: any reader that agrees with the plain notation. */
  ghost predicate Reader(read: string -> Input) {
    && (forall s :: read(s).Number? ==> read(s).decimal.Valid())
    && (forall s :: ReadPlain(s).Some? ==> read(s) == Number(ReadPlain(s).value))
  }

  datatype GuardError =
    EntityBindingMismatch(field: string) | AmountMissing | AmountInvalid(error: MoneyError) | AmountDiffers

  function VerifyRequestIdentityGuard(payload: map<string, string>, id: Identity, read: string -> Input)
    : Result<(), GuardError>
    requires forall s :: read(s).Number? ==> read(s).decimal.Valid()
  {
    var mismatch := FirstUnbound(Expected(id), payload);
    if mismatch.Some? then Err(EntityBindingMismatch(mismatch.value))
    else if Inquiry.Field(payload, "amount") == "" then Err(AmountMissing)
    else match ParseMoney(read(payload["amount"]))
      case Err(e) => Err(AmountInvalid(e))
      case Ok(parsed) => if parsed.Value() != id.amount.Value() then Err(AmountDiffers) else Ok(())
  }

  /** The first field whose submitted value is missing, empty or different. */
  function FirstUnbound(expected: seq<(string, string)>, payload: map<string, string>): Option<string> {
    if expected == [] then None
    else if Inquiry.Field(payload, expected[0].0) == "" || payload[expected[0].0] != expected[0].1
    then Some(expected[0].0)
    else FirstUnbound(expected[1..], payload)
  }

  lemma {:induction false} UnboundIsMismatch(expected: seq<(string, string)>, payload: map<string, string>)
    ensures FirstUnbound(expected, payload) == Inquiry.FirstMismatch(expected, payload)
  {
    if expected != [] { UnboundIsMismatch(expected[1..], payload); }
  }

  /** The submitted amount reads as the identity's amount. */
  predicate BindsAmount(payload: map<string, string>, id: Identity, read: string -> Input)
    requires forall s :: read(s).Number? ==> read(s).decimal.Valid()
  {
    && Inquiry.Field(payload, "amount") != ""
    && var parsed := ParseMoney(read(payload["amount"]));
    && parsed.Ok? && parsed.value.Value() == id.amount.Value()
  }

  /** The payload gives this value, and the value is not empty. */
  predicate Gives(payload: map<string, string>, key: string, value: string) {
    key in payload && payload[key] == value && value != ""
  }

  predicate BindsIdentity(payload: map<string, string>, id: Identity) {
    && Gives(payload, "institution_id", id.institution) && Gives(payload, "procedure_id", id.procedure)
    && Gives(payload, "capability_id", id.capability) && Gives(payload, "case_id", id.caseId)
    && Gives(payload, "member_id", id.member) && Gives(payload, "account_id", id.account)
    && Gives(payload, "currency", id.currency) && Gives(payload, "business_reference", id.reference)
  }

  lemma CarriesIffBindsIdentity(payload: map<string, string>, id: Identity)
    ensures Inquiry.Carries(Expected(id), payload) <==> BindsIdentity(payload, id)
  {
    var expected := Expected(id);
    assert |expected| == 8;
    if Inquiry.Carries(expected, payload) {
      assert forall i :: 0 <= i < 8 ==> expected[i].1 != "" && Inquiry.Field(payload, expected[i].0) == expected[i].1;
      assert expected[0].0 == "institution_id" && expected[1].0 == "procedure_id" && expected[2].0 == "capability_id";
      assert expected[3].0 == "case_id" && expected[4].0 == "member_id" && expected[5].0 == "account_id";
      assert expected[6].0 == "currency" && expected[7].0 == "business_reference";
    }
  }

  /**
   The guard lets a payload through exactly when it carries all eight fields and the amount, to the cent. It blames the
   identity exactly when a field is not carried, and the amount, missing, unreadable or different, only after that.
   */
  lemma GuardIsExact(payload: map<string, string>, id: Identity, read: string -> Input)
    requires Reader(read)
    ensures var r, amount := VerifyRequestIdentityGuard(payload, id, read), Inquiry.Field(payload, "amount");
      && (r.Ok? <==> BindsIdentity(payload, id) && BindsAmount(payload, id, read))
      && (r.Err? && r.error.EntityBindingMismatch? <==> !BindsIdentity(payload, id))
      && (r == Err(AmountMissing) <==> BindsIdentity(payload, id) && amount == "")
      && (r == Err(AmountDiffers) <==> BindsIdentity(payload, id) && amount != "" && ParseMoney(read(amount)).Ok?
                                       && ParseMoney(read(amount)).value.Value() != id.amount.Value())
  {
    UnboundIsMismatch(Expected(id), payload);
    Inquiry.NoMismatchIffCarries(Expected(id), payload);
    CarriesIffBindsIdentity(payload, id);
  }

  datatype System = Processor | Documents | OtherSystem

  /** The inputs the two HTTP targets add; None for a required input that is missing. */
  function BuildRequest(system: System, inputs: map<string, string>, id: Identity): Option<map<string, string>> {
    match system
    case Processor =>
      if "card_last4" !in inputs then None
      else
        var reason := if "dispute_reason" in inputs then inputs["dispute_reason"] else "Unauthorized Transaction";
        Some(CanonicalPayload(id)["card_last4" := inputs["card_last4"]]["dispute_reason" := reason])
    case Documents =>
      if "notice_type" !in inputs || "deadline_due_at" !in inputs then None
      else
        var canonical := CanonicalPayload(id);
        Some(canonical["notice_type" := inputs["notice_type"]]["deadline_due_at" := inputs["deadline_due_at"]])
    case OtherSystem => None
  }

  const CANONICAL_KEYS: set<string> :=
    {"account_id", "amount", "business_reference", "capability_id", "case_id", "currency", "institution_id",
     "member_id", "procedure_id"}

  /** The nine canonical fields with their values, and these further fields. */
  predicate Canonical(payload: map<string, string>, id: Identity, added: set<string>) {
    && payload.Keys == CANONICAL_KEYS + added
    && payload["account_id"] == id.account && payload["amount"] == FormatMoney(id.amount)
    && payload["business_reference"] == id.reference && payload["capability_id"] == id.capability
    && payload["case_id"] == id.caseId && payload["currency"] == id.currency
    && payload["institution_id"] == id.institution && payload["member_id"] == id.member
    && payload["procedure_id"] == id.procedure
  }

  lemma CanonicalPayloadIsExact(id: Identity)
    ensures Canonical(CanonicalPayload(id), id, {})
  {
    assert CanonicalPayload(id).Keys == CANONICAL_KEYS + {};
  }

  lemma AddingIsExact(base: map<string, string>, id: Identity, k: string, v: string, l: string, w: string)
    requires Canonical(base, id, {}) && k !in CANONICAL_KEYS && l !in CANONICAL_KEYS
    ensures Canonical(base[k := v][l := w], id, {k, l})
  {
    assert base[k := v][l := w].Keys == base.Keys + {k, l} == CANONICAL_KEYS + {k, l};
  }

  /**
   A request is built exactly when the target's own required inputs are there; it is the canonical payload and the two
   fields that target adds, the dispute reason by default an unauthorized transaction.
   */
  lemma BuildIsExact(system: System, inputs: map<string, string>, id: Identity)
    ensures Canonical(CanonicalPayload(id), id, {})
    ensures var built := BuildRequest(system, inputs, id);
      match system
      case Processor =>
        && (built.Some? <==> "card_last4" in inputs)
        && (built.Some? ==>
             && Canonical(built.value, id, {"card_last4", "dispute_reason"})
             && built.value["card_last4"] == inputs["card_last4"]
             && built.value["dispute_reason"] ==
                  (if "dispute_reason" in inputs then inputs["dispute_reason"] else "Unauthorized Transaction"))
      case Documents =>
        && (built.Some? <==> "notice_type" in inputs && "deadline_due_at" in inputs)
        && (built.Some? ==>
             && Canonical(built.value, id, {"notice_type", "deadline_due_at"})
             && built.value["notice_type"] == inputs["notice_type"]
             && built.value["deadline_due_at"] == inputs["deadline_due_at"])
      case OtherSystem => built.None?
  {
    hide Canonical, CanonicalPayload;
    CanonicalPayloadIsExact(id);
    if BuildRequest(system, inputs, id).Some? {
      var payload := BuildRequest(system, inputs, id).value;
      if system == Processor {
        AddingIsExact(CanonicalPayload(id), id, "card_last4", payload["card_last4"],
                      "dispute_reason", payload["dispute_reason"]);
      } else {
        AddingIsExact(CanonicalPayload(id), id, "notice_type", payload["notice_type"],
                      "deadline_due_at", payload["deadline_due_at"]);
      }
    }
  }

  lemma CanonicalPayloadCarries(id: Identity)
    requires ValidIdentity(id)
    ensures Inquiry.Carries(Expected(id), CanonicalPayload(id))
  {
  }

  lemma CanonicalPayloadBindsAmount(id: Identity, read: string -> Input)
    requires ValidIdentity(id) && Reader(read)
    ensures BindsAmount(CanonicalPayload(id), id, read)
  {
    var text := FormatMoney(id.amount);
    MoneyRoundTrip(id.amount);
    assert read(text) == Number(ReadPlain(text).value);
    UnsignedStartsWithDigit(id.amount.cents);
  }

  predicate Extends(base: map<string, string>, payload: map<string, string>) {
    forall k :: k in base ==> k in payload && payload[k] == base[k]
  }

  lemma BuiltKeepsIdentity(system: System, inputs: map<string, string>, id: Identity)
    requires BuildRequest(system, inputs, id).Some?
    ensures Extends(CanonicalPayload(id), BuildRequest(system, inputs, id).value)
    ensures "amount" in CanonicalPayload(id) && "currency" in CanonicalPayload(id)
  {
  }

  lemma ExtensionCarries(expected: seq<(string, string)>, base: map<string, string>, payload: map<string, string>)
    requires Extends(base, payload) && Inquiry.Carries(expected, base)
    ensures Inquiry.Carries(expected, payload)
  {
  }

  /** Whatever is built for a valid identity passes the guard: the guard never refuses an honest request. */
  lemma GuardAcceptsWhatIsBuilt(system: System, inputs: map<string, string>, id: Identity, read: string -> Input)
    requires ValidIdentity(id) && Reader(read) && BuildRequest(system, inputs, id).Some?
    ensures VerifyRequestIdentityGuard(BuildRequest(system, inputs, id).value, id, read).Ok?
  {
    hide BuildRequest, CanonicalPayload, FormatMoney, ParseMoney, VerifyRequestIdentityGuard;
    CarriesIffBindsIdentity(BuildRequest(system, inputs, id).value, id);
    BuiltKeepsIdentity(system, inputs, id);
    CanonicalPayloadCarries(id);
    CanonicalPayloadBindsAmount(id, read);
    ExtensionCarries(Expected(id), CanonicalPayload(id), BuildRequest(system, inputs, id).value);
    GuardIsExact(BuildRequest(system, inputs, id).value, id, read);
  }

  /** Distinct identities submit distinct payloads, so any injective digest of the payload gives distinct keys. */
  lemma PayloadDeterminesIdentity(a: Identity, b: Identity)
    requires ValidIdentity(a) && ValidIdentity(b)
    ensures CanonicalPayload(a) == CanonicalPayload(b) <==> a == b
  {
    if CanonicalPayload(a) == CanonicalPayload(b) {
      var p, q := CanonicalPayload(a), CanonicalPayload(b);
      assert p["account_id"] == q["account_id"] && p["business_reference"] == q["business_reference"];
      assert p["capability_id"] == q["capability_id"] && p["case_id"] == q["case_id"] && p["currency"] == q["currency"];
      assert p["institution_id"] == q["institution_id"] && p["member_id"] == q["member_id"];
      assert p["procedure_id"] == q["procedure_id"] && p["amount"] == q["amount"];
      TextIsCanonicalButForZero(a.amount, b.amount);
    }
  }

  // ---------------------------------------------------------------------------------------------------------------
  // Policy
  // ---------------------------------------------------------------------------------------------------------------

  const DEFAULT_BOUND: nat := 500_00

  datatype Denial = BadAmount | AboveBound | NotPositive | CurrencyNotPermitted | NoScopedGuard

  /** The declared bound in cents if the capability has one, and whether it declares a scoped guard. */
  datatype Capability = Capability(commits: bool, bound: Option<nat>, guarded: bool)

  function Bound(c: Capability): nat {
    if c.bound.Some? then c.bound.value else DEFAULT_BOUND
  }

  function ValidatePolicy(c: Capability, amount: Option<Input>, currency: Option<string>): Result<(), Denial>
    requires amount.Some? && amount.value.Number? ==> amount.value.decimal.Valid()
  {
    if !c.commits then Ok(())
    else
      var denied := if amount.None? then None else AmountDenial(c, amount.value);
      if denied.Some? then Err(denied.value)
      else if currency.Some? && currency.value != "USD" then Err(CurrencyNotPermitted)
      else if !c.guarded then Err(NoScopedGuard)
      else Ok(())
  }

  function AmountDenial(c: Capability, amount: Input): Option<Denial>
    requires amount.Number? ==> amount.decimal.Valid()
  {
    match ParseMoney(amount)
    case Err(_) => Some(BadAmount)
    case Ok(m) =>
      if m.Value() > Bound(c) then Some(AboveBound)
      else if m.Value() <= 0 then Some(NotPositive)
      else None
  }

  /** At most the declared bound, by default five hundred dollars. */
  predicate WithinBound(c: Capability, cents: int) {
    match c.bound
    case Some(bound) => cents <= bound
    case None => cents <= 50_000
  }

  /** The identity's amount is read from the text of the amount the engine normalised first. */
  function RenderedAmount(m: Money, read: string -> Input): Result<Money, MoneyError>
    requires forall s :: read(s).Number? ==> read(s).decimal.Valid()
  {
    ParseMoney(read(FormatMoney(m)))
  }

  /**
   What leaves for the target is what the policy approved: the amount survives text, identity, payload and guard
   unchanged, is positive and within the bound, and the currency is the permitted one.
   */
  lemma DispatchedAmountIsApproved(c: Capability, amount: Input, id: Identity, system: System,
                                   inputs: map<string, string>, read: string -> Input)
    requires Reader(read) && c.commits && (amount.Number? ==> amount.decimal.Valid())
    requires ValidatePolicy(c, Some(amount), Some(id.currency)).Ok?
    requires ValidIdentity(id) && RenderedAmount(ParseMoney(amount).value, read) == Ok(id.amount)
    requires BuildRequest(system, inputs, id).Some?
    ensures var payload := BuildRequest(system, inputs, id).value;
      && VerifyRequestIdentityGuard(payload, id, read).Ok?
      && ParseMoney(read(payload["amount"])) == ParseMoney(amount)
      && 0 < ParseMoney(amount).value.Value() && WithinBound(c, ParseMoney(amount).value.Value())
      && payload["currency"] == "USD"
  {
    ApprovedAmountSurvives(c, amount, Some(id.currency), read);
    BuiltKeepsIdentity(system, inputs, id);
    GuardAcceptsWhatIsBuilt(system, inputs, id, read);
    assert BuildRequest(system, inputs, id).value["amount"] == FormatMoney(id.amount);
  }

  /** A commit's approved amount is positive and bounded, and reading its text gives it back. */
  lemma ApprovedAmountSurvives(c: Capability, amount: Input, currency: Option<string>, read: string -> Input)
    requires Reader(read) && c.commits && (amount.Number? ==> amount.decimal.Valid())
    requires ValidatePolicy(c, Some(amount), currency).Ok?
    ensures ParseMoney(amount).Ok? && 0 < ParseMoney(amount).value.Value()
    ensures WithinBound(c, ParseMoney(amount).value.Value())
    ensures RenderedAmount(ParseMoney(amount).value, read) == ParseMoney(amount)
    ensures currency.Some? ==> currency.value == "USD"
  {
    ParseIsExact(amount);
    MoneyRoundTrip(ParseMoney(amount).value);
  }

  /** An absent amount is not looked at; a present one must be money, positive and bounded. */
  predicate AmountApproved(c: Capability, amount: Option<Input>)
    requires amount.Some? && amount.value.Number? ==> amount.value.decimal.Valid()
  {
    amount.Some? ==>
      && ParseMoney(amount.value).Ok?
      && 0 < ParseMoney(amount.value).value.Value() && WithinBound(c, ParseMoney(amount.value).value.Value())
  }

  /**
   The policy denies exactly the commits whose amount or currency is out of bounds or that lack a guard, and gives the
   first of these reasons, in this order.
   */
  lemma PolicyIsExact(c: Capability, amount: Option<Input>, currency: Option<string>)
    requires amount.Some? && amount.value.Number? ==> amount.value.decimal.Valid()
    ensures var r, inUsd := ValidatePolicy(c, amount, currency), currency == None || currency == Some("USD");
      && (r.Ok? <==> (c.commits ==> AmountApproved(c, amount) && inUsd && c.guarded))
      && (r == Err(BadAmount) <==> c.commits && amount.Some? && ParseMoney(amount.value).Err?)
      && (r == Err(AboveBound) <==> c.commits && amount.Some? && ParseMoney(amount.value).Ok?
                                    && !WithinBound(c, ParseMoney(amount.value).value.Value()))
      && (r == Err(CurrencyNotPermitted) <==> c.commits && AmountApproved(c, amount) && !inUsd)
      && (r == Err(NoScopedGuard) <==> c.commits && AmountApproved(c, amount) && inUsd && !c.guarded)
  {
  }
}
