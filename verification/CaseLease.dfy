/**
 The lease as its callers use it: the row and the events it leaves in the case's ledger, in one transaction, and the
 hand-over between automation and operators.
 */
module CaseLease {
  import opened Prelude
  import opened Lease
  import opened Ledger
  import opened Repository

  const ACQUIRED := "CONTROL_LEASE_ACQUIRED"
  const RELEASED := "CONTROL_LEASE_RELEASED"

  predicate Given(text: Option<string>) {
    text.Some? && text.value != ""
  }

  /** The owner type is taken from the owner's name unless given; a resource other than the case has to be named. */
  function Resolve(caseId: string, owner: Actor, ownerType: Option<string>, ttl: int, resource: Option<string>)
    : (r: Result<Request, LeaseError>)
    ensures r.Ok? ==> r.value.owner == owner && r.value.ttl == ttl > 0
    ensures r.Ok? && !Given(ownerType) ==> (r.value.ownerType == AUTOMATION <==> "AUTOMATION" <= owner)
    ensures r.Ok? && Given(ownerType) ==> (r.value.ownerType == AUTOMATION <==> ownerType == Some("AUTOMATION"))
    ensures r.Ok? ==> (if Given(resource) then Some(r.value.resource) == resource else r.value.resource == caseId)
    ensures r == Err(BadOwnerType) <==>
      Given(ownerType) && ownerType != Some("AUTOMATION") && ownerType != Some("HUMAN")
    ensures r.Err? ==> r.error == BadOwnerType || (r.error == BadTtl && ttl <= 0)
  {
    var name := if ownerType.Some? && ownerType.value != "" then ownerType.value
                else if "AUTOMATION" <= owner then "AUTOMATION" else "HUMAN";
    if name != "AUTOMATION" && name != "HUMAN" then Err(BadOwnerType)
    else if ttl <= 0 then Err(BadTtl)
    else
      var place := if resource.Some? && resource.value != "" then resource.value else caseId;
      Ok(Request(owner, if name == "AUTOMATION" then AUTOMATION else HUMAN, place, ttl))
  }

  /** A token was issued, not merely extended. */
  predicate Issues(row: Option<Lease>, result: Result<Lease, LeaseError>) {
    result.Ok? && (row.None? || result.value.token != row.value.token)
  }

  function Noted(l: Ledger, happened: bool, name: string): Ledger {
    if happened then Exec(l, RecordNote(name)) else l
  }

  lemma NotedFacts(l: Ledger, happened: bool, name: string)
    ensures Noted(l, happened, name).facts == l.facts + if happened && l.dispute.Some? then [Note(name)] else []
  {
  }

  class LeaseStore {
    const ledger: LedgerRepository
    var row: Option<Lease>

    ghost predicate Valid()
      reads this, ledger
    {
      ledger.Valid() && (row.Some? ==> ledger.dispute.Some?)
    }

    constructor (ledger: LedgerRepository)
      requires ledger.Valid()
      ensures Valid() && this.ledger == ledger && row == None
    {
      this.ledger, row := ledger, None;
    }

    /** The row's foreign key needs the case. */
    method AcquireLease(owner: Actor, ownerType: Option<string>, now: Instant, ttl: int, resource: Option<string>)
        returns (result: Result<Lease, LeaseError>)
      requires Valid()
      modifies this`row, ledger`stream, ledger`head
      ensures Valid()
      ensures var request := Resolve(ledger.caseId, owner, ownerType, ttl, resource);
        && (request.Err? ==> result == Err(request.error))
        && (request.Ok? && ledger.dispute.None? ==> result == Err(NoCase))
        && (request.Ok? && ledger.dispute.Some? ==> result == Acquire(old(row), request.value, now))
      ensures row == if result.Ok? then Some(result.value) else old(row)
      ensures result.Ok? ==> Validates(row, owner, result.value.token, now)
      ensures forall o, t :: o != owner && Validates(old(row), o, t, now) ==> result.Err?
      ensures ledger.View() == Noted(old(ledger.View()), Issues(old(row), result), ACQUIRED)
    {
      var request := Resolve(ledger.caseId, owner, ownerType, ttl, resource);
      if request.Err? { return Err(request.error); }
      if ledger.dispute.None? { return Err(NoCase); }
      var r := request.value;
      if row.None? {
        row := Some(Granted(r, 1, 1, now));
        var noted := ledger.RecordAudit(ACQUIRED);
        return Ok(row.value);
      }
      var lease := row.value;
      if Active(lease, now) {
        if lease.owner != r.owner || lease.ownerType != r.ownerType { return Err(HeldByAnother); }
        result := HeartbeatLease(r.owner, lease.token, now, r.ttl);
      } else {
        row := Takeover(row, lease, r, now);
        var noted := ledger.RecordAudit(ACQUIRED);
        result := Ok(row.value);
      }
    }

    method HeartbeatLease(owner: Actor, token: nat, now: Instant, ttl: int) returns (result: Result<Lease, LeaseError>)
      requires Valid()
      modifies this`row
      ensures Valid()
      ensures result.Ok? <==> Validates(old(row), owner, token, now)
      ensures result.Ok? ==> row == Heartbeat(old(row), owner, token, now, ttl) && row == Some(result.value)
      ensures result.Err? ==> row == old(row) && result.error == StaleOrExpired
    {
      var beaten := Heartbeat(row, owner, token, now, ttl);
      if beaten.None? { return Err(StaleOrExpired); }
      row := beaten;
      result := Ok(beaten.value);
    }

    /** An unconditional release of an already released lease is accepted and changes nothing. */
    method ReleaseLease(owner: Option<Actor>, token: Option<nat>, now: Instant)
        returns (result: Result<Option<Lease>, LeaseError>)
      requires Valid()
      modifies this`row, ledger`stream, ledger`head
      ensures Valid()
      ensures var released := Release(old(row), owner, token, now);
        && row == (if released.Some? then released else old(row))
        && ledger.View() == Noted(old(ledger.View()), released.Some?, RELEASED)
      ensures result == if old(row).Some? && Release(old(row), owner, token, now).None? && (owner.Some? || token.Some?)
                        then Err(ChangedBeforeRelease) else Ok(row)
    {
      if row.None? { return Ok(None); }
      var released := Release(row, owner, token, now);
      if released.None? && (owner.Some? || token.Some?) { return Err(ChangedBeforeRelease); }
      if released.Some? {
        row := released;
        var noted := ledger.RecordAudit(RELEASED);
      }
      result := Ok(row);
    }

    /** Handoff releases whatever lease there is and parks the case: from then on no token validates. */
    method InitiateHandoff(now: Instant) returns (ok: bool)
      requires Valid()
      modifies this`row, ledger`dispute, ledger`stream, ledger`head
      ensures Valid() && ok == ledger.dispute.Some?
      ensures forall o, t, later :: !Validates(row, o, t, later)
      ensures row.Some? <==> old(row).Some?
      ensures ok ==> ledger.dispute.value.status == "NEEDS_HUMAN"
      ensures var released := Noted(old(ledger.View()), Release(old(row), None, None, now).Some?, RELEASED);
        var parked := Exec(released, UpdateStatus("NEEDS_HUMAN", None));
        ledger.View() == Exec(parked, RecordNote("HUMAN_HANDOFF_INITIATED"))
    {
      var released := ReleaseLease(None, None, now);
      ok := ledger.UpdateCaseStatus("NEEDS_HUMAN", None);
      var noted := ledger.RecordAudit("HUMAN_HANDOFF_INITIATED");
    }

    /** The operator's lease, or the conflict that names the current holder. */
    method ClaimOperatorLease(operator: Actor, ttl: int, now: Instant) returns (result: Result<Lease, LeaseError>)
      requires Valid() && ttl > 0 && ledger.dispute.Some?
      modifies this`row, ledger`stream, ledger`head
      ensures Valid()
      ensures result.Ok? ==> Validates(row, operator, result.value.token, now) && result.value.ownerType == HUMAN
      ensures result.Err? <==> old(row).Some? && Active(old(row).value, now) && !OperatedBy(old(row).value, operator)
      ensures result.Err? ==> row == old(row)
      ensures var acquired := Noted(old(ledger.View()), Issues(old(row), result), ACQUIRED);
        ledger.View() == Noted(acquired, result.Ok?, "OPERATOR_LEASE_ACQUIRED")
    {
      result := AcquireLease(operator, Some("HUMAN"), now, ttl, None);
      if result.Ok? { var noted := ledger.RecordAudit("OPERATOR_LEASE_ACQUIRED"); }
    }

    /**
     The fenced part of a sign-off: the operator's token must validate, and it is extended before anything is clicked.
     */
    method BeginSignOff(operator: Actor, token: nat, ttl: int, now: Instant) returns (ok: bool)
      requires Valid()
      modifies this`row
      ensures Valid()
      ensures ok <==> Validates(old(row), operator, token, now)
      ensures ok ==> row == Heartbeat(old(row), operator, token, now, ttl)
      ensures !ok ==> row == old(row)
    {
      if !Validates(row, operator, token, now) { return false; }
      var beaten := HeartbeatLease(operator, token, now, ttl);
      ok := true;
    }

    /** After the click: recorded together with giving the lease back, and only while the operator still has it. */
    method FinishSignOff(operator: Actor, token: nat, now: Instant) returns (ok: bool)
      requires Valid() && row.Some?
      modifies this`row, ledger`stream, ledger`head
      ensures Valid()
      ensures ok <==>
        old(row).value.releasedAt.None? && old(row).value.owner == operator && old(row).value.token == token
      ensures ok ==> row == Release(old(row), Some(operator), Some(token), now)
      ensures !ok ==> row == old(row)
      ensures ledger.View() == Noted(Noted(old(ledger.View()), ok, "OPERATOR_COMPLIANCE_CLEARED"), ok, RELEASED)
    {
      if Release(row, Some(operator), Some(token), now).None? { return false; }
      var noted := ledger.RecordAudit("OPERATOR_COMPLIANCE_CLEARED");
      var released := ReleaseLease(Some(operator), Some(token), now);
      ok := true;
    }
  }

  predicate OperatedBy(lease: Lease, operator: Actor) {
    lease.owner == operator && lease.ownerType == HUMAN
  }
}
