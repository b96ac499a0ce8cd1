/** On resume: every APPLIED claim against the target's own record and the audit references the ledger holds for it. */
module TargetReconciliation {
  import opened Prelude
  import opened Outcomes
  import Inquiry
  import Protocol
  import ProtocolSafety

  /** An APPLIED or other claim row; `identity` lists its eight fields in the names the target uses. */
  datatype ClaimRow = ClaimRow(
    status: ClaimStatus, capability: string, identity: seq<(string, string)>, amount: Option<int>)

  /** What the inquiry came back with; amounts and counts are None where they are missing or not numbers. */
  datatype Reply =
    | NoReply
    | Refused(status: int)
    | Malformed
    | Found(fields: map<string, string>, effectCount: Option<int>, amount: Option<int>)

  /** One execution row of the case. */
  datatype Recorded = Recorded(capability: string, auditRef: Option<string>)

  datatype Failure = Unavailable | Diverges(mismatches: seq<string>)

  /** Expected status and reference field of each target; None when the capability has no target. */
  function Adapter(capability: string): Option<(string, string)> {
    if capability == "core.post_provisional_credit" then Some(("POSTED", "memo_code"))
    else if capability == "processor.file_chargeback" then Some(("FILED", "network_ref"))
    else if capability == "docs.send_notice" then Some(("SENT", "notice_id"))
    else None
  }

  /** The non-empty audit references of the capability's executions. */
  function AuditRefs(executions: seq<Recorded>, capability: string): set<string> {
    set i | 0 <= i < |executions| && executions[i].capability == capability
      && executions[i].auditRef.Some? && executions[i].auditRef.value != "" :: executions[i].auditRef.value
  }

  /** Every expected field whose observed value differs, in order. */
  method FieldMismatches(expected: seq<(string, string)>, fields: map<string, string>) returns (out: seq<string>)
    ensures out == [] <==> forall i :: 0 <= i < |expected| ==> Has(fields, expected[i])
    ensures forall f :: f in out <==> exists i :: 0 <= i < |expected| && expected[i].0 == f && !Has(fields, expected[i])
  {
    out := [];
    for k := 0 to |expected|
      invariant out == [] <==> forall i :: 0 <= i < k ==> Has(fields, expected[i])
      invariant forall f :: f in out <==> exists i :: 0 <= i < k && expected[i].0 == f && !Has(fields, expected[i])
    {
      if !Has(fields, expected[k]) {
        out := out + [expected[k].0];
      }
    }
  }

  predicate Has(fields: map<string, string>, entry: (string, string)) {
    entry.0 in fields && fields[entry.0] == entry.1
  }

  predicate Refers(row: Recorded, capability: string, ref: string) {
    row.capability == capability && row.auditRef == Some(ref) && ref != ""
  }

  /** The case's executions of the capability recorded this reference, and no other. */
  ghost predicate SoleReference(executions: seq<Recorded>, capability: string, ref: string) {
    && (exists i :: 0 <= i < |executions| && Refers(executions[i], capability, ref))
    && (forall i, other :: 0 <= i < |executions| && Refers(executions[i], capability, other) ==> other == ref)
  }

  lemma SoleReferenceIsOnly(executions: seq<Recorded>, capability: string, ref: string)
    ensures SoleReference(executions, capability, ref) <==> AuditRefs(executions, capability) == {ref}
  {
    var refs := AuditRefs(executions, capability);
    assert forall i, other :: 0 <= i < |executions| && Refers(executions[i], capability, other) ==> other in refs;
    forall other | other in refs
      ensures exists i :: 0 <= i < |executions| && Refers(executions[i], capability, other)
    {
      var i :| 0 <= i < |executions| && executions[i].capability == capability
        && executions[i].auditRef.Some? && executions[i].auditRef.value == other != "";
      assert Refers(executions[i], capability, other);
    }
    if SoleReference(executions, capability, ref) {
      assert ref in refs && forall other :: other in refs ==> other == ref;
      assert refs == {ref};
    }
    if refs == {ref} {
      assert ref in refs;
      forall i, other | 0 <= i < |executions| && Refers(executions[i], capability, other) ensures other == ref {
        assert other in refs;
      }
    }
  }

  /** The target holds exactly this effect, once, with this status, under the one reference the ledger recorded. */
  ghost predicate HeldAs(claim: ClaimRow, reply: Reply, executions: seq<Recorded>, status: string, field: string)
    requires reply.Found?
  {
    && (forall i :: 0 <= i < |claim.identity| ==> Has(reply.fields, claim.identity[i]))
    && Has(reply.fields, ("status", status))
    && reply.effectCount == Some(1)
    && reply.amount.Some? && reply.amount == claim.amount
    && field in reply.fields && SoleReference(executions, claim.capability, reply.fields[field])
  }

  /** A posted credit by its memo code, a filed chargeback by its network reference, a sent notice by its id. */
  ghost predicate FullyMatches(claim: ClaimRow, reply: Reply, executions: seq<Recorded>) {
    && reply.Found?
    && (claim.capability == "core.post_provisional_credit" ==> HeldAs(claim, reply, executions, "POSTED", "memo_code"))
    && (claim.capability == "processor.file_chargeback" ==> HeldAs(claim, reply, executions, "FILED", "network_ref"))
    && (claim.capability == "docs.send_notice" ==> HeldAs(claim, reply, executions, "SENT", "notice_id"))
    && HasTarget(claim.capability)
  }

  predicate HasTarget(capability: string) {
    || capability == "core.post_provisional_credit" || capability == "processor.file_chargeback"
    || capability == "docs.send_notice"
  }

  method ReconcileClaim(claim: ClaimRow, reply: Reply, executions: seq<Recorded>) returns (failure: Option<Failure>)
    ensures failure == None <==> FullyMatches(claim, reply, executions)
    ensures failure == Some(Unavailable) <==>
      !HasTarget(claim.capability) || reply.NoReply? || reply.Malformed? || (reply.Refused? && reply.status != 404)
  {
    var adapter := Adapter(claim.capability);
    if adapter.None? || reply.NoReply? { return Some(Unavailable); }
    if reply.Refused? {
      if reply.status == 404 { return Some(Diverges(["absent"])); }
      return Some(Unavailable);
    }
    if reply.Malformed? { return Some(Unavailable); }
    var (status, field) := adapter.value;
    var mismatches := FieldMismatches(claim.identity, reply.fields);
    if !Has(reply.fields, ("status", status)) { mismatches := mismatches + ["status"]; }
    if reply.effectCount != Some(1) { mismatches := mismatches + ["effect_count"]; }
    if reply.amount.None? || reply.amount != claim.amount { mismatches := mismatches + ["amount"]; }
    var refs := AuditRefs(executions, claim.capability);
    if |refs| != 1 || field !in reply.fields || reply.fields[field] !in refs {
      mismatches := mismatches + ["reference"];
    }
    SoleReferenceIsOnly(executions, claim.capability, if field in reply.fields then reply.fields[field] else "");
    SingletonIffOnly(refs, if field in reply.fields then reply.fields[field] else "");
    if mismatches != [] { return Some(Diverges(mismatches)); }
    failure := None;
  }

  lemma SingletonIffOnly<T>(s: set<T>, x: T)
    ensures |s| == 1 && x in s <==> s == {x}
  {
    if |s| == 1 && x in s {
      assert |s - {x}| == 0;
      assert s == s - {x} + {x};
    }
  }

  /** The first APPLIED claim that fails decides; none failing means every one of them fully matches its target. */
  method ReconcileAppliedEffects(claims: seq<ClaimRow>, replies: seq<Reply>, executions: seq<Recorded>)
      returns (failure: Option<Failure>)
    requires |replies| == |claims|
    ensures failure == None <==>
      forall i :: 0 <= i < |claims| && claims[i].status == APPLIED ==> FullyMatches(claims[i], replies[i], executions)
    ensures failure.Some? ==> exists i :: 0 <= i < |claims| && FailsFirst(claims, replies, executions, i)
  {
    for k := 0 to |claims|
      invariant forall i :: 0 <= i < k && claims[i].status == APPLIED ==>
        FullyMatches(claims[i], replies[i], executions)
    {
      if claims[k].status == APPLIED {
        failure := ReconcileClaim(claims[k], replies[k], executions);
        if failure.Some? {
          assert FailsFirst(claims, replies, executions, k);
          return;
        }
      }
    }
    failure := None;
  }

  ghost predicate FailsFirst(claims: seq<ClaimRow>, replies: seq<Reply>, executions: seq<Recorded>, i: nat)
    requires |replies| == |claims| && i < |claims|
  {
    && claims[i].status == APPLIED && !FullyMatches(claims[i], replies[i], executions)
    && forall j :: 0 <= j < i && claims[j].status == APPLIED ==> FullyMatches(claims[j], replies[j], executions)
  }

  // ---------------------------------------------------------------------------------------------------------------
  // No false divergence
  // ---------------------------------------------------------------------------------------------------------------

  /** The target answers for the one record it holds: the claim's own identity, under that record's reference. */
  predicate AnswersFor(claim: ClaimRow, reply: Reply, records: seq<string>) {
    && records != [] && records[0] != ""
    && reply.Found? && HasTarget(claim.capability)
    && (forall i :: 0 <= i < |claim.identity| ==> Has(reply.fields, claim.identity[i]))
    && Has(reply.fields, ("status", Adapter(claim.capability).value.0))
    && Has(reply.fields, (Adapter(claim.capability).value.1, records[0]))
    && reply.effectCount == Some(|records|)
    && reply.amount.Some? && reply.amount == claim.amount
  }

  function References(completed: seq<Protocol.Execution>): set<string> {
    set i | 0 <= i < |completed| && completed[i].auditRef.Some? && completed[i].auditRef.value != "" ::
      completed[i].auditRef.value
  }

  /** The case's execution rows of this capability are the ones the protocol completed. */
  predicate RecordsRun(executions: seq<Recorded>, capability: string, completed: seq<Protocol.Execution>) {
    AuditRefs(executions, capability) == References(completed)
  }

  /**
   After any run of the protocol that left the claim APPLIED, a target that still holds what it held answers in full,
   and reconciliation reports nothing.
   */
  lemma NoFalseDivergence(cfg: Protocol.Config, run: seq<Protocol.Action>, claim: ClaimRow, reply: Reply,
                          executions: seq<Recorded>)
    requires Protocol.Legal(cfg, Protocol.Init(cfg), run) && (cfg.dedup || cfg.prompt || cfg.seed.Some?)
    requires var s := Protocol.Run(cfg, Protocol.Init(cfg), run);
      && Protocol.IsApplied(s) && AnswersFor(claim, reply, s.records)
      && RecordsRun(executions, claim.capability, s.executions)
    ensures FullyMatches(claim, reply, executions)
  {
    ProtocolSafety.AuditReferencesAgree(cfg, run);
    var completed := Protocol.Run(cfg, Protocol.Init(cfg), run).executions;
    var records := Protocol.Run(cfg, Protocol.Init(cfg), run).records;
    SoleReferenceIsOnly(executions, claim.capability, records[0]);
    assert References(completed) ==
      (set i | 0 <= i < |completed| && completed[i].auditRef.Some? :: completed[i].auditRef.value) - {""};
  }
}
