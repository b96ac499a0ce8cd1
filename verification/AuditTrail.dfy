/**
 What the ledger's rows say about an effect: the rows a settlement writes, told by what decided the attempt, and the
 execution rows of one effect over whole protocol runs, from which reconciliation takes its audit references.
 */
module AuditTrail {
  import opened Prelude
  import opened Outcomes
  import opened Claims
  import opened Ledger
  import opened Inquiry
  import opened Replay
  import opened Settlement
  import CrashRecovery
  import Engine
  import P = Protocol
  import ProtocolSafety
  import T = TargetReconciliation

  // ---------------------------------------------------------------------------------------------------------------
  // The rows of one settlement
  // ---------------------------------------------------------------------------------------------------------------

  /** The target's reference, if the attempt ended with the effect known to be there. */
  function ReferenceOf(c: Cause): Option<string> {
    match c
    case Confirmed(r) => Some(r)
    case Answered(Present(r)) => Some(r)
    case _ => None
  }

  /** An inquiry that decided nothing. */
  predicate Undecided(c: Cause) {
    c.Answered? && !c.v.Present? && c.v != Absent
  }

  predicate FaultStatus(status: string, f: Fault) {
    match f
    case PolicyFault => status == "POLICY_VIOLATION"
    case EntityFault => status == "ENTITY_BINDING_MISMATCH"
    case AmountFault => status == "AMOUNT_MISMATCH"
    case DriftFault => status == "PAGE_DRIFT"
    case ComplianceFault => status == "COMPLIANCE_INTERSTITIAL"
    case SessionFault => status == "SESSION_EXPIRED"
    case LeaseFault => status == "LEASE_FENCED"
    case OtherFault => status == "NETWORK_TIMEOUT"
  }

  predicate ExecutionStatus(status: string, c: Cause) {
    match c
    case Confirmed(_) => status == "COMPLETED"
    case Answered(Present(_)) => status == "CONFIRMED_APPLIED"
    case Answered(Absent) => status == "CONFIRMED_NOT_APPLIED"
    case Answered(_) => status == "UNCERTAIN_EFFECT"
    case Denied => status == "POLICY_DENIED"
    case BlankPage => status == "MEMBER_NOT_FOUND"
    case Unauthorized => status == "SESSION_EXPIRED"
    case Faulted(f, _) => FaultStatus(status, f)
  }

  predicate FailureTells(category: Option<string>, c: Cause) {
    if Landed(c) then category == None
    else if Undecided(c) then category == Some("UNCERTAIN_EFFECT")
    else if c.Faulted? && Mismatch(c.f) then category == Some("HARD_FAILURE")
    else if c.Faulted? && Waits(c.f) then category == Some("NEEDS_HUMAN")
    else if c.Faulted? || c.Unauthorized? then category == Some("RECOVERABLE_FAILURE")
    else category == Some("BUSINESS_OUTCOME")
  }

  lemma FaultStatusTells(code: Code, f: Fault)
    requires CodeTells(code, f)
    ensures FaultStatus(Engine.CodeName(code), f)
  {
    match f
    case PolicyFault => assert code == PolicyViolation;
    case EntityFault => assert code == EntityBindingMismatch;
    case AmountFault => assert code == AmountMismatch;
    case DriftFault => assert code == PageDrift;
    case ComplianceFault => assert code == ComplianceInterstitial;
    case SessionFault => assert code == SessionExpired;
    case LeaseFault => assert code == LeaseFenced;
    case OtherFault => assert code == NetworkTimeout;
  }

  lemma StatusTells(o: Outcome, c: Cause, movesMoney: bool)
    requires Tells(o, c, movesMoney)
    ensures ExecutionStatus(Engine.CodeName(o.code), c)
  {
    if c.Faulted? {
      hide Engine.CodeName, FaultStatus;
      FaultStatusTells(o.code, c.f);
    }
  }

  /** The completed execution row carries what the target said: its reference, and the amount exactly if money moved. */
  lemma ExecutionRowTells(call: Engine.Call, a: Attempt, c: Cause, now: Instant)
    requires Causes(a, c)
    ensures var done := Engine.CompletionOf(call, CommitOutcome(a, call.movesMoney), now);
      && ExecutionStatus(done.status, c) && done.auditRef == ReferenceOf(c) && done.completedAt == now
      && (done.moneyMoved <==> Landed(c) && call.movesMoney)
      && done.observedEntity == Some(call.identity.member)
      && done.observedAmount == (if Landed(c) && call.movesMoney then Some(call.identity.amount) else None)
      && FailureTells(done.failureCategory, c)
  {
    hide Engine.CodeName, ExecutionStatus, CommitOutcome, Causes;
    OutcomeByCause(a, c, call.movesMoney);
    StatusTells(CommitOutcome(a, call.movesMoney), c, call.movesMoney);
  }

  /** The case row: money is marked exactly when it moved, and the status asks for what the cause calls for. */
  lemma CaseRowTells(row: CaseRow, a: Attempt, c: Cause, movesMoney: bool)
    requires Causes(a, c)
    ensures var after := Engine.SettledCase(row, CommitOutcome(a, movesMoney));
      && after == row.(status := after.status, moneyMoved := row.moneyMoved || (Landed(c) && movesMoney))
      && (Landed(c) ==> after.status == if movesMoney then "PROVISIONAL_CREDIT_POSTED" else row.status)
      && (Undecided(c) ==> after.status == "UNCERTAIN_EFFECT")
      && (c.Faulted? && Mismatch(c.f) ==> after.status == "FAILED")
      && (c.Faulted? && Waits(c.f) ==> after.status == "NEEDS_HUMAN")
      && (!Landed(c) && !Undecided(c) && (c.Faulted? ==> !Mismatch(c.f) && !Waits(c.f)) ==> after.status == row.status)
  {
    hide CommitOutcome, Engine.CodeName, Causes;
    OutcomeByCause(a, c, movesMoney);
  }

  lemma EscalationsTell(category: Category, moved: bool)
    ensures var facts := Engine.CategoryFacts(category, moved);
      && (Note("UNCERTAIN_EFFECT_ESCALATION") in facts <==> category == UncertainEffect)
      && (Note("HARD_FAILURE") in facts <==> category == HardFailure)
      && (Note("HUMAN_HANDOFF_REQUIRED") in facts <==> category == NeedsHuman)
      && MoneyMoved !in facts && Note("EFFECT_RECONCILED") !in facts
  {
  }

  lemma OtherEventsTell(moves: bool, code: Code)
    ensures var facts := Engine.MoneyFacts(moves) + Engine.ReconciledFacts(code);
      && (MoneyMoved in facts <==> moves)
      && (Note("EFFECT_RECONCILED") in facts <==> code == ConfirmedApplied)
      && Note("UNCERTAIN_EFFECT_ESCALATION") !in facts && Note("HARD_FAILURE") !in facts
      && Note("HUMAN_HANDOFF_REQUIRED") !in facts
  {
  }

  /** The events that go with it: money, reconciled effects and escalations are told exactly when they happened. */
  lemma MarkedEventsTell(a: Attempt, c: Cause, movesMoney: bool, moved: bool)
    requires Causes(a, c)
    ensures var facts := Engine.MarkedFacts(CommitOutcome(a, movesMoney), moved);
      && (MoneyMoved in facts <==> Landed(c) && movesMoney)
      && (Note("EFFECT_RECONCILED") in facts <==> c.Answered? && c.v.Present?)
      && (Note("UNCERTAIN_EFFECT_ESCALATION") in facts <==> Undecided(c))
      && (Note("HARD_FAILURE") in facts <==> c.Faulted? && Mismatch(c.f))
      && (Note("HUMAN_HANDOFF_REQUIRED") in facts <==> c.Faulted? && Waits(c.f))
  {
    hide CommitOutcome, Causes, Engine.MoneyFacts, Engine.ReconciledFacts, Engine.CategoryFacts;
    var o := CommitOutcome(a, movesMoney);
    OutcomeByCause(a, c, movesMoney);
    EscalationsTell(o.category, moved || o.moneyMoved);
    OtherEventsTell(o.moneyMoved, o.code);
  }

  /** What the rows say that a call writes before its attempt. */
  lemma OpeningRowsTell(call: Engine.Call, ref: string, now: Instant)
    ensures var started, found := Engine.StartedExecution(call, now), Engine.FoundAlready(call, ref, now);
      && started.completion == None && started.opening.key == found.opening.key == Some(call.key)
      && started.opening.capability == found.opening.capability == call.identity.capability
      && started.opening.version == found.opening.version == call.version
      && started.opening.effectClass == found.opening.effectClass == "COMMIT"
      && started.opening.expectedEntity == Some(call.identity.member)
      && started.opening.expectedAmount == Some(call.identity.amount)
      && started.opening.actor == found.opening.actor == "AUTOMATION"
      && started.opening.startedAt == found.opening.startedAt == now
      && found.completion.Some? && found.completion.value.status == "ALREADY_APPLIED"
      && found.completion.value.auditRef == Some(ref) && !found.completion.value.moneyMoved
  {
  }

  // ---------------------------------------------------------------------------------------------------------------
  // The execution rows of one effect over protocol runs
  // ---------------------------------------------------------------------------------------------------------------

  /** One effect: its claim key and identity, and the capability's version. */
  datatype Effect = Effect(key: string, identity: Identity, version: string)

  /** `own` is the row each worker started for its attempt; the rows of other capabilities lie between. */
  datatype Trail = Trail(s: P.State, rows: seq<Execution>, own: map<Owner, nat>)

  /** A protocol action with the clock its rows get, or somebody else's row of another capability, new or changed. */
  datatype Act = Step(a: P.Action, now: Instant) | Foreign(i: nat, e: Execution)

  function CallOf(cfg: P.Config, e: Effect, w: Owner): Engine.Call {
    Engine.Call(e.key, e.identity, w, e.version, cfg.movesMoney)
  }

  ghost predicate MayAct(cfg: P.Config, e: Effect, t: Trail, act: Act) {
    match act
    case Step(a, _) => P.Enabled(cfg, t.s, a)
    case Foreign(i, row) =>
      && i <= |t.rows| && row.opening.capability != e.identity.capability
      && (i < |t.rows| ==> t.rows[i].opening.capability != e.identity.capability)
  }

  /** The rows the engine and crash recovery write with each commit. */
  ghost function Acted(cfg: P.Config, e: Effect, t: Trail, act: Act): Trail
    requires MayAct(cfg, e, t, act)
  {
    match act
    case Foreign(i, row) => t.(rows := if i == |t.rows| then t.rows + [row] else t.rows[i := row])
    case Step(a, now) =>
      var next := t.(s := P.Next(cfg, t.s, a));
      match a {
        case CommitPrecheck(w) =>
          var v := P.At(t.s, w).stage.verdict;
          if v.Present? then next.(rows := t.rows + [Engine.FoundAlready(CallOf(cfg, e, w), v.ref, now)]) else next
        case EnterApplying(w) =>
          if Transition(t.s.claim, w, P.At(t.s, w).token, {CLAIMED}, APPLYING).None? then next
          else next.(rows := t.rows + [Engine.StartedExecution(CallOf(cfg, e, w), now)], own := t.own[w := |t.rows|])
        case Settle(w) =>
          if MissesSettlement(t, w) || w !in t.own || t.own[w] >= |t.rows| then next
          else next.(rows := SettledRows(cfg, e, t, w, now))
        case CommitRecovery(w) =>
          if !Confirms(t, w) then next
          else next.(rows := RecoveredRows(e, t.rows, P.At(t.s, w).verdict.ref, now))
        case _ => next
      }
  }

  predicate MissesSettlement(t: Trail, w: Owner)
    requires P.At(t.s, w).Working? && P.At(t.s, w).stage.Concluded?
  {
    Transition(t.s.claim, w, P.At(t.s, w).token, {APPLYING}, SettleClaimStatus(P.At(t.s, w).stage.outcome)).None?
  }

  function SettledRows(cfg: P.Config, e: Effect, t: Trail, w: Owner, now: Instant): seq<Execution>
    requires P.At(t.s, w).Working? && P.At(t.s, w).stage.Concluded? && w in t.own && t.own[w] < |t.rows|
  {
    var i, o := t.own[w], P.At(t.s, w).stage.outcome;
    t.rows[i := t.rows[i].(completion := Some(Engine.CompletionOf(CallOf(cfg, e, w), o, now)))]
  }

  predicate Confirms(t: Trail, w: Owner)
    requires P.At(t.s, w).Recovering?
  {
    var pc := P.At(t.s, w);
    pc.verdict.Present? && Transition(t.s.claim, pc.owner, pc.seen, {CLAIMED, APPLYING}, APPLIED).Some?
  }

  function RecoveredRows(e: Effect, rows: seq<Execution>, ref: string, now: Instant): seq<Execution> {
    if CrashRecovery.HasCompleted(rows, e.identity.capability) then rows
    else rows + [CrashRecovery.RecoveredExecution(e.key, e.identity, ref, now)]
  }

  ghost predicate MayActAll(cfg: P.Config, e: Effect, t: Trail, acts: seq<Act>)
    decreases |acts|
  {
    acts == [] || (MayAct(cfg, e, t, acts[0]) && MayActAll(cfg, e, Acted(cfg, e, t, acts[0]), acts[1..]))
  }

  ghost function ActedAll(cfg: P.Config, e: Effect, t: Trail, acts: seq<Act>): Trail
    requires MayActAll(cfg, e, t, acts)
    decreases |acts|
  {
    if acts == [] then t else ActedAll(cfg, e, Acted(cfg, e, t, acts[0]), acts[1..])
  }

  function Start(cfg: P.Config): Trail {
    Trail(P.Init(cfg), [], map[])
  }

  /** The rows as reconciliation reads them. */
  function Rows(rows: seq<Execution>): seq<T.Recorded> {
    seq(|rows|, i requires 0 <= i < |rows| => T.Recorded(
      rows[i].opening.capability, if rows[i].completion.Some? then rows[i].completion.value.auditRef else None))
  }

  // ---------------------------------------------------------------------------------------------------------------
  // The invariant
  // ---------------------------------------------------------------------------------------------------------------

  predicate Replaying(t: Trail, w: Owner) {
    P.At(t.s, w).Working? && (P.At(t.s, w).stage.Applying? || P.At(t.s, w).stage.Concluded?)
  }

  /** The worker's row is there, of this effect and still running. */
  predicate OwnsRow(e: Effect, t: Trail, w: Owner) {
    && w in t.own && t.own[w] < |t.rows|
    && t.rows[t.own[w]].completion == None && t.rows[t.own[w]].opening.capability == e.identity.capability
  }

  /** The reference a finished execution carries, and whether it counts as one that completed the effect. */
  type Finish = (Option<string>, bool)

  function RowFinish(row: Execution): Finish
    requires row.completion.Some?
  {
    (row.completion.value.auditRef, row.completion.value.status in CrashRecovery.DONE)
  }

  function StepFinish(done: P.Execution): Finish {
    (done.auditRef, done.code in {Completed, AlreadyApplied})
  }

  predicate IsFinish(row: Execution, capability: string) {
    row.opening.capability == capability && row.completion.Some?
  }

  function RowFinishes(rows: seq<Execution>, capability: string): set<Finish> {
    set i | 0 <= i < |rows| && IsFinish(rows[i], capability) :: RowFinish(rows[i])
  }

  function StepFinishes(completed: seq<P.Execution>): set<Finish> {
    set i | 0 <= i < |completed| :: StepFinish(completed[i])
  }

  ghost predicate TrailInv(e: Effect, t: Trail) {
    && RowFinishes(t.rows, e.identity.capability) == StepFinishes(t.s.executions)
    && (forall w :: Replaying(t, w) ==> OwnsRow(e, t, w))
    && (forall w :: w in t.own ==> t.own[w] < |t.rows|)
    && (forall v, w :: v in t.own && w in t.own && v != w ==> t.own[v] != t.own[w])
  }

  lemma StepOneMore(completed: seq<P.Execution>, done: P.Execution)
    ensures StepFinishes(completed + [done]) == StepFinishes(completed) + {StepFinish(done)}
  {
    var all := completed + [done];
    forall f | f in StepFinishes(completed) + {StepFinish(done)} ensures f in StepFinishes(all) {
      if f in StepFinishes(completed) {
        var i :| 0 <= i < |completed| && StepFinish(completed[i]) == f;
        assert all[i] == completed[i];
      } else {
        assert all[|completed|] == done;
      }
    }
  }

  lemma RowOneMore(rows: seq<Execution>, row: Execution, capability: string)
    ensures RowFinishes(rows + [row], capability) ==
      RowFinishes(rows, capability) + if IsFinish(row, capability) then {RowFinish(row)} else {}
  {
    var more := rows + [row];
    var added := if IsFinish(row, capability) then {RowFinish(row)} else {};
    forall f | f in RowFinishes(rows, capability) + added ensures f in RowFinishes(more, capability) {
      if f in RowFinishes(rows, capability) {
        var i :| 0 <= i < |rows| && IsFinish(rows[i], capability) && RowFinish(rows[i]) == f;
        assert more[i] == rows[i];
      } else {
        assert more[|rows|] == row;
      }
    }
  }

  /** Changing a row that finished nothing of the capability. */
  lemma RowChanged(rows: seq<Execution>, i: nat, row: Execution, capability: string)
    requires i < |rows| && !IsFinish(rows[i], capability)
    ensures RowFinishes(rows[i := row], capability) ==
      RowFinishes(rows, capability) + if IsFinish(row, capability) then {RowFinish(row)} else {}
  {
    var changed := rows[i := row];
    var added := if IsFinish(row, capability) then {RowFinish(row)} else {};
    forall f | f in RowFinishes(rows, capability) + added ensures f in RowFinishes(changed, capability) {
      if f in RowFinishes(rows, capability) {
        var k :| 0 <= k < |rows| && IsFinish(rows[k], capability) && RowFinish(rows[k]) == f;
        assert changed[k] == rows[k];
      } else {
        assert changed[i] == row;
      }
    }
    forall f | f in RowFinishes(changed, capability) ensures f in RowFinishes(rows, capability) + added {
      var k :| 0 <= k < |changed| && IsFinish(changed[k], capability) && RowFinish(changed[k]) == f;
      if k != i { assert rows[k] == changed[k]; }
    }
  }

  /** Only the two codes recovery recognises have one of the status texts it looks for. */
  /** No other code has a name that could be taken for a finished one. */
  lemma NamesDiffer(code: Code)
    ensures var name := Engine.CodeName(code);
      && |name| != 7
      && (if code == Completed then name == "COMPLETED" else |name| != 9)
      && (if code == AlreadyApplied then name == "ALREADY_APPLIED" else |name| != 15 || name[8] != 'A')
  {
  }

  lemma DoneByCode(code: Code)
    ensures Engine.CodeName(code) in CrashRecovery.DONE <==> code in {Completed, AlreadyApplied}
  {
    hide Engine.CodeName;
    NamesDiffer(code);
    assert |"SUCCESS"| == 7 && |"COMPLETED"| == 9 && |"ALREADY_APPLIED"| == 15 && "ALREADY_APPLIED"[8] == 'A';
  }

  lemma HasCompletedIffRecorded(rows: seq<Execution>, completed: seq<P.Execution>, capability: string)
    requires RowFinishes(rows, capability) == StepFinishes(completed)
    ensures CrashRecovery.HasCompleted(rows, capability) <==> P.Recorded(completed)
  {
    if CrashRecovery.HasCompleted(rows, capability) {
      var i :| 0 <= i < |rows| && CrashRecovery.CompletedFor(rows[i], capability);
      assert IsFinish(rows[i], capability) && RowFinish(rows[i]) in StepFinishes(completed);
    }
    if P.Recorded(completed) {
      var j :| 0 <= j < |completed| && completed[j].code in {Completed, AlreadyApplied};
      assert StepFinish(completed[j]) in RowFinishes(rows, capability);
    }
  }

  /** Rows only grow here, and whoever replays after the step did before. */
  lemma TrailFrame(e: Effect, t: Trail, t': Trail)
    requires TrailInv(e, t) && t'.own == t.own && t.rows <= t'.rows
    requires RowFinishes(t'.rows, e.identity.capability) == StepFinishes(t'.s.executions)
    requires forall w :: Replaying(t', w) ==> Replaying(t, w)
    ensures TrailInv(e, t')
  {
    forall w | Replaying(t', w) ensures OwnsRow(e, t', w) {
      assert Replaying(t, w);
      assert OwnsRow(e, t, w);
    }
  }

  lemma FoundStep(cfg: P.Config, e: Effect, t: Trail, w: Owner, now: Instant)
    requires TrailInv(e, t) && MayAct(cfg, e, t, Step(P.CommitPrecheck(w), now))
    ensures TrailInv(e, Acted(cfg, e, t, Step(P.CommitPrecheck(w), now)))
  {
    var t' := Acted(cfg, e, t, Step(P.CommitPrecheck(w), now));
    var v := P.At(t.s, w).stage.verdict;
    if v.Present? {
      RowOneMore(t.rows, Engine.FoundAlready(CallOf(cfg, e, w), v.ref, now), e.identity.capability);
      StepOneMore(t.s.executions, P.Execution(AlreadyApplied, Some(v.ref), false));
    }
    TrailFrame(e, t, t');
  }

  lemma EnterStep(cfg: P.Config, e: Effect, t: Trail, w: Owner, now: Instant)
    requires TrailInv(e, t) && MayAct(cfg, e, t, Step(P.EnterApplying(w), now))
    ensures TrailInv(e, Acted(cfg, e, t, Step(P.EnterApplying(w), now)))
  {
    var t' := Acted(cfg, e, t, Step(P.EnterApplying(w), now));
    if Transition(t.s.claim, w, P.At(t.s, w).token, {CLAIMED}, APPLYING).None? {
      TrailFrame(e, t, t');
    } else {
      RowOneMore(t.rows, Engine.StartedExecution(CallOf(cfg, e, w), now), e.identity.capability);
      forall v | Replaying(t', v) ensures OwnsRow(e, t', v) {
        if v != w {
          assert Replaying(t, v);
          assert OwnsRow(e, t, v);
        }
      }
    }
  }

  lemma SettleRowStep(cfg: P.Config, e: Effect, t: Trail, w: Owner, now: Instant)
    requires TrailInv(e, t) && MayAct(cfg, e, t, Step(P.Settle(w), now))
    ensures TrailInv(e, Acted(cfg, e, t, Step(P.Settle(w), now)))
  {
    var t' := Acted(cfg, e, t, Step(P.Settle(w), now));
    assert Replaying(t, w) && OwnsRow(e, t, w);
    if MissesSettlement(t, w) {
      TrailFrame(e, t, t');
    } else {
      var i, o := t.own[w], P.At(t.s, w).stage.outcome;
      DoneByCode(o.code);
      RowChanged(t.rows, i, t'.rows[i], e.identity.capability);
      StepOneMore(t.s.executions, P.Execution(o.code, o.auditRef, o.moneyMoved));
      forall v | Replaying(t', v) ensures OwnsRow(e, t', v) {
        assert v != w && Replaying(t, v);
        assert OwnsRow(e, t, v);
      }
    }
  }

  lemma RecoverStep(cfg: P.Config, e: Effect, t: Trail, w: Owner, now: Instant)
    requires TrailInv(e, t) && MayAct(cfg, e, t, Step(P.CommitRecovery(w), now))
    ensures TrailInv(e, Acted(cfg, e, t, Step(P.CommitRecovery(w), now)))
  {
    var t' := Acted(cfg, e, t, Step(P.CommitRecovery(w), now));
    var ref := if P.At(t.s, w).verdict.Present? then P.At(t.s, w).verdict.ref else "";
    if Confirms(t, w) {
      HasCompletedIffRecorded(t.rows, t.s.executions, e.identity.capability);
      RowOneMore(t.rows, CrashRecovery.RecoveredExecution(e.key, e.identity, ref, now), e.identity.capability);
      StepOneMore(t.s.executions, P.Execution(Completed, Some(ref), cfg.movesMoney));
    }
    TrailFrame(e, t, t');
  }

  lemma OtherStep(cfg: P.Config, e: Effect, t: Trail, a: P.Action, now: Instant)
    requires TrailInv(e, t) && MayAct(cfg, e, t, Step(a, now))
    requires !a.CommitPrecheck? && !a.EnterApplying? && !a.Settle? && !a.CommitRecovery?
    ensures TrailInv(e, Acted(cfg, e, t, Step(a, now)))
  {
    TrailFrame(e, t, Acted(cfg, e, t, Step(a, now)));
  }

  lemma ForeignStep(cfg: P.Config, e: Effect, t: Trail, i: nat, row: Execution)
    requires TrailInv(e, t) && MayAct(cfg, e, t, Foreign(i, row))
    ensures TrailInv(e, Acted(cfg, e, t, Foreign(i, row)))
  {
    var t' := Acted(cfg, e, t, Foreign(i, row));
    if i == |t.rows| {
      RowOneMore(t.rows, row, e.identity.capability);
      TrailFrame(e, t, t');
    } else {
      RowChanged(t.rows, i, row, e.identity.capability);
      forall v | Replaying(t', v) ensures OwnsRow(e, t', v) {
        assert Replaying(t, v);
        assert OwnsRow(e, t, v);
      }
    }
  }

  lemma TrailStep(cfg: P.Config, e: Effect, t: Trail, act: Act)
    requires TrailInv(e, t) && MayAct(cfg, e, t, act)
    ensures TrailInv(e, Acted(cfg, e, t, act))
  {
    hide Acted, TrailInv;
    match act
    case Foreign(i, row) => ForeignStep(cfg, e, t, i, row);
    case Step(a, now) =>
      match a {
        case CommitPrecheck(w) => FoundStep(cfg, e, t, w, now);
        case EnterApplying(w) => EnterStep(cfg, e, t, w, now);
        case Settle(w) => SettleRowStep(cfg, e, t, w, now);
        case CommitRecovery(w) => RecoverStep(cfg, e, t, w, now);
        case _ => OtherStep(cfg, e, t, a, now);
      }
  }

  lemma {:induction false} TrailRun(cfg: P.Config, e: Effect, t: Trail, acts: seq<Act>)
    requires TrailInv(e, t) && MayActAll(cfg, e, t, acts)
    ensures TrailInv(e, ActedAll(cfg, e, t, acts))
    decreases |acts|
  {
    if acts != [] {
      TrailStep(cfg, e, t, acts[0]);
      TrailRun(cfg, e, Acted(cfg, e, t, acts[0]), acts[1..]);
    }
  }

  // ---------------------------------------------------------------------------------------------------------------
  // Reconciliation on the rows themselves
  // ---------------------------------------------------------------------------------------------------------------

  /** The protocol's part of a run. */
  function Steps(acts: seq<Act>): seq<P.Action> {
    if acts == [] then []
    else (if acts[0].Step? then [acts[0].a] else []) + Steps(acts[1..])
  }

  /** The rows do not steer the protocol. */
  lemma {:induction false} ProtocolRunsBeneath(cfg: P.Config, e: Effect, t: Trail, acts: seq<Act>)
    requires MayActAll(cfg, e, t, acts)
    ensures P.Legal(cfg, t.s, Steps(acts)) && P.Run(cfg, t.s, Steps(acts)) == ActedAll(cfg, e, t, acts).s
    decreases |acts|
  {
    if acts != [] {
      var next := Acted(cfg, e, t, acts[0]);
      ProtocolRunsBeneath(cfg, e, next, acts[1..]);
      if acts[0].Step? {
        assert Steps(acts)[0] == acts[0].a && Steps(acts)[1..] == Steps(acts[1..]);
      } else {
        assert Steps(acts) == Steps(acts[1..]);
      }
    }
  }

  /** The references reconciliation finds in the rows are the protocol's. */
  lemma RowsRecordRun(e: Effect, t: Trail)
    requires TrailInv(e, t)
    ensures T.RecordsRun(Rows(t.rows), e.identity.capability, t.s.executions)
  {
    var capability, rows, completed := e.identity.capability, t.rows, t.s.executions;
    forall r | r in T.AuditRefs(Rows(rows), capability) ensures r in T.References(completed) {
      var i :| 0 <= i < |rows| && Rows(rows)[i].capability == capability && Rows(rows)[i].auditRef == Some(r);
      assert IsFinish(rows[i], capability) && RowFinish(rows[i]) in StepFinishes(completed);
      var j :| 0 <= j < |completed| && StepFinish(completed[j]) == RowFinish(rows[i]);
      assert completed[j].auditRef == Some(r);
    }
    forall r | r in T.References(completed) ensures r in T.AuditRefs(Rows(rows), capability) {
      var j :| 0 <= j < |completed| && completed[j].auditRef == Some(r);
      assert StepFinish(completed[j]) in RowFinishes(rows, capability);
      var i :| 0 <= i < |rows| && IsFinish(rows[i], capability) && RowFinish(rows[i]) == StepFinish(completed[j]);
      assert Rows(rows)[i].auditRef == Some(r);
    }
  }

  /**
   After any run that left the claim APPLIED, whoever wrote its rows, worker or recovery, reconciliation against an
   unchanged target reports nothing.
   */
  lemma WrittenRowsReconcile(cfg: P.Config, e: Effect, acts: seq<Act>, claim: T.ClaimRow, reply: T.Reply)
    requires MayActAll(cfg, e, Start(cfg), acts) && (cfg.dedup || cfg.prompt || cfg.seed.Some?)
    requires claim.capability == e.identity.capability
    requires var t := ActedAll(cfg, e, Start(cfg), acts);
      P.IsApplied(t.s) && T.AnswersFor(claim, reply, t.s.records)
    ensures T.FullyMatches(claim, reply, Rows(ActedAll(cfg, e, Start(cfg), acts).rows))
  {
    var t := ActedAll(cfg, e, Start(cfg), acts);
    TrailRun(cfg, e, Start(cfg), acts);
    RowsRecordRun(e, t);
    ProtocolRunsBeneath(cfg, e, Start(cfg), acts);
    T.NoFalseDivergence(cfg, Steps(acts), claim, reply, Rows(t.rows));
  }
}
