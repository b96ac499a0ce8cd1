/**
 The workflow's own path through one case, run by run: which statuses and facts it writes, in which commits, and where
 a run that is killed between two commits leaves the case for the next one. Other workers are the subject of Procedure.
 */
module RegE {
  import opened Prelude
  import opened Outcomes
  import opened Claims
  import opened Inquiry
  import opened StateMachine
  import EngineCall
  import Ledger
  import P = Procedure

  /** The three READ capabilities, in order. */
  datatype Read = VerifyMember | LocateTransaction | CheckDuplicate

  function ReadState(r: Read): RegEState {
    match r
    case VerifyMember => MEMBER_VERIFIED
    case LocateTransaction => TRANSACTION_VERIFIED
    case CheckDuplicate => DUPLICATE_CHECKED
  }

  /** What stops an engine call before it comes to the claim. */
  datatype Policy = Passes | Denies | Raises

  /** What one engine call meets. */
  datatype Effect = Effect(policy: Policy, script: EngineCall.Script)

  /** What a resumed run learns about a claim in flight: whether its owner is dead, and what the target answers. */
  datatype Inquest = Inquest(dead: bool, verdict: Verdict)

  datatype PerEffect<T> = PerEffect(chargeback: T, credit: T, notice: T) {
    function Of(c: P.Capability): T {
      match c
      case Chargeback => chargeback
      case Credit => credit
      case Notice => notice
    }
  }

  /** Everything outside the ledger that decides one run. */
  datatype Environment = Environment(
    inquests: PerEffect<Inquest>,
    reconciled: bool,
    memberFound: bool,
    accountFound: bool,
    effects: PerEffect<Effect>,
    killAfterCredit: bool)

  /** The durable case of one dispute; `claims` holds the claim status of every effect that was ever admitted. */
  datatype Case = Case(
    onFile: bool,
    status: RegEState,
    moneyMoved: bool,
    obligation: Option<Ledger.ObligationStatus>,
    noticeDeadline: Option<Ledger.DeadlineStatus>,
    done: set<Read>,
    claims: map<P.Capability, ClaimStatus>)

  const UNSEEN := Case(false, RECEIVED, false, None, None, {}, map[])

  datatype RunResult = Finished | Stopped | Killed

  /** Either the run goes on, with so many commits left before it is killed, or it has ended. */
  datatype Flow = Go(left: nat) | Exit(result: RunResult)

  /** The case after some commits of a run, and how the run goes on. */
  datatype Stepped = Stepped(x: Case, flow: Flow)

  function StatusOf(x: Case, c: P.Capability): Option<ClaimStatus> {
    if c in x.claims then Some(x.claims[c]) else None
  }

  /** The snapshot's completed capabilities: an APPLIED claim and its completed execution commit together. */
  predicate Has(x: Case, c: P.Capability) {
    StatusOf(x, c) == Some(APPLIED)
  }

  function WithClaim(x: Case, c: P.Capability, status: ClaimStatus): Case {
    x.(claims := x.claims[c := status])
  }

  /** A status write that the state machine may refuse; a refusal raises and commits nothing. */
  function Moved(x: Case, target: RegEState, moved: bool): Case {
    if CanTransition(x.status, target) then x.(status := target, moneyMoved := x.moneyMoved || moved) else x
  }

  /** The status caught up with a milestone whose effect is a durable fact. */
  function Ensured(x: Case, milestone: RegEState, moved: bool): Case {
    if Reached(x.status, milestone) == x.status then x
    else x.(status := milestone, moneyMoved := x.moneyMoved || moved)
  }

  /** Catching up is a commit of its own when it changes the status. */
  function CaughtUp(x: Case, milestone: RegEState, left: nat): Stepped {
    var y := Ensured(x, milestone, false);
    if y.status == x.status then Stepped(x, Go(left))
    else if left == 0 then Stepped(x, Exit(Killed))
    else Stepped(y, Go(left - 1))
  }

  /** A run that gives up moves the status first, if it may. */
  function GaveUp(x: Case, target: RegEState, left: nat): Stepped {
    var y := Moved(x, target, false);
    if y.status == x.status then Stepped(x, Exit(Stopped))
    else if left == 0 then Stepped(x, Exit(Killed))
    else Stepped(y, Exit(Stopped))
  }

  function Planned(x: Case): Case {
    if x.obligation == None then x.(obligation := Some(Ledger.PLANNED)) else x
  }

  /** One claim on resume: left alone, settled by the target's answer, or a reason to stop. */
  function Resolved(x: Case, c: P.Capability, q: Inquest): Option<Case> {
    match StatusOf(x, c)
    case Some(CLAIMED) => Settled(x, c, q)
    case Some(APPLYING) => Settled(x, c, q)
    case _ => Some(x)
  }

  function Settled(x: Case, c: P.Capability, q: Inquest): Option<Case> {
    if !q.dead then None
    else match q.verdict
      case Present(_) =>
        var y := WithClaim(x, c, APPLIED);
        Some(if c == P.Credit then y.(status := PROVISIONAL_CREDIT_POSTED, moneyMoved := true) else y)
      case Absent => Some(WithClaim(x, c, FAILED_RETRYABLE))
      case _ => None
  }

  /** Recovery over the claims in row order; what it settled before it had to stop stays. */
  datatype Recovery = Recovery(x: Case, ok: bool)

  function Recover(x: Case, order: seq<P.Capability>, inquests: PerEffect<Inquest>): Recovery
    decreases |order|
  {
    if order == [] then Recovery(x, true)
    else match Resolved(x, order[0], inquests.Of(order[0]))
      case None => Recovery(x, false)
      case Some(y) => Recover(y, order[1..], inquests)
  }

  const ROW_ORDER := [P.Chargeback, P.Credit, P.Notice]

  /** Reconciliation compares applied effects with the target, so it has something to find only then. */
  predicate Diverges(x: Case, env: Environment) {
    !env.reconciled && (Has(x, P.Chargeback) || Has(x, P.Credit) || Has(x, P.Notice))
  }

  /** The first durable writes of a run: recovery and reconciliation on resume, or the creation of the case. */
  function Opened(x: Case, env: Environment, left: nat): Stepped {
    if left == 0 then Stepped(x, Exit(Killed))
    else if !x.onFile then
      var y := Planned(x.(onFile := true));
      if left == 1 then Stepped(y, Exit(Killed)) else Stepped(y, Go(left - 2))
    else
      var r := Recover(x, ROW_ORDER, env.inquests);
      if !r.ok then Stepped(r.x.(status := NEEDS_HUMAN), Exit(Stopped))
      else if left == 1 then Stepped(r.x, Exit(Killed))
      else if Diverges(r.x, env) then Stepped(r.x.(status := NEEDS_HUMAN), Exit(Stopped))
      else Stepped(Planned(r.x), Go(left - 2))
  }

  /**
   One READ capability: its execution rows and the status commit together, or the illegal status stops the run. The
   status is never that of a READ still to be done (RegERuns.ReadsNeverRepeatAStatus).
   */
  function ReadOnce(x: Case, r: Read, left: nat): Stepped {
    if r in x.done then Stepped(x, Go(left))
    else if !CanTransition(x.status, ReadState(r)) then Stepped(x, Exit(Stopped))
    else if left == 0 then Stepped(x, Exit(Killed))
    else Stepped(x.(done := x.done + {r}, status := ReadState(r)), Go(left - 1))
  }

  /** The READ capabilities and the binding of the member's account. */
  function Verified(x: Case, env: Environment, left: nat): Stepped {
    if VerifyMember !in x.done && !env.memberFound then GaveUp(x, FAILED, left)
    else
      var a := ReadOnce(x, VerifyMember, left);
      if a.flow.Exit? then a
      else if !env.accountFound then GaveUp(a.x, NEEDS_HUMAN, a.flow.left)
      else
        var b := ReadOnce(a.x, LocateTransaction, a.flow.left);
        if b.flow.Exit? then b else ReadOnce(b.x, CheckDuplicate, b.flow.left)
  }

  function FailureStatus(o: Outcome): RegEState {
    match o.category
    case UncertainEffect => UNCERTAIN_EFFECT
    case HardFailure => FAILED
    case _ => NEEDS_HUMAN
  }

  /** The status writes of the settlement transaction. */
  function SettledStatus(status: RegEState, o: Outcome): RegEState {
    match o.category
    case UncertainEffect => UNCERTAIN_EFFECT
    case NeedsHuman => NEEDS_HUMAN
    case HardFailure => FAILED
    case _ => if o.moneyMoved then PROVISIONAL_CREDIT_POSTED else status
  }

  /** The claim row as the engine sees it; only its status matters here. */
  function RowOf(x: Case, c: P.Capability): Option<Claim> {
    if c in x.claims then Some(Claim(x.claims[c], "", 1)) else None
  }

  /** The engine's call, with the case row its settlement writes. */
  function Called(x: Case, c: P.Capability, e: Effect, left: nat): EngineCall.CallEffect {
    EngineCall.CallLeaves(RowOf(x, c), "", c == P.Credit, e.script, left)
  }

  function AfterCall(x: Case, c: P.Capability, e: EngineCall.CallEffect): Case {
    var y := if e.claim.Some? then WithClaim(x, c, e.claim.value.status) else x;
    if e.ended.Settled? then
      y.(status := SettledStatus(y.status, e.ended.o), moneyMoved := y.moneyMoved || e.ended.o.moneyMoved)
    else y
  }

  /** One effect: skipped if the snapshot has it, otherwise the engine's call and what its result means. */
  function Acted(x: Case, c: P.Capability, env: Environment, left: nat): Stepped {
    var e := env.effects.Of(c);
    if Has(x, c) then Stepped(x, Go(left))
    else match e.policy
      case Raises => Stepped(x, Exit(Stopped))
      case Denies => GaveUp(x, NEEDS_HUMAN, left)
      case Passes =>
        var call := Called(x, c, e, left);
        var y := AfterCall(x, c, call);
        match call.ended
        case Killed => Stepped(y, Exit(Killed))
        case Raised => Stepped(y, Exit(Stopped))
        case _ =>
          if EngineCall.Succeeds(call.ended) then Stepped(y, Go(call.left))
          else GaveUp(y, FailureStatus(call.ended.o), call.left)
  }

  function ActiveNotice(x: Case): Case {
    x.(obligation := if x.obligation == Some(Ledger.PLANNED) then Some(Ledger.ACTIVE) else x.obligation,
       noticeDeadline := if x.noticeDeadline == None then Some(Ledger.PENDING) else x.noticeDeadline)
  }

  /** A catch-up inside a transaction commits it early; the commit at its end then has nothing left to do. */
  function Catches(x: Case, milestone: RegEState, moved: bool): nat {
    if Ensured(x, milestone, moved).status == x.status then 0 else 1
  }

  /** The credit is a durable fact: the obligation becomes active and the notice deadline exists from now on. */
  function Noted(x: Case, left: nat): Stepped {
    if x.obligation == None then Stepped(x, Exit(Stopped))
    else
      var y := Ensured(ActiveNotice(x), PROVISIONAL_CREDIT_POSTED, true);
      var n := Catches(ActiveNotice(x), PROVISIONAL_CREDIT_POSTED, true) + 1;
      if left == 0 then Stepped(x, Exit(Killed))
      else if left < n then Stepped(y, Exit(Killed))
      else Stepped(y, Go(left - n))
  }

  /** Chargeback, then credit. */
  function Credited(x: Case, env: Environment, left: nat): Stepped {
    var a := Acted(x, P.Chargeback, env, left);
    if a.flow.Exit? then a
    else
      var b := CaughtUp(a.x, CHARGEBACK_FILED, a.flow.left);
      if b.flow.Exit? then b
      else
        var c := Acted(b.x, P.Credit, env, b.flow.left);
        if c.flow.Exit? then c
        else
          var n := Noted(c.x, c.flow.left);
          if n.flow.Go? && !Has(x, P.Credit) && env.killAfterCredit then Stepped(n.x, Exit(Stopped)) else n
  }

  function SettledNotice(x: Case): Case {
    x.(obligation := Some(Ledger.SATISFIED),
       noticeDeadline := if x.noticeDeadline == None then None else Some(Ledger.MET))
  }

  /** The notice is a durable fact: its deadline is met, late or not, the obligation satisfied, and the case waits. */
  function NoticeSettled(x: Case, left: nat): Stepped {
    if x.obligation == None then Stepped(x, Exit(Stopped))
    else
      var sent := Ensured(SettledNotice(x), NOTICE_SENT, false);
      var waits := Ensured(sent, WAITING_RESOLUTION, false);
      var first := Catches(SettledNotice(x), NOTICE_SENT, false);
      var n := first + Catches(sent, WAITING_RESOLUTION, false) + 1;
      if left == 0 then Stepped(x, Exit(Killed))
      else if left == first then Stepped(sent, Exit(Killed))
      else if left < n then Stepped(waits, Exit(Killed))
      else Stepped(waits, Go(left - n))
  }

  function Notified(x: Case, env: Environment, left: nat): Stepped {
    var p := if Has(x, P.Notice) then Stepped(x, Go(left)) else CaughtUp(x, NOTICE_PENDING, left);
    if p.flow.Exit? then p
    else
      var a := Acted(p.x, P.Notice, env, p.flow.left);
      if a.flow.Exit? then a
      else
        var n := NoticeSettled(a.x, a.flow.left);
        if n.flow.Exit? then n else Stepped(n.x, Exit(Finished))
  }

  /** The last three phases, from an opened case. */
  function FromOpened(x: Case, env: Environment, left: nat): Stepped {
    var v := Verified(x, env, left);
    if v.flow.Exit? then v
    else
      var c := Credited(v.x, env, v.flow.left);
      if c.flow.Exit? then c else Notified(c.x, env, c.flow.left)
  }

  /** One run of the workflow, killed after `left` commits if it has not ended by then. */
  function Ran(x: Case, env: Environment, left: nat): Stepped {
    var o := Opened(x, env, left);
    if o.flow.Exit? then o else FromOpened(o.x, env, o.flow.left)
  }

  // ---------------------------------------------------------------------------------------------------------------
  // The workflow's methods over the durable case
  // ---------------------------------------------------------------------------------------------------------------

  class CaseRun {
    var onFile: bool
    var status: RegEState
    var moneyMoved: bool
    var obligation: Option<Ledger.ObligationStatus>
    var noticeDeadline: Option<Ledger.DeadlineStatus>
    var done: set<Read>
    var claims: map<P.Capability, ClaimStatus>

    function View(): Case
      reads this
    {
      Case(onFile, status, moneyMoved, obligation, noticeDeadline, done, claims)
    }

    constructor ()
      ensures View() == UNSEEN
    {
      onFile, status, moneyMoved, obligation, noticeDeadline := false, RECEIVED, false, None, None;
      done, claims := {}, map[];
    }

    /** ok = false stands for the raised error. */
    method Transition(target: RegEState, moved: bool) returns (ok: bool)
      modifies this`status, this`moneyMoved
      ensures ok == CanTransition(old(status), target)
      ensures View() == Moved(old(View()), target, moved)
    {
      ok := CanTransition(status, target);
      if ok {
        status := target;
        moneyMoved := moneyMoved || moved;
      }
    }

    method EnsureReached(milestone: RegEState, moved: bool) returns (commits: nat)
      requires Milestone(milestone) >= 0
      modifies this`status, this`moneyMoved
      ensures View() == Ensured(old(View()), milestone, moved)
      ensures commits == Catches(old(View()), milestone, moved)
    {
      commits := 0;
      if Milestone(milestone) <= Milestone(status) { return; }
      if CanTransition(status, milestone) {
        commits := 1;
        var _ := Transition(milestone, moved);
      }
    }

    method CatchUp(milestone: RegEState, left: nat) returns (f: Flow)
      requires Milestone(milestone) >= 0
      modifies this`status, this`moneyMoved
      ensures Stepped(View(), f) == CaughtUp(old(View()), milestone, left)
    {
      if Milestone(milestone) <= Milestone(status) || !CanTransition(status, milestone) {
        return Go(left);
      }
      if left == 0 { return Exit(Killed); }
      var _ := Transition(milestone, false);
      f := Go(left - 1);
    }

    method GiveUp(target: RegEState, left: nat) returns (f: Flow)
      modifies this`status, this`moneyMoved
      ensures Stepped(View(), f) == GaveUp(old(View()), target, left)
    {
      f := Exit(Stopped);
      if status != target && CanTransition(status, target) {
        if left == 0 { return Exit(Killed); }
        var _ := Transition(target, false);
      }
    }

    /** The recovery loop; false when a claim could not be resolved. */
    method RecoverClaims(inquests: PerEffect<Inquest>) returns (ok: bool)
      modifies this`status, this`moneyMoved, this`claims
      ensures Recovery(View(), ok) == Recover(old(View()), ROW_ORDER, inquests)
    {
      hide CanTransition;
      var i := 0;
      while i < |ROW_ORDER|
        invariant 0 <= i <= |ROW_ORDER|
        invariant Recover(View(), ROW_ORDER[i..], inquests) == Recover(old(View()), ROW_ORDER, inquests)
        invariant onFile == old(onFile) && obligation == old(obligation)
      {
        var c := ROW_ORDER[i];
        assert ROW_ORDER[i..][1..] == ROW_ORDER[i + 1..];
        if c in claims && (claims[c] == CLAIMED || claims[c] == APPLYING) {
          var q := inquests.Of(c);
          if !q.dead || (!q.verdict.Present? && q.verdict != Absent) { return false; }
          claims := claims[c := if q.verdict.Present? then APPLIED else FAILED_RETRYABLE];
          if q.verdict.Present? && c == P.Credit {
            status, moneyMoved := PROVISIONAL_CREDIT_POSTED, true;
          }
        }
        i := i + 1;
      }
      ok := true;
    }

    method Open(env: Environment, left: nat) returns (f: Flow)
      modifies this
      ensures Stepped(View(), f) == Opened(old(View()), env, left)
    {
      if left == 0 { return Exit(Killed); }
      if !onFile {
        onFile := true;
        if obligation == None { obligation := Some(Ledger.PLANNED); }
        return if left == 1 then Exit(Killed) else Go(left - 2);
      }
      var ok := RecoverClaims(env.inquests);
      if !ok {
        status := NEEDS_HUMAN;
        return Exit(Stopped);
      }
      if left == 1 { return Exit(Killed); }
      if Diverges(View(), env) {
        status := NEEDS_HUMAN;
        return Exit(Stopped);
      }
      if obligation == None { obligation := Some(Ledger.PLANNED); }
      f := Go(left - 2);
    }

    method ReadStep(r: Read, left: nat) returns (f: Flow)
      modifies this`status, this`done
      ensures Stepped(View(), f) == ReadOnce(old(View()), r, left)
    {
      if r in done { return Go(left); }
      if !CanTransition(status, ReadState(r)) { return Exit(Stopped); }
      if left == 0 { return Exit(Killed); }
      done, status := done + {r}, ReadState(r);
      f := Go(left - 1);
    }

    method VerifySteps(env: Environment, left: nat) returns (f: Flow)
      modifies this`status, this`moneyMoved, this`done
      ensures Stepped(View(), f) == Verified(old(View()), env, left)
    {
      if VerifyMember !in done && !env.memberFound {
        f := GiveUp(FAILED, left);
        return;
      }
      f := ReadStep(VerifyMember, left);
      if f.Exit? { return; }
      if !env.accountFound {
        f := GiveUp(NEEDS_HUMAN, f.left);
        return;
      }
      f := ReadStep(LocateTransaction, f.left);
      if f.Exit? { return; }
      f := ReadStep(CheckDuplicate, f.left);
    }

    /** Ends a run on an effect that neither succeeded nor was there already. */
    method EffectFailure(o: Outcome, left: nat) returns (failure: Option<Flow>)
      modifies this`status, this`moneyMoved
      ensures failure == None <==> o.IsSuccess() || o.code == AlreadyApplied
      ensures failure == None ==> View() == old(View())
      ensures failure.Some? ==> Stepped(View(), failure.value) == GaveUp(old(View()), FailureStatus(o), left)
    {
      if o.IsSuccess() || o.code == AlreadyApplied { return None; }
      var f;
      if o.category == UncertainEffect {
        f := GiveUp(UNCERTAIN_EFFECT, left);
      } else if o.category == HardFailure {
        f := GiveUp(FAILED, left);
      } else {
        f := GiveUp(NEEDS_HUMAN, left);
      }
      failure := Some(f);
    }

    method EngineStep(c: P.Capability, env: Environment, left: nat) returns (f: Flow)
      modifies this`status, this`moneyMoved, this`claims
      ensures Stepped(View(), f) == Acted(old(View()), c, env, left)
    {
      hide EngineCall.CallLeaves, GaveUp, SettledStatus;
      if c in claims && claims[c] == APPLIED { return Go(left); }
      var e := env.effects.Of(c);
      if e.policy == Raises { return Exit(Stopped); }
      if e.policy == Denies {
        f := GiveUp(NEEDS_HUMAN, left);
        return;
      }
      var call := Called(View(), c, e, left);
      if call.claim.Some? { claims := claims[c := call.claim.value.status]; }
      if call.ended.Killed? { return Exit(Killed); }
      if call.ended.Raised? { return Exit(Stopped); }
      if call.ended.Settled? {
        status, moneyMoved := SettledStatus(status, call.ended.o), moneyMoved || call.ended.o.moneyMoved;
      }
      var failure := EffectFailure(call.ended.o, call.left);
      f := if failure.Some? then failure.value else Go(call.left);
    }

    method NoteCredit(left: nat) returns (f: Flow)
      modifies this`status, this`moneyMoved, this`obligation, this`noticeDeadline
      ensures Stepped(View(), f) == Noted(old(View()), left)
    {
      if obligation == None { return Exit(Stopped); }
      if left == 0 { return Exit(Killed); }
      if obligation == Some(Ledger.PLANNED) { obligation := Some(Ledger.ACTIVE); }
      if noticeDeadline == None { noticeDeadline := Some(Ledger.PENDING); }
      var commits := EnsureReached(PROVISIONAL_CREDIT_POSTED, true);
      if left < commits + 1 { return Exit(Killed); }
      f := Go(left - commits - 1);
    }

    method CreditPhase(env: Environment, left: nat) returns (f: Flow)
      modifies this
      ensures Stepped(View(), f) == Credited(old(View()), env, left)
    {
      var unseen := !Has(View(), P.Credit);
      f := EngineStep(P.Chargeback, env, left);
      if f.Exit? { return; }
      f := CatchUp(CHARGEBACK_FILED, f.left);
      if f.Exit? { return; }
      f := EngineStep(P.Credit, env, f.left);
      if f.Exit? { return; }
      f := NoteCredit(f.left);
      if f.Go? && unseen && env.killAfterCredit { f := Exit(Stopped); }
    }

    method SettleNotice(left: nat) returns (f: Flow)
      modifies this`status, this`moneyMoved, this`obligation, this`noticeDeadline
      ensures Stepped(View(), f) == NoticeSettled(old(View()), left)
    {
      if obligation == None { return Exit(Stopped); }
      if left == 0 { return Exit(Killed); }
      if noticeDeadline.Some? { noticeDeadline := Some(Ledger.MET); }
      obligation := Some(Ledger.SATISFIED);
      var first := EnsureReached(NOTICE_SENT, false);
      if left == first { return Exit(Killed); }
      var second := EnsureReached(WAITING_RESOLUTION, false);
      if left < first + second + 1 { return Exit(Killed); }
      f := Go(left - first - second - 1);
    }

    method NoticePhase(env: Environment, left: nat) returns (result: RunResult)
      modifies this
      ensures Stepped(View(), Exit(result)) == Notified(old(View()), env, left)
    {
      var f := Go(left);
      if !Has(View(), P.Notice) {
        f := CatchUp(NOTICE_PENDING, left);
        if f.Exit? { return f.result; }
      }
      f := EngineStep(P.Notice, env, f.left);
      if f.Exit? { return f.result; }
      f := SettleNotice(f.left);
      result := if f.Exit? then f.result else Finished;
    }

    method RunCase(env: Environment, left: nat) returns (result: RunResult)
      modifies this
      ensures Stepped(View(), Exit(result)) == Ran(old(View()), env, left)
    {
      var f := Open(env, left);
      if f.Exit? { return f.result; }
      f := VerifySteps(env, f.left);
      if f.Exit? { return f.result; }
      f := CreditPhase(env, f.left);
      if f.Exit? { return f.result; }
      result := NoticePhase(env, f.left);
    }
  }
}
