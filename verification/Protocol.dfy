/**
 The fenced effect protocol for one effect identity: any number of workers, one durable ledger row, one external
 target and a network that may lose or delay a request. There is one action per durable commit and per exchange
 with the target, and a crash or an exception may strike between any two of them; whatever a worker had not
 committed is then gone.
 */
module Protocol {
  import opened Prelude
  import opened Outcomes
  import opened Inquiry
  import opened Replay
  import opened Claims

  type Ref = string

  /**
   `dedup`: the target ignores a repeat of an effect it already holds. `prompt`: a request is delivered or lost
   before anyone inquires again. `seed`: a matching record that predates Tandem.
   */
  datatype Config = Config(dedup: bool, prompt: bool, movesMoney: bool, seed: Option<Ref>)

  datatype Send = NotSent | Sent | Refused

  /** How far a worker holding the claim has come. */
  datatype Stage =
    Fresh | Prechecked(verdict: Verdict) | Staged | Applying(send: Send) | Concluded(send: Send, outcome: Outcome)
  {
    function Status(): ClaimStatus { if Applying? || Concluded? then APPLYING else CLAIMED }
  }

  /** Where a worker's call stands; a worker is one engine instance, so its owner id is never reused. */
  datatype Pc =
    | Idle
    | SawRetryable(seen: nat)
    | Working(token: nat, stage: Stage)
    | Recovering(owner: Owner, seen: nat, verdict: Verdict)
    | Done(ok: bool)
    | Crashed

  /** A completed execution row of this capability. */
  datatype Execution = Execution(code: Code, auditRef: Option<Ref>, moneyMoved: bool)

  /** `issued` is history: issued[k] is the owner that was given fencing token k + 1. */
  datatype State = State(
    claim: Option<Claim>,
    executions: seq<Execution>,
    caseMoved: bool,
    records: seq<Ref>,
    inflight: nat,
    pcs: map<Owner, Pc>,
    issued: seq<Owner>)

  datatype Action =
    | Admit(w: Owner)
    | RetryClaim(w: Owner)
    | Ask(w: Owner, answer: Verdict)
    | CommitPrecheck(w: Owner)
    | EnterApplying(w: Owner)
    | SendRequest(w: Owner)
    | Refuse(w: Owner)
    | Finish(w: Owner, attempt: Attempt)
    | Settle(w: Owner)
    | AskForDead(w: Owner, answer: Verdict)
    | CommitRecovery(w: Owner)
    | Raise(w: Owner)
    | Crash(w: Owner)
    | Deliver(ref: Ref)
    | Lose

  function Seed(cfg: Config): seq<Ref> {
    if cfg.seed.Some? then [cfg.seed.value] else []
  }

  function Init(cfg: Config): State {
    State(None, [], false, Seed(cfg), 0, map[], [])
  }

  function At(s: State, w: Owner): Pc {
    if w in s.pcs then s.pcs[w] else Idle
  }

  function Move(s: State, w: Owner, pc: Pc): State {
    s.(pcs := s.pcs[w := pc])
  }

  /** A positive or negative answer tells the target's present state; other answers tell nothing. */
  predicate Truthful(s: State, v: Verdict) {
    && (v.Present? ==> s.records != [] && v.ref == s.records[0])
    && (v == Absent ==> s.records == [])
  }

  predicate MayInquire(cfg: Config, s: State) {
    cfg.prompt ==> s.inflight == 0
  }

  /** A claim that the status code reports as abandoned: its worker is dead and takes no more steps. */
  predicate Abandoned(s: State) {
    s.claim.Some? && s.claim.value.status in {CLAIMED, APPLYING} && At(s, s.claim.value.owner) == Crashed
  }

  /** The attempt a worker reports matches what it sent and what came back. */
  ghost predicate Consistent(cfg: Config, s: State, send: Send, attempt: Attempt) {
    && (Actuated(attempt.transport) <==> send != NotSent)
    && (RefusedBeforeActing(attempt.transport) ==> send == Refused)
    && (send == Refused ==> RefusedBeforeActing(attempt.transport))
    && var d := Deciding(attempt, cfg.movesMoney);
       d.Some? ==> MayInquire(cfg, s) && Truthful(s, d.value)
  }

  ghost predicate Enabled(cfg: Config, s: State, a: Action) {
    match a
    case Admit(w) => At(s, w).Idle?
    case RetryClaim(w) => At(s, w).SawRetryable?
    case Ask(w, v) => At(s, w).Working? && At(s, w).stage == Fresh && MayInquire(cfg, s) && Truthful(s, v)
    case CommitPrecheck(w) => At(s, w).Working? && At(s, w).stage.Prechecked?
    case EnterApplying(w) => At(s, w).Working? && At(s, w).stage.Staged?
    case SendRequest(w) => At(s, w).Working? && At(s, w).stage == Applying(NotSent)
    case Refuse(w) => At(s, w).Working? && At(s, w).stage == Applying(Sent) && s.inflight > 0
    case Finish(w, attempt) =>
      At(s, w).Working? && At(s, w).stage.Applying? && Consistent(cfg, s, At(s, w).stage.send, attempt)
    case Settle(w) => At(s, w).Working? && At(s, w).stage.Concluded?
    case AskForDead(w, v) => At(s, w).Idle? && Abandoned(s) && MayInquire(cfg, s) && Truthful(s, v)
    case CommitRecovery(w) => At(s, w).Recovering?
    case Raise(w) => !At(s, w).Crashed?
    case Crash(w) => true
    case Deliver(ref) => s.inflight > 0
    case Lose => s.inflight > 0
  }

  /** A claim that is not free: APPLIED counts as success for the caller, anything else stops it. */
  function Rejected(c: Claim): Pc {
    Done(c.status == APPLIED)
  }

  function Granted(s: State, w: Owner, c: Claim): State {
    Move(s, w, Working(c.token, Fresh)).(claim := Some(c), issued := s.issued + [w])
  }

  function PrecheckStep(s: State, w: Owner, token: nat, v: Verdict): State {
    match v
    case Present(r) =>
      var moved := Transition(s.claim, w, token, {CLAIMED}, APPLIED);
      Move(s, w, Done(true)).(
        claim := if moved.Some? then moved else s.claim,
        executions := s.executions + [Execution(AlreadyApplied, Some(r), false)])
    case Absent => Move(s, w, Working(token, Staged))
    case _ =>
      var moved := Transition(s.claim, w, token, {CLAIMED}, FAILED_RETRYABLE);
      Move(s, w, Done(false)).(claim := if moved.Some? then moved else s.claim)
  }

  /** The settlement transaction: the execution row, money_moved and the claim commit together or not at all. */
  function SettleStep(s: State, w: Owner, token: nat, o: Outcome): State {
    var moved := Transition(s.claim, w, token, {APPLYING}, SettleClaimStatus(o));
    if moved == None then Move(s, w, Done(false))
    else Move(s, w, Done(o.IsSuccess() || o.code == AlreadyApplied)).(
      claim := moved,
      executions := s.executions + [Execution(o.code, o.auditRef, o.moneyMoved)],
      caseMoved := s.caseMoved || o.moneyMoved)
  }

  /** The statuses crash recovery accepts as an execution already recorded as completed. */
  predicate Recorded(executions: seq<Execution>) {
    exists i :: 0 <= i < |executions| && executions[i].code in {Completed, AlreadyApplied}
  }

  function RecoveryStep(cfg: Config, s: State, w: Owner, owner: Owner, seen: nat, v: Verdict): State {
    match v
    case Present(r) =>
      var moved := Transition(s.claim, owner, seen, {CLAIMED, APPLYING}, APPLIED);
      if moved == None then Move(s, w, Done(false))
      else Move(s, w, Idle).(
        claim := moved,
        executions := if Recorded(s.executions) then s.executions
                      else s.executions + [Execution(Completed, Some(r), cfg.movesMoney)],
        caseMoved := s.caseMoved || cfg.movesMoney)
    case Absent =>
      var moved := Transition(s.claim, owner, seen, {CLAIMED, APPLYING}, FAILED_RETRYABLE);
      if moved == None then Move(s, w, Done(false)) else Move(s, w, Idle).(claim := moved)
    case _ => Move(s, w, Done(false))
  }

  ghost function Next(cfg: Config, s: State, a: Action): State
    requires Enabled(cfg, s, a)
  {
    match a
    case Admit(w) =>
      if s.claim == None then Granted(s, w, Claim(CLAIMED, w, 1))
      else if s.claim.value.status == FAILED_RETRYABLE then Move(s, w, SawRetryable(s.claim.value.token))
      else Move(s, w, Rejected(s.claim.value))
    case RetryClaim(w) =>
      var moved := Reclaim(s.claim, At(s, w).seen, w);
      if moved.Some? then Granted(s, w, moved.value) else Move(s, w, Done(false))
    case Ask(w, v) => Move(s, w, Working(At(s, w).token, Prechecked(v)))
    case CommitPrecheck(w) => PrecheckStep(s, w, At(s, w).token, At(s, w).stage.verdict)
    case EnterApplying(w) =>
      var moved := Transition(s.claim, w, At(s, w).token, {CLAIMED}, APPLYING);
      if moved == None then Move(s, w, Done(false))
      else Move(s, w, Working(At(s, w).token, Applying(NotSent))).(claim := moved)
    case SendRequest(w) => Move(s, w, Working(At(s, w).token, Applying(Sent))).(inflight := s.inflight + 1)
    case Refuse(w) => Move(s, w, Working(At(s, w).token, Applying(Refused))).(inflight := s.inflight - 1)
    case Finish(w, attempt) =>
      Move(s, w, Working(At(s, w).token, Concluded(At(s, w).stage.send, CommitOutcome(attempt, cfg.movesMoney))))
    case Settle(w) => SettleStep(s, w, At(s, w).token, At(s, w).stage.outcome)
    case AskForDead(w, v) => Move(s, w, Recovering(s.claim.value.owner, s.claim.value.token, v))
    case CommitRecovery(w) => RecoveryStep(cfg, s, w, At(s, w).owner, At(s, w).seen, At(s, w).verdict)
    case Raise(w) => Move(s, w, Done(false))
    case Crash(w) => Move(s, w, Crashed)
    case Deliver(ref) =>
      s.(inflight := s.inflight - 1, records := if cfg.dedup && s.records != [] then s.records else s.records + [ref])
    case Lose => s.(inflight := s.inflight - 1)
  }

  /** Every action is enabled when its turn comes. */
  ghost predicate Legal(cfg: Config, s: State, run: seq<Action>)
    decreases |run|
  {
    run == [] || (Enabled(cfg, s, run[0]) && Legal(cfg, Next(cfg, s, run[0]), run[1..]))
  }

  ghost function Run(cfg: Config, s: State, run: seq<Action>): State
    requires Legal(cfg, s, run)
    decreases |run|
  {
    if run == [] then s else Run(cfg, Next(cfg, s, run[0]), run[1..])
  }

  // ---------------------------------------------------------------------------------------------------------------
  // The inductive invariant
  // ---------------------------------------------------------------------------------------------------------------

  /** A worker that still acts on its claim is the row's current owner, with the current token and status. */
  predicate Holds(s: State, w: Owner) {
    match At(s, w)
    case Working(t, stage) =>
      s.claim == Some(Claim(stage.Status(), w, t)) && (stage.Concluded? ==> stage.outcome.code != AlreadyApplied)
    case SawRetryable(t) => s.claim.Some? && t <= s.claim.value.token
    case Recovering(o, t, _) => 0 < t <= |s.issued| && s.issued[t - 1] == o && At(s, o) == Crashed
    case Done(ok) => ok ==> s.claim.Some? && s.claim.value.status == APPLIED
    case _ => true
  }

  /** The current token is the last one issued, to the current owner. */
  predicate TokenIsLast(s: State) {
    match s.claim
    case None => s.issued == []
    case Some(c) => |s.issued| == c.token && c.token > 0 && s.issued[c.token - 1] == c.owner
  }

  ghost predicate Fenced(s: State) {
    TokenIsLast(s) && forall w :: Holds(s, w)
  }

  predicate IsRecord(s: State, r: Ref) {
    s.records != [] && s.records[0] == r
  }

  /** What a worker has learned but not yet committed is still so. */
  predicate Informed(s: State, w: Owner) {
    match At(s, w)
    case Working(_, Prechecked(Present(r))) => IsRecord(s, r)
    case Recovering(_, _, Present(r)) => IsRecord(s, r)
    case Working(_, Concluded(_, o)) =>
      if o.IsSuccess() then o.auditRef.Some? && IsRecord(s, o.auditRef.value) else Unconfirmed(o)
    case _ => true
  }

  predicate Backed(s: State, e: Execution) {
    && (e.auditRef.Some? ==> IsRecord(s, e.auditRef.value))
    && (e.code in {Completed, ConfirmedApplied, AlreadyApplied} ==> e.auditRef.Some?)
    && (e.moneyMoved ==> e.auditRef.Some?)
  }

  /** A completed execution carries the target's own reference. */
  predicate Evidenced(s: State) {
    s.records != [] && exists i :: 0 <= i < |s.executions| && s.executions[i].auditRef == Some(s.records[0])
  }

  predicate IsApplied(s: State) {
    s.claim.Some? && s.claim.value.status == APPLIED
  }

  /** Nothing the ledger says has happened is missing at the target. */
  ghost predicate LedgerBehindTarget(s: State) {
    && (IsApplied(s) ==> Evidenced(s))
    && (forall i :: 0 <= i < |s.executions| ==> Backed(s, s.executions[i]))
    && (s.caseMoved ==> s.records != [])
    && (forall w :: Informed(s, w))
  }

  /** The target is as Tandem found it and no request is on its way. */
  predicate Untouched(cfg: Config, s: State) {
    s.inflight == 0 && s.records == Seed(cfg)
  }

  predicate Unsent(cfg: Config, s: State) {
    Untouched(cfg, s) && cfg.seed == None
  }

  predicate Clean(cfg: Config, s: State, w: Owner) {
    match At(s, w)
    case Working(_, Prechecked(Absent)) => Unsent(cfg, s)
    case Working(_, Staged) => Unsent(cfg, s)
    case Working(_, Applying(send)) => cfg.seed == None && (send != Sent ==> Untouched(cfg, s))
    case Working(_, Concluded(_, o)) =>
      cfg.seed == None && (SettleClaimStatus(o) == FAILED_RETRYABLE ==> Untouched(cfg, s))
    case Recovering(o, t, Absent) =>
      s.claim.Some? && s.claim.value.token == t && s.claim.value.status in {CLAIMED, APPLYING} ==> Untouched(cfg, s)
    case _ => true
  }

  /** The key invariant: a claim that may be (re)tried has an untouched target, so at most one request is ever out. */
  ghost predicate AtMostOneRequest(cfg: Config, s: State) {
    && |s.records| + s.inflight <= 1
    && Seed(cfg) <= s.records
    && (s.claim == None || s.claim.value.status in {CLAIMED, FAILED_RETRYABLE} ==> Untouched(cfg, s))
    && (forall w :: Clean(cfg, s, w))
  }

  predicate Barred(pc: Pc) {
    pc.Working? ==> pc.stage.Fresh? || (pc.stage.Prechecked? && pc.stage.verdict != Absent)
  }

  /** A record found from the start keeps every worker from sending. */
  ghost predicate NeverSends(s: State) {
    && |s.records| == 1 && s.inflight == 0
    && (forall w :: Barred(At(s, w)))
  }

  /** A change of the claim that leaves another worker's knowledge of it standing. */
  predicate ClaimMoves(s: State, v: Owner, claim: Option<Claim>) {
    || claim == s.claim
    || s.claim == None
    || (&& claim.Some? && claim.value.token >= s.claim.value.token
        && s.claim.value.status != APPLIED
        && (|| s.claim.value.status == FAILED_RETRYABLE
            || s.claim.value.owner == v || At(s, s.claim.value.owner) == Crashed))
  }

  /** Two workers never act on the claim at once: both would have to be the row's owner. */
  lemma FencedFrame(s: State, s': State, v: Owner)
    requires Fenced(s)
    requires s'.pcs == s.pcs[v := At(s', v)]
    requires At(s, v) == Crashed ==> At(s', v) == Crashed
    requires s.issued <= s'.issued && ClaimMoves(s, v, s'.claim)
    requires TokenIsLast(s') && Holds(s', v)
    ensures Fenced(s')
  {
    forall w ensures Holds(s', w) {
      assert Holds(s, w);
    }
  }

  lemma PrecheckKeepsFence(s: State, w: Owner, token: nat, v: Verdict)
    requires Fenced(s) && At(s, w) == Working(token, Prechecked(v))
    ensures Fenced(PrecheckStep(s, w, token, v))
  {
    assert Holds(s, w);
    FencedFrame(s, PrecheckStep(s, w, token, v), w);
  }

  lemma SettleKeepsFence(s: State, w: Owner, token: nat, send: Send, o: Outcome)
    requires Fenced(s) && At(s, w) == Working(token, Concluded(send, o))
    ensures Fenced(SettleStep(s, w, token, o))
  {
    assert Holds(s, w);
    FencedFrame(s, SettleStep(s, w, token, o), w);
  }

  lemma RecoveryKeepsFence(cfg: Config, s: State, w: Owner, owner: Owner, seen: nat, v: Verdict)
    requires Fenced(s) && At(s, w) == Recovering(owner, seen, v)
    ensures Fenced(RecoveryStep(cfg, s, w, owner, seen, v))
  {
    assert Holds(s, w);
    FencedFrame(s, RecoveryStep(cfg, s, w, owner, seen, v), w);
  }

  lemma GrantKeepsFence(cfg: Config, s: State, a: Action)
    requires Fenced(s) && Enabled(cfg, s, a) && (a.Admit? || a.RetryClaim?)
    ensures Fenced(Next(cfg, s, a))
  {
    assert Holds(s, a.w);
    FencedFrame(s, Next(cfg, s, a), a.w);
  }

  lemma QuietKeepsFence(cfg: Config, s: State, a: Action)
    requires Fenced(s) && Enabled(cfg, s, a)
    requires a.Ask? || a.EnterApplying? || a.SendRequest? || a.Refuse? || a.AskForDead? || a.Raise? || a.Crash?
    ensures Fenced(Next(cfg, s, a))
  {
    assert Holds(s, a.w);
    FencedFrame(s, Next(cfg, s, a), a.w);
  }

  lemma FinishKeepsFence(cfg: Config, s: State, w: Owner, attempt: Attempt)
    requires Fenced(s) && Enabled(cfg, s, Finish(w, attempt))
    ensures Fenced(Next(cfg, s, Finish(w, attempt)))
  {
    PhaseSoundness(attempt, cfg.movesMoney);
    assert Holds(s, w);
    FencedFrame(s, Next(cfg, s, Finish(w, attempt)), w);
  }

  lemma TargetKeepsFence(s: State, s': State)
    requires Fenced(s) && s' == s.(records := s'.records, inflight := s'.inflight)
    ensures Fenced(s')
  {
    forall w ensures Holds(s', w) { assert Holds(s, w); }
  }

  lemma FencedStep(cfg: Config, s: State, a: Action)
    requires Fenced(s) && Enabled(cfg, s, a)
    ensures Fenced(Next(cfg, s, a))
  {
    hide Fenced, PrecheckStep, SettleStep, RecoveryStep;
    match a
    case Admit(_) => GrantKeepsFence(cfg, s, a);
    case RetryClaim(_) => GrantKeepsFence(cfg, s, a);
    case CommitPrecheck(w) => PrecheckKeepsFence(s, w, At(s, w).token, At(s, w).stage.verdict);
    case Settle(w) => SettleKeepsFence(s, w, At(s, w).token, At(s, w).stage.send, At(s, w).stage.outcome);
    case CommitRecovery(w) => RecoveryKeepsFence(cfg, s, w, At(s, w).owner, At(s, w).seen, At(s, w).verdict);
    case Finish(w, attempt) => FinishKeepsFence(cfg, s, w, attempt);
    case Deliver(_) => TargetKeepsFence(s, Next(cfg, s, a));
    case Lose => TargetKeepsFence(s, Next(cfg, s, a));
    case _ => QuietKeepsFence(cfg, s, a);
  }

  /** The target only gains records behind its first one. */
  predicate RecordsGrow(s: State, s': State) {
    s.records <= s'.records
  }

  lemma LedgerFrame(s: State, s': State, v: Owner)
    requires LedgerBehindTarget(s) && RecordsGrow(s, s')
    requires s'.pcs == s.pcs[v := At(s', v)] && Informed(s', v)
    requires s'.executions == s.executions || (|s'.executions| == |s.executions| + 1
      && s'.executions[..|s.executions|] == s.executions && Backed(s', s'.executions[|s.executions|]))
    requires s'.caseMoved ==> s.caseMoved || s'.records != []
    requires IsApplied(s') ==> IsApplied(s) || Evidenced(s')
    ensures LedgerBehindTarget(s')
  {
    forall w ensures Informed(s', w) { assert Informed(s, w); }
    forall i | 0 <= i < |s'.executions| ensures Backed(s', s'.executions[i]) {
      if i < |s.executions| { assert s'.executions[i] == s.executions[i]; }
    }
    if IsApplied(s) {
      var i :| 0 <= i < |s.executions| && s.executions[i].auditRef == Some(s.records[0]);
      assert s'.executions[i] == s.executions[i];
    }
  }

  lemma PrecheckKeepsLedger(s: State, w: Owner, token: nat, v: Verdict)
    requires Fenced(s) && LedgerBehindTarget(s) && At(s, w) == Working(token, Prechecked(v))
    ensures LedgerBehindTarget(PrecheckStep(s, w, token, v))
  {
    var s' := PrecheckStep(s, w, token, v);
    assert Holds(s, w) && Informed(s, w);
    if v.Present? { assert s'.executions[|s.executions|].auditRef == Some(s'.records[0]); }
    LedgerFrame(s, s', w);
  }

  lemma SettleKeepsLedger(s: State, w: Owner, token: nat, send: Send, o: Outcome)
    requires Fenced(s) && LedgerBehindTarget(s) && At(s, w) == Working(token, Concluded(send, o))
    ensures LedgerBehindTarget(SettleStep(s, w, token, o))
  {
    var s' := SettleStep(s, w, token, o);
    assert Holds(s, w) && Informed(s, w);
    assert s'.executions[|s.executions|] == Execution(o.code, o.auditRef, o.moneyMoved);
    LedgerFrame(s, s', w);
  }

  /** A confirmed claim is evidenced by the row recovery adds, or by the one it found. */
  lemma ConfirmingIsEvidence(s: State, r: Ref, moved: bool)
    requires LedgerBehindTarget(s) && IsRecord(s, r)
    ensures Recorded(s.executions) ==> Evidenced(s)
    ensures !Recorded(s.executions) ==>
      Evidenced(s.(executions := s.executions + [Execution(Completed, Some(r), moved)]))
  {
    if Recorded(s.executions) {
      var i :| 0 <= i < |s.executions| && s.executions[i].code in {Completed, AlreadyApplied};
      assert Backed(s, s.executions[i]);
    } else {
      assert (s.executions + [Execution(Completed, Some(r), moved)])[|s.executions|].auditRef == Some(s.records[0]);
    }
  }

  lemma RecoveryKeepsLedger(cfg: Config, s: State, w: Owner, owner: Owner, seen: nat, v: Verdict)
    requires Fenced(s) && LedgerBehindTarget(s) && At(s, w) == Recovering(owner, seen, v)
    ensures LedgerBehindTarget(RecoveryStep(cfg, s, w, owner, seen, v))
  {
    hide Fenced, Recorded;
    var s' := RecoveryStep(cfg, s, w, owner, seen, v);
    assert Informed(s, w);
    if v.Present? {
      ConfirmingIsEvidence(s, v.ref, cfg.movesMoney);
      hide Evidenced;
      LedgerFrame(s, s', w);
    } else {
      assert IsApplied(s') ==> IsApplied(s);
      LedgerFrame(s, s', w);
    }
  }

  lemma GrantKeepsLedger(cfg: Config, s: State, a: Action)
    requires LedgerBehindTarget(s) && Enabled(cfg, s, a) && (a.Admit? || a.RetryClaim?)
    ensures LedgerBehindTarget(Next(cfg, s, a))
  {
    LedgerFrame(s, Next(cfg, s, a), a.w);
  }

  lemma QuietKeepsLedger(cfg: Config, s: State, a: Action)
    requires Fenced(s) && LedgerBehindTarget(s) && Enabled(cfg, s, a)
    requires a.Ask? || a.EnterApplying? || a.SendRequest? || a.Refuse? || a.AskForDead? || a.Raise? || a.Crash?
    ensures LedgerBehindTarget(Next(cfg, s, a))
  {
    hide PrecheckStep, SettleStep, RecoveryStep;
    assert Holds(s, a.w);
    hide Fenced;
    LedgerFrame(s, Next(cfg, s, a), a.w);
  }

  lemma LedgerStep(cfg: Config, s: State, a: Action)
    requires Fenced(s) && LedgerBehindTarget(s) && Enabled(cfg, s, a)
    ensures LedgerBehindTarget(Next(cfg, s, a))
  {
    hide Fenced, PrecheckStep, SettleStep, RecoveryStep;
    match a
    case Admit(_) => GrantKeepsLedger(cfg, s, a);
    case RetryClaim(_) => GrantKeepsLedger(cfg, s, a);
    case CommitPrecheck(w) => PrecheckKeepsLedger(s, w, At(s, w).token, At(s, w).stage.verdict);
    case Settle(w) => SettleKeepsLedger(s, w, At(s, w).token, At(s, w).stage.send, At(s, w).stage.outcome);
    case CommitRecovery(w) => RecoveryKeepsLedger(cfg, s, w, At(s, w).owner, At(s, w).seen, At(s, w).verdict);
    case Finish(w, attempt) =>
      PhaseSoundness(attempt, cfg.movesMoney);
      LedgerFrame(s, Next(cfg, s, a), w);
    case Deliver(_) => TargetKeepsLedger(s, Next(cfg, s, a));
    case Lose => TargetKeepsLedger(s, Next(cfg, s, a));
    case _ => QuietKeepsLedger(cfg, s, a);
  }

  lemma TargetKeepsLedger(s: State, s': State)
    requires LedgerBehindTarget(s) && RecordsGrow(s, s')
    requires s' == s.(records := s'.records, inflight := s'.inflight)
    ensures LedgerBehindTarget(s')
  {
    forall w ensures Informed(s', w) { assert Informed(s, w); }
    forall i | 0 <= i < |s'.executions| ensures Backed(s', s'.executions[i]) { assert Backed(s, s.executions[i]); }
  }

  /** The claim is not newly open to a retry under a token someone may be recovering. */
  predicate NoOldTokenReopens(s: State, s': State) {
    s'.claim.Some? && s'.claim.value.status in {CLAIMED, APPLYING} ==>
      || (s.claim.Some? && s.claim.value.token == s'.claim.value.token && s.claim.value.status in {CLAIMED, APPLYING})
      || s'.claim.value.token > |s.issued|
  }

  lemma CleanFrame(cfg: Config, s: State, s': State, v: Owner)
    requires Fenced(s) && Fenced(s') && AtMostOneRequest(cfg, s)
    requires s'.pcs == s.pcs[v := At(s', v)] && s'.records == s.records && |s'.records| + s'.inflight <= 1
    requires Untouched(cfg, s) ==> Untouched(cfg, s') || (At(s, v).Working? && At(s', v).Working?)
    requires NoOldTokenReopens(s, s') && Clean(cfg, s', v)
    requires s'.claim == None || s'.claim.value.status in {CLAIMED, FAILED_RETRYABLE} ==> Untouched(cfg, s')
    ensures AtMostOneRequest(cfg, s')
  {
    forall w ensures Clean(cfg, s', w) {
      assert Clean(cfg, s, w) && Holds(s, w) && Holds(s', w) && Holds(s', v);
    }
  }

  lemma PrecheckKeepsClean(cfg: Config, s: State, w: Owner, token: nat, v: Verdict)
    requires Fenced(s) && AtMostOneRequest(cfg, s) && At(s, w) == Working(token, Prechecked(v))
    ensures AtMostOneRequest(cfg, PrecheckStep(s, w, token, v))
  {
    assert Holds(s, w) && Clean(cfg, s, w);
    PrecheckKeepsFence(s, w, token, v);
    CleanFrame(cfg, s, PrecheckStep(s, w, token, v), w);
  }

  lemma SettleKeepsClean(cfg: Config, s: State, w: Owner, token: nat, send: Send, o: Outcome)
    requires Fenced(s) && AtMostOneRequest(cfg, s) && At(s, w) == Working(token, Concluded(send, o))
    ensures AtMostOneRequest(cfg, SettleStep(s, w, token, o))
  {
    assert Holds(s, w) && Clean(cfg, s, w);
    SettleKeepsFence(s, w, token, send, o);
    CleanFrame(cfg, s, SettleStep(s, w, token, o), w);
  }

  lemma RecoveryKeepsClean(cfg: Config, s: State, w: Owner, owner: Owner, seen: nat, v: Verdict)
    requires Fenced(s) && AtMostOneRequest(cfg, s) && At(s, w) == Recovering(owner, seen, v)
    ensures AtMostOneRequest(cfg, RecoveryStep(cfg, s, w, owner, seen, v))
  {
    assert Holds(s, w) && Clean(cfg, s, w);
    RecoveryKeepsFence(cfg, s, w, owner, seen, v);
    CleanFrame(cfg, s, RecoveryStep(cfg, s, w, owner, seen, v), w);
  }

  lemma GrantKeepsClean(cfg: Config, s: State, a: Action)
    requires Fenced(s) && AtMostOneRequest(cfg, s) && Enabled(cfg, s, a) && (a.Admit? || a.RetryClaim?)
    ensures AtMostOneRequest(cfg, Next(cfg, s, a))
  {
    assert Holds(s, a.w) && Clean(cfg, s, a.w);
    GrantKeepsFence(cfg, s, a);
    CleanFrame(cfg, s, Next(cfg, s, a), a.w);
  }

  lemma QuietKeepsClean(cfg: Config, s: State, a: Action)
    requires cfg.prompt && Fenced(s) && AtMostOneRequest(cfg, s) && Enabled(cfg, s, a)
    requires a.Ask? || a.EnterApplying? || a.SendRequest? || a.Refuse? || a.AskForDead? || a.Raise? || a.Crash?
    ensures AtMostOneRequest(cfg, Next(cfg, s, a))
  {
    assert Holds(s, a.w) && Clean(cfg, s, a.w);
    QuietKeepsFence(cfg, s, a);
    CleanFrame(cfg, s, Next(cfg, s, a), a.w);
  }

  lemma CleanStep(cfg: Config, s: State, a: Action)
    requires cfg.prompt && Fenced(s) && AtMostOneRequest(cfg, s) && Enabled(cfg, s, a)
    ensures AtMostOneRequest(cfg, Next(cfg, s, a))
  {
    match a
    case Admit(_) => GrantKeepsClean(cfg, s, a);
    case RetryClaim(_) => GrantKeepsClean(cfg, s, a);
    case CommitPrecheck(w) => PrecheckKeepsClean(cfg, s, w, At(s, w).token, At(s, w).stage.verdict);
    case Settle(w) => SettleKeepsClean(cfg, s, w, At(s, w).token, At(s, w).stage.send, At(s, w).stage.outcome);
    case CommitRecovery(w) => RecoveryKeepsClean(cfg, s, w, At(s, w).owner, At(s, w).seen, At(s, w).verdict);
    case Finish(w, attempt) =>
      PhaseSoundness(attempt, cfg.movesMoney);
      FencedStep(cfg, s, a);
      assert Holds(s, w) && Clean(cfg, s, w);
      CleanFrame(cfg, s, Next(cfg, s, a), w);
    case Deliver(_) => NetworkKeepsClean(cfg, s, a);
    case Lose => NetworkKeepsClean(cfg, s, a);
    case _ => QuietKeepsClean(cfg, s, a);
  }

  lemma NetworkKeepsClean(cfg: Config, s: State, a: Action)
    requires AtMostOneRequest(cfg, s) && Enabled(cfg, s, a) && (a.Deliver? || a.Lose?)
    ensures AtMostOneRequest(cfg, Next(cfg, s, a))
  {
    forall w ensures Clean(cfg, Next(cfg, s, a), w) { assert Clean(cfg, s, w); }
  }

  lemma NeverSendsStep(cfg: Config, s: State, a: Action)
    requires NeverSends(s) && Enabled(cfg, s, a)
    ensures NeverSends(Next(cfg, s, a))
  {
    forall w ensures Barred(At(Next(cfg, s, a), w)) {
      assert Barred(At(s, w));
    }
  }
}
