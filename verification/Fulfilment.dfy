/** Safety does not come from standing still: a run of the procedure that nothing disturbs goes through to success. */
module Fulfilment {
  import opened Prelude
  import opened Outcomes
  import opened Inquiry
  import opened Replay
  import opened Claims
  import opened Protocol
  import opened ProtocolSafety
  import opened Procedure
  import Ledger

  // ---------------------------------------------------------------------------------------------------------------
  // One effect
  // ---------------------------------------------------------------------------------------------------------------

  /** The request is accepted and the postcheck finds the record. */
  function Accepted(ref: Ref): Attempt {
    Attempt(HttpRequest(Dispatched(Replied(200, Present(ref)))), [], 1)
  }

  function Sending(w: Owner, ref: Ref): seq<Action> {
    [SendRequest(w), Deliver(ref), Finish(w, Accepted(ref))]
  }

  /** One worker's call: an effect that was there before is found, any other is sent. */
  function Drive(cfg: Config, w: Owner, ref: Ref): seq<Action> {
    if cfg.seed.Some? then [Admit(w), Ask(w, Present(cfg.seed.value)), CommitPrecheck(w)]
    else [Admit(w)] + (Approach(w) + (Sending(w, ref) + [Settle(w)]))
  }

  /** The effect is applied under its one record's reference, which the one execution has. */
  function Driven(cfg: Config, w: Owner, ref: Ref): State {
    var applied := Some(Claim(APPLIED, w, 1));
    match cfg.seed
    case Some(r) =>
      State(applied, [Protocol.Execution(AlreadyApplied, Some(r), false)], false, [r], 0, map[w := Done(true)], [w])
    case None =>
      State(applied, [Protocol.Execution(Completed, Some(ref), cfg.movesMoney)], cfg.movesMoney, [ref], 0,
            map[w := Done(true)], [w])
  }

  function Holding(w: Owner, pc: Pc, status: ClaimStatus, records: seq<Ref>, inflight: nat): State {
    State(Some(Claim(status, w, 1)), [], false, records, inflight, map[w := pc], [w])
  }

  lemma AcceptedConcludes(cfg: Config, ref: Ref)
    ensures var o := CommitOutcome(Accepted(ref), cfg.movesMoney);
      && o == Outcome(Success, Completed, SubmitConfirmed, cfg.movesMoney, Some(ref))
      && Deciding(Accepted(ref), cfg.movesMoney) == Some(Present(ref))
      && Actuated(Accepted(ref).transport) && !RefusedBeforeActing(Accepted(ref).transport)
  {
  }

  lemma FoundDrives(cfg: Config, w: Owner, ref: Ref)
    requires cfg.seed.Some?
    ensures Leads(cfg, Init(cfg), Drive(cfg, w, ref), Driven(cfg, w, ref))
  {
    ThreeSteps(cfg, Init(cfg), Admit(w), Ask(w, Present(cfg.seed.value)), CommitPrecheck(w));
  }

  lemma ApproachLeads(cfg: Config, w: Owner)
    ensures Leads(cfg, Holding(w, Working(1, Fresh), CLAIMED, [], 0), Approach(w),
                  Holding(w, Working(1, Applying(NotSent)), APPLYING, [], 0))
  {
    ThreeSteps(cfg, Holding(w, Working(1, Fresh), CLAIMED, [], 0), Ask(w, Absent), CommitPrecheck(w), EnterApplying(w));
  }

  lemma SendingLeads(cfg: Config, w: Owner, ref: Ref)
    ensures var o := Outcome(Success, Completed, SubmitConfirmed, cfg.movesMoney, Some(ref));
      Leads(cfg, Holding(w, Working(1, Applying(NotSent)), APPLYING, [], 0), Sending(w, ref),
            Holding(w, Working(1, Concluded(Sent, o)), APPLYING, [ref], 0))
  {
    hide CommitOutcome, Deciding, Actuated, RefusedBeforeActing;
    AcceptedConcludes(cfg, ref);
    ThreeSteps(cfg, Holding(w, Working(1, Applying(NotSent)), APPLYING, [], 0),
               SendRequest(w), Deliver(ref), Finish(w, Accepted(ref)));
  }

  lemma SettlingLeads(cfg: Config, w: Owner, ref: Ref)
    requires cfg.seed.None?
    ensures var o := Outcome(Success, Completed, SubmitConfirmed, cfg.movesMoney, Some(ref));
      Leads(cfg, Holding(w, Working(1, Concluded(Sent, o)), APPLYING, [ref], 0), [Settle(w)], Driven(cfg, w, ref))
  {
    var o := Outcome(Success, Completed, SubmitConfirmed, cfg.movesMoney, Some(ref));
    OneStep(cfg, Holding(w, Working(1, Concluded(Sent, o)), APPLYING, [ref], 0), Settle(w));
  }

  lemma SentDrives(cfg: Config, w: Owner, ref: Ref)
    requires cfg.seed.None?
    ensures Leads(cfg, Init(cfg), Drive(cfg, w, ref), Driven(cfg, w, ref))
  {
    hide Leads, Driven, Holding, Approach, Sending;
    var o := Outcome(Success, Completed, SubmitConfirmed, cfg.movesMoney, Some(ref));
    var held := Holding(w, Working(1, Fresh), CLAIMED, [], 0);
    var entered := Holding(w, Working(1, Applying(NotSent)), APPLYING, [], 0);
    var sent := Holding(w, Working(1, Concluded(Sent, o)), APPLYING, [ref], 0);
    AdmittedHolds(cfg, w);
    ApproachLeads(cfg, w);
    SendingLeads(cfg, w, ref);
    SettlingLeads(cfg, w, ref);
    LeadsOn(cfg, entered, Sending(w, ref), sent, [Settle(w)], Driven(cfg, w, ref));
    LeadsOn(cfg, held, Approach(w), entered, Sending(w, ref) + [Settle(w)], Driven(cfg, w, ref));
    LeadsOn(cfg, Init(cfg), [Admit(w)], held, Approach(w) + (Sending(w, ref) + [Settle(w)]), Driven(cfg, w, ref));
  }

  lemma AdmittedHolds(cfg: Config, w: Owner)
    requires cfg.seed.None?
    ensures Leads(cfg, Init(cfg), [Admit(w)], Holding(w, Working(1, Fresh), CLAIMED, [], 0))
  {
    OneStep(cfg, Init(cfg), Admit(w));
  }

  // ---------------------------------------------------------------------------------------------------------------
  // The procedure
  // ---------------------------------------------------------------------------------------------------------------

  ghost predicate Passes(cfgs: Configs, W: World, run: seq<ProcMove>, W': World) {
    Path(cfgs, W, run) && Reach(cfgs, W, run) == W'
  }

  lemma {:induction false} PassesOn(cfgs: Configs, W: World, p: seq<ProcMove>, W': World, q: seq<ProcMove>, W'': World)
    requires Passes(cfgs, W, p, W') && Passes(cfgs, W', q, W'')
    ensures Passes(cfgs, W, p + q, W'')
    decreases |p|
  {
    if p == [] {
      assert p + q == q;
    } else {
      assert (p + q)[1..] == p[1..] + q;
      PassesOn(cfgs, After(cfgs, W, p[0]), p[1..], W', q, W'');
    }
  }

  lemma OneMove(cfgs: Configs, W: World, m: ProcMove)
    requires MayMove(cfgs, W, m)
    ensures Passes(cfgs, W, [m], After(cfgs, W, m))
  {
    assert [m][1..] == [];
    assert Path(cfgs, After(cfgs, W, m), []);
  }

  function Lifted(c: Capability, acts: seq<Action>): seq<ProcMove> {
    seq(|acts|, i requires 0 <= i < |acts| => Effect(c, acts[i]))
  }

  /** What one worker's engine call does to its effect, seen from the procedure. */
  lemma {:induction false} EffectPasses(cfgs: Configs, W: World, w: Owner, c: Capability, acts: seq<Action>, s': State)
    requires StageOf(W, w).InEngine? && StageOf(W, w).c == c && Leads(cfgs.Of(c), W.effects.Of(c), acts, s')
    requires forall i :: 0 <= i < |acts| ==> Permitted(W, c, acts[i])
    ensures Passes(cfgs, W, Lifted(c, acts), W.(effects := W.effects.With(c, s')))
    decreases |acts|
  {
    if acts == [] {
      assert W.effects.With(c, W.effects.Of(c)) == W.effects;
    } else {
      var V := After(cfgs, W, Effect(c, acts[0]));
      EffectPasses(cfgs, V, w, c, acts[1..], s');
      OneMove(cfgs, W, Effect(c, acts[0]));
      assert Lifted(c, acts) == [Effect(c, acts[0])] + Lifted(c, acts[1..]);
      PassesOn(cfgs, W, [Effect(c, acts[0])], V, Lifted(c, acts[1..]), V.(effects := V.effects.With(c, s')));
    }
  }

  /** One worker alone, standing at a stage. */
  function Alone(w: Owner, stage: Procedure.Stage, obligation: Ledger.ObligationStatus,
                 deadline: Option<Ledger.DeadlineStatus>, marked: bool, effects: Effects): World
  {
    World(true, Some(obligation), deadline, marked, effects, map[w := stage])
  }

  function Carrying(cfgs: Configs, w: Owner, c: Capability, ref: Ref): seq<ProcMove> {
    [Start(w, c)] + (Lifted(c, Drive(cfgs.Of(c), w, ref)) + [EngineReturns(w)])
  }

  lemma DriveIsPermitted(cfg: Config, W: World, w: Owner, c: Capability, ref: Ref)
    requires StageOf(W, w).InEngine? && StageOf(W, w).c == c
    ensures forall i :: 0 <= i < |Drive(cfg, w, ref)| ==> Permitted(W, c, Drive(cfg, w, ref)[i])
  {
  }

  lemma StartPasses(cfgs: Configs, w: Owner, stage: Procedure.Stage, c: Capability, o: Ledger.ObligationStatus,
                    d: Option<Ledger.DeadlineStatus>, m: bool, effects: Effects)
    requires Before(stage, c) && SnapshotOf(stage) == {}
    ensures Passes(cfgs, Alone(w, stage, o, d, m, effects), [Start(w, c)],
                   Alone(w, InEngine(c, {}), o, d, m, effects))
  {
    hide Passes;
    OneMove(cfgs, Alone(w, stage, o, d, m, effects), Start(w, c));
    assert map[w := stage][w := InEngine(c, {})] == map[w := InEngine(c, {})];
  }

  lemma ReturnPasses(cfgs: Configs, w: Owner, c: Capability, o: Ledger.ObligationStatus,
                     d: Option<Ledger.DeadlineStatus>, m: bool, effects: Effects)
    requires At(effects.Of(c), w) == Done(true)
    ensures Passes(cfgs, Alone(w, InEngine(c, {}), o, d, m, effects), [EngineReturns(w)],
                   Alone(w, Past(c, {}), o, d, m, effects))
  {
    hide Passes;
    OneMove(cfgs, Alone(w, InEngine(c, {}), o, d, m, effects), EngineReturns(w));
    assert map[w := InEngine(c, {})][w := Past(c, {})] == map[w := Past(c, {})];
  }

  lemma CarryingPasses(cfgs: Configs, w: Owner, stage: Procedure.Stage, c: Capability, ref: Ref,
                       o: Ledger.ObligationStatus, d: Option<Ledger.DeadlineStatus>, m: bool, effects: Effects)
    requires Before(stage, c) && SnapshotOf(stage) == {} && effects.Of(c) == Init(cfgs.Of(c))
    ensures Passes(cfgs, Alone(w, stage, o, d, m, effects), Carrying(cfgs, w, c, ref),
                   Alone(w, Past(c, {}), o, d, m, effects.With(c, Driven(cfgs.Of(c), w, ref))))
  {
    hide Passes, Leads, Drive, Permitted, Init, Lifted;
    var drive, driven := Drive(cfgs.Of(c), w, ref), Driven(cfgs.Of(c), w, ref);
    var start, called := Alone(w, stage, o, d, m, effects), Alone(w, InEngine(c, {}), o, d, m, effects);
    var done := Alone(w, InEngine(c, {}), o, d, m, effects.With(c, driven));
    var past := Alone(w, Past(c, {}), o, d, m, effects.With(c, driven));
    StartPasses(cfgs, w, stage, c, o, d, m, effects);
    if cfgs.Of(c).seed.Some? { FoundDrives(cfgs.Of(c), w, ref); } else { SentDrives(cfgs.Of(c), w, ref); }
    DriveIsPermitted(cfgs.Of(c), called, w, c, ref);
    EffectPasses(cfgs, called, w, c, drive, driven);
    ReturnPasses(cfgs, w, c, o, d, m, effects.With(c, driven));
    PassesOn(cfgs, called, Lifted(c, drive), done, [EngineReturns(w)], past);
    PassesOn(cfgs, start, [Start(w, c)], called, Lifted(c, drive) + [EngineReturns(w)], past);
  }

  /** The references the three targets draw. */
  datatype Draws = Draws(chargeback: Ref, credit: Ref, notice: Ref)

  function Entering(w: Owner): seq<ProcMove> {
    [Look(w)] + ([OpenCase(w)] + [TakeSnapshot(w)])
  }

  /** A case from its first look to its success. */
  function Fulfilling(cfgs: Configs, w: Owner, draws: Draws): seq<ProcMove> {
    Entering(w) + (Carrying(cfgs, w, Chargeback, draws.chargeback) + (Carrying(cfgs, w, Credit, draws.credit)
      + ([NoteCredit(w, true)] + (Carrying(cfgs, w, Notice, draws.notice) + [SettleNotice(w)]))))
  }

  function Pristine(cfgs: Configs): Effects {
    Effects(Init(cfgs.chargeback), Init(cfgs.credit), Init(cfgs.notice))
  }

  lemma EnteringPasses(cfgs: Configs, w: Owner)
    ensures Passes(cfgs, Begin(cfgs), Entering(w),
                   Alone(w, Ready({}), Ledger.PLANNED, None, false, Pristine(cfgs)))
  {
    var looked := After(cfgs, Begin(cfgs), Look(w));
    var begun := Alone(w, Obliged, Ledger.PLANNED, None, false, Pristine(cfgs));
    var ready := Alone(w, Ready({}), Ledger.PLANNED, None, false, Pristine(cfgs));
    OneMove(cfgs, Begin(cfgs), Look(w));
    OneMove(cfgs, looked, OpenCase(w));
    assert After(cfgs, looked, OpenCase(w)) == begun;
    OneMove(cfgs, begun, TakeSnapshot(w));
    assert SnapshotCapabilities(Pristine(cfgs)) == {};
    assert After(cfgs, begun, TakeSnapshot(w)) == ready;
    PassesOn(cfgs, looked, [OpenCase(w)], begun, [TakeSnapshot(w)], ready);
    PassesOn(cfgs, Begin(cfgs), [Look(w)], looked, [OpenCase(w)] + [TakeSnapshot(w)], ready);
  }

  /** The case as a success leaves it: three effects applied, the notice's obligation satisfied and its deadline met. */
  function Fulfilled(cfgs: Configs, w: Owner, draws: Draws): World {
    Alone(w, Succeeded, Ledger.SATISFIED, Some(Ledger.MET), true,
          Effects(Driven(cfgs.chargeback, w, draws.chargeback), Driven(cfgs.credit, w, draws.credit),
                  Driven(cfgs.notice, w, draws.notice)))
  }

  /**
   Whatever the targets are like and whether or not they hold an effect already, a worker left to itself brings a new
   case to success: nothing in the ordering rules, the fence or the claims stands in the way of the ordinary run.
   */
  lemma UndisturbedRunSucceeds(cfgs: Configs, w: Owner, draws: Draws)
    ensures Passes(cfgs, Begin(cfgs), Fulfilling(cfgs, w, draws), Fulfilled(cfgs, w, draws))
  {
    hide Passes, Carrying, Entering, Driven;
    var e0 := Pristine(cfgs);
    var e1 := e0.With(Chargeback, Driven(cfgs.chargeback, w, draws.chargeback));
    var e2 := e1.With(Credit, Driven(cfgs.credit, w, draws.credit));
    var e3 := e2.With(Notice, Driven(cfgs.notice, w, draws.notice));
    var w0 := Alone(w, Ready({}), Ledger.PLANNED, None, false, e0);
    var w1 := Alone(w, Past(Chargeback, {}), Ledger.PLANNED, None, false, e1);
    var w2 := Alone(w, Past(Credit, {}), Ledger.PLANNED, None, false, e2);
    var w3 := Alone(w, CreditNoted({}), Ledger.ACTIVE, Some(Ledger.PENDING), true, e2);
    var w4 := Alone(w, Past(Notice, {}), Ledger.ACTIVE, Some(Ledger.PENDING), true, e3);
    var w5 := Fulfilled(cfgs, w, draws);
    EnteringPasses(cfgs, w);
    CarryingPasses(cfgs, w, Ready({}), Chargeback, draws.chargeback, Ledger.PLANNED, None, false, e0);
    CarryingPasses(cfgs, w, Past(Chargeback, {}), Credit, draws.credit, Ledger.PLANNED, None, false, e1);
    NotingPasses(cfgs, w, e2);
    CarryingPasses(cfgs, w, CreditNoted({}), Notice, draws.notice, Ledger.ACTIVE, Some(Ledger.PENDING), true, e2);
    SettlingPasses(cfgs, w, e3);
    var last := Carrying(cfgs, w, Notice, draws.notice) + [SettleNotice(w)];
    PassesOn(cfgs, w3, Carrying(cfgs, w, Notice, draws.notice), w4, [SettleNotice(w)], w5);
    PassesOn(cfgs, w2, [NoteCredit(w, true)], w3, last, w5);
    PassesOn(cfgs, w1, Carrying(cfgs, w, Credit, draws.credit), w2, [NoteCredit(w, true)] + last, w5);
    var rest := Carrying(cfgs, w, Credit, draws.credit) + ([NoteCredit(w, true)] + last);
    PassesOn(cfgs, w0, Carrying(cfgs, w, Chargeback, draws.chargeback), w1, rest, w5);
    PassesOn(cfgs, Begin(cfgs), Entering(w), w0, Carrying(cfgs, w, Chargeback, draws.chargeback) + rest, w5);
  }

  lemma NotingPasses(cfgs: Configs, w: Owner, effects: Effects)
    ensures Passes(cfgs, Alone(w, Past(Credit, {}), Ledger.PLANNED, None, false, effects), [NoteCredit(w, true)],
                   Alone(w, CreditNoted({}), Ledger.ACTIVE, Some(Ledger.PENDING), true, effects))
  {
    OneMove(cfgs, Alone(w, Past(Credit, {}), Ledger.PLANNED, None, false, effects), NoteCredit(w, true));
  }

  lemma SettlingPasses(cfgs: Configs, w: Owner, effects: Effects)
    ensures Passes(cfgs, Alone(w, Past(Notice, {}), Ledger.ACTIVE, Some(Ledger.PENDING), true, effects),
                   [SettleNotice(w)], Alone(w, Succeeded, Ledger.SATISFIED, Some(Ledger.MET), true, effects))
  {
    OneMove(cfgs, Alone(w, Past(Notice, {}), Ledger.ACTIVE, Some(Ledger.PENDING), true, effects), SettleNotice(w));
  }
}
