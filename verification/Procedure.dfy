/**
 The Regulation E procedure of one case over its three effects: any number of concurrent or re-entered runs of the
 workflow, each of which may die anywhere, on top of the fenced effect protocol. One action per durable commit.
 */
module Procedure {
  import opened Prelude
  import opened Outcomes
  import opened Claims
  import opened Protocol
  import opened ProtocolSafety
  import Ledger

  datatype Capability = Chargeback | Credit | Notice

  datatype Effects = Effects(chargeback: State, credit: State, notice: State) {
    function Of(c: Capability): State {
      match c case Chargeback => chargeback case Credit => credit case Notice => notice
    }

    function With(c: Capability, s: State): Effects {
      match c
      case Chargeback => this.(chargeback := s)
      case Credit => this.(credit := s)
      case Notice => this.(notice := s)
    }
  }

  /**
   Where a run of the workflow stands; `done` is the snapshot of completed capabilities it took when it (re)started.
   */
  datatype Stage =
    | Entered
    | Opening
    | Resuming
    | Obliged
    | Ready(done: set<Capability>)
    | InEngine(c: Capability, done: set<Capability>)
    | Past(c: Capability, done: set<Capability>)
    | CreditNoted(done: set<Capability>)
    | Succeeded
    | Halted
    | Dead

  /**
   The durable case: the NOTICE_2_DAY obligation and deadline, money_moved as set by the workflow, and the effects.
   */
  datatype World = World(
    onFile: bool,
    obligation: Option<Ledger.ObligationStatus>,
    deadline: Option<Ledger.DeadlineStatus>,
    markedMoved: bool,
    effects: Effects,
    stages: map<Owner, Stage>)

  datatype ProcMove =
    | Look(w: Owner)
    | OpenCase(w: Owner)
    | FinishResume(w: Owner)
    | TakeSnapshot(w: Owner)
    | Start(w: Owner, c: Capability)
    | Skip(w: Owner, c: Capability)
    | EngineReturns(w: Owner)
    | NoteCredit(w: Owner, mark: bool)
    | SettleNotice(w: Owner)
    | Stop(w: Owner)
    | Die(w: Owner)
    | Lapse
    | Effect(c: Capability, a: Action)

  datatype Configs = Configs(chargeback: Config, credit: Config, notice: Config) {
    function Of(c: Capability): Config {
      match c case Chargeback => chargeback case Credit => credit case Notice => notice
    }
  }

  function Begin(cfgs: Configs): World {
    World(false, None, None, false, Effects(Init(cfgs.chargeback), Init(cfgs.credit), Init(cfgs.notice)), map[])
  }

  function StageOf(W: World, w: Owner): Stage {
    if w in W.stages then W.stages[w] else Entered
  }

  function Advance(W: World, w: Owner, stage: Stage): World {
    W.(stages := W.stages[w := stage])
  }

  /** The stage from which effect c comes next. */
  predicate Before(stage: Stage, c: Capability) {
    match c
    case Chargeback => stage.Ready?
    case Credit => stage.Past? && stage.c == Chargeback
    case Notice => stage.CreditNoted?
  }

  function SnapshotOf(stage: Stage): set<Capability>
    requires stage.Ready? || stage.InEngine? || stage.Past? || stage.CreditNoted?
  {
    stage.done
  }

  /** A worker admits and drives an effect only inside its engine call, and recovers others' claims only on resume. */
  predicate Permitted(W: World, c: Capability, a: Action) {
    match a
    case Deliver(_) => true
    case Lose => true
    case Crash(_) => false
    case AskForDead(w, _) => StageOf(W, w).Resuming?
    case CommitRecovery(w) => StageOf(W, w).Resuming?
    case _ => StageOf(W, a.w).InEngine? && StageOf(W, a.w).c == c
  }

  ghost predicate MayMove(cfgs: Configs, W: World, m: ProcMove) {
    match m
    case Look(w) => StageOf(W, w).Entered?
    case OpenCase(w) => StageOf(W, w).Opening?
    case FinishResume(w) => StageOf(W, w).Resuming?
    case TakeSnapshot(w) => StageOf(W, w).Obliged?
    case Start(w, c) => Before(StageOf(W, w), c) && c !in SnapshotOf(StageOf(W, w))
    case Skip(w, c) => Before(StageOf(W, w), c) && c in SnapshotOf(StageOf(W, w))
    case EngineReturns(w) => StageOf(W, w).InEngine? && At(W.effects.Of(StageOf(W, w).c), w).Done?
    case NoteCredit(w, _) => StageOf(W, w).Past? && StageOf(W, w).c == Credit
    case SettleNotice(w) => StageOf(W, w).Past? && StageOf(W, w).c == Notice
    case Stop(w) => !StageOf(W, w).Dead? && !StageOf(W, w).Succeeded?
    case Die(w) => true
    case Lapse => W.deadline == Some(Ledger.PENDING)
    case Effect(c, a) => Permitted(W, c, a) && Enabled(cfgs.Of(c), W.effects.Of(c), a)
  }

  function Planning(o: Option<Ledger.ObligationStatus>): Option<Ledger.ObligationStatus> {
    if o == None then Some(Ledger.PLANNED) else o
  }

  function SnapshotCapabilities(e: Effects): set<Capability> {
    set c | c in {Chargeback, Credit, Notice} && CapabilityCompleted(e.Of(c))
  }

  function Kill(e: Effects, w: Owner): Effects {
    Effects(Protocol.Move(e.chargeback, w, Crashed), Protocol.Move(e.credit, w, Crashed),
            Protocol.Move(e.notice, w, Crashed))
  }

  ghost function After(cfgs: Configs, W: World, m: ProcMove): World
    requires MayMove(cfgs, W, m)
  {
    match m
    case Look(w) => Advance(W, w, if W.onFile then Resuming else Opening)
    case OpenCase(w) => Advance(W, w, Obliged).(onFile := true, obligation := Planning(W.obligation))
    case FinishResume(w) => Advance(W, w, Obliged).(obligation := Planning(W.obligation))
    case TakeSnapshot(w) => Advance(W, w, Ready(SnapshotCapabilities(W.effects)))
    case Start(w, c) =>
      if c == Credit && W.obligation == None then Advance(W, w, Halted)
      else Advance(W, w, InEngine(c, SnapshotOf(StageOf(W, w))))
    case Skip(w, c) => Advance(W, w, Past(c, SnapshotOf(StageOf(W, w))))
    case EngineReturns(w) =>
      var c := StageOf(W, w).c;
      Advance(W, w, if At(W.effects.Of(c), w).ok then Past(c, StageOf(W, w).done) else Halted)
    case NoteCredit(w, mark) =>
      if W.obligation == None then Advance(W, w, Halted)
      else Advance(W, w, CreditNoted(StageOf(W, w).done)).(
        obligation := if W.obligation == Some(Ledger.PLANNED) then Some(Ledger.ACTIVE) else W.obligation,
        deadline := if W.deadline == None then Some(Ledger.PENDING) else W.deadline,
        markedMoved := W.markedMoved || mark)
    case SettleNotice(w) =>
      if W.obligation == None then Advance(W, w, Halted)
      else Advance(W, w, Succeeded).(
        obligation := Some(Ledger.SATISFIED),
        deadline := if W.deadline == None then None else Some(Ledger.MET))
    case Stop(w) => Advance(W, w, Halted)
    case Die(w) => Advance(W, w, Dead).(effects := Kill(W.effects, w))
    case Lapse => W.(deadline := Some(Ledger.OVERDUE))
    case Effect(c, a) => W.(effects := W.effects.With(c, Next(cfgs.Of(c), W.effects.Of(c), a)))
  }

  ghost predicate Path(cfgs: Configs, W: World, run: seq<ProcMove>)
    decreases |run|
  {
    run == [] || (MayMove(cfgs, W, run[0]) && Path(cfgs, After(cfgs, W, run[0]), run[1..]))
  }

  ghost function Reach(cfgs: Configs, W: World, run: seq<ProcMove>): World
    requires Path(cfgs, W, run)
    decreases |run|
  {
    if run == [] then W else Reach(cfgs, After(cfgs, W, run[0]), run[1..])
  }

  // ---------------------------------------------------------------------------------------------------------------

  predicate Applied(W: World, c: Capability) { IsApplied(W.effects.Of(c)) }

  predicate Claimed(W: World, c: Capability) { W.effects.Of(c).claim.Some? }

  predicate Activated(W: World) { W.obligation.Some? && W.obligation.value != Ledger.PLANNED }

  predicate Noted(W: World) {
    Applied(W, Credit) && Activated(W) && W.deadline.Some?
  }

  /** The order the regulation imposes on what is durable, before effect c may be claimed. */
  predicate ReadyFor(W: World, c: Capability) {
    && W.obligation.Some?
    && (c != Chargeback ==> Applied(W, Chargeback))
    && (c == Notice ==> Noted(W))
  }

  predicate Settled(W: World) {
    && (forall c: Capability :: Applied(W, c))
    && W.obligation == Some(Ledger.SATISFIED) && W.deadline == Some(Ledger.MET)
  }

  predicate SnapshotOk(W: World, done: set<Capability>) {
    forall c :: c in done ==> Applied(W, c)
  }

  predicate StageOk(W: World, w: Owner) {
    match StageOf(W, w)
    case Obliged => W.obligation.Some?
    case Ready(done) => W.obligation.Some? && SnapshotOk(W, done)
    case InEngine(c, done) => ReadyFor(W, c) && SnapshotOk(W, done)
    case Past(c, done) => ReadyFor(W, c) && Applied(W, c) && SnapshotOk(W, done)
    case CreditNoted(done) => ReadyFor(W, Notice) && SnapshotOk(W, done)
    case Succeeded => Settled(W)
    case _ => true
  }

  ghost predicate ProcInv(cfgs: Configs, W: World) {
    && (forall c: Capability :: Inv(cfgs.Of(c), W.effects.Of(c)))
    && (forall c: Capability :: Claimed(W, c) ==> ReadyFor(W, c))
    && (W.markedMoved ==> Applied(W, Credit))
    && (forall w :: StageOk(W, w))
  }

  /** Every fact a later step relies on survives. */
  ghost predicate Keeps(W: World, W': World) {
    && (W.obligation.Some? ==> W'.obligation.Some?)
    && (Activated(W) ==> Activated(W'))
    && (W.obligation == Some(Ledger.SATISFIED) ==> W'.obligation == Some(Ledger.SATISFIED))
    && (W.deadline.Some? ==> W'.deadline.Some?)
    && (W.deadline == Some(Ledger.MET) ==> W'.deadline == Some(Ledger.MET))
    && (forall c: Capability :: Applied(W, c) ==> Applied(W', c))
  }

  lemma KeepsStage(W: World, W': World, w: Owner)
    requires StageOk(W, w) && Keeps(W, W') && StageOf(W', w) == StageOf(W, w)
    ensures StageOk(W', w)
  {
  }

  /** A step that leaves the effects alone and moves one worker. */
  lemma WorkflowFrame(cfgs: Configs, W: World, W': World, w: Owner)
    requires ProcInv(cfgs, W) && Keeps(W, W') && W'.effects == W.effects
    requires W'.stages == W.stages[w := StageOf(W', w)] && StageOk(W', w)
    requires W'.markedMoved ==> Applied(W, Credit)
    ensures ProcInv(cfgs, W')
  {
    forall v ensures StageOk(W', v) {
      assert StageOk(W, v);
      if v != w { KeepsStage(W, W', v); }
    }
    forall c: Capability ensures Claimed(W', c) ==> ReadyFor(W', c) { assert Claimed(W, c) ==> ReadyFor(W, c); }
  }

  lemma WorkflowStep(cfgs: Configs, W: World, m: ProcMove)
    requires ProcInv(cfgs, W) && MayMove(cfgs, W, m)
    requires m.Look? || m.OpenCase? || m.FinishResume? || m.Stop?
    ensures ProcInv(cfgs, After(cfgs, W, m))
  {
    assert StageOk(W, m.w);
    WorkflowFrame(cfgs, W, After(cfgs, W, m), m.w);
  }

  lemma StartStep(cfgs: Configs, W: World, w: Owner, c: Capability)
    requires ProcInv(cfgs, W) && MayMove(cfgs, W, Start(w, c))
    ensures ProcInv(cfgs, After(cfgs, W, Start(w, c)))
  {
    assert StageOk(W, w);
    WorkflowFrame(cfgs, W, After(cfgs, W, Start(w, c)), w);
  }

  lemma SkipStep(cfgs: Configs, W: World, w: Owner, c: Capability)
    requires ProcInv(cfgs, W) && MayMove(cfgs, W, Skip(w, c))
    ensures ProcInv(cfgs, After(cfgs, W, Skip(w, c)))
  {
    assert StageOk(W, w);
    WorkflowFrame(cfgs, W, After(cfgs, W, Skip(w, c)), w);
  }

  lemma SettlingStep(cfgs: Configs, W: World, m: ProcMove)
    requires ProcInv(cfgs, W) && MayMove(cfgs, W, m) && (m.NoteCredit? || m.SettleNotice?)
    ensures ProcInv(cfgs, After(cfgs, W, m))
  {
    assert StageOk(W, m.w);
    WorkflowFrame(cfgs, W, After(cfgs, W, m), m.w);
  }

  lemma SnapshotStep(cfgs: Configs, W: World, w: Owner)
    requires ProcInv(cfgs, W) && MayMove(cfgs, W, TakeSnapshot(w))
    ensures ProcInv(cfgs, After(cfgs, W, TakeSnapshot(w)))
  {
    assert StageOk(W, w);
    forall c | c in SnapshotCapabilities(W.effects) ensures Applied(W, c) {
      assert Inv(cfgs.Of(c), W.effects.Of(c));
    }
    WorkflowFrame(cfgs, W, After(cfgs, W, TakeSnapshot(w)), w);
  }

  lemma ReturnStep(cfgs: Configs, W: World, w: Owner)
    requires ProcInv(cfgs, W) && MayMove(cfgs, W, EngineReturns(w))
    ensures ProcInv(cfgs, After(cfgs, W, EngineReturns(w)))
  {
    assert StageOk(W, w);
    var c := StageOf(W, w).c;
    assert Inv(cfgs.Of(c), W.effects.Of(c));
    assert Holds(W.effects.Of(c), w);
    WorkflowFrame(cfgs, W, After(cfgs, W, EngineReturns(w)), w);
  }

  lemma DeathStep(cfgs: Configs, W: World, w: Owner)
    requires ProcInv(cfgs, W)
    ensures ProcInv(cfgs, After(cfgs, W, Die(w)))
  {
    var W' := After(cfgs, W, Die(w));
    forall c: Capability ensures Inv(cfgs.Of(c), W'.effects.Of(c)) {
      assert Inv(cfgs.Of(c), W.effects.Of(c));
      InvStep(cfgs.Of(c), W.effects.Of(c), Crash(w));
    }
    forall c: Capability ensures Applied(W, c) == Applied(W', c) && Claimed(W, c) == Claimed(W', c) {}
    forall v ensures StageOk(W', v) {
      assert StageOk(W, v);
      if v != w { KeepsStage(W, W', v); }
    }
    forall c: Capability ensures Claimed(W', c) ==> ReadyFor(W', c) { assert Claimed(W, c) ==> ReadyFor(W, c); }
  }

  /** Other effects are untouched, this one keeps what was applied, and it is claimed only when its turn has come. */
  lemma EffectFrame(cfgs: Configs, W: World, c: Capability, s': State)
    requires ProcInv(cfgs, W) && Inv(cfgs.Of(c), s') && Advances(W.effects.Of(c), s')
    requires s'.claim.Some? && !Claimed(W, c) ==> ReadyFor(W, c)
    ensures ProcInv(cfgs, W.(effects := W.effects.With(c, s')))
  {
    var W' := W.(effects := W.effects.With(c, s'));
    forall d: Capability ensures W'.effects.Of(d) == if d == c then s' else W.effects.Of(d) {}
    forall d: Capability ensures Inv(cfgs.Of(d), W'.effects.Of(d)) { assert Inv(cfgs.Of(d), W.effects.Of(d)); }
    assert Keeps(W, W');
    FactsKept(cfgs, W, W');
  }

  lemma EffectStep(cfgs: Configs, W: World, c: Capability, a: Action)
    requires ProcInv(cfgs, W) && MayMove(cfgs, W, Effect(c, a))
    ensures ProcInv(cfgs, After(cfgs, W, Effect(c, a)))
  {
    var s, s' := W.effects.Of(c), Next(cfgs.Of(c), W.effects.Of(c), a);
    assert Inv(cfgs.Of(c), s);
    InvStep(cfgs.Of(c), s, a);
    AdvanceStep(cfgs.Of(c), s, a);
    if s'.claim.Some? && !Claimed(W, c) {
      OnlyAdmitClaims(cfgs.Of(c), s, a);
      assert StageOk(W, a.w);
    }
    EffectFrame(cfgs, W, c, s');
  }

  /** A step that moves no worker and keeps every fact keeps the invariant. */
  lemma FactsKept(cfgs: Configs, W: World, W': World)
    requires ProcInv(cfgs, W) && Keeps(W, W') && W'.stages == W.stages && W'.markedMoved == W.markedMoved
    requires forall d: Capability :: Inv(cfgs.Of(d), W'.effects.Of(d))
    requires forall d: Capability :: Claimed(W', d) && !Claimed(W, d) ==> ReadyFor(W, d)
    ensures ProcInv(cfgs, W')
  {
    forall d: Capability ensures Claimed(W', d) ==> ReadyFor(W', d) { assert Claimed(W, d) ==> ReadyFor(W, d); }
    forall v ensures StageOk(W', v) {
      assert StageOk(W, v);
      KeepsStage(W, W', v);
    }
  }

  lemma OnlyAdmitClaims(cfg: Config, s: State, a: Action)
    requires Inv(cfg, s) && Enabled(cfg, s, a) && s.claim == None && Next(cfg, s, a).claim.Some?
    ensures a.Admit?
  {
    if !a.Deliver? && !a.Lose? { assert Holds(s, a.w); }
  }

  lemma ProcStep(cfgs: Configs, W: World, m: ProcMove)
    requires ProcInv(cfgs, W) && MayMove(cfgs, W, m)
    ensures ProcInv(cfgs, After(cfgs, W, m))
  {
    match m
    case Effect(c, a) => EffectStep(cfgs, W, c, a);
    case Die(w) => DeathStep(cfgs, W, w);
    case EngineReturns(w) => ReturnStep(cfgs, W, w);
    case TakeSnapshot(w) => SnapshotStep(cfgs, W, w);
    case Lapse => FactsKept(cfgs, W, After(cfgs, W, m));
    case Start(w, c) => StartStep(cfgs, W, w, c);
    case Skip(w, c) => SkipStep(cfgs, W, w, c);
    case NoteCredit(_, _) => SettlingStep(cfgs, W, m);
    case SettleNotice(_) => SettlingStep(cfgs, W, m);
    case _ => WorkflowStep(cfgs, W, m);
  }

  lemma {:induction false} ProcRun(cfgs: Configs, W: World, run: seq<ProcMove>)
    requires ProcInv(cfgs, W) && Path(cfgs, W, run)
    ensures ProcInv(cfgs, Reach(cfgs, W, run))
    decreases |run|
  {
    if run != [] {
      ProcStep(cfgs, W, run[0]);
      ProcRun(cfgs, After(cfgs, W, run[0]), run[1..]);
    }
  }

  lemma ProcReachable(cfgs: Configs, run: seq<ProcMove>)
    requires Path(cfgs, Begin(cfgs), run)
    ensures ProcInv(cfgs, Reach(cfgs, Begin(cfgs), run))
  {
    var W := Begin(cfgs);
    forall c: Capability ensures Inv(cfgs.Of(c), W.effects.Of(c)) && !Claimed(W, c) { InvInit(cfgs.Of(c)); }
    ProcRun(cfgs, W, run);
  }

  /** A record of the effect that Tandem's own requests put there. */
  predicate Landed(cfgs: Configs, W: World, c: Capability) {
    W.effects.Of(c).records != Seed(cfgs.Of(c))
  }

  /**
   Obligation before money, money before notice: in every durable state of every run, a claim or an effect of one
   capability implies that everything due before it is durable and confirmed.
   */
  lemma OrderIsDurable(cfgs: Configs, run: seq<ProcMove>)
    requires Path(cfgs, Begin(cfgs), run)
    ensures var W := Reach(cfgs, Begin(cfgs), run);
      && (Claimed(W, Credit) || Landed(cfgs, W, Credit) ==> W.obligation.Some? && Applied(W, Chargeback))
      && (Claimed(W, Notice) || Landed(cfgs, W, Notice) ==>
            Applied(W, Credit) && Applied(W, Chargeback) && W.obligation != Some(Ledger.PLANNED))
      && (Claimed(W, Chargeback) || Landed(cfgs, W, Chargeback) ==> W.obligation.Some?)
  {
    ProcReachable(cfgs, run);
    var W := Reach(cfgs, Begin(cfgs), run);
    forall c: Capability ensures Landed(cfgs, W, c) ==> Claimed(W, c) { assert Inv(cfgs.Of(c), W.effects.Of(c)); }
    forall c: Capability ensures Claimed(W, c) ==> ReadyFor(W, c) {}
  }

  /**
   However often runs died before, one that returns SUCCESS leaves each effect applied once and the notice settled.
   */
  lemma SuccessIsComplete(cfgs: Configs, run: seq<ProcMove>, w: Owner)
    requires Path(cfgs, Begin(cfgs), run) && StageOf(Reach(cfgs, Begin(cfgs), run), w) == Succeeded
    ensures var W := Reach(cfgs, Begin(cfgs), run);
      && Settled(W)
      && (forall c: Capability :: Evidenced(W.effects.Of(c)))
      && (forall c: Capability :: cfgs.Of(c).dedup || cfgs.Of(c).prompt || cfgs.Of(c).seed.Some? ==>
            |W.effects.Of(c).records| == 1)
  {
    ProcReachable(cfgs, run);
    var W := Reach(cfgs, Begin(cfgs), run);
    assert StageOk(W, w);
    forall c: Capability
      ensures Evidenced(W.effects.Of(c))
      ensures cfgs.Of(c).dedup || cfgs.Of(c).prompt || cfgs.Of(c).seed.Some? ==> |W.effects.Of(c).records| == 1
    {
      assert Applied(W, c) && Inv(cfgs.Of(c), W.effects.Of(c));
    }
  }

  /** money_moved, by whichever path it was set, is backed by a credit at the target. */
  lemma MoneyMovedIsReal(cfgs: Configs, run: seq<ProcMove>)
    requires Path(cfgs, Begin(cfgs), run)
    ensures var W := Reach(cfgs, Begin(cfgs), run);
      W.markedMoved || W.effects.credit.caseMoved ==> W.effects.credit.records != []
  {
    ProcReachable(cfgs, run);
    assert Inv(cfgs.Of(Credit), Reach(cfgs, Begin(cfgs), run).effects.Of(Credit));
  }
}
