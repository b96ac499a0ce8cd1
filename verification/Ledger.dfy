/**
 The ledger of one dispute case as values: its projection tables, the facts its event stream records, what every
 repository operation does to both, and the fold that rebuilds the tables from the facts alone.
 */
module Ledger {
  import opened Prelude
  import opened Outcomes
  import opened Claims

  type Instant = int
  type Cents = int

  datatype CaseRow = CaseRow(
    member: string, procedure: string, amount: Cents, currency: string, status: string, moneyMoved: bool)

  /** What an execution row holds when it starts, and what completing it adds. */
  datatype Opening = Opening(
    capability: string, version: string, effectClass: string, key: Option<string>, expectedEntity: Option<string>,
    expectedAmount: Option<Cents>, actor: string, browserSession: Option<string>, startedAt: Instant)

  datatype Completion = Completion(
    status: string, observedEntity: Option<string>, observedAmount: Option<Cents>, failureCategory: Option<string>,
    auditRef: Option<string>, moneyMoved: bool, completedAt: Instant)

  /** RUNNING while there is no completion. */
  datatype Execution = Execution(opening: Opening, completion: Option<Completion>)

  datatype Intent = Intent(capability: string, committed: bool, createdAt: Instant)

  datatype Identity = Identity(
    institution: string, procedure: string, capability: string, member: string, account: string,
    amount: Cents, currency: string, reference: string)

  datatype ClaimRow = ClaimRow(
    identity: Identity, fence: Claim, claimedAt: Instant, heartbeatAt: Instant, expiresAt: Instant, updatedAt: Instant)

  datatype DeadlineStatus = PENDING | MET | OVERDUE

  datatype Deadline = Deadline(dueAt: Instant, status: DeadlineStatus, resolvedAt: Option<Instant>)

  datatype ObligationStatus = PLANNED | ACTIVE | SATISFIED

  datatype Obligation = Obligation(
    dueAt: Instant, status: ObligationStatus, createdAt: Instant, activatedAt: Option<Instant>,
    satisfiedAt: Option<Instant>)

  /** Event types with their payloads; `Note` is every type that describes no table. */
  datatype Fact =
    | CaseCreated(dispute: CaseRow)
    | StatusUpdated(status: string, moneyMoved: bool)
    | MoneyMoved
    | ExecutionStarted(id: nat, opening: Opening)
    | ExecutionCompleted(id: nat, completion: Completion)
    | IntentStaged(key: string, intent: Intent)
    | IntentCommitted(key: string)
    | EffectClaimed(key: string, row: ClaimRow)
    | ClaimTransitioned(key: string, fence: Claim, at: Instant)
    | DeadlineCreated(kind: string, dueAt: Instant)
    | DeadlineResolved(kind: string, at: Instant)
    | DeadlineLapsed(kind: string)
    | ObligationCreated(kind: string, obligation: Obligation)
    | ObligationActivated(kind: string, at: Instant)
    | ObligationSatisfied(kind: string, at: Instant)
    | Note(name: string)

  /** The projection tables, in row order where `snapshot_projections` orders by id. `order` lists the deadlines. */
  datatype Tables = Tables(
    dispute: CaseRow, executions: seq<Execution>, intents: map<string, Intent>, claims: map<string, ClaimRow>,
    deadlines: map<string, Deadline>, order: seq<string>, obligations: map<string, Obligation>)

  // ---------------------------------------------------------------------------------------------------------------
  // Rebuilding
  // ---------------------------------------------------------------------------------------------------------------

  datatype IntegrityError =
    BrokenChain(sequence: int) | NoCaseCreated | NoCaseAnchor | NoStartEvent(id: nat) | NoSource(name: string)

  /** Tables under reconstruction; `sources` are the execution ids the start events recorded. */
  datatype Projection = Projection(tables: Tables, sources: seq<nat>)

  /** The last position of an id, as a dictionary keyed by id would return it. */
  function Find(ids: seq<nat>, id: nat): (at: Option<nat>)
    ensures at.Some? ==> at.value < |ids| && ids[at.value] == id
    ensures at.None? ==> id !in ids
  {
    if ids == [] then None
    else if ids[|ids| - 1] == id then Some(|ids| - 1)
    else Find(ids[..|ids| - 1], id)
  }

  function Blank(anchor: CaseRow): Projection {
    Projection(Tables(anchor, [], map[], map[], map[], [], map[]), [])
  }

  function Apply(p: Projection, fact: Fact): (r: Result<Projection, IntegrityError>)
    requires |p.sources| == |p.tables.executions|
    ensures r.Ok? ==> |r.value.sources| == |r.value.tables.executions|
  {
    var t := p.tables;
    match fact
    case CaseCreated(row) => Ok(p.(tables := t.(dispute := row)))
    case StatusUpdated(status, moved) =>
      Ok(p.(tables := t.(dispute := t.dispute.(status := status, moneyMoved := moved))))
    case MoneyMoved => Ok(p.(tables := t.(dispute := t.dispute.(moneyMoved := true))))
    case ExecutionStarted(id, opening) =>
      Ok(Projection(t.(executions := t.executions + [Execution(opening, None)]), p.sources + [id]))
    case ExecutionCompleted(id, completion) =>
      (match Find(p.sources, id)
       case None => Err(NoStartEvent(id))
       case Some(i) =>
         Ok(p.(tables := t.(executions := t.executions[i := t.executions[i].(completion := Some(completion))]))))
    case IntentStaged(key, intent) => Ok(p.(tables := t.(intents := t.intents[key := intent])))
    case IntentCommitted(key) =>
      if key !in t.intents then Err(NoSource(key))
      else Ok(p.(tables := t.(intents := t.intents[key := t.intents[key].(committed := true)])))
    case EffectClaimed(key, row) => Ok(p.(tables := t.(claims := t.claims[key := row])))
    case ClaimTransitioned(key, fence, at) =>
      if key !in t.claims then Err(NoSource(key))
      else
        var row := t.claims[key].(fence := fence, heartbeatAt := at, updatedAt := at);
        Ok(p.(tables := t.(claims := t.claims[key := row])))
    case DeadlineCreated(kind, dueAt) =>
      Ok(p.(tables := t.(deadlines := t.deadlines[kind := Deadline(dueAt, PENDING, None)], order := t.order + [kind])))
    case DeadlineResolved(kind, at) =>
      if kind !in t.deadlines then Err(NoSource(kind))
      else
        var met := t.deadlines[kind].(status := MET, resolvedAt := Some(at));
        Ok(p.(tables := t.(deadlines := t.deadlines[kind := met])))
    case DeadlineLapsed(_) => Ok(p)
    case ObligationCreated(kind, obligation) => Ok(p.(tables := t.(obligations := t.obligations[kind := obligation])))
    case ObligationActivated(kind, at) =>
      if kind !in t.obligations then Err(NoSource(kind))
      else
        var active := t.obligations[kind].(status := ACTIVE, activatedAt := Some(at));
        Ok(p.(tables := t.(obligations := t.obligations[kind := active])))
    case ObligationSatisfied(kind, at) =>
      if kind !in t.obligations then Err(NoSource(kind))
      else
        var satisfied := t.obligations[kind].(status := SATISFIED, satisfiedAt := Some(at));
        Ok(p.(tables := t.(obligations := t.obligations[kind := satisfied])))
    case Note(_) => Ok(p)
  }

  /** The tables the facts describe, starting from the case row that is still there. */
  function Fold(anchor: CaseRow, facts: seq<Fact>): (r: Result<Projection, IntegrityError>)
    ensures r.Ok? ==> |r.value.sources| == |r.value.tables.executions|
    decreases |facts|
  {
    if facts == [] then Ok(Blank(anchor))
    else
      var rest := Fold(anchor, facts[..|facts| - 1]);
      if rest.Err? then rest else Apply(rest.value, facts[|facts| - 1])
  }

  lemma {:induction false} ErrorsStick(anchor: CaseRow, facts: seq<Fact>, n: nat)
    requires n <= |facts| && Fold(anchor, facts[..n]).Err?
    ensures Fold(anchor, facts) == Fold(anchor, facts[..n])
    decreases |facts|
  {
    if n < |facts| {
      assert facts[..|facts| - 1][..n] == facts[..n];
      ErrorsStick(anchor, facts[..|facts| - 1], n);
    } else {
      assert facts[..n] == facts;
    }
  }

  // ---------------------------------------------------------------------------------------------------------------
  // The live ledger
  // ---------------------------------------------------------------------------------------------------------------

  /** `ids` are the primary keys of the execution rows. */
  datatype LedgerRows = LedgerRows(
    dispute: Option<CaseRow>, executions: seq<Execution>, ids: seq<nat>, intents: map<string, Intent>,
    claims: map<string, ClaimRow>, deadlines: map<string, Deadline>, order: seq<string>,
    obligations: map<string, Obligation>, facts: seq<Fact>)

  const EMPTY := LedgerRows(None, [], [], map[], map[], map[], [], map[], [])

  type Ledger = l: LedgerRows | |l.ids| == |l.executions| witness EMPTY

  function TablesOf(l: Ledger): Tables
    requires l.dispute.Some?
  {
    Tables(l.dispute.value, l.executions, l.intents, l.claims, l.deadlines, l.order, l.obligations)
  }

  datatype Op =
    | CreateCase(member: string, procedure: string, amount: Cents, currency: string)
    | UpdateStatus(status: string, moneyMoved: Option<bool>)
    | RecordMoneyMoved
    | RecordNote(name: string)
    | StartExecution(id: nat, opening: Opening)
    | CompleteExecution(id: nat, completion: Completion)
    | StageIntent(key: string, capability: string, now: Instant)
    | MarkIntentCommitted(key: string)
    | ClaimEffect(key: string, identity: Identity, owner: Owner, now: Instant, ttl: int)
    | TransitionClaim(key: string, owner: Owner, token: nat, from: set<ClaimStatus>, to: ClaimStatus, now: Instant)
    | CreateDeadline(kind: string, dueAt: Instant)
    | ResolveDeadline(kind: string, now: Instant)
    | MarkOverdue(now: Instant)
    | CreateObligation(kind: string, dueAt: Instant, now: Instant)
    | ActivateObligation(kind: string, now: Instant)
    | SatisfyObligation(kind: string, now: Instant)
    | Rebuild(ids: seq<nat>)

  function WithStaged(intents: map<string, Intent>, key: string, capability: string, now: Instant)
    : map<string, Intent>
  {
    if key in intents then intents else intents[key := Intent(capability, false, now)]
  }

  function WithCommitted(intents: map<string, Intent>, key: string): map<string, Intent> {
    if key in intents then intents[key := intents[key].(committed := true)] else intents
  }

  function Record(l: Ledger, fact: Fact): Ledger {
    l.(facts := l.facts + [fact])
  }

  /** Facts recorded one after the other are recorded together. */
  lemma Appended(f: seq<Fact>, a: seq<Fact>, b: seq<Fact>, c: seq<Fact>, d: seq<Fact>)
    ensures f + a + b == f + (a + b) && f + a + b + c == f + (a + b + c) && f + a + b + c + d == f + (a + b + c + d)
  {
  }

  predicate Lapses(d: Deadline, now: Instant) {
    d.status == PENDING && d.dueAt <= now
  }

  /** Every pending deadline whose time has come is overdue. */
  function Lapse(deadlines: map<string, Deadline>, now: Instant): map<string, Deadline> {
    map k | k in deadlines :: if Lapses(deadlines[k], now) then deadlines[k].(status := OVERDUE) else deadlines[k]
  }

  function LapsedFacts(order: seq<string>, deadlines: map<string, Deadline>, now: Instant): seq<Fact> {
    if order == [] then []
    else
      var n := |order| - 1;
      LapsedFacts(order[..n], deadlines, now)
        + if order[n] in deadlines && Lapses(deadlines[order[n]], now) then [DeadlineLapsed(order[n])] else []
  }

  function ClaimRowAfter(l: Ledger, key: string, identity: Identity, owner: Owner, now: Instant, ttl: int)
    : Option<ClaimRow>
  {
    var row := if key in l.claims then Some(l.claims[key].fence) else None;
    match Acquire(row, owner)
    case None => None
    case Some(fence) =>
      Some(ClaimRow(if key in l.claims then l.claims[key].identity else identity, fence, now, now, now + ttl, now))
  }

  /**
   One committed repository call. A call that raises leaves the ledger as it was; without a case row every
   appended event violates its foreign key, so only a claim can be written then, and it leaves no event.
   */
  function Exec(l: Ledger, op: Op): Ledger {
    match op
    case CreateCase(member, procedure, amount, currency) =>
      if l.dispute.Some? then l
      else
        var row := CaseRow(member, procedure, amount, currency, "RECEIVED", false);
        Record(l.(dispute := Some(row)), CaseCreated(row))
    case ClaimEffect(key, identity, owner, now, ttl) =>
      (match ClaimRowAfter(l, key, identity, owner, now, ttl)
       case None => l
       case Some(row) =>
         var claimed := l.(claims := l.claims[key := row]);
         if l.dispute.None? then claimed else Record(claimed, EffectClaimed(key, row)))
    case _ => if l.dispute.None? then l else ExecInCase(l, op)
  }

  function ExecInCase(l: Ledger, op: Op): Ledger
    requires l.dispute.Some? && !op.CreateCase? && !op.ClaimEffect?
  {
    match op
    case UpdateStatus(status, moved) =>
      var row := l.dispute.value.(status := status, moneyMoved := l.dispute.value.moneyMoved || moved == Some(true));
      Record(l.(dispute := Some(row)), StatusUpdated(row.status, row.moneyMoved))
    case RecordMoneyMoved => Record(l, MoneyMoved)
    case RecordNote(name) => Record(l, Note(name))
    case StartExecution(id, opening) =>
      Record(l.(executions := l.executions + [Execution(opening, None)], ids := l.ids + [id]),
             ExecutionStarted(id, opening))
    case CompleteExecution(id, completion) =>
      (match Find(l.ids, id)
       case None => l
       case Some(i) =>
         Record(l.(executions := l.executions[i := l.executions[i].(completion := Some(completion))]),
                ExecutionCompleted(id, completion)))
    case StageIntent(key, capability, now) =>
      if key in l.intents then l
      else
        var intent := Intent(capability, false, now);
        Record(l.(intents := l.intents[key := intent]), IntentStaged(key, intent))
    case MarkIntentCommitted(key) =>
      if key !in l.intents || l.intents[key].committed then l
      else Record(l.(intents := l.intents[key := l.intents[key].(committed := true)]), IntentCommitted(key))
    case TransitionClaim(key, owner, token, from, to, now) =>
      (match Transition(if key in l.claims then Some(l.claims[key].fence) else None, owner, token, from, to)
       case None => l
       case Some(fence) =>
         Record(l.(claims := l.claims[key := l.claims[key].(fence := fence, heartbeatAt := now, updatedAt := now)]),
                ClaimTransitioned(key, fence, now)))
    case CreateDeadline(kind, dueAt) =>
      if kind in l.deadlines then l
      else
        Record(l.(deadlines := l.deadlines[kind := Deadline(dueAt, PENDING, None)], order := l.order + [kind]),
               DeadlineCreated(kind, dueAt))
    case ResolveDeadline(kind, now) =>
      if kind !in l.deadlines || l.deadlines[kind].status == MET then l
      else
        var met := l.deadlines[kind].(status := MET, resolvedAt := Some(now));
        Record(l.(deadlines := l.deadlines[kind := met]), DeadlineResolved(kind, now))
    case MarkOverdue(now) =>
      l.(deadlines := Lapse(l.deadlines, now), facts := l.facts + LapsedFacts(l.order, l.deadlines, now))
    case CreateObligation(kind, dueAt, now) =>
      if kind in l.obligations then l
      else
        var o := Obligation(dueAt, PLANNED, now, None, None);
        Record(l.(obligations := l.obligations[kind := o]), ObligationCreated(kind, o))
    case ActivateObligation(kind, now) =>
      if kind !in l.obligations || l.obligations[kind].status != PLANNED then l
      else
        var active := l.obligations[kind].(status := ACTIVE, activatedAt := Some(now));
        Record(l.(obligations := l.obligations[kind := active]), ObligationActivated(kind, now))
    case SatisfyObligation(kind, now) =>
      if kind !in l.obligations || l.obligations[kind].status == SATISFIED then l
      else
        var satisfied := l.obligations[kind].(status := SATISFIED, satisfiedAt := Some(now));
        Record(l.(obligations := l.obligations[kind := satisfied]), ObligationSatisfied(kind, now))
    case Rebuild(ids) =>
      match Rebuilt(l.dispute, l.facts) {
        case Err(_) => l
        case Ok(p) => if |ids| != |p.tables.executions| then l else Restore(l, p.tables, ids)
      }
  }

  /** What `rebuild_case` derives over an intact chain, or why it refuses. */
  function Rebuilt(anchor: Option<CaseRow>, facts: seq<Fact>): Result<Projection, IntegrityError> {
    if facts == [] || !facts[0].CaseCreated? then Err(NoCaseCreated)
    else if anchor.None? then Err(NoCaseAnchor)
    else Fold(anchor.value, facts)
  }

  /** The rebuilt rows replace the tables under newly allocated execution ids; no event is written. */
  function Restore(l: Ledger, t: Tables, ids: seq<nat>): Ledger
    requires |ids| == |t.executions|
  {
    LedgerRows(Some(t.dispute), t.executions, ids, t.intents, t.claims, t.deadlines, t.order, t.obligations, l.facts)
  }

  function Run(l: Ledger, ops: seq<Op>): Ledger
    decreases |ops|
  {
    if ops == [] then l else Exec(Run(l, ops[..|ops| - 1]), ops[|ops| - 1])
  }
}
