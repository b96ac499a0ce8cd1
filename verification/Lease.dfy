/**
 The expiring single-owner lease of one case: insert, read-then-compare-and-swap takeover, heartbeat and release,
 as conditional updates of one row, and any number of actors interleaving them under a clock that never goes back, each
 statement carrying the instant its caller read some time before.
 */
module Lease {
  import opened Prelude

  type Instant = int
  type Actor = string

  datatype OwnerType = AUTOMATION | HUMAN

  datatype Lease = Lease(
    resource: string, owner: Actor, ownerType: OwnerType, token: nat, version: nat,
    acquiredAt: Instant, heartbeatAt: Instant, expiresAt: Instant, releasedAt: Option<Instant>)

  /** Who wants the lease, on what, and for how long. */
  datatype Request = Request(owner: Actor, ownerType: OwnerType, resource: string, ttl: int)

  datatype LeaseError =
    BadOwnerType | BadTtl | NoCase | HeldByAnother | ChangedDuringAcquisition | StaleOrExpired | ChangedBeforeRelease

  predicate Active(lease: Lease, now: Instant) {
    lease.releasedAt.None? && lease.expiresAt > now
  }

  predicate Validates(row: Option<Lease>, owner: Actor, token: nat, now: Instant) {
    row.Some? && row.value.owner == owner && row.value.token == token && Active(row.value, now)
  }

  function Granted(r: Request, token: nat, version: nat, now: Instant): Lease {
    Lease(r.resource, r.owner, r.ownerType, token, version, now, now, now + r.ttl, None)
  }

  /** UPDATE ... WHERE version = seen AND (released OR expired); None when no row matched. */
  function Takeover(row: Option<Lease>, seen: Lease, r: Request, now: Instant): Option<Lease> {
    if row.Some? && row.value.version == seen.version && (row.value.releasedAt.Some? || row.value.expiresAt <= now)
    then Some(Granted(r, seen.token + 1, seen.version + 1, now))
    else None
  }

  /** UPDATE ... WHERE owner and token match, not released and not expired. */
  function Heartbeat(row: Option<Lease>, owner: Actor, token: nat, now: Instant, ttl: int): Option<Lease> {
    if Validates(row, owner, token, now)
    then Some(row.value.(heartbeatAt := now, expiresAt := now + ttl, version := row.value.version + 1))
    else None
  }

  /** UPDATE ... WHERE not released and, when they are given, owner and token match. */
  function Release(row: Option<Lease>, owner: Option<Actor>, token: Option<nat>, now: Instant): Option<Lease> {
    if row.Some? && row.value.releasedAt.None?
      && (owner.Some? ==> row.value.owner == owner.value) && (token.Some? ==> row.value.token == token.value)
    then Some(row.value.(releasedAt := Some(now), expiresAt := now, heartbeatAt := now,
                         version := row.value.version + 1))
    else None
  }

  /** A whole acquisition that nothing interrupts. */
  function Acquire(row: Option<Lease>, r: Request, now: Instant): Result<Lease, LeaseError> {
    if r.ttl <= 0 then Err(BadTtl)
    else match row
      case None => Ok(Granted(r, 1, 1, now))
      case Some(l) =>
        if Active(l, now) then
          if l.owner != r.owner || l.ownerType != r.ownerType then Err(HeldByAnother)
          else Ok(Heartbeat(row, r.owner, l.token, now, r.ttl).value)
        else Ok(Takeover(row, l, r, now).value)
  }

  /** The lease is over, or it is the requester's own. */
  predicate MayTake(row: Option<Lease>, r: Request, now: Instant) {
    || row.None? || row.value.releasedAt.Some? || now >= row.value.expiresAt
    || (row.value.owner == r.owner && row.value.ownerType == r.ownerType)
  }

  /** Who gets the lease and what it holds: from this instant for the requested time, under a new token if taken. */
  lemma AcquireIsExact(row: Option<Lease>, r: Request, now: Instant)
    ensures var a := Acquire(row, r, now);
      && (a.Ok? <==> r.ttl > 0 && MayTake(row, r, now))
      && (a.Err? ==> a.error == if r.ttl <= 0 then BadTtl else HeldByAnother)
      && (a.Ok? ==> a.value.owner == r.owner && a.value.ownerType == r.ownerType && a.value.releasedAt == None)
      && (a.Ok? ==> a.value.heartbeatAt == now && a.value.expiresAt == now + r.ttl)
    ensures var a := Acquire(row, r, now);
      a.Ok? ==>
        if row.None? then a.value.resource == r.resource && a.value.acquiredAt == now && a.value.token == 1
        else if row.value.releasedAt.None? && row.value.expiresAt > now then
          && a.value.resource == row.value.resource && a.value.acquiredAt == row.value.acquiredAt
          && a.value.token == row.value.token
        else a.value.resource == r.resource && a.value.acquiredAt == now && a.value.token == row.value.token + 1
  {
  }

  // ---------------------------------------------------------------------------------------------------------------
  // Any number of actors
  // ---------------------------------------------------------------------------------------------------------------

  type Session = string

  /** `seen` is the row each session last read; `issued[k]` is the actor that was given token k + 1. */
  datatype Race = Race(row: Option<Lease>, seen: map<Session, Lease>, issued: seq<Actor>, clock: Instant)

  const START := Race(None, map[], [], 0)

  /** `age` is how long before its statement a call read the clock. */
  datatype Act =
    | Tick(ticks: nat)
    | Insert(r: Request, age: nat)
    | Read(session: Session)
    | TakeOver(session: Session, r: Request, age: nat)
    | Beat(owner: Actor, token: nat, ttl: int, age: nat)
    | Give(byOwner: Option<Actor>, byToken: Option<nat>, age: nat)

  /** One committed statement; a conditional update that matches nothing changes nothing. */
  function Do(s: Race, a: Act): Race {
    match a
    case Tick(ticks) => s.(clock := s.clock + ticks)
    case Insert(r, age) =>
      if s.row.Some? then s else s.(row := Some(Granted(r, 1, 1, s.clock - age)), issued := s.issued + [r.owner])
    case Read(w) => if s.row.None? then s else s.(seen := s.seen[w := s.row.value])
    case TakeOver(w, r, age) =>
      if w !in s.seen then s
      else
        var taken := Takeover(s.row, s.seen[w], r, s.clock - age);
        if taken.None? then s else s.(row := taken, issued := s.issued + [r.owner])
    case Beat(owner, token, ttl, age) =>
      var beaten := Heartbeat(s.row, owner, token, s.clock - age, ttl);
      if beaten.None? then s else s.(row := beaten)
    case Give(owner, token, age) =>
      var released := Release(s.row, owner, token, s.clock - age);
      if released.None? then s else s.(row := released)
  }

  /** No statement comes more than `lag` after its caller read the clock. */
  predicate Prompt(a: Act, lag: nat) {
    match a
    case Tick(_) => true
    case Read(_) => true
    case _ => a.age <= lag
  }

  predicate AllPrompt(acts: seq<Act>, lag: nat) {
    forall i :: 0 <= i < |acts| ==> Prompt(acts[i], lag)
  }

  function Run(s: Race, acts: seq<Act>): Race
    decreases |acts|
  {
    if acts == [] then s else Run(Do(s, acts[0]), acts[1..])
  }

  /** The row carries the last issued token and its owner; a session's copy is the row itself or of an older version. */
  predicate Fair(s: Race) {
    && (s.row.None? ==> s.issued == [] && s.seen == map[])
    && (s.row.Some? ==>
          0 < s.row.value.token == |s.issued| <= s.row.value.version && s.issued[|s.issued| - 1] == s.row.value.owner)
    && (s.row.Some? ==> forall w :: w in s.seen ==>
          s.seen[w] == s.row.value || s.seen[w].version < s.row.value.version)
  }

  lemma FairStep(s: Race, a: Act)
    requires Fair(s)
    ensures Fair(Do(s, a))
  {
  }

  lemma {:induction false} FairRun(s: Race, acts: seq<Act>)
    requires Fair(s)
    ensures Fair(Run(s, acts))
    decreases |acts|
  {
    if acts != [] {
      FairStep(s, acts[0]);
      FairRun(Do(s, acts[0]), acts[1..]);
    }
  }

  /** Every write moves the version by one, and exactly the writes that issue a token move the token by one. */
  lemma EveryWriteIsVersioned(s: Race, a: Act)
    requires Fair(s) && Do(s, a).row != s.row
    ensures var t := Do(s, a);
      && t.row.Some?
      && t.row.value.version == (if s.row.Some? then s.row.value.version else 0) + 1
      && t.row.value.token == |t.issued| == |s.issued| + (if a.Insert? || a.TakeOver? then 1 else 0)
  {
  }

  /** A token once issued keeps the one owner it was issued to, and tokens and versions never go back. */
  lemma {:induction false} TokensHaveOneOwner(s: Race, acts: seq<Act>)
    requires Fair(s)
    ensures s.issued <= Run(s, acts).issued
    ensures s.row.Some? ==> Run(s, acts).row.Some? && s.row.value.version <= Run(s, acts).row.value.version
    ensures s.clock <= Run(s, acts).clock
    decreases |acts|
  {
    if acts != [] {
      FairStep(s, acts[0]);
      TokensHaveOneOwner(Do(s, acts[0]), acts[1..]);
    }
  }

  /** A takeover wins exactly when the row is still the one read and is no longer active. */
  lemma TakeoverWinsIffUnchanged(s: Race, w: Session, r: Request, at: Instant)
    requires Fair(s) && w in s.seen
    ensures Takeover(s.row, s.seen[w], r, at).Some? <==> s.row == Some(s.seen[w]) && !Active(s.seen[w], at)
  {
  }

  /** Two takeovers from the same read never both win, whatever happens between them. */
  lemma RacingTakeoversOneWins(s: Race, first: Session, second: Session, a: Request, b: Request, i: nat, j: nat,
                               between: seq<Act>)
    requires Fair(s) && first in s.seen && second in s.seen && s.seen[first] == s.seen[second]
    requires Do(s, TakeOver(first, a, i)) != s
    requires forall k :: 0 <= k < |between| ==> between[k] != Read(second)
    ensures var t := Run(Do(s, TakeOver(first, a, i)), between); Do(t, TakeOver(second, b, j)) == t
  {
    var s' := Do(s, TakeOver(first, a, i));
    FairStep(s, TakeOver(first, a, i));
    FairRun(s', between);
    TokensHaveOneOwner(s', between);
    SeenIsKept(s', between, second);
  }

  lemma {:induction false} SeenIsKept(s: Race, acts: seq<Act>, w: Session)
    requires w in s.seen && forall i :: 0 <= i < |acts| ==> acts[i] != Read(w)
    ensures w in Run(s, acts).seen && Run(s, acts).seen[w] == s.seen[w]
    decreases |acts|
  {
    if acts != [] {
      assert acts[0] != Read(w);
      SeenIsKept(Do(s, acts[0]), acts[1..], w);
    }
  }

  /** No statement keeps a lease longer than its caller asked for, counted from when it read the clock. */
  lemma EveryWriteIsBounded(s: Race, a: Act)
    requires Do(s, a).row != s.row
    ensures var lease := Do(s, a).row.value;
      match a
      case Tick(_) => false
      case Read(_) => false
      case Insert(r, age) => lease.expiresAt == s.clock - age + r.ttl && lease.releasedAt == None
      case TakeOver(_, r, age) => lease.expiresAt == s.clock - age + r.ttl && lease.releasedAt == None
      case Beat(_, _, ttl, age) => lease.expiresAt == s.clock - age + ttl && lease.releasedAt == None
      case Give(_, _, age) => lease.releasedAt == Some(s.clock - age) && lease.expiresAt == s.clock - age
  {
  }

  predicate Renews(a: Act) {
    a.Insert? || a.TakeOver? || a.Beat?
  }

  /** A lease nobody renews or takes lapses by itself: once its time has come no token validates. */
  lemma {:induction false} UnrenewedLeaseLapses(s: Race, acts: seq<Act>)
    requires s.row.Some? && forall i :: 0 <= i < |acts| ==> !Renews(acts[i])
    requires Run(s, acts).clock >= s.row.value.expiresAt
    ensures forall o, t :: !Validates(Run(s, acts).row, o, t, Run(s, acts).clock)
    decreases |acts|
  {
    UnrenewedEndsNoLater(s, acts);
  }

  lemma {:induction false} UnrenewedEndsNoLater(s: Race, acts: seq<Act>)
    requires s.row.Some? && forall i :: 0 <= i < |acts| ==> !Renews(acts[i])
    ensures var row := Run(s, acts).row;
      row.Some? && (row == s.row || row.value.releasedAt.Some?)
    decreases |acts|
  {
    if acts != [] {
      assert !Renews(acts[0]);
      UnrenewedEndsNoLater(Do(s, acts[0]), acts[1..]);
    }
  }

  /** The statements one acquisition is made of, given what its read returned. */
  function Statements(row: Option<Lease>, w: Session, r: Request, now: Instant): seq<Act> {
    if r.ttl <= 0 then []
    else if row.None? then [Insert(r, 0)]
    else if !Active(row.value, now) then [Read(w), TakeOver(w, r, 0)]
    else if row.value.owner == r.owner && row.value.ownerType == r.ownerType then
      [Read(w), Beat(r.owner, row.value.token, r.ttl, 0)]
    else [Read(w)]
  }

  /** An uninterrupted acquisition is those statements in a row, so everything above holds of acquisitions. */
  lemma AcquireIsItsStatements(s: Race, w: Session, r: Request)
    ensures var acquired := Acquire(s.row, r, s.clock);
      Run(s, Statements(s.row, w, r, s.clock)).row == if acquired.Ok? then Some(acquired.value) else s.row
  {
    var acts := Statements(s.row, w, r, s.clock);
    if |acts| == 2 {
      assert acts[1..] == [acts[1]] && acts[1..][1..] == [];
      assert Run(s, acts) == Run(Do(s, acts[0]), [acts[1]]) == Run(Do(Do(s, acts[0]), acts[1]), []);
    } else if |acts| == 1 {
      assert acts[1..] == [];
    }
  }

  predicate Issued(s: Race, owner: Actor, token: nat) {
    0 < token <= |s.issued| && s.issued[token - 1] == owner
  }

  /** Issued, and not valid even at the oldest instant a statement may still carry. */
  predicate Dead(s: Race, owner: Actor, token: nat, lag: nat) {
    Issued(s, owner, token) && !Validates(s.row, owner, token, s.clock - lag)
  }

  lemma DeadStep(s: Race, a: Act, owner: Actor, token: nat, lag: nat)
    requires Fair(s) && Dead(s, owner, token, lag) && Prompt(a, lag)
    ensures Dead(Do(s, a), owner, token, lag)
  {
  }

  /** A token that stopped validating `lag` ago never validates again; without lag, one that has stopped at all. */
  lemma {:induction false} DeadTokensStayDead(s: Race, acts: seq<Act>, owner: Actor, token: nat, lag: nat)
    requires Fair(s) && Dead(s, owner, token, lag) && AllPrompt(acts, lag)
    ensures Dead(Run(s, acts), owner, token, lag)
    ensures !Validates(Run(s, acts).row, owner, token, Run(s, acts).clock)
    decreases |acts|
  {
    if acts != [] {
      assert Prompt(acts[0], lag);
      FairStep(s, acts[0]);
      DeadStep(s, acts[0], owner, token, lag);
      DeadTokensStayDead(Do(s, acts[0]), acts[1..], owner, token, lag);
    }
  }

  /** A heartbeat that read the clock in time extends a lease that has expired by the time it is executed. */
  lemma LateHeartbeatRevives(s: Race, owner: Actor, token: nat, lag: nat)
    requires Validates(s.row, owner, token, s.clock - lag)
    ensures var revived := Run(s, [Beat(owner, token, lag + 1, lag)]);
      Validates(revived.row, owner, token, revived.clock)
  {
    var beat := Beat(owner, token, lag + 1, lag);
    assert [beat][1..] == [];
    assert Run(s, [beat]) == Run(Do(s, beat), []) == Do(s, beat);
  }

  /** Some prompt run makes an issued token validate if and only if it validated `lag` ago. */
  lemma TokenLivesIffValidatedInTime(s: Race, owner: Actor, token: nat, lag: nat)
    requires Fair(s) && Issued(s, owner, token)
    ensures Validates(s.row, owner, token, s.clock - lag) <==>
      exists acts :: AllPrompt(acts, lag) && Validates(Run(s, acts).row, owner, token, Run(s, acts).clock)
  {
    if Validates(s.row, owner, token, s.clock - lag) {
      LateHeartbeatRevives(s, owner, token, lag);
      assert AllPrompt([Beat(owner, token, lag + 1, lag)], lag);
    } else {
      forall acts | AllPrompt(acts, lag) ensures !Validates(Run(s, acts).row, owner, token, Run(s, acts).clock) {
        DeadTokensStayDead(s, acts, owner, token, lag);
      }
    }
  }

  /** While a token validates nobody else's does, and only its holder, a release, or the clock can end that. */
  lemma OnlyTheHolderActs(s: Race, a: Act, owner: Actor, token: nat)
    requires Fair(s) && Validates(s.row, owner, token, s.clock)
    ensures forall o, t: nat :: Validates(s.row, o, t, s.clock) ==> o == owner && t == token
    ensures Do(s, a).row != s.row ==> (a.Beat? && a.owner == owner && a.token == token) || a.Give?
    ensures a.Give? && a.byOwner.Some? && a.byOwner.value != owner ==> Do(s, a) == s
  {
  }
}
