/**
 The external target: one credit per institution and case, whatever requests arrive, how often and in what order.
 The processor and the document store have the same shape.
 */
module CoreBank {
  import opened Prelude

  type Cents = int

  const MAX_MONEY: Cents := 999_999_999_999_999_999

  datatype MemberKey = MemberKey(institution: string, member: string)

  datatype Member = Member(account: string, balance: Cents)

  datatype Credit = Credit(
    institution: string, caseId: string, member: string, account: string, amount: Cents,
    currency: string, reference: string, memo: string, postedAt: string)

  datatype Entry = Entry(institution: string, caseId: string, member: string, amount: Cents)

  /** A request as it arrives; `amount` is None when it is not a valid amount of money. */
  datatype Request = Request(
    institution: string, caseId: string, member: string, amount: Option<Cents>, currency: string,
    reference: Option<string>)

  datatype Refusal = BadAmount | DifferentIdentity | MemberNotFound | BalanceOutOfRange

  /** The random memo code and the clock of one call. */
  datatype Draw = Draw(memo: string, postedAt: string)

  /** The three tables, credits and history in insertion order. */
  datatype Target = Target(members: map<MemberKey, Member>, credits: seq<Credit>, history: seq<Entry>)

  function Lookup(credits: seq<Credit>, institution: string, caseId: string): (c: Option<Credit>)
    ensures c.Some? ==> c.value in credits && c.value.institution == institution && c.value.caseId == caseId
    ensures c.None? ==> forall i :: 0 <= i < |credits| ==>
      credits[i].institution != institution || credits[i].caseId != caseId
  {
    if credits == [] then None
    else if credits[0].institution == institution && credits[0].caseId == caseId then Some(credits[0])
    else Lookup(credits[1..], institution, caseId)
  }

  function Reference(r: Request): string {
    if r.reference.Some? && r.reference.value != "" then r.reference.value else r.caseId
  }

  predicate Matches(c: Credit, r: Request)
    requires r.amount.Some?
  {
    c.member == r.member && c.amount == r.amount.value && c.currency == r.currency && c.reference == Reference(r)
  }

  predicate InRange(amount: Cents) {
    -MAX_MONEY <= amount <= MAX_MONEY
  }

  /** What one request is answered; None of the refusals changes anything. */
  function Answer(t: Target, r: Request, draw: Draw): Result<Credit, Refusal> {
    var key := MemberKey(r.institution, r.member);
    if r.amount.None? then Err(BadAmount)
    else match Lookup(t.credits, r.institution, r.caseId)
      case Some(c) => if Matches(c, r) then Ok(c) else Err(DifferentIdentity)
      case None =>
        if key !in t.members then Err(MemberNotFound)
        else if !InRange(t.members[key].balance) then Err(BalanceOutOfRange)
        else Ok(Credit(r.institution, r.caseId, r.member, t.members[key].account, r.amount.value,
                       r.currency, Reference(r), draw.memo, draw.postedAt))
  }

  function Post(t: Target, r: Request, draw: Draw): Target {
    var a := Answer(t, r, draw);
    var key := MemberKey(r.institution, r.member);
    if a.Err? || Lookup(t.credits, r.institution, r.caseId).Some? then t
    else Target(
      t.members[key := t.members[key].(balance := t.members[key].balance + a.value.amount)],
      t.credits + [a.value],
      t.history + [Entry(r.institution, r.caseId, r.member, a.value.amount)])
  }

  class CoreBankState {
    var members: map<MemberKey, Member>
    var credits: seq<Credit>
    var history: seq<Entry>

    constructor (members: map<MemberKey, Member>)
      ensures View() == Target(members, [], [])
    {
      this.members, credits, history := members, [], [];
    }

    function View(): Target
      reads this
    {
      Target(members, credits, history)
    }

    /** One immediate transaction; a refusal rolls back whatever was already inserted. */
    method PostCredit(r: Request, draw: Draw) returns (result: Result<Credit, Refusal>)
      modifies this
      ensures result == Answer(old(View()), r, draw) && View() == Post(old(View()), r, draw)
    {
      if r.amount.None? { return Err(BadAmount); }
      var existing := Lookup(credits, r.institution, r.caseId);
      if existing.Some? {
        if !Matches(existing.value, r) { return Err(DifferentIdentity); }
        return Ok(existing.value);
      }
      var key := MemberKey(r.institution, r.member);
      if key !in members { return Err(MemberNotFound); }
      var before := members[key];
      var credit := Credit(r.institution, r.caseId, r.member, before.account, r.amount.value,
                           r.currency, Reference(r), draw.memo, draw.postedAt);
      if !InRange(before.balance) { return Err(BalanceOutOfRange); }
      credits := credits + [credit];
      members := members[key := before.(balance := before.balance + credit.amount)];
      history := history + [Entry(r.institution, r.caseId, r.member, credit.amount)];
      result := Ok(credit);
    }

    method FindCreditByCase(institution: string, caseId: string) returns (c: Option<Credit>)
      ensures c == Lookup(credits, institution, caseId)
    {
      c := Lookup(credits, institution, caseId);
    }

    method EffectCount(institution: string, caseId: string) returns (n: nat)
      ensures n == Count(history, institution, caseId)
    {
      n := 0;
      for i := 0 to |history|
        invariant n == Count(history[..i], institution, caseId)
      {
        assert history[..i + 1][..i] == history[..i];
        if history[i].institution == institution && history[i].caseId == caseId { n := n + 1; }
      }
      assert history[..|history|] == history;
    }
  }

  function Count(history: seq<Entry>, institution: string, caseId: string): nat {
    if history == [] then 0
    else
      var last := history[|history| - 1];
      Count(history[..|history| - 1], institution, caseId)
        + if last.institution == institution && last.caseId == caseId then 1 else 0
  }

  /** What the credits on file add up to for one member. */
  function Credited(credits: seq<Credit>, key: MemberKey): Cents {
    if credits == [] then 0
    else
      var last := credits[|credits| - 1];
      Credited(credits[..|credits| - 1], key)
        + if MemberKey(last.institution, last.member) == key then last.amount else 0
  }

  // ---------------------------------------------------------------------------------------------------------------
  // Conservation
  // ---------------------------------------------------------------------------------------------------------------

  ghost predicate Conserved(t: Target, seed: map<MemberKey, Member>) {
    && t.members.Keys == seed.Keys
    && (forall k :: k in seed ==> t.members[k] == seed[k].(balance := seed[k].balance + Credited(t.credits, k)))
    && (forall i, c :: Count(t.history, i, c) == if Lookup(t.credits, i, c).Some? then 1 else 0)
    && (forall i, j :: 0 <= i < j < |t.credits| ==>
          t.credits[i].institution != t.credits[j].institution || t.credits[i].caseId != t.credits[j].caseId)
  }

  lemma {:induction false} LookupAppend(credits: seq<Credit>, credit: Credit, institution: string, caseId: string)
    ensures Lookup(credits + [credit], institution, caseId) ==
      if Lookup(credits, institution, caseId).Some? then Lookup(credits, institution, caseId)
      else if credit.institution == institution && credit.caseId == caseId then Some(credit)
      else None
    decreases |credits|
  {
    if credits != [] {
      assert (credits + [credit])[1..] == credits[1..] + [credit];
      LookupAppend(credits[1..], credit, institution, caseId);
    }
  }

  lemma PostConserves(t: Target, seed: map<MemberKey, Member>, r: Request, draw: Draw)
    requires Conserved(t, seed)
    ensures Conserved(Post(t, r, draw), seed)
  {
    var t' := Post(t, r, draw);
    if t' != t {
      var credit, entry := t'.credits[|t.credits|], t'.history[|t.history|];
      assert t'.credits[..|t.credits|] == t.credits && t'.history[..|t.history|] == t.history;
      forall i, c ensures Count(t'.history, i, c) == if Lookup(t'.credits, i, c).Some? then 1 else 0 {
        LookupAppend(t.credits, credit, i, c);
      }
    }
  }

  function PostAll(t: Target, rs: seq<(Request, Draw)>): Target
    decreases |rs|
  {
    if rs == [] then t else PostAll(Post(t, rs[0].0, rs[0].1), rs[1..])
  }

  /**
   After any requests in any order, with any repeats: every balance is its seed plus that member's credits, and each
   institution and case has at most one credit and exactly one history entry if it has one.
   */
  lemma {:induction false} MoneyIsConserved(t: Target, seed: map<MemberKey, Member>, rs: seq<(Request, Draw)>)
    requires Conserved(t, seed)
    ensures Conserved(PostAll(t, rs), seed)
    decreases |rs|
  {
    if rs != [] {
      PostConserves(t, seed, rs[0].0, rs[0].1);
      MoneyIsConserved(Post(t, rs[0].0, rs[0].1), seed, rs[1..]);
    }
  }

  lemma SeededTargetIsConserved(seed: map<MemberKey, Member>)
    ensures Conserved(Target(seed, [], []), seed)
  {
  }

  /** The first credit of a case is final: later requests for it, agreeing or not, change nothing. */
  lemma RepeatsChangeNothing(t: Target, r: Request, draw: Draw)
    requires Lookup(t.credits, r.institution, r.caseId).Some?
    ensures Post(t, r, draw) == t
    ensures r.amount.Some? ==>
      Answer(t, r, draw) == if Matches(Lookup(t.credits, r.institution, r.caseId).value, r)
                            then Ok(Lookup(t.credits, r.institution, r.caseId).value) else Err(DifferentIdentity)
  {
  }

  /** What a request asks for; a business reference that is not given is the case. */
  predicate SameRequest(a: Request, b: Request) {
    && a.member == b.member && a.amount == b.amount && a.currency == b.currency
    && (if a.reference.Some? && a.reference.value != "" then a.reference.value else a.caseId)
      == (if b.reference.Some? && b.reference.value != "" then b.reference.value else b.caseId)
  }

  /** An accepted first request gets the credit it asked for, on the member's account; only such a one is accepted. */
  lemma FirstCreditIsExact(t: Target, r: Request, draw: Draw)
    requires Lookup(t.credits, r.institution, r.caseId).None?
    ensures var a, key := Answer(t, r, draw), MemberKey(r.institution, r.member);
      && (a == Err(BadAmount) <==> r.amount.None?)
      && (a == Err(Refusal.MemberNotFound) <==> r.amount.Some? && key !in t.members)
      && (a == Err(BalanceOutOfRange) <==>
            && r.amount.Some? && key in t.members
            && (t.members[key].balance > 999_999_999_999_999_999 || t.members[key].balance < -999_999_999_999_999_999))
      && a != Err(DifferentIdentity)
      && (a.Ok? ==>
            && a.value.institution == r.institution && a.value.caseId == r.caseId && a.value.member == r.member
            && Some(a.value.amount) == r.amount && a.value.currency == r.currency
            && a.value.account == t.members[key].account && a.value.memo == draw.memo
            && a.value.postedAt == draw.postedAt)
  {
  }

  /**
   Once a credit is posted, a later request for its institution and case is answered with that credit if and only if
   it asks for the same: any other member, amount, currency or reference is refused, and nothing ever changes.
   */
  lemma LaterRequestAgreesExactly(t: Target, first: Request, draw: Draw, between: seq<(Request, Draw)>,
                                  later: Request, again: Draw)
    requires Lookup(t.credits, first.institution, first.caseId).None? && Answer(t, first, draw).Ok?
    requires later.institution == first.institution && later.caseId == first.caseId && later.amount.Some?
    ensures var t' := PostAll(Post(t, first, draw), between);
      && Answer(t', later, again) ==
        (if SameRequest(first, later) then Answer(t, first, draw) else Err(DifferentIdentity))
      && Post(t', later, again) == t'
  {
    var t1 := Post(t, first, draw);
    LookupAppend(t.credits, t1.credits[|t.credits|], first.institution, first.caseId);
    CreditsAreForever(t1, between, first.institution, first.caseId);
    RepeatsChangeNothing(PostAll(t1, between), later, again);
  }

  lemma {:induction false} CreditsAreForever(t: Target, rs: seq<(Request, Draw)>, institution: string, caseId: string)
    requires Lookup(t.credits, institution, caseId).Some?
    ensures Lookup(PostAll(t, rs).credits, institution, caseId) == Lookup(t.credits, institution, caseId)
    decreases |rs|
  {
    if rs != [] {
      var t' := Post(t, rs[0].0, rs[0].1);
      if t' != t { LookupAppend(t.credits, t'.credits[|t.credits|], institution, caseId); }
      CreditsAreForever(t', rs[1..], institution, caseId);
    }
  }

  /** Delivering one request again at any later time answers with the very same credit and moves no more money. */
  lemma DelayedRepeatIsHarmless(t: Target, r: Request, draw: Draw, between: seq<(Request, Draw)>, again: Draw)
    requires Answer(t, r, draw).Ok?
    ensures var t' := PostAll(Post(t, r, draw), between);
      Answer(t', r, again) == Answer(t, r, draw) && Post(t', r, again) == t'
  {
    var t1 := Post(t, r, draw);
    if t1 != t { LookupAppend(t.credits, t1.credits[|t.credits|], r.institution, r.caseId); }
    CreditsAreForever(t1, between, r.institution, r.caseId);
    RepeatsChangeNothing(PostAll(t1, between), r, again);
  }
}
