/** What the fenced effect protocol guarantees over every run, and exactly when it is safe against duplicates. */
module ProtocolSafety {
  import opened Prelude
  import opened Outcomes
  import opened Inquiry
  import opened Replay
  import opened Claims
  import opened Protocol

  /** No effect without a claim, and no execution recorded as completed without an applied one. */
  predicate Grounded(cfg: Config, s: State) {
    && (s.claim == None ==> s.records == Seed(cfg) && s.inflight == 0)
    && (CapabilityCompleted(s) ==> IsApplied(s))
  }

  /** What a resumed case reads as a completed capability. */
  predicate CapabilityCompleted(s: State) {
    exists i :: 0 <= i < |s.executions| && s.executions[i].code in {Completed, ConfirmedApplied, AlreadyApplied}
  }

  ghost predicate Inv(cfg: Config, s: State) {
    && Fenced(s)
    && Grounded(cfg, s)
    && LedgerBehindTarget(s)
    && (cfg.prompt ==> AtMostOneRequest(cfg, s))
    && (cfg.seed.Some? ==> NeverSends(s))
    && (cfg.dedup ==> |s.records| <= 1)
  }

  lemma InvInit(cfg: Config)
    ensures Inv(cfg, Init(cfg))
  {
  }

  lemma InvStep(cfg: Config, s: State, a: Action)
    requires Inv(cfg, s) && Enabled(cfg, s, a)
    ensures Inv(cfg, Next(cfg, s, a))
  {
    FencedStep(cfg, s, a);
    LedgerStep(cfg, s, a);
    GroundedStep(cfg, s, a);
    if cfg.prompt { CleanStep(cfg, s, a); }
    if cfg.seed.Some? { NeverSendsStep(cfg, s, a); }
    if a.CommitPrecheck? || a.Settle? || a.CommitRecovery? || a.Admit? || a.RetryClaim? {
      TargetUntouchedByCommit(cfg, s, a);
    }
  }

  /** Completed executions and the APPLIED status commit together. */
  lemma CompletionCommits(cfg: Config, s: State, a: Action)
    requires Fenced(s) && LedgerBehindTarget(s) && Enabled(cfg, s, a)
    requires a.CommitPrecheck? || a.Settle? || a.CommitRecovery?
    ensures CapabilityCompleted(Next(cfg, s, a)) ==> CapabilityCompleted(s) || IsApplied(Next(cfg, s, a))
  {
    var s' := Next(cfg, s, a);
    assert Holds(s, a.w) && Informed(s, a.w);
    assert forall i :: 0 <= i < |s.executions| ==> s'.executions[i] == s.executions[i];
  }

  lemma GroundedStep(cfg: Config, s: State, a: Action)
    requires Fenced(s) && LedgerBehindTarget(s) && Grounded(cfg, s) && Enabled(cfg, s, a)
    ensures Grounded(cfg, Next(cfg, s, a))
  {
    AdvanceStep(cfg, s, a);
    if a.CommitPrecheck? || a.Settle? || a.CommitRecovery? {
      CompletionCommits(cfg, s, a);
    } else if !a.Deliver? && !a.Lose? {
      assert Holds(s, a.w);
    }
  }

  lemma TargetUntouchedByCommit(cfg: Config, s: State, a: Action)
    requires Enabled(cfg, s, a) && !a.Deliver?
    ensures Next(cfg, s, a).records == s.records
  {
  }

  /** The invariant survives any continuation of a run. */
  lemma {:induction false} InvRun(cfg: Config, s: State, run: seq<Action>)
    requires Inv(cfg, s) && Legal(cfg, s, run)
    ensures Inv(cfg, Run(cfg, s, run))
    decreases |run|
  {
    if run != [] {
      InvStep(cfg, s, run[0]);
      InvRun(cfg, Next(cfg, s, run[0]), run[1..]);
    }
  }

  lemma Reachable(cfg: Config, run: seq<Action>)
    requires Legal(cfg, Init(cfg), run)
    ensures Inv(cfg, Run(cfg, Init(cfg), run))
  {
    InvInit(cfg);
    InvRun(cfg, Init(cfg), run);
  }

  /**
   The record of the effect is unique in every run exactly when the target deduplicates, or requests do not outlive
   a later inquiry, or the effect was there already. Nothing else (crashes, retries, takeovers) can duplicate it.
   */
  lemma AtMostOnceExactly(cfg: Config)
    ensures (forall run :: Legal(cfg, Init(cfg), run) ==> |Run(cfg, Init(cfg), run).records| <= 1)
      <==> cfg.dedup || cfg.prompt || cfg.seed.Some?
  {
    if cfg.dedup || cfg.prompt || cfg.seed.Some? {
      forall run | Legal(cfg, Init(cfg), run) ensures |Run(cfg, Init(cfg), run).records| <= 1 {
        Reachable(cfg, run);
      }
    } else {
      DelayedRequestDuplicates(cfg);
      assert Legal(cfg, Init(cfg), DuplicatingRun());
    }
  }

  /** A POST whose connection dropped, and an inquiry that finds nothing. */
  function LostReply(): Attempt {
    Attempt(HttpRequest(Dispatched(TransportFailed)), [Absent], 1)
  }

  function Approach(w: Owner): seq<Action> { [Ask(w, Absent), CommitPrecheck(w), EnterApplying(w)] }

  function Actuate(w: Owner): seq<Action> { [SendRequest(w), Finish(w, LostReply()), Settle(w)] }

  /** Both requests are still on their way when the inquiries report absence, and both arrive in the end. */
  function DuplicatingRun(): seq<Action> {
    ([Admit("a")] + (Approach("a") + Actuate("a")))
      + ([Admit("b"), RetryClaim("b")] + (Approach("b") + Actuate("b")))
      + [Deliver("r1"), Deliver("r2")]
  }

  lemma LostReplySettles(movesMoney: bool)
    ensures var o := CommitOutcome(LostReply(), movesMoney);
      && SettleClaimStatus(o) == FAILED_RETRYABLE
      && o == Plain(BusinessOutcome, ConfirmedNotApplied, AfterSubmitUnknown)
      && Deciding(LostReply(), movesMoney) == Some(Absent)
      && Actuated(LostReply().transport) && !RefusedBeforeActing(LostReply().transport)
  {
  }

  /** The run is legal from s and ends in s'. */
  ghost predicate Leads(cfg: Config, s: State, run: seq<Action>, s': State) {
    Legal(cfg, s, run) && Run(cfg, s, run) == s'
  }

  lemma {:induction false} LeadsOn(cfg: Config, s: State, p: seq<Action>, s': State, q: seq<Action>, s'': State)
    requires Leads(cfg, s, p, s') && Leads(cfg, s', q, s'')
    ensures Leads(cfg, s, p + q, s'')
    decreases |p|
  {
    if p == [] {
      assert p + q == q;
    } else {
      assert (p + q)[1..] == p[1..] + q;
      LeadsOn(cfg, Next(cfg, s, p[0]), p[1..], s', q, s'');
    }
  }

  lemma OneStep(cfg: Config, s: State, a: Action)
    requires Enabled(cfg, s, a)
    ensures Leads(cfg, s, [a], Next(cfg, s, a))
  {
    assert [a][1..] == [];
    assert Legal(cfg, Next(cfg, s, a), []);
  }

  lemma TwoSteps(cfg: Config, s: State, a: Action, b: Action)
    requires Enabled(cfg, s, a) && Enabled(cfg, Next(cfg, s, a), b)
    ensures Leads(cfg, s, [a, b], Next(cfg, Next(cfg, s, a), b))
  {
    OneStep(cfg, s, a);
    OneStep(cfg, Next(cfg, s, a), b);
    LeadsOn(cfg, s, [a], Next(cfg, s, a), [b], Next(cfg, Next(cfg, s, a), b));
    assert [a] + [b] == [a, b];
  }

  lemma ThreeSteps(cfg: Config, s: State, a: Action, b: Action, c: Action)
    requires Enabled(cfg, s, a) && Enabled(cfg, Next(cfg, s, a), b) && Enabled(cfg, Next(cfg, Next(cfg, s, a), b), c)
    ensures Leads(cfg, s, [a, b, c], Next(cfg, Next(cfg, Next(cfg, s, a), b), c))
  {
    TwoSteps(cfg, s, a, b);
    OneStep(cfg, Next(cfg, Next(cfg, s, a), b), c);
    LeadsOn(cfg, s, [a, b], Next(cfg, Next(cfg, s, a), b), [c], Next(cfg, Next(cfg, Next(cfg, s, a), b), c));
    assert [a, b] + [c] == [a, b, c];
  }

  /** The state one pass leaves behind: retryable again, with one more request on its way. */
  function AfterPass(s: State, w: Owner, token: nat): State {
    s.(claim := Some(Claim(FAILED_RETRYABLE, w, token)),
       executions := s.executions + [Execution(ConfirmedNotApplied, None, false)],
       inflight := s.inflight + 1,
       pcs := s.pcs[w := Done(false)])
  }

  lemma PassLeavesRequest(cfg: Config, s: State, w: Owner, token: nat)
    requires !cfg.prompt && s.records == []
    requires At(s, w) == Working(token, Fresh) && s.claim == Some(Claim(CLAIMED, w, token))
    ensures Leads(cfg, s, Approach(w) + Actuate(w), AfterPass(s, w, token))
  {
    var s1 := s.(claim := Some(Claim(APPLYING, w, token)), pcs := s.pcs[w := Working(token, Applying(NotSent))]);
    ThreeSteps(cfg, s, Ask(w, Absent), CommitPrecheck(w), EnterApplying(w));
    assert Run(cfg, s, Approach(w)).pcs == s1.pcs;
    ActuationLeavesRequest(cfg, s1, w, token);
    assert AfterPass(s1, w, token) == AfterPass(s, w, token) by {
      assert s1.pcs[w := Done(false)] == s.pcs[w := Done(false)];
    }
    LeadsOn(cfg, s, Approach(w), s1, Actuate(w), AfterPass(s, w, token));
  }

  lemma ActuationLeavesRequest(cfg: Config, s: State, w: Owner, token: nat)
    requires !cfg.prompt && s.records == []
    requires At(s, w) == Working(token, Applying(NotSent)) && s.claim == Some(Claim(APPLYING, w, token))
    ensures Leads(cfg, s, Actuate(w), AfterPass(s, w, token))
  {
    var o := Plain(BusinessOutcome, ConfirmedNotApplied, AfterSubmitUnknown);
    var s1 := Move(s, w, Working(token, Applying(Sent))).(inflight := s.inflight + 1);
    var s2 := Move(s1, w, Working(token, Concluded(Sent, o)));
    LostReplyConcludes(cfg, s1, w, token);
    assert Next(cfg, s2, Settle(w)).pcs == AfterPass(s, w, token).pcs;
    ThreeSteps(cfg, s, SendRequest(w), Finish(w, LostReply()), Settle(w));
  }

  lemma LostReplyConcludes(cfg: Config, s: State, w: Owner, token: nat)
    requires !cfg.prompt && s.records == [] && At(s, w) == Working(token, Applying(Sent))
    ensures Enabled(cfg, s, Finish(w, LostReply()))
    ensures var o := Plain(BusinessOutcome, ConfirmedNotApplied, AfterSubmitUnknown);
      && SettleClaimStatus(o) == FAILED_RETRYABLE
      && Next(cfg, s, Finish(w, LostReply())) == Move(s, w, Working(token, Concluded(Sent, o)))
  {
    LostReplySettles(cfg.movesMoney);
  }

  /** Without any of the three safeguards the effect can land twice. */
  lemma DelayedRequestDuplicates(cfg: Config)
    requires !cfg.dedup && !cfg.prompt && cfg.seed == None
    ensures Legal(cfg, Init(cfg), DuplicatingRun())
    ensures Run(cfg, Init(cfg), DuplicatingRun()).records == ["r1", "r2"]
  {
    var s1 := Next(cfg, Init(cfg), Admit("a"));
    var first, second := Approach("a") + Actuate("a"), Approach("b") + Actuate("b");
    var tail := [Deliver("r1"), Deliver("r2")];
    var s2 := AfterPass(s1, "a", 1);
    PassLeavesRequest(cfg, s1, "a", 1);
    OneStep(cfg, Init(cfg), Admit("a"));
    LeadsOn(cfg, Init(cfg), [Admit("a")], s1, first, s2);

    var s3 := Next(cfg, Next(cfg, s2, Admit("b")), RetryClaim("b"));
    var s4 := AfterPass(s3, "b", 2);
    TwoSteps(cfg, s2, Admit("b"), RetryClaim("b"));
    PassLeavesRequest(cfg, s3, "b", 2);
    LeadsOn(cfg, s2, [Admit("b"), RetryClaim("b")], s3, second, s4);
    LeadsOn(cfg, Init(cfg), [Admit("a")] + first, s2, [Admit("b"), RetryClaim("b")] + second, s4);

    TwoSteps(cfg, s4, Deliver("r1"), Deliver("r2"));
    var whole := ([Admit("a")] + first) + ([Admit("b"), RetryClaim("b")] + second);
    LeadsOn(cfg, Init(cfg), whole, s4, tail, Run(cfg, s4, tail));
  }

  /** Where a retry is possible, nothing has reached the target and nothing is on its way. */
  lemma RetryableMeansAbsent(cfg: Config, run: seq<Action>)
    requires cfg.prompt && cfg.seed == None && Legal(cfg, Init(cfg), run)
    ensures var s := Run(cfg, Init(cfg), run);
      s.claim.Some? && s.claim.value.status in {CLAIMED, FAILED_RETRYABLE} ==> s.records == [] && s.inflight == 0
  {
    Reachable(cfg, run);
  }

  /** Whatever the ledger states as done is at the target, with that very reference, in every run and configuration. */
  lemma LedgerNeverAhead(cfg: Config, run: seq<Action>)
    requires Legal(cfg, Init(cfg), run)
    ensures var s := Run(cfg, Init(cfg), run);
      && (IsApplied(s) ==> Evidenced(s))
      && (s.caseMoved ==> s.records != [])
      && (forall i :: 0 <= i < |s.executions| ==>
            s.executions[i].code in {Completed, ConfirmedApplied, AlreadyApplied} ==>
            s.records != [] && s.executions[i].auditRef == Some(s.records[0]))
      && (forall w :: At(s, w) == Done(true) ==> IsApplied(s))
  {
    Reachable(cfg, run);
    var s := Run(cfg, Init(cfg), run);
    forall i | 0 <= i < |s.executions| && s.executions[i].code in {Completed, ConfirmedApplied, AlreadyApplied}
      ensures s.records != [] && s.executions[i].auditRef == Some(s.records[0])
    {
      assert Backed(s, s.executions[i]);
    }
    forall w | At(s, w) == Done(true) ensures IsApplied(s) { assert Holds(s, w); }
  }

  /** What one step may do to the facts a later step relies on. */
  ghost predicate Advances(s: State, s': State) {
    && s.issued <= s'.issued
    && s.records <= s'.records
    && s.executions <= s'.executions
    && (s.caseMoved ==> s'.caseMoved)
    && (s.claim.Some? ==> s'.claim.Some? && s'.claim.value.token >= s.claim.value.token)
    && (s.claim.Some? && Terminal(s.claim.value.status) ==> s'.claim == s.claim)
  }

  lemma AdvanceStep(cfg: Config, s: State, a: Action)
    requires Fenced(s) && Enabled(cfg, s, a)
    ensures Advances(s, Next(cfg, s, a))
  {
    if !a.Deliver? && !a.Lose? { assert Holds(s, a.w); }
    if a.CommitPrecheck? || a.Settle? || a.EnterApplying? { HolderAdvances(cfg, s, a); }
    if a.CommitRecovery? { RecoveryAdvances(cfg, s, a); }
  }

  lemma HolderAdvances(cfg: Config, s: State, a: Action)
    requires Fenced(s) && Enabled(cfg, s, a) && (a.CommitPrecheck? || a.Settle? || a.EnterApplying?)
    ensures Advances(s, Next(cfg, s, a))
  {
  }

  lemma RecoveryAdvances(cfg: Config, s: State, a: Action)
    requires Fenced(s) && Enabled(cfg, s, a) && a.CommitRecovery?
    ensures Advances(s, Next(cfg, s, a))
  {
  }

  /** Tokens are only ever appended, money_moved and target records never revert, and a terminal claim never changes. */
  lemma {:induction false} AdvanceRun(cfg: Config, s: State, run: seq<Action>)
    requires Inv(cfg, s) && Legal(cfg, s, run)
    ensures Advances(s, Run(cfg, s, run))
    decreases |run|
  {
    if run != [] {
      AdvanceStep(cfg, s, run[0]);
      InvStep(cfg, s, run[0]);
      AdvanceRun(cfg, Next(cfg, s, run[0]), run[1..]);
    }
  }

  /** The token is one plus the number of reclaims, and each token belongs to the one owner it was issued to. */
  lemma TokenCountsReclaims(cfg: Config, run: seq<Action>)
    requires Legal(cfg, Init(cfg), run)
    ensures var s := Run(cfg, Init(cfg), run);
      s.claim.Some? ==>
        && s.claim.value.token == 1 + Reclaims(cfg, Init(cfg), run) == |s.issued|
        && s.claim.value.owner == s.issued[|s.issued| - 1]
  {
    Reachable(cfg, run);
    CountReclaims(cfg, Init(cfg), run);
  }

  /** The successful reclaims along a run. */
  ghost function Reclaims(cfg: Config, s: State, run: seq<Action>): nat
    requires Legal(cfg, s, run)
    decreases |run|
  {
    if run == [] then 0
    else
      var s' := Next(cfg, s, run[0]);
      (if run[0].RetryClaim? && Reclaim(s.claim, At(s, run[0].w).seen, run[0].w).Some? then 1 else 0)
        + Reclaims(cfg, s', run[1..])
  }

  lemma {:induction false} CountReclaims(cfg: Config, s: State, run: seq<Action>)
    requires Inv(cfg, s) && Legal(cfg, s, run)
    ensures var s' := Run(cfg, s, run);
      |s'.issued| == (if s.claim == None && s'.claim.Some? then 1 else 0) + |s.issued| + Reclaims(cfg, s, run)
    decreases |run|
  {
    if run != [] {
      AdvanceStep(cfg, s, run[0]);
      InvStep(cfg, s, run[0]);
      CountReclaims(cfg, Next(cfg, s, run[0]), run[1..]);
      AdvanceRun(cfg, Next(cfg, s, run[0]), run[1..]);
      IssueStep(cfg, s, run[0]);
    }
  }

  lemma IssueStep(cfg: Config, s: State, a: Action)
    requires Fenced(s) && Enabled(cfg, s, a)
    ensures |Next(cfg, s, a).issued| == |s.issued| +
      (if (s.claim == None && Next(cfg, s, a).claim.Some?)
          || (a.RetryClaim? && Reclaim(s.claim, At(s, a.w).seen, a.w).Some?)
       then 1 else 0)
  {
    if !a.Deliver? && !a.Lose? { assert Holds(s, a.w); }
    assert a.RetryClaim? ==> s.claim.Some?;
  }

  /** A superseded token can never move the claim again, whoever presents it and however the run continues. */
  lemma StaleTokenIsDead(cfg: Config, s: State, run: seq<Action>, owner: Owner, token: nat, from: set<ClaimStatus>,
                         to: ClaimStatus)
    requires Inv(cfg, s) && Legal(cfg, s, run)
    requires s.claim.Some? && token < s.claim.value.token
    ensures Transition(Run(cfg, s, run).claim, owner, token, from, to) == None
    ensures Reclaim(Run(cfg, s, run).claim, token, owner) == None
  {
    AdvanceRun(cfg, s, run);
  }

  /** Of all workers that read the same retryable claim, at most one ever reclaims it, however late the others try. */
  lemma RacingReclaimers(cfg: Config, s: State, first: Owner, run: seq<Action>, second: Owner)
    requires Inv(cfg, s) && At(s, first).SawRetryable?
    requires At(Next(cfg, s, RetryClaim(first)), first).Working?
    requires Legal(cfg, Next(cfg, s, RetryClaim(first)), run)
    ensures Reclaim(Run(cfg, Next(cfg, s, RetryClaim(first)), run).claim, At(s, first).seen, second) == None
  {
    InvStep(cfg, s, RetryClaim(first));
    StaleTokenIsDead(cfg, Next(cfg, s, RetryClaim(first)), run, second, At(s, first).seen, {}, CLAIMED);
  }

  /** All audit references recorded for the effect are the target's one reference, and stay so as long as records do. */
  lemma AuditReferencesAgree(cfg: Config, run: seq<Action>)
    requires Legal(cfg, Init(cfg), run) && (cfg.dedup || cfg.prompt || cfg.seed.Some?)
    requires IsApplied(Run(cfg, Init(cfg), run))
    ensures var s := Run(cfg, Init(cfg), run);
      && |s.records| == 1
      && (set i | 0 <= i < |s.executions| && s.executions[i].auditRef.Some? :: s.executions[i].auditRef.value)
         == {s.records[0]}
  {
    Reachable(cfg, run);
    var s := Run(cfg, Init(cfg), run);
    forall i | 0 <= i < |s.executions|
      ensures s.executions[i].auditRef.Some? ==> s.executions[i].auditRef.value == s.records[0]
    {
      assert Backed(s, s.executions[i]);
    }
    var k :| 0 <= k < |s.executions| && s.executions[k].auditRef == Some(s.records[0]);
    assert s.executions[k].auditRef.Some? && s.executions[k].auditRef.value == s.records[0];
  }
}
