# Tandem: verified model of the fenced effect protocol

Tandem drives consequential back-office procedures, here Regulation E disputes, against systems it does not own. Three
external effects of a case are irreversible: filing a chargeback, posting a provisional credit and sending a notice.
This project models how Tandem admits, performs, settles and recovers such an effect, the ledger that records it, the
workflow around it and the calendar its deadlines rest on, and proves what holds over every run.

The pieces, from the bottom up:

- **Decisions.** `Outcomes`, `Inquiry`, `Replay`, `Settlement`: how an inquiry answer, a browser replay or an HTTP request
  becomes an outcome, how the outcome settles the claim, and which causes lead to which status.
- **The protocol.** `Claims`, `Protocol`, `ProtocolSafety`: a transition system with any number of workers, one claim
  row, one target and a network that delays or loses requests; one action per durable commit, a crash or an exception
  anywhere. `Procedure` puts three such effects under any number of concurrent, dying and resumed workflow runs;
  `Fulfilment` carries an undisturbed one through.
- **The engine.** `EngineCall`, `Engine`, `CrashRecovery`, `AuditTrail`: a call as a function, the imperative transactions
  over the repository and the lease, each tied to the protocol step that stands for it, and what the rows they write say.
- **The ledger.** `EventChain`, `Migration`, `Ledger`, `Repository`, `Rebuild`, `RowIds`: hash-chained events, racing
  appenders, the upgrade of unchained ledgers, mutable projections, the fold that rebuilds them, and row ids that are
  issued again.
- **The workflow.** `StateMachine`, `RegE`, `RegERuns`, `RunStops`, `RunFacts`: one case through one run after another,
  killed between any commits, the status a stopped run leaves, and what its other writes rest on.
- **Around it.** `Lease`, `CaseLease`, `CoreBank`, `TargetReconciliation`, `RequestGuard`, `Money`, `WorkingDays`, `Deadlines`.

Code that mutates state is a class or a method with loops and is proved equal to a specification function over the old
state; the results are lemmas about those functions, and the transition systems carry inductive invariants.

Assumptions, stated once: the digest is an uninterpreted function, injective where a lemma says so; a worker the death
check reports as dead takes no further step; an owner id is never reused; a positive or negative inquiry answer tells the
target's present state, other answers tell nothing; target records are never reset; clocks, ids, identifiers drawn at
random, page behaviour and HTTP replies are parameters. The database numbers a new row one past the largest id in its table.

Where the code does less than its documentation says, the model follows the code and the condition is proved: at-most-once
needs one of three safeguards (`AtMostOnceExactly`), rebuilding forgets OVERDUE (`RebuildEqualsLive`), a claim taken before
its case is lost (`ClaimBeforeCaseIsLost`), a rebuild under a running execution may record its completion for another one
(`RebuildWhileRunningMisdirects`, exactly when: `CompletionAgreesExactly`), a truncated stream still verifies
(`DeletionIsSeenUnlessLast`), a heartbeat that read the clock early revives an expired lease
(`TokenLivesIffValidatedInTime`), a blank page after SUBMIT settles permanently failed (`PhaseSoundness`), Friday 31 December
before a Saturday New Year is a business day (`BusinessDayIsExact`), and two equal zero amounts have two texts
(`TextIsCanonicalButForZero`).

## Model

| member | source | states |
|---|---|---|
| Inquiry.NoMismatchIffCarries | tandem/replay/postcheck.py:93-117 | the field-by-field comparison passes exactly when all eight identity values are set and carried by the record |
| Inquiry.VerdictIsExact | tandem/replay/precheck.py:15-122 | both inquiries report presence exactly for a 200 record of this effect, field by field, with the exact amount, a status and a reference, which is the adapter's own or, in the precheck, the first one set; absence exactly for a 404 |
| Inquiry.DoubtIsExact | tandem/replay/postcheck.py:44-117 | an outage is exactly a transport error or a status other than 200 and 404, an ambiguous answer exactly a record of another effect or amount, and only a 200 can be invalid |
| Inquiry.NothingToAsk | tandem/replay/postcheck.py:20-38 | without a case id or an adapter the answer is invalid whatever the target would say |
| Inquiry.PrecheckTells | tandem/replay/precheck.py:60-122 | each answer has its own code; only absence lets the commit go on, every doubt is a hard failure |
| Inquiry.PostcheckTells | tandem/replay/postcheck.py:50-117 | only presence is a success, with its reference; every doubt is an uncertain effect with its own code |
| Inquiry.InquiriesAgree | tandem/replay/postcheck.py:14-117 | precheck and postcheck classify a response alike unless they read different references off a full record, which cannot happen when it carries only its own adapter's |
| Replay.Execute | tandem/replay/executor.py:49-356 | the step loop's outcome for every page behaviour, and that a submit was initiated exactly when some SUBMIT step got past its guard |
| Replay.StepsPhase | tandem/replay/executor.py:170-227 | the phase after any prefix of steps says exactly whether a SUBMIT was initiated, and a stopped run confirms nothing |
| Replay.BrowserReport | tandem/replay/executor.py:252-356 | a browser report says BEFORE_SUBMIT after an initiated submit only for the no-matching-record page, and succeeds only with a reference |
| Replay.HttpReport | tandem/replay/http_executor.py:101-172 | the same for the single HTTP request, with 401 as the only dispatched reply reported BEFORE_SUBMIT |
| Replay.Attempts | tandem/replay/reconciliation.py:31-92 | inquiries repeat only while the target is unavailable and never beyond the limit |
| Replay.Reconcile | tandem/replay/reconciliation.py:11-92 | the loop stops at the first answer that is not an outage and turns exactly that answer into its three-way outcome |
| Replay.PhaseSoundness | tandem/replay/engine.py:25-51 | APPLIED exactly on a matching record; FAILED_RETRYABLE only if nothing was submitted, the target refused with 401, or a later inquiry found nothing; otherwise UNCERTAIN, with the one exception characterised exactly |
| Replay.SubmitLastIsNeverLost | capabilities/core/post_provisional_credit.yaml:76-135 | a capability whose only SUBMIT is its last step, as the credit's is, or that makes one request, never meets that exception: having acted it is permanently failed only if the target refused it |
| Replay.BlankPageAfterSubmitFailsPermanently | tandem/replay/executor.py:170-227 | that exception is real: a concrete replay that submitted settles FAILED_PERMANENT |
| Settlement.OutcomeByCause | tandem/replay/executor.py:49-356 | what decided an attempt, be it a confirmation, a fault and whether a SUBMIT came before it, the last inquiry, a refusal or a blank page, tells the outcome's category, code, reference, money flag and side of the submit |
| Settlement.ConfirmedPhase | tandem/replay/executor.py:228-250 | a confirmed attempt reports the phase it reached, that of a confirmed submit unless there was none |
| Settlement.CauseOf | tandem/replay/engine.py:291-331 | every attempt has such a cause |
| Settlement.SettlesExactly | tandem/replay/engine.py:25-51 | an attempt settles FAILED_RETRYABLE exactly for a 401, proven absence, or before any SUBMIT a session, drift, compliance, lease or other fault; FAILED_PERMANENT exactly for a policy, entity or amount fault before any SUBMIT, a denial or the blank page; APPLIED exactly for a found record; UNCERTAIN exactly for a fault reported after a SUBMIT or an inquiry without a verdict |
| Settlement.CallLeavesExactly | tandem/replay/engine.py:148-412 | the status an unkilled call leaves the claim in, under its own owner and token, from precheck, lease and that cause |
| Settlement.KilledCallLeaves | tandem/replay/engine.py:148-412 | a killed call leaves the claim as it was, CLAIMED or APPLYING, by the number of commits it lived for |
| Settlement.RefusedCallTells | tandem/replay/engine.py:148-186 | a call that cannot have the claim leaves it alone and reports it as applied, with the reference the target gave, or as claimed |
| Protocol.FencedStep | tandem/ledger/repository.py:498-539 | every step keeps the fence: whoever still acts on a claim is its owner under the current token and status |
| Protocol.LedgerStep | tandem/replay/engine.py:191-225 | every step keeps the ledger behind the target: applied claims, completed executions and money_moved are backed by the target's record |
| Protocol.CleanStep | tandem/replay/engine.py:148-412 | when requests do not outlive a later inquiry, every step keeps at most one request and record together, and CLAIMED or FAILED_RETRYABLE means none |
| Protocol.NeverSendsStep | tandem/replay/engine.py:188-225 | a record found from the start keeps every worker from sending |
| ProtocolSafety.InvStep | tandem/replay/engine.py:148-412 | the whole inductive invariant survives each action of engine, recovery, crash and network |
| ProtocolSafety.Reachable | tandem/replay/engine.py:148-412 | it holds in every reachable state |
| ProtocolSafety.AtMostOnceExactly | tandem/replay/engine.py:148-412 | over all runs the target ends with at most one record if and only if it deduplicates, or requests do not outlive a later inquiry, or the record was there before |
| ProtocolSafety.DelayedRequestDuplicates | tandem/replay/reconciliation.py:31-92 | without those safeguards a concrete legal run lands the effect twice |
| ProtocolSafety.RetryableMeansAbsent | tandem/replay/engine.py:40-50 | a claim that can be retried has nothing at the target and nothing on its way |
| ProtocolSafety.LedgerNeverAhead | tandem/replay/engine.py:333-412 | in every run and configuration, APPLIED, a completed execution, money_moved or a successful return implies the matching target record, with that reference |
| ProtocolSafety.AdvanceRun | tandem/ledger/repository.py:112-133 | tokens are only appended, records and money_moved never revert, and APPLIED, UNCERTAIN and FAILED_PERMANENT are absorbing over every run |
| ProtocolSafety.TokenCountsReclaims | tandem/ledger/repository.py:414-476 | the token is one plus the number of reclaims and belongs to the one owner it was issued to |
| ProtocolSafety.StaleTokenIsDead | tandem/ledger/repository.py:498-539 | a superseded token never moves the claim again, whoever presents it |
| ProtocolSafety.RacingReclaimers | tandem/ledger/repository.py:423-445 | of workers that read the same retryable claim at most one ever reclaims it, also after an intervening reclaim and failure |
| ProtocolSafety.CompletionCommits | tandem/replay/engine.py:332-410 | a completed execution and the APPLIED status commit together |
| ProtocolSafety.AuditReferencesAgree | tandem/replay/crash_recovery.py:70-94 | all audit references recorded for an applied effect are the target's one reference |
| Procedure.ProcStep | tandem/workflow/reg_e.py:96-363 | every step of every concurrent or resumed run keeps the ordering facts and all three effects' invariants |
| Procedure.OrderIsDurable | tandem/workflow/reg_e.py:109-176 | in every durable state a credit claim or credit implies the obligation and an applied chargeback, and a notice claim or notice implies an applied credit and an active obligation |
| Procedure.SuccessIsComplete | tandem/workflow/reg_e.py:345-363 | a SUCCESS return, after any crashes, means each effect applied with one target record, the obligation satisfied and the deadline met |
| Procedure.MoneyMovedIsReal | tandem/workflow/reg_e.py:295-300 | money_moved, by whichever path it was set, is backed by a credit at the target |
| Fulfilment.UndisturbedRunSucceeds | tandem/workflow/reg_e.py:96-363 | whatever the three targets are like and hold already, one worker left to itself brings a new case through every step to success, so the safety above is not that of standing still |
| Fulfilment.SentDrives | tandem/replay/engine.py:148-412 | from the start one undisturbed call applies the effect under its own new record |
| Fulfilment.FoundDrives | tandem/replay/engine.py:188-225 | or under the record that was there, without sending anything |
| Engine.Admit | tandem/ledger/repository.py:393-476 | admission acquires exactly a missing or FAILED_RETRYABLE claim, under the next token, and leaves one event either way |
| Engine.AdmissionIsItsSteps | tandem/replay/engine.py:148-185 | that transaction is the protocol's admission and reclaim |
| Engine.CommitPrecheck | tandem/replay/engine.py:187-256 | the precheck transaction makes the protocol's precheck step, records a found effect once, stages the intent before going on, and leaves exactly the events of its branch |
| Engine.EnterApplying | tandem/replay/engine.py:258-288 | lease with its event, APPLYING and the started execution commit together, exactly when the lease can be had and the claim is still ours, and change nothing otherwise |
| Engine.Settle | tandem/replay/engine.py:329-410 | the settlement makes the protocol's settle step with execution, case row, claim, intent and lease release and their events in order, or changes nothing, and exactly when each |
| Engine.MarkCase | tandem/replay/engine.py:343-389 | what each outcome category writes to the case row, and the events that go with it |
| Engine.ExecuteCapability | tandem/replay/engine.py:148-412 | where one call, killed after any number of commits, leaves the claim, and what it returns |
| EngineCall.CallBudget | tandem/replay/engine.py:148-412 | a call dies exactly when its process lives for fewer commits than it makes, and what it does otherwise does not depend on how many are left |
| EngineCall.CallSucceedsExactly | tandem/replay/engine.py:148-412 | an unkilled call succeeds if and only if the claim can be had and the target ends up holding the effect, which needs the lease unless it was there; it leaves the claim APPLIED and moves money exactly if it sent the credit itself |
| EngineCall.CallIsSound | tandem/replay/engine.py:25-51 | what such a call says about the effect; a kill never leaves a newly settled claim |
| AuditTrail.ExecutionRowTells | tandem/replay/engine.py:329-342 | the completed execution's status, reference, observed member and amount, money flag and failure category, from what decided the attempt |
| AuditTrail.CaseRowTells | tandem/replay/engine.py:343-389 | the status and money flag the settlement leaves on the case, from what decided the attempt |
| AuditTrail.MarkedEventsTell | tandem/replay/engine.py:343-389 | among its events moved money, a reconciled effect and each kind of escalation appear exactly when that is what decided the attempt |
| AuditTrail.OpeningRowsTell | tandem/replay/engine.py:188-288 | what the rows written before an attempt say: a started execution, or an effect found already applied with its reference |
| CrashRecovery.RecoverDeadEffectClaims | tandem/replay/crash_recovery.py:22-127 | gives back a dead worker's lease; settles each live claim of a dead owner by the target's answer with exactly the rows that go with it, leaves the others, and stops at the first it cannot resolve, be it because somebody moved the claim since it was read |
| CrashRecovery.DecisionTells | tandem/replay/crash_recovery.py:30-64 | a claim is skipped, reported, confirmed or put back, exactly by its status, its owner's death, its adapter, the target's answer and whether it is still the one read |
| CrashRecovery.ConfirmedRowIsEvidenced | tandem/replay/crash_recovery.py:70-94 | after the walk a confirmed claim whose capability had no finished execution has a completed one under its key, with its member and amount, the target's own reference, and money moved exactly for the credit |
| CrashRecovery.FinishedIsNotRepeated | tandem/replay/crash_recovery.py:70-76 | a capability with a finished execution is given no other by the walk |
| CrashRecovery.CaseMarkedExactly | tandem/replay/crash_recovery.py:97-103 | the walk marks the case as credited exactly if it confirmed a credit, and leaves it alone otherwise |
| CrashRecovery.ConfirmedRowsAreAccounted | tandem/replay/crash_recovery.py:70-96 | every confirmed claim ends with a finished execution, a committed intent and, for the credit, the money flag, whatever claims follow it |
| CrashRecovery.ConfirmApplied | tandem/replay/crash_recovery.py:58-103 | a confirmed claim becomes APPLIED; its execution is added unless one is finished, its intent committed, the case marked for the credit, nothing else touched, and the events say so in this order |
| CrashRecovery.NoClaimLeftInFlight | tandem/replay/crash_recovery.py:30-127 | after a walk that reports nothing a claim still CLAIMED or APPLYING is one that moved after it was read |
| CrashRecovery.RecoveryIsItsStep | tandem/replay/crash_recovery.py:58-122 | what it does to one dead owner's claim, moved in between or not, is the protocol's recovery commit |
| EventChain.VerifyEventChain | tandem/ledger/repository.py:205-235 | the walk reports intact exactly for a contiguous, linked, digest-matching stream, and otherwise the first event that breaks it |
| EventChain.ChainedExactly | tandem/ledger/events.py:10-56 | such a stream counts from 1, starts from 64 zeros, and every event carries the digest of the one before it |
| EventChain.SameTipSameStream | tandem/ledger/events.py:29-56 | two verified streams that end in the same hash agree on every hashed field |
| EventChain.TamperedContentIsReported | tandem/ledger/repository.py:216-232 | rewriting hashed content of event i without its hash is reported at exactly i |
| EventChain.DeletionIsSeenUnlessLast | tandem/ledger/repository.py:205-235 | dropping event i is reported at i, unless it was the last: the head is never consulted |
| EventChain.HeadPinsTheStream | tandem/ledger/repository.py:192-193 | a verified stream with the recorded head can only be the whole one |
| EventChain.CollidesIffStale | tandem/ledger/models.py:58 | the unique key turns away exactly the appends made from a head that is no longer current |
| EventChain.CommitLandsExactly | tandem/ledger/repository.py:138-195 | a commit lands, with all its events in order, exactly when its session still holds the current head |
| EventChain.StreamAlwaysChained | tandem/ledger/repository.py:138-195 | whatever heads the sessions hold and however they interleave, the stream stays contiguous, linked and append-only |
| EventChain.RacingAppendersKeepTheChain | tandem/ledger/repository.py:149-195 | from an empty stream every interleaving verifies, with the head at its last event |
| Migration.EventDatabase.MigrateEventStream | tandem/ledger/database.py:99-150 | every row is filled in from where its case's stream stood, and exactly the heads of cases with rows are set |
| Migration.MigratedCaseVerifiesIffRowsFit | tandem/ledger/repository.py:197-235 | none of a case's rows contradicted its place if and only if the stream read in sequence order verifies afterwards and the rows stand in that order |
| Migration.PermutedRowsVerify | tandem/ledger/database.py:105-140 | complete rows of a verified stream stored in another order keep verifying although they contradict their places |
| Migration.FullRowsAreKept | tandem/ledger/database.py:124-139 | complete rows keep their stream, whatever other rows need |
| Migration.MigrationOnlyFills | tandem/ledger/database.py:110-140 | each row keeps what it has; a missing sequence, previous hash or digest continues its case's stream, a missing creation time is its timestamp, a missing id is minted |
| Migration.LegacyCaseVerifies | tandem/ledger/database.py:79-150 | a verified prefix followed by bare rows verifies after the upgrade as it is read, keeps its recorded events and has its head at the last one |
| Migration.MigratedStreamKeepsGrowing | tandem/ledger/database.py:142-155 | a migrated case then takes appends from racing sessions and keeps verifying |
| Migration.SecondRunChangesNothing | tandem/ledger/database.py:124-150 | a second run rewrites no row and no stream head |
| Rebuild.FoldIgnoresAnchor | tandem/ledger/rebuild.py:48-69 | the fold does not depend on what is left in the case row |
| Rebuild.StepAgrees | tandem/ledger/repository.py:65-750 | each of the seventeen repository operations keeps the facts folding to the live tables |
| Rebuild.FoldRefusesExactly | tandem/ledger/rebuild.py:58-206 | the fold refuses exactly when some fact changes a row that no earlier fact created |
| Rebuild.RebuildEqualsLive | tandem/ledger/rebuild.py:26-206 | for every operation sequence the rebuilt tables equal the live ones once lapsed deadlines are marked at one clock, and exactly if and only if nothing stands OVERDUE |
| Rebuild.RebuildTwiceIsOnce | tandem/ledger/rebuild.py:39-46 | rebuilding again changes nothing but row ids and never adds events |
| Rebuild.RebuildRestoresDestroyedTables | tandem/ledger/rebuild.py:39-50 | whatever happened to the tables, rebuilding restores what the facts say, provided the case row survives |
| Rebuild.HistoryIsAppendOnly | tandem/ledger/repository.py:138-195 | no operation ever rewrites history |
| Rebuild.MoneyMovedIsNeverForgotten | tandem/ledger/repository.py:119-120 | money_moved survives every operation, rebuilding included |
| Rebuild.CompletionAgreesExactly | tandem/ledger/rebuild.py:93-106 | completing keeps rebuilt and live tables equal if and only if the id has no row any more, or stands for the execution it was issued for, or both executions it stands for were completed exactly so before |
| Rebuild.MoneyEventAgreesExactly | tandem/ledger/rebuild.py:74-75 | the money-moved event alone marks the rebuilt case row, so it keeps rebuilt and live tables equal if and only if the live row was marked before |
| Rebuild.ReissuedIdMisdirectsCompletion | tandem/ledger/rebuild.py:76-106 | otherwise a re-issued id completes one execution live and another in the rebuild, which succeeds |
| Rebuild.StaleExecutionIdBreaksRebuild | tandem/ledger/rebuild.py:93-99 | completing a row under an id no start event recorded makes every rebuild refuse, in every later state |
| Rebuild.RebuildWhileRunningMisdirects | tandem/ledger/repository.py:300-331 | that happens: two executions under ids 1 and 3 are rebuilt under 3 and 4, and the worker of the second completes the first |
| Rebuild.DisciplinedIsLegal | tandem/ledger/repository.py:252-303 | runs whose starts get new ids and whose completions use ids started since the last rebuild are among those the results above speak of |
| Rebuild.OrderlyIsDisciplined | tandem/replay/engine.py:276-341 | it is enough that every execution is completed at most once and none is running at a rebuild |
| RowIds.StartedIdsAreNew | tandem/ledger/models.py:97 | after any starts and rebuilds of any cases a started execution gets an id no row ever had |
| RowIds.RebuildMayReissue | tandem/ledger/rebuild.py:39-46 | a rebuild may give an execution an id another execution of its case had |
| Rebuild.ClaimBeforeCaseIsLost | tandem/ledger/repository.py:446-470 | a claim taken before its case row exists is never rebuilt, whatever follows |
| Repository.LedgerRepository.RecordEvent | tandem/ledger/repository.py:138-195 | one linked event is appended and the head advanced; the chain invariant is kept |
| Repository.LedgerRepository.CreateOrGetCase | tandem/ledger/repository.py:65-110 | a first call creates the case as RECEIVED with its event, later ones return the row there is |
| Repository.LedgerRepository.UpdateCaseStatus | tandem/ledger/repository.py:112-133 | writes exactly the status, never takes money_moved back, and records both |
| Repository.LedgerRepository.StartExecution | tandem/ledger/repository.py:240-288 | appends a running execution under its id and one event |
| Repository.LedgerRepository.CompleteExecution | tandem/ledger/repository.py:290-333 | completes the last row with that id and no other, with one event, or finds none and writes nothing |
| Repository.LedgerRepository.StageIntent | tandem/ledger/repository.py:346-370 | stages an uncommitted intent once, with its event; a repeat changes nothing |
| Repository.LedgerRepository.MarkIntentCommitted | tandem/ledger/repository.py:378-388 | commits an existing intent once, with its event |
| Repository.LedgerRepository.ClaimEffect | tandem/ledger/repository.py:393-482 | acquires exactly when there is no claim or it is retryable, under the next token, for the given time and keeping the first identity; otherwise changes nothing and reports applied or claimed |
| Repository.LedgerRepository.TransitionEffectClaim | tandem/ledger/repository.py:498-539 | moves the claim, with heartbeat and event, exactly for its current owner, token and an admitted status |
| Repository.LedgerRepository.CreateDeadline | tandem/ledger/repository.py:559-586 | creates a pending deadline once, last in order |
| Repository.LedgerRepository.ResolveDeadline | tandem/ledger/repository.py:588-613 | a deadline on file that is not met yet, late or not, becomes met at that instant with its due time kept and one event; any other call changes nothing |
| Repository.LedgerRepository.MarkOverdueDeadlines | tandem/ledger/repository.py:619-659 | marks exactly the lapsed pending deadlines and records one event for each, in row order |
| Repository.LapsingKeepsOrder | tandem/ledger/repository.py:619-640 | they are collected in row order, each once |
| Repository.LedgerRepository.CreateObligation | tandem/ledger/repository.py:664-694 | creates a planned obligation once |
| Repository.LedgerRepository.ActivateObligation | tandem/ledger/repository.py:704-720 | activates a planned obligation, with its event, and leaves an active or satisfied one alone |
| Repository.LedgerRepository.SatisfyObligation | tandem/ledger/repository.py:722-739 | satisfies a planned or active obligation, with its event, once |
| Repository.LedgerRepository.RebuildCase | tandem/ledger/rebuild.py:26-206 | refuses a broken chain, a missing first event or case row, or an orphaned fact, changing nothing; otherwise installs exactly the folded tables |
| Repository.LedgerRepository.ReplayEvents | tandem/ledger/rebuild.py:58-206 | the event loop computes the fold, or its first error |
| Repository.IntactRebuildIsExec | tandem/ledger/rebuild.py:26-206 | over an intact chain this is the rebuild operation of the sequences above |
| Repository.RebuildRefusesFirst | tandem/ledger/rebuild.py:26-57 | what a rebuild is refused for, in this order: a stream that does not start with the case's creation, a missing case row, a fact about a row that was never created |
| CaseLease.LeaseStore.AcquireLease | tandem/ledger/repository.py:755-868 | resolves owner type and resource, inserts, renews the same owner, takes over an inactive lease, never overwrites an active one, and records an event exactly when a token is issued |
| CaseLease.LeaseStore.HeartbeatLease | tandem/ledger/repository.py:896-931 | extends exactly while owner and token validate |
| CaseLease.LeaseStore.ReleaseLease | tandem/ledger/repository.py:933-980 | releases under the given conditions, raises exactly when a condition was given and nothing matched, and records an event exactly when it released |
| CaseLease.LeaseStore.InitiateHandoff | tandem/handoff/coordinator.py:25-46 | after a handoff no token validates at any time, the case needs a human, and the events say so |
| CaseLease.LeaseStore.ClaimOperatorLease | tandem/handoff/coordinator.py:48-72 | fails exactly while somebody else's lease is active |
| CaseLease.LeaseStore.BeginSignOff | tandem/handoff/coordinator.py:74-88 | goes on exactly with a validating token, and extends it first |
| CaseLease.LeaseStore.FinishSignOff | tandem/handoff/coordinator.py:101-117 | records the sign-off together with giving the lease back, exactly while the operator still has it |
| Lease.EveryWriteIsVersioned | tandem/ledger/repository.py:828-848 | every write moves the version by one and exactly insert and takeover move the token |
| Lease.AcquireIsExact | tandem/ledger/repository.py:755-868 | who gets the lease, refused with which error, and what it then holds: from now for exactly the requested time, resource and acquisition time kept on renewal and set otherwise, the token moved only by a takeover |
| Lease.EveryWriteIsBounded | tandem/ledger/repository.py:815-950 | no write lets the lease end later than the requested time after its instant |
| Lease.UnrenewedLeaseLapses | tandem/ledger/repository.py:870-931 | over any run without a heartbeat, renewal or takeover a token stops validating when its time is up |
| Lease.TokensHaveOneOwner | tandem/ledger/repository.py:828-866 | a token keeps the one owner it was issued to; tokens and versions never go back |
| Lease.TakeoverWinsIffUnchanged | tandem/ledger/repository.py:828-852 | a read-then-update takeover wins exactly when the row is still the one read and no longer active |
| Lease.RacingTakeoversOneWins | tandem/ledger/repository.py:828-852 | two takeovers from the same read never both win, whatever happens between them |
| Lease.AcquireIsItsStatements | tandem/ledger/repository.py:778-868 | an uninterrupted acquisition is its statements in a row |
| Lease.DeadTokensStayDead | tandem/ledger/repository.py:896-931 | when no statement comes more than some lag after its caller read the clock, a token that stopped validating that long ago never validates again |
| Lease.TokenLivesIffValidatedInTime | tandem/ledger/repository.py:906-927 | some such run makes an issued token validate if and only if it validated that long ago; without lag, if and only if it validates now |
| Lease.OnlyTheHolderActs | tandem/ledger/repository.py:896-927 | while a token validates no other does, and only its holder, a release or time ends that |
| CoreBank.CoreBankState.PostCredit | simulators/core_bank/state.py:243-322 | credits once, answers an identical repeat with the same credit, refuses a conflicting one and unknown members, and changes nothing then |
| CoreBank.CoreBankState.FindCreditByCase | simulators/core_bank/state.py:324-330 | finds the one credit of an institution and case |
| CoreBank.CoreBankState.EffectCount | simulators/core_bank/state.py:332-338 | counts that pair's history entries |
| CoreBank.FirstCreditIsExact | simulators/core_bank/state.py:243-322 | which first request is refused, for which reason, and that an accepted one gets the credit it asked for on the member's account |
| CoreBank.LaterRequestAgreesExactly | simulators/core_bank/state.py:261-270 | whatever happened in between, a later request for the case gets that very credit if and only if it asks for the same member, amount, currency and reference, and is refused otherwise |
| CoreBank.MoneyIsConserved | simulators/core_bank/state.py:243-322 | after any requests every balance is its seed plus that member's credits, with one credit and one history entry at most per pair |
| CoreBank.RepeatsChangeNothing | simulators/core_bank/state.py:261-270 | a repeat, agreeing or not, changes nothing |
| CoreBank.CreditsAreForever | simulators/core_bank/state.py:257-270 | a posted credit is never changed by later requests |
| CoreBank.DelayedRepeatIsHarmless | simulators/core_bank/state.py:243-322 | a request delivered again at any later time gets the very same credit and moves no money |
| TargetReconciliation.FieldMismatches | tandem/replay/target_reconciliation.py:90-94 | lists exactly the expected fields whose value differs |
| TargetReconciliation.ReconcileClaim | tandem/replay/target_reconciliation.py:32-113 | reports nothing exactly for a full match: eight fields, status, effect count 1, amount and the one audit reference |
| TargetReconciliation.ReconcileAppliedEffects | tandem/replay/target_reconciliation.py:18-29 | reports nothing exactly if every APPLIED claim fully matches, and otherwise the first that does not |
| TargetReconciliation.NoFalseDivergence | tandem/replay/target_reconciliation.py:103-113 | after any protocol run that applied the effect, an unchanged target reconciles with the references of the executions that run completed |
| AuditTrail.WrittenRowsReconcile | tandem/replay/target_reconciliation.py:103-113 | after any run in which the engine and crash recovery write the execution rows, among any rows of other capabilities, an applied effect reconciles with an unchanged target on those very rows |
| Money.RoundsToNearestEven | tandem/domain/money.py:34 | the result is the nearest cent, ties to even, and nothing else is |
| Money.ParseIsExact | tandem/domain/money.py:16-34 | accepted exactly the finite numbers in range, sign kept, within half a cent and in range |
| Money.ParseIsIdempotent | tandem/domain/money.py:34 | parsing a parsed amount changes nothing |
| Money.ParseIsMonotone | tandem/domain/money.py:16-34 | a larger magnitude never parses to fewer cents |
| Money.MoneyRoundTrip | tandem/domain/money.py:37-39 | formatting and parsing are inverse on every amount in range |
| Money.TextHasLayout | tandem/domain/money.py:37-39 | the text is a minus sign if negative, a numeral without redundant zeros, a point and two digits |
| Money.TextIsExact | tandem/domain/money.py:37-39 | of all texts laid out so, the amount's own is the one whose digits spell its cents under its sign |
| Money.TextIsCanonicalButForZero | tandem/domain/money.py:37-39 | equal amounts have equal text, exactly the two signed zeros excepted |
| RequestGuard.GuardIsExact | tandem/replay/http_executor.py:43-72 | the guard lets a payload through exactly when it gives all eight fields, none empty, and the amount to the cent; it blames a field before the amount |
| RequestGuard.BuildIsExact | tandem/replay/http_executor.py:75-98 | a request is built exactly when the target's required inputs are there, and holds the nine canonical fields, the two that target adds and nothing else |
| RequestGuard.GuardAcceptsWhatIsBuilt | tandem/replay/http_executor.py:75-98 | whatever is built for a valid identity passes |
| RequestGuard.PayloadDeterminesIdentity | tandem/domain/identity.py:66-88 | distinct identities have distinct payloads, hence distinct keys under an injective digest |
| RequestGuard.DispatchedAmountIsApproved | tandem/policy/rules.py:20-44 | what leaves carries the approved amount through text, identity, payload and guard: positive, within the bound, in USD |
| RequestGuard.PolicyIsExact | tandem/policy/rules.py:11-57 | the policy allows exactly the commits with a valid, positive amount within the declared bound, by default 500.00, in USD or without a currency, and with a guard; which denial comes first |
| RegE.CaseRun.Transition | tandem/workflow/reg_e.py:57-77 | moves the status exactly along a permitted edge |
| RegE.CaseRun.EnsureReached | tandem/workflow/reg_e.py:79-94 | catches up with a milestone if permitted and never falls back, and how many commits that takes |
| RegE.CaseRun.Open | tandem/workflow/reg_e.py:109-176 | recovery, reconciliation and obligation on resume, or the creation of the case, commit by commit |
| RegE.CaseRun.RecoverClaims | tandem/replay/crash_recovery.py:30-127 | the claims in flight settled by the target's answers in row order, up to the first that cannot be |
| RegE.CaseRun.CatchUp | tandem/workflow/reg_e.py:79-94 | a catch-up is a commit of its own, made only if the status changes |
| RegE.CaseRun.ReadStep | tandem/workflow/reg_e.py:181-195 | a READ's rows and status commit together, once |
| RegE.CaseRun.VerifySteps | tandem/workflow/reg_e.py:181-235 | the three READs and the account binding |
| RegE.CaseRun.EffectFailure | tandem/workflow/reg_e.py:365-377 | the status each failed outcome asks for, if permitted |
| RegE.CaseRun.EngineStep | tandem/workflow/reg_e.py:240-293 | an effect is skipped when completed, stopped by the policy, or carried through the engine's call, killed between any of its commits, and its outcome judged |
| RegE.CaseRun.NoteCredit | tandem/workflow/reg_e.py:295-300 | the credit's projections: active obligation, notice deadline, money flag |
| RegE.CaseRun.SettleNotice | tandem/workflow/reg_e.py:345-354 | the notice's projections, commit by commit: deadline met and obligation satisfied, notice sent, case waiting |
| RegE.CaseRun.RunCase | tandem/workflow/reg_e.py:96-363 | one whole run, killed after any number of commits |
| StateMachine.TransitionsExactly | tandem/workflow/state_machine.py:23-80 | the permitted moves by rule instead of by table |
| RunStops.EffectStopTells | tandem/workflow/reg_e.py:240-293 | the status a case is left in when an effect stops its run: by policy, claim, precheck, lease and what decided the attempt |
| RunStops.StoppedRunTells | tandem/workflow/reg_e.py:96-377 | the status every stopped run leaves, from what stopped it: an unresolved claim, a divergence, a missing member or account, an illegal status, or an effect, each where the state machine permits it |
| RunFacts.RecoveryTells | tandem/replay/crash_recovery.py:30-127 | a run's recovery stops at the first claim in flight, of chargeback, credit and notice in this order, whose owner lives or whose target gives no answer; those before it become APPLIED or FAILED_RETRYABLE, and only a found credit marks the case |
| RunFacts.ResolvedIsDecided | tandem/replay/crash_recovery.py:30-127 | for one claim that is what the walk over the ledger's rows decides |
| RunFacts.ObligationFollowsEffects | tandem/workflow/reg_e.py:96-363 | over every run, however it ends, the obligation becomes active only with an applied credit and satisfied only with an applied notice and never goes back; the deadline is created pending with an applied credit and only ever met with an applied notice |
| RunFacts.NothingWithoutACommit | tandem/workflow/reg_e.py:96-363 | at every step of a run, a process that lives for no further commit changes nothing |
| RegERuns.RunKeepsValid | tandem/workflow/reg_e.py:96-363 | READs, money flag, obligation, claims and status stay consistent whatever a run meets and wherever it is killed |
| RegERuns.ReadsNeverRepeatAStatus | tandem/workflow/reg_e.py:62-66 | so no READ ever finds the status it is about to write, and its rows always commit with a status change |
| RegERuns.FinishedRunIsComplete | tandem/workflow/reg_e.py:345-363 | SUCCESS leaves every claim applied and the notice settled, and the case waits for resolution if and only if it was on course or a credit recovered or sent by this run put it there |
| RegERuns.RunFinishesExactly | tandem/workflow/reg_e.py:96-363 | a run returns SUCCESS if and only if its recovery resolves every claim, policy, lease and target let every missing effect through, and it lives for all its commits, which are counted |
| RegERuns.WorkflowConverges | tandem/workflow/reg_e.py:96-363 | after any history of killed and stopped runs, one favourable run of 24 commits finishes the case |
| RegERuns.CanFinishExactly | tandem/workflow/reg_e.py:96-363 | some run can finish a case if and only if none of its claims is uncertain or permanently failed, and it did not fail or get resolved before its READs were complete |
| RegERuns.BlockedForGood | tandem/workflow/reg_e.py:96-363 | once it cannot be finished, no history of runs changes that |
| RegERuns.RunProgresses | tandem/workflow/reg_e.py:96-363 | no run, however it ends, undoes anything achieved or drops or reopens a decided claim |
| RegERuns.CompletedEffectsAreNotRepeated | tandem/workflow/reg_e.py:240-293 | an effect that is completed or found by recovery never reaches the engine again |
| WorkingDays.Next | tandem/workflow/deadlines.py:103-106 | the next working day comes within four days |
| WorkingDays.NextIsFirst | tandem/workflow/deadlines.py:103-106 | and none lies before it |
| WorkingDays.AddIsTheUniqueDay | tandem/workflow/deadlines.py:95-107 | adding n working days gives the one day with n working days up to and including it, within 4n days |
| WorkingDays.AddIsMonotone | tandem/workflow/deadlines.py:95-107 | monotone in the start and in the number of days |
| WorkingDays.AddComposes | tandem/workflow/deadlines.py:95-107 | adding twice is adding the sum |
| Deadlines.HolidayWindows | tandem/workflow/deadlines.py:32-73 | the window each holiday falls in, never a weekend, and when New Year's Day is observed in the year before |
| Deadlines.HolidaysAreExact | tandem/workflow/deadlines.py:32-73 | the holidays of a year are exactly the five fixed dates as observed, the Mondays in their five weeks and the Thursday of 22 to 28 November |
| Deadlines.MonthsAreExact | tandem/workflow/deadlines.py:32-44 | the ordinals rest on months of the right lengths that make up the year |
| Deadlines.HolidaysAreSpaced | tandem/workflow/deadlines.py:56-73 | no two holidays of a year are less than ten days apart |
| Deadlines.BusinessDayIsExact | tandem/workflow/deadlines.py:92-93 | false exactly on weekends and on any year's statutory holidays as observed, but for 31 December before a Saturday 1 January |
| Deadlines.NewYearsEve2021 | tandem/workflow/deadlines.py:92-93 | that exception occurs |
| Deadlines.BusinessDayWithinFour | tandem/workflow/deadlines.py:92-93 | any four consecutive days contain a business day |
| Deadlines.DeadlineRuleSet.AddBusinessDays | tandem/workflow/deadlines.py:95-107 | the loop terminates with that day at the cutoff, for every count, negative ones included |
| Deadlines.BusinessDeadlineIsUnique | tandem/workflow/deadlines.py:95-107 | what its result means on this calendar |
| Deadlines.BusinessDeadlinesCompose | tandem/workflow/deadlines.py:95-107 | monotone and additive on this calendar |
| Deadlines.DeadlineRuleSet.Calculate | tandem/workflow/deadlines.py:109-133 | the three deadlines of a standard and of an extended case |
| Deadlines.StatutoryCounts | tandem/workflow/deadlines.py:109-133 | notice after 2, investigation after 10 or 20 business days at the cutoff, final resolution after 45 or 90 days at the time of opening |
| Deadlines.StatutoryOrder | tandem/workflow/deadlines.py:114-132 | the notice comes after the opening, not after the investigation, and that at least five days before the final resolution |
| Deadlines.EvaluateDeadlines | tandem/workflow/deadlines.py:136-153 | one status for every deadline, overdue exactly from the due instant on |

## Left out

- Browser pages, locators, sessions and screenshots: a step performs, raises before or while acting, or shows no matching record.
- Discovery, recorder, compiler, model providers, web apps, console, configuration, tokens and redaction.
- SQL itself: transactions are atomic, unique and foreign keys refuse, conditional updates report their row count, rollback undoes.
- SHA-256 and JSON: one uninterpreted digest; `_render` of templates is not modelled, identities arrive with their field values.
- Time zones and wall clocks: instants are integers, calendar days are ordinals from year 1 on, without the upper year limit of the date type.
- Effect classes READ and STAGE in the engine, inquiries through a page, and capabilities with several SUBMIT steps in the protocol.
- Protocol.FencedStep: the lease is not part of the protocol state; a lease conflict or a fenced heartbeat appears as an exception or as an outcome that may strike at any step, which only adds behaviours.
- Protocol.LedgerStep: recovery of several claims in one transaction appears as one commit per claim in the protocol; CrashRecovery has the loop.
- Liveness of the protocol: a worker that raises after its claim leaves it CLAIMED, so only safety is claimed there.
- Soundness of the operating system's death check and reuse of process ids.
- Rebuild.StepAgrees: one case's ledger; the order of intents, claims and obligations within their tables, and the case row's own timestamps, are not compared.
- Migration.EventDatabase.MigrateEventStream: values are already read into columns; a zero or empty column counts as missing, as in the code, and the creation of columns, indexes and triggers is not modelled.
- CrashRecovery.RecoverDeadEffectClaims: nobody else writes between two updates of one walk, which hold the database's write lock.
- Engine.ExecuteCapability: one worker undisturbed; interleavings are the protocol's. Heartbeats during the replay appear only as outcomes.
- RegE.CaseRun.RunCase: recovery settles all claims in one commit as in the code, marking deadlines overdue while reading the snapshot is left to Procedure and Ledger, and only the notice's deadline and obligation are tracked.
- CaseLease.LeaseStore.FinishSignOff: the page, the click and the handoff table's own row; the ticket a handoff returns.
- CoreBank.CoreBankState.PostCredit: reseeding, member search and transactions; the processor and the document store have the same shape.
- Money.ReadPlain: only plain notation is spelled out; exponents, underscores and special values are up to the reader a lemma takes as parameter.
- RequestGuard.GuardIsExact: trimming and case rules that constructing an identity applies are taken as done.
