# Governed agent harness: a verified model

This project models the runtime that lets an agent act only under recorded authority, and proves
what its parts promise together. It has four cores and some companions.

1. **The durable effect protocol** (`EffectStore`, `EffectProtocol`, `EffectInvariant`,
   `EffectLedger`, `EffectTruth`, `EffectTheorems`, `EffectOutcomes`, `EffectExactly`,
   `EffectRuns`, `EffectExpiry`, `EffectForgeries`). Any number of brokers share one database with
   other writers of evidence. A schedule is a sequence of steps; lost replies, crashes, expiring leases, late heartbeats, the
   executor's behaviour and all clocks are parameters of the steps, so a theorem about every
   schedule is a theorem about every run. The store's methods run statement by statement on the
   tables and are proved equal to the functions that the protocol is built from.
2. **The event-sourced lifecycle and the in-process kernel** (`EvidenceChain`, `LifecycleStore`,
   `LifecycleExactly`, `LifecycleInvariant`, `LifecycleTheorems`, `LifecycleLoss`,
   `LifecycleForgeries`, `LifecycleRuns`, `EffectBroker`, `BrokerRuns`, `BrokerExactly`,
   `GrantIssue`, `GovernanceKernel`, `KernelExactly`, `KernelRuns`). Evidence is the authority and
   the lifecycle table a cache that anyone may damage; other writers may append whatever the store
   takes. The kernel and its broker are objects with the source's fields.
3. **Trust over time** (`Trust`, `TrustExactly`). Signed records are accepted once under the policy
   of the day and judged later by what was frozen then.
4. **Canonical JSON** (`Utf`, `CanonicalJson`, `JsonDecoder`, `JsonGrammar`, `JsonRoundTrip`,
   `JsonShortest`). A printer and a strict decoder for the integer-only subset of RFC 8785, on code
   points and bytes.

The modules named `...Exactly` say what the operations of these cores decide and write in terms of
the records alone, as if-and-only-ifs that do not mention the operations' own parts.

Companions: `SchemaCheck` and `SchemaExactly` (the bounded-depth schema interpreter), `LockOrder`,
`Migrations`, `Scopes`, `Timestamps`. `Records` holds the records that the cores share, `Samples`
those that concrete runs start from. A digest is a constructor
applied to the digested record; `JsonRoundTrip.CanonicalInjective` proves the half of that
idealisation that does not rest on SHA-256.

`dafny verify dfyconfig.toml` checks the whole project.

## What the proofs found

Some promises hold only under a condition. The code is modelled as it is, the condition is proved
to be exact, and a lemma named here shows the failing case at a concrete input or run.

- *A completed row means that the effect is in place*: not when a dispatch that gave up on its
  completion re-reads a live row while the server still has the transaction in hand. The dispatch
  reverts, and the commit lands. `PrudentlyReachable` excludes just that; every hazard leads there
  (`EffectRuns.CompletedCanBeFalse`).
- *One execution per idempotency key*: true of the kernel. The broker alone guards a key only by a
  stored result, so after a failed dispatch another grant under the same key passes
  (`BrokerRuns.BrokerAloneRepeats`). One grant per key is enough to be safe.
- *The ledger has one intent and at most one outcome per effect*: of the events that the store
  itself writes with a row. The generic append reserves other kinds but takes
  `kernel.effect_execution_intent` and `kernel.effect_execution_outcome` too, and the in-process
  broker appends both in this way when it is given the store as its ledger and no durable store.
  Rows, calls and replies do not depend on it; the ledger may then report an effect twice, or one
  that has no row or no call (`EffectForgeries.SampleForgery`). The counts are exact, forgeries
  included, and `EffectForgeries.PlainWritersLedger` is the promise without them.
- *Rebuild repairs the cache*: not the key columns of a present row (run, request digest,
  idempotency key, operation, policy digest), which the upsert leaves and the CHECKs then refuse;
  and not a lost row whose idempotency key another row has taken (`LifecycleRuns.SampleDamage`).
- *Submitting again is safe*: not after the cached row was lost. The lookup goes to the cache, a
  second decision event is written, the call succeeds, and the next load fails
  (`LifecycleRuns.SampleDamage`). A rebuild makes the request load again if it has no grant yet,
  but in its first state.
- *An accepted approval loads back*: not when there was one already, which the call does not look
  at. After a lost row, a second submission and a rebuild an approved request asks for approval
  again; the approval is accepted, and then nothing loads or rebuilds the request ever again
  (`LifecycleRuns.SampleApprovals`).
- *Other evidence does not disturb a request*: the generic append may mention a request in another
  run, and then no load and no rebuild of it passes ever again (`LifecycleRuns.SampleMention`). An
  event of a lifecycle kind in the request's own run makes the next load fail, and if the replay
  loop takes it, the next rebuild makes it part of the request.
- *A grant follows an approval where the policy requires one*: of all that the store itself writes.
  The generic append takes grant and decision events too, replay and table accept a grant without
  an approval, and a second decision event sets any state (`LifecycleRuns.SampleForgedGrant`,
  `LifecycleRuns.ForgedDecision`). `LifecycleForgeries.LoadedGrantsExactly` and `ForgedExactly`
  say exactly when.
- *`authorize` durably*: the store's table of initial states has the key `allow`, which no policy
  decision record may carry, and lacks `authorize`. The kernel's map has `authorize`
  (`GovernanceKernel.DurableStartsAgreeExactly`). The code is followed; durable runs start only as
  denied or awaiting approval.
- *Merged constraints pass validation*: merging accepts an identical repetition of a constraint
  within one record, the validator refuses it (`GrantIssue.RepeatedConstraintRefused`).
- *The same answer under every trust context*: an artifact is active under all or none, but where
  a time lies within the skew of an end of the datetime range a sum overflows, and the error
  escapes instead of a no (`Trust.AnswersDiffer`). With room around all times the answers agree.
- *A larger schema depth accepts more*: not under `not`, `oneOf` or `if`, which take the depth
  failure for a mismatch (`SchemaCheck.NotTurnsDepthIntoAcceptance` and its two companions).
- *A live row can always be recovered*: only while its actor context is valid, since the outcome's
  scope is derived from it. Later it stays live, and its key and grant taken, whatever follows
  (`EffectExpiry.SampleIsStranded`).

## Model

| member | source | states |
|---|---|---|
| `Records.BindingDetectsDrift` | src/governed_agent_harness/persistence/store.py:303-328 | two sets of authority have the same execution binding digest exactly when they are the same actor context, request, policy, approvals and grant |
| `EvidenceChain.AppendKeepsChain` | src/governed_agent_harness/persistence/store.py:1534-1560 | one append by any of the three writers, under any clock, adds one event to a chain and keeps numbers contiguous, digests linked and times ascending |
| `EvidenceChain.ChainsStayWellFormed` | src/governed_agent_harness/persistence/store.py:1604-1659 | so do all mixtures of the three writers and all clocks, refusals included |
| `EvidenceChain.TimesNeverDecrease` | src/governed_agent_harness/persistence/store.py:1617-1626 | recorded times never go back anywhere in a chain |
| `EvidenceChain.StoreAndMemoryWritersAgree` | src/governed_agent_harness/kernel/core.py:238-243 | comparing the raw clock (database) and comparing the truncated one (memory) accept the same clocks and stamp the same times |
| `EvidenceChain.ClampOnlyWhereRefused` | src/governed_agent_harness/persistence/execution.py:413-419 | the clamping writer never refuses, and differs from the refusing one exactly when the clock is behind the chain |
| `EvidenceChain.AppendSays` | src/governed_agent_harness/persistence/execution.py:413-419 | on a chain each writer accepts exactly the clocks stated for it, and the event it adds says what the draft says, follows the last one, and bears the clock cut to milliseconds, or just the last event's time where the clamping writer's clock is behind it |
| `EvidenceChain.HeadDigestDeterminesChain` | src/governed_agent_harness/persistence/store.py:1616-1659 | the digest at the head of a chain determines every event before it |
| `EvidenceChain.InMemoryEvidenceLedger.Append` | src/governed_agent_harness/kernel/core.py:227-277 | the in-process ledger appends one linked event to its tenant, or refuses and keeps every event of every tenant |
| `Timestamps.StringOrderIsTimeOrder` | src/governed_agent_harness/kernel/core.py:240-243 | comparing fixed-width timestamps as strings is comparing them in time, for all valid calendar dates |
| `EffectStore.PostgresEffectStore.AppendEvidenceRow` | src/governed_agent_harness/persistence/store.py:1534-1602 | locks the run head in actor scope, builds the envelope and commits it, or leaves the runs as they were |
| `EffectStore.PostgresEffectStore.PrepareEffect` | src/governed_agent_harness/persistence/store.py:1023-1119 | an exact replay returns the stored row, any other clash is refused; otherwise intent, row and grant consumption are written together or not at all |
| `EffectStore.PostgresEffectStore.RenewLease` | src/governed_agent_harness/persistence/migrations/0003_runtime_api.sql:268-280 | only the live fenced owner with an unexpired lease extends it, and the version stays |
| `EffectStore.PostgresEffectStore.CompareAndComplete` | src/governed_agent_harness/persistence/migrations/0003_runtime_api.sql:281-296 | the terminal write passes only for the expected version, attempt and generation under an unexpired lease; a refusal also undoes the evidence |
| `EffectStore.PostgresEffectStore.CompleteEffect` | src/governed_agent_harness/persistence/store.py:1121-1218 | exact repetition of a recorded completion returns it; otherwise the bound outcome and its evidence are written atomically |
| `EffectStore.PostgresEffectStore.CompareAndRecover` | src/governed_agent_harness/persistence/migrations/0003_runtime_api.sql:297-318 | the fencing write needs the attempt, the generation and an expired lease, and raises the generation |
| `EffectStore.PostgresEffectStore.RecoverExpired` | src/governed_agent_harness/persistence/store.py:1247-1324 | a terminal row is returned as it is; an expired live one is fenced and made indeterminate with its evidence, atomically |
| `EffectInvariant.StepKeepsInv` | src/governed_agent_harness/kernel/effects.py:371-492 | every step of every broker, recovery or other writer keeps rows bound to their authority, rows unique in request, key and grant, and calls, processes and rows consistent |
| `EffectInvariant.ReachableInv` | src/governed_agent_harness/kernel/effects.py:371-492 | that holds after every schedule of any number of processes, with crashes, lost replies and expiries |
| `EffectInvariant.RowsEvolve` | src/governed_agent_harness/persistence/store.py:1146-1201 | in one step no row disappears, and a terminal one does not change at all |
| `EffectLedger.StepKeepsLedger` | src/governed_agent_harness/persistence/store.py:1078-1102 | every step, generic appends of any event included, keeps each row's intent and outcome in place, and the effect events of every run and grant equal in number to those of its row plus those appended by others |
| `EffectLedger.ReachableLedger` | src/governed_agent_harness/persistence/store.py:1078-1102 | that holds after every schedule, with chains well formed |
| `EffectTruth.StepKeepsTruth` | src/governed_agent_harness/kernel/effects.py:470-492 | every step except a re-read inside a hazard keeps the claim of success true of the outside world |
| `EffectTruth.ReachableTruth` | src/governed_agent_harness/kernel/effects.py:441-492 | so does every prudent schedule |
| `EffectTruth.CompletedMeansInEffect` | src/governed_agent_harness/kernel/effects.py:441-492 | in every prudent run a completed row means that exactly one executor call was made for it, that its effect is active, and that it was never reverted |
| `EffectTruth.ReportedSuccessIsInEffect` | src/governed_agent_harness/kernel/effects.py:470-492 | whoever is told of success, by first reply, replay, reconciliation or recovery, the effect is in place |
| `EffectTheorems.AtMostOneCall` | src/governed_agent_harness/kernel/effects.py:380-440 | two executor calls in any run never share a request, an idempotency key or a grant within a tenant |
| `EffectTheorems.IntentPrecedesCall` | src/governed_agent_harness/kernel/effects.py:395-440 | the executor is called at most once by a dispatch, under fully bound authority that required approval, with its row there and its own intent already in the ledger at its place |
| `EffectTheorems.RowsOnlyEvolve` | src/governed_agent_harness/persistence/store.py:1121-1324 | between any two moments of any run a row keeps authority, intent and attempt, and a terminal row stays the same for ever |
| `EffectTheorems.RecordedStates` | src/governed_agent_harness/persistence/store.py:1146-1201 | `failed` is unreachable; state, version, generation and outcome of a row always fit together |
| `EffectTheorems.Agreement` | src/governed_agent_harness/kernel/effects.py:322-369 | all dispatches and recoveries of one request that return, at any two times, return one outcome, and it is the one recorded |
| `EffectTheorems.FencedForGood` | src/governed_agent_harness/persistence/store.py:1267-1307 | once recovery has raised the generation no later step changes the row, the outcomes of its grant in the ledger are its own and those appended by others, and nobody is told of success |
| `EffectTheorems.LedgerMatchesRow` | src/governed_agent_harness/persistence/store.py:1078-1102 | each row has its intent in its run, and later its outcome exactly when it is terminal; all other effect events of its grant came through the generic append, so that its own are alone exactly when none came that way |
| `EffectTheorems.EvidenceHasRow` | src/governed_agent_harness/persistence/store.py:1078-1119 | every effect event belongs to a row of its run and grant or came through the generic append; all have rows exactly when those that came that way do |
| `EffectTheorems.CompletionPassesExactly` | src/governed_agent_harness/kernel/effects.py:432-469 | a completion passes exactly when the row is live, the lease unexpired and the evidence clock not behind: renewals and heartbeats never invalidate the captured version |
| `EffectTheorems.HeartbeatBuysTime` | src/governed_agent_harness/kernel/effects.py:494-515 | a heartbeat in time buys the whole new lease: whatever less time passes after it, the completion still passes |
| `EffectTheorems.PreparationExactly` | src/governed_agent_harness/persistence/store.py:1511-1532 | in reachable states a preparation is a replay exactly for the very same authority, creates a row exactly when nothing in the tenant shares request, key or grant, and is otherwise refused without effect |
| `EffectTheorems.EveryHazardIsReal` | src/governed_agent_harness/kernel/effects.py:476-491 | the condition of the truth theorem cannot be dropped: from every hazard three more steps record a reverted effect as completed |
| `EffectOutcomes.StepKeepsTold` | src/governed_agent_harness/kernel/effects.py:595-718 | every step keeps what each outcome in hand, in flight or in a row was told from: the answer of the executor of just that dispatch and the stamp with which it built the outcome, or a recovery's stamp |
| `EffectOutcomes.AnswersExactly` | src/governed_agent_harness/kernel/effects.py:595-618 | the recorded answers are those of the executor calls of the schedule and no others |
| `EffectOutcomes.AnsweredAndBuiltOnce` | src/governed_agent_harness/kernel/effects.py:595-718 | a dispatch has one answer and one built outcome in a schedule |
| `EffectOutcomes.RecordedOutcomeTells` | src/governed_agent_harness/kernel/effects.py:637-718 | after every schedule a row's outcome has exactly the result that the executor of the dispatch that made the row answered (and is then completed), or says that it broke and was undone; or a recovery says that nobody knows, exactly at generation 2; with its id, times, scope and references from the step that built it, and with its evidence |
| `EffectOutcomes.ReturnedOutcomeTells` | src/governed_agent_harness/kernel/effects.py:371-492 | so does whatever any dispatch or recovery returns |
| `EffectExactly.AuthorisedExactly` | src/governed_agent_harness/persistence/store.py:1856-1920 | the stored authority is valid exactly when actor, request, decision, every approval in order and the grant are of one tenant and name each other, each approval approves with its duties done, and no time goes back |
| `EffectExactly.CallsAreAuthorised` | src/governed_agent_harness/persistence/store.py:1856-1920 | in every reachable world each executor call was made under such authority |
| `EffectExactly.DispatchLooksExactly` | src/governed_agent_harness/kernel/effects.py:380-397 | the first look of a dispatch returns the recorded outcome exactly when the row is settled and for this very authority, goes on exactly without a row, and raises otherwise |
| `EffectExactly.RecoveryLooksExactly` | src/governed_agent_harness/kernel/effects.py:322-345 | the first look of a recovery returns the recorded outcome or goes on with the live row exactly when the row is of this very actor context |
| `EffectExactly.RereadsExactly` | src/governed_agent_harness/kernel/effects.py:470-492 | the re-read after a completion without an answer returns exactly its own recorded outcome, undoes a success exactly when the row is live, and raises otherwise |
| `EffectExactly.PreparesExactly` | src/governed_agent_harness/persistence/store.py:1023-1119 | a preparation creates a row exactly when no row of the tenant has its request, key or grant and the run takes the event; it returns the row there is exactly for this very authority |
| `EffectExactly.CompletesExactly` | src/governed_agent_harness/persistence/store.py:1121-1218 | a completion passes exactly for the holder of the live row at its version, under its lease, with an outcome that names just this authority and intent; or when just this was completed before |
| `EffectExactly.RecoversExactly` | src/governed_agent_harness/persistence/store.py:1247-1324 | a recovery passes exactly for a settled row, or a live one whose lease is over, with such an outcome |
| `EffectExactly.RenewsExactly` | src/governed_agent_harness/persistence/migrations/0003_runtime_api.sql:268-280 | a renewal passes exactly for the holder of a live row before its lease is over, and the lease starts anew |
| `EffectExactly.PreparedRowSays` | src/governed_agent_harness/persistence/store.py:1066-1119 | a created row is prepared, at version and generation 1, with a lease that ends just `lease` after now, and an intent event of this actor, request, decision and grant that is added to the run |
| `EffectExactly.CompletedRowSays` | src/governed_agent_harness/persistence/store.py:1170-1218 | a completion changes just state, version, outcome and outcome evidence of the row, and the evidence says this outcome and no recovery |
| `EffectExactly.FencedRowSays` | src/governed_agent_harness/persistence/store.py:1280-1324 | a recovery does the same, makes the row indeterminate, raises its generation and says so in the evidence |
| `EffectRuns.SoloDispatchCompletes` | src/governed_agent_harness/kernel/effects.py:371-492 | a dispatch of any valid authority that is left alone completes and returns success with just the result that its executor answered, about this authority and intent, with its effect in place |
| `EffectRuns.SoloHazard` | src/governed_agent_harness/kernel/effects.py:476-491 | for any valid authority the hazard is reachable, by a commit that is applied after its client gave up |
| `EffectRuns.CompletedCanBeFalse` | src/governed_agent_harness/kernel/effects.py:476-491 | a concrete run ends with a completed row whose effect was reverted |
| `EffectRuns.RecoveryPassesExactly` | src/governed_agent_harness/kernel/effects.py:336-369 | after its lease has run out a live row is recovered exactly while the actor context is still valid and the evidence clock is not behind; else nothing changes |
| `EffectForgeries.ForeignAppendExactly` | src/governed_agent_harness/persistence/store.py:722-756 | from every reachable state a generic append leaves a row's own effect events alone in the ledger exactly when it is no effect event of the row's run and grant, and leaves the row and its evidence in place in any case |
| `EffectForgeries.ForeignEventKnownExactly` | src/governed_agent_harness/persistence/store.py:722-756 | and it leaves every effect event with a row exactly when it is no effect event or has a row of its run and grant |
| `EffectForgeries.PlainWritersLedger` | src/governed_agent_harness/persistence/store.py:1078-1119 | in every run whose other writers append no effect events each row has one intent and, exactly when terminal, one outcome, and no effect event is without a row |
| `EffectForgeries.EventWithoutRow` | src/governed_agent_harness/persistence/store.py:722-756 | from the empty store, any effect event appended this way has no row |
| `EffectForgeries.OutcomeBeforeCall` | src/governed_agent_harness/persistence/store.py:722-756 | for any valid authority: its intent is written, its executor not called, and the ledger has an outcome of its grant while its row is live |
| `EffectForgeries.SampleForgery` | src/governed_agent_harness/persistence/store.py:722-756 | a concrete ledger that reports the success of a call that was never made |
| `EffectExpiry.ExpiredStaysLive` | src/governed_agent_harness/kernel/effects.py:336-369 | once its actor context is over, a live row that nobody has an outcome for stays live after all further steps of all processes |
| `EffectExpiry.StrandedForGood` | src/governed_agent_harness/kernel/effects.py:336-369 | for any authority: prepare, let lease and context run out, and a recovery raises and changes nothing, and nothing settles the row afterwards |
| `EffectExpiry.SampleIsStranded` | src/governed_agent_harness/kernel/effects.py:336-369 | a concrete such run |
| `LifecycleStore.CheckChain` | src/governed_agent_harness/persistence/store.py:1398-1409 | the chain loop accepts exactly contiguous, linked, time-ordered runs |
| `LifecycleStore.SelectStory` | src/governed_agent_harness/persistence/store.py:1410-1424 | selects, in order, the lifecycle events that mention the request |
| `LifecycleStore.FoldLoop` | src/governed_agent_harness/persistence/store.py:1459-1498 | the replay loop over the later events computes the recursive fold, failing where it fails |
| `LifecycleStore.PostgresLifecycleStore.ReplayLifecycle` | src/governed_agent_harness/persistence/store.py:1378-1509 | replays the one run that holds the story of the request, or fails |
| `LifecycleStore.PostgresLifecycleStore.LoadLifecycle` | src/governed_agent_harness/persistence/store.py:1334-1376 | returns the replay exactly when the cached row agrees with it |
| `LifecycleStore.PostgresLifecycleStore.PersistSubmission` | src/governed_agent_harness/persistence/store.py:758-832 | idempotent replays load; a first submission writes evidence and projection together or neither |
| `LifecycleStore.PostgresLifecycleStore.PersistApproval` | src/governed_agent_harness/persistence/store.py:834-896 | exact replays return the stored lifecycle; otherwise approval evidence and projection advance together |
| `LifecycleStore.PostgresLifecycleStore.PersistGrant` | src/governed_agent_harness/persistence/store.py:898-969 | the same for the grant |
| `LifecycleStore.PostgresLifecycleStore.RebuildLifecycle` | src/governed_agent_harness/persistence/store.py:978-1021 | upserts the replay into the cache and touches no evidence |
| `LifecycleExactly.AuthorityExactly` | src/governed_agent_harness/persistence/store.py:1760-1825 | what is recorded of a request is accepted exactly when the actor asks for it, the approval approves just this request and decision, which required one, with its duties done, its constraints and its times, and the grant permits just that |
| `LifecycleExactly.MaySubmitExactly` | src/governed_agent_harness/persistence/store.py:758-789 | a submission is valid exactly when the actor asks, all of one tenant, and the decision denies or requires an approval and the state handed in says so |
| `LifecycleExactly.OpensExactly` | src/governed_agent_harness/persistence/store.py:1425-1455 | a story opens with exactly an event of this actor context that says its own request and decision, with their digests and the decision's state |
| `LifecycleExactly.FollowsExactly` | src/governed_agent_harness/persistence/store.py:1459-1498 | the replay takes exactly events under the decision that are a first approval before any grant, a first grant, or another decision, each saying what it says; and from each just that |
| `LifecycleInvariant.StepKeepsInv` | src/governed_agent_harness/persistence/store.py:758-1021 | every step (submissions, approvals, grants, any evidence by others, tampering with rows, repairs) keeps the chains and the table constraints, and of every request whose story was not disturbed the story replayable and the untampered row equal to its fold |
| `LifecycleInvariant.ReachableInv` | src/governed_agent_harness/persistence/store.py:758-1021 | that holds after every schedule of any number of requests, runs, actors and other writers |
| `LifecycleInvariant.CarefulIsUndisturbed` | src/governed_agent_harness/persistence/store.py:722-756 | no story is disturbed by a schedule in which no lost row is submitted again and no other evidence poses as a story or mentions a request from elsewhere |
| `LifecycleTheorems.CacheAgreesWithLog` | src/governed_agent_harness/persistence/store.py:1334-1376 | on every schedule, of the requests whose own story was not disturbed the untampered rows are exactly the submitted ones, each is the fold of its evidence with version = number of events, and exactly its author can load it |
| `LifecycleTheorems.GrantsWereApproved` | src/governed_agent_harness/persistence/store.py:773-779 | no untampered row of an undisturbed request is ever in `policy_authorized`; its approval approves field by field, and its grant permits field by field, under a policy that required it |
| `LifecycleTheorems.EvidenceNeverRewritten` | src/governed_agent_harness/persistence/store.py:1534-1560 | between any two moments of any schedule, careful or not, a run keeps its owner and its events and only gets more |
| `LifecycleTheorems.SubmissionPassesExactly` | src/governed_agent_harness/persistence/store.py:758-832 | in reachable states a valid submission passes exactly when no row of the tenant has its key, the request id is free and the run takes the event; or the actor's row under the key is of this very request and loads |
| `LifecycleTheorems.SubmissionLoadsExactly` | src/governed_agent_harness/persistence/store.py:790-832 | on every schedule a written submission returns what an immediate load returns exactly when the actor's evidence had no story of the request and no mention of it outside its run; else that load fails |
| `LifecycleTheorems.ApprovalLoadsBack` | src/governed_agent_harness/persistence/store.py:834-896 | on every schedule an accepted approval returns what an immediate load returns exactly when it was there already, or there was none yet and the story is in the run that the request names; else no load passes |
| `LifecycleTheorems.GrantLoadsBack` | src/governed_agent_harness/persistence/store.py:898-969 | so does an accepted grant, exactly when it was there already or the story is in the run that the request names |
| `LifecycleTheorems.ApprovalPassesExactly` | src/governed_agent_harness/persistence/store.py:843-896 | on every schedule an approval passes exactly when it is the one there, or the loaded request waits for one at this version, the approval approves it field by field, and the clock is not behind; the compare-and-set and the table constraints never refuse |
| `LifecycleTheorems.GrantPassesExactly` | src/governed_agent_harness/persistence/store.py:907-969 | the same for a grant that permits the request field by field, in `approved` or `policy_authorized`, with or without an approval that was loaded |
| `LifecycleTheorems.AcceptedApprovalsApprove` | src/governed_agent_harness/persistence/store.py:1779-1790 | on every schedule an accepted approval approves the request it is accepted for; one that rejects, or whose duties are not done, is refused and changes nothing |
| `LifecycleTheorems.LoadedAuthority` | src/governed_agent_harness/persistence/store.py:1760-1825 | on every schedule whatever loads was asked by its actor, its approval approves it and its grant permits it |
| `LifecycleTheorems.KeysHeldOnce` | src/governed_agent_harness/persistence/migrations/0003_runtime_api.sql:208-234 | after every schedule no two rows of a tenant have the same idempotency key |
| `LifecycleTheorems.RebuildPassesExactly` | src/governed_agent_harness/persistence/migrations/0003_runtime_api.sql:208-234 | whatever was done to cache and evidence, a rebuild passes exactly when the story replays to something the table can hold, a lost row's idempotency key is free, and a present row has kept its owner and key columns |
| `LifecycleTheorems.UndisturbedRebuild` | src/governed_agent_harness/persistence/store.py:978-1021 | the story of an undisturbed request replays exactly for its author, to something the table can hold |
| `LifecycleTheorems.RebuildRestores` | src/governed_agent_harness/persistence/store.py:978-1021 | a rebuild restores the fold, leaves evidence and other rows alone, makes the next load return the fold, and changes nothing when repeated |
| `LifecycleTheorems.ForeignEvidenceExact` | src/governed_agent_harness/persistence/store.py:722-756 | on every schedule a generic append leaves the load of a request alone exactly when it does not concern the request, or mentions it where its story is and under another kind; else the next load fails |
| `LifecycleLoss.DeadForGood` | src/governed_agent_harness/persistence/store.py:1378-1509 | a request that is mentioned in two runs, or whose story the replay loop refuses, is never loaded or rebuilt again, whatever follows |
| `LifecycleLoss.ForeignMentionIsGone` | src/governed_agent_harness/persistence/store.py:1384-1392 | a generic append that mentions a loaded request outside the run of its story puts it out of reach for good |
| `LifecycleLoss.LostApprovalIsGone` | src/governed_agent_harness/persistence/store.py:1464-1466 | an accepted approval that does not load back puts the request out of reach for good |
| `LifecycleLoss.LostGrantIsGone` | src/governed_agent_harness/persistence/store.py:1384-1392 | so does an accepted grant that does not load back |
| `LifecycleLoss.ResubmissionExactly` | src/governed_agent_harness/persistence/store.py:790-832 | of any request that loads with its story at home: after its row is lost it can be submitted again, the next load fails, and a rebuild makes it load as before, with its approval but in its first state, exactly when it has no grant |
| `LifecycleLoss.ApprovedTwiceIsGone` | src/governed_agent_harness/persistence/store.py:855-896 | so any approved request can be lost for good: after loss, resubmission and rebuild the next fitting approval is accepted, and nothing loads or rebuilds the request afterwards |
| `LifecycleForgeries.UnguardedIsForged` | src/governed_agent_harness/persistence/store.py:1459-1498 | on every schedule, what replays with no approval and yet has a grant or stands further than a submission can put it has a promoting event of its story that came through the generic append |
| `LifecycleForgeries.LoadedGrantsExactly` | src/governed_agent_harness/persistence/store.py:1791-1825 | on every schedule a loaded grant fits request and policy, and its approval if any, which fits a policy that requires it; it has none exactly when the story has a forged promotion and no approval |
| `LifecycleForgeries.RecordedGrantsWereApproved` | src/governed_agent_harness/persistence/store.py:907-969 | on every schedule a grant that a call records comes after a fitting approval, unless the story has a forged promotion |
| `LifecycleForgeries.AdoptedExactly` | src/governed_agent_harness/persistence/store.py:722-756 | from any loaded request, one generic append and a rebuild: exactly which event turns up in the loaded story, and exactly when the request loads as before |
| `LifecycleForgeries.ForgedExactly` | src/governed_agent_harness/persistence/store.py:722-756 | then a request without approval has a grant, or stands further than a submission can put it, exactly when the event was a grant, or such a decision, of its story; with an approval every event that is taken leaves it there |
| `LifecycleForgeries.PlainWritersApprove` | src/governed_agent_harness/persistence/store.py:758-1021 | in every run whose other writers append no lifecycle events, resubmissions after loss, mentions, tampering and rebuilds included, what loads without an approval has no grant, and every grant comes after a fitting approval |
| `LifecycleRuns.ResubmissionAfterLoss` | src/governed_agent_harness/persistence/store.py:790-832 | any valid submission, a lost row and the same submission again: the call answers as if new and the next load fails; after a rebuild it loads again, at version 2 |
| `LifecycleRuns.ForeignMention` | src/governed_agent_harness/persistence/store.py:722-756 | any valid submission and then a step that appends, in another run, an event that names the request: the load passed before, and the request is out of reach for good |
| `LifecycleRuns.RebuildKeepsKeyColumns` | src/governed_agent_harness/persistence/migrations/0003_runtime_api.sql:208-234 | any valid submission whose row was overwritten with another request or policy under its ids: the load fails, and the rebuild is refused and changes nothing |
| `LifecycleRuns.RebuildFindsKeyTaken` | src/governed_agent_harness/persistence/migrations/0003_runtime_api.sql:208-234 | any valid submission, a lost row and another request under its key: the rebuild is refused though the evidence replays |
| `LifecycleRuns.ApprovedTwice` | src/governed_agent_harness/persistence/store.py:855-896 | any valid submission and two fitting approvals: submit, approve, lose the row, submit again, rebuild, approve; the last call succeeds and the request is out of reach for good |
| `LifecycleRuns.ForgedGrant` | src/governed_agent_harness/persistence/store.py:1791-1825 | any valid submission, the event of a grant that names no approval, and a rebuild: the request loads with that grant and without an approval, whatever the policy asks |
| `LifecycleRuns.ForgedDecision` | src/governed_agent_harness/persistence/store.py:1495-1498 | any valid submission, a second decision event that authorises, and a rebuild: the request loads in `policy_authorized`, and a grant is recorded for it without an approval |
| `LifecycleRuns.SampleDamage` | src/governed_agent_harness/persistence/store.py:978-1021 | three concrete runs of that kind from the empty store |
| `LifecycleRuns.SampleMention` | src/governed_agent_harness/persistence/store.py:722-756 | a concrete run in which a foreign mention makes a load fail |
| `LifecycleRuns.SampleApprovals` | src/governed_agent_harness/persistence/store.py:855-896 | a concrete run in which an approval is accepted twice |
| `LifecycleRuns.SampleRejection` | src/governed_agent_harness/persistence/store.py:1779-1790 | a concrete run in which an approval passes, and the same record with a rejecting disposition does not |
| `LifecycleRuns.SampleForgedGrant` | src/governed_agent_harness/persistence/store.py:1791-1825 | a concrete run that loads an unapproved grant under a policy that requires approval |
| `EffectBroker.DispatchKeepsInv` | src/governed_agent_harness/kernel/effects.py:237-320 | every dispatch keeps, for every grant: one intent exactly if consumed, at most one outcome, and an active effect exactly if success is recorded or a revert failed |
| `EffectBroker.DispatchOrder` | src/governed_agent_harness/kernel/effects.py:256-311 | one dispatch calls the executor at most once; intent evidence and consumption come before, the outcome after |
| `BrokerRuns.KeyUsedTwiceExactly` | src/governed_agent_harness/kernel/effects.py:237-257 | over every run of broker dispatches two executor calls share an idempotency key exactly when, after a call under it that stored no result, a valid dispatch brought another, unconsumed grant under the key |
| `BrokerRuns.CallStoresExactly` | src/governed_agent_harness/kernel/effects.py:260-320 | a dispatch that called the executor stores its result exactly when no revert failed, the outcome could be built and the clock did not go back |
| `BrokerRuns.OneGrantOneCall` | src/governed_agent_harness/kernel/effects.py:237-257 | a caller that never presents two grants under one key gets at most one call under it, over every run and however many dispatches fail |
| `BrokerRuns.FailedKeyIsUsedAgain` | src/governed_agent_harness/kernel/effects.py:237-257 | after a call that stored no result, any other valid grant under the same key is executed as well |
| `BrokerRuns.BrokerAloneRepeats` | src/governed_agent_harness/kernel/effects.py:237-257 | a concrete run of two dispatches with two executor calls under one key |
| `BrokerExactly.StandsExactly` | src/governed_agent_harness/contracts/validation.py:832-945 | a grant is valid exactly when it names just this request and decision, lets effects happen, carries all constraints once and supported, refers to approvals that approve with their duties done in its time, and is signed |
| `BrokerExactly.CallExactly` | src/governed_agent_harness/kernel/effects.py:201-268 | the executor is called exactly when all inputs belong together in their times, the grant is valid, nothing is stored under the key, the grant is unconsumed and the ledger takes the clock |
| `BrokerExactly.DispatchExactly` | src/governed_agent_harness/kernel/effects.py:260-320 | a dispatch that calls appends its intent and consumes its grant, and returns exactly when nothing goes wrong afterwards; then the outcome it appends, stores and returns has the very result that the executor answered, or says that it broke, about this authority, from this moment to the end of the actor context |
| `BrokerExactly.ReplayExactly` | src/governed_agent_harness/kernel/effects.py:237-257 | under a key with a stored result a dispatch changes nothing, and returns that very execution exactly when it brings the same request, policy and grant |
| `BrokerExactly.DispatchedForGood` | src/governed_agent_harness/kernel/effects.py:237-257 | so a dispatch that returned is returned again by every later valid one of the same authority, whatever is dispatched in between |
| `EffectBroker.InMemoryEffectBroker.DispatchEffect` | src/governed_agent_harness/kernel/effects.py:189-320 | the broker object, with its reverts in the failure paths, does what the specification of one dispatch says |
| `EffectBroker.InMemoryEffectBroker.RecordOutcome` | src/governed_agent_harness/kernel/effects.py:275-320 | an outcome that cannot be built or recorded is undone if the effect is active, and then raised |
| `GrantIssue.MergeConstraints` | src/governed_agent_harness/kernel/core.py:973-982 | merging fails exactly when two constraints share a key and differ; else it lists each constraint once, in the order of first occurrence |
| `GrantIssue.MergedListIsPolicyList` | src/governed_agent_harness/persistence/store.py:1784-1817 | the merged list is the policy's own list, which durable grants and approvals must repeat, exactly when no key occurs in it twice |
| `GrantIssue.ConstraintBindings` | src/governed_agent_harness/contracts/validation.py:882-890 | fails exactly on a duplicated key, else maps each key to its parameters |
| `GrantIssue.CollectApprovals` | src/governed_agent_harness/contracts/validation.py:895-901 | fails exactly on a duplicated approval id, else maps each id to its approval |
| `GrantIssue.ValidateGrantBinding` | src/governed_agent_harness/contracts/validation.py:832-945 | the validator's loops decide the declarative binding of grant, request, policy and every referenced approval |
| `GrantIssue.GrantWindow` | src/governed_agent_harness/kernel/core.py:766-778 | a grant lasts for a positive time of at most five minutes and outlives neither actor context nor approval, despite truncation to milliseconds |
| `GrantIssue.IssuedGrantPassesExactly` | src/governed_agent_harness/kernel/core.py:780-831 | the validator accepts an issued grant exactly when neither policy nor approval lists a constraint key twice |
| `GrantIssue.RepeatedConstraintRefused` | src/governed_agent_harness/kernel/core.py:973-982 | a concrete policy that lists one constraint twice: merging takes it, and the validator refuses the signed grant |
| `GrantIssue.FirstOccurrencesInOrder` | src/governed_agent_harness/kernel/core.py:973-982 | the merged list has the order in which its constraints occur first |
| `GovernanceKernel.InProcessKernel.SubmitRequest` | src/governed_agent_harness/kernel/core.py:345-437 | first submissions bind key, request and record together; replays return the record; conflicts and refusals change nothing but the clock-refused ledger |
| `GovernanceKernel.InProcessKernel.Approve` | src/governed_agent_harness/kernel/core.py:439-542 | consumes one fitting approval and advances the record after its evidence |
| `GovernanceKernel.InProcessKernel.IssueGrantLocked` | src/governed_agent_harness/kernel/core.py:730-871 | merges, builds and validates the grant, and records it after its evidence |
| `GovernanceKernel.InProcessKernel.Execute` | src/governed_agent_harness/kernel/core.py:561-661 | replays a finished effect, otherwise issues if needed and dispatches once through the broker |
| `GovernanceKernel.StepKeepsKernel` | src/governed_agent_harness/kernel/core.py:345-661 | every kernel call keeps records, bindings, grants and executor calls consistent |
| `GovernanceKernel.AtMostOneCallPerKey` | src/governed_agent_harness/kernel/core.py:356-437 | over every run of kernel calls two executor calls never share an idempotency key, a request or a grant, even after failed dispatches |
| `GovernanceKernel.ReplayedSubmissionsExactly` | src/governed_agent_harness/kernel/core.py:361-378 | a submission under a bound key returns the key's record and changes nothing, exactly for the very request the key was bound for |
| `GovernanceKernel.EffectsMatchLedger` | src/governed_agent_harness/kernel/effects.py:260-320 | after every kernel call an effect is active exactly when a succeeded outcome of its grant is in the ledger, or its revert failed |
| `GovernanceKernel.CallsWereAuthorised` | src/governed_agent_harness/kernel/core.py:606-641 | every executor call was made for a recorded request that policy authorised outright, or that has a fitting, positive approval with its duties satisfied where required |
| `GovernanceKernel.ApprovalsUsedOnce` | src/governed_agent_harness/kernel/core.py:502-541 | once an approval was accepted, no later call accepts it again, for any request, whatever kernel calls come in between |
| `GovernanceKernel.ApprovalsHeldOnce` | src/governed_agent_harness/kernel/core.py:502-541 | in every reachable state no two records hold the same approval |
| `GovernanceKernel.KernelIssuesExactly` | src/governed_agent_harness/kernel/core.py:766-831 | in reachable states the kernel issues exactly when a positive window remains, no constraints conflict, no key is repeated by policy or approval and the ledger takes the clock |
| `KernelExactly.SubmissionExactly` | src/governed_agent_harness/kernel/core.py:345-437 | a first submission is accepted exactly when the actor may ask, the rule is usable, the id is new and the ledger takes the clock; its record then has just the rule's decision, constraints and isolation, and waits for what the rule demands |
| `KernelExactly.ApprovalExactly` | src/governed_agent_harness/kernel/core.py:439-542 | in reachable states an approval is accepted exactly when the request waits for one and it approves just that, with duties, times, constraints, trust and first use as stated; the record then has it |
| `KernelExactly.IssueExactly` | src/governed_agent_harness/kernel/core.py:730-871 | in reachable states a grant is issued for a waiting record exactly when identity, times, constraints, signatures and ledger are as stated, and it then says what request, decision and approval say, the idempotency binding included, until the earliest of the three ends |
| `KernelRuns.RecordsOriginate` | src/governed_agent_harness/kernel/core.py:345-661 | every record of every run comes from its first submission, its approval from a later call that accepted it, and its grant from a later call that might issue it |
| `KernelRuns.CallsFollowRules` | src/governed_agent_harness/kernel/core.py:382-407 | over every run each executor call belongs to a submission of the run whose rule said to authorise, or said to require an approval, and then a later call accepted the one that comes with the call |
| `KernelRuns.IssuedGrantDispatches` | src/governed_agent_harness/kernel/core.py:780-831 | a grant that the kernel has just issued is carried out, within its and the actor's time, exactly when the executor can, constraints and signatures still hold and the ledger's clock has not gone back |
| `KernelRuns.ExecutionTells` | src/governed_agent_harness/kernel/core.py:606-661 | an execution that reaches the executor calls it once for the record with its grant, and the record then ends as the executor answered, with that outcome, exactly when nothing goes wrong afterwards |
| `KernelRuns.EndedForGood` | src/governed_agent_harness/kernel/core.py:606-617 | an ended record never changes again, and executing it changes nothing |
| `Trust.DeltaRoundTrip` | src/governed_agent_harness/contracts/validation.py:1169-1179 | a normalised time span survives the way to microseconds and back |
| `Trust.SnapshotCanonical` | src/governed_agent_harness/contracts/validation.py:1228-1250 | a frozen snapshot lists the same names as the policy, and is canonical exactly when none is empty |
| `Trust.LargerSkewAcceptsMore` | src/governed_agent_harness/contracts/validation.py:1414-1421 | a larger skew never turns a passed time check of a first acceptance into a refusal |
| `Trust.FirstAcceptanceStays` | src/governed_agent_harness/contracts/validation.py:1350-1456 | a recorded first acceptance passes under every later context exactly when its names are non-empty and no invalidation, or duplicate of one, covers it |
| `Trust.ActiveNoninterference` | src/governed_agent_harness/contracts/validation.py:1579-1625 | an artifact is active under both or neither of two contexts with the same history and invalidations, whatever their keys, allowlists, policy, skew and time; the answers are equal exactly when the sums of both or of neither leave the range |
| `Trust.SameAnswersWithRoom` | src/governed_agent_harness/contracts/validation.py:1579-1625 | when every time is at least the skew away from both ends of the datetime range, there is an answer under every context, and the same one under all contexts with the same history |
| `Trust.VerdictExactly` | src/governed_agent_harness/contracts/validation.py:1253-1456 | a record passes, or its error escapes, exactly under conditions on policy, history, times and explicit sums, first and historical |
| `Trust.EscapesExactly` | src/governed_agent_harness/contracts/validation.py:1579-1625 | for all contexts and histories an error escapes instead of an answer exactly when one of the sums of the delivery, or of the receipt after it, is reached and leaves the datetime range |
| `Trust.AnswersDiffer` | src/governed_agent_harness/contracts/validation.py:1414-1421 | two pairs of concrete contexts with the same history, one escaping through a late expiry and one through the earliest key validity, the other answering no |
| `Trust.InvalidationOnlyDeactivates` | src/governed_agent_harness/contracts/validation.py:1209-1225 | adding an invalidation anywhere in the list can only turn active into inactive |
| `Trust.OtherHistoryIrrelevant` | src/governed_agent_harness/contracts/validation.py:1383-1394 | recording acceptances of other records changes no verdict on this one |
| `Trust.RollbackLifecycle` | src/governed_agent_harness/contracts/validation.py:1505-1576 | an active artifact with a valid rollback: delivery, activation and rollback were accepted and issued in this order, for one revision, tenant and scope |
| `Trust.SampleIsActive` | src/governed_agent_harness/contracts/validation.py:1579-1625 | a concrete artifact is active with acceptances of other records between those of its delivery and its activation |
| `Trust.SnapshotAscends` | src/governed_agent_harness/contracts/validation.py:1228-1250 | the frozen tuples ascend strictly, a proper prefix first |
| `TrustExactly.PassesExactly` | src/governed_agent_harness/contracts/validation.py:1253-1456 | a record passes exactly when it is well-formed, of its kind's domain, proved and not invalidated, and either recorded never and acceptable now with the one key of its proof, or recorded once and acceptable then, each condition over the entries themselves |
| `TrustExactly.ActiveMeans` | src/governed_agent_harness/contracts/validation.py:1579-1625 | an artifact is active exactly when delivery and activation verify in this sense, each was recorded once, the delivery earlier, and the activation names just this delivery, of the same tenant, artifact and scope, in its time |
| `TrustExactly.RollbackMeans` | src/governed_agent_harness/contracts/validation.py:1505-1576 | a rollback is valid exactly when it and its activation verify, each was recorded once, the activation earlier, and it names just this activation |
| `Utf.DecodeEncode` | src/governed_agent_harness/contracts/json_codec.py:34-37 | strict UTF-8 decoding undoes encoding |
| `Utf.EncodeDecode` | src/governed_agent_harness/contracts/json_codec.py:34-37 | strict UTF-8 has one byte form per text, without surrogates |
| `Utf.Utf16Injective` | src/governed_agent_harness/contracts/canonical.py:24-26 | the sort key determines the key |
| `Utf.Utf16OrderIsNotCodePointOrder` | src/governed_agent_harness/contracts/canonical.py:24-26 | the order of keys is not that of code points |
| `Utf.LessExactly` | src/governed_agent_harness/contracts/canonical.py:24-26 | one byte string is less than another exactly when it is a proper prefix, or smaller at the first difference |
| `Utf.KeysByCodeUnits` | src/governed_agent_harness/contracts/canonical.py:24-26 | so valid keys are ordered by their UTF-16 code units, a proper prefix first (section 3.2.3 of RFC 8785) |
| `CanonicalJson.SortIsCanonical` | src/governed_agent_harness/contracts/canonical.py:54-62 | sorting forgets the order in which members were inserted |
| `CanonicalJson.SortSorts` | src/governed_agent_harness/contracts/canonical.py:54-62 | members with distinct valid keys keep their contents and come out ascending by UTF-16 code units, a proper prefix first |
| `CanonicalJson.PrintsExactly` | src/governed_agent_harness/contracts/canonical.py:34-72 | a value is printed exactly when its integers are safe, its texts and keys have no surrogate and no replacement character, and nothing lies deeper than 128 levels |
| `CanonicalJson.EscapesExactly` | src/governed_agent_harness/contracts/canonical.py:29-31 | just quote, backslash and control characters are escaped, five of these by a letter and the rest by four lower-case digits |
| `CanonicalJson.PrintSorted` | src/governed_agent_harness/contracts/canonical.py:54-62 | printing the sorted members is sorting the printed ones, failures included |
| `CanonicalJson.CanonicalizeMembers` | src/governed_agent_harness/contracts/canonical.py:54-62 | the object branch's loop over sorted keys computes the specification's parts |
| `CanonicalJson.Canonicalize` | src/governed_agent_harness/contracts/canonical.py:34-72 | the printer returns the specified text, or fails, at every depth |
| `JsonDecoder.ObjectPairs` | src/governed_agent_harness/contracts/json_codec.py:20-26 | builds the dictionary exactly when no key is repeated |
| `JsonDecoder.ReadsDictionaries` | src/governed_agent_harness/contracts/json_codec.py:20-53 | whatever is read has distinct keys at every level |
| `JsonGrammar.ValueReads` | src/governed_agent_harness/contracts/json_codec.py:38-46 | every spelling of a value, with any white space, either case of hexadecimal digits and any escapes, is read as what it means |
| `JsonGrammar.DocumentExactly` | src/governed_agent_harness/contracts/json_codec.py:38-46 | a text is read as a value exactly when it is a spelling of the value by the grammar of RFC 8259 without fractions, exponents and repeated names, with white space around |
| `JsonGrammar.LoadsExactly` | src/governed_agent_harness/contracts/json_codec.py:29-53 | bytes are loaded as a value exactly when they are the strict UTF-8 of such a text and the value can be printed |
| `JsonRoundTrip.CanonReads` | src/governed_agent_harness/contracts/canonical.py:34-72 | wherever a value may end, the text printed for it is read back as that value, and nothing after it is consumed |
| `JsonRoundTrip.SamePrints` | src/governed_agent_harness/contracts/canonical.py:34-72 | the same value prints the same text, or fails alike, at every depth |
| `JsonRoundTrip.DecodeCanonical` | src/governed_agent_harness/contracts/json_codec.py:29-53 | strict decoding of canonical bytes returns the same value, which canonicalises to the same bytes (sections 3.2.2 and 3.2.3 of RFC 8785) |
| `JsonRoundTrip.CanonicalInjective` | src/governed_agent_harness/contracts/canonical.py:75-78 | canonical bytes are equal exactly for the same value |
| `JsonRoundTrip.CanonicaliseDecoded` | src/governed_agent_harness/contracts/json_codec.py:29-53 | whatever the decoder accepts canonicalises, and canonicalise-after-decode is idempotent |
| `JsonShortest.ValueTakes` | src/governed_agent_harness/contracts/json_codec.py:38-46 | however a value is spelled, reading it consumes at least the length of its canonical text |
| `JsonShortest.CanonicalIsShortest` | src/governed_agent_harness/contracts/canonical.py:29-72 | no text that the decoder reads as the value is shorter than the canonical one, whatever its escapes, spaces and order |
| `SchemaCheck.JsonEqualIsSameValue` | src/governed_agent_harness/contracts/schema.py:65-69 | `const` and `enum` decide equality of values |
| `SchemaCheck.UniqueItems` | src/governed_agent_harness/contracts/schema.py:339-345 | the loop over frozen items accepts exactly arrays without repeated bytes |
| `SchemaCheck.UniqueIsNoSameValue` | src/governed_agent_harness/contracts/schema.py:339-345 | that is: without two items of the same value |
| `SchemaCheck.LimitIrrelevant` | src/governed_agent_harness/contracts/schema.py:235-239 | while the depth limit is not hit, the verdict is that of any larger limit |
| `SchemaCheck.LargerLimitAccepts` | src/governed_agent_harness/contracts/schema.py:235-374 | without `not`, `oneOf` and `if` a larger limit only accepts more |
| `SchemaCheck.CyclesReject` | src/governed_agent_harness/contracts/schema.py:251-256 | a self-referring schema ends, in rejection, at any limit |
| `SchemaCheck.NotTurnsDepthIntoAcceptance` | src/governed_agent_harness/contracts/schema.py:272-278 | under `not` the same schema accepts with a small limit and rejects with a larger one, exactly by its depth |
| `SchemaCheck.OneOfTurnsDepthIntoAcceptance` | src/governed_agent_harness/contracts/schema.py:261-270 | the same under `oneOf`, where a depth failure makes one alternative less |
| `SchemaCheck.IfTurnsDepthIntoAcceptance` | src/governed_agent_harness/contracts/schema.py:280-289 | the same under `if`, where it selects the other branch |
| `SchemaExactly.AcceptsExactly` | src/governed_agent_harness/contracts/schema.py:235-374 | below the limit a node accepts a value exactly when all its keywords hold, in any order, each in terms of what is accepted one level deeper; at the limit nothing is accepted |
| `LockOrder.EveryPurposeIsOrdered` | src/governed_agent_harness/persistence/store.py:1054-1064 | every kind of transaction, of effects, lifecycle, evidence and promotion, takes its locks in one global order |
| `LockOrder.AlwaysExclusive` | src/governed_agent_harness/persistence/store.py:664-674 | in every reachable state a lock has one holder |
| `LockOrder.NoTwoTouch` | src/governed_agent_harness/persistence/store.py:1054-1077 | in every reachable state no two transactions that have all their locks write the same run, row, key or promoted record |
| `LockOrder.NoDeadlock` | src/governed_agent_harness/persistence/store.py:664-695 | whatever runs concurrently and however far it has come, some unfinished transaction can take its next step |
| `LockOrder.StepsRunOut` | src/governed_agent_harness/persistence/store.py:1054-1077 | each step taken leaves one fewer, so that all transactions end |
| `Migrations.DiscoverMigrations` | src/governed_agent_harness/persistence/migration.py:47-80 | returns the packaged files in order exactly when no name is malformed and every version from 1 to their number is packaged |
| `Migrations.VerifyApplied` | src/governed_agent_harness/persistence/migration.py:150-160 | accepts exactly the prefixes of the package, checksums included |
| `Migrations.MigrationDatabase.ApplyMigrations` | src/governed_agent_harness/persistence/migration.py:83-127 | one transaction brings the registry to the package by running what is missing, in order, or changes nothing |
| `Migrations.ReleasePassesExactly` | src/governed_agent_harness/persistence/migration.py:83-127 | a release passes exactly when the database is empty, legacy or stands at one of the package's migrations, checksums included, and none of the missing ones fails; then it has executed just those, in order, and lists all |
| `Migrations.EachOnce` | src/governed_agent_harness/persistence/migration.py:104-127 | over any sequence of releases each registered migration ran exactly once, in ascending order, or was adopted once |
| `Scopes.DerivationsNarrow` | src/governed_agent_harness/contracts/validation.py:330-404 | along a derivation of any length scopes stay with the actor, inside every ancestor, and keep a selection that the actor context authorises |
| `Scopes.DerivationDetermined` | src/governed_agent_harness/contracts/validation.py:347-348 | the last scope determines its whole derivation |
| `Scopes.DerivationExactly` | src/governed_agent_harness/contracts/validation.py:330-404 | checking each scope against its parent alone accepts exactly the chains that stay with the actor, in the context's time, with one selection that the context grants, and nest throughout |

## Left out

- Cryptography, SHA-256 and signatures: proofs verify or not as a given set says; digests are injective by construction.
- Record schemas, regular expressions, URI and date formats, extensions: records keep the fields that the modelled code reads, and a record's own validity is a flag or a predicate.
- Deep copies and snapshots: values are immutable here.
- Threads: a heartbeat is a renewal step at any moment; methods of the kernel and of the broker are atomic, as their locks make them.
- Row-level security, roles, grants, role provisioning and schema installation.
- Memory promotion and retrieval, the skill lifecycle and its validators: they appear only as other evidence and in the lock order.
- The built-in execution runtime: only its clamping evidence writer is modelled.
- `apply_object_digest`, `validate_self_digests`: with digests as constructors they say nothing.
- `PolicySet.evaluate` and the UUID factory: the chosen rule and the fresh ids are inputs.
- `EffectProtocol.DoExecute`: in the durable protocol the checks before preparation (`_validate_authority`, capabilities) are one step that passes or not; what a call needs is proved from the first renewal, which re-validates the stored authority.
- `EffectProtocol.DoAppendOther`: the append's own checks (the payload names the actor and the policy decision, and not one of the four reserved kinds) are left to the caller, so that other writers can do more here than there.
- `LifecycleInvariant.Apply`: the same of other evidence there; and the next state that a decision event by others names is one of the table's five (any other text could replay, but the table refuses it, so that it neither rebuilds nor loads).
- `EffectProtocol.DoLateCommit`: the moment of the database's lease test is a parameter, any time up to the present; statements between that test and the commit are not split further.
- Advisory locks in the effect protocol: not modelled there, since its guarantees rest on the compare-and-set and the unique constraints; they are in `LockOrder`.
- `LifecycleStore.Load` and the calls that begin with it: a row and its run are read as one snapshot. The source reads them in separate statements, so that a transition committed in between can make its load report a divergence that is gone on the next load.
- `LockOrder.NoDeadlock`: distinct lock names are taken to hash to distinct numbers, and the row locks of the memory and skill tables and those that foreign keys take on a run head already held are not modelled.
- `Trust.VerifySigned`: the times of keys and snapshots are taken to have timezones; only the context's own time may lack one.
- `JsonDecoder.ReadValue`: the interpreter's own limits on recursion and on the digits of an integer are not modelled; such inputs are refused here by depth and by range.
- `Migrations.Release`: the fingerprint of legacy tables and the shape of the registry are one given verdict.
- `GovernanceKernel.Submit`: identity and proof verification are given verdicts beside the modelled time and binding checks.
- Plain reads (`events`, `get`), error texts, command lines, documentation tooling: easy members.
