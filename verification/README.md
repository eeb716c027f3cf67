# Koven: money moved once, evidence kept in order

Koven lets software agents borrow, pay for a scan and repay over a ledger whose answers can be late
or lost. Its services persist an intention before acting on it, fence concurrent workers by random
lease tokens, and reconcile what they cannot know yet. This project models those services and
proves what they keep over all of their runs.

The model has four layers.

- **Tables.** `AuditOutbox`, `LenderStore`, `ProviderTables` and `SignerTables` hold the SQL tables as
  maps and sequences. A function is one transaction or one guarded update; a class beside it
  (`SqliteAuditOutbox`, `Store`, `ProviderStore`, `SignerStore.Store`) writes the same thing step by
  step, with rollback, and is proved equal to the function.
- **Protocols.** `AuditProtocol`, `FundingProtocol`, `RepaymentProtocol`, `ProviderProtocol`,
  `EvidenceProtocol`, `MissionProtocol`, `CompletionProtocol` and `KeyedMutex` are state machines whose
  events are the statements of the services, cut at every `await`. Any other call, the ledger, the
  clock or a crash may come between two of them. The `...Safety` and `...Guarantees` modules prove
  invariants over every run and state what they mean.
- **Services.** `AuditWriter`, `FundingService`, `RepaymentService`, `ScanHandler` and `MissionWorkflow`
  are the methods themselves. At each wait they are given an arbitrary list of things that happen
  elsewhere; each statement is proved to be a protocol step, so the run theorems hold of the code.
- **Kernels.** `MerkleTree`, `JsonText` with `CanonicalJson` and `CanonicalAgreement`, and
  `OfferSelection` are the pure parts, for any tree depth, any hash, any value and any offers.

What the outside world is trusted with is stated as the enabling conditions of its events:

- `Ledger`: only bytes that reached a node execute, at most once, and not after their validity; an
  answer "failed" is given only for a transaction that never executes; the Mirror Node shows an
  executed transaction after `lag` at the latest, and a worker reads its clock at most `latency` after
  the answer. Where a theorem turns on it, and only there, `lag + latency` must fit in the grace
  (`GraceCovers`); `AuditGrace.ExactlyOnceIff`, `RepaymentGrace.PaidOnceIff` and
  `ProviderGuarantees.NoExecutedPaymentIsGivenUpIff` show that each of these bounds is exact.
- The lender's gateway moves money at most once per `transfer` call, and never when the hook threw.
- Tokens and transaction ids are fresh. The signer and the provider are each one process over a
  synchronous database, so a read followed by a write without an `await` between them is one step;
  the audit outbox and the lender's store are shared by any number of workers.
- A transaction's validity is a function of its signed bytes, and a request hash determines its body.

Some promises hold only under a condition, and each condition is proved exact.

- Publication is exactly once, and a loan is paid once, if and only if the grace covers lag plus latency.
- Neither `completed` nor the "terminally failed" `settlement_failed` is final for a paid scan: either is
  left exactly by a write of evidence that fits (`TerminalIsLeftIff`). `CompletionCanBeUndone` is such a
  run. It does no harm to what is stored, which never changes.
- A payment is given up on a refusal alone, without a look at the ledger. That a payment given up never
  executed holds exactly while refusals, too, are handled within the grace.
- The serializers that sort by "key,value" and those that sort by key differ exactly where one key
  continues another with a unit below the comma, as with a dollar sign (`TextsAgreeIff`), and those that
  rebuild objects differ from the one that does not exactly where array indices move
  (`RebuiltTextsAgreeIff`), although the comments in the code promise ASCII-sorted keys.

`dafny verify dfyconfig.toml` checks the project.

## Model

| member | source | states |
|---|---|---|
| `AuditSafety.TopicIsExactlyOnceAndOrdered` | packages/audit/src/writer.ts:143-185 | on every run, no two messages of the topic are of one event, the n-th message has sequence number n, and one mission's messages stand in event order |
| `AuditSafety.SubmittedAtMostOnce` | packages/audit/src/writer.ts:157-172 | on every run, a prepared transaction's bytes are given to a node at most once, by this worker or any other |
| `AuditSafety.TableAgreesWithTopic` | packages/persistence/src/audit-outbox.ts:41-126 | on every run, a mission's published rows are a prefix of its rows, each names the sequence number its message really has, only a mission's first unpublished row is processed, and leases are well formed |
| `AuditSafety.RunKeepsInv` | packages/audit/src/writer.ts:132-197 | the protocol invariant (leases, prepared bytes, attempts, answers, calls in flight) outlives every run of any number of workers |
| `AuditGrace.ExactlyOnceIff` | packages/audit/src/writer.ts:163-168 | for every configuration: publication is exactly once on all runs if and only if Mirror lag plus answer latency fit in the uncertainty grace |
| `AuditGrace.TooShortGracePublishesTwice` | packages/audit/src/writer.ts:157-169 | for every shorter grace there is a run that puts one event on the topic twice |
| `AuditOutbox.FirstClaimable` | packages/persistence/src/audit-outbox.ts:44-61 | the candidate query returns the claimable row with the smallest event sequence, and none exactly when no row is claimable |
| `AuditOutbox.NextAttemptAt` | packages/persistence/src/audit-outbox.ts:154-166 | the wake-up time is the least one of the unpublished rows, and absent exactly when all are published |
| `AuditOutbox.ClaimSucceedsIff` | packages/persistence/src/audit-outbox.ts:41-78 | a claim succeeds exactly when the head of some mission is due, and takes the earliest such event |
| `AuditOutbox.ClaimImpliesWakeUp` | packages/persistence/src/audit-outbox.ts:147-166 | a claim that succeeds implies a wake-up time that has come |
| `AuditOutbox.WakeUpNeedNotClaim` | packages/persistence/src/audit-outbox.ts:154-166 | the converse fails: a table whose wake-up time has come while nothing can be claimed |
| `AuditOutbox.SqliteAuditOutbox.CreateEvent` | packages/persistence/src/events.ts:27-74 | appends one pending row at the next event sequence and changes no other |
| `AuditOutbox.SqliteAuditOutbox.ClaimDue` | packages/persistence/src/audit-outbox.ts:41-78 | returns a snapshot of the claimed row, which is leased under the token; every other row is unchanged |
| `AuditOutbox.SqliteAuditOutbox.Mutate` | packages/persistence/src/audit-outbox.ts:168-171 | one row is replaced exactly when the token holds its lease |
| `AuditOutbox.SqliteAuditOutbox.SavePrepared` | packages/persistence/src/audit-outbox.ts:80-86 | stores the bytes under the lease, refusing a transaction id another row has |
| `AuditOutbox.SqliteAuditOutbox.MarkSubmissionAttempted` | packages/persistence/src/audit-outbox.ts:88-94 | records the attempt under the lease, or changes nothing |
| `AuditOutbox.SqliteAuditOutbox.MarkPublished` | packages/persistence/src/audit-outbox.ts:96-126 | row and event are published together under the lease, or neither is; while events mirror rows, an event is never found published already |
| `AuditOutbox.SqliteAuditOutbox.Retry` | packages/persistence/src/audit-outbox.ts:128-145 | releases the row for a later attempt, dropping its bytes only when told to |
| `AuditWriter.HcsAuditWriter.PublishJob` | packages/audit/src/writer.ts:143-185 | every statement of one publication, with anything happening during its waits, is a step of the protocol, and the call ends |
| `AuditWriter.HcsAuditWriter.Decide` | packages/audit/src/writer.ts:157-181 | an answer is published, retried with its bytes, or retried without them, as answer, lookup and grace require |
| `AuditWriter.HcsAuditWriter.Retry` | packages/audit/src/writer.ts:192-197 | the delay is within full-jitter bounds, and the write is fenced by the lease |
| `AuditWriter.HcsAuditWriter.DrainDue` | packages/audit/src/writer.ts:132-141 | draining any batch against any behaviour of the world leaves the topic without repeats and every mission in order |
| `FundingSafety.FundedAtMostOnce` | agents/lenders/src/fund.ts:291-352 | on every run, at most one transfer call of an offer passes its hook, and money moves only for calls that did |
| `FundingSafety.AnswersAgree` | agents/lenders/src/fund.ts:265-371 | any two normal returns for an offer name one id: the stored one, under which money moved, that is queued for registration and was acknowledged by the signer |
| `FundingSafety.ConfirmedIdIsFrozen` | agents/lenders/src/store.ts:260-306 | once confirmed or registered, a funding keeps its transaction id and its queued payload names it, on every continuation |
| `FundingSafety.FencedNeverPays` | agents/lenders/src/store.ts:200-258 | a worker whose claim was taken over never stores an id and never moves money, on every continuation |
| `FundingSafety.TakeoverFences` | agents/lenders/src/store.ts:200-212 | taking over a stale lease fences the call that held it |
| `FundingSafety.RunKeepsInv` | agents/lenders/src/fund.ts:259-371 | the protocol invariant outlives every run of concurrent and restarted calls |
| `LenderStore.Store.Reserve` | agents/lenders/src/store.ts:165-198 | inserts a row once per offer; other content for the offer is refused and nothing stored changes |
| `LenderStore.Store.ClaimFundingSubmission` | agents/lenders/src/store.ts:200-212 | takes a reserved or stale preparing row that has no transaction yet, and only then; the token then holds it, and no other row changes |
| `LenderStore.Store.ReleaseFundingSubmission` | agents/lenders/src/store.ts:214-221 | changes a row only for the token that holds it, which then no longer does; no stored id and no other row changes |
| `LenderStore.Store.SetFundingTransaction` | agents/lenders/src/store.ts:223-237 | stores an id only for the token that holds the row; an id already stored is never replaced; no other row changes |
| `LenderStore.Store.ReplaceFundingTransaction` | agents/lenders/src/store.ts:239-258 | replaces exactly the expected id, only for the token that holds the row; any other id stays; no other row changes |
| `LenderStore.Store.MarkFundingConfirmed` | agents/lenders/src/store.ts:260-269 | confirms a submitted row under its own id only; no other row changes |
| `LenderStore.Store.EnqueueRegistration` | agents/lenders/src/store.ts:271-276 | the first payload queued for a funding stays, as do all others |
| `LenderStore.Store.RecordRegistrationFailure` | agents/lenders/src/store.ts:286-292 | counts an attempt of an undelivered registration; every payload stays |
| `LenderStore.Store.MarkFundingRegistered` | agents/lenders/src/store.ts:294-306 | delivery and registration are recorded together; every queued payload, the funding's id and all other rows stay |
| `FundingService.Service.Accept` | agents/lenders/src/fund.ts:259-371 | every statement is a step of the protocol whatever happens during the waits, and a returned id is the only one ever returned for the offer |
| `FundingService.Service.OnPrepared` | agents/lenders/src/fund.ts:311-319 | the hook returns exactly when the id was stored under the claim's token; otherwise the call has not passed it |
| `FundingService.Service.Claim` | agents/lenders/src/fund.ts:292-305 | the submission is claimed exactly when it is free or stale |
| `FundingService.Service.StoreResult` | agents/lenders/src/fund.ts:321-338 | a different final id replaces the prepared one, then the funding is confirmed, or the call fails without an answer |
| `FundingService.Service.Register` | agents/lenders/src/fund.ts:353-371 | an id is returned only with its registration delivered |
| `RepaymentSafety.PaidAtMostOnce` | services/restricted-signer/src/repay.ts:136-208 | on every run, at most one transfer of a loan executes, of exactly principal plus fee to its lender |
| `RepaymentSafety.EarlierAttemptsAreDead` | services/restricted-signer/src/repay.ts:163-186 | when a new attempt is built, no earlier one has executed or can still execute |
| `RepaymentSafety.RepaidNamesTheTransfer` | services/restricted-signer/src/repay.ts:202-208 | a loan marked repaid, and every answer ever given for it, names an executed transfer of what is owed |
| `RepaymentSafety.GivenUpIsDead` | services/restricted-signer/src/repay.ts:172-175 | an attempt given up after validity plus grace can no longer execute |
| `RepaymentGrace.PaidOnceIff` | services/restricted-signer/src/repay.ts:172-175 | no run repays a loan by two transfers if and only if Mirror lag plus answer latency fit in the grace |
| `RepaymentGrace.TooShortGracePaysTwice` | services/restricted-signer/src/repay.ts:163-187 | for every shorter grace there is a run that repays a loan twice |
| `RepaymentSafety.RunKeepsInv` | services/restricted-signer/src/repay.ts:136-208 | the protocol invariant outlives every run, with crashes anywhere |
| `RepaymentService.Service.Repay` | services/restricted-signer/src/repay.ts:136-200 | every statement is a step of the protocol, and a returned id is that of an executed transfer the loan is marked repaid with |
| `RepaymentService.Service.DecideAttempt` | services/restricted-signer/src/repay.ts:163-179 | after a lookup the attempt is settled, given up after the grace, left alone, or sent again |
| `RepaymentService.Service.Settle` | services/restricted-signer/src/repay.ts:202-208 | the repayment row is confirmed, the loan marked repaid, and only then the id returned |
| `ProviderGuarantees.AskedAtMostOnce` | services/resource-server/src/server.ts:446-461 | on every run the facilitator is asked to settle a transaction at most once |
| `ProviderGuarantees.ResponsesAgree` | services/resource-server/src/server.ts:407-494 | every response for a transaction delivers the one stored report, after the facilitator vouched or the ledger executed |
| `ProviderGuarantees.EveryPaymentIsWellShaped` | services/resource-server/src/outbox.ts:248-404 | attempted means a report and no lease; evidence is there exactly in settled and completed |
| `ProviderGuarantees.CompletedHasItsJob` | services/resource-server/src/outbox.ts:406-442 | a completed payment executed and has its durable callback job, naming its report and consensus time |
| `ProviderGuarantees.JobsAreJustified` | services/resource-server/src/outbox.ts:406-533 | jobs have distinct keys, at most twenty attempts, and a settled, executed payment whose report, id and consensus time they name |
| `ProviderGuarantees.ConflictNeedsAnotherTransaction` | services/resource-server/src/outbox.ts:427-439 | completion fails with a conflict exactly when another transaction already completed with the same report |
| `ProviderGuarantees.NothingStoredIsRevised` | services/resource-server/src/outbox.ts:298-369 | on every continuation, stored reports and evidence stay, jobs keep their content and delivered jobs never change |
| `ProviderGuarantees.OnlyTheLeaseHolderFinishes` | services/resource-server/src/outbox.ts:514-533 | a job leaves processing only at the hand of the call whose token it carries, counting one attempt |
| `ProviderGuarantees.TerminalIsLeftIff` | services/resource-server/src/outbox.ts:342-369 | over every step of the protocol: completed, and settlement_failed, is left if and only if evidence that fits is written, for a completed payment the evidence it has |
| `ProviderGuarantees.TerminalUntilWritten` | services/resource-server/src/outbox.ts:342-404 | until such a write, completed stays completed and settlement_failed stays failed on every continuation |
| `ProviderGuarantees.CompletionCanBeUndone` | services/resource-server/src/server.ts:302-312 | a run in which a second reconciler takes completed back to settled |
| `ProviderGuarantees.GivesUpIff` | services/resource-server/src/outbox.ts:385-403 | over every step: a payment becomes settlement_failed if and only if a refusal, or a lookup that showed nothing, is handled past validity plus grace with no evidence stored |
| `ProviderGuarantees.GivenUpNeverExecutes` | services/resource-server/src/outbox.ts:379-404 | when answers and refusals are handled within the grace, a payment given up has not executed and never will |
| `ProviderGuarantees.NoExecutedPaymentIsGivenUpIff` | services/resource-server/src/outbox.ts:391-393 | no run gives up an executed payment if and only if lag, latency and the handling of refusals stay within the grace |
| `ProviderGuarantees.LateRefusalGivesUpExecuted` | services/resource-server/src/server.ts:462-478 | whenever refusals may be handled later than the grace, a run gives up a payment that executed |
| `ProviderGuarantees.LongLagGivesUpExecuted` | services/resource-server/src/server.ts:291-300 | whenever lag and latency exceed the grace, a reconciler's run gives up a payment that executed |
| `ProviderSafety.RunKeepsInv` | services/resource-server/src/server.ts:279-494 | the protocol invariant outlives every run of requests, reconcilers and callback dispatchers |
| `ProviderSafety.GivenUpByReconcilerIsDead` | services/resource-server/src/outbox.ts:391-403 | when the reconciler gives a payment up, it has not executed |
| `ProviderTables.NextDue` | services/resource-server/src/outbox.ts:448-455 | the due job with the smallest next attempt, oldest first, and none exactly when none is due |
| `ProviderTables.NextCallbackAt` | services/resource-server/src/outbox.ts:502-512 | the least wake-up time of pending and processing jobs |
| `ProviderTables.ClaimSucceedsIff` | services/resource-server/src/outbox.ts:444-512 | a callback can be claimed exactly when the wake-up time has come |
| `ProviderTables.ProviderStore.Claim` | services/resource-server/src/outbox.ts:248-296 | a payment is owned exactly when it is new or its unattempted lease ran out; other content is a conflict |
| `ProviderTables.ProviderStore.RenewVerifiedPaymentLease` | services/resource-server/src/outbox.ts:314-328 | the lease is extended for its holder before the attempt only |
| `ProviderTables.ProviderStore.StoreReport` | services/resource-server/src/outbox.ts:298-312 | the report is stored for the lease holder, never over a different one |
| `ProviderTables.ProviderStore.MarkSettlementAttempted` | services/resource-server/src/outbox.ts:330-340 | the attempt is recorded once, with a report, and ends the lease |
| `ProviderTables.ProviderStore.StoreSettlement` | services/resource-server/src/outbox.ts:342-369 | only evidence that fits the payment is stored, never over different evidence |
| `ProviderTables.ProviderStore.RecordUnconfirmedSettlement` | services/resource-server/src/outbox.ts:379-404 | a payment fails for good only unconfirmed, without evidence and past validity plus grace |
| `ProviderTables.ProviderStore.CompleteAndEnqueue` | services/resource-server/src/outbox.ts:406-442 | completion and job are written together, or neither is |
| `ProviderTables.ProviderStore.ClaimDueCallback` | services/resource-server/src/outbox.ts:444-476 | claims the earliest due job, and claims one exactly when the wake-up time has come |
| `ProviderTables.ProviderStore.FinishCallback` | services/resource-server/src/outbox.ts:514-533 | a job is finished only under the token it was claimed with |
| `ScanHandler.Server.Handle` | services/resource-server/src/server.ts:358-494 | every statement of one request is a step of the protocol; a delivered report is every response's, with a settlement behind it |
| `ScanHandler.Server.Confirm` | services/resource-server/src/server.ts:279-353 | from confirmation to answer, a report is answered only when it is recorded as a response of the transaction |
| `SpendingSafety.MissionsStayWithinCap` | packages/persistence/src/nonces.ts:39-85 | on every run, a mission's spent total is the sum of its consumed nonces and within its registered cap |
| `SpendingSafety.SessionsStayWithinCap` | packages/persistence/src/nonces.ts:63-82 | on every run, a session's spent total is the sum over its missions and within the session's cap |
| `SpendingSafety.ReservationsAreOneToOne` | services/restricted-signer/src/store.ts:234-265 | consumed nonces and stored authorizations correspond one to one, with distinct nonces, commitments, bytes and ids |
| `SpendingSafety.RunExtends` | services/restricted-signer/src/store.ts:169-265 | session caps and policies never change and no record is ever taken back, on every continuation |
| `SpendingSafety.ReserveSucceedsIff` | services/restricted-signer/src/store.ts:234-265 | a reservation succeeds exactly when mission, nonce, commitment, both budgets and authorization allow it, and what it then writes |
| `SpendingSafety.RegisterKeepsBalance` | services/restricted-signer/src/store.ts:169-218 | registering a policy keeps every budget balanced |
| `SpendingSafety.ReserveKeepsBalance` | packages/persistence/src/nonces.ts:144-182 | a reservation keeps every budget balanced |
| `SignerStore.Store.RegisterMissionPolicy` | services/restricted-signer/src/store.ts:169-218 | registers once, acknowledges an identical policy, refuses another or a raised session cap, leaving the tables as they were |
| `SignerStore.Store.ReserveAuthorization` | services/restricted-signer/src/store.ts:234-265 | nonce, budgets and authorization are written together; any failure leaves every table as it was |
| `SignerStore.Store.ReserveSpending` | packages/persistence/src/nonces.ts:39-85 | the writes of a reservation in order, up to the first that fails |
| `SignerStore.Store.InsertConsumedNonce` | packages/persistence/src/nonces.ts:107-142 | a used nonce and a used commitment are told apart, and nothing is inserted then |
| `SignerStore.Store.SaveCreditAcceptance` | services/restricted-signer/src/store.ts:317-344 | one immutable acceptance per mission; an identical retry returns the stored one |
| `SignerStore.Store.RegisterFundedLoan` | services/restricted-signer/src/store.ts:378-404 | a loan is registered once per id, mission and funding transaction; an identical retry succeeds |
| `SignerStore.Store.RecordAcceptedCompletion` | services/restricted-signer/src/store.ts:455-490 | completion and callback key are recorded together, once per mission and settlement |
| `SignerStore.Store.MarkLoanRepaid` | services/restricted-signer/src/store.ts:406-413 | funded becomes repaid under one id, and repeating that id is harmless |
| `SignerStore.Store.SaveRepaymentAttempt` | services/restricted-signer/src/store.ts:514-526 | only a failed attempt is ever replaced |
| `EvidenceSafety.RepaidLoanIsBackedByEvidence` | services/restricted-signer/src/completion.ts:103-135 | a repaid loan's mission has an acceptance and a completion whose settlement this signer authorized for it and counted in its spent budget |
| `EvidenceSafety.LoanTermsAreTheAcceptedOffers` | services/restricted-signer/src/credit.ts:128-215 | every loan has the accepted offer's terms, covering the signed request and within the mission's cap |
| `EvidenceSafety.EvidenceIsUnique` | services/restricted-signer/src/store.ts:317-490 | offers, funding transactions, missions of loans, settlements and callback keys are each used once |
| `EvidenceSafety.EvidenceIsFinal` | services/restricted-signer/src/store.ts:317-490 | acceptances, completions and loan terms never change, on every continuation |
| `KeyedMutex.FirstComeFirstServed` | services/restricted-signer/src/gate.ts:33-46 | in every schedule a task runs only after every earlier task of its key ended |
| `KeyedMutex.MutualExclusion` | services/restricted-signer/src/gate.ts:33-46 | two tasks of one key never run at the same time |
| `KeyedMutex.OnlyItsOwnKeyBlocks` | services/restricted-signer/src/gate.ts:33-46 | a waiting task may start exactly when its own key's earlier tasks have ended |
| `KeyedMutex.HoldsExactlyTheBusyKeys` | services/restricted-signer/src/gate.ts:28-31 | the map holds a key exactly while a task of it holds or waits |
| `KeyedMutex.NeverStuck` | services/restricted-signer/src/gate.ts:33-46 | a busy key always has a task that runs or can start |
| `KeyedMutex.ResolvedIff` | services/restricted-signer/src/gate.ts:37-39 | a tail resolves exactly when its task and all before it have ended |
| `KeyedMutex.Mutex.Arrive` | apps/orchestrator/src/workflows/repay.ts:104-109 | a task takes the key's tail as its predecessor and leaves its own |
| `KeyedMutex.Mutex.Begin` | apps/orchestrator/src/workflows/repay.ts:110-112 | a task starts exactly when it is first in line |
| `KeyedMutex.Mutex.Finish` | apps/orchestrator/src/workflows/repay.ts:113-116 | ending, by return or by throw, frees the key exactly when nobody waits |
| `MissionStates.PathsAreShort` | packages/domain/src/mission.ts:24-41 | no path is longer than its start's rank, twelve from created |
| `MissionStates.NoStateTwice` | packages/domain/src/mission.ts:24-41 | a path of allowed transitions visits no state twice |
| `MissionStates.TwelveMovesArePossible` | packages/domain/src/mission.ts:24-41 | the bound is attained |
| `MissionStates.FinishFailure` | apps/orchestrator/src/workflows/mission-workflow.ts:378-429 | the moves of failure handling are those of the route function |
| `MissionStates.FailureRouteIsLegal` | apps/orchestrator/src/workflows/mission-workflow.ts:402-428 | from every state the workflow fails in, the route is legal, ends in closed or defaulted by the loan, and blames the provider once exactly after payment authorization |
| `MissionSafety.EventsFormAPath` | apps/orchestrator/src/state/mission-state-machine.ts:48-85 | on every run, a mission's transition events are a path from created to the persisted state, of at most twelve moves |
| `MissionSafety.FactsFollowThePath` | apps/orchestrator/src/workflows/mission-workflow.ts:208-249 | loan row, spent total (the provider's price, within the cap), completion and repayment are there exactly when the path shows funded, service-paid, completed and repaid |
| `MissionSafety.WorkflowStateIsPersisted` | apps/orchestrator/src/workflows/mission-workflow.ts:122-134 | a live workflow's state is the persisted one, so its failure moves are never refused |
| `MissionSafety.FailureEndsTheMission` | apps/orchestrator/src/workflows/mission-workflow.ts:378-429 | whatever failed and where, the mission ends closed without a loan and defaulted with one, and nothing else about it changes |
| `MissionSafety.JudgedAtMostOnce` | apps/orchestrator/src/workflows/mission-workflow.ts:402-413 | in its whole life a mission counts at most once for or against a provider, and only its own |
| `MissionSafety.RepaymentAnswersAgree` | apps/orchestrator/src/workflows/repay.ts:136-210 | every repayment call, across restarts, returns the repaid loan's one id, for a closed mission |
| `MissionSafety.RunKeepsInv` | apps/orchestrator/src/state/mission-state-machine.ts:48-85 | rows and event log agree on every run over any number of missions |
| `MissionWorkflow.Orchestrator.Transition` | packages/persistence/src/missions.ts:157-177 | state, event and further rows change together, exactly when the persisted state is the expected one and the move is allowed |
| `MissionWorkflow.Orchestrator.RunMission` | apps/orchestrator/src/workflows/mission-workflow.ts:136-269 | whatever the consumer reports, the mission ends running, closed without a loan, or defaulted with one |
| `MissionWorkflow.Orchestrator.HandleFailure` | apps/orchestrator/src/workflows/mission-workflow.ts:378-429 | the route is walked to its end and changes only the state |
| `MissionWorkflow.Orchestrator.OnProgress` | apps/orchestrator/src/workflows/mission-workflow.ts:180-250 | one progress report moves the mission and writes its rows, or is refused and changes nothing |
| `MissionWorkflow.Orchestrator.BeginRunLocked` | apps/orchestrator/src/workflows/repay.ts:136-172 | what repayment does before it asks the signer; an immediate answer is a repaid loan's id |
| `MissionWorkflow.Orchestrator.FinishRunLocked` | apps/orchestrator/src/workflows/repay.ts:173-209 | mission and loan are repaid together, then the mission closes, and only then the id is returned |
| `MissionWorkflow.Orchestrator.AcceptCompletion` | apps/orchestrator/src/callbacks/completion.ts:346-378 | a completion is accepted exactly in running, with its row and transition together |
| `Reputation.GetProviderReputations` | services/directory/src/reputation.ts:42-65 | one pass counts every asked provider's successes and failures, and scores them |
| `Reputation.CountedAtMostOncePerMission` | services/directory/src/reputation.ts:42-65 | a provider's successes and failures together never exceed the missions that selected it |
| `CompletionProtocol.CompletionsAgree` | apps/orchestrator/src/callbacks/completion.ts:282-386 | an orchestrator completion is the signer's: same mission, report and settlement |
| `CompletionProtocol.AcceptedAtMostOnce` | apps/orchestrator/src/callbacks/completion.ts:346-386 | accepted is answered at most once per mission |
| `CompletionProtocol.AnswersAreSettled` | apps/orchestrator/src/callbacks/completion.ts:286-295 | a body answered with success is the one both services recorded, and a mission has one such body |
| `CompletionProtocol.RunKeepsInv` | services/restricted-signer/src/store.ts:434-490 | the cross-service invariant outlives every run of retried, concurrent and lost callbacks |
| `MerkleTree.CompareAccounts` | packages/zk-policy/src/witness.ts:59-66 | the sign of the comparison is the order of (shard, realm, num) |
| `MerkleTree.ReadRecipients` | packages/zk-policy/src/witness.ts:74-83 | the accounts in increasing order, refused exactly when empty, too many, malformed, over 64 bits or duplicated |
| `MerkleTree.BuildMerkleTree` | packages/zk-policy/src/witness.ts:74-97 | the tree is built exactly for a buildable set and holds every level of it |
| `MerkleTree.BuildMissionTree` | packages/zk-policy/src/witness.ts:124-126 | a mission's tree holds the selected provider alone |
| `MerkleTree.PathFor` | packages/zk-policy/src/witness.ts:102-115 | a member's path folds to the root; anybody else is refused, malformed ids with another error |
| `MerkleTree.MemberFolds` | packages/zk-policy/src/witness.ts:102-115 | a leaf's own path leads to the root, for any depth and any hash |
| `MerkleTree.NonMemberNeverFolds` | packages/zk-policy/src/witness.ts:74-117 | with a collision-free hash, the leaf of an account outside the set folds to the root along no path of any length |
| `MerkleTree.RootDeterminesTheSet` | packages/zk-policy/src/witness.ts:88-97 | with a collision-free hash, equal roots mean equal sets |
| `MerkleTree.RootDependsOnTheSetAlone` | packages/zk-policy/src/witness.ts:78-97 | equal sets give equal trees, in whatever order they are listed, for any hash |
| `MerkleTree.TreesAreBinding` | packages/zk-policy/src/witness.ts:74-117 | distinct sets have distinct roots, and no stranger's leaf folds to a root |
| `JsonText.PrintIsInjective` | services/resource-server/src/report.ts:11-29 | printed JSON can be read back in one way only |
| `JsonText.EscapedIsPrefixFree` | services/resource-server/src/report.ts:12-14 | a quoted string ends at its own closing quote (escaping as in section 7 of RFC 8259) |
| `JsonText.CommaChangesOrderIff` | packages/credit-protocol/src/canonical.ts:24-26 | sorting by "key,value" reorders two comma-free keys exactly when one continues the other with a unit below the comma |
| `JsonText.JoinedOrder` | packages/credit-protocol/src/canonical.ts:24-26 | the value after the comma has no say in the order of comma-free keys |
| `CanonicalAgreement.SameTextIffSameMeaning` | services/restricted-signer/src/canonical.ts:11-43 | two accepted values have one text exactly when they mean the same: member order and undefined members are ignored, a bigint is its decimal string, nothing else is confused |
| `CanonicalAgreement.FourSerializersAgree` | apps/orchestrator/src/canonical.ts:9-19 | all four serializers write one text for a value all accept, when its keys are ordinary and none continues another low |
| `CanonicalAgreement.TextsAgreeIff` | packages/credit-protocol/src/canonical.ts:22-28 | for ordinary keys, sorting by joined text and by key give one text if and only if no key continues another low |
| `CanonicalAgreement.DollarKeysDisagree` | packages/credit-protocol/src/canonical.ts:22-28 | identifiers with a dollar sign are a counterexample: {k, k$} is written in two ways |
| `CanonicalAgreement.RebuiltTextsAgreeIff` | services/resource-server/src/report.ts:19-27 | of two serializers that sort by key, one that rebuilds objects and one that does not write one text if and only if, in every object, no other key sorts before an array index and the indices sort alike by number and by text |
| `CanonicalAgreement.ListedAsSortedIff` | services/restricted-signer/src/canonical.ts:28-34 | sorted members keep their places in a rebuilt object exactly when no two of them change places |
| `CanonicalAgreement.IndexKeysDisagree` | services/resource-server/src/report.ts:20-26 | two array indices that sort otherwise by text are written in two ways by the signer and the provider |
| `CanonicalAgreement.WordKeysAreFine` | packages/credit-protocol/src/canonical.ts:22-28 | keys of letters, digits and underscores never continue one another low |
| `CanonicalAgreement.StricterAcceptsLess` | packages/credit-protocol/src/canonical.ts:3-21 | what a stricter serializer accepts a laxer one accepts |
| `CanonicalAgreement.DomainsSeparate` | packages/credit-protocol/src/canonical.ts:44-46 | with newline-free domains, equal signed bytes have equal domain and text |
| `OfferSelection.Evaluate` | packages/policy/src/select.ts:28-53 | an evaluation is the weighted sum and its breakdown, refused exactly for an empty or repeated key, a negative weight or a score outside [0, 1] |
| `OfferSelection.RatioIsClose` | packages/policy/src/offer-selection.ts:34-38 | a truncated ratio lies in [0, 1] and within one part in 10^12 below the exact one |
| `OfferSelection.OffersAreScorable` | packages/policy/src/offer-selection.ts:81-104 | within its own selection every eligible offer's scores lie in [0, 1], so evaluation never refuses |
| `OfferSelection.OrderOfOffersIsIrrelevant` | packages/policy/src/offer-selection.ts:64-120 | every permutation of the offers gives the same outcome |
| `OfferSelection.WinnerIsBest` | packages/policy/src/select.ts:59-75 | the ranking lists the eligible offers; the winner's score is maximal, its id smallest among equals |
| `OfferSelection.BetterTermsScoreNoLower` | packages/policy/src/offer-selection.ts:85-104 | for equal principals, an offer no dearer and expiring no earlier never scores lower |
| `OfferSelection.SelectBest` | packages/policy/src/select.ts:59-75 | every candidate is evaluated, then sorted into the ranking, with its score and the breakdown of it |
| `OfferSelection.SelectCreditOffer` | packages/policy/src/offer-selection.ts:64-120 | refused, without a winner, or the specified ranking with scores and breakdowns |

## Left out

- HTTP, schemas, authentication, URL checks, command lines and process start-up: input and output.
- The web dashboard and the Hedera, x402, snarkjs and Circom libraries: only the stated contracts of prepare, submit, reconcile, transfer and confirm are assumed.
- SHA-256, HMAC, ECDSA, Poseidon and Groth16: hashes are compared as the contents they stand for, the tree takes any hash, and signatures are a yes or no of the event.
- `createEvent` with a row that is already published, and `markEventPublished`: both bypass the outbox and would break event order.
- Timers, `wake`, `flush` and the polling loops of the workers: time passes by any amount at any moment instead.
- Column values that decide nothing (timestamps of insertion, error texts, response headers, memo fields).
- The netting of transfer lists in the two confirmers: a confirmation is taken as the ledger's answer.
- The order and batch size of the provider's pending-settlement query: any attempted payment may be picked up at any time.
- Backoff of callback retries: any later time is allowed.
- The ZK proof, recipient and challenge checks ahead of the reservation lock in `PaymentGate.authorize`: they refuse before anything is written.
- `recordMissionSpending` conflicts and event id collisions: a transition that the database refuses is a step that does not happen.
- Registrars and their retries in `registerPolicy`: a refusal is one of the failures the workflow handles.
- OfferSelection.Evaluate: scores are reals, so floating-point rounding is not modelled.
- CanonicalAgreement.TextsAgreeIff: stated for keys without commas that are not array indices; array indices are the subject of CanonicalAgreement.RebuiltTextsAgreeIff.
- OfferSelection.SelectBest: ties are broken by ids, the one tie-break the callers of the generic function pass.
- CanonicalAgreement.SameTextIffSameMeaning: functions and symbols as values are not modelled, and a number stands for the text JavaScript prints for it.
- CompletionProtocol.CompletionsAgree: the settlement lookup and the binding checks of both services are part of the events that may stop a callback.
- MissionWorkflow.Orchestrator.RunMission: the consumer reports one progress event at a time; that others cannot interfere before `running` is `MissionSafety.WorkflowStateIsPersisted`.
- AuditWriter.HcsAuditWriter.PublishJob, FundingService.Service.Accept, RepaymentService.Service.Repay, ScanHandler.Server.Handle: the waits of a method are explicit calls that run other events, since a method here has no `await`.
