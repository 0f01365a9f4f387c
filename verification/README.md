# Verified model of the marketplace's shared-state protocols

The repository sells digital artworks: a purchase issues entitlements, an entitlement is claimed
into the buyer's wallet, and refunds revoke it again. Several programs work on the same tables at
once and any of them may crash between two statements. This project models those programs in
Dafny and proves what the tables are sure to say afterwards.

Every protocol is modelled twice, and the two are tied together:

* as a **step machine** on values: a world, the events that can happen to it (one event is one
  step of one party between two waits: a read, a local decision, or one transaction), and `Run`
  over any sequence of events. A crash is a party that takes no further step. The results about
  concurrency are statements about every run;
* as **classes and methods** in the form of the source (services, stores, loops with counters),
  each proved to do exactly what an undisturbed run of the machine, or a function on the tables,
  does.

## What is modelled

| file | what it holds |
|---|---|
| `Idempotency.dfy` | the key table, `begin`/`complete`/`release`, the wrapper of catalogue operations, and all interleavings of requests under a key |
| `EntitlementClaim.dfy`, `ClaimProtocol.dfy`, `ClaimAnswers.dfy`, `ClaimOutcomes.dfy`, `ClaimServices.dfy`, `AutoDelivery.dfy` | claim decisions, delivery planning, the claiming transaction; confirmations, automatic deliveries, reissues, refunds, expiry and artwork edits interleaved; the two services |
| `Revocation.dfy`, `RevocationRepair.dfy`, `RevocationPasses.dfy`, `RevocationConflicts.dfy`, `RevocationNotices.dfy` | revocation events, refunds, the delivery worker and the two repair programs over one outbox |
| `PaymentConfig.dfy`, `PaymentFingerprint.dfy`, `AdapterCache.dfy`, `PaymentGateway.dfy` | credential generations, the resolvers, the 32-bit fingerprint, the bounded adapter cache, and runs of payments and refunds |
| `Hmac.dfy` | canonical string, request verification, nonce memory in the process and in the database |
| `ArtworkImage.dfy` | image upload, artwork deletion and whole-row edits |
| `Reissue.dfy` | compare-and-swap of claim tokens |
| `RateLimiter.dfy` | fixed windows, sweeping, the two buckets of a key id |
| `Redact.dfy`, `SensitiveKeys.dfy` | log redaction and the keys it hides by |
| `Authorization.dfy`, `CreatorCatalog.dfy` | role tables and decisions, ownership over creators' interleaved calls |
| `JobThrottle.dfy` | the throttle of internal jobs and the worker loop |
| `Text.dfy`, `WalletEvents.dfy`, `Wrappers.dfy` | strings, wallet events and small datatypes shared by the others |

## Where code and documentation differ

* `packages/database/src/invariants.ts:20-29` writes the claiming update with a condition on the
  expiry date; `packages/database/src/repositories/claim.repository.ts:98-113` runs it without. The
  model follows the repository code: expiry is looked at when a claim is decided and not again when
  it is written (`EntitlementClaim.ExpiryIsNotLookedAtAgain` says exactly where the two part).
* Refund and repair differ in order: a refund queues the revocation and then stops the grant,
  inside one transaction; the repair programs stop first and queue second, in two statements.
  `Revocation.StopThenQueueIsTheSame` shows that inside one transaction the order is immaterial.
* A refund stamps the revocation with its own settlement, a repair with the earliest settlement of
  the order. They never meet on one entitlement. Queueing again is a duplicate and never a conflict
  exactly as long as no refund is dated back while a pass has yet to queue a notice it has listed
  (`RevocationConflicts.PeacefulExactlyWhenCalm`); refunds settled in the order of their dates, as a
  clock that does not go back stamps them, are of that kind (`RevocationRepair.DatedRefundsNeverConflict`).
* Stopping the grant first keeps pending grants from standing behind a queued revocation, except by
  four kinds of steps, which `Revocation.PendingComesBehindExactlyBy` names.
* `Idempotency`: the comments promise that a key is never held twice. That is so exactly when no
  request arrives for a key whose holder has outlived its twenty-four hours
  (`Idempotency.ExclusiveExactlyWhenTimely`).
* `ArtworkImage`: the promise that an image never dangles holds for uploads and deletions, and
  with catalogue edits exactly as long as no edit writes back a key that has been removed, or that
  somebody has replaced and is about to remove (`ArtworkImage.ImagesStayExactlyWhenEditsAreSafe`,
  `ArtworkImage.EditDuringReplacementDangles`, `ArtworkImage.LateEditLeavesAnImageDangling`).
* The limiter in the process sweeps by the window length of the call at hand. It answers like one that
  never forgets exactly as long as no call finds its window swept before its time
  (`RateLimiter.AnswersAlikeExactlyWhenNothingForgotten`); one length and a clock that does not go back suffice.
* `Redact`: a second pass changes an `Error` that stands at the last depth, and only that
  (`Redact.SecondPassChangesNothingExactlyWhen`).

## Model

| member | source | states |
|---|---|---|
| `Idempotency.ExclusiveExactlyWhenTimely` | apps/api/src/common/idempotency.ts:79-131 | over any run of concurrent requests with failing bodies, failing closing writes and crashes, two requests never hold one key at once, exactly when nobody arrives for a key whose holder outlived its lifetime |
| `Idempotency.RunKeepsHistory` | apps/api/src/common/idempotency.ts:79-131 | with a clock that does not go back, no body starts after a success, a body succeeds at most once a lifetime, and what is stored or replayed is the body of that success, for the same digest only |
| `Idempotency.InsideOneLifetime` | apps/api/src/catalog/admin-catalog.controller.ts:271-308 | inside one lifetime: at most one success per key, and everything noted after it under that key is a replay of it with the same digest and body |
| `Idempotency.StoredAnswerIsStable` | packages/database/src/repositories/idempotency.repository.ts:68-94 | no step changes or removes a completed row before its lifetime is over |
| `Idempotency.RecordedResultIsReplayed` | apps/api/src/common/idempotency.ts:79-131 | once a result is stored, and whatever happens until its day is over, every request under its key is given that very result if it has the same digest, and refused if not |
| `Idempotency.ArrivalIsAnsweredByTheRow` | apps/api/src/common/idempotency.ts:79-131 | without a live row a request goes on and holds the key for a day; "another digest" and "still running" are answered exactly when that is so, and a completed row of the same digest is replayed |
| `Idempotency.ClosingIsAnswered` | packages/database/src/repositories/idempotency.repository.ts:68-94 | what is stored and what is answered, by how the body ended and whether the closing write got through |
| `Idempotency.VanishedIsRefused` | apps/api/src/common/idempotency.ts:99-108 | a key neither taken nor there to be read is refused, not run |
| `Idempotency.ReleasedKeyCanBeTakenAgain` | packages/database/src/repositories/idempotency.repository.ts:88-94 | after a failed or unrecorded body whose release is stored, the next request runs its own body, whatever its digest |
| `Idempotency.StepKeepsHistory` | packages/database/src/repositories/idempotency.repository.ts:22-94 | each single step keeps the history sound and every success guarded by its row |
| `Idempotency.UntimelyStepOverlaps` | apps/api/src/common/idempotency.ts:79-101 | an arrival after the lifetime of a live holder makes two holders at once |
| `Idempotency.LateArrivalOverlaps` | apps/api/src/common/idempotency.ts:79-101 | a run from the start in which that happens: a second request one lifetime after a first that is still at work |
| `Idempotency.IdempotencyStore.Claim` | packages/database/src/repositories/idempotency.repository.ts:22-66 | drop an expired row, insert unless one is there, report the row that is there |
| `Idempotency.IdempotencyStore.Complete` | packages/database/src/repositories/idempotency.repository.ts:68-86 | update by key alone; fails without a row |
| `Idempotency.IdempotencyStore.Release` | packages/database/src/repositories/idempotency.repository.ts:88-94 | removes a row in progress and nothing else |
| `Idempotency.IdempotencyService.Begin` | apps/api/src/common/idempotency.ts:79-131 | goes on exactly without a live row; refuses exactly another digest or a running one; replays the stored body for the same digest |
| `Idempotency.IdempotencyService.WithIdempotency` | apps/api/src/catalog/admin-catalog.controller.ts:271-308 | with a key, the table and the answer that arrival, body end and settling of the machine leave, written out for every case; without a key it touches nothing |
| `EntitlementClaim.BothWaysAgree` | packages/domain/src/entitlement/wallet-claim.ts:72-116 | both ways allow a claim for exactly the issued, unexpired entitlement whose resolved buyer is the one presented |
| `EntitlementClaim.AlreadyClaimedIsTheClaimer` | packages/domain/src/entitlement/wallet-claim.ts:72-116 | "already claimed" is answered only to the recorded claimer |
| `EntitlementClaim.DecisionSaysExactly` | packages/domain/src/entitlement/wallet-claim.ts:72-116 | each answer to a claim, exactly when it is given |
| `EntitlementClaim.SkippingSaysExactly` | packages/domain/src/entitlement/auto-delivery.ts:37-71 | each reason for leaving an entitlement alone, exactly when it is given |
| `EntitlementClaim.PlannedEventSays` | apps/api/src/claim/delivery.planner.ts:31-79 | a delivery event is built exactly when all it has to say is there and well formed, and says each thing that was read in its own place |
| `EntitlementClaim.ClaimWritesExactly` | packages/database/src/repositories/claim.repository.ts:90-132 | when a claim is written, raced or rejected, and all that it writes |
| `WalletEvents.IdentifiersAre` | packages/domain/src/wallet-delivery/event.ts:73-227 | a content hash, a common user id and a correlation id are those texts and no others |
| `EntitlementClaim.ExpiryIsNotLookedAtAgain` | packages/database/src/invariants.ts:20-29 | the update that is run and the documented one part exactly at an issued entitlement past its date |
| `ClaimProtocol.AtMostOneClaim` | apps/api/src/claim/claim.service.ts:159-227 | in every interleaving, with crashes and lost replies, an entitlement is claimed at most once, its winner stays its claimer, and at most one delivery is queued for it, addressed to the winner |
| `ClaimProtocol.ExactlyOneDelivery` | apps/api/src/claim/auto-delivery.service.ts:113-168 | with delivery enabled, exactly one granted event for an entitlement that was ever claimed and none for any other, including when planning the event fails |
| `ClaimOutcomes.QueuedDeliveriesSay` | apps/api/src/claim/delivery.planner.ts:31-79 | over every run, a queued delivery is for the claimer of its entitlement and names the order, line, artwork and display the entitlement had at some time, each in its place |
| `ClaimProtocol.SuccessIsTheClaimers` | apps/api/src/claim/claim.service.ts:164-226 | every success that is not "pending" names the presented buyer as the claimer from the moment it is worked out, and its status is what was read |
| `ClaimProtocol.SuccessIsTheClaimersInEveryRun` | apps/api/src/claim/claim.service.ts:164-226 | the same at whatever point of whatever run from the start it is worked out |
| `ClaimProtocol.AnswersStandForGood` | apps/api/src/claim/claim.service.ts:159-227 | no later step makes an answer given to a buyer untrue about the claimer |
| `ClaimProtocol.WinningKeepsLedger` | packages/database/src/repositories/claim.repository.ts:90-132 | the committed claim extends the ledger of claims and never repeats an entitlement |
| `ClaimProtocol.PlanIsForTheClaimer` | apps/api/src/claim/delivery.planner.ts:31-79 | a planned grant names the claimer and the entitlement it is for |
| `ClaimProtocol.RunKeepsInv` | apps/api/src/claim/claim.service.ts:101-227 | the ledger of claims, the outbox, all parties and all answers agree with the tables after any run |
| `ClaimProtocol.RunKeepsTokensUnique` | packages/database/src/repositories/claim.repository.ts:28-34 | a token names one entitlement in every run of issues and reissues |
| `ClaimProtocol.ClaimsFollowIdempotency` | apps/api/src/claim/claim.service.ts:125-156 | seen from the keys, every step of the claim protocol is a step of the idempotency protocol or none |
| `ClaimProtocol.ClaimsKeepKeyHistory` | apps/api/src/claim/claim.service.ts:125-156 | hence every run of claims keeps the history of keys sound |
| `ClaimAnswers.RepliesAreTrue` | apps/api/src/claim/claim.service.ts:101-227 | whatever a buyer was answered other than "pending", at first or again under the key, was worked out for that token and buyer, and the buyer is the claimer of the entitlement the token was issued for |
| `ClaimAnswers.RecordedConfirmations` | apps/api/src/claim/claim.service.ts:125-156 | what is recorded under a key is the status worked out for the token and buyer the key is bound to, never a pending one, and still true of the claimer; so is whatever is given again |
| `ClaimAnswers.StepKeepsTold` | apps/api/src/claim/claim.service.ts:125-227 | no step answers or records a success that was not worked out for its own token and buyer |
| `ClaimAnswers.StepKeepsNamed` | packages/database/src/repositories/claim.repository.ts:28-34 | every row a buyer has looked up, and every answer, is of the entitlement the presented token was issued for |
| `ClaimProtocol.RunKeepsHolders` | apps/api/src/claim/claim.service.ts:125-156 | every request that has taken a key holds a use of its own of that key |
| `ClaimProtocol.PendingCanBeRetried` | apps/api/src/claim/claim.service.ts:133-150 | after a pending answer whose release is stored, the same key goes on to a decision of its own |
| `ClaimOutcomes.RereadSaysExactly` | apps/api/src/claim/claim.service.ts:201-219 | after a lost race, whoever finds the entitlement claimed by themselves is answered its status, and everybody else that it is being processed |
| `ClaimOutcomes.LosingToOneselfIsSuccess` | apps/api/src/claim/claim.service.ts:192-219 | a buyer whose delivery came first is answered success, and nothing is written twice |
| `ClaimOutcomes.LookupSaysExactly` | packages/database/src/repositories/claim.repository.ts:28-34 | an unknown token is invalid, a known one finds its row |
| `ClaimOutcomes.DecideSaysExactly` | apps/api/src/claim/claim.service.ts:164-190 | what ends the body at once, and what goes on to be written with which event |
| `ClaimOutcomes.CommitSaysExactly` | apps/api/src/claim/claim.service.ts:192-226 | a claim that goes through is on its way; one that comes too late has the row read again |
| `ClaimOutcomes.OutagesSayExactly` | apps/api/src/claim/claim.service.ts:192-219 | a write or a reading that does not get through, or whose reply is lost, is never answered as a success |
| `ClaimOutcomes.SettleSaysExactly` | apps/api/src/claim/claim.service.ts:125-157 | a success is answered once it is stored, a pending one in any case, a failure as it is |
| `ClaimServices.ClaimService.Confirm` | apps/api/src/claim/claim.service.ts:101-157 | a confirmation nobody interferes with is the six steps of the protocol; its reply, tables and keys are written out for every case, repeats included |
| `ClaimServices.ClaimService.Execute` | apps/api/src/claim/claim.service.ts:159-227 | the guarded body, for a row that may be out of date: what it answers and writes in each case, success after a race lost to oneself included |
| `ClaimServices.ExecutedIsTheBodySteps` | apps/api/src/claim/claim.service.ts:159-227 | the body agrees with the three steps of the protocol whatever became of the tables since the lookup |
| `ClaimServices.ConfirmedIsARun` | apps/api/src/claim/claim.service.ts:101-227 | the whole confirmation, as a function of the tables, is a run of the protocol |
| `ClaimServices.ClaimDatabase.Confirm` | packages/database/src/repositories/claim.repository.ts:90-132 | one transaction: claim if still issued, queue with it, undo both on a taken event id |
| `ClaimServices.ClaimDatabase.LookupByTokenHash` | packages/database/src/repositories/claim.repository.ts:28-34 | the row with that token, or none |
| `AutoDelivery.WalletAutoDeliveryService.Deliver` | apps/api/src/claim/auto-delivery.service.ts:113-168 | one attempt, written out for every case: skipped, failed before any write, claimed, or a race lost quietly |
| `AutoDelivery.WalletAutoDeliveryService.Sweep` | apps/api/src/claim/auto-delivery.service.ts:90-111 | the loop over rows read beforehand leaves tables and counters of the attempts in turn |
| `AutoDelivery.WalletAutoDeliveryService.RunForEntitlements` | apps/api/src/claim/auto-delivery.service.ts:58-82 | the same for named entitlements, each read at its turn; one that is missing or cannot be read is counted as failed |
| `AutoDelivery.AttemptIsTwoSteps` | apps/api/src/claim/auto-delivery.service.ts:113-168 | an attempt is two steps of the claim protocol; one without an audit entry is one whose reply was lost |
| `AutoDelivery.MissingIsFailed` | apps/api/src/claim/auto-delivery.service.ts:58-82 | a named entitlement that is missing or unreadable is counted as failed and nothing is tried |
| `AutoDelivery.OutcomesAreCounted` | apps/api/src/claim/auto-delivery.service.ts:69-73 | each outcome is counted under its own name |
| `AutoDelivery.OneFailureStopsNothing` | apps/api/src/claim/auto-delivery.service.ts:84-111 | an item deliverable when the pass began is delivered by it whatever the others come to |
| `AutoDelivery.CountersAccountForClaims` | apps/api/src/claim/auto-delivery.service.ts:58-111 | the counters add up to what was picked and bound the number of new claims from both sides |
| `Revocation.NoticeGoesToWhoWasTold` | packages/domain/src/entitlement/revocation.ts:127-143 | the recipient is the one the grant named, else the recorded claimer, else nobody and a review |
| `Revocation.DecidedRowsCanBePlanned` | apps/api/src/claim/revoke.planner.ts:28-58 | once a recipient is decided, building the event cannot fail |
| `Revocation.SameEventExactlyWhenSameInstant` | apps/api/src/claim/revoke.planner.ts:28-58 | a row read again gives the same event exactly when its instant is the same |
| `Revocation.PlannedNoticeSays` | apps/api/src/claim/revoke.planner.ts:28-58 | a notice says what its row says, each thing in its own place, at the row's instant, as a full refund, to whom it was decided to go |
| `RevocationNotices.QueuedRevocationsSay` | apps/api/src/claim/revocation-reconcile.service.ts:133-194 | over every run, a queued revocation names the order, line and artwork of its own entitlement and goes to whom the grant went, or else to the recorded claimer |
| `RevocationNotices.ListingSays` | packages/database/src/repositories/revocation-reconcile.repository.ts:15-75 | what is listed is revoked, was granted, has no notice, and is shown as the tables have it |
| `RevocationNotices.NothingMissingIsPassedOver` | packages/database/src/repositories/revocation-reconcile.repository.ts:15-75 | everything missing is listed if the limit has room for it |
| `Revocation.OnlyEscapedGrantsOutlive` | apps/api/src/claim/revocation-reconcile.service.ts:133-164 | over every run of refunds, passes of both programs, deliveries and crashes: a grant that could still be sent behind a queued revocation was in delivery when it was to be stopped; and an entitlement has one revocation, under its own id |
| `Revocation.NoPendingGrantBehindRevocation` | apps/worker/src/wallet-revocation-backfill-cli.ts:121-146 | as long as no other step returns rows to pending, no pending grant stands behind a queued revocation |
| `Revocation.NeverPendingBehindExactlyWhen` | apps/api/src/claim/revocation-reconcile.service.ts:133-164 | over any run, no pending grant ever stands behind a queued revocation exactly when no step is one of the four below |
| `Revocation.PendingComesBehindExactlyBy` | packages/database/src/repositories/wallet-delivery.repository.ts:209-338 | a step puts the first such grant there exactly if it reclaims, retries or requeues a grant whose revocation is queued, or queues a revocation whose grant has come back to pending |
| `Revocation.GrantInDeliveryEscapes` | packages/database/src/repositories/refund.repository.ts:437-597 | a grant in delivery during a refund is left behind its revocation |
| `Revocation.EscapedGrantComesBack` | packages/database/src/repositories/wallet-delivery.repository.ts:209-215 | and goes back to pending when the stale delivery is reclaimed |
| `Revocation.RefundQueuesItsNotice` | packages/database/src/repositories/refund.repository.ts:437-597 | a refund with notices on, a granted event and a known recipient queues its own notice, newly, and stops the grant |
| `Revocation.RefundWritesExactly` | packages/database/src/repositories/refund.repository.ts:437-597 | which entitlements a refund revokes, what it writes, and what it does where there is nobody to notify |
| `Revocation.StoppingWritesExactly` | packages/database/src/repositories/wallet-delivery.repository.ts:325-338 | stopping touches the pending, failed and dead grants of the one entitlement and no other row |
| `Revocation.StopThenQueueIsTheSame` | packages/database/src/repositories/refund.repository.ts:548-594 | inside one transaction, queueing first and stopping first leave the same outbox |
| `Revocation.SupersedeSeals` | packages/database/src/repositories/wallet-delivery.repository.ts:325-338 | after stopping, every grant of the entitlement is stopped or delivered, or was in delivery |
| `Revocation.QueueGrows` | packages/database/src/repositories/wallet-delivery.repository.ts:276-311 | queueing adds at most the one row under the id made from the entitlement, and leaves every other row |
| `Revocation.RunKeepsInv` | apps/api/src/claim/revocation-reconcile.service.ts:101-164 | rows, seals and passes stay in order through any run |
| `RevocationConflicts.PeacefulExactlyWhenCalm` | apps/api/src/claim/revocation-reconcile.service.ts:149-194 | over any run and however the passes of both programs go on from any point of it, no payload conflict is recorded exactly when no refund is dated back while a pass has yet to queue a notice of that order |
| `RevocationConflicts.UpsetEndsPeace` | packages/database/src/repositories/wallet-delivery.repository.ts:297-311 | after such a refund a new pass and the old one record a conflict |
| `RevocationConflicts.BackDatingEndsPeace` | apps/worker/src/wallet-revocation-backfill-cli.ts:96-165 | such a run from the start: purchase, claim, refund, listing, and a back-dated refund |
| `RevocationRepair.QueueingAgainNeverConflicts` | apps/api/src/claim/revocation-reconcile.service.ts:149-194 | with no refund dated back in that way, overlapping passes of both programs never record a payload conflict |
| `RevocationRepair.DatedRefundsNeverConflict` | packages/database/src/repositories/refund.repository.ts:153-168 | with refunds settled in the order of their dates there are no conflicts at all |
| `RevocationRepair.InstantMovesExactlyWhenBackDated` | packages/database/src/repositories/revocation-reconcile.repository.ts:15-75 | the instant of a revoked entitlement moves by a refund of its order dated before it, to that date, and by no other step |
| `RevocationRepair.QueueingAgainConflictsExactlyWhenTimeMoved` | packages/database/src/repositories/wallet-delivery.repository.ts:297-311 | queued twice, a notice is a duplicate exactly when its instant is the same and a conflict exactly when it moved |
| `RevocationRepair.RefundNeverConflicts` | packages/database/src/repositories/refund.repository.ts:548-584 | a refund never meets an earlier notice for the entitlement it revokes |
| `RevocationRepair.StepKeeps` | packages/database/src/repositories/revocation-reconcile.repository.ts:15-75 | the rows of a revoked entitlement change by nothing but a pass queueing its own notice |
| `RevocationPasses.RowIsTwoSteps` | apps/api/src/claim/revocation-reconcile.service.ts:101-194 | repairing one row is the two steps of the protocol |
| `RevocationPasses.FullPassGetsAhead` | apps/api/src/claim/revocation-reconcile.service.ts:82-219 | a full pass never throws, conflicts or meets a duplicate; it adds nothing to anybody's backlog and resolves at least as many rows as the limit leaves room for beside the unresolvable ones |
| `RevocationPasses.BacklogDrains` | apps/worker/src/wallet-revocation-backfill-cli.ts:96-165 | with fewer than `limit` unresolvable rows, as many passes as there are resolvable rows empty that backlog |
| `RevocationPasses.PassIsStuckExactlyWhenObstructed` | packages/database/src/repositories/revocation-reconcile.repository.ts:57-64 | with distinct ages, a pass queues nothing exactly when at least `limit` unresolvable rows stand before every resolvable one, and then nothing ever moves |
| `RevocationPasses.RowResolves` | apps/api/src/claim/revocation-reconcile.service.ts:101-194 | repairing a listed row takes just that row out of the backlog, or puts it up for review and leaves the backlog as it is |
| `RevocationNotices.RowIsCounted` | apps/api/src/claim/revocation-reconcile.service.ts:101-194 | each row is counted once, by what became of its notice, and what it writes |
| `RevocationNotices.PassIsTallied` | apps/api/src/claim/revocation-reconcile.service.ts:82-219 | for any listing, the counters add up to the rows, and as many notices are new and grants stopped as they say |
| `RevocationPasses.RevocationDatabase.ListMissing` | packages/database/src/repositories/revocation-reconcile.repository.ts:15-75 | the oldest missing rows, as many as asked for |
| `RevocationPasses.RevocationDatabase.EnqueueIdempotent` | packages/database/src/repositories/wallet-delivery.repository.ts:276-311 | insert if absent by event id, else compare hashes |
| `RevocationPasses.RevocationDatabase.SupersedePendingGranted` | packages/database/src/repositories/wallet-delivery.repository.ts:325-338 | stops pending, failed and dead grants and counts them |
| `RevocationPasses.RevocationReconcileService.Run` | apps/api/src/claim/revocation-reconcile.service.ts:82-219 | the loop leaves tables and counters of the rows repaired in turn; a dry run writes nothing |
| `RevocationPasses.Backfill` | apps/worker/src/wallet-revocation-backfill-cli.ts:48-172 | the command-line program does to the tables what the service does for the same listing; its skipped counter is review plus pass-over; without permission or without `--execute` it writes nothing |
| `PaymentConfig.NewPaymentsGoToTheAcceptingGeneration` | packages/integrations/src/payment-config.ts:137-199 | when and with whose keys a new payment is made: the one accepting generation, or the deployment only under the override; stopped is said first |
| `PaymentConfig.ResolvedConfigSays` | packages/integrations/src/payment-config.ts:160-197 | where the customer is sent back to, which settings are said to be used, and the version spoken |
| `PaymentConfig.RefusalSaysExactly` | packages/integrations/src/payment-config.ts:137-199 | each reason for having no configuration, exactly when it is given |
| `PaymentConfig.AcceptingAre` | packages/domain/src/payment/credential.ts:66-76 | accepting are the active generations of this provider and environment that are set to |
| `PaymentConfig.RefundsResolveByGeneration` | packages/integrations/src/payment-config.ts:221-251 | a refund resolves by its generation alone, exactly when that can be opened |
| `PaymentConfig.RefundConfigSays` | packages/integrations/src/payment-config.ts:221-251 | a refund's configuration: the generation's keys and version, the deployment's addresses |
| `PaymentConfig.AcceptingGeneration` | packages/domain/src/payment/credential.ts:66-76 | the accepting generation, if there is exactly one |
| `PaymentFingerprint.Hash` | packages/integrations/src/resolving-payment.ts:282-288 | the loop over signed 32-bit words computes the sum modulo 2^32 in base 36 |
| `PaymentFingerprint.FingerprintNamesTheGeneration` | packages/integrations/src/resolving-payment.ts:261-272 | equal fingerprints name the same generation and equally marked keys, whatever the addresses contain |
| `PaymentFingerprint.SameFingerprintExactlyWhen` | packages/integrations/src/resolving-payment.ts:261-272 | two configurations have one fingerprint exactly when generation, marks of the keys and the joined source, version and addresses are the same |
| `PaymentFingerprint.FingerprintTellsExactly` | packages/integrations/src/resolving-payment.ts:261-272 | a fingerprint tells generation, length and hash of both secrets, and source, version and addresses joined up, and nothing else |
| `PaymentFingerprint.HashIsTheLast32Bits` | packages/integrations/src/resolving-payment.ts:282-288 | cutting to 32 bits at every character comes to cutting once at the end |
| `PaymentFingerprint.FingerprintSeparatesGenerations` | packages/integrations/src/resolving-payment.ts:261-272 | configurations with bar-free texts and fixed keys per generation are told apart |
| `PaymentFingerprint.BarInAnAddressConfuses` | packages/integrations/src/resolving-payment.ts:261-272 | with a bar in an address they need not be |
| `AdapterCache.GatewayForKeepsCache` | packages/integrations/src/resolving-payment.ts:211-227 | at most six adapters, each under its own fingerprint, and the one handed out has the fingerprint asked for |
| `AdapterCache.AdaptersMatch` | packages/integrations/src/resolving-payment.ts:122-142 | of any configurations served in turn, each gets an adapter with its own fingerprint |
| `AdapterCache.BuiltOnceEach` | packages/integrations/src/resolving-payment.ts:211-227 | over any calls using at most six fingerprints, each is built exactly once |
| `AdapterCache.FreshExactlyWhenNoLookAlike` | packages/integrations/src/resolving-payment.ts:211-227 | what is handed out is what building afresh gives, exactly when no kept look-alike is in the way |
| `AdapterCache.KeepingIsUnobservable` | packages/integrations/src/resolving-payment.ts:211-227 | among configurations the fingerprint separates, keeping adapters is never noticed |
| `AdapterCache.SeventhPushesOutTheFirst` | packages/integrations/src/resolving-payment.ts:211-227 | seven different fingerprints in turn: the first is no longer kept, the other six are |
| `PaymentGateway.RefundsUseTheirOwnKeys` | packages/integrations/src/resolving-payment.ts:153-189 | over all runs of registrations, activations, retirements, stops, restarts, overrides and unopenable keys: a stamped payment is made and refunded with its own generation's key, or not refunded |
| `PaymentGateway.RefundIsSentExactlyWhenItsGenerationOpens` | packages/integrations/src/resolving-payment.ts:161-189 | the refund of a stamped payment is sent exactly when its generation can be opened, with that key |
| `PaymentGateway.StoppingAndRetiringLeaveRefundsAlone` | packages/integrations/src/payment-config.ts:201-251 | stopping, retiring and handing over change nothing about what a refund comes to |
| `PaymentGateway.AdapterIsOfTheGeneration` | packages/integrations/src/resolving-payment.ts:211-227 | the adapter handed out for a generation's configuration holds that generation's keys, even if it was built for a look-alike |
| `PaymentGateway.CredsStepKeepsKeys` | packages/database/src/repositories/payment-credential.repository.ts:47-159 | no step rewrites keys, removes a generation, or lets two accept at once |
| `PaymentGateway.ActivationHandsOver` | packages/database/src/repositories/payment-credential.repository.ts:98-140 | a checked generation that is activated is from then on the one that accepts, and only the one that stepped down changes beside it |
| `PaymentGateway.PaymentsFollowActivation` | packages/integrations/src/resolving-payment.ts:82-101 | the next payment is made with its keys and stamped with it |
| `PaymentGateway.GenerationsMoveExactly` | packages/database/src/repositories/payment-credential.repository.ts:47-165 | what registering, checking and retiring do to a generation, and when they do nothing |
| `PaymentGateway.AcceptingIsSetExactly` | packages/database/src/repositories/payment-credential.repository.ts:141-150 | an active generation that is alone accepts, or not, as it is told; no other does |
| `PaymentGateway.NoticesAreTriedWithRefundKeys` | packages/integrations/src/payment-config.ts:221-251 | a notice is tried with the configuration a refund of that generation would use |
| `PaymentGateway.ResolvingPaymentGateway.CreateCheckoutSession` | packages/integrations/src/resolving-payment.ts:82-101 | resolve, take the adapter, stamp the generation: the checkout step of the machine; each reason for having no configuration is told as its own error |
| `PaymentGateway.ResolvingPaymentGateway.RefundPayment` | packages/integrations/src/resolving-payment.ts:153-189 | never falls back to the current generation for a stamped payment: the refund step of the machine |
| `PaymentGateway.ResolvingPaymentGateway.VerifyAndParseWebhook` | packages/integrations/src/resolving-payment.ts:112-142 | the configurations given, or else the current one, are asked in order until one accepts; it is the one stamped and recorded; if none does, the last error is given; without a configuration nothing is asked |
| `PaymentGateway.ResolvingPaymentGateway.VerificationCandidates` | packages/integrations/src/resolving-payment.ts:191-209 | the configurations given; if there are none the current one, or why there is none |
| `PaymentGateway.AskingIsAStep` | packages/integrations/src/resolving-payment.ts:112-142 | asking the adapters of some generations leaves the cache that the verification step of the machine leaves |
| `PaymentGateway.ResolvingPaymentGateway.ResolveNow` | packages/integrations/src/payment-config.ts:137-199 | the resolver computes the resolution above |
| `Hmac.FieldsComeBackExactlyWhenOneLine` | packages/integrations/src/sennokuni-hmac.ts:40-49 | cutting at the first five newlines gives back all six fields exactly when the first five are single lines |
| `Hmac.NoTwoRequestsShareAText` | packages/integrations/src/sennokuni-hmac.ts:40-49 | two requests with one-line headers share a signed text only if they are the same request |
| `Hmac.OnlyAcceptedRequestsAreRemembered` | packages/integrations/src/sennokuni-hmac.ts:116-176 | the memory of nonces changes exactly when a request is accepted; a wrong signature uses up nothing |
| `Hmac.GenuineRequestIsAccepted` | packages/integrations/src/sennokuni-hmac.ts:116-176 | a request properly signed by a known key, in time and with a new nonce, is accepted and its nonce remembered |
| `Hmac.VerifySays` | packages/integrations/src/sennokuni-hmac.ts:116-176 | which answer each request gets, and in which order faults are told |
| `Hmac.AcceptedNoncesAreApart` | packages/integrations/src/sennokuni-hmac.ts:201-212 | whatever the clock does, acceptances with one key id and nonce are at least the tolerance apart, and a request accepted after its own time is not accepted again |
| `Hmac.CanBeReplayedExactlyWhenEarly` | packages/integrations/src/sennokuni-hmac.ts:116-176 | an accepted request can be accepted once more exactly when it was accepted no later than its own time |
| `Hmac.NumberReadsDecimal` | packages/integrations/src/sennokuni-hmac.ts:142-149 | a timestamp written in decimal is read back as that number |
| `Hmac.MemoriesAnswerAlike` | packages/database/src/repositories/nonce.repository.ts:15-43 | with key ids free of spaces, the memory in the process answers as the one in the database |
| `Hmac.MemoriesAgreeExactlyWhenNotConfused` | packages/database/src/repositories/nonce.repository.ts:15-43 | over any calls under a clock that does not go back, the two memories answer alike exactly as long as no call comes for a pair that reads like another one still remembered |
| `Hmac.SpacesConfuseKeys` | packages/integrations/src/sennokuni-hmac.ts:204-212 | with a space in a key id, the memory in the process takes two different pairs for one |
| `Hmac.SenNoKuniHmacVerifier.VerifyRequest` | packages/integrations/src/sennokuni-hmac.ts:116-176 | accepted, or one of six failures, each written out, in this order and the nonce last |
| `Hmac.InMemoryNonceStore.RememberNonce` | packages/integrations/src/sennokuni-hmac.ts:204-212 | refuses a nonce still remembered, else remembers it |
| `ArtworkImage.ImagesNeverDangle` | apps/api/src/catalog/image.service.ts:42-105 | over every run of uploads, deletions and safe edits with crashes and fresh keys, every artwork's image is in storage |
| `ArtworkImage.UploadsAndDeletionsNeverDangle` | apps/api/src/catalog/admin-catalog.service.ts:165-195 | in particular for uploads and deletions alone |
| `ArtworkImage.ImagesStayExactlyWhenEditsAreSafe` | packages/database/src/repositories/artwork.repository.ts:80-99 | over any run, images stay in storage whichever removal under way is made next, exactly when no edit writes back a key that has been removed or is about to be |
| `ArtworkImage.UnsafeEditDangles` | apps/api/src/catalog/admin-catalog.service.ts:95-112 | any other edit leaves the image dangling at once or by one removal that is already under way |
| `ArtworkImage.TimelyEditIsSafe` | apps/api/src/catalog/admin-catalog.service.ts:95-112 | an edit that writes back the key the artwork still has is safe |
| `ArtworkImage.EditDuringReplacementDangles` | apps/api/src/catalog/image.service.ts:42-105 | a run from the start in which an edit is saved between a replacement's write and its removal: nothing dangles until the removal, and then it does |
| `ArtworkImage.LateEditLeavesAnImageDangling` | apps/api/src/catalog/admin-catalog.service.ts:95-112 | an edit begun before a replacement and saved after all of it leaves the image dangling at once |
| `ArtworkImage.EditSaves` | packages/database/src/repositories/artwork.repository.ts:80-99 | an edit writes back the row it read with the new contents |
| `ArtworkImage.ArtworkImageService.Upload` | apps/api/src/catalog/image.service.ts:42-105 | put, update, remove the old: the four steps of the machine; table and store written out, with nothing dangling before or after |
| `ArtworkImage.AdminCatalogService.DeleteArtwork` | apps/api/src/catalog/admin-catalog.service.ts:165-195 | the row first and the image after it: the three steps of the machine, table and store written out |
| `Reissue.OneWinnerAndTheLastOneStands` | apps/api/src/claim/reissue.service.ts:43-100 | of the reissues that read one hash at most one wins, the stored hash is the last winner's, and a replaced hash never opens anything again |
| `Reissue.SwappedWasLive` | apps/api/src/claim/reissue.service.ts:63-85 | only a swap of the purchaser's own, still issued row lets a link out, and stores its hash in that very step |
| `Reissue.SwapSaysExactly` | packages/database/src/repositories/claim.repository.ts:172-191 | a swap goes through exactly for the purchaser's issued row with the hash that was read, and is answered "in progress" otherwise |
| `Reissue.LinkOpensUntilTheNextSwap` | apps/api/src/claim/reissue.service.ts:63-100 | a link handed out was stored by its own swap and opens exactly until the next swap of the row |
| `Reissue.ReissueService.ReissueLink` | apps/api/src/claim/reissue.service.ts:43-100 | the service alone is the four steps of the machine; each refusal exactly when, else the new link |
| `Reissue.ClaimTokens.Rotate` | packages/database/src/repositories/claim.repository.ts:172-191 | replaces the hash only of the purchaser's issued row with the expected hash |
| `RateLimiter.RetryAfterIsTheFirstWholeSecond` | packages/domain/src/rate-limit/fixed-window.ts:61-84 | waiting as told is enough, and one second less is not |
| `RateLimiter.ExactlyTheFirstAreLetIn` | packages/domain/src/rate-limit/fixed-window.ts:61-84 | of the calls in one window exactly the first `limit` are let in, each told how many are left, and refused ones are counted too |
| `RateLimiter.FirstOfAMinuteAreLetIn` | apps/api/src/claim/rate-limit.guard.ts:52-88 | of a key id's confirmations within a minute exactly as many are let in as are allowed, of its status requests as many as of those |
| `RateLimiter.CallSays` | apps/api/src/claim/rate-limit.guard.ts:63-72 | under which name, with which limit and for how long a request is counted |
| `RateLimiter.SweepFreesElapsed` | packages/integrations/src/in-memory-rate-limiter.ts:57-68 | five minutes after the last sweep exactly the elapsed windows are thrown away, before that none |
| `RateLimiter.SweepingIsUnobservable` | packages/integrations/src/in-memory-rate-limiter.ts:38-68 | with one window length and a clock that does not go back, the limiter answers like one that never forgets |
| `RateLimiter.AnswersAlikeExactlyWhenNothingForgotten` | packages/integrations/src/in-memory-rate-limiter.ts:38-68 | with whatever clock and lengths, the answers are those of a limiter that never forgets exactly when no call finds its window swept although it has not elapsed for that call |
| `RateLimiter.ClockGoingBackShows` | packages/integrations/src/in-memory-rate-limiter.ts:57-68 | with a clock that goes back it does not |
| `RateLimiter.BucketsAreIndependent` | packages/integrations/src/in-memory-rate-limiter.ts:38-55 | the answers to a bucket are those to its own calls alone |
| `RateLimiter.BucketsDiffer` | apps/api/src/claim/rate-limit.guard.ts:63-72 | two requests share a bucket exactly when key id and kind are the same |
| `RateLimiter.StatusNeverChangesConfirm` | apps/api/src/claim/rate-limit.guard.ts:52-88 | confirmations under one key id are answered as if they were alone |
| `RateLimiter.InMemoryRateLimiter.ConsumeOne` | packages/integrations/src/in-memory-rate-limiter.ts:38-55 | sweep, count, keep the window |
| `RateLimiter.InMemoryRateLimiter.SweepOld` | packages/integrations/src/in-memory-rate-limiter.ts:57-68 | the loop keeps exactly the windows that have not elapsed |
| `RateLimiter.ClaimRateLimitGuard.CanActivate` | apps/api/src/claim/rate-limit.guard.ts:52-88 | spends one call of the right bucket and tells a refused caller how long to wait |
| `Redact.OutputIsMasked` | packages/observability/src/redact.ts:74-97 | every sensitive key at every depth of the output holds only the mark |
| `Redact.SecretsDoNotShow` | packages/observability/src/redact.ts:74-97 | what stands under sensitive keys has no influence on the output |
| `Redact.SecondPassChangesNothingExactlyWhen` | packages/observability/src/redact.ts:74-97 | a second pass changes nothing exactly when no error stands at the last depth |
| `Redact.LookingCommutes` | packages/observability/src/redact.ts:74-97 | along a path without sensitive keys, redacting and looking commute |
| `Redact.OpenLeavesSurviveExactlyUpToTheLimit` | packages/observability/src/redact.ts:74-97 | a primitive outside sensitive keys survives exactly up to eight levels |
| `Redact.OpenValuesAreShown` | packages/observability/src/redact.ts:74-97 | up to eight levels dates are shown as text, errors as name and message, lists and objects with all their places |
| `Redact.NineDeepIsCut` | packages/observability/src/redact.ts:74-97 | what stands one level deeper is cut |
| `Redact.RedactValue` | packages/observability/src/redact.ts:74-97 | the recursion with its loops computes the function above |
| `SensitiveKeys.SpellingDoesNotMatter` | packages/observability/src/redact.ts:62-67 | separators and case make no difference to a key |
| `SensitiveKeys.LongerKeysAreSensitiveToo` | packages/observability/src/redact.ts:62-67 | a key that contains a sensitive one is sensitive |
| `SensitiveKeys.SecretKeysAreSensitive` | packages/observability/src/redact.ts:15-67 | the words for secrets hide a key, whatever stands around them and in capitals too |
| `SensitiveKeys.PersonalKeysAreSensitive` | packages/observability/src/redact.ts:15-67 | so do those for personal data and connections |
| `SensitiveKeys.ErrorKeysAreOpen` | packages/observability/src/redact.ts:84-87 | the two keys of a shown error are not sensitive |
| `SensitiveKeys.LoggedValuesAreMasked` | packages/observability/src/redact.ts:62-97 | masking, independence of what is hidden, and the exact condition for a second pass, for the actual keys |
| `Authorization.FullDecisionIsGuardAndOwnership` | packages/auth/src/authorization.ts:663-734 | the full decision is the guard's and, without a bypass, ownership; the guard is never stricter |
| `Authorization.DecisionSaysExactly` | packages/auth/src/authorization.ts:384-700 | who is let in and what everybody else is told, from the tables read action by action |
| `Authorization.RolesAreThose` | packages/auth/src/authorization.ts:384-540 | the lists by role are the table by action |
| `Authorization.WhoIsExcusedFromOwning` | packages/auth/src/authorization.ts:617-633 | who is excused from owning what, over all roles |
| `Authorization.OwnersMarkIsNeeded` | packages/auth/src/authorization.ts:572-615 | what is reserved to the site's owner needs the mark and an operator |
| `CreatorCatalog.WritesTouchOnlyOwn` | apps/api/src/catalog/creator-catalog.service.ts:57-163 | at whatever moment it comes, a write by somebody not excused changes only their own artworks and listings, and makes things only for themselves |
| `CreatorCatalog.StrangersLeavePropertyAlone` | apps/api/src/catalog/creator-catalog.service.ts:57-163 | over any run of other people's calls, an account's property is exactly what it was |
| `CreatorCatalog.CheckedIsOwn` | apps/api/src/catalog/creator-catalog.service.ts:140-163 | what passes the check is the actor's own, unless excused |
| `CreatorCatalog.OwnersPassExactly` | apps/api/src/catalog/creator-catalog.service.ts:140-163 | exactly an active account that made the artwork, or an active operator, passes the check |
| `CreatorCatalog.ListingOwnersPassExactly` | apps/api/src/catalog/creator-catalog.service.ts:140-163 | the same for listings, by the artwork they are for |
| `CreatorCatalog.ArchivingLeaves` | apps/api/src/catalog/admin-catalog.service.ts:131-150 | archiving an artwork ends all its listings and no others |
| `CreatorCatalog.ListingChangeLeaves` | apps/api/src/catalog/creator-catalog.service.ts:103-110 | an owner's change of a listing changes it and nothing else |
| `CreatorCatalog.CreatorCatalogService.AssertOwnsArtwork` | apps/api/src/catalog/creator-catalog.service.ts:140-149 | a missing artwork and somebody else's are answered alike |
| `CreatorCatalog.CreatorCatalogService.UpdateArtwork` | apps/api/src/catalog/creator-catalog.service.ts:68-75 | the delegated write and nothing else, only after the check: the three steps of the machine |
| `CreatorCatalog.CreatorCatalogService.CreateListingFor` | apps/api/src/catalog/creator-catalog.service.ts:97-101 | a listing only for an artwork of one's own: the three steps of the machine |
| `JobThrottle.AttemptsAreFew` | apps/worker/src/internal-job-caller.ts:43-61 | attempts carry times at least the interval apart, whatever polling, outcomes and clock; a span holds at most its length by the interval, rounded down, plus one |
| `JobThrottle.SilentUntilCaughtUp` | apps/worker/src/internal-job-caller.ts:48-61 | nothing is attempted exactly until the clock has caught up with the last attempt |
| `JobThrottle.OneMorePoll` | apps/worker/src/internal-job-caller.ts:48-61 | one more poll adds its time to the attempts if one is due since the last, and nothing else |
| `JobThrottle.PollIsAttemptedExactlyWhen` | apps/worker/src/internal-job-caller.ts:43-61 | the first poll is attempted, and any other exactly if it comes at least the interval after the last attempt |
| `JobThrottle.InternalJobCaller.RunOnce` | apps/worker/src/internal-job-caller.ts:48-107 | the time is put down before the call, whatever comes of it; the attempts made are those of the polls so far |
| `JobThrottle.EveryJobUpToTheStop` | apps/worker/src/runner.ts:66-88 | a job is given its turn exactly if no stop was asked for before it; throwing makes no difference |
| `JobThrottle.TurnIsCounted` | apps/worker/src/runner.ts:66-88 | what a job has processed is added up, and one that threw is one failure more |
| `JobThrottle.WorkerRunner.RunRound` | apps/worker/src/runner.ts:66-88 | the counters are those of the turns given |
| `JobThrottle.WorkerRunner.RunForever` | apps/worker/src/runner.ts:90-112 | no round begins after the one in which, or in the sleep after which, a stop was asked for, and all before it do |

## Left out

- ClaimProtocol.SuccessIsTheClaimers: the status answered is the one that was read, and the claimer is exact from then
  on; a refund between the read and the answer may already have revoked the entitlement, as in the original.
- AdapterCache.BuiltOnceEach: for up to six fingerprints, as the source reckons; with more, adapters are built again.
- Hmac.MemoriesAnswerAlike: for key ids without spaces, because the memory in the process joins id and nonce with one;
  without that, `Hmac.MemoriesAgreeExactlyWhenNotConfused` says when the two memories part.
- RateLimiter.AnswersAlikeExactlyWhenNothingForgotten: for limits of at least one, as the environment schema demands.
- ClaimAnswers.RepliesAreTrue: for keys whose holders do not outlive them, and a clock of arrivals that does not go back.
- Hashing, HMAC, AES-GCM, JWT and JSON text: a digest, a payload hash, a signature and a token's hash are
  values or parameters. Where a result needs different inputs to give different hashes it says so.
- HTTP, dependency wiring, the database driver, the payment provider, mail, object storage and identity
  clients, environment loading and process start: their answers are parameters or events.
- The web application, the interface components and the request schemas.
- Transactions are atomic steps; isolation levels and lock waits below that are not modelled.
- Times are integers (milliseconds); an invalid date, which the envelope refuses, has no counterpart.
- A signed timestamp is an exact integer; beyond 2^53 milliseconds the original rounds, far outside the tolerance.
- Characters are Unicode code points and letters change case within ASCII only; the original counts UTF-16
  units and also lower-cases other letters.
- Redact: an own key named `__proto__`, cycles, and values that are neither plain objects, arrays, dates nor errors.
- Claim confirmation: `normalizeKey` and the audit entries, except where a failed audit entry decides an outcome.
- Automatic delivery: the order of the query for deliverable entitlements; the rows it answered are given.
- Revocation: at most one granted event per entitlement is taken from the claim protocol, where it is proved;
  operations reviews are a set of subject and reason; listing texts and `parseLimit` are not modelled.
- Refunds: amounts, order states and mint jobs; one event revokes one entitlement of an order.
- Payments made under the emergency override carry no generation; which key refunds them is not claimed.
- Payment credentials: the number a newly registered generation gets.
- Payment gateway: which generations are tried for a notice, and in which order, is given from outside.
- Artwork deletion: the domain's conditions for deleting are a parameter; the results hold for any answer.
- Creator catalogue: the domain's transitions are any change of the contents; `listMyArtworks` and the read-only calls.
- Job throttle: the internal call itself and its timeout; `runForever` is followed for a given list of rounds.
