# Entity developer dashboard: a verified model of its credit, onboarding and session protocols

The dashboard service sells credit to applications, meters what they use, and keeps several stores in step while
doing so: credit plans and an outbox in MongoDB, a time-series ledger, Redis, two command queues, and allowances on
a blockchain. Deliveries are at least once, workers crash, calls are lost or take effect and report failure. This
project models those parts and proves what they keep in every interleaving.

**Committed credit** (`CreditPlans`, `CommitStore`, `CommitProtocol`, `CommitRecovery`, `CommitConfluence`,
`CommitLateAppend`). A committed event charges one wallet of one plan. One transaction inserts an outbox record and
debits the plan; a leased write then appends the event to a ledger that has no unique index. `CommitProtocol` is a
state machine with any number of workers, one atomic step for each repository call, and steps for redelivery, crashes at any
point, errors with and without effect, the clock, the plan life cycle and other events. Proved of all runs:
conservation, lease exclusion, agreement of outbox and ledger, recovery by one redelivery, and confluence with the
exactly-once outcome. `CommitLateAppend` proves the exact bound under which the ledger has no repetitions: appends
take effect in less than a lease after the claim.

**The code against the machine** (`CreditRepository`, `CreditEventStore`, `CreditService`). The repository and the
services are written as classes whose methods update plans, outbox, ledger, queue and chain in place. The
repository methods are proved against the atomic steps; the service methods, call after call, against the
undisturbed run of the same worker or caller in the machine.

**Plan life cycle** (`CreditCommands`, `PlanLifecycle`, `PlanLifecycleResults`, `CavachExpiry`, `PlanExhaustion`). `activateCredit`
and `grantCredit` read a document, wait for the chain, and write and publish from what they have read, while commits,
expiries, granted events and other calls change it. An activation never undoes a charge, an SSI wallet is always
granted with the same command, commands say what the plan says and have one id exactly for one
wallet, an expired or used-up plan is never granted by an activation, a reference id names at most one plan, grants of a CAVACH plan carry its stored expiry
exactly as long as no request inserts into an undated plan, and a plan exhausted by a commit stays inactive exactly as
long as no granted event arrives.

**Replacement** (`CriticalBalanceQueue`, `PlanReplacement`). Jobs that replace an exhausted plan run one at a time and in order
for each application, through a map of promise tails. Composed with the two reads of the selection and with
activation, no plan is chosen again after a job has activated it.

**Chain allowance** (`Decimal`, `ChainAllowance`, `AllowanceRuns`, `TopUpAccounting`). A top-up reads the grants,
and later revokes exactly what it has read and grants the remainder plus the new amount, in one all-or-nothing
transaction. `AllowanceRuns` lets spends and other top-ups happen between any two calls: the limit is what was granted
minus what was spent if and only if every transaction finds the remainder it was composed for. `TopUpAccounting`
compares, over runs of the plan life cycle, what the chain has granted with what the plans record.

**Identifiers and settlement** (`CreditWallet`, `Settlement`). Wallet ids and command ids are injective and can be decoded;
a redelivered transaction result publishes one terminal command for each reservation.

**Onboarding** (`Onboarding`, `OnboardingRuns`). A resumable list of steps, whose resume index is computed in one list
and used in another. That is right in every state that runs can reach, and wrong in exactly one family of states
that they cannot.

**Tenant sessions** (`TenantSessions`, `TenantLookups`). A Redis index with a backfill flag has to agree with a scan of
all sessions. It does, exactly as long as no index key of a tenant with live sessions expires, no writer puts an
outdated tenant back, and no lookup removes ids as stale that have become live since it read them.

Where the code falls short of what one might expect of it, the model keeps the code and states the exact condition:

- `PlanExhaustion.OnlyGrantedRevives`: a `credit.granted` event tests only the status, so it revives an exhausted plan.
- `CommitLateAppend.HoldsOnceIffDelayBelowLease`: the ledger holds each committed event once in every run whose
  appends take effect within d of their claim if and only if d is less than the lease; one append at the lease itself
  can write any event twice (`LateAppendDuplicates`).
- `AllowanceRuns.ConservedIffRemaindersCurrent`: what a wallet spends between query and broadcast is granted again
  (`SpendIsGrantedAgain`: of 100, 40 are spent, and a top-up of 50 makes it 150).
- `TopUpAccounting.RecordedIffNothingWasted`: a top-up whose caller is abandoned before its write, or whose write
  finds an allowance already recorded, stays on chain unrecorded (`AbandonedTopUpIsWasted`, `SecondTopUpIsWasted`).
- `PlanLifecycleResults.SameGrantTimeIff`: without a creation time, grants of a plan published at different times tell
  different times (`UndatedGrantsDiffer`).
- `CavachExpiry.StoredIffNoneMeetsUndated`: a grant request whose insert finds an agreeing CAVACH plan without an expiry
  publishes a date that nobody has stored (`UndatedPlanIsPublished`).
- `Settlement.AckableIffNoBlankItem`: an item that is blank after trimming passes the envelope check but makes its
  message be requeued for ever.
- `OnboardingRuns.ResumeIsExactIff`: without KYB, the slice is wrong when everything but COMPLETED is done.
- `TenantSessions.ExactIffHarmless`: an expired index key, or a session rewritten with an outdated tenant, hides
  sessions, and they stay hidden until they switch again (`HiddenUntilSwitched`).
- `TenantLookups.CompleteIffAllSpare`: so does a lookup that removes ids as stale which have come back since
  (`LookupHidesReturningSession`).

The playbook `CREDIT_CENTRALIZATION_IMPLEMENTATION_PLAYBOOK.md` describes another design; the model follows the code.

## Model

| member | source | states |
|---|---|---|
| CreditWallet.DashboardPlanIdInvertsSdkPlanId | src/credits/credit-wallet.ts:11-53 | decoding an encoded plan id gives the plan id back, with the credit type given, empty or inferred, for every service |
| CreditWallet.SdkPlanIdInvertsDashboardPlanId | src/credits/credit-wallet.ts:31-53 | for SSI, exactly the ids that encoding produces (with a matching credit type) are accepted, and re-encoding restores them; other services keep every id as it is |
| CreditWallet.SdkPlanIdInjective | src/credits/credit-wallet.ts:11-19 | within a service, equal middleware ids mean equal plans, and for SSI equal wallets |
| CreditWallet.SuffixesExclusive | src/credits/credit-wallet.ts:37-39 | no id ends with both suffixes, so inferring the credit type is unambiguous |
| CreditWallet.GrantCommandIdInjective | src/credits/services/credit-command.service.ts:87-97 | grant command ids identify service, plan and (for SSI) wallet across the two metered services |
| CreditWallet.SettleCommandIdInjective | src/credits/services/credit-command.service.ts:149-157 | settle command ids identify the reservation and the terminal command |
| CreditPlans.DebitChargesOneWallet | src/credits/repositories/credit.repository.ts:119-171 | a debit moves one counter by its amount, no total, and stays within the wallet |
| CreditPlans.FitsIff | src/credits/repositories/credit.repository.ts:142-164 | a debit fits if and only if the plan is the application's and of the service, the wallet exists, and what is used plus the amount is within its total |
| CreditPlans.DebitExhausts | src/credits/repositories/credit.repository.ts:119-171 | a debit writes the charged counter and the status only; it makes an SSI plan INACTIVE if and only if both wallets are then full, and any other plan if and only if the charged wallet is |
| CreditPlans.ActivationRespectsLatestDocument | src/credits/repositories/credit.repository.ts:197-282 | an activation write with any arguments charges and refunds nothing, keeps an allowance and scopes already set, and ends ACTIVE exactly when the latest document is unexpired with room in both wallets |
| CreditPlans.UpdateKeepsUsage | src/credits/repositories/credit.repository.ts:86-95 | no update other than a debit moves a used counter or breaks 0 <= used <= total |
| CommitStore.SupersededTokenChangesNothing | src/credits/repositories/credit.repository.ts:331-374 | marking or releasing with a token that is not the current one has no effect |
| CommitStore.ClaimThenReleaseReopens | src/credits/repositories/credit.repository.ts:292-374 | a claimed record cannot be claimed until its deadline, can at its deadline, and can at once after a release |
| CommitProtocol.NextInv | src/credits/services/credit-event-store.service.ts:131-217 | every step of every worker, crash, error, tick and life-cycle change keeps the protocol invariant |
| CommitProtocol.EffectKeepsOthers | src/credits/services/credit-event-store.service.ts:172-217 | no call of one worker invalidates what another relies on, in particular a lease that is still running |
| CommitProtocol.ClaimKeepsLease | src/credits/repositories/credit.repository.ts:292-329 | a claim never takes a record away from a worker whose lease on it is still running |
| CommitProtocol.Conservation | src/credits/repositories/credit.repository.ts:142-188 | in every reachable state each used counter is the initial one plus the amounts of that wallet's outbox records, and within the wallet |
| CommitProtocol.AtMostOneLeaseHolder | src/credits/repositories/credit.repository.ts:292-374 | of two workers holding leases on one event at most one has the current token, and never are both leases unexpired |
| CommitProtocol.OutboxLedgerAgreement | src/credits/services/credit-event-store.service.ts:172-204 | in every reachable state: WRITTEN implies in the ledger, a committed ledger entry has its outbox record, a token is present exactly while WRITING, and WRITING without a deadline does not occur |
| CommitProtocol.WrittenIsFinal | src/credits/repositories/credit.repository.ts:331-374 | WRITTEN is never left; outbox records and ledger entries are never removed |
| CommitProtocol.LedgerHoldsEventOnce | src/credits/schemas/credit-ledger.schema.ts:84-87 | without a unique index, runs whose appends take effect in less than a lease after their claims hold each committed event at most once |
| CommitLateAppend.LateAppendDuplicates | src/credits/services/credit-event-store.service.ts:192-199 | for every event that fits its plan, a run of timely appends only leads to a state in which one append, taking effect just when its lease ends, writes the event a second time; the debit is still applied once |
| CommitLateAppend.HoldsOnceIffDelayBelowLease | src/credits/services/credit-event-store.service.ts:172-217 | every run whose appends take effect within d of their claim holds each committed event once in the ledger if and only if d is less than the lease |
| CommitRecovery.Recovery | src/credits/services/credit-event-store.service.ts:63-217 | from any reachable state a fault-free redelivery completes if and only if the event is in the ledger, is claimable or still fits; then it is in the ledger, WRITTEN, and charged once over the whole history; otherwise nothing changes |
| CommitRecovery.RunAloneReachable | src/credits/services/credit-event-store.service.ts:131-217 | an undisturbed run is one of the machine's runs |
| CommitConfluence.Confluence | src/credits/services/credit-event-store.service.ts:63-217 | if the sums fit, every delivery history of commits that completes each event ends with the plans of applying each event once in any order; outbox ids and committed ledger ids are exactly the events |
| CommitConfluence.CountersConverge | src/credits/services/credit-event-store.service.ts:63-217 | whatever else happens to the plans and whether or not the sums fit, once each event has completed every counter is the initial one plus all its events, and outbox ids and committed ledger ids are exactly the events |
| CommitConfluence.NeverRejected | src/credits/repositories/credit.repository.ts:142-188 | in such a history no delivery is turned away for lack of balance |
| CommitConfluence.ApplyOnceSettles | src/credits/repositories/credit.repository.ts:119-171 | applying events once gives counters and a status that depend only on the set of events |
| CreditRepository.CreditRepository.ApplyPlanCreditCommit | src/credits/repositories/credit.repository.ts:97-188 | the transaction inserts a PENDING record and debits, or does neither: applied exactly when the event is new and the wallet of that application and service has room, a duplicate exactly when the event is on record; the new counter, and when the plan becomes INACTIVE, in the fields of the document |
| CreditRepository.CreditRepository.ClaimCommitLedgerWrite | src/credits/repositories/credit.repository.ts:292-329 | a token is returned exactly when the record was PENDING, or WRITING with a deadline that is missing or has come; the record is then WRITING with that token, for 30 seconds, at one more attempt |
| CreditRepository.CreditRepository.MarkCommitLedgerWritten | src/credits/repositories/credit.repository.ts:331-354 | the record becomes WRITTEN without token and deadline, if no token is given or the record carries it |
| CreditRepository.CreditRepository.ReleaseCommitLedgerWrite | src/credits/repositories/credit.repository.ts:356-374 | the record becomes PENDING without token and deadline, if it carries the token |
| CreditRepository.CreditRepository.FindOneAndUpdate | src/credits/repositories/credit.repository.ts:86-95 | the document changes exactly when id, application and the filter of the update match, in exactly the fields that the update names, and the new version is returned |
| CreditRepository.CreditRepository.FindParticularCreditDetail | src/credits/repositories/credit.repository.ts:58-63 | finds a plan exactly when there is one of the application with the id, with the reference id, or INACTIVE without any expiry |
| CreditRepository.CreditRepository.ActivateSsiCreditPlan | src/credits/repositories/credit.repository.ts:197-282 | the two-stage update equals the atomic activation of the latest document: an allowance and scopes are set only where there are none, and it is ACTIVE exactly when unexpired with room in both wallets |
| CreditRepository.CreditRepository.Create | src/credits/repositories/credit.repository.ts:33-45 | an upsert on service and reference id: an existing plan is returned unchanged, otherwise the plan is inserted |
| CreditRepository.CreditRepository.FindActiveCreditForService | src/credits/repositories/credit.repository.ts:65-84 | returns a plan exactly when the application has one, other than the excluded one, that is ACTIVE and unexpired with API credits left |
| CommitRecovery.LeasedRun | src/credits/services/credit-event-store.service.ts:192-204 | an undisturbed run from a won claim appends the event if it is missing and ends WRITTEN |
| CommitRecovery.PersistRun | src/credits/services/credit-event-store.service.ts:172-217 | where a worker's undisturbed run from the ledger write on ends, and that it completes exactly when the event is in the ledger or claimable |
| CommitRecovery.CommitRun | src/credits/services/credit-event-store.service.ts:131-165 | where an undisturbed run from the debit on ends: it goes on to the ledger write exactly after an applied debit or a duplicate of the same application |
| CommitRecovery.FailedWriteReopens | src/credits/services/credit-event-store.service.ts:191-217 | an error in the guarded calls is followed by the release: a record that the worker still holds is PENDING and can be claimed at once, and one that it has lost is left alone |
| CommitRecovery.OtherErrorsEndDelivery | src/credits/services/credit-event-store.service.ts:131-190 | an error in any other call ends the delivery, with or without the effect of that call, and does not count as done |
| CreditEventStore.CreditEventStore.PersistCommitLedger | src/credits/services/credit-event-store.service.ts:172-217 | succeeds if and only if the event is in the ledger or its record can be claimed; then it is in the ledger, appended only if it was missing, and WRITTEN, and nothing else has changed; otherwise nothing has |
| CreditEventStore.CreditEventStore.ProcessCommit | src/credits/services/credit-event-store.service.ts:131-165 | succeeds if and only if the event is new and fits, or is on record for the application and can be written now; the plan is debited only if it is new; a failure changes nothing; and all as the machine's undisturbed run from the debit on |
| CreditEventStore.CreditEventStore.ProcessCommittedEvent | src/credits/services/credit-event-store.service.ts:63-80 | the same for a whole delivery: an event in the ledger is only marked, an undecodable plan id changes nothing, and otherwise the commit of the decoded plan is processed, as in the machine's undisturbed run |
| CreditEventStore.CreditEventStore.ProcessStatusEvent | src/credits/services/credit-event-store.service.ts:67-129 | an expiry event makes the decoded plan INACTIVE, a granted event makes an INACTIVE one ACTIVE with its expiry; other plans and fields stay; the event is logged, and once it is it changes nothing more |
| CreditCommands.GrantCreditPlan | src/credits/services/credit-command.service.ts:30-133 | enqueues one command for each wallet, the API wallet first, each conveying the document (`Conveys`), as far as the queue takes them; succeeds if and only if the document can be granted (`Grantable`) and the queue takes all; a document that cannot is rejected with the first failing check and no command |
| CreditCommands.GrantableIff | src/credits/services/credit-command.service.ts:35-84 | the checks let a document pass if and only if it is ACTIVE, of a metered service, with an id, credits left, a valid critical balance, a reference id, a creation time before a safe expiry, and for SSI an allowance with room |
| CreditCommands.CommandsConvey | src/credits/services/credit-command.service.ts:86-125 | for SSI two commands with the totals of the wallets, for CAVACH one with the remainder, each with the ids, reference id, critical balance and dates of the document |
| CreditCommands.ConveyedWallet | src/credits/services/credit-command.service.ts:87-97 | the middleware plan id of a command decodes to its plan, with or without the credit type |
| CreditCommands.CommandIdIff | src/credits/services/credit-command.service.ts:97 | two commands of any documents have one command id if and only if they agree in service, plan and, for SSI, credit type |
| CreditCommands.FourTenths | src/credits/services/credits.service.ts:565 | four tenths rounded down |
| CreditCommands.ResolveCriticalBalance | src/credits/services/credits.service.ts:745-753 | the stored critical balance if it is a non-negative safe integer, and otherwise four tenths of the total |
| CreditCommands.TrimStrips | src/credits/services/credit-command.service.ts:70 | trimming removes exactly the white space at both ends |
| PlanLifecycle.DebitEvolves | src/credits/repositories/credit.repository.ts:142-175 | a debit keeps everything that identifies a plan and its grants, and only raises counters |
| PlanLifecycle.UpdateEvolves | src/credits/repositories/credit.repository.ts:190-282 | so does every update, provided a written critical balance is the resolved one |
| PlanLifecycle.ActivationCallGood | src/credits/services/credits.service.ts:80-216 | every call of an activation, whatever happened since its read, leaves evolved plans and a caller whose document has evolved into the current one |
| PlanLifecycle.GrantCallGood | src/credits/services/credits.service.ts:537-701 | every call of a grant request keeps plans sound and reference ids unique, and accepts only requests that agree with the plan |
| PlanLifecycle.PublishOk | src/credits/services/credit-command.service.ts:84-133 | whatever prefix is published, each command conveys a document that could be granted and from which the plan has come |
| PlanLifecycle.SsiOnChainAllowance | src/credits/services/credits.service.ts:494-507 | 2000 uhid for each credit, for a positive number of credits whose allowance is a safe integer, and nothing otherwise |
| PlanLifecycle.NextInv | src/credits/services/credits.service.ts:80-216 | every step keeps the life-cycle invariant |
| PlanLifecycleResults.ActivationRace | src/credits/services/credits.service.ts:161-216 | after any interleaving, the late write keeps both counters, an allowance and scopes set meanwhile, and is ACTIVE exactly when the latest document is unexpired with room in both wallets |
| PlanLifecycleResults.PublishedGrantsTell | src/credits/services/credit-command.service.ts:84-125 | every command ever published decodes to its plan and grants, in the fields of the plan as it is now, an SSI wallet its total or a CAVACH plan the remainder of the published document, which is at least what is left; with the plan's application, reference id and critical balance, and the document's expiry |
| PlanLifecycleResults.PublicationEnqueues | src/credits/services/credit-command.service.ts:84-133 | a publication of the machine enqueues what the code enqueues into a queue with that much room, and succeeds exactly when the code does |
| PlanLifecycleResults.PublishedIdIff | src/credits/services/credit-command.service.ts:87-97 | two commands ever published have one command id if and only if they agree in service, plan and, for SSI, credit type |
| PlanLifecycleResults.SsiGrantsImmutable | src/credits/services/credit-command.service.ts:73-132 | any two commands ever published for one SSI wallet are equal but for the expiry, and for the time of the grant if the plan has no creation time |
| PlanLifecycleResults.SameGrantTimeIff | src/credits/services/credit-command.service.ts:73-79 | two grants of a plan published in a run tell the same time if and only if the plan has a creation time or they were published at the same time |
| PlanLifecycleResults.UndatedGrantsDiffer | src/credits/services/credit-command.service.ts:73-79 | a run in which a plan without a creation time is granted with two different times |
| PlanLifecycleResults.HalfPublishedPairConverges | src/credits/services/credit-command.service.ts:86-132 | after one complete publication the plan has been granted both its wallets, and every SSI grant ever published for it repeats one of these two commands, however many attempts broke off in between |
| PlanLifecycleResults.ReferenceIdempotence | src/credits/services/credits.service.ts:573-613 | every accepted request agrees with the one plan that has its service and reference id |
| PlanLifecycleResults.RepeatedReference | src/credits/services/credits.service.ts:573-674 | a request that meets an existing plan is accepted if and only if it agrees, and changes no plan |
| PlanLifecycleResults.ReadsActivatableOnly | src/credits/services/credits.service.ts:88-117 | whatever has happened since it began, an activation goes on from its read if and only if the service is supported and the plan is there, the application's, unexpired and not used up; then it holds that document |
| PlanLifecycleResults.EndedForGood | src/credits/services/credits.service.ts:80-216 | over any run, a caller that has ended makes no call and publishes nothing any more |
| PlanLifecycleResults.UnfitActivationEnds | src/credits/services/credits.service.ts:88-104 | an activation that reads an expired or used-up plan, or none of its application, changes nothing and never tops up, writes or publishes in any run |
| PlanLifecycleResults.SuccessfulActivationSetsExpiry | src/credits/services/credits.service.ts:130-160 | a plan whose activation succeeded has an expiry from then on |
| CavachExpiry.CavachActivationsPublishStoredExpiry | src/credits/services/credits.service.ts:135-160 | if the middleware echoes expiries, all activations of a CAVACH plan publish the one stored expiry |
| CavachExpiry.StoredIffNoneMeetsUndated | src/credits/services/credits.service.ts:651-692 | with an echoing middleware, whoever is about to publish for a CAVACH plan, activation or grant request, holds the stored expiry throughout a run if and only if no request that is to activate finds an agreeing plan without an expiry at its insert |
| CavachExpiry.GrantsPublishStoredExpiry | src/credits/services/credits.service.ts:573-692 | under that condition every grant ever published for a CAVACH plan, by whomever, carries the stored expiry |
| CavachExpiry.UndatedPlanIsPublished | src/credits/services/credits.service.ts:651-692 | a run of two requests with one reference id in which the published expiry is stored nowhere |
| PlanExhaustion.ExhaustionIsStable | src/credits/repositories/credit.repository.ts:119-171 | an exhausting commit leaves a plan INACTIVE through every later run without granted events, and its wallets refuse every further commit |
| PlanExhaustion.OnlyGrantedRevives | src/credits/services/credit-event-store.service.ts:226-235 | an exhausted plan stays INACTIVE throughout a run if and only if the run has no granted event |
| PlanExhaustion.GrantedRevivesExhaustedPlan | src/credits/services/credit-event-store.service.ts:226-235 | a concrete exhausted plan that a granted event makes ACTIVE |
| CriticalBalanceQueue.Tails.Enter | src/credits/services/credit-lifecycle-consumer.service.ts:120-124 | returns the promise to wait for and becomes the application's latest |
| CriticalBalanceQueue.Tails.Leave | src/credits/services/credit-lifecycle-consumer.service.ts:127-131 | removes the entry only if it is still this job's |
| CriticalBalanceQueue.NextInv | src/credits/services/credit-lifecycle-consumer.service.ts:111-132 | arrivals, starts, settlements and clean-ups in any order keep chain, order and map in step |
| CriticalBalanceQueue.NoOverlapInOrder | src/credits/services/credit-lifecycle-consumer.service.ts:120-124 | jobs of one application never overlap and start in arrival order |
| CriticalBalanceQueue.EntryIsLatestArrival | src/credits/services/credit-lifecycle-consumer.service.ts:120-131 | while a job is unfinished, the entry of its application is the latest arrival |
| CriticalBalanceQueue.NoEntryLeftBehind | src/credits/services/credit-lifecycle-consumer.service.ts:127-131 | once all its jobs have cleaned up, an application has no entry |
| CriticalBalanceQueue.SomeJobCanMove | src/credits/services/credit-lifecycle-consumer.service.ts:121-123 | with an unfinished job, some job of that application runs or may start, however earlier ones ended |
| PlanReplacement.ReplacementIsUnique | src/credits/services/credit-event-store.service.ts:237-252 | two critical-balance jobs of one application never activate the same plan, nor does a later one choose an activated plan |
| PlanReplacement.SelectInv | src/credits/services/credit-event-store.service.ts:237-252 | selecting under the serializer never repeats a successfully activated plan, whatever has happened since the first read |
| CreditService.OneCallProgresses | src/credits/services/credits.service.ts:80-216 | every call of an activation or grant request moves it forward, so an undisturbed one ends |
| CreditService.CreditService.ActivateCredit | src/credits/services/credits.service.ts:80-216 | a plan that is absent, another application's, expired or used up, or an unsupported service, is refused without any effect; otherwise plans, chain and queue end as `ActivatesDocument` says of the document, success included; and as the machine's undisturbed activation ends |
| CreditService.CreditService.ActivateRead | src/credits/services/credits.service.ts:130-216 | from the document read on: a CAVACH plan gets an expiry if it has none and is granted with it; an SSI plan is topped up if it has no allowance, written and, if that leaves it ACTIVE, granted |
| CreditService.EndAfterRead | src/credits/services/credits.service.ts:80-129 | alone, an activation goes on with the normalised document or fails |
| CreditService.CreditService.SettleExpiry | src/credits/services/credits.service.ts:130-160 | the expiry of the document if there is one, else the proposed date; for CAVACH that is stored first, and one that has been stored meanwhile is used instead |
| CreditService.CreditService.TopUpChain | src/credits/services/credits.service.ts:161-181 | the wallet gets 2000 uhid for each credit on top of what was left, if that is a safe integer and the existing allowance a finite one or none; otherwise nothing changes |
| CreditService.CreditService.ReadForActivation | src/credits/services/credits.service.ts:80-129 | returns the document if and only if it is the application's, unexpired, not used up and of a supported service, with its critical balance normalised and stored; a failure changes nothing |
| CreditService.CreditService.ActivateSsi | src/credits/services/credits.service.ts:161-216 | a usable allowance is kept and an unusable one refused; without one the chain is topped up by the remaining credits or the activation fails; then the plan is written and granted |
| CreditService.CreditService.WriteActivated | src/credits/services/credits.service.ts:192-216 | the latest document is written in place, and granted if and only if the write left it ACTIVE |
| CreditService.CreditService.SendGrant | src/credits/services/credits.service.ts:183-190 | the commands of the document reach the queue up to its capacity, each conveying it, and success means that all of them did |
| CreditService.CreditService.GrantCredit | src/credits/services/credits.service.ts:537-701 | an invalid period or total or an unknown application changes nothing; a reference id in use ends as `GrantsAgain`, a new one as `GrantsNew` says; and as the machine's undisturbed grant request ends |
| CreditService.ValidityDays | src/credits/services/credits.service.ts:703-731 | positive periods in days, months of 30.4375 and years of 365.25 days, rounded up to days; any other unit or period is refused |
| CreditService.CreditService.GrantAgain | src/credits/services/credits.service.ts:573-613 | a repeated reference id changes no plan: the request is refused unless total, critical balance, validity and source agree, an unfinished grant is sent again as the plan tells it, and a finished one is accepted |
| CreditService.CreditService.GrantNew | src/credits/services/credits.service.ts:615-701 | with a usable ACTIVE plan the new plan is only stored; otherwise it is stored with the proposed expiry and granted, an SSI plan after a top-up for its total, without which nothing happens |
| CreditService.CreditService.CreateGranted | src/credits/services/credits.service.ts:651-695 | the document of a new plan field by field, and that it is granted exactly if it is to be activated |
| CreditService.CreditService.ProcessCriticalBalance | src/credits/services/credit-event-store.service.ts:237-252 | a replacement is chosen if and only if no other plan of the application is ACTIVE and unexpired with credits left and there is an INACTIVE one without any expiry; it is activated as `ActivateCredit` activates it |
| Decimal.ParseInvertsToString | src/credits/services/credits.service.ts:487-492 | every amount survives being written as a string and parsed |
| Decimal.ToStringInvertsParse | src/credits/services/credits.service.ts:487-492 | every accepted string is the one spelling of its amount |
| Decimal.CoinRoundTrip | src/utils/authz/index.ts:96-97 | splitting an `<amount>uhid` coin gives the amount back |
| ChainAllowance.RolloverOutcome | src/credits/services/credits.service.ts:266-344 | the messages composed for a queried state succeed on the actual state if and only if the queried grants are still there, the fee grant exists now as then and the amount is positive; then exactly the six grants and the new allowance exist |
| ChainAllowance.RevokesOutcome | src/credits/services/credits.service.ts:297-308 | revoking distinct grants succeeds if and only if all of them are there, and removes exactly these |
| ChainAllowance.GrantsOutcome | src/credits/services/credits.service.ts:319-328 | granting never fails and adds exactly the listed grants |
| ChainAllowance.Chain.SignAndBroadcast | src/credits/services/credits.service.ts:339-344 | all messages take effect or none |
| ChainAllowance.GrantSsiAllowance | src/credits/services/credits.service.ts:218-388 | succeeds if and only if the existing allowance is a finite one or none, the amount parses and the sum is positive and safe; then the limit is the remainder plus the new amount and the credit returned is the new amount alone; a failure changes nothing |
| ChainAllowance.ConservesIffRemainderUnchanged | src/credits/services/credits.service.ts:283-289 | one broadcast conserves credit if and only if the remainder at broadcast is the one that was queried |
| AllowanceRuns.NextBalance | src/credits/services/credits.service.ts:265-346 | one call changes opening balance plus granted minus spent exactly by what a transaction rolls over in excess of the actual remainder |
| AllowanceRuns.LimitAfterRun | src/credits/services/credits.service.ts:265-346 | over any interleaving of queries, transactions and spends, the limit is opening plus granted minus spent plus the total excess, and a safe integer |
| AllowanceRuns.ConservedIffRemaindersCurrent | src/credits/services/credits.service.ts:265-346 | the limit stays at opening plus granted minus spent throughout a run if and only if every transaction that takes effect finds the remainder it was composed for |
| AllowanceRuns.SpendIsGrantedAgain | src/credits/services/credits.service.ts:265-346 | what a wallet spends between query and broadcast is part of the new limit again |
| AllowanceRuns.SpendIsGrantedAgainExample | src/credits/services/credits.service.ts:265-346 | of 100, the wallet spends 40, and a top-up of 50 leaves 150 |
| AllowanceRuns.QueriesRead | src/credits/services/credits.service.ts:265-283 | with nothing in between, the queries read the grants as they are |
| AllowanceRuns.LimitIsGrantedMinusSpent | src/credits/services/credits.service.ts:218-376 | over any run of undisturbed top-ups, failed or not, and spends nothing is lost or granted twice |
| TopUpAccounting.StepAccounted | src/credits/services/credits.service.ts:161-216 | in every step of the life cycle, what the chain grants is what plans record more, callers hold more, and is wasted |
| TopUpAccounting.TopUpsAccounted | src/credits/services/credits.service.ts:161-216 | over any run, the amount granted on chain is what plans record more than before plus what callers hold plus what was wasted, which is never negative |
| TopUpAccounting.RecordedIffNothingWasted | src/credits/services/credits.service.ts:161-216 | with no caller in between, the plans record what the chain granted if and only if every write found no allowance recorded and no caller was abandoned after its top-up |
| TopUpAccounting.AbandonedTopUpIsWasted | src/credits/services/credits.service.ts:161-203 | a run of one activation, abandoned after its top-up, after which the chain has granted an amount that no plan records |
| TopUpAccounting.SecondTopUpIsWasted | src/credits/services/credits.service.ts:161-203 | a run of two first activations of one plan in which the chain grants twice what the plan records |
| ChainAllowance.TransactionFee | src/credits/services/credits.service.ts:530-536 | a first grant costs one fee unit, a replacement two |
| Settlement.ParseResult | src/credits/services/ssi-transaction-result.consumer.ts:148-173 | a result is accepted exactly when its envelope and all its items are valid |
| Settlement.SettlesIff | src/credits/services/ssi-transaction-result.consumer.ts:148-173 | which results lead to commands, and with which items, in the fields of the message |
| Settlement.SettleSsiTransaction | src/credits/services/credit-command.service.ts:135-187 | one command for the trimmed reservation, a commit after a success and a rollback after a failure, or an error and no command |
| Settlement.TerminalFor | src/credits/services/credit-command.service.ts:149-174 | a success commits, a failure rolls back with its trimmed reason, or with the default if there is none but blanks |
| Settlement.SettleAll | src/credits/services/ssi-transaction-result.consumer.ts:121-135 | the commands of the longest prefix that can be settled and fits the queue are published, in order |
| Settlement.Consume | src/credits/services/ssi-transaction-result.consumer.ts:101-146 | invalid and UNKNOWN results are acknowledged and publish nothing; others publish commands for a prefix of their items, all commits for SUCCEEDED and all rollbacks for FAILED, with the first reason given, trimmed, or the default; acknowledged only if that is the whole |
| Settlement.AddedAreReservations | src/credits/services/ssi-transaction-result.consumer.ts:115-146 | deliveries never add a command for anything but one of the trimmed reservations, and each commits or rolls back as the status and reasons of the result say, whatever else is in the queue |
| Settlement.SettledExactlyOnce | src/credits/services/ssi-transaction-result.consumer.ts:101-146 | over any number of deliveries as `Consume` makes them, one of them acknowledged, with arbitrary other commands between and around theirs, the ids they add are those of the distinct trimmed reservations, all commits if the status is SUCCEEDED and all rollbacks otherwise |
| Settlement.OneCommandPerReservation | src/credits/services/credit-command.service.ts:149-157 | items share a command id exactly if they share the trimmed reservation, and the opposite command never occurs |
| Settlement.AckableIffNoBlankItem | src/credits/services/ssi-transaction-result.consumer.ts:115-146 | a result can ever be acknowledged if and only if no item is blank after trimming |
| Settlement.BlankReservationIsRequeuedForever | src/credits/services/ssi-transaction-result.consumer.ts:160-171 | a concrete blank item that is accepted by the envelope check and never acknowledged |
| Onboarding.ApplicableSteps | src/customer-onboarding/services/customer-onboarding.service.ts:496-507 | the applicable steps are all thirteen with KYB, and eleven in the same order without |
| Onboarding.SortByTimeSorts | src/customer-onboarding/services/customer-onboarding.service.ts:1291-1293 | the merge orders entries by time and loses none |
| Onboarding.SortedStaysPut | src/customer-onboarding/services/customer-onboarding.service.ts:1291-1293 | entries already in time order, equal times included, are not moved |
| Onboarding.MergeKeepsLatest | src/customer-onboarding/services/customer-onboarding.service.ts:1285-1294 | a merge holds exactly one entry for each step of either log, the latest new one or else the latest existing one, in time order |
| Onboarding.RunSteps | src/customer-onboarding/services/customer-onboarding.service.ts:515-1220 | the loop logs every step with its time and outcome, up to and including the first failure; the record is then FAILED, APPROVED after COMPLETED, and otherwise as before |
| Onboarding.RunLogsAt | src/customer-onboarding/services/customer-onboarding.service.ts:515-1220 | what the entries of a run are, and that only its last may be a failure |
| Onboarding.RunOutcome | src/customer-onboarding/services/customer-onboarding.service.ts:1181-1233 | a run ends FAILED if and only if one of its steps fails, and APPROVED if none does and the last is COMPLETED |
| Onboarding.LastSuccessIff | src/customer-onboarding/services/customer-onboarding.service.ts:488-494 | the step resumed after is that of the last SUCCESS entry, if there is any |
| Onboarding.CustomerOnboarding.ProcessCustomerOnboarding | src/customer-onboarding/services/customer-onboarding.service.ts:488-1254 | one call moves the record as one run of the model: with steps to do it ends FAILED if one of them fails and APPROVED otherwise, and reports success exactly then; without it changes nothing |
| OnboardingRuns.ResumeIsExactIff | src/customer-onboarding/services/customer-onboarding.service.ts:488-508 | for a log that is a prefix, the slice is the steps not yet done if and only if there is KYB or not exactly COMPLETED is missing |
| OnboardingRuns.WrongResume | src/customer-onboarding/services/customer-onboarding.service.ts:488-511 | in the remaining case the slice is empty although COMPLETED is missing |
| OnboardingRuns.MergeRun | src/customer-onboarding/services/customer-onboarding.service.ts:1285-1294 | merging a run replaces a failed last entry and appends the rest, in order |
| OnboardingRuns.ProcessWellLogged | src/customer-onboarding/services/customer-onboarding.service.ts:1222-1233 | a run keeps the log invariant and never loses a success |
| OnboardingRuns.RunsWellLogged | src/customer-onboarding/services/customer-onboarding.service.ts:488-1233 | over any runs the log invariant holds and the steps that succeeded are the next applicable ones, each once |
| OnboardingRuns.OnboardingInvariant | src/customer-onboarding/services/customer-onboarding.service.ts:488-1233 | after any sequence of runs: the log is a prefix with at most a last failure, resuming is exact, each step succeeded at most once and in order over all runs, and APPROVED means all applicable steps succeeded |
| OnboardingRuns.RemainingNeverGrows | src/customer-onboarding/services/customer-onboarding.service.ts:488-508 | a run never leaves more steps to do than before |
| TenantSessions.KeepFirstIsUnique | src/people/services/people.service.ts:502-507 | the filter keeps one session for each id and loses none |
| TenantSessions.PeopleService.UpdateSession | src/people/services/people.service.ts:385-428 | a switch stores the session with the given tenant and permissions and the time, the rest as the request saw it, and replaces its index entry; no other session, entry or flag changes; and it is the atomic step of the model |
| TenantSessions.SwitchStores | src/people/services/people.service.ts:396-413 | what is stored under the session id after a switch, and that no other session changes |
| TenantSessions.SessionOfLatestSwitch | src/people/services/people.service.ts:396-413 | over any run: as long as no login, refresh or logout writes it, a session has the tenant and the permissions of its latest switch |
| TenantSessions.PeopleService.FindTenantSessionsFromIndex | src/people/services/people.service.ts:517-573 | returns each indexed session that acts for the tenant once, and removes from the tenant's entries exactly those without such a session |
| TenantSessions.PeopleService.ScanTenantSessions | src/people/services/people.service.ts:458-491 | any paging that covers every key, with repeats and keys that are gone, finds exactly the live sessions |
| TenantSessions.PeopleService.FindTenantSessions | src/people/services/people.service.ts:430-515 | without duplicates: the live indexed sessions if the flag is set, all live sessions otherwise, which are then indexed and the flag set |
| TenantSessions.FoundIsLiveIff | src/people/services/people.service.ts:430-515 | only live matching sessions are ever returned, and all of them if and only if the flag is not set or the index misses none |
| TenantSessions.CompleteIffHarmless | src/people/services/people.service.ts:385-428 | switches with any outdated previous tenant, lookups and logouts keep a set flag truthful; a rewrite or an expiring index key do if and only if they are harmless |
| TenantSessions.RunKeepsComplete | src/people/services/people.service.ts:385-573 | over any harmless run every set flag stays truthful |
| TenantSessions.ExactIffHarmless | src/people/services/people.service.ts:385-573 | over any run from a truthful store, a lookup of any tenant at any time is exact if and only if every step is harmless |
| TenantSessions.SwitchMovesEntry | src/people/services/people.service.ts:399-425 | a switch indexes the session under its new tenant and no other session changes; an entry for a tenant it has left stays behind if and only if the request saw another previous tenant |
| TenantSessions.AtomicRewriteIsHarmless | src/social-login/services/social-login.service.ts:321-345 | a writer that keeps the session's tenant, or stores none, is harmless |
| TenantSessions.LookupsAreExact | src/people/services/people.service.ts:430-573 | after any harmless history from any store without flags, index path and scan path agree and return exactly the live sessions |
| TenantSessions.LookupIsIdempotent | src/people/services/people.service.ts:430-515 | a second lookup returns the same and changes nothing |
| TenantSessions.HiddenUntilSwitched | src/people/services/people.service.ts:436-445 | a session missing from the index of a flagged tenant is not found until it switches to that tenant again |
| TenantSessions.ExpiredIndexHidesSession | src/people/services/people.service.ts:422-424 | a run in which the index key expires before a live session, which is then not found |
| TenantSessions.StaleRefreshHidesSession | src/social-login/services/social-login.service.ts:321-345 | a run in which a refresh puts back the tenant it has read before a switch, and the session is not found |
| TenantLookups.CallCompleteIff | src/people/services/people.service.ts:517-565 | one call of a lookup keeps set flags truthful if and only if it does not remove ids that are live by now |
| TenantLookups.CompleteIffAllSpare | src/people/services/people.service.ts:430-573 | with calls of lookups interleaved with everything else, set flags stay truthful throughout a run if and only if every removal finds its ids still stale and every other step is harmless |
| TenantLookups.UndisturbedLookup | src/people/services/people.service.ts:430-573 | the calls of one lookup with nothing in between do what the lookup in one step does |
| TenantLookups.LookupHidesReturningSession | src/people/services/people.service.ts:519-560 | a run in which a session leaves the tenant between the reads of a lookup, comes back before the removal, and is not found |

## Left out

- MongoDB, Redis, BullMQ, RabbitMQ and CosmJS themselves: each call is one atomic step on abstract state, which may be lost or take effect and report failure; transient transaction retries are not modelled.
- Clocks: one clock for all workers; clock skew between pods would appear as an append that outlasts its lease.
- Lease tokens: `randomUUID` gives a fresh token for each claim.
- Envelope validation of lifecycle events (schema version, analytics fields, event types): `Commit.Valid` states what it guarantees to the repository; the RESERVED, ROLLED_BACK, EXPIRED and CREDIT_OBSERVED events, which are only logged, are the `OtherEventStep`.
- Event ids shared by events of different types, and uniqueness of ledger entries of other events than commits, which have no lease.
- Notifications: only the point between debit and ledger write at which they may fail.
- Floating point and calendars: `Math.floor(total * 0.4)` is `2 * total / 5`, which it equals for totals well below 2^53; proposed expiry dates are arbitrary integers; grant periods are left out.
- CreditService.CreditService.GrantCredit: validity periods are whole numbers of days, months or years.
- CreditCommands.GrantCreditPlan: the optional tenant id, the request time and the delivery id of a command are left out; none of them identifies a grant.
- The service configured for an application is the same throughout a run.
- The lifetime of chain grants, and rejections by the chain for other reasons than missing or existing grants.
- Missing counters of old documents are zero.
- CavachExpiry.GrantsPublishStoredExpiry: for a middleware that echoes the expiry it was granted with, because a granted event carries whatever expiry the middleware sends.
- CreditEventStore.CreditEventStore.PersistCommitLedger: a repository call that fails, and the release of the lease after it, are the `ThrowStep` and `Release` of the machine, not branches of this method.
- ChainAllowance.GrantSsiAllowance: a broadcast that takes effect and still reports an error is a step of `AllowanceRuns` and `TopUpAccounting`, not a branch of this method.
- Critical-balance events without an application id, which bypass the serializer and fail validation, and more than one pod, for which the serializer promises nothing.
- PlanReplacement.ReplacementIsUnique: for one pod, because the map of promise tails is per process.
- CommitConfluence.Confluence: for histories in which plans change by commits only, because a plan-expired or granted event also sets the status the exactly-once outcome is compared on; `CountersConverge` covers all histories for counters, outbox and ledger.
- The bodies of onboarding steps, overlapping runs on one record, and a change of the interested services between runs.
- JSON parsing: results and sessions arrive as decoded values, fields of the wrong type as absent.
- TenantSessions.PeopleService.UpdateSession: leaves out the remaining time to live that session and index key are given, because expiry is a step of its own.
- Expiry of single sessions and of the index key is a step that may happen at any time; remaining times to live are not modelled. Session switches and rewrites are atomic, except that a switch may carry an outdated previous tenant and a rewrite an outdated session; of a lookup, the scan with its additions to the index and the setting of the flag is one step.
- TenantSessions.LookupsAreExact: for tenants with a non-empty id, because an empty tenant id is falsy and never indexed.
- Login, one-time passwords, JWT handling, access matrices, application and people administration, controllers, DID and credential plumbing: short branches or calls into other services.
