# AppPort Services: verified model

This project models the concurrent core of AppPort Services in Dafny and proves
what it promises over every interleaving: API keys that never widen, jobs that
run under leases, durable principals that are honoured only with evidence,
deliveries that are attempted and summed up, and configuration that survives an
export and an import.

Every service is a set of calls over one document store (FeltDB). A call is cut at
its awaits into atomic steps; the steps of any number of calls, in any number of
processes, interleave freely. Each machine is written the same way:

- `Do...` functions, one per task and phase, say what one step reads, writes and
  where the call goes on; a call's local variables are its phase.
- `Step` and `Enabled` run one action of anybody; `IsRun` is a history of them.
- An invariant is kept by each `Do...` function, so by `Step`, so by every run.
- What a step comes to is stated a second time, on the stored records alone and
  without the `Do...` functions, in the `...Outcomes` modules: when a call goes on,
  what it then writes, when it ends, and what must have happened before it.
- Where the source is a program (`executeJob`, the key lifecycle, delivery
  attempts, transactions, imports), a class runs the program with its loops and
  local variables, and between two of its steps the rest of the world takes an
  arbitrary list of actions. Each of its writes is checked to be a step of the
  machine, so every theorem about runs is about the program.

What the model assumes: reads and version checks are linearizable; a version only
grows; fresh identifiers are fresh; hashes are injective; one clock never goes
back, and times are natural numbers of milliseconds. The authorizer, channels,
receivers, handlers and endpoints answer anything at all. Crashes may end any call
at any await.

## Files

| files | what they hold |
|---|---|
| Common, FeltDb, Ordering | small value types, the versioned store, sorting by a total order |
| Restrictions, RestrictionInput | key ceilings: what they permit, when one is within another, how they are validated |
| ApiKeys, ApiKeyInvariants, ApiKeyTheorems, ApiKeyOutcomes, ApiKeyService | the key lifecycle as a machine, its invariants and theorems, what each step decides, and its programs |
| Jobs, JobLeases, JobAttempts, JobOutcomes, JobService, JobLimits | the job lease protocol, exclusion, attempt bounds, what lets a handler start and what a run writes, the worker's program, and exactly where its guarantees end |
| Authority, AuthorityTheorems, AuthorityOutcomes, AuthorityService, Transactions | the enforcement point, evidence and attestation, what each effect and item leaves, the gateway's program, and transactions as written |
| Notifications, NotificationTheorems, NotificationOutcomes, NotificationLeases, NotificationLimits, NotificationService, Pagination | notifications, their deliveries, what each step decides, the lease of an attempt and exactly where it ends, their programs, and cursor pages |
| Webhooks, WebhookTheorems, WebhookOutcomes, WebhookLimits, WebhookService, InboundWebhooks | outbound deliveries, what bounds their posts and exactly where, what each step decides, their programs, and inbound events |
| ExportDocument, Transfer, TransferTheorems, TransferConvergence, TransferOutcomes | the export document, the import, what it keeps, and what it leaves in the target |
| ServicesContract, EvidenceReader, Intelligence | the contract closure, the bounded evidence reader, the intelligence binding |

## Findings

Where the code does not meet a property as one would first state it, the model
follows the code, shows a run from the empty state, and proves exactly when the
property holds.

- Two handlers of one job can run at once. A worker held up between its claim and
  its handler can start beside the worker that took the job over
  (`LateStartOverlaps`): for a run that still owns its record, at the instant it is
  about to start, this can happen exactly when its own lease has run out
  (`JobLimits.OverlapExactly`), and any run about to start can be held up until it
  does (`EveryStartMayComeTooLate`). A manual retry lets it happen within both
  leases, from any such state (`RetryMayOverlap`, `ManualRetryOverlaps`).
- A job of one attempt can start two handlers after a manual retry: the worker that
  claimed before the retry starts late (`ManualRetryOverlaps`). Counted by the epoch
  in which a run claimed, no epoch starts more handlers than the job's attempts
  (`StartsBound`), and every start is in such an account (`StartsAreCounted`).
- `executeJob` runs a completed or failed job again: of two workers that found a job
  due the second runs it after the first completed it (`CompletedJobRunsAgain`). The
  attempt bounds hold as long as no read meets a job that is settled for good, and
  past any state with such a job that may run they can be broken
  (`TerminalReadBreaksTheBound`).
- No claim names its worker, so a running job is refused to its own worker too
  until the lease runs out (`RunningJobIsRefused`).
- Two attempts can call the channel of one delivery at the same instant. For a
  pending delivery one of them must come later than its lease, which runs from the
  time it read, not from its claim (`PendingCallsOverlap`); the windows of two calls
  never overlap, so of the calls made in time each window holds one
  (`PendingCallsKeepTheirWindows`), and a late one can meet another exactly from the
  end of its lease on (`NotificationLimits.OverlapExactly`). A delivery that is being
  retried has no lease at all (`RetryingHasNoLease`, `RetryingCallsOverlap`).
- `deliverWebhook` attempts a failed delivery again (`FailedIsClaimedAgain`), and past
  any state with a failed delivery the bound on posts can be broken
  (`FailedReadBreaksTheBound`).
- A replay fences the record but not the network: the call it fenced out still posts
  beside the new holder, two posts after the replay of a delivery of one attempt
  (`ReplayedPostOverlaps`, `ReplayedPostBreaksTheLiteralBound`). Counted by the epoch in
  which a call claimed, no epoch posts more than the attempts (`PostsBound`).
- `deliverWebhook` reports a success without posting when the delivery says delivered
  or delivering, and when it lost the claim (`DeliverWebhook`). A call that dies behind
  its claim leaves the delivery so for good: until a replay every call reports a
  delivery nobody posted (`CrashedIsReportedDelivered`, `CrashedDeliveryIsStuck`).
- An inbound event whose call stops between accepting it and handing it over is
  never handed to a handler: every later delivery of it is refused as a repeat
  (`StoppedAfterAccepting`, `LostForGood`).
- Enqueueing with the empty delegation by a caller that runs under one writes a
  job that no attestation honours (`EmptyDelegationIsRefused`); the record agrees
  with its evidence exactly when this is not asked (`EffectFitsExactly`). A
  transactional emit under a context that binds another delegation has the same
  fate (`ItemFitsExactly`).
- A ceiling that permits nothing is included in every other but may be refused
  (`UselessKeyMayBeRefused`): inclusion under every stored parent is decided exactly
  for the ceilings that permit something and the one with two empty lists
  (`WithinIsExactlyInclusion`). An empty rule would make the inclusion check incomplete
  (`EmptyRuleBreaksCompleteness`); validation refuses empty rules.
- An endpoint whose URL is not in the form the service stores is created again by
  every import (`CreateSettlesExactly`).
- An intelligence `set` that stops between its two writes leaves a new credential
  beside the old destination exactly when the destination was to change
  (`InterruptedBindExactly`); an old credential never moves (`OldCredentialNeverMoves`).

## Model

| member | source | states |
|---|---|---|
| `FeltDb.CasWinsOnTheRowRead` | src/storage/api-keys.ts:136-150 | a conditional write that wins wrote over exactly the row its writer had read, although the store method reads the row again |
| `FeltDb.Collection.UpdateIfVersion` | src/storage/webhooks.ts:192-199 | compare the version, write and advance it by one, or change nothing |
| `FeltDb.Collection.InsertIfAbsent` | src/jobs/store.ts:42-53 | an insert that requires absence writes at version 1 or changes nothing |
| `Restrictions.WithinIsSound` | src/api-keys/restrictions.ts:83-90 | a child ceiling accepted by the check never permits what its parent would not |
| `Restrictions.CoveredByOne` | src/api-keys/restrictions.ts:92-96 | a rule is covered by a list of rules exactly when one member alone covers it, shown on a canonical witness resource |
| `Restrictions.WithinIsComplete` | src/api-keys/restrictions.ts:83-96 | for normalized ceilings and a child that permits something, inclusion implies that the check accepts |
| `Restrictions.WithinDecidesInclusion` | src/api-keys/restrictions.ts:78-96 | the check accepts exactly when every permitted capability and resource of the child is permitted by the parent |
| `Restrictions.UselessKeyMayBeRefused` | src/api-keys/restrictions.ts:84-88 | an input where inclusion holds and the check refuses: a child that permits nothing |
| `Restrictions.WithinIsExactlyInclusion` | src/api-keys/restrictions.ts:78-96 | under every stored parent the check decides inclusion exactly for the ceilings that permit something and the one with two empty lists |
| `Restrictions.EmptyRuleBreaksCompleteness` | src/api-keys/restrictions.ts:59-60 | why empty rules are refused: with one, the check would refuse an included child |
| `Restrictions.RulesAreDemands` | src/api-keys/restrictions.ts:72-76 | a rule matches exactly the resources of which everything it demands is so, and narrows another exactly when it demands all the other does |
| `RestrictionInput.CheckRestrictions` | src/api-keys/restrictions.ts:19-36 | the validation loop accepts and normalizes exactly what the specification does |
| `RestrictionInput.CheckRule` | src/api-keys/restrictions.ts:38-62 | rule validation, key by key, equals its specification |
| `RestrictionInput.NormalizeIsWellFormed` | src/api-keys/restrictions.ts:25-35 | what validation accepts is sorted, without repeats, declared, within all limits, and every rule sets something |
| `RestrictionInput.NormalizeRoundTrip` | src/api-keys/restrictions.ts:19-62 | a well-formed ceiling written as JSON and validated again comes back unchanged |
| `RestrictionInput.CanonicalIgnoresOrder` | src/api-keys/restrictions.ts:30 | the stored capability list depends on the names given, not on their order or repetition |
| `RestrictionInput.NormalizeExactly` | src/api-keys/restrictions.ts:19-62 | a value is accepted exactly when it is an object of at most 64 declared names and at most 64 rules, each setting something, and is stored as exactly what it says: names sorted, each once |
| `RestrictionInput.RuleExactly` | src/api-keys/restrictions.ts:38-62 | a rule is accepted exactly when it has no other fields and each given field is valid, and each field is set exactly when it is given |
| `ApiKeyInvariants.CacheAnswersAsTable` | src/api-keys/service.ts:608-641 | a lookup through the bounded prefix cache answers as the prefix table does |
| `ApiKeyInvariants.ApplyKeepsIndex` | src/storage/api-keys.ts:169-190 | issuing a key and its prefix together keeps the table and the keys pointing at each other |
| `ApiKeyInvariants.ApplyKeepsLineage` | src/storage/api-keys.ts:95-106 | every write keeps rotation links mutually inverse and forward in time |
| `ApiKeyInvariants.StepKeepsInv` | src/api-keys/service.ts:227-504 | every step of every call keeps index, lineage, caches and calls in order and only moves the store forward |
| `ApiKeyInvariants.RunKeepsInv` | src/api-keys/service.ts:227-504 | the same over whole runs: no key or prefix disappears, identity fields, links and revocation are written once |
| `ApiKeyTheorems.CallerCovers` | src/api-keys/service.ts:540-550 | a key caller that passes the ceiling check stays inside what its own key was covered by |
| `ApiKeyTheorems.RetiredCovered` | src/api-keys/service.ts:294-310 | retiring a rotated key never gives it time |
| `ApiKeyTheorems.StepCovered` | src/api-keys/service.ts:227-336 | a step by a key caller stores only covered keys, even when the check and the write saw different stores |
| `ApiKeyTheorems.NoAmplification` | src/api-keys/service.ts:227-336 | over runs of key-authenticated callers, each stored key's capability, resource and time ceiling stays inside that of one key of the initial state |
| `ApiKeyTheorems.NoAmplifiedUse` | src/api-keys/service.ts:524-532 | whatever a key principal is let through for was allowed at that moment by one key of the initial state |
| `ApiKeyTheorems.ChainsAreAcyclic` | src/api-keys/service.ts:283-336 | following replacements never comes back |
| `ApiKeyTheorems.OneReplacement` | src/api-keys/service.ts:283-322 | a key has at most one replacement and replaces at most one key |
| `ApiKeyTheorems.MeetingChainsAreOne` | src/api-keys/service.ts:283-336 | rotation chains that meet are one chain |
| `ApiKeyTheorems.OneLiveKeyPerChain` | src/api-keys/service.ts:305-310 | with overlap 0, a chain has at most one key that is not revoked |
| `ApiKeyTheorems.LineageHolds` | src/api-keys/service.ts:283-336 | over runs, links are inverse and once written never move |
| `ApiKeyTheorems.RevocationIsPermanent` | src/api-keys/service.ts:374-403 | a revocation time, once set, never changes |
| `ApiKeyTheorems.RevocationIsImmediate` | src/api-keys/service.ts:524-532 | from the revoking commit on, every authorization of every principal of that key is denied |
| `ApiKeyTheorems.AuthenticationIsSound` | src/api-keys/service.ts:439-504 | authentication answers with a key only if at some instant inside the call its record was live, verified and of this application |
| `ApiKeyTheorems.NoLoginAfterRevocation` | src/api-keys/service.ts:439-504 | no call that began after a revocation answers with that key |
| `ApiKeyOutcomes.BeginsExactly` | src/api-keys/service.ts:524-532 | a call is let in exactly when it asks for something well formed and a key caller's own key is live, of its tenant and application, and permits this |
| `ApiKeyOutcomes.CreateClears` | src/api-keys/service.ts:96-154 | a creation goes on exactly inside the caller's ceiling |
| `ApiKeyOutcomes.CreateDecides` | src/api-keys/service.ts:96-154 | a cleared creation issues the key exactly under a name that says something and a prefix nobody has, as asked for; every other key stays |
| `ApiKeyOutcomes.UpdateDecides` | src/api-keys/service.ts:209-261 | a key is changed exactly when it is the caller's and unrevoked, a change of its ceiling stays inside the caller's, and nobody else wrote it; it then shows the changes and nothing else |
| `ApiKeyOutcomes.RotateDecides` | src/api-keys/service.ts:270-336 | a key is replaced exactly when it is the caller's, active, not replaced before, inside the caller's ceiling and not written since; what the two records then hold |
| `ApiKeyOutcomes.RevokeDecides` | src/api-keys/service.ts:374-403 | a key is revoked exactly when it is the caller's and not revoked, and only its revocation is written |
| `ApiKeyOutcomes.AuthenticateDecides` | src/api-keys/service.ts:439-504 | a secret goes on to its use exactly when its prefix names a good key, is refused when the key is not good, and tries again when a read or write fails |
| `ApiKeyOutcomes.AuthenticateWritesOnlyTheUse` | src/api-keys/service.ts:470-486 | authentication writes the time of use on the key it read and nothing else |
| `ApiKeyOutcomes.RememberedIsFound` | src/api-keys/service.ts:637-666 | a remembered prefix is found again, whatever was evicted |
| `ApiKeyService.Service.CreateApiKey` | src/api-keys/service.ts:96-154 | a created key belongs to the caller's tenant and this application, has the name, ceiling and expiry asked for, names its creator, and is found by its prefix |
| `ApiKeyService.Service.UpdateApiKey` | src/api-keys/service.ts:209-261 | a successful update shows every change asked for and nothing else, over a key that was not revoked |
| `ApiKeyService.Service.RotateApiKey` | src/api-keys/service.ts:270-336 | a successful rotation links an active key and its replacement both ways; the replacement keeps name, ceiling and expiry; the key is revoked at once, or expires with the overlap and never later than it would have |
| `ApiKeyService.Service.RevokeApiKey` | src/api-keys/service.ts:338-403 | when it succeeds the key is the caller's and revoked |
| `ApiKeyService.Service.RevokeAllApiKeys` | src/api-keys/service.ts:353-372 | when it completes, every key the tenant and application had when it began, or those one principal created, is revoked, and the keys reported are those that were not revoked before |
| `ApiKeyService.Service.AuthenticateApiKey` | src/api-keys/service.ts:439-504 | an answer is a key that was good at some instant inside the call; without one, at some instant inside the call the prefix named no good key, or every attempt failed to read or write or lost a race and the last read failed; undisturbed, a good key is always answered |
| `ApiKeyService.Service.RememberPrefix` | src/api-keys/service.ts:637-666 | delete, append and evict equal the bounded cache of the model |
| `JobLeases.StepKeepsInv` | src/jobs/service.ts:175-255 | every step keeps runs pinned to rows they read and claims of one job at different versions |
| `JobLeases.Fencing` | src/jobs/service.ts:419-473 | at most one unsettled run holds the current version; any other run's step leaves the record unchanged |
| `JobLeases.RunningJobIsRefused` | src/jobs/service.ts:183 | while a lease is running the job is refused to every worker, its own included |
| `JobLeases.LeaseExclusion` | src/jobs/service.ts:175-203 | of two unsettled runs of a job, one has let its lease run out |
| `JobLeases.NoOverlappingStart` | src/jobs/service.ts:175-255 | without manual retries, a handler that starts within its own lease never starts beside an earlier unsettled start whose lease is running |
| `JobLimits.OverlapExactly` | src/jobs/service.ts:202-226 | without manual retries, a run that owns its record and is about to start may start beside another handler at this instant exactly when its own lease has run out |
| `JobLimits.EveryStartMayComeTooLate` | src/jobs/service.ts:202-226 | whatever has become of its record, any run about to start can be held up until it starts beside another handler |
| `JobAttempts.DoBalanced` | src/jobs/service.ts:179-255 | each step leaves attempts, charged claims and backoffs of its job in balance |
| `JobAttempts.AttemptBound` | src/jobs/service.ts:179-200 | when no read meets a job settled for good, a job that is not settled for good always has an attempt left |
| `JobAttempts.StartsBound` | src/jobs/service.ts:175-255 | when no read meets a job settled for good: of the runs that claimed in one epoch between two resets, closed epochs included, the handler starts not excused by an unavailable authority number at most `maxAttempts`, late starts, crashes and abandonments included |
| `JobAttempts.StartsAreCounted` | src/jobs/service.ts:203-235 | every handler start is in the account of the epoch its run claimed in, from that step on |
| `JobLimits.TerminalReadBreaksTheBound` | src/jobs/service.ts:175-205 | past any state with a job settled for good that may run, some continuation starts more handlers in its epoch than the job has attempts |
| `JobAttempts.BackoffBound` | src/jobs/service.ts:434-473 | under the same condition the failure backoffs granted in each epoch add up to at most 1000 * (2^(maxAttempts-1) - 1) ms |
| `JobOutcomes.NoStartWithoutAttestation` | src/jobs/service.ts:217-235 | over runs, where authority is required a handler ran only if this run's claimed job attested as a principal of the run's tenant and after that the gateway let it through |
| `JobOutcomes.OnlyRegisteredHandlersRun` | src/jobs/service.ts:206-213 | over runs, no handler runs that is not registered |
| `JobOutcomes.ClaimsAreForAFullLease` | src/jobs/service.ts:202-204 | every claim's lease runs its full length from an instant at which the run had entered and not yet claimed |
| `JobOutcomes.SettledJobSettles` | src/jobs/service.ts:419-485 | what an outcome makes of a job: completed, failed or due again exactly when, how many attempts are counted, and when it is due |
| `JobOutcomes.WritesMean` | src/jobs/service.ts:175-255 | each step writes its own job over the version it read or nothing, and the record then shows an abandoned attempt, a claim, a settling or a reset |
| `JobOutcomes.NotesAreTrue` | src/jobs/service.ts:203-235 | the accounts record a claim, a start, an excuse or a reset exactly when the step is one |
| `JobService.Service.ExecuteJob` | src/jobs/service.ts:175-255 | a call that claimed the job ends as its record and the answers say, an unattested or foreign principal denied, and returns true exactly for a success; a call that did not never held it, as it was absent, under a running lease, out of attempts or overtaken |
| `JobService.Service.CountAbandoned` | src/jobs/service.ts:184-200 | an abandoned attempt is counted against the version read, and fails the job at its last attempt |
| `JobService.Service.Settle` | src/jobs/service.ts:419-485 | completion, failure, denial and postponement write the settled record over the claimed version, or nothing |
| `JobLimits.ReadRefusedExactly` | src/jobs/service.ts:176-183 | a read is turned away exactly for a missing job or an unexpired lease |
| `JobLimits.LateStartOverlaps` | src/jobs/service.ts:203-255 | a run in which a worker starts after its lease beside the worker that took over |
| `JobLimits.RetryMayOverlap` | src/jobs/service.ts:386-406 | from any state with a run about to start, one manual retry lets it start beside a newcomer's handler at this instant, in its lease or past it |
| `JobLimits.ManualRetryOverlaps` | src/jobs/service.ts:386-406 | a run in which a manual retry lets two workers start within their leases, two starts after the retry of a job of one attempt |
| `JobLimits.SecondReaderRunsItAgain` | src/jobs/service.ts:175-205 | of any two workers that entered together, the second may run the job the first has completed |
| `JobLimits.CompletedJobRunsAgain` | src/jobs/service.ts:175-205 | a run in which two workers find a job due and the second runs it after the first completed it |
| `AuthorityTheorems.AuthorizeIsBacked` | src/authority/gateway.ts:123-173 | a context is minted only on a valid allow for exactly what it says |
| `AuthorityTheorems.StepIsSound` | src/authority/gateway.ts:180-232 | every writer keeps allow-evidence backed by an allow that was given |
| `AuthorityTheorems.AttestIsSound` | src/authority/gateway.ts:363-379 | whatever passes `attest` has a valid allow for the same tenant, application, principal, delegation and creating capability |
| `AuthorityTheorems.EffectFitsExactly` | src/authority/gateway.ts:450-453 | a direct effect's durable principal agrees with its evidence exactly when the caller did not ask for the empty delegation over its own |
| `AuthorityTheorems.ItemFitsExactly` | src/runtime/transaction-services.ts:108-196 | a transactional record agrees with its evidence exactly when an emit context binds no other delegation than the caller's |
| `AuthorityTheorems.CommitFits` | src/runtime/transaction.ts:42-48 | a committed transaction leaves every record backed and no evidence overwritten |
| `AuthorityTheorems.AddFits` | src/authority/reserved.ts:19-23 | an application's raw operation can never touch evidence or service records |
| `AuthorityTheorems.AttestIsComplete` | src/authority/gateway.ts:235-257 | every job, schedule or delivery of every writer passes `attest` while its creating evidence is in progress or succeeded |
| `AuthorityTheorems.ContextUsedOnce` | src/authority/context.ts:70-77 | over a whole run a context lets at most one queued effect through |
| `AuthorityTheorems.ContextIsBoundAndShortLived` | src/authority/context.ts:53-77 | a context is used only for the capability, tenant and principal that were allowed, within a minute of the allow |
| `AuthorityTheorems.ExpectedVersionOnce` | src/runtime/transaction.ts:105-120 | over a run, of all transactions that expect one version of an application's record at most one commits |
| `AuthorityTheorems.QueuedDeliveriesHaveSubscribers` | src/runtime/transaction-services.ts:71-101 | a delivery queued in a transaction goes to a registered, enabled endpoint of the tenant and application that subscribes to the event the context was issued for |
| `AuthorityOutcomes.AskDecides` | src/authority/gateway.ts:123-173 | a request is unfit exactly when undeclared, allowed exactly when owned, backed and answered with an allow for this very request, and otherwise refused with a row that denies; nothing is written |
| `AuthorityOutcomes.StartDecides` | src/authority/gateway.ts:194-197 | under a live context exactly one row is added, which allows this context and is in progress; otherwise nothing |
| `AuthorityOutcomes.EffectLeaves` | src/authority/gateway.ts:200-232 | per effect, what one that returned added: one job, one schedule and no job, one delivery per id, one rewritten delivery; every other record is as it was; one that failed left that or nothing |
| `AuthorityOutcomes.OnlyEffectsWriteWork` | src/authority/gateway.ts:194-232 | every other step of a call writes evidence alone |
| `AuthorityOutcomes.EffectsAskAbout` | src/jobs/service.ts:93-123 | what each effect asks the authorizer about: capability, resource, and the delegation the work will run under |
| `AuthorityOutcomes.QueueDecides` | src/runtime/transaction-services.ts:45-281 | queueing uses a context up exactly when it was issued for this, is live and unused; adds its evidence once the resource type fits, and the item's own records exactly when it is what the context was issued for |
| `AuthorityOutcomes.SubscribesMeans` | src/runtime/transaction-services.ts:94-99 | an endpoint is accepted exactly when the first registered one of its id is an enabled subscriber of the tenant and application |
| `AuthorityOutcomes.CommitsExactly` | src/runtime/transaction.ts:42-48 | a transaction commits exactly if each operation may write over what those before it left |
| `AuthorityOutcomes.CommitKeeps` | src/runtime/transaction.ts:42-48 | a record no operation touches is as it was |
| `AuthorityOutcomes.CommitLeaves` | src/runtime/transaction.ts:42-48 | under every other key stands the record of the last operation that touches it, one version on |
| `AuthorityService.Gateway.Execute` | src/authority/gateway.ts:180-191 | an effect returns only if this very request was allowed, owned and backed by a live credential, and its run ended in success |
| `AuthorityService.Gateway.Ask` | src/authority/gateway.ts:123-173 | the fixed order of checks ends in a context, a refusal to record, or an unfit request |
| `AuthorityService.Gateway.RecordRefusal` | src/authority/gateway.ts:423-447 | a refusal adds at most one row, which allows nothing |
| `AuthorityService.Gateway.Start` | src/authority/gateway.ts:194-197 | under a live context exactly the started row is written before the effect |
| `AuthorityService.Gateway.Perform` | src/authority/gateway.ts:216-225 | an effect that returned left exactly the records it stands for, in one commit; one that failed left that or nothing |
| `AuthorityService.Gateway.Complete` | src/authority/gateway.ts:216-232 | completion moves the outcome of the effect's own evidence and nothing else |
| `AuthorityTheorems.EmptyDelegationIsRefused` | src/jobs/service.ts:323 | a run whose allowed job no attestation honours |
| `Transactions.Contexts.Consume` | src/authority/context.ts:53-77 | a context is accepted exactly if issued, for this capability and tenant, live and unused, and is then used |
| `Transactions.Database.Transaction` | src/runtime/transaction.ts:42-48 | absence, presence and expected versions hold in order, or nothing is written |
| `Transactions.TransactionContext.AddOperation` | src/runtime/transaction-services.ts:60-63 | a collection the services own is refused |
| `Transactions.TransactionContext.QueueJob` | src/runtime/transaction-services.ts:152-211 | queues evidence and job as specified, uses the context up even when denied |
| `Transactions.TransactionContext.QueueWebhookDeliveries` | src/runtime/transaction-services.ts:81-147 | queues evidence and one delivery per endpoint once every endpoint is found to be a subscriber; an endpoint that is not blocks the commit |
| `Transactions.TransactionContext.AllSubscribe` | src/runtime/transaction-services.ts:92-99 | the validation loop accepts exactly the lists all of whose ids are registered, enabled subscribers |
| `Transactions.TransactionContext.QueueNotification` | src/runtime/transaction-services.ts:213-281 | queues evidence, the notification and its delivered in-app delivery for the recipient the context was issued for |
| `Transactions.TransactionContext.Commit` | src/runtime/appport.ts:455-462 | a transaction waits for its validations and commits everything in one write, or nothing |
| `NotificationTheorems.ChangedIsOk` | src/notifications/service.ts:137-149 | every change raises the status or leaves it and keeps its stamps in agreement |
| `NotificationTheorems.StepKeepsInv` | src/notifications/service.ts:224-456 | every step keeps statuses, summaries and the one-delivery-per-channel index |
| `NotificationTheorems.StatusOnlyRises` | src/notifications/service.ts:384-407 | status writes rise through pending, failed, delivered, expired, read, acknowledged; the read and acknowledged stamps agree with it |
| `NotificationTheorems.DeliveredIsTrue` | src/notifications/service.ts:355-393 | a delivered delivery stays delivered, and a delivered notification has one |
| `NotificationTheorems.CreatedOnce` | src/notifications/service.ts:224-257 | concurrent calls with one tenant, recipient and key create exactly one notification |
| `NotificationTheorems.NothingInTheWay` | src/storage/notifications.ts:43-63 | a notification that is not there has no deliveries, so its creation never conflicts with orphans |
| `NotificationTheorems.NotifyLeavesOne` | src/notifications/service.ts:252-257 | a call that reaches its transaction leaves its notification there |
| `NotificationTheorems.OneDeliveryPerChannel` | src/notifications/service.ts:238-252 | from its creation on a notification has one delivery on each channel of the winning call and no other |
| `NotificationOutcomes.CreateDecides` | src/notifications/service.ts:224-257 | a notification is created exactly when there is none of its id, unseen, with one untouched delivery on each channel; nothing else is written |
| `NotificationOutcomes.ReadDecides` | src/notifications/service.ts:323-330 | an attempt goes on exactly with a delivery of its tenant that is waiting and not attempted in the last 30 seconds, or to be retried and, by schedule, due |
| `NotificationOutcomes.ExamineDecides` | src/notifications/service.ts:332-341 | it is claimed exactly if its notification is there for the tenant, had not expired and its channel is set up; otherwise it fails for good |
| `NotificationOutcomes.ClaimDecides` | src/notifications/service.ts:343-344 | a claim counts the attempt and its time over the version read, or ends the call |
| `NotificationOutcomes.FinishDecides` | src/notifications/service.ts:355-382 | an answer settles the record still held: arrived, retried exactly while allowed and attempts are left, at its doubled wait, or given up |
| `NotificationOutcomes.RetryDecides` | src/notifications/service.ts:185-213 | only a delivery that was given up gets a new round, due now, with a full round of attempts beyond those it had |
| `NotificationOutcomes.ListDecides` | src/notifications/service.ts:384-388 | a notification is refreshed with whether one of its deliveries arrived and whether all were given up |
| `NotificationOutcomes.ChangeDecides` | src/notifications/service.ts:384-407 | a change goes on exactly when it has something to do, with the stamps and the status it stands for and nothing else |
| `NotificationOutcomes.CommitDecides` | src/notifications/service.ts:395-407 | a change is written over the version it was decided on, or decided again, five times in all |
| `NotificationOutcomes.QueuedArrives` | src/runtime/transaction-services.ts:213-281 | a notification queued in a transaction is there, delivered in the app, with its one delivery, from the commit on |
| `NotificationOutcomes.NoCallUnexamined` | src/notifications/service.ts:323-348 | over runs a channel is called only for a delivery this attempt read when it might be attempted, then found deliverable, and then claimed with the attempt counted |
| `NotificationLeases.PendingClaimsAreALeaseApart` | src/notifications/service.ts:323-344 | two claims of a pending delivery are at least 30 seconds apart on the clock their workers read |
| `NotificationLeases.PendingCallsKeepTheirWindows` | src/notifications/service.ts:323-348 | the 30-second windows of two channel calls for a pending delivery are disjoint, and a call made within its own window lies in no other |
| `NotificationLimits.OverlapExactly` | src/notifications/service.ts:326-348 | an attempt about to call for a pending delivery may meet another call in its window, at this instant, only past its own lease; and past it may, as long as nobody took its record over and the notification has not expired |
| `NotificationLimits.PendingCallsOverlap` | src/notifications/service.ts:326-348 | a run in which two first attempts of a pending delivery call its channel at the same instant |
| `NotificationLimits.RetryingHasNoLease` | src/notifications/service.ts:329-330 | any attempt about to call for a delivery that is being retried may meet another call at this very instant |
| `NotificationLimits.RetryingCallsOverlap` | src/notifications/service.ts:329-348 | a run in which two attempts of a delivery that is being retried call its channel at once |
| `NotificationLeases.RetryDelaysDouble` | src/notifications/service.ts:366 | each wait after a failed attempt is twice the one before, up to an hour |
| `NotificationService.Service.Notify` | src/notifications/service.ts:224-264 | the notification is there when it returns; `created` tells exactly whether it was absent, and then it and its deliveries are as asked for |
| `NotificationService.Service.Claim` | src/notifications/service.ts:343-344 | the attempt is counted against the version that was read, or lost |
| `NotificationService.Service.Finish` | src/notifications/service.ts:355-382 | the settled record, arrived, retrying at its next time, or given up, is written over the version held, or nothing |
| `NotificationService.Service.Transition` | src/notifications/service.ts:395-407 | what it writes is the change decided on a notification it read, over the version read; it writes nothing only if there was nothing to do, or five races were lost |
| `NotificationService.Service.Write` | src/notifications/service.ts:401-405 | one version-checked write of a decided change, retried only within the five tries |
| `NotificationService.Service.AttemptDelivery` | src/notifications/service.ts:323-353 | an attempt ends turned away with nothing written, or settled: with the channel's own answer exactly if it was called, and failed for good otherwise, when its notification is gone or expired or the channel is not set up |
| `Pagination.PagesAreTheList` | src/notifications/service.ts:114-135 | following the cursors concatenates to the filtered list in order, for every page size |
| `Pagination.EveryEntryOnce` | src/notifications/service.ts:114-135 | each entry the filter keeps is seen exactly once, newest first |
| `Pagination.NewEntriesChangeNoLaterPage` | src/notifications/service.ts:601-611 | entries not beyond a cursor change neither the next page nor any page after it |
| `Pagination.ArrivalsDisturbNoPage` | src/notifications/service.ts:114-135 | while notifications arrive between the pages, a caller who follows the cursors sees exactly the list of the first page, whole and in order |
| `Pagination.RestAfter` | src/notifications/service.ts:601-611 | beyond entry k of the sorted list lies exactly the rest of it |
| `Pagination.PageHolds` | src/notifications/service.ts:114-135 | a page read off its entries: kept entries beyond the cursor, newest first and by falling id, as many as asked for, and a cursor exactly when there are more |
| `Pagination.LimitExactly` | src/notifications/service.ts:116 | the page size is what was asked for brought within 1 and 100, and 50 unless said |
| `WebhookTheorems.StepKeepsInv` | src/webhooks/service.ts:267-351 | every step keeps one holder per replay epoch, who holds the record |
| `WebhookTheorems.ReplayFences` | src/webhooks/service.ts:336-345 | after a replay, no step of a call that claimed before it changes a record |
| `WebhookTheorems.DeliveringIsExclusive` | src/webhooks/service.ts:267-322 | without replays a call that is about to post is the only one, and its delivery says delivering |
| `WebhookTheorems.PostsBound` | src/webhooks/service.ts:482-518 | when no call reads a failed delivery: the calls that claimed in one epoch between two replays, closed epochs included, post at most `maxRetryAttempts` times, late posts and crashes included, and a delivery waiting for an attempt has one left |
| `WebhookTheorems.PostsAreCounted` | src/webhooks/service.ts:298-316 | every post is in the account of the epoch its call claimed in, from that step on |
| `WebhookOutcomes.CheckDecides` | src/webhooks/service.ts:273-297 | a delivery is claimed exactly if its endpoint is the tenant's, ours and enabled, it has a signing reference and an attested principal of the tenant; ours and unfit it fails for good, foreign it is only answered; a replay goes on exactly at an enabled endpoint of ours under an authorization |
| `WebhookOutcomes.ClaimDecides` | src/webhooks/service.ts:298-299 | a claim or a rejection moves the status of the record read and nothing else, or writes nothing |
| `WebhookOutcomes.PostDecides` | src/webhooks/service.ts:301-319 | a claimed delivery is posted or ends with its failure; once posted it ends with its success or the provider's error |
| `WebhookOutcomes.SettleDecides` | src/webhooks/service.ts:482-518 | an outcome settles the record still held: delivered, failed exactly for a denial, a final answer or the last attempt, else retried at its doubled wait |
| `WebhookOutcomes.ResetDecides` | src/webhooks/service.ts:336-345 | a replayed delivery is pending, with no attempts counted and due at once |
| `WebhookOutcomes.NotesAreTrue` | src/webhooks/service.ts:298-345 | the accounts record a claim, a post or a replay exactly when the step is one |
| `WebhookOutcomes.NoPostUnchecked` | src/webhooks/service.ts:267-316 | over runs nothing is posted that this call did not read as deliverable, then find attested at an enabled endpoint of ours, and then claim as read |
| `WebhookLimits.FailedReadBreaksTheBound` | src/webhooks/service.ts:271-299 | past any state with a failed delivery some continuation posts it more often in its epoch than its attempts allow |
| `WebhookLimits.ReadRefusedExactly` | src/webhooks/service.ts:268-271 | a delivery is turned away exactly when absent, foreign, delivered or being delivered |
| `WebhookLimits.FailedIsClaimedAgain` | src/webhooks/service.ts:271-299 | a run in which two calls find a delivery of one attempt pending and the second posts it after the first failed it for good |
| `WebhookLimits.ReplayedPostOverlaps` | src/webhooks/service.ts:298-345 | from any state with a call about to post, a replay lets it post beside a newcomer at this instant, and only the newcomer's post is in the new epoch |
| `WebhookLimits.ReplayedPostBreaksTheLiteralBound` | src/webhooks/service.ts:298-345 | a run in which a delivery of one attempt is posted twice after its replay |
| `WebhookLimits.CrashedDeliveryIsStuck` | src/webhooks/service.ts:271-299 | once nobody holds a delivery that says delivering, its record never moves, nothing is posted in its epoch and every call for it is turned away, until a replay |
| `WebhookLimits.CrashedIsReportedDelivered` | src/webhooks/service.ts:271-299 | a run in which a call dies behind its claim and every later call reports a delivery nobody posted |
| `WebhookService.Service.DeliverWebhook` | src/webhooks/service.ts:267-322 | success is reported exactly when this call posted with success, was turned away as delivered or delivering, or lost the claim; which ending it is follows from what its check found and what the network answered, and it posted exactly when it got that far |
| `WebhookService.Service.RecordAttempt` | src/webhooks/service.ts:482-518 | the settled delivery, by outcome, is written over the claimed version, or nothing |
| `WebhookService.Service.ReplayWebhookDelivery` | src/webhooks/service.ts:324-351 | a successful replay leaves the delivery pending with no attempts counted over the version it read; without one the delivery was not the tenant's, might not be replayed, or had moved on |
| `InboundWebhooks.HandledAtMostOnce` | src/webhooks/service.ts:430-454 | over every interleaving a handler is given each event of an integration at most once |
| `InboundWebhooks.OnlyVerifiedIsHandled` | src/webhooks/service.ts:400-454 | over runs from the empty state an event is accepted only by a call that entered in time and was then allowed and found signed, and handled only by that call after it accepted it |
| `InboundWebhooks.VerifiedIsHandled` | src/webhooks/service.ts:428-454 | a call that is allowed and signed hands its event to the handler if the event is not accepted by then, and is turned away if it is |
| `InboundWebhooks.EntersExactly` | src/webhooks/service.ts:400-417 | a request enters exactly when its integration is enabled, it is complete and its timestamp is within the tolerance |
| `InboundWebhooks.LostForGood` | src/webhooks/service.ts:434-443 | an accepted event no call has in its hands is never handled later |
| `InboundWebhooks.StoppedAfterAccepting` | src/webhooks/service.ts:434-443 | a run in which a signed event is accepted, its call stops, and a second genuine delivery is refused |
| `InboundWebhooks.Receiver.Receive` | src/webhooks/service.ts:398-463 | the program's answer follows from what was found, in order: integration, completeness, timestamp, authorization and signature, whether the event was new, its body and its handler |
| `InboundWebhooks.ReplayStore.Accept` | src/storage/webhooks.ts:242-254 | accepts an event exactly when it was not stored before, and stores it |
| `ExportDocument.ParseRoundTrip` | src/configuration/transfer.ts:246-291 | parsing a written document gives it back exactly when it is importable, otherwise it is refused |
| `ExportDocument.SecretValuesAreRefused` | src/configuration/transfer.ts:266-271 | a document with a secret's value is refused |
| `ExportDocument.ParseExactly` | src/configuration/transfer.ts:246-291 | a value is read as a document exactly when it says that document, element by element, and refused otherwise |
| `Transfer.ConfigurationTransfer.ImportConfiguration` | src/configuration/transfer.ts:147-243 | the loops over the document compute the import: its target, of which `ImportLands` says what it holds, its report and its summary |
| `TransferTheorems.ReportIsThePlan` | src/configuration/transfer.ts:161-242 | exactly one item per entry with the action planned against the snapshot, whatever writes fail |
| `TransferTheorems.SummaryAddsUp` | src/configuration/transfer.ts:237-242 | the counts of the report add up to the entries; each planned write is counted as applied or failed, none in a dry run; a dry run counts what the real run counts |
| `TransferTheorems.ImportLeaves` | src/configuration/transfer.ts:163-171 | a dry run writes nothing and plans the same; without `overwrite` nothing that was there changes; no binding is created |
| `TransferConvergence.CreateSettlesExactly` | src/configuration/transfer.ts:200-210 | a created endpoint settles exactly when its URL is in the stored form |
| `TransferConvergence.EndpointsSettle` | src/configuration/transfer.ts:200-217 | after an overwriting import every endpoint of the document is unchanged or skipped by a new plan |
| `TransferConvergence.SchedulesSettle` | src/configuration/transfer.ts:224-234 | the same for schedules, whose whole slot is replaced |
| `TransferConvergence.ImportConverges` | src/configuration/transfer.ts:161-242 | with `overwrite`, accepted writes and unique keys a second import plans no write |
| `TransferConvergence.RoundTrip` | src/configuration/transfer.ts:122-243 | export, parse, import into an empty target and export again give the same variables, endpoints and schedules, with every secret missing |
| `TransferOutcomes.ImportLands` | src/configuration/transfer.ts:161-234 | after an import whose writes are accepted the target holds every variable of the document, one enabled endpoint with its events and a signing reference, and one enabled schedule with its payload, where it may write them, and everything else as before |
| `TransferOutcomes.VariableIsPlanned` | src/configuration/transfer.ts:175-182 | a variable is unchanged exactly when the target holds its value and flag, created when its name is free, and a conflict when bound or not to be overwritten |
| `TransferOutcomes.SecretIsPlanned` | src/configuration/transfer.ts:184-194 | a binding is never written: a conflict, as the target has it, or missing |
| `TransferOutcomes.EndpointIsPlanned` | src/configuration/transfer.ts:200-217 | an endpoint is unchanged exactly when the target's first enabled one has the same events in any order, and skipped without a signing reference |
| `TransferOutcomes.ScheduleIsPlanned` | src/configuration/transfer.ts:224-234 | a schedule is unchanged exactly when an enabled one of its type and interval has its payload |
| `TransferOutcomes.MissingAreReported` | src/configuration/transfer.ts:184-194 | the bindings reported missing are, in order, the secrets whose names the target neither binds nor uses |
| `TransferOutcomes.VariableReportIsTrue` | src/configuration/transfer.ts:163-182 | whatever the target refuses, an item reported as applied is there and one that is not left nothing |
| `TransferOutcomes.RefusedWritesOnlyAdd` | src/configuration/transfer.ts:200-217 | an endpoint whose write was refused left nothing, or the new record beside the one it was to replace |
| `TransferOutcomes.ExportHolds` | src/configuration/transfer.ts:122-144 | an export holds every variable and binding and exactly the enabled endpoints and schedules, once each |
| `TransferOutcomes.ExportIsSorted` | src/configuration/transfer.ts:134-142 | each list of an export is in the order of its names, URLs or schedule keys |
| `ServicesContract.Closure.Add` | src/contract/services-contract.ts:158-163 | depth-first addition over any graph terminates, closes what it adds, and adds nothing a closed set could leave out |
| `ServicesContract.Fragment` | src/contract/services-contract.ts:156-173 | the fragment lists the collections of the least closed set; refused exactly when the request reaches an unknown service |
| `ServicesContract.SameRequestSameFragment` | src/contract/services-contract.ts:150-155 | order and repeats of the request do not matter |
| `ServicesContract.EmptyExactly` | src/contract/services-contract.ts:165 | empty exactly for the empty request |
| `ServicesContract.KnownServicesAreServed` | src/contract/services-contract.ts:139-148 | a request of known services is never refused |
| `EvidenceReader.BoundedFind` | src/storage/bounded.ts:13-25 | terminates with the first `max` matching records, for any page sizes and over-returning pages |
| `EvidenceReader.FindByRunId` | src/authority/evidence.ts:115-135 | the answer read off the collection: rows of the run alone, each once with its own state, oldest first, all of them unless cut at the limit, and failed, open or completed as they are |
| `EvidenceReader.AggregateIsJoin` | src/authority/evidence.ts:137-142 | the state of a run is the join of its rows' states |
| `EvidenceReader.AggregateOfConcat` | src/authority/evidence.ts:137-142 | concatenation of rows is join of states |
| `EvidenceReader.CutStateIsBelow` | src/authority/evidence.ts:127-132 | a truncated answer never claims a state above the run's |
| `Intelligence.IntelligenceService.Set` | src/intelligence/service.ts:57-81 | a `set` succeeds exactly when its request can be selected and its credential fits; it leaves the selection asked for and the credential given, the one that stays put, or none |
| `Intelligence.IntelligenceService.SetCredential` | src/intelligence/service.ts:84-95 | binds a credential to the current destination, refused when none is configured or none is used |
| `Intelligence.IntelligenceService.RemoveCredential` | src/intelligence/service.ts:97-106 | removes a credential exactly when it is not required |
| `Intelligence.IntelligenceService.ResolveRuntime` | src/intelligence/service.ts:113-121 | the runtime is given the model and the endpoint the selection leads to, and a credential only for the endpoint it was bound for |
| `Intelligence.OldCredentialNeverMoves` | src/intelligence/service.ts:69-78 | however far a `set` without a new credential gets, the old one is never beside another destination |
| `Intelligence.SetDecides` | src/intelligence/service.ts:57-81 | the writes of `set` are decided and leave what the stored fields and the request say |
| `Intelligence.ValidatesExactly` | src/intelligence/service.ts:208-238 | a request is accepted exactly for a known provider, a model, and its default, a known endpoint or, where it takes one, a custom URL, stored without slashes at its end |
| `Intelligence.ResolvesExactly` | src/intelligence/service.ts:193-199 | where a stored endpoint leads: the provider's first, the known one of its id, or the URL itself |
| `Intelligence.InterruptedBindExactly` | src/intelligence/service.ts:77-78 | stopping between bind and save misplaces the new credential exactly when the destination was to change |

## Left out

- The HTTP layer, Express routers, the management host, pages, the command line and file reading: no invariant of their own.
- Cryptography and randomness: verifying a secret is a relation, a signature is an answer, fresh identifiers are fresh, hashes are injective.
- The lagging process-local copy of keys of the embedded store: its freshness depends on that store's timing.
- Audit trails, and fields that only describe a record (names of actors, creation times, error texts); `completeJob` records its event even when its write lost, so nothing is claimed of the trail.
- Deleting notifications and cleaning up orphaned deliveries: versions start over, so nothing is claimed of runs with deletes.
- Exactly-once materialization of schedules: the job is created before the schedule moves on, so it does not hold across processors; materialization is modelled for attestation only.
- Serialization of creations and authentications inside one process: the queues only remove interleavings.
- The identity of principal and context objects: a principal is the value that was minted, its credential check is the key lookup of the key model, and no other object is one.
- Credential custody: storing and resolving values, custody status, and the mapping of its failures.
- The scope-based behaviour of services without an authority, checks for credential-like text, address and URL parsing, health counts and discovery tables.
- Listing of keys and audit events, and their pages: plain filters and sorts.
- Object keys with a special meaning on the platform, such as `__proto__`, in attributes and service names.
- Comparison of texts by locale: sorting uses character order, which agrees on identifiers and timestamps.
- JSON text itself: documents and restrictions start from parsed values, and payloads are compared as values.
- `ApiKeyService.Service.CreateApiKey`: the secret handed out once is a verifier of the model's inputs; the audit event is not modelled.
- `ApiKeyService.Service.RevokeAllApiKeys`: the keys are revoked in any order, not by age; a collision of call numbers ends it without an answer.
- `ApiKeyTheorems.OneLiveKeyPerChain`: only for overlap 0; an update may extend the expiry of a replaced key, so the end of an overlap is not final.
- `JobLeases.NoOverlappingStart`: for runs without manual retries and for starters whose own lease is running; `JobLimits.OverlapExactly` and `RetryMayOverlap` show that both are needed.
- `NotificationLeases.PendingClaimsAreALeaseApart`: about the times workers read before they claim; `PendingCallsKeepTheirWindows` is about the channel calls.
- `NotificationLimits.OverlapExactly`: the half that lets two calls meet is for a record nobody took over and a notification that has not expired; past its expiry a newcomer that reads it no longer calls.
- `NotificationService.Service.Notify`: the dispatch of the pending deliveries, which enters attempts, and the view it returns are not part of its contract.
- `Transactions.TransactionContext.QueueJob`: a job is its durable principal and its evidence; its own fields and the audit row are not modelled.
- `WebhookService.Service.ReplayWebhookDelivery`: the durable principal a replay writes is modelled in Authority, not here; asking the gateway is part of the endpoint check, whose facts arrive as yes or no.
- `TransferOutcomes.ImportLands`: under the conditions of `ImportConverges` but for `overwrite`; what a refused write leaves is in `VariableReportIsTrue` and `RefusedWritesOnlyAdd`.
- `InboundWebhooks.Receiver.Receive`: the signature check, the authorizer, the body and the handler are answers; the integration record and the headers arrive as what they came to.
- `TransferConvergence.ImportConverges`: one enabled endpoint per URL in the target and unique keys in the document, since the planner looks at the first endpoint and at whole schedule slots.
- `Pagination.EveryEntryOnce`: for integer page sizes; the page is computed from one read of the list.
- `Intelligence.IntelligenceService.Set`: texts arrive trimmed, model catalogs and the rules for custom URLs are one yes or no; calls run to completion, and `InterruptedBindExactly` says what a stop leaves.
- `EvidenceReader.FindByRunId`: the declaration of the index on first use is not modelled.
