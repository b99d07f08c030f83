# Beacon, modelled

Beacon is a control plane: monitors in a database are projected into probe, scrape and alerting
configuration, paid for from a credit ledger, declared from files in a repository, and alerted on.
This project models the parts of it whose correctness spans several operations, over whole runs with
concurrency, crashes and failing calls, and proves what they promise. Check all of it with
`dafny verify dfyconfig.toml`.

| file | what it models |
|---|---|
| Billing.dfy | the credit ledger: payments from webhooks and reconcile passes, the meter, charges and refunds |
| Diagnosis.dfy | metered diagnoses interleaving with each other, with payments and with the meter |
| JobQueue.dfy | the job queue on a stream with a consumer group, and workers that die |
| Wrappers.dfy, Sets.dfy, Text.dfy | options and results, counting in sets, and the string operations the others share |
| Monitors.dfy | monitors, normalization of user input, and the operations on the store |
| ConfigSync.dfy, Convergence.dfy | the declarative sync: one run, and two runs of the same declaration |
| Window.dfy, Overflow.dfy | two runs in a project that does not fit the listing: when they converge, and one that does not |
| PlanCap.dfy, Generator.dfy, Syncer.dfy | the projection into configuration and its publication |
| Headers.dfy | request headers through masking, the edit form and back |
| Sealing.dfy | header values at rest and the migration that encrypts old ones |
| Auth.dfy, Session.dfy | refresh-token rotation, password resets, and the client that coalesces refreshes |
| Rotation.dfy | refreshes that race, statement by statement |
| Dispatcher.dfy | fanning alerts out with a per-call channel cache |
| GitHubIngest.dfy | workflow reports and the status that carries alerts from one to the next |
| Maintenance.dfy | maintenance windows |

Each component has a specification, functions on values, and next to it the imperative form of the
code, classes and loops that are proved to compute it. Protocols are state machines whose steps are
single statements, commands, file operations or replies, with a flag for each call that may fail;
the theorems are about all runs of the machine. Where a proof needs to know something about the past,
such as which sign-in a token descends from, the state records it; no step of the code reads it.

What the code does but its own text does not say:

- The declarative sync asks for 1000 monitors, and the listing turns any limit above 200 into 50.
  Within 50 monitors the sync converges. Beyond, what a run creates pushes older monitors off the next
  listing, and the next run creates the declared ones among them again; whether that happens can be
  told from the first listing and the declaration (`Window.SecondRunCreatesNothingIffItFits`), and it
  takes no more than two declared monitors (`Overflow.OldestIsCreatedAgain`). With Prune, monitors that
  were not listed come up one page at a time (`Window.PruningGoesOnIffTheRestComesUp`).
- The sync never compares or changes the type of an existing monitor.
- A name stored for a repository may be shortened by the next normalization
  (`Monitors.PastedPathIsNotStable`); the sync converges all the same, because it normalizes the
  declared target and not the stored one.
- A pending-list query that finds nothing counts as one delivery. It finds nothing only when another
  worker has settled the job meanwhile, and such late retries are not bounded
  (`JobQueue.LateRetriesFollowSettlement`, `JobQueue.LateRetriesAreUnbounded`); they do no harm, because
  the entry they leave for a retry is gone.
- Giving credit back to an organization that was closed meanwhile does nothing and reports no error
  (`Diagnosis.EachLossHappens`).
- A process that dies between charging for a diagnosis and answering it keeps the charge
  (`Diagnosis.DyingKeepsTheCharge`).
- Two refreshes of one token that look it up before either revokes it both succeed
  (`Rotation.TwoRefreshesBothSucceed`), and a refresh that looked the token up before its owner logged
  out leaves a usable one (`Rotation.ALogoutIsOutrun`).
- The answer to a refresh that was on its way undoes a sign-out in the client
  (`Session.SignOutIsUndone`).
- A sealing pass over a row with plaintext replaces the sealed values it cannot open by empty ones
  (`Sealing.IllegibleIsLost`).
- In the edit form a line that ends in a return swallows the next one (`Headers.EditingOneLine`).
- The HTTPS type alone brings no certificate warning (`Generator.HttpsTypeAloneIsNotWatched`).
- The monthly allowance is checked before a diagnosis and counted after it, so concurrent diagnoses
  overrun it by exactly as many as are in flight, less one.
- Resuming a monitor that was not paused forgets a failure, and resuming by an update a monitor that
  was paused by SetEnabled leaves its status paused for good.

## Model

| member | source | states |
|---|---|---|
| Billing.SplittingAPaymentLosesNothing | backend/internal/domain/billing/billing.go:396 | the price formula drops no remainder, so paying in pieces buys the same credit |
| Billing.GrantedRemove | backend/internal/adapter/postgres/billing_repo.go:243-254 | the granted total does not depend on the order rows are added up |
| Billing.RepliesTellTheTruth | backend/internal/domain/billing/billing.go:390-430 | applied is said exactly of a new event by a call that went well, not applied exactly of a known or foreign one; a call that broke off says neither and leaves nothing behind unless only its confirmation was lost |
| Billing.OneAttemptOneRow | backend/internal/domain/billing/billing.go:390-430 | one delivery adds at most one ledger row, and does so exactly when it reports applied or its confirmation is lost |
| Billing.EachRowIsReportedOnce | backend/internal/domain/billing/billing.go:363-384 | over any order, repetition and interleaving of deliveries and reconcile passes the reports of "applied" plus the lost confirmations number exactly the new ledger rows |
| Billing.SettleKeepsBalance | backend/internal/adapter/postgres/billing_repo.go:85-108 | settling never makes a balance negative and raises it by exactly the credit of the new rows, for live organizations only |
| Billing.LedgerDependsOnlyOnTheIds | backend/internal/domain/billing/billing.go:390-430 | at one rate two histories that settled the same event ids leave the same ledger and the same balances |
| Billing.OneLandingSettles | backend/internal/domain/billing/billing.go:363-384 | one attempt that nothing stands in the way of is enough: the payment is in the ledger from then on |
| Billing.OnceEachPaymentLandsHistoriesAgree | backend/internal/domain/billing/billing.go:363-430 | two histories about the same payments in each of which every payment got through at least once end in the same ledger and balances, whatever else raced, repeated or failed |
| Billing.Repository.ApplyTopUp | backend/internal/adapter/postgres/billing_repo.go:85-108 | id insert and credit update happen together or not at all; a known id changes nothing |
| Billing.Repository.ApplySubscription | backend/internal/adapter/postgres/billing_repo.go:112-147 | a subscription event uses up its id and moves no credit |
| Billing.TicksAreOneTick | backend/internal/adapter/postgres/billing_repo.go:151-170 | however time is cut into ticks they take what one tick of all of it takes: from each live balance the time times its enabled monitors, as far as it reaches, and nothing else anywhere |
| Billing.Repository.DeductCredit | backend/internal/adapter/postgres/billing_repo.go:151-170 | one tick leaves each live positive balance at what it was less elapsed time times enabled monitors, or at zero, and changes nothing else |
| Billing.Repository.ChargeCredit | backend/internal/adapter/postgres/billing_repo.go:185-198 | debits exactly when a live balance covers the cost; a cost of nothing always succeeds |
| Billing.Repository.RefundCredit | backend/internal/adapter/postgres/billing_repo.go:201-211 | gives a positive cost back to a live organization |
| Billing.Repository.CountRunsSince | backend/internal/adapter/postgres/billing_repo.go:214-222 | the number of recorded runs of the organization from the month on |
| Billing.Repository.RecordRun | backend/internal/adapter/postgres/billing_repo.go:225-233 | appends one run |
| Billing.Repository.CreditTotals | backend/internal/adapter/postgres/billing_repo.go:243-254 | granted is the sum over the ledger, remaining the live balance |
| Billing.Service.ApplyWebhook | backend/internal/domain/billing/billing.go:390-430 | top-ups and subscriptions are settled, events without an organization and other kinds are ignored |
| Billing.Service.Reconcile | backend/internal/domain/billing/billing.go:363-384 | a pass settles the listed payments one by one and counts exactly those it was told it applied |
| Billing.Service.Overview | backend/internal/domain/billing/billing.go:200-227 | consumed is granted less remaining, never negative |
| Diagnosis.CreditIsConserved | backend/internal/domain/diagnose/diagnose.go:211-310 | in every interleaving of payments, meter ticks, diagnoses and organizations being closed or erased with all their rows the balance of a live organization is never negative and granted = balance + burned + held by diagnoses; consumed is exactly the last two |
| Diagnosis.SoundExec | backend/internal/domain/diagnose/diagnose.go:211-310 | every step of every interleaving keeps the conservation invariant |
| Diagnosis.TheMeterTakesTimeTimesMonitors | backend/internal/adapter/postgres/billing_repo.go:151-170 | whatever happens between the ticks an organization with n monitors at each of them that can pay burns exactly n times the time that passes |
| Diagnosis.AnalysedIffTheModelAnswered | backend/internal/domain/diagnose/diagnose.go:229-265 | in every interleaving a finished diagnosis has an analysis exactly if its probe succeeded and then the model answered, and is without one, once admitted, exactly if one of them failed |
| Diagnosis.OnlyAnswersAreRecorded | backend/internal/domain/diagnose/diagnose.go:255-264 | a run is recorded only by a diagnosis the model answered, for its organization, charge and month |
| Diagnosis.ChargesBuyAnswers | backend/internal/domain/diagnose/diagnose.go:229-310 | a diagnosis the model did not answer keeps its credit if and only if its charge was confirmed to nobody, its refund failed, its organization was closed or erased before the refund, or it was charged and has not ended; whoever is debited otherwise got an answer |
| Diagnosis.EachLossHappens | backend/internal/adapter/postgres/billing_repo.go:185-211 | each of the first three losses happens: a run from the empty state that ends with it |
| Diagnosis.DyingKeepsTheCharge | backend/internal/domain/diagnose/diagnose.go:229-310 | and so does the fourth: when the process dies between charge and answer the credit stays debited whatever happens afterwards |
| Diagnosis.AllowanceOverrunIsBounded | backend/internal/domain/diagnose/diagnose.go:269-301 | on one tier with at most k diagnoses in flight the recorded runs of a month never exceed the limit plus k - 1; one at a time, the limit |
| Diagnosis.AllowanceOverrunIsReached | backend/internal/domain/diagnose/diagnose.go:269-301 | the bound is exact: for every limit and k some run records it |
| Diagnosis.Service.Run | backend/internal/domain/diagnose/diagnose.go:211-265 | an analysis exactly for an admitted organization whose probe succeeded and whose model answered, then paid for and recorded; otherwise nothing recorded and the ledger as before, a failed refund and an unnoticed charge excepted; and exactly the steps of one diagnosis of the machine |
| Diagnosis.Service.MeterIn | backend/internal/domain/diagnose/diagnose.go:269-301 | charges pay-as-you-go, checks the allowance of a subscribed tier, refuses otherwise |
| Diagnosis.Service.GiveBack | backend/internal/domain/diagnose/diagnose.go:306-310 | refunds what was charged, if anything; what a failed refund or a closed organization leaves debited is what it says was not returned |
| JobQueue.NoJobIsForgotten | backend/internal/adapter/queue/consumer.go:106-216 | with any number of workers dying between any two commands, a job enqueued after the group exists is undelivered or pending with its content intact until its handler succeeded, its type had no handler, or a dead-letter write was attempted |
| JobQueue.SafeAfter | backend/internal/adapter/queue/consumer.go:151-191 | the invariant behind it holds after every run |
| JobQueue.DeadLettersArePreserved | backend/internal/adapter/queue/consumer.go:207-216 | when dead-letter writes succeed every buried job is in the dead stream with its content |
| JobQueue.NoJobIsLost | backend/internal/adapter/queue/consumer.go:151-216 | then a job with a handler that did not succeed is waiting or kept whole in the dead stream |
| JobQueue.EarlierJobsAreNeverDelivered | backend/internal/adapter/queue/consumer.go:97-103 | the group starts at the end of the stream: jobs enqueued before it are never delivered, settled or removed |
| JobQueue.RetriesAreBounded | backend/internal/adapter/queue/consumer.go:151-205 | whenever the pending list answers: with any number of workers and deaths a job is left for a retry at most MaxRetries - 1 times before it is settled, and in all at most that often plus once per worker that comes after |
| JobQueue.LateRetriesFollowSettlement | backend/internal/adapter/queue/consumer.go:193-205 | an answered retry is decided without a real count if and only if its entry has left the pending list and more than one try is allowed; the entry is gone only when another worker settled the job |
| JobQueue.PatienceMakesRetriesInformed | backend/internal/adapter/queue/consumer.go:131-205 | where entries are reclaimed only from nobody's hands there are no such retries, whoever dies, and the bound of MaxRetries - 1 holds for all |
| JobQueue.LateRetriesAreUnbounded | backend/internal/adapter/queue/consumer.go:151-205 | otherwise there can be any number of them: a run for every n |
| JobQueue.DeliveriesStayWithinTheLimit | backend/internal/adapter/queue/consumer.go:131-205 | when workers survive, answers come, acknowledgements remove and nothing is reclaimed early, a job is delivered at most MaxRetries times and is settled once that many are dealt with |
| JobQueue.RankFalls | backend/internal/adapter/queue/consumer.go:106-216 | then every step that does anything with a job lowers its measure and no step raises it |
| JobQueue.JobsTakeFewSteps | backend/internal/adapter/queue/consumer.go:106-216 | so a whole run spends at most six steps per allowed delivery on a job |
| JobQueue.CanAdvance | backend/internal/adapter/queue/consumer.go:106-216 | a job that is not settled can be brought closer to its end within five steps, whatever its handler will answer |
| JobQueue.JobsEndWithinTheLimit | backend/internal/adapter/queue/consumer.go:106-216 | every such run, for any answers of the handler, can be continued by at most 30 MaxRetries + 5 steps after which the job is settled, within MaxRetries deliveries |
| JobQueue.SlowWorkersExceedAnyLimit | backend/internal/adapter/queue/consumer.go:131-147 | jobs reclaimed from slow workers are delivered any number of times, all of them still being worked on |
| JobQueue.EachRuleIsNeeded | backend/internal/adapter/queue/consumer.go:131-205 | none of the four assumptions can be spared: dropping any one of them allows any number of deliveries, an answer only where more than one try is allowed |
| JobQueue.ScriptMeaning | backend/internal/adapter/queue/consumer.go:151-183 | processing a message undisturbed settles it on success and on a type without handler, leaves it pending below the limit, and dead-letters then settles it at the limit |
| JobQueue.Redis.Add | backend/internal/adapter/queue/queue.go:48-68 | appends the job under a new id |
| JobQueue.Redis.GroupCreate | backend/internal/adapter/queue/consumer.go:97-103 | creates the group at the end of the stream, once |
| JobQueue.Redis.ReadGroup | backend/internal/adapter/queue/consumer.go:106-127 | delivers the undelivered entries for the first time |
| JobQueue.Redis.AutoClaim | backend/internal/adapter/queue/consumer.go:131-147 | delivers pending entries once more and drops deleted ones |
| JobQueue.Consumer.Process | backend/internal/adapter/queue/consumer.go:151-183 | takes exactly the steps of the machine for its message |
| JobQueue.Consumer.Settle | backend/internal/adapter/queue/consumer.go:185-191 | acknowledges, then removes; failures change nothing else |
| JobQueue.Consumer.DeliveryCount | backend/internal/adapter/queue/consumer.go:193-205 | the count of the pending entry, or 1 when the broker does not answer or does not know it |
| JobQueue.Consumer.ReadOnce | backend/internal/adapter/queue/consumer.go:106-127 | reads a batch and makes the moves of each of its messages once; a message handled or given up is then acknowledged and removed if those calls went through, given up it is in the dead stream if it could be written, any other stays for a retry, and no other entry is touched |
| JobQueue.Consumer.Reclaim | backend/internal/adapter/queue/consumer.go:131-147 | the same for the pending entries it takes over |
| Monitors.NormalizeIsStable | backend/internal/domain/monitor/rules.go:78-222 | normalizing twice is normalizing once for every type but repositories |
| Monitors.RepositoryIsStableForPlainPairs | backend/internal/domain/monitor/rules.go:126-146 | an accepted repository target is stored under a name the next normalization leaves alone if and only if its first two path segments have no blank ends, the second no ".git", and the first is no host |
| Monitors.PastedPathIsNotStable | backend/internal/domain/monitor/rules.go:135-143 | octo/site.git/issues is accepted and stored as a name that is not stable |
| Monitors.TokensAreVisible | backend/internal/domain/monitor/rules.go:27-28 | the characters of a header name are the visible ASCII ones but the delimiters, as section 5.6.2 of RFC 9110 has it |
| Monitors.NoMasksKept | backend/internal/domain/monitor/rules.go:55-68 | a header set without masks is not changed by restoring masks |
| Monitors.AcceptedIffInForm | backend/internal/domain/monitor/rules.go:78-222 | an input is accepted if and only if it has a stored form (target trimmed, with its scheme or reduced to owner and name; defaults for what is left out; nothing else touched; valid for its type and understood by the network libraries), and that is what is stored |
| Monitors.NormalizedIsReady | backend/internal/domain/monitor/rules.go:78-222 | what normalization lets through is in the form of its type: web targets carry a scheme, repositories are two names, methods, codes, headers and record types are valid and filled in |
| Monitors.CreatedIffAllowed | backend/internal/domain/monitor/service.go:189-228 | a creation goes through exactly for a writer, in a project of the organization, within the quota, for an address that is not blocked, a schedule in range and above the floor, and an input with a normal form |
| Monitors.UpdatedIffAllowed | backend/internal/domain/monitor/service.go:318-407 | the same for an update, of what it changes |
| Monitors.CreateStoresWhatIsAsked | backend/internal/domain/monitor/service.go:189-295 | a creation stores the fields asked for, the defaults for those left out and the normal form of target and settings, within the quota and the interval floor, in a project of the organization, and touches nothing else |
| Monitors.UpdateChangesWhatItNames | backend/internal/domain/monitor/service.go:318-407 | an update gives the fields it names the values it names, target and settings normalized together, leaves every other field, and touches no other monitor; refused it changes nothing |
| Monitors.SetEnabledSetsTheFlag | backend/internal/adapter/postgres/monitor_repo.go:302-318 | the flag is as asked, the status paused or unknown with it, and nothing else differs |
| Monitors.CallsStayWithinTheirOrganization | backend/internal/domain/monitor/service.go:189-474 | no call touches another organization or, from a reader, anything |
| Monitors.TheQuotaHolds | backend/internal/domain/monitor/service.go:209-216 | an organization whose plans never allowed more than so many monitors never has more, over all runs |
| Monitors.TheFloorHolds | backend/internal/domain/monitor/service.go:318-407 | nor one that is probed more often than its plans always allowed |
| Monitors.BuiltIsSane | backend/internal/domain/monitor/service.go:189-295 | what Create stores has a supported type, a valid schedule, a trimmed name, a target and settings in normal form and a heartbeat grace of at least 30 s |
| Monitors.AmendedIsSane | backend/internal/domain/monitor/service.go:318-407 | an update keeps all of that |
| Monitors.ReachableStoresAreSane | backend/internal/domain/monitor/service.go:189-474 | it holds of every store reachable through Create, Update, SetEnabled and Delete, limits and network changing from call to call |
| Monitors.PageIsOfTheProject | backend/internal/adapter/postgres/monitor_repo.go:223-278 | a listing shows monitors of the project and organization asked for, as stored, at most as many as asked for or 50 outside 1 to 200, and leaves one out only where it is full of others that are no older |
| Monitors.SmallProjectIsListedWhole | backend/internal/adapter/postgres/monitor_repo.go:223-278 | a project that fits on one page is listed completely |
| Monitors.Service.CountByOrg | backend/internal/adapter/postgres/monitor_repo.go:336-344 | counts the live monitors of the organization |
| Monitors.Service.Create | backend/internal/domain/monitor/service.go:189-295 | checks in order role, project, quota, target, schedule, interval floor, masks and settings, and stores exactly the normalized monitor |
| Monitors.Service.Update | backend/internal/domain/monitor/service.go:318-407 | merges the given fields, re-validates, and stores the result or nothing |
| Monitors.Service.SetEnabled | backend/internal/adapter/postgres/monitor_repo.go:302-318 | sets the flag and the status that goes with it |
| Monitors.Service.Delete | backend/internal/domain/monitor/service.go:461-474 | removes a visible monitor |
| Monitors.Service.List | backend/internal/domain/monitor/service.go:599-607 | the first page by age with the limit cut as the filter is: outside 1 to 200 it is 50 |
| ConfigSync.DryRunWritesNothing | backend/internal/domain/configsync/sync.go:151-196 | a dry run leaves the store alone |
| ConfigSync.NothingDeletedWithoutPrune | backend/internal/domain/configsync/sync.go:189-206 | without Prune every stored monitor survives any declaration, empty included |
| ConfigSync.DryRunPredicts | backend/internal/domain/configsync/sync.go:168-206 | a dry run lists the same names and actions as a real run without failures, removed read as would-remove |
| ConfigSync.RemoveAllIsPointwise | backend/internal/domain/configsync/sync.go:189-206 | the removals together do what each would do alone on the same store |
| ConfigSync.ItemNamesAreDistinct | backend/internal/domain/configsync/sync.go:168-206 | no two items of a run carry the same name |
| ConfigSync.VisitOrderDoesNotMatter | backend/internal/domain/configsync/sync.go:189-211 | whatever order the map is visited in, a run leaves the same store and the same sorted report |
| ConfigSync.CountersAddUp | backend/internal/domain/configsync/sync.go:353-370 | the six counters sum to the number of items |
| ConfigSync.Service.ValidateNames | backend/internal/domain/configsync/sync.go:333-351 | accepts exactly declarations whose names are non-blank and distinct, trimmed and ignoring case |
| ConfigSync.Service.Create | backend/internal/domain/configsync/sync.go:222-245 | reports or performs one creation; a failure is the item's own |
| ConfigSync.Service.Update | backend/internal/domain/configsync/sync.go:247-269 | reports or performs one update; a failure is the item's own |
| ConfigSync.Service.SortByName | backend/internal/domain/configsync/sync.go:211 | a permutation in order of name |
| ConfigSync.Service.CountItems | backend/internal/domain/configsync/sync.go:353-370 | each counter is the number of items with its action |
| ConfigSync.RunReportsAreTrue | backend/internal/domain/configsync/sync.go:168-206 | a listed entry is reported unchanged if and only if it has the declared settings, the declared target but for case, and the interval, state and visibility that are declared; anything else declared is reported created, updated or failed, and what is listed and not declared as removed, to be removed, or failed |
| ConfigSync.Service.Apply | backend/internal/domain/configsync/sync.go:130-215 | refuses a reader, more than 500 entries and bad names without a write; otherwise the store and the report are those of one run over one listing in some visiting order |
| Convergence.AmendedSettles | backend/internal/domain/configsync/sync.go:298-331 | after an update the declaration is reported changed again if and only if normalization alters its target beyond case or its settings; a repeated update is without effect |
| Convergence.BuiltSettles | backend/internal/domain/configsync/sync.go:222-245 | the same after a creation |
| Convergence.RunSettles | backend/internal/domain/configsync/sync.go:168-206 | after a run without failures the monitor of every declaration has the declared interval, state and visibility and the target and settings declared or their normal form, keeps what is not declared of it, nothing else is altered, and with Prune nothing undeclared is left that was listed |
| Convergence.CreatedAreTheUnseen | backend/internal/domain/configsync/sync.go:168-186 | a run without failures creates exactly the declared names its listing does not show |
| Convergence.NamesStayDifferent | backend/internal/domain/configsync/sync.go:152-206 | a run keeps the names of a small project different |
| Convergence.ApplyingAgainChangesNothing | backend/internal/domain/configsync/sync.go:130-215 | with at most 50 monitors of different names, a second run of a declaration that was applied without failure creates and removes nothing and leaves every monitor as it was; an entry that was written is unchanged the second time if and only if it was in normal form |
| Convergence.NormalDeclarationsAreNotWrittenAgain | backend/internal/domain/configsync/sync.go:295-331 | if every declaration is in normal form the second run writes nothing at all |
| Convergence.BeyondTheListingAllIsNew | backend/internal/domain/configsync/sync.go:160 | of N declarations at least N - 50 are taken for new, because the listing of 1000 asked for is cut to 50 |
| Convergence.ApplyingAgainDuplicates | backend/internal/domain/configsync/sync.go:158-166 | above 50 declarations a second run creates at least N - 50 monitors although every declared name is already there |
| Window.ShownWhenFewAreNewer | backend/internal/adapter/postgres/monitor_repo.go:223-278 | a listing shows a monitor if and only if fewer than its limit are newer |
| Window.SurvivorIsShown | backend/internal/domain/configsync/sync.go:158-206 | after a run without failures a listed monitor that it left is listed again if and only if the created ones and those it left above make fewer than 50 |
| Window.SecondRunCreatesNothingIffItFits | backend/internal/domain/configsync/sync.go:158-206 | in a project of any size a second run creates exactly the declared names its listing lacks, and none if and only if the declared names the first listing lacks and the entries it keeps down to the last declared one number at most 50 together |
| Window.FitsWithPruning | backend/internal/domain/configsync/sync.go:189-206 | with Prune that condition is that at most 50 are declared |
| Window.SecondRunChangesNothingIffItFits | backend/internal/domain/configsync/sync.go:158-206 | without Prune the second run leaves the store as it was if and only if the condition holds |
| Window.PruningGoesOnIffTheRestComesUp | backend/internal/domain/configsync/sync.go:189-206 | with Prune the next run finds more to delete if and only if the first listing left monitors out and fewer than 50 are declared |
| Window.SecondPruningChangesNothingIff | backend/internal/domain/configsync/sync.go:158-206 | with Prune the second run leaves the store as it was if and only if at most 50 are declared and either the first listing left no monitor out or exactly 50 are declared |
| Window.RunKeepsSane | backend/internal/domain/configsync/sync.go:168-206 | a run keeps the stored form of all monitors |
| Overflow.OldestIsCreatedAgain | backend/internal/domain/configsync/sync.go:158-166 | a run of it: 50 monitors, the oldest declared as it is stored beside a new one; two runs without failure, and the second creates the oldest again |
| PlanCap.CapIsASubsequence | backend/internal/adapter/controlplane/syncer.go:117-123 | the output keeps the order of the input and holds exactly the allowed positions |
| PlanCap.CapCount | backend/internal/adapter/controlplane/syncer.go:105-116 | per organization exactly min(count, limit) monitors are kept, none for a limit of zero or less |
| PlanCap.CapKeepsOlder | backend/internal/adapter/controlplane/syncer.go:107-116 | only the oldest are kept, ties by input position |
| PlanCap.CapsCompose | backend/internal/adapter/controlplane/syncer.go:100-124 | capping with a looser limit first makes no difference; capping twice is capping once |
| PlanCap.CapIsMonotone | backend/internal/adapter/controlplane/syncer.go:100-124 | a higher limit keeps at least as much |
| PlanCap.OrgsAreIndependent | backend/internal/adapter/controlplane/syncer.go:101-104 | what is kept of one organization depends on its own monitors and limit only |
| PlanCap.SortStable | backend/internal/adapter/controlplane/syncer.go:108-110 | the positions from old to new, equal ages in input order |
| PlanCap.CapToPlan | backend/internal/adapter/controlplane/syncer.go:100-124 | grouping, sorting and filtering compute the cap by rank |
| Generator.SanitizedUuid | backend/internal/adapter/controlplane/generator.go:292 | dropping the dashes of an id leaves its 32 digits |
| Generator.NamesAreInjective | backend/internal/adapter/controlplane/generator.go:62-64 | different monitors get different job, module and label names |
| Generator.DwellOutlastsAProbe | backend/internal/adapter/controlplane/generator.go:267-290 | only an immediate monitor goes off on one missed probe; the sensitivities are ordered |
| Generator.Generate | backend/internal/adapter/controlplane/generator.go:36-92 | the loop computes the projection, or the first failure |
| Generator.ProjectionIsWellFormed | backend/internal/adapter/controlplane/generator.go:36-165 | for every reachable store and any plans the projection succeeds; every scrape has 1 <= timeout <= interval, a job and a module of its own, and no module is without a scrape |
| Generator.SaneModuleBuilds | backend/internal/adapter/controlplane/generator.go:96-141 | for a normalized monitor no fallback of the generator ever stands in for a stored value, a blank DNS name excepted |
| Generator.EachKeptMonitorIsProbedAsStored | backend/internal/adapter/controlplane/generator.go:66-165 | every probed monitor the plans leave has a scrape with its own timing and labels whose module does what is stored for it |
| Generator.CertificatesAreWatchedAsDeclared | backend/internal/domain/monitor/rules.go:147-187 | from the declaration through every later accepted change, normalization, plans and generation: a web monitor is warned about its certificate if and only if the days declared last are positive, or none were declared and a secure target or the SSL type was seen since, which means 30; with that threshold; an HTTP one only if its target begins with https:// |
| Generator.HttpsTypeAloneIsNotWatched | backend/internal/domain/monitor/rules.go:183-185 | an HTTPS monitor with an http:// target and no days is accepted and never warned about |
| Generator.EachMonitorIsWatched | backend/internal/adapter/controlplane/generator.go:197-261 | in the generated document each probed monitor has one rule that goes off when its probe fails for as long as its sensitivity says, one for slowness and one for the certificate exactly where asked for, with their thresholds, and each heartbeat one for silence beyond its interval and grace; all labelled with it |
| Generator.RulesMatch | backend/internal/adapter/controlplane/generator.go:197-261 | the rules labelled with a monitor are exactly those built for it |
| Generator.RulesAreAttributed | backend/internal/adapter/controlplane/generator.go:185-193 | a heartbeat has one rule and no scrape, a repository neither, and every rule carries the labels, organization included, of a listed monitor |
| Syncer.ReadersSeeWholeFiles | backend/internal/adapter/controlplane/syncer.go:128-155 | at every moment of every run each file is wholly what it was at first or wholly the projection of some committed versions |
| Syncer.FilesNeverGoBackwards | backend/internal/adapter/controlplane/syncer.go:53-86 | over concurrent and crashing syncs the snapshots behind each file never go backwards |
| Syncer.AFinishedSyncIsPublished | backend/internal/adapter/controlplane/syncer.go:53-86 | when a sync has written, all files show one pair of snapshots taken no earlier than the call, and never anything older from then on |
| Syncer.AChangeIsPublished | backend/internal/adapter/controlplane/syncer.go:53-86 | a committed change is in all three files after the next sync that nothing disturbs, from any state, provided it can be projected |
| Syncer.AnUndisturbedSyncPublishes | backend/internal/adapter/controlplane/syncer.go:53-86 | left alone, a call that has the lock publishes the latest snapshots |
| Syncer.PublishedWhole | backend/internal/adapter/controlplane/syncer.go:53-86 | published means the modules under the first path, the scrapes under the second and the rules under the third |
| Syncer.Syncer.WriteAtomic | backend/internal/adapter/controlplane/syncer.go:128-155 | the file is replaced or untouched; all that can be left over is a temporary file that could not be removed |
| Syncer.Syncer.Sync | backend/internal/adapter/controlplane/syncer.go:53-95 | replaces the three files in order up to the first failing write, from one projection; succeeds only if the reloads do |
| Headers.ParsingUndoesPrinting | ios/Sources/Networking/DTOs.swift:65-79 | parsing printed headers gives them back, if names are tokens and values single lines without blank ends |
| Headers.UneditedFormKeepsHeaders | ios/Sources/Networking/DTOs.swift:65-79 | every header set the server accepts survives being masked, printed, parsed and restored |
| Headers.StoredHeadersSurviveTheForm | ios/Sources/Networking/DTOs.swift:65-79 | so do the headers of every web monitor of every reachable store |
| Headers.EditingOneLine | ios/Sources/Networking/DTOs.swift:65-79 | replacing one line of the form by any other: a new value is taken, a line without a name removes the header, the mask keeps it, a mask under a new name is refused, and of two lines that name one header the later in order of the names counts; a line ending in a return takes the next line with it, which the server refuses, or which removes both headers if nothing stands before the colon or a later line has the name |
| Headers.HeadersFromLines | ios/Sources/Networking/DTOs.swift:71-79 | the loop computes the parse; nothing left means no headers |
| Headers.HeaderSet.KeepMaskedHeaders | backend/internal/domain/monitor/rules.go:55-68 | in any visiting order restores all masks or refuses if and only if one has nothing saved behind it |
| Sealing.OpenAfterSeal | backend/internal/adapter/postgres/monitor_repo.go:39-70 | what is sealed reads back as it was and leaves no plaintext |
| Sealing.MigrationIsInvisible | backend/internal/adapter/postgres/monitor_repo.go:75-125 | in every interleaving of passes and user saves what is read is exactly what the users last saved |
| Sealing.ACompletePassSealsEverything | backend/internal/adapter/postgres/monitor_repo.go:75-125 | once a pass has dealt with every row it read no row holds plaintext, whatever other passes and users did meanwhile |
| Sealing.EachRewriteIsCountedOnce | backend/internal/adapter/postgres/monitor_repo.go:75-125 | however passes and users interleave each row that held plaintext is counted by exactly one pass, or was saved or removed by a user, or holds plaintext still |
| Sealing.TheNextPassRewritesNothing | backend/internal/adapter/postgres/monitor_repo.go:72-74 | after that every later pass counts zero rewrites |
| Sealing.HeaderSet.Open | backend/internal/adapter/postgres/monitor_repo.go:55-70 | opens every sealed value in place, an unreadable one as empty |
| Sealing.NothingIsLostWhereLegible | backend/internal/adapter/postgres/monitor_repo.go:75-125 | over all keys at once: where the key in use opens everything that is sealed beside plaintext no pass loses anything that any key could read |
| Sealing.IllegibleIsLost | backend/internal/adapter/postgres/monitor_repo.go:104-115 | and nowhere else: beside plaintext, a value only another key reads is empty for good after one pass over the row |
| Sealing.Repository.SealLegacyHeaders | backend/internal/adapter/postgres/monitor_repo.go:75-125 | one pass seals every plaintext row, or those before a failing one, counts them, and changes no other row and nothing that is read |
| Auth.RunsAreSound | backend/internal/domain/auth/service.go:613-700 | every run of sign-ins, refreshes, logouts, resets, deactivations and clean-ups keeps the token, exchange and link invariants |
| Auth.RotationIsSafe | backend/internal/domain/auth/service.go:613-644 | with service calls one at a time each sign-in has at most one usable descendant token and no token is ever accepted twice |
| Rotation.AcceptedUntilEnded | backend/internal/domain/auth/service.go:613-644 | statement by statement: a lookup accepts a token if and only if nothing has revoked it before, it has not expired, and the account is in order |
| Rotation.BothAcceptedIffNothingEndsBetween | backend/internal/domain/auth/service.go:613-644 | two refreshes of one token are both accepted if and only if both lookups precede the first revocation |
| Rotation.TwoRefreshesBothSucceed | backend/internal/adapter/postgres/refresh_token_repo.go:55-62 | from any state with a usable token six statements make two refreshes of it succeed and leave the sign-in two usable tokens |
| Rotation.CallSucceedsIffAccepted | backend/internal/domain/auth/service.go:613-644 | a refresh that goes through all its statements succeeds, with a usable token of the same sign-in, if and only if its lookup accepted and its issue did not fail; whatever ended the token in between makes no difference |
| Rotation.LogoutIsOutrunIffLookedUpBefore | backend/internal/domain/auth/service.go:613-658 | a refresh that is not done when the owner leaves yields a usable token if and only if its lookup came before the logout and its issue did not fail |
| Rotation.ALogoutIsOutrun | backend/internal/domain/auth/service.go:613-658 | a run of that, from any state with a usable token |
| Auth.TokensAreIssuedInOrder | backend/internal/domain/auth/service.go:613-700 | a token is issued only to an active account, for the full time, by a sign-in, of which it is the first, or for a usable token of the same sign-in |
| Auth.ATokenWorksUntilEnded | backend/internal/domain/auth/service.go:613-700 | whatever happens after a token was issued it is accepted if and only if no logout with it, no exchange of it and no reset of its user ended it, its time is not over, and its account is in order |
| Auth.ALogoutEndsItsSession | backend/internal/domain/auth/service.go:648-658 | after a logout with a token, for good: it is refused, and if it was the live one its sign-in never has a usable descendant again; every other token stays as it is |
| Auth.ARemovedAccountIsOver | backend/internal/domain/auth/service.go:613-644 | once an account is removed nobody signs in to it and none of its tokens is accepted, for good |
| Auth.ALinkWorksUntilThePasswordChanges | backend/internal/domain/auth/service.go:125-203 | a mailed link works until its time is over or the password has been changed, by it or any other, while the account is in order |
| Auth.AResetEndsEarlierSessions | backend/internal/domain/auth/service.go:162-203 | after a successful reset no token the user had before is usable, no earlier sign-in ever has a usable descendant again, and no link issued before works, for good |
| Auth.AHalfResetEndsLinks | backend/internal/domain/auth/service.go:193-198 | should revoking fail after the password changed, the links are over all the same |
| Auth.Service.Create | backend/internal/adapter/postgres/refresh_token_repo.go:27-36 | inserts the token |
| Auth.Service.Revoke | backend/internal/adapter/postgres/refresh_token_repo.go:55-62 | revokes once; a second time changes nothing |
| Auth.Service.RevokeAllForUser | backend/internal/adapter/postgres/refresh_token_repo.go:66-73 | revokes exactly the live tokens of the user |
| Auth.Service.DeleteExpired | backend/internal/adapter/postgres/refresh_token_repo.go:77-83 | removes exactly the expired tokens and counts them |
| Auth.Service.IssueTokens | backend/internal/domain/auth/service.go:667-700 | stores one new live token, or nothing |
| Auth.Service.Refresh | backend/internal/domain/auth/service.go:613-644 | an unusable token is refused unchanged; otherwise it is revoked before its successor is stored |
| Auth.Service.Logout | backend/internal/domain/auth/service.go:648-658 | revokes the presented token; an unknown one is fine |
| Auth.TheAnswerRevealsNoAccount | backend/internal/domain/auth/service.go:125-157 | the answer to a reset request is the same for an active account and for none unless signing the link fails, and only then |
| Auth.Service.RequestPasswordReset | backend/internal/domain/auth/service.go:125-157 | issues a link bound to the current password for an active account, silently nothing for any other; without a mailer, on a failing read or a failing signature it says so and issues nothing |
| Auth.Service.ResetPassword | backend/internal/domain/auth/service.go:162-203 | checks length, expiry, account and fingerprint, sets the password, then revokes |
| Session.NeverTwoInFlight | ios/Sources/Auth/SessionStore.swift:74-89 | however many callers want a refresh and whatever is lost, two are never in flight |
| Session.EachRefreshPresentsAnUnspentToken | ios/Sources/Auth/SessionStore.swift:74-89 | unless a reply is lost the client never presents a token that was accepted before |
| Session.EachRefreshPresentsAUsableToken | ios/Sources/Auth/SessionStore.swift:35-93 | without sign-out, reset or lost replies each refresh presents a usable token until it expires, and is granted to an active user |
| Session.ClearedForGoodIffHopeless | ios/Sources/Auth/SessionStore.swift:42-89 | whatever has happened since the client was installed, once it is without tokens it stays so until the next sign-in if and only if no refresh on its way can still bring any: none was granted and none presents a token that may yet be exchanged |
| Session.ASignOutLasts | ios/Sources/Auth/SessionStore.swift:42-51 | a sign-out with no refresh on its way ends the token on the server and leaves the client without one until the next sign-in, whatever happens |
| Session.ClearedComesBack | ios/Sources/Auth/SessionStore.swift:42-89 | any such refresh gives it tokens again within three steps, none of them a sign-in |
| Session.SignOutIsUndone | ios/Sources/Auth/SessionStore.swift:42-89 | from any client in use: refresh wanted, served, signed out, answer delivered, and it holds a token the server honours |
| Session.SessionStore.RefreshAccessToken | ios/Sources/Auth/SessionStore.swift:74-89 | a caller joins the refresh in flight, has nothing to refresh, or starts one |
| Session.SessionStore.RefreshEnded | ios/Sources/Auth/SessionStore.swift:78-87 | adopts the new tokens or reports failure, and is no longer busy |
| Session.Perform | ios/Sources/Networking/APIClient.swift:61-104 | at most one refresh and one retry; a 401 that remains ends the session |
| Dispatcher.CacheRefinesLookups | backend/internal/domain/notification/dispatcher.go:74-136 | the cached loop does exactly what a lookup per event does |
| Dispatcher.OneLookupPerOrg | backend/internal/domain/notification/dispatcher.go:105-116 | each organization is looked up once if one of its events needs it, otherwise never |
| Dispatcher.EachEventHasOneFate | backend/internal/domain/notification/dispatcher.go:78-134 | every event with an organization is withheld and recorded exactly when the check made for it found its monitor covered, else fanned out to all channels once, else left to the fallback; what goes out says the event, with its analysis if it fires and without if it is over |
| Dispatcher.FailedChecksNeverSuppress | backend/internal/domain/notification/dispatcher.go:86-97 | a failing maintenance check is as good as one that finds no window |
| Dispatcher.OneFailingChannelChangesNothingElse | backend/internal/domain/notification/dispatcher.go:200-218 | however deliveries to one channel turn out everything else happens just the same |
| Dispatcher.Deliver | backend/internal/domain/notification/dispatcher.go:131-134 | every channel is attempted in order with the same message |
| Dispatcher.DispatchAlerts | backend/internal/domain/notification/dispatcher.go:74-136 | the loop computes the cached form |
| GitHubIngest.ResolvedExactlyAfterFiring | backend/internal/domain/githubactions/githubactions.go:102-180 | when only SetEnabled pauses and resumes, Resolved answers exactly an acted success that follows a firing with no acted success and no SetEnabled call between; Firing answers exactly the acted failures |
| GitHubIngest.EnablingForgetsAFailure | backend/internal/adapter/postgres/monitor_repo.go:302-318 | it takes no pause: enabling an enabled monitor between failure and success loses the recovery |
| GitHubIngest.QuietReportsChangeNoAlert | backend/internal/domain/githubactions/githubactions.go:117-156 | a report that is filtered out, cancelled or taken while paused alerts nobody, and the run without it has the same alerts everywhere else |
| GitHubIngest.EveryReportIsRecorded | backend/internal/domain/githubactions/githubactions.go:123-142 | every report that passes the workflow filter is recorded, in order, and nothing is ever taken out |
| GitHubIngest.ResumedByUpdateNeverResolves | backend/internal/adapter/postgres/monitor_repo.go:417-442 | a monitor paused by SetEnabled and resumed by Update keeps the status paused and never announces a recovery |
| GitHubIngest.Service.ApplyStatus | backend/internal/adapter/postgres/monitor_repo.go:417-442 | passes over disabled and paused monitors |
| GitHubIngest.Service.Ingest | backend/internal/domain/githubactions/githubactions.go:102-180 | filters, records, classifies, alerts and stores the status, in that order |
| Maintenance.BatchEqualsPointwise | backend/internal/adapter/postgres/maintenance_repo.go:143-194 | the batch query and the query for one monitor agree on every monitor at every instant over every store |
| Maintenance.WindowsCoverWhatTheyList | backend/internal/adapter/postgres/maintenance_repo.go:169-194 | in every reachable store exactly the live monitors of the organization are covered that one of its active windows lists, a window without ids listing everything |
| Maintenance.DeclaredIsWithheld | backend/internal/domain/maintenance/service.go:55-83 | from the creation of a window on, whatever else is done, until a writer of its organization changes or deletes it, every live monitor it was declared for is covered for the time it was declared for |
| Maintenance.DeletedIsGone | backend/internal/domain/maintenance/service.go:140-155 | a deleted window is gone until it is declared anew |
| Maintenance.CreateStoresTheWindow | backend/internal/domain/maintenance/service.go:55-83 | a window is stored as put in, its non-nil ids once each, if and only if a writer asks and it is acceptable; nothing else is touched |
| Maintenance.UpdateChangesTheWindow | backend/internal/domain/maintenance/service.go:97-136 | an update gives the fields it names the values it names, leaves the rest and every other window, and refused changes nothing |
| Maintenance.ReachableWindowsAreCanonical | backend/internal/domain/maintenance/service.go:55-136 | whatever is created, updated and deleted, every window ends after it starts, lists ids exactly unless it covers the organization, and lists each once and none that is nil |
| Maintenance.DedupedIsCanonical | backend/internal/domain/maintenance/service.go:206-220 | the same ids but nil, once each, in the order they are first seen |
| Maintenance.BackToBackCoversExactlyOnce | backend/internal/domain/maintenance/maintenance.go:65-67 | windows back to back cover the time from the first start to the last end exactly once and nothing else |
| Maintenance.SplittingAWindowChangesNothing | backend/internal/adapter/postgres/maintenance_repo.go:143-163 | a window split in two at any instant inside it withholds the same alerts |
| Maintenance.DedupeIds | backend/internal/domain/maintenance/service.go:206-220 | the loop computes the canonical list |
| Maintenance.Validate | backend/internal/domain/maintenance/service.go:178-202 | accepts exactly the valid windows |
| Maintenance.Service.Create | backend/internal/domain/maintenance/service.go:55-83 | stores the canonical window or nothing |
| Maintenance.Service.Update | backend/internal/domain/maintenance/service.go:97-136 | merges the given fields, re-validates, and stores the result or nothing |

## Left out

- Transports and foreign services (HTTP, SMTP, payment and push services, sign-in providers, model calls): their answers are parameters.
- The project service: which project a declaration means is a parameter, and a dry run may find none.
- The plan package: limits, the effective plan and the price of credit are parameters.
- The text of the generated files, queries and annotations, the quoting of patterns, JSON and URLs: artifacts and settings are typed values, and settings are equal when their fields are.
- Letter case and blanks beyond ASCII and Latin-1 in the server's string operations, and lengths in bytes: text is a sequence of code points; of what the client counts as one character only a return with the newline after it is joined.
- 64-bit overflow of balances, and the trimming of the stream at its cap.
- Failing reads from the database other than the listing of a sync; name and length checks of the database count as failing writes.
- That restoring masks rewrites the caller's header map, which a declaration and its update share: each declaration is used once per run.
- Error messages, audit records, and times other than the ones a decision depends on.
- Sorting is an insertion on sequences instead of the library's in-place sort; its contract is the same.
- Several worker processes publishing to the same files: the lock is one process's, as deployed.
- Diagnosis.AllowanceOverrunIsBounded: the organization stays on one tier for the run; a change of tier in mid-month changes the limit.
- JobQueue.RetriesAreBounded: says nothing of retries decided while the pending list does not answer; each of them counts as a first delivery.
- JobQueue.JobsEndWithinTheLimit: says that the steps needed are there, not that a scheduler takes them; without the four assumptions it is false, see JobQueue.EachRuleIsNeeded.
- Auth.RotationIsSafe: takes each service call as one step; Rotation.BothAcceptedIffNothingEndsBetween says when that matters.
- GitHubIngest.ResolvedExactlyAfterFiring: takes reports to one monitor one at a time and status writes as succeeding.
- Session.Perform: only success, 401 and other failures are told apart, and one caller is followed at a time: how a refresh started by another caller ends is given from outside.
- Window.SecondRunCreatesNothingIffItFits: assumes creation times that differ, names that differ and a clock that advances; where times tie, which monitor is listed is the database's choice.
- Window.PruningGoesOnIffTheRestComesUp: assumes, as Window.SecondPruningChangesNothingIff does, that no monitor outside the first listing has a declared name.
- Convergence.ApplyingAgainChangesNothing: assumes plan limits and the acceptance of targets do not change between the two runs, and no declared header value is the mask.
- Dispatcher.CacheRefinesLookups: channels and their availability are constant during a call; a lookup that fails is remembered as no channels for the rest of the call.
- Frontend pages, the web client's token refresh, insight metrics, status pages and configuration parsing: presentation, and calculations that touch no other component.
