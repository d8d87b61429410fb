# Voice agent control plane: verified model

A Dafny 4.11 model of the durable state machines of a voice agent control plane
written in Go over PostgreSQL: the billing webhook inbox and the subscription
register behind it, tool execution with its frozen session snapshots, call and
session lifecycle with runtime metering, identity tombstones, and agent capacity.

SQL statements are atomic steps over tables, NULL is `Option` with three-valued
comparison, time is whole microseconds, ids and lease tokens are numbers, and
`FOR UPDATE` is a row lock held to the end of the transaction. An event that would
wait for a lock, or whose statement matches no row, leaves the state as it is. A run
is any sequence of events, so a statement about all runs covers every interleaving
of workers, crashes, retries and outside writers.

Where the Go code works step by step there is a class: its methods carry out the
statements on mutable tables, each is proved to be one step of the run recorded in
the ghost field `history`, and the drivers (`RunOnce`, `Execute`, `AttachCall`,
`DeployPortable`) call them with arbitrary events of everybody else in between. The
invariants of all runs then hold of the tables at every point of every driver.

| files | subject |
|---|---|
| `Sql`, `Text` | NULL, three-valued logic, time units; blanks around text |
| `Subscriptions`, `Convergence`, `Register` | the guarded upsert, identity, delivery orders; many organizations, transaction overlays |
| `Access`, `Calendar` | the paid-access policy in its three forms, usage windows, the Gregorian month |
| `Polar`, `Translation` | translation of provider values, column by column, and what access they give; payment grace |
| `Inbox`, `InboxSafety`, `InboxTheorems`, `InboxOutcomes`, `InboxGrace` | the inbox as a state machine, its invariants and results, what becomes of a receipt |
| `BillingStore`, `BillingWorker`, `Recovery`, `Paging` | the tables, the webhook worker, recovery, the reconciliation loop |
| `Binary64`, `Rounding`, `Json` | decimals rounded to float64, and the argument comparison |
| `ToolCatalog`, `CatalogEdits`, `Snapshot` | tool edits, freezing and resolution |
| `ToolProtocol`, `ToolSafety`, `ToolOutcomes`, `ToolStore` | tool execution, where its results come from |
| `Sessions`, `CallOutcomes`, `AttachStore` | calls, sessions, attachment |
| `Metering`, `MeteringScope`, `MeteringRuns` | used seconds: at one state, whose they are, over runs |
| `Identity`, `IdentityOutcomes` | disable events, sign-in, login sessions, profiles |
| `Capacity`, `DeploymentStore` | plan limits and package deployment |

Verify with `dafny verify dfyconfig.toml`.

## What turned out false of the code

Each has a lemma with an input, and one that says exactly when the code does meet the
property.

- Payment grace can lose its start: a Go zero time is stored as NULL, so a past-due
  event dated with it stores a deadline without a start
  (`Polar.ZeroPastDueBreaksGrace`; exactly when: `Polar.ProposedGrace` for the proposed
  row, `Polar.StoredRowGrace` for the stored one). Such a row is repaired by the next
  event that the guard admits and that is not dated so (`Polar.BrokenRowHeals`).
- Delivery order can matter. For one subscription the guard admits equal timestamps, so
  ties at the newest one with different columns diverge (`Subscriptions.TiesDiverge`;
  exactly when: `Subscriptions.Convergence`). With two subscriptions it loses the newer
  one when the older one's cancellation comes after it
  (`Subscriptions.TwoSubscriptionsDoNotConverge`; exactly when, for any writes:
  `Convergence.ConvergenceOfAny`).
- Different tool arguments are taken for the same, because numbers are compared as
  float64: 2^53 + 1 for 2^53, and 1.00000000000000000001 for 1
  (`Json.ConfusedArguments`). Stored arguments accept no other request if and only if
  they hold no number (`Json.SameJsonExact`); where both sides hold only integers of at
  most 2^53 the comparison is equality (`Json.SameJsonOnSafeIntegers`).
- The very request that was stored is refused when it says -0, which `jsonb` stores as
  0 (`Json.MinusZeroIsRefused`; exactly when: `Json.OwnRequest`).
- The used seconds depend on whether a session of an ended call is closed by the
  completion or by reconciliation: ten seconds, or five, or sixty
  (`MeteringRuns.CompletionRacesReconciliation`; exactly when, in one step:
  `Metering.FinishFreezesMeter`; over all runs: `MeteringRuns.ReconcileAnyTime`).
- One enabled tool with null parameters, which the create request admits, makes every
  tool of later sessions of that agent unresolvable
  (`Snapshot.NullParametersDenyAll`; exactly when: `Snapshot.FrozenToolResolves`).
- The reconciliation loop passes over an organization with the nil id, which no
  generated id is (exactly when: `Paging.Reconcile`).

## Model

| member | source | states |
|---|---|---|
| Subscriptions.GuardMeaning | server/internal/database/sqlc/subscriptions.sql.go:420-435 | the upsert's WHERE under three-valued logic, in two-valued terms: which proposed rows overwrite a stored row whatever columns are NULL |
| Subscriptions.RegisterIdentity | server/internal/database/sqlc/subscriptions.sql.go:420-435 | over any writes, also ones without a provider, the stored provider timestamp never decreases or becomes NULL and a set customer id never changes |
| Subscriptions.SubscriptionChangesOnlyWhenCanceled | server/internal/database/sqlc/subscriptions.sql.go:420-435 | a set subscription id is replaced only at a moment when the row carrying it is canceled |
| Subscriptions.LastWriterWins | server/internal/database/sqlc/subscriptions.sql.go:389-435 | from no row, for one customer and one subscription, the stored core columns are those of the last delivered write among the newest by provider timestamp |
| Subscriptions.Convergence | server/internal/database/sqlc/subscriptions.sql.go:389-435 | delivery order and duplication are irrelevant to the core columns if and only if no two newest writes tie with different columns |
| Subscriptions.TiesDiverge | server/internal/database/sqlc/subscriptions.sql.go:420-426 | two writes with one provider timestamp: the stored columns are those of whichever comes last |
| Subscriptions.TwoSubscriptionsDoNotConverge | server/internal/database/sqlc/subscriptions.sql.go:420-435 | two delivery orders of three writes with two subscription ids that end in different rows |
| Convergence.ConvergenceOfAny | server/internal/database/sqlc/subscriptions.sql.go:389-435 | for any writes to an organization, of any subscriptions, customers and NULLs: order and duplication are irrelevant to the core columns if and only if some write c is such that every other one carries its columns or gives way to it, a row with its columns letting c in and c keeping it out; then the stored columns are those of c |
| Convergence.GivesWayMeaning | server/internal/database/sqlc/subscriptions.sql.go:420-435 | between dated writes for one customer, v gives way to c iff it is older and of the same subscription or canceled, or ties, is of another subscription and canceled while c is not |
| Subscriptions.StoredIsOneOfTheSent | server/internal/commercial/subscriptions/service.go:35-70 | after any accepted requests the row is sound: a plan, a supported status, its period, grace pair and provider identity in order; and all its columns except the grace pair are those of one accepted request, the zero time stored as NULL |
| Subscriptions.Table.UpsertOrganizationSubscription | server/internal/database/sqlc/subscriptions.sql.go:354-437 | insert, guarded overwrite with the grace CASE, or no row; the table afterwards |
| Subscriptions.Table.Sync | server/internal/commercial/subscriptions/service.go:35-70 | refuses the nil organization and an invalid request, otherwise upserts; an admitted request is stored column by column as it was sent, the zero time as NULL and the grace pair kept where the same subscription stays past due; a filtered one returns the row that stands |
| Access.EntitlementPolicy | server/internal/database/sqlc/subscriptions.sql.go:112-127 | for every row with any column NULL and every instant, the entitlement join delivers the plan exactly when `PaidAccessActive` grants access |
| Access.RetentionPolicy | server/internal/database/sqlc/retention.sql.go:64-79 | so does the retention join |
| Access.WindowContainsNow | server/internal/commercial/limits/service.go:34-74 | the usage window always contains the instant asked about, in grace beyond the paid period and in the free month too |
| Access.FreeWindowsTile | server/internal/commercial/limits/service.go:42-54 | free windows asked for from anywhere in a month coincide, and the next one starts where one ends |
| Access.PaidWindow | server/internal/commercial/limits/service.go:42-54 | a paid window begins with the period and ends with it, or with the later end of the grace while past due; all instants of paid access have the same window and lie in it |
| Calendar.CalendarMonthIs | server/internal/commercial/limits/service.go:71-74 | it is the month between whose starts the instant lies, where starts are added up from January 1970 by the lengths of the Gregorian months |
| Calendar.CalendarMonthContains | server/internal/commercial/limits/service.go:71-74 | the UTC calendar month computed for an instant contains it |
| Calendar.CalendarMonthsTile | server/internal/commercial/limits/service.go:71-74 | calendar months neither overlap nor leave gaps |
| Calendar.EpochMonth | server/internal/commercial/limits/service.go:71-74 | the month of the Unix epoch is January 1970, which anchors the calendar to the clock |
| Polar.PlanCodeFromProduct | server/internal/commercial/billing/service.go:290-302 | the first of developer, pro and scale whose configured product, trimmed, is not empty and equals the product, or an error |
| Polar.BuiltRequestsAreValid | server/internal/commercial/billing/service.go:189-259 | every request built from a provider value is dated and identified by its trimmed ids and passes `validateSync`, whichever stale row was read |
| Translation.TranslatesExactly | server/internal/commercial/billing/service.go:194-220 | a provider value is accepted exactly when organization, metadata and customer agree, its product is configured for a plan that exists, its ids are not blank, and its timestamp and period are real, unless the row read ends a grace before it starts |
| Translation.WrittenRow | server/internal/commercial/billing/service.go:221-280 | the proposed row column by column: the plan of the product; each provider status as its stored one, canceled and unpaid as canceled, incomplete, paused and any other as incomplete; period, trial end and cancellation as sent; the trimmed ids; the event's time; and the grace pair that was read for the same past-due subscription or three days from the provider's date |
| Translation.AccessAfterEvent | server/internal/commercial/subscriptions/service.go:75-94 | once the guard has admitted a value, paid access is given exactly as its status says: never for a canceled, unpaid, incomplete, paused or unknown one, exactly within its period for an active one, up to the trial's end for a trialing one, within the stored grace for a past-due one |
| Polar.ProposedGrace | server/internal/commercial/billing/service.go:221-242 | the proposed row has a proper three-day grace pair if and only if it continues an open episode whose pair is proper or starts one at a time that is not stored as NULL, whatever row was read |
| Polar.StoredRowGrace | server/internal/database/sqlc/subscriptions.sql.go:389-435 | over any stored row: where the guard filters the update out or the CASE keeps the pair, the row is proper afterwards if and only if it was, and otherwise if and only if the proposed one is |
| Polar.BrokenRowHeals | server/internal/database/sqlc/subscriptions.sql.go:389-435 | a past-due row that has lost an end of its pair to NULL is proper again after an event if and only if the guard admits it and it is not dated so as to lose one again |
| Polar.ZeroPastDueBreaksGrace | server/internal/commercial/billing/service.go:234-241 | a past-due event dated with the zero time stores a deadline without a start |
| Polar.GraceSurvives | server/internal/database/sqlc/subscriptions.sql.go:396-413 | past-due rows with a deadline three days after their start, and no pair elsewhere, survive every interleaving of such writes |
| Polar.EpisodeKeepsDeadline | server/internal/database/sqlc/subscriptions.sql.go:396-413 | within one unbroken past-due episode neither end of the grace pair changes, in whatever order events arrive |
| Polar.GraceCannotBeStretched | server/internal/commercial/subscriptions/service.go:75-94 | no sequence of writes during one episode grants access three days after its start or later |
| InboxGrace.GraceInEveryRun | server/internal/commercial/billing/service.go:221-257 | in every run of the inbox, the row read and the row written any number of transactions apart, stored rows obey the three-day rule |
| InboxGrace.EpisodeEndsInThreeDays | server/internal/commercial/subscriptions/service.go:75-94 | while all writes of a run leave an organization past due, its access ends three days after the start first seen |
| InboxGrace.PairsStayOrdered | server/internal/commercial/subscriptions/validation.go:17-24 | in every run no stored, staged or read row ends its grace before it starts |
| InboxSafety.RunKeeps | server/internal/commercial/billing/jobs.go:73-197 | every run of claims, transactions, crashes, takeovers, retries, reaping, cleanup and outside writes keeps: lease and lock time set iff processing, at most eight attempts, one lease per receipt, serial transactions, one commit per receipt, the register equal to the replayed log |
| InboxTheorems.ExactlyOnceCommit | server/internal/commercial/billing/jobs.go:109-164 | a receipt is processed iff exactly one transaction carrying its effect committed; ignored and dead-lettered ones have none; none ever has two, deleted receipts included |
| InboxTheorems.RegisterIsReplayOfLog | server/internal/commercial/billing/jobs.go:118-163 | whatever transactions overlapped, every row is the replay of the committed effects in commit order, each once, from the beginning and between any two states |
| InboxTheorems.RegisterIdentityOverRuns | server/internal/database/sqlc/subscriptions.sql.go:420-435 | between any two moments of any run of the inbox the stored timestamp never decreases, a set customer never changes, and a set subscription id is replaced only if the replay of the effects committed in between holds a canceled row carrying it |
| InboxTheorems.LostLeaseStaysLost | server/internal/database/sqlc/billing_webhook_events.sql.go:15-40 | a lease taken over, completed, failed or reaped never comes back |
| InboxTheorems.FencedForever | server/internal/database/sqlc/billing_webhook_events.sql.go:72-83 | whatever happens after its lease is gone, a worker still bound to it can neither complete nor fail the receipt nor commit any effect |
| InboxTheorems.LeaseHeldThroughTransaction | server/internal/commercial/billing/jobs.go:146-159 | inside the transaction the locked row keeps the lease: the lost-lease error of `process` is unreachable |
| InboxTheorems.MeasureFalls | server/internal/database/sqlc/billing_webhook_events.sql.go:109-120 | every change of a receipt strictly lowers a non-negative measure of remaining attempts and status |
| InboxTheorems.BoundedLife | server/internal/database/sqlc/billing_webhook_events.sql.go:15-40 | a receipt changes at most sixteen times from its arrival on, in any run |
| InboxTheorems.NoStrandedReceipt | server/internal/database/sqlc/billing_webhook_events.sql.go:244-255 | an unfinished receipt that no transaction holds can be claimed, or is reaped, after waiting at most 64 seconds |
| InboxTheorems.ClaimFindsWork | server/internal/database/sqlc/billing_webhook_events.sql.go:15-40 | if anything can be claimed an idle worker with a new lease claims a receipt, and none that it passes over arrived earlier |
| InboxTheorems.RetryDelaysBounded | server/internal/commercial/billing/jobs.go:207-216 | the retry delays of a receipt total at most 127 seconds in any run |
| InboxOutcomes.ClaimTakesOldest | server/internal/database/sqlc/billing_webhook_events.sql.go:15-40 | a claim takes the receipt that came first among those due and not locked, with fewer than eight attempts, due for their next one or left behind for more than a minute; it leaves it processing under the new lease, with one more attempt, all else as before |
| InboxOutcomes.LeaseLastsAMinute | server/internal/database/sqlc/billing_webhook_events.sql.go:15-40 | within a minute of its claim nobody but its holder changes a processing receipt, in any run |
| InboxOutcomes.AttemptsAreClaims | server/internal/database/sqlc/billing_webhook_events.sql.go:15-40 | in every run the attempts of a receipt are the number of times it has been claimed |
| InboxOutcomes.RetryTable | server/internal/commercial/billing/jobs.go:207-216 | the retry delays are 1, 2, 4, ... 256 seconds and 300 from the tenth attempt on |
| InboxOutcomes.FailDecides | server/internal/commercial/billing/jobs.go:166-197 | where the row is free and carries the lease, a failure dead-letters the receipt iff it is permanent or at least eight attempts were made, and otherwise makes it due after the delay of that attempt; else nothing changes |
| InboxOutcomes.DeadLetterHasCause | server/internal/commercial/billing/jobs.go:166-197 | in every run a dead-lettered receipt was given up by a permanent failure, by a failed eighth attempt, or by reaping an eighth attempt left behind for more than a minute |
| InboxOutcomes.PermanentHasCause | server/internal/commercial/billing/jobs.go:199-205 | in every run a worker's failure is permanent only because its handler said so or its value does not translate |
| InboxOutcomes.FinishedHasCause | server/internal/database/sqlc/billing_webhook_events.sql.go:72-83 | in every run a processed or ignored receipt carries the instant at which the transaction that finished it began: a worker began it then and committed it later |
| InboxOutcomes.KeptThirtyDays | server/internal/database/sqlc/billing_webhook_events.sql.go:99-102 | for thirty days after it was claimed a receipt is never deleted, whatever becomes of it |
| InboxOutcomes.ClaimStartsRetention | server/internal/database/sqlc/billing_webhook_events.sql.go:99-102 | every claim starts such thirty days |
| InboxOutcomes.CleanupDeletesOld | server/internal/database/sqlc/billing_webhook_events.sql.go:99-102 | cleanup deletes exactly the processed and ignored receipts finished more than thirty days ago |
| BillingStore.WebhookRetrySeconds | server/internal/commercial/billing/jobs.go:207-216 | the delay of the specification, tabulated by `InboxOutcomes.RetryTable`, for every int32, without overflow in the doubling |
| BillingStore.Store.InsertEvent | server/internal/database/sqlc/billing_webhook_events.sql.go:179-202 | a known event id keeps its receipt and is accepted only with the same bytes; a new one gets a pending receipt due at once |
| BillingStore.Store.ReapExhausted | server/internal/database/sqlc/billing_webhook_events.sql.go:244-255 | the statement as one step of the run |
| BillingStore.Store.ClaimEvent | server/internal/database/sqlc/billing_webhook_events.sql.go:15-40 | takes the first candidate under the new lease, or none only if nothing due is unlocked |
| BillingStore.Store.LockClaimed | server/internal/database/sqlc/billing_webhook_events.sql.go:144-148 | locks the row of a lease that still stands, at once if nobody else is in a transaction; finding none means that the lease is gone |
| BillingStore.Store.SyncInTransaction | server/internal/commercial/billing/service.go:189-259 | one more staged write, the row this value comes to column by column given the row read; or a permanent failure iff the value does not translate; or waiting, only for a row that another transaction has written |
| BillingStore.Store.CompleteEvent | server/internal/database/sqlc/billing_webhook_events.sql.go:72-83 | always finds its row, and leaves the transaction ready to commit |
| BillingStore.Store.CommitTransaction | server/internal/commercial/billing/jobs.go:160-162 | receipt, register and log change together, reported or not, and the lease is gone afterwards |
| BillingStore.Store.FailEvent | server/internal/commercial/billing/jobs.go:166-197 | updates the row iff it is free and still carries the lease: dead-lettered iff the failure is permanent or eight attempts were made, otherwise pending and due after the delay; nothing else changes |
| BillingWorker.SyncSubscription | server/internal/commercial/billing/service.go:189-259 | without an error exactly this value's write was staged, column by column, with the grace pair that the row seen at first calls for, others running in between; with one, none; the error is permanent iff the value does not translate, and left alone there is no other |
| BillingWorker.RecoverInTransaction | server/internal/commercial/billing/service.go:312-389 | without an error there was nothing to complain about, and the known subscription and the listed one have been staged, as fetched and in this order, and nothing else; the error is permanent only if there was; left alone, with the provider reachable, there is no other |
| BillingWorker.Handle | server/internal/commercial/billing/consumer.go:23-59 | an event about a product sold here or about an organization's customer has its effect staged, exactly the value's write or the recovery's; any other is ignored without a write; a malformed one fails for good, and only a hopeless one does; left alone there is no other error |
| BillingWorker.Process | server/internal/commercial/billing/jobs.go:109-164 | no error and no lost lease means that the event was well-formed and its effect, if it should have one, was committed together with the receipt; an error leaves the worker to `fail` with its permanence |
| BillingWorker.RunOnce | server/internal/commercial/billing/jobs.go:73-107 | with any events of others in between: the reaper has run, and nothing claimed means nothing due is unlocked; success means that the lease is gone, the receipt processed with the event's effect committed, or ignored if it should have none, unless the receipt was taken over first; an error dead-letters the receipt iff it is permanent, as only a hopeless event's is, or eight attempts were made, and schedules its retry otherwise, unless the lease is gone or the row locked; undisturbed only a hopeless event fails |
| Recovery.FindCandidate | server/internal/commercial/billing/service.go:328-341 | refused iff two known subscriptions differ, otherwise the id of the known one or none |
| Recovery.SyncPolarSubscription | server/internal/commercial/billing/service.go:189-259 | the row afterwards is the replay of everything written meanwhile and at most one own write, the row this value comes to column by column; it fails exactly when the value does not translate or continues a disordered pair |
| Recovery.RecoverOrganization | server/internal/commercial/billing/service.go:312-389 | the row it leaves is a replay of all parties' writes, each accounted for; where rows are in order it reports no error if and only if there is nothing to complain about: one recognized subscription at most, everything fetched, owned and translating, the old one canceled or the same; then its own writes are exactly the known subscription and the listed one, as fetched; identity is kept although its first sync may be stale |
| Recovery.ListedWritten | server/internal/commercial/billing/service.go:372-388 | a recovery without an error has written the listed subscription: a write with its id, made from a fetched value |
| Recovery.LiveSubscriptionSurvives | server/internal/commercial/billing/service.go:342-388 | a write for another subscription after a stale first sync does not replace a live one |
| Paging.ListTargets | server/internal/database/sqlc/subscriptions.sql.go:275-286 | one page: ascending, beyond the cursor, at most 100, nothing skipped |
| Paging.Reconcile | server/internal/commercial/billing/jobs.go:265-289 | ascending calls, at most one per active organization; all of them unless cancelled, save a nil id, so every active organization if and only if none has it; the stuck-cursor error is unreachable; it terminates |
| Json.OwnRequest | server/internal/ai/tools/executor.go:412-423 | a request that is stored alike, like the very one stored, is accepted iff it holds no negative zero: member order, repeated names, layout and spelling of numbers never matter |
| Json.SameJsonOnSafeIntegers | server/internal/ai/tools/executor.go:412-423 | where both sides hold only integers of at most 2^53, the comparison is equality of JSON values, a negative zero apart |
| Json.SameJsonExact | server/internal/ai/tools/executor.go:412-423 | stored arguments accept no request that would be stored differently if and only if they hold no number at all |
| Json.ConfusedArguments | server/internal/ai/tools/executor.go:412-423 | 2^53 + 1 is taken for 2^53, and 1.00000000000000000001 for 1 |
| Json.MinusZeroIsRefused | server/internal/ai/tools/executor.go:412-423 | the very request that was stored is refused when it says -0 |
| Rounding.ToFloatIsNearest | server/internal/ai/tools/executor.go:412-423 | the float a decoded number becomes is one that none is nearer to, ties going to the even significand, subnormals included |
| Rounding.ToFloatOverflows | server/internal/ai/tools/executor.go:412-423 | decoding fails on exactly the numbers at least half a unit beyond the last float |
| Binary64.HasTwin | server/internal/ai/tools/executor.go:412-423 | every number with a float64 shares it with a number of another exact value: decoding to floats always loses some difference |
| Binary64.StoredFloat | server/internal/ai/tools/executor.go:412-423 | the float of the stored number is that of the text, except for a negative zero |
| Binary64.SafeIntegersAreExact | server/internal/ai/tools/executor.go:412-423 | an integer of at most 2^53 decodes to itself |
| ToolCatalog.EditsKeepValid | server/internal/ai/tools/validation.go:12-89 | after any run of creates, updates and deletes, definitions are usable by the resolver up to null parameters, and names differ within an agent |
| ToolCatalog.UpdatedToolUsable | server/internal/database/sqlc/voice_agent_tools.sql.go:208-228 | an update keeps the id and a usable definition, COALESCE by COALESCE |
| ToolCatalog.ReachableCatalogues | server/internal/ai/tools/validation.go:12-89 | the catalogues some run of creates, updates and deletes leads to are exactly those whose definitions are settled, usable, trimmed and within their limits, under their own ids and named apart within an agent |
| ToolCatalog.ReachableByUpdate | server/internal/database/sqlc/voice_agent_tools.sql.go:208-228 | the catalogues one update of a tool leads to are exactly the one there is and those in which the tool is any settled one of its type under a free name, all else untouched |
| CatalogEdits.CreateIs | server/internal/ai/tools/validation.go:12-49 | a creation is carried out iff its texts, parameters, timeout and endpoint pass, the agent is active and the name is free; it stores trimmed texts, and for what is missing a webhook, no parameters, three seconds and enabled; nothing else changes |
| CatalogEdits.UpdateIs | server/internal/database/sqlc/voice_agent_tools.sql.go:208-228 | an update is carried out iff it names some field, what it names passes, the tool is of that active agent and a new name is free; every field not named stays; nothing else changes |
| CatalogEdits.DeleteIs | server/internal/database/sqlc/voice_agent_tools.sql.go:88-99 | a deletion removes that tool of that active agent and nothing else |
| Text.TrimMeaning | server/internal/ai/tools/validation.go:110-116 | trimming removes blanks, and nothing else, from both ends, and leaves none there |
| Snapshot.ResolveSessionTool | server/internal/ai/tools/snapshot.go:38-95 | the loop over ids, names and matches computes the specification function |
| Snapshot.ResolveMeaning | server/internal/ai/tools/snapshot.go:38-95 | it answers with a tool iff the list is not empty, all definitions are well-formed, ids and names differ pairwise, and the tool is listed and matches |
| Snapshot.ResolveSucceeds | server/internal/ai/tools/snapshot.go:38-95 | it succeeds iff the list is sound and some definition matches |
| Snapshot.ResolveIgnoresOrder | server/internal/ai/tools/snapshot.go:55-95 | the answer is the same for every order of the definitions |
| Snapshot.FrozenToolResolves | server/internal/database/sqlc/voice_agent_sessions.sql.go:119-136 | after any run of catalogue edits, a frozen enabled tool resolves by id, by name and by both, exactly when no enabled tool of the agent has null parameters |
| Snapshot.NullParametersDenyAll | server/internal/ai/tools/snapshot.go:57-65 | a concrete snapshot in which one definition with null parameters denies the other tool as well |
| Snapshot.OnlyFrozenToolsResolve | server/internal/database/sqlc/voice_agent_sessions.sql.go:119-136 | whatever resolves was an enabled tool of the agent when the snapshot was taken, and has the id and the name asked for |
| Snapshot.LiveRowOnlyRevokes | server/internal/ai/tools/snapshot.go:100-111 | the live row decides whether a call runs, never what: only the frozen tool, and only while the live row is its own and enabled |
| ToolSafety.RunKeeps | server/internal/ai/tools/executor.go:101-271 | over any run: one execution per key, executions and sessions keep their identity, an ended execution and everything logged are final |
| ToolSafety.AtMostOneEffect | server/internal/ai/tools/executor.go:157-178 | for each organization, session and tool call id the outside effect, one call of the HTTP client or of call control, starts at most once, with the tool the session's snapshot gives |
| ToolSafety.EffectsFollowSnapshot | server/internal/ai/tools/executor.go:126-155 | whatever catalogue edits follow, effects of a session run what any earlier copy of the session had frozen |
| ToolSafety.AnswersAgree | server/internal/ai/tools/executor.go:203-271 | any two successes for one key, fresh or replayed, are the same response of the same tool to the same agent and call, and answer the one effect of the key |
| ToolSafety.AnswerIsForTheseArguments | server/internal/ai/tools/executor.go:225-232 | where the effect and the answered request hold only integers of at most 2^53, a success answers the effect with equal arguments |
| ToolSafety.OtherArgumentsAreAnswered | server/internal/ai/tools/executor.go:225-254 | the success stored for 1 is returned to a request for 1.00000000000000000001 |
| ToolSafety.RepeatedCallIsAnswered | server/internal/ai/tools/executor.go:225-254 | a call repeated word for word after its success gets that success iff its arguments hold no negative zero |
| ToolSafety.FailureIsFinal | server/internal/database/sqlc/voice_agent_tool_security.sql.go:235-245 | a failed execution, also a reconciled one, stays failed, and no success is ever returned for its key |
| ToolSafety.InterruptedExecutionsEnd | server/internal/database/sqlc/voice_agent_tool_security.sql.go:298-307 | the first reconciliation 90 seconds after the claim ends an execution that nothing has ended, for good |
| ToolSafety.LateResultsAreDropped | server/internal/database/sqlc/voice_agent_tool_security.sql.go:235-274 | over any run an ended execution stays as it is whatever late result arrives, and every success returned for its key from then on is a replay of its stored response |
| ToolOutcomes.StoredWasReported | server/internal/ai/tools/executor.go:157-201 | in every run a stored response is what the effect of that execution answered; a stored failure is its error, or stands for a reconciliation 90 seconds or more after the claim |
| ToolOutcomes.AnswersWereReported | server/internal/ai/tools/executor.go:203-271 | every success ever returned, fresh or replayed, is what the one effect of its key answered |
| ToolOutcomes.ResolvesOnlyRunnable | server/internal/ai/tools/snapshot.go:53-95 | resolution answers iff every definition of the snapshot can be run, ids and names differ pairwise, and one matches: the executor's own complaints about a definition cannot be reached |
| ToolOutcomes.ClaimNeeds | server/internal/database/sqlc/voice_agent_tool_security.sql.go:15-49 | an execution is claimed only while its session is active, the live row of the session's own tool is there and enabled, and the key has none |
| ToolOutcomes.ClosedSessionClaimsNothing | server/internal/database/sqlc/voice_agent_tool_security.sql.go:15-49 | once a session is closed, no run claims anything for it any more |
| ToolStore.Store.OpenSession | server/internal/database/sqlc/voice_agent_sessions.sql.go:119-136 | the new session holds the agent's enabled tools as they are now |
| ToolStore.Store.ReadSession | server/internal/ai/tools/executor.go:126-144 | goes on iff the session is there, active, of this organization, agent and call, and its snapshot resolves the tool, which is the one bound |
| ToolStore.Store.ReadTool | server/internal/ai/tools/executor.go:146-155 | goes on iff the live row is there, of this organization and agent, both active, and enabled; the tool stays the frozen one |
| ToolStore.Store.ClaimExecution | server/internal/database/sqlc/voice_agent_tool_security.sql.go:15-49 | inserts a processing execution under the key iff session, live row and organization still allow it and the key is new; otherwise nothing is inserted and the caller replays |
| ToolStore.Store.RecordResult | server/internal/ai/tools/executor.go:165-201 | an execution still processing ends with exactly the outcome when the statement is carried out; the answer is that response iff the outcome is one and the update was confirmed, and the outcome's error otherwise |
| ToolStore.Store.ReplayResult | server/internal/ai/tools/executor.go:203-271 | the answer for a key in use, by tool, agent, call, arguments and state |
| ToolStore.Store.ReconcileUncertain | server/internal/runtime/worker/reconciliation.go:54-73 | one step with the cutoff 90 seconds ago |
| ToolStore.Store.Execute | server/internal/ai/tools/executor.go:101-201 | with anything done by others in between, a success answers this request with the stored response of the one execution of its key, and is, unless replayed, what its own effect answered, stored and confirmed; a request that cannot be looked at is refused; left alone, an entitled request under a new key starts one effect, stores its outcome or the early error, and answers with it iff recorded, one under a used key gets the stored response of the same call or an error, and any other request does nothing |
| Sessions.RunKeeps | server/internal/database/sqlc/voice_agent_sessions.sql.go:15-35 | over any run: started <= media started <= media ended <= max(media started, ended), active iff not ended, media end iff media start once finished; one active session per call; terminal calls, finished sessions, first answer, SIP identity and media start are final; no session is created for an ended call |
| Sessions.StatementsKeepOrder | server/internal/database/sqlc/voice_agent_sessions.sql.go:418-456 | media start, completion and reconciliation each keep the order of a session's instants |
| Sessions.EndedCallStaysQuiet | server/internal/database/sqlc/voice_agent_sessions.sql.go:442-456 | after reconciliation an ended call never has an active session again |
| Sessions.AttachersAgree | server/internal/ai/orchestration/lifecycle.go:30-63 | two observers of an active session of a call saw the same one, or the first had finished and the other was created in between |
| CallOutcomes.MarkedFollowsGraph | server/internal/database/sqlc/calls.sql.go:631-939 | a statement that matches moves the call along the graph of its states, dates its first answer and its end with now, or sets what it names, and changes no other column; one that does not match changes nothing |
| CallOutcomes.EndHasCause | server/internal/database/sqlc/calls.sql.go:631-939 | in every run an ended call was ended by the one statement that names its status, as of the instant it was carried out, or placed so |
| CallOutcomes.NewSession | server/internal/database/sqlc/voice_agent_sessions.sql.go:84-151 | a session appears only active, started now, with nothing counted, for an answered or active call that has not ended, has this agent and no active session, agent and organization active |
| CallOutcomes.SessionMoves | server/internal/database/sqlc/voice_agent_sessions.sql.go:418-456 | an active session changes only by media start, by completion with the given status, counters and instant, or by reconciliation with the status and end of its ended call, instants clamped to the starts they belong to |
| AttachStore.Store.Mark | server/internal/database/sqlc/calls.sql.go:631-939 | each guarded call transition, hold, resume and SIP binding, as one step; it reports a row iff the call is of the organization and the statement applies to its state |
| AttachStore.Store.CreateSession | server/internal/database/sqlc/voice_agent_sessions.sql.go:84-151 | inserts iff the agent may join the call and no session of it is active: not found where it may not join, a conflict where one is active; the new row in full |
| AttachStore.Store.StartMedia | server/internal/database/sqlc/voice_agent_sessions.sql.go:418-425 | matches exactly the organization's active session, and sets its media start once, not before the session's start |
| AttachStore.Store.FinishSession | server/internal/database/sqlc/voice_agent_sessions.sql.go:15-35 | closes the organization's active session with clamped times and the given final status and summary, or changes nothing |
| AttachStore.Store.ReconcileSessions | server/internal/database/sqlc/voice_agent_sessions.sql.go:442-456 | afterwards no session is active on a terminal call that has an end |
| AttachStore.Store.AttachCall | server/internal/ai/orchestration/lifecycle.go:17-64 | with others between its statements, the session it returns is an active one of this call and organization when it returns, and without one it has seen the reason; left alone it returns the call's active session, or a new one iff the agent may join the call and the allowance admits it, and exactly the error of the first condition that fails otherwise |
| AttachStore.Store.CompleteCall | server/internal/ai/orchestration/lifecycle.go:68-100 | closes the session it found active, with the counters that session had and as of the given instant; left alone it does so iff the status is final, the organization active and a session of the call active |
| Metering.OverlapRoundsUp | server/internal/database/sqlc/voice_agent_sessions.sql.go:290-296 | the seconds counted cover the audio inside the period by less than one second more |
| Metering.FilterChangesNothing | server/internal/database/sqlc/voice_agent_sessions.sql.go:300-304 | the WHERE conditions on the audio never change the sum |
| MeteringScope.OthersAreNotCharged | server/internal/database/sqlc/voice_agent_sessions.sql.go:289-305 | two states that hold the same sessions and calls of an organization, at one instant, have the same used seconds for it, whatever other organizations do |
| MeteringScope.NoSessionsNoSeconds | server/internal/database/sqlc/voice_agent_sessions.sql.go:289-305 | an organization without sessions has used nothing |
| MeteringScope.OneMoreSession | server/internal/database/sqlc/voice_agent_sessions.sql.go:289-305 | one more session of the organization on one of its calls adds exactly the seconds of its own audio inside the period, rounded up; any other session adds nothing |
| Metering.ReconcileLeavesUsage | server/internal/database/sqlc/voice_agent_sessions.sql.go:442-456 | closing the sessions of ended calls leaves the used seconds of every organization and period unchanged, calls that ended before their audio began included |
| MeteringRuns.ReconcileAnyTime | server/internal/database/sqlc/voice_agent_sessions.sql.go:442-456 | inserting reconciliation anywhere into any run leaves the meter of every session as it is in the final state, for every period, if and only if no session that it closes would later have been completed with an instant other, for its audio, than its call's end; and then every used-seconds sum stays |
| MeteringRuns.SessionReconcileAnyTime | server/internal/database/sqlc/voice_agent_sessions.sql.go:442-456 | the same for a single session of an ended call, whatever becomes of the others |
| MeteringRuns.CompletionRacesReconciliation | server/internal/runtime/agent/lifecycle.go:186-208 | otherwise it does not: a state reached from the start, in which a call has ended at 10 s, meters 10 s if reconciliation closes its session and 5 or 60 s if the completion does |
| Metering.FinishFreezesMeter | server/internal/database/sqlc/voice_agent_sessions.sql.go:15-35 | completing a session while its call goes on freezes its meter at what it shows at that instant; once the call has ended, completing it meters the same as reconciling it, for every period, iff no audio began or the two instants are the same for its audio |
| Metering.UsageGrows | server/internal/database/sqlc/voice_agent_sessions.sql.go:289-305 | as time passes the used seconds never decrease |
| Metering.SplitPeriods | server/internal/database/sqlc/voice_agent_sessions.sql.go:289-305 | two adjacent periods sum to at least the whole, and to at most one second more for each session whose audio crosses the boundary |
| Identity.DisableWins | server/internal/database/sqlc/kinde_identity_events.sql.go:14-105 | in every order of events, sign-ins, logins and local disables, a recorded disable event leaves its users disabled and all their sessions revoked |
| Identity.NoUserComesBack | server/internal/database/sqlc/users.sql.go:279-293 | after it no user of the identity is created or enabled |
| Identity.NoLoginComesBack | server/internal/database/sqlc/sessions.sql.go:16-44 | after it no session of the identity is opened or brought back |
| Identity.NewestProfileWins | server/internal/database/sqlc/kinde_identity_events.sql.go:35-83 | the newest profile update gives the user its name, and its address if nobody else has or is brought that one, in every order of delivery with any repetitions, for an enabled user who does not sign in meanwhile |
| IdentityOutcomes.DisabledStays | server/internal/database/sqlc/kinde_identity_events.sql.go:47-91 | a disabled user's row never changes again, in any run |
| IdentityOutcomes.RevokedStays | server/internal/database/sqlc/sessions.sql.go:299-356 | a revoked session's row never changes again, in any run |
| IdentityOutcomes.DisabledHasCause | server/internal/database/sqlc/kinde_identity_events.sql.go:47-91 | in every run a user is disabled only by its own local disable or by a disabling event of its identity, as of that instant |
| IdentityOutcomes.RevokedHasCause | server/internal/database/sqlc/kinde_identity_events.sql.go:93-101 | in every run a session is revoked only by its own logout, by one of all sessions of its user, or by an event that disables its user, as of that instant |
| IdentityOutcomes.LoginChanges | server/internal/database/sqlc/sessions.sql.go:299-356 | on a session that is not revoked: a logout ends it, a request marks it as seen iff it has not expired and was not seen for five minutes, a refresh replaces its tokens, a new event ends it iff it disables its user, and no other step touches it |
| IdentityOutcomes.EventChanges | server/internal/database/sqlc/kinde_identity_events.sql.go:14-105 | an event changes a user iff it is new, of that identity, and the user enabled: a disabling one disables it, an update brings its trimmed name and its address unless a later event was recorded before, and the address only if nobody else has it |
| IdentityOutcomes.ProfileHasSource | server/internal/database/sqlc/kinde_identity_events.sql.go:47-75 | in every run each stored name and address was brought by a sign-in or an update of that very identity: no event writes another one's profile |
| IdentityOutcomes.BtrimMeaning | server/internal/database/sqlc/kinde_identity_events.sql.go:53-56 | `BTRIM` removes blanks, and nothing else, from both ends, and leaves none there |
| Identity.StepKeepsUnique | server/internal/database/sqlc/users.sql.go:279-293 | every statement keeps identities and addresses unique |
| Identity.Store.Apply | server/internal/database/sqlc/kinde_identity_events.sql.go:14-105 | records once; an acknowledged disable leaves nobody of the identity enabled or signed in |
| Identity.Store.UpsertUser | server/internal/database/sqlc/users.sql.go:279-293 | a user comes out if and only if the identity has no tombstone, its user is enabled or new, and nobody else has the address; then it is enabled, with the given profile |
| Identity.Store.CreateSession | server/internal/database/sqlc/sessions.sql.go:16-44 | opens a session iff the user is enabled, and then the identity has no tombstone |
| Identity.Store.DisableUser | server/internal/database/sqlc/users.sql.go:14-21 | the user is disabled afterwards |
| Identity.Store.RevokeUserSessions | server/internal/database/sqlc/sessions.sql.go:317-322 | all sessions of the user are revoked afterwards |
| Capacity.WithinLimit | server/internal/ai/agents/repository.go:105-141 | committed and in-flight agents of an organization never exceed its limit, in any interleaving of creates and deployments that commit or roll back |
| Capacity.HolderSeesAll | server/internal/database/sqlc/organizations.sql.go:299-305 | the holder of the organization's row counts everything there is, committed and in flight |
| Capacity.AllOrNone | server/internal/ai/manifest/deployer.go:218-250 | what a transaction inserted is committed together or not at all |
| Capacity.EndIsFinal | server/internal/ai/manifest/deployer.go:296-300 | once a transaction has ended, its agents stay committed or never appear |
| Capacity.OnlyActiveGrow | server/internal/database/sqlc/organizations.sql.go:299-305 | in every run an organization stays active from the moment its row is locked to the end of the transaction, so agents are inserted and committed for active ones only |
| DeploymentStore.Store.CountAgents | server/internal/database/sqlc/voice_agents.sql.go:15-18 | the count under the lock is that of all agents of the organization, committed and in flight |
| DeploymentStore.Store.InsertAgent | server/internal/ai/agents/repository.go:119-140 | after an insert under a count below the limit the organization is within the limit |
| DeploymentStore.Store.CreateWithLimitInTx | server/internal/ai/agents/repository.go:105-141 | adds exactly the new agent to the transaction, or nothing; left alone the error is exactly: not found without an active organization, limit reached with as many agents as the limit, else none for a new id |
| DeploymentStore.Store.CreateWithLimit | server/internal/ai/agents/repository.go:78-103 | success means that the transaction has committed; whatever is answered, also after a commit that reports an error, the one agent is there or nothing is; left alone it succeeds iff the organization is active and below the limit, the id new and the commit acknowledged |
| DeploymentStore.Store.Deploy | server/internal/ai/manifest/deployer.go:81-136 | adds the agent under its name and all its tools to the transaction, or reports an error; left alone it succeeds where there is room and the definitions pass |
| DeploymentStore.Store.DeployPortable | server/internal/ai/manifest/deployer.go:186-251 | success means that the transaction has committed; whatever is answered, also after a commit that reports an error, every agent of the package is there under its name with all its tools, or nothing it inserted is; left alone, a package that fits succeeds iff the commit is acknowledged |

## Left out

- HTTP handlers, routes, wiring, back office pages and scanning of rows: no state of their own.
- The payment provider, the identity provider, AI providers, FreeSWITCH and webhook calls: only whether and when they are called, and an arbitrary answer.
- Encryption, hashing, signatures and URL parsing: an https URL is whatever an arbitrary predicate accepts.
- Migrations are not part of this model: column defaults, one active session per call, unique tool names per agent, unique executions per key and unique identities are taken from how the statements rely on them.
- PostgreSQL isolation below the statement: each statement is atomic, and the only locks are the explicit ones and those of written rows held by an open billing or capacity transaction.
- `UpdateCallState`, which sets any state without a guard: not among the call steps.
- The inbox of a single provider environment; error texts, except the message a failed tool execution stores; `updated_at` columns.
- Reaping skips a receipt locked at that moment and gets it the next time, where the statement would wait.
- Exactly-once is per receipt: deleting finished receipts after thirty days lets the same event id in again.
- Conversation turns, recordings, email deliveries, outgoing webhooks, idempotency keys and the outbox: they repeat weaker forms of the leases modelled here.
- Plan lookup, quota arithmetic and `RequireRuntimeAllowance`: the allowance and the limits are inputs, since one comparison is all they add.
- JSON numbers outside the range of PostgreSQL's `numeric` and the escapes `jsonb` refuses; `json.Marshal` of the decoded values is modelled as equality of those values, -0 told apart from 0.
- Sizes in bytes: lengths count characters, and the 64 KiB limits on arguments and responses are not modelled.
- Case-insensitive comparison of email addresses: addresses are compared as they are.
- Integer widths other than the int32 retry delay: counts and timestamps are unbounded.
- Provider bindings of a deployed agent and those applied after a single create has committed.
- ToolStore.Store.Execute: which error is returned is stated for a request that cannot be looked at, and by its steps for a replay and for a recorded failure; for the others only that it is one.
- Identity.NewestProfileWins: holds from the newest update's point of view only; where that update carries no name or no address, older ones are kept or dropped by order of arrival, and an address in use elsewhere is not taken, as the statement intends.
- ToolSafety.AtMostOneEffect: an effect is one call of the HTTP client or of call control, not one delivery; since webhook requests carry an `Idempotency-Key` and a body that can be read again, Go's transport may send one a second time when a reused connection closes before the response.
- Spellings of an organization id other than the canonical one: recovery compares texts where webhooks parse them, and the model compares the parsed ids.
