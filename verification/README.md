# Verification of the API's tenancy, ledger, connector and authentication logic

A Dafny model of the parts of `apps/api` whose correctness is a statement about all queries, all runs
or all interleavings, with proofs. `dafny verify dfyconfig.toml` checks everything.

Code that changes things step by step is modelled by classes and methods that change fields, with the
source's branches in the source's order; each method is tied to a specification function, and the
results are proved about those functions over every run. Code that only computes is functions.
Clocks, random tokens, the network, other processes' interference and every provider's behaviour are
parameters, so a result holds whatever they do. Fields and log entries called history exist to state
the results and decide nothing.

| file | what it models |
|---|---|
| `TenantQuery`, `TenantGuard`, `TenantIsolation`, `TenantAlone`, `TenantExactness` | the session guards: a query algebra with its meaning, the attached criteria, the flush guard, whole runs under one tenant and what they amount to, and exactly which query shapes are protected |
| `AuditPaging` | the keyset-paginated audit listing, alone and while events are inserted |
| `UsagePricing`, `UsageLedger`, `UsageQuota` | integer prices, the replayable daily aggregates and the purge, the month counter and the daily alert |
| `Gateway` | policy, provider calls, fallback, streaming, and the metering of every call |
| `LockProtocol`, `Throttle` | the TTL lock between workers command by command, its use in place, and the retry envelope |
| `ConnectorService`, `ConnectorTasks`, `ConnectorLifecycle`, `ConnectorOAuth`, `SubscriptionRenewal` | a connection's tokens, refreshes, consents and revocations, its subscriptions, and renewal ahead of expiry |
| `ModuleCache` | the activation cache, in place and under interleaving |
| `LoginChallenges`, `LoginMachine`, `AuthPurge`, `Directory`, `RateLimit` | login challenges, two-step login, the purge of expired rows, invitations and owners, request counters |
| `Sweeping` | runs of a state machine with housekeeping in between, and the simulation the purge is an instance of |
| `Base64Url`, `SignedPayload` | stripped-padding base64url (section 5 of RFC 4648), byte by byte, and the signed payloads on top of it |

## What the proofs show that the documentation does not

Where a promise holds only under a condition, the condition is proved to be exact, over all inputs or runs; how long the code waits is bounded from both sides.

- **The tenant filter is exact up to bare tables** (`ProtectedIffViaEntities`). The criteria protect every query of a shape on every database if and only if no scoped table is reached by name only, at any depth. The refusal of bare tables does not run once the statement exposes one scoped entity, so an accepted query can return other tenants' rows (`AcceptedQueryCanLeak`).
- **Aggregates survive the purge if and only if retention is at least two days** (`ConservationIffTwoDays`), over runs in which a purge only follows an aggregation of the same task. With one day, the task run twice overwrites a complete row with a partial one (`LostWithOneDay`).
- **The rounding bound holds at every scale of the counts if and only if the calls are one-sided** (`DriftBoundedIffOneSided`): none has more cached than input tokens, or none has fewer. Mixed calls cost more than their sum, because no call is billed a negative input.
- **At most one worker is inside a lock if and only if none stays as long as the key lives** (`ExclusionIffHeldUnderTtl`). The code does not ensure it. Inside the refresh lock, the first wait for the connection's budget outlives the key exactly when the window is used up and has half a second less than the key's lifetime to go, or more (`FirstWaitOutlivesTheLockIff`); all waits of a call together do when the rest of a used-up window and the backoffs of its refusals exceed the lifetime by half a second, and do not while both, with the jitters, stay a second below it (`RefreshWaitsOutliveTheLock`). Inside a renewal lock, where Retry-After is honoured, they do when what is asked for and waited for does, and exactly then if every refusal asks (`RenewalWaitsOutliveTheLock`). The two-command release can then delete another worker's key (`LateDeleteFreesAnotherWorkersLock`). After a refresh the worker still holds the lock if and only if the reload failed, before the protected region; it then stays set until it expires (`RefreshConnection`).
- **A connection has a webhook route exactly while it is not revoked, all along a run, if and only if no crash between two commits hits a revocation of a live connection or a consent to one without a route** (`RoutesFollowStatusIff`). After a crashed revocation, revoking again does not repair it (`CrashedRevocationStays`). A crashed consent leaves a live connection that no synchronisation or renewal touches (`CrashedConsentStays`). A completed consent repairs either (`ConsentRestoresTheRoute`).
- **There is at most one live connection per account, all along a run, if and only if no renewed consent comes back with the account of another live connection** (`OneConnectionPerAccountIff`): the code looks for that one only when the consent was not started for a connection.
- **A due subscription is skipped in a tick if and only if it was blocked at the start, or an earlier one of its connection was not and failed to renew** (`SkippedIff`): one failure takes the connection, and its other subscriptions, out of the tick, and is reported once (`OneFailurePerConnection`).
- **The month counter agrees with what was recorded, up to its drift since the last reconciliation, in every run and by every calendar if and only if raw events are kept for at least 31 days** (`CounterAlwaysAgreesIff`). An alert that is interrupted between its key and its audit is not made up for that day; every other one is audited once (`AlwaysAlertedOncePerDay`).
- **Tokens never lapse if and only if the period and the answer delay together are within the lead and shorter than every lifetime** (`NeverLapsesIff`); subscriptions, if and only if the period is (`SubscriptionsNeverLapseIff`).
- **A cached activation can be just under ten seconds stale, and no less** (`StalenessBoundIsTheTtl`): the invalidation reaches only the process that commits, and a lookup in flight can store the old value after it.
- **A fixed window admits up to 2N − 1 requests in an interval of one window length** (`RequestBound`), and there are requests of which that many do get through (`BoundIsReached`).
- **A session under a tenant context cannot be told from one alone on the tenant's rows**, by its answers or by what it leaves (`SessionIsAlone`), and exactly what it is refused is stated (`ServedIff`).
- **An invalidation cuts staleness short if and only if no lookup in flight holds an older value** (`InvalidationCutsIff`).
- **A dictionary survives signing and verifying if and only if it does not use the key `exp`** (`RoundTripIffNoReservedKey`).
- **There are as many metering attempts as provider calls if and only if no call outside a stream is cancelled or gives a usage that cannot be read** (`AllMeteredIff`): neither is met by a handler. A cancelled stream is metered, as a success. A stream closed by its consumer loses the usage carried by the chunk it was closed at (`ClosedStream`).
- **The purge of expired rows changes no answer in any run, but that of revoking an invitation already dead** (`PurgeIsInvisible`, `RevocationSeesThePurge`).
- **An invitation can be accepted and is yet not pending at the very instant of its expiry, and then only** (`AcceptableYetNotPendingIff`): a second one can be created at that instant and both are live (`TwoLiveInvitationsAtExpiry`). In no run are two of one address and tenant live at any other instant (`RivalsOnlyAtExpiry`).

## Model

Paths are relative to the repository's root.

| member | source | states |
|---|---|---|
| `TenantQuery.CriteriaPreserveMeaning` | apps/api/app/tenancy/tenant_base.py:82-100 | with scoped tables reached as entities, at any nesting of joins, derived tables and subqueries, in ON, WHERE, the column list, HAVING or ORDER BY, evaluating the query with criteria on the whole database equals evaluating the original on the tenant's view |
| `TenantQuery.FromPreserved` | apps/api/app/tenancy/tenant_base.py:94-100 | FROM clauses: the leftmost criterion left to WHERE, the joined ones in ON, give the tuples of the view, inner and outer joins alike |
| `TenantQuery.AttachPreserved` | apps/api/app/tenancy/tenant_base.py:94-100 | a criterion in ON acts as filtering the joined table first, including the NULL row of an outer join |
| `TenantQuery.UnscopedQueryUnchanged` | apps/api/app/tenancy/tenant_base.py:88-90 | a query mentioning no scoped table gets no criterion |
| `TenantQuery.OnlyMentionedTablesMatter` | apps/api/app/tenancy/tenant_base.py:63-79 | a query's rows depend only on the tables the search for bare tables finds |
| `TenantGuard.GuardOrmExecute` | apps/api/app/tenancy/tenant_base.py:82-100 | the listener replaces the statement by the guarded one, or refuses and leaves it as it was |
| `TenantGuard.RefuseUnscopedTableAccess` | apps/api/app/tenancy/tenant_base.py:63-79 | refusal exactly when a scoped table is mentioned |
| `TenantGuard.AcceptedIsWithCriteria` | apps/api/app/tenancy/tenant_base.py:82-100 | every accepted statement is the statement with its criteria, also where none were attached |
| `TenantGuard.SelectVerdict` | apps/api/app/tenancy/tenant_base.py:82-100 | with a context a SELECT runs with its criteria if and only if its column list holds the entity of a scoped table, at whatever position of FROM, or it mentions no scoped table; without one it runs, unchanged, only in the latter case, and the two refusals are told apart |
| `TenantGuard.BulkVerdict` | apps/api/app/tenancy/tenant_base.py:82-100 | a bulk UPDATE or DELETE of a scoped class runs on the tenant's rows, and is refused without a context; any other runs as it is if and only if it mentions no scoped table |
| `TenantGuard.AcceptedSelectReadsTenantView` | apps/api/app/tenancy/tenant_base.py:82-100 | an accepted SELECT without bare scoped tables returns what the original returns on the tenant's view |
| `TenantGuard.NoContextNoScopedData` | apps/api/app/tenancy/tenant_base.py:63-93 | without a context, what runs is unchanged and gives the same rows on databases that differ only in scoped tables |
| `TenantGuard.HoldsScoped` | apps/api/app/tenancy/tenant_base.py:104-107 | whether any object of a flush belongs to a scoped table |
| `TenantGuard.StampAdded` | apps/api/app/tenancy/tenant_base.py:111-117 | stamps new objects without a tenant, stops at the first of another tenant, leaves the rest |
| `TenantGuard.CheckTouched` | apps/api/app/tenancy/tenant_base.py:118-121 | refuses exactly when a dirty or deleted scoped object is not the tenant's |
| `TenantGuard.GuardFlush` | apps/api/app/tenancy/tenant_base.py:103-121 | the flush verdict, the stamps of an accepted flush, and what a refused one may have stamped |
| `TenantIsolation.StepOnView` | apps/api/app/tenancy/tenant_base.py:82-121 | a guarded read, load, bulk update, bulk delete or flush, and the ORM's own column and relationship loads, are the same operation on the tenant's view, with the same outcome, and move no other tenant's row |
| `TenantIsolation.RunLeavesOthersUntouched` | apps/api/app/tenancy/tenant_base.py:82-121 | no run under one tenant changes a row of another |
| `TenantIsolation.NonInterference` | apps/api/app/tenancy/tenant_base.py:82-121 | two databases that agree on the tenant's rows give the same outcomes all along and agree on them at the end |
| `TenantAlone.ServedIff` | apps/api/app/tenancy/tenant_base.py:82-125 | an operation of a session is refused exactly when its SELECT or bulk statement mentions a scoped table without its class, or its flush holds another tenant's object or writes one without tenant; a refusal changes nothing |
| `TenantAlone.SessionIsAlone` | apps/api/app/tenancy/tenant_base.py:82-125 | every run under a context gives the answers, and leaves the view, of the same session without guards on a database of the tenant's rows only, new rows being the tenant's |
| `TenantExactness.ProtectedIffViaEntities` | apps/api/app/tenancy/tenant_base.py:63-100 | the criteria protect every query of a shape on every database if and only if no scoped table is reached by name |
| `TenantExactness.AcceptedQueryCanLeak` | apps/api/app/tenancy/tenant_base.py:88-90 | for any two scoped tables, an accepted query that is not protected |
| `AuditPaging.CursorRoundTrip` | apps/api/app/audit/router.py:48-60 | decoding an encoded cursor gives back its instant and identifier |
| `AuditPaging.DecodesIff` | apps/api/app/audit/router.py:53-60 | exactly which cursors are read, and as what: the text before the last bar as an instant, the text after it as an identifier |
| `AuditPaging.RefusedIff` | apps/api/app/audit/router.py:53-60 | a request is refused exactly for a cursor that is not |
| `AuditPaging.Narrowed` | apps/api/app/audit/router.py:76-95 | the query narrowed clause by clause selects what is below the cursor and matches every filter |
| `AuditPaging.MatchesIff` | apps/api/app/audit/router.py:86-93 | what each filter selects, the bounds of the period included |
| `AuditPaging.AuditEventsList` | apps/api/app/audit/router.py:63-115 | one row too many is read and gives the page and the cursor of the specification; a cursor that cannot be decoded is refused |
| `AuditPaging.SelectedListed` | apps/api/app/audit/router.py:74-95 | the listing is strictly ordered and holds exactly the rows that match |
| `AuditPaging.RestAfterPage` | apps/api/app/audit/router.py:76-86 | what lies below a row's cursor is what follows that row in the listing |
| `AuditPaging.PageSplitsRest` | apps/api/app/audit/router.py:97-101 | a page is a prefix of what is left, its cursor stands for the remainder, and there is none exactly on the last page |
| `AuditPaging.WalkIsTheListing` | apps/api/app/audit/router.py:63-115 | following the cursors reads exactly the listing, for any filters and page sizes, within as many requests as rows |
| `AuditPaging.PageThenLater` | apps/api/app/audit/router.py:76-101 | a full page followed by a sound walk from its cursor is a sound walk of the grown log |
| `AuditPaging.WalkWhileInserting` | apps/api/app/audit/router.py:63-115 | with arbitrary inserts between requests no event comes twice, only matching events come, and a finished walk has returned every matching event present at its start |
| `UsagePricing.WeightsAddIffOneSided` | apps/api/app/ai/pricing.py:64-69 | before rounding, the summed usage never weighs more than the calls, and weighs the same if and only if the calls are one-sided |
| `UsagePricing.RoundingDrift` | apps/api/app/ai/pricing.py:58-71 | for one-sided calls the sum of per-call costs is at most the cost of the summed usage and below it by at most n − 1 micro-euros |
| `UsagePricing.DriftBoundedIffOneSided` | apps/api/app/ai/pricing.py:58-71 | the bound holds of the calls at every scale if and only if they are one-sided or the model has no price |
| `UsageLedger.UsageStore.RecordUsage` | apps/api/app/ai/metering.py:37-66 | the event is appended, unless the insert fails, which is swallowed |
| `UsageLedger.UsageStore.AggregateDay` | apps/api/app/ai/tasks.py:30-80 | the upsert loop sets each group of the day to its recomputed sums and nothing else; the number of groups is returned |
| `UsageLedger.UsageStore.PurgeRawEvents` | apps/api/app/ai/tasks.py:102-110 | exactly the events before the retention cutoff go, and their number is returned |
| `UsageLedger.RecentSumsKept` | apps/api/app/ai/tasks.py:30-110 | purging events from before a day changes neither its sums nor its groups |
| `UsageLedger.SumsAdd` | apps/api/app/ai/tasks.py:38-54 | the sums of a group add up over its events |
| `UsageLedger.SumOfOne` | apps/api/app/ai/tasks.py:38-54 | one event counts for its group, with its tokens and cost, and as an error unless it succeeded |
| `UsageLedger.ConservationIffTwoDays` | apps/api/app/ai/tasks.py:30-128 | in every run in which a purge follows its task's aggregation, every aggregated day keeps the sums of all events ever recorded for each group, if and only if retention is at least two days |
| `UsageLedger.LostWithOneDay` | apps/api/app/ai/tasks.py:102-128 | with one day of retention, two whole tasks on the same day: the second overwrites the complete row with a partial one |
| `UsageLedger.LostWithoutRetention` | apps/api/app/ai/tasks.py:102-128 | with no retention, a whole task takes the current day's events, which the next day's task misses |
| `UsageLedger.ReplayChangesNothing` | apps/api/app/ai/tasks.py:30-80 | in every run that keeps two days, aggregating a day again changes no aggregate |
| `UsageLedger.DailyRowCost` | apps/api/app/ai/tasks.py:38-70 | in every run that keeps two days, a daily row of one-sided calls costs at most the price of its token totals and is within its request count of it |
| `UsageQuota.QuotaStore.AddUsage` | apps/api/app/ai/quota.py:69-76 | the month counter grows by what is not negative of the tokens; the lifetime is set when the total is what was added, as on a first write; raises exactly when a command of it is not answered, with what came before done |
| `UsageQuota.QuotaStore.ReconcileMonthQuotas` | apps/api/app/ai/tasks.py:83-99 | each tenant with events this month gets its sum as counter, the others keep theirs |
| `UsageQuota.QuotaStore.EmitAlertOnce` | apps/api/app/ai/quota.py:87-114 | an alert goes out exactly when no alert key of that tenant and day is live, and sets it; a failing audit leaves the key |
| `UsageQuota.QuotaStore.RecordAndAlert` | apps/api/app/ai/quota.py:117-125 | the new total, whether it is over quota, and whether it alerted; what is done when a command is not answered |
| `UsageQuota.CounterAlwaysAgreesIff` | apps/api/app/ai/quota.py:69-84 | the counter is the recorded month tokens plus the drift since the last reconciliation, over every run with failing inserts and interrupted updates and every calendar, if and only if retention is at least 31 days |
| `UsageQuota.FirstWriteLives` | apps/api/app/ai/quota.py:69-76 | a counter's first tokens of a month give it sixty-two days, unless the store stops answering before; later ones keep what it has |
| `UsageQuota.ReconciledIsTheSum` | apps/api/app/ai/tasks.py:83-99 | right after a reconciliation the counter is the SQL sum, which is the sum of everything recorded this month |
| `UsageQuota.OthersNotReconciled` | apps/api/app/ai/tasks.py:83-99 | counters of other months and of tenants without events this month are left alone |
| `UsageQuota.AlwaysAlertedOncePerDay` | apps/api/app/ai/quota.py:87-125 | in every run one audited alert, never two, for each tenant and UTC day on which a call over quota came to its alert, unless that alert was interrupted before its audit |
| `UsageQuota.CallAlertsIff` | apps/api/app/ai/quota.py:69-125 | while everything answers, a call adds its tokens and alerts exactly when the total is more than the quota and the day's alert has not been claimed |
| `UsageQuota.OutageCounts` | apps/api/app/ai/quota.py:69-76 | a call's tokens are counted unless the store stops answering before |
| `UsageQuota.OutageSilences` | apps/api/app/ai/quota.py:117-125 | a store that stops answering before the alert leaves no alert and no claim |
| `UsageQuota.OutageInterrupts` | apps/api/app/ai/quota.py:87-114 | an alert whose audit fails is claimed and interrupted |
| `UsageQuota.ClaimLives` | apps/api/app/ai/quota.py:87-95 | an alert's key lives for a day |
| `Gateway.Select` | apps/api/app/ai/policy.py:46-61 | succeeds exactly when the resolved provider is permitted, and never swaps an explicit provider for another |
| `Gateway.AIGateway.MeterWrap` | apps/api/app/ai/gateway.py:310-348 | one attempt; a failed insert is swallowed, a failed quota update is raised, and only after a positive total |
| `Gateway.AIGateway.CallOnce` | apps/api/app/ai/gateway.py:220-308 | without a key no call and no record; otherwise one call, recorded by its outcome unless cancelled or its usage cannot be read |
| `Gateway.AIGateway.Ask` | apps/api/app/ai/gateway.py:205-218 | the selected provider, then the fallback after an unavailable or failed one only |
| `Gateway.Consume` | apps/api/app/ai/gateway.py:370-389 | the loop over the chunks hands out the deltas, keeps the last non-zero usage, and stops where the consumer does or where a usage cannot be read |
| `Gateway.AIGateway.AskStream` | apps/api/app/ai/gateway.py:350-402 | one call and one record however the stream ends; nothing at all if it is never started |
| `Gateway.EveryCallIsPermittedAndMetered` | apps/api/app/ai/gateway.py:205-402 | over all requests and behaviours, every call is permitted by its policy, fallback included; the records are those owed by the calls, in order; the quota is told their positive totals |
| `Gateway.AllMeteredIff` | apps/api/app/ai/gateway.py:242-290 | as many records as calls if and only if no call outside a stream was cancelled or gave an unreadable usage |
| `Gateway.AnswerNamesTheLastRecord` | apps/api/app/ai/gateway.py:205-308 | an answer names the provider, model and usage of the last call and of the last record, a success; at most two calls, the second only after a failed first |
| `Gateway.CallOutcome` | apps/api/app/ai/gateway.py:163-308 | a provider without the tenant's or the platform's key is not called; one with a key is called once, and how the call ends, and with which usage, follows from its outcome |
| `Gateway.FallbackDecides` | apps/api/app/ai/gateway.py:205-218 | when the permitted provider has no key, times out or fails, and a fallback is set, the fallback's provider and model get the last call if permitted and keyed, and its outcome decides; otherwise refused or unavailable |
| `Gateway.FirstDecides` | apps/api/app/ai/gateway.py:205-218 | in every other case there is no second call and the first decides |
| `Gateway.RequestsAreServed` | apps/api/app/ai/gateway.py:205-470 | each kind of request is served as such |
| `Gateway.EventsAreTheRecordsKept` | apps/api/app/ai/gateway.py:310-348 | over all requests the stored events are the records whose insertion did not fail |
| `Gateway.ClosedStream` | apps/api/app/ai/gateway.py:373-384 | a stream closed by its consumer is recorded as interrupted, with the last usage before the chunk it was closed at |
| `Gateway.UnreadableStream` | apps/api/app/ai/gateway.py:373-389 | a stream not closed by then fails at the first chunk whose usage cannot be read, after that chunk's delta, with the last usage before it |
| `Gateway.UnclosedStream` | apps/api/app/ai/gateway.py:370-402 | any other stream is a failure exactly when the provider broke it, with the last usage of all its chunks |
| `Gateway.StreamKinds` | apps/api/app/ai/gateway.py:370-402 | every stream is of one of these three kinds |
| `Gateway.CountsIff` | apps/api/app/ai/gateway.py:373-389 | a usage counts when it reports tokens read or written |
| `Gateway.StreamOutcome` | apps/api/app/ai/gateway.py:350-402 | a stream that is started is one call and one record of its summary; exactly when one is not |
| `LockProtocol.ExclusionIffHeldUnderTtl` | apps/api/app/connectors/throttle.py:129-144 | under every interleaving, with workers dying, at most one is between acquire and release, if and only if none stays inside as long as the key lives |
| `LockProtocol.HeldIffSomeoneInside` | apps/api/app/connectors/throttle.py:129-144 | in every interleaving in which no worker dies inside or overstays, the lock is held exactly while some worker is between its acquisition and the end of its release |
| `LockProtocol.WorkersGetOut` | apps/api/app/connectors/throttle.py:138-144 | a worker that goes on, or dies, is outside again; it frees a key that is its own and leaves another's |
| `LockProtocol.LockIsToBeHad` | apps/api/app/connectors/throttle.py:129-144 | after every run, deaths included, a worker outside gets the lock half a minute later |
| `LockProtocol.LateDeleteFreesAnotherWorkersLock` | apps/api/app/connectors/throttle.py:138-144 | a run in which the release, overtaken by expiry, deletes the key of the worker that came after |
| `Throttle.LockStore.AcquireLock` | apps/api/app/connectors/throttle.py:129-135 | set exactly when not held, with the worker's token and lifetime |
| `Throttle.LockStore.ReleaseLock` | apps/api/app/connectors/throttle.py:138-144 | GET, and DELETE some time later if the key was the worker's own: it removes whoever's key is there by then, and leaves the store alone otherwise |
| `Throttle.LockStore.WaitForLock` | apps/api/app/connectors/throttle.py:147-155 | up to twenty attempts at fixed intervals; which one succeeded, how long it took, and that the lock was held at the ones that did not |
| `Throttle.RunWithBackoff` | apps/api/app/connectors/throttle.py:95-126 | retries 429 and 5xx only, at most five attempts; the result of the decisive one, or unavailable; the exact time slept |
| `Throttle.BudgetWaitIs` | apps/api/app/connectors/throttle.py:77-88 | no wait within the budget; over it, what is left of the window in whole seconds, and one second at least |
| `Throttle.DelayIs` | apps/api/app/connectors/throttle.py:91-126 | a Retry-After as it is, none when negative; without one, half a second doubling, and the jitter |
| `Throttle.FirstWaitOutlivesTheLockIff` | apps/api/app/connectors/throttle.py:77-102 | a grant call's first wait for its budget outlives the refresh lock if and only if the window is used up and has at least the lock's lifetime less half a second to go |
| `Throttle.RefreshWaits` | apps/api/app/connectors/throttle.py:77-126 | all waits of a grant call: the backoffs of its refusals, and at most one wait for the rest of the window, made when it is used up from the start |
| `Throttle.RefreshWaitsOutliveTheLock` | apps/api/app/connectors/throttle.py:77-126 | they outlive the refresh lock when the rest of a used-up window and the backoffs exceed its lifetime by half a second, and do not while both and the jitters stay a second below it |
| `Throttle.RenewalWaitsOutliveTheLock` | apps/api/app/connectors/throttle.py:77-126 | under a renewal lock all waits of a call outlive the lock when what its refusals ask for and its budget waits do, exactly then if every refusal asks, and otherwise not while these stay 18 seconds below |
| `Throttle.BackoffWithoutRetryAfter` | apps/api/app/connectors/throttle.py:91-126 | without one, five refusals wait between 15.5 and 18 seconds |
| `ConnectorService.Connection.ApplyTokenBundle` | apps/api/app/connectors/service.py:168-178 | new access token and expiry, the refresh token only if a non-empty one came, ACTIVE, no error |
| `ConnectorService.Connection.ApplyGrant` | apps/api/app/connectors/service.py:226-264 | what each outcome of the grant does to the row and answers (section 5.2 of RFC 6749 for `invalid_grant`) |
| `ConnectorService.Connection.Revoke` | apps/api/app/connectors/service.py:267-290 | the local wipe, whatever the provider answers |
| `ConnectorService.RefreshConnection` | apps/api/app/connectors/service.py:192-264 | the lock is the worker's afterwards exactly when the reload failed; another worker's lock is left alone unless it came between the two commands of the release; a busy lock changes nothing; the blocking form works on the reloaded row and keeps a token that is no longer expiring; without a refresh token no call is made |
| `ConnectorService.GrantDecides` | apps/api/app/connectors/service.py:224-264 | a refresh of an ACTIVE connection asks for a new consent exactly on `invalid_grant`, with an error noted; any other outcome leaves it ACTIVE, and only a grant changes a token |
| `ConnectorTasks.TickConnection` | apps/api/app/connectors/tasks.py:80-102 | one connection of a refresh tick: not due, refreshed, skipped, failed, or an error that ends the tick |
| `ConnectorTasks.RefreshExpiringTokens` | apps/api/app/connectors/tasks.py:68-109 | every connection up to the first escaping error is dealt with, each at its own instant, the rest are untouched, and the report counts the outcomes |
| `ConnectorTasks.OutcomeIff` | apps/api/app/connectors/tasks.py:68-109 | exactly which connection counts as refreshed, skipped or failed, which ends the tick, and that the others are left alone |
| `ConnectorTasks.ReportCounts` | apps/api/app/connectors/tasks.py:68-109 | the report counts them |
| `ConnectorTasks.NeverLapsesIff` | apps/api/app/connectors/tasks.py:68-102 | over runs of ticks on any ACTIVE connection, no token is expired from the first tick's answer on, if and only if the period and the answer delay together are within the lead and shorter than every lifetime |
| `ConnectorTasks.DeployedRefreshIsSafe` | apps/api/app/worker.py:22-26 | the deployed beat and lead meet that condition while the endpoint answers within five minutes |
| `ConnectorLifecycle.ScopesFor` | apps/api/app/connectors/registry.py:57-67 | base scopes first, no repeats, every capability granted by them, nothing that was not asked for; refused exactly for an unsupported capability |
| `ConnectorLifecycle.LifecycleInvariant` | apps/api/app/connectors/oauth.py:141-192 | over every run, crashes included: revoked is the same as tokenless, a revoked connection has no subscription, a live one at most one per capability, and scopes, and with them capabilities, only grow |
| `ConnectorLifecycle.NextInLineIff` | apps/api/app/connectors/oauth.py:195-215 | a step takes the route of a connection out of line with its status if and only if it is a crash that hits its revocation or a consent to it while it has no route |
| `ConnectorLifecycle.RoutesFollowStatusIff` | apps/api/app/connectors/oauth.py:195-312 | all along a run, routes and statuses agree if and only if no step of the run is such a crash |
| `ConnectorLifecycle.CrashedRevocationStays` | apps/api/app/connectors/router.py:148-182 | a revocation that crashed between its commits is not repaired by revoking again |
| `ConnectorLifecycle.CrashedConsentStays` | apps/api/app/connectors/oauth.py:284-299 | a consent that crashed between its commits leaves a live connection without a route, which no synchronisation or renewal touches |
| `ConnectorLifecycle.CrashedConsentFromNothing` | apps/api/app/connectors/oauth.py:284-299 | the one-step run that does it |
| `ConnectorLifecycle.ConsentRestoresTheRoute` | apps/api/app/connectors/oauth.py:218-312 | whatever crashes left, a completed consent puts the route in line, and it stays so in every later run in which nothing breaks that connection |
| `ConnectorLifecycle.SyncCompletes` | apps/api/app/connectors/subscriptions.py:165-199 | after a synchronisation in which every creation succeeds, a capability is subscribed exactly when it was, or all its scopes are granted and it is not Gmail |
| `ConnectorLifecycle.SyncOutcome` | apps/api/app/connectors/subscriptions.py:165-199 | which subscriptions a synchronisation adds when some creations fail, with which expiry, and that only the failure is noted |
| `ConnectorLifecycle.OthersUntouched` | apps/api/app/connectors/oauth.py:141-312 | a step leaves every other connection, its route and its subscriptions alone |
| `ConnectorLifecycle.ConsentRevivesItsConnection` | apps/api/app/connectors/oauth.py:141-192 | a consent with a refresh token revives the connection it was started for, else the live one of that account, else makes one: tokens, expiry, scopes added, ACTIVE; nothing else moves |
| `ConnectorLifecycle.ConsentWithoutRefreshToken` | apps/api/app/connectors/oauth.py:165-190 | without one it is good only for a connection that has one, which it keeps |
| `ConnectorLifecycle.RefreshOutcome` | apps/api/app/connectors/service.py:224-264 | the same as a lifecycle step |
| `ConnectorLifecycle.DeadConsentStays` | apps/api/app/connectors/service.py:231-244 | in every run without a consent for it or its revocation, a connection in NEEDS_RECONSENT stays exactly as it is |
| `ConnectorLifecycle.RenewalOutcome` | apps/api/app/connectors/tasks.py:154-178 | a renewal moves the expiry of that subscription alone; a failed one puts the connection in ERROR |
| `ConnectorLifecycle.RevocationWipes` | apps/api/app/connectors/service.py:267-290 | no token and no subscription is left; the route goes unless the process dies before |
| `ConnectorLifecycle.OneConnectionPerAccountIff` | apps/api/app/connectors/oauth.py:152-192 | all along a run at most one live connection per account of a provider and kind, if and only if no renewed consent comes back with the account of another live connection |
| `ConnectorOAuth.OAuthService.UpsertConnection` | apps/api/app/connectors/oauth.py:141-192 | the row written by a consent, or the refusal that writes none, exactly when no refresh token is brought and none is stored |
| `ConnectorOAuth.OAuthService.EnsureWebhookRoute` | apps/api/app/connectors/oauth.py:195-215 | the route is there afterwards, once |
| `ConnectorOAuth.OAuthService.Consented` | apps/api/app/connectors/oauth.py:218-312 | the callback, its two commits and a crash between them, is the lifecycle's consent step |
| `ConnectorOAuth.OAuthService.RevokeConnection` | apps/api/app/connectors/router.py:148-182 | the request is the lifecycle's revocation step: tokens wiped, subscriptions gone, route dropped in the second commit |
| `SubscriptionRenewal.SubscriptionService.EnsureSubscriptions` | apps/api/app/connectors/subscriptions.py:165-199 | the loop adds what is missing in order, skips Gmail, and stops at the first creation that fails |
| `SubscriptionRenewal.SubscriptionService.RenewSubscription` | apps/api/app/connectors/subscriptions.py:202-233 | extended in place for Graph, recreated and then dropped for Google |
| `SubscriptionRenewal.SubscriptionService.RenewOneSubscription` | apps/api/app/connectors/tasks.py:154-178 | one subscription of the loop: skipped, renewed, or failed with its connection put in error |
| `SubscriptionRenewal.SubscriptionService.RenewExpiringSubscriptions` | apps/api/app/connectors/tasks.py:133-202 | the loop is the run of the lifecycle's renewal steps over the due subscriptions, with its report |
| `SubscriptionRenewal.NothingDueIsLeft` | apps/api/app/connectors/tasks.py:133-202 | after a tick whose renewals last past a horizon within the lead, what does not belongs to a connection that is not active or not routed, or its lock was taken; the lifecycle invariant survives |
| `SubscriptionRenewal.SubscriptionsNeverLapseIff` | apps/api/app/connectors/tasks.py:133-202 | in every run of ticks and lifecycle steps, every subscription the last tick could deal with is unexpired at every instant, if and only if the period is within the lead and shorter than every granted lifetime |
| `SubscriptionRenewal.DeployedRenewalIsSafe` | apps/api/app/worker.py:27-31 | the deployed beat and lead meet that condition for both providers |
| `SubscriptionRenewal.SkippedIff` | apps/api/app/connectors/tasks.py:154-178 | a due subscription is skipped exactly when it was blocked at the start of the tick or an earlier one of its connection was not blocked and its renewal failed |
| `SubscriptionRenewal.RenewedIff` | apps/api/app/connectors/tasks.py:154-178 | a due subscription that is not skipped is renewed exactly when the provider answers, and has failed otherwise |
| `SubscriptionRenewal.BlockedIff` | apps/api/app/connectors/tasks.py:147-170 | a renewal goes ahead for an ACTIVE connection with a route whose lock is free, and for no other |
| `SubscriptionRenewal.ReportCounts` | apps/api/app/connectors/tasks.py:133-202 | the report counts the renewed and the failed ones |
| `SubscriptionRenewal.OneFailurePerConnection` | apps/api/app/connectors/tasks.py:171-178 | the failures reported are the connections that went from ACTIVE to ERROR, one each |
| `ModuleCache.ModuleService.EnableModule` | apps/api/app/automation/service.py:95-143 | the row is set, or the reason it is not; cache and rows agree afterwards |
| `ModuleCache.ModuleService.DisableModule` | apps/api/app/automation/service.py:146-179 | the row is cleared if it was set; cache and rows agree afterwards |
| `ModuleCache.ModuleService.IsModuleEnabled` | apps/api/app/automation/service.py:182-198 | in one process with no interleaving, the answer is the row's, cached or not |
| `ModuleCache.StalenessBoundIsTheTtl` | apps/api/app/automation/service.py:182-198 | under every interleaving an answer was the committed value less than ten seconds before the question or later, and no smaller bound holds |
| `ModuleCache.InvalidationCutsIff` | apps/api/app/automation/service.py:76-198 | in every run, an invalidation after the last commit makes every later answer of its process at least that recent if and only if no lookup in flight holds an older value |
| `LoginMachine.AuthService.VerifyTotpCode` | apps/api/app/auth/service.py:190-204 | the first matching counter of now, before and after; accepted and stored only if above the last one; an error without a stored secret |
| `LoginMachine.AuthService.VerifySecondFactor` | apps/api/app/auth/service.py:249-267 | a TOTP code, else an unused recovery code of the user, which is spent; an error without a stored secret |
| `LoginChallenges.ConsumeLoginChallenge` | apps/api/app/auth/service.py:148-156 | the user of an unexpired, unconsumed challenge, which is consumed |
| `LoginMachine.AuthService.Login` | apps/api/app/auth/router.py:69-86 | a session at once, a challenge when TOTP is on, or nothing |
| `LoginMachine.AuthService.LoginTotp` | apps/api/app/auth/router.py:94-106 | a session exactly when the challenge was good and the second factor passed; the challenge stays consumed either way, unless an error rolls the request back |
| `LoginMachine.AuthService.ProvisionTotp` | apps/api/app/auth/service.py:169-187 | a new secret and no last counter, unless TOTP is on |
| `LoginMachine.AuthService.Activate` | apps/api/app/auth/service.py:207-225 | on after a first code, with eight fresh recovery codes; a refusal changes nothing |
| `LoginMachine.AuthService.Disable` | apps/api/app/auth/service.py:228-246 | off, secret and counter cleared, the user's recovery codes deleted, with the password only |
| `LoginMachine.OfferedIsUnused` | apps/api/app/auth/service.py:148-204 | a challenge, code or counter the rows still offer was never used before |
| `LoginMachine.EverySessionIsEarned` | apps/api/app/auth/router.py:69-106 | in every run, a session follows a password check with TOTP off, or a password check with TOTP on, its challenge, the challenge's consumption and an accepted second factor, all of that user |
| `LoginMachine.NothingIsUsedTwice` | apps/api/app/auth/service.py:148-267 | at most one session per challenge, one use and one issue per recovery code, strictly increasing counters within an enrolment (section 5.2 of RFC 6238) |
| `LoginMachine.TotpIsGenuine` | apps/api/app/auth/service.py:169-204 | in every run each accepted one-time password is that of the secret provisioned for that user under that enrolment, at a counter within one step of the clock; enabled TOTP always has a stored secret |
| `LoginMachine.CodesAreTheUsersOwn` | apps/api/app/auth/service.py:207-267 | in every run each recovery code used was given out to the same user under the same enrolment, among eight, right after the one-time password that activated it |
| `LoginMachine.SecondStepIff` | apps/api/app/auth/router.py:94-106 | an open challenge gives a session, and its user's only, exactly within five minutes of its issue and for a one-time password of an unused counter or an unused recovery code of that user; it is spent either way |
| `LoginMachine.PasswordThenCode` | apps/api/app/auth/router.py:69-106 | a right password gives a session without TOTP, and with it a challenge that a fitting code turns into one exactly up to five minutes later; a wrong one does nothing |
| `LoginMachine.RefusalsChangeNothing` | apps/api/app/auth/service.py:148-246 | which second steps, provisionings, activations and deactivations are refused, and that they change nothing |
| `LoginMachine.EnrolmentWorks` | apps/api/app/auth/service.py:169-225 | provisioning and giving the current one-time password turns TOTP on with eight codes that each fit; no other account moves |
| `LoginMachine.DisablingTurnsOff` | apps/api/app/auth/service.py:228-246 | with the password TOTP goes off: no code fits, the user's codes are gone and the others' are not, the password suffices |
| `AuthPurge.AuthStore.CreateSession` | apps/api/app/auth/service.py:96-102 | a session under a fresh token |
| `AuthPurge.AuthStore.ResolveSession` | apps/api/app/auth/service.py:105-118 | the user of a live session, whose last use is noted |
| `AuthPurge.AuthStore.RevokeAllSessions` | apps/api/app/auth/service.py:126-133 | every unrevoked session of the user is revoked, no other moves |
| `AuthPurge.AuthStore.PurgeExpiredAuthRows` | apps/api/app/auth/tasks.py:25-47 | exactly the dead sessions, challenges and invitations go, and their numbers are returned |
| `AuthPurge.PurgeIsInvisible` | apps/api/app/auth/tasks.py:25-47 | purges anywhere in a run with a monotone clock change no answer of any operation on sessions, challenges, invitations and members, but that of revoking an invitation already dead, which becomes unknown |
| `AuthPurge.RevocationSeesThePurge` | apps/api/app/directory/service.py:117-129 | revoking an invitation can tell, exactly for a dead invitation of that tenant |
| `AuthPurge.ConsumedOnce` | apps/api/app/auth/service.py:148-156 | in every run, purged or not, a challenge is consumed at most once |
| `AuthPurge.SessionLife` | apps/api/app/auth/service.py:105-133 | in every run, purged or not, a session resolves to its user exactly up to its expiry and until it, or all of its user's, are revoked |
| `AuthPurge.CreatedSessionLives` | apps/api/app/auth/service.py:96-133 | that is a week from its creation |
| `AuthPurge.ChallengeLife` | apps/api/app/auth/service.py:148-156 | the first attempt to consume a challenge gives its user exactly up to its expiry |
| `AuthPurge.CreatedChallengeLives` | apps/api/app/auth/service.py:139-156 | that is five minutes from its creation |
| `AuthPurge.ResolvingNotes` | apps/api/app/auth/service.py:105-118 | the last use is noted on that session alone, and only when it resolves |
| `AuthPurge.RevokingAllMarks` | apps/api/app/auth/service.py:126-133 | exactly the user's unrevoked sessions are marked |
| `AuthPurge.DirectoryOps` | apps/api/app/directory/service.py:49-252 | the operations on the directory, among the others |
| `AuthPurge.PurgedIff` | apps/api/app/auth/tasks.py:25-47 | exactly which sessions, challenges and invitations a purge keeps |
| `Directory.DirectoryService.CreateInvitation` | apps/api/app/directory/service.py:49-103 | the invitation or the first refusal that applies, in the source's order |
| `Directory.DirectoryService.RevokeInvitation` | apps/api/app/directory/service.py:117-129 | removes an unaccepted invitation of the tenant, answers foreign and unknown ones alike |
| `Directory.DirectoryService.AcceptInvitation` | apps/api/app/directory/service.py:132-182 | the user, membership and spent invitation, or the refusal that changes nothing |
| `Directory.DirectoryService.ChangeMemberRole` | apps/api/app/directory/service.py:205-230 | the new role or the first refusal that applies, the last owner included |
| `Directory.DirectoryService.RemoveMember` | apps/api/app/directory/service.py:233-252 | the membership is gone or the first refusal that applies |
| `Directory.OwnerForever` | apps/api/app/directory/service.py:205-252 | a tenant that has an owner keeps one in every run |
| `Directory.RolesAreTraced` | apps/api/app/directory/service.py:49-252 | in every run the members are exactly those who accepted an invitation and were not removed since, in the role of that invitation or of the last change; each invitation is the command line's or, like each change and removal, that of a member standing as owner or administrator, as owner where ownership is at stake; the first of a tenant is the command line's |
| `Directory.AcceptanceGivesTheRoleOffered` | apps/api/app/directory/service.py:132-182 | in every run, exactly when an invitation can be accepted, and that it makes one membership, of its address's user, in its tenant, with its role |
| `Directory.InvitationIff` | apps/api/app/directory/service.py:49-103 | exactly when an invitation is created, whose it is, and that it can be accepted for a week; addresses are compared up to ASCII case |
| `Directory.RoleChangeIff` | apps/api/app/directory/service.py:205-230 | exactly when a role is changed: an owner asks where ownership is at stake, and somebody else owns the tenant |
| `Directory.RemovalIff` | apps/api/app/directory/service.py:233-252 | exactly when a member is removed, likewise |
| `Directory.WithdrawalIff` | apps/api/app/directory/service.py:117-129 | exactly which invitation is withdrawn, and that no other is |
| `Directory.PurgedIff` | apps/api/app/auth/tasks.py:25-47 | a purge removes exactly the invitations that can no longer be accepted and never were |
| `Directory.RequestsAreServed` | apps/api/app/directory/service.py:49-252 | a request of an owner or administrator is the operation with that role, the command line's has none, anyone else's changes nothing |
| `Directory.OwnersComeFromTheCli` | apps/api/app/directory/service.py:62-72 | a tenant without owner or owner invitation gets none unless the command line invites one |
| `Directory.InvitationRules` | apps/api/app/directory/service.py:79-182 | in every run at most one pending invitation per lower-cased address and tenant, and no token is accepted twice |
| `Directory.AcceptableYetNotPendingIff` | apps/api/app/directory/service.py:79-149 | an unaccepted invitation is acceptable and not pending if and only if it expires at this instant |
| `Directory.RivalsOnlyAtExpiry` | apps/api/app/directory/service.py:79-182 | in every run, two invitations of one lower-cased address and tenant can both be accepted only at an instant at which one of them expires |
| `Directory.TwoLiveInvitationsAtExpiry` | apps/api/app/directory/service.py:79-182 | at that instant a second invitation is created, the first is still accepted, and the second is then refused |
| `RateLimit.RateLimiter.EnforceRateLimit` | apps/api/app/auth/rate_limit.py:40-52 | keys are hit in order up to the first over its limit |
| `RateLimit.AdmittedIffAllWithin` | apps/api/app/auth/rate_limit.py:40-52 | a request passes exactly when every key is within its limit, hit as often as it came, and then each counter is so |
| `RateLimit.WithinWindow` | apps/api/app/auth/rate_limit.py:40-52 | within one window a key admits no more than what is left of its allowance |
| `RateLimit.SlidingBound` | apps/api/app/auth/rate_limit.py:40-52 | at most 2N − 1 of one key's hits are within its limit in any interval of one window length |
| `RateLimit.RequestBound` | apps/api/app/auth/rate_limit.py:40-52 | over every sequence of requests with several keys each, at most 2N − 1 with a given key are let through in any interval of one window length |
| `RateLimit.BoundIsReached` | apps/api/app/auth/rate_limit.py:40-52 | requests with one key of which exactly that many are let through in such an interval, for every limit and key |
| `Base64Url.DecodePaddedInvertsEncodePadded` | apps/api/app/auth/tokens.py:33-39 | decoding padded base64url gives back every byte string |
| `Base64Url.PaddedForm` | apps/api/app/auth/tokens.py:33-39 | the encoding without its padding stays in the alphabet, and the padding recomputed from its length restores it |
| `Base64Url.DecodeInvertsEncode` | apps/api/app/auth/tokens.py:33-39 | decoding the stripped form gives back every byte string (section 5 of RFC 4648) |
| `Base64Url.PadFreeDecodesIff` | apps/api/app/auth/tokens.py:33-39 | without pads a text decodes exactly when its digits make whole groups, to three bytes a group |
| `Base64Url.JunkIsSkipped` | apps/api/app/auth/tokens.py:33-39 | characters outside the alphabet change nothing |
| `Base64Url.PadsAreCounted` | apps/api/app/auth/tokens.py:33-39 | which pads end a text and which are skipped |
| `SignedPayload.VerifyInvertsSign` | apps/api/app/auth/tokens.py:47-73 | a signed payload verifies to the data without `exp` up to its expiry and is refused as expired after |
| `SignedPayload.RoundTripIffNoReservedKey` | apps/api/app/auth/tokens.py:47-73 | the data comes back unchanged if and only if it has no key `exp` |
| `SignedPayload.VerifiedIsSignedAndCurrent` | apps/api/app/auth/tokens.py:55-73 | what verifies is a payload followed by its own signature, decoded, before the expiry it carries |

## Left out

Weaker or conditional statements:

- `TenantGuard.GuardOrmExecute`: SQLAlchemy's expansion of the loader criteria is modelled as one conjunct per entity, in WHERE for the leftmost and in ON for a joined one; textual SQL, ORM bulk inserts and set operations between selects are not statements of the model.
- `TenantIsolation.NonInterference`: supposes that bulk updates leave primary keys and `tenant_id` alone, that new primary keys are unused, that only loaded or added objects are reloaded or written back, that a relationship is followed from an object that a query with criteria loaded, and that scoped tables are reached as entities; the last condition is the exact one of `ProtectedIffViaEntities`.
- `ConnectorService.RefreshConnection`: the lock covers the grant call only, not the commit that follows, as in the source; a single refresh per expiry is therefore not claimed.
- `LockProtocol.ExclusionIffHeldUnderTtl`: the time a worker stays inside is a hypothesis, since the code bounds neither the budget wait, nor Retry-After, nor the provider's answer below the lock's lifetime.
- `LockProtocol.HeldIffSomeoneInside`: a worker that dies inside leaves the lock set until it expires.
- `SubscriptionRenewal.SubscriptionsNeverLapseIff`: a renewal tick is one instant.
- `UsageQuota.CounterAlwaysAgreesIff`: a call's insert and counter update are one step, and so are the sums of a reconciliation and the counters set to them; the calendar of months is a parameter.
- `Throttle.RefreshWaitsOutliveTheLock`: the window counts only the connection's own attempts while the call is under way, and the budget is at least the number of attempts a call may make.
- `RateLimit.RequestBound`: INCR and EXPIRE are one step; a process dying between them leaves a counter that never expires.
- `Directory.OwnerForever`: each operation is atomic; the source takes no row lock, so two concurrent removals in PostgreSQL can break it.
- `Directory.InvitationRules`: atomic operations likewise; addresses are lower-cased for ASCII letters only.
- `ModuleCache.StalenessBoundIsTheTtl`: the interleavings are of one tenant and module; keys do not interact.
- `SubscriptionRenewal.SubscriptionService.RenewExpiringSubscriptions`: the token refresh a renewal may trigger on its way is a separate lifecycle step, and the commit after each subscription is not distinguished from the change it commits.
- `Gateway.AIGateway.AskStream`: the exception that ends a broken stream, or the quota failure that replaces it, is not part of its result, only of the journal.
- `SignedPayload.VerifyInvertsSign`: JSON is a printer and a parser of which only the round trip is asked, and the MAC is any function with a non-empty result; a body that is not an object and a boolean expiry are not modelled.
- `LoginMachine.EverySessionIsEarned`: covers password logins; sessions opened by an OAuth provider's callback are not in the model.

Not modelled:

- Cryptography: hashes of tokens stand for the tokens, a password check is equality, encryption of stored secrets is the identity, and the rehash of an old password hash is left out.
- HTTP, Celery, SMTP, Valkey and PostgreSQL themselves; each command or transaction is a step, and isolation anomalies are out.
- Token, cost and latency fields that are only copied, and the price version stamp.
- Embedding vectors, message bodies and tool calls of the gateway; embeddings share the metering of a chat without fallback.
- A renewal failure overwriting a NEEDS_RECONSENT set by the token refresh inside it: in the lifecycle both are steps, and the first takes the connection out of the tick.
- The provider budget of the retry envelope beyond the delay it imposes: it sleeps once and does not count again.
- `run_periodic_unit` (apps/api/app/automation/scheduler.py): its docstring promises a check of the activation when the unit runs, which its code does not make.
- Nesting of tenant contexts (apps/api/app/tenancy/context.py): a stack of values with easy laws.
- Listing pending invitations, whose answer does depend on purges.
- OAuth state parsing, return-host validation, webhook reception, payload mappings of the providers, module registry checks: field copying and direct checks.
- The web client and the deployment.
