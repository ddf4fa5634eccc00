# Metering, billing cycles, tenant catalog and payments: a verified model

This project models the four stateful cores of the service and proves what they promise:

- **Metering.** An event is checked for duplicates, written to memory, and fanned out
  through a bounded channel per slower backend. What a circuit breaker refuses, what does
  not fit in a channel and what a backend fails to take goes to a segmented log that a
  retry loop replays. `MeteringMachine` is this as a machine of atomic steps: callers,
  workers and the retry loop interleave freely and every write may fail, with or without
  effect. `MeteringSafety` proves its invariant for every run; `MeteringLog`,
  `MeteringResults`, `MeteringAgreement`, `MeteringSubscriptions`, `BreakerRecovery` and
  `BreakerClosing` say what it means, `MeteringEffects` what single steps touch, and
  `MeteringPaths` and `MeteringRest` what can be reached. `CircuitBreaker`,
  `EventDedup`, `SegmentLog`, `MeteringMemory` and `MeteringChain` are the objects in the
  form the code has them.
- **Billing cycles.** `Calendar` is Go's `AddDate` on the proleptic Gregorian calendar,
  `CycleWindow` the current cycle of a subscription, `CycleBilling` the two together with
  aggregation. Instants are nanoseconds since year 1 in UTC; time zones are fixed offsets.
- **Tenant catalog.** `CatalogState` is the layered catalog with its repair log as a value,
  `CatalogMemory`, `CatalogWAL` and `CatalogChain` are the objects, and `TenantService`
  registers services, metrics and plans through them. A caller's operation and the retry
  loop take turns one access at a time; between two accesses of the one, the other may take
  any number of its steps.
- **Payments and subscriptions.** `PaymentLedger` is the gateway's books, `Subscription`
  contracts, their states and entitlements, `Lifecycle` both over whole runs,
  `PaymentGateway` the gateway object, and `Rating` invoice arithmetic over exact reals.

## Where the code differs from its documentation

- A monthly window contains the queried time only when adding the months to the anchor did
  not carry it past that time, and monthly windows tile time only for anchor days up to 28
  (`MonthlyContainment`, `MonthlyTilesIff`); yearly windows overlap for a 29 February anchor
  (`YearlyTilesIff`).
- A producer asks a backend's breaker before it queues and the worker asks again before it
  writes, so a producer can take the only half-open probe; a query that was let through and
  finds nothing reports nothing either. A breaker can still close if and only if it is not
  half-open with nobody let through (`CanCloseIff`), those two steps are the only ones that
  bring it there (`OnlyWaysToStick`), and every chain has a run that does
  (`EveryChainCanStick`). The breaker's `Reset` would help, but nothing calls it.
- The metering log is sealed only by an append, which then writes to the next segment, so
  from its first entry on it is never empty again (`EmptyIffUnused`), and the last entry
  waits for the next one before it is replayed. The catalog's log is sealed by every replay
  pass (internal/kernel/catalog_wal.go:249-254) and does drain.
- After a restart the metering log starts numbering from the number of files. Appends then
  write into a file that was there if and only if a file is numbered above that
  (`RestartOverwritesIff`).
- The catalog swallows read errors of its layers. A taken key is registered a second time if
  and only if every layer that had it failed to answer (`Persist`): it is then not in memory,
  and the last layer failed (`TakenIsMissedIff`). `RestartLosesARegistration` is such a case.
- Firing a lifecycle event does not reload a contract from the store. For a tenant known
  only to the store the outcome is that of the stored contract if and only if the event does
  not misfire and, if it applies in trial, the stored plan is the starter plan
  (`FiringRespectsMirrorIff`); after a restart a cancelled tenant can become past due.
- A successful payment leaves the state of a contract on that same plan as it is if it is
  cancelled, or a state the lifecycle does not know (`PaidMeansActiveIff`): the contract
  handler stores any state that is not blank, such as "Active"
  (internal/modules/subscription/handlers.go:144-167). A checkout for an amount of zero is
  accepted although the error text asks for more than zero
  (internal/modules/payment/service.go:19, 56-58).
- An invoice's lines add up to its subtotal only if the flat fee is not negative
  (`CalculateInvoice`).
- The default unit of a metric never applies, because validation has already rejected a
  blank one (internal/modules/tenant/service.go:142-144).

## Model

| member | source | states |
|---|---|---|
| MeteringSafety.StepKeepsInv | internal/kernel/metering_chain.go:162-212 | each of the twenty kinds of step, of callers, workers, the retry loop, pruning and the clock, keeps the invariant: every accepted event is on its way to, queued for, logged for or stored in every backend, channels stay within capacity, memory's breaker stays closed, memory takes each event once, and the retry loop deletes only what was applied |
| MeteringSafety.CloseKeeps | internal/kernel/metering_wal.go:331-337 | deleting a segment whose lines all succeeded loses no event: each of its lines is stored in the backend it names |
| MeteringSafety.LogKeeps | internal/kernel/metering_wal.go:112-144 | an append that may rotate the log first keeps every accepted event located |
| MeteringSafety.SendKeeps | internal/kernel/metering_chain.go:200-208 | a send to a full channel loses nothing: the event goes on to the log |
| MeteringSafety.StartInv | internal/kernel/metering_chain.go:82-105 | a fresh chain satisfies the invariant |
| MeteringSafety.ReachableInv | internal/kernel/metering_chain.go:162-212 | every state of every run satisfies the invariant, whatever the interleaving and the faults |
| MeteringResults.NoAcceptedEventIsLost | internal/kernel/metering_chain.go:162-212 | in every state of every run each accepted event is, for every slower backend, with a goroutine that will deal with it, in the channel, in the log under that backend's name or stored; nothing is stored that was not accepted; no channel exceeds its capacity |
| MeteringLog.LoggedUntilApplied | internal/kernel/metering_wal.go:112-144 | in every run an entry, of an event or of a registration, stays in the log until the backend it names has taken it |
| MeteringLog.SealedIsFinal | internal/kernel/metering_wal.go:245-265 | in every run a sealed segment stays sealed and as it was for as long as it is there, and does not come back once deleted |
| MeteringLog.EmptyIffUnused | internal/kernel/metering_wal.go:316-338 | the log is empty exactly in the states before the first append of the run |
| MeteringLog.LogNeverDrains | internal/kernel/metering_wal.go:316-338 | after any append the active segment is never empty again |
| MeteringResults.QuietHasAllIff | internal/kernel/metering_chain.go:581-635 | once nobody has a backend left to deal with and its channel is empty, it has every accepted event if and only if every event logged for it has been replayed; memory then has them all |
| MeteringRest.RestAfterFaults | internal/kernel/metering_chain.go:506-547 | a run in which one write fails and another only reports failure, and replay then brings the backend to such a rest with both events |
| MeteringResults.ReachableMemory | internal/kernel/metering_memory.go:68-81 | in every state of every run memory holds, per tenant, exactly the accepted events that reached it, in that order and stamped with that time if they had none |
| MeteringResults.SubscribedLater | internal/kernel/metering_memory.go:42-66 | a subscription once in memory stays there in every continuation |
| MeteringResults.MemoryAdmits | internal/kernel/metering_chain.go:217-250 | no step ever opens memory's circuit breaker |
| MeteringResults.AnswersIgnoreSlowerBackends | internal/kernel/metering_chain.go:286-310 | once a subscription is registered, the chain's usage statement is the aggregation of the accepted events in memory, whatever slower backends answer or fail at |
| MeteringResults.MemoryHasEachOnce | internal/kernel/metering_chain.go:162-182 | when all accepted events have reached memory, it holds each exactly once, with its time of arrival where it had none |
| MeteringResults.MemoryTotals | internal/kernel/metering_memory.go:100-142 | statement totals are then those of the accepted events as stamped on arrival, each counted once, in any interleaving of callers |
| MeteringAgreement.ReachableSpaced | internal/kernel/metering_dedup.go:52-80 | over all runs two accepted events with the same id are more than the retention apart |
| MeteringAgreement.ReachableDistinct | internal/kernel/metering_dedup.go:52-80 | in a run whose submissions repeat an id only within the retention, accepted ids are distinct |
| MeteringAgreement.PruneForgets | internal/kernel/metering_dedup.go:70-80 | a prune forgets exactly the ids accepted longer ago than the retention |
| MeteringAgreement.RowsMeaning | internal/kernel/metering_postgres.go:151-156 | a table that ignores repeated ids has each id once, only inserted rows, and a row for every inserted id |
| MeteringAgreement.QueriesAgree | internal/kernel/metering_postgres.go:257-263 | the grouping query over the rows and memory's loop over any reordering of them give the same statement lines, if each metric has one unit |
| MeteringAgreement.TableIsComplete | internal/kernel/metering_postgres.go:141-160 | a backend that took every accepted event and no other, however often, has a table of exactly these events |
| MeteringAgreement.TableCompleteIff | internal/kernel/metering_postgres.go:141-160 | of a backend with nothing under way, the table is exactly the accepted events if and only if every event logged for it has been replayed |
| MeteringAgreement.AgreementAtRest | internal/kernel/metering_chain.go:184-210 | once nothing is under way for a backend and its logged events have been replayed, its statement lines equal memory's for every tenant, service and window, whatever was refused, overflowed, failed or replayed before |
| MeteringSubscriptions.StepKeeps | internal/kernel/metering_chain.go:581-635 | each of the twenty kinds of step keeps every write of an event or a subscription located for every slower backend |
| MeteringSubscriptions.NoRegistrationIsLost | internal/kernel/metering_chain.go:217-250 | in every run a registration, from its start on, is with its caller, in the log under the backend's name or stored, for every slower backend |
| MeteringSubscriptions.RegistrationSettlesIff | internal/kernel/metering_chain.go:217-250 | in every run, a registration of new content begun while no other of that tenant and service is under way to memory or the backend, or logged for it, and followed by no other: once the backend is quiet memory has it, and the backend has it as its latest if and only if it was not logged for it or has been replayed |
| BreakerRecovery.StuckStays | internal/kernel/metering_chain.go:514-525 | a half-open breaker with nobody let through stays so under every step, and its backend receives nothing |
| BreakerRecovery.StuckForever | internal/kernel/metering_chain.go:514-525 | and so forever, in every run |
| BreakerRecovery.ProducerLosesProbe | internal/kernel/metering_chain.go:190-198 | a producer's consultation after the cooldown brings that about |
| BreakerClosing.QueryLosesProbe | internal/kernel/metering_chain.go:286-310 | and so does a query that is let through and finds nothing |
| MeteringEffects.AnsweredQueryEnds | internal/kernel/metering_chain.go:302-308 | a query ends with the first backend that has an answer |
| BreakerClosing.OnlyWaysToStick | internal/kernel/metering_chain.go:190-198 | no other step does |
| BreakerClosing.CanCloseIff | internal/kernel/metering_chain.go:506-547 | from any state of a run some continuation closes a slower backend's breaker if and only if it is not half-open with nobody let through |
| BreakerClosing.EveryChainCanStick | internal/kernel/metering_chain.go:286-310 | from every start, whatever the settings, some run leaves the first slower backend's breaker stuck |
| MeteringChain.FanOutOneIsSteps | internal/kernel/metering_chain.go:190-209 | one turn of the fan-out loop is the machine's consult, send and append steps with no other goroutine between |
| MeteringChain.FanOutReachesAll | internal/kernel/metering_chain.go:184-210 | after fan-out the event is in the channel of or in the log for every slower backend; nothing queued or logged before is lost; no channel goes over capacity |
| MeteringChain.FanOutSplits | internal/kernel/metering_chain.go:184-210 | with different names, exactly where it is then: once at the end of the channel of each backend that is let through and has room, in the log for exactly the others, and nothing else is new in either |
| MeteringChain.MeteringChain.constructor | internal/kernel/metering_chain.go:82-105 | a new chain with memory registered is well formed |
| MeteringChain.MeteringChain.AddBackend | internal/kernel/metering_chain.go:110-130 | the backends stay sorted by priority and are the same plus the new one, whose name gets a closed breaker and, above priority 0, an empty channel; the chain stays well formed if the name is new and the priority above 0 |
| MeteringChain.MeteringChain.FanOutTo | internal/kernel/metering_chain.go:190-209 | one turn of the fan-out loop does to breakers, channels and log what its specification says |
| MeteringChain.MeteringChain.RecordMeteringEvent | internal/kernel/metering_chain.go:162-212 | a duplicate changes nothing; otherwise memory takes the event and it is fanned out to every slower backend in order of priority |
| MeteringChain.MeteringChain.WriteFirst | internal/kernel/metering_chain.go:174-181 | the synchronous write happens once, if a backend of priority 0 exists |
| MeteringChain.MeteringChain.Deliver | internal/kernel/metering_chain.go:229-247 | an operation handed to a slower backend ends stored or logged under its name, with the outcome recorded in its breaker |
| MeteringChain.MeteringChain.AsyncWriteWorker | internal/kernel/metering_chain.go:506-547 | a worker empties its channel, and each operation taken ends stored or logged; a backend that is let through and takes every write gets all of them in order and the log nothing |
| MeteringChain.MeteringChain.RegisterServiceSubscription | internal/kernel/metering_chain.go:217-250 | memory has the subscription and each slower backend has it or the log keeps it; a backend is written to if and only if its breaker lets the write through; the error is that of the first write that failed, and there is none if none did |
| MeteringChain.MeteringChain.ReplayWALEntry | internal/kernel/metering_chain.go:581-635 | a replayed line counts as done only if the named backend, memory included, took it; the backend is written to whenever its breaker lets the write through; an unknown backend or refusing breaker changes nothing; a line that is no write fails without an outcome |
| MeteringChain.MeteringChain.GetServiceUsageStatement | internal/kernel/metering_chain.go:286-310 | the answer is the first statement in the order of the backends, of memory or of a slower one that is healthy, let through and has one, and there is none exactly if nobody has; memory's own whenever it knows the subscription; the breaker of the one that answered is closed, those asked before it in vain are consulted without an outcome, all others are as they were |
| CircuitBreaker.CounterMeaning | internal/kernel/metering_circuit_breaker.go:110-131 | over any history the counter is the number of failures since the last success, reset or trip, and stays below the threshold |
| CircuitBreaker.ProbesAreSeparated | internal/kernel/metering_circuit_breaker.go:82-106 | between two requests let through while not closed an outcome or a reset is recorded |
| CircuitBreaker.HalfOpenUntilOutcome | internal/kernel/metering_circuit_breaker.go:82-106 | without an outcome or reset a half-open circuit stays as it is |
| CircuitBreaker.OpenUntilCooldown | internal/kernel/metering_circuit_breaker.go:120-131 | until the cooldown ends only a success or reset ends an open circuit |
| CircuitBreaker.RefusedUntilCooldown | internal/kernel/metering_circuit_breaker.go:88-99 | from a trip until the cooldown every request is refused unless a success or reset came first |
| CircuitBreaker.AdmittedAfterCooldown | internal/kernel/metering_circuit_breaker.go:88-99 | the first request after the cooldown of the last trip is let through as a probe |
| CircuitBreaker.Fresh | internal/kernel/metering_circuit_breaker.go:60-76 | a new breaker is closed, with the threshold and cooldown it is given, or 5 and 30 seconds where these are not positive |
| CircuitBreaker.CircuitBreaker.Allow | internal/kernel/metering_circuit_breaker.go:82-106 | admits exactly when closed or when open past the cooldown, and then becomes half-open |
| CircuitBreaker.CircuitBreaker.RecordSuccess | internal/kernel/metering_circuit_breaker.go:110-115 | closes the circuit and clears the counter |
| CircuitBreaker.CircuitBreaker.RecordFailure | internal/kernel/metering_circuit_breaker.go:120-131 | counts, and trips at the threshold or when half-open |
| CircuitBreaker.CircuitBreaker.Reset | internal/kernel/metering_circuit_breaker.go:142-147 | closes the circuit and clears the counter |
| EventDedup.Remembered | internal/kernel/metering_dedup.go:52-80 | an accepted id is remembered for as long as the retention lasts |
| EventDedup.AcceptancesAreSpaced | internal/kernel/metering_dedup.go:52-80 | for any interleaving of checks and prunes two acceptances of one id are more than the retention apart |
| EventDedup.RefusedOnlyRepeats | internal/kernel/metering_dedup.go:52-66 | a refused id was accepted before |
| EventDedup.ForgottenAfterPrune | internal/kernel/metering_dedup.go:70-80 | what a prune leaves was accepted within the retention before it |
| EventDedup.NamelessIsNew | internal/kernel/metering_dedup.go:52-56 | an event without an id is accepted every time and not remembered |
| EventDedup.EventDedup.IsDuplicate | internal/kernel/metering_dedup.go:52-66 | reports a duplicate exactly for a non-empty id seen before, and otherwise remembers it |
| EventDedup.EventDedup.Prune | internal/kernel/metering_dedup.go:70-80 | forgets exactly the ids first seen before the cutoff |
| SegmentLog.GrownTransitive | internal/kernel/metering_wal.go:112-144 | any number of appends and rotations leave sealed segments as they were and only lengthen the active one |
| SegmentLog.PutHolds | internal/kernel/metering_wal.go:112-144 | an append, with a rotation or without, keeps every entry and adds only the new one |
| SegmentLog.AppendMeaning | internal/kernel/metering_wal.go:112-144 | an entry goes to the end of the active segment, or begins the next if the active one has reached its size or its age; size and age then start anew |
| SegmentLog.RestartOverwritesIff | internal/kernel/metering_wal.go:97-102 | after a restart some appends write into a file that was there if and only if a file is numbered above the number of files |
| SegmentLog.GapIsOverwritten | internal/kernel/metering_wal.go:97-102 | with the first of two files deleted the next append goes into the second |
| SegmentLog.MeteringWAL.Append | internal/kernel/metering_wal.go:112-144 | appends unless stopped, rotating first at the size or age limit |
| SegmentLog.MeteringWAL.RotateSegment | internal/kernel/metering_wal.go:245-265 | opens the next segment and leaves every other as it was |
| SegmentLog.MeteringWAL.Depth | internal/kernel/metering_wal.go:171-185 | the depth is the number of entries over all segments |
| SegmentLog.NoEntriesIff | internal/kernel/metering_wal.go:171-185 | which is zero exactly when every segment is empty |
| SegmentLog.MeteringWAL.ReplaySegment | internal/kernel/metering_wal.go:340-373 | calls the replay function for each entry of a sealed segment once and in order, and succeeds exactly if all calls did, while others append |
| SegmentLog.MeteringWAL.ReplaySealed | internal/kernel/metering_wal.go:316-338 | every segment sealed when the pass began is replayed by calls of its own, oldest first; it is gone afterwards exactly when all of them succeeded and otherwise has every entry; the active segment and later ones lose nothing |
| MeteringMemory.AggregateMeaning | internal/kernel/metering_memory.go:122-140 | a statement has a line for exactly the metrics with an event in the window; each line is the sum and number of those events under the first one's unit |
| MeteringMemory.OneMoreEvent | internal/kernel/metering_memory.go:122-140 | one more event adds its quantity and one to its metric's line exactly if it is the service's and not before the window's start nor at or after its end; other lines stay |
| MeteringMemory.StatementMeaning | internal/kernel/metering_memory.go:100-142 | a statement is there exactly for a subscribed service, covers its current cycle, and has a line for exactly the metrics with an event of the service in it |
| MeteringMemory.RegisterMeaning | internal/kernel/metering_memory.go:42-66 | a subscription is kept as given, with UTC, the present and active where it has no time zone, anchor or status; one without tenant or service is ignored; no other subscription and no event changes |
| MeteringMemory.RecordMeaning | internal/kernel/metering_memory.go:68-81 | an event is kept as given at the end of its tenant's list, with the present as its time if it has none; one without a tenant is ignored |
| MeteringMemory.TotalPermuted | internal/kernel/metering_memory.go:122-140 | totals and counts do not depend on the order of events |
| MeteringMemory.TotalWithout | internal/kernel/metering_memory.go:122-140 | taking one event away changes a metric's total by exactly its share |
| MeteringMemory.RecordIsLocal | internal/kernel/metering_memory.go:68-81 | recording an event changes no statement of another tenant or service |
| MeteringMemory.MemoryMeteringStore.RegisterServiceSubscription | internal/kernel/metering_memory.go:42-66 | stores the subscription with defaults under its tenant and service, and nothing else |
| MeteringMemory.MemoryMeteringStore.RecordMeteringEvent | internal/kernel/metering_memory.go:68-81 | appends the event, stamped if it has no time, to its tenant's list |
| MeteringMemory.MemoryMeteringStore.GetServiceSubscriptions | internal/kernel/metering_memory.go:85-98 | returns all subscriptions of the tenant and nothing else |
| MeteringMemory.MemoryMeteringStore.SumUp | internal/kernel/metering_memory.go:122-140 | the loop computes the aggregation |
| MeteringMemory.MemoryMeteringStore.GetServiceUsageStatement | internal/kernel/metering_memory.go:100-142 | the statement of the subscription's current cycle, or none without a subscription |
| MeteringMemory.MemoryMeteringStore.GetTenantUsageOverview | internal/kernel/metering_memory.go:144-191 | one statement per subscribed service, each what that service's own query returns |
| Calendar.YearStart | internal/kernel/metering.go:56-77 | the day a year starts on, from its leap days, agrees with adding up months |
| Calendar.UnixEpoch | internal/kernel/metering.go:56-77 | 1 January 1970 is 62135596800 seconds after 1 January of year 1 |
| Calendar.MonthOfDayUnique | internal/kernel/metering.go:56-77 | every day lies in exactly one month |
| Calendar.FromLocalInverse | internal/kernel/metering.go:56-77 | splitting an instant into month, day and clock inverts putting it together |
| Calendar.AddDateInRange | internal/kernel/metering.go:56-77 | adding years and months keeps day and clock, or carries the surplus days into the next month |
| Calendar.AddDateTwice | internal/kernel/metering.go:56-77 | two additions are one exactly as far as no day was carried |
| CycleWindow.MonthlyContainment | internal/kernel/metering.go:68-77 | a monthly window contains the time it was asked for if and only if the anchor was not carried past it |
| CycleWindow.MonthlyWindowIsCycle | internal/kernel/metering.go:68-77 | with an anchor day up to 28 the window is the cycle between two successive month boundaries, and contains the time |
| CycleWindow.CycleIsMonthlyWindow | internal/kernel/metering.go:68-77 | and every such cycle is the window of each of its instants |
| CycleWindow.MonthlyTiles | internal/kernel/metering.go:42-77 | with an anchor day up to 28 every time lies in its window, two windows are equal or disjoint, and each ends where the next begins |
| CycleWindow.LateAnchorOverlaps | internal/kernel/metering.go:68-77 | any later anchor day has two different windows that share an instant |
| CycleWindow.MonthlyTilesIff | internal/kernel/metering.go:42-77 | monthly windows tile time if and only if the anchor day is at most 28 |
| CycleWindow.YearlyContainment | internal/kernel/metering.go:56-63 | a yearly window contains the time it was asked for, for every anchor date |
| CycleWindow.YearlyTiles | internal/kernel/metering.go:56-63 | for every anchor but 29 February yearly windows tile time |
| CycleWindow.LeapDayOverlaps | internal/kernel/metering.go:56-63 | for 29 February two different windows share an instant in each later leap year |
| CycleWindow.YearlyTilesIff | internal/kernel/metering.go:56-63 | yearly windows tile time if and only if the anchor is not 29 February |
| CycleWindow.WindowContains | internal/kernel/metering.go:42-79 | exactly when the current window contains the queried time, for both kinds of cycle |
| CycleWindow.MonthEndAnchorMissesItsCycle | internal/kernel/metering.go:72-75 | anchor 31 January 2025 and 2 March 2025: the window does not contain the time |
| CycleWindow.WindowIsCycle | internal/kernel/metering.go:42-79 | with such an anchor the window is the numbered cycle around the time, at its place in the sequence from the anchor |
| CycleWindow.ZonedWindow | internal/kernel/metering.go:47-79 | for every anchor and charge the window in a zone is the one the wall clock there would have in UTC; an unknown zone is UTC |
| CycleWindow.ZonedMonthly | internal/kernel/metering.go:47-77 | read in the subscription's zone, a monthly window begins and ends on the anchor's day and time of day in successive months, with the queried time between, for anchor days there up to 28 |
| CycleWindow.ZonedYearly | internal/kernel/metering.go:47-63 | and a yearly one on the anchor's date and time of day in successive years, for anchors there other than 29 February |
| CycleWindow.NothingBeforeTheAnchor | internal/kernel/metering.go:43-45 | before the anchor the cycle is empty and stands at the anchor |
| CycleWindow.CycleAtItsStart | internal/kernel/metering.go:42-79 | asked at its first instant, each cycle is its own window |
| CycleWindow.NeverInTwoIff | internal/kernel/metering.go:42-79 | no instant lies in two different windows if and only if the anchor is regular |
| CycleBilling.BilledOnce | internal/kernel/metering_memory.go:100-142 | an event at or after the anchor is counted in one cycle's statement, that of its timestamp, and no other |
| CycleBilling.BillsAddUp | internal/kernel/metering_memory.go:100-142 | the statements of the first n cycles add up to the usage from the anchor to the end of the n-th |
| CatalogMemory.MemoryTenantCatalogStore.RegisterService | internal/kernel/tenant_catalog_memory.go:31-51 | stores a valid service under its key and nothing else, or refuses and changes nothing |
| CatalogMemory.MemoryTenantCatalogStore.RegisterMetric | internal/kernel/tenant_catalog_memory.go:85-105 | the same for a metric |
| CatalogMemory.MemoryTenantCatalogStore.RegisterPlan | internal/kernel/tenant_catalog_memory.go:139-162 | the same for a plan, whose missing version becomes 1 |
| CatalogMemory.MemoryTenantCatalogStore.Get | internal/kernel/tenant_catalog_memory.go:53-64 | finds exactly what is stored under the key |
| CatalogMemory.MemoryTenantCatalogStore.List | internal/kernel/tenant_catalog_memory.go:66-81 | lists each of the tenant's descriptors of a kind once |
| CatalogMemory.Stamped | internal/kernel/tenant_catalog_memory.go:44-49 | stamping changes a descriptor's creation time and missing version only |
| CatalogTypes.ServiceIdPattern | internal/kernel/types.go:14 | a service id is valid exactly if it matches the code's pattern: one letter or digit, or two with up to 62 letters, digits, hyphens and underscores between |
| CatalogTypes.ServiceIsFine | internal/kernel/types.go:294-309 | a service is valid exactly with a valid id, a name of 1 to 128 characters when trimmed and a description of up to 512; id and name are reported in that order |
| CatalogTypes.MetricIsFine | internal/kernel/types.go:322-343 | a metric is valid exactly with an id of 1 to 64 characters, a valid service id, a name of up to 128, a description of up to 512 and a unit that is not blank |
| CatalogTypes.PlainSameIff | internal/kernel/tenant_catalog_memory.go:44-49 | two descriptors count as the same item exactly if they differ in nothing but the time of creation and a missing version for version 1 |
| CatalogWAL.CatalogWAL.Append | internal/kernel/catalog_wal.go:108-138 | appends unless stopped, rotating first at a limit that is set |
| CatalogWAL.CatalogWAL.RotateSegment | internal/kernel/catalog_wal.go:201-233 | seals the active segment and opens the next |
| CatalogState.BeganKeeps | internal/kernel/catalog_chain.go:62-66 | any registration may begin without breaking the invariant; one of a taken key with other content ends the claims made for reliable reads |
| CatalogState.WroteKeeps | internal/kernel/catalog_chain.go:62-75 | writing a registered item to any layer keeps every layer part of the map and the repair log complete |
| CatalogState.SettledKeeps | internal/kernel/catalog_chain.go:62-75 | a write that arrived is no longer owed |
| CatalogState.LoggedKeeps | internal/kernel/catalog_chain.go:263-281 | a logged write may be forgotten by the caller |
| CatalogState.DroppedKeeps | internal/kernel/catalog_wal.go:262-267 | a sealed segment whose lines for the last layer arrived there may be deleted |
| CatalogState.ExpiredKeeps | internal/kernel/tenant_catalog_redis.go:54-64 | expiry in a middle layer loses nothing |
| CatalogState.MissingIsLogged | internal/kernel/catalog_chain.go:64-75 | a registered item the last layer lacks is in the log under that layer's name |
| CatalogState.RepairIsComplete | internal/kernel/catalog_wal.go:249-268 | with the log empty the last layer has exactly the registered keys, and with reliable reads exactly the registered items |
| CatalogState.LayersAgree | internal/kernel/catalog_chain.go:107-128 | with reliable reads no two layers disagree about a key |
| CatalogState.MissedIff | internal/kernel/catalog_chain.go:90-104 | a lookup comes back empty if and only if every layer that has the key failed to answer |
| CatalogState.TakenIsMissedIff | internal/kernel/catalog_chain.go:90-104 | a registered key is missed if and only if it is not in memory and the last layer fails, with every layer between that has it |
| CatalogState.FailedReadLosesARegistration | internal/kernel/catalog_chain.go:62-104 | a second registration let through by such a lookup replaces what was registered, in memory and in the last layer |
| CatalogChain.RestartedInv | internal/kernel/catalog_chain.go:31-36 | after a restart, memory and log empty and the last layer the catalog, the invariant holds |
| CatalogChain.RestartLosesARegistration | internal/kernel/catalog_chain.go:62-104 | a restart state in which one failed read loses a registration |
| CatalogChain.CatalogChain.Register | internal/kernel/catalog_chain.go:62-85 | for any item, under any layer faults and replay interleaving: the item joins the history, memory holds it, the last layer has it or a log line for that layer waits, every layer was written to, and the caller sees an error only if memory refused it |
| CatalogChain.CatalogChain.WriteThrough | internal/kernel/catalog_chain.go:64-75 | one layer's turn: the layer takes the item or the log keeps it under the layer's name |
| CatalogChain.CatalogChain.Search | internal/kernel/catalog_chain.go:90-102 | the lookup asks the layers in order, each once, up to the first that answers with the key; the answer is as the layers, each as it was when asked, and the failed reads say; memory never fails |
| CatalogChain.CatalogChain.Get | internal/kernel/catalog_chain.go:90-104 | the layers are asked in order up to the first that has the key, and all before it are written what it has; with reliable reads the answer is that of a write-once map, under any replay and expiry in between; without, what is found was still registered; what is found is then in memory |
| CatalogChain.CatalogChain.BackfillAll | internal/kernel/catalog_chain.go:107-111 | every faster layer is written the item; every layer stays part of the map and memory has the item |
| CatalogChain.CatalogChain.List | internal/kernel/catalog_chain.go:114-128 | the list is exactly the last layer's part of the tenant, or memory's if the one read of that layer failed, and is then written to every faster layer; what is listed was registered and can then be read from memory; with reliable reads a registered key the list leaves out is in memory |
| CatalogChain.CatalogChain.ReplayWALEntry | internal/kernel/catalog_chain.go:286-330 | a line is written once to the layer it names, and succeeds if that write does; for the last layer the key is then there; a line for an unknown layer is discarded |
| CatalogChain.CatalogChain.ReplaySegment | internal/kernel/catalog_wal.go:270-299 | every line of a sealed segment is tried once, in order, and the segment succeeds exactly if all lines did, while callers go on; its lines for the last layer have then arrived there; the segment is unchanged |
| CatalogChain.CatalogChain.ReplaySealed | internal/kernel/catalog_wal.go:249-268 | one pass tries every line of every segment there was and deletes exactly those segments of which all lines went through; it loses no waiting write: it has arrived in the last layer or is still in the log |
| CatalogChain.CatalogChain.Meanwhile | internal/kernel/catalog_wal.go:249-268 | whatever replay, rotation, deletion and expiry do between a caller's accesses, memory is untouched and no key leaves the last layer |
| CatalogChain.CatalogChain.Callers | internal/kernel/catalog_chain.go:62-128 | whatever callers do between accesses of the retry loop, sealed segments stay and no key leaves the last layer |
| TenantService.ReferencesGrow | internal/modules/tenant/service.go:117-127 | registering an item whose references are registered keeps all references intact |
| TenantService.ReferencesHoldAtRest | internal/modules/tenant/service.go:198-256 | once the log is empty, services and metrics referred to in the last layer are in the last layer |
| TenantService.Service.Persist | internal/modules/tenant/service.go:45-76 | the check asks the layers in order up to the first that answers with the key; an item is registered if and only if every layer that had its key, as the check saw them, failed to answer; so with reliable reads exactly when the key was not taken, and otherwise the answer is a conflict |
| TenantService.Service.RegisterService | internal/modules/tenant/service.go:30-77 | an invalid service is refused and changes nothing; a valid one is registered or a conflict; references keep holding |
| TenantService.Service.RegisterMetric | internal/modules/tenant/service.go:107-168 | a metric is registered only under a registered service, under all faults; the stored unit is the one given |
| TenantService.Service.RegisterPlan | internal/modules/tenant/service.go:198-297 | a plan is registered only if its service and every rated or quota metric are, and no quota is negative; with reliable reads an acceptable plan is never refused as invalid |
| TenantService.Service.CheckQuotas | internal/modules/tenant/service.go:237-256 | the quota loop passes only non-negative quotas for registered metrics, and with reliable reads a failure has a culprit |
| Subscription.TransitionFollows | internal/modules/subscription/service.go:457-490 | a transition starts in a recognized state, changes it, never leads to trial, and from cancelled only to active |
| Subscription.TransitionMeaning | internal/modules/subscription/service.go:457-490 | exactly which events, trimmed and in lower case, lead from which states to active, to past due and to cancelled; nothing leads elsewhere |
| Subscription.ParseState | internal/modules/subscription/service.go:75-81 | a string is rejected exactly if, trimmed and in lower case, it is no recognized state |
| Subscription.ParseIgnoresPaddingAndCase | internal/modules/subscription/service.go:75-81 | white space around a string, lower-casing and upper-casing it make no difference |
| Subscription.ParsesItsOwnStates | internal/modules/subscription/service.go:75-81 | a string parses to itself exactly if it is a recognized state |
| Text.TrimMeaning | internal/modules/subscription/service.go:75-81 | trimming takes white space off both ends and nothing else |
| Subscription.CreatedInStep | internal/modules/subscription/service.go:218-269 | whatever the state before, after a creation the tenant's mirrored status, plan, anchor and time zone match its contract, and other tenants match exactly if they did |
| Subscription.StateInStepIff | internal/modules/subscription/service.go:314-357 | after a state change they match if and only if the contract changed is the tenant's own with an anchor and a time zone, whether or not they matched before |
| Subscription.WritesKeepInStep | internal/modules/subscription/service.go:314-414 | a tenant whose contract and mirror match keeps them so under every creation, state change and transition of any tenant, unless a contract under another's key names it |
| Subscription.ReloadInStepIff | internal/modules/subscription/service.go:272-302 | a reload from any of the tenant's subscriptions leaves contract and mirror matching exactly when what it read is the tenant's own, with an anchor and a time zone, and agrees with the mirror |
| Subscription.OwnReloadInStepIff | internal/modules/subscription/service.go:272-302 | for the mirror itself that is: it is under the tenant's key, with an anchor and a time zone, and active, past due or cancelled |
| Subscription.ReloadKeepsDecisionsIff | internal/modules/subscription/service.go:272-302 | reloading a tenant's contract from its matching mirror leaves every entitlement decision unchanged if and only if its state is recognized; trial comes back as active; nothing is asked of other tenants |
| Subscription.DecideAcrossRestart | internal/modules/subscription/service.go:417-455 | for a tenant with that one subscription, matching its contract, a restart on the same store changes no decision, whatever the other tenants' are |
| Subscription.DecidesEntitled | internal/modules/subscription/service.go:417-455 | the decision by the plan in force, the contract's or else the starter plan: allowed exactly if the plan does not mention the metric or allows it with its quota not positive or not reached; disallowed exactly if it forbids it; over quota exactly if a positive quota is reached; not usable exactly outside active and trial |
| Subscription.EntitledFromTheStart | internal/modules/subscription/service.go:133-182 | a new manager allows a tenant it knows nothing of one million tokens, a new contract on the professional plan ten million, and every other metric without limit |
| Subscription.PreparedMeaning | internal/modules/subscription/service.go:218-244 | what a new contract is stored with: as given but for white space around tenant and plan, and on trial, from now, in UTC and with an id of plan and tenant where these are blank or the zone unknown |
| Subscription.MirrorMeaning | internal/modules/subscription/service.go:246-257 | a contract is mirrored as a metered ai-completion subscription of its tenant with its plan, anchor and time zone, past due or cancelled exactly if it is |
| Subscription.ReloadedMeaning | internal/modules/subscription/service.go:272-302 | a reload has the subscription's terms and the state its status names, or trial |
| Subscription.TrialDiffersIff | internal/modules/subscription/service.go:457-490 | exactly which events take trial elsewhere than another state |
| Subscription.FiringRespectsMirrorIff | internal/modules/subscription/service.go:360-397 | for a tenant known only to the store an event leads to the state and plan it would lead to from the stored contract if and only if it does not misfire and, if it applies in trial, the stored plan is the starter plan |
| Subscription.FiringForgetsTheMirror | internal/modules/subscription/service.go:360-397 | a cancelled tenant known only to the store becomes past due on the starter plan |
| Subscription.Manager.CreateContract | internal/modules/subscription/service.go:218-269 | stores the contract with its defaults and mirrors it |
| Subscription.Manager.GetContract | internal/modules/subscription/service.go:272-302 | answers from the manager, else reloads one of the tenant's subscriptions and keeps it |
| Subscription.Manager.SetState | internal/modules/subscription/service.go:314-357 | sets the state of the tenant's contract and nothing else of it, or of a new contract on the starter plan from now in UTC, and mirrors it |
| Subscription.Manager.FireTransition | internal/modules/subscription/service.go:360-414 | moves the contract's state as the lifecycle says and nothing else of it, or a new starter contract's from trial, and mirrors it; an event that does not apply changes nothing |
| Subscription.Manager.CheckEntitlement | internal/modules/subscription/service.go:417-455 | decides in terms of the plan in force, by the contract in force after a possible reload, and without one by the starter plan on trial |
| Lifecycle.PaidMeansActiveIff | internal/modules/payment/service.go:166-183 | after a successful payment the tenant is on the plan paid for, and is active if and only if its contract was not already on that plan in a state other than trial, active and past due |
| Lifecycle.PaidSetsUp | internal/modules/payment/service.go:166-183 | a successful payment of a tenant without a contract on the plan sets up an active one from now on in UTC and its mirror, and changes no other tenant's |
| Lifecycle.KindMeaning | internal/modules/payment/service.go:259-289 | the six webhook events and their three meanings |
| Lifecycle.WebhookMeaning | internal/modules/payment/service.go:246-297 | a payment webhook that names a plan sets up an active contract on it; otherwise the six events are payment_succeeded, payment_failed and cancel, reported as moved exactly if they apply; any other does nothing |
| Lifecycle.StepFollows | internal/modules/payment/service.go:154-183 | every payment, with whatever contract it reloads, refund, webhook, event and lookup moves each tenant's state as the lifecycle allows and touches no other tenant |
| Lifecycle.TrialIsLeftForGood | internal/modules/subscription/service.go:360-414 | over every run states stay recognized and a tenant that left trial is never in trial again |
| Lifecycle.CancelledThenActive | internal/modules/subscription/service.go:457-490 | over every run the first state after cancelled is active |
| Lifecycle.OthersUntouched | internal/modules/payment/service.go:246-297 | over every run a tenant nothing is about keeps its contract |
| Lifecycle.InStepForGood | internal/modules/subscription/service.go:272-302 | over every run a tenant whose contract and mirror match keeps them so, reloads included, if the store had every subscription under its own tenant |
| PaymentLedger.OpenedKeeps | internal/modules/payment/service.go:50-83 | opening a checkout keeps the books sound |
| PaymentLedger.ProcessedKeeps | internal/modules/payment/service.go:96-164 | so does every verdict on a payment, including a challenge left open and a decline |
| PaymentLedger.ProcessedIsBooked | internal/modules/payment/service.go:96-164 | the verdict in its own terms: refused method, challenge without the code 123456, decline asked for, paid in every other case, and already done for a finished session; a decided payment finishes its session and adds one record of its tenant, plan, amount, currency, method and outcome; a challenge leaves the session waiting; everything else changes nothing |
| PaymentLedger.ChallengeMet | internal/modules/payment/service.go:123-129 | a session left waiting for a challenge is paid by a later attempt exactly with the code |
| PaymentLedger.RefundMeaning | internal/modules/payment/service.go:197-237 | a refund marks the one payment and adds one record with its money, session, plan, currency and method, the reason and a refund id; nothing else of the books changes |
| PaymentLedger.OpenedSession | internal/modules/payment/service.go:50-83 | a checkout's session is pending, for the trimmed tenant and plan, with the amount, the currency in upper case or USD, and the billing cycle or monthly |
| PaymentLedger.RefundedKeeps | internal/modules/payment/service.go:188-237 | so does a refund: its money moves from the payment to the refund record |
| PaymentLedger.ReachableOk | internal/modules/payment/service.go:96-244 | in every state of every run succeeded sessions of a tenant are worth its succeeded payments and refund records, each finished session has its one payment, a payment is marked refunded exactly as often as refunds were recorded, and an id names one transaction |
| PaymentLedger.OnePaymentEach | internal/modules/payment/service.go:139-164 | a session is finished if and only if it has a payment record, and it never has two |
| PaymentLedger.OneRefundEach | internal/modules/payment/service.go:188-237 | a session is refunded at most once, and only when its payment is marked refunded |
| PaymentLedger.FinishedStays | internal/modules/payment/service.go:104-107 | a finished session is never changed again in any run |
| PaymentLedger.TotalChange | internal/modules/payment/service.go:159-164 | changing one session changes the tenant's total by that session's worth |
| PaymentGateway.MockGateway.CreateCheckoutSession | internal/modules/payment/service.go:50-83 | opens a session exactly for a tenant, a plan and an amount that is not negative |
| PaymentGateway.MockGateway.ProcessPayment | internal/modules/payment/service.go:96-186 | the verdict, the session and the record are those of `PaymentLedger.ProcessedIsBooked`, stated of the gateway's own state, and the books stay sound; a success activates the subscription, a decline reports a failed payment, anything else leaves it alone |
| PaymentGateway.MockGateway.FindTransaction | internal/modules/payment/service.go:197-214 | the nested search finds a transaction with the id or reference exactly if there is one |
| PaymentGateway.MockGateway.RefundPayment | internal/modules/payment/service.go:188-244 | refunds exactly a named, succeeded transaction; every other request changes nothing |
| PaymentGateway.MockGateway.SimulateWebhook | internal/modules/payment/service.go:246-297 | changes contracts as the event says and never the books |
| Rating.ChargeGrows | internal/modules/billing/rating.go:104-114 | a charge is never negative, never falls as usage rises and is nothing within the quota |
| Rating.ChargeIsExact | internal/modules/billing/rating.go:104-114 | a charge times the unit quantity, or times one where that is not positive, is the usage beyond the quota times the price |
| Rating.ChargeMerged | internal/modules/billing/rating.go:104-114 | two usages charged apart cost no more than together |
| Rating.DueAllGrows | internal/modules/billing/rating.go:97-127 | what is due over all services never falls when usage rises |
| Rating.WithinQuotaIsFree | internal/modules/billing/rating.go:104-114 | usage within the quotas costs nothing |
| Rating.SeparateCostsNoMore | internal/modules/billing/rating.go:97-127 | charging services separately never exceeds charging their merged usage |
| Rating.CalculateInvoice | internal/modules/billing/rating.go:81-130 | after the base fee one line for each rated metric of each service, with its usage, what is billable beyond the quota, the price, and an amount that times the unit quantity is billable times price; the subtotal is the fee and all charges in whatever order; the lines add up to it if and only if the fee is not negative |

## Left out

- Removing a backend, stopping the chain and its shutdown timeout (internal/kernel/metering_chain.go:133-154, 458-497): the no-loss results are for running chains.
- Adding a backend while events flow: the machine starts with its backends; `MeteringChain.AddBackend` is proved on its own.
- MeteringChain.MeteringChain.AddBackend: says nothing of how a chain works on with two backends of one name or a second synchronous one.
- MeteringChain.MeteringChain.RecordMeteringEvent: this and the other methods of the class are for one goroutine with the log on; interleavings are in the machine. A chain without a log is not covered.
- Segment names sort as numbers up to 9999.
- The cascades of GetServiceSubscriptions, GetTenantUsageOverview and HealthReport: the same loop as GetServiceUsageStatement.
- MeteringEvent.Validate (internal/kernel/metering.go:123-137): four independent field checks that the chain does not call.
- Time zone databases and daylight saving: zones are fixed offsets, so a window derived from its start equals one derived from the anchor.
- MeteringAgreement.AgreementAtRest: about statement lines for a given window; that the subscription, and so the window, is the same is `RegistrationSettlesIff`. Events carry ids, and timestamps of their own because memory and the backend stamp separately; an id is not resubmitted after the retention, each metric has one unit.
- MeteringSubscriptions.RegistrationSettlesIff: while an older registration of the tenant and service is still under way or logged, it may be replayed over a newer one; which of the two a backend then ends with is left open. A content the backend took before is left open too.
- PostgreSQL and Redis drivers: a durable backend is a sequence of writes that took effect, a middle catalog layer a map from which keys may expire.
- Files and JSON: a segment is a sequence of entries; partial writes, corrupt or overlong lines, full disks and unsealed files left by a crash are not modelled. The catalog log's stop is not either.
- CatalogChain.CatalogChain.Register: the chain's three copies of register, read and list, one per kind of descriptor, are one here; calls are atomic with respect to each other, only the retry loop and expiry interleave. The log is on.
- CatalogChain.CatalogChain.Get: when a tenant key is empty or an id malformed, which tenant.Service rules out, only what is found is claimed.
- TenantService.Service.RegisterService: as its siblings, says nothing of an answer for an empty tenant key; the returned error texts and the event bus are not modelled, published keys are.
- Trimming and lower-casing are ASCII; lengths are in characters.
- Floating point rounding and int64 overflow: amounts are reals and unbounded integers.
- Clocks, random identifiers, and what healthy slower backends answer to a query are arguments; that generated identifiers are new is a precondition.
- PaymentGateway.MockGateway.ProcessPayment: a gateway without a subscription manager, and concurrent calls between the books and the subscription update, are not covered; the session pointer CreateCheckoutSession returns is not to be written through.
- Lifecycle.TrialIsLeftForGood: runs of one process in which no caller sets a state or creates a contract directly, and only these steps write the store; what a restart between runs changes is in `FiringRespectsMirrorIff`.
- Subscription.Manager.CreateContract: with a store attached a blank tenant or subscription id panics after the contract is stored; that is a precondition here. Entitlement maps are copied in the code against sharing, which values do not need.
- HTTP handlers, middleware, user interfaces, event bus, encoders, configuration, migrations, personas and completion providers: little to prove.
