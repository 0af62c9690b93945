# The execution control plane, in Dafny

A model of the sandbox execution service's control plane, and proofs about it. The service takes
submissions of module executions from tenants, queues them fairly, runs them on a pool of workers
under quotas, caches compiled modules, lets executions be canceled, and keeps records that
survive a crash.

## How it is laid out

The **control plane** (`ControlPlane.dfy`) is one step system. Its state is the pool (queue,
notify slot, workers), the service's shared sets and maps, the store, and the calls in progress.
Every access to shared state that the code guards with a mutex is a step of its own, so that any
number of workers, `Submit` and `Cancel` calls interleave in every way the code allows, with
clock ticks, contexts ending, shutdown, limit changes, module changes, cache invalidation and
crashes in between. What a step finds out about a context, and the CPU time it measures, are
inputs. A few history variables record what the code does not store.

The invariants come in one module each, proved for one step and then over all runs: `Custody`
(each execution is in one place), `Leases` (leases are workers), `Records` (what records say),
`Progress` (no worker is stuck, leases come back), `Recovery` (running means a worker; crashes),
`Ledger` (CPU conservation), `Wakeup` (no lost wake-up), `Transparency` (the cache), `Outputs`
(what successes and resource failures stand for), `Orphans` (how executions end), `Absorption`
(terminal is final) and `Idempotency` (one execution per key). `Invariants` takes those that hold
without conditions together. `Verdicts` says how executions end and what is behind it, `Preludes`
what they come to before, and `Admissions` which are let in. `Bypass` sets a run with the compile
cache against one that always compiles. `Waiting`, `Overshoot`, `Charges` and `Lookups` carry what
is proved of the queue, the books and the cache from their histories alone over to the running
service. `Beginnings`, `Scenarios` and `Poisoning` give possible runs from the start of a service
that do what `Orphans` allows for, and that break `Absorption`, `Idempotency` and `Transparency`
when their conditions are dropped.

The **objects** are classes with the source's fields and methods: `FairQueue`, `Scheduler`,
`Manager`, `Memory`, `CacheMemory`, `Simulator`, `MemoryMeter`, `Limiter`, `CircuitBreaker`,
`ModuleService`, `Service` and `Pool`. Each method is proved against the function that the step
system uses for it. `Service` and `Pool` go further: `Submit`, `Cancel`, `Run` and the workers'
loop, left alone, are proved to be paths of the control plane (`Uninterrupted`), and the ends of
such paths are unique. Whenever the instants do not run backwards and the contexts can be found as
the script has them, these paths are possible runs (`Scripts`), so that every invariant above holds
of the objects too.

The **specifications** beneath are values: the rotating deque (`RingQueue`, `Fairness`), the
books of the quota manager (`Resources`, `Windows`), the cache (`Caching`), the runtime (`Simulation`), the
module shelf (`Modules`), the store (`Stores`), budgets and records (`Executions`), the token
bucket, the breaker and the retry delay.

Proofs that pass over what a step does say so with `hide`, which keeps the bodies of the functions
named out of that proof; no statement depends on it.

## What turned out not to hold

Each is stated with the exact condition under which the code does meet it, or with the steps that
break it.

- Bounded waiting without a term for activations: tenants that empty and rejoin at the seam pass a
  waiting tenant any number of times (`Fairness.WaitIsUnboundedWithActivations`).
- A terminal record is final under every interleaving: `Cancel` inside the start of `Run`, `Cancel`
  against the end of `Run`, and `Submit`'s write after a failed enqueue each overwrite one
  (`Scenarios`). A step does so exactly when it is the stale write of a different record
  (`Absorption.ChangesTerminalExactlyWhen`). An execution's record is final when no step that
  concerns this execution falls between another actor's reading or storing its record and writing
  it back (`Absorption.TerminalIsFinal`); steps on other executions, clock ticks and ending contexts
  may fall anywhere.
- No execution is ever left unfinished. The store write that marks it as running uses the run's own
  context, so it is abandoned if the pool is shut down, if `Cancel` ends that context or if the
  deadline passes between the lease and the write, whatever the timeout; it is bound to be when the
  timeout is not positive (`Orphans.MayAbandonExactlyWhen`, `Orphans.MustAbandonExactlyWhen`). A
  `Cancel` that ends between flagging and storing, and a `Submit` that can neither queue nor store,
  leave one behind too. Each happens (`Scenarios`), and nothing else does
  (`Orphans.NothingElseIsOrphaned`).
- The compile cache is invisible: when content that compiles is compiled on a dead context, the
  failure stays in the cache for a minute and later runs are answered with it
  (`Poisoning.PoisonedLookup`); exactly then (`Transparency.SpoilsExactlyWhen`). In every other run
  it is (`Bypass.CacheIsInvisible`). Once the runtime is closed every run fails anyway, but one that
  finds a cached module records the digest of an empty output as well
  (`Transparency.ClosedRuntimeFails`).
- Idempotency keys are apart per tenant: not when a tenant name contains a colon
  (`Stores.EntriesCollideExactly`). Nor are they kept over a crash between creating the execution
  and saving the key.
- The retry delay never overflows up to a maximum of 2^62: it does at that corner
  (`Retries.CorrectExactlyWhenSound`).

## Model

| member | source | states |
|---|---|---|
| Custody.RunsKeepCustody | internal/execution/application/service.go:53-191 | In every state of every run, for any number of workers and calls, any interleaving and crashes at any point, every execution is in exactly one of: being submitted by one call, in the queue once, held by one worker, or done with |
| Custody.OnePlaceOnly | internal/queue/infrastructure/fair.go:23-75 | What custody means without the history: an execution is queued at most once; being submitted, queued and held exclude each other and themselves; an identifier that is not stored is nowhere |
| Custody.RunsMoveOn | internal/worker/application/pool.go:36-53 | Over every run, crashes included, each execution moves one way only: from being submitted to the queue, to a worker, to being done with; it never goes back and what is stored never goes missing |
| Custody.EnqueuedOnce | internal/worker/application/pool.go:36-53 | So over any run from any such state each execution enters the queue at most once, and not at all if it is past it already |
| Custody.EnqueueCopies | internal/queue/infrastructure/fair.go:32-35 | Enqueueing adds exactly one copy of the job's execution and none of any other |
| Custody.DequeueCopies | internal/queue/infrastructure/fair.go:54-66 | Dequeueing removes exactly one copy, of the front job's execution |
| Leases.RunsKeepLeases | internal/execution/application/service.go:104-122 | Over every run: lease identifiers are exactly the executions held by workers between Acquire and Release, registered cancels exactly those between registration and its end, each tenant's counter is its number of leases, and no tenant is over its limit unless that was lowered |
| Leases.LeasesAreWorkers | internal/execution/application/service.go:112-122 | The same spelled out: leases, registrations and counters against the workers that stand inside Run |
| Leases.ReleaseFindsItsLease | internal/resource/application/manager.go:62-76 | A worker that comes to Release finds its lease and a positive counter, so neither guard ever skips the release |
| Records.RunsKeepRecords | internal/execution/application/service.go:53-238 | Over every run: stored records never lose or change the fields of their request; status, error class and cause fit together; a success is within its budget; a resource failure names a denied lease or the exceeded limit (what is behind it is Outputs.ExhaustedMeans) |
| Records.ExecuteFits | internal/execution/application/service.go:149-176 | Concluding an execution keeps its request and leaves a record whose class, cause and usage fit |
| Records.ExhaustedExactly | internal/runtime/infrastructure/simulator.go:100-109 | On an open runtime a concluded record says that resources ran out if and only if the program demands more than a field of its budget |
| Records.DeniedExactly | internal/execution/application/service.go:108-111 | On a live pool an execution is failed for resources before it runs if and only if its tenant is out of slots or CPU time, or it asks for too many pages |
| Verdicts.RunsEndExactly | internal/execution/application/service.go:148-176 | Every execution that does not take the process down ends as timed out iff it is stopped in a delay with its deadline passed, canceled iff it is stopped there otherwise, failed for resources iff it is let in and demands more than a budget field, succeeded iff it has output, and failed at run time in all other cases; with the error named for each, the output by the operation's name, the usage, the exit code and the date |
| Verdicts.VerdictIsStored | internal/execution/application/service.go:177-179 | And its worker's next step stores that record |
| Verdicts.EndsAreExplained | internal/execution/application/service.go:148-179 | Over every run from an empty store, crashes included: a record stored as timed out ended once its timeout had passed since its lease was granted, and one stored as canceled was stored by a Cancel that found no run of it, or its run ended on a context that a Cancel or the shutdown had ended |
| Verdicts.RunsKeepExplained | internal/execution/application/service.go:96-238 | The invariants it rests on: every deadline is the grant of the worker's lease plus the timeout, and every record stored or on its way is explained so |
| Preludes.TakesExactly | internal/queue/infrastructure/fair.go:43-66 | A worker leaves iff the queue is closed, waits iff it is open and empty, and otherwise takes the front tenant's first job |
| Preludes.WakesExactly | internal/queue/infrastructure/fair.go:67-74 | A waiting worker leaves iff its context is done, and otherwise looks again with the token taken |
| Preludes.DropsExactly | internal/worker/application/pool.go:46-49 | A worker drops its job iff the execution is flagged, and the flag is gone then |
| Preludes.TakesUpExactly | internal/execution/application/service.go:97-103 | An execution is taken up iff the pool is live and its record is there and not over |
| Preludes.ResolvesExactly | internal/execution/application/service.go:104-107 | Its module is found unless the pool is shut down or there is none, and it is failed as invalid with that error otherwise |
| Preludes.RejectsExactly | internal/execution/application/service.go:228-238 | A failure before the lease is stored on a live pool only |
| Preludes.MarksExactly | internal/execution/application/service.go:123-129 | A run is marked iff its context is live: running, since now and on this node, and otherwise as it was |
| Preludes.LoadsExactly | internal/execution/application/service.go:130-133 | Its content is loaded unless its context is done or there is none, and it is failed as invalid with that error otherwise |
| Preludes.LooksExactly | internal/execution/application/service.go:134-147 | A lookup fails the run iff its context is done or a failure is found, with that error |
| Preludes.CompilesOnExactly | internal/execution/application/service.go:137-147 | A compile goes on iff its context and that of storing are live, the runtime is open and the content compiles, and otherwise fails the run with the first of these errors |
| Preludes.AbortsExactly | internal/execution/application/service.go:228-238 | A failure after the lease is stored whatever the contexts |
| Recovery.RunsKeepRunning | internal/execution/application/service.go:123-182 | Over every run, Cancel included: a record stored as running is held by a worker that has not yet stored its end |
| Recovery.CrashRecovers | internal/store/memory.go:255-272 | Dropping all volatile state at any step and recovering leaves nothing queued or running, terminal records as they were, and every record with its request |
| Recovery.StartsAfresh | internal/worker/application/pool.go:24-35 | A start has the configured number of idle workers, at least one, an open empty queue, nothing leased, registered, flagged or cached, and the store as recovery leaves it |
| Invariants.RunsKeepSound | internal/execution/application/service.go:53-238 | All the invariants of all the modules together, over every run: custody, records, leases, running records, deadlines, wake-ups, both ledgers, the cache, what outputs and resource failures stand for, how executions end, and what is behind those timed out or canceled |
| Invariants.EmptyStoreIsSound | internal/execution/application/service.go:46-51 | A service started on an empty store has all of them, the keys' included |
| Invariants.CrashRestores | internal/store/memory.go:255-272 | A crash at any step: from the store alone the restarted service has all of them again, with a cache that holds no failure of anything that compiles |
| Invariants.CrashRestoresKeys | internal/store/memory.go:255-272 | And the keys' invariants too unless a call was about to save its key |
| Invariants.SoundStores | internal/store/memory.go:255-272 | What that asks of the store holds in every state that has the invariants |
| Invariants.AnsweredIsOver | internal/execution/application/service.go:53-94 | A call that has its answer holds nothing that any invariant needs |
| Ledger.RunsKeepLedger | internal/execution/application/service.go:116-182 | Over every run, per tenant: CPU time released plus what workers still owe is what the meter recorded, executions run are those metered plus those about to be, and records that have not run carry no CPU time |
| Ledger.AtRestTheBooksAgree | internal/execution/infrastructure/meter.go:24-39 | Whenever no worker is inside Run, the CPU time passed to Release for a tenant over all window resets equals the meter's, and the meter's count equals the executions run |
| Wakeup.RunsKeepWakeup | internal/queue/infrastructure/fair.go:36-39 | Over every run, while the queue is open and the pool live: no worker has left, and a waiting job means a token in the channel or a worker that has not parked, although sends are dropped when the slot is full |
| Wakeup.WaitingJobsAreReachable | internal/queue/infrastructure/fair.go:43-74 | With all workers parked and a job waiting, a worker can take the token and then the job at the front |
| Wakeup.NothingIsSentAfterClose | internal/queue/infrastructure/fair.go:29-31 | Once the channel is closed no call sends on it or changes the queue |
| Progress.RunsKeepTimes | internal/execution/application/service.go:112-129 | What progress rests on, over every run: a worker yet to mark its execution has a deadline no later than its timeout from now, one that has marked it a positive timeout |
| Progress.RunToTheEnd | internal/worker/application/pool.go:38-52 | From any state a worker that holds an execution can go on by itself and lets go of it within its remaining number of own steps, at most 14, unless the execution takes the process down |
| Progress.EveryStepAdvances | internal/execution/application/service.go:96-191 | Whatever it finds out, each step of a worker brings it closer to being done, so Run always ends |
| Progress.AlwaysAStep | internal/execution/application/service.go:96-191 | A worker that holds an execution is never stuck |
| Progress.DoomedExactlyWhen | internal/runtime/infrastructure/simulator.go:89-149 | A worker takes the process down if and only if the output limit is negative and the execution has output: an entry, an open runtime, demands within the budget, no delay cut short, and an operation other than fail that succeeds |
| Progress.LeasesComeBack | internal/execution/application/service.go:116-122 | From any state, a lease has a holder, which within ten of its own steps returns it and ends its registration, unless those steps bring it to where it takes the process down |
| Transparency.RunsKeepCache | internal/execution/application/service.go:130-149 | Over every run with a collision-free digest: what a worker executes is what compiling its module's stored content gives; if moreover no compile of content that compiles sees a dead context while the runtime is open, every cached failure is of content that does not compile, for as long as the runtime is open |
| Transparency.CacheIsTransparent | internal/execution/application/service.go:134-176 | In any one state, from the lookup on, Run with any faithful cache and Run with an empty one end in the same record but for the text of a compile error (over runs: Bypass.CacheIsInvisible) |
| Transparency.LookupsDecideLikeCompiling | internal/cache/infrastructure/memory.go:27-51 | In such a state a worker that looks its module up goes on to execute only what compiling the content gives, fails only if compiling would fail here and now (the runtime closed included), with the same record but for the text of the error, and compiles otherwise |
| Transparency.SpoilsExactlyWhen | internal/execution/application/service.go:134-147 | The condition is exact: after a compile, a later run of the tenant's module that finds the cache as that left it ends as if nothing were cached, but for the text of an error, if and only if it is not so that the compile saw a dead context and the content compiles and the minute is not over; once the runtime is closed, if and only if no cached module is found |
| Transparency.ClosedRuntimeFails | internal/runtime/infrastructure/simulator.go:50-98 | On a closed runtime every run fails, with the cache or without it, and leaves the same record but for the text of the error unless a cached module is found, whose failed execution leaves the digest of an empty output besides |
| Bypass.CacheIsInvisible | internal/execution/application/service.go:130-149 | Every run from a start in which no compile of content that compiles sees a dead context has a counterpart, itself a possible run, in which every lookup finds nothing and everything is compiled, and which ends alike: queue, leases, books, usage, payloads, history and time are equal, calls stand at the same steps, and records are equal but for the text of a cached failure; until the runtime is closed |
| Bypass.RunsBypassed | internal/execution/application/service.go:130-149 | The same from any two states that are alike and a cache that agrees with compiling |
| Poisoning.PoisonedLookup | internal/execution/application/service.go:137-141 | A possible run from a start in which an execution's compile finds its context expired, and the next execution of the module, on a live context and an open runtime, is answered with that failure although the content compiles |
| Lookups.LookupsFollowHistory | internal/execution/application/service.go:134-147 | In every state of every run from a start up to the next: a worker on a live context compiles its module iff nothing stands in the history of compiles and invalidations for its tenant and content that was stored at most a minute ago, for a failure, or at most the configured time ago, for a module; otherwise it goes on with what stands |
| Lookups.RunsOnCache | internal/execution/application/service.go:134-147 | The cache after any run is what the run's lookups, compiles and invalidations make of the cache before it, one after the other in time |
| Lookups.EntriesAreTheTenants | internal/execution/application/service.go:134 | Entries are shared exactly among executions of one tenant and one content, and are those that forgetting the tenant takes away |
| Outputs.RunsKeepOutputs | internal/execution/application/service.go:78-182 | Over every run: every record ever stored as succeeded is the result of executing its module's content on the payload of the very request that it was created for; every waiting payload is that of its execution's own request; every failure for resources has a quota it met or a demand of its program behind it |
| Outputs.SucceededMeans | internal/runtime/infrastructure/simulator.go:100-152 | In plain terms, for every stored success and the payload of its own request: usage is the program's demand and within the budget, the budget within the service maximum, the exit code the program's, and the output is what its operation by name makes of the payload, repeated and cut at the limit, marked truncated iff the full repetition is longer |
| Outputs.ExhaustedMeans | internal/execution/application/service.go:108-111 | In plain terms, for every stored failure for resources: either a quota that the execution met stands against its budget for the reason given, or its module's program demands more than the budget field given |
| Outputs.EmptyStoreAccounts | internal/execution/application/service.go:46-51 | The invariants of those runs hold of a service started on an empty store |
| Outputs.ExecutionIsAccounted | internal/execution/application/service.go:148-176 | Executing a compiled module on the payload of its own request ends in a record that the request, the module and the budget account for, as a success or as a failure for resources |
| Outputs.PayloadIsThere | internal/execution/application/service.go:148 | A worker about to execute finds the payload of the request that the execution was created for, and no other |
| Absorption.TerminalIsFinal | internal/execution/application/service.go:96-238 | For each execution, from any state reached by a run in which no step concerning it falls inside another actor's segment of it (from reading or storing its record to writing it back), on over any such run, crashes, ticks, dying contexts and everything on other executions included: its terminal record never changes again |
| Absorption.TerminalNeverRuns | internal/worker/application/pool.go:46-49 | And no worker executes it: an execution canceled while queued never reaches the runtime |
| Absorption.ChangesTerminalExactlyWhen | internal/execution/application/service.go:96-238 | In any state of any run at all: a step changes a terminal record if and only if it is the live write of a different record by a Cancel, a reverting Submit or a worker in its start, or such a write by a worker at the end of its run |
| Orphans.NothingElseIsOrphaned | internal/execution/application/service.go:96-238 | In every state of every run from a start, with no restriction on interleaving: an execution that is nowhere has a terminal record, or exactly one recorded reason, with its evidence: the pool is shut down; marking it failed because Cancel had ended its context, or because its deadline, which is recorded, had passed; it was dropped on a flag whose Cancel ended before its write or has yet to write; or its Submit could not queue it and had no live context left |
| Orphans.LetsGoOpenExactlyWhen | internal/execution/application/service.go:86-129 | In any state of any run, a step lets go of an execution and leaves its record unfinished if and only if a worker drops it on a flag, or takes it up or rejects it on a shut-down pool, or gives back the lease of one that it failed to mark as running; or the revert of a Submit that could not queue it finds its context done |
| Orphans.RunsKeepEnds | internal/execution/application/service.go:96-238 | What that rests on, over every run: executions let go of, or about to be, have ended or have their reason, and flags stand for an end or an unfinished Cancel |
| Orphans.MayAbandonExactlyWhen | internal/execution/application/service.go:112-129 | In any state, marking an execution as running can fail and leave its record unfinished if and only if the pool is shut down, Cancel has ended its context, or its deadline has passed |
| Orphans.MustAbandonExactlyWhen | internal/execution/application/service.go:112-129 | And it is bound to if and only if the pool is shut down, Cancel has ended its context, or its timeout is not positive |
| Orphans.UndisturbedAbandonsOnTimeoutOnly | internal/execution/application/service.go:112-129 | When the start of Run takes no time and nothing comes between, both come down to the timeout |
| Absorption.CancelSettles | internal/execution/application/service.go:202-227 | Cancel of an unfinished execution that no run has registered stores and answers the canceled record, flags it for the workers, and touches nothing else |
| Absorption.CancelFires | internal/execution/application/service.go:202-227 | Cancel of an execution that a run has registered ends that run's context for good, touches nothing else, and answers with the record as it is |
| Absorption.CancelAnswers | internal/execution/application/service.go:202-210 | Cancel of an execution that is over answers with its record, of one that is not there with that, and changes nothing |
| Absorption.CancelMeetsTheStore | internal/execution/application/service.go:202-227 | A live Cancel stores the record it has to store, and is answered with what is stored |
| Absorption.DeadCancelStoresNothing | internal/execution/application/service.go:202-227 | One whose context is done is answered with that wherever it meets the store, and stores nothing |
| Absorption.OnlyCancelFires | internal/execution/application/service.go:202-227 | No other step ends the context of a run |
| Absorption.ReachedIsSafe | internal/execution/application/service.go:96-238 | What such runs keep: whoever is inside a segment of the execution has an unfinished record of it, a run under way is stored as running, and a Cancel about to flag or store has no run of it registered |
| Idempotency.RunsKeepKeys | internal/execution/application/service.go:57-84 | Over every run with colon-free tenants, no overlapping submissions of one key, and no context ending or crash between creating and saving: keys are unique, every entry is its execution's own, and every keyed execution has its entry or a call about to store it |
| Idempotency.AtMostOneExecution | internal/execution/application/service.go:57-84 | From an empty store, no two executions ever share a tenant and a non-empty key |
| Idempotency.ResubmissionAnswers | internal/execution/application/service.go:57-61 | Submitting again under the same tenant and key answers with that execution's record as stored now, and creates nothing |
| Idempotency.EntriesPointToTheirOwn | internal/store/memory.go:232-253 | Every entry points to an existing execution, and a colon-free tenant's lookup finds only its own |
| Idempotency.ColonTenantAnswersAnother | internal/store/memory.go:238 | Without that: the entry of a tenant with a colon in its name answers the lookup of the shorter tenant |
| Beginnings.LeasedIsReached | internal/execution/application/service.go:53-122 | From the start of a service on any store, an admitted request and a granted lease: the submission and its worker get, by a possible run, to where the run is about to be registered |
| Scenarios.CancelWithinTheStartIsUndone | internal/execution/application/service.go:104-127 | A possible run from a start, of a Cancel that completes between the lease and the running status: it is answered as canceled, and the record is then stored as running |
| Scenarios.SuccessIsOverwritten | internal/execution/application/service.go:202-227 | A possible run from a start, of a Cancel that has read the record and found no run registered before the run begins: its next step stores canceled over a success |
| Scenarios.CancellationIsOverwritten | internal/execution/application/service.go:86-92 | A possible run from a start, of a Submit shut out of the queue and a Cancel that is answered as canceled before the Submit stores its refusal: that stores failed over canceled |
| Scenarios.OverdueIsLeftBehind | internal/execution/application/service.go:112-129 | A possible run from a start after which an execution with a positive timeout is stored as queued for good on a live pool: its deadline passed between registering and marking it |
| Scenarios.CancelIsSwallowed | internal/execution/application/service.go:112-129 | The same, because Cancel ended its context between registering and marking it |
| Scenarios.FlagIsNotStored | internal/execution/application/service.go:210-224 | The same, because a worker dropped it on the flag of a Cancel whose context ended before it stored anything |
| Scenarios.RefusalIsNotStored | internal/execution/application/service.go:86-92 | The same, because its Submit's context ended before it was queued and so nothing was stored |
| Scenarios.OverlappingSubmissionsBothCreate | internal/execution/application/service.go:57-84 | A possible run from a start of two submissions under one tenant and key that both look the key up first: both create |
| Scenarios.CrashLosesTheKey | internal/execution/application/service.go:81-84 | A possible run from a start, with a crash between creating an execution and saving its key: the key is asked for afresh although the execution is there |
| RingQueue.EnqueueKeepsValid | internal/queue/infrastructure/fair.go:32-35 | Tenants in the rotation stay distinct with non-empty lists of their own jobs, and the seam stays within bounds |
| RingQueue.DequeueKeepsValid | internal/queue/infrastructure/fair.go:50-66 | Likewise after a dequeue |
| RingQueue.EnqueueMoves | internal/queue/infrastructure/fair.go:32-35 | An enqueue leaves an active tenant's distance unchanged when it activates nobody, raises it by at most one otherwise, and extends exactly the job's own list at its end |
| RingQueue.DequeueMoves | internal/queue/infrastructure/fair.go:50-66 | A dequeue takes the head of the front tenant's list, lowers every other distance by exactly one, and drops the tenant or sends it to the back |
| Fairness.WaitAccounting | internal/queue/infrastructure/fair.go:32-66 | While a tenant waits its distance is the starting one, less the dequeues, plus the newcomers that entered in front of it |
| Fairness.BoundedWait | internal/queue/infrastructure/fair.go:32-66 | An active tenant at distance d is served within d + 1 + k dequeues, k the activations meanwhile, and within one round when there are none |
| Fairness.ServedExactlyWhen | internal/queue/infrastructure/fair.go:32-66 | The wait ends exactly at the dequeue at which the dequeues have used up the distance and the newcomers that passed |
| Fairness.WaitIsUnboundedWithActivations | internal/queue/infrastructure/fair.go:32-33 | No bound without the activations exists: a tenant that empties and rejoins at the seam passes a waiting one any number of times |
| Fairness.StandoffIsReached | internal/queue/infrastructure/fair.go:23-75 | That situation is reached from an empty queue |
| Fairness.RoundRobin | internal/queue/infrastructure/fair.go:50-66 | Between two services of a tenant that stays active, every other tenant active then is served at least once, and exactly once if its list never empties |
| Waiting.WaitIsBounded | internal/worker/application/pool.go:36-53 | Of the running service, whatever its workers and calls do up to a restart: a tenant with jobs waiting at distance d has one taken by a worker by the time d + 1 + k jobs have been taken, k being the activations meanwhile, and with no activations within one job for each tenant in the rotation |
| Waiting.RunsOnQueue | internal/queue/infrastructure/fair.go:23-75 | The queue after any run is what the run's enqueues and dequeues make of the queue before it, so everything proved of those holds of the service |
| Waiting.WakesAreSent | internal/queue/infrastructure/fair.go:36-74 | Over any run no more workers are woken on an open queue than jobs were enqueued and tokens there were |
| Fairness.Conservation | internal/queue/infrastructure/fair.go:23-75 | Over any run a tenant's jobs at first and enqueued since are those dequeued followed by those that remain: first in, first out, nothing lost |
| Fairness.SizeStep | internal/queue/infrastructure/fair.go:77-85 | The total grows by one with an enqueue and falls by one with a dequeue |
| FairQueues.RingIsValid | internal/queue/infrastructure/fair.go:9-17 | The slice, cursor and map stand for a valid rotating deque with the same tenants and lists |
| FairQueues.JoinRefines | internal/queue/infrastructure/fair.go:32-35 | Appending a newcomer at the physical end inserts it at rotated position len - cursor |
| FairQueues.AppendRefines | internal/queue/infrastructure/fair.go:35 | Appending to an active tenant's list is the deque's enqueue |
| FairQueues.WrapIsInvisible | internal/queue/infrastructure/fair.go:51-53 | A cursor at the length is the cursor at zero |
| FairQueues.DropRefines | internal/queue/infrastructure/fair.go:58-60 | Removing the emptied tenant in place is the deque's dequeue, the cursor staying |
| FairQueues.MoveBackRefines | internal/queue/infrastructure/fair.go:61-64 | Advancing the cursor is the deque's dequeue with the tenant sent to the back |
| FairQueues.FairQueue.constructor | internal/queue/infrastructure/fair.go:19-21 | A new queue is the empty deque, open, with no token |
| FairQueues.FairQueue.Enqueue | internal/queue/infrastructure/fair.go:23-41 | Accepts exactly on a live context and an open queue; then it is the deque's enqueue and the slot is full; a refusal changes nothing |
| FairQueues.FairQueue.TryDequeue | internal/queue/infrastructure/fair.go:43-68 | Reports closed, empty, or takes the front job, being then the deque's dequeue |
| FairQueues.FairQueue.TakeAtCursor | internal/queue/infrastructure/fair.go:54-66 | The same once the cursor has wrapped |
| FairQueues.FairQueue.Len | internal/queue/infrastructure/fair.go:77-85 | Counts the waiting jobs of all tenants, in whatever order the map is walked |
| FairQueues.FairQueue.Close | internal/queue/infrastructure/fair.go:87-95 | Closes the queue and keeps its jobs |
| Schedulers.Scheduler.Submit | internal/queue/application/scheduler.go:17-19 | Enqueues the execution's job, refusing on a dead context or a closed queue |
| Schedulers.Scheduler.Cancel | internal/queue/application/scheduler.go:20-25 | Flags the execution |
| Schedulers.Scheduler.Canceled | internal/queue/application/scheduler.go:26-34 | Reports the flag and takes it down, so it is seen once |
| Services.Payloads.Put | internal/execution/application/service.go:279-283 | Keeps the payload under the execution |
| Services.Payloads.Take | internal/execution/application/service.go:284-290 | Gives the payload, or none, and forgets it |
| Services.Service.constructor | internal/execution/application/service.go:46-51 | Starts with nothing registered for cancellation |
| Services.Service.Submit | internal/execution/application/service.go:53-94 | Submit, left alone, is a path of the control plane from the call coming in to its answer; on a clock that does not run backwards it is a possible run, and all the invariants hold after it if they did before |
| Services.Service.Accept | internal/execution/application/service.go:53-94 | The path, from the lookup to the answer |
| Services.Service.SubmitNew | internal/execution/application/service.go:62-94 | The same from resolving the module on |
| Services.Service.Find | internal/execution/application/service.go:57-61 | The idempotency lookup as a step of the control plane |
| Services.Service.Admit | internal/execution/application/service.go:62-80 | The checks in their order, and the record to create: the Asking step; each limit given is kept and each left at zero is the service's |
| Services.Service.ValidateInvocation | internal/execution/application/service.go:240-259 | Accepts exactly a known kind with no environment variable outside the module's list |
| Services.Service.CreateRecord | internal/execution/application/service.go:81-83 | Creates the record, or answers why not |
| Services.Service.Launch | internal/execution/application/service.go:84-93 | Saves the key, keeps the payload and queues the execution, or stores it as failed, as a path |
| Services.Service.Schedule | internal/execution/application/service.go:86-89 | Queues the execution or yields the record to store |
| Services.Service.Revert | internal/execution/application/service.go:90-91 | Stores the record of an execution that could not be queued |
| Services.Service.Run | internal/execution/application/service.go:96-191 | Run, left alone, is a path of the control plane from taking the execution up to being idle, with its registration and its lease given back, or gets to an execution that takes the process down; by an allowed script it is a possible run, the process stays up, and all the invariants hold after it if they did before |
| Services.Service.TakeUp | internal/execution/application/service.go:97-103 | Reads the record to run, unless missing or finished |
| Services.Service.Resolve | internal/execution/application/service.go:104-107 | Resolves the module or fails the execution as invalid |
| Services.Service.AcquireOrFail | internal/execution/application/service.go:108-111 | Takes the lease, or fails the execution for resources and leaves the leases as they were |
| Services.Service.Leased | internal/execution/application/service.go:123-182 | The part of Run that holds the lease, as a path to giving the lease back or to going down |
| Services.Service.Mark | internal/execution/application/service.go:123-129 | Stores the running status on the run's context |
| Services.Service.Obtain | internal/execution/application/service.go:134-147 | The module from the cache or compiled and stored, or the error, as a path |
| Services.Service.Keep | internal/execution/application/service.go:137-144 | Stores a failure whatever the context and a module on a live one, and what is left to go on with |
| Services.Service.Perform | internal/execution/application/service.go:148-149 | Takes the payload and executes, as a step |
| Services.Service.Settle | internal/execution/application/service.go:150-176 | Fills in the record from the result as the control plane does, keeping its request |
| Services.Service.Complete | internal/execution/application/service.go:148-182 | Executing, storing and metering, as a path |
| Services.Service.Refuse | internal/execution/application/service.go:228-238 | fail before a lease is held, on the pool's own context |
| Services.Service.Abort | internal/execution/application/service.go:228-238 | fail with a lease held, on no context |
| Services.Service.GiveBack | internal/execution/application/service.go:116-122 | What Run defers: the registration ends, then the lease is released with the CPU time of the record |
| Services.Service.Cancel | internal/execution/application/service.go:202-227 | Cancel, left alone beside workers standing anywhere, is a path of the control plane from the call coming in to its answer; on a clock that does not run backwards it is a possible run, and all the invariants hold after it if they did before |
| Services.Service.Stop | internal/execution/application/service.go:202-227 | The path, from reading the record to the answer |
| Services.Service.CancelUnfinished | internal/execution/application/service.go:210-226 | Ends the context of a registered run, or flags the execution and stores it as canceled, then answers what is stored |
| Services.CallKeepsSound | internal/execution/application/service.go:53-94 | A call left alone, from coming in to its answer, is a possible run and keeps all the invariants |
| Services.RunKeepsSound | internal/execution/application/service.go:96-191 | So is and does a run left alone by an allowed script, and it does not take the process down |
| Admissions.AdmitsExactly | internal/execution/application/service.go:63-83 | A submission with a new key is admitted iff its module is there, is its tenant's, is published and not withdrawn since, allows the kind and the variables, and each limit given is within the service's; it is refused for the first of these that is not so; its record has each limit given, the service's for each left at zero, and the module's version and content digest |
| Admissions.FindsExactly | internal/execution/application/service.go:54-62 | Before that it is refused if it names no tenant or module, and answered with the execution its key's entry points to if there is one |
| Admissions.StoppedBeyondLimits | internal/runtime/infrastructure/simulator.go:100-109 | In every state of every run, an execution stored as stopped for a limit runs a program that demands more than the limit its request gave, or than the service's where it gave none |
| Admissions.DefaultsSuffice | internal/execution/domain/model.go:53-69 | So one that leaves its limits at zero is never stopped for them by a program whose demands are within the service's |
| Admissions.CreatesExactly | internal/execution/application/service.go:79-83 | The record is created iff the call's context is live and its identifier is free |
| Admissions.EntersExactly | internal/execution/application/service.go:84 | Its key is entered iff it has one and the context is live |
| Admissions.PutsExactly | internal/execution/application/service.go:85 | Its payload is put where its run will find it, and no other is touched |
| Admissions.SchedulesExactly | internal/execution/application/service.go:86-94 | It is queued and answered iff the context is live and the queue open; or else it is about to be stored as unavailable, with the reason |
| Admissions.RevertsExactly | internal/execution/application/service.go:86-92 | Which is stored iff the context is live, and answered with its error either way |
| Scripts.PathIsPossible | internal/execution/application/service.go:96-191 | A worker's path by a script whose instants do not run backwards and whose contexts can be found as they are is a possible run of the control plane |
| Scripts.CallIsPossible | internal/execution/application/service.go:53-94 | Likewise a call's path from when it comes in, its context done or not |
| Scripts.AllowedStaysUp | internal/runtime/infrastructure/simulator.go:148-149 | Such a script never takes the process down |
| Scripts.RunHasAScript | internal/execution/application/service.go:96-191 | Every execution without a negative output limit has an allowed script, on a live pool or not, canceled or not, whatever its timeout |
| Uninterrupted.RunEndsOnce | internal/execution/application/service.go:96-191 | The state in which such a worker is idle again is determined by where it set out and its script, so the paths above leave no choice |
| Uninterrupted.CallEndsOnce | internal/execution/application/service.go:53-94 | Likewise the state in which a call is answered |
| Pools.Pool.Look | internal/worker/application/pool.go:39-45 | The loop's look at the queue is the control plane's step |
| Pools.Pool.Serve | internal/worker/application/pool.go:46-51 | A job is dropped if flagged and run otherwise, as a path to being idle or to going down |
| Pools.Pool.Pass | internal/worker/application/pool.go:38-52 | One pass of the loop serves one job, or stops because the queue is closed or empty or an execution takes the process down |
| Pools.Pool.Loop | internal/worker/application/pool.go:36-53 | The loop left to itself serves job after job along a path of the control plane until the queue is closed or empty; by allowed scripts the whole is a possible run, the process stays up, and all the invariants hold at its end if they did at its start |
| Pools.Pool.Rounds | internal/worker/application/pool.go:36-53 | The path, job by job, and why it ended |
| Pools.LoopIsPossible | internal/worker/application/pool.go:36-53 | Such a path by allowed scripts is a possible run that keeps all the invariants |
| Resources.AcquireBalances | internal/resource/application/manager.go:40-61 | A grant under a free identifier keeps each counter equal to the number of leases and within the limit in force; a denial changes nothing, the computed window reset included |
| Resources.ReleaseBalances | internal/resource/application/manager.go:62-76 | Releasing a held lease finds a positive counter, lowers it by one and removes exactly that lease |
| Resources.SettingsBalance | internal/resource/application/manager.go:77-93 | Reading a quota and changing limits keep the balance |
| Resources.ReusedLeaseLosesASlot | internal/resource/application/manager.go:56-59 | A free identifier is needed: granting one in use leaves the counter one too high |
| Resources.RunsStayBounded | internal/resource/application/manager.go:27-93 | Over every run every quota and lease stays within the highest limits its tenant has had |
| Resources.OvershootBound | internal/resource/application/manager.go:27-93 | Over every run of grants, denials, releases of at most T, window resets, reads and limit changes: CPU used + active * T stays within the highest limit + slots * T, and pages on lease within slots * pages |
| Resources.OvershootUnderCurrentLimits | internal/resource/application/manager.go:27-93 | The same in terms of the limits in force, when none was ever lowered |
| Overshoot.OvershootIsBounded | internal/resource/application/manager.go:37-81 | Of the running service, over every run from a start up to a restart in which no execution is measured at more than a given CPU time: each tenant's CPU time in its window, and what its leases may still report, exceed the highest limit it has had by no more than that time for every slot, its counter is its number of leases, and its pages on lease stay within its highest slots times its highest pages |
| Overshoot.RunsOnBooks | internal/resource/application/manager.go:37-81 | The books after any run are what its acquisitions, releases, limit changes, reads and ticks make of the books before it, and those are such as the bounds ask for: identifiers acquired are free, and CPU times released within the measure |
| Windows.ChargesAreReports | internal/resource/application/manager.go:27-93 | Over any run of the books' operations: a tenant's CPU time used is the sum of what was reported for its leases since its window opened, the window is the last one its history opened, its limits are those it was last given, and it has a quota iff one of its operations was stored |
| Windows.WindowsOpenExactly | internal/resource/application/manager.go:34-37 | A window is opened by the first operation and by each stored one that comes a minute or more after the last was opened, and by no other |
| Windows.AcquiresExactly | internal/resource/application/manager.go:40-61 | So a lease is denied iff the tenant has as many leases as it may have, asks for more pages than it may have, or the CPU time reported since its window opened reaches its limit, in that order; nothing counts once the window is a minute old |
| Charges.CpuIsCharged | internal/resource/application/manager.go:27-93 | The same of the running service in every state of every run from a start up to the next |
| Charges.LeasesAreSettled | internal/execution/application/service.go:108-111 | So for every execution whose worker asks for its lease on a live pool: it goes on with the lease or is failed for the first of these that stands against it |
| Resources.PagesBounded | internal/resource/application/manager.go:50-58 | Leases of at most so many pages add up to at most that times their number |
| Managers.Manager.constructor | internal/resource/application/manager.go:21-26 | A new manager has balanced, empty books with at least one slot per tenant |
| Managers.Manager.QuotaLocked | internal/resource/application/manager.go:27-39 | The quota of a tenant now, with the window reset when a minute has passed |
| Managers.Manager.Acquire | internal/resource/application/manager.go:40-61 | Is the acquisition of the books; keeps the balance under a free identifier; grants only below the limit; a denial changes nothing |
| Managers.Manager.Release | internal/resource/application/manager.go:62-76 | Is the release of the books; keeps the balance and removes exactly the lease |
| Managers.Manager.Get | internal/resource/application/manager.go:77-83 | Returns the quota now and stores its reset |
| Managers.Manager.Set | internal/resource/application/manager.go:84-93 | Changes the limits and nothing else of the quota now |
| Managers.Manager.Active | internal/resource/application/manager.go:94 | The number of leases out |
| Limiters.TokensAreLeastRoom | internal/http/middleware.go:149-162 | After refilling, the tokens are the least room over all windows: capacity + rate * length - admitted, minimized over every earlier call and now |
| Limiters.AdmitsExactlyWhenItFits | internal/http/middleware.go:149-162 | A call is admitted if and only if admitting it keeps every window within capacity + rate * length |
| Limiters.DecisionsConform | internal/http/middleware.go:149-162 | What the limiter admits leaves no window over its allowance |
| Limiters.AdmitsTheMost | internal/http/middleware.go:149-162 | No other decisions that keep every window within the same allowance admit more calls at any point of any run |
| Limiters.SpacedCallsPassSeconds | internal/http/middleware.go:143-162 | Calls at least 1/rate seconds apart are never refused |
| Limiters.Limiter.constructor | internal/http/middleware.go:143-148 | Starts full, with a rate of at least one |
| Limiters.Limiter.Allow | internal/http/middleware.go:149-163 | Admits exactly when every window over the calls admitted so far, in seconds, has room for one more |
| Circuits.HistoryDetermines | internal/resource/domain/circuit.go:28-62 | Over any history of events: the counter is the failures since the last success, closed iff below the threshold, half open iff a call was let through since, and the last failure is remembered |
| Circuits.RefusesExactly | internal/resource/domain/circuit.go:35-45 | With a clock that never runs backwards, a call is refused iff the failures since the last success reach the threshold and the last is less than the cooldown ago |
| Circuits.CircuitBreaker.constructor | internal/resource/domain/circuit.go:28-33 | Starts closed with a threshold of at least one |
| Circuits.CircuitBreaker.Allow | internal/resource/domain/circuit.go:35-45 | Refuses exactly as the history says |
| Circuits.CircuitBreaker.Success | internal/resource/domain/circuit.go:47-52 | Closes the breaker |
| Circuits.CircuitBreaker.Failure | internal/resource/domain/circuit.go:54-62 | Open afterwards iff the failures since the last success reach the threshold |
| Retries.Delay | internal/callback/domain/delivery.go:37-49 | The loop computes the doublings with 64-bit wrap and early exit |
| Retries.CorrectExactlyWhenSound | internal/callback/domain/delivery.go:37-49 | For non-negative 64-bit delays: every attempt's delay is min(initial * 2^(attempt-1), maximum) if and only if the initial delay does not exceed the maximum and the doubling that reaches it fits 64 bits |
| Retries.SmallMaximumIsSound | internal/callback/domain/delivery.go:37-49 | A maximum of at most 2^62 with a smaller initial delay always passes that check |
| Retries.LargestCornerFails | internal/callback/domain/delivery.go:41-48 | With both at 2^62 the second delay is negative |
| Retries.Monotone | internal/callback/domain/delivery.go:37-49 | Under that check the delays never shrink from attempt to attempt and stay within the maximum |
| Executions.Validate | internal/execution/domain/model.go:71-88 | Accepts exactly when every field is within the maximum |
| Executions.BudgetAcceptedExactly | internal/execution/domain/model.go:53-88 | A request's budget is accepted iff every field is zero or within the maximum; each field given is kept, each left at zero becomes the service's, and normalizing twice is normalizing once |
| Simulation.DoneIsWithinBudget | internal/runtime/infrastructure/simulator.go:100-152 | A completed execution is within its budget, reports its demands, the measured time and the program's exit code; its output is, by the operation's name, the payload, its upper case, hash or sum, or its runes in reverse, repeated and cut at the limit, marked truncated iff longer |
| Simulation.StopsForResourcesExactly | internal/runtime/infrastructure/simulator.go:90-109 | A runtime stops an execution for its resources iff it is open, there is an entry, and the program demands more than a budget field |
| Simulation.StopsExactly | internal/runtime/infrastructure/simulator.go:89-152 | For each error, an execution stops with it iff: the runtime is closed; no entry is given; a demand exceeds its limit, instructions before pages before stack; its context ends during its delay; its operation is to fail; its operation is sum and the payload has none. What is reported of it is the demand that was too high, or what a program made to fail used and its exit code |
| Simulation.CompilesExactly | internal/runtime/infrastructure/simulator.go:50-87 | Content compiles iff the context is live, the runtime open, its digest the one given if any, it decodes, and its operation is one of six or left out; the error is that of the first that is not so |
| Simulation.CrashesExactly | internal/runtime/infrastructure/simulator.go:89-152 | An execution completes, or panics when its output limit is negative, iff it has output: an entry on an open runtime, demands within the budget, no delay cut short, and an operation other than fail that succeeds |
| Simulation.TranslatedIsRunnable | internal/runtime/infrastructure/simulator.go:57-86 | What is compiled is the program of the manifest, each field left at zero with its default: echo, cost 100, one page, stack 4096, one repetition |
| Simulation.ReversedAt | internal/runtime/infrastructure/simulator.go:130-134 | Reversal by position, which the swapping loop is proved to compute |
| Simulation.RepeatAt | internal/runtime/infrastructure/simulator.go:146 | Byte i of a repetition is byte i mod n |
| Simulators.ReverseInPlace | internal/runtime/infrastructure/simulator.go:131-133 | The swapping loop reverses the runes in place |
| Simulators.Simulator.constructor | internal/runtime/infrastructure/simulator.go:43-48 | An open runtime with a default version |
| Simulators.Simulator.Compile | internal/runtime/infrastructure/simulator.go:50-87 | Computes compilation, errors included |
| Simulators.Simulator.Execute | internal/runtime/infrastructure/simulator.go:89-153 | Computes execution, the output by the operation's name, and leaves the active counter as it was |
| Simulators.Simulator.Perform | internal/runtime/infrastructure/simulator.go:112-152 | The part that runs while counted as active |
| Caching.FaithfulStays | internal/cache/infrastructure/memory.go:27-94 | Lookups, expiry and invalidation keep a faithful cache faithful |
| Caching.AgreeingIsFaithful | internal/cache/infrastructure/memory.go:52-70 | So does storing a module that compiling gives, or a failure of content that does not compile, with a collision-free digest |
| Caching.LookupAgrees | internal/cache/infrastructure/memory.go:27-51 | A live lookup never disagrees with compiling |
| Caching.LookupAnswersExactly | internal/cache/infrastructure/memory.go:27-94 | After any lookups, stores and invalidations in order of time, a live lookup answers iff something was stored under its key, not taken away since, at most its time to live ago; and then with what was stored |
| Caching.AnswersAreNoted | internal/cache/infrastructure/memory.go:38-51 | An answer is counted and dated on its entry, a lapsed entry is removed, and no other entry changes |
| Caching.LookupsAreCounted | internal/cache/infrastructure/memory.go:27-51 | Every live lookup is counted as a hit or as a miss, and nothing else is |
| Caching.DeadCompilePoisons | internal/execution/application/service.go:137-141 | The failure of a compile whose context was dead, stored for a minute, answers lookups of content that compiles |
| Caching.TenantsAreApart | internal/cache/infrastructure/memory.go:71-94 | Nothing one tenant does with the cache shows in the lookups of another |
| CacheMemories.CacheMemory.Get | internal/cache/infrastructure/memory.go:27-51 | Is the cache's lookup with expiry and counters |
| CacheMemories.CacheMemory.Put | internal/cache/infrastructure/memory.go:52-61 | Stores on a live context only, and says so |
| CacheMemories.CacheMemory.PutFailure | internal/cache/infrastructure/memory.go:62-70 | Stores the failure on a live context only |
| CacheMemories.CacheMemory.Invalidate | internal/cache/infrastructure/memory.go:71-79 | Removes exactly the key |
| CacheMemories.CacheMemory.InvalidateTenant | internal/cache/infrastructure/memory.go:80-94 | Removes exactly the tenant's entries and counts them, in whatever order |
| CacheMemories.CacheMemory.Report | internal/cache/infrastructure/memory.go:95-105 | Counts entries, lookups and failures |
| Modules.RunsKeepModules | internal/module/application/service.go:22-62 | Over any sequence of registrations, publications and withdrawals: tenant, name and version stay unique, every digest is its content's, content and identity never change, and states only move forward |
| Modules.FindVersionIsUnique | internal/store/memory.go:156-167 | For a named tenant FindVersion has at most one answer, and one iff the version is registered |
| Modules.EmptyTenantIsAmbiguous | internal/store/memory.go:141-167 | With an empty tenant two tenants' modules both qualify |
| Modules.OverlappingPublishRevives | internal/module/application/service.go:35-62 | One step each is needed: an overlapping publication makes a withdrawn module published again |
| Modules.NewIsDescribed | internal/module/domain/model.go:73-102 | A new module is a draft of the request, with the digest and the size of its content, dated, and with the defaults for what was left out |
| Modules.NewExactly | internal/module/domain/model.go:73-95 | A registration is accepted iff it names its tenant, itself and its version and has some content within the size limit, with its digest and the one interface if given; it is refused for the first of these that fails |
| Modules.RegistersExactly | internal/module/application/service.go:22-34 | A module is registered iff its signature is verified, it is acceptable, and neither its identifier nor its tenant, name and version are taken; nothing else changes |
| Modules.LifeCycleExactly | internal/module/application/service.go:35-62 | A module is published iff it never was, and withdrawn iff it is published and has not been; the date is when, and nothing else changes |
| ModuleServices.ModuleService.constructor | internal/module/application/service.go:19-21 | Starts on a coherent store |
| ModuleServices.ModuleService.Register | internal/module/application/service.go:22-34 | Is the registration step; keeps the store's invariant |
| ModuleServices.ModuleService.Publish | internal/module/application/service.go:35-48 | Is the publication step; keeps the store's invariant |
| ModuleServices.ModuleService.Withdraw | internal/module/application/service.go:49-62 | Is the withdrawal step; keeps the store's invariant |
| Meters.MemoryMeter.Record | internal/execution/infrastructure/meter.go:24-39 | The ledger stays what the executions recorded add up to, field by field |
| Meters.MemoryMeter.Get | internal/execution/infrastructure/meter.go:40-44 | A tenant's usage is the number, the instructions, the CPU time and the output bytes of its executions recorded, and the instant of the last |
| Stores.RecoveryIsClean | internal/store/memory.go:255-272 | Recovery fails every queued or running record as interrupted, leaves terminal ones and everything else of the others alone, and finds nothing the second time |
| Stores.EntriesCollideExactly | internal/store/memory.go:238 | Two tenants share an entry iff one is the other followed by a colon and the start of its key |
| Stores.ColonFreeEntriesDiffer | internal/store/memory.go:232-253 | Tenants without a colon never share an entry |
| Stores.ColonTenantCollides | internal/store/memory.go:238 | A tenant with a colon shares an entry with a shorter one, whatever its key |
| MemoryStores.Memory.Create | internal/store/memory.go:87-104 | Stores a module unless its identifier or its version is taken, and says which |
| MemoryStores.Memory.Update | internal/store/memory.go:105-116 | Replaces an existing module only |
| MemoryStores.Memory.Get | internal/store/memory.go:117-128 | Finds exactly the stored module |
| MemoryStores.Memory.Content | internal/store/memory.go:129-140 | Finds exactly the stored content |
| MemoryStores.Memory.FindVersion | internal/store/memory.go:156-167 | Finds a module of the version iff the tenant has one |
| MemoryStores.Memory.CreateExecution | internal/store/memory.go:169-180 | Refuses an identifier in use |
| MemoryStores.Memory.UpdateExecution | internal/store/memory.go:181-192 | Replaces an existing record only, on a live context only |
| MemoryStores.Memory.GetExecution | internal/store/memory.go:202-213 | Finds exactly the stored record |
| MemoryStores.Memory.FindIdempotency | internal/store/memory.go:232-244 | Follows the entry to an existing execution |
| MemoryStores.Memory.SaveIdempotency | internal/store/memory.go:245-254 | Stores the entry of a non-empty key on a live context |
| MemoryStores.Memory.RecoverInterrupted | internal/store/memory.go:255-272 | Is recovery, and returns exactly how many records it changed |

## Left out

- HTTP and gRPC routing, the console, metrics text, configuration and `cmd/`: input, output and wiring.
- Writing the store's snapshot to disk: taken as succeeding, so `UpdateExecution` fails only on a dead context or a missing record; a crash keeps the store and drops everything else.
- SHA-256, HMAC, hexadecimal and JSON: a digest function, collision-free where a lemma says so, and a partial manifest decoder; the `upper`, `hash` and `sum` operations are opaque functions on bytes.
- Clocks: instants are given with each step and never decrease; the instants of one step coincide. In the service object each phase of `Run` has one instant, and a call has one, with its context done from the outset or not at all; the control plane has them end anywhere.
- Random identifiers: any identifier may be proposed, and the store refuses one in use.
- Error texts: a record's message is modelled as the error it is the text of; the cached failure's text is that error wrapped, and is never empty.
- Contexts of calls: a call's context is either live or done; a cancellation and a deadline are told apart only for runs.
- Webhook delivery and logging: they change no shared state of the control plane.
- `List` and its sorting, and the order in which `FindVersion` walks its list: the answer is unique for a named tenant.
- 64-bit wrap-around of durations, counters and sizes, except in the retry delay; `bytes.Repeat` on sizes beyond memory.
- The panic of slicing output at a negative limit: it takes the process down, which is the crash step; no such execution succeeds.
- The limiter's rounding: real arithmetic in place of floating point.
- `NodeRegistry`, `Registry`, `CapabilityValidator`, `MemoryObjectStore` and the tenant service's argument checks: easy members only.
- References between the objects: each class owns its state, and no two parts of the service share one.
- FairQueues.FairQueue.TryDequeue: one pass through the locked part of `Dequeue`; waiting on the channel is the parked worker of the control plane.
- Pools.Pool.Loop: ends where the source would wait on an empty queue; waking up is in the control plane.
- The functions for the queue's steps are total: on a rotation that custody rules out they do nothing.
- Bypass.CacheIsInvisible: for runs in which the runtime stays open; what differs once it is closed is `Transparency.ClosedRuntimeFails`.
- Waiting.WaitIsBounded: for runs up to a restart, which empties the queue; likewise `Overshoot.OvershootIsBounded`, `Charges.CpuIsCharged`, `Charges.LeasesAreSettled` and `Lookups.LookupsFollowHistory`, as a restart gives every tenant a new quota and empties the cache.
- Absorption.TerminalIsFinal: for executions whose segments are undisturbed; the code's unguarded read-then-write pairs do not promise it otherwise.
- Scenarios.SuccessIsOverwritten: with one worker, as all of `Scenarios`; the invariants are for any number.
