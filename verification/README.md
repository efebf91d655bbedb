# CloudCause: a verified model of the deterministic core

CloudCause investigates cloud cost increases. Agents propose findings; a deterministic core
limits the calls, holds the uploaded data, does the money arithmetic, keeps the job log and
decides what may be published. This project models that core in Dafny and proves what its
code and documentation promise, over every input, every run and every interleaving.

| module | models |
|---|---|
| `TokenBuckets`, `MemoryLimiter` | the token bucket shared by both limiter backends, and the in-process limiter with its sweep |
| `RedisBackend` | the Redis scripts: token hash with expiry, concurrency leases, heartbeat, polling |
| `Permits` | the in-process concurrency permits: semaphores, waiters, active counts, eviction, step by event-loop step |
| `Datasets`, `DatasetProtocol`, `DatasetCap` | the dataset store's operations, threads interleaving them step by step, and the byte cap under such schedules |
| `Jobs`, `History`, `WriteBehind` | the job's event log, queue and stream; the write-behind copy and restoring from it; both together |
| `Costs`, `Comparison`, `Reports`, `Ingest`, `Buckets`, `Actors`, `Attribution` | cost records, period comparison and its report, ingest aggregation, allocation to principals |
| `Findings`, `Validation`, `Publication`, `Playbooks`, `Derivation`, `Knowledge`, `RuleChoice`, `RetryMerge` | the finding gate, derived confidence, date-aware rules, the merge across retries |
| `Identifier` | breaking a long identifier into lines |
| `Common` (with `Maths`, `Strings`), `Sorting` | shared values, arithmetic and stable sorting |

Conventions. Money and quantity are whole micro-units in the cost modules, because the code
rounds to six places; tokens, time, weights and confidence are exact reals; Python's `round`
is round-half-even. Strings are sequences of code points, and case folding is a parameter.
Code that updates objects is a class or a method with a loop, proved against a function of
its inputs or its old state, and what that function means is stated in the entities' own fields
(`Reports`, `Buckets`, `Attribution`, `Publication`, `RuleChoice` and `Derivation` hold little
else); protocols are step systems whose steps are the code's atomic actions. Every lemma switches automatic induction off, so each proof is the one written.

Hypotheses a caller must know, each stated in a contract:

* forgetting an idle bucket is invisible if and only if age times refill reaches its capacity,
  key by key; the gateway's sweep meets this for the deployment-wide bucket and never for a
  client's;
* permits keep their maximum in a run if and only if no sweep drops a semaphore while a task is
  between looking it up and counting itself, which on Python 3.11 are separate steps;
* interleaved puts keep the dataset store's byte cap if and only if none writes after another
  dataset, still stored, was written since its own check;
* lease safety and the expiry of token hashes take clocks within a bounded skew of the server's;
* the bound on a confidence score holds if and only if the playbook's ceiling is as low or the
  cost movement adds no more than 0.16, which a unit cost that moved away from a negative
  baseline can break;
* baseline daily totals equal the baseline cost for periods whose overlap sums to zero;
* a job's queue serves one subscriber at a time, and investigation ids are unique.

Where code and documentation disagree, the model follows the code:

* the comment at `redis_backend.py:108` says a third of the lease time leaves room for two
  missed renewals; the third attempt falls due when the lease has already run out, so one is
  survived and two are not (`MissedRenewalsSurvived`, `MissedRenewalsOverfill`);
* the comment at `memory.py:147` says a semaphore that is held or has waiters is left alone; a
  sweep can drop one a task was handed and has yet to take, or took and has yet to count, and
  then more tasks than the maximum run (`SweepLosesAHolder`, `SweepIsSafeIff`);
* the byte cap is checked (`store.py:233`) before the lock that guards the write, so it binds only
  schedules that keep a check and its write together (`CapHoldsIff`);
* the comment at `admission.py:31` promises the burst above the steady rate; the 300 s sweep
  gives an idle client a full bucket long before it would have refilled
  (`GatewaySweepForgetsClients`, `GatewayClientBound`);
* `store.py:103` promises no lost source and no resurrected state; an unlocked delete or
  expiry between a call's read and its write-back is undone, for unsealed datasets only
  (`RemovalUndoneIff`, `RemovalIsUndone`);
* `knowledge/README.md` says older bills keep the older rule; a later rule that matches a query
  better than every existing one empties the answer for earlier dates
  (`LaterRuleIsNotRetroactive`, `LaterRuleLosesAnAnswer`);
* a stream promises the whole log, but a job that ends while its log is replayed closes it short
  (`EndingDuringReplayLosesTheTail`);
* finding ids are citable, but restart with each attempt (`SharedIdIff`, `RetriesReuseIds`).

`dafny verify dfyconfig.toml` checks the project.

## Model

| member | source | states |
|---|---|---|
| TokenBuckets.RunBound | packages/rate_limit/src/cloudcause_rate_limit/memory.py:77-107 | Over any contiguous run of calls on one key, from any bucket and with the clock stepping either way, the granted cost is at most capacity plus refill times the forward clock movement inside the run. |
| TokenBuckets.RunBoundIsTight | packages/rate_limit/src/cloudcause_rate_limit/memory.py:77-107 | The bound is reached: a drained bucket drained again after a wait no longer than a full refill grants exactly capacity plus the refill of the wait. |
| TokenBuckets.Balance | packages/rate_limit/src/cloudcause_rate_limit/memory.py:89-107 | Spent plus left over never exceeds the opening balance plus the refill. |
| TokenBuckets.BalanceStaysWithinLimits | packages/rate_limit/src/cloudcause_rate_limit/memory.py:94-107 | A balance stays within [0, capacity] exactly when the cost is not negative (a negative cost on a full bucket overfills it). |
| TokenBuckets.RunStaysWithinLimits | packages/rate_limit/src/cloudcause_rate_limit/memory.py:94-107 | The same over whole runs of non-negative costs. |
| TokenBuckets.RetryAfterIsExact | packages/rate_limit/src/cloudcause_rate_limit/memory.py:102-107 | A refusal's `retry_after` is the least wait that would succeed if nobody else spends: any wait from there on succeeds, any shorter one fails; a cost above capacity never succeeds. |
| TokenBuckets.AnswerTellsBalance | packages/rate_limit/src/cloudcause_rate_limit/memory.py:89-107 | An answer tells the balance left, asks for a wait only when it refuses, and refuses exactly when the cost exceeds the refilled and capped balance. |
| TokenBuckets.ForgettingIsInvisibleToACall | packages/rate_limit/src/cloudcause_rate_limit/memory.py:89-107 | A bucket idle for at least its refill time and a forgotten one give the same answer and the same stored bucket. |
| MemoryLimiter.MemoryRateLimiter.constructor | packages/rate_limit/src/cloudcause_rate_limit/memory.py:30-37 | Starts with no bucket. |
| MemoryLimiter.MemoryRateLimiter.AcquireTokens | packages/rate_limit/src/cloudcause_rate_limit/memory.py:77-107 | Refuses a non-positive capacity or refill; otherwise answers and stores what the bucket arithmetic says for the key and leaves every other key alone. |
| MemoryLimiter.MemoryRateLimiter.EvictInactive | packages/rate_limit/src/cloudcause_rate_limit/memory.py:135-146 | Forgets exactly the buckets idle for at least the age, and counts them. |
| MemoryLimiter.SweepsAreInvisible | packages/rate_limit/src/cloudcause_rate_limit/memory.py:135-146 | A key whose bucket refills within the sweep age is answered, in every run with sweeps over any keys, as in the same run without them; the other keys may refill as slowly as they like. |
| MemoryLimiter.SweepInvisibleIff | packages/rate_limit/src/cloudcause_rate_limit/memory.py:135-146 | In whatever table a key lives, its answers are the same with and without sweeps in every run if and only if age times refill reaches the key's capacity. |
| MemoryLimiter.ForgetfulRunDiffers | packages/rate_limit/src/cloudcause_rate_limit/memory.py:135-146 | For a key below that age there is a run whose last answer the sweep changes. |
| MemoryLimiter.GatewaySweepForgetsClients | packages/rate_limit/src/cloudcause_rate_limit/admission.py:34-37 | Over every run of the gateway's one limiter, its 300 s sweep changes no answer of the deployment-wide bucket; and every client has a run in which it changes one, for every positive configured rate and burst. |
| MemoryLimiter.GrantBoundUnderSweeps | packages/rate_limit/src/cloudcause_rate_limit/memory.py:77-146 | In every run over any keys and under any sweep age, a key is granted at most its capacity plus, per second of its own span, the larger of its refill and one capacity per sweep age. |
| MemoryLimiter.SweptBoundIsTight | packages/rate_limit/src/cloudcause_rate_limit/memory.py:77-146 | A key that does not refill within the sweep age reaches that bound, over any number of ages. |
| MemoryLimiter.GatewayClientBound | packages/rate_limit/src/cloudcause_rate_limit/admission.py:34-37 | What a client of the gateway gets at most under the 300 s sweep: its capacity at once and again every 300 s, in place of the configured hourly rate. |
| MemoryLimiter.KeysAreIndependent | packages/rate_limit/src/cloudcause_rate_limit/memory.py:89-146 | In any run over any keys, swept or not, a key is answered as its own bucket, called and swept alone, would answer. |
| MemoryLimiter.RunBoundWithSweeps | packages/rate_limit/src/cloudcause_rate_limit/memory.py:77-146 | For a key that refills within the sweep age the run bound is the one without sweeps, whatever other keys the table holds. |
| RedisBackend.TokenTtlRefills | packages/rate_limit/src/cloudcause_rate_limit/redis_backend.py:151-153 | The key's TTL is never shorter than the refill from empty, for every positive capacity and refill. |
| RedisBackend.KeyOutlivesLease | packages/rate_limit/src/cloudcause_rate_limit/redis_backend.py:127-131 | The lease key's expiry lies five to six seconds beyond the lease time. |
| RedisBackend.TokenHash.Script | packages/rate_limit/src/cloudcause_rate_limit/redis_backend.py:29-59 | The script stores and answers what the in-process bucket arithmetic does from the stored hash, and re-arms the expiry. |
| RedisBackend.TokenHash.AcquireTokens | packages/rate_limit/src/cloudcause_rate_limit/redis_backend.py:140-166 | Validates, runs the script with the caller's clock and derives `retry_after` from the remaining balance; the key expires by the server's clock, which may differ. |
| RedisBackend.TokenTtlMargin | packages/rate_limit/src/cloudcause_rate_limit/redis_backend.py:151-153 | The TTL outlasts the refill from empty by at least 44 s, and is at most a minute or four times that refill. |
| RedisBackend.TokenExpiryIsInvisible | packages/rate_limit/src/cloudcause_rate_limit/redis_backend.py:151-157 | Redis's expiry of idle hashes by its own clock changes no answer of any run of non-negative costs, with callers' clocks up to 22 s off. |
| RedisBackend.LeaseKey.Acquire | packages/rate_limit/src/cloudcause_rate_limit/redis_backend.py:61-77 | Sweeps by the caller's clock, then admits exactly when fewer than `maximum` leases are left; states the whole new set and expiry. |
| RedisBackend.LeaseKey.Renew | packages/rate_limit/src/cloudcause_rate_limit/redis_backend.py:81-94 | Re-scores the caller's lease if the set still has it, and nothing else. |
| RedisBackend.LeaseKey.Release | packages/rate_limit/src/cloudcause_rate_limit/redis_backend.py:98-101 | Removes exactly the caller's lease. |
| RedisBackend.InvStep | packages/rate_limit/src/cloudcause_rate_limit/redis_backend.py:61-101 | Every acquire, renew, release and passing of time keeps the lease invariant, with client clocks off by at most a bounded skew. |
| RedisBackend.LeaseSafety | packages/rate_limit/src/cloudcause_rate_limit/redis_backend.py:168-246 | After any run and at any later moment the set holds at most `maximum` leases, every unreleased holder that heard from Redis within the lease time less twice the skew is still in it, and so such holders number at most `maximum`. |
| RedisBackend.GoneForGood | packages/rate_limit/src/cloudcause_rate_limit/redis_backend.py:79-101 | A lease that is out of the set is out of it at every later point of every continuation. |
| RedisBackend.ReleasedIsGone | packages/rate_limit/src/cloudcause_rate_limit/redis_backend.py:98-101 | Over all runs: a release takes the lease out of the set, then and for good, and changes nothing else: until the next step every other lease is in the set, with its score, exactly when it would have been. |
| RedisBackend.ReleaseFreesASlot | packages/rate_limit/src/cloudcause_rate_limit/redis_backend.py:61-101 | Over all runs: after the release of a lease that was in the set, a process with a fresh id is granted one. |
| RedisBackend.SilentLeasesAreReclaimed | packages/rate_limit/src/cloudcause_rate_limit/redis_backend.py:61-77 | Over all runs: an acquire is granted whenever fewer than the maximum of leases were heard from within the lease time and twice the skew, so a crashed holder's slot comes back. |
| RedisBackend.OthersKeepTheirLeases | packages/rate_limit/src/cloudcause_rate_limit/redis_backend.py:61-101 | No step but an acquire's sweep of run-out leases touches another process's lease: it stays as long as it would have, with its score. |
| RedisBackend.RefusedOnlyWhenFull | packages/rate_limit/src/cloudcause_rate_limit/redis_backend.py:69-76 | A refusal means `maximum` other leases, each scored beyond the caller's clock. |
| RedisBackend.LeaseKeptIff | packages/rate_limit/src/cloudcause_rate_limit/redis_backend.py:61-101 | Over all runs: leases heard from at most a given gap apart stay in the set in every run if and only if the gap is shorter than the lease time less twice the clock skew. |
| RedisBackend.MissedRenewalsSurvived | packages/rate_limit/src/cloudcause_rate_limit/redis_backend.py:108-110 | How many missed renewals in a row a lease survives in every run with exact clocks: one and never two above 40 ms, none from there down to 20 ms, and at 20 ms or less it may be gone before its first renewal. |
| RedisBackend.MissedRenewalsOverfill | packages/rate_limit/src/cloudcause_rate_limit/redis_backend.py:208-246 | Any number of missed renewals a lease does not survive, in each of the three cases, has a run in which the slot is given away while its first holder still runs and renews in time. |
| RedisBackend.PollForLease | packages/rate_limit/src/cloudcause_rate_limit/redis_backend.py:180-207 | The first granted attempt wins; a refusal means every attempt up to and including one at the deadline was refused. |
| RedisBackend.PollSchedule | packages/rate_limit/src/cloudcause_rate_limit/redis_backend.py:200-201 | Poll intervals are 20, 40, 80 and 160 ms, and 250 ms from then on. |
| Permits.PermitTable.constructor | packages/rate_limit/src/cloudcause_rate_limit/memory.py:30-37 | Starts with no semaphore, maximum or count. |
| Permits.PermitTable.SemaphoreFor | packages/rate_limit/src/cloudcause_rate_limit/memory.py:61-75 | Refuses, changing nothing, exactly a maximum below one or another than the recorded one; otherwise finds the semaphore, or creates it with its recorded maximum and a zero count, and starts a child task on it. |
| Permits.PermitTable.Acquire | packages/rate_limit/src/cloudcause_rate_limit/memory.py:119-121 | The child task takes a free slot nobody is ahead for, or queues behind the waiters. |
| Permits.PermitTable.Resume | packages/rate_limit/src/cloudcause_rate_limit/memory.py:120-128 | A woken or cancelled child leaves the queue, keeps or gives back its slot, and free slots are passed on. |
| Permits.PermitTable.Enter | packages/rate_limit/src/cloudcause_rate_limit/memory.py:128 | The caller, its child done, counts itself: a step of its own on Python 3.11. |
| Permits.PermitTable.Leave | packages/rate_limit/src/cloudcause_rate_limit/memory.py:131-133 | Lowers the count (clamped) and hands the slot to the first pending waiter or frees it. |
| Permits.PermitTable.EvictInactive | packages/rate_limit/src/cloudcause_rate_limit/memory.py:153-157 | Drops exactly the semaphores with a zero count that are not locked, with their maximum and count. |
| Permits.NewcomersQueue | packages/rate_limit/src/cloudcause_rate_limit/memory.py:120 | A newcomer takes a slot at once only if one is free and no future queued before it is alive; otherwise it goes to the end of the queue. |
| Permits.LongestWaitingFirst | packages/rate_limit/src/cloudcause_rate_limit/memory.py:131-133 | A free slot goes to the future that has waited longest and to no other. |
| Permits.LeavingHandsOver | packages/rate_limit/src/cloudcause_rate_limit/memory.py:131-133 | Leaving hands the slot to that future, or frees it when nobody waits. |
| Permits.EvictTouchesNobody | packages/rate_limit/src/cloudcause_rate_limit/memory.py:147-157 | A sweep that finds no task between lookup and count drops only semaphores with every slot free, no holder, no waiter and nobody on the way in. |
| Permits.InvStep | packages/rate_limit/src/cloudcause_rate_limit/memory.py:61-157 | Lookup, cancellation before and after queueing, taking or queueing, waking, counting, release, and a sweep that finds no task between lookup and count, all keep the permit invariant. |
| Permits.PermitsSurviveEviction | packages/rate_limit/src/cloudcause_rate_limit/memory.py:109-157 | In every run without such an ill-timed sweep, any semaphore somebody holds, waits on or is on the way into is its key's current one, where free slots, handed-over slots, uncounted slots and holders add up to the recorded maximum, and the count equals the holders. |
| Permits.NoStrandedWaiter | packages/rate_limit/src/cloudcause_rate_limit/memory.py:119-133 | In those runs, while somebody waits, a holder is still to release that semaphore or a task with a slot of it is still to resume or count itself. |
| Permits.ClampNeverFires | packages/rate_limit/src/cloudcause_rate_limit/memory.py:132 | In those runs the clamp on the active count never fires. |
| Permits.SweepIsSafeIff | packages/rate_limit/src/cloudcause_rate_limit/memory.py:153-157 | For any state in order: after a sweep no continuation without another one lets a key exceed its maximum, if and only if the sweep dropped no semaphore a task was between its lookup and its count on. |
| Permits.RunIsSafeIffGentle | packages/rate_limit/src/cloudcause_rate_limit/memory.py:109-157 | For every run: at no point of it could holders come to exceed a maximum before the next sweep, if and only if none of its sweeps was ill-timed in that sense. |
| Permits.HarmfulSweepOverfills | packages/rate_limit/src/cloudcause_rate_limit/memory.py:153-157 | After any ill-timed sweep there is a continuation without another one in which exactly one task more than the recorded maximum runs under the key. |
| Permits.SweepLosesAHolder | packages/rate_limit/src/cloudcause_rate_limit/memory.py:117-157 | The shortest case, from an empty table and for every maximum: a sweep between a lookup and its child's first step, after which the late task runs uncounted, the clamp fires, and one task more than the maximum runs. |
| Permits.WholeStepsAreGentle | packages/rate_limit/src/cloudcause_rate_limit/memory.py:117-128 | Where waiting runs in the caller's own task (Python 3.12 on), lookup to count is one step, every run is free of ill-timed sweeps, and all of the above holds. |
| Datasets.Draft.ReplaceSource | packages/datasets/src/cloudcause_datasets/models.py:106-117 | The in-place loop overwrites the slot's source or appends, as the replacement function says. |
| Datasets.ReplacedFillsOneSlot | packages/datasets/src/cloudcause_datasets/models.py:106-117 | After replacing, the slot holds the new source, every other slot holds what it held, and no other position changes. |
| Datasets.ReplacedKeepsOnePerSlot | packages/datasets/src/cloudcause_datasets/models.py:106-117 | Slots stay unique, so a re-upload never double counts. |
| Datasets.MemoryDatasetStore.Forget | packages/datasets/src/cloudcause_datasets/store.py:244-246 | Removes exactly one dataset with its recorded size. |
| Datasets.MemoryDatasetStore.Get | packages/datasets/src/cloudcause_datasets/store.py:221-231 | Unknown, expired (and then forgotten), or a copy of what is stored. |
| Datasets.SumExcluding | packages/datasets/src/cloudcause_datasets/store.py:268-270 | The bytes of all other datasets, whatever order the dictionary is walked in. |
| Datasets.MemoryDatasetStore.Put | packages/datasets/src/cloudcause_datasets/store.py:176-238 | Refused as too large exactly above the record cap, as full exactly when the other datasets' bytes and its own pass the byte cap, changing nothing; otherwise replaces the dataset whole, and the byte total stays within the cap. |
| Datasets.MemoryDatasetStore.EvictExpired | packages/datasets/src/cloudcause_datasets/store.py:248-258 | Forgets exactly the expired datasets. |
| Datasets.MemoryDatasetStore.AddSource | packages/datasets/src/cloudcause_datasets/assembly.py:99-124 | One upload from start to finish: unknown and expired datasets; sealed, too many sources and another currency, each refused exactly when it is so, in that order; and otherwise the dataset with the source in its slot, every other slot as it was, in the one currency either names, within the record cap, written back whole. |
| Datasets.AddedMeans | packages/datasets/src/cloudcause_datasets/assembly.py:99-124 | The decision on an upload, in the dataset's own fields, for every dataset, upload and limit. |
| Datasets.RecordsAreRows | packages/datasets/src/cloudcause_datasets/models.py:119-120 | A dataset's record count is the rows of its sources. |
| Datasets.MemoryDatasetStore.SealDataset | packages/datasets/src/cloudcause_datasets/assembly.py:138-150 | Sealed already; refused exactly without a cost source that has rows; or the dataset with its seal and nothing else changed, written back. |
| DatasetCap.CapHoldsIff | packages/datasets/src/cloudcause_datasets/store.py:176-238 | For every schedule of checks, writes and removals: the store keeps its byte cap whatever the datasets' sizes, if and only if no put writes after another dataset, still stored, was written since its own check. |
| DatasetCap.StaleWriteOverfills | packages/datasets/src/cloudcause_datasets/store.py:233-238 | For every schedule with such a write, and every positive cap, sizes with which the store passes the cap. |
| DatasetProtocol.InvStep | packages/datasets/src/cloudcause_datasets/assembly.py:99-150 | Every step of every thread (call, lock, get, put, unlock), creation, delete and expiry keep the protocol invariant. |
| DatasetProtocol.ActsOneByOne | packages/datasets/src/cloudcause_datasets/store.py:103-121 | In every interleaving a stored dataset is what its accepted calls give when run one by one in lock order, and every answer is the one its place in that order would give, unless the dataset was gone or a cap refused. |
| DatasetProtocol.NoAcceptedSourceIsLost | packages/datasets/src/cloudcause_datasets/assembly.py:92-124 | While a dataset is stored each slot holds the upload accepted into it last, and no slot appears twice. |
| DatasetProtocol.OneCurrencyThroughout | packages/datasets/src/cloudcause_datasets/assembly.py:113-124 | In every interleaving over datasets created without a currency, a stored dataset's currency is exactly the one its accepted uploads name, and all that name one name the same. |
| DatasetProtocol.StoredKeepTheRules | packages/datasets/src/cloudcause_datasets/assembly.py:99-150 | In every interleaving a stored dataset has at most the allowed number of sources, and a sealed one has a cost source with rows. |
| DatasetProtocol.SealedIsFinal | packages/datasets/src/cloudcause_datasets/assembly.py:138-150 | Once a dataset's accepted calls seal it, its content never changes in any continuation, and once out of the store it never comes back. |
| DatasetProtocol.RemovalUndoneIff | packages/datasets/src/cloudcause_datasets/store.py:240-242 | A removed dataset can come back if and only if some call read it before the removal and has yet to write it back; what comes back is unsealed. |
| DatasetProtocol.RemovalIsUndone | packages/datasets/src/cloudcause_datasets/store.py:240-242 | A removal really undone, from the empty store: a call reads a dataset, a delete removes it, and the call's write-back stores it again with the upload in it. |
| Jobs.InvestigationJob.constructor | packages/worker_core/src/cloudcause_worker_core/jobs.py:28-39 | A queued job with an empty log and queue. |
| Jobs.InvestigationJob.FromStorage | packages/worker_core/src/cloudcause_worker_core/jobs.py:41-55 | A restored job has the stored log, its highest sequence number, and only the stop mark queued. |
| Jobs.InvestigationJob.Emit | packages/worker_core/src/cloudcause_worker_core/jobs.py:65-90 | Appends the next-numbered event to log and queue and changes nothing else but the shown stage. |
| Jobs.InvestigationJob.Finish | packages/worker_core/src/cloudcause_worker_core/jobs.py:102-107 | Ends the job and queues the stop mark. |
| Jobs.InvestigationJob.MarkRunning | packages/worker_core/src/cloudcause_worker_core/jobs.py:97-100 | Sets the status only. |
| Jobs.InvestigationJob.SetProviderStatuses | packages/worker_core/src/cloudcause_worker_core/jobs.py:92-95 | Sets the provider statuses only. |
| Jobs.InvestigationJob.StreamQuiet | packages/worker_core/src/cloudcause_worker_core/jobs.py:109-119 | The stream of a job no producer touches yields the log and then, unless the job is over, the queue up to the stop mark. |
| Jobs.ShownPrefix | web/components/console.tsx:196-200 | A console that holds a prefix of the log ignores an event it has and gains the one that continues it. |
| Jobs.InvStep | packages/worker_core/src/cloudcause_worker_core/jobs.py:65-119 | Every emit, status change, finish, subscription, replay step, pull and disconnect keeps the stream invariant. |
| Jobs.StateTellsTheStory | packages/worker_core/src/cloudcause_worker_core/jobs.py:65-107 | Over every run of a new job its state is queued, running once set so, failed exactly when it was finished with an error and completed otherwise, for good; stage and message are the latest event's, provider statuses those set last. |
| Jobs.StreamAgreesWithLog | packages/worker_core/src/cloudcause_worker_core/jobs.py:109-119 | In every interleaving the log is numbered from 1 without gaps and the console shows an in-order prefix of it: the whole log once a stream that was still open when replay ended has closed; a stream closed straight after replay shows the whole log if and only if nothing was logged since it subscribed, and is otherwise short by exactly what was. |
| Jobs.EndingDuringReplayLosesTheTail | packages/worker_core/src/cloudcause_worker_core/jobs.py:109-114 | A run from a new job in which the job ends during replay and the stream closes without its last event. |
| History.InvestigationHistory.SaveState | packages/worker_core/src/cloudcause_worker_core/history.py:104-130 | Upsert: the later state replaces the earlier one. |
| History.InvestigationHistory.InsertEvent | packages/worker_core/src/cloudcause_worker_core/history.py:132-148 | Insert or ignore: a stored sequence number keeps its first event. |
| History.InvestigationHistory.Write | packages/worker_core/src/cloudcause_worker_core/history.py:268-271 | One background write stores the state and then the event. |
| History.InvestigationHistory.Events | packages/worker_core/src/cloudcause_worker_core/history.py:159-164 | Exactly the job's stored events, by ascending sequence number. |
| History.InvestigationHistory.Restore | packages/worker_core/src/cloudcause_worker_core/history.py:231-239 | Nothing for an unknown id; otherwise the job restored from its rows. |
| History.DurableIsAPrefix | packages/worker_core/src/cloudcause_worker_core/history.py:261-293 | At every point of every interleaving of notifications, writes and flushes the stored copy is the effect of a prefix of the notifications in order, up to the gap between the two statements of the write in progress. |
| History.FlushIsABarrier | packages/worker_core/src/cloudcause_worker_core/history.py:218-223 | When a flush returns, every notification made before it is stored. |
| History.TornWriteIsNoPrefix | packages/worker_core/src/cloudcause_worker_core/history.py:268-271 | Between the two statements of any write whose event is new, the tables hold its state without its event: they match no longer prefix, this one only if the state was stored already, and none at all if the job never notified that state before. |
| History.TablesOfAJob | packages/worker_core/src/cloudcause_worker_core/history.py:132-148 | After k notifications a job's stored rows are exactly the events it emitted among them. |
| History.StateOfAJob | packages/worker_core/src/cloudcause_worker_core/history.py:104-130 | After k notifications the stored state is the job's latest among them. |
| History.RestoredJobStreamsItsLog | packages/worker_core/src/cloudcause_worker_core/history.py:231-239 | A job restored from rows numbered without gaps has its latest state and streams exactly the stored events. |
| WriteBehind.InvStep | packages/worker_core/src/cloudcause_worker_core/history.py:261-293 | Jobs and storage together: creating, emitting, starting, setting provider statuses, finishing and every background write or flush keep each job's notices in step with its log and state, numbered without gaps. |
| WriteBehind.StorageTrailsTheJob | packages/worker_core/src/cloudcause_worker_core/history.py:261-293 | At every point of every run, what storage lists of a job is an in-order prefix of the live job's log. |
| WriteBehind.FlushedJobReadsBack | packages/worker_core/src/cloudcause_worker_core/history.py:218-239 | When a flush returns, a job that posted nothing since it was called reads back exactly: the live state, the live log, and a restored job that streams that log and nothing else. |
| History.ReusedIdKeepsFirstEvents | packages/worker_core/src/cloudcause_worker_core/history.py:132-148 | Why ids must be unique: a second job under one id leaves the first job's event beside its own state. |
| Comparison.PlaceRecord | packages/anomaly/src/cloudcause_anomaly/comparison.py:356-360 | Finds or creates the record's aggregate and adds to it, leaving every other aggregate and the order alone. |
| Comparison.GroupRecords | packages/anomaly/src/cloudcause_anomaly/comparison.py:232-246 | The grouping loop over all in-window records with a key. |
| Comparison.GroupHoldsItsSums | packages/anomaly/src/cloudcause_anomaly/comparison.py:341-360 | Each record lands in exactly one group; a group's costs, quantities and daily profile are the plain sums over its own records; groups exist exactly for the keys of in-window records. |
| Comparison.GroupDays | packages/anomaly/src/cloudcause_anomaly/comparison.py:341-360 | A group's daily profile has exactly the days of its current records. |
| Comparison.GroupsConserveCost | packages/anomaly/src/cloudcause_anomaly/comparison.py:379-380 | The groups' two periods add up to the in-window cost of the two periods. |
| Comparison.DimensionsMean | packages/anomaly/src/cloudcause_anomaly/comparison.py:108-131 | What a record is filed under in each view: resource, service, account, region or its stand-in, the first owner tag it carries or none, the actor or nobody known. |
| Comparison.OfProviderMeans | packages/anomaly/src/cloudcause_anomaly/comparison.py:343 | A provider's own records, each as often as it stands, and nobody else's. |
| Comparison.CurrencyMeans | packages/anomaly/src/cloudcause_anomaly/comparison.py:349 | The currency of the last in-window record that names one, else the configured one. |
| Comparison.RankedIsStable | packages/anomaly/src/cloudcause_anomaly/comparison.py:362-366 | Groups are considered by raw change, largest first, ties in the order first seen. |
| Comparison.PublishedAndWithheldPartition | packages/anomaly/src/cloudcause_anomaly/comparison.py:367-377 | Every group is published or withheld, once; the published are material, and a material one is withheld only when the maximum is reached. |
| Comparison.CandidatesAgreeUpToTies | packages/anomaly/src/cloudcause_anomaly/comparison.py:362-377 | Whatever order the groups were first seen in, the candidates agree rank by rank in raw change, and are the same group wherever no two groups tie. |
| Reports.CompareProvider | packages/anomaly/src/cloudcause_anomaly/comparison.py:328-407 | One provider's report, in terms of its records: totals that are sums of them; an expectation that is the baseline cost at the same amount a day over the current period, to the nearest micro-unit; change, percent, candidates and reconciliation measured from these; no change for a spend that is level over all days; both daily lists and the currency. |
| Reports.SelectCandidates | packages/anomaly/src/cloudcause_anomaly/comparison.py:367-377 | The loop builds a candidate for every group in rank order, keeps the material ones and cuts at the maximum. |
| Reports.BuildCandidate | packages/anomaly/src/cloudcause_anomaly/comparison.py:155-195 | Every figure of one candidate. |
| Reports.FirstSpike | packages/anomaly/src/cloudcause_anomaly/comparison.py:145-150 | The loop finds the first day above the threshold. |
| Reports.ExpectedIsAdjusted | packages/anomaly/src/cloudcause_anomaly/comparison.py:161-162 | The expected baseline times the baseline's days is within half those days of the baseline cost times the current days. |
| Reports.OfferTells | packages/anomaly/src/cloudcause_anomaly/comparison.py:155-195 | What a group's candidate says, in terms of its records: costs, quantities and daily profile are their sums; expectation, change, percent, averages, unit costs and quantity percent are the nearest whole to their quotients; the first spike is the first day above half as much again as the baseline's average and above a cent. |
| Reports.PublishedTell | packages/anomaly/src/cloudcause_anomaly/comparison.py:362-377 | Published candidates tell the truth about distinct groups, are worth publishing by the configured thresholds, stand in order of raw change, and are no more than the maximum. |
| Reports.NothingIsOverlooked | packages/anomaly/src/cloudcause_anomaly/comparison.py:341-377 | Every key of an in-window record has figures that are published, or not worth it, or no larger than any of a full list. |
| Reports.LevelSpendIsNoChange | packages/anomaly/src/cloudcause_anomaly/comparison.py:379-383 | Rows with the same cost on every day of two disjoint periods of any lengths give a change of zero and of zero percent. |
| Comparison.ExactRemainder | packages/anomaly/src/cloudcause_anomaly/comparison.py:379-392 | Over exact rationals, all groups' changes sum to the provider's length-adjusted change and the remainder is exactly the withheld groups' change. |
| Comparison.ReportedRemainder | packages/anomaly/src/cloudcause_anomaly/comparison.py:446-459 | With six-place rounding, the reported remainder differs from that by at most half a micro-unit per candidate plus a half. |
| Comparison.OverallRemainder | packages/anomaly/src/cloudcause_anomaly/comparison.py:410-443 | Across providers, costs, changes and remainders are exactly the sums of the providers' own. |
| Comparison.DailyTotals | packages/anomaly/src/cloudcause_anomaly/comparison.py:39-53 | One entry a day, each the sums of that day's billed and effective costs. |
| Comparison.DailyTotalsAgree | packages/anomaly/src/cloudcause_anomaly/comparison.py:379-403 | Current daily totals add up to `current_cost`; baseline ones to `baseline_cost` plus the cost dated in both periods, hence to it exactly when that overlap sums to zero, as with disjoint periods. |
| Ingest.ValidateCostRecords | packages/datasets/src/cloudcause_datasets/ingest.py:453-480 | Keeps and rejects rows with the code's reasons and row numbers. |
| Ingest.ValidationAccountsForEveryRow | packages/datasets/src/cloudcause_datasets/ingest.py:453-480 | Every row is kept or rejected once under its own number, and money leaves only with rows that name no service. |
| Ingest.CheckSingleCurrency | packages/datasets/src/cloudcause_datasets/ingest.py:483-499 | Accepted exactly when the rows that name a currency all name one, which is the answer (USD when none is named); refused with every currency named. |
| Ingest.PourRecord | packages/datasets/src/cloudcause_datasets/ingest.py:510-523 | Adds a row to its bucket or opens one, leaving the others alone. |
| Ingest.AggregateCostRecords | packages/datasets/src/cloudcause_datasets/ingest.py:502-531 | Collapse, sort and renumber. |
| Ingest.AggregationPreservesSums | packages/datasets/src/cloudcause_datasets/ingest.py:509-531 | Every sum of every amount over every selection the bucket key decides is kept. |
| Ingest.AggregationIsCanonical | packages/datasets/src/cloudcause_datasets/ingest.py:509-531 | Output keys are distinct and are the input's keys, rows come out sorted, and aggregating again changes nothing. |
| Ingest.RowOrderDoesNotMatter | packages/datasets/src/cloudcause_datasets/ingest.py:509-523 | Per-bucket sums do not depend on the order of the rows. |
| Buckets.RowsAreJudged | packages/datasets/src/cloudcause_datasets/ingest.py:453-480 | Exactly the rows with a service name and some amount are kept, each as often as it stands; every other is rejected under its own number for the first of its faults. |
| Buckets.BucketsHoldTheirRows | packages/datasets/src/cloudcause_datasets/ingest.py:509-523 | One output row for each set of input rows alike in all ten fields, with the sums of their amounts. |
| Buckets.EveryRowHasABucket | packages/datasets/src/cloudcause_datasets/ingest.py:509-523 | Every input row is in the bucket of some output row. |
| Buckets.BucketsAreOrdered | packages/datasets/src/cloudcause_datasets/ingest.py:524-531 | Rows come out by day, service and resource, numbered in that order. |
| Buckets.BucketsAreLabelled | packages/datasets/src/cloudcause_datasets/ingest.py:520-523 | A bucket carries the first discount id and the first resource name its rows give. |
| Ingest.GroupingsRespectKeys | packages/datasets/src/cloudcause_datasets/ingest.py:98-112 | Every grouping the comparison offers is decided by the bucket key. |
| Ingest.AggregationPreservesGroups | packages/anomaly/src/cloudcause_anomaly/comparison.py:345-360 | Grouping aggregated rows gives exactly the groups the raw rows give, each with the same costs, quantities and daily profile. |
| Ingest.AggregationPreservesComparison | packages/anomaly/src/cloudcause_anomaly/comparison.py:362-392 | Comparing aggregated rows gives the raw rows' totals, change and percent, and candidates that agree rank by rank in raw change; the whole comparison is the same when no candidate ties. |
| Ingest.ProviderComparisonPreserved | packages/anomaly/src/cloudcause_anomaly/comparison.py:328-407 | The same for one provider's comparison: aggregating all providers' rows first changes nothing but the order of ties. |
| Actors.BuildIndex | packages/anomaly/src/cloudcause_anomaly/actors.py:217-222 | The index files every event under each alias of each of its resources, on its day. |
| Actors.MatchingEvents | packages/anomaly/src/cloudcause_anomaly/actors.py:185-202 | Looks the record's aliases up and drops repeated event ids. |
| Actors.EachEventCountsOnce | packages/anomaly/src/cloudcause_anomaly/actors.py:185-202 | An event weighs on a record exactly when they share a day and an alias, and once however many aliases agree. |
| Actors.WeighEvents | packages/anomaly/src/cloudcause_anomaly/actors.py:123-146 | Accumulates token counts when every event has a positive one, else invocation counts. |
| Actors.WeightsAreSums | packages/anomaly/src/cloudcause_anomaly/actors.py:123-146 | A principal's weight is the sum over its own events. |
| Actors.EachActorWeighsOnce | packages/anomaly/src/cloudcause_anomaly/actors.py:137-146 | No principal has two weights. |
| Attribution.SharesFollowTheTrail | packages/anomaly/src/cloudcause_anomaly/actors.py:123-182 | Each part of a record belongs to a principal of a matching event and is within the rounding bound of the record's amount times that principal's tokens over all tokens, when every event that meets the record counts them, and of its events over all events otherwise. |
| Attribution.NobodyIsForgotten | packages/anomaly/src/cloudcause_anomaly/actors.py:123-182 | Every principal of a matching event is given exactly one part. |
| Attribution.MethodMeans | packages/anomaly/src/cloudcause_anomaly/actors.py:226-257 | The reported method is token count, event count, mixed or none as the records an identified principal shares in are weighed. |
| Attribution.LongNamesMean | packages/anomaly/src/cloudcause_anomaly/actors.py:93-120 | An instance's ARN also goes by what follows its last slash, a bucket's by what follows its last colon, and every other name only by itself. |
| Attribution.ShortNamesMeet | packages/anomaly/src/cloudcause_anomaly/actors.py:93-120 | An event naming an instance's ARN meets a record naming the bare instance id on its day. |
| Attribution.CautionsMean | packages/anomaly/src/cloudcause_anomaly/actors.py:259-282 | What a reader is cautioned about, and when. |
| Actors.SplitNamesEachActor | packages/anomaly/src/cloudcause_anomaly/actors.py:149-182 | The parts follow a permutation of the weights, heaviest first and ties by name, one part per weighted actor, labelled with its name and otherwise a copy of the record. |
| Actors.SplitIsLossless | packages/anomaly/src/cloudcause_anomaly/actors.py:160-182 | The parts of a record sum to it exactly in each of the three fields. |
| Actors.SplitIsFair | packages/anomaly/src/cloudcause_anomaly/actors.py:160-182 | Of n parts, the heaviest is within (n-1)/2 micro-units of its exact proportion and each other within a half; a source of at least n(n-1)/2 micro-units yields no negative part. |
| Actors.SmallSplitGoesNegative | packages/anomaly/src/cloudcause_anomaly/actors.py:172-181 | Some floor is needed: five equal actors sharing three micro-units leave the first at minus one. |
| Actors.AllocateRecord | packages/anomaly/src/cloudcause_anomaly/actors.py:226-235 | One record whole to `unattributed` or split, and the weighting that decided it. |
| Actors.TotalByOwner | packages/anomaly/src/cloudcause_anomaly/actors.py:237-250 | The running totals, signed and unsigned, and the set of actors. |
| Actors.UnattributedIsAShare | packages/anomaly/src/cloudcause_anomaly/actors.py:78-90 | The unattributed share is in [0, 1], signed totals never exceed unsigned ones, and nothing is unattributed exactly when no record with a cost lacks a principal. |
| Actors.AllocateActorCosts | packages/anomaly/src/cloudcause_anomaly/actors.py:205-282 | The whole allocation: parts, weight method, totals, magnitudes, the actors once each in order, and cautions. |
| Actors.AllocationPreservesSums | packages/anomaly/src/cloudcause_anomaly/actors.py:226-235 | Every sum of every amount over every selection that ignores the actor is kept. |
| Actors.UnmatchedStaysWhole | packages/anomaly/src/cloudcause_anomaly/actors.py:226-232 | Cost no event can be joined to goes whole to `unattributed`. |
| Actors.OwnersConserveCost | packages/anomaly/src/cloudcause_anomaly/actors.py:237-250 | Attributed plus unattributed is exactly the cost of the records. |
| Actors.ActorViewConservesCost | packages/anomaly/src/cloudcause_anomaly/comparison.py:262-325 | The actor groups' two periods add up to exactly the in-scope cost of those periods. |
| Attribution.ScopeMeans | packages/anomaly/src/cloudcause_anomaly/comparison.py:281-297 | The actor view takes in exactly the provider's own records and events of either period. |
| Actors.DimensionsIgnoreActor | packages/anomaly/src/cloudcause_anomaly/comparison.py:108-131 | Service, region, account, resource and owner-tag keys do not depend on the actor. |
| Actors.RegroupingIsUnchanged | packages/anomaly/src/cloudcause_anomaly/comparison.py:228-246 | Regrouping the split records by any of those gives exactly the originals' groups, in the same order, each with the same costs, quantities and daily profile. |
| Validation.CheckClaims | packages/evidence/src/cloudcause_evidence/validation.py:137-178 | Rules on resources and attribution: filtered resources, replaced amount, lowered confidence, issues. |
| Validation.CheckRules | packages/evidence/src/cloudcause_evidence/validation.py:180-225 | The loop over cited rules: caps, uncertainty, the drop verdict, and every issue in order. |
| Validation.NoteResources | packages/evidence/src/cloudcause_evidence/validation.py:248-257 | Reports resources an earlier finding claimed, and records first claims. |
| Validation.CheckCause | packages/evidence/src/cloudcause_evidence/validation.py:259-299 | Rewrites a mechanism no supplied source can show. |
| Validation.GateOne | packages/evidence/src/cloudcause_evidence/validation.py:95-305 | One pass of the loop equals the closed form of the gate, field by field, with the verdict and the issues. |
| Validation.ValidateFindings | packages/evidence/src/cloudcause_evidence/validation.py:87-307 | Published, dropped, issues and providers without cause sources, for the whole list. |
| Validation.GatePartitions | packages/evidence/src/cloudcause_evidence/validation.py:301-305 | Published and dropped findings split the input, each in order, each the gated form of the finding at its position. |
| Publication.PublicationTells | packages/evidence/src/cloudcause_evidence/validation.py:87-307 | Published are, in order, exactly the findings with evidence and no rule cited before its time, and dropped the others; each is told as its faults demand; and exactly the providers whose given sources hold no metric, audit, inventory or recommendation data are named. |
| Publication.CauseIsTold | packages/evidence/src/cloudcause_evidence/validation.py:259-299 | A provider with none of the four kinds of source has its finding reported as unexplained, at most at 0.4, doubtful and with a warning; with any one of them, category, root cause, recommendation and warnings are the claim's. |
| Publication.ConfidenceIsTold | packages/evidence/src/cloudcause_evidence/validation.py:137-294 | A confidence is what was claimed, or the cap of a fault the claim has: 0.4, 0.45, 0.6 or 0.7; and no fault leaves it above its cap. |
| Publication.AmountIsTold | packages/evidence/src/cloudcause_evidence/validation.py:157-173 | An amount off by more than a hundredth and more than two cents is replaced by the measured one, any other kept. |
| Publication.ClaimsAreTold | packages/evidence/src/cloudcause_evidence/validation.py:137-299 | Exactly the backed resources are kept, and a finding is doubtful exactly for a fault of its claim or for having been so. |
| Publication.IssuesAreDeserved | packages/evidence/src/cloudcause_evidence/validation.py:95-299 | A finding is given an issue of each kind exactly when it has the fault that issue stands for. |
| Publication.ReportedAreDeserved | packages/evidence/src/cloudcause_evidence/validation.py:95-305 | Every issue reported is some finding's own, deserved in view of those before it, and every one deserved is reported. |
| Publication.FirstClaimIsRemembered | packages/evidence/src/cloudcause_evidence/validation.py:248-257 | The first finding to claim a resource is the one remembered for it. |
| Validation.GateKeepsCount | packages/evidence/src/cloudcause_evidence/validation.py:301-305 | None is lost or duplicated. |
| Validation.ConfidenceIsEarned | packages/evidence/src/cloudcause_evidence/validation.py:137-294 | No confidence rises; it stays at 0.8 or more if and only if it was, with three pieces of evidence including a corroborating one, trusted dated rules, supported resources, and a provider that can show causes. |
| Validation.PublishedIsSound | packages/evidence/src/cloudcause_evidence/validation.py:123-299 | A published finding has evidence, no retroactive rule, only supported resources, an amount within tolerance, and names a cause only where a source can show one. |
| Validation.PublishedAmountIsNear | packages/evidence/src/cloudcause_evidence/validation.py:157-173 | After the gate the amount of a known candidate is within its tolerance. |
| Validation.GateIsAFixedPoint | packages/evidence/src/cloudcause_evidence/validation.py:87-307 | Validating the published findings again drops none and changes only warnings, which only grow. |
| Validation.PublishedTotalIsMeasured | packages/evidence/src/cloudcause_evidence/validation.py:157-173 | Published increases citing known candidates total the measured changes within the summed tolerances. |
| Validation.EveryChangeIsReported | packages/evidence/src/cloudcause_evidence/validation.py:95-305 | Every change or drop leaves an issue or a warning. |
| Validation.RankingIsStable | packages/evidence/src/cloudcause_evidence/validation.py:310-320 | Ranking permutes, puts certain before uncertain, then larger before smaller increases, then higher before lower confidence, and keeps ties in place. |
| Knowledge.SelectionMeans | packages/knowledge/src/cloudcause_knowledge/store.py:185-241 | A dated answer is in effect on the date and no eligible rule in effect starts later; an undated rule stands in only when none is in effect; not found means none is in effect. |
| Knowledge.BestIsHighest | packages/knowledge/src/cloudcause_knowledge/store.py:195-200 | The pool's score is the highest any relevant rule reaches. |
| RuleChoice.LookupMeans | packages/knowledge/src/cloudcause_knowledge/store.py:165-241 | For a day the answer is a rule of the closest kind any rule offers, by category, else by service, else by pattern, else for everything, that holds on the day and than which none of that kind holding on it starts later; an undated one stands in, and says so, only when none holds. |
| RuleChoice.DaylessLookupMeans | packages/knowledge/src/cloudcause_knowledge/store.py:248-249 | A lookup for no day in particular is answered by a closest rule that starts last, and finds nothing only when no rule comes close. |
| RuleChoice.TheFirstStands | packages/knowledge/src/cloudcause_knowledge/store.py:228-241 | Of several such rules that start on the same day, or have no date, the first in the store stands. |
| RuleChoice.CitationMeans | packages/knowledge/src/cloudcause_knowledge/store.py:137-154 | What a citation says, and when it is stale. |
| RuleChoice.WarningsMean | packages/knowledge/src/cloudcause_knowledge/store.py:204-259 | Which warnings a lookup gives, and when. |
| Knowledge.LaterRuleIsNotRetroactive | packages/knowledge/src/cloudcause_knowledge/store.py:195-241 | Adding anywhere a rule that starts after the date leaves that date's answer unchanged if and only if it is for something else, scores no higher than the best match, or there was no answer; otherwise the answer is lost. |
| Knowledge.LaterRuleLosesAnAnswer | packages/knowledge/src/cloudcause_knowledge/store.py:195-241 | An answer really lost: a generic rule in effect answers, until a rule that starts the day after and lists the queried category is added. |
| Knowledge.SuccessionKeepsThePast | packages/knowledge/src/cloudcause_knowledge/store.py:228-241 | Closing an open-ended rule the day before its successor starts changes no earlier answer. |
| Knowledge.SuccessionFromItsStart | packages/knowledge/src/cloudcause_knowledge/store.py:228-233 | From its start, wherever the old rule was a candidate, the successor answers exactly when it starts later than the rule that answers now, or the same day and ahead of every candidate that does; otherwise that rule goes on answering. |
| Knowledge.SuccessionTakesOver | packages/knowledge/src/cloudcause_knowledge/store.py:228-233 | In particular it answers wherever the old rule did. |
| Knowledge.SuccessionElsewhere | packages/knowledge/src/cloudcause_knowledge/store.py:195-241 | A query the old rule was no candidate for keeps its answer on every date. |
| Playbooks.MatchScore | packages/worker_core/src/cloudcause_worker_core/playbooks.py:126-184 | Some score exactly when every stated requirement holds, and then the sum of its points. |
| Derivation.AppliesMeans | packages/worker_core/src/cloudcause_worker_core/playbooks.py:126-184 | A playbook scores exactly when the candidate meets all it asks by service, SKU, resource type, new spend, rate, growth, owner and idleness; the fallback always, at nothing. |
| Derivation.ScoreMeans | packages/worker_core/src/cloudcause_worker_core/playbooks.py:126-184 | What each requirement and each finding is worth in points. |
| Derivation.ResourceMeans | packages/contracts/src/cloudcause_contracts/provider_data.py:215-219 | A candidate's resource is the first the inventory has under its id; without an id there is none. |
| Derivation.EventsMean | packages/worker_core/src/cloudcause_worker_core/playbooks.py:108-123 | The events that count are those of the period that relate to the candidate, in order of time. |
| Playbooks.SelectPlaybook | packages/worker_core/src/cloudcause_worker_core/playbooks.py:187-198 | The first playbook that no other outranks by score and then priority, or the fallback when none applies. |
| Derivation.ChoiceMeans | packages/worker_core/src/cloudcause_worker_core/playbooks.py:187-198 | The chosen playbook applies and is at least as good as every other that does, the first of equals; with none it is the fallback for unexplained increases. |
| Playbooks.EvidenceFactory.BuildAll | packages/worker_core/src/cloudcause_worker_core/evidence.py:35-63 | Evidence numbered onwards without gaps. |
| Playbooks.EvidenceFactory.GatherEvidence | packages/worker_core/src/cloudcause_worker_core/playbooks.py:215-256 | The gathered list, in order, with the caps. |
| Playbooks.GatheredCounts | packages/worker_core/src/cloudcause_worker_core/playbooks.py:215-256 | How many of each kind a gathered list holds, for every kind. |
| Derivation.SourcesMean | packages/worker_core/src/cloudcause_worker_core/playbooks.py:215-256 | What a candidate's evidence is drawn from. |
| Derivation.FlagsAreKept | packages/worker_core/src/cloudcause_worker_core/playbooks.py:215-256 | Untrusted text marks exactly the evidence it came from. |
| Playbooks.ScoreConfidence | packages/worker_core/src/cloudcause_worker_core/playbooks.py:297-330 | The accumulating loops equal the closed-form score. |
| Playbooks.CoherenceIsAFraction | packages/worker_core/src/cloudcause_worker_core/playbooks.py:272-294 | Rate coherence is in [0, 1] if and only if no unit cost moved away from a negative baseline. |
| Playbooks.ScoreBoundIff | packages/worker_core/src/cloudcause_worker_core/playbooks.py:297-330 | Every evidence list scores at most 0.865 if and only if the playbook's ceiling does or the cost movement adds no more than 0.16; and every list that reaches 0.7995 has usage, metric and audit evidence if and only if the ceiling is lower or the movement adds less than 0.1645. |
| Playbooks.ConfidenceBound | packages/worker_core/src/cloudcause_worker_core/playbooks.py:297-330 | Away from a moved negative rate both hold: the score is in [0.05, 0.865], and 0.7995 or more implies usage, metric and audit evidence, for any evidence list. |
| Playbooks.NegativeRateReachesTheCeiling | packages/worker_core/src/cloudcause_worker_core/playbooks.py:288-294 | With a negative baseline rate one cost item can score 0.92. |
| Playbooks.CostAloneStaysLow | packages/worker_core/src/cloudcause_worker_core/playbooks.py:215-330 | A gathered list of cost and usage only scores at most 0.39. |
| Derivation.PieceIsWorth | packages/worker_core/src/cloudcause_worker_core/playbooks.py:297-330 | What one more piece of evidence of each kind is worth: 0.07, 0.05, 0.12, 0.18 or 0.05 as the first of its kind, 0.025 after that until 0.075 is reached, a tenth less for a freshness note and 0.05 less for the first untrusted one. |
| Derivation.ScoreBounds | packages/worker_core/src/cloudcause_worker_core/playbooks.py:297-330 | Without evidence a score is its floor and the cost movement, and every score is kept between 0.05 and the ceiling. |
| Derivation.MovementMeans | packages/worker_core/src/cloudcause_worker_core/playbooks.py:258-294 | The cost movement is worth up to 0.10 for standing out, all of it from 300% on, and up to 0.06 for a unit rate that fits the playbook, a quarter's drift counting in full. |
| Playbooks.BuildFinding | packages/worker_core/src/cloudcause_worker_core/playbooks.py:347-431 | The branches of the assembly equal the closed form of the finding, warnings included, and the citation is noted on the investigation. |
| Derivation.StoredConfidenceMeans | packages/worker_core/src/cloudcause_worker_core/playbooks.py:373-404 | A finding stores the score of its evidence, or the cap of what is doubtful: 0.45 without a rule, 0.6 with a shaky one, 0.7 where a rate moved unexplained. |
| Derivation.BuiltMeans | packages/worker_core/src/cloudcause_worker_core/playbooks.py:408-431 | A finding's change, monthly impact, resource, citation, doubt and warnings, in terms of its candidate and the rule found. |
| Derivation.RuleAskedFor | packages/worker_core/src/cloudcause_worker_core/playbooks.py:364-371 | Which rule is asked for, and for which day. |
| Playbooks.NotedProperties | packages/worker_core/src/cloudcause_worker_core/context.py:98-102 | Noting citations keeps those noted, in place, covers every cited rule and repeats none. |
| Playbooks.EveryDoubtIsExplained | packages/worker_core/src/cloudcause_worker_core/playbooks.py:377-407 | A built finding scored below its evidence, or uncertain for any reason but its fallback playbook, carries a warning. |
| Playbooks.HighConfidenceIsCorroborated | packages/worker_core/src/cloudcause_worker_core/playbooks.py:377-418 | A built finding stored at 0.8 or more, even by rounding, has usage, metric and audit evidence and passes the corroboration rule. |
| Playbooks.DerivationAgreesWithTheGate | packages/evidence/src/cloudcause_evidence/validation.py:123-238 | The gate never drops a built finding and lowers one only for an unsupported resource or missing cause sources. |
| Playbooks.BuiltAmountPassesTheGate | packages/evidence/src/cloudcause_evidence/validation.py:157-173 | A built finding's amount passes the attribution rule unchanged. |
| RetryMerge.Prepare | packages/worker_core/src/cloudcause_worker_core/native_tools.py:37-44 | Exactly the candidates get the playbook that wins for them and the evidence list gathered under it, the last candidate of an id deciding; its items can be cited and carry numbers not given out before. |
| RetryMerge.NativeToolset.constructor | packages/worker_core/src/cloudcause_worker_core/native_tools.py:28-35 | A new attempt's toolset is prepared and holds no finding. |
| RetryMerge.NativeToolset.RecordFinding | packages/worker_core/src/cloudcause_worker_core/native_tools.py:131-205 | Every branch in order: call budget spent, already recorded (and surfaced once), unknown candidate, unknown evidence, nothing cited, accepted; states the new list, record, call count and noted citations. |
| RetryMerge.OutcomeMeans | packages/worker_core/src/cloudcause_worker_core/native_tools.py:147-205 | Every refusal exactly for its own reason; what is accepted cites something, all of it prepared, under the call's category, believed to 0.8 at most where that is not the playbook's. |
| RetryMerge.AcceptedMeans | packages/worker_core/src/cloudcause_worker_core/native_tools.py:164-199 | What is accepted is about the first candidate of the id: its change, its resource, and the rule of its playbook's kind for the call's category; under another category it is no fallback. |
| RetryMerge.InvStep | packages/worker_core/src/cloudcause_worker_core/native_tools.py:147-198 | Starting an attempt and recording on any attempt's toolset keep one faithful finding per recorded candidate. |
| RetryMerge.MergeRecorded | packages/worker_core/src/cloudcause_worker_core/engine.py:148-167 | The merge and sort. |
| RetryMerge.MergeIsExact | packages/worker_core/src/cloudcause_worker_core/engine.py:148-167 | For every sequence of attempts and calls, whichever attempt succeeds, the result is exactly the recorded findings, one per recorded candidate, each with its candidate's change in cents, largest first. |
| RetryMerge.RecordedStays | packages/worker_core/src/cloudcause_worker_core/native_tools.py:147-198 | What is recorded stays, in place. |
| RetryMerge.OneAttemptIdsDiffer | packages/worker_core/src/cloudcause_worker_core/playbooks.py:411 | Within one attempt finding ids differ. |
| RetryMerge.SharedIdIff | packages/worker_core/src/cloudcause_worker_core/playbooks.py:411 | For every run: two recorded findings share an id if and only if their attempts held the same number of findings when each was recorded. |
| RetryMerge.RetriesReuseIds | packages/worker_core/src/cloudcause_worker_core/native_tools.py:187-191 | Whatever two consecutive attempts were prepared with, a failed one that recorded a candidate and a retry that starts with another give the two findings one id. |
| Identifier.FlatteningTrims | api/src/cloudcause_api/rendering_pdf.py:426 | The laid-out value is one line of the original text and drops only blanks around it. |
| Identifier.CutAfterSeparators | api/src/cloudcause_api/rendering_pdf.py:426-434 | The first loop: pieces that close at each separator and concatenate to the value. |
| Identifier.FoldSeparators | api/src/cloudcause_api/rendering_pdf.py:436-448 | The second loop: the value cut at every allowed break and nowhere else. |
| Identifier.PackLines | api/src/cloudcause_api/rendering_pdf.py:450-459 | The third loop: an allowed layout in which no line has room for the first chunk of the next. |
| Identifier.LayOut | api/src/cloudcause_api/rendering_pdf.py:426-460 | The whole routine: lossless through print and parse, allowed breaks only, tight. |
| Identifier.TightIsFewest | api/src/cloudcause_api/rendering_pdf.py:450-459 | No allowed layout of the same value uses fewer lines, for any width measure under which a part is no wider than the whole. |
| Identifier.MarkupRoundTrip | api/src/cloudcause_api/rendering_pdf.py:460 | Splitting the markup on its line-break tags and unescaping recovers the lines. |
| Identifier.EscapedIsInert | api/src/cloudcause_api/rendering_pdf.py:460 | Escaped text holds no angle bracket, and every ampersand starts an entity. |
| Identifier.NoLineStartsWithSeparator | api/src/cloudcause_api/rendering_pdf.py:436-448 | Only the first line may start with a slash, a colon or a dot; each earlier line ends with one. |

## Left out

- The web console apart from its rule of ignoring a sequence number it has; routes, middleware and server-sent-event framing.
- Live connectors, the tool servers, the agent frameworks and the governed model transport; an agent is whatever sequence of tool calls it makes.
- The database driver, reconnects and migrations; statements commit one by one, and write failures, degraded mode, redaction, hashing and pruning of stored history are not modelled.
- The synchronous write fallback while background writes are pending; all writes of the modelled gateway go through the chain.
- Floating point: tokens, time and shares are exact, amounts are micro-units; the script's fourteen-digit printing of a balance is not modelled.
- Real clocks, random jitter and random ids are inputs; lease ids and investigation ids are unique by assumption.
- The event loop's semaphore and `wait_for` follow the standard library of Python 3.11, on which `docker/Dockerfile` runs the services; bucket locks are never held between steps.
- `forget_lock` has no caller, and calling it would let two threads hold one dataset's lock; it is not a step of the protocol.
- Dataset periods, provider lists, available source types and summaries; end_of_day and grain detection: easy members or parsing.
- In the SQL dataset store only what it shares with the memory store is modelled.
- An aggregate's descriptive fields (dominant service, tags, sku ids, names); they carry no conserved amount.
- Wording of issues, warnings, root causes and recommendations: a warning is a tag, with the rule or target it names; the confidence override of `build_finding`, which no caller uses.
- The builder finds an undated rule by searching the lookup's warnings for "no effective date"; the model asks the lookup, so a service or category whose own name contains those words is not special.
- `run_playbooks`, the retry schedule and the fallback to playbooks after a failed live run; the merge takes any sequence of attempts and calls.
- A job's report, assigned to its state without a notice of its own; the provider statuses set right after it carry it to storage.
- The job store's pruning of its oldest jobs, an easy member; a stream opened with `replay=False`; emitting after a job ended, which no caller does.
- Report layout other than the identifier breaker; string width is an abstract measure, and optimality takes it monotone.
- RedisBackend.TokenHash.AcquireTokens: does not model a hash whose stored fields are not numbers, because only this script writes them.
- Reports.CompareProvider: a candidate's id, which numbers it by rank, and its group's descriptive fields are left out, because they carry no conserved amount.
- Actors.AllocateActorCosts: gives the cautions as tags instead of their wording.
- Playbooks.BuildFinding: takes root cause and recommendation as given text and gives warnings as tags.
- Validation.ValidateFindings: the candidate index is a given map from id to measured change, because later duplicates in the comparison simply win.
- RetryMerge.NativeToolset.RecordFinding: requires a prepared toolset, which the constructor provides.
