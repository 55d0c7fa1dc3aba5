# Go-PatternX: what its state machines guarantee

Go-PatternX (module `github.com/SeaSBee/go-patternx`) is a set of small concurrent components: a quorum lock, two
circuit breakers, a dead letter queue, a bulkhead, a Bloom filter, retry loops, a pub/sub system and a worker pool. This
project models their logic in Dafny 4.11 and proves what holds of them in every run.

`dafny verify dfyconfig.toml` checks everything.

## How it is modelled

**Step systems.** Each concurrent component is a `State`, a datatype of `Step`s (one atomic statement of one goroutine,
one command reaching a store, one channel operation, or time passing) and a function `Run` over a sequence of steps.
`Run` accepts *any* sequence: a step that cannot happen in a state leaves it alone. A lemma about
`Run(c, START, steps)` for all `steps` is therefore about every reachable state of every interleaving. `pubsub_timed`
adds a clock to the pub/sub steps: time passes only as long as nobody is overdue.

**Objects.** The components' methods are methods of classes, with the source's loops and its order of statements.
Between any two statements of a method other goroutines move: a `tape` says, moment by moment, which legal steps they
take, how a command fares, or how a handler ends. The methods are proved for every tape. The bulkhead, dead letter
queue, pub/sub topic and worker pool keep a ghost `trace` of all steps since the start, and `Valid()` says that the
state is what `Run` makes of it, so everything proved of runs holds of the object between any two statements. The
methods of the Redlock object each return the `trace` of the steps taken meanwhile and end in `Run` of it. Sequential
code (the breakers' mutex sections, the Bloom filter, the retry loops) is proved against functions or recursive
specifications directly; what a Bloom filter method does to the filter and its snapshot together is one command of the
runs in `bloom_runs`.

| files | source | model |
|---|---|---|
| `redlock_protocol`, `redlock_safety`, `redlock_exact`, `redlock_callers`, `redlock_traces`, `redlock` | `redlock.go` | N stores, any number of callers, keys with expiry, lost commands and lost answers, clock loss |
| `breaker`, `breaker_concurrent` | `circuitbreaker.go` | the breaker object and its sequential runs; its interleaved runs, with mutex sections split between their stores and admission reads outside them |
| `breaker_pubsub` | `pubsub.go` | the second breaker, compared with the first |
| `deadletter` | `deadletter.go` | map, channel, workers, retry counts, counters |
| `bulkhead` | `bulkhead.go` | the two token channels and every call's statements |
| `bloom_spec`, `bloom_packing`, `bloom_runs`, `bloom` | `bloom.go` | bits against the set of added items, byte packing, snapshots over runs of commands that may fail |
| `backoff`, `retry`, `retry_stats` | `retry.go` | delays over the reals; three loops against one specification; the concrete types of the errors that the third stores |
| `pubsub`, `pubsub_order`, `pubsub_timed`, `pubsub_object` | `pubsub.go` | publishers, topic processor, concurrent deliveries, shared retry count; the same with durations and a clock |
| `pool`, `pool_runs`, `worker_pool` | `pool.go`, `worker.go` | queue, workers, results, scaling under the mutex, counters |
| `counting`, `traces` | | counts and sums over maps, used by the conservation laws; states on the way of a run |

## Assumptions and findings

Redlock. Lock values are unique, and `Eval` answers with a Go `int`: an `int64` in the interface equals neither
constant that it is compared with, so no answer to an Extend would count, and every answer to a release would. An
errored command may or may not have been carried out, but is not carried out later. `ExclusionExactly` shows that
mutual exclusion holds in every run *if and only if* four conditions hold, each of which can fail in practice:

- `Set` writes only when the key is absent or expired. The repository's mock client overwrites
  (`tests/unit/redlock_test.go:32-45`); under such stores two callers can own one resource.
- The quorum is a majority. `NewRedlock` computes one, but a smaller configured quorum passes validation
  (`redlock.go:656-662`).
- The lifetime keys lose to store clocks, plus the lag between measuring validity and stamping `created`, stays below
  the drift allowance; reaching it is already too much.
- The keys that an `Extend` writes outlive, counted from `created`, every TTL that the lock carries or is being given.
  The code sends whole seconds but stores the full TTL (`redlock.go:443`, `redlock.go:467`), does not move `created`,
  and a failed Extend may leave shorter keys under the old TTL. `ExtendsExactly` says of any Extends of one lock,
  whatever becomes of their commands, whether exclusion survives them; `EachRuleIsNeeded` breaks exclusion by a
  fractional TTL alone, by extending exactly at `created` alone, by a shorter TTL that nobody is heard of alone, and
  by a store clock running fast alone. `RuleExclusive` proves that a check the caller can make before each Extend is
  enough.

Circuit breaker. A breaker opened without a recorded failure time (`ForceOpen` on a breaker that never failed, or a
`Reset` falling between the two halves of `recordFailure`) can never leave Open by itself; `RecoverableExactly` says
when it can. A recovered panic makes `Execute` return nil although a failure is recorded. The two breakers differ on
exactly one arrival time (`>=` against `>`).

Bloom filter. The code never reads back a snapshot it has written: `encoding/json` writes the packed bytes as a base64
string (section 4 of RFC 4648), and `deserializeState` expects an array of numbers (`bloom.go:647-651`,
`bloom.go:788-791`). So every load of the filter's own snapshot fails, and a filter opened over one starts fresh and
keeps it (`bloom.go:120-127`). `NothingComesBack` proves this of every run, and `ReopeningBreaks` gives the shortest
one. The other rows about loads speak of snapshots in the readable form, which something else must have written. Two
things then leave a snapshot whose items are no longer live, for a later reload to bring back: an opening that does
not load it, and a delete that fails in `Clear`. `StaysWithinExactly` shows that in every run stored bits stay within
the live ones if and only if neither happens on a snapshot of something; `ReopeningExactly` says what a reload gives
until a completed save, load, delete or expiry puts the snapshot right.

Retry. The third loop keeps the last error in an `atomic.Value` (`retry.go:54`), whose `Store` panics when the concrete
type is not the one stored first. It stores each failed call's error, `errors.New("")` after a success, and a doubly
wrapped error after a cancellation. So an operation that fails once with any error not made by `errors.New` and then
succeeds makes it panic (`FailsOncePanics`), and so does an `errors.New` failure whose wait is cut off (`CutOffPanics`),
where the other two loops return. `StatsExactly` says for which runs it is the specified loop; `SafeReturns` and
`UnsafePanics` say for which policies, error types and contexts a caller can know so beforehand.

Bulkhead. A function that panics gives its tokens back but is counted in no outcome: `CountersAddUpExactly`.

Pub/sub. A delivery timeout lets the processor go on before a subscription has seen the message, and retries of one
subscription raise the message's shared `RetryCount`, which another subscription's filter may then hold against it.
`OrderExactly` says exactly which configurations keep a subscription in order. With durations in the model,
`TimesOutExactly` gives the OperationTimeout up to which the processor can stop waiting, and `TimedOrderExactly` the
one up to which an unspoilt subscription can get out of order, which depends on its own handler and retries only. With
n retries, handlers of at most H, a retry delay r and a lag L, the second is `L + 2(n + 1)(L + H) + r n(n + 1) - H`;
under the default 30 s, 3 retries and 100 ms, handlers must take less than about 4.1 s. A filter that asks for a
priority never matches, since `publishMessage` sets none. Sequence numbers are drawn before the queue is entered, so
the queue order is theirs in every run if and only if at most one publisher publishes, or nothing can be queued
(`AscendingExactly`).

Worker pool. Nothing takes workers out of `workerPool`, so its `MaxWorkers` places fill up: after at most `MaxWorkers`
jobs no job is ever started again, or one more if `MinWorkers` is smaller and a `ScaleUp` is caught in its send,
holding the mutex for good. Every configuration has a run that reaches this bound. `QueuedJobs` overstates the jobs
not done by exactly the results that callers fetched, and `IdleWorkers` is negative in some run of every configuration
that can scale.

## Model

| member | source | states |
|---|---|---|
| RedlockProtocol.NewQuorum | redlock.go:152-165 | the default quorum is the smallest majority of the clients; a configured one is accepted whenever it lies between 1 and the number of clients, majority or not, and is then the one used |
| RedlockSafety.StepKeeps | redlock.go:342-361 | no step but v's own release and Extend takes a key away from v or shortens it: release deletes only a matching value, Set does not overwrite |
| RedlockSafety.ExtendKeeps | redlock.go:416-482 | an Extend's new key lasts for every TTL that the lock carries or is being given, though it may be shorter than the old key |
| RedlockSafety.CommitKeepsCall | redlock.go:285-300 | the lock handed out expires before the first of the keys it counted, despite clock loss and the lag before `created` |
| RedlockSafety.NextKeepsInv | redlock.go:255-482 | the inductive invariant: every acquired, unexpired lock is backed by live keys with its value at a quorum of stores, also during and after an Extend that misses quorum; and one lock may have just enough to stop any other quorum instead |
| RedlockSafety.MajoritiesMeet | redlock.go:161-165 | two majorities of the same clients share one |
| RedlockSafety.MutualExclusion | redlock.go:161-514 | in every reachable state at most one acquired, unexpired lock exists per resource, whatever acquire, retry, rollback, unlock, extend and expiry steps interleave |
| RedlockExact.OverwritingBreaks | redlock.go:261-277 | with stores whose Set overwrites, some run lets two callers own one resource |
| RedlockExact.MinorityBreaks | redlock.go:641-662 | with an accepted quorum that is not a majority, some run lets two callers own one resource |
| RedlockExact.LateCommitBreaks | redlock.go:285-300 | if clock loss and lag may exceed the drift allowance by less than any positive limit, that is if they may just reach it, some run breaks |
| RedlockExact.RashExtendBreaks | redlock.go:416-468 | if the keys of an Extend may fall short by less than any positive limit, some run breaks |
| RedlockExact.ExtendsExactly | redlock.go:416-482 | after any Extends of one lock on a resource that nobody else has a key of (one after or beside another, each `expire` carried out or not, heard or not, with any clock loss, and pauses between), everything is exclusive if and only if the lock has run out, or the clients whose keys do not outlast it make no quorum |
| RedlockExact.RulesSuffice | redlock.go:416-482 | for an Extend that every client carries out and that all or none are heard of, whole seconds, strictly after `created`, no shorter TTL and no clock loss together keep exclusion |
| RedlockExact.EachRuleIsNeeded | redlock.go:416-482 | each of these four, broken alone, breaks exclusion |
| RedlockExact.ExclusionExactly | redlock.go:161-514 | mutual exclusion holds in all runs if and only if Set never overwrites, the quorum is a majority, clock loss and lag stay below the drift allowance, and no Extend's keys fall short of a TTL |
| RedlockCallers.RuleExclusive | redlock.go:416-482 | callers that begin an Extend only when it, and every Extend of the lock under way, outlives the longest TTL carried or being given, by the worst clock loss, keep exclusion whether Extends succeed, fail or overlap |
| Redlock.Redlock.TryAcquire | redlock.go:255-314 | every client is asked once, and the lock is handed out if and only if a quorum of them carried the Set out on a free key and were heard, and TTL minus the time the attempt had taken exceeds the drift share; it is created then and valid for what is left. Otherwise all clients have been asked to release and the key is at none on which the script ran |
| Redlock.Redlock.ReleaseAll | redlock.go:317-361 | every client is asked once, the count is of those that held the key, deleted it and were heard, and the key is at no client on which the script ran |
| Redlock.GoneForGood | redlock.go:342-361 | a key gone after Unlock, or after a failed attempt that is not retried, is never brought back by anybody |
| Redlock.Redlock.LockWithRetry | redlock.go:189-252 | it succeeds exactly with the first attempt that has a quorum of answers and time left, each attempt timed from its own start; maxRetries + 1 attempts precede an uncancelled failure, one acquisition is counted for each, and nothing happens on invalid input |
| Redlock.Redlock.Unlock | redlock.go:364-413 | the lock is no longer owned; only a first Unlock can succeed, and does exactly if some client held the key, deleted it and was heard; all are asked once, each Unlock is counted, and the key is at no client on which the script ran |
| Redlock.Redlock.Extend | redlock.go:416-482 | every client is asked once; it succeeds if and only if a quorum of them held the key, extended it and were heard, and then the TTL is the new one, counted still from `created`; otherwise the lock is as it was; each is counted once |
| Breakers.StartsSpaced | circuitbreaker.go:209-228 | while everything fails, operations of an open breaker start at least `timeout` after the failure before |
| Breakers.LoadBound | circuitbreaker.go:209-335 | any window of length W after the trip sees at most W / timeout + 1 operations, however many calls arrive |
| Breakers.TripsAtThreshold | circuitbreaker.go:315-335 | a closed breaker opens at exactly the threshold-th consecutive failure and lets all calls through before |
| Breakers.FailingRun | circuitbreaker.go:154-335 | a fresh breaker lets `threshold` failing calls through, trips, and from then on keeps the load bound |
| Breakers.RecoversExactly | circuitbreaker.go:209-358 | halfOpenMax calls after one another on an open breaker that has seen a failure close it if and only if the first comes no sooner than `timeout` after that failure and all succeed; then all are let through and it is half-open until the last |
| Breakers.Relapses | circuitbreaker.go:209-335 | a failure after fewer successes: all were let through, and it is open again from then |
| Breakers.CircuitBreaker.Execute | circuitbreaker.go:154-281 | a call with no operation or a dead context changes nothing; else it is rejected exactly if the breaker is open with no failure time or too soon after it, or half-open with halfOpenMax successes; an admitted call is recorded exactly once as success or failure, a rejected one not at all, and a panic answers nil only without a context |
| Breakers.CircuitBreaker.RecordFailure | circuitbreaker.go:315-335 | the failure is counted and timed, and trips or reopens the breaker as specified |
| Breakers.CircuitBreaker.RecordSuccess | circuitbreaker.go:338-358 | the success is counted, and closes a half-open breaker at the halfOpenMax-th |
| ConcurrentBreaker.CountersAtRelease | circuitbreaker.go:294-382 | in every interleaving, whenever the mutex is free: Closed means failureCount is the trailing run of recorded failures and below the threshold, HalfOpen that successCount is the successes since the probe and below the maximum, and healthy that it is Closed |
| ConcurrentBreaker.Recovery | circuitbreaker.go:303-358 | between Open and a later Closed without ForceClose or Reset lie a HalfOpen entry and exactly halfOpenMax recorded successes with no recorded failure between |
| ConcurrentBreaker.UndisturbedCall | circuitbreaker.go:154-247 | a call that nobody interrupts does what the sequential breaker does |
| ConcurrentBreaker.RecoverableExactly | circuitbreaker.go:294-313 | an open breaker with nobody inside can reach HalfOpen without a reset if and only if a failure time is stored |
| ConcurrentBreaker.ForceOpenSticks | circuitbreaker.go:361-367 | ForceOpen on any breaker with no failure time and nobody inside leaves it stuck |
| ConcurrentBreaker.ResetRaceSticks | circuitbreaker.go:315-335 | for every threshold, a Reset between the times and the counts of that many failures leaves the breaker stuck |
| ConcurrentBreaker.CalmFromStart | circuitbreaker.go:315-335 | without those two, an open breaker always has a failure time, so recovery stays possible |
| PubSubBreaker.OneCall | pubsub.go:99-152 | corresponding breakers decide alike unless the call arrives exactly at the timeout, and stay corresponding; an open pub/sub breaker keeps at least `threshold` failures |
| PubSubBreaker.BreakersAgree | pubsub.go:99-152 | the pub/sub breaker and a breaker with halfOpenMax 1 admit the same calls of a sequential run if and only if none arrives exactly at the timeout |
| PubSubBreaker.CircuitBreakerPubSub.Execute | pubsub.go:99-152 | the object's fields move as the compared specification says |
| DeadLetters.OnePlaceEach | deadletter.go:188-406 | in every interleaving the map tracks exactly the operations being added, queued or with a worker, and each of them is in one place only |
| DeadLetters.Conserved | deadletter.go:188-406 | at every moment, what was counted as failed is succeeded, dropped, in the gauge or refused, up to operations between two counters |
| DeadLetters.ConservedWhenSettled | deadletter.go:188-406 | with no operation half way, TotalFailed = TotalSucceeded + TotalDropped + CurrentQueue + refused adds and CurrentQueue is the size of the map |
| DeadLetters.BudgetFalls | deadletter.go:287-369 | a sum over all operations falls by one with every retry and rises with nothing but a new operation: retrying ends |
| DeadLetters.StaysAsBrought | deadletter.go:188-369 | through every run an operation keeps the RetryCount and MaxRetries it came with, or the queue's for 0, and is first tried no sooner than its NextRetry, or retryDelay after it came if it had none |
| DeadLetters.RetriesBounded | deadletter.go:287-369 | no operation is tried more than max(0, MaxRetries - RetryCount) times, as it came in |
| DeadLetters.DroppedAfterAll | deadletter.go:287-369 | and one that its handler always wants, and that there is room to queue again, is tried exactly that often before it is dropped |
| DeadLetters.RetriesBackOff | deadletter.go:343-369 | from RetryCount 0, the n-th retry starts at least retryDelay * n(n-1)/2 after the first |
| DeadLetters.DeadLetterQueue.AddFailedOperation | deadletter.go:188-238 | a malformed operation changes nothing; an accepted one is last in the channel with its own MaxRetries and NextRetry or, for 0 and for none, with the queue's MaxRetries and now + retryDelay; a refused one has left the map and saw a full channel |
| DeadLetters.DeadLetterQueue.ProcessNext | deadletter.go:268-406 | the head of the channel is tried not before its time and once, if it may be and its handler wants it, and else dropped; after a failure it is last in the channel, to wait RetryCount * retryDelay from the handler's return, or dropped having seen a full channel; the worker is free |
| Bulkheads.Tokens | bulkhead.go:329-386 | semaphore tokens are exactly the calls owning a slot, queue tokens the calls in the waiting room, neither exceeds its limit, and no more than MaxConcurrentCalls functions run |
| Bulkheads.ReceivesNeverBlock | bulkhead.go:359-386 | a call giving a token back never waits for one |
| Bulkheads.Progress | bulkhead.go:140-386 | while any call is unfinished some call can move: no deadlock |
| Bulkheads.StepsRunOut | bulkhead.go:140-423 | every step but an arrival uses up some of a bounded number of steps: no livelock |
| Bulkheads.CallsConserved | bulkhead.go:140-170 | TotalCalls = Successful + Failed + Rejected + calls whose function panicked + calls in flight, at every moment, and the three counters count those calls |
| Bulkheads.CountersAddUpExactly | bulkhead.go:140-170 | with all calls over, TotalCalls = Successful + Failed + Rejected if and only if no function panicked |
| Bulkheads.TimeoutsAreRejections | bulkhead.go:359-379 | timeouts are among the rejections, up to calls between the two counters |
| Bulkheads.Bulkhead.AcquireSemaphore | bulkhead.go:329-356 | without cancellation a call gets a slot at once if the semaphore has one when tried; else it is refused at once if the queue is full when tried, later; and else it waits and gets a slot or times out |
| Bulkheads.Bulkhead.WaitForSemaphore | bulkhead.go:359-379 | the call leaves the waiting room with a slot, or refused on cancellation, or, exactly then counted as timed out, on its deadline |
| Bulkheads.Bulkhead.Execute | bulkhead.go:140-170 | the call ends as succeeded, failed or panicked exactly as its function does, or rejected, as timed out exactly if the deadline ended its wait; without cancellation and deadline it is rejected if and only if it found the semaphore and, later, the queue full |
| BloomSpec.WrapsOnce | bloom.go:503-526 | wrapping after every 64-bit operation gives the same position as wrapping once |
| BloomSpec.PositionsInTurn | bloom.go:503-526 | the unwrapped hashes of an item begin with its FNV digest and grow by its MD5 digest and the odd multiples of its SHA-256 digest |
| BloomSpec.NoFalseNegatives | bloom.go:213-260 | an item added since the last Clear is never reported absent |
| BloomSpec.SameItemsSameBits | bloom.go:145-341 | the bits depend only on which items were added, not on order, repetition or batching |
| BloomSpec.FillBound | bloom.go:529-537 | at most min(size, hashCount * itemCount) bits are set |
| BloomPacking.UnpackUndoesPack | bloom.go:660-860 | unpacking undoes packing for every bit sequence of every length |
| BloomPacking.PackingUnique | bloom.go:660-674 | the packed form, padding included, is determined by the bits |
| BloomPacking.BitsetToBytes | bloom.go:660-674 | the bytes hold exactly the bits, lowest first, and zero padding |
| BloomPacking.BytesToBitset | bloom.go:845-860 | each bit is read back from its byte, and bits beyond the bytes are false |
| BloomFilters.BloomFilter.GetHashPositions | bloom.go:503-526 | all positions are below size and are those of the unbounded formula |
| BloomFilters.BloomFilter.Add | bloom.go:145-210 | exactly the bits at the item's hashCount positions are set besides those that were, unless the filter is closed, the item invalid, the context done or the filter full; a failed save does not matter |
| BloomFilters.BloomFilter.AddBatch | bloom.go:264-341 | an uncancelled batch equals single Adds of its first min(len, maxItems - itemCount) items; a cancelled one keeps a prefix |
| BloomFilters.BloomFilter.Contains | bloom.go:213-260 | true exactly if the bits at all of the item's hashCount positions are set, so true for every added item |
| BloomFilters.BloomFilter.ContainsBatch | bloom.go:345-406 | gives every item of the batch the answer Contains gives |
| BloomFilters.BloomFilter.SaveWithRetry | bloom.go:558-627 | it succeeds exactly if one of three attempts gets through; the store holds exactly what is live if any attempt was carried out, and else what it held before |
| BloomFilters.BloomFilter.Clear | bloom.go:409-441 | the filter is empty even on failure; the snapshot is gone exactly if the delete was carried out |
| BloomFilters.BloomFilter.LoadFromStore | bloom.go:715-860 | it succeeds exactly if a fitting snapshot is got in the readable form, which is not the one the filter writes, and then the filter answers as it did when that was taken; else nothing changes |
| BloomFilters.BloomFilter.LoadWithRetry | bloom.go:677-712 | the same over three attempts: never for a snapshot the filter has written |
| BloomFilters.BloomFilter.constructor | bloom.go:97-142 | the filter opens with the items of a readable snapshot if a load gets through, and else empty with the snapshot kept, as over every snapshot it has written |
| BloomFilters.BloomFilter.StoredBits | bloom.go:558-627 | stored bits are within live bits exactly when the items' positions say so |
| BloomRuns.StaysWithinExactly | bloom.go:97-627 | through any run of openings, additions, Clears and expiries, with saves that fail or not, stored bits stay within live ones if and only if no opening over a snapshot of something does without loading it, and no delete of one fails |
| BloomRuns.ReopeningExactly | bloom.go:677-753 | unless such a thing has happened since the snapshot was last put right, reopening loses only the last additions; if it has, the store still holds what was there then, and that is what reopening brings back, if it is readable |
| BloomRuns.AnsweredIsWithin | bloom.go:213-260 | in any state, stored bits are within live ones exactly if every stored item is reported present |
| BloomRuns.NothingComesBack | bloom.go:640-658 | over snapshots of the filter's own making, no opening in any run loads anything, and each leaves stored bits that are not live if anything was saved |
| BloomRuns.ReopeningBreaks | bloom.go:784-795 | an item saved, then the filter opened again: the filter is empty and the stored bits are not live |
| BloomRuns.FailedLoadBreaks | bloom.go:118-127 | a readable snapshot of an item, and a filter opened whose loads fail: the stored bits are not live |
| BloomRuns.FailedDeleteBreaks | bloom.go:430-437 | an item saved, then a Clear whose delete fails: the stored bits are not live |
| BloomFilters.BloomFilter.CountSetBits | bloom.go:529-537 | counts the set bits, which are at most hashCount * itemCount |
| Backoff.BaseInTurn | retry.go:332-341 | before jitter the first delay is InitialDelay, and each is Multiplier times the one before it, but no more than MaxDelay |
| Backoff.JitterExactly | retry.go:343-347 | with jitter, the delays that can be drawn are exactly those within JitterPercent of that, the upper bound excluded |
| Backoff.WithinJitter | retry.go:332-353 | each delay is within JitterPercent of min(InitialDelay * Multiplier^k, MaxDelay) and never negative |
| Backoff.Monotone | retry.go:332-353 | without jitter and with Multiplier at least 1 delays never get shorter |
| Backoff.TotalAtMost | retry.go:332-353 | n delays take at most n * MaxDelay * (1 + JitterPercent/100) |
| Backoff.TotalUnderSum | retry.go:332-353 | without jitter, n delays take at most the geometric sum |
| Backoff.UnderClosedForm | retry.go:332-353 | for a multiplier above 1 that sum is d(m^n - 1)/(m - 1) |
| Retries.SpecExplained | retry.go:191-255 | a run ends with the first success, the first non-retryable error, a cancellation, or MaxAttempts retryable failures |
| Retries.SpecCallsInTime | retry.go:219-228 | no call starts after the caller's cancellation, nor after the one deadline fixed by the first attempt |
| Retries.ArgumentsChecked | retry.go:191-217 | an invalid policy, or else a missing operation, is refused before any call, and nothing else is |
| Retries.SpecTimes | retry.go:219-252 | the first call is made at once, and each further one exactly when the call before it has taken its time and the wait after it its delay |
| Retries.SpecCancelled | retry.go:219-252 | a run is cancelled only when the caller's cancellation or the one deadline has come by the end of its last wait, and by the wait's own channel unless that is a tie |
| Retries.SpecUncancelled | retry.go:240-252 | and neither has come by the end of a wait that another call follows |
| Retries.SpecWaits | retry.go:240-252 | the waits are calculateDelay's, one after every failed call but the last |
| Retries.RunWaitBound | retry.go:191-255 | all waits of a run take at most (MaxAttempts - 1) * MaxDelay * (1 + JitterPercent/100) |
| Retries.IsRetryableError | retry.go:356-370 | true exactly if the list is empty or some listed error matches |
| Retries.RetryWithContext | retry.go:191-255 | makes the same calls and waits and ends the same way as the specification; the nested timeouts are one deadline |
| Retries.RetryWithResultAndContext | retry.go:263-329 | the same, with the first success's value or the zero value |
| RetryStatistics.StatsExactly | retry.go:402-484 | the third loop ends as the specification if and only if all failed calls' errors have one concrete type, that of errors.New if a success follows and that of a doubly wrapped error if a cancellation does; else it panics |
| RetryStatistics.PanicsOnTheWay | retry.go:402-484 | a run that panics has made the first of the specified calls and waits |
| RetryStatistics.SafeReturns | retry.go:402-484 | it never panics with one attempt, with no errors, or with errors of errors.New only, no timeout and no cancellation |
| RetryStatistics.UnsafePanics | retry.go:402-484 | in every other case of policy, error types and context some operation makes it panic |
| RetryStatistics.FailsOncePanics | retry.go:436-449 | one failure of another type, then a success: the other loops return it, this one panics |
| RetryStatistics.CutOffPanics | retry.go:449-473 | an errors.New failure, then a wait cut off by timeout or context: the others return the cancellation, this one panics |
| RetryStatistics.RetryWithStatsAndContext | retry.go:402-484 | the loop returns and panics exactly as StatsExactly has it, with the calls and waits of that run, and when it returns with its statistics and last error |
| RetryStatistics.StatsConsistent | retry.go:402-484 | when it returns, the counts are of the calls that succeeded and failed, attempts are these plus a cancelled check, at most MaxAttempts, and TotalDelay is the sum of the delays waited |
| Delivery.DeliveryOrder | pubsub.go:613-835 | every unspoilt subscription sees, repeats aside, exactly the settled part of the queue order that its filter lets through, whatever breakers, retries and other deliveries do, unless the processor goes on while its handler may still be called |
| Delivery.WantedExactly | pubsub.go:853-876 | that part is ascending and contains exactly the messages that the filter matches |
| DeliveryExact.OrderExactly | pubsub.go:613-876 | a subscription is kept in order in every run if and only if it can get nothing, or there is no delivery timeout and no other subscription can spoil its filter |
| DeliveryExact.TimeoutsBreakOrder | pubsub.go:682-689 | with delivery timeouts the processor can go on before a subscription has seen its message |
| DeliveryExact.RetriesSpoilFilter | pubsub.go:766-770 | another subscription's retries can make a filter with MaxRetryCount refuse a message it wants |
| DeliveryExact.PriorityFilterStarves | pubsub.go:552-583 | a filter that asks for a priority never gets a message |
| DeliveryExact.SequencesDiffer | pubsub.go:575-602 | queued messages never share a sequence number |
| DeliveryExact.LonePublisherAscends | pubsub.go:552-609 | a lone publisher's messages are queued in ascending sequence |
| DeliveryExact.LonePublisherSeenInOrder | pubsub.go:552-835 | and so every unspoilt subscription sees them |
| DeliveryExact.TwoPublishersSwap | pubsub.go:575-602 | any two publishers can be queued in descending sequence, however small the queue |
| DeliveryExact.AscendingExactly | pubsub.go:552-609 | in every run in which only these publish, queue order is sequence order, if and only if there is at most one of them or no room in the queue |
| DeliveryTimes.TimesOutExactly | pubsub.go:675-690 | some run lets the processor stop waiting if and only if OperationTimeout is at most the wait for the slowest delivery that any subscription can have, both rounds of retries included |
| DeliveryTimes.TimedOrderExactly | pubsub.go:613-835 | an unspoilt subscription is in order in every timed run if and only if it can get nothing or OperationTimeout exceeds the time of its own last handler call, however slow the others are |
| DeliveryTimes.AttemptsTwice | pubsub.go:766-835 | two rounds of attempts, each failing as late as it can, take 2(n + 1)(lag + handler) + RetryDelay * n(n + 1) |
| PubSubs.MatchesFilter | pubsub.go:853-876 | a message passes exactly if it has all the filter's headers with their values, its priority is not below a positive one asked for, and its retry count below a positive limit |
| PubSubs.Topic.PublishMessage | pubsub.go:552-609 | the message is last in the queue order with a new sequence number, or lost together with its number for good, which needs a missing worker slot, a dead context or a full queue |
| PubSubs.Topic.PublishWithRetry | pubsub.go:524-549 | at most maxRetries + 1 tries, exactly so many before an uncancelled failure, of which only the last can be queued; the other numbers are gaps |
| PubSubs.Topic.PublishBatch | pubsub.go:474-521 | an empty, oversized, cancelled or invalid batch and an open breaker queue nothing; otherwise the messages are queued in batch order up to the first refused one, and the publisher's breaker records a success exactly if none is |
| PubSubs.Topic.Publish | pubsub.go:440-471 | the same for one message, tried again when refused |
| PubSubs.Topic.DeliverWithRetry | pubsub.go:766-835 | the handler is called until it succeeds or times out, at most MaxRetries + 1 times |
| PubSubs.Topic.DeliverMessage | pubsub.go:693-763 | one round of calls, whether the breaker is open or not, and a second exactly if the breaker let the first in and its MaxRetries + 1st error was the breaker's own; a round ends with success, a timeout or MaxRetries + 1 failures, and the delivery succeeds exactly if its last call does |
| PubSubs.Topic.FanOut | pubsub.go:643-673 | every subscription is offered the message exactly once, in any order, and gets it exactly if it is open and its filter lets the message through at that moment |
| PubSubs.Topic.ProcessNext | pubsub.go:613-690 | takes the next message of the queue order, and returns without timeouts only when all its deliveries are done and every unspoilt subscription is up to date |
| Pools.JobInOnePlace | pool.go:330-359 | every accepted job is in exactly one of the queue, a worker, the results channel, or taken once |
| Pools.JobsConserved | pool.go:653-671 | jobs start in order of acceptance; QueuedJobs overstates the jobs not done by exactly the results callers fetched, which CompletedJobs + FailedJobs misses |
| Pools.RunResults | worker.go:63-120 | in every run each result in the channel, or about to be sent, is that of its job: some worker finished that job like this |
| Pools.WorkersInBounds | pool.go:491-567 | at every moment workers[i].id = i and at most MaxWorkers workers; with the mutex free at least MinWorkers, and exactly they have not been told to stop |
| Pools.CountersAgree | worker.go:54-74 | between updates ActiveWorkers is the number of working workers, TotalWorkers the slice's length, Active + Idle = Total, and Idle is negative exactly if more work than are in the slice |
| PoolRuns.IdleNegativeExactly | pool.go:529-567 | Idle is negative at such a moment of some run if and only if MinWorkers is below MaxWorkers: all work, and a ScaleDown removes one |
| Pools.JobsEverStarted | worker.go:76-81 | at most MaxWorkers jobs are ever started, one more only if MinWorkers is smaller and a ScaleUp is caught in its send; all later jobs stay queued |
| PoolRuns.BoundIsMet | worker.go:76-81 | every configuration has a run that reaches that bound: MaxWorkers + 1 jobs if MinWorkers is smaller, MaxWorkers if equal |
| Pools.FullPoolIsForever | pool.go:491-520 | once workerPool is full, a ScaleUp at its send holds the mutex for good and a worker at its send takes no more jobs |
| WorkerPools.WorkerPool.InitializeWorkers | pool.go:274-291 | exactly MinWorkers workers numbered from 0, and no send blocks |
| WorkerPools.WorkerPool.ScaleUp | pool.go:491-526 | adds `count` workers after those found, or as many as there may be, or is refused at the maximum, or caught in its send |
| WorkerPools.WorkerPool.ScaleDown | pool.go:529-567 | removes `count` workers from the end, or as many as may go, all told to stop, or is refused at the minimum |
| WorkerPools.WorkerPool.Submit | pool.go:260-359 | a job with a task and a timeout of zero or between a millisecond and an hour is accepted, as the next in line, exactly if the queue has room at that moment; any other job changes nothing |
| WorkerPools.WorkerPool.SubmitBatch | pool.go:401-426 | every job is tried, an error is reported exactly if the batch is empty or one is refused, and accepted jobs keep their order |
| WorkerPools.WorkerPool.GetResult | pool.go:429-438 | the true result of a job, which nobody else gets or has got and which is nowhere else |
| WorkerPools.WorkerPool.ProcessJobResult | pool.go:653-671 | the first waiting result is collected once and counted once, as completed or as failed, as its job ended |
| WorkerPools.WorkerPool.Round | worker.go:33-92 | a stopped worker ends at once; else one round ends with the worker stopped, its job finished, that very result sent and itself back in workerPool, or waiting at one of its channel operations, the last of which never ends |

## Left out

- Redlock.Redlock.TryAcquire: steps of other goroutines using the same lock object are not interleaved inside the method; the step system behind MutualExclusion does interleave them.
- Redlock.Redlock.Unlock: same-object goroutines are not interleaved inside the method, only in the step system.
- Redlock.Redlock.Extend: same-object goroutines are not interleaved inside the method, only in the step system, where several Extends of one lock may overlap.
- Pools.JobsEverStarted: says that jobs stop being started, not that a started job ends, because the task and the receiver of its result are outside the pool.
- WorkerPools.WorkerPool.ScaleUp: waiting for the mutex is given up after `patience` rounds, where the code would wait on.
- WorkerPools.WorkerPool.Round: each wait is given up after `patience` rounds and reported, where the code would wait on.
- WorkerPools.WorkerPool.ProcessJobResult: TotalJobTime is not modelled.
- Bulkheads.Bulkhead.WaitForSemaphore: the deadline is a number of rounds, not a clock.
- PubSubs.Topic.ProcessNext: the wait for deliveries is given up after `patience` rounds and reported.
- Backoff.WithinJitter: delays are computed over the reals, without floating-point rounding or overflow.
- BloomPacking.UnpackUndoesPack: speaks of byte sequences; the full JSON round trip does not hold in the code, as NothingComesBack shows.
- BloomFilters.BloomFilter.LoadFromStore: a fitting snapshot taken by a filter with a larger capacity than this one's is not considered.
- BloomFilters.BloomFilter.Add: mutex-protected methods are atomic, as the filter's lock makes them; two filters open on one snapshot at once are not considered, nor is a filter without a store.
- Breakers.LoadBound: for sequential runs only; the code counts recorded successes rather than admissions, so it does not limit concurrent half-open calls (`circuitbreaker.go:219-224`).
- DeadLetters.Conserved: runs without Close, ClearQueue and the IsHealthy probe, which can take a queued operation off the channel (`deadletter.go:480-486`), with distinct IDs and metrics on.
- DeliveryTimes.TimedOrderExactly: for subscriptions that no other can spoil; OrderExactly has the others. The dead letter handler's time counts as lag.
- Panics of retried operations and of dead letter retry handlers, which are assumed to return; those of bulkhead functions and breaker operations are modelled.
- Behaviour during and after Close of the bulkhead, the dead letter queue, the pool and the pub/sub system, and ResetMetrics of a busy bulkhead.
- Hash digests, random values, Bloom sizing by logarithms: taken as given.
- PubSubs.Topic.PublishBatch: other publishers' calls through the same breaker are not interleaved, and whether data and headers pass the validators is given.
- PubSubs.Topic.Publish: as for PublishBatch.
- The message store, creating topics and subscribing while messages flow; the set of subscriptions is fixed.
- autoScale's timing: any caller may scale at any time instead.
- Averages, health reports, logging, configuration presets, name and header validators.
- Lock value collisions, including the timestamp fallback when random bytes are unavailable (`redlock.go:602-610`).
