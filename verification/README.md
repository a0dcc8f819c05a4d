# phantomTraffic: a verified model

phantomTraffic is a Go agent that generates scheduled, rate-limited traffic and keeps a
tamper-evident audit log. This project models its deterministic core in Dafny and proves what
that core promises, over every input, every run and every interleaving. `dafny verify
dfyconfig.toml` checks all of it.

| module | models |
|---|---|
| `Basics`, `Sorting`, `Bytes` | optional values and integer ranges, stable in-place sorting, byte strings and 64-bit big-endian integers, used by the others |
| `AuditHash` | the canonical record encoding and the digest link |
| `AuditSink` | chain replay and the file sink: open, append, verify, close, with failing writes and syncs and arbitrary edits |
| `Schedule`, `PauseGate`, `BlockTimer`, `Scheduler` | active windows and the search for their next change, the dual-source pause gate, the block timer, the goroutine that keeps the gate in step |
| `ScheduledBlock` | the last two on one gate: when a block of a scheduled run finishes |
| `FakeClock` | the deterministic clock and its timer queue |
| `TokenBucket`, `Limiter`, `Admission` | the lazy token bucket, two-tier admission with rollback and refund, and the same as objects with reservations |
| `Semaphore` | the resizable semaphore over a mutex and a condition variable |
| `RunState` | the run's state machine with Pause, Resume, Stop and completion racing over it |
| `CircuitBreaking` | the circuit breaker, and one breaker shared by all workers |
| `Worker` | one virtual user: its loop, one action through breaker, limiter, semaphore and routing, and the retries |
| `Stats`, `Collector` | sharded atomic counters under a torn snapshot, and the folding code |
| `Histogram`, `Backoff`, `Weights` | bucketed quantiles, the wrapping exponential backoff, weight normalisation by greatest common divisor |

Objects the source updates in place are classes, and their methods are proved against functions
on values (`View()` is the value of an object); the properties are then proved of those
functions. Concurrency is interleaving: every step of a state machine is one critical section,
one atomic operation, or one notification. Clocks, digests, file systems, handlers and what
other goroutines do meanwhile are parameters or scripts, quantified over.

The digest is an uninterpreted function. "Equal" claims about logs say: equal, or two distinct
byte strings among those digested have the same digest.

Where the code and its own documentation differ, the model follows the code:

- `NextTransition` is documented as "at or after t"; the code looks strictly after `t`. The two
  readings agree exactly when activity does not change at `t` itself (`Schedule.ReadingsAgreeIff`,
  with `Schedule.ReadingsCanDiffer` as an instance).
- The quantile is documented as the bucket in which the cumulative count crosses `q * total`. Read
  as "reaches", which is the usual nearest rank, the code asks for one sample more;
  `Histogram.PercentileIsNearestRankIff` says when the two agree. One consequence: the 99th
  percentile of fewer than 100 samples is always 30 seconds (`Histogram.P99OfFewSamples`), also for
  a single sample of a millisecond (`Histogram.OneSampleReportsFarOff`).
- `Stop` is documented as idempotent. A second `Stop` returns an error exactly while the first is
  still draining (`RunState.StopErrorIff`).
- A bucket refill reads the clock twice and counts the time between the readings twice, which
  shows exactly while the bucket is not full (`TokenBucket.LevelAfterRefillIff`). The rate bounds
  carry that term; and a rejected request, which should leave no trace, leaves one exactly then
  (`Limiter.RefusedIsSameIff`, with `Limiter.RejectionCanLeaveATrace` as an instance).
- The backoff's left shift wraps. The documented cap is met for every attempt when
  `base * max < 2^63` (`Backoff.CapIsIdeal`); without that, exactly when no
  attempt below 64 slips through the guards (`Backoff.CapAlwaysIdealIff`, with `Backoff.CapCanWrap` as
  an instance).
- An append whose sync fails leaves a record in the file that the sink did not count. A log only
  the sink writes verifies exactly when it is open and no write's sync failed since it was last
  opened, and can be reopened exactly while no write followed such a failure
  (`AuditSink.OwnWritesVerdict`, with `AuditSink.AppendAfterFailedSync` as an instance).
- Splitting an `Advance` keeps the clock, the waiters and the delivery order unless the second part
  goes back over a deadline (`FakeClock.AdvanceSplitIff`, `FakeClock.SplitCanDiffer`), but not always
  how channel sends and callbacks interleave (`FakeClock.AdvanceSplitInterleaving`,
  `FakeClock.InterleavingCanDiffer`).
- A completion that finds the run paused gives up, and the run then never completes
  (`RunState.CompletesIff`, with `RunState.CompletionCanGiveUp` as an instance).
- A Resume that overtakes a Pause between its two steps leaves the operator's gate paused in a
  Running run (`RunState.PausedThoughRunning`). Over whole runs the gate stays right exactly when
  no Pause or Resume succeeds while a call of the other kind is still in flight
  (`RunState.GateRightThroughoutIff`).
- A reconnect is documented as no failure; a handler that returns one is retried or recorded as
  failed, and no worker ever records one (`Worker.NoReconnectRecorded`).
- The breaker's comment says half-open admits; the code refuses everything after the probe. If the
  probe ends without a report, the breaker refuses for good (`CircuitBreaking.RefusesForGoodIff`,
  `CircuitBreaking.ProbeCanBeLost`). In the code that takes a done context, a cap breach or a latched
  tripwire, so the run is ending. It still costs something: the breaker is asked before the
  tripwire, so other workers behind it record skips up to their ceiling and never come to the
  safety stop (`Worker.BreakerHidesTheLatch`).

## Model

| member | source | states |
|---|---|---|
| AuditHash.EncodeInjective | internal/audit/hash.go:20-66 | two records with the same digested byte string agree on sequence number, instant, every string, the detail map and the previous hash |
| AuditHash.GenesisIsNoRecord | internal/audit/hash.go:12-15 | the genesis input is never the encoding of a record |
| AuditHash.EncodeLayout | internal/audit/hash.go:31-62 | read back by an independent reader of eight bytes of length and then that many, the digested bytes are: number, time, agent, actor, action, resource, number of details, each detail's key and value with the keys in byte order, previous hash |
| Bytes.Uint64Bytes | internal/audit/hash.go:20-23 | the eight bytes of a number or length are its base-256 digits, the most significant first |
| Bytes.BeforeMeans | internal/audit/hash.go:53 | the order of the keys compares them at the first byte where they differ, a proper prefix first |
| AuditHash.EncodeAnyListing | internal/audit/hash.go:48-62 | the encoding is the same for every sorted listing of the detail keys |
| AuditHash.SortedListingsAgree | internal/audit/hash.go:48-54 | a map's keys have only one sorted listing without repetitions |
| AuditHash.SortGivesListing | internal/audit/hash.go:48-54 | sorting the keys of a map, in whatever order they were iterated, gives that listing |
| AuditHash.KeysInAnyOrder | internal/audit/hash.go:49-52 | iterating the map yields every key exactly once, in no particular order |
| AuditHash.SortedKeys | internal/audit/hash.go:48-54 | collecting and sorting in place gives the sorted listing, whatever the iteration order was |
| AuditHash.RunningHash.WriteField | internal/audit/hash.go:20-25 | feeds the length prefix and the bytes to the running hash, after what was fed before |
| AuditHash.RecordHash | internal/audit/hash.go:31-66 | the field-by-field hash is the digest of the canonical encoding, for every iteration order of the map |
| AuditSink.Replay | internal/audit/filesink.go:87-126 | the replay loop decides as the specification does, on blank, malformed, oversized and chained lines |
| AuditSink.ReplayMeaning | internal/audit/filesink.go:87-126 | replay accepts exactly the readable files whose records form a chain from genesis, and returns that chain's length and tail hash |
| AuditSink.TailFixesChain | internal/audit/filesink.go:87-126 | two chains with the same tail hash are the same records, or a digest collision between them is exhibited |
| AuditSink.TailFixesFile | internal/audit/filesink.go:87-126 | two files that replay accepts with the same tail hash hold the same records, or a digest collision is exhibited |
| AuditSink.CountWraps | internal/audit/filesink.go:118-119 | the sequence counter is the record count modulo 2^64 |
| AuditSink.VerifySound | internal/audit/filesink.go:129-191 | after any run of accepted, rejected and failed appends, edits, closes and reopens: if Verify passes, the file holds exactly the records recovered at open and those appended since, up to a collision |
| AuditSink.VerifyComplete | internal/audit/filesink.go:174-191 | an open sink whose file holds exactly the tracked records verifies |
| AuditSink.UntouchedVerdict | internal/audit/filesink.go:129-191 | with no edit and no failed write or sync, an open sink verifies if and only if every appended record reads back as written, up to a collision |
| AuditSink.AppendAfterFailedSync | internal/audit/filesink.go:150-166 | after a failed sync the next successful append repeats a number, and from then on no check and no open succeeds, whatever is appended later |
| AuditSink.OwnWritesVerdict | internal/audit/filesink.go:63-202 | for every run of accepted, refused, unsynced and wholly failed appends, closes and reopenings of a log only the sink writes: it verifies exactly when it is open and no write since it was last opened failed to sync, and it can be opened exactly when no write followed, before a reopening, one that failed to sync |
| AuditSink.HealthOfWrites | internal/audit/filesink.go:129-166 | without reopenings, those two conditions read off the writes: no sync failed, and no write came after one whose sync failed |
| AuditSink.RunCarriesEvents | internal/audit/filesink.go:129-166 | between two openings, whatever appends fail and whatever is edited, the tracked records are those recovered and then one for each append that reported success, in order, with that event's actor, action, resource and detail, its instant and the sink's agent |
| AuditSink.VerifiedLogCarriesEvents | internal/audit/filesink.go:129-191 | so if Verify passes, the file's records after those recovered are exactly those events with those fields, in order, up to a collision |
| AuditSink.RepeatedNumberBreaks | internal/audit/filesink.go:105-107 | a file with two successive records of one number is refused by replay, whatever follows |
| AuditSink.FileSink.Append | internal/audit/filesink.go:129-166 | the sink's whole new state on acceptance, rejection, closed file, marshalling failure, failed write, failed sync; success exactly when the record was counted; and, field by field, the record written: the event's actor, action, resource and detail, the instant, the sink's agent, number and previous hash, the digest, and on success that record's line at the end of the file |
| AuditSink.FileSink.Verify | internal/audit/filesink.go:174-191 | true exactly when the file replays to the in-memory number and tail |
| AuditSink.FileSink.Close | internal/audit/filesink.go:194-202 | closes once and changes nothing else |
| AuditSink.NewFileSink | internal/audit/filesink.go:63-82 | no sink for a corrupt file; otherwise a sink that continues the recovered chain |
| Schedule.FlipIsEdge | internal/schedule/schedule.go:15-28 | activity changes only at the start or end of a window of that weekday |
| Schedule.ActiveMeans | internal/schedule/schedule.go:15-38 | for every schedule and instant: active exactly when there are no windows, or some window has the weekday set, counted so that day 0 of 1970 is a Thursday, and the nanoseconds since local midnight lie in [start, end) |
| Schedule.OnThursday | internal/schedule/schedule.go:15-75 | a window on Thursdays from eight to six is on at nine on Thursday 1 January 1970, off the day before and the day after, and its next change is at six |
| Schedule.ConstantThrough | internal/schedule/schedule.go:55-75 | if no edge up to an instant changes the state, no instant does |
| Schedule.WeeklyPeriod | internal/schedule/schedule.go:42-46 | activity repeats every seven days |
| Schedule.ConstantForever | internal/schedule/schedule.go:42-46 | constant for a week means constant for ever |
| Schedule.EightDaysSuffice | internal/schedule/schedule.go:42-75 | if the edges of eight calendar days change nothing, nothing ever will |
| Schedule.NextFlipUnique | internal/schedule/schedule.go:55-75 | the next change is determined by the pointwise evaluator |
| Schedule.NeverFlipsIff | internal/schedule/schedule.go:55-75 | there is no next change exactly when no window is on any weekday |
| Schedule.ReadingsAgreeIff | internal/schedule/schedule.go:48-75 | the search strictly after t and the documented one at or after t give the same answer exactly when activity does not change at t |
| Schedule.ReadingsCanDiffer | internal/schedule/schedule.go:48-75 | at the start of a daily window the documented reading answers with that instant, the code with the window's end |
| Schedule.FirstChange | internal/schedule/schedule.go:62-72 | the inner scan stops at the first edge after t that changes the state seen at t, or past the last |
| Schedule.IsActive | internal/schedule/schedule.go:15-28 | the loop returns true exactly when some window covers the instant, or there are no windows, written out in days, weekdays and nanoseconds |
| Schedule.DayEdges | internal/schedule/schedule.go:82-93 | exactly the window boundaries of the day, in order |
| Schedule.NextTransition | internal/schedule/schedule.go:55-75 | a returned instant is the first change after t, with activity constant before it; no instant means activity never changes after t |
| PauseGate.GateFollowsCalls | internal/engine/gate.go:53-103 | after any calls a source is paused exactly when its latest call was a pause, the close channel is closed exactly when some source is paused, and each closing used a channel of its own |
| PauseGate.PausedTotalExact | internal/engine/gate.go:53-87 | the pause account is exactly the time the operator source was paused; schedule pauses and repeated calls add nothing |
| PauseGate.Gate.IsOpen | internal/engine/gate.go:90-103 | open exactly when no source is paused |
| PauseGate.Gate.Pause | internal/engine/gate.go:53-67 | the whole new state; the close channel is closed only on the edge from open to paused and never twice |
| PauseGate.Gate.Resume | internal/engine/gate.go:72-87 | the whole new state; a fresh channel exactly when the gate reopens, else the old one stays |
| PauseGate.Gate.PausedTotal | internal/engine/gate.go:140-148 | the accumulated pause time plus the pause in progress |
| BlockTimer.OpenTimeGrows | internal/engine/run.go:152-176 | open-gate time never runs backwards |
| BlockTimer.WaitOpen | internal/engine/gate.go:155-179 | returns the current close channel with the gate open, without counting any time, or that the context is done |
| BlockTimer.Slip | internal/engine/run.go:155-162 | events between taking the close channel and waiting on it take no time, and if they close the gate the channel is closed already |
| BlockTimer.Select | internal/engine/run.go:162-170 | ends at the first of deadline, gate close and cancellation, at once if the channel is closed already, with the open time counted exactly |
| BlockTimer.Segment | internal/engine/run.go:154-171 | one turn of the loop adds exactly the open time it saw, or finishes the block |
| BlockTimer.RunBlockDuration | internal/engine/run.go:152-176 | finishes at the first moment the gate has been open for the block's duration in all, for any pauses and resumes of both sources, also at the instant between taking the channel and waiting, and not before |
| Scheduler.Sleep | internal/engine/run.go:365-386 | while the scheduler sleeps to the next change, the gate agrees with the schedule at every instant |
| Scheduler.RunScheduler | internal/engine/run.go:365-386 | from the first iteration on, also after it has returned, the schedule source is paused exactly while the schedule is inactive, and the gate is open exactly when moreover the operator has not paused; the gate calls made, in order, are its own and the environment's |
| ScheduledBlock.OpenIsActive | internal/engine/run.go:152-176 | on a gate the scheduler keeps in tune, open time is the time the schedule is active and the operator has not paused |
| ScheduledBlock.RunScheduledBlock | internal/engine/run.go:152-386 | with scheduler and block timer on one gate, the block finishes at the first moment at which the schedule has been active, with the operator not pausing, for the block's duration in all |
| FakeClock.AdvanceSplit | internal/clock/fake.go:147-210 | Advance(a) then Advance(b) leaves the same time, waiters and delivery order as Advance(a+b), for every a and every b not negative |
| FakeClock.AdvanceSplitIff | internal/clock/fake.go:147-210 | for all a and b: exactly when b is not negative or nothing was due between the place reached first and the place reached last |
| FakeClock.SplitCanDiffer | internal/clock/fake.go:147-210 | one timer, advanced to its deadline and back, is delivered in two steps and waits in one |
| FakeClock.AdvanceSplitInterleaving | internal/clock/fake.go:174-210 | the observed interleaving of sends and callbacks is also the same exactly when the first part fires no callback or the second sends on no channel |
| FakeClock.InterleavingCanDiffer | internal/clock/fake.go:174-210 | a callback and a timer fire in one order over two steps and in the other over one |
| FakeClock.BatchSplit | internal/clock/fake.go:174-210 | one long step fires what two short steps fire, in the same order |
| FakeClock.SortCut | internal/clock/fake.go:188-190 | the stable sort by deadline may be cut at any deadline |
| FakeClock.MoveDelivers | internal/clock/fake.go:174-210 | moving time delivers exactly the due waiters, none early, by deadline and then registration; the rest keep waiting |
| FakeClock.FiresWhenReached | internal/clock/fake.go:50-210 | in every run: a timer registered for d and not stopped has fired exactly when d is not positive or the clock has since stood at its registration instant plus d or later, however it was moved |
| FakeClock.RewindIsSilent | internal/clock/fake.go:157-162 | a rewinding Set delivers nothing and loses nobody |
| FakeClock.RunInv | internal/clock/fake.go:50-210 | in every run waiters are listed in registration order, none is due, and nobody both waits and was delivered |
| FakeClock.DeliveredAtMostOnce | internal/clock/fake.go:67-76 | in every run nobody is delivered twice |
| FakeClock.GoneStaysGone | internal/clock/fake.go:67-94 | a stopped waiter stays undelivered whatever happens later |
| FakeClock.StopWins | internal/clock/fake.go:86-94 | a Stop that found its timer waiting is never followed by its delivery |
| FakeClock.FakeClock.AddWaiter | internal/clock/fake.go:50-62 | registers in order, or fires on the spot for a non-positive delay |
| FakeClock.FakeClock.StopWaiter | internal/clock/fake.go:86-94 | true exactly when the waiter was pending, and takes exactly it off |
| FakeClock.FakeClock.Advance | internal/clock/fake.go:147-152 | moves time by the step, forward or back, and fires what is due |
| FakeClock.FakeClock.BeginSleep | internal/clock/fake.go:120-131 | refused for a done context, over at once for a non-positive time, else one pending waiter of its own |
| FakeClock.FakeClock.CancelSleep | internal/clock/fake.go:134-138 | a cancelled sleeper is pending no more; a delivery already made stays |
| FakeClock.FakeClock.Set | internal/clock/fake.go:157-162 | moves time to the instant, forward or back, and fires what is due |
| FakeClock.FakeClock.FireDue | internal/clock/fake.go:174-210 | partition, sort and firing over flags and pointers give the value-level step |
| TokenBucket.RefillIsLevel | internal/safety/bucket.go:27-38 | a lazy refill stores what a continuously filling bucket would hold at the second clock reading, dated with the first: tokens + rps * nanoseconds / 10^9, up to the burst |
| TokenBucket.LevelIs | internal/safety/bucket.go:34-37 | the ideal level written out: tokens plus rps times the nanoseconds since the last refill divided by 10^9, at most the burst |
| TokenBucket.TakeIs | internal/safety/bucket.go:42-52 | a take is granted exactly when the ideal level at the second reading suffices, and leaves that level, less what was granted |
| TokenBucket.LevelAfterRefillIff | internal/safety/bucket.go:27-38 | seen later, a refill agrees with the ideal bucket exactly when its two readings coincide or the bucket would be full by then |
| TokenBucket.LevelAdvances | internal/safety/bucket.go:27-38 | the ideal level later depends only on the ideal level now |
| TokenBucket.RefillPathIndependentIff | internal/safety/bucket.go:27-38 | refilling at one pair of readings and then at another is refilling once at the later pair, exactly when the first two readings coincide or the bucket would be full |
| TokenBucket.RefillFaithfulIff | internal/safety/bucket.go:27-38 | a refill is faithful to the ideal bucket for ever exactly when its readings coincide or the bucket is full |
| TokenBucket.CoveredBound | internal/safety/bucket.go:27-52 | an amount drawn that is covered by the potential is at most burst + rps * (window + double-counted gaps) / 10^9, in nanoseconds |
| TokenBucket.TakeCovered | internal/safety/bucket.go:42-52 | every take, granted or not, keeps the potential |
| TokenBucket.TokenBucket.RefillNow | internal/safety/bucket.go:27-38 | the in-place refill is the specified one: old tokens + rps * nanoseconds / 10^9, at most the burst |
| TokenBucket.TokenBucket.TryTake | internal/safety/bucket.go:42-52 | grants exactly when the refilled bucket holds enough or is unlimited, and takes that much |
| Limiter.EveryWindow | internal/safety/limiter.go:49-122 | in every window of every run of a new limiter, written out in requests, kilobits and nanoseconds: admissions for one target at most max(1, rps) + rps * (window + double-read time) / 10^9, all admissions at most the same of the global rate, bytes reserved less bytes credited at most the same of 125 bytes a second for each kilobit |
| Limiter.WindowBound | internal/safety/limiter.go:88-122 | the same from any valid limiter state, for every interleaving of targets, refusals and refunds |
| Limiter.NoGaps | internal/safety/bucket.go:27-38 | when every two readings coincide the double-read times are nothing, and the bounds are burst plus rate times time |
| Limiter.AdmittedIff | internal/safety/limiter.go:88-122 | a request is admitted exactly when the target's and the global bucket stand at one token or more and the byte bucket, if asked, at the estimate; each is then lower by just that; a refusal names the first that could not afford it |
| Limiter.FirstRequestAdmitted | internal/safety/limiter.go:49-122 | the first request to a new limiter that estimates no bytes is admitted, whatever the rates |
| Limiter.RunValid | internal/safety/limiter.go:88-153 | in every run each bucket with a positive rate holds between nothing and its burst, rollbacks and refunds included |
| Limiter.RejectionLeavesNoTrace | internal/safety/limiter.go:79-122 | a rejected Acquire whose readings are harmless, whichever tier refused and even if it created the bucket, changes no later decision for any target, for later calls with any readings |
| Limiter.FrozenLeavesNoTrace | internal/safety/limiter.go:79-122 | under a clock that stands still during the rejected call, no later decision changes |
| Limiter.RejectionCanLeaveATrace | internal/safety/limiter.go:88-122 | two readings half a second apart in a rejected call turn the refusal of the next call into an admission |
| Limiter.RefusedIsSameIff | internal/safety/limiter.go:79-122 | a refused call leaves every bucket at the level it would have had exactly when in each bucket it consulted the two readings coincide or the bucket would be full by the call's end |
| Limiter.SameDecisions | internal/safety/limiter.go:88-122 | limiters whose buckets stand at the same levels take the same decisions for ever, whatever the later calls and however far apart their readings |
| Admission.ChargedOnce | internal/safety/limiter.go:155-190 | over any calls, a reservation keeps charged exactly the smaller of estimate and last observation before its first release, or nothing if never reconciled; later calls hand back nothing |
| Admission.Reservation.Reconcile | internal/safety/limiter.go:164-169 | records the observation and nothing else |
| Admission.Reservation.Release | internal/safety/limiter.go:171-190 | the first release credits what is owed to the limiter; any other changes nothing there |
| Admission.Limiter.BucketFor | internal/safety/limiter.go:79-86 | finds or creates exactly the target's bucket, full |
| Admission.Limiter.Draw | internal/safety/limiter.go:99-121 | the three tiers in turn decide as specified and each refusal gives back what was taken |
| Admission.Limiter.Acquire | internal/safety/limiter.go:88-122 | a done context or latched tripwire changes nothing; otherwise the whole new state of all buckets and the reply, with a fresh reservation on success |
| Admission.Limiter.ReturnBytes | internal/safety/limiter.go:145-153 | credits the byte bucket exactly the amount, up to its burst; nothing for an amount that is not positive |
| Semaphore.EveryRun | internal/engine/semaphore.go:30-83 | in every reachable state, stray releases included: a waiter asleep below the limit is owed a broadcast or as many wake-ups as there are free permits; held never exceeds the permits out, and equals them when every release is by a holder; held exceeds the limit by no more than was out when it was last set |
| Semaphore.ExactStep | internal/engine/semaphore.go:60-67 | a step keeps the count of permits exact exactly when it is no stray release, or one that finds none held |
| Semaphore.NewRun | internal/engine/semaphore.go:21-83 | the same for every run of a new semaphore |
| Semaphore.Settles | internal/engine/semaphore.go:30-83 | the notifications already promised are used up in a bounded number of steps, in any order |
| Semaphore.SettledServesAll | internal/engine/semaphore.go:30-83 | then nobody sleeps beside a free permit, and without cancellations the waiters got exactly the free permits, as far as there were waiters |
| Semaphore.QuietMeansNothingInternal | internal/engine/semaphore.go:30-83 | nothing is owed exactly when no wake-up step is possible |
| Semaphore.AcquireOutcome | internal/engine/semaphore.go:30-57 | whatever other threads do between its passes, a call of acquire is a legal run; it returns nil holding a permit, an error holding none and waiting nowhere, or is still in line |
| Semaphore.Semaphore.Acquire | internal/engine/semaphore.go:30-57 | the waiting loop's whole effect and outcome: a permit as soon as one is free on a pass, an error when the context is done on a pass without one, sleep otherwise |
| Semaphore.Semaphore.Release | internal/engine/semaphore.go:60-67 | one permit fewer if any is held, by whomever released, and one signal owed |
| Semaphore.Semaphore.SetLimit | internal/engine/semaphore.go:78-83 | the new limit and one broadcast owed |
| RunState.EveryInterleaving | internal/engine/state.go:53-104 | over every interleaving: the path follows the table, never visits both Stopped and Completed, the audit trail has one event for each step of the path into Running, Stopping, Stopped or Completed, in order, with the state left, the state entered and the action that state calls for, done closes at most once and only in a terminal state where it is not forgotten, completion starts at most once and exactly when the last of all block timers ran out |
| RunState.AuditedStepsAre | internal/engine/state.go:64-77 | the steps the audit trail stands for are those into Running, Stopping, Stopped and Completed, each once, in order |
| RunState.TerminalEndsPath | internal/engine/state.go:53-61 | a path ends where it first meets a terminal state |
| RunState.AuditTellsTheEnd | internal/engine/state.go:64-77 | over every interleaving: one start event for the start and each resume, two stop events for a stopped run, one for a stopping or completed one, none before; the last event of an ended run names its state |
| RunState.StopErrorIff | internal/engine/run.go:229-237 | a Stop whose transition is refused returns an error exactly when another Stop is draining |
| RunState.SecondStopFails | internal/engine/run.go:227-237 | two Stops in a row: the second returns an error |
| RunState.GivenUpForGood | internal/engine/run.go:173-187 | once the only completion has given up, no later step completes the run |
| RunState.CompletesIff | internal/engine/run.go:179-187 | the completion succeeds exactly when it finds the run Running; otherwise the run never completes |
| RunState.CompletionCanGiveUp | internal/engine/run.go:173-216 | the one block runs out, a Pause gets in first, and the completion gives up |
| RunState.GateSettlesRightIff | internal/engine/run.go:210-225 | however the pending gate calls are ordered, the operator's gate ends up matching the state exactly when none of the other kind is on its way and one of the right kind is or the gate is already right |
| RunState.GateRightThroughoutIff | internal/engine/run.go:210-225 | the operator's gate matches the state at every moment of a run, or will once the calls in flight are through in whatever order, exactly when no Pause or Resume ever succeeds while a call of the other kind is in flight |
| RunState.GuardedStep | internal/engine/run.go:210-225 | one step keeps the gate right exactly when it keeps that guard |
| RunState.GateOpsRun | internal/engine/run.go:210-225 | carrying out the pending gate calls in any order leaves the last one's gate and the state as it was |
| RunState.PausedThoughRunning | internal/engine/run.go:210-225 | an interleaving of one Pause and one Resume after which the run is Running and the operator's gate paused |
| RunState.Run.TransitionTo | internal/engine/state.go:81-104 | succeeds exactly for the eight pairs of the table; then the new state and one event with the state left, the state entered and its action, if entering it is audited; otherwise nothing changes |
| RunState.Run.Pause | internal/engine/run.go:210-216 | transition, whatever others do, then the gate call; a refusal changes nothing |
| RunState.Run.Resume | internal/engine/run.go:219-225 | the same for Resume |
| RunState.Run.Stop | internal/engine/run.go:229-264 | its exact steps with those of others in between; nil only with done closed once and the state terminal; Stopped whenever its transition succeeded; error exactly when the state read after a refusal is Stopping |
| RunState.Run.Complete | internal/engine/run.go:179-187 | gives up unless Running; else its exact steps with those of others in between, after which the run is Completed and done closed once |
| RunState.Run.SignalDone | internal/engine/run.go:189-191 | closes done the first time only |
| Worker.Worker.DoWithRetry | internal/engine/worker.go:127-156 | one more attempt exactly after a failure of class Transient or Unknown, by its error or, without one, its result, with retries left and an uninterrupted sleep; a panic, a success and a failure of any other class is the last; the result is that of the last attempt |
| Worker.RetriesMean | internal/engine/worker.go:127-156 | in the fields of the attempts: every call but the last failed with class Transient or Unknown and slept its backoff out; the last panicked, succeeded, failed with another class, was the last allowed or had its sleep cut short |
| Worker.KeepsFailing | internal/engine/worker.go:127-156 | a handler whose attempts all fail with class Transient or Unknown, its sleeps uninterrupted, is called exactly max(0, MaxRetries) + 1 times |
| Worker.ActionMeans | internal/engine/worker.go:84-117 | how far an action gets, read off breaker, context, tripwire, caps, permit and registry in the order they are asked; the exact result of every refusal; a stop exactly when the tripwire or a cap refused |
| Worker.HandledMeans | internal/engine/worker.go:127-237 | the exact result recorded for a handled action, by its last attempt: panic, success, cut-short backoff, or a failure that keeps what the handler reported under its own class or, if that is Transient, the error's; the bytes reconciled are those it reports |
| Worker.BreakerHears | internal/engine/worker.go:84-121 | a refused action leaves its breaker alone; one turned away by limiter or semaphore never reports, even as the probe; any other closes it by a success or counts as a failure |
| Worker.SessionEnds | internal/engine/worker.go:49-79 | a session ends at its first turn that does not go through, and how is decided by step, ceiling, gate and sleep in that order; every action planned before it was recorded; a safety stop comes only of an action whose context was not done, and latches the tripwire |
| Worker.CallsBounded | internal/engine/worker.go:127-156 | at most max(0, MaxRetries) + 1 handler calls |
| Worker.NoReconnectRecorded | internal/engine/worker.go:49-167 | no result the worker records is a reconnect, whatever its handlers return |
| Worker.NothingAfterLatch | internal/engine/worker.go:84-106 | once the tripwire is latched a worker calls no handler and takes no reservation or permit |
| Worker.BreakerHidesTheLatch | internal/engine/worker.go:84-106 | a worker whose actions all find a refusing breaker records only skips and never comes to the safety stop, latched or not |
| Worker.ActionIsOrderly | internal/engine/worker.go:84-121 | on every path, panic, unknown route, refused permit and cancelled backoff included, what was taken is given back once and in reverse order, and handlers run only under reservation and permit |
| CircuitBreaking.LostForGood | internal/safety/breaker.go:47-88 | a lost probe is never recovered, whatever the workers do |
| CircuitBreaking.RefusesForGoodIff | internal/safety/breaker.go:47-88 | unless forced open, a breaker refuses every later action of every worker exactly when its probe is lost |
| CircuitBreaking.ProbeCanBeLost | internal/safety/breaker.go:47-88 | a run of a new breaker that loses its probe |
| CircuitBreaking.OpensAtThreshold | internal/safety/breaker.go:77-88 | a breaker opens with the threshold's failure in a row and not before; its cooldown counts from the latest failure |
| CircuitBreaking.ProbeDecides | internal/safety/breaker.go:47-98 | an open breaker lets one probe through once the cooldown is over and nothing else until its verdict; a failed probe opens it and restarts the cooldown, a successful one closes it, and then it takes the threshold's failures in a row to open it |
| Worker.Worker.Serve | internal/engine/worker.go:110-120 | routing, retries, reconciliation and the breaker's report, with other workers' calls on the breakers in between |
| Worker.Worker.Proceed | internal/engine/worker.go:97-121 | what an action let through by its breaker takes, gives back and reports, on every path |
| Worker.Worker.RunAction | internal/engine/worker.go:84-121 | how far the action gets, its log, its result, all breakers' new states with other workers' calls before and during it, and a stop with the tripwire latched exactly on a safety refusal |
| Worker.Worker.RecordBreaker | internal/engine/worker.go:169-178 | a success closes the target's breaker, anything else counts as a failure; other breakers are unchanged |
| Worker.Worker.Perform | internal/engine/worker.go:71-77 | the action's log, then its own result recorded and observed unless it stopped the session; all breakers' new states |
| Worker.Worker.RunWorker | internal/engine/worker.go:49-79 | the session's exit, whole log and final tripwire, turn by turn, with other workers' calls on the shared breakers and their latching in between; results recorded equal results observed and actions counted, at most the ceiling; at every exit nothing is held; a trip is the last event and happens exactly on a safety stop |
| CircuitBreaking.CircuitBreaker.Allow | internal/safety/breaker.go:47-65 | admits when closed, and one probe when open past the cooldown |
| CircuitBreaking.CircuitBreaker.ForceOpen | internal/safety/breaker.go:91-95 | opens whatever the history and restarts the cooldown |
| CircuitBreaking.CircuitBreaker.RecordSuccess | internal/safety/breaker.go:68-73 | closes and clears the streak |
| CircuitBreaking.CircuitBreaker.RecordFailure | internal/safety/breaker.go:77-88 | reopens after a failed probe, opens at the threshold |
| Stats.AlwaysConserved | internal/engine/stats.go:41-115 | in every reachable state each global counter is the shards' sum plus what is in flight plus what belongs to unknown targets |
| Stats.AlwaysExact | internal/engine/stats.go:41-102 | the global counters total what recorders added, each shard what the recorders that found it added, and the unknown share what those of unregistered targets added |
| Stats.QuietCounts | internal/engine/stats.go:41-61 | whatever the interleaving, once no recorder is active the global counters are the number of results, of successes and of failures, and the bytes in and out |
| Stats.QuietShardCounts | internal/engine/stats.go:41-102 | and each target's counters the same of the results for that target, when all targets were registered from the start |
| Stats.TornSnapshotCovers | internal/engine/stats.go:122-162 | under every interleaving a finished snapshot's global counter is at least the sum of its per-target values |
| Stats.QuietSnapshotExact | internal/engine/stats.go:122-162 | with no recorder active a snapshot finishes after a fixed number of reads, shows the counters as they are, and global is the per-target sum plus what unregistered targets added, nothing when all are registered |
| Stats.ReadsFinish | internal/engine/stats.go:136-162 | it finishes after exactly that number of reads |
| Collector.CounterShard.Record | internal/engine/stats.go:41-61 | what each outcome adds to each counter, and the latency sample |
| Collector.TotalCounts | internal/engine/stats.go:41-61 | what a list of results adds up to: their number, successes, failures, bytes in and bytes out |
| Collector.Collector.AddShard | internal/engine/stats.go:107-115 | appends a zero shard once; counters unchanged |
| Collector.Collector.AddActive | internal/engine/stats.go:117-118 | changes the active connections alone |
| Collector.Collector.Record | internal/engine/stats.go:94-102 | adds globally and to the target's shard alone; the global counters and samples stay those of everything recorded, and the sums conserved |
| Collector.Collector.Snapshot | internal/engine/stats.go:122-162 | the number of results recorded, of successes, failures, reconnects and panics, and their bytes; the active connections, the 50th, 90th and 99th percentile of all latencies, exactly one entry per registered target with its counters, and the clock and saturation as read |
| Histogram.MergeIsConcatenation | internal/engine/histogram.go:43-61 | merging the histograms of two lists gives the histogram of their concatenation |
| Histogram.CumCounts | internal/engine/histogram.go:43-54 | the cumulative count at a bound is the number of samples at or below it |
| Histogram.PercentileMonotone | internal/engine/histogram.go:67-97 | a higher quantile never reports less |
| Histogram.PercentileIsLeastBound | internal/engine/histogram.go:67-97 | the report is the least bucket bound with more samples at or below it than the rank, or the last bound |
| Histogram.RankIsCeiling | internal/engine/histogram.go:67-84 | the rank is the least whole number not below q * n, with q clamped to [0, 1] |
| Histogram.PercentileNotBelowRank | internal/engine/histogram.go:67-97 | for q above 0 and a rank sample within the last bound, the report is not below it |
| Histogram.PercentileIsNearestRankIff | internal/engine/histogram.go:63-97 | the documented bucket is reported exactly when it holds a further sample or its bound is the last |
| Histogram.OneSampleReportsFarOff | internal/engine/histogram.go:63-97 | for one sample of a millisecond the nearest-rank 99th percentile is a millisecond and the code's 30 seconds |
| Histogram.HighQuantileSaturates | internal/engine/histogram.go:67-97 | once q exceeds 1 - 1/n the report is 30 seconds, whatever the samples |
| Histogram.P99OfFewSamples | internal/engine/histogram.go:67-97 | the 99th percentile of fewer than 100 samples is 30 seconds |
| Histogram.Histogram.Record | internal/engine/histogram.go:43-54 | counts the sample in the first bucket whose bound is not below it |
| Histogram.Histogram.Merge | internal/engine/histogram.go:57-61 | adds bucket by bucket |
| Histogram.Histogram.Percentile | internal/engine/histogram.go:67-97 | the two loops compute the specified report |
| Backoff.CapIsIdeal | internal/engine/backoff.go:18-24 | for base * max below 2^63 the wrapped cap is min(max, base * 2^attempt), for every attempt |
| Backoff.CapIsIdealIff | internal/engine/backoff.go:18-24 | without that bound, exactly when the shift did not overflow or a guard catches what is left |
| Backoff.CapAlwaysIdealIff | internal/engine/backoff.go:18-24 | the cap is ideal for every attempt exactly when each attempt below 64 does not overflow or is caught by a guard |
| Backoff.CapCanWrap | internal/engine/backoff.go:18-24 | a base for which the cap wraps to four nanoseconds |
| Backoff.OverflowIsCapped | internal/engine/backoff.go:18-24 | an overflowing shift is not positive or exceeds the cap |
| Backoff.ShiftIsMultiple | internal/engine/backoff.go:18-24 | below 64 shifts the wrapped value is still a multiple of the power of two; from 64 on it is zero |
| Backoff.CapNonDecreasing | internal/engine/backoff.go:18-24 | the cap never goes down from one attempt to the next |
| Backoff.DelayBounds | internal/engine/backoff.go:18-24 | every delay is the draw times the cap, rounded down to a nanosecond, and lies in [0, cap), whatever wrapped |
| Weights.NormalizeWeights | internal/engine/patch.go:194-226 | refuses exactly unknown blocks and zero weights; otherwise the merged weights divided by their greatest common divisor, for exactly the known blocks, whatever the iteration order |
| Weights.NormalizedUnique | internal/engine/patch.go:194-226 | the normalised weights are determined by the merged ones |
| Weights.NormalizedKeepsRatios | internal/engine/patch.go:194-226 | every pairwise ratio is kept |
| Weights.NormalizedPositive | internal/engine/patch.go:194-226 | positive weights stay positive, for the same blocks |
| Weights.NormalizedCoprime | internal/engine/patch.go:194-226 | only 1 divides all normalised weights |
| Weights.NormalizedIdempotent | internal/engine/patch.go:194-226 | normalising again changes nothing |
| Weights.GcdPairMeaning | internal/engine/patch.go:228-233 | the common divisors of two numbers are the divisors of Euclid's result |
| Weights.Gcd | internal/engine/patch.go:228-233 | the loop computes Euclid's result |
| Weights.GcdOfValues | internal/engine/patch.go:212-219 | the fold over the map, in any order, is the greatest common divisor of all values |
| Sorting.SortedElements | internal/audit/hash.go:48-54 | sorting is a permutation |
| Sorting.SortedOrdered | internal/schedule/schedule.go:82-93 | the sorted list is ordered |
| Sorting.SortInPlace | internal/clock/fake.go:188-190 | the in-place sort is the stable insertion sort of the array's contents |

## Left out

- AuditHash.EncodeInjective: SHA-256, hex and base64 are not modelled; the digest is an arbitrary function of the bytes.
- AuditSink.UntouchedVerdict: whether JSON reads a record back as written is a parameter; it does for valid UTF-8 within the scanner's line limit.
- AuditSink.FileSink.Append: file system and fsync internals, file permissions and the field rules of event validation are parameters.
- Schedule.NextTransition: proved for a zone with a fixed offset and 24-hour days; across a daylight-saving change edges and evaluation use different arithmetic, so no claim is made there. Windows are as scenario validation leaves them (0 <= start < end < 24h).
- Schedule.FlipIsEdge: same restriction to validated windows.
- AuditSink.OwnWritesVerdict: writes that leave part of a line and edits by others are excluded there, since after them the file may hold anything; `AuditSink.VerifySound` covers them.
- Scheduler.RunScheduler: sleeps wake exactly at their deadline.
- BlockTimer.RunBlockDuration: the goroutine handles each gate edge before the clock moves again; the delay of a real scheduler is not modelled.
- FakeClock.AdvanceSplit: callbacks do not call back into the clock.
- Limiter.EveryWindow: amounts are exact reals, without the rounding of float64; the clock does not go backwards.
- Limiter.RejectionLeavesNoTrace: the condition is exact for the buckets' levels; a difference in level too small for any later request to meet is not told from none.
- Semaphore.EveryRun: that a cancelled waiter wakes up is not claimed: the watcher broadcasts without the mutex, so a cancellation can fall between the test and the wait. The same holds for the gate's wait.
- RunState.EveryInterleaving: grace timeouts, their error value, operating-system signals and the drain of the worker group only decide when a step happens. That a run eventually completes is not claimed; `RunState.CompletesIff` says why.
- Worker.Worker.DoWithRetry: the length of a backoff sleep does not appear there; `Backoff` bounds it.
- Worker.NoReconnectRecorded: handlers are handed the recorder as well and could record on their own; what they record is not modelled.
- Worker.Worker.RunWorker: limiter, semaphore, gate and handler are scripts there, not the objects of the other modules.
- ScheduledBlock.RunScheduledBlock: time passes one nanosecond at a time, and the block timer lives through the script of gate calls that scheduler and environment made, on a gate of its own that starts in the same state.
- Collector.CounterShard.Record: the histogram is a value there; `Histogram` has it as an array updated in place.
- Collector.Collector.Snapshot: the saturation is what the limiter reported; how the limiter accounts for it is not modelled.
- Stats.QuietShardCounts: the target ids the collector starts with are distinct; results for targets registered later are counted by `Stats.AlwaysExact` alone.
- Stats.TornSnapshotCovers: byte counters need non-negative byte counts. That successes never exceed requests inside one torn snapshot is not claimed: requests are read first. Counters do not overflow 64 bits.
- Weights.NormalizeWeights: weights are unbounded naturals; the initial weights are positive, as validation makes them.
- Histogram.MergeIsConcatenation: bucket counts do not overflow.
- Histogram.PercentileIsLeastBound: `q * n` is an exact real, without the rounding of float64.
- Backoff.DelayBounds: the jitter product is an exact real, without the rounding of float64.
- Live patches other than weights: a patch of several fields is applied field by field and is not atomic; added targets may repeat an id.
- The total request budget of the tripwire, saturation accounting, the ramp governor, the stats publisher: small, or without callers on the modelled paths.
- Command line, YAML, random sampling of personas and jitter, secret redaction, error formatting: plumbing and library code.
