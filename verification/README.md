# Automatic Claims, modelled and proved

This project models the part of the ConnectCoin wallet that earns connection
bounties by itself: the engine that decides which TLS attempt may start, when, on
which address, and when a bounty is used up, together with the caches, parsers and
arithmetic it relies on. It proves what the engine promises.

* **The claims service.** Every critical section of the desktop helper is one step of
  a state machine (`ServiceState`, `ServiceSteps`); the "started" acknowledgement is a
  step of its own, outside the lock. What a capture finds, what an output does, the
  clocks and the order of threads are free. Invariants are kept by every step
  (`ServiceShape`, `ServiceGraph`, `ServiceRecords`, `ServiceCounts`, `ServiceBudgets`,
  `ServiceWake`, `ServiceShutdown`, `ServiceFrames`, `ServiceEnding`, `ServicePermits`,
  `ServiceAdmission`, `ServiceProgress`), hold at every state of every run (`ServiceRuns`),
  add up to what the controller can rely on (`ServicePromises`, `ServiceExclusions`,
  `ServiceLedger`, `ServiceOrder`, `ServiceReports`), and the loops of the program are
  proved to take these steps (`ServiceClass`).
* **Budgets.** The limb arithmetic of the desktop, the phone and the Swift client, and
  the big-integer test of the Python helper, all decide the same cutoff (`Limbs`,
  `BudgetCutoff`, `ClaimInteger`).
* **Rotation.** The weighted choice of an address (`EndpointRotation`).
* **The mobile start limiter.** The pacer with its ring and its cadence (`StartPacer`,
  `StartCadence`), and the intrusive list of waiters with its turns, notifications and
  timers (`StartQueue`).
* **Histories.** The ring of sixty minutes on the desktop and in Swift, and the bounded
  cache of histories (`PerformanceHistory`, `MinuteWindow`, `SchedulerWindow`,
  `PerformanceRate`, `PerformanceCache`, `PerformanceKept`, `PerformanceRuns`, `PerformanceCacheClass`).
* **Block windows.** Replies, splices, deltas and refreshing against a tree of blocks
  (`RecentWindow`, `RecentChain`, `RecentDelta`, `RecentRefresh`).
* **Proofs.** The TLS 1.3 transcript format of RFC 8446 as a printer and a parser that
  undo each other, and the reader-driven parser (`Wire`, `TlsExtensions`, `ClientHello`,
  `ServerMessages`, `ProofFormat`, `ProofRules`, `ProofParser`); the certificate cache
  (`CertificateCache`); the calendar of certificate dates (`Calendar`).
* **The mobile scheduler.** Fair and economic turns, probes and their gate
  (`SchedulerSteps`, `SchedulerProbes`, `SchedulerChoice`, `SchedulerPacing`, `SchedulerGate`,
  `SchedulerTurns`, `SchedulerClass`).

Times and rates are reals, or whole nanoseconds where the program counts those.
Some states carry components that nothing reads, such as the permits given out or the
newest accepted pause; they let a theorem speak about the past.

## Where the code differs from what one might expect

* Nothing in the mobile scheduler's own methods keeps probe starts a quarter of a second apart.
  They are apart exactly if each start finds the gate passed, and those of one probe exactly if
  each finds its probe due (`SchedulerGate.ApartExactly`); a start that is acknowledged late can
  still do so, but need not: `SchedulerPacing.LateStartsMeet` is a run of these methods in which
  two probes start at one instant. Acknowledging before releasing, with a time no earlier than the
  reservation, is enough (`SchedulerPacing.ProbesKeepApart`), and that is what the one caller
  does: `release` of the engine acknowledges first
  (mobile/ios/WalletCore/Sources/WalletCore/Claims/MobileClaimsEngine.swift:799-811), with a time
  that lies back by the age of the start.
* A choice is stale if its serial number is not the present one, and serial numbers wrap: a choice
  that exactly 2^64 reservations, or a multiple of them, have overtaken is accepted again and may
  break the cyclic order (`SchedulerTurns.TurnsAlternate`). Alternation survives the wrap.
* A joined block window is nil in exactly the cases of `RecentWindow.JoinedWhen`; a whole
  reply always ends a refresh, so its final error is never reached.

## Model

| member | source | states |
|---|---|---|
| BudgetCutoff.StopDecidesExhausted | helpers/claims_service.py:321-323 | the saturated-or-above-2^257 test of the Python helper holds exactly when the count has reached the closed-form stop |
| BudgetCutoff.ConnectionBudgetStopCount | native/service.cpp:201-214 | the bisection over limb products returns min(2^64-1, floor(2^257/(target+1))+1) for every 32-byte target, and refuses every other length |
| BudgetCutoff.ConnectionBudgetExhausted | native/service.cpp:197-200 | the count is exhausted exactly if it is saturated or its product with target+1 exceeds 2^257 |
| BudgetCutoff.BudgetProductExceeds | native/service.cpp:176-195 | the nine-by-two limb product loses no carry and the comparison from the top decides successes*(target+1) > 2^257 |
| BudgetCutoff.ParseBudgetFactor | native/service.cpp:167-175 | nine limbs hold target+1, whatever carries run through them |
| BudgetCutoff.SpaceIs | native/service.cpp:176-195 | the limit of the product is 2^257, written out in 32-bit digits |
| ClaimIntegers.CandidateStopCount | mobile/ios/WalletCore/Sources/WalletCore/Claims/ClaimScheduler.swift:43-50 | the 352-bit increment, product and bisection return the same closed-form stop for every 32-byte target |
| ClaimIntegers.ClaimInteger.Multiplied | mobile/ios/WalletCore/Sources/WalletCore/Claims/ClaimScheduler.swift:22-34 | the row-by-row product is the product modulo 2^352 |
| ClaimIntegers.ClaimInteger.Less | mobile/ios/WalletCore/Sources/WalletCore/Claims/ClaimScheduler.swift:35-38 | comparing words from the top is comparing values |
| ServiceShapeKept.ShapeKept | native/service.cpp:282-290 | every step keeps the bookkeeping: queued and running jobs and the gate partition the registered jobs, queued ids and tickets increase, retired jobs are in no queue |
| ServiceGraph.JobsFollowGraph | native/service.cpp:352-395 | in every step each job stays where it is, but for notifications and cancellation flags, or takes its one edge of the phase graph |
| ServiceRecords.RecordsKept | native/service.cpp:469-515 | what a job remembers fits its phase, and no step moves a job back |
| ServiceCounts.CountsKept | native/service.cpp:567-607 | active workers, users of a budget and capacities stay exact through every step, so an evicted budget has no live attempt |
| ServiceCounts.ActiveWithinLimit | native/service.cpp:693-700 | registered running jobs are busy workers, and active workers never exceed the concurrency |
| ServiceBudgets.OvershootKept | native/service.cpp:504-514 | counted plus permitted-but-unrecorded captures of a resident budget never exceed max(stop-1, largest import) plus the concurrency |
| ServiceBudgets.CountsGrow | native/service.cpp:504-511 | a resident budget never loses count; it grows only to an import, or by one for a captured job |
| ServiceWake.WakeKept | native/service.cpp:352-373 | no wake-up is lost: until an output failure every sleeper without a notification is admissible, and behind the head, held by the closed gate, or the head in a timed wait for the present deadline |
| ServiceShutdown.ShutdownKept | native/service.cpp:703-706 | once the service is closed no job sleeps without a notification, even after an output failure |
| ServiceFrames.StoriesKept | native/service.cpp:258-281 | after every step the frames written about a job are those of its phase, and the counts of its capture and its terminal frame agree |
| ServiceEnding.EndingsKept | native/service.cpp:291-297 | every step keeps account of who still has to write the terminal frame of a job |
| ServiceEnding.EveryJobTold | native/service.cpp:703-708 | when Close is over and nothing failed, an admitted job is finished and its story complete |
| ServiceEnding.StoryOnce | native/service.cpp:469-555 | a job has at most one started, one capture and one terminal frame, in this order, with one count |
| ServicePermits.OnlyHeadPastWait | native/service.cpp:374-389 | at most one job is between its acknowledgement and its permit, and it is the head of the gate |
| ServicePermits.GrantIsSafe | native/service.cpp:342-350 | a permit goes only to the acknowledged head, while the gate is allowed, the service neither closed nor failed, the job not cancelled, its address not excluded and its budget below its stop |
| ServicePermits.ArrivalOrderKept | native/service.cpp:354-360 | permits leave in the order in which jobs entered the gate |
| ServicePermits.PacedKept | native/service.cpp:215-218 | the pacing debt is bounded: any two permits i < j keep t_j - t_i >= (j-i-1)/rate - 1 |
| ServicePermits.FirstAfterIdle | native/service.cpp:388-389 | the first permit after idleness leaves the deadline at least one interval in the future |
| ServiceAdmission.AdmissionKept | native/service.cpp:611-637 | the gate is open only by a resume that is newer than every accepted pause and has been acknowledged |
| ServiceProgress.ReopenedKept | native/service.cpp:611-637 | while the service works, the gate is open if it was never paused, or if the newest command is a resume that has been dealt with |
| ServiceProgress.TurnGoesOn | native/service.cpp:362-374 | a job that looks at the gate leaves exactly if the service has closed or failed, it was cancelled, its address is barred, or its budget has reached its stop; it goes on to its acknowledgement exactly if none of this holds, it is the head, the gate is open and the deadline past; otherwise it sleeps |
| ServiceProgress.AckedGoesOn | native/service.cpp:379-394 | an acknowledged job gets its permit exactly if nothing of this holds and the gate is still open |
| ServiceProgress.SelectedGoesOn | native/service.cpp:342-350 | a job with an address goes on to its capture exactly if nothing of this holds |
| ServiceRuns.RunSound | native/service.cpp:220-709 | every invariant holds at every state of every run, whatever the interleaving |
| ServiceRuns.CountedOnce | native/service.cpp:504-512 | over a whole run the outcome of a job is counted at most once |
| ServiceRuns.OneEach | native/service.cpp:504-512 | while a budget stays resident its count never falls, and gains beyond imports at most one per distinct job with a counted capture |
| ServiceRuns.PauseHolds | native/service.cpp:611-637 | between an accepted pause and the next permit a resume with a newer id than the pause was acknowledged |
| ServicePromises.HeadGoesOn | native/service.cpp:627-636 | once the newest command of a run is a resume that has been dealt with, a head that may start and looks at the gate at or after its deadline goes on to its acknowledgement |
| ServicePromises.UnpausedGoesOn | native/service.cpp:362-374 | in a run without a pause such a head goes on in the same way |
| ServiceRuns.PermitsOfRun | native/service.cpp:352-395 | the permits of a run are in arrival order, at times that do not go back, and keep the pacing distance |
| ServicePromises.DeadlineNear | native/service.cpp:215-218 | in every state of every run the deadline is at most one interval, 1/rate, ahead of the present |
| ServicePromises.NoDrift | native/service.cpp:215-218 | over a stretch of a run without a resume in which starts find the gate busy and come no more than a second after the deadline that follows them, the deadline moves on by exactly 1/rate for each start |
| ServicePromises.BusySince | native/service.cpp:691 | after a start the gate is busy as long as every new attempt finds another one that nobody has cancelled |
| ServicePromises.PauseBanksNothing | native/service.cpp:629-634 | after a resume has opened a closed gate, the n-th start comes at least n/rate after it |
| ServicePromises.IdleBanksNothing | native/service.cpp:691 | if an attempt is submitted while none is wanted, the n-th start after the next one comes at least n/rate after that one |
| ServiceExclusions.ExclusionBars | native/service.cpp:311-332 | for a minute after an address or its family was found unusable no permit goes to a job of it, unless the exclusion was given up |
| ServiceExclusions.GivenUpWhenCrowded | native/service.cpp:313-329 | an exclusion is given up only by a full table of 4096 addresses, or of two families, and only one that ends first |
| ServiceExclusions.BarredForAMinute | native/service.cpp:298-305 | an address is barred only if it, or its family, was found unusable less than a minute ago |
| ServiceExclusions.ChoosesFresh | native/service.cpp:396-430 | an attempt is given an address that is not barred and that its name was resolved to less than a minute ago |
| ServiceExclusions.NoChoice | native/service.cpp:396-416 | it is given none only if its name is not known any more, all its addresses are barred, or it was cancelled |
| ServiceLedger.CountExact | native/service.cpp:504-512 | while a budget stays resident and no attempt of it is submitted, it counts exactly the recorded captures of started jobs, up to the full counter |
| ServiceLedger.ImportExact | native/service.cpp:689 | an attempt brings its budget to the larger of its count and the one the controller knows |
| ServiceLedger.AcceptsExactly | native/service.cpp:661-689 | an attempt can be submitted exactly if the service is open, its id is new, there is room, and its bounty is known with its target, or there is room for the budget, or some budget is not in use |
| ServiceLedger.OldestBudgetGoes | native/service.cpp:677-681 | a budget is given up only if 1024 are resident and no attempt of it is live, and of these the one whose last attempt was submitted longest ago |
| ServiceLedger.OldestNameGoes | native/service.cpp:455-461 | a name is given up only if 4096 are known, and the one used longest ago |
| ServiceOrder.TakenInOrder | native/service.cpp:567-583 | in every run a pool takes its jobs in the order in which they were submitted |
| ServiceOrder.StartsWorkers | native/service.cpp:695-700 | a worker is started only for a new job for which the others do not suffice, and within the concurrency, or two for resolutions |
| ServiceOrder.CancelHolds | native/service.cpp:585-590 | a job that was asked to cancel never gets a permit |
| ServiceOrder.ClosedCancels | native/service.cpp:703-706 | from a close on every job that is still registered has been asked to cancel |
| ServiceOrder.CapturesCount | native/service.cpp:504-511 | a capture that was permitted and succeeded is counted when it is recorded, and one that did not succeed is not |
| ServiceOrder.ReportsCount | native/service.cpp:506-513 | a capture frame reports the count of its bounty just after the capture was recorded |
| ServiceReports.TerminalCounts | native/service.cpp:269-281 | the terminal frame of an attempt carries a count, which was the count of its bounty at some time before |
| ServiceRuns.ToldOnce | native/service.cpp:291-297 | at every point of every run the frames about a job are at most started, capture, terminal, once each, with one count |
| ServiceRuns.AllTerminated | native/service.cpp:703-708 | in every run that has closed without a failure each job ever admitted has its one terminal frame, the last about it |
| ServiceRuns.ClosedLeavesNobody | native/service.cpp:556-566 | in every run nobody sleeps untold in a closed service, whether it was closed or has failed |
| ServiceRuns.LookupsSucceed | native/service.cpp:342-350 | in a sound state every section finds the records and budgets it looks up |
| ServiceClass.ClaimsService.CancelEveryJob | native/service.cpp:705 | the loop over the jobs cancels and notifies each registered one, as the step does |
| ServiceClass.ClaimsService.NotifyEveryWaiter | native/service.cpp:622 | the loop over the gate notifies every waiter and changes nothing else |
| ServiceClass.ClaimsService.BudgetChangedLocked | native/service.cpp:333-337 | the loop notifies exactly the waiters of a bounty that has reached its stop |
| ServiceClass.ClaimsService.RetireLocked | native/service.cpp:282-290 | retiring frees the worker slot or the queue place, and the use of the budget, once |
| ServiceClass.ClaimsService.CommandAttempt | native/service.cpp:661-702 | an attempt command is refused for the reason of the first failing check, or takes the submission step with the least recently touched unused budget as its victim |
| ServiceClass.ClaimsService.ConnectingTurn | native/service.cpp:362-374 | one turn of the gate loop is the step of the state machine: leave, sleep, sleep with a deadline, or go on to the acknowledgement |
| ServiceClass.ClaimsService.AfterAcknowledgement | native/service.cpp:379-394 | the part after the acknowledgement grants or refuses as the step does |
| ServiceClass.ClaimsService.AcceptAdmissionCommand | native/service.cpp:616-624 | a pause or resume is accepted exactly if the service runs and its id is new, and then takes its step |
| ServiceClass.ClaimsService.FinishResumeCommand | native/service.cpp:627-636 | a resume opens the gate exactly after its acknowledgement, if nothing newer came and the service works |
| ServiceClass.ClaimsService.CountCapture | native/service.cpp:506-512 | a capture is counted once, saturating, and the waiters of an exhausted budget are told |
| EndpointRotation.TurnUnique | native/service.cpp:420-427 | a rotation turn has one result: the pick and the new credits are determined |
| EndpointRotation.SharesSumToOne | native/service.cpp:418-420 | the shares of a turn sum to one and each is at least the exploration share |
| EndpointRotation.TurnBalanced | native/service.cpp:420-427 | a turn conserves the total credit and keeps credits balanced |
| EndpointRotation.BalancedBounded | native/service.cpp:420-427 | balanced credits of n addresses stay above -1 and at most n-1, strictly below for n of at least 2 |
| EndpointRotation.RotationBalanced | native/service.cpp:396-430 | credits stay balanced at every time of every rotation from zero credit, whatever positive rates each turn measures |
| EndpointRotation.PicksFollowShares | helpers/claims_service.py:388-404 | at any time an address's accumulated share exceeds its picks by more than -1 and at most n-1 |
| EndpointRotation.NoStarvation | native/service.cpp:396-430 | no eligible address waits 100 n^2 turns |
| EndpointRotation.EqualRatesGoRound | native/service.cpp:421-427 | with equal rates the addresses are picked in exact round robin from the cursor |
| EndpointRotation.SelectEligible | mobile/native/src/public_claims.cpp:464-490 | the mobile loop over all entries with an eligibility mask takes one rotation turn in place, and fails exactly if none is eligible |
| EndpointRotation.SelectAvailable | native/service.cpp:409-427 | the desktop loop over the compacted addresses takes one rotation turn in place |
| StartPacing.CeilingHolds | mobile/native/src/public_claims.cpp:161-201 | in every run of checked starts, resumes and rate changes, a recorded start is at most the rate-th of the second that ends with it |
| StartPacing.StepSane | mobile/native/src/public_claims.cpp:161-201 | every operation keeps starts sorted and at most one hundred in any second |
| StartCadence.NextStart | mobile/native/src/public_claims.cpp:174-187 | after a start, the check fails at every later instant u with rate*(u - basis) < 10^9, the basis being the deadline so far or the first start, and below the ceiling passes at all others |
| StartCadence.NextOnTime | mobile/native/src/public_claims.cpp:174-187 | after an on-time start at t, the check fails at every later instant u with rate*(u-t) < 10^9, and below the ceiling passes at all others |
| StartCadence.NextAfterResume | mobile/native/src/public_claims.cpp:190-194 | the same for a start as soon as a resume lets it, at the present or at a deadline still ahead |
| StartCadence.NextAfterChange | mobile/native/src/public_claims.cpp:195-200 | after a change of the rate the same holds with the new rate and the last start as the basis |
| StartCadence.LastIsStart | mobile/native/src/public_claims.cpp:187 | in every run, what a change of the rate goes back to is the last start |
| StartCadence.ExactCadence | mobile/native/src/public_claims.cpp:181-189 | while starts come no more than a second after the deadline that follows them, each moves the deadline on by exactly the fewest nanoseconds n with rate*n >= 10^9 |
| StartCadence.StartsInTime | mobile/native/src/public_claims.cpp:174-189 | at one rate the m-th start of a run comes at least m/rate seconds after the deadline with which the run began |
| StartCadence.PauseBanksNothing | mobile/native/src/public_claims.cpp:190-194 | after a resume the m-th start comes at least m/rate seconds later |
| StartCadence.OneSecondOfDebt | mobile/native/src/public_claims.cpp:183-187 | after any start at t the m-th next one comes at t - 1 s + m/rate or later |
| StartPacing.StartPacer.Expire | mobile/native/src/public_claims.cpp:169-173 | what is left in the ring is exactly the starts of the last second |
| StartPacing.StartPacer.Ready | mobile/native/src/public_claims.cpp:174-180 | the ring gives the ready time that the whole history would give |
| StartPacing.StartPacer.Record | mobile/native/src/public_claims.cpp:181-189 | a checked start takes a free slot, so no unexpired entry is overwritten, and advances the cadence as `StartCadence` says |
| StartPacing.StartPacer.ResumeAt | mobile/native/src/public_claims.cpp:190-194 | resuming moves the deadline up to the present and keeps the history |
| StartPacing.StartPacer.ChangeRate | mobile/native/src/public_claims.cpp:195-200 | a new rate restarts the cadence from the last start, as `StartCadence.NextAfterChange` says, and keeps the history |
| StartQueue.StartLimiter.Append | mobile/native/src/public_claims.cpp:278-280 | linking a waiter appends it to the abstract sequence, pointers consistent |
| StartQueue.StartLimiter.Unlink | mobile/native/src/public_claims.cpp:284-285 | unlinking from anywhere removes exactly that element, pointers consistent |
| StartQueue.StartLimiter.Push | mobile/native/src/public_claims.cpp:270-281 | a push appends, and asks for a schedule reset exactly if nobody live was waiting |
| StartQueue.StartLimiter.Join | mobile/native/src/public_claims.cpp:671-678 | a waiter that is cancelled or late, and any waiter of a destroyed limiter, is refused and not queued |
| StartQueue.StartLimiter.Remove | mobile/native/src/public_claims.cpp:282-287 | a waiter leaves from anywhere and the next head is told |
| StartQueue.StartLimiter.TakeTurn | mobile/native/src/public_claims.cpp:679-704 | a turn ends as the checks in their order say; every way out but sleeping takes the waiter off the list; only the head starts, below the rolling ceiling |
| StartQueue.StartLimiter.HeadReady | mobile/native/src/public_claims.cpp:288-293 | the head takes a pending reset and gets the ready time |
| StartQueue.StartLimiter.HeadStartsOnTime | mobile/native/src/public_claims.cpp:692-695 | a sleeping head that nobody has told anything starts as soon as its timed wait is over |
| StartQueue.StartLimiter.SleepersMayWait | mobile/native/src/public_claims.cpp:679-696 | whoever sleeps untold has no reason to give up but the time, and a cancellation or an exclusion about to be announced |
| StartQueue.StartLimiter.StartsExactly | mobile/native/src/public_claims.cpp:679-704 | a turn ends in a start exactly if the waiter is the head of an open gate, its pace lets it, and at neither look it is cancelled, late, orphaned, past its budget or excluded, and the connect succeeds; it sleeps only if nothing stood against it, the head until its ready time |
| StartQueue.StartLimiter.ExhaustedPastCutoff | mobile/native/src/public_claims.cpp:265-269 | a budget bound with the stop of its target counts as exhausted exactly if it is saturated or its product with target+1 exceeds 2^257 |
| StartQueue.StartLimiter.BudgetChanged | mobile/native/src/public_claims.cpp:265-269 | exactly the waiters of an exhausted budget are told |
| StartQueue.StartLimiter.RecordCapture | mobile/native/src/public_claims.cpp:626-634 | a capture is counted, saturating, and waiters of an exhausted budget are told |
| StartQueue.StartLimiter.NotifyExcluded | mobile/native/src/public_claims.cpp:591-612 | exactly the waiters that an exclusion concerns are told |
| StartQueue.StartLimiter.SetAllowed | mobile/native/src/public_claims.cpp:956-965 | opening or closing the gate tells everyone, and opening asks for a schedule reset |
| StartQueue.StartLimiter.SetRate | mobile/native/src/public_claims.cpp:950-955 | a rate from 1 to 100 is taken over and the head is told to look again |
| StartQueue.StartLimiter.ResetSchedule | mobile/native/src/public_claims.cpp:966-973 | a reset is remembered and the head told |
| StartQueue.StartLimiter.Destroy | mobile/native/src/public_claims.cpp:974-978 | destruction tells every waiter |
| PerformanceHistory.SlotsAreWindow | native/include/claimer/performance_window.hpp:54-63 | the sixty slots together are the last sixty minutes |
| PerformanceHistory.RingTick | native/include/claimer/performance_window.hpp:50-53 | stepping a minute empties one slot and the ring stands for the next sixty |
| PerformanceHistory.RingRecord | native/include/claimer/performance_window.hpp:72-75 | a sample in the present slot is a sample of the window |
| MinuteWindow.MinutePerformanceWindow.ReadMinute | native/include/claimer/performance_window.hpp:44-66 | whatever clock is asked for, the totals are the sums over all samples of the last sixty clamped minutes |
| MinuteWindow.MinutePerformanceWindow.RecordMinute | native/include/claimer/performance_window.hpp:68-77 | a sample is added to the history exactly if it is well formed and the counter is not full |
| SchedulerWindow.ClaimPerformanceWindow.Advance | mobile/ios/WalletCore/Sources/WalletCore/Claims/ClaimScheduler.swift:218-233 | after any reading the three arrays stand for the same ring as on the desktop, the totals are those of the last sixty minutes, and the minute never goes back |
| SchedulerWindow.ClaimPerformanceWindow.Record | mobile/ios/WalletCore/Sources/WalletCore/Claims/ClaimScheduler.swift:238-245 | durations of up to a minute are added at the present minute, others are ignored |
| SchedulerWindow.ClaimPerformanceWindow.Rate | mobile/ios/WalletCore/Sources/WalletCore/Claims/ClaimScheduler.swift:234-237 | the rate times one second more than the last hour took is five more than its valid connections |
| PerformanceCache.ShownIsLog | native/include/claimer/performance_window.hpp:125-128 | in a good cache a reader is shown the last sixty minutes of the samples since the bound last cost the score its history |
| PerformanceCache.ExpiredGood | native/include/claimer/performance_window.hpp:105-112 | dropping stale histories keeps list, order, bound and positions good and changes no log |
| PerformanceCache.RecordingGood | native/include/claimer/performance_window.hpp:129-141 | recording, with or without an eviction, keeps them good |
| PerformanceCache.RecordingLogs | native/include/claimer/performance_window.hpp:129-141 | a recording extends its own log unless the counter is full, empties the log of an evicted score, and no other |
| PerformanceKept.VictimIs | native/include/claimer/performance_window.hpp:131-136 | a new score costs the head of the list its history exactly if as many scores as the bound were recorded in the last hour, and the head is the one recorded longest ago |
| PerformanceKept.RecordingTracks | native/include/claimer/performance_window.hpp:129-141 | a recording does to list, windows and logs what it does to the plain list of samples in the order of their calls |
| PerformanceRuns.ReadersSeeCalls | native/include/claimer/performance_window.hpp:84-142 | after any calls, reads show exactly the samples of the last sixty clamped minutes that the calls leave: a score loses its samples exactly if a score not recorded in the last hour comes while as many as the bound were, and it was recorded longest ago of them |
| PerformanceRuns.CacheIsUnseen | native/include/claimer/performance_window.hpp:84-142 | while no more scores are named than the bound, the cache answers like a history that keeps everything |
| PerformanceRate.RateFits | native/include/claimer/performance_window.hpp:26-30 | the rate of a history, times one second more than the samples of its last sixty minutes took, is five more than those of them that are valid; without samples it is five |
| PerformanceRate.SuccessRaises | native/include/claimer/performance_window.hpp:26-30 | had a failed sample of the last hour been valid, the rate would be higher |
| PerformanceCacheClass.EndpointPerformanceCache.Rate | native/include/claimer/performance_window.hpp:125-128 | the answer times one second more than the log's last sixty minutes took is five more than its valid samples, five without samples; the window objects are those of the value model |
| PerformanceCacheClass.EndpointPerformanceCache.Record | native/include/claimer/performance_window.hpp:129-141 | recording on window objects and list positions takes the step of the value model and extends the log when it says so |
| PerformanceCacheClass.EndpointPerformanceCache.Advance | native/include/claimer/performance_window.hpp:105-112 | the loop drops exactly the stale histories |
| RecentWindow.ReplySound | mobile/ios/WalletCore/Sources/WalletCore/Claims/ClaimRecentWindow.swift:32-50 | an accepted reply is a sound window, complete if 600 blocks were asked for |
| RecentWindow.ReplyRules | mobile/ios/WalletCore/Sources/WalletCore/Claims/ClaimRecentWindow.swift:32-50 | the exact rules, in numbers, by which a reply is accepted |
| RecentWindow.ReplyCounts | mobile/ios/WalletCore/Sources/WalletCore/Claims/ClaimRecentWindow.swift:39-47 | every row that counts is counted with its own number, and nothing else is |
| RecentWindow.JoinedComplete | mobile/ios/WalletCore/Sources/WalletCore/Claims/ClaimRecentWindow.swift:53-80 | for arbitrary replies a joined window is complete, contiguous, without duplicates, headed by its tip, continues the reply, and all else in it was known |
| RecentWindow.JoinedCounts | mobile/ios/WalletCore/Sources/WalletCore/Claims/ClaimRecentWindow.swift:66-80 | a block of a joined window is counted exactly if the reply or the known window counts it, with the number that each of them gives it |
| RecentWindow.JoinedWhen | mobile/ios/WalletCore/Sources/WalletCore/Claims/ClaimRecentWindow.swift:67-75 | joining gives nothing exactly if the reply is short and shares no block with the known window or that does not reach down far enough |
| RecentChain.HonestAgree | mobile/ios/WalletCore/Sources/WalletCore/Claims/ClaimRecentWindow.swift:53-66 | true windows never conflict, so joining them never fails |
| RecentChain.JoinedHonest | mobile/ios/WalletCore/Sources/WalletCore/Claims/ClaimRecentWindow.swift:53-80 | true windows join to nothing or to exactly the last min(600, height+1) ancestors of the new tip; if both count all their blocks, so does the joined window, each with its true number |
| RecentDelta.ExtendedComplete | mobile/ios/WalletCore/Sources/WalletCore/Claims/ClaimRecentWindow.swift:84-109 | an extended window is complete, whatever the delta |
| RecentDelta.DeltaRules | mobile/ios/WalletCore/Sources/WalletCore/Claims/ClaimRecentWindow.swift:88-107 | the exact rules, in numbers, by which a delta is accepted |
| RecentDelta.ExtendedCounts | mobile/ios/WalletCore/Sources/WalletCore/Claims/ClaimRecentWindow.swift:99-108 | the blocks of an accepted delta are counted with the delta's own numbers, and an old block exactly if it was, with the number it had |
| RecentDelta.ExtendedHonest | mobile/ios/WalletCore/Sources/WalletCore/Claims/ClaimRecentWindow.swift:84-109 | a true delta extends a true window to exactly the last min(600, height+1) ancestors of the new tip; if all old blocks were counted, so are all of the new window, each with its true number |
| RecentDelta.HonestAccepted | mobile/ios/WalletCore/Sources/WalletCore/Claims/ClaimRecentWindow.swift:94-104 | a true delta that fits its base is never refused |
| RecentRefresh.Response | mobile/ios/WalletCore/Sources/WalletCore/Claims/ClaimRecentWindow.swift:32-50 | the row loop accepts exactly the replies that are contiguous, without duplicates, headed by their tip and of an allowed length |
| RecentRefresh.Joining | mobile/ios/WalletCore/Sources/WalletCore/Claims/ClaimRecentWindow.swift:53-80 | the loops fail exactly on a conflict and otherwise return the spliced window, with the counts of `RecentWindow.JoinedCounts` |
| RecentRefresh.Applying | mobile/ios/WalletCore/Sources/WalletCore/Claims/ClaimRecentWindow.swift:84-109 | a page is applied, passed over or refused exactly as `RecentDelta.DeltaRules` and the shape of a page without a delta say, with the counts of `RecentDelta.ExtendedCounts` |
| RecentRefresh.Refresh | mobile/ios/WalletCore/Sources/WalletCore/Claims/ClaimRecentWindow.swift:111-140 | what is returned is complete and does not contradict the expected tip; a forced refresh, or one without a known window, returns just the answer to a whole request, counts included; any other the first answer for 5, 100 and 600 blocks that completes the known window, unless one before it cannot be used; with a true server, which may refuse short requests with -32602, a true window is returned |
| Wire.Vec16Iff | native/crypto.cpp:93-137 | reading a length-prefixed field and printing it undo each other |
| Wire.PairsIff | native/crypto.cpp:254-256 | a list of two-byte numbers and its bytes determine each other |
| TlsExtensions.ExtensionsIff | native/crypto.cpp:182-204 | an extension block is accepted as a list exactly if the list has no kind twice and the block is its print |
| TlsExtensions.TakeExtensions | native/crypto.cpp:182-204 | the reader loop computes just that and leaves nothing unread |
| ClientHello.TypedIff | native/crypto.cpp:212-227 | each extension with a meaning has one print: server name, versions, signature schemes, key shares |
| ClientHello.HelloIff | native/crypto.cpp:229-318 | a ClientHello is accepted exactly if it is the print of an acceptable message, which is then what was read |
| ServerMessages.ServerIff | native/crypto.cpp:320-363 | the same for a ServerHello and what the client has offered |
| ServerMessages.EncryptedIff | native/crypto.cpp:365-372 | the same for EncryptedExtensions without early data |
| ServerMessages.CertificatesIff | native/crypto.cpp:374-402 | the same for one to eight certificate entries |
| ServerMessages.VerificationIff | native/crypto.cpp:411-428 | the same for CertificateVerify with an offered scheme |
| ProofFormat.SplitIff | native/crypto.cpp:934-948 | a proof splits exactly if it is version byte 2 and five messages of the right kinds and sizes that tile it |
| ProofFormat.ParseIff | native/crypto.cpp:934-962 | a proof is accepted as a transcript exactly if the transcript is acceptable and the proof is its print, byte for byte |
| ProofFormat.ParsedPrintsBack | native/crypto.cpp:934-962 | an accepted proof prints back to itself |
| ProofFormat.PrintedParsesBack | native/crypto.cpp:934-962 | every acceptable transcript prints to an accepted proof that is read back as it |
| ProofFormat.OneReading | native/crypto.cpp:934-962 | prints are equal exactly if transcripts are |
| ProofRules.NumbersStand | native/crypto.cpp:93-137 | printed two- and three-byte numbers stand for themselves, most significant byte first |
| ProofRules.FixedParts | native/crypto.cpp:229-363 | both hellos begin with 0x0303 and their random, the client offers no compression, and the server confirms 0x0304 and sends its key |
| ProofRules.AcceptedByRules | native/crypto.cpp:229-428 | a proof is accepted as a transcript exactly if the transcript keeps the rules, written down with the numbers of RFC 8446, and the proof is its print |
| ProofParser.TakeHandshake | native/crypto.cpp:166-180 | the span of a message is where the reader went, and prints as its kind and body |
| ProofParser.ParseClientHello | native/crypto.cpp:229-318 | the parser accepts as the format does and collects what the client offers |
| ProofParser.ParseServerHello | native/crypto.cpp:320-363 | the parser accepts as the format does |
| ProofParser.ParseEncryptedExtensions | native/crypto.cpp:365-372 | the parser accepts as the format does |
| ProofParser.ParseCertificate | native/crypto.cpp:374-402 | the parser accepts as the format does and collects the chain |
| ProofParser.ParseCertificateVerify | native/crypto.cpp:411-428 | the parser accepts as the format does |
| ProofParser.ParsePreparedProof | native/crypto.cpp:934-962 | the parser accepts exactly the proofs of the format; its five spans tile the proof, and chain and signature are the transcript's |
| CertificateCache.EvictedFits | native/crypto.cpp:652-657 | eviction makes room for every admissible entry and drops no more than it has to |
| CertificateCache.TouchedGood | native/crypto.cpp:613-622 | a hit keeps entries distinct, correct, within bounds and in order of last use |
| CertificateCache.AddedGood | native/crypto.cpp:658-659 | an entry that fits keeps them so and becomes the newest |
| CertificateCache.KeptWithin | native/crypto.cpp:600-606 | what the cache keeps stays within four entries, 65536 bytes of messages and certificates, and 262144 with their structures |
| CertificateCache.CertificateCache.Find | native/crypto.cpp:613-622 | a message is found exactly if it is cached, with what parsing gives, and is moved to the end in place |
| CertificateCache.CertificateCache.MakeRoom | native/crypto.cpp:652-657 | the loop ends with room for the candidate and exact byte sums that never underflow |
| CertificateCache.CertificateCache.Remember | native/crypto.cpp:623-660 | an admissible message is stored last, and nothing changes if it does not fit or memory fails |
| CertificateCache.CertificateCache.CachedChain | native/crypto.cpp:689-715 | the result is what parsing gives without a cache, whatever was asked before |
| Calendar.NextDayAddsOne | native/crypto.cpp:518-528 | the day after a valid day is valid and has the next day number, in all years |
| Calendar.DayOrder | native/crypto.cpp:505-528 | day numbers order valid dates as the calendar does |
| Calendar.X509TimeToUnix | native/crypto.cpp:533-542 | a time is accepted exactly if it is a valid time since the epoch, and its seconds fit |
| Calendar.UnixOrder | native/crypto.cpp:533-542 | on accepted times the conversion is strictly increasing in calendar order, in both directions, and is zero exactly for the first second of 1970 |
| SchedulerProbes.ProbedOk | mobile/ios/WalletCore/Sources/WalletCore/Claims/ClaimScheduler.swift:311-318 | looking up a probe keeps order and probes in step, at most 256, and never evicts the pending one |
| SchedulerProbes.LookupIs | mobile/ios/WalletCore/Sources/WalletCore/Claims/ClaimScheduler.swift:311-318 | a policy that is looked up first gets a probe that is due at once and the last place; if 256 are tracked, the first of the order but the pending one loses its probe, and nobody else |
| SchedulerProbes.StartRenews | mobile/ios/WalletCore/Sources/WalletCore/Claims/ClaimScheduler.swift:360-363 | a start makes its policy the last of the order, and the others keep their places among themselves |
| SchedulerChoice.ChoiceIsBest | mobile/ios/WalletCore/Sources/WalletCore/Claims/ClaimScheduler.swift:319-341 | in every state, a choice is made exactly if the top of some domain is of the wanted kind; the top of a domain is a ready leader that no other ready leader beats by score, or by rank at equal scores; an economic turn takes the top that no other beats, a fair one the first behind the last fair domain, or else the first; while the gate is closed no probe is looked up |
| SchedulerPacing.ProbesKeepApart | mobile/ios/WalletCore/Sources/WalletCore/Claims/ClaimScheduler.swift:342-370 | in every run in which each start is acknowledged before its probe is released and dated no earlier than its reservation, whatever the clocks of other calls show: starts are 0.25 s apart, those of one probe a minute after its first 32, and at most 256 policies are tracked, across rebuilds, clears and eviction |
| SchedulerPacing.LateStartsMeet | mobile/ios/WalletCore/Sources/WalletCore/Claims/ClaimScheduler.swift:353-370 | a run of the struct in which a probe is released before its start is acknowledged, each start dated no earlier than its reservation, and two probes start at one instant |
| SchedulerGate.ApartExactly | mobile/ios/WalletCore/Sources/WalletCore/Claims/ClaimScheduler.swift:353-367 | in every run whose acknowledgements are dated from zero on, starts keep 0.25 s apart exactly if every one finds the gate passed, and those of one probe keep the distance of their number exactly if every one finds its probe due |
| SchedulerGate.PromptIsOnTime | mobile/ios/WalletCore/Sources/WalletCore/Claims/ClaimScheduler.swift:342-370 | starts acknowledged while their probe is pending and dated no earlier than its reservation always find the gate passed and their probe due |
| SchedulerTurns.TurnsAlternate | mobile/ios/WalletCore/Sources/WalletCore/Claims/ClaimScheduler.swift:322-352 | in every run successful reservations alternate fair and economic, across the wrap of the serial number; a fair one goes to the next domain in cyclic name order that was ready when it was chosen if no reservation came since, and otherwise a whole multiple of 2^64 of them came since |
| SchedulerTurns.ReadyIsVisited | mobile/ios/WalletCore/Sources/WalletCore/Claims/ClaimScheduler.swift:331-337 | in every run, a domain that is ready at every fair choice is passed over in at most twice as many turns in a row as there are domains ahead of it, and one; within the first 2^64 turns no choice is overtaken |
| SchedulerClass.ClaimScheduler.ProbeState | mobile/ios/WalletCore/Sources/WalletCore/Claims/ClaimScheduler.swift:311-318 | the eviction search and the new probe are those of the step |
| SchedulerClass.ClaimScheduler.Next | mobile/ios/WalletCore/Sources/WalletCore/Claims/ClaimScheduler.swift:322-341 | the walk over domains and masks, with its lookups of probes, makes the choice of the step, which `SchedulerChoice.ChoiceIsBest` determines |
| SchedulerClass.ClaimScheduler.Reserve | mobile/ios/WalletCore/Sources/WalletCore/Claims/ClaimScheduler.swift:342-352 | a choice is taken up exactly if it is not stale and its probe may start, and then as the step says |
| SchedulerClass.ClaimScheduler.Acknowledge | mobile/ios/WalletCore/Sources/WalletCore/Claims/ClaimScheduler.swift:353-367 | an acknowledgement pushes gate and probe and releases, once |
| SchedulerClass.ClaimScheduler.Rebuild | mobile/ios/WalletCore/Sources/WalletCore/Claims/ClaimScheduler.swift:293-306 | admitted policies get their probes in order, and the rows are replaced |

## Left out

- Sockets, DNS queries, TLS stepping and the RSA probe process: a capture, a resolution and an output are free outcomes of a step.
- JSON reading and writing, the shape of commands and the texts of messages: commands arrive as values, and the reasons of a refusal are codes.
- Hashing, signatures, DER and path checks: a parsed chain is an unexplained function of its message, and the challenge and the domain are given bytes.
- Rounding, infinities and not-a-number: rates, credits and times are exact, so the finiteness checks and the clamp of the smoothed rate have nothing to do.
- The single diagnostic "error" frame of a failing helper, and the write to the controller that may fail after the failure is known.
- ServiceClass.ClaimsService.CommandAttempt: the prepared context that a budget caches is not part of the model.
- The carry-over of scores and cursors when a domain is resolved again.
- `ServiceSteps` joins a wake-up and the recheck that follows it into one step; a wake-up without a reason is allowed at any time.
- The mobile table of budgets with its eviction is the desktop's over again; the limiter of the model keeps the budgets it is told about. A handle that waits twice is excluded by the caller.
- StartQueue.StartLimiter.RecordCapture: counts whenever it is called; the flag by which a handle counts once is the caller's.
- StartQueue.StartLimiter.NotifyExcluded: one limiter in one section, where the program walks over all handles and takes one mutex at a time.
- Exact messages of a refused proof: the parser accepts or refuses.
- SchedulerClass.ClaimScheduler.Rebuild: the choice of rows (eligibility, worth, the 256 best) and the score itself are arguments; rows arrive with their score and rank, and domain names are numbered in their order.
- The cancellation of a refresh, and the reading of the fields of a reply.
- Counters of the Swift window do not overflow in the model; the program would trap at 2^63 samples.
- `CertificateCache` takes the capacity of the copied message and the failure of an allocation from the environment; statistics are not kept.
