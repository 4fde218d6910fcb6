# Winecord: the four engines of the client

This project models the parts of the Winecord client in which state is kept and moved about, and proves
what they promise over whole runs:

* **timers** (`TimerQueue`, `TimerLaws`, `TimerIds`, `TimerEndless`, `TimerCalls`, `TimerGroup`): the
  priority-queue scheduler of `winecord-timer.c`, with callbacks that may call the timer API on any timer,
  their own included;
* **REST** (`RestModel`, `RestInvariant`, `RestSelector`, `RestSteps`, `RestTheorems`, `RestLimits`,
  `RestOrder`, `RestPromises`, `RestRuns`, `Requestor`): the life of a request in
  `winecord-rest_request.c` and the rate limiter of `winecord-rest_ratelimit.c`; and `RouteKey` and
  `RouteIds`, the key that assigns a route to a bucket;
* **cache** (`Refcount`, `CacheModel`, `CacheLaws`, `CacheTheorems`, `CacheHistory`, `Cache`): the
  reference counts of `winecord-refcount.c`, the maps of `winecord-cache.c` and the dispatch of events;
* **gateway** (`SessionModel`, `SessionCourse`, `Gateway`): the session of `winecord-gateway.c`, its
  heartbeat, and the loop of `winecord_run`.

`Numbers` hands out unused numbers, which stand for addresses and ids, and `Wrappers` has the option type.
`dafny verify dfyconfig.toml` checks the whole project.

## How an engine is modelled

Each engine has a value `State` (`World`, `Session`), one pure function per operation, a `Step` datatype
with one constructor per atomic section (a lock-protected section, one finished transfer, one callback,
one frame from the server), and `Legal`, `After`, `Replay` or `IsRun` for runs of such steps in any order. The
theorems are about every run. A class in `TimerGroup`, `Requestor`, `Refcount`, `Cache` and `Gateway` holds
the fields the source updates in place; its methods have the source's loops, and their postconditions equate
the new contents with the step functions, so that the theorems hold of them. What the program does outside
its state, the callbacks of timers and the frames of the gateway, goes into a ghost log, which is equated
with the events of the steps.

History that the source does not store is marked as such where it is declared: where a request is
(`place`) and how often it was sent (`sends`), which bucket waits for which timer until when (`waits`),
who holds a reference (`home`, `active`, `leaked`, `held`, `claims`), and the position of `winecord_run`
(`phase`).

What comes from outside is left open: clock readings never go back and are otherwise arbitrary,
milliseconds being microseconds divided by 1000; transfers finish in any order with any result and
headers; user callbacks make any calls; the server sends anything; allocation returns any unused number.

## What the code does where more might be expected

* `winecord_timer_start` adds a second timer, because the stored copy has no id, unless since the push some
  ctl call that is not a mere query named the id or a turn of the loop wrote its copy back
  (`StartInPlaceIff`). Stopping and canceling rewrite the entry without its id, so starting after either
  adds a second timer too (`StoppedStartsAnother`).
* A 429 on the last allowed attempt trips the assertion in `winecord_bucket_request_unselect`
  (`AbortsIff`): the 429 has already released the bucket.
* A retry for any other reason than a 429 leaves `busy_req` set, and the bucket is skipped for good
  (`StallIff`, `StallLasts`).
* After a 429 the next pass holds the bucket back if and only if the headers say that nothing remains, or
  are about another bucket, as they are for every request of a route not known yet (`HeldBackIff`). In
  all other cases reading the headers has overwritten `remaining`, and the same request is sent again in
  the next pass (`SentAgainRun`). A reset time in the headers also replaces the one `retry_after` asked for,
  even by an earlier one (`HeldLongEnoughIff`). The 429 itself is section 4 of RFC 6585.
* The global wait is consulted only for buckets that are exhausted: any other bucket sends during it
  (`SendsIff`), although `winecord-rest_ratelimit.c:331` speaks of locking all buckets.
* A guild announced again while it is cached leaves a copy that is never freed (`LeaksIff`, `LeakLasts`).
* `winecord_refcounter_unclaim` reports a resource never claimed as unavailable; `discord-internal.h:1030`
  documents the ownership code (`RefusalCodes`). One visit more than `INT_MAX` restarts the count at one
  in the protocol "increment, else add" (`TakeOverflows`).
* Collecting messages older than ten minutes is exact only for clock values in a certain range
  (`CollectsOldIff`).
* `on_shard_reconnected` is installed by the cache but nothing calls it.
* A heartbeat outstanding when a session ends makes a later session give up as soon as it is ready or has
  resumed, unless an acknowledgement comes before (`ReadyGivesUpIff`).
* `winecord_shutdown` during a reconnect that does not resume is lost (`ShutdownIgnoredIff`).
* `winecord_gateway_end` leaves retrying disabled "for the next run", so that a second `winecord_run` has
  one session only unless something enables retrying (`SecondRunTriesOnce`); and once the attempts are used
  up, no later `winecord_run` gets a session (`ExhaustionLasts`).

Short runs from the initial state reach these failures: `StoppedStartsAnother`, `AbortRun`, `StallRun`,
`HeldRun`, `SentAgainRun`, `LeakRun` and `GivesUpRun`.

## Model

| member | source | states |
|---|---|---|
| TimerQueue.CompareIsTotalPreorder | source/wineberry/discord/winecord-timer.c:18-27 | The comparator is a total preorder in which all negative keys are equal and come last |
| TimerQueue.HeadDecidesDue | source/wineberry/discord/winecord-timer.c:181-195 | Some timer is due exactly when a head of the queue is |
| TimerLaws.ReplayKeeps | source/wineberry/discord/winecord-timer.c:87-127 | In every reachable state keys are -1 or not negative, stored ids are right, and no skip_update_phase is pending |
| TimerLaws.TurnKeeps | source/wineberry/discord/winecord-timer.c:196-250 | Whatever callbacks do, a turn of the loop leaves no skip_update_phase for the next timer |
| TimerLaws.NeverEarly | source/wineberry/discord/winecord-timer.c:181-212 | In every history each on_tick call comes at or after its trigger |
| TimerLaws.SkipIffClaimed | source/wineberry/discord/winecord-timer.c:121-122 | While a callback of a timer runs, skip_update_phase becomes set exactly if some call rewrites that timer |
| TimerLaws.ClaimingCallbackWins | source/wineberry/discord/winecord-timer.c:207-218 | A tick callback that calls the API on its own timer has the last word on the queue, whatever it leaves in the loop's copy |
| TimerLaws.ClaimingStatusWins | source/wineberry/discord/winecord-timer.c:197-218 | The same for the status callback of a timer that was canceled before its turn |
| TimerLaws.RestartedCallbackWins | source/wineberry/discord/winecord-timer.c:207-218 | And of the status callback that follows, by the restart, a tick callback which canceled its copy |
| TimerLaws.UnclaimedCopyWritten | source/wineberry/discord/winecord-timer.c:239-250 | If it makes no such call and its copy neither expired nor asks for a status callback, its timer is written from the copy, due one interval (ms unless MICROSECONDS) after the turn, or after the trigger with INTERVAL_FIXED, or disarmed if repeat is 0, interval negative or delay -1; all others are as its calls left them |
| TimerLaws.UnclaimedCopyDeleted | source/wineberry/discord/winecord-timer.c:219-238 | If the copy expired or asks for deletion, the timer is removed, with one status callback told of it, and all others are as the calls left them |
| TimerLaws.LastCallWins | source/wineberry/discord/winecord-timer.c:344-402 | After any sequence of calls an entry is what the last call that touched it wrote |
| TimerIds.StoredIff | source/wineberry/discord/winecord-timer.c:87-127 | Over any history in which the timer is not deleted, its stored copy has its id exactly if it had it before or some call or written-back turn named it |
| TimerIds.StartInPlaceIff | source/wineberry/discord/winecord-timer.c:353-367 | Over any history since the push, start restarts the timer in place if and only if a ctl call that is no query named the id or a turn wrote its copy back; else it pushes a second one and leaves the first |
| TimerIds.StoppedStartsAnother | source/wineberry/discord/winecord-timer.c:369-398 | A timer pushed, stopped or canceled, and started leaves two timers |
| TimerLaws.OwnTurn | source/wineberry/discord/winecord-timer.c:196-250 | One turn of an undisturbed DELETE_AUTO timer: a tick, and then either the next trigger with one repeat fewer or the deletion |
| TimerLaws.LifeOfTimer | source/wineberry/discord/winecord-timer.c:168-257 | Over any history that leaves it alone such a timer ticks in order, when due, and is then deleted once |
| TimerLaws.TicksExactly | source/wineberry/discord/winecord-timer.c:197-250 | Created with repeat n, it ticks max(1, n) times and is then deleted by one DELETE status callback, after which nothing follows; with INTERVAL_FIXED the k-th trigger is first + k * interval |
| TimerLaws.CancelThenDelete | source/wineberry/discord/winecord-timer.c:385-408 | Cancelling it runs the status callback twice, CANCELED and then DELETE, and removes it without a tick |
| TimerLaws.StoppedIsSilent | source/wineberry/discord/winecord-timer.c:369-383 | A stopped timer stays in the queue with what was set and makes no callback in any history that leaves it alone |
| TimerEndless.LifeOfEndless | source/wineberry/discord/winecord-timer.c:196-250 | Over any history that leaves it alone a timer with a negative repeat count is never removed, ticks on each of its turns, in order and when due, and stays armed |
| TimerEndless.TicksForever | source/wineberry/discord/winecord-timer.c:239-246 | Created so, with a delay and an interval, it ticks first after the delay and then one interval after each tick, or its trigger with INTERVAL_FIXED, for ever (winecord-rest.c:86-90 relies on it) |
| TimerEndless.ExhaustedIsDisarmed | source/wineberry/discord/winecord-timer.c:239-250 | After a turn whose copy has repeat 0 without DELETE_AUTO, or no interval or delay, the timer stays and is disarmed |
| TimerEndless.CanceledIsDisarmed | source/wineberry/discord/winecord-timer.c:224-250 | A canceled timer without DELETE_AUTO stays, disarmed and no longer canceled, after its status callback |
| TimerEndless.CancelingIsDisarmed | source/wineberry/discord/winecord-timer.c:216-250 | So does one whose tick callback cancels its copy, after the restart |
| TimerCalls.CtlWrites | source/wineberry/discord/winecord-timer.c:87-127 | What a ctl call writes, for every argument: one entry or none, when it is due, and the flags kept |
| TimerCalls.AddFlagsMarks | source/wineberry/discord/winecord-timer.c:385-421 | cancel and delete add their marks to those there are and make the timer due at once |
| TimerCalls.MarkedIsDeleted | source/wineberry/discord/winecord-timer.c:156-199 | The turn of a timer marked DELETE removes it without a tick, with one status callback that is told of the deletion, and of the cancellation if there was one |
| TimerCalls.MarkedIsCanceled | source/wineberry/discord/winecord-timer.c:196-200 | The turn of a canceled timer begins with the status callback and has no tick |
| TimerCalls.DeletedByCall | source/wineberry/discord/winecord-timer.c:385-408 | A timer deleted by any call has no other callback than that one |
| TimerLaws.RenewedByCallback | source/wineberry/discord/winecord-gateway_dispatch.c:240-246 | A callback that sets repeat to 1 and an interval keeps its timer, triggered that interval after the turn |
| TimerGroup.Timers.CtlNoLock | source/wineberry/discord/winecord-timer.c:87-127 | Refines the step function of a ctl call, with its id 0, GET, status and failure paths |
| TimerGroup.Timers.DisableUpdateIfActive | source/wineberry/discord/winecord-timer.c:344-351 | Sets skip_update_phase exactly for the active timer |
| TimerGroup.Timers.StartNow | source/wineberry/discord/winecord-timer.c:353-367 | Refines the start call and reports whether it succeeded |
| TimerGroup.Timers.StopNow | source/wineberry/discord/winecord-timer.c:369-383 | Refines the stop call: the entry is kept with a disarmed key |
| TimerGroup.Timers.AddStatus | source/wineberry/discord/winecord-timer.c:385-421 | Refines cancel, delete and both |
| TimerGroup.Timers.Turn | source/wineberry/discord/winecord-timer.c:196-250 | The loop's body with its restart edge and both deletion points is one turn of the step machine, in state and in callbacks made, for arbitrary reentrant callbacks |
| TimerGroup.Timers.Run | source/wineberry/discord/winecord-timer.c:168-257 | The pass ends after at most 100000 turns; its state and its callbacks are those of a sequence of turns of due heads, and it leaves the group settled |
| TimerGroup.PassIsLegal | source/wineberry/discord/winecord-timer.c:181-195 | Every pass is a legal history, so that all results about histories hold of passes |
| TimerGroup.Timers.CancelAll | source/wineberry/discord/winecord-timer.c:39-48 | Empties the queue and gives each timer exactly one status callback, canceled and deleted |
| TimerGroup.GetNextTrigger | source/wineberry/discord/winecord-timer.c:61-85 | 0 if a lock is busy, else exactly the earliest wait over all groups, cut to max_time and to 0 |
| RestInvariant.ArmWaits | source/wineberry/discord/winecord-rest_ratelimit.c:215-238 | Arming a bucket keeps one armed wake timer for each timed-out bucket, not due before the time waited for |
| RestInvariant.SelectKeeps | source/wineberry/discord/winecord-rest_ratelimit.c:413-438 | A turn of the selector keeps the whole invariant |
| RestInvariant.FileAllKeeps | source/wineberry/discord/winecord-rest_request.c:490-498 | Filing the pending requests keeps the whole invariant |
| RestSelector.PassBuckets | source/wineberry/discord/winecord-rest_ratelimit.c:404-439 | A pass visits each pending bucket once: busy ones are unchanged, idle exhausted ones time out, the others send their head |
| RestSelector.PassFlights | source/wineberry/discord/winecord-rest_ratelimit.c:427-430 | The transfers started are exactly the heads of the idle buckets with remaining requests, one each |
| RestSelector.PassWait | source/wineberry/discord/winecord-rest_ratelimit.c:423-427 | A pass arms exactly the idle exhausted buckets, each until the later of the global and its own reset time, and no other |
| RestSelector.PassLine | source/wineberry/discord/winecord-rest_ratelimit.c:411-438 | The pending list goes round once, in order, without the buckets left empty |
| RestSelector.NullFilterSplits | source/wineberry/discord/winecord-rest_ratelimit.c:258-275 | null_filter moves the longest prefix with the matched key to the end of the matched queue and keeps the rest, both in order |
| RestSelector.NullFilterElsewhere | source/wineberry/discord/winecord-rest_ratelimit.c:258-275 | It leaves the queues of all other buckets alone |
| RestSteps.BuildKeeps | source/wineberry/discord/winecord-rest_ratelimit.c:361-372 | Reading the headers keeps the invariant, but that the request's own bucket may stay on the pending list with an empty queue |
| RestSteps.RetryKeeps | source/wineberry/discord/winecord-rest_request.c:338-348 | Putting a request back repairs that and keeps the invariant |
| RestSteps.AbortsIff | source/wineberry/discord/winecord-rest_ratelimit.c:441-456 | A completion trips the assertion if and only if it is a 429 of a request without an attempt left |
| RestSteps.CompleteKeeps | source/wineberry/discord/winecord-rest_request.c:350-436 | Every other completion keeps the invariant |
| RestSteps.BeginKeeps | source/wineberry/discord/winecord-rest_request.c:549-635 | So does beginning a request, recycled or new |
| RestSteps.DispatchKeeps | source/wineberry/discord/winecord-rest_request.c:251-336 | So does dispatching and recycling a finished one |
| RestSteps.SyncReturnKeeps | source/wineberry/discord/winecord-rest_request.c:626-634 | So does the return of a synchronous caller |
| RestSteps.WakeKeeps | source/wineberry/discord/winecord-rest_ratelimit.c:205-213 | So does a wake, whose timer deletes itself |
| RestSteps.WakeTimers | source/wineberry/discord/winecord-rest_ratelimit.c:205-238 | A due timer of the REST thread belongs to the one bucket waiting for it, and is not early |
| RestSteps.InitialInv | source/wineberry/discord/winecord-rest_ratelimit.c:142-160 | The state after initialisation satisfies the invariant |
| RestSteps.RunKeeps | source/wineberry/discord/winecord-rest_request.c:314-635 | Every state of every run satisfies the invariant |
| RestTheorems.Conservation | source/wineberry/discord/winecord-rest_request.c:480-504 | In every reachable state each allocated request is in exactly one container, once |
| RestTheorems.NothingLostNothingRepeated | source/wineberry/discord/winecord-rest_request.c:338-348 | Over any run no request is lost and no use of one is sent more than retry_limit + 1 times |
| RestTheorems.Trichotomy | source/wineberry/discord/winecord-rest_ratelimit.c:393-464 | In every state of every run a bucket is idle with nothing in the air and no timer, busy with at most its busy request in the air and no timer, or timed out with nothing in the air and exactly one timer, which is armed |
| RestTheorems.PendingIffQueued | source/wineberry/discord/winecord-rest_ratelimit.c:374-391 | In every reachable state a bucket is on the pending list if and only if its queue has a request |
| RestTheorems.WaitStands | source/wineberry/discord/winecord-rest_ratelimit.c:419-427 | In any run a bucket's wait stands until its own wake timer runs; nothing else ends or changes it |
| RestTheorems.CoolDown | source/wineberry/discord/winecord-rest_ratelimit.c:215-238 | From arming to wake, in any run, no request of the bucket is in the air and the wait stands |
| RestTheorems.WakeNotEarly | source/wineberry/discord/winecord-rest_ratelimit.c:219-234 | The wake never runs before the time (ms) read at arming, despite truncation and conversion |
| RestTheorems.ArmedUntil | source/wineberry/discord/winecord-rest_ratelimit.c:220-222 | That time is the later of the global and the bucket's reset time |
| RestTheorems.StallIff | source/wineberry/discord/winecord-rest_request.c:338-348 | A completion stalls its bucket if and only if it is retried for another reason than a 429 |
| RestTheorems.StallLasts | source/wineberry/discord/winecord-rest_ratelimit.c:419-422 | A stalled bucket stays stalled in every run; none of its requests is sent again |
| RestLimits.RebuffedIsNext | source/wineberry/discord/winecord-rest_request.c:338-348 | After a 429 with an attempt left the bucket is idle and the request heads its queue |
| RestLimits.HeldBackIff | source/wineberry/discord/winecord-rest_ratelimit.c:308-372 | After a 429 the next pass holds the bucket back if and only if the headers are about another bucket or say that nothing remains; else it is to send the same request again |
| RestLimits.HeldLongEnoughIff | source/wineberry/discord/winecord-rest_ratelimit.c:220-222 | The time an exhausted bucket then waits for reaches what retry_after asked for if and only if the headers give the bucket no earlier reset time, or the global wait reaches it |
| RestLimits.LimitsAfter | source/wineberry/discord/winecord-rest_ratelimit.c:308-372 | Remaining, reset and global wait of every bucket after any response, 429s included: a 429 demands of the request's own bucket, the headers grant to the bucket they are about; the route is learned if the response names a bucket |
| RestOrder.FilingOrder | source/wineberry/discord/winecord-rest_ratelimit.c:374-391 | Filing is a deque: high priority in front, last first; the others behind, in order; what was queued in between |
| RestOrder.StartDeque | source/wineberry/discord/winecord-rest_request.c:479-504 | One start_pending, per bucket: the pending requests join the deque, then its head is sent, or the bucket timed out, or neither |
| RestOrder.CompleteDeque | source/wineberry/discord/winecord-rest_request.c:350-436 | One completion, for every bucket, the null bucket and a new one included: the null bucket's queue is sifted into the matched one, and a retried request goes to the head of its own |
| RestOrder.QueueStep | source/wineberry/discord/winecord-rest_request.c:314-635 | Every step of every kind is, for each bucket, one operation on its deque, or none |
| RestOrder.OrderStands | source/wineberry/discord/winecord-rest_ratelimit.c:374-401 | Over any run, as long as a request stays in a bucket's queue, each one that was behind it is still behind it and not sent |
| RestOrder.StepArrival | source/wineberry/discord/winecord-rest_ratelimit.c:374-391 | What comes to a queue is behind all that stays there, unless it is filed with high priority or retried; then it is before them |
| RestOrder.FirstComeFirstServed | source/wineberry/discord/winecord-rest_ratelimit.c:374-401 | So over any run what comes without jumping the queue is not sent before those it found there have left |
| RestOrder.MovedInOrder | source/wineberry/discord/winecord-rest_ratelimit.c:258-275 | A request that null_filter moves to another queue has those that were before it before it there, too |
| RestOrder.HeldIsArmed | source/wineberry/discord/winecord-rest_ratelimit.c:423-427 | A bucket with requests that is held back is timed out by the next pass, until the later of the global and its own reset time |
| RestOrder.SendsIff | source/wineberry/discord/winecord-rest_ratelimit.c:411-438 | A pass sends from a bucket exactly if there is a request for it, it is idle and not exhausted, whatever the global wait; and then the first one |
| RestOrder.WakeFrees | source/wineberry/discord/winecord-rest_ratelimit.c:205-213 | A wake makes its bucket idle with one request remaining and changes nothing else of it, nor of other buckets, routes and requests |
| RestOrder.WakeSends | source/wineberry/discord/winecord-rest_ratelimit.c:205-213 | If there is a request for the bucket that was woken, queued or pending, the next pass sends the first one |
| RestOrder.BegunInOrder | source/wineberry/discord/winecord-rest_request.c:617-622 | Of two normal requests of one route, begun one after the other and filed together, the second is never sent while the first waits in the queue |
| RestPromises.WakesOnTime | source/wineberry/discord/winecord-rest_ratelimit.c:219-234 | The wake timer of a held bucket is due exactly the full ms that are left after the clock reading, so less than one ms after the reset time, or at once |
| RestPromises.CompletionFate | source/wineberry/discord/winecord-rest_request.c:338-431 | A finished transfer is tried again, with one attempt more, exactly after a server error, a 429 or a failed read while attempts are left; else the request goes to its caller or to the end of the finished queue |
| RestPromises.RecycledLast | source/wineberry/discord/winecord-rest_request.c:251-285 | Finished requests are dispatched first come first served and recycled last |
| RestPromises.FinishedInOrder | source/wineberry/discord/winecord-rest_request.c:314-336 | Over any run requests that wait to be dispatched keep the order in which they finished |
| RestPromises.FinishesLast | source/wineberry/discord/winecord-rest_request.c:427-429 | A request that finishes comes behind all of them |
| RestPromises.FiledInFront | source/wineberry/discord/winecord-rest_ratelimit.c:386-388 | Buckets that come to the pending list come before those on it, which keep their order |
| RestRuns.AbortRun | source/wineberry/discord/winecord-rest_ratelimit.c:441-456 | From the initial state, without retries, the first 429 trips the assertion |
| RestRuns.StallRun | source/wineberry/discord/winecord-rest_request.c:338-348 | From the initial state, a server error on the first request stalls the null bucket |
| RestRuns.HeldRun | source/wineberry/discord/winecord-rest_ratelimit.c:308-372 | From the initial state, a 429 on a route not known yet holds the null bucket back although the headers leave five requests |
| RestRuns.SentAgainRun | source/wineberry/discord/winecord-rest_ratelimit.c:308-372 | From the initial state, a 429 on a known route without the remaining header has the request due again in the next pass, whatever retry_after |
| Requestor.Client.BucketInsert | source/wineberry/discord/winecord-rest_ratelimit.c:374-391 | Queues at head or tail and puts the bucket on the pending list if it is not on it |
| Requestor.Client.NullFilter | source/wineberry/discord/winecord-rest_ratelimit.c:258-275 | The loop refines null_filter's specification |
| Requestor.Client.FindOrAdd | source/wineberry/discord/winecord-rest_ratelimit.c:277-301 | Finds the route's bucket, adds one for a new hash, or falls back to the miss bucket |
| Requestor.Client.Populate | source/wineberry/discord/winecord-rest_ratelimit.c:308-359 | remaining, reset and global wait after the headers, each branch |
| Requestor.Client.Build | source/wineberry/discord/winecord-rest_ratelimit.c:361-372 | Matching and populating together |
| Requestor.Client.TryTimeout | source/wineberry/discord/winecord-rest_ratelimit.c:215-238 | Marks the bucket and arms its timer, through the real timer group, with the clamped difference in ms |
| Requestor.Client.Selector | source/wineberry/discord/winecord-rest_ratelimit.c:403-439 | The loop ends and refines the pass of the step machine |
| Requestor.Client.SetGlobalTimeout | source/wineberry/discord/winecord-rest_ratelimit.c:108-115 | The same, and the global wait |
| Requestor.Client.Unselect | source/wineberry/discord/winecord-rest_ratelimit.c:441-456 | Succeeds exactly for the busy request; frees the bucket and takes it off the list if its queue is empty |
| Requestor.Client.Retry | source/wineberry/discord/winecord-rest_request.c:338-348 | Counts the attempt and, below the limit, puts the request back at the head |
| Requestor.Client.InfoExtract | source/wineberry/discord/winecord-rest_request.c:167-249 | Which responses are retried, and the time-out of a 429 |
| Requestor.Client.Complete | source/wineberry/discord/winecord-rest_request.c:357-433 | One finished transfer refines the completion step, assertion included |
| Requestor.Client.InfoRead | source/wineberry/discord/winecord-rest_request.c:350-436 | Any finished transfers, in any order: a run of completion steps, or one that ends in the failed assertion |
| Requestor.Client.StartPending | source/wineberry/discord/winecord-rest_request.c:479-504 | Refines the start_pending step |
| Requestor.Client.Begin | source/wineberry/discord/winecord-rest_request.c:549-635 | Takes the first recycled request or a new one, and queues it last |
| Requestor.Client.DispatchResponses | source/wineberry/discord/winecord-rest_request.c:314-336 | Works off everything finished, callbacks beginning any requests: a run of begin and dispatch steps that empties the queue, or nothing if the lock is busy |
| RouteKey.BuildKey | source/wineberry/discord/winecord-rest_ratelimit.c:47-106 | The loops over the format refine the key's definition over sections, failed assertions included |
| RouteIds.KeyByMethodAndIds | source/wineberry/discord/winecord-rest_ratelimit.c:61-105 | For one format, keys are equal if and only if the methods are, multipart POST being POST, and so is the id in each section %lu that follows one beginning with channels or guilds, up to a reactions section |
| RouteIds.KeyIsParts | source/wineberry/discord/winecord-rest_ratelimit.c:61-105 | The key is the method and one part for each section up to the cut: the digits of the id in such a section, and the section itself everywhere else |
| RouteIds.CutAtReactions | source/wineberry/discord/winecord-rest_ratelimit.c:70-71 | The cut is right after the first section that begins with reactions |
| RouteIds.KeyFitsIff | source/wineberry/discord/winecord-rest_ratelimit.c:76-98 | No assertion fails exactly if the arguments fit the format and the key fits its buffer |
| RouteIds.IdsFromEndpoint | source/wineberry/discord/winecord-rest.c:128-138 | The part for the id of a channel or guild is the text printed at the same section of the endpoint |
| RouteKey.EndpointIsPrinted | source/wineberry/discord/winecord-rest.c:128-132 | The endpoint is its sections, printed one by one with the arguments the earlier ones left |
| RouteKey.ReactionsCut | source/wineberry/discord/winecord-rest_ratelimit.c:70-71 | Everything below a reactions section shares the key of that section |
| RouteKey.KeyIsNoSingleton | source/wineberry/discord/winecord-rest_ratelimit.c:155-156 | No key is null or miss, and each fits its buffer |
| Refcount.RunSound | source/wineberry/discord/winecord-refcount.c:122-219 | For arbitrary callers: visits >= 1, claims <= visits + 1 (or visits is INT_MAX), and each resource added is live or was cleaned up once |
| Refcount.CleansIff | source/wineberry/discord/winecord-refcount.c:143-219 | A resource is cleaned up exactly by the decrement of its only visit without claims, or by giving back its only claim and visit |
| Refcount.ClaimsProtect | source/wineberry/discord/winecord-refcount.c:150-166 | For arbitrary callers a resource is not cleaned up before it is unclaimed as often as it was claimed |
| Refcount.RefusalCodes | source/wineberry/discord/winecord-refcount.c:143-219 | Exactly when decr and unclaim are refused, and with which code |
| Refcount.TakeOverflows | source/wineberry/discord/winecord-refcount.c:129-132 | Increment-or-add counts a visit if and only if there is room; else the count restarts at one |
| Refcount.BalancedCount | source/wineberry/discord/winecord-refcount.c:122-219 | For balanced callers the count is what is outstanding: adds and increments less decrements, plus claims less unclaims |
| Refcount.CleanedOnce | source/wineberry/discord/winecord-refcount.c:79-93 | For them a resource is cleaned up once for each time it was added, exactly when nothing is outstanding |
| Refcount.Refcounter.Incr | source/wineberry/discord/winecord-refcount.c:122-141 | Refines the increment and its code |
| Refcount.Refcounter.Decr | source/wineberry/discord/winecord-refcount.c:143-176 | Refines the decrement, its refusals and the cleanup |
| Refcount.Refcounter.Claim | source/wineberry/discord/winecord-refcount.c:178-194 | Refines the claim |
| Refcount.Refcounter.Unclaim | source/wineberry/discord/winecord-refcount.c:196-219 | Refines giving a claim back |
| CacheLaws.StepKeeps | source/wineberry/discord/winecord-cache.c:118-187 | Every step keeps: each count is the number of holders, maps and holders are inverse, cached messages are readable |
| CacheTheorems.CachedIsLive | source/wineberry/discord/winecord-cache.c:209-227 | In every reachable state cached pointers are live and distinct, and a resource is live exactly while someone holds it |
| CacheTheorems.CleanedOncePerLife | source/wineberry/discord/winecord-refcount.c:89-93 | A resource is cleaned up once per life, exactly when its last holder let go |
| CacheTheorems.NeverRefused | source/wineberry/discord/winecord-refcount.c:143-219 | Balanced callers get the code OK throughout |
| CacheTheorems.ClaimPins | source/wineberry/discord/winecord-cache.c:276-313 | A claimed pointer, such as a getter's result, stays live until it is unclaimed, under any interleaving |
| CacheTheorems.GetterClaims | source/wineberry/discord/winecord-cache.c:276-313 | What either getter returns is cached, live, and counted and claimed exactly once more; a getter that returns nothing changes nothing |
| CacheTheorems.GetterPins | source/wineberry/discord/winecord-cache.c:276-313 | So it stays live in every later state until it has been given back as often as it was claimed |
| CacheTheorems.StepCounts | source/wineberry/discord/winecord-refcount.c:122-219 | Arrivals, ends of dispatches, claims and references of requests move the count of a resource by exactly what they take or give back |
| CacheTheorems.LeaksIff | source/wineberry/discord/winecord-cache.c:118-125 | guild_create leaves an unreachable copy if and only if the guild is cached |
| CacheTheorems.LeakLasts | source/wineberry/discord/winecord-cache.c:118-125 | That copy is live in every later state and is never cleaned up |
| CacheTheorems.LeakRun | source/wineberry/discord/winecord-cache.c:118-125 | From the empty cache, the same guild announced twice leaves such a copy |
| CacheTheorems.SweptIff | source/wineberry/discord/winecord-cache.c:179-181 | The lower bound and the inclusive delete range remove exactly the ids below the bound |
| CacheTheorems.CollectsOldIff | source/wineberry/discord/winecord-cache.c:177-178 | The bound separates messages older than ten minutes from the others if and only if the clock is in the range given |
| CacheTheorems.CollectExactly | source/wineberry/discord/winecord-cache.c:168-187 | A collection leaves exactly the other entries, and costs each removed pointer one reference and nothing else any |
| CacheHistory.CacheIsFold | source/wineberry/discord/winecord-cache.c:54-187 | Over every run each map entry is the fold of the history: create inserts if absent, update replaces, delete, clear and collection remove |
| CacheHistory.ValidityIsFold | source/wineberry/discord/winecord-cache.c:54-100 | A shard is valid as its last ready, resume, reconnect or disconnect says |
| CacheHistory.MessageGetterIff | source/wineberry/discord/winecord-cache.c:276-296 | The getter returns a pointer if and only if the first shard with the id is valid and the message is of that channel |
| CacheHistory.MessageGetterOverHistory | source/wineberry/discord/winecord-cache.c:276-296 | With one shard, in terms of the history of events alone |
| CacheHistory.GuildGetterOverHistory | source/wineberry/discord/winecord-cache.c:298-313 | The same for guilds |
| CacheHistory.ConsumedStaysOut | source/wineberry/discord/winecord-gateway_dispatch.c:99-137 | A message consumed on arrival is not handled by the cache and not in it at any time of its dispatch |
| Cache.Client.OnEvent | source/wineberry/discord/winecord-cache.c:54-166 | The handlers refine the handler step, change callbacks included |
| Cache.Client.Delete | source/wineberry/discord/winecord-cache.c:209-227 | Removing an entry drops one reference |
| Cache.Client.UpsertMessage | source/wineberry/discord/winecord-cache.c:218-227 | Replacing drops a reference of the old pointer and takes one of the new |
| Cache.Client.UpsertGuild | source/wineberry/discord/winecord-cache.c:209-216 | Replacing a guild drops the old reference and takes none |
| Cache.Client.OnDisconnected | source/wineberry/discord/winecord-cache.c:88-100 | Clears the shard exactly if the disconnect cannot be resumed, and invalidates it |
| Cache.Client.OnReconnected | source/wineberry/discord/winecord-cache.c:75-86 | Clears the shard and validates it |
| Cache.Client.OnGarbageCollection | source/wineberry/discord/winecord-cache.c:168-187 | A run of one collection step per shard; its timer is to repeat in 60000 ms |
| Cache.Client.GetChannelMessage | source/wineberry/discord/winecord-cache.c:276-296 | The loop returns and claims what the specification finds |
| Cache.Client.CacheGetGuild | source/wineberry/discord/winecord-cache.c:298-313 | The same for guilds |
| Cache.Client.ClaimResource | source/wineberry/discord/winecord-client.c:391-397 | The assertion on the code holds for a live resource |
| Cache.Client.UnclaimResource | source/wineberry/discord/winecord-client.c:399-406 | The assertion on the code holds for an outstanding claim |
| Cache.Client.Dispatch | source/wineberry/discord/winecord-gateway_dispatch.c:99-137 | A dispatch with any user code inside is a legal run; the event outlives it exactly if someone holds it |
| SessionModel.ResumesAreGranted | source/wineberry/discord/winecord-gateway_dispatch.c:190-225 | RESUMEs do not outnumber the occasions that made the session resumable: each uses one up |
| SessionModel.StepResumes | source/wineberry/discord/winecord-gateway.c:64-82 | RESUME is sent exactly on a hello while resumable, and the bit is gone after |
| SessionModel.ResumableIff | source/wineberry/discord/winecord-gateway.c:276-411 | Exactly which steps make a session resumable and which take that away |
| SessionModel.ReconnectsAsAsked | source/wineberry/discord/winecord-gateway.c:276-314 | After RECONNECT, INVALID_SESSION or winecord_reconnect, over whatever follows that does not change it, the cache is told as asked and the next hello is answered by RESUME or IDENTIFY as asked |
| SessionModel.ReconnectCourse | source/wineberry/discord/winecord-gateway.c:841-860 | In particular with a close frame of any code, the end of the session and the start of the next |
| SessionModel.ZombieReconnects | source/wineberry/discord/winecord-gateway_dispatch.c:267-275 | A heartbeat is sent only if the last was acknowledged; else one reconnect without resuming is triggered |
| SessionModel.HeartbeatsAreAcknowledged | source/wineberry/discord/winecord-gateway_dispatch.c:250-302 | Over any run every heartbeat but one is matched by an acknowledgement or such a reconnect |
| SessionModel.HeartbeatsOnTicks | source/wineberry/discord/winecord-gateway_dispatch.c:227-302 | From READY or RESUMED until the session ends or is closing, each timer tick sends a heartbeat if the last was acknowledged, and reconnects otherwise |
| SessionModel.NoHeartbeatBefore | source/wineberry/discord/winecord-gateway_dispatch.c:231-235 | Before that, ticks send nothing |
| SessionModel.ReadyGivesUpIff | source/wineberry/discord/winecord-gateway.c:731-784 | A later session is given up on READY or RESUMED if and only if the earlier one ended with a heartbeat outstanding and no acknowledgement came since, whatever else did |
| SessionModel.GivesUpRun | source/wineberry/discord/winecord-gateway_dispatch.c:250-302 | From the initial state, a first session closed before its heartbeat is acknowledged has the resumed one given up |
| SessionModel.DisabledEnds | source/wineberry/discord/winecord-gateway.c:786-813 | While retrying is disabled and stays so, the session at hand is the last of its winecord_run |
| SessionModel.FatalCloseEnds | source/wineberry/discord/winecord-gateway.c:389-398 | A fatal close code ends winecord_run unless a later step enables retrying |
| SessionModel.ShutdownIgnoredIff | source/wineberry/discord/winecord-events.c:11-16 | winecord_shutdown leaves retrying enabled if and only if a close without resuming is under way for a reconnect |
| SessionModel.ShutdownCourse | source/wineberry/discord/winecord-gateway.c:828-839 | Otherwise it closes the session, tells the cache that it is not resumable, and winecord_run ends |
| SessionModel.CloseCourse | source/wineberry/discord/winecord-gateway.c:370-411 | By the close code (sections 7.4.1 and 7.4.2 of RFC 6455), listed one by one: what the cache is told, whether the run ends, and whether the next session resumes |
| SessionModel.LostConnection | source/wineberry/discord/winecord-loop.c:119-132 | A failed transfer ends the session without a word; the next one resumes only if that was due |
| SessionModel.StartsOpen | source/wineberry/discord/winecord-gateway.c:786-813 | If the user calls only during sessions, each session starts neither shut down nor ready, in this run and later ones |
| SessionModel.SecondRunTriesOnce | source/wineberry/discord/winecord-gateway.c:795-805 | After gateway_end has ended a run, a further run has at most one session unless retrying is enabled |
| SessionModel.AttemptsBounded | source/wineberry/discord/winecord-gateway.c:736-742 | The attempts never get past a non-negative limit, although it is tested for equality |
| SessionModel.StartIff | source/wineberry/discord/winecord-gateway.c:731-784 | A session begins exactly if attempts are left and its preparation succeeds; else winecord_run returns |
| SessionModel.AtMostLimitSessions | source/wineberry/discord/winecord-loop.c:73-132 | A limit L >= 0 allows at most L sessions in a row without READY or RESUMED, whether or not the run ends of it |
| SessionModel.NeverRefusedByDefault | source/wineberry/discord/winecord-gateway.c:561-562 | With a negative limit no session is refused for its number of attempts |
| SessionModel.ExhaustionLasts | source/wineberry/discord/winecord-gateway.c:736-742 | Once the attempts are used up no later run begins a session |
| Gateway.Client.OnHello | source/wineberry/discord/winecord-gateway.c:64-82 | RESUME or IDENTIFY, by the status bits |
| Gateway.Client.SendResume | source/wineberry/discord/winecord-gateway_dispatch.c:190-225 | The exclusive-or clears the bit |
| Gateway.Client.SendHeartbeat | source/wineberry/discord/winecord-gateway_dispatch.c:250-302 | Refines the heartbeat step |
| Gateway.Client.OnDispatch | source/wineberry/discord/winecord-gateway.c:206-248 | READY and RESUMED reset the attempts and send a heartbeat |
| Gateway.Client.OnInvalidSession | source/wineberry/discord/winecord-gateway.c:276-300 | Resumable exactly if the payload is not false |
| Gateway.Client.OnReconnect | source/wineberry/discord/winecord-gateway.c:302-314 | Resumable, closing, retrying |
| Gateway.Client.WsOnClose | source/wineberry/discord/winecord-gateway.c:341-416 | The close codes' switch refines the close step |
| Gateway.Client.OnHeartbeatTimeout | source/wineberry/discord/winecord-gateway_dispatch.c:227-246 | Refines the timeout step; the new interval reaches the next heartbeat's time and is at least 1 |
| Gateway.Client.Shutdown | source/wineberry/discord/winecord-gateway.c:828-839 | Refines winecord_shutdown's effect |
| Gateway.Client.GatewayReconnect | source/wineberry/discord/winecord-gateway.c:841-860 | Closing and retrying, resumable as asked |
| Gateway.Client.Start | source/wineberry/discord/winecord-gateway.c:731-784 | Refused exactly if the attempts equal the limit or preparing fails |
| Gateway.Client.End | source/wineberry/discord/winecord-gateway.c:786-813 | Keeps only the resumable bit; ends the run or counts an attempt |
| SessionCourse.CourseEnds | source/wineberry/discord/winecord-loop.c:73-135 | The course of the nested loops is a legal run and goes on as long as it can: until winecord_run returns, or nothing more comes in, or no preparation is left to try |
| SessionCourse.TurnLeavesIff | source/wineberry/discord/winecord-loop.c:76-122 | A turn of the inner loop takes all that comes in, in order, and leaves the session exactly if that shut it down or the transfers failed |
| Gateway.Client.Run | source/wineberry/discord/winecord-loop.c:65-135 | For anything that comes in and any preparations, what the nested loops do is exactly the course |
| Gateway.PollTime | source/wineberry/discord/winecord-loop.c:78-88 | Polling never lasts beyond an armed timer's trigger, and with free locks is short of the earliest by less than a millisecond |
| Gateway.SleepTime | source/wineberry/discord/winecord-loop.c:92-102 | The sleep that follows is below 1000 us and ends exactly at the earliest trigger |

## Left out

- Endpoint wrappers, embed helpers, JSON codecs, logging, message-command parsing, voice, environment substitution and process-wide initialisation: they would only add easy members.
- `priority_queue`, `anomap`, `chash`, the queues, libcurl, WebSockets, the pollers and the JSON parser are not part of this model: they appear as finite maps, sequences, sorted sets of keys and nondeterministic events.
- The numeric values of flags, HTTP methods and close codes are not part of this model; the codes are constructors, the bits of the session status are 1 and 2 as in `discord-internal.h`.
- Machine widths: clock times, delays and intervals are unbounded, so `delay * 1000` does not wrap around; the attempts of a session and the claims of a resource are unbounded too. Visits have their limit `INT_MAX`, and the bound of the collection its 64 bits.
- Assertions on buffer sizes and on the IDENTIFY rate; of the buffers only the key's is modelled.
- Worker-thread dispatch through `winecord_clone`, which copies the refcounter by value.
- Shutdown cleanup of buckets (`_winecord_bucket_cancel_all`) and requests, and of the cache.
- The date arithmetic of the deprecated `X-Ratelimit-Reset` header: the reset time it yields is an input.
- Spurious wake-ups of a synchronous caller's condition variable.
- The references of kept and adopted data are taken and given back as separate steps of the cache's machine (`Keep`, `Adopt`, `Release`), not by the requests of the REST machine.
- TimerGroup.Timers.Run: other threads call the timer API only between passes, because the single `if` around `pthread_cond_wait` does not keep them out of a pass; callbacks do not change the id in the loop's copy.
- TimerGroup.Timers.Invoke: callbacks do not push when the queue is full, as after `priority_queue_set_max_capacity(0)`.
- Requestor.Client.StartPending: filing and selecting are one step, and the timer queue has room for a wake timer.
- Requestor.Client.WakeCb: the callback and the deletion of its timer are one step of the machine (`RestSteps.WakeKeeps`); the method is the callback alone.
- RestTheorems.CompleteDeque: for the null bucket the queues also change by `RestSelector.NullFilterSplits`.
- RouteKey.BuildKey: arguments that do not fit the format give no key, where the source's behaviour is undefined.
- RouteKey.IdsFromEndpoint: an empty section after `channels` or `guilds`, which no endpoint has, gives the id 0 and is excluded.
- CacheModel.Enabled: callers are balanced and counts stay below `INT_MAX`; arbitrary callers are the subject of `Refcount`.
- Cache.Client.UserCode: user code in a dispatch calls the getters and gives claims back; it begins no requests there.
- Gateway.Client.Run: cut off after a given number of turns of the inner loop, since it need not end; polling, timers and response dispatch are what delivers the events.
