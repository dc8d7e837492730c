# Verified models of a FreeRTOS-based firmware

This project models, in Dafny 4.11, the parts of the firmware that keep state, run
concurrently or transform bytes, and proves what their code and documentation promise. No
part of the firmware itself is compiled or run here. `dafny verify dfyconfig.toml` checks
everything. `Basics` holds the few definitions that several modules share.

## The kernel

**Software timers** (`Ticks`, `SortedList`, `TimerDaemon`, `TimerTask`, `IdealTimers`,
`TimerRefinement`, `TimerRuns`, `TimerAccounting`, `TimerBounds`, `TimerOverflow`,
`TimerStops`). `TimerDaemon` states each function of the timer service task on the values of
its static variables; `TimerTask` is the same code as a class that updates them, with the
source's branches and loops, proved to compute those functions. `IdealTimers` is a service
that knows true, unbounded time and keeps one list of true expiry times. Every step of the
daemon refines a step of that service, hence every run does, and the epoch invariant and the
accounting of callbacks, of auto-reload and of one-shot timers, follow for all runs. What
the environment owes the daemon is written out in `TimerRuns.Admissible`: it runs at least
once per wrap of the tick count, and a command it finds was stamped neither in the future
nor, in a way that shows, more than a wrap ago. For the STARTs that the daemon sends itself
the first half of that is proved (`TimerBounds.OwnStartsAreTimely`), so only commands posted
by others need it. `TimerBounds` also says for how long the daemon blocks and how many free
places in the command queue a switch of the lists needs: one for every auto-reload timer
still in the current list; with fewer a `configASSERT` stops the firmware, and
`TimerOverflow.QueueTooShort` is a run from the first state in which that happens.
`TimerStops` says what a stop, a deletion and a change of period mean for the callbacks that
follow: a stopped timer stays silent unless a START of it is behind the STOP in the queue,
which a daemon that is late can put there itself (`TimerStops.StopTooLate`).

The assumption on posted commands is not met by the code on its own.
`prvProcessReceivedCommands` samples the time once, before it empties its queue, and a
command that is stamped after the sample and taken from the queue in the same loop is
misjudged. `TimerDaemon.DecisionIsExact` gives the exact condition under which the decision
is right, and `TimerDaemon.CommandAfterSample` what happens otherwise: a timer started some
ticks after the sample is processed at once exactly if its period and those ticks fit a wrap
together, so always if it is one tick, and the decision is wrong in either case.
`TimerRuns.StartedTooLateRunsTooEarly` is the run of three steps in which that happens.

**Queues** (`QueueRing`, `QueueLocking`, `QueueSleep`, `QueueCalls`, `RecursiveMutex`). The
byte ring is a class over an array with the source's four offsets and refines a bounded
deque of items. The blocking protocol is a step relation with one step per critical section,
for any number of tasks and for interrupts that send and receive at any moment; its
invariant shows that no wake-up is lost. `QueueSleep` shows that a task that blocks does
sleep, until an event or a time-out, and that messages are neither made nor lost. In
`QueueCalls` the loops of `xQueueGenericSend` and `xQueueGenericReceive`, with
`prvLockQueue` and `prvUnlockQueue`, are proved to be runs of that relation, whatever other
tasks and interrupts do between any two critical sections of the call. Resetting a queue
wakes one sender only; `QueueLocking.ResetCovers` says when that is enough and
`QueueSleep.ResetStrandsASender` gives a run from a new queue after which it is not.
Recursive mutexes are a step relation with one step per unprotected access, and the two
calls are proved to be runs of it whatever other tasks do between the accesses.

**Co-routines** (`ListStore`, `CoRoutines`). A step relation over the ready, delayed,
overflow, pending and event lists, tick by tick and interrupt by interrupt, and a class with
the source's functions whose loops are proved to be runs of it, with interrupts at every
point.

**Lists** (`CircularList`). The doubly linked circular list on the heap, its end marker and
its index. `SortedList` is what its sorted insertion means; the timers and co-routines are
stated in terms of it.

## The byte-level algorithms

**Base64** (`Base64Text`, `Base64Alphabet`, `Base64Stream`, `Base64Output`, `Base64Encoder`,
`Base64Decoder`, `Base64Strings`). One definition of section 4 of RFC 4648; both encoders
and both decoders are imperative and proved against it. Two points where the streaming
decoder differs from its own documentation. A character outside the alphabet does not stop
it at once: a call is refused for the quad of such a character if and only if that quad is
complete and no earlier one was refused (`Base64Stream.ForeignCharacterStops`); what the
documentation says holds of an input exactly if one of its whole quads is refused or it has
no such character in its last, incomplete one (`Base64Stream.DocumentedStopHoldsIf`). And
when no memory is granted, `base64_decode_alloc_ctx` leaves `*outlen` alone: the documented
size stands there exactly if the caller had put it there
(`Base64Decoder.SizeIsReportedOnlyIfThere`, with an input for which it does not in
`Base64Decoder.SizeIsNotReported`).

With a context the decoder also goes on after padding (`Base64Stream.TextsInARow`); without
one it does not, and `Base64Stream.UnitIsStricter` says exactly what is then accepted.

**Checksums** (`CrcTables`, `CrcBursts`, `Crc16`, `Crc32`, `MbCrc` and `CrcParity`). All
three tables are written out and each entry is proved to be eight bitwise steps. The
table-driven and the bitwise forms agree on every start value and message, a frame that ends
in its own checksum leaves zero, and no difference within as many consecutive bits as the
register has goes unseen. The two 16-bit checksums never miss an odd number of wrong bits;
the 32-bit one does (`CrcParity.OddMissed32`).

**Hashes** (`HashBlocks`, `Sha1Rounds`, `Sha1`, `Sha1Vector`, `Sha1Overwrites`, `Md5Rounds`,
`Md5`, `Md5Vector`). The compression functions are proved against section 6.1 of RFC 3174
and section 3.4 of RFC 1321, the contexts against the padded message. What rotations and
mixing functions do is stated for all words, and the digests of "abc" are worked out word by
word and round by round. `SHA1HANDSOFF` is not defined in this build, so `SHA1_Transform`
expands its schedule in the block it is given, which `SHA1_Update` lets be the caller's
constant data: the contract of `Sha1.Context.SHA1Update` says exactly which bytes of the
caller are overwritten and with what. The data survives if and only if every whole block
taken from it is one that its own schedule leaves as it was (`Sha1Overwrites.UntouchedIf`);
that is so whenever fewer than 128 bytes are waiting and new
(`Sha1Overwrites.FewAreUntouched`), and `Sha1Overwrites.SomeDataIsOverwritten` has data for
which it is not.

Integers are unbounded in Dafny; wrap-around is written out with `% WRAP` or by bit-vectors
where the code depends on it. One update call of either hash is asked to keep the bytes
waiting and the new ones together below 2^32. That is exactly the condition under which the
tests of the loop over whole blocks do not wrap (`HashBlocks.TestsWrapUnless`).

## Model

| member | source | states |
|---|---|---|
| Ticks.WrapIsVisible | utilities/FreeRTOSV7.3.0/timers_rtos.c:444-464 | provided time was sampled less than one wrap ago, the visible tick count goes back if and only if it wrapped in between |
| SortedList.InsertKeepsSorted | utilities/FreeRTOSV7.3.0/list.c:128-182 | sorted insertion keeps a list sorted |
| SortedList.InsertIsStable | utilities/FreeRTOSV7.3.0/list.c:128-182 | items of equal value already in the list stay in front of the new one |
| SortedList.RemoveKeepsOrder | utilities/FreeRTOSV7.3.0/list.c:185-206 | removal keeps a list sorted and free of repetition |
| SortedList.RemoveMembers | utilities/FreeRTOSV7.3.0/list.c:185-206 | removal takes out exactly the items of one owner |
| TimerDaemon.DecisionIsModular | utilities/FreeRTOSV7.3.0/timers_rtos.c:467-505 | the two nested comparisons ask for immediate processing if and only if a full period has passed on the wrapping clock |
| TimerDaemon.DecisionIsExact | utilities/FreeRTOSV7.3.0/timers_rtos.c:467-505 | in true time the decision (at once, this epoch, next epoch) is right if and only if the command is not from the future and not a whole wrap old unless that does not show |
| TimerDaemon.CommandAfterSample | utilities/FreeRTOSV7.3.0/timers_rtos.c:508-554 | a command stamped some ticks after the sample and taken before the queue is empty is processed at once if and only if its period and those ticks are at most a wrap; whatever is decided is wrong |
| TimerDaemon.CommandAfterSampleFiresAtOnce | utilities/FreeRTOSV7.3.0/timers_rtos.c:517-554 | so one tick after the sample a timer of any period is processed at once, wrongly, whether or not the tick count wraps on the way |
| TimerDaemon.ChangePeriodNeverImmediate | utilities/FreeRTOSV7.3.0/timers_rtos.c:556-566 | the result that CHANGE_PERIOD ignores is always false |
| TimerDaemon.DrainStep | utilities/FreeRTOSV7.3.0/timers_rtos.c:595-630 | each turn of the drain loop, reinsertion included, lowers the summed distance of the list to the wrap, so the loop ends |
| TimerDaemon.DrainCurrentList | utilities/FreeRTOSV7.3.0/timers_rtos.c:595-630 | the drain loop terminates with an empty current list |
| TimerTask.ReceiveLightens | utilities/FreeRTOSV7.3.0/timers_rtos.c:519-577 | every command taken from the queue, with the START it may send to itself, lowers a weight, so the receive loop ends although it feeds its own queue |
| TimerTask.ReceiveAllIsARun | utilities/FreeRTOSV7.3.0/timers_rtos.c:508-578 | the receive loop is a run of single commands, so what holds of runs holds of it |
| TimerTask.TimerService.InsertTimerInActiveList | utilities/FreeRTOSV7.3.0/timers_rtos.c:467-505 | the branches compute the specified decision and new lists |
| TimerTask.TimerService.ProcessExpiredTimer | utilities/FreeRTOSV7.3.0/timers_rtos.c:309-342 | computes the specified new state |
| TimerTask.TimerService.SwitchTimerLists | utilities/FreeRTOSV7.3.0/timers_rtos.c:581-635 | the in-place loop and swap compute the specified new state, and terminate |
| TimerTask.TimerService.SampleTimeNow | utilities/FreeRTOSV7.3.0/timers_rtos.c:444-464 | switches the lists exactly when the tick count went back |
| TimerTask.TimerService.GetNextExpireTime | utilities/FreeRTOSV7.3.0/timers_rtos.c:418-441 | the head of the current list, or zero if it is empty |
| TimerTask.TimerService.ProcessTimerOrBlock | utilities/FreeRTOSV7.3.0/timers_rtos.c:369-415 | one turn of the task up to where it blocks, and the time it then blocks for, if it does |
| TimerTask.TimerService.ReceiveCommand | utilities/FreeRTOSV7.3.0/timers_rtos.c:521-576 | one turn of the command loop, commands without a timer and unknown command numbers included |
| TimerTask.TimerService.ProcessReceivedCommands | utilities/FreeRTOSV7.3.0/timers_rtos.c:508-578 | empties the command queue, self-sent STARTs included |
| TimerTask.TimerService.constructor | utilities/FreeRTOSV7.3.0/timers_rtos.c:638-655 | the state before the first tick |
| TimerRefinement.InsertTimerRefines | utilities/FreeRTOSV7.3.0/timers_rtos.c:467-505 | for a timely command the code's decision and list are those of the service that knows true time |
| TimerRefinement.ExpiredTimerRefines | utilities/FreeRTOSV7.3.0/timers_rtos.c:309-342 | processing the head of the current list is what the ideal service does with its earliest timer |
| TimerRefinement.ReloadInEpoch | utilities/FreeRTOSV7.3.0/timers_rtos.c:616-623 | the reload test asks exactly whether the next expiry falls in the same tick epoch |
| TimerRefinement.DrainRefines | utilities/FreeRTOSV7.3.0/timers_rtos.c:595-630 | the drain loop runs, in order, everything due before the wrap and nothing else |
| TimerRefinement.SampleRefines | utilities/FreeRTOSV7.3.0/timers_rtos.c:444-464 | sampling the clock, with or without a switch of lists, re-establishes the relation for the new epoch |
| TimerRefinement.WakeRefines | utilities/FreeRTOSV7.3.0/timers_rtos.c:369-415 | one turn of the task refines one turn of the ideal service |
| TimerRefinement.ReceiveRefines | utilities/FreeRTOSV7.3.0/timers_rtos.c:521-576 | each command refines the ideal service's answer to it |
| TimerRuns.StepRefines | utilities/FreeRTOSV7.3.0/timers_rtos.c:345-366 | every step of the daemon refines the corresponding ideal step |
| TimerRuns.RunRefines | utilities/FreeRTOSV7.3.0/timers_rtos.c:345-366 | over every admissible run the code calls the same callbacks in the same order as the ideal service |
| TimerRuns.EpochInvariantAlways | utilities/FreeRTOSV7.3.0/timers_rtos.c:345-366 | in every reachable state the current list holds exactly the listed timers of the present epoch and the overflow list those of the next, each with its true expiry modulo the wrap, both sorted, no timer twice |
| TimerRuns.StartedTooLateRunsTooEarly | utilities/FreeRTOSV7.3.0/timers_rtos.c:508-554 | a run of the daemon, from its first state, that starts a timer some ticks after the sample: the callback is called in the same loop, a whole period early, exactly if the period and those ticks fit a wrap, for one tick always; the run is not admissible |
| TimerAccounting.RunAccounted | utilities/FreeRTOSV7.3.0/timers_rtos.c:345-366 | over every run without other commands for it, an auto-reload timer has run n times with its n-th expiry in the past, and is listed for the next one or has exactly one START on its way |
| TimerAccounting.DrainedMeansFloor | utilities/FreeRTOSV7.3.0/timers_rtos.c:322-342 | with no work left the number of runs is the elapsed time divided by the period, rounded down |
| TimerAccounting.AutoReloadAccounting | utilities/FreeRTOSV7.3.0/timers_rtos.c:322-341 | for the code: started at C with period P, once drained at N, exactly floor((N-C)/P) callbacks and the next expiry listed, over any mix of reinsertion, self-sent START and list switch |
| TimerAccounting.OneShotAccounting | utilities/FreeRTOSV7.3.0/timers_rtos.c:309-342 | for the code: a one-shot timer started at C with period P runs at most once in any run, never before C+P; once drained at N it has run exactly if N has reached C+P and is otherwise listed for it |
| TimerAccounting.TurnByTurn | utilities/FreeRTOSV7.3.0/timers_rtos.c:595-630 | how many turns of a period fit before the wrap, one turn at a time |
| TimerAccounting.SwitchCounts | utilities/FreeRTOSV7.3.0/timers_rtos.c:595-630 | in one switch an auto-reload timer listed at e runs floor((2^32-1-e)/P)+1 times and one START, stamped with its last turn, is sent for it; a one-shot timer runs once; others not at all |
| TimerBounds.BlocksUntilDue | utilities/FreeRTOSV7.3.0/timers_rtos.c:385-398 | the daemon blocks exactly if nothing is due and no command is waiting, and its block time, in true time, ends exactly when the first timer expires or the tick count wraps; it is zero only at tick zero with nothing in the current list |
| TimerBounds.OwnStartsAreTimely | utilities/FreeRTOSV7.3.0/timers_rtos.c:309-342 | in every reachable state a START in the queue that nobody posted is not from the future, so it is judged rightly unless it is, in a way that shows, more than a wrap old |
| TimerBounds.SwitchNeeds | utilities/FreeRTOSV7.3.0/timers_rtos.c:594-630 | with a queue of bounded length the switch gets through, with the same result, if and only if there is one free place for every auto-reload timer in the current list, however often each runs; that many messages are sent |
| TimerBounds.ElevenAreTooMany | sources/config/FreeRTOSConfig.h:119 | with the queue length of this build eleven such timers are one too many |
| TimerOverflow.QueueTooShort | utilities/FreeRTOSV7.3.0/timers_rtos.c:594-630 | an admissible run from the first state, with an empty command queue, after which a sample of the wrapped tick count stops the firmware: eleven auto-reload timers are still in the current list |
| TimerStops.StoppedForGood | utilities/FreeRTOSV7.3.0/timers_rtos.c:519-577 | over every admissible run of the code: once a STOP or DELETE of a timer has been taken, with no START or CHANGE_PERIOD of it behind it or posted later, its callback is not called again |
| TimerStops.StopIsUndone | utilities/FreeRTOSV7.3.0/timers_rtos.c:521-554 | with a START of the timer right behind it the stop is undone: the timer is listed or runs |
| TimerStops.StopTooLate | utilities/FreeRTOSV7.3.0/timers_rtos.c:309-342 | an admissible run from the first state in which the daemon, one period late, puts a START behind a STOP, and the callback is called after the STOP was taken |
| TimerStops.PeriodCountsFromNow | utilities/FreeRTOSV7.3.0/timers_rtos.c:558-566 | over every admissible run of the code: a CHANGE_PERIOD to P taken at N lists the timer for N+P; its callback is not called before that, and with nothing left to do it has been called floor((now-N)/P) times, or once at most for a one-shot timer |
| CircularList.InsertedIsLast | utilities/FreeRTOSV7.3.0/list.c:105-125 | an item inserted at the end is the last one reached when walking on from the index |
| CircularList.RemovedFromWalk | utilities/FreeRTOSV7.3.0/list.c:185-206 | removal takes the item out of the walk and keeps the order of the others, index included |
| CircularList.NextRotates | utilities/FreeRTOSV7.3.0/include/list.h:214-226 | taking the next entry hands out the head of the walk and puts it last |
| CircularList.EqualShares | utilities/FreeRTOSV7.3.0/include/list.h:214-226 | over a full turn every entry is handed out exactly once |
| CircularList.Spliced | utilities/FreeRTOSV7.3.0/list.c:105-125 | the four pointer writes of an insertion keep next and previous mutually inverse all round the ring |
| CircularList.Unlinked | utilities/FreeRTOSV7.3.0/list.c:185-206 | so do the two writes of a removal |
| CircularList.ContentsInserted | utilities/FreeRTOSV7.3.0/list.c:128-182 | linking behind the item found is sorted, stable insertion |
| CircularList.List.constructor | utilities/FreeRTOSV7.3.0/list.c:78-95 | an empty ring of the end marker |
| CircularList.List.InsertEnd | utilities/FreeRTOSV7.3.0/list.c:105-125 | the ring gains the item right behind the index, which moves onto it; counts and containers follow |
| CircularList.List.Seek | utilities/FreeRTOSV7.3.0/list.c:132-168 | the search ends, also for the largest value, at the last item not larger |
| CircularList.List.Insert | utilities/FreeRTOSV7.3.0/list.c:128-182 | the contents become the sorted, stable insertion of the item |
| CircularList.List.GetOwnerOfNextEntry | utilities/FreeRTOSV7.3.0/include/list.h:214-226 | skips the end marker and moves the index |
| CircularList.List.Remove | utilities/FreeRTOSV7.3.0/list.c:185-206 | the item leaves the ring it remembers, an index on it moves back, the new count is returned |
| QueueRing.SlotsApart | utilities/FreeRTOSV7.3.0/queue.c:1238-1274 | different slots of the storage do not overlap |
| QueueRing.WriteBack | utilities/FreeRTOSV7.3.0/queue.c:1253-1261 | writing the slot at pcWriteTo appends an item and overwrites none that is unread |
| QueueRing.WriteFront | utilities/FreeRTOSV7.3.0/queue.c:1262-1270 | writing the slot at pcReadFrom and stepping back prepends an item |
| QueueRing.ReadFront | utilities/FreeRTOSV7.3.0/queue.c:1276-1288 | the slot after pcReadFrom is the first item, and passing it leaves the others |
| QueueRing.StepForward | utilities/FreeRTOSV7.3.0/queue.c:1255-1261 | the wrap test on byte offsets is the next slot modulo the length |
| QueueRing.StepBackward | utilities/FreeRTOSV7.3.0/queue.c:1266-1270 | and the one downwards the slot before |
| QueueRing.MoveBoth | utilities/FreeRTOSV7.3.0/queue.c:1238-1274 | the write slot stays messages + 1 slots after the read slot, modulo the length, whichever end moves |
| QueueRing.Queue.constructor | utilities/FreeRTOSV7.3.0/queue.c:324-373 | an empty queue |
| QueueRing.Queue.Reset | utilities/FreeRTOSV7.3.0/queue.c:287-290 | the storage pointers and the count of an empty queue |
| QueueRing.Queue.CopyDataToQueue | utilities/FreeRTOSV7.3.0/queue.c:1238-1274 | the contents gain the item at the back or at the front |
| QueueRing.Queue.CopyDataFromQueue | utilities/FreeRTOSV7.3.0/queue.c:1276-1288 | gives the first item and moves past it |
| QueueRing.Queue.Send | utilities/FreeRTOSV7.3.0/queue.c:590-620 | succeeds exactly if the queue is not full, and then appends or prepends |
| QueueRing.Queue.Receive | utilities/FreeRTOSV7.3.0/queue.c:984-1041 | succeeds exactly if the queue is not empty; a peek leaves the contents as they were |
| QueueRing.Queue.ReceiveFromISR | utilities/FreeRTOSV7.3.0/queue.c:1114-1168 | takes the first item if there is one |
| QueueLocking.AttemptKeeps | utilities/FreeRTOSV7.3.0/queue.c:590-640 | a successful send, receive or peek wakes enough waiters |
| QueueLocking.PlaceKeeps | utilities/FreeRTOSV7.3.0/queue.c:651-672 | a task that goes to sleep after testing the locked queue misses nothing |
| QueueLocking.UnlockTxKeeps | utilities/FreeRTOSV7.3.0/queue.c:1290-1325 | the first half of unlocking hands out the noted wake-ups |
| QueueLocking.UnlockRxKeeps | utilities/FreeRTOSV7.3.0/queue.c:1328-1350 | so does the second half |
| QueueLocking.IsrSendKeeps | utilities/FreeRTOSV7.3.0/queue.c:906-962 | a send from an interrupt wakes a receiver, or notes it while the queue is locked |
| QueueLocking.IsrReceiveKeeps | utilities/FreeRTOSV7.3.0/queue.c:1114-1168 | the same for a receive from an interrupt and senders |
| QueueLocking.StepKeeps | utilities/FreeRTOSV7.3.0/queue.c:261-274 | every step of any task or interrupt keeps the invariant |
| QueueLocking.NoLostWakeUp | utilities/FreeRTOSV7.3.0/queue.c:579-695 | in every interleaving, while a task waits to receive, the messages are at most the woken receivers that have not run plus the positive part of xTxLock; likewise free slots, senders and xRxLock |
| QueueLocking.NobodyStranded | utilities/FreeRTOSV7.3.0/queue.c:965-1111 | with the queue unlocked and no woken task pending, a task waits to receive only if the queue is empty and to send only if it is full |
| QueueLocking.FrontWakes | utilities/FreeRTOSV7.3.0/queue.c:1300-1318 | taking tasks off the front of an event list is a wake-up the step relation allows |
| QueueSleep.PlacedStaysListed | utilities/FreeRTOSV7.3.0/queue.c:651-672 | from its placing on a task is on the event list of its operation, or was woken from it, until its own next attempt or its time-out |
| QueueSleep.SleepsUntil | utilities/FreeRTOSV7.3.0/queue.c:651-672 | a task on an event list makes no attempt before an event takes it off the list or its block time is over |
| QueueSleep.TimeOutFrees | utilities/FreeRTOSV7.3.0/queue.c:646-694 | a time-out takes a task off the lists and lets it try again |
| QueueSleep.FallsAsleep | utilities/FreeRTOSV7.3.0/queue.c:965-1111 | a task for whose operation there is nothing takes eight steps, if nobody interferes, and is then on the event list of its operation, at the head of its loop |
| QueueSleep.ReceiverSleepsAndWakes | utilities/FreeRTOSV7.3.0/queue.c:906-962 | a run from a new queue: a task receives and sleeps, an interrupt sends, which wakes it and nobody else, and it receives the message |
| QueueSleep.MessagesAreConserved | utilities/FreeRTOSV7.3.0/queue.c:590-620 | in every interleaving the number of messages is the initial one plus the successful sends minus the successful receives |
| QueueCalls.EventQueue.LockQueue | utilities/FreeRTOSV7.3.0/queue.c:261-274 | takes the step of the relation in which a task enters the locked section: lock counts that are unlocked become zero, others stay, and all else is as that step says |
| QueueCalls.EventQueue.UnlockTxSection | utilities/FreeRTOSV7.3.0/queue.c:1290-1325 | takes the step of the relation that unlocks and wakes receivers, an enabled one; those woken are the first of the list, as many as were noted or wait |
| QueueCalls.EventQueue.UnlockRxSection | utilities/FreeRTOSV7.3.0/queue.c:1328-1350 | the same for senders |
| QueueCalls.EventQueue.Reset | utilities/FreeRTOSV7.3.0/queue.c:291-315 | both lock counts unlocked and the first waiting sender readied; for a new queue the event lists are emptied |
| QueueLocking.ResetCovers | utilities/FreeRTOSV7.3.0/queue.c:294-309 | after a reset receivers miss nothing; senders miss nothing if and only if at most one waited or the senders already woken and this one are as many as the free slots |
| QueueSleep.ResetStrandsASender | utilities/FreeRTOSV7.3.0/queue.c:294-309 | a run from a new queue that interrupts fill and on which two tasks then go to sleep sending: after its reset one of them still waits although there is room |
| QueueCalls.EventQueue.constructor | utilities/FreeRTOSV7.3.0/queue.c:324-373 | the initial state of the relation, empty |
| QueueCalls.OthersStay | utilities/FreeRTOSV7.3.0/queue.c:646-665 | what other tasks and interrupts do never changes where a task is in its call, nor the locked section it holds |
| QueueCalls.EventQueue.TrySend | utilities/FreeRTOSV7.3.0/queue.c:590-640 | the first critical section takes the step of an attempt, waking the first waiting receiver; it succeeds exactly if the queue is not full |
| QueueCalls.EventQueue.TryReceive | utilities/FreeRTOSV7.3.0/queue.c:984-1052 | the same for a receive or a peek: the first waiting sender, or after a peek the next receiver, is woken |
| QueueCalls.EventQueue.Block | utilities/FreeRTOSV7.3.0/queue.c:648-694 | from suspending to resuming the scheduler the steps of the relation are taken, in order, with others in between; the call ends exactly if the block time is over; undisturbed and with nothing there the task is placed on the event list |
| QueueCalls.EventQueue.GenericSend | utilities/FreeRTOSV7.3.0/queue.c:579-695 | the whole loop is a run of the relation, for any behaviour of others: a call that passes has made exactly one successful attempt, one that fails none, and one that may block fails only if its block time is over; undisturbed on a full queue the caller ends up asleep on xTasksWaitingToSend |
| QueueCalls.EventQueue.GenericReceive | utilities/FreeRTOSV7.3.0/queue.c:965-1111 | the same for receive and peek; undisturbed on an empty queue the caller ends up asleep on xTasksWaitingToReceive |
| RecursiveMutex.MutexInvariant | utilities/FreeRTOSV7.3.0/queue.c:466-548 | in every interleaving there is one token, in the queue or with the holder; between calls a task is the holder exactly if it has taken more often than given, and the call count is the difference |
| RecursiveMutex.MutualExclusion | utilities/FreeRTOSV7.3.0/queue.c:515-548 | no two tasks have it at once |
| RecursiveMutex.OnlyTheHolderGives | utilities/FreeRTOSV7.3.0/queue.c:466-508 | the give of another task fails and changes nothing |
| RecursiveMutex.OnlyTheOutermostReleases | utilities/FreeRTOSV7.3.0/queue.c:482-497 | a give releases exactly if it is the outermost one, and the release then takes effect |
| RecursiveMutex.OthersDoNotInterfere | utilities/FreeRTOSV7.3.0/queue.c:470-478 | no run of other tasks changes how deep a task is, whether it is the holder, or the call count of the holder: the tests need no critical section |
| RecursiveMutex.Mutex.constructor | utilities/FreeRTOSV7.3.0/queue.c:377-429 | created free, with the token in |
| RecursiveMutex.Mutex.TakeMutexRecursive | utilities/FreeRTOSV7.3.0/queue.c:515-548 | is the run of its steps, whatever other tasks do while it waits and before it counts; passes exactly if the caller holds the mutex already or gets the token before the block time is over; then the caller is the holder, one level deeper |
| RecursiveMutex.Mutex.GiveMutexRecursive | utilities/FreeRTOSV7.3.0/queue.c:466-508 | is the run of its steps, whatever other tasks do meanwhile; passes exactly for the holder, one level up, and frees the mutex at the outermost |
| CoRoutines.StepKeeps | utilities/FreeRTOSV7.3.0/croutine.c:316-343 | every step of a task, a tick or an interrupt keeps the invariant |
| CoRoutines.ListsConsistent | utilities/FreeRTOSV7.3.0/croutine.c:105-112 | the generic item is in exactly one of ready, delayed and overflow lists, the event item in at most one event or pending list, and then the co-routine is delayed |
| CoRoutines.DelaysAreExact | utilities/FreeRTOSV7.3.0/croutine.c:258-313 | a delay ends at exactly its tick, across the wrap, and no tick is counted past anybody's time |
| CoRoutines.DelayedUntil | utilities/FreeRTOSV7.3.0/croutine.c:197-232 | a delay of n ticks asked for at t is listed for t + n |
| CoRoutines.SwapFindsEmptyList | utilities/FreeRTOSV7.3.0/croutine.c:266-278 | the delayed list is empty whenever the lists are exchanged |
| CoRoutines.RunsHighestPriority | utilities/FreeRTOSV7.3.0/croutine.c:324-343 | the scheduler runs a co-routine exactly if one is ready, one of the highest ready priority, and puts it behind its peers |
| CoRoutines.NotifiesHighestPriority | utilities/FreeRTOSV7.3.0/croutine.c:366-388 | an event readies a waiting co-routine of the highest priority |
| CoRoutines.EveryRun | utilities/FreeRTOSV7.3.0/croutine.c:316-343 | all of it in every reachable state |
| CoRoutines.Scheduler.constructor | utilities/FreeRTOSV7.3.0/croutine.c:346-363 | empty lists |
| CoRoutines.Scheduler.CoRoutineCreate | utilities/FreeRTOSV7.3.0/croutine.c:140-194 | is the creation step |
| CoRoutines.Scheduler.CoRoutineAddToDelayedList | utilities/FreeRTOSV7.3.0/croutine.c:197-232 | is the delay step |
| CoRoutines.Scheduler.CoRoutineRemoveFromEventList | utilities/FreeRTOSV7.3.0/croutine.c:366-388 | is the notification step, and its result tells whether a higher priority was readied |
| CoRoutines.Scheduler.Interrupts | utilities/FreeRTOSV7.3.0/croutine.c:366-388 | any number of events signalled at one point of a call are steps of the relation and make or lose no event item |
| CoRoutines.Scheduler.CheckPendingReadyList | utilities/FreeRTOSV7.3.0/croutine.c:235-255 | its loop is a run of steps, with interrupts at every point, that ends with the pending list empty |
| CoRoutines.Scheduler.CheckDelayedList | utilities/FreeRTOSV7.3.0/croutine.c:258-313 | its loops are a run of steps, with interrupts at every point, that counts up to the tick count sampled |
| CoRoutines.Scheduler.CoRoutineSchedule | utilities/FreeRTOSV7.3.0/croutine.c:316-343 | a call, up to the co-routine it chooses and with interrupts at every point, is a run of steps that keeps the invariant |
| CrcTables.Crc16Entry | utilities/crc.c:19-52 | each entry of crc16_table is eight bitwise steps of its index |
| CrcTables.Crc32Entry | utilities/crc.c:54-120 | each entry of crc32_table likewise |
| CrcTables.MbEntry | sources/mbcrc.c:3-36 | each entry of the Modbus table likewise, shifting down |
| CrcBursts.BurstSeen | utilities/crc.c:122-184 | for any register that feeds bits linearly and marks every nonzero burst of its width: different bits within that width leave different registers, whatever comes before and after |
| CrcParity.Crc16Parity | utilities/crc.c:122-128 | the parity of the checksum is that of the bits of the message and of the start value together |
| CrcParity.MbParity | sources/mbcrc.c:42-43 | the same for the Modbus register |
| CrcParity.OddDetected16 | utilities/crc.c:122-128 | messages of equal length that differ in an odd number of bits, anywhere, never share a checksum |
| CrcParity.OddDetectedMb | sources/mbcrc.c:38-48 | the same for the Modbus checksum |
| CrcParity.OddMissed32 | utilities/crc.c:153-158 | fifteen wrong bits within 33 that the 32-bit checksum does not see |
| Crc16.FastCrc16 | utilities/crc.c:122-128 | the loop computes the table form |
| Crc16.SlowCrc16 | utilities/crc.c:131-151 | the loops compute the bitwise form |
| Crc16.SlowEqualsFast | utilities/crc.c:122-151 | bitwise over the message and two zero bytes is table-driven over the message, from the bitwise value of those zeros |
| Crc16.Residue | utilities/crc.c:122-128 | two further bytes make the checksum zero if and only if they are the checksum, high byte first |
| Crc16.FedMessage | utilities/crc.c:122-128 | the table form is the bits of the message fed one by one, highest bit first |
| Crc16.BurstDetected | utilities/crc.c:122-128 | messages of equal length that differ only within 16 consecutive bits never share a checksum |
| Crc32.FastCrc32 | utilities/crc.c:153-158 | the loop computes the table form |
| Crc32.SlowCrc32 | utilities/crc.c:165-184 | the loops compute the bitwise form |
| Crc32.SetCrc32InitValue | utilities/crc.c:186-203 | the converted start value |
| Crc32.InitIsPush | utilities/crc.c:186-203 | the conversion, its special case for zero included, pushes the start value through 32 bitwise steps |
| Crc32.SlowEqualsFast | utilities/crc.c:153-203 | bitwise over the message and four zero bytes is table-driven over the message from the converted start value |
| Crc32.Residue | utilities/crc.c:153-158 | four further bytes make the checksum zero if and only if they are the checksum, high byte first |
| Crc32.FedMessage | utilities/crc.c:153-158 | the table form is the bits of the message fed one by one, highest bit first |
| Crc32.BurstDetected | utilities/crc.c:153-158 | messages of equal length that differ only within 32 consecutive bits never share a checksum |
| MbCrc.ModbusCrc | sources/mbcrc.c:38-48 | the loop and the exchange of bytes compute the checksum, for every length for which the loop ends |
| MbCrc.NeverEnds | sources/mbcrc.c:40-42 | and those are all: above 65535 every value of the 16-bit index passes the test, and so does the next |
| MbCrc.LeadingZeroIsSeen | sources/mbcrc.c:40-43 | a zero byte in front of any message changes the returned value, which a register that starts at zero would not notice |
| MbCrc.NoBytes | sources/mbcrc.c:38-48 | no bytes give FFFF |
| MbCrc.TwoByteFrame | sources/mbcrc.c:38-48 | 02 07 gives 4112, bytes exchanged |
| MbCrc.SixByteFrame | sources/mbcrc.c:38-48 | 01 03 00 00 00 0A gives C5CD |
| MbCrc.Residue | sources/mbcrc.c:38-48 | two further bytes make the checksum zero if and only if they are the returned value, high byte first |
| MbCrc.FedMessage | sources/mbcrc.c:42-43 | the table form is the bits fed one by one, lowest bit first |
| MbCrc.BurstDetected | sources/mbcrc.c:38-48 | messages of equal length that differ only within 16 consecutive bits never share a checksum |
| Base64Text.SixOfChar | sources/httpd/base64.c:62-63 | decoding table after encoding table gives the value back |
| Base64Text.CharOfSix | sources/httpd/base64.c:183-317 | and the other way round for every character of the alphabet |
| Base64Alphabet.Alphabet | sources/httpd/base64.c:62-63 | the sixty-four values and their characters, one by one, as table 1 of RFC 4648 has them |
| Base64Alphabet.ValueOf | sources/httpd/base64.c:183-317 | and backwards: a character has the value that table gives it |
| Base64Alphabet.OnlyThese | utilities/base64.c:88-106 | the characters accepted are those of the table and no others |
| Base64Alphabet.GroupAt | sources/httpd/base64.c:68-81 | for any bytes, the four characters in place of each three, from their quotients and remainders |
| Base64Alphabet.OneByte | sources/httpd/base64.c:106-131 | the characters and padding of a last byte alone |
| Base64Alphabet.TwoBytes | sources/httpd/base64.c:106-131 | and of two |
| Base64Alphabet.EncodedInTwo | sources/httpd/base64.c:106-131 | whole groups do not touch what follows them |
| Base64Alphabet.BytesAre | sources/httpd/base64.c:410-460 | for any four values the three bytes they stand for, by quotient and remainder |
| Base64Alphabet.TextOfFoobar | sources/httpd/base64.c:88-133 | "foobar" is Zm9vYmFy, one of the test vectors in section 10 of RFC 4648 |
| Base64Alphabet.TextOfOnes | sources/httpd/base64.c:62-63 | FF FF FF is ////, FB EF BE is ++++ |
| Base64Text.EncodedLength | sources/httpd/base64.c:88-133 | the length of the text is BASE64_LENGTH |
| Base64Text.QuadsOfText | sources/httpd/base64.c:403-467 | the text of x in front of any input decodes to x in front of what the input gives |
| Base64Text.RoundTrip | sources/httpd/base64.c:488-565 | decoding the text of x gives x with nothing pending |
| Base64Text.UnitRoundTrip | sources/httpd/base64.c:488-565 | also without a context |
| Base64Stream.QuadsAppend | sources/httpd/base64.c:488-565 | decoding can stop anywhere and continue from the pending characters |
| Base64Stream.ChunksDoNotMatter | sources/httpd/base64.c:488-565 | for any nonempty chunks the bytes, the verdict and what is pending are those of the whole input without newlines |
| Base64Stream.AnyTwoSplitsAgree | sources/httpd/base64.c:488-565 | two ways of cutting the same input, newlines anywhere, give the same |
| Base64Stream.FlushAtTheEnd | sources/httpd/base64.c:500-508 | a final flush succeeds exactly if the chunks did and the number of characters is a multiple of four |
| Base64Stream.StreamRoundTrip | sources/httpd/base64.c:488-565 | any text of x with newlines anywhere, in any chunks, gives x |
| Base64Stream.CallBound | sources/httpd/base64.c:583-588 | a call never gives more bytes than the buffer the allocating wrapper asks for |
| Base64Stream.TextsInARow | sources/httpd/base64.c:488-565 | with a context texts may follow each other, padding and all |
| Base64Stream.UnitIsStricter | sources/httpd/base64.c:485-486 | without a context input is accepted exactly if a stream would accept it, nothing is left over and padding is last |
| Base64Stream.FailsOnWholeQuads | sources/httpd/base64.c:475-477 | a call fails if and only if there is a quad at which it is refused: a whole one that is invalid with none before it |
| Base64Stream.ForeignCharacterStops | sources/httpd/base64.c:475-477 | a call is refused at the quad of a foreign character if and only if that quad is complete and all before it are accepted |
| Base64Stream.DocumentedStopHoldsIf | sources/httpd/base64.c:475-477 | that a foreign character makes a call fail holds of exactly those inputs of which a whole quad is refused or which have none in their last, incomplete quad |
| Base64Stream.ForeignCharacterIsNotSeenAtOnce | sources/httpd/base64.c:475-477 | the input for which it does not hold: an asterisk alone is accepted and kept, and refused at the flush or with three more characters |
| Base64Encoder.Base64EncodeFast | sources/httpd/base64.c:68-81 | the buffer starts with the text, the rest is untouched |
| Base64Encoder.Base64Encode | sources/httpd/base64.c:88-133 | the prefix of the text that fits, and a zero exactly if there is room for it; the fast path agrees |
| Base64Encoder.FitsText | sources/httpd/base64.c:99-103 | the fast path is taken exactly if the input is whole groups and the buffer their exact size |
| Base64Encoder.OverflowIsSeen | sources/httpd/base64.c:148-161 | the check fires if and only if 1 + BASE64_LENGTH does not fit 32 bits |
| Base64Encoder.Base64EncodeAlloc | sources/httpd/base64.c:145-174 | the whole text and its zero, or the documented failure |
| Base64Decoder.Context.Base64DecodeCtxInit | sources/httpd/base64.c:336-339 | nothing pending |
| Base64Decoder.Context.Get4 | sources/httpd/base64.c:349-386 | the next four non-newline characters, in place or gathered, or all there are kept for later |
| Base64Decoder.Decode4 | sources/httpd/base64.c:403-467 | the verdict on a quad and exactly the bytes in order, as many as fit, even on failure |
| Base64Decoder.Base64DecodeCtx | sources/httpd/base64.c:488-565 | with a context the specified call on the pending characters; without one the specified unit; output truncated to the space and nothing beyond it touched |
| Base64Decoder.Base64DecodeAllocCtx | sources/httpd/base64.c:579-605 | the whole output in a new buffer, never truncated; the size only on success, otherwise *outlen is left as it was; no memory means a null result that says yes |
| Base64Decoder.SizeIsReportedOnlyIfThere | sources/httpd/base64.c:567-592 | with no memory granted the documented size stands in *outlen if and only if the caller had put it there |
| Base64Decoder.SizeIsNotReported | sources/httpd/base64.c:567-592 | eight characters and a zero in *outlen: the call says yes and leaves the zero instead of nine |
| Base64Strings.Base64EncodeLen | utilities/base64.c:174-177 | the length of every text of that many bytes, with its zero |
| Base64Strings.EncodeLenFits | utilities/base64.c:174-177 | the length fits an int if and only if there are at most 1610612733 bytes |
| Base64Strings.Base64Encode | utilities/base64.c:179-209 | the same text as the other encoder and a zero, whether char is signed or not |
| Base64Strings.Base64DecodeLen | utilities/base64.c:111-124 | the bytes, a zero and at most three more |
| Base64Strings.Base64Decode | utilities/base64.c:126-169 | exactly what a stream and a flush give for the characters before the first foreign one, and a zero |
| Base64Strings.LooseLength | utilities/base64.c:135-168 | the returned count is three quarters of the characters, rounded down |
| Base64Strings.StringRoundTrip | utilities/base64.c:126-209 | decoding an encoded string gives the bytes back, whatever follows it in memory |
| HashBlocks.AbsorbMore | utilities/md5.c:115-153 | more of a message continues from the state and the waiting bytes |
| HashBlocks.AnySplit | utilities/md5.c:115-153 | however a message is split, state and waiting bytes are those of the whole |
| HashBlocks.CountMore | sources/httpd/sha1.c:209-211 | with the carry and the high bits the two words stay 8 times the length modulo 2^64 |
| HashBlocks.CountIndex | utilities/md5.c:122-123 | the place in the buffer read off the low word is the length modulo 64 |
| HashBlocks.TestsWrapUnless | sources/httpd/sha1.c:215 | no test of the loop over whole blocks wraps if and only if the bytes waiting and the new ones are fewer than 2^32 |
| HashBlocks.WrappedTests | sources/httpd/sha1.c:213-215 | otherwise the loop goes on with no whole block left, and the test before it fails with whole blocks there |
| HashBlocks.Padding | utilities/md5.c:168-175 | a padded message ends on a block boundary, with 9 to 72 bytes added |
| HashBlocks.GapIsLeast | sources/httpd/sha1.c:240-242 | no shorter padding would do |
| HashBlocks.PaddedIsWhole | utilities/md5.c:168-175 | after padding nothing waits |
| Sha1Rounds.SwappedIs | sources/httpd/sha1.c:101-102 | the two masked rotations read a word high byte first |
| Sha1Rounds.ScheduleMoves | sources/httpd/sha1.c:104-105 | writing one word in place moves the schedule on by one round |
| Sha1Rounds.ScheduleHolds | sources/httpd/sha1.c:104-105 | the sixteen places hold the last sixteen words, at the masked indices the code uses |
| Sha1Rounds.CodeForms | sources/httpd/sha1.c:108-111 | the rewritten choice and majority are the ones of the standard |
| Sha1Vector.Rol1IsArithmetic | sources/httpd/sha1.c:93 | for every word, rotating by one doubles it and adds the bit lost at the top |
| Sha1Vector.Rol5IsArithmetic | sources/httpd/sha1.c:93 | the same by five |
| Sha1Vector.Rol30IsArithmetic | sources/httpd/sha1.c:93 | the same by thirty |
| Sha1Vector.Chooses | sources/httpd/sha1.c:108 | where the first word has ones the choice is the second, elsewhere the third |
| Sha1Vector.Parities | sources/httpd/sha1.c:110 | where two words agree the parity is the third, elsewhere its opposite |
| Sha1Vector.Outvotes | sources/httpd/sha1.c:111 | where two words agree they are the majority, elsewhere the third decides |
| Sha1Rounds.R0 | sources/httpd/sha1.c:108 | one line is one round of the definition with the roles turned by one |
| Sha1Rounds.R1 | sources/httpd/sha1.c:109 | the same from round 16 |
| Sha1Rounds.R2 | sources/httpd/sha1.c:110 | the same from round 20 |
| Sha1Rounds.R3 | sources/httpd/sha1.c:111 | the same from round 40 |
| Sha1Rounds.R4 | sources/httpd/sha1.c:112 | the same from round 60 |
| Sha1Rounds.EightyRounds | sources/httpd/sha1.c:152-172 | the unrolled lines are the eighty rounds over eighty words, and leave the last sixteen words in the block |
| Sha1.SHA1Transform | sources/httpd/sha1.c:129-184 | the new state is that of section 6.1 of RFC 3174, and the block holds the last sixteen words of the schedule |
| Sha1.Context.SHA1Init | sources/httpd/sha1.c:188-197 | the empty message |
| Sha1.Context.SHA1Update | sources/httpd/sha1.c:201-226 | the context stands for the message so far with the data behind it; the caller's whole blocks are overwritten, the rest is not |
| Sha1.Context.SHA1Final | sources/httpd/sha1.c:230-259 | the digest of the padded message; the context is wiped |
| Sha1Vector.DigestOfAbc | sources/httpd/sha1.c:308-315 | the digest of "abc" is the one listed there and in section 7.3 of RFC 3174 |
| Sha1Overwrites.UsedBlock | sources/httpd/sha1.c:213-218 | each whole block of the caller is replaced by what the transform leaves of it |
| Sha1Overwrites.UntouchedIf | sources/httpd/sha1.c:213-218 | the data of the caller is as it was if and only if every whole block of it is one that the transform leaves as it was |
| Sha1Overwrites.FewAreUntouched | sources/httpd/sha1.c:213-218 | with fewer than 128 bytes waiting and new nothing is overwritten |
| Sha1Overwrites.SurvivesIf | sources/httpd/sha1.c:104-105 | a block survives if and only if the last sixteen words of its schedule are its own words |
| Sha1Overwrites.SomeDataIsOverwritten | sources/httpd/sha1.c:201-218 | four bytes 0xFF and sixty zeros behind a first block do not survive |
| Md5Rounds.Round1 | utilities/md5.c:195-211 | the first sixteen lines are the rows of the definition |
| Md5Rounds.Round2 | utilities/md5.c:213-229 | and the second, whose words go in steps of five |
| Md5Rounds.Round3 | utilities/md5.c:231-247 | and the third, in steps of three |
| Md5Rounds.Round4 | utilities/md5.c:249-265 | and the fourth, in steps of seven |
| Md5Vector.FChooses | utilities/md5.c:64 | where x has ones F is y, elsewhere z |
| Md5Vector.GChooses | utilities/md5.c:65 | where z has ones G is x, elsewhere y |
| Md5Vector.HCounts | utilities/md5.c:66 | where x and y agree H is z, elsewhere its opposite |
| Md5Vector.ITurns | utilities/md5.c:67 | where x has ones or z has none I is the opposite of y, elsewhere y |
| Md5Vector.RotatedIsArithmetic | utilities/md5.c:71 | for every word and each of the sixteen shifts, rotating multiplies and adds the bits lost at the top |
| Md5Vector.LittleWordIsArithmetic | utilities/md5.c:300-310 | four bytes are the digits of a word, lowest first |
| Md5.UnpackedPacked | utilities/md5.c:282-310 | decoding what was encoded gives the words back |
| Md5.PackedUnpacked | utilities/md5.c:282-310 | and encoding what was decoded the bytes |
| Md5.Encode | utilities/md5.c:282-295 | the words as bytes, lowest first, the rest untouched |
| Md5.Decode | utilities/md5.c:300-310 | the bytes as words |
| Md5.MD5Transform | utilities/md5.c:187-277 | the new state is that of section 3.4 of RFC 1321 |
| Md5.Context.MD5Init | utilities/md5.c:99-109 | the empty message |
| Md5.Context.MD5Update | utilities/md5.c:115-153 | the context stands for the message so far with the input behind it |
| Md5.Context.MD5Final | utilities/md5.c:158-183 | the digest of the padded message; the context is wiped |
| Md5Vector.DigestOfAbc | utilities/md5.c:158-277 | the digest of "abc" is the one of appendix A.5 of RFC 1321 |

## Left out

- TimerTask.TimerService: its lists are sequences with sorted insertion; the linked lists they are in the source are CircularList, and the two are joined by SortedList.Insert only.
- TimerDaemon.ReceiveCommand: a command for a deleted timer and a START or CHANGE_PERIOD without a timer, which the source does not survive, are excluded.
- TimerRuns.RunRefines: commands posted by callbacks are posted between the daemon's steps, and the command queue never fills; what a switch of lists needs for that is TimerBounds.SwitchNeeds.
- TimerAccounting.AutoReloadAccounting: one timer started once; stops and period changes of that timer in between are covered by the refinement, not by the count.
- QueueLocking.NoLostWakeUp: the scheduler (tasks.c) is abstract: which waiting task has the highest priority and when a time-out expires are left open, a woken task is neither deleted nor suspended, and the lock counts do not overflow.
- QueueCalls.EventQueue: event lists are sequences in priority order; that xTaskRemoveFromEventList takes the head is tasks.c. The block time is whether it is zero and when it is over. The items are QueueRing.
- QueueRing.Queue.Reset: the lock counts and the wake-up of a sender are QueueCalls.EventQueue.Reset; a reset is not a step of the relation, since it does not keep the invariant (QueueLocking.ResetCovers).
- RecursiveMutex.MutexInvariant: tasks that use the mutex through the non-recursive calls as well, and priority inheritance.
- CoRoutines.Scheduler.CheckDelayedList: tick counts that jump by a whole wrap between two calls cannot be told apart.
- CoRoutines.Scheduler: its lists are sequences (ListStore), as for the timers.
- MbCrc.ModbusCrc: lengths above 65535, for which the loop of the source never ends (MbCrc.NeverEnds).
- hw_crc32: it feeds the checksum unit of the chip.
- Base64Decoder.Base64DecodeCtx: a pointer and a count are the sequence of the characters left; the aliasing of input and output that restrict forbids is not modelled.
- Base64Strings.Base64Encode: lengths near the most negative int, for which len - 2 overflows.
- Base64Strings.Base64EncodeLen: the overflow of int for more bytes than Base64Strings.EncodeLenFits says.
- Base64Text.Char: the two tables are given by ranges of the alphabet rather than entry by entry.
- Sha1.SHA1Transform: the union of bytes and words is read into words before the rounds and written back after them, little-endian, and the unrolled lines are loops over one turn of the roles.
- Big-endian machines, alignment, and the strength of any hash.
- The alternative queue functions, the queue registry, trace hooks, failing allocation, and the co-routine variants of the queue functions.
- Drivers, flash, settings, file system and network code: register access around code that is not in the repository.
