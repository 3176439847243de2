# A model of the hps_sf fiber server framework

hps_sf runs user code in fibers on a few worker threads. This project models the parts of it
whose behaviour is hard to see from one function, in Dafny, and proves what holds of them over
all inputs, all programs and all runs.

| file | what it models |
|---|---|
| `Common.dfy` | jobs, fiber handles, sums over sequences |
| `TimerSpec.dfy`, `Timers.dfy` | the timer set as a value, and the timer and manager objects that refine it |
| `IoSpec.dfy`, `IoRegistry.dfy` | the fd event registry with the kernel's interest set as a map, and the objects that refine it |
| `Protocol.dfy` | N workers, the run queue, fibers, callbacks, timers, events and `stop`, as one transition system; what a fiber's body does next is left open, so a theorem about all runs is one about all programs |
| `ProtocolStructure.dfy`, `ProtocolKept.dfy`, `ProtocolBooks.dfy`, `ProtocolSleep.dfy` | the invariants: counters and exclusive use of fibers; the callback fibers workers keep; conservation of every obligation; hooked sleeps |
| `ProtocolRuns.dfy`, `ProtocolShutdown.dfy`, `ProtocolWork.dfy`, `ProtocolQueue.dfy` | theorems about whole runs: clean shutdown, and that all workers get out; what became of each piece of work; fairness |
| `ProtocolWaking.dfy`, `ProtocolFiring.dfy`, `ProtocolOnTime.dfy` | hooked sleeps over whole runs: when a sleeper comes out of its sleep; the way of its wake-up, place by place; a run that wakes it |
| `ProtocolEffects.dfy` | what the actions of a fiber come to, a step or two later |
| `ProtocolCare.dfy`, `ProtocolPrograms.dfy`, `ProtocolPlain.dfy` | exactly when an assertion of the source fails, and which programs never make one fail |
| `ProtocolExamples.dfy` | short runs that show what can go wrong |
| `ProtocolDrain.dfy`, `ProtocolStop.dfy`, `ProtocolPins.dfy`, `SingleWorker.dfy` | one `use_caller` worker: fibers with finite scripts, what `stop` comes to and exactly when it returns, and the scheduler and fiber objects whose methods follow the protocol step by step |
| `LogPattern.dfy` | the log pattern scanner against a grammar, and printing against reading |
| `Config.dfy` | flattening a document into dotted names, and loading it |

The methods of the classes (`Timers.TimerManager`, `IoRegistry.Registry`, `SingleWorker.Scheduler`,
`LogPattern.LogFormatter`, `Config.Config`) change fields where the source does, and say in their
contracts what the new state is, as a function of the old one that the lemmas are about.

## Where the code differs from its evident intent

The model does what the code does. Each of these has a lemma that says exactly when it matters.

- The timer comparator compares a deadline with itself (`hps_sf/timer.cpp:21`). A `std::set` under an
  order that puts two timers each before the other has no meaning to model, so the manager uses the order by
  deadline and identity; `ComparatorIsDeadlineOrderIffNoInversion` says for which populations that is the
  comparator as written.
- Expiry stops at the first timer whose deadline is not exactly now (`hps_sf/timer.cpp:145`). Modelled as written:
  an overdue front timer blocks expiry (`FiredIsDueIffFrontNotOverdue`, `MissedFrontBlocksEveryRun`) and makes the
  shutdown hang (`MissedTimerBlocksShutdown`).
- The test in front of `swapIn` is true of every state (`hps_sf/scheduler.cpp:188`). Modelled as written: an entry
  of an ended fiber enters it, and it runs into the assertion behind its last switch (`AbortsExactly`,
  `DanglingEntryAborts`).
- Dispatch triggers every reported event, registered or not (`hps_sf/iomanager.cpp:352-359`). Modelled as written
  (`DispatchAccounts`, `HangUpAborts`).
- The table is resized without a second look at its size under the write lock (`hps_sf/iomanager.cpp:103-105`).
  Looking up or growing is one step of the model; `ResizeKeepsIffNotSmaller` and `RacingGrowth` say what the
  race does, for every pair of fds.
- `stopping()` does not see the expired callbacks another worker holds between `listExpiredCb` and `schedule`
  (`hps_sf/iomanager.cpp:263-269`, `306-312`): an idle fiber ends all the same (`IdleFiberEndsIff`), and the callbacks
  are left to the workers that are still in. So what is said of winding down asks for empty hands.
- `%%` does not skip its second character (`hps_sf/log.cpp:496-500`), against the comment above the function.
  Modelled as written (`RoundTripIffNoPercent`, `DoubledPercentExample`).
- The set of characters allowed in a configuration name lacks the 9 (`hps_sf/config.cpp:17`), and `fromString`
  returns false in every case (`hps_sf/config.h:319-332`). Modelled as written.
- The product `seconds * 1000` of a hooked sleep is computed in 32 bits (`hps_sf/hook.cpp:56`);
  `DueAfterSecondsIffTheyFit` says when that matters.
- A sleeper is resumed by whatever entry of it is taken first, not by its timer alone (`hps_sf/hook.cpp:56-61`), and
  `sleep` then returns 0 whatever the time. `SleepIsCutShort` is such a run; `CutShortIffOtherEntryTaken` says exactly
  when it happens, and `PlainSleepersComeOutWhenDue` which programs are safe from it.
- A callback may schedule the fiber it runs in, which its worker keeps for the next callback
  (`hps_sf/scheduler.cpp:200-201`). With several workers another one may be inside of it by then, and resetting it
  fails an assertion (`BorrowedCallbackFiberAborts`, `StaysParkedIffNoneTaken`).

## Assumptions

- With several workers these are single steps: taking an entry and entering its fiber; leaving a fiber and the
  bookkeeping after it; one evaluation of `stopping()`; looking a context up or growing the table. Expiring timers
  and scheduling their callbacks are two steps. With one worker none of this is needed.
- The clock does not go back, and deadlines and counters do not overflow. Timers are never freed while stored, so
  identities are not reused.
- Only registered fds are reported, unless a theorem says otherwise; readiness, and failure of `epoll_ctl`, are
  chosen freely. No fd is closed while registered, and fds are not negative.
- Events are added by fibers of the scheduler, one event a call. So the fiber `addEvent` registers is the running one,
  and its last assertion (`hps_sf/iomanager.cpp:142`) holds: the registry on its own has its first two, and the
  protocol shows the third (`WatcherIsExec`).

## Model

| member | source | states |
|---|---|---|
| TimerSpec.ComparatorOrdersIffNoInversion | hps_sf/timer.cpp:16-23 | the comparator as written is a strict order on a population of timers iff no earlier deadline has the larger identity |
| TimerSpec.ComparatorIsDeadlineOrderIffNoInversion | hps_sf/timer.cpp:16-23 | and on exactly these it is the order by deadline and identity |
| TimerSpec.ComparatorCounterexample | hps_sf/timer.cpp:20-22 | two timers can each come before the other |
| TimerSpec.FiredIsDueIffFrontNotOverdue | hps_sf/timer.cpp:143-164 | one expiry fires exactly the due timers in deadline order, iff the front timer is not overdue |
| TimerSpec.ExpiryMovesOnlyTheFired | hps_sf/timer.cpp:149-162 | the fired timers leave the set, each recurring one is back once at now + period, every other timer is untouched, and the set stays ordered |
| TimerSpec.ExpiryTimerByTimer | hps_sf/timer.cpp:143-162 | timer by timer: what fires are the timers whose deadline is this millisecond, in order, or nothing if the front is overdue; the one-shots among them are gone, the recurring ones due one period from now, all others as they were |
| TimerSpec.FiresOnce | hps_sf/timer.cpp:154-162 | a timer that fires is stored afterwards iff it is recurring, once, and due one period from now |
| TimerSpec.ExpiryKeepsLowerBound | hps_sf/timer.cpp:154-162 | putting recurring timers back never lowers the earliest deadline |
| TimerSpec.MissedFrontBlocksEveryRun | hps_sf/timer.cpp:145-147 | once the front timer is overdue nothing fires in any later run of arming and expiry |
| TimerSpec.LatePollLosesTimer | hps_sf/timer.cpp:145-147 | a single timer polled one millisecond late is due but never delivered |
| TimerSpec.InsertKeepsOrder | hps_sf/timer.cpp:166-167 | inserting keeps the set strictly ordered |
| TimerSpec.RemoveKeepsOrder | hps_sf/timer.cpp:48 | erasing keeps the set strictly ordered |
| Timers.TimerManager.AddTimer | hps_sf/timer.cpp:86-91 | the new timer is stored at arming time plus period, and an earlier front is announced once |
| Timers.TimerManager.Admit | hps_sf/timer.cpp:166-177 | insertion, with at most one notification between two calls of `getNextTimer` |
| Timers.TimerManager.Cancel | hps_sf/timer.cpp:25-34 | a timer with a callback is stored, so it is found and erased; otherwise nothing happens |
| Timers.TimerManager.Refresh | hps_sf/timer.cpp:36-52 | the deadline becomes now + period; without an announcement, and without needing one |
| Timers.TimerManager.Reset | hps_sf/timer.cpp:54-76 | the new period counts from now or from when the timer was armed, without underflow |
| Timers.TimerManager.GetNextTimer | hps_sf/timer.cpp:104-118 | the time to the earliest deadline, nothing if there is none; the flag is cleared and the front seen is remembered |
| Timers.TimerManager.ListExpired | hps_sf/timer.cpp:120-164 | returns the callbacks of the fired timers in order and leaves the set as the expiry function says, one-shots with an empty callback |
| Timers.TimerManager.CountExpired | hps_sf/timer.cpp:143-147 | the length of the prefix whose deadline is now |
| Timers.TimerManager.FindTimer | hps_sf/timer.cpp:29 | the position of a stored timer, or the end |
| IoSpec.DispatchAccounts | hps_sf/iomanager.cpp:325-359 | dispatching fails the assertion iff the report concerns the fd and names an unregistered event; otherwise every waiter is in a slot or handed over, and kernel and counter agree |
| IoSpec.DispatchHandsOver | hps_sf/iomanager.cpp:325-359 | which waiter goes where: that of the READ slot iff the report says readable or broken, then that of the WRITE slot iff it says writable or broken, each to the scheduler of its slot; these slots are empty and every other is as it was |
| IoSpec.AddedIsHandedOver | hps_sf/iomanager.cpp:96-359 | round trip: what was added for an event is what the next report of that event alone hands over, to the scheduler it was added for |
| IoSpec.HangUpAborts | hps_sf/iomanager.cpp:325-359 | a hang-up on an fd registered for reading only is enough |
| IoSpec.AddEventAccounts | hps_sf/iomanager.cpp:96-145 | of its first two assertions adding fails the one iff the event is there already, never the one about the empty slot; a failed `epoll_ctl` changes nothing |
| IoSpec.AddEventFills | hps_sf/iomanager.cpp:130-144 | the waiter and its scheduler are in the slot of the event, and every other slot is as it was |
| IoSpec.DelEventAccounts | hps_sf/iomanager.cpp:147-177 | the waiter is deleted, kernel and counter agree, and nothing is handed over |
| IoSpec.DelEventForgets | hps_sf/iomanager.cpp:147-177 | the slot of the event is empty, every other slot as it was |
| IoSpec.CancelEventAccounts | hps_sf/iomanager.cpp:178-206 | the waiter is handed over exactly once and the slot is empty |
| IoSpec.CancelEventHandsOver | hps_sf/iomanager.cpp:178-206 | it goes to the scheduler of its slot, and every other slot is as it was |
| IoSpec.CancelAllAccounts | hps_sf/iomanager.cpp:208-244 | both waiters are handed over, and neither assertion fails |
| IoSpec.CancelAllHandsOver | hps_sf/iomanager.cpp:208-244 | that of the READ slot first, then that of the WRITE slot, each to its own scheduler; no other fd is touched |
| IoSpec.ChosenOpFits | hps_sf/iomanager.cpp:117-122 | the chosen ADD, MOD or DEL always fits what the kernel has |
| IoSpec.GrowKeeps | hps_sf/iomanager.cpp:84-107 | after looking up or growing, the table reaches past the fd, context i has fd i, and old contexts are as they were |
| IoSpec.ResizeKeepsIffNotSmaller | hps_sf/iomanager.cpp:84-94 | a resize keeps the contexts iff it is not asked for fewer than there are |
| IoSpec.RacingGrowth | hps_sf/iomanager.cpp:99-107 | of two racing adds that both find the table too small, the later resize drops contexts of the earlier iff fd2 * 3 / 2 < fd1 * 3 / 2, and the very context the earlier one is about to use iff it does not reach fd1 |
| IoSpec.RunBalances | hps_sf/iomanager.cpp:96-360 | over any run, a waiter was registered as often as it is in a slot, handed over and deleted, taken together |
| IoSpec.DeliveredExactlyOnce | hps_sf/iomanager.cpp:96-360 | a waiter registered once is at every moment in exactly one of these places |
| IoRegistry.FdContext.TriggerEvent | hps_sf/iomanager.cpp:34-45 | clears the event, hands the waiter to its scheduler and empties the slot; fails iff the event is not set |
| IoRegistry.Registry.ContextResize | hps_sf/iomanager.cpp:84-94 | new contexts are distinct objects with their own number |
| IoRegistry.Registry.AddEvent | hps_sf/iomanager.cpp:96-145 | refines adding on values, with its first two assertions; returns 0 or -1 |
| ProtocolRuns.WatcherIsExec | hps_sf/iomanager.cpp:141-142 | its third assertion holds: the fiber registered without a callback is EXEC |
| IoRegistry.Registry.DelEvent | hps_sf/iomanager.cpp:147-177 | refines deleting on values |
| IoRegistry.Registry.CancelEvent | hps_sf/iomanager.cpp:178-206 | refines cancelling on values |
| IoRegistry.Registry.CancelAll | hps_sf/iomanager.cpp:208-244 | refines cancelling both on values |
| IoRegistry.Registry.HandleReport | hps_sf/iomanager.cpp:322-359 | refines dispatching on values |
| IoRegistry.Registry.Serve | hps_sf/iomanager.cpp:96-360 | any request keeps the registry valid, and nothing handed over or deleted before is touched |
| Protocol.Scan | hps_sf/scheduler.cpp:159-181 | finds the first entry that is not pinned elsewhere and whose fiber is not running |
| ProtocolStructure.StepKeepsInv | hps_sf/scheduler.cpp:140-246 | every step keeps: active and idle count the workers running a task and inside idle; a fiber is EXEC iff exactly one worker is inside it; no two workers keep the same callback fiber; timers, slots, kernel and counter agree; when every idle fiber has ended, nothing is left |
| ProtocolKept.StepKeepsKept | hps_sf/scheduler.cpp:198-218 | every step keeps: a kept callback fiber nobody is in has no function, and is INIT or ended by an exception; HOLD and READY never |
| ProtocolKept.StaysParkedIffNoneTaken | hps_sf/scheduler.cpp:198-218 | all kept callback fibers stay in use by their own worker, or INIT without a function, iff the step does not take an entry of one of them |
| ProtocolBooks.StepBalances | hps_sf/scheduler.h:32-80 | every step keeps: an obligation was issued as often as it is queued, armed, in an idle worker's hand, owed by a running callback or registered, consumed, and dropped, taken together |
| ProtocolWork.StepWorks | hps_sf/scheduler.cpp:182-218 | every step keeps: an obligation was consumed as often as it is a callback running or suspended in some fiber, finished as one, or resumed a fiber |
| ProtocolWork.WorkIsConserved | hps_sf/scheduler.cpp:140-246 | so over every run of any number of workers: issued is live, running or suspended, finished, resumed and dropped taken together |
| ProtocolSleep.StepKeepsNaps | hps_sf/hook.cpp:49-62 | every step keeps: a sleeper's wake-up is for its fiber, and is not in the queue before the sleep is over |
| ProtocolRuns.StepKeepsSound | hps_sf/scheduler.cpp:140-253 | all invariants together are kept by every step |
| ProtocolRuns.StartIsSound | hps_sf/scheduler.cpp:50-67 | and hold after `start` |
| ProtocolRuns.CleanShutdown | hps_sf/scheduler.cpp:140-246 | over every run: when the last idle fiber ends, `stop` was called, the queue, the timers, the slots and the kernel's set are empty, no fiber runs, and every obligation was consumed or dropped |
| ProtocolShutdown.IdleFiberEndsIff | hps_sf/iomanager.cpp:263-287 | a worker's idle fiber ends at its check iff `stop` was called, queue and timers are empty, no fd has an event and no worker runs a task, whatever the other idle fibers have done; otherwise it waits |
| ProtocolShutdown.WindingStep | hps_sf/scheduler.cpp:154-236 | with nothing left to do and nothing in a hand, after `stop`: each worker's next move brings it one move closer to its exit, and no step does anything else |
| ProtocolShutdown.WorkerExitsIffItMoves | hps_sf/scheduler.cpp:154-236 | so over every schedule a worker has exited iff it has made all of its moves, at most six |
| ProtocolShutdown.RoundsExit | hps_sf/scheduler.cpp:219-236 | from every such state, with any number of workers and whichever are out already, this run takes all of them out |
| ProtocolShutdown.StopThenAllExit | hps_sf/scheduler.cpp:76-134 | and so does one that starts with the call of `stop` |
| ProtocolShutdown.StartThenStop | hps_sf/scheduler.cpp:50-134 | and one that starts with the start |
| ProtocolRuns.CleanIsStable | hps_sf/scheduler.cpp:219-235 | from then on no assertion fails and nothing changes but that workers exit |
| ProtocolRuns.AllWorkersExit | hps_sf/scheduler.cpp:224-227 | and all workers do, with one more look at the queue each |
| ProtocolRuns.StoppingMeansNothingToDo | hps_sf/scheduler.cpp:243-246 | `stopping()` implies that nothing is queued or running |
| ProtocolRuns.ExclusiveUse | hps_sf/fiber.cpp:125-147 | a fiber is EXEC iff a worker is inside of it, and never are two |
| ProtocolRuns.SleepHasOneWakeUp | hps_sf/hook.cpp:49-62 | a sleep's wake-up is in exactly one place until it has resumed the sleeper, then in none, and is never dropped |
| ProtocolRuns.SleeperWillBeWoken | hps_sf/hook.cpp:54-60 | while a fiber is inside of a sleep, yielded or not, its wake-up is live |
| ProtocolFiring.ExpiringFires | hps_sf/iomanager.cpp:306-307 | the hand holds, in order, the callbacks of exactly the timers due this millisecond, unless the front is overdue, and the timers are as ExpiryTimerByTimer says |
| ProtocolFiring.FlushingQueues | hps_sf/iomanager.cpp:309-312 | what is in the hand is queued at the end, in order, for any thread, without the empty callbacks |
| ProtocolFiring.InOnePlace | hps_sf/hook.cpp:54-61 | a wake-up is at every moment in exactly one of: its timer, a hand, the queue as a lambda, a running lambda, the queue as the sleeper's entry, used |
| ProtocolFiring.WakeUpMovesOn | hps_sf/hook.cpp:54-61 | each step leaves it where it is or takes it to the next of these places, and exactly these steps do: an expiry at the very millisecond with no timer overdue, the flush of that hand, taking the lambda, the lambda's scheduling, taking the entry |
| ProtocolFiring.WakeUpOverRun | hps_sf/hook.cpp:54-61 | so over every run it goes this way and no other |
| ProtocolOnTime.PolledOnTimeIsWoken | hps_sf/hook.cpp:49-62 | a sleeper on HOLD that is polled at its millisecond runs again in it: expiry, flush, the lambda, and its entry, which is used once |
| ProtocolWaking.ComesOutIffTaken | hps_sf/hook.cpp:49-62 | a sleeping fiber comes out of its sleep iff the step takes an entry of it |
| ProtocolWaking.WakeUpOrOtherEntry | hps_sf/hook.cpp:54-61 | it comes out through its wake-up, and not before the time asked for, iff the entry taken is the wake-up; through any other its wake-up stays live |
| ProtocolWaking.CutShortIffOtherEntryTaken | hps_sf/hook.cpp:54-61 | so it comes out too early iff another entry of it is taken before the time |
| ProtocolExamples.SleepIsCutShort | hps_sf/hook.cpp:49-62 | scheduling a fiber twice is enough: it runs on at clock 0 of a sleep of a second, its timer still armed |
| ProtocolWaking.PlainSleepersComeOutWhenDue | hps_sf/hook.cpp:54-61 | where fibers are referred to by their wake-ups only, they come out when due, through the wake-up |
| ProtocolWaking.PlainRunStaysWaiting | hps_sf/hook.cpp:49-62 | and plain programs stay so over every run |
| ProtocolRuns.EarlyWakeUpIsKept | hps_sf/scheduler.cpp:170-173 | a wake-up that comes before the sleeper has yielded stays in the queue |
| ProtocolWaking.DueAfterSecondsIffTheyFit | hps_sf/hook.cpp:56 | the hooked sleep a fiber starts is due seconds * 1000 ms later iff that product fits 32 bits, and too early otherwise |
| ProtocolWaking.HookedSleepLastsItsSeconds | hps_sf/hook.cpp:49-62 | a fiber of a plain program that sleeps is not out of this sleep before the computed milliseconds are over, whatever plain run follows; these are the seconds asked for iff the product fits |
| ProtocolRuns.MissedTimerBlocksShutdown | hps_sf/iomanager.cpp:263-269 | with an overdue front timer that nobody cancels or moves, no idle fiber ever ends |
| ProtocolQueue.PositionNeverIncreases | hps_sf/scheduler.cpp:162-180 | over any run, an entry is unchanged and never further back until it is taken |
| ProtocolQueue.OrderIsKept | hps_sf/scheduler.cpp:162-180 | entries do not overtake each other in the queue |
| ProtocolQueue.TakenByItsThread | hps_sf/scheduler.cpp:164-180 | a worker takes an entry only if it is not pinned away from it and it could take nothing in front of it, and enters its fiber |
| ProtocolQueue.TakenWithinPlacePicks | hps_sf/scheduler.cpp:159-181 | an entry at place k that a worker could take each time is taken within k + 1 picks of that worker |
| ProtocolQueue.PinnedWaitsForItsThread | hps_sf/scheduler.cpp:164-168 | a pinned entry stays in the queue as long as its thread does not look |
| ProtocolEffects.ScheduledFiberRuns | hps_sf/scheduler.cpp:159-197 | a fiber scheduled on an empty queue is what the next worker of its thread enters, or fails on iff it has ended; a worker of another thread leaves it there and goes idle |
| ProtocolEffects.ScheduledCallbackRuns | hps_sf/scheduler.cpp:198-207 | a callback is run in the callback fiber the worker keeps, which fails iff another worker is inside of it, or in a new one it keeps |
| ProtocolEffects.LeavesAs | hps_sf/scheduler.cpp:190-218 | how a fiber is left: on HOLD and not queued, READY and last in the queue, or ended; a callback fiber is let go when it yields, and without a function and kept when it ends |
| ProtocolEffects.ArmedTimerFires | hps_sf/timer.cpp:86-164 | a timer armed now is in the hand of who polls ms milliseconds later, and is armed once more iff it is recurring, for one period from there |
| ProtocolEffects.TimerIsMoved | hps_sf/timer.cpp:25-76 | cancelling and moving change this one timer, and how |
| ProtocolEffects.ReportQueues | hps_sf/iomanager.cpp:325-359 | a report queues the waiters it concerns, for reading first, and empties their slots alone |
| ProtocolEffects.WatcherIsResumed | hps_sf/iomanager.cpp:96-359 | a fiber that watches for an event is last in the queue after the next report of it |
| ProtocolCare.AbortsExactly | hps_sf/scheduler.cpp:183-218 | in a reachable state a step fails an assertion iff a worker takes an entry of an ended fiber or resets a callback fiber that is running, an event is added twice, or a report names an unregistered event |
| ProtocolExamples.DanglingEntryAborts | hps_sf/scheduler.cpp:188-197 | scheduling a fiber twice before it ends is enough to fail one |
| ProtocolExamples.BorrowedCallbackFiberAborts | hps_sf/scheduler.cpp:200-201 | so is a callback that schedules its own fiber for another worker and returns: at the next loop head the kept fiber is EXEC |
| ProtocolCare.StepRefs | hps_sf/scheduler.cpp:140-237 | a step comes to refer only to fibers something referred to before, and to the one it names |
| ProtocolPrograms.CarefulStepLives | hps_sf/fiber.cpp:98-133 | no step of a careful program fails an assertion |
| ProtocolPrograms.CarefulProgramsNeverAbort | hps_sf/scheduler.cpp:149-236 | over any run of a careful program no assertion fails, and at the top of the loop the callback fiber is none, or INIT without a function |
| ProtocolPlain.PlainProgramsNeverAbort | hps_sf/scheduler.cpp:149-236 | any number of workers running programs of callbacks, timers, sleeps, yields and exceptions are careful by themselves |
| ProtocolDrain.AdvanceKeepsAlone | hps_sf/scheduler.cpp:154-236 | one worker, each of its steps: the protocol's invariants, and what was done of each callback's script is what was not left to do |
| ProtocolDrain.ActMeans | hps_sf/scheduler.cpp:188-218 | what each act of a script comes to: an entry at the end of the queue with its script and thread, a new fiber, a yield, or an end by an exception |
| ProtocolDrain.AdvanceCosts | hps_sf/scheduler.cpp:154-236 | each step until the end uses something up |
| ProtocolStop.StopEnds | hps_sf/scheduler.cpp:76-134 | after `stop` the worker ends in finitely many steps: it returns with the queue empty and every callback run exactly once to its end, an exception or a yield nobody woke it from; or it enters an ended fiber; or only entries pinned to other threads are left |
| ProtocolStop.SpinningIsForever | hps_sf/scheduler.cpp:248-253 | in the last case one round of the loop leaves everything as it was |
| ProtocolStop.LocalProgramsNeverSpin | hps_sf/scheduler.cpp:164-168 | a program that pins nothing to other threads is never left with work |
| ProtocolStop.ForeignEntryBlocksStop | hps_sf/scheduler.cpp:164-168 | with an entry pinned to another thread `stop` does not return |
| ProtocolStop.CallbackProgramsDrain | hps_sf/scheduler.cpp:76-134 | callbacks that schedule callbacks, yield and throw, pinned to this thread or not: `stop` returns, and each was run exactly once |
| ProtocolPins.AdvanceKeepsPins | hps_sf/scheduler.cpp:154-236 | whether anything is, or is going to be, pinned to another thread can be told from the scripts, and no step changes it |
| ProtocolPins.ReturnsIffNothingPins | hps_sf/scheduler.cpp:76-134 | after `stop`, a program of callbacks returns iff nothing is or is going to be pinned elsewhere, and is left idling iff something is |
| ProtocolPins.StopReturnsIffAllStay | hps_sf/scheduler.cpp:76-134 | the same from an empty scheduler for every sequence of callbacks scheduled before `stop`; when it returns, each was run exactly once |
| SingleWorker.Fiber.Reset | hps_sf/fiber.cpp:98-113 | fails iff the fiber is not TERM, INIT or EXCEPT; otherwise it is INIT with the new function |
| SingleWorker.Fiber.SwapIn | hps_sf/fiber.cpp:125-133 | fails iff the fiber is running or has ended; otherwise it is EXEC |
| SingleWorker.Scheduler.ScheduleNoLock | hps_sf/scheduler.h:71-80 | appends a non-empty entry, and asks for a tickle iff the queue was empty |
| SingleWorker.Scheduler.Schedule | hps_sf/scheduler.h:32-44 | keeps the agreement with the protocol, where a callback has been scheduled from outside |
| SingleWorker.Scheduler.ScheduleEach | hps_sf/scheduler.h:32-44 | and so does any sequence of callbacks scheduled on a new scheduler |
| SingleWorker.Scheduler.Pick | hps_sf/scheduler.cpp:159-181 | takes the entry Scan finds and counts the worker active; reports whether an entry of another thread was passed over |
| SingleWorker.Scheduler.RunBody | hps_sf/fiber.cpp:179-202 | follows the protocol act by act until the fiber is left, in the state that tells how |
| SingleWorker.Scheduler.EnterFiber | hps_sf/scheduler.cpp:188-189 | fails iff the protocol's next step fails |
| SingleWorker.Scheduler.ReuseCallbackFiber | hps_sf/scheduler.cpp:200-207 | resetting and entering the kept callback fiber fails neither assertion |
| SingleWorker.Scheduler.MakeCallbackFiber | hps_sf/scheduler.cpp:202-207 | nor does entering a new one |
| SingleWorker.Scheduler.AfterFiber | hps_sf/scheduler.cpp:190-197 | the bookkeeping after a fiber is the protocol's next step |
| SingleWorker.Scheduler.AfterCallback | hps_sf/scheduler.cpp:208-218 | and so is the one after a callback, whose reset never fails |
| SingleWorker.Scheduler.Idle | hps_sf/scheduler.cpp:229-234 | the idle fiber ends iff `stopping()`; otherwise the loop can only go on idling |
| SingleWorker.Scheduler.Turn | hps_sf/scheduler.cpp:154-236 | one round of the loop follows the protocol and gets closer to the end |
| SingleWorker.Scheduler.Run | hps_sf/scheduler.cpp:140-237 | the loop ends as the run of the protocol does |
| SingleWorker.Scheduler.Stop | hps_sf/scheduler.cpp:76-134 | when it returns, the queue is empty and every callback was run exactly once; otherwise an ended fiber was entered or only foreign entries are left |
| SingleWorker.LeftIffAllStay | hps_sf/scheduler.cpp:76-134 | after callbacks that schedule no fibers by hand, that call of `stop` returns iff none of them pins anything to another thread |
| LogPattern.ScanDirective | hps_sf/log.cpp:502-538 | the loop over a directive reads what the grammar reads, and ends where it ends |
| LogPattern.Scan | hps_sf/log.cpp:489-570 | the scanner gives the tokens of the grammar, and the error iff a brace is not closed; it terminates although it sets its index |
| LogPattern.LogFormatter.Init | hps_sf/log.cpp:484-615 | one item a token: the text; the field of that letter, one of twelve, with the format; or the error text. The error is set iff a brace is open or a name is the letter of no field |
| LogPattern.ItemsAreUnique | hps_sf/log.cpp:594-614 | that decides the items |
| LogPattern.FieldsComeAsAsked | hps_sf/log.cpp:573-614 | any list of fields, each asked for with its letter and a format, is accepted and gives these fields in these formats, in order |
| LogPattern.NameCharIsListed | hps_sf/log.cpp:511-512 | the characters of a directive's name: letters and the closing brace |
| LogPattern.Logger.SetFormatter | hps_sf/log.cpp:287-297 | an erroneous pattern leaves the formatter as it was |
| LogPattern.MunchIsUnique | hps_sf/log.cpp:489-570 | a maximal munch that spells the pattern is what the scanner finds |
| LogPattern.ParseMunches | hps_sf/log.cpp:489-570 | when every brace is closed the pieces are a maximal munch whose characters are those of the pattern, each once |
| LogPattern.ErrorIffNoMunch | hps_sf/log.cpp:552-557 | the pattern error is reported iff no maximal munch spells the pattern |
| LogPattern.RefusedIffNoKnownMunch | hps_sf/log.cpp:594-612 | a pattern is refused iff it is not text and known directives |
| LogPattern.RoundTripIffNoPercent | hps_sf/log.cpp:483-570 | a canonical list, printed with `%` doubled and read, comes back iff no literal has a `%` |
| LogPattern.ItemsComeBackIffNoPercent | hps_sf/log.cpp:594-614 | and so do the items |
| LogPattern.DoubledPercentExample | hps_sf/log.cpp:496-500 | `%%d` is a percent sign and a directive |
| Config.ListAllMember | hps_sf/config.cpp:15-30 | appends the node and what is below it, in order |
| Config.FlattenedIsPreorder | hps_sf/config.cpp:15-30 | the last member of a name that converts is that of the last path in preorder which the flattening reaches under this name; there is none iff there is no such path |
| Config.ReachedIsDotted | hps_sf/config.cpp:15-30 | the flattening reaches exactly the paths of the document on which every name is valid, under the name that is the prefix and the keys along the path, in order, with dots between them |
| Config.NameOfChild | hps_sf/config.cpp:27 | a child's name is that of its parent, a dot and its key, or its key alone if the parent has no name |
| Config.NameCharIsListed | hps_sf/config.cpp:17 | the characters of a valid name |
| Config.ConfigVar.FromString | hps_sf/config.h:319-332 | a text that does not convert leaves the value; the result is false |
| Config.ConfigVar.SetValue | hps_sf/config.h:339-351 | the value is the new one |
| Config.Config.Lookup | hps_sf/config.h:397-426 | returns the variable of that name; nothing if it is of another type; otherwise registers a new one, or throws if the name is invalid |
| Config.Config.LoadFromYaml | hps_sf/config.cpp:33-59 | every variable holds what its last member that converts says, or what it held |
| Config.LastInPreorderWins | hps_sf/config.cpp:33-59 | that is the last node in document preorder whose keys, with dots between them, are its name, through valid prefixes, and which converts; without one the variable is unchanged |

## Left out

- Context switching, stacks, thread creation, semaphores and locks: a switch is a step, a lock section is one step.
- Destructor assertions and reference counts of fibers: only what keeps an entry referring to a fiber is modelled.
- The tickle pipe, `epoll_wait` and its timeouts: reports and their order are chosen freely.
- `detectClockRollver`, `addConditionTimer`, `hasTimer`: not called by the core, or one-line wrappers.
- Hooks on a plain scheduler without timers, and `usleep`, which differs from `sleep` in its unit only.
- The idle fiber throwing, and null timers in the comparator.
- Several schedulers: an event's scheduler is a number in the registry, and the protocol has one scheduler.
- Which actions a fiber takes is not modelled in the protocol, only what each does; in the single-worker part a
  script cannot test anything.
- Conversion of configuration values and of whole nodes to text: a conversion is a parameter that may fail.
  Listeners: `addListener` stores nothing, so none is ever called.
- Log appenders, levels and output; formatting of items; propagation of a new formatter to appenders.
- ProtocolStop.LocalProgramsNeverSpin: one way only, for programs that schedule fibers by hand as well; the exact
  condition for programs of callbacks is in ReturnsIffNothingPins and StopReturnsIffAllStay.
- ProtocolPlain.PlainProgramsNeverAbort: sufficient, not necessary; the exact condition, for each step, is AbortsExactly.
- ProtocolPrograms.CarefulProgramsNeverAbort: likewise; what its loop-head clause needs is, for each step, exactly
  StaysParkedIffNoneTaken.
- SingleWorker.Scheduler.Run: a loop that can only idle ends here with that result, where the source goes round for
  good; SpinningIsForever says that nothing would change.
