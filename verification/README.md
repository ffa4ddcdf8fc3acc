# libtask: a verified model

libtask is a coroutine library in C. Its tasks run one at a time and give up the processor only
inside library calls, so a call is atomic up to its task switch. This project models the channels,
the scheduler, the locks, the rendezvous points and the timer/poll task of libtask, and the
concurrent prime sieve that is written on top of them, and proves what each promises over every run.

## How the model is built

**Specifications on values.** `SchedSpec`, `LockSpec`, `ChanSpec` and `FdSpec` give each operation as
a function on values, for an arbitrary type of tasks. Every blocking call is cut in two at its
task switch. `LockRuns`, `ChanProofs`, `ChanHistory` and `FdProofs` prove what holds of one lock, one set of
channels and one timer list.

**The library as a transition system.** `World` puts all of it into one state. A step is one call by the
running task, the second half of a call that had blocked, one turn of the poll task, or one turn of
the scheduler. Programs are arbitrary: at every turn the running task may make any call that the client
discipline allows (`World.Enabled`: only the owner unlocks, only holders release, `tasksleep` is called
with its lock held, alternatives name existing channels). `rand()`, the outcome of `poll` and the clock
(which never goes back) are arbitrary parameters of a step. `Places`, `PcProofs`, `Parts`, `Timers` and
`Turns` prove the five parts of the global invariant, and `Runs`, `LockTheorems`, `TimerTheorems`, `Exits` and
`ChanTheorems` state what follows for whole runs. `Outcomes` and `PollTheorems` say what each step does in the fields
of the state alone, without the functions of the specification: who runs on, who waits where, who becomes ready.

**The code in memory.** `Lists`, `Kernel`, `Locks`, `Poller`, `Bytes`, `Channels`, `Queues` and `Hub` are the code as it is
written: tasks linked through one shared pair of pointers, a registry with swap-delete, parallel poll
arrays compacted in place, a ring of bytes, arrays of alternatives. Each method is proved against the same
function that `World` uses, with the task objects in place of task numbers. This is the only link between the
two: what is proved of one call of a specification function holds of the method that refines it, while the
theorems about whole runs are theorems about `World`, and no simulation from memory to `World` is stated.
Each component's methods re-establish what they require, so that calls can follow one another, and
`Kernel.StillIdle` is what carries the conditions of one component over a call on another. The one rule that
makes the shared links correct, that no two lists have a task in common, is `Lists.Apart`, and every method keeps it.

**The sieve.** `Sieve` is primes.c as a program over `World`, for every goal and every buffer size;
`SieveFlow`, `SieveProofs`, `SieveTheorems`, `SieveRuns` and `SieveEnds` prove that it prints the primes, in
order, on every interleaving, that it never deadlocks, and that every run ends within a bounded number of steps.

History variables (`sent`, `rcvd`, `hist`, `log`, `holders`, `at`) only record; no step reads them to decide anything.

## Where the code and its comments differ

- rendez.c:57 says that `taskwakeup` always returns 1. `LockSpec.WakeupCount` shows that it does so if and only if somebody sleeps, and that it returns 0 on a point where nobody does; `Locks.Rendez.Wakeup` states the same of the method.
- fd.c:159 suspects that the extra count kept for sleepers is redundant: `Runs.ExitIsExact` confirms that it never changes when the program exits.
- channel.c:372 says that an alternative set has two entries; `chanalt` works for any length, and the model is for any length, including none.
- fd.c:107 is documented as a delay of at least `ms`; the result is cut to 32 bits at fd.c:166, so that the number returned can be smaller after a very long sleep. `FdProofs.DelayAtLeast` gives the exact condition under which the result is the elapsed time.

## Model

| member | source | states |
|---|---|---|
| `SieveRuns.PrintsThePrimes` | primes.c:12-46 | In every state of every run, for every goal and buffer size, what has been printed is increasing and is exactly the set of primes below some bound, none above the goal; once the program has exited it is exactly the primes up to the goal. |
| `SieveEnds.AlwaysEnds` | primes.c:12-46 | No run has more steps than a bound that depends on the goal and the buffer size alone; and a run that cannot be continued has exited, having printed exactly the primes up to the goal. |
| `SieveRuns.NeverStuck` | primes.c:25-29 | No reachable state is stuck: whenever the scheduler runs there is a ready task and the count is not zero, and some step is always possible. |
| `SieveRuns.StepSieve` | primes.c:32-46 | Every step of the program keeps the invariant of the pipeline, and is a step of the library. |
| `SieveRuns.SieveIsRun` | primes.c:32-46 | A run of the sieve is a run of the library, so all theorems about runs hold of it. |
| `SieveTheorems.ChannelStream` | primes.c:25-29 | What has entered channel k is always the beginning of the ascending numbers from 2 that the first k primes printed do not divide. |
| `SieveTheorems.CheckIsPrime` | primes.c:18-22 | The number a new stage receives first is prime, and is the very next prime after those printed. |
| `Primes.HeadIsNextPrime` | primes.c:18-22 | The first survivor of all primes below a bound is prime, and nothing between the bound and it is. |
| `Primes.FilterSurvivors` | primes.c:25-29 | Filtering the survivors of some primes by one more gives the survivors of all of them. |
| `SieveProofs.ChainStuck` | primes.c:25-29 | It is impossible that all stages up to one that waits to receive are blocked: by induction back along the chain to taskmain, through what a blocked sender and a blocked receiver say about the ring. |
| `SieveProofs.SomebodyReady` | primes.c:25-29 | Some task of the pipeline is always unblocked. |
| `SieveProofs.SieveDispatch` | task.c:331-340 | Under the sieve the scheduler takes neither of its two exits. |
| `ChanProofs.ChanAltKeepsInv` | channel.c:377-443 | chanalt keeps the channel invariant for every choice of rand(): queued entries are exactly the blocked alternatives other than NOPs, a waiting sender means a full ring, a waiting receiver an empty one, and what was sent is what was received followed by the ring. |
| `ChanProofs.AddChanKeepsInv` | channel.c:12-28 | A new channel keeps that invariant. |
| `ChanProofs.CopyIsSafe` | channel.c:130-156 | What altcopy takes from altcanexec unchecked: a sender meeting a receiver finds an empty ring, a sender alone finds room, a receiver meeting a sender finds a full ring, a receiver alone finds an element. |
| `ChanProofs.NobodyWaitsForEachOther` | channel.c:335-366 | A sender and a receiver waiting on the same channel belong to one alternative set, and the channel is unbuffered: no two tasks wait for each other. |
| `ChanProofs.MeetKeeps` | channel.c:287-316 | When both parties are there, the ring keeps its length and first-in first-out order, empty or full. |
| `ChanHistory.ChanAltKeepsHist` | channel.c:377-443 | For every task and channel, the log of the channel restricted to that task is what its completed calls moved, in program order: one element for each call. |
| `ChanHistory.MeetingIsAtomic` | channel.c:347-361 | altexec with a peer removes all of the peer's entries from all channels, records exactly one of the peer's alternatives as served (on the same channel, opposite direction), and changes no other task's entries, set or result, and no other ring. |
| `ChanTheorems.Conservation` | channel.c:258-367 | In every run, for every channel: the values sent are the values received followed by the ring. For every task, what it has sent and received there is what its calls moved, in the order of its program, with at most one call served but not yet returned. |
| `ChanTheorems.QueuesMatchRing` | channel.c:335-366 | In every run: ring length at most the buffer size, a queued sender means full, a queued receiver means empty, and both sides are queued only by one set on an unbuffered channel. |
| `ChanTheorems.ParkedOrServed` | channel.c:431-442 | A task inside chanalt is either parked, with each entry but the NOPs queued once on the right side of its channel, or served, ready, and queued nowhere. |
| `ChanTheorems.AltIsAtomic` | channel.c:431-442 | Over a whole blocking call: between the step that parks a task and the one in which its chanalt returns there is exactly one step that serves it; before it the set is what was offered, in it the task becomes ready once, after it the record does not change, the returned value is the index of the entry that fired, and the history of the task grows by exactly that. |
| `ChanTheorems.ServedAtOnce` | channel.c:347-361 | A parked set leaves its channels in exactly one step: the one in which a peer picks one of its entries. In that step that entry is recorded and its task is put on the run queue once. Every other step leaves the set as it was. |
| `ChanTheorems.ResultIsKept` | channel.c:438-442 | From then on nothing changes the recorded entry until the task runs, and chanalt then returns its index. |
| `ChanTheorems.NopsBlockForever` | channel.c:425-438 | A blocked set with no entry but NOPs stays blocked in every continuation of the run. |
| `Outcomes.AltOutcome` | channel.c:377-435 | chanalt goes on having done one alternative, with the peer ready, exactly if one can proceed by the counts of its channel; otherwise it blocks, with an entry on the right side of the right channel for each alternative but the NOPs, exactly if it may block, and otherwise changes nothing. |
| `Outcomes.ChanCreateOutcome` | channel.c:12-28 | A new channel is empty, has the room asked for and nobody waiting; the others stay. |
| `Places.StepPlaces` | task.c:323-367 | Every step keeps the partition: each live task is in exactly one of running, run queue, one lock queue, one rendezvous queue, list of sleepers, poll table or blocked set, and only live tasks are. |
| `Places.OnePlaceEach` | taskimpl.h:61-66 | The partition without the history variable: a task is in some queue exactly when it is registered, never in two, never twice in one; so a freed task is in none. |
| `Parts.StepParts` | qlock.c:27-30 | Every step keeps the lock and channel invariants, and the only abort that can be reached is the one for more than 1024 poll slots. |
| `Parts.StepPcInv` | task.c:323-349 | Every step keeps: a task in the middle of a call waits in the queue of that call, or is ready and has been given what the call waits for. |
| `Timers.StepClock` | fd.c:92-94 | Every step keeps the accounting, the order of the list of sleepers, and that a woken sleeper has slept long enough. |
| `Turns.StepYield` | task.c:250-266 | Every step keeps the position of each yielding task in the run queue equal to what its result will be. |
| `Runs.StepInv` | task.c:323-367 | Every call of every program keeps the whole invariant. |
| `Runs.RunInv` | task.c:323-367 | The whole invariant holds in every state of every run from start-up. |
| `Runs.Accounting` | fd.c:160-162 | In every reachable state taskcount is the number of live non-system tasks, plus one when some of them sleep, and sleepingcounted is the number of those. |
| `Runs.ExitIsExact` | task.c:331-358 | The scheduler exits the program if and only if no non-system task is live. |
| `Runs.NeverStallsWithTimer` | task.c:336-340 | Once fdtask exists the run queue is never empty when the scheduler looks, so that the stall exit cannot be reached. |
| `Runs.PollsOnlyWhenIdle` | fd.c:31-59 | fdtask reaches poll only when the run queue is empty and every other live task is blocked, and its taskyield has then returned exactly 0. |
| `Runs.ServedInOrder` | task.c:336-349 | The task at position k of the run queue is the one that the (k+1)-th dispatch from then runs, whatever the tasks do. |
| `Runs.YieldIsExact` | task.c:250-266 | taskyield returns the length of the run queue at the call, and the tasks that were in it, each once and in order, are the ones dispatched before the caller. |
| `Exits.ExitStatus` | task.c:283-301 | In every run the program exits in exactly two ways: by taskexitall, with its argument, or at a turn of the scheduler when every live task is a system task, with the value of the last taskexit of the run (0 if there was none). |
| `Exits.LastTaskExits` | task.c:288-301 | taskexit makes the scheduler exit the program if and only if every other live task is a system task, and then with the value given. |
| `Exits.SystemTasks` | task.c:212-218 | In every run the live system tasks are exactly the live tasks that have called tasksystem, and fdtask from its first turn on. |
| `Exits.RunFdSystem` | fd.c:29 | In every run fdtask is a system task whenever it is in its loop. |
| `Exits.ExitsBesideFdTask` | task.c:331-334 | fdtask does not keep the program alive: once it alone is live the scheduler exits, with the value of the last taskexit. |
| `Outcomes.CreateOutcome` | task.c:180-203 | taskcreate gives out the next number, which no live task has; the new task is counted, registered and last in the run queue. |
| `Outcomes.SystemOutcome` | task.c:212-218 | tasksystem marks its caller, and uncounts it unless it was marked; nothing else changes. |
| `Outcomes.YieldOutcome` | task.c:250-263 | taskyield puts its caller at the end of the run queue and remembers the number of switches. |
| `Outcomes.ExitOutcome` | task.c:296-301 | taskexit leaves its value; its caller is registered, live and counted no longer, and nobody else is touched. |
| `Outcomes.DispatchOutcome` | task.c:330-349 | The scheduler exits with the stored value when nobody is counted, stalls when nobody is ready, and else runs the head of the queue. |
| `LockSpec.FreeLockHasNoWaiters` | qlock.c:84-101 | A reader-writer lock that nobody holds has no waiters. |
| `LockRuns.QLockIsFifo` | qlock.c:12-32 | In every sequence of calls on a lock, requests that had to wait are granted in their order: earlier waiters and requests are the grants followed by those still waiting. |
| `LockRuns.RWStepKeepsInv` | qlock.c:84-219 | Every call keeps: a writer excludes readers, `readers` counts the tasks granted and not released, waiting readers imply a writer or a waiting writer, waiting writers imply a holder; and wunlock reaches neither of its aborts. |
| `LockRuns.ReaderOvertaking` | qlock.c:178-181 | While a reader waits, at most one writer is granted, and none if a writer held the lock when the wait began. |
| `LockRuns.WriterOvertaking` | qlock.c:207-218 | The writer at position k of the queue leaves it only by being granted, after exactly k other writers and at most k + 1 batches of readers. |
| `LockRuns.WriterReleaseAdmitsReaders` | qlock.c:190-219 | wunlock with readers waiting admits all of them, in order, and no writer. |
| `LockRuns.RendezIsFifo` | rendez.c:12-51 | In every sequence of sleeps and wakeups the sleepers are awakened in order, none is lost and none is awakened twice. |
| `Outcomes.QLockOutcome` | qlock.c:12-54 | qlock and canqlock: on a free lock the caller goes on as its owner; on an owned one qlock puts it at the end of the line and nobody runs, and canqlock changes nothing. Other locks are untouched. |
| `Outcomes.RLockOutcome` | qlock.c:84-123 | rlock and canrlock: without a writer, holding or waiting, the caller goes on as one more reader; else rlock queues it and nobody runs, and canrlock changes nothing. |
| `Outcomes.WLockOutcome` | qlock.c:131-168 | wlock and canwlock: on a lock without readers and writer the caller goes on as the writer; else wlock queues it and nobody runs, and canwlock changes nothing. |
| `Outcomes.GoesOnWithLock` | qlock.c:14-18 | A blocking lock call that does not switch out has the lock; `LockTheorems.ReturnsWithLock` says the same of one that does. |
| `Outcomes.QUnlockOutcome` | qlock.c:61-75 | qunlock makes the first task in line the owner and ready, or frees the lock. |
| `Outcomes.RUnlockOutcome` | qlock.c:174-183 | runlock of the last reader makes the first waiting writer the writer and ready; otherwise there is one reader less. |
| `Outcomes.WUnlockOutcome` | qlock.c:190-219 | wunlock never aborts in a run: all waiting readers become readers and ready, or else the first waiting writer becomes the writer and ready. |
| `Outcomes.SleepOutcome` | rendez.c:12-18 | tasksleep puts its caller last in line and hands its lock on in one step, and nobody runs. |
| `Outcomes.RelockOutcome` | rendez.c:20-21 | After its switch tasksleep takes a free lock, or waits last in line for it. |
| `Outcomes.WakeupOutcome` | rendez.c:33-51 | The first sleeper, or every one, becomes ready, in order, and leaves the line. |
| `LockTheorems.QLockFifo` | qlock.c:61-75 | The same for every lock in every run of the library, including the release and the re-acquisition inside tasksleep. |
| `LockTheorems.ReaderBound` | qlock.c:84-101 | The reader bound for every lock in every run of the library. |
| `LockTheorems.WriterBound` | qlock.c:131-146 | The writer bound for every lock in every run of the library. |
| `LockTheorems.RendezFifo` | rendez.c:33-51 | In every run of the library, the sleepers of a rendezvous point are those awakened, in order, followed by those still asleep. |
| `LockSpec.WakeupCount` | rendez.c:33-62 | taskwakeup returns 1 if and only if somebody sleeps, and 0 if and only if nobody does; taskwakeupall returns the number of sleepers. |
| `LockTheorems.SleepEnqueues` | rendez.c:14-16 | tasksleep puts its caller at the end of the queue, be it empty or not, in the step that releases the lock. |
| `LockTheorems.NoLostWakeup` | rendez.c:12-18 | In every run: from the step in which tasksleep releases the lock, its caller is on the queue in every state up to the first wakeup that picks it. |
| `LockTheorems.PickedIsReady` | rendez.c:43-47 | The wakeup that picks a sleeper takes it off the queue and makes it ready. |
| `LockTheorems.ReturnsWithLock` | qlock.c:26-31 | A task that goes on after a blocking lock call has the lock. |
| `LockTheorems.SleepReturnsWithLock` | rendez.c:18-21 | When tasksleep returns, its task owns the lock, even if taking it again had to block. |
| `TimerTheorems.DelayIsLongEnough` | fd.c:118-166 | A delayed task never goes on before its time. The result of taskdelay is the number of milliseconds slept modulo 2^32, and at least `ms` whenever that number fits 32 bits. |
| `TimerTheorems.PollsInTime` | fd.c:44-59 | In every run, the timeout that fdtask hands to poll is -1, no timeout, exactly when nobody sleeps; otherwise it is at most 5000 ms, is 0 exactly when the first sleeper is less than 1 ms away, and a poll that keeps to it returns before any alarm still to come has passed. |
| `TimerTheorems.StepSleepers` | fd.c:87-153 | Every step leaves the list of sleepers as it is, or lets its caller in at the place that the search finds, or takes the sleepers that are due off its head. |
| `TimerTheorems.LaterSleeperFirst` | fd.c:121-153 | In every run, a task that goes to sleep until the same time as one that already sleeps is ahead of it for as long as it sleeps. |
| `Outcomes.DelayOutcome` | fd.c:107-164 | taskdelay adds one sleeper, due `ms` milliseconds after the clock was read; a caller that is counted is counted among the sleepers, and the extra count is added with the first of them. |
| `Outcomes.FdWaitOutcome` | fd.c:175-207 | fdwait adds one slot with the caller, its descriptor, events 1 (POLLIN) for 'r', 4 (POLLOUT) for 'w' and 0 otherwise, and no revents; nobody runs. The 1025th waiter aborts. fdtask is started on first use. |
| `PollTheorems.PollReadies` | fd.c:59-97 | A turn of fdtask that polls, in every reachable state: the run queue then holds, each once, the tasks for whose slot poll reports an event, the sleepers whose alarm has passed, and last fdtask. Exactly the slots without an event stay, with their task, descriptor and events, and exactly the sleepers still to come. |
| `PollTheorems.BusyTurn` | fd.c:31-36 | On its first turn, and when its taskyield has returned more than 0, fdtask goes to the end of the run queue and touches neither table nor sleepers. |
| `FdProofs.EventsDecide` | fd.c:71-81 | Slot by slot, what poll reports decides who leaves the table: a slot with an event leaves and its task is readied, one without stays as it was. |
| `FdProofs.PassDecides` | fd.c:59-97 | The same of poll, compaction and wake-up together, with the clock deciding about the sleepers. |
| `FdProofs.InsertSorted` | fd.c:121-153 | Insertion keeps the sleepers in order of alarm, equal alarms in reverse order of arrival. |
| `FdProofs.InsertAdds` | fd.c:132-153 | It adds one sleeper and loses none. |
| `FdProofs.DueIsExact` | fd.c:87 | In a sorted list the sleepers at the head that the loop takes are exactly those whose alarm has passed. |
| `FdProofs.TimeoutIsSafe` | fd.c:44-56 | The poll timeout is -1 exactly when nobody sleeps. Otherwise it is between 0 and 5000 ms, is 0 if and only if the first sleeper is less than 1 ms away or due, never reaches past an alarm still to come, and is less than 1 ms short of the first one unless it is 5000. |
| `FdProofs.WakeSleepersWakesDue` | fd.c:87-97 | A pass readies exactly the sleepers that are due, in list order, and keeps the others. |
| `FdProofs.WakeSleepersCounts` | fd.c:92-94 | A pass keeps `sleepingcounted` equal to the number of non-system sleepers, and takes the extra count away exactly when the last of them leaves. |
| `FdProofs.SweepIsExact` | fd.c:71-81 | The compaction takes out exactly the slots with events and keeps exactly the others, as multisets of whole slots. |
| `FdProofs.SweepTasks` | fd.c:71-81 | It readies no task twice, and each polled task is either kept or readied. |
| `FdProofs.DelayAtLeast` | fd.c:166 | After a full delay the elapsed milliseconds are at least `ms`, and the result is the elapsed time if and only if that is below 2^32. |
| `FdProofs.DelayGuarantee` | fd.c:166 | Over all possible wake-up times, the number returned is guaranteed to be at least `ms` if and only if `ms` is 0. |
| `Lists.Tasklist.Add` | task.c:559-573 | Appends a task that is in no list; every list of the program stays a well-formed doubly linked list and no two share a task. |
| `Lists.Tasklist.Del` | task.c:581-594 | Unlinks the i-th task, which is then in no list, with the same guarantee. |
| `Lists.Tasklist.Insert` | fd.c:132-153 | Links a task in before another, or at the end, with the same guarantee. |
| `Kernel.Kernel.TaskReady` | task.c:236-240 | The run queue grows by the task at its end, and nothing else changes. |
| `Kernel.Kernel.TaskCreate` | task.c:180-203 | A fresh task is registered, counted and ready at the end of the run queue, its id is the new taskidgen, and the registry keeps its slots. |
| `Kernel.Kernel.Register` | task.c:189-200 | The registry holds the new task in the slot it remembers, and the capacity stays a multiple of 64 that is enough. |
| `Kernel.Kernel.Resize` | task.c:191-197 | The realloc keeps the registered tasks, whether it grows or shrinks the array. |
| `Kernel.Kernel.TaskSystem` | task.c:212-218 | The running task has its flag set and is uncounted, once. |
| `Kernel.Kernel.TaskYield` | task.c:250-263 | The running task goes to the end of the run queue and nobody runs. |
| `Kernel.Kernel.Schedule` | task.c:330-349 | The scheduler exits, stalls or runs the first ready task, exactly as the specification says. |
| `Kernel.Kernel.TaskExit` | task.c:355-365 | The exiting task is uncounted unless a system task, leaves the registry by swap-delete, and is in no list afterwards. |
| `Kernel.Kernel.Unregister` | task.c:360-363 | The last task takes the slot of the leaving one and remembers it, also when both are the same. |
| `Kernel.Kernel.NoTwice` | task.c:361-363 | Because every task remembers its slot, the registry holds no task twice and the remembered slot is where it is. |
| `Kernel.Kernel.Block` | qlock.c:21-26 | The running task moves to the end of a wait queue, and nobody runs. |
| `Kernel.Kernel.WakeHead` | qlock.c:71-74 | The first waiter moves to the end of the run queue. |
| `Locks.QLock.Acquire` | qlock.c:12-26 | Got exactly on a free lock, refused exactly on an owned one when not to block, and queued at the end of the line otherwise. |
| `Locks.QLock.Release` | qlock.c:61-75 | Hands the lock straight to the first waiter, or frees it; refuses an unowned lock. |
| `Locks.RWLock.RAcquire` | qlock.c:84-101 | Got exactly when no writer holds the lock or waits for it, refused exactly when not to block otherwise, and else queued. |
| `Locks.RWLock.WAcquire` | qlock.c:131-146 | Got exactly when nobody holds the lock, refused exactly when not to block otherwise, and else queued. |
| `Locks.RWLock.RRelease` | qlock.c:174-183 | The last reader hands the lock to the first waiting writer. |
| `Locks.RWLock.AdmitReaders` | qlock.c:206-211 | The loop readies every waiting reader, in order, and counts each. |
| `Locks.RWLock.WRelease` | qlock.c:190-219 | Readers first, else the first writer; aborts exactly when the specification says so. |
| `Locks.Rendez.Sleep` | rendez.c:12-18 | The task joins the sleepers and releases the lock in the same step. |
| `Locks.Rendez.Relock` | rendez.c:20-21 | The lock is taken again, perhaps by waiting. |
| `Locks.Rendez.Wakeup` | rendez.c:33-51 | One or all sleepers are readied in order, and the result is their number: 0 or 1 unless all are awakened. |
| `Poller.Poller.Find` | fd.c:121-124 | The loop finds the place before the first sleeper that is not due earlier. |
| `Poller.Poller.EnterSleep` | fd.c:123-164 | Links the running task in at that place and keeps the two counts. |
| `Poller.Poller.TaskDelay` | fd.c:107-164 | taskdelay up to its switch, with fdtask started on first use; the poll table stays right. |
| `Poller.Poller.StartFdTask` | fd.c:113-116 | fdtask is created once, as a new task. |
| `Poller.Poller.WakeAll` | fd.c:83-97 | The wake-up loop over the linked list refines the specification. |
| `Poller.Poller.PollTimeout` | fd.c:44-56 | The timeout computed from the head of the list is the specified one, -1 for an empty list. |
| `Poller.Poller.EnterTable` | fd.c:185-206 | fdwait enters the caller, its descriptor, POLLIN for 'r' or POLLOUT for 'w', and no revents at the end of the paired arrays and blocks, or fails when the table is full. |
| `Poller.Poller.FdWait` | fd.c:175-207 | fdwait up to its switch, with fdtask started on first use. |
| `Poller.Poller.SweepTable` | fd.c:70-81 | The nested loops over the two arrays terminate, keep them paired, and refine the specified compaction. |
| `Poller.Poller.PollPass` | fd.c:59-97 | The part of a turn of fdtask from poll on: tasks whose slot has an event are in the run queue and out of the table, the other slots stay as they were, and of an ordered list exactly the due sleepers are readied; afterwards the table is fit for the next turn. |
| `Bytes.PosInjective` | channel.c:313 | Different elements of the ring are in different slots. |
| `Bytes.RingAppend` | channel.c:310-316 | Writing the slot after the last element appends to the ring and overwrites no live slot. |
| `Bytes.RingDrop` | channel.c:298-307 | Advancing the offset, with wrap-around, drops the first element. |
| `Channels.AMove` | channel.c:223-232 | Copies, clears or does nothing, and touches no other byte. |
| `Channels.Channel.TakeInto` | channel.c:298-307 | The first element leaves the byte ring for the receiver's memory. |
| `Channels.Channel.PutFrom` | channel.c:310-316 | The sender's bytes become the last element. |
| `Channels.Channel.AltCopy` | channel.c:258-317 | The three ways an element moves, with the bytes in the receiver's memory, whichever side calls. |
| `Queues.AltQueue` | channel.c:163-169 | One entry joins one side of its channel. |
| `Queues.FindSelf` | channel.c:187-196 | The search finds the entry, so that "cannot find self" is not reached. |
| `Queues.AltDequeue` | channel.c:176-196 | Exactly this entry leaves. |
| `Queues.AltAllDequeue` | channel.c:203-214 | Exactly the entries of this set leave all channels. |
| `Queues.AltQueueAll` | channel.c:431-435 | Exactly the entries of this set but the NOPs join, each once. |
| `Hubs.Hub.AltCanExecIs` | channel.c:130-156 | The test on counters and arrays agrees with the specification. |
| `Hubs.Hub.AltExec` | channel.c:326-367 | Refines the specified exchange with the peer that rand() picks or with the ring; the element is in the receiver's memory whichever party that is, the peer's first alternative points to the one served, and the peer is ready. |
| `Hubs.Hub.CountCan` | channel.c:398-404 | Counts the alternatives that can proceed. |
| `Hubs.Hub.Pick` | channel.c:410-419 | Finds, among the alternatives that can proceed, the one at the position that rand() selects. |
| `Hubs.Hub.PickedByRand` | channel.c:410-419 | The alternative chosen has exactly `rand() % ncan` candidates before it, where ncan is the number of all candidates. |
| `Hubs.Hub.ChanAlt` | channel.c:377-438 | chanalt over memory refines the specification for every value of rand(): the alternative that rand() selects, same outcome, same new state of all channels and sets, same run queue, and the bytes delivered to whoever receives; all that it requires of blocked and served tasks holds again afterwards. |
| `Hubs.Hub.ChanOp` | channel.c:454-469 | The single-operation calls are chanalt of one alternative. |
| `Hubs.Hub.ChanCreate` | channel.c:12-28 | A new channel is empty, and the others are as they were. |
| `Hubs.Hub.Resumed` | channel.c:440-442 | The resumed chanalt reads in its own array the index of the alternative that was served, which no call in between has overwritten, and takes the result as specified. |

## Left out

- Register and stack switching, stack allocation and `needstack` (context.c, asm.S, task.c): control passes to the scheduler and later comes back.
- Signals, `taskinfo`, `taskname`, `taskstate`, `taskdebug`, per-task data and `main`: they do not affect scheduling.
- `fdread`, `fdwrite` and `fdnoblock` (fd.c): loops of system calls around `fdwait`, whose results come from the kernel.
- net.c: opens, accepts and looks up sockets through system calls and `fdwait`, and keeps no state of its own.
- print.c: formats text for messages; nothing else depends on what it prints.
- httpload.c, tcpproxy.c, testdelay.c, testdelay1.c: demonstration programs that use the library as any other program may.
- `chanfree`: its own comment leaves races open (channel.c:33).
- Failure of `malloc`, `realloc`, `poll` and `gettimeofday`, and `EINTR` (fd.c:59-68): allocation succeeds, and `poll` returns arbitrary events.
- Wrap-around of task ids, `tasknswitch`, `taskcount`, the channel counters, the nanosecond clock and the integers of the sieve: mathematical integers. The 32-bit result of `taskdelay` is modelled exactly.
- The capacity of an Altarray and its growth by 16 (channel.c:56-64): its contents are a `seq` field that the methods reassign, with the same append and swap-delete.
- The quiet flag and the first line printed by primes.c (primes.c:21, primes.c:41): output is the sequence of numbers printed.
- `Hubs.Hub.ChanAlt`: assumes that while a task is blocked nobody else uses the memory it sends from or receives into, and that memory is not inside a channel; C callers that break this exchange whatever the memory holds at the time of the copy, which the value offered when the task blocked need not be.
- `Locks.RWLock.WRelease`: says nothing of the lock after an abort, where the original process has ended.
- `Parts.StepParts`: the `qunlock`, `wunlock` and hand-off aborts are unreachable only under the client discipline of `World.Enabled`; a program that breaks it is not modelled.
- A task that exits while it holds a lock leaves its freed address in the lock; the model keeps the number of the task there, and no freed address is given to a new task.
- Order inside the wait queues of a channel: `ChanSpec` keeps them as sets, because `rand()` decides who is served; `Queues` keeps the arrays with their swap-delete.
- A simulation of the code in memory by the transition system: the two share the specification functions of single calls, and nothing relates a whole heap to a `World` state.
- `_qlock` after its switch in memory (qlock.c:27-31): that the abort is unreachable is proved of the transition system only.
