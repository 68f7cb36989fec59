# A verified model of the capy-scheduler kernel

The kernel schedules client processes ("carpinchos") through seven states, gives them counting
semaphores with a record of who retains what, and breaks deadlocks by killing processes. This
project models its scheduler, semaphores, deadlock detector, burst estimator and wire format in
Dafny and proves what they keep. It reads in two layers.

**Values.** `KernelState` holds the system as a value and the invariant of every reachable state,
`Steps` what each operation does to it, `Runs` the state machine with its events and runs. On top:
`DeadlockGraph`, `Cycles` and `BetweenCycles` (what the reduction computes, in terms of circular
waits), `Recovery`, `Detection`, `DetectionTheorems`, `RecoveryQueues`, `RingSurvival` and
`OneHolder` (what a detection call does, whom it kills and wakes, which circular waits it ends), and
the theorems over whole runs in `RunTheorems`, `RingEnds`, `Discipline`, `InstanceLaw`, `Fifo`,
`PlannerTheorems`, `RunStates`, `Transitions` (where every process goes on every step, and exactly
whom a step suspends) and `QueueOrder` (who is in front of whom in every queue). `Examples` shows, at
states that end a run, what those theorems leave open.

**Objects.** `KernelObjects`, `KernelOps`, `Scheduler`, `DetectorLoops`, `DetectorOps` and `Service`
are the kernel's records and operations as classes and methods with loops and in-place updates,
each method proved to compute the function of the value layer; `Machine` shows that the objects
carry out every event and every run. So each theorem about values is a theorem about the objects.
`Requests` says, process by process and semaphore by semaphore, what each message of a client does.

`LockSteps` looks at one semaphore, and `ArrivalSteps` at arriving processes, at the granularity of
their locks. `Estimator`, `ByteBuffer`,
`Messages` and `Frames` stand on their own.

What the model assumes:

- An arrival, a client request, a hand-off between planners, the end of an I/O burst, the release of a finished
  process and a run of the detector are each one atomic step, which includes the evaluation of
  suspension it triggers. The code is finer: `kernel_sem_wait` does not take `mutexDeadlock`, the
  change of a semaphore's value and the enqueueing take their locks separately
  (`kernel/src/scheduler.c:410-422`), and so do choosing and dequeueing a process
  (`kernel/src/scheduler.c:738-740`) and looking at SUSP/READY and taking its head
  (`kernel/src/scheduler.c:693-695`). `LockSteps` drops the assumption for the semaphore calls; it lets
  even posts interleave, which `mutexDeadlock` forbids. `ArrivalSteps` drops it for arrivals.
- The long-term planner takes its token before it waits for a slot (`kernel/src/scheduler.c:687-690`)
  and may hold it for long. The model takes both at once, so its tokens are those not yet taken
  together with the one in the planner's hand.
- Semaphores are identified by a canonical name; the lookup before creation
  (`kernel/src/scheduler.c:478`) keeps it unique. Integers and times are mathematical, except for
  the 32-bit words of the wire format, which are least significant byte first.
- Lists and dictionaries of the commons library behave as sequences and maps; its list folds go
  from the first element to the last. That library is not part of this model.

Where the code and its names or promises part, the model follows the code:

- `__deadlock_matrices_son_nulas` ("the matrices are null") is true when both lists are non-empty.
- A post finds its waiter by the value, so a semaphore initialised below zero has a negative value
  and nobody to wake (`Examples.NegativeInitialWakesNobody`). The client library sends the initial
  value as an unsigned word and the kernel reads a signed one, so a value of 2^31 or more arrives
  negative (`Messages.SemInitArrives`).
- With several instances of a semaphore the victim of the detector need not be on a circular wait,
  and killing it may end none (`Examples.VictimOffCycle`) or one that it was not on
  (`Examples.VictimOffCycleEndsOne`). `BetweenCycles.ResidualIsBetween` says exactly which processes
  the victim is chosen from, `RingSurvival.RingSurvives` exactly which circular waits its death ends,
  and `OneHolder.KillsTopOfEachCycle` what follows with one holder for each.
- A circular wait that the detector finds may be undone by a running co-holder
  (`Examples.CoHolderEndsRing`); `RingEnds.StepEndsRing` says exactly by which steps, and under the
  discipline of `Discipline` there are none.
- A post that runs between a waiter's decrement and its enqueueing is lost (`LockSteps.LostWakeUp`).
- Arrivals read, advance and use the process identifier under separate locks
  (`kernel/src/scheduler.c:224-229`), so two that overlap may get the same one
  (`ArrivalSteps.SameNumberTwice`) or enter NEW out of order (`ArrivalSteps.OutOfOrder`);
  `ArrivalSteps.DistinctExactly` says exactly when identifiers are unique.
- SEM_DESTROY does not look at retained instances; when it is carried out on a retained semaphore,
  and only then, entries stay with their holders (`Discipline.DestroyLeavesStale`). Invariants hold
  all the same; conservation asks that no retained semaphore be destroyed.
- A response ratio over a service time of zero is an infinity or no number at all, and one that is
  no number stays chosen if it comes first (`Estimator.ChooseHrrn`). `Estimator.AlwaysPositive` says
  exactly when every estimate is positive.
- A request for an unknown device or with an unknown operation code leaves its process in EXEC with
  no CPU serving it (`Service.YieldsWhenGone`).

## Model

| member | source | states |
|---|---|---|
| `DetectorLoops.HasCells` | kernel/src/deadlock.c:61-91 | Walking one row with two sticky flags and an early exit answers exactly whether some entry of the other list waits and some entry, the same or another, retains |
| `DetectorLoops.StrikeRows` | kernel/src/deadlock.c:54-99 | In-place removal with the index stepped back equals an order-preserving filter of the reduced list by support in the other list, which is untouched; the returned flag says whether anything was removed |
| `DetectorLoops.ReducePass` | kernel/src/deadlock.c:106-107 | A pass strikes semaphores against the processes and then processes against the semaphores that are left |
| `DetectorLoops.ReduceLists` | kernel/src/deadlock.c:101-110 | The loop ends, since the two lists shrink on every pass but the last, with the result of the reduction over PIDs and names; nothing is done when a list is empty |
| `DetectorLoops.HighestPid` | kernel/src/deadlock.c:146 | The fold by the comparator returns a listed process with the highest PID |
| `DetectorOps.Sleepers` | kernel/src/deadlock.c:175-176 | Keeps, in order, the processes of a queue that wait on some semaphore |
| `DetectorOps.DetectorLists` | kernel/src/deadlock.c:175-182 | Blocked waiters before suspended ones, and every system semaphore in creation order |
| `DetectorOps.UnlinkPid` | kernel/src/deadlock.c:112-120 | Removes the first entry with the PID and tells whether there was one |
| `DetectorOps.DetachVictim` | kernel/src/deadlock.c:151-163 | The removal block: off BLOCKED with a slot freed, or else off SUSP/BLOCKED; off the queue of the semaphore waited on, whose value goes up by one |
| `DetectorOps.ReleaseInstances` | kernel/src/deadlock.c:136-142 | As many posts as the victim retained instances when the loop began |
| `DetectorOps.ReleaseVictim` | kernel/src/deadlock.c:147-166 | The loop over the system semaphores with the run-once flag computes RecoverFrom |
| `DetectorOps.RecoverVictim` | kernel/src/deadlock.c:144-168 | A whole recovery; when the victim is freed no scheduling, device or semaphore queue refers to it |
| `DetectorOps.DetectorRound` | kernel/src/deadlock.c:185-194 | One round kills exactly when the reduction leaves both lists non-empty, and then does one recovery |
| `DetectorOps.DetectAndRecover` | kernel/src/deadlock.c:174-214 | The whole call terminates, both loop measures shown, and computes Detect |
| `DeadlockGraph.ReduceSublists` | kernel/src/deadlock.c:92-96 | The reduction deletes entries and keeps the order of both lists |
| `DeadlockGraph.ReduceClosed` | kernel/src/deadlock.c:54-110 | Every process left waits on and retains semaphores left, every semaphore left is waited on and retained by processes left |
| `DeadlockGraph.ReduceGreatest` | kernel/src/deadlock.c:54-110 | Every pair of sublists with that property lies inside the result: the reduction is the greatest fixpoint |
| `DeadlockGraph.AnyOrderSameResult` | kernel/src/deadlock.c:101-110 | Striking unsupported entries one at a time in any order ends in the same result |
| `DeadlockGraph.CircularIsClosed` | kernel/src/deadlock.c:61-91 | The processes of a circular wait and the semaphores they wait on support one another |
| `DeadlockGraph.ClosedHasCircular` | kernel/src/deadlock.c:61-91 | A supported pair with a process in it contains a circular wait (pigeonhole) |
| `DeadlockGraph.CircularInResult` | kernel/src/deadlock.c:101-110 | Every circular wait over the lists lies inside what the reduction leaves |
| `DeadlockGraph.DetectorDecides` | kernel/src/deadlock.c:50-110 | Both lists end non-empty if and only if a circular wait exists over them |
| `Cycles.IterReturns` | kernel/src/deadlock.c:54-110 | A permutation of finitely many processes comes back to each of them |
| `Cycles.NextPermutes` | kernel/src/deadlock.c:54-110 | With one holder for each semaphore the wait-for relation of a supported pair is a permutation |
| `Cycles.OnCircular` | kernel/src/deadlock.c:54-110 | Then every process the reduction leaves lies on a circular wait inside the result |
| `Cycles.SameCycle` | kernel/src/deadlock.c:54-110 | Then two circular waits that meet have the same processes |
| `BetweenCycles.ResidualIsBetween` | kernel/src/deadlock.c:54-110 | For any number of holders: a process is left by the reduction if and only if it lies on a walk from a circular wait to a circular wait |
| `BetweenCycles.VictimIsHighestBetween` | kernel/src/deadlock.c:144-146 | Whom a round kills in general: the highest PID lying between circular waits |
| `RingSurvival.RecoverWakes` | kernel/src/deadlock.c:136-168 | Whom a recovery wakes on each semaphore: as many of the first waiters, the victim not counted, as the victim retained instances, in that order, and nobody else |
| `RingSurvival.RingSurvives` | kernel/src/deadlock.c:136-168 | With no assumption: a recovery leaves a circular wait if and only if the victim is not on it and none of its processes is among those waiters |
| `Examples.VictimOffCycle` | kernel/src/deadlock.c:144-168 | A reachable state, two instances of one semaphore, in which the victim is on no circular wait and, the instance it gives back going to a process ahead in the queue, both circular waits survive the recovery |
| `Examples.VictimOffCycleEndsOne` | kernel/src/deadlock.c:144-168 | A reachable state in which the instance goes to a process on a circular wait, so that the recovery ends a circular wait its victim was not on |
| `Recovery.MaxPidIsMax` | kernel/src/domain/pcb.c:132-136 | The fold by the comparator yields a member no smaller than any other |
| `Recovery.DetachedFirst` | kernel/src/deadlock.c:147-162 | Since the victim retains a listed semaphore the removal block always runs, before the first release, with the effect of running first of all |
| `Recovery.DetachInv` | kernel/src/deadlock.c:152-162 | After the removal every invariant holds again with the victim set apart, and no suspension becomes due |
| `Recovery.HolderPost` | kernel/src/deadlock.c:136-142 | A release by the victim keeps every invariant, never wakes the victim, wakes only a waiter on what it retained, and lowers its count by one |
| `Recovery.PostTimesFreed` | kernel/src/deadlock.c:136-142 | The releases of one semaphore empty exactly the entry of that semaphore |
| `Recovery.ReleasesAll` | kernel/src/deadlock.c:148-166 | Going down the list leaves the victim with no listed semaphore |
| `Recovery.DestroyInv` | kernel/src/deadlock.c:122-134 | Destroying the detached victim restores the invariant of the whole system |
| `Detection.SleepersListed` | kernel/src/deadlock.c:175-179 | The two filtered queues hold exactly the processes that wait on a semaphore |
| `Detection.FoundIffCircular` | kernel/src/deadlock.c:174-187 | In a good state the detector finds a deadlock if and only if some circular wait exists |
| `Detection.VictimWaits` | kernel/src/deadlock.c:146-159 | The victim waits on a system semaphore and retains a listed one |
| `Detection.RecoverInv` | kernel/src/deadlock.c:144-168 | A recovery leaves a good state with fewer sleepers; the victim was detached before releasing, was never woken and ends retaining no system semaphore; everybody else is unchanged or woken with one instance more |
| `DetectionTheorems.RecoveryCreatesNone` | kernel/src/deadlock.c:144-168 | No recovery creates a circular wait |
| `DetectionTheorems.DetectEndsDeadlock` | kernel/src/deadlock.c:174-214 | A detection call ends in a good state without circular waits, kills somebody if and only if there was one, kills only processes that waited, and otherwise changes nothing |
| `DetectionTheorems.DetectHoldings` | kernel/src/deadlock.c:136-168 | What is retained after a call was retained before or is of a system semaphore |
| `Detection.CircularMeans` | kernel/src/deadlock.c:61-91 | A circular wait, spelled out: each process waits on a semaphore that the next retains, and the last on one that the first retains |
| `OneHolder.RecoverSingle` | kernel/src/deadlock.c:144-168 | A recovery keeps at most one retained instance for each semaphore |
| `OneHolder.SingleSpares` | kernel/src/deadlock.c:136-168 | With at most one holder for each semaphore no process of a circular wait waits for an instance of somebody outside it |
| `OneHolder.OtherCyclesSurvive` | kernel/src/deadlock.c:144-168 | Then a recovery leaves every circular wait its victim is not on |
| `OneHolder.VictimTopsCycle` | kernel/src/deadlock.c:146 | Then the victim is the highest PID of a circular wait |
| `OneHolder.KillsTopOfEachCycle` | kernel/src/deadlock.c:144-214 | Then a call kills a process if and only if it is the highest PID of some circular wait |
| `OneHolder.CyclesDisjoint` | kernel/src/deadlock.c:174-214 | Then circular waits are disjoint or equal as sets |
| `OneHolder.OneVictimPerCycle` | kernel/src/deadlock.c:144-214 | Then each circular wait loses exactly one process, its highest PID |
| `OneHolder.FewestVictims` | kernel/src/deadlock.c:144-214 | Then no smaller set of processes meets every circular wait |
| `KernelObjects.IndexOf` | kernel/src/scheduler.c:74-81 | The first position of the process in the list, or -1 |
| `KernelObjects.Unlink` | kernel/src/scheduler.c:90-100 | Removes that entry; a process that is absent leaves the list as it is |
| `KernelObjects.PidsRemove` | kernel/src/deadlock.c:112-120 | Removal by identity and by PID agree on live processes |
| `KernelObjects.Semaphore.constructor` | kernel/src/domain/recurso_sem.c:16-27 | A new semaphore: current value equal to the initial one, empty queue |
| `KernelObjects.Process.constructor` | kernel/src/domain/pcb.c:106-124 | A new process: NEW, waiting on nothing, retaining nothing |
| `KernelObjects.Process.RetainOne` | kernel/src/scheduler.c:366-381 | Counts one instance more, creating the entry |
| `KernelObjects.Process.ReleaseOne` | kernel/src/scheduler.c:383-399 | Counts one instance less and drops the entry at zero; without an entry nothing happens |
| `KernelObjects.Kernel.Enqueue` | kernel/src/scheduler.c:83-88 | Appends to a scheduling queue; nothing else in the system changes |
| `KernelObjects.Kernel.Dequeue` | kernel/src/scheduler.c:90-100 | Removes from a scheduling queue; nothing else changes |
| `KernelObjects.Kernel.Transition` | kernel/src/domain/pcb.c:151-173 | Sets the status of one process; nothing else changes |
| `KernelObjects.Kernel.AddInstances` | kernel/src/domain/recurso_sem.c:39-45 | Moves the value of one semaphore; nothing else changes |
| `KernelObjects.Kernel.PushWaiter` | kernel/src/scheduler.c:114-120 | Appends to one waiting queue; nothing else changes |
| `KernelObjects.Kernel.PopWaiter` | kernel/src/scheduler.c:122-130 | Takes the head of a waiting queue, null when it is empty; nothing else changes |
| `KernelObjects.Kernel.CreateProcess` | kernel/src/domain/pcb.c:106-124 | A fresh process with the next PID, which advances |
| `KernelObjects.Kernel.DestroyProcess` | kernel/src/domain/pcb.c:126-130 | Frees a process that no queue refers to, and leaves no dangling reference |
| `KernelObjects.Kernel.CreateSemaphore` | kernel/src/scheduler.c:401-407 | A fresh semaphore at the end of the system list |
| `KernelObjects.Kernel.DropSemaphore` | kernel/src/scheduler.c:548-551 | Takes one semaphore off the system list, the others keeping their order |
| `KernelOps.Suspend` | kernel/src/scheduler.c:719-727 | The last blocked process goes to SUSP/BLOCKED and its slot is freed |
| `KernelOps.EvaluateSuspension` | kernel/src/scheduler.c:162-169 | Evaluates suspension and waits for it: the result is the one of Evaluate, which Transitions.SuspendsExactly pins to the states of the processes and PlannerTheorems.RunSlots to the queues of every run |
| `KernelOps.Move` | kernel/src/scheduler.c:210-215 | Dequeue, change of status and enqueue make one shift between two queues |
| `KernelOps.SemWait` | kernel/src/scheduler.c:409-431 | Blocks, with suspension evaluated, when the lowered value is negative, and records an instance otherwise; the result tells which |
| `KernelOps.PostInstance` | kernel/src/scheduler.c:435-441 | The value goes up, the poster gives an instance back if it has one, and the test for waiters is taken on the new value |
| `KernelOps.WakeUp` | kernel/src/scheduler.c:446-450 | A suspended sleeper goes to SUSP/READY with an admission token, a blocked one to READY |
| `KernelOps.WakeFirst` | kernel/src/scheduler.c:443-454 | The head of the queue is woken, waits on nothing and retains one instance more |
| `KernelOps.SemPost` | kernel/src/scheduler.c:433-456 | Returns the head of the queue exactly when the raised value is at most zero and somebody waits, else null; in a good state with a non-negative initial value, exactly when the value was negative |
| `Scheduler.FindSemaphore` | kernel/src/scheduler.c:478 | The first position of the name in the system list, or -1 exactly when the name is not in the system |
| `Scheduler.TakeFirst` | kernel/src/scheduler.c:102-112 | Takes the head of a scheduling queue, null when it is empty |
| `Scheduler.Arrive` | kernel/src/scheduler.c:222-235 | A new PID at the end of NEW, suspension evaluated, then one admission token |
| `Scheduler.AdmitNext` | kernel/src/scheduler.c:685-706 | One token and one slot are taken; the head of SUSP/READY, or else of NEW, goes to READY |
| `Scheduler.Dispatch` | kernel/src/scheduler.c:738-745 | The chosen process goes from READY to EXEC and suspension is evaluated |
| `Scheduler.SemInit` | kernel/src/scheduler.c:475-490 | Creates the semaphore unless the name exists |
| `Scheduler.SemDestroy` | kernel/src/scheduler.c:538-561 | Removes the semaphore unless somebody waits on it; retained instances are not looked at |
| `Scheduler.CallIo` | kernel/src/scheduler.c:308-338 | From EXEC to BLOCKED and to the end of the device queue, suspension evaluated; an unknown device changes nothing |
| `Scheduler.StartBurst` | kernel/src/scheduler.c:270-275 | The device takes the first process of its queue into service; who it has yet to finish with stays the same |
| `Scheduler.IoDone` | kernel/src/scheduler.c:277-293 | When the burst ends the process in service wakes according to its status by then |
| `Scheduler.Close` | kernel/src/scheduler.c:602-608 | From EXEC to EXIT |
| `Scheduler.FinishedNowhere` | kernel/src/scheduler.c:178-184 | A finished process taken off EXIT is in no queue of any kind |
| `Scheduler.NowhereUnqueued` | kernel/src/scheduler.c:184 | A process in no queue of the abstract state is in no list of the heap, so freeing it leaves no dangling reference |
| `Scheduler.FreeExit` | kernel/src/scheduler.c:176-187 | The head of EXIT is freed and its slot given back |
| `Service.YieldsWhenGone` | kernel/src/scheduler.c:597-620 | The CPU looks for another process if and only if the process is no longer in EXEC, sent an unknown operation code or asked for an unknown device; in the last two cases nothing changes and it stays in EXEC |
| `Service.Serve` | kernel/src/scheduler.c:459-589 | Each request does to the objects what Served does to the abstract state, and the result says whether the CPU looks for another process |
| `Service.Attend` | kernel/src/scheduler.c:591-621 | The first messages are served in turn, the process being in EXEC before each; nothing is served after MATE_CLOSE, an unknown code, a request for a device, known or not, or a wait without an instance left, and nothing else stops the service |
| `Service.ServedIsRun` | kernel/src/scheduler.c:591-621 | Serving messages in turn is a run of the state machine with the events of those messages in their order |
| `Machine.Perform` | kernel/src/scheduler.c:172-749 | Whatever event is enabled, the objects take the step of the abstract state machine and stay well formed |
| `Machine.Simulate` | kernel/src/scheduler.c:751-804 | From the initial system the objects go through the states of any run of the state machine |
| `StepInvariants.PostWakes` | kernel/src/scheduler.c:433-454 | A post with somebody in the queue always finds the value at most zero, and its head asleep |
| `StepInvariants.PostInv` | kernel/src/scheduler.c:433-456 | A post by anybody keeps every invariant and makes no suspension due |
| `StepInvariants.EvaluateInv` | kernel/src/scheduler.c:162-169 | Suspension keeps every invariant, and afterwards the case for it is gone |
| `SchedulerInvariants.WaitInv` | kernel/src/scheduler.c:409-431 | SEM_WAIT leads from a good state to a good state |
| `SchedulerInvariants.AdmitReady` | kernel/src/scheduler.c:687-696 | An admission with a token always finds a process |
| `SchedulerInvariants.AdmitInv` | kernel/src/scheduler.c:685-706 | An admission leads from a good state to a good state |
| `SchedulerInvariants.DispatchInv` | kernel/src/scheduler.c:738-745 | Running a process leads from a good state to a good state, READY possibly left empty |
| `SchedulerInvariants.CallIoInv` | kernel/src/scheduler.c:308-338 | CALL_IO leads from a good state to a good state |
| `SchedulerInvariants.IoDoneInv` | kernel/src/scheduler.c:265-296 | So does the end of an I/O burst |
| `SchedulerInvariants.ArriveInv` | kernel/src/scheduler.c:217-239 | So does the arrival of a process |
| `SchedulerInvariants.CloseInv` | kernel/src/scheduler.c:602-608 | So does MATE_CLOSE |
| `SchedulerInvariants.FreeExitInv` | kernel/src/scheduler.c:172-189 | So does the release of a finished process |
| `SchedulerInvariants.SemInitInv` | kernel/src/scheduler.c:475-490 | So does SEM_INIT |
| `SchedulerInvariants.SemDestroyInv` | kernel/src/scheduler.c:538-561 | So does SEM_DESTROY, even of a retained semaphore |
| `Runs.GoodInitial` | kernel/src/scheduler.c:751-778 | The initial system is in a good state |
| `Runs.GoodStep` | kernel/src/scheduler.c:172-749 | Every step, the detector included, leads from a good state to a good state: each process in the one queue its status names; in the queue of a semaphore, once, if and only if it waits on it; queue lengths, tokens and slots in step; no suspension overdue |
| `Runs.RunGood` | kernel/src/scheduler.c:172-749 | Every state of every run from the initial system is good |
| `Requests.InitSemDoes` | kernel/src/scheduler.c:475-490 | SEM_INIT of a new name makes a semaphore with the value asked for, initially and currently, and an empty queue, and changes nothing else; of a known name it changes nothing |
| `Requests.WaitSemDoes` | kernel/src/scheduler.c:491-512 | SEM_WAIT of an unknown name changes nothing; with a positive value the process retains one instance more; otherwise it goes to the end of the queue of that semaphore, waiting on it, in BLOCKED or, when nobody is ready, somebody is new and no slot is free, at once in SUSP/BLOCKED; nothing else changes |
| `Requests.PostSemDoes` | kernel/src/scheduler.c:513-537 | SEM_POST of an unknown name changes nothing; otherwise value up, one instance less for the poster if it had any, the head of the queue out of it with one more, to READY or SUSP/READY; no other process and no other semaphore changes |
| `Requests.DestroySemDoes` | kernel/src/scheduler.c:538-561 | SEM_DESTROY removes a semaphore nobody waits on and changes nothing else; otherwise nothing |
| `Requests.UseDeviceDoes` | kernel/src/scheduler.c:308-338 | CALL_IO of an unknown device changes nothing; otherwise the process goes to the end of the line of that device, asleep and waiting on no semaphore |
| `Requests.MateCloseDoes` | kernel/src/scheduler.c:602-608 | MATE_CLOSE puts the process at the end of EXIT with what it retains |
| `Requests.OthersDoNothing` | kernel/src/scheduler.c:568-586 | Memory requests and unknown codes change nothing |
| `Transitions.EveryMove` | kernel/src/scheduler.c:172-749 | The state diagram: where every process is after every step, by the event and the state before it; only a process that would be blocked may be suspended instead |
| `Transitions.DetectorMoves` | kernel/src/deadlock.c:174-214 | A detection call destroys its victims, makes those it wakes ready or suspended-ready, and moves nobody else |
| `Transitions.SuspendsExactly` | kernel/src/scheduler.c:162-169 | A step suspends a process if and only if it evaluates suspension, nobody would be ready, somebody new and somebody blocked, no slot is free, and the process is the caller that has just blocked or else the last of BLOCKED |
| `Transitions.AfterSuspension` | kernel/src/scheduler.c:716-728 | After a step that suspends, READY is empty, NEW is not, and one slot is free |
| `Transitions.EnabledByState` | kernel/src/scheduler.c:685-749 | When each event may happen, by the states of the processes and the free slots alone |
| `Transitions.BackgroundKeeps` | kernel/src/scheduler.c:172-235 | Arrivals, admissions, dispatches, ends of bursts and departures change no semaphore, and nothing but the state of a process |
| `RunStates.RunPlaces` | kernel/src/scheduler.c:83-100 | In every state of every run a process stands exactly once in the scheduling queue of its state and in no other |
| `RunStates.RunWaiters` | kernel/src/scheduler.c:114-130 | And exactly once in the queue of the semaphore it waits on and in no other; whoever waits is blocked or suspended, on a semaphore of the system |
| `RunStates.RunDevices` | kernel/src/scheduler.c:265-338 | And exactly once in the line of one device if it sleeps without waiting on a semaphore; anybody else in none |
| `RunStates.RunSemaphores` | kernel/src/domain/recurso_sem.c:16-53 | Semaphores are listed once; a queue is never longer than the value is negative, and as long for a non-negative initial value; retained counts are positive |
| `QueueOrder.StepOrder` | kernel/src/scheduler.c:83-112 | Over every step, in every scheduling queue, those who stay keep their order and newcomers go behind; from NEW, SUSP/READY and EXIT those in front leave first |
| `QueueOrder.LineRun` | kernel/src/scheduler.c:83-112 | So NEW, SUSP/READY and EXIT are first come, first served over every run |
| `QueueOrder.NewRun` | kernel/src/scheduler.c:222-229 | In every run those who have left NEW, in order, and then NEW itself are the processes 1, 2, 3 and so on in the order of arrival |
| `QueueOrder.NewAscending` | kernel/src/scheduler.c:222-229 | NEW is strictly ascending by PID in every state of every run |
| `QueueOrder.AdmitsLeast` | kernel/src/scheduler.c:685-706 | An admission in a run takes the head of SUSP/READY, leaving NEW alone, or else the least PID of NEW |
| `QueueOrder.DevicesServeInOrder` | kernel/src/scheduler.c:265-338 | Over every run from the start the processes that asked for a device are those it has served, in order, and then its line |
| `ArrivalSteps.DistinctExactly` | kernel/src/scheduler.c:61-72 | With arrivals interleaving at the granularity of their locks: processes have different PIDs if and only if no thread read the counter while another had it read and not yet advanced |
| `ArrivalSteps.SameNumberTwice` | kernel/src/scheduler.c:224-229 | A concrete interleaving of two arrivals in which both processes get PID 1 |
| `ArrivalSteps.OutOfOrder` | kernel/src/scheduler.c:224-229 | One in which the PIDs differ and NEW is not in order |
| `ArrivalSteps.ArrivalWhole` | kernel/src/scheduler.c:224-229 | An arrival without interleaving is the one of the atomic model |
| `RunTheorems.OnlyWaitsCreate` | kernel/src/scheduler.c:409-456 | A circular wait that a step creates passes through the process whose SEM_WAIT blocked in that step; no other step creates one |
| `RunTheorems.CycleHasItsWait` | kernel/src/scheduler.c:409-431 | Over a run, every new circular wait has a blocking SEM_WAIT of one of its processes, since which it has lasted |
| `RunTheorems.StepConserves` | kernel/src/scheduler.c:366-456 | Value, waiters and retained instances change by plus one for a post by a non-holder, by minus what a leaving process retained, and by nothing else |
| `RunTheorems.RunConserves` | kernel/src/scheduler.c:366-456 | Over any run that keeps the semaphore the sum changes by the total of those |
| `RunTheorems.FreePlusRetained` | kernel/src/scheduler.c:409-456 | For a non-negative initial value that sum is the free instances and the retained ones |
| `Conservation.PostBooks` | kernel/src/scheduler.c:433-456 | A post by a holder moves an instance, a post by anybody else makes one |
| `Conservation.WaitBooks` | kernel/src/scheduler.c:409-431 | A wait neither makes nor loses an instance |
| `Conservation.RecoverBooks` | kernel/src/deadlock.c:136-168 | A recovery neither makes nor loses an instance of a system semaphore |
| `Conservation.OneHolderOnly` | kernel/src/scheduler.c:366-399 | If the instances add up to at most one there is at most one holder, with one instance |
| `InstanceLaw.CarefulNoStale` | kernel/src/scheduler.c:547 | If no retained semaphore is destroyed, whatever requests are refused, only system semaphores are retained |
| `InstanceLaw.InstancesConserved` | kernel/src/scheduler.c:366-456 | Then value, waiters, retained and lost instances add up to the initial value and the posts by non-holders, over every run since the creation |
| `RingEnds.StepEndsRing` | kernel/src/scheduler.c:433-454 | With no assumption: a step ends a circular wait if and only if it is the one of the detector or a post whose semaphore has a process of that circular wait at the head of its queue |
| `Examples.CoHolderEndsRing` | kernel/src/scheduler.c:433-454 | A reachable state with two instances of a semaphore in which the detector finds a circular wait that the post of a running co-holder ends |
| `Discipline.DestroyLeavesStale` | kernel/src/scheduler.c:547 | SEM_DESTROY leaves entries of the destroyed name behind if and only if it is carried out and somebody retains the semaphore |
| `Discipline.DisciplineKept` | kernel/src/scheduler.c:401-456 | Initial values of zero or one, posts by holders, and no destruction of a semaphore that is retained (a refused request does not count) keep at most one instance of each semaphore |
| `Discipline.DisciplineSingle` | kernel/src/scheduler.c:366-399 | Under that discipline each semaphore has at most one holder |
| `Discipline.CycleIsStable` | kernel/src/scheduler.c:409-456 | Under it no step but the one of the detector ends a circular wait, since no post can wake one of its processes |
| `Discipline.ResidualIsStable` | kernel/src/deadlock.c:61-97 | Under it whoever the detector would list stays listed and asleep whatever else happens: no false positives |
| `Discipline.DisciplinedRunSingle` | kernel/src/scheduler.c:401-456 | Every state of a disciplined run meets the premise of the one-victim theorems |
| `Discipline.CycleLasts` | kernel/src/scheduler.c:409-456 | A circular wait lasts through any disciplined run without the detector |
| `RecoveryQueues.RecoverQueue` | kernel/src/deadlock.c:136-168 | A recovery leaves the victim out of a queue and wakes a prefix of the rest |
| `RecoveryQueues.DetectQueue` | kernel/src/deadlock.c:136-168 | A detection call leaves its victims out of a queue, wakes a prefix of the rest in order and keeps the order of what remains |
| `Fifo.StepQueue` | kernel/src/scheduler.c:114-130 | The same law for every step: victims out, a blocking process at the end, those woken from the front |
| `Fifo.FifoRun` | kernel/src/scheduler.c:409-456 | Over a run: those who waited at the start or blocked during it, in that order and without the ones killed while waiting, are those woken, in order, and then those still waiting |
| `PlannerTheorems.TokensExact` | kernel/src/scheduler.c:685-696 | There is an admission token if and only if somebody is to be admitted |
| `PlannerTheorems.SuspensionEnablesAdmission` | kernel/src/scheduler.c:716-728 | After any step that suspends somebody an admission is enabled |
| `PlannerTheorems.RunSlots` | kernel/src/scheduler.c:162-187 | In every state of every run free slots and the processes in READY, EXEC, BLOCKED and EXIT add up to the configured degree, tokens equal the processes in NEW and SUSP/READY, and while somebody is new and somebody blocked, somebody is ready or a slot is free |
| `PlannerTheorems.PostWakesHead` | kernel/src/scheduler.c:433-454 | A post by a running process wakes the head of the queue, if there is one, and nobody else |
| `PlannerTheorems.PostWakesIffNegative` | kernel/src/domain/recurso_sem.c:47-53 | For a non-negative initial value the queue is as long as the value is negative, and a post by a running process wakes somebody if and only if the value was negative |
| `PlannerTheorems.NewQueueMatches` | kernel/src/domain/recurso_sem.c:16-27 | A new semaphore has that law if and only if its initial value is not negative |
| `Examples.NegativeInitialWakesNobody` | kernel/src/scheduler.c:351 | A reachable state with a running process and a semaphore initialised to -1: its value is negative, a post on it can happen, and wakes nobody |
| `LockSteps.MoveConserves` | kernel/src/scheduler.c:409-456 | Each critical section of SEM_WAIT and SEM_POST keeps the instances, counting calls in flight |
| `LockSteps.InterleavingLaws` | kernel/src/scheduler.c:409-456 | Over every interleaving of calls at the granularity of their locks instances are conserved, and the queue law holds up to calls in flight and pops that came too early |
| `LockSteps.QuietLaws` | kernel/src/scheduler.c:409-456 | Between calls conservation holds outright, and the queue law if and only if no post popped an empty queue meant for it |
| `LockSteps.MissNeedsRace` | kernel/src/scheduler.c:410-422 | The first such pop happens between the decrement and the enqueue of some waiter |
| `LockSteps.LostWakeUp` | kernel/src/scheduler.c:410-444 | A concrete interleaving in which a waiter goes to sleep although the instance meant for it was posted |
| `LockSteps.FifoInterleaving` | kernel/src/scheduler.c:114-130 | Over every interleaving those who went to sleep, in order, are those taken off the queue, in order, and then the queue |
| `LockSteps.WaitWhole` | kernel/src/scheduler.c:409-431 | A SEM_WAIT whose critical sections follow one another is the one of the atomic model |
| `LockSteps.PostWhole` | kernel/src/scheduler.c:433-456 | So is a SEM_POST that wakes: the poster has one instance less, the head of the queue is awake and has one more |
| `LockSteps.PostFree` | kernel/src/scheduler.c:433-456 | And one that finds no negative value |
| `Estimator.ClosedForm` | kernel/src/domain/pcb.c:64-68 | After any bursts the estimate is the initial one and the bursts weighted by powers of one minus alpha |
| `Estimator.EstimateBetween` | kernel/src/domain/pcb.c:64-82 | For alpha from 0 to 1 the estimate stays within the range of the initial estimate and the bursts |
| `Estimator.AlwaysPositive` | kernel/src/domain/pcb.c:147-149 | Every estimate over non-negative bursts is positive, so every response ratio is defined, if and only if alpha is below 1 and the initial estimate is positive |
| `Estimator.UpdateAfterEach` | kernel/src/domain/pcb.c:70-82 | Under SJF or HRRN, updating the record after each burst leaves in it the estimate of the whole history, and under HRRN the time of the last update |
| `Estimator.ChooseHrrn` | kernel/src/scheduler.c:632-650 | The earliest process of the list whose response ratio no other exceeds, for any estimates: a first ratio that is no number stays, later ones are passed over |
| `Estimator.ChooseByHistory` | kernel/src/scheduler.c:632-650 | From arrival through any HRRN history, with alpha below 1 and a positive initial estimate: each record holds the estimate of its bursts and the time since its last one, and the choice is the earliest process with the highest ratio, stated over the histories: wait since the last recording, over the estimate, plus one |
| `Estimator.HistoryBetween` | kernel/src/domain/pcb.c:64-82 | For bursts that last between two bounds the estimate is between them |
| `Estimator.RatioCases` | kernel/src/domain/pcb.c:147-149 | The response ratio by cases: a number when the estimate is not zero, 1 when the wait begins now; over an estimate of zero it exceeds every number, is below every number or compares with nothing, as the wait is positive, negative or zero |
| `Estimator.ChooseSjf` | kernel/src/scheduler.c:624-630 | The earliest process of the list with the least estimate |
| `Estimator.Overtakes` | kernel/src/domain/pcb.c:147-149 | One response ratio exceeds another if and only if the wait, weighed by the estimate of the other process, is longer |
| `Estimator.OverdueIsChosen` | kernel/src/scheduler.c:632-650 | A process whose wait passes the longest wait of the others, scaled by the estimates, exceeds them all, so the choice falls on it |
| `Bytes.NumberOfWord` | utils/src/buffer.c:33-34 | A word of four bytes, least significant first, reads back as the number written |
| `Bytes.WordOfNumber` | utils/src/buffer.c:42-43 | Four bytes read and written again are the same bytes |
| `Bytes.LeastFirst` | utils/src/buffer.c:42-43 | The first byte is the least significant one: the remainder by 256, the other three being the quotient |
| `Bytes.SignedIs` | kernel/src/scheduler.c:350-351 | Read as an int32_t a word is the one number from -2^31 to 2^31 - 1 congruent to it modulo 2^32 |
| `ByteBuffer.MoveDown` | utils/src/buffer.c:28 | The overlapping move to the front |
| `ByteBuffer.Buffer.Pack` | utils/src/buffer.c:19-23 | Appends exactly the given bytes |
| `ByteBuffer.Buffer.Unpack` | utils/src/buffer.c:25-30 | Delivers the first bytes, the rest of the destination untouched, and keeps exactly what follows them |
| `ByteBuffer.Strlen` | utils/src/buffer.c:33 | The bytes before the first NUL |
| `ByteBuffer.Buffer.PackString` | utils/src/buffer.c:32-38 | Appends the length with the terminator, and then the string with it |
| `ByteBuffer.Buffer.UnpackString` | utils/src/buffer.c:40-47 | Delivers as many bytes as the length says and keeps what follows |
| `ByteBuffer.PackedStringFront` | utils/src/buffer.c:32-47 | Where a string was packed, whatever follows it, unpacking finds that string |
| `ByteBuffer.StringRoundTrip` | utils/src/buffer.c:32-47 | Data with a terminator comes back as the same string if and only if it holds no NUL |
| `ByteBuffer.Drive` | utils/src/buffer.c:19-30 | FIFO: through any interleaving of packs and in-bounds unpacks, what was there and what was packed equals what was unpacked and what is left |
| `Messages.UnpackSemInit` | kernel/src/scheduler.c:341-354 | Takes a string and then four bytes, read as signed, off the front |
| `Messages.UnpackCallIo` | kernel/src/scheduler.c:356-363 | Takes two strings off the front, device before message |
| `Messages.SemInitArrives` | kernel/src/scheduler.c:341-354 | The name of a SEM_INIT arrives as sent; its value if and only if it is below 2^31, a larger one becoming negative |
| `Messages.CallIoArrives` | kernel/src/scheduler.c:356-363 | Device and message of a CALL_IO arrive as sent, in order |
| `Frames.CreateStream` | utils/src/stream.c:14-23 | Copying at a moving offset lays out operation code, size and payload |
| `Frames.WireLayout` | utils/src/stream.c:14-23 | The very bytes of a message with a small code and a short payload, and of a short string |
| `Frames.ReceiveOpCode` | utils/src/stream.c:51-55 | Takes four bytes as the operation code |
| `Frames.ReceiveBuffer` | utils/src/stream.c:37-43 | Takes over the size and as many bytes; an empty payload leaves the stream as it is, so a buffer that held bytes before then ends inconsistent, and no other does |
| `Frames.ParseOfWire` | utils/src/stream.c:14-55 | The bytes of any list of messages parse back to the same operation codes and payloads |
| `Frames.WireOfParse` | utils/src/stream.c:14-55 | Bytes that parse are the bytes of those messages and of no others |
| `Frames.Exchange` | utils/src/stream.c:25-55 | Any list of messages sent over an idle connection is received as the same list |

## Left out

- Sockets, partial transfers, threads, logging and sleeping: a message is taken to arrive whole, and each thread's loop body is an event.
- `kernel/src/mem_adapter.c`: forwarding to an external memory module; memory requests change nothing in the model.
- `kernel/src/kernel.c`, the configuration files, the use cases and makefiles: no property beyond reading settings.
- The client library, except for the bytes of SEM_INIT and CALL_IO.
- The choice of the ready process inside the state machine: `Chosen` may name any ready process, so the theorems hold for SJF, HRRN and any other policy. `Estimator` proves what the two choices return over records of their own.
- A bound of EXEC by the number of CPUs: it fails once a process is abandoned there.
- Fairness and progress of whole runs: nothing says that a ready process is ever chosen.
- LockSteps.InterleavingLaws: covers SEM_WAIT and SEM_POST on one semaphore; other interleavings of critical sections (choice and dequeue, SUSP/READY test and transition, detector and a running SEM_WAIT) are not modelled.
- QueueOrder.NewRun: and the other theorems over runs take arrivals one at a time; how they interleave is in ArrivalSteps alone.
- Estimator.ChooseSjf: the library's minimum is modelled as a left fold; its source is not part of this model.
- Scheduler.FindSemaphore: compares canonical names, where the source ignores case while comparing the names as they were given.
- ByteBuffer.Buffer.Unpack: asking for more bytes than there are, which the code does not check, is outside its precondition.
- ByteBuffer.Buffer.UnpackString: likewise a stated length beyond the bytes that follow; both read and copy outside the allocation, which C leaves undefined.
- 32-bit wrap-around of values, counts, PIDs and sizes, case-insensitive comparison of names, rounding of doubles, allocation failure.
