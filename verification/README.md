# Five concurrent programs, modelled and proved

The models follow five programs of this repository, each run by any number of processes or
threads. A program is a state machine: a state, the actions of its processes, and a step function
that says what an action does, or that it is blocked. A run is any list of actions that are not
blocked, so every statement about runs is one about every interleaving. Each program is also
written as a class whose methods change the fields, arrays and counters in place, as the C code
does; their contracts say that each method does the step of the state machine.

- `ReadersWriters`: the four-semaphore lock that prefers writers (`MidtermProject/sync.c`).
- `Server`, `WaitQueue`, `PidList`: the admission loop of the file server and the two structures
  it uses (`MidtermProject/server.c`, `MidtermProject/common.c`).
- `FileTree`, `Copier`, `CopierStop`, `CopierInPlace`: the parallel directory copier
  (`Homework5/200104004104_main.c`; `Homework4/200104004104_main.c` is the same protocol with
  joins in place of the barrier).
- `PideShop`, `PideShopInPlace`: the pide shop (`FinalProject/PideShop.c`).
- `Parking`, `ParkingInPlace`: the parking lot (`Homework3/hw3.c`).
- `Counting`, `RingPlaces`, `Runs`: counting over any number of processes, places on a ring buffer,
  and runs of step functions.

A semaphore operation is a step of its own in `ReadersWriters` and `Parking`; elsewhere a step is
one critical section, from taking the mutex to releasing it or to falling asleep on a condition
variable. `pthread_cond_signal` wakes one sleeper, which the scheduler picks; sleepers may also wake
without a signal. Values that the program does not record, such as which worker took a file, are
kept as history in the state.

Where the code does not do what one would expect, the models follow the code, and a lemma says
when it does:

- `resize_queue` copies while `front != rear`, but `enqueue` calls it only on a full ring, where the
  two are equal: it copies nothing. `WaitQueue.EnqueueIsFifoIff` and `Server.ClientIsLostIff` say
  exactly when clients are lost, and `Server.HaltsIff` that this, and nothing else, makes the
  server take a client out of the queue that is not there. The pool bound and the order of service
  hold all the same.
- `check_args` lets any `maxClient` but -1 through. With 0 or less the server forks a child that
  it has no place for, once the number that it tells a client comes to 0:
  `Server.AdmissionBoundIff`.
- Writers have preference only from the moment they hold `read_try`:
  `ReadersWriters.PreferenceIff` says exactly when they can still be overtaken.
- The comment at `FinalProject/PideShop.c:23` lists statuses 0 to 4; the code uses 3 for "ready", 4
  for "being delivered" and 5, for a moment, for "delivered".
- The pide shop does not wait for the end of a batch before it takes the next one, nor does it
  check the orders: `PideShop.BatchIsCoherentIff`. Runs of the shop therefore take a batch only when
  no order is left, and batches as the client program makes them (`FinalProject/HungryVeryMuch.c`,
  lines 67-81).
- The other programs do not look at their arguments either. With a buffer of size 0 the copier's
  manager falls asleep for ever at the first file, and without workers no file is copied:
  `Copier.CopyEndsIff`. Without chefs or without deliverers no order is delivered:
  `PideShop.BatchIsServedIff`.
- The server takes every SIGCHLD for an exit, but its handler is also called when a child is stopped
  or continued, which the model of the loop leaves out: `Server.StrayFlagIff` says exactly when one
  such signal is harmless.
- The client program takes its number of customers as it is given. A batch of 0 orders is accepted,
  and its client waits for a notification that never comes: `PideShop.ClientIsNotifiedIff`.

`dafny verify dfyconfig.toml` checks everything.

## Model

| member | source | states |
|---|---|---|
| `ReadersWriters.StepKeepsInv` | MidtermProject/sync.c:6-120 | every semaphore operation of any process keeps the token account: each of `read_try`, `rmutex`, `wmutex` and `rsc` plus its individual or group holder is exactly 1, and each counter counts the processes between its increment and its decrement |
| `ReadersWriters.AdvanceKeepsBalance` | MidtermProject/sync.c:6-120 | the account survives the step of a process whatever the others are, also where the first or last of a group hands a semaphore on |
| `ReadersWriters.InitInv` | MidtermProject/sync.c:160-182 | the account holds for a file as `init_sfile` leaves it |
| `ReadersWriters.ReachableInv` | MidtermProject/sync.c:6-120 | the account holds after every run of any number of processes |
| `ReadersWriters.WriterExcludesAll` | MidtermProject/sync.c:64-120 | in every reachable state a writer in its region excludes every other writer and every reader |
| `ReadersWriters.SemaphoresStayBinary` | MidtermProject/sync.c:6-120 | no semaphore is ever posted above 1, and `reader_count` and `writer_count` are exact |
| `ReadersWriters.FollowsTheSource` | MidtermProject/sync.c:6-120 | every step of a process is the statement that the source has next in its function, written as two lists of operations, with the effect of that statement on semaphores and counters; and a process is blocked exactly where the statement waits on a semaphore of value 0 |
| `ReadersWriters.RegionBoundaries` | MidtermProject/sync.c:6-120 | a process comes out of an enter function into its region only, and into an exit function from its region only |
| `ReadersWriters.EveryProcessGetsIn` | MidtermProject/sync.c:6-120 | from every reachable state in which a process is idle, some run brings it to its region, to read or to write |
| `ReadersWriters.StuckOnlyWhenIdle` | MidtermProject/sync.c:64-120 | no deadlock: if no process can take a step, none is inside any of the four functions and the file is as it was initialized |
| `ReadersWriters.EveryRunDrains` | MidtermProject/sync.c:6-120 | once no request starts, every schedule is bounded by the summed remaining steps, and it is stuck if and only if all processes are idle, then with all semaphores 1 and both counters 0 |
| `ReadersWriters.WritersComeFirst` | MidtermProject/sync.c:72-76 | from the moment the writers as a group hold `read_try`, along any run in which `writer_count` stays positive, no reader passes the gate and the set of readers past it only shrinks |
| `ReadersWriters.PreferenceIff` | MidtermProject/sync.c:6-120 | exactly when writers that want the file can still be overtaken: some run in which `writer_count` stays positive brings a reader past the gate if and only if the writers do not hold `read_try` yet and some process is not itself a writer waiting at line 67 or 76 |
| `ReadersWriters.WaitingWriterCanBeOvertaken` | MidtermProject/sync.c:73-77 | the witness that this can go on: for every `k` there is a run in which a reader comes and goes `k` times while the first writer waits for `read_try` |
| `ReadersWriters.RefinesLock` | MidtermProject/sync.c:6-120 | every step is invisible, or one of the four operations of an abstract lock that is free, held by one writer, or held by a set of readers, by the same process |
| `ReadersWriters.LockStartsFree` | MidtermProject/sync.c:160-182 | the abstract lock of an initialized file is free |
| `ReadersWriters.LockIsExclusive` | MidtermProject/sync.c:6-120 | in every reachable state the abstract lock has no writer, or one writer and no reader |
| `ReadersWriters.RunRefinesLock` | MidtermProject/sync.c:6-120 | every run of any length is a run of the abstract lock, state by state |
| `ReadersWriters.AcquireNeeds` | MidtermProject/sync.c:20-91 | a reader is taken in only while no writer holds `rsc`, a writer only while nobody does |
| `ReadersWriters.SafeFile.InitSfile` | MidtermProject/sync.c:153-185 | all semaphores 1, both counters 0 |
| `ReadersWriters.SafeFile.Call` | MidtermProject/sync.c:6-9 | starting an enter function changes nothing but where the process stands |
| `ReadersWriters.SafeFile.Leave` | MidtermProject/sync.c:41-44 | starting an exit function changes nothing but where the process stands |
| `ReadersWriters.SafeFile.ReaderEnterRegion` | MidtermProject/sync.c:6-39 | each statement runs exactly when its semaphore lets it, does the step of the state machine in place, and keeps the file reachable |
| `ReadersWriters.SafeFile.ReaderExitRegion` | MidtermProject/sync.c:41-62 | the same for the exit of a reader |
| `ReadersWriters.SafeFile.WriterEnterRegion` | MidtermProject/sync.c:64-91 | the same for the entry of a writer |
| `ReadersWriters.SafeFile.WriterExitRegion` | MidtermProject/sync.c:93-120 | the same for the exit of a writer |
| `WaitQueue.EnqueueIsFifoIff` | MidtermProject/common.c:7-23 | `enqueue` appends its client if and only if the ring is not full of clients; when it is, all of them are forgotten and `size` keeps counting them |
| `WaitQueue.SecondWaiterIsFatal` | MidtermProject/common.c:42-65 | from the empty queue, the clients put in are kept if and only if no two wait at the same time |
| `WaitQueue.QueueStaysWellFormed` | MidtermProject/common.c:7-40 | size and capacity stay consistent under `enqueue` and `dequeue` |
| `WaitQueue.PhantomsStay` | MidtermProject/common.c:42-65 | what was forgotten stays forgotten, however many clients come after |
| `WaitQueue.EnqueuedLength` | MidtermProject/common.c:7-23 | `size` counts every client ever put in, kept or not |
| `WaitQueue.RingDoubles` | MidtermProject/common.c:42-48 | the capacity of a ring that only takes clients in is the least power of two that holds them |
| `WaitQueue.Ring.constructor` | MidtermProject/server.c:74-79 | the queue as `main` sets it up is empty with capacity 0 |
| `WaitQueue.Ring.Enqueue` | MidtermProject/common.c:7-23 | on the ring, `rear` one behind the last client modulo the capacity: the queue after the call is the specified one |
| `WaitQueue.Ring.Store` | MidtermProject/common.c:13-22 | a ring with a free slot takes the client at `rear` and appends it |
| `WaitQueue.Ring.Dequeue` | MidtermProject/common.c:25-40 | returns NULL only for size 0, else the slot at `front`, which is cleared; the slot holds the first client and the queue loses it, unless only forgotten ones are counted; then the fields of the ring are promised, which is no queue any more |
| `WaitQueue.Ring.ResizeQueue` | MidtermProject/common.c:42-65 | ends by ring distance; lays out what is between `front` and `rear` from slot 0 on in FIFO order, and copies nothing when the two meet |
| `WaitQueue.Ring.CopyOut` | MidtermProject/common.c:54-58 | the copying loop moves exactly the clients between `front` and `rear`, in order, none when they are equal |
| `PidList.IndexOf` | MidtermProject/common.c:117-124 | the first position of the pid, or -1 if and only if it is not listed |
| `PidList.AddedElements` | MidtermProject/common.c:89-96 | on a list without repetitions, adding a new child adds exactly it |
| `PidList.RemovedElements` | MidtermProject/common.c:98-110 | on a list without repetitions, removing takes away exactly that child and keeps the list packed |
| `PidList.AddedKeepsPlaces` | MidtermProject/common.c:89-96 | the child that is added comes last, and every other one keeps its place |
| `PidList.RemovedKeepsOrder` | MidtermProject/common.c:98-110 | the children that stay keep their order |
| `PidList.RemoveUndoesAdd` | MidtermProject/common.c:89-110 | removing the child just added gives back the list |
| `PidList.ProcessArray.constructor` | MidtermProject/server.c:68-71 | the list starts empty, whatever its capacity |
| `PidList.ProcessArray.AddPidList` | MidtermProject/common.c:89-96 | appends, or fails with -1 exactly when the list is full |
| `PidList.ProcessArray.FindPidList` | MidtermProject/common.c:117-124 | the loop returns the first position, or -1 |
| `PidList.ProcessArray.RemovePidList` | MidtermProject/common.c:98-110 | removes the first occurrence, or returns -1 and changes nothing when there is none |
| `PidList.ProcessArray.ShiftDown` | MidtermProject/common.c:105-107 | the shifting loop closes the gap and keeps the order |
| `Server.StepKeepsInv` | MidtermProject/server.c:137-229 | every step of the loop, and every exit of a child at any time, keeps the relation between flag, zombies, free places and waiting clients |
| `Server.ForkHasPlace` | MidtermProject/server.c:221-228 | every fork finds a free place, also the one after `dequeue`, which does not look at the capacity, as long as only exits set the flag |
| `Server.ReachableInv` | MidtermProject/server.c:137-229 | the relation holds after every run |
| `Server.AdmissionBoundIff` | MidtermProject/server.c:137-229 | for every `maxClient`, also 0 and negative ones, when only exits set the flag: in every run the list holds every child and never more than the capacity, if and only if the capacity is at least 1 |
| `Server.StrayFlagIff` | MidtermProject/server.c:58-66 | a SIGCHLD that is no exit, as when a child is stopped or continued, while the server reads: the bound holds in every run from there if and only if the flag was set anyhow or fewer children run than there are places |
| `Server.StrayFlagBreaksBound` | MidtermProject/server.c:208-228 | so for every capacity there is a reachable state from which such a signal leads past the bound |
| `Server.NoStrandedWaiter` | MidtermProject/server.c:157-187 | while a client waits, a child runs, or an exit is pending with the flag set; and without a pending exit and a lost client all places are taken |
| `Server.PassServesFirstWaiter` | MidtermProject/server.c:208-229 | however exits interleave, one pass of the flag serves the client that waited longest and no other |
| `Server.PassEnds` | MidtermProject/server.c:208-229 | a pass ends: it takes at most two steps for each child that runs, one for each zombie, and two |
| `Server.WaiterIsServed` | MidtermProject/server.c:208-229 | the client with `i` others before it is served by the end of pass `i + 1`, in every run that loses no client |
| `Server.ServedInOrderOfRequest` | MidtermProject/server.c:157-187 | no client is served before one that asked earlier and is still to be served |
| `Server.EveryChildItsNumber` | MidtermProject/server.c:303-306 | `client_id` counts the clients served, and a child gets as its number the place of its client in the order of service |
| `Server.WaitersKeepTheirRequest` | MidtermProject/server.c:176-179 | along every run, a client that waits is kept with the pid and directory that it asked with, and only clients that asked to wait do |
| `Server.DiscardsShortRequests` | MidtermProject/server.c:143-147 | a request that was not read whole changes nothing and the server reads again at once |
| `Server.PassEndsInReading` | MidtermProject/server.c:208-229 | a pass ends with one look at the queue, after which the server reads again |
| `Server.QueueAfterAllReaped` | MidtermProject/server.c:213-221 | the queue is not looked at before every child that has exited was waited for |
| `Server.LostRequestsArePhantoms` | MidtermProject/server.c:173-187 | requests = served + waiting + refused + lost; the lost ones are what the queue counts beyond its clients, and there is never more than one |
| `Server.ClientIsLostIff` | MidtermProject/server.c:176-179 | the first client is lost exactly when one starts to wait while another one waits |
| `Server.SecondWaiterIsForgotten` | MidtermProject/server.c:176-179 | a run with one place and three clients in which the second one is forgotten |
| `Server.HaltsIff` | MidtermProject/server.c:220-228 | exactly when a server can come, without a further request, to take out of the queue a slot that holds no client: if and only if a client was lost |
| `Server.ForgottenClientHaltsServer` | MidtermProject/server.c:221-227 | the run of the three clients goes on to such a `dequeue` |
| `Server.MainLoop.constructor` | MidtermProject/server.c:68-79 | the state in which `main` enters the loop, for any `maxClient` |
| `Server.MainLoop.CreateChildProcess` | MidtermProject/server.c:303-306 | the parent side of the fork, in place |
| `Server.MainLoop.PutInQueue` | MidtermProject/server.c:176-179 | the client goes to the wait queue, with its ring grown if it is full |
| `Server.MainLoop.AdmitClient` | MidtermProject/server.c:156-187 | serves, queues or refuses as the state machine says, and tells the client 0 if it is served at once and else the capacity plus the length of the queue |
| `Server.MainLoop.HandleRequest` | MidtermProject/server.c:140-189 | one whole request |
| `Server.MainLoop.ChildExits` | MidtermProject/server.c:1071-1074 | an exit makes a zombie and sets the flag |
| `Server.MainLoop.CheckFlag` | MidtermProject/server.c:208-209 | the flag is tested and cleared |
| `Server.MainLoop.WaitChild` | MidtermProject/server.c:213-218 | one child is reaped and leaves the list |
| `Server.MainLoop.CheckQueue` | MidtermProject/server.c:220-228 | at most one client is taken from the queue and forked; halts exactly when the slot holds none, with that slot cleared, `front` moved on and everything else unchanged |
| `FileTree.PlanHasDistinctPaths` | Homework5/200104004104_main.c:195-245 | the traversal never makes two things at one path, if no directory has two entries of one name |
| `FileTree.PlanIsLookup` | Homework5/200104004104_main.c:195-245 | the depth-first traversal makes something at a path if and only if the tree has exactly that there |
| `FileTree.PlanIsBelow` | Homework5/200104004104_main.c:200-211 | what a directory contributes lies below its path, in the entry it comes from |
| `FileTree.PlanConcat` | Homework5/200104004104_main.c:195-245 | the traversal takes the entries of a directory in their order |
| `FileTree.DirectoriesComeFirst` | Homework5/200104004104_main.c:186-193 | a directory is made before anything in it |
| `FileTree.FilesAreOfPlan` | Homework5/200104004104_main.c:212-238 | the files that are added are the regular files of the tree, each once |
| `Copier.StepKeepsSync` | Homework5/200104004104_main.c:226-265 | every step keeps: workers sleep only while the items do not exceed the awake workers and `done` is not set; the manager sleeps only while the buffer is full; a worker leaves only when nothing will come |
| `Copier.WalkTodo` | Homework5/200104004104_main.c:195-211 | the recursive walk makes the next thing of the depth-first plan, and nothing else |
| `Copier.AddKeepsOrder` | Homework5/200104004104_main.c:226-238 | what was added and what is still to come make up the plan, also when the walk gives up after a stop |
| `Copier.ClosesKeepsStage` | Homework5/200104004104_main.c:267-269 | a file leaves its last holder with its descriptors closed once |
| `Copier.WritesKeepsContent` | Homework5/200104004104_main.c:285-286 | every short read extends the destination by the next bytes of the source, and no other file changes |
| `Copier.StepKeepsInv` | Homework5/200104004104_main.c:163-294 | every step of the manager, of any worker, of the stop request and every spurious wakeup keeps the whole invariant |
| `Copier.ReachableInv` | Homework5/200104004104_main.c:163-294 | the invariant holds after every run |
| `Copier.AddedFilesAreCopied` | Homework5/200104004104_main.c:226-235 | stop or not, with at least one worker or no file added, when the barrier opens: the buffer is empty, the added files are a prefix of the depth-first order, each was taken by one worker and equals its source, the counters are exact, the descriptors of every opened file were closed exactly once, and the files given up after a stop are left empty |
| `Copier.AddedAreCountedIff` | Homework5/200104004104_main.c:226-274 | when the barrier opens, the files counted as copied are the added ones if and only if there is a worker or nothing was added |
| `Copier.CopyMirrorsSource` | Homework5/200104004104_main.c:163-294 | without a stop, for every tree, buffer size and interleaving and every number of workers but 0 (and for 0 if there is no file): when the barrier opens the destination is the source laid over what was there before, and all four counters are exact |
| `Copier.NothingIsAddedAfterDone` | Homework5/200104004104_main.c:230-235 | once `done` is set no run adds a file any more |
| `CopierStop.GiveUpLeavesTheRest` | Homework5/200104004104_main.c:230-235 | in every run, a step that gives up a file takes what lies below the directory of that file off what is to do, and nothing else |
| `CopierStop.StopIsOrderly` | Homework5/200104004104_main.c:180-248 | when the barrier opens, with or without a stop: an entry of the tree was passed over exactly if a file had been given up before it in one of the directories that it lies in, and then its place in the destination is untouched; every other entry was made; and the counters of directories and FIFOs count exactly those made |
| `CopierStop.StepKeepsStop` | Homework5/200104004104_main.c:180-294 | every step keeps the outcome of all entries passed, the place of the walk and the two counters |
| `Copier.SignalsWakeOne` | Homework5/200104004104_main.c:236-238 | adding a file wakes one sleeping worker if there is any, and nobody else; taking one wakes the manager |
| `Copier.ReadsUpTo4096` | Homework5/200104004104_main.c:282-285 | a read returns any number of bytes from 1 to 4096 that is left |
| `Copier.StuckOnlyWhenGone` | Homework5/200104004104_main.c:226-265 | no lost wakeup and no deadlock: if nobody can move, the manager and all workers have passed the barrier, or the manager is asleep with a file in hand and the buffer has size 0 or there are no workers; a manager asleep at a stop is woken like any other |
| `Copier.EveryRunEnds` | Homework5/200104004104_main.c:163-294 | every run ends, from any state and with stops: its length is at most `StepsLeft` of its start, plus two for every spurious wakeup in it |
| `Copier.CopyEndsWithMirror` | Homework5/200104004104_main.c:71-121 | total correctness, with a buffer of at least 1 and at least one worker, or without a file: every schedule without a stop, spurious wakeups included, ends within that bound, with all threads gone, a mirror and exact counters |
| `Copier.CopyEndsIff` | Homework5/200104004104_main.c:76-103 | for every tree and all arguments: every schedule without a stop ends so if and only if the buffer size and the number of workers are at least 1, or there is no file |
| `CopierInPlace.Buffer.constructor` | Homework5/200104004104_main.c:128-137 | the ring starts empty, whatever its size |
| `CopierInPlace.Buffer.Add` | Homework5/200104004104_main.c:147-154 | appends to the items between `head` and `tail` |
| `CopierInPlace.Buffer.Get` | Homework5/200104004104_main.c:156-161 | takes the first item off |
| `CopierInPlace.CopyFileContents` | Homework5/200104004104_main.c:282-294 | for any sequence of short reads the whole file is written and every byte counted once |
| `CopierInPlace.Program.constructor` | Homework5/200104004104_main.c:71-103 | the state in which the threads start |
| `CopierInPlace.Program.SignalNotEmpty` | Homework5/200104004104_main.c:237 | wakes one sleeping worker, if there is one |
| `CopierInPlace.Program.BroadcastNotEmpty` | Homework5/200104004104_main.c:172 | wakes every sleeping worker |
| `CopierInPlace.Program.TraverseDirectory` | Homework5/200104004104_main.c:195-247 | one turn of the innermost traversal loop is the step of the state machine |
| `CopierInPlace.Program.GiveUp` | Homework5/200104004104_main.c:230-235 | after a stop the file is closed unadded and the directory left |
| `CopierInPlace.Program.AddFile` | Homework5/200104004104_main.c:236-238 | the file goes into the ring and one worker is signalled |
| `CopierInPlace.Program.AddOrGiveUp` | Homework5/200104004104_main.c:226-238 | the critical section waits, gives up or adds as the state machine says |
| `CopierInPlace.Program.FinishTraversal` | Homework5/200104004104_main.c:170-173 | sets `done` and wakes every worker |
| `CopierInPlace.Program.RequestStop` | Homework5/200104004104_main.c:320-323 | sets `done` and wakes every worker, but does not signal the manager |
| `CopierInPlace.Program.FetchItem` | Homework5/200104004104_main.c:253-265 | sleeps, leaves or takes the first item and signals the manager |
| `CopierInPlace.Program.CopyChunk` | Homework5/200104004104_main.c:285-288 | one read and write, or the closing of the descriptors |
| `CopierInPlace.Program.UpdateCounters` | Homework5/200104004104_main.c:272-274 | the two guarded counters |
| `PideShop.StepKeepsOven` | FinalProject/PideShop.c:152-199 | free slots plus slot holders stay 2, free peels plus peel holders 3, `ovenCapacity` is the chefs that cook, and a chef sleeps on a slot or peel only while others on their way outnumber the free ones |
| `PideShop.SignalSettlesOven` | FinalProject/PideShop.c:184-199 | one signal makes up for the slot or peel that was freed |
| `PideShop.StepKeepsInv` | FinalProject/PideShop.c:127-290 | every critical section of chefs, deliverers and clients, and every spurious wakeup, keeps the whole invariant |
| `PideShop.ReachableInv` | FinalProject/PideShop.c:127-290 | the invariant holds after every run of any number of chefs and deliverers |
| `PideShop.OvenIsAccounted` | FinalProject/PideShop.c:168-187 | in every reachable state the free slots and their holders are 2, the free peels and their holders 3, and `ovenCapacity` is at most 2, so no chef ever waits for the oven itself |
| `PideShop.OrdersAreConserved` | FinalProject/PideShop.c:255-287 | `numOrders` counts the live records; during a batch `numOrders + deliveredOrders == max_order`; over all batches what was delivered is `allOrders - numOrders`; one notification was sent per finished batch that had orders, none before its end, and none for a batch of 0 orders |
| `PideShop.NobodyOversleeps` | FinalProject/PideShop.c:131-133 | while there is an order nobody sleeps on `orderAvailable`, and no free slot or peel is left to sleepers only |
| `PideShop.FirstUnclaimedIs` | FinalProject/PideShop.c:134-142 | the search loop claims the first order that is unclaimed, or none if there is none |
| `PideShop.ClaimsOnlyNew` | FinalProject/PideShop.c:130-143 | a chef claims the first order with status 0 that is not placed and was sent, marks it, and only looks if there is none |
| `PideShop.ChefFollowsTheSource` | FinalProject/PideShop.c:152-205 | a chef with an order takes a slot, a peel and the oven in turn, waits only where there is none, marks the order 2 in the oven, gives the oven, the slot and the peel back in this order and marks the order 3 |
| `PideShop.FreeingWakesOne` | FinalProject/PideShop.c:184-199 | a chef that leaves the oven, frees a slot or frees a peel wakes one sleeper on that condition variable if there is any, and nobody on another |
| `PideShop.FinishingWakesOne` | FinalProject/PideShop.c:202-205 | a finished order wakes one chef or deliverer that sleeps on `orderAvailable`, if there is any |
| `PideShop.BatchWakesAll` | FinalProject/PideShop.c:423 | a batch wakes everybody on `orderAvailable` and nobody else |
| `PideShop.CollectsUpToThree` | FinalProject/PideShop.c:222-229 | a deliverer takes all ready orders up to three |
| `PideShop.BagInOrder` | FinalProject/PideShop.c:222-229 | what is in a bag was ready, is marked as being delivered, and is in the order of the records |
| `PideShop.DeliveryIsCounted` | FinalProject/PideShop.c:257-268 | a delivered bag is counted for the deliverer that carried it and for no other, and its orders come off `numOrders` |
| `PideShop.ReadyIs` | FinalProject/PideShop.c:222-229 | the collecting loop takes ready orders in order of their index, at most 3; a ready order is left behind only if the bag is full with orders before it |
| `PideShop.ClearsOnlyIts` | FinalProject/PideShop.c:257-277 | clearing by id changes that order's record only, although zeroed records and the very first order have id 0 |
| `PideShop.StepLives` | FinalProject/PideShop.c:127-290 | an order changes only to the next status of its life, and only by the chef that claimed it or the deliverer that carries it |
| `PideShop.EachStageOnce` | FinalProject/PideShop.c:127-290 | along any run within a batch an order changes exactly as often as it has come stages further, so each stage is passed once; its chef and its deliverer stay the same |
| `PideShop.ShopIsEmpty` | FinalProject/PideShop.c:255-287 | when no order is left every record is zeroed, no chef holds one and no bag does |
| `PideShop.BatchIsCoherentIff` | FinalProject/PideShop.c:413-424 | for any batch that comes at any time: records and counters agree afterwards if and only if no order of the last batch is left and every order that comes has status 0 and `isPlaced` 0 |
| `PideShop.QuietOven` | FinalProject/PideShop.c:152-199 | no deadlock over slots and peels: when no chef acts, none holds anything and all slots and peels are free |
| `PideShop.QuietWhenServed` | FinalProject/PideShop.c:127-290 | with at least one chef and one deliverer: when no chef or deliverer has anything to do, every order is delivered and everybody sleeps |
| `PideShop.EveryBatchIsServed` | FinalProject/PideShop.c:127-290 | in every run between two batches, with any number of idle looks around, at most `Work(s)` steps, plus two for each spurious wakeup, change anything; and when nothing is left to do in a shop with a chef and a deliverer, or with no order, all orders are delivered, everything is back in its place, everybody sleeps and every batch with orders has had its one notification |
| `PideShop.BatchIsServedIff` | FinalProject/PideShop.c:311-345 | a batch with orders is delivered in every run that comes to rest if and only if there are at least one chef and one deliverer |
| `PideShop.ClientIsNotifiedIff` | FinalProject/PideShop.c:278-282 | the client of a batch is notified exactly once, with the last delivery, if its batch has orders, and never if it has none |
| `PideShopInPlace.Shop.constructor` | FinalProject/PideShop.c:61-76 | the globals as they start |
| `PideShopInPlace.Shop.ClaimOrder` | FinalProject/PideShop.c:134-142 | the loop marks the first unclaimed order and returns its index, or returns -1 and changes nothing |
| `PideShopInPlace.Shop.LookForOrder` | FinalProject/PideShop.c:130-143 | sleeps, claims or looks again as the state machine says |
| `PideShopInPlace.Shop.SignalChef` | FinalProject/PideShop.c:186 | wakes one sleeper on that condition variable, if there is one |
| `PideShopInPlace.Shop.TakeSlot` | FinalProject/PideShop.c:152-158 | sleeps or takes a slot |
| `PideShopInPlace.Shop.TakePeel` | FinalProject/PideShop.c:160-166 | sleeps or takes a peel |
| `PideShopInPlace.Shop.PlaceInOven` | FinalProject/PideShop.c:168-175 | counts into the oven and marks the order as being cooked |
| `PideShopInPlace.Shop.TakeOutOfOven` | FinalProject/PideShop.c:184-187 | counts out of the oven and signals |
| `PideShopInPlace.Shop.FreeSlot` | FinalProject/PideShop.c:190-193 | gives the slot back and signals |
| `PideShopInPlace.Shop.FreePeel` | FinalProject/PideShop.c:196-199 | gives the peel back and signals |
| `PideShopInPlace.Shop.FinishOrder` | FinalProject/PideShop.c:202-205 | marks the order ready and wakes one chef or deliverer |
| `PideShopInPlace.Shop.FillBag` | FinalProject/PideShop.c:222-229 | the loop marks and packs exactly the first ready orders, at most 3 |
| `PideShopInPlace.Shop.CollectOrders` | FinalProject/PideShop.c:218-230 | sleeps, packs a bag or looks again as the state machine says |
| `PideShopInPlace.Shop.ClearRecords` | FinalProject/PideShop.c:258-277 | the two loops together zero exactly the records with this id |
| `PideShopInPlace.Shop.SendNotification` | FinalProject/PideShop.c:88-125 | one notification, and `deliveredOrders` starts over |
| `PideShopInPlace.Shop.DeliverOrder` | FinalProject/PideShop.c:257-283 | one turn of the delivery loop |
| `PideShopInPlace.Shop.DeliverBag` | FinalProject/PideShop.c:255-287 | the delivery loop over the whole bag |
| `PideShopInPlace.Shop.StoreOrders` | FinalProject/PideShop.c:413-421 | the loop takes over exactly the orders of status 0, with consecutive ids, counts them, and leaves the other records as they were |
| `PideShopInPlace.Shop.Resize` | FinalProject/PideShop.c:392-400 | a batch of another size gets an array of that size, a batch of the same size the old one |
| `PideShopInPlace.Shop.Announce` | FinalProject/PideShop.c:423-424 | every sleeper on `orderAvailable` is woken |
| `PideShopInPlace.Shop.TakeBatch` | FinalProject/PideShop.c:392-427 | the arrival of any batch is the step of the state machine |
| `Parking.StepKeepsToken` | Homework3/hw3.c:59-82 | every semaphore operation and critical section passes the one token on: nobody has it, one owner has it alone, or one owner and the one attendant that serves its vehicle |
| `Parking.TakingUp` | Homework3/hw3.c:122-123 | an attendant starts to serve only for an owner that posted a vehicle of its kind |
| `Parking.FirstFreeIs` | Homework3/hw3.c:133-140 | the search finds the first empty slot, if there is one |
| `Parking.ParkedKeeps` | Homework3/hw3.c:132-140 | a positive counter means that the search parks the vehicle, in a slot that was empty, and the counter stays exact |
| `Parking.SweepKeeps` | Homework3/hw3.c:91-99 | a sweep frees what has stood its time, counts it, and loses nothing |
| `Parking.StepKeepsInv` | Homework3/hw3.c:54-183 | every step keeps the token, the exact counters and the conservation of vehicles |
| `Parking.ReachableInv` | Homework3/hw3.c:54-183 | the invariant holds after every run of any number of owners and attendants |
| `Parking.OneTokenInFlight` | Homework3/hw3.c:59-82 | the two "new" semaphores, the two "done" semaphores and the attendants in service hold together as many tokens as owners wait for their vehicle, at most one; and one owner at most is in a hand-off, with the lock |
| `Parking.QueueHoldsAtMostOne` | Homework3/hw3.c:66-70 | the shared queue never holds more than one vehicle, `freeSlot` never blocks an owner, and no attendant in service is ever blocked |
| `Parking.TakesItsOwnKind` | Homework3/hw3.c:125-128 | an attendant takes out of the shared queue a vehicle of its own kind, the one that the owner in the hand-off waits for |
| `Parking.CountersAreExact` | Homework3/hw3.c:131-145 | in every reachable state there are 8 and 4 slots, each `mFree_*` counter is the number of empty ones, and every vehicle stands among its kind |
| `Parking.VehiclesAreConserved` | Homework3/hw3.c:54-183 | every vehicle that came is, exactly once, in the hand-off, parked, or freed on leaving or being refused; no other is anywhere; ids count up from 1 |
| `Parking.ParksWhileThereIsRoom` | Homework3/hw3.c:131-145 | in every reachable state a vehicle that is parked takes an empty slot of its kind if there is any, and is refused exactly if they are all taken |
| `Parking.SweepEmptiesExpired` | Homework3/hw3.c:87-113 | a sweep takes from the slots exactly the vehicles that have stood 20 seconds by the time that was read once for both sweeps, they have departed, and nothing else changes |
| `Parking.StaysItsTime` | Homework3/hw3.c:91-99 | no other step takes a parked vehicle from its slot |
| `Parking.ArrivalIsRecorded` | Homework3/hw3.c:59-64 | a vehicle that arrives gets the next id, the kind that its owner chose and the time of its arrival |
| `Parking.GoRound` | Homework3/hw3.c:54-183 | owners and attendants go through the statements of their loops in order and leave out none |
| `Parking.StuckToken` | Homework3/hw3.c:59-82 | with an attendant for each kind, threads are stuck only when nobody has the token |
| `Parking.EveryHandOffEnds` | Homework3/hw3.c:54-183 | between arrivals every schedule is bounded, and stuck only at rest: lock free, queue empty, all semaphores as initialized, every vehicle parked or freed |
| `ParkingInPlace.ParkInFirstFree` | Homework3/hw3.c:133-140 | the loop parks in the first empty slot and counts it |
| `ParkingInPlace.RemoveExpired` | Homework3/hw3.c:92-99 | the loop empties exactly the slots whose time is up, and counts them |
| `ParkingInPlace.ParkingLot.constructor` | Homework3/hw3.c:190-206 | the globals as `main` sets them up |
| `ParkingInPlace.ParkingLot.VehicleArrives` | Homework3/hw3.c:57-64 | an owner takes the lock and a new vehicle the next id |
| `ParkingInPlace.ParkingLot.PutInQueue` | Homework3/hw3.c:67-70 | the vehicle goes to the slot at `queue_rear` |
| `ParkingInPlace.ParkingLot.SemaphoreStep` | Homework3/hw3.c:122-148 | the four semaphore operations of an attendant, by its kind |
| `ParkingInPlace.ParkingLot.TakeFromQueue` | Homework3/hw3.c:125-128 | the slot at `queue_front`, whatever it holds |
| `ParkingInPlace.ParkingLot.ParkVehicle` | Homework3/hw3.c:132-144 | parks or refuses by the counter |
| `ParkingInPlace.ParkingLot.ParkOrFree` | Homework3/hw3.c:131-145 | the critical section, in place |
| `ParkingInPlace.ParkingLot.CheckAndRemoveExpiredPickups` | Homework3/hw3.c:88-100 | the sweep of the pickups, in place |
| `ParkingInPlace.ParkingLot.CheckAndRemoveExpiredAutomobiles` | Homework3/hw3.c:103-112 | the sweep of the automobiles, in place |

## Left out

- System calls that fail (`sem_wait` interrupted, `open`, `mkdir`, `mkfifo`, `stat`, `malloc`, `fork`, a short `write`, a full FIFO): they are taken to succeed.
- Signal handlers that interrupt a thread inside a critical section: a stop request and the exit of a child are steps of their own between those of the threads.
- A second stop request, or one after the traversal has ended: it sets `done` again and finds no sleeper.
- The rest of `signal_handler` in the copier (lines 325-335): its joins, its clean-up and its `exit`. A stop is its critical section alone, and the handler is taken to run on the main thread; on the manager or on a worker its joins would wait for threads at a barrier that waits for the interrupted one.
- `Server.AdmissionBoundIff`: `SIGCHLD` comes only from exits, in this and in every statement about runs of the server but `Server.StrayFlagIff` and `Server.StrayFlagBreaksBound`.
- Sockets, FIFOs, shared memory, log files, printing, sleeps and the client programs; `calculateDistance`, which only sets how long a deliverer sleeps.
- The `SIGINT` shutdown of the server (lines 191-206) and its clean-up.
- The commands that server children carry out (`cmd_*`, `copy_file`, `seek_line`, `read_next_line`), and the lookup of files in `get_sfile` and `add_sfile`, which is not synchronized.
- `destroy_queue`, `destroy_pid_list`, `cleanup` and other end-of-process clean-up.
- Integer widths: counters, ids and sizes are unbounded.
- Path strings in the copier: paths are lists of names, so truncation at `PATH_MAX` is not modelled; the source does not change and does not overlap the destination; a destination entry of a different kind than the source entry is taken to be absent.
- `Homework4/200104004104_main.c` as a program of its own: it has joins where Homework5 has the barrier.
- Memory that was never written: a slot of the wait queue that holds no client is `Unset`, and a server that takes one out is `Halted`; what it would do with the stray pointer is not modelled.
- `WaitQueue.Ring.Dequeue`: promises only the fields of a ring from which a forgotten client was taken, because `front` has then passed `rear` and the ring is no queue any more.
- `Server.MainLoop.CheckQueue`: promises of the wait queue only its fields once the server has halted, for the same reason.
- A negative `maxClient`: `malloc` fails for the list of children, and the first fork writes through the null pointer; the state machine counts the children all the same, the methods that add a child ask for a capacity of at least 0.
- Negative buffer sizes and numbers of workers, for which `malloc` or `pthread_barrier_init` fails; a negative size of a pool of the pide shop is one of 0.
- Infinitely many wakeups without a signal: `Copier.EveryRunEnds` and `PideShop.EveryBatchIsServed` bound a run by the number of them that it has.
- `PideShop.EveryBatchIsServed`: bounds the steps that change something; chefs and deliverers that look around in vain while orders are on their way do so any number of times.
- `PideShopInPlace.Shop.TakeBatch`: the change of `max_order` and of the array, which main makes before it takes `ordersMutex`, is one step with the critical section; a negative number of orders, for which `malloc` fails, is not modelled.
- Runs of the pide shop in which batches overlap, or bring orders that are not new: `PideShop.BatchIsCoherentIff` says that the first such batch breaks the bookkeeping, and nothing is said of what follows.
- The unsynchronized accesses of the pide shop: `status = 2` is set under `ovenMutex`, and an order's id is read for the log after its last critical section; both are taken to be atomic, and the latter is not modelled.
- `PideShop.StepLives`: the status 5 that a record has between the two loops of one delivery is inside a step; `PideShopInPlace.Shop.ClearRecords` has both loops.
- Fairness: which process gets a semaphore, a lock or a signal is left to the scheduler, so nothing is said of how long one of several waits.
- The clock of the parking lot: what `time` returns is a parameter of the step that asks for it, and need not increase.
- Homework1 and Homework2.
