# Four systems programs, modelled and verified in Dafny

The repository holds four independent C programs. Each is modelled here twice: as the code works (processes
with program counters and pipes, heap nodes, arrays, in-place updates) and as the plain values it stands for;
and the first is proved to do what the second says, over whole runs and under every schedule.

* **The service tree** (`hw2/service.c`). A tree of processes, each joined to its parent by two pipes, runs
  `spawn`, `kill` and `exchange`. `ServiceTree` says on plain trees what each command does and prints.
  `ServiceMachine` is the program: one process has a name, a secret, a program counter with the locals that
  matter, and a list of children behind pipes; one step is at most one pipe or fifo operation of one process.
  `SpawnRefines`, `KillRefines`, `ExchangeCounts`, `ExchangeActs`, `ExchangeRefines` and `FifoSwap` show that
  every step of every process stays on the way to the result; `ServiceMeasure` that every step lowers a
  potential of 26 per service and command; `ServiceRuns` puts whole runs of a command script together.
  `ServicePreorder` restates the tree operations on the preorder, and `ServiceTranscripts` gives for each command
  the tree and the terminal after every complete run, in terms of the preorder alone. `ServiceFds` models the
  descriptor table of one service, `ServiceTables` those of the whole tree over runs, and `ChildList` the linked
  list of children.
* **The thread pool** (`hw4/my_pool.c`). `TaskQueue` is the linked queue on the heap and the critical
  sections; `ThreadPool` is the step system of any number of workers, threads that add, threads that wait and
  one that destroys, with spurious wakeups; `PoolRuns` holds the results about runs.
* **The user-level scheduler** (`hw3/`). `GreenThreads` gives the turns of the three thread programs and an
  entry of the scheduler as functions on values; `SchedulerInvariant`, `SchedulerRuns`, `BankLock`, `BankBalance`,
  `Bypass` and `TimeSlices` prove what runs keep; `Scheduler` is the code on arrays of control blocks, proved equal to the functions.
* **The bulletin board** (`hw1/`). `BoardCodec` is the record format, both ends; `RecordCircle` and
  `BulletinBoard` are the slot allocator, the lock table and the record locks of the kernel; `BoardServer` is
  the server on its arrays; `BoardPulls` says what a pull shows of the file; `BoardReader` is the client's reading loop, on a connection that may deliver any
  chunks, fail and end; `BoardClients` composes the server with the order of requests that the client program
  follows.

`Occurrences` counts how often a value occurs in a sequence, for the pool and the scheduler.

Where code and behaviour one might expect differ, the code is modelled:

* The number of services killed is an unsigned char, so it is reported modulo 256 (`KillCuts`).
* An `exchange` for which only one of the two services exists blocks in the fifo open for ever
  (`ExchangeHangs`: the Manager never becomes ready again, and when nothing moves any more the fifo is open at
  one end only; `ExchangeCompletes`: an exchange ends exactly when both or neither exist).
* `tpool_wait` is woken by a signal, not a broadcast. With two threads in it one can sleep for ever
  (`OneWaiter`: every call returns exactly when nobody waits, or one thread does and there is a worker).
* A client that asks for a slot while it has one makes the first slot unusable for good (`AskedTwice`: a
  request keeps table and clients in agreement exactly when the client has no slot or the request is refused;
  `LostForGood`). The shipped client never does that (`AlwaysAgree`).
* The client keeps the length of what it has received in an unsigned variable (`hw1/client.c:32`), so that its
  tests for a failure notice only the end of the stream. The error message appears exactly when the connection
  ends before the count or the records are there, with no failing `recv` first and the buffer not overrun by
  then (`LostExactly`); after a failing `recv` the client goes on with what its buffer held before
  (`FailureShows`).
* The client trusts the count it receives. Its buffer or its list of posts is overrun exactly when it sees a
  count and more bytes arrive than the buffer holds, or the count is above ten and the connection does not end
  before the records are there (`OverrunExactly`, with `BigCountOverruns` and `BigCountLost` as examples of both
  ways). A server never sends such a count (`ServerPull`).

## Model

| member | source | states |
|---|---|---|
| ServiceRuns.Refinement | hw2/service.c:127-155 | for every script of commands and every schedule of the processes: boundedly many steps; no process fails and no pipe to a child ever holds two messages; whenever a living Manager is ready for input every process is idle, every pipe and fifo empty, and the tree is the result of the commands read; the output is a prefix of the one transcript; nothing can move exactly when the one outcome is reached |
| ServiceRuns.ScheduleIndependence | hw2/service.c:127-155 | two complete runs of the same script end in the same state with the same output |
| ServiceRuns.Finish | hw2/service.c:127-155 | from every state that a run reaches, the outcome of the script can be reached: no deadlock |
| ServiceRuns.AlongTheWay | hw2/service.c:449-453 | no unframed read can meet two messages; a ready Manager means a tree at rest |
| ServiceRuns.ExchangeCompletes | hw2/service.c:391-424 | an exchange of two different names that each occur at most once completes under every schedule if and only if both occur or neither does |
| ServiceRuns.ExchangeHangs | hw2/service.c:391-418 | with one of the two missing, no run comes back to a ready Manager; within 26 steps per service nothing moves any more, and the fifo from b to a is then open at the end of the service that exists and at no other |
| ServiceRuns.SpawnStep | hw2/service.c:159-197 | a step during a spawn keeps it on course with less potential, or ends it with the tree and output that the specification says |
| ServiceRuns.KillStep | hw2/service.c:252-302 | the same for a kill, the Manager's own end included |
| ServiceRuns.ExchangeStep | hw2/service.c:361-435 | the same for an exchange |
| ServiceMeasure.NodeCosts | hw2/service.c:127-435 | every step of a process pays for itself, its messages and its forks out of the potential |
| SpawnRefines.AnyStep | hw2/service.c:159-249 | whichever process of a subtree moves during a spawn, the subtree stays on the way to the inserted tree or has reached it |
| SpawnRefines.Progress | hw2/service.c:159-249 | a subtree that is busy with a spawn can move |
| SpawnRefines.RunningTidy | hw2/service.c:449-453 | no failure and no doubled message during a spawn |
| KillRefines.DyingStep | hw2/service.c:321-359 | whichever process of a terminating subtree moves, its descendants are told, counted modulo 256, permitted and reaped one child at a time |
| KillRefines.DyingProgress | hw2/service.c:304-353 | the handshake of statuses 2 and 3 never deadlocks |
| KillRefines.AnyStep | hw2/service.c:252-359 | whichever process moves during a kill, the subtree stays on the way to the tree without the victim, with the victim reaped by its parent |
| KillRefines.Progress | hw2/service.c:252-359 | a subtree that is busy with a kill can move |
| KillRefines.Resume | hw2/service.c:258-290 | the search goes to the next child, or ends with an unchanged tree after the last |
| KillRefines.RunningTidy | hw2/service.c:449-453 | no failure and no doubled message during a kill |
| ExchangeCounts.PendingStep | hw2/service.c:369-391 | whichever process moves while targets are counted, every process that has reported has reported the number of targets in the part of its subtree that was visited |
| ExchangeCounts.ManagerReport | hw2/service.c:384-391 | the Manager goes on with the swap if it has counted a target, and complains if fewer than two |
| ExchangeCounts.Started | hw2/service.c:361-367 | the counting starts with the process itself |
| ExchangeActs.ActingStep | hw2/service.c:391-434 | whichever process moves after the counting, the two fifo scripts advance in an order that they allow and the reports of completion go up only from finished subtrees |
| ExchangeActs.ActingProgress | hw2/service.c:391-434 | with both targets there is always a process that can move |
| ExchangeRefines.AnyStep | hw2/service.c:361-435 | an exchange goes on with less potential, or is over: secrets swapped, fifos gone, Manager ready |
| ExchangeRefines.Progress | hw2/service.c:361-435 | with both services, or neither, some process can move |
| ExchangeRefines.Hangs | hw2/service.c:402-413 | with one service only, an exchange that is stuck is stuck right after that service has opened its first fifo |
| FifoSwap.StepA | hw2/service.c:402-411 | at every point of every interleaving the first script blocks or does its next operation without error, and reads the other's secret |
| FifoSwap.StepB | hw2/service.c:413-421 | the same for the second script |
| FifoSwap.NoDeadlock | hw2/service.c:392-422 | one of the two scripts can always go on until both are through |
| ServicePreorder.KillCuts | hw2/service.c:252-302 | a kill below the root cuts one contiguous slice out of the preorder: the first service of that name with its whole subtree; the count is the length of the slice less one, modulo 256 |
| ServicePreorder.KillUnknown | hw2/service.c:282-290 | an unknown name leaves the tree unchanged |
| ServicePreorder.KillAsks | hw2/service.c:252-281 | a kill reaches the services of the preorder up to the first of that name, in order, and no other |
| ServicePreorder.SpawnGrows | hw2/service.c:159-197 | a spawn adds one entry to the preorder, behind the subtree of the first service with the parent's name |
| ServicePreorder.SpawnUnknown | hw2/service.c:179-186 | an unknown parent leaves the tree unchanged |
| ServicePreorder.SpawnAsks | hw2/service.c:159-178 | a spawn reaches the services of the preorder up to the parent, in order |
| ServicePreorder.ExchangeAsks | hw2/service.c:369-383 | an exchange reaches exactly the preorder prefix that ends at the second target |
| ServicePreorder.ExchangeSwaps | hw2/service.c:402-423 | in the preorder after an exchange each of the two holds the other's secret and nothing else has changed |
| ServiceTranscripts.KillPrints | hw2/service.c:252-302 | every complete run of a kill below the Manager ends with the slice of the preorder that starts at the first service of that name cut out, and prints who was asked and then the length of that slice less one, modulo 256 |
| ServiceTranscripts.KillUnknownPrints | hw2/service.c:282-290 | with an unknown name the tree is as before and the last line says so |
| ServiceTranscripts.KillManagerPrints | hw2/service.c:321-358 | when the Manager is killed it is the only one left, exited, and all others are counted |
| ServiceTranscripts.SpawnPrints | hw2/service.c:159-197 | every complete run of a spawn ends with the new service as the last child of the first service with the parent's name, and prints who was asked, the new service's secret and the closing line |
| ServiceTranscripts.SpawnUnknownPrints | hw2/service.c:179-186 | with an unknown parent the tree is as before and the last line says so |
| ServiceTranscripts.ExchangePrints | hw2/service.c:361-435 | every complete run of an exchange of two services that occur once swaps their secrets, and prints who was asked, what a and then b acquired, and the closing line |
| ServiceTranscripts.ExchangeUnknownPrints | hw2/service.c:369-391 | with two unknown names everybody is asked, the complaint is printed and nothing changes |
| ServiceTranscripts.CommandEnds | hw2/service.c:127-155 | every acceptable command has a complete run |
| ServiceTranscripts.ScriptPrints | hw2/service.c:127-155 | a script prints what its commands print alone, each on the tree that the one before has left |
| ServiceFds.ChildTable | hw2/service.c:203-232 | whatever the parent has open, the exec'd child has the standard streams, the command pipe at 3 and the reply pipe at 4, and nothing else |
| ServiceFds.ParentTable | hw2/service.c:203-240 | the parent gains exactly two descriptors, where it reads replies and where it writes commands |
| ServiceFds.PipesApart | hw2/service.c:203-204 | the pipe ends land where the child's shuffle of descriptors is safe |
| ServiceFds.ShapeShrinks | hw2/service.c:316-318 | closing a child's pipes takes away exactly its two descriptors |
| ServiceFds.InitialShape | hw2/service.c:115-125 | a service starts with 3 (the Manager) or 5 descriptors |
| ServiceFds.Service.SpawnChild | hw2/service.c:199-249 | the new tables of parent and child; the parent keeps 3 or 5 descriptors plus two for each child |
| ServiceFds.Service.LetChildSuicide | hw2/service.c:304-319 | the same when a child is gone |
| ServiceFds.OpenClose | hw2/service.c:403-420 | opening a fifo takes descriptor 3 in the Manager and one above 4 elsewhere; closing it restores the table |
| ServiceFds.PipesInPlace | hw2/service.c:220-223 | the Manager starts with descriptors 0 to 2, any other service with these, its command pipe at 3 and its reply pipe at 4 |
| ServiceTables.DescriptorsOverRuns | hw2/service.c:199-420 | at every point of every run of any commands under any schedule, every service of the tree has 3 descriptors (the Manager) or 5, two more for each of its children, which are the other ends of that child's own pipes, and one more exactly while it stands between the return of an open of a fifo and its close; one that has exited has none; no two services share a pipe |
| ServiceTables.SettledBetweenCommands | hw2/scripts/fd_check.py:69-82 | whenever the Manager is ready for the next command of a script, and so after every exchange that completes, every service has exactly its 3 or 5 descriptors and two for each child, and no fifo |
| ServiceTables.NextSound | hw2/service.c:199-420 | a step of any process, an open, a close, a fork, a reaping and an exit included, keeps every table of the tree as it should be and in step with the processes |
| ServiceTables.NextExtends | hw2/service.c:199-204 | a step adds at most two pipes, and pipe numbers stay different |
| ServiceTables.LeavesStreams | hw2/service.c:352 | the last closes of a terminating service leave the standard streams |
| ServiceTables.LoneManager | hw2/service.c:93-125 | a Manager that has just been started is a starting point for such runs |
| ChildList.List.Append | hw2/service.c:242-248 | the walk to the tail links the new node in at the end |
| ChildList.List.FindKill | hw2/service.c:255-281 | the walk stops at the first child that does not answer 0, unlinks it exactly when it answers 2, and says whether the name was nowhere, below, here, or the status invalid |
| ChildList.List.Unlink | hw2/service.c:269-273 | one node leaves the chain, the order of the others is kept |
| TaskQueue.Pool.Add | hw4/my_pool.c:9-27 | the task becomes the last node, head and tail stay right, and no worker is left asleep; a call without a function does nothing |
| TaskQueue.Pool.WorkerSection | hw4/my_pool.c:83-95 | with the mutex held a worker falls asleep, leaves, or takes the first node and counts itself; the tail becomes null with the head |
| TaskQueue.Pool.FinishSection | hw4/my_pool.c:99-108 | the node, still allocated and in no queue, is freed; the count goes down; one sleeping waiter is woken exactly when nothing is queued or running |
| TaskQueue.Pool.WaitTest | hw4/my_pool.c:31-34 | the waiter falls asleep unless nothing is queued or running |
| TaskQueue.Pool.Terminate | hw4/my_pool.c:121-124 | the flag is set and no worker is left asleep |
| TaskQueue.Pool.FreeLeftovers | hw4/my_pool.c:41-46 | the loop frees every remaining node once, in order, and each is still allocated when it does |
| ThreadPool.StepKeeps | hw4/my_pool.c:77-136 | every action of every thread keeps the books of tasks, the alertness of workers, and the order of shutdown |
| ThreadPool.PoliteKeeps | hw4/my_pool.c:29-35 | as long as nobody calls `tpool_wait` while another is in it, a sleeping waiter has something to wait for |
| PoolRuns.ExactlyOnce | hw4/my_pool.c:89-108 | after every run the tasks added are those started, then those swept, then the queue; a started task is held by one worker or done once, and freed once; the running count is the number of holders and at most the number of workers |
| PoolRuns.AsManyAsAsked | hw4/my_pool.c:68-71 | at every point of every run a pool made with n threads has n workers |
| PoolRuns.AllAtOnce | hw4/my_pool.c:68-71 | there is a run after which all n workers run at once, worker i task i |
| PoolRuns.FreeWorkerTakes | hw4/my_pool.c:83-96 | in every run a queued task waits for no other to return while some worker has none: that worker is awake and takes the oldest task |
| PoolRuns.NoLostWakeup | hw4/my_pool.c:83-103 | after every run a sleeping worker means no task and no termination, and as long as callers of `tpool_wait` take turns, which a single one always does, a sleeping waiter means a queued or running task |
| PoolRuns.LeavesWhenDone | hw4/my_pool.c:29-35 | `tpool_wait` leaves its loop only when every task added so far is done |
| PoolRuns.WaitSeesAll | hw4/my_pool.c:29-35 | whatever happens while it sleeps, when a call has returned every task added before it is done |
| PoolRuns.BusyDrops | hw4/my_pool.c:77-108 | every action other than a call or a spurious wakeup lowers a weighted count of queued tasks and awake threads |
| PoolRuns.WaitEnds | hw4/my_pool.c:29-35 | once calls stop, under every schedule with finitely many spurious wakeups, boundedly many actions follow and at the end, if callers had taken turns, every waiter is out and every task done once |
| PoolRuns.NoStartAfterTerm | hw4/my_pool.c:84-87 | once the flag is set no task starts |
| PoolRuns.GoneIsClean | hw4/my_pool.c:37-53 | a destroyed pool has freed every node once, by a worker if it ran and by the destroyer if not, and every worker has left |
| PoolRuns.DestroyEnds | hw4/my_pool.c:116-136 | under every schedule `tpool_destroy` joins every worker and ends, with the accounting above |
| PoolRuns.TakingTurns | hw4/my_pool.c:29-35 | any number of threads that call `tpool_wait` one after the other all come back, if there is a worker |
| PoolRuns.OneWaiter | hw4/my_pool.c:102-103 | every call of `tpool_wait` returns if and only if nobody waits, or one thread does and there is a worker |
| PoolRuns.TwoWaiters | hw4/my_pool.c:102-103 | a run in which one signal wakes one of two waiters and strands the other |
| PoolRuns.StrandedForGood | hw4/my_pool.c:29-35 | a stranded waiter is still asleep after everything the other threads can do without a new call or a spurious wakeup |
| SchedulerInvariant.FibonacciTurnGood | hw3/threads.c:11-20 | a turn leaves fib(i) and fib(i-1) in the control block |
| SchedulerInvariant.FactorialTurnGood | hw3/threads.c:35-38 | a turn leaves i! in the control block |
| SchedulerInvariant.HandsOver | hw3/scheduler.c:40-52 | when the lock is free and somebody waits, the first in line takes the place of the exiting thread, with the lock, and is the next to run |
| SchedulerInvariant.StepKeeps | hw3/scheduler.c:28-59 | every turn and scheduler entry keeps the invariant of queues and lock |
| SchedulerInvariant.QueuesAndLock | hw3/scheduler.c:28-59 | at every point of every run nobody is in two places, at most one ready thread is between lock and unlock, somebody waits only if one is, a handed-off thread is the current one, and the scheduler returns only with both queues empty |
| SchedulerRuns.EveryRunEnds | hw3/scheduler.c:39-58 | whatever signals arrive, the number of turns is at most the sum of the loop arguments and four per bank operation, and a run ends only when every thread has exited |
| SchedulerRuns.ScheduleIndependence | hw3/threads.c:8-73 | at every point of every run a thread has printed a beginning of its output alone (fib(1), fib(2), and so on; 1!, 2!, and so on; the three bank lines), and all of it when the scheduler returns |
| BankLock.FirstComeFirstServed | hw3/threadtools.h:75-84 | requests are the grants followed by the waiting queue; updates follow the grants; the balance is the fold of the guarded updates, non-negative, and the start plus what was accepted |
| BankLock.FoldFacts | hw3/threads.c:61-63 | the guarded updates never take a non-negative balance below zero and add up to what was accepted |
| BankLock.PaysOwnAmount | hw3/threads.c:60-63 | in every run every update is for the argument that its thread was created with |
| BankLock.EachAsksOnce | hw3/threads.c:54-72 | when the scheduler returns, every bank thread has asked for the lock and got it exactly once, and nobody else has |
| BankBalance.UpdateTurn | hw3/threads.c:60-63 | the second turn of a bank operation adds its argument to a balance that is not negative, unless that would make it so, and prints both |
| BankBalance.OneAccount | hw3/threads.c:60-63 | at every point of every run the lines about the balance form one account: each goes on where the one before has ended and changes it by its thread's argument, or by nothing if that would overdraw it; the last ends with the balance there is |
| BankBalance.AddsUp | hw3/threads.c:54-72 | when the scheduler returns, under whatever signals, the balance is the start plus the arguments of all bank threads, if the start covers the negative ones together |
| BankBalance.DepositsAddUp | hw3/threads.c:54-72 | so it is always when all arguments are positive |
| Bypass.NeverFurther | hw3/scheduler.c:46-56 | an entry of the scheduler never moves a ready thread further from its turn, in spite of filling the gap with the last thread; a switch moves it closer |
| Bypass.BoundedBypass | hw3/scheduler.c:39-58 | a ready thread is passed over by fewer switches than the queue is long, whatever blocks and exits come between |
| TimeSlices.OnlySignalsSwitch | hw3/threadtools.h:66-73 | a thread with more to do keeps running at a yield unless a signal is pending, and then the next in the queue runs; one that exits or blocks gives way in any case |
| TimeSlices.WithoutSignals | hw3/scheduler.c:28-59 | as long as no signal arrives the threads run one after the other, each from beginning to end: the first created, then the last, the last but one, down to the second; the whole output is given |
| Scheduler.Tcb.NextFibonacci | hw3/threads.c:11-20 | one round of the loop on the control block is the function above |
| Scheduler.Tcb.NextFactorial | hw3/threads.c:35-38 | the same for the factorial |
| Scheduler.Threads.ThreadSetup | hw3/threadtools.h:49-59 | a fresh thread at the end of the ready queue |
| Scheduler.Threads.Begin | hw3/scheduler.c:30-37 | counting the slots finds the ready queue unchanged |
| Scheduler.Threads.HandOff | hw3/scheduler.c:40-45 | the hand-off with its shifting loop |
| Scheduler.Threads.MoveUp | hw3/scheduler.c:43-44 | the loop moves every waiting thread up by one |
| Scheduler.Threads.DropRunning | hw3/scheduler.c:49-52 | removal by swapping with the last |
| Scheduler.Threads.MoveToWaiting | hw3/scheduler.c:47-52 | a blocked thread joins the end of the waiting queue and leaves the ready one |
| Scheduler.Threads.Schedule | hw3/scheduler.c:28-59 | an entry on the arrays is the function that the results are about |
| Scheduler.Threads.Lock | hw3/threadtools.h:75-79 | a free lock is taken, a taken one is left and the thread has to wait |
| Scheduler.Threads.Unlock | hw3/threadtools.h:81-84 | only the owner frees the lock |
| Scheduler.Threads.LoopTurn | hw3/threads.c:8-48 | a turn of a loop thread through its control block |
| Scheduler.Threads.Ask | hw3/threads.c:54-58 | the first step of a bank operation |
| Scheduler.Threads.Update | hw3/threads.c:60-65 | the second step |
| Scheduler.Threads.Release | hw3/threads.c:67-72 | the third step |
| Scheduler.Threads.Run | hw3/scheduler.c:28-59 | a whole run on the arrays is the run of the machine, until the signals or the threads run out |
| BoardCodec.NormalIsCanonical | hw1/server.c:325-331 | storing makes a field a terminated, zero-padded string, changes it exactly if it is not one, and keeps its text as far as it fits |
| BoardCodec.SentAndReceived | hw1/client.c:151-153 | the server's copy and the client's terminator together normalise a field |
| BoardCodec.ByteOrder | hw1/server.c:374-375 | the count survives network byte order |
| BoardCodec.MostSignificantFirst | hw1/client.c:137 | of the four bytes of a count the most significant comes first |
| BoardCodec.ResponseLayout | hw1/server.c:355-375 | a response byte by byte: the count, and for each record five bytes of the author and twenty of the text, zeros from the first zero on |
| BoardCodec.PullRoundTrip | hw1/server.c:343-376 | the client decodes exactly the readable, non-blank records in slot order; included, blank and closed add up to ten and the bytes fit the buffer |
| BoardCodec.ArrivesUnchanged | hw1/client.c:131-155 | a record arrives as it is in the file if and only if it is canonical |
| BoardCodec.ResponseArrives | hw1/client.c:131-145 | the client decodes a response the same way whatever follows it on the connection |
| BoardReader.Connection.ReadAll | hw1/client.c:213-221 | whatever chunks arrive: the bytes that are delivered are in order at the front of the buffer, the rest of it is as before, the rest of the stream stays, and the result is that of the calls |
| BoardReader.ReadsExactly | hw1/client.c:213-221 | the result is -1 if and only if a failing `recv` comes before all bytes are there and before the end is found, 0 if and only if the end comes first, and else the size; how much is delivered in each case |
| RecordCircle.RingLatest | hw1/server.c:303-307 | a slot of the circle keeps a value for ten writes |
| RecordCircle.RingFirst | hw1/server.c:303-307 | the slots after many writes, taken from the first write on |
| BulletinBoard.Search | hw1/server.c:303-305 | every slot passed over was unavailable, the one found is available |
| BulletinBoard.FirstInCircle | hw1/server.c:301-318 | a request gets the first available slot in circular order and is refused if and only if there is none |
| BulletinBoard.RequestGets | hw1/server.c:301-318 | a request is refused if and only if every slot is in the table or locked by another process; otherwise the client gets the first one around the circle that is neither, and table, lock and turn change accordingly |
| BulletinBoard.RunRespects | hw1/server.c:303-312 | in every run, a record that the server comes to write-lock had no lock of another process at that moment, and its slot goes to the client whose request it is |
| BulletinBoard.PostReqKeeps | hw1/server.c:305-312 | a grant keeps table, clients and kernel in agreement |
| BulletinBoard.ReleaseKeeps | hw1/server.c:243-249 | so does a release, and the client has no slot afterwards |
| BulletinBoard.PullLeavesAll | hw1/server.c:349-367 | a pull locks and unlocks records and drops no write lock the server holds |
| BulletinBoard.EventKeeps | hw1/server.c:161-224 | every command of an orderly client, a disconnect or a new connection keeps agreement, whatever other processes lock |
| BulletinBoard.ArrivalConnects | hw1/server.c:145-157 | a newcomer gets the first place that is not connected, and is turned away if and only if there is none |
| BulletinBoard.LeaverFrees | hw1/server.c:238-249 | a client that leaves gives up its place, and its slot: out of the table and unlocked, and nothing else changes |
| BulletinBoard.ReleaseFrees | hw1/server.c:243-249 | a release gives up the slot and not the place |
| BulletinBoard.RunAgrees | hw1/server.c:109-225 | at every command boundary of every run a slot is in the table exactly when one connected client has it and exactly when the process holds its write lock |
| BulletinBoard.AskedTwice | hw1/server.c:305-310 | a request keeps agreement if and only if the client has no slot or is refused; otherwise its first slot is lost |
| BulletinBoard.LostForGood | hw1/server.c:243-249 | a lost slot is never released |
| BulletinBoard.GrantsNext | hw1/server.c:301-312 | on an idle board a request gets the slot that is next |
| BulletinBoard.MomentTurns | hw1/server.c:161-224 | while at most one client has a slot, whatever else happens, only its submission changes the file, in its slot, and the turn moves on by one |
| BulletinBoard.PostingsLand | hw1/server.c:301-341 | after a run of requests, each granted and completed before the next is granted, with pulls, arrivals, departures, refused requests and idle commands at any time, between a grant and its submission too, the file is what the posts alone, in turn, make of it |
| BulletinBoard.LatestOfItsClass | hw1/server.c:303-307 | after such a run post k is in slot last + k modulo ten until ten later posts, so a slot holds the latest post of its residue class and other slots are untouched |
| BulletinBoard.FileChanges | hw1/server.c:320-337 | only a submitted post changes the file, and only in the slot of its client |
| BulletinBoard.StaysClean | hw1/server.c:325-337 | a file of canonical records stays one |
| BulletinBoard.PullsAreExact | hw1/server.c:343-376 | after any run from a clean file a pull delivers exactly the readable, non-blank records |
| BoardPulls.PullShows | hw1/server.c:343-376 | after any history a pull shows the record of every slot that is not in the table, not being written by others, and does not begin with zero bytes in both fields, at the place that the number of such slots before it gives |
| BoardPulls.PullShowsOnly | hw1/server.c:356-362 | and it shows no other, and none that is empty |
| BoardPulls.NothingToShow | hw1/server.c:359 | a pull shows nothing if and only if every slot is in the table, being written by others, or empty |
| BoardPulls.FreshFile | hw1/server.c:359 | a pull of a file of zeros shows nothing |
| BoardPulls.PostIsPulled | hw1/server.c:320-376 | a post that is not empty, submitted and not overwritten since, is in every pull that finds its slot open, whatever else has happened |
| BoardServer.CopyField | hw1/server.c:360-361 | the copying loop pads with zeros and touches nothing else |
| BoardServer.Server.PostReq | hw1/server.c:301-318 | the loop over the slots grants what the specification says: 0 if and only if every slot is in the table or locked by others, and else the first one that is not |
| BoardServer.Server.ReleaseWriteLock | hw1/server.c:243-249 | the release in place |
| BoardServer.Server.PostContent | hw1/server.c:320-341 | the normalised record in the client's slot, and the release; nothing without a slot |
| BoardServer.Server.FreeClient | hw1/server.c:238-241 | a disconnect releases the slot and empties the place |
| BoardServer.Server.Accept | hw1/server.c:145-157 | the first free place is taken, if there is one |
| BoardServer.Server.Pull | hw1/server.c:343-376 | the bytes written are the answer that BoardPulls is about; the locks afterwards; the number of closed records |
| BoardReader.PullPosts | hw1/client.c:115-157 | whatever bytes, chunks and failures arrive, and whatever the buffer held: the pull ends as the specification says, with the records on the screen, in the list, and nothing read beyond them, or with the error message, or in an overrun |
| BoardReader.LostExactly | hw1/client.c:131-143 | the error message appears if and only if the connection ends before the count or the records are there, with no failing `recv` first and no overrun before |
| BoardReader.OverrunExactly | hw1/client.c:140-154 | buffer or list are overrun if and only if the client sees a count, and more than the buffer's length arrives, or the count is above ten and the connection does not end before the records are there |
| BoardReader.AsksForSome | hw1/client.c:139-140 | the 32-bit product of 25 and a count is zero for no other count than zero |
| BoardReader.HealthyPull | hw1/client.c:115-157 | without failing calls the bytes alone decide which of the three it is, however they are cut, and the records shown are the decoded ones |
| BoardReader.ServerPull | hw1/client.c:115-157 | the response of a server is shown record by record, as it would be stored, and bytes behind it stay |
| BoardReader.FailureShows | hw1/client.c:131-147 | with calls that fail at once the client shows what its buffer holds |
| BoardReader.BigCountLost | hw1/client.c:139-143 | a count of eleven with nothing behind it leads to the error message |
| BoardReader.BigCountOverruns | hw1/client.c:139-145 | a count of eleven with the records behind it overruns the buffer |
| BoardClients.StartAgrees | hw1/server.c:102-106 | a server that has just started satisfies the invariant |
| BoardClients.StepKeeps | hw1/client.c:159-203 | a client that follows the program's order is orderly, and is entering a post exactly when it has a slot |
| BoardClients.AlwaysAgree | hw1/client.c:159-203 | every run of the server with such clients is orderly and keeps agreement |

## Left out

- Service names matter only through equality and through being the Manager's; `sprintf`, `strtok`, buffer and name length limits of `hw2/service.c` are not modelled.
- A spawned service is never called Manager (`hw2/service.c:48-50`): the commands of a script are required to respect that.
- Exchange is followed for two different names that each occur at most once; with equal names or duplicates nothing is claimed.
- ServiceRuns.Refinement: its scripts contain exchanges only of two services that both exist or are both unknown; ExchangeCompletes says what happens otherwise.
- The random secret of a new service is a parameter of the spawn command, and pids are not part of the output.
- The count in a kill reply that says "not found" is uninitialised in the code and never used; the model sends 0. The complaint that `exchange` prints on standard error is logged as a line of output.
- A write to a pipe is one step that does not block; failing system calls, partial writes, interrupted calls and exhausted descriptor tables do not occur.
- The child list is a sequence in ServiceMachine and ServiceFds; ChildList has the pointers.
- The mutex of the pool is modelled by taking each critical section as one action; `pthread_cond_signal` wakes one sleeper if there is one; adds, and calls of `tpool_wait`, that overlap `tpool_destroy` are excluded, as is failure of `malloc` or `pthread_create`.
- Signal masks, `alarm`, `sleep`, the lines that the signal handler prints, and the saved stacks of `setjmp` are replaced by program counters and a choice at each yield; a run has one entry for each turn.
- Integers of the thread programs and of the balance are unbounded; there are fewer threads than THREAD_MAX slots, with different ids other than -1, and loop threads have positive arguments, as `hw3/main.c:54-64` creates them.
- `release_write_lock` uses `post_id` as an index even when it is -1 (`hw1/server.c:244`); the intended reading, that nothing happens, is modelled.
- The locks of other processes on the record file are an arbitrary parameter of each command; this process's own locks follow the replacement rule of `fcntl`.
- The file has ten records (`hw1/server.c:378-382`); failing reads and writes, and a submitted post cut short by a disconnect, are not modelled.
- What the client does after an overrun is not modelled; neither is a failing `write` of its request.
- ServiceTables takes the calls of `spawn_child` from `pipe2` to the parent's closes as one step, and the closes of `let_child_suicide` as one with the wait, and those at exit as one with the exit; it counts descriptors between such steps.
- ChildList.List.FindKill: takes the answers of the children as a parameter; how they come about is the subject of KillRefines.
- Sockets, `select`, the prompt, and log messages of the bulletin board are not part of the model, nor are the benchmark and plotting programs.
