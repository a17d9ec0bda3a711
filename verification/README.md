# zab synchronisation: a model and its proofs

zab is a C++ coroutine engine.  Its synchronisation primitives share no locks: they meet through one or two atomic
words, through intrusive lists whose nodes lie in the frames of sleeping coroutines, and through rules about who may
touch what at which moment.  This project models those primitives and proves, for every interleaving of any number of
coroutines, that they do what they are for.  `dafny verify dfyconfig.toml` goes through the whole project.

## How the code is modelled

Concurrent code is a transition system: a `State` with the shared words and one control point per coroutine, an
`Action` for every step, `Enabled`, and a total function `Step`.  An atomic load, compare-exchange, fetch_add,
fetch_sub or exchange is one step, and so is a block under a spin lock or `std::mutex`.  A weak compare-exchange may
fail for no reason.  Memory is sequentially consistent.  Intrusive nodes are a table of links; the node of a coroutine
that is not asleep is dead memory into which an action (`ReuseNode`, `ReuseFrame`) may write anything at any time, so that
every recycled address and every stale compare-exchange is among the runs.  Dereferencing anything but a living node
sets `crashed`, which the invariants exclude.  `Runs` and `After` are the finite runs from an initial state; a theorem
over `acts` holds for all of them.  Ghost state (`View`, ledgers, logs) is computed along a run and never influences it.

The theorems about a protocol are of two kinds.  Safety: what holds in every reachable state, and what every run amounts to.
Achievement: from every reachable state an operation that has begun can be brought to its end -- by its own steps alone
where it needs nobody else -- with exactly the effect it is called for; in the `Progress` files `Leads(c, xs, c')` says that
the steps `xs` lead from `c` to `c'`.

Code that one thread executes at a time is imperative: `Waiters` (the list surgery on objects), `Timer` and `Stream` are
classes and loops proved against sequences.

| file | what it is about |
|---|---|
| `Lists.dfy` | counting over coroutine tables, intrusive chains in both directions |
| `BinarySemaphore.dfy`, `SemaphoreProgress.dfy` | async_counting_semaphore<1> and async_mutex: refinement of a FIFO lock with direct handoff; co_await and release() come to their end |
| `CountingSemaphore.dfy`, `CountingProgress.dfy` | the general semaphore: conservation of permits, the elected controller; every unit is processed and every waiter gets on |
| `Barrier.dfy`, `BarrierProgress.dfy` | async_barrier: phases, windows, counter, ownership of the phase; every activation completes its phase |
| `BarrierRaces.dfy`, `BarrierRules.dfy` | runs of the barrier that go wrong, and rules for its callers under which none does |
| `PauseToken.dfy`, `PauseProgress.dfy` | pause_token: refinement of a gate, with nodes that are reused; pause() pauses and unpause() resumes |
| `Joins.dfy`, `JoinProgress.dfy` | async_latch as one waiter uses it, and both forms of wait_for |
| `SharedLatch.dfy` | async_latch with any number of waiters and any positive counts, over the pause token |
| `Observable.dfy`, `ObservableProgress.dfy` | observable: a broadcast whose results live in the frames of the emitters; emits and destructors come to their end |
| `ObservableLeavers.dfy` | which observers may be destroyed safely |
| `EventLoop.dfy` | the double-buffered user queue and its wake-up rule |
| `Timer.dfy` | timer_service over an abstract interval timer |
| `Stream.dfy` | the chunk loops of tcp_stream driven by stateful_awaitable |
| `Waiters.dfy` | reversal in place, the two-pointer walk and the window cut, on objects |

## Where the code falls short

Each of these is a property one would expect, false for the code as it is.  The model keeps the code, gives a run or a
state in which the property fails, and proves when it holds.

- Counting semaphore: the load and the `fetch_sub` of `await_suspend` (includes/zab/async_semaphore.hpp:62-77) are two
  steps.  A permit released in between stays idle beside a waiter who sleeps until another unit is released
  (`LostPermit`).  No permit is ever idle beside an announced waiter if and only if every `fetch_sub` still finds no
  permit (`ThriftyIffPunctual`).
- Barrier, ownership: `resume_frames` adds `expected_` to the counter and reads it again after frames have been resumed
  (includes/zab/async_barrier.hpp:545 and 593).  With drops in between two activations of `complete_phase` own the barrier
  at once (`TwoOwners`; `EverybodyDrops` with no more participants than are expected).  The phase always has one owner
  while the counter is down and none otherwise if and only if the second reading always decides as the first would
  (`SoundIffGood`).
- Barrier, spinning: a phase that drops everybody leaves a completer that looks for a window although nobody is on his way
  (`SpinsInVain`, `IdleTurn`), until somebody arrives who is not expected.  `aquire_window` spins in vain if and only
  if nobody is expected and `count_` has not been taken below `expected_`; until a phase takes an arrival that was not
  expected that is when both are zero (`SpinIsJustified`); afterwards the counter stays below zero (`GuestLeavesDebt`).
- Barrier, rules: with no more participants than are expected, of whom nobody comes back after he has dropped out and
  somebody stays, neither happens, however drops race with completers (`RulesAreGood`); nor does it without drops
  (`DropFreeIsGood`).  `EverybodyDrops` shows that somebody has to stay.
- Observable: the destructor of `internal_observer` reads `next_` after `count_down()` (includes/zab/observable.hpp:79-80).
  If the emit resumes in between the node is gone (`LateRead`).  Every other access is safe (`CrashIffLate`).  What a caller
  can look at is whether the observer has unread results when it is destroyed: some continuation ends in such a read if it
  has, and none if it has not (`MayBeLateIffUnread`); and runs in which all observers leave with nothing unread are safe
  (`EmptyLeaversAreSafe`).
- Timer: `wait` with a zero delay that becomes the earliest mark disarms the timer (src/timer_service.cpp:213-220), and
  nobody arms it again (`ZeroDelayDisarms`).  `wait` leaves an armed timer armed if and only if the delay is positive.
  The engine calls it with positive delays only (src/engine.cpp:249).
- TCP stream: readiness compares the bytes moved with the whole span although the offset is part of it
  (includes/zab/tcp_stream.hpp:397).  With an offset inside the span a transfer ends only with an error or the end of the
  stream: at the end of the span it waits for the answer to an empty request (`EndNotSeen`).  It ends by itself if and
  only if as many bytes are moved as the span is long (`Drive`).  An offset beyond the span wraps around, and the first
  request is neither empty nor inside the span (`RequestInSpan`, `PendingInSpan`).

Three comments disagree with the code and the code is followed: a pause token is constructed paused
(includes/zab/pause_token.hpp:212 against 86), a new timer bucket stores the current thread and not
the one passed in (src/timer_service.cpp:211), and the chunks of `write` are limited by `kMaxRead`, not by `kMaxWrite`
(includes/zab/tcp_stream.hpp:534 against 492).

## Model

| member | source | states |
|---|---|---|
| BinarySemaphore.StepRefines | includes/zab/async_semaphore.hpp:283-423 | every step of the code is a step of an abstract FIFO lock with direct handoff or leaves it alone, where the queue is `transfer_` followed by the reversed stack |
| BinarySemaphore.RunRefines | includes/zab/async_semaphore.hpp:283-423 | every run, however interleaved, is a run of that lock: a newcomer gets in only when nobody holds the lock and nobody queues |
| BinarySemaphore.RunsAreSafe | includes/zab/async_semaphore.hpp:329-370 | at most one coroutine has the permit, in-flight handoffs included; nobody sleeps without somebody who will hand on; the exchange in release() finds a waiter; no dead node is touched |
| BinarySemaphore.WokenInOrder | includes/zab/async_semaphore.hpp:329-423 | the coroutines woken with the permit are a prefix of those that went to sleep, in that order, and no newcomer or try_aquire overtakes one of them |
| BinarySemaphore.KeepsReverse | includes/zab/async_semaphore.hpp:350-358 | one turn of the reversal under concurrent pushes keeps both halves of the queue well formed and in order |
| BinarySemaphore.KeepsHandoff | includes/zab/async_semaphore.hpp:361-368 | the tail of release() gives the permit to the coroutine that has queued longest |
| BinarySemaphore.KeepsHolder | includes/zab/async_mutex.hpp:53-110 | moving a lock guard, and every other step of the holder that leaves the queue alone, moves or frees exactly one permit |
| SemaphoreProgress.LeavesWithPermit | includes/zab/async_semaphore.hpp:285-300 | a coroutine inside co_await leaves it only with the permit, whoever takes a step, and await_ready() lets it through only on a free semaphore |
| SemaphoreProgress.TriesHonestly | includes/zab/async_semaphore.hpp:318-327 | try_aquire() takes the permit exactly if the semaphore is free, and changes nothing otherwise |
| SemaphoreProgress.AwaitSleepsOrTakes | includes/zab/async_semaphore.hpp:386-423 | from every reachable state co_await gets by its own steps to the permit if the semaphore is free, and to sleep as the youngest waiter if it is not |
| SemaphoreProgress.ReleaseHandsOn | includes/zab/async_semaphore.hpp:329-370 | from every reachable state release() ends by its own steps, having woken exactly the coroutine that has slept longest, or having unlocked the semaphore if nobody sleeps |
| SemaphoreProgress.EverybodyGetsIn | includes/zab/async_semaphore.hpp:283-423 | from every reachable state, and for every coroutine inside co_await, there is a run of releases after which it runs with the permit |
| Waiters.FifoSemaphore.constructor | includes/zab/async_semaphore.hpp:312-314 | starts with nobody waiting, locked or not as asked |
| Waiters.FifoSemaphore.TryAquire | includes/zab/async_semaphore.hpp:318-327 | takes the semaphore exactly if it is free and never touches the queue |
| Waiters.FifoSemaphore.Suspend | includes/zab/async_semaphore.hpp:386-423 | joins the end of the queue exactly if the semaphore is taken, and takes it otherwise |
| Waiters.FifoSemaphore.Release | includes/zab/async_semaphore.hpp:329-370 | removes and returns the oldest waiter and stays locked, or unlocks if there is none |
| Waiters.Reverse | includes/zab/async_semaphore.hpp:350-358 | reverses a stack of any length in place, never touching the marker it ends in |
| Waiters.LockGuard.Move | includes/zab/async_mutex.hpp:65-68 | the debt of a release moves from one guard to the other |
| Waiters.LockGuard.Destroy | includes/zab/async_mutex.hpp:57-60 | a guard that still has the semaphore hands it on or unlocks it, any other does nothing |
| CountingSemaphore.RunsConserve | includes/zab/async_semaphore.hpp:59-212 | in every reachable state available permits plus announced waiters plus grants equal the start plus the releases processed, available plus announced is never negative, grants never exceed start plus releases, and waiters wake in push order |
| CountingSemaphore.RunsHaveOneController | includes/zab/async_semaphore.hpp:132-212 | one control loop is live if and only if `release_count_` is positive, and never two |
| CountingSemaphore.RetryIsJustified | includes/zab/async_semaphore.hpp:160-173 | a controller that retries after a negative count has an announced waiter to wait for, who has not pushed yet if the stack is empty |
| CountingSemaphore.StepKeeps | includes/zab/async_semaphore.hpp:59-263 | every step keeps the shape of both lists, the ledger and the one controller |
| CountingSemaphore.CoroutineEffect | includes/zab/async_semaphore.hpp:59-140 | what acquiring and releasing steps do to the counters and to the number of announced waiters |
| CountingSemaphore.StaysInside | includes/zab/async_semaphore.hpp:59-130 | co_await ends only in a return and try_aquire() only in an answer, and until then both go on |
| CountingSemaphore.ObtainedIsGranted | includes/zab/async_semaphore.hpp:59-212 | over every run, and for each coroutine, the calls that came back with success are as many as the permits granted to it, but for the one it is about to wake with |
| CountingProgress.AwaitTakesOrSleeps | includes/zab/async_semaphore.hpp:60-84 | from every reachable state co_await by its own steps returns with a permit if there is one, and counts itself down and goes to sleep otherwise |
| CountingProgress.TryAnswersTruly | includes/zab/async_semaphore.hpp:110-130 | try_aquire() by its own steps answers true and takes a permit if there is one, and answers false and changes nothing otherwise |
| CountingProgress.UnitGoesToWaiter | includes/zab/async_semaphore.hpp:152-203 | a unit that the controller takes up wakes exactly the coroutine that has slept longest, if anybody sleeps, by the controller's own steps |
| CountingProgress.UnitsAreProcessed | includes/zab/async_semaphore.hpp:146-212 | from every reachable state all released units can be processed with nobody calling anything: the controller ends, each unit has become available, and with enough units nobody waits any more |
| CountingProgress.EverybodyGetsOn | includes/zab/async_semaphore.hpp:59-212 | from every reachable state every coroutine inside co_await can return if somebody is there to release |
| CountingSemaphore.ThriftyStep | includes/zab/async_semaphore.hpp:62-77 | a step wastes a permit exactly if it is a fetch_sub that finds one |
| CountingSemaphore.ThriftyIffPunctual | includes/zab/async_semaphore.hpp:62-77 | a run never leaves a permit idle beside an announced waiter if and only if none of its fetch_subs finds a permit |
| CountingSemaphore.LostPermit | includes/zab/async_semaphore.hpp:62-77 | a run that ends with the only permit granted to nobody, its only waiter asleep, and no release pending |
| Waiters.CountingList.Suspend | includes/zab/async_semaphore.hpp:214-230 | adds a waiter at the end of the queue |
| Waiters.CountingList.Transfer | includes/zab/async_semaphore.hpp:232-263 | removes and returns the oldest waiter, or null exactly if there is none |
| Barrier.SoundStep | includes/zab/async_barrier.hpp:140-149 | a step keeps a single owner of the phase, live exactly while the counter is at most zero, if and only if it is not a re-read of `expected_` that decides differently |
| Barrier.SoundIffGood | includes/zab/async_barrier.hpp:541-600 | over whole runs: single ownership holds throughout if and only if every re-read of `expected_` decides as the first read would |
| Barrier.ShapeStep | includes/zab/async_barrier.hpp:317-600 | every good step keeps the list, the walk, the trim, the cut and every window well formed, and changes the log of arrivals only by a push and the windows only by the `expected_` oldest undetached arrivals (one, if nobody is expected) |
| Barrier.StepKeeps | includes/zab/async_barrier.hpp:140-600 | all invariants together |
| Barrier.RunKeeps | includes/zab/async_barrier.hpp:317-600 | every good run has them, and its log is exactly what it pushed |
| Barrier.RunNeverCrashes | includes/zab/async_barrier.hpp:358-600 | no good run dereferences anything but an arrival that is still asleep |
| Barrier.RunsConserve | includes/zab/async_barrier.hpp:317-356 | every arrival was pushed exactly as often as it was resumed, once more while it is asleep |
| Barrier.RunsInPhases | includes/zab/async_barrier.hpp:399-435 | the windows tile the arrivals in push order, each as long as the initial expectation minus the drops of earlier windows (one, if that is nobody), the completion step runs once per window, and nobody is resumed before it |
| Barrier.NobodyStranded | includes/zab/async_barrier.hpp:541-600 | an arrival is asleep if and only if one meets it by following the links from `working_set_` or from what a completer still has to resume |
| Barrier.CounterLaw | includes/zab/async_barrier.hpp:140-149 | in every good run announced arrivals, plus the length of the list behind `working_set_`, plus what was taken unexpectedly, equal `expected_ - count_` (zero minus `count_` from the cut to the refill) |
| Barrier.SpinIsJustified | includes/zab/async_barrier.hpp:438-470 | a completer that looks for a window finds the list behind `working_set_` too short although nobody is on his way into it if and only if nobody is expected and `count_` has not been taken below `expected_` (both zero, until a phase takes an unexpected arrival) |
| Barrier.DropFreeIsGood | includes/zab/async_barrier.hpp:140-149 | every run without drops is good and never changes `expected_` |
| BarrierProgress.PhaseGetsCompleted | includes/zab/async_barrier.hpp:358-436 | from every reachable state after a good run an activation that has found its window, or has a list that is long enough, gets to its end by its own steps, wherever in the list the window begins: the completion step has run once more, and exactly the `expected_` oldest arrivals have been resumed |
| BarrierProgress.WindowGetsResumed | includes/zab/async_barrier.hpp:396-436 | an activation that has cut its window off gets to its end by its own steps and resumes exactly those met from its pointer |
| BarrierProgress.DuePhaseCompletes | includes/zab/async_barrier.hpp:140-149 | from every reachable state in which the counter is down, somebody is expected and no window has been cut off yet, the phase can be completed with nobody new arriving |
| BarrierProgress.ArrivalEnds | includes/zab/async_barrier.hpp:317-356 | an arrival that has announced itself gets onto the list by its own steps, and starts a completer if it took the counter to zero |
| BarrierRaces.TwoOwners | includes/zab/async_barrier.hpp:541-600 | a run with a racing drop in which two completers own the barrier |
| BarrierRaces.EverybodyDrops | includes/zab/async_barrier.hpp:541-600 | the same with two participants, both expected, who drop out before the first completer looks again |
| BarrierRaces.SpinsInVain | includes/zab/async_barrier.hpp:444-468 | a run after which a completer looks at an empty list again and again, with nobody expected and nobody on his way |
| BarrierRaces.GuestLeavesDebt | includes/zab/async_barrier.hpp:438-470 | a good run after which the completer looks at an empty list in vain with `expected_` zero and `count_` at minus one |
| BarrierRaces.IdleTurn | includes/zab/async_barrier.hpp:444-468 | from any state in which a completer is about to load an empty list two of its steps lead back to that state |
| BarrierRules.RulesAreGood | includes/zab/async_barrier.hpp:140-149 | with no more participants than are expected, none of whom returns after dropping out and one of whom stays, every run has single ownership, every refill starts from zero, and somebody is always expected, whatever drops race with completers |
| BarrierRules.RefillsAtZero | includes/zab/async_barrier.hpp:545 | under these rules `fetch_add` finds the counter at zero |
| Waiters.Walk | includes/zab/async_barrier.hpp:444-468 | one pass over any list ends on the node that heads its `expected_` oldest nodes (the oldest, if nobody is expected), or on null if there are fewer |
| Waiters.Trim | includes/zab/async_barrier.hpp:365-394 | takes the window off the list at the root or inside, leaving two well-formed lists |
| Waiters.CountDrops | includes/zab/async_barrier.hpp:400-411 | counts the drop tokens of the window |
| Waiters.WorkingSet.Push | includes/zab/async_barrier.hpp:317-356 | the new arrival is the youngest |
| Waiters.WorkingSet.TakeWindow | includes/zab/async_barrier.hpp:358-411 | exactly the `expected_` oldest arrivals (one, if nobody is expected) leave the set, in one well-formed list, and their drops are counted; if there are fewer, nothing changes |
| PauseToken.StepRefines | includes/zab/pause_token.hpp:110-204 | every step is an event at an abstract gate: one enters only while it is closed, opening takes everybody along, and each is delivered once by his taker |
| PauseToken.RunRefines | includes/zab/pause_token.hpp:110-212 | so is every run from a token constructed paused, with any reuse of nodes |
| PauseToken.RunsAreSafe | includes/zab/pause_token.hpp:134-156 | no walker reads a node that it or another has resumed; a coroutine is asleep if and only if one meets it by following the links from the word or from what somebody inside unpause() still has to resume; while the token is open nobody hangs on the word |
| PauseToken.SleeperIsListed | includes/zab/pause_token.hpp:134-156 | the same about any state with the invariant |
| PauseProgress.PausePauses | includes/zab/pause_token.hpp:110-122 | after pause() has returned, nobody gets past the token before somebody calls unpause() again |
| PauseProgress.StepWord | includes/zab/pause_token.hpp:110-204 | whoever returns from pause() leaves the token paused, whoever passes finds it unpaused, and only unpause() unpauses it |
| PauseProgress.PauseEnds | includes/zab/pause_token.hpp:110-122 | pause() ends by its own steps with the token paused, and disturbs nobody who waits |
| PauseProgress.UnpauseResumesAll | includes/zab/pause_token.hpp:134-156 | from every reachable state unpause() ends by its own steps with the token unpaused and exactly those resumed who hung on the word |
| PauseProgress.PausedPutsToSleep | includes/zab/pause_token.hpp:174-204 | from every reachable state in which the token is paused, whoever waits gets to sleep by his own steps |
| PauseProgress.OpenLetsThrough | includes/zab/pause_token.hpp:134-204 | from every reachable state in which the token is unpaused every coroutine inside co_await, asleep or not, can get out with nobody calling unpause() |
| Latch.StepKeeps | includes/zab/async_latch.hpp:59-87 | every step keeps count, token word and waiter in agreement |
| Latch.JoinIsSafe | includes/zab/wait_for.hpp:286-321 | if the counts add up to the initial amount the token is opened at most once, the waiter passes only at zero, then nobody touches the latch or the waiter's node again, and the waiter does not sleep on after everybody has finished |
| Latch.FiresOnce | includes/zab/async_latch.hpp:59-67 | for any sequence of positive counts the guard of unpause() is met exactly once if they reach the initial amount and never otherwise, by the count that first reaches it |
| SharedLatch.StepKeeps | includes/zab/async_latch.hpp:59-87 | with any number of waiters every step keeps the token's lists, and keeps the latch closed, owed to one coroutine, or open as the counter says |
| SharedLatch.NobodyPassesEarly | includes/zab/async_latch.hpp:59-87 | however many coroutines wait, and whatever positive amounts are counted down, a step takes one past the latch only after the amounts have reached the initial amount |
| SharedLatch.OpensOnce | includes/zab/async_latch.hpp:59-67 | unpause() is called, or about to be called, once if the amounts have reached the initial amount and never otherwise, by the count that first reaches it |
| SharedLatch.NobodySleepsOn | includes/zab/async_latch.hpp:75-87 | once the latch is open every waiter still asleep is on the list of somebody inside unpause() |
| SharedLatch.EverybodyPasses | includes/zab/async_latch.hpp:59-87 | from every reachable state in which the amounts have reached the initial amount every waiter can get past with nobody counting down any more |
| SharedLatch.ClosedPutsToSleep | includes/zab/async_latch.hpp:75-87 | and before that whoever waits can get to sleep |
| LatchProgress.JoinCompletes | includes/zab/wait_for.hpp:286-321 | from every reachable state of the one-waiter join everybody can count down and the waiter gets through, the token having been opened once |
| WaitFor.StepKeeps | includes/zab/wait_for.hpp:213-282 | every step keeps the counter equal to the promises and the start-up loop still to finish |
| WaitFor.JoinIsSafe | includes/zab/wait_for.hpp:235-282 | the awaiter is resumed at most once, exactly when all promises and the start-up loop have finished, and the counter is not touched afterwards |
| WaitForProgress.JoinCompletes | includes/zab/wait_for.hpp:235-282 | from every reachable state every promise can be started and finished, and then the awaiter has been resumed once |
| Observable.StepKeeps | includes/zab/observable.hpp:64-299 | a step in time keeps all invariants; a late one reads freed memory |
| Observable.CrashIffLate | includes/zab/observable.hpp:74-84 | a run touches a dead node or a destroyed observer if and only if a destructor reads a link late |
| Observable.Lifetime | includes/zab/observable.hpp:70-89 | in every reachable state the latch of each emit counts its emitter until it arrives and each node not linked yet, queued or guarded; each observer's queue is the chain of its links; all queued and guarded nodes are in frames that still exist |
| Observable.LatchCount | includes/zab/observable.hpp:205-257 | the same law about one emit in any state with the invariant |
| Observable.QueueIsChain | includes/zab/observable.hpp:225-238 | following links from an observer's head yields exactly its queue |
| Observable.ReceivedInOrder | includes/zab/observable.hpp:149-190 | an observer receives exactly the emits from its connection on, in mutex order, each once; what is missing waits in its queue, and the observer does not sleep meanwhile |
| Observable.FinishedMeansRead | includes/zab/observable.hpp:252-257 | an emit resumes only after each observer connected at emission has received it and dropped the guard, or has left |
| ObservableProgress.EveryEmitCanFinish | includes/zab/observable.hpp:198-257 | from every reachable state in which no destructor is about to be late every emit can come to its end, everybody having read it |
| ObservableProgress.EveryLeaverCanEnd | includes/zab/observable.hpp:74-84 | a destructor that is not late gives up all it has not read, and gives the mutex back, by its own steps |
| ObservableProgress.NextResultCanBeTaken | includes/zab/observable.hpp:149-190 | from every reachable state a connected observer with unread results takes exactly the first of them by its own steps |
| ObservableProgress.ComesBackWithResult | includes/zab/observable.hpp:149-190 | an observer that waits comes back only with the next result of its queue in its hands, or is destroyed |
| Observable.AppendEffect | includes/zab/observable.hpp:214-248 | the loop body of emit() finds the end of the queue without leaving living nodes and links the new node there |
| Observable.TailIsLast | includes/zab/observable.hpp:230-237 | the walk in emit() ends on the last node |
| Observable.EmptyLeaversAreSafe | includes/zab/observable.hpp:276-299 | runs whose observers leave with nothing unread never go wrong |
| Observable.LastReaderMayBeLate | includes/zab/observable.hpp:76-81 | in every state where a destructor gives up the last node of a waiting emit, three steps lead to a read of freed memory |
| ObservableLeavers.OthersRead | includes/zab/observable.hpp:130-190 | from every state in which a destructor is about to give up a node of a waiting emit, the others can read and let go of all their nodes of that emit |
| ObservableLeavers.UnreadLeaverMayCrash | includes/zab/observable.hpp:74-84 | from every reachable state in which an observer may be destroyed with unread results there is a run to a read of freed memory |
| ObservableLeavers.MayBeLateIffUnread | includes/zab/observable.hpp:74-84 | destroying an observer can end in such a read if and only if it has unread results |
| Observable.LateRead | includes/zab/observable.hpp:76-81 | a run of nine steps that does so |
| EventLoop.StepKeeps | src/event_loop.cpp:397-500 | a non-empty write queue always has a positive eventfd, a dispatcher that owes its wake, or a loop about to swap; `size_` is the length of the write queue |
| EventLoop.RunsAreFifo | src/event_loop.cpp:407-476 | handles executed, then those in the read and write buffers, are the handles dispatched in lock order: none lost, repeated or reordered |
| EventLoop.QueueStep | src/event_loop.cpp:464-476 | a dispatch from inside a handle never changes the buffer being executed |
| EventLoop.NothingStranded | src/event_loop.cpp:397-419 | a loop asleep beside queued events can be woken now or by a dispatcher that still owes the wake |
| EventLoop.StopsOnlyWhenTold | src/event_loop.cpp:478-499 | the loop has ended if and only if it was told to stop when it woke, or could not read its eventfd |
| EventLoop.EverythingGetsExecuted | src/event_loop.cpp:460-500 | from every reachable state in which the loop has not ended, and with no further dispatch, it can go on until exactly what was queued has been executed in order |
| Timer.TimerService.constructor | src/timer_service.cpp:50-52 | nobody waits, nothing is owed |
| Timer.TimerService.ChangeTimer | src/timer_service.cpp:167-188 | the split into seconds and nanoseconds joins to the same interval |
| Timer.TimerService.Wait | src/timer_service.cpp:196-221 | puts the handle last under the mark `current_` + delay, with the thread the code stores, and changes no other bucket; the armed interval stays the earliest mark minus `current_`; an armed timer stays armed if and only if the delay is positive |
| Timer.TimerService.ReleaseDue | src/timer_service.cpp:123-131 | resumes exactly the handles of the buckets whose mark is reached, in order, and keeps exactly the others |
| Timer.TimerService.Tick | src/timer_service.cpp:106-158 | advances virtual time by whole intervals, resumes exactly the handles due by then, at least those under the earliest mark, and re-arms for the next mark or resets `current_` |
| Timer.TimerService.Find | src/timer_service.cpp:206-217 | where a mark belongs in the ordered map, and whether it is there |
| Timer.PopKeeps | src/timer_service.cpp:123-131 | releasing a due bucket resumes nobody early and nobody twice |
| Timer.ResumedOnTime | src/timer_service.cpp:94-221 | each registration is resumed at most once, never before its delay has passed in virtual time, and on an armed timer as soon as it has |
| Timer.ZeroDelayDisarms | src/timer_service.cpp:213-220 | after a zero delay three waiters hang on a timer that will not expire |
| Stream.RequestInSpan | includes/zab/tcp_stream.hpp:413-422 | what is asked for is the rest of the span, clamped, as long as the end is not passed; beyond it the rest wraps around in `size_t` and the request is never empty |
| Stream.TilesCover | includes/zab/tcp_stream.hpp:390-435 | chunks end to end cover every position of the range once and nothing outside |
| Stream.Transfer.constructor | includes/zab/tcp_stream.hpp:393-397 | for any offset: an empty span is ready at once, everything else asks for its first chunk |
| Stream.Transfer.Notify | includes/zab/stateful_awaitable.hpp:124-160 | a positive answer extends the tiling and ends the transfer exactly when the count equals the span; anything else ends it with the error and moves nothing |
| Stream.Transfer.PendingInSpan | includes/zab/tcp_stream.hpp:507-555 | every pending operation of read or write starts where the last one ended, and lies inside the span if the offset does; if not, the first one is not empty and lies outside |
| Stream.Transfer.Result | includes/zab/tcp_stream.hpp:425-433 | -1 exactly if nothing was moved, otherwise the length of the contiguous range that was |
| Stream.PlayedMore | includes/zab/tcp_stream.hpp:398-410 | one more answer of the kernel continues such a transfer |
| Stream.Drive | includes/zab/tcp_stream.hpp:390-435 | for any kernel, answering from any script but with at most what it is asked for: each reply is the lesser of the scripted answer and the request of that moment, the moved chunks are the positive replies in order, end to end from the offset, and the transfer is over if and only if the span was empty, the last reply was not positive, or the count equals the span; with an offset inside the span only a reply that is not positive ends it |
| Stream.EndNotSeen | includes/zab/tcp_stream.hpp:397-410 | for every offset inside the span: all bytes are moved, and an empty request is pending |

## Left out

- Barrier.RunsInPhases: states its phases for good runs only; `SoundIffGood` says which those are, and `TwoOwners` why the others have no phases to speak of.
- Observable.Lifetime: for runs in time only; after a late read the chain of links is unknown (`CrashIffLate`).
- Observable.CrashIffLate: assumes that an observer is not destroyed between being woken and running, because the destructor knows nothing of the posted event; the latch inside an emit is one counter here, its own steps are in `Latch`.
- SharedLatch.NobodyPassesEarly: says nothing about who destroys a latch with several waiters; the lifetime with one waiter is in `Latch`.
- Timer.ResumedOnTime: is about virtual time, which stands still between ticks; it promises neither real time nor a resumption thread, and marks do not wrap around at 64 bits.
- EventLoop.NothingStranded: assumes that writing to the eventfd succeeds; a failed read of it stops the loop, as in the code.
- Stream.Drive: the kernel answers from a finite script; it shows progress per answer, not that answers arrive.  `so_far` does not wrap around at 63 bits.
- Waiters.WorkingSet.TakeWindow: is one attempt, as one thread sees it; the repetition while there is no window is in `Barrier`.
- Waiters.FifoSemaphore.Suspend: as one thread sees it, so that a compare-exchange succeeds; its failures are in `BinarySemaphore`.
- `async_barrier::arrive` and `arrival_token`: they cannot be instantiated as written (includes/zab/async_barrier.hpp:189 against 223, and 276), and their tag is stored in a `bool` (line 323).
- `async_latch::try_wait` and `pause_token::paused`: single loads without effect.
- Weak memory orders: every atomic is sequentially consistent.
- Liveness: no fairness is assumed, so the theorems say that everybody can get on from every reachable state, not that or when a scheduler lets him.
- Counter overflow: `ptrdiff_t` counters are unbounded integers.
- The yield after every 64 turns of a controller, and the thread a coroutine is resumed on: they decide where a step runs, not what it does.
- A completion step that throws or waits for the barrier itself: it is one step here.
- `async_file`, io_uring submission and completion, cancel codes, sockets, pipes, signals: foreign calls.
- Engine start and stop, `first_of`, `defer_block`, visitor promises, generators, thread affinity, spin_lock: thin next to the above.
