# Models of TFA's kernel locks and alias engine

The repository analyses kernel code, and holds two bodies of code that are models here: the kernel
lock implementations under `tests/locking`, and the analyser's own alias engine under `src/lib`.

**Concurrent locks.** Each is a state machine over the accesses to shared memory, under sequential
consistency: one step is one access by one task, CPU or context, the step functions follow the
source's program points, and any number of participants interleave in any order. What the code does
not store (who stands where in a queue, who holds what) is carried along as history. The theorems are
about every state of every run.

- `Osq.dfy`, `OsqProgress.dfy`: the optimistic spin queue, an MCS queue whose waiters can cancel in the
  middle.
- `QSpinlock.dfy`, `QSpinlockProgress.dfy`: the native queued spinlock, with pending bit, MCS queue and
  nested contexts.
- `PvQspinlock.dfy`, `PvProgress.dfy`, `PvHashMiss.dfy`: the paravirtual queued spinlock, with halted
  vCPUs, lock stealing and the hash table that all locks share. A lock is seen through a view: its own
  word, nodes and contexts, and the whole table; the proof is about one lock, and that the others are
  left alone.
- `Mutex.dfy`: the mutex with WAITERS, HANDOFF and PICKUP.
- `PercpuRwsem.dfy`, `PercpuProgress.dfy`: per-CPU reader counters, modulo 2^32, summed one at a time
  by the writer, with the wait list and the wake function that takes the lock on behalf of waiters.
- `RwbaseRt.dfy`: the PREEMPT_RT reader/writer base on top of an rtmutex.

For each of them, besides what every step keeps: who a task that cannot move waits for; that a call
comes to its end, from wherever it stands, within so many steps of its own when nothing is in the way
(the lemmas called `...Alone`); and that the memory is as it was at first when everybody is done.

**Sequential kernel code.** Classes whose methods work on the source's fields and arrays, each
proved against functions and predicates on values, which further lemmas are about.

- `PiState.dfy`, `PiRelease.dfy`, `RtMutex.dfy`: priority inheritance: the trees and keys, the walk
  along the chain of owners with its early exits, deadlock detection, taking, waking, giving up, and
  exactly when all keys are right afterwards.
- `LockGraph.dfy`, `DepSearch.dfy`, `DepCircle.dfy`, `Lockdep.dfy`: lockdep's dependency graph, its
  breadth-first search for strong paths as a function, what its answer means, and the search and
  `check_prev_add` on the graph's own fields.
- `ChainAlloc.dfy`: the allocator inside the `chain_hlocks` array, with bit-packed free lists.
- `HeldStack.dfy`, `LockStack.dfy`: the stack of held locks with its incremental chain keys, and the
  release from the middle that shifts it in place.

**The analyser.**

- `AliasGraph.dfy`, `AliasAnalysis.dfy`: the unification graph, `mergeNode` and the instruction handlers.
- `Tbaa.dfy`: may-alias by struct-path TBAA tags.
- `TopSort.dfy`: Kahn's algorithm on the control flow graph.

Where the code and its documentation disagree, the code is modelled. `TBAATools.cc` cites the rule of
the LLVM Language Reference, section "'tbaa' Metadata", but reads a three-operand node as a scalar; a
struct with one field has three operands. `Tbaa.OneFieldStructIsMisread` gives tags on which the code
and the rule differ, `Tbaa.StepFollowsRuleIff` says exactly which steps go wrong, and
`Tbaa.AliasFollowsRuleIff` exactly which verdicts. `HandleLoad` adds an edge, or merges, without the
connectivity check of the other handlers; `AliasAnalysis.LoadKeepsPathsIff` says exactly when the edge
is sound, `AliasAnalysis.OnlyTargetsFit` that merging does not help where the nodes are connected, and
`AliasAnalysis.WalkAList` that every walk down a linked list has such a load.

A comment at tests/locking/rtmutex.c:1011-1013 says that the walk goes on to deboost the rest of the
chain. It does not always: it can stop short (`PiRelease.DropStopsShort`), and a waiter whose key for
the owner's tree was never refreshed can come to the top with an old one (`PiRelease.HeirGoesStale`).
The contracts of `TryToTake` and `RemoveWaiter` say exactly when full effect survives.

Lockdep's search can miss a strong circle (`DepCircle.CircleIsMissed`, `DepCircle.ReaderIsMissed`).
`DepCircle.DecidesIffFirm` says exactly in which graphs it finds all that can be reached.

A comment in `pv_hash` (tests/locking/qspinlock_paravirt.h:224-229) argues that there is always a free
entry. There is (`PvQspinlock.SomeSlotIsFree`), but not always where the probe is: entries can come and
go so that each slot is full when it is probed (`PvHashMiss.ProbeRunsOut`, for one entry a cache line).

A comment at tests/locking/qspinlock.c:358-360 argues that an owner that finds a pending bit instead of a
successor will get a successor all the same. `QSpinlockProgress.RunKeepsFollowed` proves that somebody is
on its way in every run; `QSpinlockProgress.NoNodeNoLink` says what happens when that is a thread that
has run out of queue nodes.

A lock taken with a nest lock can be counted on an entry of its class that was taken without one; its
release then finds no entry (`HeldStack.NestedIsLost`). `HeldStack.TakenIsFoundIff` says exactly when
it does.

## The steps and the source

| functions | source |
|---|---|
| `Osq.EnterStep`, `LinkStep`, `WaitStep`, `WaitNextStep`, `LeaveStep`, `OwnStep` | tests/locking/osq_lock.c:53-234 |
| `QSpinlock.TryStep`, `PendStep`, `SlotStep`, `QueueStep` | tests/locking/qspinlock.c:130-380, tests/locking/qspinlock.h:86-199 |
| `PvQspinlock.EnterStep` (stealing, tail), `WaitStep` (pv_wait_node) | tests/locking/qspinlock_paravirt.h:81-104, 290-350; tests/locking/qspinlock.c:210-300 |
| `PvQspinlock.HeadStep` (pv_wait_head_or_lock), `Insert` (pv_hash) | tests/locking/qspinlock_paravirt.h:398-482, 208-240 |
| `PvQspinlock.ClaimStep`, `KickStep` (pv_kick_node), `UnlockStep` (unlock, pv_unhash) | tests/locking/qspinlock.c:335-378; tests/locking/qspinlock_paravirt.h:359-389, 241-257, 498-556 |
| `Mutex.TryStep`, `LockStep`, `UnlockStep` | tests/locking/mutex.c:84-118, 152-170, 194-253, 577-770, 931-982 |
| `PercpuRwsem.ReadStep`, `QueueStep`, `WriteStep` | tests/locking/percpu-rwsem.c:48-167, 188-289 |
| `RwbaseRt.ReadStep`, `DrainStep`, `WriteStep` | tests/locking/rwbase_rt.c:53-303 |

## Model

| member | source | states |
|---|---|---|
| `Osq.StepKeepsInv` | tests/locking/osq_lock.c:53-234 | Every access of osq_lock, osq_wait_next and osq_unlock, by whatever CPU, keeps one invariant over all queues: tails, next and prev pointers and granted flags agree with a single order of the waiters, also while waiters leave from the middle. |
| `Osq.RunKeepsInv` | tests/locking/osq_lock.c:53-234 | The invariant holds in every state of every interleaving of any number of CPUs and locks. |
| `Osq.MutualExclusion` | tests/locking/osq_lock.c:93-208 | Two CPUs between a true-returning osq_lock and the end of osq_unlock never work on the same lock. |
| `Osq.CancelledNeverGranted` | tests/locking/osq_lock.c:147-208 | A waiter past step A of its cancellation has its locked flag clear, and no unlock that has already chosen its successor has chosen it. |
| `Osq.GrantIsNeverLost` | tests/locking/osq_lock.c:210-234 | The tail is not OSQ_UNLOCKED_VAL exactly when some CPU owns the lock or holds the grant, and then exactly one does: a grant never goes to a node that leaves. |
| `OsqProgress.StuckOnlyBehind` | tests/locking/osq_lock.c:93-208 | A CPU that cannot move spins behind another CPU of its queue, and can give up. |
| `OsqProgress.EnterAlone` | tests/locking/osq_lock.c:93-135 | osq_lock, undisturbed, owns a free lock after at most six steps; otherwise it has by then linked itself behind the CPU that was last. |
| `OsqProgress.LockAlone` | tests/locking/osq_lock.c:93-113 | From the call on, a free lock is owned after at most seven steps. |
| `OsqProgress.GrantedAlone` | tests/locking/osq_lock.c:139-183 | A CPU that has been granted the lock owns it after at most four steps of its own, even if it has begun to cancel. |
| `OsqProgress.CancelBegins` | tests/locking/osq_lock.c:152-183 | Giving up unlinks from the predecessor exactly when that still points here, and tries again behind the new one otherwise. |
| `OsqProgress.UnsettledHasSuccessor` | tests/locking/osq_lock.c:53-91 | Who waits in osq_wait_next waits for a CPU behind it. |
| `OsqProgress.PartAlone` | tests/locking/osq_lock.c:185-234 | Unlock and a cancellation past step A end after at most nine steps when nobody is behind or the successor is linked, and it has got the lock, or the place. |
| `OsqProgress.QuietIsUnlocked` | tests/locking/osq_lock.c:210-234 | When all CPUs are done all locks are free. |
| `QSpinlock.StepKeepsInv` | tests/locking/qspinlock.c:130-380 | Every access of the native slow path and the unlock keeps the node slots, the MCS queue and the claims on the lock word consistent. |
| `QSpinlock.RunKeepsInv` | tests/locking/qspinlock.c:130-380 | The same in every state of every interleaving, with nested contexts on each CPU. |
| `QSpinlock.MutualExclusion` | tests/locking/qspinlock.c:130-380 | At most one thread holds a lock, and the locked byte is set exactly when one does. |
| `QSpinlock.OnePendingOwner` | tests/locking/qspinlock.c:140-207 | At most one thread owns the pending bit, and the bit is set exactly when one does, or a newcomer that must undo it has set it. |
| `QSpinlock.StoresNeverSteal` | tests/locking/qspinlock.h:86-199 | clear_pending_set_locked and set_locked, plain stores both, never fire while another thread holds the lock, and the former finds the pending bit set. |
| `QSpinlockProgress.FollowedKept` | tests/locking/qspinlock.c:353-370 | An owner that lost its compare-and-exchange to a pending bit, not to a successor, is followed: whoever set the bit is on its way into the queue, after every step of any thread. |
| `QSpinlockProgress.RunKeepsFollowed` | tests/locking/qspinlock.c:353-370 | So it is in every run. |
| `QSpinlockProgress.NoNodeNoLink` | tests/locking/qspinlock.c:221-235 | Unless that thread has no queue node: then it spins for a zero word, the owner for the link, and neither can move. |
| `QSpinlockProgress.StuckOnlyBehind` | tests/locking/qspinlock.c:130-380 | A thread that cannot move waits for the holder, the pender, its predecessor in the queue, or a successor that is queued or on its way. |
| `QSpinlockProgress.LockAlone` | tests/locking/qspinlock.c:130-380 | Wherever a thread stands, on a lock that nobody has or is in line for before it, it has the lock after at most seven steps of its own. |
| `QSpinlockProgress.LockIsFast` | tests/locking/qspinlock.c:130-142 | On a free lock it is one compare-and-exchange. |
| `QSpinlockProgress.TryDecides` | tests/locking/qspinlock.c:144-167 | A thread tries for the pending bit exactly when it last saw neither a pending bit nor a queue, and first waits only for a pending bit that stands alone. |
| `QSpinlockProgress.FetchDecides` | tests/locking/qspinlock.c:162-206 | The pending bit goes to whoever finds it clear, who keeps it exactly when the queue is empty. |
| `QSpinlockProgress.JoinsQueue` | tests/locking/qspinlock.c:270-288 | Who finds others queued is linked behind the last of them after two steps. |
| `QSpinlockProgress.HandOverAlone` | tests/locking/qspinlock.c:364-380 | With the successor known, handing over ends after two steps, with that node's flag set and nothing else. |
| `QSpinlockProgress.QuietIsZero` | tests/locking/qspinlock.c:130-380 | When all threads are done and hold nothing, all words are zero and all nodes given back. |
| `QSpinlock.NodesDiffer` | tests/locking/qspinlock.c:230-277 | Two threads never use one queue node, although a CPU hands out its four nodes by a counter that interrupts change. |
| `QSpinlock.TailsAreDistinct` | tests/locking/qspinlock.h:52-69 | encode_tail gives different non-zero codes to different (cpu, index) pairs when the fields do not overlap. |
| `PvQspinlock.StepKeepsInv` | tests/locking/qspinlock_paravirt.h:81-149 | Every access of the paravirtual lock keeps the invariant of its lock: queue, holder, vCPU states and hash entry. |
| `PvQspinlock.SystemStepKeepsInv` | tests/locking/qspinlock_paravirt.h:202-257 | With any number of locks in one open-addressed table, a step for one lock keeps the invariants of all. |
| `PvQspinlock.StepKeepsSlots` | tests/locking/qspinlock_paravirt.h:208-257 | A step for one lock only takes free slots and only writes its own: the slots of other locks stay as they are. |
| `PvQspinlock.RunKeepsInv` | tests/locking/qspinlock_paravirt.h:81-556 | The invariants hold in every state of every interleaving of all contexts of all locks. |
| `PvQspinlock.StepsAreDefined` | tests/locking/qspinlock_paravirt.h:81-556 | In every reachable state every context can take its next step: no null pointer and no stale slot is followed. |
| `PvQspinlock.MutualExclusion` | tests/locking/qspinlock_paravirt.h:81-149 | At most one context has a lock, whether it stole it, got it as queue head, or was handed it by its own exchange. |
| `PvQspinlock.OneEntryPerLock` | tests/locking/qspinlock_paravirt.h:208-240 | A lock never has two entries in the table, whoever made them. |
| `PvQspinlock.UnlockSeesEntry` | tests/locking/qspinlock_paravirt.h:498-556 | Whenever an unlock sees _Q_SLOW_VAL, the table holds exactly one entry for the lock, and it names a context that waits for the lock and will not hash it again. |
| `PvQspinlock.UnhashFindsEntry` | tests/locking/qspinlock_paravirt.h:241-257 | The probes pv_unhash has still to make hold that entry, so its BUG() is never reached. |
| `PvQspinlock.ProbeCovers` | tests/locking/qspinlock_paravirt.h:203-206 | The probe sequence of for_each_hash_entry comes to every slot of the table. |
| `PvQspinlock.SomeSlotIsFree` | tests/locking/qspinlock_paravirt.h:208-240 | Whenever a context looks for a slot in pv_hash, some slot is free, if the table has as many slots as there are contexts at work: every full slot belongs to a context of its own, and none to the one that looks. |
| `PvQspinlock.FreeIsNotPassed` | tests/locking/qspinlock_paravirt.h:203-234 | As long as one slot stays free, pv_hash does not get past it: it can run out of slots only if every slot is full at some moment of the pass. |
| `PvHashMiss.ProbeRunsOut` | tests/locking/qspinlock_paravirt.h:208-234 | That can happen: a run with never more contexts at work than slots in which pv_hash comes past the last slot while all slots are free. |
| `PvQspinlock.KickedIsHead` | tests/locking/qspinlock_paravirt.h:515-540 | The node read from the entry, whose CPU is kicked, is still queued for the lock and waits for it. |
| `PvQspinlock.SleeperIsAnnounced` | tests/locking/qspinlock_paravirt.h:398-482 | A queue head in pv_wait() on _Q_SLOW_VAL has its entry in the table, or the holder is between making or taking the entry and the release. |
| `PvQspinlock.SlowIsKept` | tests/locking/qspinlock.c:340-365 | _Q_SLOW_VAL goes only when the head that found the lock free takes it back, or with the release, no entry being left: set_locked and the last waiter's cmpxchg never overwrite it. |
| `PvQspinlock.WritesReachWaiters` | tests/locking/qspinlock_paravirt.h:359-389 | A context writes to another's node only while that one is queued for the same lock, so nodes can be used again at once. |
| `PvProgress.StepKeepsClear` | tests/locking/qspinlock_paravirt.h:398-482 | Every step keeps that the pending bit is set exactly while the queue head spins, that a claimant's compare-and-exchange fails only because of a new tail, and that no waiter sleeps unminded. |
| `PvProgress.RunKeepsClear` | tests/locking/qspinlock_paravirt.h:398-482 | In every run, for every lock. |
| `PvProgress.NoWaiterForgotten` | tests/locking/qspinlock_paravirt.h:290-389 | A waiter that sleeps on its own state although it has been passed the queue is one whose state the holder is about to look at, or has advanced to hashed: the two orders of accesses leave no gap. |
| `PvProgress.PassedIsAnnounced` | tests/locking/qspinlock_paravirt.h:357-389 | While the byte is _Q_SLOW_VAL such a waiter is in the table, or the holder is about to enter it, or has just taken it out to release the lock and kick it. |
| `PvProgress.LinkIsComing` | tests/locking/qspinlock.c:357-368 | A claimant that waits for a link waits for the context behind it, whose next step makes it. |
| `PvProgress.StuckOnlyBehind` | tests/locking/qspinlock_paravirt.h:290-556 | A context that cannot move, whatever it decides, waits for that link or has probed a full table. |
| `PvProgress.LockAlone` | tests/locking/qspinlock_paravirt.h:81-104 | Wherever a context stands, on a lock that nobody has or is queued for before it, it has the lock after at most nine steps of its own and one search of the table. |
| `PvProgress.StealDecides` | tests/locking/qspinlock_paravirt.h:81-103 | A contender steals the lock exactly when the byte is free, and was with no pending bit when it looked; it takes the byte alone. Otherwise it queues, unless it saw a queue without a pending bit. |
| `PvProgress.ClaimAlone` | tests/locking/qspinlock_paravirt.h:359-389 | A queue head that got the lock is in its critical section after at most twelve steps and one search, its successor served. |
| `PvProgress.UnlockAlone` | tests/locking/qspinlock_paravirt.h:498-556 | An unlock ends after at most six steps and one search, and frees the lock. |
| `PvProgress.QuietIsZero` | tests/locking/qspinlock_paravirt.h:498-556 | When all contexts of a lock are done its word is zero and the table has no entry for it. |
| `Mutex.StepKeepsInv` | tests/locking/mutex.c:577-770 | Every access of lock, trylock, unlock and hand-over keeps the owner word and the wait list consistent. |
| `Mutex.ListKept` | tests/locking/mutex.c:206-227 | Only the holder of the wait lock changes the list, and a task is on it exactly while its program point says so. |
| `Mutex.OwnersKept` | tests/locking/mutex.c:84-118 | The owner word names the one task that has the mutex or has been handed it. |
| `Mutex.FlagsKept` | tests/locking/mutex.c:206-227 | WAITERS follows the wait list, but for the wait-lock holder that is about to set or clear it. |
| `Mutex.RunKeepsInv` | tests/locking/mutex.c:577-770 | The invariant holds after every sequence of steps of any number of tasks. |
| `Mutex.MutualExclusion` | tests/locking/mutex.c:84-118 | At most one task owns the mutex. |
| `Mutex.WaitersShow` | tests/locking/mutex.c:206-227 | Outside wait-lock sections WAITERS is set exactly when the wait list is not empty, so a fast unlock cannot miss a waiter. |
| `Mutex.OwnerlessIsClean` | tests/locking/mutex.c:235-253 | A word without owner carries neither HANDOFF nor PICKUP. |
| `Mutex.HandOffIsPickedUp` | tests/locking/mutex.c:655-720 | A task named with PICKUP is on the wait list and bound to try again, and whatever step comes next, it is still named or has become the owner: no signal orphans the mutex. |
| `Mutex.PickupIsForAWaiter` | tests/locking/mutex.c:931-982 | Only a task on the wait list is ever named with PICKUP. |
| `Mutex.WithoutIs` | tests/locking/mutex.c:217-227 | Taking a waiter off the list removes it and keeps the order of the others. |
| `Mutex.TrylockDecides` | tests/locking/mutex.c:84-118 | A trylock that compares with the word as it is gets the mutex exactly when that has no owner or was handed to the task; the word then names the task, the other flags as they were. A first waiter that fails leaves HANDOFF; any other failure leaves the word alone. |
| `Mutex.TrylockLooksAgain` | tests/locking/mutex.c:84-118 | When the word has changed the trylock leaves it alone and looks again, unless what it saw was enough to give up. |
| `Mutex.SpinsIff` | tests/locking/mutex.c:600-720 | Newcomers and the first waiter spin, and nobody else does. |
| `Mutex.TrylockAlone` | tests/locking/mutex.c:84-118 | mutex_trylock, undisturbed, succeeds exactly on a mutex without an owner. |
| `Mutex.UnlockDecides` | tests/locking/mutex.c:931-960 | The fast unlock gives the mutex up exactly when there are no flags, the slow one unless HANDOFF is set; flags are kept, and WAITERS makes it go on to wake the first waiter. |
| `Mutex.HandOffDecides` | tests/locking/mutex.c:235-253 | A hand-off names the first waiter with PICKUP, or nobody when there is none. |
| `Mutex.ListDecides` | tests/locking/mutex.c:206-227 | Who waits is queued at the end, and leaves from wherever it is; nothing else changes the list. |
| `Mutex.StuckOnlyBehind` | tests/locking/mutex.c:577-770 | A task that cannot move waits for the wait lock, and whoever has that can move. |
| `Mutex.LockAlone` | tests/locking/mutex.c:577-770 | Wherever a call of mutex_lock stands, on a mutex that is free or its own by then it has the mutex after at most nine steps of its own. |
| `Mutex.LockIsFast` | tests/locking/mutex.c:152-163 | On a mutex that nobody has or waits for it is one compare-and-exchange. |
| `Mutex.SignalGivesUp` | tests/locking/mutex.c:655-720 | With a signal pending the task leaves the list without the mutex. |
| `Mutex.UnlockAlone` | tests/locking/mutex.c:931-982 | mutex_unlock ends after at most nine steps, the mutex not the task's any more. |
| `Mutex.QuietIsZero` | tests/locking/mutex.c:577-982 | When all tasks are done the mutex is as it was made. |
| `PercpuRwsem.StepKeepsInv` | tests/locking/percpu-rwsem.c:48-289 | Every access of readers, writers and the wake function keeps counters, owners, wait list and the running sum consistent. |
| `PercpuRwsem.RunKeepsInv` | tests/locking/percpu-rwsem.c:48-289 | The same in every state of every interleaving, when tasks and CPUs together are fewer than 2^32. |
| `PercpuRwsem.SumMoves` | tests/locking/percpu-rwsem.c:188-196 | While a writer adds up the counters, a reader that comes or goes on any CPU leaves what the writer has plus what it has still to see at or above the number of readers. |
| `PercpuRwsem.SumSums` | tests/locking/percpu-rwsem.c:212-225 | Reading one more counter keeps that bound, and a 32-bit sum of zero at the end means that the true sum is zero and no reader is inside. |
| `PercpuRwsem.ZeroMeansNoReader` | tests/locking/percpu-rwsem.c:204-225 | A zero sum seen after the last CPU means that no task is a reader, although counters wrap around, readers leave on other CPUs and trylocks pass by during the sum. |
| `PercpuRwsem.WriterIsAlone` | tests/locking/percpu-rwsem.c:227-259 | From the return of percpu_down_write to the store in percpu_up_write no task is a reader and no other writer is past its trylock. |
| `PercpuRwsem.OneWriter` | tests/locking/percpu-rwsem.c:84-90 | At most one writer has `block`, whether it set it itself or the wake function set it on its behalf. |
| `PercpuRwsem.NoneEnters` | tests/locking/percpu-rwsem.c:48-82 | While `block` is set no task becomes a reader, except that a read granted before is passed on to the waiter it was taken for. |
| `PercpuRwsem.NoLostWakeup` | tests/locking/percpu-rwsem.c:119-167 | A waiter that has not been granted is on the wait list, and some task has `block` or is on its way to look at the first waiter. |
| `PercpuProgress.StuckOnlyBehind` | tests/locking/percpu-rwsem.c:48-289 | A task that cannot move waits for a trylock on its CPU, which can move, for the lock of the list, or on the list. |
| `PercpuProgress.ReadAlone` | tests/locking/percpu-rwsem.c:48-185 | Without a writer a reader is in after at most five steps of its own, two by the fast path. |
| `PercpuProgress.WriteAlone` | tests/locking/percpu-rwsem.c:212-259 | Without readers a writer is in after at most two rounds over the counters, even one caught in a round that began with readers. |
| `PercpuProgress.UnlockAlone` | tests/locking/percpu-rwsem.c:262-289 | percpu_up_write ends after five steps and four for each waiter, and leaves nobody waiting for a semaphore that no writer has. |
| `PercpuProgress.GrantsInOrder` | tests/locking/percpu-rwsem.c:119-139 | The first waiter is granted the semaphore and leaves the list; behind a reader the next one is looked at, behind a writer none. |
| `PercpuProgress.TryGivesUp` | tests/locking/percpu-rwsem.c:48-185 | A trylock that finds a writer takes its increment back, and gives up where a lock call queues. |
| `PercpuProgress.QuietIsFresh` | tests/locking/percpu-rwsem.c:48-289 | When all tasks are done nobody is blocked or queued, and the counters add up to zero. |
| `RwbaseRt.StepKeepsInv` | tests/locking/rwbase_rt.c:53-303 | Every access of readers, writers, wake-ups and downgrades keeps the counter, the rtmutex and wait_lock consistent. |
| `RwbaseRt.RunKeepsInv` | tests/locking/rwbase_rt.c:53-303 | The same in every state of every interleaving of any number of tasks below both biases. |
| `RwbaseRt.CounterMeans` | tests/locking/rwbase_rt.c:3-42 | The counter is READER_BIAS plus the active readers, the active readers alone while a writer drains them, or WRITER_BIAS with none active, and its value tells which. |
| `RwbaseRt.WriterIsAlone` | tests/locking/rwbase_rt.c:237-284 | From the WRITER_BIAS to the release no task is a reader and no other task a writer. |
| `RwbaseRt.TrylockIsSafe` | tests/locking/rwbase_rt.c:220-235 | Between the read that found zero and the plain store of WRITER_BIAS the counter stays zero and there is no reader. |
| `RwbaseRt.BiasIsRestored` | tests/locking/rwbase_rt.c:187-218 | Giving up puts READER_BIAS back on top of the readers inside; a write unlock leaves the bias alone; a downgrade leaves the bias and one reader, the former writer. |
| `RwbaseRt.ZeroIsForTheWriter` | tests/locking/rwbase_rt.c:174-185 | A read unlock takes the counter to zero exactly when a writer is draining and the task is the last reader. |
| `RwbaseRt.SleeperIsWoken` | tests/locking/rwbase_rt.c:150-172 | A writer asleep although the counter is zero is the rtmutex owner, and a reader is on its way to find and wake it. |
| `RwbaseRt.StuckOnlyBehind` | tests/locking/rwbase_rt.c:53-303 | A task that cannot move waits for the wait_lock, whose holder can move, for the rtmutex, or asleep for a reader that is inside or on its way to wake it. |
| `RwbaseRt.ReadAlone` | tests/locking/rwbase_rt.c:53-148 | Without a writer a reader is in after at most five steps of its own, two by the fast path. |
| `RwbaseRt.WriteAlone` | tests/locking/rwbase_rt.c:220-303 | With nobody else there a writer is in after at most eight steps of its own. |
| `RwbaseRt.WhoGivesUp` | tests/locking/rwbase_rt.c:53-303 | A trylock gives up exactly where a lock call goes on to wait, and a signal ends each wait. |
| `RwbaseRt.WhoGoesWhere` | tests/locking/rwbase_rt.c:174-185 | A reader goes on to wake somebody only when it takes the counter to zero, and a draining writer is set to sleep before it looks again. |
| `RwbaseRt.ExitAlone` | tests/locking/rwbase_rt.c:150-218 | Every way out ends after at most ten steps. |
| `RwbaseRt.QuietIsFresh` | tests/locking/rwbase_rt.c:53-303 | When all tasks are done the counter is the bias again and both locks are free. |
| `PiState.KeysAreOrdered` | tests/locking/rtmutex.c:349-428 | On the keys tasks can have, rt_waiter_node_less and rt_waiter_node_equal are one total order. |
| `PiState.KeyOrder` | tests/locking/rtmutex.c:393-428 | Which way it runs, from the attributes of tasks: of two deadline tasks the one with the earlier deadline is less, a deadline task is less than any other, of two real-time tasks the one with the smaller prio, real-time is less than fair, and fair tasks are equal. |
| `PiState.TopIsFirst` | tests/locking/rtmutex.c:393-428 | The top waiter of a lock is one that no other waiter comes before in that order. |
| `PiState.TopIsEarliest` | tests/locking/rtmutex.c:393-411 | When all waiters of a lock are deadline tasks, the top one has the earliest deadline. |
| `PiState.EarliestIsTop` | tests/locking/rtmutex.c:393-411 | A waiter with a deadline earlier than all others is the top waiter. |
| `PiState.OwnersAreNoLater` | tests/locking/rtmutex.c:606-676 | In full effect no owner comes later in that order than anyone who waits for its locks. |
| `PiState.InsertIs` | tests/locking/rtmutex.c:452-500 | Queueing a waiter keeps the tree sorted, adds exactly that waiter, and puts it behind its equals. |
| `PiState.RemoveIs` | tests/locking/rtmutex.c:487-521 | Removing a waiter keeps the tree sorted and removes exactly that waiter. |
| `PiState.BlockKeepsTrees` | tests/locking/rtmutex.c:1244-1258 | Queueing a task that blocks keeps every waiters tree sorted and made of exactly the tasks blocked on the lock. |
| `PiState.RequeueKeepsTrees` | tests/locking/rtmutex.c:938-966 | So does requeueing a waiter with the task's current priority. |
| `PiState.EnqueuePiKeeps` | tests/locking/rtmutex.c:507-513 | Putting the top waiter of a lock into the owner's pi tree keeps that tree sorted and made of exactly the tops of the owner's locks. |
| `PiState.DequeuePiKeeps` | tests/locking/rtmutex.c:515-521 | Taking it out does too. |
| `PiState.SwappedKeepsShape` | tests/locking/rtmutex.c:980-1023 | Replacing a lock's old top waiter by the new one in the owner's pi tree restores the membership of all trees. |
| `PiState.MoreUrgent` | tests/locking/rtmutex.c:980-1005 | Where a waiter has come to the top, the owner's priority gets no less urgent, and if it changes, then to that waiter's. |
| `PiState.Pushed` | tests/locking/rtmutex.c:980-1023 | After the push to the owner every key in the system is right, but for the waiter of the owner. |
| `PiState.Requeued` | tests/locking/rtmutex.c:938-975 | After a waiter is requeued either everything is right, or it is at the top and to be pushed to the owner. |
| `PiState.BlockedIsReady` | tests/locking/rtmutex.c:1244-1275 | The same when a task has just blocked. |
| `PiState.OwnersCover` | tests/locking/rtmutex.c:527-541 | With priority inheritance in full effect the owner of the lock a task waits for is at least as urgent as the task. |
| `RtMutex.TransitiveOwnersCover` | tests/locking/rtmutex.c:606-676 | So is every owner further along the chain. |
| `RtMutex.DeadlockIff` | tests/locking/rtmutex.c:855-925 | In a graph without cycles, with the chain within the limit, the walk reports a deadlock exactly when the chain of owners leads back to the blocking task. |
| `RtMutex.ChainHits` | tests/locking/rtmutex.c:905-925 | When the chain leads back to the task, the walk comes to a lock owned by it before the chain ends. |
| `RtMutex.ChainMisses` | tests/locking/rtmutex.c:905-925 | When it does not, no lock of the chain is owned by the task or is the lock the walk came from. |
| `RtMutex.StepsUntil` | tests/locking/rtmutex.c:1255-1262 | Blocking a task changes nothing in the chain before the task. |
| `RtMutex.RtMutexes.StepUp` | tests/locking/rtmutex.c:930-1035 | One round of requeueing and passing on: after boosting all keys are right, or all but the next owner's waiter, which the walk goes on to; the new state is exactly `Stepped`, whichever way the priority went. |
| `RtMutex.RtMutexes.Inspect` | tests/locking/rtmutex.c:720-853 | The early exits of the walk lose nothing: where it stops while boosting without deadlock detection, priority inheritance is in full effect; and it says exactly when a walk without detection stops. |
| `RtMutex.RtMutexes.AdjustPrioChain` | tests/locking/rtmutex.c:678-1074 | A boosting walk ends with full effect when it returns 0. With detection on it returns what the chain of owners says, and in any mode it returns -EDEADLK only for a hit or too long a chain. A lowering walk leaves full effect exactly when `Settles` says so of the state before it. The keys of who waits for the first lock stay as they are. |
| `RtMutex.RtMutexes.TaskBlocksOn` | tests/locking/rtmutex.c:1203-1304 | In every mode: where the chain of owners ends within max_lock_depth and does not lead back to the task, blocking succeeds, takes a state in full effect to one in full effect, and leaves at the top of the lock a waiter that none comes before. With detection it reports -EDEADLK exactly when the owners lead back to the task. |
| `RtMutex.RtMutexes.StartProxyLock` | tests/locking/rtmutex_api.c:311-338 | The proxy lock succeeds at once exactly when the task may take the lock; otherwise it waits with boosting in full effect, or reports the deadlock. |
| `RtMutex.RtMutexes.TryToTake` | tests/locking/rtmutex.c:1086-1194 | A lock is taken exactly when it has no owner and the task is its top waiter or may steal it; the trees keep their members, and full effect survives exactly when the next top waiter has the same key in both its nodes. |
| `RtMutex.RtMutexes.WakeNext` | tests/locking/rtmutex.c:1312-1356 | Giving a lock up clears the owner, changes no other task's priority, keeps the members of all trees, and full effect when the owner is not itself blocked. |
| `RtMutex.RtMutexes.RemoveWaiter` | tests/locking/rtmutex.c:1539-1590 | Giving up waiting unblocks exactly that task and keeps the members of all trees; full effect survives exactly when the task was not at the top, or the next top waiter has the same key in both its nodes and the lowering that follows settles. |
| `PiRelease.GivenUpIsFresh` | tests/locking/rtmutex.c:1319-1344 | Without its top waiter for a donor, a running owner falls back to what its other waiters donate, and all keys stay right. |
| `PiRelease.MayTakeIff` | tests/locking/rtmutex.c:430-448 | A task may take a lock without owner exactly when no waiter comes before it, by the order on task attributes. |
| `PiRelease.TakerCovers` | tests/locking/rtmutex.c:430-448 | Whoever may take the lock is at least as urgent as the waiter left at the top. |
| `PiRelease.TakenIsFreshIff` | tests/locking/rtmutex.c:1112-1190 | Taking the lock keeps full effect exactly when that waiter's key in the pi tree, which nobody refreshes here, is that of the waiters tree. |
| `PiRelease.LeftIsFresh` | tests/locking/rtmutex.c:1558-1570 | When the top waiter leaves and the next one has equal keys, everything is right but the waiter of the owner. |
| `PiRelease.LeftBehindIsFresh` | tests/locking/rtmutex.c:1548-1556 | A waiter that is not at the top leaves full effect behind. |
| `PiRelease.SteppedIsFresh` | tests/locking/rtmutex.c:930-1035 | A round puts the waiter of its task right, whether its priority rose or fell, and hands what is left to do to the next owner. |
| `PiRelease.SettlesNow` | tests/locking/rtmutex.c:792-853 | Where a lowering walk stops, all is right exactly when it settles from there, and where it goes on, exactly when it settles from the next task. |
| `PiRelease.StaleHeirStays` | tests/locking/rtmutex.c:1558-1590 | A next top waiter with unequal keys is not put right by the walk that follows. |
| `PiRelease.HeirGoesStale` | tests/locking/rtmutex.c:930-1035 | A state in full effect, reached by one round of boosting, in which a waiter below the top has unequal keys: when the top waiter leaves, or takes the lock given up, full effect is lost. |
| `PiRelease.DropStopsShort` | tests/locking/rtmutex.c:779-805 | A state in full effect in which no keys are unequal, and yet a leaving waiter loses it: the lowering walk stops at a task whose top pi waiter is no longer the one it came from, although that task has just been lowered itself. |
| `PiRelease.SingleSettles` | tests/locking/rtmutex.c:779-1074 | Along a chain of owners with one pi waiter each at most, which ends within max_lock_depth and does not come back, lowering always settles, whatever the keys. |
| `PiRelease.SingleLeavesWell` | tests/locking/rtmutex.c:1539-1590 | So a waiter with a fresh heir can leave such a chain without loss: a condition on the state before, without running the walk. |
| `LockGraph.ReachTrans` | tests/locking/lockdep.c:1733-1839 | Reachability over dependencies composes. |
| `LockGraph.ClosedReach` | tests/locking/lockdep.c:1733-1839 | What is closed under dependencies contains all that can be reached from it. |
| `LockGraph.AddedEdgeIsSafe` | tests/locking/lockdep.c:2140-2179 | A dependency whose end does not reach its start keeps an acyclic graph acyclic. |
| `LockGraph.AddedEdgeIsUnsafe` | tests/locking/lockdep.c:2140-2179 | A dependency whose end reaches its start closes a cycle. |
| `LockGraph.XrAfterIsExact` | tests/locking/lockdep.c:1768-1791 | The only_xr bit computed greedily along a walk is exact: a walk survives the filter exactly when a kind can be chosen for each edge with no -(*R)-> before -(S*)->, and the bit is clear exactly when the choice can end in -(*N)->. |
| `LockGraph.AddDepLookup` | tests/locking/lockdep.c:3181-3210 | Adding a dependency changes what the list says about that class, by merging kinds and distance, and about no other. |
| `LockGraph.AddDepEdges` | tests/locking/lockdep.c:3180-3230 | The graph gains the edge and no other. |
| `LockGraph.AddKeepsMirrored` | tests/locking/lockdep.c:3180-3246 | Updating both lists keeps locks_before the exact converse of locks_after, with the bits of each kind swapped. |
| `DepCircle.CalcDepsAgree` | tests/locking/lockdep.c:1636-1658 | calc_dep and calc_depb give the same kind seen from the two ends. |
| `DepSearch.FirmWalk` | tests/locking/lockdep.c:1768-1791 | A walk whose dependencies can all be non-recursive is not filtered out. |
| `DepSearch.MatchIsWitnessed` | tests/locking/lockdep.c:1733-1839 | An entry the search lets through ends a strong walk along the parent pointers, and its only_xr tells whether that walk can end in -(*N)->. |
| `DepSearch.TurnKeeps` | tests/locking/lockdep.c:1752-1835 | A round of the search, whatever it does with the entry, keeps all that is known: entries let through end strong walks, what is expanded has its entries queued or looked at, and in a firm graph no flag is set and nothing accessed is left unexpanded. |
| `DepSearch.NothingLeft` | tests/locking/lockdep.c:1697-1731 | When the queue is empty and no sibling is left, the classes accessed are closed under dependencies, although only the first sibling of each list was ever queued. |
| `DepSearch.SweepIsRight` | tests/locking/lockdep.c:1733-1839 | The whole search: a match was looked for and is reached by a strong walk, for all kinds of dependencies; and where no dependency on another class is only recursive, from a root that is not a recursive reader, no match means that nothing that can be reached matches. |
| `DepCircle.ConflictIsCircle` | tests/locking/lockdep.c:1970-2003 | A match of hlock_conflict is a strong circle once the new dependency is added. |
| `DepCircle.WalkReaches` | tests/locking/lockdep.c:2140-2179 | A strong walk is a path in the graph. |
| `DepCircle.AnswerIsRight` | tests/locking/lockdep.c:2148-2179 | A match is a strong circle through the new dependency, hence a circle; no match, in a firm graph and for a source that is not a recursive reader, means that there is no circle at all. |
| `DepCircle.OnlyRecursiveIsMissed` | tests/locking/lockdep.c:1783-1792 | Where the first dependency from one class to another is only recursive, the search from the one does not find the other, a reader, although the dependency leads there. |
| `DepCircle.NeverFull` | tests/locking/lockdep.c:1824-1830 | With room for all classes, the queue never runs full: one entry is queued for each class expanded. |
| `DepCircle.DecidesIffFirm` | tests/locking/lockdep.c:2148-2179 | With room for all classes and lists without duplicates: for all sources that are not recursive readers and all targets, the search finds the target exactly when it can be reached, if and only if no dependency between two classes is only recursive. |
| `DepCircle.FirmDecides` | tests/locking/lockdep.c:2157-2185 | In a firm graph whose classes fit the queue, from a source that is not a recursive reader, the search answers match or no match, and match exactly when the target is reached. |
| `Lockdep.WithIsSafe` | tests/locking/lockdep.c:3121-3249 | A dependency on a lock not taken by a recursive reader, added after an exhaustive search found nothing, keeps the graph firm and acyclic. |
| `Lockdep.DepGraph.CqEnqueue` | tests/locking/lockdep.c:1491-1508 | The circular queue takes an element at the end, or refuses it exactly when one slot is left. |
| `Lockdep.DepGraph.CqDequeue` | tests/locking/lockdep.c:1510-1521 | It gives the first element, or nothing exactly when it is empty. |
| `Lockdep.DepGraph.Bfs` | tests/locking/lockdep.c:1733-1839 | The fields, the circular queue and the sibling lists give exactly the result of `Sweep`, the search as a function, and on a match its target, parents and flags. No match means, in a firm graph, from a root that is not a recursive reader and with nothing skipped, that no reachable class matches. |
| `Lockdep.DepGraph.CheckNoncircular` | tests/locking/lockdep.c:2148-2179 | A match gives a strong circle. No match means that the source does not reach the target, where no dependency on another class is only recursive and the source is not a recursive reader. |
| `Lockdep.DepGraph.CheckPrevAdd` | tests/locking/lockdep.c:3121-3249 | Exactly when it returns 0, 1 and 2, and success adds exactly the requested dependency to both lists, which stay each other's converse. Where no dependency on another class is only recursive, the lock requested is not taken by a recursive reader and the queue has room, the search objects exactly when the dependency closes a cycle. |
| `Lockdep.DepGraph.AddAll` | tests/locking/lockdep.c:3121-3249 | Any sequence of dependencies on locks not taken by recursive readers keeps the graph acyclic and the lists each other's converse. When nothing else is wrong with them, it succeeds exactly when they close no cycle all together, and then they are all in the graph. |
| `Lockdep.WithIsUnsafe` | tests/locking/lockdep.c:3121-3160 | A dependency whose end reaches its start makes the graph cyclic. |
| `Lockdep.CircleStays` | tests/locking/lockdep.c:3121-3249 | No dependency added later takes a cycle away. |
| `DepCircle.CircleIsMissed` | tests/locking/lockdep.c:1752-1792 | A graph with a strong circle on which the search, from any earlier field values and with room in the queue, ends without a match: the class is marked accessed through a dependency that is then filtered out. |
| `DepCircle.ReaderIsMissed` | tests/locking/lockdep.c:1752-1792 | The same in a graph without only-recursive dependencies, when the source is held by a recursive reader. |
| `ChainAlloc.LinkRoundTrip` | tests/locking/lockdep.c:3376-3409 | A link packed into two 16-bit cells reads back as it was written exactly when it is below 0x7fff0000. |
| `ChainAlloc.SizeRoundTrip` | tests/locking/lockdep.c:3395-3409 | So does every size of up to 32 bits. |
| `ChainAlloc.TotalWithout` | tests/locking/lockdep.c:3411-3464 | Removing a block lowers the total of a pool by its size. |
| `ChainAlloc.SpellsInsert` | tests/locking/lockdep.c:3435-3463 | Writing a block between two neighbours makes the cells spell the list with the block in it. |
| `ChainAlloc.BinnedInsert` | tests/locking/lockdep.c:3411-3464 | Each free block stays in the bucket of its size and in no other. |
| `ChainAlloc.Added` | tests/locking/lockdep.c:3411-3464 | With the block written into its list the pool has one more free block and all its invariants. |
| `ChainAlloc.Removed` | tests/locking/lockdep.c:3466-3473 | With the first block of a list taken off it has one less. |
| `ChainAlloc.HandedOut` | tests/locking/lockdep.c:3491-3552 | The cells kept by the caller and the rest put back overlap nothing. |
| `ChainAlloc.TakenBack` | tests/locking/lockdep.c:3554-3557 | The cells of a freed block are vacant. |
| `ChainAlloc.FixedWrite` | tests/locking/lockdep.c:3411-3464 | Adding a block of fixed size writes only its own cells and its bucket head. |
| `ChainAlloc.LargeWrite` | tests/locking/lockdep.c:3425-3463 | Adding a large block writes only its own cells and one link, and keeps bucket 0 sorted from large to small. |
| `ChainAlloc.NoneIffSmall` | tests/locking/lockdep.c:3491-3552 | The search finds nothing exactly when no free block is large enough. |
| `ChainAlloc.ChainPool.constructor` | tests/locking/lockdep.c:3475-3489 | At first the whole array is one free block. |
| `ChainAlloc.ChainPool.AddChainBlock` | tests/locking/lockdep.c:3411-3464 | A vacant region becomes a free block, or is counted as lost when it is shorter than a link. |
| `ChainAlloc.ChainPool.DelChainBlock` | tests/locking/lockdep.c:3466-3473 | The first block of a bucket stops being free, its cells being vacant. |
| `ChainAlloc.ChainPool.AllocChainHlocks` | tests/locking/lockdep.c:3491-3552 | -1 exactly when every free block has fewer than two cells or fewer than requested; otherwise a block of as many cells as requested, or two, the rest free again or lost, the cells of other callers untouched, and free, allocated and lost adding up to the array. |
| `ChainAlloc.ChainPool.FreeChainHlocks` | tests/locking/lockdep.c:3554-3557 | The block is free again, with the size it was allocated with, and nothing else changes. |
| `HeldStack.AcquiredIsNormal` | tests/locking/lockdep.c:5129-5154 | No acquisition leaves two adjacent entries of one class of which the upper has a nest lock. |
| `HeldStack.AcquireFailsIff` | tests/locking/lockdep.c:5124-5270 | A lock is refused exactly when the stack is full before or after, the references do not fit, a check fails, or the nest lock is held by no entry. |
| `HeldStack.AcquireAdds` | tests/locking/lockdep.c:5129-5254 | A lock that is taken raises the total hold count by exactly what it stands for: as a new entry on top, or as references on the top entry, all entries below left as they were. |
| `HeldStack.SyncLeavesAlone` | tests/locking/lockdep.c:5240-5245 | lock_sync leaves the stack alone and says whether the lock could be taken. |
| `HeldStack.HeldIsFound` | tests/locking/lockdep.c:5343-5373 | Within one irq context a lock is found exactly when it is held. |
| `HeldStack.TakenIsFoundIff` | tests/locking/lockdep.c:5303-5341 | The entry a lock was counted on is found for it exactly when it is that very lock's, or was itself taken with a nest lock, the class being the lock's first. |
| `HeldStack.NestedIsLost` | tests/locking/lockdep.c:5303-5341 | A lock counted on an entry without nest lock is not found: its release is taken for a mistake. |
| `HeldStack.ReleaseUndoes` | tests/locking/lockdep.c:5511-5570 | Taking a lock once and releasing its entry gives the stack back. |
| `HeldStack.ReplayFirst` | tests/locking/lockdep.c:5375-5404 | Acquiring the entry above the released one again merges it into the one below exactly when the class is the same and it has a nest lock. |
| `HeldStack.ReplayIs` | tests/locking/lockdep.c:5375-5404 | The entries above that do not merge, so the stack becomes the old one without the released entry. |
| `HeldStack.ReplayPlain` | tests/locking/lockdep.c:5375-5404 | Acquiring entries again on the stack they came from merges nothing. |
| `HeldStack.WithoutTotal` | tests/locking/lockdep.c:5511-5590 | The stack without an entry counts as many holds less as the entry stood for, whether or not its neighbours merge. |
| `HeldStack.WithoutIsSplice` | tests/locking/lockdep.c:5511-5590 | When the locks above were taken in the current irq context, they come back unchanged. |
| `HeldStack.ReleaseTakesOne` | tests/locking/lockdep.c:5511-5590 | A release whose re-acquires succeed lowers the total hold count by exactly one, by a reference or by the entry. |
| `HeldStack.ReleaseOkIff` | tests/locking/lockdep.c:5375-5404 | A release goes well exactly when references are left, or every lock above can be taken again: the references of the first fit where it merges, all others pass the checks, their nest locks still held. |
| `HeldStack.KeyOfSame` | tests/locking/lockdep.c:429-454 | The chain key does not depend on references. |
| `LockStack.PushKeeps` | tests/locking/lockdep.c:5197-5230 | A pushed entry that holds the current key keeps every entry's key what it is from scratch. |
| `LockStack.HeldLocks.LockIsHeld` | tests/locking/lockdep.c:5592-5610 | True exactly when some held entry matches the lock, by instance or as a reference of its class. |
| `LockStack.HeldLocks.CheckChainKey` | tests/locking/lockdep.c:3936-3983 | Recomputing the chain key from scratch always agrees with the incremental keys. |
| `LockStack.HeldLocks.Acquire` | tests/locking/lockdep.c:5077-5270 | Taking a lock pushes an entry, merges it into the top, or fails, as the specification says, and keeps keys and normal form; success adds exactly the holds asked for; nothing above the new top is overwritten. |
| `LockStack.HeldLocks.FindHeldLock` | tests/locking/lockdep.c:5343-5373 | The topmost matching entry that no irq context boundary separates from the top, or none exactly when there is none. |
| `LockStack.HeldLocks.Reacquire` | tests/locking/lockdep.c:5375-5404 | Working in place over the same array, it computes what acquiring the entries one after the other on a separate stack would. |
| `LockStack.HeldLocks.ReleaseEntry` | tests/locking/lockdep.c:5535-5590 | The stack becomes what the specification of a release says, and the depth check never warns. |
| `LockStack.HeldLocks.Release` | tests/locking/lockdep.c:5511-5590 | The same for the entry found, and no change at all when none is found. |
| `LockStack.HeldLocks.DowngradeEntry` | tests/locking/lockdep.c:5468-5505 | A downgraded entry keeps its place, those above come back, and neither warning fires. |
| `AliasGraph.NoCycle` | src/lib/AliasAnalysis/AliasAnalysisTools.cc:233-265 | Where edges climb levels no path closes on itself. |
| `AliasGraph.ComponentIsPath` | src/lib/AliasAnalysis/AliasAnalysisTools.cc:233-265 | Then a component has one node a level: it is a path. |
| `AliasGraph.ConnectedAlong` | src/lib/AliasAnalysis/AliasAnalysisTools.cc:233-265 | Components are closed under edges both ways. |
| `AliasGraph.WalkSurvives` | src/lib/AliasAnalysis/AliasAnalysisTools.cc:43-131 | Connected nodes stay connected when a merge loses no edge. |
| `AliasGraph.KernelIsCongruence` | src/lib/AliasAnalysis/AliasAnalysisTools.cc:43-131 | Nodes merged into one form an equivalence that following edges cannot leave. |
| `AliasGraph.FoldingIsLeast` | src/lib/AliasAnalysis/AliasAnalysisTools.cc:43-131 | A merge that keeps all edges and identifies only what is forced is the least such equivalence with the two nodes in it. |
| `AliasGraph.TakeOver` | src/lib/AliasAnalysis/AliasAnalysisTools.cc:60-131 | Handing the only edge over to the other node folds that half of the path. |
| `AliasGraph.RestoreFolds` | src/lib/AliasAnalysis/AliasAnalysisTools.cc:60-131 | So does cutting both edges, folding what lies beyond, and restoring one. |
| `AliasGraph.BothSurvive` | src/lib/AliasAnalysis/AliasAnalysisTools.cc:43-131 | Folding the two halves one after the other loses no edge. |
| `AliasAnalysis.LoadKeepsPathsIff` | src/lib/AliasAnalysis/InstHandler.cc:176-179 | The edge a load adds without a connectivity check keeps components paths exactly when the two nodes were not connected. |
| `AliasAnalysis.OnlyTargetsFit` | src/lib/AliasAnalysis/InstHandler.cc:166-175 | Nor can the two merging branches of a load do better: if the nodes were connected, then whatever is merged, the result keeps all edges, points as asked and has only paths for components only when the value was the pointer's target already. |
| `AliasAnalysis.LoadMakesALoop` | src/lib/AliasAnalysis/InstHandler.cc:176-179 | The smallest input that fails: value and pointer in one node without edges, which comes to point to itself. |
| `AliasAnalysis.WalkAList` | src/lib/AliasAnalysis/InstHandler.cc:82-88 | The instructions that lead there: a PHI of a list head and of the next pointer that the loop loads through it. |
| `AliasAnalysis.FoldKeeps` | src/lib/AliasAnalysis/AliasAnalysisTools.cc:43-131 | A merge that loses no edge keeps every alias, points-to and connection fact. |
| `AliasAnalysis.KeepsHolding` | src/lib/AliasAnalysis/InstHandler.cc:120-343 | What an instruction has established holds on in every state that keeps the facts. |
| `AliasAnalysis.Isolated` | src/lib/AliasAnalysis/AliasAnalysisTools.cc:233-265 | A new node is connected to nothing but itself. |
| `AliasAnalysis.AliasContext.MoveValues` | src/lib/AliasAnalysis/AliasAnalysisTools.cc:43-58 | All values of one node go to the other and the classes stay a partition. |
| `AliasAnalysis.AliasContext.MergeNode` | src/lib/AliasAnalysis/AliasAnalysisTools.cc:24-131 | Terminates; keeps the partition, the mutually inverse maps and the paths, whatever TBAA blocks. Two nodes with tags that TBAA separates are left alone and counted, any others become one, which has a tag if either had. When this call has blocked no merge, the result is exactly the least equivalence relating the two nodes and closed under edges, and no edge is lost. |
| `AliasAnalysis.AliasContext.CheckNodeConnectivity` | src/lib/AliasAnalysis/AliasAnalysisTools.cc:233-265 | True exactly when the two nodes are in one component. |
| `AliasAnalysis.AliasContext.GetNode` | src/lib/AliasAnalysis/AliasAnalysisTools.cc:134-141 | The node of a known value, or a new node without edges that holds just this value. |
| `AliasAnalysis.AliasContext.PointTo` | src/lib/AliasAnalysis/InstHandler.cc:150-181 | Between unconnected nodes, whatever edges they have, the pointer's node comes to point to the value's, when TBAA has blocked no merge. |
| `AliasAnalysis.AliasContext.HandleAlloc` | src/lib/AliasAnalysis/InstHandler.cc:120-128 | A new value gets a node of its own; nothing known is lost. |
| `AliasAnalysis.AliasContext.HandleLoad` | src/lib/AliasAnalysis/InstHandler.cc:130-181 | For a result that is not connected to the pointer otherwise than as its target: when TBAA has blocked no merge the pointer points to the result and every earlier fact holds on; alias facts hold on in any case. Result and pointer end up in tagged nodes: with the tag they had, or else the load's. |
| `AliasAnalysis.AliasContext.HandleStoreInst` | src/lib/AliasAnalysis/InstHandler.cc:183-264 | When TBAA has blocked no merge a store between unconnected nodes establishes To[node(ptr)] = node(val); connected ones and constants change nothing. The pointer ends up in a tagged node; a function with a tag that TBAA separates from the store's loses it, any other gets one. |
| `AliasAnalysis.AliasContext.HandleStore` | src/lib/AliasAnalysis/InstHandler.cc:266-304 | The same for stores without an instruction. |
| `AliasAnalysis.AliasContext.HandleMove` | src/lib/AliasAnalysis/InstHandler.cc:317-343 | When TBAA has blocked no merge unconnected values become aliases; connected ones stay as they were; no edge appears out of nothing. |
| `AliasAnalysis.AliasContext.LoadIsOk` | src/lib/AliasAnalysis/AliasAnalysisTools.cc:233-265 | Decides by the connectivity check whether HandleLoad can take a load. |
| `AliasAnalysis.AliasContext.Run` | src/lib/AliasAnalysis/InstHandler.cc:31-118 | Every run, with any tags, keeps the partition, the inverse maps, the paths and all alias facts; when it has blocked no merge, what each instruction established holds at the end. It goes on up to the first load of a value already connected to its pointer otherwise than as its target, and to the end when loads name new values. |
| `Tbaa.FieldIsNearest` | src/lib/utils/TBAATools.cc:153-184 | In a struct with its fields in order, the field chosen has the greatest offset not past the one looked for, and none is chosen exactly when all lie past it. |
| `Tbaa.ImmediateParent` | src/lib/utils/TBAATools.cc:131-191 | The loop computes the last field before the first one past the offset. |
| `Tbaa.RootFromTag` | src/lib/utils/TBAATools.cc:96-119 | The root above a chain of scalar descriptors, or none; terminates on acyclic nodes. |
| `Tbaa.TagRootIffRooted` | src/lib/utils/TBAATools.cc:96-119 | A tag has a root exactly when a chain of scalar descriptors, of any length, leads from its access type to a root, and that is the one. |
| `Tbaa.RootIffChain` | src/lib/utils/TBAATools.cc:105-119 | The same for a descriptor. |
| `Tbaa.Ancestry` | src/lib/utils/TBAATools.cc:230-263 | The chain holds exactly the places that can be reached by immediate parents; building it terminates. |
| `Tbaa.MayAlias` | src/lib/utils/TBAATools.cc:197-288 | Decides as specified, malformed tags, missing and different roots included. |
| `Tbaa.VerdictByChains` | src/lib/utils/TBAATools.cc:197-230 | What is decided by chains alone: a null or malformed tag may alias anything, as may one without a root on another base type; tags whose chains lead to different roots never alias; with one root, they alias exactly when one place reaches the other. |
| `Tbaa.IntIsNotLong` | src/lib/utils/TBAATools.cc:197-288 | In the layout of C, int and long below char below the root, tags of int and long do not alias. |
| `Tbaa.SameBaseNeverReaches` | src/lib/utils/TBAATools.cc:211-216 | Two different offsets in one type never reach each other, so the shortcut is redundant. |
| `Tbaa.AliasIffReachable` | src/lib/utils/TBAATools.cc:265-288 | For tags with a common root, may-alias holds exactly when one place is reachable from the other. |
| `Tbaa.VerdictIsSymmetric` | src/lib/utils/TBAATools.cc:197-288 | The answer does not depend on the order of the tags. |
| `Tbaa.StepFollowsRuleIff` | src/lib/utils/TBAATools.cc:41-51 | A step of the code is a step of the rule of the LLVM Language Reference exactly when it does not enter a three-operand node past its start, or one whose field starts later. |
| `Tbaa.CrossingParts` | src/lib/utils/TBAATools.cc:131-191 | Past such a node only one of the two ways, the code's and the rule's, can still arrive. |
| `Tbaa.ReachesByRuleIff` | src/lib/utils/TBAATools.cc:230-263 | One place reaches another alike by the code and by the rule exactly when no such node is crossed in between. |
| `Tbaa.AliasFollowsRuleIff` | src/lib/utils/TBAATools.cc:197-288 | For tags with a common root the code decides by the rule exactly when no such node is crossed on the way from one place to the other, by the code or by the rule. |
| `Tbaa.OneFieldStructIsMisread` | src/lib/utils/TBAATools.cc:41-51 | A concrete pair of tags, one through a one-field struct, that alias by the rule and are separated by the code. |
| `Tbaa.ShouldMerge` | src/lib/utils/TBAATools.cc:290-313 | A node without tag never blocks a merge. |
| `TopSort.CountEdges` | src/lib/CallGraph/UnrollLoop.cc:26-30 | Counts the edges out of a block, repeated ones as often as they occur, without those to itself. |
| `TopSort.InDegrees` | src/lib/CallGraph/UnrollLoop.cc:13-31 | Every block gets the number of edges that come in from other blocks. |
| `TopSort.TakeOut` | src/lib/CallGraph/UnrollLoop.cc:49-55 | Taking a block out leaves the others with their remaining edges; the key set loses that block only, so no decrement creates an erased entry again. |
| `TopSort.LoopIsThere` | src/lib/CallGraph/UnrollLoop.cc:45-47 | When no block is without incoming edges, some block can be reached again from itself. |
| `TopSort.NoLoop` | src/lib/CallGraph/UnrollLoop.cc:57-58 | When all blocks can be taken out, none can. |
| `TopSort.Sort` | src/lib/CallGraph/UnrollLoop.cc:4-60 | True exactly when the control flow graph without self-loops is acyclic. |

## Left out

- Memory ordering weaker than sequential consistency, and all barriers.
- Fairness, and liveness while others interfere: that a waiter gets the lock in the end. What is proved is that grants, entries and wake-ups are not lost, who a task that cannot move waits for, and that undisturbed calls end.
- `tests/locking/mcs_spinlock.h` on its own: its queue is the one inside `QSpinlock.dfy` and `Osq.dfy`.
- `tests/locking/semaphore.c`, `qrwlock.c`, `spinlock.c`, `ww_mutex.h`, futex clean-up, statistics, tracing and printing.
- The fast paths and the unlock of the native queued spinlock come from `asm-generic/qspinlock.h`, which is not part of the repository; they are modelled as one compare-and-exchange and one store.
- QSpinlock.StepKeepsInv: a context beyond the fourth on a CPU spins without a node, as the code does; that it can starve is not modelled.
- The BUG() of pv_hash past the last slot: the context stays there.
- PvQspinlock.RunKeepsInv: a context belongs to one lock for good. That nodes can be used again for other locks is what PvQspinlock.WritesReachWaiters is for.
- The mutex's optimistic spinner beyond repeated trylocks, and wound/wait mutexes.
- Mutex.HandOffIsPickedUp: that the named task takes a step at all is left to the scheduler.
- The reader fast path of percpu-rwsem is in a header that is not part of the repository; it is taken at the word of rcu_sync, that no reader uses it while a writer is between enter and exit.
- PercpuRwsem.RunKeepsInv: assumes that tasks and CPUs together number fewer than 2^32, which is what the modular sum can tell apart.
- RwbaseRt.RunKeepsInv: READER_BIAS and WRITER_BIAS come from a header that is not part of the repository; they are any two numbers with fewer tasks than either. The inner rtmutex is an owner and a spin lock.
- Concurrency in the rtmutex: operations run one at a time, with nothing changing between the steps of a walk; the re-checks of the walk for concurrent changes are left out with it.
- RtMutex.RtMutexes.AdjustPrioChain: says nothing about keys when it reports a deadlock; the caller then removes the waiter.
- `rt_mutex_setprio` is abstracted to the more urgent of the task's own key and its top pi waiter's; wrap-around of deadlines, wake queues and the HAS_WAITERS bit are left out.
- Lockdep's irq-usage checks, redundancy search, stack traces and allocation of list entries are answers from outside; compare functions of lock classes and the wrap-around of the search number are left out.
- Lockdep.DepGraph.Bfs: what no match says is stated in terms of reachability, and for roots that are not recursive readers; DepCircle.ReaderIsMissed shows that for recursive readers it cannot be said.
- `__lock_set_class`, and what happens after lockdep has turned itself off; wait-context, usage and chain validation of a new lock are one verdict from outside.
- LockStack.HeldLocks.Acquire: the class of a lock is given; the registration of classes is not modelled, and iterate_chain_key is any function of two numbers.
- ChainAlloc.ChainPool.FreeChainHlocks: asks that the block was allocated with that size, as the only caller does.
- Null operands and cycles in metadata: descriptors are acyclic, so their nodes can be numbered upwards.
- LLVM itself: bitcode, debug info, dispatch on instructions; values, nodes, tags and blocks are numbers.
- AliasAnalysis.AliasContext.HandleLoad: asks that the result is not connected to the pointer, unless by the very edge; the code does not check it. What the code makes of other loads is not modelled; AliasAnalysis.LoadKeepsPathsIff and AliasAnalysis.OnlyTargetsFit say that no outcome is sound.
- AliasAnalysis.AliasContext.PointTo: asks the same of both callers.
- `getClusterNodes` and `getClusterValues`: the same search as CheckNodeConnectivity, collecting what it sees.
- `TypeAnalysis.cc`, `LayerAnalysis.cc`, `OneLayerHandler.cc`, `EscapeHandler.cc`, `CPPHandler.cc` and the rest of `InterAliasAnalysis.cc`: worklists keyed by string hashes and heuristics.
