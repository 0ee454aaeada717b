# Multilevel feedback ready queues (NachOS scheduler), in Dafny

This project models the ready-queue scheduler of a NachOS kernel
(`code/threads/scheduler.cc`). The scheduler keeps three ready queues:

- **L1** (`readyListSJF`) holds priorities 100..149, shortest last CPU burst first.
- **L2** (`readyListPri`) holds priorities 50..99, highest priority first.
- **L3** (`readyListRR`) holds priorities below 50, first in first out.

How the scheduler uses them:

- `ReadyToRun` marks a thread ready and queues it by its priority band. It never admits the thread named "postal worker", nor any priority of 150 or more.
- `FindNextToRun` first runs an aging sweep. The sweep takes three passes, L1 then L2 then L3. Each pass raises by 10 every thread that has waited 1500 ticks, resets its ready time, and moves it one queue up once it reaches the next band. In L1 the raised priority is clamped to 149.
- After the sweep, `FindNextToRun` removes the front of L1, else of L2, else of L3.
- `Run` hands the CPU to the next thread. It records the outgoing thread's burst, starts the incoming thread's burst, and parks a finishing thread in a one-slot destruction buffer. `CheckToBeDestroyed` releases that thread once the CPU runs on another stack.

Files:

- `policy.dfy` (module `Policy`) holds the pure integer rules: bands, the aging step, repeated aging and burst bookkeeping.
- `threads.dfy` (module `Threads`) holds the fields of a thread the scheduler reads and writes.
- `queues.dfy` (module `Queues`) models the lists as sequences: sorted insertion (`SortedList::Insert`), removal by identity (`List::Remove`) and the moves of an aging pass.
- `scheduler.dfy` (module `Scheduling`) holds the `Scheduler` class:
  - its queues are `seq` fields;
  - threads are objects whose `priority`, `readyTime`, `status`, `startBurst` and `burstTime` the methods update in place;
  - the kernel's current thread is the field `current`;
  - the tick counter is passed in as `now`.
- `wrappers.dfy` holds `Option`.

The invariant `Valid()` says that no queue holds a thread twice and that each queue holds only its own band. It is required and re-established by every queue operation.

## Model

| member | source | states |
|---|---|---|
| Policy.BandsPartition | code/threads/scheduler.cc:75-86 | a priority is admitted into some queue iff it is below 150, and then into exactly one |
| Policy.BandOf | code/threads/scheduler.cc:75-86 | an admissible priority lies in the band of the returned queue and of no other |
| Policy.Promote | code/threads/scheduler.cc:271-278 | a boost keeps a placed thread placed, raises its priority by 10 (149 at most in L1), never lowers it, and moves it at most one queue up, exactly when it leaves its band |
| Policy.AgedPriority | code/threads/scheduler.cc:271-278 | a thread not yet due keeps its priority; a due one gains between 1 and 10 (or is held at 149), never loses any, and an L1 thread stays in L1's band (the priority updates at :273-277, :286-294, :303-311) |
| Policy.AgedReadyTime | code/threads/scheduler.cc:271-272 | after a sweep no thread is due at the sweep's tick; the ready time is either kept or reset to that tick (:285, :302 alike) |
| Policy.Migrates | code/threads/scheduler.cc:284-295 | only a due thread of L2 or L3 moves up, and it moves exactly when its aged priority has left its band (:303-312 alike) |
| Policy.SweepIsPromote | code/threads/scheduler.cc:269-314 | a sweep applies one boost to a thread that has waited 1500 ticks and leaves any other thread's priority and queue alone |
| Policy.AgedPlacement | code/threads/scheduler.cc:284-295 | after a sweep a migrating thread lies in the band of the queue above, and any other thread still lies in its own band |
| Policy.BoostedOncePerSweep | code/threads/scheduler.cc:271-272 | a boosted thread's ready time becomes the sweep's tick, so within that sweep it is no longer due |
| Policy.StaysTop | code/threads/scheduler.cc:273-278 | however many boosts an L1 thread receives, it stays in L1 |
| Policy.ReachesTop | code/threads/scheduler.cc:269-314 | no starvation across queues: a thread of priority p that keeps waiting reaches L1 within ceil((100 - p) / 10) due sweeps |
| Policy.SwitchedOut | code/threads/scheduler.cc:200-205 | a started burst of the outgoing thread is recorded as lasting until now; an unstarted one keeps its last recorded length and starts at now, so afterwards a burst is under way unless the tick is 0 |
| Policy.SwitchedIn | code/threads/scheduler.cc:207 | the incoming thread's burst starts now and its last recorded burst is kept |
| Policy.BurstRoundTrip | code/threads/scheduler.cc:200-207 | a thread switched in at tick t1 (not 0) and out at t2 records a burst of t2 - t1 |
| Queues.SortedInsert | code/threads/scheduler.cc:80 | the result is the old queue with the thread inserted once, the other threads keep their order, and a sorted queue stays sorted |
| Queues.SortedFront | code/threads/scheduler.cc:128-134 | the front of a sorted queue has the least key: L1's front has the shortest burst, L2's the highest priority |
| Queues.Transfer | code/threads/scheduler.cc:288-290 | the movers leave the lower queue, everything else there keeps its order, the upper queue gains exactly the movers, and a sorted upper queue stays sorted |
| Scheduling.Boost | code/threads/scheduler.cc:271-278 | one aging step changes priority and ready time as the sweep rule says, and reports whether the thread now belongs one queue up |
| Scheduling.BoostAll | code/threads/scheduler.cc:282-297 | every thread of the queue is aged exactly once, and the returned movers are exactly the threads that now belong one queue up, without repeats |
| Scheduling.Stage | code/threads/scheduler.cc:282-297 | after the boosts of a pass, the movers lie in the band above and the remaining threads in their own band; the queue above is untouched, so it stays sorted |
| Scheduling.MoveUp | code/threads/scheduler.cc:288-290 | moving the movers up keeps both queues free of repeats and each within its band, and keeps the upper queue sorted |
| Scheduling.Front | code/threads/scheduler.cc:128-145 | there is no choice exactly when all three queues are empty; otherwise the choice is a queued thread |
| Scheduling.FrontOutranks | code/threads/scheduler.cc:128-145 | queue precedence: no queued thread belongs to a queue served before the chosen thread's queue |
| Scheduling.Destroyed | code/threads/scheduler.cc:243-246 | the slot ends empty, and a waiting thread is appended to the released log |
| Scheduling.DestroyedIdempotent | code/threads/scheduler.cc:243-246 | a second check releases nothing more |
| Scheduling.Scheduler.constructor | code/threads/scheduler.cc:32-40 | a new scheduler has three empty queues, an empty destruction slot and satisfies the invariant |
| Scheduling.Scheduler.Disjoint | code/threads/scheduler.cc:75-86 | since the bands are disjoint, no thread waits in two queues |
| Scheduling.Scheduler.QueuedOnce | code/threads/scheduler.cc:75-86 | every queued thread occurs exactly once across the three queues |
| Scheduling.Scheduler.AppendL3 | code/threads/scheduler.cc:75-76 | an L3 thread goes to the back of L3 and the invariant holds |
| Scheduling.Scheduler.InsertL2 | code/threads/scheduler.cc:79-80 | an L2 thread is inserted into L2 once, the invariant holds and L2 stays sorted by priority |
| Scheduling.Scheduler.InsertL1 | code/threads/scheduler.cc:83-84 | an L1 thread is inserted into L1 once, the invariant holds and L1 stays sorted by burst |
| Scheduling.Scheduler.ReadyToRun | code/threads/scheduler.cc:63-87 | the thread is marked ready; it is queued iff it is not the postal worker and its priority is below 150, into exactly the queue of its band; no other queue changes; sorted queues stay sorted |
| Scheduling.Scheduler.AgeL1 | code/threads/scheduler.cc:269-280 | every L1 thread is aged in place, the invariant holds and L1 stays sorted by burst |
| Scheduling.Scheduler.PromoteL2 | code/threads/scheduler.cc:286-291 | the staged L2 movers move to L1; together L1 and L2 lose and gain no thread; L1 stays sorted |
| Scheduling.Scheduler.PromoteL3 | code/threads/scheduler.cc:303-308 | the staged L3 movers move to L2; together L2 and L3 lose and gain no thread; L2 stays sorted |
| Scheduling.Scheduler.AgeL2 | code/threads/scheduler.cc:282-297 | every L2 thread is aged; exactly those that reach 100 move to L1; no thread is lost; L1 stays sorted; L3's threads are untouched |
| Scheduling.Scheduler.AgeL3 | code/threads/scheduler.cc:299-314 | every L3 thread is aged; exactly those that reach 50 move to L2; no thread is lost; L2 stays sorted; L1's and L2's threads are untouched |
| Scheduling.Scheduler.AgeLower | code/threads/scheduler.cc:282-314 | the L2 and L3 passes age each thread of those queues once and keep the set of queued threads; L1 keeps its threads, an L2 thread is in L1 afterwards iff it migrated and an L3 thread is in L2 iff it migrated; order is kept: taking the L2 arrivals out of L1 leaves the old L1, taking the L3 arrivals out of L2 leaves the staying L2 threads in their old order, and L3 is its staying threads in FIFO order |
| Scheduling.Scheduler.Aging | code/threads/scheduler.cc:262-315 | each queued thread is aged exactly once (boosted at most once per sweep); the set of queued threads is conserved; L1 threads stay in L1; an L2 thread is in L1 afterwards iff it migrated, and an L3 thread is in L2 iff it migrated; the invariant holds |
| Scheduling.Scheduler.TakeFront | code/threads/scheduler.cc:128-145 | the front of the first non-empty queue is removed and returned; no other thread enters or leaves |
| Scheduling.Scheduler.FindNextToRun | code/threads/scheduler.cc:97-145 | after aging, nothing is returned iff no thread was queued; otherwise the returned thread was queued and has left the queues, all others remain, no remaining thread sits in a queue served earlier, and every thread was aged once |
| Scheduling.Scheduler.SwitchOut | code/threads/scheduler.cc:175-207 | `next` runs; a finishing thread is parked in the slot; the outgoing burst is recorded (or started) and the incoming burst starts now |
| Scheduling.Scheduler.CheckToBeDestroyed | code/threads/scheduler.cc:240-247 | the parked thread, if any, is released and the slot emptied |
| Scheduling.Scheduler.Run | code/threads/scheduler.cc:171-230 | after a dispatch `next` runs and the slot is empty; a finishing thread is released only then, when it is no longer the running thread; the outgoing thread's burst is recorded and the incoming one's started |

## Left out

- The context switch itself (`SWITCH`, :213), saving and restoring user registers and address spaces (:184-187, :226-229), and `CheckOverflow` (:189) are machine-dependent. They do not touch the scheduler's state.
- The interrupt-level `ASSERT`s, the `DEBUG` and `cout` logging, `Print` and the destructor are not modelled.
- `delete toBeDestroyed` (:244) frees memory. It is modelled as appending the thread to the ghost log `reclaimed`.
- Memory allocation of the lists and of the three aging iterators (:265-267) is not modelled. The source never frees those iterators.
- The L2 and L3 aging loops call `Remove` on the list they are iterating (:288, :305) and then advance from the removed, freed cell. That is undefined behaviour, and the insertion right after it (:290, :307) may reuse the cell. The model iterates over the queue as it stood when the pass began, which is the pass the loop evidently intends.
- The model boosts a whole pass and then moves its movers, where the source interleaves the two per thread. The result is the same: boosting does not change L1's burst key, and every mover is inserted with its final priority.
- The list classes (`List`, `SortedList`) and the comparators `Thread::compBurst` and `Thread::compPriority` are not part of this model. L1 is taken as ascending burst and L2 as descending priority. The order among equal keys is left open.
- The accessors of `code/threads/thread.cc` are not part of this model:
  - `setReadyTime` is modelled as `readyTime := now`;
  - `setStartBurst` is modelled as `startBurst := now`;
  - `setBurstTime(now)` is modelled as `burstTime := now - startBurst`.
- A start tick of 0 means "burst not started" (:200), so a burst that really starts at tick 0 is mistaken for an unstarted one. `Policy.BurstRoundTrip` requires a start tick other than 0.
- Priorities and ticks are unbounded integers; 32-bit overflow of `int` is not modelled.
- Scheduling.Scheduler.ReadyToRun: requires that the thread is not already queued. The source assumes this of its callers; the list code is not modelled.
- Scheduling.Scheduler.ReadyToRun: `Thread::setStatus` (in `code/threads/thread.cc`) is modelled as a plain status write, and scheduler.cc:63-87 never resets the ready time. So a thread re-admitted after a long block keeps its old ready time and is boosted at the very next sweep.
- Scheduling.Scheduler.constructor: takes the running thread as a parameter, because the kernel's `currentThread` lives outside the scheduler.
- Scheduling.Scheduler.Aging: does not restate that L1 stays sorted by burst. `AgeL1` and `AgeL2` state it for their passes.
- Scheduling.Scheduler.Aging: states the queue order only per pass, not for the whole sweep. `AgeL1` leaves the three lists as they are, and `AgeLower` states the order after the L2 and L3 passes. Restating those equations on `Aging` makes the proofs of its callers too costly for the verifier.
- L2 is not kept sorted by aging. The L2 pass raises priorities in place, which can reorder L2, and the model states L2 order only where the source keeps it (insertion, the L3 pass).
- Scheduling.Scheduler.FindNextToRun: states queue precedence by band, not that the chosen thread was the very front of its queue. `TakeFront` and `Queues.SortedFront` state that part.
- Scheduling.Scheduler.Run: requires that `next` is not the running thread. `next` is taken from the queues before the outgoing thread is put back on them, so it is never the running thread. `SwitchOut` alone also covers `next` being the running thread.
- Scheduling.Scheduler.Run: joins the halves before and after `SWITCH` in one step. What other threads do while the outgoing thread is switched out is not modelled.
- `SwitchOut` changes the outgoing thread's `burstTime`, which is L1's sort key. If a caller queued that thread in L1 before calling `Run`, L1's order can go stale. Whether callers do so depends on `code/threads/thread.cc`, which is not part of this model.
