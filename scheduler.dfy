/**
 * The ready-queue scheduler of code/threads/scheduler.cc: admission into one
 * of three queues by priority band, selection by fixed queue precedence after
 * an aging sweep, and the bookkeeping of a dispatch around the context switch,
 * including the one-slot deferred destruction of a finishing thread.
 *
 * The kernel's current thread is held here as `current`; the tick counter is
 * passed in as `now`. All operations run with interrupts off, so each is one
 * uninterrupted step.
 */
module Scheduling {
  import opened Wrappers
  import opened Policy
  import opened Threads
  import opened Queues

  /** The one thread name that is never admitted to a ready queue. */
  const PostalWorker: string := "postal worker"

  /**
   * `movers` are exactly the threads of `q` that a sweep at `now` moves out
   * of `tier`, one queue up, judged by their fields before the sweep.
   */
  twostate predicate Movers(new movers: seq<Thread>, q: seq<Thread>, tier: Tier, now: int)
  {
    && (forall t :: t in movers ==> t in q && Migrates(tier, old(t.priority), old(t.readyTime), now))
    && (forall t :: t in q && Migrates(tier, old(t.priority), old(t.readyTime), now) ==> t in movers)
  }

  /**
   * What one aging sweep at `now` does to a thread queued in `tier`; the
   * sweep writes no other field (see the modifies clauses below).
   */
  twostate predicate AgedBy(t: Thread, tier: Tier, now: int)
    reads t
  {
    && t.priority == AgedPriority(tier, old(t.priority), old(t.readyTime), now)
    && t.readyTime == AgedReadyTime(old(t.readyTime), now)
  }

  /** The threads of `q` kept their priority and ready time. */
  twostate predicate Untouched(q: seq<Thread>)
    reads q
  {
    forall t :: t in q ==> t.priority == old(t.priority) && t.readyTime == old(t.readyTime)
  }

  /** Every thread of `q` has a priority in the band of `tier`. */
  ghost predicate Banded(q: seq<Thread>, tier: Tier)
    reads q`priority
  {
    forall t :: t in q ==> InBand(tier, t.priority)
  }

  /** A queue that gains one thread of its band keeps holding only its band. */
  lemma BandedAdd(q: seq<Thread>, r: seq<Thread>, t: Thread, tier: Tier)
    requires Banded(q, tier) && InBand(tier, t.priority)
    requires Elems(r) == Elems(q) + {t}
    ensures Banded(r, tier)
  {
    forall u | u in r
      ensures InBand(tier, u.priority)
    {
      assert u in Elems(r);
    }
  }

  /** No queue holds a thread twice, and each queue holds only its band. */
  ghost predicate Tiered(q1: seq<Thread>, q2: seq<Thread>, q3: seq<Thread>)
    reads q1`priority, q2`priority, q3`priority
  {
    && NoDup(q1) && NoDup(q2) && NoDup(q3)
    && Banded(q1, L1) && Banded(q2, L2) && Banded(q3, L3)
  }

  /**
   * One aging step on a queued thread of `tier` at tick `now` (the body of
   * each of the three loops of Aging): a thread that has waited 1500 ticks
   * gets its ready time reset and its priority raised by 10 (clamped to 149
   * in L1); `moves` tells whether it now belongs one queue up.
   */
  method Boost(t: Thread, tier: Tier, now: int) returns (moves: bool)
    modifies t`priority, t`readyTime
    ensures t.priority == AgedPriority(tier, old(t.priority), old(t.readyTime), now)
    ensures t.readyTime == AgedReadyTime(old(t.readyTime), now)
    ensures moves == Migrates(tier, old(t.priority), old(t.readyTime), now)
  {
    moves := false;
    if now - t.readyTime >= AgingThreshold {
      t.readyTime := now;
      match tier
      case L1 =>
        if t.priority + AgingBoost < PriorityCeiling {
          t.priority := t.priority + AgingBoost;
        } else {
          t.priority := PriorityCeiling - 1;
        }
      case L2 =>
        moves := t.priority + AgingBoost >= HighFloor;
        t.priority := t.priority + AgingBoost;
      case L3 =>
        moves := t.priority + AgingBoost >= MidFloor;
        t.priority := t.priority + AgingBoost;
    }
  }

  /**
   * One pass of Aging over a queue of `tier` (the loop at
   * code/threads/scheduler.cc:269, :282 or :299): every thread is boosted as
   * Boost says, and `movers` lists, in queue order, those that now belong
   * one queue up.
   */
  method BoostAll(q: seq<Thread>, tier: Tier, now: int) returns (movers: seq<Thread>)
    requires NoDup(q)
    modifies q`priority, q`readyTime
    ensures forall t :: t in q ==> AgedBy(t, tier, now)
    ensures NoDup(movers)
    ensures Movers(movers, q, tier, now)
  {
    ghost var promoted := set t | t in q && Migrates(tier, t.priority, t.readyTime, now);
    movers := [];
    var i := 0;
    while i < |q|
      invariant 0 <= i <= |q|
      invariant forall j :: 0 <= j < i ==> AgedBy(q[j], tier, now)
      invariant forall j :: i <= j < |q| ==>
        q[j].priority == old(q[j].priority) && q[j].readyTime == old(q[j].readyTime)
      invariant NoDup(movers)
      invariant Elems(movers) == promoted * Elems(q[..i])
    {
      NoDupNext(q, i);
      var t := q[i];
      assert t in promoted <==> Migrates(tier, t.priority, t.readyTime, now);
      assert t !in movers by {
        assert t !in Elems(movers);
      }
      var moves := Boost(t, tier, now);
      if moves {
        NoDupAppend(movers, t);
        assert Elems(movers + [t]) == Elems(movers) + {t};
        movers := movers + [t];
      }
      i := i + 1;
    }
    assert q[..i] == q;
    assert forall t :: t in movers <==> t in Elems(movers);
  }

  /**
   * Between the boost and the move of one aging pass over `from` (of `tier`)
   * into `to` (the queue above): all three lists are free of repeats, the
   * movers are threads of `from` now in the band above, and every other
   * thread of `from` is still in the band of `tier`.
   */
  ghost predicate Staged(from: seq<Thread>, to: seq<Thread>, movers: seq<Thread>, tier: Tier)
    reads from`priority, to`priority
  {
    && NoDup(from) && NoDup(to) && NoDup(movers)
    && Banded(to, Above(tier))
    && (forall t :: t in from ==> t !in to)
    && (forall t :: t in movers ==> t in from && InBand(Above(tier), t.priority))
    && (forall t :: t in from && t !in movers ==> InBand(tier, t.priority))
  }

  /**
   * The boosting half of one aging pass: every thread of `from` is aged as
   * Boost says; `movers` are those that now belong in `to`. The threads of
   * `to` are untouched, so a sorted `to` stays sorted.
   */
  method Stage(from: seq<Thread>, to: seq<Thread>, tier: Tier, o: Order, now: int)
    returns (movers: seq<Thread>)
    requires tier != L1
    requires NoDup(from) && NoDup(to) && Banded(from, tier) && Banded(to, Above(tier))
    requires forall t :: t in from ==> t !in to
    modifies from`priority, from`readyTime
    ensures Staged(from, to, movers, tier)
    ensures forall t :: t in from ==> AgedBy(t, tier, now)
    ensures Movers(movers, from, tier, now)
    ensures old(Sorted(to, o)) ==> Sorted(to, o)
  {
    movers := BoostAll(from, tier, now);
    forall t | t in from
      ensures t in movers ==> InBand(Above(tier), t.priority)
      ensures t !in movers ==> InBand(tier, t.priority)
    {
      assert t in movers <==> t in Elems(movers);
      AgedPlacement(tier, old(t.priority), old(t.readyTime), now);
    }
    forall m | m in movers
      ensures m in from
    {
      assert m in Elems(movers);
    }
  }

  /**
   * The moving half of one aging pass: the movers leave `from`
   * (List::Remove) and are inserted into `to` in order `o`
   * (SortedList::Insert); afterwards each list holds only its band.
   */
  method MoveUp(from: seq<Thread>, to: seq<Thread>, movers: seq<Thread>, tier: Tier, o: Order)
    returns (from2: seq<Thread>, to2: seq<Thread>)
    requires Staged(from, to, movers, tier)
    ensures Moved(from, to, Elems(movers), from2, to2)
    ensures NoDup(from2) && NoDup(to2)
    ensures Banded(from2, tier) && Banded(to2, Above(tier))
    ensures Sorted(to, o) ==> Sorted(to2, o)
  {
    from2, to2 := Transfer(from, to, movers, o);
    WithoutNoDup(from, Elems(movers));
    WithoutMembers(from, Elems(movers));
    forall t | t in to2
      ensures InBand(Above(tier), t.priority)
    {
      assert t in Elems(to2);
      if t in movers {
        assert t in from;
      }
    }
    forall t | t in from2
      ensures InBand(tier, t.priority)
    {
      assert t !in Elems(movers);
    }
  }

  /** A thread's burst bookkeeping as a value. */
  function BurstOf(t: Thread): Burst
    reads t
  {
    Burst(t.startBurst, t.burstTime)
  }

  /**
   * The thread FindNextToRun takes after aging: the front of L1 if any,
   * else the front of L2, else the front of L3; none when all are empty.
   */
  function Front(q1: seq<Thread>, q2: seq<Thread>, q3: seq<Thread>): (next: Option<Thread>)
    ensures next.None? <==> q1 == [] && q2 == [] && q3 == []
    ensures next.Some? ==> next.value in q1 || next.value in q2 || next.value in q3
  {
    if q1 != [] then Some(q1[0])
    else if q2 != [] then Some(q2[0])
    else if q3 != [] then Some(q3[0])
    else None
  }

  /**
   * Queue precedence: no thread waiting anywhere belongs to a queue served
   * before the one the chosen thread came from.
   */
  lemma FrontOutranks(q1: seq<Thread>, q2: seq<Thread>, q3: seq<Thread>)
    requires Tiered(q1, q2, q3)
    requires Front(q1, q2, q3).Some?
    ensures forall u :: u in q1 || u in q2 || u in q3 ==>
      Rank(BandOf(u.priority)) <= Rank(BandOf(Front(q1, q2, q3).value.priority))
  {
    var t := Front(q1, q2, q3).value;
    forall u | u in q1 || u in q2 || u in q3
      ensures Rank(BandOf(u.priority)) <= Rank(BandOf(t.priority))
    {
      if q1 != [] {
        assert InBand(L1, t.priority);
      } else if q2 != [] {
        assert InBand(L2, t.priority);
        assert u in q2 || u in q3;
      } else {
        assert u in q3;
      }
    }
  }

  /**
   * CheckToBeDestroyed on the destruction slot and the log of released
   * threads: a waiting thread is released and the slot emptied.
   */
  function Destroyed(slot: Option<Thread>, log: seq<Thread>): (r: (Option<Thread>, seq<Thread>))
    ensures r.0.None?
    ensures slot.Some? ==> r.1 == log + [slot.value]
    ensures slot.None? ==> r.1 == log
  {
    match slot
    case Some(t) => (None, log + [t])
    case None => (None, log)
  }

  /** Checking twice releases nothing more than checking once. */
  lemma DestroyedIdempotent(slot: Option<Thread>, log: seq<Thread>)
    ensures Destroyed(Destroyed(slot, log).0, Destroyed(slot, log).1) == Destroyed(slot, log)
  {
  }

  class Scheduler {
    /** readyListSJF: priorities 100..149, shortest burst first. */
    var l1: seq<Thread>
    /** readyListPri: priorities 50..99, highest priority first. */
    var l2: seq<Thread>
    /** readyListRR: priorities below 50, first in first out. */
    var l3: seq<Thread>
    /** A finishing thread whose resources are released after the next switch. */
    var toBeDestroyed: Option<Thread>
    /** The running thread (the kernel's currentThread). */
    var current: Thread
    /** Threads released so far, oldest first. */
    ghost var reclaimed: seq<Thread>

    /** The threads waiting in any of the three ready queues. */
    function Queued(): set<Thread>
      reads this
    {
      Elems(l1) + Elems(l2) + Elems(l3)
    }

    /** No queue holds a thread twice, and each queue holds only its band. */
    ghost predicate Valid()
      reads this, l1`priority, l2`priority, l3`priority
    {
      Tiered(l1, l2, l3)
    }

    /** The bands are disjoint, so no thread waits in two queues at once. */
    lemma Disjoint()
      requires Valid()
      ensures forall t :: t in l1 ==> t !in l2 && t !in l3
      ensures forall t :: t in l2 ==> t !in l3
    {
      forall t | t in l1
        ensures t !in l2 && t !in l3
      {
        assert InBand(L1, t.priority);
      }
      forall t | t in l2
        ensures t !in l3
      {
        assert InBand(L2, t.priority);
      }
    }

    constructor (running: Thread)
      ensures Valid()
      ensures l1 == [] && l2 == [] && l3 == []
      ensures toBeDestroyed == None && current == running && reclaimed == []
    {
      l1, l2, l3 := [], [], [];
      toBeDestroyed := None;
      current := running;
      reclaimed := [];
    }

    /** Appends `thread`, of the L3 band, at the back of L3. */
    method AppendL3(thread: Thread)
      requires Valid() && thread !in Queued() && InBand(L3, thread.priority)
      modifies this`l3
      ensures Valid() && thread in Queued()
      ensures l3 == old(l3) + [thread]
    {
      var r := l3 + [thread];
      NoDupAppend(l3, thread);
      BandedAdd(l3, r, thread, L3);
      l3 := r;
    }

    /** Inserts `thread`, of the L2 band, into L2 in priority order. */
    method InsertL2(thread: Thread)
      requires Valid() && thread !in Queued() && InBand(L2, thread.priority)
      modifies this`l2
      ensures Valid() && thread in Queued()
      ensures Inserted(l2, old(l2), thread)
      ensures Sorted(old(l2), ByPriority) ==> Sorted(l2, ByPriority)
    {
      var r := SortedInsert(l2, ByPriority, thread);
      InsertedElems(r, l2, thread);
      BandedAdd(l2, r, thread, L2);
      InsertedNoDup(r, l2, thread);
      l2 := r;
    }

    /** Inserts `thread`, of the L1 band, into L1 in burst order. */
    method InsertL1(thread: Thread)
      requires Valid() && thread !in Queued() && InBand(L1, thread.priority)
      modifies this`l1
      ensures Valid() && thread in Queued()
      ensures Inserted(l1, old(l1), thread)
      ensures Sorted(old(l1), ByBurst) ==> Sorted(l1, ByBurst)
    {
      var r := SortedInsert(l1, ByBurst, thread);
      InsertedElems(r, l1, thread);
      BandedAdd(l1, r, thread, L1);
      InsertedNoDup(r, l1, thread);
      l1 := r;
    }

    /**
     * Marks `thread` ready and queues it by its priority band: below 50 at the
     * end of L3, 50..99 into L2 by priority, 100..149 into L1 by burst. The
     * postal worker thread, and any priority of 150 or more, enters no queue.
     */
    method ReadyToRun(thread: Thread)
      requires Valid()
      requires thread !in Queued()
      modifies this`l1, this`l2, this`l3, thread`status
      ensures Valid()
      ensures thread.status == Ready
      ensures unchanged(thread`priority, thread`readyTime, thread`startBurst, thread`burstTime)
      ensures thread in Queued() <==> thread.name != PostalWorker && thread.priority < PriorityCeiling
      ensures thread.name == PostalWorker || thread.priority >= PriorityCeiling ==>
        l1 == old(l1) && l2 == old(l2) && l3 == old(l3)
      ensures thread.name != PostalWorker && InBand(L3, thread.priority) ==>
        l3 == old(l3) + [thread] && l1 == old(l1) && l2 == old(l2)
      ensures thread.name != PostalWorker && InBand(L2, thread.priority) ==>
        Inserted(l2, old(l2), thread) && l1 == old(l1) && l3 == old(l3)
      ensures thread.name != PostalWorker && InBand(L1, thread.priority) ==>
        Inserted(l1, old(l1), thread) && l2 == old(l2) && l3 == old(l3)
      ensures Sorted(old(l1), ByBurst) ==> Sorted(l1, ByBurst)
      ensures Sorted(old(l2), ByPriority) ==> Sorted(l2, ByPriority)
    {
      thread.status := Ready;
      if thread.name == PostalWorker {
        return;
      }
      var p := thread.priority;
      if p < MidFloor {
        AppendL3(thread);
      } else if p >= MidFloor && p < HighFloor {
        InsertL2(thread);
      } else if p >= HighFloor && p < PriorityCeiling {
        InsertL1(thread);
      }
    }
  
    /** The first loop of Aging: boosts every due thread of L1 in place. */
    method AgeL1(now: int)
      requires Valid()
      modifies l1`priority, l1`readyTime
      ensures Valid()
      ensures forall t :: t in l1 ==> AgedBy(t, L1, now)
      ensures old(Sorted(l1, ByBurst)) ==> Sorted(l1, ByBurst)
      ensures Untouched(l2) && Untouched(l3)
    {
      Disjoint();
      var _ := BoostAll(l1, L1, now);
      // Aging writes no burst, so L1's sort keys are those it had.
      if old(Sorted(l1, ByBurst)) {
        forall i, j | 0 <= i < j < |l1|
          ensures KeyAt(l1, i, ByBurst) <= KeyAt(l1, j, ByBurst)
        {
          assert old(KeyAt(l1, i, ByBurst)) <= old(KeyAt(l1, j, ByBurst));
        }
      }
      forall t | t in l1
        ensures InBand(L1, t.priority)
      {
        AgedPlacement(L1, old(t.priority), old(t.readyTime), now);
      }
    }

    /** The moving half of the second loop of Aging: the movers leave L2 for L1. */
    method PromoteL2(movers: seq<Thread>)
      requires Staged(l2, l1, movers, L2) && NoDup(l3) && Banded(l3, L3)
      modifies this`l1, this`l2
      ensures Valid()
      ensures Moved(old(l2), old(l1), Elems(movers), l2, l1)
      ensures Elems(l1) + Elems(l2) == old(Elems(l1) + Elems(l2))
      ensures Sorted(old(l1), ByBurst) ==> Sorted(l1, ByBurst)
    {
      l2, l1 := MoveUp(l2, l1, movers, L2, ByBurst);
      WithoutElems(old(l2), Elems(movers));
    }

    /** The moving half of the third loop of Aging: the movers leave L3 for L2. */
    method PromoteL3(movers: seq<Thread>)
      requires Staged(l3, l2, movers, L3) && NoDup(l1) && Banded(l1, L1)
      modifies this`l2, this`l3
      ensures Valid()
      ensures Moved(old(l3), old(l2), Elems(movers), l3, l2)
      ensures Elems(l2) + Elems(l3) == old(Elems(l2) + Elems(l3))
      ensures Sorted(old(l2), ByPriority) ==> Sorted(l2, ByPriority)
    {
      l3, l2 := MoveUp(l3, l2, movers, L3, ByPriority);
      WithoutElems(old(l3), Elems(movers));
    }

    /**
     * The second loop of Aging: boosts every due thread of L2; those whose
     * new priority reaches 100 leave L2 and are inserted into L1 by burst.
     */
    method AgeL2(now: int) returns (movers: seq<Thread>)
      requires Valid()
      modifies this`l1, this`l2, l2`priority, l2`readyTime
      ensures Valid()
      ensures forall t :: t in old(l2) ==> AgedBy(t, L2, now)
      ensures Movers(movers, old(l2), L2, now)
      ensures Moved(old(l2), old(l1), Elems(movers), l2, l1)
      ensures Elems(l1) + Elems(l2) == old(Elems(l1) + Elems(l2))
      ensures old(Sorted(l1, ByBurst)) ==> Sorted(l1, ByBurst)
      ensures Untouched(old(l3))
      ensures forall t :: t in old(l2) ==> t in l1 || t in l2
      ensures forall t :: t in old(l2) ==> (t in l1 <==> Migrates(L2, old(t.priority), old(t.readyTime), now))
    {
      Disjoint();
      movers := Stage(l2, l1, L2, ByBurst, now);
      assert Banded(l3, L3);
      PromoteL2(movers);
      MovedElems(old(l2), old(l1), Elems(movers), l2, l1);
      MovedMembership(old(l2), old(l1), Elems(movers), l2, l1);
      assert forall t :: t in movers <==> t in Elems(movers);
    }

    /**
     * The third loop of Aging: boosts every due thread of L3; those whose
     * new priority reaches 50 leave L3 and are inserted into L2 by priority.
     */
    method AgeL3(now: int) returns (movers: seq<Thread>)
      requires Valid()
      modifies this`l2, this`l3, l3`priority, l3`readyTime
      ensures Valid()
      ensures forall t :: t in old(l3) ==> AgedBy(t, L3, now)
      ensures Movers(movers, old(l3), L3, now)
      ensures Moved(old(l3), old(l2), Elems(movers), l3, l2)
      ensures Elems(l2) + Elems(l3) == old(Elems(l2) + Elems(l3))
      ensures old(Sorted(l2, ByPriority)) ==> Sorted(l2, ByPriority)
      ensures Untouched(old(l1)) && Untouched(old(l2))
      ensures forall t :: t in old(l3) ==> (t in l2 <==> Migrates(L3, old(t.priority), old(t.readyTime), now))
    {
      Disjoint();
      movers := Stage(l3, l2, L3, ByPriority, now);
      assert Banded(l1, L1);
      PromoteL3(movers);
      MovedElems(old(l3), old(l2), Elems(movers), l3, l2);
      MovedMembership(old(l3), old(l2), Elems(movers), l3, l2);
      assert forall t :: t in movers <==> t in Elems(movers);
    }

    /**
     * The second and third loops of Aging: L2 is aged into L1, then L3 into
     * what is left of L2. L1's threads are not touched. Order is kept:
     * L1's own threads and L2's staying threads stay in their relative
     * order around the arrivals, and L3's staying threads keep FIFO order.
     */
    method AgeLower(now: int)
      requires Valid()
      modifies this`l1, this`l2, this`l3, l2`priority, l2`readyTime, l3`priority, l3`readyTime
      ensures Valid()
      ensures forall t :: t in old(l2) ==> AgedBy(t, L2, now)
      ensures forall t :: t in old(l3) ==> AgedBy(t, L3, now)
      ensures Queued() == old(Queued())
      ensures Without(l1, Elems(old(l2))) == old(l1)
      ensures Without(l2, Elems(old(l3))) == Without(old(l2), Elems(l1))
      ensures l3 == Without(old(l3), Elems(l2))
      ensures forall t :: t in old(l1) ==> t in l1
      ensures forall t :: t in old(l2) ==> (t in l1 <==> Migrates(L2, old(t.priority), old(t.readyTime), now))
      ensures forall t :: t in old(l3) ==> (t in l2 <==> Migrates(L3, old(t.priority), old(t.readyTime), now))
    {
      ghost var p1, p2, p3 := l1, l2, l3;
      Disjoint();
      var m2 := AgeL2(now);
      ghost var q1, q2 := l1, l2;
      var m3 := AgeL3(now);
      MovedTwice(p1, p2, p3, q1, q2, l2, l3);
      assert forall t :: t in m2 ==> t in p2;
      assert forall t :: t in m3 ==> t in p3;
      SweepOrder(p1, p2, p3, Elems(m2), Elems(m3), q1, q2, l2, l3);
    }

    /**
     * The removal half of FindNextToRun: takes the front of the first
     * non-empty queue. The chosen thread leaves the ready queues and no
     * other thread enters or leaves them.
     */
    method TakeFront() returns (next: Option<Thread>)
      requires Valid()
      modifies this`l1, this`l2, this`l3
      ensures Valid()
      ensures next == Front(old(l1), old(l2), old(l3))
      ensures next.Some? ==> next.value !in Queued() && Queued() + {next.value} == old(Queued())
      ensures next.Some? ==> forall u :: u in Queued() ==>
        Rank(BandOf(u.priority)) <= Rank(BandOf(next.value.priority))
      ensures next.None? ==> l1 == old(l1) && l2 == old(l2) && l3 == old(l3)
      ensures old(l1) != [] ==> l1 == old(l1)[1..] && l2 == old(l2) && l3 == old(l3)
      ensures old(l1) == [] && old(l2) != [] ==> l1 == old(l1) && l2 == old(l2)[1..] && l3 == old(l3)
      ensures old(l1) == [] && old(l2) == [] && old(l3) != [] ==> l1 == old(l1) && l2 == old(l2) && l3 == old(l3)[1..]
    {
      Disjoint();
      if Front(l1, l2, l3).Some? {
        FrontOutranks(l1, l2, l3);
      }
      if l1 != [] {
        next := Some(l1[0]);
        assert l1 == [l1[0]] + l1[1..];
        l1 := l1[1..];
      } else if l2 != [] {
        next := Some(l2[0]);
        assert l2 == [l2[0]] + l2[1..];
        l2 := l2[1..];
      } else if l3 != [] {
        next := Some(l3[0]);
        assert l3 == [l3[0]] + l3[1..];
        l3 := l3[1..];
      } else {
        next := None;
      }
    }

    /**
     * Scheduler::FindNextToRun: ages the ready queues, then removes and
     * returns the front of the first non-empty one (L1, then L2, then L3),
     * or nothing when all three are empty.
     */
    method FindNextToRun(now: int) returns (next: Option<Thread>)
      requires Valid()
      modifies this`l1, this`l2, this`l3
      modifies l1`priority, l1`readyTime, l2`priority, l2`readyTime, l3`priority, l3`readyTime
      ensures Valid()
      ensures next.None? <==> old(Queued()) == {}
      ensures next.Some? ==> next.value in old(Queued()) && next.value !in Queued()
      ensures next.Some? ==> Queued() + {next.value} == old(Queued())
      ensures next.Some? ==> forall u :: u in Queued() ==>
        Rank(BandOf(u.priority)) <= Rank(BandOf(next.value.priority))
      ensures forall t :: t in old(l1) ==> AgedBy(t, L1, now)
      ensures forall t :: t in old(l2) ==> AgedBy(t, L2, now)
      ensures forall t :: t in old(l3) ==> AgedBy(t, L3, now)
    {
      Aging(now);
      next := TakeFront();
    }

    /**
     * The half of Scheduler::Run before SWITCH: a finishing current thread
     * is parked in the destruction slot, `next` becomes the running thread,
     * the outgoing thread's burst is recorded (or started, if it had none)
     * and the incoming thread's burst starts at `now`.
     */
    method SwitchOut(next: Thread, finishing: bool, now: int)
      requires finishing ==> toBeDestroyed.None?
      modifies this`current, this`toBeDestroyed, current`startBurst, current`burstTime
      modifies next`status, next`startBurst
      ensures current == next && next.status == Running
      ensures toBeDestroyed == if finishing then Some(old(current)) else old(toBeDestroyed)
      ensures next != old(current) ==>
        && BurstOf(old(current)) == SwitchedOut(old(BurstOf(current)), now)
        && BurstOf(next) == SwitchedIn(old(BurstOf(next)), now)
      ensures next == old(current) ==>
        BurstOf(next) == SwitchedIn(SwitchedOut(old(BurstOf(next)), now), now)
    {
      var oldThread := current;
      if finishing {
        toBeDestroyed := Some(oldThread);
      }
      current := next;
      next.status := Running;
      if oldThread.startBurst != 0 {
        oldThread.burstTime := now - oldThread.startBurst;
      } else {
        oldThread.startBurst := now;
      }
      current.startBurst := now;
    }

    /**
     * Scheduler::CheckToBeDestroyed: releases the thread waiting in the
     * destruction slot, if any, and empties the slot.
     */
    method CheckToBeDestroyed()
      modifies this`toBeDestroyed, this`reclaimed
      ensures (toBeDestroyed, reclaimed) == Destroyed(old(toBeDestroyed), old(reclaimed))
    {
      if toBeDestroyed.Some? {
        reclaimed := reclaimed + [toBeDestroyed.value];
        toBeDestroyed := None;
      }
    }

    /**
     * Scheduler::Run as the scheduler's state sees it: the switch-out half,
     * then (once SWITCH has handed the CPU to `next`) CheckToBeDestroyed. A
     * finishing thread is released only after it has stopped running. The
     * callers pass a thread taken from the ready queues, never the running one.
     */
    method Run(next: Thread, finishing: bool, now: int)
      requires next != current
      requires finishing ==> toBeDestroyed.None?
      modifies this`current, this`toBeDestroyed, this`reclaimed, current`startBurst, current`burstTime
      modifies next`status, next`startBurst
      ensures current == next && next.status == Running && toBeDestroyed.None?
      ensures finishing ==> reclaimed == old(reclaimed) + [old(current)] && old(current) != current
      ensures !finishing ==> reclaimed == old(reclaimed) + (if old(toBeDestroyed).Some? then [old(toBeDestroyed).value] else [])
      ensures BurstOf(old(current)) == SwitchedOut(old(BurstOf(current)), now)
      ensures BurstOf(next) == SwitchedIn(old(BurstOf(next)), now)
    {
      SwitchOut(next, finishing, now);
      CheckToBeDestroyed();
    }

    /** Every queued thread waits in exactly one queue, once. */
    lemma QueuedOnce()
      requires Valid()
      ensures multiset(l1 + l2 + l3) == multiset(Queued())
    {
      Disjoint();
      NoDupConcat(l1, l2);
      NoDupConcat(l1 + l2, l3);
      NoDupMultiset(l1 + l2 + l3);
    }

    /**
     * Scheduler::Aging: the three passes in order, L1, then L2 into L1,
     * then L3 into L2. No thread enters or leaves the ready queues; the
     * order the queues keep is stated by AgeL1 and AgeLower.
     */
    method Aging(now: int)
      requires Valid()
      modifies this`l1, this`l2, this`l3
      modifies l1`priority, l1`readyTime, l2`priority, l2`readyTime, l3`priority, l3`readyTime
      ensures Valid()
      ensures Queued() == old(Queued())
      ensures forall t :: t in old(l1) ==> AgedBy(t, L1, now)
      ensures forall t :: t in old(l2) ==> AgedBy(t, L2, now)
      ensures forall t :: t in old(l3) ==> AgedBy(t, L3, now)
      ensures forall t :: t in old(l1) ==> t in l1
      ensures forall t :: t in old(l2) ==> (t in l1 <==> Migrates(L2, old(t.priority), old(t.readyTime), now))
      ensures forall t :: t in old(l3) ==> (t in l2 <==> Migrates(L3, old(t.priority), old(t.readyTime), now))
    {
      Disjoint();
      AgeL1(now);
      AgeLower(now);
    }
  }
}
