/**
 * The integer rules of the multilevel feedback queue: the three priority
 * bands, the aging boost, and the burst bookkeeping done at a switch.
 * Everything here is pure; the Scheduler class applies these rules to
 * its threads.
 */
module Policy {

  /** The three ready queues: L1 (high, shortest burst first), L2 (mid,
      highest priority first) and L3 (low, round robin). */
  datatype Tier = L1 | L2 | L3

  const MidFloor: int := 50
  const HighFloor: int := 100
  /** Priorities at or above this enter no ready queue. */
  const PriorityCeiling: int := 150
  /** Ticks a thread must wait in a ready queue before it is boosted. */
  const AgingThreshold: int := 1500
  const AgingBoost: int := 10

  /** The band of priorities whose threads are admitted into `tier`. */
  predicate InBand(tier: Tier, p: int) {
    match tier
    case L1 => HighFloor <= p < PriorityCeiling
    case L2 => MidFloor <= p < HighFloor
    case L3 => p < MidFloor
  }

  /** Every admissible priority lies in exactly one band. */
  lemma BandsPartition(p: int)
    ensures p < PriorityCeiling <==> (InBand(L1, p) || InBand(L2, p) || InBand(L3, p))
    ensures forall a: Tier, b: Tier :: InBand(a, p) && InBand(b, p) ==> a == b
  {
  }

  /** The queue a priority below 150 is admitted into. */
  function BandOf(p: int): (tier: Tier)
    ensures p < PriorityCeiling ==> InBand(tier, p)
    ensures forall other: Tier :: InBand(other, p) ==> other == tier
  {
    if p >= HighFloor then L1 else if p >= MidFloor then L2 else L3
  }

  /** Service order of the queues: L1 is served first, L3 last. */
  function Rank(tier: Tier): nat {
    match tier
    case L1 => 2
    case L2 => 1
    case L3 => 0
  }

  /** The next queue up; L1 is the top. */
  function Above(tier: Tier): Tier {
    match tier
    case L1 => L1
    case L2 => L1
    case L3 => L2
  }

  /** Where a queued thread sits and with which priority. */
  datatype Placement = Placement(tier: Tier, priority: int)

  ghost predicate Placed(pl: Placement) {
    InBand(pl.tier, pl.priority)
  }

  /**
   * The effect of one aging boost on a thread that has waited long enough:
   * +10, clamped to 149 in L1; in L2 and L3 the thread moves one queue up
   * when the raised priority reaches the next band's floor.
   */
  function Promote(pl: Placement): (r: Placement)
    ensures Placed(pl) ==> Placed(r)
    ensures Placed(pl) ==>
      r.priority == pl.priority + AgingBoost ||
      (pl.tier == L1 && pl.priority + AgingBoost >= PriorityCeiling && r.priority == PriorityCeiling - 1)
    ensures Placed(pl) ==> pl.priority <= r.priority
    ensures r.tier == pl.tier || r.tier == Above(pl.tier)
    ensures Placed(pl) ==> (r.tier == pl.tier <==> InBand(pl.tier, r.priority))
  {
    match pl.tier
    case L1 =>
      if pl.priority + AgingBoost < PriorityCeiling then Placement(L1, pl.priority + AgingBoost)
      else Placement(L1, PriorityCeiling - 1)
    case L2 =>
      if pl.priority + AgingBoost >= HighFloor then Placement(L1, pl.priority + AgingBoost)
      else Placement(L2, pl.priority + AgingBoost)
    case L3 =>
      if pl.priority + AgingBoost >= MidFloor then Placement(L2, pl.priority + AgingBoost)
      else Placement(L3, pl.priority + AgingBoost)
  }

  /** A thread made ready at `readyTime` is due for a boost at tick `now`. */
  predicate Waited(now: int, readyTime: int) {
    now - readyTime >= AgingThreshold
  }

  /** Priority after one aging sweep at `now`. */
  function AgedPriority(tier: Tier, p: int, readyTime: int, now: int): (r: int)
    ensures !Waited(now, readyTime) ==> r == p
    ensures InBand(tier, p) ==> p <= r <= p + AgingBoost
    ensures InBand(tier, p) && Waited(now, readyTime) ==> p < r || r == PriorityCeiling - 1
    ensures InBand(L1, p) && tier == L1 ==> InBand(L1, r)
  {
    if !Waited(now, readyTime) then p
    else if tier == L1 && p + AgingBoost >= PriorityCeiling then PriorityCeiling - 1
    else p + AgingBoost
  }

  /** Ready time after one aging sweep at `now`. */
  function AgedReadyTime(readyTime: int, now: int): (r: int)
    ensures !Waited(now, r)
    ensures r == readyTime || r == now
  {
    if Waited(now, readyTime) then now else readyTime
  }

  /** The sweep moves this thread to the queue above. */
  predicate Migrates(tier: Tier, p: int, readyTime: int, now: int): (m: bool)
    ensures m ==> Waited(now, readyTime) && tier != L1
    ensures InBand(tier, p) ==> (m <==> !InBand(tier, AgedPriority(tier, p, readyTime, now)))
  {
    Waited(now, readyTime) && match tier
      case L1 => false
      case L2 => p + AgingBoost >= HighFloor
      case L3 => p + AgingBoost >= MidFloor
  }

  /** One sweep applies Promote to exactly the threads that have waited long enough. */
  lemma SweepIsPromote(tier: Tier, p: int, readyTime: int, now: int)
    ensures Waited(now, readyTime) ==>
      Promote(Placement(tier, p)) == Placement(if Migrates(tier, p, readyTime, now) then Above(tier) else tier,
                                               AgedPriority(tier, p, readyTime, now))
    ensures !Waited(now, readyTime) ==>
      AgedPriority(tier, p, readyTime, now) == p && !Migrates(tier, p, readyTime, now)
  {
  }

  /**
   * Where a sweep leaves a thread of `tier`: a thread that migrates lands in
   * the band of the queue above, and one that does not stays in its band.
   */
  lemma AgedPlacement(tier: Tier, p: int, readyTime: int, now: int)
    requires InBand(tier, p)
    ensures Migrates(tier, p, readyTime, now) ==>
      tier != L1 && InBand(Above(tier), AgedPriority(tier, p, readyTime, now))
    ensures !Migrates(tier, p, readyTime, now) ==> InBand(tier, AgedPriority(tier, p, readyTime, now))
  {
    if Waited(now, readyTime) {
      var r := Promote(Placement(tier, p));
      assert Placed(r);
    }
  }

  /**
   * A sweep boosts a thread at most once: its ready time is reset to the
   * sweep's tick, so a second look in the same sweep finds it not due.
   */
  lemma BoostedOncePerSweep(readyTime: int, now: int)
    ensures !Waited(now, AgedReadyTime(readyTime, now))
    ensures Waited(now, readyTime) ==> AgedReadyTime(readyTime, now) == now
    ensures !Waited(now, readyTime) ==> AgedReadyTime(readyTime, now) == readyTime
  {
  }

  /** Placement after `k` sweeps in each of which the thread had waited. */
  function PromoteTimes(pl: Placement, k: nat): Placement
    decreases k
  {
    if k == 0 then pl else PromoteTimes(Promote(pl), k - 1)
  }

  /** Once in L1, boosts keep a thread in L1. */
  lemma {:induction false} StaysTop(pl: Placement, k: nat)
    requires Placed(pl) && pl.tier == L1
    ensures PromoteTimes(pl, k).tier == L1
    decreases k
  {
    if k > 0 {
      StaysTop(Promote(pl), k - 1);
    }
  }

  /**
   * No starvation across tiers: a queued thread with priority p that keeps
   * waiting reaches L1 after (100 - p) / 10 sweeps, rounded up.
   */
  lemma {:induction false} ReachesTop(pl: Placement, k: nat)
    requires Placed(pl)
    requires k * AgingBoost >= HighFloor - pl.priority
    ensures PromoteTimes(pl, k).tier == L1
    decreases k
  {
    if pl.tier == L1 {
      StaysTop(pl, k);
    } else if k == 0 {
      assert false;
    } else {
      ReachesTop(Promote(pl), k - 1);
    }
  }

  /** A thread's burst bookkeeping: the tick its current burst started
      (0 = not started) and the last recorded burst length. */
  datatype Burst = Burst(start: int, length: int)

  /**
   * The outgoing thread at a switch at tick `now`: a started burst is
   * recorded as `now - start`; an unstarted one is started instead.
   */
  function SwitchedOut(b: Burst, now: int): (r: Burst)
    ensures b.start != 0 ==> r.start == b.start && r.start + r.length == now
    ensures b.start == 0 ==> r.start == now && r.length == b.length
    ensures r.start != 0 <==> b.start != 0 || now != 0
  {
    if b.start != 0 then Burst(b.start, now - b.start) else Burst(now, b.length)
  }

  /** The incoming thread at a switch at tick `now`: its burst starts now. */
  function SwitchedIn(b: Burst, now: int): (r: Burst)
    ensures r.length == b.length
    ensures r.start == now
  {
    Burst(now, b.length)
  }

  /**
   * Dispatching a thread in at a nonzero tick t1 and out again at t2
   * records a burst of t2 - t1.
   */
  lemma BurstRoundTrip(b: Burst, t1: int, t2: int)
    requires t1 != 0
    ensures SwitchedOut(SwitchedIn(b, t1), t2).length == t2 - t1
  {
  }
}
