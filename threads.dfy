/**
 * The part of a thread descriptor the scheduler reads and writes. Threads
 * are created and owned by the rest of the kernel; the scheduler only
 * holds references to them in its queues and its slots.
 */
module Threads {

  datatype Status = JustCreated | Running | Ready | Blocked

  class Thread {
    const id: int
    const name: string
    var status: Status
    var priority: int
    /** Tick at which the thread last became ready or was last boosted. */
    var readyTime: int
    /** Tick at which the current CPU burst started; 0 means not started. */
    var startBurst: int
    /** Length of the last recorded CPU burst; the sort key of L1. */
    var burstTime: int
  }
}
