/**
 * The packet record: arrival and service data fixed at creation, and the
 * dispatch state (processor, start time, drop flag) that the scheduler
 * writes while the simulation runs.
 */
module Packets {
  import opened Wrappers

  /**
   * A priority is an integer enumeration: LOW = 0 < MEDIUM = 1 < HIGH = 2.
   * Being an integer, it is compared by value and doubles as a WRR child index.
   */
  newtype Priority = x: int | 0 <= x < 3

  const Low: Priority := 0
  const Medium: Priority := 1
  const High: Priority := 2

  /** Python's `x or y` for an optional time: `None` and `0` are both falsy. */
  function OrElse(x: Option<real>, y: real): (r: real)
    ensures x == None || x == Some(0.0) ==> r == y
    ensures x.Some? && x.value != 0.0 ==> r == x.value
  {
    if x.Some? && x.value != 0.0 then x.value else y
  }

  class Packet {
    const simulationTime: real
    const enterTime: real
    const processTime: real
    const priority: Priority
    var processorIndex: Option<nat>
    var startTime: Option<real>
    var dropped: bool

    /** A new packet is neither dispatched nor dropped. */
    constructor (simulationTime: real, enterTime: real, processTime: real, priority: Priority)
      ensures this.simulationTime == simulationTime && this.enterTime == enterTime
      ensures this.processTime == processTime && this.priority == priority
      ensures processorIndex == None && startTime == None && !dropped
    {
      this.simulationTime := simulationTime;
      this.enterTime := enterTime;
      this.processTime := processTime;
      this.priority := priority;
      processorIndex := None;
      startTime := None;
      dropped := false;
    }

    /** Started means a start time is recorded; an unstarted packet is charged the wait up to the horizon. */
    predicate HasStarted()
      reads this
      ensures !HasStarted() ==> WaitingTime() == simulationTime - enterTime
    {
      startTime.Some?
    }

    /** Completion time; asking before dispatch is a contract violation. */
    function EndTime(): (r: real)
      reads this
      requires HasStarted()
      ensures processTime >= 0.0 ==> startTime.value <= r
    {
      startTime.value + processTime
    }

    /**
     * Time spent waiting: up to dispatch, or up to the horizon when the
     * packet never started.  A start time of 0 counts as "not started".
     */
    function WaitingTime(): (r: real)
      reads this
      ensures startTime.Some? && startTime.value != 0.0 ==> r == startTime.value - enterTime
      ensures startTime == Some(0.0) ==> r == simulationTime - enterTime
    {
      OrElse(startTime, simulationTime) - enterTime
    }
  }

  /** A dispatched packet (started after time 0) completes at arrival + wait + service. */
  lemma CompletionSplits(p: Packet)
    requires p.HasStarted() && p.startTime.value != 0.0
    ensures p.EndTime() == p.enterTime + p.WaitingTime() + p.processTime
    ensures p.WaitingTime() == p.startTime.value - p.enterTime
  {
  }

  /** A packet dispatched at time 0 is charged the wait up to the horizon, as if never started. */
  lemma ZeroStartCountsAsUnstarted(p: Packet)
    requires p.startTime == Some(0.0)
    ensures p.HasStarted()
    ensures p.WaitingTime() == p.simulationTime - p.enterTime
  {
  }

  /** An undispatched packet that arrived before the horizon has waited a positive time. */
  lemma UnstartedWaitIsPositive(p: Packet)
    requires !p.HasStarted() && p.enterTime < p.simulationTime
    ensures p.WaitingTime() > 0.0
  {
  }
}
