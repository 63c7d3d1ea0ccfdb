/** The tail-drop first-in first-out queue. */
module FifoQueues {
  import opened Wrappers
  import opened Packets
  import opened Observers
  import opened QueueBase

  /** The notices a pop broadcasts: none when empty, else the length BEFORE removal. */
  function PopNotices(q: seq<Packet>, currentTime: real): (r: seq<Notice>)
    ensures |r| <= 1
  {
    if q == [] then [] else [Popped(currentTime, |q|)]
  }

  /** A queue is never one of its own observers. */
  lemma QueueIsNoObserver(x: FifoQueue, observers: seq<Observer>)
    ensures x !in ObserverObjs(observers)
  {
  }

  class FifoQueue {
    const lengthLimit: int
    var q: seq<Packet>
    var observers: seq<Observer>
    /** Every notice broadcast so far. */
    ghost var notices: seq<Notice>
    /** Every packet admitted so far, and every packet popped so far. */
    ghost var admitted: seq<Packet>
    ghost var served: seq<Packet>

    /**
     * The queue never holds more than its limit (nothing at all when the
     * limit is negative), packets leave in the order they were admitted,
     * and one ADD notice was broadcast per admitted packet.
     */
    ghost predicate Valid()
      reads this
    {
      && (|q| <= lengthLimit || q == [])
      && admitted == served + q
      && AddedPackets(notices) == admitted
    }

    constructor (lengthLimit: int)
      ensures Valid() && this.lengthLimit == lengthLimit
      ensures q == [] && observers == [] && notices == [] && admitted == [] && served == []
    {
      this.lengthLimit := lengthLimit;
      q := [];
      observers := [];
      notices := [];
      admitted := [];
      served := [];
    }

    /** The packets admitted and not yet served; never more than a non-negative limit. */
    function Length(): (r: nat)
      reads this
      ensures Valid() ==> r == |admitted| - |served|
      ensures Valid() && lengthLimit >= 0 ==> r <= lengthLimit
    {
      |q|
    }

    /** Empty exactly when the length is zero, that is, when every admitted packet was served. */
    predicate Empty()
      reads this
      ensures Empty() <==> Length() == 0
      ensures Valid() ==> (Empty() <==> admitted == served)
    {
      |q| == 0
    }

    /** Replaces the whole observer list. */
    method RegisterObserver(observers: seq<Observer>)
      modifies this`observers
      ensures this.observers == observers
    {
      this.observers := observers;
    }

    /**
     * Appends the packet unless the queue holds `lengthLimit` packets or
     * more; the observers hear of it with the new length. Seen from any list
     * `l` of observers (those of an enclosing queue, say), each hears it once
     * per registration here.
     */
    method AddPacket(packet: Packet, currentTime: real, ghost l: seq<Observer>) returns (added: bool)
      requires Valid()
      modifies this, ObserverObjs(observers)
      ensures Valid() && observers == old(observers) && served == old(served)
      ensures added <==> old(|q|) < lengthLimit
      ensures q == if added then old(q) + [packet] else old(q)
      ensures admitted == if added then old(admitted) + [packet] else old(admitted)
      ensures notices == old(notices) + (if added then [Added(packet, currentTime, |q|)] else [])
      ensures Step(old(Logs(l)), Logs(l), l, observers, if added then [Added(packet, currentTime, |q|)] else [])
    {
      if |q| >= lengthLimit {
        SilentStep(Logs(l), l, observers);
        return false;
      }
      Enqueue(packet, currentTime, l);
      added := true;
    }

    /** The accepting branch of `AddPacket`. */
    method Enqueue(packet: Packet, currentTime: real, ghost l: seq<Observer>)
      requires Valid() && |q| < lengthLimit
      modifies this, ObserverObjs(observers)
      ensures Valid() && observers == old(observers) && served == old(served)
      ensures q == old(q) + [packet] && admitted == old(admitted) + [packet]
      ensures notices == old(notices) + [Added(packet, currentTime, |q|)]
      ensures Step(old(Logs(l)), Logs(l), l, observers, [Added(packet, currentTime, |q|)])
    {
      QueueIsNoObserver(this, observers);
      QueueIsNoObserver(this, l);
      q := q + [packet];
      var n := Added(packet, currentTime, |q|);
      AddedPacketsSnoc(notices, n);
      admitted := admitted + [packet];
      notices := notices + [n];
      Broadcast(observers, n, l);
    }

    /**
     * Removes the oldest packet; the observers hear of it before the
     * removal. Seen from any list `l` of observers, each hears it once per
     * registration here; an empty queue notifies nobody.
     */
    method Pop(currentTime: real, ghost l: seq<Observer>) returns (r: Option<Packet>)
      requires Valid()
      modifies this, ObserverObjs(observers)
      ensures Valid() && observers == old(observers) && admitted == old(admitted)
      ensures r == if old(q) == [] then None else Some(old(q)[0])
      ensures q == if old(q) == [] then [] else old(q)[1..]
      ensures served == old(served) + (if r.Some? then [r.value] else [])
      ensures notices == old(notices) + PopNotices(old(q), currentTime)
      ensures Step(old(Logs(l)), Logs(l), l, observers, PopNotices(old(q), currentTime))
    {
      if Empty() {
        SilentStep(Logs(l), l, observers);
        return None;
      }
      r := Dequeue(currentTime, l);
    }

    /** The non-empty branch of `Pop`. */
    method Dequeue(currentTime: real, ghost l: seq<Observer>) returns (r: Option<Packet>)
      requires Valid() && q != []
      modifies this, ObserverObjs(observers)
      ensures Valid() && observers == old(observers) && admitted == old(admitted)
      ensures r == Some(old(q)[0]) && q == old(q)[1..] && served == old(served) + [r.value]
      ensures notices == old(notices) + [Popped(currentTime, old(|q|))]
      ensures Step(old(Logs(l)), Logs(l), l, observers, [Popped(currentTime, old(|q|))])
    {
      QueueIsNoObserver(this, observers);
      QueueIsNoObserver(this, l);
      var n := Popped(currentTime, |q|);
      AddedPacketsSnoc(notices, n);
      Broadcast(observers, n, l);
      notices := notices + [n];
      r := Some(q[0]);
      served := served + [q[0]];
      q := q[1..];
    }
  }

  /**
   * FIFO order: the packets admitted to a queue that started empty come out
   * of successive pops in admission order, each admitted packet being
   * ahead of the ones still queued.
   */
  lemma ServedInAdmissionOrder(f: FifoQueue, k: nat)
    requires f.Valid() && k < |f.served|
    ensures f.served[k] == f.admitted[k]
    ensures forall i :: 0 <= i < |f.q| ==> f.q[i] == f.admitted[|f.served| + i]
  {
  }
}
