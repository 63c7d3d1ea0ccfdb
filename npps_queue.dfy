/**
 * The non-preemptive priority queue: one list kept in non-increasing
 * priority order, packets of equal priority in arrival order.
 */
module NppsQueues {
  import opened Wrappers
  import opened Packets
  import opened Observers
  import opened QueueBase

  /** Priorities never increase from the head to the tail. */
  predicate SortedByPriority(q: seq<Packet>) {
    forall i, j :: 0 <= i < j < |q| ==> q[j].priority <= q[i].priority
  }

  /** The packets of class `pr`, in list order. */
  function OfPriority(q: seq<Packet>, pr: Priority): seq<Packet> {
    if q == [] then []
    else OfPriority(q[..|q| - 1], pr) + (if q[|q| - 1].priority == pr then [q[|q| - 1]] else [])
  }

  /**
   * Where a packet of priority `pr` appended to `q` comes to rest: it moves
   * left while the packet before it has a strictly lower priority.
   */
  function InsertPos(q: seq<Packet>, pr: Priority): (k: nat)
    ensures k <= |q|
  {
    if q == [] || q[|q| - 1].priority >= pr then |q|
    else InsertPos(q[..|q| - 1], pr)
  }

  /** The list after admitting `p`. */
  function Insert(q: seq<Packet>, p: Packet): seq<Packet> {
    var k := InsertPos(q, p.priority);
    q[..k] + [p] + q[k..]
  }

  /**
   * The resting place is behind the last packet whose priority is at least
   * `pr`: everything after it is strictly lower.
   */
  lemma {:induction false} InsertPosSpec(q: seq<Packet>, pr: Priority)
    ensures forall j :: InsertPos(q, pr) <= j < |q| ==> q[j].priority < pr
    ensures InsertPos(q, pr) > 0 ==> q[InsertPos(q, pr) - 1].priority >= pr
  {
    if q != [] && q[|q| - 1].priority < pr {
      var q' := q[..|q| - 1];
      InsertPosSpec(q', pr);
      assert forall j :: 0 <= j < |q'| ==> q'[j] == q[j];
    }
  }

  /** The two properties above pin the resting place down. */
  lemma InsertPosUnique(q: seq<Packet>, pr: Priority, k: nat)
    requires k <= |q|
    requires forall j :: k <= j < |q| ==> q[j].priority < pr
    requires k > 0 ==> q[k - 1].priority >= pr
    ensures k == InsertPos(q, pr)
  {
    InsertPosSpec(q, pr);
  }

  /** Element by element: the prefix, then the packet, then the rest shifted by one. */
  lemma InsertIndex(q: seq<Packet>, p: Packet)
    ensures |Insert(q, p)| == |q| + 1
    ensures Insert(q, p)[InsertPos(q, p.priority)] == p
    ensures forall j :: 0 <= j < InsertPos(q, p.priority) ==> Insert(q, p)[j] == q[j]
    ensures forall j :: InsertPos(q, p.priority) < j <= |q| ==> Insert(q, p)[j] == q[j - 1]
  {
  }

  /** Admission keeps the list sorted by priority. */
  lemma InsertSorted(q: seq<Packet>, p: Packet)
    requires SortedByPriority(q)
    ensures SortedByPriority(Insert(q, p))
  {
    var k := InsertPos(q, p.priority);
    var r := Insert(q, p);
    InsertIndex(q, p);
    InsertPosSpec(q, p.priority);
    forall i, j | 0 <= i < j < |r|
      ensures r[j].priority <= r[i].priority
    {
      if j < k {
        assert r[i] == q[i] && r[j] == q[j];
      } else if j == k {
        assert r[i] == q[i] && q[k - 1].priority <= q[i].priority;
      } else if i == k {
        assert r[j] == q[j - 1];
      } else if i < k {
        assert r[i] == q[i] && r[j] == q[j - 1];
      } else {
        assert r[i] == q[i - 1] && r[j] == q[j - 1];
      }
    }
  }

  /** Admission adds exactly the new packet. */
  lemma InsertContents(q: seq<Packet>, p: Packet)
    ensures multiset(Insert(q, p)) == multiset(q) + multiset{p}
  {
    var k := InsertPos(q, p.priority);
    assert q == q[..k] + q[k..];
  }

  lemma {:induction false} OfPriorityConcat(a: seq<Packet>, b: seq<Packet>, pr: Priority)
    ensures OfPriority(a + b, pr) == OfPriority(a, pr) + OfPriority(b, pr)
    decreases |b|
  {
    if b == [] {
      assert a + b == a;
    } else {
      var b' := b[..|b| - 1];
      assert (a + b)[..|a + b| - 1] == a + b';
      OfPriorityConcat(a, b', pr);
    }
  }

  lemma OfPrioritySingle(p: Packet, pr: Priority)
    ensures OfPriority([p], pr) == if p.priority == pr then [p] else []
  {
    assert [p][..0] == [];
  }

  lemma {:induction false} OfPriorityNone(q: seq<Packet>, pr: Priority)
    requires forall j :: 0 <= j < |q| ==> q[j].priority != pr
    ensures OfPriority(q, pr) == []
  {
    if q != [] {
      OfPriorityNone(q[..|q| - 1], pr);
    }
  }

  lemma ConcatAssoc(a: seq<Packet>, b: seq<Packet>, c: seq<Packet>)
    ensures (a + b) + c == a + (b + c)
  {
  }

  lemma ConcatEmpty(a: seq<Packet>)
    ensures a + [] == a
  {
  }

  /** Each class of an admission splits around the insertion point. */
  lemma InsertSplit(q: seq<Packet>, p: Packet, pr: Priority)
    ensures var k := InsertPos(q, p.priority);
      && OfPriority(Insert(q, p), pr) == (OfPriority(q[..k], pr) + OfPriority([p], pr)) + OfPriority(q[k..], pr)
      && OfPriority(q, pr) == OfPriority(q[..k], pr) + OfPriority(q[k..], pr)
  {
    var k := InsertPos(q, p.priority);
    var a, b := q[..k], q[k..];
    assert q == a + b;
    OfPriorityConcat(a + [p], b, pr);
    OfPriorityConcat(a, [p], pr);
    OfPriorityConcat(a, b, pr);
  }

  /** No packet behind the insertion point shares the new packet's class. */
  lemma BehindInsertPosNone(q: seq<Packet>, pr: Priority)
    ensures OfPriority(q[InsertPos(q, pr)..], pr) == []
  {
    var k := InsertPos(q, pr);
    InsertPosSpec(q, pr);
    var b := q[k..];
    forall j | 0 <= j < |b|
      ensures b[j].priority != pr
    {
      assert b[j] == q[k + j];
    }
    OfPriorityNone(b, pr);
  }

  /** Within each class the new packet goes last: every class behaves as a FIFO. */
  lemma InsertPerClass(q: seq<Packet>, p: Packet, pr: Priority)
    ensures OfPriority(Insert(q, p), pr) == OfPriority(q, pr) + (if p.priority == pr then [p] else [])
  {
    var k := InsertPos(q, p.priority);
    InsertSplit(q, p, pr);
    OfPrioritySingle(p, pr);
    var oa, ob := OfPriority(q[..k], pr), OfPriority(q[k..], pr);
    if p.priority == pr {
      BehindInsertPosNone(q, pr);
      assert ob == [];
      ConcatEmpty(oa + [p]);
      ConcatEmpty(oa);
    } else {
      ConcatEmpty(oa);
    }
  }

  /**
   * The head of a sorted list has the highest priority present, and it is
   * the oldest packet of its class.
   */
  lemma HeadIsFirstOfHighest(q: seq<Packet>)
    requires SortedByPriority(q) && q != []
    ensures forall x :: x in q ==> x.priority <= q[0].priority
    ensures OfPriority(q, q[0].priority) != [] && OfPriority(q, q[0].priority)[0] == q[0]
  {
    var pr := q[0].priority;
    assert q == [q[0]] + q[1..];
    OfPriorityConcat([q[0]], q[1..], pr);
    OfPrioritySingle(q[0], pr);
  }

  /** Removing the head shortens its own class by one and leaves the others alone. */
  lemma HeadLeavesOwnClass(q: seq<Packet>, pr: Priority)
    requires q != []
    ensures OfPriority(q, pr) == (if q[0].priority == pr then [q[0]] else []) + OfPriority(q[1..], pr)
  {
    assert q == [q[0]] + q[1..];
    OfPriorityConcat([q[0]], q[1..], pr);
    OfPrioritySingle(q[0], pr);
  }

  /**
   * Per-class FIFO: for every class, the packets admitted so far are those
   * served so far followed by those still queued, in that order.
   */
  ghost predicate PerClassFifo(admitted: seq<Packet>, served: seq<Packet>, q: seq<Packet>) {
    forall pr :: OfPriority(admitted, pr) == OfPriority(served, pr) + OfPriority(q, pr)
  }

  lemma PerClassFifoAdd(admitted: seq<Packet>, served: seq<Packet>, q: seq<Packet>, p: Packet)
    requires PerClassFifo(admitted, served, q)
    ensures PerClassFifo(admitted + [p], served, Insert(q, p))
  {
    forall pr
      ensures OfPriority(admitted + [p], pr) == OfPriority(served, pr) + OfPriority(Insert(q, p), pr)
    {
      OfPriorityConcat(admitted, [p], pr);
      OfPrioritySingle(p, pr);
      InsertPerClass(q, p, pr);
      var os, oq, tail := OfPriority(served, pr), OfPriority(q, pr), if p.priority == pr then [p] else [];
      ConcatAssoc(os, oq, tail);
    }
  }

  lemma PerClassFifoPop(admitted: seq<Packet>, served: seq<Packet>, q: seq<Packet>)
    requires PerClassFifo(admitted, served, q) && q != []
    ensures PerClassFifo(admitted, served + [q[0]], q[1..])
  {
    forall pr
      ensures OfPriority(admitted, pr) == OfPriority(served + [q[0]], pr) + OfPriority(q[1..], pr)
    {
      HeadLeavesOwnClass(q, pr);
      OfPriorityConcat(served, [q[0]], pr);
      OfPrioritySingle(q[0], pr);
      var os, oh, ot := OfPriority(served, pr), OfPriority([q[0]], pr), OfPriority(q[1..], pr);
      ConcatAssoc(os, oh, ot);
    }
  }

  /** One admission keeps the list sorted and every class first-in first-out. */
  lemma AddStep(q: seq<Packet>, s: seq<Packet>, served: seq<Packet>, notices: seq<Notice>, n: Notice)
    requires SortedByPriority(q) && PerClassFifo(AddedPackets(notices), served, q)
    requires n.Added? && s == Insert(q, n.packet)
    ensures SortedByPriority(s) && |s| == |q| + 1
    ensures PerClassFifo(AddedPackets(notices + [n]), served, s)
  {
    InsertSorted(q, n.packet);
    InsertIndex(q, n.packet);
    AddedPacketsSnoc(notices, n);
    PerClassFifoAdd(AddedPackets(notices), served, q, n.packet);
  }

  /** One removal of the head keeps the list sorted and every class first-in first-out. */
  lemma PopStep(q: seq<Packet>, served: seq<Packet>, notices: seq<Notice>, n: Notice)
    requires SortedByPriority(q) && PerClassFifo(AddedPackets(notices), served, q) && q != [] && n.Popped?
    ensures SortedByPriority(q[1..])
    ensures PerClassFifo(AddedPackets(notices + [n]), served + [q[0]], q[1..])
  {
    AddedPacketsSnoc(notices, n);
    ConcatEmpty(AddedPackets(notices));
    PerClassFifoPop(AddedPackets(notices), served, q);
  }

  /**
   * The admission loop of `add_packet`: append the packet, then swap it with
   * its left neighbour while that neighbour has a strictly lower priority.
   */
  method AppendAndBubble(q0: seq<Packet>, packet: Packet) returns (s: seq<Packet>)
    ensures s == Insert(q0, packet)
  {
    s := q0 + [packet];
    var index := |s| - 1;
    while index > 0 && s[index - 1].priority < s[index].priority
      invariant 0 <= index < |s| == |q0| + 1
      invariant s[index] == packet
      invariant forall j :: 0 <= j < index ==> s[j] == q0[j]
      invariant forall j :: index < j < |s| ==> s[j] == q0[j - 1]
      invariant forall j :: index <= j < |q0| ==> q0[j].priority < packet.priority
      decreases index
    {
      s := s[index - 1 := s[index]][index := s[index - 1]];
      index := index - 1;
    }
    InsertPosUnique(q0, packet.priority, index);
    InsertIndex(q0, packet);
    assert forall j :: 0 <= j < |s| ==> s[j] == Insert(q0, packet)[j];
  }

  /** A queue is never one of its own observers. */
  lemma QueueIsNoObserver(x: NppsQueue, observers: seq<Observer>)
    ensures x !in ObserverObjs(observers)
  {
  }

  class NppsQueue {
    const lengthLimit: int
    var q: seq<Packet>
    var observers: seq<Observer>
    /** Every notice broadcast so far; its ADD notices name the packets admitted. */
    ghost var notices: seq<Notice>
    /** Every packet popped so far. */
    ghost var served: seq<Packet>

    /**
     * Sorted by priority; within each class, packets leave in admission
     * order; at most `lengthLimit` packets when that limit is not negative
     * (a negative limit is never equal to the length, so it bounds nothing).
     */
    ghost predicate Valid()
      reads this
    {
      && SortedByPriority(q)
      && (lengthLimit >= 0 ==> |q| <= lengthLimit)
      && PerClassFifo(AddedPackets(notices), served, q)
    }

    constructor (lengthLimit: int)
      ensures Valid() && this.lengthLimit == lengthLimit
      ensures q == [] && observers == [] && notices == [] && served == []
    {
      this.lengthLimit := lengthLimit;
      q := [];
      observers := [];
      notices := [];
      served := [];
    }

    /** The packets held; never more than a non-negative limit. */
    function Length(): (r: nat)
      reads this
      ensures Valid() && lengthLimit >= 0 ==> r <= lengthLimit
    {
      |q|
    }

    /** Empty exactly when the length is zero. */
    predicate Empty()
      reads this
      ensures Empty() <==> Length() == 0
    {
      |q| == 0
    }

    /** Replaces the whole observer list. */
    method RegisterObserver(observers: seq<Observer>)
      modifies this`observers
      ensures this.observers == observers
    {
      this.observers := observers;
    }

    /**
     * Rejects the packet when the length equals the limit (no eviction);
     * otherwise appends it and bubbles it left past lower priorities.
     */
    method AddPacket(packet: Packet, currentTime: real) returns (added: bool)
      requires Valid()
      modifies this, ObserverObjs(observers)
      ensures Valid() && observers == old(observers) && served == old(served)
      ensures added <==> old(|q|) != lengthLimit
      ensures q == if added then Insert(old(q), packet) else old(q)
      ensures notices == old(notices) + (if added then [Added(packet, currentTime, |q|)] else [])
      ensures Delivered(observers, if added then [Added(packet, currentTime, |q|)] else [])
    {
      if |q| == lengthLimit {
        return false;
      }
      var s := AppendAndBubble(q, packet);
      assert forall i :: 0 <= i < |observers| ==> observers[i].Seen() == old(observers[i].Seen());
      assert forall o | o in observers :: o.Valid() == old(o.Valid());
      var n := Added(packet, currentTime, |s|);
      AddStep(q, s, served, notices, n);
      Admit(s, n);
      added := true;
    }

    /** Installs the list with the new packet in place and broadcasts its ADD notice. */
    method Admit(s: seq<Packet>, n: Notice)
      requires n.Added?
      requires SortedByPriority(s) && (lengthLimit >= 0 ==> |s| <= lengthLimit)
      requires PerClassFifo(AddedPackets(notices + [n]), served, s)
      modifies this, ObserverObjs(observers)
      ensures Valid() && observers == old(observers) && served == old(served)
      ensures q == s && notices == old(notices) + [n]
      ensures Delivered(observers, [n])
    {
      QueueIsNoObserver(this, observers);
      q := s;
      notices := notices + [n];
      Notify(observers, n);
    }

    /** Removes the head; the observers hear of it before the removal. */
    method Pop(currentTime: real) returns (r: Option<Packet>)
      requires Valid()
      modifies this, ObserverObjs(observers)
      ensures Valid() && observers == old(observers)
      ensures r == if old(q) == [] then None else Some(old(q)[0])
      ensures q == if old(q) == [] then [] else old(q)[1..]
      ensures served == old(served) + (if r.Some? then [r.value] else [])
      ensures notices == old(notices) + (if old(q) == [] then [] else [Popped(currentTime, |old(q)|)])
      ensures Delivered(observers, if old(q) == [] then [] else [Popped(currentTime, |old(q)|)])
    {
      if Empty() {
        return None;
      }
      var n := Popped(currentTime, |q|);
      PopStep(q, served, notices, n);
      QueueIsNoObserver(this, observers);
      Notify(observers, n);
      notices := notices + [n];
      r := Some(q[0]);
      served := served + [q[0]];
      q := q[1..];
    }
  }
}
