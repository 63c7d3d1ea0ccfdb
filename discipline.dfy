/**
 * The queue a scheduler is built with: any of the three disciplines, seen
 * through the interface they share (`add_packet`, `pop`, `length`, `empty`)
 * and, for the proofs, as the bag of packets it holds.
 */
module Disciplines {
  import opened Wrappers
  import opened Packets
  import opened QueueBase
  import opened FifoQueues
  import opened NppsQueues
  import opened WrrQueues

  datatype Discipline = Fifo(f: FifoQueue) | Npps(n: NppsQueue) | Wrr(w: WrrQueue)
  {
    /** The queue objects themselves: the queue and, for a composite, its children. */
    function Core(): set<object> {
      match this
      case Fifo(f) => {f}
      case Npps(n) => {n}
      case Wrr(w) => {w} + Objs(w.queues)
    }

    /** Everything an operation on the queue may change, its observers included. */
    ghost function Repr(): set<object>
      reads Core()
    {
      Core() +
        match this
        case Fifo(f) => ObserverObjs(f.observers)
        case Npps(n) => ObserverObjs(n.observers)
        case Wrr(w) => ObserverObjs(w.observers) + ChildObserverObjs(w.queues)
    }

    ghost predicate Valid()
      reads Core()
    {
      match this
      case Fifo(f) => f.Valid()
      case Npps(n) => n.Valid()
      case Wrr(w) => w.Valid()
    }

    /** `length` counts the packets held. */
    function Length(): (r: nat)
      reads Core()
      ensures r == |Packets()|
    {
      match this
      case Fifo(f) => f.Length()
      case Npps(n) => n.Length()
      case Wrr(w) => w.Length()
    }

    /** `empty` holds exactly when no packet is held. */
    predicate Empty()
      reads Core()
      ensures Empty() <==> Packets() == []
    {
      match this
      case Fifo(f) => f.Empty()
      case Npps(n) => n.Empty()
      case Wrr(w) => w.Empty()
    }

    /** The packets held, in the queue's own order (for a composite, child by child). */
    ghost function Packets(): seq<Packet>
      reads Core()
    {
      match this
      case Fifo(f) => f.q
      case Npps(n) => n.q
      case Wrr(w) => Flatten(Contents(w.queues))
    }

    /**
     * A packet can be handed to the queue: a composite looks its child up
     * by the packet's priority, so it needs a child for that priority.
     */
    predicate Routes(priority: Priority) {
      !Wrr? || priority as int < |w.queues|
    }

    /**
     * `add_packet`: the packet joins the queue's bag exactly when the queue
     * admits it; nothing else joins or leaves.
     */
    method AddPacket(packet: Packet, currentTime: real) returns (added: bool)
      requires Valid() && Routes(packet.priority)
      modifies Repr()
      ensures Valid() && Repr() == old(Repr())
      ensures multiset(Packets()) == old(multiset(Packets())) + if added then multiset{packet} else multiset{}
      ensures Length() == old(Length()) + if added then 1 else 0
    {
      ghost var bag := multiset(Packets());
      assert Length() == |bag|;
      match this {
        case Fifo(f) => added := AddFifo(packet, currentTime);
        case Npps(n) => added := AddNpps(packet, currentTime);
        case Wrr(w) => added := AddWrr(packet, currentTime);
      }
      assert multiset(Packets()) == bag + if added then multiset{packet} else multiset{};
      assert Length() == |multiset(Packets())| == |bag| + if added then 1 else 0;
    }

    method AddFifo(packet: Packet, currentTime: real) returns (added: bool)
      requires Fifo? && Valid()
      modifies Repr()
      ensures Valid() && Repr() == old(Repr())
      ensures multiset(Packets()) == old(multiset(Packets())) + if added then multiset{packet} else multiset{}
    {
      FifoQueues.QueueIsNoObserver(f, f.observers);
      added := f.AddPacket(packet, currentTime, []);
    }

    method AddNpps(packet: Packet, currentTime: real) returns (added: bool)
      requires Npps? && Valid()
      modifies Repr()
      ensures Valid() && Repr() == old(Repr())
      ensures multiset(Packets()) == old(multiset(Packets())) + if added then multiset{packet} else multiset{}
    {
      NppsQueues.QueueIsNoObserver(n, n.observers);
      ghost var q0 := n.q;
      added := n.AddPacket(packet, currentTime);
      InsertContents(q0, packet);
    }

    method AddWrr(packet: Packet, currentTime: real) returns (added: bool)
      requires Wrr? && Valid() && Routes(packet.priority)
      modifies Repr()
      ensures Valid() && Repr() == old(Repr())
      ensures multiset(Packets()) == old(multiset(Packets())) + if added then multiset{packet} else multiset{}
    {
      w.ChildrenAreNoObservers(w.observers);
      ghost var cs := Contents(w.queues);
      ghost var k := packet.priority as int;
      CompositeIsNoObserver(w, w.queues[k].observers);
      added := w.AddPacket(packet, currentTime);
      assert old(ObserverLists(w.queues)) == ObserverLists(w.queues) && old(w.observers) == w.observers;
      assert old(ChildObserverObjs(w.queues)) == ChildObserverObjs(w.queues);
      if added {
        FlattenAppend(cs, k, packet);
      }
    }

    /**
     * `pop`: nothing from an empty queue; otherwise one of the packets held,
     * which leaves the bag, and nothing else does.
     */
    method Pop(currentTime: real) returns (r: Option<Packet>)
      requires Valid()
      modifies Repr()
      ensures Valid() && Repr() == old(Repr())
      ensures r.None? <==> old(Empty())
      ensures old(multiset(Packets())) == multiset(Packets()) + if r.Some? then multiset{r.value} else multiset{}
      ensures Length() == old(Length()) - if r.Some? then 1 else 0
    {
      ghost var bag := multiset(Packets());
      assert Length() == |bag|;
      match this {
        case Fifo(f) => r := PopFifo(currentTime);
        case Npps(n) => r := PopNpps(currentTime);
        case Wrr(w) => r := PopWrr(currentTime);
      }
      assert bag == multiset(Packets()) + if r.Some? then multiset{r.value} else multiset{};
      assert |bag| == |multiset(Packets())| + (if r.Some? then 1 else 0) == Length() + if r.Some? then 1 else 0;
    }

    method PopFifo(currentTime: real) returns (r: Option<Packet>)
      requires Fifo? && Valid()
      modifies Repr()
      ensures Valid() && Repr() == old(Repr())
      ensures r.None? <==> old(Empty())
      ensures old(multiset(Packets())) == multiset(Packets()) + if r.Some? then multiset{r.value} else multiset{}
    {
      FifoQueues.QueueIsNoObserver(f, f.observers);
      ghost var q0 := f.q;
      r := f.Pop(currentTime, []);
      assert q0 != [] ==> q0 == [q0[0]] + q0[1..];
    }

    method PopNpps(currentTime: real) returns (r: Option<Packet>)
      requires Npps? && Valid()
      modifies Repr()
      ensures Valid() && Repr() == old(Repr())
      ensures r.None? <==> old(Empty())
      ensures old(multiset(Packets())) == multiset(Packets()) + if r.Some? then multiset{r.value} else multiset{}
    {
      NppsQueues.QueueIsNoObserver(n, n.observers);
      ghost var q0 := n.q;
      r := n.Pop(currentTime);
      assert Valid() && Repr() == old(Repr()) && Packets() == n.q;
      if q0 != [] {
        assert q0 == [q0[0]] + q0[1..] && n.q == q0[1..];
      }
    }

    method PopWrr(currentTime: real) returns (r: Option<Packet>)
      requires Wrr? && Valid()
      modifies Repr()
      ensures Valid() && Repr() == old(Repr())
      ensures r.None? <==> old(Empty())
      ensures old(multiset(Packets())) == multiset(Packets()) + if r.Some? then multiset{r.value} else multiset{}
    {
      w.ChildrenAreNoObservers(w.observers);
      CompositeIsNoChildObserver(w, w.queues);
      ghost var cs, i := Contents(w.queues), w.currentIndex;
      r := w.Pop(currentTime);
      assert old(ObserverLists(w.queues)) == ObserverLists(w.queues) && old(w.observers) == w.observers;
      assert old(ChildObserverObjs(w.queues)) == ChildObserverObjs(w.queues);
      if r.Some? {
        FlattenTake(cs, Chosen(cs, i));
      }
    }
  }

  /** A queue none of whose objects changed is the queue it was. */
  twostate lemma QueueUnchanged(d: Discipline)
    requires forall o :: o in d.Core() ==> unchanged(o)
    ensures d.Valid() == old(d.Valid()) && d.Repr() == old(d.Repr())
    ensures d.Length() == old(d.Length()) && d.Empty() == old(d.Empty())
    ensures d.Packets() == old(d.Packets())
  {
  }
}
