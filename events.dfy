/**
 * Simulation events and the store they wait in. Events are ordered by time
 * alone; the store hands back an event of least time. Which of several
 * events with equal times comes first depends on the heap's layout and is
 * not modelled: the store is a sequence and `pop` may return any of them.
 */
module Events {
  import opened Packets

  datatype EventType = Done | Spawn

  /** An event at `time` concerning `packet`; only `time` takes part in comparisons. */
  datatype Event = Event(time: real, eventType: EventType, packet: Packet)

  /** `e` is no later than any event of `es`. */
  ghost predicate Earliest(e: Event, es: seq<Event>) {
    forall f :: f in es ==> e.time <= f.time
  }

  /** Every non-empty collection of events has an earliest one. */
  lemma {:induction false} SomeEarliest(es: seq<Event>)
    ensures es != [] ==> exists e :: e in es && Earliest(e, es)
  {
    if |es| > 1 {
      SomeEarliest(es[1..]);
      var f :| f in es[1..] && Earliest(f, es[1..]);
      assert es == [es[0]] + es[1..];
      var e := if es[0].time <= f.time then es[0] else f;
      assert e in es && Earliest(e, es);
    } else if |es| == 1 {
      assert es[0] in es && Earliest(es[0], es);
    }
  }

  class EventSet {
    var events: seq<Event>

    constructor ()
      ensures events == []
    {
      events := [];
    }

    /** `add_event`: the event joins the store. */
    method AddEvent(e: Event)
      modifies this
      ensures events == old(events) + [e]
    {
      events := events + [e];
    }

    /** `empty`: no event is pending; otherwise one of least time is there to be popped. */
    predicate Empty()
      reads this
      ensures Empty() <==> events == []
      ensures !Empty() ==> exists e :: e in events && Earliest(e, events)
    {
      SomeEarliest(events);
      |events| == 0
    }

    /** The position of an event of least time (the first such, scanning left to right). */
    method MinIndex() returns (k: nat)
      requires events != []
      ensures k < |events| && Earliest(events[k], events)
    {
      k := 0;
      var j := 1;
      while j < |events|
        invariant k < j <= |events|
        invariant forall i :: 0 <= i < j ==> events[k].time <= events[i].time
      {
        if events[j].time < events[k].time {
          k := j;
        }
        j := j + 1;
      }
    }

    /** `top`: an event of least time, left in the store. */
    method Top() returns (e: Event)
      requires events != []
      ensures e in events && Earliest(e, events)
    {
      var k := MinIndex();
      e := events[k];
    }

    /**
     * `pop`: an event of least time, taken out of the store; the others keep
     * their relative order.
     */
    method Pop() returns (e: Event)
      requires events != []
      modifies this
      ensures Earliest(e, old(events))
      ensures exists k :: 0 <= k < |old(events)| && old(events)[k] == e
                        && events == old(events)[..k] + old(events)[k + 1..]
      ensures multiset(old(events)) == multiset(events) + multiset{e}
    {
      var k := MinIndex();
      e := events[k];
      assert events == events[..k] + [e] + events[k + 1..];
      events := events[..k] + events[k + 1..];
    }
  }
}
