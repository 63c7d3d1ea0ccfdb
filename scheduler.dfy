/**
 * The discrete-event loop: processors that are idle or busy, the packets
 * generated from injected draws, and `run`, which pops events in time
 * order, admits or drops arrivals, releases processors on completions and
 * greedily hands queued packets to idle processors in index order.
 */
module Scheduling {
  import opened Wrappers
  import opened Packets
  import opened Observers
  import opened Events
  import opened WrrQueues
  import opened Disciplines

  // --------------------------------------------------------------- processors

  /** The total length of a sequence of busy spans (start, release). */
  function BusyTime(spans: seq<(real, real)>): real {
    if spans == [] then 0.0 else BusyTime(spans[..|spans| - 1]) + (spans[|spans| - 1].1 - spans[|spans| - 1].0)
  }

  /** Spans that never end before they start add up to a non-negative time. */
  lemma {:induction false} BusyTimeNonNegative(spans: seq<(real, real)>)
    requires forall k :: 0 <= k < |spans| ==> spans[k].0 <= spans[k].1
    ensures BusyTime(spans) >= 0.0
  {
    if spans != [] {
      BusyTimeNonNegative(spans[..|spans| - 1]);
    }
  }

  class Processor {
    var isBusy: bool
    var startTime: Option<real>
    var account: real
    /** The busy spans completed so far. */
    ghost var spans: seq<(real, real)>

    /** Busy exactly while a start time is recorded; the account sums the completed spans. */
    ghost predicate Valid()
      reads this
    {
      (isBusy <==> startTime.Some?) && account == BusyTime(spans)
    }

    constructor ()
      ensures Valid() && !isBusy && account == 0.0 && spans == []
    {
      isBusy := false;
      startTime := None;
      account := 0.0;
      spans := [];
    }

    /** `set_is_busy`: busy from `currentTime` on. */
    method SetIsBusy(currentTime: real)
      requires Valid()
      modifies this
      ensures Valid() && isBusy && startTime == Some(currentTime)
      ensures account == old(account) && spans == old(spans)
    {
      isBusy := true;
      startTime := Some(currentTime);
    }

    /**
     * `reset_is_busy`: the span since the recorded start is added to the
     * account and the processor is idle again.
     */
    method ResetIsBusy(currentTime: real)
      requires Valid() && startTime.Some?
      modifies this
      ensures Valid() && !isBusy && startTime == None
      ensures spans == old(spans) + [(old(startTime).value, currentTime)]
      ensures account == old(account) + (currentTime - old(startTime).value)
      ensures currentTime >= old(startTime).value ==> account >= old(account)
    {
      account := account + (currentTime - startTime.value);
      spans := spans + [(startTime.value, currentTime)];
      isBusy := false;
      startTime := None;
    }
  }

  /** `processors` fresh idle processors. */
  method MakeProcessors(n: nat) returns (ps: seq<Processor>)
    ensures |ps| == n
    ensures forall i, j :: 0 <= i < j < |ps| ==> ps[i] != ps[j]
    ensures forall i :: 0 <= i < |ps| ==> fresh(ps[i]) && ps[i].Valid() && !ps[i].isBusy
  {
    ps := [];
    while |ps| < n
      invariant |ps| <= n
      invariant forall i, j :: 0 <= i < j < |ps| ==> ps[i] != ps[j]
      invariant forall i :: 0 <= i < |ps| ==> fresh(ps[i]) && ps[i].Valid() && !ps[i].isBusy
    {
      var p := new Processor();
      ps := ps + [p];
    }
  }

  /** How many of the first `j` processors are idle (hold no job). */
  function IdleBefore<T>(slots: seq<Option<T>>, j: nat): nat
    requires j <= |slots|
  {
    if j == 0 then 0 else IdleBefore(slots, j - 1) + (if slots[j - 1].None? then 1 else 0)
  }

  /** Counting further never counts fewer, and passing an idle processor counts it. */
  lemma {:induction false} IdleBeforeGrows<T>(slots: seq<Option<T>>, j: nat, k: nat)
    requires j < k <= |slots|
    ensures IdleBefore(slots, j) + (if slots[j].None? then 1 else 0) <= IdleBefore(slots, k)
    decreases k
  {
    if j + 1 < k {
      IdleBeforeGrows(slots, j, k - 1);
    }
  }

  // ------------------------------------------------------------------ arrivals

  /** The values `_create_packets` draws for one arrival: gap, priority, service time. */
  datatype Draw = Draw(interval: real, priority: Priority, processTime: real)

  /**
   * The arrivals (enter time and draw) `_create_packets` makes from `draws`,
   * the clock standing at `now`: the clock advances by each gap, and an
   * arrival is made while it stays below the horizon.
   */
  function Arrivals(draws: seq<Draw>, now: real, horizon: real): (r: seq<(real, Draw)>)
    ensures forall k :: 0 <= k < |r| ==> r[k].0 < horizon
    decreases |draws|
  {
    if draws == [] || now >= horizon then []
    else
      var t := now + draws[0].interval;
      (if t < horizon then [(t, draws[0])] else []) + Arrivals(draws[1..], t, horizon)
  }

  /** With positive gaps the arrivals come strictly later than `now` and in increasing time order. */
  lemma {:induction false} ArrivalsAscend(draws: seq<Draw>, now: real, horizon: real)
    requires forall k :: 0 <= k < |draws| ==> draws[k].interval > 0.0
    ensures forall k :: 0 <= k < |Arrivals(draws, now, horizon)| ==> now < Arrivals(draws, now, horizon)[k].0
    ensures forall j, k :: 0 <= j < k < |Arrivals(draws, now, horizon)| ==>
      Arrivals(draws, now, horizon)[j].0 < Arrivals(draws, now, horizon)[k].0
    decreases |draws|
  {
    if draws != [] && now < horizon {
      var t := now + draws[0].interval;
      assert now < t;
      assert forall k :: 0 <= k < |draws[1..]| ==> draws[1..][k].interval > 0.0 by {
        forall k | 0 <= k < |draws[1..]| ensures draws[1..][k].interval > 0.0 {
          assert draws[1..][k] == draws[k + 1];
        }
      }
      ArrivalsAscend(draws[1..], t, horizon);
      var head := if t < horizon then [(t, draws[0])] else [];
      assert Arrivals(draws, now, horizon) == head + Arrivals(draws[1..], t, horizon);
      AscendAfter(t, head, Arrivals(draws[1..], t, horizon));
    }
  }

  /** With gaps that are never negative, no arrival comes before `now`. */
  lemma {:induction false} ArrivalsNotBefore(draws: seq<Draw>, now: real, horizon: real)
    requires forall d :: d in draws ==> d.interval >= 0.0
    ensures forall k :: 0 <= k < |Arrivals(draws, now, horizon)| ==> now <= Arrivals(draws, now, horizon)[k].0
    decreases |draws|
  {
    if draws != [] && now < horizon {
      var t := now + draws[0].interval;
      assert draws[0] in draws;
      assert forall d :: d in draws[1..] ==> d in draws;
      ArrivalsNotBefore(draws[1..], t, horizon);
      var head: seq<(real, Draw)> := if t < horizon then [(t, draws[0])] else [];
      var rest := Arrivals(draws[1..], t, horizon);
      assert Arrivals(draws, now, horizon) == head + rest;
      forall k | 0 <= k < |head + rest| ensures now <= (head + rest)[k].0 {
        if k >= |head| {
          assert (head + rest)[k] == rest[k - |head|];
        }
      }
    }
  }

  /** Each arrival carries one of the draws. */
  lemma {:induction false} ArrivalsDrawn(draws: seq<Draw>, now: real, horizon: real)
    ensures forall k :: 0 <= k < |Arrivals(draws, now, horizon)| ==> Arrivals(draws, now, horizon)[k].1 in draws
    decreases |draws|
  {
    if draws != [] && now < horizon {
      var t := now + draws[0].interval;
      ArrivalsDrawn(draws[1..], t, horizon);
      var head: seq<(real, Draw)> := if t < horizon then [(t, draws[0])] else [];
      var rest := Arrivals(draws[1..], t, horizon);
      forall k | 0 <= k < |head + rest| ensures (head + rest)[k].1 in draws {
        if k >= |head| {
          assert (head + rest)[k] == rest[k - |head|];
          assert rest[k - |head|].1 in draws[1..];
        }
      }
    }
  }

  /** An arrival at `t` put before later, ascending arrivals keeps them ascending. */
  lemma AscendAfter(t: real, head: seq<(real, Draw)>, rest: seq<(real, Draw)>)
    requires |head| <= 1 && forall k :: 0 <= k < |head| ==> head[k].0 == t
    requires forall k :: 0 <= k < |rest| ==> t < rest[k].0
    requires forall j, k :: 0 <= j < k < |rest| ==> rest[j].0 < rest[k].0
    ensures forall k :: 0 <= k < |head + rest| ==> t <= (head + rest)[k].0
    ensures forall j, k :: 0 <= j < k < |head + rest| ==> (head + rest)[j].0 < (head + rest)[k].0
  {
    var r := head + rest;
    forall j, k | 0 <= j < k < |r| ensures r[j].0 < r[k].0 {
      if j >= |head| {
        assert r[j] == rest[j - |head|] && r[k] == rest[k - |head|];
      } else {
        assert r[k] == rest[k - 1];
      }
    }
  }

  /** One step of `_create_packets`: the first draw gives an arrival when it stays below the horizon. */
  lemma ArrivalsStep(draws: seq<Draw>, i: nat, now: real, t: real, horizon: real)
    requires i < |draws| && now < horizon && t == now + draws[i].interval
    ensures Arrivals(draws[i..], now, horizon) ==
      (if t < horizon then [(t, draws[i])] else []) + Arrivals(draws[i + 1..], t, horizon)
  {
    assert draws[i..][1..] == draws[i + 1..];
  }

  // ------------------------------------------- a time compared with an event

  /**
   * The two kinds of value `_draw_events` compares when it looks for more
   * events at the same time: the time of the next event, a number, and the
   * event it drew first, an event object rather than its time.
   */
  datatype PyValue = Num(x: real) | Ev(e: Event)

  /**
   * Python's `==` on them: numbers by value, events by time (the only field
   * taking part in comparisons); a number and an event are never equal,
   * neither type knowing the other.
   */
  predicate PyEquals(a: PyValue, b: PyValue) {
    match a
    case Num(x) => b.Num? && b.x == x
    case Ev(e) => b.Ev? && b.e.time == e.time
  }

  // --------------------------------------------------------- non-aliasing

  lemma {:induction false} NoListObserver(ls: seq<seq<Observer>>)
    ensures forall p: Packet :: p !in ListObjs(ls)
    ensures forall c: Processor :: c !in ListObjs(ls)
    ensures forall s: EventSet :: s !in ListObjs(ls)
    ensures forall s: Scheduler :: s !in ListObjs(ls)
  {
    if ls != [] {
      NoListObserver(ls[..|ls| - 1]);
    }
  }

  /** The objects a scheduler keeps besides its queue. */
  predicate Foreign(o: object) {
    o is Packet || o is Processor || o is EventSet || o is Scheduler
  }

  /** A queue's footprint holds queues and observers only. */
  lemma NotInQueue(d: Discipline)
    ensures forall o :: o in d.Repr() ==> !Foreign(o)
  {
    if d.Wrr? {
      NoListObserver(ObserverLists(d.w.queues));
    }
  }

  /** The queue objects themselves are queues only. */
  lemma NotInCore(d: Discipline)
    ensures forall c: Processor :: c !in d.Core()
    ensures forall s: EventSet :: s !in d.Core()
    ensures forall s: Scheduler :: s !in d.Core()
    ensures forall p: Packet :: p !in d.Core()
  {
  }


  // ------------------------------------------------------------------- ledger

  /**
   * Where a packet stands: waiting (for its arrival, or in the queue),
   * dropped on arrival, or served by processor `index` since `start`.
   */
  datatype Stage = Waiting | Dropped | Serving(index: nat, start: real)

  /** A packet in service, and the time its service started. */
  datatype Job = Job(packet: Packet, start: real)

  /**
   * The scheduler's books: the stage of every packet created, the bag of
   * packets in the queue and, per processor, the job it serves (none when
   * idle). They restate the state held by the objects, so that what the
   * event loop keeps invariant can be stated and proved on values.
   */
  datatype Books = Books(stage: map<Packet, Stage>, queued: multiset<Packet>, serving: seq<Option<Job>>)

  /** The books of a scheduler with `n` idle processors and no packets. */
  function Opening(n: nat): (b: Books)
    ensures |b.serving| == n && IdleBefore(b.serving, n) == n
  {
    var b := Books(map[], multiset{}, seq(n, _ => None));
    AllIdle(b.serving, n);
    b
  }

  /** Idle slots are all counted idle. */
  lemma {:induction false} AllIdle<T>(slots: seq<Option<T>>, j: nat)
    requires j <= |slots| && forall k :: 0 <= k < |slots| ==> slots[k].None?
    ensures IdleBefore(slots, j) == j
  {
    if j > 0 {
      AllIdle(slots, j - 1);
    }
  }

  /** The arrival event of a packet. */
  function SpawnOf(p: Packet): Event {
    Event(p.enterTime, Spawn, p)
  }

  /** Concatenation is associative. */
  lemma Associative<T>(a: seq<T>, b: seq<T>, c: seq<T>)
    ensures (a + b) + c == a + (b + c)
  {
  }

  /** One more packet gives one more arrival event, at the end. */
  lemma SpawnEventsGrow(ps: seq<Packet>, p: Packet)
    ensures SpawnEvents(ps + [p]) == SpawnEvents(ps) + [SpawnOf(p)]
  {
  }

  /** The stages once the packets `ps` are made, each waiting for its arrival. */
  function Enter(stage: map<Packet, Stage>, ps: seq<Packet>): map<Packet, Stage>
    decreases |ps|
  {
    if ps == [] then stage else Enter(stage, ps[..|ps| - 1])[ps[|ps| - 1] := Waiting]
  }

  /** The books once the packets `ps` are made. */
  function CreateAll(b: Books, ps: seq<Packet>): Books {
    b.(stage := Enter(b.stage, ps))
  }

  /** The packets made are waiting; the stage of every other packet is as it was. */
  lemma {:induction false} EnterStage(stage: map<Packet, Stage>, ps: seq<Packet>)
    ensures forall p :: p in Enter(stage, ps) ==> p in stage || p in ps
    ensures forall p :: p in stage || p in ps ==> p in Enter(stage, ps)
    ensures forall p :: p in ps ==> Enter(stage, ps)[p] == Waiting
    ensures forall p :: p in stage && p !in ps ==> Enter(stage, ps)[p] == stage[p]
    decreases |ps|
  {
    if ps != [] {
      EnterStage(stage, ps[..|ps| - 1]);
      assert ps == ps[..|ps| - 1] + [ps[|ps| - 1]];
    }
  }

  /** The last of distinct packets is none of the others, which stay distinct. */
  lemma LastOfDistinct(ps: seq<Packet>, init: seq<Packet>, p: Packet)
    requires ps != [] && init == ps[..|ps| - 1] && p == ps[|ps| - 1]
    requires forall j, k :: 0 <= j < k < |ps| ==> ps[j] != ps[k]
    ensures ps == init + [p] && p !in init
    ensures forall j, k :: 0 <= j < k < |init| ==> init[j] != init[k]
    ensures forall k :: 0 <= k < |init| ==> init[k] == ps[k]
  {
    forall k | 0 <= k < |init| ensures init[k] != p {
      assert init[k] == ps[k];
    }
  }

  /** The bag of a concatenation joins the bags of its parts. */
  lemma BagOfJoin(a: seq<Event>, c: seq<Event>)
    ensures multiset(a + c) == multiset(a) + multiset(c)
  {
  }

  /** The bag of arrival events of one more packet. */
  lemma SpawnBagGrows(m: multiset<Event>, ps: seq<Packet>, p: Packet)
    ensures m + multiset(SpawnEvents(ps + [p])) == (m + multiset(SpawnEvents(ps))) + multiset{SpawnOf(p)}
  {
    SpawnEventsGrow(ps, p);
  }

  /** Making distinct new packets, each arriving before the horizon, keeps the books right. */
  lemma {:induction false} CreateAllKeeps(b: Books, m: multiset<Event>, ps: seq<Packet>, horizon: real)
    requires Ok(b, m, horizon)
    requires forall j, k :: 0 <= j < k < |ps| ==> ps[j] != ps[k]
    requires forall k :: 0 <= k < |ps| ==> ps[k] !in b.stage && ps[k].enterTime < horizon
    ensures Ok(CreateAll(b, ps), m + multiset(SpawnEvents(ps)), horizon)
    decreases |ps|
  {
    if ps != [] {
      var init, p := ps[..|ps| - 1], ps[|ps| - 1];
      LastOfDistinct(ps, init, p);
      CreateAllKeeps(b, m, init, horizon);
      EnterStage(b.stage, init);
      SpawnBagGrows(m, init, p);
      CreateKeeps(CreateAll(b, init), m + multiset(SpawnEvents(init)), p, horizon);
    }
  }

  /** The arrival events of the packets, in order. */
  function SpawnEvents(ps: seq<Packet>): (r: seq<Event>)
    ensures |r| == |ps| && forall k :: 0 <= k < |ps| ==> r[k] == SpawnOf(ps[k])
  {
    seq(|ps|, k requires 0 <= k < |ps| => SpawnOf(ps[k]))
  }

  /** `p` is the packet made for arrival `a`: the drawn data, not yet dispatched or dropped. */
  ghost predicate Made(p: Packet, a: (real, Draw), horizon: real)
    reads p
  {
    Drawn(p, a, horizon) && !p.dropped && p.startTime == None && p.processorIndex == None
  }

  /** `p` carries the data drawn for arrival `a`. */
  predicate Drawn(p: Packet, a: (real, Draw), horizon: real) {
    && p.simulationTime == horizon && p.enterTime == a.0
    && p.priority == a.1.priority && p.processTime == a.1.processTime
  }

  /** The packets `all` are those `before`, then one per arrival in `arrivals`, carrying its data. */
  ghost predicate Generated(all: seq<Packet>, before: seq<Packet>, arrivals: seq<(real, Draw)>, horizon: real) {
    && |all| == |before| + |arrivals| && all[..|before|] == before
    && forall k :: 0 <= k < |arrivals| ==> Drawn(all[|before| + k], arrivals[k], horizon)
  }

  /** Packets made, one per arrival, are waiting and carry their data; they follow those made `before`. */
  lemma MadeAfter(before: seq<Packet>, created: seq<Packet>, arrivals: seq<(real, Draw)>, horizon: real)
    requires |created| == |arrivals|
    requires forall k :: 0 <= k < |arrivals| ==> arrivals[k].0 < horizon && Made(created[k], arrivals[k], horizon)
    ensures forall k :: 0 <= k < |created| ==> Mirrors(created[k], Waiting) && created[k].enterTime < horizon
    ensures Generated(before + created, before, arrivals, horizon)
  {
    forall k | 0 <= k < |arrivals| ensures Drawn((before + created)[|before| + k], arrivals[k], horizon) {
      assert (before + created)[|before| + k] == created[k];
    }
  }

  /** Where a packet ended up: dropped, started, or still in the queue holding `queued`, and only one of these. */
  ghost predicate Outcome(p: Packet, queued: seq<Packet>)
    reads p
  {
    || (p.dropped && p.startTime == None && p !in queued)
    || (!p.dropped && p.startTime.Some? && p !in queued)
    || (!p.dropped && p.startTime == None && p in queued)
  }

  /** The completion event of a packet served from `start` on. */
  function DoneOf(p: Packet, start: real): Event {
    Event(start + p.processTime, Done, p)
  }

  /**
   * A pending event agrees with the books: an arrival is at its packet's
   * enter time, before the horizon, for a waiting packet; a completion is at
   * its packet's end time, for the job its processor serves.
   */
  ghost predicate Fits(b: Books, e: Event, horizon: real) {
    && e.packet in b.stage
    && (match e.eventType
        case Spawn => e == SpawnOf(e.packet) && e.time < horizon && b.stage[e.packet] == Waiting
        case Done =>
          && b.stage[e.packet].Serving?
          && var s := b.stage[e.packet];
          && e == DoneOf(e.packet, s.start)
          && s.index < |b.serving| && b.serving[s.index] == Some(Job(e.packet, s.start)))
  }

  /**
   * What the event loop keeps true of the books and the bag `m` of pending
   * events: each event is pending once and fits the books; a queued packet
   * is waiting, queued once and no longer awaits its arrival; a waiting
   * packet awaits its arrival or is queued.
   */
  ghost predicate Ok(b: Books, m: multiset<Event>, horizon: real) {
    && (forall e :: e in m ==> m[e] == 1 && Fits(b, e, horizon))
    && (forall p :: p in b.queued ==>
          p in b.stage && b.stage[p] == Waiting && b.queued[p] == 1 && SpawnOf(p) !in m)
    && (forall p :: p in b.stage && b.stage[p] == Waiting ==> SpawnOf(p) in m || p in b.queued)
  }

  /** `_create_packets` makes `p`, which waits for its arrival. */
  function Create(b: Books, p: Packet): Books {
    b.(stage := b.stage[p := Waiting])
  }

  /** An arrival: the packet is queued, or dropped. */
  function Arrive(b: Books, p: Packet, added: bool): Books {
    if added then b.(queued := b.queued + multiset{p}) else b.(stage := b.stage[p := Dropped])
  }

  /** An arrival books a packet already on stage: no packet joins or leaves the books. */
  lemma ArriveKeys(b: Books, p: Packet, added: bool)
    requires p in b.stage
    ensures Arrive(b, p, added).stage.Keys == b.stage.Keys
  {
  }

  /** A completion on processor `i`, which is idle again. */
  function Complete(b: Books, i: nat): Books
    requires i < |b.serving|
  {
    b.(serving := b.serving[i := None])
  }

  /** A dispatch: `p` leaves the queue and is served by processor `i` from `start` on. */
  function Start(b: Books, p: Packet, i: nat, start: real): Books
    requires i < |b.serving|
  {
    Books(b.stage[p := Serving(i, start)], b.queued - multiset{p}, b.serving[i := Some(Job(p, start))])
  }

  /** Creating a packet, with its arrival event, keeps the books right. */
  lemma CreateKeeps(b: Books, m: multiset<Event>, p: Packet, horizon: real)
    requires Ok(b, m, horizon) && p !in b.stage && p.enterTime < horizon
    ensures Ok(Create(b, p), m + multiset{SpawnOf(p)}, horizon)
  {
    var b', m' := Create(b, p), m + multiset{SpawnOf(p)};
    assert SpawnOf(p) !in m;
    forall e | e in m' ensures m'[e] == 1 && Fits(b', e, horizon) {
      if e != SpawnOf(p) {
        assert e in m && e.packet != p;
      }
    }
  }

  /** Applying an arrival, admitted or dropped, keeps the books right. */
  lemma ArriveKeeps(b: Books, m: multiset<Event>, e: Event, added: bool, horizon: real)
    requires Ok(b, m + multiset{e}, horizon) && e.eventType == Spawn
    ensures Ok(Arrive(b, e.packet, added), m, horizon)
  {
    var p, m0, b' := e.packet, m + multiset{e}, Arrive(b, e.packet, added);
    assert e in m0 && e == SpawnOf(p) && e !in m;
    assert p !in b.queued;
    forall f | f in m ensures m[f] == 1 && Fits(b', f, horizon) {
      assert f in m0 && f != e;
      assert f.packet != p;
    }
    forall q | q in b'.stage && b'.stage[q] == Waiting ensures SpawnOf(q) in m || q in b'.queued {
      assert q in b.stage && b.stage[q] == Waiting;
    }
  }

  /** Applying a completion, which idles its processor, keeps the books right. */
  lemma CompleteKeeps(b: Books, m: multiset<Event>, e: Event, horizon: real)
    requires Ok(b, m + multiset{e}, horizon) && e.eventType == Done
    ensures e.packet in b.stage && b.stage[e.packet].Serving?
    ensures var s := b.stage[e.packet];
      s.index < |b.serving| && b.serving[s.index] == Some(Job(e.packet, s.start)) && e.time == s.start + e.packet.processTime
    ensures Ok(Complete(b, b.stage[e.packet].index), m, horizon)
  {
    var m0 := m + multiset{e};
    assert e in m0 && e !in m;
    var i := b.stage[e.packet].index;
    var b' := Complete(b, i);
    forall f | f in m ensures m[f] == 1 && Fits(b', f, horizon) {
      assert f in m0 && f != e;
    }
  }

  /** Discarding a completion keeps the books right. */
  lemma DiscardKeeps(b: Books, m: multiset<Event>, e: Event, horizon: real)
    requires Ok(b, m + multiset{e}, horizon) && e.eventType == Done
    ensures Ok(b, m, horizon)
  {
    var m0 := m + multiset{e};
    assert e in m0 && e !in m;
    forall f | f in m ensures m[f] == 1 && Fits(b, f, horizon) {
      assert f in m0 && f != e;
    }
    forall q | q in b.stage && b.stage[q] == Waiting ensures SpawnOf(q) in m || q in b.queued {
      if SpawnOf(q) in m0 {
        assert SpawnOf(q) != e;
      }
    }
  }

  /** Dispatching a queued packet to an idle processor, with its completion event, keeps the books right. */
  lemma StartKeeps(b: Books, m: multiset<Event>, p: Packet, i: nat, start: real, horizon: real)
    requires Ok(b, m, horizon) && p in b.queued && i < |b.serving| && b.serving[i] == None
    ensures Ok(Start(b, p, i, start), m + multiset{DoneOf(p, start)}, horizon)
  {
    var b', d := Start(b, p, i, start), DoneOf(p, start);
    var m' := m + multiset{d};
    assert d !in m;
    forall f | f in m' ensures m'[f] == 1 && Fits(b', f, horizon) {
      if f != d {
        assert f in m && f.packet != p;
      }
    }
    forall q | q in b'.queued ensures q in b'.stage && b'.stage[q] == Waiting && b'.queued[q] == 1 && SpawnOf(q) !in m' {
      assert q in b.queued && q != p;
    }
  }

  /** One more packet served from `start` on gives one more completion event, at the end. */
  lemma DoneEventsGrow(es: seq<Event>, ps: seq<Packet>, p: Packet, start: real)
    ensures es + DoneEvents(ps + [p], start) == es + DoneEvents(ps, start) + [DoneOf(p, start)]
  {
    assert DoneEvents(ps + [p], start) == DoneEvents(ps, start) + [DoneOf(p, start)];
  }

  /** Giving slot `i` a job keeps every slot up to `i` occupied. */
  lemma ServingPrefix(slots: seq<Option<Job>>, slots': seq<Option<Job>>, i: nat, job: Option<Job>)
    requires i < |slots| && job.Some? && slots' == slots[i := job] && forall j :: 0 <= j < i ==> slots[j].Some?
    ensures forall j :: 0 <= j < i + 1 ==> slots'[j].Some?
  {
  }

  /** The smaller of two counts. */
  function Min(x: nat, y: nat): nat {
    if x <= y then x else y
  }

  /**
   * The books `b` after the packets `started` went, in order, to the
   * processors `slots` from `start` on, starting from the books `b0` and
   * among the processors below `n`: the k-th slot is the k-th processor
   * idle in `b0`, its packet was waiting and is now served there, and
   * nothing else moved.
   */
  ghost predicate Assigned(b0: Books, b: Books, started: seq<Packet>, slots: seq<nat>, start: real, n: nat) {
    && n <= |b0.serving| && |b.serving| == |b0.serving|
    && |started| == |slots|
    && b.stage.Keys == b0.stage.Keys && b.queued + multiset(started) == b0.queued
    && (forall k :: 0 <= k < |slots| ==>
          && slots[k] < n && b0.serving[slots[k]] == None && IdleBefore(b0.serving, slots[k]) == k
          && started[k] in b0.stage && b0.stage[started[k]] == Waiting
          && b.stage[started[k]] == Serving(slots[k], start) && b.serving[slots[k]] == Some(Job(started[k], start)))
    && (forall p :: p in b0.stage && p !in started ==> b.stage[p] == b0.stage[p])
    && (forall j :: 0 <= j < |b0.serving| && j !in slots ==> b.serving[j] == b0.serving[j])
  }

  /** Nothing assigned yet. */
  lemma AssignedNone(b0: Books, start: real, n: nat)
    requires n <= |b0.serving|
    ensures Assigned(b0, b0, [], [], start, n)
  {
  }

  /** What was assigned below `n` was assigned below any larger bound. */
  lemma AssignedWiden(b0: Books, b: Books, started: seq<Packet>, slots: seq<nat>, start: real, n: nat, m: nat)
    requires Assigned(b0, b, started, slots, start, n) && n <= m <= |b0.serving|
    ensures Assigned(b0, b, started, slots, start, m)
  {
  }

  /** Passing a processor that is busy assigns nothing. */
  lemma AssignedSkip(b0: Books, b: Books, started: seq<Packet>, slots: seq<nat>, start: real, n: nat)
    requires Assigned(b0, b, started, slots, start, n) && n < |b0.serving| && b.serving[n].Some?
    requires |slots| == IdleBefore(b0.serving, n)
    ensures Assigned(b0, b, started, slots, start, n + 1) && |slots| == IdleBefore(b0.serving, n + 1)
  {
    assert n !in slots;
  }

  /**
   * `Assigned` while scanning: every idle processor below `n` has had its
   * packet, so every processor below `n` now serves a job.
   */
  ghost predicate Filled(b0: Books, b: Books, started: seq<Packet>, slots: seq<nat>, start: real, n: nat) {
    && Assigned(b0, b, started, slots, start, n)
    && |slots| == IdleBefore(b0.serving, n)
    && forall j :: 0 <= j < n ==> b.serving[j].Some?
  }

  /** The scan hands the idle processor `n` the waiting queued packet `p`. */
  lemma FilledStart(b0: Books, b: Books, started: seq<Packet>, slots: seq<nat>, start: real, n: nat, p: Packet)
    requires Filled(b0, b, started, slots, start, n) && n < |b0.serving| && b.serving[n] == None
    requires p in b.queued && p in b.stage && b.stage[p] == Waiting
    ensures Filled(b0, Start(b, p, n, start), started + [p], slots + [n], start, n + 1)
  {
    AssignedStart(b0, b, started, slots, start, n, p);
    ServingPrefix(b.serving, Start(b, p, n, start).serving, n, Some(Job(p, start)));
  }

  /**
   * Where the scan stopped: after every processor, or with the queue's
   * `length` packets all handed out. Either way each processor that was
   * idle got a packet while packets lasted.
   */
  lemma FilledCount(b0: Books, b: Books, started: seq<Packet>, slots: seq<nat>, start: real, n: nat, length: nat)
    requires Filled(b0, b, started, slots, start, n) && |started| <= length
    requires n == |b0.serving| || |started| == length
    ensures Assigned(b0, b, started, slots, start, |b0.serving|)
    ensures |started| == Min(length, IdleBefore(b0.serving, |b0.serving|))
  {
    if n < |b0.serving| {
      IdleBeforeGrows(b0.serving, n, |b0.serving|);
      AssignedWiden(b0, b, started, slots, start, n, |b0.serving|);
    }
  }

  /** The scan passes the busy processor `n`. */
  lemma FilledSkip(b0: Books, b: Books, started: seq<Packet>, slots: seq<nat>, start: real, n: nat)
    requires Filled(b0, b, started, slots, start, n) && n < |b0.serving| && b.serving[n].Some?
    ensures Filled(b0, b, started, slots, start, n + 1)
  {
    AssignedSkip(b0, b, started, slots, start, n);
  }

  /** Handing the waiting queued packet `p` to the idle processor `n`. */
  lemma AssignedStart(b0: Books, b: Books, started: seq<Packet>, slots: seq<nat>, start: real, n: nat, p: Packet)
    requires Assigned(b0, b, started, slots, start, n) && n < |b0.serving| && b.serving[n] == None
    requires p in b.queued && p in b.stage && b.stage[p] == Waiting
    requires |slots| == IdleBefore(b0.serving, n)
    ensures Assigned(b0, Start(b, p, n, start), started + [p], slots + [n], start, n + 1)
    ensures |slots| + 1 == IdleBefore(b0.serving, n + 1)
  {
    assert n !in slots;
    assert p !in started by {
      forall k | 0 <= k < |started| ensures started[k] != p {
        assert b.stage[started[k]] == Serving(slots[k], start);
      }
    }
    var b' := Start(b, p, n, start);
    var started', slots' := started + [p], slots + [n];
    assert b0.serving[n] == None && p in b0.stage && b0.stage[p] == Waiting;
    assert b.queued == (b.queued - multiset{p}) + multiset{p};
    assert b'.queued + multiset(started') == b0.queued;
    assert b'.stage.Keys == b0.stage.Keys;
    forall k | 0 <= k < |slots'|
      ensures slots'[k] < n + 1 && b0.serving[slots'[k]] == None && IdleBefore(b0.serving, slots'[k]) == k
      ensures started'[k] in b0.stage && b0.stage[started'[k]] == Waiting
      ensures b'.stage[started'[k]] == Serving(slots'[k], start) && b'.serving[slots'[k]] == Some(Job(started'[k], start))
    {
      if k < |slots| {
        assert slots'[k] == slots[k] && started'[k] == started[k] && slots[k] != n && started[k] != p;
      }
    }
    forall q | q in b0.stage && q !in started' ensures b'.stage[q] == b0.stage[q] {
      assert q !in started;
    }
    forall j | 0 <= j < |b0.serving| && j !in slots' ensures b'.serving[j] == b0.serving[j] {
      assert j !in slots;
    }
  }

  /** With no event pending, a packet waits exactly when it is queued. */
  lemma Settled(b: Books, horizon: real)
    requires Ok(b, multiset{}, horizon)
    ensures forall p :: p in b.stage ==> (b.stage[p] == Waiting <==> p in b.queued)
  {
  }

  /** The packet's fields say what its stage in the books says. */
  ghost predicate Mirrors(p: Packet, s: Stage)
    reads p
  {
    match s
    case Waiting => !p.dropped && p.startTime == None && p.processorIndex == None
    case Dropped => p.dropped && p.startTime == None && p.processorIndex == None
    case Serving(i, t) => !p.dropped && p.startTime == Some(t) && p.processorIndex == Some(i)
  }

  /** The start time a processor records for the job it serves. */
  function StartOf(slot: Option<Job>): Option<real> {
    if slot.Some? then Some(slot.value.start) else None
  }

  /** The completion events of the packets, all served from `start` on, in order. */
  function DoneEvents(ps: seq<Packet>, start: real): (r: seq<Event>)
    ensures |r| == |ps| && forall k :: 0 <= k < |ps| ==> r[k] == DoneOf(ps[k], start)
  {
    seq(|ps|, k requires 0 <= k < |ps| => DoneOf(ps[k], start))
  }

  /**
   * Once `e`, an earliest event of `before`, is drawn, the events left are
   * no earlier than any `clock` not after `e`.
   */
  lemma AfterEarliest(before: seq<Event>, after: seq<Event>, e: Event, clock: real)
    requires Earliest(e, before) && multiset(before) == multiset(after) + multiset{e} && clock <= e.time
    ensures forall f :: f in after ==> clock <= f.time
  {
    forall f | f in after ensures clock <= f.time {
      assert f in multiset(after);
      assert f in multiset(before);
    }
  }

  /** Events none earlier than `clock`, then the arrivals of packets entering no earlier, are none earlier. */
  lemma SpawnsNotBefore(es: seq<Event>, ps: seq<Packet>, clock: real)
    requires forall e :: e in es ==> clock <= e.time
    requires forall k :: 0 <= k < |ps| ==> clock <= ps[k].enterTime
    ensures forall e :: e in es + SpawnEvents(ps) ==> clock <= e.time
  {
    forall e | e in es + SpawnEvents(ps) ensures clock <= e.time {
      if e !in es {
        var k :| 0 <= k < |ps| && SpawnEvents(ps)[k] == e;
      }
    }
  }

  /** Events none earlier than `clock`, then completions of services started at `clock`, are none earlier. */
  lemma DonesNotBefore(es: seq<Event>, ps: seq<Packet>, clock: real)
    requires forall e :: e in es ==> clock <= e.time
    requires forall k :: 0 <= k < |ps| ==> ps[k].processTime >= 0.0
    ensures forall e :: e in es + DoneEvents(ps, clock) ==> clock <= e.time
  {
    forall e | e in es + DoneEvents(ps, clock) ensures clock <= e.time {
      if e !in es {
        var k :| 0 <= k < |ps| && DoneEvents(ps, clock)[k] == e;
      }
    }
  }

  /** The arrival events pending. */
  ghost function SpawnsIn(m: multiset<Event>): set<Event> {
    set e | e in m && e.eventType == Spawn
  }

  /** Taking a pending arrival out leaves one arrival fewer. */
  lemma SpawnTaken(m: multiset<Event>, e: Event)
    requires e.eventType == Spawn && e !in m
    ensures |SpawnsIn(m + multiset{e})| == |SpawnsIn(m)| + 1
  {
    assert SpawnsIn(m + multiset{e}) == SpawnsIn(m) + {e};
  }

  /** Taking a completion out, or adding completions, leaves the arrivals as they are. */
  lemma SpawnsAmongDone(m: multiset<Event>, ds: seq<Event>)
    requires forall k :: 0 <= k < |ds| ==> ds[k].eventType == Done
    ensures SpawnsIn(m + multiset(ds)) == SpawnsIn(m)
  {
    forall e | e in SpawnsIn(m + multiset(ds)) ensures e in SpawnsIn(m) {
      if e !in m {
        assert e in multiset(ds) && e in ds;
      }
    }
  }

  /**
   * A turn of the event loop leaves less to do: the event drawn, `e`, left
   * the pending events `m0` (leaving `m1`); the queue, holding `l0`
   * packets, took at most the arrival drawn (holding `l1`), then handed
   * `|ds|` packets to processors, whose completions `ds` became pending.
   */
  lemma Shrinks(m0: multiset<Event>, m1: multiset<Event>, e: Event, ds: seq<Event>, l0: nat, l1: nat, l2: nat)
    requires m0 == m1 + multiset{e} && e !in m1
    requires forall k :: 0 <= k < |ds| ==> ds[k].eventType == Done
    requires l1 <= l0 + (if e.eventType == Spawn then 1 else 0) && l2 + |ds| == l1
    ensures 3 * |SpawnsIn(m1 + multiset(ds))| + 2 * l2 + |m1 + multiset(ds)| < 3 * |SpawnsIn(m0)| + 2 * l0 + |m0|
  {
    SpawnsAmongDone(m1, ds);
    if e.eventType == Spawn {
      SpawnTaken(m1, e);
    } else {
      SpawnsAmongDone(m1, [e]);
      assert multiset([e]) == multiset{e};
    }
  }

  // ------------------------------------------------------------------ mirrors

  /** Distinct, sound processors, each busy since the start of the job `serving` gives it. */
  ghost predicate ProcessorsMirrored(processors: seq<Processor>, serving: seq<Option<Job>>)
    reads processors
  {
    && |serving| == |processors|
    && (forall i, j :: 0 <= i < j < |processors| ==> processors[i] != processors[j])
    && (forall i :: 0 <= i < |processors| ==> processors[i].Valid() && processors[i].startTime == StartOf(serving[i]))
  }

  /** Each packet in `stage` shows its stage in its fields. */
  ghost predicate PacketsMirrored(stage: map<Packet, Stage>)
    reads stage.Keys
  {
    forall p :: p in stage ==> Mirrors(p, stage[p])
  }

  /** Every packet recorded has a stage. */
  predicate Recorded(packets: seq<Packet>, stage: map<Packet, Stage>) {
    forall i :: 0 <= i < |packets| ==> packets[i] in stage
  }

  /**
   * Processor `i` went from busy to idle and its account grew by `amount`;
   * the other processors are as they were.
   */
  twostate predicate Freed(processors: seq<Processor>, i: nat, amount: real)
    requires i < |processors|
    reads processors
  {
    && old(processors[i].isBusy) && !processors[i].isBusy
    && processors[i].account == old(processors[i].account) + amount
    && (forall j :: 0 <= j < |processors| && j != i ==> unchanged(processors[j]))
  }

  /**
   * `x` is `(processors, serving)`: processors left alone stay mirrored by
   * the jobs `serving` they had.
   */
  twostate lemma ProcessorsKept(x: (seq<Processor>, seq<Option<Job>>))
    requires old(ProcessorsMirrored(x.0, x.1))
    requires forall i :: 0 <= i < |x.0| ==> unchanged(x.0[i])
    ensures ProcessorsMirrored(x.0, x.1)
  {
    var processors, serving := x.0, x.1;
  }

  /**
   * `x` is `(processors, serving, i, job)`: processor `i`, now serving `job`,
   * and the others, left alone, stay mirrored by the jobs `serving` updated
   * at `i`.
   */
  twostate lemma ProcessorMoved(x: (seq<Processor>, seq<Option<Job>>, nat, Option<Job>))
    requires old(ProcessorsMirrored(x.0, x.1)) && x.2 < |x.0|
    requires x.0[x.2].Valid() && x.0[x.2].startTime == StartOf(x.3)
    requires forall j :: 0 <= j < |x.0| && j != x.2 ==> unchanged(x.0[j])
    ensures |x.1| == |x.0| && ProcessorsMirrored(x.0, x.1[x.2 := x.3])
  {
    var processors, serving, i, job := x.0, x.1, x.2, x.3;
  }

  /** Packets left alone stay mirrored. */
  twostate lemma PacketsKept(stage: map<Packet, Stage>)
    requires old(PacketsMirrored(stage))
    requires forall p :: p in stage ==> unchanged(p)
    ensures PacketsMirrored(stage)
  {
  }

  /**
   * `x` is `(stage, p, next)`: packet `p`, now in stage `next`, and the other
   * packets of `stage`, left alone, stay mirrored.
   */
  twostate lemma PacketMoved(x: (map<Packet, Stage>, Packet, Stage))
    requires old(PacketsMirrored(x.0)) && Mirrors(x.1, x.2)
    requires forall q :: q in x.0 && q != x.1 ==> unchanged(q)
    ensures PacketsMirrored(x.0[x.1 := x.2])
  {
    var stage, p, next := x.0, x.1, x.2;
  }

  /** Packets made, each mirrored as waiting, join stages that are mirrored. */
  lemma PacketsEntered(stage: map<Packet, Stage>, created: seq<Packet>)
    requires PacketsMirrored(stage)
    requires forall k :: 0 <= k < |created| ==> Mirrors(created[k], Waiting)
    ensures PacketsMirrored(Enter(stage, created))
  {
    EnterStage(stage, created);
    forall p | p in Enter(stage, created) ensures Mirrors(p, Enter(stage, created)[p]) {
      if p in created {
        var k :| 0 <= k < |created| && created[k] == p;
      } else {
        assert p in stage && Enter(stage, created)[p] == stage[p];
      }
    }
  }

  /** The packets recorded after those made join the stages. */
  lemma EnteredRecorded(packets: seq<Packet>, stage: map<Packet, Stage>, created: seq<Packet>)
    requires Recorded(packets, stage)
    ensures Recorded(packets + created, Enter(stage, created))
  {
    EnterStage(stage, created);
    forall i | 0 <= i < |packets + created| ensures (packets + created)[i] in Enter(stage, created) {
      if i >= |packets| {
        assert (packets + created)[i] == created[i - |packets|];
      } else {
        assert (packets + created)[i] == packets[i];
      }
    }
  }

  // ----------------------------------------------------------------- scheduler

  class Scheduler {
    const queue: Discipline
    const eventSet: EventSet
    const processors: seq<Processor>
    const simulationTime: real
    var allPackets: seq<Packet>

    /** The pending events, as a bag. */
    ghost function Pending(): multiset<Event>
      reads eventSet
    {
      multiset(eventSet.events)
    }

    /** The queue is sound and holds the packets `queued`. */
    ghost predicate QueueMirrored(queued: multiset<Packet>)
      reads queue.Core()
    {
      queue.Valid() && queued == multiset(queue.Packets())
    }

    /**
     * Each of the packets `keys` can be served: the queue can take it (a
     * composite has a child for its priority) and its service time is not
     * negative.
     */
    predicate Servable(keys: set<Packet>) {
      forall p :: p in keys ==> queue.Routes(p.priority) && p.processTime >= 0.0
    }

    /**
     * A draw `_create_packets` can make: an exponential draw is never
     * negative, and the queue can take its priority.
     */
    predicate Drawable(d: Draw) {
      queue.Routes(d.priority) && d.interval >= 0.0 && d.processTime >= 0.0
    }

    /** No pending event is earlier than `clock`. */
    ghost predicate NoneBefore(clock: real)
      reads eventSet
    {
      forall e :: e in eventSet.events ==> clock <= e.time
    }

    /** The objects agree with the books `b`, which are right for the bag `m` of pending events. */
    ghost predicate Holds(b: Books, m: multiset<Event>)
      reads this, processors, b.stage.Keys, queue.Core()
    {
      && Ok(b, m, simulationTime) && QueueMirrored(b.queued) && ProcessorsMirrored(processors, b.serving)
      && PacketsMirrored(b.stage) && Recorded(allPackets, b.stage)
    }

    /** Objects that agree with the books keep agreeing with them when the pending events change as the books allow. */
    lemma Rebook(b: Books, m: multiset<Event>, m': multiset<Event>)
      requires Holds(b, m) && Ok(b, m', simulationTime)
      ensures Holds(b, m')
    {
    }

    /** The invariant of the event loop, with the books `b`. */
    ghost predicate Valid(b: Books)
      reads this, eventSet, processors, b.stage.Keys, queue.Core()
    {
      Holds(b, Pending())
    }

    /** A scheduler over `queue` with `processors` idle processors and no packets yet. */
    constructor (queue: Discipline, processors: nat, simulationTime: real)
      requires queue.Valid() && queue.Empty()
      ensures queue.Valid() && queue.Empty() && fresh(eventSet)
      ensures this.queue == queue && this.simulationTime == simulationTime
      ensures |this.processors| == processors && allPackets == [] && eventSet.events == []
      ensures forall i, j :: 0 <= i < j < processors ==> this.processors[i] != this.processors[j]
      ensures forall i :: 0 <= i < processors ==> this.processors[i].Valid() && !this.processors[i].isBusy
      ensures forall i :: 0 <= i < processors ==> fresh(this.processors[i])
    {
      this.eventSet := new EventSet();
      var ps := MakeProcessors(processors);
      this.queue := queue;
      this.processors := ps;
      this.simulationTime := simulationTime;
      this.allPackets := [];
      new;
    }

    /** With no packet and no event, the objects agree with the opening books. */
    lemma Opened(n: nat)
      requires queue.Valid() && queue.Empty() && |processors| == n
      requires forall i, j :: 0 <= i < j < n ==> processors[i] != processors[j]
      requires forall i :: 0 <= i < n ==> processors[i].Valid() && !processors[i].isBusy
      requires allPackets == [] && eventSet.events == []
      ensures Valid(Opening(n)) && Servable(Opening(n).stage.Keys) && NoneBefore(0.0)
    {
      assert queue.Packets() == [];
      assert Pending() == multiset{};
    }

    /**
     * `_create_packets`: from time 0 the clock advances by each drawn gap;
     * while it stays below the horizon, a packet is made with the drawn
     * priority and service time, its arrival event is scheduled and it is
     * recorded.
     */
    method CreatePackets(draws: seq<Draw>) returns (ghost created: seq<Packet>)
      modifies this`allPackets, eventSet
      ensures var arrivals := Arrivals(draws, 0.0, simulationTime);
        && allPackets == old(allPackets) + created && |created| == |arrivals|
        && (forall k :: 0 <= k < |arrivals| ==> fresh(created[k]) && Made(created[k], arrivals[k], simulationTime))
        && eventSet.events == old(eventSet.events) + SpawnEvents(created)
        && (forall j, k :: 0 <= j < k < |created| ==> created[j] != created[k])
    {
      var currentTime := 0.0;
      var i := 0;
      ghost var made: seq<(real, Draw)> := [];
      created := [];
      while currentTime < simulationTime && i < |draws|
        invariant i <= |draws|
        invariant allPackets == old(allPackets) + created && |created| == |made|
        invariant Arrivals(draws, 0.0, simulationTime) == made + Arrivals(draws[i..], currentTime, simulationTime)
        invariant forall k :: 0 <= k < |made| ==> fresh(created[k]) && Made(created[k], made[k], simulationTime)
        invariant forall j, k :: 0 <= j < k < |created| ==> created[j] != created[k]
        invariant eventSet.events == old(eventSet.events) + SpawnEvents(created)
        decreases |draws| - i
      {
        var d := draws[i];
        ghost var now := currentTime;
        currentTime := currentTime + d.interval;
        ghost var head := if currentTime < simulationTime then [(currentTime, d)] else [];
        ghost var rest := Arrivals(draws[i + 1..], currentTime, simulationTime);
        ArrivalsStep(draws, i, now, currentTime, simulationTime);
        Associative(made, head, rest);
        if currentTime < simulationTime {
          var packet := new Packet(simulationTime, currentTime, d.processTime, d.priority);
          eventSet.AddEvent(Event(packet.enterTime, Spawn, packet));
          allPackets := allPackets + [packet];
          SpawnEventsGrow(created, packet);
          Associative(old(eventSet.events), SpawnEvents(created), [SpawnOf(packet)]);
          Associative(old(allPackets), created, [packet]);
          created := created + [packet];
        }
        made := made + head;
        assert Arrivals(draws, 0.0, simulationTime) == made + rest;
        i := i + 1;
        assert rest == Arrivals(draws[i..], currentTime, simulationTime);
      }
    }

    /**
     * `_draw_events`: the earliest event leaves the store; it is handed back
     * when it falls before the horizon and discarded otherwise. The test that
     * would extend the batch compares the next event's time with the event
     * itself, which Python never finds equal, so a batch holds at most one
     * event.
     */
    method DrawEvents(ghost b: Books) returns (r: Option<Event>, ghost e: Event)
      requires Valid(b) && !eventSet.Empty()
      modifies eventSet
      ensures Earliest(e, old(eventSet.events)) && old(Pending()) == Pending() + multiset{e}
      ensures r == if e.time < simulationTime then Some(e) else None
      ensures r.None? ==> e.eventType == Done
      ensures r.Some? ==> Holds(b, old(Pending()))
      ensures r.None? ==> Valid(b)
      ensures queue.Repr() == old(queue.Repr()) && queue.Length() == old(queue.Length())
    {
      NotInCore(queue);
      ghost var m0 := Pending();
      var event := eventSet.Pop();
      e := event;
      if event.time >= simulationTime {
        r := None;
      } else {
        r := Some(event);
        if !eventSet.Empty() {
          var next := eventSet.Top();
          if PyEquals(Num(next.time), Ev(event)) {
            assert false;
          }
        }
      }
      EventsMoved((this, b, m0));
      QueueKept((queue, eventSet));
      assert m0 == Pending() + multiset{e} && e in m0;
      if r.None? {
        DiscardKeeps(b, Pending(), e, simulationTime);
        Rebook(b, m0, Pending());
      }
    }

    /** `_apply_event` for an arrival: the queue admits the packet, or the packet is marked dropped. */
    method Arrival(e: Event) returns (added: bool)
      requires queue.Valid() && queue.Routes(e.packet.priority)
      modifies e.packet, queue.Repr()
      ensures queue.Valid() && queue.Repr() == old(queue.Repr())
      ensures multiset(queue.Packets()) == old(multiset(queue.Packets())) + if added then multiset{e.packet} else multiset{}
      ensures queue.Length() == old(queue.Length()) + if added then 1 else 0
      ensures if added then unchanged(e.packet) else
        (e.packet.dropped && e.packet.startTime == old(e.packet.startTime) && e.packet.processorIndex == old(e.packet.processorIndex))
      ensures eventSet.events == old(eventSet.events)
    {
      NotInQueue(queue);
      NotInCore(queue);
      var packet := e.packet;
      added := queue.AddPacket(packet, e.time);
      label Added:
      if !added {
        packet.dropped := true;
        QueueKept@Added((queue, packet));
      }
    }

    /** An arrival keeps the books right. */
    method Admit(e: Event, ghost b: Books) returns (added: bool, ghost b': Books)
      requires Holds(b, Pending() + multiset{e}) && e.eventType == Spawn && queue.Routes(e.packet.priority)
      modifies e.packet, queue.Repr()
      ensures Valid(b') && b' == Arrive(b, e.packet, added)
      ensures e.packet.dropped == !added
      ensures queue.Repr() == old(queue.Repr())
      ensures queue.Length() == old(queue.Length()) + if added then 1 else 0
      ensures b'.stage.Keys == b.stage.Keys && eventSet.events == old(eventSet.events)
    {
      NotInQueue(queue);
      ghost var rep := queue.Repr();
      assert e in Pending() + multiset{e};
      assert e.packet in b.stage;
      added := Arrival(e);
      Admitted((this, b, e, added, rep));
      b' := Arrive(b, e.packet, added);
      ArriveKeys(b, e.packet, added);
    }

    /**
     * `_apply_event` for a completion: the processor the packet names is
     * released at the event's time, its account growing by the service time.
     */
    method Release(e: Event, ghost b: Books) returns (ghost b': Books)
      requires Holds(b, Pending() + multiset{e}) && e.eventType == Done
      modifies processors
      ensures Valid(b')
      ensures e.packet.processorIndex.Some? && e.packet.processorIndex.value < |processors|
      ensures var i := e.packet.processorIndex.value;
        && i < |b.serving| && b' == Complete(b, i)
        && Freed(processors, i, e.packet.processTime)
      ensures queue.Repr() == old(queue.Repr()) && queue.Length() == old(queue.Length())
      ensures b'.stage.Keys == b.stage.Keys && eventSet.events == old(eventSet.events)
    {
      CompleteKeeps(b, Pending(), e, simulationTime);
      var i := e.packet.processorIndex.value;
      processors[i].ResetIsBusy(e.time);
      b' := Complete(b, i);
      ProcessorOnly((this, b, i));
      ProcessorMoved((processors, b.serving, i, None));
      PacketsKept(b.stage);
      QueueUnchanged(queue);
    }

    /**
     * One dispatch of `_fill_processors`: a packet leaves the queue for the
     * idle processor `i`, is stamped with the processor's index and the
     * start time `currentTime`, the processor turns busy, and the packet's
     * completion is scheduled at its end time.
     */
    method Dispatch(i: nat, currentTime: real, ghost b: Books) returns (packet: Packet, ghost b': Books)
      requires Valid(b) && i < |processors| && !processors[i].isBusy && !queue.Empty()
      modifies processors[i], queue.Repr(), eventSet, b.stage.Keys
      ensures Valid(b') && i < |b.serving| && b' == Start(b, packet, i, currentTime)
      ensures packet in b.queued && b.stage[packet] == Waiting && b.serving[i] == None
      ensures packet.processorIndex == Some(i) && packet.startTime == Some(currentTime) && !packet.dropped
      ensures processors[i].isBusy && processors[i].account == old(processors[i].account)
      ensures eventSet.events == old(eventSet.events) + [Event(currentTime + packet.processTime, Done, packet)]
      ensures queue.Repr() == old(queue.Repr()) && queue.Length() == old(queue.Length()) - 1
    {
      NotInQueue(queue);
      ghost var rep := queue.Repr();
      QueuedHeld(this, b);
      packet := Handover(i, currentTime, b.stage.Keys);
      b' := Start(b, packet, i, currentTime);
      Dispatched((this, b, packet, i, currentTime, rep));
    }

    /**
     * `_fill_processors`: when the queue holds packets, the processors are
     * scanned in index order and each idle one is handed a packet from the
     * queue, until the queue runs empty. The k-th packet handed out goes to
     * the k-th processor that was idle, as many as the queue held or as
     * there were idle processors, whichever is fewer.
     */
    method FillProcessors(currentTime: real, ghost b: Books) returns (ghost b': Books, ghost started: seq<Packet>, ghost slots: seq<nat>)
      requires Valid(b)
      modifies processors, queue.Repr(), eventSet, b.stage.Keys
      ensures Valid(b') && Assigned(b, b', started, slots, currentTime, |processors|)
      ensures |started| == Min(old(queue.Length()), IdleBefore(b.serving, |processors|))
      ensures queue.Repr() == old(queue.Repr()) && queue.Length() == old(queue.Length()) - |started|
      ensures eventSet.events == old(eventSet.events) + DoneEvents(started, currentTime)
      ensures queue.Empty() || forall j :: 0 <= j < |processors| ==> processors[j].isBusy
    {
      b', started, slots := b, [], [];
      AssignedNone(b, currentTime, |processors|);
      if queue.Empty() {
          return;
      }
      ghost var scanned;
      b', started, slots, scanned := Scan(currentTime, b);
      FilledCount(b, b', started, slots, currentTime, scanned, old(queue.Length()));
      if !queue.Empty() {
        AllServing(b');
      }
    }

    /**
     * The loop of `_fill_processors` over a queue that holds packets: it
     * stops after the last processor, or as soon as the queue runs empty,
     * having scanned the first `scanned` processors.
     */
    method Scan(currentTime: real, ghost b: Books)
      returns (ghost b': Books, ghost started: seq<Packet>, ghost slots: seq<nat>, ghost scanned: nat)
      requires Valid(b) && !queue.Empty()
      modifies processors, queue.Repr(), eventSet, b.stage.Keys
      ensures scanned <= |processors| && Valid(b')
      // stated as one fact, as the loop below carries it
      ensures Filled(b, b', started, slots, currentTime, scanned) == true
      ensures queue.Repr() == old(queue.Repr()) && queue.Length() == old(queue.Length()) - |started|
      ensures eventSet.events == old(eventSet.events) + DoneEvents(started, currentTime)
      ensures scanned == |processors| || queue.Empty()
    {
      b', started, slots := b, [], [];
      AssignedNone(b, currentTime, 0);
      assert Filled(b, b, [], [], currentTime, 0) == true;
      var i := 0;
      scanned := 0;
      while i < |processors|
        invariant scanned == i <= |processors| && Valid(b')
        // kept as one fact, which Visit's postcondition matches as a whole
        invariant Filled(b, b', started, slots, currentTime, i) == true
        invariant !queue.Empty() && queue.Repr() == old(queue.Repr()) && queue.Length() == old(queue.Length()) - |started|
        invariant eventSet.events == old(eventSet.events) + DoneEvents(started, currentTime)
      {
        var dispatched;
        b', started, slots, dispatched := Visit(i, currentTime, b, b', started, slots, old(queue.Length()), old(eventSet.events));
        scanned := i + 1;
        if dispatched && queue.Empty() {
          break;
        }
        i := i + 1;
      }
    }

    /**
     * One turn of the scan in `_fill_processors`: the processor `i`, if
     * idle, is handed a packet from the queue; a busy one is passed.
     */
    method Visit(i: nat, currentTime: real, ghost b: Books, ghost b1: Books, ghost started: seq<Packet>, ghost slots: seq<nat>,
                 ghost length: nat, ghost events: seq<Event>)
      returns (ghost b2: Books, ghost started': seq<Packet>, ghost slots': seq<nat>, dispatched: bool)
      requires i < |processors| && Valid(b1)
      // stated as one fact, as the loop of `Scan` carries it
      requires Filled(b, b1, started, slots, currentTime, i) == true
      requires !queue.Empty() && queue.Length() == length - |started|
      requires eventSet.events == events + DoneEvents(started, currentTime)
      modifies processors[i], queue.Repr(), eventSet, b1.stage.Keys
      ensures Valid(b2) && Filled(b, b2, started', slots', currentTime, i + 1)
      ensures dispatched <==> old(!processors[i].isBusy)
      ensures queue.Repr() == old(queue.Repr()) && queue.Length() == length - |started'|
      ensures dispatched || !queue.Empty()
      ensures eventSet.events == events + DoneEvents(started', currentTime)
    {
      b2, started', slots' := b1, started, slots;
      dispatched := !processors[i].isBusy;
      if dispatched {
        var packet;
        packet, b2 := Dispatch(i, currentTime, b1);
        FilledStart(b, b1, started, slots, currentTime, i, packet);
        DoneEventsGrow(events, started, packet, currentTime);
        started', slots' := started + [packet], slots + [i];
      } else {
        BusyServing(b1, i);
        FilledSkip(b, b1, started, slots, currentTime, i);
      }
    }

    /** A busy processor serves a job. */
    lemma BusyServing(b: Books, i: nat)
      requires ProcessorsMirrored(processors, b.serving) && i < |processors| && processors[i].isBusy
      ensures b.serving[i].Some?
    {
      assert processors[i].Valid() && processors[i].startTime == StartOf(b.serving[i]);
    }

    /** Processors that all serve a job are all busy. */
    lemma AllServing(b: Books)
      requires ProcessorsMirrored(processors, b.serving)
      requires forall j :: 0 <= j < |processors| ==> b.serving[j].Some?
      ensures forall j :: 0 <= j < |processors| ==> processors[j].isBusy
    {
      forall j | 0 <= j < |processors| ensures processors[j].isBusy {
        assert processors[j].Valid() && processors[j].startTime == StartOf(b.serving[j]);
      }
    }

    /** The steps of a dispatch, on the objects. */
    method Handover(i: nat, currentTime: real, ghost held: set<Packet>) returns (packet: Packet)
      requires queue.Valid() && !queue.Empty() && i < |processors| && processors[i].Valid()
      requires forall q :: q in queue.Packets() ==> q in held
      modifies processors[i], queue.Repr(), eventSet, held
      ensures packet in held && packet in old(queue.Packets())
      ensures forall q :: q in held && q != packet ==> unchanged(q)
      ensures queue.Valid() && queue.Repr() == old(queue.Repr()) && queue.Length() == old(queue.Length()) - 1
      ensures old(multiset(queue.Packets())) == multiset(queue.Packets()) + multiset{packet}
      ensures packet.processorIndex == Some(i) && packet.startTime == Some(currentTime) && packet.dropped == old(packet.dropped)
      ensures processors[i].Valid() && processors[i].isBusy && processors[i].startTime == Some(currentTime)
      ensures processors[i].account == old(processors[i].account)
      ensures eventSet.events == old(eventSet.events) + [DoneOf(packet, currentTime)]
    {
      packet := TakeHead(currentTime, held);
      Stamp(packet, i, currentTime, held);
    }

    /** `queue.pop` on a queue known not to be empty. */
    method TakeHead(currentTime: real, ghost held: set<Packet>) returns (packet: Packet)
      requires queue.Valid() && !queue.Empty()
      requires forall q :: q in queue.Packets() ==> q in held
      modifies queue.Repr()
      ensures packet in held && packet in old(queue.Packets())
      ensures queue.Valid() && queue.Repr() == old(queue.Repr()) && queue.Length() == old(queue.Length()) - 1
      ensures old(multiset(queue.Packets())) == multiset(queue.Packets()) + multiset{packet}
      ensures unchanged(eventSet) && forall j :: 0 <= j < |processors| ==> unchanged(processors[j])
      ensures forall q :: q in held ==> unchanged(q)
    {
      NotInQueue(queue);
      var r := queue.Pop(currentTime);
      packet := r.value;
      assert packet in old(multiset(queue.Packets()));
    }

    /** The packet is stamped with processor `i` and the start time, the processor turns busy and the completion is scheduled. */
    method Stamp(packet: Packet, i: nat, currentTime: real, ghost held: set<Packet>)
      requires i < |processors| && processors[i].Valid()
      modifies packet, processors[i], eventSet
      ensures forall q :: q in held && q != packet ==> unchanged(q)
      ensures packet.processorIndex == Some(i) && packet.startTime == Some(currentTime) && packet.dropped == old(packet.dropped)
      ensures processors[i].Valid() && processors[i].isBusy && processors[i].startTime == Some(currentTime)
      ensures processors[i].account == old(processors[i].account)
      ensures eventSet.events == old(eventSet.events) + [DoneOf(packet, currentTime)]
      ensures queue.Valid() == old(queue.Valid()) && queue.Repr() == old(queue.Repr())
      ensures queue.Length() == old(queue.Length()) && queue.Packets() == old(queue.Packets())
    {
      packet.processorIndex := Some(i);
      packet.startTime := Some(currentTime);
      processors[i].SetIsBusy(currentTime);
      eventSet.AddEvent(Event(packet.EndTime(), Done, packet));
      QueueKeptBy((queue, packet, processors[i], eventSet));
    }

    /**
     * `_apply_event`: an arrival is offered to the queue and its packet is
     * marked dropped when refused; a completion releases the processor its
     * packet names. The two tests of the source are exclusive.
     */
    method ApplyEvent(e: Event, ghost b: Books) returns (ghost b': Books)
      requires Holds(b, Pending() + multiset{e}) && queue.Routes(e.packet.priority)
      modifies e.packet, queue.Repr(), processors
      ensures Valid(b') && b'.stage.Keys == b.stage.Keys && queue.Repr() == old(queue.Repr())
      ensures eventSet.events == old(eventSet.events)
      ensures e.eventType == Spawn ==>
        && b' == Arrive(b, e.packet, !e.packet.dropped)
        && queue.Length() == old(queue.Length()) + if e.packet.dropped then 0 else 1
      ensures e.eventType == Done ==>
        && e.packet.processorIndex.Some? && e.packet.processorIndex.value < |b.serving|
        && b' == Complete(b, e.packet.processorIndex.value)
        && !processors[e.packet.processorIndex.value].isBusy
        && queue.Length() == old(queue.Length())
    {
      if e.eventType == Spawn {
        var added;
        added, b' := Admit(e, b);
      } else {
        b' := Release(e, b);
      }
    }

    /**
     * `run`: the packets are made from `draws`; then, while the clock is
     * below the horizon and events are pending, a turn is taken. The clock
     * only ever moves to a time below the horizon, so the loop ends with no
     * event pending (unless the horizon is not positive); each packet then
     * ended dropped, started or still queued. The clock starts at 0 and never
     * goes back, and no pending event is ever earlier than it, so events are
     * applied in time order; this needs no event pending before time 0 at the
     * start, as in a fresh scheduler or after a run.
     */
    method Run(draws: seq<Draw>, ghost b: Books) returns (ghost b': Books)
      requires Valid(b) && Servable(b.stage.Keys) && NoneBefore(0.0) && forall d :: d in draws ==> Drawable(d)
      modifies this`allPackets, eventSet, processors, queue.Repr(), b.stage.Keys
      ensures Valid(b') && NoneBefore(0.0)
      ensures Generated(allPackets, old(allPackets), Arrivals(draws, 0.0, simulationTime), simulationTime)
      ensures forall k :: |old(allPackets)| <= k < |allPackets| ==> fresh(allPackets[k])
      ensures eventSet.Empty() || simulationTime <= 0.0
      ensures eventSet.Empty() ==> forall k :: 0 <= k < |allPackets| ==> Outcome(allPackets[k], queue.Packets())
    {
      b' := Populate(draws, b);
      b' := Drain(b');
    }

    /**
     * The loop of `run` and where it ends: with a positive horizon no event
     * is left, and then every packet has its outcome.
     */
    method Drain(ghost b: Books) returns (ghost b': Books)
      requires Valid(b) && Servable(b.stage.Keys) && NoneBefore(0.0)
      modifies eventSet, processors, queue.Repr(), b.stage.Keys
      ensures Valid(b') && allPackets == old(allPackets) && NoneBefore(0.0)
      ensures eventSet.Empty() || simulationTime <= 0.0
      ensures eventSet.Empty() ==> forall k :: 0 <= k < |allPackets| ==> Outcome(allPackets[k], queue.Packets())
    {
      var clock;
      b', clock := Loop(b);
      NoneBeforeEarlier(0.0, clock);
      if eventSet.Empty() {
        Outcomes(b');
      }
    }

    /**
     * The `while` of `run`: turns are taken while the clock is below the
     * horizon and events are pending; the clock never goes back, and no
     * pending event is ever earlier than it.
     */
    method Loop(ghost b: Books) returns (ghost b': Books, clock: real)
      requires Valid(b) && Servable(b.stage.Keys) && NoneBefore(0.0)
      modifies eventSet, processors, queue.Repr(), b.stage.Keys
      ensures Valid(b') && allPackets == old(allPackets)
      ensures 0.0 <= clock && NoneBefore(clock)
      ensures eventSet.Empty() || simulationTime <= 0.0
    {
      b' := b;
      ghost var keys, rep := b.stage.Keys, queue.Repr();
      NotInQueue(queue);
      ghost var objs: set<object> := keys;
      assert this !in rep && this !in objs;
      clock := 0.0;
      while clock < simulationTime && !eventSet.Empty()
        modifies eventSet, processors, rep, keys
        invariant Valid(b') && b'.stage.Keys == keys && queue.Repr() == rep
        invariant clock < simulationTime || simulationTime <= 0.0
        invariant 0.0 <= clock && NoneBefore(clock)
        decreases Remaining()
      {
        clock, b' := Turn(clock, b');
      }
    }

    /** No pending event is earlier than a clock, so none is earlier than any earlier clock. */
    lemma NoneBeforeEarlier(clock: real, later: real)
      requires clock <= later && NoneBefore(later)
      ensures NoneBefore(clock)
    {
    }

    /** `_create_packets`, with the books: the packets made join them, each waiting for its arrival. */
    method Populate(draws: seq<Draw>, ghost b: Books) returns (ghost b': Books)
      requires Valid(b) && Servable(b.stage.Keys) && forall d :: d in draws ==> Drawable(d)
      modifies this`allPackets, eventSet
      ensures Valid(b') && Servable(b'.stage.Keys) && queue.Repr() == old(queue.Repr())
      ensures forall p :: p in b'.stage ==> p in b.stage || fresh(p)
      ensures Generated(allPackets, old(allPackets), Arrivals(draws, 0.0, simulationTime), simulationTime)
      ensures forall k :: |old(allPackets)| <= k < |allPackets| ==> fresh(allPackets[k])
      ensures old(NoneBefore(0.0)) ==> NoneBefore(0.0)
    {
      ghost var m, events := Pending(), eventSet.events;
      ghost var created := MakePackets(draws, b);
      if forall e :: e in events ==> 0.0 <= e.time {
        ghost var arrivals := Arrivals(draws, 0.0, simulationTime);
        ArrivalsNotBefore(draws, 0.0, simulationTime);
        assert forall k :: 0 <= k < |created| ==> 0.0 <= created[k].enterTime by {
          forall k | 0 <= k < |created| ensures 0.0 <= created[k].enterTime {
            assert created[k].enterTime == arrivals[k].0;
          }
        }
        SpawnsNotBefore(events, created, 0.0);
      }
      Entered(b, m, old(allPackets), created);
      b' := CreateAll(b, created);
      EnterStage(b.stage, created);
      ServableCreated(b.stage.Keys, b'.stage.Keys, created, Arrivals(draws, 0.0, simulationTime), draws);
    }

    /**
     * `_create_packets` seen from the books `b`: the objects still agree with
     * them, and the packets made are new, distinct and waiting for arrivals
     * drawn before the horizon.
     */
    method MakePackets(draws: seq<Draw>, ghost b: Books) returns (ghost created: seq<Packet>)
      requires Valid(b)
      modifies this`allPackets, eventSet
      ensures QueueMirrored(b.queued) && queue.Repr() == old(queue.Repr())
      ensures ProcessorsMirrored(processors, b.serving) && PacketsMirrored(b.stage)
      ensures allPackets == old(allPackets) + created && Pending() == old(Pending()) + multiset(SpawnEvents(created))
      ensures forall j, k :: 0 <= j < k < |created| ==> created[j] != created[k]
      ensures forall k :: 0 <= k < |created| ==> created[k] !in b.stage && created[k].enterTime < simulationTime
      ensures forall k :: 0 <= k < |created| ==> Mirrors(created[k], Waiting)
      ensures Generated(allPackets, old(allPackets), Arrivals(draws, 0.0, simulationTime), simulationTime)
      ensures forall p :: p in created ==> fresh(p)
      ensures forall k :: |old(allPackets)| <= k < |allPackets| ==> fresh(allPackets[k])
      ensures var arrivals := Arrivals(draws, 0.0, simulationTime);
        |created| == |arrivals| &&
        forall k :: 0 <= k < |arrivals| ==>
          && created[k].priority == arrivals[k].1.priority && created[k].processTime == arrivals[k].1.processTime
          && created[k].enterTime == arrivals[k].0 && arrivals[k].1 in draws
      ensures eventSet.events == old(eventSet.events) + SpawnEvents(created)
    {
      NotInCore(queue);
      ghost var m := Pending();
      created := CreatePackets(draws);
      ListedOnly((this, b, m));
      BagOfJoin(old(eventSet.events), SpawnEvents(created));
      MadeAfter(old(allPackets), created, Arrivals(draws, 0.0, simulationTime), simulationTime);
      ArrivalsDrawn(draws, 0.0, simulationTime);
      MadeFresh((old(allPackets), created));
    }

    /** Packets made from routable draws join packets the queue can take: the queue can take them all. */
    lemma ServableCreated(keys: set<Packet>, keys': set<Packet>, created: seq<Packet>, arrivals: seq<(real, Draw)>, draws: seq<Draw>)
      requires Servable(keys) && forall d :: d in draws ==> Drawable(d)
      requires forall p :: p in keys' ==> p in keys || p in created
      requires |created| == |arrivals|
      requires forall k :: 0 <= k < |arrivals| ==>
        created[k].priority == arrivals[k].1.priority && created[k].processTime == arrivals[k].1.processTime && arrivals[k].1 in draws
      ensures Servable(keys')
    {
      forall p | p in keys' && p !in keys ensures queue.Routes(p.priority) && p.processTime >= 0.0 {
        var k :| 0 <= k < |created| && created[k] == p;
      }
    }

    /** The packets a fill hands out, taken from servable books, have service times that are not negative. */
    lemma StartedServable(b0: Books, b: Books, started: seq<Packet>, slots: seq<nat>, start: real)
      requires Servable(b0.stage.Keys) && Assigned(b0, b, started, slots, start, |b0.serving|)
      ensures forall k :: 0 <= k < |started| ==> started[k].processTime >= 0.0
    {
      forall k | 0 <= k < |started| ensures started[k].processTime >= 0.0 {
        assert started[k] in b0.stage;
      }
    }

    /** Packets made, distinct and each waiting for its arrival before the horizon, join books the objects agree with. */
    lemma Entered(b: Books, m: multiset<Event>, before: seq<Packet>, created: seq<Packet>)
      requires Ok(b, m, simulationTime) && QueueMirrored(b.queued) && ProcessorsMirrored(processors, b.serving)
      requires PacketsMirrored(b.stage) && Recorded(before, b.stage)
      requires allPackets == before + created && Pending() == m + multiset(SpawnEvents(created))
      requires forall j, k :: 0 <= j < k < |created| ==> created[j] != created[k]
      requires forall k :: 0 <= k < |created| ==> created[k] !in b.stage && created[k].enterTime < simulationTime
      requires forall k :: 0 <= k < |created| ==> Mirrors(created[k], Waiting)
      ensures Valid(CreateAll(b, created))
    {
      CreateAllKeeps(b, m, created, simulationTime);
      EnteredRecorded(before, b.stage, created);
      PacketsEntered(b.stage, created);
    }

    /** With no event pending, each packet recorded ended dropped, started or queued, in one way only. */
    lemma Outcomes(b: Books)
      requires Valid(b) && eventSet.Empty()
      ensures forall k :: 0 <= k < |allPackets| ==> Outcome(allPackets[k], queue.Packets())
    {
      assert Pending() == multiset{};
      Settled(b, simulationTime);
      forall k | 0 <= k < |allPackets| ensures Outcome(allPackets[k], queue.Packets()) {
        var p := allPackets[k];
        assert p in b.stage && Mirrors(p, b.stage[p]);
        assert p in b.queued <==> p in queue.Packets();
      }
    }

    /** No packet recorded is both dropped and started. */
    lemma NeverDroppedAndStarted(b: Books)
      requires Valid(b)
      ensures forall k :: 0 <= k < |allPackets| ==> !(allPackets[k].dropped && allPackets[k].startTime.Some?)
    {
      forall k | 0 <= k < |allPackets| ensures !(allPackets[k].dropped && allPackets[k].startTime.Some?) {
        assert allPackets[k] in b.stage && Mirrors(allPackets[k], b.stage[allPackets[k]]);
      }
    }

    /** What is left to do: three per arrival pending, two per packet queued, one per event pending. */
    ghost function Remaining(): nat
      reads eventSet, queue.Core()
    {
      3 * |SpawnsIn(Pending())| + 2 * queue.Length() + |Pending()|
    }

    /**
     * One turn of the loop of `run`: the earliest event is drawn and, when it
     * falls before the horizon, the clock moves to its time and it is
     * applied; then the idle processors are filled at the clock's time.
     */
    method Turn(currentTime: real, ghost b: Books) returns (now: real, ghost b': Books)
      requires Valid(b) && Servable(b.stage.Keys) && !eventSet.Empty()
      requires currentTime < simulationTime && NoneBefore(currentTime)
      modifies eventSet, processors, queue.Repr(), b.stage.Keys
      ensures Valid(b') && b'.stage.Keys == b.stage.Keys
      ensures now == currentTime || now < simulationTime
      ensures currentTime <= now && NoneBefore(now)
      ensures queue.Repr() == old(queue.Repr()) && Remaining() < old(Remaining())
    {
      ghost var m0, length, events0 := Pending(), queue.Length(), eventSet.events;
      var r, e := DrawEvents(b);
      ghost var m1 := Pending();
      assert e in m0 && m0[e] == 1 && e.packet in b.stage && queue.Routes(e.packet.priority);
      assert currentTime <= e.time;
      now := currentTime;
      ghost var b1 := b;
      if r.Some? {
        now := r.value.time;
        b1 := ApplyEvent(r.value, b);
      }
      ghost var events, applied := eventSet.events, queue.Length();
      assert multiset(events) == m1 && applied <= length + if e.eventType == Spawn then 1 else 0;
      AfterEarliest(events0, events, e, now);
      ghost var started, slots;
      b', started, slots := FillProcessors(now, b1);
      StartedServable(b1, b', started, slots, now);
      DonesNotBefore(events, started, now);
      BagOfJoin(events, DoneEvents(started, now));
      Shrinks(m0, m1, e, DoneEvents(started, now), length, applied, queue.Length());
    }
  }

  /**
   * `x` is `(s, b, pending)`: a scheduler `s` whose objects all stay as they
   * were keeps agreeing with the books `b` for the events `pending`.
   */
  twostate lemma HoldsKept(x: (Scheduler, Books, multiset<Event>))
    requires old(x.0.Holds(x.1, x.2)) && unchanged(x.0)
    requires forall o :: o in x.0.queue.Core() ==> unchanged(o)
    requires forall i :: 0 <= i < |x.0.processors| ==> unchanged(x.0.processors[i])
    requires forall p :: p in x.1.stage ==> unchanged(p)
    ensures x.0.Holds(x.1, x.2)
  {
    var s, b, pending := x.0, x.1, x.2;
    QueueUnchanged(s.queue);
    ProcessorsKept((s.processors, b.serving));
    PacketsKept(b.stage);
  }

  /**
   * `x` is `(s, b, pending)`: when only the event store of `s` changed, `s`
   * still agrees with the books `b` for the events `pending`.
   */
  twostate lemma EventsMoved(x: (Scheduler, Books, multiset<Event>))
    requires old(x.0.Holds(x.1, x.2))
    requires forall o: object {:trigger old(allocated(o))} :: o != x.0.eventSet && old(allocated(o)) ==> unchanged(o)
    requires x.0.eventSet !in x.0.queue.Core()
    ensures x.0.Holds(x.1, x.2)
  {
    var s, b, pending := x.0, x.1, x.2;
    OthersUnchanged(x);
    HoldsKept(x);
  }

  /**
   * `x` is `(s, b, pending)`: every object other than the event store of `s`
   * is as it was, the packets of the books `b` among them.
   */
  twostate lemma OthersUnchanged(x: (Scheduler, Books, multiset<Event>))
    requires forall o: object {:trigger old(allocated(o))} :: o != x.0.eventSet && old(allocated(o)) ==> unchanged(o)
    requires x.0.eventSet !in x.0.queue.Core()
    ensures unchanged(x.0)
    ensures forall o :: o in x.0.queue.Core() ==> unchanged(o)
    ensures forall i :: 0 <= i < |x.0.processors| ==> unchanged(x.0.processors[i])
    ensures forall p :: p in x.1.stage ==> unchanged(p)
  {
    var s, b, pending := x.0, x.1, x.2;
    assert old(allocated(s as object));
    forall o | o in s.queue.Core() ensures unchanged(o) {
      assert old(allocated(o));
    }
    forall i | 0 <= i < |s.processors| ensures unchanged(s.processors[i]) {
      assert old(allocated(s.processors[i] as object));
    }
    forall p | p in b.stage ensures unchanged(p) {
      assert old(allocated(p as object));
    }
  }

  /**
   * `x` is `(s, b, pending)`: when only the scheduler `s`, with its packet
   * list, and its event store changed, the queue, the processors and the
   * packets of the books `b` still agree with the books.
   */
  twostate lemma ListedOnly(x: (Scheduler, Books, multiset<Event>))
    requires old(x.0.Holds(x.1, x.2))
    requires forall o: object {:trigger old(allocated(o))} :: o != x.0 && o != x.0.eventSet && old(allocated(o)) ==> unchanged(o)
    ensures x.0.QueueMirrored(x.1.queued) && x.0.queue.Repr() == old(x.0.queue.Repr())
    ensures ProcessorsMirrored(x.0.processors, x.1.serving) && PacketsMirrored(x.1.stage)
  {
    var s, b, pending := x.0, x.1, x.2;
    NotInCore(s.queue);
    forall o | o in s.queue.Core() ensures unchanged(o) {
      assert old(allocated(o));
    }
    QueueUnchanged(s.queue);
    forall i | 0 <= i < |s.processors| ensures unchanged(s.processors[i]) {
      assert old(allocated(s.processors[i] as object));
    }
    ProcessorsKept((s.processors, b.serving));
    forall p | p in b.stage ensures unchanged(p) {
      assert old(allocated(p as object));
    }
    PacketsKept(b.stage);
  }

  /**
   * `x` is `(s, b, i)`: every object other than processor `i` of the
   * scheduler `s` is as it was, the packets of the books `b` among them.
   */
  twostate lemma ProcessorOnly(x: (Scheduler, Books, nat))
    requires x.2 < |x.0.processors|
    requires forall i, j :: 0 <= i < j < |x.0.processors| ==> x.0.processors[i] != x.0.processors[j]
    requires forall o: object {:trigger old(allocated(o))} :: o != x.0.processors[x.2] && old(allocated(o)) ==> unchanged(o)
    ensures unchanged(x.0) && unchanged(x.0.eventSet)
    ensures forall o :: o in x.0.queue.Core() ==> unchanged(o)
    ensures forall j :: 0 <= j < |x.0.processors| && j != x.2 ==> unchanged(x.0.processors[j])
    ensures forall p :: p in x.1.stage ==> unchanged(p)
  {
    var s, b, i := x.0, x.1, x.2;
    NotInCore(s.queue);
    assert old(allocated(s as object)) && old(allocated(s.eventSet as object));
    forall o | o in s.queue.Core() ensures unchanged(o) {
      assert old(allocated(o));
    }
    forall j | 0 <= j < |s.processors| && j != i ensures unchanged(s.processors[j]) {
      assert old(allocated(s.processors[j] as object));
    }
    forall p | p in b.stage ensures unchanged(p) {
      assert old(allocated(p as object));
    }
  }

  /**
   * `x` is `(s, b, touched, p)`: when only the queue's objects `touched` and
   * the packet `p` changed, the scheduler `s`, its event store, its
   * processors and the other packets of the books `b` are as they were.
   */
  twostate lemma QueueOnly(x: (Scheduler, Books, set<object>, Packet))
    requires forall o :: o in x.2 ==> !Foreign(o)
    requires forall o: object {:trigger old(allocated(o))} :: o !in x.2 && o != x.3 && old(allocated(o)) ==> unchanged(o)
    ensures unchanged(x.0) && unchanged(x.0.eventSet)
    ensures forall j :: 0 <= j < |x.0.processors| ==> unchanged(x.0.processors[j])
    ensures forall q :: q in x.1.stage && q != x.3 ==> unchanged(q)
  {
    var s, b, touched, p := x.0, x.1, x.2, x.3;
    assert old(allocated(s as object)) && old(allocated(s.eventSet as object));
    forall j | 0 <= j < |s.processors| ensures unchanged(s.processors[j]) {
      assert old(allocated(s.processors[j] as object));
    }
    forall q | q in b.stage && q != p ensures unchanged(q) {
      assert old(allocated(q as object));
    }
  }

  /**
   * `x` is `(s, b, e, added, touched)`: after the arrival `e` was taken by
   * the queue (`added`) or marked dropped, only the queue's objects `touched`
   * and the packet changing, the scheduler `s` agrees with the books `b`
   * moved on by the arrival.
   */
  twostate lemma Admitted(x: (Scheduler, Books, Event, bool, set<object>))
    requires old(x.0.Holds(x.1, x.0.Pending() + multiset{x.2})) && x.2.eventType == Spawn
    requires forall o :: o in x.4 ==> !Foreign(o)
    requires forall o: object {:trigger old(allocated(o))} :: o !in x.4 && o != x.2.packet && old(allocated(o)) ==> unchanged(o)
    requires x.0.queue.Valid()
    requires multiset(x.0.queue.Packets()) == old(multiset(x.0.queue.Packets())) + if x.3 then multiset{x.2.packet} else multiset{}
    requires if x.3 then unchanged(x.2.packet) else
      (x.2.packet.dropped && x.2.packet.startTime == old(x.2.packet.startTime) && x.2.packet.processorIndex == old(x.2.packet.processorIndex))
    ensures x.0.Holds(Arrive(x.1, x.2.packet, x.3), x.0.Pending())
  {
    var s, b, e, added, touched := x.0, x.1, x.2, x.3, x.4;
    if added {
      Accepted((s, b, e, touched));
    } else {
      Refused((s, b, e, touched));
    }
  }

  /**
   * `x` is `(s, b, e, touched)`: the taken arrival `e` of `Admitted`, the
   * queue's objects `touched` having changed.
   */
  twostate lemma Accepted(x: (Scheduler, Books, Event, set<object>))
    requires old(x.0.Holds(x.1, x.0.Pending() + multiset{x.2})) && x.2.eventType == Spawn
    requires forall o :: o in x.3 ==> !Foreign(o)
    requires forall o: object {:trigger old(allocated(o))} :: o !in x.3 && o != x.2.packet && old(allocated(o)) ==> unchanged(o)
    requires x.0.queue.Valid()
    requires multiset(x.0.queue.Packets()) == old(multiset(x.0.queue.Packets())) + multiset{x.2.packet}
    requires unchanged(x.2.packet)
    ensures x.0.Holds(Arrive(x.1, x.2.packet, true), x.0.Pending())
  {
    var s, b, e, touched := x.0, x.1, x.2, x.3;
    QueueOnly((s, b, touched, e.packet));
    ArriveKeeps(b, old(s.Pending()), e, true, s.simulationTime);
    assert s.Pending() == old(s.Pending());
    QueueArrived((s, b, e.packet, true));
    ProcessorsKept((s.processors, b.serving));
    PacketsKept(b.stage);
  }

  /**
   * `x` is `(s, b, e, touched)`: the dropped arrival `e` of `Admitted`, the
   * queue's objects `touched` having changed.
   */
  twostate lemma Refused(x: (Scheduler, Books, Event, set<object>))
    requires old(x.0.Holds(x.1, x.0.Pending() + multiset{x.2})) && x.2.eventType == Spawn
    requires forall o :: o in x.3 ==> !Foreign(o)
    requires forall o: object {:trigger old(allocated(o))} :: o !in x.3 && o != x.2.packet && old(allocated(o)) ==> unchanged(o)
    requires x.0.queue.Valid()
    requires multiset(x.0.queue.Packets()) == old(multiset(x.0.queue.Packets()))
    requires x.2.packet.dropped
    requires x.2.packet.startTime == old(x.2.packet.startTime) && x.2.packet.processorIndex == old(x.2.packet.processorIndex)
    ensures x.0.Holds(Arrive(x.1, x.2.packet, false), x.0.Pending())
  {
    var s, b, e, touched := x.0, x.1, x.2, x.3;
    RefusedSteps(x);
    RefusedStages(x);
  }

  /**
   * `x` is `(s, b, e, touched)`: after the dropped arrival `e`, the books `b`
   * moved on are consistent and the queue and the processors of `s` still
   * agree with them.
   */
  twostate lemma RefusedSteps(x: (Scheduler, Books, Event, set<object>))
    requires old(x.0.Holds(x.1, x.0.Pending() + multiset{x.2})) && x.2.eventType == Spawn
    requires forall o :: o in x.3 ==> !Foreign(o)
    requires forall o: object {:trigger old(allocated(o))} :: o !in x.3 && o != x.2.packet && old(allocated(o)) ==> unchanged(o)
    requires x.0.queue.Valid()
    requires multiset(x.0.queue.Packets()) == old(multiset(x.0.queue.Packets()))
    requires x.2.packet.dropped
    requires x.2.packet.startTime == old(x.2.packet.startTime) && x.2.packet.processorIndex == old(x.2.packet.processorIndex)
    ensures Ok(Arrive(x.1, x.2.packet, false), x.0.Pending(), x.0.simulationTime)
    ensures x.0.QueueMirrored(x.1.queued) && ProcessorsMirrored(x.0.processors, x.1.serving)
  {
    var s, b, e, touched := x.0, x.1, x.2, x.3;
    QueueOnly((s, b, touched, e.packet));
    ArriveKeeps(b, old(s.Pending()), e, false, s.simulationTime);
    assert s.Pending() == old(s.Pending());
    QueueArrived((s, b, e.packet, false));
    ProcessorsKept((s.processors, b.serving));
  }

  /**
   * `x` is `(s, b, e, touched)`: after the dropped arrival `e`, the packets
   * agree with the stages of the books `b` moved on, and the packet list of
   * `s` records them.
   */
  twostate lemma RefusedStages(x: (Scheduler, Books, Event, set<object>))
    requires old(x.0.Holds(x.1, x.0.Pending() + multiset{x.2})) && x.2.eventType == Spawn
    requires forall o :: o in x.3 ==> !Foreign(o)
    requires forall o: object {:trigger old(allocated(o))} :: o !in x.3 && o != x.2.packet && old(allocated(o)) ==> unchanged(o)
    requires x.0.queue.Valid()
    requires multiset(x.0.queue.Packets()) == old(multiset(x.0.queue.Packets()))
    requires x.2.packet.dropped
    requires x.2.packet.startTime == old(x.2.packet.startTime) && x.2.packet.processorIndex == old(x.2.packet.processorIndex)
    ensures PacketsMirrored(x.1.stage[x.2.packet := Dropped]) && Recorded(x.0.allPackets, x.1.stage[x.2.packet := Dropped])
  {
    var s, b, e, touched := x.0, x.1, x.2, x.3;
    QueueOnly((s, b, touched, e.packet));
    assert e in old(s.Pending()) + multiset{e} && b.stage[e.packet] == Waiting;
    assert old(Mirrors(e.packet, b.stage[e.packet]));
    PacketMoved((b.stage, e.packet, Dropped));
  }

  /**
   * `x` is `(s, b, p, added)`: the queue of `s` holds the packets the books
   * `b` say it holds once the arrival `p` is admitted (`added`) or not.
   */
  twostate lemma QueueArrived(x: (Scheduler, Books, Packet, bool))
    requires old(x.0.QueueMirrored(x.1.queued)) && x.0.queue.Valid()
    requires multiset(x.0.queue.Packets()) == old(multiset(x.0.queue.Packets())) + if x.3 then multiset{x.2} else multiset{}
    ensures x.0.QueueMirrored(Arrive(x.1, x.2, x.3).queued)
  {
    var s, b, p, added := x.0, x.1, x.2, x.3;
  }

  /**
   * `x` is `(s, b, p, i, t, touched)`: every object other than the queue's
   * objects `touched`, the packets of the books `b`, processor `i` of `s` and
   * the event store is as it was; of the packets, only `p` may have changed.
   * `t` is the start time.
   */
  twostate lemma DispatchOnly(x: (Scheduler, Books, Packet, nat, real, set<object>))
    requires x.3 < |x.0.processors|
    requires forall i, j :: 0 <= i < j < |x.0.processors| ==> x.0.processors[i] != x.0.processors[j]
    requires forall o :: o in x.5 ==> !Foreign(o)
    requires forall o: object {:trigger old(allocated(o))} ::
      o !in x.5 && o !in x.1.stage && o != x.0.processors[x.3] && o != x.0.eventSet && old(allocated(o)) ==> unchanged(o)
    requires forall q :: q in x.1.stage && q != x.2 ==> unchanged(q)
    ensures unchanged(x.0)
    ensures forall j :: 0 <= j < |x.0.processors| && j != x.3 ==> unchanged(x.0.processors[j])
    ensures forall q :: q in x.1.stage && q != x.2 ==> unchanged(q)
  {
    var s, b, p, i, t, touched := x.0, x.1, x.2, x.3, x.4, x.5;
    assert old(allocated(s as object));
    forall j | 0 <= j < |s.processors| && j != i ensures unchanged(s.processors[j]) {
      assert old(allocated(s.processors[j] as object));
    }
  }

  /**
   * `x` is `(s, b, p, i, t, touched)`: after packet `p` left the queue for
   * processor `i` at time `t`, with its completion scheduled and only the
   * queue's objects `touched` changing in the queue, the scheduler `s` agrees
   * with the books `b` moved on by the dispatch.
   */
  twostate lemma Dispatched(x: (Scheduler, Books, Packet, nat, real, set<object>))
    requires old(x.0.Valid(x.1)) && x.3 < |x.0.processors| && old(!x.0.processors[x.3].isBusy)
    requires forall o :: o in x.5 ==> !Foreign(o)
    requires forall o: object {:trigger old(allocated(o))} ::
      o !in x.5 && o !in x.1.stage && o != x.0.processors[x.3] && o != x.0.eventSet && old(allocated(o)) ==> unchanged(o)
    requires forall q :: q in x.1.stage && q != x.2 ==> unchanged(q)
    requires x.0.queue.Valid() && old(multiset(x.0.queue.Packets())) == multiset(x.0.queue.Packets()) + multiset{x.2}
    requires x.2.processorIndex == Some(x.3) && x.2.startTime == Some(x.4) && x.2.dropped == old(x.2.dropped)
    requires x.0.processors[x.3].Valid() && x.0.processors[x.3].startTime == Some(x.4)
    requires x.0.eventSet.events == old(x.0.eventSet.events) + [DoneOf(x.2, x.4)]
    ensures x.3 < |x.1.serving| && x.0.Valid(Start(x.1, x.2, x.3, x.4))
    ensures x.2 in x.1.queued && x.2 in x.1.stage && x.1.stage[x.2] == Waiting && x.1.serving[x.3] == None
  {
    var s, b, p, i, t, touched := x.0, x.1, x.2, x.3, x.4, x.5;
    DispatchedBooks(x);
    DispatchedObjects(x);
  }

  /**
   * `x` is `(s, b, p, i, t, touched)`: the books `b` moved on by the dispatch
   * of `p` to processor `i` at `t` are consistent, and the queue of `s`
   * agrees with them.
   */
  twostate lemma DispatchedBooks(x: (Scheduler, Books, Packet, nat, real, set<object>))
    requires old(x.0.Valid(x.1)) && x.3 < |x.0.processors| && old(!x.0.processors[x.3].isBusy)
    requires forall o :: o in x.5 ==> !Foreign(o)
    requires forall o: object {:trigger old(allocated(o))} ::
      o !in x.5 && o !in x.1.stage && o != x.0.processors[x.3] && o != x.0.eventSet && old(allocated(o)) ==> unchanged(o)
    requires forall q :: q in x.1.stage && q != x.2 ==> unchanged(q)
    requires x.0.queue.Valid() && old(multiset(x.0.queue.Packets())) == multiset(x.0.queue.Packets()) + multiset{x.2}
    requires x.0.eventSet.events == old(x.0.eventSet.events) + [DoneOf(x.2, x.4)]
    ensures x.3 < |x.1.serving| && x.2 in x.1.queued && x.2 in x.1.stage && x.1.stage[x.2] == Waiting && x.1.serving[x.3] == None
    ensures Ok(Start(x.1, x.2, x.3, x.4), x.0.Pending(), x.0.simulationTime)
    ensures x.0.QueueMirrored(Start(x.1, x.2, x.3, x.4).queued)
  {
    var s, b, p, i, t, touched := x.0, x.1, x.2, x.3, x.4, x.5;
    DispatchOnly(x);
    assert s.Pending() == old(s.Pending()) + multiset{DoneOf(p, t)};
    assert p in b.queued && b.serving[i] == None;
    StartKeeps(b, old(s.Pending()), p, i, t, s.simulationTime);
  }

  /**
   * `x` is `(s, b, p, i, t, touched)`: the processors and the packets of `s`
   * agree with the books `b` moved on by the dispatch of `p` to processor `i`
   * at `t`.
   */
  twostate lemma DispatchedObjects(x: (Scheduler, Books, Packet, nat, real, set<object>))
    requires old(x.0.Valid(x.1)) && x.3 < |x.0.processors|
    requires forall o :: o in x.5 ==> !Foreign(o)
    requires forall o: object {:trigger old(allocated(o))} ::
      o !in x.5 && o !in x.1.stage && o != x.0.processors[x.3] && o != x.0.eventSet && old(allocated(o)) ==> unchanged(o)
    requires forall q :: q in x.1.stage && q != x.2 ==> unchanged(q)
    requires old(multiset(x.0.queue.Packets())) == multiset(x.0.queue.Packets()) + multiset{x.2}
    requires x.2.processorIndex == Some(x.3) && x.2.startTime == Some(x.4) && x.2.dropped == old(x.2.dropped)
    requires x.0.processors[x.3].Valid() && x.0.processors[x.3].startTime == Some(x.4)
    ensures x.3 < |x.1.serving|
    ensures ProcessorsMirrored(x.0.processors, Start(x.1, x.2, x.3, x.4).serving)
    ensures PacketsMirrored(Start(x.1, x.2, x.3, x.4).stage) && Recorded(x.0.allPackets, Start(x.1, x.2, x.3, x.4).stage)
  {
    var s, b, p, i, t, touched := x.0, x.1, x.2, x.3, x.4, x.5;
    DispatchOnly(x);
    ProcessorMoved((s.processors, b.serving, i, Some(Job(p, t))));
    assert p in b.queued && b.stage[p] == Waiting;
    assert old(Mirrors(p, b.stage[p]));
    PacketMoved((b.stage, p, Serving(i, t)));
  }

  /**
   * `x` is `(queue, p, c, events)`: a queue is the queue it was when only the
   * packet `p`, the processor `c` and the event store `events` changed.
   */
  twostate lemma QueueKeptBy(x: (Discipline, Packet, Processor, EventSet))
    requires forall o: object {:trigger old(allocated(o))} :: o != x.1 && o != x.2 && o != x.3 && old(allocated(o)) ==> unchanged(o)
    ensures x.0.Valid() == old(x.0.Valid()) && x.0.Repr() == old(x.0.Repr())
    ensures x.0.Length() == old(x.0.Length()) && x.0.Empty() == old(x.0.Empty())
    ensures x.0.Packets() == old(x.0.Packets())
  {
    var queue, p, c, events := x.0, x.1, x.2, x.3;
    NotInCore(queue);
    forall o | o in queue.Core() ensures unchanged(o) {
      assert old(allocated(o));
    }
    QueueUnchanged(queue);
  }

  /** The packets the queue holds have a stage. */
  lemma QueuedHeld(s: Scheduler, b: Books)
    requires s.Holds(b, s.Pending())
    ensures forall q :: q in s.queue.Packets() ==> q in b.stage.Keys
  {
    forall q | q in s.queue.Packets() ensures q in b.stage.Keys {
      assert q in b.queued;
    }
  }

  /**
   * `x` is `(before, created)`: packets `created`, each allocated since the
   * pre-state, are all fresh, also as they follow the packets `before`.
   */
  twostate lemma MadeFresh(new x: (seq<Packet>, seq<Packet>))
    requires forall k :: 0 <= k < |x.1| ==> fresh(x.1[k])
    ensures forall p :: p in x.1 ==> fresh(p) && !old(allocated(p))
    ensures forall k :: |x.0| <= k < |x.0 + x.1| ==> fresh((x.0 + x.1)[k])
  {
    var before, created := x.0, x.1;
    forall p | p in created ensures fresh(p) {
      var k :| 0 <= k < |created| && created[k] == p;
    }
    forall k | |before| <= k < |before + created| ensures fresh((before + created)[k]) {
      assert (before + created)[k] == created[k - |before|];
    }
  }

  /**
   * `x` is `(queue, changed)`: a queue none of whose objects is `changed`,
   * the one object that changed, is the queue it was.
   */
  twostate lemma QueueKept(x: (Discipline, object))
    requires x.1 !in x.0.Core()
    requires forall o: object {:trigger old(allocated(o))} :: o != x.1 && old(allocated(o)) ==> unchanged(o)
    ensures x.0.Valid() == old(x.0.Valid()) && x.0.Repr() == old(x.0.Repr())
    ensures x.0.Length() == old(x.0.Length()) && x.0.Empty() == old(x.0.Empty())
    ensures x.0.Packets() == old(x.0.Packets())
  {
    var queue, changed := x.0, x.1;
    forall o | o in queue.Core() ensures unchanged(o) {
      assert old(allocated(o));
    }
    QueueUnchanged(queue);
  }
}
