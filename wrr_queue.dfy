/**
 * The weighted round-robin composite: one FIFO child per priority, a cursor
 * on the child currently served, and a counter of the packets popped from
 * it since the cursor last moved.
 */
module WrrQueues {
  import opened Wrappers
  import opened Packets
  import opened Observers
  import opened QueueBase
  import opened FifoQueues

  // ------------------------------------------------------------------ cursor

  /**
   * `_next_queue`'s index: one step down, wrapping to the last child. With a
   * positive divisor Python's `%` and Dafny's agree (both are never negative).
   */
  function Down(i: int, n: nat): (r: int)
    requires n > 0
  {
    (i - 1) % n
  }

  /** The child below `c`, wrapping from the first child to the last. */
  function Prev(c: nat, n: nat): (r: nat)
    requires c < n
    ensures r < n
  {
    if c == 0 then n - 1 else c - 1
  }

  /** On a valid index `_next_queue`'s arithmetic is one step down, wrapping only from 0. */
  lemma DownValue(i: int, n: nat)
    requires 0 <= i < n
    ensures Down(i, n) == Prev(i, n)
  {
  }

  /** The index `e` steps down from `i`, wrapping around once at most. */
  function Back(i: nat, e: nat, n: nat): int
    requires i < n
  {
    if e <= i then i - e else i + n - e
  }

  /** Stepping down once and then `e` times is stepping down `e + 1` times. */
  lemma BackPrev(c: nat, e: nat, n: nat)
    requires c < n && e < n
    ensures Back(Prev(c, n), e, n) == Back(c, e + 1, n)
  {
  }

  /** Every child is reached within `n` steps down from any start. */
  lemma BackCovers(i: nat, j: nat, n: nat) returns (e: nat)
    requires i < n && j < n
    ensures e < n && Back(i, e, n) == j
  {
    e := if j <= i then i - j else i + n - j;
  }

  /**
   * The scan of `pop`: from child `c`, with at most `fuel` moves down left,
   * the first non-empty child (where the moves run out, if they do).
   */
  function Scan(cs: seq<seq<Packet>>, c: nat, fuel: nat): (k: nat)
    requires c < |cs|
    ensures k < |cs|
    decreases fuel
  {
    if fuel == 0 || cs[c] != [] then c else Scan(cs, Prev(c, |cs|), fuel - 1)
  }

  /**
   * The scan ends `d` steps down from where it started, every child it
   * passed being empty, and it stops early only on a non-empty child.
   */
  lemma {:induction false} ScanSpec(cs: seq<seq<Packet>>, c: nat, fuel: nat) returns (d: nat)
    requires c < |cs| && fuel <= |cs|
    ensures d <= fuel && Scan(cs, c, fuel) == Back(c, d, |cs|)
    ensures d < fuel ==> cs[Scan(cs, c, fuel)] != []
    ensures forall e :: 0 <= e < d ==> cs[Back(c, e, |cs|)] == []
    decreases fuel
  {
    if fuel == 0 || cs[c] != [] {
      d := 0;
    } else {
      var n := |cs|;
      var d' := ScanSpec(cs, Prev(c, n), fuel - 1);
      BackPrev(c, d', n);
      d := d' + 1;
      forall e | 0 < e < d
        ensures cs[Back(c, e, n)] == []
      {
        BackPrev(c, e - 1, n);
      }
    }
  }

  /** The child the next pop takes from, scanning down from the cursor `i`. */
  function Chosen(cs: seq<seq<Packet>>, i: nat): nat
    requires i < |cs|
  {
    Scan(cs, i, |cs|)
  }

  /**
   * With some child non-empty, the pop takes from the first non-empty child
   * met scanning down from the cursor, within one turn.
   */
  lemma ChosenIsFirstNonEmpty(cs: seq<seq<Packet>>, i: nat, j: nat) returns (d: nat)
    requires i < |cs| && j < |cs| && cs[j] != []
    ensures d < |cs| && Chosen(cs, i) == Back(i, d, |cs|) && cs[Chosen(cs, i)] != []
    ensures forall e :: 0 <= e < d ==> cs[Back(i, e, |cs|)] == []
  {
    var t := BackCovers(i, j, |cs|);
    d := ScanSpec(cs, i, |cs|);
  }

  /**
   * The cursor after a pop from child `k`; `moved` when the scan left the
   * cursor's child, each move having reset the counter.
   */
  function CursorAfterPop(weights: seq<int>, n: nat, k: nat, moved: bool, popped: int): (c: (int, int))
    requires k < n && k < |weights|
  {
    var count := (if moved then 0 else popped) + 1;
    if count == weights[k] then (Prev(k, n), 0) else (k, count)
  }

  /**
   * The quota: a child of positive weight yields at most its weight of
   * consecutive pops; the pop that fills the quota moves the cursor on.
   */
  lemma CursorKeepsQuota(weights: seq<int>, n: nat, k: nat, moved: bool, popped: int)
    requires k < n <= |weights|
    requires 0 <= popped && (!moved && weights[k] > 0 ==> popped < weights[k])
    ensures var c := CursorAfterPop(weights, n, k, moved, popped);
      && 0 <= c.0 < n && 0 <= c.1
      && (weights[c.0] > 0 ==> c.1 < weights[c.0])
      && (c.1 == 0 || (c.0 == k && c.1 == (if moved then 0 else popped) + 1))
  {
  }

  // ------------------------------------------------------------------- sums

  /** The number of packets over all children. */
  function TotalLength(cs: seq<seq<Packet>>): nat {
    if cs == [] then 0 else TotalLength(cs[..|cs| - 1]) + |cs[|cs| - 1]|
  }

  /** The total is zero exactly when every child is empty. */
  lemma {:induction false} TotalLengthZero(cs: seq<seq<Packet>>)
    ensures TotalLength(cs) == 0 <==> forall i :: 0 <= i < |cs| ==> cs[i] == []
  {
    if cs != [] {
      var p := cs[..|cs| - 1];
      TotalLengthZero(p);
      assert forall i :: 0 <= i < |p| ==> p[i] == cs[i];
    }
  }

  /** No child holds more than the total. */
  lemma {:induction false} TotalLengthBound(cs: seq<seq<Packet>>)
    ensures forall i :: 0 <= i < |cs| ==> |cs[i]| <= TotalLength(cs)
  {
    if cs != [] {
      var p := cs[..|cs| - 1];
      TotalLengthBound(p);
      assert forall i :: 0 <= i < |p| ==> p[i] == cs[i];
    }
  }

  /** Replacing one child's packets changes the total by the difference in length. */
  lemma {:induction false} TotalLengthUpdate(cs: seq<seq<Packet>>, k: nat, x: seq<Packet>)
    requires k < |cs|
    ensures TotalLength(cs[k := x]) + |cs[k]| == TotalLength(cs) + |x|
  {
    var m := |cs| - 1;
    var ds := cs[k := x];
    if k == m {
      assert ds[..m] == cs[..m];
    } else {
      assert ds[..m] == cs[..m][k := x];
      TotalLengthUpdate(cs[..m], k, x);
    }
  }

  /** All queued packets, child by child. */
  ghost function Flatten(cs: seq<seq<Packet>>): seq<Packet> {
    if cs == [] then [] else Flatten(cs[..|cs| - 1]) + cs[|cs| - 1]
  }

  /** The flattened view holds exactly as many packets as the children's lengths add up to. */
  lemma {:induction false} FlattenLength(cs: seq<seq<Packet>>)
    ensures |Flatten(cs)| == TotalLength(cs)
  {
    if cs != [] {
      FlattenLength(cs[..|cs| - 1]);
    }
  }

  /** A packet appended to one child joins the flattened view's bag. */
  lemma {:induction false} FlattenAppend(cs: seq<seq<Packet>>, k: nat, p: Packet)
    requires k < |cs|
    ensures multiset(Flatten(cs[k := cs[k] + [p]])) == multiset(Flatten(cs)) + multiset{p}
  {
    var m := |cs| - 1;
    var ds := cs[k := cs[k] + [p]];
    var pre := cs[..m];
    assert Flatten(cs) == Flatten(pre) + cs[m];
    if k == m {
      assert Flatten(ds) == Flatten(cs) + [p] by {
        assert ds[..m] == pre;
      }
    } else {
      assert Flatten(ds) == Flatten(pre[k := pre[k] + [p]]) + cs[m] by {
        assert ds[..m] == pre[k := pre[k] + [p]] && ds[m] == cs[m];
      }
      FlattenAppend(pre, k, p);
    }
  }

  /** The head taken from one child leaves the flattened view's bag. */
  lemma {:induction false} FlattenTake(cs: seq<seq<Packet>>, k: nat)
    requires k < |cs| && cs[k] != []
    ensures multiset(Flatten(cs[k := cs[k][1..]])) + multiset{cs[k][0]} == multiset(Flatten(cs))
  {
    var m := |cs| - 1;
    var ds := cs[k := cs[k][1..]];
    var pre := cs[..m];
    assert Flatten(cs) == Flatten(pre) + cs[m];
    if k == m {
      assert Flatten(ds) == Flatten(pre) + cs[m][1..] by {
        assert ds[..m] == pre;
      }
      assert multiset(cs[m]) == multiset{cs[m][0]} + multiset(cs[m][1..]) by {
        assert cs[m] == [cs[m][0]] + cs[m][1..];
      }
    } else {
      assert Flatten(ds) == Flatten(pre[k := pre[k][1..]]) + cs[m] by {
        assert ds[..m] == pre[k := pre[k][1..]] && ds[m] == cs[m];
      }
      FlattenTake(pre, k);
    }
  }

  // ----------------------------------------------------------------- children

  function Objs(qs: seq<FifoQueue>): set<object> {
    set q | q in qs
  }

  /** Each child's packets, in child order. */
  function Contents(qs: seq<FifoQueue>): (r: seq<seq<Packet>>)
    reads qs
    ensures |r| == |qs| && forall i :: 0 <= i < |qs| ==> r[i] == qs[i].q
  {
    seq(|qs|, i requires 0 <= i < |qs| reads qs => qs[i].q)
  }

  /** Each child's observer list, in child order. */
  ghost function ObserverLists(qs: seq<FifoQueue>): (r: seq<seq<Observer>>)
    reads qs
    ensures |r| == |qs| && forall i :: 0 <= i < |qs| ==> r[i] == qs[i].observers
  {
    seq(|qs|, i requires 0 <= i < |qs| reads qs => qs[i].observers)
  }

  /** Each child's log of the notices it broadcast, in child order. */
  ghost function NoticeLogs(qs: seq<FifoQueue>): (r: seq<seq<Notice>>)
    reads qs
    ensures |r| == |qs| && forall i :: 0 <= i < |qs| ==> r[i] == qs[i].notices
  {
    seq(|qs|, i requires 0 <= i < |qs| reads qs => qs[i].notices)
  }

  /** The objects behind a sequence of observer lists. */
  ghost function ListObjs(ls: seq<seq<Observer>>): (r: set<object>)
    ensures forall i :: 0 <= i < |ls| ==> ObserverObjs(ls[i]) <= r
  {
    if ls == [] then {} else ListObjs(ls[..|ls| - 1]) + ObserverObjs(ls[|ls| - 1])
  }

  /** The objects behind every child's observers. */
  ghost function ChildObserverObjs(qs: seq<FifoQueue>): (r: set<object>)
    reads qs
    ensures forall i :: 0 <= i < |qs| ==> ObserverObjs(qs[i].observers) <= r
  {
    ListObjs(ObserverLists(qs))
  }

  lemma CompositeIsNoObserver(x: WrrQueue, observers: seq<Observer>)
    ensures x !in ObserverObjs(observers)
  {
  }

  /** Nor is it behind any list of observers. */
  lemma {:induction false} CompositeIsNoListObserver(x: WrrQueue, ls: seq<seq<Observer>>)
    ensures x !in ListObjs(ls)
  {
    if ls != [] {
      CompositeIsNoListObserver(x, ls[..|ls| - 1]);
      CompositeIsNoObserver(x, ls[|ls| - 1]);
    }
  }

  /** Nor is it one of its children's observers. */
  lemma CompositeIsNoChildObserver(x: WrrQueue, qs: seq<FifoQueue>)
    ensures x !in ChildObserverObjs(qs)
  {
    CompositeIsNoListObserver(x, ObserverLists(qs));
  }

  class WrrQueue {
    const queues: seq<FifoQueue>
    const weights: seq<int>
    var currentIndex: int
    var currentPopped: int
    var observers: seq<Observer>
    /** Every notice the composite broadcast. */
    ghost var notices: seq<Notice>

    /**
     * A weight for every child, children that are distinct and valid, a
     * cursor on a child, and a counter below the weight of that child when
     * the weight is positive.
     */
    ghost predicate Valid()
      reads this`currentIndex, this`currentPopped, queues
    {
      CursorValid() && ChildrenValid()
    }

    /** Distinct children, each satisfying its own invariant. */
    ghost predicate ChildrenValid()
      reads queues
    {
      && (forall i, j :: 0 <= i < j < |queues| ==> queues[i] != queues[j])
      && (forall i :: 0 <= i < |queues| ==> queues[i].Valid())
    }

    /** A weight per child, the cursor on a child, the counter within the quota. */
    ghost predicate CursorValid()
      reads this`currentIndex, this`currentPopped
    {
      && |queues| <= |weights|
      && (queues != [] ==> 0 <= currentIndex < |queues|)
      && 0 <= currentPopped
      && (queues != [] && weights[currentIndex] > 0 ==> currentPopped < weights[currentIndex])
    }

    /** The cursor starts on the last child with an empty counter. */
    constructor (queues: seq<FifoQueue>, weights: seq<int>)
      requires |queues| <= |weights|
      requires forall i, j :: 0 <= i < j < |queues| ==> queues[i] != queues[j]
      requires forall i :: 0 <= i < |queues| ==> queues[i].Valid()
      ensures Valid() && this.queues == queues && this.weights == weights
      ensures currentIndex == |queues| - 1 && currentPopped == 0
      ensures observers == [] && notices == []
    {
      this.queues := queues;
      this.weights := weights;
      currentIndex := |queues| - 1;
      currentPopped := 0;
      observers := [];
      notices := [];
    }

    /** The sum of the children's lengths: the number of packets held over all children. */
    function Length(): (r: nat)
      reads queues
      ensures r == |Flatten(Contents(queues))|
    {
      FlattenLength(Contents(queues));
      TotalLength(Contents(queues))
    }

    /** Every child is empty, which is exactly when the composite's length is zero. */
    predicate Empty()
      reads queues
      ensures Empty() <==> Length() == 0
    {
      TotalLengthZero(Contents(queues));
      forall i :: 0 <= i < |queues| ==> queues[i].Empty()
    }

    method RegisterObserver(observers: seq<Observer>)
      modifies this`observers
      ensures this.observers == observers
    {
      this.observers := observers;
    }

    /** Neither the composite nor a child is an observer object. */
    lemma ChildrenAreNoObservers(observers: seq<Observer>)
      ensures this !in ObserverObjs(observers)
      ensures forall j :: 0 <= j < |queues| ==> queues[j] !in ObserverObjs(observers)
    {
      CompositeIsNoObserver(this, observers);
      forall j | 0 <= j < |queues|
        ensures queues[j] !in ObserverObjs(observers)
      {
        QueueIsNoObserver(queues[j], observers);
      }
    }

    /** The observers a notice about child `k` reaches: the child's, then the composite's. */
    ghost function Audience(k: nat): seq<Observer>
      requires k < |queues|
      reads this`observers, queues[k]
    {
      queues[k].observers + observers
    }

    /** Where each observer of `Audience(k)` stands. */
    ghost function Standings(k: nat): seq<(bool, seq<Notice>)>
      requires k < |queues|
      reads this`observers, queues[k], ObserverObjs(Audience(k))
    {
      Logs(Audience(k))
    }

    /**
     * What popping child `k` may change besides the cursor and the log: the
     * child and the objects behind its observers and the composite's.
     */
    ghost function ChildFrame(k: nat): set<object>
      requires k < |queues|
      reads this`observers, queues[k]
    {
      {queues[k]} + ObserverObjs(queues[k].observers) + ObserverObjs(observers)
    }

    /** `_get_packet_queue`: the child whose index is the packet's priority. */
    function PacketQueue(packet: Packet): (c: FifoQueue)
      requires packet.priority as int < |queues|
      ensures c in queues
    {
      queues[packet.priority]
    }

    /** `_next_queue`: moves the cursor one child down, wrapping around, and clears the counter. */
    method NextQueue()
      requires |queues| > 0
      modifies this`currentIndex, this`currentPopped
      ensures currentIndex == Down(old(currentIndex), |queues|) && currentPopped == 0
      ensures 0 <= old(currentIndex) < |queues| ==> currentIndex == Prev(old(currentIndex), |queues|)
    {
      if 0 <= currentIndex < |queues| {
        DownValue(currentIndex, |queues|);
      }
      currentIndex := (currentIndex - 1) % |queues|;
      currentPopped := 0;
    }

    /**
     * Hands the packet to the child of its priority; when the child admits
     * it, the child's observers hear of it with the child's new length, then
     * the composite's observers with the composite's new length. Only that
     * child's log grows.
     */
    method AddPacket(packet: Packet, currentTime: real) returns (added: bool)
      requires Valid() && packet.priority as int < |queues|
      modifies this`notices, queues[packet.priority], ObserverObjs(queues[packet.priority].observers)
      modifies ObserverObjs(observers)
      ensures Valid() && ObserverLists(queues) == old(ObserverLists(queues))
      ensures added <==> old(|queues[packet.priority].q|) < queues[packet.priority].lengthLimit
      ensures var cs := old(Contents(queues)); var k := packet.priority as int;
        Contents(queues) == if added then cs[k := cs[k] + [packet]] else cs
      ensures Length() == old(Length()) + (if added then 1 else 0)
      ensures notices == old(notices) + (if added then [Added(packet, currentTime, Length())] else [])
      ensures var k := packet.priority as int; var ls := old(NoticeLogs(queues));
        NoticeLogs(queues) == ls[k := ls[k] + (if added then [Added(packet, currentTime, |queues[k].q|)] else [])]
      ensures var a, b := old(queues[packet.priority].observers), old(observers); var l := a + b;
        InTurn(old(Logs(l)), Logs(l), l, a, if added then [Added(packet, currentTime, |queues[packet.priority].q|)] else [],
                                         b, if added then [Added(packet, currentTime, Length())] else [])
    {
      ChildrenAreNoObservers(queues[packet.priority].observers);
      ChildrenAreNoObservers(observers);
      ghost var a, b := queues[packet.priority].observers, observers;
      ghost var l, s0 := a + b, Logs(a + b);
      added := Route(packet, currentTime);
      ghost var s1 := Logs(l);
      if added {
        Announce(Added(packet, currentTime, Length()), a);
      } else {
        SilentStep(s1, l, b);
      }
      StepsInTurn(s0, s1, Logs(l), l, a, if added then [Added(packet, currentTime, |queues[packet.priority].q|)] else [],
                  b, if added then [Added(packet, currentTime, Length())] else []);
    }

    /** Only child `k` changed: each per-child view moves at `k` alone. */
    twostate lemma OnlyChildChanged(k: nat)
      requires k < |queues| && forall j :: 0 <= j < |queues| && j != k ==> unchanged(queues[j])
      ensures Contents(queues) == old(Contents(queues))[k := queues[k].q]
      ensures NoticeLogs(queues) == old(NoticeLogs(queues))[k := queues[k].notices]
      ensures ObserverLists(queues) == old(ObserverLists(queues))[k := queues[k].observers]
    {
    }

    /** The child's side of `add_packet`: the child of the packet's priority takes or rejects it. */
    method Route(packet: Packet, currentTime: real) returns (added: bool)
      requires Valid() && packet.priority as int < |queues|
      modifies queues[packet.priority], ObserverObjs(queues[packet.priority].observers)
      ensures Valid() && ObserverLists(queues) == old(ObserverLists(queues))
      ensures added <==> old(|queues[packet.priority].q|) < queues[packet.priority].lengthLimit
      ensures var cs := old(Contents(queues)); var k := packet.priority as int;
        Contents(queues) == if added then cs[k := cs[k] + [packet]] else cs
      ensures Length() == old(Length()) + (if added then 1 else 0)
      ensures var k := packet.priority as int; var ls := old(NoticeLogs(queues));
        NoticeLogs(queues) == ls[k := ls[k] + (if added then [Added(packet, currentTime, |queues[k].q|)] else [])]
      ensures var a := old(queues[packet.priority].observers); var l := a + old(observers);
        Step(old(Logs(l)), Logs(l), l, a, if added then [Added(packet, currentTime, |queues[packet.priority].q|)] else [])
    {
      var child := PacketQueue(packet);
      ghost var ls := NoticeLogs(queues);
      ghost var cs := Contents(queues);
      ghost var k: nat := packet.priority as int;
      ghost var lists := ObserverLists(queues);
      assert child == queues[k];
      ChildrenAreNoObservers(child.observers);
      added := child.AddPacket(packet, currentTime, child.observers + observers);
      forall j | 0 <= j < |queues| && j != k ensures unchanged(queues[j]) {
        assert queues[j] != child;
      }
      OnlyChildChanged(k);
      assert lists[k] == child.observers;
      if !added {
        assert Contents(queues) == cs;
        return;
      }
      assert Contents(queues) == cs[k := cs[k] + [packet]];
      TotalLengthUpdate(cs, k, cs[k] + [packet]);
    }

    /**
     * Scans down from the cursor for a non-empty child, resetting the counter
     * on every move, pops that child's head and counts it against the child's
     * weight. The child's observers hear of it with the child's length
     * before the removal, then the composite's observers with the
     * composite's new length; only that child's log grows. An empty
     * composite yields nothing and notifies nobody.
     */
    method Pop(currentTime: real) returns (r: Option<Packet>)
      requires Valid()
      modifies this`currentIndex, this`currentPopped, this`notices
      modifies if Empty() then {} else ChildFrame(Chosen(Contents(queues), currentIndex))
      ensures Valid() && ObserverLists(queues) == old(ObserverLists(queues))
      ensures old(Empty()) ==> && r == None && Contents(queues) == old(Contents(queues))
                               && currentIndex == old(currentIndex) && currentPopped == old(currentPopped)
                               && notices == old(notices)
      ensures !old(Empty()) ==>
        var cs := old(Contents(queues)); var i := old(currentIndex);
        var k := Chosen(cs, i);
        && 0 <= k < |cs| && cs[k] != []
        && r == Some(cs[k][0])
        && Contents(queues) == cs[k := cs[k][1..]]
        && (currentIndex, currentPopped) == CursorAfterPop(weights, |queues|, k, cs[i] == [], old(currentPopped))
        && Length() == old(Length()) - 1
        && notices == old(notices) + [Popped(currentTime, Length())]
      ensures old(Empty()) ==> NoticeLogs(queues) == old(NoticeLogs(queues)) && Logs(old(observers)) == old(Logs(observers))
      ensures !old(Empty()) ==>
        var cs := old(Contents(queues)); var k := Chosen(cs, old(currentIndex)); var ls := old(NoticeLogs(queues));
        k < |ls| && NoticeLogs(queues) == ls[k := ls[k] + [Popped(currentTime, |cs[k]|)]]
      ensures !old(Empty()) ==>
        var cs := old(Contents(queues)); var k := Chosen(cs, old(currentIndex));
        k < |queues| &&
        InTurn(old(Standings(k)), Standings(k), Audience(k),
               queues[k].observers, [Popped(currentTime, |cs[k]|)], observers, [Popped(currentTime, Length())])
    {
      if Empty() {
        return None;
      }
      ghost var cs, i := Contents(queues), currentIndex;
      r := Serve(currentTime, cs, i, currentPopped, NoticeLogs(queues), Standings(Chosen(cs, i)));
    }

    /**
     * `pop` of a non-empty composite: the scan, then the pop proper. `cs`,
     * `i`, `p`, `ls` and `s0` are the contents, cursor, counter, notice logs
     * and standings of the chosen child's audience on entry.
     */
    method Serve(currentTime: real, ghost cs: seq<seq<Packet>>, ghost i: nat, ghost p: int,
                 ghost ls: seq<seq<Notice>>, ghost s0: seq<(bool, seq<Notice>)>) returns (r: Option<Packet>)
      requires Valid() && TotalLength(cs) != 0
      requires cs == Contents(queues) && i == currentIndex && p == currentPopped && ls == NoticeLogs(queues)
      requires Chosen(cs, i) < |queues| && s0 == Standings(Chosen(cs, i))
      modifies this`currentIndex, this`currentPopped, this`notices, ChildFrame(Chosen(cs, i))
      ensures Valid() && ObserverLists(queues) == old(ObserverLists(queues))
      ensures var k := Chosen(cs, i);
        && 0 <= k < |cs| && cs[k] != []
        && r == Some(cs[k][0])
        && Contents(queues) == cs[k := cs[k][1..]]
        && (currentIndex, currentPopped) == CursorAfterPop(weights, |queues|, k, cs[i] == [], p)
        && Length() == TotalLength(cs) - 1
        && notices == old(notices) + [Popped(currentTime, Length())]
      ensures var k := Chosen(cs, i);
        k < |ls| && NoticeLogs(queues) == ls[k := ls[k] + [Popped(currentTime, |cs[k]|)]]
      ensures var k := Chosen(cs, i);
        k < |queues| &&
        InTurn(s0, Standings(k), Audience(k),
               queues[k].observers, [Popped(currentTime, |cs[k]|)], observers, [Popped(currentTime, Length())])
    {
      ghost var l := Audience(Chosen(cs, i));
      Seek(l);
      var k: nat := currentIndex;
      r := Take(k, currentTime, cs, i, p, ls, s0);
    }

    /**
     * The pop proper, once the scan from cursor `i` with counter `p` over
     * the contents `cs` stopped on child `k`: takes the child's head (its
     * observers hearing of it), counts it, and then the composite's
     * observers hear of it. `ls` and `s0` are the notice logs and the
     * standings of `Audience(k)` before the scan, which left them as they were.
     */
    method Take(k: nat, currentTime: real, ghost cs: seq<seq<Packet>>, ghost i: nat, ghost p: int,
                ghost ls: seq<seq<Notice>>, ghost s0: seq<(bool, seq<Notice>)>) returns (r: Option<Packet>)
      requires Valid() && i < |cs| && k == currentIndex && k == Chosen(cs, i)
      requires cs == Contents(queues) && cs[k] != [] && currentPopped == (if cs[i] == [] then 0 else p)
      requires ls == NoticeLogs(queues) && s0 == Standings(k)
      modifies this`currentIndex, this`currentPopped, this`notices, queues[k], ObserverObjs(queues[k].observers)
      modifies ObserverObjs(observers)
      ensures Valid() && ObserverLists(queues) == old(ObserverLists(queues)) && observers == old(observers)
      ensures && 0 <= k < |cs| && cs[k] != []
              && r == Some(cs[k][0])
              && Contents(queues) == cs[k := cs[k][1..]]
              && (currentIndex, currentPopped) == CursorAfterPop(weights, |queues|, k, cs[i] == [], p)
              && Length() == TotalLength(cs) - 1
              && notices == old(notices) + [Popped(currentTime, Length())]
      ensures k < |ls| && NoticeLogs(queues) == ls[k := ls[k] + [Popped(currentTime, |cs[k]|)]]
      ensures InTurn(s0, Standings(k), Audience(k),
                     queues[k].observers, [Popped(currentTime, |cs[k]|)], observers, [Popped(currentTime, Length())])
    {
      ghost var a, b, l := queues[k].observers, observers, Audience(k);
      CompositeIsNoObserver(this, a);
      r := Pick(k, currentTime, cs, i, p, ls, s0);
      ghost var s1 := Logs(l);
      CompositeIsNoObserver(this, b);
      Announce(Popped(currentTime, Length()), a);
      StepsInTurn(s0, s1, Logs(l), l, a, [Popped(currentTime, |cs[k]|)], b, [Popped(currentTime, Length())]);
    }

    /** The child's side of `Take`: pops child `k`'s head and counts it, short of the composite's notice. */
    method Pick(k: nat, currentTime: real, ghost cs: seq<seq<Packet>>, ghost i: nat, ghost p: int,
                ghost ls: seq<seq<Notice>>, ghost s0: seq<(bool, seq<Notice>)>) returns (r: Option<Packet>)
      requires Valid() && i < |cs| && k == currentIndex && k == Chosen(cs, i)
      requires cs == Contents(queues) && cs[k] != [] && currentPopped == (if cs[i] == [] then 0 else p)
      requires ls == NoticeLogs(queues) && s0 == Standings(k)
      modifies this`currentIndex, this`currentPopped, queues[k], ObserverObjs(queues[k].observers)
      ensures Valid() && ObserverLists(queues) == old(ObserverLists(queues)) && observers == old(observers)
      ensures && r == Some(cs[k][0])
              && Contents(queues) == cs[k := cs[k][1..]]
              && (currentIndex, currentPopped) == CursorAfterPop(weights, |queues|, k, cs[i] == [], p)
              && Length() == TotalLength(cs) - 1
      ensures NoticeLogs(queues) == ls[k := ls[k] + [Popped(currentTime, |cs[k]|)]]
      ensures Step(s0, Logs(Audience(k)), Audience(k), queues[k].observers, [Popped(currentTime, |cs[k]|)])
    {
      ghost var l := Audience(k);
      assert CursorAfterPop(weights, |queues|, k, false, currentPopped) == CursorAfterPop(weights, |queues|, k, cs[i] == [], p);
      CompositeIsNoObserver(this, queues[k].observers);
      r := Extract(k, currentTime);
      Count(l);
    }

    /**
     * The scan of `pop`: steps the cursor down past the empty children; no
     * child and no observer (those of `l` among them) is touched.
     */
    method Seek(ghost l: seq<Observer>)
      requires CursorValid() && !Empty()
      modifies this`currentIndex, this`currentPopped
      ensures CursorValid() && queues != [] && queues[currentIndex].q != []
      ensures Contents(queues) == old(Contents(queues)) && ObserverLists(queues) == old(ObserverLists(queues))
      ensures NoticeLogs(queues) == old(NoticeLogs(queues)) && Logs(l) == old(Logs(l))
      ensures var cs := Contents(queues); var i := old(currentIndex);
        && currentIndex == Chosen(cs, i)
        && currentPopped == if cs[i] == [] then 0 else old(currentPopped)
    {
      CompositeIsNoObserver(this, l);
      ObjsAllocated(l);
      Rewind();
    }

    /** The loop of `Seek`. */
    method Rewind()
      requires CursorValid() && !Empty()
      modifies this`currentIndex, this`currentPopped
      ensures CursorValid() && queues != [] && queues[currentIndex].q != []
      ensures var cs := Contents(queues); var i := old(currentIndex);
        && currentIndex == Chosen(cs, i)
        && currentPopped == if cs[i] == [] then 0 else old(currentPopped)
    {
      ghost var cs := Contents(queues);
      ghost var n := |queues|;
      ghost var i0 := currentIndex;
      ghost var j :| 0 <= j < n && cs[j] != [];
      ghost var d := ChosenIsFirstNonEmpty(cs, i0, j);
      ghost var e := 0;
      while queues[currentIndex].Empty()
        invariant 0 <= currentIndex < n && e <= n
        invariant Scan(cs, currentIndex, n - e) == Chosen(cs, i0)
        invariant currentPopped == if e == 0 then old(currentPopped) else 0
        invariant if e == 0 then currentIndex == i0 else cs[i0] == []
        decreases n - e
      {
        ghost var c := currentIndex;
        assert cs[c] == [] && n - e > 0;
        assert Scan(cs, c, n - e) == Scan(cs, Prev(c, n), n - e - 1);
        NextQueue();
        e := e + 1;
      }
    }

    /** Pops the head of child `k`, which must not be empty. */
    method Extract(k: nat, currentTime: real) returns (r: Option<Packet>)
      requires Valid() && k < |queues| && queues[k].q != []
      modifies queues[k], ObserverObjs(queues[k].observers)
      ensures Valid() && ObserverLists(queues) == old(ObserverLists(queues)) && observers == old(observers)
      ensures var cs := old(Contents(queues));
        && r == Some(cs[k][0])
        && Contents(queues) == cs[k := cs[k][1..]]
        && Length() == old(Length()) - 1
      ensures var ls := old(NoticeLogs(queues));
        NoticeLogs(queues) == ls[k := ls[k] + [Popped(currentTime, old(|queues[k].q|))]]
      ensures var a := old(queues[k].observers); var l := a + old(observers);
        Step(old(Logs(l)), Logs(l), l, a, [Popped(currentTime, old(|queues[k].q|))])
    {
      var child := queues[k];
      ghost var cs := Contents(queues);
      ghost var lists := ObserverLists(queues);
      ChildrenAreNoObservers(child.observers);
      r := child.Pop(currentTime, child.observers + observers);
      forall j | 0 <= j < |queues| && j != k ensures unchanged(queues[j]) {
        assert queues[j] != child;
      }
      OnlyChildChanged(k);
      assert lists[k] == child.observers;
      assert Contents(queues) == cs[k := cs[k][1..]];
      TotalLengthUpdate(cs, k, cs[k][1..]);
    }

    /**
     * Counts one pop against the current child, moving on once its quota is
     * full; no child and no observer (those of `l` among them) is touched.
     */
    method Count(ghost l: seq<Observer>)
      requires Valid() && queues != []
      modifies this`currentIndex, this`currentPopped
      ensures Valid()
      ensures Contents(queues) == old(Contents(queues)) && ObserverLists(queues) == old(ObserverLists(queues))
      ensures NoticeLogs(queues) == old(NoticeLogs(queues)) && Logs(l) == old(Logs(l))
      ensures (currentIndex, currentPopped) == CursorAfterPop(weights, |queues|, old(currentIndex), false, old(currentPopped))
    {
      CompositeIsNoObserver(this, l);
      ObjsAllocated(l);
      Tally();
    }

    /** The counter update of `Count`. */
    method Tally()
      requires Valid() && queues != []
      modifies this`currentIndex, this`currentPopped
      ensures Valid()
      ensures (currentIndex, currentPopped) == CursorAfterPop(weights, |queues|, old(currentIndex), false, old(currentPopped))
    {
      CursorKeepsQuota(weights, |queues|, currentIndex, false, currentPopped);
      currentPopped := currentPopped + 1;
      if currentPopped == weights[currentIndex] {
        NextQueue();
      }
    }

    /**
     * `BaseQueue.add_packet`/`pop` for the composite: broadcasts the notice
     * and logs it; the children are not observers and stay as they were.
     */
    method Announce(n: Notice, ghost others: seq<Observer>)
      modifies this`notices, ObserverObjs(observers)
      ensures notices == old(notices) + [n] && observers == old(observers)
      ensures var l := others + old(observers); Step(old(Logs(l)), Logs(l), l, old(observers), [n])
      ensures Valid() == old(Valid())
      ensures Contents(queues) == old(Contents(queues)) && ObserverLists(queues) == old(ObserverLists(queues))
      ensures NoticeLogs(queues) == old(NoticeLogs(queues))
    {
      ChildrenAreNoObservers(observers);
      CompositeIsNoObserver(this, others + observers);
      Broadcast(observers, n, others + observers);
      notices := notices + [n];
    }
  }
}
