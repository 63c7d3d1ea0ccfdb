/**
 * Queue observers: a history of admitted packets, and a map from queue
 * length to the time the queue spent at that length.
 */
module Observers {
  import opened Packets

  /**
   * One notification with its keyword arguments: an ADD carries the packet,
   * the time and the length reported by the queue; a POP the time and length.
   */
  datatype Notice =
    | Added(packet: Packet, currentTime: real, newLength: int)
    | Popped(currentTime: real, newLength: int)

  /** The packets of the ADD notices, in order. */
  function AddedPackets(ns: seq<Notice>): (r: seq<Packet>)
    ensures |r| <= |ns|
  {
    if ns == [] then []
    else
      var last := ns[|ns| - 1];
      AddedPackets(ns[..|ns| - 1]) + (if last.Added? then [last.packet] else [])
  }

  /** Receiving one more notice extends the packets by that notice's packet, if any. */
  lemma AddedPacketsSnoc(ns: seq<Notice>, n: Notice)
    ensures AddedPackets(ns + [n]) == AddedPackets(ns) + (if n.Added? then [n.packet] else [])
  {
    assert (ns + [n])[..|ns + [n]| - 1] == ns;
  }

  // ---------------------------------------------------------------- history

  class HistoryObserver {
    var history: seq<Packet>
    ghost var seen: seq<Notice>

    /** The history is exactly the packets of the ADD notices received so far. */
    ghost predicate Valid()
      reads this
    {
      history == AddedPackets(seen)
    }

    constructor ()
      ensures Valid() && seen == [] && history == []
    {
      history := [];
      seen := [];
    }

    /** Appends the packet of an ADD notice; ignores POP notices. */
    method Update(n: Notice)
      modifies this
      ensures (old(Valid()) ==> Valid()) && seen == old(seen) + [n]
      ensures history == old(history) + (if n.Added? then [n.packet] else [])
    {
      AddedPacketsSnoc(seen, n);
      if n.Added? {
        history := history + [n.packet];
      }
      seen := seen + [n];
    }
  }

  // ----------------------------------------------------- sums over bucket maps

  /** The value a bucket contributes to the total time. */
  function BucketTime(length: int, time: real): real {
    time
  }

  /** The value a bucket contributes to the time-weighted length. */
  function LengthTimesTime(length: int, time: real): real {
    length as real * time
  }

  lemma NonEmptyMapHasKey(m: map<int, real>)
    requires m != map[]
    ensures exists k :: k in m.Keys
  {
    if forall k :: k !in m.Keys {
      assert false;
    }
  }

  /** The sum of `f(key, value)` over a finite map, in no particular order. */
  ghost function MapSum(m: map<int, real>, f: (int, real) -> real): real
    decreases |m|
  {
    if m == map[] then 0.0
    else
      NonEmptyMapHasKey(m);
      var k :| k in m.Keys;
      f(k, m[k]) + MapSum(m - {k}, f)
  }

  /** The sum does not depend on which key is taken out first. */
  lemma {:induction false} MapSumRemove(m: map<int, real>, f: (int, real) -> real, k: int)
    requires k in m
    ensures MapSum(m, f) == f(k, m[k]) + MapSum(m - {k}, f)
    decreases |m|
  {
    var j :| j in m && MapSum(m, f) == f(j, m[j]) + MapSum(m - {j}, f);
    if j != k {
      var mj, mk := m - {j}, m - {k};
      MapSumRemove(mj, f, k);
      MapSumRemove(mk, f, j);
      assert mj - {k} == mk - {j};
    }
  }

  /** `safe_add`: adds `delta` to bucket `length`, creating the bucket if it is absent. */
  function Credit(m: map<int, real>, length: int, delta: real): (r: map<int, real>)
    ensures r.Keys == m.Keys + {length}
    ensures r[length] == (if length in m then m[length] else 0.0) + delta
    ensures forall k :: k in m && k != length ==> r[k] == m[k]
  {
    if length in m then m[length := m[length] + delta] else m[length := delta]
  }

  /** Crediting `delta` to bucket `length` adds `delta` to the total time. */
  lemma CreditTotal(m: map<int, real>, length: int, delta: real)
    ensures MapSum(Credit(m, length, delta), BucketTime) == MapSum(m, BucketTime) + delta
  {
    var r := Credit(m, length, delta);
    MapSumRemove(r, BucketTime, length);
    assert r - {length} == m - {length};
    if length in m {
      MapSumRemove(m, BucketTime, length);
    } else {
      assert m - {length} == m;
    }
  }

  /** A bucket of length `length` grown by `d` weighs `length * d` more. */
  lemma CreditedTerm(length: int, x: real, d: real, y: real)
    requires y == x + d
    ensures LengthTimesTime(length, y) == LengthTimesTime(length, x) + length as real * d
  {
  }

  /** Crediting `delta` to bucket `length` adds `length * delta` to the time-weighted length. */
  lemma CreditWeighted(m: map<int, real>, length: int, delta: real)
    ensures MapSum(Credit(m, length, delta), LengthTimesTime)
         == MapSum(m, LengthTimesTime) + length as real * delta
  {
    var r := Credit(m, length, delta);
    var rest := MapSum(m - {length}, LengthTimesTime);
    MapSumRemove(r, LengthTimesTime, length);
    assert r - {length} == m - {length};
    assert MapSum(r, LengthTimesTime) == LengthTimesTime(length, r[length]) + rest;
    if length in m {
      MapSumRemove(m, LengthTimesTime, length);
      assert MapSum(m, LengthTimesTime) == LengthTimesTime(length, m[length]) + rest;
      CreditedTerm(length, m[length], delta, r[length]);
    } else {
      assert m - {length} == m;
      assert r[length] == delta;
      assert LengthTimesTime(length, r[length]) == length as real * delta;
    }
  }

  // ------------------------------------------------------------ length/time

  /** The bucket a notice credits: `new_length - 1` for an ADD, `new_length + 1` for a POP. */
  function CreditedLength(n: Notice): int {
    match n
    case Added(_, _, len) => len - 1
    case Popped(_, len) => len + 1
  }

  /** The time of the last notice, 0 before any. */
  function LastTime(ns: seq<Notice>): real {
    if ns == [] then 0.0 else ns[|ns| - 1].currentTime
  }

  /** The bucket map after receiving `ns`: each notice credits the time since the previous one. */
  function Buckets(ns: seq<Notice>): map<int, real> {
    if ns == [] then map[]
    else
      var prefix, last := ns[..|ns| - 1], ns[|ns| - 1];
      Credit(Buckets(prefix), CreditedLength(last), last.currentTime - LastTime(prefix))
  }

  /** Times are never negative and never decrease. */
  ghost predicate NonDecreasingTimes(ns: seq<Notice>) {
    && (forall i :: 0 <= i < |ns| ==> 0.0 <= ns[i].currentTime)
    && (forall i, j :: 0 <= i < j < |ns| ==> ns[i].currentTime <= ns[j].currentTime)
  }

  /** The bucket times telescope: they add up to the time of the last notice. */
  lemma {:induction false} BucketsTelescope(ns: seq<Notice>)
    ensures MapSum(Buckets(ns), BucketTime) == LastTime(ns)
  {
    if ns != [] {
      var prefix, last := ns[..|ns| - 1], ns[|ns| - 1];
      BucketsTelescope(prefix);
      CreditTotal(Buckets(prefix), CreditedLength(last), last.currentTime - LastTime(prefix));
    }
  }

  /** With times that never go back, no bucket holds a negative time. */
  lemma {:induction false} BucketsNonNegative(ns: seq<Notice>)
    requires NonDecreasingTimes(ns)
    ensures forall k :: k in Buckets(ns) ==> Buckets(ns)[k] >= 0.0
  {
    if ns != [] {
      var prefix := ns[..|ns| - 1];
      BucketsNonNegative(prefix);
      assert LastTime(prefix) <= ns[|ns| - 1].currentTime by {
        if prefix != [] {
          assert prefix[|prefix| - 1] == ns[|ns| - 2];
        }
      }
    }
  }

  /** With no negative length and no negative time, the time-weighted length is not negative. */
  lemma {:induction false} WeightedLengthNonNegative(m: map<int, real>)
    requires forall k :: k in m ==> 0 <= k && m[k] >= 0.0
    ensures 0.0 <= MapSum(m, LengthTimesTime)
    decreases |m|
  {
    if m != map[] {
      NonEmptyMapHasKey(m);
      var k :| k in m.Keys;
      WeightedLengthNonNegative(m - {k});
      MapSumRemove(m, LengthTimesTime, k);
      assert 0.0 <= LengthTimesTime(k, m[k]);
    }
  }

  class LengthObserver {
    var lengthToTime: map<int, real>
    var previousUpdate: real
    ghost var seen: seq<Notice>

    /** The map and the last update time are those obtained by folding the notices received. */
    ghost predicate Valid()
      reads this
    {
      lengthToTime == Buckets(seen) && previousUpdate == LastTime(seen)
    }

    constructor ()
      ensures Valid() && seen == [] && lengthToTime == map[] && previousUpdate == 0.0
    {
      lengthToTime := map[];
      previousUpdate := 0.0;
      seen := [];
    }

    method SafeAdd(length: int, delta: real)
      modifies this`lengthToTime
      ensures lengthToTime == Credit(old(lengthToTime), length, delta)
    {
      if length in lengthToTime {
        lengthToTime := lengthToTime[length := lengthToTime[length] + delta];
      } else {
        lengthToTime := lengthToTime[length := delta];
      }
    }

    method HandleAdd(currentTime: real, newLength: int)
      modifies this`lengthToTime
      ensures lengthToTime == Credit(old(lengthToTime), newLength - 1, currentTime - previousUpdate)
    {
      SafeAdd(newLength - 1, currentTime - previousUpdate);
    }

    method HandlePop(currentTime: real, newLength: int)
      modifies this`lengthToTime
      ensures lengthToTime == Credit(old(lengthToTime), newLength + 1, currentTime - previousUpdate)
    {
      SafeAdd(newLength + 1, currentTime - previousUpdate);
    }

    /** Credits the elapsed time to the notice's bucket, then records the notice's time. */
    method Update(n: Notice)
      modifies this
      ensures (old(Valid()) ==> Valid()) && seen == old(seen) + [n]
      ensures previousUpdate == n.currentTime
      ensures lengthToTime == Credit(old(lengthToTime), CreditedLength(n), n.currentTime - old(previousUpdate))
    {
      match n {
        case Added(_, t, len) => HandleAdd(t, len);
        case Popped(t, len) => HandlePop(t, len);
      }
      previousUpdate := n.currentTime;
      seen := seen + [n];
      assert seen[..|seen| - 1] == old(seen);
    }

    /** The sum of length * time over the buckets. */
    method GetTimeWeightedLength() returns (sum: real)
      ensures sum == MapSum(lengthToTime, LengthTimesTime)
    {
      sum := 0.0;
      var rest := lengthToTime;
      while rest != map[]
        invariant sum + MapSum(rest, LengthTimesTime) == MapSum(lengthToTime, LengthTimesTime)
        decreases |rest|
      {
        var k :| k in rest;
        MapSumRemove(rest, LengthTimesTime, k);
        sum := sum + k as real * rest[k];
        rest := rest - {k};
      }
    }
  }

  /** Since the map was last empty, the bucket times add up to the time of the last update. */
  lemma LengthObserverTotal(o: LengthObserver)
    requires o.Valid()
    ensures MapSum(o.lengthToTime, BucketTime) == o.previousUpdate
  {
    BucketsTelescope(o.seen);
  }

  // ------------------------------------------------------- either observer

  /** A registered observer: one of the two kinds above. */
  datatype Observer = History(h: HistoryObserver) | Length(l: LengthObserver) {
    function Obj(): object {
      match this
      case History(h) => h
      case Length(l) => l
    }

    ghost predicate Valid()
      reads Obj()
    {
      match this
      case History(h) => h.Valid()
      case Length(l) => l.Valid()
    }

    /** The notices this observer has received. */
    ghost function Seen(): seq<Notice>
      reads Obj()
    {
      match this
      case History(h) => h.seen
      case Length(l) => l.seen
    }

    /** Hands one notice to the observer; a valid observer stays valid. */
    method Update(n: Notice)
      modifies Obj()
      ensures (old(Valid()) ==> Valid()) && Seen() == old(Seen()) + [n]
    {
      match this
      case History(h) => h.Update(n);
      case Length(l) => l.Update(n);
    }
  }
}
