/**
 * What every queue discipline shares: an ordered list of registered
 * observers and the synchronous broadcast of one notice to all of them.
 */
module QueueBase {
  import opened Observers

  /** The objects behind a list of observers. */
  function ObserverObjs(observers: seq<Observer>): set<object> {
    set o | o in observers :: o.Obj()
  }

  /** The objects behind a list of observers exist in the state where the list does. */
  lemma ObjsAllocated(observers: seq<Observer>)
    ensures forall o :: o in ObserverObjs(observers) ==> allocated(o)
  {
    forall o | o in ObserverObjs(observers) ensures allocated(o) {
      var x :| x in observers && x.Obj() == o;
    }
  }

  /** Every registered observer satisfies its own invariant. */
  ghost predicate AllReady(observers: seq<Observer>)
    reads ObserverObjs(observers)
  {
    forall o | o in observers :: o.Valid()
  }

  /** Every observer that satisfied its invariant in the previous state still does. */
  twostate predicate KeptReady(observers: seq<Observer>)
    reads ObserverObjs(observers)
  {
    forall o | o in observers :: old(o.Valid()) ==> o.Valid()
  }

  /** No observer object is registered twice. */
  predicate Distinct(observers: seq<Observer>) {
    forall i, j :: 0 <= i < j < |observers| ==> observers[i].Obj() != observers[j].Obj()
  }

  /** How many entries of the list stand for the object `o`. */
  function Occurrences(observers: seq<Observer>, o: object): nat {
    if observers == [] then 0
    else Occurrences(observers[..|observers| - 1], o) + (if observers[|observers| - 1].Obj() == o then 1 else 0)
  }

  /** `k` copies of the notices `s`, one after the other. */
  function Repeat(s: seq<Notice>, k: nat): seq<Notice> {
    if k == 0 || s == [] then [] else Repeat(s, k - 1) + s
  }

  /** An object registered once occurs once, so it receives `s` exactly once. */
  lemma {:induction false} OccursOnce(observers: seq<Observer>, i: nat, s: seq<Notice>)
    requires Distinct(observers) && i < |observers|
    ensures Occurrences(observers, observers[i].Obj()) == 1
    ensures Repeat(s, 1) == s
  {
    var m := |observers| - 1;
    var init := observers[..m];
    if i < m {
      assert Distinct(init) by {
        forall a, b | 0 <= a < b < |init| ensures init[a].Obj() != init[b].Obj() {
          assert init[a] == observers[a] && init[b] == observers[b];
        }
      }
      OccursOnce(init, i, s);
      assert init[i] == observers[i] && observers[i].Obj() != observers[m].Obj();
    } else {
      Absent(observers, m, observers[m].Obj());
      assert observers[..m] == init;
    }
  }

  /** An object none of the first `m` entries stands for does not occur among them. */
  lemma {:induction false} Absent(observers: seq<Observer>, m: nat, o: object)
    requires m <= |observers| && forall a :: 0 <= a < m ==> observers[a].Obj() != o
    ensures Occurrences(observers[..m], o) == 0
  {
    if m > 0 {
      assert observers[..m][..m - 1] == observers[..m - 1];
      Absent(observers, m - 1, o);
    }
  }

  /**
   * Between the previous state and this one, the ready observers stayed
   * ready and each received `sent` once for every time its object is
   * registered in the list.
   */
  twostate predicate Delivered(observers: seq<Observer>, new sent: seq<Notice>)
    reads ObserverObjs(observers)
  {
    && KeptReady(observers)
    && (forall i :: 0 <= i < |observers| ==>
          observers[i].Seen() == old(observers[i].Seen()) + Repeat(sent, Occurrences(observers, observers[i].Obj())))
  }

  lemma SameObjectSameObserver(a: Observer, b: Observer)
    requires a.Obj() == b.Obj()
    ensures a == b
  {
  }

  /** An observer missing from the list has no registration there, and its object is not behind the list. */
  lemma {:induction false} NotRegistered(observers: seq<Observer>, o: Observer)
    requires o !in observers
    ensures Occurrences(observers, o.Obj()) == 0 && o.Obj() !in ObserverObjs(observers)
  {
    if observers != [] {
      var m := |observers| - 1;
      assert observers[m] != o;
      NotRegistered(observers[..m], o);
      if o.Obj() in ObserverObjs(observers) {
        var p :| p in observers && p.Obj() == o.Obj();
        SameObjectSameObserver(p, o);
      }
    }
  }

  /**
   * What one broadcast did to an observer: `x` is `(o, observers, sent)`,
   * and `o` received one copy of `sent` per registration of its object in
   * `observers`, none when it is not registered and nothing else touched it.
   */
  twostate lemma Heard(x: (Observer, seq<Observer>, seq<Notice>))
    requires Delivered(x.1, x.2)
    requires x.0 !in x.1 ==> unchanged(x.0.Obj())
    ensures old(x.0.Valid()) ==> x.0.Valid()
    ensures x.0.Seen() == old(x.0.Seen()) + Repeat(x.2, Occurrences(x.1, x.0.Obj()))
  {
    var (o, observers, sent) := x;
    if o in observers {
      var i :| 0 <= i < |observers| && observers[i] == o;
    } else {
      NotRegistered(observers, o);
    }
  }

  /** Where each observer of the list stands: whether it is ready, and what it has heard. */
  ghost function Logs(list: seq<Observer>): (r: seq<(bool, seq<Notice>)>)
    reads ObserverObjs(list)
    ensures |r| == |list|
  {
    seq(|list|, i requires 0 <= i < |list| reads ObserverObjs(list) => (list[i].Valid(), list[i].Seen()))
  }

  /**
   * From the standings `s0` to `s1` of the observers `list`: each one ready
   * stayed ready and heard `sent` once per registration of its object in
   * `from`, and nothing more.
   */
  predicate Step(s0: seq<(bool, seq<Notice>)>, s1: seq<(bool, seq<Notice>)>, list: seq<Observer>, from: seq<Observer>, sent: seq<Notice>) {
    && |s0| == |list| && |s1| == |list|
    && forall i :: 0 <= i < |list| ==>
         && (s0[i].0 ==> s1[i].0)
         && s1[i].1 == s0[i].1 + Repeat(sent, Occurrences(from, list[i].Obj()))
  }

  /**
   * Two broadcasts in turn, from the standings `s0` to `s2`: `first` to the
   * observers `a`, then `second` to the observers `b`. Each observer of
   * `list` that was ready stayed ready, and an object registered in both
   * lists hears both, in that order.
   */
  predicate InTurn(s0: seq<(bool, seq<Notice>)>, s2: seq<(bool, seq<Notice>)>, list: seq<Observer>,
                   a: seq<Observer>, first: seq<Notice>, b: seq<Observer>, second: seq<Notice>) {
    && |s0| == |list| && |s2| == |list|
    && forall i :: 0 <= i < |list| ==>
         && (s0[i].0 ==> s2[i].0)
         && s2[i].1 == s0[i].1 + Repeat(first, Occurrences(a, list[i].Obj())) + Repeat(second, Occurrences(b, list[i].Obj()))
  }

  /** Two steps, one after the other, are the two broadcasts in turn. */
  lemma StepsInTurn(s0: seq<(bool, seq<Notice>)>, s1: seq<(bool, seq<Notice>)>, s2: seq<(bool, seq<Notice>)>, list: seq<Observer>,
                    a: seq<Observer>, first: seq<Notice>, b: seq<Observer>, second: seq<Notice>)
    requires Step(s0, s1, list, a, first) && Step(s1, s2, list, b, second)
    ensures InTurn(s0, s2, list, a, first, b, second)
  {
    forall i | 0 <= i < |list|
      ensures s2[i].1 == s0[i].1 + Repeat(first, Occurrences(a, list[i].Obj())) + Repeat(second, Occurrences(b, list[i].Obj()))
    {
      assert s1[i].1 == s0[i].1 + Repeat(first, Occurrences(a, list[i].Obj()));
    }
  }

  /** Sending nothing is a step that changes no standing. */
  lemma {:induction false} SilentStep(s: seq<(bool, seq<Notice>)>, list: seq<Observer>, from: seq<Observer>)
    requires |s| == |list|
    ensures Step(s, s, list, from, [])
  {
    forall i | 0 <= i < |list| ensures s[i].1 == s[i].1 + Repeat([], Occurrences(from, list[i].Obj())) {
      assert Repeat([], Occurrences(from, list[i].Obj())) == [];
    }
  }

  /**
   * One broadcast seen from a list: `x` is `(from, sent, list)`. After
   * `sent` went to the observers `from`, and nothing else touched the
   * observers of `list` that are not among them, every observer of `list`
   * took one step: `sent` once per registration in `from`.
   */
  twostate lemma Logged(x: (seq<Observer>, seq<Notice>, seq<Observer>))
    requires Delivered(x.0, x.1)
    requires forall j :: 0 <= j < |x.2| && x.2[j].Obj() !in ObserverObjs(x.0) ==> unchanged(x.2[j].Obj())
    ensures Step(old(Logs(x.2)), Logs(x.2), x.2, x.0, x.1)
  {
    var (from, sent, list) := x;
    forall j | 0 <= j < |list|
      ensures && (old(list[j].Valid()) ==> list[j].Valid())
              && list[j].Seen() == old(list[j].Seen()) + Repeat(sent, Occurrences(from, list[j].Obj()))
    {
      if list[j] !in from {
        NotRegistered(from, list[j]);
      }
      Heard((list[j], from, sent));
    }
  }

  /**
   * Hands the notice to observer `i`: the ready observers stay ready, and
   * every entry standing for the same object receives it, the others nothing.
   */
  method NotifyOne(observers: seq<Observer>, i: nat, n: Notice)
    requires i < |observers|
    modifies observers[i].Obj()
    ensures forall o | o in observers :: old(o.Valid()) ==> o.Valid()
    ensures forall j :: 0 <= j < |observers| ==>
      observers[j].Seen() == old(observers[j].Seen()) + (if observers[j].Obj() == observers[i].Obj() then [n] else [])
  {
    observers[i].Update(n);
    forall o | o in observers && old(o.Valid())
      ensures o.Valid()
    {
      if o.Obj() == observers[i].Obj() {
        SameObjectSameObserver(o, observers[i]);
      }
    }
    forall j | 0 <= j < |observers|
      ensures observers[j].Seen() == old(observers[j].Seen()) + (if observers[j].Obj() == observers[i].Obj() then [n] else [])
    {
      if observers[j].Obj() == observers[i].Obj() {
        SameObjectSameObserver(observers[j], observers[i]);
      }
    }
  }

  /** One more entry notified: an object heard the notice once more if that entry stands for it. */
  lemma HeardOneMore(observers: seq<Observer>, i: nat, n: Notice, o: object, first: seq<Notice>, before: seq<Notice>, after: seq<Notice>)
    requires i < |observers|
    requires before == first + Repeat([n], Occurrences(observers[..i], o))
    requires after == before + (if observers[i].Obj() == o then [n] else [])
    ensures after == first + Repeat([n], Occurrences(observers[..i + 1], o))
  {
    assert observers[..i + 1][..i] == observers[..i];
  }

  /**
   * `update_observers`: hands the notice to each observer, in registration
   * order; an object registered twice hears it twice.
   */
  method Notify(observers: seq<Observer>, n: Notice)
    modifies ObserverObjs(observers)
    ensures Delivered(observers, [n])
  {
    for i := 0 to |observers|
      invariant forall o | o in observers :: old(o.Valid()) ==> o.Valid()
      invariant forall j :: 0 <= j < |observers| ==>
        observers[j].Seen() == old(observers[j].Seen()) + Repeat([n], Occurrences(observers[..i], observers[j].Obj()))
    {
      label before:
      NotifyOne(observers, i, n);
      forall j | 0 <= j < |observers|
        ensures observers[j].Seen() == old(observers[j].Seen()) + Repeat([n], Occurrences(observers[..i + 1], observers[j].Obj()))
      {
        HeardOneMore(observers, i, n, observers[j].Obj(), old(observers[j].Seen()), old@before(observers[j].Seen()), observers[j].Seen());
      }
    }
    assert observers[..|observers|] == observers;
  }

  /**
   * `update_observers` seen from any list `l` of observers: each of them
   * hears the notice once per registration in `observers`, and those not
   * registered there are left alone.
   */
  method Broadcast(observers: seq<Observer>, n: Notice, ghost l: seq<Observer>)
    modifies ObserverObjs(observers)
    ensures Step(old(Logs(l)), Logs(l), l, observers, [n])
  {
    Notify(observers, n);
    forall j | 0 <= j < |l| && l[j].Obj() !in ObserverObjs(observers) ensures unchanged(l[j].Obj()) {
    }
    Logged((observers, [n], l));
  }
}
