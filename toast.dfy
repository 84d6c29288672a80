/** The toast queue: module-level state holding at most three notifications,
    a counter that numbers them, and the listeners that receive a copy of the
    queue after every change. Auto-removal after four seconds is an explicit
    `RemoveToast` call here. */
module Toasts {
  import opened Common

  datatype ToastKind = Success | Error

  /** A notification. The source's id is the decimal text of the counter;
      here it is the counter's value. */
  datatype Toast = Toast(id: nat, kind: ToastKind, message: string)

  const MaxToasts: nat := 3

  /** A registered listener, by the handle it was registered with. */
  type Listener = nat

  /** One call of a listener with the copy of the queue it was given. */
  datatype Delivery = Delivery(listener: Listener, toasts: seq<Toast>)

  /** Ids strictly increase from the front of the queue to the back. */
  predicate IdsIncreasing(q: seq<Toast>)
  {
    forall i, j :: 0 <= i < j < |q| ==> q[i].id < q[j].id
  }

  /** `shift` when full, then `push`. */
  function Enqueue(q: seq<Toast>, t: Toast): (r: seq<Toast>)
    ensures |q| <= MaxToasts ==> |r| <= MaxToasts
    ensures |r| > 0 && r[|r| - 1] == t
    ensures |q| >= MaxToasts ==> r == q[1..] + [t]
    ensures |q| < MaxToasts ==> r == q + [t]
  {
    (if |q| >= MaxToasts then q[1..] else q) + [t]
  }

  /** A toast numbered above every queued one keeps the ids increasing. */
  lemma EnqueueKeepsOrder(q: seq<Toast>, t: Toast)
    requires IdsIncreasing(q)
    requires forall i :: 0 <= i < |q| ==> q[i].id < t.id
    ensures IdsIncreasing(Enqueue(q, t))
  {
    var r := Enqueue(q, t);
    var base := if |q| >= MaxToasts then q[1..] else q;
    forall i, j | 0 <= i < j < |r| ensures r[i].id < r[j].id {
      if |q| >= MaxToasts {
        assert r[i] == q[i + 1];
        if j < |r| - 1 { assert r[j] == q[j + 1]; }
      } else {
        assert r[i] == q[i];
        if j < |r| - 1 { assert r[j] == q[j]; }
      }
    }
  }

  /** `findIndex(toast => toast.id === id)`. */
  function FindIndex(q: seq<Toast>, id: nat): (r: Option<nat>)
    ensures r.Some? ==> r.value < |q| && q[r.value].id == id
    ensures r.Some? ==> forall k :: 0 <= k < r.value ==> q[k].id != id
    ensures r.None? ==> forall k :: 0 <= k < |q| ==> q[k].id != id
  {
    if q == [] then None
    else if q[0].id == id then Some(0)
    else match FindIndex(q[1..], id)
      case None => None
      case Some(k) => Some(k + 1)
  }

  /** What `removeToast` leaves: the queue without the first entry with that
      id, or the queue itself when no entry has it. */
  function RemoveId(q: seq<Toast>, id: nat): (r: seq<Toast>)
    ensures FindIndex(q, id).None? ==> r == q
    ensures FindIndex(q, id).Some? ==>
      |r| == |q| - 1 && multiset(r) == multiset(q) - multiset{q[FindIndex(q, id).value]}
  {
    match FindIndex(q, id)
    case None => q
    case Some(i) =>
      assert q == q[..i] + [q[i]] + q[i + 1..];
      q[..i] + q[i + 1..]
  }

  /** With distinct ids, removal takes out exactly the entry with that id and
      keeps the others in their order. */
  lemma RemoveIdMeaning(q: seq<Toast>, id: nat)
    requires IdsIncreasing(q)
    ensures forall t :: t in RemoveId(q, id) <==> t in q && t.id != id
    ensures IsSubsequence(RemoveId(q, id), q)
    ensures IdsIncreasing(RemoveId(q, id))
    ensures FindIndex(q, id).None? ==> RemoveId(q, id) == q
    ensures FindIndex(q, id).Some? ==> |RemoveId(q, id)| == |q| - 1
  {
    match FindIndex(q, id)
    case None =>
      SubsequenceReflexive(q);
    case Some(i) =>
      RemoveAtMembers(q, i, id);
      RemoveAtIncreasing(q, i);
      RemoveAtIsSubsequence(q, i);
  }

  /** Removal keeps the queue's bound, order and id range. */
  lemma RemoveIdKeepsIds(q: seq<Toast>, id: nat, top: nat)
    requires |q| <= MaxToasts && IdsIncreasing(q)
    requires forall i :: 0 <= i < |q| ==> 0 < q[i].id <= top
    ensures |RemoveId(q, id)| <= MaxToasts && IdsIncreasing(RemoveId(q, id))
    ensures forall i :: 0 <= i < |RemoveId(q, id)| ==> 0 < RemoveId(q, id)[i].id <= top
  {
    RemoveIdMeaning(q, id);
    var r := RemoveId(q, id);
    forall i | 0 <= i < |r| ensures 0 < r[i].id <= top {
      assert r[i] in r;
    }
  }

  lemma RemoveAtMembers(q: seq<Toast>, i: nat, id: nat)
    requires IdsIncreasing(q) && i < |q| && q[i].id == id
    ensures forall t :: t in q[..i] + q[i + 1..] <==> t in q && t.id != id
  {
    forall t ensures t in q[..i] + q[i + 1..] <==> t in q && t.id != id {
      if t in q && t.id != id { KeptEntry(q, i, t); }
      if t in q[..i] + q[i + 1..] { DroppedEntry(q, i, t); }
    }
  }

  lemma KeptEntry(q: seq<Toast>, i: nat, t: Toast)
    requires i < |q| && t in q && t.id != q[i].id
    ensures t in q[..i] + q[i + 1..]
  {
    var r := q[..i] + q[i + 1..];
    var k :| 0 <= k < |q| && q[k] == t;
    if k < i { assert r[k] == t; } else { assert r[k - 1] == t; }
  }

  lemma DroppedEntry(q: seq<Toast>, i: nat, t: Toast)
    requires IdsIncreasing(q) && i < |q| && t in q[..i] + q[i + 1..]
    ensures t in q && t.id != q[i].id
  {
    var r := q[..i] + q[i + 1..];
    var k :| 0 <= k < |r| && r[k] == t;
    if k < i {
      assert q[k] == t;
    } else {
      assert q[k + 1] == t;
    }
  }

  lemma RemoveAtIncreasing(q: seq<Toast>, i: nat)
    requires IdsIncreasing(q) && i < |q|
    ensures IdsIncreasing(q[..i] + q[i + 1..])
  {
    var r := q[..i] + q[i + 1..];
    forall a, b | 0 <= a < b < |r| ensures r[a].id < r[b].id {
      var a', b' := if a < i then a else a + 1, if b < i then b else b + 1;
      assert r[a] == q[a'] && r[b] == q[b'];
    }
  }

  /** `listeners.indexOf(l)` followed by `splice`: drops the first occurrence. */
  function RemoveFirst(ls: seq<Listener>, l: Listener): (r: seq<Listener>)
    ensures l in ls ==> multiset(r) == multiset(ls) - multiset{l} && |r| == |ls| - 1
    ensures l !in ls ==> r == ls
  {
    if ls == [] then []
    else if ls[0] == l then
      assert ls == [ls[0]] + ls[1..];
      ls[1..]
    else
      assert ls == [ls[0]] + ls[1..];
      [ls[0]] + RemoveFirst(ls[1..], l)
  }

  /** Unregistering removes the first occurrence of the listener and keeps the
      others in registration order. */
  lemma {:induction false} RemoveFirstKeepsOrder(ls: seq<Listener>, l: Listener)
    ensures l in ls ==>
      exists k :: 0 <= k < |ls| && ls[k] == l && l !in ls[..k] && RemoveFirst(ls, l) == ls[..k] + ls[k + 1..]
  {
    if ls != [] && l in ls {
      if ls[0] == l {
        assert ls[..0] + ls[0 + 1..] == ls[1..];
        assert l !in ls[..0];
      } else {
        var t := ls[1..];
        assert l in t by { assert ls == [ls[0]] + t; }
        RemoveFirstKeepsOrder(t, l);
        var k :| 0 <= k < |t| && t[k] == l && l !in t[..k] && RemoveFirst(t, l) == t[..k] + t[k + 1..];
        SpliceCons(ls, k);
        assert ls[k + 1] == l && l !in ls[..k + 1];
        assert RemoveFirst(ls, l) == ls[..k + 1] + ls[k + 1 + 1..];
      }
    }
  }

  /** Every registered listener, in registration order, called with the queue. */
  function Broadcast(ls: seq<Listener>, q: seq<Toast>): (r: seq<Delivery>)
    ensures |r| == |ls|
    ensures forall i :: 0 <= i < |ls| ==> r[i] == Delivery(ls[i], q)
  {
    seq(|ls|, i requires 0 <= i < |ls| => Delivery(ls[i], q))
  }

  /** The module's state. */
  class ToastCenter {
    var toasts: seq<Toast>
    var toastId: nat
    var listeners: seq<Listener>
    /** Every listener call so far, in order. */
    var deliveries: seq<Delivery>

    ghost predicate Valid()
      reads this
    {
      |toasts| <= MaxToasts
      && IdsIncreasing(toasts)
      && forall i :: 0 <= i < |toasts| ==> 0 < toasts[i].id <= toastId
    }

    constructor ()
      ensures Valid()
      ensures toasts == [] && toastId == 0 && listeners == [] && deliveries == []
    {
      toasts := [];
      toastId := 0;
      listeners := [];
      deliveries := [];
    }

    /** `listeners.forEach(listener => listener([...toasts]))`. */
    method Notify()
      modifies this
      ensures deliveries == old(deliveries) + Broadcast(listeners, toasts)
      ensures toasts == old(toasts) && toastId == old(toastId) && listeners == old(listeners)
    {
      var i := 0;
      while i < |listeners|
        invariant 0 <= i <= |listeners|
        invariant deliveries == old(deliveries) + Broadcast(listeners[..i], toasts)
        invariant toasts == old(toasts) && toastId == old(toastId) && listeners == old(listeners)
      {
        assert listeners[..i + 1] == listeners[..i] + [listeners[i]];
        assert Broadcast(listeners[..i + 1], toasts) == Broadcast(listeners[..i], toasts) + [Delivery(listeners[i], toasts)];
        deliveries := deliveries + [Delivery(listeners[i], toasts)];
        i := i + 1;
      }
      assert listeners[..i] == listeners;
    }

    method ShowToast(kind: ToastKind, message: string) returns (id: nat)
      requires Valid()
      modifies this
      ensures Valid()
      ensures id == old(toastId) + 1 && toastId == id
      ensures toasts == Enqueue(old(toasts), Toast(id, kind, message))
      ensures listeners == old(listeners)
      ensures deliveries == old(deliveries) + Broadcast(listeners, toasts)
    {
      toastId := toastId + 1;
      id := toastId;
      var toast := Toast(id, kind, message);
      EnqueueKeepsOrder(toasts, toast);
      if |toasts| >= MaxToasts {
        toasts := toasts[1..];
      }
      toasts := toasts + [toast];
      Notify();
    }

    method RemoveToast(id: nat)
      requires Valid()
      modifies this
      ensures Valid()
      ensures toasts == RemoveId(old(toasts), id)
      ensures FindIndex(old(toasts), id).None? ==> deliveries == old(deliveries)
      ensures FindIndex(old(toasts), id).Some? ==> deliveries == old(deliveries) + Broadcast(listeners, toasts)
      ensures toastId == old(toastId) && listeners == old(listeners)
    {
      var index := FindIndex(toasts, id);
      RemoveIdKeepsIds(toasts, id, toastId);
      if index.Some? {
        toasts := RemoveId(toasts, id);
        Notify();
      }
    }

    method Register(l: Listener)
      modifies this
      ensures listeners == old(listeners) + [l]
      ensures toasts == old(toasts) && toastId == old(toastId) && deliveries == old(deliveries)
    {
      listeners := listeners + [l];
    }

    method Unregister(l: Listener)
      modifies this
      ensures listeners == RemoveFirst(old(listeners), l)
      ensures toasts == old(toasts) && toastId == old(toastId) && deliveries == old(deliveries)
    {
      listeners := RemoveFirst(listeners, l);
    }
  }

  /** Showing a toast and then removing it by its id (the timer's call)
      leaves a queue that was not full as it was. */
  lemma ShowThenRemove(q: seq<Toast>, t: Toast)
    requires IdsIncreasing(q) && |q| < MaxToasts
    requires forall i :: 0 <= i < |q| ==> q[i].id < t.id
    ensures RemoveId(Enqueue(q, t), t.id) == q
  {
    var r := Enqueue(q, t);
    assert r == q + [t];
    FindLast(q, t);
  }

  lemma {:induction false} FindLast(q: seq<Toast>, t: Toast)
    requires forall i :: 0 <= i < |q| ==> q[i].id != t.id
    ensures FindIndex(q + [t], t.id) == Some(|q|)
  {
    if q != [] {
      assert (q + [t])[1..] == q[1..] + [t];
      FindLast(q[1..], t);
    }
  }
}
