/** The subject of the observer pattern (observer/Subject.js): a list of
    observers without duplicates, delivered to in list order. An observer
    without an `update` function is kept in the list but skipped when
    notifying; which observers have one is a parameter of each notification. */
module Subjects {
  import opened Common

  /** The calls made by the forEach of `notifyObservers`: one `update` per
      listed observer that has one, in list order. */
  function Deliverable(observers: seq<ObserverId>, responds: set<ObserverId>, message: string): (ds: seq<Delivery>)
    ensures |ds| <= |observers|
    ensures forall i :: 0 <= i < |ds| ==>
              ds[i].message == message && ds[i].observer in responds && ds[i].observer in observers
  {
    if observers == [] then []
    else
      var last := observers[|observers| - 1];
      Deliverable(observers[..|observers| - 1], responds, message)
        + (if last in responds then [Delivery(last, message)] else [])
  }

  /** When every observer has an `update`, notifying is a plain broadcast. */
  lemma {:induction false} DeliverableAllRespond(observers: seq<ObserverId>, responds: set<ObserverId>, message: string)
    requires forall i :: 0 <= i < |observers| ==> observers[i] in responds
    ensures Deliverable(observers, responds, message) == Broadcast(observers, message)
  {
    if observers != [] {
      DeliverableAllRespond(observers[..|observers| - 1], responds, message);
    }
  }

  /** Notifying a concatenated list notifies the first part, then the second. */
  lemma {:induction false} DeliverableAppend(a: seq<ObserverId>, b: seq<ObserverId>, responds: set<ObserverId>, message: string)
    ensures Deliverable(a + b, responds, message) == Deliverable(a, responds, message) + Deliverable(b, responds, message)
  {
    if b == [] {
      assert a + b == a;
    } else {
      var b' := b[..|b| - 1];
      assert (a + b)[..|a + b| - 1] == a + b';
      DeliverableAppend(a, b', responds, message);
    }
  }

  /** In a list without duplicates each observer that has an `update` hears a
      message exactly once, and nobody else hears it. */
  lemma {:induction false} DeliveredOnce(observers: seq<ObserverId>, responds: set<ObserverId>, message: string, x: ObserverId)
    requires NoDuplicates(observers)
    ensures multiset(Deliverable(observers, responds, message))[Delivery(x, message)]
              == if x in observers && x in responds then 1 else 0
  {
    if observers != [] {
      var init := observers[..|observers| - 1];
      var last := observers[|observers| - 1];
      var d := Delivery(x, message);
      NoDuplicatesInit(observers);
      DeliveredOnce(init, responds, message, x);
      var earlier := Deliverable(init, responds, message);
      var tail := if last in responds then [Delivery(last, message)] else [];
      assert Deliverable(observers, responds, message) == earlier + tail;
      var before, now := multiset(earlier)[d], multiset(tail)[d];
      assert multiset(earlier + tail)[d] == before + now;
      MemberInitLast(observers, x);
      if x == last {
        assert before == 0;
        assert now == if x in responds then 1 else 0;
      } else {
        assert now == 0;
      }
    }
  }

  class Subject {
    var observers: seq<ObserverId>
    /** Every `update` call made so far, in order. */
    var outbox: seq<Delivery>

    predicate Valid()
      reads this
    {
      NoDuplicates(observers)
    }

    constructor()
      ensures observers == [] && outbox == [] && Valid()
    {
      observers := [];
      outbox := [];
    }

    /** Appends an observer that is not yet listed; a listed one is left where it is. */
    method AddObserver(observer: ObserverId)
      requires Valid()
      modifies this`observers
      ensures Valid()
      ensures observer in old(observers) ==> observers == old(observers)
      ensures observer !in old(observers) ==> observers == old(observers) + [observer]
    {
      if observer !in observers {
        observers := observers + [observer];
      }
    }

    /** Drops the observer and keeps the others in order. */
    method RemoveObserver(observer: ObserverId)
      requires Valid()
      modifies this`observers
      ensures Valid()
      ensures observers == RemoveAll(old(observers), observer)
    {
      RemoveAllKeepsNoDuplicates(observers, observer);
      observers := RemoveAll(observers, observer);
    }

    /** `responds` is the set of observers whose `update` is a function at this moment. */
    method NotifyObservers(message: string, responds: set<ObserverId>)
      modifies this`outbox
      ensures outbox == old(outbox) + Deliverable(observers, responds, message)
    {
      var i := 0;
      var calls := [];
      while i < |observers|
        invariant 0 <= i <= |observers|
        invariant calls == Deliverable(observers[..i], responds, message)
      {
        assert observers[..i + 1][..i] == observers[..i];
        if observers[i] in responds {
          calls := calls + [Delivery(observers[i], message)];
        }
        i := i + 1;
      }
      assert observers[..i] == observers;
      outbox := outbox + calls;
    }
  }
}
