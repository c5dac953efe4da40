/** Values shared by every part of the battle engine: error outcomes, observer
    deliveries and the handful of JavaScript array and string operations
    (`filter`, `includes`, number-to-string) that the engine relies on. */
module Common {

  datatype Option<T> = None | Some(value: T)

  /** A JavaScript exception: `new Error(message)`, a TypeError from reading a
      property of `null`/`undefined`, or a ReferenceError naming an identifier
      that is not in scope. */
  datatype Exception = Error(message: string) | TypeError | ReferenceError(identifier: string)

  /** How a call that returns nothing ends. */
  datatype Outcome = Done | Threw(exception: Exception)

  /** How a call that returns a value ends. */
  datatype Result<T> = Ok(value: T) | Err(exception: Exception)

  /** An observer is known only by its identity. */
  type ObserverId = nat

  /** One call `observer.update(message)`. Every notifier keeps the calls it
      made, in order, in an `outbox`. */
  datatype Delivery = Delivery(observer: ObserverId, message: string)

  /** The calls made by `observers.forEach(o => o.update(message))`. */
  function Broadcast(observers: seq<ObserverId>, message: string): (ds: seq<Delivery>)
    ensures |ds| == |observers|
    ensures forall i :: 0 <= i < |ds| ==> ds[i] == Delivery(observers[i], message)
  {
    if observers == [] then []
    else Broadcast(observers[..|observers| - 1], message) + [Delivery(observers[|observers| - 1], message)]
  }

  /** The forEach loop of a notifier: one `update` per observer, in list order. */
  method DeliverAll(observers: seq<ObserverId>, message: string) returns (ds: seq<Delivery>)
    ensures ds == Broadcast(observers, message)
  {
    ds := [];
    var i := 0;
    while i < |observers|
      invariant 0 <= i <= |observers|
      invariant ds == Broadcast(observers[..i], message)
    {
      assert observers[..i + 1][..i] == observers[..i];
      ds := ds + [Delivery(observers[i], message)];
      i := i + 1;
    }
    assert observers[..i] == observers;
  }

  predicate NoDuplicates<T(==)>(s: seq<T>) {
    forall i, j :: 0 <= i < j < |s| ==> s[i] != s[j]
  }

  /** Dropping the last element of a duplicate-free list keeps it duplicate-free, and the last element is not among the rest. */
  lemma NoDuplicatesInit<T>(s: seq<T>)
    requires NoDuplicates(s) && s != []
    ensures NoDuplicates(s[..|s| - 1]) && s[|s| - 1] !in s[..|s| - 1]
  {
    var init := s[..|s| - 1];
    forall i, j | 0 <= i < j < |init| ensures init[i] != init[j] {
      assert init[i] == s[i] && init[j] == s[j];
    }
    forall i | 0 <= i < |init| ensures init[i] != s[|s| - 1] {
      assert init[i] == s[i];
    }
  }

  /** An element of a non-empty list is either among all but the last, or the last. */
  lemma MemberInitLast<T>(s: seq<T>, x: T)
    requires s != []
    ensures x in s <==> x in s[..|s| - 1] || x == s[|s| - 1]
  {
    assert s == s[..|s| - 1] + [s[|s| - 1]];
  }

  lemma SeqAssoc<T>(a: seq<T>, b: seq<T>, c: seq<T>)
    ensures a + b + c == a + (b + c)
  {
  }

  /** `s.filter(y => y !== x)`: every occurrence of `x` dropped, the rest kept in order. */
  function RemoveAll<T(==)>(s: seq<T>, x: T): (r: seq<T>)
    ensures |r| <= |s|
    ensures x !in r
    ensures forall i :: 0 <= i < |r| ==> r[i] in s
    ensures forall i :: 0 <= i < |s| && s[i] != x ==> s[i] in r
    ensures x !in s ==> r == s
  {
    if s == [] then []
    else (if s[0] == x then [] else [s[0]]) + RemoveAll(s[1..], x)
  }

  /** Filtering distributes over concatenation, so the survivors keep their order. */
  lemma {:induction false} RemoveAllAppend<T>(a: seq<T>, b: seq<T>, x: T)
    ensures RemoveAll(a + b, x) == RemoveAll(a, x) + RemoveAll(b, x)
  {
    if a == [] {
      assert a + b == b;
    } else {
      var head := if a[0] == x then [] else [a[0]];
      assert (a + b)[0] == a[0];
      assert (a + b)[1..] == a[1..] + b;
      assert RemoveAll(a + b, x) == head + RemoveAll(a[1..] + b, x);
      RemoveAllAppend(a[1..], b, x);
      SeqAssoc(head, RemoveAll(a[1..], x), RemoveAll(b, x));
    }
  }

  /** Filtering a list without duplicates leaves a list without duplicates. */
  lemma {:induction false} RemoveAllKeepsNoDuplicates<T>(s: seq<T>, x: T)
    requires NoDuplicates(s)
    ensures NoDuplicates(RemoveAll(s, x))
  {
    if s != [] {
      RemoveAllKeepsNoDuplicates(s[1..], x);
      var rest := RemoveAll(s[1..], x);
      if s[0] != x {
        assert s[0] !in s[1..];
        assert s[0] !in rest;
        var r := [s[0]] + rest;
        forall i, j | 0 <= i < j < |r| ensures r[i] != r[j] {
          if i == 0 { assert r[j] in rest; }
        }
      }
    }
  }

  /** Removing a member of a list without duplicates shortens it by exactly one. */
  lemma {:induction false} RemoveOneOfDistinct<T>(s: seq<T>, x: T)
    requires NoDuplicates(s) && x in s
    ensures |RemoveAll(s, x)| == |s| - 1
  {
    if s[0] == x {
      assert x !in s[1..];
    } else {
      assert NoDuplicates(s[1..]);
      assert x in s[1..];
      RemoveOneOfDistinct(s[1..], x);
    }
  }

  /** `sub` occurs in `s` starting at index `i`. */
  predicate OccursAt(s: string, sub: string, i: int) {
    0 <= i <= |s| - |sub| && s[i..i + |sub|] == sub
  }

  /** `s.includes(sub)` on strings. */
  predicate Contains(s: string, sub: string) {
    exists i :: 0 <= i <= |s| - |sub| && OccursAt(s, sub, i)
  }

  function DigitChar(d: nat): char
    requires d < 10
  {
    "0123456789"[d]
  }

  function NatToString(n: nat): string
  {
    if n < 10 then [DigitChar(n)] else NatToString(n / 10) + [DigitChar(n % 10)]
  }

  /** The decimal text a template literal gives an integer. */
  function IntToString(n: int): string
  {
    if n < 0 then "-" + NatToString(-n) else NatToString(n)
  }
}
