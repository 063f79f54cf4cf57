/** Missing values, and sequences that walk a hash container in some order. */
module Containers {
  datatype Option<+T> = None | Some(value: T)

  lemma ElementOf<T>(elements: set<T>) returns (x: T)
    requires elements != {}
    ensures x in elements
  {
    x :| x in elements;
  }

  predicate Distinct<T(==)>(order: seq<T>) {
    forall i, j :: 0 <= i < j < |order| ==> order[i] != order[j]
  }

  /** `order` walks the elements of `elements`, each once. */
  ghost predicate Enumerates<T>(order: seq<T>, elements: set<T>) {
    && Distinct(order)
    && (forall x :: x in order ==> x in elements)
    && (forall x :: x in elements ==> x in order)
  }

  ghost function Elements<T>(order: seq<T>): set<T> {
    set x | x in order
  }

  lemma EnumeratedElements<T>(order: seq<T>, elements: set<T>)
    requires Enumerates(order, elements)
    ensures Elements(order) == elements
  {
  }

  lemma ElementsNext<T>(order: seq<T>, i: nat)
    requires i < |order|
    ensures Elements(order[..i + 1]) == Elements(order[..i]) + {order[i]}
    ensures Distinct(order) ==> order[i] !in order[..i]
  {
  }

  lemma Associate<T>(a: seq<T>, b: seq<T>, c: seq<T>)
    ensures (a + b) + c == a + (b + c)
  {
  }

  lemma EnumeratesNext<T>(order: seq<T>, elements: set<T>, x: T)
    requires Enumerates(order, elements) && x !in elements
    ensures Enumerates(order + [x], elements + {x})
  {
  }

  /** Walks a hash set: the order is any. */
  method Walk<T(==)>(elements: set<T>) returns (order: seq<T>)
    ensures Enumerates(order, elements)
  {
    order := [];
    var left := elements;
    while left != {}
      invariant left <= elements
      invariant Enumerates(order, elements - left)
      decreases left
    {
      var x :| x in left;
      EnumeratesNext(order, elements - left, x);
      assert elements - (left - {x}) == (elements - left) + {x};
      order := order + [x];
      left := left - {x};
    }
  }
}
