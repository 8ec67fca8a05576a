/** Iteration over a JavaScript `Set` with `forEach`. */
module Iteration {

  /** The members of a sequence, as a set. */
  function Elements<T>(s: seq<T>): (r: set<T>)
    ensures forall i :: 0 <= i < |s| ==> s[i] in r
    ensures forall x :: x in r ==> exists i :: 0 <= i < |s| && s[i] == x
  {
    set i | 0 <= i < |s| :: s[i]
  }

  /** No member occurs twice. */
  predicate Distinct<T(==)>(s: seq<T>)
  {
    forall i, j :: 0 <= i < j < |s| ==> s[i] != s[j]
  }

  /**
   * The order in which `forEach` visits the members of `s`: every member exactly once.
   * (JavaScript visits in insertion order, which a `set` does not record.)
   */
  method Enumerate<T(==)>(s: set<T>) returns (order: seq<T>)
    ensures Elements(order) == s
    ensures Distinct(order) && |order| == |s|
  {
    order := [];
    var rest := s;
    while rest != {}
      invariant rest <= s
      invariant Elements(order) == s - rest
      invariant Distinct(order)
      invariant |order| + |rest| == |s|
      decreases |rest|
    {
      var x :| x in rest;
      AppendElements(order, x);
      order := order + [x];
      rest := rest - {x};
    }
  }

  lemma AppendElements<T>(s: seq<T>, x: T)
    ensures Elements(s + [x]) == Elements(s) + {x}
  {
    forall y | y in Elements(s + [x]) ensures y in Elements(s) + {x} {
      var i :| 0 <= i < |s| + 1 && (s + [x])[i] == y;
      if i < |s| { assert s[i] == y; }
    }
    forall y | y in Elements(s) ensures y in Elements(s + [x]) {
      var i :| 0 <= i < |s| && s[i] == y;
      assert (s + [x])[i] == y;
    }
    assert (s + [x])[|s|] == x;
  }

  /** A duplicate-free sequence has as many elements as its set. */
  lemma {:induction false} DistinctCard<T>(s: seq<T>)
    requires Distinct(s)
    ensures |Elements(s)| == |s|
  {
    if s != [] {
      var init := s[..|s| - 1];
      assert Distinct(init);
      DistinctCard(init);
      assert s == init + [s[|s| - 1]];
      AppendElements(init, s[|s| - 1]);
    }
  }
}
