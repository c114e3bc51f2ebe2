/**
 * Sequences standing for Java collections whose iteration order the model fixes:
 * a HashSet that is iterated is a sequence without duplicates in insertion order.
 */
module Sequences {

  /** No element occurs twice. */
  predicate Distinct<T(==)>(xs: seq<T>)
  {
    forall i, j :: 0 <= i < j < |xs| ==> xs[i] != xs[j]
  }

  /** HashSet.add: the element is appended unless it is already present. */
  function SetAdd<T(==)>(xs: seq<T>, x: T): (r: seq<T>)
    ensures Distinct(xs) ==> Distinct(r)
    ensures x in r && (forall y | y in xs :: y in r)
    ensures forall y | y in r :: y in xs || y == x
    ensures x in xs ==> r == xs
    ensures x !in xs ==> r == xs + [x]
  {
    if x in xs then xs else xs + [x]
  }

  /** The iteration order of a set: some sequence holding each element exactly once. */
  ghost predicate Enumerates<T>(xs: seq<T>, s: set<T>)
  {
    && Distinct(xs)
    && (forall x | x in xs :: x in s)
    && (forall x | x in s :: x in xs)
  }

  /**
   * Java's Set.iterator(): the order is unspecified, so the model lets the
   * verifier pick any element at each step.
   */
  method Enumerate<T>(s: set<T>) returns (xs: seq<T>)
    ensures Enumerates(xs, s)
    ensures |xs| == |s|
  {
    xs := [];
    var rest := s;
    while rest != {}
      invariant Distinct(xs)
      invariant forall x | x in xs :: x in s && x !in rest
      invariant forall x | x in s :: x in xs || x in rest
      invariant rest <= s
      invariant |xs| + |rest| == |s|
      decreases rest
    {
      var x :| x in rest;
      xs := xs + [x];
      rest := rest - {x};
    }
  }
}
