/**
 * ConsistentSet: a set kept as a list, so that its members may change
 * while belonging to it. Adding an element equal to a member overwrites
 * that member's slot; otherwise the element is appended.
 */
module ConsistentSets {

  /** The contract of Java's equals: reflexive, symmetric and transitive. */
  ghost predicate IsEquivalence<T(!new)>(equiv: (T, T) -> bool)
  {
    && (forall a :: equiv(a, a))
    && (forall a, b :: equiv(a, b) ==> equiv(b, a))
    && (forall a, b, c :: equiv(a, b) && equiv(b, c) ==> equiv(a, c))
  }

  /** No two slots of the list hold equal elements. */
  ghost predicate NoTwoEquivalent<T>(xs: seq<T>, equiv: (T, T) -> bool)
  {
    forall i, j :: 0 <= i < j < |xs| ==> !equiv(xs[i], xs[j])
  }

  /** Whether some element of the list equals x: the membership predicate the contracts use. */
  predicate ContainsIn<T>(xs: seq<T>, x: T, equiv: (T, T) -> bool)
  {
    exists j :: 0 <= j < |xs| && equiv(x, xs[j])
  }

  /** List.indexOf: the first position whose element x equals, or -1. */
  method IndexOf<T>(xs: seq<T>, x: T, equiv: (T, T) -> bool) returns (index: int)
    ensures -1 <= index < |xs|
    ensures index == -1 <==> !ContainsIn(xs, x, equiv)
    ensures index >= 0 ==> equiv(x, xs[index]) && forall j :: 0 <= j < index ==> !equiv(x, xs[j])
  {
    var i := 0;
    while i < |xs|
      invariant i <= |xs|
      invariant forall j :: 0 <= j < i ==> !equiv(x, xs[j])
    {
      if equiv(x, xs[i]) {
        return i;
      }
      i := i + 1;
    }
    index := -1;
  }

  /** Overwriting the first slot equal to obj keeps the slots pairwise unequal, and membership is as before. */
  lemma LemmaReplace<T(!new)>(xs: seq<T>, index: nat, obj: T, equiv: (T, T) -> bool)
    requires IsEquivalence(equiv) && NoTwoEquivalent(xs, equiv)
    requires index < |xs| && equiv(obj, xs[index])
    ensures NoTwoEquivalent(xs[index := obj], equiv)
    ensures forall y :: ContainsIn(xs[index := obj], y, equiv) <==> ContainsIn(xs, y, equiv) || equiv(y, obj)
  {
    var ys := xs[index := obj];
    forall i, j | 0 <= i < j < |ys| ensures !equiv(ys[i], ys[j]) {
      if i == index {
        assert !equiv(xs[index], xs[j]);
      } else if j == index {
        assert !equiv(xs[i], xs[index]);
      }
    }
    forall y ensures ContainsIn(ys, y, equiv) <==> ContainsIn(xs, y, equiv) || equiv(y, obj) {
      if ContainsIn(xs, y, equiv) {
        var j :| 0 <= j < |xs| && equiv(y, xs[j]);
        assert equiv(y, ys[j]);
      }
      if equiv(y, obj) {
        assert equiv(y, ys[index]);
      }
      if ContainsIn(ys, y, equiv) {
        var j :| 0 <= j < |ys| && equiv(y, ys[j]);
        if j != index {
          assert equiv(y, xs[j]);
        }
      }
    }
  }

  /** Appending an element equal to no slot keeps the slots pairwise unequal and adds exactly its equals. */
  lemma LemmaAppend<T(!new)>(xs: seq<T>, obj: T, equiv: (T, T) -> bool)
    requires IsEquivalence(equiv) && NoTwoEquivalent(xs, equiv) && !ContainsIn(xs, obj, equiv)
    ensures NoTwoEquivalent(xs + [obj], equiv)
    ensures forall y :: ContainsIn(xs + [obj], y, equiv) <==> ContainsIn(xs, y, equiv) || equiv(y, obj)
  {
    var ys := xs + [obj];
    forall i, j | 0 <= i < j < |ys| ensures !equiv(ys[i], ys[j]) {
      if j == |xs| {
        assert !equiv(obj, xs[i]);
      }
    }
    forall y ensures ContainsIn(ys, y, equiv) <==> ContainsIn(xs, y, equiv) || equiv(y, obj) {
      if ContainsIn(xs, y, equiv) {
        var j :| 0 <= j < |xs| && equiv(y, xs[j]);
        assert equiv(y, ys[j]);
      }
      if equiv(y, obj) {
        assert equiv(y, ys[|xs|]);
      }
    }
  }

  class ConsistentSet<T(!new)> {
    /** The elements' equals. */
    const equiv: (T, T) -> bool
    var list: seq<T>

    ghost predicate Valid()
      reads this
    {
      IsEquivalence(equiv) && NoTwoEquivalent(list, equiv)
    }

    constructor (equiv: (T, T) -> bool)
      requires IsEquivalence(equiv)
      ensures this.equiv == equiv && list == [] && Valid()
    {
      this.equiv := equiv;
      list := [];
    }

    /**
     * add: an element equal to a member overwrites that member's slot (the
     * size and every other slot unchanged); any other element is appended.
     * Either way the set was altered and add answers true.
     */
    method Add(obj: T) returns (altered: bool)
      requires Valid()
      modifies this
      ensures Valid()
      ensures altered
      ensures ContainsIn(old(list), obj, equiv) ==>
        exists index :: 0 <= index < |old(list)| && equiv(obj, old(list)[index]) && list == old(list)[index := obj]
      ensures !ContainsIn(old(list), obj, equiv) ==> list == old(list) + [obj]
      ensures obj in list
      ensures forall y :: ContainsIn(list, y, equiv) <==> ContainsIn(old(list), y, equiv) || equiv(y, obj)
    {
      var index := IndexOf(list, obj, equiv);
      if index != -1 {
        LemmaReplace(list, index, obj, equiv);
        list := list[index := obj];
        return true;
      }
      LemmaAppend(list, obj, equiv);
      list := list + [obj];
      altered := true;
    }

    /** size: the number of slots, which is the number of pairwise unequal members. */
    function Size(): (n: nat)
      reads this
      ensures n == |list|
    {
      |list|
    }

    /** iterator: the members in the order they were first added. */
    function Elements(): (xs: seq<T>)
      reads this
      ensures xs == list && |xs| == Size()
    {
      list
    }
  }
}
