/**
 * Sorting the items returned by a batch query back to the description each
 * satisfies (getConstraintFromTarget), one group per pending description.
 */
module Demultiplexer {
  import opened Wrappers
  import opened Sequences
  import opened Items
  import opened PrefetchErrors
  import opened CachePartition

  /** The items of `results` that satisfy `k`, in result order. */
  function Group(o: DescriptorOracle, d: Descriptor, results: seq<Item>, k: Description): seq<Item>
  {
    if results == [] then []
    else
      var x := results[|results| - 1];
      Group(o, d, results[..|results| - 1], k) + (if o.getConstraintFromTarget(d, x) == k then [x] else [])
  }

  /** One group per pending description, including the ones no item satisfies. */
  function Groups(o: DescriptorOracle, d: Descriptor, pending: seq<Description>, results: seq<Item>): (m: Cache)
    ensures forall k :: k in m <==> k in pending
  {
    map k | k in pending :: Group(o, d, results, k)
  }

  /** The groups of the pending descriptions, in pending order. */
  function GroupLists(pending: seq<Description>, groups: Cache): (r: seq<seq<Item>>)
    requires forall k | k in pending :: k in groups
    ensures |r| == |pending|
    ensures forall j :: 0 <= j < |r| ==> r[j] == groups[pending[j]]
  {
    if pending == [] then [] else GroupLists(pending[..|pending| - 1], groups) + [groups[pending[|pending| - 1]]]
  }

  /** Every result satisfies one of the pending descriptions (otherwise the code has no group to put it in). */
  predicate AllExpected(o: DescriptorOracle, d: Descriptor, pending: seq<Description>, results: seq<Item>)
  {
    forall i :: 0 <= i < |results| ==> o.getConstraintFromTarget(d, results[i]) in pending
  }

  /** A group holds exactly the results whose derived description is its key. */
  lemma {:induction false} LemmaGroupMembers(o: DescriptorOracle, d: Descriptor, results: seq<Item>, k: Description, x: Item)
    ensures x in Group(o, d, results, k) <==> x in results && o.getConstraintFromTarget(d, x) == k
  {
    if results != [] {
      var init := results[..|results| - 1];
      LemmaGroupMembers(o, d, init, k, x);
      assert results == init + [results[|results| - 1]];
    }
  }

  /** Total size of the lists in `ls`. */
  function TotalLength(ls: seq<seq<Item>>): nat
  {
    if ls == [] then 0 else TotalLength(ls[..|ls| - 1]) + |ls[|ls| - 1]|
  }

  /** How many of the descriptions of `pending` equal `k`. */
  function Occurrences(pending: seq<Description>, k: Description): nat
  {
    if pending == [] then 0
    else Occurrences(pending[..|pending| - 1], k) + (if pending[|pending| - 1] == k then 1 else 0)
  }

  lemma {:induction false} LemmaOccursOnce(pending: seq<Description>, k: Description)
    requires Distinct(pending) && k in pending
    ensures Occurrences(pending, k) == 1
  {
    var init := pending[..|pending| - 1];
    assert Distinct(init);
    if k in init {
      LemmaOccursOnce(init, k);
    } else {
      LemmaOccursNever(init, k);
    }
  }

  lemma {:induction false} LemmaOccursNever(pending: seq<Description>, k: Description)
    requires k !in pending
    ensures Occurrences(pending, k) == 0
  {
    if pending != [] {
      LemmaOccursNever(pending[..|pending| - 1], k);
    }
  }

  /** The sizes of the groups of `pending`, added up. */
  function TotalGrouped(o: DescriptorOracle, d: Descriptor, pending: seq<Description>, results: seq<Item>): nat
  {
    if pending == [] then 0
    else TotalGrouped(o, d, pending[..|pending| - 1], results) + |Group(o, d, results, pending[|pending| - 1])|
  }

  /** Adding one result adds it to the group of its own description and to no other. */
  lemma {:induction false} LemmaTotalGrows(o: DescriptorOracle, d: Descriptor, pending: seq<Description>, results: seq<Item>, x: Item)
    ensures TotalGrouped(o, d, pending, results + [x])
      == TotalGrouped(o, d, pending, results) + Occurrences(pending, o.getConstraintFromTarget(d, x))
  {
    if pending != [] {
      assert (results + [x])[..|results|] == results;
      LemmaTotalGrows(o, d, pending[..|pending| - 1], results, x);
    }
  }

  /** The group lists' total length is the groups' sizes added up. */
  lemma {:induction false} LemmaTotalOfGroupLists(o: DescriptorOracle, d: Descriptor, pending: seq<Description>, results: seq<Item>)
    ensures TotalLength(GroupLists(pending, Groups(o, d, pending, results))) == TotalGrouped(o, d, pending, results)
  {
    if pending != [] {
      LemmaTotalOfGroupLists(o, d, pending[..|pending| - 1], results);
      LemmaGroupListsOfPrefix(o, d, pending, results);
    }
  }

  /** The group lists of a prefix of `pending` do not depend on the later descriptions. */
  lemma LemmaGroupListsOfPrefix(o: DescriptorOracle, d: Descriptor, pending: seq<Description>, results: seq<Item>)
    requires pending != []
    ensures var init := pending[..|pending| - 1];
      GroupLists(pending, Groups(o, d, pending, results))
        == GroupLists(init, Groups(o, d, init, results)) + [Group(o, d, results, pending[|pending| - 1])]
  {
    var init := pending[..|pending| - 1];
    var a := GroupLists(init, Groups(o, d, pending, results));
    var b := GroupLists(init, Groups(o, d, init, results));
    assert |a| == |b|;
    forall j | 0 <= j < |a| ensures a[j] == b[j] { }
  }

  /**
   * The groups partition the results: when every result satisfies one of
   * the distinct pending descriptions, each result lies in exactly one group
   * and the group sizes add up to the number of results.
   */
  lemma {:induction false} LemmaGroupsPartition(o: DescriptorOracle, d: Descriptor, pending: seq<Description>, results: seq<Item>)
    requires Distinct(pending) && AllExpected(o, d, pending, results)
    ensures TotalLength(GroupLists(pending, Groups(o, d, pending, results))) == |results|
  {
    LemmaTotalOfGroupLists(o, d, pending, results);
    LemmaGroupedCount(o, d, pending, results);
  }

  lemma {:induction false} LemmaGroupedCount(o: DescriptorOracle, d: Descriptor, pending: seq<Description>, results: seq<Item>)
    requires Distinct(pending) && AllExpected(o, d, pending, results)
    ensures TotalGrouped(o, d, pending, results) == |results|
  {
    if results == [] {
      LemmaNoneGrouped(o, d, pending);
    } else {
      var init := results[..|results| - 1];
      var x := results[|results| - 1];
      assert init + [x] == results;
      LemmaGroupedCount(o, d, pending, init);
      LemmaTotalGrows(o, d, pending, init, x);
      LemmaOccursOnce(pending, o.getConstraintFromTarget(d, x));
    }
  }

  lemma {:induction false} LemmaNoneGrouped(o: DescriptorOracle, d: Descriptor, pending: seq<Description>)
    ensures TotalGrouped(o, d, pending, []) == 0
  {
    if pending != [] {
      LemmaNoneGrouped(o, d, pending[..|pending| - 1]);
    }
  }

  /**
   * The demultiplexing loop: start every pending description with an empty
   * list, then append each result to the list of the description it
   * satisfies; the first result whose description has no list aborts.
   */
  method Demultiplex(o: DescriptorOracle, d: Descriptor, pending: seq<Description>, results: seq<Item>)
    returns (r: Result<Cache, PrefetchError>)
    ensures r.Success? <==> AllExpected(o, d, pending, results)
    ensures r.Success? ==> r.value == Groups(o, d, pending, results)
    ensures r.Failure? ==>
      exists i :: (0 <= i < |results|
                   && r.error == UnexpectedTarget(o.getConstraintFromTarget(d, results[i]))
                   && o.getConstraintFromTarget(d, results[i]) !in pending
                   && AllExpected(o, d, pending, results[..i]))
  {
    var constraintToList := map k | k in pending :: [];
    var i := 0;
    while i < |results|
      invariant i <= |results|
      invariant constraintToList == Groups(o, d, pending, results[..i])
      invariant AllExpected(o, d, pending, results[..i])
    {
      var item := results[i];
      var constraint := o.getConstraintFromTarget(d, item);
      if constraint !in constraintToList {
        return Failure(UnexpectedTarget(constraint));
      }
      assert results[..i + 1][..i] == results[..i];
      ghost var before := results[..i];
      constraintToList := constraintToList[constraint := constraintToList[constraint] + [item]];
      i := i + 1;
      assert results[..i][..i - 1] == before;
      forall k | k in pending
        ensures constraintToList[k] == Group(o, d, results[..i], k)
      {
      }
    }
    assert results[..i] == results;
    r := Success(constraintToList);
  }
}
