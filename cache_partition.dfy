/**
 * The first step of processing a queue entry: descriptions already in the
 * descriptive cache are answered from it (their lists go to the batch's
 * holder) and only the others stay pending.
 */
module CachePartition {
  import opened Sequences
  import opened Items

  /** The descriptive cache: description to the items that match it. */
  type Cache = map<Description, seq<Item>>

  /** The descriptions of `cs` that are not cache keys, in order: what stays pending. */
  function Misses(cs: seq<Description>, cache: Cache): seq<Description>
  {
    if cs == [] then []
    else Misses(cs[..|cs| - 1], cache) + (if cs[|cs| - 1] in cache then [] else [cs[|cs| - 1]])
  }

  /** The cached lists of the descriptions of `cs` that are cache keys, in order: what goes to the holder. */
  function HitLists(cs: seq<Description>, cache: Cache): seq<seq<Item>>
  {
    if cs == [] then []
    else HitLists(cs[..|cs| - 1], cache) + (if cs[|cs| - 1] in cache then [cache[cs[|cs| - 1]]] else [])
  }

  /**
   * After the partition no pending description is a cache key, every
   * description is either pending or answered from the cache with its cached
   * list in the holder, and nothing is counted twice.
   */
  lemma {:induction false} LemmaPartition(cs: seq<Description>, cache: Cache)
    ensures forall c | c in Misses(cs, cache) :: c in cs && c !in cache
    ensures forall c | c in cs :: c in cache || c in Misses(cs, cache)
    ensures forall c | c in cs && c in cache :: cache[c] in HitLists(cs, cache)
    ensures forall l | l in HitLists(cs, cache) :: l in cache.Values
    ensures |Misses(cs, cache)| + |HitLists(cs, cache)| == |cs|
    ensures Distinct(cs) ==> Distinct(Misses(cs, cache))
  {
    if cs != [] {
      var init := cs[..|cs| - 1];
      LemmaPartition(init, cache);
      assert forall c | c in cs :: c in init || c == cs[|cs| - 1];
      if Distinct(cs) {
        assert Distinct(init);
        assert cs[|cs| - 1] !in init;
      }
    }
  }

  /** With no cached description, everything stays pending and nothing is answered. */
  lemma {:induction false} LemmaNothingCached(cs: seq<Description>, cache: Cache)
    requires forall c | c in cs :: c !in cache
    ensures Misses(cs, cache) == cs && HitLists(cs, cache) == []
  {
    if cs != [] {
      LemmaNothingCached(cs[..|cs| - 1], cache);
    }
  }
}
