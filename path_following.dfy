/**
 * ObjectStoreItemPathFollowingImpl: an object store that passes queries
 * through to another store and, when it is given prefetch descriptors,
 * fetches the items a translator will ask for next in as few batched
 * queries as it can, keeping them in a descriptive cache.
 */
module PathFollowing {
  import opened Wrappers
  import opened Sequences
  import opened Items
  import opened PrefetchErrors
  import opened QueryModel
  import opened CachePartition
  import opened Demultiplexer
  import opened Expansion
  import LookupQuery
  import BatchQuery

  /** The store underneath: execute with its paging arguments, and the items a SingletonResults over a query yields. */
  datatype ObjectStore = ObjectStore(
    execute: (Query, int, int, bool, bool, int) -> ResultList,
    singletonResults: Query -> seq<Item>)

  /** The cache only ever gains entries: nothing already stored is removed or replaced. */
  ghost predicate CacheExtends(before: Cache, after: Cache)
  {
    forall k | k in before :: k in after && after[k] == before[k]
  }

  lemma LemmaCacheExtendsValues(before: Cache, after: Cache, l: seq<Item>)
    requires CacheExtends(before, after) && l in before.Values
    ensures l in after.Values
  {
    var k :| k in before && before[k] == l;
    assert after[k] == l;
  }

  /** The prefetch condition of execute: descriptors are configured, rows came back, and the query selects just Item. */
  predicate TriggersPrefetch(configured: bool, q: Query, rows: seq<ResultsRow>)
  {
    configured && |rows| > 0 && SelectsOneItem(q)
  }

  class ItemPathFollowingStore {
    const os: ObjectStore
    /** classNameToDescriptors; None (null) disables prefetching. */
    const classNameToDescriptors: Option<map<string, seq<Descriptor>>>
    const descriptors: DescriptorOracle

    var descriptiveCache: Cache
    var misses: nat
    var ops: nat
    /** Every query this object has sent to the store, in order. */
    ghost var issued: seq<Query>

    /** An instance without a path description: a pure pass-through. */
    constructor (os: ObjectStore, descriptors: DescriptorOracle)
      ensures this.os == os && this.descriptors == descriptors && classNameToDescriptors.None?
      ensures descriptiveCache == map[] && misses == 0 && ops == 0 && issued == []
    {
      this.os := os;
      this.descriptors := descriptors;
      classNameToDescriptors := None;
      descriptiveCache := map[];
      misses, ops := 0, 0;
      issued := [];
    }

    /** An instance that prefetches along the descriptors configured per class name. */
    constructor WithDescriptors(os: ObjectStore, classNameToDescriptors: map<string, seq<Descriptor>>, descriptors: DescriptorOracle)
      ensures this.os == os && this.descriptors == descriptors
      ensures this.classNameToDescriptors == Some(classNameToDescriptors)
      ensures descriptiveCache == map[] && misses == 0 && ops == 0 && issued == []
    {
      this.os := os;
      this.descriptors := descriptors;
      this.classNameToDescriptors := Some(classNameToDescriptors);
      descriptiveCache := map[];
      misses, ops := 0, 0;
      issued := [];
    }

    /**
     * execute(q, start, limit, optimise, explain, sequence): the underlying
     * store's list, returned untouched when no descriptors are configured;
     * otherwise wrapped with a holder, into which fetchRelated puts the
     * prefetched items when the query selects exactly one Item column. The
     * log is the drain of that prefetch, and empty when none ran.
     */
    method Execute(q: Query, start: int, limit: int, optimise: bool, explain: bool, sequence: int)
      returns (r: Result<ResultList, PrefetchError>, ghost log: seq<EntryStep>)
      modifies this
      ensures ops == old(ops) && misses == old(misses)
      ensures CacheExtends(old(descriptiveCache), descriptiveCache)
      ensures |issued| >= |old(issued)| + 1 && issued[..|old(issued)| + 1] == old(issued) + [q]
      ensures var underlying := os.execute(q, start, limit, optimise, explain, sequence);
        !TriggersPrefetch(classNameToDescriptors.Some?, q, underlying.rows) ==>
          && descriptiveCache == old(descriptiveCache) && issued == old(issued) + [q] && log == []
          && r == Success(if classNameToDescriptors.None? || underlying.CacheHolding? then underlying
                          else CacheHolding(underlying.rows, []))
      ensures var underlying := os.execute(q, start, limit, optimise, explain, sequence);
        var holder := if underlying.CacheHolding? then underlying.holder else [];
        TriggersPrefetch(classNameToDescriptors.Some?, q, underlying.rows) && r.Success? ==>
          && r.value.CacheHolding? && r.value.rows == underlying.rows
          && |r.value.holder| >= |holder| && r.value.holder[..|holder|] == holder
          && forall j | |holder| <= j < |r.value.holder| :: r.value.holder[j] in descriptiveCache.Values
      ensures var underlying := os.execute(q, start, limit, optimise, explain, sequence);
        TriggersPrefetch(classNameToDescriptors.Some?, q, underlying.rows) && RowItems(underlying.rows).Failure? ==>
          r == Failure(RowItems(underlying.rows).error) && descriptiveCache == old(descriptiveCache)
      ensures var underlying := os.execute(q, start, limit, optimise, explain, sequence);
        var holder := if underlying.CacheHolding? then underlying.holder else [];
        TriggersPrefetch(classNameToDescriptors.Some?, q, underlying.rows) && RowItems(underlying.rows).Success? ==>
          var seed := RootQueue(descriptors, classNameToDescriptors.value, RowItems(underlying.rows).value);
          && (forall k | 0 <= k < |log| :: StepAt(StepHolds, seed, log, k, StoreState(old(descriptiveCache), old(issued) + [q], holder)))
          && (r.Success? <==> |log| == |Scheduled(seed, log)| && (log == [] || log[|log| - 1].r == Pass))
          && (r.Success? ==>
                && r.value.CacheHolding? && r.value.rows == underlying.rows
                && Drained(StepHolds, seed, log, StoreState(old(descriptiveCache), old(issued) + [q], holder),
                           StoreState(descriptiveCache, issued, r.value.holder)))
          && (r.Failure? ==>
                && log != [] && log[|log| - 1].r == Fail(r.error)
                && descriptiveCache == log[|log| - 1].post.cache && issued == log[|log| - 1].post.issued)
    {
      log := [];
      var retvalList := os.execute(q, start, limit, optimise, explain, sequence);
      issued := issued + [q];
      if classNameToDescriptors.None? {
        return Success(retvalList), log;
      }
      var retval := if retvalList.CacheHolding? then retvalList else CacheHolding(retvalList.rows, []);
      if |retval.rows| > 0 && SelectsOneItem(q) {
        var outcome, holder;
        outcome, holder, log := FetchRelated(retval.rows, retval.holder);
        if outcome.Fail? {
          return Failure(outcome.error), log;
        }
        retval := CacheHolding(retval.rows, holder);
      }
      r := Success(retval);
    }

    /**
     * getItemsByDescription: the cached list for the description, or, on a
     * miss, the items of the lookup query, which are then cached under it.
     */
    method GetItemsByDescription(description: Description) returns (items: seq<Item>, ghost order: seq<FieldNameAndValue>)
      modifies this
      ensures ops == old(ops) + 1
      ensures description in old(descriptiveCache) ==>
        && items == old(descriptiveCache)[description]
        && descriptiveCache == old(descriptiveCache) && misses == old(misses) && issued == old(issued)
      ensures description !in old(descriptiveCache) ==>
        && Enumerates(order, description)
        && issued == old(issued) + [LookupQuery.LookupQueryOf(order)]
        && items == os.singletonResults(LookupQuery.LookupQueryOf(order))
        && descriptiveCache == old(descriptiveCache)[description := items]
        && misses == old(misses) + 1
      ensures description in descriptiveCache && descriptiveCache[description] == items
    {
      order := [];
      ops := ops + 1;
      if description in descriptiveCache {
        items := descriptiveCache[description];
      } else {
        misses := misses + 1;
        var q, o := LookupQuery.BuildLookupQuery(description);
        order := o;
        issued := issued + [q];
        items := os.singletonResults(q);
        descriptiveCache := descriptiveCache[description := items];
      }
    }

    /**
     * fetchRelated: seeds the work queue from the batch's items and drains
     * it first in, first out; the log records every entry processed, the
     * last one aborting the drain when it fails.
     */
    method FetchRelated(rows: seq<ResultsRow>, holder: seq<seq<Item>>)
      returns (r: Outcome<PrefetchError>, holder': seq<seq<Item>>, ghost log: seq<EntryStep>)
      requires classNameToDescriptors.Some?
      modifies this
      ensures ops == old(ops) && misses == old(misses)
      ensures CacheExtends(old(descriptiveCache), descriptiveCache)
      ensures IsPrefix(old(issued), issued)
      ensures Backed(holder, holder', descriptiveCache)
      ensures RowItems(rows).Failure? ==> r == Fail(RowItems(rows).error) && descriptiveCache == old(descriptiveCache)
      ensures RowItems(rows).Success? ==>
        var seed := RootQueue(descriptors, classNameToDescriptors.value, RowItems(rows).value);
        && Drained(StepHolds, seed, log, StoreState(old(descriptiveCache), old(issued), holder), StoreState(descriptiveCache, issued, holder'))
        && (r == Pass ==> |log| == |Scheduled(seed, log)| && (log == [] || log[|log| - 1].r == Pass))
        && (r.Fail? ==> log != [] && log[|log| - 1].r == r)
    {
      var root := GroupRoot(descriptors, classNameToDescriptors.value, rows);
      if root.Failure? {
        return Fail(root.error), holder, [];
      }
      LemmaRootReady(RootGrouping(descriptors, classNameToDescriptors.value, RowItems(rows).value));
      r, holder', log := Drain(root.value, holder);
    }

    /** The drain loop of fetchRelated: processes queued entries first in, first out, until none is left or one fails. */
    method Drain(queue: seq<DescriptorAndConstraints>, holder: seq<seq<Item>>)
      returns (r: Outcome<PrefetchError>, holder': seq<seq<Item>>, ghost log: seq<EntryStep>)
      requires Ready(queue)
      modifies this
      ensures ops == old(ops) && misses == old(misses)
      ensures CacheExtends(old(descriptiveCache), descriptiveCache)
      ensures IsPrefix(old(issued), issued)
      ensures Backed(holder, holder', descriptiveCache)
      ensures Drained(StepHolds, queue, log, StoreState(old(descriptiveCache), old(issued), holder), StoreState(descriptiveCache, issued, holder'))
      ensures r == Pass ==> |log| == |Scheduled(queue, log)| && (log == [] || log[|log| - 1].r == Pass)
      ensures r.Fail? ==> log != [] && log[|log| - 1].r == r
    {
      holder' := holder;
      log := [];
      r := Pass;
      var rest := queue;
      ghost var start := StoreState(descriptiveCache, issued, holder);
      while rest != [] && r == Pass
        invariant DrainState(StepHolds, queue, log, start, StoreState(descriptiveCache, issued, holder'), rest)
        invariant r == Pass ==> log == [] || log[|log| - 1].r == Pass
        invariant r.Fail? ==> log != [] && log[|log| - 1].r == r
        invariant Ready(rest)
        invariant ops == old(ops) && misses == old(misses)
        decreases Weight(rest)
      {
        r, holder', rest, log := DrainStep(queue, log, start, rest, holder');
      }
    }

    /** One turn of the drain loop: processes the head of the queue and logs it. */
    method DrainStep(ghost seed: seq<DescriptorAndConstraints>, ghost log: seq<EntryStep>, ghost start: StoreState,
                     queue: seq<DescriptorAndConstraints>, holder: seq<seq<Item>>)
      returns (r: Outcome<PrefetchError>, holder': seq<seq<Item>>, queue': seq<DescriptorAndConstraints>, ghost log': seq<EntryStep>)
      requires queue != [] && Ready(queue) && (log == [] || log[|log| - 1].r == Pass)
      requires DrainState(StepHolds, seed, log, start, StoreState(descriptiveCache, issued, holder), queue)
      modifies this
      ensures ops == old(ops) && misses == old(misses)
      ensures Ready(queue') && Weight(queue') < Weight(queue)
      ensures |log'| == |log| + 1 && log'[..|log|] == log && log'[|log|].r == r
      ensures DrainState(StepHolds, seed, log', start, StoreState(descriptiveCache, issued, holder'), queue')
    {
      ghost var pre := StoreState(descriptiveCache, issued, holder);
      ghost var children, orders;
      r, holder', queue', children, orders := ProcessHead(queue, holder);
      ghost var step := EntryStep(queue[0], pre, r, StoreState(descriptiveCache, issued, holder'), children, orders);
      LemmaDrainStep(StepHolds, seed, log, start, step, queue);
      log' := log + [step];
      assert log'[..|log|] == log;
    }

    /** Takes the entry at the head of the queue and processes it; the queue shrinks by the weight measure. */
    method ProcessHead(queue: seq<DescriptorAndConstraints>, holder: seq<seq<Item>>)
      returns (r: Outcome<PrefetchError>, holder': seq<seq<Item>>, queue': seq<DescriptorAndConstraints>,
               ghost children: seq<DescriptorAndConstraints>, ghost orders: seq<seq<FieldNameAndValue>>)
      requires queue != [] && Ready(queue)
      modifies this
      ensures ops == old(ops) && misses == old(misses)
      ensures CacheExtends(old(descriptiveCache), descriptiveCache)
      ensures IsPrefix(old(issued), issued)
      ensures Backed(holder, holder', descriptiveCache)
      ensures queue' == queue[1..] + children && Ready(queue')
      ensures Weight(queue') < Weight(queue)
      ensures Processed(queue[0], StoreState(old(descriptiveCache), old(issued), holder), r,
                        StoreState(descriptiveCache, issued, holder'), children, orders)
    {
      var dac := queue[0];
      LemmaWeightFront(queue);
      r, holder', queue', children, orders := ProcessEntry(dac, holder, queue[1..]);
      LemmaWeightAppend(queue[1..], children);
    }

    /** The partition loop of an entry: its descriptions already cached contribute their lists, the rest stay pending. */
    method PartitionEntry(cs: seq<Description>, holder: seq<seq<Item>>) returns (pending: seq<Description>, holder': seq<seq<Item>>)
      ensures pending == Misses(cs, descriptiveCache)
      ensures holder' == holder + HitLists(cs, descriptiveCache)
    {
      holder' := holder;
      pending := [];
      var i := 0;
      while i < |cs|
        invariant i <= |cs|
        invariant pending == Misses(cs[..i], descriptiveCache)
        invariant holder' == holder + HitLists(cs[..i], descriptiveCache)
      {
        assert cs[..i + 1][..i] == cs[..i];
        var constraint := cs[i];
        if constraint in descriptiveCache {
          holder' := holder' + [descriptiveCache[constraint]];
        } else {
          pending := pending + [constraint];
        }
        i := i + 1;
      }
      assert cs[..i] == cs;
    }

    /** Puts every group, empty ones included, into the holder and the cache, in pending order. */
    method StoreGroups(pending: seq<Description>, groups: Cache, holder: seq<seq<Item>>) returns (holder': seq<seq<Item>>)
      requires Distinct(pending) && groups.Keys == set c | c in pending
      modifies this
      ensures descriptiveCache == old(descriptiveCache) + groups
      ensures holder' == holder + GroupLists(pending, groups)
      ensures ops == old(ops) && misses == old(misses) && issued == old(issued)
    {
      holder' := holder;
      var k := 0;
      while k < |pending|
        invariant k <= |pending|
        invariant descriptiveCache == Stored(old(descriptiveCache), groups, pending[..k])
        invariant holder' == holder + GroupLists(pending[..k], groups)
        invariant ops == old(ops) && misses == old(misses) && issued == old(issued)
      {
        var constraint := pending[k];
        var conResults := groups[constraint];
        holder' := holder' + [conResults];
        LemmaStoreStep(old(descriptiveCache), groups, pending, k);
        descriptiveCache := descriptiveCache[constraint := conResults];
        k := k + 1;
      }
      assert pending[..k] == pending;
      LemmaStoredIsUnion(old(descriptiveCache), groups, pending);
    }

    /**
     * One iteration of the work queue: cache hits go to the holder; if more
     * than one description is still pending, one batch query fetches them
     * all, its results are grouped back by description and written to the
     * cache and the holder, and the child descriptors' entries are appended
     * to the queue.
     */
    method ProcessEntry(dac: DescriptorAndConstraints, holder: seq<seq<Item>>, queue: seq<DescriptorAndConstraints>)
      returns (r: Outcome<PrefetchError>, holder': seq<seq<Item>>, queue': seq<DescriptorAndConstraints>,
               ghost children: seq<DescriptorAndConstraints>, ghost orders: seq<seq<FieldNameAndValue>>)
      requires Distinct(dac.constraints)
      modifies this
      ensures ops == old(ops) && misses == old(misses)
      ensures CacheExtends(old(descriptiveCache), descriptiveCache)
      ensures IsPrefix(old(issued), issued) && |issued| <= |old(issued)| + 1
      ensures queue' == queue + children && Weight(children) <= SizeOfAll(dac.descriptor.paths)
      ensures forall e | e in children :: Distinct(e.constraints)
      ensures Backed(holder, holder', descriptiveCache)
      ensures Processed(dac, StoreState(old(descriptiveCache), old(issued), holder), r,
                        StoreState(descriptiveCache, issued, holder'), children, orders)
    {
      children := [];
      orders := [];
      queue' := queue;
      var pending;
      pending, holder' := PartitionEntry(dac.constraints, holder);
      LemmaPartition(dac.constraints, descriptiveCache);
      LemmaHitsCached(dac.constraints, descriptiveCache, holder, holder');
      if |pending| <= 1 {
        return Pass, holder', queue', children, orders;
      }

      r, holder', queue', children, orders := FetchPending(dac, pending, holder, holder', queue);
    }

    /**
     * The batch part of an entry, for more than one pending description:
     * one query for all of them, its results grouped back by description
     * into the cache and the holder, and the children queued.
     */
    method FetchPending(dac: DescriptorAndConstraints, pending: seq<Description>, holder: seq<seq<Item>>,
                        withHits: seq<seq<Item>>, queue: seq<DescriptorAndConstraints>)
      returns (r: Outcome<PrefetchError>, holder': seq<seq<Item>>, queue': seq<DescriptorAndConstraints>,
               ghost children: seq<DescriptorAndConstraints>, ghost orders: seq<seq<FieldNameAndValue>>)
      requires |pending| > 1 && Distinct(pending)
      requires forall c | c in pending :: c !in descriptiveCache
      requires |withHits| >= |holder| && withHits[..|holder|] == holder
      requires forall j | |holder| <= j < |withHits| :: withHits[j] in descriptiveCache.Values
      modifies this
      ensures ops == old(ops) && misses == old(misses)
      ensures CacheExtends(old(descriptiveCache), descriptiveCache)
      ensures |old(issued)| <= |issued| <= |old(issued)| + 1 && issued[..|old(issued)|] == old(issued)
      ensures queue' == queue + children && Weight(children) <= SizeOfAll(dac.descriptor.paths)
      ensures forall e | e in children :: Distinct(e.constraints)
      ensures |holder'| >= |holder| && holder'[..|holder|] == holder
      ensures forall j | |holder| <= j < |holder'| :: holder'[j] in descriptiveCache.Values
      ensures |orders| == |pending| && (forall k :: 0 <= k < |pending| ==> Enumerates(orders[k], pending[k]))
      ensures EntryOutcome(dac, pending, orders, StoreState(old(descriptiveCache), old(issued), withHits), r,
                           StoreState(descriptiveCache, issued, holder'), children)
    {
      children := [];
      holder' := withHits;
      queue' := queue;
      var chosen := EnumerateAll(pending);
      orders := chosen;
      var built := BatchQuery.BuildQuery(descriptors, dac.descriptor, chosen);
      if built.Failure? {
        return Fail(built.error), holder', queue', children, orders;
      }
      var q := built.value;
      issued := issued + [q];
      var results := os.singletonResults(q);
      var demuxed := Demultiplex(descriptors, dac.descriptor, pending, results);
      if demuxed.Failure? {
        return Fail(demuxed.error), holder', queue', children, orders;
      }
      var constraintToList := demuxed.value;
      ghost var cache0 := descriptiveCache;
      holder' := StoreGroups(pending, constraintToList, withHits);
      LemmaStoredCached(pending, constraintToList, cache0, holder, withHits, holder');

      // Now follow the path on.
      queue' := ExpandChildren(descriptors, dac.descriptor.paths, results, queue);
      children := ChildWork(descriptors, dac.descriptor.paths, results);
      LemmaChildWorkWeight(descriptors, dac.descriptor.paths, results);
      r := Pass;
    }

    /**
     * What an entry leaves behind: with at most one description pending, only
     * the hits and no query; otherwise the outcome of the batch query built
     * from the chosen orders.
     */
    ghost predicate Processed(dac: DescriptorAndConstraints, pre: StoreState, r: Outcome<PrefetchError>, post: StoreState,
                              children: seq<DescriptorAndConstraints>, orders: seq<seq<FieldNameAndValue>>)
    {
      var pending := Misses(dac.constraints, pre.cache);
      var hits := HitLists(dac.constraints, pre.cache);
      && (|pending| <= 1 ==>
           r == Pass && post == StoreState(pre.cache, pre.issued, pre.holder + hits) && children == [])
      && (|pending| > 1 ==>
           && |orders| == |pending| && (forall k :: 0 <= k < |pending| ==> Enumerates(orders[k], pending[k]))
           && EntryOutcome(dac, pending, orders, StoreState(pre.cache, pre.issued, pre.holder + hits), r, post, children))
    }

    /**
     * What the batch part leaves behind, given the query orders: on a build
     * error nothing was sent; otherwise the query was sent once, and either
     * every result matched a pending description and all groups were
     * stored, or a stray result aborts with nothing stored.
     */
    ghost predicate EntryOutcome(dac: DescriptorAndConstraints, pending: seq<Description>, orders: seq<seq<FieldNameAndValue>>,
                                 pre: StoreState, r: Outcome<PrefetchError>, post: StoreState,
                                 children: seq<DescriptorAndConstraints>)
    {
      |orders| > 0 &&
      match BatchQuery.BatchQueryOf(descriptors, dac.descriptor, orders)
      case Failure(e) =>
        r == Fail(e) && post == pre && children == []
      case Success(q) =>
        var results := os.singletonResults(q);
        && post.issued == pre.issued + [q]
        && (AllExpected(descriptors, dac.descriptor, pending, results) ==>
              var groups := Groups(descriptors, dac.descriptor, pending, results);
              && r == Pass
              && post.cache == pre.cache + groups
              && post.holder == pre.holder + GroupLists(pending, groups)
              && children == ChildWork(descriptors, dac.descriptor.paths, results))
        && (!AllExpected(descriptors, dac.descriptor, pending, results) ==>
              && r.Fail? && r.error.UnexpectedTarget? && r.error.description !in pending
              && post.cache == pre.cache && post.holder == pre.holder && children == [])
    }

    /** A logged entry is what processing its head left behind. */
    ghost predicate StepHolds(s: EntryStep)
    {
      Processed(s.dac, s.pre, s.r, s.post, s.children, s.orders)
    }

  }

  /**
   * The k-th logged entry: it is the k-th scheduled entry, the previous one
   * passed and left the state this one starts from, and holds of it (the
   * store instantiates holds with what processing an entry leaves behind).
   */
  ghost predicate StepAt(holds: EntryStep -> bool, seed: seq<DescriptorAndConstraints>, log: seq<EntryStep>, k: nat, start: StoreState)
    requires k < |log|
  {
    && k < |Scheduled(seed, log[..k])| && log[k].dac == Scheduled(seed, log[..k])[k]
    && (k == 0 ==> log[k].pre == start)
    && (k > 0 ==> log[k - 1].r == Pass && log[k].pre == log[k - 1].post)
    && holds(log[k])
  }

  /** The log of a drain from start to now: the scheduled entries processed in order, the last one leaving now. */
  ghost predicate Drained(holds: EntryStep -> bool, seed: seq<DescriptorAndConstraints>, log: seq<EntryStep>, start: StoreState, now: StoreState)
  {
    && (forall k | 0 <= k < |log| :: StepAt(holds, seed, log, k, start))
    && now == (if log == [] then start else log[|log| - 1].post)
  }

  /**
   * Where the drain stands: the queue holds the scheduled entries not yet
   * logged, the log leads from start to now, and since start the cache has
   * only grown, queries have only been added and the holder is backed.
   */
  ghost predicate DrainState(holds: EntryStep -> bool, seed: seq<DescriptorAndConstraints>, log: seq<EntryStep>,
                             start: StoreState, now: StoreState, queue: seq<DescriptorAndConstraints>)
  {
    && |log| <= |Scheduled(seed, log)| && queue == Scheduled(seed, log)[|log|..]
    && Drained(holds, seed, log, start, now)
    && CacheExtends(start.cache, now.cache) && IsPrefix(start.issued, now.issued) && Backed(start.holder, now.holder, now.cache)
  }

  /** Appending a step that processed the head of the remaining queue, and that holds, extends the drain. */
  lemma LemmaDrainStep(holds: EntryStep -> bool, seed: seq<DescriptorAndConstraints>, log: seq<EntryStep>, start: StoreState,
                       s: EntryStep, queue: seq<DescriptorAndConstraints>)
    requires DrainState(holds, seed, log, start, s.pre, queue) && (log == [] || log[|log| - 1].r == Pass)
    requires queue != [] && s.dac == queue[0] && holds(s)
    requires CacheExtends(s.pre.cache, s.post.cache) && IsPrefix(s.pre.issued, s.post.issued)
    requires Backed(s.pre.holder, s.post.holder, s.post.cache)
    ensures DrainState(holds, seed, log + [s], start, s.post, queue[1..] + s.children)
  {
    var log' := log + [s];
    LemmaScheduledAppend(seed, log, s);
    forall k | 0 <= k < |log'| ensures StepAt(holds, seed, log', k, start) {
      if k < |log| {
        assert StepAt(holds, seed, log, k, start);
        LemmaStepAtExtend(holds, seed, log, s, k, start);
      } else {
        assert log'[..k] == log;
      }
    }
    assert Scheduled(seed, log')[|log| + 1..] == Scheduled(seed, log)[|log| + 1..] + s.children;
    LemmaBackedTrans(start.holder, s.pre.holder, s.post.holder, s.pre.cache, s.post.cache);
    LemmaCacheExtendsTrans(start.cache, s.pre.cache, s.post.cache);
    LemmaPrefixTrans(start.issued, s.pre.issued, s.post.issued);
  }

  lemma LemmaStepAtExtend(holds: EntryStep -> bool, seed: seq<DescriptorAndConstraints>, log: seq<EntryStep>, s: EntryStep,
                          k: nat, start: StoreState)
    requires k < |log| && StepAt(holds, seed, log, k, start)
    ensures StepAt(holds, seed, log + [s], k, start)
  {
    assert (log + [s])[..k] == log[..k];
  }

  lemma LemmaScheduledAppend(seed: seq<DescriptorAndConstraints>, log: seq<EntryStep>, s: EntryStep)
    ensures Scheduled(seed, log + [s]) == Scheduled(seed, log) + s.children
  {
    assert (log + [s])[..|log|] == log;
  }

  /** The store's state that processing an entry changes: the cache, the queries sent, and the holder. */
  datatype StoreState = StoreState(cache: Cache, issued: seq<Query>, holder: seq<seq<Item>>)

  /** One drained queue entry: the entry, the state before and after, its outcome, the entries it queued and its query orders. */
  datatype EntryStep = EntryStep(dac: DescriptorAndConstraints, pre: StoreState, r: Outcome<PrefetchError>, post: StoreState,
                                 children: seq<DescriptorAndConstraints>, orders: seq<seq<FieldNameAndValue>>)

  /** The entries the logged steps queued, in order. */
  function Spawned(log: seq<EntryStep>): seq<DescriptorAndConstraints>
  {
    if log == [] then [] else Spawned(log[..|log| - 1]) + log[|log| - 1].children
  }

  /** Everything the work queue has held: the seed entries, then the children of each step in order. */
  function Scheduled(seed: seq<DescriptorAndConstraints>, log: seq<EntryStep>): seq<DescriptorAndConstraints>
  {
    seed + Spawned(log)
  }

  /** The queue fetchRelated seeds from the items of a batch. */
  ghost function RootQueue(o: DescriptorOracle, config: map<string, seq<Descriptor>>, items: seq<Item>): seq<DescriptorAndConstraints>
  {
    LemmaRootGroupingWellFormed(o, config, items);
    QueueOf(RootGrouping(o, config, items))
  }

  /** Every entry of the work queue has distinct descriptions. */
  ghost predicate Ready(queue: seq<DescriptorAndConstraints>)
  {
    forall e | e in queue :: Distinct(e.constraints)
  }

  lemma LemmaRootReady(g: Grouping)
    requires WellFormed(g)
    ensures Ready(QueueOf(g))
  {
    forall e | e in QueueOf(g) ensures Distinct(e.constraints) {
      var j :| 0 <= j < |QueueOf(g)| && QueueOf(g)[j] == e;
      assert g.order[j] in g.constraints;
    }
  }

  predicate IsPrefix<T(==)>(a: seq<T>, b: seq<T>)
  {
    |a| <= |b| && b[..|a|] == a
  }

  lemma LemmaPrefixTrans<T>(a: seq<T>, b: seq<T>, c: seq<T>)
    requires IsPrefix(a, b) && IsPrefix(b, c)
    ensures IsPrefix(a, c)
  {
    assert c[..|a|] == c[..|b|][..|a|];
  }

  lemma LemmaCacheExtendsTrans(a: Cache, b: Cache, c: Cache)
    requires CacheExtends(a, b) && CacheExtends(b, c)
    ensures CacheExtends(a, c)
  {
  }

  /** The holder keeps what it had, and every list added since is a list in the cache. */
  ghost predicate Backed(holder: seq<seq<Item>>, holder': seq<seq<Item>>, cache: Cache)
  {
    && IsPrefix(holder, holder')
    && forall j | |holder| <= j < |holder'| :: holder'[j] in cache.Values
  }

  lemma LemmaBackedTrans(h0: seq<seq<Item>>, h1: seq<seq<Item>>, h2: seq<seq<Item>>, c1: Cache, c2: Cache)
    requires Backed(h0, h1, c1) && Backed(h1, h2, c2) && CacheExtends(c1, c2)
    ensures Backed(h0, h2, c2)
  {
    LemmaPrefixTrans(h0, h1, h2);
    forall j | |h0| <= j < |h2| ensures h2[j] in c2.Values {
      if j < |h1| {
        assert h2[j] == h1[j];
        LemmaCacheExtendsValues(c1, c2, h1[j]);
      }
    }
  }

  /** The cache after storing the groups of the given descriptions one by one. */
  function Stored(cache: Cache, groups: Cache, stored: seq<Description>): (m: Cache)
    requires forall c | c in stored :: c in groups
  {
    if stored == [] then cache
    else
      var last := stored[|stored| - 1];
      Stored(cache, groups, stored[..|stored| - 1])[last := groups[last]]
  }

  lemma LemmaStoreStep(cache: Cache, groups: Cache, pending: seq<Description>, k: nat)
    requires k < |pending| && forall c | c in pending :: c in groups
    ensures GroupLists(pending[..k + 1], groups) == GroupLists(pending[..k], groups) + [groups[pending[k]]]
    ensures Stored(cache, groups, pending[..k + 1]) == Stored(cache, groups, pending[..k])[pending[k] := groups[pending[k]]]
  {
    assert pending[..k + 1][..k] == pending[..k];
  }

  /** Storing every group of the pending descriptions is the map union with the groups. */
  lemma {:induction false} LemmaStoredAll(cache: Cache, groups: Cache, stored: seq<Description>)
    requires forall c | c in stored :: c in groups
    ensures forall c :: c in Stored(cache, groups, stored) <==> c in cache || c in stored
    ensures forall c | c in stored :: Stored(cache, groups, stored)[c] == groups[c]
    ensures forall c | c in cache && c !in stored :: Stored(cache, groups, stored)[c] == cache[c]
  {
    if stored != [] {
      LemmaStoredAll(cache, groups, stored[..|stored| - 1]);
    }
  }

  lemma LemmaStoredIsUnion(cache: Cache, groups: Cache, stored: seq<Description>)
    requires groups.Keys == set c | c in stored
    ensures Stored(cache, groups, stored) == cache + groups
  {
    LemmaStoredAll(cache, groups, stored);
  }

  lemma LemmaHitsCached(cs: seq<Description>, cache: Cache, holder: seq<seq<Item>>, holder': seq<seq<Item>>)
    requires holder' == holder + HitLists(cs, cache)
    ensures forall j | |holder| <= j < |holder'| :: holder'[j] in cache.Values
  {
    LemmaPartition(cs, cache);
    forall j | |holder| <= j < |holder'| ensures holder'[j] in cache.Values {
      assert holder'[j] in HitLists(cs, cache);
    }
  }

  lemma LemmaStoredCached(pending: seq<Description>, groups: Cache, cache0: Cache,
                          holder: seq<seq<Item>>, holder0: seq<seq<Item>>, holder': seq<seq<Item>>)
    requires groups.Keys == set c | c in pending
    requires forall c | c in pending :: c !in cache0
    requires |holder0| >= |holder| && holder0[..|holder|] == holder
    requires forall j | |holder| <= j < |holder0| :: holder0[j] in cache0.Values
    requires holder' == holder0 + GroupLists(pending, groups)
    ensures CacheExtends(cache0, cache0 + groups)
    ensures |holder'| >= |holder| && holder'[..|holder|] == holder
    ensures forall j | |holder| <= j < |holder'| :: holder'[j] in (cache0 + groups).Values
  {
    var cache := cache0 + groups;
    assert CacheExtends(cache0, cache);
    assert holder'[..|holder|] == holder0[..|holder|];
    forall j | |holder| <= j < |holder'| ensures holder'[j] in cache.Values {
      if j < |holder0| {
        LemmaCacheExtendsValues(cache0, cache, holder0[j]);
      } else {
        var k := j - |holder0|;
        assert holder'[j] == GroupLists(pending, groups)[k] == groups[pending[k]];
        assert cache[pending[k]] == holder'[j];
      }
    }
  }

  /** Chooses the iteration order of every pending description. */
  method EnumerateAll(pending: seq<Description>) returns (orders: seq<seq<FieldNameAndValue>>)
    ensures |orders| == |pending|
    ensures forall k :: 0 <= k < |pending| ==> Enumerates(orders[k], pending[k])
  {
    orders := [];
    var k := 0;
    while k < |pending|
      invariant k <= |pending| && |orders| == k
      invariant forall j :: 0 <= j < k ==> Enumerates(orders[j], pending[j])
    {
      var order := Enumerate(pending[k]);
      orders := orders + [order];
      k := k + 1;
    }
  }
}
