# InterMine prefetching object store, SQL Function node, ConsistentSet and class aliasing, in Dafny

This project models four pieces of InterMine's Java code and proves properties of the models.

**The descriptor-driven prefetch cache (`ObjectStoreItemPathFollowingImpl`).** This is a pass-through object store.
- When prefetch descriptors are configured, every list it returns is a cache-holding list: a plain list from the underlying store is wrapped in one.
- Prefetching runs only when that list has rows and the query's select list is exactly one `Item` class.
- It then fetches the items a translator will ask for next, few queries at a time.
- The work runs on a first-in, first-out queue of (descriptor, set of descriptions) entries.
- Each entry does the following:
  - cache hits go straight to the batch's holder;
  - with more than one description still pending, one batch query is built (a shared AND block plus an OR of one disjunct per description) and sent;
  - the results are sorted back to their descriptions;
  - every group, empty ones included, is cached and put in the holder;
  - one child entry per path descriptor, built from the results, is appended to the queue.
- `getItemsByDescription` memoises single-description lookups and counts operations and misses.

The modules:
- `Items`, `QueryModel`: the data.
- `LookupQuery`: the lookup query.
- `BatchQuery`: `buildQuery`.
- `CachePartition`, `Demultiplexer`, `Expansion`: the steps of one queue entry.
- `PathFollowing`: the store object (`ItemPathFollowingStore`), the drain loop and the cache.

**The SQL `Function` node (`SqlFunction`).** The operation code is checked and per-operation arity limits are enforced on `add`. The node renders to SQL text. Its equality ignores operand order for PLUS and MULTIPLY, and its hash code, proved consistent with that equality, wraps around like Java's `int`.

**`ConsistentSet` (`ConsistentSets`).** A list-backed set whose `add` overwrites the slot of an equal member instead of adding a second one.

**`DataConverter.alias` (`DataConverters`).** A memoising counter that gives every class name a distinct decimal alias.

Modelling choices:
- **Collaborators.** The code of `ItemPrefetchDescriptor` is not part of this model. Its `getConstraint`, `getConstraintFromTarget` and `isStatic` are uninterpreted total functions (`Items.DescriptorOracle`). `getConstraint` answers `None` where the Java method throws `IllegalArgumentException`. `getPaths` is the children of a `Descriptor` value, so descriptor trees are finite and acyclic; the drain loop's termination is proved from that.
- **The underlying store.** It is a value of functions (`PathFollowing.ObjectStore`): `execute` with its paging arguments, and the items a `SingletonResults` over a query yields. A ghost log `issued` records every query the object sends to it.
- **Iteration order.** `HashSet`, `HashMap` and `Set` iteration order is unspecified in Java. Sets that the code iterates are sequences without duplicates in insertion order, and `HashSet.add` is `Sequences.SetAdd`. A description, the cache key, is a real `set`; its iteration order is chosen by `Sequences.Enumerate`, and the queries are stated in terms of that chosen order.
- **Exceptions become error results.** There are three:
  - a root row whose first column is not an `Item` (a `ClassCastException`);
  - a fetched item whose target description was not pending (Java dereferences the null list of its missing group);
  - a derived field for which the batch query's template has no joined row. The Java code then builds a `QueryField` over a `null` class. `QueryField` is not part of this model, so the model assumes that this constructor call throws.

  All three abort the sweep, as the exceptions do in Java.

## Model

| member | source | states |
|---|---|---|
| `PathFollowing.ItemPathFollowingStore.constructor` | intermine/src/java/org/intermine/dataconversion/ObjectStoreItemPathFollowingImpl.java:66-68 | An instance without descriptors: prefetching disabled, empty cache, both counters zero, nothing sent to the store. |
| `PathFollowing.ItemPathFollowingStore.WithDescriptors` | intermine/src/java/org/intermine/dataconversion/ObjectStoreItemPathFollowingImpl.java:76-79 | An instance with a class-name-to-descriptors map: prefetching enabled, empty cache, counters zero. |
| `PathFollowing.ItemPathFollowingStore.Execute` | intermine/src/java/org/intermine/dataconversion/ObjectStoreItemPathFollowingImpl.java:91-117 | The underlying query is sent first. With no descriptor map the underlying list comes back untouched and the cache is unchanged. Without the trigger (rows present and a select list of exactly one Item class) the list comes back untouched, or wrapped with an empty holder when it was plain, and no prefetch runs (empty log). When triggered, a row without an item fails with that error and nothing cached. Otherwise the log is the drain of the seeded queue, whatever the outcome: its k-th step processed the k-th queued entry, starting from the state the previous step left, as `Processed` states. The call succeeds exactly when every queued entry was processed and none failed. A success is a cache-holding list with the same rows, whose holder is what the drain left, starting from the underlying holder; a failure carries the failing entry's error, with the cache and queries as that entry left them. Counters unchanged; the cache only grows. |
| `PathFollowing.ItemPathFollowingStore.GetItemsByDescription` | intermine/src/java/org/intermine/dataconversion/ObjectStoreItemPathFollowingImpl.java:130-179 | ops goes up by one on every call. A hit returns the cached list and changes nothing else: no query, misses unchanged. A miss sends exactly the lookup query for the set's iteration order, returns the store's items for it, stores them under the description and increments misses. Afterwards the description is a cache key mapped to the returned list, so a repeat call is a hit. |
| `PathFollowing.ItemPathFollowingStore.FetchRelated` | intermine/src/java/org/intermine/dataconversion/ObjectStoreItemPathFollowingImpl.java:189-316 | Seeds the queue from the batch's rows, then drains it first in, first out, until it is empty or an entry fails. The ghost log records every entry processed, and `Drained` ties it to the run. The k-th logged entry is the k-th entry ever queued: the seed entries, then each entry's children in order. Each entry starts from the state the previous one left and ends as `Processed` states, and every entry before the last passed. The final cache, queries sent and holder are those the last entry left. On `Pass` every queued entry was processed; on a failure the last logged entry is the one that failed, with that error. The queue is measured by the descriptor trees still to visit, so the drain terminates. Counters unchanged; the cache only grows; earlier sent queries are kept; the holder only grows, every added list a cached one. A row without an item aborts before anything is cached. |
| `PathFollowing.ItemPathFollowingStore.ProcessHead` | intermine/src/java/org/intermine/dataconversion/ObjectStoreItemPathFollowingImpl.java:236-238 | Removes the head entry and appends its children at the tail (`queue' == queue[1..] + children`), strictly lowering the queue's weight and keeping every entry's description set duplicate-free. The head entry's effect on the cache, the queries sent, the holder and the outcome is what `Processed` states for it. |
| `PathFollowing.ItemPathFollowingStore.Drain` | intermine/src/java/org/intermine/dataconversion/ObjectStoreItemPathFollowingImpl.java:236-315 | The while loop over the queue: the log is a drain of the given queue from the state on entry to the state on exit. On `Pass` every queued entry, the children included, was processed and the last passed; on a failure the last logged entry is the one that failed. Counters unchanged; the cache only grows; sent queries are kept; the holder is backed by the cache. |
| `PathFollowing.ItemPathFollowingStore.DrainStep` | intermine/src/java/org/intermine/dataconversion/ObjectStoreItemPathFollowingImpl.java:236-315 | One turn of the drain loop. The log gains exactly one step, whose outcome is the turn's outcome. The drain state (queue = queued entries not yet logged, log chained from the start, cache grown, queries kept, holder backed) is kept. The weight drops and the counters are unchanged. |
| `PathFollowing.LemmaDrainStep` | intermine/src/java/org/intermine/dataconversion/ObjectStoreItemPathFollowingImpl.java:236-238 | Appending the step that processed the head of the remaining queue, starting from the current state, keeps the drain state. The remaining queue becomes its tail plus the step's children, and the growth facts compose from the start. |
| `PathFollowing.ItemPathFollowingStore.PartitionEntry` | intermine/src/java/org/intermine/dataconversion/ObjectStoreItemPathFollowingImpl.java:240-248 | The descriptions still pending are exactly the misses of the entry in iteration order. The holder gains exactly the cached lists of the hits, in order. |
| `PathFollowing.ItemPathFollowingStore.StoreGroups` | intermine/src/java/org/intermine/dataconversion/ObjectStoreItemPathFollowingImpl.java:281-289 | Every pending description, including one with an empty group, is added to the cache with its group (`cache == old(cache) + groups`). The holder gains the groups in pending order. Nothing else changes. |
| `PathFollowing.ItemPathFollowingStore.ProcessEntry` | intermine/src/java/org/intermine/dataconversion/ObjectStoreItemPathFollowingImpl.java:238-314 | Batching threshold: with at most one description pending after the hits there is no query, no cache change and no children, and the holder gains only the hits. Otherwise the entry ends as FetchPending states. In both cases the children are appended at the queue's tail and weigh no more than the descriptor's subtrees. |
| `PathFollowing.ItemPathFollowingStore.FetchPending` | intermine/src/java/org/intermine/dataconversion/ObjectStoreItemPathFollowingImpl.java:256-308 | For two or more pending descriptions: a build error sends nothing. Otherwise the batch query is sent exactly once. When every result satisfies a pending description, all groups are cached and added to the holder, and one child entry per path descriptor is appended. A stray result aborts with the error naming its unwanted description and with nothing cached. |
| `PathFollowing.LemmaRootReady` | intermine/src/java/org/intermine/dataconversion/ObjectStoreItemPathFollowingImpl.java:222-230 | Every entry the first grouping seeds has a duplicate-free set of descriptions. |
| `PathFollowing.LemmaStoredIsUnion` | intermine/src/java/org/intermine/dataconversion/ObjectStoreItemPathFollowingImpl.java:281-289 | Putting each pending group in turn yields the cache overlaid with all groups. |
| `PathFollowing.LemmaStoredAll` | intermine/src/java/org/intermine/dataconversion/ObjectStoreItemPathFollowingImpl.java:281-289 | After storing, the keys are the old keys plus the stored descriptions. Stored descriptions map to their groups; every other key keeps its list. |
| `PathFollowing.LemmaHitsCached` | intermine/src/java/org/intermine/dataconversion/ObjectStoreItemPathFollowingImpl.java:243-246 | Every list the partition adds to the holder is a list in the cache. |
| `PathFollowing.LemmaStoredCached` | intermine/src/java/org/intermine/dataconversion/ObjectStoreItemPathFollowingImpl.java:281-289 | After storing, the cache extends the old one, and every holder list added by the entry (hits and groups) is in the new cache. |
| `PathFollowing.EnumerateAll` | intermine/src/java/org/intermine/dataconversion/ObjectStoreItemPathFollowingImpl.java:391-397 | Chooses an iteration order for every pending description: each order lists that description's matches exactly once. |
| `LookupQuery.BuildLookupQuery` | intermine/src/java/org/intermine/dataconversion/ObjectStoreItemPathFollowingImpl.java:135-168 | Returns the set's iteration order and exactly the query the lookup fold defines for it. |
| `LookupQuery.LemmaLookupCounts` | intermine/src/java/org/intermine/dataconversion/ObjectStoreItemPathFollowingImpl.java:140-167 | Each intrinsic match (non-reference identifier or className) adds one constraint and no join. Every other match adds one joined row and three constraints. |
| `LookupQuery.LemmaLookupConstrainsEveryMatch` | intermine/src/java/org/intermine/dataconversion/ObjectStoreItemPathFollowingImpl.java:142-166 | Every match is enforced: an intrinsic one by an equality on the item's own column. Any other one gets its own joined row of the right class (attribute or reference), contained in the right collection, with equalities on its name and on its value or refId. |
| `LookupQuery.LemmaFrameStartsWithItem` | intermine/src/java/org/intermine/dataconversion/ObjectStoreItemPathFollowingImpl.java:135-138 | The FROM list of the lookup query starts with the item class. |
| `BatchQuery.BuildQuery` | intermine/src/java/org/intermine/dataconversion/ObjectStoreItemPathFollowingImpl.java:318-424 | Returns exactly the query the batch fold defines: the template's joins and static equalities, ANDed with one OR of one AND disjunct per pending description. Otherwise the first missing-join error. |
| `BatchQuery.BuildTemplate` | intermine/src/java/org/intermine/dataconversion/ObjectStoreItemPathFollowingImpl.java:320-384 | The template loop yields exactly the template frame: joins, static equalities and remembered derived joins. |
| `BatchQuery.AddTemplateMatch` | intermine/src/java/org/intermine/dataconversion/ObjectStoreItemPathFollowingImpl.java:334-383 | One template match, branch by branch: a reference or attribute join with its name equality, plus a value equality when static or a remembered join when derived. An intrinsic field gets an item equality only when static. |
| `BatchQuery.BuildDisjunct` | intermine/src/java/org/intermine/dataconversion/ObjectStoreItemPathFollowingImpl.java:394-419 | One disjunct: one equality per derived match on the template's join, or the missing-join error. |
| `BatchQuery.LemmaSharedTestsStaticValuesOnly` | intermine/src/java/org/intermine/dataconversion/ObjectStoreItemPathFollowingImpl.java:332-384 | The values the shared block compares against are exactly the template's static values, in order. No derived value appears there. |
| `BatchQuery.LemmaDisjunctTestsDerivedOnly` | intermine/src/java/org/intermine/dataconversion/ObjectStoreItemPathFollowingImpl.java:395-419 | A disjunct holds exactly one equality per derived match, in order, on that match's value. Static matches contribute nothing. |
| `BatchQuery.LemmaOneDisjunctPerDescription` | intermine/src/java/org/intermine/dataconversion/ObjectStoreItemPathFollowingImpl.java:385-421 | The OR holds one disjunct per pending description, in pending order, each the AND of that description's equalities. |
| `BatchQuery.LemmaSameShapeBuilds` | intermine/src/java/org/intermine/dataconversion/ObjectStoreItemPathFollowingImpl.java:385-421 | When every derived match is intrinsic or joined by the template, the query builds, as the shared block ANDed with an OR of one disjunct per description. |
| `BatchQuery.LemmaTemplateJoinsDerived` | intermine/src/java/org/intermine/dataconversion/ObjectStoreItemPathFollowingImpl.java:350-381 | Each derived reference or attribute of the template is remembered with its joined row. |
| `CachePartition.LemmaPartition` | intermine/src/java/org/intermine/dataconversion/ObjectStoreItemPathFollowingImpl.java:240-248 | No pending description is a cache key. Every description is either pending or a hit whose cached list is in the holder lists. Each hit list is a cached list. Pending plus hits count each description once. A duplicate-free input leaves duplicate-free pending. |
| `CachePartition.LemmaNothingCached` | intermine/src/java/org/intermine/dataconversion/ObjectStoreItemPathFollowingImpl.java:240-248 | With no description cached, all stay pending and the holder gains nothing. |
| `Demultiplexer.Demultiplex` | intermine/src/java/org/intermine/dataconversion/ObjectStoreItemPathFollowingImpl.java:260-279 | Succeeds iff every result's target description is pending. It then returns one group per pending description, empty ones included, each holding that description's results in order. Otherwise it names the target description of the first result whose target is not pending: every earlier result's target is pending. |
| `Demultiplexer.Groups` | intermine/src/java/org/intermine/dataconversion/ObjectStoreItemPathFollowingImpl.java:260-264 | The group map has exactly the pending descriptions as keys. |
| `Demultiplexer.LemmaGroupMembers` | intermine/src/java/org/intermine/dataconversion/ObjectStoreItemPathFollowingImpl.java:275-278 | An item is in a group iff it is a result whose target description is that group's key. |
| `Demultiplexer.LemmaGroupsPartition` | intermine/src/java/org/intermine/dataconversion/ObjectStoreItemPathFollowingImpl.java:270-289 | With distinct pending descriptions and every result expected, the group sizes add up to the number of results: each result is in exactly one group. |
| `Demultiplexer.GroupLists` | intermine/src/java/org/intermine/dataconversion/ObjectStoreItemPathFollowingImpl.java:281-289 | One list per pending description, in order, each its group. |
| `Expansion.GroupRoot` | intermine/src/java/org/intermine/dataconversion/ObjectStoreItemPathFollowingImpl.java:191-230 | Either the first row without an item, or the queue of one entry per descriptor in creation order. Each entry holds the descriptor's duplicate-free set of descriptions from the root grouping. |
| `Expansion.GroupRows` | intermine/src/java/org/intermine/dataconversion/ObjectStoreItemPathFollowingImpl.java:192-215 | The row loop yields the root grouping of the rows' items, or the first row without an item. |
| `Expansion.ApplyDescriptors` | intermine/src/java/org/intermine/dataconversion/ObjectStoreItemPathFollowingImpl.java:196-213 | Applying a class's descriptors to one item: each description is added to its descriptor's set. A descriptor that rejects the item is skipped. |
| `Expansion.SeedQueue` | intermine/src/java/org/intermine/dataconversion/ObjectStoreItemPathFollowingImpl.java:222-230 | One entry per descriptor of the grouping, in creation order. |
| `Expansion.RowItems` | intermine/src/java/org/intermine/dataconversion/ObjectStoreItemPathFollowingImpl.java:192-194 | The first column's item of every row, or the index of the first row whose first column is not an item. |
| `Expansion.LemmaRootGroupingExactly` | intermine/src/java/org/intermine/dataconversion/ObjectStoreItemPathFollowingImpl.java:193-215 | A descriptor is paired with a description exactly when some root item of a class it is configured for yields that description. Pairs whose getConstraint throws are skipped; duplicates collapse into one set per descriptor. |
| `Expansion.LemmaRootGroupingWellFormed` | intermine/src/java/org/intermine/dataconversion/ObjectStoreItemPathFollowingImpl.java:196-213 | The root grouping has one entry per descriptor, each a set without duplicates. |
| `Expansion.ExpandChildren` | intermine/src/java/org/intermine/dataconversion/ObjectStoreItemPathFollowingImpl.java:292-308 | The queue comes back with one entry per path descriptor appended at its tail (FIFO), each built from this query's results only. |
| `Expansion.LemmaDescriptionsExactly` | intermine/src/java/org/intermine/dataconversion/ObjectStoreItemPathFollowingImpl.java:295-306 | A description is in a child's set exactly when some fetched item yields it through the child descriptor. |
| `Expansion.Descriptions` | intermine/src/java/org/intermine/dataconversion/ObjectStoreItemPathFollowingImpl.java:295-306 | A child's descriptions form a set: no duplicates. |
| `Expansion.ChildWork` | intermine/src/java/org/intermine/dataconversion/ObjectStoreItemPathFollowingImpl.java:292-308 | One entry per path descriptor, in path order, pairing it with its descriptions. |
| `Expansion.LemmaChildWorkWeight` | intermine/src/java/org/intermine/dataconversion/ObjectStoreItemPathFollowingImpl.java:292-308 | The children of a descriptor weigh exactly its subtrees, one less than the descriptor itself, so the queue shrinks. |
| `Sequences.SetAdd` | intermine/src/java/org/intermine/dataconversion/ObjectStoreItemPathFollowingImpl.java:207 | HashSet.add: the element is present afterwards, nothing else is added, an existing element changes nothing, and no duplicate is created. |
| `Sequences.Enumerate` | intermine/src/java/org/intermine/dataconversion/ObjectStoreItemPathFollowingImpl.java:141 | Set iteration: a sequence holding each element of the set exactly once. |
| `QueryModel.ItemQuery` | intermine/src/java/org/intermine/dataconversion/ObjectStoreItemPathFollowingImpl.java:135-139 | A non-distinct query over generic items whose select list is exactly the item class, so it satisfies the prefetch trigger. |
| `SqlFunction.Function.constructor` | intermine/src/java/org/intermine/sql/query/Function.java:80-86 | A valid operation with an empty operand list. |
| `SqlFunction.Function.Create` | intermine/src/java/org/intermine/sql/query/Function.java:80-86 | Succeeds iff the code is in 1..11, with that operation and no operands. Otherwise an IllegalArgument error. |
| `SqlFunction.Function.Add` | intermine/src/java/org/intermine/sql/query/Function.java:94-117 | COUNT rejects every operand. MAX/MIN/SUM/AVG accept only a first one. MINUS/DIVIDE/POWER/MODULO accept only two. PLUS/MULTIPLY accept any number. An accepted operand is appended; a rejected one is an IllegalArgument error that leaves the operands unchanged. The arity invariant is kept. |
| `SqlFunction.Function.GetSQLString` | intermine/src/java/org/intermine/sql/query/Function.java:127-164 | The loop's result is exactly the rendering the SqlOf function defines. |
| `SqlFunction.LemmaSqlFailsIff` | intermine/src/java/org/intermine/sql/query/Function.java:127-148 | Rendering fails iff an aggregate other than COUNT has no operand or an arithmetic operation has fewer than two. The failure is an IllegalState error. |
| `SqlFunction.LemmaRendering` | intermine/src/java/org/intermine/sql/query/Function.java:128-161 | An aggregate renders as its name, the operand and `)`. A binary operation renders as `(a` + operator symbol + `b)`. |
| `SqlFunction.LemmaJoinedAppend` | intermine/src/java/org/intermine/sql/query/Function.java:149-160 | Each further operand adds the operator symbol and its text. |
| `SqlFunction.LemmaAggregateIffUnparenthesised` | intermine/src/java/org/intermine/sql/query/Function.java:128-161 | A rendered function starts without `(` iff it is an aggregate. |
| `SqlFunction.Function.Equals` | intermine/src/java/org/intermine/sql/query/Function.java:172-204 | equals holds iff the operations match and the operand multisets (PLUS, MULTIPLY) or operand sequences (others) are equal. |
| `SqlFunction.CountOperands` | intermine/src/java/org/intermine/sql/query/Function.java:176-186 | The counting loop yields the count map of the operands. |
| `SqlFunction.LemmaCountsAreMultiplicities` | intermine/src/java/org/intermine/sql/query/Function.java:176-186 | The count map's keys are the operands, and each count is that operand's multiplicity. |
| `SqlFunction.LemmaCountsEqualIff` | intermine/src/java/org/intermine/sql/query/Function.java:176-198 | Two count maps are equal iff the operand multisets are equal. |
| `SqlFunction.LemmaFunctionEqualsEquivalence` | intermine/src/java/org/intermine/sql/query/Function.java:172-204 | Function equality is reflexive, symmetric and transitive. |
| `SqlFunction.Function.HashCode` | intermine/src/java/org/intermine/sql/query/Function.java:211-222 | The loop's result, with 32-bit wrap-around, is the hash the HashOf function defines. |
| `SqlFunction.LemmaHashStep` | intermine/src/java/org/intermine/sql/query/Function.java:215-219 | One loop step keeps state and multiplier equal to their wrapped closed forms. |
| `SqlFunction.LemmaCommutativeWeightedSum` | intermine/src/java/org/intermine/sql/query/Function.java:212-219 | For PLUS and MULTIPLY every operand's hash is weighted by 5. |
| `SqlFunction.LemmaHashSumPermutation` | intermine/src/java/org/intermine/sql/query/Function.java:215-216 | Operand hashes summed in any order give the same total. |
| `SqlFunction.LemmaHashPermutation` | intermine/src/java/org/intermine/sql/query/Function.java:211-222 | For PLUS and MULTIPLY the hash does not depend on operand order. |
| `SqlFunction.LemmaHashConsistent` | intermine/src/java/org/intermine/sql/query/Function.java:172-222 | Equal functions have equal hash codes. |
| `SqlFunction.Function.IsAggregate` | intermine/src/java/org/intermine/sql/query/Function.java:229-232 | True exactly for COUNT, MAX, MIN, SUM and AVG. |
| `SqlFunction.Function.GetOperation` | intermine/src/java/org/intermine/sql/query/Function.java:239-241 | The operation code, which lies in 1..11. |
| `SqlFunction.Function.GetOperands` | intermine/src/java/org/intermine/sql/query/Function.java:248-250 | The operands in the order they were added. |
| `ConsistentSets.ConsistentSet.constructor` | intermine/src/java/org/intermine/util/ConsistentSet.java:35-38 | An empty set over an equivalence relation. |
| `ConsistentSets.ConsistentSet.Add` | intermine/src/java/org/intermine/util/ConsistentSet.java:49-56 | Always answers true. An element equal to a member overwrites that member's slot, leaving size and every other slot unchanged. Any other element is appended. The new object is in the list, the members afterwards are the old ones plus those equal to it, and no two slots are ever equal. |
| `ConsistentSets.IndexOf` | intermine/src/java/org/intermine/util/ConsistentSet.java:50 | List.indexOf: the first index whose element is equal, or -1 exactly when none is. |
| `ConsistentSets.LemmaReplace` | intermine/src/java/org/intermine/util/ConsistentSet.java:51-53 | Overwriting an equal slot keeps the slots pairwise unequal and changes membership only by the new object. |
| `ConsistentSets.LemmaAppend` | intermine/src/java/org/intermine/util/ConsistentSet.java:55 | Appending an element with no equal member keeps the slots pairwise unequal and adds exactly its equals. |
| `ConsistentSets.ConsistentSet.Size` | intermine/src/java/org/intermine/util/ConsistentSet.java:63-65 | The number of slots. |
| `ConsistentSets.ConsistentSet.Elements` | intermine/src/java/org/intermine/util/ConsistentSet.java:72-74 | The backing list in slot order, whose length is the size. |
| `DataConverters.DataConverter.constructor` | intermine/src/java/org/intermine/dataconversion/DataConverter.java:27-28 | No aliases and a counter at zero. |
| `DataConverters.DataConverter.Alias` | intermine/src/java/org/intermine/dataconversion/DataConverter.java:49-58 | A known name returns its stored alias and changes nothing. A new name gets the decimal text of nextClsId; the counter goes up by exactly one and the map gains only that entry. Either way the alias is stored for the name and differs from every other name's alias. |
| `DataConverters.NatToString` | intermine/src/java/org/intermine/dataconversion/DataConverter.java:54 | Decimal text: at least one digit, and a single digit exactly for numbers below 10. |
| `DataConverters.LemmaNatToStringInjective` | intermine/src/java/org/intermine/dataconversion/DataConverter.java:54 | Different numbers have different decimal texts. |
| `DataConverters.LemmaValidAdd` | intermine/src/java/org/intermine/dataconversion/DataConverter.java:54-55 | Giving a new name the counter's text and moving the counter on keeps every alias the text of a distinct number below the counter. |
| `DataConverters.LemmaValidUnique` | intermine/src/java/org/intermine/dataconversion/DataConverter.java:44-58 | In every reachable state distinct names have distinct aliases. |
| `DataConverters.DataConverter.LemmaAliasesBelowCounter` | intermine/src/java/org/intermine/dataconversion/DataConverter.java:50-56 | Every stored alias is the decimal text of a number below nextClsId. |
| `DataConverters.DataConverter.LemmaUniqueAliases` | intermine/src/java/org/intermine/dataconversion/DataConverter.java:44-58 | Distinct class names have distinct aliases. |

## Left out

- I/O and diagnostics: all `LOG.error` output (including the every-1000th-miss report) and the `Date` timing are not modelled.
- `execute(Query)`, which returns a lazy `Results` over `getSequence()`, is not modelled. Neither is the lazy, batched paging of `SingletonResults` (`setBatchSize`): a `SingletonResults` is the whole item sequence the store returns for the query.
- Concurrency: `Collections.synchronizedMap` around the cache has no counterpart; the model is sequential.
- `CacheMap` eviction is not modelled. The cache is a map that only grows, which is what `CacheExtends` states.
- The iteration order of `HashSet`/`HashMap` is fixed as insertion order for the sets the code builds. This includes the order of `descriptorToConstraints` entries and of `constraintToList` entries, which here follow the order in which descriptors and descriptions appear.
- `CacheHoldingArrayList` is modelled as a value (rows plus holder). The in-place `addToHolder` on the caller's list, and any aliasing of that list, are not modelled. Cache writes made before an exception stay, as in Java. Holder additions made before an exception are lost with the returned value. In Java they are lost only when the list was plain: when the underlying list is already a `CacheHoldingArrayList`, `addToHolder` (lines 245 and 285) changes the caller's object, and those additions survive the exception.
- The underlying store never fails. Its `ObjectStoreException` from `execute` and from iterating a `SingletonResults`, and the wrapping of `IllegalAccessException` into `ObjectStoreException` (ObjectStoreItemPathFollowingImpl.java:114-116), are not modelled. Neither is the `os.getSequence()` token passed to `SingletonResults` (lines 171 and 267). This applies to `PathFollowing.ItemPathFollowingStore.Execute`, `FetchRelated` and `GetItemsByDescription`.
- Members of a `ConsistentSet` are immutable values under a fixed equivalence. A member that changes while it is in the set, and so becomes equal to another member, is not represented; ConsistentSet.java:19-24 describes that case.
- `PathFollowing.ItemPathFollowingStore.GetItemsByDescription`: `ops` and `misses` are unbounded naturals; the wrap-around of the Java `int` counters is not modelled.
- `DataConverters.DataConverter.Alias`: `nextClsId` is an unbounded natural. After 2^32 new class names the Java `int` counter would wrap and repeat aliases; distinctness is proved for the unbounded counter.
- The `ItemWriter` and the abstract `process()` of `DataConverter` are not modelled. Neither is the rest of `ConsistentSet`'s `AbstractSet` behaviour (`remove`, `contains` by iteration).
- `SqlFunction.Function.Equals` compares only with another `Function`; `equals` against an object of another class, which Java answers `false`, is not modelled.
- `SqlFunction.Function.GetOperands` returns the operand sequence as a value; the aliasing of the live Java list it returns is not modelled.
- Operands are modelled as values with their SQL text and hash code (`SqlFunction.AbstractValue`). Other `AbstractValue` kinds and nested rendering are not modelled. `Equals` and `CountOperands` compare operands by the pair (SQL text, hash code). That is finer than Java's per-class `equals`: for example, nested functions `(a + b)` and `(b + a)` are equal in Java but are different operands here whenever their SQL text differs. The `Integer` counts in `equals` are unbounded.
- The message "This function may only taketwo operands" (missing space) is kept exactly as the Java code produces it.
- The "Unknown operation" `Error` of `getSQLString` cannot happen, since the constructor admits only codes 1..11, and is not modelled.
- `DynamicUtil`, `Database`, `QueryNode` and the test classes are not part of this model.
