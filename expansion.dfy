/**
 * Where the work of a prefetch sweep comes from: the root batch's items are
 * grouped into one set of descriptions per applicable descriptor, and every
 * batch query's results seed one entry per child descriptor.
 */
module Expansion {
  import opened Wrappers
  import opened Sequences
  import opened Items
  import opened PrefetchErrors
  import opened QueryModel

  /** A queue entry: descriptions all produced by the same descriptor, so one query can serve them. */
  datatype DescriptorAndConstraints = DescriptorAndConstraints(descriptor: Descriptor, constraints: seq<Description>)

  // ---------------------------------------------------------------------------
  // The root batch

  /** The item in the first column of a row, if that is what it holds. */
  function RowItem(row: ResultsRow): Option<Item>
  {
    if |row.columns| > 0 && row.columns[0].ItemCell? then Some(row.columns[0].item) else None
  }

  /** The items of the rows, or the first row that does not start with an item. */
  function RowItems(rows: seq<ResultsRow>): (r: Result<seq<Item>, PrefetchError>)
    ensures r.Success? ==> |r.value| == |rows| && forall i :: 0 <= i < |rows| ==> RowItem(rows[i]) == Some(r.value[i])
    ensures r.Failure? ==> exists i :: 0 <= i < |rows| && r.error == RowNotAnItem(i) && RowItem(rows[i]).None?
  {
    if rows == [] then Success([])
    else
      var n := |rows| - 1;
      match RowItems(rows[..n])
      case Failure(e) => Failure(e)
      case Success(items) =>
        match RowItem(rows[n])
        case None => Failure(RowNotAnItem(n))
        case Some(x) => Success(items + [x])
  }

  /** The descriptors configured for a class name; none when the map has no entry. */
  function DescriptorsFor(config: map<string, seq<Descriptor>>, className: string): seq<Descriptor>
  {
    if className in config then config[className] else []
  }

  /** The map from descriptor to its set of descriptions, with the order its entries were created in. */
  datatype Grouping = Grouping(constraints: map<Descriptor, seq<Description>>, order: seq<Descriptor>)

  const NoGroups := Grouping(map[], [])

  ghost predicate WellFormed(g: Grouping)
  {
    && Distinct(g.order)
    && (forall d | d in g.order :: d in g.constraints)
    && (forall d | d in g.constraints :: d in g.order && Distinct(g.constraints[d]))
  }

  /** Adding a description to its descriptor's set, creating the set on first use. */
  function AddTo(g: Grouping, d: Descriptor, c: Description): Grouping
  {
    if d in g.constraints then Grouping(g.constraints[d := SetAdd(g.constraints[d], c)], g.order)
    else Grouping(g.constraints[d := [c]], g.order + [d])
  }

  /** Applying the descriptors `ds` to one item; a descriptor that rejects the item is skipped. */
  function AddItem(o: DescriptorOracle, ds: seq<Descriptor>, g: Grouping, item: Item): Grouping
  {
    if ds == [] then g
    else
      var d := ds[|ds| - 1];
      var before := AddItem(o, ds[..|ds| - 1], g, item);
      match o.getConstraint(d, item)
      case None => before
      case Some(c) => AddTo(before, d, c)
  }

  /** The grouping of the root batch's items by the descriptors of their classes. */
  function RootGrouping(o: DescriptorOracle, config: map<string, seq<Descriptor>>, items: seq<Item>): Grouping
  {
    if items == [] then NoGroups
    else
      var x := items[|items| - 1];
      AddItem(o, DescriptorsFor(config, x.className), RootGrouping(o, config, items[..|items| - 1]), x)
  }

  /** The queue seeded from a grouping: one entry per descriptor, in creation order. */
  function QueueOf(g: Grouping): (q: seq<DescriptorAndConstraints>)
    requires forall d | d in g.order :: d in g.constraints
    ensures |q| == |g.order|
    ensures forall j :: 0 <= j < |q| ==> q[j] == DescriptorAndConstraints(g.order[j], g.constraints[g.order[j]])
  {
    seq(|g.order|, j requires 0 <= j < |g.order| => DescriptorAndConstraints(g.order[j], g.constraints[g.order[j]]))
  }

  /** A pair is grouped. */
  predicate Grouped(g: Grouping, d: Descriptor, c: Description)
  {
    d in g.constraints && c in g.constraints[d]
  }

  lemma LemmaAddToWellFormed(g: Grouping, d: Descriptor, c: Description)
    requires WellFormed(g)
    ensures WellFormed(AddTo(g, d, c))
  {
    if d !in g.constraints {
      assert d !in g.order;
    }
  }

  lemma {:induction false} LemmaAddItemWellFormed(o: DescriptorOracle, ds: seq<Descriptor>, g: Grouping, item: Item)
    requires WellFormed(g)
    ensures WellFormed(AddItem(o, ds, g, item))
  {
    if ds != [] {
      var last := ds[|ds| - 1];
      LemmaAddItemWellFormed(o, ds[..|ds| - 1], g, item);
      match o.getConstraint(last, item)
      case None =>
      case Some(c0) => LemmaAddToWellFormed(AddItem(o, ds[..|ds| - 1], g, item), last, c0);
    }
  }

  /** The root grouping keeps one entry per descriptor, each a set without duplicates. */
  lemma {:induction false} LemmaRootGroupingWellFormed(o: DescriptorOracle, config: map<string, seq<Descriptor>>, items: seq<Item>)
    ensures WellFormed(RootGrouping(o, config, items))
  {
    if items != [] {
      var x := items[|items| - 1];
      LemmaRootGroupingWellFormed(o, config, items[..|items| - 1]);
      LemmaAddItemWellFormed(o, DescriptorsFor(config, x.className), RootGrouping(o, config, items[..|items| - 1]), x);
    }
  }

  lemma {:induction false} LemmaAddTo(g: Grouping, d: Descriptor, c: Description, d': Descriptor, c': Description)
    ensures Grouped(AddTo(g, d, c), d', c') <==> Grouped(g, d', c') || (d' == d && c' == c)
  {
  }

  lemma {:induction false} LemmaAddItem(o: DescriptorOracle, ds: seq<Descriptor>, g: Grouping, item: Item, d: Descriptor, c: Description)
    ensures Grouped(AddItem(o, ds, g, item), d, c) <==> Grouped(g, d, c) || (d in ds && o.getConstraint(d, item) == Some(c))
  {
    if ds != [] {
      var last := ds[|ds| - 1];
      var init := ds[..|ds| - 1];
      LemmaAddItem(o, init, g, item, d, c);
      assert ds == init + [last];
      match o.getConstraint(last, item)
      case None =>
      case Some(c0) =>
        LemmaAddTo(AddItem(o, init, g, item), last, c0, d, c);
    }
  }

  /**
   * Trigger and mismatch skip: a descriptor is paired with a description
   * exactly when some root item of a class it is configured for yields that
   * description; pairs whose getConstraint throws are left out. Each
   * descriptor gets one set, in which duplicates collapse.
   */
  lemma {:induction false} LemmaRootGroupingExactly(o: DescriptorOracle, config: map<string, seq<Descriptor>>, items: seq<Item>, d: Descriptor, c: Description)
    ensures Grouped(RootGrouping(o, config, items), d, c) <==>
      exists i :: 0 <= i < |items| && d in DescriptorsFor(config, items[i].className) && o.getConstraint(d, items[i]) == Some(c)
  {
    if items != [] {
      var init := items[..|items| - 1];
      var x := items[|items| - 1];
      LemmaRootGroupingExactly(o, config, init, d, c);
      LemmaAddItem(o, DescriptorsFor(config, x.className), RootGrouping(o, config, init), x, d, c);
      if Grouped(RootGrouping(o, config, items), d, c) {
        if Grouped(RootGrouping(o, config, init), d, c) {
          var i :| 0 <= i < |init| && d in DescriptorsFor(config, init[i].className) && o.getConstraint(d, init[i]) == Some(c);
          assert items[i] == init[i];
        }
      } else {
        forall i | 0 <= i < |items|
          ensures !(d in DescriptorsFor(config, items[i].className) && o.getConstraint(d, items[i]) == Some(c))
        {
          if i < |init| { assert items[i] == init[i]; }
        }
      }
    }
  }

  /** The inner loop of the first loop of fetchRelated: applies each descriptor of the item's class to the item. */
  method ApplyDescriptors(o: DescriptorOracle, descriptors: seq<Descriptor>, g: Grouping, item: Item) returns (g': Grouping)
    ensures g' == AddItem(o, descriptors, g, item)
  {
    var descriptorToConstraints := g.constraints;
    var order := g.order;
    var j := 0;
    while j < |descriptors|
      invariant j <= |descriptors|
      invariant Grouping(descriptorToConstraints, order) == AddItem(o, descriptors[..j], g, item)
    {
      var desc := descriptors[j];
      assert descriptors[..j + 1][..j] == descriptors[..j];
      var constraint := o.getConstraint(desc, item);
      if constraint.Some? {
        if desc in descriptorToConstraints {
          descriptorToConstraints := descriptorToConstraints[desc := SetAdd(descriptorToConstraints[desc], constraint.value)];
        } else {
          descriptorToConstraints := descriptorToConstraints[desc := [constraint.value]];
          order := order + [desc];
        }
      }
      j := j + 1;
    }
    assert descriptors[..j] == descriptors;
    g' := Grouping(descriptorToConstraints, order);
  }

  /**
   * The first loop of fetchRelated: reads the item of every row and groups
   * the descriptions of the applicable descriptors; the queue it seeds has
   * one entry per descriptor. A row without an item aborts.
   */
  method GroupRoot(o: DescriptorOracle, config: map<string, seq<Descriptor>>, rows: seq<ResultsRow>)
    returns (r: Result<seq<DescriptorAndConstraints>, PrefetchError>)
    ensures RowItems(rows).Failure? ==> r == Failure(RowItems(rows).error)
    ensures RowItems(rows).Success? ==>
      && WellFormed(RootGrouping(o, config, RowItems(rows).value))
      && r == Success(QueueOf(RootGrouping(o, config, RowItems(rows).value)))
  {
    var grouped := GroupRows(o, config, rows);
    if grouped.Failure? {
      return Failure(grouped.error);
    }
    LemmaRootGroupingWellFormed(o, config, RowItems(rows).value);
    var queue := SeedQueue(grouped.value);
    r := Success(queue);
  }

  /** The row loop: the grouping of every row's item, or the first row without one. */
  method GroupRows(o: DescriptorOracle, config: map<string, seq<Descriptor>>, rows: seq<ResultsRow>)
    returns (r: Result<Grouping, PrefetchError>)
    ensures RowItems(rows).Failure? ==> r == Failure(RowItems(rows).error)
    ensures RowItems(rows).Success? ==> r == Success(RootGrouping(o, config, RowItems(rows).value))
  {
    var g := NoGroups;
    ghost var items: seq<Item> := [];
    var i := 0;
    while i < |rows|
      invariant i <= |rows|
      invariant RowItems(rows[..i]) == Success(items)
      invariant g == RootGrouping(o, config, items)
    {
      assert rows[..i + 1][..i] == rows[..i];
      var cell := RowItem(rows[i]);
      if cell.None? {
        LemmaRowItemsFailExtends(rows, i + 1);
        return Failure(RowNotAnItem(i));
      }
      var item := cell.value;
      g := ApplyDescriptors(o, DescriptorsFor(config, item.className), g, item);
      assert (items + [item])[..|items|] == items;
      items := items + [item];
      i := i + 1;
    }
    assert rows[..i] == rows;
    r := Success(g);
  }

  /** One queue entry per descriptor of the grouping, in creation order. */
  method SeedQueue(g: Grouping) returns (queue: seq<DescriptorAndConstraints>)
    requires forall d | d in g.order :: d in g.constraints
    ensures queue == QueueOf(g)
  {
    queue := [];
    var k := 0;
    while k < |g.order|
      invariant k <= |g.order|
      invariant queue == QueueOf(g)[..k]
    {
      queue := queue + [DescriptorAndConstraints(g.order[k], g.constraints[g.order[k]])];
      k := k + 1;
    }
    assert QueueOf(g)[..k] == QueueOf(g);
  }

  lemma {:induction false} LemmaRowItemsFailExtends(rows: seq<ResultsRow>, n: nat)
    requires n <= |rows| && RowItems(rows[..n]).Failure?
    ensures RowItems(rows) == RowItems(rows[..n])
    decreases |rows| - n
  {
    if n < |rows| {
      assert rows[..n + 1][..n] == rows[..n];
      LemmaRowItemsFailExtends(rows, n + 1);
    } else {
      assert rows[..n] == rows;
    }
  }

  // ---------------------------------------------------------------------------
  // Following the paths

  /** The set of descriptions child descriptor `c` yields from `items`, in first-seen order. */
  function Descriptions(o: DescriptorOracle, c: Descriptor, items: seq<Item>): (r: seq<Description>)
    ensures Distinct(r)
  {
    if items == [] then []
    else
      var before := Descriptions(o, c, items[..|items| - 1]);
      match o.getConstraint(c, items[|items| - 1])
      case None => before
      case Some(x) => SetAdd(before, x)
  }

  /** The entries a batch query's results seed: one per child descriptor, in path order. */
  function ChildWork(o: DescriptorOracle, paths: seq<Descriptor>, results: seq<Item>): (w: seq<DescriptorAndConstraints>)
    ensures |w| == |paths|
    ensures forall j :: 0 <= j < |w| ==> w[j] == DescriptorAndConstraints(paths[j], Descriptions(o, paths[j], results))
  {
    seq(|paths|, j requires 0 <= j < |paths| => DescriptorAndConstraints(paths[j], Descriptions(o, paths[j], results)))
  }

  /**
   * Child work is seeded only from this query's results: a description is
   * in a child's set exactly when some fetched item yields it.
   */
  lemma {:induction false} LemmaDescriptionsExactly(o: DescriptorOracle, c: Descriptor, items: seq<Item>, x: Description)
    ensures x in Descriptions(o, c, items) <==> exists i :: 0 <= i < |items| && o.getConstraint(c, items[i]) == Some(x)
  {
    if items != [] {
      var init := items[..|items| - 1];
      LemmaDescriptionsExactly(o, c, init, x);
      if x in Descriptions(o, c, items) {
        if x in Descriptions(o, c, init) {
          var i :| 0 <= i < |init| && o.getConstraint(c, init[i]) == Some(x);
          assert items[i] == init[i];
        }
      } else {
        forall i | 0 <= i < |items| ensures o.getConstraint(c, items[i]) != Some(x) {
          if i < |init| { assert items[i] == init[i]; }
        }
      }
    }
  }

  /**
   * "Now follow the path on": each child descriptor's set of descriptions
   * is built from the results and its entry is appended at the queue's tail.
   */
  method ExpandChildren(o: DescriptorOracle, paths: seq<Descriptor>, results: seq<Item>, queue: seq<DescriptorAndConstraints>)
    returns (queue': seq<DescriptorAndConstraints>)
    ensures queue' == queue + ChildWork(o, paths, results)
  {
    queue' := queue;
    var k := 0;
    while k < |paths|
      invariant k <= |paths|
      invariant queue' == queue + ChildWork(o, paths, results)[..k]
    {
      var descriptor := paths[k];
      var constraints := [];
      var i := 0;
      while i < |results|
        invariant i <= |results|
        invariant constraints == Descriptions(o, descriptor, results[..i])
      {
        assert results[..i + 1][..i] == results[..i];
        var constraint := o.getConstraint(descriptor, results[i]);
        if constraint.Some? {
          constraints := SetAdd(constraints, constraint.value);
        }
        i := i + 1;
      }
      assert results[..i] == results;
      assert ChildWork(o, paths, results)[..k + 1] == ChildWork(o, paths, results)[..k] + [DescriptorAndConstraints(descriptor, constraints)];
      queue' := queue' + [DescriptorAndConstraints(descriptor, constraints)];
      k := k + 1;
    }
  }

  // ---------------------------------------------------------------------------
  // Termination of the queue

  /** Total size of the descriptor trees still to process. */
  function Weight(queue: seq<DescriptorAndConstraints>): nat
  {
    if queue == [] then 0 else Weight(queue[..|queue| - 1]) + Size(queue[|queue| - 1].descriptor)
  }

  lemma {:induction false} LemmaWeightAppend(a: seq<DescriptorAndConstraints>, b: seq<DescriptorAndConstraints>)
    ensures Weight(a + b) == Weight(a) + Weight(b)
    decreases |b|
  {
    if b == [] {
      assert a + b == a;
    } else {
      assert (a + b)[..|a + b| - 1] == a + b[..|b| - 1];
      LemmaWeightAppend(a, b[..|b| - 1]);
    }
  }

  lemma {:induction false} LemmaWeightFront(queue: seq<DescriptorAndConstraints>)
    requires queue != []
    ensures Weight(queue) == Size(queue[0].descriptor) + Weight(queue[1..])
  {
    assert queue == [queue[0]] + queue[1..];
    LemmaWeightAppend([queue[0]], queue[1..]);
    assert [queue[0]][..0] == [];
  }

  /** The child entries of a descriptor weigh exactly one less than the descriptor itself. */
  lemma {:induction false} LemmaChildWorkWeight(o: DescriptorOracle, paths: seq<Descriptor>, results: seq<Item>)
    ensures Weight(ChildWork(o, paths, results)) == SizeOfAll(paths)
  {
    if paths != [] {
      var init := paths[..|paths| - 1];
      LemmaChildWorkWeight(o, init, results);
      var w := ChildWork(o, paths, results);
      assert w[..|w| - 1] == ChildWork(o, init, results);
    }
  }
}
