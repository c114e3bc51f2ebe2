/**
 * The batch query buildQuery compiles from the pending descriptions of one
 * descriptor: joins and static equalities taken from the first description
 * form a shared AND block, and each description contributes one AND disjunct
 * of its derived fields inside a single OR.
 */
module BatchQuery {
  import opened Wrappers
  import opened Sequences
  import opened Items
  import opened PrefetchErrors
  import opened QueryModel
  import LookupQuery

  /** The shared part of the query built from the template description, and the join aliases of its derived fields. */
  datatype BatchFrame = BatchFrame(
    from: seq<ClassType>,
    shared: seq<Constraint>,
    references: map<string, nat>,
    attributes: map<string, nat>)

  /** The constraints one template match adds to the shared block: its join, and its value test when it is static. */
  function SharedAdded(isStatic: bool, a: nat, f: FieldNameAndValue): seq<Constraint>
  {
    if IsIntrinsic(f) then
      if isStatic then [Equals(FieldRef(ItemAlias, f.fieldName), f.value)] else []
    else
      [Contains(ItemAlias, LookupQuery.CollectionOf(f), a), Equals(FieldRef(a, "name"), f.fieldName)]
      + (if isStatic then [Equals(FieldRef(a, LookupQuery.ValueColumnOf(f)), f.value)] else [])
  }

  /** What one match of the template adds to the frame; a derived join is remembered under its field name. */
  function TemplateStep(o: DescriptorOracle, d: Descriptor, fr: BatchFrame, f: FieldNameAndValue): BatchFrame
  {
    var isStatic := o.isStatic(d, f);
    var a := |fr.from|;
    BatchFrame(if IsIntrinsic(f) then fr.from else fr.from + [LookupQuery.RowClassOf(f)],
               fr.shared + SharedAdded(isStatic, a, f),
               if f.isReference && !isStatic then fr.references[f.fieldName := a] else fr.references,
               if !f.isReference && !IsIntrinsic(f) && !isStatic then fr.attributes[f.fieldName := a] else fr.attributes)
  }

  /** The shared block after visiting the template's matches in the order `fs`. */
  function TemplateFrame(o: DescriptorOracle, d: Descriptor, fs: seq<FieldNameAndValue>): (fr: BatchFrame)
    ensures |fr.from| > 0 && fr.from[0] == ItemType
  {
    if fs == [] then BatchFrame([ItemType], [], map[], map[])
    else TemplateStep(o, d, TemplateFrame(o, d, fs[..|fs| - 1]), fs[|fs| - 1])
  }

  /** The test a derived match contributes to its description's disjunct. */
  function DerivedTest(fr: BatchFrame, f: FieldNameAndValue): Result<Constraint, PrefetchError>
  {
    if f.isReference then
      if f.fieldName in fr.references then Success(Equals(FieldRef(fr.references[f.fieldName], "refId"), f.value))
      else Failure(MissingJoin(f))
    else if f.fieldName == "identifier" || f.fieldName == "className" then
      Success(Equals(FieldRef(ItemAlias, f.fieldName), f.value))
    else if f.fieldName in fr.attributes then
      Success(Equals(FieldRef(fr.attributes[f.fieldName], "value"), f.value))
    else
      Failure(MissingJoin(f))
  }

  /** The AND disjunct for one description visited in the order `fs`: a test per derived match; static ones are skipped. */
  function Disjunct(o: DescriptorOracle, d: Descriptor, fr: BatchFrame, fs: seq<FieldNameAndValue>): Result<seq<Constraint>, PrefetchError>
  {
    if fs == [] then Success([])
    else
      match Disjunct(o, d, fr, fs[..|fs| - 1])
      case Failure(e) => Failure(e)
      case Success(parts) =>
        var f := fs[|fs| - 1];
        if o.isStatic(d, f) then Success(parts)
        else
          match DerivedTest(fr, f)
          case Failure(e) => Failure(e)
          case Success(c) => Success(parts + [c])
  }

  /** One AND disjunct per description, in the pending order. */
  function Disjuncts(o: DescriptorOracle, d: Descriptor, fr: BatchFrame, orders: seq<seq<FieldNameAndValue>>): Result<seq<Constraint>, PrefetchError>
  {
    if orders == [] then Success([])
    else
      match Disjuncts(o, d, fr, orders[..|orders| - 1])
      case Failure(e) => Failure(e)
      case Success(ds) =>
        match Disjunct(o, d, fr, orders[|orders| - 1])
        case Failure(e) => Failure(e)
        case Success(parts) => Success(ds + [And(parts)])
  }

  /**
   * The batch query for the pending descriptions, each visited in its own
   * iteration order; the first one is the template.
   */
  function BatchQueryOf(o: DescriptorOracle, d: Descriptor, orders: seq<seq<FieldNameAndValue>>): Result<Query, PrefetchError>
    requires |orders| > 0
  {
    var fr := TemplateFrame(o, d, orders[0]);
    match Disjuncts(o, d, fr, orders)
    case Failure(e) => Failure(e)
    case Success(ds) => Success(ItemQuery(fr.from, And(fr.shared + [Or(ds)])))
  }

  // ---------------------------------------------------------------------------
  // Shape of the batch query

  /** The matches the descriptor does not mark static, in visiting order. */
  function Derived(o: DescriptorOracle, d: Descriptor, fs: seq<FieldNameAndValue>): (r: seq<FieldNameAndValue>)
    ensures forall f | f in r :: f in fs && !o.isStatic(d, f)
  {
    if fs == [] then []
    else Derived(o, d, fs[..|fs| - 1]) + (if o.isStatic(d, fs[|fs| - 1]) then [] else [fs[|fs| - 1]])
  }

  /** The values of the matches the descriptor marks static, in visiting order. */
  function StaticValues(o: DescriptorOracle, d: Descriptor, fs: seq<FieldNameAndValue>): seq<string>
  {
    if fs == [] then []
    else StaticValues(o, d, fs[..|fs| - 1]) + (if o.isStatic(d, fs[|fs| - 1]) then [fs[|fs| - 1].value] else [])
  }

  /** The values tested by the equalities of `cs` on a value column (every column except a joined row's `name`). */
  function ValueTests(cs: seq<Constraint>): seq<string>
  {
    if cs == [] then []
    else ValueTests(cs[..|cs| - 1]) + (var c := cs[|cs| - 1]; if c.Equals? && c.field.name != "name" then [c.value] else [])
  }

  lemma {:induction false} LemmaValueTestsAppend(a: seq<Constraint>, b: seq<Constraint>)
    ensures ValueTests(a + b) == ValueTests(a) + ValueTests(b)
    decreases |b|
  {
    if b != [] {
      var n := |b| - 1;
      assert (a + b)[..|a + b| - 1] == a + b[..n];
      LemmaValueTestsAppend(a, b[..n]);
    } else {
      assert a + b == a;
    }
  }

  lemma LemmaSharedAddedTests(isStatic: bool, a: nat, f: FieldNameAndValue)
    ensures ValueTests(SharedAdded(isStatic, a, f)) == if isStatic then [f.value] else []
  {
    var added := SharedAdded(isStatic, a, f);
    if !IsIntrinsic(f) {
      var head := [Contains(ItemAlias, LookupQuery.CollectionOf(f), a), Equals(FieldRef(a, "name"), f.fieldName)];
      var tail := if isStatic then [Equals(FieldRef(a, LookupQuery.ValueColumnOf(f)), f.value)] else [];
      assert head[..1][..0] == [];
      assert ValueTests(head[..1]) == [];
      assert tail[..|tail|] == tail;
      if isStatic { assert tail[..0] == []; }
      LemmaValueTestsAppend(head, tail);
    } else if isStatic {
      assert added[..0] == [];
    }
  }

  /**
   * Static fields appear only in the shared block: the values the shared
   * block tests are exactly the template's static values, in order, so no
   * derived value is tested there.
   */
  lemma {:induction false} LemmaSharedTestsStaticValuesOnly(o: DescriptorOracle, d: Descriptor, fs: seq<FieldNameAndValue>)
    ensures ValueTests(TemplateFrame(o, d, fs).shared) == StaticValues(o, d, fs)
  {
    if fs != [] {
      var init := fs[..|fs| - 1];
      var f := fs[|fs| - 1];
      var fr := TemplateFrame(o, d, init);
      LemmaSharedTestsStaticValuesOnly(o, d, init);
      LemmaSharedAddedTests(o.isStatic(d, f), |fr.from|, f);
      LemmaValueTestsAppend(fr.shared, SharedAdded(o.isStatic(d, f), |fr.from|, f));
    }
  }

  /**
   * Derived fields appear only in the disjuncts: a description's disjunct
   * holds exactly one equality per derived match, testing that match's value,
   * in visiting order.
   */
  lemma {:induction false} LemmaDisjunctTestsDerivedOnly(o: DescriptorOracle, d: Descriptor, fr: BatchFrame, fs: seq<FieldNameAndValue>)
    requires Disjunct(o, d, fr, fs).Success?
    ensures var parts := Disjunct(o, d, fr, fs).value; var ds := Derived(o, d, fs);
      && |parts| == |ds|
      && forall j :: 0 <= j < |parts| ==> parts[j].Equals? && parts[j].value == ds[j].value
  {
    if fs != [] {
      LemmaDisjunctTestsDerivedOnly(o, d, fr, fs[..|fs| - 1]);
    }
  }

  /** The OR holds one disjunct per pending description. */
  lemma {:induction false} LemmaOneDisjunctPerDescription(o: DescriptorOracle, d: Descriptor, fr: BatchFrame, orders: seq<seq<FieldNameAndValue>>)
    requires Disjuncts(o, d, fr, orders).Success?
    ensures |Disjuncts(o, d, fr, orders).value| == |orders|
    ensures forall k :: 0 <= k < |orders| ==>
      (Disjunct(o, d, fr, orders[k]).Success? && Disjuncts(o, d, fr, orders).value[k] == And(Disjunct(o, d, fr, orders[k]).value))
  {
    if orders != [] {
      var init := orders[..|orders| - 1];
      LemmaOneDisjunctPerDescription(o, d, fr, init);
      forall k | 0 <= k < |orders| - 1
        ensures orders[k] == init[k]
      {
      }
    }
  }

  /** The derived reference and attribute fields of the template each have a joined row to test in the disjuncts. */
  lemma {:induction false} LemmaTemplateJoinsDerived(o: DescriptorOracle, d: Descriptor, fs: seq<FieldNameAndValue>, f: FieldNameAndValue)
    requires f in fs && !o.isStatic(d, f) && !IsIntrinsic(f)
    ensures f.isReference ==> f.fieldName in TemplateFrame(o, d, fs).references
    ensures !f.isReference ==> f.fieldName in TemplateFrame(o, d, fs).attributes
  {
    var init := fs[..|fs| - 1];
    if f in init {
      LemmaTemplateJoinsDerived(o, d, init, f);
    } else {
      assert f == fs[|fs| - 1];
    }
  }

  /** A derived match whose field the template also joins as a derived field, or an intrinsic one, yields its test. */
  predicate JoinedBy(o: DescriptorOracle, d: Descriptor, template: seq<FieldNameAndValue>, f: FieldNameAndValue)
  {
    || IsIntrinsic(f)
    || (exists g :: g in template && !o.isStatic(d, g) && !IsIntrinsic(g)
                 && g.fieldName == f.fieldName && g.isReference == f.isReference)
  }

  /**
   * The missing-join error cannot happen when the descriptions share the
   * template's shape: then the batch query is built and has one disjunct per
   * description, ANDed after the shared block.
   */
  lemma {:induction false} LemmaSameShapeBuilds(o: DescriptorOracle, d: Descriptor, orders: seq<seq<FieldNameAndValue>>)
    requires |orders| > 0
    requires forall k, f :: 0 <= k < |orders| && f in orders[k] && !o.isStatic(d, f) ==> JoinedBy(o, d, orders[0], f)
    ensures BatchQueryOf(o, d, orders).Success?
    ensures var fr := TemplateFrame(o, d, orders[0]); var q := BatchQueryOf(o, d, orders).value;
      exists ds :: |ds| == |orders| && q.where == Some(And(fr.shared + [Or(ds)]))
  {
    var fr := TemplateFrame(o, d, orders[0]);
    LemmaDisjunctsBuild(o, d, fr, orders[0], orders);
    LemmaOneDisjunctPerDescription(o, d, fr, orders);
  }

  lemma {:induction false} LemmaDisjunctsBuild(o: DescriptorOracle, d: Descriptor, fr: BatchFrame, template: seq<FieldNameAndValue>, orders: seq<seq<FieldNameAndValue>>)
    requires fr == TemplateFrame(o, d, template)
    requires forall k, f :: 0 <= k < |orders| && f in orders[k] && !o.isStatic(d, f) ==> JoinedBy(o, d, template, f)
    ensures Disjuncts(o, d, fr, orders).Success?
  {
    if orders != [] {
      var init := orders[..|orders| - 1];
      forall k, f | 0 <= k < |init| && f in init[k] && !o.isStatic(d, f)
        ensures JoinedBy(o, d, template, f)
      {
        assert init[k] == orders[k];
      }
      LemmaDisjunctsBuild(o, d, fr, template, init);
      LemmaDisjunctBuilds(o, d, fr, template, orders[|orders| - 1]);
    }
  }

  lemma {:induction false} LemmaDisjunctBuilds(o: DescriptorOracle, d: Descriptor, fr: BatchFrame, template: seq<FieldNameAndValue>, fs: seq<FieldNameAndValue>)
    requires fr == TemplateFrame(o, d, template)
    requires forall f | f in fs && !o.isStatic(d, f) :: JoinedBy(o, d, template, f)
    ensures Disjunct(o, d, fr, fs).Success?
  {
    if fs != [] {
      var init := fs[..|fs| - 1];
      LemmaDisjunctBuilds(o, d, fr, template, init);
      var f := fs[|fs| - 1];
      if !o.isStatic(d, f) && !IsIntrinsic(f) {
        var g :| g in template && !o.isStatic(d, g) && !IsIntrinsic(g)
          && g.fieldName == f.fieldName && g.isReference == f.isReference;
        LemmaTemplateJoinsDerived(o, d, template, g);
      }
    }
  }

  // ---------------------------------------------------------------------------
  // The builder

  /**
   * buildQuery: walks the template's matches to build the shared block, then
   * one disjunct per pending description, each visited in its own iteration
   * order `orders[k]`.
   */
  method BuildQuery(o: DescriptorOracle, d: Descriptor, orders: seq<seq<FieldNameAndValue>>) returns (r: Result<Query, PrefetchError>)
    requires |orders| > 0
    ensures r == BatchQueryOf(o, d, orders)
  {
    var fr := BuildTemplate(o, d, orders[0]);
    var disjuncts := [];
    var k := 0;
    while k < |orders|
      invariant k <= |orders|
      invariant Disjuncts(o, d, fr, orders[..k]) == Success(disjuncts)
    {
      var fs := orders[k];
      var parts := BuildDisjunct(o, d, fr, fs);
      assert orders[..k + 1][..k] == orders[..k];
      if parts.Failure? {
        LemmaDisjunctsFailExtends(o, d, fr, orders, k + 1);
        return Failure(parts.error);
      }
      disjuncts := disjuncts + [And(parts.value)];
      k := k + 1;
    }
    assert orders[..k] == orders;
    r := Success(ItemQuery(fr.from, And(fr.shared + [Or(disjuncts)])));
  }

  /** The template loop: one join per non-intrinsic match, static values into the shared block, derived joins remembered by field name. */
  method BuildTemplate(o: DescriptorOracle, d: Descriptor, template: seq<FieldNameAndValue>) returns (fr: BatchFrame)
    ensures fr == TemplateFrame(o, d, template)
  {
    var from := [ItemType];
    var shared := [];
    var references: map<string, nat> := map[];
    var attributes: map<string, nat> := map[];
    var i := 0;
    while i < |template|
      invariant i <= |template|
      invariant BatchFrame(from, shared, references, attributes) == TemplateFrame(o, d, template[..i])
    {
      assert template[..i + 1][..i] == template[..i];
      from, shared, references, attributes := AddTemplateMatch(o, d, from, shared, references, attributes, template[i]);
      i := i + 1;
    }
    assert template[..i] == template;
    fr := BatchFrame(from, shared, references, attributes);
  }

  /** The body of the template loop for one match. */
  method AddTemplateMatch(o: DescriptorOracle, d: Descriptor, from: seq<ClassType>, shared: seq<Constraint>,
                          references: map<string, nat>, attributes: map<string, nat>, f: FieldNameAndValue)
    returns (from': seq<ClassType>, shared': seq<Constraint>, references': map<string, nat>, attributes': map<string, nat>)
    ensures BatchFrame(from', shared', references', attributes') == TemplateStep(o, d, BatchFrame(from, shared, references, attributes), f)
  {
    from', shared', references', attributes' := from, shared, references, attributes;
    if f.isReference {
      var a := |from'|;
      from' := from' + [ReferenceType];
      shared' := shared' + [Contains(ItemAlias, "references", a), Equals(FieldRef(a, "name"), f.fieldName)];
      if o.isStatic(d, f) {
        shared' := shared' + [Equals(FieldRef(a, "refId"), f.value)];
      } else {
        references' := references'[f.fieldName := a];
      }
    } else if f.fieldName == "identifier" || f.fieldName == "className" {
      if o.isStatic(d, f) {
        shared' := shared' + [Equals(FieldRef(ItemAlias, f.fieldName), f.value)];
      }
    } else {
      var a := |from'|;
      from' := from' + [AttributeType];
      shared' := shared' + [Contains(ItemAlias, "attributes", a), Equals(FieldRef(a, "name"), f.fieldName)];
      if o.isStatic(d, f) {
        shared' := shared' + [Equals(FieldRef(a, "value"), f.value)];
      } else {
        attributes' := attributes'[f.fieldName := a];
      }
    }
  }

  /** The disjunct loop for one description: a test on the template's join for every derived match. */
  method BuildDisjunct(o: DescriptorOracle, d: Descriptor, fr: BatchFrame, fs: seq<FieldNameAndValue>) returns (r: Result<seq<Constraint>, PrefetchError>)
    ensures r == Disjunct(o, d, fr, fs)
  {
    var parts := [];
    var j := 0;
    while j < |fs|
      invariant j <= |fs|
      invariant Disjunct(o, d, fr, fs[..j]) == Success(parts)
    {
      var f := fs[j];
      assert fs[..j + 1][..j] == fs[..j];
      if !o.isStatic(d, f) {
        var test := DerivedTest(fr, f);
        if test.Failure? {
          LemmaDisjunctFailExtends(o, d, fr, fs, j + 1);
          return Failure(test.error);
        }
        parts := parts + [test.value];
      }
      j := j + 1;
    }
    assert fs[..j] == fs;
    r := Success(parts);
  }

  lemma {:induction false} LemmaDisjunctFailExtends(o: DescriptorOracle, d: Descriptor, fr: BatchFrame, fs: seq<FieldNameAndValue>, n: nat)
    requires n <= |fs| && Disjunct(o, d, fr, fs[..n]).Failure?
    ensures Disjunct(o, d, fr, fs) == Disjunct(o, d, fr, fs[..n])
    decreases |fs| - n
  {
    if n < |fs| {
      assert fs[..n + 1][..n] == fs[..n];
      LemmaDisjunctFailExtends(o, d, fr, fs, n + 1);
    } else {
      assert fs[..n] == fs;
    }
  }

  lemma {:induction false} LemmaDisjunctsFailExtends(o: DescriptorOracle, d: Descriptor, fr: BatchFrame, orders: seq<seq<FieldNameAndValue>>, k: nat)
    requires k <= |orders| && Disjuncts(o, d, fr, orders[..k]).Failure?
    ensures Disjuncts(o, d, fr, orders) == Disjuncts(o, d, fr, orders[..k])
    decreases |orders| - k
  {
    if k < |orders| {
      assert orders[..k + 1][..k] == orders[..k];
      LemmaDisjunctsFailExtends(o, d, fr, orders, k + 1);
    } else {
      assert orders[..k] == orders;
    }
  }
}
