/**
 * The query getItemsByDescription builds for one description: the item class
 * joined with one attribute or reference row per non-intrinsic match, all
 * constraints ANDed together.
 */
module LookupQuery {
  import opened Wrappers
  import opened Sequences
  import opened Items
  import opened QueryModel

  /** The collection of the item that holds rows for a non-intrinsic match. */
  function CollectionOf(f: FieldNameAndValue): string
  {
    if f.isReference then "references" else "attributes"
  }

  /** The class of the joined row for a non-intrinsic match. */
  function RowClassOf(f: FieldNameAndValue): ClassType
  {
    if f.isReference then ReferenceType else AttributeType
  }

  /** The column of the joined row that carries the match's value. */
  function ValueColumnOf(f: FieldNameAndValue): string
  {
    if f.isReference then "refId" else "value"
  }

  /** The FROM list and the AND-ed constraints built so far. */
  datatype LookupFrame = LookupFrame(from: seq<ClassType>, parts: seq<Constraint>)

  /** What one field match adds: an equality on the item, or a join with its name and value tests. */
  function LookupStep(fr: LookupFrame, f: FieldNameAndValue): LookupFrame
  {
    if IsIntrinsic(f) then
      LookupFrame(fr.from, fr.parts + [Equals(FieldRef(ItemAlias, f.fieldName), f.value)])
    else
      var a := |fr.from|;
      LookupFrame(fr.from + [RowClassOf(f)],
                  fr.parts + [Contains(ItemAlias, CollectionOf(f), a),
                              Equals(FieldRef(a, "name"), f.fieldName),
                              Equals(FieldRef(a, ValueColumnOf(f)), f.value)])
  }

  /** The frame after visiting the matches in the order `fs` (the description's iteration order). */
  function LookupFrameOf(fs: seq<FieldNameAndValue>): LookupFrame
  {
    if fs == [] then LookupFrame([ItemType], [])
    else LookupStep(LookupFrameOf(fs[..|fs| - 1]), fs[|fs| - 1])
  }

  /** The single-description lookup query for the matches visited in the order `fs`. */
  function LookupQueryOf(fs: seq<FieldNameAndValue>): Query
  {
    var fr := LookupFrameOf(fs);
    LemmaFrameStartsWithItem(fs);
    ItemQuery(fr.from, And(fr.parts))
  }

  /** How many matches of `fs` bind an intrinsic column of the item. */
  function CountIntrinsic(fs: seq<FieldNameAndValue>): (n: nat)
    ensures n <= |fs|
  {
    if fs == [] then 0
    else CountIntrinsic(fs[..|fs| - 1]) + (if IsIntrinsic(fs[|fs| - 1]) then 1 else 0)
  }

  lemma {:induction false} LemmaFrameStartsWithItem(fs: seq<FieldNameAndValue>)
    ensures |LookupFrameOf(fs).from| > 0 && LookupFrameOf(fs).from[0] == ItemType
  {
    if fs != [] {
      LemmaFrameStartsWithItem(fs[..|fs| - 1]);
    }
  }

  /**
   * Counting the query: each intrinsic match adds one equality and no join;
   * every other match adds one joined row and three constraints.
   */
  lemma {:induction false} LemmaLookupCounts(fs: seq<FieldNameAndValue>)
    ensures var fr := LookupFrameOf(fs);
      && |fr.from| == 1 + (|fs| - CountIntrinsic(fs))
      && |fr.parts| == CountIntrinsic(fs) + 3 * (|fs| - CountIntrinsic(fs))
  {
    if fs != [] {
      LemmaLookupCounts(fs[..|fs| - 1]);
    }
  }

  /** The alias that the k-th match's joined row receives: one past the joins of the matches before it. */
  function JoinAlias(fs: seq<FieldNameAndValue>, k: nat): nat
    requires k <= |fs|
  {
    1 + (k - CountIntrinsic(fs[..k]))
  }

  /** The constraints that stand for one match, given the alias of its joined row. */
  predicate Constrains(fr: LookupFrame, f: FieldNameAndValue, a: nat)
  {
    if IsIntrinsic(f) then
      Equals(FieldRef(ItemAlias, f.fieldName), f.value) in fr.parts
    else
      && a < |fr.from| && fr.from[a] == RowClassOf(f)
      && Contains(ItemAlias, CollectionOf(f), a) in fr.parts
      && Equals(FieldRef(a, "name"), f.fieldName) in fr.parts
      && Equals(FieldRef(a, ValueColumnOf(f)), f.value) in fr.parts
  }

  /**
   * Every match of the description is enforced by the query: an intrinsic one
   * binds the item's own column, any other one has its own joined row (of the
   * right class, in the right collection) whose name and value are tested.
   */
  lemma {:induction false} LemmaLookupConstrainsEveryMatch(fs: seq<FieldNameAndValue>, k: nat)
    requires k < |fs|
    ensures Constrains(LookupFrameOf(fs), fs[k], JoinAlias(fs, k))
  {
    var n := |fs| - 1;
    var init := fs[..n];
    assert init[..k] == fs[..k] by { if k < n { assert fs[..n][..k] == fs[..k]; } }
    LemmaLookupCounts(init);
    assert LookupFrameOf(fs) == LookupStep(LookupFrameOf(init), fs[n]);
    if k < n {
      LemmaLookupConstrainsEveryMatch(init, k);
      LemmaPrefixCount(fs, k, n);
      LemmaStepKeeps(LookupFrameOf(init), fs[n], fs[k], JoinAlias(fs, k));
    } else {
      assert fs[..k] == init;
      LemmaStepAdds(LookupFrameOf(init), fs[n]);
    }
  }

  /** A step only appends, so whatever the frame enforced it still enforces. */
  lemma LemmaStepKeeps(fr: LookupFrame, f: FieldNameAndValue, g: FieldNameAndValue, a: nat)
    requires Constrains(fr, g, a)
    ensures Constrains(LookupStep(fr, f), g, a)
  {
    var fr' := LookupStep(fr, f);
    assert fr'.from[..|fr.from|] == fr.from;
  }

  /** A step enforces its own match, with the join row it appends at alias |fr.from|. */
  lemma LemmaStepAdds(fr: LookupFrame, f: FieldNameAndValue)
    ensures Constrains(LookupStep(fr, f), f, |fr.from|)
  {
  }

  /** Intrinsic matches before position k never exceed the matches before position n. */
  lemma {:induction false} LemmaPrefixCount(fs: seq<FieldNameAndValue>, k: nat, n: nat)
    requires k <= n <= |fs|
    ensures CountIntrinsic(fs[..k]) <= CountIntrinsic(fs[..n])
    ensures k - CountIntrinsic(fs[..k]) <= n - CountIntrinsic(fs[..n])
    decreases n - k
  {
    if k < n {
      LemmaPrefixCount(fs, k, n - 1);
      assert fs[..n][..n - 1] == fs[..n - 1];
    }
  }

  /**
   * Builds the lookup query for `description`, visiting its matches in the
   * set's iteration order, returned as `order`.
   */
  method BuildLookupQuery(description: Description) returns (q: Query, order: seq<FieldNameAndValue>)
    ensures Enumerates(order, description)
    ensures q == LookupQueryOf(order)
  {
    order := Enumerate(description);
    var from := [ItemType];
    var parts := [];
    var i := 0;
    while i < |order|
      invariant i <= |order|
      invariant LookupFrame(from, parts) == LookupFrameOf(order[..i])
    {
      var f := order[i];
      if IsIntrinsic(f) {
        parts := parts + [Equals(FieldRef(ItemAlias, f.fieldName), f.value)];
      } else {
        var a := |from|;
        from := from + [RowClassOf(f)];
        parts := parts + [Contains(ItemAlias, CollectionOf(f), a),
                          Equals(FieldRef(a, "name"), f.fieldName),
                          Equals(FieldRef(a, ValueColumnOf(f)), f.value)];
      }
      assert order[..i + 1][..i] == order[..i];
      i := i + 1;
    }
    assert order[..i] == order;
    LemmaFrameStartsWithItem(order);
    q := ItemQuery(from, And(parts));
  }
}
