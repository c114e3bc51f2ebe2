/**
 * The records the prefetch cache fetches, the field matches that describe
 * them, and the prefetch descriptors configured by the caller.
 */
module Items {
  import opened Wrappers

  /** A generic fetched record (org.intermine.model.fulldata.Item). */
  datatype Item = Item(
    identifier: string,
    className: string,
    attributes: set<(string, string)>,   // (name, value)
    references: set<(string, string)>)   // (name, refId)

  /**
   * One field match: an attribute (or the intrinsic `identifier` / `className`)
   * equal to a value, or a reference pointing at the item with that identifier.
   */
  datatype FieldNameAndValue = FieldNameAndValue(fieldName: string, value: string, isReference: bool)

  /** A description: an unordered set of field matches, the key of the descriptive cache. */
  type Description = set<FieldNameAndValue>

  /** The intrinsic fields the item row holds itself. */
  predicate IsIntrinsic(f: FieldNameAndValue)
  {
    !f.isReference && (f.fieldName == "identifier" || f.fieldName == "className")
  }

  /**
   * A prefetch descriptor: an identity and the descriptors to follow from the
   * items it fetches (getPaths). Being a value, the tree is finite and acyclic.
   */
  datatype Descriptor = Descriptor(id: nat, paths: seq<Descriptor>)

  /**
   * The behaviour of ItemPrefetchDescriptor that the engine calls but whose
   * code is not part of this model, as uninterpreted total functions.
   */
  datatype DescriptorOracle = DescriptorOracle(
    /** getConstraint(item): the description of the items wanted from `item`; None when it throws IllegalArgumentException. */
    getConstraint: (Descriptor, Item) -> Option<Description>,
    /** getConstraintFromTarget(item): the description a fetched item satisfies. */
    getConstraintFromTarget: (Descriptor, Item) -> Description,
    /** isStatic(f): whether a field match has the same value in every description of the descriptor. */
    isStatic: (Descriptor, FieldNameAndValue) -> bool)

  /** Number of descriptors in the tree rooted at `d`, the measure that bounds the work queue. */
  function Size(d: Descriptor): (n: nat)
    ensures n >= 1
    decreases d, 1
  {
    1 + SizeOfAll(d.paths)
  }

  function SizeOfAll(ds: seq<Descriptor>): nat
    decreases ds, 0
  {
    if ds == [] then 0 else SizeOfAll(ds[..|ds| - 1]) + Size(ds[|ds| - 1])
  }
}

/** The unchecked exceptions that abort a prefetch sweep. */
module PrefetchErrors {
  import opened Items

  datatype PrefetchError =
    /** Row `index` of the root batch does not hold an Item in its first column (ClassCastException). */
    | RowNotAnItem(index: nat)
    /** A fetched item satisfies a description that was not asked for (Java dereferences the null list of its missing group). */
    | UnexpectedTarget(description: Description)
    /** A derived field of a description has no joined row in the batch query's template (dereferencing null). */
    | MissingJoin(field: FieldNameAndValue)
}
