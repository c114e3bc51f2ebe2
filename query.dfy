/**
 * The part of the object-store query language that the prefetch code builds:
 * a FROM list of classes addressed by position (the alias), a SELECT list,
 * and a tree of AND/OR constraint sets over simple equalities and CONTAINS.
 */
module QueryModel {
  import opened Wrappers
  import opened Items

  /** The classes a query ranges over: the generic item, its attribute and reference rows, or anything else. */
  datatype ClassType = ItemType | AttributeType | ReferenceType | OtherType(name: string)

  /** A FROM-list position together with the name of one of its fields (QueryField). */
  datatype FieldRef = FieldRef(alias: nat, name: string)

  datatype Constraint =
    | Equals(field: FieldRef, value: string)                   // SimpleConstraint(qf, EQUALS, QueryValue)
    | Contains(owner: nat, collection: string, member: nat)   // ContainsConstraint(QueryCollectionReference, CONTAINS, QueryClass)
    | And(parts: seq<Constraint>)                              // ConstraintSet(AND)
    | Or(parts: seq<Constraint>)                               // ConstraintSet(OR)

  /** An entry of the SELECT list: a class of the FROM list, or some other expression. */
  datatype SelectNode = SelectClass(cls: ClassType) | SelectOther

  datatype Query = Query(from: seq<ClassType>, select: seq<SelectNode>, distinct: bool, where: Option<Constraint>)

  /** The alias of the item class in every query the prefetch code builds. */
  const ItemAlias: nat := 0

  /** A query over generic items that selects the item itself (`new QueryClass(Item.class)` added to FROM and SELECT). */
  function ItemQuery(from: seq<ClassType>, where: Constraint): (q: Query)
    requires |from| > 0 && from[0] == ItemType
    ensures q.from == from && q.select == [SelectClass(ItemType)] && !q.distinct && q.where == Some(where)
    ensures SelectsOneItem(q)
  {
    Query(from, [SelectClass(ItemType)], false, Some(where))
  }

  /** The select list is exactly one class, and that class is Item. */
  predicate SelectsOneItem(q: Query)
  {
    |q.select| == 1 && q.select[0].SelectClass? && q.select[0].cls == ItemType
  }

  /** One column of a result row: an item, or any other value. */
  datatype Cell = ItemCell(item: Item) | ValueCell(value: string)

  datatype ResultsRow = ResultsRow(columns: seq<Cell>)

  /**
   * A list of rows returned by a store: a plain list, or a CacheHoldingArrayList
   * that also carries a holder, the lists of prefetched items attached to it.
   */
  datatype ResultList = Plain(rows: seq<ResultsRow>) | CacheHolding(rows: seq<ResultsRow>, holder: seq<seq<Item>>)
}
