/**
 * What the preloaders of both crates share: slot maps (one `Option` per relation
 * field of an object), the outcome of one edge's fetch, the fields of a run of
 * edges, and the fallback queries of the field resolvers.
 */
module Slots {
  import opened Wrappers
  import opened Store
  import opened Registry
  import opened LookAhead

  /** The slot of `field` in a slot map; a field absent from the map is an empty slot. */
  function Slot<T>(slots: map<string, Option<T>>, field: string): Option<T>
  {
    if field in slots then slots[field] else None
  }

  /** `slots` and `slots0` agree on every field outside `fields`. */
  ghost predicate SameOutside<T>(slots: map<string, Option<T>>, slots0: map<string, Option<T>>, fields: set<string>)
  {
    forall f :: f !in fields ==> Slot(slots, f) == Slot(slots0, f)
  }

  /** What one selected edge fetched: its sorted distinct keys and the rows returned. */
  datatype Fetch = Skipped | Fetched(keys: seq<Key>, rows: seq<Row>)

  /** The fields of the edges from `lo` up to `hi`. */
  function FieldsIn(edges: seq<Edge>, lo: nat, hi: nat): set<string>
  {
    set j | lo <= j < hi && j < |edges| :: edges[j].field
  }

  /** The fallback query of a HasOne field: the target row whose id is the stored key. */
  function OneFallback(e: Edge, key: Key): Query
  {
    Query(e.schema, Some(IdEquals(key)), None, None)
  }

  /**
   * The fallback query of a HasMany field: the target rows pointing at the parent,
   * with the field's own page size (botanist's `limit`, gin's `first`; default 10)
   * and `offset` (default 0).
   */
  function ManyFallback(e: Edge, id: Key, limit: Option<i32>, offset: Option<i32>): Query
    requires e.HasManyEdge?
  {
    Query(e.schema, Some(ColumnEquals(e.foreignKey, id)), Some(limit.UnwrapOr(10) as int), Some(offset.UnwrapOr(0) as int))
  }

  lemma Associative<T>(a: seq<T>, b: seq<T>, c: seq<T>)
    ensures a + (b + c) == (a + b) + c
  {
  }
}
