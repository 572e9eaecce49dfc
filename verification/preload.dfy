/**
 * botanist's generated GraphQL objects (botanist_codegen/src/macros/object.rs):
 * each object carries, per relation field, a one-shot preload slot behind a lock;
 * `preload_children` fills the slots of a whole batch of objects with one fetch
 * per selected relation, recursing into the fetched children; a field resolver
 * takes a filled slot (leaving it empty) or falls back to a fetch of its own.
 */
module BotanistPreload {
  import opened Wrappers
  import opened LookAhead
  import opened Store
  import opened Registry
  import opened Keys
  import opened Slots

  /**
   * A generated GraphQL object: the model row it was converted from and its preload
   * slots, one per relation field (`<field>_preloaded`). A field absent from a slot
   * map is an empty slot. `poisoned` holds the fields whose lock is poisoned (a
   * thread panicked while holding it), on which `lock()` fails.
   */
  class Node {
    const model: string
    const row: Row
    var one: map<string, Option<Node>>
    var many: map<string, Option<seq<Node>>>
    var poisoned: set<string>

    /** `From<Model>`: the row's fields, and every slot empty behind a fresh lock. */
    constructor (model: string, row: Row)
      ensures this.model == model && this.row == row
      ensures one == map[] && many == map[] && poisoned == {}
    {
      this.model := model;
      this.row := row;
      one := map[];
      many := map[];
      poisoned := {};
    }

    /** A thread panics while holding the lock of `field`'s slot. */
    method Poison(field: string)
      modifies this
      ensures poisoned == old(poisoned) + {field}
      ensures one == old(one) && many == old(many)
    {
      poisoned := poisoned + {field};
    }
  }

  /** The rows of a batch of objects, in order. */
  function RowsOf(nodes: seq<Node>): (r: seq<Row>)
    ensures |r| == |nodes| && forall i :: 0 <= i < |nodes| ==> r[i] == nodes[i].row
  {
    if nodes == [] then [] else [nodes[0].row] + RowsOf(nodes[1..])
  }

  datatype EdgeResult = EdgeResult(requests: seq<Query>, fetch: Fetch, error: Option<DbError>)

  /**
   * A whole `preload_children` run: every query sent (nested levels included), the
   * fetch of each top-level edge completed, and the error that stopped it, if any.
   */
  datatype Trace = Trace(requests: seq<Query>, steps: seq<Fetch>, error: Option<DbError>)

  /**
   * The batched query of an edge. `HasOne`: the rows whose id is one of the keys.
   * `HasMany`: the rows whose foreign key is one of the parent ids, with the
   * `limit` and `offset` arguments of the parents' own selection (defaults 10 and
   * 0) applied to the whole batch.
   */
  function EdgeQuery(e: Edge, keys: seq<Key>, look: Selection): (q: Query)
    ensures q.schema == e.schema
    ensures e.HasOneEdge? ==> q.where == Some(IdIn(keys)) && q.limit.None? && q.offset.None?
    ensures e.HasManyEdge? ==>
      && q.where == Some(ColumnIn(e.foreignKey, keys))
      && q.limit == Some(IntArgument(look, "limit", 10) as int)
      && q.offset == Some(IntArgument(look, "offset", 0) as int)
  {
    match e
    case HasOneEdge(_, schema, _) => Query(schema, Some(IdIn(keys)), None, None)
    case HasManyEdge(_, schema, fk, _) =>
      Query(schema, Some(ColumnIn(fk, keys)),
            Some(IntArgument(look, "limit", 10) as int), Some(IntArgument(look, "offset", 0) as int))
  }

  /**
   * The preloader block of edge `i` over parent rows `rows`: skipped unless the
   * selection has a child named after the field and some key was gathered for the
   * target model; otherwise one fetch with the sorted distinct keys, then the
   * fetched rows are preloaded with the child selection.
   */
  function EdgeStep(models: Models, answer: Answers, edges: seq<Edge>, i: nat,
                    rows: seq<Row>, look: Selection): EdgeResult
    requires i < |edges|
    decreases look, 0
  {
    var e := edges[i];
    var sel := SelectChild(look.children, e.field);
    var gathered := KeysFor(edges, rows, e.model);
    if sel.None? || gathered == [] then EdgeResult([], Skipped, None)
    else
      var sorted := SortedDistinct(gathered);
      var q := EdgeQuery(e, sorted, look);
      match answer(q)
      case Failure(err) => EdgeResult([q], Skipped, Some(err))
      case Success(fetched) =>
        var nested := Preload(models, answer, e.model, fetched, sel.value);
        EdgeResult([q] + nested.requests, Fetched(sorted, fetched), nested.error)
  }

  /** A selected edge with gathered keys whose batch query succeeds fetches what the query returns. */
  lemma StepFetches(models: Models, answer: Answers, edges: seq<Edge>, i: nat, rows: seq<Row>, look: Selection,
                    sel: Selection, sorted: seq<Key>, fetched: seq<Row>)
    requires i < |edges|
    requires SelectChild(look.children, edges[i].field) == Some(sel)
    requires KeysFor(edges, rows, edges[i].model) != [] && SortedDistinct(KeysFor(edges, rows, edges[i].model)) == sorted
    requires answer(EdgeQuery(edges[i], sorted, look)) == Success(fetched)
    ensures var nested := Preload(models, answer, edges[i].model, fetched, sel);
      EdgeStep(models, answer, edges, i, rows, look)
        == EdgeResult([EdgeQuery(edges[i], sorted, look)] + nested.requests, Fetched(sorted, fetched), nested.error)
  {
  }

  /** The edges from `i` on, in field order; the first error stops the run. */
  function RunEdges(models: Models, answer: Answers, edges: seq<Edge>, i: nat,
                    rows: seq<Row>, look: Selection): Trace
    requires i <= |edges|
    decreases look, 1, |edges| - i
  {
    if i == |edges| then Trace([], [], None)
    else
      var s := EdgeStep(models, answer, edges, i, rows, look);
      if s.error.Some? then Trace(s.requests, [], s.error)
      else
        var rest := RunEdges(models, answer, edges, i + 1, rows, look);
        Trace(s.requests + rest.requests, [s.fetch] + rest.steps, rest.error)
  }

  /** `preload_children` of `model` over objects with rows `rows` and selection `look`. */
  function Preload(models: Models, answer: Answers, model: string,
                   rows: seq<Row>, look: Selection): Trace
    decreases look, 2
  {
    RunEdges(models, answer, EdgesOf(models, model), 0, rows, look)
  }

  /** The HasOne fan-out writes a parent's slot: its key was paired with a fetched row and the lock is sound. */
  predicate FillsOne(row: Row, poisoned: set<string>, e: Edge, f: Fetch)
  {
    && e.HasOneEdge? && f.Fetched?
    && Column(row, e.field).Some? && Column(row, e.field).value in ZipMap(f.keys, f.rows)
    && e.field !in poisoned
  }

  /** The HasMany fan-out writes a parent's slot: some fetched row points at it and the lock is sound. */
  predicate FillsMany(row: Row, poisoned: set<string>, e: Edge, f: Fetch)
  {
    e.HasManyEdge? && f.Fetched? && Bucket(f.rows, e.foreignKey, row.id) != [] && e.field !in poisoned
  }

  /**
   * The slots `one` and `many` of edge `e` in a parent with `row` and `poisoned`
   * locks, after the edge ran with outcome `f`, given their values `one0` and
   * `many0` before: a written HasOne slot holds an object of the target model with
   * the row paired with the parent's key; a written HasMany slot holds objects of
   * the target model with exactly the fetched rows that point at the parent, in
   * fetch order; a slot not written keeps its value.
   */
  predicate Outcome(row: Row, poisoned: set<string>, e: Edge, f: Fetch,
                    one: Option<Node>, many: Option<seq<Node>>, one0: Option<Node>, many0: Option<seq<Node>>)
  {
    && (if FillsOne(row, poisoned, e, f) then
          one.Some? && one.value.model == e.model && one.value.row == ZipMap(f.keys, f.rows)[Column(row, e.field).value]
        else one == one0)
    && (if FillsMany(row, poisoned, e, f) then
          && many.Some?
          && (forall n :: n in many.value ==> n.model == e.model)
          && RowsOf(many.value) == Bucket(f.rows, e.foreignKey, row.id)
        else many == many0)
  }

  /**
   * The slot maps `one` and `many` of a parent after one edge `e` completed with
   * outcome `f`, given the maps `one0` and `many0` before: the edge's slots are as
   * `Outcome` says, and no other field's slot changes.
   */
  ghost predicate EdgeWritten(row: Row, poisoned: set<string>, e: Edge, f: Fetch,
                              one: map<string, Option<Node>>, many: map<string, Option<seq<Node>>>,
                              one0: map<string, Option<Node>>, many0: map<string, Option<seq<Node>>>)
  {
    && Outcome(row, poisoned, e, f, Slot(one, e.field), Slot(many, e.field), Slot(one0, e.field), Slot(many0, e.field))
    && SameOutside(one, one0, {e.field}) && SameOutside(many, many0, {e.field})
  }

  /** A skipped edge writes nothing. */
  lemma Unwritten(row: Row, poisoned: set<string>, e: Edge,
                  one: map<string, Option<Node>>, many: map<string, Option<seq<Node>>>)
    ensures EdgeWritten(row, poisoned, e, Skipped, one, many, one, many)
  {
  }

  /** `models.into_iter().map(GQL::from).collect()`: one fresh object per row, slots empty. */
  method MakeNodes(model: string, rows: seq<Row>) returns (nodes: seq<Node>)
    ensures RowsOf(nodes) == rows
    ensures forall n :: n in nodes ==> fresh(n) && n.model == model && n.one == map[] && n.many == map[] && n.poisoned == {}
  {
    nodes := [];
    for i := 0 to |rows|
      invariant |nodes| == i && forall j :: 0 <= j < i ==> nodes[j].row == rows[j]
      invariant forall n :: n in nodes ==> fresh(n) && n.model == model && n.one == map[] && n.many == map[] && n.poisoned == {}
    {
      var n := new Node(model, rows[i]);
      nodes := nodes + [n];
    }
  }

  /** Pairing keys with objects pairs them with the objects' rows. */
  lemma {:induction false} ZipMapRows(ks: seq<Key>, nodes: seq<Node>)
    ensures forall k :: k in ZipMap(ks, nodes) <==> k in ZipMap(ks, RowsOf(nodes))
    ensures forall k :: k in ZipMap(ks, nodes) ==> ZipMap(ks, nodes)[k].row == ZipMap(ks, RowsOf(nodes))[k]
  {
    if ks != [] && nodes != [] {
      ZipMapRows(ks[1..], nodes[1..]);
      assert RowsOf(nodes)[1..] == RowsOf(nodes[1..]);
    }
  }

  /**
   * The HasOne fan-out loop: every parent whose key is in `byKey` and whose lock is
   * sound gets the object for its key, so parents with the same key share one object.
   */
  method FillOne(parents: seq<Node>, field: string, byKey: map<Key, Node>)
    modifies set p | p in parents
    ensures forall p :: p in parents ==>
      && Slot(p.one, field)
         == (if Column(p.row, field).Some? && Column(p.row, field).value in byKey && field !in p.poisoned
             then Some(byKey[Column(p.row, field).value]) else Slot(old(p.one), field))
      && SameOutside(p.one, old(p.one), {field})
      && p.many == old(p.many) && p.poisoned == old(p.poisoned)
  {
    for j := 0 to |parents|
      invariant forall p :: p in parents ==>
        && Slot(p.one, field)
           == (if p in parents[..j] && Column(p.row, field).Some? && Column(p.row, field).value in byKey && field !in p.poisoned
               then Some(byKey[Column(p.row, field).value]) else Slot(old(p.one), field))
        && SameOutside(p.one, old(p.one), {field})
        && p.many == old(p.many) && p.poisoned == old(p.poisoned)
    {
      var p := parents[j];
      assert parents[..j + 1] == parents[..j] + [p];
      var k := Column(p.row, field);
      if k.Some? && k.value in byKey && field !in p.poisoned {
        p.one := p.one[field := Some(byKey[k.value])];
      }
    }
    assert parents[..|parents|] == parents;
  }

  /** The objects whose `column` holds `k`, in order. */
  function NodeBucket(nodes: seq<Node>, column: string, k: Key): (r: seq<Node>)
    ensures RowsOf(r) == Bucket(RowsOf(nodes), column, k)
    ensures forall n :: n in r ==> n in nodes
  {
    if nodes == [] then []
    else
      assert RowsOf(nodes)[1..] == RowsOf(nodes[1..]);
      if Column(nodes[0].row, column) == Some(k) then [nodes[0]] + NodeBucket(nodes[1..], column, k)
      else NodeBucket(nodes[1..], column, k)
  }

  lemma {:induction false} NodeBucketSnoc(nodes: seq<Node>, n: Node, column: string, k: Key)
    ensures NodeBucket(nodes + [n], column, k)
      == NodeBucket(nodes, column, k) + (if Column(n.row, column) == Some(k) then [n] else [])
  {
    if nodes != [] {
      assert (nodes + [n])[1..] == nodes[1..] + [n];
      NodeBucketSnoc(nodes[1..], n, column, k);
    }
  }

  /** `buckets` holds, for every key some object's `column` holds, those objects in order. */
  ghost predicate Partitioned(buckets: map<Key, seq<Node>>, nodes: seq<Node>, column: string)
  {
    forall k :: (k in buckets <==> NodeBucket(nodes, column, k) != [])
                && (k in buckets ==> buckets[k] == NodeBucket(nodes, column, k))
  }

  /** Pushes `n` onto the list of the key its `column` holds. */
  function AddToBucket(buckets: map<Key, seq<Node>>, n: Node, column: string): map<Key, seq<Node>>
  {
    var fk := Column(n.row, column);
    if fk.None? then buckets
    else buckets[fk.value := (if fk.value in buckets then buckets[fk.value] else []) + [n]]
  }

  lemma PartitionStep(buckets: map<Key, seq<Node>>, nodes: seq<Node>, n: Node, column: string)
    requires Partitioned(buckets, nodes, column)
    ensures Partitioned(AddToBucket(buckets, n, column), nodes + [n], column)
  {
    forall k {
      NodeBucketSnoc(nodes, n, column, k);
    }
  }

  /**
   * The `forign_key_to_models` loop: each fetched object, in order, is pushed onto
   * the list of the key its foreign-key column holds.
   */
  method Partition(children: seq<Node>, column: string) returns (buckets: map<Key, seq<Node>>)
    ensures forall k :: k in buckets <==> NodeBucket(children, column, k) != []
    ensures forall k :: k in buckets ==> buckets[k] == NodeBucket(children, column, k)
  {
    buckets := map[];
    for i := 0 to |children|
      invariant Partitioned(buckets, children[..i], column)
    {
      PartitionStep(buckets, children[..i], children[i], column);
      assert children[..i + 1] == children[..i] + [children[i]];
      buckets := AddToBucket(buckets, children[i], column);
    }
    assert children[..|children|] == children;
  }

  /**
   * The HasMany fan-out loop: every parent that has a bucket and a sound lock gets
   * its bucket.
   */
  method FillMany(parents: seq<Node>, field: string, buckets: map<Key, seq<Node>>)
    modifies set p | p in parents
    ensures forall p :: p in parents ==>
      && Slot(p.many, field)
         == (if p.row.id in buckets && field !in p.poisoned then Some(buckets[p.row.id]) else Slot(old(p.many), field))
      && SameOutside(p.many, old(p.many), {field})
      && p.one == old(p.one) && p.poisoned == old(p.poisoned)
  {
    for j := 0 to |parents|
      invariant forall p :: p in parents ==>
        && Slot(p.many, field)
           == (if p in parents[..j] && p.row.id in buckets && field !in p.poisoned
               then Some(buckets[p.row.id]) else Slot(old(p.many), field))
        && SameOutside(p.many, old(p.many), {field})
        && p.one == old(p.one) && p.poisoned == old(p.poisoned)
    {
      var p := parents[j];
      assert parents[..j + 1] == parents[..j] + [p];
      if p.row.id in buckets && field !in p.poisoned {
        p.many := p.many[field := Some(buckets[p.row.id])];
      }
    }
    assert parents[..|parents|] == parents;
  }

  /**
   * The fan-out of one edge's outcome `f` into the parents' slots of that edge: a
   * skipped edge writes nothing; otherwise the fetched objects `children`, whose
   * rows are the fetched rows, are distributed.
   */
  method FanOut(parents: seq<Node>, e: Edge, f: Fetch, children: seq<Node>)
    requires f.Fetched? ==> f.rows == RowsOf(children)
    requires forall c :: c in children ==> c.model == e.model
    modifies set p | p in parents
    ensures forall p :: p in parents ==>
      && EdgeWritten(p.row, p.poisoned, e, f, p.one, p.many, old(p.one), old(p.many))
      && p.poisoned == old(p.poisoned)
  {
    if f.Skipped? {
      forall p | p in parents
        ensures EdgeWritten(p.row, p.poisoned, e, f, p.one, p.many, p.one, p.many)
      {
        Unwritten(p.row, p.poisoned, e, p.one, p.many);
      }
    } else if e.HasOneEdge? {
      ZipMapRows(f.keys, children);
      ZipMapValues(f.keys, children);
      FillOne(parents, e.field, ZipMap(f.keys, children));
    } else {
      var buckets := Partition(children, e.foreignKey);
      FillMany(parents, e.field, buckets);
    }
  }

  /**
   * The fetched objects' own `preload_children`, seen from the fetch: its queries,
   * its error, and each fetched object's slots as `Preloaded` says.
   */
  method PreloadFetched(models: Models, db: Database, model: string, children: seq<Node>, look: Selection)
    returns (err: Option<DbError>)
    requires Valid(models)
    modifies db, set c | c in children
    ensures var t := Preload(models, db.answer, model, RowsOf(children), look);
      db.log == old(db.log) + t.requests && err == t.error
    ensures var t := Preload(models, db.answer, model, RowsOf(children), look);
      forall c :: c in children ==>
        && Preloaded(c.row, c.poisoned, EdgesOf(models, model), 0, t.steps, c.one, c.many, old(c.one), old(c.many))
        && c.poisoned == old(c.poisoned)
    decreases look, 5
  {
    err := PreloadChildren(models, db, model, children, look);
  }

  /**
   * The fetch of a selected edge: one query with the sorted `keys`, then the
   * fetched objects' own preload with the child selection `sel`.
   */
  method FetchSelected(models: Models, db: Database, e: Edge, keys: seq<Key>, look: Selection, sel: Selection)
    returns (err: Option<DbError>, children: seq<Node>)
    requires Valid(models) && sel < look
    modifies db
    ensures var a := db.answer(EdgeQuery(e, keys, look));
      a.Failure? ==> db.log == old(db.log) + [EdgeQuery(e, keys, look)] && err == Some(a.error)
    ensures var a := db.answer(EdgeQuery(e, keys, look));
      a.Success? ==>
        var n := Preload(models, db.answer, e.model, a.value, sel);
        && db.log == old(db.log) + ([EdgeQuery(e, keys, look)] + n.requests)
        && err == n.error
        && RowsOf(children) == a.value
    ensures forall c :: c in children ==> c.model == e.model
    decreases look, 0
  {
    var q := EdgeQuery(e, keys, look);
    var loaded := db.Load(q);
    if loaded.Failure? {
      return Some(loaded.error), [];
    }
    children := MakeNodes(e.model, loaded.value);
    err := PreloadFetched(models, db, e.model, children, sel);
    Associative(old(db.log), [q], Preload(models, db.answer, e.model, loaded.value, sel).requests);
  }

  /**
   * The fetching half of one preloader block (edge `i` of the parents' model):
   * skipped unless the edge is selected and keys were gathered for its model;
   * otherwise sorts the model's key list in place and fetches.
   */
  method EdgeFetch(models: Models, db: Database, edges: seq<Edge>, i: nat, keys: map<string, seq<Key>>,
                   rows: seq<Row>, look: Selection)
    returns (err: Option<DbError>, keys': map<string, seq<Key>>, f: Fetch, children: seq<Node>, ghost s: EdgeResult)
    requires Valid(models) && i < |edges|
    requires KeyLists(keys, edges, rows)
    modifies db
    ensures s == EdgeStep(models, db.answer, edges, i, rows, look)
    ensures db.log == old(db.log) + s.requests && err == s.error
    ensures err.None? ==> f == s.fetch
    ensures f.Fetched? ==> f.rows == RowsOf(children)
    ensures KeyLists(keys', edges, rows)
    ensures forall c :: c in children ==> c.model == edges[i].model
    decreases look, 1
  {
    s := EdgeStep(models, db.answer, edges, i, rows, look);
    var e := edges[i];
    keys', f, children := keys, Skipped, [];
    var sel := SelectChild(look.children, e.field);
    KeyListsHas(keys, edges, rows, e.model);
    if sel.None? || e.model !in keys {
      return None, keys', f, children, s;
    }
    var sorted;
    keys', sorted := SortKeys(keys, edges, rows, e.model);
    err, children := FetchSelected(models, db, e, sorted, look, sel.value);
    if db.answer(EdgeQuery(e, sorted, look)).Success? {
      f := Fetched(sorted, RowsOf(children));
    }
  }

  /**
   * One preloader block (edge `i` of the parents' model): the fetch, then the
   * fan-out of the fetched objects into the parents' slots. An error leaves every
   * slot as it was.
   */
  method PreloadEdge(models: Models, db: Database, edges: seq<Edge>, i: nat, keys: map<string, seq<Key>>,
                     parents: seq<Node>, look: Selection)
    returns (err: Option<DbError>, keys': map<string, seq<Key>>, ghost s: EdgeResult)
    requires Valid(models) && i < |edges|
    requires KeyLists(keys, edges, RowsOf(parents))
    modifies db, set p | p in parents
    ensures s == EdgeStep(models, db.answer, edges, i, RowsOf(parents), look)
    ensures db.log == old(db.log) + s.requests && err == s.error
    ensures KeyLists(keys', edges, RowsOf(parents))
    ensures err.None? ==> forall p :: p in parents ==>
      EdgeWritten(p.row, p.poisoned, edges[i], s.fetch, p.one, p.many, old(p.one), old(p.many))
    ensures forall p :: p in parents ==>
      p.poisoned == old(p.poisoned) && (err.Some? ==> p.one == old(p.one) && p.many == old(p.many))
    decreases look, 2
  {
    var f, children;
    err, keys', f, children, s := EdgeFetch(models, db, edges, i, keys, RowsOf(parents), look);
    if err.None? {
      FanOut(parents, edges[i], f, children);
    }
  }

  /**
   * A parent's slots after the edges from `i` on completed with outcomes `steps`,
   * one per edge, given the slots `one0` and `many0` before: each of those edges
   * left its slots as `Outcome` says, and every other slot is unchanged.
   */
  ghost predicate Preloaded(row: Row, poisoned: set<string>, edges: seq<Edge>, i: nat, steps: seq<Fetch>,
                            one: map<string, Option<Node>>, many: map<string, Option<seq<Node>>>,
                            one0: map<string, Option<Node>>, many0: map<string, Option<seq<Node>>>)
  {
    && i + |steps| <= |edges|
    && (forall j :: 0 <= j < |steps| ==>
          Outcome(row, poisoned, edges[i + j], steps[j], Slot(one, edges[i + j].field), Slot(many, edges[i + j].field),
                  Slot(one0, edges[i + j].field), Slot(many0, edges[i + j].field)))
    && SameOutside(one, one0, FieldsIn(edges, i, i + |steps|))
    && SameOutside(many, many0, FieldsIn(edges, i, i + |steps|))
  }

  /** No edge completed: nothing changed. */
  lemma PreloadedNone(row: Row, poisoned: set<string>, edges: seq<Edge>, i: nat,
                      one: map<string, Option<Node>>, many: map<string, Option<seq<Node>>>)
    requires i <= |edges|
    ensures Preloaded(row, poisoned, edges, i, [], one, many, one, many)
  {
  }

  /** Edge `i` completed, then the edges after it: edge `i`'s field is none of theirs. */
  lemma PreloadedCons(row: Row, poisoned: set<string>, edges: seq<Edge>, i: nat, f: Fetch, steps: seq<Fetch>,
                      one: map<string, Option<Node>>, many: map<string, Option<seq<Node>>>,
                      one1: map<string, Option<Node>>, many1: map<string, Option<seq<Node>>>,
                      one0: map<string, Option<Node>>, many0: map<string, Option<seq<Node>>>)
    requires DistinctFields(edges) && i < |edges|
    requires EdgeWritten(row, poisoned, edges[i], f, one1, many1, one0, many0)
    requires Preloaded(row, poisoned, edges, i + 1, steps, one, many, one1, many1)
    ensures Preloaded(row, poisoned, edges, i, [f] + steps, one, many, one0, many0)
  {
    var e := edges[i];
    var hi := i + 1 + |steps|;
    assert FieldsIn(edges, i, hi) == {e.field} + FieldsIn(edges, i + 1, hi);
    forall j | i + 1 <= j < hi
      ensures edges[j].field != e.field
    {
      assert FieldsDiffer(edges, i, j);
    }
    assert e.field !in FieldsIn(edges, i + 1, hi);
    forall j | 0 <= j < |steps| + 1
      ensures Outcome(row, poisoned, edges[i + j], ([f] + steps)[j], Slot(one, edges[i + j].field), Slot(many, edges[i + j].field),
                      Slot(one0, edges[i + j].field), Slot(many0, edges[i + j].field))
    {
      if j == 0 {
        assert Slot(one, e.field) == Slot(one1, e.field);
        assert Slot(many, e.field) == Slot(many1, e.field);
      } else {
        var g := edges[i + j].field;
        assert edges[(i + 1) + (j - 1)] == edges[i + j];
        assert g != e.field;
        assert Slot(one1, g) == Slot(one0, g);
        assert Slot(many1, g) == Slot(many0, g);
      }
    }
  }

  /**
   * The preloader blocks of the edges from `i` on, in field order, stopping at the
   * first error: the log gains exactly the queries of the reference run
   * `RunEdges`, and every parent's slots are as `Preloaded` says.
   */
  method PreloadFrom(models: Models, db: Database, edges: seq<Edge>, i: nat, keys: map<string, seq<Key>>,
                     parents: seq<Node>, look: Selection)
    returns (err: Option<DbError>)
    requires Valid(models) && DistinctFields(edges) && i <= |edges|
    requires KeyLists(keys, edges, RowsOf(parents))
    modifies db, set p | p in parents
    ensures var t := RunEdges(models, db.answer, edges, i, RowsOf(parents), look);
      db.log == old(db.log) + t.requests && err == t.error
    ensures var t := RunEdges(models, db.answer, edges, i, RowsOf(parents), look);
      forall p :: p in parents ==>
        && Preloaded(p.row, p.poisoned, edges, i, t.steps, p.one, p.many, old(p.one), old(p.many))
        && p.poisoned == old(p.poisoned)
    decreases look, 3, |edges| - i
  {
    if i == |edges| {
      forall p | p in parents
        ensures Preloaded(p.row, p.poisoned, edges, i, [], p.one, p.many, p.one, p.many)
      {
        PreloadedNone(p.row, p.poisoned, edges, i, p.one, p.many);
      }
      return None;
    }
    var keys';
    ghost var s;
    err, keys', s := PreloadEdge(models, db, edges, i, keys, parents, look);
    if err.Some? {
      assert RunEdges(models, db.answer, edges, i, RowsOf(parents), look) == Trace(s.requests, [], s.error);
      forall p | p in parents
        ensures Preloaded(p.row, p.poisoned, edges, i, [], p.one, p.many, p.one, p.many)
      {
        PreloadedNone(p.row, p.poisoned, edges, i, p.one, p.many);
      }
      return;
    }
    label mid:
    err := PreloadFrom(models, db, edges, i + 1, keys', parents, look);
    ghost var rest := RunEdges(models, db.answer, edges, i + 1, RowsOf(parents), look);
    assert RunEdges(models, db.answer, edges, i, RowsOf(parents), look)
        == Trace(s.requests + rest.requests, [s.fetch] + rest.steps, rest.error);
    forall p | p in parents
      ensures Preloaded(p.row, p.poisoned, edges, i, [s.fetch] + rest.steps, p.one, p.many, old(p.one), old(p.many))
    {
      PreloadedCons(p.row, p.poisoned, edges, i, s.fetch, rest.steps, p.one, p.many,
                    old@mid(p.one), old@mid(p.many), old(p.one), old(p.many));
    }
    Associative(old(db.log), s.requests, rest.requests);
  }

  /**
   * `preload_children`: gathers the key lists, then runs the preloader of every
   * relation edge in field order, stopping at the first error. The log gains exactly
   * the queries of the reference run `Preload`, and every parent's slots are as
   * `Preloaded` says for the edges that run completed.
   */
  method PreloadChildren(models: Models, db: Database, model: string, parents: seq<Node>, look: Selection)
    returns (err: Option<DbError>)
    requires Valid(models)
    modifies db, set p | p in parents
    ensures var t := Preload(models, db.answer, model, RowsOf(parents), look);
      db.log == old(db.log) + t.requests && err == t.error
    ensures var t := Preload(models, db.answer, model, RowsOf(parents), look);
      forall p :: p in parents ==>
        && Preloaded(p.row, p.poisoned, EdgesOf(models, model), 0, t.steps, p.one, p.many, old(p.one), old(p.many))
        && p.poisoned == old(p.poisoned)
    decreases look, 4
  {
    var edges := EdgesOf(models, model);
    assert DistinctFields(edges);
    var keys := AggregateKeys(edges, RowsOf(parents));
    err := PreloadFrom(models, db, edges, 0, keys, parents, look);
  }

  /** The error a resolver reports when its slot's lock is poisoned. */
  const LockFailed := FieldError("Failed to acquire lock on preload field!")

  /** The HasOne fallback: `get_result` on the target row, converted to a fresh object without preloading. */
  method FetchOne(db: Database, e: Edge, key: Key) returns (r: Result<Node, FieldError>)
    modifies db
    ensures db.log == old(db.log) + [OneFallback(e, key)]
    ensures var a := FirstOf(db.answer(OneFallback(e, key)));
      && (a.Failure? ==> r == Failure(FieldError(Describe(a.error))))
      && (a.Success? ==> r.Success? && r.value.row == a.value)
    ensures r.Success? && db.Sound() ==> r.value.row.id == key && r.value.row in db.tables[e.schema]
    ensures r.Success? ==>
      && fresh(r.value) && r.value.model == e.model
      && r.value.one == map[] && r.value.many == map[] && r.value.poisoned == {}
  {
    var got := db.GetResult(OneFallback(e, key));
    if got.Failure? {
      return Failure(FieldError(Describe(got.error)));
    }
    var n := new Node(e.model, got.value);
    r := Success(n);
  }

  /**
   * The HasMany fallback: one query for the rows pointing at the parent, then their
   * own `preload_children` with the field's selection `look`; a database error of
   * either becomes a field error.
   */
  method FetchMany(models: Models, db: Database, e: Edge, id: Key, limit: Option<i32>, offset: Option<i32>,
                   look: Selection)
    returns (r: Result<seq<Node>, FieldError>)
    requires Valid(models) && e.HasManyEdge?
    modifies db
    ensures var q := ManyFallback(e, id, limit, offset);
      var a := db.answer(q);
      && (a.Failure? ==> db.log == old(db.log) + [q] && r == Failure(FieldError(Describe(a.error))))
      && (a.Success? ==>
            var t := Preload(models, db.answer, e.model, a.value, look);
            && db.log == old(db.log) + ([q] + t.requests)
            && (t.error.Some? ==> r == Failure(FieldError(Describe(t.error.value))))
            && (t.error.None? ==>
                  && r.Success? && RowsOf(r.value) == a.value
                  && forall n :: n in r.value ==>
                       Preloaded(n.row, n.poisoned, EdgesOf(models, e.model), 0, t.steps, n.one, n.many, map[], map[])))
    ensures r.Success? ==> forall n :: n in r.value ==> fresh(n) && n.model == e.model && n.poisoned == {}
  {
    var q := ManyFallback(e, id, limit, offset);
    var loaded := db.Load(q);
    if loaded.Failure? {
      return Failure(FieldError(Describe(loaded.error)));
    }
    var nodes := MakeNodes(e.model, loaded.value);
    var err := PreloadFetched(models, db, e.model, nodes, look);
    Associative(old(db.log), [q], Preload(models, db.answer, e.model, loaded.value, look).requests);
    if err.Some? {
      return Failure(FieldError(Describe(err.value)));
    }
    r := Success(nodes);
  }

  /**
   * The resolver of a HasOne field: a poisoned lock is an error; a filled slot is
   * taken, leaving it empty; an empty slot falls back to a fetch of the row whose id
   * the parent stores (the struct always has that field, so its key is present).
   */
  method ResolveHasOne(db: Database, node: Node, e: Edge) returns (r: Result<Node, FieldError>)
    requires e.HasOneEdge? && e.field in node.row.keys
    modifies db, node
    ensures node.many == old(node.many) && node.poisoned == old(node.poisoned)
    ensures e.field in node.poisoned ==> r == Failure(LockFailed) && node.one == old(node.one) && db.log == old(db.log)
    ensures e.field !in node.poisoned ==> Slot(node.one, e.field).None? && SameOutside(node.one, old(node.one), {e.field})
    ensures e.field !in node.poisoned && Slot(old(node.one), e.field).Some? ==>
      r == Success(Slot(old(node.one), e.field).value) && db.log == old(db.log)
    ensures e.field !in node.poisoned && Slot(old(node.one), e.field).None? ==>
      var q := OneFallback(e, node.row.keys[e.field]);
      var a := FirstOf(db.answer(q));
      && db.log == old(db.log) + [q]
      && (a.Failure? ==> r == Failure(FieldError(Describe(a.error))))
      && (a.Success? ==> r.Success? && fresh(r.value) && r.value.model == e.model && r.value.row == a.value)
  {
    if e.field in node.poisoned {
      return Failure(LockFailed);
    }
    var slot := Slot(node.one, e.field);
    if slot.Some? {
      node.one := node.one[e.field := None];
      return Success(slot.value);
    }
    r := FetchOne(db, e, node.row.keys[e.field]);
  }

  /**
   * The resolver of a HasMany field with its `limit` and `offset` arguments and its
   * own selection `look`: a poisoned lock is an error; a filled slot is taken,
   * leaving it empty; an empty slot falls back to a fetch of the rows pointing at
   * the parent, preloaded with `look`.
   */
  method ResolveHasMany(models: Models, db: Database, node: Node, e: Edge, limit: Option<i32>, offset: Option<i32>,
                        look: Selection)
    returns (r: Result<seq<Node>, FieldError>)
    requires Valid(models) && e.HasManyEdge?
    modifies db, node
    ensures node.one == old(node.one) && node.poisoned == old(node.poisoned)
    ensures e.field in node.poisoned ==> r == Failure(LockFailed) && node.many == old(node.many) && db.log == old(db.log)
    ensures e.field !in node.poisoned ==> Slot(node.many, e.field).None? && SameOutside(node.many, old(node.many), {e.field})
    ensures e.field !in node.poisoned && Slot(old(node.many), e.field).Some? ==>
      r == Success(Slot(old(node.many), e.field).value) && db.log == old(db.log)
    ensures e.field !in node.poisoned && Slot(old(node.many), e.field).None? ==>
      var q := ManyFallback(e, node.row.id, limit, offset);
      var a := db.answer(q);
      && (a.Failure? ==> db.log == old(db.log) + [q] && r == Failure(FieldError(Describe(a.error))))
      && (a.Success? ==>
            var t := Preload(models, db.answer, e.model, a.value, look);
            && db.log == old(db.log) + ([q] + t.requests)
            && (t.error.Some? ==> r == Failure(FieldError(Describe(t.error.value))))
            && (t.error.None? ==>
                  && r.Success? && RowsOf(r.value) == a.value
                  && forall n :: n in r.value ==>
                       Preloaded(n.row, n.poisoned, EdgesOf(models, e.model), 0, t.steps, n.one, n.many, map[], map[])))
  {
    if e.field in node.poisoned {
      return Failure(LockFailed);
    }
    var slot := Slot(node.many, e.field);
    if slot.Some? {
      node.many := node.many[e.field := None];
      return Success(slot.value);
    }
    r := FetchMany(models, db, e, node.row.id, limit, offset, look);
  }

  /**
   * An edge is fetched exactly when the selection has a child named after its field
   * and some parent gave a key for its model: then its first request is the batched
   * query over the sorted distinct keys; otherwise it sends nothing and completes
   * without writing any slot.
   */
  lemma EdgeFetchedIffSelected(models: Models, answer: Answers, edges: seq<Edge>, i: nat,
                               rows: seq<Row>, look: Selection)
    requires i < |edges|
    ensures var e := edges[i];
      var s := EdgeStep(models, answer, edges, i, rows, look);
      var selected := SelectChild(look.children, e.field).Some? && KeysFor(edges, rows, e.model) != [];
      && (selected ==> |s.requests| >= 1 && s.requests[0] == EdgeQuery(e, SortedDistinct(KeysFor(edges, rows, e.model)), look))
      && (!selected ==> s == EdgeResult([], Skipped, None))
  {
  }

  /** A skipped edge leaves every parent's slots as they were. */
  lemma SkippedWritesNothing(row: Row, poisoned: set<string>, e: Edge, one: Option<Node>, many: Option<seq<Node>>)
    ensures Outcome(row, poisoned, e, Skipped, one, many, one, many)
    ensures forall one', many' :: Outcome(row, poisoned, e, Skipped, one', many', one, many) ==> one' == one && many' == many
  {
  }

  /** A run without error completes every edge from `i` on; a run that fails completes fewer. */
  lemma {:induction false} RunEdgesCompletes(models: Models, answer: Answers, edges: seq<Edge>, i: nat,
                                             rows: seq<Row>, look: Selection)
    requires i <= |edges|
    ensures var t := RunEdges(models, answer, edges, i, rows, look);
      (t.error.None? <==> |t.steps| == |edges| - i) && |t.steps| <= |edges| - i
    decreases |edges| - i
  {
    if i < |edges| && EdgeStep(models, answer, edges, i, rows, look).error.None? {
      RunEdgesCompletes(models, answer, edges, i + 1, rows, look);
    }
  }

  /**
   * Over an empty batch no key is gathered, so every edge is skipped: the run sends
   * no query, fails with no error and completes every edge.
   */
  lemma {:induction false} EmptyBatch(models: Models, answer: Answers, edges: seq<Edge>, i: nat, look: Selection)
    requires i <= |edges|
    ensures var t := RunEdges(models, answer, edges, i, [], look);
      t.requests == [] && t.error.None? && t.steps == seq(|edges| - i, _ => Skipped)
    decreases |edges| - i
  {
    if i < |edges| {
      assert KeysFor(edges, [], edges[i].model) == [];
      EmptyBatch(models, answer, edges, i + 1, look);
    }
  }

  /**
   * The HasMany batch of a selected edge reads `limit` and `offset` from the parents'
   * selection `look`, never from the edge's own child selection.
   */
  lemma BatchPaginationFromParentSelection(models: Models, answer: Answers, edges: seq<Edge>, i: nat,
                                           rows: seq<Row>, look: Selection)
    requires i < |edges| && edges[i].HasManyEdge?
    requires SelectChild(look.children, edges[i].field).Some? && KeysFor(edges, rows, edges[i].model) != []
    ensures var q := EdgeStep(models, answer, edges, i, rows, look).requests[0];
      && q.limit == Some(IntArgument(look, "limit", 10) as int)
      && q.offset == Some(IntArgument(look, "offset", 0) as int)
  {
    EdgeFetchedIffSelected(models, answer, edges, i, rows, look);
  }

  const PostsEdge := HasManyEdge("posts", "posts", "author_id", "Post")
  const Author1 := Row(1, map[], map[])
  const Author2 := Row(2, map[], map[])
  const Post1 := Row(10, map["author_id" := 1], map[])
  const Post2 := Row(11, map["author_id" := 1], map[])
  const Post3 := Row(12, map["author_id" := 2], map[])

  /** Both authors give their id as a key for `Post`. */
  lemma AuthorKeys()
    ensures KeysFor([PostsEdge], [Author1, Author2], "Post") == [1, 2]
  {
    var none: seq<Edge> := [];
    assert [PostsEdge][..0] == none;
    assert RowKeys(none, Author1, "Post") == [] && RowKeys(none, Author2, "Post") == [];
    assert RowKeys([PostsEdge], Author1, "Post") == [1];
    assert RowKeys([PostsEdge], Author2, "Post") == [2];
    assert [Author1, Author2][..1] == [Author1];
    assert [Author1][..0] == [];
    assert KeysFor([PostsEdge], [Author1], "Post") == [1];
  }

  /** The batched filter keeps all three posts; the second author's own filter keeps its one post. */
  lemma PostsMatching()
    ensures Matching([Post1, Post2, Post3], Some(ColumnIn("author_id", [1, 2]))) == [Post1, Post2, Post3]
    ensures Matching([Post1, Post2, Post3], Some(ColumnEquals("author_id", 2))) == [Post3]
  {
    var w := Some(ColumnIn("author_id", [1, 2]));
    var v := Some(ColumnEquals("author_id", 2));
    assert [Post1, Post2, Post3][1..] == [Post2, Post3] && [Post2, Post3][1..] == [Post3];
    assert Matching([Post3], w) == [Post3];
    assert Matching([Post2, Post3], w) == [Post2, Post3];
    assert Matching([Post3], v) == [Post3];
    assert Matching([Post2, Post3], v) == [Post3];
  }

  const BlogModels: Models := map["Author" := Entity("authors", [PostsEdge], []), "Post" := Entity("posts", [], [])]
  const BlogTables: map<string, seq<Row>> := map["posts" := [Post1, Post2, Post3]]
  const BlogAnswers: Answers := q => Answer(BlogTables, q)
  const PostsSelection := Selection("posts", [Argument("limit", Scalar(IntValue(5)))], [])
  const AuthorsSelection := Selection("authors", [Argument("limit", Scalar(IntValue(1)))], [PostsSelection])
  const BatchQuery := Query("posts", Some(ColumnIn("author_id", [1, 2])), Some(1), Some(0))

  /** The keys are already sorted and distinct; posts have no relations to preload. */
  lemma PostsHaveNoEdges()
    ensures SortedDistinct([1, 2]) == [1, 2]
    ensures Preload(BlogModels, BlogAnswers, "Post", [Post1], PostsSelection) == Trace([], [], None)
  {
    assert [1, 2][..1] == [1];
    assert [1][..0] == [];
    assert EdgesOf(BlogModels, "Post") == [];
  }

  /** The batch reads `limit: 1` from the authors' selection. */
  lemma BatchQueryRead()
    ensures EdgeQuery(PostsEdge, [1, 2], AuthorsSelection) == BatchQuery
  {
    assert FirstArgument(AuthorsSelection.arguments, "limit", 0);
    assert IntArgument(AuthorsSelection, "limit", 10) == 1;
    assert IntArgument(AuthorsSelection, "offset", 0) == 0;
  }

  /** The batch fetches only the first post. */
  lemma BatchAnswer()
    ensures BlogAnswers(BatchQuery) == Success([Post1])
  {
    PostsMatching();
  }

  /** The second author's own fallback fetch would return its post. */
  lemma FallbackAnswer()
    ensures Answer(BlogTables, ManyFallback(PostsEdge, 2, None, None)) == Success([Post3])
  {
    PostsMatching();
  }

  /** The parents' selection picks the `posts` child. */
  lemma PostsSelected()
    ensures SelectChild(AuthorsSelection.children, "posts") == Some(PostsSelection)
  {
  }

  /** The `posts` edge is selected and gathers the keys 1 and 2. */
  lemma BatchKeys()
    ensures var e := [PostsEdge][0];
      && SelectChild(AuthorsSelection.children, e.field) == Some(PostsSelection)
      && KeysFor([PostsEdge], [Author1, Author2], e.model) != []
      && SortedDistinct(KeysFor([PostsEdge], [Author1, Author2], e.model)) == [1, 2]
  {
    PostsSelected();
    AuthorKeys();
    PostsHaveNoEdges();
  }

  /** The batch query of the `posts` edge returns the first post. */
  lemma BatchFetch()
    ensures BlogAnswers(EdgeQuery([PostsEdge][0], [1, 2], AuthorsSelection)) == Success([Post1])
  {
    BatchQueryRead();
    BatchAnswer();
  }

  /** For the two authors, the `posts` edge sends the one batch query and fetches the first post. */
  lemma BatchStep()
    ensures EdgeStep(BlogModels, BlogAnswers, [PostsEdge], 0, [Author1, Author2], AuthorsSelection)
         == EdgeResult([BatchQuery], Fetched([1, 2], [Post1]), None)
  {
    BatchKeys();
    BatchFetch();
    PostsHaveNoEdges();
    StepFetches(BlogModels, BlogAnswers, [PostsEdge], 0, [Author1, Author2], AuthorsSelection, PostsSelection, [1, 2], [Post1]);
  }

  /**
   * The HasMany limit bounds the whole batch, not each parent: with `limit: 1` on the
   * parents' selection (and `limit: 5` on the `posts` child, which is not read), the
   * batch for two authors returns one post, so the second author's slot stays empty
   * although its own fallback fetch would return its post.
   */
  lemma BatchLimitSharedByParents()
    ensures var s := EdgeStep(BlogModels, BlogAnswers, [PostsEdge], 0, [Author1, Author2], AuthorsSelection);
      && s.requests == [BatchQuery]
      && !FillsMany(Author2, {}, PostsEdge, s.fetch)
      && Answer(BlogTables, ManyFallback(PostsEdge, 2, None, None)) == Success([Post3])
  {
    BatchStep();
    FallbackAnswer();
    assert Bucket([Post1], "author_id", 2) == [];
  }
}
