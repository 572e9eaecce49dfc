/**
 * gin's generated GraphQL objects (gin_codegen/src/macros/object.rs): each object
 * carries, per relation field, a one-shot preload slot (a `RefCell`, no lock);
 * `preload_children` fills the slots of a whole batch of objects with one fetch
 * per selected relation and runs the fetched objects' own `preload_children`,
 * but the slots receive fresh objects built from the fetched rows, so what that
 * nested run preloaded is dropped. Every failure is a panic (`unwrap`), which the
 * model returns as a value.
 */
module GinPreload {
  import opened Wrappers
  import opened LookAhead
  import opened Store
  import opened Registry
  import opened Keys
  import opened Slots

  /** A generated GraphQL object: its model row and one preload slot per relation field. */
  class Node {
    const model: string
    const row: Row
    var one: map<string, Option<Node>>
    var many: map<string, Option<seq<Node>>>

    /** `From<Model>`: the row's fields, every slot `RefCell::new(None)`. */
    constructor (model: string, row: Row)
      ensures this.model == model && this.row == row
      ensures one == map[] && many == map[]
    {
      this.model := model;
      this.row := row;
      one := map[];
      many := map[];
    }
  }

  /**
   * An object as `GQL::from` builds it: every slot empty, so nothing preloaded
   * below it.
   */
  predicate Unloaded(n: Node)
    reads n
  {
    n.one == map[] && n.many == map[]
  }

  /**
   * Every slot of `one` and `many` that differs from its value in `one0` and `many0`
   * is filled, and holds objects of `made` only.
   */
  ghost predicate FilledFrom(one: map<string, Option<Node>>, many: map<string, Option<seq<Node>>>,
                             one0: map<string, Option<Node>>, many0: map<string, Option<seq<Node>>>, made: set<Node>)
  {
    && (forall k :: Slot(one, k) != Slot(one0, k) ==> Slot(one, k).Some? && Slot(one, k).value in made)
    && (forall k :: Slot(many, k) != Slot(many0, k) ==>
          Slot(many, k).Some? && forall n :: n in Slot(many, k).value ==> n in made)
  }

  /** Two runs one after the other fill their slots from the objects of both. */
  lemma FilledFromBoth(one: map<string, Option<Node>>, many: map<string, Option<seq<Node>>>,
                       one1: map<string, Option<Node>>, many1: map<string, Option<seq<Node>>>,
                       one0: map<string, Option<Node>>, many0: map<string, Option<seq<Node>>>,
                       made1: set<Node>, made: set<Node>)
    requires FilledFrom(one1, many1, one0, many0, made1)
    requires FilledFrom(one, many, one1, many1, made)
    ensures FilledFrom(one, many, one0, many0, made1 + made)
  {
  }

  /** The rows of a batch of objects, in order. */
  function RowsOf(nodes: seq<Node>): (r: seq<Row>)
    ensures |r| == |nodes| && forall i :: 0 <= i < |nodes| ==> r[i] == nodes[i].row
  {
    if nodes == [] then [] else [nodes[0].row] + RowsOf(nodes[1..])
  }

  /** The panic of `load(..).unwrap()` on a database error. */
  function LoadPanic(e: DbError): Panic
  {
    Panic("called `Result::unwrap()` on an `Err` value: " + Describe(e))
  }

  /** One preloader block: the queries it sent, what it fetched, and its panic, if any. */
  datatype EdgeResult = EdgeResult(requests: seq<Query>, fetch: Fetch, panic: Option<Panic>)

  /** A whole `preload_children` run: every query sent, the fetch of each completed edge, the panic that stopped it. */
  datatype Trace = Trace(requests: seq<Query>, steps: seq<Fetch>, panic: Option<Panic>)

  /**
   * The batched query of an edge. `HasOne`: the rows whose id is one of the keys.
   * `HasMany`: the rows whose foreign key is one of the parent ids, with the
   * `first` and `offset` arguments of the parents' own selection (defaults 10 and
   * 0) applied to the whole batch.
   */
  function EdgeQuery(e: Edge, keys: seq<Key>, look: Selection): (q: Query)
    ensures q.schema == e.schema
    ensures e.HasOneEdge? ==> q.where == Some(IdIn(keys)) && q.limit.None? && q.offset.None?
    ensures e.HasManyEdge? ==>
      && q.where == Some(ColumnIn(e.foreignKey, keys))
      && q.limit == Some(IntArgument(look, "first", 10) as int)
      && q.offset == Some(IntArgument(look, "offset", 0) as int)
  {
    match e
    case HasOneEdge(_, schema, _) => Query(schema, Some(IdIn(keys)), None, None)
    case HasManyEdge(_, schema, fk, _) =>
      Query(schema, Some(ColumnIn(fk, keys)),
            Some(IntArgument(look, "first", 10) as int), Some(IntArgument(look, "offset", 0) as int))
  }

  /** Every parent row's key in HasOne field `field` has a paired row in `paired`. */
  predicate AllPaired(rows: seq<Row>, field: string, paired: map<Key, Row>)
  {
    forall j :: 0 <= j < |rows| ==> Column(rows[j], field).Some? && Column(rows[j], field).value in paired
  }

  /**
   * The preloader block of edge `i` over parent rows `rows`. Unselected: nothing.
   * Selected HasOne: skipped when no key was gathered for the target model.
   * Selected HasMany: the missing key list panics. Otherwise one fetch with the
   * sorted distinct keys (a database error panics), the fetched rows' own preload
   * with the child selection (its panic propagates), and, for HasOne, a panic when
   * some parent's key is not paired with a fetched row.
   */
  function EdgeStep(models: Models, answer: Answers, edges: seq<Edge>, i: nat,
                    rows: seq<Row>, look: Selection): EdgeResult
    requires i < |edges|
    decreases look, 0
  {
    var e := edges[i];
    var sel := SelectChild(look.children, e.field);
    var gathered := KeysFor(edges, rows, e.model);
    if sel.None? || (e.HasOneEdge? && gathered == []) then EdgeResult([], Skipped, None)
    else if gathered == [] then EdgeResult([], Skipped, Some(UnwrapNone))
    else
      var sorted := SortedDistinct(gathered);
      var q := EdgeQuery(e, sorted, look);
      match answer(q)
      case Failure(err) => EdgeResult([q], Skipped, Some(LoadPanic(err)))
      case Success(fetched) =>
        var nested := Preload(models, answer, e.model, fetched, sel.value);
        var panic :=
          if nested.panic.Some? then nested.panic
          else if e.HasOneEdge? && !AllPaired(rows, e.field, ZipMap(sorted, fetched)) then Some(UnwrapNone)
          else None;
        EdgeResult([q] + nested.requests, Fetched(sorted, fetched), panic)
  }

  /** A selected edge with gathered keys whose batch query succeeds fetches what the query returns. */
  lemma StepFetches(models: Models, answer: Answers, edges: seq<Edge>, i: nat, rows: seq<Row>, look: Selection,
                    sel: Selection, sorted: seq<Key>, fetched: seq<Row>)
    requires i < |edges|
    requires SelectChild(look.children, edges[i].field) == Some(sel)
    requires KeysFor(edges, rows, edges[i].model) != [] && SortedDistinct(KeysFor(edges, rows, edges[i].model)) == sorted
    requires answer(EdgeQuery(edges[i], sorted, look)) == Success(fetched)
    ensures var nested := Preload(models, answer, edges[i].model, fetched, sel);
      EdgeStep(models, answer, edges, i, rows, look)
        == EdgeResult([EdgeQuery(edges[i], sorted, look)] + nested.requests, Fetched(sorted, fetched),
                      if nested.panic.Some? then nested.panic
                      else if edges[i].HasOneEdge? && !AllPaired(rows, edges[i].field, ZipMap(sorted, fetched)) then Some(UnwrapNone)
                      else None)
  {
  }

  /** The edges from `i` on, in field order; the first panic stops the run. */
  function RunEdges(models: Models, answer: Answers, edges: seq<Edge>, i: nat,
                    rows: seq<Row>, look: Selection): Trace
    requires i <= |edges|
    decreases look, 1, |edges| - i
  {
    if i == |edges| then Trace([], [], None)
    else
      var s := EdgeStep(models, answer, edges, i, rows, look);
      if s.panic.Some? then Trace(s.requests, [], s.panic)
      else
        var rest := RunEdges(models, answer, edges, i + 1, rows, look);
        Trace(s.requests + rest.requests, [s.fetch] + rest.steps, rest.panic)
  }

  /** `preload_children` of `model` over objects with rows `rows` and selection `look`. */
  function Preload(models: Models, answer: Answers, model: string,
                   rows: seq<Row>, look: Selection): Trace
    decreases look, 2
  {
    RunEdges(models, answer, EdgesOf(models, model), 0, rows, look)
  }

  /**
   * The slots of edge `e` in a parent with `row` after the edge completed with
   * outcome `f`, given their values `one0` and `many0` before: a fetched HasOne
   * edge fills every parent's slot with an object of the target model built from
   * the row paired with the parent's key; a fetched HasMany edge fills the slot of
   * a parent that some fetched row points at with objects built from exactly those
   * rows, in fetch order; every other slot keeps its value.
   */
  predicate Outcome(row: Row, e: Edge, f: Fetch,
                    one: Option<Node>, many: Option<seq<Node>>, one0: Option<Node>, many0: Option<seq<Node>>)
  {
    && (if e.HasOneEdge? && f.Fetched? then
          && Column(row, e.field).Some? && Column(row, e.field).value in ZipMap(f.keys, f.rows)
          && one.Some? && one.value.model == e.model && one.value.row == ZipMap(f.keys, f.rows)[Column(row, e.field).value]
        else one == one0)
    && (if e.HasManyEdge? && f.Fetched? && Bucket(f.rows, e.foreignKey, row.id) != [] then
          && many.Some?
          && (forall n :: n in many.value ==> n.model == e.model)
          && RowsOf(many.value) == Bucket(f.rows, e.foreignKey, row.id)
        else many == many0)
  }

  /** A parent's slot maps after edge `e` completed with outcome `f`: `Outcome` for its field, nothing else changed. */
  ghost predicate EdgeWritten(row: Row, e: Edge, f: Fetch,
                              one: map<string, Option<Node>>, many: map<string, Option<seq<Node>>>,
                              one0: map<string, Option<Node>>, many0: map<string, Option<seq<Node>>>)
  {
    && Outcome(row, e, f, Slot(one, e.field), Slot(many, e.field), Slot(one0, e.field), Slot(many0, e.field))
    && SameOutside(one, one0, {e.field}) && SameOutside(many, many0, {e.field})
  }

  /** A skipped edge writes nothing. */
  lemma Unwritten(row: Row, e: Edge, one: map<string, Option<Node>>, many: map<string, Option<seq<Node>>>)
    ensures EdgeWritten(row, e, Skipped, one, many, one, many)
  {
  }

  /** A skipped edge writes nothing in any parent. */
  lemma NoneWritten(parents: seq<Node>, e: Edge)
    ensures forall p :: p in parents ==> EdgeWritten(p.row, e, Skipped, p.one, p.many, p.one, p.many)
  {
    forall p | p in parents
      ensures EdgeWritten(p.row, e, Skipped, p.one, p.many, p.one, p.many)
    {
      Unwritten(p.row, e, p.one, p.many);
    }
  }

  /** `models.iter().map(|model| GQL::from(model.to_owned())).collect()`: one fresh object per row, slots empty. */
  method MakeNodes(model: string, rows: seq<Row>) returns (nodes: seq<Node>)
    ensures RowsOf(nodes) == rows
    ensures forall n :: n in nodes ==> fresh(n) && n.model == model && n.one == map[] && n.many == map[]
    ensures DistinctNodes(nodes)
  {
    nodes := [];
    for i := 0 to |rows|
      invariant |nodes| == i && forall j :: 0 <= j < i ==> nodes[j].row == rows[j]
      invariant forall n :: n in nodes ==> fresh(n) && n.model == model && n.one == map[] && n.many == map[]
      invariant DistinctNodes(nodes)
    {
      var n := new Node(model, rows[i]);
      nodes := nodes + [n];
    }
  }

  /** The objects of a batch are distinct, as the elements of a `Vec` are. */
  predicate DistinctNodes(nodes: seq<Node>)
  {
    forall i, j :: 0 <= i < j < |nodes| ==> nodes[i] != nodes[j]
  }

  /** Parent row `row`'s key in HasOne field `field` has a paired row in `paired`. */
  predicate Paired(row: Row, field: string, paired: map<Key, Row>)
  {
    Column(row, field).Some? && Column(row, field).value in paired
  }

  /** `replace_with` on one parent's HasOne slot: a fresh object built from `row`. */
  method SetOne(p: Node, field: string, model: string, row: Row) returns (n: Node)
    modifies p
    ensures p.one == old(p.one)[field := Some(n)] && p.many == old(p.many)
    ensures fresh(n) && n.model == model && n.row == row && n.one == map[] && n.many == map[]
  {
    n := new Node(model, row);
    p.one := p.one[field := Some(n)];
  }

  /**
   * The HasOne fan-out loop: `distinct_id_to_model.get(&key).unwrap()` for every
   * parent in order, storing a fresh object built from the paired row. A parent
   * whose key has no paired row panics.
   */
  method FillOne(parents: seq<Node>, field: string, model: string, byKey: map<Key, Row>)
    returns (panic: Option<Panic>, ghost made: set<Node>)
    requires DistinctNodes(parents)
    modifies set p | p in parents
    ensures panic.None? <==> forall i :: 0 <= i < |parents| ==> Paired(parents[i].row, field, byKey)
    ensures panic.Some? ==> panic == Some(UnwrapNone)
    ensures panic.None? ==> forall i :: 0 <= i < |parents| ==>
      && Slot(parents[i].one, field).Some?
      && var n := Slot(parents[i].one, field).value;
         && fresh(n) && n.model == model && n.row == byKey[Column(parents[i].row, field).value]
         && n.one == map[] && n.many == map[]
    ensures forall i :: 0 <= i < |parents| ==>
      SameOutside(parents[i].one, old(parents[i].one), {field}) && parents[i].many == old(parents[i].many)
    ensures fresh(made) && (forall n :: n in made ==> Unloaded(n))
    ensures forall i :: 0 <= i < |parents| ==>
      FilledFrom(parents[i].one, parents[i].many, old(parents[i].one), old(parents[i].many), made)
  {
    ghost var news: seq<Node> := [];
    made := {};
    for j := 0 to |parents|
      invariant |news| == j && forall i :: 0 <= i < j ==> news[i] in made
      invariant fresh(made) && forall n :: n in made ==> Unloaded(n)
      invariant forall i :: 0 <= i < j ==> Paired(parents[i].row, field, byKey)
      invariant forall i :: 0 <= i < j ==> parents[i].one == old(parents[i].one)[field := Some(news[i])]
      invariant forall i :: 0 <= i < j ==>
        && fresh(news[i]) && news[i].model == model && news[i].row == byKey[Column(parents[i].row, field).value]
        && news[i].one == map[] && news[i].many == map[]
      invariant forall i :: j <= i < |parents| ==> parents[i].one == old(parents[i].one)
      invariant forall i :: 0 <= i < |parents| ==> parents[i].many == old(parents[i].many)
    {
      var p := parents[j];
      var k := Column(p.row, field);
      if k.None? || k.value !in byKey {
        return Some(UnwrapNone), made;
      }
      var n := SetOne(p, field, model, byKey[k.value]);
      news := news + [n];
      made := made + {n};
    }
    panic := None;
  }

  lemma {:induction false} BucketSnoc(rows: seq<Row>, x: Row, column: string, k: Key)
    ensures Bucket(rows + [x], column, k) == Bucket(rows, column, k) + (if Column(x, column) == Some(k) then [x] else [])
  {
    if rows != [] {
      assert (rows + [x])[1..] == rows[1..] + [x];
      BucketSnoc(rows[1..], x, column, k);
    }
  }

  /** `buckets` holds, for every key some row's `column` holds, those rows in order. */
  ghost predicate Partitioned(buckets: map<Key, seq<Row>>, rows: seq<Row>, column: string)
  {
    forall k :: (k in buckets <==> Bucket(rows, column, k) != [])
                && (k in buckets ==> buckets[k] == Bucket(rows, column, k))
  }

  /** Pushes `x` onto the list of the key its `column` holds. */
  function AddToBucket(buckets: map<Key, seq<Row>>, x: Row, column: string): map<Key, seq<Row>>
  {
    var fk := Column(x, column);
    if fk.None? then buckets
    else buckets[fk.value := (if fk.value in buckets then buckets[fk.value] else []) + [x]]
  }

  lemma PartitionStep(buckets: map<Key, seq<Row>>, rows: seq<Row>, x: Row, column: string)
    requires Partitioned(buckets, rows, column)
    ensures Partitioned(AddToBucket(buckets, x, column), rows + [x], column)
  {
    forall k {
      BucketSnoc(rows, x, column, k);
    }
  }

  /**
   * The `forign_key_to_models` loop: each fetched row, in order, is pushed onto the
   * list of the key its foreign-key column holds.
   */
  method Partition(rows: seq<Row>, column: string) returns (buckets: map<Key, seq<Row>>)
    ensures forall k :: k in buckets <==> Bucket(rows, column, k) != []
    ensures forall k :: k in buckets ==> buckets[k] == Bucket(rows, column, k)
  {
    buckets := map[];
    for i := 0 to |rows|
      invariant Partitioned(buckets, rows[..i], column)
    {
      PartitionStep(buckets, rows[..i], rows[i], column);
      assert rows[..i + 1] == rows[..i] + [rows[i]];
      buckets := AddToBucket(buckets, rows[i], column);
    }
    assert rows[..|rows|] == rows;
  }

  /** `replace_with` on one parent's HasMany slot: fresh objects built from `rows`. */
  method SetMany(p: Node, field: string, model: string, rows: seq<Row>) returns (children: seq<Node>)
    modifies p
    ensures p.many == old(p.many)[field := Some(children)] && p.one == old(p.one)
    ensures RowsOf(children) == rows
    ensures forall n :: n in children ==> fresh(n) && n.model == model && n.one == map[] && n.many == map[]
  {
    children := MakeNodes(model, rows);
    p.many := p.many[field := Some(children)];
  }

  /** The HasMany fan-out loop: every parent with a bucket gets fresh objects built from its bucket's rows. */
  method FillMany(parents: seq<Node>, field: string, model: string, buckets: map<Key, seq<Row>>)
    returns (ghost made: set<Node>)
    requires DistinctNodes(parents)
    modifies set p | p in parents
    ensures forall i :: 0 <= i < |parents| ==>
      if parents[i].row.id in buckets then
        && Slot(parents[i].many, field).Some?
        && RowsOf(Slot(parents[i].many, field).value) == buckets[parents[i].row.id]
        && forall n :: n in Slot(parents[i].many, field).value ==>
             fresh(n) && n.model == model && n.one == map[] && n.many == map[]
      else Slot(parents[i].many, field) == Slot(old(parents[i].many), field)
    ensures forall i :: 0 <= i < |parents| ==>
      SameOutside(parents[i].many, old(parents[i].many), {field}) && parents[i].one == old(parents[i].one)
    ensures fresh(made) && (forall n :: n in made ==> Unloaded(n))
    ensures forall i :: 0 <= i < |parents| ==>
      FilledFrom(parents[i].one, parents[i].many, old(parents[i].one), old(parents[i].many), made)
  {
    ghost var news: seq<seq<Node>> := [];
    made := {};
    for j := 0 to |parents|
      invariant |news| == j && forall i, n :: 0 <= i < j && n in news[i] ==> n in made
      invariant fresh(made) && forall n :: n in made ==> Unloaded(n)
      invariant forall i :: 0 <= i < j ==>
        parents[i].many == if parents[i].row.id in buckets then old(parents[i].many)[field := Some(news[i])] else old(parents[i].many)
      invariant forall i :: 0 <= i < j && parents[i].row.id in buckets ==> RowsOf(news[i]) == buckets[parents[i].row.id]
      invariant forall i :: 0 <= i < j ==> forall n :: n in news[i] ==>
        fresh(n) && n.model == model && n.one == map[] && n.many == map[]
      invariant forall i :: j <= i < |parents| ==> parents[i].many == old(parents[i].many)
      invariant forall i :: 0 <= i < |parents| ==> parents[i].one == old(parents[i].one)
    {
      var p := parents[j];
      var children := [];
      if p.row.id in buckets {
        children := SetMany(p, field, model, buckets[p.row.id]);
      }
      news := news + [children];
      made := made + set n | n in children;
    }
  }

  /**
   * The fan-out of one edge's outcome `f` into the parents' slots of that edge: a
   * skipped edge writes nothing, fetched rows are distributed; only an unpaired
   * HasOne key panics.
   */
  method FanOut(parents: seq<Node>, e: Edge, f: Fetch) returns (panic: Option<Panic>, ghost made: set<Node>)
    requires DistinctNodes(parents)
    modifies set p | p in parents
    ensures panic.None? <==> f.Skipped? || e.HasManyEdge? || AllPaired(RowsOf(parents), e.field, ZipMap(f.keys, f.rows))
    ensures panic.Some? ==> panic == Some(UnwrapNone)
    ensures panic.None? ==> forall p :: p in parents ==>
      EdgeWritten(p.row, e, f, p.one, p.many, old(p.one), old(p.many))
    ensures fresh(made) && (forall n :: n in made ==> Unloaded(n))
    ensures forall p :: p in parents ==> FilledFrom(p.one, p.many, old(p.one), old(p.many), made)
  {
    if f.Skipped? {
      NoneWritten(parents, e);
      return None, {};
    }
    if e.HasOneEdge? {
      panic, made := FillOne(parents, e.field, e.model, ZipMap(f.keys, f.rows));
    } else {
      var buckets := Partition(f.rows, e.foreignKey);
      made := FillMany(parents, e.field, e.model, buckets);
      panic := None;
    }
    forall p | p in parents
      ensures FilledFrom(p.one, p.many, old(p.one), old(p.many), made)
    {
      var j :| 0 <= j < |parents| && parents[j] == p;
    }
    if panic.None? {
      forall p | p in parents
        ensures EdgeWritten(p.row, e, f, p.one, p.many, old(p.one), old(p.many))
      {
        var j :| 0 <= j < |parents| && parents[j] == p;
      }
    }
  }

  /** The fetched objects' own `preload_children`, seen from the fetch: its queries, its panic, its slots. */
  method PreloadFetched(models: Models, db: Database, model: string, children: seq<Node>, look: Selection)
    returns (panic: Option<Panic>)
    requires Valid(models)
    requires DistinctNodes(children)
    modifies db, set c | c in children
    ensures var t := Preload(models, db.answer, model, RowsOf(children), look);
      db.log == old(db.log) + t.requests && panic == t.panic
    ensures var t := Preload(models, db.answer, model, RowsOf(children), look);
      t.panic.None? ==> forall c :: c in children ==>
        Preloaded(c.row, EdgesOf(models, model), 0, t.steps, c.one, c.many, old(c.one), old(c.many))
    decreases look, 5
  {
    ghost var made;
    panic, made := PreloadChildren(models, db, model, children, look);
  }

  /**
   * The fetch of a selected edge: one query with the sorted `keys` (`unwrap` on its
   * result), then the fetched objects' own preload with the child selection `sel`,
   * whose results are not kept.
   */
  method FetchSelected(models: Models, db: Database, e: Edge, keys: seq<Key>, look: Selection, sel: Selection)
    returns (panic: Option<Panic>, fetched: bool, rows: seq<Row>)
    requires Valid(models) && sel < look
    modifies db
    ensures var a := db.answer(EdgeQuery(e, keys, look));
      a.Failure? ==> db.log == old(db.log) + [EdgeQuery(e, keys, look)] && panic == Some(LoadPanic(a.error)) && !fetched
    ensures var a := db.answer(EdgeQuery(e, keys, look));
      a.Success? ==>
        var n := Preload(models, db.answer, e.model, a.value, sel);
        && db.log == old(db.log) + ([EdgeQuery(e, keys, look)] + n.requests)
        && panic == n.panic && fetched && rows == a.value
    decreases look, 0
  {
    var q := EdgeQuery(e, keys, look);
    var loaded := db.Load(q);
    if loaded.Failure? {
      return Some(LoadPanic(loaded.error)), false, [];
    }
    var children := MakeNodes(e.model, loaded.value);
    panic := PreloadFetched(models, db, e.model, children, sel);
    fetched, rows := true, loaded.value;
    Associative(old(db.log), [q], Preload(models, db.answer, e.model, loaded.value, sel).requests);
  }

  /**
   * The fetching half of one preloader block (edge `i` of the parents' model):
   * nothing unless the edge is selected; `get_mut` on the model's key list, which
   * a HasOne block skips and a HasMany block unwraps when it is missing; then the
   * list is sorted in place and fetched.
   */
  method EdgeFetch(models: Models, db: Database, edges: seq<Edge>, i: nat, keys: map<string, seq<Key>>,
                   rows: seq<Row>, look: Selection)
    returns (panic: Option<Panic>, keys': map<string, seq<Key>>, f: Fetch, ghost s: EdgeResult)
    requires Valid(models) && i < |edges|
    requires KeyLists(keys, edges, rows)
    modifies db
    ensures s == EdgeStep(models, db.answer, edges, i, rows, look)
    ensures db.log == old(db.log) + s.requests && f == s.fetch
    ensures f.Skipped? ==> panic == s.panic
    ensures f.Fetched? && panic.Some? ==> s.panic == panic
    ensures f.Fetched? && panic.None? ==>
      s.panic == if edges[i].HasOneEdge? && !AllPaired(rows, edges[i].field, ZipMap(f.keys, f.rows))
                 then Some(UnwrapNone) else None
    ensures KeyLists(keys', edges, rows)
    decreases look, 1
  {
    s := EdgeStep(models, db.answer, edges, i, rows, look);
    var e := edges[i];
    keys', f := keys, Skipped;
    var sel := SelectChild(look.children, e.field);
    KeyListsHas(keys, edges, rows, e.model);
    if sel.None? || (e.HasOneEdge? && e.model !in keys) {
      return None, keys', f, s;
    }
    if e.model !in keys {
      return Some(UnwrapNone), keys', f, s;
    }
    var sorted, fetched, fetchedRows;
    keys', sorted := SortKeys(keys, edges, rows, e.model);
    panic, fetched, fetchedRows := FetchSelected(models, db, e, sorted, look, sel.value);
    if fetched {
      f := Fetched(sorted, fetchedRows);
    }
  }

  /**
   * One preloader block (edge `i` of the parents' model): the fetch, then the
   * fan-out of the fetched rows into the parents' slots.
   */
  method PreloadEdge(models: Models, db: Database, edges: seq<Edge>, i: nat, keys: map<string, seq<Key>>,
                     parents: seq<Node>, look: Selection)
    returns (panic: Option<Panic>, keys': map<string, seq<Key>>, ghost s: EdgeResult, ghost made: set<Node>)
    requires Valid(models) && i < |edges|
    requires DistinctNodes(parents)
    requires KeyLists(keys, edges, RowsOf(parents))
    modifies db, set p | p in parents
    ensures s == EdgeStep(models, db.answer, edges, i, RowsOf(parents), look)
    ensures db.log == old(db.log) + s.requests && panic == s.panic
    ensures KeyLists(keys', edges, RowsOf(parents))
    ensures panic.None? ==> forall p :: p in parents ==>
      EdgeWritten(p.row, edges[i], s.fetch, p.one, p.many, old(p.one), old(p.many))
    ensures fresh(made) && (forall n :: n in made ==> Unloaded(n))
    ensures forall p :: p in parents ==> FilledFrom(p.one, p.many, old(p.one), old(p.many), made)
    decreases look, 2
  {
    var f;
    made := {};
    panic, keys', f, s := EdgeFetch(models, db, edges, i, keys, RowsOf(parents), look);
    if panic.Some? {
      return;
    }
    panic, made := FanOut(parents, edges[i], f);
  }

  /**
   * A parent's slots after the edges from `i` on completed with outcomes `steps`,
   * one per edge, given the slots `one0` and `many0` before: each of those edges
   * left its slots as `Outcome` says, and every other slot is unchanged.
   */
  ghost predicate Preloaded(row: Row, edges: seq<Edge>, i: nat, steps: seq<Fetch>,
                            one: map<string, Option<Node>>, many: map<string, Option<seq<Node>>>,
                            one0: map<string, Option<Node>>, many0: map<string, Option<seq<Node>>>)
  {
    && i + |steps| <= |edges|
    && (forall j :: 0 <= j < |steps| ==>
          Outcome(row, edges[i + j], steps[j], Slot(one, edges[i + j].field), Slot(many, edges[i + j].field),
                  Slot(one0, edges[i + j].field), Slot(many0, edges[i + j].field)))
    && SameOutside(one, one0, FieldsIn(edges, i, i + |steps|))
    && SameOutside(many, many0, FieldsIn(edges, i, i + |steps|))
  }

  /** No edge completed: nothing changed. */
  lemma PreloadedNone(row: Row, edges: seq<Edge>, i: nat,
                      one: map<string, Option<Node>>, many: map<string, Option<seq<Node>>>)
    requires i <= |edges|
    ensures Preloaded(row, edges, i, [], one, many, one, many)
  {
  }

  /** Edge `i` completed, then the edges after it: edge `i`'s field is none of theirs. */
  lemma PreloadedCons(row: Row, edges: seq<Edge>, i: nat, f: Fetch, steps: seq<Fetch>,
                      one: map<string, Option<Node>>, many: map<string, Option<seq<Node>>>,
                      one1: map<string, Option<Node>>, many1: map<string, Option<seq<Node>>>,
                      one0: map<string, Option<Node>>, many0: map<string, Option<seq<Node>>>)
    requires DistinctFields(edges) && i < |edges|
    requires EdgeWritten(row, edges[i], f, one1, many1, one0, many0)
    requires Preloaded(row, edges, i + 1, steps, one, many, one1, many1)
    ensures Preloaded(row, edges, i, [f] + steps, one, many, one0, many0)
  {
    var e := edges[i];
    var hi := i + 1 + |steps|;
    assert FieldsIn(edges, i, hi) == {e.field} + FieldsIn(edges, i + 1, hi);
    forall j | i + 1 <= j < hi
      ensures edges[j].field != e.field
    {
      assert FieldsDiffer(edges, i, j);
    }
    assert e.field !in FieldsIn(edges, i + 1, hi);
    forall j | 0 <= j < |steps| + 1
      ensures Outcome(row, edges[i + j], ([f] + steps)[j], Slot(one, edges[i + j].field), Slot(many, edges[i + j].field),
                      Slot(one0, edges[i + j].field), Slot(many0, edges[i + j].field))
    {
      if j == 0 {
        assert Slot(one, e.field) == Slot(one1, e.field);
        assert Slot(many, e.field) == Slot(many1, e.field);
      } else {
        var g := edges[i + j].field;
        assert edges[(i + 1) + (j - 1)] == edges[i + j];
        assert g != e.field;
        assert Slot(one1, g) == Slot(one0, g);
        assert Slot(many1, g) == Slot(many0, g);
      }
    }
  }

  /**
   * The preloader blocks of the edges from `i` on, in field order, stopping at the
   * first panic: the log gains exactly the queries of the reference run
   * `RunEdges`, and, when nothing panicked, every parent's slots are as
   * `Preloaded` says.
   */
  method PreloadFrom(models: Models, db: Database, edges: seq<Edge>, i: nat, keys: map<string, seq<Key>>,
                     parents: seq<Node>, look: Selection)
    returns (panic: Option<Panic>, ghost made: set<Node>)
    requires Valid(models) && DistinctFields(edges) && i <= |edges|
    requires DistinctNodes(parents)
    requires KeyLists(keys, edges, RowsOf(parents))
    modifies db, set p | p in parents
    ensures var t := RunEdges(models, db.answer, edges, i, RowsOf(parents), look);
      db.log == old(db.log) + t.requests && panic == t.panic
    ensures var t := RunEdges(models, db.answer, edges, i, RowsOf(parents), look);
      t.panic.None? ==> forall p :: p in parents ==>
        Preloaded(p.row, edges, i, t.steps, p.one, p.many, old(p.one), old(p.many))
    ensures fresh(made) && (forall n :: n in made ==> Unloaded(n))
    ensures forall p :: p in parents ==> FilledFrom(p.one, p.many, old(p.one), old(p.many), made)
    decreases look, 3, |edges| - i
  {
    if i == |edges| {
      forall p | p in parents
        ensures Preloaded(p.row, edges, i, [], p.one, p.many, p.one, p.many)
      {
        PreloadedNone(p.row, edges, i, p.one, p.many);
      }
      return None, {};
    }
    var keys';
    ghost var s, made1;
    panic, keys', s, made1 := PreloadEdge(models, db, edges, i, keys, parents, look);
    if panic.Some? {
      return panic, made1;
    }
    label mid:
    ghost var made2;
    panic, made2 := PreloadFrom(models, db, edges, i + 1, keys', parents, look);
    made := made1 + made2;
    // The objects edge `i` made are new, so none of them is a parent the later edges write.
    forall n | n in made1
      ensures Unloaded(n)
    {
      assert n !in parents;
      assert n.one == old@mid(n.one) && n.many == old@mid(n.many);
    }
    forall p | p in parents
      ensures FilledFrom(p.one, p.many, old(p.one), old(p.many), made)
    {
      FilledFromBoth(p.one, p.many, old@mid(p.one), old@mid(p.many), old(p.one), old(p.many), made1, made2);
    }
    ghost var rest := RunEdges(models, db.answer, edges, i + 1, RowsOf(parents), look);
    if panic.None? {
      forall p | p in parents
        ensures Preloaded(p.row, edges, i, [s.fetch] + rest.steps, p.one, p.many, old(p.one), old(p.many))
      {
        PreloadedCons(p.row, edges, i, s.fetch, rest.steps, p.one, p.many,
                      old@mid(p.one), old@mid(p.many), old(p.one), old(p.many));
      }
    }
    Associative(old(db.log), s.requests, rest.requests);
  }

  /**
   * `preload_children`: gathers the key lists, then runs the preloader of every
   * relation edge in field order, stopping at the first panic. The log gains
   * exactly the queries of the reference run `Preload`, and, when nothing panicked,
   * every parent's slots are as `Preloaded` says.
   */
  method PreloadChildren(models: Models, db: Database, model: string, parents: seq<Node>, look: Selection)
    returns (panic: Option<Panic>, ghost made: set<Node>)
    requires Valid(models)
    requires DistinctNodes(parents)
    modifies db, set p | p in parents
    ensures var t := Preload(models, db.answer, model, RowsOf(parents), look);
      db.log == old(db.log) + t.requests && panic == t.panic
    ensures var t := Preload(models, db.answer, model, RowsOf(parents), look);
      t.panic.None? ==> forall p :: p in parents ==>
        Preloaded(p.row, EdgesOf(models, model), 0, t.steps, p.one, p.many, old(p.one), old(p.many))
    ensures fresh(made) && (forall n :: n in made ==> Unloaded(n))
    ensures forall p :: p in parents ==> FilledFrom(p.one, p.many, old(p.one), old(p.many), made)
    decreases look, 4
  {
    var edges := EdgesOf(models, model);
    assert DistinctFields(edges);
    var keys := AggregateKeys(edges, RowsOf(parents));
    panic, made := PreloadFrom(models, db, edges, 0, keys, parents, look);
  }

  /** What a gin field resolver ends in: a value, a field error, or a panic. */
  datatype Reply<T> = Ok(value: T) | Err(error: FieldError) | Panicked(panic: Panic)

  /**
   * The resolver of a HasOne field: a filled slot is taken, leaving it empty; an
   * empty slot falls back to `get_result` on the row whose id the parent stores,
   * converted to a fresh object (the struct always has that field, so its key is
   * present).
   */
  method ResolveHasOne(db: Database, node: Node, e: Edge) returns (r: Result<Node, FieldError>)
    requires e.HasOneEdge? && e.field in node.row.keys
    modifies db, node
    ensures node.many == old(node.many)
    ensures Slot(node.one, e.field).None? && SameOutside(node.one, old(node.one), {e.field})
    ensures Slot(old(node.one), e.field).Some? ==> r == Success(Slot(old(node.one), e.field).value) && db.log == old(db.log)
    ensures Slot(old(node.one), e.field).None? ==>
      var q := OneFallback(e, node.row.keys[e.field]);
      var a := FirstOf(db.answer(q));
      && db.log == old(db.log) + [q]
      && (a.Failure? ==> r == Failure(FieldError(Describe(a.error))))
      && (a.Success? ==>
            && r.Success? && fresh(r.value) && r.value.model == e.model && r.value.row == a.value
            && (db.Sound() ==> r.value.row.id == node.row.keys[e.field]) && Unloaded(r.value))
  {
    var slot := Slot(node.one, e.field);
    if slot.Some? {
      node.one := node.one[e.field := None];
      return Success(slot.value);
    }
    var got := db.GetResult(OneFallback(e, node.row.keys[e.field]));
    if got.Failure? {
      return Failure(FieldError(Describe(got.error)));
    }
    var n := new Node(e.model, got.value);
    r := Success(n);
  }

  /**
   * The HasMany fallback: one query for the rows pointing at the parent, then their
   * own `preload_children` with the field's selection `look`, whose slots the
   * returned objects keep; a database error is a field error, a panic of the
   * preload propagates.
   */
  method FetchMany(models: Models, db: Database, e: Edge, id: Key, first: Option<i32>, offset: Option<i32>,
                   look: Selection)
    returns (r: Reply<seq<Node>>)
    requires Valid(models) && e.HasManyEdge?
    modifies db
    ensures var q := ManyFallback(e, id, first, offset);
      var a := db.answer(q);
      && (a.Failure? ==> db.log == old(db.log) + [q] && r == Err(FieldError(Describe(a.error))))
      && (a.Success? ==>
            var t := Preload(models, db.answer, e.model, a.value, look);
            && db.log == old(db.log) + ([q] + t.requests)
            && (t.panic.Some? ==> r == Panicked(t.panic.value))
            && (t.panic.None? ==>
                  && r.Ok? && RowsOf(r.value) == a.value
                  && forall n :: n in r.value ==>
                       Preloaded(n.row, EdgesOf(models, e.model), 0, t.steps, n.one, n.many, map[], map[])))
    ensures r.Ok? ==> forall n :: n in r.value ==> fresh(n) && n.model == e.model
  {
    var q := ManyFallback(e, id, first, offset);
    var loaded := db.Load(q);
    if loaded.Failure? {
      return Err(FieldError(Describe(loaded.error)));
    }
    var nodes := MakeNodes(e.model, loaded.value);
    var panic := PreloadFetched(models, db, e.model, nodes, look);
    Associative(old(db.log), [q], Preload(models, db.answer, e.model, loaded.value, look).requests);
    if panic.Some? {
      return Panicked(panic.value);
    }
    r := Ok(nodes);
  }

  /**
   * The resolver of a HasMany field with its `first` and `offset` arguments and its
   * own selection `look`: a filled slot is taken, leaving it empty; an empty slot
   * falls back to a fetch of the rows pointing at the parent, preloaded with `look`.
   */
  method ResolveHasMany(models: Models, db: Database, node: Node, e: Edge, first: Option<i32>, offset: Option<i32>,
                        look: Selection)
    returns (r: Reply<seq<Node>>)
    requires Valid(models) && e.HasManyEdge?
    modifies db, node
    ensures node.one == old(node.one)
    ensures Slot(node.many, e.field).None? && SameOutside(node.many, old(node.many), {e.field})
    ensures Slot(old(node.many), e.field).Some? ==> r == Ok(Slot(old(node.many), e.field).value) && db.log == old(db.log)
    ensures Slot(old(node.many), e.field).None? ==>
      var q := ManyFallback(e, node.row.id, first, offset);
      var a := db.answer(q);
      && (a.Failure? ==> db.log == old(db.log) + [q] && r == Err(FieldError(Describe(a.error))))
      && (a.Success? ==>
            var t := Preload(models, db.answer, e.model, a.value, look);
            && db.log == old(db.log) + ([q] + t.requests)
            && (t.panic.Some? ==> r == Panicked(t.panic.value))
            && (t.panic.None? ==>
                  && r.Ok? && RowsOf(r.value) == a.value
                  && forall n :: n in r.value ==>
                       Preloaded(n.row, EdgesOf(models, e.model), 0, t.steps, n.one, n.many, map[], map[])))
  {
    var slot := Slot(node.many, e.field);
    if slot.Some? {
      node.many := node.many[e.field := None];
      return Ok(slot.value);
    }
    r := FetchMany(models, db, e, node.row.id, first, offset, look);
  }

  /**
   * A selected edge sends its batched query over the sorted distinct keys exactly
   * when keys were gathered for its model. Without keys, an unselected edge or a
   * HasOne edge does nothing, while a selected HasMany edge panics.
   */
  lemma EdgeFetchedIffSelected(models: Models, answer: Answers, edges: seq<Edge>, i: nat,
                               rows: seq<Row>, look: Selection)
    requires i < |edges|
    ensures var e := edges[i];
      var s := EdgeStep(models, answer, edges, i, rows, look);
      var selected := SelectChild(look.children, e.field).Some?;
      var gathered := KeysFor(edges, rows, e.model);
      && (selected && gathered != [] ==>
            |s.requests| >= 1 && s.requests[0] == EdgeQuery(e, SortedDistinct(gathered), look))
      && (!selected || (e.HasOneEdge? && gathered == []) ==> s == EdgeResult([], Skipped, None))
      && (selected && e.HasManyEdge? && gathered == [] ==> s == EdgeResult([], Skipped, Some(UnwrapNone)))
  {
  }

  /** A run without panic completes every edge from `i` on; a run that panics completes fewer. */
  lemma {:induction false} RunEdgesCompletes(models: Models, answer: Answers, edges: seq<Edge>, i: nat,
                                             rows: seq<Row>, look: Selection)
    requires i <= |edges|
    ensures var t := RunEdges(models, answer, edges, i, rows, look);
      (t.panic.None? <==> |t.steps| == |edges| - i) && |t.steps| <= |edges| - i
    decreases |edges| - i
  {
    if i < |edges| {
      var s := EdgeStep(models, answer, edges, i, rows, look);
      if s.panic.None? {
        RunEdgesCompletes(models, answer, edges, i + 1, rows, look);
        var rest := RunEdges(models, answer, edges, i + 1, rows, look);
        assert RunEdges(models, answer, edges, i, rows, look) == Trace(s.requests + rest.requests, [s.fetch] + rest.steps, rest.panic);
      } else {
        assert RunEdges(models, answer, edges, i, rows, look) == Trace(s.requests, [], s.panic);
      }
    }
  }

  /** Some edge from `i` on is a HasMany edge the selection asks for. */
  predicate SelectsHasMany(edges: seq<Edge>, i: nat, look: Selection)
  {
    exists j :: i <= j < |edges| && edges[j].HasManyEdge? && SelectChild(look.children, edges[j].field).Some?
  }

  /**
   * `preload_children` over an empty batch sends no query, and panics exactly when
   * the selection asks for some HasMany relation (its key list was never created).
   */
  lemma {:induction false} EmptyBatch(models: Models, answer: Answers, edges: seq<Edge>, i: nat, look: Selection)
    requires i <= |edges|
    ensures var t := RunEdges(models, answer, edges, i, [], look);
      t.requests == [] && (t.panic.Some? <==> SelectsHasMany(edges, i, look))
    decreases |edges| - i
  {
    if i < |edges| {
      var e := edges[i];
      assert KeysFor(edges, [], e.model) == [];
      if e.HasManyEdge? && SelectChild(look.children, e.field).Some? {
        assert RunEdges(models, answer, edges, i, [], look).panic == Some(UnwrapNone);
      } else {
        EmptyBatch(models, answer, edges, i + 1, look);
        assert SelectsHasMany(edges, i, look) <==> SelectsHasMany(edges, i + 1, look) by {
          if SelectsHasMany(edges, i, look) {
            var j :| i <= j < |edges| && edges[j].HasManyEdge? && SelectChild(look.children, edges[j].field).Some?;
            assert j != i;
          }
        }
      }
    }
  }

  /**
   * The HasMany batch of a selected edge reads `first` and `offset` from the parents'
   * selection `look`, never from the edge's own child selection.
   */
  lemma BatchPaginationFromParentSelection(models: Models, answer: Answers, edges: seq<Edge>, i: nat,
                                           rows: seq<Row>, look: Selection)
    requires i < |edges| && edges[i].HasManyEdge?
    requires SelectChild(look.children, edges[i].field).Some? && KeysFor(edges, rows, edges[i].model) != []
    ensures var q := EdgeStep(models, answer, edges, i, rows, look).requests[0];
      && q.limit == Some(IntArgument(look, "first", 10) as int)
      && q.offset == Some(IntArgument(look, "offset", 0) as int)
  {
    EdgeFetchedIffSelected(models, answer, edges, i, rows, look);
  }

  const AuthorEdge := HasOneEdge("author", "users", "User")
  const Post := Row(10, map["author" := 5], map[])
  const PostModels: Models := map["Post" := Entity("posts", [AuthorEdge], [])]
  const AuthorSelection := Selection("posts", [], [Selection("author", [], [])])
  /** A database whose `users` table lacks the row a post points at. */
  const NoUsers: Answers := q => Success([])

  /** The post gives its author key 5 for `User`. */
  lemma PostKeys()
    ensures KeysFor([AuthorEdge], [Post], "User") == [5]
    ensures SortedDistinct([5]) == [5]
  {
    var none: seq<Edge> := [];
    assert [AuthorEdge][..0] == none;
    assert RowKeys([AuthorEdge], Post, "User") == [5];
    var noRows: seq<Row> := [];
    assert [Post][..0] == noRows;
  }

  /** The `author` edge is selected and gathers the key 5. */
  lemma DanglingKeys()
    ensures var e := [AuthorEdge][0];
      && SelectChild(AuthorSelection.children, e.field) == Some(Selection("author", [], []))
      && KeysFor([AuthorEdge], [Post], e.model) != []
      && SortedDistinct(KeysFor([AuthorEdge], [Post], e.model)) == [5]
  {
    PostKeys();
  }

  /** Nothing answers the batch query, and users have no relations to preload. */
  lemma DanglingFetch()
    ensures NoUsers(EdgeQuery([AuthorEdge][0], [5], AuthorSelection)) == Success([])
    ensures Preload(PostModels, NoUsers, "User", [], Selection("author", [], [])) == Trace([], [], None)
    ensures EdgeQuery([AuthorEdge][0], [5], AuthorSelection) == Query("users", Some(IdIn([5])), None, None)
  {
    assert EdgesOf(PostModels, "User") == [];
  }

  /**
   * A dangling HasOne key panics: the post's author key 5 has no row, so pairing the
   * keys with the (empty) answer leaves 5 unpaired and `unwrap` panics, after the
   * one batch query.
   */
  lemma DanglingKeyPanics()
    ensures EdgeStep(PostModels, NoUsers, [AuthorEdge], 0, [Post], AuthorSelection)
         == EdgeResult([Query("users", Some(IdIn([5])), None, None)], Fetched([5], []), Some(UnwrapNone))
  {
    DanglingKeys();
    DanglingFetch();
    assert !AllPaired([Post], "author", ZipMap([5], []));
    StepFetches(PostModels, NoUsers, [AuthorEdge], 0, [Post], AuthorSelection, Selection("author", [], []), [5], []);
  }
}
