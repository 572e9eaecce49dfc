/**
 * gin's root resolvers (gin_codegen/src/macros/query.rs): the `resolve_single` and
 * `resolve_multiple` generated for every model. The plural root field always takes
 * a list of ids and passes `first` and `offset` on; there is no search.
 */
module GinQuery {
  import opened Wrappers
  import opened LookAhead
  import opened Store
  import opened Registry
  import opened Slots
  import opened GinPreload
  import opened RootResolvers

  /**
   * The query `resolve_multiple` hands to `modify_query`: `id = ANY(ids)`, with
   * `LIMIT` `first` (10 when absent) and `OFFSET` `offset` (0 when absent).
   */
  function MultipleQuery(schema: string, ids: seq<Key>, first: Option<i32>, offset: Option<i32>): (q: Query)
    ensures q.schema == schema
    ensures forall row :: Selects(q.where, row) <==> row.id in ids
    ensures q.limit == Some(if first.Some? then first.value as int else 10)
    ensures q.offset == Some(if offset.Some? then offset.value as int else 0)
  {
    Query(schema, Some(IdIn(ids)), Some(first.UnwrapOr(10) as int), Some(offset.UnwrapOr(0) as int))
  }

  /**
   * What `resolve_multiple` does with its query `q`: a `modify_query` error is
   * returned as it is and nothing is loaded; otherwise one `load`, whose error
   * becomes a field error; otherwise one `preload_children` over the whole loaded
   * list, whose panic propagates; otherwise the objects of the loaded rows in load
   * order, each preloaded as `Preloaded` says.
   */
  ghost predicate Answered(models: Models, answer: Answers, model: string, q: Query, modifier: QueryModifier,
                           log0: seq<Query>, log: seq<Query>, look: Selection, r: Reply<seq<Node>>)
    reads if r.Ok? then set n | n in r.value else {}
  {
    match modifier(q)
    case Failure(e) => r == Err(e) && log == log0
    case Success(m) =>
      match answer(m)
      case Failure(e) => log == log0 + [m] && r == Err(FieldError(Describe(e)))
      case Success(rows) =>
        var t := Preload(models, answer, model, rows, look);
        && log == log0 + ([m] + t.requests)
        && (t.panic.Some? ==> r == Panicked(t.panic.value))
        && (t.panic.None? ==>
              && r.Ok? && RowsOf(r.value) == rows
              && forall n :: n in r.value ==>
                   Preloaded(n.row, EdgesOf(models, model), 0, t.steps, n.one, n.many, map[], map[]))
  }

  /**
   * `resolve_multiple` of `model` over the table `schema`, answering as `Answered`
   * says with fresh objects. The objects in their filled slots have empty slots of
   * their own: what the nested preload loaded for them is not kept.
   */
  method ResolveMultiple(models: Models, db: Database, model: string, schema: string, ids: seq<Key>,
                         first: Option<i32>, offset: Option<i32>, modifier: QueryModifier, look: Selection)
    returns (r: Reply<seq<Node>>)
    requires Valid(models)
    modifies db
    ensures Answered(models, db.answer, model, MultipleQuery(schema, ids, first, offset), modifier, old(db.log), db.log, look, r)
    ensures r.Ok? ==> forall n :: n in r.value ==> fresh(n) && n.model == model
    ensures r.Ok? ==> forall n, k :: n in r.value ==>
      && (Slot(n.one, k).Some? ==> Unloaded(Slot(n.one, k).value))
      && (Slot(n.many, k).Some? ==> forall c :: c in Slot(n.many, k).value ==> Unloaded(c))
  {
    var modified := modifier(MultipleQuery(schema, ids, first, offset));
    if modified.Failure? {
      return Err(modified.error);
    }
    var loaded := db.Load(modified.value);
    if loaded.Failure? {
      return Err(FieldError(Describe(loaded.error)));
    }
    var nodes := MakeNodes(model, loaded.value);
    ghost var made;
    var panic;
    panic, made := PreloadChildren(models, db, model, nodes, look);
    Associative(old(db.log), [modified.value], Preload(models, db.answer, model, loaded.value, look).requests);
    if panic.Some? {
      return Panicked(panic.value);
    }
    r := Ok(nodes);
  }

  /**
   * `resolve_single`: the row with the given id through `modify_query` (whose error
   * is returned as it is, with nothing fetched), then one `get_result`, whose error
   * becomes a field error; the object is fresh and nothing is preloaded.
   */
  method ResolveSingle(db: Database, model: string, schema: string, id: Key, modifier: QueryModifier)
    returns (r: Result<Node, FieldError>)
    modifies db
    ensures var q := SingleQuery(schema, id);
      && (modifier(q).Failure? ==> r == Failure(modifier(q).error) && db.log == old(db.log))
      && (modifier(q).Success? ==>
            var a := FirstOf(db.answer(modifier(q).value));
            && db.log == old(db.log) + [modifier(q).value]
            && (a.Failure? ==> r == Failure(FieldError(Describe(a.error))))
            && (a.Success? ==> r.Success? && r.value.row == a.value))
    ensures r.Success? ==> fresh(r.value) && r.value.model == model && r.value.one == map[] && r.value.many == map[]
  {
    var modified := modifier(SingleQuery(schema, id));
    if modified.Failure? {
      return Failure(modified.error);
    }
    var got := db.GetResult(modified.value);
    if got.Failure? {
      return Failure(FieldError(Describe(got.error)));
    }
    var n := new Node(model, got.value);
    r := Success(n);
  }

  /**
   * A list that comes back empty (an empty `ids`, or ids no row has) panics exactly
   * when the request selects a HasMany relation of the model: the preload finds no
   * key list for it. Nothing but the one `load` is sent.
   */
  lemma EmptyListPanics(models: Models, answer: Answers, model: string, q: Query, modifier: QueryModifier,
                        log0: seq<Query>, log: seq<Query>, look: Selection, r: Reply<seq<Node>>)
    requires modifier(q).Success? && answer(modifier(q).value) == Success([])
    requires Answered(models, answer, model, q, modifier, log0, log, look, r)
    ensures log == log0 + [modifier(q).value]
    ensures r.Panicked? <==> SelectsHasMany(EdgesOf(models, model), 0, look)
    ensures r.Ok? ==> r.value == []
  {
    EmptyBatch(models, answer, EdgesOf(models, model), 0, look);
  }
}
