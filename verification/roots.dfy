/**
 * What the `query` macros of both crates share: the names of a model's two root
 * fields, the query a `resolve_single` starts from, and the hook `modify_query`
 * every root resolver passes its query through.
 */
module RootResolvers {
  import opened Wrappers
  import opened Ascii
  import opened Store
  import opened AttributeParser
  import opened BotanistCommon

  /**
   * The single-row root field: the model name with its first letter lower-cased
   * (`Book` is `book`).
   */
  function SingularName(model: string): (r: Result<string, Panic>)
    ensures model == [] <==> r.Failure?
    ensures r.Success? ==> |r.value| == |model| && r.value[0] == ToLower(model[0]) && r.value[1..] == model[1..]
  {
    LowerFirst(model)
  }

  /**
   * The list root field: the model's `plural` argument when given, else the
   * singular name followed by "s". The singular name is computed first, so an
   * empty model name panics either way.
   */
  function PluralName(model: string, args: map<string, AttributeToken>): (r: Result<string, Panic>)
    ensures model == [] <==> r.Failure?
    ensures r.Success? && "plural" in args ==> r.value == args["plural"].ident
    ensures r.Success? && "plural" !in args ==> r.value == [ToLower(model[0])] + model[1..] + "s"
  {
    var singular :- SingularName(model);
    if "plural" in args then Success(args["plural"].ident) else Success(singular + "s")
  }

  /** Without a `plural` argument the two root fields never share a name. */
  lemma DefaultNamesDiffer(model: string, args: map<string, AttributeToken>)
    requires model != [] && "plural" !in args
    ensures SingularName(model).Success? && PluralName(model, args).Success?
    ensures SingularName(model).value != PluralName(model, args).value
  {
    assert |PluralName(model, args).value| == |model| + 1;
  }

  lemma BookNames()
    ensures SingularName("Book") == Success("book")
    ensures PluralName("Book", map[]) == Success("books")
    ensures PluralName("Person", map["plural" := AttributeToken("people", map[])]) == Success("people")
  {
    assert ToLower('B') == 'b';
    assert [ToLower('B')] + "Book"[1..] == "book";
    assert [ToLower('B')] + "Book"[1..] + "s" == "books";
  }

  /**
   * The user's `modify_query(query, context)`: it may rewrite the boxed query or
   * refuse it with a field error. The context it reads is folded into the function.
   */
  type QueryModifier = Query -> Result<Query, FieldError>

  /** The `DefaultQueryModifier` a model gets without its own: the query unchanged. */
  const Unmodified: QueryModifier := q => Success(q)

  /** `table.filter(id.eq(id))`, before `modify_query`. */
  function SingleQuery(schema: string, id: Key): Query
  {
    Query(schema, Some(IdEquals(id)), None, None)
  }

  /**
   * The single-row query finds the row with that id: it fails on a missing table,
   * and otherwise succeeds exactly when the table holds a row with that id.
   */
  lemma SingleQueryFindsById(tables: map<string, seq<Row>>, schema: string, id: Key)
    ensures schema !in tables ==> FirstRow(tables, SingleQuery(schema, id)) == Failure(NoSuchTable(schema))
    ensures schema in tables ==>
      (FirstRow(tables, SingleQuery(schema, id)).Success? <==> exists x :: x in tables[schema] && x.id == id)
    ensures FirstRow(tables, SingleQuery(schema, id)).Success? ==> FirstRow(tables, SingleQuery(schema, id)).value.id == id
  {
    var q := SingleQuery(schema, id);
    if schema in tables && exists x :: x in tables[schema] && x.id == id {
      var x :| x in tables[schema] && x.id == id;
      assert Selects(q.where, x);
      assert x in Answer(tables, q).value;
    }
  }
}
