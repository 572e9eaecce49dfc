/**
 * botanist's root resolvers (botanist_codegen/src/macros/query.rs): the search
 * input object's `get_query`, the arguments the plural root field passes on, and
 * the `resolve_single` / `resolve_multiple` generated for every model.
 */
module BotanistQuery {
  import opened Wrappers
  import opened Ascii
  import opened Search
  import opened LookAhead
  import opened Store
  import opened Registry
  import opened AttributeParser
  import opened Slots
  import opened BotanistPreload
  import opened RootResolvers

  /** `all = true` among the model's arguments: the plural field may omit `ids`. */
  predicate CanFetchAll(args: map<string, AttributeToken>)
  {
    "all" in args && args["all"].ident == "true"
  }

  /** The fields of the search input object: the names listed in `searchable(...)`. */
  function SearchFields(args: map<string, AttributeToken>): set<string>
  {
    if "searchable" in args then args["searchable"].arguments.Keys else {}
  }

  /**
   * `get_query`: one insertion per field of the input object, in the hash map's
   * (unspecified) key order; `input` gives every field's value. The map holds
   * exactly the fields that were given, with their values.
   */
  method GetQuery(fields: set<string>, input: map<string, Option<string>>) returns (search: map<string, string>)
    requires fields <= input.Keys
    ensures forall k :: k in search <==> k in fields && input[k].Some?
    ensures forall k :: k in search ==> search[k] == input[k].value
  {
    search := map[];
    var rest := fields;
    while rest != {}
      invariant rest <= fields
      invariant forall k :: k in search <==> k in fields - rest && input[k].Some?
      invariant forall k :: k in search ==> search[k] == input[k].value
      decreases rest
    {
      var k :| k in rest;
      if input[k].Some? {
        search := search[k := input[k].value];
      }
      rest := rest - {k};
    }
  }

  /**
   * What the plural root field passes to `resolve_multiple`. With `all = true` its
   * `ids` are optional and the search input is passed on; otherwise `ids` is a
   * required argument (GraphQL refuses a request without it) and the field has no
   * search input.
   */
  function PluralArguments(args: map<string, AttributeToken>, ids: Option<seq<Key>>, search: Option<map<string, string>>)
    : (r: (Option<seq<Key>>, Option<map<string, string>>))
    requires !CanFetchAll(args) ==> ids.Some?
    ensures r.0 == ids
    ensures CanFetchAll(args) ==> r.1 == search
    ensures !CanFetchAll(args) ==> r.1.None?
  {
    if CanFetchAll(args) then (ids, search) else (Some(ids.value), None)
  }

  /** The `ILIKE` pattern of a search value: it may occur anywhere in the column. */
  function SearchPattern(q: string): string
  {
    "%" + q + "%"
  }

  /** One generated search block: `or_filter(field.ilike(...))` when the search map names `field`. */
  function SearchStep(where: Option<Condition>, field: string, search: map<string, string>): Option<Condition>
  {
    if field in search then OrWhere(where, TextILike(field, SearchPattern(search[field]))) else where
  }

  /** The condition after the search blocks of `fields`, in field order. */
  function SearchWhere(where: Option<Condition>, fields: seq<string>, search: map<string, string>): Option<Condition>
    decreases |fields|
  {
    if fields == [] then where
    else SearchStep(SearchWhere(where, fields[..|fields| - 1], search), fields[|fields| - 1], search)
  }

  /** Some searchable field is named by the search map. */
  predicate Searched(fields: seq<string>, search: map<string, string>)
  {
    exists i :: 0 <= i < |fields| && fields[i] in search
  }

  /** The row's value of some searchable field named by the search map matches its pattern. */
  predicate SearchHit(row: Row, fields: seq<string>, search: map<string, string>)
  {
    exists i :: 0 <= i < |fields| && fields[i] in search && Holds(TextILike(fields[i], SearchPattern(search[fields[i]])), row)
  }

  /**
   * What the search blocks do to a condition: nothing when no searchable field is
   * named; otherwise the rows selected are those the condition held for, if there
   * was one, together with every row some named field's pattern matches. The
   * search patterns never make PostgreSQL refuse the query.
   */
  lemma {:induction false} SearchWhereMeaning(where: Option<Condition>, fields: seq<string>, search: map<string, string>, row: Row)
    ensures !Searched(fields, search) ==> SearchWhere(where, fields, search) == where
    ensures Searched(fields, search) ==>
      && SearchWhere(where, fields, search).Some?
      && (Holds(SearchWhere(where, fields, search).value, row) <==> (where.Some? && Holds(where.value, row)) || SearchHit(row, fields, search))
    ensures (where.None? || PatternsAccepted(where.value)) ==>
      (SearchWhere(where, fields, search).None? || PatternsAccepted(SearchWhere(where, fields, search).value))
    decreases |fields|
  {
    if fields != [] {
      var init := fields[..|fields| - 1];
      var last := fields[|fields| - 1];
      SearchWhereMeaning(where, init, search, row);
      assert forall i :: 0 <= i < |init| ==> init[i] == fields[i];
      if last in search {
        SearchPatternAccepted(search[last]);
      }
      assert Searched(fields, search) <==> Searched(init, search) || last in search;
      assert SearchHit(row, fields, search) <==>
        SearchHit(row, init, search) || (last in search && Holds(TextILike(last, SearchPattern(search[last])), row));
    }
  }

  /**
   * `apply the search blocks`: the generated `if let Some(search_query) = ...` blocks,
   * one per searchable field in field order, each reassigning the query's condition.
   */
  method ApplySearch(where0: Option<Condition>, fields: seq<string>, search: map<string, string>)
    returns (where: Option<Condition>)
    ensures where == SearchWhere(where0, fields, search)
  {
    where := where0;
    for i := 0 to |fields|
      invariant where == SearchWhere(where0, fields[..i], search)
    {
      assert fields[..i + 1][..i] == fields[..i];
      if fields[i] in search {
        where := OrWhere(where, TextILike(fields[i], SearchPattern(search[fields[i]])));
      }
    }
    assert fields[..|fields|] == fields;
  }

  /**
   * The query `resolve_multiple` hands to `modify_query`: `id = ANY(ids)` when ids
   * are given, every row otherwise, `LIMIT` 10 and `OFFSET` 0 unless given, then the
   * search blocks over the model's searchable fields.
   */
  function MultipleQuery(e: Entity, ids: Option<seq<Key>>, limit: Option<i32>, offset: Option<i32>,
                         search: Option<map<string, string>>): Query
  {
    var base := if ids.Some? then Some(IdIn(ids.value)) else None;
    Query(e.schema, if search.Some? then SearchWhere(base, e.searchable, search.value) else base,
          Some(limit.UnwrapOr(10) as int), Some(offset.UnwrapOr(0) as int))
  }

  /**
   * Which rows `resolve_multiple`'s query selects before `LIMIT`/`OFFSET`: without a
   * search that names a searchable field, the rows whose id is listed (every row
   * when no ids are given); with one, the rows whose id is listed OR whose named
   * fields match, so that the search widens an id list and narrows an unfiltered
   * query. Its patterns are always accepted.
   */
  lemma MultipleQuerySelects(e: Entity, ids: Option<seq<Key>>, limit: Option<i32>, offset: Option<i32>,
                             search: Option<map<string, string>>, row: Row)
    ensures var q := MultipleQuery(e, ids, limit, offset, search);
      && q.schema == e.schema
      && q.limit == Some(if limit.Some? then limit.value as int else 10)
      && q.offset == Some(if offset.Some? then offset.value as int else 0)
      && (q.where.None? || PatternsAccepted(q.where.value))
    ensures search.None? || !Searched(e.searchable, search.value) ==>
      (Selects(MultipleQuery(e, ids, limit, offset, search).where, row) <==> ids.None? || row.id in ids.value)
    ensures search.Some? && Searched(e.searchable, search.value) ==>
      (Selects(MultipleQuery(e, ids, limit, offset, search).where, row) <==>
         (ids.Some? && row.id in ids.value) || SearchHit(row, e.searchable, search.value))
  {
    var base := if ids.Some? then Some(IdIn(ids.value)) else None;
    if search.Some? {
      SearchWhereMeaning(base, e.searchable, search.value, row);
    }
  }

  /**
   * With a search value free of `%`, `_` and `\`, a field matches exactly when it
   * contains the value, ignoring ASCII case.
   */
  lemma SearchHitIsSubstring(row: Row, field: string, q: string)
    requires NoWildcards(q)
    ensures Holds(TextILike(field, SearchPattern(q)), row) <==>
      field in row.texts && Contains(LowerAll(row.texts[field]), LowerAll(q))
  {
    if field in row.texts {
      SearchIsCaseInsensitiveSubstring(row.texts[field], q);
    }
  }

  /** The plural field of a model without `all = true` selects exactly the listed ids. */
  lemma PluralWithoutAllFiltersByIds(e: Entity, args: map<string, AttributeToken>, ids: Option<seq<Key>>,
                                     limit: Option<i32>, offset: Option<i32>, search: Option<map<string, string>>)
    requires !CanFetchAll(args) && ids.Some?
    ensures var a := PluralArguments(args, ids, search);
      MultipleQuery(e, a.0, limit, offset, a.1).where == Some(IdIn(ids.value))
  {
  }

  /**
   * What `resolve_multiple` does with the query `q` it built: a `modify_query`
   * error is returned as it is and nothing is loaded; otherwise one `load`, whose
   * error becomes a field error; otherwise one `preload_children` over the whole
   * loaded list, whose error becomes a field error; otherwise the objects of the
   * loaded rows in load order, each preloaded as `Preloaded` says.
   */
  ghost predicate Answered(models: Models, answer: Answers, model: string, q: Query, modifier: QueryModifier,
                           log0: seq<Query>, log: seq<Query>, look: Selection, r: Result<seq<Node>, FieldError>)
    reads if r.Success? then set n | n in r.value else {}
  {
    match modifier(q)
    case Failure(e) => r == Failure(e) && log == log0
    case Success(m) =>
      match answer(m)
      case Failure(e) => log == log0 + [m] && r == Failure(FieldError(Describe(e)))
      case Success(rows) =>
        var t := Preload(models, answer, model, rows, look);
        && log == log0 + ([m] + t.requests)
        && (t.error.Some? ==> r == Failure(FieldError(Describe(t.error.value))))
        && (t.error.None? ==>
              && r.Success? && RowsOf(r.value) == rows
              && forall n :: n in r.value ==>
                   Preloaded(n.row, n.poisoned, EdgesOf(models, model), 0, t.steps, n.one, n.many, map[], map[]))
  }

  /**
   * A load that finds no rows ends the request: `preload_children` over the empty
   * list sends nothing, and the answer is the empty list.
   */
  lemma EmptyLoadAnswersEmpty(models: Models, answer: Answers, model: string, q: Query, modifier: QueryModifier,
                              log0: seq<Query>, log: seq<Query>, look: Selection, r: Result<seq<Node>, FieldError>)
    requires Answered(models, answer, model, q, modifier, log0, log, look, r)
    requires modifier(q).Success? && answer(modifier(q).value) == Success([])
    ensures log == log0 + [modifier(q).value] && r == Success([])
  {
    EmptyBatch(models, answer, EdgesOf(models, model), 0, look);
    assert [modifier(q).value] + [] == [modifier(q).value];
  }

  /**
   * `resolve_multiple` of `model`: builds the query, applies the search blocks when
   * a search map is given, and answers as `Answered` says with fresh objects.
   */
  method ResolveMultiple(models: Models, db: Database, model: string, ids: Option<seq<Key>>, limit: Option<i32>,
                         offset: Option<i32>, search: Option<map<string, string>>, modifier: QueryModifier, look: Selection)
    returns (r: Result<seq<Node>, FieldError>)
    requires Registry.Valid(models) && model in models
    modifies db
    ensures Answered(models, db.answer, model, MultipleQuery(models[model], ids, limit, offset, search), modifier,
                     old(db.log), db.log, look, r)
    ensures r.Success? ==> forall n :: n in r.value ==> fresh(n) && n.model == model && n.poisoned == {}
  {
    var e := models[model];
    var where := if ids.Some? then Some(IdIn(ids.value)) else None;
    if search.Some? {
      where := ApplySearch(where, e.searchable, search.value);
    }
    var q := Query(e.schema, where, Some(limit.UnwrapOr(10) as int), Some(offset.UnwrapOr(0) as int));
    assert q == MultipleQuery(e, ids, limit, offset, search);
    var modified := modifier(q);
    if modified.Failure? {
      return Failure(modified.error);
    }
    var loaded := db.Load(modified.value);
    if loaded.Failure? {
      return Failure(FieldError(Describe(loaded.error)));
    }
    var nodes := MakeNodes(model, loaded.value);
    var err := PreloadChildren(models, db, model, nodes, look);
    Associative(old(db.log), [modified.value], Preload(models, db.answer, model, loaded.value, look).requests);
    if err.Some? {
      return Failure(FieldError(Describe(err.value)));
    }
    r := Success(nodes);
  }

  /**
   * `resolve_single`: the row with the given id through `modify_query` (whose error
   * is returned as it is, with nothing fetched), then one `get_result`, whose error
   * becomes a field error; the object is fresh and nothing is preloaded.
   */
  method ResolveSingle(db: Database, model: string, schema: string, id: Key, modifier: QueryModifier)
    returns (r: Result<Node, FieldError>)
    modifies db
    ensures var q := SingleQuery(schema, id);
      && (modifier(q).Failure? ==> r == Failure(modifier(q).error) && db.log == old(db.log))
      && (modifier(q).Success? ==>
            var a := FirstOf(db.answer(modifier(q).value));
            && db.log == old(db.log) + [modifier(q).value]
            && (a.Failure? ==> r == Failure(FieldError(Describe(a.error))))
            && (a.Success? ==> r.Success? && r.value.row == a.value))
    ensures r.Success? ==>
      && fresh(r.value) && r.value.model == model
      && r.value.one == map[] && r.value.many == map[] && r.value.poisoned == {}
  {
    var modified := modifier(SingleQuery(schema, id));
    if modified.Failure? {
      return Failure(modified.error);
    }
    var got := db.GetResult(modified.value);
    if got.Failure? {
      return Failure(FieldError(Describe(got.error)));
    }
    var n := new Node(model, got.value);
    r := Success(n);
  }

  /**
   * An example of the search widening an id list: asking for book 1 with a title
   * search that only book 2 matches returns both.
   */
  const Book1 := Row(1, map[], map["title" := "Dune"])
  const Book2 := Row(2, map[], map["title" := "Emma"])
  const Books := Entity("books", [], ["title"])
  const TitleSearch := map["title" := "MM"]

  lemma LowerTitles()
    ensures LowerAll("Emma") == "emma" && LowerAll("MM") == "mm"
  {
    assert LowerAll("a") == "a";
    assert LowerAll("ma") == "ma";
    assert LowerAll("M") == "m";
  }

  lemma EmmaMatches()
    ensures Holds(TextILike("title", SearchPattern("MM")), Book2)
  {
    LowerTitles();
    assert OccursAt("emma", "mm", 1);
    SearchHitIsSubstring(Book2, "title", "MM");
  }

  lemma SearchWidensIds()
    ensures var q := MultipleQuery(Books, Some([1]), None, None, Some(TitleSearch));
      Selects(q.where, Book1) && Selects(q.where, Book2)
  {
    MultipleQuerySelects(Books, Some([1]), None, None, Some(TitleSearch), Book2);
    MultipleQuerySelects(Books, Some([1]), None, None, Some(TitleSearch), Book1);
    assert Searched(Books.searchable, TitleSearch) by { assert Books.searchable[0] in TitleSearch; }
    EmmaMatches();
    assert SearchHit(Book2, Books.searchable, TitleSearch) by { assert Books.searchable[0] == "title"; }
  }
}
