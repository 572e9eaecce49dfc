/**
 * The models the macros were applied to, as the generated code sees them: each
 * model's table and its relation fields (edges), in struct field order, and the
 * `String` fields that `resolve_multiple` can search. `EntityFromFields` derives
 * this from a struct's fields the way the object macros do.
 */
module Registry {
  import opened Wrappers
  import opened Syn

  /**
   * A relation field. `HasOne<Id, schema, Model>`: the parent row stores the key
   * of one `Model` row in `field`. `HasMany<schema, foreign_key, Model>`: the rows of
   * `Model` whose `foreignKey` column holds the parent's id.
   */
  datatype Edge =
    | HasOneEdge(field: string, schema: string, model: string)
    | HasManyEdge(field: string, schema: string, foreignKey: string, model: string)

  datatype Entity = Entity(schema: string, edges: seq<Edge>, searchable: seq<string>)

  /** Every model by name. */
  type Models = map<string, Entity>

  /** Edges `i` and `j` exist and relate different fields. */
  predicate FieldsDiffer(edges: seq<Edge>, i: int, j: int)
  {
    0 <= i < |edges| && 0 <= j < |edges| && edges[i].field != edges[j].field
  }

  /** Struct fields have distinct names, so distinct edges have distinct fields. */
  predicate DistinctFields(edges: seq<Edge>)
  {
    forall i, j :: 0 <= i < j < |edges| ==> FieldsDiffer(edges, i, j)
  }

  predicate Valid(models: Models)
  {
    forall m :: m in models ==> DistinctFields(models[m].edges)
  }

  /** The relation edges of a model; a name without a model has none. */
  function EdgesOf(models: Models, model: string): seq<Edge>
  {
    if model in models then models[model].edges else []
  }

  /** A named struct field and its declared type. */
  datatype StructField = StructField(name: string, ty: SynType)

  /** `Path::get_ident`: a path of one segment without arguments, as that identifier. */
  function GetIdent(p: Path): (r: Option<string>)
    ensures r.Some? <==> |p| == 1 && p[0].arguments.NoArguments?
    ensures r.Some? ==> r.value == p[0].ident
  {
    if |p| == 1 && p[0].arguments.NoArguments? then Some(p[0].ident) else None
  }

  /** The table a schema path names: its last segment (`crate::schema::posts` is `posts`). */
  function TableName(p: Path): string
  {
    if p == [] then "" else p[|p| - 1].ident
  }

  /** The relation of every field, in order; the first field whose type panics decides. */
  function ClassifyFields(fields: seq<StructField>): (r: Result<seq<Relationship>, Panic>)
    ensures r.Success? ==> |r.value| == |fields|
    ensures r.Success? ==> forall i :: 0 <= i < |fields| ==> Classify(fields[i].ty) == Success(r.value[i])
    ensures r.Failure? ==> exists i :: 0 <= i < |fields| && Classify(fields[i].ty) == Failure(r.error)
  {
    if fields == [] then Success([])
    else
      var first :- Classify(fields[0].ty);
      var rest :- ClassifyFields(fields[1..]);
      Success([first] + rest)
  }

  /**
   * The edge a classified field contributes, if it is a relation: its kind, the
   * table named by the last segment of the schema path, for HasMany the last
   * segment of the foreign-key path, and the model, whose path must be one
   * identifier (`get_ident().unwrap()`).
   */
  function EdgeOf(name: string, rel: Relationship): (r: Result<Option<Edge>, Panic>)
    ensures rel.Field? ==> r == Success(None)
    ensures !rel.Field? ==> (r.Success? <==> GetIdent(rel.model).Some? && (rel.HasMany? ==> rel.foreignKey != []))
    ensures rel.HasOne? && r.Success? ==>
      r.value == Some(HasOneEdge(name, TableName(rel.schema), GetIdent(rel.model).value))
    ensures rel.HasMany? && r.Success? ==>
      r.value == Some(HasManyEdge(name, TableName(rel.schema), rel.foreignKey[|rel.foreignKey| - 1].ident,
                                  GetIdent(rel.model).value))
    ensures r.Failure? ==> r.error == UnwrapNone
  {
    match rel
    case Field => Success(None)
    case HasOne(_, schema, model) =>
      if GetIdent(model).None? then Failure(UnwrapNone)
      else Success(Some(HasOneEdge(name, TableName(schema), GetIdent(model).value)))
    case HasMany(schema, foreignKey, model) =>
      if GetIdent(model).None? || foreignKey == [] then Failure(UnwrapNone)
      else Success(Some(HasManyEdge(name, TableName(schema), foreignKey[|foreignKey| - 1].ident, GetIdent(model).value)))
  }

  /** The positions, from `from` on, of the relation fields (not the plain ones), in increasing order. */
  function RelationIndices(rels: seq<Relationship>, from: nat): (r: seq<nat>)
    requires from <= |rels|
    ensures forall k :: 0 <= k < |r| ==> from <= r[k] < |rels| && !rels[r[k]].Field?
    ensures forall i {:trigger i in r} :: from <= i < |rels| && !rels[i].Field? ==> i in r
    ensures forall k, l :: 0 <= k < l < |r| ==> r[k] < r[l]
    decreases |rels| - from
  {
    if from == |rels| then []
    else
      var rest := RelationIndices(rels, from + 1);
      if rels[from].Field? then rest else [from] + rest
  }

  /**
   * The edges of a struct's fields from `from` on: the first field whose edge
   * panics decides; otherwise one edge per relation field, its `EdgeOf` edge, in
   * field order.
   */
  function EdgesFrom(fields: seq<StructField>, rels: seq<Relationship>, from: nat): (r: Result<seq<Edge>, Panic>)
    requires |rels| == |fields| && from <= |fields|
    ensures r.Success? <==> forall i :: from <= i < |fields| ==> EdgeOf(fields[i].name, rels[i]).Success?
    ensures r.Failure? ==> r.error == UnwrapNone
    ensures r.Success? ==>
      var idx := RelationIndices(rels, from);
      |r.value| == |idx| && forall k :: 0 <= k < |idx| ==> EdgeOf(fields[idx[k]].name, rels[idx[k]]) == Success(Some(r.value[k]))
    decreases |fields| - from
  {
    if from == |fields| then Success([])
    else
      var e := EdgeOf(fields[from].name, rels[from]);
      var rest := EdgesFrom(fields, rels, from + 1);
      if e.Failure? then Failure(e.error)
      else if rest.Failure? then Failure(rest.error)
      else
        EdgesFromStep(fields, rels, from, e.value, rest.value);
        Success(if e.value.Some? then [e.value.value] + rest.value else rest.value)
  }

  /** Putting field `from`'s edge, if any, before the edges after it follows the relation positions. */
  lemma EdgesFromStep(fields: seq<StructField>, rels: seq<Relationship>, from: nat, e: Option<Edge>, rest: seq<Edge>)
    requires |rels| == |fields| && from < |fields|
    requires EdgeOf(fields[from].name, rels[from]) == Success(e)
    requires var idx := RelationIndices(rels, from + 1);
      |rest| == |idx| && forall k :: 0 <= k < |idx| ==> EdgeOf(fields[idx[k]].name, rels[idx[k]]) == Success(Some(rest[k]))
    ensures var out := if e.Some? then [e.value] + rest else rest;
      var idx := RelationIndices(rels, from);
      |out| == |idx| && forall k :: 0 <= k < |idx| ==> EdgeOf(fields[idx[k]].name, rels[idx[k]]) == Success(Some(out[k]))
  {
    var tail := RelationIndices(rels, from + 1);
    if rels[from].Field? {
      assert RelationIndices(rels, from) == tail;
    } else {
      var idx := RelationIndices(rels, from);
      var out := [e.value] + rest;
      assert idx == [from] + tail;
      forall k | 1 <= k < |idx|
        ensures EdgeOf(fields[idx[k]].name, rels[idx[k]]) == Success(Some(out[k]))
      {
        assert idx[k] == tail[k - 1] && out[k] == rest[k - 1];
      }
    }
  }

  /** A plain field whose type path starts with `String` can be searched. */
  predicate Searchable(f: StructField, rel: Relationship)
  {
    rel.Field? && f.ty.PathType? && f.ty.segments != [] && f.ty.segments[0].ident == "String"
  }

  function SearchableFrom(fields: seq<StructField>, rels: seq<Relationship>): (r: seq<string>)
    requires |rels| == |fields|
    ensures forall x :: x in r <==> exists i :: 0 <= i < |fields| && Searchable(fields[i], rels[i]) && fields[i].name == x
  {
    if fields == [] then []
    else
      var rest := SearchableFrom(fields[1..], rels[1..]);
      assert forall i :: 1 <= i < |fields| ==> fields[1..][i - 1] == fields[i] && rels[1..][i - 1] == rels[i];
      if Searchable(fields[0], rels[0]) then [fields[0].name] + rest else rest
  }

  /** `Vec::<&Type>::new()[0]`: a model without an `id` field. */
  const NoIdField: Panic := Panic("index out of bounds: the len is 0 but the index is 0")

  /**
   * What `botanist_object` learns from a struct: it looks up the type of `id`
   * (and panics without one), classifies every field (the first bad relation type
   * panics), and names each relation's model by its path, which must be a single
   * identifier.
   */
  function EntityFromFields(schema: string, fields: seq<StructField>): (r: Result<Entity, Panic>)
    ensures (forall i :: 0 <= i < |fields| ==> fields[i].name != "id") ==> r == Failure(NoIdField)
    ensures r.Success? ==> r.value.schema == schema
    ensures r.Success? ==>
      && ClassifyFields(fields).Success?
      && var rels := ClassifyFields(fields).value;
         var idx := RelationIndices(rels, 0);
         && |r.value.edges| == |idx|
         && forall k :: 0 <= k < |idx| ==> EdgeOf(fields[idx[k]].name, rels[idx[k]]) == Success(Some(r.value.edges[k]))
    ensures r.Success? ==> forall x :: x in r.value.searchable <==>
      exists i :: 0 <= i < |fields| && fields[i].name == x && Classify(fields[i].ty) == Success(Field)
                  && fields[i].ty.PathType? && fields[i].ty.segments != [] && fields[i].ty.segments[0].ident == "String"
  {
    if forall i :: 0 <= i < |fields| ==> fields[i].name != "id" then Failure(NoIdField)
    else
      var rels :- ClassifyFields(fields);
      var edges :- EdgesFrom(fields, rels, 0);
      Success(Entity(schema, edges, SearchableFrom(fields, rels)))
  }
}
