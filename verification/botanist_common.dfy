/**
 * The helpers of botanist_codegen/src/common.rs other than the attribute parser:
 * `type_relationship`, `preload_field`, `gql_struct`, `schema_from_struct` and
 * `lower_first`.
 */
module BotanistCommon {
  import opened Wrappers
  import opened Ascii
  import opened Syn

  /**
   * `lower_first`: the first character lower-cased, the rest kept. The Rust code
   * slices `input[1..]`, which panics on the empty string.
   */
  function LowerFirst(s: string): (r: Result<string, Panic>)
    ensures s == [] <==> r.Failure?
    ensures r.Success? ==> |r.value| == |s| && r.value[0] == ToLower(s[0]) && r.value[1..] == s[1..]
  {
    if s == [] then Failure(Panic("byte index 1 is out of range of ``"))
    else Success([ToLower(s[0])] + s[1..])
  }

  /** `preload_field`: the name of the slot that caches a relation field. */
  function PreloadField(field: string): (r: string)
    ensures |r| == |field| + 10 && r[..|field|] == field && r[|field|..] == "_preloaded"
  {
    field + "_preloaded"
  }

  /** `gql_struct`: the name of the GraphQL object generated for a model. */
  function GqlStruct(model: string): (r: string)
    ensures |r| == |model| + 3 && r[..|model|] == model && r[|model|..] == "GQL"
  {
    model + "GQL"
  }

  /** Distinct fields get distinct slots, so one relation never overwrites another's cache. */
  lemma PreloadFieldInjective(a: string, b: string)
    requires PreloadField(a) == PreloadField(b)
    ensures a == b
  {
    assert |a| == |b|;
    assert a == PreloadField(a)[..|a|];
  }

  /**
   * `type_relationship`: walk the path segments with a mutable marker; the first
   * angle-bracketed segment ends the walk. Its generic arguments are collected as
   * paths, then `remove(2)`, `remove(1)`, `remove(0)` pick the model, the middle
   * parameter and the first one (the removals panic when there are fewer than three).
   */
  method TypeRelationship(ty: SynType) returns (r: Result<Relationship, Panic>)
    ensures r == Classify(ty)
  {
    var relation := Unmarked;
    if ty.PathType? {
      var segs := ty.segments;
      var i := 0;
      while i < |segs|
        invariant 0 <= i <= |segs|
        invariant ClassifyFrom(segs, i, relation) == Classify(ty)
      {
        var seg := segs[i];
        if seg.ident == "HasOne" {
          relation := HasOneMarker;
        }
        if seg.ident == "HasMany" {
          relation := HasManyMarker;
        }
        if seg.arguments.AngleBracketed? {
          match relation
          case Unmarked =>
            return Success(Field);
          case HasOneMarker =>
            var generics :- GenericPaths(seg.arguments.args, "Invalid path in HasOne!");
            if |generics| < 3 {
              return Failure(OutOfBounds);
            }
            var model := generics[2];
            generics := generics[..2] + generics[3..];
            var schema := generics[1];
            generics := generics[..1] + generics[2..];
            var idType := generics[0];
            return Success(HasOne(idType, schema, model));
          case HasManyMarker =>
            var generics :- GenericPaths(seg.arguments.args, "Invalid path in HasMany!");
            if |generics| < 3 {
              return Failure(OutOfBounds);
            }
            var model := generics[2];
            generics := generics[..2] + generics[3..];
            var foreignKey := generics[1];
            generics := generics[..1] + generics[2..];
            var schema := generics[0];
            return Success(HasMany(schema, foreignKey, model));
        }
        i := i + 1;
      }
    }
    return Success(Field);
  }

  /**
   * `schema_from_struct`: the value of the last `table_name` attribute as an
   * identifier; None when that attribute is not `name = "string"`. No such
   * attribute panics (`unwrap`), and so does a string that is not an identifier
   * (`Ident::new`).
   */
  function SchemaFromStruct(attrs: seq<Attribute>): (r: Result<Option<string>, Panic>)
    ensures LastNamed(attrs, "table_name").None? ==> r.Failure?
    ensures LastNamed(attrs, "table_name").Some? ==>
      var meta := LastNamed(attrs, "table_name").value.meta;
      if meta.Some? && meta.value.NameValue? && meta.value.lit.StrLit? then
        var name := meta.value.lit.value;
        (IsIdent(name) ==> r == Success(Some(name))) && (!IsIdent(name) ==> r.Failure?)
      else r == Success(None)
  {
    match LastNamed(attrs, "table_name")
    case None => Failure(UnwrapNone)
    case Some(attr) =>
      match attr.meta
      case Some(NameValue(StrLit(name))) =>
        if IsIdent(name) then Success(Some(name)) else Failure(InvalidIdent)
      case _ => Success(None)
  }

  /** Only the last `table_name` attribute counts: adding a later one overrides every earlier one. */
  lemma SchemaFromLastAttribute(attrs: seq<Attribute>, name: string)
    requires IsIdent(name)
    ensures SchemaFromStruct(attrs + [Attribute(Some("table_name"), Some(NameValue(StrLit(name))))]) == Success(Some(name))
  {
  }
}
