/**
 * The slice of `syn`'s syntax tree that the macros inspect: types written as paths
 * with generic arguments, and the attributes on a struct. `Classify` is what
 * `type_relationship` computes in both crates (botanist_codegen/src/common.rs and
 * gin_codegen/src/common.rs); the crates' own loops are proved against it.
 */
module Syn {
  import opened Wrappers

  datatype SynType = PathType(segments: seq<PathSegment>) | OtherType

  datatype PathSegment = PathSegment(ident: string, arguments: PathArguments)

  datatype PathArguments =
    | NoArguments
    | AngleBracketed(args: seq<GenericArgument>)
    | Parenthesized

  /** A generic argument: a type, or anything else (a lifetime, a constant, a binding). */
  datatype GenericArgument = TypeArgument(ty: SynType) | OtherArgument

  type Path = seq<PathSegment>

  /** `TypeRelationship`: a plain field, or a relation with its three type parameters. */
  datatype Relationship =
    | HasMany(schema: Path, foreignKey: Path, model: Path)
    | HasOne(idType: Path, schema: Path, model: Path)
    | Field

  /** `IterationTypeRelationship`: the marker seen so far while walking the segments. */
  datatype Marker = Unmarked | HasOneMarker | HasManyMarker

  /** A literal in an attribute; only string literals matter to the macros. */
  datatype Lit = StrLit(value: string) | IntLit(digits: string) | OtherLit

  datatype Meta = NameValue(lit: Lit) | ListMeta | PathMeta

  /**
   * An outer attribute: `ident` is the attribute's path when that path is a single
   * identifier (`is_ident`), `meta` the result of `parse_meta` (None when it fails).
   */
  datatype Attribute = Attribute(ident: Option<string>, meta: Option<Meta>)

  const OutOfBounds: Panic := Panic("generic argument index out of bounds")

  /** The marker after looking at one segment: `HasOne` then `HasMany` are compared, in that order. */
  function NextMarker(seg: PathSegment, m: Marker): Marker
  {
    var afterOne := if seg.ident == "HasOne" then HasOneMarker else m;
    if seg.ident == "HasMany" then HasManyMarker else afterOne
  }

  /** The generic arguments as paths; the first one that is not a path type panics with `message`. */
  function GenericPaths(args: seq<GenericArgument>, message: string): (r: Result<seq<Path>, Panic>)
    ensures r.Success? <==> forall i :: 0 <= i < |args| ==> args[i].TypeArgument? && args[i].ty.PathType?
    ensures r.Failure? ==> r.error == Panic(message)
    ensures r.Success? ==> |r.value| == |args| && forall i :: 0 <= i < |args| ==> r.value[i] == args[i].ty.segments
  {
    if args == [] then Success([])
    else if args[0].TypeArgument? && args[0].ty.PathType? then
      var rest :- GenericPaths(args[1..], message);
      Success([args[0].ty.segments] + rest)
    else Failure(Panic(message))
  }

  /** The relation named by the marker, built from the angle-bracketed arguments that end the walk. */
  function Resolve(m: Marker, args: seq<GenericArgument>): Result<Relationship, Panic>
  {
    match m
    case Unmarked => Success(Field)
    case HasOneMarker =>
      var g :- GenericPaths(args, "Invalid path in HasOne!");
      if |g| < 3 then Failure(OutOfBounds) else Success(HasOne(g[0], g[1], g[2]))
    case HasManyMarker =>
      var g :- GenericPaths(args, "Invalid path in HasMany!");
      if |g| < 3 then Failure(OutOfBounds) else Success(HasMany(g[0], g[1], g[2]))
  }

  /** The walk from segment `i` on, with marker `m`; the first angle-bracketed segment decides. */
  function ClassifyFrom(segs: seq<PathSegment>, i: nat, m: Marker): Result<Relationship, Panic>
    requires i <= |segs|
    decreases |segs| - i
  {
    if i == |segs| then Success(Field)
    else
      var m' := NextMarker(segs[i], m);
      if segs[i].arguments.AngleBracketed? then Resolve(m', segs[i].arguments.args)
      else ClassifyFrom(segs, i + 1, m')
  }

  /** `type_relationship` of a field type. */
  function Classify(ty: SynType): Result<Relationship, Panic>
  {
    if ty.PathType? then ClassifyFrom(ty.segments, 0, Unmarked) else Success(Field)
  }

  /**
   * `attrs.iter().filter(|a| a.path.is_ident(name)).last()`: the last attribute
   * called `name`, if any.
   */
  function LastNamed(attrs: seq<Attribute>, name: string): (r: Option<Attribute>)
    ensures r.None? <==> forall i :: 0 <= i < |attrs| ==> attrs[i].ident != Some(name)
    ensures r.Some? ==> exists k :: 0 <= k < |attrs| && attrs[k] == r.value && attrs[k].ident == Some(name)
                                     && forall j :: k < j < |attrs| ==> attrs[j].ident != Some(name)
  {
    if attrs == [] then None
    else if attrs[|attrs| - 1].ident == Some(name) then Some(attrs[|attrs| - 1])
    else
      var r := LastNamed(attrs[..|attrs| - 1], name);
      LastNamedInit(attrs, name, r);
      r
  }

  /** The last attribute called `name` when the final attribute is called something else is that of the others. */
  lemma LastNamedInit(attrs: seq<Attribute>, name: string, r: Option<Attribute>)
    requires attrs != [] && attrs[|attrs| - 1].ident != Some(name)
    requires var init := attrs[..|attrs| - 1];
      && (r.None? <==> forall i :: 0 <= i < |init| ==> init[i].ident != Some(name))
      && (r.Some? ==> exists k :: 0 <= k < |init| && init[k] == r.value && init[k].ident == Some(name)
                                   && forall j :: k < j < |init| ==> init[j].ident != Some(name))
    ensures r.None? <==> forall i :: 0 <= i < |attrs| ==> attrs[i].ident != Some(name)
    ensures r.Some? ==> exists k :: 0 <= k < |attrs| && attrs[k] == r.value && attrs[k].ident == Some(name)
                                    && forall j :: k < j < |attrs| ==> attrs[j].ident != Some(name)
  {
    var n := |attrs| - 1;
    var init := attrs[..n];
    assert forall i :: 0 <= i < n ==> init[i] == attrs[i];
    if r.Some? {
      var k :| 0 <= k < |init| && init[k] == r.value && init[k].ident == Some(name)
               && forall j :: k < j < |init| ==> init[j].ident != Some(name);
      assert attrs[k] == r.value;
    }
  }

  /** A type that is not a path (a reference, a tuple, ...) is a plain field. */
  lemma NonPathIsField(ty: SynType)
    requires !ty.PathType?
    ensures Classify(ty) == Success(Field)
  {
  }

  /** A path without any angle-bracketed segment is a plain field, whatever its segments are called. */
  lemma {:induction false} NoGenericsIsField(segs: seq<PathSegment>, i: nat, m: Marker)
    requires i <= |segs|
    requires forall j :: i <= j < |segs| ==> !segs[j].arguments.AngleBracketed?
    ensures ClassifyFrom(segs, i, m) == Success(Field)
    decreases |segs| - i
  {
    if i < |segs| {
      NoGenericsIsField(segs, i + 1, NextMarker(segs[i], m));
    }
  }

  /**
   * Only the segments up to the first angle-bracketed one count: walking from `i`
   * to that segment `k` resolves its arguments with the last marker seen on the way.
   */
  lemma {:induction false} FirstGenericDecides(segs: seq<PathSegment>, i: nat, k: nat, m: Marker)
    requires i <= k < |segs|
    requires forall j :: i <= j < k ==> !segs[j].arguments.AngleBracketed?
    requires segs[k].arguments.AngleBracketed?
    ensures ClassifyFrom(segs, i, m) == Resolve(MarkerAt(segs, i, k, m), segs[k].arguments.args)
    decreases k - i
  {
    if i < k {
      FirstGenericDecides(segs, i + 1, k, NextMarker(segs[i], m));
    }
  }

  /** The marker after walking segments `i` to `k`, both included. */
  function MarkerAt(segs: seq<PathSegment>, i: nat, k: nat, m: Marker): Marker
    requires i <= k < |segs|
    decreases k - i
  {
    if i == k then NextMarker(segs[k], m) else MarkerAt(segs, i + 1, k, NextMarker(segs[i], m))
  }

  lemma {:induction false} UnmarkedStaysUnmarked(segs: seq<PathSegment>, i: nat, k: nat)
    requires i <= k < |segs|
    requires forall j :: i <= j <= k ==> segs[j].ident != "HasOne" && segs[j].ident != "HasMany"
    ensures MarkerAt(segs, i, k, Unmarked) == Unmarked
    decreases k - i
  {
    if i < k {
      UnmarkedStaysUnmarked(segs, i + 1, k);
    }
  }

  /**
   * When the walk reaches the first angle-bracketed segment without having seen a
   * segment called `HasOne` or `HasMany`, the type is a plain field (`Option<T>`, `Vec<T>`).
   */
  lemma UnmarkedGenericIsField(segs: seq<PathSegment>, k: nat)
    requires k < |segs|
    requires forall j :: 0 <= j < k ==> !segs[j].arguments.AngleBracketed?
    requires segs[k].arguments.AngleBracketed?
    requires forall j :: 0 <= j <= k ==> segs[j].ident != "HasOne" && segs[j].ident != "HasMany"
    ensures Classify(PathType(segs)) == Success(Field)
  {
    FirstGenericDecides(segs, 0, k, Unmarked);
    UnmarkedStaysUnmarked(segs, 0, k);
  }

  /**
   * `HasOne<A, B, C>` (possibly behind a module path such as `botanist::HasOne`)
   * gives the id type A, the schema B and the model C; further arguments are ignored.
   */
  lemma HasOneArguments(segs: seq<PathSegment>, k: nat)
    requires k < |segs|
    requires forall j :: 0 <= j < k ==> !segs[j].arguments.AngleBracketed?
    requires segs[k].ident == "HasOne" && segs[k].arguments.AngleBracketed?
    requires var args := segs[k].arguments.args;
      |args| >= 3 && forall i :: 0 <= i < |args| ==> args[i].TypeArgument? && args[i].ty.PathType?
    ensures var args := segs[k].arguments.args;
      Classify(PathType(segs)) == Success(HasOne(args[0].ty.segments, args[1].ty.segments, args[2].ty.segments))
  {
    FirstGenericDecides(segs, 0, k, Unmarked);
    MarkerAtLast(segs, 0, k, Unmarked);
  }

  /** `HasMany<A, B, C>` gives the schema A, the foreign-key column B and the model C. */
  lemma HasManyArguments(segs: seq<PathSegment>, k: nat)
    requires k < |segs|
    requires forall j :: 0 <= j < k ==> !segs[j].arguments.AngleBracketed?
    requires segs[k].ident == "HasMany" && segs[k].arguments.AngleBracketed?
    requires var args := segs[k].arguments.args;
      |args| >= 3 && forall i :: 0 <= i < |args| ==> args[i].TypeArgument? && args[i].ty.PathType?
    ensures var args := segs[k].arguments.args;
      Classify(PathType(segs)) == Success(HasMany(args[0].ty.segments, args[1].ty.segments, args[2].ty.segments))
  {
    FirstGenericDecides(segs, 0, k, Unmarked);
    MarkerAtLast(segs, 0, k, Unmarked);
  }

  /** A relation marker whose generic arguments include a non-path type panics. */
  lemma RelationWithNonPathArgumentPanics(segs: seq<PathSegment>, k: nat, bad: nat)
    requires k < |segs|
    requires forall j :: 0 <= j < k ==> !segs[j].arguments.AngleBracketed?
    requires segs[k].ident in ["HasOne", "HasMany"] && segs[k].arguments.AngleBracketed?
    requires var args := segs[k].arguments.args;
      bad < |args| && !(args[bad].TypeArgument? && args[bad].ty.PathType?)
    ensures Classify(PathType(segs)).Failure?
  {
    FirstGenericDecides(segs, 0, k, Unmarked);
    MarkerAtLast(segs, 0, k, Unmarked);
  }

  /** A relation marker with fewer than three generic arguments panics. */
  lemma RelationWithTooFewArgumentsPanics(segs: seq<PathSegment>, k: nat)
    requires k < |segs|
    requires forall j :: 0 <= j < k ==> !segs[j].arguments.AngleBracketed?
    requires segs[k].ident in ["HasOne", "HasMany"] && segs[k].arguments.AngleBracketed?
    requires |segs[k].arguments.args| < 3
    ensures Classify(PathType(segs)).Failure?
  {
    FirstGenericDecides(segs, 0, k, Unmarked);
    MarkerAtLast(segs, 0, k, Unmarked);
  }

  /** The segment that ends the walk has the last word on the marker when it is itself named. */
  lemma {:induction false} MarkerAtLast(segs: seq<PathSegment>, i: nat, k: nat, m: Marker)
    requires i <= k < |segs|
    ensures segs[k].ident == "HasOne" ==> MarkerAt(segs, i, k, m) == HasOneMarker
    ensures segs[k].ident == "HasMany" ==> MarkerAt(segs, i, k, m) == HasManyMarker
    decreases k - i
  {
    if i < k {
      MarkerAtLast(segs, i + 1, k, NextMarker(segs[i], m));
    }
  }
}
