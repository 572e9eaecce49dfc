/**
 * The helpers of gin_codegen/src/common.rs: `uppercase`, `to_camel_case`,
 * `attribute_from_struct`, `attribute_from_struct_as_ident` and gin's own copy of
 * `type_relationship`.
 */
module GinCommon {
  import opened Wrappers
  import opened Ascii
  import opened Syn

  /**
   * `uppercase`: the first character upper-cased and every later one lower-cased
   * (`chars().enumerate()` with `i == 0`). One character out per character in.
   */
  function Uppercase(t: string): (r: string)
    ensures |r| == |t|
    ensures t != [] ==> r[0] == ToUpper(t[0])
    ensures forall i :: 1 <= i < |t| ==> r[i] == ToLower(t[i])
  {
    if t == [] then [] else [ToUpper(t[0])] + LowerAll(t[1..])
  }

  /** `str::split("_")`: at least one part, empty parts kept, no part holds a separator. */
  function Split(s: string): (r: seq<string>)
    ensures |r| >= 1
    ensures forall i :: 0 <= i < |r| ==> '_' !in r[i]
  {
    if s == [] then [[]]
    else if s[0] == '_' then [[]] + Split(s[1..])
    else
      var rest := Split(s[1..]);
      [[s[0]] + rest[0]] + rest[1..]
  }

  /** The parts put back together with `_` between them. */
  function Join(parts: seq<string>): string
    requires |parts| >= 1
  {
    if |parts| == 1 then parts[0] else parts[0] + "_" + Join(parts[1..])
  }

  /** Splitting loses nothing: the parts joined by `_` give the input back. */
  lemma {:induction false} SplitJoin(s: string)
    ensures Join(Split(s)) == s
  {
    if s == [] {
    } else if s[0] == '_' {
      SplitJoin(s[1..]);
      assert Split(s) == [[]] + Split(s[1..]);
    } else {
      var rest := Split(s[1..]);
      SplitJoin(s[1..]);
      var parts := [[s[0]] + rest[0]] + rest[1..];
      assert Split(s) == parts;
      if |rest| == 1 {
        assert Join(parts) == [s[0]] + rest[0];
      } else {
        assert parts[1..] == rest[1..];
        assert Join(rest) == rest[0] + "_" + Join(rest[1..]);
        assert Join(parts) == [s[0]] + rest[0] + "_" + Join(rest[1..]);
      }
    }
  }

  /** Every part after the first, capitalised by `Uppercase`, concatenated. */
  function CapitalizedTail(parts: seq<string>): string
  {
    if parts == [] then [] else Uppercase(parts[0]) + CapitalizedTail(parts[1..])
  }

  /** `to_camel_case`: the first `_`-separated part verbatim, every later part capitalised. */
  function CamelCase(s: string): string
  {
    var parts := Split(s);
    parts[0] + CapitalizedTail(parts[1..])
  }

  /** Number of occurrences of `c` in `s`. */
  function Count(s: string, c: char): nat
  {
    if s == [] then 0 else (if s[0] == c then 1 else 0) + Count(s[1..], c)
  }

  function TotalLength(parts: seq<string>): nat
  {
    if parts == [] then 0 else |parts[0]| + TotalLength(parts[1..])
  }

  lemma {:induction false} CapitalizedTailLength(parts: seq<string>)
    ensures |CapitalizedTail(parts)| == TotalLength(parts)
  {
    if parts != [] {
      CapitalizedTailLength(parts[1..]);
    }
  }

  lemma {:induction false} CapitalizedTailNoSeparator(parts: seq<string>)
    requires forall i :: 0 <= i < |parts| ==> '_' !in parts[i]
    ensures '_' !in CapitalizedTail(parts)
  {
    if parts != [] {
      CapitalizedTailNoSeparator(parts[1..]);
      var u := Uppercase(parts[0]);
      forall i | 0 <= i < |u| ensures u[i] != '_' {
        assert parts[0][i] in parts[0];
      }
    }
  }

  lemma {:induction false} SplitLength(s: string)
    ensures |Split(s)| == Count(s, '_') + 1
    ensures TotalLength(Split(s)) == |s| - Count(s, '_')
  {
    if s != [] {
      SplitLength(s[1..]);
      var rest := Split(s[1..]);
      if s[0] == '_' {
        assert Split(s) == [[]] + rest;
        assert TotalLength([[]] + rest) == TotalLength(rest) by {
          assert ([[]] + rest)[1..] == rest;
        }
      } else {
        var parts := [[s[0]] + rest[0]] + rest[1..];
        assert Split(s) == parts;
        assert parts[1..] == rest[1..];
        assert TotalLength(rest) == |rest[0]| + TotalLength(rest[1..]);
      }
    }
  }

  /**
   * What `to_camel_case` removes is exactly the separators: the result is `_`-free
   * after the first part and as long as the input without its underscores.
   */
  lemma CamelCaseShape(s: string)
    ensures |CamelCase(s)| == |s| - Count(s, '_')
    ensures '_' !in CamelCase(s)
  {
    var parts := Split(s);
    SplitLength(s);
    CapitalizedTailLength(parts[1..]);
    CapitalizedTailNoSeparator(parts[1..]);
    assert TotalLength(parts) == |parts[0]| + TotalLength(parts[1..]);
    assert '_' !in parts[0];
  }

  /** A name without separators is its own camel case. */
  lemma CamelCaseWithoutSeparator(s: string)
    requires '_' !in s
    ensures CamelCase(s) == s
  {
    SplitJoin(s);
    SplitLength(s);
    assert Count(s, '_') == 0 by { CountZero(s, '_'); }
  }

  lemma {:induction false} CountZero(s: string, c: char)
    requires c !in s
    ensures Count(s, c) == 0
  {
    if s != [] {
      assert forall x :: x in s[1..] ==> x in s;
      CountZero(s[1..], c);
    }
  }

  lemma {:induction false} CapitalizedTailSnoc(parts: seq<string>, last: string)
    ensures CapitalizedTail(parts + [last]) == CapitalizedTail(parts) + Uppercase(last)
  {
    if parts != [] {
      assert (parts + [last])[1..] == parts[1..] + [last];
      CapitalizedTailSnoc(parts[1..], last);
    } else {
      assert CapitalizedTail([last]) == Uppercase(last) + CapitalizedTail([]);
    }
  }

  /** What the loop of `to_camel_case` has built after its first `i` parts. */
  function CamelPrefix(parts: seq<string>, i: nat): string
    requires 1 <= i <= |parts|
  {
    parts[0] + CapitalizedTail(parts[1..i])
  }

  lemma CamelPrefixStep(parts: seq<string>, i: nat)
    requires 1 <= i < |parts|
    ensures CamelPrefix(parts, i + 1) == CamelPrefix(parts, i) + Uppercase(parts[i])
  {
    assert parts[1..i + 1] == parts[1..i] + [parts[i]];
    CapitalizedTailSnoc(parts[1..i], parts[i]);
  }

  lemma CamelPrefixAll(input: string)
    ensures CamelPrefix(Split(input), |Split(input)|) == CamelCase(input)
  {
    var parts := Split(input);
    assert parts[1..|parts|] == parts[1..];
  }

  /**
   * `to_camel_case` as the Rust code runs it: walk the parts of `split("_")`
   * with a `first` flag, keep the first part and capitalise the others.
   */
  method ToCamelCase(input: string) returns (r: string)
    ensures r == CamelCase(input)
  {
    var parts := Split(input);
    var first := true;
    var i := 0;
    r := [];
    while i < |parts|
      invariant 0 <= i <= |parts|
      invariant first <==> i == 0
      invariant i > 0 ==> r == CamelPrefix(parts, i)
    {
      if first {
        first := false;
        r := parts[i];
        assert parts[1..1] == [];
      } else {
        CamelPrefixStep(parts, i);
        r := r + Uppercase(parts[i]);
      }
      i := i + 1;
    }
    CamelPrefixAll(input);
  }


  /**
   * `attribute_from_struct`: the literal of the last attribute called `name` when it
   * has the `name = literal` form, None for any other form or a meta that does not
   * parse; no attribute of that name panics (`unwrap`).
   */
  function AttributeFromStruct(attrs: seq<Attribute>, name: string): (r: Result<Option<Lit>, Panic>)
    ensures r.Failure? <==> forall i :: 0 <= i < |attrs| ==> attrs[i].ident != Some(name)
    ensures r.Success? && r.value.Some? ==>
      exists k :: 0 <= k < |attrs| && attrs[k].ident == Some(name) && attrs[k].meta == Some(NameValue(r.value.value))
                  && forall j :: k < j < |attrs| ==> attrs[j].ident != Some(name)
    ensures r.Success? && r.value.None? ==>
      var meta := LastNamed(attrs, name).value.meta;
      !(meta.Some? && meta.value.NameValue?)
  {
    match LastNamed(attrs, name)
    case None => Failure(UnwrapNone)
    case Some(attr) =>
      match attr.meta
      case Some(NameValue(lit)) => Success(Some(lit))
      case _ => Success(None)
  }

  /**
   * `attribute_from_struct_as_ident`: for a string literal, its value twice, once
   * as a string and once as an identifier (which panics unless the value is an
   * identifier); (None, None) for any other literal or form.
   */
  function AttributeFromStructAsIdent(attrs: seq<Attribute>, name: string): (r: Result<(Option<string>, Option<string>), Panic>)
    ensures AttributeFromStruct(attrs, name).Failure? ==> r.Failure?
    ensures AttributeFromStruct(attrs, name).Success? ==>
      var lit := AttributeFromStruct(attrs, name).value;
      if lit.Some? && lit.value.StrLit? then
        (IsIdent(lit.value.value) ==> r == Success((Some(lit.value.value), Some(lit.value.value))))
        && (!IsIdent(lit.value.value) ==> r.Failure?)
      else r == Success((None, None))
    ensures r.Success? ==> r.value.0 == r.value.1
  {
    var lit :- AttributeFromStruct(attrs, name);
    if lit.Some? && lit.value.StrLit? then
      var s := lit.value.value;
      if IsIdent(s) then Success((Some(s), Some(s))) else Failure(InvalidIdent)
    else Success((None, None))
  }

  /**
   * gin's `type_relationship`: the same walk as botanist's, but the relation is
   * built by indexing `generics[0]`, `[1]`, `[2]` in declaration order.
   */
  method GinTypeRelationship(ty: SynType) returns (r: Result<Relationship, Panic>)
    ensures r == Classify(ty)
  {
    var relation := Unmarked;
    if ty.PathType? {
      var segs := ty.segments;
      for i := 0 to |segs|
        invariant ClassifyFrom(segs, i, relation) == Classify(ty)
      {
        if segs[i].ident == "HasOne" {
          relation := HasOneMarker;
        }
        if segs[i].ident == "HasMany" {
          relation := HasManyMarker;
        }
        if segs[i].arguments.AngleBracketed? {
          match relation
          case Unmarked =>
            return Success(Field);
          case HasOneMarker =>
            var generics :- GenericPaths(segs[i].arguments.args, "Invalid path in HasOne!");
            if |generics| < 3 {
              return Failure(OutOfBounds);
            }
            return Success(HasOne(generics[0], generics[1], generics[2]));
          case HasManyMarker =>
            var generics :- GenericPaths(segs[i].arguments.args, "Invalid path in HasMany!");
            if |generics| < 3 {
              return Failure(OutOfBounds);
            }
            return Success(HasMany(generics[0], generics[1], generics[2]));
        }
      }
    }
    return Success(Field);
  }
}
