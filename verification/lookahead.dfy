/**
 * The part of juniper's look-ahead the generated code reads: a tree of selected
 * fields, each with its arguments, and `int_argument_from_look_ahead`
 * (botanist/src/macro_helpers.rs and gin/src/macro_helpers.rs, which are the same
 * function).
 */
module LookAhead {
  import opened Wrappers

  /** Rust's `i32`. */
  newtype i32 = x: int | -0x8000_0000 <= x < 0x8000_0000

  /** juniper's `DefaultScalarValue`; floating point payloads are not modelled. */
  datatype ScalarValue = IntValue(i: i32) | FloatValue | StringValue(s: string) | BooleanValue(b: bool)

  datatype LookAheadValue =
    | Null
    | Scalar(scalar: ScalarValue)
    | EnumValue(name: string)
    | ListValue(items: seq<LookAheadValue>)
    | ObjectValue(fields: seq<(string, LookAheadValue)>)

  datatype Argument = Argument(name: string, value: LookAheadValue)

  /** A selected field: its name, the arguments written on it, and the fields selected below it. */
  datatype Selection = Selection(name: string, arguments: seq<Argument>, children: seq<Selection>)

  /** `k` is the first argument called `name`. */
  predicate FirstArgument(args: seq<Argument>, name: string, k: int)
  {
    0 <= k < |args| && args[k].name == name && forall j :: 0 <= j < k ==> args[j].name != name
  }

  /** `LookAheadSelection::argument`: the first argument with that name. */
  function FindArgument(args: seq<Argument>, name: string): (r: Option<Argument>)
    ensures r.None? <==> forall j :: 0 <= j < |args| ==> args[j].name != name
    ensures r.Some? ==> exists k :: FirstArgument(args, name, k) && args[k] == r.value
  {
    if args == [] then None
    else if args[0].name == name then
      assert FirstArgument(args, name, 0);
      Some(args[0])
    else
      var r := FindArgument(args[1..], name);
      if r.Some? then
        var k :| FirstArgument(args[1..], name, k) && args[1..][k] == r.value;
        assert FirstArgument(args, name, k + 1);
        r
      else r
  }

  /**
   * `LookAheadMethods::select_child` on a selection whose children are `children`:
   * the first selected child with that name.
   */
  function SelectChild(children: seq<Selection>, name: string): (r: Option<Selection>)
    ensures r.None? <==> forall j :: 0 <= j < |children| ==> children[j].name != name
    ensures r.Some? ==> r.value in children && r.value.name == name
    ensures r.Some? ==> exists k :: 0 <= k < |children| && children[k] == r.value
                                    && forall j :: 0 <= j < k ==> children[j].name != name
  {
    if children == [] then None
    else if children[0].name == name then Some(children[0])
    else
      var r := SelectChild(children[1..], name);
      if r.Some? then
        var k :| 0 <= k < |children[1..]| && children[1..][k] == r.value
                 && forall j :: 0 <= j < k ==> children[1..][j].name != name;
        assert children[k + 1] == r.value;
        r
      else r
  }

  /**
   * `int_argument_from_look_ahead`: the value of the first argument called `name`
   * when it is an integer scalar; `default` when there is no such argument, when it
   * is a scalar of another kind, or when it is not a scalar at all.
   */
  function IntArgument(sel: Selection, name: string, default: i32): (r: i32)
    ensures (forall j :: 0 <= j < |sel.arguments| ==> sel.arguments[j].name != name) ==> r == default
    ensures forall k :: FirstArgument(sel.arguments, name, k) ==>
      var v := sel.arguments[k].value;
      (v.Scalar? && v.scalar.IntValue? ==> r == v.scalar.i)
      && (v.Scalar? && !v.scalar.IntValue? ==> r == default)
      && (!v.Scalar? ==> r == default)
  {
    match FindArgument(sel.arguments, name)
    case None => default
    case Some(arg) =>
      if arg.value.Scalar? then
        if arg.value.scalar.IntValue? then arg.value.scalar.i else default
      else default
  }

  /** The first argument is the one that counts: a later argument of the same name is never read. */
  lemma FirstIntArgumentWins(sel: Selection, name: string, default: i32, v: i32, later: LookAheadValue)
    requires forall j :: 0 <= j < |sel.arguments| ==> sel.arguments[j].name != name
    ensures IntArgument(sel.(arguments := sel.arguments + [Argument(name, Scalar(IntValue(v))), Argument(name, later)]), name, default) == v
  {
    var args := sel.arguments + [Argument(name, Scalar(IntValue(v))), Argument(name, later)];
    assert FirstArgument(args, name, |sel.arguments|);
  }
}
