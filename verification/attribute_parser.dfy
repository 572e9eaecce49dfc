/**
 * The attribute-token parser of botanist_codegen/src/common.rs:
 * `parse_ident_attributes_from_stream`, a state machine over the token trees of a
 * macro attribute such as `Context = Ctx, PrimaryKey = i32, Book(plural = books,
 * searchable = (title, author))`, and `parse_ident_attributes`, which unwraps the
 * shared token cells it produced.
 *
 * The Rust tokens live in `Rc<RefCell<_>>` cells. A cell is modelled by a value
 * with a serial number: the serial is the cell's identity, so two map entries with
 * the same serial are one cell held twice, which `Rc::try_unwrap` refuses.
 */
module AttributeParser {
  import opened Wrappers
  import opened Ascii

  datatype Delimiter = Parenthesis | Brace | Bracket | NoDelimiter

  /** `proc_macro2::TokenTree`. */
  datatype TokenTree =
    | Ident(name: string)
    | Punct(ch: char)
    | Literal(text: string)
    | Group(delimiter: Delimiter, stream: seq<TokenTree>)

  /** `InternalAttributeToken` inside its cell: the cell's serial, the identifier and the arguments. */
  datatype Cell = Cell(serial: nat, ident: string, arguments: map<string, Cell>)

  /** `AttributeToken`: what the macros read once the cells are unwrapped. */
  datatype AttributeToken = AttributeToken(ident: string, arguments: map<string, AttributeToken>)

  /**
   * Where `last_token` points: nowhere, at the top of the unnamed list (the cell
   * just pushed), or at the named entry `name` (the cell just inserted).
   */
  datatype Last = NoLast | InUnnamed | InNamed(name: string)

  /** The parser's local state; `next` is the serial the next new cell gets. */
  datatype State = State(unnamed: seq<Cell>, named: map<string, Cell>, last: Last, inExpr: bool, next: nat)

  /** What a (nested) parse returns: the unnamed and the named cells, and the next free serial. */
  datatype Parsed = Parsed(unnamed: seq<Cell>, named: map<string, Cell>, next: nat)

  const UnexpectedPunct: Panic := Panic("Unexpected punctuation in attribute!")
  const UnnamedLiteral: Panic := Panic("Unexpected literal, literals must be named!")
  const SharedCell: Panic := Panic("called `Result::unwrap()` on an `Err` value")

  /** `last_token` points at a cell that exists. */
  predicate Valid(st: State)
  {
    (st.last.InUnnamed? ==> |st.unnamed| > 0) && (st.last.InNamed? ==> st.last.name in st.named)
  }

  function Start(next: nat): (st: State)
    ensures Valid(st)
  {
    State([], map[], NoLast, false, next)
  }

  /** `lit.to_string().replace("\"", "")`. */
  function RemoveQuotes(s: string): (r: string)
    ensures '"' !in r
    ensures |r| <= |s|
    ensures forall c :: c != '"' && c in s ==> c in r
    ensures forall c :: c in r ==> c in s
  {
    if s == [] then []
    else if s[0] == '"' then RemoveQuotes(s[1..])
    else
      var rest := RemoveQuotes(s[1..]);
      assert forall c :: c in s ==> c == s[0] || c in s[1..];
      [s[0]] + rest
  }

  /**
   * The "_" cells `tup_map` gets, one per bare identifier of the group, inserted in
   * order with fresh serials from `base` on; a repeated identifier replaces its
   * earlier entry.
   */
  function TupleMap(args: seq<Cell>, base: nat): (m: map<string, Cell>)
    ensures m.Keys == set i | 0 <= i < |args| :: args[i].ident
    ensures forall k :: k in m ==> m[k].ident == "_" && m[k].arguments == map[]
  {
    if args == [] then map[]
    else
      var n := |args| - 1;
      var m := TupleMap(args[..n], base);
      assert forall i :: 0 <= i < n ==> args[..n][i] == args[i];
      m[args[n].ident := Cell(base + n, "_", map[])]
  }

  /** The parse of one token stream, starting with serial `next`. */
  function Parse(ts: seq<TokenTree>, next: nat): Result<Parsed, Panic>
    decreases ts, 2
  {
    var st :- Run(ts, Start(next));
    Success(Parsed(st.unnamed, st.named, st.next))
  }

  /** The loop of `parse_ident_attributes_from_stream`: one `Step` per token, stopping at the first panic. */
  function Run(ts: seq<TokenTree>, st: State): (r: Result<State, Panic>)
    requires Valid(st)
    ensures r.Success? ==> Valid(r.value)
    decreases ts, 1
  {
    if ts == [] then Success(st)
    else
      var st' :- Step(st, ts[0]);
      Run(ts[1..], st')
  }

  /** One iteration of the loop on token `t`. */
  function Step(st: State, t: TokenTree): (r: Result<State, Panic>)
    requires Valid(st)
    ensures r.Success? ==> Valid(r.value)
    decreases t, 0
  {
    match t
    case Ident(name) =>
      if st.inExpr then
        if st.unnamed == [] then Failure(UnwrapNone)
        else
          var key := st.unnamed[|st.unnamed| - 1].ident;
          Success(State(st.unnamed[..|st.unnamed| - 1], st.named[key := Cell(st.next, name, map[])],
                        InNamed(key), false, st.next + 1))
      else
        Success(st.(unnamed := st.unnamed + [Cell(st.next, name, map[])], last := InUnnamed, next := st.next + 1))
    case Group(delimiter, stream) =>
      if delimiter != Parenthesis then Success(st)
      else
        var inner :- Parse(stream, st.next);
        var done := st.(last := NoLast, next := inner.next);
        var tupleNext := inner.next + |inner.unnamed|;
        (match st.last
        case NoLast => Success(done)
        case InUnnamed =>
          var n := |st.unnamed| - 1;
          var top := st.unnamed[n];
          if !st.inExpr then
            Success(done.(unnamed := st.unnamed[..n] + [top.(arguments := inner.named)]))
          else
            var tuple := top.(arguments := TupleMap(inner.unnamed, inner.next));
            Success(done.(unnamed := st.unnamed[..n], named := st.named[top.ident := tuple], next := tupleNext))
        case InNamed(key) =>
          var target := st.named[key].(arguments := inner.named);
          if !st.inExpr then
            Success(done.(named := st.named[key := target]))
          else if st.unnamed == [] then Failure(UnwrapNone)
          else
            var n := |st.unnamed| - 1;
            var tuple := target.(arguments := TupleMap(inner.unnamed, inner.next));
            Success(done.(unnamed := st.unnamed[..n], named := st.named[key := tuple][st.unnamed[n].ident := tuple],
                          next := tupleNext)))
    case Punct(ch) =>
      if ch == '=' then Success(st.(inExpr := true))
      else if ch == ',' then Success(st)
      else Failure(UnexpectedPunct)
    case Literal(text) =>
      if !st.inExpr then Failure(UnnamedLiteral)
      else if st.unnamed == [] then Failure(UnwrapNone)
      else
        var value := RemoveQuotes(text);
        if !IsIdent(value) then Failure(InvalidIdent)
        else
          var key := st.unnamed[|st.unnamed| - 1].ident;
          Success(State(st.unnamed[..|st.unnamed| - 1], st.named[key := Cell(st.next, value, map[])],
                        InNamed(key), false, st.next + 1))
  }

  /**
   * `parse_ident_attributes_from_stream`: the loop over the tokens, recursing into
   * parenthesised groups, proved to compute `Parse`.
   */
  method ParseFromStream(ts: seq<TokenTree>, next: nat) returns (r: Result<Parsed, Panic>)
    ensures r == Parse(ts, next)
    decreases ts
  {
    var unnamed: seq<Cell> := [];
    var named: map<string, Cell> := map[];
    var last := NoLast;
    var inExpr := false;
    var serial := next;
    for i := 0 to |ts|
      invariant Valid(State(unnamed, named, last, inExpr, serial))
      invariant Run(ts[i..], State(unnamed, named, last, inExpr, serial)) == Run(ts, Start(next))
    {
      ghost var before := State(unnamed, named, last, inExpr, serial);
      assert ts[i..][0] == ts[i] && ts[i..][1..] == ts[i + 1..];
      match ts[i] {
        case Ident(name) =>
          if inExpr {
            if unnamed == [] {
              return Failure(UnwrapNone);
            }
            var popped := unnamed[|unnamed| - 1];
            unnamed := unnamed[..|unnamed| - 1];
            named := named[popped.ident := Cell(serial, name, map[])];
            last := InNamed(popped.ident);
            inExpr := false;
          } else {
            unnamed := unnamed + [Cell(serial, name, map[])];
            last := InUnnamed;
          }
          serial := serial + 1;
        case Group(delimiter, stream) =>
          if delimiter == Parenthesis {
            var after := ParseGroup(State(unnamed, named, last, inExpr, serial), ts[i]);
            if after.Failure? {
              return Failure(after.error);
            }
            unnamed, named, last, serial := after.value.unnamed, after.value.named, after.value.last, after.value.next;
          }
        case Punct(ch) =>
          if ch == '=' {
            inExpr := true;
          } else if ch != ',' {
            return Failure(UnexpectedPunct);
          }
        case Literal(text) =>
          if !inExpr {
            return Failure(UnnamedLiteral);
          }
          var value := RemoveQuotes(text);
          if unnamed == [] {
            return Failure(UnwrapNone);
          }
          var popped := unnamed[|unnamed| - 1];
          unnamed := unnamed[..|unnamed| - 1];
          if !IsIdent(value) {
            return Failure(InvalidIdent);
          }
          named := named[popped.ident := Cell(serial, value, map[])];
          last := InNamed(popped.ident);
          inExpr := false;
          serial := serial + 1;
      }
      assert Step(before, ts[i]) == Success(State(unnamed, named, last, inExpr, serial));
    }
    return Success(Parsed(unnamed, named, serial));
  }

  /**
   * The parenthesised-group branch of the loop: parse the group, give its named
   * arguments to the cell `last_token` points at, and after `=` turn the group's bare
   * identifiers into a tuple-like argument map under the popped name.
   */
  method ParseGroup(st: State, t: TokenTree) returns (r: Result<State, Panic>)
    requires Valid(st)
    requires t.Group? && t.delimiter == Parenthesis
    ensures r == Step(st, t)
    decreases t
  {
    var inner := ParseFromStream(t.stream, st.next);
    if inner.Failure? {
      return Failure(inner.error);
    }
    var unnamed, named, serial := st.unnamed, st.named, inner.value.next;
    match st.last {
      case NoLast =>
      case InUnnamed =>
        var n := |unnamed| - 1;
        var token := unnamed[n].(arguments := inner.value.named);
        if st.inExpr {
          unnamed := unnamed[..n];
          var tup := TupleArguments(inner.value.unnamed, serial);
          serial := serial + |inner.value.unnamed|;
          token := token.(arguments := tup);
          named := named[token.ident := token];
          assert named == st.named[st.unnamed[n].ident := st.unnamed[n].(arguments := TupleMap(inner.value.unnamed, inner.value.next))];
        } else {
          unnamed := unnamed[..n] + [token];
        }
      case InNamed(key) =>
        var token := named[key].(arguments := inner.value.named);
        named := named[key := token];
        if st.inExpr {
          if unnamed == [] {
            return Failure(UnwrapNone);
          }
          var popped := unnamed[|unnamed| - 1];
          unnamed := unnamed[..|unnamed| - 1];
          var tup := TupleArguments(inner.value.unnamed, serial);
          serial := serial + |inner.value.unnamed|;
          token := token.(arguments := tup);
          named := named[key := token][popped.ident := token];
          assert named == st.named[key := token][popped.ident := token];
        }
    }
    return Success(State(unnamed, named, NoLast, st.inExpr, serial));
  }

  /** The `for argument in tuple_arguments` loop that fills `tup_map`. */
  method TupleArguments(args: seq<Cell>, base: nat) returns (tup: map<string, Cell>)
    ensures tup == TupleMap(args, base)
  {
    tup := map[];
    for j := 0 to |args|
      invariant tup == TupleMap(args[..j], base)
    {
      assert args[..j + 1][..j] == args[..j] && args[..j + 1][j] == args[j];
      assert TupleMap(args[..j + 1], base) == TupleMap(args[..j], base)[args[j].ident := Cell(base + j, "_", map[])];
      tup := tup[args[j].ident := Cell(base + j, "_", map[])];
    }
    assert args[..|args|] == args;
  }

  /** No cell is held under two keys of `m`. */
  predicate Unshared(m: map<string, Cell>)
  {
    forall k1, k2 :: k1 in m && k2 in m && k1 != k2 ==> m[k1].serial != m[k2].serial
  }

  /** `to_attribute_token` can unwrap every argument cell of `c`, at every depth. */
  predicate Unwrappable(c: Cell)
  {
    Unshared(c.arguments) && forall k :: k in c.arguments ==> Unwrappable(c.arguments[k])
  }

  /** The cell without its identity. */
  function Unwrap(c: Cell): (t: AttributeToken)
    ensures t.ident == c.ident && t.arguments.Keys == c.arguments.Keys
  {
    AttributeToken(c.ident, map k | k in c.arguments :: Unwrap(c.arguments[k]))
  }

  /** `Rc::try_unwrap(..).unwrap()` on one cell, then `to_attribute_token`: panics on a cell still held twice. */
  function UnwrapToken(c: Cell): (r: Result<AttributeToken, Panic>)
    ensures r.Success? <==> Unwrappable(c)
    ensures r.Success? ==> r.value == Unwrap(c)
    ensures r.Failure? ==> r.error == SharedCell
  {
    if Unwrappable(c) then Success(Unwrap(c)) else Failure(SharedCell)
  }

  /**
   * `parse_ident_attributes`: parse, then unwrap the cells with `Rc::try_unwrap`,
   * which panics on a cell that is still held twice. The named map is collected at
   * once, so a shared named cell panics in the call. The unnamed tokens come back as
   * a lazy `map` over the list: element `i` is unwrapped only when the caller pulls
   * it, so the call returns one outcome per element, in order, and a shared cell
   * among them panics only for a caller that reaches it.
   */
  function ParseIdentAttributes(ts: seq<TokenTree>)
    : (r: Result<(seq<Result<AttributeToken, Panic>>, map<string, AttributeToken>), Panic>)
    ensures Parse(ts, 0).Failure? ==> r == Failure(Parse(ts, 0).error)
    ensures Parse(ts, 0).Success? ==>
      var p := Parse(ts, 0).value;
      (r.Success? <==> Unshared(p.named) && forall k :: k in p.named ==> Unwrappable(p.named[k]))
      && (r.Failure? ==> r.error == SharedCell)
      && (r.Success? ==>
            && |r.value.0| == |p.unnamed|
            && (forall i :: 0 <= i < |p.unnamed| ==>
                  (r.value.0[i].Success? <==> Unwrappable(p.unnamed[i]))
                  && (r.value.0[i].Success? ==> r.value.0[i].value.ident == p.unnamed[i].ident)
                  && (r.value.0[i].Failure? ==> r.value.0[i].error == SharedCell)
                  && r.value.0[i] == UnwrapToken(p.unnamed[i]))
            && r.value.1.Keys == p.named.Keys
            && forall k :: k in p.named ==> r.value.1[k].ident == p.named[k].ident && r.value.1[k] == Unwrap(p.named[k]))
  {
    var p :- Parse(ts, 0);
    if Unshared(p.named) && forall k :: k in p.named ==> Unwrappable(p.named[k]) then
      Success((seq(|p.unnamed|, i requires 0 <= i < |p.unnamed| => UnwrapToken(p.unnamed[i])),
               map k | k in p.named :: Unwrap(p.named[k])))
    else Failure(SharedCell)
  }

  /** The identifiers of a list of cells. */
  function Idents(cs: seq<Cell>): (r: seq<string>)
    ensures |r| == |cs| && forall i :: 0 <= i < |cs| ==> r[i] == cs[i].ident
  {
    seq(|cs|, i requires 0 <= i < |cs| => cs[i].ident)
  }

  /** The identifiers of a stream, in order. */
  function BareNames(ts: seq<TokenTree>): seq<string>
  {
    if ts == [] then [] else (if ts[0].Ident? then [ts[0].name] else []) + BareNames(ts[1..])
  }

  /** Running over `a + b` is running over `a`, then over `b` from where `a` stopped. */
  lemma {:induction false} RunAppend(a: seq<TokenTree>, b: seq<TokenTree>, st: State)
    requires Valid(st)
    ensures Run(a, st).Failure? ==> Run(a + b, st) == Run(a, st)
    ensures Run(a, st).Success? ==> Run(a + b, st) == Run(b, Run(a, st).value)
  {
    if a != [] {
      assert (a + b)[0] == a[0] && (a + b)[1..] == a[1..] + b;
      var s := Step(st, a[0]);
      if s.Success? {
        RunAppend(a[1..], b, s.value);
      }
    } else {
      assert a + b == b;
    }
  }

  /** One token of a run: the run from position `k` is the step on `ts[k]`, then the run from `k + 1`. */
  lemma RunFrom(ts: seq<TokenTree>, k: nat, st: State)
    requires Valid(st) && k < |ts|
    ensures Step(st, ts[k]).Failure? ==> Run(ts[k..], st) == Failure(Step(st, ts[k]).error)
    ensures Step(st, ts[k]).Success? ==> Run(ts[k..], st) == Run(ts[k + 1..], Step(st, ts[k]).value)
  {
    assert ts[k..][0] == ts[k] && ts[k..][1..] == ts[k + 1..];
  }

  /** An identifier outside an expression is pushed as a new unnamed cell. */
  lemma StepBareIdent(st: State, name: string)
    requires Valid(st) && !st.inExpr
    ensures Step(st, Ident(name))
         == Success(st.(unnamed := st.unnamed + [Cell(st.next, name, map[])], last := InUnnamed, next := st.next + 1))
  {
  }

  /** An identifier after `name =` pops `name` and records the identifier under it. */
  lemma StepValueIdent(st: State, value: string)
    requires Valid(st) && st.inExpr && st.unnamed != []
    ensures var n := |st.unnamed| - 1;
      var key := st.unnamed[n].ident;
      Step(st, Ident(value))
        == Success(State(st.unnamed[..n], st.named[key := Cell(st.next, value, map[])], InNamed(key), false, st.next + 1))
  {
  }

  /** `=` only sets the expression flag. */
  lemma StepEquals(st: State)
    requires Valid(st)
    ensures Step(st, Punct('=')) == Success(st.(inExpr := true))
  {
  }

  /** A group after `name =`: the popped `name` is recorded with the group's identifiers as its arguments. */
  lemma StepTuple(st: State, inner: seq<TokenTree>)
    requires Valid(st) && st.inExpr && st.last == InUnnamed && Parse(inner, st.next).Success?
    ensures var p := Parse(inner, st.next).value;
      var n := |st.unnamed| - 1;
      var top := st.unnamed[n];
      Step(st, Group(Parenthesis, inner))
        == Success(State(st.unnamed[..n], st.named[top.ident := top.(arguments := TupleMap(p.unnamed, p.next))],
                         NoLast, true, p.next + |p.unnamed|))
  {
  }

  /** A literal after `name =` pops `name` and records the literal's text under it. */
  lemma StepValueLiteral(st: State, text: string)
    requires Valid(st) && st.inExpr && st.unnamed != [] && IsIdent(RemoveQuotes(text))
    ensures var n := |st.unnamed| - 1;
      var key := st.unnamed[n].ident;
      Step(st, Literal(text))
        == Success(State(st.unnamed[..n], st.named[key := Cell(st.next, RemoveQuotes(text), map[])], InNamed(key), false, st.next + 1))
  {
  }

  /**
   * A group after `key = value =`: the cell of `key`, with the group's identifiers as
   * its arguments, is stored under `key` and under the popped identifier.
   */
  lemma StepNamedTuple(st: State, inner: seq<TokenTree>)
    requires Valid(st) && st.inExpr && st.last.InNamed? && st.unnamed != [] && Parse(inner, st.next).Success?
    ensures var p := Parse(inner, st.next).value;
      var n := |st.unnamed| - 1;
      var key := st.last.name;
      var tuple := st.named[key].(arguments := TupleMap(p.unnamed, p.next));
      Step(st, Group(Parenthesis, inner))
        == Success(State(st.unnamed[..n], st.named[key := tuple][st.unnamed[n].ident := tuple], NoLast, true, p.next + |p.unnamed|))
  {
  }

  lemma {:induction false} BareRun(ts: seq<TokenTree>, st: State)
    requires Valid(st) && !st.inExpr
    requires forall i :: 0 <= i < |ts| ==> ts[i].Ident? || ts[i] == Punct(',')
    ensures Run(ts, st).Success?
    ensures Idents(Run(ts, st).value.unnamed) == Idents(st.unnamed) + BareNames(ts)
    ensures Run(ts, st).value.named == st.named && !Run(ts, st).value.inExpr
  {
    if ts != [] {
      RunFrom(ts, 0, st);
      assert ts[0..] == ts;
      BareStep(st, ts[0]);
      BareRun(ts[1..], Step(st, ts[0]).value);
    }
  }

  /** One bare identifier or comma: the identifier, if any, is appended to the unnamed cells. */
  lemma BareStep(st: State, t: TokenTree)
    requires Valid(st) && !st.inExpr && (t.Ident? || t == Punct(','))
    ensures Step(st, t).Success?
    ensures Idents(Step(st, t).value.unnamed) == Idents(st.unnamed) + (if t.Ident? then [t.name] else [])
    ensures Step(st, t).value.named == st.named && !Step(st, t).value.inExpr
  {
    if t.Ident? {
      StepBareIdent(st, t.name);
      assert Idents(st.unnamed + [Cell(st.next, t.name, map[])]) == Idents(st.unnamed) + [t.name];
    }
  }

  /**
   * A stream of bare identifiers separated by commas gives those identifiers, in
   * order, as the unnamed tokens and no named token.
   */
  lemma BareIdentifiersInOrder(ts: seq<TokenTree>)
    requires forall i :: 0 <= i < |ts| ==> ts[i].Ident? || ts[i] == Punct(',')
    ensures Parse(ts, 0).Success?
    ensures Idents(Parse(ts, 0).value.unnamed) == BareNames(ts)
    ensures Parse(ts, 0).value.named == map[]
  {
    BareRun(ts, Start(0));
    var st := Run(ts, Start(0)).value;
    assert Parse(ts, 0) == Success(Parsed(st.unnamed, st.named, st.next));
    assert Idents(st.unnamed) == [] + BareNames(ts);
  }

  /**
   * `name = value` after any stream that ends outside an expression: `name` is
   * popped from the unnamed tokens and recorded as named[name] = value.
   */
  lemma NamedIdentifier(prefix: seq<TokenTree>, name: string, value: string)
    requires Run(prefix, Start(0)).Success? && !Run(prefix, Start(0)).value.inExpr
    ensures var before := Run(prefix, Start(0)).value;
      var after := Run(prefix + [Ident(name), Punct('='), Ident(value)], Start(0));
      after.Success? && after.value.unnamed == before.unnamed && !after.value.inExpr
      && after.value.named == before.named[name := Cell(before.next + 1, value, map[])]
  {
    var ts := [Ident(name), Punct('='), Ident(value)];
    RunAppend(prefix, ts, Start(0));
    var s0 := Run(prefix, Start(0)).value;
    var s1 := Step(s0, ts[0]).value;
    var s2 := Step(s1, ts[1]).value;
    RunFrom(ts, 0, s0);
    RunFrom(ts, 1, s1);
    RunFrom(ts, 2, s2);
    assert ts[0..] == ts && ts[3..] == [];
    assert s1.unnamed[..|s1.unnamed| - 1] == s0.unnamed;
  }

  /**
   * `name = "text"` records named[name] with the literal's text, double quotes
   * removed; the text must then be an identifier, or `Ident::new` panics.
   */
  lemma NamedLiteral(prefix: seq<TokenTree>, name: string, text: string)
    requires Run(prefix, Start(0)).Success? && !Run(prefix, Start(0)).value.inExpr
    ensures var before := Run(prefix, Start(0)).value;
      var after := Run(prefix + [Ident(name), Punct('='), Literal(text)], Start(0));
      (after.Success? <==> IsIdent(RemoveQuotes(text)))
      && (after.Success? ==> after.value.unnamed == before.unnamed
                             && after.value.named == before.named[name := Cell(before.next + 1, RemoveQuotes(text), map[])])
  {
    var ts := [Ident(name), Punct('='), Literal(text)];
    RunAppend(prefix, ts, Start(0));
    var s0 := Run(prefix, Start(0)).value;
    var s1 := Step(s0, ts[0]).value;
    var s2 := Step(s1, ts[1]).value;
    RunFrom(ts, 0, s0);
    RunFrom(ts, 1, s1);
    RunFrom(ts, 2, s2);
    assert ts[0..] == ts && ts[3..] == [];
    assert s1.unnamed[..|s1.unnamed| - 1] == s0.unnamed;
  }

  /** A literal outside `name = ...` panics, whatever came before. */
  lemma LiteralMustBeNamed(prefix: seq<TokenTree>, text: string)
    requires Run(prefix, Start(0)).Success? && !Run(prefix, Start(0)).value.inExpr
    ensures Run(prefix + [Literal(text)], Start(0)) == Failure(UnnamedLiteral)
  {
    RunAppend(prefix, [Literal(text)], Start(0));
  }

  /** Punctuation other than `=` and `,` panics, whatever came before. */
  lemma UnexpectedPunctuation(prefix: seq<TokenTree>, ch: char)
    requires Run(prefix, Start(0)).Success? && ch != '=' && ch != ','
    ensures Run(prefix + [Punct(ch)], Start(0)) == Failure(UnexpectedPunct)
  {
    RunAppend(prefix, [Punct(ch)], Start(0));
  }

  /** `=` with no identifier before it panics at the `unwrap` of the pop. */
  lemma ValueWithoutName(value: TokenTree)
    requires value.Ident? || (value.Literal? && IsIdent(RemoveQuotes(value.text)))
    ensures Parse([Punct('='), value], 0) == Failure(UnwrapNone)
  {
    var ts := [Punct('='), value];
    RunFrom(ts, 0, Start(0));
    RunFrom(ts, 1, Start(0).(inExpr := true));
    assert ts[0..] == ts;
  }

  /** A brace- or bracket-delimited group changes nothing, wherever it appears. */
  lemma NonParenthesisGroupIgnored(a: seq<TokenTree>, d: Delimiter, stream: seq<TokenTree>, b: seq<TokenTree>)
    requires d != Parenthesis
    ensures Run(a + [Group(d, stream)] + b, Start(0)) == Run(a + b, Start(0))
  {
    RunAppend(a, [Group(d, stream)] + b, Start(0));
    assert a + [Group(d, stream)] + b == a + ([Group(d, stream)] + b);
    RunAppend(a, b, Start(0));
  }

  /**
   * `model(arguments)`: the group's named entries become the arguments of the
   * identifier just before it, which stays in the unnamed list.
   */
  lemma GroupAttachesArguments(prefix: seq<TokenTree>, model: string, inner: seq<TokenTree>)
    requires Run(prefix, Start(0)).Success? && !Run(prefix, Start(0)).value.inExpr
    requires Parse(inner, Run(prefix, Start(0)).value.next + 1).Success?
    ensures var before := Run(prefix, Start(0)).value;
      var nested := Parse(inner, before.next + 1).value;
      var after := Run(prefix + [Ident(model), Group(Parenthesis, inner)], Start(0));
      after.Success? && after.value.named == before.named
      && |after.value.unnamed| == |before.unnamed| + 1
      && after.value.unnamed[..|before.unnamed|] == before.unnamed
      && after.value.unnamed[|before.unnamed|].ident == model
      && after.value.unnamed[|before.unnamed|].arguments == nested.named
  {
    var ts := [Ident(model), Group(Parenthesis, inner)];
    RunAppend(prefix, ts, Start(0));
    var s0 := Run(prefix, Start(0)).value;
    var s1 := Step(s0, ts[0]).value;
    RunFrom(ts, 0, s0);
    RunFrom(ts, 1, s1);
    assert ts[0..] == ts && ts[2..] == [];
    assert s1.unnamed[..|s1.unnamed| - 1] == s0.unnamed;
  }

  /**
   * `name = (a, b)`: named[name] is `name` itself, with the group's bare identifiers
   * as the keys of its arguments. The `=` flag stays set afterwards.
   */
  lemma TupleEntry(prefix: seq<TokenTree>, name: string, inner: seq<TokenTree>)
    requires Run(prefix, Start(0)).Success? && !Run(prefix, Start(0)).value.inExpr
    requires Parse(inner, Run(prefix, Start(0)).value.next + 1).Success?
    ensures var before := Run(prefix, Start(0)).value;
      var nested := Parse(inner, before.next + 1).value;
      var after := Run(prefix + [Ident(name), Punct('='), Group(Parenthesis, inner)], Start(0));
      after.Success? && after.value.unnamed == before.unnamed && after.value.inExpr
      && name in after.value.named && after.value.named[name].ident == name
      && after.value.named[name].arguments.Keys == set i | 0 <= i < |nested.unnamed| :: nested.unnamed[i].ident
  {
    var ts := [Ident(name), Punct('='), Group(Parenthesis, inner)];
    RunAppend(prefix, ts, Start(0));
    var s0 := Run(prefix, Start(0)).value;
    StepBareIdent(s0, name);
    var s1 := s0.(unnamed := s0.unnamed + [Cell(s0.next, name, map[])], last := InUnnamed, next := s0.next + 1);
    StepEquals(s1);
    var s2 := s1.(inExpr := true);
    StepTuple(s2, inner);
    var s3 := Step(s2, ts[2]).value;
    RunFrom(ts, 0, s0);
    RunFrom(ts, 1, s1);
    RunFrom(ts, 2, s2);
    assert ts[0..] == ts && ts[3..] == [];
    assert s2.unnamed[..|s2.unnamed| - 1] == s0.unnamed;
  }

  /**
   * Because the `=` flag survives a group, an identifier after `name = (...)` is read
   * as the value of the unnamed token before it: `Book searchable = (title) x`
   * records named["Book"] = x and drops `Book` from the unnamed tokens.
   */
  lemma IdentifierAfterTupleIsNamed()
    ensures var r := Parse([Ident("Book"), Ident("searchable"), Punct('='), Group(Parenthesis, [Ident("title")]), Ident("x")], 0);
      r.Success? && r.value.unnamed == [] && r.value.named.Keys == {"Book", "searchable"}
      && r.value.named["Book"].ident == "x" && r.value.named["searchable"].arguments.Keys == {"title"}
  {
    var head := [Ident("Book"), Ident("searchable"), Punct('=')];
    var tail := [Group(Parenthesis, [Ident("title")]), Ident("x")];
    BookSearchableRun();
    TupleThenIdentRun();
    RunAppend(head, tail, Start(0));
    assert head + tail == [Ident("Book"), Ident("searchable"), Punct('='), Group(Parenthesis, [Ident("title")]), Ident("x")];
    assert TupleMap([Cell(2, "title", map[])], 3).Keys == {"title"};
  }

  /** `Book searchable =`: two unnamed cells and the `=` flag. */
  lemma BookSearchableRun()
    ensures Run([Ident("Book"), Ident("searchable"), Punct('=')], Start(0))
         == Success(State([Cell(0, "Book", map[]), Cell(1, "searchable", map[])], map[], InUnnamed, true, 2))
  {
    var cells := [Cell(0, "Book", map[]), Cell(1, "searchable", map[])];
    NameValueHead(Start(0), "Book", "searchable");
    assert Start(0).unnamed + cells == cells;
  }

  /** Then `(title) x`: the tuple entry for `searchable`, and `x` named after `Book`. */
  lemma TupleThenIdentRun()
    ensures var tuple := Cell(1, "searchable", TupleMap([Cell(2, "title", map[])], 3));
      Run([Group(Parenthesis, [Ident("title")]), Ident("x")],
          State([Cell(0, "Book", map[]), Cell(1, "searchable", map[])], map[], InUnnamed, true, 2))
        == Success(State([], map["searchable" := tuple, "Book" := Cell(4, "x", map[])], InNamed("Book"), false, 5))
  {
    var ts := [Group(Parenthesis, [Ident("title")]), Ident("x")];
    var book := Cell(0, "Book", map[]);
    var s3 := State([book, Cell(1, "searchable", map[])], map[], InUnnamed, true, 2);
    var tuple := Cell(1, "searchable", TupleMap([Cell(2, "title", map[])], 3));
    var s4 := State([book], map["searchable" := tuple], NoLast, true, 4);
    TitleGroupStep();
    StepValueIdent(s4, "x");
    assert [book][..0] == [];
    RunFrom(ts, 0, s3);
    RunFrom(ts, 1, s4);
    assert ts[0..] == ts && ts[2..] == [];
  }

  /** The group `(title)` after `Book searchable =` records `searchable` with the argument `title`. */
  lemma TitleGroupStep()
    ensures var book := Cell(0, "Book", map[]);
      var tuple := Cell(1, "searchable", TupleMap([Cell(2, "title", map[])], 3));
      Step(State([book, Cell(1, "searchable", map[])], map[], InUnnamed, true, 2), Group(Parenthesis, [Ident("title")]))
        == Success(State([book], map["searchable" := tuple], NoLast, true, 4))
  {
    var book := Cell(0, "Book", map[]);
    var s3 := State([book, Cell(1, "searchable", map[])], map[], InUnnamed, true, 2);
    InnerTitle();
    StepTuple(s3, [Ident("title")]);
    assert s3.unnamed[..1] == [book];
  }

  /** The group `(title)` parses to one unnamed token. */
  lemma InnerTitle()
    ensures Parse([Ident("title")], 2) == Success(Parsed([Cell(2, "title", map[])], map[], 3))
  {
    var ts := [Ident("title")];
    StepBareIdent(Start(2), "title");
    assert Start(2).unnamed + [Cell(2, "title", map[])] == [Cell(2, "title", map[])];
    RunFrom(ts, 0, Start(2));
    assert ts[0..] == ts && ts[1..] == [];
  }

  /**
   * `x a = "v" = (...)` after any stream that ends outside an expression: the group
   * after the second `=` gives the cell named[a] to named[x] as well, and one cell
   * held under two names makes `parse_ident_attributes` panic.
   */
  lemma SharedCellPanics(prefix: seq<TokenTree>, x: string, a: string, text: string, inner: seq<TokenTree>)
    requires Run(prefix, Start(0)).Success? && !Run(prefix, Start(0)).value.inExpr
    requires x != a && IsIdent(RemoveQuotes(text))
    requires Parse(inner, Run(prefix, Start(0)).value.next + 3).Success?
    ensures ParseIdentAttributes(prefix + [Ident(x), Ident(a), Punct('='), Literal(text), Punct('='),
                                           Group(Parenthesis, inner)]) == Failure(SharedCell)
  {
    SharedRun(prefix, x, a, text, inner);
  }

  /** The run behind `SharedCellPanics`: named[a] and named[x] end up the same cell. */
  lemma SharedRun(prefix: seq<TokenTree>, x: string, a: string, text: string, inner: seq<TokenTree>)
    requires Run(prefix, Start(0)).Success? && !Run(prefix, Start(0)).value.inExpr
    requires IsIdent(RemoveQuotes(text))
    requires Parse(inner, Run(prefix, Start(0)).value.next + 3).Success?
    ensures var r := Run(prefix + [Ident(x), Ident(a), Punct('='), Literal(text), Punct('='), Group(Parenthesis, inner)], Start(0));
      r.Success? && x in r.value.named && a in r.value.named && r.value.named[x] == r.value.named[a]
  {
    var s0 := Run(prefix, Start(0)).value;
    var head := [Ident(x), Ident(a), Punct('=')];
    var tail := [Literal(text), Punct('='), Group(Parenthesis, inner)];
    RunAppend(prefix, head + tail, Start(0));
    assert prefix + (head + tail) == prefix + [Ident(x), Ident(a), Punct('='), Literal(text), Punct('='), Group(Parenthesis, inner)];
    NameValueHead(s0, x, a);
    var s3 := s0.(unnamed := s0.unnamed + [Cell(s0.next, x, map[]), Cell(s0.next + 1, a, map[])],
                  last := InUnnamed, inExpr := true, next := s0.next + 2);
    RunAppend(head, tail, s0);
    SharedTail(s3, x, a, text, inner);
  }

  /** `x a =` outside an expression: two new unnamed cells and the `=` flag. */
  lemma NameValueHead(st: State, x: string, a: string)
    requires Valid(st) && !st.inExpr
    ensures Run([Ident(x), Ident(a), Punct('=')], st)
         == Success(st.(unnamed := st.unnamed + [Cell(st.next, x, map[]), Cell(st.next + 1, a, map[])],
                        last := InUnnamed, inExpr := true, next := st.next + 2))
  {
    var ts := [Ident(x), Ident(a), Punct('=')];
    StepBareIdent(st, x);
    var s1 := st.(unnamed := st.unnamed + [Cell(st.next, x, map[])], last := InUnnamed, next := st.next + 1);
    StepBareIdent(s1, a);
    var s2 := s1.(unnamed := s1.unnamed + [Cell(s1.next, a, map[])], last := InUnnamed, next := s1.next + 1);
    StepEquals(s2);
    assert s1.unnamed + [Cell(s1.next, a, map[])] == st.unnamed + [Cell(st.next, x, map[]), Cell(st.next + 1, a, map[])];
    RunFrom(ts, 0, st);
    RunFrom(ts, 1, s1);
    RunFrom(ts, 2, s2);
    assert ts[0..] == ts && ts[3..] == [];
  }

  /** `"v" = (...)` after `x a =`: the group's cell is stored under both `a` and `x`. */
  lemma SharedTail(st: State, x: string, a: string, text: string, inner: seq<TokenTree>)
    requires Valid(st) && st.inExpr && |st.unnamed| >= 2
    requires st.unnamed[|st.unnamed| - 1].ident == a && st.unnamed[|st.unnamed| - 2].ident == x
    requires IsIdent(RemoveQuotes(text)) && Parse(inner, st.next + 1).Success?
    ensures var r := Run([Literal(text), Punct('='), Group(Parenthesis, inner)], st);
      r.Success? && x in r.value.named && a in r.value.named && r.value.named[x] == r.value.named[a]
  {
    var ts := [Literal(text), Punct('='), Group(Parenthesis, inner)];
    StepValueLiteral(st, text);
    var n := |st.unnamed| - 1;
    var s4 := State(st.unnamed[..n], st.named[a := Cell(st.next, RemoveQuotes(text), map[])], InNamed(a), false, st.next + 1);
    StepEquals(s4);
    var s5 := s4.(inExpr := true);
    assert s5.unnamed[|s5.unnamed| - 1].ident == x;
    StepNamedTuple(s5, inner);
    RunFrom(ts, 0, st);
    RunFrom(ts, 1, s4);
    RunFrom(ts, 2, s5);
    assert ts[0..] == ts && ts[3..] == [];
  }

  /**
   * `Model(x a = "v" = (...))`: inside the group the cell named[a] is given to
   * named[x] as well, so the `Model` token's arguments hold one cell twice. The
   * token is unnamed, so the call itself returns normally, with an empty named map;
   * only pulling the token from the iterator panics.
   */
  lemma UnnamedSharedCellIsLazy(model: string, x: string, a: string, text: string, inner: seq<TokenTree>)
    requires x != a && IsIdent(RemoveQuotes(text))
    requires Parse(inner, 4).Success?
    ensures var body := [Ident(x), Ident(a), Punct('='), Literal(text), Punct('='), Group(Parenthesis, inner)];
      var r := ParseIdentAttributes([Ident(model), Group(Parenthesis, body)]);
      r == Success(([Failure(SharedCell)], map[]))
  {
    var body := [Ident(x), Ident(a), Punct('='), Literal(text), Punct('='), Group(Parenthesis, inner)];
    SharedInGroup(x, a, text, inner);
    var ts := [Ident(model), Group(Parenthesis, body)];
    assert Run([], Start(0)) == Success(Start(0));
    GroupAttachesArguments([], model, body);
    assert [] + ts == ts;
    var p := Parse(ts, 0).value;
    assert |p.unnamed| == 1 && p.named == map[] && !Unwrappable(p.unnamed[0]);
    var r := ParseIdentAttributes(ts);
    assert r.value.0 == [Failure(SharedCell)];
    assert r.value.1 == map[];
  }

  /** The group body `x a = "v" = (...)`, parsed from serial 1: one cell held under two names. */
  lemma SharedInGroup(x: string, a: string, text: string, inner: seq<TokenTree>)
    requires x != a && IsIdent(RemoveQuotes(text))
    requires Parse(inner, 4).Success?
    ensures var r := Parse([Ident(x), Ident(a), Punct('='), Literal(text), Punct('='), Group(Parenthesis, inner)], 1);
      r.Success? && !Unshared(r.value.named)
  {
    var head := [Ident(x), Ident(a), Punct('=')];
    var tail := [Literal(text), Punct('='), Group(Parenthesis, inner)];
    NameValueHead(Start(1), x, a);
    var s3 := Start(1).(unnamed := [Cell(1, x, map[]), Cell(2, a, map[])], last := InUnnamed, inExpr := true, next := 3);
    assert Start(1).unnamed + [Cell(1, x, map[]), Cell(2, a, map[])] == s3.unnamed;
    RunAppend(head, tail, Start(1));
    SharedTail(s3, x, a, text, inner);
    assert head + tail == [Ident(x), Ident(a), Punct('='), Literal(text), Punct('='), Group(Parenthesis, inner)];
  }
}
