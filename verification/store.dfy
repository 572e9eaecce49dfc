/**
 * The database the generated resolvers talk to through Diesel, as in-memory tables.
 * A query names a table, an optional `WHERE` condition, `LIMIT` and `OFFSET`; the
 * answer lists the matching rows in table order (the generated queries have no
 * `ORDER BY`), skips `OFFSET` of them and keeps at most `LIMIT`. Every request is
 * appended to the database's log, so the number and shape of the queries a
 * resolver issues can be stated.
 */
module Store {
  import opened Wrappers
  import opened Ascii
  import opened Search

  /** Primary and foreign key values. */
  type Key = int

  /**
   * A row: its primary key `id`, its key-valued columns (foreign keys, the key
   * stored in a `HasOne` field) and its text columns.
   */
  datatype Row = Row(id: Key, keys: map<string, Key>, texts: map<string, string>)

  /** The conditions the generated code builds. */
  datatype Condition =
    | IdEquals(id: Key)                             // `table::id.eq(id)`
    | IdIn(ids: seq<Key>)                           // `table::id.eq_any(ids)`
    | ColumnEquals(column: string, value: Key)      // `foreign_key.eq(id)`
    | ColumnIn(column: string, values: seq<Key>)    // `table::foreign_key.eq_any(ids)`
    | TextILike(column: string, pattern: string)    // `table::field.ilike(pattern)`
    | Or(left: Condition, right: Condition)
    | And(left: Condition, right: Condition)

  /** The value of a key column, when the row has it. */
  function Column(row: Row, column: string): Option<Key>
  {
    if column in row.keys then Some(row.keys[column]) else None
  }

  predicate Holds(c: Condition, row: Row)
  {
    match c
    case IdEquals(id) => row.id == id
    case IdIn(ids) => row.id in ids
    case ColumnEquals(column, value) => Column(row, column) == Some(value)
    case ColumnIn(column, values) => column in row.keys && row.keys[column] in values
    case TextILike(column, pattern) => column in row.texts && ILike(row.texts[column], pattern)
    case Or(l, r) => Holds(l, row) || Holds(r, row)
    case And(l, r) => Holds(l, row) && Holds(r, row)
  }

  /** A query without `WHERE` selects every row. */
  predicate Selects(where: Option<Condition>, row: Row)
  {
    where.None? || Holds(where.value, row)
  }

  /** PostgreSQL refuses a `LIKE` pattern that ends in the escape character. */
  predicate PatternsAccepted(c: Condition)
  {
    match c
    case TextILike(_, pattern) => WellFormedPattern(LowerAll(pattern))
    case Or(l, r) => PatternsAccepted(l) && PatternsAccepted(r)
    case And(l, r) => PatternsAccepted(l) && PatternsAccepted(r)
    case _ => true
  }

  /** Diesel's `or_filter`: OR with the condition so far, or the condition alone when there is none. */
  function OrWhere(where: Option<Condition>, c: Condition): (r: Option<Condition>)
    ensures r.Some?
    ensures forall row :: Holds(r.value, row) <==> (where.Some? && Holds(where.value, row)) || Holds(c, row)
  {
    if where.Some? then Some(Or(where.value, c)) else Some(c)
  }

  /** Diesel's `filter`: AND with the condition so far, or the condition alone when there is none. */
  function AndWhere(where: Option<Condition>, c: Condition): (r: Option<Condition>)
    ensures r.Some?
    ensures forall row :: Holds(r.value, row) <==> Selects(where, row) && Holds(c, row)
  {
    if where.Some? then Some(And(where.value, c)) else Some(c)
  }

  datatype Query = Query(schema: string, where: Option<Condition>, limit: Option<int>, offset: Option<int>)

  datatype DbError =
    | NoSuchTable(schema: string)   // the relation does not exist
    | NegativeLimit                 // LIMIT must not be negative
    | NegativeOffset                // OFFSET must not be negative
    | BadPattern                    // LIKE pattern must not end with escape character
    | NotFound                      // `get_result` on an empty answer

  /** The rows satisfying `where`, in table order. */
  function Matching(rows: seq<Row>, where: Option<Condition>): (r: seq<Row>)
    ensures |r| <= |rows|
    ensures forall x :: x in r <==> x in rows && Selects(where, x)
  {
    if rows == [] then []
    else if Selects(where, rows[0]) then [rows[0]] + Matching(rows[1..], where)
    else Matching(rows[1..], where)
  }

  /** `OFFSET offset LIMIT limit` applied to rows already filtered. */
  function Window(rows: seq<Row>, offset: nat, limit: Option<nat>): (r: seq<Row>)
    ensures offset >= |rows| ==> r == []
    ensures offset < |rows| ==> offset + |r| <= |rows| && r == rows[offset..offset + |r|]
    ensures limit.Some? ==> |r| == if offset >= |rows| then 0 else Min(limit.value, |rows| - offset)
    ensures limit.None? ==> |r| == if offset >= |rows| then 0 else |rows| - offset
  {
    var rest := if offset >= |rows| then [] else rows[offset..];
    if limit.Some? && limit.value < |rest| then rest[..limit.value] else rest
  }

  function Min(a: int, b: int): int { if a <= b then a else b }

  /** Which error, if any, PostgreSQL reports for the query. */
  function Rejection(tables: map<string, seq<Row>>, q: Query): Option<DbError>
  {
    if q.schema !in tables then Some(NoSuchTable(q.schema))
    else if q.limit.Some? && q.limit.value < 0 then Some(NegativeLimit)
    else if q.offset.Some? && q.offset.value < 0 then Some(NegativeOffset)
    else if q.where.Some? && !PatternsAccepted(q.where.value) then Some(BadPattern)
    else None
  }

  /** `load`: the rows the query returns, or the error the database reports. */
  function Answer(tables: map<string, seq<Row>>, q: Query): (r: Result<seq<Row>, DbError>)
    ensures r.Failure? <==> Rejection(tables, q).Some?
    ensures r.Failure? ==> r.error == Rejection(tables, q).value
    ensures r.Success? ==> forall x :: x in r.value ==> x in tables[q.schema] && Selects(q.where, x)
    ensures r.Success? && q.limit.Some? ==> |r.value| <= q.limit.value
    ensures r.Success? && q.limit.None? && q.offset.None? ==>
      forall x :: x in tables[q.schema] && Selects(q.where, x) ==> x in r.value
  {
    if Rejection(tables, q).Some? then Failure(Rejection(tables, q).value)
    else
      var rows := Matching(tables[q.schema], q.where);
      var offset: nat := q.offset.UnwrapOr(0);
      var limit: Option<nat> := if q.limit.Some? then Some(q.limit.value as nat) else None;
      var r := Window(rows, offset, limit);
      assert forall x :: x in r ==> x in rows;
      Success(r)
  }

  /** `get_result` on an answer: its first row; an empty answer is `NotFound`, an error stays an error. */
  function FirstOf(a: Result<seq<Row>, DbError>): (r: Result<Row, DbError>)
    ensures r.Success? <==> a.Success? && a.value != []
    ensures r.Success? ==> r.value in a.value
    ensures a.Failure? ==> r == Failure(a.error)
  {
    var rows :- a;
    if rows == [] then Failure(NotFound) else Success(rows[0])
  }

  /** `get_result` over `tables`: a row the query selects, or an error when it selects none. */
  function FirstRow(tables: map<string, seq<Row>>, q: Query): (r: Result<Row, DbError>)
    ensures r.Success? ==> q.schema in tables && r.value in tables[q.schema] && Selects(q.where, r.value)
    ensures r.Failure? <==> Answer(tables, q).Failure? || Answer(tables, q).value == []
  {
    FirstOf(Answer(tables, q))
  }

  /** juniper's `FieldError`, as the resolvers build it from a message. */
  datatype FieldError = FieldError(message: string)

  /** `error.to_string()` for the errors above. */
  function Describe(e: DbError): string
  {
    match e
    case NoSuchTable(schema) => "relation \"" + schema + "\" does not exist"
    case NegativeLimit => "LIMIT must not be negative"
    case NegativeOffset => "OFFSET must not be negative"
    case BadPattern => "LIKE pattern must not end with escape character"
    case NotFound => "NotFound"
  }

  /** What a database answers to each query. */
  type Answers = Query -> Result<seq<Row>, DbError>

  /**
   * A database connection: fixed tables, the answer it gives to each query, and the
   * log of every query sent.
   */
  class Database {
    const tables: map<string, seq<Row>>
    const answer: Answers
    var log: seq<Query>

    /** The connection answers every query as `Answer` says over its tables. */
    ghost predicate Sound()
    {
      forall q :: answer(q) == Answer(tables, q)
    }

    constructor (tables: map<string, seq<Row>>)
      ensures this.tables == tables && log == [] && Sound()
    {
      this.tables := tables;
      answer := q => Answer(tables, q);
      log := [];
    }

    /** `query.load(&connection)`. */
    method Load(q: Query) returns (r: Result<seq<Row>, DbError>)
      modifies this
      ensures log == old(log) + [q]
      ensures r == answer(q)
    {
      log := log + [q];
      r := answer(q);
    }

    /** `query.get_result(&connection)`. */
    method GetResult(q: Query) returns (r: Result<Row, DbError>)
      modifies this
      ensures log == old(log) + [q]
      ensures r == FirstOf(answer(q))
    {
      log := log + [q];
      r := FirstOf(answer(q));
    }
  }
}
