/**
 * The bookkeeping of the generated `preload_children`: the key lists it gathers
 * per target model (`type_to_ids`), their sort and dedup, the key-to-row map
 * built by zipping sorted keys with fetched rows, and the partition of fetched
 * rows by foreign key.
 */
module Keys {
  import opened Wrappers
  import opened Store
  import opened Registry

  predicate StrictlyIncreasing(s: seq<Key>)
  {
    forall i, j :: 0 <= i < j < |s| ==> s[i] < s[j]
  }

  /** `x` placed into a strictly increasing sequence; an equal element is not repeated. */
  function Insert(x: Key, s: seq<Key>): (r: seq<Key>)
    ensures forall y :: y in r <==> y == x || y in s
  {
    if s == [] then [x]
    else if x < s[0] then [x] + s
    else if x == s[0] then s
    else [s[0]] + Insert(x, s[1..])
  }

  lemma {:induction false} InsertIncreasing(x: Key, s: seq<Key>)
    requires StrictlyIncreasing(s)
    ensures StrictlyIncreasing(Insert(x, s))
  {
    if s != [] && x > s[0] {
      InsertIncreasing(x, s[1..]);
      var rest := Insert(x, s[1..]);
      assert forall y :: y in rest ==> s[0] < y;
      var r := [s[0]] + rest;
      forall i, j | 0 <= i < j < |r|
        ensures r[i] < r[j]
      {
        if i == 0 {
          assert r[j] in rest;
        } else {
          assert r[i] == rest[i - 1] && r[j] == rest[j - 1];
        }
      }
    }
  }

  /** `sort()` followed by `dedup()`: the distinct keys in increasing order. */
  function SortedDistinct(s: seq<Key>): (r: seq<Key>)
    ensures forall y :: y in r <==> y in s
  {
    if s == [] then [] else Insert(s[|s| - 1], SortedDistinct(s[..|s| - 1]))
  }

  lemma {:induction false} SortedDistinctIncreasing(s: seq<Key>)
    ensures StrictlyIncreasing(SortedDistinct(s))
  {
    if s != [] {
      SortedDistinctIncreasing(s[..|s| - 1]);
      InsertIncreasing(s[|s| - 1], SortedDistinct(s[..|s| - 1]));
    }
  }

  lemma SameElementsBothEmpty(a: seq<Key>, b: seq<Key>)
    requires forall y :: y in a <==> y in b
    ensures a == [] <==> b == []
  {
    if a != [] {
      var y := a[0];
      assert y in a;
    }
    if b != [] {
      var y := b[0];
      assert y in b;
    }
  }

  /** Two strictly increasing sequences with the same elements are the same sequence. */
  lemma {:induction false} IncreasingUnique(a: seq<Key>, b: seq<Key>)
    requires StrictlyIncreasing(a) && StrictlyIncreasing(b)
    requires forall y :: y in a <==> y in b
    ensures a == b
  {
    SameElementsBothEmpty(a, b);
    if a != [] {
      var x, y := a[0], b[0];
      assert x in a && y in b;
      assert x in b && y in a;
      assert a[0] == b[0];
      forall y
        ensures y in a[1..] <==> y in b[1..]
      {
        if y in a[1..] {
          assert y in a && y != a[0];
        }
        if y in b[1..] {
          assert y in b && y != b[0];
        }
      }
      IncreasingUnique(a[1..], b[1..]);
      assert a == [a[0]] + a[1..] && b == [b[0]] + b[1..];
    }
  }

  /** The sorted key list depends only on which keys were gathered, not on their order or repetition. */
  lemma SortedDistinctOfSameKeys(s: seq<Key>, t: seq<Key>)
    requires forall y :: y in s <==> y in t
    ensures SortedDistinct(s) == SortedDistinct(t)
  {
    SortedDistinctIncreasing(s);
    SortedDistinctIncreasing(t);
    IncreasingUnique(SortedDistinct(s), SortedDistinct(t));
  }

  /** Sorting and deduplicating an already sorted, duplicate-free list changes nothing. */
  lemma SortedDistinctOfSorted(s: seq<Key>)
    requires StrictlyIncreasing(s)
    ensures SortedDistinct(s) == s
  {
    SortedDistinctIncreasing(s);
    IncreasingUnique(SortedDistinct(s), s);
  }

  /**
   * Sorting in place twice is sorting once: a later edge to the same model sees the
   * list an earlier edge already sorted and gets the same keys.
   */
  lemma SortedDistinctIdempotent(s: seq<Key>)
    ensures SortedDistinct(SortedDistinct(s)) == SortedDistinct(s)
  {
    SortedDistinctIncreasing(s);
    SortedDistinctOfSorted(SortedDistinct(s));
  }

  /** The key an edge takes from a parent row: the stored key of a `HasOne` field, the row's own id for `HasMany`. */
  function EdgeKey(e: Edge, row: Row): Option<Key>
  {
    match e
    case HasOneEdge(field, _, _) => Column(row, field)
    case HasManyEdge(_, _, _, _) => Some(row.id)
  }

  /** What one parent row adds to the list of `model`, edge by edge in field order. */
  function RowKeys(edges: seq<Edge>, row: Row, model: string): seq<Key>
  {
    if edges == [] then []
    else
      var e := edges[|edges| - 1];
      RowKeys(edges[..|edges| - 1], row, model)
        + (if e.model == model && EdgeKey(e, row).Some? then [EdgeKey(e, row).value] else [])
  }

  /** The list `type_to_ids[model]` holds once every parent row was visited, parent by parent. */
  function KeysFor(edges: seq<Edge>, rows: seq<Row>, model: string): seq<Key>
  {
    if rows == [] then []
    else KeysFor(edges, rows[..|rows| - 1], model) + RowKeys(edges, rows[|rows| - 1], model)
  }

  /** One parent row's keys for `model` are the keys its edges to `model` take. */
  lemma {:induction false} RowKeysMembership(edges: seq<Edge>, row: Row, model: string, k: Key)
    ensures k in RowKeys(edges, row, model) <==>
      exists j :: 0 <= j < |edges| && edges[j].model == model && EdgeKey(edges[j], row) == Some(k)
  {
    if edges != [] {
      var init := edges[..|edges| - 1];
      RowKeysMembership(init, row, model, k);
      if exists j :: 0 <= j < |edges| && edges[j].model == model && EdgeKey(edges[j], row) == Some(k) {
        var j :| 0 <= j < |edges| && edges[j].model == model && EdgeKey(edges[j], row) == Some(k);
        if j < |edges| - 1 {
          assert init[j] == edges[j];
        }
      }
      if exists j :: 0 <= j < |init| && init[j].model == model && EdgeKey(init[j], row) == Some(k) {
        var j :| 0 <= j < |init| && init[j].model == model && EdgeKey(init[j], row) == Some(k);
        assert edges[j] == init[j];
      }
    }
  }

  /**
   * A key is in the list of `model` exactly when some parent row gives it through
   * some edge whose target is `model`: edges to the same model share one list.
   */
  lemma {:induction false} KeysForMembership(edges: seq<Edge>, rows: seq<Row>, model: string, k: Key)
    ensures k in KeysFor(edges, rows, model) <==>
      exists i, j :: 0 <= i < |rows| && 0 <= j < |edges| && edges[j].model == model && EdgeKey(edges[j], rows[i]) == Some(k)
  {
    if rows != [] {
      KeysForMembership(edges, rows[..|rows| - 1], model, k);
      RowKeysMembership(edges, rows[|rows| - 1], model, k);
      GivenBySplit(edges, rows, model, k);
    }
  }

  /** Some parent row gives `k` exactly when some row before the last does or the last one does. */
  lemma GivenBySplit(edges: seq<Edge>, rows: seq<Row>, model: string, k: Key)
    requires rows != []
    ensures var init, last := rows[..|rows| - 1], rows[|rows| - 1];
      (exists i, j :: 0 <= i < |rows| && 0 <= j < |edges| && edges[j].model == model && EdgeKey(edges[j], rows[i]) == Some(k))
      <==> (|| (exists i, j :: 0 <= i < |init| && 0 <= j < |edges| && edges[j].model == model && EdgeKey(edges[j], init[i]) == Some(k))
            || (exists j :: 0 <= j < |edges| && edges[j].model == model && EdgeKey(edges[j], last) == Some(k)))
  {
    var init, last := rows[..|rows| - 1], rows[|rows| - 1];
    if exists i, j :: 0 <= i < |rows| && 0 <= j < |edges| && edges[j].model == model && EdgeKey(edges[j], rows[i]) == Some(k) {
      var i, j :| 0 <= i < |rows| && 0 <= j < |edges| && edges[j].model == model && EdgeKey(edges[j], rows[i]) == Some(k);
      if i < |rows| - 1 {
        assert init[i] == rows[i];
      }
    }
    if exists i, j :: 0 <= i < |init| && 0 <= j < |edges| && edges[j].model == model && EdgeKey(edges[j], init[i]) == Some(k) {
      var i, j :| 0 <= i < |init| && 0 <= j < |edges| && edges[j].model == model && EdgeKey(edges[j], init[i]) == Some(k);
      assert rows[i] == init[i];
    }
  }

  /** The list of `model` after `i` whole parent rows and the first `j` edges of row `i`. */
  function PartialKeys(edges: seq<Edge>, rows: seq<Row>, i: nat, j: nat, model: string): seq<Key>
    requires i < |rows| && j <= |edges|
  {
    KeysFor(edges, rows[..i], model) + RowKeys(edges[..j], rows[i], model)
  }

  /** `keys` holds a non-empty list for exactly the models `expected` gives keys to, and that list. */
  ghost predicate Gathered(keys: map<string, seq<Key>>, edges: seq<Edge>, rows: seq<Row>, i: nat, j: nat)
    requires i < |rows| && j <= |edges|
  {
    forall m :: (m in keys <==> PartialKeys(edges, rows, i, j, m) != [])
                && (m in keys ==> keys[m] == PartialKeys(edges, rows, i, j, m))
  }

  /** `type_to_ids.entry(model).or_insert(Vec::new()).push(key)`. */
  function Push(keys: map<string, seq<Key>>, model: string, k: Key): (r: map<string, seq<Key>>)
    ensures model in r && r[model] == (if model in keys then keys[model] else []) + [k]
    ensures forall m :: m != model ==> (m in r <==> m in keys) && (m in keys ==> r[m] == keys[m])
  {
    keys[model := (if model in keys then keys[model] else []) + [k]]
  }

  /** Visiting edge `j` of row `i` appends that edge's key, if any, to its model's list alone. */
  lemma PartialKeysStep(edges: seq<Edge>, rows: seq<Row>, i: nat, j: nat, m: string)
    requires i < |rows| && j < |edges|
    ensures PartialKeys(edges, rows, i, j + 1, m) == PartialKeys(edges, rows, i, j, m)
      + (if edges[j].model == m && EdgeKey(edges[j], rows[i]).Some? then [EdgeKey(edges[j], rows[i]).value] else [])
  {
    assert edges[..j + 1][..j] == edges[..j];
    assert edges[..j + 1][j] == edges[j];
  }

  lemma PushGathers(keys: map<string, seq<Key>>, edges: seq<Edge>, rows: seq<Row>, i: nat, j: nat)
    requires i < |rows| && j < |edges|
    requires Gathered(keys, edges, rows, i, j)
    ensures var k := EdgeKey(edges[j], rows[i]);
      Gathered(if k.Some? then Push(keys, edges[j].model, k.value) else keys, edges, rows, i, j + 1)
  {
    var k := EdgeKey(edges[j], rows[i]);
    var keys' := if k.Some? then Push(keys, edges[j].model, k.value) else keys;
    forall m
      ensures (m in keys' <==> PartialKeys(edges, rows, i, j + 1, m) != [])
              && (m in keys' ==> keys'[m] == PartialKeys(edges, rows, i, j + 1, m))
    {
      PartialKeysStep(edges, rows, i, j, m);
    }
  }

  /** Once every edge of row `i` was visited, the lists are those of the first `i + 1` rows. */
  lemma RowComplete(edges: seq<Edge>, rows: seq<Row>, i: nat, m: string)
    requires i < |rows|
    ensures PartialKeys(edges, rows, i, |edges|, m) == KeysFor(edges, rows[..i + 1], m)
  {
    assert edges[..|edges|] == edges;
    assert rows[..i + 1][..i] == rows[..i];
    assert rows[..i + 1][i] == rows[i];
  }

  lemma RowGathered(keys: map<string, seq<Key>>, edges: seq<Edge>, rows: seq<Row>, i: nat)
    requires i < |rows|
    requires Gathered(keys, edges, rows, i, |edges|)
    ensures forall m :: (m in keys <==> KeysFor(edges, rows[..i + 1], m) != [])
                        && (m in keys ==> keys[m] == KeysFor(edges, rows[..i + 1], m))
  {
    forall m
      ensures (m in keys <==> KeysFor(edges, rows[..i + 1], m) != [])
              && (m in keys ==> keys[m] == KeysFor(edges, rows[..i + 1], m))
    {
      RowComplete(edges, rows, i, m);
    }
  }

  lemma NextRowGathered(keys: map<string, seq<Key>>, edges: seq<Edge>, rows: seq<Row>, i: nat)
    requires i < |rows|
    requires forall m :: (m in keys <==> KeysFor(edges, rows[..i], m) != [])
                         && (m in keys ==> keys[m] == KeysFor(edges, rows[..i], m))
    ensures Gathered(keys, edges, rows, i, 0)
  {
    assert edges[..0] == [];
  }

  /**
   * The id-extractor loop: for each parent row in order, each relation edge pushes
   * its key onto the list of its target model, creating the list on first use.
   */
  method AggregateKeys(edges: seq<Edge>, rows: seq<Row>) returns (keys: map<string, seq<Key>>)
    ensures forall m :: m in keys <==> KeysFor(edges, rows, m) != []
    ensures forall m :: m in keys ==> keys[m] == KeysFor(edges, rows, m)
  {
    keys := map[];
    for i := 0 to |rows|
      invariant forall m :: (m in keys <==> KeysFor(edges, rows[..i], m) != [])
                            && (m in keys ==> keys[m] == KeysFor(edges, rows[..i], m))
    {
      NextRowGathered(keys, edges, rows, i);
      for j := 0 to |edges|
        invariant Gathered(keys, edges, rows, i, j)
      {
        PushGathers(keys, edges, rows, i, j);
        var k := EdgeKey(edges[j], rows[i]);
        if k.Some? {
          keys := Push(keys, edges[j].model, k.value);
        }
      }
      RowGathered(keys, edges, rows, i);
    }
    assert rows[..|rows|] == rows;
  }

  /**
   * `HashMap::from_iter(keys.iter().zip(values))`: the i-th key maps to the i-th
   * value, as far as the shorter side goes; a later equal key would overwrite.
   */
  function ZipMap<T>(ks: seq<Key>, vs: seq<T>): (r: map<Key, T>)
    ensures forall k :: k in r <==> exists i :: 0 <= i < |ks| && i < |vs| && ks[i] == k
  {
    if ks == [] || vs == [] then map[]
    else
      var rest := ZipMap(ks[1..], vs[1..]);
      assert forall i :: 0 <= i < |ks| - 1 ==> ks[1..][i] == ks[i + 1];
      map[ks[0] := vs[0]] + rest
  }

  /** With strictly increasing keys, no key is overwritten: the i-th key maps to the i-th value. */
  lemma {:induction false} ZipMapAt<T>(ks: seq<Key>, vs: seq<T>)
    requires StrictlyIncreasing(ks)
    ensures forall i :: 0 <= i < |ks| && i < |vs| ==> ZipMap(ks, vs)[ks[i]] == vs[i]
  {
    if ks != [] && vs != [] {
      ZipMapAt(ks[1..], vs[1..]);
      forall i | 1 <= i < |ks| && i < |vs|
        ensures ZipMap(ks, vs)[ks[i]] == vs[i]
      {
        assert ks[1..][i - 1] == ks[i] && vs[1..][i - 1] == vs[i];
        assert ks[i] in ZipMap(ks[1..], vs[1..]);
      }
    }
  }

  /** Every value of the map is one of the values zipped. */
  lemma {:induction false} ZipMapValues<T>(ks: seq<Key>, vs: seq<T>)
    ensures forall k :: k in ZipMap(ks, vs) ==> ZipMap(ks, vs)[k] in vs
  {
    if ks != [] && vs != [] {
      ZipMapValues(ks[1..], vs[1..]);
    }
  }

  /** The ids of rows, in order. */
  function Ids(rows: seq<Row>): (r: seq<Key>)
    ensures |r| == |rows| && forall i :: 0 <= i < |rows| ==> r[i] == rows[i].id
  {
    if rows == [] then [] else [rows[0].id] + Ids(rows[1..])
  }

  /** The rows are listed in increasing id order. */
  predicate IdsIncreasing(rows: seq<Row>)
  {
    forall i, j :: 0 <= i < j < |rows| ==> rows[i].id < rows[j].id
  }

  /** In a list with increasing ids, the head's id is below every later row's. */
  lemma HeadIdSmallest(rows: seq<Row>)
    requires rows != [] && IdsIncreasing(rows)
    ensures forall x :: x in rows[1..] ==> rows[0].id < x.id
  {
    forall x | x in rows[1..]
      ensures rows[0].id < x.id
    {
      var k :| 0 <= k < |rows[1..]| && rows[1..][k] == x;
      assert x == rows[k + 1];
    }
  }

  /** A row below every row of an increasing list can go in front of it. */
  lemma ConsIdsIncreasing(x: Row, rows: seq<Row>)
    requires IdsIncreasing(rows)
    requires forall y :: y in rows ==> x.id < y.id
    ensures IdsIncreasing([x] + rows)
  {
    var r := [x] + rows;
    forall i, j | 0 <= i < j < |r|
      ensures r[i].id < r[j].id
    {
      if i == 0 {
        assert r[j] == rows[j - 1];
        assert r[j] in rows;
      } else {
        assert r[i] == rows[i - 1] && r[j] == rows[j - 1];
      }
    }
  }

  lemma {:induction false} MatchingKeepsIncreasingIds(table: seq<Row>, where: Option<Condition>)
    requires IdsIncreasing(table)
    ensures IdsIncreasing(Matching(table, where))
  {
    if table != [] {
      var rest := table[1..];
      assert IdsIncreasing(rest) by {
        forall i, j | 0 <= i < j < |rest|
          ensures rest[i].id < rest[j].id
        {
          assert rest[i] == table[i + 1] && rest[j] == table[j + 1];
        }
      }
      MatchingKeepsIncreasingIds(rest, where);
      if Selects(where, table[0]) {
        HeadIdSmallest(table);
        ConsIdsIncreasing(table[0], Matching(rest, where));
      }
    }
  }

  /**
   * When the HasOne pairing is right: if the table lists its rows in increasing id
   * order and every key has a row, the i-th fetched row has the i-th key, so every
   * key maps to the row with that id.
   */
  lemma HasOnePairingCorrect(table: seq<Row>, keys: seq<Key>)
    requires IdsIncreasing(table)
    requires StrictlyIncreasing(keys)
    requires forall k :: k in keys ==> k in Ids(table)
    ensures var rows := Matching(table, Some(IdIn(keys)));
      forall k :: k in keys ==> k in ZipMap(keys, rows) && ZipMap(keys, rows)[k].id == k
  {
    var rows := Matching(table, Some(IdIn(keys)));
    MatchingKeepsIncreasingIds(table, Some(IdIn(keys)));
    assert StrictlyIncreasing(Ids(rows));
    forall y
      ensures y in Ids(rows) <==> y in keys
    {
      if y in Ids(rows) {
        var i :| 0 <= i < |rows| && Ids(rows)[i] == y;
        assert rows[i] in rows;
      }
      if y in keys {
        var i :| 0 <= i < |table| && Ids(table)[i] == y;
        assert table[i] in table && Selects(Some(IdIn(keys)), table[i]);
        var j :| 0 <= j < |rows| && rows[j] == table[i];
        assert Ids(rows)[j] == y;
      }
    }
    IncreasingUnique(Ids(rows), keys);
    ZipMapAt(keys, rows);
    forall k | k in keys
      ensures k in ZipMap(keys, rows) && ZipMap(keys, rows)[k].id == k
    {
      var i :| 0 <= i < |keys| && keys[i] == k;
      assert Ids(rows)[i] == k;
    }
  }

  /**
   * When it is wrong: a key without a row shifts the pairing. With keys 1 and 2 and
   * only row 2 in the table, key 1 is paired with row 2 and key 2 with nothing.
   */
  lemma DanglingKeyShiftsPairing()
    ensures var row2 := Row(2, map[], map[]);
      ZipMap([1, 2], Matching([row2], Some(IdIn([1, 2])))) == map[1 := row2]
  {
    var row2 := Row(2, map[], map[]);
    assert Matching([row2], Some(IdIn([1, 2]))) == [row2];
    var none: seq<Row> := [];
    assert ZipMap([2], none) == map[];
  }

  /** The rows whose `column` holds `k`, in fetch order: one entry of `forign_key_to_models`. */
  function Bucket(rows: seq<Row>, column: string, k: Key): (r: seq<Row>)
    ensures |r| <= |rows|
    ensures forall x :: x in r <==> x in rows && Column(x, column) == Some(k)
  {
    if rows == [] then []
    else if Column(rows[0], column) == Some(k) then [rows[0]] + Bucket(rows[1..], column, k)
    else Bucket(rows[1..], column, k)
  }

  /**
   * A parent's bucket of the batched `eq_any` load is the fallback's own answer,
   * `foreign_key.eq(id)` on the same table, as long as no `LIMIT`/`OFFSET` cuts the batch.
   */
  lemma {:induction false} HasManyBucketIsFallback(table: seq<Row>, fk: string, ids: seq<Key>, k: Key)
    requires k in ids
    ensures Bucket(Matching(table, Some(ColumnIn(fk, ids))), fk, k) == Matching(table, Some(ColumnEquals(fk, k)))
  {
    if table != [] {
      HasManyBucketIsFallback(table[1..], fk, ids, k);
    }
  }

  /** The key lists as the preloaders see them: gathered, and possibly already sorted in place. */
  ghost predicate KeyLists(keys: map<string, seq<Key>>, edges: seq<Edge>, rows: seq<Row>)
  {
    forall m :: (m in keys <==> KeysFor(edges, rows, m) != [])
                && (m in keys ==> SortedDistinct(keys[m]) == SortedDistinct(KeysFor(edges, rows, m)))
  }

  lemma KeyListsHas(keys: map<string, seq<Key>>, edges: seq<Edge>, rows: seq<Row>, m: string)
    requires KeyLists(keys, edges, rows)
    ensures m in keys <==> KeysFor(edges, rows, m) != []
  {
  }

  /** `keys.get_mut(model)` then `sort()` and `dedup()`: the model's list, sorted in place. */
  method SortKeys(keys: map<string, seq<Key>>, edges: seq<Edge>, rows: seq<Row>, m: string)
    returns (keys': map<string, seq<Key>>, sorted: seq<Key>)
    requires KeyLists(keys, edges, rows) && m in keys
    ensures sorted == SortedDistinct(KeysFor(edges, rows, m))
    ensures KeyLists(keys', edges, rows)
  {
    sorted := SortedDistinct(keys[m]);
    SortedDistinctIdempotent(KeysFor(edges, rows, m));
    keys' := keys[m := sorted];
  }
}
