# Batched preloading and root resolvers of botanist and gin, in Dafny

botanist and gin are Rust procedural macros. They turn a Diesel model struct into a
GraphQL object for juniper. The generated code has four parts:

- a GraphQL struct with one preload slot per relation field (`HasOne`, `HasMany`);
- field resolvers that take a filled slot or fall back to a query of their own;
- `preload_children`, which fills the slots of a whole batch of objects with one
  query per selected relation and recurses into what it fetched (in gin the slots
  then receive new objects built from the fetched rows, so what that recursion
  loaded for the grandchildren is dropped; botanist instead moves the children it
  has just preloaded into the slots, botanist_codegen/src/macros/object.rs:265-277
  and 310-329);
- root resolvers (`resolve_single`, `resolve_multiple`) for every model.

This project models that generated code and the helpers the macros use to produce
it. The helpers are the attribute-token parser, the type classifier
(`type_relationship`), the naming helpers and `int_argument_from_look_ahead`.
Both crates are covered. botanist puts every slot behind a lock and returns database
errors as `Result`s. gin uses bare `RefCell`s and panics (`unwrap`) instead.

Module layout, one concern per file:

- `wrappers.dfy`: Option, Result, and panics as values.
- `ascii.dfy`: ASCII case mapping.
- `syn.dfy`: the slice of `syn` the macros read, and `Classify`, the reference
  definition of `type_relationship`.
- `attribute_parser.dfy`: `parse_ident_attributes` and its stream parser.
- `botanist_common.dfy`, `gin_common.dfy`: the two `common.rs` files.
- `lookahead.dfy`: juniper's look-ahead and `int_argument_from_look_ahead`.
- `store.dfy`: tables, queries, and a connection that logs every query it is sent.
- `registry.dfy`: each model's table and relation edges, as the object macros
  derive them from a struct.
- `keys.dfy`: the key lists of `preload_children`, their sort and dedup, the
  key-to-row zip and the partition by foreign key.
- `slots.dfy`: what both preloaders share.
- `preload.dfy`, `gin_preload.dfy`: the generated objects of each crate (classes
  whose slot maps the methods update) and their preloaders and field resolvers.
- `roots.dfy`, `query.dfy`, `gin_query.dfy`: the root resolvers.

Each imperative operation is a method proved against a pure function over the same
inputs. For example, `PreloadChildren` against `Preload`, `AggregateKeys` against
`KeysFor`, and `TypeRelationship` against `Classify`. The promised properties are
then lemmas about those functions:

- a relation is fetched exactly when it is selected;
- the sorted key list does not depend on gathering order;
- the HasOne pairing is right when the table lists rows by id and every key has a
  row, and shifts when a key has none;
- a HasMany batch shares one `LIMIT` across all parents;
- a gin list that comes back empty panics exactly when a HasMany relation is
  selected;
- the search filter is a case-insensitive substring test that widens an id list.

`botanist/src/macro_helpers.rs` and `gin/src/macro_helpers.rs` hold the same
function under different variable names. `LookAhead.IntArgument` models both.

## Model

| member | source | states |
|---|---|---|
| Ascii.ToLower | botanist_codegen/src/common.rs:325-333 | an ASCII upper-case letter becomes the lower-case letter 32 code points above; every other character is kept |
| Ascii.ToUpper | gin_codegen/src/common.rs:93-99 | an ASCII lower-case letter becomes the upper-case letter 32 code points below; every other character is kept |
| Ascii.LowerAll | gin_codegen/src/common.rs:87-89 | one output character per input character, each the lower-cased input character at that position |
| Syn.GenericPaths | botanist_codegen/src/common.rs:105-117 | succeeds exactly when every generic argument is a path type, and then gives those paths in order; otherwise it fails with the relation's own panic message |
| Syn.LastNamed | botanist_codegen/src/common.rs:304-307 | None exactly when no attribute has that name; otherwise an attribute with that name after which none has it |
| Syn.NonPathIsField | botanist_codegen/src/common.rs:91-151 | a type that is not a path is a plain field |
| Syn.NoGenericsIsField | botanist_codegen/src/common.rs:92-151 | a path without angle-bracketed segments is a plain field, whatever its segments are called |
| Syn.FirstGenericDecides | botanist_codegen/src/common.rs:92-147 | the first angle-bracketed segment ends the walk; its arguments are read under the last marker seen up to and including it |
| Syn.UnmarkedStaysUnmarked | botanist_codegen/src/common.rs:89-99 | the marker stays unmarked while no segment is called `HasOne` or `HasMany` |
| Syn.MarkerAtLast | botanist_codegen/src/common.rs:93-99 | a segment called `HasOne` (`HasMany`) sets that marker, whatever came before it |
| Syn.UnmarkedGenericIsField | botanist_codegen/src/common.rs:101-103 | generics reached without a relation marker (`Option<T>`, `Vec<T>`) make a plain field |
| Syn.HasOneArguments | botanist_codegen/src/common.rs:104-123 | `HasOne<A, B, C>` behind any module path gives id type A, schema B and model C |
| Syn.HasManyArguments | botanist_codegen/src/common.rs:125-144 | `HasMany<A, B, C>` gives schema A, foreign-key column B and model C |
| Syn.RelationWithNonPathArgumentPanics | botanist_codegen/src/common.rs:108-116 | a relation with a generic argument that is not a path type panics |
| Syn.RelationWithTooFewArgumentsPanics | botanist_codegen/src/common.rs:119-121 | a relation with fewer than three generic arguments panics (`remove(2)`) |
| BotanistCommon.LowerFirst | botanist_codegen/src/common.rs:325-333 | panics exactly on the empty string; otherwise same length, first character lower-cased, the rest unchanged |
| BotanistCommon.PreloadField | botanist_codegen/src/common.rs:154-156 | the field name followed by exactly `_preloaded` |
| BotanistCommon.GqlStruct | botanist_codegen/src/common.rs:158-160 | the model name followed by exactly `GQL` |
| BotanistCommon.PreloadFieldInjective | botanist_codegen/src/common.rs:154-156 | distinct fields get distinct slot names |
| BotanistCommon.TypeRelationship | botanist_codegen/src/common.rs:88-152 | the walk with its mutable marker and its three `remove`s computes `Classify`, the panics included |
| BotanistCommon.SchemaFromStruct | botanist_codegen/src/common.rs:303-323 | panics without a `table_name` attribute. For the last one: its string as an identifier; None for any other form; a panic when the string is not an identifier |
| BotanistCommon.SchemaFromLastAttribute | botanist_codegen/src/common.rs:304-307 | a later `table_name` attribute overrides every earlier one |
| GinCommon.Uppercase | gin_codegen/src/common.rs:93-99 | same length; the first character upper-cased, every later one lower-cased |
| GinCommon.Split | gin_codegen/src/common.rs:81 | at least one part, and no part contains `_` |
| GinCommon.SplitJoin | gin_codegen/src/common.rs:81 | joining the parts with `_` gives the input back |
| GinCommon.SplitLength | gin_codegen/src/common.rs:81 | one part more than there are underscores; the parts hold every other character |
| GinCommon.CapitalizedTailLength | gin_codegen/src/common.rs:87-89 | capitalising the later parts keeps their total length |
| GinCommon.CapitalizedTailNoSeparator | gin_codegen/src/common.rs:87-89 | capitalised parts contain no `_` |
| GinCommon.CamelCaseShape | gin_codegen/src/common.rs:79-91 | `to_camel_case` removes exactly the underscores: no `_` left, and the input length minus their number |
| GinCommon.CamelCaseWithoutSeparator | gin_codegen/src/common.rs:79-91 | a name without `_` is its own camel case |
| GinCommon.ToCamelCase | gin_codegen/src/common.rs:79-91 | the loop with its `first` flag computes the first part verbatim followed by every later part capitalised |
| GinCommon.AttributeFromStruct | gin_codegen/src/common.rs:19-35 | panics exactly when no attribute has the name. A literal result is that of a `name = literal` attribute with no later namesake. None means the last namesake has another form or does not parse |
| GinCommon.AttributeFromStructAsIdent | gin_codegen/src/common.rs:37-45 | a string literal twice (string and identifier), a panic if it is not an identifier, (None, None) for any other literal or form; it panics whenever `attribute_from_struct` does |
| GinCommon.GinTypeRelationship | gin_codegen/src/common.rs:101-159 | gin's copy, which indexes `generics[0..2]`, computes the same `Classify` as botanist's `remove`s |
| LookAhead.FindArgument | botanist/src/macro_helpers.rs:10-11 | None exactly when no argument has the name; otherwise the first argument with it |
| LookAhead.SelectChild | botanist_codegen/src/macros/object.rs:252 | None exactly when no child has the name; otherwise the first child with it |
| LookAhead.IntArgument | botanist/src/macro_helpers.rs:5-20 | the first argument's value when it is an integer scalar; the default when the argument is missing, is a scalar of another kind, or is not a scalar |
| LookAhead.FirstIntArgumentWins | gin/src/macro_helpers.rs:10-19 | a later argument of the same name is never read |
| AttributeParser.RemoveQuotes | botanist_codegen/src/common.rs:280 | no `"` is left, and every other character of the literal is kept |
| AttributeParser.TupleMap | botanist_codegen/src/common.rs:250-256 | keyed by the tuple's identifiers; every value is an empty `_` token |
| AttributeParser.TupleArguments | botanist_codegen/src/common.rs:250-256 | the insertion loop builds that tuple map |
| AttributeParser.Run | botanist_codegen/src/common.rs:210-298 | the token loop keeps `last_token` pointing at an existing cell |
| AttributeParser.Step | botanist_codegen/src/common.rs:211-297 | each token keeps `last_token` pointing at an existing cell |
| AttributeParser.ParseFromStream | botanist_codegen/src/common.rs:196-301 | the loop over token trees, recursing into groups, computes `Parse` |
| AttributeParser.ParseGroup | botanist_codegen/src/common.rs:234-265 | the group branch computes one `Step` on a parenthesised group |
| AttributeParser.Unwrap | botanist_codegen/src/common.rs:35-53 | a cell becomes a token with the same identifier and argument names |
| AttributeParser.ParseIdentAttributes | botanist_codegen/src/common.rs:170-194 | passes parse panics on. The call succeeds exactly when no named cell is held twice and every named cell unwraps (`Rc::try_unwrap`); it then keeps every named key with its cell's whole token, identifier and arguments (`Unwrap`). The unnamed tokens come back one outcome per cell, in order (the lazy `map`): that cell's `UnwrapToken`, the whole token with its identifier and arguments when the cell unwraps, otherwise the unwrap panic |
| AttributeParser.UnwrapToken | botanist_codegen/src/common.rs:180-182 | one cell unwraps exactly when no cell below it is held twice, giving the token with its identifier and arguments; otherwise the `unwrap` panic |
| AttributeParser.UnnamedSharedCellIsLazy | botanist_codegen/src/common.rs:179-181 | `Model(x a = "v" = (...))`: the call returns normally with an empty named map; only the unnamed `Model` token, whose arguments hold one cell twice, panics when pulled |
| AttributeParser.RunAppend | botanist_codegen/src/common.rs:210 | the token loop is a left fold: parsing `a + b` is parsing `b` from the state after `a` |
| AttributeParser.RunFrom | botanist_codegen/src/common.rs:210 | a run from token `k` is that token's step followed by the rest |
| AttributeParser.StepBareIdent | botanist_codegen/src/common.rs:226-232 | outside an expression an identifier is pushed as a new unnamed cell and becomes `last_token` |
| AttributeParser.StepValueIdent | botanist_codegen/src/common.rs:212-225 | inside an expression an identifier pops the last unnamed name and becomes its value |
| AttributeParser.StepEquals | botanist_codegen/src/common.rs:269-270 | `=` only starts an expression |
| AttributeParser.StepTuple | botanist_codegen/src/common.rs:236-264 | `name = (a, b)` moves the name to the named map with the tuple as its arguments, and keeps the expression open |
| AttributeParser.StepValueLiteral | botanist_codegen/src/common.rs:274-294 | inside an expression a literal, quotes removed, becomes the value of the last unnamed name |
| AttributeParser.StepNamedTuple | botanist_codegen/src/common.rs:236-264 | a tuple after a named value gives that cell the tuple and files it under the popped name too |
| AttributeParser.BareStep | botanist_codegen/src/common.rs:226-233 | an identifier or `,` outside an expression appends at most that identifier and leaves the named map alone |
| AttributeParser.BareRun | botanist_codegen/src/common.rs:226-233 | a run of identifiers and commas appends exactly the identifiers, in order |
| AttributeParser.BareIdentifiersInOrder | botanist_codegen/src/common.rs:226-233 | such a stream parses to exactly its identifiers, in order, and no named values |
| AttributeParser.NamedIdentifier | botanist_codegen/src/common.rs:211-225 | `name = value` adds `name` to the named map with value `value` and leaves the unnamed list as it was |
| AttributeParser.NamedLiteral | botanist_codegen/src/common.rs:274-294 | `name = "text"` succeeds exactly when the unquoted text is an identifier, and then names it |
| AttributeParser.LiteralMustBeNamed | botanist_codegen/src/common.rs:275-277 | a literal outside an expression panics |
| AttributeParser.UnexpectedPunctuation | botanist_codegen/src/common.rs:266-273 | punctuation other than `=` and `,` panics |
| AttributeParser.ValueWithoutName | botanist_codegen/src/common.rs:212-213 | a value with no name before its `=` panics (`pop().unwrap()`) |
| AttributeParser.NonParenthesisGroupIgnored | botanist_codegen/src/common.rs:234-235 | a brace or bracket group changes nothing |
| AttributeParser.GroupAttachesArguments | botanist_codegen/src/common.rs:236-239 | `Model(...)` gives the unnamed `Model` cell the group's named values as arguments |
| AttributeParser.TupleEntry | botanist_codegen/src/common.rs:241-261 | `name = (...)` files `name` with the tuple's identifiers as argument keys |
| AttributeParser.IdentifierAfterTupleIsNamed | botanist_codegen/src/common.rs:241-264 | after a tuple the expression stays open, so in `Book searchable = (title) x` the `x` becomes `Book`'s value |
| AttributeParser.SharedRun | botanist_codegen/src/common.rs:258-260 | `x a = "v" = (...)` leaves one cell under both `x` and `a` |
| AttributeParser.SharedCellPanics | botanist_codegen/src/common.rs:180-188 | and `parse_ident_attributes` then panics in `Rc::try_unwrap` |
| Store.OrWhere | botanist_codegen/src/macros/query.rs:189 | `or_filter` selects the rows the earlier condition selects or the new one does, and only the new one's rows when there was none |
| Store.AndWhere | botanist_codegen/src/macros/query.rs:228 | `filter` selects the rows both conditions select |
| Store.Matching | botanist_codegen/src/macros/object.rs:257-259 | the rows satisfying the condition, none added |
| Store.Window | botanist_codegen/src/macros/query.rs:229-230 | `OFFSET`/`LIMIT` keep a contiguous run starting at the offset, as long as the limit allows |
| Store.Answer | botanist_codegen/src/macros/query.rs:247-248 | fails exactly when the database refuses the query. The rows come from the table and satisfy the condition, at most `LIMIT` of them; with no window, all of them |
| Store.FirstRow | botanist_codegen/src/macros/query.rs:207-208 | `get_result` gives a selected row of the table, and fails exactly on a refused query or an empty answer |
| Store.Database.Load | botanist_codegen/src/macros/query.rs:247-248 | one query logged, the connection's answer returned |
| Store.FirstOf | botanist_codegen/src/macros/query.rs:207-208 | `get_result` on an answer: fails exactly when the answer is an error (kept) or empty; otherwise a row of the answer |
| Store.Database.GetResult | botanist_codegen/src/macros/query.rs:207-208 | one query logged, and the first row of the connection's own answer to it (the same answer `Load` gives) |
| Registry.GetIdent | botanist_codegen/src/macros/object.rs:218 | an identifier exactly for a one-segment path without arguments |
| Registry.ClassifyFields | botanist_codegen/src/macros/object.rs:107-108 | one relation per field, each its `Classify`; the panic is some field's |
| Registry.EdgeOf | botanist_codegen/src/macros/object.rs:244-288 | a plain field gives no edge. A relation gives an edge on its field exactly when the model path is one identifier and a HasMany foreign key has a last segment; otherwise `unwrap` panics. The edge has the relation's kind, the table named by the schema path's last segment, the foreign key's last segment (HasMany) and the model identifier |
| Registry.EdgesFrom | botanist_codegen/src/macros/object.rs:242-337 | from a given field on: panics exactly when some field's `EdgeOf` panics; otherwise exactly the `EdgeOf` edges of the relation fields, one each, in field order |
| Registry.RelationIndices | botanist_codegen/src/macros/object.rs:242-337 | the positions, from a given field on, of the relation fields, every one of them, in increasing order (the fields whose preloader block is `Some`) |
| Registry.SearchableFrom | botanist_codegen/src/macros/object.rs:61-78 | exactly the plain fields whose type path starts with `String` |
| Registry.EntityFromFields | botanist_codegen/src/macros/object.rs:34-78 | panics without an `id` field; otherwise the schema, exactly the `EdgeOf` edges of the classified relation fields in field order, and exactly the searchable `String` fields |
| Keys.Insert | botanist_codegen/src/macros/object.rs:254-255 | inserting keeps exactly the old keys plus the new one |
| Keys.InsertIncreasing | botanist_codegen/src/macros/object.rs:254-255 | insertion keeps the list strictly increasing |
| Keys.SortedDistinct | botanist_codegen/src/macros/object.rs:254-255 | `sort` then `dedup` keeps exactly the gathered keys |
| Keys.SortedDistinctIncreasing | botanist_codegen/src/macros/object.rs:254-255 | and leaves them strictly increasing |
| Keys.IncreasingUnique | botanist_codegen/src/macros/object.rs:254-255 | two strictly increasing lists with the same keys are equal |
| Keys.SortedDistinctOfSameKeys | botanist_codegen/src/macros/object.rs:254-255 | the sorted list depends only on which keys were gathered |
| Keys.SortedDistinctOfSorted | botanist_codegen/src/macros/object.rs:254-255 | an already sorted, duplicate-free list is unchanged |
| Keys.SortedDistinctIdempotent | botanist_codegen/src/macros/object.rs:253-255 | a second edge to the same model, finding the list sorted in place, gets the same keys |
| Keys.RowKeysMembership | botanist_codegen/src/macros/object.rs:214-239 | a parent row adds key k for a model exactly when one of its edges to that model takes k |
| Keys.KeysForMembership | botanist_codegen/src/macros/object.rs:433-437 | the list of a model holds k exactly when some parent row gives k through some edge to that model |
| Keys.Push | botanist_codegen/src/macros/object.rs:221-224 | `entry().or_insert().push()` appends to that model's list alone, creating it on first use |
| Keys.AggregateKeys | botanist_codegen/src/macros/object.rs:433-437 | the extractor loop leaves a non-empty list for exactly the models with gathered keys, namely `KeysFor` |
| Keys.SortKeys | botanist_codegen/src/macros/object.rs:253-255 | `get_mut` then `sort` and `dedup` yields the sorted distinct keys and keeps the lists valid for later edges |
| Keys.ZipMap | botanist_codegen/src/macros/object.rs:267-269 | the keys of the zip are exactly the keys that have a partner row |
| Keys.ZipMapAt | botanist_codegen/src/macros/object.rs:267-269 | with strictly increasing keys the i-th key maps to the i-th row |
| Keys.ZipMapValues | botanist_codegen/src/macros/object.rs:267-269 | every mapped value is a fetched row |
| Keys.MatchingKeepsIncreasingIds | botanist_codegen/src/macros/object.rs:257-259 | filtering keeps rows in increasing id order |
| Keys.HasOnePairingCorrect | botanist_codegen/src/macros/object.rs:257-269 | when the table lists rows by increasing id and every key has a row, each key is paired with the row of that id |
| Keys.DanglingKeyShiftsPairing | botanist_codegen/src/macros/object.rs:257-269 | with keys 1, 2 and only row 2, key 1 is paired with row 2 |
| Keys.Bucket | botanist_codegen/src/macros/object.rs:312-319 | exactly the fetched rows whose foreign key is k |
| Keys.HasManyBucketIsFallback | botanist_codegen/src/macros/object.rs:300-329 | for a parent whose id is among the batched keys, its bucket of the `eq_any` load equals the fallback's `foreign_key.eq(id)` answer on the same table (lines 137-142) |
| Search.ContainsPattern | botanist_codegen/src/macros/query.rs:189 | `LIKE '%q%'` on a wildcard-free `q` is a substring test |
| Search.SearchIsCaseInsensitiveSubstring | botanist_codegen/src/macros/query.rs:189 | `ILIKE '%q%'` holds exactly when `q` occurs in the column ignoring ASCII case |
| Search.SearchPatternAccepted | botanist_codegen/src/macros/query.rs:189 | the database accepts the pattern `%q%` for every search string |
| Search.UnderscoreInSearchIsAWildcard | botanist_codegen/src/macros/query.rs:189 | a `_` typed into the search is not escaped and matches any character |
| RootResolvers.SingularName | botanist_codegen/src/macros/query.rs:27 | panics exactly on an empty model name; otherwise the name with its first letter lower-cased |
| RootResolvers.PluralName | botanist_codegen/src/macros/query.rs:29 | the `plural` argument when given, else the singular name plus `s`; panics exactly on an empty model name |
| RootResolvers.DefaultNamesDiffer | botanist_codegen/src/macros/query.rs:27-29 | without `plural` the two root fields never share a name |
| RootResolvers.BookNames | gin_codegen/src/macros/query.rs:27-28 | `Book` gives `book` and `books`; `plural = people` gives `people` |
| RootResolvers.SingleQueryFindsById | botanist_codegen/src/macros/query.rs:198-208 | the single-row query fails on a missing table; otherwise it succeeds exactly when a row has the id, and returns that row |
| BotanistQuery.GetQuery | botanist_codegen/src/macros/query.rs:69-77 | the search map holds exactly the given input fields, with their values |
| BotanistQuery.PluralArguments | botanist_codegen/src/macros/query.rs:102-127 | ids are passed on as they are; the search only with `all = true` |
| BotanistQuery.SearchWhereMeaning | botanist_codegen/src/macros/query.rs:165-193 | without a searched field the condition is unchanged. Otherwise a row qualifies when it did before or some searched field matches. Patterns stay acceptable |
| BotanistQuery.ApplySearch | botanist_codegen/src/macros/query.rs:239-241 | the search blocks, one per searchable field, compute `SearchWhere` |
| BotanistQuery.MultipleQuerySelects | botanist_codegen/src/macros/query.rs:227-241 | `LIMIT` 10 and `OFFSET` 0 unless given. Without a search, the listed ids (all rows without ids). With one, listed ids or search hits. Patterns are always accepted |
| BotanistQuery.SearchHitIsSubstring | botanist_codegen/src/macros/query.rs:189 | one search block holds exactly when the column contains the search string, ignoring case |
| BotanistQuery.PluralWithoutAllFiltersByIds | botanist_codegen/src/macros/query.rs:115-126 | without `all = true` the plural field's query is exactly `id = ANY(ids)` |
| BotanistQuery.SearchWidensIds | botanist_codegen/src/macros/query.rs:227-241 | `ids: [1]` with a title search also returns book 2 when its title matches |
| BotanistQuery.ResolveMultiple | botanist_codegen/src/macros/query.rs:219-265 | a `modify_query` error is returned and nothing is loaded. Otherwise one load (errors become field errors), then one `preload_children` (errors likewise). Then fresh objects of the loaded rows, in order, preloaded as `Preloaded` says |
| BotanistQuery.EmptyLoadAnswersEmpty | botanist_codegen/src/macros/query.rs:219-265 | when the load returns no rows, the request log holds that load alone and the answer is the empty list |
| BotanistQuery.ResolveSingle | botanist_codegen/src/macros/query.rs:197-217 | a `modify_query` error is returned with nothing fetched; otherwise one `get_result`, its error a field error, its row a fresh object with empty slots |
| GinQuery.MultipleQuery | gin_codegen/src/macros/query.rs:88-93 | `id = ANY(ids)` with `LIMIT` `first` (default 10) and `OFFSET` `offset` (default 0) |
| GinQuery.ResolveMultiple | gin_codegen/src/macros/query.rs:87-115 | as botanist's, except that a preload panic propagates as a panic. The objects in the returned objects' filled slots have empty slots of their own |
| GinQuery.ResolveSingle | gin_codegen/src/macros/query.rs:67-85 | as botanist's: `modify_query`, then one `get_result` |
| GinQuery.EmptyListPanics | gin_codegen/src/macros/query.rs:97-103 | an empty list sends only its one load, and panics exactly when a HasMany relation is selected |
| BotanistPreload.Node.constructor | botanist_codegen/src/macros/object.rs:416-422 | `From<Model>`: the row, every slot empty, no lock poisoned |
| BotanistPreload.Node.Poison | botanist_codegen/src/macros/object.rs:273 | poisoning one lock changes no slot |
| BotanistPreload.EdgeQuery | botanist_codegen/src/macros/object.rs:257-304 | HasOne: `id = ANY(keys)`, no window. HasMany: `foreign_key = ANY(keys)` with the parents' own `limit`/`offset` (10/0) |
| BotanistPreload.MakeNodes | botanist_codegen/src/macros/object.rs:261-263 | one fresh object per row, in order, with empty slots |
| BotanistPreload.FillOne | botanist_codegen/src/macros/object.rs:271-277 | a parent whose key is in the map and whose lock is sound gets that child; other parents and other fields are untouched |
| BotanistPreload.NodeBucket | botanist_codegen/src/macros/object.rs:312-319 | the child objects whose rows form that key's bucket |
| BotanistPreload.Partition | botanist_codegen/src/macros/object.rs:312-319 | a bucket for exactly the keys some child points at, holding those children in fetch order |
| BotanistPreload.FillMany | botanist_codegen/src/macros/object.rs:321-329 | a parent whose id has a bucket and whose lock is sound gets that bucket; nothing else changes |
| BotanistPreload.FanOut | botanist_codegen/src/macros/object.rs:267-329 | every parent's slots are written as `EdgeWritten` says for the fetch; locks untouched |
| BotanistPreload.PreloadFetched | botanist_codegen/src/macros/object.rs:265 | the children's own `preload_children` sends `Preload`'s queries and returns its error; each child is `Preloaded` by that run's completed edges, locks untouched |
| BotanistPreload.FetchSelected | botanist_codegen/src/macros/object.rs:257-265 | one batch query; on failure that error, otherwise the nested preload's queries and error, with children for the fetched rows |
| BotanistPreload.EdgeFetch | botanist_codegen/src/macros/object.rs:252-265 | one preloader block before its fan-out is `EdgeStep`: its queries and error, and the key lists kept valid |
| BotanistPreload.PreloadEdge | botanist_codegen/src/macros/object.rs:250-333 | one block is `EdgeStep`. Without error every parent is written as `EdgeWritten` says. On error no slot changes |
| BotanistPreload.PreloadFrom | botanist_codegen/src/macros/object.rs:439 | the blocks from edge i on are `RunEdges`, and every parent is `Preloaded` by its completed steps |
| BotanistPreload.PreloadChildren | botanist_codegen/src/macros/object.rs:424-443 | sends exactly `Preload`'s queries and returns its error. Every parent is `Preloaded` by the completed edges, locks untouched |
| BotanistPreload.FetchOne | botanist_codegen/src/macros/object.rs:169-175 | the fallback `get_result` of the stored key: the first row of the answer as a fresh object with empty slots, or the answer's error as a field error; on a connection that answers from its tables, that row has the stored id |
| BotanistPreload.FetchMany | botanist_codegen/src/macros/object.rs:124-148 | the fallback load with the field's `limit`/`offset`, then `preload_children` on the result; each error becomes a field error. Without error, fresh objects of the loaded rows, in order, each `Preloaded` by that run from empty slots |
| BotanistPreload.ResolveHasOne | botanist_codegen/src/macros/object.rs:156-181 | a poisoned lock fails, with nothing else done. Otherwise the slot is emptied: a filled one is returned with no query, an empty one falls back to `FetchOne` |
| BotanistPreload.ResolveHasMany | botanist_codegen/src/macros/object.rs:109-155 | as `ResolveHasOne`, with `FetchMany` as the fallback, whose objects come back `Preloaded` by their own run |
| BotanistPreload.EdgeFetchedIffSelected | botanist_codegen/src/macros/object.rs:252-259 | an edge sends its batch query first exactly when it is selected and keys were gathered; otherwise it sends nothing and writes nothing |
| BotanistPreload.SkippedWritesNothing | botanist_codegen/src/macros/object.rs:252-253 | a skipped edge leaves both slots as they were |
| BotanistPreload.RunEdgesCompletes | botanist_codegen/src/macros/object.rs:439-441 | the run completes every edge exactly when no error stopped it |
| BotanistPreload.EmptyBatch | botanist_codegen/src/macros/object.rs:424-441 | over no objects no key is gathered (lines 433-437), so every preloader is skipped: no query, no error, every edge completed |
| BotanistPreload.BatchPaginationFromParentSelection | botanist_codegen/src/macros/object.rs:297-303 | a HasMany batch takes `limit` and `offset` from the parents' selection, not the field's |
| BotanistPreload.BatchLimitSharedByParents | botanist_codegen/src/macros/object.rs:297-304 | two authors, `LIMIT` 1: the one batch query leaves the second author's slot unfilled, though the fallback would find its post |
| GinPreload.Node.constructor | gin_codegen/src/macros/object.rs:283-289 | `From<Model>`: the row and every slot empty |
| GinPreload.EdgeQuery | gin_codegen/src/macros/object.rs:181-223 | as botanist's, with `first` in place of `limit` |
| GinPreload.MakeNodes | gin_codegen/src/macros/object.rs:186 | one fresh object per row, in order, with empty slots, all distinct |
| GinPreload.SetOne | gin_codegen/src/macros/object.rs:193 | the slot receives a fresh object built from the row |
| GinPreload.FillOne | gin_codegen/src/macros/object.rs:191-194 | panics exactly when some parent's key was not paired with a row. Otherwise every parent gets a fresh object of its paired row. Other fields untouched. Panic or not, every slot it changed holds one of the new objects, all with empty slots |
| GinPreload.Partition | gin_codegen/src/macros/object.rs:228-234 | a bucket for exactly the keys some fetched row points at, holding those rows in fetch order |
| GinPreload.SetMany | gin_codegen/src/macros/object.rs:238-242 | the slot receives fresh objects of exactly the bucket's rows |
| GinPreload.FillMany | gin_codegen/src/macros/object.rs:236-244 | a parent whose id has a bucket gets fresh objects of it; others keep the slot. Every slot it changed holds new objects with empty slots |
| GinPreload.FanOut | gin_codegen/src/macros/object.rs:189-244 | panics exactly on an unpaired HasOne key; otherwise every parent is written as `EdgeWritten` says. Every slot it changed holds objects it created (`made`), each built by `GQL::from` with empty slots |
| GinPreload.PreloadFetched | gin_codegen/src/macros/object.rs:187 | the nested `preload_children` sends `Preload`'s queries and panics as it does |
| GinPreload.FetchSelected | gin_codegen/src/macros/object.rs:181-187 | a load error panics; otherwise the nested preload's queries and panic, with the fetched rows |
| GinPreload.EdgeFetch | gin_codegen/src/macros/object.rs:176-187 | one block up to its fan-out is `EdgeStep`; an unpaired key is the only panic left to the fan-out |
| GinPreload.PreloadEdge | gin_codegen/src/macros/object.rs:174-247 | one block is `EdgeStep`; without panic every parent is written as `EdgeWritten` says. Every slot it changed holds new objects with empty slots, not the objects the nested preload filled |
| GinPreload.PreloadFrom | gin_codegen/src/macros/object.rs:302 | the blocks from edge i on are `RunEdges`, and without panic every parent is `Preloaded`. Every slot they changed holds new objects with empty slots |
| GinPreload.PreloadChildren | gin_codegen/src/macros/object.rs:291-304 | sends exactly `Preload`'s queries and panics as it does; without panic every parent is `Preloaded`. Panic or not, every slot it changed holds objects created during the call whose own slots are empty: what the nested preload loaded for the grandchildren is dropped |
| GinPreload.ResolveHasOne | gin_codegen/src/macros/object.rs:88-106 | empties the slot; a filled one is returned with no query, an empty one falls back to one `get_result` |
| GinPreload.FetchMany | gin_codegen/src/macros/object.rs:70-83 | the fallback load with `first`/`offset`; a load error is a field error, a preload panic propagates |
| GinPreload.ResolveHasMany | gin_codegen/src/macros/object.rs:62-87 | as `ResolveHasOne`, with `FetchMany` as the fallback, whose objects come back `Preloaded` by their own run |
| GinPreload.EdgeFetchedIffSelected | gin_codegen/src/macros/object.rs:176-211 | selected with keys: the batch query is sent first. Unselected, or HasOne without keys: nothing. Selected HasMany without keys: panic |
| GinPreload.RunEdgesCompletes | gin_codegen/src/macros/object.rs:302 | the run completes every edge exactly when nothing panicked |
| GinPreload.EmptyBatch | gin_codegen/src/macros/object.rs:211 | over no parents nothing is sent, and the run panics exactly when a HasMany edge is selected |
| GinPreload.BatchPaginationFromParentSelection | gin_codegen/src/macros/object.rs:215-221 | a HasMany batch takes `first` and `offset` from the parents' selection |
| GinPreload.DanglingKeyPanics | gin_codegen/src/macros/object.rs:189-192 | a post whose author row is missing makes the preload panic after its one batch query |

## Left out

- Database access is a function `answer` from query to result, fixed per connection (`Database.answer`). `Database.Sound` ties it to the in-memory `Answer`. Connection pooling, transactions and concurrent writers are not modelled.
- The generated queries have no `ORDER BY`, so the database may return rows in any order. The model returns them in table order, and `Keys.HasOnePairingCorrect` states the order the positional HasOne pairing needs.
- Negative `limit` or `offset` values are refused by the database (`Store.Answer`). The `i32` to `i64` casts never overflow, so they are plain conversions.
- Panic messages are carried as text but no property depends on their wording.
- Case mapping is ASCII only. Non-ASCII `to_lowercase`/`to_uppercase` and the byte slicing in `lower_first` (which panics on a multi-byte first character) are not modelled.
- The `postgres_prefix_search` feature of `resolve_multiple` (full-text prefix search and its ordering) is not modelled; only the default `ILIKE` search is.
- `modify_query`'s context argument is folded into the `QueryModifier` function.
- `all = true` without `searchable` makes botanist's `query_argument` empty, so the generated plural resolver has a missing argument and does not compile. The model does not describe that case.
- `GinQuery.ResolveMultiple`: gin's generated `preload_children` returns `()` and panics on failure, while its root resolver tests the result with `if let Err`. The model follows the object macro: the preload never returns an error and its panics propagate.
- `GinPreload.PreloadChildren`: requires the parent objects to be distinct, which the resolvers always produce (`MakeNodes`).
- `GinPreload.PreloadChildren`: after a panic, the slots are only stated to hold new objects with empty slots wherever they changed. Which slots changed is not stated, because the request unwinds.
- `BotanistPreload.PreloadChildren`: slots are stated for the top-level objects only. Nested levels are described through the queries they send and the error they return, not through their slot contents.
- Mutex poisoning is modelled as a set of poisoned fields on each object (`Node.Poison`), not by threads.
- `Rc` identity in the attribute parser is modelled by serial numbers on cells.
- `BotanistQuery.GetQuery`: the hash map's iteration order is modelled as an arbitrary order over the set of fields.
- `BotanistCommon.SchemaFromStruct`: `Ident::new` accepts Unicode identifiers (XID_Start then XID_Continue characters), but the model checks table names with the ASCII-only `Ascii.IsIdent`. A name such as `café` panics in the model, not in the macro.
- `GinCommon.AttributeFromStructAsIdent`: the same ASCII-only identifier check, so a Unicode attribute value panics in the model and not in the macro.
- `AttributeParser.NamedLiteral`: a literal value is accepted exactly when it is an ASCII identifier (`Ascii.IsIdent`). A Unicode identifier such as `plural = "café"` is refused, where the macro accepts it. `AttributeParser.Step` and `AttributeParser.ParseFromStream` have the same limit.
- `RootResolvers.SingularName`, `RootResolvers.PluralName` and `RootResolvers.BookNames`: gin's `query.rs` calls `common::parse_ident_attributes`, `common::gql_struct` and `common::lower_first`, but `gin_codegen/src/common.rs` defines none of them. The model uses botanist's definitions (`AttributeParser`, `BotanistCommon`) for both crates' root resolvers.
- `proc_macro2`/`syn`/`quote` token generation is not modelled: the model describes what the generated code does, not the token streams.
- `mutation.rs`, `diesel_extensions.rs`, `text_search.rs`, `internal.rs` and the crates' `lib.rs` files are not part of this model.
