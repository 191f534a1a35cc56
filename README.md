# laravel-spanner: query rendering and schema DDL, in Dafny

This project models the two string builders of the Cloud Spanner driver for
Laravel (`colopl/laravel-spanner`). It follows what the driver's query and
blueprint tests pin down:

* **The query renderer and literal inliner.** A query builder object holds:
  * a table and its selected columns;
  * an optional index hint;
  * where clauses (`where`, `whereRaw`, `whereExists`) and orderings;
  * a lock request and a data-boost flag.

  `toSql` renders the select statement with back-quoted identifiers and `?`
  placeholders:
  * a forced index follows the table as `@{FORCE_INDEX=name}`;
  * `useIndex`/`ignoreIndex` hints make rendering fail with
    "Cloud Spanner does not support index type: hint" / "…: ignore";
  * lock requests are dropped;
  * the data-boost flag is only read back.

  `toRawSql` renders the same statement with every binding inlined as a
  literal:
  * `true`/`false`;
  * integer digits;
  * decimal text as written;
  * a string in double quotes with `"` escaped as `\"`;
  * a string that contains a newline in the raw form `r"""…"""`;
  * any date or time binding as `TIMESTAMP "YYYY-MM-DDThh:mm:ss.uuuuuu+00:00"`.
    The query side has no `DATE` literal. `DATE "YYYY-MM-DD"` appears only in
    schema defaults of `date` columns.

  `insertGetId` always fails with "Cloud Spanner does not support insertGetId".
* **The schema DDL synthesizer.** A blueprint object accumulates column
  definitions and commands call by call, and `create()` marks the table as
  new. `toSql` translates what was recorded into an ordered list of DDL
  statements:
  * a `create table` with the columns in declaration order, the primary key,
    an optional `interleave in parent` clause (`on delete cascade` on request)
    and an optional row deletion policy;
  * one `alter table … add column` / `alter column` / `drop column` statement
    per column;
  * `create [unique|null_filtered] index` statements, with a derived
    lower-case name, an optional `storing (…)` and an optional
    `, interleave in`;
  * `drop table`, `drop index` and `drop constraint`;
  * the add/replace/drop row deletion policy alterations.

  Column kinds map to Spanner types. Default values are rendered as literals
  of the column's type, and a default that does not fit the type is an error.

Layout:

| file | module | contents |
|---|---|---|
| common.dfy | Common | `Option`, `Result`, the error kinds |
| text.dfy | Text | back-quoting, joining, decimal text and its parser, zero padding, ASCII lower-casing |
| codec.dfy | Codec | the literal syntax for strings, integers, dates and timestamps, with the parsers that invert it |
| query_grammar.dfy | QueryGrammar | the query value, its compilation into SQL pieces, `toSql`/`toRawSql`/bindings, and their properties |
| query_builder.dfy | QueryBuilder | class `Builder`: the fluent builder whose fields the calls overwrite |
| query_examples.dfy | QueryExamples | the builder tests replayed on `Builder`, with their expected SQL |
| schema_types.dfy | SchemaTypes | column kinds, Spanner types and their spelling, default-value literals |
| schema_grammar.dfy | SchemaGrammar | columns, commands, the blueprint state and its translation into statements |
| blueprint.dfy | Blueprints | class `Blueprint`: the object a migration callback drives |
| schema_examples.dfy, create_examples.dfy, column_examples.dfy | SchemaExamples, CreateExamples, ColumnExamples | the blueprint tests replayed with their expected statements |

Each test scenario is a method or lemma. Its `ensures` states the exact
statements the test asserts, for every table name wherever the test uses a
generated name. Where an ensures writes an expected statement as a
concatenation of literal pieces, the pieces concatenate to the test's string.

## Model

| member | source | states |
|---|---|---|
| Text.WrapQuotes | tests/Query/BuilderTest.php:299-300 | a back-quoted identifier is the name between two back-quotes, two characters longer |
| Text.UnwrapWrap | tests/Schema/BlueprintTest.php:160 | a back-quoted name is recovered unchanged from its quoted form |
| Text.ColumnizeOne | tests/Schema/BlueprintTest.php:241-248 | a one-column key lists just the quoted name, as in `primary key (`pid`)` |
| Text.ColumnizeAppend | tests/Schema/BlueprintTest.php:221-227 | the column list of `a + b` is that of `a`, `, `, then that of `b`, so key columns keep their given order |
| Text.JoinAppend | tests/Schema/BlueprintTest.php:62-84 | joining two non-empty lists puts exactly one separator between their joins |
| Text.NatToString | tests/Query/BuilderTest.php:897-898 | decimal text is non-empty, all digits, and has no leading zero |
| Text.ParseNatOfNatToString | tests/Query/BuilderTest.php:897-898 | parsing the decimal text of a natural number gives the number back |
| Text.IntToStringRoundTrip | tests/Query/BuilderTest.php:897-898 | parsing the decimal text of any integer, negative ones included, gives it back |
| Text.Pad | tests/Schema/BlueprintTest.php:419-422 | zero padding gives exactly the requested width of digits |
| Text.ParseNatOfPad | tests/Schema/BlueprintTest.php:419-422 | a zero-padded number that fits its width parses back to the number |
| Text.Lower | tests/Schema/BlueprintTest.php:473 | lower-casing keeps the length, changes each character on its own, and leaves no upper-case letter |
| Text.LowerAppend | tests/Schema/BlueprintTest.php:473 | lower-casing distributes over concatenation |
| Text.LowerOfLowerCase | tests/Schema/BlueprintTest.php:473 | lower-casing leaves lower-case text unchanged |
| Codec.EscapeQuotes | tests/Query/BuilderTest.php:909-910 | escaping leaves text with no `"` unchanged |
| Codec.EscapeQuotesAppend | tests/Query/BuilderTest.php:909-910 | escaping works character by character |
| Codec.EscapedQuotesArePreceded | tests/Query/BuilderTest.php:909-910 | every `"` in escaped text follows a backslash |
| Codec.UnescapeEscapeQuotes | tests/Query/BuilderTest.php:909-916 | un-escaping inverts escaping |
| Codec.QuoteString | tests/Query/BuilderTest.php:906-916 | a string literal takes the raw `r"""…"""` form exactly when the string holds a newline, and the `"…"` form otherwise |
| Codec.QuoteStringRoundTrip | tests/Query/BuilderTest.php:906-916 | the model's reader UnquoteString turns either literal form back into the original string |
| Codec.StringLiteralRoundTrip | tests/Query/BuilderTest.php:906-916 | the inlined literal of a string binding reads back as that string under the model's reader UnquoteString |
| Codec.IntLiteralRoundTrip | tests/Query/BuilderTest.php:897-898 | the inlined literal of an integer binding parses back to it |
| Codec.DateText | tests/Schema/BlueprintTest.php:419-420 | a date is ten characters with `-` at offsets 4 and 7 |
| Codec.TimestampText | tests/Schema/BlueprintTest.php:421-422 | a timestamp is 32 characters: the date, then the time, ending in `+00:00` |
| Codec.DateTextFields | tests/Schema/BlueprintTest.php:419-420 | a rendered date parses back to its year, month and day |
| Codec.TimestampTextRoundTrip | tests/Schema/BlueprintTest.php:421-422 | a rendered timestamp parses back to the same instant |
| Codec.InstantLiteralRoundTrip | tests/Schema/BlueprintTest.php:421-422 | an instant's literal is `TIMESTAMP "…"` around text that parses back to the instant |
| QueryGrammar.InsertGetId | tests/Query/BuilderTest.php:855-863 | `insertGetId` fails with an unsupported-feature error "Cloud Spanner does not support insertGetId", whatever the values |
| QueryGrammar.RenderAppend | tests/Query/BuilderTest.php:889-917 | rendering and binding collection both distribute over concatenation of SQL pieces |
| QueryGrammar.SubstituteRender | tests/Query/BuilderTest.php:889-917 | filling the `?` placeholders of the rendered SQL with the bindings, in order, gives the inlined rendering |
| QueryGrammar.RawSqlInlinesBindings | tests/Query/BuilderTest.php:889-917 | `toRawSql` is the compiled statement with every binding inlined as its literal |
| QueryGrammar.RawSqlWithoutBindings | tests/Query/BuilderTest.php:865-887 | a query with no bindings has the same `toRawSql` as `toSql` |
| QueryGrammar.ForceIndexFollowsTable | tests/Query/BuilderTest.php:418-421 | forcing an index inserts ` @{FORCE_INDEX=n}` right after the table and changes nothing else |
| QueryGrammar.UnsupportedHintFails | tests/Query/BuilderTest.php:432-452 | a use or ignore hint makes `toSql` fail with "Cloud Spanner does not support index type: " and the hint's kind, and `toRawSql` fail too |
| QueryGrammar.ToSqlFailsIffUnsupportedHint | tests/Query/BuilderTest.php:432-452 | `toSql` and `toRawSql` fail if and only if the query or one of its sub-queries carries a use or ignore hint |
| QueryGrammar.CompileSelectFailsIffUnsupportedHint | tests/Query/BuilderTest.php:432-452 | compiling a select fails if and only if it or a nested `exists` query carries an unsupported hint |
| QueryGrammar.CompileWheresFailsIffUnsupportedHint | tests/Query/BuilderTest.php:304-333 | compiling where clauses fails if and only if one of them nests a query with an unsupported hint |
| QueryGrammar.CompileWhereFailsIffUnsupportedHint | tests/Query/BuilderTest.php:304-333 | compiling one where clause fails if and only if it nests a query with an unsupported hint |
| QueryGrammar.WhereWithoutOptions | tests/Query/BuilderTest.php:865-938 | clearing a where clause's options keeps its connective and kind |
| QueryGrammar.CompileSelectIgnoresOptions | tests/Query/BuilderTest.php:865-938 | the lock and data-boost fields, in the query and every sub-query, play no part in compilation |
| QueryGrammar.CompileWheresIgnoresOptions | tests/Query/BuilderTest.php:304-333 | sub-query options play no part in compiling where clauses |
| QueryGrammar.CompileWhereIgnoresOptions | tests/Query/BuilderTest.php:304-333 | sub-query options play no part in compiling one where clause |
| QueryGrammar.LockIsDropped | tests/Query/BuilderTest.php:865-887 | any lock request leaves `toSql` and `toRawSql` unchanged |
| QueryGrammar.DataBoostIsNotRendered | tests/Query/BuilderTest.php:919-938 | the data-boost flag leaves `toSql` and `toRawSql` unchanged |
| QueryGrammar.ComparisonSql | tests/Query/BuilderTest.php:891-907 | `where(c, op, v)` renders `… where `c` op ?`, binds `[v]`, and inlines `v` as its literal in `toRawSql` |
| QueryBuilder.Builder.constructor | tests/Query/BuilderTest.php:416-418 | `table(t)` starts from the bare query on `t` |
| QueryBuilder.Builder.ForceIndex | tests/Query/BuilderTest.php:420-427 | `forceIndex(n)` replaces any earlier hint, and `forceIndex(null)` removes it, restoring the un-hinted SQL |
| QueryBuilder.Builder.UseIndex | tests/Query/BuilderTest.php:432-441 | after `useIndex`, `toSql` fails with "Cloud Spanner does not support index type: hint" |
| QueryBuilder.Builder.IgnoreIndex | tests/Query/BuilderTest.php:443-452 | after `ignoreIndex`, `toSql` fails with "Cloud Spanner does not support index type: ignore" |
| QueryBuilder.Builder.Lock | tests/Query/BuilderTest.php:865-871 | `lock` records the request and leaves both renderings identical |
| QueryBuilder.Builder.LockForUpdate | tests/Query/BuilderTest.php:873-879 | `lockForUpdate` records a for-update lock and leaves both renderings identical |
| QueryBuilder.Builder.SharedLock | tests/Query/BuilderTest.php:881-887 | `sharedLock` records a shared lock and leaves both renderings identical |
| QueryBuilder.Builder.UseDataBoost | tests/Query/BuilderTest.php:919-938 | `useDataBoost(e)` makes `dataBoostEnabled()` return `e` and leaves both renderings identical |
| QueryBuilder.Builder.SelectRaw | tests/Query/BuilderTest.php:324-326 | `selectRaw` appends a raw column and changes nothing else |
| QueryBuilder.Builder.Where | tests/Query/BuilderTest.php:893-916 | `where` appends one comparison and changes nothing else |
| QueryBuilder.Builder.WhereRaw | tests/Query/BuilderTest.php:326 | `whereRaw` appends one raw condition and changes nothing else |
| QueryBuilder.Builder.WhereExists | tests/Query/BuilderTest.php:324-327 | `whereExists` appends an `exists` clause over the sub-query as it stands |
| QueryBuilder.Builder.OrderBy | tests/Query/BuilderTest.php:299 | `orderBy` appends one ordering and changes nothing else |
| QueryBuilder.Builder.OrderByDesc | tests/Query/BuilderTest.php:299 | `orderByDesc(c)` appends a descending ordering on `c` |
| QueryBuilder.Builder.InsertGetId | tests/Query/BuilderTest.php:855-863 | `insertGetId` fails with "Cloud Spanner does not support insertGetId" |
| QueryExamples.BareSelect | tests/Query/BuilderTest.php:418 | a query with no columns, hint or where renders as `select * from `t`` followed by its ordering |
| QueryExamples.PlainSelect | tests/Query/BuilderTest.php:418 | `table(t)` renders as `select * from `t`` in both `toSql` and `toRawSql` |
| QueryExamples.ForcedPlain | tests/Query/BuilderTest.php:420-421 | a forced index on a bare query renders as `select * from `t` @{FORCE_INDEX=n}` |
| QueryExamples.ForceIndexScenario | tests/Query/BuilderTest.php:412-430 | plain, then hinted with the first name, then with the second, then plain again |
| QueryExamples.ForceIndexTestNames | tests/Query/BuilderTest.php:412-430 | the same sequence with the test's index names, as the test spells them |
| QueryExamples.HintErrorsScenario | tests/Query/BuilderTest.php:432-452 | `useIndex(…)->toSql()` and `ignoreIndex(…)->toSql()` fail with the two fixed messages |
| QueryExamples.LockScenario | tests/Query/BuilderTest.php:865-887 | `lock()`, `lockForUpdate()` and `sharedLock()` each give `select * from `t`` from `toRawSql` |
| QueryExamples.OrderedDesc | tests/Query/BuilderTest.php:299-300 | one descending order renders as `… order by `c` desc` |
| QueryExamples.OrderByDescScenario | tests/Query/BuilderTest.php:299-300 | `orderByDesc(c)` on a fresh builder renders as `select * from `t` order by `c` desc` |
| QueryExamples.OrderByDescIntTest | tests/Query/BuilderTest.php:299-300 | the test's `orderByDesc('intTest')` |
| QueryExamples.ExistsSql | tests/Query/BuilderTest.php:324-331 | an exists clause over `select 1 … where cond` renders inside the parent's where |
| QueryExamples.ExistsScenario | tests/Query/BuilderTest.php:304-333 | the exists-subquery test's exact statement |
| QueryExamples.DataBoostScenario | tests/Query/BuilderTest.php:919-938 | `useDataBoost()` reads back as enabled and `useDataBoost(false)` as disabled |
| QueryExamples.RawSqlTrue | tests/Query/BuilderTest.php:894-895 | `where('b', true)` inlines as `= true` |
| QueryExamples.RawSqlFalse | tests/Query/BuilderTest.php:897-898 | `where('b', false)` inlines as `= false` |
| QueryExamples.RawSqlInt | tests/Query/BuilderTest.php:900-901 | `where('i', 1)` inlines as `= 1` |
| QueryExamples.RawSqlDecimal | tests/Query/BuilderTest.php:903-904 | `where('f', 1.1)` inlines as `= 1.1` |
| QueryExamples.RawSqlString | tests/Query/BuilderTest.php:906-907 | `where('s', 'test')` inlines as `= "test"` |
| QueryExamples.RawSqlEscaped | tests/Query/BuilderTest.php:909-910 | a string with `"` and `'` inlines with each `"` escaped and `'` kept |
| QueryExamples.RawSqlNewline | tests/Query/BuilderTest.php:912-913 | a string with a newline inlines in the `r"""…"""` form with the newline kept |
| QueryExamples.RawSqlNewlineEscaped | tests/Query/BuilderTest.php:915-916 | in the raw form too, each `"` is escaped |
| SchemaTypes.TypeSql | tests/Schema/BlueprintTest.php:62-84 | a type is spelled `array<…>` exactly when it is an array type |
| SchemaTypes.ParseLengthRoundTrip | tests/Schema/BlueprintTest.php:79-81 | a length spelling (`1`, `255`, `max`) parses back to the length |
| SchemaTypes.ParseScalarRoundTrip | tests/Schema/BlueprintTest.php:62-84 | every scalar type's spelling parses back to that type |
| SchemaTypes.ParseTypeRoundTrip | tests/Schema/BlueprintTest.php:62-84 | every column type's spelling, arrays included, parses back to that type, so distinct types never share a spelling |
| SchemaTypes.ScalarDefault | tests/Schema/BlueprintTest.php:402-431 | an element default that does not fit its type is a type-mismatch error |
| SchemaTypes.ElementDefaults | tests/Schema/BlueprintTest.php:425-430 | an array default renders one literal per element, or fails with a type mismatch |
| SchemaTypes.ElementDefaultsFailIffMisfit | tests/Schema/BlueprintTest.php:425-430 | an array default fails if and only if one of its elements does not fit the element type |
| SchemaTypes.DefaultLiteral | tests/Schema/BlueprintTest.php:417-418 | a raw expression is its own default literal, and every failure is a type mismatch |
| SchemaTypes.StringDefaultFits | tests/Schema/BlueprintTest.php:412-416 | a string default fits a `string(n)` column if and only if it has at most `n` characters, and is then the quoted string |
| SchemaTypes.StringDefaultRoundTrip | tests/Schema/BlueprintTest.php:412-416 | a string default that fits reads back as the string under the model's reader UnquoteString |
| SchemaTypes.DateDefaultRoundTrip | tests/Schema/BlueprintTest.php:419-420 | a date default is `DATE "…"` around text that parses back to the instant's date |
| SchemaTypes.ScalarDefaultIsLiteral | tests/Schema/BlueprintTest.php:402-431 | apart from dates, a scalar default is the query builder's inlined literal of the value |
| SchemaTypes.ElementDefaultsAreLiterals | tests/Schema/BlueprintTest.php:425-430 | apart from dates, array elements render as the query builder's literals |
| SchemaTypes.DefaultIsQueryLiteral | tests/Schema/BlueprintTest.php:402-431 | a default of a date-free type is the query builder's literal of the value |
| SchemaGrammar.ColumnSql | tests/Schema/BlueprintTest.php:62-84 | a column definition renders if and only if its default fits, and otherwise fails with a type mismatch |
| SchemaGrammar.ColumnSqlShape | tests/Schema/BlueprintTest.php:62-84 | a definition starts with the quoted name and the type; with no default it ends in ` not null` exactly when the column is not nullable |
| SchemaGrammar.UseCurrentDefault | tests/Schema/BlueprintTest.php:423-424 | `useCurrent()` gives the default `CURRENT_TIMESTAMP()` |
| SchemaGrammar.ColumnsSqlFailsIffMisfit | tests/Schema/BlueprintTest.php:402-431 | a column list fails if and only if one of its columns does |
| SchemaGrammar.ColumnsSqlInOrder | tests/Schema/BlueprintTest.php:61-85 | a rendered column list has one definition per column, in declaration order |
| SchemaGrammar.CreateTableLayout | tests/Schema/BlueprintTest.php:226-228 | a create statement is the head, the definitions joined by `, `, `)`, the primary key clause, the interleave clause and the policy clause, in that order |
| SchemaGrammar.InterleaveCascade | tests/Schema/BlueprintTest.php:246-264 | the interleave clause is `, interleave in parent `P``, followed by ` on delete cascade` if and only if cascade was requested |
| SchemaGrammar.IndexName | tests/Schema/BlueprintTest.php:174-178 | a derived index name is lower-case and is the table, the columns and the kind joined by `_` |
| SchemaGrammar.UniqueAndPlainNamesDiffer | tests/Schema/BlueprintTest.php:176-177 | a unique index and a plain index on the same columns get different names |
| SchemaGrammar.IndexNameIgnoresCase | tests/Schema/BlueprintTest.php:473-474 | the table's letter case does not affect a derived index name |
| SchemaGrammar.IndexNameIgnoresOptions | tests/Schema/BlueprintTest.php:471-504 | `storing`, `interleaveIn` and `nullFiltered` do not affect the derived index name |
| SchemaGrammar.CreateIndexShape | tests/Schema/BlueprintTest.php:471-492 | a create-index statement starts with its head, and is only the head exactly when there is neither `storing` nor `interleave in` |
| SchemaGrammar.DroppedColumnsRoundTrip | tests/Schema/BlueprintTest.php:155-161 | the names given to `dropColumn` are recovered, in call order, from its statements |
| SchemaGrammar.DroppedColumnOfDrop | tests/Schema/BlueprintTest.php:160 | one `alter table … drop column` statement names its column recoverably |
| SchemaGrammar.DropColumnsSqlAppend | tests/Schema/BlueprintTest.php:155-161 | dropping `a + b` gives the statements for `a`, then those for `b` |
| SchemaGrammar.CommandsSqlAppend | tests/Schema/BlueprintTest.php:127-131 | the statements of a command list are those of its two halves, in order |
| SchemaGrammar.AlterStatementFirst | tests/Schema/BlueprintTest.php:127-147 | outside a create, a leading column command renders its `add column` or `alter column` statement before the rest |
| SchemaGrammar.AlterStatementsInCallOrder | tests/Schema/BlueprintTest.php:127-147 | outside a create, column commands give exactly one `alter table` statement each, in call order |
| SchemaGrammar.FirstPrimaryAppend | tests/Schema/BlueprintTest.php:221-227 | the first `primary` call decides the key |
| SchemaGrammar.FirstInterleaveAppend | tests/Schema/BlueprintTest.php:242-248 | the first `interleaveInParent` call decides the interleave clause |
| SchemaGrammar.FirstPolicyAppend | tests/Schema/BlueprintTest.php:277-284 | the first `deleteRowsOlderThan` call decides the create-time policy |
| SchemaGrammar.CreatingAppend | tests/Schema/BlueprintTest.php:58 | a blueprint is creating once `create()` has been recorded |
| SchemaGrammar.CreateTableIgnores | tests/Schema/BlueprintTest.php:164-179 | commands other than the primary key, interleave and policy leave the create statement unchanged |
| SchemaGrammar.AppendStandalone | tests/Schema/BlueprintTest.php:88-211 | a command with statements of its own appends them after all earlier statements |
| SchemaGrammar.AppendColumnOutsideCreate | tests/Schema/BlueprintTest.php:127-131 | outside a create, a new column appends its own alter statement |
| SchemaGrammar.AppendCreateOnlyOutsideCreate | tests/Schema/BlueprintTest.php:221-223 | the model's rule for a blueprint with no `create()`: primary key, interleave and policy calls add no statement (the tests make these calls only before a `create()`) |
| SchemaGrammar.CreateInputsRenderNothing | tests/Schema/BlueprintTest.php:35-58 | while creating, the declarations that feed the create statement render no statement of their own |
| SchemaGrammar.CreateAfterDeclarations | tests/Schema/BlueprintTest.php:35-60 | `create()` after the declarations gives exactly one statement: the create table |
| Blueprints.Blueprint.constructor | tests/Schema/BlueprintTest.php:92 | a new blueprint is empty, not creating, and renders no statement |
| Blueprints.Blueprint.Create | tests/Schema/BlueprintTest.php:58 | `create()` marks the table as new, and after declarations alone the statements are exactly the create table |
| Blueprints.Blueprint.AddColumn | tests/Schema/BlueprintTest.php:123-124 | outside a create, a column appends one `add column` (or, when changed, `alter column`) statement |
| Blueprints.Blueprint.Timestamps | tests/Schema/BlueprintTest.php:56 | `timestamps()` adds nullable `created_at` and `updated_at` timestamp columns |
| Blueprints.Blueprint.RecordCreateOnly | tests/Schema/BlueprintTest.php:221-223 | records a command that feeds the create statement; on a blueprint with no `create()` it adds no statement, which is the model's rule |
| Blueprints.Blueprint.Primary | tests/Schema/BlueprintTest.php:221 | `primary(keys)` is recorded for the create statement only; on a blueprint with no `create()` it adds no statement, which is the model's rule |
| Blueprints.Blueprint.InterleaveInParent | tests/Schema/BlueprintTest.php:242-257 | `interleaveInParent(p)` is recorded for the create statement only; on a blueprint with no `create()` it adds no statement, which is the model's rule |
| Blueprints.Blueprint.DeleteRowsOlderThan | tests/Schema/BlueprintTest.php:277 | `deleteRowsOlderThan(c, d)` is recorded for the create statement only; on a blueprint with no `create()` it adds no statement, which is the model's rule |
| Blueprints.Blueprint.Record | tests/Schema/BlueprintTest.php:88-211 | a command with its own statements appends them after the earlier ones |
| Blueprints.Blueprint.Index | tests/Schema/BlueprintTest.php:170-177 | `index`/`unique` append one create-index statement |
| Blueprints.Blueprint.DropIndex | tests/Schema/BlueprintTest.php:187-194 | `dropIndex(n)` and `dropUnique(n)` append `drop index `n`` |
| Blueprints.Blueprint.DropColumn | tests/Schema/BlueprintTest.php:155-160 | `dropColumn(names)` appends one drop-column statement per name |
| Blueprints.Blueprint.DropForeign | tests/Schema/BlueprintTest.php:204-209 | `dropForeign(n)` appends `alter table `t` drop constraint `n`` |
| Blueprints.Blueprint.Drop | tests/Schema/BlueprintTest.php:93-98 | `drop()` appends `drop table `t`` |
| Blueprints.Blueprint.DropIfExists | tests/Schema/BlueprintTest.php:107-112 | `dropIfExists()` appends `drop table if exists `t`` |
| Blueprints.Blueprint.AddRowDeletionPolicy | tests/Schema/BlueprintTest.php:302-308 | appends `alter table `t` add row deletion policy (older_than(`c`, interval d day))` |
| Blueprints.Blueprint.ReplaceRowDeletionPolicy | tests/Schema/BlueprintTest.php:327-333 | appends `alter table `t` replace row deletion policy (older_than(`c`, interval d day))` |
| Blueprints.Blueprint.DropRowDeletionPolicy | tests/Schema/BlueprintTest.php:352-358 | appends `alter table `t` drop row deletion policy` |
| SchemaExamples.TwoColumns | tests/Schema/BlueprintTest.php:118-148 | two columns on an existing table give their two alter statements, in order |
| SchemaExamples.AddingColumns | tests/Schema/BlueprintTest.php:118-132 | the adding-columns test's two statements |
| SchemaExamples.ChangeColumns | tests/Schema/BlueprintTest.php:134-148 | the change-column test's two statements |
| SchemaExamples.DropColumnScenario | tests/Schema/BlueprintTest.php:150-162 | the drop-column test's statement |
| SchemaExamples.DropScenario | tests/Schema/BlueprintTest.php:88-100 | the drop test's statement |
| SchemaExamples.DropIfExistsScenario | tests/Schema/BlueprintTest.php:102-116 | the drop-if-exists test's statement |
| SchemaExamples.DropIndexScenario | tests/Schema/BlueprintTest.php:181-196 | the drop-index test's two statements |
| SchemaExamples.DropForeignScenario | tests/Schema/BlueprintTest.php:198-211 | the drop-foreign test's statement |
| SchemaExamples.CreateIndexesScenario | tests/Schema/BlueprintTest.php:164-179 | the unique and plain index statements, with names derived from the lower-cased table |
| SchemaExamples.IndexWithInterleaveScenario | tests/Schema/BlueprintTest.php:463-478 | the two interleaved index statements |
| SchemaExamples.IndexWithStoringScenario | tests/Schema/BlueprintTest.php:480-492 | the index statement with its storing clause |
| SchemaExamples.NullFilteredIndexScenario | tests/Schema/BlueprintTest.php:494-506 | the null-filtered index statement |
| SchemaExamples.AddPolicyScenario | tests/Schema/BlueprintTest.php:288-310 | the add-policy alteration, with the column quoted |
| SchemaExamples.ReplacePolicyScenario | tests/Schema/BlueprintTest.php:312-335 | the replace-policy alteration, with the column quoted |
| SchemaExamples.DropPolicyScenario | tests/Schema/BlueprintTest.php:337-360 | the drop-policy alteration |
| CreateExamples.KeyedTable | tests/Schema/BlueprintTest.php:213-229 | columns, `primary(keys)` and `create()` give exactly the create statement |
| CreateExamples.InterleavedTable | tests/Schema/BlueprintTest.php:231-265 | columns, `primary`, `interleaveInParent` and `create()` give exactly the create statement |
| CreateExamples.PolicyTable | tests/Schema/BlueprintTest.php:267-286 | columns, `primary`, `deleteRowsOlderThan` and `create()` give exactly the create statement |
| CreateExamples.CompositeKeySql | tests/Schema/BlueprintTest.php:226-228 | the composite key test's create statement, keyed `(`id`, `number`)` |
| CreateExamples.CompositeKeyScenario | tests/Schema/BlueprintTest.php:213-229 | the composite primary key test, driven through the blueprint |
| CreateExamples.InterleavedSql | tests/Schema/BlueprintTest.php:246-264 | the interleaving test's create statement, with and without cascade |
| CreateExamples.InterleavingScenario | tests/Schema/BlueprintTest.php:231-265 | both interleaving statements, driven through the blueprint |
| CreateExamples.RowDeletionPolicySql | tests/Schema/BlueprintTest.php:282-284 | the create statement whose policy names the column unquoted |
| CreateExamples.CreateWithPolicyScenario | tests/Schema/BlueprintTest.php:267-286 | the create-with-policy test, driven through the blueprint |
| ColumnExamples.ArraySpelling | tests/Schema/BlueprintTest.php:75-82 | an array column is spelled `array<element>` |
| ColumnExamples.ArrayDefault | tests/Schema/BlueprintTest.php:425-430 | an array default is the element literals joined by `, ` in brackets |
| ColumnExamples.WithDefault | tests/Schema/BlueprintTest.php:406-430 | a column with a default ends in ` default (literal)` |
| ColumnExamples.UsingCurrent | tests/Schema/BlueprintTest.php:423-424 | a `useCurrent()` column ends in ` default (CURRENT_TIMESTAMP())` |
| ColumnExamples.TypedRendered | tests/Schema/BlueprintTest.php:62-84 | the all-types test's columns render to exactly its expected definitions, in order |
| ColumnExamples.DefaultedRendered | tests/Schema/BlueprintTest.php:403-430 | the default-values test's columns render to exactly its expected definitions, in order |
| ColumnExamples.AllValidTypesSql | tests/Schema/BlueprintTest.php:31-86 | the all-types create statement, keyed by the column marked `->primary()` |
| ColumnExamples.DefaultValuesSql | tests/Schema/BlueprintTest.php:362-432 | the default-values create statement, keyed by `primary('id')` |

## Left out

- Both source files are tests. The driver's implementation files (grammar, blueprint, builder) are not part of this model. The rules here are those the tests' expected strings show. Where the tests leave a case open, a line below says what the model chooses.
- Anything that talks to a live Spanner instance or the emulator is left out, because it is I/O:
  - `get`, `first`, `insert`, `sole`;
  - `build`, `runDdlBatch`;
  - partitioned DML;
  - the result checks that follow the `toSql` asserts;
  - the encoding rejections.
- `src/Concerns/ManagesStaleReads.php` only forwards to unseen connection methods. It holds no logic to model.
- Floating-point numbers are not modelled. Float and decimal bindings and defaults (`1.1`, `0.1`, `123.456`, `[2.2, 3.3]`) are decimal text that renders as written.
- Dates and timestamps are taken as already-parsed UTC instants. `'2022-01-01'` and `new Carbon('2022-01-01')` denote the same instant. Timezone conversion and the parsing of date strings are not modelled.
- Codec.EscapeQuotes: only `"` is escaped. The tests fix nothing about backslashes or other control characters. "Reads back" in the string round trips means under the model's own reader UnquoteString, not under GoogleSQL. GoogleSQL reads a backslash as an escape, so the string `a\"b`, rendered `"a\\"b"`, ends its literal early there, and the string `a\`, rendered `"a\"`, leaves it unterminated. GoogleSQL also keeps `\"` verbatim inside a raw `r"""…"""` literal, where UnquoteString turns it into `"`.
- QueryGrammar.SubstituteRender: the placeholder substitution does not skip quoted regions and does not know about `??`. Its precondition therefore excludes `?` in the statement's own text.
- Text.Lower: the index-name prefix is the ASCII lower-casing of the table name. Laravel's `Str::snake` (word splitting) and table prefixes are not modelled. This agrees with every name the tests show (`UserItem` → `useritem`, `createdAt` → `createdat`).
- Blueprint call order follows Laravel 11:
  - column declarations are recorded as commands in call order;
  - `create()` marks the table as new;
  - the first `primary`, `interleaveInParent` and `deleteRowsOlderThan` calls decide the create statement;
  - with no `primary` call, the first column marked `->primary()` is the key.
- SchemaGrammar.AppendCreateOnlyOutsideCreate: the tests call `primary`, `interleaveInParent` and `deleteRowsOlderThan` only on blueprints that are later marked with `create()`. On a blueprint with no `create()` the model has these calls render nothing. This choice is the model's own, not the driver's. The same holds for Blueprints.Blueprint.RecordCreateOnly, Blueprints.Blueprint.Primary, Blueprints.Blueprint.InterleaveInParent and Blueprints.Blueprint.DeleteRowsOlderThan.
- Blueprints.Blueprint.Create: it promises the exact statement list only when every earlier command feeds the create statement, which is how every create test calls it.
- Blueprints.Blueprint.AddColumn: inside a create it promises the new state but no statement list, since the column then feeds the create statement.
- `interleave(...)` (BlueprintTest.php:468) is the same call as `interleaveIn(...)` and is modelled by the `interleaveIn` argument of `Index`.
- `dropUnique(n)` records the same command as `dropIndex(n)`.
- `binary` columns are always `bytes(255)`.
- `useCurrent()` is accepted on a column of any type.
- `default(null)` is modelled as a column with no default.
- Json and bytes defaults are given only as raw expressions, as in the tests.
- The type-mismatch error for a default that does not fit its column is this model's own error. The tests exercise no such case, and its wording is not the driver's.
- The all-types and default-values tests are replayed on the blueprint state they build, not through one `AddColumn` call per column. Each column is checked on its own, then the whole statement. The combined `created_at`/`updated_at` element of the all-types list is written as two definitions, whose `, ` join gives the same string.
- In the exists test the sub-query's table is set by `from(child)` on the callback's query; the model builds that sub-query directly on the child table.
- Grouping, having, joins, pagination, aggregates and the other builder clauses are not modelled. Only the rendered shapes the tests assert are in scope.
