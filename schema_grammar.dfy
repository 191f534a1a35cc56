/** The schema synthesizer: a blueprint's recorded columns and commands, and
    their translation into the ordered list of Cloud Spanner DDL statements. */
module SchemaGrammar {
  import opened Common
  import opened Text
  import opened Codec
  import opened SchemaTypes

  /** A column definition with its fluent modifiers already applied. */
  datatype Column = Column(
    name: string,
    kind: ColumnKind,
    nullable: bool,
    defaultValue: Option<Value>,
    useCurrent: bool,
    change: bool,
    primary: bool)

  function PlainColumn(name: string, kind: ColumnKind): Column {
    Column(name, kind, false, None, false, false, false)
  }

  datatype Command =
    | ColumnCommand(column: Column)
    | Create
    | Primary(keys: seq<string>)
    | CreateIndex(indexColumns: seq<string>, unique: bool, nullFiltered: bool,
                  indexName: Option<string>, storing: seq<string>, interleaveIn: Option<string>)
    | DropIndex(dropName: string)
    | DropColumns(dropColumns: seq<string>)
    | DropForeign(constraint: string)
    | Drop
    | DropIfExists
    | InterleaveInParent(parent: string, cascade: bool)
    | RowDeletionPolicy(policyColumn: string, days: nat)
    | AddRowDeletionPolicy(addColumn: string, addDays: nat)
    | ReplaceRowDeletionPolicy(replaceColumn: string, replaceDays: nat)
    | DropRowDeletionPolicy

  /** What a blueprint has recorded: its table, every column in declaration
      order, and every command in call order (non-create column definitions
      are commands too, so they keep their place among the others). */
  datatype BlueprintState = BlueprintState(table: string, columns: seq<Column>, commands: seq<Command>)

  predicate Creating(b: BlueprintState) {
    exists i :: 0 <= i < |b.commands| && b.commands[i].Create?
  }

  // ---- columns ---------------------------------------------------------------

  const CurrentTimestampDefault: string := " default (CURRENT_TIMESTAMP())"

  function DefaultClause(c: Column): Result<string> {
    if c.useCurrent then Ok(CurrentTimestampDefault)
    else if c.defaultValue.None? then Ok("")
    else
      var l :- DefaultLiteral(TypeOf(c.kind), c.defaultValue.value);
      Ok(" default (" + l + ")")
  }

  function NullSuffix(c: Column): string {
    if c.nullable then "" else " not null"
  }

  /** `` `name` type[ not null][ default (…)] ``. */
  function ColumnSql(c: Column): (r: Result<string>)
    ensures r.Ok? <==> DefaultClause(c).Ok?
    ensures r.Err? ==> r.error.TypeMismatch?
  {
    var d :- DefaultClause(c);
    Ok(Wrap(c.name) + " " + TypeSql(TypeOf(c.kind)) + NullSuffix(c) + d)
  }

  function ColumnsSql(cs: seq<Column>): Result<seq<string>>
    decreases |cs|
  {
    if cs == [] then Ok([])
    else
      var h :- ColumnSql(cs[0]);
      var rest :- ColumnsSql(cs[1..]);
      Ok([h] + rest)
  }

  // ---- create table ------------------------------------------------------------

  function FirstPrimary(cmds: seq<Command>): Option<seq<string>>
    decreases |cmds|
  {
    if cmds == [] then None
    else if cmds[0].Primary? then Some(cmds[0].keys)
    else FirstPrimary(cmds[1..])
  }

  function FirstFluentPrimary(cs: seq<Column>): Option<seq<string>>
    decreases |cs|
  {
    if cs == [] then None
    else if cs[0].primary then Some([cs[0].name])
    else FirstFluentPrimary(cs[1..])
  }

  /** The key: the first `primary(...)` call, else the first column marked
      `->primary()` (fluent keys are added after every recorded command). */
  function PrimaryKey(b: BlueprintState): Option<seq<string>> {
    if FirstPrimary(b.commands).Some? then FirstPrimary(b.commands) else FirstFluentPrimary(b.columns)
  }

  function FirstInterleave(cmds: seq<Command>): Option<Command>
    decreases |cmds|
  {
    if cmds == [] then None
    else if cmds[0].InterleaveInParent? then Some(cmds[0])
    else FirstInterleave(cmds[1..])
  }

  function FirstPolicy(cmds: seq<Command>): Option<Command>
    decreases |cmds|
  {
    if cmds == [] then None
    else if cmds[0].RowDeletionPolicy? then Some(cmds[0])
    else FirstPolicy(cmds[1..])
  }

  function PrimaryKeyClause(key: Option<seq<string>>): string {
    if key.Some? then " primary key (" + Columnize(key.value) + ")" else ""
  }

  function InterleaveClause(parent: string, cascade: bool): string {
    ", interleave in parent " + Wrap(parent) + (if cascade then " on delete cascade" else "")
  }

  /** `(older_than(<column>, interval <days> day))`. */
  function OlderThan(column: string, days: nat): string {
    "(older_than(" + column + ", interval " + NatToString(days) + " day))"
  }

  function InterleaveSql(i: Option<Command>): string {
    if i.Some? && i.value.InterleaveInParent? then InterleaveClause(i.value.parent, i.value.cascade) else ""
  }

  /** In a create statement the policy's column is written without back-quotes. */
  function PolicySql(p: Option<Command>): string {
    if p.Some? && p.value.RowDeletionPolicy? then ", row deletion policy " + OlderThan(p.value.policyColumn, p.value.days)
    else ""
  }

  function CreateHead(table: string): string {
    "create table " + Wrap(table) + " ("
  }

  /** The clauses that follow the column list, each present only when it applies. */
  function CreateTail(b: BlueprintState): string {
    ")" + PrimaryKeyClause(PrimaryKey(b)) + InterleaveSql(FirstInterleave(b.commands)) + PolicySql(FirstPolicy(b.commands))
  }

  function CreateTableSql(b: BlueprintState): Result<string> {
    var cols :- ColumnsSql(b.columns);
    Ok(CreateHead(b.table) + Join(cols, ", ") + CreateTail(b))
  }

  // ---- indexes ---------------------------------------------------------------

  function IndexSuffix(unique: bool): string {
    if unique then "unique" else "index"
  }

  /** Laravel's derived name `table_col1_col2_{unique|index}`, lower-cased. */
  function IndexName(table: string, columns: seq<string>, unique: bool): (r: string)
    ensures IsLowerCase(r)
    ensures |r| == |table| + |Join(columns, "_")| + 2 + |IndexSuffix(unique)|
  {
    Lower(table + "_" + Join(columns, "_") + "_" + IndexSuffix(unique))
  }

  /** `create [unique ][null_filtered ]index `name` on `table` (cols)`. */
  function IndexHead(table: string, c: Command): string
    requires c.CreateIndex?
  {
    var name := if c.indexName.Some? then c.indexName.value else IndexName(table, c.indexColumns, c.unique);
    "create " + (if c.unique then "unique " else "") + (if c.nullFiltered then "null_filtered " else "")
    + "index " + Wrap(name) + " on " + Wrap(table) + " (" + Columnize(c.indexColumns) + ")"
  }

  function CreateIndexSql(table: string, c: Command): string
    requires c.CreateIndex?
  {
    IndexHead(table, c)
    + (if c.storing != [] then " storing (" + Columnize(c.storing) + ")" else "")
    + (if c.interleaveIn.Some? then ", interleave in " + Wrap(c.interleaveIn.value) else "")
  }

  // ---- statements ------------------------------------------------------------

  function AlterTable(table: string): string {
    "alter table " + Wrap(table)
  }

  function AlterColumnSql(table: string, c: Column): Result<string> {
    var col :- ColumnSql(c);
    Ok(AlterTable(table) + (if c.change then " alter column " else " add column ") + col)
  }

  function DropColumnsSql(table: string, names: seq<string>): (r: seq<string>)
    ensures |r| == |names|
    ensures forall i :: 0 <= i < |names| ==> r[i] == AlterTable(table) + " drop column " + Wrap(names[i])
  {
    seq(|names|, i requires 0 <= i < |names| => AlterTable(table) + " drop column " + Wrap(names[i]))
  }

  /** The column a `drop column` statement of `table` removes, if it is one. */
  function DroppedColumn(table: string, s: string): Option<string> {
    var prefix := AlterTable(table) + " drop column ";
    if |s| >= |prefix| && s[..|prefix|] == prefix then Unwrap(s[|prefix|..]) else None
  }

  /** The columns a list of `drop column` statements removes, in order. */
  function DroppedColumns(table: string, stmts: seq<string>): Option<seq<string>>
    decreases |stmts|
  {
    if stmts == [] then Some([])
    else
      match (DroppedColumn(table, stmts[0]), DroppedColumns(table, stmts[1..]))
      case (Some(n), Some(ns)) => Some([n] + ns)
      case _ => None
  }

  /** Each drop statement names its column recoverably. */
  lemma DroppedColumnOfDrop(table: string, name: string)
    ensures DroppedColumn(table, AlterTable(table) + " drop column " + Wrap(name)) == Some(name)
  {
    var prefix := AlterTable(table) + " drop column ";
    var s := prefix + Wrap(name);
    assert s[..|prefix|] == prefix && s[|prefix|..] == Wrap(name);
    UnwrapWrap(name);
  }

  /** `dropColumn` loses nothing: the dropped names, in call order, are recovered
      from its statements. */
  lemma {:induction false} DroppedColumnsRoundTrip(table: string, names: seq<string>)
    ensures DroppedColumns(table, DropColumnsSql(table, names)) == Some(names)
    decreases |names|
  {
    if names != [] {
      var r := DropColumnsSql(table, names);
      assert r[1..] == DropColumnsSql(table, names[1..]);
      DroppedColumnOfDrop(table, names[0]);
      DroppedColumnsRoundTrip(table, names[1..]);
      assert [names[0]] + names[1..] == names;
    }
  }

  /** Dropping `a` then `b` in one call gives the statements for `a`, then those for `b`. */
  lemma DropColumnsSqlAppend(table: string, a: seq<string>, b: seq<string>)
    ensures DropColumnsSql(table, a + b) == DropColumnsSql(table, a) + DropColumnsSql(table, b)
  {
    var l := DropColumnsSql(table, a + b);
    var r := DropColumnsSql(table, a) + DropColumnsSql(table, b);
    forall i | 0 <= i < |l| ensures l[i] == r[i] {
      if i < |a| { assert (a + b)[i] == a[i]; } else { assert (a + b)[i] == b[i - |a|]; }
    }
  }

  /** The statements one command contributes. `create` is the blueprint's create
      statement, used only by the `Create` command. Keys, interleaving and
      `deleteRowsOlderThan` only feed the create statement. */
  function CommandSql(table: string, creating: bool, create: Result<string>, c: Command): Result<seq<string>> {
    match c
    case ColumnCommand(col) =>
      if creating then Ok([])
      else
        var s :- AlterColumnSql(table, col);
        Ok([s])
    case Create =>
      var s :- create;
      Ok([s])
    case Primary(_) => Ok([])
    case CreateIndex(_, _, _, _, _, _) => Ok([CreateIndexSql(table, c)])
    case DropIndex(n) => Ok(["drop index " + Wrap(n)])
    case DropColumns(names) => Ok(DropColumnsSql(table, names))
    case DropForeign(n) => Ok([AlterTable(table) + " drop constraint " + Wrap(n)])
    case Drop => Ok(["drop table " + Wrap(table)])
    case DropIfExists => Ok(["drop table if exists " + Wrap(table)])
    case InterleaveInParent(_, _) => Ok([])
    case RowDeletionPolicy(_, _) => Ok([])
    case AddRowDeletionPolicy(col, n) =>
      Ok([AlterTable(table) + " add row deletion policy " + OlderThan(Wrap(col), n)])
    case ReplaceRowDeletionPolicy(col, n) =>
      Ok([AlterTable(table) + " replace row deletion policy " + OlderThan(Wrap(col), n)])
    case DropRowDeletionPolicy => Ok([AlterTable(table) + " drop row deletion policy"])
  }

  function CommandsSql(table: string, creating: bool, create: Result<string>, cmds: seq<Command>): Result<seq<string>>
    decreases |cmds|
  {
    if cmds == [] then Ok([])
    else
      var h :- CommandSql(table, creating, create, cmds[0]);
      var rest :- CommandsSql(table, creating, create, cmds[1..]);
      Ok(h + rest)
  }

  /** `Blueprint::toSql`: every command in call order. */
  function ToSql(b: BlueprintState): Result<seq<string>> {
    CommandsSql(b.table, Creating(b), CreateTableSql(b), b.commands)
  }

  /** Sequencing of two rendering results: the first failure wins. */
  function Then(x: Result<seq<string>>, y: Result<seq<string>>): Result<seq<string>> {
    if x.Err? then x else if y.Err? then y else Ok(x.value + y.value)
  }

  // ---- properties --------------------------------------------------------------

  /** Rendering distributes over the command list: the statements of `a + b`
      are those of `a` followed by those of `b`. */
  lemma {:induction false} CommandsSqlAppend(table: string, creating: bool, create: Result<string>,
                                              a: seq<Command>, b: seq<Command>)
    ensures CommandsSql(table, creating, create, a + b)
         == Then(CommandsSql(table, creating, create, a), CommandsSql(table, creating, create, b))
    decreases |a|
  {
    if a == [] {
      assert a + b == b;
      var y := CommandsSql(table, creating, create, b);
      if y.Ok? {
        assert [] + y.value == y.value;
      }
    } else {
      assert (a + b)[0] == a[0];
      assert (a + b)[1..] == a[1..] + b;
      CommandsSqlAppend(table, creating, create, a[1..], b);
      var h := CommandSql(table, creating, create, a[0]);
      if h.Ok? {
        var x := CommandsSql(table, creating, create, a[1..]);
        var y := CommandsSql(table, creating, create, b);
        if x.Ok? && y.Ok? {
          assert h.value + (x.value + y.value) == (h.value + x.value) + y.value;
        }
      }
    }
  }

  predicate NoCreate(cmds: seq<Command>) {
    forall i :: 0 <= i < |cmds| ==> !cmds[i].Create?
  }

  /** Without a `Create` command the create statement is never consulted. */
  lemma {:induction false} CommandsSqlWithoutCreate(table: string, creating: bool, x: Result<string>,
                                                     y: Result<string>, cmds: seq<Command>)
    requires NoCreate(cmds)
    ensures CommandsSql(table, creating, x, cmds) == CommandsSql(table, creating, y, cmds)
    decreases |cmds|
  {
    if cmds != [] {
      assert !cmds[0].Create?;
      assert NoCreate(cmds[1..]) by {
        forall i | 0 <= i < |cmds[1..]|
          ensures !cmds[1..][i].Create?
        {
          assert cmds[1..][i] == cmds[i + 1];
        }
      }
      CommandsSqlWithoutCreate(table, creating, x, y, cmds[1..]);
    }
  }

  predicate AllColumnCommands(cmds: seq<Command>) {
    forall i :: 0 <= i < |cmds| ==> cmds[i].ColumnCommand?
  }

  /** One step of the rendering outside a create: a column command in front of a
      rendered list adds its `alter table` statement in front. */
  lemma AlterStatementFirst(table: string, create: Result<string>, cmds: seq<Command>)
    requires cmds != [] && cmds[0].ColumnCommand? && ColumnSql(cmds[0].column).Ok?
    requires CommandsSql(table, false, create, cmds[1..]).Ok?
    ensures CommandsSql(table, false, create, cmds)
         == Ok([AlterTable(table) + (if cmds[0].column.change then " alter column " else " add column ")
                + ColumnSql(cmds[0].column).value] + CommandsSql(table, false, create, cmds[1..]).value)
  {
    assert AlterColumnSql(table, cmds[0].column).Ok?;
  }

  /** On a blueprint that is not creating its table, each recorded column yields
      exactly one `alter table` statement (`add column`, or `alter column` for a
      changed column), in call order. */
  lemma {:induction false} AlterStatementsInCallOrder(table: string, create: Result<string>, cmds: seq<Command>)
    requires AllColumnCommands(cmds)
    requires forall i :: 0 <= i < |cmds| ==> ColumnSql(cmds[i].column).Ok?
    ensures CommandsSql(table, false, create, cmds).Ok?
    ensures |CommandsSql(table, false, create, cmds).value| == |cmds|
    ensures forall i :: 0 <= i < |cmds| ==>
      CommandsSql(table, false, create, cmds).value[i]
        == AlterTable(table) + (if cmds[i].column.change then " alter column " else " add column ")
           + ColumnSql(cmds[i].column).value
    decreases |cmds|
  {
    if cmds != [] {
      var rest := cmds[1..];
      forall i | 0 <= i < |rest| ensures rest[i].ColumnCommand? && ColumnSql(rest[i].column).Ok? {
        assert rest[i] == cmds[i + 1];
      }
      AlterStatementsInCallOrder(table, create, rest);
      AlterStatementFirst(table, create, cmds);
      var r := CommandsSql(table, false, create, cmds).value;
      var tail := CommandsSql(table, false, create, rest).value;
      forall i | 0 <= i < |cmds|
        ensures r[i] == AlterTable(table) + (if cmds[i].column.change then " alter column " else " add column ")
                        + ColumnSql(cmds[i].column).value
      {
        if i > 0 {
          assert r[i] == tail[i - 1];
          assert rest[i - 1] == cmds[i];
        }
      }
    }
  }

  /** A column whose default does not fit its type makes the whole blueprint fail. */
  lemma {:induction false} ColumnsSqlFailsIffMisfit(cs: seq<Column>)
    ensures ColumnsSql(cs).Err? <==> exists k :: 0 <= k < |cs| && ColumnSql(cs[k]).Err?
    decreases |cs|
  {
    if cs != [] {
      ColumnsSqlFailsIffMisfit(cs[1..]);
      if ColumnSql(cs[0]).Ok? && ColumnsSql(cs[1..]).Err? {
        var k :| 0 <= k < |cs[1..]| && ColumnSql(cs[1..][k]).Err?;
        assert ColumnSql(cs[k + 1]).Err?;
      }
      if ColumnSql(cs[0]).Ok? && ColumnsSql(cs[1..]).Ok? {
        forall k | 0 <= k < |cs|
          ensures ColumnSql(cs[k]).Ok?
        {
          if k > 0 {
            assert cs[k] == cs[1..][k - 1];
          }
        }
      }
    }
  }

  /** The create statement lists one definition per column, in declaration order. */
  lemma {:induction false} ColumnsSqlInOrder(cs: seq<Column>)
    requires ColumnsSql(cs).Ok?
    ensures |ColumnsSql(cs).value| == |cs|
    ensures forall k :: 0 <= k < |cs| ==> ColumnSql(cs[k]).Ok? && ColumnsSql(cs).value[k] == ColumnSql(cs[k]).value
    decreases |cs|
  {
    if cs != [] {
      ColumnsSqlInOrder(cs[1..]);
      var r := ColumnsSql(cs).value;
      var tail := ColumnsSql(cs[1..]).value;
      assert r == [ColumnSql(cs[0]).value] + tail;
      forall k | 0 <= k < |cs|
        ensures ColumnSql(cs[k]).Ok? && r[k] == ColumnSql(cs[k]).value
      {
        if k > 0 {
          assert cs[k] == cs[1..][k - 1];
          assert r[k] == tail[k - 1];
        }
      }
    }
  }

  /** A column definition starts with its quoted name and type; with no default
      it ends in ` not null` exactly when the column is not nullable. */
  lemma ColumnSqlShape(c: Column)
    requires DefaultClause(c).Ok?
    ensures var r := ColumnSql(c).value; var head := Wrap(c.name) + " " + TypeSql(TypeOf(c.kind));
      && |r| >= |head| && r[..|head|] == head
      && (!c.useCurrent && c.defaultValue.None? ==>
            (r == head + " not null" <==> !c.nullable) && (r == head <==> c.nullable))
  {
    var r := ColumnSql(c).value;
    var head := Wrap(c.name) + " " + TypeSql(TypeOf(c.kind));
    assert r == head + (NullSuffix(c) + DefaultClause(c).value);
    if !c.useCurrent && c.defaultValue.None? {
      assert r == head + NullSuffix(c);
      if c.nullable {
        assert r == head;
        assert |r| != |head + " not null"|;
      } else {
        assert |r| != |head|;
      }
    }
  }

  /** `useCurrent` wins over any default value and needs no literal. */
  lemma UseCurrentDefault(c: Column)
    requires c.useCurrent
    ensures ColumnSql(c) == Ok(Wrap(c.name) + " " + TypeSql(TypeOf(c.kind)) + NullSuffix(c) + " default (CURRENT_TIMESTAMP())")
  {
  }

  /** Where each of four concatenated parts sits in the whole. */
  lemma FourParts(h: string, pk: string, il: string, po: string)
    ensures var r := h + pk + il + po;
      && |r| == |h| + |pk| + |il| + |po|
      && r[..|h|] == h
      && r[|h|..|h| + |pk|] == pk
      && r[|h| + |pk|..|h| + |pk| + |il|] == il
      && r[|h| + |pk| + |il|..] == po
  {
  }

  /** The primary key clause follows the column list directly; the interleave
      clause follows it, and the row deletion policy closes the statement. */
  lemma CreateTableLayout(b: BlueprintState)
    requires ColumnsSql(b.columns).Ok?
    ensures var r := CreateTableSql(b); var h := CreateHead(b.table) + Join(ColumnsSql(b.columns).value, ", ") + ")";
      var pk := PrimaryKeyClause(PrimaryKey(b)); var il := InterleaveSql(FirstInterleave(b.commands));
      && r.Ok? && |r.value| >= |h| + |pk| + |il|
      && r.value[..|h|] == h
      && r.value[|h|..|h| + |pk|] == pk
      && r.value[|h| + |pk|..|h| + |pk| + |il|] == il
      && r.value[|h| + |pk| + |il|..] == PolicySql(FirstPolicy(b.commands))
  {
    var cols := Join(ColumnsSql(b.columns).value, ", ");
    var pk := PrimaryKeyClause(PrimaryKey(b));
    var il := InterleaveSql(FirstInterleave(b.commands));
    var po := PolicySql(FirstPolicy(b.commands));
    assert CreateTableSql(b) == Ok(CreateHead(b.table) + cols + CreateTail(b));
    TailRegroup(CreateHead(b.table), cols, pk, il, po);
    FourParts(CreateHead(b.table) + cols + ")", pk, il, po);
  }

  lemma TailRegroup(head: string, cols: string, pk: string, il: string, po: string)
    ensures head + cols + (")" + pk + il + po) == head + cols + ")" + pk + il + po
  {
  }

  /** ` on delete cascade` is written exactly when cascading was asked for. */
  lemma InterleaveCascade(parent: string, cascade: bool)
    ensures var r := InterleaveClause(parent, cascade); var base := ", interleave in parent " + Wrap(parent);
      && (cascade ==> r == base + " on delete cascade")
      && (!cascade ==> r == base)
      && (cascade <==> |r| > |base|)
  {
  }

  /** A unique index and a plain index on the same columns get different names. */
  lemma UniqueAndPlainNamesDiffer(table: string, columns: seq<string>)
    ensures IndexName(table, columns, true) != IndexName(table, columns, false)
  {
    assert |IndexName(table, columns, true)| != |IndexName(table, columns, false)|;
  }

  /** The name depends on the table and key columns only up to ASCII case. */
  lemma IndexNameIgnoresCase(table: string, columns: seq<string>, unique: bool)
    ensures IndexName(Lower(table), columns, unique) == IndexName(table, columns, unique)
  {
    var rest := "_" + Join(columns, "_") + "_" + IndexSuffix(unique);
    assert Lower(table) + "_" + Join(columns, "_") + "_" + IndexSuffix(unique) == Lower(table) + rest;
    assert table + "_" + Join(columns, "_") + "_" + IndexSuffix(unique) == table + rest;
    LowerAppend(Lower(table), rest);
    LowerAppend(table, rest);
    LowerOfLowerCase(Lower(table));
  }

  /** An index statement is its head followed by the optional clauses, which are
      there exactly when storing columns or an interleave parent were given. */
  lemma CreateIndexShape(table: string, c: Command)
    requires c.CreateIndex?
    ensures var r := CreateIndexSql(table, c); var head := IndexHead(table, c);
      && |r| >= |head| && r[..|head|] == head
      && (c.storing == [] && c.interleaveIn.None? <==> r == head)
  {
    var head := IndexHead(table, c);
    var st := if c.storing != [] then " storing (" + Columnize(c.storing) + ")" else "";
    var il := if c.interleaveIn.Some? then ", interleave in " + Wrap(c.interleaveIn.value) else "";
    assert CreateIndexSql(table, c) == head + st + il;
    assert c.storing != [] <==> st != [];
    assert c.interleaveIn.Some? <==> il != [];
    OptionalSuffixes(head, st, il);
  }

  lemma OptionalSuffixes(head: string, st: string, il: string)
    ensures |head + st + il| >= |head| && (head + st + il)[..|head|] == head
    ensures st == [] && il == [] <==> head + st + il == head
  {
    if head + st + il == head {
      assert |st| + |il| == 0;
    }
  }

  /** Storing columns, the null filter and the interleave parent never change the
      derived name: two indexes on the same key columns share it. */
  lemma IndexNameIgnoresOptions(table: string, c: Command, storing: seq<string>, parent: Option<string>, nullFiltered: bool)
    requires c.CreateIndex? && c.indexName.None?
    ensures var d := c.(storing := storing, interleaveIn := parent, nullFiltered := nullFiltered);
      IndexName(table, d.indexColumns, d.unique) == IndexName(table, c.indexColumns, c.unique)
  {
  }

  // ---- recording one more command ----------------------------------------------

  lemma {:induction false} FirstPrimaryAppend(a: seq<Command>, b: seq<Command>)
    ensures FirstPrimary(a + b) == if FirstPrimary(a).Some? then FirstPrimary(a) else FirstPrimary(b)
    decreases |a|
  {
    if a == [] {
      assert a + b == b;
    } else {
      assert (a + b)[1..] == a[1..] + b;
      FirstPrimaryAppend(a[1..], b);
    }
  }

  lemma {:induction false} FirstInterleaveAppend(a: seq<Command>, b: seq<Command>)
    ensures FirstInterleave(a + b) == if FirstInterleave(a).Some? then FirstInterleave(a) else FirstInterleave(b)
    decreases |a|
  {
    if a == [] {
      assert a + b == b;
    } else {
      assert (a + b)[1..] == a[1..] + b;
      FirstInterleaveAppend(a[1..], b);
    }
  }

  lemma {:induction false} FirstPolicyAppend(a: seq<Command>, b: seq<Command>)
    ensures FirstPolicy(a + b) == if FirstPolicy(a).Some? then FirstPolicy(a) else FirstPolicy(b)
    decreases |a|
  {
    if a == [] {
      assert a + b == b;
    } else {
      assert (a + b)[1..] == a[1..] + b;
      FirstPolicyAppend(a[1..], b);
    }
  }

  /** Commands that only produce statements of their own (no create-table input). */
  predicate Standalone(c: Command) {
    !c.ColumnCommand? && !c.Create? && !c.Primary? && !c.InterleaveInParent? && !c.RowDeletionPolicy?
  }

  lemma CreatingAppend(b: BlueprintState, c: Command)
    ensures Creating(b.(commands := b.commands + [c])) <==> Creating(b) || c.Create?
  {
    var cmds := b.commands + [c];
    if Creating(b) {
      var i :| 0 <= i < |b.commands| && b.commands[i].Create?;
      assert cmds[i] == b.commands[i];
    }
    if c.Create? {
      assert cmds[|b.commands|].Create?;
    }
    if Creating(b.(commands := cmds)) {
      var i :| 0 <= i < |cmds| && cmds[i].Create?;
      if i < |b.commands| {
        assert b.commands[i] == cmds[i];
      }
    }
  }

  /** A command that is not a key, interleave or policy leaves the create statement as it was. */
  lemma CreateTableIgnores(b: BlueprintState, c: Command)
    requires !c.Primary? && !c.InterleaveInParent? && !c.RowDeletionPolicy?
    ensures CreateTableSql(b.(commands := b.commands + [c])) == CreateTableSql(b)
  {
    var b' := b.(commands := b.commands + [c]);
    FirstPrimaryAppend(b.commands, [c]);
    FirstInterleaveAppend(b.commands, [c]);
    FirstPolicyAppend(b.commands, [c]);
    assert CreateTail(b') == CreateTail(b);
  }

  lemma SingleCommandSql(table: string, creating: bool, create: Result<string>, c: Command)
    ensures CommandsSql(table, creating, create, [c]) == CommandSql(table, creating, create, c)
  {
    var y := CommandSql(table, creating, create, c);
    assert [c][1..] == [];
    if y.Ok? {
      assert y.value + [] == y.value;
    }
  }

  /** Recording a standalone command appends its statements and leaves every
      earlier statement, the create statement included, as it was. */
  lemma AppendStandalone(b: BlueprintState, c: Command)
    requires Standalone(c)
    ensures ToSql(b.(commands := b.commands + [c]))
         == Then(ToSql(b), CommandSql(b.table, Creating(b), CreateTableSql(b), c))
  {
    CreatingAppend(b, c);
    CreateTableIgnores(b, c);
    CommandsSqlAppend(b.table, Creating(b), CreateTableSql(b), b.commands, [c]);
    SingleCommandSql(b.table, Creating(b), CreateTableSql(b), c);
  }

  lemma ThenNothing(x: Result<seq<string>>)
    ensures Then(x, Ok([])) == x
  {
    if x.Ok? {
      assert x.value + [] == x.value;
    }
  }

  /** On a blueprint that is not creating its table, a new column appends exactly
      its own `alter table` statement. */
  lemma AppendColumnOutsideCreate(b: BlueprintState, col: Column)
    requires !Creating(b)
    ensures var b' := b.(columns := b.columns + [col], commands := b.commands + [ColumnCommand(col)]);
      ToSql(b') == Then(ToSql(b), match AlterColumnSql(b.table, col) case Ok(s) => Ok([s]) case Err(e) => Err(e))
  {
    var cmds := b.commands + [ColumnCommand(col)];
    var b' := b.(columns := b.columns + [col], commands := cmds);
    CreatingAppend(b, ColumnCommand(col));
    assert Creating(b') == Creating(b.(commands := cmds));
    assert NoCreate(b.commands);
    assert NoCreate(cmds) by {
      forall i | 0 <= i < |cmds| ensures !cmds[i].Create? {
        if i < |b.commands| {
          assert cmds[i] == b.commands[i];
        }
      }
    }
    CommandsSqlWithoutCreate(b.table, false, CreateTableSql(b'), CreateTableSql(b), cmds);
    CommandsSqlAppend(b.table, false, CreateTableSql(b), b.commands, [ColumnCommand(col)]);
    var y := CommandSql(b.table, false, CreateTableSql(b), ColumnCommand(col));
    if y.Ok? {
      assert CommandsSql(b.table, false, CreateTableSql(b), [ColumnCommand(col)]) == Ok(y.value + []);
      assert y.value + [] == y.value;
    }
  }

  /** Keys, interleaving and `deleteRowsOlderThan` add no statement of their own;
      outside a create they change nothing. */
  lemma AppendCreateOnlyOutsideCreate(b: BlueprintState, c: Command)
    requires !Creating(b) && (c.Primary? || c.InterleaveInParent? || c.RowDeletionPolicy?)
    ensures ToSql(b.(commands := b.commands + [c])) == ToSql(b)
  {
    var cmds := b.commands + [c];
    var b' := b.(commands := cmds);
    CreatingAppend(b, c);
    assert NoCreate(cmds) by {
      forall i | 0 <= i < |cmds| ensures !cmds[i].Create? {
        if i < |b.commands| {
          assert cmds[i] == b.commands[i];
        }
      }
    }
    CommandsSqlWithoutCreate(b.table, false, CreateTableSql(b'), CreateTableSql(b), cmds);
    CommandsSqlAppend(b.table, false, CreateTableSql(b), b.commands, [c]);
    assert CommandSql(b.table, false, CreateTableSql(b), c) == Ok([]);
    var empty: seq<string> := [];
    assert empty + empty == empty;
    assert CommandsSql(b.table, false, CreateTableSql(b), [c]) == Ok(empty);
    ThenNothing(ToSql(b));
    assert !Creating(b');
    assert ToSql(b') == CommandsSql(b.table, false, CreateTableSql(b'), cmds);
  }

  /** Commands that only feed the create statement: column definitions, keys,
      interleaving and `deleteRowsOlderThan`. */
  predicate FeedsCreate(c: Command) {
    c.ColumnCommand? || c.Primary? || c.InterleaveInParent? || c.RowDeletionPolicy?
  }

  lemma {:induction false} CreateInputsRenderNothing(table: string, create: Result<string>, cmds: seq<Command>)
    requires forall i :: 0 <= i < |cmds| ==> FeedsCreate(cmds[i])
    ensures CommandsSql(table, true, create, cmds) == Ok([])
    decreases |cmds|
  {
    if cmds != [] {
      assert FeedsCreate(cmds[0]);
      assert forall i :: 0 <= i < |cmds[1..]| ==> FeedsCreate(cmds[1..][i]) by {
        forall i | 0 <= i < |cmds[1..]| ensures FeedsCreate(cmds[1..][i]) {
          assert cmds[1..][i] == cmds[i + 1];
        }
      }
      CreateInputsRenderNothing(table, create, cmds[1..]);
      var empty: seq<string> := [];
      assert CommandSql(table, true, create, cmds[0]) == Ok(empty);
      assert empty + empty == empty;
    }
  }

  /** A blueprint that declares its columns, key, interleaving and policy and then
      calls `create()` yields exactly one statement: the create statement, which
      holds every column; no column gets an `alter table` of its own. */
  lemma CreateAfterDeclarations(b: BlueprintState)
    requires forall i :: 0 <= i < |b.commands| ==> FeedsCreate(b.commands[i])
    ensures var b' := b.(commands := b.commands + [Create]);
      && CreateTableSql(b') == CreateTableSql(b)
      && (CreateTableSql(b).Ok? ==> ToSql(b') == Ok([CreateTableSql(b).value]))
      && (CreateTableSql(b).Err? ==> ToSql(b') == Err(CreateTableSql(b).error))
  {
    CreatingAppend(b, Create);
    CreateTableIgnores(b, Create);
    var create := CreateTableSql(b);
    CommandsSqlAppend(b.table, true, create, b.commands, [Create]);
    CreateInputsRenderNothing(b.table, create, b.commands);
    SingleCommandSql(b.table, true, create, Create);
    if create.Ok? {
      var empty: seq<string> := [];
      assert empty + [create.value] == [create.value];
    }
  }
}
