/** The create-table scenarios of the driver's test-suite: columns, a key,
    interleaving and a row deletion policy declared on a blueprint, then
    `create()`, which yields a single `create table` statement. */
module CreateExamples {
  import opened Common
  import opened Text
  import opened Codec
  import opened SchemaTypes
  import opened SchemaGrammar
  import opened Blueprints
  import opened SchemaExamples

  // ---- create statements in general ------------------------------------------------

  /** Column definitions never decide the key, the interleaving or the policy. */
  lemma {:induction false} FirstsSkipColumns(cols: seq<Command>, rest: seq<Command>)
    requires AllColumnCommands(cols)
    ensures FirstPrimary(cols + rest) == FirstPrimary(rest)
    ensures FirstInterleave(cols + rest) == FirstInterleave(rest)
    ensures FirstPolicy(cols + rest) == FirstPolicy(rest)
    decreases |cols|
  {
    if cols == [] {
      assert cols + rest == rest;
    } else {
      assert (cols + rest)[0] == cols[0];
      assert (cols + rest)[1..] == cols[1..] + rest;
      assert AllColumnCommands(cols[1..]) by {
        forall i | 0 <= i < |cols[1..]| ensures cols[1..][i].ColumnCommand? {
          assert cols[1..][i] == cols[i + 1];
        }
      }
      FirstsSkipColumns(cols[1..], rest);
    }
  }

  lemma TwoColumnsSql(a: Column, b: Column, sa: string, sb: string)
    requires ColumnSql(a) == Ok(sa) && ColumnSql(b) == Ok(sb)
    ensures ColumnsSql([a, b]) == Ok([sa, sb])
  {
    var none: seq<Column> := [];
    assert [b][1..] == none;
    assert ColumnsSql(none) == Ok([]);
    assert ColumnsSql([b]) == Ok([sb] + []);
    assert [sb] + [] == [sb];
    assert [a, b][1..] == [b];
    assert ColumnsSql([a, b]) == Ok([sa] + [sb]);
    assert [sa] + [sb] == [sa, sb];
  }

  lemma ThreeColumnsSql(a: Column, b: Column, c: Column, sa: string, sb: string, sc: string)
    requires ColumnSql(a) == Ok(sa) && ColumnSql(b) == Ok(sb) && ColumnSql(c) == Ok(sc)
    ensures ColumnsSql([a, b, c]) == Ok([sa, sb, sc])
  {
    assert [a, b, c][1..] == [b, c];
    TwoColumnsSql(b, c, sb, sc);
    assert ColumnsSql([a, b, c]) == Ok([sa] + [sb, sc]);
    assert [sa] + [sb, sc] == [sa, sb, sc];
  }

  lemma JoinTwo(x: string, y: string, sep: string)
    ensures Join([x, y], sep) == x + sep + y
  {
    assert [x, y][1..] == [y];
  }

  lemma JoinThree(x: string, y: string, z: string, sep: string)
    ensures Join([x, y, z], sep) == x + sep + y + sep + z
  {
    assert [x, y, z][1..] == [y, z];
    JoinTwo(y, z, sep);
    assert x + sep + (y + sep + z) == x + sep + y + sep + z;
  }

  lemma Regroup4(h: string, j: string, a: string, b: string, c: string, d: string)
    ensures h + j + (a + b + c + d) == h + (j + a + b + c + d)
  {
    assert a + b + c + d == a + (b + (c + d));
    assert j + a + b + c + d == j + (a + (b + (c + d)));
  }

  lemma Regroup3(p: string, a: string, b: string, c: string)
    ensures p + (a + b + c) == p + a + b + c
  {
    assert a + b + c == a + (b + c);
  }

  /** A create statement assembled from its column definitions and closing clauses. */
  lemma CreateStatement(b: BlueprintState, cols: seq<string>, pk: string, il: string, po: string, body: string)
    requires ColumnsSql(b.columns) == Ok(cols)
    requires PrimaryKeyClause(PrimaryKey(b)) == pk
    requires InterleaveSql(FirstInterleave(b.commands)) == il
    requires PolicySql(FirstPolicy(b.commands)) == po
    requires Join(cols, ", ") + ")" + pk + il + po == body
    ensures CreateTableSql(b) == Ok(CreateHead(b.table) + body)
  {
    var j := Join(cols, ", ");
    var h := CreateHead(b.table);
    assert CreateTail(b) == ")" + pk + il + po;
    assert CreateTableSql(b) == Ok(h + j + CreateTail(b));
    Regroup4(h, j, ")", pk, il, po);
  }

  /** The same, with the column list joined and the key clause closed beforehand. */
  lemma CreateStatementParts(b: BlueprintState, cols: seq<string>, j: string, pk: string, closed: string, il: string, po: string)
    requires ColumnsSql(b.columns) == Ok(cols) && Join(cols, ", ") == j
    requires PrimaryKeyClause(PrimaryKey(b)) == pk && ")" + pk == closed
    requires InterleaveSql(FirstInterleave(b.commands)) == il
    requires PolicySql(FirstPolicy(b.commands)) == po
    ensures CreateTableSql(b) == Ok(CreateHead(b.table) + j + closed + il + po)
  {
    CreateStatement(b, cols, pk, il, po, j + ")" + pk + il + po);
    ClosedRegroup(CreateHead(b.table), j, pk, closed, il, po);
  }

  lemma ClosedRegroup(h: string, j: string, pk: string, closed: string, il: string, po: string)
    requires ")" + pk == closed
    ensures h + (j + ")" + pk + il + po) == h + j + closed + il + po
  {
    assert j + ")" + pk == j + closed;
  }

  lemma NoClauses(x: string)
    ensures x + "" + "" == x
  {}

  /** A nullable column without default: `` `name` type ``. */
  lemma NullableColumn(name: string, quoted: string, kind: ColumnKind, ty: string, expected: string)
    requires Wrap(name) == quoted && TypeSql(TypeOf(kind)) == ty && quoted + " " + ty == expected
    ensures ColumnSql(PlainColumn(name, kind).(nullable := true)) == Ok(expected)
  {
    var c := PlainColumn(name, kind).(nullable := true);
    assert DefaultClause(c) == Ok("");
    assert NullSuffix(c) == "";
    assert quoted + " " + ty + "" + "" == expected;
  }

  // ---- blueprints that create their table ----------------------------------------

  /** Three columns and `primary(keys)`, as recorded before `create()`. */
  function KeyedState(t: string, a: Column, b: Column, c: Column, keys: seq<string>): BlueprintState {
    BlueprintState(t, [a, b, c], [ColumnCommand(a), ColumnCommand(b), ColumnCommand(c), SchemaGrammar.Primary(keys)])
  }

  /** The same, followed by `interleaveInParent(parent)`. */
  function InterleavedState(t: string, a: Column, b: Column, c: Column, keys: seq<string>,
                            parent: string, cascade: bool): BlueprintState {
    BlueprintState(t, [a, b, c], [ColumnCommand(a), ColumnCommand(b), ColumnCommand(c), SchemaGrammar.Primary(keys),
                                  SchemaGrammar.InterleaveInParent(parent, cascade)])
  }

  /** A column, `primary(keys)`, a second column and `deleteRowsOlderThan(column, days)`. */
  function PolicyState(t: string, a: Column, keys: seq<string>, b: Column, column: string, days: nat): BlueprintState {
    BlueprintState(t, [a, b], [ColumnCommand(a), SchemaGrammar.Primary(keys), ColumnCommand(b), RowDeletionPolicy(column, days)])
  }

  lemma KeyedFirsts(t: string, a: Column, b: Column, c: Column, keys: seq<string>)
    ensures var s := KeyedState(t, a, b, c, keys);
      && PrimaryKey(s) == Some(keys) && FirstInterleave(s.commands) == None && FirstPolicy(s.commands) == None
  {
    var cols := [ColumnCommand(a), ColumnCommand(b), ColumnCommand(c)];
    var rest := [SchemaGrammar.Primary(keys)];
    assert KeyedState(t, a, b, c, keys).commands == cols + rest;
    FirstsSkipColumns(cols, rest);
    assert rest[1..] == [];
    assert FirstPrimary(rest) == Some(keys);
    assert FirstInterleave(rest[1..]) == None;
    assert FirstInterleave(rest) == None;
    assert FirstPolicy(rest) == None;
  }

  lemma InterleavedFirsts(t: string, a: Column, b: Column, c: Column, keys: seq<string>, parent: string, cascade: bool)
    ensures var s := InterleavedState(t, a, b, c, keys, parent, cascade);
      && PrimaryKey(s) == Some(keys)
      && FirstInterleave(s.commands) == Some(SchemaGrammar.InterleaveInParent(parent, cascade))
      && FirstPolicy(s.commands) == None
  {
    var cols := [ColumnCommand(a), ColumnCommand(b), ColumnCommand(c)];
    var rest := [SchemaGrammar.Primary(keys), SchemaGrammar.InterleaveInParent(parent, cascade)];
    assert InterleavedState(t, a, b, c, keys, parent, cascade).commands == cols + rest;
    FirstsSkipColumns(cols, rest);
    assert rest[1..] == [SchemaGrammar.InterleaveInParent(parent, cascade)];
    assert rest[1..][1..] == [];
    assert FirstPrimary(rest) == Some(keys);
    assert FirstInterleave(rest[1..]) == Some(SchemaGrammar.InterleaveInParent(parent, cascade));
    assert FirstInterleave(rest) == Some(SchemaGrammar.InterleaveInParent(parent, cascade));
    assert FirstPolicy(rest[1..][1..]) == None;
    assert FirstPolicy(rest[1..]) == None;
    assert FirstPolicy(rest) == None;
  }

  lemma PolicyFirsts(t: string, a: Column, keys: seq<string>, b: Column, column: string, days: nat)
    ensures var s := PolicyState(t, a, keys, b, column, days);
      && PrimaryKey(s) == Some(keys) && FirstInterleave(s.commands) == None
      && FirstPolicy(s.commands) == Some(RowDeletionPolicy(column, days))
  {
    var cmds := PolicyState(t, a, keys, b, column, days).commands;
    assert cmds[1..] == [SchemaGrammar.Primary(keys), ColumnCommand(b), RowDeletionPolicy(column, days)];
    assert cmds[1..][1..] == [ColumnCommand(b), RowDeletionPolicy(column, days)];
    assert cmds[1..][1..][1..] == [RowDeletionPolicy(column, days)];
    assert cmds[1..][1..][1..][1..] == [];
    assert FirstPrimary(cmds[1..]) == Some(keys);
    assert FirstPrimary(cmds) == Some(keys);
    assert FirstInterleave(cmds[1..][1..][1..][1..]) == None;
    assert FirstInterleave(cmds[1..][1..][1..]) == None;
    assert FirstInterleave(cmds[1..][1..]) == None;
    assert FirstInterleave(cmds[1..]) == None;
    assert FirstInterleave(cmds) == None;
    assert FirstPolicy(cmds[1..][1..][1..]) == Some(RowDeletionPolicy(column, days));
    assert FirstPolicy(cmds[1..][1..]) == Some(RowDeletionPolicy(column, days));
    assert FirstPolicy(cmds[1..]) == Some(RowDeletionPolicy(column, days));
    assert FirstPolicy(cmds) == Some(RowDeletionPolicy(column, days));
  }

  /** `uuid`/`integer`/`string` column calls and `primary(keys)`, not yet created. */
  method DeclareKeyed(t: string, a: Column, b: Column, c: Column, keys: seq<string>) returns (bp: Blueprint)
    ensures fresh(bp) && bp.State() == KeyedState(t, a, b, c, keys)
  {
    bp := new Blueprint(t);
    bp.AddColumn(a);
    bp.AddColumn(b);
    bp.AddColumn(c);
    assert bp.State() == BlueprintState(t, [a, b, c], [ColumnCommand(a), ColumnCommand(b), ColumnCommand(c)]);
    bp.Primary(keys);
  }

  /** Three column calls and `primary(keys)`, then `create()`: the create statement alone. */
  method KeyedTable(t: string, a: Column, b: Column, c: Column, keys: seq<string>, statement: string)
    returns (sql: Result<seq<string>>)
    requires CreateTableSql(KeyedState(t, a, b, c, keys)) == Ok(statement)
    ensures sql == Ok([statement])
  {
    var bp := DeclareKeyed(t, a, b, c, keys);
    assert forall i :: 0 <= i < |bp.commands| ==> FeedsCreate(bp.commands[i]);
    bp.Create();
    sql := bp.ToSql();
  }

  /** The keyed declarations followed by `interleaveInParent(parent)`. */
  method DeclareInterleaved(t: string, a: Column, b: Column, c: Column, keys: seq<string>, parent: string, cascade: bool)
    returns (bp: Blueprint)
    ensures fresh(bp) && bp.State() == InterleavedState(t, a, b, c, keys, parent, cascade)
  {
    bp := DeclareKeyed(t, a, b, c, keys);
    bp.InterleaveInParent(parent, cascade);
  }

  /** The same with `interleaveInParent(parent)` (cascading when `cascade`) before `create()`. */
  method InterleavedTable(t: string, a: Column, b: Column, c: Column, keys: seq<string>, parent: string, cascade: bool,
    statement: string) returns (sql: Result<seq<string>>)
    requires CreateTableSql(InterleavedState(t, a, b, c, keys, parent, cascade)) == Ok(statement)
    ensures sql == Ok([statement])
  {
    var bp := DeclareInterleaved(t, a, b, c, keys, parent, cascade);
    assert forall i :: 0 <= i < |bp.commands| ==> FeedsCreate(bp.commands[i]);
    bp.Create();
    sql := bp.ToSql();
  }

  /** A column, `primary(keys)`, a column and `deleteRowsOlderThan(column, days)`, not yet created. */
  method DeclarePolicy(t: string, a: Column, keys: seq<string>, b: Column, column: string, days: nat)
    returns (bp: Blueprint)
    ensures fresh(bp) && bp.State() == PolicyState(t, a, keys, b, column, days)
  {
    bp := new Blueprint(t);
    bp.AddColumn(a);
    bp.Primary(keys);
    bp.AddColumn(b);
    assert bp.State() == BlueprintState(t, [a, b], [ColumnCommand(a), SchemaGrammar.Primary(keys), ColumnCommand(b)]);
    bp.DeleteRowsOlderThan(column, days);
  }

  /** Those declarations, then `create()`. */
  method PolicyTable(t: string, a: Column, keys: seq<string>, b: Column, column: string, days: nat,
    statement: string) returns (sql: Result<seq<string>>)
    requires CreateTableSql(PolicyState(t, a, keys, b, column, days)) == Ok(statement)
    ensures sql == Ok([statement])
  {
    var bp := DeclarePolicy(t, a, keys, b, column, days);
    assert forall i :: 0 <= i < |bp.commands| ==> FeedsCreate(bp.commands[i]);
    bp.Create();
    sql := bp.ToSql();
  }

  // ---- the columns of these tests -----------------------------------------------------

  lemma TimestampSql() ensures TypeSql(TypeOf(DateTime)) == "timestamp" {}

  lemma IdDef1() ensures "`id`" + " " == "`id` " {}
  lemma IdDef2() ensures "`id` " + "string(36)" == "`id` string(36)" {}
  lemma IdDef3() ensures "`id` string(36)" + " not null" == "`id` string(36) not null" {}

  lemma IdQuoted() ensures Wrap("id") == "`id`" {}
  lemma IdColumn()
    ensures ColumnSql(PlainColumn("id", Uuid)) == Ok("`id` string(36) not null")
  {
    IdQuoted();
    UuidSql();
    IdDef1(); IdDef2(); IdDef3(); Chain3("`id`", " ", "string(36)", " not null", "`id` ", "`id` string(36)", "`id` string(36) not null");
    NamedColumn("id", "`id`", Uuid, "string(36)", "`id` string(36) not null");
  }
  lemma NumberDef1() ensures "`number`" + " " == "`number` " {}
  lemma NumberDef2() ensures "`number` " + "int64" == "`number` int64" {}
  lemma NumberDef3() ensures "`number` int64" + " not null" == "`number` int64 not null" {}

  lemma NumberQuoted() ensures Wrap("number") == "`number`" {}
  lemma NumberColumn()
    ensures ColumnSql(PlainColumn("number", Integer)) == Ok("`number` int64 not null")
  {
    NumberQuoted();
    Int64Sql();
    NumberDef1(); NumberDef2(); NumberDef3(); Chain3("`number`", " ", "int64", " not null", "`number` ", "`number` int64", "`number` int64 not null");
    NamedColumn("number", "`number`", Integer, "int64", "`number` int64 not null");
  }
  lemma NameDef1() ensures "`name`" + " " == "`name` " {}
  lemma NameDef2() ensures "`name` " + "string(255)" == "`name` string(255)" {}
  lemma NameDef3() ensures "`name` string(255)" + " not null" == "`name` string(255) not null" {}

  lemma NameQuoted() ensures Wrap("name") == "`name`" {}
  lemma NameColumn()
    ensures ColumnSql(PlainColumn("name", StringKind(255))) == Ok("`name` string(255) not null")
  {
    NameQuoted();
    String255Sql();
    NameDef1(); NameDef2(); NameDef3(); Chain3("`name`", " ", "string(255)", " not null", "`name` ", "`name` string(255)", "`name` string(255) not null");
    NamedColumn("name", "`name`", StringKind(255), "string(255)", "`name` string(255) not null");
  }
  lemma PidDef1() ensures "`pid`" + " " == "`pid` " {}
  lemma PidDef2() ensures "`pid` " + "string(36)" == "`pid` string(36)" {}
  lemma PidDef3() ensures "`pid` string(36)" + " not null" == "`pid` string(36) not null" {}

  lemma PidQuoted() ensures Wrap("pid") == "`pid`" {}
  lemma PidColumn()
    ensures ColumnSql(PlainColumn("pid", Uuid)) == Ok("`pid` string(36) not null")
  {
    PidQuoted();
    UuidSql();
    PidDef1(); PidDef2(); PidDef3(); Chain3("`pid`", " ", "string(36)", " not null", "`pid` ", "`pid` string(36)", "`pid` string(36) not null");
    NamedColumn("pid", "`pid`", Uuid, "string(36)", "`pid` string(36) not null");
  }
  lemma TDef1() ensures "`t`" + " " == "`t` " {}
  lemma TDef2() ensures "`t` " + "timestamp" == "`t` timestamp" {}

  lemma TQuoted() ensures Wrap("t") == "`t`" {}
  lemma TColumn()
    ensures ColumnSql(PlainColumn("t", DateTime).(nullable := true)) == Ok("`t` timestamp")
  {
    TQuoted();
    TimestampSql();
    TDef1(); TDef2(); Chain2("`t`", " ", "timestamp", "`t` ", "`t` timestamp");
    NullableColumn("t", "`t`", DateTime, "timestamp", "`t` timestamp");
  }
  lemma IdNumberPk1() ensures " primary key (" + "`id`, `number`" == " primary key (`id`, `number`" {}
  lemma IdNumberPk2() ensures " primary key (`id`, `number`" + ")" == " primary key (`id`, `number`)" {}

  lemma IdNumberKey() ensures PrimaryKeyClause(Some(["id", "number"])) == " primary key (`id`, `number`)" {
    assert Columnize(["id", "number"]) == "`id`, `number`";
    IdNumberPk1(); IdNumberPk2(); Chain2(" primary key (", "`id`, `number`", ")", " primary key (`id`, `number`", " primary key (`id`, `number`)");
  }
  lemma PidPk1() ensures " primary key (" + "`pid`" == " primary key (`pid`" {}
  lemma PidPk2() ensures " primary key (`pid`" + ")" == " primary key (`pid`)" {}

  lemma PidKey() ensures PrimaryKeyClause(Some(["pid"])) == " primary key (`pid`)" {
    assert Columnize(["pid"]) == "`pid`";
    PidPk1(); PidPk2(); Chain2(" primary key (", "`pid`", ")", " primary key (`pid`", " primary key (`pid`)");
  }
  lemma IdPk1() ensures " primary key (" + "`id`" == " primary key (`id`" {}
  lemma IdPk2() ensures " primary key (`id`" + ")" == " primary key (`id`)" {}

  lemma IdKey() ensures PrimaryKeyClause(Some(["id"])) == " primary key (`id`)" {
    assert Columnize(["id"]) == "`id`";
    IdPk1(); IdPk2(); Chain2(" primary key (", "`id`", ")", " primary key (`id`", " primary key (`id`)");
  }
  lemma CompositeJoined1() ensures "`id` string(36) not null" + ", " == "`id` string(36) not null, " {}
  lemma CompositeJoined2() ensures "`id` string(36) not null, " + "`number` int64 not null" == "`id` string(36) not null, `number` int64 not null" {}
  lemma CompositeJoined3() ensures "`id` string(36) not null, `number` int64 not null" + ", " == "`id` string(36) not null, `number` int64 not null, " {}
  lemma CompositeJoined4() ensures "`id` string(36) not null, `number` int64 not null, " + "`name` string(255) not null" == "`id` string(36) not null, `number` int64 not null, `name` string(255) not null" {}

  lemma CompositeJoin() ensures Join(["`id` string(36) not null", "`number` int64 not null", "`name` string(255) not null"], ", ") == "`id` string(36) not null, `number` int64 not null, `name` string(255) not null" {
    JoinThree("`id` string(36) not null", "`number` int64 not null", "`name` string(255) not null", ", ");
    CompositeJoined1(); CompositeJoined2(); CompositeJoined3(); CompositeJoined4(); Chain4("`id` string(36) not null", ", ", "`number` int64 not null", ", ", "`name` string(255) not null", "`id` string(36) not null, ", "`id` string(36) not null, `number` int64 not null", "`id` string(36) not null, `number` int64 not null, ", "`id` string(36) not null, `number` int64 not null, `name` string(255) not null");
  }
  lemma ChildJoined1() ensures "`id` string(36) not null" + ", " == "`id` string(36) not null, " {}
  lemma ChildJoined2() ensures "`id` string(36) not null, " + "`pid` string(36) not null" == "`id` string(36) not null, `pid` string(36) not null" {}
  lemma ChildJoined3() ensures "`id` string(36) not null, `pid` string(36) not null" + ", " == "`id` string(36) not null, `pid` string(36) not null, " {}
  lemma ChildJoined4() ensures "`id` string(36) not null, `pid` string(36) not null, " + "`name` string(255) not null" == "`id` string(36) not null, `pid` string(36) not null, `name` string(255) not null" {}

  lemma ChildJoin() ensures Join(["`id` string(36) not null", "`pid` string(36) not null", "`name` string(255) not null"], ", ") == "`id` string(36) not null, `pid` string(36) not null, `name` string(255) not null" {
    JoinThree("`id` string(36) not null", "`pid` string(36) not null", "`name` string(255) not null", ", ");
    ChildJoined1(); ChildJoined2(); ChildJoined3(); ChildJoined4(); Chain4("`id` string(36) not null", ", ", "`pid` string(36) not null", ", ", "`name` string(255) not null", "`id` string(36) not null, ", "`id` string(36) not null, `pid` string(36) not null", "`id` string(36) not null, `pid` string(36) not null, ", "`id` string(36) not null, `pid` string(36) not null, `name` string(255) not null");
  }
  lemma PolicyJoined1() ensures "`id` string(36) not null" + ", " == "`id` string(36) not null, " {}
  lemma PolicyJoined2() ensures "`id` string(36) not null, " + "`t` timestamp" == "`id` string(36) not null, `t` timestamp" {}

  lemma PolicyJoin() ensures Join(["`id` string(36) not null", "`t` timestamp"], ", ") == "`id` string(36) not null, `t` timestamp" {
    JoinTwo("`id` string(36) not null", "`t` timestamp", ", ");
    PolicyJoined1(); PolicyJoined2(); Chain2("`id` string(36) not null", ", ", "`t` timestamp", "`id` string(36) not null, ", "`id` string(36) not null, `t` timestamp");
  }
  lemma IdNumberClosed() ensures ")" + " primary key (`id`, `number`)" == ") primary key (`id`, `number`)" {}
  lemma PidClosed() ensures ")" + " primary key (`pid`)" == ") primary key (`pid`)" {}
  lemma IdClosed() ensures ")" + " primary key (`id`)" == ") primary key (`id`)" {}

  lemma OlderThanT1() ensures "(older_than(" + "t" == "(older_than(t" {}
  lemma OlderThanT2() ensures "(older_than(t" + ", interval " == "(older_than(t, interval " {}
  lemma OlderThanT3() ensures "(older_than(t, interval " + "100" == "(older_than(t, interval 100" {}
  lemma OlderThanT4() ensures "(older_than(t, interval 100" + " day))" == "(older_than(t, interval 100 day))" {}

  lemma PolicyClause() ensures PolicySql(Some(RowDeletionPolicy("t", 100))) == ", row deletion policy (older_than(t, interval 100 day))" {
    assert NatToString(100) == "100";
    OlderThanT1(); OlderThanT2(); OlderThanT3(); OlderThanT4(); Chain4("(older_than(", "t", ", interval ", "100", " day))", "(older_than(t", "(older_than(t, interval ", "(older_than(t, interval 100", "(older_than(t, interval 100 day))");
    PolicyClauseText();
  }
  lemma PolicyClauseText() ensures ", row deletion policy " + "(older_than(t, interval 100 day))" == ", row deletion policy (older_than(t, interval 100 day))" {}

  // ---- the scenarios ---------------------------------------------------------------

  lemma CompositeKeySql(t: string)
    ensures CreateTableSql(KeyedState(t, PlainColumn("id", Uuid), PlainColumn("number", Integer), PlainColumn("name", StringKind(255)), ["id", "number"]))
         == Ok(CreateHead(t) + "`id` string(36) not null, `number` int64 not null, `name` string(255) not null" + ") primary key (`id`, `number`)")
  {
    var s := KeyedState(t, PlainColumn("id", Uuid), PlainColumn("number", Integer), PlainColumn("name", StringKind(255)), ["id", "number"]);
    var defs := ["`id` string(36) not null", "`number` int64 not null", "`name` string(255) not null"];
    IdColumn(); NumberColumn(); NameColumn();
    ThreeColumnsSql(PlainColumn("id", Uuid), PlainColumn("number", Integer), PlainColumn("name", StringKind(255)), defs[0], defs[1], defs[2]);
    KeyedFirsts(t, PlainColumn("id", Uuid), PlainColumn("number", Integer), PlainColumn("name", StringKind(255)), ["id", "number"]);
    IdNumberKey();
    IdNumberClosed();
    CompositeJoin();
    CreateStatementParts(s, defs, "`id` string(36) not null, `number` int64 not null, `name` string(255) not null",
                         " primary key (`id`, `number`)", ") primary key (`id`, `number`)", "", "");
    NoClauses(CreateHead(t) + "`id` string(36) not null, `number` int64 not null, `name` string(255) not null" + ") primary key (`id`, `number`)");
  }

  /** `uuid('id')`, `integer('number')`, `string('name')`, `primary(['id', 'number'])`,
      `create()`: one statement with a composite key. */
  method CompositeKeyScenario(t: string) returns (sql: Result<seq<string>>)
    ensures sql == Ok([CreateHead(t) + "`id` string(36) not null, `number` int64 not null, `name` string(255) not null" + ") primary key (`id`, `number`)"])
  {
    CompositeKeySql(t);
    sql := KeyedTable(t, PlainColumn("id", Uuid), PlainColumn("number", Integer), PlainColumn("name", StringKind(255)), ["id", "number"],
                      CreateHead(t) + "`id` string(36) not null, `number` int64 not null, `name` string(255) not null" + ") primary key (`id`, `number`)");
  }

  lemma InterleavedSql(t: string, parent: string, cascade: bool)
    ensures CreateTableSql(InterleavedState(t, PlainColumn("id", Uuid), PlainColumn("pid", Uuid), PlainColumn("name", StringKind(255)), ["pid"], parent, cascade))
         == Ok(CreateHead(t) + "`id` string(36) not null, `pid` string(36) not null, `name` string(255) not null" + ") primary key (`pid`)" + InterleaveClause(parent, cascade))
  {
    var s := InterleavedState(t, PlainColumn("id", Uuid), PlainColumn("pid", Uuid), PlainColumn("name", StringKind(255)), ["pid"], parent, cascade);
    var defs := ["`id` string(36) not null", "`pid` string(36) not null", "`name` string(255) not null"];
    IdColumn(); PidColumn(); NameColumn();
    ThreeColumnsSql(PlainColumn("id", Uuid), PlainColumn("pid", Uuid), PlainColumn("name", StringKind(255)), defs[0], defs[1], defs[2]);
    InterleavedFirsts(t, PlainColumn("id", Uuid), PlainColumn("pid", Uuid), PlainColumn("name", StringKind(255)), ["pid"], parent, cascade);
    PidKey();
    PidClosed();
    ChildJoin();
    CreateStatementParts(s, defs, "`id` string(36) not null, `pid` string(36) not null, `name` string(255) not null",
                         " primary key (`pid`)", ") primary key (`pid`)", InterleaveClause(parent, cascade), "");
    NoPolicy(CreateHead(t) + "`id` string(36) not null, `pid` string(36) not null, `name` string(255) not null" + ") primary key (`pid`)" + InterleaveClause(parent, cascade));
  }

  lemma NoPolicy(x: string)
    ensures x + "" == x
  {}

  /** `uuid('id')`, `uuid('pid')`, `string('name')`, `primary('pid')`,
      `interleaveInParent(parent)` with or without `->cascadeOnDelete()`, `create()`. */
  method InterleavingScenario(t: string, parent: string, cascade: bool) returns (sql: Result<seq<string>>)
    ensures sql == Ok([CreateHead(t) + "`id` string(36) not null, `pid` string(36) not null, `name` string(255) not null" + ") primary key (`pid`)"
                       + ", interleave in parent " + Wrap(parent) + (if cascade then " on delete cascade" else "")])
  {
    var pre := CreateHead(t) + "`id` string(36) not null, `pid` string(36) not null, `name` string(255) not null" + ") primary key (`pid`)";
    InterleavedSql(t, parent, cascade);
    Regroup3(pre, ", interleave in parent ", Wrap(parent), if cascade then " on delete cascade" else "");
    sql := InterleavedTable(t, PlainColumn("id", Uuid), PlainColumn("pid", Uuid), PlainColumn("name", StringKind(255)), ["pid"], parent, cascade,
                            pre + InterleaveClause(parent, cascade));
  }

  lemma RowDeletionPolicySql(t: string)
    ensures CreateTableSql(PolicyState(t, PlainColumn("id", Uuid), ["id"], PlainColumn("t", DateTime).(nullable := true), "t", 100))
         == Ok(CreateHead(t) + "`id` string(36) not null, `t` timestamp" + ") primary key (`id`)" + ", row deletion policy (older_than(t, interval 100 day))")
  {
    var s := PolicyState(t, PlainColumn("id", Uuid), ["id"], PlainColumn("t", DateTime).(nullable := true), "t", 100);
    IdColumn(); TColumn();
    TwoColumnsSql(PlainColumn("id", Uuid), PlainColumn("t", DateTime).(nullable := true), "`id` string(36) not null", "`t` timestamp");
    PolicyFirsts(t, PlainColumn("id", Uuid), ["id"], PlainColumn("t", DateTime).(nullable := true), "t", 100);
    IdKey();
    IdClosed();
    PolicyClause();
    PolicyJoin();
    CreateStatementParts(s, ["`id` string(36) not null", "`t` timestamp"], "`id` string(36) not null, `t` timestamp",
                         " primary key (`id`)", ") primary key (`id`)", "", ", row deletion policy (older_than(t, interval 100 day))");
    NoInterleave(CreateHead(t) + "`id` string(36) not null, `t` timestamp" + ") primary key (`id`)", ", row deletion policy (older_than(t, interval 100 day))");
  }

  lemma NoInterleave(x: string, po: string)
    ensures x + "" + po == x + po
  {}

  /** `uuid('id')`, `primary('id')`, `dateTime('t')->nullable()`,
      `deleteRowsOlderThan('t', 100)`, `create()`: the policy closes the statement. */
  method CreateWithPolicyScenario(t: string) returns (sql: Result<seq<string>>)
    ensures sql == Ok([CreateHead(t) + "`id` string(36) not null, `t` timestamp" + ") primary key (`id`)" + ", row deletion policy (older_than(t, interval 100 day))"])
  {
    RowDeletionPolicySql(t);
    sql := PolicyTable(t, PlainColumn("id", Uuid), ["id"], PlainColumn("t", DateTime).(nullable := true), "t", 100,
                       CreateHead(t) + "`id` string(36) not null, `t` timestamp" + ") primary key (`id`)" + ", row deletion policy (older_than(t, interval 100 day))");
  }
}
