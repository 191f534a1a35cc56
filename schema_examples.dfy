/** The blueprint scenarios of the driver's test-suite, replayed on the model:
    each method drives a `Blueprint` the way one test does and promises the
    statements that test expects. Table names are parameters (the tests
    generate them); the fixed fragments are proved piece by piece. */
module SchemaExamples {
  import opened Common
  import opened Text
  import opened Codec
  import opened SchemaTypes
  import opened SchemaGrammar
  import opened Blueprints

  // ---- column definitions ------------------------------------------------------

  /** A column without modifiers: `` `name` type not null ``. */
  lemma PlainColumnSql(name: string, kind: ColumnKind, ty: string)
    requires TypeSql(TypeOf(kind)) == ty
    ensures ColumnSql(PlainColumn(name, kind)) == Ok(Wrap(name) + " " + ty + " not null")
  {
    assert DefaultClause(PlainColumn(name, kind)) == Ok("");
    assert Wrap(name) + " " + ty + " not null" + "" == Wrap(name) + " " + ty + " not null";
  }

  lemma Digits() ensures NatToString(36) == "36" && NatToString(255) == "255" && NatToString(512) == "512" {}

  lemma StringSql(n: nat) ensures TypeSql(TypeOf(StringKind(n))) == "string(" + NatToString(n) + ")" {}

  lemma UuidSql() ensures TypeSql(TypeOf(Uuid)) == "string(36)" {
    Digits();
  }

  lemma String255Sql() ensures TypeSql(TypeOf(StringKind(255))) == "string(255)" {
    Digits();
    StringSql(255);
  }

  lemma String512Sql() ensures TypeSql(TypeOf(StringKind(512))) == "string(512)" {
    Digits();
    StringSql(512);
  }

  lemma NamedColumn(name: string, quoted: string, kind: ColumnKind, ty: string, expected: string)
    requires Wrap(name) == quoted && TypeSql(TypeOf(kind)) == ty && quoted + " " + ty + " not null" == expected
    ensures ColumnSql(PlainColumn(name, kind)) == Ok(expected)
  {
    PlainColumnSql(name, kind, ty);
  }

  // ---- altering a table ----------------------------------------------------------

  /** The statement of one column on a table that is not being created. */
  lemma AlterWith(t: string, c: Column, col: string, suffix: string)
    requires ColumnSql(c) == Ok(col)
    requires (if c.change then " alter column " else " add column ") + col == suffix
    ensures AlterColumnSql(t, c) == Ok(AlterTable(t) + suffix)
  {
    assert AlterTable(t) + (if c.change then " alter column " else " add column ") + col
        == AlterTable(t) + ((if c.change then " alter column " else " add column ") + col);
  }

  /** Two column calls outside a create yield two `alter table` statements, in order. */
  method TwoColumns(t: string, a: Column, b: Column) returns (sql: Result<seq<string>>)
    requires ColumnSql(a).Ok? && ColumnSql(b).Ok?
    ensures sql == Ok([AlterColumnSql(t, a).value, AlterColumnSql(t, b).value])
  {
    var bp := new Blueprint(t);
    bp.AddColumn(a);
    bp.AddColumn(b);
    sql := bp.ToSql();
    assert [] + [AlterColumnSql(t, a).value] + [AlterColumnSql(t, b).value]
        == [AlterColumnSql(t, a).value, AlterColumnSql(t, b).value];
  }

  lemma AddDescription(t: string)
    ensures AlterColumnSql(t, PlainColumn("description", StringKind(255)))
         == Ok(AlterTable(t) + " add column `description` string(255) not null")
  {
    String255Sql();
    DescriptionQuoted();
    DescriptionDef();
    DescriptionAdd();
    NamedColumn("description", "`description`", StringKind(255), "string(255)", "`description` string(255) not null");
    AlterWith(t, PlainColumn("description", StringKind(255)), "`description` string(255) not null",
              " add column `description` string(255) not null");
  }

  lemma DescriptionQuoted() ensures Wrap("description") == "`description`" {}
  lemma DescriptionDef() ensures "`description`" + " " + "string(255)" + " not null" == "`description` string(255) not null" {}
  lemma DescriptionAdd()
    ensures " add column " + "`description` string(255) not null" == " add column `description` string(255) not null"
  {}
  lemma ChangedDescriptionDef() ensures "`description`" + " " + "string(512)" + " not null" == "`description` string(512) not null" {}
  lemma ChangedDescriptionAlter()
    ensures " alter column " + "`description` string(512) not null" == " alter column `description` string(512) not null"
  {}

  lemma AddValue(t: string)
    ensures AlterColumnSql(t, PlainColumn("value", Integer)) == Ok(AlterTable(t) + " add column `value` int64 not null")
  {
    ValueQuoted(); Int64Sql(); ValueIntDef(); ValueAdd();
    NamedColumn("value", "`value`", Integer, "int64", "`value` int64 not null");
    AlterWith(t, PlainColumn("value", Integer), "`value` int64 not null", " add column `value` int64 not null");
  }

  lemma ValueQuoted() ensures Wrap("value") == "`value`" {}
  lemma Int64Sql() ensures TypeSql(TypeOf(Integer)) == "int64" {}
  lemma Float64Sql() ensures TypeSql(TypeOf(Float)) == "float64" {}
  lemma ValueIntDef() ensures "`value`" + " " + "int64" + " not null" == "`value` int64 not null" {}
  lemma ValueAdd() ensures " add column " + "`value` int64 not null" == " add column `value` int64 not null" {}
  lemma ValueFloatDef() ensures "`value`" + " " + "float64" + " not null" == "`value` float64 not null" {}
  lemma ValueAlter() ensures " alter column " + "`value` float64 not null" == " alter column `value` float64 not null" {}

  lemma ChangeDescription(t: string)
    ensures AlterColumnSql(t, PlainColumn("description", StringKind(512)).(change := true))
         == Ok(AlterTable(t) + " alter column `description` string(512) not null")
  {
    var d := PlainColumn("description", StringKind(512)).(change := true);
    String512Sql();
    DescriptionQuoted();
    ChangedDescriptionDef();
    ChangedDescriptionAlter();
    NamedColumn("description", "`description`", StringKind(512), "string(512)", "`description` string(512) not null");
    assert ColumnSql(d) == ColumnSql(PlainColumn("description", StringKind(512)));
    AlterWith(t, d, "`description` string(512) not null", " alter column `description` string(512) not null");
  }

  lemma ChangeValue(t: string)
    ensures AlterColumnSql(t, PlainColumn("value", Float).(change := true))
         == Ok(AlterTable(t) + " alter column `value` float64 not null")
  {
    var v := PlainColumn("value", Float).(change := true);
    ValueQuoted(); Float64Sql(); ValueFloatDef(); ValueAlter();
    NamedColumn("value", "`value`", Float, "float64", "`value` float64 not null");
    assert ColumnSql(v) == ColumnSql(PlainColumn("value", Float));
    AlterWith(t, v, "`value` float64 not null", " alter column `value` float64 not null");
  }

  /** `string('description', 255)` and `integer('value')`. */
  method AddingColumns(t: string) returns (sql: Result<seq<string>>)
    ensures sql == Ok([AlterTable(t) + " add column `description` string(255) not null",
                       AlterTable(t) + " add column `value` int64 not null"])
  {
    AddDescription(t);
    AddValue(t);
    sql := TwoColumns(t, PlainColumn("description", StringKind(255)), PlainColumn("value", Integer));
  }

  /** `string('description', 512)->change()` and `float('value')->change()`. */
  method ChangeColumns(t: string) returns (sql: Result<seq<string>>)
    ensures sql == Ok([AlterTable(t) + " alter column `description` string(512) not null",
                       AlterTable(t) + " alter column `value` float64 not null"])
  {
    ChangeDescription(t);
    ChangeValue(t);
    sql := TwoColumns(t, PlainColumn("description", StringKind(512)).(change := true),
                      PlainColumn("value", Float).(change := true));
  }

  /** `dropColumn('description')`. */
  method DropColumnScenario(t: string) returns (sql: Result<seq<string>>)
    ensures sql == Ok([AlterTable(t) + " drop column `description`"])
  {
    var bp := new Blueprint(t);
    bp.DropColumn(["description"]);
    sql := bp.ToSql();
    DescriptionQuoted();
    assert DropColumnsSql(t, ["description"]) == [AlterTable(t) + " drop column " + "`description`"];
    assert AlterTable(t) + " drop column " + "`description`" == AlterTable(t) + (" drop column " + "`description`");
    DropDescriptionText();
    assert [] + [AlterTable(t) + " drop column `description`"] == [AlterTable(t) + " drop column `description`"];
  }

  lemma DropDescriptionText() ensures " drop column " + "`description`" == " drop column `description`" {}

  /** `drop()`. */
  method DropScenario(t: string) returns (sql: Result<seq<string>>)
    ensures sql == Ok(["drop table " + Wrap(t)])
  {
    var bp := new Blueprint(t);
    bp.Drop();
    sql := bp.ToSql();
    assert [] + ["drop table " + Wrap(t)] == ["drop table " + Wrap(t)];
  }

  /** `dropIfExists()`. */
  method DropIfExistsScenario(t: string) returns (sql: Result<seq<string>>)
    ensures sql == Ok(["drop table if exists " + Wrap(t)])
  {
    var bp := new Blueprint(t);
    bp.DropIfExists();
    sql := bp.ToSql();
    assert [] + ["drop table if exists " + Wrap(t)] == ["drop table if exists " + Wrap(t)];
  }

  /** `dropUnique(name)` then `dropIndex(other)`: one `drop index` each, in call order. */
  method DropIndexScenario(t: string, unique: string, plain: string) returns (sql: Result<seq<string>>)
    ensures sql == Ok(["drop index " + Wrap(unique), "drop index " + Wrap(plain)])
  {
    var bp := new Blueprint(t);
    bp.DropIndex(unique);
    bp.DropIndex(plain);
    sql := bp.ToSql();
    assert [] + ["drop index " + Wrap(unique)] + ["drop index " + Wrap(plain)]
        == ["drop index " + Wrap(unique), "drop index " + Wrap(plain)];
  }

  /** `dropForeign(name)`. */
  method DropForeignScenario(t: string, name: string) returns (sql: Result<seq<string>>)
    ensures sql == Ok([AlterTable(t) + " drop constraint " + Wrap(name)])
  {
    var bp := new Blueprint(t);
    bp.DropForeign(name);
    sql := bp.ToSql();
    assert [] + [AlterTable(t) + " drop constraint " + Wrap(name)] == [AlterTable(t) + " drop constraint " + Wrap(name)];
  }

  // ---- indexes -------------------------------------------------------------------

  function PlainIndex(columns: seq<string>, unique: bool): Command {
    CreateIndex(columns, unique, false, None, [], None)
  }

  /** Two index calls yield two `create index` statements, in call order. */
  method TwoIndexes(t: string, a: Command, b: Command, sa: string, sb: string) returns (sql: Result<seq<string>>)
    requires a.CreateIndex? && b.CreateIndex?
    requires CreateIndexSql(t, a) == sa && CreateIndexSql(t, b) == sb
    ensures sql == Ok([sa, sb])
  {
    var empty: seq<string> := [];
    var bp := new Blueprint(t);
    bp.Index(a.indexColumns, a.unique, a.nullFiltered, a.indexName, a.storing, a.interleaveIn);
    assert empty + [sa] == [sa];
    assert bp.ToSql() == Ok([sa]);
    bp.Index(b.indexColumns, b.unique, b.nullFiltered, b.indexName, b.storing, b.interleaveIn);
    sql := bp.ToSql();
    assert [sa] + [sb] == [sa, sb];
  }

  /** One index call. */
  method OneIndex(t: string, a: Command, sa: string) returns (sql: Result<seq<string>>)
    requires a.CreateIndex? && CreateIndexSql(t, a) == sa
    ensures sql == Ok([sa])
  {
    var bp := new Blueprint(t);
    bp.Index(a.indexColumns, a.unique, a.nullFiltered, a.indexName, a.storing, a.interleaveIn);
    sql := bp.ToSql();
    assert [] + [sa] == [sa];
  }

  /** The statement head of an index with a derived name. */
  lemma IndexHeadIs(t: string, c: Command, prefix: string, name: string, close: string)
    requires c.CreateIndex? && c.indexName.None?
    requires "create " + (if c.unique then "unique " else "") + (if c.nullFiltered then "null_filtered " else "") + "index " == prefix
    requires IndexName(t, c.indexColumns, c.unique) == name
    requires " (" + Columnize(c.indexColumns) + ")" == close
    ensures IndexHead(t, c) == prefix + Wrap(name) + " on " + Wrap(t) + close
  {
    var u := if c.unique then "unique " else "";
    var f := if c.nullFiltered then "null_filtered " else "";
    var cols := Columnize(c.indexColumns);
    assert IndexHead(t, c) == "create " + u + f + "index " + Wrap(name) + " on " + Wrap(t) + " (" + cols + ")";
    assert "create " + u + f + "index " + Wrap(name) + " on " + Wrap(t) + " (" + cols + ")"
        == ("create " + u + f + "index ") + Wrap(name) + " on " + Wrap(t) + (" (" + cols + ")");
  }

  /** The derived name `<table>_<column>_<suffix>`, lower-cased, for one key column. */
  lemma OneColumnIndexName(t: string, column: string, unique: bool, rest: string)
    requires Lower("_" + column + "_" + IndexSuffix(unique)) == rest
    ensures IndexName(t, [column], unique) == Lower(t) + rest
  {
    assert Join([column], "_") == column;
    assert t + "_" + column + "_" + IndexSuffix(unique) == t + ("_" + column + "_" + IndexSuffix(unique));
    LowerAppend(t, "_" + column + "_" + IndexSuffix(unique));
  }

  lemma NameUniqueText() ensures Lower("_" + "name" + "_" + "unique") == "_name_unique" {}
  lemma CreatedAtIndexText() ensures Lower("_" + "createdAt" + "_" + "index") == "_createdat_index" {}
  lemma NameColumnsText() ensures " (" + Columnize(["name"]) + ")" == " (`name`)" {}
  lemma CreatedAtColumnsText() ensures " (" + Columnize(["createdAt"]) + ")" == " (`createdAt`)" {}

  lemma NoOptionsIsHead(t: string, c: Command)
    requires c.CreateIndex? && c.storing == [] && c.interleaveIn.None?
    ensures CreateIndexSql(t, c) == IndexHead(t, c)
  {
    assert IndexHead(t, c) + "" + "" == IndexHead(t, c);
  }

  lemma UniqueNameIndex(t: string)
    ensures CreateIndexSql(t, PlainIndex(["name"], true))
         == "create unique index " + Wrap(Lower(t) + "_name_unique") + " on " + Wrap(t) + " (`name`)"
  {
    var u := PlainIndex(["name"], true);
    NameUniqueText();
    NameColumnsText();
    OneColumnIndexName(t, "name", true, "_name_unique");
    IndexHeadIs(t, u, "create unique index ", Lower(t) + "_name_unique", " (`name`)");
    NoOptionsIsHead(t, u);
  }

  lemma CreatedAtIndex(t: string)
    ensures CreateIndexSql(t, PlainIndex(["createdAt"], false))
         == "create index " + Wrap(Lower(t) + "_createdat_index") + " on " + Wrap(t) + " (`createdAt`)"
  {
    var i := PlainIndex(["createdAt"], false);
    CreatedAtIndexText();
    CreatedAtColumnsText();
    OneColumnIndexName(t, "createdAt", false, "_createdat_index");
    IndexHeadIs(t, i, "create index ", Lower(t) + "_createdat_index", " (`createdAt`)");
    NoOptionsIsHead(t, i);
  }

  /** `unique('name')` then `index('createdAt')`: the derived names are the
      lower-cased table, the column and `unique` or `index`. */
  method CreateIndexesScenario(t: string) returns (sql: Result<seq<string>>)
    ensures sql == Ok(["create unique index " + Wrap(Lower(t) + "_name_unique") + " on " + Wrap(t) + " (`name`)",
                       "create index " + Wrap(Lower(t) + "_createdat_index") + " on " + Wrap(t) + " (`createdAt`)"])
  {
    UniqueNameIndex(t);
    CreatedAtIndex(t);
    sql := TwoIndexes(t, PlainIndex(["name"], true), PlainIndex(["createdAt"], false),
                      "create unique index " + Wrap(Lower(t) + "_name_unique") + " on " + Wrap(t) + " (`name`)",
                      "create index " + Wrap(Lower(t) + "_createdat_index") + " on " + Wrap(t) + " (`createdAt`)");
  }

  /** An index statement is its head, then ` storing (…)`, then `, interleave in …`. */
  lemma IndexSqlIs(t: string, c: Command, st: string, il: string, expected: string)
    requires c.CreateIndex?
    requires (if c.storing != [] then " storing (" + Columnize(c.storing) + ")" else "") == st
    requires (if c.interleaveIn.Some? then ", interleave in " + Wrap(c.interleaveIn.value) else "") == il
    requires IndexHead(t, c) + st + il == expected
    ensures CreateIndexSql(t, c) == expected
  {
  }

  /** Three strings concatenated left to right, through their partial sums. */
  lemma Chain2(a: string, b: string, c: string, ab: string, abc: string)
    requires a + b == ab && ab + c == abc
    ensures a + b + c == abc
  {}

  /** Four strings concatenated left to right, through their partial sums. */
  lemma Chain3(a: string, b: string, c: string, d: string, ab: string, abc: string, abcd: string)
    requires a + b == ab && ab + c == abc && abc + d == abcd
    ensures a + b + c + d == abcd
  {}

  /** Five strings concatenated left to right, through their partial sums. */
  lemma Chain4(a: string, b: string, c: string, d: string, e: string,
               ab: string, abc: string, abcd: string, abcde: string)
    requires a + b == ab && ab + c == abc && abc + d == abcd && abcd + e == abcde
    ensures a + b + c + d + e == abcde
  {}

  lemma Chain6(a: string, b: string, c: string, d: string, e: string, f: string, g: string,
               ab: string, abc: string, abcd: string, abcde: string, abcdef: string, abcdefg: string)
    requires a + b == ab && ab + c == abc && abc + d == abcd && abcd + e == abcde && abcde + f == abcdef && abcdef + g == abcdefg
    ensures a + b + c + d + e + f + g == abcdefg
  {}

  lemma Chain7(a: string, b: string, c: string, d: string, e: string, f: string, g: string, h: string,
               ab: string, abc: string, abcd: string, abcde: string, abcdef: string, abcdefg: string, abcdefgh: string)
    requires a + b == ab && ab + c == abc && abc + d == abcd && abcd + e == abcde && abcde + f == abcdef && abcdef + g == abcdefg && abcdefg + h == abcdefgh
    ensures a + b + c + d + e + f + g + h == abcdefgh
  {}

  lemma Chain9(a: string, b: string, c: string, d: string, e: string, f: string, g: string, h: string, i: string, j: string,
               ab: string, abc: string, abcd: string, abcde: string, abcdef: string, abcdefg: string, abcdefgh: string, abcdefghi: string, abcdefghij: string)
    requires a + b == ab && ab + c == abc && abc + d == abcd && abcd + e == abcde && abcde + f == abcdef && abcdef + g == abcdefg && abcdefg + h == abcdefgh && abcdefgh + i == abcdefghi && abcdefghi + j == abcdefghij
    ensures a + b + c + d + e + f + g + h + i + j == abcdefghij
  {}

  lemma UserItemWrapped() ensures Wrap("UserItem") == "`UserItem`" {}

  lemma CreatedAtKeyName() ensures IndexName("UserItem", ["userId", "createdAt"], false) == "useritem_userid_createdat_index" {
    CreatedAtJoin();
    CreatedAtJoined();
    CreatedAtLower();
  }
  lemma CreatedAtJoin() ensures Join(["userId", "createdAt"], "_") == "userId_createdAt" {}
  lemma CreatedAtJoined() ensures "UserItem" + "_" + "userId_createdAt" + "_" + "index" == "UserItem_userId_createdAt_index" {}
  lemma CreatedAtLower() ensures Lower("UserItem_userId_createdAt_index") == "useritem_userid_createdat_index" {}
  lemma CreatedAtKey() ensures " (" + Columnize(["userId", "createdAt"]) + ")" == " (`userId`, `createdAt`)" {
    assert Columnize(["userId", "createdAt"]) == "`userId`, `createdAt`";
  }

  lemma UpdatedAtKeyName() ensures IndexName("UserItem", ["userId", "updatedAt"], false) == "useritem_userid_updatedat_index" {
    UpdatedAtJoin();
    UpdatedAtJoined();
    UpdatedAtLower();
  }
  lemma UpdatedAtJoin() ensures Join(["userId", "updatedAt"], "_") == "userId_updatedAt" {}
  lemma UpdatedAtJoined() ensures "UserItem" + "_" + "userId_updatedAt" + "_" + "index" == "UserItem_userId_updatedAt_index" {}
  lemma UpdatedAtLower() ensures Lower("UserItem_userId_updatedAt_index") == "useritem_userid_updatedat_index" {}
  lemma UpdatedAtKey() ensures " (" + Columnize(["userId", "updatedAt"]) + ")" == " (`userId`, `updatedAt`)" {
    assert Columnize(["userId", "updatedAt"]) == "`userId`, `updatedAt`";
  }

  lemma UserIdKeyName() ensures IndexName("UserItem", ["userId"], false) == "useritem_userid_index" {
    assert Join(["userId"], "_") == "userId";
    UserIdJoined();
    UserIdLower();
  }
  lemma UserIdJoined() ensures "UserItem" + "_" + "userId" + "_" + "index" == "UserItem_userId_index" {}
  lemma UserIdLower() ensures Lower("UserItem_userId_index") == "useritem_userid_index" {}
  lemma UserIdKey() ensures " (" + Columnize(["userId"]) + ")" == " (`userId`)" {}

  lemma InterleaveUserText() ensures ", interleave in " + Wrap("User") == ", interleave in `User`" {}
  lemma StoringText() ensures " storing (" + Columnize(["itemId", "count"]) + ")" == " storing (`itemId`, `count`)" {
    assert Columnize(["itemId", "count"]) == "`itemId`, `count`";
  }

  lemma CreatedAtHead()
    ensures IndexHead("UserItem", PlainIndex(["userId", "createdAt"], false))
         == "create index `useritem_userid_createdat_index` on `UserItem` (`userId`, `createdAt`)"
  {
    CreatedAtKeyName();
    CreatedAtKey();
    IndexHeadIs("UserItem", PlainIndex(["userId", "createdAt"], false), "create index ",
                "useritem_userid_createdat_index", " (`userId`, `createdAt`)");
    CreatedAtHeadText();
  }
  lemma CreatedAtHeadText()
    ensures "create index " + Wrap("useritem_userid_createdat_index") + " on " + Wrap("UserItem") + " (`userId`, `createdAt`)"
         == "create index `useritem_userid_createdat_index` on `UserItem` (`userId`, `createdAt`)"
  {
    CreatedAtHeadWrapped();
    UserItemWrapped();
    CreatedAtHeadStep1();
    CreatedAtHeadStep2();
    CreatedAtHeadStep3();
    CreatedAtHeadStep4();
    Chain4("create index ", "`useritem_userid_createdat_index`", " on ", "`UserItem`", " (`userId`, `createdAt`)",
           "create index `useritem_userid_createdat_index`", "create index `useritem_userid_createdat_index` on ", "create index `useritem_userid_createdat_index` on `UserItem`", "create index `useritem_userid_createdat_index` on `UserItem` (`userId`, `createdAt`)");
  }
  lemma CreatedAtHeadWrapped() ensures Wrap("useritem_userid_createdat_index") == "`useritem_userid_createdat_index`" {}
  lemma CreatedAtHeadStep1() ensures "create index " + "`useritem_userid_createdat_index`" == "create index `useritem_userid_createdat_index`" {}
  lemma CreatedAtHeadStep2() ensures "create index `useritem_userid_createdat_index`" + " on " == "create index `useritem_userid_createdat_index` on " {}
  lemma CreatedAtHeadStep3() ensures "create index `useritem_userid_createdat_index` on " + "`UserItem`" == "create index `useritem_userid_createdat_index` on `UserItem`" {}
  lemma CreatedAtHeadStep4() ensures "create index `useritem_userid_createdat_index` on `UserItem`" + " (`userId`, `createdAt`)" == "create index `useritem_userid_createdat_index` on `UserItem` (`userId`, `createdAt`)" {}

  lemma UpdatedAtHead()
    ensures IndexHead("UserItem", PlainIndex(["userId", "updatedAt"], false))
         == "create index `useritem_userid_updatedat_index` on `UserItem` (`userId`, `updatedAt`)"
  {
    UpdatedAtKeyName();
    UpdatedAtKey();
    IndexHeadIs("UserItem", PlainIndex(["userId", "updatedAt"], false), "create index ",
                "useritem_userid_updatedat_index", " (`userId`, `updatedAt`)");
    UpdatedAtHeadText();
  }
  lemma UpdatedAtHeadText()
    ensures "create index " + Wrap("useritem_userid_updatedat_index") + " on " + Wrap("UserItem") + " (`userId`, `updatedAt`)"
         == "create index `useritem_userid_updatedat_index` on `UserItem` (`userId`, `updatedAt`)"
  {
    UpdatedAtHeadWrapped();
    UserItemWrapped();
    UpdatedAtHeadStep1();
    UpdatedAtHeadStep2();
    UpdatedAtHeadStep3();
    UpdatedAtHeadStep4();
    Chain4("create index ", "`useritem_userid_updatedat_index`", " on ", "`UserItem`", " (`userId`, `updatedAt`)",
           "create index `useritem_userid_updatedat_index`", "create index `useritem_userid_updatedat_index` on ", "create index `useritem_userid_updatedat_index` on `UserItem`", "create index `useritem_userid_updatedat_index` on `UserItem` (`userId`, `updatedAt`)");
  }
  lemma UpdatedAtHeadWrapped() ensures Wrap("useritem_userid_updatedat_index") == "`useritem_userid_updatedat_index`" {}
  lemma UpdatedAtHeadStep1() ensures "create index " + "`useritem_userid_updatedat_index`" == "create index `useritem_userid_updatedat_index`" {}
  lemma UpdatedAtHeadStep2() ensures "create index `useritem_userid_updatedat_index`" + " on " == "create index `useritem_userid_updatedat_index` on " {}
  lemma UpdatedAtHeadStep3() ensures "create index `useritem_userid_updatedat_index` on " + "`UserItem`" == "create index `useritem_userid_updatedat_index` on `UserItem`" {}
  lemma UpdatedAtHeadStep4() ensures "create index `useritem_userid_updatedat_index` on `UserItem`" + " (`userId`, `updatedAt`)" == "create index `useritem_userid_updatedat_index` on `UserItem` (`userId`, `updatedAt`)" {}

  lemma InterleavedCreatedAt()
    ensures CreateIndexSql("UserItem", CreateIndex(["userId", "createdAt"], false, false, None, [], Some("User")))
         == "create index `useritem_userid_createdat_index` on `UserItem` (`userId`, `createdAt`)" + ", interleave in `User`"
  {
    var c := CreateIndex(["userId", "createdAt"], false, false, None, [], Some("User"));
    CreatedAtHead();
    assert IndexHead("UserItem", c) == IndexHead("UserItem", PlainIndex(["userId", "createdAt"], false));
    InterleaveUserText();
    NoStoring("create index `useritem_userid_createdat_index` on `UserItem` (`userId`, `createdAt`)", ", interleave in `User`");
    IndexSqlIs("UserItem", c, "", ", interleave in `User`",
               "create index `useritem_userid_createdat_index` on `UserItem` (`userId`, `createdAt`)" + ", interleave in `User`");
  }
  lemma InterleavedUpdatedAt()
    ensures CreateIndexSql("UserItem", CreateIndex(["userId", "updatedAt"], false, false, None, [], Some("User")))
         == "create index `useritem_userid_updatedat_index` on `UserItem` (`userId`, `updatedAt`)" + ", interleave in `User`"
  {
    var c := CreateIndex(["userId", "updatedAt"], false, false, None, [], Some("User"));
    UpdatedAtHead();
    assert IndexHead("UserItem", c) == IndexHead("UserItem", PlainIndex(["userId", "updatedAt"], false));
    InterleaveUserText();
    NoStoring("create index `useritem_userid_updatedat_index` on `UserItem` (`userId`, `updatedAt`)", ", interleave in `User`");
    IndexSqlIs("UserItem", c, "", ", interleave in `User`",
               "create index `useritem_userid_updatedat_index` on `UserItem` (`userId`, `updatedAt`)" + ", interleave in `User`");
  }
  lemma NoStoring(head: string, il: string)
    ensures head + "" + il == head + il
  {}

  /** `index(['userId', 'createdAt'])->interleaveIn('User')` and the same with `updatedAt`. */
  method IndexWithInterleaveScenario() returns (sql: Result<seq<string>>)
    ensures sql == Ok(["create index `useritem_userid_createdat_index` on `UserItem` (`userId`, `createdAt`)" + ", interleave in `User`",
                       "create index `useritem_userid_updatedat_index` on `UserItem` (`userId`, `updatedAt`)" + ", interleave in `User`"])
  {
    InterleavedCreatedAt();
    InterleavedUpdatedAt();
    sql := TwoIndexes("UserItem", CreateIndex(["userId", "createdAt"], false, false, None, [], Some("User")),
                      CreateIndex(["userId", "updatedAt"], false, false, None, [], Some("User")),
                      "create index `useritem_userid_createdat_index` on `UserItem` (`userId`, `createdAt`)" + ", interleave in `User`",
                      "create index `useritem_userid_updatedat_index` on `UserItem` (`userId`, `updatedAt`)" + ", interleave in `User`");
  }

  lemma StoringCreatedAt()
    ensures CreateIndexSql("UserItem", CreateIndex(["userId", "createdAt"], false, false, None, ["itemId", "count"], None))
         == "create index `useritem_userid_createdat_index` on `UserItem` (`userId`, `createdAt`)" + " storing (`itemId`, `count`)"
  {
    var c := CreateIndex(["userId", "createdAt"], false, false, None, ["itemId", "count"], None);
    CreatedAtHead();
    assert IndexHead("UserItem", c) == IndexHead("UserItem", PlainIndex(["userId", "createdAt"], false));
    StoringText();
    NoIndexInterleave("create index `useritem_userid_createdat_index` on `UserItem` (`userId`, `createdAt`)" + " storing (`itemId`, `count`)");
    IndexSqlIs("UserItem", c, " storing (`itemId`, `count`)", "",
               "create index `useritem_userid_createdat_index` on `UserItem` (`userId`, `createdAt`)" + " storing (`itemId`, `count`)");
  }
  lemma NoIndexInterleave(x: string)
    ensures x + "" == x
  {}

  /** `index(['userId', 'createdAt'])->storing(['itemId', 'count'])`. */
  method IndexWithStoringScenario() returns (sql: Result<seq<string>>)
    ensures sql == Ok(["create index `useritem_userid_createdat_index` on `UserItem` (`userId`, `createdAt`)" + " storing (`itemId`, `count`)"])
  {
    StoringCreatedAt();
    sql := OneIndex("UserItem", CreateIndex(["userId", "createdAt"], false, false, None, ["itemId", "count"], None),
                    "create index `useritem_userid_createdat_index` on `UserItem` (`userId`, `createdAt`)" + " storing (`itemId`, `count`)");
  }

  lemma NullFilteredUserId()
    ensures CreateIndexSql("UserItem", CreateIndex(["userId"], false, true, None, [], None))
         == "create null_filtered index `useritem_userid_index` on `UserItem` (`userId`)"
  {
    var c := CreateIndex(["userId"], false, true, None, [], None);
    UserIdKeyName();
    UserIdKey();
    IndexHeadIs("UserItem", c, "create null_filtered index ", "useritem_userid_index", " (`userId`)");
    NullFilteredText();
    NoOptionsIsHead("UserItem", c);
  }
  lemma NullFilteredText()
    ensures "create null_filtered index " + Wrap("useritem_userid_index") + " on " + Wrap("UserItem") + " (`userId`)"
         == "create null_filtered index `useritem_userid_index` on `UserItem` (`userId`)"
  {
    NullFilteredWrapped();
    UserItemWrapped();
    NullFilteredStep1();
    NullFilteredStep2();
    NullFilteredStep3();
    NullFilteredStep4();
    Chain4("create null_filtered index ", "`useritem_userid_index`", " on ", "`UserItem`", " (`userId`)",
           "create null_filtered index `useritem_userid_index`", "create null_filtered index `useritem_userid_index` on ", "create null_filtered index `useritem_userid_index` on `UserItem`", "create null_filtered index `useritem_userid_index` on `UserItem` (`userId`)");
  }
  lemma NullFilteredWrapped() ensures Wrap("useritem_userid_index") == "`useritem_userid_index`" {}
  lemma NullFilteredStep1() ensures "create null_filtered index " + "`useritem_userid_index`" == "create null_filtered index `useritem_userid_index`" {}
  lemma NullFilteredStep2() ensures "create null_filtered index `useritem_userid_index`" + " on " == "create null_filtered index `useritem_userid_index` on " {}
  lemma NullFilteredStep3() ensures "create null_filtered index `useritem_userid_index` on " + "`UserItem`" == "create null_filtered index `useritem_userid_index` on `UserItem`" {}
  lemma NullFilteredStep4() ensures "create null_filtered index `useritem_userid_index` on `UserItem`" + " (`userId`)" == "create null_filtered index `useritem_userid_index` on `UserItem` (`userId`)" {}

  /** `index(['userId'])->nullFiltered()`. */
  method NullFilteredIndexScenario() returns (sql: Result<seq<string>>)
    ensures sql == Ok(["create null_filtered index `useritem_userid_index` on `UserItem` (`userId`)"])
  {
    NullFilteredUserId();
    sql := OneIndex("UserItem", CreateIndex(["userId"], false, true, None, [], None),
                    "create null_filtered index `useritem_userid_index` on `UserItem` (`userId`)");
  }

  // ---- row deletion policies -------------------------------------------------------

  lemma OlderThanText() ensures OlderThan(Wrap("t"), 200) == "(older_than(`t`, interval 200 day))" {
    assert NatToString(200) == "200";
  }

  /** `addRowDeletionPolicy('t', 200)` on an existing table. */
  method AddPolicyScenario(t: string) returns (sql: Result<seq<string>>)
    ensures sql == Ok([AlterTable(t) + " add row deletion policy " + "(older_than(`t`, interval 200 day))"])
  {
    var bp := new Blueprint(t);
    bp.AddRowDeletionPolicy("t", 200);
    sql := bp.ToSql();
    OlderThanText();
    assert [] + [AlterTable(t) + " add row deletion policy " + OlderThan(Wrap("t"), 200)]
        == [AlterTable(t) + " add row deletion policy " + OlderThan(Wrap("t"), 200)];
  }

  /** `replaceRowDeletionPolicy('t', 200)`. */
  method ReplacePolicyScenario(t: string) returns (sql: Result<seq<string>>)
    ensures sql == Ok([AlterTable(t) + " replace row deletion policy " + "(older_than(`t`, interval 200 day))"])
  {
    var bp := new Blueprint(t);
    bp.ReplaceRowDeletionPolicy("t", 200);
    sql := bp.ToSql();
    OlderThanText();
    assert [] + [AlterTable(t) + " replace row deletion policy " + OlderThan(Wrap("t"), 200)]
        == [AlterTable(t) + " replace row deletion policy " + OlderThan(Wrap("t"), 200)];
  }

  /** `dropRowDeletionPolicy()`. */
  method DropPolicyScenario(t: string) returns (sql: Result<seq<string>>)
    ensures sql == Ok([AlterTable(t) + " drop row deletion policy"])
  {
    var bp := new Blueprint(t);
    bp.DropRowDeletionPolicy();
    sql := bp.ToSql();
    assert [] + [AlterTable(t) + " drop row deletion policy"] == [AlterTable(t) + " drop row deletion policy"];
  }
}
