/** The query builder scenarios of the driver's test-suite, replayed on the
    model: each member drives a `Builder` (or the grammar) the way one test does
    and promises the SQL that test expects. */
module QueryExamples {
  import opened Common
  import opened Text
  import opened Codec
  import opened QueryGrammar
  import opened QueryBuilder

  function Plain(table: string): string {
    "select * from " + Wrap(table)
  }

  /** A query with no columns, no hint and no where clause: the table, then the order. */
  lemma BareSelect(q: Query)
    requires q.columns == [] && q.indexHint.None? && q.wheres == []
    ensures CompileSelect(q) == Ok([Sql(Plain(q.from))] + CompileOrders(q.orders))
  {
    assert CompileIndexHint(q.indexHint) == Ok("");
    assert CompileWheres(q.wheres, true) == Ok([]);
    assert CompileColumns(q.columns) == "*";
    assert SelectHead(q) == Plain(q.from);
    assert Plain(q.from) + "" == Plain(q.from);
    assert [Sql(Plain(q.from))] + [] + CompileOrders(q.orders) == [Sql(Plain(q.from))] + CompileOrders(q.orders);
  }

  /** `table(t)->toSql()` and `toRawSql()` are both `select * from `t``. */
  lemma PlainSelect(table: string)
    ensures QueryGrammar.ToSql(TableQuery(table)) == Ok(Plain(table))
    ensures QueryGrammar.ToRawSql(TableQuery(table)) == Ok(Plain(table))
  {
    var q := TableQuery(table);
    BareSelect(q);
    assert CompileOrders(q.orders) == [];
    assert [Sql(Plain(table))] + [] == [Sql(Plain(table))];
    RenderOne(Sql(Plain(table)), false);
    RawSqlWithoutBindings(q);
  }

  lemma ForcedPlain(table: string, n: string)
    ensures QueryGrammar.ToSql(TableQuery(table).(indexHint := Some(IndexHint(ForceHint, n))))
         == Ok(Plain(table) + ForceIndexSql(n))
  {
    var q := TableQuery(table);
    PlainSelect(table);
    ForceIndexFollowsTable(q, n);
    assert q.(indexHint := None) == q;
    assert SelectHead(q) == Plain(table);
    assert Plain(table)[|Plain(table)|..] == "";
    assert Plain(table) + ForceIndexSql(n) + "" == Plain(table) + ForceIndexSql(n);
  }

  /** Forcing one index, forcing another one, and clearing the hint: each
      `forceIndex` replaces the hint before it, and `forceIndex(null)` restores
      the plain query. */
  method ForceIndexScenario(table: string, first: string, second: string)
    returns (plain: Result<string>, hinted: Result<string>, rehinted: Result<string>, cleared: Result<string>)
    ensures plain == Ok(Plain(table))
    ensures hinted == Ok(Plain(table) + ForceIndexSql(first))
    ensures rehinted == Ok(Plain(table) + ForceIndexSql(second))
    ensures cleared == plain
  {
    var qb := new Builder(table);
    PlainSelect(table);
    plain := qb.ToSql();
    qb.ForceIndex(Some(first));
    ForcedPlain(table, first);
    hinted := qb.ToSql();
    qb.ForceIndex(Some(second));
    ForcedPlain(table, second);
    rehinted := qb.ToSql();
    qb.ForceIndex(None);
    cleared := qb.ToSql();
  }

  /** The test's hint names. */
  method ForceIndexTestNames(table: string)
    returns (plain: Result<string>, hinted: Result<string>, rehinted: Result<string>, cleared: Result<string>)
    ensures plain == Ok(Plain(table))
    ensures hinted == Ok(Plain(table) + " @{FORCE_INDEX=test_index_name}")
    ensures rehinted == Ok(Plain(table) + " @{FORCE_INDEX=test_index_name2}")
    ensures cleared == plain
  {
    plain, hinted, rehinted, cleared := ForceIndexScenario(table, "test_index_name", "test_index_name2");
    assert ForceIndexSql("test_index_name") == " @{FORCE_INDEX=test_index_name}";
    assert ForceIndexSql("test_index_name2") == " @{FORCE_INDEX=test_index_name2}";
  }

  /** `useIndex` and `ignoreIndex` on a fresh query. */
  method HintErrorsScenario(table: string) returns (use: Result<string>, ignore: Result<string>)
    ensures use == Err(UnsupportedFeature("Cloud Spanner does not support index type: hint"))
    ensures ignore == Err(UnsupportedFeature("Cloud Spanner does not support index type: ignore"))
  {
    var a := new Builder(table);
    a.UseIndex("test_index_name2");
    use := a.ToSql();
    var b := new Builder(table);
    b.IgnoreIndex("test_index_name2");
    ignore := b.ToSql();
  }

  /** `lock()`, `lockForUpdate()` and `sharedLock()` on a fresh query. */
  method LockScenario(table: string) returns (locked: Result<string>, forUpdate: Result<string>, shared: Result<string>)
    ensures locked == Ok(Plain(table)) && forUpdate == Ok(Plain(table)) && shared == Ok(Plain(table))
  {
    PlainSelect(table);
    var a := new Builder(table);
    a.Lock(ForUpdate);
    locked := a.ToRawSql();
    var b := new Builder(table);
    b.LockForUpdate();
    forUpdate := b.ToRawSql();
    var c := new Builder(table);
    c.SharedLock();
    shared := c.ToRawSql();
  }

  /** One descending order: ` order by `c` desc` after the table. */
  lemma OrderedDesc(table: string, column: string)
    ensures QueryGrammar.ToSql(TableQuery(table).(orders := [Order(column, Desc)]))
         == Ok(Plain(table) + " order by " + Wrap(column) + " desc")
  {
    var q := TableQuery(table).(orders := [Order(column, Desc)]);
    BareSelect(q);
    var os := seq(|q.orders|, i requires 0 <= i < |q.orders| => OrderSql(q.orders[i]));
    assert os == [Wrap(column) + " desc"];
    assert Join(os, ", ") == Wrap(column) + " desc";
    var order := " order by " + Wrap(column) + " desc";
    assert " order by " + (Wrap(column) + " desc") == order;
    assert CompileOrders(q.orders) == [Sql(order)];
    var ps := [Sql(Plain(table))] + [Sql(order)];
    assert CompileSelect(q) == Ok(ps);
    RenderAppend([Sql(Plain(table))], [Sql(order)], false);
    RenderOne(Sql(Plain(table)), false);
    RenderOne(Sql(order), false);
    assert Render(ps, false) == Plain(table) + order;
    assert Plain(table) + order == Plain(table) + " order by " + Wrap(column) + " desc";
  }

  /** `orderByDesc(column)` on a fresh query. */
  method OrderByDescScenario(table: string, column: string) returns (sql: Result<string>)
    ensures sql == Ok(Plain(table) + " order by " + Wrap(column) + " desc")
  {
    var qb := new Builder(table);
    qb.OrderByDesc(column);
    OrderedDesc(table, column);
    sql := qb.ToSql();
  }

  /** The test's `orderByDesc('intTest')`. */
  method OrderByDescIntTest(table: string) returns (sql: Result<string>)
    ensures sql == Ok(Plain(table) + " order by `intTest` desc")
  {
    sql := OrderByDescScenario(table, "intTest");
    assert Wrap("intTest") == "`intTest`";
    assert " order by " + "`intTest`" + " desc" == " order by `intTest` desc";
    assert Plain(table) + " order by " + "`intTest`" + " desc" == Plain(table) + (" order by " + "`intTest`" + " desc");
  }

  /** A query whose only clause is one raw condition. */
  lemma RawWhereSelect(q: Query, cond: string)
    requires q.indexHint.None? && q.wheres == [RawWhere(And, cond)] && q.orders == []
    ensures CompileSelect(q) == Ok([Sql(SelectHead(q)), Sql(" where "), Sql(cond)])
  {
    assert q.wheres[1..] == [];
    assert CompileWheres(q.wheres, true) == Ok([] + [Sql(cond)] + []);
    assert [] + [Sql(cond)] + [] == [Sql(cond)];
    assert SelectHead(q) + "" == SelectHead(q);
    assert [Sql(SelectHead(q))] + ([Sql(" where ")] + [Sql(cond)]) + [] == [Sql(SelectHead(q)), Sql(" where "), Sql(cond)];
  }

  /** A query whose only clause is `exists (sub)`. */
  lemma ExistsSelect(q: Query, sub: Query)
    requires q.indexHint.None? && q.wheres == [Exists(And, sub, false)] && q.orders == []
    requires CompileSelect(sub).Ok?
    ensures CompileSelect(q) == Ok([Sql(SelectHead(q)), Sql(" where "), Sql("exists (")]
                                   + CompileSelect(sub).value + [Sql(")")])
  {
    var subPieces := CompileSelect(sub).value;
    var existsPieces := [Sql("exists (")] + subPieces + [Sql(")")];
    assert CompileWhere(q.wheres[0]) == Ok(existsPieces);
    assert q.wheres[1..] == [];
    assert CompileWheres(q.wheres, true) == Ok([] + existsPieces + []);
    assert [] + existsPieces + [] == existsPieces;
    assert SelectHead(q) + "" == SelectHead(q);
    assert [Sql(SelectHead(q))] + ([Sql(" where ")] + existsPieces) + []
        == [Sql(SelectHead(q)), Sql(" where "), Sql("exists (")] + subPieces + [Sql(")")];
  }

  lemma RenderThree(a: string, b: string, c: string)
    ensures Render([Sql(a), Sql(b), Sql(c)], false) == a + b + c
  {
    assert [Sql(a), Sql(b), Sql(c)] == [Sql(a)] + [Sql(b)] + [Sql(c)];
    RenderOne(Sql(a), false);
    RenderOne(Sql(b), false);
    RenderOne(Sql(c), false);
    RenderAppend([Sql(a)], [Sql(b)], false);
    RenderAppend([Sql(a)] + [Sql(b)], [Sql(c)], false);
  }

/** `exists (select 1 from `child` where cond)` as the only clause. */
  lemma ExistsSql(parent: string, child: string, cond: string)
    ensures var sub := TableQuery(child).(columns := [RawColumn("1")], wheres := [RawWhere(And, cond)]);
      QueryGrammar.ToSql(TableQuery(parent).(wheres := [Exists(And, sub, false)]))
      == Ok(Plain(parent) + " where exists (select 1 from " + Wrap(child) + " where " + cond + ")")
  {
    var s := TableQuery(child).(columns := [RawColumn("1")], wheres := [RawWhere(And, cond)]);
    var q := TableQuery(parent).(wheres := [Exists(And, s, false)]);
    var subHead := "select 1 from " + Wrap(child);
    assert seq(|s.columns|, i requires 0 <= i < |s.columns| => QueryGrammar.ColumnSql(s.columns[i])) == ["1"];
    assert CompileColumns(s.columns) == "1";
    assert SelectHead(s) == subHead;
    RawWhereSelect(s, cond);
    var subPieces := [Sql(subHead), Sql(" where "), Sql(cond)];
    ExistsSelect(q, s);
    assert CompileColumns(q.columns) == "*";
    assert SelectHead(q) == Plain(parent);
    var front := [Sql(Plain(parent)), Sql(" where "), Sql("exists (")];
    RenderThree(Plain(parent), " where ", "exists (");
    RenderThree(subHead, " where ", cond);
    RenderOne(Sql(")"), false);
    RenderAppend(front, subPieces, false);
    RenderAppend(front + subPieces, [Sql(")")], false);
    ExistsRegroup(Plain(parent), Wrap(child), cond);
  }

  lemma ExistsRegroup(p: string, c: string, cond: string)
    ensures p + " where " + "exists (" + ("select 1 from " + c + " where " + cond) + ")"
         == p + " where exists (select 1 from " + c + " where " + cond + ")"
  {
    assert " where " + "exists (" + "select 1 from " == " where exists (select 1 from ";
  }

  /** `whereExists` with a sub-query selecting `1` from the child table. */
  method ExistsScenario(parent: string, child: string) returns (sql: Result<string>)
    ensures sql == Ok(Plain(parent) + " where exists (select 1 from " + Wrap(child) + " where "
                      + (child + ".userId = " + parent + ".userId") + ")")
  {
    var sub := new Builder(child);
    sub.SelectRaw("1");
    var cond := child + ".userId = " + parent + ".userId";
    sub.WhereRaw(cond);
    var qb := new Builder(parent);
    var s := TableQuery(child).(columns := [RawColumn("1")], wheres := [RawWhere(And, cond)]);
    assert sub.State() == s;
    qb.WhereExists(sub);
    assert qb.State() == TableQuery(parent).(wheres := [Exists(And, s, false)]);
    ExistsSql(parent, child, cond);
    sql := qb.ToSql();
  }

  /** `useDataBoost()` and `useDataBoost(false)`, read back by `dataBoostEnabled()`. */
  method DataBoostScenario(table: string) returns (enabled: bool, disabled: bool)
    ensures enabled && !disabled
  {
    var a := new Builder(table);
    a.UseDataBoost(true);
    enabled := a.DataBoostEnabled();
    var b := new Builder(table);
    b.UseDataBoost(false);
    disabled := b.DataBoostEnabled();
  }

  // ---- toRawSql literals -------------------------------------------------------

  /** `table('RawSqlTest')->where(column, v)->toRawSql()`. */
  function RawTest(column: string, v: Value): Result<string> {
    QueryGrammar.ToRawSql(ComparisonQuery("RawSqlTest", column, "=", v))
  }

  function RawHead(column: string): string {
    "select * from `RawSqlTest` where " + Wrap(column) + " = "
  }

  lemma RawSqlTestQuoted() ensures Wrap("RawSqlTest") == "`RawSqlTest`" {}
  lemma RawSqlTestSelect() ensures "select * from " + "`RawSqlTest`" + " where " == "select * from `RawSqlTest` where " {}
  lemma EqualsSpaced() ensures " " + "=" + " " == " = " {}

  lemma HeadRegroup(column: string)
    ensures "select * from " + Wrap("RawSqlTest") + " where " + Wrap(column) + " " + "=" + " " == RawHead(column)
  {
    RawSqlTestQuoted();
    RawSqlTestSelect();
    EqualsSpaced();
    var a := "select * from " + Wrap("RawSqlTest") + " where ";
    var w := Wrap(column);
    assert a + w + " " + "=" + " " == a + w + (" " + "=" + " ");
  }

  /** The raw SQL is the fixed head followed by the value's literal. */
  lemma RawTestIs(column: string, v: Value)
    requires '?' !in column
    ensures RawTest(column, v) == Ok(RawHead(column) + Literal(v))
  {
    ComparisonSql("RawSqlTest", column, "=", v);
    assert '?' !in "RawSqlTest";
    assert '?' !in "=";
    HeadRegroup(column);
  }

  lemma RawCase(column: string, v: Value, literal: string, expected: string)
    requires '?' !in column && Literal(v) == literal && RawHead(column) + literal == expected
    ensures RawTest(column, v) == Ok(expected)
  {
    RawTestIs(column, v);
  }

  lemma HeadB() ensures '?' !in "b" && RawHead("b") == "select * from `RawSqlTest` where `b` = " {}
  lemma HeadI() ensures '?' !in "i" && RawHead("i") == "select * from `RawSqlTest` where `i` = " {}
  lemma HeadF() ensures '?' !in "f" && RawHead("f") == "select * from `RawSqlTest` where `f` = " {}
  lemma HeadS() ensures '?' !in "s" && RawHead("s") == "select * from `RawSqlTest` where `s` = " {}

  /** Booleans are written `true` and `false`. */
  lemma RawSqlTrue()
    ensures RawTest("b", VBool(true)) == Ok("select * from `RawSqlTest` where `b` = true")
  {
    HeadB();
    assert Literal(VBool(true)) == "true";
    TrueLine();
    RawCase("b", VBool(true), "true", "select * from `RawSqlTest` where `b` = true");
  }

  lemma RawSqlFalse()
    ensures RawTest("b", VBool(false)) == Ok("select * from `RawSqlTest` where `b` = false")
  {
    HeadB();
    assert Literal(VBool(false)) == "false";
    FalseLine();
    RawCase("b", VBool(false), "false", "select * from `RawSqlTest` where `b` = false");
  }

  /** Integers in decimal. */
  lemma RawSqlInt()
    ensures RawTest("i", VInt(1)) == Ok("select * from `RawSqlTest` where `i` = 1")
  {
    HeadI();
    OneLiteral();
    IntLine();
    RawCase("i", VInt(1), "1", "select * from `RawSqlTest` where `i` = 1");
  }

  lemma OneLiteral() ensures Literal(VInt(1)) == "1" {
    assert IntToString(1) == NatToString(1);
  }

  /** Decimal text as written. */
  lemma RawSqlDecimal()
    ensures RawTest("f", VDecimal("1.1")) == Ok("select * from `RawSqlTest` where `f` = 1.1")
  {
    HeadF();
    DecimalLine();
    RawCase("f", VDecimal("1.1"), "1.1", "select * from `RawSqlTest` where `f` = 1.1");
  }

  /** A string without a newline: double quotes. */
  lemma RawSqlString()
    ensures RawTest("s", VString("test")) == Ok("select * from `RawSqlTest` where `s` = \"test\"")
  {
    HeadS();
    PlainTestLiteral();
    StringLine();
    RawCase("s", VString("test"), "\"test\"", "select * from `RawSqlTest` where `s` = \"test\"");
  }

  lemma TrueLine() ensures "select * from `RawSqlTest` where `b` = " + "true" == "select * from `RawSqlTest` where `b` = true" {}
  lemma FalseLine() ensures "select * from `RawSqlTest` where `b` = " + "false" == "select * from `RawSqlTest` where `b` = false" {}
  lemma IntLine() ensures "select * from `RawSqlTest` where `i` = " + "1" == "select * from `RawSqlTest` where `i` = 1" {}
  lemma DecimalLine() ensures "select * from `RawSqlTest` where `f` = " + "1.1" == "select * from `RawSqlTest` where `f` = 1.1" {}
  lemma StringLine() ensures "select * from `RawSqlTest` where `s` = " + "\"test\"" == "select * from `RawSqlTest` where `s` = \"test\"" {}

  lemma PlainTestLiteral() ensures Literal(VString("test")) == "\"test\"" {
    NoQuoteOrNewlineInTest();
    PlainEscape("test");
    TestQuoting();
    QuotedLiteral("test", "test", "\"test\"");
  }

  lemma NoQuoteOrNewlineInTest() ensures '\n' !in "test" && forall i :: 0 <= i < |"test"| ==> "test"[i] != '"' {}
  lemma TestQuoting() ensures "\"" + "test" + "\"" == "\"test\"" {}

  /** Double quotes inside are escaped with a backslash. */
  lemma RawSqlEscaped()
    ensures RawTest("s", VString("\"tes's\"")) == Ok("select * from `RawSqlTest` where `s` = \"\\\"tes's\\\"\"")
  {
    HeadS();
    EscapedLiteral();
    EscapedLine();
    RawCase("s", VString("\"tes's\""), "\"\\\"tes's\\\"\"",
            "select * from `RawSqlTest` where `s` = \"\\\"tes's\\\"\"");
  }

  lemma EscapedLine()
    ensures "select * from `RawSqlTest` where `s` = " + "\"\\\"tes's\\\"\""
         == "select * from `RawSqlTest` where `s` = \"\\\"tes's\\\"\""
  {}

  /** The literal of a string without a newline, from its escaped body. */
  lemma QuotedLiteral(s: string, body: string, literal: string)
    requires '\n' !in s && EscapeQuotes(s) == body && "\"" + body + "\"" == literal
    ensures Literal(VString(s)) == literal
  {
  }

  /** The literal of a string with a newline, from its escaped body. */
  lemma TripleQuotedLiteral(s: string, body: string, literal: string)
    requires '\n' in s && EscapeQuotes(s) == body && "r\"\"\"" + body + "\"\"\"" == literal
    ensures Literal(VString(s)) == literal
  {
  }

  lemma EscapedLiteral() ensures Literal(VString("\"tes's\"")) == "\"\\\"tes's\\\"\"" {
    NoNewlineInEscaped();
    EscapedBody();
    EscapedQuoting();
    QuotedLiteral("\"tes's\"", "\\\"tes's\\\"", "\"\\\"tes's\\\"\"");
  }

  lemma NoNewlineInEscaped() ensures '\n' !in "\"tes's\"" {
    assert forall i :: 0 <= i < |"\"tes's\""| ==> "\"tes's\""[i] != '\n';
  }

  lemma EscapedQuoting() ensures "\"" + "\\\"tes's\\\"" + "\"" == "\"\\\"tes's\\\"\"" {}

  lemma EscapedBody() ensures EscapeQuotes("\"tes's\"") == "\\\"tes's\\\"" {
    EscapedSplit();
    EscapeThree("\"", "tes's", "\"");
    QuoteEscape();
    PlainEscape("tes's");
    EscapedJoin();
  }

  lemma EscapedSplit() ensures "\"tes's\"" == "\"" + "tes's" + "\"" {}
  lemma EscapedJoin() ensures "\\\"" + "tes's" + "\\\"" == "\\\"tes's\\\"" {}

  lemma PlainEscape(s: string)
    requires forall i :: 0 <= i < |s| ==> s[i] != '"'
    ensures EscapeQuotes(s) == s
  {
    assert '"' !in s;
  }

  lemma EscapeThree(a: string, b: string, c: string)
    ensures EscapeQuotes(a + b + c) == EscapeQuotes(a) + EscapeQuotes(b) + EscapeQuotes(c)
  {
    EscapeQuotesAppend(a + b, c);
    EscapeQuotesAppend(a, b);
  }

  lemma QuoteEscape() ensures EscapeQuotes("\"") == "\\\"" {}

  /** A string with a newline: the triple-quoted raw form. */
  lemma RawSqlNewline()
    ensures RawTest("s", VString("tes\nt")) == Ok("select * from `RawSqlTest` where `s` = r\"\"\"tes\nt\"\"\"")
  {
    HeadS();
    NewlineLiteral();
    NewlineLine();
    RawCase("s", VString("tes\nt"), "r\"\"\"tes\nt\"\"\"", "select * from `RawSqlTest` where `s` = r\"\"\"tes\nt\"\"\"");
  }

  lemma NewlineLine()
    ensures "select * from `RawSqlTest` where `s` = " + "r\"\"\"tes\nt\"\"\""
         == "select * from `RawSqlTest` where `s` = r\"\"\"tes\nt\"\"\""
  {}

  lemma NewlineLiteral() ensures Literal(VString("tes\nt")) == "r\"\"\"tes\nt\"\"\"" {
    NewlineIn();
    PlainEscape("tes\nt");
    NewlineQuoting();
    TripleQuotedLiteral("tes\nt", "tes\nt", "r\"\"\"tes\nt\"\"\"");
  }

  lemma NewlineIn() ensures '\n' in "tes\nt" && '\n' in "t\"e\"s\nt" {
    assert "tes\nt"[3] == '\n';
    assert "t\"e\"s\nt"[5] == '\n';
  }

  lemma NewlineQuoting() ensures "r\"\"\"" + "tes\nt" + "\"\"\"" == "r\"\"\"tes\nt\"\"\"" {}

  /** The raw form escapes double quotes as well. */
  lemma RawSqlNewlineEscaped()
    ensures RawTest("s", VString("t\"e\"s\nt"))
         == Ok("select * from `RawSqlTest` where `s` = r\"\"\"t\\\"e\\\"s\nt\"\"\"")
  {
    HeadS();
    NewlineEscapedLiteral();
    NewlineEscapedLine();
    RawCase("s", VString("t\"e\"s\nt"), "r\"\"\"t\\\"e\\\"s\nt\"\"\"",
            "select * from `RawSqlTest` where `s` = r\"\"\"t\\\"e\\\"s\nt\"\"\"");
  }

  lemma NewlineEscapedLine()
    ensures "select * from `RawSqlTest` where `s` = " + "r\"\"\"t\\\"e\\\"s\nt\"\"\""
         == "select * from `RawSqlTest` where `s` = r\"\"\"t\\\"e\\\"s\nt\"\"\""
  {}

  lemma NewlineEscapedLiteral() ensures Literal(VString("t\"e\"s\nt")) == "r\"\"\"t\\\"e\\\"s\nt\"\"\"" {
    NewlineIn();
    NewlineEscapedBody();
    NewlineEscapedQuoting();
    TripleQuotedLiteral("t\"e\"s\nt", "t\\\"e\\\"s\nt", "r\"\"\"t\\\"e\\\"s\nt\"\"\"");
  }

  lemma NewlineEscapedQuoting()
    ensures "r\"\"\"" + "t\\\"e\\\"s\nt" + "\"\"\"" == "r\"\"\"t\\\"e\\\"s\nt\"\"\""
  {}

  lemma NewlineEscapedBody() ensures EscapeQuotes("t\"e\"s\nt") == "t\\\"e\\\"s\nt" {
    NewlineEscapedSplit();
    EscapeFive("t", "\"", "e", "\"", "s\nt");
    QuoteEscape();
    NoQuoteInPieces();
    PlainEscape("t");
    PlainEscape("e");
    PlainEscape("s\nt");
    NewlineEscapedJoin();
  }

  lemma NewlineEscapedSplit() ensures "t\"e\"s\nt" == "t" + "\"" + "e" + "\"" + "s\nt" {}
  lemma NewlineEscapedJoin() ensures "t" + "\\\"" + "e" + "\\\"" + "s\nt" == "t\\\"e\\\"s\nt" {}
  lemma NoQuoteInPieces()
    ensures forall i :: 0 <= i < |"t"| ==> "t"[i] != '"'
    ensures forall i :: 0 <= i < |"e"| ==> "e"[i] != '"'
    ensures forall i :: 0 <= i < |"s\nt"| ==> "s\nt"[i] != '"'
  {}

  lemma EscapeFive(a: string, b: string, c: string, d: string, e: string)
    ensures EscapeQuotes(a + b + c + d + e)
         == EscapeQuotes(a) + EscapeQuotes(b) + EscapeQuotes(c) + EscapeQuotes(d) + EscapeQuotes(e)
  {
    EscapeThree(a + b, c, d);
    EscapeQuotesAppend(a + b + c + d, e);
    EscapeQuotesAppend(a, b);
  }
}
