/** The query grammar: renders a select query to Cloud Spanner SQL. Identifiers
    are back-quoted, a force-index hint becomes `@{FORCE_INDEX=name}` after the
    table, other index-hint kinds are refused, and lock requests are dropped.
    The SQL is produced as pieces (fixed text and bound values) so that `toSql`
    (with `?` placeholders) and `toRawSql` (with inline literals) come from one
    rendering. */
module QueryGrammar {
  import opened Common
  import opened Text
  import opened Codec

  /** Laravel's index-hint kinds: `useIndex` records "hint", `forceIndex`
      "force", `ignoreIndex` "ignore". */
  datatype HintKind = UseHint | ForceHint | IgnoreHint

  function HintKindName(k: HintKind): string {
    match k
    case UseHint => "hint"
    case ForceHint => "force"
    case IgnoreHint => "ignore"
  }

  datatype IndexHint = IndexHint(kind: HintKind, index: string)

  /** `lock()`/`lockForUpdate()` request an exclusive lock, `sharedLock()` a
      shared one, `lock("…")` a custom clause. */
  datatype Lock = Unlocked | ForUpdate | Shared | CustomLock(clause: string)

  datatype Direction = Asc | Desc
  datatype Order = Order(column: string, direction: Direction)
  datatype Boolean = And | Or

  datatype SelectColumn = Named(name: string) | RawColumn(sql: string)

  datatype Where =
    | Basic(boolean: Boolean, column: string, operator: string, value: Value)
    | RawWhere(boolean: Boolean, sql: string)
    | Exists(boolean: Boolean, query: Query, negated: bool)

  /** The state of a query builder that the grammar reads, plus the lock and
      data-boost settings, which it must not read. */
  datatype Query = Query(
    from: string,
    columns: seq<SelectColumn>,
    indexHint: Option<IndexHint>,
    wheres: seq<Where>,
    orders: seq<Order>,
    lock: Lock,
    dataBoost: bool)

  /** A fresh `$connection->table(name)` query. */
  function TableQuery(table: string): Query {
    Query(table, [], None, [], [], Unlocked, false)
  }

  datatype Piece = Sql(text: string) | Param(value: Value)

  // ---- compilation -----------------------------------------------------------

  function UnsupportedHintMessage(k: HintKind): string {
    "Cloud Spanner does not support index type: " + HintKindName(k)
  }

  /** The only hint Cloud Spanner accepts: a table hint forcing one index. */
  function ForceIndexSql(index: string): string {
    " @{FORCE_INDEX=" + index + "}"
  }

  function CompileIndexHint(h: Option<IndexHint>): Result<string> {
    match h
    case None => Ok("")
    case Some(IndexHint(kind, index)) =>
      if kind == ForceHint then Ok(ForceIndexSql(index))
      else Err(UnsupportedFeature(UnsupportedHintMessage(kind)))
  }

  function ColumnSql(c: SelectColumn): string {
    match c
    case Named(name) => Wrap(name)
    case RawColumn(sql) => sql
  }

  function CompileColumns(columns: seq<SelectColumn>): string {
    if columns == [] then "*"
    else Join(seq(|columns|, i requires 0 <= i < |columns| => ColumnSql(columns[i])), ", ")
  }

  /** `select <columns> from `<table>``: everything before the index hint. */
  function SelectHead(q: Query): string {
    "select " + CompileColumns(q.columns) + " from " + Wrap(q.from)
  }

  function OrderSql(o: Order): string {
    Wrap(o.column) + (if o.direction == Asc then " asc" else " desc")
  }

  function CompileOrders(orders: seq<Order>): seq<Piece> {
    if orders == [] then []
    else [Sql(" order by " + Join(seq(|orders|, i requires 0 <= i < |orders| => OrderSql(orders[i])), ", "))]
  }

  function CompileSelect(q: Query): Result<seq<Piece>>
    decreases q
  {
    var hint :- CompileIndexHint(q.indexHint);
    var wheres :- CompileWheres(q.wheres, true);
    Ok([Sql(SelectHead(q) + hint)]
       + (if q.wheres == [] then [] else [Sql(" where ")] + wheres)
       + CompileOrders(q.orders))
  }

  /** The clauses joined by their booleans; the first clause's boolean is left out. */
  function CompileWheres(ws: seq<Where>, first: bool): Result<seq<Piece>>
    decreases ws
  {
    if ws == [] then Ok([])
    else
      var clause :- CompileWhere(ws[0]);
      var rest :- CompileWheres(ws[1..], false);
      var joiner := if first then [] else [Sql(if ws[0].boolean == And then " and " else " or ")];
      Ok(joiner + clause + rest)
  }

  function CompileWhere(w: Where): Result<seq<Piece>>
    decreases w
  {
    match w
    case Basic(_, column, operator, value) => Ok([Sql(Wrap(column) + " " + operator + " "), Param(value)])
    case RawWhere(_, sql) => Ok([Sql(sql)])
    case Exists(_, query, negated) =>
      var sub :- CompileSelect(query);
      Ok([Sql(if negated then "not exists (" else "exists (")] + sub + [Sql(")")])
  }

  // ---- rendering -----------------------------------------------------------

  /** One piece as written: a bound value becomes `?`, or its literal when `inline`. */
  function PieceSql(p: Piece, inline: bool): string {
    match p
    case Sql(text) => text
    case Param(v) => if inline then Literal(v) else "?"
  }

  /** Writes the pieces out, one after the other. */
  function Render(ps: seq<Piece>, inline: bool): string
    decreases |ps|
  {
    if ps == [] then "" else PieceSql(ps[0], inline) + Render(ps[1..], inline)
  }

  /** The bound values, in the order their placeholders appear. */
  function Params(ps: seq<Piece>): seq<Value>
    decreases |ps|
  {
    if ps == [] then []
    else (if ps[0].Param? then [ps[0].value] else []) + Params(ps[1..])
  }

  /** Laravel's raw-SQL substitution: each `?` in turn is replaced by the literal
      of the next binding; a `?` left over once the bindings run out stays. */
  function Substitute(sql: string, bindings: seq<Value>): string
    decreases |sql|
  {
    if sql == [] then ""
    else if sql[0] == '?' && bindings != [] then Literal(bindings[0]) + Substitute(sql[1..], bindings[1..])
    else [sql[0]] + Substitute(sql[1..], bindings)
  }

  function ToSql(q: Query): Result<string> {
    var ps :- CompileSelect(q);
    Ok(Render(ps, false))
  }

  function Bindings(q: Query): Result<seq<Value>> {
    var ps :- CompileSelect(q);
    Ok(Params(ps))
  }

  /** `toRawSql()`: the SQL of `toSql()` with the bindings substituted. */
  function ToRawSql(q: Query): Result<string> {
    var sql :- ToSql(q);
    var bindings :- Bindings(q);
    Ok(Substitute(sql, bindings))
  }

  /** `insertGetId` cannot be supported: Cloud Spanner has no engine-generated
      auto-increment key. Whatever the query and the values, the call fails. */
  function InsertGetId(q: Query, values: seq<(string, Value)>): (r: Result<int>)
    ensures r.Err? && r.error.UnsupportedFeature?
    ensures r.error.message == "Cloud Spanner does not support insertGetId"
  {
    Err(UnsupportedFeature("Cloud Spanner does not support insertGetId"))
  }

  // ---- rendering lemmas ----------------------------------------------------

  lemma {:induction false} RenderTextAppend(a: seq<Piece>, b: seq<Piece>, inline: bool)
    ensures Render(a + b, inline) == Render(a, inline) + Render(b, inline)
    decreases |a|
  {
    if a != [] {
      RenderTextAppend(a[1..], b, inline);
      assert (a + b)[0] == a[0];
      assert (a + b)[1..] == a[1..] + b;
      var x := PieceSql(a[0], inline);
      assert Render(a + b, inline) == x + (Render(a[1..], inline) + Render(b, inline));
    } else {
      assert a + b == b;
    }
  }

  lemma {:induction false} ParamsAppend(a: seq<Piece>, b: seq<Piece>)
    ensures Params(a + b) == Params(a) + Params(b)
    decreases |a|
  {
    if a != [] {
      ParamsAppend(a[1..], b);
      assert (a + b)[0] == a[0];
      assert (a + b)[1..] == a[1..] + b;
      var y: seq<Value> := if a[0].Param? then [a[0].value] else [];
      assert Params(a + b) == y + (Params(a[1..]) + Params(b));
    } else {
      assert a + b == b;
    }
  }

  /** Rendering and parameter collection both distribute over concatenation. */
  lemma RenderAppend(a: seq<Piece>, b: seq<Piece>, inline: bool)
    ensures Render(a + b, inline) == Render(a, inline) + Render(b, inline)
    ensures Params(a + b) == Params(a) + Params(b)
  {
    RenderTextAppend(a, b, inline);
    ParamsAppend(a, b);
  }

  predicate NoMarkInText(ps: seq<Piece>) {
    forall i :: 0 <= i < |ps| && ps[i].Sql? ==> '?' !in ps[i].text
  }

  lemma {:induction false} SubstituteUnmarked(a: string, rest: string, bindings: seq<Value>)
    requires '?' !in a
    ensures Substitute(a + rest, bindings) == a + Substitute(rest, bindings)
    decreases |a|
  {
    if a != [] {
      assert a == [a[0]] + a[1..];
      assert a[0] in a;
      assert (a + rest)[0] == a[0];
      assert (a + rest)[1..] == a[1..] + rest;
      SubstituteUnmarked(a[1..], rest, bindings);
    } else {
      assert a + rest == rest;
    }
  }

  /** Substituting the bindings into the placeholder SQL puts each value at its
      own placeholder, provided no fixed text holds a `?` of its own. */
  lemma {:induction false} SubstituteRender(ps: seq<Piece>)
    requires NoMarkInText(ps)
    ensures Substitute(Render(ps, false), Params(ps)) == Render(ps, true)
    decreases |ps|
  {
    if ps != [] {
      var tail := ps[1..];
      assert NoMarkInText(tail) by {
        forall i | 0 <= i < |tail| && tail[i].Sql? ensures '?' !in tail[i].text {
          assert tail[i] == ps[i + 1];
        }
      }
      SubstituteRender(tail);
      match ps[0]
      case Sql(text) =>
        assert Params(ps) == Params(tail);
        SubstituteUnmarked(text, Render(tail, false), Params(tail));
      case Param(v) =>
        assert Params(ps) == [v] + Params(tail);
        assert ("?" + Render(tail, false))[1..] == Render(tail, false);
    }
  }

  /** `toRawSql()` is the inline rendering: every bound value appears as its
      literal exactly where `toSql()` has its placeholder. */
  lemma RawSqlInlinesBindings(q: Query)
    requires CompileSelect(q).Ok? && NoMarkInText(CompileSelect(q).value)
    ensures ToRawSql(q) == Ok(Render(CompileSelect(q).value, true))
  {
    SubstituteRender(CompileSelect(q).value);
  }

  lemma {:induction false} RenderWithoutParams(ps: seq<Piece>)
    requires Params(ps) == []
    ensures Render(ps, true) == Render(ps, false)
    decreases |ps|
  {
    if ps != [] {
      assert !ps[0].Param?;
      assert Params(ps[1..]) == [];
      RenderWithoutParams(ps[1..]);
    }
  }

  lemma {:induction false} SubstituteNothing(sql: string)
    ensures Substitute(sql, []) == sql
    decreases |sql|
  {
    if sql != [] {
      SubstituteNothing(sql[1..]);
    }
  }

  /** A query without bindings renders the same raw and with placeholders. */
  lemma RawSqlWithoutBindings(q: Query)
    requires Bindings(q) == Ok([])
    ensures ToRawSql(q) == ToSql(q)
  {
    SubstituteNothing(Render(CompileSelect(q).value, false));
  }

  // ---- index hints ---------------------------------------------------------

  /** `forceIndex(n)` puts ` @{FORCE_INDEX=n}` right after the back-quoted table
      and leaves the rest of the SQL as the un-hinted query renders it. */
  lemma ForceIndexFollowsTable(q: Query, n: string)
    ensures var plain := ToSql(q.(indexHint := None));
      var hinted := ToSql(q.(indexHint := Some(IndexHint(ForceHint, n))));
      var head := SelectHead(q);
      plain.Ok? == hinted.Ok?
      && (plain.Ok? ==>
            |head| <= |plain.value| && plain.value[..|head|] == head
            && hinted.value == head + ForceIndexSql(n) + plain.value[|head|..])
  {
    var p := q.(indexHint := None);
    var h := q.(indexHint := Some(IndexHint(ForceHint, n)));
    if CompileWheres(q.wheres, true).Ok? {
      var wheres := CompileWheres(q.wheres, true).value;
      var rest := (if q.wheres == [] then [] else [Sql(" where ")] + wheres) + CompileOrders(q.orders);
      var head := SelectHead(q);
      assert SelectHead(p) == head && SelectHead(h) == head;
      assert head + "" == head;
      assert CompileSelect(p).value == [Sql(head)] + rest;
      assert CompileSelect(h).value == [Sql(head + ForceIndexSql(n))] + rest;
      RenderAppend([Sql(head)], rest, false);
      RenderAppend([Sql(head + ForceIndexSql(n))], rest, false);
      assert Render([Sql(head)], false) == head;
    }
  }

  /** `useIndex` and `ignoreIndex` make the query fail to render, with the
      message naming the hint kind, whatever else the query holds. */
  lemma UnsupportedHintFails(q: Query, k: HintKind, n: string)
    requires k != ForceHint
    ensures ToSql(q.(indexHint := Some(IndexHint(k, n))))
         == Err(UnsupportedFeature("Cloud Spanner does not support index type: " + HintKindName(k)))
    ensures ToRawSql(q.(indexHint := Some(IndexHint(k, n)))).Err?
  {
  }

  /** The query, or one of its `exists` subqueries, carries a hint other than force. */
  predicate HasUnsupportedHint(q: Query)
    decreases q
  {
    || (q.indexHint.Some? && q.indexHint.value.kind != ForceHint)
    || HasUnsupportedHintIn(q.wheres)
  }

  predicate HasUnsupportedHintIn(ws: seq<Where>)
    decreases ws
  {
    ws != [] && (WhereHasUnsupportedHint(ws[0]) || HasUnsupportedHintIn(ws[1..]))
  }

  predicate WhereHasUnsupportedHint(w: Where)
    decreases w
  {
    w.Exists? && HasUnsupportedHint(w.query)
  }

  /** Rendering fails exactly when some (sub)query asks for an unsupported hint:
      no other part of a query can make `toSql()` fail. */
  lemma {:induction false} CompileSelectFailsIffUnsupportedHint(q: Query)
    ensures CompileSelect(q).Err? <==> HasUnsupportedHint(q)
    decreases q
  {
    CompileWheresFailsIffUnsupportedHint(q.wheres, true);
  }

  lemma {:induction false} CompileWheresFailsIffUnsupportedHint(ws: seq<Where>, first: bool)
    ensures CompileWheres(ws, first).Err? <==> HasUnsupportedHintIn(ws)
    decreases ws
  {
    if ws != [] {
      CompileWheresFailsIffUnsupportedHint(ws[1..], false);
      CompileWhereFailsIffUnsupportedHint(ws[0]);
    }
  }

  lemma {:induction false} CompileWhereFailsIffUnsupportedHint(w: Where)
    ensures CompileWhere(w).Err? <==> WhereHasUnsupportedHint(w)
    decreases w
  {
    if w.Exists? {
      CompileSelectFailsIffUnsupportedHint(w.query);
    }
  }

  lemma ToSqlFailsIffUnsupportedHint(q: Query)
    ensures ToSql(q).Err? <==> HasUnsupportedHint(q)
    ensures ToRawSql(q).Err? <==> HasUnsupportedHint(q)
  {
    CompileSelectFailsIffUnsupportedHint(q);
  }

  // ---- locks and data boost ------------------------------------------------

  /** The query with the lock and data-boost settings cleared, in every subquery too. */
  function WithoutOptions(q: Query): Query
    decreases q
  {
    q.(lock := Unlocked, dataBoost := false, wheres := WheresWithoutOptions(q.wheres))
  }

  function WheresWithoutOptions(ws: seq<Where>): (r: seq<Where>)
    decreases ws
  {
    if ws == [] then []
    else
      [WhereWithoutOptions(ws[0])] + WheresWithoutOptions(ws[1..])
  }

  function WhereWithoutOptions(w: Where): (r: Where)
    ensures r.boolean == w.boolean && r.Exists? == w.Exists?
    decreases w
  {
    match w
    case Exists(b, sub, negated) => Exists(b, WithoutOptions(sub), negated)
    case other => other
  }

  /** Lock requests and the data-boost flag never reach the SQL: Cloud Spanner
      takes locks through its transactions, and data boost is a request option. */
  lemma {:induction false} CompileSelectIgnoresOptions(q: Query)
    ensures CompileSelect(WithoutOptions(q)) == CompileSelect(q)
    decreases q
  {
    CompileWheresIgnoresOptions(q.wheres, true);
    var s := WithoutOptions(q);
    assert SelectHead(s) == SelectHead(q);
    assert (s.wheres == []) == (q.wheres == []);
  }

  lemma {:induction false} CompileWheresIgnoresOptions(ws: seq<Where>, first: bool)
    ensures CompileWheres(WheresWithoutOptions(ws), first) == CompileWheres(ws, first)
    decreases ws
  {
    if ws != [] {
      var s := WheresWithoutOptions(ws);
      assert s[0].boolean == ws[0].boolean;
      assert s[1..] == WheresWithoutOptions(ws[1..]);
      CompileWheresIgnoresOptions(ws[1..], false);
      CompileWhereIgnoresOptions(ws[0]);
    }
  }

  lemma {:induction false} CompileWhereIgnoresOptions(w: Where)
    ensures CompileWhere(WhereWithoutOptions(w)) == CompileWhere(w)
    decreases w
  {
    if w.Exists? {
      CompileSelectIgnoresOptions(w.query);
    }
  }

  /** `lock()`, `lockForUpdate()` and `sharedLock()` leave both renderings unchanged. */
  lemma LockIsDropped(q: Query, l: Lock)
    ensures ToSql(q.(lock := l)) == ToSql(q)
    ensures ToRawSql(q.(lock := l)) == ToRawSql(q)
  {
    CompileSelectIgnoresOptions(q);
    CompileSelectIgnoresOptions(q.(lock := l));
    assert WithoutOptions(q.(lock := l)) == WithoutOptions(q);
  }

  /** `useDataBoost(…)` changes no rendering either. */
  lemma DataBoostIsNotRendered(q: Query, enabled: bool)
    ensures ToSql(q.(dataBoost := enabled)) == ToSql(q)
    ensures ToRawSql(q.(dataBoost := enabled)) == ToRawSql(q)
  {
    CompileSelectIgnoresOptions(q);
    CompileSelectIgnoresOptions(q.(dataBoost := enabled));
    assert WithoutOptions(q.(dataBoost := enabled)) == WithoutOptions(q);
  }

  // ---- single comparisons ----------------------------------------------------

  function ComparisonQuery(table: string, column: string, operator: string, v: Value): Query {
    TableQuery(table).(wheres := [Basic(And, column, operator, v)])
  }

  lemma ComparisonPieces(table: string, column: string, operator: string, v: Value)
    ensures CompileSelect(ComparisonQuery(table, column, operator, v))
         == Ok([Sql("select * from " + Wrap(table)), Sql(" where "), Sql(Wrap(column) + " " + operator + " "), Param(v)])
  {
    var q := ComparisonQuery(table, column, operator, v);
    var select := "select * from " + Wrap(table);
    var clause := [Sql(Wrap(column) + " " + operator + " "), Param(v)];
    assert SelectHead(q) == select;
    assert select + "" == select;
    assert q.wheres[1..] == [];
    assert CompileWhere(q.wheres[0]) == Ok(clause);
    assert CompileWheres(q.wheres, true) == Ok([] + clause + []);
    assert [] + clause + [] == clause;
    assert CompileIndexHint(q.indexHint) == Ok("");
    assert CompileOrders(q.orders) == [];
    assert CompileSelect(q) == Ok([Sql(select)] + ([Sql(" where ")] + clause) + []);
    assert [Sql(select)] + ([Sql(" where ")] + clause) + []
        == [Sql(select), Sql(" where "), Sql(Wrap(column) + " " + operator + " "), Param(v)];
  }

  lemma RenderOne(p: Piece, inline: bool)
    ensures Render([p], inline) == PieceSql(p, inline)
    ensures Params([p]) == if p.Param? then [p.value] else []
  {
    assert [p][1..] == [];
  }

  lemma RenderComparison(a: string, b: string, c: string, v: Value, inline: bool)
    ensures Render([Sql(a), Sql(b), Sql(c), Param(v)], inline) == a + b + c + PieceSql(Param(v), inline)
    ensures Params([Sql(a), Sql(b), Sql(c), Param(v)]) == [v]
  {
    var ps := [Sql(a), Sql(b), Sql(c), Param(v)];
    assert ps == [Sql(a)] + [Sql(b)] + [Sql(c)] + [Param(v)];
    RenderOne(Sql(a), inline);
    RenderOne(Sql(b), inline);
    RenderOne(Sql(c), inline);
    RenderOne(Param(v), inline);
    RenderAppend([Sql(a)], [Sql(b)], inline);
    RenderAppend([Sql(a)] + [Sql(b)], [Sql(c)], inline);
    RenderAppend([Sql(a)] + [Sql(b)] + [Sql(c)], [Param(v)], inline);
  }

  /** `table(t)->where(column, operator, v)`: the placeholder SQL binds `v` once,
      and the raw SQL writes the back-quoted column, the operator and the
      literal of `v` in the placeholder's place. */
  lemma ComparisonSql(table: string, column: string, operator: string, v: Value)
    requires '?' !in table && '?' !in column && '?' !in operator
    ensures var q := ComparisonQuery(table, column, operator, v);
      var head := "select * from " + Wrap(table) + " where " + Wrap(column) + " " + operator + " ";
      && ToSql(q) == Ok(head + "?")
      && Bindings(q) == Ok([v])
      && ToRawSql(q) == Ok(head + Literal(v))
  {
    var q := ComparisonQuery(table, column, operator, v);
    var select := "select * from " + Wrap(table);
    var cmp := Wrap(column) + " " + operator + " ";
    ComparisonPieces(table, column, operator, v);
    RenderComparison(select, " where ", cmp, v, false);
    RenderComparison(select, " where ", cmp, v, true);
    NoMarkInComparison(table, column, operator);
    NoMarkInPieces(select, " where ", cmp, v);
    RawSqlInlinesBindings(q);
    ComparisonHead(Wrap(table), Wrap(column), operator);
  }

  lemma NoMarkInPieces(a: string, b: string, c: string, v: Value)
    requires '?' !in a && '?' !in b && '?' !in c
    ensures NoMarkInText([Sql(a), Sql(b), Sql(c), Param(v)])
  {
    var ps := [Sql(a), Sql(b), Sql(c), Param(v)];
    forall i | 0 <= i < |ps| && ps[i].Sql?
      ensures '?' !in ps[i].text
    {
      assert i < 3;
    }
  }

  lemma ComparisonHead(t: string, c: string, operator: string)
    ensures "select * from " + t + " where " + (c + " " + operator + " ")
         == "select * from " + t + " where " + c + " " + operator + " "
  {
  }

  lemma NoMarkInComparison(table: string, column: string, operator: string)
    requires '?' !in table && '?' !in column && '?' !in operator
    ensures '?' !in "select * from " + Wrap(table)
    ensures '?' !in Wrap(column) + " " + operator + " "
    ensures '?' !in " where "
  {
    assert forall i :: 0 <= i < |"select * from "| ==> "select * from "[i] != '?';
    assert forall i :: 0 <= i < |" where "| ==> " where "[i] != '?';
  }
}
