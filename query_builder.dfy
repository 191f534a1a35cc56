/** The query builder as the tests drive it: one object whose hint, lock,
    data-boost, where and order fields are overwritten call by call, and which
    renders itself through the pure grammar. */
module QueryBuilder {
  import opened Common
  import opened Codec
  import opened QueryGrammar

  class Builder {
    var from: string
    var columns: seq<SelectColumn>
    var indexHint: Option<IndexHint>
    var wheres: seq<Where>
    var orders: seq<Order>
    var lock: Lock
    var dataBoost: bool

    /** The builder's fields as the grammar's query value. */
    function State(): Query
      reads this
    {
      Query(from, columns, indexHint, wheres, orders, lock, dataBoost)
    }

    /** `$connection->table(table)`. */
    constructor (table: string)
      ensures State() == TableQuery(table)
    {
      from := table;
      columns := [];
      indexHint := None;
      wheres := [];
      orders := [];
      lock := Unlocked;
      dataBoost := false;
    }

    function ToSql(): Result<string>
      reads this
    {
      QueryGrammar.ToSql(State())
    }

    function ToRawSql(): Result<string>
      reads this
    {
      QueryGrammar.ToRawSql(State())
    }

    function GetBindings(): Result<seq<Value>>
      reads this
    {
      QueryGrammar.Bindings(State())
    }

    /** `dataBoostEnabled()`. */
    function DataBoostEnabled(): bool
      reads this
    {
      dataBoost
    }

    /** `forceIndex(name)`: replaces any earlier hint; `forceIndex(null)` removes it. */
    method ForceIndex(index: Option<string>)
      modifies this
      ensures State() == old(State()).(indexHint := if index.Some? then Some(IndexHint(ForceHint, index.value)) else None)
      ensures index.None? ==> ToSql() == QueryGrammar.ToSql(old(State()).(indexHint := None))
    {
      indexHint := if index.Some? then Some(IndexHint(ForceHint, index.value)) else None;
    }

    /** `useIndex(name)`: accepted here, refused when the query is rendered. */
    method UseIndex(index: string)
      modifies this
      ensures State() == old(State()).(indexHint := Some(IndexHint(UseHint, index)))
      ensures ToSql() == Err(UnsupportedFeature("Cloud Spanner does not support index type: hint"))
    {
      indexHint := Some(IndexHint(UseHint, index));
      UnsupportedHintFails(old(State()), UseHint, index);
      assert "Cloud Spanner does not support index type: " + HintKindName(UseHint)
          == "Cloud Spanner does not support index type: hint";
    }

    /** `ignoreIndex(name)`: accepted here, refused when the query is rendered. */
    method IgnoreIndex(index: string)
      modifies this
      ensures State() == old(State()).(indexHint := Some(IndexHint(IgnoreHint, index)))
      ensures ToSql() == Err(UnsupportedFeature("Cloud Spanner does not support index type: ignore"))
    {
      indexHint := Some(IndexHint(IgnoreHint, index));
      UnsupportedHintFails(old(State()), IgnoreHint, index);
      assert "Cloud Spanner does not support index type: " + HintKindName(IgnoreHint)
          == "Cloud Spanner does not support index type: ignore";
    }

    /** `lock(value)`: recorded, and never rendered. */
    method Lock(value: Lock)
      modifies this
      ensures State() == old(State()).(lock := value)
      ensures ToSql() == old(ToSql()) && ToRawSql() == old(ToRawSql())
    {
      lock := value;
      LockIsDropped(old(State()), value);
    }

    /** `lockForUpdate()`, which is `lock(true)`. */
    method LockForUpdate()
      modifies this
      ensures State() == old(State()).(lock := ForUpdate)
      ensures ToSql() == old(ToSql()) && ToRawSql() == old(ToRawSql())
    {
      Lock(ForUpdate);
    }

    /** `sharedLock()`, which is `lock(false)`. */
    method SharedLock()
      modifies this
      ensures State() == old(State()).(lock := Shared)
      ensures ToSql() == old(ToSql()) && ToRawSql() == old(ToRawSql())
    {
      Lock(Shared);
    }

    /** `useDataBoost(enabled)`: read back by `dataBoostEnabled()`, not rendered. */
    method UseDataBoost(enabled: bool)
      modifies this
      ensures State() == old(State()).(dataBoost := enabled)
      ensures DataBoostEnabled() == enabled
      ensures ToSql() == old(ToSql()) && ToRawSql() == old(ToRawSql())
    {
      dataBoost := enabled;
      DataBoostIsNotRendered(old(State()), enabled);
    }

    /** `selectRaw(sql)`. */
    method SelectRaw(sql: string)
      modifies this
      ensures State() == old(State()).(columns := old(columns) + [RawColumn(sql)])
    {
      columns := columns + [RawColumn(sql)];
    }

    /** `where(column, operator, value)`; the two-argument form uses "=". */
    method Where(column: string, operator: string, value: Value)
      modifies this
      ensures State() == old(State()).(wheres := old(wheres) + [Basic(And, column, operator, value)])
    {
      wheres := wheres + [Basic(And, column, operator, value)];
    }

    /** `whereRaw(sql)`. */
    method WhereRaw(sql: string)
      modifies this
      ensures State() == old(State()).(wheres := old(wheres) + [RawWhere(And, sql)])
    {
      wheres := wheres + [RawWhere(And, sql)];
    }

    /** `whereExists(callback)`: the callback's query is taken as it stands now. */
    method WhereExists(sub: Builder)
      modifies this
      ensures State() == old(State()).(wheres := old(wheres) + [Exists(And, old(sub.State()), false)])
    {
      wheres := wheres + [Exists(And, sub.State(), false)];
    }

    /** `orderBy(column, direction)`. */
    method OrderBy(column: string, direction: Direction)
      modifies this
      ensures State() == old(State()).(orders := old(orders) + [Order(column, direction)])
    {
      orders := orders + [Order(column, direction)];
    }

    /** `orderByDesc(column)`. */
    method OrderByDesc(column: string)
      modifies this
      ensures State() == old(State()).(orders := old(orders) + [Order(column, Desc)])
    {
      OrderBy(column, Desc);
    }

    /** `insertGetId(values)`: always refused, and the builder is left as it was. */
    method InsertGetId(values: seq<(string, Value)>) returns (r: Result<int>)
      ensures r == Err(UnsupportedFeature("Cloud Spanner does not support insertGetId"))
    {
      r := QueryGrammar.InsertGetId(State(), values);
    }
  }
}
