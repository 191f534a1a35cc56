/** The blueprint object a migration callback drives: each call appends a column
    or a command, `create()` marks the table as new, and `toSql` translates what
    was recorded. */
module Blueprints {
  import opened Common
  import opened Text
  import opened Codec
  import opened SchemaTypes
  import opened SchemaGrammar

  class Blueprint {
    var table: string
    var columns: seq<Column>
    var commands: seq<Command>

    function State(): BlueprintState
      reads this
    {
      BlueprintState(table, columns, commands)
    }

    function Creating(): bool
      reads this
    {
      SchemaGrammar.Creating(State())
    }

    /** `Blueprint::toSql`. */
    function ToSql(): Result<seq<string>>
      reads this
    {
      SchemaGrammar.ToSql(State())
    }

    constructor (name: string)
      ensures State() == BlueprintState(name, [], [])
      ensures !Creating() && ToSql() == Ok([])
    {
      table := name;
      columns := [];
      commands := [];
    }

    /** `create()`: the table is to be created, by a statement rendered in this place. */
    method Create()
      modifies this
      ensures State() == old(State()).(commands := old(commands) + [SchemaGrammar.Create])
      ensures Creating()
      ensures (forall i :: 0 <= i < |old(commands)| ==> FeedsCreate(old(commands)[i])) && old(CreateTableSql(State())).Ok?
        ==> ToSql() == Ok([old(CreateTableSql(State())).value])
    {
      if forall i :: 0 <= i < |commands| ==> FeedsCreate(commands[i]) {
        CreateAfterDeclarations(State());
      }
      commands := commands + [SchemaGrammar.Create];
      assert commands[|commands| - 1].Create?;
    }

    /** One column declaration (`uuid`, `integer`, `string`, … with its fluent
        modifiers). Outside a create it yields exactly one `alter table` statement. */
    method AddColumn(c: Column)
      modifies this
      ensures State() == old(State()).(columns := old(columns) + [c], commands := old(commands) + [ColumnCommand(c)])
      ensures Creating() == old(Creating())
      ensures !old(Creating()) && old(ToSql()).Ok? && ColumnSql(c).Ok? ==>
        ToSql() == Ok(old(ToSql()).value
                      + [AlterTable(table) + (if c.change then " alter column " else " add column ") + ColumnSql(c).value])
      ensures !old(Creating()) && ColumnSql(c).Err? ==> ToSql().Err?
    {
      if !Creating() {
        AppendColumnOutsideCreate(State(), c);
      }
      CreatingAppend(State(), ColumnCommand(c));
      columns := columns + [c];
      commands := commands + [ColumnCommand(c)];
    }

    /** `timestamps()`: nullable `created_at` and `updated_at` timestamp columns. */
    method Timestamps()
      modifies this
      ensures var created := PlainColumn("created_at", Timestamp).(nullable := true);
        var updated := PlainColumn("updated_at", Timestamp).(nullable := true);
        State() == old(State()).(columns := old(columns) + [created, updated],
                                 commands := old(commands) + [ColumnCommand(created), ColumnCommand(updated)])
      ensures Creating() == old(Creating())
    {
      var created := PlainColumn("created_at", Timestamp).(nullable := true);
      var updated := PlainColumn("updated_at", Timestamp).(nullable := true);
      AddColumn(created);
      AddColumn(updated);
      assert old(columns) + [created] + [updated] == old(columns) + [created, updated];
      assert old(commands) + [ColumnCommand(created)] + [ColumnCommand(updated)]
          == old(commands) + [ColumnCommand(created), ColumnCommand(updated)];
    }

    /** Records a command that feeds the create statement only. */
    method RecordCreateOnly(c: Command)
      requires c.Primary? || c.InterleaveInParent? || c.RowDeletionPolicy?
      modifies this
      ensures State() == old(State()).(commands := old(commands) + [c])
      ensures Creating() == old(Creating())
      ensures !old(Creating()) ==> ToSql() == old(ToSql())
    {
      CreatingAppend(State(), c);
      if !Creating() {
        AppendCreateOnlyOutsideCreate(State(), c);
      }
      commands := commands + [c];
    }

    /** `primary(columns)`. */
    method Primary(keys: seq<string>)
      modifies this
      ensures State() == old(State()).(commands := old(commands) + [SchemaGrammar.Primary(keys)])
      ensures !old(Creating()) ==> ToSql() == old(ToSql())
    {
      RecordCreateOnly(SchemaGrammar.Primary(keys));
    }

    /** `interleaveInParent(parent)`, with `->cascadeOnDelete()` when `cascade`. */
    method InterleaveInParent(parent: string, cascade: bool)
      modifies this
      ensures State() == old(State()).(commands := old(commands) + [SchemaGrammar.InterleaveInParent(parent, cascade)])
      ensures !old(Creating()) ==> ToSql() == old(ToSql())
    {
      RecordCreateOnly(SchemaGrammar.InterleaveInParent(parent, cascade));
    }

    /** `deleteRowsOlderThan(column, days)`: the policy of a table being created. */
    method DeleteRowsOlderThan(column: string, days: nat)
      modifies this
      ensures State() == old(State()).(commands := old(commands) + [RowDeletionPolicy(column, days)])
      ensures !old(Creating()) ==> ToSql() == old(ToSql())
    {
      RecordCreateOnly(RowDeletionPolicy(column, days));
    }

    /** Records a command with statements of its own; they follow every earlier one. */
    method Record(c: Command)
      requires Standalone(c)
      modifies this
      ensures State() == old(State()).(commands := old(commands) + [c])
      ensures Creating() == old(Creating())
      ensures ToSql() == Then(old(ToSql()), CommandSql(table, old(Creating()), CreateTableSql(old(State())), c))
    {
      AppendStandalone(State(), c);
      CreatingAppend(State(), c);
      commands := commands + [c];
    }

    /** `index(columns)` / `unique(columns)` with `->nullFiltered()`, `->storing(...)`
        and `->interleaveIn(parent)`; `name` is the explicit index name, if any. */
    method Index(keys: seq<string>, unique: bool, nullFiltered: bool, name: Option<string>,
                 storing: seq<string>, interleaveIn: Option<string>)
      modifies this
      ensures var c := CreateIndex(keys, unique, nullFiltered, name, storing, interleaveIn);
        && State() == old(State()).(commands := old(commands) + [c])
        && (old(ToSql()).Ok? ==> ToSql() == Ok(old(ToSql()).value + [CreateIndexSql(table, c)]))
    {
      Record(CreateIndex(keys, unique, nullFiltered, name, storing, interleaveIn));
    }

    /** `dropIndex(name)`; `dropUnique(name)` records the same command. */
    method DropIndex(name: string)
      modifies this
      ensures State() == old(State()).(commands := old(commands) + [SchemaGrammar.DropIndex(name)])
      ensures old(ToSql()).Ok? ==> ToSql() == Ok(old(ToSql()).value + ["drop index " + Wrap(name)])
    {
      Record(SchemaGrammar.DropIndex(name));
    }

    /** `dropColumn(names)`: one `drop column` statement per name. */
    method DropColumn(names: seq<string>)
      modifies this
      ensures State() == old(State()).(commands := old(commands) + [DropColumns(names)])
      ensures old(ToSql()).Ok? ==> ToSql() == Ok(old(ToSql()).value + DropColumnsSql(table, names))
    {
      Record(DropColumns(names));
    }

    /** `dropForeign(name)`. */
    method DropForeign(name: string)
      modifies this
      ensures State() == old(State()).(commands := old(commands) + [SchemaGrammar.DropForeign(name)])
      ensures old(ToSql()).Ok? ==>
        ToSql() == Ok(old(ToSql()).value + [AlterTable(table) + " drop constraint " + Wrap(name)])
    {
      Record(SchemaGrammar.DropForeign(name));
    }

    /** `drop()`. */
    method Drop()
      modifies this
      ensures State() == old(State()).(commands := old(commands) + [SchemaGrammar.Drop])
      ensures old(ToSql()).Ok? ==> ToSql() == Ok(old(ToSql()).value + ["drop table " + Wrap(table)])
    {
      Record(SchemaGrammar.Drop);
    }

    /** `dropIfExists()`. */
    method DropIfExists()
      modifies this
      ensures State() == old(State()).(commands := old(commands) + [SchemaGrammar.DropIfExists])
      ensures old(ToSql()).Ok? ==> ToSql() == Ok(old(ToSql()).value + ["drop table if exists " + Wrap(table)])
    {
      Record(SchemaGrammar.DropIfExists);
    }

    /** `addRowDeletionPolicy(column, days)`. */
    method AddRowDeletionPolicy(column: string, days: nat)
      modifies this
      ensures State() == old(State()).(commands := old(commands) + [SchemaGrammar.AddRowDeletionPolicy(column, days)])
      ensures old(ToSql()).Ok? ==>
        ToSql() == Ok(old(ToSql()).value + [AlterTable(table) + " add row deletion policy " + OlderThan(Wrap(column), days)])
    {
      Record(SchemaGrammar.AddRowDeletionPolicy(column, days));
    }

    /** `replaceRowDeletionPolicy(column, days)`. */
    method ReplaceRowDeletionPolicy(column: string, days: nat)
      modifies this
      ensures State() == old(State()).(commands := old(commands) + [SchemaGrammar.ReplaceRowDeletionPolicy(column, days)])
      ensures old(ToSql()).Ok? ==>
        ToSql() == Ok(old(ToSql()).value + [AlterTable(table) + " replace row deletion policy " + OlderThan(Wrap(column), days)])
    {
      Record(SchemaGrammar.ReplaceRowDeletionPolicy(column, days));
    }

    /** `dropRowDeletionPolicy()`. */
    method DropRowDeletionPolicy()
      modifies this
      ensures State() == old(State()).(commands := old(commands) + [SchemaGrammar.DropRowDeletionPolicy])
      ensures old(ToSql()).Ok? ==> ToSql() == Ok(old(ToSql()).value + [AlterTable(table) + " drop row deletion policy"])
    {
      Record(SchemaGrammar.DropRowDeletionPolicy);
    }
  }
}
