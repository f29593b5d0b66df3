/** A table (`Table.php`): a name, the `timestamps` and `softDelete` flags, and the
    columns and foreign keys in the order they were added. The value record
    `TableState` says what each operation does; the class `Table` holds references
    to the `Column` and `ForeignKey` objects and performs the operations in place. */
module Tables {
  import opened Support
  import Naming
  import Columns
  import ForeignKeys

  /** Some column of the list has exactly this name. */
  predicate HasColumn(columns: seq<Columns.ColumnState>, name: string)
  {
    exists i :: 0 <= i < |columns| && columns[i].name == name
  }

  datatype TableState = TableState(
    name: string,
    timestamps: bool,
    softDelete: bool,
    columns: seq<Columns.ColumnState>,
    foreignKeys: seq<ForeignKeys.KeyState>)
  {
    /** Accepts exactly the names `Table::validateName` accepts; a rejected name
        changes nothing. */
    function SetName(newName: string): (r: TableStep)
      ensures r.outcome.Pass? <==> Naming.ValidTableName(newName)
      ensures r.outcome.Fail? ==> r.state == this && r.outcome.error == InvalidTableName
      ensures r.outcome.Pass? ==> r.state == this.(name := newName)
    {
      if !Naming.ValidTableName(newName) then TableStep(this, Fail(InvalidTableName))
      else TableStep(this.(name := newName), Pass)
    }

    /** Appends the column; there is no check for a name already present. */
    function AddColumn(c: Columns.ColumnState): (r: TableState)
      ensures |r.columns| == |columns| + 1 && r.columns[|columns|] == c
      ensures r.columns[..|columns|] == columns
      ensures r.name == name && r.timestamps == timestamps && r.softDelete == softDelete
      ensures r.foreignKeys == foreignKeys
    {
      this.(columns := columns + [c])
    }

    /** Appends the key when its referencing column is on the table; otherwise the
        table is left as it was. */
    function AddForeignKey(k: ForeignKeys.KeyState): (r: TableStep)
      ensures r.outcome.Pass? <==> HasColumn(columns, k.column)
      ensures r.outcome.Fail? ==> r.state == this && r.outcome.error == MissingColumn(k.column)
      ensures r.outcome.Pass? ==> r.state == this.(foreignKeys := foreignKeys + [k])
    {
      if !HasColumn(columns, k.column) then TableStep(this, Fail(MissingColumn(k.column)))
      else TableStep(this.(foreignKeys := foreignKeys + [k]), Pass)
    }

    /** Every foreign key's referencing column is a column of the table. */
    predicate KeysResolved()
    {
      forall i :: 0 <= i < |foreignKeys| ==> HasColumn(columns, foreignKeys[i].column)
    }
  }

  /** The table after an operation, and whether it threw. */
  datatype TableStep = TableStep(state: TableState, outcome: Outcome)

  /** The constructor's option array; `None` is an absent key. */
  datatype TableOptions = TableOptions(timestamps: Option<bool>, softDelete: Option<bool>)

  const NoTableOptions := TableOptions(None, None)

  /** `new Table($name, $options)`: a checked name, `timestamps` on and `softDelete`
      off unless the options say otherwise, and no columns or keys. */
  function Construct(name: string, options: TableOptions): Result<TableState>
  {
    var named := TableState("", true, false, [], []).SetName(name);
    if named.outcome.Fail? then Failure(named.outcome.error)
    else
      var withTimestamps :=
        if options.timestamps.Some? then named.state.(timestamps := options.timestamps.value) else named.state;
      var withSoftDelete :=
        if options.softDelete.Some? then withTimestamps.(softDelete := options.softDelete.value) else withTimestamps;
      Success(withSoftDelete)
  }

  // ---------------------------------------------------------------------------
  // Properties

  /** A new table is empty, has its defaults unless an option overrides them, and
      exists exactly when its name is valid. */
  lemma ConstructedTable(name: string, options: TableOptions)
    ensures Construct(name, options).Success? <==> Naming.ValidTableName(name)
    ensures !Naming.ValidTableName(name) ==> Construct(name, options) == Failure(InvalidTableName)
    ensures Construct(name, options).Success? ==>
      var t := Construct(name, options).value;
      && t.name == name && t.columns == [] && t.foreignKeys == []
      && t.timestamps == (if options.timestamps.Some? then options.timestamps.value else true)
      && t.softDelete == (if options.softDelete.Some? then options.softDelete.value else false)
      && t.KeysResolved()
  {
  }

  /** A column name found before an append is found after it; the appended name is found too. */
  lemma {:induction false} HasColumnAppend(columns: seq<Columns.ColumnState>, c: Columns.ColumnState, name: string)
    ensures HasColumn(columns + [c], name) <==> HasColumn(columns, name) || c.name == name
  {
    var grown := columns + [c];
    if HasColumn(columns, name) {
      var i :| 0 <= i < |columns| && columns[i].name == name;
      assert grown[i] == columns[i];
    }
    if c.name == name {
      assert grown[|columns|] == c;
    }
    if HasColumn(grown, name) {
      var i :| 0 <= i < |grown| && grown[i].name == name;
      if i < |columns| {
        assert columns[i] == grown[i];
      }
    }
  }

  /** Columns only grow, so adding one keeps every key resolved. */
  lemma AddColumnKeepsResolved(t: TableState, c: Columns.ColumnState)
    requires t.KeysResolved()
    ensures t.AddColumn(c).KeysResolved()
  {
    forall i | 0 <= i < |t.foreignKeys|
      ensures HasColumn(t.columns + [c], t.foreignKeys[i].column)
    {
      HasColumnAppend(t.columns, c, t.foreignKeys[i].column);
    }
  }

  /** A key that is accepted keeps every key resolved. */
  lemma AddForeignKeyKeepsResolved(t: TableState, k: ForeignKeys.KeyState)
    requires t.KeysResolved()
    ensures t.AddForeignKey(k).state.KeysResolved()
  {
    var grown := t.foreignKeys + [k];
    if HasColumn(t.columns, k.column) {
      forall i | 0 <= i < |grown|
        ensures HasColumn(t.columns, grown[i].column)
      {
        if i < |t.foreignKeys| {
          assert grown[i] == t.foreignKeys[i];
        }
      }
    }
  }

  /** An operation of the table's public interface. */
  datatype TableCall =
    | CallSetName(name: string)
    | CallSetTimestamps(timestamps: bool)
    | CallSetSoftDelete(softDelete: bool)
    | CallAddColumn(column: Columns.ColumnState)
    | CallAddForeignKey(foreignKey: ForeignKeys.KeyState)

  function Perform(t: TableState, call: TableCall): TableState
  {
    match call
    case CallSetName(n) => t.SetName(n).state
    case CallSetTimestamps(b) => t.(timestamps := b)
    case CallSetSoftDelete(b) => t.(softDelete := b)
    case CallAddColumn(c) => t.AddColumn(c)
    case CallAddForeignKey(k) => t.AddForeignKey(k).state
  }

  /** The table after a series of operations, each exception caught by the caller. */
  function PerformAll(t: TableState, calls: seq<TableCall>): TableState
    decreases calls
  {
    if calls == [] then t else PerformAll(Perform(t, calls[0]), calls[1..])
  }

  /** Whatever a table goes through, every foreign key names one of its columns. */
  lemma {:induction false} PerformAllKeepsResolved(t: TableState, calls: seq<TableCall>)
    requires t.KeysResolved()
    ensures PerformAll(t, calls).KeysResolved()
    decreases calls
  {
    if calls != [] {
      match calls[0] {
        case CallAddColumn(c) => AddColumnKeepsResolved(t, c);
        case CallAddForeignKey(k) => AddForeignKeyKeepsResolved(t, k);
        case _ =>
      }
      PerformAllKeepsResolved(Perform(t, calls[0]), calls[1..]);
    }
  }

  /** The example table: two columns both named `id` are accepted, and a key on
      `id` is then accepted while a key on a missing column is not. */
  lemma DuplicateColumnNames(t: TableState, first: Columns.ColumnState, second: Columns.ColumnState,
                             k: ForeignKeys.KeyState)
    requires first.name == "id" && second.name == "id" && k.column == "id"
    ensures |t.AddColumn(first).AddColumn(second).columns| == |t.columns| + 2
    ensures t.AddColumn(first).AddColumn(second).AddForeignKey(k).outcome == Pass
    ensures t.AddForeignKey(k.(column := "missing")).outcome.Fail? <==> !HasColumn(t.columns, "missing")
  {
    HasColumnAppend(t.columns, first, "id");
    HasColumnAppend(t.columns + [first], second, "id");
  }

  // ---------------------------------------------------------------------------
  // The class

  class Table {
    var name: string
    var timestamps: bool
    var softDelete: bool
    var columns: seq<Columns.Column>
    var foreignKeys: seq<ForeignKeys.ForeignKey>

    /** The table as a value, including the current state of each column and key. */
    function Value(): TableState
      reads this, set c | c in columns, set k | k in foreignKeys
    {
      TableState(name, timestamps, softDelete, Columns.States(columns), ForeignKeys.KeyStates(foreignKeys))
    }

    /** The object with its property defaults, before the name is set. */
    constructor Blank()
      ensures name == "" && timestamps && !softDelete && columns == [] && foreignKeys == []
    {
      name, timestamps, softDelete := "", true, false;
      columns, foreignKeys := [], [];
    }

    /** `new Table($name, $options)`. */
    static method New(name: string, options: TableOptions) returns (r: Result<Table>)
      ensures r.Success? ==> fresh(r.value) && Construct(name, options) == Success(r.value.Value())
      ensures r.Success? ==> r.value.columns == [] && r.value.foreignKeys == []
      ensures r.Failure? ==> Construct(name, options) == Failure(r.error)
    {
      var t := new Table.Blank();
      var o := t.SetName(name);
      if o.Fail? { return Failure(o.error); }
      if options.timestamps.Some? {
        t.SetTimestamps(options.timestamps.value);
      }
      if options.softDelete.Some? {
        t.SetSoftDelete(options.softDelete.value);
      }
      t.columns, t.foreignKeys := [], [];
      return Success(t);
    }

    method SetName(newName: string) returns (r: Outcome)
      modifies this`name
      ensures Value() == old(Value()).SetName(newName).state
      ensures r == old(Value()).SetName(newName).outcome
    {
      if !Naming.ValidTableName(newName) {
        return Fail(InvalidTableName);
      }
      name := newName;
      return Pass;
    }

    method SetTimestamps(on: bool)
      modifies this`timestamps
      ensures Value() == old(Value()).(timestamps := on)
    {
      timestamps := on;
    }

    method SetSoftDelete(on: bool)
      modifies this`softDelete
      ensures Value() == old(Value()).(softDelete := on)
    {
      softDelete := on;
    }

    /** `addColumn`: the very object is appended, so later changes to it show in the table. */
    method AddColumn(c: Columns.Column)
      modifies this`columns
      ensures columns == old(columns) + [c]
      ensures Value() == old(Value()).AddColumn(c.State())
    {
      columns := columns + [c];
    }

    /** `columnExists`: a scan of the columns in order, stopping at the first exact match. */
    method ColumnExists(columnName: string) returns (found: bool)
      ensures found <==> HasColumn(Columns.States(columns), columnName)
    {
      for i := 0 to |columns|
        invariant forall j :: 0 <= j < i ==> columns[j].name != columnName
      {
        if columns[i].name == columnName {
          assert Columns.States(columns)[i].name == columnName;
          return true;
        }
      }
      return false;
    }

    /** `addForeignKey`: the key is appended only when its column is on the table. */
    method AddForeignKey(k: ForeignKeys.ForeignKey) returns (r: Outcome)
      modifies this`foreignKeys
      ensures r.Pass? ==> foreignKeys == old(foreignKeys) + [k]
      ensures r.Fail? ==> foreignKeys == old(foreignKeys)
      ensures Value() == old(Value()).AddForeignKey(k.State()).state
      ensures r == old(Value()).AddForeignKey(k.State()).outcome
    {
      var present := ColumnExists(k.column);
      if !present {
        return Fail(MissingColumn(k.column));
      }
      foreignKeys := foreignKeys + [k];
      return Pass;
    }
  }
}
