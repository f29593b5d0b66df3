/** A table column (`Column.php`): a name, a type and optional attributes whose
    legality depends on the type through five fixed tables. The value record
    `ColumnState` says what each setter does; the class `Column` holds the same
    fields and performs the setters in place. */
module Columns {
  import opened Support
  import Naming

  // ---------------------------------------------------------------------------
  // The type tables

  const SupportedTypes: seq<string> := [
    "tinyInteger", "smallInteger", "integer", "mediumInteger", "bigInteger",
    "boolean", "decimal", "float", "double",
    "date", "dateTime", "timestamp", "time",
    "string", "char", "tinyText", "text", "mediumText", "longText"]

  const LengthTypes: seq<string> := ["char", "decimal", "double", "float", "string"]

  const FractionTypes: seq<string> := ["decimal", "double", "float"]

  const DefaultValueTypes: seq<string> := [
    "tinyInteger", "smallInteger", "integer", "mediumInteger", "bigInteger",
    "boolean", "decimal", "float", "double",
    "date", "dateTime", "timestamp", "time",
    "string", "char"]

  const AutoIncrementTypes: seq<string> :=
    ["tinyInteger", "smallInteger", "integer", "mediumInteger", "bigInteger"]

  const UnsignedTypes: seq<string> :=
    ["tinyInteger", "smallInteger", "integer", "mediumInteger", "bigInteger"]

  // ---------------------------------------------------------------------------
  // Column values and what the setters do to them

  /** The default value: never set (null), a string given to `setDefaultValue`,
      or the `false` that `setAutoIncrement` stores. */
  datatype DefaultValue = Absent | Given(text: string) | FalseValue

  datatype ColumnState = ColumnState(
    name: string,
    columnType: string,
    length: Option<int>,
    fractional: Option<int>,
    defaultValue: DefaultValue,
    comment: Option<string>,
    autoIncrement: bool,
    nullable: bool,
    unique: bool,
    index: bool,
    unsigned: bool)
  {
    /** Accepts exactly the names `Column::validateName` accepts; a rejected name
        changes nothing. */
    function SetName(newName: string): (r: ColumnStep)
      ensures r.outcome.Pass? <==> Naming.ValidColumnName(newName)
      ensures r.outcome.Fail? ==> r.state == this && r.outcome.error == InvalidColumnName
      ensures r.outcome.Pass? ==> r.state == this.(name := newName)
    {
      if !Naming.ValidColumnName(newName) then ColumnStep(this, Fail(InvalidColumnName))
      else ColumnStep(this.(name := newName), Pass)
    }

    /** Accepts exactly the nineteen listed types; the attributes already set are not
        re-checked against the new type. */
    function SetType(newType: string): (r: ColumnStep)
      ensures r.outcome.Pass? <==> newType in SupportedTypes
      ensures r.outcome.Fail? ==> r.state == this && r.outcome.error == UnsupportedType(newType)
      ensures r.outcome.Pass? ==> r.state == this.(columnType := newType)
    {
      if newType !in SupportedTypes then ColumnStep(this, Fail(UnsupportedType(newType)))
      else ColumnStep(this.(columnType := newType), Pass)
    }

    /** Rejected with nothing changed on a type without a length; a fractional part
        on a type without one is rejected after `length` was already stored. */
    function SetLength(newLength: int, newFractional: Option<int>): (r: ColumnStep)
      ensures r.outcome.Pass? <==>
        columnType in LengthTypes && (newFractional.Some? ==> columnType in FractionTypes)
      ensures columnType !in LengthTypes ==> r.state == this && r.outcome == Fail(LengthNotSupported(columnType))
      ensures columnType in LengthTypes && newFractional.Some? && columnType !in FractionTypes ==>
        r.outcome == Fail(FractionalNotSupported(columnType))
      ensures columnType in LengthTypes ==> r.state.length == Some(newLength)
      ensures r.state.fractional == if r.outcome.Pass? && newFractional.Some? then newFractional else fractional
      ensures r.state.(length := length, fractional := fractional) == this
    {
      if columnType !in LengthTypes then ColumnStep(this, Fail(LengthNotSupported(columnType)))
      else
        var withLength := this.(length := Some(newLength));
        if newFractional.Some? && columnType !in FractionTypes then
          ColumnStep(withLength, Fail(FractionalNotSupported(columnType)))
        else if newFractional.Some? then ColumnStep(withLength.(fractional := newFractional), Pass)
        else ColumnStep(withLength, Pass)
    }

    /** Rejected on a type without a default and whenever auto-increment is on;
        otherwise the value is stored. The argument is a string, so the source's
        `!== null` test always holds. */
    function SetDefaultValue(value: string): (r: ColumnStep)
      ensures r.outcome.Pass? <==> columnType in DefaultValueTypes && !autoIncrement
      ensures r.outcome.Fail? ==> r.state == this
      ensures columnType !in DefaultValueTypes ==> r.outcome == Fail(DefaultValueNotSupported(columnType))
      ensures autoIncrement && columnType in DefaultValueTypes ==> r.outcome == Fail(DefaultValueOnAutoIncrement)
      ensures r.outcome.Pass? ==> r.state == this.(defaultValue := Given(value))
    {
      if columnType !in DefaultValueTypes then ColumnStep(this, Fail(DefaultValueNotSupported(columnType)))
      else if autoIncrement then ColumnStep(this, Fail(DefaultValueOnAutoIncrement))
      else ColumnStep(this.(defaultValue := Given(value)), Pass)
    }

    function SetComment(newComment: string): (r: ColumnStep)
      ensures r.outcome == Pass && r.state == this.(comment := Some(newComment))
    {
      ColumnStep(this.(comment := Some(newComment)), Pass)
    }

    /** Only on the five integer types; then, whatever `on` is, the column is
        unsigned and its default is `false`. */
    function SetAutoIncrement(on: bool): (r: ColumnStep)
      ensures r.outcome.Pass? <==> columnType in AutoIncrementTypes
      ensures r.outcome.Fail? ==> r.state == this && r.outcome.error == AutoIncrementNotSupported(columnType)
      ensures r.outcome.Pass? ==>
        r.state.autoIncrement == on && r.state.unsigned && r.state.defaultValue == FalseValue
      ensures r.state.(autoIncrement := autoIncrement, unsigned := unsigned, defaultValue := defaultValue) == this
    {
      if columnType !in AutoIncrementTypes then ColumnStep(this, Fail(AutoIncrementNotSupported(columnType)))
      else ColumnStep(this.(autoIncrement := on, defaultValue := FalseValue, unsigned := true), Pass)
    }

    function SetNullable(on: bool): (r: ColumnStep)
      ensures r.outcome == Pass && r.state == this.(nullable := on)
    {
      ColumnStep(this.(nullable := on), Pass)
    }

    function SetUnique(on: bool): (r: ColumnStep)
      ensures r.outcome == Pass && r.state == this.(unique := on)
    {
      ColumnStep(this.(unique := on), Pass)
    }

    function SetIndex(on: bool): (r: ColumnStep)
      ensures r.outcome == Pass && r.state == this.(index := on)
    {
      ColumnStep(this.(index := on), Pass)
    }

    /** Only on the five integer types, and never `false` while auto-increment is on. */
    function SetUnsigned(on: bool): (r: ColumnStep)
      ensures r.outcome.Pass? <==> columnType in UnsignedTypes && (on || !autoIncrement)
      ensures r.outcome.Fail? ==> r.state == this
      ensures columnType !in UnsignedTypes ==> r.outcome == Fail(UnsignedNotSupported(columnType))
      ensures columnType in UnsignedTypes && !on && autoIncrement ==> r.outcome == Fail(SignedAutoIncrement)
      ensures autoIncrement && unsigned ==> r.state.unsigned
      ensures r.outcome.Pass? ==> r.state == this.(unsigned := on)
    {
      if columnType !in UnsignedTypes then ColumnStep(this, Fail(UnsignedNotSupported(columnType)))
      else if !on && autoIncrement then ColumnStep(this, Fail(SignedAutoIncrement))
      else ColumnStep(this.(unsigned := on), Pass)
    }

    /** The effect of one setter call. */
    function Apply(call: SetterCall): ColumnStep
    {
      match call
      case CallSetName(n) => this.SetName(n)
      case CallSetType(t) => this.SetType(t)
      case CallSetLength(l, f) => this.SetLength(l, f)
      case CallSetDefaultValue(v) => this.SetDefaultValue(v)
      case CallSetComment(c) => this.SetComment(c)
      case CallSetAutoIncrement(b) => this.SetAutoIncrement(b)
      case CallSetNullable(b) => this.SetNullable(b)
      case CallSetUnique(b) => this.SetUnique(b)
      case CallSetIndex(b) => this.SetIndex(b)
      case CallSetUnsigned(b) => this.SetUnsigned(b)
    }

    /** The two cross-field facts every setter keeps: a fractional part only next
        to a length, and auto-increment only on an unsigned column. */
    predicate Coherent()
    {
      (fractional.Some? ==> length.Some?) && (autoIncrement ==> unsigned)
    }

    /** Every attribute is one the column's type admits. */
    predicate Legal()
    {
      && Naming.ValidColumnName(name)
      && columnType in SupportedTypes
      && (length.Some? ==> columnType in LengthTypes)
      && (fractional.Some? ==> columnType in FractionTypes)
      && (defaultValue != Absent ==> columnType in DefaultValueTypes)
      && (autoIncrement ==> columnType in AutoIncrementTypes)
      && (unsigned ==> columnType in UnsignedTypes)
    }
  }

  /** The column after a setter call, and whether the call threw. */
  datatype ColumnStep = ColumnStep(state: ColumnState, outcome: Outcome)

  /** A call of one of the public setters. */
  datatype SetterCall =
    | CallSetName(name: string)
    | CallSetType(columnType: string)
    | CallSetLength(length: int, fractional: Option<int>)
    | CallSetDefaultValue(value: string)
    | CallSetComment(comment: string)
    | CallSetAutoIncrement(autoIncrement: bool)
    | CallSetNullable(nullable: bool)
    | CallSetUnique(unique: bool)
    | CallSetIndex(index: bool)
    | CallSetUnsigned(unsigned: bool)

  /** The column after a series of setter calls, each exception caught by the caller. */
  function After(c: ColumnState, calls: seq<SetterCall>): ColumnState
    decreases calls
  {
    if calls == [] then c else After(c.Apply(calls[0]).state, calls[1..])
  }

  // ---------------------------------------------------------------------------
  // Construction

  /** The keys of the constructor's option array; `None` is an absent key. */
  datatype ColumnOptions = ColumnOptions(
    autoIncrement: Option<bool>,
    length: Option<int>,
    fractional: Option<int>,
    defaultValue: Option<string>,
    comment: Option<string>,
    nullable: Option<bool>,
    unique: Option<bool>,
    index: Option<bool>,
    unsigned: Option<bool>)

  const NoOptions := ColumnOptions(None, None, None, None, None, None, None, None, None)

  /** The property defaults, before the constructor's setters run. */
  const Unset := ColumnState("", "", None, None, Absent, None, false, false, false, false, false)

  /** PHP's conversion of a boolean to the string parameter of `setDefaultValue`. */
  function BoolToString(b: bool): string
  {
    if b then "1" else ""
  }

  /** The setter calls the constructor makes for its option array, in the source's
      fixed order, with `first` standing for the `autoIncrement` key; `None` where
      the option key is absent. */
  function OptionCallsWith(first: Option<SetterCall>, options: ColumnOptions): seq<Option<SetterCall>>
  {
    [ first,
      if options.length.Some? then Some(CallSetLength(options.length.value, options.fractional)) else None,
      if options.defaultValue.Some? then Some(CallSetDefaultValue(options.defaultValue.value)) else None,
      if options.comment.Some? then Some(CallSetComment(options.comment.value)) else None,
      if options.nullable.Some? then Some(CallSetNullable(options.nullable.value)) else None,
      if options.unique.Some? then Some(CallSetUnique(options.unique.value)) else None,
      if options.index.Some? then Some(CallSetIndex(options.index.value)) else None,
      if options.unsigned.Some? then Some(CallSetUnsigned(options.unsigned.value)) else None ]
  }

  /** The calls as written: the `autoIncrement` key is passed to `setDefaultValue`. */
  function OptionCallsAsWritten(options: ColumnOptions): seq<Option<SetterCall>>
  {
    OptionCallsWith(
      if options.autoIncrement.Some? then Some(CallSetDefaultValue(BoolToString(options.autoIncrement.value))) else None,
      options)
  }

  /** The calls as intended: the `autoIncrement` key is passed to `setAutoIncrement`. */
  function OptionCalls(options: ColumnOptions): seq<Option<SetterCall>>
  {
    OptionCallsWith(
      if options.autoIncrement.Some? then Some(CallSetAutoIncrement(options.autoIncrement.value)) else None,
      options)
  }

  /** Perform the present calls from position `k` on, in order; the first
      exception aborts the whole run. */
  function RunFrom(c: ColumnState, calls: seq<Option<SetterCall>>, k: nat): Result<ColumnState>
    requires k <= |calls|
    decreases |calls| - k
  {
    if k == |calls| then Success(c)
    else if calls[k].None? then RunFrom(c, calls, k + 1)
    else
      var step := c.Apply(calls[k].value);
      if step.outcome.Fail? then Failure(step.outcome.error) else RunFrom(step.state, calls, k + 1)
  }

  /** Naming, typing, then the option calls: the first exception aborts construction. */
  function ConstructWith(name: string, columnType: string, calls: seq<Option<SetterCall>>): Result<ColumnState>
  {
    var named := Unset.SetName(name);
    if named.outcome.Fail? then Failure(named.outcome.error)
    else
      var typed := named.state.SetType(columnType);
      if typed.outcome.Fail? then Failure(typed.outcome.error)
      else RunFrom(typed.state, calls, 0)
  }

  /** `new Column($name, $type, $options)` as written. */
  function ConstructAsWritten(name: string, columnType: string, options: ColumnOptions): Result<ColumnState>
  {
    ConstructWith(name, columnType, OptionCallsAsWritten(options))
  }

  /** `new Column($name, $type, $options)` with the `autoIncrement` key reaching
      `setAutoIncrement`. */
  function Construct(name: string, columnType: string, options: ColumnOptions): Result<ColumnState>
  {
    ConstructWith(name, columnType, OptionCalls(options))
  }

  // ---------------------------------------------------------------------------
  // What the setters keep

  /** Every setter keeps the two cross-field facts. */
  lemma ApplyKeepsCoherent(c: ColumnState, call: SetterCall)
    requires c.Coherent()
    ensures c.Apply(call).state.Coherent()
  {
  }

  /** Hence so does every series of setter calls, whichever of them threw. */
  lemma {:induction false} AfterKeepsCoherent(c: ColumnState, calls: seq<SetterCall>)
    requires c.Coherent()
    ensures After(c, calls).Coherent()
    decreases calls
  {
    if calls != [] {
      ApplyKeepsCoherent(c, calls[0]);
      AfterKeepsCoherent(c.Apply(calls[0]).state, calls[1..]);
    }
  }

  /** Every setter but `setType` keeps a legal column legal. */
  lemma ApplyKeepsLegal(c: ColumnState, call: SetterCall)
    requires c.Legal() && !call.CallSetType?
    ensures c.Apply(call).state.Legal()
  {
  }

  /** A series of calls without `setType` keeps a legal column legal. */
  lemma {:induction false} AfterKeepsLegal(c: ColumnState, calls: seq<SetterCall>)
    requires c.Legal()
    requires forall k :: 0 <= k < |calls| ==> !calls[k].CallSetType?
    ensures After(c, calls).Legal()
    decreases calls
  {
    if calls != [] {
      ApplyKeepsLegal(c, calls[0]);
      AfterKeepsLegal(c.Apply(calls[0]).state, calls[1..]);
    }
  }

  /** `setType` is the exception: it does not re-check the attributes already set. */
  lemma SetTypeBreaksLegal()
    ensures var c := Unset.(name := "name", columnType := "string", length := Some(255));
      c.Legal() && c.SetType("integer").outcome == Pass && !c.SetType("integer").state.Legal()
  {
    var c := Unset.(name := "name", columnType := "string", length := Some(255));
    assert Naming.IsPlainIdentifier(c.name);
  }

  // ---------------------------------------------------------------------------
  // What the constructor produces

  /** The calls after the first option: none renames, retypes or changes auto-increment. */
  predicate IsOptionCall(call: SetterCall)
  {
    !call.CallSetName? && !call.CallSetType? && !call.CallSetAutoIncrement?
  }

  /** What a named and typed column has and the later option calls keep. */
  predicate Settled(c: ColumnState, name: string, columnType: string, autoIncrement: bool)
  {
    c.Legal() && c.Coherent() && c.autoIncrement == autoIncrement && c.name == name && c.columnType == columnType
  }

  lemma OptionCallKeeps(c: ColumnState, call: SetterCall, name: string, columnType: string, autoIncrement: bool)
    requires Settled(c, name, columnType, autoIncrement) && IsOptionCall(call)
    ensures Settled(c.Apply(call).state, name, columnType, autoIncrement)
  {
    ApplyKeepsLegal(c, call);
    ApplyKeepsCoherent(c, call);
  }

  lemma {:induction false} RunFromKeeps(c: ColumnState, calls: seq<Option<SetterCall>>, k: nat,
                                        name: string, columnType: string, autoIncrement: bool)
    requires k <= |calls|
    requires Settled(c, name, columnType, autoIncrement)
    requires forall j :: k <= j < |calls| && calls[j].Some? ==> IsOptionCall(calls[j].value)
    ensures RunFrom(c, calls, k).Success? ==> Settled(RunFrom(c, calls, k).value, name, columnType, autoIncrement)
    decreases |calls| - k
  {
    if k < |calls| {
      if calls[k].Some? {
        OptionCallKeeps(c, calls[k].value, name, columnType, autoIncrement);
        RunFromKeeps(c.Apply(calls[k].value).state, calls, k + 1, name, columnType, autoIncrement);
      } else {
        RunFromKeeps(c, calls, k + 1, name, columnType, autoIncrement);
      }
    }
  }

  /** A run with no call left to make returns its column unchanged. */
  lemma {:induction false} RunFromNone(c: ColumnState, calls: seq<Option<SetterCall>>, k: nat)
    requires k <= |calls|
    requires forall j :: k <= j < |calls| ==> calls[j].None?
    ensures RunFrom(c, calls, k) == Success(c)
    decreases |calls| - k
  {
    if k < |calls| {
      RunFromNone(c, calls, k + 1);
    }
  }

  /** Construction rejects a bad name first, then an unsupported type, then an
      `autoIncrement` option on a type without auto-increment; a column it produces is
      legal and coherent, has the given name and type, and has auto-increment on
      exactly when the option says `true`. */
  lemma ConstructedColumn(name: string, columnType: string, options: ColumnOptions)
    ensures !Naming.ValidColumnName(name) ==> Construct(name, columnType, options) == Failure(InvalidColumnName)
    ensures Naming.ValidColumnName(name) && columnType !in SupportedTypes ==>
      Construct(name, columnType, options) == Failure(UnsupportedType(columnType))
    ensures Naming.ValidColumnName(name) && columnType in SupportedTypes && columnType !in AutoIncrementTypes
            && options.autoIncrement.Some? ==>
      Construct(name, columnType, options) == Failure(AutoIncrementNotSupported(columnType))
    ensures Construct(name, columnType, options).Success? ==>
      var c := Construct(name, columnType, options).value;
      && c.Legal() && c.Coherent() && c.name == name && c.columnType == columnType
      && c.autoIncrement == (options.autoIncrement == Some(true))
  {
    if Naming.ValidColumnName(name) && columnType in SupportedTypes {
      var typed := Unset.SetName(name).state.SetType(columnType).state;
      var calls := OptionCalls(options);
      if options.autoIncrement.Some? {
        var step := typed.Apply(calls[0].value);
        if step.outcome.Pass? {
          ApplyKeepsLegal(typed, calls[0].value);
          RunFromKeeps(step.state, calls, 1, name, columnType, options.autoIncrement.value);
        }
      } else {
        RunFromKeeps(typed, calls, 0, name, columnType, false);
      }
    }
  }

  /** Whether the type admits every option given, `autoIncrement` being applied
      before `defaultValue` and `unsigned`. */
  predicate OptionsAccepted(columnType: string, options: ColumnOptions)
  {
    var on := options.autoIncrement == Some(true);
    && (options.autoIncrement.Some? ==> columnType in AutoIncrementTypes)
    && (options.length.Some? ==>
          columnType in LengthTypes && (options.fractional.Some? ==> columnType in FractionTypes))
    && (options.defaultValue.Some? ==> columnType in DefaultValueTypes && !on)
    && (options.unsigned.Some? ==> columnType in UnsignedTypes && (options.unsigned.value || !on))
  }

  /** The column the options describe: each present key sets its own attribute;
      `fractional` counts only next to `length`; `autoIncrement` also makes the
      column unsigned and stores `false` as its default unless later keys override. */
  function Described(name: string, columnType: string, options: ColumnOptions): ColumnState
  {
    ColumnState(
      name,
      columnType,
      options.length,
      if options.length.Some? then options.fractional else None,
      if options.defaultValue.Some? then Given(options.defaultValue.value)
      else if options.autoIncrement.Some? then FalseValue
      else Absent,
      options.comment,
      options.autoIncrement == Some(true),
      options.nullable == Some(true),
      options.unique == Some(true),
      options.index == Some(true),
      if options.unsigned.Some? then options.unsigned.value else options.autoIncrement.Some?)
  }

  // One lemma per stretch of the option calls, each from one call index to the next.

  lemma AutoIncrementSlot(c: ColumnState, options: ColumnOptions)
    requires !c.autoIncrement
    ensures options.autoIncrement.None? ==> RunFrom(c, OptionCalls(options), 0) == RunFrom(c, OptionCalls(options), 1)
    ensures options.autoIncrement.Some? && c.columnType !in AutoIncrementTypes ==>
      RunFrom(c, OptionCalls(options), 0).Failure?
    ensures options.autoIncrement.Some? && c.columnType in AutoIncrementTypes ==>
      RunFrom(c, OptionCalls(options), 0) ==
      RunFrom(c.(autoIncrement := options.autoIncrement.value, unsigned := true, defaultValue := FalseValue),
              OptionCalls(options), 1)
  {
  }

  lemma LengthSlot(c: ColumnState, options: ColumnOptions)
    requires c.fractional.None?
    ensures options.length.None? ==> RunFrom(c, OptionCalls(options), 1) == RunFrom(c, OptionCalls(options), 2)
    ensures options.length.Some? &&
            !(c.columnType in LengthTypes && (options.fractional.Some? ==> c.columnType in FractionTypes)) ==>
      RunFrom(c, OptionCalls(options), 1).Failure?
    ensures options.length.Some? &&
            c.columnType in LengthTypes && (options.fractional.Some? ==> c.columnType in FractionTypes) ==>
      RunFrom(c, OptionCalls(options), 1) ==
      RunFrom(c.(length := options.length, fractional := options.fractional), OptionCalls(options), 2)
  {
  }

  lemma DefaultValueSlot(c: ColumnState, options: ColumnOptions)
    ensures options.defaultValue.None? ==> RunFrom(c, OptionCalls(options), 2) == RunFrom(c, OptionCalls(options), 3)
    ensures options.defaultValue.Some? && !(c.columnType in DefaultValueTypes && !c.autoIncrement) ==>
      RunFrom(c, OptionCalls(options), 2).Failure?
    ensures options.defaultValue.Some? && c.columnType in DefaultValueTypes && !c.autoIncrement ==>
      RunFrom(c, OptionCalls(options), 2) ==
      RunFrom(c.(defaultValue := Given(options.defaultValue.value)), OptionCalls(options), 3)
  {
  }

  /** `comment`, `nullable`, `unique` and `index` always pass. */
  lemma CommentSlot(c: ColumnState, options: ColumnOptions)
    ensures RunFrom(c, OptionCalls(options), 3) ==
      RunFrom(c.(comment := if options.comment.Some? then options.comment else c.comment), OptionCalls(options), 4)
  {
  }

  lemma NullableSlot(c: ColumnState, options: ColumnOptions)
    ensures RunFrom(c, OptionCalls(options), 4) ==
      RunFrom(c.(nullable := if options.nullable.Some? then options.nullable.value else c.nullable), OptionCalls(options), 5)
  {
  }

  lemma UniqueSlot(c: ColumnState, options: ColumnOptions)
    ensures RunFrom(c, OptionCalls(options), 5) ==
      RunFrom(c.(unique := if options.unique.Some? then options.unique.value else c.unique), OptionCalls(options), 6)
  {
  }

  lemma IndexSlot(c: ColumnState, options: ColumnOptions)
    ensures RunFrom(c, OptionCalls(options), 6) ==
      RunFrom(c.(index := if options.index.Some? then options.index.value else c.index), OptionCalls(options), 7)
  {
  }

  lemma UnsignedSlot(c: ColumnState, options: ColumnOptions)
    ensures options.unsigned.None? ==> RunFrom(c, OptionCalls(options), 7) == Success(c)
    ensures options.unsigned.Some? &&
            !(c.columnType in UnsignedTypes && (options.unsigned.value || !c.autoIncrement)) ==>
      RunFrom(c, OptionCalls(options), 7).Failure?
    ensures options.unsigned.Some? &&
            c.columnType in UnsignedTypes && (options.unsigned.value || !c.autoIncrement) ==>
      RunFrom(c, OptionCalls(options), 7) == Success(c.(unsigned := options.unsigned.value))
  {
  }

  /** With a valid name and a supported type, construction succeeds exactly when the
      type admits the options, and the column is then the one the options describe. */
  lemma ConstructedFromOptions(name: string, columnType: string, options: ColumnOptions)
    requires Naming.ValidColumnName(name) && columnType in SupportedTypes
    ensures Construct(name, columnType, options).Success? <==> OptionsAccepted(columnType, options)
    ensures Construct(name, columnType, options).Success? ==>
      Construct(name, columnType, options).value == Described(name, columnType, options)
  {
    var s0 := Unset.(name := name, columnType := columnType);
    assert Construct(name, columnType, options) == RunFrom(s0, OptionCalls(options), 0);
    RunFromUnset(s0, options);
  }

  /** The flags that always pass, `comment` through `index`, taken together. */
  function Flagged(c: ColumnState, options: ColumnOptions): ColumnState
  {
    c.(comment := if options.comment.Some? then options.comment else c.comment,
       nullable := if options.nullable.Some? then options.nullable.value else c.nullable,
       unique := if options.unique.Some? then options.unique.value else c.unique,
       index := if options.index.Some? then options.index.value else c.index)
  }

  lemma FlagsRun(c: ColumnState, options: ColumnOptions)
    ensures RunFrom(c, OptionCalls(options), 3) == RunFrom(Flagged(c, options), OptionCalls(options), 7)
  {
    CommentSlot(c, options);
    var c4 := c.(comment := if options.comment.Some? then options.comment else c.comment);
    NullableSlot(c4, options);
    var c5 := c4.(nullable := if options.nullable.Some? then options.nullable.value else c.nullable);
    UniqueSlot(c5, options);
    var c6 := c5.(unique := if options.unique.Some? then options.unique.value else c.unique);
    IndexSlot(c6, options);
  }

  /** The option calls from `comment` on: only `unsigned` can throw. */
  lemma LaterSlots(c: ColumnState, options: ColumnOptions)
    ensures RunFrom(c, OptionCalls(options), 3).Success? <==>
      (options.unsigned.Some? ==> c.columnType in UnsignedTypes && (options.unsigned.value || !c.autoIncrement))
    ensures RunFrom(c, OptionCalls(options), 3).Success? ==>
      RunFrom(c, OptionCalls(options), 3).value ==
      Flagged(c, options).(unsigned := if options.unsigned.Some? then options.unsigned.value else c.unsigned)
  {
    FlagsRun(c, options);
    UnsignedSlot(Flagged(c, options), options);
  }

  /** The column after `autoIncrement`, `length` and `default`, the calls that can
      throw before the flags. */
  function Early(s0: ColumnState, options: ColumnOptions): ColumnState
  {
    s0.(autoIncrement := options.autoIncrement == Some(true),
        unsigned := options.autoIncrement.Some?,
        length := options.length,
        fractional := if options.length.Some? then options.fractional else None,
        defaultValue := if options.defaultValue.Some? then Given(options.defaultValue.value)
                        else if options.autoIncrement.Some? then FalseValue
                        else Absent)
  }

  lemma EarlySlots(s0: ColumnState, options: ColumnOptions)
    requires s0 == Unset.(name := s0.name, columnType := s0.columnType)
    ensures !(&& (options.autoIncrement.Some? ==> s0.columnType in AutoIncrementTypes)
              && (options.length.Some? ==>
                    s0.columnType in LengthTypes && (options.fractional.Some? ==> s0.columnType in FractionTypes))
              && (options.defaultValue.Some? ==>
                    s0.columnType in DefaultValueTypes && options.autoIncrement != Some(true))) ==>
      RunFrom(s0, OptionCalls(options), 0).Failure?
    ensures (&& (options.autoIncrement.Some? ==> s0.columnType in AutoIncrementTypes)
             && (options.length.Some? ==>
                   s0.columnType in LengthTypes && (options.fractional.Some? ==> s0.columnType in FractionTypes))
             && (options.defaultValue.Some? ==>
                   s0.columnType in DefaultValueTypes && options.autoIncrement != Some(true))) ==>
      RunFrom(s0, OptionCalls(options), 0) == RunFrom(Early(s0, options), OptionCalls(options), 3)
  {
    var on := options.autoIncrement == Some(true);
    AutoIncrementSlot(s0, options);
    var s1 := s0.(autoIncrement := on, unsigned := options.autoIncrement.Some?,
                  defaultValue := if options.autoIncrement.Some? then FalseValue else Absent);
    assert options.autoIncrement.Some? ==>
      s1 == s0.(autoIncrement := options.autoIncrement.value, unsigned := true, defaultValue := FalseValue);
    LengthSlot(s1, options);
    var s2 := s1.(length := options.length, fractional := if options.length.Some? then options.fractional else None);
    DefaultValueSlot(s2, options);
  }

  /** The option calls on a column that is still at its defaults. */
  lemma RunFromUnset(s0: ColumnState, options: ColumnOptions)
    requires s0 == Unset.(name := s0.name, columnType := s0.columnType)
    ensures RunFrom(s0, OptionCalls(options), 0).Success? <==> OptionsAccepted(s0.columnType, options)
    ensures RunFrom(s0, OptionCalls(options), 0).Success? ==>
      RunFrom(s0, OptionCalls(options), 0).value == Described(s0.name, s0.columnType, options)
  {
    EarlySlots(s0, options);
    LaterSlots(Early(s0, options), options);
  }

  // The same for the constructor as written, whose calls after the first are the
  // corrected constructor's calls.

  /** Two call lists that agree from position `k` on give the same run from `k`. */
  lemma {:induction false} RunFromSameTail(c: ColumnState, calls: seq<Option<SetterCall>>,
                                           other: seq<Option<SetterCall>>, k: nat)
    requires k <= |calls| == |other|
    requires forall j :: k <= j < |calls| ==> calls[j] == other[j]
    ensures RunFrom(c, calls, k) == RunFrom(c, other, k)
    decreases |calls| - k
  {
    if k < |calls| {
      if calls[k].Some? {
        RunFromSameTail(c.Apply(calls[k].value).state, calls, other, k + 1);
      }
      RunFromSameTail(c, calls, other, k + 1);
    }
  }

  /** Whether the type admits every option given, as written: the `autoIncrement`
      key is a default value, so it needs a type with defaults, and nothing turns
      auto-increment on. */
  predicate OptionsAcceptedAsWritten(columnType: string, options: ColumnOptions)
  {
    && (options.autoIncrement.Some? ==> columnType in DefaultValueTypes)
    && (options.length.Some? ==>
          columnType in LengthTypes && (options.fractional.Some? ==> columnType in FractionTypes))
    && (options.defaultValue.Some? ==> columnType in DefaultValueTypes)
    && (options.unsigned.Some? ==> columnType in UnsignedTypes)
  }

  /** The column the options describe as written: the `defaultValue` key replaces the
      `"1"` or `""` the `autoIncrement` key stored, auto-increment stays off, and the
      column is unsigned only when the `unsigned` key says so. */
  function DescribedAsWritten(name: string, columnType: string, options: ColumnOptions): ColumnState
  {
    ColumnState(
      name,
      columnType,
      options.length,
      if options.length.Some? then options.fractional else None,
      if options.defaultValue.Some? then Given(options.defaultValue.value)
      else if options.autoIncrement.Some? then Given(BoolToString(options.autoIncrement.value))
      else Absent,
      options.comment,
      false,
      options.nullable == Some(true),
      options.unique == Some(true),
      options.index == Some(true),
      options.unsigned == Some(true))
  }

  /** The column after the as-written `autoIncrement`, `length` and `default` calls. */
  function EarlyAsWritten(s0: ColumnState, options: ColumnOptions): ColumnState
  {
    s0.(length := options.length,
        fractional := if options.length.Some? then options.fractional else None,
        defaultValue := if options.defaultValue.Some? then Given(options.defaultValue.value)
                        else if options.autoIncrement.Some? then Given(BoolToString(options.autoIncrement.value))
                        else Absent)
  }

  lemma AutoIncrementSlotAsWritten(c: ColumnState, options: ColumnOptions)
    requires !c.autoIncrement
    ensures options.autoIncrement.None? ==>
      RunFrom(c, OptionCallsAsWritten(options), 0) == RunFrom(c, OptionCalls(options), 1)
    ensures options.autoIncrement.Some? && c.columnType !in DefaultValueTypes ==>
      RunFrom(c, OptionCallsAsWritten(options), 0) == Failure(DefaultValueNotSupported(c.columnType))
    ensures options.autoIncrement.Some? && c.columnType in DefaultValueTypes ==>
      RunFrom(c, OptionCallsAsWritten(options), 0) ==
      RunFrom(c.(defaultValue := Given(BoolToString(options.autoIncrement.value))), OptionCalls(options), 1)
  {
    var written, intended := OptionCallsAsWritten(options), OptionCalls(options);
    RunFromSameTail(c, written, intended, 1);
    if options.autoIncrement.Some? && c.columnType in DefaultValueTypes {
      RunFromSameTail(c.(defaultValue := Given(BoolToString(options.autoIncrement.value))), written, intended, 1);
    }
  }

  lemma EarlySlotsAsWritten(s0: ColumnState, options: ColumnOptions)
    requires s0 == Unset.(name := s0.name, columnType := s0.columnType)
    ensures !(&& (options.autoIncrement.Some? ==> s0.columnType in DefaultValueTypes)
              && (options.length.Some? ==>
                    s0.columnType in LengthTypes && (options.fractional.Some? ==> s0.columnType in FractionTypes))
              && (options.defaultValue.Some? ==> s0.columnType in DefaultValueTypes)) ==>
      RunFrom(s0, OptionCallsAsWritten(options), 0).Failure?
    ensures (&& (options.autoIncrement.Some? ==> s0.columnType in DefaultValueTypes)
             && (options.length.Some? ==>
                   s0.columnType in LengthTypes && (options.fractional.Some? ==> s0.columnType in FractionTypes))
             && (options.defaultValue.Some? ==> s0.columnType in DefaultValueTypes)) ==>
      RunFrom(s0, OptionCallsAsWritten(options), 0) == RunFrom(EarlyAsWritten(s0, options), OptionCalls(options), 3)
  {
    AutoIncrementSlotAsWritten(s0, options);
    var s1 := s0.(defaultValue := if options.autoIncrement.Some? then Given(BoolToString(options.autoIncrement.value))
                                  else Absent);
    LengthSlot(s1, options);
    var s2 := s1.(length := options.length, fractional := if options.length.Some? then options.fractional else None);
    DefaultValueSlot(s2, options);
  }

  /** The as-written option calls on a column that is still at its defaults. */
  lemma RunFromUnsetAsWritten(s0: ColumnState, options: ColumnOptions)
    requires s0 == Unset.(name := s0.name, columnType := s0.columnType)
    ensures RunFrom(s0, OptionCallsAsWritten(options), 0).Success? <==>
      OptionsAcceptedAsWritten(s0.columnType, options)
    ensures RunFrom(s0, OptionCallsAsWritten(options), 0).Success? ==>
      RunFrom(s0, OptionCallsAsWritten(options), 0).value == DescribedAsWritten(s0.name, s0.columnType, options)
  {
    EarlySlotsAsWritten(s0, options);
    LaterSlots(EarlyAsWritten(s0, options), options);
  }

  /** As written, with a valid name and a supported type, construction succeeds
      exactly when the type admits the options read as written, and the column is
      then the one they describe. */
  lemma ConstructedFromOptionsAsWritten(name: string, columnType: string, options: ColumnOptions)
    requires Naming.ValidColumnName(name) && columnType in SupportedTypes
    ensures ConstructAsWritten(name, columnType, options).Success? <==> OptionsAcceptedAsWritten(columnType, options)
    ensures ConstructAsWritten(name, columnType, options).Success? ==>
      ConstructAsWritten(name, columnType, options).value == DescribedAsWritten(name, columnType, options)
  {
    var s0 := Unset.(name := name, columnType := columnType);
    assert ConstructAsWritten(name, columnType, options) == RunFrom(s0, OptionCallsAsWritten(options), 0);
    RunFromUnsetAsWritten(s0, options);
  }

  /** As written, a constructed column never has auto-increment on. */
  lemma ConstructedAsWrittenNeverAutoIncrements(name: string, columnType: string, options: ColumnOptions)
    ensures ConstructAsWritten(name, columnType, options).Success? ==>
      var c := ConstructAsWritten(name, columnType, options).value;
      c.Legal() && c.Coherent() && !c.autoIncrement
  {
    if Naming.ValidColumnName(name) && columnType in SupportedTypes {
      var typed := Unset.SetName(name).state.SetType(columnType).state;
      RunFromKeeps(typed, OptionCallsAsWritten(options), 0, name, columnType, false);
    }
  }

  /** With no options, a column is its name and type and every default. */
  lemma ConstructWithoutOptions(name: string, columnType: string)
    requires Naming.ValidColumnName(name) && columnType in SupportedTypes
    ensures Construct(name, columnType, NoOptions) == Success(Unset.(name := name, columnType := columnType))
  {
    var typed := Unset.SetName(name).state.SetType(columnType).state;
    RunFromNone(typed, OptionCalls(NoOptions), 0);
  }

  /** As written, the `autoIncrement` option stores `"1"` or `""` as the default value
      and leaves auto-increment off; on a type without defaults, such as `text`, it
      throws the default-value error. */
  lemma AutoIncrementOptionAsWritten(name: string, columnType: string, on: bool)
    requires Naming.ValidColumnName(name) && columnType in SupportedTypes
    ensures columnType in DefaultValueTypes ==>
      ConstructAsWritten(name, columnType, NoOptions.(autoIncrement := Some(on))) ==
      Success(Unset.(name := name, columnType := columnType, defaultValue := Given(BoolToString(on))))
    ensures columnType !in DefaultValueTypes ==>
      ConstructAsWritten(name, columnType, NoOptions.(autoIncrement := Some(on))) ==
      Failure(DefaultValueNotSupported(columnType))
  {
    var typed := Unset.SetName(name).state.SetType(columnType).state;
    var options := NoOptions.(autoIncrement := Some(on));
    if columnType in DefaultValueTypes {
      var stored := typed.(defaultValue := Given(BoolToString(on)));
      RunFromNone(stored, OptionCallsAsWritten(options), 1);
    }
  }

  /** The `autoIncrement` option on an integer type turns auto-increment on or off,
      makes the column unsigned and stores `false` as its default. */
  lemma AutoIncrementOption(name: string, columnType: string, on: bool)
    requires Naming.ValidColumnName(name) && columnType in AutoIncrementTypes
    ensures Construct(name, columnType, NoOptions.(autoIncrement := Some(on))) ==
      Success(Unset.(name := name, columnType := columnType, autoIncrement := on, unsigned := true,
                     defaultValue := FalseValue))
  {
    var typed := Unset.SetName(name).state.SetType(columnType).state;
    var options := NoOptions.(autoIncrement := Some(on));
    var stored := typed.(autoIncrement := on, unsigned := true, defaultValue := FalseValue);
    RunFromNone(stored, OptionCalls(options), 1);
  }

  /** The `autoIncrement` option is applied before the `defaultValue` one: with
      auto-increment on, the default is refused; with it off, the default is stored. */
  lemma DefaultValueAfterAutoIncrement(name: string, columnType: string, value: string)
    requires Naming.ValidColumnName(name) && columnType in AutoIncrementTypes
    ensures Construct(name, columnType, NoOptions.(autoIncrement := Some(true), defaultValue := Some(value))) ==
      Failure(DefaultValueOnAutoIncrement)
    ensures Construct(name, columnType, NoOptions.(autoIncrement := Some(false), defaultValue := Some(value))) ==
      Success(Unset.(name := name, columnType := columnType, unsigned := true, defaultValue := Given(value)))
  {
    var typed := Unset.SetName(name).state.SetType(columnType).state;
    assert columnType in DefaultValueTypes;
    var on := NoOptions.(autoIncrement := Some(true), defaultValue := Some(value));
    var turnedOn := typed.(autoIncrement := true, unsigned := true, defaultValue := FalseValue);
    assert turnedOn.SetDefaultValue(value).outcome == Fail(DefaultValueOnAutoIncrement);
    assert RunFrom(turnedOn, OptionCalls(on), 1) == Failure(DefaultValueOnAutoIncrement);
    var off := NoOptions.(autoIncrement := Some(false), defaultValue := Some(value));
    var stored := typed.(unsigned := true, defaultValue := Given(value));
    RunFromNone(stored, OptionCalls(off), 3);
    assert RunFrom(typed.(unsigned := true, defaultValue := FalseValue), OptionCalls(off), 1) == Success(stored);
  }

  /** The two columns of the `Account` example. As written, the `autoIncrement`
      option gives the `id` column the default `"1"`; as intended, it makes `id` an
      unsigned auto-increment column. The `length` option gives `name` its length. */
  lemma AccountColumns()
    ensures ConstructAsWritten("id", "integer", NoOptions.(autoIncrement := Some(true))) ==
      Success(Unset.(name := "id", columnType := "integer", defaultValue := Given("1")))
    ensures Construct("id", "integer", NoOptions.(autoIncrement := Some(true))) ==
      Success(Unset.(name := "id", columnType := "integer", autoIncrement := true, unsigned := true,
                     defaultValue := FalseValue))
    ensures Construct("name", "string", NoOptions.(length := Some(255))) ==
      Success(Unset.(name := "name", columnType := "string", length := Some(255)))
  {
    assert Naming.IsPlainIdentifier("id");
    assert Naming.IsPlainIdentifier("name");
    AutoIncrementOptionAsWritten("id", "integer", true);
    AutoIncrementOption("id", "integer", true);
    var named := Unset.(name := "name", columnType := "string", length := Some(255));
    RunFromNone(named, OptionCalls(NoOptions.(length := Some(255))), 2);
  }

  // ---------------------------------------------------------------------------
  // The class

  class Column {
    var name: string
    var columnType: string
    var length: Option<int>
    var fractional: Option<int>
    var defaultValue: DefaultValue
    var comment: Option<string>
    var autoIncrement: bool
    var nullable: bool
    var unique: bool
    var index: bool
    var unsigned: bool

    function State(): ColumnState
      reads this
    {
      ColumnState(name, columnType, length, fractional, defaultValue, comment,
                  autoIncrement, nullable, unique, index, unsigned)
    }

    /** The object with its property defaults, before any setter ran. */
    constructor Blank()
      ensures State() == Unset
    {
      name, columnType := "", "";
      length, fractional := None, None;
      defaultValue, comment := Absent, None;
      autoIncrement, nullable, unique, index, unsigned := false, false, false, false, false;
    }

    /** The constructor with the setter calls for the option array given as `calls`. */
    static method NewWith(name: string, columnType: string, calls: seq<Option<SetterCall>>) returns (r: Result<Column>)
      ensures r.Success? ==> fresh(r.value) && ConstructWith(name, columnType, calls) == Success(r.value.State())
      ensures r.Failure? ==> ConstructWith(name, columnType, calls) == Failure(r.error)
    {
      var c := new Column.Blank();
      var o := c.SetName(name);
      if o.Fail? { return Failure(o.error); }
      o := c.SetType(columnType);
      if o.Fail? { return Failure(o.error); }
      o := c.SetOptions(calls);
      if o.Fail? { return Failure(o.error); }
      return Success(c);
    }

    /** `new Column($name, $type, $options)` as written: the `autoIncrement` key
        reaches `setDefaultValue`. */
    static method NewAsWritten(name: string, columnType: string, options: ColumnOptions) returns (r: Result<Column>)
      ensures r.Success? ==> fresh(r.value) && ConstructAsWritten(name, columnType, options) == Success(r.value.State())
      ensures r.Failure? ==> ConstructAsWritten(name, columnType, options) == Failure(r.error)
    {
      r := NewWith(name, columnType, OptionCallsAsWritten(options));
    }

    /** `new Column($name, $type, $options)` as intended: the `autoIncrement` key
        reaches `setAutoIncrement` (the correction listed under the findings). */
    static method New(name: string, columnType: string, options: ColumnOptions) returns (r: Result<Column>)
      ensures r.Success? ==> fresh(r.value) && Construct(name, columnType, options) == Success(r.value.State())
      ensures r.Failure? ==> Construct(name, columnType, options) == Failure(r.error)
    {
      r := NewWith(name, columnType, OptionCalls(options));
    }

    /** The part of the constructor after `setName` and `setType`: one setter call per
        option key present, in the source's order, stopping at the first exception.
        The source makes the eight calls in eight `if` statements; here a loop runs
        over the list of calls. */
    method SetOptions(calls: seq<Option<SetterCall>>) returns (r: Outcome)
      modifies this
      ensures RunFrom(old(State()), calls, 0) ==
              if r.Pass? then Success(State()) else Failure(r.error)
    {
      ghost var start := State();
      r := Pass;
      var k := 0;
      while k < |calls|
        invariant 0 <= k <= |calls|
        invariant r.Pass? && RunFrom(start, calls, 0) == RunFrom(State(), calls, k)
      {
        r := Perform(calls[k]);
        if r.Fail? { return; }
        k := k + 1;
      }
    }

    /** One optional setter call. */
    method Perform(call: Option<SetterCall>) returns (r: Outcome)
      modifies this
      ensures call.None? ==> State() == old(State()) && r == Pass
      ensures call.Some? ==> ColumnStep(State(), r) == old(State()).Apply(call.value)
    {
      match call
      case None => r := Pass;
      case Some(CallSetName(n)) => r := SetName(n);
      case Some(CallSetType(t)) => r := SetType(t);
      case Some(CallSetLength(l, f)) => r := SetLength(l, f);
      case Some(CallSetDefaultValue(v)) => r := SetDefaultValue(v);
      case Some(CallSetComment(c)) => r := SetComment(c);
      case Some(CallSetAutoIncrement(b)) => r := SetAutoIncrement(b);
      case Some(CallSetNullable(b)) => r := SetNullable(b);
      case Some(CallSetUnique(b)) => r := SetUnique(b);
      case Some(CallSetIndex(b)) => r := SetIndex(b);
      case Some(CallSetUnsigned(b)) => r := SetUnsigned(b);
    }

    method SetName(newName: string) returns (r: Outcome)
      modifies this
      ensures State() == old(State()).SetName(newName).state
      ensures r == old(State()).SetName(newName).outcome
    {
      if !Naming.ValidColumnName(newName) {
        return Fail(InvalidColumnName);
      }
      name := newName;
      return Pass;
    }

    method SetType(newType: string) returns (r: Outcome)
      modifies this
      ensures State() == old(State()).SetType(newType).state
      ensures r == old(State()).SetType(newType).outcome
    {
      if newType !in SupportedTypes {
        return Fail(UnsupportedType(newType));
      }
      columnType := newType;
      return Pass;
    }

    method SetLength(newLength: int, newFractional: Option<int>) returns (r: Outcome)
      modifies this
      ensures State() == old(State()).SetLength(newLength, newFractional).state
      ensures r == old(State()).SetLength(newLength, newFractional).outcome
    {
      if columnType !in LengthTypes {
        return Fail(LengthNotSupported(columnType));
      }
      length := Some(newLength);
      if newFractional.Some? && columnType !in FractionTypes {
        return Fail(FractionalNotSupported(columnType));
      }
      if newFractional.Some? {
        fractional := newFractional;
      }
      return Pass;
    }

    method SetDefaultValue(value: string) returns (r: Outcome)
      modifies this
      ensures State() == old(State()).SetDefaultValue(value).state
      ensures r == old(State()).SetDefaultValue(value).outcome
    {
      if columnType !in DefaultValueTypes {
        return Fail(DefaultValueNotSupported(columnType));
      }
      if autoIncrement {
        return Fail(DefaultValueOnAutoIncrement);
      }
      defaultValue := Given(value);
      return Pass;
    }

    method SetComment(newComment: string) returns (r: Outcome)
      modifies this
      ensures State() == old(State()).SetComment(newComment).state
      ensures r == old(State()).SetComment(newComment).outcome
    {
      comment := Some(newComment);
      return Pass;
    }

    method SetAutoIncrement(on: bool) returns (r: Outcome)
      modifies this
      ensures State() == old(State()).SetAutoIncrement(on).state
      ensures r == old(State()).SetAutoIncrement(on).outcome
    {
      if columnType !in AutoIncrementTypes {
        return Fail(AutoIncrementNotSupported(columnType));
      }
      autoIncrement := on;
      defaultValue := FalseValue;
      unsigned := true;
      return Pass;
    }

    method SetNullable(on: bool) returns (r: Outcome)
      modifies this
      ensures State() == old(State()).SetNullable(on).state
      ensures r == old(State()).SetNullable(on).outcome
    {
      nullable := on;
      return Pass;
    }

    method SetUnique(on: bool) returns (r: Outcome)
      modifies this
      ensures State() == old(State()).SetUnique(on).state
      ensures r == old(State()).SetUnique(on).outcome
    {
      unique := on;
      return Pass;
    }

    method SetIndex(on: bool) returns (r: Outcome)
      modifies this
      ensures State() == old(State()).SetIndex(on).state
      ensures r == old(State()).SetIndex(on).outcome
    {
      index := on;
      return Pass;
    }

    method SetUnsigned(on: bool) returns (r: Outcome)
      modifies this
      ensures State() == old(State()).SetUnsigned(on).state
      ensures r == old(State()).SetUnsigned(on).outcome
    {
      if columnType !in UnsignedTypes {
        return Fail(UnsignedNotSupported(columnType));
      }
      if !on && autoIncrement {
        return Fail(SignedAutoIncrement);
      }
      unsigned := on;
      return Pass;
    }
  }

  /** The values of a sequence of columns, in order. */
  function States(columns: seq<Column>): (r: seq<ColumnState>)
    reads set c | c in columns
    ensures |r| == |columns|
    ensures forall i :: 0 <= i < |columns| ==> r[i] == columns[i].State()
  {
    if columns == [] then [] else [columns[0].State()] + States(columns[1..])
  }
}
