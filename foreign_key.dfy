/** A foreign key (`ForeignKey.php`): the referencing column, the referenced column,
    the referenced table and an optional on-delete action. The value record
    `KeyState` says what each setter does; the class `ForeignKey` holds the same
    fields and performs the setters in place. */
module ForeignKeys {
  import opened Support
  import Naming

  /** The on-delete actions the source lists; the third holds a space. */
  const SupportedOnDeletes: seq<string> := ["restrict", "cascade", "set null"]

  /** PHP's loose `in_array(null, $haystack)` over strings: null is compared as the
      empty string, so it is found exactly when the empty string is listed. */
  function NullInArray(haystack: seq<string>): bool
  {
    "" in haystack
  }

  datatype KeyState = KeyState(column: string, references: string, on: string, onDelete: Option<string>)
  {
    /** The referencing column must be a column name; a rejected name changes nothing. */
    function SetColumn(newColumn: string): (r: KeyStep)
      ensures r.outcome.Pass? <==> Naming.ValidColumnName(newColumn)
      ensures r.outcome.Fail? ==> r.state == this && r.outcome.error == InvalidColumnName
      ensures r.outcome.Pass? ==> r.state == this.(column := newColumn)
    {
      if !Naming.ValidColumnName(newColumn) then KeyStep(this, Fail(InvalidColumnName))
      else KeyStep(this.(column := newColumn), Pass)
    }

    /** The referenced column must be a column name too. */
    function SetReferences(newReferences: string): (r: KeyStep)
      ensures r.outcome.Pass? <==> Naming.ValidColumnName(newReferences)
      ensures r.outcome.Fail? ==> r.state == this && r.outcome.error == InvalidReferencesName
      ensures r.outcome.Pass? ==> r.state == this.(references := newReferences)
    {
      if !Naming.ValidColumnName(newReferences) then KeyStep(this, Fail(InvalidReferencesName))
      else KeyStep(this.(references := newReferences), Pass)
    }

    /** The referenced table must be a table name. */
    function SetOn(newOn: string): (r: KeyStep)
      ensures r.outcome.Pass? <==> Naming.ValidTableName(newOn)
      ensures r.outcome.Fail? ==> r.state == this && r.outcome.error == InvalidTableName
      ensures r.outcome.Pass? ==> r.state == this.(on := newOn)
    {
      if !Naming.ValidTableName(newOn) then KeyStep(this, Fail(InvalidTableName))
      else KeyStep(this.(on := newOn), Pass)
    }

    /** `setOnDelete` as the source writes it: the membership test reads the
        undefined property `$this->type`, which is null and in no list, so every
        non-null action is rejected. */
    function SetOnDeleteAsWritten(action: Option<string>): (r: KeyStep)
      ensures r.outcome.Pass? <==> action.None?
      ensures r.outcome.Fail? ==> r.state == this && r.outcome.error == UnsupportedOnDelete
      ensures r.outcome.Pass? ==> r.state == this.(onDelete := None)
    {
      if action.Some? && !NullInArray(SupportedOnDeletes) then
        KeyStep(this, Fail(UnsupportedOnDelete))
      else KeyStep(this.(onDelete := action), Pass)
    }

    /** `setOnDelete` as intended: null clears the action, a listed action is stored,
        anything else is rejected with nothing changed. */
    function SetOnDelete(action: Option<string>): (r: KeyStep)
      ensures r.outcome.Pass? <==> action.None? || action.value in SupportedOnDeletes
      ensures r.outcome.Fail? ==> r.state == this && r.outcome.error == UnsupportedOnDelete
      ensures r.outcome.Pass? ==> r.state == this.(onDelete := action)
    {
      if action.Some? && action.value !in SupportedOnDeletes then KeyStep(this, Fail(UnsupportedOnDelete))
      else KeyStep(this.(onDelete := action), Pass)
    }

    /** The effect of one setter call. */
    function Apply(call: KeyCall): KeyStep
    {
      match call
      case CallSetColumn(c) => this.SetColumn(c)
      case CallSetReferences(c) => this.SetReferences(c)
      case CallSetOn(t) => this.SetOn(t)
      case CallSetOnDelete(a) => this.SetOnDelete(a)
    }

    /** The on-delete action is absent or one of the listed ones. */
    predicate OnDeleteSupported()
    {
      onDelete.None? || onDelete.value in SupportedOnDeletes
    }

    /** The three names pass their checks and the action is a listed one. */
    predicate Legal()
    {
      Naming.ValidColumnName(column) && Naming.ValidColumnName(references)
      && Naming.ValidTableName(on) && OnDeleteSupported()
    }
  }

  /** The key after a setter call, and whether the call threw. */
  datatype KeyStep = KeyStep(state: KeyState, outcome: Outcome)

  /** A call of one of the public setters. */
  datatype KeyCall =
    | CallSetColumn(column: string)
    | CallSetReferences(references: string)
    | CallSetOn(on: string)
    | CallSetOnDelete(onDelete: Option<string>)

  /** The key after a series of setter calls, each exception caught by the caller. */
  function After(k: KeyState, calls: seq<KeyCall>): KeyState
    decreases calls
  {
    if calls == [] then k else After(k.Apply(calls[0]).state, calls[1..])
  }

  /** The constructor's option array: `None` when the `onDelete` key is absent,
      `Some(None)` when it is present with null. */
  datatype KeyOptions = KeyOptions(onDelete: Option<Option<string>>)

  const NoKeyOptions := KeyOptions(None)

  /** The properties before the constructor's setters run; `onDelete` starts as null. */
  const BlankKey := KeyState("", "", "", None)

  /** The constructor's three name setters, in its order; the first exception aborts. */
  function Named(column: string, references: string, on: string): Result<KeyState>
  {
    var withColumn := BlankKey.SetColumn(column);
    if withColumn.outcome.Fail? then Failure(withColumn.outcome.error)
    else
      var withReferences := withColumn.state.SetReferences(references);
      if withReferences.outcome.Fail? then Failure(withReferences.outcome.error)
      else
        var withOn := withReferences.state.SetOn(on);
        if withOn.outcome.Fail? then Failure(withOn.outcome.error) else Success(withOn.state)
  }

  /** `new ForeignKey($column, $references, $on, $options)` as written, with the
      `setOnDelete` that reads the undefined property. */
  function ConstructAsWritten(column: string, references: string, on: string, options: KeyOptions): Result<KeyState>
  {
    var named := Named(column, references, on);
    if named.Failure? then named
    else if options.onDelete.None? then named
    else
      var withAction := named.value.SetOnDeleteAsWritten(options.onDelete.value);
      if withAction.outcome.Fail? then Failure(withAction.outcome.error) else Success(withAction.state)
  }

  /** `new ForeignKey($column, $references, $on, $options)` as intended, with the
      `setOnDelete` that checks the given action. */
  function Construct(column: string, references: string, on: string, options: KeyOptions): Result<KeyState>
  {
    var named := Named(column, references, on);
    if named.Failure? then named
    else if options.onDelete.None? then named
    else
      var withAction := named.value.SetOnDelete(options.onDelete.value);
      if withAction.outcome.Fail? then Failure(withAction.outcome.error) else Success(withAction.state)
  }

  // ---------------------------------------------------------------------------
  // Properties

  /** As written, not even a listed action is accepted. */
  lemma AsWrittenRejectsListedActions(k: KeyState, action: string)
    requires action in SupportedOnDeletes
    ensures k.SetOnDeleteAsWritten(Some(action)).outcome == Fail(UnsupportedOnDelete)
    ensures k.SetOnDelete(Some(action)) == KeyStep(k.(onDelete := Some(action)), Pass)
  {
  }

  /** The `'cascade'` action is rejected as written and stored as intended. */
  lemma CascadeAction()
    ensures BlankKey.SetOnDeleteAsWritten(Some("cascade")).outcome.Fail?
    ensures BlankKey.SetOnDelete(Some("cascade")).state.onDelete == Some("cascade")
  {
    AsWrittenRejectsListedActions(BlankKey, "cascade");
  }

  /** Every setter keeps the action a listed one, in both readings of `setOnDelete`. */
  lemma ApplyKeepsOnDeleteSupported(k: KeyState, call: KeyCall, action: Option<string>)
    requires k.OnDeleteSupported()
    ensures k.Apply(call).state.OnDeleteSupported()
    ensures k.SetOnDeleteAsWritten(action).state.OnDeleteSupported()
  {
  }

  lemma {:induction false} AfterKeepsOnDeleteSupported(k: KeyState, calls: seq<KeyCall>)
    requires k.OnDeleteSupported()
    ensures After(k, calls).OnDeleteSupported()
    decreases calls
  {
    if calls != [] {
      ApplyKeepsOnDeleteSupported(k, calls[0], None);
      AfterKeepsOnDeleteSupported(k.Apply(calls[0]).state, calls[1..]);
    }
  }

  /** Every setter keeps a legal key legal. */
  lemma {:induction false} AfterKeepsLegal(k: KeyState, calls: seq<KeyCall>)
    requires k.Legal()
    ensures After(k, calls).Legal()
    decreases calls
  {
    if calls != [] {
      AfterKeepsLegal(k.Apply(calls[0]).state, calls[1..]);
    }
  }

  /** Construction succeeds exactly when the three names pass their checks and a
      present action is a listed one; a new key holds the three names, and its
      action is null unless the `onDelete` key was given. The errors come in the
      constructor's order: column, references, table, then the action. */
  lemma ConstructedKey(column: string, references: string, on: string, options: KeyOptions)
    ensures Construct(column, references, on, options).Success? <==>
      Naming.ValidColumnName(column) && Naming.ValidColumnName(references) && Naming.ValidTableName(on)
      && (options.onDelete.None? || options.onDelete.value.None?
          || options.onDelete.value.value in SupportedOnDeletes)
    ensures Construct(column, references, on, options).Success? ==>
      Construct(column, references, on, options).value ==
        KeyState(column, references, on, if options.onDelete.Some? then options.onDelete.value else None)
    ensures !Naming.ValidColumnName(column) ==> Construct(column, references, on, options) == Failure(InvalidColumnName)
    ensures Naming.ValidColumnName(column) && !Naming.ValidColumnName(references) ==>
      Construct(column, references, on, options) == Failure(InvalidReferencesName)
    ensures Naming.ValidColumnName(column) && Naming.ValidColumnName(references) && !Naming.ValidTableName(on) ==>
      Construct(column, references, on, options) == Failure(InvalidTableName)
    ensures Naming.ValidColumnName(column) && Naming.ValidColumnName(references) && Naming.ValidTableName(on)
            && options.onDelete.Some? && options.onDelete.value.Some?
            && options.onDelete.value.value !in SupportedOnDeletes ==>
      Construct(column, references, on, options) == Failure(UnsupportedOnDelete)
    ensures Construct(column, references, on, options).Success? ==>
      Construct(column, references, on, options).value.Legal()
  {
  }

  /** As written, construction succeeds exactly when the three names pass and no
      non-null action is given, and the new key never holds an action; where no
      action is given it agrees with the intended constructor. */
  lemma ConstructedKeyAsWritten(column: string, references: string, on: string, options: KeyOptions)
    ensures ConstructAsWritten(column, references, on, options).Success? <==>
      Naming.ValidColumnName(column) && Naming.ValidColumnName(references) && Naming.ValidTableName(on)
      && (options.onDelete.None? || options.onDelete.value.None?)
    ensures ConstructAsWritten(column, references, on, options).Success? ==>
      ConstructAsWritten(column, references, on, options).value == KeyState(column, references, on, None)
    ensures Named(column, references, on).Success? && options.onDelete.Some? && options.onDelete.value.Some? ==>
      ConstructAsWritten(column, references, on, options) == Failure(UnsupportedOnDelete)
    ensures options.onDelete.None? || options.onDelete.value.None? ==>
      ConstructAsWritten(column, references, on, options) == Construct(column, references, on, options)
  {
  }

  /** A key from `user_id` to `id` on `users`, with and without a listed action. */
  lemma UserKey()
    ensures Construct("user_id", "id", "users", KeyOptions(Some(Some("cascade")))) ==
      Success(KeyState("user_id", "id", "users", Some("cascade")))
    ensures Construct("user_id", "id", "users", KeyOptions(Some(Some("no action")))) == Failure(UnsupportedOnDelete)
    ensures Construct("user id", "id", "users", NoKeyOptions) == Failure(InvalidColumnName)
  {
    assert Naming.IsPlainIdentifier("user_id");
    assert Naming.IsPlainIdentifier("id");
    assert Naming.ValidTableName("users");
    Naming.RejectsDigitStartOrSpace("user id");
  }

  /** As written, the same key with `'cascade'` is rejected. */
  lemma UserKeyAsWritten()
    ensures ConstructAsWritten("user_id", "id", "users", KeyOptions(Some(Some("cascade")))) ==
      Failure(UnsupportedOnDelete)
  {
    assert Naming.IsPlainIdentifier("user_id");
    assert Naming.IsPlainIdentifier("id");
    assert Naming.ValidTableName("users");
  }

  // ---------------------------------------------------------------------------
  // The class

  class ForeignKey {
    var column: string
    var references: string
    var on: string
    var onDelete: Option<string>

    function State(): KeyState
      reads this
    {
      KeyState(column, references, on, onDelete)
    }

    /** The object with its property defaults, before any setter ran. */
    constructor Blank()
      ensures State() == BlankKey
    {
      column, references, on, onDelete := "", "", "", None;
    }

    /** The constructor's three name setters on a fresh object. */
    static method NewNamed(column: string, references: string, on: string) returns (r: Result<ForeignKey>)
      ensures r.Success? ==> fresh(r.value) && Named(column, references, on) == Success(r.value.State())
      ensures r.Failure? ==> Named(column, references, on) == Failure(r.error)
    {
      var k := new ForeignKey.Blank();
      var o := k.SetColumn(column);
      if o.Fail? { return Failure(o.error); }
      o := k.SetReferences(references);
      if o.Fail? { return Failure(o.error); }
      o := k.SetOn(on);
      if o.Fail? { return Failure(o.error); }
      return Success(k);
    }

    /** `new ForeignKey($column, $references, $on, $options)` as written. */
    static method NewAsWritten(column: string, references: string, on: string, options: KeyOptions)
      returns (r: Result<ForeignKey>)
      ensures r.Success? ==> fresh(r.value) && ConstructAsWritten(column, references, on, options) == Success(r.value.State())
      ensures r.Failure? ==> ConstructAsWritten(column, references, on, options) == Failure(r.error)
    {
      r := NewNamed(column, references, on);
      if r.Success? && options.onDelete.Some? {
        var o := r.value.SetOnDeleteAsWritten(options.onDelete.value);
        if o.Fail? { return Failure(o.error); }
      }
    }

    /** `new ForeignKey($column, $references, $on, $options)` as intended. */
    static method New(column: string, references: string, on: string, options: KeyOptions)
      returns (r: Result<ForeignKey>)
      ensures r.Success? ==> fresh(r.value) && Construct(column, references, on, options) == Success(r.value.State())
      ensures r.Failure? ==> Construct(column, references, on, options) == Failure(r.error)
    {
      r := NewNamed(column, references, on);
      if r.Success? && options.onDelete.Some? {
        var o := r.value.SetOnDelete(options.onDelete.value);
        if o.Fail? { return Failure(o.error); }
      }
    }

    method SetColumn(newColumn: string) returns (r: Outcome)
      modifies this
      ensures State() == old(State()).SetColumn(newColumn).state
      ensures r == old(State()).SetColumn(newColumn).outcome
    {
      if !Naming.ValidColumnName(newColumn) {
        return Fail(InvalidColumnName);
      }
      column := newColumn;
      return Pass;
    }

    method SetReferences(newReferences: string) returns (r: Outcome)
      modifies this
      ensures State() == old(State()).SetReferences(newReferences).state
      ensures r == old(State()).SetReferences(newReferences).outcome
    {
      if !Naming.ValidColumnName(newReferences) {
        return Fail(InvalidReferencesName);
      }
      references := newReferences;
      return Pass;
    }

    method SetOn(newOn: string) returns (r: Outcome)
      modifies this
      ensures State() == old(State()).SetOn(newOn).state
      ensures r == old(State()).SetOn(newOn).outcome
    {
      if !Naming.ValidTableName(newOn) {
        return Fail(InvalidTableName);
      }
      on := newOn;
      return Pass;
    }

    /** `setOnDelete` as written: the membership test reads the undefined property. */
    method SetOnDeleteAsWritten(action: Option<string>) returns (r: Outcome)
      modifies this
      ensures State() == old(State()).SetOnDeleteAsWritten(action).state
      ensures r == old(State()).SetOnDeleteAsWritten(action).outcome
    {
      if action.Some? && !NullInArray(SupportedOnDeletes) {
        return Fail(UnsupportedOnDelete);
      }
      onDelete := action;
      return Pass;
    }

    /** The intended `setOnDelete`. */
    method SetOnDelete(action: Option<string>) returns (r: Outcome)
      modifies this
      ensures State() == old(State()).SetOnDelete(action).state
      ensures r == old(State()).SetOnDelete(action).outcome
    {
      if action.Some? && action.value !in SupportedOnDeletes {
        return Fail(UnsupportedOnDelete);
      }
      onDelete := action;
      return Pass;
    }
  }

  /** The states of a list of keys, in order. This is `Columns.States` for key
      objects; one generic function would need a lambda with a `reads` clause. */
  function KeyStates(keys: seq<ForeignKey>): (r: seq<KeyState>)
    reads set k | k in keys
    ensures |r| == |keys|
    ensures forall i :: 0 <= i < |keys| ==> r[i] == keys[i].State()
  {
    if keys == [] then [] else [keys[0].State()] + KeyStates(keys[1..])
  }
}
