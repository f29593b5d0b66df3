/** The migration renderer (`Migration.php`, the `build*` methods): three blocks of
    Laravel schema-builder statements, one per line, each line indented by twelve
    spaces. The functions say what comes out; the class `Migration` builds the same
    text by appending, as the source does. */
module Migrations {
  import opened Support
  import Text
  import Columns
  import ForeignKeys
  import Tables
  import Naming

  /** The twelve spaces in front of every statement. */
  const Indent: string := "            "

  // ---------------------------------------------------------------------------
  // One column

  /** The auto-increment form of a type: `integer` becomes `increments` and
      `Integer` becomes `Increments`, wherever they occur. */
  function IncrementsType(columnType: string): string
  {
    Text.ReplaceAll(Text.ReplaceAll(columnType, "integer", "increments"), "Integer", "Increments")
  }

  /** `,n` for a length or fractional part that is set. */
  function LengthArgument(n: Option<int>): string
  {
    if n.Some? then "," + Text.IntToString(n.value) else ""
  }

  /** `$table->type('name')`, or for an auto-increment column the increments type
      and no length arguments. */
  function CreationCall(c: Columns.ColumnState): string
  {
    if c.autoIncrement then "$table->" + IncrementsType(c.columnType) + "('" + c.name + "')"
    else ("$table->" + c.columnType + "('" + c.name + "'") + LengthArgument(c.length) + LengthArgument(c.fractional) + ")"
  }

  /** The argument of `->default(...)`: a numeric string as the integer it casts to,
      another non-empty string quoted; null, `false` and `""` give no clause. */
  function DefaultArgument(d: Columns.DefaultValue): Option<string>
  {
    match d
    case Absent => None
    case FalseValue => None
    case Given(v) =>
      if Text.IsNumeric(v) then Some(Text.IntToString(Text.NumericValue(v)))
      else if |v| > 0 then Some("'" + v + "'")
      else None
  }

  // ---------------------------------------------------------------------------
  // The clauses after the creation call

  datatype Clause = Default(argument: string) | Nullable | Unique | Index | Unsigned | Comment(text: string)
  {
    /** The position of the clause in the fixed order. */
    function Rank(): nat
    {
      match this
      case Default(_) => 0
      case Nullable => 1
      case Unique => 2
      case Index => 3
      case Unsigned => 4
      case Comment(_) => 5
    }

    function Text(): string
    {
      match this
      case Default(a) => "->default(" + a + ")"
      case Nullable => "->nullable()"
      case Unique => "->unique()"
      case Index => "->index()"
      case Unsigned => "->unsigned()"
      case Comment(t) => "->comment('" + t + "')"
    }
  }

  /** The number of clause positions. */
  const ClauseSlots: nat := 6

  /** Whether the column gets the clause of the given rank. */
  function Present(c: Columns.ColumnState, rank: nat): bool
  {
    match rank
    case 0 => DefaultArgument(c.defaultValue).Some?
    case 1 => c.nullable
    case 2 => c.unique
    case 3 => c.index
    case 4 => c.unsigned
    case _ => c.comment.Some?
  }

  /** The clause of the given rank, with the column's argument. */
  function ClauseAt(c: Columns.ColumnState, rank: nat): (r: Clause)
    ensures rank < ClauseSlots ==> r.Rank() == rank
  {
    match rank
    case 0 => Default(var d := DefaultArgument(c.defaultValue); if d.Some? then d.value else "")
    case 1 => Nullable
    case 2 => Unique
    case 3 => Index
    case 4 => Unsigned
    case _ => Comment(if c.comment.Some? then c.comment.value else "")
  }

  /** The statement after the creation call and the clauses of rank below `n`,
      each appended when the column gets it. */
  function Built(c: Columns.ColumnState, n: nat): string
    requires n <= ClauseSlots
  {
    if n == 0 then CreationCall(c)
    else if Present(c, n - 1) then Built(c, n - 1) + ClauseAt(c, n - 1).Text()
    else Built(c, n - 1)
  }

  /** The statement `buildColumn` produces. */
  function ColumnStatement(c: Columns.ColumnState): string
  {
    Built(c, ClauseSlots) + ";"
  }

  function ClausesText(clauses: seq<Clause>): string
  {
    if clauses == [] then "" else clauses[0].Text() + ClausesText(clauses[1..])
  }

  /** The clauses of rank `rank` and above that the column gets, in rank order. */
  function ClausesFrom(c: Columns.ColumnState, rank: nat): seq<Clause>
    requires rank <= ClauseSlots
    decreases ClauseSlots - rank
  {
    if rank == ClauseSlots then []
    else
      var rest := ClausesFrom(c, rank + 1);
      if Present(c, rank) then [ClauseAt(c, rank)] + rest else rest
  }

  /** The clauses from `rank` on come in strictly increasing rank, and a clause is
      among them exactly when its rank is at least `rank` and the column gets it. */
  lemma {:induction false} ClausesFromMeaning(c: Columns.ColumnState, rank: nat)
    requires rank <= ClauseSlots
    ensures var r := ClausesFrom(c, rank);
      && (forall i :: 0 <= i < |r| ==> rank <= r[i].Rank())
      && (forall i, j :: 0 <= i < j < |r| ==> r[i].Rank() < r[j].Rank())
      && (forall cl :: cl in r <==> rank <= cl.Rank() && Present(c, cl.Rank()) && cl == ClauseAt(c, cl.Rank()))
    decreases ClauseSlots - rank
  {
    if rank < ClauseSlots {
      ClausesFromMeaning(c, rank + 1);
      var rest := ClausesFrom(c, rank + 1);
      if Present(c, rank) {
        var r := [ClauseAt(c, rank)] + rest;
        assert forall i :: 1 <= i < |r| ==> r[i] == rest[i - 1];
      }
    }
  }

  /** The clauses a column gets, in the fixed order default, nullable, unique, index,
      unsigned, comment. */
  function Clauses(c: Columns.ColumnState): seq<Clause>
  {
    ClausesFrom(c, 0)
  }

  /** Each clause appears exactly when its field says so, and they come in rank order. */
  lemma ClausesMeaning(c: Columns.ColumnState)
    ensures forall i, j :: 0 <= i < j < |Clauses(c)| ==> Clauses(c)[i].Rank() < Clauses(c)[j].Rank()
    ensures Nullable in Clauses(c) <==> c.nullable
    ensures Unique in Clauses(c) <==> c.unique
    ensures Index in Clauses(c) <==> c.index
    ensures Unsigned in Clauses(c) <==> c.unsigned
    ensures forall t :: Comment(t) in Clauses(c) <==> c.comment == Some(t)
    ensures forall a :: Default(a) in Clauses(c) <==> DefaultArgument(c.defaultValue) == Some(a)
  {
    ClausesFromMeaning(c, 0);
    assert ClauseAt(c, 1) == Nullable && ClauseAt(c, 2) == Unique;
    assert ClauseAt(c, 3) == Index && ClauseAt(c, 4) == Unsigned;
  }

  /** The text of the clause of the given rank, or nothing when the column does not get it. */
  function Piece(c: Columns.ColumnState, rank: nat): string
  {
    if Present(c, rank) then ClauseAt(c, rank).Text() else ""
  }

  /** The text built up to `rank + 1` is the text up to `rank` and that rank's piece. */
  lemma BuiltStep(c: Columns.ColumnState, rank: nat)
    requires rank < ClauseSlots
    ensures Built(c, rank + 1) == Built(c, rank) + Piece(c, rank)
  {
    if !Present(c, rank) {
      assert Built(c, rank) + "" == Built(c, rank);
    }
  }

  /** The clauses from `rank` on: the one of that rank when present, then the rest. */
  lemma ClausesFromStep(c: Columns.ColumnState, rank: nat)
    requires rank < ClauseSlots
    ensures ClausesText(ClausesFrom(c, rank)) == Piece(c, rank) + ClausesText(ClausesFrom(c, rank + 1))
  {
    var rest := ClausesFrom(c, rank + 1);
    if Present(c, rank) {
      assert ([ClauseAt(c, rank)] + rest)[1..] == rest;
    }
  }

  /** Moving a piece from the front of the remainder to the end of the prefix. */
  lemma Shift(before: string, piece: string, rest: string, remainder: string)
    requires remainder == piece + rest
    ensures (before + piece) + rest == before + remainder
  {
  }

  /** One more clause taken into the prefix leaves the whole text the same. */
  lemma BuiltMoves(c: Columns.ColumnState, n: nat)
    requires 0 < n <= ClauseSlots
    ensures Built(c, n) + ClausesText(ClausesFrom(c, n)) == Built(c, n - 1) + ClausesText(ClausesFrom(c, n - 1))
  {
    ClausesFromStep(c, n - 1);
    BuiltStep(c, n - 1);
    Shift(Built(c, n - 1), Piece(c, n - 1), ClausesText(ClausesFrom(c, n)), ClausesText(ClausesFrom(c, n - 1)));
  }

  /** What is built so far, followed by the clauses still to come, is the creation
      call followed by all the clauses. */
  lemma {:induction false} BuiltThenRest(c: Columns.ColumnState, n: nat)
    requires n <= ClauseSlots
    ensures Built(c, n) + ClausesText(ClausesFrom(c, n)) == CreationCall(c) + ClausesText(Clauses(c))
  {
    if n == 0 {
      assert Built(c, n) == CreationCall(c);
    } else {
      BuiltThenRest(c, n - 1);
      BuiltMoves(c, n);
    }
  }

  /** A statement is the creation call, the text of its clauses in order, and `;`. */
  lemma StatementIsClauses(c: Columns.ColumnState)
    ensures ColumnStatement(c) == CreationCall(c) + ClausesText(Clauses(c)) + ";"
  {
    BuiltThenRest(c, ClauseSlots);
    assert Built(c, ClauseSlots) + "" == Built(c, ClauseSlots);
  }

  // ---------------------------------------------------------------------------
  // Properties of one statement

  /** The capitalised pass turns a trailing `Integer` into `Increments`. */
  lemma UpperPass(p: string)
    requires 'I' !in p
    ensures Text.ReplaceAll(p + "Integer", "Integer", "Increments") == p + "Increments"
  {
    Text.ReplaceAllSkipsPrefix(p, "Integer", "Integer", "Increments");
    Text.ReplaceAllMatchHere([], "Integer", "Increments");
    assert "Integer" + [] == "Integer" && "Increments" + [] == "Increments";
  }

  /** The lower-case pass leaves `a` + `i` + `b` + `Integer` alone when that `i` does
      not start `integer`. */
  lemma LowerPass(a: string, b: string)
    requires 'i' !in a && 'i' !in b + "Integer"
    requires !Text.StartsWith(['i'] + (b + "Integer"), "integer")
    ensures Text.ReplaceAll(a + (['i'] + (b + "Integer")), "integer", "increments") == a + (['i'] + (b + "Integer"))
  {
    Text.ReplaceAllSkipsPrefix(a, ['i'] + (b + "Integer"), "integer", "increments");
    Text.ReplaceAllNoMatchHere('i', b + "Integer", "integer", "increments");
    Text.ReplaceAllMissesFirst(b + "Integer", "integer", "increments");
  }

  /** A type `a` + `i` + `b` + `Integer`, with no other `i` or `I` and no `integer`
      starting at that `i`, gets `Increments` in place of its trailing `Integer`. */
  lemma IncrementsOfSuffixed(a: string, b: string)
    requires 'i' !in a && 'i' !in b && 'I' !in a && 'I' !in b
    requires |b| >= 1 && (b[0] != 'n' || (|b| >= 2 && b[1] != 't'))
    ensures IncrementsType(a + (['i'] + (b + "Integer"))) == a + (['i'] + (b + "Increments"))
  {
    var upper := "Integer";
    var s := ['i'] + (b + upper);
    Text.StartsWithIsPrefix(s, "integer");
    assert s[1] == b[0];
    if |b| >= 2 {
      assert s[2] == b[1];
    } else {
      assert s[2] == upper[0];
    }
    assert 'i' !in upper;
    LowerPass(a, b);
    Text.AppendAssoc(['i'], b, upper);
    Text.AppendAssoc(a, ['i'] + b, upper);
    UpperPass(a + (['i'] + b));
    Text.AppendAssoc(['i'], b, "Increments");
    Text.AppendAssoc(a, ['i'] + b, "Increments");
  }

  lemma IncrementsOfTinyInteger(columnType: string)
    requires columnType == "tinyInteger"
    ensures IncrementsType(columnType) == "tinyIncrements"
  {
    IncrementsOfSuffixed("t", "ny");
    assert columnType == "t" + (['i'] + ("ny" + "Integer"));
    assert "t" + (['i'] + ("ny" + "Increments")) == "tinyIncrements";
  }

  lemma IncrementsOfSmallInteger(columnType: string)
    requires columnType == "smallInteger"
    ensures IncrementsType(columnType) == "smallIncrements"
  {
    var upper := "Integer";
    assert columnType == "small" + upper;
    assert 'i' !in "small" && 'i' !in upper;
    Text.ReplaceAllMissesFirst(columnType, "integer", "increments");
    UpperPass("small");
  }

  lemma IncrementsOfInteger(columnType: string)
    requires columnType == "integer"
    ensures IncrementsType(columnType) == "increments"
  {
    assert columnType == "integer" + [];
    Text.ReplaceAllMatchHere([], "integer", "increments");
    assert "increments" + [] == "increments";
    Text.ReplaceAllMissesFirst("increments", "Integer", "Increments");
  }

  lemma IncrementsOfMediumInteger(columnType: string)
    requires columnType == "mediumInteger"
    ensures IncrementsType(columnType) == "mediumIncrements"
  {
    IncrementsOfSuffixed("med", "um");
    assert columnType == "med" + (['i'] + ("um" + "Integer"));
    assert "med" + (['i'] + ("um" + "Increments")) == "mediumIncrements";
  }

  lemma IncrementsOfBigInteger(columnType: string)
    requires columnType == "bigInteger"
    ensures IncrementsType(columnType) == "bigIncrements"
  {
    IncrementsOfSuffixed("b", "g");
    assert columnType == "b" + (['i'] + ("g" + "Integer"));
    assert "b" + (['i'] + ("g" + "Increments")) == "bigIncrements";
  }

  /** The increments form of each auto-increment type. */
  lemma IncrementsTypes(columnType: string)
    ensures columnType == "tinyInteger" ==> IncrementsType(columnType) == "tinyIncrements"
    ensures columnType == "smallInteger" ==> IncrementsType(columnType) == "smallIncrements"
    ensures columnType == "integer" ==> IncrementsType(columnType) == "increments"
    ensures columnType == "mediumInteger" ==> IncrementsType(columnType) == "mediumIncrements"
    ensures columnType == "bigInteger" ==> IncrementsType(columnType) == "bigIncrements"
  {
    if columnType == "tinyInteger" {
      IncrementsOfTinyInteger(columnType);
    } else if columnType == "smallInteger" {
      IncrementsOfSmallInteger(columnType);
    } else if columnType == "integer" {
      IncrementsOfInteger(columnType);
    } else if columnType == "mediumInteger" {
      IncrementsOfMediumInteger(columnType);
    } else if columnType == "bigInteger" {
      IncrementsOfBigInteger(columnType);
    }
  }

  /** A type holding neither `i` nor `I` keeps its name. */
  lemma IncrementsKeepsOtherTypes(columnType: string)
    requires 'i' !in columnType && 'I' !in columnType
    ensures IncrementsType(columnType) == columnType
  {
    Text.ReplaceAllMissesFirst(columnType, "integer", "increments");
    Text.ReplaceAllMissesFirst(columnType, "Integer", "Increments");
  }

  /** A numeric default is written as its integer, so an integer's own text comes
      back unchanged and unquoted. */
  lemma DefaultOfInteger(n: int)
    ensures DefaultArgument(Columns.Given(Text.IntToString(n))) == Some(Text.IntToString(n))
  {
    Text.IntToStringRoundTrip(n);
  }

  /** A non-numeric, non-empty default is quoted; an empty one, `false` and null give no clause. */
  lemma DefaultOfText(v: string)
    ensures !Text.IsNumeric(v) && |v| > 0 ==> DefaultArgument(Columns.Given(v)) == Some("'" + v + "'")
    ensures DefaultArgument(Columns.Given("")).None?
    ensures DefaultArgument(Columns.FalseValue).None? && DefaultArgument(Columns.Absent).None?
  {
  }

  /** Appending keeps a prefix. */
  lemma PrefixKept(a: string, b: string, k: nat)
    requires k <= |a|
    ensures (a + b)[..k] == a[..k]
  {
  }

  /** The creation call starts with `$table->` and holds more than that. */
  lemma CreationCallShape(c: Columns.ColumnState)
    ensures |CreationCall(c)| > 8 && CreationCall(c)[..8] == "$table->"
  {
    var head := "$table->";
    assert head[..8] == head;
    if c.autoIncrement {
      var x1 := head + IncrementsType(c.columnType);
      var x2 := x1 + "('";
      var x3 := x2 + c.name;
      PrefixKept(head, IncrementsType(c.columnType), 8);
      PrefixKept(x1, "('", 8);
      PrefixKept(x2, c.name, 8);
      PrefixKept(x3, "')", 8);
    } else {
      var x1 := head + c.columnType;
      var x2 := x1 + "('";
      var x3 := x2 + c.name;
      var x4 := x3 + "'";
      var x5 := x4 + LengthArgument(c.length);
      var x6 := x5 + LengthArgument(c.fractional);
      PrefixKept(head, c.columnType, 8);
      PrefixKept(x1, "('", 8);
      PrefixKept(x2, c.name, 8);
      PrefixKept(x3, "'", 8);
      PrefixKept(x4, LengthArgument(c.length), 8);
      PrefixKept(x5, LengthArgument(c.fractional), 8);
      PrefixKept(x6, ")", 8);
    }
  }

  lemma {:induction false} BuiltShape(c: Columns.ColumnState, n: nat)
    requires n <= ClauseSlots
    ensures |Built(c, n)| > 8 && Built(c, n)[..8] == "$table->"
  {
    if n == 0 {
      CreationCallShape(c);
    } else {
      BuiltShape(c, n - 1);
      var before := Built(c, n - 1);
      if Present(c, n - 1) {
        assert (before + ClauseAt(c, n - 1).Text())[..8] == before[..8];
      }
    }
  }

  /** Every statement starts with `$table->` and ends with `;`. */
  lemma StatementShape(c: Columns.ColumnState)
    ensures |ColumnStatement(c)| > 8
    ensures ColumnStatement(c)[..8] == "$table->"
    ensures ColumnStatement(c)[|ColumnStatement(c)| - 1] == ';'
  {
    BuiltShape(c, ClauseSlots);
    var built := Built(c, ClauseSlots);
    assert (built + ";")[..8] == built[..8];
  }

  /** A single-line column: none of its strings holds a newline. */
  predicate SingleLine(c: Columns.ColumnState)
  {
    && '\n' !in c.name && '\n' !in c.columnType
    && (c.comment.Some? ==> '\n' !in c.comment.value)
    && (c.defaultValue.Given? ==> '\n' !in c.defaultValue.text)
  }

  lemma CreationCallOneLine(c: Columns.ColumnState)
    requires SingleLine(c)
    ensures '\n' !in CreationCall(c)
  {
    Text.ReplaceAllAvoids(c.columnType, "integer", "increments", '\n');
    Text.ReplaceAllAvoids(Text.ReplaceAll(c.columnType, "integer", "increments"), "Integer", "Increments", '\n');
  }

  lemma ClauseOneLine(c: Columns.ColumnState, rank: nat)
    requires SingleLine(c) && rank < ClauseSlots && Present(c, rank)
    ensures '\n' !in ClauseAt(c, rank).Text()
  {
  }

  lemma {:induction false} BuiltOneLine(c: Columns.ColumnState, n: nat)
    requires SingleLine(c) && n <= ClauseSlots
    ensures '\n' !in Built(c, n)
  {
    if n == 0 {
      CreationCallOneLine(c);
    } else {
      BuiltOneLine(c, n - 1);
      if Present(c, n - 1) {
        ClauseOneLine(c, n - 1);
      }
    }
  }

  /** A statement is a single line when the column's strings hold no newline. */
  lemma StatementOneLine(c: Columns.ColumnState)
    requires SingleLine(c)
    ensures '\n' !in ColumnStatement(c)
  {
    BuiltOneLine(c, ClauseSlots);
  }

  /** Positions whose clause the column does not get add nothing. */
  lemma {:induction false} BuiltSkips(c: Columns.ColumnState, m: nat, n: nat)
    requires m <= n <= ClauseSlots
    requires forall r :: m <= r < n ==> !Present(c, r)
    ensures Built(c, n) == Built(c, m)
    decreases n - m
  {
    if m < n {
      BuiltSkips(c, m, n - 1);
    }
  }

  /** A column that gets no clause is its creation call and `;`. */
  lemma StatementWithoutClauses(c: Columns.ColumnState)
    requires DefaultArgument(c.defaultValue).None? && !c.nullable && !c.unique && !c.index && !c.unsigned
    requires c.comment.None?
    ensures ColumnStatement(c) == CreationCall(c) + ";"
  {
    BuiltSkips(c, 0, ClauseSlots);
  }

  /** A column whose only clause is its default is its creation call, the default
      clause and `;`. */
  lemma StatementWithOnlyDefault(c: Columns.ColumnState, argument: string)
    requires DefaultArgument(c.defaultValue) == Some(argument)
    requires !c.nullable && !c.unique && !c.index && !c.unsigned && c.comment.None?
    ensures ColumnStatement(c) == CreationCall(c) + "->default(" + argument + ");"
  {
    BuiltSkips(c, 1, ClauseSlots);
    DefaultFirst(c, argument);
    assert (CreationCall(c) + "->default(" + argument + ")") + ";" == CreationCall(c) + "->default(" + argument + ");";
  }

  /** The first clause position holds the default. */
  lemma DefaultFirst(c: Columns.ColumnState, argument: string)
    requires DefaultArgument(c.defaultValue) == Some(argument)
    ensures Built(c, 1) == CreationCall(c) + "->default(" + argument + ")"
  {
  }

  /** An unsigned auto-increment column without other clauses is its increments call,
      with no length, followed by `->unsigned()`. */
  lemma AutoIncrementStatement(c: Columns.ColumnState)
    requires c.autoIncrement && c.unsigned && DefaultArgument(c.defaultValue).None?
    requires !c.nullable && !c.unique && !c.index && c.comment.None?
    ensures ColumnStatement(c) == "$table->" + IncrementsType(c.columnType) + "('" + c.name + "')->unsigned();"
  {
    BuiltSkips(c, 0, 4);
    BuiltSkips(c, 5, ClauseSlots);
    var call := "$table->" + IncrementsType(c.columnType) + "('" + c.name + "')";
    assert Built(c, ClauseSlots) == call + "->unsigned()";
  }

  /** The `id` column of the `Account` example as written: the default `"1"` from the
      misrouted `autoIncrement` option is rendered as a default clause. The default's
      text comes in as the parameter `one` because with the literal written into the
      column the verifier unfolds the whole statement and runs out of resources. */
  lemma AccountIdAsWrittenStatement(c: Columns.ColumnState, one: string)
    requires one == "1"
    requires c.name == "id" && c.columnType == "integer" && c.defaultValue == Columns.Given(one)
    requires !c.autoIncrement && c.length.None? && c.fractional.None?
    requires !c.nullable && !c.unique && !c.index && !c.unsigned && c.comment.None?
    ensures ColumnStatement(c) == "$table->integer('id')->default(1);"
  {
    Text.IntToStringRoundTrip(1);
    assert Text.IntToString(1) == one;
    StatementWithOnlyDefault(c, one);
  }

  /** The `id` column as intended renders as an unsigned `increments` column. */
  lemma AccountIdStatement(c: Columns.ColumnState)
    requires c.name == "id" && c.columnType == "integer" && c.autoIncrement && c.unsigned
    requires c.defaultValue == Columns.FalseValue && !c.nullable && !c.unique && !c.index && c.comment.None?
    ensures ColumnStatement(c) == "$table->" + "increments" + "('" + "id" + "')->unsigned();"
  {
    IncrementsOfInteger(c.columnType);
    AutoIncrementStatement(c);
  }

  /** The `name` column renders with its length as the second argument. The length
      is a parameter for the same reason as `one` above. */
  lemma AccountNameStatement(c: Columns.ColumnState, length: int)
    requires length == 255
    requires c.name == "name" && c.columnType == "string" && c.length == Some(length) && c.fractional.None?
    requires !c.autoIncrement && c.defaultValue == Columns.Absent
    requires !c.nullable && !c.unique && !c.index && !c.unsigned && c.comment.None?
    ensures ColumnStatement(c) == "$table->string('name',255);"
  {
    assert Text.IntToString(length) == "255";
    StatementWithoutClauses(c);
  }

  /** The statements of the `Account` example's columns, from their constructor
      options to the text: as written the `id` column gets `->default(1)`; as intended
      it becomes `increments`. */
  lemma AccountStatements()
    ensures var id := Columns.ConstructAsWritten("id", "integer", Columns.NoOptions.(autoIncrement := Some(true)));
      id.Success? && ColumnStatement(id.value) == "$table->integer('id')->default(1);"
    ensures var id := Columns.Construct("id", "integer", Columns.NoOptions.(autoIncrement := Some(true)));
      id.Success? && ColumnStatement(id.value) == "$table->" + "increments" + "('" + "id" + "')->unsigned();"
    ensures var name := Columns.Construct("name", "string", Columns.NoOptions.(length := Some(255)));
      name.Success? && ColumnStatement(name.value) == "$table->string('name',255);"
  {
    Columns.AccountColumns();
    AccountIdAsWrittenStatement(Columns.ConstructAsWritten("id", "integer", Columns.NoOptions.(autoIncrement := Some(true))).value, "1");
    AccountIdStatement(Columns.Construct("id", "integer", Columns.NoOptions.(autoIncrement := Some(true))).value);
    AccountNameStatement(Columns.Construct("name", "string", Columns.NoOptions.(length := Some(255))).value, 255);
  }

  // ---------------------------------------------------------------------------
  // The three blocks

  function ColumnLines(columns: seq<Columns.ColumnState>): seq<string>
  {
    seq(|columns|, i requires 0 <= i < |columns| => Indent + ColumnStatement(columns[i]))
  }

  /** `buildColumns`. */
  function RenderColumns(columns: seq<Columns.ColumnState>): string
  {
    Text.Join(ColumnLines(columns), "\n")
  }

  /** No columns give the empty string; otherwise the lines of the block are the
      indented statements of the columns, one per column, in order. */
  lemma ColumnsBlock(columns: seq<Columns.ColumnState>)
    requires forall i :: 0 <= i < |columns| ==> SingleLine(columns[i])
    ensures columns == [] ==> RenderColumns(columns) == ""
    ensures columns != [] ==> Text.SplitLines(RenderColumns(columns)) == ColumnLines(columns)
    ensures forall i :: 0 <= i < |columns| ==> ColumnLines(columns)[i] == Indent + ColumnStatement(columns[i])
  {
    var lines := ColumnLines(columns);
    forall k | 0 <= k < |lines|
      ensures '\n' !in lines[k]
    {
      StatementOneLine(columns[k]);
    }
    if columns != [] {
      Text.SplitJoin(lines);
    }
  }

  /** The lines `buildSpecialColumns` emits: soft deletes first, then timestamps. */
  function SpecialLines(softDelete: bool, timestamps: bool): seq<string>
  {
    (if softDelete then [Indent + "$table->softDeletes();"] else [])
    + (if timestamps then [Indent + "$table->timestamps();"] else [])
  }

  /** `buildSpecialColumns`. */
  function RenderSpecial(softDelete: bool, timestamps: bool): string
  {
    Text.Join(SpecialLines(softDelete, timestamps), "\n")
  }

  /** The special block holds the soft-deletes line exactly when `softDelete` is on and
      the timestamps line exactly when `timestamps` is on, in that order. */
  lemma SpecialBlock(softDelete: bool, timestamps: bool)
    ensures !softDelete && !timestamps ==> RenderSpecial(softDelete, timestamps) == ""
    ensures softDelete || timestamps ==>
      Text.SplitLines(RenderSpecial(softDelete, timestamps)) == SpecialLines(softDelete, timestamps)
    ensures |SpecialLines(softDelete, timestamps)| == (if softDelete then 1 else 0) + (if timestamps then 1 else 0)
    ensures softDelete && timestamps ==>
      RenderSpecial(softDelete, timestamps) == Indent + "$table->softDeletes();\n" + Indent + "$table->timestamps();"
  {
    var lines := SpecialLines(softDelete, timestamps);
    if softDelete || timestamps {
      Text.SplitJoin(lines);
    }
  }

  /** The statement `buildForeignKey` produces. */
  function KeyStatement(k: ForeignKeys.KeyState): string
  {
    "$table->foreign('" + k.column + "')->references('" + k.references + "')->on('" + k.on + "')"
    + (if k.onDelete.Some? then "->onDelete('" + k.onDelete.value + "')" else "")
    + ";"
  }

  function KeyLines(keys: seq<ForeignKeys.KeyState>): seq<string>
  {
    seq(|keys|, i requires 0 <= i < |keys| => Indent + KeyStatement(keys[i]))
  }

  /** `buildForeignKeys`. */
  function RenderForeignKeys(keys: seq<ForeignKeys.KeyState>): string
  {
    Text.Join(KeyLines(keys), "\n")
  }

  predicate KeySingleLine(k: ForeignKeys.KeyState)
  {
    '\n' !in k.column && '\n' !in k.references && '\n' !in k.on
    && (k.onDelete.Some? ==> '\n' !in k.onDelete.value)
  }

  /** No keys give the empty string; otherwise one indented statement per key, in order. */
  lemma ForeignKeysBlock(keys: seq<ForeignKeys.KeyState>)
    requires forall i :: 0 <= i < |keys| ==> KeySingleLine(keys[i])
    ensures keys == [] ==> RenderForeignKeys(keys) == ""
    ensures keys != [] ==> Text.SplitLines(RenderForeignKeys(keys)) == KeyLines(keys)
    ensures forall i :: 0 <= i < |keys| ==> KeyLines(keys)[i] == Indent + KeyStatement(keys[i])
  {
    var lines := KeyLines(keys);
    if keys != [] {
      Text.SplitJoin(lines);
    }
  }

  /** Every key statement starts with `$table->foreign('` and ends with `;`, and is
      a single line when the key's strings are. */
  lemma KeyStatementShape(k: ForeignKeys.KeyState)
    ensures |KeyStatement(k)| > 17 && KeyStatement(k)[..17] == "$table->foreign('"
    ensures KeyStatement(k)[|KeyStatement(k)| - 1] == ';'
    ensures KeySingleLine(k) ==> '\n' !in KeyStatement(k)
  {
    var head := "$table->foreign('";
    var rest := k.column + "')->references('" + k.references + "')->on('" + k.on + "')"
      + (if k.onDelete.Some? then "->onDelete('" + k.onDelete.value + "')" else "") + ";";
    assert KeyStatement(k) == head + rest;
    PrefixKept(head, rest, 17);
    assert head[..17] == head;
  }

  /** An on-delete action adds its clause just before the `;` and changes nothing
      else in the statement. */
  lemma KeyStatementAction(k: ForeignKeys.KeyState, action: string)
    ensures var plain := KeyStatement(k.(onDelete := None));
      KeyStatement(k.(onDelete := Some(action))) == plain[..|plain| - 1] + "->onDelete('" + action + "');"
  {
    var call := "$table->foreign('" + k.column + "')->references('" + k.references + "')->on('" + k.on + "')";
    var plain := KeyStatement(k.(onDelete := None));
    assert plain == call + ";";
    assert plain[..|plain| - 1] == call;
  }

  /** A line made of the indent and a statement ending in `;`. */
  predicate IndentedStatement(line: string)
  {
    |line| > |Indent| && line[..|Indent|] == Indent && line[|line| - 1] == ';'
  }

  lemma IndentedStatementOf(statement: string)
    requires |statement| > 0 && statement[|statement| - 1] == ';'
    ensures IndentedStatement(Indent + statement)
  {
    PrefixKept(Indent, statement, |Indent|);
  }

  lemma ColumnLinesIndented(columns: seq<Columns.ColumnState>)
    ensures forall i :: 0 <= i < |columns| ==> IndentedStatement(ColumnLines(columns)[i])
  {
    forall i | 0 <= i < |columns|
      ensures IndentedStatement(ColumnLines(columns)[i])
    {
      StatementShape(columns[i]);
      IndentedStatementOf(ColumnStatement(columns[i]));
    }
  }

  lemma SpecialLinesIndented(softDelete: bool, timestamps: bool)
    ensures forall line :: line in SpecialLines(softDelete, timestamps) ==> IndentedStatement(line)
  {
    IndentedStatementOf("$table->softDeletes();");
    IndentedStatementOf("$table->timestamps();");
  }

  lemma KeyLinesIndented(keys: seq<ForeignKeys.KeyState>)
    ensures forall i :: 0 <= i < |keys| ==> IndentedStatement(KeyLines(keys)[i])
  {
    forall i | 0 <= i < |keys|
      ensures IndentedStatement(KeyLines(keys)[i])
    {
      KeyStatementShape(keys[i]);
      IndentedStatementOf(KeyStatement(keys[i]));
    }
  }

  /** Every line of the three blocks starts with the twelve-space indent and ends with `;`. */
  lemma LinesIndentedAndTerminated(columns: seq<Columns.ColumnState>, softDelete: bool, timestamps: bool,
                                   keys: seq<ForeignKeys.KeyState>)
    ensures forall line :: line in ColumnLines(columns) + SpecialLines(softDelete, timestamps) + KeyLines(keys) ==>
      IndentedStatement(line)
  {
    ColumnLinesIndented(columns);
    SpecialLinesIndented(softDelete, timestamps);
    KeyLinesIndented(keys);
    var cl, sl, kl := ColumnLines(columns), SpecialLines(softDelete, timestamps), KeyLines(keys);
    forall line | line in cl + sl + kl
      ensures IndentedStatement(line)
    {
      if line in cl {
        var i :| 0 <= i < |cl| && cl[i] == line;
      } else if line in kl {
        var i :| 0 <= i < |kl| && kl[i] == line;
      }
    }
  }

  /** Two columns make two lines. */
  lemma TwoColumns(a: Columns.ColumnState, b: Columns.ColumnState)
    ensures RenderColumns([a, b]) == Indent + ColumnStatement(a) + "\n" + Indent + ColumnStatement(b)
  {
    var lines := ColumnLines([a, b]);
    assert lines == [Indent + ColumnStatement(a), Indent + ColumnStatement(b)];
    assert lines[1..] == [Indent + ColumnStatement(b)];
    assert Text.Join(lines[1..], "\n") == Indent + ColumnStatement(b);
    assert Text.Join(lines, "\n") == lines[0] + "\n" + Text.Join(lines[1..], "\n");
    assert (Indent + ColumnStatement(a)) + "\n" + (Indent + ColumnStatement(b))
        == Indent + ColumnStatement(a) + "\n" + Indent + ColumnStatement(b);
  }

  /** The `Account` example's columns block as intended: the `id` line, a newline and
      the `name` line. */
  lemma AccountColumnsBlock()
    ensures var id := Columns.Construct("id", "integer", Columns.NoOptions.(autoIncrement := Some(true)));
      var name := Columns.Construct("name", "string", Columns.NoOptions.(length := Some(255)));
      id.Success? && name.Success? &&
      RenderColumns([id.value, name.value]) ==
        Indent + ("$table->" + "increments" + "('" + "id" + "')->unsigned();") + "\n" +
        Indent + "$table->string('name',255);"
  {
    AccountStatements();
    var id := Columns.Construct("id", "integer", Columns.NoOptions.(autoIncrement := Some(true))).value;
    var name := Columns.Construct("name", "string", Columns.NoOptions.(length := Some(255))).value;
    TwoColumns(id, name);
  }

  /** The `Account` table with `timestamps` off and its two columns, from the
      constructors' options to the three blocks, as intended: the `increments` line
      for `id` and the `string` line for `name`, no special line and no key line. */
  lemma AccountTable()
    ensures var t := Tables.Construct("Account", Tables.TableOptions(Some(false), None));
      var id := Columns.Construct("id", "integer", Columns.NoOptions.(autoIncrement := Some(true)));
      var name := Columns.Construct("name", "string", Columns.NoOptions.(length := Some(255)));
      && t.Success? && id.Success? && name.Success?
      && var full := t.value.AddColumn(id.value).AddColumn(name.value);
      && RenderColumns(full.columns) ==
           Indent + ("$table->" + "increments" + "('" + "id" + "')->unsigned();") + "\n" +
           Indent + "$table->string('name',255);"
      && RenderSpecial(full.softDelete, full.timestamps) == ""
      && RenderForeignKeys(full.foreignKeys) == ""
  {
    assert Naming.ValidTableName("Account");
    Tables.ConstructedTable("Account", Tables.TableOptions(Some(false), None));
    AccountColumnsBlock();
    var t := Tables.Construct("Account", Tables.TableOptions(Some(false), None)).value;
    var id := Columns.Construct("id", "integer", Columns.NoOptions.(autoIncrement := Some(true))).value;
    var name := Columns.Construct("name", "string", Columns.NoOptions.(length := Some(255))).value;
    var full := t.AddColumn(id).AddColumn(name);
    assert full.columns == [id, name];
    assert full.foreignKeys == [] && !full.softDelete && !full.timestamps;
  }

  /** The same table as written: the `id` line is an `integer` column with
      `->default(1)`. */
  lemma AccountTableAsWritten()
    ensures var t := Tables.Construct("Account", Tables.TableOptions(Some(false), None));
      var id := Columns.ConstructAsWritten("id", "integer", Columns.NoOptions.(autoIncrement := Some(true)));
      var name := Columns.Construct("name", "string", Columns.NoOptions.(length := Some(255)));
      && t.Success? && id.Success? && name.Success?
      && RenderColumns(t.value.AddColumn(id.value).AddColumn(name.value).columns) ==
           Indent + "$table->integer('id')->default(1);" + "\n" + Indent + "$table->string('name',255);"
  {
    assert Naming.ValidTableName("Account");
    Tables.ConstructedTable("Account", Tables.TableOptions(Some(false), None));
    AccountStatements();
    var t := Tables.Construct("Account", Tables.TableOptions(Some(false), None)).value;
    var id := Columns.ConstructAsWritten("id", "integer", Columns.NoOptions.(autoIncrement := Some(true))).value;
    var name := Columns.Construct("name", "string", Columns.NoOptions.(length := Some(255))).value;
    assert t.AddColumn(id).AddColumn(name).columns == [id, name];
    TwoColumns(id, name);
  }

  /** The key from `user_id` to `id` on `users` with `'cascade'`, as intended, renders
      with its on-delete clause. */
  lemma UserKeyStatement()
    ensures var k := ForeignKeys.Construct("user_id", "id", "users", ForeignKeys.KeyOptions(Some(Some("cascade"))));
      k.Success? &&
      KeyStatement(k.value) ==
        "$table->foreign('" + "user_id" + "')->references('" + "id" + "')->on('" + "users" + "')"
        + "->onDelete('" + "cascade" + "')" + ";"
  {
    ForeignKeys.UserKey();
    var k := ForeignKeys.KeyState("user_id", "id", "users", Some("cascade"));
    assert KeyStatement(k) ==
        "$table->foreign('" + "user_id" + "')->references('" + "id" + "')->on('" + "users" + "')"
        + "->onDelete('" + "cascade" + "')" + ";";
  }

  // ---------------------------------------------------------------------------
  // The class

  class Migration {
    const table: Tables.Table

    /** The renderer of one table; the migration's name, path and file creator are
        not part of this model. */
    constructor (table: Tables.Table)
      ensures this.table == table
    {
      this.table := table;
    }

    /** `buildColumn`: the statement grows by one append per present clause. */
    method BuildColumn(column: Columns.Column) returns (cmd: string)
      ensures cmd == ColumnStatement(column.State())
    {
      ghost var c := column.State();
      cmd := "";
      var name := column.name;
      var columnType := column.columnType;
      if column.autoIncrement {
        columnType := Text.ReplaceAll(columnType, "integer", "increments");
        columnType := Text.ReplaceAll(columnType, "Integer", "Increments");
        assert columnType == IncrementsType(c.columnType);
        cmd := cmd + ("$table->" + columnType + "('" + name + "')");
      } else {
        cmd := cmd + ("$table->" + columnType + "('" + name + "'");
        ghost var call := "$table->" + c.columnType + "('" + c.name + "'";
        assert cmd == call;
        if column.length.Some? {
          cmd := cmd + ("," + Text.IntToString(column.length.value));
        }
        call := call + LengthArgument(c.length);
        assert cmd == call;
        if column.fractional.Some? {
          cmd := cmd + ("," + Text.IntToString(column.fractional.value));
        }
        call := call + LengthArgument(c.fractional);
        assert cmd == call;
        cmd := cmd + ")";
      }
      assert cmd == CreationCall(c);
      match column.defaultValue {
        case Given(v) =>
          if Text.IsNumeric(v) {
            cmd := cmd + ("->default(" + Text.IntToString(Text.NumericValue(v)) + ")");
          } else if |v| > 0 {
            cmd := cmd + ("->default('" + v + "')");
            assert "->default('" + v + "')" == "->default(" + ("'" + v + "'") + ")";
          }
        case FalseValue =>
        case Absent =>
      }
      assert cmd == Built(c, 1);
      if column.nullable {
        cmd := cmd + "->nullable()";
      }
      assert cmd == Built(c, 2);
      if column.unique {
        cmd := cmd + "->unique()";
      }
      assert cmd == Built(c, 3);
      if column.index {
        cmd := cmd + "->index()";
      }
      assert cmd == Built(c, 4);
      if column.unsigned {
        cmd := cmd + "->unsigned()";
      }
      assert cmd == Built(c, 5);
      if column.comment.Some? {
        cmd := cmd + ("->comment('" + column.comment.value + "')");
      }
      assert cmd == Built(c, 6);
      cmd := cmd + ";";
    }

    /** `buildColumns`. */
    method BuildColumns() returns (s: string)
      ensures s == RenderColumns(Columns.States(table.columns))
    {
      var columns := table.columns;
      ghost var states := Columns.States(columns);
      var commands: seq<string> := [];
      for i := 0 to |columns|
        invariant |commands| == i
        invariant forall j :: 0 <= j < i ==> commands[j] == Indent + ColumnStatement(states[j])
      {
        var cmd := BuildColumn(columns[i]);
        commands := commands + [Indent + cmd];
      }
      assert commands == ColumnLines(states);
      s := Text.Join(commands, "\n");
    }

    /** `buildSpecialColumns`. */
    method BuildSpecialColumns() returns (s: string)
      ensures s == RenderSpecial(table.softDelete, table.timestamps)
    {
      var commands: seq<string> := [];
      if table.softDelete {
        commands := commands + [Indent + "$table->softDeletes();"];
      }
      if table.timestamps {
        commands := commands + [Indent + "$table->timestamps();"];
      }
      s := Text.Join(commands, "\n");
    }

    /** `buildForeignKey`. */
    method BuildForeignKey(foreignKey: ForeignKeys.ForeignKey) returns (cmd: string)
      ensures cmd == KeyStatement(foreignKey.State())
    {
      cmd := "";
      cmd := cmd + ("$table->foreign('" + foreignKey.column + "')->references('" + foreignKey.references
        + "')->on('" + foreignKey.on + "')");
      if foreignKey.onDelete.Some? {
        cmd := cmd + ("->onDelete('" + foreignKey.onDelete.value + "')");
      }
      cmd := cmd + ";";
    }

    /** `buildForeignKeys`. */
    method BuildForeignKeys() returns (s: string)
      ensures s == RenderForeignKeys(ForeignKeys.KeyStates(table.foreignKeys))
    {
      var keys := table.foreignKeys;
      var commands: seq<string> := [];
      for i := 0 to |keys|
        invariant |commands| == i
        invariant forall j :: 0 <= j < i ==> commands[j] == Indent + KeyStatement(keys[j].State())
      {
        var cmd := BuildForeignKey(keys[i]);
        commands := commands + [Indent + cmd];
      }
      assert commands == KeyLines(ForeignKeys.KeyStates(keys));
      s := Text.Join(commands, "\n");
    }
  }
}
