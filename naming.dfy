/** The two identifier rules: `Column::validateName`, used for column names and
    for a foreign key's `column` and `references`, and `Table::validateName`,
    used for table names and for a foreign key's `on`.
    Letters and digits are the ASCII ones here (see README, "Left out"). */
module Naming {
  import Text

  /** `[[:alpha:]]` and `\p{L}`. */
  predicate IsLetter(c: char)
  {
    'a' <= c <= 'z' || 'A' <= c <= 'Z'
  }

  /** `[[:alpha:]_]`, and for table names `[\p{L}_]`. */
  predicate IsWordStart(c: char)
  {
    IsLetter(c) || c == '_'
  }

  /** `[[:alnum:]_]`. */
  predicate IsWordChar(c: char)
  {
    IsLetter(c) || Text.IsDigit(c) || c == '_'
  }

  /** `[\p{L}\p{N}@$#_]`. */
  predicate IsTableNameChar(c: char)
  {
    IsWordChar(c) || c == '@' || c == '$' || c == '#'
  }

  // ---------------------------------------------------------------------------
  // Column::validateName: ^([[:alpha:]_][[:alnum:]_]*|("[^"]*")+)$

  predicate AllWordChars(s: string)
  {
    s == [] || (IsWordChar(s[0]) && AllWordChars(s[1..]))
  }

  /** First alternative: a letter or `_`, then any number of letters, digits and `_`. */
  predicate IsPlainIdentifier(s: string)
  {
    |s| >= 1 && IsWordStart(s[0]) && AllWordChars(s[1..])
  }

  /** Second alternative, read by a small automaton: `s` starts a quoted segment. */
  predicate IsQuotedIdentifier(s: string)
    decreases |s|, 1
  {
    |s| >= 1 && s[0] == '"' && InSegment(s[1..])
  }

  /** `s` is what follows an opening quote: segment text up to the closing quote,
      then either the end or another quoted segment. */
  predicate InSegment(s: string)
    decreases |s|, 0
  {
    |s| >= 1 &&
    if s[0] == '"' then s[1..] == [] || IsQuotedIdentifier(s[1..])
    else InSegment(s[1..])
  }

  /** `Column::validateName`. */
  predicate ValidColumnName(s: string)
  {
    IsPlainIdentifier(s) || IsQuotedIdentifier(s)
  }

  // The pattern's own reading of the two alternatives.

  lemma {:induction false} AllWordCharsAt(s: string)
    ensures AllWordChars(s) <==> forall i :: 0 <= i < |s| ==> IsWordChar(s[i])
  {
    if s != [] {
      AllWordCharsAt(s[1..]);
      assert forall i :: 1 <= i < |s| ==> s[i] == s[1..][i - 1];
    }
  }

  /** The plain alternative is exactly "a letter or `_`, then letters, digits or `_`". */
  lemma PlainIdentifierMeaning(s: string)
    ensures IsPlainIdentifier(s) <==>
      |s| >= 1 && IsWordStart(s[0]) && forall i :: 1 <= i < |s| ==> IsWordChar(s[i])
  {
    if |s| >= 1 {
      AllWordCharsAt(s[1..]);
      assert forall i :: 1 <= i < |s| ==> s[i] == s[1..][i - 1];
    }
  }

  function Quote(segment: string): string
  {
    "\"" + segment + "\""
  }

  /** The concatenation of the quoted segments. */
  function QuotedJoin(segments: seq<string>): string
  {
    if segments == [] then "" else Quote(segments[0]) + QuotedJoin(segments[1..])
  }

  predicate QuoteFree(segments: seq<string>)
  {
    forall k :: 0 <= k < |segments| ==> '"' !in segments[k]
  }

  /** `("[^"]*")+`: one or more double-quoted segments without inner quotes. */
  ghost predicate MatchesQuotedPattern(s: string)
  {
    exists segments :: |segments| >= 1 && QuoteFree(segments) && s == QuotedJoin(segments)
  }

  lemma {:induction false} InSegmentOfSegment(segment: string, rest: string)
    requires '"' !in segment
    ensures InSegment(segment + "\"" + rest) <==> rest == [] || IsQuotedIdentifier(rest)
  {
    var s := segment + "\"" + rest;
    if segment == [] {
      assert s[0] == '"' && s[1..] == rest;
    } else {
      assert s[0] == segment[0] && s[1..] == segment[1..] + "\"" + rest;
      InSegmentOfSegment(segment[1..], rest);
    }
  }

  lemma {:induction false} QuotedComplete(segments: seq<string>)
    requires |segments| >= 1 && QuoteFree(segments)
    ensures IsQuotedIdentifier(QuotedJoin(segments))
  {
    var rest := QuotedJoin(segments[1..]);
    var s := QuotedJoin(segments);
    assert s == "\"" + (segments[0] + "\"" + rest);
    assert s[1..] == segments[0] + "\"" + rest;
    if |segments| > 1 {
      QuotedComplete(segments[1..]);
    }
    InSegmentOfSegment(segments[0], rest);
  }

  /** What an opening quote is followed by, split into the segment and the rest. */
  lemma {:induction false} InSegmentSplit(s: string) returns (segment: string, rest: string)
    requires InSegment(s)
    ensures '"' !in segment
    ensures s == segment + "\"" + rest
    ensures rest == [] || IsQuotedIdentifier(rest)
    ensures |rest| < |s|
  {
    if s[0] == '"' {
      segment, rest := [], s[1..];
    } else {
      var seg', rest' := InSegmentSplit(s[1..]);
      segment, rest := [s[0]] + seg', rest';
    }
  }

  lemma {:induction false} QuotedSound(s: string) returns (segments: seq<string>)
    requires IsQuotedIdentifier(s)
    ensures |segments| >= 1 && QuoteFree(segments) && s == QuotedJoin(segments)
    decreases |s|
  {
    var segment, rest := InSegmentSplit(s[1..]);
    if rest == [] {
      segments := [segment];
    } else {
      var more := QuotedSound(rest);
      segments := [segment] + more;
      assert segments[1..] == more;
    }
    assert s == [s[0]] + s[1..];
  }

  /** The automaton accepts exactly the strings of one or more quoted segments. */
  lemma QuotedIdentifierMeaning(s: string)
    ensures IsQuotedIdentifier(s) <==> MatchesQuotedPattern(s)
  {
    if IsQuotedIdentifier(s) {
      var segments := QuotedSound(s);
    }
    if MatchesQuotedPattern(s) {
      var segments :| |segments| >= 1 && QuoteFree(segments) && s == QuotedJoin(segments);
      QuotedComplete(segments);
    }
  }

  /** A string that neither starts with a quote nor is a plain identifier, because it
      starts with a digit or holds a space, is not a column name. */
  lemma RejectsDigitStartOrSpace(s: string)
    requires |s| >= 1 && s[0] != '"'
    requires Text.IsDigit(s[0]) || ' ' in s
    ensures !ValidColumnName(s)
    ensures !ValidTableName(s)
  {
    PlainIdentifierMeaning(s);
    TableNameMeaning(s);
  }

  // ---------------------------------------------------------------------------
  // Table::validateName: ^[\p{L}_][\p{L}\p{N}@$#_]{0,127}$  (case-insensitive)

  predicate AllTableNameChars(s: string)
  {
    s == [] || (IsTableNameChar(s[0]) && AllTableNameChars(s[1..]))
  }

  /** `Table::validateName`. */
  predicate ValidTableName(s: string)
  {
    1 <= |s| <= 128 && IsWordStart(s[0]) && AllTableNameChars(s[1..])
  }

  lemma {:induction false} AllTableNameCharsAt(s: string)
    ensures AllTableNameChars(s) <==> forall i :: 0 <= i < |s| ==> IsTableNameChar(s[i])
  {
    if s != [] {
      AllTableNameCharsAt(s[1..]);
      assert forall i :: 1 <= i < |s| ==> s[i] == s[1..][i - 1];
    }
  }

  /** Table names are 1 to 128 characters: a letter or `_`, then letters, digits, `@`, `$`, `#`, `_`. */
  lemma TableNameMeaning(s: string)
    ensures ValidTableName(s) <==>
      1 <= |s| <= 128 && IsWordStart(s[0]) && forall i :: 1 <= i < |s| ==> IsTableNameChar(s[i])
  {
    if |s| >= 1 {
      AllTableNameCharsAt(s[1..]);
      assert forall i :: 1 <= i < |s| ==> s[i] == s[1..][i - 1];
    }
  }

  /** A plain column name of at most 128 characters is also a table name; the
      converse fails (`@`, `$`, `#` and quoted names). */
  lemma PlainColumnNameIsTableName(s: string)
    requires IsPlainIdentifier(s) && |s| <= 128
    ensures ValidTableName(s)
    ensures !ValidColumnName("a@b") && ValidTableName("a@b")
  {
    PlainIdentifierMeaning(s);
    TableNameMeaning(s);
  }
}
