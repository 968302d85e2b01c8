/** The three identifier and operand patterns of src/lib/validators.ts, written as predicates.

    All three carry the flags `i` and `m`. Without the `u` flag, `[a-z]` under `i` matches
    exactly the ASCII letters of either case. The `m` flag makes `^` match at the start of the
    input or after a line terminator, and `$` at the end of the input or before one, and
    `RegExp.prototype.test` succeeds when a match exists anywhere. So `test(s)` holds when some
    stretch of `s` that starts at a line start and ends at a line end is a token. */
module Validators {

  /** The ECMAScript line terminators: LF, CR, LINE SEPARATOR, PARAGRAPH SEPARATOR. */
  predicate IsLineTerminator(c: char)
  {
    c == '\n' || c == '\r' || c == '\U{2028}' || c == '\U{2029}'
  }

  /** `[a-z_]` under the `i` flag. */
  predicate IsIdentifierStart(c: char)
  {
    ('a' <= c <= 'z') || ('A' <= c <= 'Z') || c == '_'
  }

  /** `[a-z_0-9]` under the `i` flag. */
  predicate IsIdentifierPart(c: char)
  {
    IsIdentifierStart(c) || ('0' <= c <= '9')
  }

  /** `[a-z_][a-z_0-9]*` */
  predicate IsIdentifier(t: string)
  {
    |t| >= 1 && IsIdentifierStart(t[0]) && forall k :: 1 <= k < |t| ==> IsIdentifierPart(t[k])
  }

  /** `'[^']*'`: a single-quoted literal without an embedded quote. The class `[^']`
      also matches line terminators. */
  predicate IsQuotedLiteral(t: string)
  {
    |t| >= 2 && t[0] == '\'' && t[|t| - 1] == '\'' && forall k :: 1 <= k < |t| - 1 ==> t[k] != '\''
  }

  /** The alternatives of the field-name pattern: an identifier or `*`. */
  predicate IsNameToken(t: string)
  {
    IsIdentifier(t) || t == "*"
  }

  /** The alternatives of the query-clause pattern: a quoted literal or an identifier. */
  predicate IsClauseToken(t: string)
  {
    IsQuotedLiteral(t) || IsIdentifier(t)
  }

  predicate SingleLine(t: string)
  {
    forall k :: 0 <= k < |t| ==> !IsLineTerminator(t[k])
  }

  /** `^` under the `m` flag. */
  predicate LineStart(s: string, i: int)
    requires 0 <= i <= |s|
  {
    i == 0 || IsLineTerminator(s[i - 1])
  }

  /** `$` under the `m` flag. */
  predicate LineEnd(s: string, j: int)
    requires 0 <= j <= |s|
  {
    j == |s| || IsLineTerminator(s[j])
  }

  /** The three patterns, by the token language between their anchors. */
  datatype Pattern = NamePattern | TableNamePattern | QueryClausePattern

  /** The token language of each pattern. */
  predicate Accepts(p: Pattern, t: string)
  {
    match p
    case NamePattern => IsNameToken(t)
    case TableNamePattern => IsIdentifier(t)
    case QueryClausePattern => IsClauseToken(t)
  }

  /** `s[i..j]` is a match of `/^(X)$/m`, where `X` is the token language of `p`. */
  predicate MatchAt(s: string, p: Pattern, i: int, j: int)
  {
    0 <= i <= j <= |s| && LineStart(s, i) && LineEnd(s, j) && Accepts(p, s[i..j])
  }

  /** `/^(X)$/im.test(s)`: a match exists somewhere in `s`. */
  predicate MultilineTest(s: string, p: Pattern)
  {
    exists i, j | 0 <= i <= |s| && i <= j <= |s| :: MatchAt(s, p, i, j)
  }

  /** `postgreSQLNameValidator.test(s)`: `/(^[a-z_][a-z_0-9]*$)|(^\*$)/im` */
  predicate NameValidator(s: string)
  {
    MultilineTest(s, NamePattern)
  }

  /** `postgreSQLTableNameValidator.test(s)`: `/^[a-z_][a-z_0-9]*$/im` */
  predicate TableNameValidator(s: string)
  {
    MultilineTest(s, TableNamePattern)
  }

  /** `posrgreSQLQueryClauseValidator.test(s)`: `/^(('[^']*')|([a-z_][a-z_0-9]*))$/im` */
  predicate QueryClauseValidator(s: string)
  {
    MultilineTest(s, QueryClausePattern)
  }

  /** The same patterns read as whole-string matches, without the `m` flag: the reading
      under which they keep quotes and line breaks out of names. Each is stronger than the
      pattern as written. */
  predicate StrictName(s: string)
    ensures StrictName(s) ==> NameValidator(s)
  {
    WholeMatch(s, NamePattern);
    IsNameToken(s)
  }

  predicate StrictTableName(s: string)
    ensures StrictTableName(s) ==> TableNameValidator(s)
  {
    WholeMatch(s, TableNamePattern);
    IsIdentifier(s)
  }

  predicate StrictQueryClause(s: string)
    ensures StrictQueryClause(s) ==> QueryClauseValidator(s)
  {
    WholeMatch(s, QueryClausePattern);
    IsClauseToken(s)
  }

  /** A whole input that is a token is a match. */
  lemma WholeMatch(s: string, p: Pattern)
    ensures Accepts(p, s) ==> MultilineTest(s, p)
  {
    assert s[0..|s|] == s;
    if Accepts(p, s) {
      assert MatchAt(s, p, 0, |s|);
    }
  }

  /** On input without line terminators, the `m` flag changes nothing: the test holds
      exactly when the whole input is a token. */
  lemma {:induction false} SingleLineTest(s: string, p: Pattern)
    requires SingleLine(s)
    ensures MultilineTest(s, p) <==> Accepts(p, s)
  {
    WholeMatch(s, p);
    if MultilineTest(s, p) {
      var i, j :| 0 <= i <= |s| && i <= j <= |s| && MatchAt(s, p, i, j);
      assert i == 0 && j == |s|;
      assert s[i..j] == s;
    }
  }

  /** None of the three patterns accepts the empty string. */
  lemma EmptyRejected()
    ensures !NameValidator("") && !TableNameValidator("") && !QueryClauseValidator("")
  {
    SingleLineTest("", NamePattern);
    SingleLineTest("", TableNamePattern);
    SingleLineTest("", QueryClausePattern);
  }

  /** `*` is a field name, and an identifier may not start with a digit. */
  lemma NameExamples()
    ensures NameValidator("*") && NameValidator("user_Id2") && !NameValidator("1abc")
  {
    SingleLineTest("*", NamePattern);
    SingleLineTest("user_Id2", NamePattern);
    SingleLineTest("1abc", NamePattern);
  }

  /** `*` is not a table name, nor is an identifier starting with a digit. */
  lemma TableNameExamples()
    ensures !TableNameValidator("*") && !TableNameValidator("1abc") && TableNameValidator("_Users")
  {
    SingleLineTest("*", TableNamePattern);
    SingleLineTest("1abc", TableNamePattern);
    SingleLineTest("_Users", TableNamePattern);
  }

  /** Quoted literals, the empty literal included, and identifiers are operands. */
  lemma QueryClauseExamples()
    ensures QueryClauseValidator("'active'") && QueryClauseValidator("''") && QueryClauseValidator("status")
  {
    SingleLineTest("'active'", QueryClausePattern);
    SingleLineTest("''", QueryClausePattern);
    SingleLineTest("status", QueryClausePattern);
  }

  /** `*`, a literal embedding a quote and an identifier starting with a digit are not operands. */
  lemma QueryClauseRejections()
    ensures !QueryClauseValidator("*") && !QueryClauseValidator("'a'b'") && !QueryClauseValidator("1x")
  {
    SingleLineTest("*", QueryClausePattern);
    assert "'a'b'"[2] == '\'';
    SingleLineTest("'a'b'", QueryClausePattern);
    SingleLineTest("1x", QueryClausePattern);
  }

  /** The index just past the first line: the first line terminator, or `|s|`. */
  function FirstLineEnd(s: string): (k: nat)
    ensures k <= |s| && LineEnd(s, k)
    ensures forall m :: 0 <= m < k ==> !IsLineTerminator(s[m])
  {
    if s == [] || IsLineTerminator(s[0]) then 0 else 1 + FirstLineEnd(s[1..])
  }

  /** The lines of `s`: the stretches between line terminators (a CR LF pair encloses an empty line). */
  function Lines(s: string): (lines: seq<string>)
    ensures |lines| >= 1
    decreases |s|
  {
    var k := FirstLineEnd(s);
    if k == |s| then [s] else [s[..k]] + Lines(s[k + 1..])
  }

  /** Field names and table names never span lines; quoted literals may. */
  lemma TokensOnOneLine(p: Pattern, t: string)
    requires p != QueryClausePattern && Accepts(p, t)
    ensures SingleLine(t)
  {
  }

  /** After the first line: a match in the rest of the input is a match in the input. */
  lemma ShiftMatch(s: string, p: Pattern, k: nat, i: int, j: int)
    requires k < |s| && IsLineTerminator(s[k])
    requires MatchAt(s[k + 1..], p, i, j)
    ensures MatchAt(s, p, i + k + 1, j + k + 1)
  {
    assert s[i + k + 1..j + k + 1] == s[k + 1..][i..j];
  }

  /** A match that starts after the first line terminator is a match in the rest of the input. */
  lemma UnshiftMatch(s: string, p: Pattern, k: nat, i: int, j: int)
    requires k < |s| && k < i
    requires MatchAt(s, p, i, j)
    ensures MatchAt(s[k + 1..], p, i - (k + 1), j - (k + 1))
  {
    assert s[k + 1..][i - (k + 1)..j - (k + 1)] == s[i..j];
  }

  /** The lines after the first are the lines of the rest of the input. */
  lemma LinesAfterFirst(s: string, n: nat)
    requires FirstLineEnd(s) < |s|
    ensures |Lines(s)| == |Lines(s[FirstLineEnd(s) + 1..])| + 1
    ensures n < |Lines(s[FirstLineEnd(s) + 1..])| ==> Lines(s)[n + 1] == Lines(s[FirstLineEnd(s) + 1..])[n]
  {
  }

  /** A field-name or table-name match at the start of the input is the first line. */
  lemma FirstLineMatch(s: string, p: Pattern, j: int)
    requires p != QueryClausePattern
    requires MatchAt(s, p, 0, j)
    ensures Accepts(p, Lines(s)[0])
  {
    var k := FirstLineEnd(s);
    TokensOnOneLine(p, s[0..j]);
    assert Lines(s)[0] == s[0..k];
  }

  /** A match of the field-name or table-name test is one whole line. */
  lemma {:induction false} MatchIsALine(s: string, p: Pattern)
    requires p != QueryClausePattern
    requires MultilineTest(s, p)
    ensures exists n :: 0 <= n < |Lines(s)| && Accepts(p, Lines(s)[n])
    decreases |s|
  {
    var k := FirstLineEnd(s);
    var i, j :| 0 <= i <= |s| && i <= j <= |s| && MatchAt(s, p, i, j);
    if i == 0 {
      FirstLineMatch(s, p, j);
    } else {
      assert k < i;
      var rest := s[k + 1..];
      assert MultilineTest(rest, p) by { UnshiftMatch(s, p, k, i, j); }
      MatchIsALine(rest, p);
      var n :| 0 <= n < |Lines(rest)| && Accepts(p, Lines(rest)[n]);
      assert n + 1 < |Lines(s)| && Accepts(p, Lines(s)[n + 1]) by { LinesAfterFirst(s, n); }
    }
  }

  /** Conversely, a line that is a token is a match. */
  lemma {:induction false} LineIsAMatch(s: string, p: Pattern, n: nat)
    requires n < |Lines(s)| && Accepts(p, Lines(s)[n])
    ensures MultilineTest(s, p)
    decreases |s|
  {
    var k := FirstLineEnd(s);
    if n == 0 {
      assert Lines(s)[0] == s[0..k];
      assert MatchAt(s, p, 0, k);
    } else {
      var rest := s[k + 1..];
      LinesAfterFirst(s, n - 1);
      LineIsAMatch(rest, p, n - 1);
      var i, j :| 0 <= i <= |rest| && i <= j <= |rest| && MatchAt(rest, p, i, j);
      ShiftMatch(s, p, k, i, j);
    }
  }

  /** The field-name test succeeds exactly when some line of the value is an identifier or `*`. */
  lemma NameValidatorByLines(s: string)
    ensures NameValidator(s) <==> exists n :: 0 <= n < |Lines(s)| && IsNameToken(Lines(s)[n])
  {
    if NameValidator(s) {
      MatchIsALine(s, NamePattern);
    }
    if n :| 0 <= n < |Lines(s)| && IsNameToken(Lines(s)[n]) {
      LineIsAMatch(s, NamePattern, n);
    }
  }

  /** The table-name test succeeds exactly when some line of the value is an identifier. */
  lemma TableNameValidatorByLines(s: string)
    ensures TableNameValidator(s) <==> exists n :: 0 <= n < |Lines(s)| && IsIdentifier(Lines(s)[n])
  {
    if TableNameValidator(s) {
      MatchIsALine(s, TableNamePattern);
    }
    if n :| 0 <= n < |Lines(s)| && IsIdentifier(Lines(s)[n]) {
      LineIsAMatch(s, TableNamePattern, n);
    }
  }

  /** A value of two lines, `a` and `";x`, passes the field-name and table-name tests although
      it carries a double quote and a line break. */
  lemma MultilineValueAccepted()
    ensures NameValidator("a\n\";x") && TableNameValidator("a\n\";x")
    ensures '"' in "a\n\";x"
  {
    var s := "a\n\";x";
    assert s[0..1] == "a";
    assert MatchAt(s, NamePattern, 0, 1) && MatchAt(s, TableNamePattern, 0, 1);
    assert s[2] == '"';
  }

  /** The literal branch `[^']*` crosses line breaks: a quoted literal may span lines. */
  lemma LiteralSpansLines()
    ensures QueryClauseValidator("'a\nb'")
  {
    var s := "'a\nb'";
    assert IsQuotedLiteral(s);
    WholeMatch(s, QueryClausePattern);
  }
}
