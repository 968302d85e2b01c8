/** A reader for the condition text that `generateCondition` emits. It is the independent
    partner of the compiler's filter rendering: for every filter tree accepted under the
    whole-string reading (whitelisted operators, at least two children in every group,
    operands that are whole-string tokens), reading the rendering gives the tree back, so two
    such trees never render to the same SQL. */
module ConditionParser {
  import opened Wrappers
  import opened Strings
  import opened WhereOperations
  import opened WhereClause
  import opened Validators
  import opened Validation
  import opened Compiler

  /** One operand at the head of `s`: a single-quoted literal up to its closing quote, kept
      with its quotes, or a double-quoted column, returned without them. */
  function ParseOperand(s: string): (r: Option<(string, string)>)
    ensures r.Some? ==> |r.value.1| < |s|
  {
    if |s| == 0 then None
    else if s[0] == '\'' then
      var k := IndexOf(s[1..], '\'');
      if k == |s| - 1 then None else Some((s[..k + 2], s[k + 2..]))
    else if s[0] == '"' then
      var k := IndexOf(s[1..], '"');
      if k == |s| - 1 then None else Some((s[1..k + 1], s[k + 2..]))
    else None
  }

  /** The word at the head of `s`, up to the next blank; the blank stays in the rest. */
  function ParseWord(s: string): (r: (string, string))
    ensures r.0 + r.1 == s
    ensures ' ' !in r.0
  {
    var k := IndexOf(s, ' ');
    assert s[..k] + s[k..] == s;
    (s[..k], s[k..])
  }

  /** One parenthesised condition at the head of `s`: a group when a second parenthesis
      follows, a comparison otherwise. */
  function ParseCondition(s: string): (r: Option<(WhereOperation, string)>)
    ensures r.Some? ==> |r.value.1| < |s|
    decreases |s|, 0
  {
    if |s| < 2 || s[0] != '(' then None
    else if s[1] == '(' then ParseGroup(s[1..])
    else ParseComparison(s[1..])
  }

  /** `left op right)` at the head of `s`. */
  function ParseComparison(s: string): (r: Option<(WhereOperation, string)>)
    ensures r.Some? ==> |r.value.1| < |s|
  {
    match ParseOperand(s)
    case None => None
    case Some((left, afterLeft)) =>
      if |afterLeft| == 0 || afterLeft[0] != ' ' then None
      else
        var (op, afterOp) := ParseWord(afterLeft[1..]);
        if |afterOp| == 0 then None
        else
          match ParseOperand(afterOp[1..])
          case None => None
          case Some((right, afterRight)) =>
            if |afterRight| == 0 || afterRight[0] != ')' then None
            else Some((Simple(op, left, right), afterRight[1..]))
  }

  /** The children of a group and its closing parenthesis, the opening one already read. The
      operator is the word after the first child. */
  function ParseGroup(s: string): (r: Option<(WhereOperation, string)>)
    ensures r.Some? ==> |r.value.1| < |s|
    decreases |s|, 1
  {
    match ParseCondition(s)
    case None => None
    case Some((first, rest)) =>
      var op := if |rest| > 0 then ParseWord(rest[1..]).0 else "";
      ParseGroupTail(rest, op, [first])
  }

  /** The further children of a group, each behind ` op `, up to the closing parenthesis;
      `children` holds those read so far. */
  function ParseGroupTail(s: string, op: string, children: seq<WhereOperation>): (r: Option<(WhereOperation, string)>)
    ensures r.Some? ==> |r.value.1| < |s|
    decreases |s|, 2
  {
    if |s| > 0 && s[0] == ')' then Some((Complex(op, children), s[1..]))
    else
      var sep := " " + op + " ";
      if |s| < |sep| || s[..|sep|] != sep then None
      else
        match ParseCondition(s[|sep|..])
        case None => None
        case Some((child, rest)) => ParseGroupTail(rest, op, children + [child])
  }

  /** An operand rendered from a whole-string token is read back whole, whatever follows. */
  lemma OperandRoundTrip(v: string, rest: string)
    requires StrictQueryClause(v)
    ensures ParseOperand(Operand(v) + rest) == Some((v, rest))
  {
    if IsQuotedLiteral(v) {
      assert Operand(v) == v;
      LiteralRoundTrip(v, rest);
    } else {
      assert IsIdentifier(v);
      assert '"' !in v by {
        forall k | 0 <= k < |v| ensures v[k] != '"' {
          assert k == 0 || IsIdentifierPart(v[k]);
        }
      }
      assert Operand(v) == "\"" + v + "\"";
      ColumnRoundTrip(v, rest);
    }
  }

  /** A single-quoted literal is read up to its closing quote and kept with its quotes. */
  lemma LiteralRoundTrip(v: string, rest: string)
    requires IsQuotedLiteral(v)
    ensures ParseOperand(v + rest) == Some((v, rest))
  {
    var s := v + rest;
    var body := v[1..|v| - 1];
    assert s[1..] == body + ['\''] + rest;
    assert '\'' !in body;
    IndexOfAfter(body, '\'', rest);
    assert s[..|v|] == v;
    assert s[|v|..] == rest;
  }

  /** A double-quoted column without a double quote inside is read back without its quotes. */
  lemma ColumnRoundTrip(v: string, rest: string)
    requires '"' !in v
    ensures ParseOperand("\"" + v + "\"" + rest) == Some((v, rest))
  {
    var s := "\"" + v + "\"" + rest;
    assert s[1..] == v + ['"'] + rest;
    IndexOfAfter(v, '"', rest);
    assert s[1..|v| + 1] == v;
    assert s[|v| + 2..] == rest;
  }

  /** A word without blanks followed by a blank is read up to that blank. */
  lemma WordRoundTrip(op: string, rest: string)
    requires ' ' !in op
    ensures ParseWord(op + " " + rest) == (op, " " + rest)
  {
    IndexOfAfter(op, ' ', rest);
    var s := op + " " + rest;
    assert s == op + [' '] + rest;
    assert s[..|op|] == op;
    assert s[|op|..] == " " + rest;
  }

  /** Dropping the one-character head of a text. */
  lemma DropHead(c: string, x: string)
    requires |c| == 1
    ensures (c + x)[1..] == x
  {
  }

  /** The inside of a comparison, after its opening parenthesis, is read back when both
      operands are whole-string tokens and the operator holds no blank. */
  lemma ComparisonBodyRoundTrip(v1: string, op: string, v2: string, rest: string)
    requires StrictQueryClause(v1) && StrictQueryClause(v2) && ' ' !in op
    ensures ParseComparison(Operand(v1) + (" " + (op + (" " + (Operand(v2) + (")" + rest)))))) ==
      Some((Simple(op, v1, v2), rest))
  {
    var right := Operand(v2) + (")" + rest);
    var afterOp := " " + right;
    var afterLeft := " " + (op + afterOp);
    assert ParseOperand(Operand(v1) + afterLeft) == Some((v1, afterLeft)) by {
      OperandRoundTrip(v1, afterLeft);
    }
    assert afterLeft[0] == ' ' && afterLeft[1..] == op + afterOp by {
      DropHead(" ", op + afterOp);
    }
    assert ParseWord(op + afterOp) == (op, afterOp) by {
      WordRoundTrip(op, right);
      assert op + " " + right == op + afterOp;
    }
    assert afterOp[1..] == right by {
      DropHead(" ", right);
    }
    assert ParseOperand(right) == Some((v2, ")" + rest)) by {
      OperandRoundTrip(v2, ")" + rest);
    }
    assert (")" + rest)[0] == ')' && (")" + rest)[1..] == rest by {
      DropHead(")", rest);
    }
  }


  /** Regrouping a chain of appends to the right. */
  lemma AppendToRight(a: string, b: string, c: string, d: string, e: string, f: string, g: string, h: string)
    ensures a + b + c + d + e + f + g + h == a + (b + (c + (d + (e + (f + (g + h))))))
  {
    assert a + b + c == a + (b + c);
    assert a + b + c + d == a + (b + (c + d));
    assert a + b + c + d + e == a + (b + (c + (d + e)));
    assert a + b + c + d + e + f == a + (b + (c + (d + (e + f))));
    assert a + b + c + d + e + f + g == a + (b + (c + (d + (e + (f + g)))));
  }

  /** A comparison with a whitelisted operator over whole-string operands is read back from
      its rendering. */
  lemma ComparisonRoundTrip(w: WhereOperation, rest: string)
    requires w.Simple? && StrictWhereValid(w)
    ensures ParseCondition(Condition(w) + rest) == Some((w, rest))
  {
    var body := Operand(w.value1) + (" " + (w.operator + (" " + (Operand(w.value2) + (")" + rest)))));
    var s := Condition(w) + rest;
    assert Condition(w) == SimpleCondition(w);
    assert s == "(" + Operand(w.value1) + " " + w.operator + " " + Operand(w.value2) + ")" + rest;
    AppendToRight("(", Operand(w.value1), " ", w.operator, " ", Operand(w.value2), ")", rest);
    assert s == "(" + body;
    DropHead("(", body);
    assert ParseCondition(s) == ParseComparison(body) by {
      assert |s| >= 2 && s[0] == '(' && s[1] != '(';
    }
    OperatorIsWord(w.operator);
    ComparisonBodyRoundTrip(w.value1, w.operator, w.value2, rest);
  }

  /** Every filter tree accepted under the whole-string reading is read back from its
      rendering, whatever text follows it. */
  lemma {:induction false} ConditionRoundTrip(w: WhereOperation, rest: string)
    requires StrictWhereValid(w)
    ensures ParseCondition(Condition(w) + rest) == Some((w, rest))
    decreases w, 2, 0, 0
  {
    if w.Simple? {
      ComparisonRoundTrip(w, rest);
    } else {
      GroupRoundTrip(w, rest);
    }
  }

  /** What follows a separator-prefixed list: the separator, the first item, the rest. */
  lemma PrefixedStep(sep: string, xs: seq<string>, after: string)
    requires |xs| >= 1
    ensures Prefixed(sep, xs) + after == sep + (xs[0] + (Prefixed(sep, xs[1..]) + after))
  {
    assert Prefixed(sep, xs) == sep + xs[0] + Prefixed(sep, xs[1..]);
  }

  /** The operator of a group is read from the separator after its first child. */
  lemma SeparatorWord(op: string, x: string)
    requires ' ' !in op
    ensures ParseWord(((" " + op + " ") + x)[1..]).0 == op
  {
    assert ((" " + op + " ") + x)[1..] == op + " " + x;
    WordRoundTrip(op, x);
  }

  /** One step of reading a group's further children: a separator, then a condition. */
  lemma GroupTailStep(op: string, x: string, children: seq<WhereOperation>, child: WhereOperation, rest: string)
    requires ParseCondition(x) == Some((child, rest))
    ensures ParseGroupTail((" " + op + " ") + x, op, children) == ParseGroupTail(rest, op, children + [child])
  {
    var sep := " " + op + " ";
    var s := sep + x;
    assert s[0] == ' ';
    assert s[..|sep|] == sep;
    assert s[|sep|..] == x;
  }

  /** Opening a group: the rendering starts with two parentheses, the outer one read here and
      the inner one the start of the first child. */
  lemma GroupOpening(w: WhereOperation, rest: string)
    requires w.Complex? && |w.operations| >= 1
    ensures ParseCondition(Condition(w) + rest) ==
      ParseGroup(Condition(w.operations[0]) +
                 (Prefixed(" " + w.operator + " ", Conditions(w.operations[1..])) + (")" + rest)))
  {
    var first := Condition(w.operations[0]);
    var tail := Prefixed(" " + w.operator + " ", Conditions(w.operations[1..]));
    GroupText(w);
    var s := Condition(w) + rest;
    assert s == "(" + first + tail + ")" + rest;
    Regroup("(", first, tail, ")", rest);
    assert s == "(" + (first + (tail + (")" + rest)));
    DropHead("(", first + (tail + (")" + rest)));
  }

  /** A group accepted under the whole-string reading is read back: its first child, the
      operator taken from the separator after it, then the remaining children. */
  lemma {:induction false} GroupRoundTrip(w: WhereOperation, rest: string)
    requires w.Complex? && StrictWhereValid(w)
    ensures ParseCondition(Condition(w) + rest) == Some((w, rest))
    decreases w, 1, 0, 0
  {
    var children := w.operations;
    var sep := " " + w.operator + " ";
    var afterFirst := Prefixed(sep, Conditions(children[1..])) + (")" + rest);
    GroupOpening(w, rest);
    StrictChild(w, 0);
    ConditionRoundTrip(children[0], afterFirst);
    var later := Prefixed(sep, Conditions(children[1..])[1..]) + (")" + rest);
    PrefixedStep(sep, Conditions(children[1..]), ")" + rest);
    OperatorIsWord(w.operator);
    SeparatorWord(w.operator, Conditions(children[1..])[0] + later);
    assert children[..1] == [children[0]];
    TailRoundTrip(w, 1, rest);
  }

  /** Every child of a valid group is valid and lower than the group. */
  lemma StrictChild(w: WhereOperation, i: nat)
    requires w.Complex? && StrictWhereValid(w) && i < |w.operations|
    ensures StrictWhereValid(w.operations[i]) && w.operations[i] < w
  {
  }

  /** Whether the text of a group's children from the `i`-th on and its closing parenthesis,
      with `rest` after it, is read into the whole group once the children before are read. */
  ghost predicate TailReadBack(w: WhereOperation, i: nat, rest: string)
    requires w.Complex? && i <= |w.operations|
  {
    ParseGroupTail(Prefixed(" " + w.operator + " ", Conditions(w.operations[i..])) + (")" + rest),
                   w.operator, w.operations[..i]) == Some((w, rest))
  }

  /** When every child is accepted under the whole-string reading, the children of a group
      from the `i`-th on are read back, those before already read. */
  lemma {:induction false} TailRoundTrip(w: WhereOperation, i: nat, rest: string)
    requires w.Complex? && forall k :: 0 <= k < |w.operations| ==> StrictWhereValid(w.operations[k])
    requires 1 <= i <= |w.operations|
    ensures TailReadBack(w, i, rest)
    decreases w, 0, |w.operations| - i, 1
  {
    if i == |w.operations| {
      TailClose(w, rest);
    } else {
      TailRoundTrip(w, i + 1, rest);
      TailChildRoundTrip(w, i, rest);
    }
  }

  /** Once every child is read, the closing parenthesis ends the group. */
  lemma TailClose(w: WhereOperation, rest: string)
    requires w.Complex?
    ensures TailReadBack(w, |w.operations|, rest)
  {
    var n := |w.operations|;
    assert w.operations[n..] == [];
    assert Prefixed(" " + w.operator + " ", Conditions(w.operations[n..])) == "";
    assert "" + (")" + rest) == ")" + rest;
    DropHead(")", rest);
    assert w.operations[..n] == w.operations;
  }

  /** When every child is accepted under the whole-string reading, reading the `i`-th child
      of a group moves it from the text to the children read. */
  lemma {:induction false} TailChildRoundTrip(w: WhereOperation, i: nat, rest: string)
    requires w.Complex? && forall k :: 0 <= k < |w.operations| ==> StrictWhereValid(w.operations[k])
    requires 1 <= i < |w.operations|
    requires TailReadBack(w, i + 1, rest)
    ensures TailReadBack(w, i, rest)
    decreases w, 0, |w.operations| - i, 0
  {
    var children := w.operations;
    var sep := " " + w.operator + " ";
    var closing := ")" + rest;
    var xs := Conditions(children[i..]);
    var child := children[i];
    var later := Prefixed(sep, Conditions(children[i + 1..])) + closing;
    assert Prefixed(sep, xs) + closing == sep + (Condition(child) + later) by {
      PrefixedStep(sep, xs, closing);
      ConditionsTail(children[i..]);
      assert children[i..][1..] == children[i + 1..];
      assert xs[0] == Condition(child);
    }
    assert ParseCondition(Condition(child) + later) == Some((child, later)) by {
      ConditionRoundTrip(child, later);
    }
    GroupTailStep(w.operator, Condition(child) + later, children[..i], child, later);
    assert children[..i] + [child] == children[..i + 1];
  }

  /** Distinct filter trees accepted under the whole-string reading render to distinct SQL. */
  lemma ConditionInjective(w1: WhereOperation, w2: WhereOperation)
    requires StrictWhereValid(w1) && StrictWhereValid(w2)
    requires Condition(w1) == Condition(w2)
    ensures w1 == w2
  {
    ConditionRoundTrip(w1, "");
    ConditionRoundTrip(w2, "");
    assert Condition(w1) + "" == Condition(w1);
    assert Condition(w2) + "" == Condition(w2);
  }

  /** The table name of the FROM clause is read back whole from between its double quotes
      when it is a whole-string identifier. */
  lemma TableNameRoundTrip(t: string, rest: string)
    requires StrictTableName(t)
    ensures ParseOperand("\"" + t + "\"" + rest) == Some((t, rest))
  {
    assert '"' !in t by {
      forall k | 0 <= k < |t| ensures t[k] != '"' {
        assert k == 0 || IsIdentifierPart(t[k]);
      }
    }
    ColumnRoundTrip(t, rest);
  }
}
