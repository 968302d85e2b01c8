/** Inputs the route's validator accepts although they break the SQL it builds. The three
    patterns of src/lib/validators.ts carry the `m` flag, so a value passes as soon as one of
    its lines is a token; the other lines may hold double quotes, commas or blanks. The
    corrected, whole-string readings and their round-trip properties are
    `Validators.StrictName`, `Validators.StrictTableName`, `Validation.StrictWhereValid`,
    `Compiler.SelectListSplits`, `ConditionParser.TableNameRoundTrip` and
    `ConditionParser.ConditionInjective`. */
module Findings {
  import opened Wrappers
  import opened Strings
  import opened WhereClause
  import opened ExecuteQueryRequest
  import opened Validators
  import opened Validation
  import opened Compiler
  import opened ConditionParser

  /** The operands of the two colliding comparisons below each pass the operand pattern on
      their first line. */
  lemma CollidingOperandsAccepted()
    ensures QueryClauseValidator("a\n") && QueryClauseValidator("b\n\" = \"c")
    ensures QueryClauseValidator("a\n\" = \"b\n") && QueryClauseValidator("c")
  {
    assert MatchAt("a\n", QueryClausePattern, 0, 1) by {
      assert "a\n"[0..1] == "a";
    }
    assert MatchAt("b\n\" = \"c", QueryClausePattern, 0, 1) by {
      assert "b\n\" = \"c"[0..1] == "b";
    }
    assert MatchAt("a\n\" = \"b\n", QueryClausePattern, 0, 1) by {
      assert "a\n\" = \"b\n"[0..1] == "a";
    }
    assert MatchAt("c", QueryClausePattern, 0, 1);
  }

  /** The renderings of the two comparisons below. */
  lemma FirstCollidingRendering()
    ensures Condition(Simple("=", "a\n", "b\n\" = \"c")) == "(\"a\n\" = \"b\n\" = \"c\")"
  {
    var q := "\"";
    assert Operand("a\n") == q + "a\n" + q;
    assert Operand("b\n\" = \"c") == q + "b\n\" = \"c" + q;
  }

  lemma SecondCollidingRendering()
    ensures Condition(Simple("=", "a\n\" = \"b\n", "c")) == "(\"a\n\" = \"b\n\" = \"c\")"
  {
    var q := "\"";
    assert Operand("a\n\" = \"b\n") == q + "a\n\" = \"b\n" + q;
    assert Operand("c") == q + "c" + q;
  }

  /** Two different accepted comparisons render to the same condition: a double quote on the
      second line of an operand closes the quoted column early. */
  lemma OperandsCollide()
    ensures var w1 := Simple("=", "a\n", "b\n\" = \"c");
            var w2 := Simple("=", "a\n\" = \"b\n", "c");
            WhereError(w1) == None && WhereError(w2) == None && w1 != w2 && Condition(w1) == Condition(w2)
  {
    var w1 := Simple("=", "a\n", "b\n\" = \"c");
    var w2 := Simple("=", "a\n\" = \"b\n", "c");
    FirstCollidingRendering();
    SecondCollidingRendering();
    assert w1.value1 != w2.value1 by {
      assert |w1.value1| != |w2.value1|;
    }
    CollidingOperandsAccepted();
  }

  /** An accepted field name holding `","` on a later line: the select list of one field
      reads as two double-quoted entries. */
  lemma FieldNameSplitsSelectList()
    ensures var fields := [SelectField("none", "a\n\",\"b")];
            SelectFieldsError(fields) == None && Split(SelectList(fields), ',') == ["\"a\n\"", "\"b\""]
  {
    CommaFieldAccepted();
    CommaFieldText();
    CommaTextSplits();
  }

  /** The field name `a`, line feed, `","b` passes: its first line is an identifier. */
  lemma CommaFieldAccepted()
    ensures SelectFieldsError([SelectField("none", "a\n\",\"b")]) == None
  {
    assert MatchAt("a\n\",\"b", NamePattern, 0, 1) by {
      assert "a\n\",\"b"[0..1] == "a";
    }
    assert FieldError(SelectField("none", "a\n\",\"b")) == None;
  }

  /** Its select list is the name in double quotes. */
  lemma CommaFieldText()
    ensures SelectList([SelectField("none", "a\n\",\"b")]) == "\"a\n\",\"b\""
  {
    var item := SelectItem(SelectField("none", "a\n\",\"b"));
    assert SelectItems([SelectField("none", "a\n\",\"b")]) == [item];
    assert Join([item], ",") == item;
    assert item == "\"" + "a\n\",\"b" + "\"";
  }

  /** That text splits on its comma into two double-quoted identifiers. */
  lemma CommaTextSplits()
    ensures Split("\"a\n\",\"b\"", ',') == ["\"a\n\"", "\"b\""]
  {
    CommaTextFirstPart();
    assert Split("\"b\"", ',') == ["\"b\""] by {
      assert IndexOf("\"b\"", ',') == 3;
    }
  }

  /** The part before the comma is `"a`, line feed, `"`. */
  lemma CommaTextFirstPart()
    ensures Split("\"a\n\",\"b\"", ',') == ["\"a\n\""] + Split("\"b\"", ',')
  {
    var text := "\"a\n\",\"b\"";
    assert IndexOf(text, ',') == 4;
    assert text[..4] == "\"a\n\"";
    assert text[5..] == "\"b\"";
  }

  /** An accepted table name holding a double quote: the quoted name in the FROM clause ends
      before the name does. */
  lemma TableNameEndsQuoteEarly(rest: string)
    ensures var t := "a\n\";x";
            TableNameError(t) == None &&
            ParseOperand("\"" + t + "\"" + rest) == Some(("a\n", ";x\"" + rest))
  {
    var t := "a\n\";x";
    assert MatchAt(t, TableNamePattern, 0, 1) by {
      assert t[0..1] == "a";
    }
    var s := "\"" + t + "\"" + rest;
    assert s[1..] == "a\n" + ['"'] + (";x\"" + rest);
    IndexOfAfter("a\n", '"', ";x\"" + rest);
    assert s[1..3] == "a\n";
    assert s[4..] == ";x\"" + rest;
  }
}
