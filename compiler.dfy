/** The SQL text compiler of src/app/api/executeQuery/route.ts: the select list built in `POST`,
    `generateAggregateSelectQuery`, `generateWhereClause`, `generateCondition`,
    `generateSimpleCondition` and `generateComplexCondition`, and the assembly of the query
    by successive appends. It runs only on validated requests. */
module Compiler {
  import opened Wrappers
  import opened Strings
  import opened SelectAggregation
  import opened WhereClause
  import opened ExecuteQueryRequest
  import opened Validators

  /** The first `map` of the select fields: `*` stays bare, any other column is double-quoted. */
  function QuoteColumn(value: string): string
  {
    if value == "*" then "*" else "\"" + value + "\""
  }

  /** `generateAggregateSelectQuery(operator, field)`: the call, then a lower-case `as` and an
      alias holding the call with every double quote removed. */
  function AggregateSelect(operator: string, field: string): string
  {
    var call := operator + "(" + field + ")";
    var alias := operator + "(" + RemoveAll(field, '"') + ")";
    call + " as " + "\"" + alias + "\""
  }

  /** One entry of the select list (the `switch` on the tag). The `default` branch, which
      throws, is unreachable because every tag is whitelisted. */
  function SelectItem(field: SelectField): string
    requires IsAggregation(field.aggregation)
  {
    var column := QuoteColumn(field.value);
    if field.aggregation == "none" then column else AggregateSelect(SqlFunction(field.aggregation), column)
  }

  predicate AllAggregationsKnown(fields: seq<SelectField>)
  {
    forall k :: 0 <= k < |fields| ==> IsAggregation(fields[k].aggregation)
  }

  /** The select entries, one per field, in the order of the fields. */
  function SelectItems(fields: seq<SelectField>): (items: seq<string>)
    requires AllAggregationsKnown(fields)
    ensures |items| == |fields|
    ensures forall k :: 0 <= k < |fields| ==> items[k] == SelectItem(fields[k])
  {
    if fields == [] then [] else [SelectItem(fields[0])] + SelectItems(fields[1..])
  }

  /** The select list: the entries joined with `,`, no blank. */
  function SelectList(fields: seq<SelectField>): string
    requires AllAggregationsKnown(fields)
  {
    Join(SelectItems(fields), ",")
  }

  /** The operand rule of `generateSimpleCondition`: text starting with `'` is passed through
      as a literal, anything else is double-quoted as a column. */
  function Operand(value: string): string
  {
    if |value| > 0 && value[0] == '\'' then value else "\"" + value + "\""
  }

  /** `generateCondition`: the rendering of a filter node; it starts with `(` and ends with `)`. */
  function Condition(w: WhereOperation): (r: string)
    ensures |r| >= 2 && r[0] == '(' && r[|r| - 1] == ')'
    decreases w, 1
  {
    match w
    case Simple(_, _, _) => SimpleCondition(w)
    case Complex(_, _) => ComplexCondition(w)
  }

  /** `generateSimpleCondition`: `(left operator right)`, value1 on the left. */
  function SimpleCondition(w: WhereOperation): string
    requires w.Simple?
  {
    "(" + Operand(w.value1) + " " + w.operator + " " + Operand(w.value2) + ")"
  }

  /** `generateComplexCondition`: the children's renderings joined by the operator between
      blanks, exactly as given (lower-case), in one pair of parentheses. */
  function ComplexCondition(w: WhereOperation): string
    requires w.Complex?
    decreases w, 0
  {
    "(" + Join(Conditions(w.operations), " " + w.operator + " ") + ")"
  }

  /** The renderings of `children`, in order. */
  function Conditions(children: seq<WhereOperation>): (rs: seq<string>)
    ensures |rs| == |children|
    ensures forall k :: 0 <= k < |children| ==> rs[k] == Condition(children[k])
  {
    if children == [] then [] else [Condition(children[0])] + Conditions(children[1..])
  }

  /** `generateWhereClause`: nothing for a null filter, else ` WHERE ` and the condition. */
  function WhereClauseText(req: Request): string
  {
    match req.whereClause
    case None => ""
    case Some(w) => " WHERE " + Condition(w)
  }

  /** The full query text of `POST`: `SELECT `, the select list, ` FROM `, the double-quoted
      table name and a blank, then the where clause. */
  function QueryText(req: Request): string
    requires AllAggregationsKnown(req.selectFields)
  {
    "SELECT " + SelectList(req.selectFields) + " FROM " + "\"" + req.tableName + "\" " + WhereClauseText(req)
  }

  /** The query assembly of `POST`, by successive appends to a local string. */
  method AssembleQuery(req: Request) returns (query: string)
    requires AllAggregationsKnown(req.selectFields)
    ensures query == QueryText(req)
  {
    query := "SELECT ";
    var selectQuery := SelectList(req.selectFields);
    query := query + selectQuery;
    query := query + " FROM ";
    query := query + "\"" + req.tableName + "\" ";
    query := query + WhereClauseText(req);
  }

  /** An aggregated column other than `*`: the call quotes the column, and the alias repeats
      the call with every double quote removed, those of the column included, as in
      `AVG("price") as "AVG(price)"`. */
  lemma {:induction false} AggregateOfColumn(tag: string, v: string)
    requires IsAggregation(tag) && tag != "none"
    requires v != "*"
    ensures var f := SqlFunction(tag);
      SelectItem(SelectField(tag, v)) ==
        (f + "(" + ("\"" + v + "\"") + ")") + " as " + "\"" + (f + "(" + RemoveAll(v, '"') + ")") + "\""
  {
    var q := "\"";
    RemoveAllConcat(q + v, q, '"');
    RemoveAllConcat(q, v, '"');
    assert RemoveAll(q, '"') == "";
    var column := q + v + q;
    assert RemoveAll(column, '"') == RemoveAll(v, '"');
    assert QuoteColumn(v) == column;
    assert SelectItem(SelectField(tag, v)) == AggregateSelect(SqlFunction(tag), column);
  }

  /** `*` is never quoted, neither alone nor inside an aggregate. */
  lemma StarIsBare()
    ensures SelectItem(SelectField("none", "*")) == "*"
    ensures SelectItem(SelectField("count", "*")) == ("COUNT" + "(" + "*" + ")") + " as " + "\"" + ("COUNT" + "(" + "*" + ")") + "\""
    ensures SelectItem(SelectField("avg", "*")) == ("AVG" + "(" + "*" + ")") + " as " + "\"" + ("AVG" + "(" + "*" + ")") + "\""
  {
    StarAggregate("count");
    StarAggregate("avg");
  }

  /** An aggregate over `*`: the call with a bare `*`, aliased by the same text. */
  lemma StarAggregate(tag: string)
    requires IsAggregation(tag) && tag != "none"
    ensures var f := SqlFunction(tag);
      SelectItem(SelectField(tag, "*")) == (f + "(" + "*" + ")") + " as " + "\"" + (f + "(" + "*" + ")") + "\""
  {
    assert QuoteColumn("*") == "*";
    assert RemoveAll("*", '"') == "*";
  }

  /** A select entry with a whitelisted tag over a whole-string field name holds no comma. */
  lemma {:induction false} SelectItemHasNoComma(field: SelectField)
    requires IsAggregation(field.aggregation) && StrictName(field.value)
    ensures ',' !in SelectItem(field)
  {
    var column := QuoteColumn(field.value);
    assert ',' !in field.value by {
      forall k | 0 <= k < |field.value| ensures field.value[k] != ',' {
      }
    }
    assert ',' !in column;
    if field.aggregation != "none" {
      var name := SqlFunction(field.aggregation);
      assert ',' !in name by {
        forall k | 0 <= k < |name| ensures name[k] != ',' {
          assert 'a' <= field.aggregation[k] <= 'z';
        }
      }
      assert ',' !in RemoveAll(column, '"');
    }
  }

  /** Every tag whitelisted and every field name a whole-string name. */
  predicate StrictFields(fields: seq<SelectField>)
    ensures StrictFields(fields) ==> AllAggregationsKnown(fields)
  {
    forall k :: 0 <= k < |fields| ==> IsAggregation(fields[k].aggregation) && StrictName(fields[k].value)
  }

  /** For a non-empty list of whitelisted tags over whole-string field names, the select list
      is the entries separated by commas and nothing else: splitting it on `,` gives the
      entries back, one per field. (An empty list renders as "", which splits into [""].) */
  lemma SelectListSplits(fields: seq<SelectField>)
    requires |fields| >= 1 && StrictFields(fields)
    ensures Split(SelectList(fields), ',') == SelectItems(fields)
  {
    SelectItemsHaveNoComma(fields);
    SplitJoin(SelectItems(fields), ",", ',');
  }

  /** No entry of a select list with whitelisted tags over whole-string field names holds a comma. */
  lemma SelectItemsHaveNoComma(fields: seq<SelectField>)
    requires StrictFields(fields)
    ensures NoneHolds(SelectItems(fields), ',')
  {
    forall k | 0 <= k < |SelectItems(fields)| ensures ',' !in SelectItems(fields)[k] {
      SelectItemHasNoComma(fields[k]);
    }
  }

  /** Rendering all children but the first gives all renderings but the first. */
  lemma ConditionsTail(children: seq<WhereOperation>)
    requires |children| >= 1
    ensures Conditions(children)[1..] == Conditions(children[1..])
  {
    assert Conditions(children) == [Condition(children[0])] + Conditions(children[1..]);
  }

  /** A group's text is its first child's text, then each further child behind the operator
      between blanks, all inside one pair of parentheses. */
  lemma GroupText(w: WhereOperation)
    requires w.Complex? && |w.operations| >= 1
    ensures Condition(w) ==
      "(" + Condition(w.operations[0]) + Prefixed(" " + w.operator + " ", Conditions(w.operations[1..])) + ")"
  {
    var sep := " " + w.operator + " ";
    var cs := Conditions(w.operations);
    assert Condition(w) == ComplexCondition(w) == "(" + Join(cs, sep) + ")";
    JoinIsFirstThenPrefixed(cs, sep);
    ConditionsTail(w.operations);
    assert cs[0] == Condition(w.operations[0]);
    var p := Prefixed(sep, cs[1..]);
    assert "(" + (cs[0] + p) + ")" == "(" + cs[0] + p + ")";
  }

  /** Without a filter the query ends with the quoted table name and one blank; with one,
      two blanks separate the table name from `WHERE`. */
  lemma QueryShape(req: Request)
    requires AllAggregationsKnown(req.selectFields)
    ensures req.whereClause.None? ==>
      QueryText(req) == "SELECT " + SelectList(req.selectFields) + " FROM \"" + req.tableName + "\" "
    ensures req.whereClause.Some? ==>
      QueryText(req) == "SELECT " + SelectList(req.selectFields) + " FROM \"" + req.tableName + "\"  WHERE " +
        Condition(req.whereClause.value)
  {
    var a := "SELECT " + SelectList(req.selectFields);
    assert " FROM " + "\"" == " FROM \"";
    assert "\" " + " WHERE " == "\"  WHERE ";
    MergeLiterals(a, " FROM ", "\"", " FROM \"", req.tableName, "\" ", " WHERE ", "\"  WHERE ", WhereClauseText(req));
    if req.whereClause.Some? {
      MergeLiterals(a, " FROM ", "\"", " FROM \"", req.tableName, "\" ", " WHERE ", "\"  WHERE ", Condition(req.whereClause.value));
    }
  }

  /** Two adjacent literal pieces of an append chain may be read as one. */
  lemma MergeLiterals(a: string, x: string, y: string, xy: string, t: string, z: string, w: string, zw: string, c: string)
    requires x + y == xy && z + w == zw
    ensures a + x + y + t + z + c == a + xy + t + z + c
    ensures a + x + y + t + z + (w + c) == a + xy + t + zw + c
  {
    assert a + x + y == a + xy;
    assert z + (w + c) == zw + c;
    assert a + x + y + t + z + (w + c) == (a + xy + t) + (z + (w + c));
  }

  /** Groups of fewer than two children, which only the validator rules out, still render:
      an empty group as `()`, a group of one as its child in one more pair of parentheses. */
  lemma SmallGroupsRender(op: string, w: WhereOperation)
    ensures Condition(Complex(op, [])) == "()"
    ensures Condition(Complex(op, [w])) == "(" + Condition(w) + ")"
  {
    assert Conditions([w]) == [Condition(w)];
  }
}
