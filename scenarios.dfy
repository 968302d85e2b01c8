/** Whole requests through the route: validation, then compilation. */
module Scenarios {
  import opened Wrappers
  import opened Strings
  import opened WhereClause
  import opened ExecuteQueryRequest
  import opened Validators
  import opened Validation
  import opened Compiler

  /** Count the rows of `users` whose `status` is the literal `'active'`. */
  function CountActiveUsers(): Request
  {
    Request([SelectField("count", "*")], "users", Some(Simple("=", "status", "'active'")))
  }

  /** The select list of `CountActiveUsers`: a bare `*` inside `COUNT`, aliased. */
  lemma CountActiveUsersSelect()
    ensures SelectList(CountActiveUsers().selectFields) ==
      ("COUNT" + "(" + "*" + ")") + " as " + "\"" + ("COUNT" + "(" + "*" + ")") + "\""
  {
    var item := SelectItem(SelectField("count", "*"));
    assert SelectItems(CountActiveUsers().selectFields) == [item];
    assert Join([item], ",") == item;
    StarIsBare();
  }

  /** The filter of `CountActiveUsers`: the column double-quoted, the literal kept as is. */
  lemma CountActiveUsersFilter()
    ensures Condition(Simple("=", "status", "'active'")) == "(\"status\" = 'active')"
  {
    assert Operand("status") == "\"status\"";
    assert Operand("'active'") == "'active'";
  }

  /** The request passes validation. */
  lemma CountActiveUsersValid()
    ensures InputError(CountActiveUsers()) == None
  {
    var filter := Simple("=", "status", "'active'");
    assert StrictWhereValid(filter) by {
      assert StrictQueryClause("status");
      assert StrictQueryClause("'active'");
    }
    assert StrictName("*") && StrictTableName("users");
    assert StrictRequestValid(CountActiveUsers());
  }

  /** The request compiles to the expected query: the aliased count, the quoted table name
      and its trailing blank, then ` WHERE ` and the filter. */
  lemma CountActiveUsersQuery()
    ensures QueryText(CountActiveUsers()) ==
      "SELECT " + (("COUNT" + "(" + "*" + ")") + " as " + "\"" + ("COUNT" + "(" + "*" + ")") + "\"") + " FROM \"" + "users" + "\"  WHERE " + "(\"status\" = 'active')"
  {
    var req := CountActiveUsers();
    CountActiveUsersSelect();
    CountActiveUsersFilter();
    QueryShape(req);
  }

  /** An empty select list is accepted and leaves nothing between `SELECT ` and ` FROM `. */
  lemma EmptySelectQuery()
    ensures InputError(Request([], "t", None)) == None
    ensures QueryText(Request([], "t", None)) == "SELECT  FROM \"t\" "
  {
    assert StrictTableName("t");
    assert StrictRequestValid(Request([], "t", None));
  }

  /** A request with an unknown tag and a bad table name is answered with the tag's error
      only, worded as in the route. */
  lemma UnknownTagReportedFirst()
    ensures var req := Request([SelectField("max", "price")], "1abc", None);
            InputError(req) == Some(UnsupportedAggregation("max")) &&
            Message(InputError(req).value) == "Aggreagaction function 'max' is not supported"
  {
    var req := Request([SelectField("max", "price")], "1abc", None);
    ValidationOrder(req);
    FirstErrorIsEarliest([FieldError(req.selectFields[0])], 0);
    assert SelectFieldsError(req.selectFields) == Some(UnsupportedAggregation("max"));
  }
}
