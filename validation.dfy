/** The request validator of src/app/api/executeQuery/route.ts (`validateInput` and the
    helpers it calls). Every check is fail-fast: the first failure is the only one reported,
    and `None` means the request may be compiled. */
module Validation {
  import opened Wrappers
  import opened SelectAggregation
  import opened WhereOperations
  import opened WhereClause
  import opened ExecuteQueryRequest
  import opened Validators

  /** The rejections the validator can report; each names the offending text where the
      source's message does. */
  datatype ValidationError =
    | UnsupportedAggregation(aggregation: string)
    | EmptyField
    | InvalidField(field: string)
    | EmptyTableName
    | InvalidTableName(tableName: string)
    | UnsupportedComparison(comparison: string)
    | EmptyOperand
    | MalformedOperand(operand: string)
    | UnsupportedCombining(combining: string)
    | TooFewConditions

  predicate IsSelectFieldError(e: ValidationError)
  {
    e.UnsupportedAggregation? || e.EmptyField? || e.InvalidField?
  }

  predicate IsTableNameError(e: ValidationError)
  {
    e.EmptyTableName? || e.InvalidTableName?
  }

  predicate IsWhereError(e: ValidationError)
  {
    e.UnsupportedComparison? || e.EmptyOperand? || e.MalformedOperand? || e.UnsupportedCombining? || e.TooFewConditions?
  }

  /** The text of the `errorMessage` field the route sends back with status 400, spelled as in the source. */
  function Message(e: ValidationError): string
  {
    match e
    case UnsupportedAggregation(a) => "Aggreagaction function " + Quoted(a) + " is not supported"
    case EmptyField => "Empty fields are not allowed in PostgreSQL"
    case InvalidField(f) => "Field " + Quoted(f) + " is not a valid PostgreSQL field"
    case EmptyTableName => "Empty Table name are not allowed in PostgreSQL"
    case InvalidTableName(t) => "Table name " + Quoted(t) + " is not a valid PostgreSQL table name"
    case UnsupportedComparison(o) => "Comparison operator " + Quoted(o) + " is not supported"
    case EmptyOperand => "Query clause should not be empty or should be literal"
    case MalformedOperand(v) => "Query clause " + Quoted(v) + " is malformed. Maybe you ment to use literal?"
    case UnsupportedCombining(o) => "Combining operator " + Quoted(o) + " is not supported"
    case TooFewConditions => "Combination of conditions should containt at least 2 entries"
  }

  /** `'${x}'` inside a message. */
  function Quoted(x: string): string
  {
    "'" + x + "'"
  }

  /** The offending text an error names, if any. */
  function Offender(e: ValidationError): Option<string>
  {
    match e
    case UnsupportedAggregation(a) => Some(a)
    case InvalidField(f) => Some(f)
    case InvalidTableName(t) => Some(t)
    case UnsupportedComparison(o) => Some(o)
    case MalformedOperand(v) => Some(v)
    case UnsupportedCombining(o) => Some(o)
    case _ => None
  }

  /** Every message about a particular value quotes that value in single quotes, at the
      returned position. */
  lemma MessageQuotesOffender(e: ValidationError) returns (p: nat)
    requires Offender(e).Some?
    ensures p + |Offender(e).value| + 2 <= |Message(e)|
    ensures Message(e)[p..p + |Offender(e).value| + 2] == "'" + Offender(e).value + "'"
  {
    var x := Offender(e).value;
    var prefix, suffix := "", "";
    match e {
      case UnsupportedAggregation(_) => prefix, suffix := "Aggreagaction function ", " is not supported";
      case InvalidField(_) => prefix, suffix := "Field ", " is not a valid PostgreSQL field";
      case InvalidTableName(_) => prefix, suffix := "Table name ", " is not a valid PostgreSQL table name";
      case UnsupportedComparison(_) => prefix, suffix := "Comparison operator ", " is not supported";
      case MalformedOperand(_) => prefix, suffix := "Query clause ", " is malformed. Maybe you ment to use literal?";
      case UnsupportedCombining(_) => prefix, suffix := "Combining operator ", " is not supported";
    }
    assert Message(e) == prefix + Quoted(x) + suffix;
    p := |prefix|;
    assert (prefix + Quoted(x) + suffix)[p..p + |x| + 2] == Quoted(x);
  }

  /** The checks of one select field (route.ts, the body of the loop in `validateSelectFields`):
      the tag against the whitelist, then emptiness, then the field-name pattern. */
  function FieldError(f: SelectField): (r: Option<ValidationError>)
    ensures r.None? <==> IsAggregation(f.aggregation) && NameValidator(f.value)
    ensures r.Some? ==> IsSelectFieldError(r.value)
  {
    EmptyRejected();
    if !IsAggregation(f.aggregation) then Some(UnsupportedAggregation(f.aggregation))
    else if |f.value| == 0 then Some(EmptyField)
    else if !NameValidator(f.value) then Some(InvalidField(f.value))
    else None
  }

  /** `validateSelectFields`: the fields in list order, the first failing one reported. */
  function SelectFieldsError(fields: seq<SelectField>): (r: Option<ValidationError>)
    ensures r.None? <==> forall k :: 0 <= k < |fields| ==> FieldError(fields[k]).None?
    ensures r.Some? ==> IsSelectFieldError(r.value)
    ensures r.Some? ==>
      exists k :: 0 <= k < |fields| && r == FieldError(fields[k]) && forall m :: 0 <= m < k ==> FieldError(fields[m]).None?
  {
    var results := seq(|fields|, k requires 0 <= k < |fields| => FieldError(fields[k]));
    assert forall k :: 0 <= k < |fields| ==> results[k] == FieldError(fields[k]);
    FirstError(results)
  }

  /** `validateTableName`: emptiness, then the table-name pattern. */
  function TableNameError(tableName: string): (r: Option<ValidationError>)
    ensures r.None? <==> TableNameValidator(tableName)
    ensures r.Some? ==> IsTableNameError(r.value)
  {
    EmptyRejected();
    if |tableName| == 0 then Some(EmptyTableName)
    else if !TableNameValidator(tableName) then Some(InvalidTableName(tableName))
    else None
  }

  /** `validateSimpleWhere`: the operator, then both operands for emptiness (one shared
      message), then `value1` against the clause pattern, then `value2`. */
  function SimpleWhereError(w: WhereOperation): (r: Option<ValidationError>)
    requires w.Simple?
    ensures r.None? <==> IsComparison(w.operator) && QueryClauseValidator(w.value1) && QueryClauseValidator(w.value2)
    ensures r.Some? ==> IsWhereError(r.value)
  {
    EmptyRejected();
    if !IsComparison(w.operator) then Some(UnsupportedComparison(w.operator))
    else if |w.value1| == 0 || |w.value2| == 0 then Some(EmptyOperand)
    else if !QueryClauseValidator(w.value1) then Some(MalformedOperand(w.value1))
    else if !QueryClauseValidator(w.value2) then Some(MalformedOperand(w.value2))
    else None
  }

  /** What the validator accepts in a filter tree, stated declaratively: whitelisted operators,
      operands that pass the clause pattern, and at least two children in every group. */
  predicate WhereValid(w: WhereOperation)
  {
    match w
    case Simple(op, v1, v2) => IsComparison(op) && QueryClauseValidator(v1) && QueryClauseValidator(v2)
    case Complex(op, children) =>
      IsCombining(op) && |children| >= 2 && forall k :: 0 <= k < |children| ==> WhereValid(children[k])
  }

  /** The dispatch of `validateWhereClause` on a present filter. */
  function WhereError(w: WhereOperation): (r: Option<ValidationError>)
    ensures r.None? <==> WhereValid(w)
    ensures r.Some? ==> IsWhereError(r.value)
    decreases w, 1
  {
    match w
    case Simple(_, _, _) => SimpleWhereError(w)
    case Complex(_, _) => ComplexWhereError(w)
  }

  /** `validateComplexWhere`: the operator, then the number of children, then the children
      left to right, the first failing child reported. */
  function ComplexWhereError(w: WhereOperation): (r: Option<ValidationError>)
    requires w.Complex?
    ensures r.None? <==> WhereValid(w)
    ensures r.Some? ==> IsWhereError(r.value)
    decreases w, 0
  {
    if !IsCombining(w.operator) then Some(UnsupportedCombining(w.operator))
    else if |w.operations| <= 1 then Some(TooFewConditions)
    else
      var cs := w.operations;
      var results := seq(|cs|, k requires 0 <= k < |cs| => WhereError(cs[k]));
      assert forall k :: 0 <= k < |cs| ==> results[k] == WhereError(cs[k]);
      FirstError(results)
  }

  /** `validateWhereClause`: an absent filter is valid. */
  function WhereClauseError(w: Option<WhereOperation>): (r: Option<ValidationError>)
    ensures r.None? <==> (w.None? || WhereValid(w.value))
    ensures r.Some? ==> IsWhereError(r.value)
  {
    match w
    case None => None
    case Some(op) => WhereError(op)
  }

  /** What the validator accepts in a request, stated declaratively. */
  predicate RequestValid(req: Request)
  {
    (forall k :: 0 <= k < |req.selectFields| ==>
       IsAggregation(req.selectFields[k].aggregation) && NameValidator(req.selectFields[k].value)) &&
    TableNameValidator(req.tableName) &&
    (req.whereClause.None? || WhereValid(req.whereClause.value))
  }

  /** `validateInput`: select fields, then the table name, then the filter; the first
      non-null result is returned. */
  function InputError(req: Request): (r: Option<ValidationError>)
    ensures r.None? <==> RequestValid(req)
  {
    var results := [SelectFieldsError(req.selectFields), TableNameError(req.tableName), WhereClauseError(req.whereClause)];
    assert (forall k :: 0 <= k < |results| ==> results[k].None?) <==>
      results[0].None? && results[1].None? && results[2].None?;
    FirstError(results)
  }

  /** `validateSelectFields` as the loop it is. */
  method ValidateSelectFields(fields: seq<SelectField>) returns (err: Option<ValidationError>)
    ensures err == SelectFieldsError(fields)
  {
    for i := 0 to |fields|
      invariant forall k :: 0 <= k < i ==> FieldError(fields[k]).None?
    {
      var field := fields[i];
      if !IsAggregation(field.aggregation) {
        return Some(UnsupportedAggregation(field.aggregation));
      }
      if |field.value| == 0 {
        return Some(EmptyField);
      }
      if !NameValidator(field.value) {
        return Some(InvalidField(field.value));
      }
    }
    return None;
  }

  /** `validateWhereClause`, recursive through `validateComplexWhere`. */
  method ValidateWhereClause(w: Option<WhereOperation>) returns (err: Option<ValidationError>)
    ensures err == WhereClauseError(w)
    decreases if w.Some? then Height(w.value) else 0, 1
  {
    if w.None? {
      return None;
    }
    var op := w.value;
    if op.Simple? {
      err := SimpleWhereError(op);
    } else {
      err := ValidateComplexWhere(op);
    }
  }

  /** `validateComplexWhere` as the loop it is. */
  method ValidateComplexWhere(w: WhereOperation) returns (err: Option<ValidationError>)
    requires w.Complex?
    ensures err == ComplexWhereError(w)
    decreases Height(w), 0
  {
    if !IsCombining(w.operator) {
      return Some(UnsupportedCombining(w.operator));
    }
    if |w.operations| <= 1 {
      return Some(TooFewConditions);
    }
    ghost var results := seq(|w.operations|, k requires 0 <= k < |w.operations| => WhereError(w.operations[k]));
    for i := 0 to |w.operations|
      invariant forall k :: 0 <= k < i ==> results[k].None?
    {
      var childError := ValidateWhereClause(Some(w.operations[i]));
      if childError.Some? {
        FirstErrorIsEarliest(results, i);
        return childError;
      }
    }
    return None;
  }

  /** `validateInput`. */
  method ValidateInput(req: Request) returns (err: Option<ValidationError>)
    ensures err == InputError(req)
  {
    var selectResult := ValidateSelectFields(req.selectFields);
    if selectResult.Some? {
      return selectResult;
    }
    var tableNameResult := TableNameError(req.tableName);
    ghost var results := [selectResult, tableNameResult, WhereClauseError(req.whereClause)];
    if tableNameResult.Some? {
      FirstErrorIsEarliest(results, 1);
      return tableNameResult;
    }
    var whereResult := ValidateWhereClause(req.whereClause);
    if whereResult.Some? {
      FirstErrorIsEarliest(results, 2);
      return whereResult;
    }
    return None;
  }

  /** The order of `validateInput`: a select-field problem is reported before any table-name
      problem, and a table-name problem before any filter problem. */
  lemma ValidationOrder(req: Request)
    ensures SelectFieldsError(req.selectFields).Some? ==> InputError(req) == SelectFieldsError(req.selectFields)
    ensures SelectFieldsError(req.selectFields).None? && !TableNameValidator(req.tableName) ==>
      InputError(req) == TableNameError(req.tableName) && IsTableNameError(InputError(req).value)
    ensures SelectFieldsError(req.selectFields).None? && TableNameValidator(req.tableName) ==>
      InputError(req) == WhereClauseError(req.whereClause)
  {
    var results := [SelectFieldsError(req.selectFields), TableNameError(req.tableName), WhereClauseError(req.whereClause)];
    if results[0].Some? {
      FirstErrorIsEarliest(results, 0);
    } else if results[1].Some? {
      FirstErrorIsEarliest(results, 1);
    } else if results[2].Some? {
      FirstErrorIsEarliest(results, 2);
    }
  }

  /** Within one select field: an unknown tag is reported whatever the column, and an empty
      column as empty rather than as malformed. */
  lemma FieldCheckOrder(tag: string, value: string)
    ensures !IsAggregation(tag) ==> FieldError(SelectField(tag, value)) == Some(UnsupportedAggregation(tag))
    ensures IsAggregation(tag) && value == "" ==> FieldError(SelectField(tag, value)) == Some(EmptyField)
    ensures IsAggregation(tag) && value != "" && !NameValidator(value) ==>
      FieldError(SelectField(tag, value)) == Some(InvalidField(value))
  {
  }

  /** The checks of a comparison, in order: an unsupported operator hides any operand problem;
      an empty operand is reported with one shared message even when the other operand is
      malformed; `value1` is checked before `value2`. */
  lemma ComparisonCheckOrder(op: string, v1: string, v2: string)
    ensures !IsComparison(op) ==> WhereError(Simple(op, v1, v2)) == Some(UnsupportedComparison(op))
    ensures IsComparison(op) && (v1 == "" || v2 == "") ==> WhereError(Simple(op, v1, v2)) == Some(EmptyOperand)
    ensures IsComparison(op) && v1 != "" && v2 != "" && !QueryClauseValidator(v1) ==>
      WhereError(Simple(op, v1, v2)) == Some(MalformedOperand(v1))
    ensures IsComparison(op) && v1 != "" && v2 != "" && QueryClauseValidator(v1) && !QueryClauseValidator(v2) ==>
      WhereError(Simple(op, v1, v2)) == Some(MalformedOperand(v2))
  {
  }

  /** The checks of a group, in order: the operator, then the number of children, then the
      children left to right, the first invalid child's error being the group's error. */
  lemma GroupCheckOrder(op: string, children: seq<WhereOperation>, k: nat)
    ensures !IsCombining(op) ==> WhereError(Complex(op, children)) == Some(UnsupportedCombining(op))
    ensures IsCombining(op) && |children| <= 1 ==> WhereError(Complex(op, children)) == Some(TooFewConditions)
    ensures (IsCombining(op) && |children| >= 2 && k < |children| && !WhereValid(children[k]) &&
             (forall m :: 0 <= m < k ==> WhereValid(children[m]))) ==>
            WhereError(Complex(op, children)) == WhereError(children[k])
  {
    if IsCombining(op) && |children| >= 2 && k < |children| && !WhereValid(children[k]) &&
      (forall m :: 0 <= m < k ==> WhereValid(children[m]))
    {
      var results := seq(|children|, j requires 0 <= j < |children| => WhereError(children[j]));
      FirstErrorIsEarliest(results, k);
    }
  }

  /** The rejections the route is known for: the tag `max`, the table name `1abc`, the
      operators `<>` and `AND`, a group of one. Names are matched exactly. */
  lemma KnownRejections(w: WhereOperation)
    ensures FieldError(SelectField("max", "price")) == Some(UnsupportedAggregation("max"))
    ensures TableNameError("1abc") == Some(InvalidTableName("1abc"))
    ensures WhereError(Simple("<>", "a", "b")) == Some(UnsupportedComparison("<>"))
    ensures WhereError(Complex("AND", [w, w])) == Some(UnsupportedCombining("AND"))
    ensures WhereError(Complex("and", [w])) == Some(TooFewConditions)
  {
    TableNameExamples();
  }

  /** The aggregation check ignores the column: `avg` over `*` passes, and so does an empty
      select list. */
  lemma LooseSelectFields()
    ensures FieldError(SelectField("avg", "*")) == None
    ensures SelectFieldsError([]) == None
  {
    NameExamples();
  }

  /** The corrected reading: whitelisted operators, at least two children in every group, and
      whole-string operand patterns. It is stronger than what the route accepts. */
  predicate StrictWhereValid(w: WhereOperation)
    ensures StrictWhereValid(w) ==> WhereValid(w)
  {
    match w
    case Simple(op, v1, v2) => IsComparison(op) && StrictQueryClause(v1) && StrictQueryClause(v2)
    case Complex(op, children) =>
      IsCombining(op) && |children| >= 2 && forall k :: 0 <= k < |children| ==> StrictWhereValid(children[k])
  }

  /** The corrected reading of a whole request: whitelisted tags, whole-string field-name and
      table-name patterns, and a strictly valid filter if there is one. It is stronger than
      what the route accepts. */
  predicate StrictRequestValid(req: Request)
    ensures StrictRequestValid(req) ==> RequestValid(req)
  {
    (forall k :: 0 <= k < |req.selectFields| ==>
       IsAggregation(req.selectFields[k].aggregation) && StrictName(req.selectFields[k].value)) &&
    StrictTableName(req.tableName) &&
    (req.whereClause.None? || StrictWhereValid(req.whereClause.value))
  }
}
