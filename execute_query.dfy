/** The `POST` handler of src/app/api/executeQuery/route.ts up to the database call: the
    request is validated, a rejected request is answered with its message, and an accepted
    one is compiled to the SQL text that is then handed to the database. */
module ExecuteQuery {
  import opened Wrappers
  import opened ExecuteQueryRequest
  import opened Validation
  import opened Compiler

  /** What the handler does with a request: answer with status 400 and an error message, or
      run the given SQL text. */
  datatype Outcome = BadRequest(errorMessage: string) | Execute(sql: string)

  /** A request the validator accepts carries whitelisted tags only, so the `switch` of the
      select list never reaches its throwing `default`. */
  lemma AcceptedIsCompilable(req: Request)
    requires InputError(req) == None
    ensures AllAggregationsKnown(req.selectFields)
  {
    assert RequestValid(req);
  }

  /** `POST`: validation first; only an accepted request is compiled. */
  method Post(req: Request) returns (outcome: Outcome)
    ensures outcome.BadRequest? <==> InputError(req).Some?
    ensures outcome.BadRequest? ==> outcome.errorMessage == Message(InputError(req).value)
    ensures outcome.Execute? ==> AllAggregationsKnown(req.selectFields) && outcome.sql == QueryText(req)
  {
    var err := ValidateInput(req);
    if err.Some? {
      return BadRequest(Message(err.value));
    }
    AcceptedIsCompilable(req);
    var query := AssembleQuery(req);
    return Execute(query);
  }
}
