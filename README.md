# SQLBuilder query endpoint: validator and SQL compiler

This project models the server side of SQLBuilder's `executeQuery` endpoint
(`src/app/api/executeQuery/route.ts`). A request describes a single-table `SELECT`:
- ordered select fields, each with an aggregation tag;
- a table name;
- an optional filter tree of comparisons and `and`/`or` groups.

The endpoint first validates the request fail-fast against closed whitelists and three
identifier patterns (`src/lib/validators.ts`). It then renders the request to one exact SQL string.

The model follows the code's text exactly:
- the alias keyword is lower-case `as`;
- group operators are emitted as given (`and`, `or`);
- the select items are joined with `,` and no blank;
- the table name is followed by a blank, so a filter is preceded by two blanks before `WHERE`;
- an empty select list is accepted and gives `SELECT  FROM "t" `;
- the error messages keep the source's spelling ("Aggreagaction", "containt", "ment");
- an empty operand gets one shared message that names no operand.

The three patterns carry the flags `i` and `m`. They are written as predicates, not as a regular-expression engine:
- `[a-z]` under `i` without `u` is exactly the ASCII letters of either case.
- Under `m`, `^` and `$` also match beside the line terminators LF, CR, U+2028 and U+2029.
- So a pattern's `test` succeeds as soon as one line of the value is a token (`Validators.MultilineTest`, characterised by `Validators.NameValidatorByLines`).

Modules, one per source file or concern:
- `Wrappers`: `Option` and the fail-fast combinator `FirstError`.
- `SelectAggregation`, `WhereOperations`: the whitelists.
- `WhereClause`, `ExecuteQueryRequest`: the records and the recursive filter type.
- `Validators`: the three patterns.
- `Strings`: `join`, `replaceAll`, `indexOf` and `split` on one character.
- `Validation`: `validateInput` and its helpers. Each is a specification function, plus a method for each loop of the source (`validateSelectFields`, `validateComplexWhere`) and for the dispatch between them.
- `Compiler`: the `generate*` functions and the query assembly by appends.
- `ExecuteQuery`: `POST` up to the database call.
- `ConditionParser`: a reader for the rendered filter text. It is the inverse of the compiler on filters accepted under the whole-string reading: whitelisted operators, at least two children in every group, and operands that are whole-string tokens.
- `Findings`, `Scenarios`: concrete requests.

## Model

| member | source | states |
|---|---|---|
| SelectAggregation.AggregationsExactly | src/lib/types/SelectAggregation.ts:1 | the tag whitelist is exactly `none`, `avg`, `count`, `sum`; `max`, `AVG` and the empty tag are outside it |
| SelectAggregation.SqlFunction | src/app/api/executeQuery/route.ts:43-48 | the SQL function of an aggregating tag has the tag's length and is the tag's letters in upper case |
| SelectAggregation.SqlFunctionInjective | src/app/api/executeQuery/route.ts:43-48 | distinct aggregating tags give distinct SQL functions |
| WhereOperations.OperatorsExactly | src/lib/types/WhereOperations.ts:1-5 | the combining operators are exactly `or`, `and` and the comparisons exactly the six listed; `AND`, `OR`, `<>`, `==` are rejected (membership is exact string equality) |
| WhereOperations.OperatorIsWord | src/lib/types/WhereOperations.ts:1-5 | every whitelisted operator is non-empty and holds no blank or parenthesis, so it is copied into the SQL as one word |
| WhereClause.Height | src/lib/types/WhereClause.ts:13-19 | every child of a group is strictly lower than the group, so recursion over a filter tree ends |
| Validators.SingleLineTest | src/lib/validators.ts:1-6 | on a value without line terminators, each pattern accepts exactly its whole-string tokens |
| Validators.EmptyRejected | src/lib/validators.ts:1-6 | none of the three patterns accepts the empty string |
| Validators.NameExamples | src/lib/validators.ts:1 | `*` and `user_Id2` are field names; `1abc` is not |
| Validators.TableNameExamples | src/lib/validators.ts:3 | `*` and `1abc` are not table names; `_Users` is |
| Validators.QueryClauseExamples | src/lib/validators.ts:5-6 | the literals `'active'` and `''` and the identifier `status` are operands |
| Validators.QueryClauseRejections | src/lib/validators.ts:5-6 | `*`, the literal `'a'b'` embedding a quote and `1x` are not operands |
| Validators.TokensOnOneLine | src/lib/validators.ts:1-3 | field-name and table-name tokens never hold a line terminator |
| Validators.MatchIsALine | src/lib/validators.ts:1-3 | a field-name or table-name match is one whole line of the value |
| Validators.LineIsAMatch | src/lib/validators.ts:1-6 | any line of the value that is a token makes the test succeed |
| Validators.NameValidatorByLines | src/lib/validators.ts:1 | the field-name test succeeds if and only if some line is an identifier or `*` |
| Validators.TableNameValidatorByLines | src/lib/validators.ts:3 | the table-name test succeeds if and only if some line is an identifier |
| Validators.MultilineValueAccepted | src/lib/validators.ts:1-3 | the value `a`, newline, `";x` passes the field-name and table-name tests although it holds a double quote |
| Validators.LiteralSpansLines | src/lib/validators.ts:5-6 | a quoted literal may span lines (`[^']` matches a line break) |
| Validators.StrictName | src/lib/validators.ts:1 | the whole-string reading of the field-name pattern implies the pattern as written |
| Validators.StrictTableName | src/lib/validators.ts:3 | the whole-string reading of the table-name pattern implies the pattern as written |
| Validators.StrictQueryClause | src/lib/validators.ts:5-6 | the whole-string reading of the operand pattern implies the pattern as written |
| Strings.RemoveAll | src/app/api/executeQuery/route.ts:83 | `replaceAll(c, "")` leaves no `c` and keeps every other character as often as the input holds it; it is the identity when `c` is absent |
| Validation.MessageQuotesOffender | src/app/api/executeQuery/route.ts:137-221 | every message about a particular value contains that value in single quotes |
| Validation.FieldError | src/app/api/executeQuery/route.ts:139-152 | one select field passes if and only if its tag is whitelisted and its column passes the field-name pattern; a failure is a select-field error |
| Validation.SelectFieldsError | src/app/api/executeQuery/route.ts:137-155 | the fields pass if and only if each does; otherwise the error is that of the first failing field |
| Validation.TableNameError | src/app/api/executeQuery/route.ts:157-168 | the table name passes if and only if it passes the table-name pattern; a failure is a table-name error |
| Validation.SimpleWhereError | src/app/api/executeQuery/route.ts:184-208 | a comparison passes if and only if its operator is whitelisted and both operands pass the operand pattern |
| Validation.WhereError | src/app/api/executeQuery/route.ts:170-182 | a filter passes if and only if it is `WhereValid`; a failure is a filter error |
| Validation.ComplexWhereError | src/app/api/executeQuery/route.ts:210-231 | a group passes if and only if its operator is whitelisted, it has at least two children and every child passes |
| Validation.WhereClauseError | src/app/api/executeQuery/route.ts:170-175 | a missing filter passes; a present one passes if and only if it is `WhereValid` |
| Validation.InputError | src/app/api/executeQuery/route.ts:118-135 | a request passes if and only if its fields, table name and filter all pass (`RequestValid`) |
| Validation.ValidateSelectFields | src/app/api/executeQuery/route.ts:137-155 | the `for` loop with early return computes `SelectFieldsError` |
| Validation.ValidateWhereClause | src/app/api/executeQuery/route.ts:170-208 | the dispatch on the filter's variant computes `WhereClauseError` |
| Validation.ValidateComplexWhere | src/app/api/executeQuery/route.ts:210-231 | the checks and `for` loop over the children compute `ComplexWhereError` |
| Validation.ValidateInput | src/app/api/executeQuery/route.ts:118-135 | the three checks in sequence compute `InputError` |
| Validation.ValidationOrder | src/app/api/executeQuery/route.ts:118-135 | the first non-null check wins: a select-field error over everything; then the table-name check's own error; then the filter's error |
| Validation.FieldCheckOrder | src/app/api/executeQuery/route.ts:139-152 | an unknown tag is reported whatever the column; an empty column is reported as empty, not malformed |
| Validation.ComparisonCheckOrder | src/app/api/executeQuery/route.ts:184-208 | operator first; an empty operand beats a malformed one; `value1` is checked before `value2` |
| Validation.GroupCheckOrder | src/app/api/executeQuery/route.ts:210-231 | operator first, then the child count (at most one child is rejected), then the first invalid child's error |
| Validation.KnownRejections | src/app/api/executeQuery/route.ts:137-221 | `max`, table `1abc`, `<>`, `AND` and a one-child group are rejected with errors naming the value |
| Validation.LooseSelectFields | src/app/api/executeQuery/route.ts:137-155 | `avg` over `*` passes, and so does an empty select list |
| Validation.StrictWhereValid | src/lib/validators.ts:5-6 | a filter with whitelisted operators, at least two children in every group and whole-string tokens as operands is valid as the route checks it |
| Validation.StrictRequestValid | src/app/api/executeQuery/route.ts:118-135 | a request with whitelisted tags over whole-string field names, a whole-string table name, and a filter (if any) that is strictly valid as above is valid as the route checks it |
| Compiler.SelectItems | src/app/api/executeQuery/route.ts:37-52 | one select entry per field, in the order of the fields |
| Compiler.Condition | src/app/api/executeQuery/route.ts:94-100 | every rendered filter starts with `(` and ends with `)` |
| Compiler.Conditions | src/app/api/executeQuery/route.ts:109-112 | one rendering per child, in order |
| Compiler.AssembleQuery | src/app/api/executeQuery/route.ts:35-60 | the successive appends build exactly `QueryText`: `SELECT `, the select list, ` FROM `, the quoted table name and a blank, the where clause |
| Compiler.AggregateOfColumn | src/app/api/executeQuery/route.ts:79-84 | an aggregated column `v` renders as `F("v") as "F(v')"`, where `v'` is `v` with every double quote removed, so a column holding `"` loses those too |
| Compiler.StarIsBare | src/app/api/executeQuery/route.ts:38-48 | `*` is never quoted: `*` alone, `COUNT(*) as "COUNT(*)"`, `AVG(*) as "AVG(*)"` |
| Compiler.StrictFields | src/app/api/executeQuery/route.ts:137-155 | whitelisted tags over whole-string field names satisfy what the select switch needs |
| Compiler.SelectListSplits | src/app/api/executeQuery/route.ts:37-53 | for a non-empty list of fields with whitelisted tags and whole-string field names, splitting the select list on `,` gives the entries back, one per field |
| Compiler.GroupText | src/app/api/executeQuery/route.ts:106-116 | a group is its first child's text, then each further child behind ` op ` with the operator verbatim, in one pair of parentheses |
| Compiler.QueryShape | src/app/api/executeQuery/route.ts:55-92 | without a filter the query ends with the quoted table name and one blank; with one, two blanks precede `WHERE` |
| Compiler.SmallGroupsRender | src/app/api/executeQuery/route.ts:106-116 | groups of zero or one child still render (`()`, or the child in extra parentheses); only validation rules them out |
| ConditionParser.OperandRoundTrip | src/app/api/executeQuery/route.ts:102-103 | a rendered whole-token operand is read back whole, whatever follows it |
| ConditionParser.LiteralRoundTrip | src/app/api/executeQuery/route.ts:102-103 | a literal passed through unquoted is read up to its closing quote, quotes kept, whatever follows |
| ConditionParser.ColumnRoundTrip | src/app/api/executeQuery/route.ts:102-103 | a column without `"` inside, double-quoted, is read back without its quotes, whatever follows |
| ConditionParser.ComparisonRoundTrip | src/app/api/executeQuery/route.ts:101-105 | a rendered comparison with a whitelisted operator and whole-token operands is read back as the same comparison |
| ConditionParser.GroupRoundTrip | src/app/api/executeQuery/route.ts:106-116 | a rendered group with a whitelisted operator, at least two children and every child strictly valid is read back: first child, operator, remaining children |
| ConditionParser.TailRoundTrip | src/app/api/executeQuery/route.ts:109-115 | when every child is accepted under the whole-string reading (`StrictWhereValid`), the children after the first are read back in order up to the closing parenthesis |
| ConditionParser.ConditionRoundTrip | src/app/api/executeQuery/route.ts:94-116 | every filter accepted under the whole-string reading (`StrictWhereValid`: whitelisted operators, at least two children per group, whole-token operands) is read back from its rendering, whatever text follows |
| ConditionParser.ConditionInjective | src/app/api/executeQuery/route.ts:94-116 | distinct filters accepted under the whole-string reading (`StrictWhereValid`: whitelisted operators, at least two children per group, whole-token operands) render to distinct SQL |
| ConditionParser.TableNameRoundTrip | src/app/api/executeQuery/route.ts:58 | a whole-token table name is read back whole from between its double quotes |
| ExecuteQuery.AcceptedIsCompilable | src/app/api/executeQuery/route.ts:39-51 | after validation every tag is whitelisted, so the throwing `default` of the select switch is unreachable |
| ExecuteQuery.Post | src/app/api/executeQuery/route.ts:27-60 | a rejected request is answered with its error's message and not compiled; an accepted one is compiled to `QueryText` |
| Findings.CollidingOperandsAccepted | src/lib/validators.ts:5-6 | four multi-line operands holding `"` pass the operand pattern on their first line |
| Findings.FirstCollidingRendering | src/app/api/executeQuery/route.ts:101-105 | the rendering of the first colliding comparison |
| Findings.SecondCollidingRendering | src/app/api/executeQuery/route.ts:101-105 | the rendering of the second colliding comparison |
| Findings.OperandsCollide | src/lib/validators.ts:5-6 | two different accepted comparisons render to the same SQL |
| Findings.FieldNameSplitsSelectList | src/lib/validators.ts:1 | an accepted field name holding `","` on a later line turns one select entry into two double-quoted identifiers |
| Findings.TableNameEndsQuoteEarly | src/lib/validators.ts:3 | an accepted table name holding `"` closes the quoted table name early |
| Scenarios.CountActiveUsersSelect | src/app/api/executeQuery/route.ts:37-53 | `count` over `*` gives the select list `COUNT(*) as "COUNT(*)"` |
| Scenarios.CountActiveUsersFilter | src/app/api/executeQuery/route.ts:101-105 | `status = 'active'` renders as `("status" = 'active')`: column quoted, literal kept |
| Scenarios.CountActiveUsersValid | src/app/api/executeQuery/route.ts:118-135 | the request counting active users passes validation |
| Scenarios.CountActiveUsersQuery | src/app/api/executeQuery/route.ts:35-60 | it compiles to `SELECT COUNT(*) as "COUNT(*)" FROM "users"  WHERE ("status" = 'active')` |
| Scenarios.EmptySelectQuery | src/app/api/executeQuery/route.ts:35-58 | an empty select list passes and compiles to `SELECT  FROM "t" ` |
| Scenarios.UnknownTagReportedFirst | src/app/api/executeQuery/route.ts:137-143 | with an unknown tag and a bad table name, only the tag is reported, worded as in the route |

## Left out

- Parsing the JSON body (`req.json()`, route.ts:28) is not modelled. The request arrives as a typed value, so missing fields, `null` strings and non-string values do not occur.
- The filter variant is modelled as a datatype constructor. In the source, any `type` other than `"simple"` takes the group branch of `generateCondition` and `validateWhereClause`; that case is not modelled.
- The database call `prisma.$queryRawUnsafe`, the response encoding with its `bigint` replacer, and the `catch` on the driver's message (route.ts:62-76) are not modelled. They are I/O and foreign code: `ExecuteQuery.Post` stops at the SQL text it would run.
- `NextResponse` and `generateError` (route.ts:233-240) are transport. An error is a `ValidationError` value with its message text (`Validation.Message`); status 400 is the `BadRequest` outcome.
- `exhaustiveSwitch` (route.ts:242-244) is not modelled as a throw. It becomes the precondition `AllAggregationsKnown` of the compiler, which `ExecuteQuery.AcceptedIsCompilable` shows validation establishes.
- String lengths are counted in Unicode scalar values rather than JavaScript's UTF-16 code units. The source only tests lengths for emptiness, where the two agree.
- The React UI (`src/app/page.tsx`, `src/app/components/WhereOperation.tsx`) is not part of this model.
- The corrected, whole-string patterns (`Validators.StrictName`, `Validators.StrictTableName`, `Validators.StrictQueryClause`) do not replace the as-written ones in the validator. Validation models the code as written; the corrected predicates carry the round-trip and injectivity results below.

## Findings

| source | as written | input that shows it | evidently intended | confidence | as-written member | corrected member |
|---|---|---|---|---|---|---|
| src/lib/validators.ts:5-6 | the operand pattern has the `m` flag, so only one line of an operand must be a literal or identifier; the rest may hold `"` | comparison `=` with `value1` = `a` LF and `value2` = `b` LF `" = "c`, versus `value1` = `a` LF `" = "b` LF and `value2` = `c`: both pass, both render `("a` LF `" = "b` LF `" = "c")` | an operand is one whole token, so a filter's SQL determines the filter | high; not executed | Findings.OperandsCollide | ConditionParser.ConditionInjective |
| src/lib/validators.ts:1 | the field-name pattern has the `m` flag, so a column may hold `","` on a later line | select field `none` over `a` LF `","b` passes; its select list `"a` LF `","b"` is two double-quoted identifiers, and splitting it on `,` gives `"a` LF `"` and `"b"` | a field name is one whole identifier or `*`, so the select list has one entry per field | high; not executed | Findings.FieldNameSplitsSelectList | Compiler.SelectListSplits |
| src/lib/validators.ts:3 | the table-name pattern has the `m` flag, so a table name may hold `"` on a later line | table name `a` LF `";x` passes; its quoted form in the FROM clause closes after `a` LF | a table name is one whole identifier, read back whole from between its quotes | high; not executed | Findings.TableNameEndsQuoteEarly | ConditionParser.TableNameRoundTrip |
