/** The request record (src/lib/types/ExecuteQueryRequest.ts). */
module ExecuteQueryRequest {
  import opened Wrappers
  import opened WhereClause

  /** `SelectField`: the source's `type` (an aggregation tag, any string at run time)
      and `value` (a column name or `*`). */
  datatype SelectField = SelectField(aggregation: string, value: string)

  /** `ExecuteQueryRequest`: ordered select fields, a table name, and a filter or `null`. */
  datatype Request = Request(selectFields: seq<SelectField>, tableName: string, whereClause: Option<WhereOperation>)
}
