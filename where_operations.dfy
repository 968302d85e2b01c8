/** The closed lists of operators a filter node may carry
    (src/lib/types/WhereOperations.ts). */
module WhereOperations {

  /** `combiningWhereOperations`, in source order. */
  const CombiningWhereOperations: seq<string> := ["or", "and"]

  /** `comparisonOperations`, in source order. */
  const ComparisonOperations: seq<string> := ["<", ">", "<=", ">=", "=", "!="]

  /** `combiningWhereOperations.includes(op)`: exact, case-sensitive. */
  predicate IsCombining(op: string)
  {
    op in CombiningWhereOperations
  }

  /** `comparisonOperations.includes(op)`: exact, case-sensitive. */
  predicate IsComparison(op: string)
  {
    op in ComparisonOperations
  }

  /** Membership is plain string equality: upper-case `AND`, and the SQL spellings
      `<>` and `==`, are not in the lists. */
  lemma OperatorsExactly(op: string)
    ensures IsCombining(op) <==> op == "or" || op == "and"
    ensures IsComparison(op) <==> op == "<" || op == ">" || op == "<=" || op == ">=" || op == "=" || op == "!="
    ensures !IsCombining("AND") && !IsCombining("OR") && !IsComparison("<>") && !IsComparison("==")
  {
  }

  /** Every whitelisted operator is a non-empty word without blanks, so it reads back
      unambiguously when it sits between two blanks in the SQL text. */
  lemma {:induction false} OperatorIsWord(op: string)
    requires IsCombining(op) || IsComparison(op)
    ensures |op| > 0
    ensures forall k :: 0 <= k < |op| ==> op[k] != ' ' && op[k] != '(' && op[k] != ')'
  {
    assert op in CombiningWhereOperations + ComparisonOperations;
  }
}
