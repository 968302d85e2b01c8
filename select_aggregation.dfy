/** The closed list of aggregation tags a select field may carry
    (src/lib/types/SelectAggregation.ts). */
module SelectAggregation {

  /** `selectAggregationValues`, in source order. */
  const SelectAggregationValues: seq<string> := ["none", "avg", "count", "sum"]

  /** `selectAggregationValues.includes(tag)`: exact, case-sensitive string equality.
      The tag comes from a JSON body with only a type cast, so any string can reach this test. */
  predicate IsAggregation(tag: string)
  {
    tag in SelectAggregationValues
  }

  /** The SQL aggregate function emitted for an aggregating tag (the `switch` in the route).
      Its name is the tag in upper case. */
  function SqlFunction(tag: string): (name: string)
    requires IsAggregation(tag) && tag != "none"
    ensures |name| == |tag|
    ensures forall k :: 0 <= k < |tag| ==> 'a' <= tag[k] <= 'z' && name[k] as int == tag[k] as int - 32
  {
    if tag == "avg" then "AVG" else if tag == "count" then "COUNT" else "SUM"
  }

  /** The whitelist is exactly the four lower-case tags; `max`, `MAX` or `Avg` are outside it. */
  lemma AggregationsExactly(tag: string)
    ensures IsAggregation(tag) <==> tag == "none" || tag == "avg" || tag == "count" || tag == "sum"
    ensures !IsAggregation("max") && !IsAggregation("AVG") && !IsAggregation("")
  {
  }

  /** Distinct aggregating tags give distinct SQL functions. */
  lemma {:induction false} SqlFunctionInjective(a: string, b: string)
    requires IsAggregation(a) && a != "none" && IsAggregation(b) && b != "none"
    requires SqlFunction(a) == SqlFunction(b)
    ensures a == b
  {
    assert |a| == |b|;
    forall k | 0 <= k < |a| ensures a[k] == b[k] {
      assert SqlFunction(a)[k] == SqlFunction(b)[k];
    }
  }
}
