/** The filter tree (src/lib/types/WhereClause.ts). */
module WhereClause {

  /** `WhereOperation`: a simple comparison or a group of sub-filters, told apart by the
      source's `type` tag (`"simple"` / `"complex"`). The operator strings are raw text:
      the whitelists are applied by validation, not by the type. A group may hold any
      number of children here, zero and one included. */
  datatype WhereOperation =
    | Simple(operator: string, value1: string, value2: string)
    | Complex(operator: string, operations: seq<WhereOperation>)

  function Max(a: nat, b: nat): nat { if a < b then b else a }

  /** The number of levels of a filter tree; every child sits strictly lower than its group,
      so the recursive validation and rendering of a tree always end. */
  function Height(w: WhereOperation): (h: nat)
    ensures h >= 1
    ensures w.Complex? ==> forall k :: 0 <= k < |w.operations| ==> Height(w.operations[k]) < h
  {
    match w
    case Simple(_, _, _) => 1
    case Complex(_, children) => 1 + MaxHeight(children)
  }

  /** The tallest height among `children` (0 for none). */
  function MaxHeight(children: seq<WhereOperation>): (h: nat)
    ensures forall k :: 0 <= k < |children| ==> Height(children[k]) <= h
  {
    if children == [] then 0 else Max(Height(children[0]), MaxHeight(children[1..]))
  }
}
