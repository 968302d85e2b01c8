/** Absent-or-present values, and the fail-fast "first error wins" combinator
    that every validation step of the route is built from. */
module Wrappers {

  /** A value that may be missing: `null` in the source. */
  datatype Option<+T> = None | Some(value: T)

  /** The first present entry of `results`, or `None` when every entry is absent.
      This is the shape of a `for ... of` loop that returns the first non-null
      check result, and of a sequence of `if (res !== null) return res;` steps. */
  function FirstError<E>(results: seq<Option<E>>): (r: Option<E>)
    ensures r.None? <==> forall k :: 0 <= k < |results| ==> results[k].None?
    ensures r.Some? ==>
      exists k :: 0 <= k < |results| && r == results[k] &&
        forall m :: 0 <= m < k ==> results[m].None?
  {
    if results == [] then None
    else if results[0].Some? then results[0]
    else
      var r := FirstError(results[1..]);
      assert r.Some? ==>
        (exists k :: 1 <= k < |results| && r == results[k] && forall m :: 0 <= m < k ==> results[m].None?)
      by {
        if r.Some? {
          var k :| 0 <= k < |results[1..]| && r == results[1..][k] &&
            forall m :: 0 <= m < k ==> results[1..][m].None?;
          assert forall m :: 1 <= m < k + 1 ==> results[m] == results[1..][m - 1];
        }
      }
      r
  }

  /** The first failure is the unique one: it is present, and everything before it is absent. */
  lemma {:induction false} FirstErrorIsEarliest<E>(results: seq<Option<E>>, k: nat)
    requires k < |results| && results[k].Some?
    requires forall m :: 0 <= m < k ==> results[m].None?
    ensures FirstError(results) == results[k]
  {
    var r := FirstError(results);
    var j :| 0 <= j < |results| && r == results[j] && forall m :: 0 <= m < j ==> results[m].None?;
    assert j == k;
  }
}
