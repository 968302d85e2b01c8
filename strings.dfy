/** String operations: `join` and `replaceAll` with an empty replacement, which the route
    uses, and `indexOf` and `split` on one character, which the condition reader and the
    select-list lemmas use. */
module Strings {

  /** `xs.join(sep)` */
  function Join(xs: seq<string>, sep: string): string
  {
    if |xs| == 0 then "" else if |xs| == 1 then xs[0] else xs[0] + sep + Join(xs[1..], sep)
  }

  /** `sep + x` for every `x` of `xs`, concatenated: what follows the first item of a join. */
  function Prefixed(sep: string, xs: seq<string>): string
  {
    if xs == [] then "" else sep + xs[0] + Prefixed(sep, xs[1..])
  }

  /** A join is its first item followed by every other item behind a separator. */
  lemma {:induction false} JoinIsFirstThenPrefixed(xs: seq<string>, sep: string)
    requires |xs| >= 1
    ensures Join(xs, sep) == xs[0] + Prefixed(sep, xs[1..])
  {
    if |xs| > 1 {
      JoinIsFirstThenPrefixed(xs[1..], sep);
      assert xs[1..][1..] == xs[2..];
    }
  }

  /** `s.replaceAll(c, "")`: every `c` removed, everything else kept in order. */
  function RemoveAll(s: string, c: char): (r: string)
    ensures c !in r
    ensures forall x :: x in r ==> x in s
    ensures c !in s ==> r == s
    ensures forall x :: x != c ==> multiset(r)[x] == multiset(s)[x]
  {
    if s == [] then ""
    else
      assert s == [s[0]] + s[1..];
      (if s[0] == c then "" else [s[0]]) + RemoveAll(s[1..], c)
  }

  /** Removal distributes over concatenation. */
  lemma {:induction false} RemoveAllConcat(a: string, b: string, c: char)
    ensures RemoveAll(a + b, c) == RemoveAll(a, c) + RemoveAll(b, c)
  {
    if a != [] {
      var h := if a[0] == c then "" else [a[0]];
      calc {
        RemoveAll(a + b, c);
      == { assert (a + b)[0] == a[0] && (a + b)[1..] == a[1..] + b; }
        h + RemoveAll(a[1..] + b, c);
      == { RemoveAllConcat(a[1..], b, c); }
        h + (RemoveAll(a[1..], c) + RemoveAll(b, c));
      ==
        (h + RemoveAll(a[1..], c)) + RemoveAll(b, c);
      }
    } else {
      assert a + b == b;
    }
  }

  /** Regrouping a chain of five appends to the right. */
  lemma Regroup(a: string, b: string, c: string, d: string, e: string)
    ensures a + b + c + d + e == a + (b + (c + (d + e)))
  {
    assert a + b + c == a + (b + c);
    assert a + b + c + d == a + (b + (c + d));
  }

  /** `s.indexOf(c)`, with `|s|` standing for "not found". */
  function IndexOf(s: string, c: char): (k: nat)
    ensures k <= |s|
    ensures k < |s| ==> s[k] == c
    ensures forall m :: 0 <= m < k ==> s[m] != c
  {
    if s == [] || s[0] == c then 0 else 1 + IndexOf(s[1..], c)
  }

  /** The first `c` of `a + [c] + b` is the one after `a`, when `a` holds none. */
  lemma IndexOfAfter(a: string, c: char, b: string)
    requires c !in a
    ensures IndexOf(a + [c] + b, c) == |a|
  {
    var s := a + [c] + b;
    assert s[|a|] == c;
  }

  /** `s.split(c)` for a one-character separator. */
  function Split(s: string, c: char): (parts: seq<string>)
    ensures |parts| >= 1
    decreases |s|
  {
    var k := IndexOf(s, c);
    if k == |s| then [s] else [s[..k]] + Split(s[k + 1..], c)
  }

  /** No item of `xs` holds `c`. */
  predicate NoneHolds(xs: seq<string>, c: char)
  {
    forall k :: 0 <= k < |xs| ==> c !in xs[k]
  }

  /** Splitting a join on its separator gives the items back, when no item holds the separator. */
  lemma {:induction false} SplitJoin(xs: seq<string>, sep: string, c: char)
    requires sep == [c]
    requires |xs| >= 1
    requires NoneHolds(xs, c)
    ensures Split(Join(xs, sep), c) == xs
  {
    if |xs| == 1 {
      assert IndexOf(xs[0], c) == |xs[0]|;
    } else {
      var rest := Join(xs[1..], sep);
      var s := Join(xs, sep);
      assert s == xs[0] + [c] + rest;
      IndexOfAfter(xs[0], c, rest);
      assert s[..|xs[0]|] == xs[0];
      assert s[|xs[0]| + 1..] == rest;
      SplitJoin(xs[1..], sep, c);
      assert xs == [xs[0]] + xs[1..];
    }
  }
}
