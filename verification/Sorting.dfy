/**
 * Sorting of strings without duplicates.
 */
module Sorting {
  predicate Le(a: string, b: string) {
    a == "" || (b != "" && (a[0] < b[0] || (a[0] == b[0] && Le(a[1..], b[1..]))))
  }

  lemma {:induction false} LeTotal(a: string, b: string)
    ensures Le(a, b) || Le(b, a)
    ensures Le(a, b) && Le(b, a) ==> a == b
  {
    if a != "" && b != "" && a[0] == b[0] {
      LeTotal(a[1..], b[1..]);
      assert a == [a[0]] + a[1..] && b == [b[0]] + b[1..];
    }
  }

  lemma {:induction false} LeTransitive(a: string, b: string, c: string)
    requires Le(a, b) && Le(b, c)
    ensures Le(a, c)
  {
    if a != "" && a[0] == b[0] == c[0] { LeTransitive(a[1..], b[1..], c[1..]); }
  }

  /** Sorted without duplicates. */
  ghost predicate Ascending(s: seq<string>) {
    forall i, j :: 0 <= i < j < |s| ==> Le(s[i], s[j]) && s[i] != s[j]
  }

  function Insert(s: seq<string>, x: string): (r: seq<string>)
    requires Ascending(s) && x !in s
    ensures Ascending(r)
    ensures forall y :: y in r <==> y == x || y in s
  {
    if s == [] then [x]
    else if Le(x, s[0]) then
      assert forall k :: 0 <= k < |s| ==> Le(x, s[k]) by {
        forall k | 0 <= k < |s| ensures Le(x, s[k]) { if k > 0 { LeTransitive(x, s[0], s[k]); } }
      }
      [x] + s
    else
      var rest := Insert(s[1..], x);
      assert forall y :: y in rest ==> Le(s[0], y) && s[0] != y by {
        LeTotal(x, s[0]);
        forall y | y in s[1..] ensures Le(s[0], y) && s[0] != y { }
      }
      assert s == [s[0]] + s[1..];
      [s[0]] + rest
  }

  method SortStrings(strings: set<string>) returns (sorted: seq<string>)
    ensures Ascending(sorted) && forall y :: y in sorted <==> y in strings
  {
    sorted := [];
    var left := strings;
    while left != {}
      invariant left <= strings && Ascending(sorted) && forall y :: y in sorted <==> y in strings && y !in left
      decreases |left|
    {
      var x :| x in left;
      sorted, left := Insert(sorted, x), left - {x};
    }
  }

  /** There is only one way to sort a set. */
  lemma {:induction false} AscendingUnique(a: seq<string>, b: seq<string>)
    requires Ascending(a) && Ascending(b) && forall x :: x in a <==> x in b
    ensures a == b
  {
    assert (a != [] ==> a[0] in b) && (b != [] ==> b[0] in a);
    if a != [] {
      LeTotal(a[0], b[0]);
      assert a == [a[0]] + a[1..] && b == [b[0]] + b[1..];
      forall x ensures x in a[1..] <==> x in b[1..] {
        assert x in a[1..] <==> x in a && x != a[0];
        assert x in b[1..] <==> x in b && x != b[0];
      }
      AscendingUnique(a[1..], b[1..]);
    }
  }
}
