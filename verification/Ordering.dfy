/** sorted() over a set of strings: code-point lexicographic order. */
module Ordering {
  predicate Le(a: string, b: string) {
    a == "" || (b != "" && (a[0] < b[0] || (a[0] == b[0] && Le(a[1..], b[1..]))))
  }

  lemma {:induction false} LeTotal(a: string, b: string)
    ensures Le(a, b) || Le(b, a)
  {
    if a != "" && b != "" {
      LeTotal(a[1..], b[1..]);
    }
  }

  lemma {:induction false} LeAntisymmetric(a: string, b: string)
    requires Le(a, b) && Le(b, a)
    ensures a == b
  {
    if a != "" && b != "" {
      LeAntisymmetric(a[1..], b[1..]);
      assert a == [a[0]] + a[1..] && b == [b[0]] + b[1..];
    }
  }

  lemma {:induction false} LeTransitive(a: string, b: string, c: string)
    requires Le(a, b) && Le(b, c)
    ensures Le(a, c)
  {
    if a != "" && b != "" && c != "" && a[0] == b[0] == c[0] {
      LeTransitive(a[1..], b[1..], c[1..]);
    }
  }

  predicate IsLeast(s: set<string>, m: string) {
    m in s && forall x :: x in s ==> Le(m, x)
  }

  lemma LeastExists(s: set<string>) returns (m: string)
    requires s != {}
    ensures IsLeast(s, m)
    decreases s
  {
    var x :| x in s;
    LeTotal(x, x);
    if s == {x} {
      m := x;
    } else {
      var y := LeastExists(s - {x});
      LeTotal(x, y);
      m := if Le(x, y) then x else y;
      forall z | z in s
        ensures Le(m, z)
      {
        if z != x && m == x {
          LeTransitive(x, y, z);
        }
      }
    }
  }

  function Least(s: set<string>): (m: string)
    requires s != {}
    ensures IsLeast(s, m)
  {
    assert exists m :: IsLeast(s, m) by { var m := LeastExists(s); }
    assert forall m, n | IsLeast(s, m) && IsLeast(s, n) :: m == n by {
      forall m, n | IsLeast(s, m) && IsLeast(s, n) ensures m == n { LeAntisymmetric(m, n); }
    }
    var m :| m in s && IsLeast(s, m);
    m
  }

  /** The elements of s in increasing order. */
  function Sorted(s: set<string>): seq<string> {
    if s == {} then [] else [Least(s)] + Sorted(s - {Least(s)})
  }

  /** sorted() lists each element once, and in order. */
  lemma {:induction false} SortedSpec(s: set<string>)
    ensures |Sorted(s)| == |s|
    ensures forall x :: x in Sorted(s) <==> x in s
    ensures forall i, j :: 0 <= i < j < |Sorted(s)| ==> Le(Sorted(s)[i], Sorted(s)[j]) && Sorted(s)[i] != Sorted(s)[j]
  {
    if s != {} {
      SortedSpec(s - {Least(s)});
      assert Sorted(s) == [Least(s)] + Sorted(s - {Least(s)});
    }
  }
}
