/** Definitions shared by the models: optional values and order-keeping filters over sequences. */
module Common {

  datatype Option<+T> = None | Some(value: T)

  ghost predicate Distinct<T>(s: seq<T>) {
    forall i, j :: 0 <= i < j < |s| ==> s[i] != s[j]
  }

  lemma HeadOccursOnce<T>(s: seq<T>)
    requires Distinct(s) && s != []
    ensures s[0] !in s[1..] && Distinct(s[1..])
  {
  }

  lemma {:induction false} DistinctCount<T>(s: seq<T>)
    requires Distinct(s)
    ensures |set x | x in s| == |s|
  {
    hide Distinct;
    if s == [] {
    } else {
      HeadOccursOnce(s);
      DistinctCount(s[1..]);
      assert s == [s[0]] + s[1..];
      assert (set x | x in s) == {s[0]} + (set x | x in s[1..]);
    }
  }

  function Max(a: int, b: int): int {
    if a < b then b else a
  }

  function Min(a: int, b: int): int {
    if a < b then a else b
  }

  /** The least integer not below the real quotient a / b. */
  function CeilDiv(a: int, b: int): int
    requires b > 0
  {
    -((-a) / b)
  }

  lemma ScaledUp(d: int, k: int)
    requires d > 0 && k >= 1
    ensures d * k >= d
  {
  }

  /** A quotient with a remainder in range is the quotient. */
  lemma QuotientIs(a: int, d: int, q: int, r: int)
    requires d > 0 && 0 <= r < d && a == d * q + r
    ensures a / d == q
  {
    var q', r' := a / d, a % d;
    assert d * (q' - q) == r - r';
    if q' > q {
      ScaledUp(d, q' - q);
    }
    if q > q' {
      ScaledUp(d, q - q');
    }
  }

  lemma CeilDivSmall(n: int, d: int)
    requires 0 < n <= d
    ensures CeilDiv(n, d) == 1
  {
    QuotientIs(-n, d, -1, d - n);
  }

  lemma CeilDivStep(n: int, d: int)
    requires d > 0
    ensures CeilDiv(n, d) == 1 + CeilDiv(n - d, d)
  {
    QuotientIs(-n + d, d, (-n) / d + 1, (-n) % d);
  }

  /** What is left of `s`, in order, once the members of `gone` are struck out. */
  function Without<T>(s: seq<T>, gone: set<T>): seq<T> {
    if s == [] then []
    else if s[0] in gone then Without(s[1..], gone)
    else [s[0]] + Without(s[1..], gone)
  }

  lemma {:induction false} WithoutConcat<T>(a: seq<T>, b: seq<T>, gone: set<T>)
    ensures Without(a + b, gone) == Without(a, gone) + Without(b, gone)
  {
    if a == [] {
      assert a + b == b;
    } else {
      assert (a + b)[1..] == a[1..] + b;
      WithoutConcat(a[1..], b, gone);
    }
  }

  lemma {:induction false} WithoutTwice<T>(s: seq<T>, gone: set<T>, more: set<T>)
    ensures Without(Without(s, gone), more) == Without(s, gone + more)
  {
    if s == [] {
    } else {
      WithoutTwice(s[1..], gone, more);
    }
  }

  lemma {:induction false} WithoutNothing<T>(s: seq<T>, gone: set<T>)
    requires forall x :: x in s ==> x !in gone
    ensures Without(s, gone) == s
  {
    if s == [] {
    } else {
      WithoutNothing(s[1..], gone);
    }
  }

  /** The first position of `x` in `s`, or |s| when it does not occur. */
  function IndexOf<T(==)>(s: seq<T>, x: T): (i: nat)
    ensures i <= |s|
    ensures i < |s| ==> s[i] == x
    ensures forall k :: 0 <= k < i ==> s[k] != x
  {
    if s == [] || s[0] == x then 0 else 1 + IndexOf(s[1..], x)
  }

  ghost predicate Ascending(s: seq<int>) {
    forall i, j :: 0 <= i < j < |s| ==> s[i] < s[j]
  }

  /** An ascending sequence is determined by its members. */
  lemma {:induction false} AscendingUnique(a: seq<int>, b: seq<int>)
    requires Ascending(a) && Ascending(b) && forall x :: x in a <==> x in b
    ensures a == b
  {
    assert |a| > 0 ==> a[0] in a;
    assert |b| > 0 ==> b[0] in b;
    if a == [] || b == [] {
    } else {
      assert a[0] in b && b[0] in a;
      forall x ensures x in a[1..] <==> x in b[1..] {
        assert x in a <==> x == a[0] || x in a[1..];
        assert x in b <==> x == b[0] || x in b[1..];
      }
      AscendingUnique(a[1..], b[1..]);
    }
  }

  lemma {:induction false} LeastExists(s: set<int>) returns (m: int)
    requires s != {}
    ensures m in s && forall x :: x in s ==> m <= x
  {
    if forall x :: x !in s {
      assert false;
    }
    m :| m in s;
    var rest := s - {m};
    if rest != {} {
      var r := LeastExists(rest);
      assert forall x :: x in s ==> x == m || x in rest;
      m := Min(m, r);
    } else {
      assert forall x :: x in s ==> x == m || x in rest;
    }
  }

  /** Sorts the members of a set. */
  method SortedMembers(s: set<int>) returns (r: seq<int>)
    ensures Ascending(r) && forall x :: x in r <==> x in s
  {
    r := [];
    var rest := s;
    while rest != {}
      invariant rest <= s
      invariant Ascending(r)
      invariant forall x :: x in r <==> x in s - rest
      invariant forall x, y :: x in r && y in rest ==> x < y
    {
      ghost var least := LeastExists(rest);
      var m :| m in rest && forall x :: x in rest ==> m <= x;
      assert forall i :: 0 <= i < |r| ==> r[i] in r;
      r := r + [m];
      rest := rest - {m};
    }
  }
}
