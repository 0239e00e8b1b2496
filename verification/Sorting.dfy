/** Sorting by an order that is given as a function, as the sort package does it. */
module Sorting {

  ghost predicate TotalPreorder<T(!new)>(leq: (T, T) -> bool) {
    && (forall a, b :: leq(a, b) || leq(b, a))
    && (forall a, b, c :: leq(a, b) && leq(b, c) ==> leq(a, c))
  }

  ghost predicate TotalOrder<T(!new)>(leq: (T, T) -> bool) {
    TotalPreorder(leq) && forall a, b :: leq(a, b) && leq(b, a) ==> a == b
  }

  predicate SortedBy<T>(s: seq<T>, leq: (T, T) -> bool) {
    forall i, j :: 0 <= i < j < |s| ==> leq(s[i], s[j])
  }

  function Inserted<T>(s: seq<T>, k: nat, x: T): (t: seq<T>)
    requires k <= |s|
    ensures |t| == |s| + 1
    ensures forall i :: 0 <= i < |t| ==> t[i] == if i < k then s[i] else if i == k then x else s[i - 1]
  {
    s[..k] + [x] + s[k..]
  }

  lemma InsertedMembers<T>(s: seq<T>, k: nat, x: T)
    requires k <= |s|
    ensures multiset(Inserted(s, k, x)) == multiset(s) + multiset{x}
  {
    assert s == s[..k] + s[k..];
  }

  lemma InsertedIsSorted<T(!new)>(s: seq<T>, k: nat, x: T, leq: (T, T) -> bool)
    requires TotalPreorder(leq) && SortedBy(s, leq) && k <= |s|
    requires k > 0 ==> leq(s[k - 1], x)
    requires k < |s| ==> leq(x, s[k])
    ensures SortedBy(Inserted(s, k, x), leq)
  {
    assert forall l :: 0 <= l < k ==> l == k - 1 || leq(s[l], s[k - 1]);
    assert forall l :: k < l < |s| ==> leq(s[k], s[l]);
  }

  /** Any order among equivalent elements will do. */
  method SortBy<T(!new)>(s: seq<T>, leq: (T, T) -> bool) returns (sorted: seq<T>)
    requires TotalPreorder(leq)
    ensures SortedBy(sorted, leq) && multiset(sorted) == multiset(s)
  {
    sorted := [];
    for i := 0 to |s|
      invariant SortedBy(sorted, leq) && multiset(sorted) == multiset(s[..i])
    {
      var k := |sorted|;
      while k > 0 && !leq(sorted[k - 1], s[i])
        invariant 0 <= k <= |sorted|
        invariant k < |sorted| ==> leq(s[i], sorted[k])
      {
        k := k - 1;
      }
      assert s[..i + 1] == s[..i] + [s[i]];
      InsertedIsSorted(sorted, k, s[i], leq);
      InsertedMembers(sorted, k, s[i]);
      sorted := Inserted(sorted, k, s[i]);
    }
    assert s[..|s|] == s;
  }

  lemma SameMembers<T>(a: seq<T>, b: seq<T>)
    requires multiset(a) == multiset(b)
    ensures |a| == |b| && forall x :: x in a <==> x in b
  {
    assert |a| == |multiset(a)| && |b| == |multiset(b)|;
    assert forall x :: x in a <==> x in multiset(a);
    assert forall x :: x in b <==> x in multiset(b);
  }

  lemma SameHead<T(!new)>(a: seq<T>, b: seq<T>, leq: (T, T) -> bool)
    requires TotalOrder(leq) && SortedBy(a, leq) && SortedBy(b, leq) && multiset(a) == multiset(b) && a != []
    ensures b != [] && a[0] == b[0]
  {
    SameMembers(a, b);
    assert a[0] in b && b[0] in a;
    var i :| 0 <= i < |b| && b[i] == a[0];
    var j :| 0 <= j < |a| && a[j] == b[0];
    assert leq(b[0], b[i]) && leq(a[0], a[j]);
  }

  lemma TailMembers<T>(a: seq<T>)
    requires a != []
    ensures multiset(a[1..]) == multiset(a) - multiset{a[0]}
  {
    assert a == [a[0]] + a[1..];
  }

  /** Under a total order there is one sorted list of the same elements. */
  lemma {:induction false} SortedIsCanonical<T(!new)>(a: seq<T>, b: seq<T>, leq: (T, T) -> bool)
    requires TotalOrder(leq) && SortedBy(a, leq) && SortedBy(b, leq)
    ensures a == b <==> multiset(a) == multiset(b)
    decreases |a|
  {
    if multiset(a) == multiset(b) {
      SameMembers(a, b);
      if a != [] {
        SameHead(a, b, leq);
        TailMembers(a);
        TailMembers(b);
        SortedIsCanonical(a[1..], b[1..], leq);
        assert a == [a[0]] + a[1..] && b == [b[0]] + b[1..];
      }
    }
  }
}
