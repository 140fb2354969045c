/** Sorting, as the library calls do it: the same elements, in order. */
module Sorting {
  ghost predicate Ordered<T(!new)>(leq: (T, T) -> bool) {
    && (forall a, b :: leq(a, b) || leq(b, a))
    && (forall a, b, c :: leq(a, b) && leq(b, c) ==> leq(a, c))
  }

  predicate InOrder<T>(s: seq<T>, leq: (T, T) -> bool) {
    forall i, j :: 0 <= i < j < |s| ==> leq(s[i], s[j])
  }

  lemma Prepends<T>(x: T, s: seq<T>, leq: (T, T) -> bool)
    requires InOrder(s, leq) && forall y :: y in s ==> leq(x, y)
    ensures InOrder([x] + s, leq)
  {
  }

  lemma HeadLeads<T>(s: seq<T>, leq: (T, T) -> bool, y: T)
    requires InOrder(s, leq) && s != [] && y in s[1..]
    ensures leq(s[0], y)
  {
  }

  function Insert<T(!new)>(x: T, s: seq<T>, leq: (T, T) -> bool): (r: seq<T>)
    requires Ordered(leq) && InOrder(s, leq)
    ensures InOrder(r, leq) && multiset(r) == multiset(s) + multiset{x}
    ensures forall y :: y in r ==> y == x || y in s
  {
    if s == [] then [x]
    else if leq(x, s[0]) then
      assert InOrder([x] + s, leq) by {
        forall y | y in s ensures leq(x, y) { if y != s[0] { HeadLeads(s, leq, y); } }
        Prepends(x, s, leq);
      }
      [x] + s
    else
      var rest := Insert(x, s[1..], leq);
      assert InOrder([s[0]] + rest, leq) by {
        forall y | y in rest ensures leq(s[0], y) { if y != x { HeadLeads(s, leq, y); } }
        Prepends(s[0], rest, leq);
      }
      assert s == [s[0]] + s[1..];
      [s[0]] + rest
  }

  function Sort<T(!new)>(s: seq<T>, leq: (T, T) -> bool): (r: seq<T>)
    requires Ordered(leq)
    ensures InOrder(r, leq) && multiset(r) == multiset(s)
  {
    if s == [] then []
    else
      assert s == [s[0]] + s[1..];
      Insert(s[0], Sort(s[1..], leq), leq)
  }

  /** The elements that are chosen, in their order. */
  function Chosen<T>(s: seq<T>, choose: T -> bool): seq<T> {
    if s == [] then [] else (if choose(s[0]) then [s[0]] else []) + Chosen(s[1..], choose)
  }

  lemma ChosenMore<T>(x: T, s: seq<T>, choose: T -> bool)
    ensures Chosen([x] + s, choose) == (if choose(x) then [x] else []) + Chosen(s, choose)
  {
    assert ([x] + s)[1..] == s;
  }

  lemma InsertLater<T(!new)>(x: T, s: seq<T>, leq: (T, T) -> bool)
    requires Ordered(leq) && InOrder(s, leq)
    ensures s == [] || leq(x, s[0]) ==> Insert(x, s, leq) == [x] + s
    ensures s != [] && !leq(x, s[0]) ==> Insert(x, s, leq) == [s[0]] + Insert(x, s[1..], leq) && s == [s[0]] + s[1..]
  {
  }

  lemma {:induction false} InsertIsStable<T(!new)>(x: T, s: seq<T>, leq: (T, T) -> bool, tied: T -> bool)
    requires Ordered(leq) && InOrder(s, leq) && forall a, b :: tied(a) && tied(b) ==> leq(a, b)
    ensures Chosen(Insert(x, s, leq), tied) == (if tied(x) then [x] else []) + Chosen(s, tied)
    decreases |s|
  {
    hide Chosen, Insert, Ordered;
    InsertLater(x, s, leq);
    if s == [] || leq(x, s[0]) {
      ChosenMore(x, s, tied);
    } else {
      InsertIsStable(x, s[1..], leq, tied);
      ChosenMore(s[0], Insert(x, s[1..], leq), tied);
      ChosenMore(s[0], s[1..], tied);
      assert !(tied(x) && tied(s[0]));
      TieOrder(tied(x), x, tied(s[0]), s[0], Chosen(s[1..], tied));
    }
  }

  lemma TieOrder<T>(p: bool, x: T, q: bool, y: T, s: seq<T>)
    requires !(p && q)
    ensures (if q then [y] else []) + ((if p then [x] else []) + s) == (if p then [x] else []) + ((if q then [y] else []) + s)
  {
  }

  /** Elements none of which need come before another keep their order. */
  lemma {:induction false} SortIsStable<T(!new)>(s: seq<T>, leq: (T, T) -> bool, tied: T -> bool)
    requires Ordered(leq) && forall a, b :: tied(a) && tied(b) ==> leq(a, b)
    ensures Chosen(Sort(s, leq), tied) == Chosen(s, tied)
    decreases |s|
  {
    hide Insert, Ordered;
    if s != [] {
      SortIsStable(s[1..], leq, tied);
      InsertIsStable(s[0], Sort(s[1..], leq), leq, tied);
    }
  }

  lemma SameElements<T>(a: seq<T>, b: seq<T>)
    requires multiset(a) == multiset(b)
    ensures |a| == |b| && forall x :: x in a <==> x in b
  {
    assert |a| == |multiset(a)| && |b| == |multiset(b)|;
    assert forall x :: x in a <==> x in multiset(a);
    assert forall x :: x in b <==> x in multiset(b);
  }

  ghost predicate NoRepeats<T>(s: seq<T>) { forall i, j :: 0 <= i < j < |s| ==> s[i] != s[j] }

  lemma NoRepeatsAsMultiset<T>(s: seq<T>)
    ensures NoRepeats(s) <==> forall x :: multiset(s)[x] <= 1
  {
    if s != [] {
      var n := |s| - 1;
      assert s == s[..n] + [s[n]];
      NoRepeatsAsMultiset(s[..n]);
      assert s[n] in s[..n] <==> multiset(s[..n])[s[n]] > 0;
      if NoRepeats(s) {
        assert s[n] !in s[..n];
      } else if NoRepeats(s[..n]) {
        assert s[n] in s[..n];
        assert multiset(s)[s[n]] > 1;
      } else {
        var x :| multiset(s[..n])[x] > 1;
        assert multiset(s)[x] > 1;
      }
    }
  }

  /** Two ordered listings of the same elements, none repeated, are one. */
  lemma {:induction false} OneOrder<T(!new)>(a: seq<T>, b: seq<T>, leq: (T, T) -> bool)
    requires forall x, y :: leq(x, y) && leq(y, x) ==> x == y
    requires InOrder(a, leq) && InOrder(b, leq) && NoRepeats(a) && NoRepeats(b)
    requires forall x :: x in a <==> x in b
    ensures a == b
    decreases |a|
  {
    if a == [] {
      assert forall i :: 0 <= i < |b| ==> b[i] in a;
    } else {
      assert a[0] in b && b != [] && b[0] in a;
      var i :| 0 <= i < |b| && b[i] == a[0];
      var j :| 0 <= j < |a| && a[j] == b[0];
      forall x ensures x in a[1..] <==> x in b[1..] {
        assert x in a <==> x == a[0] || x in a[1..];
        assert x in b <==> x == b[0] || x in b[1..];
      }
      OneOrder(a[1..], b[1..], leq);
    }
  }
}
