/** The consistent-hash ring (pkg/hashring/hashring.go), for any hash. */
module HashRing {
  import opened Decimals
  import opened Sorting

  const REPLICAS := 160

  /** sort.Strings' order. */
  predicate Leq(a: string, b: string) {
    a == [] || (b != [] && (a[0] < b[0] || (a[0] == b[0] && Leq(a[1..], b[1..]))))
  }

  lemma {:induction false} LeqTotal(a: string, b: string)
    ensures Leq(a, b) || Leq(b, a)
    ensures Leq(a, b) && Leq(b, a) ==> a == b
  {
    if a != [] && b != [] && a[0] == b[0] {
      LeqTotal(a[1..], b[1..]);
      assert a == [a[0]] + a[1..] && b == [b[0]] + b[1..];
    }
  }

  lemma {:induction false} LeqTransitive(a: string, b: string, c: string)
    requires Leq(a, b) && Leq(b, c)
    ensures Leq(a, c)
  {
    if a != [] && a[0] == b[0] && b[0] == c[0] {
      LeqTransitive(a[1..], b[1..], c[1..]);
    }
  }

  predicate AtMost(a: int, b: int) { a <= b }

  function Point(h: string -> int, m: string, i: nat): int { h(m + "#" + Decimal(i)) }

  /** No two of the points hashed have a name in common, whatever the members' names. */
  lemma NamesApart(m: string, i: nat, n: string, j: nat)
    requires m + "#" + Decimal(i) == n + "#" + Decimal(j)
    ensures m == n && i == j
  {
    hide Decimal;
    SplitAtHash(m, Decimal(i), n, Decimal(j));
    assert Zeros(0) + Decimal(i) == Decimal(i) && Zeros(0) + Decimal(j) == Decimal(j);
    ReadsBack(0, i);
    ReadsBack(0, j);
  }

  /** So where the hash is one to one, every member sits on points of its own, one for each
      replica. */
  lemma PointsApart(h: string -> int, m: string, i: nat, n: string, j: nat)
    requires forall a, b :: h(a) == h(b) ==> a == b
    ensures Point(h, m, i) == Point(h, n, j) ==> m == n && i == j
  {
    if Point(h, m, i) == Point(h, n, j) {
      assert m + "#" + Decimal(i) == n + "#" + Decimal(j);
      NamesApart(m, i, n, j);
    }
  }

  lemma SplitAtHash(m: string, d: string, n: string, e: string)
    requires AllDigits(d) && AllDigits(e) && m + "#" + d == n + "#" + e
    ensures m == n && d == e
  {
    var s := m + "#" + d;
    assert s[|m|] == '#' && s[|n|] == '#';
    assert forall k :: |m| < k < |s| ==> s[k] == d[k - |m| - 1];
    assert forall k :: |n| < k < |s| ==> s[k] == e[k - |n| - 1];
    assert |m| == |n|;
    assert m == s[..|m|] && n == s[..|n|] && d == s[|m| + 1..] && e == s[|n| + 1..];
  }

  // ---------------------------------------------------------------------
  // What a ring means
  // ---------------------------------------------------------------------

  /** Member m sits on point p. */
  predicate SitsOn(h: string -> int, m: string, p: int) {
    exists i :: 0 <= i < REPLICAS && Point(h, m, i) == p
  }

  ghost predicate OnRing(h: string -> int, members: set<string>, p: int) {
    exists m :: m in members && SitsOn(h, m, p)
  }

  /** A point is its first member's, in name order. */
  ghost predicate OwnsPoint(h: string -> int, members: set<string>, p: int, m: string) {
    && m in members && SitsOn(h, m, p)
    && forall n :: n in members && SitsOn(h, n, p) ==> Leq(m, n)
  }

  /** p is the first point at or after x, or the first of all when none is. */
  ghost predicate Follows(h: string -> int, members: set<string>, x: int, p: int) {
    && OnRing(h, members, p)
    && if p >= x then forall q :: OnRing(h, members, q) && q >= x ==> p <= q
       else forall q :: OnRing(h, members, q) ==> p <= q < x
  }

  /** The member a key belongs to. */
  ghost predicate Owns(h: string -> int, members: set<string>, key: string, m: string) {
    exists p :: Follows(h, members, h(key), p) && OwnsPoint(h, members, p, m)
  }

  /** Losing a member moves only the keys it owned. */
  lemma RemoveMovesOnlyItsKeys(h: string -> int, members: set<string>, gone: string, key: string, m: string)
    requires Owns(h, members, key, m) && m != gone
    ensures Owns(h, members - {gone}, key, m)
  {
    var p :| Follows(h, members, h(key), p) && OwnsPoint(h, members, p, m);
    var rest := members - {gone};
    assert OwnsPoint(h, rest, p, m) && OnRing(h, rest, p);
    forall q | OnRing(h, rest, q) ensures OnRing(h, members, q) {}
    assert Follows(h, rest, h(key), p);
  }

  /** Adding a member moves keys only to it. */
  lemma AddMovesKeysOnlyToIt(h: string -> int, members: set<string>, added: string, key: string, m: string)
    requires added !in members && Owns(h, members + {added}, key, m)
    ensures m == added || Owns(h, members, key, m)
  {
    if m != added {
      RemoveMovesOnlyItsKeys(h, members + {added}, added, key, m);
      assert members + {added} - {added} == members;
    }
  }

  /** A key has one owner. */
  lemma OneOwner(h: string -> int, members: set<string>, key: string, m: string, n: string)
    requires Owns(h, members, key, m) && Owns(h, members, key, n)
    ensures m == n && m in members
  {
    var p :| Follows(h, members, h(key), p) && OwnsPoint(h, members, p, m);
    var q :| Follows(h, members, h(key), q) && OwnsPoint(h, members, q, n);
    assert OnRing(h, members, p) && OnRing(h, members, q);
    assert p == q;
    LeqTotal(m, n);
  }

  // ---------------------------------------------------------------------
  // The ring
  // ---------------------------------------------------------------------

  datatype Ring = Ring(members: seq<string>, points: seq<int>, owner: map<int, string>)

  function Named(members: seq<string>): set<string> { set m | m in members && m != "" }

  /** A ring over a set of names: each name once in order, each point once in
      order, each point with its owner. */
  ghost predicate RingOver(h: string -> int, names: set<string>, r: Ring) {
    && (forall m :: m in r.members <==> m in names)
    && InOrder(r.members, Leq) && NoRepeats(r.members)
    && (forall p :: p in r.points <==> OnRing(h, names, p))
    && InOrder(r.points, AtMost) && NoRepeats(r.points)
    && (forall p :: p in r.owner <==> OnRing(h, names, p))
    && (forall p :: p in r.owner ==> OwnsPoint(h, names, p, r.owner[p]))
  }

  /** Every pod's ring over the same names is the same ring, whatever order and
      repetition it was given them in. */
  lemma RingsAgree(h: string -> int, names: set<string>, a: Ring, b: Ring)
    requires RingOver(h, names, a) && RingOver(h, names, b)
    ensures a == b
  {
    forall x, y ensures (Leq(x, y) || Leq(y, x)) && (Leq(x, y) && Leq(y, x) ==> x == y) { LeqTotal(x, y); }
    OneOrder(a.members, b.members, Leq);
    forall p ensures (p in a.points <==> p in b.points) && (p in a.owner <==> p in b.owner) {
      assert OnRing(h, names, p) || !OnRing(h, names, p);
    }
    OneOrder(a.points, b.points, AtMost);
    forall p | p in a.owner ensures a.owner[p] == b.owner[p] {
      LeqTotal(a.owner[p], b.owner[p]);
    }
  }

  /** The names given, each once. */
  method Distinct(members: seq<string>) returns (names: seq<string>)
    ensures NoRepeats(names) && forall m :: m in names <==> m in Named(members)
  {
    names := [];
    for i := 0 to |members|
      invariant NoRepeats(names)
      invariant forall m :: m in names <==> m in members[..i] && m != ""
    {
      var m := members[i];
      if m != "" && m !in names {
        names := names + [m];
      }
    }
  }

  /** What the owner map says once the first k names were placed. */
  ghost predicate Placed(h: string -> int, names: seq<string>, k: nat, owner: map<int, string>)
    requires k <= |names|
  {
    && (forall j, i :: 0 <= j < k && 0 <= i < REPLICAS ==> Point(h, names[j], i) in owner)
    && (forall p :: p in owner ==> Belongs(h, names, p, owner[p]))
  }

  /** The first of the names that sits on the point. */
  ghost predicate Belongs(h: string -> int, names: seq<string>, p: int, m: string) {
    && m in names && SitsOn(h, m, p)
    && forall j :: 0 <= j < |names| && SitsOn(h, names[j], p) ==> Leq(m, names[j])
  }

  ghost predicate Listed(points: seq<int>, owner: map<int, string>) {
    NoRepeats(points) && forall p :: p in points <==> p in owner
  }

  /** A member's points, but for those an earlier one took. */
  method Place(h: string -> int, names: seq<string>, k: nat, owner: map<int, string>, points: seq<int>)
    returns (owner': map<int, string>, points': seq<int>)
    requires k < |names| && InOrder(names, Leq) && Placed(h, names, k, owner) && Listed(points, owner)
    ensures Placed(h, names, k + 1, owner') && Listed(points', owner')
  {
    hide Belongs, Leq, Point, InOrder;
    owner', points' := owner, points;
    var m := names[k];
    for i := 0 to REPLICAS
      invariant Listed(points', owner')
      invariant forall p :: p in owner ==> p in owner'
      invariant forall j :: 0 <= j < i ==> Point(h, m, j) in owner'
      invariant forall p :: p in owner' ==> Belongs(h, names, p, owner'[p])
    {
      hide Listed, Placed;
      var p := Point(h, m, i);
      if p !in owner' {
        FirstToSit(h, names, k, owner, p, i);
        ListedMore(points', owner', p, m);
        owner', points' := owner'[p := m], points' + [p];
      }
    }
  }

  lemma ListedMore(points: seq<int>, owner: map<int, string>, p: int, m: string)
    requires Listed(points, owner) && p !in owner
    ensures Listed(points + [p], owner[p := m])
  {
  }

  lemma FirstToSit(h: string -> int, names: seq<string>, k: nat, owner: map<int, string>, p: int, i: nat)
    requires k < |names| && InOrder(names, Leq) && Placed(h, names, k, owner)
    requires i < REPLICAS && p == Point(h, names[k], i) && p !in owner
    ensures Belongs(h, names, p, names[k])
  {
    LeqTotal(names[k], names[k]);
    forall j | 0 <= j < k ensures !SitsOn(h, names[j], p) {
      assert forall x :: 0 <= x < REPLICAS ==> Point(h, names[j], x) in owner;
    }
  }

  method New(h: string -> int, members: seq<string>) returns (r: Ring)
    ensures RingOver(h, Named(members), r)
  {
    var names := Distinct(members);
    assert Ordered(Leq) by {
      forall a, b ensures Leq(a, b) || Leq(b, a) { LeqTotal(a, b); }
      forall a, b, c | Leq(a, b) && Leq(b, c) ensures Leq(a, c) { LeqTransitive(a, b, c); }
    }
    var sorted := Sort(names, Leq);
    SameElements(sorted, names);
    NoRepeatsAsMultiset(names);
    NoRepeatsAsMultiset(sorted);
    var owner: map<int, string>, points: seq<int> := map[], [];
    for k := 0 to |sorted|
      invariant Placed(h, sorted, k, owner) && Listed(points, owner)
    {
      owner, points := Place(h, sorted, k, owner, points);
    }
    r := Ring(sorted, Sort(points, AtMost), owner);
    SameElements(r.points, points);
    NoRepeatsAsMultiset(points);
    NoRepeatsAsMultiset(r.points);
    AllPlaced(h, Named(members), sorted, owner);
  }

  lemma AllPlaced(h: string -> int, members: set<string>, names: seq<string>, owner: map<int, string>)
    requires Placed(h, names, |names|, owner) && forall m :: m in names <==> m in members
    ensures forall p :: p in owner <==> OnRing(h, members, p)
    ensures forall p :: p in owner ==> OwnsPoint(h, members, p, owner[p])
  {
    forall p | OnRing(h, members, p) ensures p in owner {
      var m :| m in members && SitsOn(h, m, p);
      var i :| 0 <= i < REPLICAS && Point(h, m, i) == p;
      var j :| 0 <= j < |names| && names[j] == m;
      assert Point(h, names[j], i) in owner;
    }
    forall p | p in owner ensures OwnsPoint(h, members, p, owner[p]) {
      forall n | n in members && SitsOn(h, n, p) ensures Leq(owner[p], n) {
        var j :| 0 <= j < |names| && names[j] == n;
      }
    }
  }

  /** The least index at or after x, as slices.BinarySearch finds it. */
  method BinarySearch(points: seq<int>, x: int) returns (k: nat)
    requires InOrder(points, AtMost)
    ensures k <= |points|
    ensures forall i :: 0 <= i < k ==> points[i] < x
    ensures forall i :: k <= i < |points| ==> x <= points[i]
  {
    var lo, hi := 0, |points|;
    while lo < hi
      invariant 0 <= lo <= hi <= |points|
      invariant forall i :: 0 <= i < lo ==> points[i] < x
      invariant forall i :: hi <= i < |points| ==> x <= points[i]
    {
      var mid := (lo + hi) / 2;
      if points[mid] < x {
        lo := mid + 1;
      } else {
        hi := mid;
      }
    }
    k := lo;
  }

  /** The member that owns the key, or "" when the ring has none. */
  method Locate(h: string -> int, ghost names: set<string>, r: Ring, key: string) returns (m: string)
    requires RingOver(h, names, r)
    ensures if names == {} then m == "" else Owns(h, names, key, m)
  {
    if |r.points| == 0 {
      ghost var empty := names == {};
      if !empty {
        ghost var n :| n in names;
        assert SitsOn(h, n, Point(h, n, 0));
        assert OnRing(h, names, Point(h, n, 0));
      }
      return "";
    }
    var x := h(key);
    var k := BinarySearch(r.points, x);
    if k == |r.points| {
      k := 0;
    }
    var p := r.points[k];
    assert p in r.points;
    assert Follows(h, names, x, p) by {
      forall q | OnRing(h, names, q) ensures p <= q || q < x {
        var j :| 0 <= j < |r.points| && r.points[j] == q;
      }
    }
    m := r.owner[p];
  }

  /** Two rings asked, one without a member of the other, in whatever order and
      repetition they were given: only a key of that member's is answered differently. */
  method LocateWithout(h: string -> int, members: seq<string>, rest: seq<string>, gone: string, key: string)
    returns (before: string, after: string)
    requires Named(rest) == Named(members) - {gone}
    ensures before != gone ==> after == before
    ensures before == "" <==> Named(members) == {}
  {
    var all := New(h, members);
    var fewer := New(h, rest);
    before := Locate(h, Named(members), all, key);
    after := Locate(h, Named(rest), fewer, key);
    if Named(members) != {} && before != gone {
      RemoveMovesOnlyItsKeys(h, Named(members), gone, key, before);
      Owned(h, Named(rest), key, before);
      OneOwner(h, Named(rest), key, before, after);
    }
    if Named(members) != {} { Owned(h, Named(members), key, before); }
  }

  /** And one with a member more: a key answered differently is the new member's. */
  method LocateWith(h: string -> int, members: seq<string>, more: seq<string>, added: string, key: string)
    returns (before: string, after: string)
    requires added !in members && Named(more) == Named(members) + {added}
    ensures after == before || after == added
  {
    after, before := LocateWithout(h, more, members, added, key);
  }

  lemma Owned(h: string -> int, names: set<string>, key: string, m: string)
    requires Owns(h, names, key, m)
    ensures m in names
  {
  }
}
