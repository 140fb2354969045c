/** trashIfEmpty (pkg/plexproject/items.go) over a table that need not be a forest:
    exactly when its walk up the parents ends. */
module Cycles {
  import opened Options
  import opened Sets
  import opened Library

  /** One turn of the walk: the rows after it, and where it goes on. */
  function Turn(items: Items, media: MediaRows, at: Option<int>, now: int): (Items, Option<int>) {
    if at.None? || at.value !in items then (items, None)
    else (TrashOne(items, media, at.value, now),
          if Live(items, media, at.value) > 0 then None else items[at.value].parent)
  }

  function After(items: Items, media: MediaRows, i: int, now: int, n: nat): (Items, Option<int>) {
    if n == 0 then (items, Some(i))
    else
      var (was, at) := After(items, media, i, now, n - 1);
      Turn(was, media, at, now)
  }

  /** The walk has ended after n turns. */
  predicate Ended(items: Items, media: MediaRows, i: int, now: int, n: nat) { After(items, media, i, now, n).1.None? }

  // ---------------------------------------------------------------------
  // The way up
  // ---------------------------------------------------------------------

  /** The n-th row up from i, itself the first. */
  function Above(items: Items, i: int, n: nat): Option<int> {
    if n == 0 then Some(i)
    else
      var below := Above(items, i, n - 1);
      if below.Some? && below.value in items then items[below.value].parent else None
  }

  /** The first n of them. */
  function Below(items: Items, i: int, n: nat): set<int> {
    if n == 0 then {}
    else
      var last := Above(items, i, n - 1);
      Below(items, i, n - 1) + if last.Some? then {last.value} else {}
  }

  /** The n-th row up is there, has a parent, and holds nothing live but rows below it
      on the way. */
  predicate EmptyAt(items: Items, media: MediaRows, i: int, n: nat) {
    var at := Above(items, i, n);
    && at.Some? && at.value in items && items[at.value].parent.Some?
    && MediaOn(media, at.value) == {} && ChildrenOf(items, at.value) <= Below(items, i, n)
  }

  ghost predicate EmptyUp(items: Items, media: MediaRows, i: int, n: nat) {
    forall k :: 0 <= k < n ==> EmptyAt(items, media, i, k)
  }

  /** The rows with the first n of the way trashed. */
  ghost predicate Trashed(items: Items, r: Items, gone: set<int>) {
    && r.Keys == items.Keys
    && forall x :: x in items ==>
         r[x].parent == items[x].parent && (r[x].deleted.None? <==> items[x].deleted.None? && x !in gone)
  }

  /** The walk goes on as long as the way up is empty, trashing it. */
  lemma {:induction false} WalkIsTheWay(items: Items, media: MediaRows, i: int, now: int, n: nat)
    ensures !Ended(items, media, i, now, n) <==> EmptyUp(items, media, i, n)
    ensures EmptyUp(items, media, i, n) ==>
      var (r, at) := After(items, media, i, now, n); at == Above(items, i, n) && Trashed(items, r, Below(items, i, n))
  {
    hide EmptyAt, TrashOne, Live, Trashed, Below;
    if n == 0 {
      NoneTrashed(items);
      assert Below(items, i, 0) == {} by { BelowNone(items, i); }
    } else {
      WalkIsTheWay(items, media, i, now, n - 1);
      if EmptyUp(items, media, i, n - 1) {
        WalkTurns(items, After(items, media, i, now, n - 1).0, media, i, now, n - 1);
      } else {
        assert !EmptyUp(items, media, i, n) by { Shorter(items, media, i, n - 1, n); }
      }
    }
  }

  lemma NoneTrashed(items: Items)
    ensures Trashed(items, items, {})
  {
  }

  lemma BelowNone(items: Items, i: int)
    ensures Below(items, i, 0) == {}
  {
  }

  lemma Shorter(items: Items, media: MediaRows, i: int, m: nat, n: nat)
    requires m <= n
    ensures EmptyUp(items, media, i, n) ==> EmptyUp(items, media, i, m)
  {
  }

  lemma WalkTurns(items: Items, was: Items, media: MediaRows, i: int, now: int, n: nat)
    requires EmptyUp(items, media, i, n) && Trashed(items, was, Below(items, i, n))
    ensures var (r, at) := Turn(was, media, Above(items, i, n), now);
      && (at.Some? <==> EmptyAt(items, media, i, n))
      && (at.Some? ==> at == Above(items, i, n + 1) && Trashed(items, r, Below(items, i, n + 1)))
  {
    hide Live, TrashOne, MediaOn, ChildrenOf, Trashed;
    var at := Above(items, i, n);
    SameRows(items, was, Below(items, i, n));
    if at.Some? && at.value in items {
      NothingLive(items, was, media, Below(items, i, n), at.value);
      if Live(was, media, at.value) == 0 { TrashedMore(items, was, media, Below(items, i, n), at.value, now); }
    }
  }

  lemma SameRows(items: Items, was: Items, gone: set<int>)
    requires Trashed(items, was, gone)
    ensures was.Keys == items.Keys && forall x :: x in items ==> was[x].parent == items[x].parent
  {
  }

  /** What is live under a row is what was and did not go. */
  lemma NothingLive(items: Items, was: Items, media: MediaRows, gone: set<int>, x: int)
    requires Trashed(items, was, gone)
    ensures Live(was, media, x) == 0 <==> MediaOn(media, x) == {} && ChildrenOf(items, x) <= gone
  {
    forall c ensures c in ChildrenOf(was, x) <==> c in ChildrenOf(items, x) && c !in gone {
      assert c in items <==> c in was;
      if c in items { assert was[c].parent == items[c].parent; }
    }
    NoneIn(MediaOn(media, x));
    NoneIn(ChildrenOf(was, x));
  }

  lemma TrashedMore(items: Items, was: Items, media: MediaRows, gone: set<int>, x: int, now: int)
    requires Trashed(items, was, gone) && x in was && Live(was, media, x) == 0
    ensures Trashed(items, TrashOne(was, media, x, now), gone + {x})
  {
    hide Live, MediaOn;
  }

  lemma NoneIn(s: set<int>)
    ensures |s| == 0 <==> s == {}
  {
  }

  // ---------------------------------------------------------------------
  // A way that comes back
  // ---------------------------------------------------------------------

  /** Rows met so far are as many as the turns, or one was met twice. */
  lemma {:induction false} MeetsAgain(items: Items, i: int, n: nat) returns (k: nat)
    requires forall m :: 0 <= m < n ==> Above(items, i, m).Some? && Above(items, i, m).value in items
    ensures Below(items, i, n) <= items.Keys
    ensures k < n ==> Above(items, i, k).value in Below(items, i, k)
    ensures k >= n ==> |Below(items, i, n)| == n
  {
    if n == 0 {
      k := 0;
    } else {
      k := MeetsAgain(items, i, n - 1);
      if k >= n - 1 {
        k := if Above(items, i, n - 1).value in Below(items, i, n - 1) then n - 1 else n;
      }
    }
  }

  /** What was met among the first k rows was met at some turn. */
  lemma {:induction false} MetAt(items: Items, i: int, k: nat, x: int) returns (j: nat)
    requires x in Below(items, i, k)
    ensures j < k && Above(items, i, j) == Some(x)
  {
    j := k - 1;
    if Above(items, i, k - 1) != Some(x) {
      j := MetAt(items, i, k - 1, x);
    }
  }

  /** From a row met twice the way only comes back. */
  lemma {:induction false} ComesBack(items: Items, i: int, k: nat, m: nat) returns (j: nat)
    requires Above(items, i, k).Some? && Above(items, i, k).value in Below(items, i, k)
    ensures j < k && Above(items, i, j) == Above(items, i, m)
    decreases m
  {
    if m < k {
      j := m;
    } else if m == k {
      j := MetAt(items, i, k, Above(items, i, k).value);
    } else {
      j := ComesBack(items, i, k, m - 1);
      j := j + 1;
      if j == k {
        j := MetAt(items, i, k, Above(items, i, k).value);
      }
    }
  }

  lemma {:induction false} BelowGrows(items: Items, i: int, m: nat, n: nat)
    requires m <= n
    ensures Below(items, i, m) <= Below(items, i, n)
  {
    if m < n { BelowGrows(items, i, m, n - 1); }
  }

  /** A way empty for one turn more than there are rows is empty for ever. */
  lemma EmptyForEver(items: Items, media: MediaRows, i: int, n: nat)
    requires EmptyUp(items, media, i, |items| + 1)
    ensures EmptyUp(items, media, i, n)
  {
    forall m | 0 <= m < |items| + 1 ensures Above(items, i, m).Some? && Above(items, i, m).value in items {
      assert EmptyAt(items, media, i, m);
    }
    var k := MeetsAgain(items, i, |items| + 1);
    if k >= |items| + 1 { Fits(Below(items, i, |items| + 1), items); }
    forall m | 0 <= m < n ensures EmptyAt(items, media, i, m) {
      var j := m;
      if m >= k {
        j := ComesBack(items, i, k, m);
      }
      assert EmptyAt(items, media, i, j);
      BelowGrows(items, i, j, m);
    }
  }

  lemma Fits(s: set<int>, items: Items)
    requires s <= items.Keys
    ensures |s| <= |items|
  {
    assert |items| == |items.Keys|;
    Smaller(s, items.Keys);
  }

  lemma {:induction false} Smaller(s: set<int>, t: set<int>)
    requires s <= t
    ensures |s| <= |t|
    decreases s
  {
    if |s| > 0 {
      var x := Inhabited(s);
      Smaller(s - {x}, t - {x});
    }
  }

  /** trashIfEmpty ends exactly when the way up from the item, as many rows and one
      more, meets a missing row, one without a parent, or one that holds something live
      not met before; and then within as many turns. */
  lemma WalkEndsExactly(items: Items, media: MediaRows, i: int, now: int)
    ensures (exists n :: Ended(items, media, i, now, n)) <==> !EmptyUp(items, media, i, |items| + 1)
    ensures (exists n :: Ended(items, media, i, now, n)) ==> Ended(items, media, i, now, |items| + 1)
  {
    WalkIsTheWay(items, media, i, now, |items| + 1);
    if EmptyUp(items, media, i, |items| + 1) {
      forall n ensures !Ended(items, media, i, now, n) {
        EmptyForEver(items, media, i, n);
        WalkIsTheWay(items, media, i, now, n);
      }
    }
  }

  /** In the typed forest, which every transaction keeps, it always ends. */
  lemma TypedWalkEnds(items: Items, media: MediaRows, i: int, now: int)
    requires Typed(items)
    ensures Ended(items, media, i, now, |items| + 1)
  {
    hide EmptyUp, Ended;
    WalkIsTheWay(items, media, i, now, |items| + 1);
    if EmptyUp(items, media, i, |items| + 1) {
      EmptyForEver(items, media, i, 3);
      TypedWay(items, media, i);
    }
  }

  /** What is left to do of the walk. */
  ghost function Rest(items: Items, media: MediaRows, at: Option<int>, now: int): Items
    requires Typed(items)
  {
    if at.None? then items else TrashIfEmpty(items, media, at.value, now)
  }

  lemma TypedTurn(items: Items, media: MediaRows, at: Option<int>, now: int)
    requires Typed(items)
    ensures var (r, next) := Turn(items, media, at, now); Typed(r) && Rest(r, media, next, now) == Rest(items, media, at, now)
  {
    hide MediaOn, ChildrenOf;
  }

  /** And what it leaves is what the transactions' proofs speak of. */
  lemma {:induction false} TypedWalkIs(items: Items, media: MediaRows, i: int, now: int, n: nat)
    requires Typed(items)
    ensures var (r, at) := After(items, media, i, now, n);
      Typed(r) && Rest(r, media, at, now) == TrashIfEmpty(items, media, i, now)
  {
    hide Turn, Typed, TrashIfEmpty;
    if n > 0 {
      TypedWalkIs(items, media, i, now, n - 1);
      var (was, at) := After(items, media, i, now, n - 1);
      TypedTurn(was, media, at, now);
    }
  }

  lemma TypedWay(items: Items, media: MediaRows, i: int)
    requires Typed(items)
    ensures !EmptyUp(items, media, i, 3)
  {
    assert !(EmptyAt(items, media, i, 0) && EmptyAt(items, media, i, 1) && EmptyAt(items, media, i, 2));
  }

  /** Two rows under each other, the second trashed and neither with a file: a walk from
      the first never ends. */
  lemma ParentsInACycle(items: Items, media: MediaRows, now: int, n: nat)
    requires items.Keys == {1, 2} && items[1].parent == Some(2) && items[2].parent == Some(1) && items[2].deleted.Some?
    requires MediaOn(media, 1) == {} && MediaOn(media, 2) == {}
    ensures !Ended(items, media, 1, now, n)
  {
    assert Above(items, 1, 0) == Some(1);
    assert Above(items, 1, 1) == Some(2);
    assert Above(items, 1, 2) == Some(1);
    assert Below(items, 1, 0) == {} && Below(items, 1, 1) == {1};
    assert ChildrenOf(items, 1) == {} && ChildrenOf(items, 2) <= {1};
    assert EmptyAt(items, media, 1, 0) && EmptyAt(items, media, 1, 1) && EmptyAt(items, media, 1, 2);
    assert |items| == |items.Keys| == 2;
    EmptyForEver(items, media, 1, n);
    WalkIsTheWay(items, media, 1, now, n);
  }
}
