/** What trashing an emptied item comes to (trashIfEmpty in pkg/plexproject/items.go),
    said of the library it leaves: who is live, and what is on and under it. */
module Trashing {
  import opened Options
  import opened Library

  /** The item, its parent and its parent's parent. */
  predicate AtOrAbove(items: Items, i: int, j: int) {
    || j == i
    || (i in items && items[i].parent.Some? &&
        var p := items[i].parent.value;
        j == p || (p in items && items[p].parent == Some(j)))
  }

  /** Something live is on the item or under it. */
  predicate Holds(items: Items, media: MediaRows, j: int) { MediaOn(media, j) != {} || ChildrenOf(items, j) != {} }

  /** Of the item and those above it, the ones that hold something are live and the
      others were trashed at `now`. */
  ghost predicate LiveIffHolding(items: Items, media: MediaRows, i: int, now: int) {
    forall j :: j in items && AtOrAbove(items, i, j) ==>
      items[j].deleted == if Holds(items, media, j) then None else Some(now)
  }

  /** Every other item is as it was. */
  ghost predicate OthersAsWere(before: Items, after: Items, i: int) {
    && after.Keys == before.Keys
    && forall j :: j in before && !AtOrAbove(before, i, j) ==> after[j] == before[j]
  }

  lemma UpIsAbove(items: Items, i: int, j: int)
    requires Typed(items) && i in items
    ensures j in Up(items, i) <==> j in items && AtOrAbove(items, i, j)
  {
    if items[i].parent.Some? && items[i].parent.value in items {
      var p := items[i].parent.value;
      assert Up(items, i) == {i} + Up(items, p);
      if items[p].parent.Some? && items[p].parent.value in items {
        var g := items[p].parent.value;
        assert Up(items, p) == {p} + Up(items, g) && Up(items, g) == {g};
      } else {
        assert Up(items, p) == {p};
      }
    } else {
      assert Up(items, i) == {i};
    }
  }

  ghost predicate AllLive(items: Items, s: set<int>) { forall j :: j in s ==> LiveItem(items, j) }

  /** A live row above another on a live way holds the one below it. */
  lemma {:induction false} AboveHolds(items: Items, media: MediaRows, i: int, j: int)
    requires Typed(items) && i in items && AllLive(items, Up(items, i)) && j in Up(items, i) && j != i
    ensures Holds(items, media, j)
    decreases Height(items, i)
  {
    var p := items[i].parent.value;
    if j == p {
      assert i in Up(items, i) && i in ChildrenOf(items, p);
    } else {
      AboveHolds(items, media, p, j);
    }
  }

  /** Each row on the way up is live while it holds something, else trashed. */
  ghost predicate WayKept(items: Items, r: Items, media: MediaRows, i: int, now: int)
    requires Typed(items)
  {
    forall j :: j in Up(items, i) ==> j in r && r[j].deleted == if Holds(r, media, j) then None else Some(now)
  }

  lemma {:induction false} UpKeepsHolding(items: Items, media: MediaRows, i: int, now: int)
    requires Typed(items) && i in items && AllLive(items, Up(items, i))
    ensures WayKept(items, TrashIfEmpty(items, media, i, now), media, i, now)
    decreases Height(items, i)
  {
    hide MediaOn, ChildrenOf, Holds, Live, WayKept, AllLive, TrashIfEmpty, TrashOne, SameShape;
    var r, next := TrashIfEmpty(items, media, i, now), TrashOne(items, media, i, now);
    TurnIs(items, media, i, now);
    TrashFrame(items, media, i, now);
    LiveHolds(items, media, i);
    if Live(items, media, i) > 0 {
      StaysUp(items, next, media, i, now);
    } else {
      NothingUnder(items, r, media, i);
      if items[i].parent.Some? && items[i].parent.value in items {
        var p := items[i].parent.value;
        NotAbove(items, i);
        NextLive(items, next, i);
        UpKeepsHolding(next, media, p, now);
        TrashFrame(next, media, p, now);
        UpSame(items, next, p);
        OneMoreKept(items, next, r, media, i, p, now);
      } else {
        OnlyOneKept(items, r, media, i, now);
      }
    }
  }

  /** A turn of the walk. */
  lemma TurnIs(items: Items, media: MediaRows, i: int, now: int)
    requires Typed(items) && i in items
    ensures var next, r := TrashOne(items, media, i, now), TrashIfEmpty(items, media, i, now);
      && Typed(next) && SameForest(items, next) && (forall x :: x in items && x != i ==> next[x] == items[x])
      && (forall x :: x in items ==> next[x].parent == items[x].parent)
      && next[i].deleted == (if Live(items, media, i) > 0 then items[i].deleted else Some(now))
      && r == if Live(items, media, i) > 0 || items[i].parent.None? then next
              else TrashIfEmpty(next, media, items[i].parent.value, now)
    ensures items[i].parent.Some? && items[i].parent.value !in items && Live(items, media, i) == 0 ==>
      TrashIfEmpty(items, media, i, now) == TrashOne(items, media, i, now)
  {
    hide Live, MediaOn;
  }

  lemma StaysUp(items: Items, next: Items, media: MediaRows, i: int, now: int)
    requires Typed(items) && i in items && AllLive(items, Up(items, i)) && Holds(items, media, i)
    requires next.Keys == items.Keys && forall x :: x in items ==> next[x].parent == items[x].parent && next[x].deleted == items[x].deleted
    ensures WayKept(items, next, media, i, now)
  {
    hide Holds;
    SameHolds(items, next, media);
    forall j | j in Up(items, i) ensures j in next && next[j].deleted == if Holds(next, media, j) then None else Some(now) {
      if j != i { AboveHolds(items, media, i, j); }
      assert LiveItem(items, j);
    }
  }

  lemma NextLive(items: Items, next: Items, i: int)
    requires Typed(items) && Typed(next) && i in items && AllLive(items, Up(items, i)) && SameForest(items, next)
    requires forall x :: x in items && x != i ==> next[x] == items[x]
    requires items[i].parent.Some? && items[i].parent.value in items
    ensures AllLive(next, Up(next, items[i].parent.value))
  {
    var p := items[i].parent.value;
    NotAbove(items, i);
    UpSame(items, next, p);
  }

  lemma OneMoreKept(items: Items, next: Items, r: Items, media: MediaRows, i: int, p: int, now: int)
    requires Typed(items) && Typed(next) && i in items && items[i].parent == Some(p) && p in items
    requires WayKept(next, r, media, p, now) && Up(next, p) == Up(items, p)
    requires i in r && r[i].deleted == Some(now) && !Holds(r, media, i)
    ensures WayKept(items, r, media, i, now)
  {
    hide Holds;
    assert Up(items, i) == {i} + Up(items, p);
  }

  lemma OnlyOneKept(items: Items, r: Items, media: MediaRows, i: int, now: int)
    requires Typed(items) && i in items && (items[i].parent.None? || items[i].parent.value !in items)
    requires i in r && r[i].deleted == Some(now) && !Holds(r, media, i)
    ensures WayKept(items, r, media, i, now)
  {
    hide Holds;
    assert Up(items, i) == {i};
  }

  lemma LiveHolds(items: Items, media: MediaRows, j: int)
    ensures Live(items, media, j) > 0 <==> Holds(items, media, j)
  {
  }

  lemma SameHolds(a: Items, b: Items, media: MediaRows)
    requires a.Keys == b.Keys && forall i :: i in a ==> b[i].parent == a[i].parent && b[i].deleted == a[i].deleted
    ensures forall j :: Holds(a, media, j) == Holds(b, media, j)
  {
    forall j ensures Holds(a, media, j) == Holds(b, media, j) { SameChildren(a, b, j); }
  }

  lemma SameChildren(a: Items, b: Items, j: int)
    requires a.Keys == b.Keys && forall i :: i in a ==> b[i].parent == a[i].parent && b[i].deleted == a[i].deleted
    ensures ChildrenOf(a, j) == ChildrenOf(b, j)
  {
    forall c ensures c in ChildrenOf(a, j) <==> c in ChildrenOf(b, j) {
      assert c in a <==> c in b;
    }
  }

  lemma NothingUnder(items: Items, r: Items, media: MediaRows, i: int)
    requires !Holds(items, media, i) && SameForest(items, r) && forall j :: LiveItem(r, j) ==> LiveItem(items, j)
    ensures !Holds(r, media, i)
  {
    forall c | c in ChildrenOf(r, i) ensures c in ChildrenOf(items, i) {
      assert LiveItem(items, c);
    }
  }

  lemma NotAbove(items: Items, i: int)
    requires Typed(items) && i in items && items[i].parent.Some?
    ensures i !in Up(items, items[i].parent.value)
  {
    var p := items[i].parent.value;
    if p in items && items[p].parent.Some? && items[p].parent.value in items {
      assert items[items[p].parent.value].parent.None?;
    }
  }

  /** trashIfEmpty from a live item under live ones. */
  lemma TrashMeans(items: Items, media: MediaRows, i: int, now: int)
    requires Typed(items) && ItemsHeld(items) && LiveItem(items, i)
    ensures var r := TrashIfEmpty(items, media, i, now);
      LiveIffHolding(r, media, i, now) && OthersAsWere(items, r, i)
  {
    var r := TrashIfEmpty(items, media, i, now);
    TrashFrame(items, media, i, now);
    forall j | j in Up(items, i) ensures LiveItem(items, j) { UpLive(items, i, j); }
    UpKeepsHolding(items, media, i, now);
    forall j ensures j in Up(items, i) <==> j in items && AtOrAbove(items, i, j) { UpIsAbove(items, i, j); }
    forall j ensures AtOrAbove(r, i, j) == AtOrAbove(items, i, j) { SameAbove(items, r, i, j); }
  }

  lemma SameAbove(a: Items, b: Items, i: int, j: int)
    requires a.Keys == b.Keys && forall x :: x in a ==> b[x].parent == a[x].parent
    ensures AtOrAbove(a, i, j) == AtOrAbove(b, i, j)
  {
  }

  /** Items as live as before hold what they held, where the live media are the same. */
  lemma StillLiveIffHolding(a: Items, m: MediaRows, b: Items, n: MediaRows, i: int, now: int)
    requires LiveIffHolding(a, m, i, now) && a.Keys == b.Keys
    requires forall x :: x in a ==> b[x].parent == a[x].parent && b[x].deleted == a[x].deleted
    requires forall j :: j in a && AtOrAbove(a, i, j) ==> MediaOn(m, j) == MediaOn(n, j)
    ensures LiveIffHolding(b, n, i, now)
  {
    hide MediaOn;
    forall j | j in b && AtOrAbove(b, i, j) ensures b[j].deleted == if Holds(b, n, j) then None else Some(now) {
      SameAbove(a, b, i, j);
      SameChildren(a, b, j);
    }
  }
}
