/** The sweep's two writes (pkg/plexproject/missing.go): a row Plex scanned
    whose files are gone is taken off its item, and put back when one returns. */
module Removal {
  import opened Options
  import opened Library
  import opened Projection
  import opened Trashing

  /** The update re-checks that the row is live and still Plex's. */
  predicate Removable(db: Db, m: int) { LiveMedia(db.media, m) && db.media[m].stamps.uid == "" }

  /** A row the sweep removed and no apply has taken since. */
  predicate Revivable(db: Db, m: int) {
    && m in db.media && db.media[m].deleted.Some?
    && db.media[m].stamps.missing.Some? && db.media[m].stamps.uid == ""
  }

  function Mark(row: Media, now: int): Media {
    row.(deleted := Some(now), updated := now, stamps := row.stamps.(missing := Some(now)))
  }

  ghost function RemoveGone(db: Db, m: int, now: int): Db
    requires Typed(db.items) && Removable(db, m)
  {
    var item, media := db.media[m].item, db.media[m := Mark(db.media[m], now)];
    db.(media := media, parts := DropParts(db.parts, m, now), items := Emptied(db.items, media, item, now))
  }

  /** trashIfEmpty, then the update time of an item that stays. */
  ghost function Emptied(items: Items, media: MediaRows, item: int, now: int): Items
    requires Typed(items)
  {
    var trashed := TrashIfEmpty(items, media, item, now);
    if LiveItem(trashed, item) then Touched(trashed, item, now) else trashed
  }

  /** The parts that went when the row did. */
  function RaiseParts(parts: Parts, m: int, at: Option<int>, now: int): Parts {
    map p | p in parts ::
      if parts[p].media == m && parts[p].deleted == at then parts[p].(deleted := None, updated := now) else parts[p]
  }

  /** The item and every trashed row above it, live again. */
  function Raise(items: Items, item: int, now: int): Items
    requires Typed(items)
  {
    map i | i in items ::
      if i in Up(items, item) && items[i].deleted.Some? then items[i].(deleted := None, updated := now) else items[i]
  }

  function Revive(db: Db, m: int, now: int): Db
    requires Typed(db.items) && Revivable(db, m)
  {
    ReviveAs(db, m, db.media[m].stamps, now)
  }

  /** What the update writes over a deleted row read with these stamps. */
  function ReviveAs(db: Db, m: int, read: Stamps, now: int): Db
    requires Typed(db.items) && m in db.media && db.media[m].deleted.Some?
  {
    var row := db.media[m];
    var media := db.media[m := row.(deleted := None, updated := now, stamps := read.(missing := None))];
    db.(media := media, parts := RaiseParts(db.parts, m, row.deleted, now),
        items := CountMedia(Raise(db.items, row.item, now), media, row.item))
  }

  // ---------------------------------------------------------------------
  // Both keep the library sound
  // ---------------------------------------------------------------------

  lemma MarkSound(db: Db, m: int, now: int)
    requires Sound(db) && Removable(db, m)
    ensures SoundBut(db.(media := db.media[m := Mark(db.media[m], now)], parts := DropParts(db.parts, m, now)),
                     {db.media[m].item})
  {
    hide Sound, SoundBut, Typed, Ids, MediaHeld, ItemsHeld, CountsBut, Backed, Stamped, DropParts, HasPart, SameStamp, Mark;
    SoundIs(db);
    SoundParts(db, {});
    var r := db.(media := db.media[m := Mark(db.media[m], now)], parts := DropParts(db.parts, m, now));
    MarkFrame(db, r, m, now);
    KeepsParts(db, r, m);
    RowChanged(db, r, m);
  }

  lemma MarkFrame(db: Db, r: Db, m: int, now: int)
    requires Ids(db) && Backed(db.media, db.parts) && Removable(db, m)
    requires r == db.(media := db.media[m := Mark(db.media[m], now)], parts := DropParts(db.parts, m, now))
    ensures Ids(r) && r.media[m] == Mark(db.media[m], now) && DroppedParts(db.parts, r.parts, m)
    ensures r.media[m].item == db.media[m].item && r.media[m].deleted == Some(now) && HasPart(r.parts, m, Some(now))
  {
    assert HasPart(db.parts, m, None);
    var p :| p in db.parts && db.parts[p].media == m && db.parts[p].deleted.None?;
    assert p in r.parts && r.parts[p].media == m && r.parts[p].deleted == Some(now);
  }

  lemma RemoveSound(db: Db, m: int, now: int)
    requires Sound(db) && Removable(db, m)
    ensures Sound(RemoveGone(db, m, now)) && Revivable(RemoveGone(db, m, now), m)
  {
    var item := db.media[m].item;
    var marked := db.(media := db.media[m := Mark(db.media[m], now)], parts := DropParts(db.parts, m, now));
    MarkSound(db, m, now);
    TrashSound(marked, item, now);
    var trashed := marked.(items := TrashIfEmpty(marked.items, marked.media, item, now));
    SameLiveSound(trashed, RemoveGone(db, m, now), {});
  }

  lemma {:induction false} UpClosed(items: Items, i: int, j: int)
    requires Typed(items) && j in Up(items, i) && j in items && items[j].parent.Some? && items[j].parent.value in items
    ensures items[j].parent.value in Up(items, i)
    decreases Height(items, i)
  {
    if j != i {
      UpClosed(items, items[i].parent.value, j);
    }
  }

  lemma {:induction false} UpIn(items: Items, i: int)
    requires Typed(items)
    ensures Up(items, i) <= items.Keys
    decreases Height(items, i)
  {
    if i in items && items[i].parent.Some? {
      UpIn(items, items[i].parent.value);
    }
  }

  lemma RaiseSound(db: Db, item: int, now: int)
    requires Sound(db)
    ensures Sound(db.(items := Raise(db.items, item, now)))
  {
    var items := Raise(db.items, item, now);
    UpIn(db.items, item);
    assert ItemsHeld(items) by {
      forall i | LiveItem(items, i) && items[i].parent.Some? ensures LiveItem(items, items[i].parent.value) {
        if i in Up(db.items, item) {
          UpClosed(db.items, item, i);
        }
      }
    }
    assert MediaHeld(items, db.media) by {
      forall m | LiveMedia(db.media, m) ensures LiveItem(items, db.media[m].item) {
        assert LiveItem(db.items, db.media[m].item);
      }
    }
  }

  lemma ReviveParts(db: Db, m: int, now: int)
    requires Ids(db) && Typed(db.items) && Backed(db.media, db.parts) && Revivable(db, m)
    ensures var r := Revive(db, m, now); Ids(r) && Backed(r.media, r.parts)
  {
    hide Ids, Backed, HasPart, CountMedia, Raise, RaiseParts, Typed;
    var r := Revive(db, m, now);
    RaisedParts(db.media, db.parts, m, now);
    RaisedItems(db.items, r.media, db.media[m].item, now);
    RaisedIds(db, r, m);
    KeepsParts(db, r, m);
  }

  lemma RaisedParts(media: MediaRows, parts: Parts, m: int, now: int)
    requires Backed(media, parts) && m in media && media[m].deleted.Some? && media[m].stamps.missing.Some?
    ensures var r := RaiseParts(parts, m, media[m].deleted, now); DroppedParts(parts, r, m) && HasPart(r, m, None)
  {
    assert HasPart(parts, m, media[m].deleted);
    var p :| p in parts && parts[p].media == m && parts[p].deleted == media[m].deleted;
    var r := RaiseParts(parts, m, media[m].deleted, now);
    assert p in r && r[p].media == m && r[p].deleted.None?;
  }

  lemma RaisedItems(items: Items, media: MediaRows, item: int, now: int)
    requires Typed(items)
    ensures var r := CountMedia(Raise(items, item, now), media, item);
      r.Keys == items.Keys && forall i :: i in items ==> r[i].parent == items[i].parent
  {
    hide MediaOn, Up;
  }

  lemma RaisedIds(db: Db, r: Db, m: int)
    requires Ids(db) && m in r.media && r.media == db.media[m := r.media[m]] && m in db.media && r.media[m].item == db.media[m].item
    requires r.items.Keys == db.items.Keys && forall i :: i in db.items ==> r.items[i].parent == db.items[i].parent
    requires r.next == db.next && DroppedParts(db.parts, r.parts, m)
    ensures Ids(r)
  {
  }

  lemma ReviveSound(db: Db, m: int, now: int)
    requires Sound(db) && Revivable(db, m)
    ensures Sound(Revive(db, m, now)) && LiveMedia(Revive(db, m, now).media, m)
  {
    var item := db.media[m].item;
    var raised := db.(items := Raise(db.items, item, now));
    RaiseSound(db, item, now);
    ReviveParts(db, m, now);
    assert item in Up(db.items, item);
    RowWritten(raised, Revive(db, m, now), m);
  }

  // ---------------------------------------------------------------------
  // What they leave
  // ---------------------------------------------------------------------

  /** A part brought back with its row: one that went when the row did. */
  function Returned(part: Part, at: Option<int>, now: int): Part {
    if part.deleted == at then part.(deleted := None, updated := now) else part
  }

  /** A removal marks the row and trashes it and its parts; its item and those above are
      live exactly while they hold something, and nothing else changes. */
  lemma RemoveLeaves(db: Db, m: int, now: int)
    requires Sound(db) && Removable(db, m)
    ensures var r := RemoveGone(db, m, now); var was := db.media[m];
      && r.media == db.media[m := was.(deleted := Some(now), updated := now, stamps := was.stamps.(missing := Some(now)))]
      && r.parts.Keys == db.parts.Keys
      && (forall p :: p in db.parts ==> r.parts[p] == if db.parts[p].media == m then Dropped(db.parts[p], now) else db.parts[p])
      && LiveIffHolding(r.items, r.media, was.item, now) && OthersAsWere(db.items, r.items, was.item)
      && (LiveItem(r.items, was.item) ==> r.items[was.item].updated == now)
      && r.settings == db.settings
  {
    hide LiveIffHolding, OthersAsWere, Sound, TrashIfEmpty;
    SoundIs(db);
    SoundParts(db, {});
    var r, item := RemoveGone(db, m, now), db.media[m].item;
    HeldItem(db, m);
    TrashMeans(db.items, r.media, item, now);
    var trashed := TrashIfEmpty(db.items, r.media, item, now);
    TouchedStays(db.items, trashed, r.media, item, now);
  }

  lemma TouchedStays(before: Items, trashed: Items, media: MediaRows, item: int, now: int)
    requires LiveIffHolding(trashed, media, item, now) && OthersAsWere(before, trashed, item) && item in before
    ensures var r := if LiveItem(trashed, item) then Touched(trashed, item, now) else trashed;
      LiveIffHolding(r, media, item, now) && OthersAsWere(before, r, item) && (LiveItem(r, item) ==> r[item].updated == now)
  {
    hide LiveIffHolding;
    var r := if LiveItem(trashed, item) then Touched(trashed, item, now) else trashed;
    assert AtOrAbove(before, item, item);
    StillLiveIffHolding(trashed, media, r, media, item, now);
  }

  /** A revival clears the row's mark and brings it back, with the parts that went when
      it did; its item and those above are live, and nothing else changes. */
  lemma ReviveLeaves(db: Db, m: int, now: int)
    requires Sound(db) && Revivable(db, m)
    ensures var r := Revive(db, m, now); var was := db.media[m];
      && r.media == db.media[m := was.(deleted := None, updated := now, stamps := was.stamps.(missing := None))]
      && r.parts.Keys == db.parts.Keys
      && (forall p :: p in db.parts ==>
            r.parts[p] == if db.parts[p].media == m then Returned(db.parts[p], was.deleted, now) else db.parts[p])
      && (forall j :: j in db.items && AtOrAbove(db.items, was.item, j) ==> LiveItem(r.items, j))
      && OthersAsWere(db.items, r.items, was.item) && r.settings == db.settings
  {
    hide Sound, MediaOn, Raise, CountMedia, OthersAsWere, AtOrAbove, LiveItem;
    SoundIs(db);
    SoundParts(db, {});
    RaiseLeaves(db.items, Revive(db, m, now).media, db.media[m].item, now);
  }

  lemma RaiseLeaves(items: Items, media: MediaRows, item: int, now: int)
    requires Typed(items) && item in items
    ensures var r := CountMedia(Raise(items, item, now), media, item);
      (forall j :: j in items && AtOrAbove(items, item, j) ==> LiveItem(r, j)) && OthersAsWere(items, r, item)
  {
    hide MediaOn;
    forall j ensures j in Up(items, item) <==> j in items && AtOrAbove(items, item, j) { UpIsAbove(items, item, j); }
    hide Up, AtOrAbove;
  }

  // ---------------------------------------------------------------------
  // Revival undoes removal
  // ---------------------------------------------------------------------

  ghost predicate SameMediaButTimes(a: MediaRows, b: MediaRows) {
    a.Keys == b.Keys && forall m :: m in a ==> b[m] == a[m].(updated := b[m].updated)
  }

  ghost predicate SamePartsButTimes(a: Parts, b: Parts) {
    a.Keys == b.Keys && forall p :: p in a ==> b[p] == a[p].(updated := b[p].updated)
  }

  ghost function RemovedThenRevived(db: Db, m: int, t: int, t': int): Db
    requires Sound(db) && Removable(db, m)
  {
    RemoveSound(db, m, t);
    Revive(RemoveGone(db, m, t), m, t')
  }

  /** Removal touches only the item's chain, which was live; revival raises
      all of it. */
  lemma ChainBack(items: Items, media: MediaRows, item: int, t: int, t': int, i: int)
    requires Typed(items) && ItemsHeld(items) && LiveItem(items, item) && i in items
    ensures var a := Emptied(items, media, item, t);
      && Typed(a) && i in Raise(a, item, t')
      && var it := Raise(a, item, t')[i]; SameShape(items[i], it) && it.deleted == items[i].deleted
  {
    var a := Emptied(items, media, item, t);
    TrashFrame(items, media, item, t);
    assert item in Up(items, item);
    UpSame(items, a, item);
    if i in Up(items, item) {
      UpLive(items, item, i);
    }
  }

  /** No part of the row was deleted in the second of the removal. */
  predicate NoneGoneAt(parts: Parts, m: int, t: int) {
    forall p :: p in parts && parts[p].media == m ==> parts[p].deleted != Some(t)
  }

  lemma RowsBack(db: Db, m: int, t: int, t': int)
    requires Sound(db) && Removable(db, m)
    ensures var b := RemovedThenRevived(db, m, t, t');
      SameMediaButTimes(db.media, b.media) && (NoneGoneAt(db.parts, m, t) <==> SamePartsButTimes(db.parts, b.parts))
  {
    hide Sound, Emptied, CountMedia, Raise;
    SoundIs(db);
    RemoveSound(db, m, t);
    LiveUnmarked(db, m);
    var b := RemovedThenRevived(db, m, t, t');
    assert b.parts == RaiseParts(DropParts(db.parts, m, t), m, Some(t), t');
    PartsBack(db.parts, m, t, t');
  }

  lemma LiveUnmarked(db: Db, m: int)
    requires Sound(db) && LiveMedia(db.media, m)
    ensures db.media[m].stamps.missing.None?
  {
  }

  lemma PartsBack(parts: Parts, m: int, t: int, t': int)
    ensures var b := RaiseParts(DropParts(parts, m, t), m, Some(t), t');
      NoneGoneAt(parts, m, t) <==> SamePartsButTimes(parts, b)
  {
    var b := RaiseParts(DropParts(parts, m, t), m, Some(t), t');
    if !NoneGoneAt(parts, m, t) {
      var p :| p in parts && parts[p].media == m && parts[p].deleted == Some(t);
      assert p in b && b[p].deleted.None?;
    }
  }

  lemma CountBack(db: Db, b: Db, i: int)
    requires CountsBut(db.items, db.media, {}) && CountsBut(b.items, b.media, {})
    requires SameMediaButTimes(db.media, b.media) && i in db.items && i in b.items
    ensures b.items[i].count == db.items[i].count
  {
    forall m ensures m in MediaOn(b.media, i) <==> m in MediaOn(db.media, i) {
      assert m in db.media ==> b.media[m] == db.media[m].(updated := b.media[m].updated);
    }
    assert MediaOn(b.media, i) == MediaOn(db.media, i);
  }

  lemma ItemBack(db: Db, m: int, t: int, t': int, i: int)
    requires Sound(db) && Removable(db, m) && i in db.items
    ensures var b := RemovedThenRevived(db, m, t, t');
      i in b.items && SameShape(db.items[i], b.items[i]) && b.items[i].deleted == db.items[i].deleted
  {
    var a := RemoveGone(db, m, t);
    ChainBack(db.items, a.media, db.media[m].item, t, t', i);
  }

  lemma ItemsBack(db: Db, m: int, t: int, t': int)
    requires Sound(db) && Removable(db, m)
    requires SameMediaButTimes(db.media, RemovedThenRevived(db, m, t, t').media)
    ensures SameButTimes(db.items, RemovedThenRevived(db, m, t, t').items)
  {
    var a, b := RemoveGone(db, m, t), RemovedThenRevived(db, m, t, t');
    assert CountsBut(b.items, b.media, {}) by {
      RemoveSound(db, m, t);
      ReviveSound(a, m, t');
    }
    assert b.items.Keys == db.items.Keys by {
      TrashFrame(db.items, a.media, db.media[m].item, t);
    }
    forall i | i in db.items ensures b.items[i] == db.items[i].(updated := b.items[i].updated) {
      ItemBack(db, m, t, t', i);
      CountBack(db, b, i);
    }
  }

  /** Reviving a row right after removing it restores the row, the liveness of its
      item and of everything above it, and every count, update times aside; and every
      part, exactly when none was deleted in the second of the removal: such a one
      comes back too. */
  lemma ReviveUndoesRemove(db: Db, m: int, t: int, t': int)
    requires Sound(db) && Removable(db, m)
    ensures var b := RemovedThenRevived(db, m, t, t');
      && SameButTimes(db.items, b.items) && SameMediaButTimes(db.media, b.media)
      && (SamePartsButTimes(db.parts, b.parts) <==> NoneGoneAt(db.parts, m, t))
      && b.settings == db.settings && b.next == db.next
  {
    RowsBack(db, m, t, t');
    ItemsBack(db, m, t, t');
  }
}
