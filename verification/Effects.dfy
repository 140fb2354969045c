/** All that a committed Apply or Delete does to the library (pkg/plexproject/apply.go,
    delete.go), said of the library before and after. */
module Effects {
  import opened Options
  import opened Library
  import opened ItemChain
  import opened Trashing
  import opened Chains
  import opened Projection
  import opened Transactions

  // ---------------------------------------------------------------------
  // Delete
  // ---------------------------------------------------------------------

  /** Deleting a file's row: it leaves its item, and the item and those above it go to
      the trash exactly when nothing live is left on them or under them. */
  lemma DeleteTrashes(db: Db, section: int, uid: string, now: int, m: int)
    requires Sound(db) && uid != "" && LiveMedia(db.media, m)
    requires db.media[m].section == section && db.media[m].stamps.uid == uid
    ensures var r := DeleteTx(db, section, uid, now); var item := db.media[m].item;
      && LiveIffHolding(r.items, r.media, item, now) && OthersAsWere(db.items, r.items, item)
      && RowLeft(db, r, m, now) && Uncrowded(db.media, r.media, item) && r.settings == db.settings
  {
    hide LiveIffHolding, OthersAsWere, RowLeft, Uncrowded, Detach;
    OneStampedRow(db, section, uid, m);
    DetachLeaves(db, m, now);
  }

  lemma OneStampedRow(db: Db, section: int, uid: string, m: int)
    requires Sound(db) && uid != "" && LiveMedia(db.media, m)
    requires db.media[m].section == section && db.media[m].stamps.uid == uid
    ensures StampedRows(db.media, section, uid) == {m}
  {
    assert forall k :: k in StampedRows(db.media, section, uid) ==> SameStamp(db.media[k], db.media[m]);
  }

  /** A file with no row is nothing to delete. */
  lemma DeleteNothing(db: Db, section: int, uid: string, now: int)
    requires Typed(db.items)
    requires forall m :: LiveMedia(db.media, m) && db.media[m].section == section ==> db.media[m].stamps.uid != uid
    ensures DeleteTx(db, section, uid, now) == db
  {
    assert StampedRows(db.media, section, uid) == {};
  }

  // ---------------------------------------------------------------------
  // Writing the file's row
  // ---------------------------------------------------------------------

  /** Items differ at most in their counts and update times. */
  ghost predicate SameLiveItems(a: Items, b: Items) {
    a.Keys == b.Keys && forall i :: i in a ==> b[i] == a[i].(count := b[i].count, updated := b[i].updated)
  }

  /** Row k, there or gone, and its parts are as they were. */
  ghost predicate SameRow(a: Db, b: Db, k: int) {
    && (k in a.media <==> k in b.media) && (k in a.media ==> b.media[k] == a.media[k])
    && (forall p :: p in a.parts && a.parts[p].media == k ==> p in b.parts && b.parts[p] == a.parts[p])
    && (forall p :: p in b.parts && b.parts[p].media == k ==> p in a.parts && b.parts[p] == a.parts[p])
  }

  /** What a row's writing on `item` leaves alone: the watched state, who is live, the
      live rows of other items, and row k of another. */
  ghost predicate Apart(a: Db, b: Db, item: int, k: int) {
    && SameLiveItems(a.items, b.items) && b.settings == a.settings
    && (forall j :: j != item ==> MediaOn(b.media, j) == MediaOn(a.media, j))
    && (k < a.next && (k in a.media ==> a.media[k].item != item) ==> SameRow(a, b, k))
  }

  lemma ApartTwice(a: Db, b: Db, c: Db, item: int, k: int)
    requires Apart(a, b, item, k) && Apart(b, c, item, k) && a.next <= b.next
    ensures Apart(a, c, item, k)
  {
    hide MediaOn;
  }

  lemma UpsertApart(db: Db, section: int, item: int, f: Option<Found>, c: Change, now: int, k: int)
    requires Ids(db) && LiveItem(db.items, item) && OnItem(db, item, f)
    ensures var r := Upsert(db, section, item, f, c, now).0; Apart(db, r, item, k) && db.next <= r.next
  {
    hide SameRow, MediaOn;
    var (r, m) := Upsert(db, section, item, f, c, now);
    UpsertMedia(db, section, item, f, c, now);
    if k < db.next && (k in db.media ==> db.media[k].item != item) { UpsertRow(db, section, item, f, c, now, k); }
  }

  lemma UpsertMedia(db: Db, section: int, item: int, f: Option<Found>, c: Change, now: int)
    requires Ids(db) && LiveItem(db.items, item) && OnItem(db, item, f)
    ensures var r := Upsert(db, section, item, f, c, now).0; forall j :: j != item ==> MediaOn(r.media, j) == MediaOn(db.media, j)
  {
    var r := Upsert(db, section, item, f, c, now).0;
    forall j | j != item ensures MediaOn(r.media, j) == MediaOn(db.media, j) {
      forall x ensures x in MediaOn(r.media, j) <==> x in MediaOn(db.media, j) {}
    }
  }

  lemma UpsertRow(db: Db, section: int, item: int, f: Option<Found>, c: Change, now: int, k: int)
    requires Ids(db) && LiveItem(db.items, item) && OnItem(db, item, f)
    requires k < db.next && (k in db.media ==> db.media[k].item != item)
    ensures SameRow(db, Upsert(db, section, item, f, c, now).0, k)
  {
    hide MediaOn;
  }

  lemma ClearApart(db: Db, item: int, now: int, k: int)
    requires Ids(db)
    ensures Apart(db, ClearSuperseded(db, item, now), item, k)
    ensures var r := ClearSuperseded(db, item, now);
      && MediaOn(r.media, item) == MediaOn(db.media, item)
      && (MediaOn(r.media, item) != {} ==> NoneSuperseded(r.media, item))
  {
    hide NoneSuperseded, SameRow, ClearSuperseded, MediaOn;
    LiveRowsStay(db, item, now);
    ClearItems(db, item, now);
    ClearNone(db, item, now);
    if k in db.media ==> db.media[k].item != item { ClearRow(db, item, now, k); }
  }

  lemma ClearItems(db: Db, item: int, now: int)
    ensures var r := ClearSuperseded(db, item, now);
      && SameLiveItems(db.items, r.items) && r.settings == db.settings
      && forall j :: MediaOn(r.media, j) == MediaOn(db.media, j)
  {
    var r := ClearSuperseded(db, item, now);
    forall j ensures MediaOn(r.media, j) == MediaOn(db.media, j) {
      forall x ensures x in MediaOn(r.media, j) <==> x in MediaOn(db.media, j) {}
    }
  }

  lemma ClearNone(db: Db, item: int, now: int)
    ensures var r := ClearSuperseded(db, item, now); MediaOn(db.media, item) != {} ==> NoneSuperseded(r.media, item)
  {
    hide MediaOn;
    var r := ClearSuperseded(db, item, now);
    if MediaOn(db.media, item) != {} {
      forall x | x in r.media && r.media[x].item == item && r.media[x].deleted.Some? ensures r.media[x].stamps.missing.Some? {
        assert x !in Superseded(db.media, item);
      }
    }
  }

  lemma ClearRow(db: Db, item: int, now: int, k: int)
    requires k in db.media ==> db.media[k].item != item
    ensures SameRow(db, ClearSuperseded(db, item, now), k)
  {
    hide MediaOn;
    assert k !in Superseded(db.media, item);
  }

  /** Of the item's deleted rows only those a sweep took are left. */
  ghost predicate NoneSuperseded(media: MediaRows, item: int) {
    forall k :: k in media && media[k].item == item && media[k].deleted.Some? ==> media[k].stamps.missing.Some?
  }

  lemma StampApart(db: Db, m: int, c: Change, item: int, k: int)
    requires Ids(db) && m in db.media && db.media[m].item == item
    ensures var r := Stamp(db, m, c);
      && Apart(db, r, item, k) && MediaOn(r.media, item) == MediaOn(db.media, item)
      && (NoneSuperseded(db.media, item) && LiveMedia(db.media, m) ==> NoneSuperseded(r.media, item))
      && LiveMedia(db.media, m) == LiveMedia(r.media, m) && StampedWith(r.media[m].stamps, c) && r.media[m].updated == db.media[m].updated
  {
    var r := Stamp(db, m, c);
    forall j ensures MediaOn(r.media, j) == MediaOn(db.media, j) {
      forall x ensures x in MediaOn(r.media, j) <==> x in MediaOn(db.media, j) {}
    }
  }

  /** The stamps an apply leaves, those that make the row current among them. */
  predicate StampedWith(s: Stamps, c: Change) {
    && s.uid == c.uid && s.seedKey == c.seedKey && s.itemKey == c.itemKey
    && (c.seedable ==> s.probeHash == c.probeHash && s.seedVersion == SEED_VERSION)
    && (LeafUID(c) != "" ==> s.itemUID == LeafUID(c))
  }

  lemma WriteApart(db: Db, section: int, item: int, f: Option<Found>, c: Change, now: int, k: int)
    requires Ids(db) && Backed(db.media, db.parts) && LiveItem(db.items, item) && OnItem(db, item, f)
    ensures var (r, m) := Write(db, section, item, f, c, now);
      && Apart(db, r, item, k) && NoneSuperseded(r.media, item)
      && m in r.media && StampedWith(r.media[m].stamps, c) && r.media[m].updated == now
  {
    hide Upsert, ClearSuperseded, Stamp, Apart, NoneSuperseded, StampedWith, MediaOn, Backed;
    UpsertFrame(db, section, item, f, c, now);
    UpsertParts(db, section, item, f, c, now);
    var (written, m) := Upsert(db, section, item, f, c, now);
    UpsertApart(db, section, item, f, c, now, k);
    ClearFrame(written, item, now);
    ClearApart(written, item, now, k);
    var cleared := ClearSuperseded(written, item, now);
    RowStays(written.media, cleared.media, m, item);
    StampApart(cleared, m, c, item, k);
    ApartTwice(db, written, cleared, item, k);
    ApartTwice(db, cleared, Stamp(cleared, m, c), item, k);
  }

  lemma RowStays(a: MediaRows, b: MediaRows, m: int, item: int)
    requires SameLive(a, b) && LiveMedia(a, m) && a[m].item == item
    ensures m in b && b[m] == a[m] && LiveMedia(b, m) && MediaOn(b, item) != {}
  {
    assert m in MediaOn(b, item);
  }

  // ---------------------------------------------------------------------
  // The row's item, and the one it left
  // ---------------------------------------------------------------------

  /** A leaf is above no other. */
  lemma LeafNotAbove(items: Items, i: int, leaf: int)
    requires Typed(items) && i in items && leaf in items && items[leaf].typ in {Movie, Episode} && leaf != i
    ensures !AtOrAbove(items, i, leaf)
  {
    assert forall x :: x in items ==> items[x].parent != Some(leaf);
  }

  lemma RowStillLeft(before: Db, a: Db, b: Db, m: int, now: int)
    requires m in before.media && RowLeft(before, a, m, now) && SameRow(a, b, m)
    requires MediaOn(b.media, before.media[m].item) == MediaOn(a.media, before.media[m].item)
    ensures RowLeft(before, b, m, now)
  {
    hide MediaOn;
  }

  /** What putting the file's row on the leaf does beside it. */
  lemma PutEffects(w: Walk, section: int, f: Option<Found>, c: Change, now: int)
    requires Ready(w, section, f, c)
    ensures var (r, m) := Put(w, section, f, c, now); var item := w.parent.value;
      && SameForest(w.db.items, r.items) && r.settings == w.db.settings
      && NoneSuperseded(r.media, item) && m in r.media && StampedWith(r.media[m].stamps, c) && r.media[m].updated == now
      && (if f.Some? && f.value.item != item then
            LiveIffHolding(r.items, r.media, f.value.item, now) && RowLeft(w.db, r, f.value.media, now)
          else SameLiveItems(w.db.items, r.items))
  {
    hide Sound, SoundBut, Ids, Typed, MediaHeld, ItemsHeld, CountsBut, Backed, Stamped, Write, Detach, NoneSuperseded, StampedWith,
      LiveIffHolding, RowLeft, NoneBut, SameLive, Uncrowded, OthersAsWere, Apart, SameForest, SameLiveItems;
    var item := w.parent.value;
    SoundIs(w.db);
    SoundParts(w.db, {});
    FreeSound(w.db, section, f, item, now);
    var freed := Free(w.db, f, item, now);
    SoundIs(freed);
    SoundParts(freed, {});
    var gone := if f.Some? then f.value.media else 0;
    WriteApart(freed, section, item, Kept(f, item), c, now, gone);
    var r := Write(freed, section, item, Kept(f, item), c, now).0;
    ApartForest(freed, r, item, gone);
    if f.Some? {
      FoundOnItem(w.db, f.value.media);
      if f.value.item != item {
        DetachSound(w.db, gone, now);
        DetachLeaves(w.db, gone, now);
        MovedEffects(w.db, freed, r, gone, item, now);
      }
    }
  }

  lemma FoundOnItem(db: Db, m: int)
    requires Ids(db) && m in db.media
    ensures db.media[m].item in db.items && 0 < db.media[m].item && 0 < m < db.next
  {
  }

  lemma ApartForest(a: Db, b: Db, item: int, k: int)
    requires Apart(a, b, item, k)
    ensures SameForest(a.items, b.items) && b.settings == a.settings && SameLiveItems(a.items, b.items)
  {
    hide MediaOn, SameRow;
  }

  /** The item a file left, once its row is written on another. */
  lemma MovedEffects(before: Db, freed: Db, r: Db, gone: int, item: int, now: int)
    requires gone in before.media && before.media[gone].item != item && before.media[gone].item in freed.items
    requires Typed(freed.items) && item in freed.items && freed.items[item].typ in {Movie, Episode}
    requires SameForest(before.items, freed.items) && gone < freed.next && Apart(freed, r, item, gone)
    requires LiveIffHolding(freed.items, freed.media, before.media[gone].item, now) && RowLeft(before, freed, gone, now)
    ensures SameForest(before.items, r.items)
    ensures LiveIffHolding(r.items, r.media, before.media[gone].item, now) && RowLeft(before, r, gone, now)
  {
    hide LiveIffHolding, RowLeft, MediaOn, SameRow, Typed;
    var i := before.media[gone].item;
    OldRow(before, freed, gone, item, now);
    SameLiveIsForest(freed.items, r.items);
    StillSameForest(before.items, freed.items, r.items);
    LeafNotAbove(freed.items, i, item);
    StillLiveIffHolding(freed.items, freed.media, r.items, r.media, i, now);
    RowStillLeft(before, freed, r, gone, now);
  }

  lemma SameLiveIsForest(a: Items, b: Items)
    requires SameLiveItems(a, b)
    ensures SameForest(a, b) && forall x :: x in a ==> b[x].parent == a[x].parent && b[x].deleted == a[x].deleted
  {
  }

  lemma StillSameForest(a: Items, b: Items, c: Items)
    requires SameForest(a, b) && SameForest(b, c)
    ensures SameForest(a, c)
  {
  }

  lemma OldRow(before: Db, a: Db, m: int, item: int, now: int)
    requires m in before.media && before.media[m].item != item && RowLeft(before, a, m, now)
    ensures m in a.media ==> a.media[m].item != item
  {
    hide MediaOn;
  }

  // ---------------------------------------------------------------------
  // Apply
  // ---------------------------------------------------------------------

  /** The row found by its stamp has another path than the change, or another seeded
      probe, and stays on its item. */
  predicate NewFile(f: Option<Found>, c: Change, leaf: int) {
    && f.Some? && !f.value.adopted && f.value.item == leaf
    && (f.value.file != c.path || (c.seedable && f.value.stamps.probeHash != c.probeHash))
  }

  /** The refreshes of the filled rows, and that of the leaf when its file is another:
      exactly these are asked for, each once. */
  ghost predicate Asks(before: Items, after: Items, refresh: seq<int>, leaf: int, newFile: bool) {
    && NoRepeats(refresh)
    && forall x :: x in refresh <==>
         (exists id :: Filled(before, after, id) && FilledBy(after, id, x)) || (newFile && FilledBy(after, leaf, x))
  }

  lemma AsksMore(before: Items, walked: Items, after: Items, refresh: seq<int>, leaf: int)
    requires AsksFor(before, walked, refresh) && SameForest(walked, after) && leaf in after
    ensures Asks(before, after, refresh, leaf, false)
    ensures Asks(before, after, Needs(refresh, RefreshTarget(after, leaf)), leaf, true)
  {
    SameFilled(before, walked, after);
    var target := RefreshTarget(after, leaf);
    assert forall x :: FilledBy(after, leaf, x) <==> x == target;
    var more := Needs(refresh, target);
    assert forall x :: x in more <==> x in refresh || x == target;
  }

  lemma SameFilled(before: Items, walked: Items, after: Items)
    requires SameForest(walked, after)
    ensures forall id :: Filled(before, walked, id) == Filled(before, after, id)
    ensures forall id, x :: FilledBy(walked, id, x) == FilledBy(after, id, x)
  {
  }

  lemma StillCarried(before: Items, walked: Items, after: Items, from: string, to: string)
    requires SameForest(walked, after)
    ensures CarriedTo(before, walked, from, to) == CarriedTo(before, after, from, to)
  {
    hide Passes;
    forall depth, x, y ensures Passes(before, walked, depth, x, y) == Passes(before, after, depth, x, y) {
      StillPasses(before, walked, after, depth, x, y);
    }
  }

  lemma StillPasses(before: Items, walked: Items, after: Items, depth: nat, from: string, to: string)
    requires SameForest(walked, after)
    ensures Passes(before, walked, depth, from, to) == Passes(before, after, depth, from, to)
  {
    assert forall id :: RekeyedFrom(before, walked, depth, id, from) == RekeyedFrom(before, after, depth, id, from);
    assert forall id :: id in walked ==> after[id].guid == walked[id].guid;
  }

  lemma StillFollows(before: Db, walked: Db, after: Db)
    requires StateFollows(before, walked) && SameForest(walked.items, after.items) && after.settings == walked.settings
    ensures StateFollows(before, after)
  {
    hide Keeps, CarriedTo;
    forall from, to ensures CarriedTo(before.items, walked.items, from, to) == CarriedTo(before.items, after.items, from, to) {
      StillCarried(before.items, walked.items, after.items, from, to);
    }
    assert forall id :: Rekeyed(before.items, walked.items, id) == Rekeyed(before.items, after.items, id);
    assert forall id :: id in walked.items ==> after.items[id].guid == walked.items[id].guid;
    assert forall guid :: NoneFrom(before.items, after.items, guid) ==> NoneFrom(before.items, walked.items, guid);
  }

  /** The row is the section's for the file, and its seed and item keys are the change's,
      from the seeder's version when the change is to be seeded. */
  predicate Seeded(media: MediaRows, section: int, c: Change, m: int) {
    && LiveMedia(media, m) && media[m].section == section
    && var s := media[m].stamps;
       s.uid == c.uid && s.seedKey == c.seedKey && s.itemKey == c.itemKey && (c.seedable ==> s.seedVersion == SEED_VERSION)
  }

  /** An apply commits exactly when the change has a chain, the database takes it, and
      the file has such a row already or is under its location. */
  lemma ApplyCommits(env: Env, db: Db, section: int, location: int, c: Change, now: int)
    requires Sound(db) && Valid(c)
    ensures ApplyTx(env, db, section, location, c, now).Done? <==>
      && c.chain != [] && !env.fails(c.uid)
      && ((exists m :: Seeded(db.media, section, c, m)) || env.covers(if c.location != 0 then c.location else location, c.path))
  {
    FindsAll(db, section, c);
    var f := FindMedia(db, section, c);
    hide FindMedia, EnsureFrom, Put, Sound;
    if UpToDate(f, c) { assert Seeded(db.media, section, c, f.value.media); }
    if m :| Seeded(db.media, section, c, m) { assert m == f.value.media; }
  }

  /** All that a committed apply does beside landing the row: the watched state follows
      re-keyed rows; exactly the refreshes due are asked for; a leaf whose file is another
      is updated; the item a file left, and those above it, are live exactly while they
      hold something; and beside the row no superseded one is left. */
  lemma ApplyEffects(env: Env, db: Db, section: int, location: int, c: Change, now: int) returns (m: int)
    requires Sound(db) && Valid(c) && ApplyTx(env, db, section, location, c, now).Done?
    ensures var d := ApplyTx(env, db, section, location, c, now); var r := d.db; var f := FindMedia(db, section, c);
      && Seeded(r.media, section, c, m)
      && if UpToDate(f, c) then d == Done(db, []) && m == f.value.media
         else
           var leaf := r.media[m].item;
           && leaf in r.items && StampedWith(r.media[m].stamps, c) && r.media[m].updated == now
           && StateFollows(db, r) && Asks(db.items, r.items, d.refresh, leaf, NewFile(f, c, leaf))
           && (NewFile(f, c, leaf) ==> r.items[leaf].updated == now)
           && NoneSuperseded(r.media, leaf)
           && (f.Some? && f.value.item != leaf ==>
                 && f.value.media in db.media
                 && LiveIffHolding(r.items, r.media, f.value.item, now) && RowLeft(db, r, f.value.media, now))
  {
    var f := FindMedia(db, section, c);
    if UpToDate(f, c) {
      FindsAll(db, section, c);
      m := f.value.media;
    } else {
      hide *;
      m := PutAndFinished(env, db, section, c, now);
      CommitIs(env, db, section, location, c, now);
    }
  }

  /** Apply's commit, of a change that is not up to date. */
  lemma CommitIs(env: Env, db: Db, section: int, location: int, c: Change, now: int)
    requires Sound(db) && Valid(c) && ApplyTx(env, db, section, location, c, now).Done? && !UpToDate(FindMedia(db, section, c), c)
    ensures c.chain != []
    ensures var f, w := FindMedia(db, section, c), WalkOf(env, db, section, c, now);
      Ready(w, section, f, c) && ApplyTx(env, db, section, location, c, now) == Committed(w, f, c, now, Put(w, section, f, c, now).0)
  {
    hide FindMedia, Sound, Put;
    WalkReady(env, db, section, c, now);
  }

  lemma PutAndFinished(env: Env, db: Db, section: int, c: Change, now: int) returns (m: int)
    requires Sound(db) && Valid(c) && c.chain != [] && !UpToDate(FindMedia(db, section, c), c)
    ensures var f, w := FindMedia(db, section, c), WalkOf(env, db, section, c, now);
      && Ready(w, section, f, c)
      && var d := Committed(w, f, c, now, Put(w, section, f, c, now).0); var r := d.db;
         && LiveMedia(r.media, m) && r.media[m].section == section && r.media[m].stamps.uid == c.uid
         && var leaf := r.media[m].item;
            && leaf in r.items && StampedWith(r.media[m].stamps, c) && r.media[m].updated == now
            && StateFollows(db, r) && Asks(db.items, r.items, d.refresh, leaf, NewFile(f, c, leaf))
            && (NewFile(f, c, leaf) ==> r.items[leaf].updated == now)
            && NoneSuperseded(r.media, leaf)
            && (f.Some? && f.value.item != leaf ==>
                  && f.value.media in db.media
                  && LiveIffHolding(r.items, r.media, f.value.item, now) && RowLeft(db, r, f.value.media, now))
  {
    hide *;
    var f := FindMedia(db, section, c);
    WalkReady(env, db, section, c, now);
    var w := WalkOf(env, db, section, c, now);
    WalkEffects(env, db, section, c, now);
    var p;
    p, m := Put(w, section, f, c, now).0, Put(w, section, f, c, now).1;
    PutEffects(w, section, f, c, now);
    PutSound(w, section, f, c, now);
    ReplacesIs(w.db.media, p.media, section, c.uid, m);
    FoundFacts(db, section, c);
    RowsKept(w.db.items, p.items, w.parent.value);
    Finished(db, w, section, f, c, now, p, m);
  }

  lemma WalkEffects(env: Env, db: Db, section: int, c: Change, now: int)
    requires Sound(db) && Valid(c) && c.chain != []
    ensures var w := WalkOf(env, db, section, c, now);
      && StateFollows(db, w.db) && AsksFor(db.items, w.db.items, w.refresh) && w.db.media == db.media && w.db.parts == db.parts
      && w.parent.Some? && w.parent.value in w.db.items
  {
    hide StateFollows, AsksFor, Sound, EnsureFrom, FindMedia, HintOf;
    var hint := HintOf(FindMedia(db, section, c), c);
    BelowNextOf(db);
    ChainEffects(db, section, c.chain, hint, now, env.bundle);
    EnsureChainSound(db, section, c.chain, hint, now, env.bundle);
  }

  lemma FoundFacts(db: Db, section: int, c: Change)
    requires Sound(db) && c.uid != ""
    ensures var f := FindMedia(db, section, c);
      f.Some? ==> f.value.media in db.media && f.value.item in db.items && f.value.item != 0 && db.media[f.value.media].item == f.value.item
  {
    FindsAll(db, section, c);
  }

  lemma RowsKept(a: Items, b: Items, i: int)
    requires SameForest(a, b) && i in a
    ensures i in b
  {
  }

  lemma BelowNextOf(db: Db)
    requires Sound(db)
    ensures BelowNext(db)
  {
  }

  lemma ReplacesIs(before: MediaRows, after: MediaRows, section: int, uid: string, m: int)
    requires Replaces(before, after, section, uid, m)
    ensures LiveMedia(after, m) && after[m].section == section && after[m].stamps.uid == uid
  {
  }

  /** From the row written to the commit: the leaf's update time and refresh. */
  lemma Finished(db: Db, w: Walk, section: int, f: Option<Found>, c: Change, now: int, p: Db, m: int)
    requires StateFollows(db, w.db) && AsksFor(db.items, w.db.items, w.refresh) && w.db.media == db.media && w.db.parts == db.parts
    requires SameForest(w.db.items, p.items) && p.settings == w.db.settings
    requires w.parent.Some? && m in p.media && p.media[m].item == w.parent.value && w.parent.value in p.items
    requires f.Some? ==> f.value.media in db.media && f.value.item in db.items && f.value.item != 0 && db.media[f.value.media].item == f.value.item
    requires f.Some? && f.value.item != w.parent.value ==>
      LiveIffHolding(p.items, p.media, f.value.item, now) && RowLeft(w.db, p, f.value.media, now)
    ensures var d := Committed(w, f, c, now, p); var leaf := w.parent.value; var r := d.db;
      && r.media == p.media && leaf in r.items
      && StateFollows(db, r) && Asks(db.items, r.items, d.refresh, leaf, NewFile(f, c, leaf))
      && (NewFile(f, c, leaf) ==> r.items[leaf].updated == now)
      && (f.Some? && f.value.item != leaf ==>
            LiveIffHolding(r.items, r.media, f.value.item, now) && RowLeft(db, r, f.value.media, now))
  {
    hide StateFollows, AsksFor, Asks, LiveIffHolding, RowLeft, SameForest, Needs, RefreshTarget;
    var leaf := w.parent.value;
    var r := Committed(w, f, c, now, p).db;
    assert FileChanged(Kept(f, leaf), c) == NewFile(f, c, leaf);
    TouchedIs(p.items, leaf, now);
    SameForestStill(w.db.items, p.items, r.items);
    StillFollows(db, w.db, r);
    AsksMore(db.items, w.db.items, r.items, w.refresh, leaf);
    if NewFile(f, c, leaf) {
      TargetStays(p.items, r.items, leaf);
    }
    if f.Some? && f.value.item != leaf {
      StillLiveIffHolding(p.items, p.media, r.items, r.media, f.value.item, now);
      RowLeftOf(db, w.db, p, r, f.value.media, now);
    }
  }

  /** Items that differ at most in their update times. */
  lemma TouchedIs(items: Items, i: int, now: int)
    requires i in items
    ensures var r := Touched(items, i, now);
      SameLiveItems(items, r) && r[i].updated == now && (forall x :: x in items ==> r[x].parent == items[x].parent && r[x].deleted == items[x].deleted)
  {
  }

  lemma SameForestStill(a: Items, b: Items, c: Items)
    requires SameForest(a, b) && (c == b || SameLiveItems(b, c))
    ensures SameForest(a, c)
  {
  }

  lemma TargetStays(a: Items, b: Items, leaf: int)
    requires SameLiveItems(a, b)
    ensures RefreshTarget(a, leaf) == RefreshTarget(b, leaf)
  {
  }

  lemma RowLeftOf(db: Db, walked: Db, p: Db, r: Db, m: int, now: int)
    requires walked.media == db.media && walked.parts == db.parts && r.media == p.media && r.parts == p.parts
    requires m in db.media && RowLeft(walked, p, m, now)
    ensures RowLeft(db, r, m, now)
  {
  }

  /** A file whose row was stamped with this very item stays on the row it is on, while
      no live row is known for the item. */
  lemma ApplyKeepsItem(env: Env, db: Db, section: int, location: int, c: Change, now: int, m: int)
    requires Sound(db) && Valid(c) && ApplyTx(env, db, section, location, c, now).Done?
    requires var f := FindMedia(db, section, c);
      && !UpToDate(f, c) && f.Some? && f.value.stamps.itemUID != "" && f.value.stamps.itemUID == LeafUID(c)
      && f.value.item in db.items && db.items[f.value.item].section == section
      && db.items[f.value.item].typ == c.chain[|c.chain| - 1].typ
    requires var r := ApplyTx(env, db, section, location, c, now).db;
      && LiveMedia(r.media, m) && r.media[m].section == section && r.media[m].stamps.uid == c.uid
      && r.media[m].item in r.items
      && NoneLiveFor(db.items, section, r.items[r.media[m].item].parent, c.chain[|c.chain| - 1])
    ensures ApplyTx(env, db, section, location, c, now).db.media[m].item == FindMedia(db, section, c).value.item
  {
    hide Known, EnsureFrom, ApplyTx, FindMedia, NoneLiveFor, Sound, UpToDate;
    var f := FindMedia(db, section, c);
    CommitIs(env, db, section, location, c, now);
    FoundHeld(db, section, c);
    BelowNextOf(db);
    HintKept(db, section, c.chain, f.value.item, now, env.bundle);
    OnLeaf(env, db, section, location, c, now, m);
    LeafParent(env, db, section, location, c, now, WalkOf(env, db, section, c, now));
  }

  /** The row is on the leaf the walk reached. */
  lemma OnLeaf(env: Env, db: Db, section: int, location: int, c: Change, now: int, m: int)
    requires Sound(db) && Valid(c) && ApplyTx(env, db, section, location, c, now).Done? && !UpToDate(FindMedia(db, section, c), c)
    requires var r := ApplyTx(env, db, section, location, c, now).db;
      LiveMedia(r.media, m) && r.media[m].section == section && r.media[m].stamps.uid == c.uid
    ensures WalkOf(env, db, section, c, now).parent == Some(ApplyTx(env, db, section, location, c, now).db.media[m].item)
  {
    hide ApplyTx, FindMedia, Sound, WalkOf, UpToDate;
    var n := ApplyLands(env, db, section, location, c, now);
    ApplySound(env, db, section, location, c, now);
    OneRow(ApplyTx(env, db, section, location, c, now).db, section, c.uid, m, n);
  }

  lemma FoundHeld(db: Db, section: int, c: Change)
    requires Sound(db) && c.uid != "" && FindMedia(db, section, c).Some?
    ensures var i := FindMedia(db, section, c).value.item; i != 0 && LiveItem(db.items, i)
  {
    FindsAll(db, section, c);
  }

  lemma OneRow(r: Db, section: int, uid: string, m: int, n: int)
    requires Sound(r) && uid != "" && LiveMedia(r.media, m) && LiveMedia(r.media, n)
    requires r.media[m].section == section == r.media[n].section && r.media[m].stamps.uid == uid == r.media[n].stamps.uid
    ensures m == n
  {
    assert SameStamp(r.media[m], r.media[n]);
  }

  /** The leaf's parent is the one the walk gave it. */
  lemma LeafParent(env: Env, db: Db, section: int, location: int, c: Change, now: int, w: Walk)
    requires Sound(db) && Valid(c) && ApplyTx(env, db, section, location, c, now).Done? && !UpToDate(FindMedia(db, section, c), c)
    requires w == WalkOf(env, db, section, c, now) && w.parent.Some? && w.parent.value in w.db.items
    ensures var r := ApplyTx(env, db, section, location, c, now).db;
      w.parent.value in r.items && r.items[w.parent.value].parent == w.db.items[w.parent.value].parent
  {
    hide EnsureFrom, Put, NewFile, LiveIffHolding, RowLeft, StampedWith, NoneSuperseded;
    var f := FindMedia(db, section, c);
    CommitIs(env, db, section, location, c, now);
    PutEffects(w, section, f, c, now);
  }
}
