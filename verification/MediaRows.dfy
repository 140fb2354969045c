/** A MediaFile's media row: finding, writing, stamping and retiring it
    (pkg/plexproject/media.go, delete.go), and the transactions made of those
    steps (apply.go, delete.go). */
module Projection {
  import opened Options
  import opened Library
  import opened ItemChain
  import opened Trashing

  const SEED_VERSION := "3"

  /** One MediaFile as the projection needs it.  `itemKey` is the digest of
      its chain, `seedable` whether its probe has a runtime. */
  datatype Change = Change(
    uid: string, path: string, seedKey: string, itemKey: string, chain: seq<Node>,
    seedable: bool, probeHash: string, unresolved: bool, location: int)

  /** What the transactions ask of the world: the bundle hash of a guid,
      whether a path is under a location's root, and which files'
      transactions the database fails. */
  datatype Env = Env(bundle: string -> string, covers: (int, string) -> bool, fails: string -> bool)

  ghost predicate Valid(c: Change) { c.uid != "" && (c.chain == [] || Resolved(c.chain)) }

  function LeafUID(c: Change): string { if c.chain == [] then "" else c.chain[|c.chain| - 1].uid }

  function LeafGuids(c: Change): set<string> {
    if c.chain == [] then {}
    else
      var n := c.chain[|c.chain| - 1];
      if n.prior == "" then {n.guid} else {n.guid, n.prior}
  }

  predicate Current(c: Change, s: Stamps) {
    s.seedKey == c.seedKey && s.itemKey == c.itemKey && (!c.seedable || s.seedVersion == SEED_VERSION)
  }

  // ---------------------------------------------------------------------
  // Finding
  // ---------------------------------------------------------------------

  /** A media row located by its stamp, or adopted by its path. */
  datatype Found = Found(media: int, part: int, item: int, stamps: Stamps, file: string, adopted: bool)

  predicate OfStamp(db: Db, section: int, uid: string, p: int) {
    && p in db.parts && LiveMedia(db.media, db.parts[p].media)
    && var m := db.media[db.parts[p].media]; m.section == section && m.stamps.uid == uid
  }

  predicate OfPath(db: Db, section: int, path: string, p: int) {
    && p in db.parts && db.parts[p].deleted.None? && db.parts[p].file == path
    && LiveMedia(db.media, db.parts[p].media)
    && var m := db.media[db.parts[p].media]; m.section == section && m.stamps.uid == ""
  }

  function ByStamp(parts: Parts): int -> Rank {
    p => if p in parts && parts[p].deleted.Some? then Rank(1, parts[p].deleted.value, 0, 0, p) else Rank(0, 0, 0, 0, p)
  }

  function ByPath(db: Db, section: int, prefer: set<string>): int -> Rank {
    p => if p in db.parts && db.parts[p].media in db.media then
           var i := db.media[db.parts[p].media].item;
           var liked := i in db.items && db.items[i].section == section && db.items[i].guid in prefer;
           Rank(if liked then 0 else 1, db.parts[p].media, 0, 0, p)
         else Rank(0, 0, 0, 0, p)
  }

  function FoundAt(db: Db, p: int, adopted: bool): Found
    requires p in db.parts && db.parts[p].media in db.media
  {
    var m := db.parts[p].media;
    Found(m, p, db.media[m].item, db.media[m].stamps, db.parts[p].file, adopted)
  }

  function FindMedia(db: Db, section: int, c: Change): (f: Option<Found>)
    ensures f.Some? && !f.value.adopted ==>
      OfStamp(db, section, c.uid, f.value.part) && f.value == FoundAt(db, f.value.part, false)
    ensures f.Some? && f.value.adopted ==>
      OfPath(db, section, c.path, f.value.part) && f.value == FoundAt(db, f.value.part, true)
    ensures (f.Some? ==> f.value.adopted) ==> forall p :: !OfStamp(db, section, c.uid, p)
    ensures f.None? ==> forall p :: !OfPath(db, section, c.path, p)
  {
    var stamped := set p | p in db.parts && OfStamp(db, section, c.uid, p);
    if |stamped| > 0 then Some(FoundAt(db, First(stamped, ByStamp(db.parts)), false))
    else
      var at := set p | p in db.parts && OfPath(db, section, c.path, p);
      assert forall p :: OfStamp(db, section, c.uid, p) ==> p in stamped;
      assert forall p :: OfPath(db, section, c.path, p) ==> p in at;
      if |at| > 0 then Some(FoundAt(db, First(at, ByPath(db, section, LeafGuids(c))), true))
      else None
  }

  /** The row is on an item of the section with the leaf's guid or its prior one. */
  predicate Preferred(db: Db, section: int, c: Change, m: int)
    requires m in db.media
  {
    var i := db.media[m].item;
    && i in db.items && db.items[i].section == section && c.chain != []
    && var leaf := c.chain[|c.chain| - 1];
       db.items[i].guid == leaf.guid || (leaf.prior != "" && db.items[i].guid == leaf.prior)
  }

  /** What is found: of the file's own row, a live part before a deleted one; of the
      unstamped rows at its path, one on a preferred item, then the lowest. */
  lemma FindsFirst(db: Db, section: int, c: Change)
    ensures var f := FindMedia(db, section, c);
      && (f.Some? && !f.value.adopted ==>
            && OfStamp(db, section, c.uid, f.value.part)
            && forall p :: OfStamp(db, section, c.uid, p) ==>
                 var a, b := db.parts[f.value.part].deleted, db.parts[p].deleted;
                 if a.None? != b.None? then a.None?
                 else if a.Some? && a != b then a.value < b.value
                 else f.value.part <= p)
      && (f.Some? && f.value.adopted ==>
            && OfPath(db, section, c.path, f.value.part) && f.value.media == db.parts[f.value.part].media
            && forall p :: OfPath(db, section, c.path, p) ==>
                 var m := db.parts[p].media;
                 if Preferred(db, section, c, f.value.media) != Preferred(db, section, c, m) then Preferred(db, section, c, f.value.media)
                 else f.value.media <= m)
  {
    var f := FindMedia(db, section, c);
    var stamped := set p | p in db.parts && OfStamp(db, section, c.uid, p);
    if |stamped| > 0 {
      var x := First(stamped, ByStamp(db.parts));
      forall p | OfStamp(db, section, c.uid, p)
        ensures var a, b := db.parts[x].deleted, db.parts[p].deleted;
          if a.None? != b.None? then a.None? else if a.Some? && a != b then a.value < b.value else x <= p
      {
        assert p in stamped && ByStamp(db.parts)(x).Before(ByStamp(db.parts)(p));
      }
    } else if f.Some? {
      AtPathFirst(db, section, c);
    }
  }

  lemma AtPathFirst(db: Db, section: int, c: Change)
    requires var f := FindMedia(db, section, c); f.Some? && f.value.adopted
    ensures var x := FindMedia(db, section, c).value.part;
      && OfPath(db, section, c.path, x)
      && forall p :: OfPath(db, section, c.path, p) ==>
           var a, b := db.parts[x].media, db.parts[p].media;
           if Preferred(db, section, c, a) != Preferred(db, section, c, b) then Preferred(db, section, c, a) else a <= b
  {
    var at := set p | p in db.parts && OfPath(db, section, c.path, p);
    var x := FindMedia(db, section, c).value.part;
    var rank := ByPath(db, section, LeafGuids(c));
    forall p | OfPath(db, section, c.path, p)
      ensures var a, b := db.parts[x].media, db.parts[p].media;
        if Preferred(db, section, c, a) != Preferred(db, section, c, b) then Preferred(db, section, c, a) else a <= b
    {
      assert p in at;
      assert x == First(at, rank) && rank(x).Before(rank(p));
    }
  }

  // ---------------------------------------------------------------------
  // Writing and retiring
  // ---------------------------------------------------------------------

  /** The media row and its live parts are soft-deleted. */
  function Retire(db: Db, m: int, now: int): Db
    requires m in db.media
  {
    db.(media := db.media[m := db.media[m].(deleted := Some(now), updated := now)],
        parts := DropParts(db.parts, m, now))
  }

  function DropParts(parts: Parts, m: int, now: int): Parts {
    map p | p in parts ::
      if parts[p].media == m && parts[p].deleted.None? then parts[p].(deleted := Some(now), updated := now) else parts[p]
  }

  /** The deleted rows beside a live one, but for those the sweep took. */
  function Superseded(media: MediaRows, item: int): set<int> {
    if MediaOn(media, item) == {} then {}
    else set m | m in media && media[m].item == item && media[m].deleted.Some? && media[m].stamps.missing.None?
  }

  function ClearSuperseded(db: Db, item: int, now: int): Db {
    var gone := Superseded(db.media, item);
    if gone == {} then db
    else db.(media := db.media - gone,
             parts := map p | p in db.parts && db.parts[p].media !in gone :: db.parts[p],
             items := Touched(db.items, item, now))
  }

  function Touched(items: Items, i: int, now: int): Items {
    if i in items then items[i := items[i].(updated := now)] else items
  }

  /** A row leaves its item: retired, what it supersedes cleared, the item
      trashed if nothing is left. */
  ghost function Detach(db: Db, m: int, now: int): Db
    requires m in db.media && Typed(db.items)
  {
    var item := db.media[m].item;
    var cleared := ClearSuperseded(Retire(db, m, now), item, now);
    cleared.(items := TrashIfEmpty(cleared.items, cleared.media, item, now))
  }

  /** upsertMedia: the row and part of c on item, new ones unless found. */
  function Upsert(db: Db, section: int, item: int, f: Option<Found>, c: Change, now: int): (r: (Db, int))
    requires f.Some? ==> f.value.media in db.media && f.value.part in db.parts
  {
    match f
    case None =>
      var m, p := db.next, db.next + 1;
      var media := db.media[m := Media(section, item, NO_STAMPS, None, now)];
      (db.(media := media, parts := db.parts[p := Part(m, c.path, None, now)], next := p + 1,
           items := CountMedia(db.items, media, item)), m)
    case Some(f) =>
      var media := db.media[f.media := db.media[f.media].(item := item, deleted := None, updated := now)];
      (db.(media := media,
           parts := db.parts[f.part := db.parts[f.part].(file := c.path, deleted := None, updated := now)],
           items := CountMedia(db.items, media, item)), f.media)
  }

  /** stampMedia: the probe's stamps only when the probe was seeded. */
  function StampsOf(s: Stamps, c: Change): Stamps {
    Stamps(c.uid, c.seedKey, c.itemKey, if LeafUID(c) != "" then LeafUID(c) else s.itemUID,
           if c.seedable then c.probeHash else s.probeHash,
           if c.seedable then SEED_VERSION else s.seedVersion, s.missing)
  }

  function Stamp(db: Db, m: int, c: Change): Db
    requires m in db.media
  {
    db.(media := db.media[m := db.media[m].(stamps := StampsOf(db.media[m].stamps, c))])
  }

  // ---------------------------------------------------------------------
  // What each step keeps
  // ---------------------------------------------------------------------

  lemma RetireSound(db: Db, m: int, now: int)
    requires Sound(db) && LiveMedia(db.media, m)
    ensures SoundBut(Retire(db, m, now), {db.media[m].item})
  {
    hide Sound, SoundBut, Typed, Ids, MediaHeld, ItemsHeld, CountsBut, Backed, Stamped, Retire, HasPart, SameStamp;
    SoundIs(db);
    SoundParts(db, {});
    RetireFrame(db, m, now);
    KeepsParts(db, Retire(db, m, now), m);
    RowChanged(db, Retire(db, m, now), m);
  }

  lemma RetireFrame(db: Db, m: int, now: int)
    requires Ids(db) && LiveMedia(db.media, m) && Stamped(db.media)
    ensures var r := Retire(db, m, now);
      && r.items == db.items && r.next == db.next && m in r.media && r.media == db.media[m := r.media[m]]
      && r.media.Keys == db.media.Keys && !LiveMedia(r.media, m) && r.media[m].item == db.media[m].item
      && r.media[m].stamps.missing.None? && r.media[m].deleted.Some?
      && DroppedParts(db.parts, r.parts, m) && Ids(r)
  {
  }

  /** The parts of other rows are as they were, and no part changes its row. */
  ghost predicate DroppedParts(a: Parts, b: Parts, m: int) {
    a.Keys == b.Keys && forall p :: p in a ==> b[p].media == a[p].media && (a[p].media != m ==> b[p] == a[p])
  }

  lemma SoundParts(db: Db, off: set<int>)
    requires SoundBut(db, off)
    ensures Typed(db.items) && Ids(db) && MediaHeld(db.items, db.media) && ItemsHeld(db.items)
    ensures CountsBut(db.items, db.media, off) && Backed(db.media, db.parts) && Stamped(db.media)
  {
  }

  lemma SoundWhole(db: Db, off: set<int>)
    requires Typed(db.items) && Ids(db) && MediaHeld(db.items, db.media) && ItemsHeld(db.items)
    requires CountsBut(db.items, db.media, off) && Backed(db.media, db.parts) && Stamped(db.media)
    ensures SoundBut(db, off)
  {
  }

  /** One media row changed, on the item it was on if it was there: the library is
      sound but for the item's count. */
  lemma RowChanged(db: Db, r: Db, m: int)
    requires Sound(db) && r.items == db.items && m in r.media && r.media == db.media[m := r.media[m]]
    requires m in db.media ==> db.media[m].item == r.media[m].item
    requires LiveMedia(r.media, m) ==>
      && LiveItem(db.items, r.media[m].item) && r.media[m].stamps.missing.None?
      && (r.media[m].stamps.uid == "" || OnlyRow(db.media, r.media[m].section, r.media[m].stamps.uid, m))
    requires Ids(r) && Backed(r.media, r.parts)
    ensures SoundBut(r, {r.media[m].item})
  {
    hide *;
    SoundIs(db);
    SoundParts(db, {});
    CountsElsewhere(db.items, db.media, r.media, m);
    HeldOne(db.items, db.media, r.media, m);
    StampedOne(db.media, r.media, m);
    SoundWhole(r, {r.media[m].item});
  }

  lemma SoundIs(db: Db)
    ensures Sound(db) == SoundBut(db, {})
  {
  }

  lemma CountsElsewhere(items: Items, a: MediaRows, b: MediaRows, m: int)
    requires CountsBut(items, a, {}) && m in b && b == a[m := b[m]] && (m in a ==> a[m].item == b[m].item)
    ensures CountsBut(items, b, {b[m].item})
  {
    forall i | i != b[m].item ensures MediaOn(b, i) == MediaOn(a, i) {
      forall k ensures k in MediaOn(b, i) <==> k in MediaOn(a, i) {}
    }
  }

  lemma HeldOne(items: Items, a: MediaRows, b: MediaRows, m: int)
    requires MediaHeld(items, a) && m in b && b == a[m := b[m]] && (LiveMedia(b, m) ==> LiveItem(items, b[m].item))
    ensures MediaHeld(items, b)
  {
    forall k | LiveMedia(b, k) ensures LiveItem(items, b[k].item) {
      if k != m { assert LiveMedia(a, k); }
    }
  }

  lemma StampedOne(a: MediaRows, b: MediaRows, m: int)
    requires Stamped(a) && m in b && b == a[m := b[m]]
    requires LiveMedia(b, m) ==>
      b[m].stamps.missing.None? && (b[m].stamps.uid == "" || OnlyRow(a, b[m].section, b[m].stamps.uid, m))
    ensures Stamped(b)
  {
    assert forall k :: k != m && LiveMedia(b, k) ==> LiveMedia(a, k) && b[k] == a[k];
  }

  /** Recounting the item whose count was off. */
  lemma Recounted(db: Db, item: int)
    requires SoundBut(db, {item}) && item in db.items
    ensures Sound(db.(items := CountMedia(db.items, db.media, item)))
  {
    hide *;
    var r := db.(items := CountMedia(db.items, db.media, item));
    SoundParts(db, {item});
    CountedOnce(db.items, db.media, item);
    SameCounted(db, r);
    SoundWhole(r, {});
    SoundIs(r);
  }

  lemma CountedOnce(items: Items, media: MediaRows, item: int)
    requires CountsBut(items, media, {item}) && item in items
    ensures var r := CountMedia(items, media, item); SameButCounts(items, r) && CountsBut(r, media, {})
  {
    hide MediaOn;
  }

  /** Items that differ at most in their counts. */
  ghost predicate SameButCounts(a: Items, b: Items) {
    a.Keys == b.Keys && forall i :: i in a ==> b[i] == a[i].(count := b[i].count)
  }

  lemma SameCounted(db: Db, r: Db)
    requires r == db.(items := r.items) && SameButCounts(db.items, r.items)
    requires Typed(db.items) && Ids(db) && MediaHeld(db.items, db.media) && ItemsHeld(db.items)
    ensures Typed(r.items) && Ids(r) && MediaHeld(r.items, r.media) && ItemsHeld(r.items)
  {
    assert forall i :: LiveItem(r.items, i) <==> LiveItem(db.items, i);
  }

  /** Rows other than m keep what backs them when only m's parts change. */
  lemma KeepsParts(db: Db, r: Db, m: int)
    requires Backed(db.media, db.parts)
    requires r.media.Keys <= db.media.Keys + {m} && db.parts.Keys <= r.parts.Keys
    requires forall k :: k in r.media && k != m ==> k in db.media && r.media[k] == db.media[k]
    requires forall p :: p in db.parts && db.parts[p].media != m ==> r.parts[p] == db.parts[p]
    requires m in r.media && (r.media[m].deleted.None? || r.media[m].stamps.missing.Some?) ==>
               HasPart(r.parts, m, r.media[m].deleted)
    ensures Backed(r.media, r.parts)
  {
  }

  /** The same rows are live, and they are the same. */
  ghost predicate SameLive(a: MediaRows, b: MediaRows) {
    forall m :: LiveMedia(a, m) || LiveMedia(b, m) ==> m in a && m in b && a[m] == b[m]
  }

  lemma SameOn(a: MediaRows, b: MediaRows, i: int)
    requires SameLive(a, b)
    ensures MediaOn(a, i) == MediaOn(b, i)
  {
    forall m ensures m in MediaOn(a, i) <==> m in MediaOn(b, i) {
      assert LiveMedia(a, m) <==> LiveMedia(b, m);
    }
  }

  /** Items that differ at most in their update times. */
  ghost predicate SameButTimes(a: Items, b: Items) {
    a.Keys == b.Keys && forall i :: i in a ==> b[i] == a[i].(updated := b[i].updated)
  }

  /** A library with the same live rows, and items the same but for their
      update times, is as sound. */
  lemma SameLiveSound(db: Db, r: Db, off: set<int>)
    requires SoundBut(db, off) && SameLive(db.media, r.media) && SameButTimes(db.items, r.items)
    requires Ids(r) && Backed(r.media, r.parts)
    ensures SoundBut(r, off)
  {
    assert MediaHeld(r.items, r.media) by {
      forall m | LiveMedia(r.media, m) ensures LiveItem(r.items, r.media[m].item) {
        assert LiveMedia(db.media, m);
      }
    }
    assert Stamped(r.media) by {
      assert forall m :: LiveMedia(r.media, m) ==> LiveMedia(db.media, m) && r.media[m] == db.media[m];
    }
    forall i ensures MediaOn(r.media, i) == MediaOn(db.media, i) { SameOn(db.media, r.media, i); }
  }

  lemma ClearFrame(db: Db, item: int, now: int)
    requires Ids(db) && Backed(db.media, db.parts)
    ensures var r := ClearSuperseded(db, item, now);
      && SameLive(db.media, r.media) && SameButTimes(db.items, r.items) && r.next == db.next
      && Ids(r) && Backed(r.media, r.parts)
      && (forall i :: i in db.items && i != item ==> r.items[i] == db.items[i])
      && (forall p :: p in r.parts ==> p in db.parts && r.parts[p] == db.parts[p])
      && (forall p :: p in db.parts && db.parts[p].media in r.media ==> p in r.parts)
  {
    var r := ClearSuperseded(db, item, now);
    forall m | m in r.media && (r.media[m].deleted.None? || r.media[m].stamps.missing.Some?)
      ensures HasPart(r.parts, m, r.media[m].deleted)
    {
      assert HasPart(db.parts, m, db.media[m].deleted);
      var p :| p in db.parts && db.parts[p].media == m && db.parts[p].deleted == db.media[m].deleted;
      assert p in r.parts && r.parts[p] == db.parts[p];
    }
  }

  lemma ClearSound(db: Db, item: int, now: int, off: set<int>)
    requires SoundBut(db, off)
    ensures SoundBut(ClearSuperseded(db, item, now), off)
  {
    ClearFrame(db, item, now);
    SameLiveSound(db, ClearSuperseded(db, item, now), off);
  }

  /** Detaching a row leaves the library sound, every other live row as it is
      and every other leaf of the forest untouched. */
  lemma DetachSound(db: Db, m: int, now: int)
    requires Sound(db) && LiveMedia(db.media, m)
    ensures var r := Detach(db, m, now);
      && Sound(r) && r.next == db.next && SameForest(db.items, r.items)
      && !LiveMedia(r.media, m)
      && SameLive(r.media, db.media - {m})
      && (forall j :: j in db.items && j != db.media[m].item && db.items[j].typ in {Movie, Episode} ==>
            r.items[j] == db.items[j])
  {
    hide Sound, SoundBut, Ids, MediaHeld, ItemsHeld, CountsBut, Backed, Stamped, SameLive, Retire, ClearSuperseded, TrashIfEmpty;
    SoundIs(db);
    SoundParts(db, {});
    var item := db.media[m].item;
    var retired := Retire(db, m, now);
    RetireSound(db, m, now);
    RetireFrame(db, m, now);
    SoundParts(retired, {item});
    ClearSound(retired, item, now, {item});
    ClearFrame(retired, item, now);
    var cleared := ClearSuperseded(retired, item, now);
    SoundParts(cleared, {item});
    TrashSound(cleared, item, now);
    TrashFrame(cleared.items, cleared.media, item, now);
    LeavesApart(cleared.items, item);
    OneLess(db.media, retired.media, cleared.media, m);
    StillSame(db.items, cleared.items, TrashIfEmpty(cleared.items, cleared.media, item, now));
  }

  /** A part with its row gone: deleted now, unless it was before. */
  function Dropped(part: Part, now: int): Part {
    if part.deleted.None? then part.(deleted := Some(now), updated := now) else part
  }

  /** Of a row that left its item: in the trash since `now`, its parts with it, while
      the item holds no live row, else gone, and its parts. */
  ghost predicate RowLeft(before: Db, r: Db, m: int, now: int)
    requires m in before.media
  {
    if MediaOn(r.media, before.media[m].item) == {} then
      && m in r.media && r.media[m] == before.media[m].(deleted := Some(now), updated := now)
      && forall p :: p in before.parts && before.parts[p].media == m ==>
           p in r.parts && r.parts[p] == Dropped(before.parts[p], now)
    else m !in r.media && forall p :: p in r.parts ==> r.parts[p].media != m
  }

  /** Beside a live row no deleted one is left but those a sweep took, whose marks stay,
      and no other item's rows are touched. */
  ghost predicate Uncrowded(before: MediaRows, after: MediaRows, item: int) {
    && (MediaOn(after, item) != {} ==>
          forall k :: k in after && after[k].item == item && after[k].deleted.Some? ==> after[k].stamps.missing.Some?)
    && (forall k :: k in before && before[k].deleted.Some? && (before[k].item != item || before[k].stamps.missing.Some?) ==>
          k in after && after[k] == before[k])
  }

  /** What a detached row leaves behind: the item and those above it live exactly while
      they hold something, all else as it was. */
  lemma DetachLeaves(db: Db, m: int, now: int)
    requires Sound(db) && LiveMedia(db.media, m)
    ensures var r := Detach(db, m, now); var item := db.media[m].item;
      && LiveIffHolding(r.items, r.media, item, now) && OthersAsWere(db.items, r.items, item)
      && RowLeft(db, r, m, now) && Uncrowded(db.media, r.media, item)
      && r.settings == db.settings
  {
    hide Sound, SoundBut, Ids, MediaHeld, CountsBut, Backed, Stamped, SameLive, Retire, ClearSuperseded, TrashIfEmpty, RowLeft,
      Uncrowded, LiveIffHolding;
    SoundIs(db);
    SoundParts(db, {});
    var item := db.media[m].item;
    var retired := Retire(db, m, now);
    RetireSound(db, m, now);
    RetireFrame(db, m, now);
    SoundParts(retired, {item});
    ClearSound(retired, item, now, {item});
    ClearFrame(retired, item, now);
    var cleared := ClearSuperseded(retired, item, now);
    SoundParts(cleared, {item});
    HeldItem(db, m);
    assert LiveItem(cleared.items, item);
    TrashMeans(cleared.items, cleared.media, item, now);
    OthersStay(db.items, cleared.items, Detach(db, m, now).items, item);
    RowLeaves(db, m, now);
  }

  lemma HeldItem(db: Db, m: int)
    requires MediaHeld(db.items, db.media) && LiveMedia(db.media, m)
    ensures LiveItem(db.items, db.media[m].item)
  {
  }

  lemma OthersStay(a: Items, b: Items, c: Items, i: int)
    requires SameButTimes(a, b) && (forall j :: j in a && j != i ==> b[j] == a[j]) && OthersAsWere(b, c, i)
    ensures OthersAsWere(a, c, i)
  {
    forall j ensures AtOrAbove(a, i, j) == AtOrAbove(b, i, j) { SameAbove(a, b, i, j); }
  }

  lemma RowLeaves(db: Db, m: int, now: int)
    requires Ids(db) && Typed(db.items) && Stamped(db.media) && LiveMedia(db.media, m)
    ensures var r := Detach(db, m, now);
      RowLeft(db, r, m, now) && Uncrowded(db.media, r.media, db.media[m].item) && r.settings == db.settings
  {
    hide TrashIfEmpty;
    var item := db.media[m].item;
    var retired, r := Retire(db, m, now), Detach(db, m, now);
    LiveRowsStay(retired, item, now);
    assert retired.media[m].item == item && retired.media[m].deleted.Some? && retired.media[m].stamps.missing.None?;
    if MediaOn(retired.media, item) == {} {
      assert Superseded(retired.media, item) == {};
      assert r.media == retired.media && r.parts == retired.parts;
      forall p | p in db.parts && db.parts[p].media == m
        ensures p in r.parts && r.parts[p] == Dropped(db.parts[p], now) {}
    } else {
      assert m in Superseded(retired.media, item);
    }
  }

  lemma LiveRowsStay(db: Db, item: int, now: int)
    ensures MediaOn(ClearSuperseded(db, item, now).media, item) == MediaOn(db.media, item)
  {
  }

  /** No leaf is above another row. */
  lemma LeavesApart(items: Items, i: int)
    requires Typed(items)
    ensures forall j :: j in items && j != i && items[j].typ in {Movie, Episode} ==> j !in Up(items, i)
  {
    forall j | j in items && j != i && items[j].typ in {Movie, Episode} ensures j !in Up(items, i) {
      if j in Up(items, i) { UpTypes(items, i, j); }
    }
  }

  lemma OneLess(before: MediaRows, retired: MediaRows, after: MediaRows, m: int)
    requires m in retired && retired == before[m := retired[m]] && !LiveMedia(retired, m) && SameLive(retired, after)
    ensures !LiveMedia(after, m) && SameLive(after, before - {m})
  {
    forall k | LiveMedia(after, k) || LiveMedia(before - {m}, k) ensures k in after && k in before - {m} && after[k] == (before - {m})[k] {
      assert k != m ==> (LiveMedia(retired, k) <==> LiveMedia(before - {m}, k));
    }
  }

  lemma StillSame(a: Items, b: Items, c: Items)
    requires SameButTimes(a, b) && SameForest(b, c)
    ensures SameForest(a, c)
  {
  }

  /** No live row of the section but m carries the stamp. */
  ghost predicate OnlyRow(media: MediaRows, section: int, uid: string, m: int) {
    forall k :: LiveMedia(media, k) && media[k].section == section && media[k].stamps.uid == uid ==> k == m
  }

  /** Writing one live row on a live item, and recounting the item, keeps the
      library sound when the row is backed and its stamp its own. */
  lemma RowWritten(db: Db, r: Db, m: int)
    requires Sound(db) && LiveMedia(r.media, m) && r.media == db.media[m := r.media[m]]
    requires LiveItem(db.items, r.media[m].item)
    requires m in db.media ==> db.media[m].item == r.media[m].item
    requires r.items == CountMedia(db.items, r.media, r.media[m].item)
    requires Ids(r) && Backed(r.media, r.parts) && r.media[m].stamps.missing.None?
    requires r.media[m].stamps.uid == "" || OnlyRow(db.media, r.media[m].section, r.media[m].stamps.uid, m)
    ensures Sound(r)
  {
    hide *;
    var uncounted := r.(items := db.items);
    Uncounted(r, uncounted, db.items, r.media[m].item);
    RowChanged(db, uncounted, m);
    LiveIn(db.items, r.media[m].item);
    Recounted(uncounted, r.media[m].item);
    assert r == uncounted.(items := CountMedia(uncounted.items, uncounted.media, r.media[m].item));
  }

  lemma Uncounted(r: Db, u: Db, items: Items, item: int)
    requires Ids(r) && u == r.(items := items) && r.items == CountMedia(items, r.media, item)
    ensures Ids(u)
  {
    hide MediaOn;
    assert forall i :: i in items ==> i in r.items && r.items[i].parent == items[i].parent;
  }

  lemma LiveIn(items: Items, i: int)
    requires LiveItem(items, i)
    ensures i in items
  {
  }

  /** What upsertMedia needs of the row it was given. */
  ghost predicate OnItem(db: Db, item: int, f: Option<Found>) {
    f.None? || (LiveMedia(db.media, f.value.media) && db.media[f.value.media].item == item
                && f.value.part in db.parts && db.parts[f.value.part].media == f.value.media)
  }

  ghost predicate HasFile(parts: Parts, m: int, file: string) {
    exists p :: p in parts && parts[p].media == m && parts[p].deleted.None? && parts[p].file == file
  }

  lemma UpsertFrame(db: Db, section: int, item: int, f: Option<Found>, c: Change, now: int)
    requires Ids(db) && LiveItem(db.items, item) && OnItem(db, item, f)
    ensures var (r, m) := Upsert(db, section, item, f, c, now);
      && LiveMedia(r.media, m) && r.media[m].item == item
      && r.media == db.media[m := r.media[m]] && r.media[m].updated == now
      && HasFile(r.parts, m, c.path)
      && r.items == CountMedia(db.items, r.media, item)
      && Ids(r)
      && if f.None? then m !in db.media && r.media[m].section == section && r.media[m].stamps == NO_STAMPS
         else m == f.value.media && r.media[m] == db.media[m].(updated := now)
  {
    var (r, m) := Upsert(db, section, item, f, c, now);
    var p := if f.None? then db.next + 1 else f.value.part;
    assert p in r.parts && r.parts[p].media == m && r.parts[p].deleted.None? && r.parts[p].file == c.path;
  }

  lemma UpsertSound(db: Db, section: int, item: int, f: Option<Found>, c: Change, now: int)
    requires Sound(db) && LiveItem(db.items, item) && OnItem(db, item, f)
    ensures Sound(Upsert(db, section, item, f, c, now).0)
  {
    UpsertFrame(db, section, item, f, c, now);
    var (r, m) := Upsert(db, section, item, f, c, now);
    UpsertParts(db, section, item, f, c, now);
    RowWritten(db, r, m);
  }

  lemma UpsertParts(db: Db, section: int, item: int, f: Option<Found>, c: Change, now: int)
    requires Ids(db) && Backed(db.media, db.parts) && LiveItem(db.items, item) && OnItem(db, item, f)
    ensures var r := Upsert(db, section, item, f, c, now).0; Backed(r.media, r.parts)
  {
    UpsertFrame(db, section, item, f, c, now);
    var (r, m) := Upsert(db, section, item, f, c, now);
    assert HasPart(r.parts, m, None);
    KeepsParts(db, r, m);
  }

  lemma StampSound(db: Db, m: int, c: Change)
    requires Sound(db) && LiveMedia(db.media, m)
    requires OnlyRow(db.media, db.media[m].section, c.uid, m)
    ensures Sound(Stamp(db, m, c))
  {
    var r := Stamp(db, m, c);
    var item := db.media[m].item;
    assert MediaOn(r.media, item) == MediaOn(db.media, item);
    assert r.items == CountMedia(db.items, r.media, item);
    RowWritten(db, r, m);
  }
}
