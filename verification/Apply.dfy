/** The projection's two file transactions, as functions of the database they
    begin on: Apply (pkg/plexproject/apply.go) and Delete (delete.go). */
module Transactions {
  import opened Options
  import opened Library
  import opened ItemChain
  import opened Projection

  datatype Result = Failed | Done(db: Db, refresh: seq<int>)

  predicate Moved(f: Option<Found>, item: int) { f.Some? && f.value.item != 0 && f.value.item != item }

  function Kept(f: Option<Found>, item: int): Option<Found> { if Moved(f, item) then None else f }

  /** The file is given another path or another seeded probe. */
  predicate FileChanged(f: Option<Found>, c: Change) {
    && f.Some? && !f.value.adopted
    && (f.value.file != c.path || (c.seedable && f.value.stamps.probeHash != c.probeHash))
  }

  /** The row whose Plex refresh fills item: an episode's season. */
  function RefreshTarget(items: Items, item: int): int {
    if item in items && items[item].typ == Episode && items[item].parent.Some? then items[item].parent.value else item
  }

  function HintOf(f: Option<Found>, c: Change): int {
    if f.Some? && f.value.stamps.itemUID != "" && f.value.stamps.itemUID == LeafUID(c) then f.value.item else 0
  }

  /** The file found is a live row of the section, its part its own. */
  ghost predicate FoundIn(db: Db, section: int, f: Option<Found>) {
    f.None? || (LiveMedia(db.media, f.value.media) && db.media[f.value.media].section == section
                && db.media[f.value.media].item == f.value.item
                && f.value.part in db.parts && db.parts[f.value.part].media == f.value.media)
  }

  /** A file that moved leaves the item it was on. */
  ghost function Free(db: Db, f: Option<Found>, item: int, now: int): Db
    requires Typed(db.items) && (f.Some? ==> f.value.media in db.media)
  {
    if Moved(f, item) then Detach(db, f.value.media, now) else db
  }

  lemma FreeSound(db: Db, section: int, f: Option<Found>, item: int, now: int)
    requires Sound(db) && FoundIn(db, section, f)
    requires LiveItem(db.items, item) && db.items[item].typ in {Movie, Episode}
    ensures var r := Free(db, f, item, now);
      && Sound(r) && LiveItem(r.items, item) && OnItem(r, item, Kept(f, item))
      && FoundIn(r, section, Kept(f, item)) && db.items.Keys == r.items.Keys
      && SameLive(r.media, if Moved(f, item) then db.media - {f.value.media} else db.media)
  {
    if Moved(f, item) {
      DetachSound(db, f.value.media, now);
    }
  }

  /** upsertMedia, clearSuperseded, stampMedia. */
  function Write(db: Db, section: int, item: int, f: Option<Found>, c: Change, now: int): (Db, int)
    requires Ids(db) && Backed(db.media, db.parts) && LiveItem(db.items, item) && OnItem(db, item, f)
  {
    UpsertFrame(db, section, item, f, c, now);
    UpsertParts(db, section, item, f, c, now);
    var (written, m) := Upsert(db, section, item, f, c, now);
    ClearFrame(written, item, now);
    (Stamp(ClearSuperseded(written, item, now), m, c), m)
  }

  /** The row the file ends on is live on the item, stamped with it and current,
      at its path; every other live row is as it was. */
  ghost predicate Landed(before: MediaRows, r: Db, section: int, item: int, m: int, c: Change) {
    && LiveMedia(r.media, m) && r.media[m].section == section && r.media[m].item == item
    && r.media[m].stamps.uid == c.uid && Current(c, r.media[m].stamps)
    && HasFile(r.parts, m, c.path)
    && SameLive(before - {m}, r.media - {m})
  }

  /** Only the row found carries the stamp. */
  ghost predicate NoneBut(media: MediaRows, section: int, uid: string, f: Option<Found>) {
    forall k :: LiveMedia(media, k) && media[k].section == section && media[k].stamps.uid == uid ==>
      f.Some? && k == f.value.media
  }

  /** After the row is upserted and the item cleared, the live rows are the old
      ones and that row. */
  lemma Cleared(db: Db, section: int, item: int, f: Option<Found>, c: Change, now: int)
    requires Ids(db) && Backed(db.media, db.parts) && LiveItem(db.items, item)
    requires OnItem(db, item, f) && FoundIn(db, section, f) && NoneBut(db.media, section, c.uid, f)
    ensures var (written, m) := Upsert(db, section, item, f, c, now);
      var r := ClearSuperseded(written, item, now);
      && LiveMedia(r.media, m) && r.media[m].section == section && r.media[m].item == item
      && HasFile(r.parts, m, c.path) && SameLive(db.media - {m}, r.media - {m})
      && OnlyRow(r.media, section, c.uid, m)
  {
    hide Upsert, ClearSuperseded, Ids, Backed, SameButTimes, SameLive, HasFile, NoneBut, OnlyRow, CountMedia;
    UpsertFrame(db, section, item, f, c, now);
    UpsertParts(db, section, item, f, c, now);
    var (written, m) := Upsert(db, section, item, f, c, now);
    ClearFrame(written, item, now);
    var r := ClearSuperseded(written, item, now);
    FileStays(written, r, m, c.path);
    OneMore(db.media, written.media, r.media, m);
    OnlyOne(db.media, written.media, r.media, section, c.uid, f, m);
  }

  lemma FileStays(written: Db, r: Db, m: int, path: string)
    requires HasFile(written.parts, m, path) && LiveMedia(written.media, m) && SameLive(written.media, r.media)
    requires forall p :: p in r.parts ==> p in written.parts && r.parts[p] == written.parts[p]
    requires forall p :: p in written.parts && written.parts[p].media in r.media ==> p in r.parts
    ensures HasFile(r.parts, m, path) && LiveMedia(r.media, m) && r.media[m] == written.media[m]
  {
    var p :| p in written.parts && written.parts[p].media == m && written.parts[p].deleted.None? && written.parts[p].file == path;
    assert p in r.parts;
  }

  /** The rows live before, and the one written. */
  lemma OneMore(before: MediaRows, written: MediaRows, after: MediaRows, m: int)
    requires m in written && written == before[m := written[m]] && SameLive(written, after)
    ensures SameLive(before - {m}, after - {m})
  {
    forall k | LiveMedia(before - {m}, k) || LiveMedia(after - {m}, k)
      ensures k in before - {m} && k in after - {m} && (before - {m})[k] == (after - {m})[k]
    {
      assert LiveMedia(written, k) || LiveMedia(after, k);
    }
  }

  lemma OnlyOne(before: MediaRows, written: MediaRows, after: MediaRows, section: int, uid: string, f: Option<Found>, m: int)
    requires m in written && written == before[m := written[m]] && SameLive(written, after)
    requires NoneBut(before, section, uid, f) && (f.Some? ==> m == f.value.media)
    ensures OnlyRow(after, section, uid, m)
  {
    forall k | LiveMedia(after, k) && after[k].section == section && after[k].stamps.uid == uid ensures k == m {
      assert LiveMedia(written, k) && (k != m ==> LiveMedia(before, k));
    }
  }

  lemma WriteSound(db: Db, section: int, item: int, f: Option<Found>, c: Change, now: int)
    requires Sound(db) && LiveItem(db.items, item) && OnItem(db, item, f) && FoundIn(db, section, f)
    requires NoneBut(db.media, section, c.uid, f)
    ensures var (r, m) := Write(db, section, item, f, c, now);
      Sound(r) && Landed(db.media, r, section, item, m, c)
  {
    hide Upsert, ClearSuperseded, Typed, ItemsHeld, MediaHeld, CountsBut;
    UpsertSound(db, section, item, f, c, now);
    var (written, m) := Upsert(db, section, item, f, c, now);
    ClearSound(written, item, now, {});
    Cleared(db, section, item, f, c, now);
    StampSound(ClearSuperseded(written, item, now), m, c);
  }

  /** What FindMedia leaves no doubt about: it missed no stamped row. */
  lemma FindsAll(db: Db, section: int, c: Change)
    requires Sound(db) && c.uid != ""
    ensures FoundIn(db, section, FindMedia(db, section, c))
    ensures var f := FindMedia(db, section, c);
      && NoneBut(db.media, section, c.uid, f)
      && (f.Some? ==> f.value.stamps == db.media[f.value.media].stamps
                      && f.value.stamps.uid == if f.value.adopted then "" else c.uid)
  {
    var f := FindMedia(db, section, c);
    forall k | LiveMedia(db.media, k) && db.media[k].section == section && db.media[k].stamps.uid == c.uid
      ensures f.Some? && k == f.value.media
    {
      assert HasPart(db.parts, k, None);
      var p :| p in db.parts && db.parts[p].media == k && db.parts[p].deleted.None?;
      assert OfStamp(db, section, c.uid, p);
      assert SameStamp(db.media[k], db.media[f.value.media]);
    }
  }

  // ---------------------------------------------------------------------
  // Apply
  // ---------------------------------------------------------------------

  /** The transaction once the chain is walked: the rest of Apply writes the
      file's row on the walk's leaf. */
  ghost predicate Ready(w: Walk, section: int, f: Option<Found>, c: Change) {
    && Sound(w.db) && w.parent.Some? && LiveItem(w.db.items, w.parent.value)
    && w.db.items[w.parent.value].typ in {Movie, Episode}
    && c.uid != "" && FoundIn(w.db, section, f) && NoneBut(w.db.media, section, c.uid, f)
    && (f.Some? ==> w.db.media[f.value.media].stamps.uid in {"", c.uid})
  }

  ghost function Put(w: Walk, section: int, f: Option<Found>, c: Change, now: int): (Db, int)
    requires Ready(w, section, f, c)
  {
    var item := w.parent.value;
    FreeSound(w.db, section, f, item, now);
    Write(Free(w.db, f, item, now), section, item, Kept(f, item), c, now)
  }

  /** One row now carries the stamp of `uid`; of the others, at most a
      stamp-less one or the file's old one is gone or changed. */
  ghost predicate Replaces(before: MediaRows, after: MediaRows, section: int, uid: string, m: int) {
    && LiveMedia(after, m) && after[m].section == section && after[m].stamps.uid == uid && uid != ""
    && (forall k :: LiveMedia(after, k) && k != m ==> LiveMedia(before, k) && before[k] == after[k])
    && (forall k :: LiveMedia(before, k) && !(LiveMedia(after, k) && before[k] == after[k]) ==>
          before[k].section == section && before[k].stamps.uid in {"", uid})
  }

  lemma PutSound(w: Walk, section: int, f: Option<Found>, c: Change, now: int)
    requires Ready(w, section, f, c)
    ensures var (r, m) := Put(w, section, f, c, now);
      && Sound(r) && Replaces(w.db.media, r.media, section, c.uid, m)
      && r.media[m].item == w.parent.value && Current(c, r.media[m].stamps) && HasFile(r.parts, m, c.path)
  {
    hide Sound, SoundBut, Ids, Backed, Stamped, Typed, MediaHeld, ItemsHeld, CountsBut, Write, Free, Replaces, SameLive, NoneBut, HasFile, Current;
    var item := w.parent.value;
    SoundIs(w.db);
    SoundParts(w.db, {});
    FreeSound(w.db, section, f, item, now);
    var freed := Free(w.db, f, item, now);
    SoundIs(freed);
    SoundParts(freed, {});
    StillNoneBut(w.db.media, freed.media, section, c.uid, f, item);
    WriteSound(freed, section, item, Kept(f, item), c, now);
    WriteRow(freed, section, item, Kept(f, item), c, now);
    PutReplaces(w.db.media, freed.media, section, item, f, c, Write(freed, section, item, Kept(f, item), c, now));
  }

  lemma StillNoneBut(before: MediaRows, freed: MediaRows, section: int, uid: string, f: Option<Found>, item: int)
    requires NoneBut(before, section, uid, f)
    requires SameLive(freed, if Moved(f, item) then before - {f.value.media} else before)
    ensures NoneBut(freed, section, uid, Kept(f, item))
  {
    forall k | LiveMedia(freed, k) && freed[k].section == section && freed[k].stamps.uid == uid
      ensures Kept(f, item).Some? && k == Kept(f, item).value.media
    {
      assert LiveMedia(before, k) && before[k] == freed[k];
    }
  }

  lemma WriteRow(db: Db, section: int, item: int, f: Option<Found>, c: Change, now: int)
    requires Ids(db) && Backed(db.media, db.parts) && LiveItem(db.items, item) && OnItem(db, item, f)
    ensures var m := Write(db, section, item, f, c, now).1;
      if f.Some? then m == f.value.media else !LiveMedia(db.media, m)
  {
    hide ClearSuperseded;
    UpsertFrame(db, section, item, f, c, now);
  }

  lemma PutReplaces(before: MediaRows, freed: MediaRows, section: int, item: int, f: Option<Found>, c: Change, r: (Db, int))
    requires c.uid != "" && Landed(freed, r.0, section, item, r.1, c)
    requires SameLive(freed, if Moved(f, item) then before - {f.value.media} else before)
    requires Kept(f, item).Some? ==> r.1 == f.value.media
    requires Kept(f, item).None? ==> !LiveMedia(freed, r.1) 
    requires f.Some? ==> LiveMedia(before, f.value.media) && before[f.value.media].section == section
                         && before[f.value.media].stamps.uid in {"", c.uid}
    ensures Replaces(before, r.0.media, section, c.uid, r.1)
  {
    var after, m := r.0.media, r.1;
    forall k | LiveMedia(after, k) && k != m ensures LiveMedia(before, k) && before[k] == after[k] {
      assert k in after - {m} && LiveMedia(after - {m}, k);
      assert LiveMedia(freed, k);
    }
    forall k | LiveMedia(before, k) && !(LiveMedia(after, k) && before[k] == after[k])
      ensures before[k].section == section && before[k].stamps.uid in {"", c.uid}
    {
      if f.None? || k != f.value.media {
        assert LiveMedia(freed, k) && freed[k] == before[k];
        assert LiveMedia(freed - {m}, k);
      }
    }
  }

  ghost predicate UpToDate(f: Option<Found>, c: Change) {
    f.Some? && !f.value.adopted && Current(c, f.value.stamps)
  }

  ghost function WalkOf(env: Env, db: Db, section: int, c: Change, now: int): Walk {
    EnsureFrom(Start(db), section, c.chain, HintOf(FindMedia(db, section, c), c), now, env.bundle)
  }

  lemma WalkReady(env: Env, db: Db, section: int, c: Change, now: int)
    requires Sound(db) && Valid(c) && c.chain != []
    ensures var f := FindMedia(db, section, c);
      Ready(WalkOf(env, db, section, c, now), section, f, c)
  {
    var f := FindMedia(db, section, c);
    FindsAll(db, section, c);
    EnsureChainSound(db, section, c.chain, HintOf(f, c), now, env.bundle);
  }

  /** Apply: one file, one transaction.  A row found by its stamp whose stamps
      are current is left as it is. */
  ghost function ApplyTx(env: Env, db: Db, section: int, location: int, c: Change, now: int): Result
    requires Sound(db) && Valid(c)
  {
    var f := FindMedia(db, section, c);
    if c.chain == [] || env.fails(c.uid) then Failed
    else if UpToDate(f, c) then Done(db, [])
    else if !env.covers(if c.location != 0 then c.location else location, c.path) then Failed
    else
      WalkReady(env, db, section, c, now);
      var w := WalkOf(env, db, section, c, now);
      Committed(w, f, c, now, Put(w, section, f, c, now).0)
  }

  /** The item's update time and refresh, when its file changed. */
  function Committed(w: Walk, f: Option<Found>, c: Change, now: int, r: Db): Result
    requires w.parent.Some?
  {
    var item := w.parent.value;
    if FileChanged(Kept(f, item), c)
    then Done(r.(items := Touched(r.items, item, now)), Needs(w.refresh, RefreshTarget(r.items, item)))
    else Done(r, w.refresh)
  }

  lemma CommittedSound(w: Walk, f: Option<Found>, c: Change, now: int, r: Db)
    requires w.parent.Some? && Sound(r)
    ensures Sound(Committed(w, f, c, now, r).db)
    ensures var d := Committed(w, f, c, now, r).db; d.media == r.media && d.parts == r.parts
  {
    SameLiveSound(r, r.(items := Touched(r.items, w.parent.value, now)), {});
  }

  lemma PutCommits(w: Walk, section: int, f: Option<Found>, c: Change, now: int)
    requires Ready(w, section, f, c)
    ensures Sound(Committed(w, f, c, now, Put(w, section, f, c, now).0).db)
  {
    PutSound(w, section, f, c, now);
    CommittedSound(w, f, c, now, Put(w, section, f, c, now).0);
  }

  /** An apply that commits leaves the library sound. */
  lemma ApplySound(env: Env, db: Db, section: int, location: int, c: Change, now: int)
    requires Sound(db) && Valid(c)
    ensures var r := ApplyTx(env, db, section, location, c, now);
      r.Done? ==> Sound(r.db)
  {
    var r, f := ApplyTx(env, db, section, location, c, now), FindMedia(db, section, c);
    if r.Done? && !UpToDate(f, c) {
      WalkReady(env, db, section, c, now);
      var w := WalkOf(env, db, section, c, now);
      PutCommits(w, section, f, c, now);
      assert r == Committed(w, f, c, now, Put(w, section, f, c, now).0);
    }
  }

  /** The row an apply leaves: stamped with the file, current, at its path
      unless the row was current before, and on its chain's leaf.  No other
      file's row is touched. */
  lemma ApplyLands(env: Env, db: Db, section: int, location: int, c: Change, now: int) returns (m: int)
    requires Sound(db) && Valid(c)
    requires ApplyTx(env, db, section, location, c, now).Done?
    ensures var r := ApplyTx(env, db, section, location, c, now).db;
      var f := FindMedia(db, section, c);
      && Replaces(db.media, r.media, section, c.uid, m) && Current(c, r.media[m].stamps)
      && (!UpToDate(f, c) ==>
            && HasFile(r.parts, m, c.path)
            && Some(r.media[m].item)
               == WalkOf(env, db, section, c, now).parent)
  {
    var f := FindMedia(db, section, c);
    FindsAll(db, section, c);
    if UpToDate(f, c) {
      m := f.value.media;
    } else {
      WalkReady(env, db, section, c, now);
      var w := WalkOf(env, db, section, c, now);
      PutSound(w, section, f, c, now);
      m := Put(w, section, f, c, now).1;
      EnsureChainSound(db, section, c.chain, HintOf(f, c), now, env.bundle);
    }
  }

  /** Applying the same change again writes nothing and asks for nothing. */
  lemma ApplyTwice(env: Env, db: Db, section: int, location: int, c: Change, now: int, location': int, now': int)
    requires Sound(db) && Valid(c)
    ensures var r := ApplyTx(env, db, section, location, c, now);
      r.Done? ==> Sound(r.db) && ApplyTx(env, r.db, section, location', c, now') == Done(r.db, [])
  {
    var r := ApplyTx(env, db, section, location, c, now);
    if r.Done? {
      ApplySound(env, db, section, location, c, now);
      var m := ApplyLands(env, db, section, location, c, now);
      FindsAll(r.db, section, c);
      assert SameStamp(r.db.media[m], r.db.media[m]);
    }
  }

  // ---------------------------------------------------------------------
  // Delete
  // ---------------------------------------------------------------------

  function StampedRows(media: MediaRows, section: int, uid: string): set<int> {
    set m | m in media && LiveMedia(media, m) && media[m].section == section && media[m].stamps.uid == uid
  }

  /** Delete: the file's row leaves its item; a file with no row is nothing to do. */
  ghost function DeleteTx(db: Db, section: int, uid: string, now: int): Db
    requires Typed(db.items)
  {
    var rows := StampedRows(db.media, section, uid);
    if |rows| == 0 then db else Detach(db, First(rows, m => Rank(0, 0, 0, 0, m)), now)
  }

  /** A delete leaves the library sound, the file without a live row, and every
      other live row as it was. */
  lemma DeleteSound(db: Db, section: int, uid: string, now: int)
    requires Sound(db) && uid != ""
    ensures var r := DeleteTx(db, section, uid, now);
      Sound(r) && SameLive(r.media, db.media - StampedRows(db.media, section, uid))
  {
    var rows := StampedRows(db.media, section, uid);
    if |rows| > 0 {
      var m := First(rows, m => Rank(0, 0, 0, 0, m));
      DetachSound(db, m, now);
      assert forall k :: k in rows ==> SameStamp(db.media[k], db.media[m]);
      assert rows == {m};
    } else {
      assert forall k :: k in rows ==> |rows - {k}| < |rows|;
      assert rows == {};
    }
  }

  // ---------------------------------------------------------------------
  // The projected files of a section
  // ---------------------------------------------------------------------

  predicate IsRow(media: MediaRows, section: int, uid: string, m: int) {
    LiveMedia(media, m) && media[m].section == section && media[m].stamps.uid == uid && uid != ""
  }

  ghost function StampedUids(media: MediaRows, section: int): set<string> {
    set m | m in media && IsRow(media, section, media[m].stamps.uid, m) :: media[m].stamps.uid
  }

  ghost function RowFor(media: MediaRows, section: int, uid: string): (m: int)
    requires uid in StampedUids(media, section)
    ensures IsRow(media, section, uid, m)
  {
    var m :| IsRow(media, section, uid, m);
    m
  }

  /** Every stamp of the section's live rows, by the file it names. */
  ghost function Projected(media: MediaRows, section: int): map<string, Stamps> {
    map u | u in StampedUids(media, section) :: media[RowFor(media, section, u)].stamps
  }

  lemma ProjectedAt(media: MediaRows, section: int, m: int)
    requires Stamped(media) && LiveMedia(media, m) && media[m].section == section && media[m].stamps.uid != ""
    ensures media[m].stamps.uid in Projected(media, section)
    ensures Projected(media, section)[media[m].stamps.uid] == media[m].stamps
  {
  }

  lemma ProjectedFrom(media: MediaRows, section: int, uid: string) returns (m: int)
    requires uid in Projected(media, section)
    ensures LiveMedia(media, m) && media[m].section == section && media[m].stamps.uid == uid && uid != ""
    ensures Projected(media, section)[uid] == media[m].stamps
  {
    m := RowFor(media, section, uid);
  }

  /** A committed apply adds or renews its file's stamps and changes no other
      file's. */
  lemma ApplyProjects(env: Env, db: Db, section: int, location: int, c: Change, now: int)
    requires Sound(db) && Valid(c)
    requires ApplyTx(env, db, section, location, c, now).Done?
    ensures var r := ApplyTx(env, db, section, location, c, now).db;
      && Sound(r)
      && c.uid in Projected(r.media, section) && Current(c, Projected(r.media, section)[c.uid])
      && Projected(r.media, section) == Projected(db.media, section)[c.uid := Projected(r.media, section)[c.uid]]
  {
    ApplySound(env, db, section, location, c, now);
    var m := ApplyLands(env, db, section, location, c, now);
    var r := ApplyTx(env, db, section, location, c, now).db;
    ProjectedAt(r.media, section, m);
    ReplacesProjected(db.media, r.media, section, c.uid, m);
  }

  lemma ReplacesProjected(before: MediaRows, after: MediaRows, section: int, uid: string, m: int)
    requires Stamped(before) && Stamped(after) && Replaces(before, after, section, uid, m)
    ensures Projected(after, section) == Projected(before, section)[uid := after[m].stamps]
  {
    hide Projected;
    var a, b := Projected(after, section), Projected(before, section)[uid := after[m].stamps];
    ProjectedAt(after, section, m);
    forall u | u in a ensures u in b && a[u] == b[u] {
      var k := ProjectedFrom(after, section, u);
      if k != m { ProjectedAt(before, section, k); assert SameStamp(after[k], after[k]); }
    }
    forall u | u in b ensures u in a {
      if u != uid {
        var k := ProjectedFrom(before, section, u);
        ProjectedAt(after, section, k);
      }
    }
  }

  lemma DeleteProjects(db: Db, section: int, uid: string, now: int)
    requires Sound(db) && uid != ""
    ensures var r := DeleteTx(db, section, uid, now);
      Sound(r) && Projected(r.media, section) == Projected(db.media, section) - {uid}
  {
    DeleteSound(db, section, uid, now);
    var r := DeleteTx(db, section, uid, now);
    DropsProjected(db.media, r.media, section, uid);
  }

  lemma DropsProjected(before: MediaRows, after: MediaRows, section: int, uid: string)
    requires Stamped(before) && Stamped(after) && uid != ""
    requires SameLive(after, before - StampedRows(before, section, uid))
    ensures Projected(after, section) == Projected(before, section) - {uid}
  {
    hide Projected;
    var gone := StampedRows(before, section, uid);
    var a, b := Projected(after, section), Projected(before, section) - {uid};
    forall u | u in a ensures u in b && a[u] == b[u] {
      var k := ProjectedFrom(after, section, u);
      assert LiveMedia(before - gone, k);
      ProjectedAt(before, section, k);
    }
    forall u | u in b ensures u in a {
      var k := ProjectedFrom(before, section, u);
      assert LiveMedia(before - gone, k);
      ProjectedAt(after, section, k);
    }
  }
}
