/** The projector (pkg/plexproject): each transaction on the database it holds,
    and the reconcile and sweep loops over them. */
module Projectors {
  import opened Options
  import opened Library
  import opened ItemChain
  import opened Projection
  import opened Transactions
  import opened Removal
  import opened Sweeps

  /** What a reconcile counts. */
  datatype Outcome = Outcome(applied: nat, deleted: nat, adopted: nat, unknown: nat, failed: nat)

  // ---------------------------------------------------------------------
  // What a reconcile reads and reaches
  // ---------------------------------------------------------------------

  /** A live part, under the folder, of a live row of the section. */
  predicate Listed(db: Db, section: int, folder: string, p: int) {
    && p in db.parts && db.parts[p].deleted.None? && UnderFolder(db.parts[p].file, folder)
    && LiveMedia(db.media, db.parts[p].media) && db.media[db.parts[p].media].section == section
  }

  /** liveRows: the stamped rows by file, the stamp-less ones by path. */
  function LiveRows(db: Db, section: int, folder: string): map<string, Stamps>
    requires Stamped(db.media)
  {
    assert forall m, k :: LiveMedia(db.media, m) && LiveMedia(db.media, k) && SameStamp(db.media[m], db.media[k]) ==> m == k;
    map p | p in db.parts && Listed(db, section, folder, p) && db.media[db.parts[p].media].stamps.uid != ""
      :: db.media[db.parts[p].media].stamps.uid := db.media[db.parts[p].media].stamps
  }

  function LoosePaths(db: Db, section: int, folder: string): set<string> {
    set p | p in db.parts && Listed(db, section, folder, p) && db.media[db.parts[p].media].stamps.uid == ""
      :: db.parts[p].file
  }

  lemma SoundTyped(db: Db)
    requires Sound(db)
    ensures Typed(db.items)
  {
  }

  lemma SoundStamped(db: Db)
    requires Sound(db)
    ensures Stamped(db.media)
  {
  }

  /** Every row listed is a projected one, and the whole section lists all. */
  lemma HaveProjected(db: Db, section: int, folder: string)
    requires Sound(db)
    ensures var have, p := LiveRows(db, section, folder), Projected(db.media, section);
      && "" !in have && (forall u :: u in have ==> u in p && have[u] == p[u])
      && (folder == "" ==> have == p)
  {
    hide Projected;
    var have, p := LiveRows(db, section, folder), Projected(db.media, section);
    forall u | u in have ensures u in p && have[u] == p[u] {
      ListedProjected(db, section, folder, u);
    }
    if folder == "" {
      forall u | u in p ensures u in have {
        ProjectedListed(db, section, u);
      }
    }
  }

  lemma ListedProjected(db: Db, section: int, folder: string, u: string)
    requires Stamped(db.media) && u in LiveRows(db, section, folder)
    ensures var p := Projected(db.media, section); u in p && LiveRows(db, section, folder)[u] == p[u]
  {
  }

  lemma ProjectedListed(db: Db, section: int, u: string)
    requires Stamped(db.media) && Backed(db.media, db.parts) && u in Projected(db.media, section)
    ensures u in LiveRows(db, section, "")
  {
  }

  predicate Due(c: Change, folder: string) { UnderFolder(c.path, folder) && !c.unresolved }

  function Uids(want: seq<Change>): set<string> { set c | c in want :: c.uid }

  ghost predicate Distinct(want: seq<Change>) {
    forall i, j :: 0 <= i < j < |want| ==> want[i].uid != want[j].uid
  }

  /** What has been applied of a want list, once its first i changes were tried. */
  ghost predicate AppliedUpTo(p0: map<string, Stamps>, p: map<string, Stamps>, folder: string, want: seq<Change>, i: nat, clean: bool)
    requires i <= |want|
  {
    && (forall u :: u in p0 ==> u in p)
    && (forall u :: u in p && (forall j :: 0 <= j < i && Due(want[j], folder) ==> want[j].uid != u) ==> u in p0 && p[u] == p0[u])
    && (clean && Distinct(want) ==> forall j :: 0 <= j < i && Due(want[j], folder) ==>
          want[j].uid in p && Current(want[j], p[want[j].uid]))
  }

  lemma AppliedNothing(p: map<string, Stamps>, folder: string, want: seq<Change>)
    ensures AppliedUpTo(p, p, folder, want, 0, true)
  {
  }

  lemma AppliedSkip(p0: map<string, Stamps>, p: map<string, Stamps>, have: map<string, Stamps>, folder: string,
                    want: seq<Change>, i: nat, clean: bool)
    requires i < |want| && AppliedUpTo(p0, p, folder, want, i, clean)
    requires Due(want[i], folder) ==> want[i].uid in have && Current(want[i], have[want[i].uid])
    requires forall u :: u in have ==> u in p0 && have[u] == p0[u]
    ensures AppliedUpTo(p0, p, folder, want, i + 1, clean)
  {
  }

  lemma AppliedOne(p0: map<string, Stamps>, p: map<string, Stamps>, r: map<string, Stamps>, folder: string,
                   want: seq<Change>, i: nat, clean: bool)
    requires i < |want| && AppliedUpTo(p0, p, folder, want, i, clean) && Due(want[i], folder)
    requires want[i].uid in r && Current(want[i], r[want[i].uid]) && r == p[want[i].uid := r[want[i].uid]]
    ensures AppliedUpTo(p0, r, folder, want, i + 1, clean)
  {
    hide Current, Due;
    forall u | u in p0 ensures u in r {}
    forall u | u in r && (forall j :: 0 <= j < i + 1 && Due(want[j], folder) ==> want[j].uid != u) ensures u in p0 && r[u] == p0[u] {
      assert u != want[i].uid;
    }
    if clean && Distinct(want) {
      forall j | 0 <= j < i && Due(want[j], folder) ensures want[j].uid in r && Current(want[j], r[want[j].uid]) {
        assert want[j].uid != want[i].uid;
      }
    }
  }

  lemma AppliedNone(p0: map<string, Stamps>, p: map<string, Stamps>, folder: string, want: seq<Change>, i: nat, clean: bool)
    requires i < |want| && AppliedUpTo(p0, p, folder, want, i, clean)
    ensures AppliedUpTo(p0, p, folder, want, i + 1, false)
  {
  }

  /** The section's stamped files are the resolved changes, with their current
      stamps, and the unresolved ones that had a row. */
  ghost predicate Reached(p0: map<string, Stamps>, p: map<string, Stamps>, want: seq<Change>) {
    && (forall u :: u in p <==> exists i :: 0 <= i < |want| && want[i].uid == u && (!want[i].unresolved || u in p0))
    && (forall i :: 0 <= i < |want| && !want[i].unresolved ==> want[i].uid in p && Current(want[i], p[want[i].uid]))
  }

  ghost predicate AllCurrent(have: map<string, Stamps>, folder: string, want: seq<Change>) {
    forall i :: 0 <= i < |want| && Due(want[i], folder) ==> want[i].uid in have && Current(want[i], have[want[i].uid])
  }

  /** Every due change has a current row, and every row's file is wanted. */
  ghost predicate Quiet(have: map<string, Stamps>, folder: string, want: seq<Change>) {
    AllCurrent(have, folder, want) && have.Keys <= Uids(want)
  }

  lemma ReachedQuiet(p0: map<string, Stamps>, p: map<string, Stamps>, want: seq<Change>)
    requires Reached(p0, p, want)
    ensures Quiet(p, "", want)
  {
  }

  /** What deleting the unwanted rows of `have` leaves of p. */
  ghost predicate DroppedTo(p: map<string, Stamps>, r: map<string, Stamps>, gone: set<string>, todo: set<string>, clean: bool) {
    && (forall u :: u in p && u !in gone ==> u in r)
    && (forall u :: u in r ==> u in p && r[u] == p[u])
    && (clean ==> forall u :: u in gone && u !in todo ==> u !in r)
  }

  /** A whole section whose due changes were applied and unwanted rows dropped
      has reached the want list. */
  lemma ReachedBy(p0: map<string, Stamps>, p: map<string, Stamps>, r: map<string, Stamps>, want: seq<Change>)
    requires Distinct(want) && AppliedUpTo(p0, p, "", want, |want|, true)
    requires DroppedTo(p, r, p0.Keys - Uids(want), {}, true)
    ensures Reached(p0, r, want)
  {
  }

  /** What a clean run of one folder reaches: the files that had a row keep it unless it
      is listed there and nobody wants it, those due there have a current one, and every
      other row has the stamps it had. */
  ghost predicate ReachedIn(p0: map<string, Stamps>, have: map<string, Stamps>, p: map<string, Stamps>, folder: string, want: seq<Change>) {
    && (forall u :: u in p <==> (u in p0 && (u !in have || u in Uids(want))) || IsDue(folder, want, u))
    && (forall i :: 0 <= i < |want| && Due(want[i], folder) ==> want[i].uid in p && Current(want[i], p[want[i].uid]))
    && (forall u :: u in p && !IsDue(folder, want, u) ==> u in p0 && p[u] == p0[u])
  }

  /** The file has a change that a reconcile of the folder may apply. */
  predicate IsDue(folder: string, want: seq<Change>, u: string) { exists c :: c in want && Due(c, folder) && c.uid == u }

  lemma DueSomewhere(folder: string, want: seq<Change>)
    ensures forall u :: IsDue(folder, want, u) <==> exists i :: 0 <= i < |want| && Due(want[i], folder) && want[i].uid == u
    ensures forall u :: IsDue(folder, want, u) ==> u in Uids(want)
  {
    hide Due;
    forall u | IsDue(folder, want, u) ensures exists i :: 0 <= i < |want| && Due(want[i], folder) && want[i].uid == u {
      var c :| c in want && Due(c, folder) && c.uid == u;
      var i :| 0 <= i < |want| && want[i] == c;
      assert Due(want[i], folder) && want[i].uid == u;
    }
  }

  /** What no run changes, whatever fails in it: the rows that are neither listed there nor
      due there keep their stamps, and no file gets a row that is not due one. */
  ghost predicate Outside(p0: map<string, Stamps>, have: map<string, Stamps>, p: map<string, Stamps>, folder: string, want: seq<Change>) {
    && (forall u :: u in p0 && (u !in have || u in Uids(want)) ==> u in p)
    && (forall u :: u in p && !IsDue(folder, want, u) ==> u in p0 && p[u] == p0[u])
  }

  lemma OutsideBy(p0: map<string, Stamps>, have: map<string, Stamps>, p: map<string, Stamps>, r: map<string, Stamps>, folder: string, want: seq<Change>, a: bool, b: bool)
    requires AppliedUpTo(p0, p, folder, want, |want|, a) && DroppedTo(p, r, have.Keys - Uids(want), {}, b)
    ensures Outside(p0, have, r, folder, want)
  {
    hide Current, Due, IsDue;
    DueSomewhere(folder, want);
  }

  lemma OutsideSame(p0: map<string, Stamps>, have: map<string, Stamps>, folder: string, want: seq<Change>)
    ensures Outside(p0, have, p0, folder, want)
  {
  }

  lemma DueSettles(p0: map<string, Stamps>, have: map<string, Stamps>, p: map<string, Stamps>, r: map<string, Stamps>, folder: string, want: seq<Change>, u: string)
    requires Distinct(want) && AppliedUpTo(p0, p, folder, want, |want|, true) && have.Keys <= p0.Keys
    requires DroppedTo(p, r, have.Keys - Uids(want), {}, true)
    ensures IsDue(folder, want, u) ==> u in r
    ensures u in have && u !in Uids(want) ==> u !in r
  {
    hide Current, Due, IsDue;
    DueSomewhere(folder, want);
  }

  lemma ReachedInBy(p0: map<string, Stamps>, have: map<string, Stamps>, p: map<string, Stamps>, r: map<string, Stamps>, folder: string, want: seq<Change>)
    requires Distinct(want) && AppliedUpTo(p0, p, folder, want, |want|, true) && have.Keys <= p0.Keys
    requires DroppedTo(p, r, have.Keys - Uids(want), {}, true)
    ensures ReachedIn(p0, have, r, folder, want)
  {
    hide Current, Due, IsDue, AppliedUpTo, DroppedTo, Uids, Distinct;
    OutsideBy(p0, have, p, r, folder, want, true, true);
    forall u ensures u in r <==> (u in p0 && (u !in have || u in Uids(want))) || IsDue(folder, want, u) {
      DueSettles(p0, have, p, r, folder, want, u);
    }
    forall i | 0 <= i < |want| && Due(want[i], folder) ensures want[i].uid in r && Current(want[i], r[want[i].uid]) {
      DueCurrent(p0, have, p, r, folder, want, i);
    }
  }

  lemma DueCurrent(p0: map<string, Stamps>, have: map<string, Stamps>, p: map<string, Stamps>, r: map<string, Stamps>, folder: string, want: seq<Change>, i: nat)
    requires i < |want| && Due(want[i], folder) && Distinct(want) && AppliedUpTo(p0, p, folder, want, |want|, true)
    requires DroppedTo(p, r, have.Keys - Uids(want), {}, true)
    ensures want[i].uid in r && Current(want[i], r[want[i].uid])
  {
    hide Current, Due;
    assert want[i] in want && want[i].uid in Uids(want);
  }

  /** The changes a reconcile applies, of the first i: those due whose row is missing or
      stale. */
  function Stale(have: map<string, Stamps>, folder: string, want: seq<Change>, i: nat): set<int>
    requires i <= |want|
  {
    set j | 0 <= j < i && IsStale(have, folder, want[j])
  }

  predicate IsStale(have: map<string, Stamps>, folder: string, c: Change) {
    Due(c, folder) && !(c.uid in have && Current(c, have[c.uid]))
  }

  /** The paths of those that have no row yet. */
  function NewPaths(have: map<string, Stamps>, folder: string, want: seq<Change>): set<string> {
    set c | c in want && Due(c, folder) && c.uid !in have :: c.path
  }

  lemma StaleOne(have: map<string, Stamps>, folder: string, want: seq<Change>, i: nat)
    requires i < |want|
    ensures |Stale(have, folder, want, i + 1)| == |Stale(have, folder, want, i)| +
      if IsStale(have, folder, want[i]) then 1 else 0
  {
    hide IsStale;
    if IsStale(have, folder, want[i]) {
      assert Stale(have, folder, want, i + 1) == Stale(have, folder, want, i) + {i};
    } else {
      assert Stale(have, folder, want, i + 1) == Stale(have, folder, want, i);
    }
  }

  lemma NewOne(have: map<string, Stamps>, folder: string, cs: seq<Change>, c: Change)
    ensures NewPaths(have, folder, cs + [c]) == NewPaths(have, folder, cs) + if Due(c, folder) && c.uid !in have then {c.path} else {}
  {
    hide Due;
    assert forall d :: d in cs + [c] <==> d in cs || d == c;
  }

  /** A loose path some new change names is adopted, once. */
  lemma LooseOne(loose: set<string>, paths: set<string>, path: string)
    ensures |loose - (paths + {path})| == |loose - paths| - (if path in loose - paths then 1 else 0)
  {
    if path in loose - paths {
      assert loose - paths == (loose - (paths + {path})) + {path};
    } else {
      assert loose - paths == loose - (paths + {path});
    }
  }

  /** The counts once i changes were tried. */
  ghost predicate Tried(have: map<string, Stamps>, folder: string, want: seq<Change>, i: nat, loose: set<string>, byPath: set<string>, out: Outcome)
    requires i <= |want|
  {
    && out.applied + out.failed == |Stale(have, folder, want, i)|
    && byPath == loose - NewPaths(have, folder, want[..i]) && out.adopted + |byPath| == |loose|
  }

  lemma TriedNone(have: map<string, Stamps>, folder: string, want: seq<Change>, loose: set<string>)
    ensures Tried(have, folder, want, 0, loose, loose, Outcome(0, 0, 0, 0, 0))
  {
    assert want[..0] == [] && NewPaths(have, folder, []) == {} && Stale(have, folder, want, 0) == {};
    assert loose - {} == loose;
  }

  lemma TriedOne(have: map<string, Stamps>, folder: string, want: seq<Change>, i: nat, loose: set<string>, byPath: set<string>, out: Outcome, r: set<string>, res: Outcome)
    requires i < |want| && Tried(have, folder, want, i, loose, byPath, out)
    requires var c := want[i]; var due := Due(c, folder);
      && r == (if due && c.uid !in have then byPath - {c.path} else byPath)
      && res.adopted == out.adopted + (if due && c.uid !in have && c.path in byPath then 1 else 0)
      && res.applied + res.failed == out.applied + out.failed + if IsStale(have, folder, c) then 1 else 0
    ensures Tried(have, folder, want, i + 1, loose, r, res)
  {
    hide IsStale, Due, NewPaths, Stale;
    var c := want[i];
    StaleOne(have, folder, want, i);
    assert want[..i + 1] == want[..i] + [c];
    NewOne(have, folder, want[..i], c);
    LooseOne(loose, NewPaths(have, folder, want[..i]), c.path);
    assert loose - (NewPaths(have, folder, want[..i]) + {c.path}) == byPath - {c.path};
  }

  lemma TriedAll(have: map<string, Stamps>, folder: string, want: seq<Change>, loose: set<string>, byPath: set<string>, out: Outcome)
    requires Tried(have, folder, want, |want|, loose, byPath, out)
    ensures out.applied + out.failed == |Stale(have, folder, want, |want|)|
    ensures |byPath| == |loose - NewPaths(have, folder, want)| && out.adopted + |byPath| == |loose|
  {
    assert want[..|want|] == want;
  }

  /** What the listings of a folder are: its live parts' rows, by file or by path. */
  lemma ListingsAre(db: Db, section: int, folder: string, u: string, path: string)
    requires Stamped(db.media)
    ensures u in LiveRows(db, section, folder) <==>
      exists m, p :: && u != "" && LiveMedia(db.media, m) && db.media[m].section == section && db.media[m].stamps.uid == u
                     && p in db.parts && db.parts[p].media == m && db.parts[p].deleted.None? && UnderFolder(db.parts[p].file, folder)
    ensures path in LoosePaths(db, section, folder) <==>
      exists m, p :: && LiveMedia(db.media, m) && db.media[m].section == section && db.media[m].stamps.uid == ""
                     && p in db.parts && db.parts[p].media == m && db.parts[p].deleted.None? && UnderFolder(db.parts[p].file, folder)
                     && db.parts[p].file == path
  {
    hide UnderFolder;
    if m, p :| && LiveMedia(db.media, m) && db.media[m].section == section && db.media[m].stamps.uid == u && u != ""
               && p in db.parts && db.parts[p].media == m && db.parts[p].deleted.None? && UnderFolder(db.parts[p].file, folder) {
      assert Listed(db, section, folder, p) && db.media[db.parts[p].media].stamps.uid in LiveRows(db, section, folder);
    }
  }

  /** retireMedia, clearSuperseded, trashIfEmpty: a row leaves its item. */
  method Leave(db: Db, m: int, now: int) returns (tx: Db)
    requires m in db.media && Typed(db.items)
    ensures tx == Detach(db, m, now)
  {
    var item := db.media[m].item;
    tx := Retire(db, m, now);
    tx := ClearSuperseded(tx, item, now);
    var items := TrashWalk(tx.items, tx.media, item, now);
    tx := tx.(items := items);
  }

  /** The file's row goes on the leaf the walk ended on: off the item it was on
      when it moved, written and stamped, and the item touched and refreshed
      when its file changed. */
  method PutFile(w: Walk, section: int, found: Option<Found>, c: Change, now: int) returns (tx: Db, refresh: seq<int>)
    requires Ready(w, section, found, c)
    ensures Done(tx, refresh) == Committed(w, found, c, now, Put(w, section, found, c, now).0)
  {
    var item, f := w.parent.value, found;
    tx, refresh := w.db, w.refresh;
    FreeSound(tx, section, f, item, now);
    if f.Some? && f.value.item != 0 && f.value.item != item {
      tx := Leave(tx, f.value.media, now);
      f := None;
    }
    tx := Write(tx, section, item, f, c, now).0;
    if FileChanged(f, c) {
      refresh := Needs(refresh, RefreshTarget(tx.items, item));
      tx := tx.(items := Touched(tx.items, item, now));
    }
  }

  /** Apply's transaction, from its first read to its commit. */
  method Transact(env: Env, db: Db, section: int, location: int, c: Change, now: int) returns (r: Result)
    requires Sound(db) && Valid(c)
    ensures r == ApplyTx(env, db, section, location, c, now)
  {
    if c.chain == [] || env.fails(c.uid) {
      return Failed;
    }
    var f := FindMedia(db, section, c);
    if f.Some? && !f.value.adopted && Current(c, f.value.stamps) {
      return Done(db, []);
    }
    WalkReady(env, db, section, c, now);
    var w := EnsureChain(db, section, c.chain, HintOf(f, c), now, env.bundle);
    if !env.covers(if c.location != 0 then c.location else location, c.path) {
      return Failed;
    }
    var tx, refresh := PutFile(w, section, f, c, now);
    return Done(tx, refresh);
  }

  class Projector {
    var db: Db
    /** The refreshes asked of Plex, in order. */
    var asked: seq<int>
    const env: Env

    constructor (env: Env, db: Db)
      requires Sound(db)
      ensures this.env == env && this.db == db && asked == []
    {
      this.env, this.db, asked := env, db, [];
    }

    /** Apply: the rows and the refreshes of its transaction, or neither. */
    method Apply(section: int, location: int, c: Change, now: int) returns (ok: bool)
      requires Sound(db) && Valid(c)
      modifies this
      ensures var r := ApplyTx(env, old(db), section, location, c, now);
        && ok == r.Done?
        && db == (if ok then r.db else old(db))
        && asked == old(asked) + (if ok then r.refresh else [])
      ensures Sound(db)
    {
      var r := Transact(env, db, section, location, c, now);
      ApplySound(env, db, section, location, c, now);
      ok := r.Done?;
      if ok {
        db, asked := r.db, asked + r.refresh;
      }
    }

    method Delete(section: int, uid: string, now: int) returns (ok: bool)
      requires Sound(db) && uid != ""
      modifies this`db
      ensures ok == !env.fails(uid)
      ensures db == if ok then DeleteTx(old(db), section, uid, now) else old(db)
      ensures Sound(db)
    {
      DeleteSound(db, section, uid, now);
      if env.fails(uid) {
        return false;
      }
      var rows := StampedRows(db.media, section, uid);
      if |rows| > 0 {
        db := Leave(db, First(rows, m => Rank(0, 0, 0, 0, m)), now);
      }
      return true;
    }

    /** Apply, seen from the stamps of the section's rows. */
    method ApplyOne(section: int, location: int, c: Change, now: int) returns (ok: bool)
      requires Sound(db) && Valid(c)
      modifies this
      ensures Sound(db)
      ensures ok ==> var r := Projected(db.media, section);
        c.uid in r && Current(c, r[c.uid]) && r == Projected(old(db).media, section)[c.uid := r[c.uid]]
      ensures !ok ==> db == old(db) && asked == old(asked)
    {
      ok := Apply(section, location, c, now);
      if ok {
        ApplyProjects(env, old(db), section, location, c, now);
      }
    }

    method DeleteOne(section: int, uid: string, now: int) returns (ok: bool)
      requires Sound(db) && uid != ""
      modifies this`db
      ensures Sound(db)
      ensures ok ==> Projected(db.media, section) == Projected(old(db).media, section) - {uid}
      ensures !ok ==> db == old(db)
    {
      ok := Delete(section, uid, now);
      DeleteProjects(old(db), section, uid, now);
    }

    /** The first loop of a reconcile: every due change whose row is missing or
        stale is applied. */
    method ApplyDue(section: int, location: int, folder: string, want: seq<Change>, nows: string -> int,
                    have: map<string, Stamps>, loose: set<string>)
      returns (out: Outcome)
      requires Sound(db) && forall i :: 0 <= i < |want| ==> Valid(want[i])
      requires forall u :: u in have ==> u in Projected(db.media, section) && have[u] == Projected(db.media, section)[u]
      modifies this
      ensures Sound(db) && out.deleted == 0
      ensures AppliedUpTo(Projected(old(db).media, section), Projected(db.media, section), folder, want, |want|, out.failed == 0)
      ensures AllCurrent(have, folder, want) ==>
        db == old(db) && asked == old(asked) && out == Outcome(0, 0, 0, out.unknown, 0)
      ensures out.applied + out.failed == |Stale(have, folder, want, |want|)|
      ensures out.unknown == |loose - NewPaths(have, folder, want)| && out.adopted + out.unknown == |loose|
    {
      hide Sound, Projected, Current, Due, Stale, NewPaths, Tried, AppliedUpTo;
      TriedNone(have, folder, want, loose);
      out := Outcome(0, 0, 0, 0, 0);
      var byPath := loose;
      ghost var p0 := Projected(db.media, section);
      AppliedNothing(p0, folder, want);
      for i := 0 to |want|
        invariant Sound(db) && out.deleted == 0
        invariant AppliedUpTo(p0, Projected(db.media, section), folder, want, i, out.failed == 0)
        invariant AllCurrent(have, folder, want) ==> db == old(db) && asked == old(asked) && out == Outcome(0, 0, 0, 0, 0)
        invariant Tried(have, folder, want, i, loose, byPath, out)
      {
        var c := want[i];
        ghost var p := Projected(db.media, section);
        ghost var paths, so := byPath, out;
        if !Due(c, folder) || (c.uid in have && Current(c, have[c.uid])) {
          AppliedSkip(p0, p, have, folder, want, i, out.failed == 0);
        } else {
          ghost var clean := out.failed == 0;
          if c.uid !in have && c.path in byPath {
            out, byPath := out.(adopted := out.adopted + 1), byPath - {c.path};
          }
          var ok := ApplyOne(section, location, c, nows(c.uid));
          if ok {
            AppliedOne(p0, p, Projected(db.media, section), folder, want, i, clean);
            out := out.(applied := out.applied + 1);
          } else {
            AppliedNone(p0, p, folder, want, i, clean);
            out := out.(failed := out.failed + 1);
          }
        }
        TriedOne(have, folder, want, i, loose, paths, so, byPath, out);
      }
      TriedAll(have, folder, want, loose, byPath, out);
      out := out.(unknown := |byPath|);
    }

    /** The second loop: the rows whose file no change names are deleted, in any
        order. */
    method DeleteUnwanted(section: int, todo0: set<string>, nows: string -> int, so: Outcome)
      returns (out: Outcome)
      requires Sound(db) && "" !in todo0
      modifies this`db
      ensures Sound(db)
      ensures DroppedTo(Projected(old(db).media, section), Projected(db.media, section), todo0, {}, out.failed == 0)
      ensures todo0 == {} ==> out == so && db == old(db)
      ensures so.failed <= out.failed && out == so.(deleted := out.deleted, failed := out.failed)
      ensures out.deleted + out.failed == so.deleted + so.failed + |todo0|
    {
      hide Sound, Projected;
      out := so;
      var todo := todo0;
      ghost var p := Projected(db.media, section);
      while todo != {}
        invariant Sound(db) && todo <= todo0
        invariant DroppedTo(p, Projected(db.media, section), todo0, todo, out.failed == 0)
        invariant todo0 == {} ==> out == so && db == old(db)
        invariant so.failed <= out.failed && out == so.(deleted := out.deleted, failed := out.failed)
        invariant out.deleted + out.failed + |todo| == so.deleted + so.failed + |todo0|
        decreases todo
      {
        var uid :| uid in todo;
        var ok := DeleteOne(section, uid, nows(uid));
        if ok {
          out := out.(deleted := out.deleted + 1);
        } else {
          out := out.(failed := out.failed + 1);
        }
        todo := todo - {uid};
      }
    }

    /** Reconcile: every due change is applied, every stamped row nobody wants
        deleted.  `nows` is when each file's transaction runs. */
    method Reconcile(section: int, location: int, folder: string, want: seq<Change>, nows: string -> int)
      returns (out: Outcome, refused: bool)
      requires Sound(db) && forall i :: 0 <= i < |want| ==> Valid(want[i])
      modifies this
      ensures Sound(db)
      // An empty want never empties a section.
      ensures refused <==> want == [] && LiveRows(old(db), section, folder) != map[]
      ensures refused ==> db == old(db) && asked == old(asked)
      // No row of a wanted file is lost, whatever fails and whatever the folder.
      ensures forall c :: c in want && c.uid in Projected(old(db).media, section) ==>
        c.uid in Projected(db.media, section)
      // A clean run of the whole section reaches exactly what is wanted.
      ensures !refused && folder == "" && out.failed == 0 && Distinct(want) ==>
        Reached(Projected(old(db).media, section), Projected(db.media, section), want)
      // And of a folder reaches it there.
      ensures !refused && out.failed == 0 && Distinct(want) ==>
        ReachedIn(Projected(old(db).media, section), LiveRows(old(db), section, folder), Projected(db.media, section), folder, want)
      // What is not the folder's stays, whatever fails.
      ensures Outside(Projected(old(db).media, section), LiveRows(old(db), section, folder), Projected(db.media, section), folder, want)
      // Every change due and every row unwanted is counted, and every file Plex alone knows.
      ensures !refused ==> var have, loose := LiveRows(old(db), section, folder), LoosePaths(old(db), section, folder);
        && out.applied + out.deleted + out.failed == |Stale(have, folder, want, |want|)| + |have.Keys - Uids(want)|
        && out.unknown == |loose - NewPaths(have, folder, want)| && out.adopted + out.unknown == |loose|
      // A section that has it already is left alone.
      ensures !refused && Quiet(LiveRows(old(db), section, folder), folder, want) ==>
        db == old(db) && asked == old(asked) && out == Outcome(0, 0, 0, out.unknown, 0)
    {
      hide Sound, Projected, LiveRows, LoosePaths, Reached, ReachedIn, Outside, Stale, NewPaths;
      SoundStamped(db);
      HaveProjected(db, section, folder);
      var have := LiveRows(db, section, folder);
      refused := want == [] && have != map[];
      ghost var p0 := Projected(db.media, section);
      if refused {
        out := Outcome(0, 0, 0, 0, 0);
        OutsideSame(p0, have, folder, want);
        return;
      }
      out := ApplyDue(section, location, folder, want, nows, have, LoosePaths(db, section, folder));
      ghost var p := Projected(db.media, section);
      ghost var clean := out.failed == 0;
      out := DeleteUnwanted(section, have.Keys - Uids(want), nows, out);
      OutsideBy(p0, have, p, Projected(db.media, section), folder, want, clean, out.failed == 0);
      if out.failed == 0 && Distinct(want) {
        ReachedInBy(p0, have, p, Projected(db.media, section), folder, want);
      }
      if folder == "" && out.failed == 0 && Distinct(want) {
        ReachedBy(p0, p, Projected(db.media, section), want);
      }
    }

    /** Reconcile reaches a fixpoint: after a clean run of a whole section, a
        second run with the same want list applies, deletes and asks nothing. */
    method ReconcileTwice(section: int, location: int, want: seq<Change>, nows: string -> int, nows': string -> int)
      returns (first: Outcome, second: Outcome, ghost between: Db, ghost wereAsked: seq<int>)
      requires Sound(db) && want != [] && Distinct(want) && forall i :: 0 <= i < |want| ==> Valid(want[i])
      modifies this
      ensures first.failed == 0 ==>
        && Reached(Projected(old(db).media, section), Projected(between.media, section), want)
        && db == between && asked == wereAsked && second == Outcome(0, 0, 0, second.unknown, 0)
    {
      hide Sound, Projected, LiveRows;
      var refused;
      ghost var p0 := Projected(db.media, section);
      first, refused := Reconcile(section, location, "", want, nows);
      between, wereAsked := db, asked;
      SoundStamped(db);
      HaveProjected(db, section, "");
      if first.failed == 0 {
        ReachedQuiet(p0, Projected(db.media, section), want);
      }
      second, refused := Reconcile(section, location, "", want, nows');
    }

    /** removeGone: not done when an apply took the row meanwhile; a transaction that
        fails changes nothing. */
    method RemoveRow(m: int, now: int, fails: bool) returns (done: bool)
      requires Sound(db)
      modifies this`db
      ensures Sound(db) && done == (!fails && Removable(old(db), m))
      ensures db == if done then RemoveGone(old(db), m, now) else old(db)
    {
      done := !fails && Removable(db, m);
      if done {
        RemoveSound(db, m, now);
        var item, media := db.media[m].item, db.media[m := Mark(db.media[m], now)];
        var items := TrashWalk(db.items, media, item, now);
        if LiveItem(items, item) {
          items := Touched(items, item, now);
        }
        db := db.(media := media, parts := DropParts(db.parts, m, now), items := items);
      }
    }

    /** revive, of a row that was read with these stamps: nothing when it is gone or live
        by now, or the transaction fails.  The library stays sound when the row still
        carries the sweep's mark. */
    method ReviveRow(m: int, read: Stamps, now: int, fails: bool)
      requires Sound(db)
      modifies this`db
      ensures Typed(old(db).items)
      ensures db == if !fails && m in old(db).media && old(db).media[m].deleted.Some? then ReviveAs(old(db), m, read, now) else old(db)
      ensures (m in old(db).media && old(db).media[m].deleted.Some? ==> Revivable(old(db), m) && read == old(db).media[m].stamps) ==>
        Sound(db)
    {
      SoundTyped(db);
      if fails || m !in db.media || db.media[m].deleted.None? {
        return;
      }
      if Revivable(db, m) { ReviveSound(db, m, now); }
      var row := db.media[m];
      var media := db.media[m := row.(deleted := None, updated := now, stamps := read.(missing := None))];
      var items := CountMedia(Raise(db.items, row.item, now), media, row.item);
      db := db.(media := media, parts := RaiseParts(db.parts, m, row.deleted, now), items := items);
    }

    /** The answer for a root, asked of the disk once. */
    method Trust(disk: Disk, root: string, seen: map<string, bool>) returns (ok: bool, trusted: map<string, bool>, stalled: bool)
      requires forall r :: r in seen ==> seen[r] == (r != "" && disk.root(r) == Trusted)
      ensures forall r :: r in trusted ==> trusted[r] == (r != "" && disk.root(r) == Trusted)
      ensures ok == (root != "" && disk.root(root) == Trusted)
    {
      trusted, stalled := seen, false;
      if root in seen {
        return seen[root], seen, false;
      }
      ok := root != "" && disk.root(root) == Trusted;
      if root != "" && disk.root(root) == RootStalled {
        return false, seen, true;
      }
      trusted := seen[root := ok];
    }

    /** What a sweep does with a row it could judge; `failed` when the transaction it
        made did. */
    method Settle(m: int, files: seq<string>, a: FileAnswer, now: int, fails: bool, so: SweepOutcome)
      returns (out: SweepOutcome, failed: bool)
      requires Sound(db) && m in db.media && files != []
      requires a == Gone || a == There
      requires db.media[m].deleted.None? || db.media[m].stamps.missing.Some?
      modifies this`db
      ensures Sound(db) && (failed ==> fails)
      ensures db == if failed then old(db) else Acted(old(db), m, a, now)
      ensures m in db.media && var was, here := old(db).media[m], db.media[m];
        && (failed ==> out == so.(checked := so.checked + 1))
        && (!failed ==> out == SweepOutcome(
              so.checked + 1,
              so.removed + (if was.deleted.None? && here.deleted.Some? then 1 else 0),
              so.revived + (if was.deleted.Some? && here.deleted.None? then 1 else 0),
              so.skipped,
              so.projectedMissing + if was.stamps.uid != "" && a == Gone then [files[0]] else []))
    {
      hide Sound, RemoveGone, ReviveAs;
      SoundTyped(db);
      ActedMark(db, m, a, now);
      out, failed := so.(checked := so.checked + 1), false;
      if db.media[m].stamps.uid != "" {
        if a == Gone {
          out := out.(projectedMissing := out.projectedMissing + [files[0]]);
        }
      } else if db.media[m].deleted.Some? {
        if a != Gone {
          ReviveRow(m, db.media[m].stamps, now, fails);
          failed := fails;
          out := out.(revived := out.revived + if fails then 0 else 1);
        }
      } else if a == Gone {
        var done := RemoveRow(m, now, fails);
        failed := fails;
        if done {
          out := out.(removed := out.removed + 1);
        }
      }
    }

    /** One row of a sweep; `stopped` when the file system stalls or the row's
        transaction fails. */
    method SweepRow(m: int, files: seq<string>, folder: string, disk: Disk, roots: seq<string>, now: int,
                    fails: bool, seen: map<string, bool>, so: SweepOutcome, ghost start: Db)
      returns (out: SweepOutcome, trusted: map<string, bool>, stopped: bool)
      requires Sound(db) && SweptTo(start, db, disk, roots) && Untouched(start, db, m)
      requires files == FilesOf(start, m) && files != []
      requires db.media[m].deleted.None? || db.media[m].stamps.missing.Some?
      requires forall r :: r in seen ==> seen[r] == (r != "" && disk.root(r) == Trusted)
      modifies this`db
      ensures forall r :: r in trusted ==> trusted[r] == (r != "" && disk.root(r) == Trusted)
      ensures Sound(db) && SweptTo(start, db, disk, roots)
      ensures m in db.media && db.media == old(db).media[m := db.media[m]]
      ensures !stopped ==> Handled(start, db, disk, roots, folder, m)
      ensures !AnyUnder(files, folder) ==> db == old(db)
      ensures RowCounted(start, db, m, so, out)
      ensures !stopped ==>
        && out.checked + out.skipped == so.checked + so.skipped + (if AnyUnder(files, folder) then 1 else 0)
        && out.projectedMissing == so.projectedMissing + ReportOf(start, disk, roots, folder, m)
    {
      hide Sound, Handled, Trustworthy, FilesOf, RemoveGone, Revive, SweptTo, Acted;
      out, trusted, stopped := so, seen, false;
      if !AnyUnder(files, folder) {
        NotAnswered(start, db, disk, roots, folder, m);
        return;
      }
      var root := LongestRoot(roots, files[0]);
      var ok;
      ok, trusted, stopped := Trust(disk, root, trusted);
      if !ok {
        LeftAlone(start, db, disk, roots, folder, m, root);
        out := out.(skipped := out.skipped + if stopped then 0 else 1);
        return;
      }
      TrustedRow(start, disk, roots, m, root);
      var a := AllGone(files, disk);
      stopped := a == FileStalled;
      if a == Gone || a == There {
        SoundTyped(db);
        SettledIs(start, db, disk, roots, folder, m, a, now);
        out, stopped := Settle(m, files, a, now, fails, out);
      } else {
        NotAnswered(start, db, disk, roots, folder, m);
        out := out.(skipped := out.skipped + if stopped then 0 else 1);
      }
    }

    /** Sweep: it removes only rows Plex scanned, all of whose files are gone,
        and restores only rows a sweep removed, one of whose files is back, both
        under a trusted root; a row stamped with a MediaFile is never touched.
        Unless the file system stalls or a row's transaction fails, where it stops,
        it handles every row it judges. */
    method Sweep(section: int, folder: string, item: int, disk: Disk, roots: seq<string>, nows: int -> int, fails: int -> bool)
      returns (out: SweepOutcome, stopped: bool)
      requires Sound(db)
      modifies this`db
      ensures Sound(db) && SweptTo(old(db), db, disk, roots)
      ensures forall m :: m in old(db).media && old(db).media[m].stamps.uid != "" ==>
        m in db.media && db.media[m] == old(db).media[m]
      ensures !stopped ==> forall m :: m in Judged(old(db), section, item) ==>
        Handled(old(db), db, disk, roots, folder, m)
      // No row is changed but those judged, and of these only the ones under the folder.
      ensures forall m :: m in old(db).media && (m !in Judged(old(db), section, item) || !AnyUnder(FilesOf(old(db), m), folder)) ==>
        m in db.media && db.media[m] == old(db).media[m]
      // It counts what it took and what it put back, and reports what it may not take.
      ensures out.removed == |Taken(old(db), db)| && out.revived == |Taken(db, old(db))|
      ensures !stopped ==> out.checked + out.skipped == |set m | m in Judged(old(db), section, item) && AnyUnder(FilesOf(old(db), m), folder)|
      ensures !stopped ==>
        && (forall m :: m in Sorted(Judged(old(db), section, item)) ==> m in old(db).media && FilesOf(old(db), m) != [])
        && out.projectedMissing == Reports(old(db), disk, roots, folder, Sorted(Judged(old(db), section, item)))
    {
      hide Sound, Handled, FilesOf, Judged, SweptTo, Swept, Through, RowCounted, Taken, Reports, ReportOf, AnyUnder, UnderAmong;
      SoundTyped(db);
      out, stopped := SweepOutcome(0, 0, 0, 0, []), false;
      var start := db;
      var rows := Sorted(Judged(db, section, item));
      forall m | m in rows ensures m in db.media && FilesOf(db, m) != [] { JudgedRow(db, section, item, m); }
      SweptNone(db, disk, roots, folder, rows);
      var trusted := map[];
      for i := 0 to |rows|
        invariant Sound(db) && SweptTo(start, db, disk, roots) && !stopped
        invariant Swept(start, db, folder, rows, i, out)
        invariant Through(start, db, disk, roots, folder, rows, i, out)
        invariant forall r :: r in trusted ==> trusted[r] == (r != "" && disk.root(r) == Trusted)
      {
        var m := rows[i];
        JudgedRow(start, section, item, m);
        SweptNext(start, db, folder, rows, i, out);
        ghost var before, so := db, out;
        out, trusted, stopped := SweepRow(m, FilesOf(start, m), folder, disk, roots, nows(m), fails(m), trusted, out, start);
        SweptOne(start, before, db, folder, rows, i, so, out);
        if stopped {
          SweptFrame(start, db, folder, rows, i + 1, out);
          break;
        }
        ThroughOne(start, before, db, disk, roots, folder, rows, i, so, out);
      }
      if !stopped {
        SweptFrame(start, db, folder, rows, |rows|, out);
        ThroughAll(start, db, disk, roots, folder, section, item, out);
      }
      SweptStamped(start, db, disk, roots);
    }
  }
}
