/** What a sweep reads of the library and of the disk, and what it may change
    (pkg/plexproject/missing.go). */
module Sweeps {
  import opened Options
  import opened Library
  import opened Removal
  import opened Trashing

  datatype RootAnswer = Trusted | Untrusted | RootStalled

  datatype FileAnswer = Gone | There | Unsure | FileStalled

  /** The disk as the sweep's questions find it. */
  datatype Disk = Disk(root: string -> RootAnswer, file: string -> FileAnswer)

  /** The parts of a row that have a file: the live ones, or all of them when
      the row is deleted. */
  function PartsOf(db: Db, m: int): set<int>
    requires m in db.media
  {
    set p | p in db.parts && db.parts[p].media == m && db.parts[p].file != ""
            && (db.parts[p].deleted.None? || db.media[m].deleted.Some?)
  }

  function FilesAt(parts: Parts, ids: seq<int>): (files: seq<string>)
    requires forall i :: 0 <= i < |ids| ==> ids[i] in parts
    ensures |files| == |ids| && forall i :: 0 <= i < |ids| ==> files[i] == parts[ids[i]].file
  {
    if ids == [] then [] else [parts[ids[0]].file] + FilesAt(parts, ids[1..])
  }

  /** The row's files, in the order of their parts. */
  function FilesOf(db: Db, m: int): seq<string>
    requires m in db.media
  {
    var ids := Sorted(PartsOf(db, m));
    assert forall i :: 0 <= i < |ids| ==> ids[i] in PartsOf(db, m);
    FilesAt(db.parts, ids)
  }

  /** The rows a sweep of a section, or of one item's subtree, judges. */
  function Judged(db: Db, section: int, item: int): set<int>
    requires Typed(db.items)
  {
    set m | m in db.media && db.media[m].section == section
            && (db.media[m].deleted.None? || db.media[m].stamps.missing.Some?)
            && (item == 0 || item in Up(db.items, db.media[m].item))
            && FilesOf(db, m) != []
  }

  /** A part a sweep asks the disk about. */
  predicate Asked(db: Db, m: int, p: int)
    requires m in db.media
  {
    && p in db.parts && db.parts[p].media == m && db.parts[p].file != ""
    && (db.media[m].deleted.None? ==> db.parts[p].deleted.None?)
  }

  /** A row's files are those of its parts in the order of their ids: of the live parts,
      and of a deleted row's all. */
  lemma FilesAre(db: Db, m: int) returns (ids: seq<int>)
    requires m in db.media
    ensures var files := FilesOf(db, m);
      && |files| == |ids| && (forall p :: p in ids <==> Asked(db, m, p))
      && (forall i, j :: 0 <= i < j < |ids| ==> ids[i] < ids[j])
      && (forall i :: 0 <= i < |ids| ==> ids[i] in db.parts && files[i] == db.parts[ids[i]].file)
  {
    ids := Sorted(PartsOf(db, m));
    forall p ensures p in ids <==> Asked(db, m, p) { assert p in ids <==> p in PartsOf(db, m); }
    forall i | 0 <= i < |ids| ensures Asked(db, m, ids[i]) { assert ids[i] in ids; }
  }

  /** The rows judged: the section's live ones and those a sweep removed, on the item or
      under it, that have a file. */
  lemma JudgedAre(db: Db, section: int, item: int, m: int)
    requires Typed(db.items) && (m in db.media ==> db.media[m].item in db.items)
    ensures m in Judged(db, section, item) <==>
      && m in db.media && db.media[m].section == section
      && (db.media[m].deleted.Some? ==> db.media[m].stamps.missing.Some?)
      && (item == 0 || (item in db.items && AtOrAbove(db.items, db.media[m].item, item)))
      && exists p :: Asked(db, m, p)
  {
    if m in db.media {
      UpIsAbove(db.items, db.media[m].item, item);
      var ids := FilesAre(db, m);
      if ids != [] { assert Asked(db, m, ids[0]); }
    }
  }

  /** A root that holds the file, the longest of those that do. */
  ghost predicate IsLongestRoot(roots: seq<string>, file: string, root: string) {
    && root in roots && root != "" && root + "/" <= file
    && forall r :: r in roots && r != "" && r + "/" <= file ==> |r| <= |root|
  }

  /** longestRoot: "" when no root holds the file. */
  method LongestRoot(roots: seq<string>, file: string) returns (best: string)
    ensures best != "" ==> IsLongestRoot(roots, file, best)
    ensures best == "" ==> forall r :: r in roots && r != "" ==> !(r + "/" <= file)
  {
    best := "";
    for i := 0 to |roots|
      invariant best != "" ==> best in roots && best + "/" <= file
      invariant forall j :: 0 <= j < i && roots[j] != "" && roots[j] + "/" <= file ==> |roots[j]| <= |best|
    {
      var r := roots[i];
      if r != "" && r + "/" <= file && |r| > |best| {
        best := r;
      }
    }
  }

  /** The row's first file is under a root the disk can be trusted on. */
  ghost predicate Trustworthy(db: Db, disk: Disk, roots: seq<string>, m: int) {
    && m in db.media && FilesOf(db, m) != []
    && exists root :: IsLongestRoot(roots, FilesOf(db, m)[0], root) && disk.root(root) == Trusted
  }

  /** allGone, with what the disk answered when it was not. */
  method AllGone(files: seq<string>, disk: Disk) returns (a: FileAnswer)
    ensures a == Gone <==> forall f :: f in files ==> disk.file(f) == Gone
    ensures a != Gone ==> exists f :: f in files && disk.file(f) == a
  {
    for i := 0 to |files|
      invariant forall j :: 0 <= j < i ==> disk.file(files[j]) == Gone
    {
      a := disk.file(files[i]);
      if a != Gone {
        return;
      }
    }
    a := Gone;
  }

  /** The only ways a sweep changes a row: a row Plex scanned whose files are
      all gone is removed, and one a sweep removed whose file is there is put
      back, in both cases under a trusted root. */
  ghost predicate MayRemove(db: Db, disk: Disk, roots: seq<string>, m: int) {
    Removable(db, m) && Trustworthy(db, disk, roots, m) && forall f :: f in FilesOf(db, m) ==> disk.file(f) == Gone
  }

  ghost predicate MayRestore(db: Db, disk: Disk, roots: seq<string>, m: int) {
    Revivable(db, m) && Trustworthy(db, disk, roots, m) && exists f :: f in FilesOf(db, m) && disk.file(f) == There
  }

  /** What a sweep has done to the library it began on. */
  ghost predicate SweptTo(db: Db, r: Db, disk: Disk, roots: seq<string>) {
    && r.media.Keys == db.media.Keys
    && (forall m :: m in db.media && r.media[m] != db.media[m] ==>
          (MayRemove(db, disk, roots, m) && Revivable(r, m)) || (MayRestore(db, disk, roots, m) && Removable(r, m)))
  }

  predicate UnderFolder(path: string, folder: string) { folder == "" || folder + "/" <= path }

  /** The folder's own files: not those of another whose name only begins so. */
  lemma UnderFolderIs(path: string, folder: string)
    ensures UnderFolder(path, folder) <==> folder == "" || exists rest :: path == folder + ("/" + rest)
  {
    if folder != "" && UnderFolder(path, folder) {
      assert path == folder + ("/" + path[|folder| + 1..]);
    }
    if rest :| path == folder + ("/" + rest) {
      assert path[..|folder| + 1] == folder + "/";
    }
  }

  predicate AnyUnder(files: seq<string>, folder: string) {
    exists f :: f in files && UnderFolder(f, folder)
  }

  /** A row under the folder whose every file the disk answers for has been
      acted on: removed if it may be, put back if it may be. */
  ghost predicate Handled(db: Db, r: Db, disk: Disk, roots: seq<string>, folder: string, m: int)
    requires m in db.media
  {
    AnyUnder(FilesOf(db, m), folder) && (forall f :: f in FilesOf(db, m) ==> disk.file(f) in {Gone, There}) ==>
      && (MayRemove(db, disk, roots, m) ==> Revivable(r, m))
      && (MayRestore(db, disk, roots, m) ==> Removable(r, m))
  }

  predicate Untouched(db: Db, r: Db, m: int) { m in db.media && m in r.media && r.media[m] == db.media[m] }

  lemma HandledStays(start: Db, a: Db, b: Db, disk: Disk, roots: seq<string>, folder: string, m: int)
    requires m in start.media && m in a.media && m in b.media && a.media[m] == b.media[m]
    requires Handled(start, a, disk, roots, folder, m)
    ensures Handled(start, b, disk, roots, folder, m)
  {
  }

  /** A row the sweep judged is handled by what Settle does with it. */
  lemma SettledIs(start: Db, db: Db, disk: Disk, roots: seq<string>, folder: string, m: int, a: FileAnswer, now: int)
    requires SweptTo(start, db, disk, roots) && Typed(db.items) && Untouched(start, db, m)
    requires FilesOf(start, m) != [] && Trustworthy(start, disk, roots, m)
    requires a == Gone <==> forall f :: f in FilesOf(start, m) ==> disk.file(f) == Gone
    requires a == There ==> exists f :: f in FilesOf(start, m) && disk.file(f) == There
    requires a in {Gone, There}
    ensures var r := Acted(db, m, a, now);
      && SweptTo(start, r, disk, roots) && Handled(start, r, disk, roots, folder, m)
      && r.media == db.media[m := r.media[m]]
  {
    hide Trustworthy, FilesOf, SweptTo, RemoveGone, Revive;
    if Removable(db, m) && a == Gone {
      SweptRemove(start, db, disk, roots, m, now);
    } else if Revivable(db, m) && a == There {
      SweptRestore(start, db, disk, roots, m, now);
    }
  }

  ghost function Acted(db: Db, m: int, a: FileAnswer, now: int): (r: Db)
    requires Typed(db.items) && m in db.media
    ensures m in r.media
  {
    if Removable(db, m) && a == Gone then RemoveGone(db, m, now)
    else if Revivable(db, m) && a == There then Revive(db, m, now)
    else db
  }

  /** Whether the row is live then. */
  lemma ActedMark(db: Db, m: int, a: FileAnswer, now: int)
    requires Typed(db.items) && m in db.media
    ensures var r, was := Acted(db, m, a, now), db.media[m];
      r.media[m].deleted.None? <==>
        if Removable(db, m) && a == Gone then false else if Revivable(db, m) && a == There then true else was.deleted.None?
  {
  }

  /** A row some file of which the disk does not answer for is handled by being
      left, and so is one outside the folder. */
  lemma NotAnswered(db: Db, r: Db, disk: Disk, roots: seq<string>, folder: string, m: int)
    requires m in db.media
    requires !AnyUnder(FilesOf(db, m), folder) || exists f :: f in FilesOf(db, m) && disk.file(f) !in {Gone, There}
    ensures Handled(db, r, disk, roots, folder, m)
  {
  }

  /** A row's root is one root: the longest that holds its first file. */
  lemma OneRoot(roots: seq<string>, file: string, a: string, b: string)
    requires IsLongestRoot(roots, file, a) && IsLongestRoot(roots, file, b)
    ensures a == b
  {
    assert a == file[..|a|] && b == file[..|b|];
  }

  /** A row under no root, or one the disk is not trusted on, is handled by
      being left. */
  lemma LeftAlone(db: Db, r: Db, disk: Disk, roots: seq<string>, folder: string, m: int, root: string)
    requires m in db.media && FilesOf(db, m) != []
    requires root != "" ==> IsLongestRoot(roots, FilesOf(db, m)[0], root) && disk.root(root) != Trusted
    requires root == "" ==> forall x :: x in roots && x != "" ==> !(x + "/" <= FilesOf(db, m)[0])
    ensures Handled(db, r, disk, roots, folder, m) && !Trustworthy(db, disk, roots, m)
  {
    if Trustworthy(db, disk, roots, m) {
      var x :| IsLongestRoot(roots, FilesOf(db, m)[0], x) && disk.root(x) == Trusted;
      OneRoot(roots, FilesOf(db, m)[0], x, root);
    }
  }

  lemma SweptStamped(db: Db, r: Db, disk: Disk, roots: seq<string>)
    requires SweptTo(db, r, disk, roots)
    ensures forall m :: m in db.media && db.media[m].stamps.uid != "" ==> m in r.media && r.media[m] == db.media[m]
  {
  }

  lemma JudgedRow(db: Db, section: int, item: int, m: int)
    requires Typed(db.items) && m in Judged(db, section, item)
    ensures m in db.media && FilesOf(db, m) != []
    ensures db.media[m].deleted.None? || db.media[m].stamps.missing.Some?
  {
  }

  lemma TrustedRow(db: Db, disk: Disk, roots: seq<string>, m: int, root: string)
    requires m in db.media && FilesOf(db, m) != []
    requires IsLongestRoot(roots, FilesOf(db, m)[0], root) && disk.root(root) == Trusted
    ensures Trustworthy(db, disk, roots, m)
  {
  }

  lemma SweptRemove(start: Db, db: Db, disk: Disk, roots: seq<string>, m: int, now: int)
    requires SweptTo(start, db, disk, roots) && Typed(db.items)
    requires m in db.media && db.media[m] == start.media[m] && MayRemove(start, disk, roots, m)
    ensures var r := RemoveGone(db, m, now);
      SweptTo(start, r, disk, roots) && r.media == db.media[m := r.media[m]] && Revivable(r, m)
  {
  }

  lemma SweptRestore(start: Db, db: Db, disk: Disk, roots: seq<string>, m: int, now: int)
    requires SweptTo(start, db, disk, roots) && Typed(db.items)
    requires m in db.media && db.media[m] == start.media[m] && MayRestore(start, disk, roots, m)
    ensures var r := Revive(db, m, now);
      SweptTo(start, r, disk, roots) && r.media == db.media[m := r.media[m]] && Removable(r, m)
  {
  }

  // ---------------------------------------------------------------------
  // What a sweep counts
  // ---------------------------------------------------------------------

  datatype SweepOutcome = SweepOutcome(checked: nat, removed: nat, revived: nat, skipped: nat, projectedMissing: seq<string>)

  /** The rows that were live and are deleted. */
  function Taken(a: Db, b: Db): set<int> {
    set m | m in a.media && m in b.media && a.media[m].deleted.None? && b.media[m].deleted.Some?
  }

  /** A stamped row under the folder, on a trusted root, whose files are all gone. */
  ghost predicate MissingProjected(db: Db, disk: Disk, roots: seq<string>, folder: string, m: int) {
    && m in db.media && db.media[m].stamps.uid != "" && AnyUnder(FilesOf(db, m), folder)
    && Trustworthy(db, disk, roots, m) && forall f :: f in FilesOf(db, m) ==> disk.file(f) == Gone
  }

  ghost function ReportOf(db: Db, disk: Disk, roots: seq<string>, folder: string, m: int): seq<string>
    requires m in db.media && FilesOf(db, m) != []
  {
    if MissingProjected(db, disk, roots, folder, m) then [FilesOf(db, m)[0]] else []
  }

  /** The first files of such rows among these, in their order. */
  ghost function Reports(db: Db, disk: Disk, roots: seq<string>, folder: string, rows: seq<int>): seq<string>
    requires forall m :: m in rows ==> m in db.media && FilesOf(db, m) != []
  {
    if rows == [] then []
    else
      Reports(db, disk, roots, folder, rows[..|rows| - 1]) + ReportOf(db, disk, roots, folder, rows[|rows| - 1])
  }

  lemma ReportsOne(db: Db, disk: Disk, roots: seq<string>, folder: string, rows: seq<int>, i: nat)
    requires i < |rows| && forall m :: m in rows ==> m in db.media && FilesOf(db, m) != []
    ensures forall m :: m in rows[..i + 1] ==> m in db.media && FilesOf(db, m) != []
    ensures Reports(db, disk, roots, folder, rows[..i + 1])
         == Reports(db, disk, roots, folder, rows[..i]) + ReportOf(db, disk, roots, folder, rows[i])
  {
    hide ReportOf, FilesOf;
    assert rows[..i + 1][..i] == rows[..i];
  }

  /** Of these rows the ones under the folder. */
  function UnderAmong(db: Db, folder: string, rows: seq<int>): set<int>
    requires forall m :: m in rows ==> m in db.media
  {
    set m | m in rows && AnyUnder(FilesOf(db, m), folder)
  }

  lemma UnderOne(db: Db, folder: string, rows: seq<int>, i: nat)
    requires i < |rows| && (forall m :: m in rows ==> m in db.media) && forall j, k :: 0 <= j < k < |rows| ==> rows[j] < rows[k]
    ensures |UnderAmong(db, folder, rows[..i + 1])| ==
      |UnderAmong(db, folder, rows[..i])| + if AnyUnder(FilesOf(db, rows[i]), folder) then 1 else 0
  {
    hide FilesOf, AnyUnder;
    var m := rows[i];
    assert m !in rows[..i] && rows[..i + 1] == rows[..i] + [m];
    if AnyUnder(FilesOf(db, m), folder) {
      assert UnderAmong(db, folder, rows[..i + 1]) == UnderAmong(db, folder, rows[..i]) + {m};
    } else {
      assert UnderAmong(db, folder, rows[..i + 1]) == UnderAmong(db, folder, rows[..i]);
    }
  }

  lemma UnderAll(db: Db, section: int, item: int, folder: string)
    requires Typed(db.items)
    ensures var rows := Sorted(Judged(db, section, item));
      && (forall m :: m in rows ==> m in db.media)
      && UnderAmong(db, folder, rows) == set m | m in Judged(db, section, item) && AnyUnder(FilesOf(db, m), folder)
  {
    hide FilesOf, AnyUnder;
  }

  lemma CountsNone(db: Db, disk: Disk, roots: seq<string>, folder: string)
    ensures Taken(db, db) == {} && UnderAmong(db, folder, []) == {} && Reports(db, disk, roots, folder, []) == []
  {
  }

  /** One row changed: what was taken, and what was put back. */
  lemma CountsOne(start: Db, a: Db, b: Db, m: int)
    requires Untouched(start, a, m) && m in b.media && b.media == a.media[m := b.media[m]]
    ensures |Taken(start, b)| == |Taken(start, a)| + if start.media[m].deleted.None? && b.media[m].deleted.Some? then 1 else 0
    ensures |Taken(b, start)| == |Taken(a, start)| + if start.media[m].deleted.Some? && b.media[m].deleted.None? then 1 else 0
  {
    assert m !in Taken(start, a) && m !in Taken(a, start);
    if start.media[m].deleted.None? && b.media[m].deleted.Some? {
      assert Taken(start, b) == Taken(start, a) + {m};
    } else {
      assert Taken(start, b) == Taken(start, a);
    }
    if start.media[m].deleted.Some? && b.media[m].deleted.None? {
      assert Taken(b, start) == Taken(a, start) + {m};
    } else {
      assert Taken(b, start) == Taken(a, start);
    }
  }

  /** Once i of the rows were swept: the others are as they were, and so is every row not
      judged or not under the folder; and the counts of what changed are right. */
  ghost predicate Swept(start: Db, db: Db, folder: string, rows: seq<int>, i: nat, out: SweepOutcome)
    requires i <= |rows|
  {
    && (forall j :: i <= j < |rows| ==> Untouched(start, db, rows[j]))
    && (forall m :: m in start.media && (m !in rows || !AnyUnder(FilesOf(start, m), folder)) ==> Untouched(start, db, m))
    && out.removed == |Taken(start, db)| && out.revived == |Taken(db, start)|
  }

  /** And, of a sweep that has not stopped, the rows are handled, and counted. */
  ghost predicate Through(start: Db, db: Db, disk: Disk, roots: seq<string>, folder: string, rows: seq<int>, i: nat, out: SweepOutcome)
    requires i <= |rows| && forall m :: m in rows ==> m in start.media && FilesOf(start, m) != []
  {
    && (forall j :: 0 <= j < i ==> rows[j] in db.media && Handled(start, db, disk, roots, folder, rows[j]))
    && out.checked + out.skipped == |UnderAmong(start, folder, rows[..i])|
    && out.projectedMissing == Reports(start, disk, roots, folder, rows[..i])
  }

  ghost predicate RowCounted(start: Db, b: Db, m: int, out0: SweepOutcome, out: SweepOutcome)
    requires m in start.media && m in b.media
  {
    && out.removed == out0.removed + (if start.media[m].deleted.None? && b.media[m].deleted.Some? then 1 else 0)
    && out.revived == out0.revived + (if start.media[m].deleted.Some? && b.media[m].deleted.None? then 1 else 0)
  }

  lemma SweptOne(start: Db, a: Db, b: Db, folder: string, rows: seq<int>, i: nat, out0: SweepOutcome, out: SweepOutcome)
    requires i < |rows| && Swept(start, a, folder, rows, i, out0) && forall j, k :: 0 <= j < k < |rows| ==> rows[j] < rows[k]
    requires rows[i] in b.media && b.media == a.media[rows[i] := b.media[rows[i]]]
    requires !AnyUnder(FilesOf(start, rows[i]), folder) ==> b == a
    requires RowCounted(start, b, rows[i], out0, out)
    ensures Swept(start, b, folder, rows, i + 1, out)
  {
    hide FilesOf, AnyUnder, Taken;
    CountsOne(start, a, b, rows[i]);
  }

  lemma SweptNext(start: Db, db: Db, folder: string, rows: seq<int>, i: nat, out: SweepOutcome)
    requires i < |rows| && Swept(start, db, folder, rows, i, out)
    ensures Untouched(start, db, rows[i])
  {
  }

  lemma SweptFrame(start: Db, db: Db, folder: string, rows: seq<int>, i: nat, out: SweepOutcome)
    requires i <= |rows| && Swept(start, db, folder, rows, i, out)
    ensures forall m :: m in start.media && (m !in rows || !AnyUnder(FilesOf(start, m), folder)) ==>
      m in db.media && db.media[m] == start.media[m]
    ensures out.removed == |Taken(start, db)| && out.revived == |Taken(db, start)|
  {
  }

  lemma ThroughOne(start: Db, a: Db, b: Db, disk: Disk, roots: seq<string>, folder: string, rows: seq<int>, i: nat, out0: SweepOutcome, out: SweepOutcome)
    requires i < |rows| && forall m :: m in rows ==> m in start.media && FilesOf(start, m) != []
    requires Through(start, a, disk, roots, folder, rows, i, out0) && forall j, k :: 0 <= j < k < |rows| ==> rows[j] < rows[k]
    requires rows[i] in b.media && b.media == a.media[rows[i] := b.media[rows[i]]] && Handled(start, b, disk, roots, folder, rows[i])
    requires out.checked + out.skipped == out0.checked + out0.skipped + if AnyUnder(FilesOf(start, rows[i]), folder) then 1 else 0
    requires out.projectedMissing == out0.projectedMissing + ReportOf(start, disk, roots, folder, rows[i])
    ensures Through(start, b, disk, roots, folder, rows, i + 1, out)
  {
    hide FilesOf, AnyUnder, Handled, ReportOf, UnderAmong, Reports;
    UnderOne(start, folder, rows, i);
    ReportsOne(start, disk, roots, folder, rows, i);
    forall j | 0 <= j < i ensures rows[j] in b.media && Handled(start, b, disk, roots, folder, rows[j]) {
      HandledStays(start, a, b, disk, roots, folder, rows[j]);
    }
  }

  lemma SweptNone(db: Db, disk: Disk, roots: seq<string>, folder: string, rows: seq<int>)
    requires forall m :: m in rows ==> m in db.media && FilesOf(db, m) != []
    ensures var out := SweepOutcome(0, 0, 0, 0, []);
      SweptTo(db, db, disk, roots) && Swept(db, db, folder, rows, 0, out) && Through(db, db, disk, roots, folder, rows, 0, out)
  {
    hide FilesOf, AnyUnder;
    CountsNone(db, disk, roots, folder);
    assert rows[..0] == [];
  }

  /** Every row judged was handled and counted. */
  lemma ThroughAll(start: Db, db: Db, disk: Disk, roots: seq<string>, folder: string, section: int, item: int, out: SweepOutcome)
    requires Typed(start.items)
    requires var rows := Sorted(Judged(start, section, item));
      && (forall m :: m in rows ==> m in start.media && FilesOf(start, m) != [])
      && Through(start, db, disk, roots, folder, rows, |rows|, out)
    ensures forall m :: m in Judged(start, section, item) ==> Handled(start, db, disk, roots, folder, m)
    ensures out.checked + out.skipped == |set m | m in Judged(start, section, item) && AnyUnder(FilesOf(start, m), folder)|
    ensures out.projectedMissing == Reports(start, disk, roots, folder, Sorted(Judged(start, section, item)))
  {
    hide FilesOf, AnyUnder, Handled, Judged, Reports, UnderAmong;
    var rows := Sorted(Judged(start, section, item));
    assert rows[..|rows|] == rows;
    UnderAll(start, section, item, folder);
    forall m | m in Judged(start, section, item) ensures Handled(start, db, disk, roots, folder, m) { assert m in rows; }
  }
}
