/** Live TV guide loads staged in PostgreSQL (pkg/plex/bootstrap/guides.go, driven by
    cmd/manager/guides.go): one guide, one manager whose steps exclude each other, and
    Plex loading, writing, renaming, failing and being killed at any point between. */
module Guides {
  import opened Options

  /** A row of a guide, with the load that wrote it. */
  datatype Row = Row(load: nat, text: string)

  /** A staging schema's comment; inode 0 when the load file's is not recorded. */
  datatype Mark = Clean | Loading(inode: nat)

  /** The staging schema: what it holds beyond a clone of the library's. */
  datatype Schema = Schema(rows: seq<Row>, mark: Mark)

  /** What a guide or load file is: the database Plex copied and fills, the shadow
      StageLoad put over that, or the shadow a start built for the guide. */
  datatype Kind = Template | Shadow | Built

  /** A file: the load it belongs to (none, when built at a start) and its inode. */
  datatype File = File(load: nat, inode: nat, kind: Kind)

  /** The guide Plex reads: copied from a file, or loaded in PostgreSQL. */
  datatype Live = Nothing | Copied(load: nat) | Loaded(load: nat, rows: seq<Row>)

  /** The schemas, the files and the load Plex runs, with the history the proofs
      speak of: the load staged last, the loads Plex ended to rename, and all that
      each load wrote to PostgreSQL. */
  datatype World = World(
    staging: Option<Schema>, live: Live, loadFile: Option<File>, guideFile: Option<File>, running: Option<nat>,
    staged: nat, finished: set<nat>, wrote: map<nat, seq<Row>>, next: nat)

  const CLONE := Schema([], Clean)

  predicate IsLoading(w: World) { w.staging.Some? && w.staging.value.mark.Loading? }

  /** Plex runs a load whose file is a shadow: what it writes goes to the staging
      schema, whichever has that name. */
  predicate Routed(w: World) {
    w.running.Some? && w.loadFile.Some? && w.loadFile.value.load == w.running.value && w.loadFile.value.kind == Shadow
  }

  /** A new file beside these has an inode none of them has; one that a removed file
      had may come back. */
  predicate FreeInode(inode: nat, beside: Option<File>) {
    inode != 0 && (beside.Some? ==> beside.value.inode != inode)
  }

  // ---------------------------------------------------------------------
  // What the manager's steps may do
  // ---------------------------------------------------------------------

  predicate Prepared(w: World, v: World) {
    v == w || (w.staging.None? && v == w.(staging := Some(CLONE)))
  }

  /** The schema StageLoad marks: a clean one as it is, else a new clone. */
  function Base(w: World): Schema {
    if w.staging.Some? && w.staging.value.mark.Clean? then w.staging.value else CLONE
  }

  /** The load is staged: schema marked loading, a shadow put at its file. */
  predicate Fresh(w: World, v: World) {
    && w.loadFile.Some? && v.loadFile.Some? && v.staging.Some? && v.staging.value.mark.Loading?
    && var load := w.loadFile.value.load; var inode := v.loadFile.value.inode;
       && FreeInode(inode, w.guideFile) && v.staging.value.mark.inode in {0, inode}
       && v == w.(staging := Some(Base(w).(mark := v.staging.value.mark)), staged := load,
                  loadFile := Some(File(load, inode, Shadow)))
  }

  /** A stage that failed before the shadow was put: the schema untouched, gone,
      clean, or marked with the file as it was. */
  predicate Unstaged(w: World, v: World) {
    && w.loadFile.Some?
    && (|| v == w || v == w.(staging := None) || v == w.(staging := Some(Base(w).(mark := Clean)))
        || v == w.(staging := Some(Base(w).(mark := Loading(0))), staged := w.loadFile.value.load))
  }

  predicate AlreadyStaged(w: World) { w.loadFile.Some? && w.loadFile.value.kind == Shadow && IsLoading(w) }

  predicate StagedTo(w: World, v: World) {
    if w.loadFile.None? || AlreadyStaged(w) then v == w else Unstaged(w, v) || Fresh(w, v)
  }

  /** The staging schema renamed into place. */
  function SwapIn(w: World): World
    requires IsLoading(w)
  {
    w.(staging := None, live := Loaded(w.staged, w.staging.value.rows))
  }

  predicate SwappedTo(w: World, v: World) { v == w || (IsLoading(w) && v == SwapIn(w)) }

  /** What the poll may settle: a recorded load whose file is gone. */
  predicate Settles(w: World) {
    IsLoading(w) && w.staging.value.mark.inode != 0 && w.loadFile.None? && w.guideFile.Some?
  }

  predicate Renamed(w: World)
    requires Settles(w)
  {
    w.guideFile.value.inode == w.staging.value.mark.inode
  }

  predicate RecoveredTo(w: World, v: World) {
    || v == w
    || (Settles(w) && (if Renamed(w) then v == SwapIn(w) else v.staging in {None, Some(CLONE)} && v == w.(staging := v.staging)))
  }

  /** A copy of a file that is no shadow: done, or failed with the schema dropped. */
  predicate Taken(w: World, file: Option<File>, v: World) {
    && file.Some? && file.value.kind == Template
    && (v == w.(staging := None, live := Copied(file.value.load)) || v == w.(staging := None))
  }

  predicate ImportedTo(w: World, file: Option<File>, v: World) { v == w || Taken(w, file, v) }

  // ---------------------------------------------------------------------
  // The manager's steps, each call to PostgreSQL or the disk answered by a flag
  // ---------------------------------------------------------------------

  /** Whether each thing a step asks for works. */
  datatype Works = Works(
    read: bool, drop: bool, clone: bool, comment: bool, mark: bool, shadow: bool, unmark: bool, stat: bool, record: bool,
    copy: bool, swap: bool)

  predicate AllWork(ok: Works) {
    && ok.read && ok.drop && ok.clone && ok.mark && ok.shadow && ok.stat && ok.record && ok.copy && ok.swap
  }

  method PrepareStaging(w: World, ok: Works) returns (v: World, made: bool)
    ensures Prepared(w, v)
    ensures made ==> w.staging.None? && v.staging == Some(CLONE)
    ensures AllWork(ok) && ok.comment ==> v.staging.Some?
  {
    v, made := w, false;
    if !ok.read || w.staging.Some? { return; }
    if !ok.clone { return; }
    // The clone is clean without its comment too.
    v := v.(staging := Some(CLONE));
    made := ok.comment;
  }

  /** StageLoad: a request on a load already staged changes nothing; else, when all
      works, the load is staged with its file's inode recorded. */
  method StageLoad(w: World, inode: nat, ok: Works) returns (v: World, staged: bool)
    requires FreeInode(inode, w.guideFile)
    ensures StagedTo(w, v)
    ensures AllWork(ok) && ok.comment && w.loadFile.Some? ==>
      staged == !AlreadyStaged(w) && v.loadFile.Some? && v.loadFile.value.kind == Shadow && IsLoading(v)
    ensures staged ==> Fresh(w, v) && v.staging.value.mark.inode == v.loadFile.value.inode
  {
    v, staged := w, false;
    if w.loadFile.None? || !ok.read { return; }
    var file := w.loadFile.value;
    if file.kind == Shadow && IsLoading(w) { return; }
    if IsLoading(v) {
      if !ok.drop { return; }
      v := v.(staging := None);
    }
    if v.staging.None? {
      if !ok.clone { return; }
      v := v.(staging := Some(CLONE));
      if !ok.comment { return; }
    }
    if !ok.mark { return; }
    v := v.(staging := Some(v.staging.value.(mark := Loading(0))), staged := file.load);
    if !ok.shadow {
      if ok.unmark {
        v := v.(staging := Some(v.staging.value.(mark := Clean)), staged := w.staged);
      }
      return;
    }
    v := v.(loadFile := Some(File(file.load, inode, Shadow)));
    if !ok.stat || !ok.record { return; }
    v := v.(staging := Some(v.staging.value.(mark := Loading(inode))));
    staged := true;
  }

  method SwapLoaded(w: World, ok: Works) returns (v: World, done: bool)
    ensures SwappedTo(w, v)
    ensures done ==> IsLoading(w) && v == SwapIn(w)
    ensures !done ==> v == w
    ensures AllWork(ok) ==> done == IsLoading(w)
  {
    v, done := w, false;
    if !ok.read || !IsLoading(w) { return; }
    if !ok.swap { return; }
    v := v.(live := Loaded(v.staged, v.staging.value.rows), staging := None);
    done := true;
  }

  method RecoverLoads(w: World, ok: Works) returns (v: World, swapped: bool)
    ensures RecoveredTo(w, v)
    ensures swapped ==> Settles(w) && Renamed(w) && v == SwapIn(w)
    ensures AllWork(ok) && Settles(w) ==> swapped == Renamed(w) && !IsLoading(v)
  {
    v, swapped := w, false;
    if !ok.read || !IsLoading(w) || w.staging.value.mark.inode == 0 { return; }
    if w.loadFile.Some? { return; }
    if w.guideFile.None? { return; }
    if w.guideFile.value.inode != w.staging.value.mark.inode {
      if !ok.drop { return; }
      v := v.(staging := None);
      if !ok.clone { return; }
      v := v.(staging := Some(CLONE));
      return;
    }
    v, swapped := SwapLoaded(v, ok);
  }

  /** ImportGuide finds a load to copy. */
  predicate Copies(w: World, file: Option<File>, airings: seq<Row>, newer: bool, ok: Works) {
    && file.Some? && file.value.kind == Template && airings != [] && newer && ok.read
    && (w.staging.Some? || ok.clone)
  }

  /** ImportGuide of a file that holds these airings, modified after the guide was
      loaded or not.  A clean schema is left holding rows exactly when the copy is
      committed, the swap fails and so does the drop after it. */
  method ImportGuide(w: World, file: Option<File>, airings: seq<Row>, newer: bool, ok: Works) returns (v: World, copied: bool)
    ensures ok.drop ==> ImportedTo(w, file, v)
    ensures copied == (Copies(w, file, airings, newer, ok) && ok.copy && ok.swap)
    ensures copied ==> file.Some? && v == w.(staging := None, live := Copied(file.value.load))
    ensures !copied ==> v == w.(staging := v.staging)
    ensures CleanIsFresh(w) ==>
      (CleanIsFresh(v) <==>
       !(Copies(w, file, airings, newer, ok) && ok.copy && !ok.swap && !ok.drop && !IsLoading(w)))
  {
    v, copied := w, false;
    if file.None? || !ok.read { return; }
    // A shadow holds none.
    if file.value.kind != Template || airings == [] { return; }
    if !newer { return; }
    if v.staging.None? {
      if !ok.clone { return; }
      v := v.(staging := Some(CLONE));
    }
    if ok.copy {
      v := v.(staging := Some(v.staging.value.(rows := airings)));
      if ok.swap {
        v := v.(live := Copied(file.value.load), staging := None);
        copied := true;
        return;
      }
    }
    if ok.drop {
      v := v.(staging := None);
    }
  }

  // ---------------------------------------------------------------------
  // Plex's steps
  // ---------------------------------------------------------------------

  /** Plex copies its template to the load file; a load it ran before is abandoned
      and writes no more. */
  predicate Began(w: World, v: World) {
    && v.loadFile.Some?
    && var inode := v.loadFile.value.inode;
       && FreeInode(inode, w.guideFile)
       && v == w.(loadFile := Some(File(w.next, inode, Template)), running := Some(w.next), wrote := w.wrote[w.next := []], next := w.next + 1)
  }

  /** A row written by a routed load. */
  function Write(w: World, text: string): World
    requires Routed(w) && w.staging.Some? && w.running.value in w.wrote
  {
    var row := Row(w.running.value, text);
    w.(staging := Some(w.staging.value.(rows := w.staging.value.rows + [row])),
       wrote := w.wrote[row.load := w.wrote[row.load] + [row]])
  }

  predicate WroteRow(w: World, v: World) {
    && Routed(w) && w.staging.Some? && w.running.value in w.wrote && v.staging.Some? && |v.staging.value.rows| > 0
    && v == Write(w, v.staging.value.rows[|v.staging.value.rows| - 1].text)
  }

  /** Plex closes the load, to rename it. */
  predicate Ended(w: World, v: World) {
    w.running.Some? && v == w.(running := None, finished := w.finished + {w.running.value})
  }

  predicate Moved(w: World, v: World) {
    && w.loadFile.Some? && w.loadFile.value.load in w.finished
    && v == w.(guideFile := w.loadFile, loadFile := None)
  }

  /** The load failed and its file was removed, or Plex was killed. */
  predicate Stopped(w: World, v: World) { v == w.(running := None, loadFile := v.loadFile) && v.loadFile in {None, w.loadFile} }

  /** A start, before Plex runs: load files and staging schemas go, and the guide's
      file is removed and built anew; each may fail. */
  predicate Restarted(w: World, v: World) {
    && w.running.None?
    && v.staging in {None, w.staging} && v.loadFile in {None, w.loadFile}
    && (v.guideFile in {None, w.guideFile} || (v.guideFile.value.kind == Built && FreeInode(v.guideFile.value.inode, v.loadFile)))
    && v == w.(staging := v.staging, loadFile := v.loadFile, guideFile := v.guideFile)
  }

  // ---------------------------------------------------------------------
  // Runs
  // ---------------------------------------------------------------------

  /** A stage is asked by the load that runs, a swap by one Plex has closed. */
  predicate Asked(w: World, v: World) {
    || (w.running.Some? && StagedTo(w, v))
    || (w.loadFile.Some? && w.loadFile.value.load in w.finished &&
        if w.loadFile.value.kind == Shadow then SwappedTo(w, v) else ImportedTo(w, w.loadFile, v))
  }

  predicate PlexStep(w: World, v: World) {
    Began(w, v) || WroteRow(w, v) || Ended(w, v) || Moved(w, v) || Stopped(w, v) || Restarted(w, v)
  }

  /** Every step, the poll's copy of the guide file at any time among them. */
  predicate Step(w: World, v: World) {
    PlexStep(w, v) || Asked(w, v) || Prepared(w, v) || RecoveredTo(w, v) || ImportedTo(w, w.guideFile, v)
  }

  /** The poll does not swap in a load on the evidence of a guide file that is not a
      shadow put over a load: one with the recorded inode by reuse. */
  predicate CarefulRecovery(w: World, v: World) {
    RecoveredTo(w, v) && (Settles(w) && Renamed(w) && v != w ==> w.guideFile.value.kind == Shadow)
  }

  /** The steps without a copy that takes the schema a load is being written to, and
      without such a swap. */
  predicate CarefulStep(w: World, v: World) {
    PlexStep(w, v) || Asked(w, v) || Prepared(w, v) || CarefulRecovery(w, v) || (!Routed(w) && ImportedTo(w, w.guideFile, v))
  }

  ghost predicate Run(run: seq<World>) { |run| > 0 && forall i :: 0 <= i < |run| - 1 ==> Step(run[i], run[i + 1]) }

  ghost predicate CarefulRun(run: seq<World>) {
    |run| > 0 && forall i :: 0 <= i < |run| - 1 ==> CarefulStep(run[i], run[i + 1])
  }

  predicate AtStart(w: World) {
    && w.staging.None? && w.loadFile.None? && w.running.None? && w.finished == {} && w.wrote == map[] && w.next == 0
    && !w.live.Loaded? && w.guideFile.None?
  }

  /** A clean staging schema is a fresh clone. */
  predicate CleanIsFresh(w: World) { w.staging.Some? && w.staging.value.mark.Clean? ==> w.staging.value.rows == [] }

  /** The guide a swap made live is all that one load wrote, a load Plex ended. */
  predicate LiveIsOneLoad(w: World) {
    w.live.Loaded? ==> w.live.load in w.finished && w.live.load in w.wrote && w.live.rows == w.wrote[w.live.load]
  }

  // ---------------------------------------------------------------------
  // What every careful step keeps
  // ---------------------------------------------------------------------

  /** The staging schema marked loading holds all that the load staged last wrote. */
  predicate StagedGood(w: World) {
    IsLoading(w) ==> w.staged in w.wrote && w.staging.value.rows == w.wrote[w.staged]
  }

  predicate FileGood(w: World) {
    w.loadFile.Some? ==>
      var f := w.loadFile.value;
      && f.inode != 0 && f.kind != Built && f.load in w.wrote && (f.kind == Template ==> w.wrote[f.load] == [])
      && (f.kind == Shadow && IsLoading(w) ==> f.load == w.staged && w.staging.value.mark.inode in {0, f.inode})
      && (w.guideFile.Some? ==> w.guideFile.value.inode != f.inode)
  }

  predicate RunningGood(w: World) {
    w.running.Some? ==>
      && w.loadFile.Some? && w.loadFile.value.load == w.running.value && w.running.value !in w.finished
      && (w.loadFile.value.kind == Shadow ==> IsLoading(w))
  }

  /** The guide file is a load Plex ended, or built; a shadow with the recorded inode
      is the staged load's. */
  predicate GuideGood(w: World) {
    w.guideFile.Some? ==>
      var g := w.guideFile.value;
      && g.inode != 0 && (g.kind != Built ==> g.load in w.finished)
      && (g.kind == Shadow && IsLoading(w) && g.inode == w.staging.value.mark.inode ==> g.load == w.staged)
  }

  /** Once the staged load's inode is recorded, its file is a shadow wherever it is. */
  predicate ShadowGood(w: World) {
    IsLoading(w) && w.staging.value.mark.inode != 0 ==>
      && (w.loadFile.Some? && w.loadFile.value.kind == Template ==> w.loadFile.value.load != w.staged)
      && (w.guideFile.Some? && w.guideFile.value.kind == Template ==> w.guideFile.value.load != w.staged)
  }

  predicate Good(w: World) {
    && CleanIsFresh(w) && LiveIsOneLoad(w) && StagedGood(w) && FileGood(w) && RunningGood(w) && GuideGood(w) && ShadowGood(w)
    && (forall l :: l in w.wrote ==> l < w.next) && (forall l :: l in w.finished ==> l in w.wrote)
  }

  lemma LoadKeeps(w: World, v: World)
    requires Good(w) && (Began(w, v) || WroteRow(w, v) || Ended(w, v))
    ensures Good(v)
  {
  }

  lemma PlexKeeps(w: World, v: World)
    requires Good(w) && PlexStep(w, v)
    ensures Good(v)
  {
    if Began(w, v) || WroteRow(w, v) || Ended(w, v) { LoadKeeps(w, v); }
  }

  lemma AskedKeeps(w: World, v: World)
    requires Good(w) && Asked(w, v)
    ensures Good(v)
  {
  }

  lemma ManagerKeeps(w: World, v: World)
    requires Good(w)
    requires Asked(w, v) || Prepared(w, v) || CarefulRecovery(w, v) || (!Routed(w) && ImportedTo(w, w.guideFile, v))
    ensures Good(v)
  {
    hide Asked;
    if Asked(w, v) { AskedKeeps(w, v); }
  }

  /** Over every careful run a clean staging schema is a fresh clone, and what is
      swapped in is a clone with exactly the rows of one load, which Plex ended. */
  lemma {:induction false} EveryGuideIsOneLoad(run: seq<World>)
    requires CarefulRun(run) && (AtStart(run[0]) || Good(run[0]))
    ensures Good(run[|run| - 1]) && CleanIsFresh(run[|run| - 1]) && LiveIsOneLoad(run[|run| - 1])
    decreases |run|
  {
    var n := |run| - 1;
    if n > 0 {
      var before := run[..n];
      assert CarefulRun(before) by {
        forall i | 0 <= i < |before| - 1 ensures CarefulStep(before[i], before[i + 1]) {
          assert CarefulStep(run[i], run[i + 1]);
        }
      }
      EveryGuideIsOneLoad(before);
      assert CarefulStep(run[n - 1], run[n - 1 + 1]);
      if PlexStep(run[n - 1], run[n]) {
        PlexKeeps(run[n - 1], run[n]);
      } else {
        ManagerKeeps(run[n - 1], run[n]);
      }
    }
  }

  /** What is live is the load whose file Plex made the guide's, whole. */
  predicate LiveIsTheGuide(w: World) {
    && w.live.Loaded? && LiveIsOneLoad(w)
    && w.guideFile.Some? && w.guideFile.value.kind != Built && w.guideFile.value.load == w.live.load
  }

  /** The poll swaps in the load Plex renamed onto the guide exactly when the file it
      finds there with the recorded inode is a shadow put over a load; else the inode
      is one used again. */
  lemma PollIsRightExactly(w: World)
    requires Good(w) && Settles(w) && Renamed(w)
    ensures w.guideFile.value.kind == Shadow <==> LiveIsTheGuide(SwapIn(w))
  {
  }

  /** The rename carries the staged load's inode, so the poll finds it. */
  lemma RenameIsEvidence(w: World, v: World)
    requires Good(w) && Moved(w, v) && w.loadFile.value.kind == Shadow && IsLoading(w) && w.staging.value.mark.inode != 0
    ensures Settles(v) && Renamed(v) && v.staged == w.loadFile.value.load
  {
  }

  // ---------------------------------------------------------------------
  // The copy that takes a schema being loaded
  // ---------------------------------------------------------------------

  /** After the poll's copy took the schema of a running load: the schema is made
      again, clean, and the load writes on into it; its own swap finds no load; the
      next load is staged onto the rows left there, and both go live. */
  lemma TakenUnderALoad(w: World, v: World) returns (run: seq<World>)
    requires Good(w) && Routed(w) && Taken(w, w.guideFile, v)
    ensures Run(run) && run[0] == v && |run| == 10
    ensures run[2].staging.Some? && !CleanIsFresh(run[2])
    ensures run[9].live.Loaded? && exists row :: row in run[9].live.rows && row.load != run[9].live.load
  {
    hide *;
    RoutedRuns(w);
    var made, wrote, closed, moved := LateRow(w, v);
    var begun, marked, filled, ended, live := StagedOnto(moved, w.running.value);
    run := [v, made, wrote, closed, moved, begun, marked, filled, ended, live];
    IsRun(run);
  }

  lemma RoutedRuns(w: World)
    requires Routed(w)
    ensures w.running.Some?
  {
  }

  lemma LateRow(w: World, v: World) returns (made: World, wrote: World, closed: World, moved: World)
    requires Good(w) && Routed(w) && Taken(w, w.guideFile, v)
    ensures Step(v, made) && Step(made, wrote) && Step(wrote, closed) && Step(closed, moved)
    ensures CarefulStep(v, made) && CarefulStep(made, wrote) && wrote.staging.Some? && !CleanIsFresh(wrote)
    ensures moved.staging == Some(Schema([Row(w.running.value, "late")], Clean)) && w.running.value < moved.next
    ensures moved.loadFile.None? && moved.running.None?
  {
    var l := w.running.value;
    made := v.(staging := Some(CLONE));
    wrote := Write(made, "late");
    assert wrote.staging.value.rows == [Row(l, "late")];
    closed := wrote.(running := None, finished := wrote.finished + {l});
    moved := closed.(guideFile := closed.loadFile, loadFile := None);
  }

  lemma StagedOnto(w: World, l: nat) returns (begun: World, marked: World, filled: World, ended: World, live: World)
    requires w.staging == Some(Schema([Row(l, "late")], Clean)) && l < w.next && w.loadFile.None? && w.running.None?
    ensures Step(w, begun) && Step(begun, marked) && Step(marked, filled) && Step(filled, ended) && Step(ended, live)
    ensures live.live.Loaded? && exists row :: row in live.live.rows && row.load != live.live.load
  {
    var inode := 1 + if w.guideFile.Some? then w.guideFile.value.inode else 0;
    begun := w.(loadFile := Some(File(w.next, inode, Template)), running := Some(w.next), wrote := w.wrote[w.next := []], next := w.next + 1);
    marked := begun.(staging := Some(Schema([Row(l, "late")], Loading(inode))), staged := w.next,
      loadFile := Some(File(w.next, inode, Shadow)));
    assert Began(w, begun) && Fresh(begun, marked);
    filled := Write(marked, "new");
    assert filled.staging.value.rows == [Row(l, "late"), Row(w.next, "new")];
    ended := filled.(running := None, finished := filled.finished + {w.next});
    live := SwapIn(ended);
    assert live.live.rows[0] in live.live.rows;
  }

  lemma IsRun(run: seq<World>)
    requires |run| == 10
    requires Step(run[0], run[1]) && Step(run[1], run[2]) && Step(run[2], run[3]) && Step(run[3], run[4]) && Step(run[4], run[5])
    requires Step(run[5], run[6]) && Step(run[6], run[7]) && Step(run[7], run[8]) && Step(run[8], run[9])
    ensures Run(run)
  {
  }

  /** A copy of the guide file that takes the staging schema keeps every later run
      clean exactly when no routed load is running. */
  lemma CopyIsSafeExactly(w: World, v: World)
    requires Good(w) && Taken(w, w.guideFile, v)
    ensures !Routed(w) <==>
      forall run :: CarefulRun(run) && run[0] == v ==> CleanIsFresh(run[|run| - 1])
  {
    if Routed(w) {
      var made, wrote, closed, moved := LateRow(w, v);
      var run := [v, made, wrote];
      assert CarefulRun(run) by { hide CarefulStep; }
      assert run[0] == v && run[|run| - 1] == wrote;
    } else {
      ManagerKeeps(w, v);
      forall run | CarefulRun(run) && run[0] == v ensures CleanIsFresh(run[|run| - 1]) {
        EveryGuideIsOneLoad(run);
      }
    }
  }

  // ---------------------------------------------------------------------
  // The inode used again
  // ---------------------------------------------------------------------

  /** A staged load fails and its file is removed; the next load, which could not be
      staged, gets the inode, ends and is renamed; the poll takes it for the staged
      one.  Whatever the failed load wrote is live. */
  lemma InodeReused(w: World) returns (run: seq<World>)
    requires Good(w) && Routed(w) && w.staging.value.mark.inode != 0
    ensures Run(run) && run[0] == w && |run| == 6
    ensures run[5].live == Loaded(w.running.value, w.staging.value.rows) && !LiveIsOneLoad(run[5])
    ensures Settles(run[4]) && Renamed(run[4]) && run[4].guideFile.value.kind == Template
  {
    var inode := w.staging.value.mark.inode;
    var failed := w.(running := None, loadFile := None);
    var begun := failed.(loadFile := Some(File(w.next, inode, Template)), running := Some(w.next),
      wrote := w.wrote[w.next := []], next := w.next + 1);
    var ended := begun.(running := None, finished := begun.finished + {w.next});
    var moved := ended.(guideFile := ended.loadFile, loadFile := None);
    var live := SwapIn(moved);
    assert Stopped(w, failed) && Began(failed, begun) && Ended(begun, ended) && Moved(ended, moved) && RecoveredTo(moved, live);
    run := [w, failed, begun, ended, moved, live];
  }

  // ---------------------------------------------------------------------
  // Both, from the start
  // ---------------------------------------------------------------------

  const START := World(None, Nothing, None, None, None, 0, {}, map[], 0)

  /** A load made in SQLite is renamed onto the guide, its copy failing; the next is
      staged. */
  lemma LoadIsRouted() returns (run: seq<World>)
    ensures CarefulRun(run) && AtStart(run[0]) && |run| == 6
    ensures Good(run[5]) && Routed(run[5]) && run[5].staging.value.mark.inode != 0
    ensures run[5].guideFile.Some? && run[5].guideFile.value.kind == Template
  {
    var begun := START.(loadFile := Some(File(0, 1, Template)), running := Some(0), wrote := map[0 := []], next := 1);
    var ended := begun.(running := None, finished := {0});
    var moved := ended.(guideFile := ended.loadFile, loadFile := None);
    var again := moved.(loadFile := Some(File(1, 2, Template)), running := Some(1), wrote := map[0 := [], 1 := []], next := 2);
    var staged := again.(staging := Some(Schema([], Loading(3))), staged := 1, loadFile := Some(File(1, 3, Shadow)));
    assert Began(START, begun) && Ended(begun, ended) && Moved(ended, moved) && Began(moved, again) && Fresh(again, staged);
    run := [START, begun, ended, moved, again, staged];
  }

  lemma Joined(a: seq<World>, b: seq<World>)
    requires Run(a) && Run(b) && Step(a[|a| - 1], b[0])
    ensures Run(a + b)
  {
    hide Step;
    var run := a + b;
    forall i | 0 <= i < |run| - 1 ensures Step(run[i], run[i + 1]) {
      if i >= |a| { assert run[i] == b[i - |a|] && run[i + 1] == b[i - |a| + 1]; }
    }
  }

  lemma CarefulIsRun(run: seq<World>)
    requires CarefulRun(run)
    ensures Run(run)
  {
  }

  /** From the start, the poll's copy under a load puts rows of two loads live. */
  lemma TwoLoadsGoLive() returns (run: seq<World>)
    ensures Run(run) && AtStart(run[0]) && var w := run[|run| - 1];
      w.live.Loaded? && exists row :: row in w.live.rows && row.load != w.live.load
  {
    hide Run, Step, Good, CarefulRun;
    var before := LoadIsRouted();
    CarefulIsRun(before);
    var w := before[5];
    var v := w.(staging := None);
    assert Step(w, v) by { StepTaken(w, v); }
    var after := TakenUnderALoad(w, v);
    Joined(before, after);
    run := before + after;
  }

  lemma StepTaken(w: World, v: World)
    requires Taken(w, w.guideFile, v)
    ensures Step(w, v)
  {
  }

  /** From the start, an inode used again puts a load live that Plex never ended. */
  lemma FailedLoadGoesLive() returns (run: seq<World>)
    ensures Run(run) && AtStart(run[0]) && !LiveIsOneLoad(run[|run| - 1])
  {
    hide Run, Step, Good, CarefulRun, LiveIsOneLoad;
    var before := LoadIsRouted();
    CarefulIsRun(before);
    var after := InodeReused(before[5]);
    assert Step(before[5], before[5]) by { StepNone(before[5]); }
    Joined(before, after);
    run := before + after;
  }

  lemma StepNone(w: World)
    ensures Step(w, w)
  {
  }
}
