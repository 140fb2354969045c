/** Plex's library rows as the projection reads and writes them: items in a
    show/season/episode forest, media rows on items, parts on media rows, and
    the watched state keyed by guid.  Every SQL statement of the projection
    is a function from one database value to the next. */
module Library {
  import opened Options
  import opened Sets

  datatype ItemType = Movie | Show | Season | Episode

  /** metadata_items.  An empty `edition` or `hash` is SQL's NULL; `deleted`
      is the time the row was trashed. */
  datatype Item = Item(
    section: int, typ: ItemType, guid: string, edition: string,
    parent: Option<int>, index: Option<int>, count: nat, hash: string,
    deleted: Option<int>, updated: int)

  /** The keys the projection keeps in media_items.extra_data ("" for none). */
  datatype Stamps = Stamps(
    uid: string, seedKey: string, itemKey: string, itemUID: string,
    probeHash: string, seedVersion: string, missing: Option<int>)

  datatype Media = Media(
    section: int, item: int, stamps: Stamps, deleted: Option<int>, updated: int)

  datatype Part = Part(media: int, file: string, deleted: Option<int>, updated: int)

  datatype Setting = Setting(account: int, guid: string, views: int)

  /** The tables.  `next` is above every id in use: an insert takes it. */
  datatype Db = Db(
    items: Items, media: MediaRows, parts: Parts,
    settings: map<int, Setting>, next: int)

  const NO_STAMPS := Stamps("", "", "", "", "", "", None)

  type Items = map<int, Item>
  type MediaRows = map<int, Media>
  type Parts = map<int, Part>

  predicate LiveItem(items: Items, i: int) { i in items && items[i].deleted.None? }

  predicate LiveMedia(media: MediaRows, m: int) { m in media && media[m].deleted.None? }

  /** The live media rows on an item, and its live children. */
  function MediaOn(media: MediaRows, i: int): set<int> {
    set m | m in media && media[m].item == i && media[m].deleted.None?
  }

  function ChildrenOf(items: Items, i: int): set<int> {
    set c | c in items && items[c].parent == Some(i) && items[c].deleted.None?
  }

  /** How much is live on an item or under it. */
  function Live(items: Items, media: MediaRows, i: int): nat {
    |MediaOn(media, i)| + |ChildrenOf(items, i)|
  }

  // ---------------------------------------------------------------------
  // The invariant
  // ---------------------------------------------------------------------

  /** How deep a type sits in the forest. */
  function Depth(t: ItemType): nat {
    match t
    case Movie => 0
    case Show => 0
    case Season => 1
    case Episode => 2
  }

  predicate MayHold(parent: ItemType, child: ItemType) {
    (child == Season && parent == Show) || (child == Episode && parent == Season)
  }

  /** The forest is typed: movies and shows are roots, a season's parent is a
      show, an episode's a season. */
  ghost predicate Typed(items: Items) {
    forall i :: i in items && items[i].parent.Some? ==>
      var p := items[i].parent.value;
      Depth(items[i].typ) > 0 && (p in items ==> MayHold(items[p].typ, items[i].typ))
  }

  ghost predicate Ids(db: Db) {
    && 0 < db.next
    && (forall i :: i in db.items ==>
          0 < i < db.next && (db.items[i].parent.Some? ==> db.items[i].parent.value in db.items))
    && (forall m :: m in db.media ==> 0 < m < db.next && db.media[m].item in db.items)
    && (forall p :: p in db.parts ==> 0 < p < db.next && db.parts[p].media in db.media)
  }

  /** Every live media row is on a live item. */
  ghost predicate MediaHeld(items: Items, media: MediaRows) {
    forall m :: LiveMedia(media, m) ==> LiveItem(items, media[m].item)
  }

  /** Every live item that has a parent is under a live one. */
  ghost predicate ItemsHeld(items: Items) {
    forall i :: LiveItem(items, i) && items[i].parent.Some? ==> LiveItem(items, items[i].parent.value)
  }

  /** media_item_count is the number of live rows, but for the items in `off`. */
  ghost predicate CountsBut(items: Items, media: MediaRows, off: set<int>) {
    forall i :: i in items && i !in off ==> items[i].count == |MediaOn(media, i)|
  }

  /** Some part of media row m was deleted at the given time, or is live. */
  ghost predicate HasPart(parts: Parts, m: int, deleted: Option<int>) {
    exists p :: p in parts && parts[p].media == m && parts[p].deleted == deleted
  }

  /** A live media row has a live part; one the sweep removed has a part that
      went with it. */
  ghost predicate Backed(media: MediaRows, parts: Parts) {
    forall m :: m in media && (media[m].deleted.None? || media[m].stamps.missing.Some?) ==>
      HasPart(parts, m, media[m].deleted)
  }

  predicate SameStamp(a: Media, b: Media) {
    a.section == b.section && a.stamps.uid == b.stamps.uid && a.stamps.uid != ""
  }

  /** No live row carries the sweep's mark, and no two live rows of a section
      the same MediaFile's stamp. */
  ghost predicate Stamped(media: MediaRows) {
    && (forall m :: LiveMedia(media, m) ==> media[m].stamps.missing.None?)
    && (forall m, k :: LiveMedia(media, m) && LiveMedia(media, k) && SameStamp(media[m], media[k]) ==> m == k)
  }

  ghost predicate SoundBut(db: Db, off: set<int>) {
    && Typed(db.items) && Ids(db) && MediaHeld(db.items, db.media) && ItemsHeld(db.items)
    && CountsBut(db.items, db.media, off) && Backed(db.media, db.parts) && Stamped(db.media)
  }

  /** The library between transactions. */
  ghost predicate Sound(db: Db) { SoundBut(db, {}) }

  // ---------------------------------------------------------------------
  // ORDER BY ... LIMIT 1
  // ---------------------------------------------------------------------

  /** A row's place in a query's ORDER BY, most significant first; the last
      component is the row's id, so no two rows tie. */
  datatype Rank = Rank(a: int, b: int, c: int, d: int, id: int) {
    predicate Before(other: Rank) {
      a < other.a || (a == other.a &&
      (b < other.b || (b == other.b &&
      (c < other.c || (c == other.c &&
      (d < other.d || (d == other.d && id <= other.id)))))))
    }
  }

  predicate IsFirst(x: int, rows: set<int>, rank: int -> Rank) {
    x in rows && forall y :: y in rows ==> rank(x).Before(rank(y))
  }

  lemma {:induction false} FirstExists(rows: set<int>, rank: int -> Rank)
    requires |rows| > 0
    ensures exists x :: IsFirst(x, rows, rank)
  {
    var y := Inhabited(rows);
    var rest := rows - {y};
    assert rows == rest + {y};
    if |rest| == 0 {
      assert rows == {y};
      assert IsFirst(y, rows, rank);
    } else {
      FirstExists(rest, rank);
      var x :| IsFirst(x, rest, rank);
      assert IsFirst(if rank(x).Before(rank(y)) then x else y, rows, rank);
    }
  }

  /** The first of `rows` in the order of `rank`. */
  function First(rows: set<int>, rank: int -> Rank): (x: int)
    requires |rows| > 0
    requires forall y :: y in rows ==> rank(y).id == y
    ensures IsFirst(x, rows, rank)
  {
    FirstExists(rows, rank);
    assert forall x, y :: IsFirst(x, rows, rank) && IsFirst(y, rows, rank) ==> rank(x).id == rank(y).id;
    var x :| x in rows && IsFirst(x, rows, rank);
    x
  }

  /** The first row is the only one that leads. */
  lemma FirstIs(x: int, rows: set<int>, rank: int -> Rank)
    requires IsFirst(x, rows, rank)
    requires forall y :: y in rows ==> rank(y).id == y
    ensures |rows| > 0 && First(rows, rank) == x
  {
  }

  /** The order of the ids alone. */
  function IdRank(): int -> Rank { i => Rank(0, 0, 0, 0, i) }

  lemma LeastId(x: int, ids: set<int>)
    requires IsFirst(x, ids, IdRank())
    ensures forall y :: y in ids && y != x ==> x < y
  {
  }

  /** Ids in ascending order. */
  function Sorted(ids: set<int>): (s: seq<int>)
    ensures forall i :: i in s <==> i in ids
    ensures forall i, j :: 0 <= i < j < |s| ==> s[i] < s[j]
    decreases |ids|
  {
    if |ids| == 0 then []
    else
      var x := First(ids, IdRank());
      LeastId(x, ids);
      assert x in ids && forall i :: i in ids <==> i == x || i in ids - {x};
      [x] + Sorted(ids - {x})
  }

  // ---------------------------------------------------------------------
  // Recounting and trashing
  // ---------------------------------------------------------------------

  /** media_item_count := the item's live rows. */
  function CountMedia(items: Items, media: MediaRows, i: int): Items {
    if i in items then items[i := items[i].(count := |MediaOn(media, i)|)] else items
  }

  /** One step of trashIfEmpty: recount the item and, when nothing live is on
      it or under it, soft-delete it. */
  function TrashOne(items: Items, media: MediaRows, i: int, now: int): Items
    requires i in items
  {
    var counted := CountMedia(items, media, i);
    if Live(items, media, i) > 0 then counted
    else counted[i := counted[i].(deleted := Some(now), updated := now)]
  }

  /** How far the walk up from item i can go. */
  ghost function Height(items: Items, i: int): nat {
    if i in items then 1 + Depth(items[i].typ) else 0
  }

  /** trashIfEmpty as a recursion: the item, then its parent if it went. */
  ghost function TrashIfEmpty(items: Items, media: MediaRows, i: int, now: int): Items
    requires Typed(items)
    decreases Height(items, i)
  {
    if i !in items then items
    else
      var next := TrashOne(items, media, i, now);
      if Live(items, media, i) > 0 || items[i].parent.None? then next
      else TrashIfEmpty(next, media, items[i].parent.value, now)
  }

  /** The loop of trashIfEmpty. */
  method TrashWalk(items: Items, media: MediaRows, item: int, now: int) returns (r: Items)
    requires Typed(items)
    ensures r == TrashIfEmpty(items, media, item, now)
  {
    r := items;
    var id := item;
    while id in r
      invariant Typed(r)
      invariant TrashIfEmpty(r, media, id, now) == TrashIfEmpty(items, media, item, now)
      decreases Height(r, id)
    {
      var live, parent := Live(r, media, id), r[id].parent;
      r := CountMedia(r, media, id);
      if live > 0 {
        return;
      }
      r := r[id := r[id].(deleted := Some(now), updated := now)];
      if parent.None? {
        return;
      }
      id := parent.value;
    }
  }

  /** The item and everything above it. */
  function Up(items: Items, i: int): set<int>
    requires Typed(items)
    decreases Height(items, i)
  {
    if i !in items then {}
    else {i} + if items[i].parent.None? then {} else Up(items, items[i].parent.value)
  }

  /** Rows that differ at most in their count, trash mark and update time. */
  predicate SameShape(a: Item, b: Item) {
    b == a.(count := b.count, deleted := b.deleted, updated := b.updated)
  }

  ghost predicate SameForest(a: Items, b: Items) {
    a.Keys == b.Keys && forall i :: i in a ==> SameShape(a[i], b[i])
  }

  lemma {:induction false} UpSame(a: Items, b: Items, i: int)
    requires Typed(a) && Typed(b) && SameForest(a, b)
    ensures Up(a, i) == Up(b, i)
    decreases Height(a, i)
  {
    if i in a && a[i].parent.Some? {
      UpSame(a, b, a[i].parent.value);
    }
  }

  /** trashIfEmpty touches nothing but the count, trash mark and update time of
      the item and the rows above it, and brings nothing back. */
  lemma {:induction false} TrashFrame(items: Items, media: MediaRows, i: int, now: int)
    requires Typed(items)
    ensures var r := TrashIfEmpty(items, media, i, now);
      && Typed(r) && SameForest(items, r)
      && (forall j :: j in items && j !in Up(items, i) ==> r[j] == items[j])
      && (forall j :: LiveItem(r, j) ==> LiveItem(items, j))
    decreases Height(items, i)
  {
    hide Live, MediaOn;
    if i in items && Live(items, media, i) == 0 && items[i].parent.Some? {
      var next := TrashOne(items, media, i, now);
      TrashFrame(next, media, items[i].parent.value, now);
      UpSame(items, next, items[i].parent.value);
    }
  }

  lemma NoneLive(items: Items, media: MediaRows, i: int)
    requires Live(items, media, i) == 0
    ensures forall m :: LiveMedia(media, m) ==> media[m].item != i
    ensures forall c :: LiveItem(items, c) ==> items[c].parent != Some(i)
  {
    forall m | LiveMedia(media, m) ensures media[m].item != i { assert m !in MediaOn(media, i); }
    forall c | LiveItem(items, c) ensures items[c].parent != Some(i) { assert c !in ChildrenOf(items, i); }
  }

  lemma TrashOneSound(db: Db, i: int, now: int)
    requires SoundBut(db, {i}) && i in db.items
    ensures Sound(db.(items := TrashOne(db.items, db.media, i, now)))
  {
    if Live(db.items, db.media, i) == 0 {
      NoneLive(db.items, db.media, i);
    }
    var items := TrashOne(db.items, db.media, i, now);
    assert MediaHeld(items, db.media) && ItemsHeld(items);
    assert CountsBut(items, db.media, {});
  }

  /** Trashing an item whose count alone was stale leaves the library sound:
      what it trashes holds nothing live, and its walk ends, since an item's
      depth in the typed forest drops at each step up. */
  lemma {:induction false} TrashSound(db: Db, i: int, now: int)
    requires SoundBut(db, {i})
    ensures Sound(db.(items := TrashIfEmpty(db.items, db.media, i, now)))
    decreases Height(db.items, i)
  {
    if i in db.items {
      TrashOneSound(db, i, now);
      var next := db.(items := TrashOne(db.items, db.media, i, now));
      if Live(db.items, db.media, i) == 0 && db.items[i].parent.Some? {
        TrashSound(next, db.items[i].parent.value, now);
      }
    }
  }

  /** Above an item there are only shows and seasons. */
  lemma {:induction false} UpTypes(items: Items, i: int, j: int)
    requires Typed(items) && j in Up(items, i) && j != i
    ensures j in items && (items[j].typ == Show || items[j].typ == Season)
    decreases Height(items, i)
  {
    var p := items[i].parent.value;
    if j != p {
      UpTypes(items, p, j);
    }
  }

  /** Above a live item everything is live. */
  lemma {:induction false} UpLive(items: Items, i: int, j: int)
    requires Typed(items) && ItemsHeld(items) && LiveItem(items, i) && j in Up(items, i)
    ensures LiveItem(items, j)
    decreases Height(items, i)
  {
    if j != i {
      UpLive(items, items[i].parent.value, j);
    }
  }
}
