/** Guids with and without a movie's edition (pkg/plexproject/guid.go). */
module Guids {
  const EDITION_MARKER := "/edition/"

  predicate MarkerAt(s: string, i: int) {
    0 <= i <= |s| - |EDITION_MARKER| && s[i..i + |EDITION_MARKER|] == EDITION_MARKER
  }

  /** The first marker at or after i, or -1. */
  function MarkerFrom(s: string, i: nat): (r: int)
    requires i <= |s|
    ensures r == -1 ==> forall j :: i <= j ==> !MarkerAt(s, j)
    ensures r != -1 ==> i <= r && MarkerAt(s, r) && forall j :: i <= j < r ==> !MarkerAt(s, j)
    decreases |s| - i
  {
    if MarkerAt(s, i) then i
    else if i == |s| then -1
    else MarkerFrom(s, i + 1)
  }

  predicate HasEdition(guid: string) { MarkerFrom(guid, 0) >= 0 }

  /** The guid without its edition. */
  function BaseGUID(guid: string): (base: string)
    ensures base <= guid
    ensures !HasEdition(base)
    ensures base == guid <==> !HasEdition(guid)
    ensures base != guid ==> MarkerAt(guid, |base|) && forall j :: 0 <= j < |base| ==> !MarkerAt(guid, j)
  {
    var i := MarkerFrom(guid, 0);
    if i < 0 then guid
    else
      assert forall j :: MarkerAt(guid[..i], j) ==> MarkerAt(guid, j) by {
        forall j | MarkerAt(guid[..i], j) ensures MarkerAt(guid, j) {
          assert guid[..i][j..j + |EDITION_MARKER|] == guid[j..j + |EDITION_MARKER|];
        }
      }
      guid[..i]
  }
}

/** The item chain of a file: finding, keying, placing and inserting its rows
    (pkg/plexproject/items.go). */
module ItemChain {
  import opened Options
  import opened Library
  import opened Guids

  /** One row of a chain, top down.  `prior` is the guid the row had before its
      Plex id was known, "" for none. */
  datatype Node = Node(typ: ItemType, uid: string, guid: string, prior: string, edition: string, index: int)

  /** The chains the resolver builds: a movie, or a show, a season and an
      episode, of which only a movie carries an edition. */
  ghost predicate Resolved(chain: seq<Node>) {
    || (|chain| == 1 && chain[0].typ == Movie)
    || (|chain| == 3 && chain[0].typ == Show && chain[1].typ == Season && chain[2].typ == Episode
        && forall i :: 0 <= i < 3 ==> Plain(chain[i]))
  }

  predicate Plain(n: Node) { n.edition == "" && !HasEdition(n.guid) }

  // ---------------------------------------------------------------------
  // Finding a node's row
  // ---------------------------------------------------------------------

  /** The guids a node's row may carry, its own first. */
  function Keys(n: Node): seq<string> {
    [BaseGUID(n.guid)] + if n.prior == "" then [] else [BaseGUID(n.prior)]
  }

  /** array_position with NULLS LAST. */
  function Position(s: string, keys: seq<string>): nat {
    if keys == [] || keys[0] == s then 0 else 1 + Position(s, keys[1..])
  }

  function Place(n: Node): Option<int> {
    if n.typ == Season || n.typ == Episode then Some(n.index) else None
  }

  /** The WHERE clause of locate. */
  predicate Matches(it: Item, section: int, parent: Option<int>, n: Node) {
    && it.section == section && it.typ == n.typ
    && if n.typ == Movie then BaseGUID(it.guid) in Keys(n)
       else it.guid in Keys(n) || (parent.Some? && Place(n).Some? && it.parent == parent && it.index == Place(n))
  }

  /** Its ORDER BY: live rows first, then the node's own guid, then the order
      of the keys, then the latest trashed, then the id. */
  function RankOf(it: Item, id: int, n: Node): Rank {
    Rank(if it.deleted.Some? then 1 else 0,
         if n.typ == Movie && it.guid != n.guid then 1 else 0,
         Position(if n.typ == Movie then BaseGUID(it.guid) else it.guid, Keys(n)),
         if it.deleted.Some? then -it.deleted.value else 0,
         id)
  }

  function RankIn(items: Items, n: Node): int -> Rank {
    i => if i in items then RankOf(items[i], i, n) else Rank(0, 0, 0, 0, i)
  }

  function Candidates(items: Items, section: int, parent: Option<int>, n: Node): set<int> {
    set i | i in items && Matches(items[i], section, parent, n)
  }

  /** The first candidate, when there is one. */
  function Locate(items: Items, section: int, parent: Option<int>, n: Node): (r: Option<int>)
    ensures r.Some? ==> r.value in items && Matches(items[r.value], section, parent, n)
    ensures r.None? <==> Candidates(items, section, parent, n) == {}
    ensures r.Some? ==> IsFirst(r.value, Candidates(items, section, parent, n), RankIn(items, n))
  {
    var rows := Candidates(items, section, parent, n);
    if |rows| == 0 then None else Some(First(rows, RankIn(items, n)))
  }

  /** The row EnsureChain works on: the located one, unless it is trashed or
      missing while the hinted row, the one the file hangs off, is live. */
  function Choose(items: Items, section: int, parent: Option<int>, n: Node, hint: int): (r: Option<int>)
    ensures r.Some? ==> r.value in items && items[r.value].section == section && items[r.value].typ == n.typ
  {
    var found := Locate(items, section, parent, n);
    if hint != 0
       && (found.None? || (items[found.value].deleted.Some? && found.value != hint))
       && LiveItem(items, hint) && items[hint].section == section && items[hint].typ == n.typ
    then Some(hint) else found
  }

  /** What a node's row is known by: its guid, less a movie's edition, is the node's or
      its prior one; or it has a season's or an episode's place under the parent. */
  predicate Known(it: Item, section: int, parent: Option<int>, n: Node) {
    var key := if n.typ == Movie then BaseGUID(it.guid) else it.guid;
    && it.section == section && it.typ == n.typ
    && (|| key == BaseGUID(n.guid) || (n.prior != "" && key == BaseGUID(n.prior))
        || (n.typ in {Season, Episode} && parent.Some? && it.parent == parent && it.index == Some(n.index)))
  }

  /** By which of them: the node's guid, the prior one, or the place. */
  function KnownBy(it: Item, n: Node): nat {
    var key := if n.typ == Movie then BaseGUID(it.guid) else it.guid;
    if key == BaseGUID(n.guid) then 0 else if n.prior != "" && key == BaseGUID(n.prior) then 1 else 2
  }

  /** Row x is taken before row y: live ones first, then a movie of exactly the node's
      guid, then by what they are known by, the latest trashed, the lowest id. */
  predicate TakenBefore(a: Item, x: int, b: Item, y: int, n: Node) {
    if a.deleted.None? != b.deleted.None? then a.deleted.None?
    else if n.typ == Movie && (a.guid == n.guid) != (b.guid == n.guid) then a.guid == n.guid
    else if KnownBy(a, n) != KnownBy(b, n) then KnownBy(a, n) < KnownBy(b, n)
    else if a.deleted.Some? && b.deleted.Some? && a.deleted != b.deleted then a.deleted.value > b.deleted.value
    else x <= y
  }

  lemma MatchesKnown(it: Item, section: int, parent: Option<int>, n: Node)
    ensures Matches(it, section, parent, n) <==> Known(it, section, parent, n)
  {
    hide BaseGUID;
  }

  lemma RankTaken(a: Item, x: int, b: Item, y: int, section: int, parent: Option<int>, n: Node)
    requires RankOf(a, x, n).Before(RankOf(b, y, n))
    requires Known(a, section, parent, n) && Known(b, section, parent, n)
    ensures TakenBefore(a, x, b, y, n)
  {
    hide BaseGUID;
    var ka, kb := (if n.typ == Movie then BaseGUID(a.guid) else a.guid), (if n.typ == Movie then BaseGUID(b.guid) else b.guid);
    KeyPlaces(ka, n);
    KeyPlaces(kb, n);
  }

  lemma KeyPlaces(key: string, n: Node)
    ensures Position(key, Keys(n)) ==
      if key == BaseGUID(n.guid) then 0 else if n.prior == "" then 1 else if key == BaseGUID(n.prior) then 1 else 2
  {
    hide BaseGUID;
    var keys := Keys(n);
    if n.prior != "" {
      assert keys[1..] == [BaseGUID(n.prior)] && [BaseGUID(n.prior)][1..] == [];
      assert Position(key, [BaseGUID(n.prior)]) == if key == BaseGUID(n.prior) then 0 else 1 + Position(key, []);
    } else {
      assert keys[1..] == [];
    }
  }

  /** locate finds a row exactly when one is known for the node's, and of those the first. */
  lemma LocateFinds(items: Items, section: int, parent: Option<int>, n: Node)
    ensures var r := Locate(items, section, parent, n);
      && (r.None? <==> forall y :: y in items ==> !Known(items[y], section, parent, n))
      && (r.Some? ==>
            && r.value in items && Known(items[r.value], section, parent, n)
            && forall y :: y in items && Known(items[y], section, parent, n) ==>
                 TakenBefore(items[r.value], r.value, items[y], y, n))
  {
    hide Matches, Known, RankOf, TakenBefore;
    forall y | y in items ensures Matches(items[y], section, parent, n) <==> Known(items[y], section, parent, n) {
      MatchesKnown(items[y], section, parent, n);
    }
    var r := Locate(items, section, parent, n);
    if r.Some? {
      var x := r.value;
      forall y | y in items && Known(items[y], section, parent, n) ensures TakenBefore(items[x], x, items[y], y, n) {
        assert y in Candidates(items, section, parent, n);
        assert RankIn(items, n)(x).Before(RankIn(items, n)(y));
        RankTaken(items[x], x, items[y], y, section, parent, n);
      }
    } else {
      forall y | y in items ensures !Known(items[y], section, parent, n) { assert y !in Candidates(items, section, parent, n); }
    }
  }

  // ---------------------------------------------------------------------
  // Keying and placing it
  // ---------------------------------------------------------------------

  /** The guid keyItem gives a row: the node's, unless the row has the same
      edition already, in Plex's own escaping. */
  function KeyGuid(it: Item, n: Node): string {
    if it.edition == n.edition && BaseGUID(it.guid) == BaseGUID(n.guid) && HasEdition(it.guid) == (n.edition != "")
    then it.guid else n.guid
  }

  function Keyed(it: Item, n: Node, now: int, bundle: string -> string): Item {
    var guid := KeyGuid(it, n);
    if guid == it.guid && it.edition == n.edition && it.deleted.None? then it
    else it.(guid := guid, edition := n.edition, deleted := None, updated := now,
             hash := if guid != it.guid && it.hash != "" then bundle(guid) else it.hash)
  }

  function Placed(it: Item, parent: Option<int>, n: Node, now: int): Item {
    if it.parent == parent && it.index == Place(n) then it
    else it.(parent := parent, index := Place(n), updated := now)
  }

  function NewItem(section: int, parent: Option<int>, n: Node, now: int): Item {
    Item(section, n.typ, n.guid, n.edition, parent, Place(n), 0, "", None, now)
  }

  predicate Keeps(settings: map<int, Setting>, account: int, guid: string) {
    exists s :: s in settings && settings[s].account == account && settings[s].guid == guid
  }

  /** The watched state keyed by `from` moves to `to`, but for an account that
      has its own there. */
  function MoveWatchState(settings: map<int, Setting>, from: string, to: string): map<int, Setting> {
    map s | s in settings ::
      if settings[s].guid == from && !Keeps(settings, settings[s].account, to)
      then settings[s].(guid := to) else settings[s]
  }

  /** Re-keying loses no account's watched state: whoever had one under the
      old guid has one under the new, nobody's view count changes, and what an
      account already had under the new guid it keeps. */
  lemma WatchStateMoves(settings: map<int, Setting>, from: string, to: string, account: int)
    requires from != to
    ensures var r := MoveWatchState(settings, from, to);
      && r.Keys == settings.Keys
      && (Keeps(r, account, to) <==> Keeps(settings, account, from) || Keeps(settings, account, to))
      && (Keeps(r, account, from) <==> Keeps(settings, account, from) && Keeps(settings, account, to))
      && (forall s :: s in settings ==> r[s] == settings[s].(guid := r[s].guid))
      && (forall s :: s in settings && settings[s].guid != from ==> r[s] == settings[s])
  {
  }

  // ---------------------------------------------------------------------
  // EnsureChain
  // ---------------------------------------------------------------------

  /** A walk down a chain: the rows so far, the row above the next node, the
      refresh asked for last, the first node's row, and every refresh asked. */
  datatype Walk = Walk(db: Db, parent: Option<int>, asked: int, root: int, refresh: seq<int>)

  function Start(db: Db): Walk { Walk(db, None, 0, 0, []) }

  /** pendingRefresh.NeedsRefresh. */
  function Needs(refresh: seq<int>, id: int): seq<int> {
    if id in refresh then refresh else refresh + [id]
  }

  /** The walk past a node whose row is id; a filled row asks for a refresh, an
      episode's of its season. */
  function Past(w: Walk, db: Db, id: int, n: Node, fill: bool): Walk {
    var target := if n.typ == Episode && w.parent.Some? then w.parent.value else id;
    var ask := fill && target != w.asked;
    Walk(db, Some(id), if ask then target else w.asked, if w.parent.None? then id else w.root,
         if ask then Needs(w.refresh, target) else w.refresh)
  }

  function EnsureNode(w: Walk, section: int, n: Node, hint: int, now: int, bundle: string -> string): Walk {
    match Choose(w.db.items, section, w.parent, n, hint)
    case None =>
      var id := w.db.next;
      var items := w.db.items[id := NewItem(section, w.parent, n, now)];
      Past(w, w.db.(items := items, next := id + 1), id, n, true)
    case Some(id) =>
      var it := w.db.items[id];
      var keyed := Keyed(it, n, now, bundle);
      var items := w.db.items[id := Placed(keyed, w.parent, n, now)];
      var settings := if keyed.guid == it.guid then w.db.settings
                      else MoveWatchState(w.db.settings, it.guid, keyed.guid);
      Past(w, w.db.(items := items, settings := settings), id, n, keyed.guid != it.guid && keyed.hash != it.hash)
  }

  /** Only the last node takes the hint. */
  function EnsureFrom(w: Walk, section: int, chain: seq<Node>, hint: int, now: int, bundle: string -> string): Walk
    decreases |chain|
  {
    if chain == [] then w
    else EnsureFrom(EnsureNode(w, section, chain[0], if |chain| == 1 then hint else 0, now, bundle),
                    section, chain[1..], hint, now, bundle)
  }

  method EnsureChain(db: Db, section: int, chain: seq<Node>, hint: int, now: int, bundle: string -> string)
    returns (w: Walk)
    ensures w == EnsureFrom(Start(db), section, chain, hint, now, bundle)
  {
    w := Start(db);
    for i := 0 to |chain|
      invariant EnsureFrom(w, section, chain[i..], hint, now, bundle)
             == EnsureFrom(Start(db), section, chain, hint, now, bundle)
    {
      assert chain[i..][1..] == chain[i + 1..];
      w := EnsureNode(w, section, chain[i], if i == |chain| - 1 then hint else 0, now, bundle);
    }
  }

  // ---------------------------------------------------------------------
  // What a walk keeps
  // ---------------------------------------------------------------------

  /** Node n may hang where the walk stands. */
  ghost predicate Hangs(w: Walk, n: Node) {
    if w.parent.None? then Depth(n.typ) == 0
    else LiveItem(w.db.items, w.parent.value) && MayHold(w.db.items[w.parent.value].typ, n.typ)
  }

  ghost predicate BelowNext(db: Db) { 0 < db.next && forall i :: i in db.items ==> 0 < i < db.next }

  /** A step writes one row, of the node's type, and leaves it live where the
      chain says; media and parts are untouched. */
  lemma EnsureNodeFrame(w: Walk, section: int, n: Node, hint: int, now: int, bundle: string -> string)
    requires BelowNext(w.db)
    ensures var r := EnsureNode(w, section, n, hint, now, bundle);
      && r.parent.Some? && BelowNext(r.db)
      && r.db.media == w.db.media && r.db.parts == w.db.parts && w.db.next <= r.db.next
      && var id := r.parent.value;
         && LiveItem(r.db.items, id)
         && r.db.items == w.db.items[id := r.db.items[id]]
         && var it := r.db.items[id];
            && it.section == section && it.typ == n.typ && it.parent == w.parent && it.index == Place(n)
            && it.edition == n.edition
            && BaseGUID(it.guid) == BaseGUID(n.guid)
            && (id in w.db.items ==> w.db.items[id].typ == n.typ && it.count == w.db.items[id].count)
            && (id !in w.db.items ==> id == w.db.next && it.count == 0)
  {
  }

  lemma EnsureNodeSound(w: Walk, section: int, n: Node, hint: int, now: int, bundle: string -> string)
    requires Sound(w.db) && Hangs(w, n)
    ensures Sound(EnsureNode(w, section, n, hint, now, bundle).db)
  {
    EnsureNodeFrame(w, section, n, hint, now, bundle);
    hide EnsureNode, Sound, BaseGUID, Place;
    var r := EnsureNode(w, section, n, hint, now, bundle);
    RowIn(w.db, r.db, r.parent.value);
  }

  /** A row put under a live parent, with the live rows it had counted. */
  lemma RowIn(db: Db, r: Db, id: int)
    requires Sound(db) && LiveItem(r.items, id) && r.items == db.items[id := r.items[id]] && BelowNext(r)
    requires r.media == db.media && r.parts == db.parts && db.next <= r.next
    requires var it := r.items[id];
      if it.parent.None? then Depth(it.typ) == 0
      else LiveItem(db.items, it.parent.value) && MayHold(db.items[it.parent.value].typ, it.typ)
    requires id in db.items ==> db.items[id].typ == r.items[id].typ && db.items[id].count == r.items[id].count
    requires id !in db.items ==> id == db.next && r.items[id].count == 0
    ensures Sound(r)
  {
    hide Stamped, Backed;
    CountsIn(db, id, r.items[id]);
    hide CountsBut;
  }

  lemma CountsIn(db: Db, id: int, it: Item)
    requires Ids(db) && CountsBut(db.items, db.media, {})
    requires if id in db.items then it.count == db.items[id].count else id == db.next && it.count == 0
    ensures CountsBut(db.items[id := it], db.media, {})
  {
    if id !in db.items {
      assert forall m :: m in db.media ==> db.media[m].item != id;
      assert MediaOn(db.media, id) == {};
    }
  }

  /** A chain's rows go in soundly, and its leaf is live, of the last node's
      type and keyed by its guid. */
  lemma EnsureChainSound(db: Db, section: int, chain: seq<Node>, hint: int, now: int, bundle: string -> string)
    requires Sound(db) && Resolved(chain)
    ensures var r := EnsureFrom(Start(db), section, chain, hint, now, bundle);
      && Sound(r.db) && r.parent.Some? && LiveItem(r.db.items, r.parent.value)
      && r.db.media == db.media && r.db.parts == db.parts && db.next <= r.db.next
      && db.items.Keys <= r.db.items.Keys
      && var it := r.db.items[r.parent.value];
         var leaf := chain[|chain| - 1];
         it.section == section && it.typ == leaf.typ && BaseGUID(it.guid) == BaseGUID(leaf.guid)
  {
    var w := Start(db);
    var last := |chain| == 1;
    EnsureNodeSound(w, section, chain[0], if last then hint else 0, now, bundle);
    EnsureNodeFrame(w, section, chain[0], if last then hint else 0, now, bundle);
    if !last {
      var w1 := EnsureNode(w, section, chain[0], 0, now, bundle);
      EnsureNodeSound(w1, section, chain[1], 0, now, bundle);
      EnsureNodeFrame(w1, section, chain[1], 0, now, bundle);
      var w2 := EnsureNode(w1, section, chain[1], 0, now, bundle);
      EnsureNodeSound(w2, section, chain[2], hint, now, bundle);
      EnsureNodeFrame(w2, section, chain[2], hint, now, bundle);
      ThreeSteps(w, section, chain, hint, now, bundle);
    }
  }

  lemma OneStep(w: Walk, section: int, chain: seq<Node>, hint: int, now: int, bundle: string -> string)
    requires |chain| == 1
    ensures EnsureFrom(w, section, chain, hint, now, bundle)
         == EnsureNode(w, section, chain[0], hint, now, bundle)
  {
  }

  lemma ThreeSteps(w: Walk, section: int, chain: seq<Node>, hint: int, now: int, bundle: string -> string)
    requires |chain| == 3
    ensures EnsureFrom(w, section, chain, hint, now, bundle)
         == EnsureNode(EnsureNode(EnsureNode(w, section, chain[0], 0, now, bundle),
              section, chain[1], 0, now, bundle), section, chain[2], hint, now, bundle)
  {
    var c1 := chain[1..];
    var c2 := c1[1..];
    var w1 := EnsureNode(w, section, chain[0], 0, now, bundle);
    var w2 := EnsureNode(w1, section, c1[0], 0, now, bundle);
    assert EnsureFrom(w, section, chain, hint, now, bundle) == EnsureFrom(w1, section, c1, hint, now, bundle);
    assert EnsureFrom(w1, section, c1, hint, now, bundle) == EnsureFrom(w2, section, c2, hint, now, bundle);
    OneStep(w2, section, c2, hint, now, bundle);
  }

  // ---------------------------------------------------------------------
  // No twin: a second walk finds what the first one left
  // ---------------------------------------------------------------------

  /** Row id is what locate finds for n, live, keyed and placed. */
  ghost predicate Settled(items: Items, section: int, parent: Option<int>, n: Node, id: int) {
    && id in items
    && IsFirst(id, Candidates(items, section, parent, n), RankIn(items, n))
    && items[id].deleted.None?
    && KeyGuid(items[id], n) == items[id].guid && items[id].edition == n.edition
    && items[id].parent == parent && items[id].index == Place(n)
  }

  /** On a settled row a step writes nothing and asks for nothing, whatever
      the hint and the time. */
  lemma SettledStep(w: Walk, section: int, n: Node, id: int, hint: int, now: int, bundle: string -> string)
    requires Settled(w.db.items, section, w.parent, n, id)
    ensures EnsureNode(w, section, n, hint, now, bundle)
         == Walk(w.db, Some(id), w.asked, if w.parent.None? then id else w.root, w.refresh)
  {
    var items := w.db.items;
    FirstIs(id, Candidates(items, section, w.parent, n), RankIn(items, n));
    assert Choose(items, section, w.parent, n, hint) == Some(id);
    assert items[id := items[id]] == items;
  }

  /** The rows of type t are the same in both. */
  ghost predicate SameOfType(a: Items, b: Items, t: ItemType) {
    && (forall i :: i in a && a[i].typ == t ==> i in b && b[i] == a[i])
    && (forall i :: i in b && b[i].typ == t ==> i in a && b[i] == a[i])
  }

  /** A later step of another type leaves a settled row settled. */
  lemma StaysSettled(items: Items, later: Items, section: int, parent: Option<int>, n: Node, id: int)
    requires Settled(items, section, parent, n, id)
    requires SameOfType(items, later, n.typ)
    ensures Settled(later, section, parent, n, id)
  {
    var rows := Candidates(later, section, parent, n);
    forall y | y in rows ensures RankIn(later, n)(id).Before(RankIn(later, n)(y)) {
      assert y in Candidates(items, section, parent, n);
      assert RankIn(items, n)(id).Before(RankIn(items, n)(y));
    }
    assert id in rows;
  }

  /** A step settles its node: the row it leaves is the one locate finds. */
  lemma StepSettles(w: Walk, section: int, n: Node, hint: int, now: int, bundle: string -> string)
    requires BelowNext(w.db)
    requires n.typ == Movie || Plain(n)
    ensures var r := EnsureNode(w, section, n, hint, now, bundle);
      r.parent.Some? && Settled(r.db.items, section, w.parent, n, r.parent.value)
  {
    hide RankOf, MoveWatchState, Needs, Choose;
    EnsureNodeFrame(w, section, n, hint, now, bundle);
    var r := EnsureNode(w, section, n, hint, now, bundle);
    var items, id := r.db.items, r.parent.value;
    var rows := Candidates(items, section, w.parent, n);
    assert Keys(n)[0] == BaseGUID(n.guid);
    assert id in rows;
    forall y | y in rows ensures RankIn(items, n)(id).Before(RankIn(items, n)(y)) {
      if y != id {
        StepLeads(w, section, n, hint, now, bundle, y);
      }
    }
  }

  lemma StepLeads(w: Walk, section: int, n: Node, hint: int, now: int, bundle: string -> string, y: int)
    requires BelowNext(w.db)
    requires n.typ == Movie || Plain(n)
    requires y in Candidates(w.db.items, section, w.parent, n)
    ensures var r := EnsureNode(w, section, n, hint, now, bundle);
      r.parent.Some? && r.parent.value in r.db.items &&
      (y != r.parent.value ==>
        RankOf(r.db.items[r.parent.value], r.parent.value, n).Before(RankOf(w.db.items[y], y, n)))
  {
    hide MoveWatchState, Needs, RankOf, Candidates, Matches, KeyGuid;
    var items := w.db.items;
    var first, id := LocatedLeads(items, section, w.parent, n, hint, y);
    var it := Placed(Keyed(items[id], n, now, bundle), w.parent, n, now);
    if id == first {
      RekeyLeads(items[first], it, first, items[y], y, n, section, w.parent);
    } else {
      LiveLeads(it, id, items[first], first, items[y], y, n);
    }
  }

  /** The row located leads every candidate, and another is chosen only when it is
      trashed. */
  lemma LocatedLeads(items: Items, section: int, parent: Option<int>, n: Node, hint: int, y: int) returns (first: int, id: int)
    requires y in Candidates(items, section, parent, n)
    ensures Choose(items, section, parent, n, hint) == Some(id) && id in items && first in items && y in items
    ensures Matches(items[first], section, parent, n) && Matches(items[y], section, parent, n)
    ensures RankOf(items[first], first, n).Before(RankOf(items[y], y, n))
    ensures id == first || items[first].deleted.Some?
  {
    hide Matches;
    var was, rank := Candidates(items, section, parent, n), RankIn(items, n);
    assert |was - {y}| < |was|;
    first := First(was, rank);
    assert rank(first).Before(rank(y));
    id := Choose(items, section, parent, n, hint).value;
  }

  lemma LiveLeads(it: Item, id: int, first: Item, f: int, other: Item, o: int, n: Node)
    requires it.deleted.None? && first.deleted.Some? && RankOf(first, f, n).Before(RankOf(other, o, n))
    ensures RankOf(it, id, n).Before(RankOf(other, o, n))
  {
  }

  /** A row that led another still leads it once it is live and keyed. */
  lemma RekeyLeads(was: Item, it: Item, id: int, other: Item, o: int, n: Node, section: int, parent: Option<int>)
    requires n.typ == Movie || Plain(n)
    requires it.deleted.None? && it.guid == KeyGuid(was, n)
    requires Matches(was, section, parent, n) && Matches(other, section, parent, n)
    requires RankOf(was, id, n).Before(RankOf(other, o, n))
    ensures RankOf(it, id, n).Before(RankOf(other, o, n))
  {
  }

  /** EnsureChain never makes a twin: run again after it succeeded, at any
      time and with any hint, it changes no row and no watched state, asks
      for no refresh, and returns the same leaf and root. */
  lemma EnsureChainTwice(db: Db, section: int, chain: seq<Node>, hint: int, now: int,
                         hint': int, now': int, bundle: string -> string)
    requires BelowNext(db) && Resolved(chain)
    ensures var r := EnsureFrom(Start(db), section, chain, hint, now, bundle);
      EnsureFrom(Start(r.db), section, chain, hint', now', bundle) == Walk(r.db, r.parent, 0, r.root, [])
  {
    var w := Start(db);
    if |chain| == 1 {
      StepSettles(w, section, chain[0], hint, now, bundle);
      var r := EnsureNode(w, section, chain[0], hint, now, bundle);
      SettledStep(Start(r.db), section, chain[0], r.parent.value, hint', now', bundle);
    } else {
      var w1 := EnsureNode(w, section, chain[0], 0, now, bundle);
      var w2 := EnsureNode(w1, section, chain[1], 0, now, bundle);
      var w3 := EnsureNode(w2, section, chain[2], hint, now, bundle);
      ThreeSteps(w, section, chain, hint, now, bundle);
      ChainSettles(w, w1, w2, w3, section, chain, hint, now, bundle);
      var v := Start(w3.db);
      SettledStep(v, section, chain[0], w1.parent.value, 0, now', bundle);
      var v1 := EnsureNode(v, section, chain[0], 0, now', bundle);
      SettledStep(v1, section, chain[1], w2.parent.value, 0, now', bundle);
      var v2 := EnsureNode(v1, section, chain[1], 0, now', bundle);
      SettledStep(v2, section, chain[2], w3.parent.value, hint', now', bundle);
      ThreeSteps(v, section, chain, hint', now', bundle);
    }
  }

  lemma ChainSettles(w: Walk, w1: Walk, w2: Walk, w3: Walk, section: int, chain: seq<Node>,
                     hint: int, now: int, bundle: string -> string)
    requires BelowNext(w.db) && Resolved(chain) && |chain| == 3 && w.parent.None?
    requires w1 == EnsureNode(w, section, chain[0], 0, now, bundle)
    requires w2 == EnsureNode(w1, section, chain[1], 0, now, bundle)
    requires w3 == EnsureNode(w2, section, chain[2], hint, now, bundle)
    ensures w1.parent.Some? && w2.parent.Some? && w3.parent.Some?
    ensures Settled(w3.db.items, section, None, chain[0], w1.parent.value)
    ensures Settled(w3.db.items, section, w1.parent, chain[1], w2.parent.value)
    ensures Settled(w3.db.items, section, w2.parent, chain[2], w3.parent.value)
  {
    StepSettles(w, section, chain[0], 0, now, bundle);
    OtherTypes(w, section, chain[0], 0, now, bundle, Episode);
    StepSettles(w1, section, chain[1], 0, now, bundle);
    OtherTypes(w1, section, chain[1], 0, now, bundle, Show);
    StaysSettled(w1.db.items, w2.db.items, section, None, chain[0], w1.parent.value);
    StepSettles(w2, section, chain[2], hint, now, bundle);
    OtherTypes(w2, section, chain[2], hint, now, bundle, Show);
    OtherTypes(w2, section, chain[2], hint, now, bundle, Season);
    StaysSettled(w2.db.items, w3.db.items, section, None, chain[0], w1.parent.value);
    StaysSettled(w2.db.items, w3.db.items, section, w1.parent, chain[1], w2.parent.value);
  }

  lemma OtherTypes(w: Walk, section: int, n: Node, hint: int, now: int, bundle: string -> string, t: ItemType)
    requires BelowNext(w.db) && t != n.typ
    ensures var r := EnsureNode(w, section, n, hint, now, bundle);
      BelowNext(r.db) && SameOfType(w.db.items, r.db.items, t)
  {
  }
}
