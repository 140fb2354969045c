/** What EnsureChain does to the watched state and which refreshes it asks for
    (pkg/plexproject/items.go), said of the library before and after. */
module Chains {
  import opened Options
  import opened Library
  import opened Guids
  import opened ItemChain

  // ---------------------------------------------------------------------
  // What is said
  // ---------------------------------------------------------------------

  /** The row was given another guid. */
  predicate Rekeyed(before: Items, after: Items, id: int) {
    id in before && id in after && before[id].guid != after[id].guid
  }

  /** What the rows at a depth were re-keyed from and to: what is kept under the one
      passes to the other, and under any other guid stays. */
  ghost predicate Passes(before: Items, after: Items, depth: nat, from: string, to: string) {
    if exists id :: RekeyedFrom(before, after, depth, id, from)
    then exists id :: RekeyedFrom(before, after, depth, id, from) && after[id].guid == to
    else to == from
  }

  predicate RekeyedFrom(before: Items, after: Items, depth: nat, id: int, from: string) {
    Rekeyed(before, after, id) && Depth(after[id].typ) == depth && before[id].guid == from
  }

  /** Down the chain: a movie or show first, then the season, then the episode. */
  ghost predicate CarriedTo(before: Items, after: Items, from: string, to: string) {
    exists x, y :: Passes(before, after, 0, from, x) && Passes(before, after, 1, x, y) && Passes(before, after, 2, y, to)
  }

  /** No watched state is lost or changed: every account that kept some under a guid keeps
      some where the re-keyed rows carry it; no view count changes; and what is kept under
      guids none was re-keyed from stays. */
  ghost predicate StateFollows(before: Db, after: Db) {
    && after.settings.Keys == before.settings.Keys
    && (forall s :: s in before.settings ==> after.settings[s] == before.settings[s].(guid := after.settings[s].guid))
    && (forall s :: s in before.settings && NoneFrom(before.items, after.items, before.settings[s].guid) ==>
          after.settings[s] == before.settings[s])
    && (forall account, from, to :: Keeps(before.settings, account, from) && CarriedTo(before.items, after.items, from, to) ==>
          Keeps(after.settings, account, to))
  }

  /** What was kept under the row's old guid or its new one ends under the new. */
  ghost predicate Gathers(before: Items, after: Items, id: int)
    requires Rekeyed(before, after, id)
  {
    forall from, to :: from in {before[id].guid, after[id].guid} && CarriedTo(before, after, from, to) ==> to == after[id].guid
  }

  /** No other row was re-keyed from the guid this row had, or from the one it has. */
  ghost predicate Alone(before: Items, after: Items, id: int)
    requires id in before && id in after
  {
    forall o :: Rekeyed(before, after, o) && o != id ==> before[o].guid != before[id].guid && before[o].guid != after[id].guid
  }

  /** No row was re-keyed from the guid. */
  ghost predicate NoneFrom(before: Items, after: Items, guid: string) {
    forall id :: Rekeyed(before, after, id) ==> before[id].guid != guid
  }

  /** The row is new, or was re-keyed with the hash of its bundle. */
  predicate Filled(before: Items, after: Items, id: int) {
    id in after && (id !in before || (before[id].guid != after[id].guid && before[id].hash != after[id].hash))
  }

  /** The row whose refresh fills it: an episode's season, else the row itself. */
  predicate FilledBy(after: Items, id: int, target: int) {
    id in after && if after[id].typ == Episode && after[id].parent.Some? then after[id].parent == Some(target) else target == id
  }

  ghost predicate NoRepeats(s: seq<int>) { forall i, j :: 0 <= i < j < |s| ==> s[i] != s[j] }

  /** Exactly the refreshes that fill the filled rows are asked for, each once. */
  ghost predicate AsksFor(before: Items, after: Items, refresh: seq<int>) {
    NoRepeats(refresh) && forall x :: x in refresh <==> exists id :: Filled(before, after, id) && FilledBy(after, id, x)
  }

  /** The root is the parent of the leaf's parent. */
  ghost predicate TwoAbove(items: Items, leaf: int, root: int)
    requires leaf in items
  {
    exists mid :: mid in items && items[leaf].parent == Some(mid) && items[mid].parent == Some(root)
  }

  // ---------------------------------------------------------------------
  // One step
  // ---------------------------------------------------------------------

  /** How a step keys its row: by the node's guid, or Plex's own escaping of the same
      edition; a new guid takes the new bundle's hash where there was one; a row that
      changed at all is updated. */
  lemma StepKeys(w: Walk, section: int, n: Node, hint: int, now: int, bundle: string -> string)
    requires BelowNext(w.db)
    ensures var r := EnsureNode(w, section, n, hint, now, bundle);
      && r.parent.Some? && r.parent.value in r.db.items
      && var id := r.parent.value; var it := r.db.items[id];
         if id !in w.db.items then it.guid == n.guid && it.hash == "" && it.updated == now
         else
           var was := w.db.items[id];
           && it.section == was.section && it.typ == was.typ && it.count == was.count
           && it.guid == (if was.edition == n.edition && BaseGUID(was.guid) == BaseGUID(n.guid) && (HasEdition(was.guid) <==> n.edition != "")
                          then was.guid else n.guid)
           && it.hash == (if it.guid != was.guid && was.hash != "" then bundle(it.guid) else was.hash)
           && it.updated == if it == was.(updated := it.updated) then was.updated else now
  {
    hide MoveWatchState, Choose, BaseGUID, HasEdition, Needs;
  }

  datatype Rekey = Rekey(from: string, to: string)

  function Move(settings: map<int, Setting>, k: Rekey): map<int, Setting> {
    if k.from == k.to then settings else MoveWatchState(settings, k.from, k.to)
  }

  /** From and to which guid a step keyed its row; a row not re-keyed, to its own. */
  function RekeyOf(before: Items, after: Items, id: int): Rekey
    requires id in after
  {
    Rekey(if id in before then before[id].guid else after[id].guid, after[id].guid)
  }

  /** What a step does beside writing its row. */
  lemma StepEffects(w: Walk, section: int, n: Node, hint: int, now: int, bundle: string -> string)
    requires BelowNext(w.db)
    ensures var r := EnsureNode(w, section, n, hint, now, bundle);
      && r.parent.Some? && r.parent.value in r.db.items
      && var id := r.parent.value;
         var target := if n.typ == Episode && w.parent.Some? then w.parent.value else id;
         var asks := Filled(w.db.items, r.db.items, id) && target != w.asked;
         && r.db.settings == Move(w.db.settings, RekeyOf(w.db.items, r.db.items, id))
         && r.asked == (if asks then target else w.asked)
         && r.refresh == (if asks && target !in w.refresh then w.refresh + [target] else w.refresh)
         && r.root == if w.parent.None? then id else w.root
  {
    hide MoveWatchState, Choose, BaseGUID, HasEdition;
  }

  // ---------------------------------------------------------------------
  // Moves in a row
  // ---------------------------------------------------------------------

  function MoveAll(settings: map<int, Setting>, moves: seq<Rekey>): map<int, Setting> {
    if moves == [] then settings else MoveAll(Move(settings, moves[0]), moves[1..])
  }

  predicate Leaves(k: Rekey, guid: string) { k.from != k.to && k.from == guid }

  lemma MoveFrame(settings: map<int, Setting>, k: Rekey)
    ensures var r := Move(settings, k);
      && r.Keys == settings.Keys
      && forall s :: s in settings ==>
           r[s] == settings[s].(guid := r[s].guid) && (!Leaves(k, settings[s].guid) ==> r[s] == settings[s])
  {
  }

  lemma {:induction false} MovesFrame(settings: map<int, Setting>, moves: seq<Rekey>)
    ensures var r := MoveAll(settings, moves);
      && r.Keys == settings.Keys
      && forall s :: s in settings ==>
           && r[s] == settings[s].(guid := r[s].guid)
           && ((forall k :: k in moves ==> !Leaves(k, settings[s].guid)) ==> r[s] == settings[s])
    decreases |moves|
  {
    if moves != [] {
      MoveFrame(settings, moves[0]);
      MovesFrame(Move(settings, moves[0]), moves[1..]);
      assert forall k :: k in moves <==> k == moves[0] || k in moves[1..];
    }
  }

  /** Where a move takes what is kept under a guid. */
  function To(guid: string, k: Rekey): string { if k.from == guid then k.to else guid }

  function ToAll(guid: string, moves: seq<Rekey>): string
    decreases |moves|
  {
    if moves == [] then guid else ToAll(To(guid, moves[0]), moves[1..])
  }

  lemma {:induction false} MovesKeep(settings: map<int, Setting>, moves: seq<Rekey>, account: int, guid: string)
    requires Keeps(settings, account, guid)
    ensures Keeps(MoveAll(settings, moves), account, ToAll(guid, moves))
    decreases |moves|
  {
    hide Keeps, Move;
    if moves != [] {
      MoveKeeps(settings, moves[0], account, guid);
      MovesKeep(Move(settings, moves[0]), moves[1..], account, To(guid, moves[0]));
    }
  }

  lemma MoveKeeps(settings: map<int, Setting>, k: Rekey, account: int, guid: string)
    requires Keeps(settings, account, guid)
    ensures Keeps(Move(settings, k), account, To(guid, k))
  {
    if k.from != k.to {
      WatchStateMoves(settings, k.from, k.to, account);
      if k.from != guid {
        var s :| s in settings && settings[s].account == account && settings[s].guid == guid;
        var r := Move(settings, k);
        assert s in r && r[s] == settings[s];
      }
    }
  }

  /** All that one account keeps goes where its guid is carried. */
  lemma {:induction false} OnlyMoves(moves: seq<Rekey>, guid: string)
    ensures MoveAll(map[1 := Setting(1, guid, 0)], moves) == map[1 := Setting(1, ToAll(guid, moves), 0)]
    decreases |moves|
  {
    if moves != [] {
      OnlyMove(guid, moves[0]);
      OnlyMoves(moves[1..], To(guid, moves[0]));
    }
  }

  lemma OnlyMove(guid: string, k: Rekey)
    ensures Move(map[1 := Setting(1, guid, 0)], k) == map[1 := Setting(1, To(guid, k), 0)]
  {
    var one := map[1 := Setting(1, guid, 0)];
    assert Keeps(one, 1, k.to) ==> guid == k.to;
  }

  lemma OneMove(settings: map<int, Setting>, k: Rekey)
    ensures MoveAll(settings, [k]) == Move(settings, k)
  {
    assert [k][1..] == [];
    assert MoveAll(Move(settings, k), []) == Move(settings, k);
  }

  // ---------------------------------------------------------------------
  // The chain
  // ---------------------------------------------------------------------

  /** The moves are the re-keyings of these rows, the only ones written. */
  ghost predicate Wrote(before: Items, after: Items, ids: seq<int>, moves: seq<Rekey>) {
    && |ids| == |moves| && NoRepeats(ids)
    && (forall k :: 0 <= k < |ids| ==> ids[k] in after && moves[k] == RekeyOf(before, after, ids[k]))
    && (forall id :: id in after && id !in ids ==> id in before && after[id] == before[id])
  }

  /** One row of each depth, from the top. */
  ghost predicate Descends(items: Items, ids: seq<int>) {
    (|ids| == 1 || |ids| == 3) && forall k :: 0 <= k < |ids| ==> ids[k] in items && Depth(items[ids[k]].typ) == k
  }

  lemma PassIs(before: Items, after: Items, ids: seq<int>, moves: seq<Rekey>, depth: nat, from: string, to: string)
    requires Wrote(before, after, ids, moves) && Descends(after, ids)
    ensures Passes(before, after, depth, from, to) <==> to == if depth < |moves| then To(from, moves[depth]) else from
  {
    forall id | RekeyedFrom(before, after, depth, id, from)
      ensures depth < |moves| && id == ids[depth] && moves[depth] == Rekey(from, after[id].guid)
    {
      assert id in ids;
    }
    if depth < |moves| && moves[depth].from == from && moves[depth].to != from {
      assert RekeyedFrom(before, after, depth, ids[depth], from);
    }
  }

  /** What is carried goes through the moves. */
  lemma CarriedIs(before: Items, after: Items, ids: seq<int>, moves: seq<Rekey>, from: string, to: string)
    requires Wrote(before, after, ids, moves) && Descends(after, ids)
    ensures CarriedTo(before, after, from, to) <==> to == ToAll(from, moves)
  {
    hide Passes, Wrote, Descends;
    WroteMoves(before, after, ids, moves);
    var x := if 0 < |moves| then To(from, moves[0]) else from;
    var y := if 1 < |moves| then To(x, moves[1]) else x;
    var z := if 2 < |moves| then To(y, moves[2]) else y;
    ToThree(from, moves);
    forall g, h, depth: nat ensures Passes(before, after, depth, g, h) <==> h == if depth < |moves| then To(g, moves[depth]) else g {
      PassIs(before, after, ids, moves, depth, g, h);
    }
    assert Passes(before, after, 0, from, x) && Passes(before, after, 1, x, y) && Passes(before, after, 2, y, z);
  }

  lemma WroteMoves(before: Items, after: Items, ids: seq<int>, moves: seq<Rekey>)
    requires Wrote(before, after, ids, moves) && Descends(after, ids)
    ensures |moves| == 1 || |moves| == 3
  {
  }

  lemma ToThree(guid: string, moves: seq<Rekey>)
    requires |moves| == 1 || |moves| == 3
    ensures ToAll(guid, moves) == if |moves| == 1 then To(guid, moves[0]) else To(To(To(guid, moves[0]), moves[1]), moves[2])
  {
    if |moves| == 3 {
      assert moves[1..][1..] == [moves[2]] && moves[1..][0] == moves[1];
      ToOne(To(To(guid, moves[0]), moves[1]), moves[2]);
    } else {
      assert moves == [moves[0]];
      ToOne(guid, moves[0]);
    }
  }

  lemma ToOne(guid: string, k: Rekey)
    ensures ToAll(guid, [k]) == To(guid, k)
  {
    assert [k][1..] == [];
  }

  lemma WroteFollows(before: Db, after: Db, ids: seq<int>, moves: seq<Rekey>)
    requires Wrote(before.items, after.items, ids, moves) && Descends(after.items, ids)
    requires after.settings == MoveAll(before.settings, moves)
    ensures StateFollows(before, after)
  {
    hide MoveAll, Keeps, CarriedTo, Descends;
    MovesFrame(before.settings, moves);
    forall k | k in moves && k.from != k.to ensures exists id :: Rekeyed(before.items, after.items, id) && before.items[id].guid == k.from {
      var j :| 0 <= j < |moves| && moves[j] == k;
      assert Rekeyed(before.items, after.items, ids[j]);
    }
    forall account, from, to | Keeps(before.settings, account, from) && CarriedTo(before.items, after.items, from, to)
      ensures Keeps(after.settings, account, to)
    {
      CarriedIs(before.items, after.items, ids, moves, from, to);
      MovesKeep(before.settings, moves, account, from);
    }
  }

  /** A row written after others leaves what a step did to them. */
  lemma WroteOne(before: Items, after: Items, id: int)
    requires id in after && after == before[id := after[id]]
    ensures Wrote(before, after, [id], [RekeyOf(before, after, id)])
  {
  }

  lemma WroteThree(i0: Items, i1: Items, i2: Items, i3: Items, a: int, b: int, c: int)
    requires a in i1 && b in i2 && c in i3 && a != b && b != c && a != c
    requires i1 == i0[a := i1[a]] && i2 == i1[b := i2[b]] && i3 == i2[c := i3[c]]
    ensures Wrote(i0, i3, [a, b, c], [RekeyOf(i0, i1, a), RekeyOf(i1, i2, b), RekeyOf(i2, i3, c)])
    ensures Filled(i0, i3, a) == Filled(i0, i1, a) && Filled(i0, i3, b) == Filled(i1, i2, b) && Filled(i0, i3, c) == Filled(i2, i3, c)
    ensures forall id :: Filled(i0, i3, id) ==> id in {a, b, c}
  {
  }

  lemma OneAsks(before: Items, after: Items, id: int, refresh: seq<int>)
    requires id in after && after == before[id := after[id]] && after[id].typ != Episode
    requires refresh == if Filled(before, after, id) then [id] else []
    ensures AsksFor(before, after, refresh)
  {
    if Filled(before, after, id) { assert FilledBy(after, id, id); }
  }

  lemma ThreeAsk(before: Items, after: Items, a: int, b: int, c: int, refresh: seq<int>)
    requires a in after && b in after && c in after && a != b && b != c && a != c
    requires after[a].typ == Show && after[b].typ == Season && after[c].typ == Episode && after[c].parent == Some(b)
    requires forall id :: Filled(before, after, id) ==> id in {a, b, c}
    requires refresh == (if Filled(before, after, a) then [a] else []) +
      (if Filled(before, after, b) || Filled(before, after, c) then [b] else [])
    ensures AsksFor(before, after, refresh)
  {
    assert FilledBy(after, a, a) && FilledBy(after, b, b) && FilledBy(after, c, b);
    forall x ensures x in refresh <==> exists id :: Filled(before, after, id) && FilledBy(after, id, x) {
      if x == a { assert Filled(before, after, a) ==> Filled(before, after, a) && FilledBy(after, a, x); }
      if x == b {
        assert Filled(before, after, b) ==> Filled(before, after, b) && FilledBy(after, b, x);
        assert Filled(before, after, c) ==> Filled(before, after, c) && FilledBy(after, c, x);
      }
    }
  }

  /** EnsureChain loses no watched state, and asks for exactly the refreshes of the rows
      it inserted or gave another bundle, each once; it returns the chain's first row. */
  lemma ChainEffects(db: Db, section: int, chain: seq<Node>, hint: int, now: int, bundle: string -> string)
    requires BelowNext(db) && Resolved(chain)
    ensures var r := EnsureFrom(Start(db), section, chain, hint, now, bundle);
      && StateFollows(db, r.db) && AsksFor(db.items, r.db.items, r.refresh)
      && r.parent.Some? && r.parent.value in r.db.items
      && (|chain| == 1 ==> r.parent == Some(r.root))
      && (|chain| == 3 ==> TwoAbove(r.db.items, r.parent.value, r.root))
  {
    hide *;
    var ids, moves := ChainMoves(db, section, chain, hint, now, bundle);
    WroteFollows(db, EnsureFrom(Start(db), section, chain, hint, now, bundle).db, ids, moves);
  }

  /** The rows a walk wrote, and the moves they made. */
  lemma ChainMoves(db: Db, section: int, chain: seq<Node>, hint: int, now: int, bundle: string -> string)
    returns (ids: seq<int>, moves: seq<Rekey>)
    requires BelowNext(db) && Resolved(chain)
    ensures var r := EnsureFrom(Start(db), section, chain, hint, now, bundle);
      && Wrote(db.items, r.db.items, ids, moves) && Descends(r.db.items, ids) && r.db.settings == MoveAll(db.settings, moves)
      && AsksFor(db.items, r.db.items, r.refresh)
      && r.parent.Some? && r.parent.value in r.db.items
      && (|chain| == 1 ==> r.parent == Some(r.root))
      && (|chain| == 3 ==> TwoAbove(r.db.items, r.parent.value, r.root))
  {
    hide EnsureNode, AsksFor, Move, Filled, Wrote, Descends, MoveAll;
    var w := Start(db);
    if |chain| == 1 {
      OneStep(w, section, chain, hint, now, bundle);
      ids, moves := MovieMoves(w, section, chain[0], hint, now, bundle);
    } else {
      ThreeSteps(w, section, chain, hint, now, bundle);
      ids, moves := ShowMoves(w, section, chain, hint, now, bundle);
    }
  }

  lemma MovieMoves(w: Walk, section: int, n: Node, hint: int, now: int, bundle: string -> string)
    returns (ids: seq<int>, moves: seq<Rekey>)
    requires BelowNext(w.db) && n.typ == Movie && w == Start(w.db)
    ensures var r := EnsureNode(w, section, n, hint, now, bundle);
      && Wrote(w.db.items, r.db.items, ids, moves) && Descends(r.db.items, ids) && r.db.settings == MoveAll(w.db.settings, moves)
      && AsksFor(w.db.items, r.db.items, r.refresh)
      && r.parent.Some? && r.parent.value in r.db.items && r.parent == Some(r.root)
  {
    hide EnsureNode, AsksFor, Move, Filled, MoveAll, Wrote, RekeyOf, BaseGUID;
    EnsureNodeFrame(w, section, n, hint, now, bundle);
    StepEffects(w, section, n, hint, now, bundle);
    var r := EnsureNode(w, section, n, hint, now, bundle);
    var id := r.parent.value;
    assert id in r.db.items && 0 < id;
    WroteOne(w.db.items, r.db.items, id);
    OneMove(w.db.settings, RekeyOf(w.db.items, r.db.items, id));
    ids, moves := [id], [RekeyOf(w.db.items, r.db.items, id)];
    assert [] + [id] == [id];
    OneAsks(w.db.items, r.db.items, id, r.refresh);
  }

  lemma ShowMoves(w: Walk, section: int, chain: seq<Node>, hint: int, now: int, bundle: string -> string)
    returns (ids: seq<int>, moves: seq<Rekey>)
    requires BelowNext(w.db) && w == Start(w.db) && |chain| == 3
    requires chain[0].typ == Show && chain[1].typ == Season && chain[2].typ == Episode
    ensures var w1 := EnsureNode(w, section, chain[0], 0, now, bundle);
      var w2 := EnsureNode(w1, section, chain[1], 0, now, bundle);
      var r := EnsureNode(w2, section, chain[2], hint, now, bundle);
      && Wrote(w.db.items, r.db.items, ids, moves) && Descends(r.db.items, ids) && r.db.settings == MoveAll(w.db.settings, moves)
      && AsksFor(w.db.items, r.db.items, r.refresh)
      && r.parent.Some? && r.parent.value in r.db.items
      && TwoAbove(r.db.items, r.parent.value, r.root)
  {
    hide EnsureNode, AsksFor, Move, Filled, MoveAll, Wrote, RekeyOf, BaseGUID, Descends, TwoAbove;
    var w1 := EnsureNode(w, section, chain[0], 0, now, bundle);
    var w2 := EnsureNode(w1, section, chain[1], 0, now, bundle);
    var r := EnsureNode(w2, section, chain[2], hint, now, bundle);
    ShowRows(w, section, chain, hint, now, bundle);
    var i0, i1, i2, i3 := w.db.items, w1.db.items, w2.db.items, r.db.items;
    var a, b, c := w1.parent.value, w2.parent.value, r.parent.value;
    WroteThree(i0, i1, i2, i3, a, b, c);
    StepEffects(w, section, chain[0], 0, now, bundle);
    StepEffects(w1, section, chain[1], 0, now, bundle);
    StepEffects(w2, section, chain[2], hint, now, bundle);
    ids, moves := [a, b, c], [RekeyOf(i0, i1, a), RekeyOf(i1, i2, b), RekeyOf(i2, i3, c)];
    ThreeMoves(w.db.settings, moves);
    ThreeRefreshes(a, b, Filled(i0, i3, a), Filled(i0, i3, b), Filled(i0, i3, c), w1, w2, r);
    ThreeAsk(i0, i3, a, b, c, r.refresh);
  }

  /** The rows of a show's walk: each below the one before. */
  lemma ShowRows(w: Walk, section: int, chain: seq<Node>, hint: int, now: int, bundle: string -> string)
    requires BelowNext(w.db) && w == Start(w.db) && |chain| == 3
    requires chain[0].typ == Show && chain[1].typ == Season && chain[2].typ == Episode
    ensures var w1 := EnsureNode(w, section, chain[0], 0, now, bundle);
      var w2 := EnsureNode(w1, section, chain[1], 0, now, bundle);
      var r := EnsureNode(w2, section, chain[2], hint, now, bundle);
      && w1.parent.Some? && w2.parent.Some? && r.parent.Some? && BelowNext(w1.db) && BelowNext(w2.db)
      && var i0, i1, i2, i3 := w.db.items, w1.db.items, w2.db.items, r.db.items;
         var a, b, c := w1.parent.value, w2.parent.value, r.parent.value;
         && 0 < a && 0 < b && a != b && b != c && a != c && a in i1 && b in i2 && c in i3
         && i1 == i0[a := i1[a]] && i2 == i1[b := i2[b]] && i3 == i2[c := i3[c]]
         && i3[a].typ == Show && i3[b].typ == Season && i3[c].typ == Episode && i3[c].parent == Some(b)
         && Descends(i3, [a, b, c]) && TwoAbove(i3, c, a)
  {
    hide EnsureNode, BaseGUID, Place, Descends, TwoAbove;
    var w1 := EnsureNode(w, section, chain[0], 0, now, bundle);
    var w2 := EnsureNode(w1, section, chain[1], 0, now, bundle);
    var r := EnsureNode(w2, section, chain[2], hint, now, bundle);
    EnsureNodeFrame(w, section, chain[0], 0, now, bundle);
    EnsureNodeFrame(w1, section, chain[1], 0, now, bundle);
    EnsureNodeFrame(w2, section, chain[2], hint, now, bundle);
    var i3, a, b, c := r.db.items, w1.parent.value, w2.parent.value, r.parent.value;
    assert 0 < a && 0 < b && a != b && b != c && a != c;
    RowsBelow(i3, a, b, c);
  }

  lemma RowsBelow(items: Items, a: int, b: int, c: int)
    requires a in items && b in items && c in items && items[a].typ == Show && items[b].typ == Season && items[c].typ == Episode
    requires items[c].parent == Some(b) && items[b].parent == Some(a)
    ensures Descends(items, [a, b, c]) && TwoAbove(items, c, a)
  {
  }

  lemma ThreeMoves(settings: map<int, Setting>, moves: seq<Rekey>)
    requires |moves| == 3
    ensures MoveAll(settings, moves) == Move(Move(Move(settings, moves[0]), moves[1]), moves[2])
  {
    hide Move;
    assert moves[1..][1..] == [moves[2]] && moves[1..][0] == moves[1];
    OneMove(Move(Move(settings, moves[0]), moves[1]), moves[2]);
    assert MoveAll(Move(settings, moves[0]), moves[1..]) == MoveAll(Move(Move(settings, moves[0]), moves[1]), [moves[2]]);
  }

  lemma ThreeRefreshes(a: int, b: int, fillA: bool, fillB: bool, fillC: bool, w1: Walk, w2: Walk, w3: Walk)
    requires 0 < a && 0 < b && a != b
    requires w1.asked == (if fillA then a else 0) && w1.refresh == if fillA then [a] else []
    requires var asks := fillB && b != w1.asked;
      w2.asked == (if asks then b else w1.asked) && w2.refresh == if asks && b !in w1.refresh then w1.refresh + [b] else w1.refresh
    requires w3.refresh == if (fillC && b != w2.asked) && b !in w2.refresh then w2.refresh + [b] else w2.refresh
    ensures w3.refresh == (if fillA then [a] else []) + (if fillB || fillC then [b] else [])
  {
    assert [] + [b] == [b] && [a] + [] == [a];
  }

  // ---------------------------------------------------------------------
  // Where a row's state ends
  // ---------------------------------------------------------------------

  /** A row that alone was re-keyed from its guids gathers what was kept under them. */
  lemma AloneGathers(before: Items, after: Items, id: int)
    requires Rekeyed(before, after, id) && Alone(before, after, id)
    ensures Gathers(before, after, id)
  {
    hide CarriedTo;
    forall from, to | from in {before[id].guid, after[id].guid} && CarriedTo(before, after, from, to) ensures to == after[id].guid {
      AlonePasses(before, after, id, from, to);
    }
  }

  lemma AlonePasses(before: Items, after: Items, id: int, from: string, to: string)
    requires Rekeyed(before, after, id) && Alone(before, after, id) && from in {before[id].guid, after[id].guid}
    requires CarriedTo(before, after, from, to)
    ensures to == after[id].guid
  {
    hide Passes;
    var a, b, depth := before[id].guid, after[id].guid, Depth(after[id].typ);
    assert depth <= 2;
    var x, y :| Passes(before, after, 0, from, x) && Passes(before, after, 1, x, y) && Passes(before, after, 2, y, to);
    AlonePass(before, after, id, 0, from, x);
    AlonePass(before, after, id, 1, x, y);
    AlonePass(before, after, id, 2, y, to);
  }

  lemma AlonePass(before: Items, after: Items, id: int, depth: nat, from: string, to: string)
    requires Rekeyed(before, after, id) && Alone(before, after, id) && from in {before[id].guid, after[id].guid}
    requires Passes(before, after, depth, from, to)
    ensures to == if depth == Depth(after[id].typ) && from == before[id].guid then after[id].guid else from
  {
    if depth == Depth(after[id].typ) && from == before[id].guid { assert RekeyedFrom(before, after, depth, id, from); }
  }

  /** Whoever kept state under a re-keyed row's old guid or its new one keeps some under
      the new, whatever the watched state was, exactly when the row gathers it. */
  lemma RowKeepsExactly(db: Db, section: int, chain: seq<Node>, hint: int, now: int, bundle: string -> string, id: int)
    requires BelowNext(db) && Resolved(chain)
    requires Rekeyed(db.items, EnsureFrom(Start(db), section, chain, hint, now, bundle).db.items, id)
    ensures var after := EnsureFrom(Start(db), section, chain, hint, now, bundle).db.items; var a, b := db.items[id].guid, after[id].guid;
      Gathers(db.items, after, id) <==>
      forall settings, account :: Keeps(settings, account, a) || Keeps(settings, account, b) ==>
        Keeps(EnsureFrom(Start(db.(settings := settings)), section, chain, hint, now, bundle).db.settings, account, b)
  {
    hide EnsureFrom, Keeps, CarriedTo, BelowNext, Resolved, Wrote, Descends, MoveAll;
    var after := EnsureFrom(Start(db), section, chain, hint, now, bundle).db.items;
    var a, b := db.items[id].guid, after[id].guid;
    if Gathers(db.items, after, id) {
      forall settings, account | Keeps(settings, account, a) || Keeps(settings, account, b)
        ensures Keeps(EnsureFrom(Start(db.(settings := settings)), section, chain, hint, now, bundle).db.settings, account, b)
      {
        var ids, moves := OwnMoves(db, settings, section, chain, hint, now, bundle);
        var from := if Keeps(settings, account, a) then a else b;
        CarriedIs(db.items, after, ids, moves, from, ToAll(from, moves));
        MovesKeep(settings, moves, account, from);
      }
    } else {
      var from, to :| from in {a, b} && CarriedTo(db.items, after, from, to) && to != b;
      var one := map[1 := Setting(1, from, 0)];
      var ids, moves := OwnMoves(db, one, section, chain, hint, now, bundle);
      CarriedIs(db.items, after, ids, moves, from, to);
      OnlyMoves(moves, from);
      OneKept(from, to, b);
    }
  }

  lemma OneKept(from: string, to: string, b: string)
    requires to != b
    ensures Keeps(map[1 := Setting(1, from, 0)], 1, from) && !Keeps(map[1 := Setting(1, to, 0)], 1, b)
  {
    var one := map[1 := Setting(1, from, 0)];
    assert 1 in one && one[1].account == 1 && one[1].guid == from;
  }

  /** The rows a walk writes do not depend on the watched state. */
  lemma OwnMoves(db: Db, settings: map<int, Setting>, section: int, chain: seq<Node>, hint: int, now: int, bundle: string -> string)
    returns (ids: seq<int>, moves: seq<Rekey>)
    requires BelowNext(db) && Resolved(chain)
    ensures var after := EnsureFrom(Start(db), section, chain, hint, now, bundle).db.items;
      Wrote(db.items, after, ids, moves) && Descends(after, ids)
    ensures EnsureFrom(Start(db.(settings := settings)), section, chain, hint, now, bundle).db.settings == MoveAll(settings, moves)
  {
    hide EnsureFrom, Wrote, Descends, MoveAll, Resolved;
    SameWalk(Start(db), settings, section, chain, hint, now, bundle);
    ids, moves := ChainMoves(db.(settings := settings), section, chain, hint, now, bundle);
  }

  lemma {:induction false} SameWalk(w: Walk, settings: map<int, Setting>, section: int, chain: seq<Node>, hint: int, now: int, bundle: string -> string)
    ensures var r := EnsureFrom(w, section, chain, hint, now, bundle);
      var t := EnsureFrom(w.(db := w.db.(settings := settings)), section, chain, hint, now, bundle);
      t == r.(db := r.db.(settings := t.db.settings))
    decreases |chain|
  {
    hide EnsureNode;
    if chain != [] {
      var at := if |chain| == 1 then hint else 0;
      SameStep(w, settings, section, chain[0], at, now, bundle);
      var v := EnsureNode(w.(db := w.db.(settings := settings)), section, chain[0], at, now, bundle);
      SameWalk(EnsureNode(w, section, chain[0], at, now, bundle), v.db.settings, section, chain[1..], hint, now, bundle);
    }
  }

  lemma SameStep(w: Walk, settings: map<int, Setting>, section: int, n: Node, hint: int, now: int, bundle: string -> string)
    ensures var r := EnsureNode(w, section, n, hint, now, bundle);
      var t := EnsureNode(w.(db := w.db.(settings := settings)), section, n, hint, now, bundle);
      t == r.(db := r.db.(settings := t.db.settings))
  {
    hide Choose, Keyed, Placed, MoveWatchState;
  }

  const NO_BUNDLE: string -> string := _ => ""
  const TWO_RENAMED: Items := map[
    1 := Item(1, Show, "a", "", None, None, 1, "", None, 0),
    2 := Item(1, Season, "b", "", Some(1), Some(1), 1, "", None, 0),
    3 := Item(1, Episode, "e", "", Some(2), Some(1), 0, "", None, 0)]
  const RENAMING: seq<Node> := [
    Node(Show, "", "b", "a", "", 0), Node(Season, "", "c", "b", "", 1), Node(Episode, "", "e", "", "", 1)]

  /** A show takes the guid its season has, and the season another: what was kept under
      the show's old guid passes through its new one to the season's. */
  lemma StatePassesOn(now: int)
    ensures Resolved(RENAMING)
    ensures var db := Db(TWO_RENAMED, map[], map[], map[1 := Setting(1, "a", 0)], 4);
      var r := EnsureFrom(Start(db), 1, RENAMING, 0, now, NO_BUNDLE).db;
      && BelowNext(db) && Rekeyed(db.items, r.items, 1) && db.items[1].guid == "a" && r.items[1].guid == "b"
      && Keeps(db.settings, 1, "a") && !Keeps(r.settings, 1, "b") && Keeps(r.settings, 1, "c")
      && !Gathers(db.items, r.items, 1)
  {
    ShortPlain();
    hide EnsureNode, EnsureFrom, MoveAll, ToAll, CarriedTo, BaseGUID, HasEdition;
    var db := Db(TWO_RENAMED, map[], map[], map[1 := Setting(1, "a", 0)], 4);
    var w := Start(db);
    ThreeSteps(w, 1, RENAMING, 0, now, NO_BUNDLE);
    var w1 := EnsureNode(w, 1, RENAMING[0], 0, now, NO_BUNDLE);
    Renamed(w, RENAMING[0], 1, now);
    var w2 := EnsureNode(w1, 1, RENAMING[1], 0, now, NO_BUNDLE);
    Renamed(w1, RENAMING[1], 2, now);
    var r := EnsureNode(w2, 1, RENAMING[2], 0, now, NO_BUNDLE).db;
    Renamed(w2, RENAMING[2], 3, now);
    PassedOn(db.items, r.items);
    var ids, moves := ChainMoves(db, 1, RENAMING, 0, now, NO_BUNDLE);
    CarriedIs(db.items, r.items, ids, moves, "a", "c");
    OnlyMoves(moves, "a");
    OneKept("a", "c", "b");
    OneKept("c", "c", "b");
  }

  lemma ShortPlain()
    ensures forall s :: |s| == 1 ==> BaseGUID(s) == s && !HasEdition(s)
  {
  }

  lemma PassedOn(before: Items, after: Items)
    requires before == TWO_RENAMED && after.Keys == before.Keys
    requires after[1].typ == Show && after[1].guid == "b" && after[2].typ == Season && after[2].guid == "c"
    requires after[3].typ == Episode && after[3].guid == "e"
    ensures CarriedTo(before, after, "a", "c")
  {
    assert RekeyedFrom(before, after, 0, 1, "a") && RekeyedFrom(before, after, 1, 2, "b");
    assert Passes(before, after, 0, "a", "b") && Passes(before, after, 1, "b", "c") && Passes(before, after, 2, "c", "c");
  }

  /** A step whose node only this row is known for takes it, and gives it the node's guid. */
  lemma Renamed(w: Walk, n: Node, id: int, now: int)
    requires BelowNext(w.db) && n.edition == "" && |n.guid| == 1 && id in w.db.items && |w.db.items[id].guid| == 1
    requires forall y :: y in w.db.items ==> (Known(w.db.items[y], 1, w.parent, n) <==> y == id)
    requires w.db.items[id].deleted.None? && w.db.items[id].edition == ""
    ensures var r := EnsureNode(w, 1, n, 0, now, NO_BUNDLE);
      && r.parent == Some(id) && BelowNext(r.db) && r.db.items == w.db.items[id := r.db.items[id]]
      && var it, was := r.db.items[id], w.db.items[id];
         it.guid == n.guid && it.deleted.None? && it.edition == "" && it.section == was.section && it.typ == n.typ == was.typ
         && it.parent == w.parent && it.index == Place(n)
  {
    ShortPlain();
    hide BaseGUID, HasEdition, Known, MoveWatchState;
    LocateFinds(w.db.items, 1, w.parent, n);
    StepKeys(w, 1, n, 0, now, NO_BUNDLE);
    EnsureNodeFrame(w, 1, n, 0, now, NO_BUNDLE);
  }

  // ---------------------------------------------------------------------
  // The hint
  // ---------------------------------------------------------------------

  /** No live row is known for the node's. */
  ghost predicate NoneLiveFor(items: Items, section: int, parent: Option<int>, n: Node) {
    forall y :: y in items && Known(items[y], section, parent, n) ==> items[y].deleted.Some?
  }

  lemma HintStep(w: Walk, section: int, n: Node, hint: int, now: int, bundle: string -> string)
    requires hint != 0 && LiveItem(w.db.items, hint) && w.db.items[hint].section == section && w.db.items[hint].typ == n.typ
    requires NoneLiveFor(w.db.items, section, w.parent, n)
    ensures EnsureNode(w, section, n, hint, now, bundle).parent == Some(hint)
  {
    hide Known, MoveWatchState;
    LocateFinds(w.db.items, section, w.parent, n);
  }

  lemma SameKnown(a: Items, b: Items, section: int, parent: Option<int>, n: Node)
    requires NoneLiveFor(a, section, parent, n)
    requires forall y :: y in b && b[y].typ == n.typ ==> y in a && b[y] == a[y]
    ensures NoneLiveFor(b, section, parent, n)
  {
    hide BaseGUID;
  }

  /** The row the file hangs off is kept as the leaf while no live row is known for it. */
  lemma HintKept(db: Db, section: int, chain: seq<Node>, hint: int, now: int, bundle: string -> string)
    requires BelowNext(db) && Resolved(chain) && hint != 0 && LiveItem(db.items, hint)
    requires db.items[hint].section == section && db.items[hint].typ == chain[|chain| - 1].typ
    ensures var r := EnsureFrom(Start(db), section, chain, hint, now, bundle);
      && r.parent.Some? && r.parent.value in r.db.items
      && (NoneLiveFor(db.items, section, r.db.items[r.parent.value].parent, chain[|chain| - 1]) ==> r.parent == Some(hint))
  {
    hide EnsureNode, EnsureFrom, NoneLiveFor, BaseGUID;
    var w := Start(db);
    if |chain| == 1 {
      OneStep(w, section, chain, hint, now, bundle);
      EnsureNodeFrame(w, section, chain[0], hint, now, bundle);
      if NoneLiveFor(db.items, section, None, chain[0]) { HintStep(w, section, chain[0], hint, now, bundle); }
    } else {
      ThreeSteps(w, section, chain, hint, now, bundle);
      ShowHint(w, section, chain, hint, now, bundle);
    }
  }

  lemma ShowHint(w: Walk, section: int, chain: seq<Node>, hint: int, now: int, bundle: string -> string)
    requires BelowNext(w.db) && w == Start(w.db) && hint != 0 && LiveItem(w.db.items, hint)
    requires |chain| == 3 && chain[0].typ == Show && chain[1].typ == Season && chain[2].typ == Episode
    requires w.db.items[hint].section == section && w.db.items[hint].typ == Episode
    ensures var w1 := EnsureNode(w, section, chain[0], 0, now, bundle);
      var w2 := EnsureNode(w1, section, chain[1], 0, now, bundle);
      var r := EnsureNode(w2, section, chain[2], hint, now, bundle);
      && r.parent.Some? && r.parent.value in r.db.items
      && (NoneLiveFor(w.db.items, section, r.db.items[r.parent.value].parent, chain[2]) ==> r.parent == Some(hint))
  {
    hide EnsureNode, NoneLiveFor, BaseGUID;
    var w1 := EnsureNode(w, section, chain[0], 0, now, bundle);
    var w2 := EnsureNode(w1, section, chain[1], 0, now, bundle);
    EnsureNodeFrame(w, section, chain[0], 0, now, bundle);
    EnsureNodeFrame(w1, section, chain[1], 0, now, bundle);
    EnsureNodeFrame(w2, section, chain[2], hint, now, bundle);
    if NoneLiveFor(w.db.items, section, w2.parent, chain[2]) {
      SameKnown(w.db.items, w2.db.items, section, w2.parent, chain[2]);
      HintStep(w2, section, chain[2], hint, now, bundle);
    }
  }
}
