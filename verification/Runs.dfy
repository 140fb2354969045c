/** Runs of the projection: any sequence of its transactions. */
module Runs {
  import opened Options
  import opened Library
  import opened Projection
  import opened Transactions
  import opened Removal

  datatype Op =
    | Apply(section: int, location: int, c: Change, now: int)
    | Delete(section: int, uid: string, now: int)
    | Remove(m: int, now: int)
    | Restore(m: int, now: int)

  ghost predicate Allowed(op: Op) {
    match op
    case Apply(_, _, c, _) => Valid(c)
    case Delete(_, uid, _) => uid != ""
    case _ => true
  }

  /** One transaction; one that fails, or finds its row taken, changes nothing. */
  ghost function Step(env: Env, db: Db, op: Op): Db
    requires Sound(db) && Allowed(op)
  {
    match op
    case Apply(section, location, c, now) =>
      var r := ApplyTx(env, db, section, location, c, now);
      if r.Done? then r.db else db
    case Delete(section, uid, now) => if env.fails(uid) then db else DeleteTx(db, section, uid, now)
    case Remove(m, now) => if Removable(db, m) then RemoveGone(db, m, now) else db
    case Restore(m, now) => if Revivable(db, m) then Revive(db, m, now) else db
  }

  lemma StepSound(env: Env, db: Db, op: Op)
    requires Sound(db) && Allowed(op)
    ensures Sound(Step(env, db, op))
  {
    match op
    case Apply(section, location, c, now) => ApplySound(env, db, section, location, c, now);
    case Delete(section, uid, now) => DeleteSound(db, section, uid, now);
    case Remove(m, now) => if Removable(db, m) { RemoveSound(db, m, now); }
    case Restore(m, now) => if Revivable(db, m) { ReviveSound(db, m, now); }
  }

  ghost function Run(env: Env, db: Db, ops: seq<Op>): Db
    requires Sound(db) && forall i :: 0 <= i < |ops| ==> Allowed(ops[i])
    decreases |ops|
  {
    if ops == [] then db
    else
      StepSound(env, db, ops[0]);
      Run(env, Step(env, db, ops[0]), ops[1..])
  }

  lemma {:induction false} RunSound(env: Env, db: Db, ops: seq<Op>)
    requires Sound(db) && forall i :: 0 <= i < |ops| ==> Allowed(ops[i])
    ensures Sound(Run(env, db, ops))
    decreases |ops|
  {
    hide Sound, Step;
    if ops != [] {
      StepSound(env, db, ops[0]);
      RunSound(env, Step(env, db, ops[0]), ops[1..]);
    }
  }

  /** From a sound library, every run keeps each live media row on a live item
      and backed by a live part, each live item under a live parent, each
      media_item_count equal to the item's live rows, and each file at no more
      than one live row of a section. */
  lemma RunKeepsLibrary(env: Env, db: Db, ops: seq<Op>)
    requires Sound(db) && forall i :: 0 <= i < |ops| ==> Allowed(ops[i])
    ensures var r := Run(env, db, ops);
      && (forall m :: LiveMedia(r.media, m) ==> LiveItem(r.items, r.media[m].item) && HasPart(r.parts, m, None))
      && (forall i :: LiveItem(r.items, i) && r.items[i].parent.Some? ==> LiveItem(r.items, r.items[i].parent.value))
      && (forall i :: i in r.items ==> r.items[i].count == |MediaOn(r.media, i)|)
      && (forall m, k :: LiveMedia(r.media, m) && LiveMedia(r.media, k) && SameStamp(r.media[m], r.media[k]) ==> m == k)
  {
    RunSound(env, db, ops);
    hide Run;
  }
}
