/** The label reconciler (pkg/plexseed/labels.go). */
module Labels {
  /** A label tagging; `ours` is whether the seeder wrote it. */
  datatype Label = Label(id: int, tag: string, ours: bool)

  /** How labels compare: without surrounding space, in lower case. */
  datatype Text = Text(trim: string -> string, fold: string -> string)

  /** The keys of the wanted labels. */
  function Keys(want: seq<string>, text: Text): set<string> {
    set w | w in want && text.trim(w) != "" :: text.fold(text.trim(w))
  }

  predicate HasKey(labels: seq<Label>, k: string, text: Text) { exists l :: l in labels && text.fold(l.tag) == k }

  lemma HasKeyMore(labels: seq<Label>, l: Label, text: Text)
    ensures forall k :: HasKey(labels + [l], k, text) <==> HasKey(labels, k, text) || text.fold(l.tag) == k
  {
  }

  /** Every label of ours is wanted, and every wanted one is there, ours or the
      owner's. */
  ghost predicate Settled(have: seq<Label>, want: seq<string>, text: Text) {
    && (forall l :: l in have && l.ours ==> text.fold(l.tag) in Keys(want, text))
    && (forall k :: k in Keys(want, text) ==> HasKey(have, k, text))
  }

  /** The wanted labels, each once. */
  method Desired(want: seq<string>, text: Text) returns (desired: seq<string>, seen: set<string>)
    ensures seen == Keys(want, text)
    ensures forall k :: k in seen <==> exists i :: 0 <= i < |desired| && text.fold(desired[i]) == k
    ensures forall i, j :: 0 <= i < j < |desired| ==> text.fold(desired[i]) != text.fold(desired[j])
    ensures forall d :: d in desired ==> d != "" && exists w :: w in want && text.trim(w) == d
  {
    desired, seen := [], {};
    for i := 0 to |want|
      invariant seen == Keys(want[..i], text)
      invariant forall k :: k in seen <==> exists j :: 0 <= j < |desired| && text.fold(desired[j]) == k
      invariant forall j, k :: 0 <= j < k < |desired| ==> text.fold(desired[j]) != text.fold(desired[k])
      invariant forall d :: d in desired ==> d != "" && exists w :: w in want && text.trim(w) == d
    {
      assert want[..i + 1] == want[..i] + [want[i]];
      var w := text.trim(want[i]);
      assert want[i] in want;
      if w == "" || text.fold(w) in seen {
        continue;
      }
      ghost var was := desired;
      desired, seen := desired + [w], seen + {text.fold(w)};
      assert forall j :: 0 <= j < |was| ==> desired[j] == was[j];
      assert desired[|was|] == w;
    }
    assert want[..|want|] == want;
  }

  /** The labels that stay: the owner's, and ours that are still wanted. */
  function Kept(have: seq<Label>, seen: set<string>, text: Text): seq<Label> {
    if have == [] then []
    else (if have[0].ours && text.fold(have[0].tag) !in seen then [] else [have[0]]) + Kept(have[1..], seen, text)
  }

  lemma {:induction false} KeptHas(have: seq<Label>, seen: set<string>, text: Text)
    ensures forall l :: l in Kept(have, seen, text) <==> l in have && (!l.ours || text.fold(l.tag) in seen)
  {
    if have != [] {
      KeptHas(have[1..], seen, text);
      assert have == [have[0]] + have[1..];
    }
  }

  lemma {:induction false} KeptOne(have: seq<Label>, l: Label, seen: set<string>, text: Text)
    ensures Kept(have + [l], seen, text) ==
      Kept(have, seen, text) + if l.ours && text.fold(l.tag) !in seen then [] else [l]
    decreases |have|
  {
    if have == [] {
      assert have + [l] == [l] && [l][1..] == [];
    } else {
      assert (have + [l])[1..] == have[1..] + [l];
      KeptOne(have[1..], l, seen, text);
      assert Kept(have, seen, text) ==
        (if have[0].ours && text.fold(have[0].tag) !in seen then [] else [have[0]]) + Kept(have[1..], seen, text);
    }
  }

  lemma {:induction false} KeptAll(have: seq<Label>, seen: set<string>, text: Text)
    requires forall l :: l in have && l.ours ==> text.fold(l.tag) in seen
    ensures Kept(have, seen, text) == have
  {
    if have != [] {
      assert have == [have[0]] + have[1..];
      KeptAll(have[1..], seen, text);
    }
  }

  /** The first loop: ours that are unwanted go. */
  method Remove(have: seq<Label>, seen: set<string>, text: Text)
    returns (after: seq<Label>, present: set<string>, removed: nat)
    ensures after == Kept(have, seen, text) && |after| == |have| - removed
    ensures forall k :: k in present <==> HasKey(after, k, text)
  {
    after, removed, present := [], 0, {};
    for i := 0 to |have|
      invariant after == Kept(have[..i], seen, text) && |after| == i - removed
      invariant forall k :: k in present <==> HasKey(after, k, text)
    {
      hide Kept, HasKey;
      KeptOne(have[..i], have[i], seen, text);
      assert have[..i + 1] == have[..i] + [have[i]];
      if have[i].ours && text.fold(have[i].tag) !in seen {
        removed := removed + 1;
      } else {
        HasKeyMore(after, have[i], text);
        after, present := after + [have[i]], present + {text.fold(have[i].tag)};
      }
    }
    assert have[..|have|] == have;
  }

  /** A label somebody set under each key. */
  ghost predicate AllThere(labels: seq<Label>, keys: seq<string>, text: Text) {
    forall j :: 0 <= j < |keys| ==> HasKey(labels, text.fold(keys[j]), text)
  }

  /** The second loop: a desired one nobody set is added. */
  method Add(kept: seq<Label>, desired: seq<string>, present: set<string>, text: Text, next0: int)
    returns (after: seq<Label>, written: nat)
    requires forall k :: k in present <==> HasKey(kept, k, text)
    ensures kept <= after && |after| == |kept| + written && AllThere(after, desired, text)
    ensures forall i :: |kept| <= i < |after| ==>
      && after[i].ours && next0 <= after[i].id && after[i].tag in desired
      && text.fold(after[i].tag) !in present
    ensures (forall j :: 0 <= j < |desired| ==> text.fold(desired[j]) in present) ==> written == 0
  {
    after, written := kept, 0;
    for i := 0 to |desired|
      invariant kept <= after && |after| == |kept| + written
      invariant forall k :: k in present ==> HasKey(after, k, text)
      invariant forall j :: 0 <= j < i ==> HasKey(after, text.fold(desired[j]), text)
      invariant forall i :: |kept| <= i < |after| ==>
        && after[i].ours && next0 <= after[i].id && after[i].tag in desired
        && text.fold(after[i].tag) !in present
      invariant (forall j :: 0 <= j < i ==> text.fold(desired[j]) in present) ==> written == 0
    {
      hide HasKey;
      if text.fold(desired[i]) !in present {
        var added := Label(next0 + written, desired[i], true);
        HasKeyMore(after, added, text);
        after, written := after + [added], written + 1;
      }
    }
  }

  /** ReconcileLabelsTx: the owner's labels and the wanted ones of ours stay as they
      are, ours that are unwanted go, a wanted one nobody set is added; a second run
      has nothing to do. */
  method ReconcileLabels(have: seq<Label>, want: seq<string>, text: Text, next0: int)
    returns (after: seq<Label>, written: nat, removed: nat)
    ensures Settled(after, want, text)
    ensures var kept := Kept(have, Keys(want, text), text);
      && kept <= after
      && forall i :: |kept| <= i < |after| ==>
           after[i].ours && next0 <= after[i].id && (exists w :: w in want && text.trim(w) == after[i].tag) && forall l :: l in kept ==> text.fold(l.tag) != text.fold(after[i].tag)
    ensures |after| == |have| + written - removed
    ensures Settled(have, want, text) ==> after == have && written == 0 && removed == 0
  {
    var desired, seen := Desired(want, text);
    KeptHas(have, seen, text);
    var present;
    after, present, removed := Remove(have, seen, text);
    var kept := after;
    after, written := Add(kept, desired, present, text, next0);
    Settles(kept, after, desired, want, seen, text);
    if Settled(have, want, text) {
      KeptAll(have, seen, text);
      forall j | 0 <= j < |desired| ensures text.fold(desired[j]) in present {
        assert text.fold(desired[j]) in Keys(want, text);
      }
    }
  }

  lemma Settles(kept: seq<Label>, after: seq<Label>, desired: seq<string>, want: seq<string>, seen: set<string>, text: Text)
    requires seen == Keys(want, text) && kept <= after && AllThere(after, desired, text)
    requires forall k :: k in seen <==> exists i :: 0 <= i < |desired| && text.fold(desired[i]) == k
    requires forall l :: l in kept && l.ours ==> text.fold(l.tag) in seen
    requires forall i :: |kept| <= i < |after| ==> after[i].tag in desired
    ensures Settled(after, want, text)
  {
  }
}
