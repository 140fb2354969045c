/** The marker reconciler (pkg/plexseed/seeder.go) and the rows it is given
    (pkg/plexseed/rows.go). */
module Markers {
  import opened Options
  import opened Sorting

  /** The sources `ours` recognises. */
  const MARKER_SOURCE := "theintrodb"
  const OUR_SOURCES := {MARKER_SOURCE, "chapters", "analysis"}

  /** What makes two markers of a kind the same. */
  datatype Span = Span(index: int, start: int, end: int, final: bool)

  /** A marker tagging of the item; `source` is its extra_data's, "" for none. */
  datatype Row = Row(id: int, kind: string, span: Span, source: string)

  /** A marker to write. */
  datatype Desired = Desired(span: Span, source: string)

  predicate Ours(r: Row) { r.source in OUR_SOURCES }

  function SourceOf(d: Desired): string { if d.source == "" then MARKER_SOURCE else d.source }

  predicate Recognised(d: Desired) { SourceOf(d) in OUR_SOURCES }

  // ---------------------------------------------------------------------
  // same
  // ---------------------------------------------------------------------

  predicate Matches(r: Row, d: Desired) { Ours(r) && r.span == d.span }

  predicate Has(have: seq<Row>, d: Desired) { exists r :: r in have && Matches(r, d) }

  predicate Same(have: seq<Row>, desired: seq<Desired>) {
    |have| == |desired| && forall d :: d in desired ==> Has(have, d)
  }

  /** same, as its loops go. */
  method IsSame(have: seq<Row>, desired: seq<Desired>) returns (yes: bool)
    ensures yes == Same(have, desired)
  {
    if |have| != |desired| {
      return false;
    }
    for i := 0 to |desired|
      invariant forall j :: 0 <= j < i ==> Has(have, desired[j])
    {
      var found := false;
      for k := 0 to |have|
        invariant found ==> Has(have, desired[i])
        invariant !found ==> forall m :: 0 <= m < k ==> !Matches(have[m], desired[i])
      {
        if Matches(have[k], desired[i]) {
          assert have[k] in have;
          found := true;
        }
      }
      if !found {
        assert !Has(have, desired[i]) && desired[i] in desired;
        return false;
      }
    }
    return true;
  }

  function Spans(have: seq<Row>): seq<Span> { seq(|have|, i requires 0 <= i < |have| => have[i].span) }

  function Wanted(desired: seq<Desired>): seq<Span> {
    seq(|desired|, i requires 0 <= i < |desired| => desired[i].span)
  }

  ghost predicate Distinct(s: seq<Span>) { forall i, j :: 0 <= i < j < |s| ==> s[i] != s[j] }

  /** The rows are ours and, in some order, the desired ones. */
  ghost predicate Permutation(have: seq<Row>, desired: seq<Desired>) {
    (forall r :: r in have ==> Ours(r)) && multiset(Spans(have)) == multiset(Wanted(desired))
  }

  function Fewer(have: seq<Row>, k: nat): (r: seq<Row>)
    requires k < |have|
    ensures |r| == |have| - 1
    ensures forall m :: 0 <= m < |have| && m != k ==> have[m] in r
  {
    var r := have[..k] + have[k + 1..];
    assert forall m :: 0 <= m < |have| && m != k ==> r[if m < k then m else m - 1] == have[m];
    r
  }

  lemma SpansOne(a: seq<Row>, k: nat)
    requires k < |a|
    ensures multiset(Spans(a)) == multiset(Spans(Fewer(a, k))) + multiset{a[k].span}
  {
    assert Spans(a) == Spans(a[..k]) + [a[k].span] + Spans(a[k + 1..]);
    assert Spans(a[..k] + a[k + 1..]) == Spans(a[..k]) + Spans(a[k + 1..]);
  }

  /** Without the row that matches the first desired marker, the rest are the same. */
  lemma FewerSame(have: seq<Row>, desired: seq<Desired>, k: nat)
    requires Same(have, desired) && Distinct(Wanted(desired))
    requires desired != [] && k < |have| && Matches(have[k], desired[0])
    ensures Same(Fewer(have, k), desired[1..]) && Distinct(Wanted(desired[1..]))
  {
    var spans := Wanted(desired);
    assert forall i :: 0 <= i < |desired| - 1 ==> Wanted(desired[1..])[i] == spans[i + 1];
    forall e | e in desired[1..] ensures Has(Fewer(have, k), e) {
      var i :| 0 < i < |desired| && desired[i] == e;
      assert desired[i] in desired && spans[i] == e.span && spans[0] == desired[0].span;
      assert Has(have, e);
      var q :| q in have && Matches(q, e);
      var m :| 0 <= m < |have| && have[m] == q;
      assert have[m] in Fewer(have, k);
    }
  }

  /** Where no two desired markers are alike, rows that are `same` as them are a
      permutation of them. */
  lemma {:induction false} SameIsPermutation(have: seq<Row>, desired: seq<Desired>)
    requires Same(have, desired) && Distinct(Wanted(desired))
    ensures Permutation(have, desired)
    decreases |desired|
  {
    if desired == [] {
      assert Spans(have) == Wanted(desired);
    } else {
      assert Has(have, desired[0]);
      var r :| r in have && Matches(r, desired[0]);
      var k :| 0 <= k < |have| && have[k] == r;
      FewerSame(have, desired, k);
      SameIsPermutation(Fewer(have, k), desired[1..]);
      SpansOne(have, k);
      assert Wanted(desired) == [desired[0].span] + Wanted(desired[1..]);
    }
  }

  /** Where two are alike, some rows are `same` that are no permutation: a row of
      Plex's beside one of ours. */
  lemma AlikeBreaksSame(desired: seq<Desired>, i: nat, j: nat) returns (have: seq<Row>)
    requires i < j < |desired| && desired[i].span == desired[j].span
    ensures Same(have, desired) && !Permutation(have, desired)
  {
    have := seq(|desired|, k requires 0 <= k < |desired| =>
      Row(k, "intro", desired[k].span, if k == j then "" else MARKER_SOURCE));
    forall d | d in desired ensures Has(have, d) {
      var k :| 0 <= k < |desired| && desired[k] == d;
      var m := if k == j then i else k;
      assert have[m] in have && Matches(have[m], d);
    }
    assert have[j] in have && !Ours(have[j]);
  }

  /** So `same` means a permutation exactly of desired markers no two of which are
      alike. */
  lemma SameMeansPermutationExactly(desired: seq<Desired>)
    ensures (forall have :: Same(have, desired) ==> Permutation(have, desired)) <==> Distinct(Wanted(desired))
  {
    if Distinct(Wanted(desired)) {
      forall have | Same(have, desired) ensures Permutation(have, desired) { SameIsPermutation(have, desired); }
    } else {
      var i, j :| 0 <= i < j < |Wanted(desired)| && Wanted(desired)[i] == Wanted(desired)[j];
      var have := AlikeBreaksSame(desired, i, j);
    }
  }

  // ---------------------------------------------------------------------
  // MarkerRows
  // ---------------------------------------------------------------------

  datatype Segment = Segment(kind: string, start: int, end: int, source: string)

  /** What was fetched; `answered` when TheIntroDB or the analysis answered. */
  datatype Fetched = Fetched(segments: seq<Segment>, answered: bool)

  const FINAL_SLACK := 2000

  predicate ByStart(a: Segment, b: Segment) { a.start <= b.start }

  /** The kind of marker a segment becomes: a recap is a second intro, a preview
      credits. */
  function TextOf(kind: string): Option<string> {
    if kind == "intro" || kind == "recap" then Some("intro")
    else if kind == "credits" || kind == "preview" then Some("credits")
    else None
  }

  function OfText(segs: seq<Segment>, text: string): seq<Segment> {
    if segs == [] then []
    else OfText(segs[..|segs| - 1], text) + if TextOf(segs[|segs| - 1].kind) == Some(text) then [segs[|segs| - 1]] else []
  }

  function MarkerOf(s: Segment, index: nat, duration: int): Desired {
    Desired(Span(index, s.start, s.end, s.kind == "credits" && duration > 0 && s.end >= duration - FINAL_SLACK),
            if s.source == "" then MARKER_SOURCE else s.source)
  }

  /** The markers are those of the segments, in their order. */
  ghost predicate MadeOf(desired: seq<Desired>, segs: seq<Segment>, duration: int) {
    && |desired| == |segs|
    && forall i :: 0 <= i < |segs| ==> var span := desired[i].span;
         && span.index == i && span.start == segs[i].start && span.end == segs[i].end
         && (span.final <==> segs[i].kind == "credits" && duration > 0 && segs[i].end >= duration - FINAL_SLACK)
         && desired[i].source == if segs[i].source == "" then MARKER_SOURCE else segs[i].source
  }

  /** Each marker's index is its place. */
  ghost predicate Numbered(desired: seq<Desired>) { forall i :: 0 <= i < |desired| ==> desired[i].span.index == i }

  lemma NumberedIsDistinct(desired: seq<Desired>)
    requires Numbered(desired)
    ensures Distinct(Wanted(desired))
  {
    forall i, j | 0 <= i < j < |desired| ensures Wanted(desired)[i] != Wanted(desired)[j] {
      assert Wanted(desired)[i].index == i && Wanted(desired)[j].index == j;
    }
  }

  /** Of the rows MarkerRows makes, `same` means exactly a permutation. */
  lemma SameIsExactlyPermutation(have: seq<Row>, desired: seq<Desired>)
    requires Numbered(desired)
    ensures Same(have, desired) <==> Permutation(have, desired)
  {
    NumberedIsDistinct(desired);
    if Same(have, desired) {
      SameIsPermutation(have, desired);
    } else if Permutation(have, desired) {
      PermutationIsSame(have, desired);
    }
  }

  lemma PermutationIsSame(have: seq<Row>, desired: seq<Desired>)
    requires Permutation(have, desired)
    ensures Same(have, desired)
  {
    assert |Spans(have)| == |multiset(Spans(have))| == |Wanted(desired)|;
    forall d | d in desired ensures Has(have, d) {
      var i :| 0 <= i < |desired| && desired[i] == d;
      assert Wanted(desired)[i] in multiset(Wanted(desired));
      assert d.span in Spans(have);
      var j :| 0 <= j < |have| && Spans(have)[j] == d.span;
      assert have[j] in have;
    }
  }

  /** sort.SliceStable by start. */
  function InTime(segs: seq<Segment>): (r: seq<Segment>)
    ensures InOrder(r, ByStart) && multiset(r) == multiset(segs)
  {
    Sort(segs, ByStart)
  }

  /** The markers of both kinds are made of these segments, numbered. */
  ghost predicate Gathered(want: map<string, seq<Desired>>, segs: seq<Segment>, duration: int) {
    && want.Keys == {"intro", "credits"}
    && forall k :: k in want ==> MadeOf(want[k], OfText(segs, k), duration) && Numbered(want[k])
  }

  function Gather(want: map<string, seq<Desired>>, s: Segment, duration: int): map<string, seq<Desired>> {
    var text := TextOf(s.kind);
    if text.Some? && text.value in want
    then want[text.value := want[text.value] + [MarkerOf(s, |want[text.value]|, duration)]] else want
  }

  lemma GatheredNone(duration: int)
    ensures Gathered(map["intro" := [], "credits" := []], [], duration)
  {
  }

  lemma GatheredOne(want: map<string, seq<Desired>>, segs: seq<Segment>, s: Segment, duration: int)
    requires Gathered(want, segs, duration)
    ensures Gathered(Gather(want, s, duration), segs + [s], duration)
  {
    hide MadeOf, MarkerOf, TextOf, Numbered;
    assert (segs + [s])[..|segs|] == segs && (segs + [s])[|segs|] == s;
    var more := Gather(want, s, duration);
    assert more.Keys == want.Keys;
    forall k | k in more ensures MadeOf(more[k], OfText(segs + [s], k), duration) && Numbered(more[k]) {
      assert MadeOf(want[k], OfText(segs, k), duration) && Numbered(want[k]);
      assert OfText(segs, k) + [] == OfText(segs, k);
      if TextOf(s.kind) == Some(k) { MadeMore(want[k], OfText(segs, k), s, duration); }
    }
  }

  lemma MadeMore(desired: seq<Desired>, segs: seq<Segment>, s: Segment, duration: int)
    requires MadeOf(desired, segs, duration) && Numbered(desired)
    ensures var more := desired + [MarkerOf(s, |desired|, duration)]; MadeOf(more, segs + [s], duration) && Numbered(more)
  {
  }

  /** An intro or a recap becomes an intro marker, credits or a preview a credits one. */
  predicate Becomes(kind: string, text: string) {
    (text == "intro" && kind in {"intro", "recap"}) || (text == "credits" && kind in {"credits", "preview"})
  }

  /** The segments of a text are those that become one, as often as they are there. */
  lemma {:induction false} OfTextIs(segs: seq<Segment>, text: string, s: Segment)
    ensures multiset(OfText(segs, text))[s] == if Becomes(s.kind, text) then multiset(segs)[s] else 0
    decreases |segs|
  {
    hide TextOf, Becomes;
    if segs != [] {
      var n := |segs| - 1;
      OfTextIs(segs[..n], text, s);
      TextIs(segs[n].kind, text);
      assert segs == segs[..n] + [segs[n]];
      CountOne(segs[..n], segs[n], true, s);
      CountOne(OfText(segs[..n], text), segs[n], TextOf(segs[n].kind) == Some(text), s);
    }
  }

  lemma CountOne(head: seq<Segment>, x: Segment, there: bool, s: Segment)
    ensures multiset(head + if there then [x] else [])[s] == multiset(head)[s] + if there && x == s then 1 else 0
  {
    assert head + [] == head;
  }

  lemma TextIs(kind: string, text: string)
    ensures TextOf(kind) == Some(text) <==> Becomes(kind, text)
  {
  }

  /** Segments that start together stay in the order they were given. */
  lemma InTimeIsStable(segs: seq<Segment>, start: int)
    ensures Chosen(InTime(segs), StartsAt(start)) == Chosen(segs, StartsAt(start))
  {
    SortIsStable(segs, ByStart, StartsAt(start));
  }

  function StartsAt(start: int): Segment -> bool { (s: Segment) => s.start == start }

  /** Nothing, when nothing was answered; else the segments of each kind by their
      start, numbered, which makes no two of a kind alike. */
  method MarkerRows(m: Option<Fetched>, duration: int) returns (want: Option<map<string, seq<Desired>>>)
    ensures want.None? <==> m.None? || (m.value.segments == [] && !m.value.answered)
    ensures want.Some? ==> Gathered(want.value, InTime(m.value.segments), duration)
  {
    if m.None? || (m.value.segments == [] && !m.value.answered) {
      return None;
    }
    var out := GatherAll(InTime(m.value.segments), duration);
    want := Some(out);
  }

  /** The loop over the segments. */
  method GatherAll(segs: seq<Segment>, duration: int) returns (out: map<string, seq<Desired>>)
    ensures Gathered(out, segs, duration)
  {
    hide *;
    GatheredNone(duration);
    out := map["intro" := [], "credits" := []];
    assert segs[..0] == [];
    for i := 0 to |segs|
      invariant Gathered(out, segs[..i], duration)
    {
      GatheredOne(out, segs[..i], segs[i], duration);
      assert segs[..i + 1] == segs[..i] + [segs[i]];
      out := Gather(out, segs[i], duration);
    }
    assert segs[..|segs|] == segs;
  }

  // ---------------------------------------------------------------------
  // One kind
  // ---------------------------------------------------------------------

  function Keep(rows: seq<Row>, keep: Row -> bool): (r: seq<Row>)
    ensures forall x :: x in r <==> x in rows && keep(x)
  {
    if rows == [] then []
    else (if keep(rows[0]) then [rows[0]] else []) + Keep(rows[1..], keep)
  }

  function Of(kind: string): Row -> bool { (r: Row) => r.kind == kind }

  function NotOf(kind: string): Row -> bool { (r: Row) => r.kind != kind }

  function OursOf(kind: string): Row -> bool { (r: Row) => r.kind == kind && Ours(r) }

  function NotOursOf(kind: string): Row -> bool { (r: Row) => !(r.kind == kind && Ours(r)) }

  function Plexs(): Row -> bool { (r: Row) => !Ours(r) }

  function OfKind(rows: seq<Row>, kind: string): seq<Row> { Keep(rows, Of(kind)) }

  function Written(kind: string, desired: seq<Desired>, next: int): (r: seq<Row>)
    ensures |r| == |desired|
    ensures forall i :: 0 <= i < |r| ==> r[i] == Row(next + i, kind, desired[i].span, SourceOf(desired[i]))
  {
    seq(|desired|, i requires 0 <= i < |desired| => Row(next + i, kind, desired[i].span, SourceOf(desired[i])))
  }

  /** A kind with desired rows is ours: they replace what it has unless that is the
      same; a kind with none keeps Plex's rows and loses ours. */
  function KindDone(rows: seq<Row>, kind: string, desired: seq<Desired>, next: int): seq<Row> {
    if desired == [] then Keep(rows, NotOursOf(kind))
    else if Same(OfKind(rows, kind), desired) then rows
    else Keep(rows, NotOf(kind)) + Written(kind, desired, next)
  }

  lemma {:induction false} KeepAll(rows: seq<Row>, keep: Row -> bool)
    requires forall r :: r in rows ==> keep(r)
    ensures Keep(rows, keep) == rows
  {
    if rows != [] {
      assert rows == [rows[0]] + rows[1..];
      KeepAll(rows[1..], keep);
    }
  }

  lemma {:induction false} KeepNone(rows: seq<Row>, keep: Row -> bool)
    requires forall r :: r in rows ==> !keep(r)
    ensures Keep(rows, keep) == []
  {
    if rows != [] {
      KeepNone(rows[1..], keep);
    }
  }

  lemma {:induction false} KeepBoth(rows: seq<Row>, p: Row -> bool, q: Row -> bool)
    requires forall r :: r in rows && q(r) ==> p(r)
    ensures Keep(Keep(rows, p), q) == Keep(rows, q)
  {
    if rows != [] {
      KeepBoth(rows[1..], p, q);
      KeepJoin(if p(rows[0]) then [rows[0]] else [], Keep(rows[1..], p), q);
      assert Keep([rows[0]], q) == if q(rows[0]) then [rows[0]] else [];
    }
  }

  lemma {:induction false} KeepJoin(a: seq<Row>, b: seq<Row>, keep: Row -> bool)
    ensures Keep(a + b, keep) == Keep(a, keep) + Keep(b, keep)
  {
    if a == [] {
      assert a + b == b;
    } else {
      assert (a + b)[1..] == a[1..] + b;
      KeepJoin(a[1..], b, keep);
    }
  }

  /** Another kind's rows are left as they are. */
  lemma OtherKindKept(rows: seq<Row>, kind: string, desired: seq<Desired>, next: int, other: string)
    requires other != kind
    ensures OfKind(KindDone(rows, kind, desired, next), other) == OfKind(rows, other)
  {
    if desired == [] {
      KeepBoth(rows, NotOursOf(kind), Of(other));
    } else if !Same(OfKind(rows, kind), desired) {
      KeepBoth(rows, NotOf(kind), Of(other));
      KeepJoin(Keep(rows, NotOf(kind)), Written(kind, desired, next), Of(other));
      KeepNone(Written(kind, desired, next), Of(other));
    }
  }

  lemma NewRows(rows: seq<Row>, kind: string, desired: seq<Desired>, next: int)
    requires desired != [] && !Same(OfKind(rows, kind), desired)
    ensures OfKind(KindDone(rows, kind, desired, next), kind) == Written(kind, desired, next)
  {
    var others := Keep(rows, NotOf(kind));
    KeepJoin(others, Written(kind, desired, next), Of(kind));
    KeepNone(others, Of(kind));
    KeepAll(Written(kind, desired, next), Of(kind));
  }

  /** One run reaches the desired rows, of those MarkerRows makes: of a kind with some,
      exactly those markers, each once; of a kind with none, Plex's rows and none of
      ours.  The rows are all ours exactly when they were there already or `ours`
      recognises every source. */
  lemma KindReached(rows: seq<Row>, kind: string, desired: seq<Desired>, next: int)
    requires Numbered(desired)
    ensures var after := OfKind(KindDone(rows, kind, desired, next), kind);
      && (desired != [] ==>
            && multiset(Spans(after)) == multiset(Wanted(desired))
            && ((forall r :: r in after ==> Ours(r)) <==>
                Same(OfKind(rows, kind), desired) || forall d :: d in desired ==> Recognised(d)))
      && (desired == [] ==> forall r :: r in after <==> r in OfKind(rows, kind) && !Ours(r))
  {
    if desired != [] {
      if Same(OfKind(rows, kind), desired) {
        NumberedIsDistinct(desired);
        SameIsPermutation(OfKind(rows, kind), desired);
      } else {
        NewRows(rows, kind, desired, next);
        WrittenOurs(kind, desired, next);
        assert Spans(Written(kind, desired, next)) == Wanted(desired);
      }
    }
  }

  lemma WrittenOurs(kind: string, desired: seq<Desired>, next: int)
    ensures (forall r :: r in Written(kind, desired, next) ==> Ours(r)) <==> forall d :: d in desired ==> Recognised(d)
  {
    var w := Written(kind, desired, next);
    assert forall i :: 0 <= i < |w| ==> w[i] in w && desired[i] in desired && Ours(w[i]) == Recognised(desired[i]);
  }

  /** Every desired span has a source that `ours` recognises. */
  ghost predicate Covered(desired: seq<Desired>) {
    forall d :: d in desired ==> exists e :: e in desired && e.span == d.span && Recognised(e)
  }

  /** Of numbered markers that is every source. */
  lemma NumberedCovered(desired: seq<Desired>)
    requires Numbered(desired)
    ensures Covered(desired) <==> forall d :: d in desired ==> Recognised(d)
  {
    if Covered(desired) {
      forall d | d in desired ensures Recognised(d) {
        var i :| 0 <= i < |desired| && desired[i] == d;
        var e :| e in desired && e.span == d.span && Recognised(e);
        var j :| 0 <= j < |desired| && desired[j] == e;
      }
    }
  }

  /** Rows just written are `same` exactly when every span has a recognised source. */
  lemma WrittenSame(kind: string, desired: seq<Desired>, next: int)
    ensures Same(Written(kind, desired, next), desired) <==> Covered(desired)
  {
    hide Same, Covered;
    WrittenIsSame(kind, desired, next);
    WrittenIsCovered(kind, desired, next);
  }

  lemma WrittenIsSame(kind: string, desired: seq<Desired>, next: int)
    ensures Covered(desired) ==> Same(Written(kind, desired, next), desired)
  {
    if Covered(desired) {
      forall d | d in desired ensures Has(Written(kind, desired, next), d) { WrittenHas(kind, desired, next, d); }
    }
  }

  lemma WrittenHas(kind: string, desired: seq<Desired>, next: int, d: Desired)
    requires exists e :: e in desired && e.span == d.span && Recognised(e)
    ensures Has(Written(kind, desired, next), d)
  {
    var w := Written(kind, desired, next);
    var e :| e in desired && e.span == d.span && Recognised(e);
    var i :| 0 <= i < |desired| && desired[i] == e;
    assert w[i] in w && Matches(w[i], d);
  }

  lemma WrittenIsCovered(kind: string, desired: seq<Desired>, next: int)
    ensures Same(Written(kind, desired, next), desired) ==> Covered(desired)
  {
    var w := Written(kind, desired, next);
    if Same(w, desired) {
      forall d | d in desired ensures exists e :: e in desired && e.span == d.span && Recognised(e) {
        assert Has(w, d);
        var r :| r in w && Matches(r, d);
        var i :| 0 <= i < |w| && w[i] == r;
        assert desired[i] in desired;
      }
    }
  }

  /** A second run has nothing to do for a kind, exactly when the first had nothing to
      write or every span it wrote has a recognised source. */
  lemma KindTwice(rows: seq<Row>, kind: string, desired: seq<Desired>, next: int)
    ensures Quiet(KindDone(rows, kind, desired, next), kind, desired) <==>
      desired == [] || Same(OfKind(rows, kind), desired) || Covered(desired)
  {
    if desired == [] {
      OursGone(rows, kind, next);
    } else if !Same(OfKind(rows, kind), desired) {
      NewRows(rows, kind, desired, next);
      WrittenSame(kind, desired, next);
    }
  }

  /** A kind a run has nothing to do for. */
  ghost predicate Quiet(rows: seq<Row>, kind: string, desired: seq<Desired>) {
    if desired == [] then forall r :: r in OfKind(rows, kind) ==> !Ours(r) else Same(OfKind(rows, kind), desired)
  }

  // ---------------------------------------------------------------------
  // All kinds
  // ---------------------------------------------------------------------

  /** The kind's rows are what its desired rows ask for. */
  ghost predicate Reached(before: seq<Row>, after: seq<Row>, kind: string, desired: seq<Desired>) {
    exists next :: OfKind(after, kind) == OfKind(KindDone(before, kind, desired, next), kind)
  }

  lemma SameKindDone(a: seq<Row>, b: seq<Row>, kind: string, desired: seq<Desired>, next: int)
    requires OfKind(a, kind) == OfKind(b, kind)
    ensures OfKind(KindDone(a, kind, desired, next), kind) == OfKind(KindDone(b, kind, desired, next), kind)
  {
    if desired == [] {
      OursGone(a, kind, next);
      OursGone(b, kind, next);
    } else if !Same(OfKind(a, kind), desired) {
      NewRows(a, kind, desired, next);
      NewRows(b, kind, desired, next);
    }
  }

  lemma OursGone(rows: seq<Row>, kind: string, next: int)
    ensures OfKind(KindDone(rows, kind, [], next), kind) == Keep(OfKind(rows, kind), Plexs())
  {
    var theirs := (r: Row) => r.kind == kind && !Ours(r);
    KeepAnd(rows, NotOursOf(kind), Of(kind), theirs);
    KeepAnd(rows, Of(kind), Plexs(), theirs);
  }

  lemma {:induction false} KeepAnd(rows: seq<Row>, p: Row -> bool, q: Row -> bool, both: Row -> bool)
    requires forall r :: r in rows ==> both(r) == (p(r) && q(r))
    ensures Keep(Keep(rows, p), q) == Keep(rows, both)
  {
    if rows != [] {
      KeepAnd(rows[1..], p, q, both);
      KeepJoin(if p(rows[0]) then [rows[0]] else [], Keep(rows[1..], p), q);
      assert Keep([rows[0]], q) == if q(rows[0]) then [rows[0]] else [];
    }
  }

  /** reconcileMarkers: every kind asked about is reached, in any order, every
      other is untouched, and nothing is written or removed exactly when every kind
      is as asked. */
  method ReconcileMarkers(rows: seq<Row>, want: map<string, seq<Desired>>, next0: int)
    returns (after: seq<Row>, written: nat, removed: nat)
    ensures forall k :: k in want ==> Reached(rows, after, k, want[k])
    ensures forall k :: k !in want ==> OfKind(after, k) == OfKind(rows, k)
    ensures written == 0 && removed == 0 <==> forall k :: k in want ==> Quiet(rows, k, want[k])
    ensures written == 0 && removed == 0 ==> after == rows
  {
    hide Reached, OfKind, KindDone, Quiet;
    after, written, removed := rows, 0, 0;
    var todo, next := want.Keys, next0;
    while todo != {}
      invariant todo <= want.Keys && Progress(rows, after, want, todo)
      invariant written == 0 && removed == 0 <==> forall k :: k in want && k !in todo ==> Quiet(rows, k, want[k])
      invariant written == 0 && removed == 0 ==> after == rows
      decreases todo
    {
      hide Progress;
      var kind :| kind in todo;
      ghost var was := after;
      ProgressQuiet(rows, was, want, todo, kind);
      after, written, removed := ReconcileKind(after, kind, want[kind], next, written, removed);
      Progresses(rows, was, after, want, todo, kind, next);
      next, todo := next + |want[kind]|, todo - {kind};
    }
  }

  /** The kinds not to do are reached, the others as they were. */
  ghost predicate Progress(rows: seq<Row>, after: seq<Row>, want: map<string, seq<Desired>>, todo: set<string>) {
    && (forall k :: k in want && k !in todo ==> Reached(rows, after, k, want[k]))
    && (forall k :: k !in want || k in todo ==> OfKind(after, k) == OfKind(rows, k))
  }

  lemma ProgressQuiet(rows: seq<Row>, after: seq<Row>, want: map<string, seq<Desired>>, todo: set<string>, kind: string)
    requires Progress(rows, after, want, todo) && kind in todo && kind in want
    ensures Quiet(after, kind, want[kind]) == Quiet(rows, kind, want[kind])
  {
    hide OfKind;
    QuietIsOfKind(after, rows, kind, want[kind]);
  }

  lemma Progresses(rows: seq<Row>, was: seq<Row>, after: seq<Row>, want: map<string, seq<Desired>>, todo: set<string>,
                   kind: string, next: int)
    requires Progress(rows, was, want, todo) && kind in todo && kind in want && after == KindDone(was, kind, want[kind], next)
    ensures Progress(rows, after, want, todo - {kind})
  {
    hide Reached, OfKind, KindDone;
    forall k | k != kind ensures OfKind(after, k) == OfKind(was, k) { OtherKindKept(was, kind, want[kind], next, k); }
    SameKindDone(was, rows, kind, want[kind], next);
    ReachedNow(rows, after, kind, want[kind], next);
    forall k | k in want && k !in todo ensures Reached(rows, after, k, want[k]) { ReachedStays(rows, was, after, k, want[k]); }
  }

  lemma QuietIsOfKind(a: seq<Row>, b: seq<Row>, kind: string, desired: seq<Desired>)
    requires OfKind(a, kind) == OfKind(b, kind)
    ensures Quiet(a, kind, desired) == Quiet(b, kind, desired)
  {
  }

  lemma ReachedNow(before: seq<Row>, after: seq<Row>, kind: string, desired: seq<Desired>, next: int)
    requires OfKind(after, kind) == OfKind(KindDone(before, kind, desired, next), kind)
    ensures Reached(before, after, kind, desired)
  {
  }

  lemma ReachedStays(before: seq<Row>, was: seq<Row>, after: seq<Row>, kind: string, desired: seq<Desired>)
    requires Reached(before, was, kind, desired) && OfKind(after, kind) == OfKind(was, kind)
    ensures Reached(before, after, kind, desired)
  {
  }

  /** One kind; what it writes and removes is nothing exactly when there is nothing to
      do. */
  method ReconcileKind(rows: seq<Row>, kind: string, desired: seq<Desired>, next: int, w0: nat, r0: nat)
    returns (after: seq<Row>, written: nat, removed: nat)
    ensures after == KindDone(rows, kind, desired, next) && w0 <= written && r0 <= removed
    ensures Quiet(rows, kind, desired) <==> written == w0 && removed == r0
    ensures Quiet(rows, kind, desired) ==> after == rows
  {
    written, removed := w0, r0;
    if desired == [] {
      after := Keep(rows, NotOursOf(kind));
      removed := r0 + |Keep(rows, OursOf(kind))|;
      NoneOurs(rows, kind);
      return;
    }
    var same := IsSame(OfKind(rows, kind), desired);
    if same {
      return rows, w0, r0;
    }
    after := Keep(rows, NotOf(kind)) + Written(kind, desired, next);
    written, removed := w0 + |desired|, r0 + |OfKind(rows, kind)|;
  }

  lemma NoneOurs(rows: seq<Row>, kind: string)
    ensures Quiet(rows, kind, []) <==> |Keep(rows, OursOf(kind))| == 0
    ensures Quiet(rows, kind, []) ==> Keep(rows, NotOursOf(kind)) == rows
  {
    if Quiet(rows, kind, []) {
      assert forall r :: r in rows && r.kind == kind ==> r in OfKind(rows, kind);
      KeepAll(rows, NotOursOf(kind));
      KeepNone(rows, OursOf(kind));
    } else {
      var r :| r in OfKind(rows, kind) && Ours(r);
      assert r in Keep(rows, OursOf(kind));
    }
  }

  /** What a kind was reached with decides whether the next run is quiet. */
  lemma ReachedTwice(before: seq<Row>, after: seq<Row>, kind: string, desired: seq<Desired>)
    requires Reached(before, after, kind, desired)
    ensures Quiet(after, kind, desired) <==> desired == [] || Same(OfKind(before, kind), desired) || Covered(desired)
  {
    var next :| OfKind(after, kind) == OfKind(KindDone(before, kind, desired, next), kind);
    KindTwice(before, kind, desired, next);
  }

  /** seedTarget's markers, twice over: the second run writes and removes nothing
      exactly when, of every kind, none are desired, the rows were there before, or
      `ours` recognises every source fetched. */
  method SeedMarkersTwice(rows: seq<Row>, m: Option<Fetched>, duration: int, next: int, next': int)
    returns (after: seq<Row>, want: map<string, seq<Desired>>, written: nat, removed: nat)
    ensures forall k :: k in want ==> Numbered(want[k]) && Reached(rows, after, k, want[k])
    ensures forall k :: k !in want ==> OfKind(after, k) == OfKind(rows, k)
    ensures written == 0 && removed == 0 <==>
      forall k :: k in want ==>
        want[k] == [] || Same(OfKind(rows, k), want[k]) || forall d :: d in want[k] ==> Recognised(d)
  {
    hide Reached, OfKind, Quiet, Recognised, Numbered, Same;
    var asked := MarkerRows(m, duration);
    want := if asked.Some? then asked.value else map[];
    var w, r;
    after, w, r := ReconcileMarkers(rows, want, next);
    var again;
    again, written, removed := ReconcileMarkers(after, want, next');
    forall k | k in want
      ensures Quiet(after, k, want[k]) <==>
        want[k] == [] || Same(OfKind(rows, k), want[k]) || forall d :: d in want[k] ==> Recognised(d)
    {
      ReachedTwice(rows, after, k, want[k]);
      NumberedCovered(want[k]);
    }
  }
}
