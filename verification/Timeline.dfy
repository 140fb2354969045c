/** The SegmentTimeline of a manifest (pkg/remux/mpd.go), as section 5.3.9.6 of
    ISO/IEC 23009-1 reads it back. */
module Timeline {
  import opened Options

  /** A segment: when it starts and how long it is. */
  datatype Entry = Entry(t: int, d: int)

  /** An S element; an absent t follows on, an absent r is 0. */
  datatype S = S(t: Option<int>, d: int, r: nat)

  /** n segments of duration d, each following on the one before. */
  function Run(t: int, d: int, n: nat): (s: seq<Entry>)
    ensures |s| == n && (n > 0 ==> s[0] == Entry(t, d))
    ensures forall i :: 0 <= i < n ==> s[i].d == d && (i > 0 ==> s[i].t == s[i - 1].t + d)
  {
    if n == 0 then []
    else if n == 1 then [Entry(t, d)]
    else
      var before := Run(t, d, n - 1);
      before + [Entry(before[n - 2].t + d, d)]
  }

  /** They end n times d after they start. */
  lemma {:induction false} RunEnds(t: int, d: int, n: nat)
    requires n > 0
    ensures Run(t, d, n)[n - 1] == Entry(t + (n - 1) * d, d)
  {
    if n > 1 {
      RunEnds(t, d, n - 1);
      assert (n - 1) * d == (n - 2) * d + d;
    }
  }

  // ---------------------------------------------------------------------
  // Reading S elements
  // ---------------------------------------------------------------------

  /** Where the segments of some S elements end; a timeline begins at 0. */
  function End(s: seq<S>): int
    decreases |s|, 0
  {
    if s == [] then 0
    else
      var last := s[|s| - 1];
      StartOf(s[..|s| - 1], last) + (last.r + 1) * last.d
  }

  /** Where an element after those starts. */
  function StartOf(before: seq<S>, e: S): int
    decreases |before|, 1
  {
    if e.t.Some? then e.t.value else End(before)
  }

  function Decode(s: seq<S>): seq<Entry> {
    if s == [] then []
    else
      var before, last := s[..|s| - 1], s[|s| - 1];
      Decode(before) + Run(StartOf(before, last), last.d, last.r + 1)
  }

  lemma DecodeOne(s: seq<S>, e: S)
    ensures Decode(s + [e]) == Decode(s) + Run(StartOf(s, e), e.d, e.r + 1)
    ensures End(s + [e]) == StartOf(s, e) + (e.r + 1) * e.d
  {
  }

  lemma {:induction false} DecodeFirst(s: seq<S>)
    requires s != []
    ensures Decode(s) != [] && Decode(s)[0] == Entry(StartOf([], s[0]), s[0].d)
  {
    var n := |s| - 1;
    if n > 0 {
      DecodeFirst(s[..n]);
    } else {
      assert s[..n] == [];
    }
  }

  /** The end of the elements is the end of the last segment they stand for. */
  lemma EndOfLast(s: seq<S>)
    requires s != []
    ensures var line := Decode(s); line != [] && End(s) == line[|line| - 1].t + line[|line| - 1].d
  {
    var before, last := s[..|s| - 1], s[|s| - 1];
    RunEnds(StartOf(before, last), last.d, last.r + 1);
    assert (last.r + 1) * last.d == last.r * last.d + last.d;
  }

  // ---------------------------------------------------------------------
  // How few elements a timeline takes
  // ---------------------------------------------------------------------

  /** Segment i does not repeat the one before it. */
  predicate BreaksAt(line: seq<Entry>, i: int) {
    0 < i < |line| && (line[i].d != line[i - 1].d || line[i].t != line[i - 1].t + line[i - 1].d)
  }

  /** The runs of a timeline: one more than its breaks. */
  function Runs(line: seq<Entry>): nat {
    if line == [] then 0
    else
      var n := |line| - 1;
      Runs(line[..n]) + if n == 0 || BreaksAt(line, n) then 1 else 0
  }

  /** Segments that repeat add no run. */
  lemma {:induction false} RunsExtend(line: seq<Entry>, k: nat)
    requires 0 < k <= |line| && forall i :: k <= i < |line| ==> !BreaksAt(line, i)
    ensures Runs(line) == Runs(line[..k])
    decreases |line|
  {
    var n := |line| - 1;
    if k == |line| {
      assert line[..k] == line;
    } else {
      assert forall i :: k <= i < n ==> !BreaksAt(line[..n], i) by {
        assert forall i :: BreaksAt(line[..n], i) ==> BreaksAt(line, i);
      }
      RunsExtend(line[..n], k);
      assert line[..n][..k] == line[..k];
    }
  }

  /** A run adds at most one. */
  lemma RunsAppend(head: seq<Entry>, t: int, d: int, n: nat)
    requires n > 0
    ensures Runs(head + Run(t, d, n)) <= Runs(head) + 1
    ensures Runs(head + Run(t, d, n)) == Runs(head) + 1 <==> head == [] || BreaksAt(head + Run(t, d, n), |head|)
  {
    hide Run;
    var run := Run(t, d, n);
    var line, k := head + run, |head| + 1;
    forall i | k <= i < |line| ensures !BreaksAt(line, i) {
      assert line[i] == run[i - |head|] && line[i - 1] == run[i - |head| - 1];
    }
    RunsExtend(line, k);
    assert line[..k][..|head|] == head;
    assert BreaksAt(line[..k], |head|) <==> BreaksAt(line, |head|);
  }

  /** Any list of S elements that reads as a timeline has at least as many
      elements as the timeline has runs. */
  lemma {:induction false} NoFewer(s: seq<S>)
    ensures Runs(Decode(s)) <= |s|
  {
    if s != [] {
      var before, last := s[..|s| - 1], s[|s| - 1];
      NoFewer(before);
      RunsAppend(Decode(before), StartOf(before, last), last.d, last.r + 1);
    }
  }

  // ---------------------------------------------------------------------
  // Writing them
  // ---------------------------------------------------------------------

  /** How many segments after i repeat it, each following on the one before. */
  method Repeats(line: seq<Entry>, i: nat) returns (repeat: nat)
    requires i < |line|
    ensures i + repeat < |line|
    ensures line[i..i + repeat + 1] == Run(line[i].t, line[i].d, repeat + 1)
    ensures i + repeat + 1 < |line| ==> BreaksAt(line, i + repeat + 1)
  {
    repeat := 0;
    var e := line[i];
    while i + repeat + 1 < |line|
      invariant i + repeat < |line|
      invariant line[i..i + repeat + 1] == Run(e.t, e.d, repeat + 1)
    {
      var f, prev := line[i + repeat + 1], line[i + repeat];
      assert prev == Run(e.t, e.d, repeat + 1)[repeat];
      if f.d != e.d || f.t != prev.t + prev.d {
        break;
      }
      assert line[i..i + repeat + 2] == line[i..i + repeat + 1] + [f];
      repeat := repeat + 1;
    }
  }

  /** The elements of a timeline read back as exactly that timeline unless its
      first segment starts at -1, the mark for "nothing before"; and no list of
      elements that reads as the timeline is shorter. */
  method Template(line: seq<Entry>) returns (out: seq<S>)
    ensures Decode(out) == line <==> line == [] || line[0].t != -1
    ensures |out| == Runs(line)
    ensures forall s :: Decode(s) == line ==> |out| <= |s|
    // A start is written only where a segment does not follow on.
    ensures line != [] && line[0].t != -1 ==>
      forall i :: 0 < i < |out| && out[i].t.Some? ==> out[i].t.value != End(out[..i])
  {
    hide Decode, Runs, Run, End, Tells;
    NothingYet();
    out := [];
    var next, i := -1, 0;
    while i < |line|
      invariant 0 <= i <= |line| && |out| == Runs(line[..i])
      invariant i == 0 ==> next == -1 && out == []
      invariant i > 0 ==> out != []
      invariant line == [] || line[0].t != -1 ==> Tells(line[..i], out) && (i > 0 ==> next == End(out))
      invariant i > 0 && line[0].t == -1 ==> out[0].t.None?
      invariant 0 < i < |line| ==> BreaksAt(line, i)
    {
      var e := line[i];
      var repeat := Repeats(line, i);
      var s := S(if e.t != next then Some(e.t) else None, e.d, repeat);
      Advance(line, out, i, s);
      out := out + [s];
      next := e.t + (repeat + 1) * e.d;
      i := i + repeat + 1;
    }
    assert line[..i] == line;
    Reads(line, out);
    forall s | Decode(s) == line ensures |out| <= |s| {
      NoFewer(s);
    }
  }

  lemma NothingYet()
    ensures Runs([]) == 0 && Decode([]) == [] && Tells([], [])
  {
  }

  lemma Reads(line: seq<Entry>, out: seq<S>)
    requires line == [] ==> out == []
    requires line != [] ==> out != [] && if line[0].t == -1 then out[0].t.None? else Tells(line, out)
    ensures Decode(out) == line <==> line == [] || line[0].t != -1
    ensures line != [] && line[0].t != -1 ==>
      forall i :: 0 < i < |out| && out[i].t.Some? ==> out[i].t.value != End(out[..i])
  {
  }

  /** The elements read as the timeline, with no start that could be left out. */
  ghost predicate Tells(line: seq<Entry>, out: seq<S>) {
    && Decode(out) == line
    && forall k :: 0 < k < |out| && out[k].t.Some? ==> out[k].t.value != End(out[..k])
  }

  lemma Advance(line: seq<Entry>, out: seq<S>, i: nat, s: S)
    requires i + s.r < |line| && s.d == line[i].d && (i == 0 ==> out == [])
    requires line[i..i + s.r + 1] == Run(line[i].t, line[i].d, s.r + 1)
    requires i == 0 || BreaksAt(line, i)
    ensures Runs(line[..i + s.r + 1]) == Runs(line[..i]) + 1
    ensures Tells(line[..i], out) && StartOf(out, s) == line[i].t && (i > 0 && s.t.Some? ==> s.t.value != End(out)) ==>
      Tells(line[..i + s.r + 1], out + [s]) && End(out + [s]) == line[i].t + (s.r + 1) * s.d
  {
    hide Run, Runs, Tells, Decode, End, BreaksAt;
    var j := i + s.r + 1;
    assert line[..j] == line[..i] + line[i..j];
    BreaksStill(line, i, j);
    RunsAppend(line[..i], line[i].t, line[i].d, s.r + 1);
    if Tells(line[..i], out) && StartOf(out, s) == line[i].t && (i > 0 && s.t.Some? ==> s.t.value != End(out)) {
      TellsOn(line[..i], out, s);
    }
  }

  lemma BreaksStill(line: seq<Entry>, i: nat, j: nat)
    requires i < j <= |line| && (i == 0 || BreaksAt(line, i))
    ensures i == 0 || BreaksAt(line[..j], i)
  {
  }

  lemma TellsOn(line: seq<Entry>, out: seq<S>, s: S)
    requires Tells(line, out) && (out != [] && s.t.Some? ==> s.t.value != End(out))
    ensures Tells(line + Run(StartOf(out, s), s.d, s.r + 1), out + [s])
    ensures End(out + [s]) == StartOf(out, s) + (s.r + 1) * s.d
  {
    hide Run, Decode, End;
    DecodeOne(out, s);
    assert forall k :: 0 < k < |out| ==> (out + [s])[..k] == out[..k];
    assert (out + [s])[..|out|] == out;
  }
}
