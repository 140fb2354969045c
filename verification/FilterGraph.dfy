/** Plex's filter graphs (pkg/video/filter.go): following a -map back to the input
    stream it is made from. */
module FilterGraph {
  import opened Decimals
  import opened Options

  datatype Filter = Filter(name: string, args: seq<(string, string)>)

  /** One ;-separated part: its input labels, its filters, its output label. */
  datatype Chain = Chain(ins: seq<string>, filters: seq<Filter>, out: string)

  datatype Overlay = Overlay(src: nat, filters: seq<Filter>)

  datatype Result = Refused | Resolved(stream: nat, filters: seq<Filter>, over: Option<Overlay>)

  // ---------------------------------------------------------------------
  // Labels
  // ---------------------------------------------------------------------

  /** "0:N", the input stream N. */
  function StreamRef(s: string): Option<nat> {
    if |s| > 2 && s[..2] == "0:" && AllDigits(s[2..]) then Some(Number(s[2..])) else None
  }

  /** The label of a map that is "[label]" and nothing else. */
  function LabelOf(m: string): Option<string> {
    if |m| >= 2 && m[0] == '[' && m[|m| - 1] == ']' && ']' !in m[1..|m| - 1] then Some(m[1..|m| - 1]) else None
  }

  /** A stream is written "0:" and its number in decimal, with zeros before it or not. */
  lemma StreamRefIs(s: string, n: nat)
    ensures StreamRef(s) == Some(n) <==> exists k :: s == "0:" + (Zeros(k) + Decimal(n))
  {
    if StreamRef(s) == Some(n) {
      var k := WritesBack(s[2..]);
      assert s == s[..2] + s[2..];
    }
    if k :| s == "0:" + (Zeros(k) + Decimal(n)) {
      assert s[..2] == "0:" && s[2..] == Zeros(k) + Decimal(n);
      ReadsBack(k, n);
    }
  }

  /** A label stands between brackets and holds none that closes. */
  lemma LabelIs(m: string, name: string)
    ensures LabelOf(m) == Some(name) <==> m == "[" + name + "]" && ']' !in name
  {
    if LabelOf(m) == Some(name) {
      assert m == [m[0]] + m[1..|m| - 1] + [m[|m| - 1]];
    }
    if m == "[" + name + "]" {
      assert m[1..|m| - 1] == name;
    }
  }

  /** The first chain with that output. */
  function Named(chains: seq<Chain>, want: string): (r: Option<Chain>)
    ensures r.Some? ==> r.value in chains && r.value.out == want
    ensures forall i :: 0 <= i < |chains| && chains[i].out == want && (forall j :: 0 <= j < i ==> chains[j].out != want) ==> r == Some(chains[i])
    ensures r.None? ==> forall c :: c in chains ==> c.out != want
  {
    if chains == [] then None
    else if chains[0].out == want then Some(chains[0])
    else Named(chains[1..], want)
  }

  // ---------------------------------------------------------------------
  // Following
  // ---------------------------------------------------------------------

  predicate IsOverlay(c: Chain) {
    |c.ins| == 2 && |c.filters| == 1 && c.filters[0].name == "overlay" && c.filters[0].args == []
  }

  predicate IsSingle(c: Chain) { |c.ins| == 1 }

  /** The loop of follow with some rounds left. */
  function FollowN(fuel: nat, want: string, chains: seq<Chain>, overlays: bool, filters: seq<Filter>, over: Option<Overlay>): Result
    decreases if overlays then 1 else 0, fuel
  {
    if fuel == 0 then Refused
    else
      match Named(chains, want)
      case None => Refused
      case Some(c) =>
        if IsOverlay(c) then
          if !overlays || over.Some? then Refused
          else
            var second := Second(chains, c.ins[1]);
            if second.None? then Refused
            else if StreamRef(c.ins[0]).Some? then Resolved(StreamRef(c.ins[0]).value, filters, second)
            else FollowN(fuel - 1, c.ins[0], chains, overlays, filters, second)
        else if !IsSingle(c) then Refused
        else if StreamRef(c.ins[0]).Some? then Resolved(StreamRef(c.ins[0]).value, c.filters + filters, over)
        else FollowN(fuel - 1, c.ins[0], chains, overlays, c.filters + filters, over)
  }

  /** follow2: an overlay's second input. */
  function Second(chains: seq<Chain>, input: string): Option<Overlay>
    decreases 0, |chains| + 2
  {
    if StreamRef(input).Some? then Some(Overlay(StreamRef(input).value, []))
    else
      var r := FollowN(|chains| + 1, input, chains, false, [], None);
      if r.Resolved? then Some(Overlay(r.stream, r.filters)) else None
  }

  /** follow, as its loop goes. */
  method Follow(start: string, chains: seq<Chain>, overlays: bool) returns (r: Result)
    ensures r == FollowN(|chains| + 1, start, chains, overlays, [], None)
    decreases if overlays then 1 else 0, 0
  {
    var want, filters, over := start, [], None;
    for i := 0 to |chains| + 1
      invariant FollowN(|chains| + 1 - i, want, chains, overlays, filters, over)
             == FollowN(|chains| + 1, start, chains, overlays, [], None)
    {
      var c := Named(chains, want);
      if c.None? {
        return Refused;
      }
      if IsOverlay(c.value) {
        if !overlays || over.Some? {
          return Refused;
        }
        over := FollowSecond(c.value.ins[1], chains);
        if over.None? {
          return Refused;
        }
      } else if !IsSingle(c.value) {
        return Refused;
      } else {
        filters := c.value.filters + filters;
      }
      if StreamRef(c.value.ins[0]).Some? {
        return Resolved(StreamRef(c.value.ins[0]).value, filters, over);
      }
      want := c.value.ins[0];
    }
    return Refused;
  }

  method FollowSecond(input: string, chains: seq<Chain>) returns (r: Option<Overlay>)
    ensures r == Second(chains, input)
    decreases 0, 1
  {
    if StreamRef(input).Some? {
      return Some(Overlay(StreamRef(input).value, []));
    }
    var f := Follow(input, chains, false);
    return if f.Resolved? then Some(Overlay(f.stream, f.filters)) else None;
  }

  /** resolve: a stream named directly, or a label followed back. */
  method Resolve(m: string, chains: seq<Chain>) returns (r: Result)
    ensures StreamRef(m).Some? ==> r == Resolved(StreamRef(m).value, [], None)
    ensures StreamRef(m).None? && LabelOf(m).None? ==> r == Refused
    ensures StreamRef(m).None? && LabelOf(m).Some? ==>
      r == FollowN(|chains| + 1, LabelOf(m).value, chains, true, [], None)
  {
    if StreamRef(m).Some? {
      return Resolved(StreamRef(m).value, [], None);
    }
    if LabelOf(m).None? {
      return Refused;
    }
    r := Follow(LabelOf(m).value, chains, true);
  }

  // ---------------------------------------------------------------------
  // The unbounded walk
  // ---------------------------------------------------------------------

  /** A walk from a label to an input stream: each chain names the next by its
      first input, and only the last one's is a stream. */
  ghost predicate Leads(chains: seq<Chain>, want: string, path: seq<Chain>)
    decreases |path|
  {
    && path != [] && Named(chains, want) == Some(path[0]) && path[0].ins != []
    && if |path| == 1 then StreamRef(path[0].ins[0]).Some?
       else StreamRef(path[0].ins[0]).None? && Leads(chains, path[0].ins[0], path[1..])
  }

  /** The shapes follow accepts along a walk, an overlay's second input followed in as
      many rounds as follow gives it. */
  ghost predicate AcceptedN(chains: seq<Chain>, path: seq<Chain>, overlays: bool)
    decreases |path|
  {
    path == [] ||
    if IsOverlay(path[0]) then overlays && Second(chains, path[0].ins[1]).Some? && AcceptedN(chains, path[1..], false)
    else IsSingle(path[0]) && AcceptedN(chains, path[1..], overlays)
  }

  /** The filters of the single-input chains, from the source to the output. */
  function FiltersOf(path: seq<Chain>): seq<Filter> {
    if path == [] then []
    else FiltersOf(path[1..]) + if IsSingle(path[0]) then path[0].filters else []
  }

  ghost function OverN(chains: seq<Chain>, path: seq<Chain>): Option<Overlay> {
    if path == [] then None
    else if IsOverlay(path[0]) then Second(chains, path[0].ins[1])
    else OverN(chains, path[1..])
  }

  /** What such a walk resolves to. */
  ghost function MeaningN(chains: seq<Chain>, path: seq<Chain>): Result {
    if path == [] then Refused
    else
      var c := path[|path| - 1];
      if c.ins == [] || StreamRef(c.ins[0]).None? then Refused
      else Resolved(StreamRef(c.ins[0]).value, FiltersOf(path), OverN(chains, path))
  }

  /** What a walk begun with filters and an overlay in hand resolves to. */
  ghost function MeaningWith(chains: seq<Chain>, path: seq<Chain>, filters: seq<Filter>, over: Option<Overlay>): Result
    requires path != []
  {
    var r := MeaningN(chains, path);
    if r.Refused? then Refused
    else Resolved(r.stream, r.filters + filters, if over.Some? then over else r.over)
  }

  lemma {:induction false} OneWalk(chains: seq<Chain>, want: string, p: seq<Chain>, q: seq<Chain>)
    requires Leads(chains, want, p) && Leads(chains, want, q)
    ensures p == q
    decreases |p|
  {
    if |p| > 1 {
      OneWalk(chains, p[0].ins[0], p[1..], q[1..]);
      assert p == [p[0]] + p[1..] && q == [q[0]] + q[1..];
    }
  }

  /** An accepted walk resolves when there is a round for each of its chains. */
  lemma {:induction false} WalkResolves(fuel: nat, want: string, chains: seq<Chain>, overlays: bool,
                                        filters: seq<Filter>, over: Option<Overlay>, path: seq<Chain>)
    requires Leads(chains, want, path) && |path| <= fuel && AcceptedN(chains, path, overlays && over.None?)
    ensures FollowN(fuel, want, chains, overlays, filters, over) == MeaningWith(chains, path, filters, over)
    decreases |path|
  {
    hide FollowN, MeaningWith, Second, Named, StreamRef, IsOverlay, IsSingle;
    FollowStep(fuel, want, chains, overlays, filters, over, path);
    MeaningStep(chains, want, overlays, path, filters, over);
    if |path| > 1 {
      var c := path[0];
      WalkResolves(fuel - 1, c.ins[0], chains, overlays, Gathered(c, filters), Crossed(chains, c, over), path[1..]);
    }
  }

  /** The filters in hand past a chain. */
  function Gathered(c: Chain, filters: seq<Filter>): seq<Filter> { if IsOverlay(c) then filters else c.filters + filters }

  /** The overlay in hand past a chain. */
  function Crossed(chains: seq<Chain>, c: Chain, over: Option<Overlay>): Option<Overlay> {
    if IsOverlay(c) && c.ins != [] then Second(chains, c.ins[|c.ins| - 1]) else over
  }

  /** One round of follow along an accepted walk. */
  lemma FollowStep(fuel: nat, want: string, chains: seq<Chain>, overlays: bool,
                   filters: seq<Filter>, over: Option<Overlay>, path: seq<Chain>)
    requires Leads(chains, want, path) && 0 < fuel && AcceptedN(chains, path, overlays && over.None?)
    ensures var c := path[0]; var filters', over' := Gathered(c, filters), Crossed(chains, c, over);
      FollowN(fuel, want, chains, overlays, filters, over) ==
        if StreamRef(c.ins[0]).Some? then Resolved(StreamRef(c.ins[0]).value, filters', over')
        else FollowN(fuel - 1, c.ins[0], chains, overlays, filters', over')
    ensures |path| == 1 <==> StreamRef(path[0].ins[0]).Some?
    ensures |path| > 1 ==>
      AcceptedN(chains, path[1..], overlays && Crossed(chains, path[0], over).None?) && Leads(chains, path[0].ins[0], path[1..])
  {
  }

  lemma MeaningStep(chains: seq<Chain>, want: string, overlays: bool, path: seq<Chain>,
                    filters: seq<Filter>, over: Option<Overlay>)
    requires Leads(chains, want, path) && AcceptedN(chains, path, overlays && over.None?)
    ensures var c := path[0]; var filters', over' := Gathered(c, filters), Crossed(chains, c, over);
      MeaningWith(chains, path, filters, over) ==
        if |path| == 1 then Resolved(StreamRef(c.ins[0]).value, filters', over')
        else MeaningWith(chains, path[1..], filters', over')
  {
    hide Second, Named, StreamRef;
    var c, rest := path[0], path[1..];
    NoOverlay(chains, rest);
    assert FiltersOf(rest) + (c.filters + filters) == FiltersOf(rest) + c.filters + filters;
    if |path| == 1 {
      assert rest == [] && [] + filters == filters && [] + c.filters == c.filters;
    } else {
      assert rest[|rest| - 1] == path[|path| - 1];
      assert FiltersOf(rest) + [] == FiltersOf(rest);
    }
  }

  /** A walk accepted without overlays has none. */
  lemma {:induction false} NoOverlay(chains: seq<Chain>, path: seq<Chain>)
    ensures AcceptedN(chains, path, false) ==> OverN(chains, path).None?
    decreases |path|
  {
    if path != [] {
      NoOverlay(chains, path[1..]);
    }
  }

  /** What resolves is an accepted walk. */
  lemma {:induction false} ResolvedIsWalk(fuel: nat, want: string, chains: seq<Chain>, overlays: bool,
                                          filters: seq<Filter>, over: Option<Overlay>) returns (path: seq<Chain>)
    requires FollowN(fuel, want, chains, overlays, filters, over).Resolved?
    ensures Leads(chains, want, path) && AcceptedN(chains, path, overlays && over.None?)
    decreases fuel
  {
    var c := Named(chains, want).value;
    if StreamRef(c.ins[0]).Some? {
      path := [c];
      assert path[1..] == [];
    } else {
      var filters' := if IsOverlay(c) then filters else c.filters + filters;
      var over' := if IsOverlay(c) then Second(chains, c.ins[1]) else over;
      var rest := ResolvedIsWalk(fuel - 1, c.ins[0], chains, overlays, filters', over');
      path := [c] + rest;
      assert path[1..] == rest;
    }
  }

  // ---------------------------------------------------------------------
  // Enough rounds
  // ---------------------------------------------------------------------

  lemma {:induction false} TailLeads(chains: seq<Chain>, want: string, path: seq<Chain>, i: nat)
    requires Leads(chains, want, path) && i < |path|
    ensures Leads(chains, path[i].out, path[i..])
    decreases |path|
  {
    if i == 0 {
      assert path[0..] == path;
    } else {
      TailLeads(chains, path[0].ins[0], path[1..], i - 1);
      assert path[1..][i - 1..] == path[i..];
    }
  }

  /** A walk that ends visits no label twice. */
  lemma LabelsDiffer(chains: seq<Chain>, want: string, path: seq<Chain>, i: nat, j: nat)
    requires Leads(chains, want, path) && i < j < |path|
    ensures path[i].out != path[j].out
  {
    TailLeads(chains, want, path, i);
    TailLeads(chains, want, path, j);
    if path[i].out == path[j].out {
      OneWalk(chains, path[i].out, path[i..], path[j..]);
    }
  }

  /** A list without repeats is no longer than a list that holds it all. */
  lemma {:induction false} Pigeonhole(few: seq<string>, many: seq<string>)
    requires forall i, j :: 0 <= i < j < |few| ==> few[i] != few[j]
    requires forall x :: x in few ==> x in many
    ensures |few| <= |many|
    decreases |few|
  {
    if few != [] {
      assert few[0] in few;
      var k :| 0 <= k < |many| && many[k] == few[0];
      var rest := many[..k] + many[k + 1..];
      forall x | x in few[1..] ensures x in rest {
        assert x in few && x != few[0];
        var m :| 0 <= m < |many| && many[m] == x;
        assert rest[if m < k then m else m - 1] == x;
      }
      Pigeonhole(few[1..], rest);
    }
  }

  lemma WalkFits(chains: seq<Chain>, want: string, path: seq<Chain>)
    requires Leads(chains, want, path)
    ensures |path| <= |chains|
  {
    var few, many := seq(|path|, i requires 0 <= i < |path| => path[i].out), seq(|chains|, i requires 0 <= i < |chains| => chains[i].out);
    forall i, j | 0 <= i < j < |few| ensures few[i] != few[j] { LabelsDiffer(chains, want, path, i, j); }
    forall x | x in few ensures x in many {
      var i :| 0 <= i < |few| && few[i] == x;
      TailLeads(chains, want, path, i);
      var k :| 0 <= k < |chains| && chains[k] == path[i];
      assert many[k] == x;
    }
    Pigeonhole(few, many);
  }

  lemma WalkIsFollowed(want: string, chains: seq<Chain>, overlays: bool, path: seq<Chain>)
    requires Leads(chains, want, path) && AcceptedN(chains, path, overlays)
    ensures FollowN(|chains| + 1, want, chains, overlays, [], None) == MeaningN(chains, path)
    ensures MeaningN(chains, path).Resolved?
  {
    WalkFits(chains, want, path);
    WalkResolves(|chains| + 1, want, chains, overlays, [], None, path);
    TailLeads(chains, want, path, |path| - 1);
    assert FiltersOf(path) + [] == FiltersOf(path);
  }

  /** Following with one round more than there are chains is the walk, but for the
      second inputs. */
  lemma FollowIsWalkN(want: string, chains: seq<Chain>, overlays: bool)
    ensures var r := FollowN(|chains| + 1, want, chains, overlays, [], None);
      && (r.Resolved? <==> exists path :: Leads(chains, want, path) && AcceptedN(chains, path, overlays))
      && (forall path :: Leads(chains, want, path) && AcceptedN(chains, path, overlays) ==> r == MeaningN(chains, path))
  {
    hide FollowN, Leads, AcceptedN, MeaningN;
    var r := FollowN(|chains| + 1, want, chains, overlays, [], None);
    if r.Resolved? {
      var path := ResolvedIsWalk(|chains| + 1, want, chains, overlays, [], None);
      assert Leads(chains, want, path) && AcceptedN(chains, path, overlays);
    }
    forall path | Leads(chains, want, path) && AcceptedN(chains, path, overlays) ensures r == MeaningN(chains, path) {
      WalkIsFollowed(want, chains, overlays, path);
    }
    if exists path :: Leads(chains, want, path) && AcceptedN(chains, path, overlays) {
      var path :| Leads(chains, want, path) && AcceptedN(chains, path, overlays);
      WalkIsFollowed(want, chains, overlays, path);
      assert r.Resolved?;
      assert exists path :: Leads(chains, want, path) && AcceptedN(chains, path, overlays);
    }
  }

  // ---------------------------------------------------------------------
  // Second inputs walked too
  // ---------------------------------------------------------------------

  /** A walk through single-input chains alone, as an overlay's second input may be. */
  ghost predicate PlainWalk(chains: seq<Chain>, want: string, path: seq<Chain>) {
    Leads(chains, want, path) && forall i :: 0 <= i < |path| ==> IsSingle(path[i])
  }

  /** What an overlay's second input is: a stream, or what a plain walk from it ends in. */
  ghost function SecondOf(chains: seq<Chain>, input: string): Option<Overlay> {
    if StreamRef(input).Some? then Some(Overlay(StreamRef(input).value, []))
    else if exists path :: PlainWalk(chains, input, path) then
      var path :| PlainWalk(chains, input, path);
      PlainEnd(path)
    else None
  }

  /** The stream a plain walk ends in, and its filters. */
  function PlainEnd(path: seq<Chain>): Option<Overlay> {
    if path == [] || path[|path| - 1].ins == [] || StreamRef(path[|path| - 1].ins[0]).None? then None
    else Some(Overlay(StreamRef(path[|path| - 1].ins[0]).value, FiltersOf(path)))
  }

  /** The shapes follow accepts along a walk: single-input chains, and one overlay whose
      second input is a stream or a plain walk that ends, when overlays are allowed. */
  ghost predicate Accepted(chains: seq<Chain>, path: seq<Chain>, overlays: bool)
    decreases |path|
  {
    path == [] ||
    if IsOverlay(path[0]) then overlays && SecondOf(chains, path[0].ins[1]).Some? && Accepted(chains, path[1..], false)
    else IsSingle(path[0]) && Accepted(chains, path[1..], overlays)
  }

  ghost function OverOf(chains: seq<Chain>, path: seq<Chain>): Option<Overlay> {
    if path == [] then None
    else if IsOverlay(path[0]) then SecondOf(chains, path[0].ins[1])
    else OverOf(chains, path[1..])
  }

  /** What a walk resolves to. */
  ghost function Meaning(chains: seq<Chain>, path: seq<Chain>): Result {
    if path == [] then Refused
    else
      var c := path[|path| - 1];
      if c.ins == [] || StreamRef(c.ins[0]).None? then Refused
      else Resolved(StreamRef(c.ins[0]).value, FiltersOf(path), OverOf(chains, path))
  }

  /** Without overlays the accepted walks are the plain ones. */
  lemma {:induction false} PlainIs(chains: seq<Chain>, path: seq<Chain>)
    ensures AcceptedN(chains, path, false) <==> forall i :: 0 <= i < |path| ==> IsSingle(path[i])
    decreases |path|
  {
    if path != [] {
      PlainIs(chains, path[1..]);
      assert forall i :: 0 <= i < |path| - 1 ==> path[1..][i] == path[i + 1];
      assert (forall i :: 0 <= i < |path| ==> IsSingle(path[i])) <==>
        IsSingle(path[0]) && forall i :: 0 <= i < |path[1..]| ==> IsSingle(path[1..][i]) by {
        if IsSingle(path[0]) && forall i :: 0 <= i < |path[1..]| ==> IsSingle(path[1..][i]) {
          forall i | 0 <= i < |path| ensures IsSingle(path[i]) { if i > 0 { assert path[1..][i - 1] == path[i]; } }
        }
      }
    }
  }

  /** The bounded following of a second input is its unbounded walk. */
  lemma SecondIsTheWalk(chains: seq<Chain>, input: string)
    ensures Second(chains, input) == SecondOf(chains, input)
  {
    if StreamRef(input).None? {
      FollowIsWalkN(input, chains, false);
      var r := FollowN(|chains| + 1, input, chains, false, [], None);
      forall path | PlainWalk(chains, input, path) ensures Second(chains, input) == PlainEnd(path) {
        PlainIs(chains, path);
        NoOverlay(chains, path);
        assert r == MeaningN(chains, path);
      }
      if r.Resolved? {
        var path :| Leads(chains, input, path) && AcceptedN(chains, path, false);
        PlainIs(chains, path);
        assert PlainWalk(chains, input, path);
      }
    }
  }

  lemma {:induction false} SameMeaning(chains: seq<Chain>, path: seq<Chain>, overlays: bool)
    ensures AcceptedN(chains, path, overlays) == Accepted(chains, path, overlays)
    ensures OverN(chains, path) == OverOf(chains, path)
    decreases |path|
  {
    hide Second, SecondOf;
    if path != [] {
      if IsOverlay(path[0]) { SecondIsTheWalk(chains, path[0].ins[1]); }
      SameMeaning(chains, path[1..], false);
      SameMeaning(chains, path[1..], overlays);
    }
  }

  /** Following with one round more than there are chains is the unbounded walk: it
      resolves exactly when some walk of accepted shapes ends, and then to that
      walk's stream, filters and overlay; a walk that never ends is refused. */
  lemma FollowIsTheWalk(want: string, chains: seq<Chain>, overlays: bool)
    ensures var r := FollowN(|chains| + 1, want, chains, overlays, [], None);
      && (r.Resolved? <==> exists path :: Leads(chains, want, path) && Accepted(chains, path, overlays))
      && (forall path :: Leads(chains, want, path) && Accepted(chains, path, overlays) ==> r == Meaning(chains, path))
  {
    hide FollowN, Leads, Accepted, AcceptedN, OverN, OverOf;
    FollowIsWalkN(want, chains, overlays);
    forall path ensures AcceptedN(chains, path, overlays) == Accepted(chains, path, overlays) && MeaningN(chains, path) == Meaning(chains, path) {
      SameMeaning(chains, path, overlays);
    }
  }

  // ---------------------------------------------------------------------
  // Splitting
  // ---------------------------------------------------------------------

  /** How a piece scans: with a separator in it, ending inside an escape, or clean. */
  datatype Scanned = Separated | InEscape | Clean

  function Scan(s: string, sep: char): Scanned {
    if s == [] then Clean
    else if s[0] == '\\' then (if |s| == 1 then InEscape else Scan(s[2..], sep))
    else if s[0] == sep then Separated
    else Scan(s[1..], sep)
  }

  lemma {:induction false} ScanOn(a: string, b: string, sep: char)
    requires Scan(a, sep) == Clean
    ensures Scan(a + b, sep) == Scan(b, sep)
    decreases |a|
  {
    if a == [] {
      assert a + b == b;
    } else if a[0] == '\\' {
      assert (a + b)[2..] == a[2..] + b;
      ScanOn(a[2..], b, sep);
    } else {
      assert (a + b)[1..] == a[1..] + b;
      ScanOn(a[1..], b, sep);
    }
  }

  function Join(parts: seq<string>, sep: char): string
    requires parts != []
  {
    if |parts| == 1 then parts[0] else Join(parts[..|parts| - 1], sep) + [sep] + parts[|parts| - 1]
  }

  lemma JoinOne(parts: seq<string>, piece: string, sep: char)
    ensures Join(parts + [piece], sep) == if parts == [] then piece else Join(parts, sep) + [sep] + piece
  {
  }

  /** Scanning on from a clean piece of s by a byte, or by an escape. */
  lemma ScanMore(s: string, sep: char, start: nat, i: nat)
    requires start <= i < |s| && Scan(s[start..i], sep) == Clean
    ensures s[i] == '\\' && i + 1 < |s| ==> Scan(s[start..i + 2], sep) == Clean
    ensures s[i] == '\\' && i + 1 == |s| ==> Scan(s[start..], sep) == InEscape
    ensures s[i] != '\\' && s[i] != sep ==> Scan(s[start..i + 1], sep) == Clean
  {
    var n := if s[i] == '\\' && i + 1 < |s| then 2 else 1;
    ScanOn(s[start..i], s[i..i + n], sep);
    assert s[start..i] + s[i..i + n] == s[start..i + n];
    assert i + 1 == |s| ==> s[start..i + 1] == s[start..];
  }

  lemma NothingIsClean(s: string, sep: char, i: nat)
    requires i <= |s|
    ensures Scan(s[i..i], sep) == Clean
  {
  }

  lemma Whole(s: string, start: nat)
    requires start <= |s|
    ensures s == s[..start] + s[start..] && s[start..|s|] == s[start..]
  {
  }

  /** splitUnescaped: joined by the separator the parts are the string again, and
      no part has a separator that is not escaped. */
  method SplitUnescaped(s: string, sep: char) returns (parts: seq<string>)
    ensures parts != [] && Join(parts, sep) == s
    ensures forall p :: p in parts ==> Scan(p, sep) != Separated
    ensures forall i :: 0 <= i < |parts| - 1 ==> Scan(parts[i], sep) == Clean
  {
    hide Join, Scan;
    parts := [];
    var start, i := 0, 0;
    NothingIsClean(s, sep, 0);
    while i < |s|
      invariant 0 <= start <= i <= |s| + 1 && start <= |s|
      invariant i <= |s| ==> Scan(s[start..i], sep) == Clean
      invariant i == |s| + 1 ==> Scan(s[start..], sep) == InEscape
      invariant s[..start] == if parts == [] then [] else Join(parts, sep) + [sep]
      invariant forall p :: p in parts ==> Scan(p, sep) == Clean
    {
      ScanMore(s, sep, start, i);
      if s[i] == '\\' {
        i := i + 2;
      } else if s[i] == sep {
        JoinOne(parts, s[start..i], sep);
        assert s[..i + 1] == s[..start] + s[start..i] + [sep];
        parts := parts + [s[start..i]];
        start, i := i + 1, i + 1;
        NothingIsClean(s, sep, i);
      } else {
        i := i + 1;
      }
    }
    Whole(s, start);
    JoinOne(parts, s[start..], sep);
    parts := parts + [s[start..]];
  }
}
