/** The Live TV restart hand-off (cmd/manager/livetvrestart.go): callers ask for
    rounds, one worker takes what was asked since the last, at most once per
    `every`. */
module Restarts {
  import opened Options

  /** A provider, under its namespace/name key. */
  datatype Provider = Provider(key: string, value: int)

  type Pending = map<string, Provider>

  function Merge(pending: Pending, changed: seq<Provider>): Pending
    decreases |changed|
  {
    if changed == [] then pending else Merge(pending[changed[0].key := changed[0]], changed[1..])
  }

  /** The hand-off: the map under the mutex and the one-slot channel. */
  class Requests {
    var pending: Option<Pending>
    var kick: bool

    constructor ()
      ensures pending.None? && !kick
    {
      pending, kick := None, false;
    }

    /** request, up to its unlock. */
    method Add(changed: seq<Provider>)
      modifies this`pending
      ensures pending == Some(Merge(if old(pending).None? then map[] else old(pending).value, changed))
    {
      var p := if pending.None? then map[] else pending.value;
      for i := 0 to |changed|
        invariant Merge(p, changed[i..]) == Merge(if old(pending).None? then map[] else old(pending).value, changed)
      {
        assert changed[i..][1..] == changed[i + 1..];
        p := p[changed[i].key := changed[i]];
      }
      pending := Some(p);
    }

    method Take() returns (p: Option<Pending>)
      modifies this`pending
      ensures p == old(pending) && pending.None?
    {
      p := pending;
      pending := None;
    }
  }

  // ---------------------------------------------------------------------
  // Callers and worker, interleaved
  // ---------------------------------------------------------------------

  datatype Worker = Waiting | Awake | InRound

  /** A round: when it started, what it took, and how many requests had been
      made by then. */
  datatype Round = Round(at: int, taken: Pending, upTo: nat)

  /** `asking` counts callers past their unlock and before their kick; `asked` is
      every request, in order. */
  datatype State = State(
    clock: int, every: int, pending: Option<Pending>, kick: bool, asking: nat, worker: Worker,
    last: Option<int>, asked: seq<seq<Provider>>, rounds: seq<Round>)

  datatype Step = Tick(elapsed: nat) | Ask(changed: seq<Provider>) | Kick | Receive | TakeUp | Finish

  function Fresh(clock: int, every: int): State { State(clock, every, None, false, 0, Waiting, None, [], []) }

  predicate Ready(s: State) { s.last.None? || s.clock >= s.last.value + s.every }

  /** A step that is not enabled changes nothing. */
  function Do(s: State, step: Step): State {
    match step
    case Tick(elapsed) => s.(clock := s.clock + elapsed)
    case Ask(changed) =>
      s.(pending := Some(Merge(if s.pending.None? then map[] else s.pending.value, changed)),
         asking := s.asking + 1, asked := s.asked + [changed])
    case Kick => if s.asking == 0 then s else s.(asking := s.asking - 1, kick := true)
    case Receive => if s.worker.Waiting? && s.kick then s.(kick := false, worker := Awake) else s
    case TakeUp =>
      if !s.worker.Awake? || !Ready(s) then s
      else if s.pending.None? then s.(worker := Waiting)
      else s.(pending := None, last := Some(s.clock), worker := InRound,
              rounds := s.rounds + [Round(s.clock, s.pending.value, |s.asked|)])
    case Finish => if s.worker.InRound? then s.(worker := Waiting) else s
  }

  function Run(s: State, steps: seq<Step>): State
    decreases |steps|
  {
    if steps == [] then s else Run(Do(s, steps[0]), steps[1..])
  }

  /** What a list of requests leaves pending: nothing asked, nothing pending. */
  function Gathered(asked: seq<seq<Provider>>): Option<Pending> {
    if asked == [] then None
    else
      var n := |asked| - 1;
      var before := Gathered(asked[..n]);
      Some(Merge(if before.None? then map[] else before.value, asked[n]))
  }

  function TakenUpTo(rounds: seq<Round>): nat { if rounds == [] then 0 else rounds[|rounds| - 1].upTo }

  /** Round i took exactly the requests since the round before it. */
  ghost predicate RoundFits(asked: seq<seq<Provider>>, rounds: seq<Round>, i: nat)
    requires i < |rounds|
  {
    var from := TakenUpTo(rounds[..i]);
    from < rounds[i].upTo <= |asked| && Gathered(asked[from..rounds[i].upTo]) == Some(rounds[i].taken)
  }

  /** All of them do, and each started at least `every` after the one before. */
  ghost predicate RoundsFit(s: State) {
    && (forall i :: 0 <= i < |s.rounds| ==> RoundFits(s.asked, s.rounds, i))
    && (forall i :: 0 < i < |s.rounds| ==> s.rounds[i].at >= s.rounds[i - 1].at + s.every)
    && (if s.rounds == [] then s.last.None? else s.last == Some(s.rounds[|s.rounds| - 1].at))
  }

  ghost predicate Inv(s: State) {
    && RoundsFit(s)
    && TakenUpTo(s.rounds) <= |s.asked|
    && s.pending == Gathered(s.asked[TakenUpTo(s.rounds)..])
    && (s.pending.Some? ==> s.kick || s.worker.Awake? || s.asking > 0)
  }

  lemma GatheredOne(asked: seq<seq<Provider>>, changed: seq<Provider>)
    ensures Gathered(asked + [changed])
         == Some(Merge(if Gathered(asked).None? then map[] else Gathered(asked).value, changed))
  {
  }

  lemma RoundStays(asked: seq<seq<Provider>>, more: seq<seq<Provider>>, rounds: seq<Round>, i: nat)
    requires i < |rounds| && RoundFits(asked, rounds, i)
    ensures RoundFits(asked + more, rounds, i)
  {
    var from, upTo := TakenUpTo(rounds[..i]), rounds[i].upTo;
    assert (asked + more)[from..upTo] == asked[from..upTo];
  }

  lemma AskKeeps(s: State, changed: seq<Provider>)
    requires Inv(s)
    ensures Inv(Do(s, Ask(changed)))
  {
    hide Gathered, Merge, RoundFits;
    var t, from := Do(s, Ask(changed)), TakenUpTo(s.rounds);
    assert t.asked[from..] == s.asked[from..] + [changed];
    GatheredOne(s.asked[from..], changed);
    forall i | 0 <= i < |t.rounds| ensures RoundFits(t.asked, t.rounds, i) {
      RoundStays(s.asked, [changed], s.rounds, i);
    }
  }

  lemma RoundTaken(asked: seq<seq<Provider>>, rounds: seq<Round>, at: int, taken: Pending)
    requires TakenUpTo(rounds) <= |asked| && Gathered(asked[TakenUpTo(rounds)..]) == Some(taken)
    requires forall i :: 0 <= i < |rounds| ==> RoundFits(asked, rounds, i)
    ensures var all := rounds + [Round(at, taken, |asked|)];
      && Gathered(asked[TakenUpTo(all)..]) == None
      && forall i :: 0 <= i < |all| ==> RoundFits(asked, all, i)
  {
    var all, from := rounds + [Round(at, taken, |asked|)], TakenUpTo(rounds);
    assert asked[from..] == asked[from..|asked|];
    assert asked[|asked|..] == [];
    forall i | 0 <= i < |all| ensures RoundFits(asked, all, i) {
      if i < |rounds| {
        assert all[..i] == rounds[..i] && RoundFits(asked, rounds, i);
      } else {
        assert all[..i] == rounds;
      }
    }
  }

  lemma TakeKeeps(s: State)
    requires Inv(s)
    ensures Inv(Do(s, TakeUp))
  {
    hide Gathered, RoundFits;
    if s.worker.Awake? && Ready(s) && s.pending.Some? {
      RoundTaken(s.asked, s.rounds, s.clock, s.pending.value);
    }
  }

  lemma {:induction false} RunKeeps(s: State, steps: seq<Step>)
    requires Inv(s)
    ensures Inv(Run(s, steps)) && Run(s, steps).every == s.every
    decreases |steps|
  {
    hide RoundsFit, Gathered;
    if steps != [] {
      match steps[0] {
        case Ask(changed) => AskKeeps(s, changed);
        case TakeUp => TakeKeeps(s);
        case _ => OtherKeeps(s, steps[0]);
      }
      RunKeeps(Do(s, steps[0]), steps[1..]);
    }
  }

  lemma OtherKeeps(s: State, step: Step)
    requires Inv(s) && !step.Ask? && !step.TakeUp?
    ensures Inv(Do(s, step))
  {
  }

  /** Over every interleaving: what is pending has someone on the way to start a
      round for it; rounds start at least `every` apart; and the rounds, with what
      is still pending, took every request exactly once, in order. */
  lemma NoRequestIsLost(clock: int, every: int, steps: seq<Step>)
    ensures var s := Run(Fresh(clock, every), steps);
      && (s.pending.Some? ==> s.kick || s.worker.Awake? || s.asking > 0)
      && (forall i :: 0 < i < |s.rounds| ==> s.rounds[i].at >= s.rounds[i - 1].at + every)
      && (forall i :: 0 <= i < |s.rounds| ==> RoundFits(s.asked, s.rounds, i))
      && TakenUpTo(s.rounds) <= |s.asked| && s.pending == Gathered(s.asked[TakenUpTo(s.rounds)..])
  {
    RunKeeps(Fresh(clock, every), steps);
  }

  lemma {:induction false} MergeHas(pending: Pending, changed: seq<Provider>, key: string)
    ensures key in Merge(pending, changed) <==> key in pending || exists p :: p in changed && p.key == key
    decreases |changed|
  {
    if changed != [] {
      MergeHas(pending[changed[0].key := changed[0]], changed[1..], key);
      assert changed == [changed[0]] + changed[1..];
    }
  }

  /** Every provider of every request is in what was gathered. */
  lemma {:induction false} GatheredHas(asked: seq<seq<Provider>>, i: nat, p: Provider)
    requires i < |asked| && p in asked[i]
    ensures Gathered(asked).Some? && p.key in Gathered(asked).value
    decreases |asked|
  {
    var n := |asked| - 1;
    var before := Gathered(asked[..n]);
    if i < n {
      GatheredHas(asked[..n], i, p);
    }
    MergeHas(if before.None? then map[] else before.value, asked[n], p.key);
  }

  lemma {:induction false} MergeKeeps(pending: Pending, changed: seq<Provider>, key: string)
    requires key in pending && forall p :: p in changed ==> p.key != key
    ensures key in Merge(pending, changed) && Merge(pending, changed)[key] == pending[key]
    decreases |changed|
  {
    if changed != [] {
      assert changed[0] in changed && forall p :: p in changed[1..] ==> p in changed;
      MergeKeeps(pending[changed[0].key := changed[0]], changed[1..], key);
    }
  }

  lemma {:induction false} MergeLast(pending: Pending, changed: seq<Provider>, j: nat)
    requires j < |changed| && forall k :: j < k < |changed| ==> changed[k].key != changed[j].key
    ensures var key := changed[j].key; key in Merge(pending, changed) && Merge(pending, changed)[key] == changed[j]
    decreases |changed|
  {
    var next := pending[changed[0].key := changed[0]];
    if j == 0 {
      MergeKeeps(next, changed[1..], changed[0].key);
    } else {
      assert forall k :: 0 <= k < |changed| - 1 ==> changed[1..][k] == changed[k + 1];
      MergeLast(next, changed[1..], j - 1);
    }
  }

  /** Provider j of request i is the last with its key. */
  ghost predicate Newest(asked: seq<seq<Provider>>, i: nat, j: nat)
    requires i < |asked| && j < |asked[i]|
  {
    && (forall k :: j < k < |asked[i]| ==> asked[i][k].key != asked[i][j].key)
    && (forall n, p :: i < n < |asked| && p in asked[n] ==> p.key != asked[i][j].key)
  }

  lemma {:induction false} GatheredNewest(asked: seq<seq<Provider>>, i: nat, j: nat)
    requires i < |asked| && j < |asked[i]| && Newest(asked, i, j)
    ensures var key := asked[i][j].key;
      Gathered(asked).Some? && key in Gathered(asked).value && Gathered(asked).value[key] == asked[i][j]
    decreases |asked|
  {
    var n := |asked| - 1;
    var before := Gathered(asked[..n]);
    var pending := if before.None? then map[] else before.value;
    if i < n {
      assert forall m :: 0 <= m < n ==> asked[..n][m] == asked[m];
      GatheredNewest(asked[..n], i, j);
      MergeKeeps(pending, asked[n], asked[i][j].key);
    } else {
      MergeLast(pending, asked[n], j);
    }
  }

  /** A provider asked for is in the first round that starts after, as it was asked for
      last before that round. */
  lemma RequestIsInTheNextRound(clock: int, every: int, steps: seq<Step>, r: nat, i: nat, j: nat)
    requires var s := Run(Fresh(clock, every), steps);
      r < |s.rounds| && TakenUpTo(s.rounds[..r]) <= i < s.rounds[r].upTo && i < |s.asked| && j < |s.asked[i]|
    ensures var s := Run(Fresh(clock, every), steps);
      var p, taken := s.asked[i][j], s.rounds[r].taken;
      && p.key in taken && s.rounds[r].upTo <= |s.asked|
      && (Newest(s.asked[..s.rounds[r].upTo], i, j) ==> taken[p.key] == p)
  {
    hide Run, Gathered;
    NoRequestIsLost(clock, every, steps);
    var s := Run(Fresh(clock, every), steps);
    assert RoundFits(s.asked, s.rounds, r);
    var from, upTo := TakenUpTo(s.rounds[..r]), s.rounds[r].upTo;
    var batch := s.asked[from..upTo];
    assert batch[i - from] == s.asked[i];
    GatheredHas(batch, i - from, s.asked[i][j]);
    if Newest(s.asked[..upTo], i, j) {
      assert forall n :: 0 <= n < |batch| ==> batch[n] == s.asked[..upTo][n + from];
      GatheredNewest(batch, i - from, j);
    }
  }

  /** Nothing pending can be stranded: the callers' kicks, the round under way, a
      receive, the wait and a take, in that order, start a round for it. */
  lemma PendingCanBeTaken(s: State, wait: nat)
    requires Inv(s) && s.pending.Some?
    requires s.last.Some? ==> s.clock + wait >= s.last.value + s.every
    ensures var r := Run(s, [Kick, Finish, Receive, Tick(wait), TakeUp]);
      |r.rounds| == |s.rounds| + 1 && r.rounds[|s.rounds|].taken == s.pending.value && r.pending.None?
  {
    hide *;
    FiveSteps(s, Kick, Finish, Receive, Tick(wait), TakeUp);
    Woken(s);
    Waited(Do(Do(Do(s, Kick), Finish), Receive), wait);
  }

  lemma FiveSteps(s: State, a: Step, b: Step, c: Step, d: Step, e: Step)
    ensures Run(s, [a, b, c, d, e]) == Do(Do(Do(Do(Do(s, a), b), c), d), e)
  {
    hide Do;
    assert [a, b, c, d, e] == [a] + ([b] + ([c] + ([d] + ([e] + []))));
    Unroll(s, a, [b] + ([c] + ([d] + ([e] + []))));
    Unroll(Do(s, a), b, [c] + ([d] + ([e] + [])));
    Unroll(Do(Do(s, a), b), c, [d] + ([e] + []));
    Unroll(Do(Do(Do(s, a), b), c), d, [e] + []);
    Unroll(Do(Do(Do(Do(s, a), b), c), d), e, []);
    Done(Do(Do(Do(Do(Do(s, a), b), c), d), e));
  }

  /** A caller's kick and the end of the round under way leave the worker awake. */
  lemma Woken(s: State)
    requires Inv(s) && s.pending.Some?
    ensures var t := Do(Do(Do(s, Kick), Finish), Receive);
      && t.worker.Awake? && t.pending == s.pending && t.rounds == s.rounds
      && t.last == s.last && t.clock == s.clock && t.every == s.every
  {
    hide RoundsFit, Gathered;
  }

  lemma Waited(s: State, wait: nat)
    requires s.worker.Awake? && s.pending.Some? && (s.last.Some? ==> s.clock + wait >= s.last.value + s.every)
    ensures var r := Do(Do(s, Tick(wait)), TakeUp);
      |r.rounds| == |s.rounds| + 1 && r.rounds[|s.rounds|].taken == s.pending.value && r.pending.None?
  {
  }

  lemma Done(s: State)
    ensures Run(s, []) == s
  {
  }

  lemma Unroll(s: State, step: Step, rest: seq<Step>)
    ensures Run(s, [step] + rest) == Run(Do(s, step), rest)
  {
  }
}
