/** The coalescing scheduler (pkg/clustarrwatch/scheduler.go): enqueues and the
    collect, send and clear phases of flushes, in any interleaving, under a clock
    that never reads the same time twice. */
module Scheduler {
  import opened Sets

  /** What is queued or sent: a section's folder ("" the whole section), an item
      by its guid, or an item by its id. */
  datatype Key = Scan(section: string, folder: string) | Refresh(guid: string) | RefreshID(id: int)

  const MAX_REFRESH_ATTEMPTS := 5

  /** ScanDelay, RefreshDelay and Threshold, with their defaults in nanoseconds. */
  datatype Config = Config(scanDelay: int, refreshDelay: int, threshold: int) {
    function Delay(k: Key): int {
      if k.Scan? then (if scanDelay <= 0 then 30_000_000_000 else scanDelay)
      else if refreshDelay <= 0 then 60_000_000_000 else refreshDelay
    }

    function Limit(): int { if threshold <= 0 then 50 else threshold }
  }

  /** A send and the entries it was collected with. */
  datatype Job = Job(target: Key, due: map<Key, int>)

  datatype Phase = Collected | Sending(start: int) | Sent(start: int)

  /** A job of one flush. */
  datatype Active = Active(flush: nat, job: Job, phase: Phase)

  /** The queue and the flushes under way, with the history the proofs speak of:
      every enqueue and every successful send with its time, and every refresh by
      id that was given up. */
  datatype State = State(
    config: Config, clock: int, queue: map<Key, int>, fails: map<int, nat>, active: set<Active>, flushes: nat,
    enqueued: set<(Key, int)>, sent: set<(Key, int)>, dropped: set<(int, int)>)

  function Fresh(config: Config, clock: int): State {
    State(config, clock, map[], map[], {}, 0, {}, {}, {})
  }

  /** A send of a folder, or of its whole section, covers it. */
  predicate Covers(target: Key, k: Key) {
    target == k || (target.Scan? && k.Scan? && target.section == k.section && target.folder == "")
  }

  // ---------------------------------------------------------------------
  // Collecting
  // ---------------------------------------------------------------------

  function Folders(queue: map<Key, int>, section: string): map<Key, int> {
    map k | k in queue && k.Scan? && k.section == section :: queue[k]
  }

  predicate Swamped(config: Config, queue: map<Key, int>, section: string) {
    |Folders(queue, section)| > config.Limit()
  }

  /** What a flush sends: a section with more folders queued than the threshold,
      whole and at once; else everything that is due. */
  function Collect(config: Config, queue: map<Key, int>, now: int): set<Job> {
    (set k | k in queue && k.Scan? && Swamped(config, queue, k.section) ::
       Job(Scan(k.section, ""), Folders(queue, k.section)))
    + (set k | k in queue && queue[k] <= now && !(k.Scan? && Swamped(config, queue, k.section)) ::
         Job(k, map[k := queue[k]]))
  }

  /** A flush misses nothing that is due, and sends each entry as it is queued,
      in a send that covers it. */
  lemma CollectsWhatIsDue(config: Config, queue: map<Key, int>, now: int)
    ensures forall k :: k in queue && queue[k] <= now ==>
      exists j :: j in Collect(config, queue, now) && k in j.due
    ensures forall j, k :: j in Collect(config, queue, now) && k in j.due ==>
      k in queue && j.due[k] == queue[k] && Covers(j.target, k)
    ensures forall j :: j in Collect(config, queue, now) && |j.due| <= config.Limit() ==>
      forall k :: k in j.due ==> queue[k] <= now
  {
    forall k | k in queue && queue[k] <= now ensures exists j :: j in Collect(config, queue, now) && k in j.due {
      var j := if k.Scan? && Swamped(config, queue, k.section)
               then Job(Scan(k.section, ""), Folders(queue, k.section)) else Job(k, map[k := queue[k]]);
      assert j in Collect(config, queue, now) && k in j.due;
    }
  }

  /** A section with more folders queued than the threshold is sent whole, once, with all
      of them, due or not; of any other every folder that is due is sent for itself. */
  lemma SectionSends(config: Config, queue: map<Key, int>, now: int, section: string)
    ensures var limit := if config.threshold <= 0 then 50 else config.threshold;
      var folders := set k | k in queue && k.Scan? && k.section == section;
      var sends := set j | j in Collect(config, queue, now) && j.target.Scan? && j.target.section == section;
      if |folders| > limit then
        exists all :: sends == {Job(Scan(section, ""), all)} && all.Keys == folders && forall k :: k in folders ==> all[k] == queue[k]
      else sends == set k | k in folders && queue[k] <= now :: Job(k, map[k := queue[k]])
  {
    var folders := set k | k in queue && k.Scan? && k.section == section;
    var all := Folders(queue, section);
    assert all.Keys == folders && |all| == |all.Keys|;
    var sends := set j | j in Collect(config, queue, now) && j.target.Scan? && j.target.section == section;
    if Swamped(config, queue, section) {
      var k := Inhabited(folders);
      var j := Job(Scan(section, ""), all);
      assert k in queue && j in Collect(config, queue, now);
      assert sends == {j};
    } else {
      var due := set k | k in folders && queue[k] <= now :: Job(k, map[k := queue[k]]);
      forall j ensures j in sends <==> j in due {}
    }
  }

  /** Every other entry that is due is sent for itself. */
  lemma RefreshSends(config: Config, queue: map<Key, int>, now: int)
    ensures (set j | j in Collect(config, queue, now) && !j.target.Scan?)
         == set k | k in queue && !k.Scan? && queue[k] <= now :: Job(k, map[k := queue[k]])
  {
  }

  // ---------------------------------------------------------------------
  // Steps
  // ---------------------------------------------------------------------

  /** Each step reads the clock, later than any reading before it. */
  datatype Step =
    | Enqueue(gap: nat, key: Key)
    | StartFlush(gap: nat)
    | Begin(gap: nat, a: Active)
    | End(gap: nat, a: Active, ok: bool)
    | Clear(gap: nat, a: Active)

  function Next(s: State, a: Active, b: set<Active>): State { s.(active := s.active - {a} + b) }

  /** A refresh by id that failed: counted, and given up after the last attempt,
      re-queued or not. */
  function Failed(s: State, k: Key): State {
    if !k.RefreshID? then s
    else
      var n := (if k.id in s.fails then s.fails[k.id] else 0) + 1;
      if n >= MAX_REFRESH_ATTEMPTS
      then s.(queue := s.queue - {k}, fails := s.fails - {k.id}, dropped := s.dropped + {(k.id, s.clock)})
      else s.(fails := s.fails[k.id := n])
  }

  /** Only entries still carrying the due times the send was collected with. */
  function Cleared(queue: map<Key, int>, due: map<Key, int>): map<Key, int> {
    map k | k in queue && !(k in due && due[k] == queue[k]) :: queue[k]
  }

  function Do(s0: State, step: Step): State {
    var s := s0.(clock := s0.clock + 1 + step.gap);
    match step
    case Enqueue(_, k) =>
      s.(queue := s.queue[k := s.clock + s.config.Delay(k)], enqueued := s.enqueued + {(k, s.clock)})
    case StartFlush(_) =>
      s.(active := s.active + (set j | j in Collect(s.config, s.queue, s.clock) :: Active(s.flushes, j, Collected)),
         flushes := s.flushes + 1)
    case Begin(_, a) =>
      if a in s.active && a.phase.Collected? then Next(s, a, {a.(phase := Sending(s.clock))}) else s
    case End(_, a, ok) =>
      if !(a in s.active && a.phase.Sending?) then s
      else if ok then Next(s, a, {a.(phase := Sent(a.phase.start))}).(sent := s.sent + {(a.job.target, a.phase.start)})
      else Failed(Next(s, a, {}), a.job.target)
    case Clear(_, a) =>
      if !(a in s.active && a.phase.Sent?) then s
      else
        var t := Next(s, a, {}).(queue := Cleared(s.queue, a.job.due));
        if a.job.target.RefreshID? then t.(fails := t.fails - {a.job.target.id}) else t
  }

  function Run(s: State, steps: seq<Step>): State
    decreases |steps|
  {
    if steps == [] then s else Run(Do(s, steps[0]), steps[1..])
  }

  lemma {:induction false} RunOne(s: State, steps: seq<Step>, step: Step)
    ensures Run(s, steps + [step]) == Do(Run(s, steps), step)
    decreases |steps|
  {
    if steps == [] {
      assert steps + [step] == [step] && [step][1..] == [];
    } else {
      assert (steps + [step])[1..] == steps[1..] + [step];
      RunOne(Do(s, steps[0]), steps[1..], step);
    }
  }

  // ---------------------------------------------------------------------
  // No change is lost
  // ---------------------------------------------------------------------

  ghost predicate IsCovered(s: State, k: Key, at: int) {
    exists target, start :: (target, start) in s.sent && Covers(target, k) && start > at
  }

  ghost predicate IsDropped(s: State, k: Key, at: int) {
    k.RefreshID? && exists when :: (k.id, when) in s.dropped && when > at
  }

  ghost predicate StillQueued(s: State, k: Key, at: int) { k in s.queue && s.queue[k] >= at + s.config.Delay(k) }

  ghost predicate Kept(s: State, k: Key, at: int) {
    StillQueued(s, k, at) || IsCovered(s, k, at) || IsDropped(s, k, at)
  }

  /** A job's entries were enqueued before its send began. */
  ghost predicate Ripe(s: State, a: Active) {
    && (forall k :: k in a.job.due ==> Covers(a.job.target, k))
    && match a.phase
       case Collected => forall k :: k in a.job.due ==> a.job.due[k] - s.config.Delay(k) <= s.clock
       case Sending(start) => forall k :: k in a.job.due ==> a.job.due[k] - s.config.Delay(k) < start
       case Sent(start) =>
         (a.job.target, start) in s.sent && forall k :: k in a.job.due ==> a.job.due[k] - s.config.Delay(k) < start
  }

  ghost predicate Inv(s: State) {
    && (forall k :: k in s.queue ==> s.queue[k] - s.config.Delay(k) <= s.clock)
    && (forall a :: a in s.active ==> Ripe(s, a))
    && (forall e :: e in s.enqueued ==> e.1 <= s.clock && Kept(s, e.0, e.1))
  }

  lemma EnqueueKeeps(s: State, step: Step)
    requires Inv(s) && step.Enqueue?
    ensures Inv(Do(s, step))
  {
  }

  lemma FlushKeeps(s: State, step: Step)
    requires Inv(s) && step.StartFlush?
    ensures Inv(Do(s, step))
  {
  }

  lemma SendKeeps(s: State, step: Step)
    requires Inv(s) && (step.Begin? || (step.End? && step.ok))
    ensures Inv(Do(s, step))
  {
  }

  lemma FailKeeps(s: State, step: Step)
    requires Inv(s) && step.End? && !step.ok
    ensures Inv(Do(s, step))
  {
  }

  lemma ClearKeeps(s: State, step: Step)
    requires Inv(s) && step.Clear?
    ensures Inv(Do(s, step))
  {
  }

  lemma {:induction false} RunKeeps(s: State, steps: seq<Step>)
    requires Inv(s)
    ensures Inv(Run(s, steps))
    decreases |steps|
  {
    hide Inv;
    if steps != [] {
      match steps[0] {
        case Enqueue(_, _) => EnqueueKeeps(s, steps[0]);
        case StartFlush(_) => FlushKeeps(s, steps[0]);
        case Begin(_, _) => SendKeeps(s, steps[0]);
        case End(_, _, ok) => if ok { SendKeeps(s, steps[0]); } else { FailKeeps(s, steps[0]); }
        case Clear(_, _) => ClearKeeps(s, steps[0]);
      }
      RunKeeps(Do(s, steps[0]), steps[1..]);
    }
  }

  /** The scheduler loses no change: after any interleaving of enqueues with any
      number of flushes' phases, every enqueued folder or guid is still queued, due
      no earlier than that enqueue says, or a successful send that covers it began
      after the enqueue; a refresh by id may also have been given up since. */
  lemma NothingIsLost(config: Config, clock: int, steps: seq<Step>, k: Key, at: int)
    requires (k, at) in Run(Fresh(config, clock), steps).enqueued
    ensures var s := Run(Fresh(config, clock), steps);
      && Kept(s, k, at)
      && (!k.RefreshID? ==> StillQueued(s, k, at) || IsCovered(s, k, at))
  {
    RunKeeps(Fresh(config, clock), steps);
  }

  /** A refresh by id is given up at its fifth failure on end, and not before. */
  ghost function Failures(s: State, k: Key, n: nat): State {
    if n == 0 then s else Failed(Failures(s, k, n - 1), k)
  }

  lemma {:induction false} GivenUpAtTheFifth(s: State, id: int, n: nat)
    requires id !in s.fails && n < 5
    ensures var k := RefreshID(id);
      && Failures(s, k, n).queue == s.queue && Failures(s, k, n).dropped == s.dropped
      && var r := Failures(s, k, 5);
         && r.queue == s.queue - {k} && id !in r.fails && r.dropped == s.dropped + {(id, s.clock)}
    decreases n
  {
    var k := RefreshID(id);
    var s1 := Failures(s, k, 1);
    assert Failures(s, k, 0) == s && s1 == s.(fails := s.fails[id := 1]);
    var s2 := Failures(s, k, 2);
    assert s2.queue == s.queue && s2.fails[id] == 2;
    var s3 := Failures(s, k, 3);
    assert s3.queue == s.queue && s3.fails[id] == 3;
    var s4 := Failures(s, k, 4);
    assert s4.queue == s.queue && s4.fails[id] == 4;
    assert n in {0, 1, 2, 3, 4};
  }

  // ---------------------------------------------------------------------
  // The scheduler, one caller at a time
  // ---------------------------------------------------------------------

  class Coalescer {
    var s: State

    constructor (config: Config, clock: int)
      ensures s == Fresh(config, clock)
    {
      s := Fresh(config, clock);
    }

    method EnqueueKey(k: Key)
      modifies this
      ensures s == Do(old(s), Enqueue(0, k))
      ensures k in s.queue && var delay := s.queue[k] - s.clock; var c := s.config;
        if k.Scan? then delay == (if c.scanDelay > 0 then c.scanDelay else 30_000_000_000)
        else delay == if c.refreshDelay > 0 then c.refreshDelay else 60_000_000_000
    {
      var now := s.clock + 1;
      s := s.(clock := now, queue := s.queue[k := now + s.config.Delay(k)], enqueued := s.enqueued + {(k, now)});
    }

    /** A flush nobody interleaves with is a run of the steps.  Where every send
        succeeds, nothing that was due stays queued; what a failed send carried
        does, but for a refresh by id. */
    method Flush(ok: Job -> bool) returns (ghost steps: seq<Step>)
      modifies this
      ensures s == Run(old(s), steps)
      ensures var now := old(s.clock) + 1;
        var jobs := Collect(old(s.config), old(s.queue), now);
        && (forall k :: k in s.queue ==> k in old(s.queue) && s.queue[k] == old(s.queue)[k])
        && ((forall j :: j in jobs ==> ok(j)) ==>
              forall k :: k in old(s.queue) && old(s.queue)[k] <= now ==> k !in s.queue)
        && (forall k :: k in old(s.queue) && !k.RefreshID? && (forall j :: j in jobs && k in j.due ==> !ok(j)) ==>
              k in s.queue)
    {
      hide Collect, Flushed, Do, Run, SentOne;
      ghost var s0, q := s, s.queue;
      var jobs := Collect(s.config, s.queue, s.clock + 1);
      CollectsWhatIsDue(s.config, s.queue, s.clock + 1);
      FlushStarts(s);
      NothingSent(q, jobs, ok);
      var flush, todo := s.flushes, jobs;
      steps := [StartFlush(0)];
      s := Do(s, StartFlush(0));
      while todo != {}
        invariant s == Run(s0, steps) && todo <= jobs
        invariant forall j :: j in todo ==> Active(flush, j, Collected) in s.active
        invariant Flushed(q, s.queue, jobs, todo, ok)
        decreases todo
      {
        var j :| j in todo;
        ghost var more: seq<Step>;
        ghost var was := s;
        s, more := Send(s, flush, j, ok(j));
        RunMore(s0, steps, more);
        SendFlushed(q, was.queue, s.queue, jobs, todo, ok, j);
        steps, todo := steps + more, todo - {j};
      }
      AllSent(q, s.queue, jobs, ok, s0.clock + 1);
    }
  }

  /** The first step of a flush: its jobs are collected, the queue as it was. */
  lemma FlushStarts(s: State)
    ensures var t := Do(s, StartFlush(0));
      && Run(s, [StartFlush(0)]) == t && t.queue == s.queue
      && forall j :: j in Collect(s.config, s.queue, s.clock + 1) ==> Active(s.flushes, j, Collected) in t.active
  {
    hide Collect;
    var t := Do(s, StartFlush(0));
    assert [StartFlush(0)][1..] == [] && Run(t, []) == t;
  }

  lemma NothingSent(q: map<Key, int>, jobs: set<Job>, ok: Job -> bool)
    ensures Flushed(q, q, jobs, jobs, ok)
  {
  }

  /** What the queue is once every send is over. */
  lemma AllSent(q: map<Key, int>, r: map<Key, int>, jobs: set<Job>, ok: Job -> bool, now: int)
    requires Flushed(q, r, jobs, {}, ok)
    requires forall k :: k in q && q[k] <= now ==> exists j :: j in jobs && k in j.due
    ensures forall k :: k in r ==> k in q && r[k] == q[k]
    ensures (forall j :: j in jobs ==> ok(j)) ==> forall k :: k in q && q[k] <= now ==> k !in r
    ensures forall k :: k in q && !k.RefreshID? && (forall j :: j in jobs && k in j.due ==> !ok(j)) ==> k in r
  {
  }

  /** The queue once the sends not in `todo` are over. */
  ghost predicate Flushed(q: map<Key, int>, r: map<Key, int>, jobs: set<Job>, todo: set<Job>, ok: Job -> bool) {
    && (forall k :: k in r ==> k in q && r[k] == q[k])
    && (forall j, k :: j in jobs && j !in todo && ok(j) && k in j.due ==> k !in r)
    && (forall k :: k in q && !k.RefreshID? && (forall j :: j in jobs && j !in todo && k in j.due ==> !ok(j)) ==> k in r)
  }

  ghost predicate SentOne(q: map<Key, int>, r: map<Key, int>, j: Job, ok: bool) {
    if ok then r == Cleared(q, j.due)
    else r == q || (j.target.RefreshID? && r == q - {j.target})
  }

  lemma SendFlushed(q: map<Key, int>, was: map<Key, int>, r: map<Key, int>, jobs: set<Job>, todo: set<Job>,
                    ok: Job -> bool, j: Job)
    requires Flushed(q, was, jobs, todo, ok) && j in todo && todo <= jobs
    requires forall k :: k in j.due ==> k in q && j.due[k] == q[k]
    requires SentOne(was, r, j, ok(j))
    ensures Flushed(q, r, jobs, todo - {j}, ok)
  {
  }

  /** One send of a flush: its begin, its end, and the clear after a success. */
  method Send(s: State, flush: nat, j: Job, ok: bool) returns (t: State, ghost steps: seq<Step>)
    requires Active(flush, j, Collected) in s.active
    ensures t == Run(s, steps) && SentOne(s.queue, t.queue, j, ok)
    ensures forall a :: a in s.active && a.phase.Collected? && a != Active(flush, j, Collected) ==> a in t.active
  {
    var a := Active(flush, j, Collected);
    var b := Begin(0, a);
    t := Do(s, b);
    var sending := a.(phase := Sending(t.clock));
    var e := End(0, sending, ok);
    ghost var t1 := t;
    t := Do(t, e);
    steps := [b, e];
    assert [b, e][1..] == [e] && [e][1..] == [];
    assert Run(s, [b, e]) == Run(t1, [e]) == Run(t, []);
    if ok {
      var c := Clear(0, sending.(phase := Sent(sending.phase.start)));
      RunOne(s, steps, c);
      t, steps := Do(t, c), steps + [c];
    }
  }

  lemma {:induction false} RunMore(s: State, a: seq<Step>, b: seq<Step>)
    ensures Run(s, a + b) == Run(Run(s, a), b)
    decreases |a|
  {
    if a == [] {
      assert a + b == b;
    } else {
      assert (a + b)[1..] == a[1..] + b;
      RunMore(Do(s, a[0]), a[1..], b);
    }
  }
}
