/** The watcher's seed queue (pkg/clustarrwatch/watcher.go): files waiting to be
    seeded, those waiting out a backoff step, and the batch under way. */
module SeedQueue {
  /** A file as the informer saw it. */
  datatype File = File(name: string, version: int)

  datatype Retry = Retry(file: File, at: int, attempts: nat)

  /** A dequeued file and the attempts made before this one. */
  datatype Try = Try(file: File, attempts: nat)

  /** The fields under seedMu and the batch flushSeeds works through.  `latest` is
      the last version enqueued of each file not forgotten since, `tries` how often
      it was dequeued since then: what the proofs speak of. */
  datatype State = State(
    backoff: seq<int>, queue: map<string, File>, order: seq<string>, retry: map<string, Retry>,
    attempts: map<string, nat>, batch: seq<Try>, latest: map<string, File>, tries: map<string, nat>)

  function Fresh(backoff: seq<int>): State { State(backoff, map[], [], map[], map[], [], map[], map[]) }

  /** queueSeedLocked. */
  function Queued(s: State, f: File): State {
    s.(order := if f.name in s.queue then s.order else s.order + [f.name], queue := s.queue[f.name := f])
  }

  function Enqueue(s: State, f: File): State {
    Queued(s.(retry := s.retry - {f.name}, attempts := s.attempts - {f.name},
              latest := s.latest[f.name := f], tries := s.tries[f.name := 0]), f)
  }

  function Without(order: seq<string>, name: string): seq<string> {
    if order == [] then []
    else (if order[0] == name then [] else [order[0]]) + Without(order[1..], name)
  }

  function Forget(s: State, name: string): State {
    var t := s.(retry := s.retry - {name}, attempts := s.attempts - {name},
                latest := s.latest - {name}, tries := s.tries - {name});
    if name in s.queue then t.(queue := s.queue - {name}, order := Without(s.order, name)) else t
  }

  /** promoteSeedRetries, for one file. */
  function Promote(s: State, name: string, now: int): State {
    if name !in s.retry || now < s.retry[name].at then s
    else
      var r, t := s.retry[name], s.(retry := s.retry - {name});
      if name in s.queue then t
      else Queued(t, r.file).(attempts := s.attempts[name := r.attempts])
  }

  function Attempts(s: State, name: string): nat { if name in s.attempts then s.attempts[name] else 0 }

  function Tries(s: State, name: string): nat { if name in s.tries then s.tries[name] else 0 }

  /** The head of the order joins the batch. */
  function DequeueOne(s: State): State
    requires s.order != [] && s.order[0] in s.queue
  {
    var name := s.order[0];
    s.(order := s.order[1..], queue := s.queue - {name}, attempts := s.attempts - {name},
       batch := s.batch + [Try(s.queue[name], Attempts(s, name))],
       tries := if name in s.latest then s.tries[name := Tries(s, name) + 1] else s.tries)
  }

  /** retrySeed: the next backoff step, unless it was the last or the file was
      queued again meanwhile. */
  function RetryLater(s: State, f: File, attempts: nat, now: int): State {
    if attempts >= |s.backoff| || f.name in s.queue then s
    else s.(retry := s.retry[f.name := Retry(f, now + s.backoff[attempts], attempts + 1)])
  }

  /** The batch's next file is done: seeded or cancelled, or to be tried again. */
  function Finish(s: State, again: bool, now: int): State {
    if s.batch == [] then s
    else
      var t, rest := s.batch[0], s.(batch := s.batch[1..]);
      if again then RetryLater(rest, t.file, t.attempts, now) else rest
  }

  // ---------------------------------------------------------------------
  // The invariant
  // ---------------------------------------------------------------------

  ghost predicate NoRepeats(s: seq<string>) { forall i, j :: 0 <= i < j < |s| ==> s[i] != s[j] }

  /** The order lists the queue's files, each once. */
  ghost predicate Listed(s: State) {
    NoRepeats(s.order) && forall n :: n in s.order <==> n in s.queue
  }

  /** A file is not queued and backing off; what is queued or backing off of it is
      its newest version, tried as often as is recorded, and never more than once
      for each backoff step and once before them. */
  ghost predicate FileOk(s: State, n: string) {
    && (n in s.queue ==> s.queue[n].name == n && n !in s.retry)
    && (n in s.retry ==> s.retry[n].file.name == n && s.retry[n].attempts <= |s.backoff|)
    && (n in s.attempts ==> n in s.queue && s.attempts[n] <= |s.backoff|)
    && (n in s.latest ==>
          && s.latest[n].name == n && Tries(s, n) <= 1 + |s.backoff|
          && (n in s.queue ==> s.queue[n] == s.latest[n] && Tries(s, n) == Attempts(s, n))
          && (n in s.retry ==> s.retry[n].file == s.latest[n] && Tries(s, n) == s.retry[n].attempts))
  }

  /** What is in the batch is the newest version, unless a newer one is queued. */
  ghost predicate TryOk(s: State, t: Try) {
    && t.attempts <= |s.backoff|
    && (t.file.name in s.latest && t.file.name !in s.queue ==>
          && t.file == s.latest[t.file.name] && t.file.name !in s.retry
          && Tries(s, t.file.name) == t.attempts + 1)
  }

  ghost predicate BatchOk(s: State) {
    && (forall i, j :: 0 <= i < j < |s.batch| ==> s.batch[i].file.name != s.batch[j].file.name)
    && (forall t :: t in s.batch ==> TryOk(s, t))
  }

  ghost predicate Inv(s: State) { Listed(s) && (forall n :: FileOk(s, n)) && BatchOk(s) }

  lemma {:induction false} WithoutIs(order: seq<string>, name: string)
    requires NoRepeats(order)
    ensures NoRepeats(Without(order, name))
    ensures forall n :: n in Without(order, name) <==> n in order && n != name
  {
    if order != [] {
      var rest := Without(order[1..], name);
      WithoutIs(order[1..], name);
      assert forall n :: n in order <==> n == order[0] || n in order[1..];
      assert order[0] !in rest;
      if order[0] != name {
        assert Without(order, name) == [order[0]] + rest;
      } else {
        assert Without(order, name) == rest;
      }
    }
  }

  lemma ListedQueued(s: State, f: File)
    requires Listed(s)
    ensures Listed(Queued(s, f))
  {
  }

  lemma EnqueueKeeps(s: State, f: File)
    requires Inv(s)
    ensures Inv(Enqueue(s, f))
  {
    var t := Enqueue(s, f);
    assert Listed(t) by { ListedQueued(s, f); }
    forall n ensures FileOk(t, n) { assert FileOk(s, n); }
    forall b | b in t.batch ensures TryOk(t, b) { assert TryOk(s, b); }
  }

  lemma ListedForget(s: State, name: string)
    requires Listed(s)
    ensures Listed(Forget(s, name))
  {
    WithoutIs(s.order, name);
  }

  lemma ForgetFile(s: State, name: string, n: string)
    requires FileOk(s, n)
    ensures FileOk(Forget(s, name), n)
  {
  }

  lemma ForgetTry(s: State, name: string, t: Try)
    requires TryOk(s, t)
    ensures TryOk(Forget(s, name), t)
  {
  }

  lemma ForgetKeeps(s: State, name: string)
    requires Inv(s)
    ensures Inv(Forget(s, name))
  {
    hide Listed, FileOk, TryOk, Without;
    var t := Forget(s, name);
    ListedForget(s, name);
    forall n ensures FileOk(t, n) { ForgetFile(s, name, n); }
    forall b | b in t.batch ensures TryOk(t, b) { ForgetTry(s, name, b); }
  }

  lemma PromoteKeeps(s: State, name: string, now: int)
    requires Inv(s)
    ensures Inv(Promote(s, name, now))
  {
    var t := Promote(s, name, now);
    assert FileOk(s, name);
    assert Listed(t) by { if name in s.retry { ListedQueued(s, s.retry[name].file); } }
    forall n ensures FileOk(t, n) { assert FileOk(s, n); }
    forall b | b in t.batch ensures TryOk(t, b) { assert TryOk(s, b); }
  }

  /** The batch does not hold what is still listed, so the head may join it. */
  ghost predicate BatchApart(s: State) { forall t :: t in s.batch ==> t.file.name !in s.order }

  lemma ListedDequeue(s: State)
    requires Listed(s) && s.order != []
    ensures s.order[0] in s.queue && Listed(DequeueOne(s))
    ensures forall n :: n in s.order <==> n == s.order[0] || n in s.order[1..]
  {
  }

  lemma BatchJoined(s: State, t: Try)
    requires forall i, j :: 0 <= i < j < |s.batch| ==> s.batch[i].file.name != s.batch[j].file.name
    requires forall b :: b in s.batch ==> b.file.name != t.file.name
    ensures var r := s.batch + [t]; forall i, j :: 0 <= i < j < |r| ==> r[i].file.name != r[j].file.name
  {
  }

  lemma DequeueKeeps(s: State)
    requires Inv(s) && s.order != [] && BatchApart(s)
    ensures s.order[0] in s.queue && Inv(DequeueOne(s)) && BatchApart(DequeueOne(s))
  {
    ListedDequeue(s);
    hide Listed, FileOk, TryOk;
    var t := DequeueOne(s);
    var joined := t.batch[|s.batch|];
    assert FileOk(s, s.order[0]);
    DequeueTry(s);
    forall n ensures FileOk(t, n) { DequeueFile(s, n); }
    BatchJoined(s, joined);
    forall b | b in t.batch ensures TryOk(t, b) { assert b in s.batch || b == joined; }
  }

  lemma DequeueFile(s: State, n: string)
    requires s.order != [] && s.order[0] in s.queue && FileOk(s, n)
    ensures FileOk(DequeueOne(s), n)
  {
  }

  lemma DequeueTry(s: State)
    requires s.order != [] && s.order[0] in s.queue && FileOk(s, s.order[0])
    ensures var t := DequeueOne(s);
      && t.batch[|s.batch|].file.name == s.order[0] && TryOk(t, t.batch[|s.batch|])
      && forall b :: TryOk(s, b) && b.file.name != s.order[0] ==> TryOk(t, b)
  {
  }

  lemma FinishKeeps(s: State, again: bool, now: int)
    requires Inv(s)
    ensures Inv(Finish(s, again, now))
  {
    var t := Finish(s, again, now);
    if s.batch != [] {
      assert FileOk(s, s.batch[0].file.name) && TryOk(s, s.batch[0]);
      forall n ensures FileOk(t, n) { assert FileOk(s, n); }
      forall b | b in t.batch ensures TryOk(t, b) {
        assert TryOk(s, b);
        var i :| 0 <= i < |t.batch| && t.batch[i] == b;
        assert s.batch[i + 1] == b;
      }
      assert forall i :: 0 <= i < |t.batch| ==> t.batch[i] == s.batch[i + 1];
    }
  }

  // ---------------------------------------------------------------------
  // Runs
  // ---------------------------------------------------------------------

  datatype Step =
    | DoEnqueue(file: File)
    | DoForget(name: string)
    | DoPromote(name: string, now: int)
    | DoDequeue(size: nat)
    | DoFinish(again: bool, now: int)

  ghost function DequeueMany(s: State, n: nat): (r: State)
    requires Inv(s) && BatchApart(s) && n <= |s.order|
    ensures Inv(r) && r.backoff == s.backoff && |r.batch| == |s.batch| + n && r.batch[..|s.batch|] == s.batch
    decreases n
  {
    if n == 0 then
      assert s.batch[..|s.batch|] == s.batch;
      s
    else
      DequeueKeeps(s);
      var t := DequeueOne(s);
      var r := DequeueMany(t, n - 1);
      assert r.batch[..|s.batch|] == r.batch[..|t.batch|][..|s.batch|];
      r
  }

  /** One step of the watcher's goroutines, each under the mutex; a batch is taken
      only when the last one is finished. */
  ghost function Do(s: State, step: Step): (r: State)
    requires Inv(s)
    ensures Inv(r) && r.backoff == s.backoff
  {
    match step
    case DoEnqueue(f) => EnqueueKeeps(s, f); Enqueue(s, f)
    case DoForget(name) => ForgetKeeps(s, name); Forget(s, name)
    case DoPromote(name, now) => PromoteKeeps(s, name, now); Promote(s, name, now)
    case DoDequeue(size) =>
      if s.batch != [] then s else DequeueMany(s, if size < |s.order| then size else |s.order|)
    case DoFinish(again, now) => FinishKeeps(s, again, now); Finish(s, again, now)
  }

  ghost function Run(s: State, steps: seq<Step>): (r: State)
    requires Inv(s)
    ensures Inv(r) && r.backoff == s.backoff
    decreases |steps|
  {
    if steps == [] then s else Run(Do(s, steps[0]), steps[1..])
  }

  /** Over every run: the order is a duplicate-free listing of the queue, no file
      is both queued and backing off, what is queued or backing off of a file is
      never older than its last change, and a file is tried at most once more than
      there are backoff steps between changes. */
  lemma QueueStaysConsistent(backoff: seq<int>, steps: seq<Step>, name: string)
    ensures var s := Run(Fresh(backoff), steps);
      && NoRepeats(s.order) && (forall n :: n in s.order <==> n in s.queue)
      && !(name in s.queue && name in s.retry)
      && (name in s.latest ==>
            && (name in s.queue ==> s.queue[name] == s.latest[name])
            && (name in s.retry ==> s.retry[name].file == s.latest[name])
            && Tries(s, name) <= 1 + |backoff|)
  {
    var s := Run(Fresh(backoff), steps);
    assert FileOk(s, name);
  }

  /** A file that fails while backoff steps are left, and was not queued again meanwhile,
      waits out its next step, and from then on is queued again, one attempt further on; a
      file that fails after the last step is not tried again. */
  lemma FailingIsTriedAgain(s: State, now: int, later: int)
    requires Inv(s) && s.batch != []
    ensures var t := s.batch[0]; var name := t.file.name;
      var r := Run(s, [DoFinish(true, now), DoPromote(name, later)]);
      && (name !in s.queue && t.attempts < |s.backoff| ==>
            if later < now + s.backoff[t.attempts] then name !in r.queue && name in r.retry
            else name in r.queue && r.queue[name] == t.file && Attempts(r, name) == t.attempts + 1
                 && r.order == s.order + [name] && name !in r.retry)
      && (name !in s.queue && name !in s.retry && t.attempts >= |s.backoff| ==> name !in r.queue && name !in r.retry)
      && (name in s.queue ==> name in r.queue && r.queue[name] == s.queue[name] && name !in r.retry && Attempts(r, name) == Attempts(s, name))
  {
    hide Inv;
    var name := s.batch[0].file.name;
    var steps := [DoFinish(true, now), DoPromote(name, later)];
    TwoSteps(s, steps[0], steps[1]);
    FileIn(s, name);
  }

  lemma TwoSteps(s: State, a: Step, b: Step)
    requires Inv(s)
    ensures Run(s, [a, b]) == Do(Do(s, a), b)
  {
    hide Inv, Do;
    assert [a, b][1..] == [b] && [b][1..] == [];
    assert Run(Do(s, a), [b]) == Run(Do(Do(s, a), b), []);
  }

  lemma FileIn(s: State, name: string)
    requires Inv(s)
    ensures name in s.queue ==> name !in s.retry
    ensures name in s.order <==> name in s.queue
  {
    assert FileOk(s, name);
  }

  // ---------------------------------------------------------------------
  // The watcher's methods
  // ---------------------------------------------------------------------

  class Watcher {
    const backoff: seq<int>
    var queue: map<string, File>
    var order: seq<string>
    var retry: map<string, Retry>
    var attempts: map<string, nat>
    var batch: seq<Try>
    ghost var latest: map<string, File>
    ghost var tries: map<string, nat>

    ghost function Now(): State
      reads this
    {
      State(backoff, queue, order, retry, attempts, batch, latest, tries)
    }

    constructor (backoff: seq<int>)
      ensures Now() == Fresh(backoff) && Inv(Now())
    {
      this.backoff := backoff;
      queue, order, retry, attempts, batch := map[], [], map[], map[], [];
      latest, tries := map[], map[];
    }

    method QueueSeedLocked(f: File)
      modifies this`order, this`queue
      ensures Now() == Queued(old(Now()), f)
    {
      if f.name !in queue {
        order := order + [f.name];
      }
      queue := queue[f.name := f];
    }

    /** A change: it starts over, whatever backoff the file was in. */
    method EnqueueSeed(f: File)
      requires Inv(Now())
      modifies this
      ensures Inv(Now()) && Now() == Enqueue(old(Now()), f)
    {
      EnqueueKeeps(Now(), f);
      retry := retry - {f.name};
      attempts := attempts - {f.name};
      latest, tries := latest[f.name := f], tries[f.name := 0];
      QueueSeedLocked(f);
    }

    method ForgetSeed(name: string)
      requires Inv(Now())
      modifies this
      ensures Inv(Now()) && Now() == Forget(old(Now()), name)
      ensures name !in queue && name !in order && name !in retry && name !in attempts
    {
      ForgetKeeps(Now(), name);
      WithoutIs(order, name);
      retry := retry - {name};
      attempts := attempts - {name};
      latest, tries := latest - {name}, tries - {name};
      if name in queue {
        queue := queue - {name};
        order := Without(order, name);
      }
    }

    /** Every file whose backoff step has passed is queued, and no other. */
    method PromoteSeedRetries(now: int)
      requires Inv(Now())
      modifies this
      ensures Inv(Now())
      ensures forall n :: n in retry <==> n in old(retry) && now < old(retry)[n].at
      ensures forall n :: n in retry ==> retry[n] == old(retry)[n]
      ensures forall n :: n in queue <==> n in old(queue) || (n in old(retry) && now >= old(retry)[n].at)
      ensures forall n :: n in old(queue) ==> queue[n] == old(queue)[n]
      ensures forall n :: n in queue && n !in old(queue) ==> queue[n] == old(retry)[n].file
      ensures batch == old(batch) && old(order) <= order
    {
      hide Inv;
      ghost var was := Now();
      var todo := retry.Keys;
      while todo != {}
        invariant Inv(Now()) && todo <= was.retry.Keys
        invariant forall n :: n in retry <==> n in was.retry && (n in todo || now < was.retry[n].at)
        invariant forall n :: n in retry ==> retry[n] == was.retry[n]
        invariant forall n :: n in queue <==>
          n in was.queue || (n in was.retry && n !in todo && now >= was.retry[n].at)
        invariant forall n :: n in was.queue ==> queue[n] == was.queue[n]
        invariant forall n :: n in queue && n !in was.queue ==> queue[n] == was.retry[n].file
        invariant batch == was.batch && was.order <= order
        decreases todo
      {
        var name :| name in todo;
        NameKept(Now(), name);
        PromoteSeed(name, now);
        todo := todo - {name};
      }
    }

    /** One turn of that loop. */
    method PromoteSeed(name: string, now: int)
      requires Inv(Now()) && name in retry
      modifies this`retry, this`order, this`queue, this`attempts
      ensures Inv(Now()) && Now() == Promote(old(Now()), name, now)
    {
      PromoteKeeps(Now(), name, now);
      var r := retry[name];
      if now < r.at {
        return;
      }
      retry := retry - {name};
      if name in queue {
        return;
      }
      QueueSeedLocked(r.file);
      attempts := attempts[name := r.attempts];
    }

    /** The dequeue of flushSeeds: the first files of the order, as they are. */
    method Dequeue(size: nat)
      requires Inv(Now()) && batch == []
      modifies this
      ensures Inv(Now())
      ensures var n := if size < |old(order)| then size else |old(order)|;
        Now() == DequeueMany(old(Now()), n) && |batch| == n
    {
      hide Inv, BatchApart, DequeueOne, DequeueMany;
      var n := if size < |order| then size else |order|;
      ghost var was := Now();
      ManyStarts(Now());
      for i := 0 to n
        invariant Inv(Now()) && BatchApart(Now()) && n - i <= |order|
        invariant DequeueMany(Now(), n - i) == DequeueMany(was, n)
      {
        ManyStep(Now(), n - i);
        DequeueSeed();
      }
      ManyEnds(Now());
    }

    /** One turn of that loop. */
    method DequeueSeed()
      requires Inv(Now()) && BatchApart(Now()) && order != []
      modifies this
      ensures old(order)[0] in old(queue) && Now() == DequeueOne(old(Now())) && Inv(Now()) && BatchApart(Now())
    {
      hide Inv, BatchApart;
      DequeueKeeps(Now());
      var name := order[0];
      batch := batch + [Try(queue[name], if name in attempts then attempts[name] else 0)];
      tries := if name in latest then tries[name := Tries(Now(), name) + 1] else tries;
      order := order[1..];
      queue := queue - {name};
      attempts := attempts - {name};
    }

    /** The batch's next file is done; a failing one goes through retrySeed. */
    method FinishSeed(again: bool, now: int)
      requires Inv(Now()) && batch != []
      modifies this`batch, this`retry
      ensures Inv(Now()) && Now() == Finish(old(Now()), again, now)
    {
      FinishKeeps(Now(), again, now);
      var t := batch[0];
      batch := batch[1..];
      if !again || t.attempts >= |backoff| {
        return;
      }
      if t.file.name in queue {
        return;
      }
      retry := retry[t.file.name := Retry(t.file, now + backoff[t.attempts], t.attempts + 1)];
    }
  }

  lemma ManyStarts(s: State)
    requires s.batch == []
    ensures BatchApart(s)
  {
  }

  lemma ManyEnds(s: State)
    requires Inv(s) && BatchApart(s)
    ensures DequeueMany(s, 0) == s
  {
  }

  lemma ManyStep(s: State, n: nat)
    requires Inv(s) && BatchApart(s) && 0 < n <= |s.order|
    ensures s.order[0] in s.queue && Inv(DequeueOne(s)) && BatchApart(DequeueOne(s)) && |DequeueOne(s).order| == |s.order| - 1
    ensures DequeueMany(s, n) == DequeueMany(DequeueOne(s), n - 1)
  {
    DequeueKeeps(s);
  }

  lemma NameKept(s: State, name: string)
    requires Inv(s)
    ensures name in s.retry ==> s.retry[name].file.name == name && name !in s.queue
  {
    assert FileOk(s, name);
  }
}
