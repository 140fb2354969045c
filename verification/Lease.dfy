/** The plex.tv lease (pkg/lease/lease.go): pods take, renew and release one
    Kubernetes Lease by a Get and a compare-and-swap write, in any interleaving,
    under one shared clock. */
module Lease {
  import opened Options

  /** The Lease object.  An empty holder is a free lease; `version` is its
      resourceVersion. */
  datatype Record = Record(
    holder: string, duration: Option<int>, acquired: Option<int>, renewed: Option<int>, version: int)

  predicate Free(l: Record) { l.holder == "" }

  predicate HeldBy(l: Record, identity: string) { !Free(l) && l.holder == identity }

  predicate Expired(l: Record, now: int) {
    l.renewed.None? || l.duration.None? || now > l.renewed.value + l.duration.value
  }

  /** What Acquire writes over the lease it read, or None when another pod holds
      it alive. */
  function Acquired(l: Option<Record>, identity: string, duration: int, now: int): Option<Record> {
    match l
    case None => Some(Record(identity, Some(duration), Some(now), Some(now), 0))
    case Some(l) =>
      if !HeldBy(l, identity) && !Free(l) && !Expired(l, now) then None
      else Some(l.(holder := identity, duration := Some(duration), renewed := Some(now),
                   acquired := if HeldBy(l, identity) then l.acquired else Some(now)))
  }

  /** Holder: the live holder, or "". */
  function Holder(l: Option<Record>, now: int): string {
    if l.None? || Free(l.value) || Expired(l.value, now) then "" else l.value.holder
  }

  // ---------------------------------------------------------------------
  // The pods
  // ---------------------------------------------------------------------

  /** Where a pod's current call is: each call takes the time and reads the
      lease in the order its code does, then writes. */
  datatype Phase =
    | Idle
    | AcquireGet(now: int)
    | AcquireWrite(seen: Option<Record>, put: Record)
    | RenewGet
    | RenewStamp(held: Record)
    | RenewWrite(held: Record, now: int)
    | ReleaseGet
    | ReleaseWrite(held: Record)

  /** `wrote` is the renew time of the last write the pod knows succeeded, from an
      acquire of its own until it begins to release the lease. */
  datatype Pod = Pod(duration: int, phase: Phase, wrote: Option<int>)

  /** A write on its way whose call was given up: it may reach the server yet. */
  datatype Late = Late(pod: string, seen: Option<Record>, put: Record)

  datatype State = State(clock: int, lease: Option<Record>, next: int, pods: map<string, Pod>, late: set<Late>)

  datatype Step =
    | Tick(elapsed: nat)
    | CallAcquire(pod: string)
    | CallRenew(pod: string)
    | CallRelease(pod: string)
    | Get(pod: string)
    | Stamp(pod: string)
    | Write(pod: string, answered: bool)
    | GiveUp(pod: string)
    | Restart(pod: string, duration: int)
    | Land(write: Late)

  /** The API server's compare and swap: a create of what is not there, or an
      update of exactly the version that was read. */
  predicate Swaps(current: Option<Record>, seen: Option<Record>) {
    if seen.None? then current.None? else current.Some? && current.value.version == seen.value.version
  }

  function SetPod(s: State, p: string, pod: Pod): State { s.(pods := s.pods[p := pod]) }

  /** The lease takes a write, under a new version. */
  function Stored(s: State, l: Record): State {
    s.(lease := Some(l.(version := s.next)), next := s.next + 1)
  }

  /** What a call given up leaves on its way. */
  function Pending(p: string, pod: Pod): set<Late> {
    match pod.phase
    case AcquireWrite(seen, put) => {Late(p, seen, put)}
    case RenewWrite(held, now) => {Late(p, Some(held), held.(renewed := Some(now)))}
    case ReleaseWrite(held) => {Late(p, Some(held), held.(holder := ""))}
    case _ => {}
  }

  function GivenUp(s: State, p: string, pod: Pod): State { s.(late := s.late + Pending(p, pod)) }

  /** A late write reaches the server; nobody hears its answer. */
  function Landed(s: State, w: Late): State {
    var t := s.(late := s.late - {w});
    if Swaps(s.lease, w.seen) then Stored(t, w.put) else t
  }

  /** A Get, and what the call does next. */
  function AfterGet(s: State, p: string, pod: Pod): Pod {
    match pod.phase
    case AcquireGet(now) =>
      var put := Acquired(s.lease, p, pod.duration, now);
      pod.(phase := if put.None? then Idle else AcquireWrite(s.lease, put.value))
    case RenewGet =>
      pod.(phase := if s.lease.Some? && HeldBy(s.lease.value, p) then RenewStamp(s.lease.value) else Idle)
    case ReleaseGet =>
      pod.(phase := if s.lease.Some? && HeldBy(s.lease.value, p) then ReleaseWrite(s.lease.value) else Idle)
    case _ => pod
  }

  /** A write that reaches the server; its answer may be lost. */
  function AfterWrite(s: State, p: string, pod: Pod, answered: bool): State {
    var idle := pod.(phase := Idle);
    match pod.phase
    case AcquireWrite(seen, put) =>
      if !Swaps(s.lease, seen) then SetPod(s, p, idle)
      else SetPod(Stored(s, put), p, if answered then idle.(wrote := put.renewed) else idle)
    case RenewWrite(held, now) =>
      if !Swaps(s.lease, Some(held)) then SetPod(s, p, idle)
      else SetPod(Stored(s, held.(renewed := Some(now))), p, if answered && pod.wrote.Some? then idle.(wrote := Some(now)) else idle)
    case ReleaseWrite(held) =>
      if !Swaps(s.lease, Some(held)) then SetPod(s, p, idle)
      else SetPod(Stored(s, held.(holder := "")), p, idle.(wrote := None))
    case _ => s
  }

  /** One step; a step that is not enabled changes nothing. */
  function Do(s: State, step: Step): State {
    match step
    case Tick(elapsed) => s.(clock := s.clock + elapsed)
    case Land(w) => if w in s.late then Landed(s, w) else s
    case _ =>
      var p := step.pod;
      if p !in s.pods then s
      else
        var pod := s.pods[p];
        match step
        case CallAcquire(_) => if pod.phase.Idle? then SetPod(s, p, pod.(phase := AcquireGet(s.clock))) else s
        case CallRenew(_) => if pod.phase.Idle? then SetPod(s, p, pod.(phase := RenewGet)) else s
        case CallRelease(_) => if pod.phase.Idle? then SetPod(s, p, pod.(phase := ReleaseGet, wrote := None)) else s
        case Get(_) => SetPod(s, p, AfterGet(s, p, pod))
        case Stamp(_) =>
          if pod.phase.RenewStamp? then SetPod(s, p, pod.(phase := RenewWrite(pod.phase.held, s.clock))) else s
        case Write(_, answered) => AfterWrite(s, p, pod, answered)
        case GiveUp(_) => SetPod(GivenUp(s, p, pod), p, pod.(phase := Idle))
        case Restart(_, duration) => SetPod(GivenUp(s, p, pod), p, Pod(duration, Idle, None))
  }

  function Run(s: State, steps: seq<Step>): State
    decreases |steps|
  {
    if steps == [] then s else Run(Do(s, steps[0]), steps[1..])
  }

  /** The pods start knowing of no write of theirs, whatever lease is left. */
  ghost predicate Init(s: State) {
    && "" !in s.pods
    && (forall p :: p in s.pods ==> s.pods[p].phase.Idle? && s.pods[p].wrote.None?)
    && (s.lease.Some? ==> s.lease.value.version < s.next) && s.late == {}
  }

  /** A lease held by a pod that acquired it carries the pod's own duration. */
  ghost predicate OwnDuration(s: State, l: Record) {
    l.holder in s.pods && s.pods[l.holder].wrote.Some? ==> l.duration == Some(s.pods[l.holder].duration)
  }

  /** The pod's lease, by the last renew time it wrote, is still running. */
  ghost predicate InWindow(s: State, p: string) {
    p in s.pods && s.pods[p].wrote.Some? && s.clock <= s.pods[p].wrote.value + s.pods[p].duration
  }

  // ---------------------------------------------------------------------
  // Mutual exclusion
  // ---------------------------------------------------------------------

  /** A record someone read is the current one, or its version is gone. */
  ghost predicate Read(s: State, l: Record) {
    l.version < s.next && (s.lease.Some? && s.lease.value.version == l.version ==> s.lease.value == l)
  }

  /** A running lease is the server's, renewed no earlier than the pod knows. */
  ghost predicate Owns(s: State, p: string) {
    InWindow(s, p) ==>
      && s.lease.Some? && s.lease.value.holder == p && s.lease.value.renewed.Some?
      && s.pods[p].wrote.value <= s.lease.value.renewed.value
  }

  predicate MayTake(l: Record, p: string, now: int) { l.holder == p || Free(l) || Expired(l, now) }

  /** A call never goes back in time: what it will write is no older than what
      the pod wrote, and no newer than the clock. */
  ghost predicate InFlight(s: State, p: string, pod: Pod) {
    && (pod.wrote.Some? ==> pod.wrote.value <= s.clock)
    && match pod.phase
       case AcquireGet(now) => now <= s.clock && (pod.wrote.Some? ==> pod.wrote.value <= now)
       case AcquireWrite(seen, put) =>
         && put.renewed.Some? && put.renewed.value <= s.clock && (pod.wrote.Some? ==> pod.wrote.value <= put.renewed.value)
         && put.holder == p && put.duration == Some(pod.duration)
         && (seen.Some? ==> Read(s, seen.value) && MayTake(seen.value, p, put.renewed.value))
       case RenewStamp(held) =>
         Read(s, held) && held.holder == p && (pod.wrote.Some? ==> held.duration == Some(pod.duration))
       case RenewWrite(held, now) =>
         && Read(s, held) && held.holder == p && now <= s.clock
         && (pod.wrote.Some? ==> pod.wrote.value <= now && held.duration == Some(pod.duration))
       case ReleaseGet => pod.wrote.None?
       case ReleaseWrite(held) => Read(s, held) && held.holder == p && pod.wrote.None?
       case _ => true
  }

  /** A late write that would still be taken takes nothing from anybody, and nothing
      from its own pod that the pod counts on. */
  ghost predicate LateOk(s: State, w: Late) {
    && w.pod in s.pods && (w.put.holder == w.pod || w.put.holder == "")
    && (w.seen.Some? ==> Read(s, w.seen.value) && MayTake(w.seen.value, w.pod, s.clock))
    && (Swaps(s.lease, w.seen) ==> Backs(w.put, s.pods[w.pod]))
  }

  /** The record is no worse than what the pod counts on. */
  predicate Backs(l: Record, pod: Pod) {
    pod.wrote.Some? ==>
      l.holder != "" && l.duration == Some(pod.duration) && l.renewed.Some? && pod.wrote.value <= l.renewed.value
  }

  ghost predicate Inv(s: State) {
    && "" !in s.pods && (forall w :: w in s.late ==> LateOk(s, w))
    && (s.lease.None? ==> forall p :: p in s.pods ==> s.pods[p].wrote.None?)
    && (s.lease.Some? ==> s.lease.value.version < s.next && OwnDuration(s, s.lease.value))
    && (forall p :: p in s.pods ==> InFlight(s, p, s.pods[p]) && Owns(s, p))
  }

  /** A pod whose write is about to be applied takes the lease from nobody who
      is still inside a window. */
  lemma TakesFromNobody(s: State, p: string, seen: Option<Record>, now: int, q: string)
    requires Inv(s) && q in s.pods && q != p && now <= s.clock && Swaps(s.lease, seen)
    requires seen.Some? ==> Read(s, seen.value) && MayTake(seen.value, p, now)
    ensures !InWindow(s, q)
  {
  }

  /** A change of one pod's own fields that keeps its duration and what it wrote, or
      forgets that, and leaves its call consistent. */
  lemma LocalKeeps(s: State, p: string, pod: Pod)
    requires Inv(s) && p in s.pods
    requires (pod.wrote == s.pods[p].wrote && pod.duration == s.pods[p].duration) || pod.wrote.None?
    requires InFlight(s, p, pod)
    ensures Inv(SetPod(s, p, pod))
  {
  }

  /** An applied write of p's, when no other pod is inside a window. */
  lemma StoreKeeps(s: State, p: string, l: Record, pod: Pod)
    requires Inv(s) && p in s.pods && (pod.phase.Idle? || pod == s.pods[p])
    requires forall q :: q in s.pods && q != p ==> !InWindow(s, q)
    requires (l.holder == p || l.holder == "") && Backs(l, pod) && (pod.wrote.Some? ==> pod.wrote.value <= s.clock)
    ensures Inv(SetPod(Stored(s, l), p, pod))
  {
    var t := SetPod(Stored(s, l), p, pod);
    forall w | w in t.late ensures LateOk(t, w) { assert LateOk(s, w); }
    forall q | q in t.pods ensures InFlight(t, q, t.pods[q]) && Owns(t, q) { assert InFlight(s, q, s.pods[q]) && Owns(s, q); }
  }

  /** Fewer late writes, or more that take nothing. */
  lemma LateKeeps(s: State, late: set<Late>)
    requires Inv(s) && forall w :: w in late ==> w in s.late || LateOk(s, w)
    ensures Inv(s.(late := late))
  {
    var t := s.(late := late);
    forall w | w in t.late ensures LateOk(t, w) { assert LateOk(s, w); }
    forall q | q in t.pods ensures InFlight(t, q, t.pods[q]) && Owns(t, q) { assert InFlight(s, q, s.pods[q]) && Owns(s, q); }
  }

  lemma PendingOk(s: State, p: string)
    requires Inv(s) && p in s.pods
    ensures forall w :: w in Pending(p, s.pods[p]) ==> LateOk(s, w)
  {
    assert InFlight(s, p, s.pods[p]);
  }

  lemma LandKeeps(s: State, w: Late)
    requires Inv(s) && w in s.late
    ensures Inv(Landed(s, w))
  {
    assert LateOk(s, w);
    var t := s.(late := s.late - {w});
    LateKeeps(s, s.late - {w});
    if Swaps(s.lease, w.seen) {
      var p := w.pod;
      forall q | q in t.pods && q != p ensures !InWindow(t, q) { TakesFromNobody(t, p, w.seen, s.clock, q); }
      assert InFlight(s, p, s.pods[p]);
      StoreKeeps(t, p, w.put, t.pods[p]);
      assert SetPod(Stored(t, w.put), p, t.pods[p]) == Stored(t, w.put);
    }
  }

  lemma WriteKeeps(s: State, p: string, answered: bool)
    requires Inv(s) && p in s.pods
    ensures Inv(AfterWrite(s, p, s.pods[p], answered))
  {
    hide Inv;
    var pod := s.pods[p];
    InvPod(s, p);
    var seen := match pod.phase
      case AcquireWrite(seen, _) => seen
      case RenewWrite(held, _) => Some(held)
      case ReleaseWrite(held) => Some(held)
      case _ => None;
    if pod.phase.AcquireWrite? || pod.phase.RenewWrite? || pod.phase.ReleaseWrite? {
      if !Swaps(s.lease, seen) {
        LocalKeeps(s, p, pod.(phase := Idle));
      } else {
        var now := if pod.phase.AcquireWrite? then pod.phase.put.renewed.value else s.clock;
        forall q | q in s.pods && q != p ensures !InWindow(s, q) { TakesFromNobody(s, p, seen, now, q); }
        match pod.phase
        case AcquireWrite(_, put) =>
          StoreKeeps(s, p, put, pod.(phase := Idle, wrote := if answered then put.renewed else pod.wrote));
        case RenewWrite(held, now) =>
          StoreKeeps(s, p, held.(renewed := Some(now)), pod.(phase := Idle, wrote := if answered && pod.wrote.Some? then Some(now) else pod.wrote));
        case ReleaseWrite(held) =>
          StoreKeeps(s, p, held.(holder := ""), pod.(phase := Idle, wrote := None));
      }
    }
  }

  lemma InvPod(s: State, p: string)
    requires Inv(s) && p in s.pods
    ensures InFlight(s, p, s.pods[p]) && "" !in s.pods
    ensures s.lease.Some? ==> OwnDuration(s, s.lease.value) && Read(s, s.lease.value)
  {
  }

  lemma StepKeeps(s: State, step: Step)
    requires Inv(s)
    ensures Inv(Do(s, step))
  {
    if step.Tick? {
      TickKeeps(s, step.elapsed);
    } else if step.Land? {
      if step.write in s.late { LandKeeps(s, step.write); }
    } else if step.pod in s.pods {
      hide Inv;
      var p := step.pod;
      var pod := s.pods[p];
      InvPod(s, p);
      match step
      case CallAcquire(_) => LocalKeeps(s, p, if pod.phase.Idle? then pod.(phase := AcquireGet(s.clock)) else pod);
      case CallRenew(_) => LocalKeeps(s, p, if pod.phase.Idle? then pod.(phase := RenewGet) else pod);
      case CallRelease(_) => LocalKeeps(s, p, if pod.phase.Idle? then pod.(phase := ReleaseGet, wrote := None) else pod);
      case Get(_) => LocalKeeps(s, p, AfterGet(s, p, pod));
      case Stamp(_) => if pod.phase.RenewStamp? { LocalKeeps(s, p, pod.(phase := RenewWrite(pod.phase.held, s.clock))); }
      case Write(_, answered) => WriteKeeps(s, p, answered);
      case GiveUp(_) => GiveUpKeeps(s, p, pod.(phase := Idle));
      case Restart(_, duration) => GiveUpKeeps(s, p, Pod(duration, Idle, None));
    }
  }

  lemma GiveUpKeeps(s: State, p: string, pod: Pod)
    requires Inv(s) && p in s.pods && pod.phase.Idle?
    requires (pod.wrote == s.pods[p].wrote && pod.duration == s.pods[p].duration) || pod.wrote.None?
    ensures Inv(SetPod(GivenUp(s, p, s.pods[p]), p, pod))
  {
    hide Inv, InFlight;
    PendingOk(s, p);
    LateKeeps(s, s.late + Pending(p, s.pods[p]));
    InvPod(s, p);
    var t := GivenUp(s, p, s.pods[p]);
    WroteBefore(s, t, p, pod);
    LocalKeeps(t, p, pod);
  }

  lemma WroteBefore(s: State, t: State, p: string, pod: Pod)
    requires p in s.pods && InFlight(s, p, s.pods[p]) && t.clock == s.clock && pod.phase.Idle?
    requires pod.wrote == s.pods[p].wrote || pod.wrote.None?
    ensures InFlight(t, p, pod)
  {
  }

  lemma TickKeeps(s: State, elapsed: nat)
    requires Inv(s)
    ensures Inv(s.(clock := s.clock + elapsed))
  {
  }

  lemma {:induction false} RunKeeps(s: State, steps: seq<Step>)
    requires Inv(s)
    ensures Inv(Run(s, steps))
    decreases |steps|
  {
    if steps != [] {
      StepKeeps(s, steps[0]);
      RunKeeps(Do(s, steps[0]), steps[1..]);
    }
  }

  /** Mutual exclusion: in every run no two pods are inside the validity window
      of a lease they have not begun to release, whatever writes are lost, land late
      or are never answered, and whatever each pod's duration. */
  lemma MutualExclusion(s: State, steps: seq<Step>, p: string, q: string)
    requires Init(s)
    ensures var r := Run(s, steps); InWindow(r, p) && InWindow(r, q) ==> p == q
  {
    RunKeeps(s, steps);
    var r := Run(s, steps);
    if InWindow(r, p) && InWindow(r, q) {
      assert Owns(r, p) && Owns(r, q);
    }
  }

  /** While a pod is inside its window, every pod that asks is told it is the
      holder, and an acquire of another pod's is refused. */
  lemma HolderIsTold(s: State, steps: seq<Step>, p: string, q: string, duration: int)
    requires Init(s) && InWindow(Run(s, steps), p) && q != p
    ensures var r := Run(s, steps);
      Holder(r.lease, r.clock) == p && Acquired(r.lease, q, duration, r.clock) == None
  {
    RunKeeps(s, steps);
    var r := Run(s, steps);
    assert Owns(r, p) && OwnDuration(r, r.lease.value);
  }

  // ---------------------------------------------------------------------
  // Calls no other write comes between
  // ---------------------------------------------------------------------

  /** A step that is none of p's and writes nothing: time passing, or other pods' calls
      beginning, reading and being given up. */
  predicate Quiet(step: Step, p: string) {
    match step
    case Tick(_) => true
    case Land(_) => false
    case Write(_, _) => false
    case _ => step.pod != p
  }

  ghost predicate AllQuiet(steps: seq<Step>, p: string) { forall step :: step in steps ==> Quiet(step, p) }

  function Elapsed(steps: seq<Step>): nat {
    if steps == [] then 0 else (if steps[0].Tick? then steps[0].elapsed else 0) + Elapsed(steps[1..])
  }

  function Acquiring(p: string, a: seq<Step>, b: seq<Step>, answered: bool): seq<Step> {
    [CallAcquire(p)] + (a + ([Get(p)] + (b + [Write(p, answered)])))
  }

  function Renewing(p: string, a: seq<Step>, b: seq<Step>, c: seq<Step>, answered: bool): seq<Step> {
    [CallRenew(p)] + (a + ([Get(p)] + (b + ([Stamp(p)] + (c + [Write(p, answered)])))))
  }

  function Releasing(p: string, a: seq<Step>, b: seq<Step>, answered: bool): seq<Step> {
    [CallRelease(p)] + (a + ([Get(p)] + (b + [Write(p, answered)])))
  }

  lemma {:induction false} QuietRun(s: State, steps: seq<Step>, p: string)
    requires AllQuiet(steps, p)
    ensures var r := Run(s, steps);
      && r.lease == s.lease && r.next == s.next && r.clock == s.clock + Elapsed(steps)
      && (p in r.pods <==> p in s.pods) && (p in s.pods ==> r.pods[p] == s.pods[p])
    decreases |steps|
  {
    if steps != [] {
      assert Quiet(steps[0], p);
      QuietRun(Do(s, steps[0]), steps[1..], p);
    }
  }

  lemma {:induction false} RunAppend(s: State, a: seq<Step>, b: seq<Step>)
    ensures Run(s, a + b) == Run(Run(s, a), b)
    decreases |a|
  {
    hide Do;
    if a == [] {
      assert a + b == b;
    } else {
      assert (a + b)[1..] == a[1..] + b;
      RunAppend(Do(s, a[0]), a[1..], b);
    }
  }

  /** A step, then quiet ones, then the rest. */
  lemma StepThenQuiet(s: State, step: Step, quiet: seq<Step>, rest: seq<Step>, p: string) returns (t: State)
    requires AllQuiet(quiet, p)
    ensures Run(s, [step] + (quiet + rest)) == Run(t, rest)
    ensures var d := Do(s, step);
      && t.lease == d.lease && t.next == d.next && t.clock == d.clock + Elapsed(quiet)
      && (p in t.pods <==> p in d.pods) && (p in d.pods ==> t.pods[p] == d.pods[p])
  {
    hide Do;
    var d := Do(s, step);
    assert ([step] + (quiet + rest))[1..] == quiet + rest;
    RunAppend(d, quiet, rest);
    QuietRun(d, quiet, p);
    t := Run(d, quiet);
  }

  lemma LastStep(s: State, step: Step)
    ensures Run(s, [step]) == Do(s, step)
  {
    assert [step][1..] == [];
    assert Run(Do(s, step), []) == Do(s, step);
  }

  /** What an acquire no write comes between leaves: a lease that is its own, free,
      expired or not there becomes its own, from the time of the call and for its own
      duration, acquired then unless it had it already; any other stays. */
  lemma AcquireIs(s: State, p: string, a: seq<Step>, b: seq<Step>, answered: bool)
    requires p in s.pods && s.pods[p].phase.Idle? && AllQuiet(a, p) && AllQuiet(b, p)
    ensures var r := Run(s, Acquiring(p, a, b, answered)); var l := s.lease; var pod := s.pods[p];
      && r.clock == s.clock + Elapsed(a) + Elapsed(b)
      && p in r.pods && r.pods[p].phase.Idle? && r.pods[p].duration == pod.duration
      && if l.None? || HeldBy(l.value, p) || Free(l.value) || Expired(l.value, s.clock) then
           && r.lease.Some? && r.lease.value.holder == p && r.lease.value.duration == Some(pod.duration)
           && r.lease.value.renewed == Some(s.clock)
           && r.lease.value.acquired == (if l.Some? && HeldBy(l.value, p) then l.value.acquired else Some(s.clock))
           && r.pods[p].wrote == if answered then Some(s.clock) else pod.wrote
         else r.lease == l && r.pods[p] == pod
  {
    var last := Write(p, answered);
    var s1 := StepThenQuiet(s, CallAcquire(p), a, [Get(p)] + (b + [last]), p);
    var s2 := StepThenQuiet(s1, Get(p), b, [last], p);
    LastStep(s2, last);
  }

  /** A renew no write comes between, of the pod that holds the lease: it keeps it, from
      the time of its stamp, and whoever else asks is refused exactly until the lease's
      duration from then is over. */
  lemma RenewIs(s: State, p: string, a: seq<Step>, b: seq<Step>, c: seq<Step>, answered: bool)
    requires p in s.pods && s.pods[p].phase.Idle? && AllQuiet(a, p) && AllQuiet(b, p) && AllQuiet(c, p)
    requires s.lease.Some? && HeldBy(s.lease.value, p)
    ensures var r := Run(s, Renewing(p, a, b, c, answered)); var l := s.lease.value; var pod := s.pods[p];
      var stamped := s.clock + Elapsed(a) + Elapsed(b);
      && r.clock == stamped + Elapsed(c) && p in r.pods
      && r.pods[p] == pod.(wrote := if answered && pod.wrote.Some? then Some(stamped) else pod.wrote)
      && r.lease == Some(Record(p, l.duration, l.acquired, Some(stamped), s.next))
      && (forall q, duration, now :: q != p ==>
            (Acquired(r.lease, q, duration, now).None? <==> l.duration.Some? && now <= stamped + l.duration.value))
  {
    hide Do, Run, Quiet, AllQuiet, Elapsed;
    var last := Write(p, answered);
    var s1 := StepThenQuiet(s, CallRenew(p), a, [Get(p)] + (b + ([Stamp(p)] + (c + [last]))), p);
    RenewCalled(s, p);
    var s2 := StepThenQuiet(s1, Get(p), b, [Stamp(p)] + (c + [last]), p);
    RenewRead(s1, p);
    var s3 := StepThenQuiet(s2, Stamp(p), c, [last], p);
    RenewStamped(s2, p);
    LastStep(s3, last);
    RenewWritten(s3, p, answered);
  }

  lemma RenewCalled(s: State, p: string)
    requires p in s.pods && s.pods[p].phase.Idle?
    ensures Do(s, CallRenew(p)) == SetPod(s, p, s.pods[p].(phase := RenewGet))
  {
  }

  lemma RenewRead(s: State, p: string)
    requires p in s.pods && s.pods[p].phase.RenewGet? && s.lease.Some? && HeldBy(s.lease.value, p)
    ensures Do(s, Get(p)) == SetPod(s, p, s.pods[p].(phase := RenewStamp(s.lease.value)))
  {
  }

  lemma RenewStamped(s: State, p: string)
    requires p in s.pods && s.pods[p].phase.RenewStamp?
    ensures Do(s, Stamp(p)) == SetPod(s, p, s.pods[p].(phase := RenewWrite(s.pods[p].phase.held, s.clock)))
  {
  }

  lemma RenewWritten(s: State, p: string, answered: bool)
    requires p in s.pods && s.pods[p].phase.RenewWrite? && s.lease == Some(s.pods[p].phase.held)
    ensures var r := Do(s, Write(p, answered)); var pod := s.pods[p];
      && r.lease == Some(pod.phase.held.(renewed := Some(pod.phase.now), version := s.next)) && r.clock == s.clock
      && p in r.pods
      && r.pods[p] == pod.(phase := Idle, wrote := if answered && pod.wrote.Some? then Some(pod.phase.now) else pod.wrote)
  {
  }

  /** A pod that acquired the lease is inside its window until one duration after the
      stamp of such a renew, and not after. */
  lemma RenewedWindow(s: State, p: string, a: seq<Step>, b: seq<Step>, c: seq<Step>, elapsed: nat)
    requires p in s.pods && s.pods[p].phase.Idle? && AllQuiet(a, p) && AllQuiet(b, p) && AllQuiet(c, p)
    requires s.lease.Some? && HeldBy(s.lease.value, p) && s.pods[p].wrote.Some?
    ensures var steps := Renewing(p, a, b, c, true); var stamped := s.clock + Elapsed(a) + Elapsed(b);
      InWindow(Run(s, steps + [Tick(elapsed)]), p) <==> stamped + Elapsed(c) + elapsed <= stamped + s.pods[p].duration
  {
    hide Do, Renewing;
    RenewIs(s, p, a, b, c, true);
    var steps := Renewing(p, a, b, c, true);
    RunAppend(s, steps, [Tick(elapsed)]);
    Ticks(Run(s, steps), elapsed);
  }

  lemma Ticks(s: State, elapsed: nat)
    ensures Run(s, [Tick(elapsed)]) == s.(clock := s.clock + elapsed)
  {
    LastStep(s, Tick(elapsed));
  }

  /** A release no write comes between, of the pod that holds the lease, leaves it free. */
  lemma ReleaseIs(s: State, p: string, a: seq<Step>, b: seq<Step>, answered: bool)
    requires p in s.pods && s.pods[p].phase.Idle? && AllQuiet(a, p) && AllQuiet(b, p)
    requires s.lease.Some? && HeldBy(s.lease.value, p)
    ensures var r := Run(s, Releasing(p, a, b, answered)); var l := s.lease.value;
      && r.clock == s.clock + Elapsed(a) + Elapsed(b)
      && r.lease == Some(Record("", l.duration, l.acquired, l.renewed, s.next))
      && p in r.pods && r.pods[p] == s.pods[p].(wrote := None)
  {
    var last := Write(p, answered);
    var s1 := StepThenQuiet(s, CallRelease(p), a, [Get(p)] + (b + [last]), p);
    var s2 := StepThenQuiet(s1, Get(p), b, [last], p);
    LastStep(s2, last);
  }

  /** So the next pod need not wait: right after, another's acquire takes it. */
  lemma ReleasedIsTaken(s: State, p: string, q: string, a: seq<Step>, b: seq<Step>, answered: bool)
    requires p in s.pods && s.pods[p].phase.Idle? && q in s.pods && s.pods[q].phase.Idle? && q != p
    requires AllQuiet(a, p) && AllQuiet(b, p) && AllQuiet(a, q) && AllQuiet(b, q)
    requires s.lease.Some? && HeldBy(s.lease.value, p)
    ensures var r := Run(s, Releasing(p, a, b, answered) + Acquiring(q, [], [], true));
      && r.lease.Some? && r.lease.value.holder == q && r.lease.value.duration == Some(s.pods[q].duration)
      && r.lease.value.renewed == Some(s.clock + Elapsed(a) + Elapsed(b)) == r.lease.value.acquired
      && q in r.pods && r.pods[q].wrote == r.lease.value.renewed
  {
    hide *;
    var steps := Releasing(p, a, b, answered);
    ReleaseIs(s, p, a, b, answered);
    ReleaseIsQuiet(s, p, q, a, b, answered);
    RunAppend(s, steps, Acquiring(q, [], [], true));
    FreeIs(Run(s, steps).lease.value, q);
    AcquireIs(Run(s, steps), q, [], [], true);
  }

  lemma FreeIs(l: Record, q: string)
    requires l.holder == ""
    ensures Free(l) && !HeldBy(l, q) && AllQuiet([], q)
  {
  }

  /** A release of p's leaves q as it was. */
  lemma ReleaseIsQuiet(s: State, p: string, q: string, a: seq<Step>, b: seq<Step>, answered: bool)
    requires q in s.pods && q != p && AllQuiet(a, q) && AllQuiet(b, q)
    ensures var r := Run(s, Releasing(p, a, b, answered)); q in r.pods && r.pods[q] == s.pods[q]
  {
    var last := Write(p, answered);
    var s1 := StepThenQuiet(s, CallRelease(p), a, [Get(p)] + (b + [last]), q);
    var s2 := StepThenQuiet(s1, Get(p), b, [last], q);
    LastStep(s2, last);
  }

  lemma NoRenew(s: State, p: string, a: seq<Step>, b: seq<Step>, c: seq<Step>, answered: bool)
    requires p in s.pods && s.pods[p].phase.Idle? && AllQuiet(a, p) && AllQuiet(b, p) && AllQuiet(c, p)
    requires s.lease.None? || !HeldBy(s.lease.value, p)
    ensures var r := Run(s, Renewing(p, a, b, c, answered)); r.lease == s.lease && p in r.pods && r.pods[p] == s.pods[p]
  {
    hide AllQuiet, Elapsed, Run;
    var last := Write(p, answered);
    var s1 := StepThenQuiet(s, CallRenew(p), a, [Get(p)] + (b + ([Stamp(p)] + (c + [last]))), p);
    var s2 := StepThenQuiet(s1, Get(p), b, [Stamp(p)] + (c + [last]), p);
    var s3 := StepThenQuiet(s2, Stamp(p), c, [last], p);
    LastStep(s3, last);
  }

  lemma NoRelease(s: State, p: string, a: seq<Step>, b: seq<Step>, answered: bool)
    requires p in s.pods && s.pods[p].phase.Idle? && AllQuiet(a, p) && AllQuiet(b, p)
    requires s.lease.None? || !HeldBy(s.lease.value, p)
    ensures var r := Run(s, Releasing(p, a, b, answered)); r.lease == s.lease && p in r.pods && r.pods[p] == s.pods[p].(wrote := None)
  {
    hide AllQuiet, Elapsed, Run;
    var last := Write(p, answered);
    var t1 := StepThenQuiet(s, CallRelease(p), a, [Get(p)] + (b + [last]), p);
    var t2 := StepThenQuiet(t1, Get(p), b, [last], p);
    LastStep(t2, last);
  }

  /** A pod that does not hold the lease renews and releases nothing. */
  lemma NotTheHolder(s: State, p: string, a: seq<Step>, b: seq<Step>, c: seq<Step>, answered: bool)
    requires p in s.pods && s.pods[p].phase.Idle? && AllQuiet(a, p) && AllQuiet(b, p) && AllQuiet(c, p)
    requires s.lease.None? || !HeldBy(s.lease.value, p)
    ensures var r := Run(s, Renewing(p, a, b, c, answered)); r.lease == s.lease && p in r.pods && r.pods[p] == s.pods[p]
    ensures var r := Run(s, Releasing(p, a, b, answered)); r.lease == s.lease && p in r.pods && r.pods[p] == s.pods[p].(wrote := None)
  {
    hide *;
    NoRenew(s, p, a, b, c, answered);
    NoRelease(s, p, a, b, answered);
  }

  /** A dead holder is replaceable: once the lease is free or expired, an acquire no
      write comes between takes it, for one duration from the call. */
  lemma Replaceable(s: State, p: string, a: seq<Step>, b: seq<Step>)
    requires p in s.pods && s.pods[p].phase.Idle? && AllQuiet(a, p) && AllQuiet(b, p)
    requires s.lease.None? || Free(s.lease.value) || Expired(s.lease.value, s.clock)
    ensures var r := Run(s, Acquiring(p, a, b, true));
      && (InWindow(r, p) <==> Elapsed(a) + Elapsed(b) <= s.pods[p].duration)
      && (InWindow(r, p) && p != "" ==> Holder(r.lease, r.clock) == p)
  {
    hide Do, Acquiring;
    AcquireIs(s, p, a, b, true);
  }
}
