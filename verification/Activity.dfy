/** The two-window activity meter of a proxied connection (pkg/proxy/tcp.go). */
module Activity {
  import opened Options

  /** streamIdle in nanoseconds, and streamBytes. */
  const STREAM_IDLE: int := 15_000_000_000
  const STREAM_BYTES: int := 32 * 1024

  /** A meter's fields; no window has started before the first byte. */
  datatype State = State(windowStart: Option<int>, window: int, previous: int)

  const FRESH := State(None, 0, 0)

  function Added(s: State, n: nat, now: int): State {
    var t := if s.windowStart.None? || now - s.windowStart.value >= STREAM_IDLE
             then State(Some(now), 0, s.window) else s;
    t.(window := t.window + n)
  }

  predicate IsStreaming(s: State, now: int) {
    if s.windowStart.None? then false
    else
      var age := now - s.windowStart.value;
      if age < STREAM_IDLE then s.window + s.previous >= STREAM_BYTES
      else if age < 2 * STREAM_IDLE then s.window >= STREAM_BYTES
      else false
  }

  class Meter {
    var windowStart: Option<int>
    var window: int
    var previous: int

    function St(): State
      reads this
    {
      State(windowStart, window, previous)
    }

    constructor ()
      ensures St() == FRESH
    {
      windowStart, window, previous := None, 0, 0;
    }

    /** Bytes delivered towards the client. */
    method Add(n: nat, now: int)
      modifies this
      ensures St() == Added(old(St()), n, now)
    {
      if windowStart.None? || now - windowStart.value >= STREAM_IDLE {
        previous, window, windowStart := window, 0, Some(now);
      }
      window := window + n;
    }

    method Streaming(now: int) returns (yes: bool)
      ensures yes == IsStreaming(St(), now)
    {
      if windowStart.None? {
        return false;
      }
      var age := now - windowStart.value;
      if age < STREAM_IDLE {
        return window + previous >= STREAM_BYTES;
      } else if age < 2 * STREAM_IDLE {
        return window >= STREAM_BYTES;
      }
      return false;
    }
  }

  // ---------------------------------------------------------------------
  // A connection's history
  // ---------------------------------------------------------------------

  datatype Delivery = Delivery(at: int, n: nat)

  ghost predicate InTime(ds: seq<Delivery>) { forall i, j :: 0 <= i < j < |ds| ==> ds[i].at <= ds[j].at }

  function After(ds: seq<Delivery>): State {
    if ds == [] then FRESH else Added(After(ds[..|ds| - 1]), ds[|ds| - 1].n, ds[|ds| - 1].at)
  }

  /** The bytes delivered from a to b. */
  function Moved(ds: seq<Delivery>, a: int, b: int): nat {
    if ds == [] then 0
    else
      var last := ds[|ds| - 1];
      Moved(ds[..|ds| - 1], a, b) + if a <= last.at <= b then last.n else 0
  }

  /** When the current window started and when the one before it did, by the
      deliveries alone. */
  datatype Starts = Starts(before: Option<int>, current: Option<int>)

  function StartsOf(ds: seq<Delivery>): Starts {
    if ds == [] then Starts(None, None)
    else
      var s, at := StartsOf(ds[..|ds| - 1]), ds[|ds| - 1].at;
      if s.current.None? || at - s.current.value >= STREAM_IDLE then Starts(s.current, Some(at)) else s
  }

  lemma {:induction false} MovedWider(ds: seq<Delivery>, a: int, b: int, c: int, d: int)
    requires c <= a && b <= d
    ensures Moved(ds, a, b) <= Moved(ds, c, d)
  {
    if ds != [] {
      MovedWider(ds[..|ds| - 1], a, b, c, d);
    }
  }

  lemma {:induction false} MovedSplit(ds: seq<Delivery>, a: int, b: int, c: int)
    requires a <= b <= c + 1
    ensures Moved(ds, a, c) == Moved(ds, a, b - 1) + Moved(ds, b, c)
  {
    if ds != [] {
      MovedSplit(ds[..|ds| - 1], a, b, c);
    }
  }

  /** Nothing is counted outside the times of the deliveries. */
  lemma {:induction false} MovedBetween(ds: seq<Delivery>, a: int, b: int, c: int, d: int)
    requires forall i :: 0 <= i < |ds| && a <= ds[i].at <= b ==> c <= ds[i].at <= d
    ensures Moved(ds, a, b) <= Moved(ds, c, d)
  {
    if ds != [] {
      var n := |ds| - 1;
      assert forall i :: 0 <= i < n ==> ds[..n][i] == ds[i];
      MovedBetween(ds[..n], a, b, c, d);
    }
  }

  /** The fields are what the history says: the start of the window, the bytes
      since, and the bytes of the window before. */
  ghost predicate Recorded(ds: seq<Delivery>) {
    var s, t := After(ds), StartsOf(ds);
    && s.windowStart == t.current
    && (ds == [] <==> t.current.None?)
    && (t.before.Some? ==> t.current.Some? && t.before.value + STREAM_IDLE <= t.current.value)
    && (t.current.None? ==> s == FRESH && t.before.None?)
    && (t.current.Some? ==>
          var last := ds[|ds| - 1].at;
          && t.current.value <= last < t.current.value + STREAM_IDLE
          && s.window == Moved(ds, t.current.value, last)
          && s.previous == (if t.before.None? then 0 else Moved(ds, t.before.value, t.current.value - 1))
          && (t.before.None? ==> forall i :: 0 <= i < |ds| ==> t.current.value <= ds[i].at))
  }

  lemma {:induction false} HistoryIsRecorded(ds: seq<Delivery>)
    requires InTime(ds)
    ensures Recorded(ds)
  {
    if ds != [] {
      var n := |ds| - 1;
      var was := ds[..n];
      HistoryIsRecorded(was);
      var t, at := StartsOf(was), ds[n].at;
      if t.current.Some? {
        var last := was[n - 1].at;
        var start := t.current.value;
        assert forall i :: 0 <= i < n ==> was[i].at <= last;
        MovedTo(was, start, last, at);
        if t.before.Some? { MovedTo(was, t.before.value, start - 1, start - 1); }
        if at - start >= STREAM_IDLE { MovedTo(was, start, last, at - 1); MovedNone(was, at, at); }
      }
    }
  }

  /** The end of a range may move where no delivery is. */
  lemma MovedTo(ds: seq<Delivery>, a: int, b: int, c: int)
    requires forall i :: 0 <= i < |ds| && a <= ds[i].at ==> (ds[i].at <= b <==> ds[i].at <= c)
    ensures Moved(ds, a, b) == Moved(ds, a, c)
  {
  }

  lemma {:induction false} MovedNone(ds: seq<Delivery>, a: int, b: int)
    requires forall i :: 0 <= i < |ds| ==> !(a <= ds[i].at <= b)
    ensures Moved(ds, a, b) == 0
  {
    if ds != [] {
      var n := |ds| - 1;
      assert forall i :: 0 <= i < n ==> ds[..n][i] == ds[i];
      MovedNone(ds[..n], a, b);
    }
  }

  // ---------------------------------------------------------------------
  // What the meter reports
  // ---------------------------------------------------------------------

  ghost predicate Until(ds: seq<Delivery>, now: int) { InTime(ds) && (ds != [] ==> ds[|ds| - 1].at <= now) }

  /** The meter never misses a stream: a connection that moved streamBytes in the
      last streamIdle is reported. */
  lemma NeverMisses(ds: seq<Delivery>, now: int)
    requires Until(ds, now) && Moved(ds, now - STREAM_IDLE, now) >= STREAM_BYTES
    ensures IsStreaming(After(ds), now)
  {
    HistoryIsRecorded(ds);
    var t := StartsOf(ds);
    if t.current.Some? {
      var start, last := t.current.value, ds[|ds| - 1].at;
      assert forall i :: 0 <= i < |ds| ==> ds[i].at <= last;
      MovedTo(ds, start, last, now);
      if now - start < STREAM_IDLE {
        if t.before.Some? {
          MovedSplit(ds, t.before.value, start, now);
          MovedWider(ds, now - STREAM_IDLE, now, t.before.value, now);
        } else {
          MovedBetween(ds, now - STREAM_IDLE, now, start, now);
        }
      } else if now - start < 2 * STREAM_IDLE {
        MovedWider(ds, now - STREAM_IDLE, now, start, now);
      } else {
        MovedNone(ds, now - STREAM_IDLE, now);
      }
    }
  }

  /** A connection that moved nothing for twice streamIdle is not reported. */
  lemma QuietIsNotReported(ds: seq<Delivery>, now: int)
    requires Until(ds, now)
    requires forall i :: 0 <= i < |ds| ==> ds[i].at <= now - 2 * STREAM_IDLE
    ensures !IsStreaming(After(ds), now)
  {
    HistoryIsRecorded(ds);
  }

  /** What a report means exactly: the bytes since the start of the window before
      the current one, or of the current one once it is a streamIdle old. */
  lemma ReportMeans(ds: seq<Delivery>, now: int)
    requires Until(ds, now) && ds != []
    ensures var t := StartsOf(ds);
      && t.current.Some?
      && IsStreaming(After(ds), now) ==
         if now - t.current.value < STREAM_IDLE
         then Moved(ds, if t.before.Some? then t.before.value else t.current.value, now) >= STREAM_BYTES
         else now - t.current.value < 2 * STREAM_IDLE && Moved(ds, t.current.value, now) >= STREAM_BYTES
  {
    HistoryIsRecorded(ds);
    var t := StartsOf(ds);
    var last := ds[|ds| - 1].at;
    assert forall i :: 0 <= i < |ds| ==> ds[i].at <= last;
    MovedTo(ds, t.current.value, last, now);
    if t.before.Some? {
      MovedSplit(ds, t.before.value, t.current.value, now);
    }
  }

  // ---------------------------------------------------------------------
  // When a report is recent
  // ---------------------------------------------------------------------

  /** Since when bytes count at `now`. */
  function Since(ds: seq<Delivery>, now: int): int
    requires StartsOf(ds).current.Some?
  {
    var t := StartsOf(ds);
    if now - t.current.value < STREAM_IDLE && t.before.Some? then t.before.value else t.current.value
  }

  /** Deliveries at the same times, of any size. */
  ghost predicate SameTimes(ds: seq<Delivery>, es: seq<Delivery>) {
    |ds| == |es| && forall i :: 0 <= i < |ds| ==> ds[i].at == es[i].at
  }

  lemma {:induction false} TimesDecide(ds: seq<Delivery>, es: seq<Delivery>)
    requires SameTimes(ds, es)
    ensures StartsOf(ds) == StartsOf(es)
  {
    if ds != [] {
      var n := |ds| - 1;
      assert forall i :: 0 <= i < n ==> ds[..n][i] == ds[i] && es[..n][i] == es[i];
      TimesDecide(ds[..n], es[..n]);
    }
  }

  /** n bytes at delivery i, and none at any other. */
  function AllAt(ds: seq<Delivery>, i: nat, n: nat): (es: seq<Delivery>)
    requires i < |ds|
    ensures |es| == |ds| && es[i] == Delivery(ds[i].at, n)
  {
    seq(|ds|, j requires 0 <= j < |ds| => Delivery(ds[j].at, if j == i then n else 0))
  }

  lemma {:induction false} MovedAt(ds: seq<Delivery>, i: nat, n: nat, a: int, b: int)
    requires i < |ds|
    ensures Moved(AllAt(ds, i, n), a, b) == if a <= ds[i].at <= b then n else 0
  {
    var es, k := AllAt(ds, i, n), |ds| - 1;
    if i == k {
      NothingMoved(es[..k], a, b);
    } else {
      assert es[..k] == AllAt(ds[..k], i, n);
      MovedAt(ds[..k], i, n, a, b);
    }
  }

  lemma {:induction false} NothingMoved(ds: seq<Delivery>, a: int, b: int)
    requires forall i :: 0 <= i < |ds| ==> ds[i].n == 0
    ensures Moved(ds, a, b) == 0
  {
    if ds != [] {
      var n := |ds| - 1;
      assert forall i :: 0 <= i < n ==> ds[..n][i] == ds[i];
      NothingMoved(ds[..n], a, b);
    }
  }

  /** Every delivery that counts is within the last `back`, or none counts. */
  ghost predicate Recent(ds: seq<Delivery>, now: int, back: int)
    requires StartsOf(ds).current.Some?
  {
    || now - StartsOf(ds).current.value >= 2 * STREAM_IDLE
    || forall i :: 0 <= i < |ds| && Since(ds, now) <= ds[i].at ==> now - back <= ds[i].at
  }

  /** Exactly when a report says something about the last `back`: whatever was
      delivered at these times, a reported connection moved streamBytes in it. */
  lemma ReportIsRecentExactly(ds: seq<Delivery>, now: int, back: int)
    requires Until(ds, now) && ds != []
    ensures StartsOf(ds).current.Some?
    ensures Recent(ds, now, back) <==>
      forall es :: SameTimes(ds, es) && IsStreaming(After(es), now) ==> Moved(es, now - back, now) >= STREAM_BYTES
  {
    ReportMeans(ds, now);
    if Recent(ds, now, back) {
      forall es | SameTimes(ds, es) && IsStreaming(After(es), now) ensures Moved(es, now - back, now) >= STREAM_BYTES {
        RecentIs(ds, es, now, back);
      }
    } else {
      var i :| 0 <= i < |ds| && Since(ds, now) <= ds[i].at < now - back;
      StaleReport(ds, now, back, i);
    }
  }

  lemma RecentIs(ds: seq<Delivery>, es: seq<Delivery>, now: int, back: int)
    requires Until(ds, now) && ds != [] && SameTimes(ds, es) && IsStreaming(After(es), now)
    requires StartsOf(ds).current.Some? && Recent(ds, now, back)
    ensures Moved(es, now - back, now) >= STREAM_BYTES
  {
    TimesDecide(ds, es);
    ReportMeans(es, now);
    MovedBetween(es, Since(ds, now), now, now - back, now);
  }

  /** All bytes on one delivery that counts and is older. */
  lemma StaleReport(ds: seq<Delivery>, now: int, back: int, i: nat)
    requires Until(ds, now) && i < |ds| && StartsOf(ds).current.Some?
    requires now - StartsOf(ds).current.value < 2 * STREAM_IDLE && Since(ds, now) <= ds[i].at < now - back
    ensures var es := AllAt(ds, i, STREAM_BYTES);
      SameTimes(ds, es) && IsStreaming(After(es), now) && Moved(es, now - back, now) == 0
  {
    var es := AllAt(ds, i, STREAM_BYTES);
    TimesDecide(ds, es);
    ReportMeans(es, now);
    MovedAt(ds, i, STREAM_BYTES, Since(ds, now), now);
    MovedAt(ds, i, STREAM_BYTES, now - back, now);
  }

  ghost predicate NeverSilent(ds: seq<Delivery>) {
    forall i :: 0 < i < |ds| ==> ds[i].at - ds[i - 1].at < STREAM_IDLE
  }

  lemma {:induction false} WindowsAreClose(ds: seq<Delivery>)
    requires InTime(ds) && NeverSilent(ds)
    ensures var t := StartsOf(ds);
      t.before.Some? ==> t.current.Some? && t.current.value < t.before.value + 2 * STREAM_IDLE
  {
    if ds != [] {
      var n := |ds| - 1;
      forall i | 0 < i < n ensures ds[..n][i].at - ds[..n][i - 1].at < STREAM_IDLE {
        assert ds[i].at - ds[i - 1].at < STREAM_IDLE;
      }
      WindowsAreClose(ds[..n]);
      HistoryIsRecorded(ds[..n]);
    }
  }

  /** While a connection is never silent for a streamIdle, a report means it
      moved streamBytes within the last three. */
  lemma ReportIsFresh(ds: seq<Delivery>, now: int)
    requires Until(ds, now) && NeverSilent(ds) && IsStreaming(After(ds), now)
    ensures Moved(ds, now - 3 * STREAM_IDLE, now) >= STREAM_BYTES
  {
    ReportMeans(ds, now);
    WindowsAreClose(ds);
    ReportIsRecentExactly(ds, now, 3 * STREAM_IDLE);
    assert SameTimes(ds, ds);
  }

  /** The bytes of the window before count however long ago it ended: a burst and then
      silence, of a streamIdle or of an hour, and the first byte after is reported as
      a stream. */
  lemma HoweverLong(silence: int, n: nat)
    requires silence >= STREAM_IDLE
    ensures var ds := [Delivery(0, STREAM_BYTES), Delivery(silence, n)];
      && Until(ds, silence) && IsStreaming(After(ds), silence) && Moved(ds, 1, silence) == n
      && !Recent(ds, silence, silence - 1)
  {
    var ds := [Delivery(0, STREAM_BYTES), Delivery(silence, n)];
    var one := [Delivery(0, STREAM_BYTES)];
    assert ds[..1] == one && one[..0] == [];
    MovedNone(one, 1, silence);
    assert StartsOf(one) == Starts(None, Some(0));
    assert StartsOf(ds) == Starts(Some(0), Some(silence)) && Since(ds, silence) == 0;
    assert Moved(one, 0, silence) == STREAM_BYTES;
    ReportMeans(ds, silence);
    assert ds[0].at == 0;
  }
}
