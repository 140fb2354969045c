/** The sidecar reconciler (pkg/plexseed/sidecars.go): the external subtitle
    streams of a media row. */
module Sidecars {
  /** The codec, language, forced flag and extra_data of a row. */
  datatype Fields = Fields(codec: string, language: string, forced: bool, extra: string)

  /** A sidecar's row as it should be. */
  datatype Sidecar = Sidecar(url: string, fields: Fields)

  datatype Stream = Stream(id: int, url: string, fields: Fields)

  /** What is wanted of each file; of two sidecars with one url, the later. */
  function Want(rows: seq<Sidecar>): map<string, Fields> {
    if rows == [] then map[]
    else Want(rows[..|rows| - 1])[rows[|rows| - 1].url := rows[|rows| - 1].fields]
  }

  lemma {:induction false} WantIs(rows: seq<Sidecar>, i: nat)
    requires i < |rows| && forall j :: i < j < |rows| ==> rows[j].url != rows[i].url
    ensures rows[i].url in Want(rows) && Want(rows)[rows[i].url] == rows[i].fields
    decreases |rows|
  {
    if i < |rows| - 1 { WantIs(rows[..|rows| - 1], i); }
  }

  lemma {:induction false} WantOnly(rows: seq<Sidecar>, url: string)
    requires forall i :: 0 <= i < |rows| ==> rows[i].url != url
    ensures url !in Want(rows)
    decreases |rows|
  {
    if rows != [] { WantOnly(rows[..|rows| - 1], url); }
  }

  /** The wanted urls in order, each once. */
  method Order(rows: seq<Sidecar>) returns (want: map<string, Fields>, order: seq<string>)
    ensures want == Want(rows)
    ensures forall u :: u in order <==> u in want
    ensures forall i, j :: 0 <= i < j < |order| ==> order[i] != order[j]
  {
    want, order := map[], [];
    for i := 0 to |rows|
      invariant want == Want(rows[..i])
      invariant forall u :: u in order <==> u in want
      invariant forall j, k :: 0 <= j < k < |order| ==> order[j] != order[k]
    {
      assert rows[..i + 1][..i] == rows[..i];
      if rows[i].url !in want {
        order := order + [rows[i].url];
      }
      want := want[rows[i].url := rows[i].fields];
    }
    assert rows[..|rows|] == rows;
  }

  /** The streams of one file, in the order of their ids. */
  function OfUrl(have: seq<Stream>, url: string): (r: seq<Stream>)
    ensures forall s :: s in r <==> s in have && s.url == url
  {
    if have == [] then []
    else (if have[0].url == url then [have[0]] else []) + OfUrl(have[1..], url)
  }

  /** The first of them has the lowest id. */
  lemma {:induction false} FirstOfUrl(have: seq<Stream>, url: string)
    requires ById(have)
    ensures forall s :: s in have && s.url == url ==> OfUrl(have, url) != [] && OfUrl(have, url)[0].id <= s.id
  {
    if have != [] {
      FirstOfUrl(have[1..], url);
      forall s | s in have && s.url == url ensures OfUrl(have, url) != [] && OfUrl(have, url)[0].id <= s.id {
        assert s == have[0] || s in have[1..];
        if have[0].url == url && s in have[1..] {
          var i :| 0 <= i < |have| - 1 && have[1..][i] == s;
          assert have[0].id < have[i + 1].id;
        }
      }
    }
  }

  ghost predicate ById(have: seq<Stream>) { forall i, j :: 0 <= i < j < |have| ==> have[i].id < have[j].id }

  /** The streams are one row for each wanted file, as wanted. */
  ghost predicate Synced(after: map<int, Stream>, want: map<string, Fields>) {
    && (forall id :: id in after ==> after[id].url in want && after[id].fields == want[after[id].url])
    && (forall u :: u in want ==> exists id :: id in after && after[id].url == u)
    && (forall a, b :: a in after && b in after && after[a].url == after[b].url ==> a == b)
  }

  function Table(have: seq<Stream>): (t: map<int, Stream>)
    requires ById(have)
    ensures forall id :: id in t <==> exists s :: s in have && s.id == id
    ensures forall s :: s in have ==> t[s.id] == s
  {
    if have == [] then map[]
    else
      var n := |have| - 1;
      assert have == have[..n] + [have[n]];
      var t := Table(have[..n]);
      assert forall s :: s in have[..n] ==> s.id < have[n].id;
      t[have[n].id := have[n]]
  }

  /** One file's rows: the first kept and brought up to date, the rest and those of
      an unwanted file gone. */
  ghost predicate UrlDone(have: seq<Stream>, after: map<int, Stream>, want: map<string, Fields>, url: string) {
    var rows := OfUrl(have, url);
    if rows == [] || url !in want then forall id :: id in after ==> after[id].url != url
    else
      && rows[0].id in after && after[rows[0].id] == Stream(rows[0].id, url, want[url])
      && forall id :: id in after && after[id].url == url ==> id == rows[0].id
  }

  /** A file not looked at yet: its rows as they were. */
  ghost predicate UrlAsWas(have: seq<Stream>, after: map<int, Stream>, url: string) {
    && (forall s :: s in have && s.url == url ==> s.id in after && after[s.id] == s)
    && (forall id :: id in after && after[id].url == url ==> after[id] in have && after[id].id == id)
  }

  function Ids(rows: seq<Stream>): set<int> { set s | s in rows :: s.id }

  /** The table once the first i rows of a file were looked at. */
  function After(start: map<int, Stream>, rows: seq<Stream>, want: map<string, Fields>, url: string, i: nat): map<int, Stream>
    requires i <= |rows|
  {
    if i == 0 then start
    else if url !in want then start - Ids(rows[..i])
    else (start - Ids(rows[1..i]))[rows[0].id := Stream(rows[0].id, url, want[url])]
  }

  lemma AfterFirst(start: map<int, Stream>, rows: seq<Stream>, want: map<string, Fields>, url: string)
    requires rows != [] && rows[0].id in start && start[rows[0].id] == rows[0] && rows[0].url == url
    ensures After(start, rows, want, url, 0) == start
    ensures After(start, rows, want, url, 1) ==
      if url !in want then start - {rows[0].id}
      else if rows[0].fields != want[url] then start[rows[0].id := Stream(rows[0].id, url, want[url])]
      else start
  {
  }

  lemma AfterMore(start: map<int, Stream>, rows: seq<Stream>, want: map<string, Fields>, url: string, i: nat)
    requires 0 < i < |rows| && ById(rows)
    ensures After(start, rows, want, url, i + 1) == After(start, rows, want, url, i) - {rows[i].id}
  {
    if url in want {
      IdsOne(rows[1..i], rows[i]);
      assert rows[1..i + 1] == rows[1..i] + [rows[i]];
    } else {
      IdsOne(rows[..i], rows[i]);
      assert rows[..i + 1] == rows[..i] + [rows[i]];
    }
  }

  lemma IdsOne(rows: seq<Stream>, s: Stream)
    ensures Ids(rows + [s]) == Ids(rows) + {s.id}
  {
  }

  /** The file's rows have been looked at, and no other's touched. */
  ghost predicate SyncedUrl(have: seq<Stream>, start: map<int, Stream>, after: map<int, Stream>, want: map<string, Fields>, url: string) {
    && UrlDone(have, after, want, url)
    && (forall id :: id in start && start[id].url != url ==> id in after && after[id] == start[id])
    && (forall id :: id in after && after[id].url != url ==> id in start && after[id] == start[id])
    && (forall id :: id in after ==> after[id].id == id)
  }

  lemma AfterAll(have: seq<Stream>, start: map<int, Stream>, want: map<string, Fields>, url: string)
    requires ById(have) && UrlAsWas(have, start, url) && forall id :: id in start ==> start[id].id == id
    ensures var rows := OfUrl(have, url); SyncedUrl(have, start, After(start, rows, want, url, |rows|), want, url)
  {
    var rows := OfUrl(have, url);
    OfUrlById(have, url);
    var after := After(start, rows, want, url, |rows|);
    assert rows[..|rows|] == rows;
    assert rows != [] ==> rows == [rows[0]] + rows[1..] && rows[1..|rows|] == rows[1..];
    forall id | id in after && after[id].url == url ensures rows != [] && url in want && id == rows[0].id {
      assert start[id] in have && start[id] in rows;
    }
    forall id | id in start && start[id].url != url ensures id in after && after[id] == start[id] {
      assert forall s :: s in rows ==> s.id != id;
    }
    if rows != [] && url in want {
      assert rows[0].id in after;
    }
  }

  method SyncUrl(have: seq<Stream>, start: map<int, Stream>, want: map<string, Fields>, url: string, w0: nat, r0: nat)
    returns (after: map<int, Stream>, written: nat, removed: nat)
    requires ById(have) && UrlAsWas(have, start, url)
    requires forall id :: id in start ==> start[id].id == id
    ensures SyncedUrl(have, start, after, want, url)
    ensures url in want && |OfUrl(have, url)| == 1 && OfUrl(have, url)[0].fields == want[url] ==>
      after == start && written == w0 && removed == r0
  {
    hide After, SyncedUrl, UrlAsWas, OfUrl, ById;
    after, written, removed := start, w0, r0;
    var rows := OfUrl(have, url);
    OfUrlById(have, url);
    RowsAsWere(have, start, url);
    AfterNone(start, rows, want, url);
    if rows != [] { AfterFirst(start, rows, want, url); }
    for i := 0 to |rows|
      invariant after == After(start, rows, want, url, i)
      invariant url in want && |rows| == 1 && rows[0].fields == want[url] ==> written == w0 && removed == r0 && after == start
    {
      if i > 0 { AfterMore(start, rows, want, url, i); }
      if url !in want || i > 0 {
        after, removed := after - {rows[i].id}, removed + 1;
      } else if rows[i].fields != want[url] {
        after, written := after[rows[i].id := Stream(rows[i].id, url, want[url])], written + 1;
      }
    }
    AfterAll(have, start, want, url);
  }

  lemma RowsAsWere(have: seq<Stream>, start: map<int, Stream>, url: string)
    requires UrlAsWas(have, start, url)
    ensures var rows := OfUrl(have, url);
      rows != [] ==> rows[0].id in start && start[rows[0].id] == rows[0] && rows[0].url == url
  {
    hide OfUrl;
    var rows := OfUrl(have, url);
    if rows != [] { assert rows[0] in rows; }
  }

  lemma AfterNone(start: map<int, Stream>, rows: seq<Stream>, want: map<string, Fields>, url: string)
    ensures After(start, rows, want, url, 0) == start
  {
  }

  lemma {:induction false} OfUrlById(have: seq<Stream>, url: string)
    requires ById(have)
    ensures ById(OfUrl(have, url))
  {
    if have != [] {
      OfUrlById(have[1..], url);
      assert forall s :: s in have[1..] ==> have[0].id < s.id;
    }
  }

  /** Nothing to do: each wanted file has one row, as wanted, and no other file any. */
  ghost predicate Quiet(have: seq<Stream>, want: map<string, Fields>) {
    && (forall s :: s in have ==> s.url in want && |OfUrl(have, s.url)| == 1 && s.fields == want[s.url])
    && (forall u :: u in want ==> OfUrl(have, u) != [])
  }

  /** A table every file with rows has been looked at in. */
  ghost predicate Tidied(have: seq<Stream>, after: map<int, Stream>, want: map<string, Fields>) {
    && (forall id :: id in after ==> after[id].url in want && after[id].fields == want[after[id].url])
    && (forall a, b :: a in after && b in after && after[a].url == after[b].url ==> a == b)
    && (forall id :: id in after ==> OfUrl(have, after[id].url) != [])
    && (forall u :: u in want && OfUrl(have, u) != [] ==>
          OfUrl(have, u)[0].id in after && after[OfUrl(have, u)[0].id].url == u)
  }

  /** The first loop: the rows that are there. */
  method SyncHave(have: seq<Stream>, want: map<string, Fields>, next0: int)
    returns (after: map<int, Stream>, written: nat, removed: nat)
    requires ById(have) && forall s :: s in have ==> s.id < next0
    ensures Tidied(have, after, want) && forall id :: id in after ==> id < next0
    ensures Quiet(have, want) ==> after == Table(have) && written == 0 && removed == 0
  {
    hide Table, ById, Progress, Quiet, SyncedUrl, UrlAsWas, OfUrl, Tidied, UrlDone;
    after, written, removed := Table(have), 0, 0;
    var urls := set s | s in have :: s.url;
    AtFirst(have, want, urls, next0);
    var todo := urls;
    while todo != {}
      invariant todo <= urls && Progress(have, after, want, urls, todo, next0)
      invariant Quiet(have, want) ==> after == Table(have) && written == 0 && removed == 0
      decreases todo
    {
      var url :| url in todo;
      ghost var was := after;
      InProgress(have, after, want, urls, todo, next0, url);
      after, written, removed := SyncUrl(have, after, want, url, written, removed);
      Progresses(have, was, after, want, urls, todo, next0, url);
      todo := todo - {url};
    }
    ProgressDone(have, after, want, urls, next0);
  }

  lemma ProgressDone(have: seq<Stream>, after: map<int, Stream>, want: map<string, Fields>, urls: set<string>, next0: int)
    requires Progress(have, after, want, urls, {}, next0) && urls == set s | s in have :: s.url
    ensures Tidied(have, after, want) && forall id :: id in after ==> id < next0
  {
    AllDone(have, after, want, urls);
  }

  ghost predicate Progress(have: seq<Stream>, after: map<int, Stream>, want: map<string, Fields>, urls: set<string>, todo: set<string>, next0: int) {
    && (forall id :: id in after ==> after[id].id == id < next0 && after[id].url in urls)
    && (forall u :: u in urls && u !in todo ==> UrlDone(have, after, want, u))
    && (forall u :: u in todo ==> UrlAsWas(have, after, u))
  }

  lemma AtFirst(have: seq<Stream>, want: map<string, Fields>, urls: set<string>, next0: int)
    requires ById(have) && (forall s :: s in have ==> s.id < next0) && urls == set s | s in have :: s.url
    ensures Progress(have, Table(have), want, urls, urls, next0)
  {
    hide Table, UrlDone;
    var t := Table(have);
    forall id | id in t ensures t[id].id == id < next0 && t[id] in have && t[id].url in urls {
      assert exists s :: s in have && s.id == id;
      var s :| s in have && s.id == id;
      assert t[s.id] == s;
    }
  }

  /** A file yet to be looked at has a row, as it was. */
  lemma InProgress(have: seq<Stream>, after: map<int, Stream>, want: map<string, Fields>, urls: set<string>, todo: set<string>, next0: int, url: string)
    requires Progress(have, after, want, urls, todo, next0) && url in todo && todo <= urls
    requires urls == (set s | s in have :: s.url) && forall s :: s in have ==> s.id < next0
    ensures UrlAsWas(have, after, url) && forall id :: id in after ==> after[id].id == id
    ensures OfUrl(have, url) != [] && OfUrl(have, url)[0].id < next0
    ensures Quiet(have, want) ==> url in want && |OfUrl(have, url)| == 1 && OfUrl(have, url)[0].fields == want[url]
  {
    hide OfUrl, UrlAsWas, UrlDone, Quiet;
    QuietUrl(have, want, url);
  }

  lemma Progresses(have: seq<Stream>, was: map<int, Stream>, after: map<int, Stream>, want: map<string, Fields>,
                   urls: set<string>, todo: set<string>, next0: int, url: string)
    requires Progress(have, was, want, urls, todo, next0) && url in todo && todo <= urls
    requires SyncedUrl(have, was, after, want, url) && OfUrl(have, url) != [] && OfUrl(have, url)[0].id < next0
    ensures Progress(have, after, want, urls, todo - {url}, next0)
  {
    hide OfUrl;
    forall u | u in urls && u !in todo ensures UrlDone(have, after, want, u) { DoneStays(have, was, after, want, u); }
    forall u | u in todo && u != url ensures UrlAsWas(have, after, u) { WasStays(have, was, after, u); }
    forall id | id in after ensures after[id].id == id < next0 && after[id].url in urls {
      if after[id].url == url { assert UrlDone(have, after, want, url); }
    }
  }

  /** The second loop: the wanted files that have no row. */
  method AddNew(have: seq<Stream>, kept: map<int, Stream>, want: map<string, Fields>, order: seq<string>, next0: int)
    returns (after: map<int, Stream>, written: nat)
    requires Tidied(have, kept, want) && forall id :: id in kept ==> id < next0
    requires forall u :: u in order <==> u in want
    requires forall i, j :: 0 <= i < j < |order| ==> order[i] != order[j]
    ensures Synced(after, want) && forall id :: id in kept ==> id in after && after[id] == kept[id]
    ensures (forall u :: u in want ==> OfUrl(have, u) != []) ==> after == kept && written == 0
  {
    hide OfUrl, Tidied;
    after, written := kept, 0;
    var next := next0;
    for i := 0 to |order|
      invariant Grown(have, kept, after, want, order[..i], next) && next0 <= next
      invariant (forall u :: u in want ==> OfUrl(have, u) != []) ==> after == kept && written == 0
    {
      hide Grown;
      var url := order[i];
      assert order[..i + 1] == order[..i] + [url];
      assert url in order && url in want && url !in order[..i];
      Grows(have, kept, after, want, order[..i], next, url);
      if OfUrl(have, url) == [] {
        after := after[next := Stream(next, url, want[url])];
        next, written := next + 1, written + 1;
      }
    }
    assert order[..|order|] == order;
    GrownIsSynced(have, kept, after, want, order, next);
  }

  /** The table once the files of `done` that had no row have one. */
  ghost predicate Grown(have: seq<Stream>, kept: map<int, Stream>, after: map<int, Stream>, want: map<string, Fields>, done: seq<string>, next: int) {
    && (forall id :: id in after ==> id < next)
    && (forall id :: id in kept ==> id in after && after[id] == kept[id])
    && (forall id :: id in after && id !in kept ==>
          && after[id].url in done && after[id].url in want
          && OfUrl(have, after[id].url) == [] && after[id].fields == want[after[id].url])
    && (forall a, b :: a in after && b in after && a !in kept && b !in kept && after[a].url == after[b].url ==> a == b)
    && (forall u :: u in done && OfUrl(have, u) == [] ==> Held(after, u))
  }

  ghost predicate Held(after: map<int, Stream>, u: string) { exists id :: id in after && after[id].url == u }

  lemma Grows(have: seq<Stream>, kept: map<int, Stream>, after: map<int, Stream>, want: map<string, Fields>, done: seq<string>, next: int, url: string)
    requires Grown(have, kept, after, want, done, next) && url in want && url !in done && next !in kept
    ensures OfUrl(have, url) != [] ==> Grown(have, kept, after, want, done + [url], next)
    ensures OfUrl(have, url) == [] ==>
      Grown(have, kept, after[next := Stream(next, url, want[url])], want, done + [url], next + 1)
  {
    hide OfUrl;
    if OfUrl(have, url) == [] {
      var more := after[next := Stream(next, url, want[url])];
      assert next in more && more[next].url == url;
      forall u | u in done + [url] && OfUrl(have, u) == [] ensures Held(more, u) {
        if u != url {
          assert Held(after, u);
          var id :| id in after && after[id].url == u;
          assert id in more && more[id].url == u;
        }
      }
    }
  }

  lemma GrownIsSynced(have: seq<Stream>, kept: map<int, Stream>, after: map<int, Stream>, want: map<string, Fields>, done: seq<string>, next: int)
    requires Tidied(have, kept, want) && Grown(have, kept, after, want, done, next)
    requires forall u :: u in want ==> u in done
    ensures Synced(after, want)
  {
  }

  /** SyncSidecarsTx: one run leaves exactly one row for each wanted file, as wanted;
      a file that had rows keeps the id of its first; a run with nothing to do writes
      and removes nothing. */
  method SyncSidecars(have: seq<Stream>, sidecars: seq<Sidecar>, next0: int)
    returns (after: map<int, Stream>, written: nat, removed: nat)
    requires ById(have) && forall s :: s in have ==> s.id < next0
    ensures Synced(after, Want(sidecars))
    ensures forall u :: u in Want(sidecars) && OfUrl(have, u) != [] ==>
      OfUrl(have, u)[0].id in after && after[OfUrl(have, u)[0].id].url == u
    ensures Quiet(have, Want(sidecars)) ==> after == Table(have) && written == 0 && removed == 0
  {
    var want, order := Order(sidecars);
    after, written, removed := SyncHave(have, want, next0);
    var more;
    after, more := AddNew(have, after, want, order, next0);
    written := written + more;
  }

  lemma DoneStays(have: seq<Stream>, was: map<int, Stream>, after: map<int, Stream>, want: map<string, Fields>, u: string)
    requires UrlDone(have, was, want, u)
    requires forall id :: id in was && was[id].url == u ==> id in after && after[id] == was[id]
    requires forall id :: id in after && after[id].url == u ==> id in was && after[id] == was[id]
    ensures UrlDone(have, after, want, u)
  {
  }

  lemma WasStays(have: seq<Stream>, was: map<int, Stream>, after: map<int, Stream>, u: string)
    requires UrlAsWas(have, was, u)
    requires forall id :: id in was && was[id].url == u ==> id in after && after[id] == was[id]
    requires forall id :: id in after && after[id].url == u ==> id in was && after[id] == was[id]
    ensures UrlAsWas(have, after, u)
  {
  }

  lemma QuietUrl(have: seq<Stream>, want: map<string, Fields>, url: string)
    requires exists s :: s in have && s.url == url
    ensures OfUrl(have, url) != [] && OfUrl(have, url)[0] in have
    ensures Quiet(have, want) ==> url in want && |OfUrl(have, url)| == 1 && OfUrl(have, url)[0].fields == want[url]
  {
  }

  /** Once every file with rows was looked at, what is left is as wanted. */
  lemma AllDone(have: seq<Stream>, after: map<int, Stream>, want: map<string, Fields>, urls: set<string>)
    requires forall u :: u in urls ==> UrlDone(have, after, want, u)
    requires forall u :: u in urls <==> exists s :: s in have && s.url == u
    requires forall id :: id in after ==> after[id].url in urls
    ensures Tidied(have, after, want)
  {
    forall u | u in urls ensures OfUrl(have, u) != [] { QuietUrl(have, want, u); }
    forall id | id in after ensures after[id].url in want && after[id].fields == want[after[id].url] {
      assert UrlDone(have, after, want, after[id].url);
    }
    forall a, b | a in after && b in after && after[a].url == after[b].url ensures a == b {
      assert UrlDone(have, after, want, after[a].url);
    }
    forall u | u in want && OfUrl(have, u) != []
      ensures OfUrl(have, u)[0].id in after && after[OfUrl(have, u)[0].id].url == u
    {
      assert OfUrl(have, u)[0] in OfUrl(have, u);
      assert UrlDone(have, after, want, u);
    }
  }

  /** What one run leaves, read again, gives the next nothing to do. */
  lemma SyncedIsQuiet(again: seq<Stream>, want: map<string, Fields>)
    requires ById(again) && Synced(Table(again), want)
    ensures Quiet(again, want)
  {
    var t := Table(again);
    forall s | s in again ensures s.url in want && |OfUrl(again, s.url)| == 1 && s.fields == want[s.url] {
      assert s.id in t && t[s.id] == s;
      OfUrlOnce(again, want, s);
    }
    forall u | u in want ensures OfUrl(again, u) != [] {
      var id :| id in t && t[id].url == u;
      assert exists s :: s in again && s.id == id;
      var s :| s in again && s.id == id;
      assert t[s.id] == s && s in OfUrl(again, u);
    }
  }

  lemma OfUrlOnce(again: seq<Stream>, want: map<string, Fields>, s: Stream)
    requires ById(again) && Synced(Table(again), want) && s in again
    ensures |OfUrl(again, s.url)| == 1
  {
    hide *;
    var rows := OfUrl(again, s.url);
    OfUrlById(again, s.url);
    assert s in rows;
    if |rows| != 1 {
      Twins(Table(again), want, rows[0], rows[1]);
    }
  }

  lemma Twins(t: map<int, Stream>, want: map<string, Fields>, a: Stream, b: Stream)
    requires Synced(t, want) && a.id in t && b.id in t && t[a.id] == a && t[b.id] == b && a.url == b.url
    ensures a.id == b.id
  {
  }
}
