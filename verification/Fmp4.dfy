/** The fragmented-MP4 splitter (pkg/remux/fmp4.go): boxes as in section 4.2 of
    ISO/IEC 14496-12, cut out of a byte stream however it is written. */
module Fmp4 {
  import opened Options

  type byte = b: int | 0 <= b < 256

  datatype Error = UnsizedBox | BadSize(size: int) | MediaBeforeInit | Refused

  /** A callback's call and the bytes it was handed. */
  datatype Call = OnInit(bytes: seq<byte>) | OnFragment(bytes: seq<byte>)

  /** The splitter's fields.  `calls` is every callback made so far. */
  datatype State = State(
    buf: seq<byte>, init: seq<byte>, frag: seq<byte>, initDone: bool, err: Option<Error>, calls: seq<Call>)

  const FRESH := State([], [], [], false, None, [])

  function BigEndian(b: seq<byte>): int {
    if b == [] then 0 else BigEndian(b[..|b| - 1]) * 256 + b[|b| - 1]
  }

  /** What the front of the buffer holds. */
  datatype Front = Partial | Broken(err: Error) | Whole(size: int)

  function Peek(buf: seq<byte>): (f: Front)
    ensures f.Whole? ==> 8 <= f.size <= |buf|
  {
    if |buf| < 8 then Partial
    else
      var small := BigEndian(buf[..4]);
      if small == 1 && |buf| < 16 then Partial
      else
        var size, hdr := if small == 1 then BigEndian(buf[8..16]) else small, if small == 1 then 16 else 8;
        if size == 0 then Broken(UnsizedBox)
        else if size < hdr then Broken(BadSize(size))
        else if |buf| < size then Partial
        else Whole(size)
  }

  // ---------------------------------------------------------------------
  // Sizes
  // ---------------------------------------------------------------------

  /** The last k bytes of a number, the most significant first. */
  function Bytes(n: nat, k: nat): (b: seq<byte>)
    ensures |b| == k
  {
    if k == 0 then [] else Bytes(n / 256, k - 1) + [n % 256]
  }

  function Power(k: nat): (p: nat)
    ensures p > 0
  {
    if k == 0 then 1 else 256 * Power(k - 1)
  }

  /** A number of no more bytes reads back. */
  lemma {:induction false} BytesRead(n: nat, k: nat)
    requires n < Power(k)
    ensures BigEndian(Bytes(n, k)) == n
  {
    if k > 0 {
      var b := Bytes(n, k);
      assert b[..k - 1] == Bytes(n / 256, k - 1);
      BytesRead(n / 256, k - 1);
    }
  }

  const WORD := 0x1_0000_0000

  lemma Powers()
    ensures Power(4) == WORD && Power(8) == WORD * WORD
  {
    assert Power(1) == 0x100 && Power(2) == 0x1_0000 && Power(3) == 0x100_0000;
    assert Power(5) == 256 * WORD && Power(6) == 0x1_0000 * WORD && Power(7) == 0x100_0000 * WORD;
  }

  /** A box whose header gives its size: refused when that is 0 or less than the header,
      and whole as soon as that much is there. */
  lemma PeekIs(n: nat, typ: seq<byte>, rest: seq<byte>)
    requires n < WORD && n != 1 && |typ| == 4
    ensures var buf := Bytes(n, 4) + typ + rest;
      Peek(buf) ==
        if n == 0 then Broken(UnsizedBox) else if n < 8 then Broken(BadSize(n)) else if |buf| < n then Partial else Whole(n)
    ensures TypeOf(Bytes(n, 4) + typ + rest) == typ
  {
    hide BigEndian, Bytes, Power;
    var buf := Bytes(n, 4) + typ + rest;
    assert buf[..4] == Bytes(n, 4) && buf[4..8] == typ;
    Powers();
    BytesRead(n, 4);
  }

  /** The size 1 says that 64 bits of size follow the type. */
  lemma PeekIsLarge(n: nat, typ: seq<byte>, rest: seq<byte>)
    requires n < WORD * WORD && |typ| == 4
    ensures var buf := Bytes(1, 4) + typ + Bytes(n, 8) + rest;
      Peek(buf) ==
        if n == 0 then Broken(UnsizedBox) else if n < 16 then Broken(BadSize(n)) else if |buf| < n then Partial else Whole(n)
  {
    hide BigEndian, Bytes, Power;
    var buf := Bytes(1, 4) + typ + Bytes(n, 8) + rest;
    assert buf[..4] == Bytes(1, 4) && buf[8..16] == Bytes(n, 8);
    Powers();
    BytesRead(1, 4);
    BytesRead(n, 8);
  }

  /** A header that is not all there is waited for. */
  lemma PeekWaits(buf: seq<byte>)
    requires |buf| < 8 || (|buf| < 16 && buf[..4] == Bytes(1, 4))
    ensures Peek(buf) == Partial
  {
    hide BigEndian, Bytes, Power;
    Powers();
    BytesRead(1, 4);
  }

  const FTYP: seq<byte> := [0x66, 0x74, 0x79, 0x70]
  const MOOV: seq<byte> := [0x6d, 0x6f, 0x6f, 0x76]
  const STYP: seq<byte> := [0x73, 0x74, 0x79, 0x70]
  const SIDX: seq<byte> := [0x73, 0x69, 0x64, 0x78]
  const MOOF: seq<byte> := [0x6d, 0x6f, 0x6f, 0x66]
  const MDAT: seq<byte> := [0x6d, 0x64, 0x61, 0x74]

  function TypeOf(b: seq<byte>): seq<byte>
    requires 8 <= |b|
  {
    b[4..8]
  }

  /** A callback made; `answer` is whether it takes the call, after all before. */
  function Called(s: State, c: Call, answer: seq<Call> -> bool): State {
    var t := s.(calls := s.calls + [c]);
    if answer(t.calls) then t else t.(err := Some(Refused))
  }

  function Box(s: State, b: seq<byte>, answer: seq<Call> -> bool): (t: State)
    requires 8 <= |b|
    ensures t.buf == s.buf && s.calls <= t.calls
  {
    var typ := TypeOf(b);
    if typ == FTYP then s.(init := s.init + b)
    else if typ == MOOV then
      var t := s.(init := s.init + b, initDone := true);
      Called(t, OnInit(t.init), answer)
    else if typ == STYP || typ == SIDX || typ == MOOF then s.(frag := s.frag + b)
    else if typ == MDAT then
      if !s.initDone then s.(err := Some(MediaBeforeInit))
      else Called(s.(frag := []), OnFragment(s.frag + b), answer)
    else s
  }

  /** The loop of Write: every whole box at the front, until one fails. */
  function Drain(s: State, answer: seq<Call> -> bool): State
    decreases |s.buf|
  {
    match Peek(s.buf)
    case Partial => s
    case Broken(e) => s.(err := Some(e))
    case Whole(size) =>
      var t := Box(s, s.buf[..size], answer);
      if t.err.Some? then t else Drain(t.(buf := s.buf[size..]), answer)
  }

  function Written(s: State, p: seq<byte>, answer: seq<Call> -> bool): State {
    if s.err.Some? then s else Drain(s.(buf := s.buf + p), answer)
  }

  function WrittenAll(s: State, chunks: seq<seq<byte>>, answer: seq<Call> -> bool): State
    decreases |chunks|
  {
    if chunks == [] then s else WrittenAll(Written(s, chunks[0], answer), chunks[1..], answer)
  }

  function Concat(chunks: seq<seq<byte>>): seq<byte> {
    if chunks == [] then [] else chunks[0] + Concat(chunks[1..])
  }

  // ---------------------------------------------------------------------
  // The splitter
  // ---------------------------------------------------------------------

  class Splitter {
    var buf: seq<byte>
    var init: seq<byte>
    var frag: seq<byte>
    var initDone: bool
    var err: Option<Error>
    var calls: seq<Call>
    const answer: seq<Call> -> bool

    function St(): State
      reads this
    {
      State(buf, init, frag, initDone, err, calls)
    }

    constructor (answer: seq<Call> -> bool)
      ensures St() == FRESH && this.answer == answer
    {
      this.answer := answer;
      buf, init, frag, initDone, err, calls := [], [], [], false, None, [];
    }

    method Call(c: Call)
      modifies this`calls, this`err
      ensures St() == Called(old(St()), c, answer)
    {
      calls := calls + [c];
      if !answer(calls) {
        err := Some(Refused);
      }
    }

    method TakeBox(b: seq<byte>)
      requires 8 <= |b|
      modifies this
      ensures St() == Box(old(St()), b, answer)
    {
      var typ := TypeOf(b);
      if typ == FTYP {
        init := init + b;
      } else if typ == MOOV {
        init, initDone := init + b, true;
        Call(OnInit(init));
      } else if typ == STYP || typ == SIDX || typ == MOOF {
        frag := frag + b;
      } else if typ == MDAT {
        if !initDone {
          err := Some(MediaBeforeInit);
          return;
        }
        var f := frag + b;
        frag := [];
        Call(OnFragment(f));
      }
    }

    /** Write: the bytes taken, 0 once it has failed. */
    method Write(p: seq<byte>) returns (n: nat, e: Option<Error>)
      modifies this
      ensures St() == Written(old(St()), p, answer)
      ensures e == err && n == if e.Some? then 0 else |p|
    {
      hide Box, Peek;
      if err.Some? {
        return 0, err;
      }
      buf := buf + p;
      while true
        invariant err.None? && Drain(St(), answer) == Written(old(St()), p, answer)
        decreases |buf|
      {
        match Peek(buf)
        case Partial =>
          return |p|, None;
        case Broken(broken) =>
          err := Some(broken);
          return 0, err;
        case Whole(size) =>
          TakeBox(buf[..size]);
          if err.Some? {
            return 0, err;
          }
          buf := buf[size..];
      }
    }
  }

  // ---------------------------------------------------------------------
  // The cut does not matter
  // ---------------------------------------------------------------------

  /** The same callbacks, the same error and the same progress; the unread
      bytes too, unless it has failed. */
  predicate Alike(s: State, t: State) {
    s == t || (s.err.Some? && s == t.(buf := s.buf))
  }

  /** More bytes behind a front that is known do not change it. */
  lemma PeekStays(a: seq<byte>, b: seq<byte>)
    requires !Peek(a).Partial?
    ensures Peek(a + b) == Peek(a)
  {
    assert (a + b)[..4] == a[..4];
    if |a| >= 16 {
      assert (a + b)[8..16] == a[8..16];
    }
  }

  lemma BoxKeepsBuf(s: State, b: seq<byte>, answer: seq<Call> -> bool, buf: seq<byte>)
    requires 8 <= |b|
    ensures Box(s.(buf := buf), b, answer) == Box(s, b, answer).(buf := buf)
  {
  }

  /** Bytes written later are the same as bytes that were there. */
  lemma {:induction false} DrainTwice(s: State, p: seq<byte>, answer: seq<Call> -> bool)
    requires s.err.None?
    ensures Alike(Written(Drain(s, answer), p, answer), Drain(s.(buf := s.buf + p), answer))
    decreases |s.buf|
  {
    var f := Peek(s.buf);
    if !f.Partial? {
      PeekStays(s.buf, p);
    }
    if f.Whole? {
      var more := s.buf + p;
      assert more[..f.size] == s.buf[..f.size] && more[f.size..] == s.buf[f.size..] + p;
      var t := Box(s, s.buf[..f.size], answer);
      BoxKeepsBuf(s, s.buf[..f.size], answer, more);
      if t.err.None? {
        DrainTwice(t.(buf := s.buf[f.size..]), p, answer);
      }
    }
  }

  lemma WriteTwice(s: State, p: seq<byte>, q: seq<byte>, answer: seq<Call> -> bool)
    ensures Alike(Written(Written(s, p, answer), q, answer), Written(s, p + q, answer))
  {
    if s.err.None? {
      DrainTwice(s.(buf := s.buf + p), q, answer);
      assert s.buf + p + q == s.buf + (p + q);
    }
  }

  /** However a stream is cut into writes, the splitter makes the same calls with
      the same bytes in the same order, and fails with the same error, as when
      the stream is written whole. */
  lemma {:induction false} CutDoesNotMatter(s: State, chunks: seq<seq<byte>>, answer: seq<Call> -> bool)
    requires s.err.None? ==> Peek(s.buf).Partial?
    ensures Alike(WrittenAll(s, chunks, answer), Written(s, Concat(chunks), answer))
    decreases |chunks|
  {
    if chunks == [] {
      assert s.buf + [] == s.buf;
    } else {
      var t := Written(s, chunks[0], answer);
      if s.err.None? { DrainStops(s.(buf := s.buf + chunks[0]), answer); }
      CutDoesNotMatter(t, chunks[1..], answer);
      WriteTwice(s, chunks[0], Concat(chunks[1..]), answer);
    }
  }

  /** A drain that has not failed has left no whole box. */
  lemma {:induction false} DrainStops(s: State, answer: seq<Call> -> bool)
    requires s.err.None?
    ensures var r := Drain(s, answer); r.err.None? ==> Peek(r.buf).Partial?
    decreases |s.buf|
  {
    var f := Peek(s.buf);
    if f.Whole? {
      var t := Box(s, s.buf[..f.size], answer);
      if t.err.None? {
        DrainStops(t.(buf := s.buf[f.size..]), answer);
      }
    }
  }

  // ---------------------------------------------------------------------
  // What the calls carry
  // ---------------------------------------------------------------------

  predicate IsBox(b: seq<byte>) { Peek(b) == Whole(|b|) }

  predicate InitBox(b: seq<byte>) { 8 <= |b| && TypeOf(b) in {FTYP, MOOV} }

  predicate FragmentBox(b: seq<byte>) { 8 <= |b| && TypeOf(b) in {STYP, SIDX, MOOF, MDAT} }

  function Only(boxes: seq<seq<byte>>, keep: seq<byte> -> bool): seq<byte> {
    if boxes == [] then []
    else
      var n := |boxes| - 1;
      Only(boxes[..n], keep) + if keep(boxes[n]) then boxes[n] else []
  }

  /** The boxes after the last mdat. */
  function SinceMdat(boxes: seq<seq<byte>>): seq<seq<byte>> {
    if boxes == [] then []
    else
      var n := |boxes| - 1;
      if 8 <= |boxes[n]| && TypeOf(boxes[n]) == MDAT then [] else SinceMdat(boxes[..n]) + [boxes[n]]
  }

  /** The calls a stream of boxes asks for: at each moov all the init boxes so
      far, at each mdat the fragment boxes since the mdat before it. */
  function CallsFor(boxes: seq<seq<byte>>): seq<Call> {
    if boxes == [] then []
    else
      var n := |boxes| - 1;
      var b := boxes[n];
      CallsFor(boxes[..n]) +
      if |b| < 8 then []
      else if TypeOf(b) == MOOV then [OnInit(Only(boxes, InitBox))]
      else if TypeOf(b) == MDAT then [OnFragment(Only(SinceMdat(boxes[..n]), FragmentBox) + b)]
      else []
  }

  /** The splitter's fields are those boxes'. */
  ghost predicate Holds(s: State, boxes: seq<seq<byte>>) {
    && (forall i :: 0 <= i < |boxes| ==> IsBox(boxes[i]))
    && s.init == Only(boxes, InitBox) && s.frag == Only(SinceMdat(boxes), FragmentBox)
    && s.calls == CallsFor(boxes)
  }

  lemma OneMore(boxes: seq<seq<byte>>, b: seq<byte>)
    requires 8 <= |b|
    ensures var all := boxes + [b];
      && Only(all, InitBox) == Only(boxes, InitBox) + (if InitBox(b) then b else [])
      && SinceMdat(all) == (if TypeOf(b) == MDAT then [] else SinceMdat(boxes) + [b])
      && CallsFor(all) == CallsFor(boxes) +
           (if TypeOf(b) == MOOV then [OnInit(Only(all, InitBox))]
            else if TypeOf(b) == MDAT then [OnFragment(Only(SinceMdat(boxes), FragmentBox) + b)]
            else [])
  {
    assert (boxes + [b])[..|boxes|] == boxes;
  }

  lemma OnlyMore(boxes: seq<seq<byte>>, b: seq<byte>, keep: seq<byte> -> bool)
    ensures Only(boxes + [b], keep) == Only(boxes, keep) + if keep(b) then b else []
  {
    assert (boxes + [b])[..|boxes|] == boxes;
  }

  /** The types of box differ. */
  lemma Types()
    ensures FTYP != MOOV && STYP != MOOV && SIDX != MOOV && MOOF != MOOV && MDAT != MOOV
    ensures STYP != MDAT && SIDX != MDAT && MOOF != MDAT && FTYP != MDAT && FTYP != STYP && FTYP != SIDX && FTYP != MOOF
  {
    assert FTYP[0] != MOOV[0] && STYP[0] != MOOV[0] && SIDX[0] != MOOV[0] && MOOF[3] != MOOV[3] && MDAT[1] != MOOV[1];
    assert STYP[0] != MDAT[0] && SIDX[0] != MDAT[0] && MOOF[1] != MDAT[1] && FTYP[0] != MDAT[0];
    assert FTYP[0] != STYP[0] && FTYP[0] != SIDX[0] && FTYP[0] != MOOF[0];
  }

  /** A box taken: the fields are those of one box more, or the call it asked for was
      made and refused, or it was an mdat before any init. */
  lemma BoxHolds(s: State, boxes: seq<seq<byte>>, b: seq<byte>, answer: seq<Call> -> bool, rest: seq<byte>)
    requires Holds(s, boxes) && IsBox(b) && s.err.None?
    ensures 8 <= |b|
    ensures var t := Box(s, b, answer);
      && (t.err.None? ==> Holds(t.(buf := rest), boxes + [b]))
      && (t.err.Some? ==> t.err.value in {Refused, MediaBeforeInit})
      && (t.err == Some(Refused) ==> t.calls == CallsFor(boxes + [b]))
      && (t.err == Some(MediaBeforeInit) ==> t.calls == CallsFor(boxes) && TypeOf(b) == MDAT)
  {
    hide *;
    IsBoxLong(b);
    HoldsIs(s, boxes);
    BoxDoes(s, b, answer);
    OneMore(boxes, b);
    OnlyMore(SinceMdat(boxes), b, FragmentBox);
    OnlyNone(FragmentBox);
    var t := Box(s, b, answer);
    if t.err.None? { HoldsMore(t.(buf := rest), boxes, b); }
  }

  /** What a box of each kind adds to the fields and the calls. */
  lemma BoxDoes(s: State, b: seq<byte>, answer: seq<Call> -> bool)
    requires 8 <= |b| && s.err.None?
    ensures var t := Box(s, b, answer);
      var calls := s.calls +
        (if TypeOf(b) == MOOV then [OnInit(s.init + (if InitBox(b) then b else []))]
         else if TypeOf(b) == MDAT then [OnFragment(s.frag + b)]
         else []);
      && (t.err.None? ==>
            && t.init == s.init + (if InitBox(b) then b else [])
            && t.frag == (if TypeOf(b) == MDAT then [] else s.frag + (if FragmentBox(b) then b else []))
            && t.calls == calls)
      && (t.err.Some? ==> t.err.value in {Refused, MediaBeforeInit})
      && (t.err == Some(Refused) ==> t.calls == calls)
      && (t.err == Some(MediaBeforeInit) ==> t.calls == s.calls && TypeOf(b) == MDAT)
  {
    hide FTYP, MOOV, STYP, SIDX, MOOF, MDAT;
    Types();
    assert s.init + [] == s.init && s.frag + [] == s.frag && s.calls + [] == s.calls;
  }

  lemma HoldsIs(s: State, boxes: seq<seq<byte>>)
    ensures Holds(s, boxes) <==>
      && (forall i :: 0 <= i < |boxes| ==> IsBox(boxes[i]))
      && s.init == Only(boxes, InitBox) && s.frag == Only(SinceMdat(boxes), FragmentBox)
      && s.calls == CallsFor(boxes)
  {
  }

  lemma HoldsMore(t: State, boxes: seq<seq<byte>>, b: seq<byte>)
    requires (forall i :: 0 <= i < |boxes| ==> IsBox(boxes[i])) && IsBox(b)
    requires t.init == Only(boxes + [b], InitBox) && t.frag == Only(SinceMdat(boxes + [b]), FragmentBox)
    requires t.calls == CallsFor(boxes + [b])
    ensures Holds(t, boxes + [b])
  {
    hide Only, SinceMdat, CallsFor, IsBox;
  }

  lemma OnlyNone(keep: seq<byte> -> bool)
    ensures Only([], keep) == []
  {
  }

  lemma IsBoxLong(b: seq<byte>)
    requires IsBox(b)
    ensures 8 <= |b|
  {
  }

  lemma CutBox(buf: seq<byte>)
    requires Peek(buf).Whole?
    ensures IsBox(buf[..Peek(buf).size])
  {
    var b := buf[..Peek(buf).size];
    assert buf[..4] == b[..4];
    if |b| >= 16 {
      assert buf[8..16] == b[8..16];
    }
  }

  /** What was made of the boxes taken and the bytes behind them: a drain goes through
      all whole boxes, or fails at the last it took or at the front of the rest. */
  ghost predicate Took(r: State, boxes: seq<seq<byte>>, rest: seq<byte>) {
    && (forall i :: 0 <= i < |boxes| ==> IsBox(boxes[i]))
    && match r.err
       case None => r.buf == rest && Peek(rest).Partial? && r.calls == CallsFor(boxes)
       case Some(Refused) => boxes != [] && r.calls == CallsFor(boxes)
       case Some(MediaBeforeInit) =>
         boxes != [] && 8 <= |boxes[|boxes| - 1]| && TypeOf(boxes[|boxes| - 1]) == MDAT && r.calls == CallsFor(boxes[..|boxes| - 1])
       case Some(e) => Peek(rest) == Broken(e) && r.calls == CallsFor(boxes)
  }

  lemma {:induction false} DrainTakes(s: State, boxes: seq<seq<byte>>, answer: seq<Call> -> bool)
    returns (more: seq<seq<byte>>, rest: seq<byte>)
    requires Holds(s, boxes) && s.err.None?
    ensures Took(Drain(s, answer), boxes + more, rest) && s.buf == Concat(more) + rest
    decreases |s.buf|
  {
    hide *;
    var f := Peek(s.buf);
    if f.Whole? {
      var b, left := s.buf[..f.size], s.buf[f.size..];
      assert s.buf == b + left;
      CutBox(s.buf);
      BoxHolds(s, boxes, b, answer, left);
      DrainsOn(s, answer);
      var t := Box(s, b, answer);
      if t.err.None? {
        var tail;
        tail, rest := DrainTakes(t.(buf := left), boxes + [b], answer);
        more := [b] + tail;
        assert boxes + more == boxes + [b] + tail;
        ConcatOn(b, tail);
        assert b + (Concat(tail) + rest) == b + Concat(tail) + rest;
      } else {
        more, rest := [b], left;
        HoldsBoxes(s, boxes);
        FailedAt(t, boxes, b, rest);
        ConcatOn(b, []);
        assert [b] + [] == [b] && b + [] == b;
      }
    } else {
      more, rest := [], s.buf;
      assert boxes + more == boxes;
      ConcatOn([], []);
      DrainEnds(s, boxes, answer);
      assert [] + s.buf == s.buf;
    }
  }

  lemma ConcatOn(b: seq<byte>, tail: seq<seq<byte>>)
    ensures Concat([b] + tail) == b + Concat(tail) && Concat([]) == []
  {
    assert ([b] + tail)[1..] == tail;
  }

  /** A turn of the loop. */
  lemma DrainsOn(s: State, answer: seq<Call> -> bool)
    requires Peek(s.buf).Whole?
    ensures var b, left := s.buf[..Peek(s.buf).size], s.buf[Peek(s.buf).size..];
      var t := Box(s, b, answer);
      Drain(s, answer) == if t.err.Some? then t else Drain(t.(buf := left), answer)
  {
    hide Box;
  }

  lemma HoldsBoxes(s: State, boxes: seq<seq<byte>>)
    requires Holds(s, boxes)
    ensures forall i :: 0 <= i < |boxes| ==> IsBox(boxes[i])
  {
  }

  lemma FailedAt(t: State, boxes: seq<seq<byte>>, b: seq<byte>, rest: seq<byte>)
    requires (forall i :: 0 <= i < |boxes| ==> IsBox(boxes[i])) && IsBox(b) && 8 <= |b|
    requires t.err == Some(Refused) || t.err == Some(MediaBeforeInit)
    requires t.err == Some(Refused) ==> t.calls == CallsFor(boxes + [b])
    requires t.err == Some(MediaBeforeInit) ==> t.calls == CallsFor(boxes) && TypeOf(b) == MDAT
    ensures Took(t, boxes + [b], rest)
  {
    hide CallsFor, IsBox;
    assert (boxes + [b])[..|boxes|] == boxes;
  }

  lemma DrainEnds(s: State, boxes: seq<seq<byte>>, answer: seq<Call> -> bool)
    requires Holds(s, boxes) && s.err.None? && !Peek(s.buf).Whole?
    ensures Took(Drain(s, answer), boxes, s.buf)
  {
    hide CallsFor, BigEndian;
  }

  /** No byte is lost or invented: what was written is the boxes taken and the bytes
      behind them, and the calls made are exactly those the boxes ask for, the one that
      was refused included.  Until it fails, the rest is unread and holds no whole box. */
  lemma CallsCarryTheStream(stream: seq<byte>, answer: seq<Call> -> bool) returns (boxes: seq<seq<byte>>, rest: seq<byte>)
    ensures stream == Concat(boxes) + rest && Took(Written(FRESH, stream, answer), boxes, rest)
  {
    var s := FRESH.(buf := FRESH.buf + stream);
    assert FRESH.buf + stream == stream;
    boxes, rest := DrainTakes(s, [], answer);
    assert [] + boxes == boxes;
  }

  function Moovs(boxes: seq<seq<byte>>): nat {
    if boxes == [] then 0
    else
      var n := |boxes| - 1;
      Moovs(boxes[..n]) + if 8 <= |boxes[n]| && TypeOf(boxes[n]) == MOOV then 1 else 0
  }

  function Inits(calls: seq<Call>): nat {
    if calls == [] then 0
    else
      var n := |calls| - 1;
      Inits(calls[..n]) + if calls[n].OnInit? then 1 else 0
  }

  /** The init is handed over once for every moov: once exactly when the stream
      has one. */
  lemma {:induction false} OneInitPerMoov(boxes: seq<seq<byte>>)
    ensures Inits(CallsFor(boxes)) == Moovs(boxes)
  {
    if boxes != [] {
      var n := |boxes| - 1;
      var before, calls := CallsFor(boxes[..n]), CallsFor(boxes);
      OneInitPerMoov(boxes[..n]);
      if |calls| > |before| {
        assert calls[..|before|] == before;
      } else {
        assert calls == before;
      }
    }
  }

  /** So of every stream, failed or not: as many inits as moovs among the boxes taken. */
  lemma InitsOfStream(stream: seq<byte>, answer: seq<Call> -> bool) returns (boxes: seq<seq<byte>>, rest: seq<byte>)
    ensures var r := Written(FRESH, stream, answer);
      stream == Concat(boxes) + rest && Took(r, boxes, rest) && Inits(r.calls) == Moovs(boxes)
  {
    hide Written, CallsFor;
    boxes, rest := CallsCarryTheStream(stream, answer);
    OneInitPerMoov(boxes);
    if boxes != [] {
      Types();
      OneInitPerMoov(boxes[..|boxes| - 1]);
    }
  }

  /** A moov of no more than its header. */
  const BARE_MOOV: seq<byte> := [0, 0, 0, 8] + MOOV

  lemma BareMoov(more: seq<byte>)
    ensures Peek(BARE_MOOV + more) == Whole(8) && (BARE_MOOV + more)[..8] == BARE_MOOV && (BARE_MOOV + more)[8..] == more
    ensures TypeOf(BARE_MOOV) == MOOV
  {
    var size: seq<byte> := [0, 0, 0, 8];
    assert (BARE_MOOV + more)[..4] == size;
    assert size[..3] == [0, 0, 0] && [0, 0, 0][..2] == [0, 0] && [0, 0][..1] == [0] && [0][..0] == [];
    assert BigEndian([0]) == 0 && BigEndian([0, 0]) == 0 && BigEndian([0, 0, 0]) == 0;
    assert BigEndian(size) == 8;
  }

  lemma MoovDrains(s: State, more: seq<byte>, answer: seq<Call> -> bool)
    requires s.buf == BARE_MOOV + more && s.err.None? && forall calls :: answer(calls)
    ensures Drain(s, answer) ==
      Drain(State(more, s.init + BARE_MOOV, s.frag, true, None, s.calls + [OnInit(s.init + BARE_MOOV)]), answer)
  {
    hide Peek;
    BareMoov(more);
  }

  /** Two moovs hand over two inits, the second with the first before it. */
  lemma TwoInits(answer: seq<Call> -> bool)
    requires forall calls :: answer(calls)
    ensures var r := Written(FRESH, BARE_MOOV + BARE_MOOV, answer);
      r.err.None? && r.calls == [OnInit(BARE_MOOV), OnInit(BARE_MOOV + BARE_MOOV)]
  {
    hide *;
    var m := BARE_MOOV;
    Begins(m, answer);
    var s := State(m + m, [], [], false, None, []);
    MoovDrains(s, m, answer);
    assert [] + m == m && [] + [OnInit(m)] == [OnInit(m)];
    var one := State(m, m, [], true, None, [OnInit(m)]);
    assert Drain(s, answer) == Drain(one, answer);
    assert m + [] == m;
    MoovDrains(one, [], answer);
    var two := State([], m + m, [], true, None, [OnInit(m), OnInit(m + m)]);
    assert [OnInit(m)] + [OnInit(m + m)] == [OnInit(m), OnInit(m + m)];
    assert Drain(one, answer) == Drain(two, answer);
    Stops(two, answer);
  }

  lemma Begins(m: seq<byte>, answer: seq<Call> -> bool)
    ensures Written(FRESH, m + m, answer) == Drain(State(m + m, [], [], false, None, []), answer)
  {
    hide Drain;
    assert [] + (m + m) == m + m;
  }

  lemma Stops(s: State, answer: seq<Call> -> bool)
    requires s.buf == []
    ensures Drain(s, answer) == s
  {
  }
}
