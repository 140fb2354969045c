/** The parser of psql scripts (pkg/plex/bootstrap/psql.go), proved to find the
    commands that PsqlText.Script defines. */
module Psql {
  import opened Options
  import opened PsqlText

  /** strings.Count(chunk, "\n"). */
  function Newlines(chunk: string): nat {
    if chunk == "" then 0 else Newlines(chunk[..|chunk| - 1]) + if chunk[|chunk| - 1] == '\n' then 1 else 0
  }

  lemma {:induction false} LinesAdd(s: string, i: nat, e: nat)
    requires i <= e <= |s|
    ensures Lines(s, e) == Lines(s, i) + Newlines(s[i..e])
    decreases e
  {
    if i < e {
      LinesAdd(s, i, e - 1);
      assert s[i..e][..e - 1 - i] == s[i..e - 1];
    }
  }

  /** The blank a chunk of text begins with, by strings.TrimLeft's set. */
  function Leading(chunk: string): nat {
    if chunk != "" && chunk[0] in " \t\r\n" then 1 + Leading(chunk[1..]) else 0
  }

  /** Text gathered behind blank is trimmed at both ends. */
  lemma {:induction false} TrimBoth(lead: string, text: string)
    requires Blank(lead) && text != "" && !Space(text[0])
    ensures TrimSpace(lead + text) == TrimRight(text)
  {
    if lead == "" {
      assert lead + text == text;
    } else {
      assert (lead + text)[1..] == lead[1..] + text;
      TrimBoth(lead[1..], text);
    }
  }

  /** The commands found so far, before the rest. */
  function After(found: seq<Command>, rest: Outcome): Outcome {
    if rest.Parsed? then Parsed(found + rest.cmds) else rest
  }

  lemma AfterThen(found: seq<Command>, c: Command, rest: Outcome)
    ensures After(found, Then(c, rest)) == After(found + [c], rest)
  {
  }

  /** The scan of a block comment, which may nest. */
  method BlockCommentEnd(src: string, i: nat) returns (end: Option<nat>)
    requires i <= |src|
    ensures end == BlockEnd(src, i, 0)
  {
    var depth, j := 0, i;
    while j < |src|
      invariant i <= j <= |src| && BlockEnd(src, i, 0) == BlockEnd(src, j, depth)
    {
      if Pair(src, j, '/', '*') {
        depth, j := depth + 1, j + 2;
      } else if Pair(src, j, '*', '/') {
        depth, j := depth - 1, j + 2;
        if depth == 0 { return Some(j); }
      } else {
        j := j + 1;
      }
    }
    return None;
  }

  class Parser {
    const src: string
    const isCopy: string -> bool
    var i: nat
    var line: nat
    var cmds: seq<Command>
    var buf: string
    var content: bool
    var start: nat
    ghost var open: nat
    ghost var lead: string

    constructor (isCopy: string -> bool, src: string)
      ensures this.src == src && this.isCopy == isCopy && i == 0 && cmds == [] && !content && Valid()
    {
      this.src, this.isCopy := src, isCopy;
      i, line, cmds, buf, content, start := 0, 1, [], "", false, 0;
      open, lead := 0, "";
    }

    /** What buf holds when the statement was gathered up to e. */
    ghost predicate Gathered(e: nat)
      reads this
    {
      && e <= |src|
      && if content then
           open < e && start == Lines(src, open) && !Space(src[open]) && Blank(lead) && buf == lead + src[open..e]
         else Blank(buf)
    }

    ghost predicate Valid()
      reads this
    {
      i <= |src| && (i < |src| ==> line == Lines(src, i)) && Gathered(i)
    }

    ghost function Opened(): Option<nat>
      reads this
    {
      if content then Some(open) else None
    }

    /** Take n bytes into the statement; a blank is taken alone. */
    method Take(n: nat)
      requires Valid() && 0 < n && i + n <= |src| && (Space(src[i]) ==> n == 1)
      modifies this`i, this`line, this`buf, this`content, this`start, this`open, this`lead
      ensures Valid() && i == old(i) + n
      ensures Opened() == if old(content) then old(Opened()) else if Space(src[old(i)]) then None else Some(old(i))
    {
      var chunk := src[i..i + n];
      assert chunk[0] == src[i];
      LinesAdd(src, i, i + n);
      MarkContent(chunk);
      buf := buf + chunk;
      assert content && open != i ==> src[open..i] + chunk == src[open..i + n];
      line := line + Newlines(chunk);
      i := i + n;
    }

    method MarkContent(chunk: string)
      requires Valid() && i < |src| && chunk != "" && chunk[0] == src[i] && (Space(chunk[0]) ==> |chunk| == 1)
      modifies this`content, this`start, this`open, this`lead
      ensures content == (old(content) || !Space(chunk[0]))
      ensures old(content) ==> start == old(start) && open == old(open) && lead == old(lead)
      ensures content && !old(content) ==> open == i && start == Lines(src, i) && lead == buf
    {
      if content || TrimSpace(chunk) == "" {
        NotBlank(chunk);
        return;
      }
      NotBlank(chunk);
      content, start := true, line + Newlines(chunk[..Leading(chunk)]);
      open, lead := i, buf;
    }

    /** A backslash command, to the end of its line. */
    method Meta()
      requires Valid() && !content && i < |src| && src[i] == '\\' && LineStart(src, i)
      modifies this
      ensures Valid() && !content && i > old(i)
      ensures After(cmds, Script(isCopy, src, i, None)) == old(After(cmds, Script(isCopy, src, i, None)))
    {
      var end := LineEnd(src, i);
      LinesAdd(src, i, end);
      NoNewline(src[i..end]);
      var cmd := TrimReturns(src[i..end]);
      AfterThen(cmds, Command(line, "", cmd, None), Script(isCopy, src, end, None));
      cmds := cmds + [Command(line, "", cmd, None)];
      buf := "";
      i := end;
    }

    method LineComment()
      requires Valid() && Pair(src, i, '-', '-')
      modifies this`i, this`buf
      ensures Valid() && i == PieceAt(src, old(i)).end
    {
      var end := LineEnd(src, i);
      LinesAdd(src, i, end);
      NoNewline(src[i..end]);
      if content {
        assert src[open..i] + src[i..end] == src[open..end];
        buf := buf + src[i..end];
      }
      i := end;
    }

    method BlockComment() returns (ok: bool)
      requires Valid() && Pair(src, i, '/', '*')
      modifies this`i, this`buf, this`line
      ensures ok == PieceAt(src, old(i)).Comment?
      ensures ok ==> Valid() && i == PieceAt(src, old(i)).end
      ensures !ok ==> line == old(line)
    {
      var end := BlockCommentEnd(src, i);
      if end.None? { return false; }
      var j := end.value;
      LinesAdd(src, i, j);
      if content {
        assert src[open..i] + src[i..j] == src[open..j];
        buf := buf + src[i..j];
      }
      line := line + Newlines(src[i..j]);
      i := j;
      return true;
    }

    /** A '...' or "..." run. */
    method Quoted(q: char, backslash: bool) returns (ok: bool)
      requires Valid() && i < |src| && src[i] == q && !Space(q)
      modifies this`i, this`line, this`buf, this`content, this`start, this`open, this`lead
      ensures var e := QuoteEnd(src, old(i) + 1, q, backslash);
        && ok == e.Some?
        && (ok ==> Valid() && i == e.value && Opened() == if old(content) then old(Opened()) else Some(old(i)))
      ensures !ok ==> line == old(line)
    {
      var j := i + 1;
      while j < |src|
        invariant i < j && QuoteEnd(src, i + 1, q, backslash) == QuoteEnd(src, j, q, backslash)
        invariant Valid() && i == old(i) && line == old(line) && content == old(content) && Opened() == old(Opened())
      {
        var c := src[j];
        if backslash && c == '\\' {
          j := j + 2;
        } else if c == q && j + 1 < |src| && src[j + 1] == q {
          j := j + 2;
        } else if c == q {
          Take(j + 1 - i);
          return true;
        } else {
          j := j + 1;
        }
      }
      return false;
    }

    method DollarQuoted() returns (ok: bool)
      requires Valid() && i < |src| && src[i] == '$' && TagEnd(src, i) > i
      modifies this`i, this`line, this`buf, this`content, this`start, this`open, this`lead
      ensures var t := Dollar(src, old(i));
        && ok == t.Text?
        && (ok ==> Valid() && i == t.end && Opened() == if old(content) then old(Opened()) else Some(old(i)))
      ensures !ok ==> line == old(line)
    {
      var tag := src[i..TagEnd(src, i)];
      var end := Find(src, i + |tag|, tag);
      if end.None? { return false; }
      Take(end.value + |tag| - i);
      return true;
    }

    /** The statement gathered so far, as a command. */
    method Emit() returns (sql: string)
      requires content && exists e :: Gathered(e)
      modifies this`cmds, this`buf, this`content
      ensures sql == TrimSpace(old(buf)) && cmds == old(cmds) + [Command(start, sql, "", None)]
      ensures buf == "" && !content
    {
      sql := TrimSpace(buf);
      cmds := cmds + [Command(start, sql, "", None)];
      buf := "";
      content := false;
    }

    /** The statement ends at the semicolon just passed; a COPY's rows follow. */
    method EndStatement() returns (ok: bool)
      requires 0 < i <= |src| && src[i - 1] == ';' && Gathered(i - 1) && line == Lines(src, i - 1)
      modifies this
      ensures ok ==> Valid() && !content && i >= old(i)
      ensures ok ==> After(cmds, Script(isCopy, src, i, None)) == old(After(cmds, Script(isCopy, src, i - 1, Opened())))
      ensures !ok ==> cmds != [] && Script(isCopy, src, old(i) - 1, old(Opened())) == Failed(cmds[|cmds| - 1].line, CopyData)
    {
      hide Lines, Rows, TrimSpace, TrimRight, LineEnd, Script, After;
      ghost var e := i - 1;
      SemicolonLine(src, e);
      if !content {
        PassSemicolon(isCopy, src, e);
        buf := "";
        return true;
      }
      TrimBoth(lead, src[open..e]);
      ghost var found, o := cmds, open;
      var sql := Emit();
      assert sql == TrimRight(src[o..e]);
      ghost var c := Command(start, sql, "", None);
      Ends(isCopy, src, e, o, found);
      if !isCopy(sql) { return true; }
      LineCounted2(src, i);
      if LineEnd(src, i) < |src| {
        i, line := LineEnd(src, i) + 1, line + 1;
      } else {
        i := |src|;
      }
      ok := CopyRows();
      assert ok ==> cmds == found + [c.(copy := Some(Rows(src, NextLine(src, e + 1)).value.0))];
    }

    /** The whole script. */
    method Run() returns (r: Outcome)
      requires i == 0 && cmds == [] && !content && Valid()
      modifies this
      ensures r == Script(isCopy, src, 0, None)
    {
      assert After([], Script(isCopy, src, 0, None)) == Script(isCopy, src, 0, None);
      while i < |src|
        invariant Valid() && After(cmds, Script(isCopy, src, i, Opened())) == Script(isCopy, src, 0, None)
        decreases |src| - i
      {
        hide Script, Gathered;
        var failed := Step();
        if failed.Some? { return failed.value; }
      }
      if content {
        TrimBoth(lead, src[open..i]);
        var _ := Emit();
      }
      r := Parsed(cmds);
    }

    /** One turn of the loop: the piece at i. */
    method Step() returns (failed: Option<Outcome>)
      requires Valid() && i < |src|
      modifies this
      ensures failed.None? ==> Valid() && i > old(i)
      ensures failed.None? ==> After(cmds, Script(isCopy, src, i, Opened())) == old(After(cmds, Script(isCopy, src, i, Opened())))
      ensures failed.Some? ==> failed.value.Failed? && failed.value == old(Script(isCopy, src, i, Opened()))
    {
      hide Script, Lines, Rows, TrimSpace, TrimRight, LineEnd, BlockEnd, QuoteEnd, Dollar, TagEnd, After, TrimReturns;
      var c := src[i];
      failed := None;
      if LineStart(src, i) && !content && c == '\\' {
        Meta();
        return;
      }
      Passes(isCopy, src, i, Opened());
      if Pair(src, i, '-', '-') {
        LineComment();
      } else if Pair(src, i, '/', '*') {
        var ok := BlockComment();
        if !ok { failed := Some(Failed(line, What.BlockComment)); }
      } else if c == '\'' {
        var ok := Quoted('\'', EscapeAt(src, i));
        if !ok { failed := Some(Failed(line, Quote('\''))); }
      } else if c == '"' {
        var ok := Quoted('"', false);
        if !ok { failed := Some(Failed(line, Quote('"'))); }
      } else if c == '$' && !IdentBefore(src, i) && TagEnd(src, i) > i {
        failed := DollarStep();
      } else if c == ';' {
        failed := SemicolonStep();
      } else {
        Take(1);
      }
    }

    method DollarStep() returns (failed: Option<Outcome>)
      requires Valid() && i < |src| && src[i] == '$' && TagEnd(src, i) > i
      modifies this`i, this`line, this`buf, this`content, this`start, this`open, this`lead
      ensures var t := Dollar(src, old(i));
        if t.Text? then failed.None? && Valid() && i == t.end && Opened() == (if old(content) then old(Opened()) else Some(old(i)))
        else failed == Some(Failed(Lines(src, old(i)), t.what))
    {
      var tag := src[i..TagEnd(src, i)];
      var ok := DollarQuoted();
      failed := if ok then None else Some(Failed(line, DollarQuote(tag)));
    }

    method SemicolonStep() returns (failed: Option<Outcome>)
      requires Valid() && i < |src| && src[i] == ';'
      modifies this
      ensures failed.None? ==> Valid() && i > old(i)
      ensures failed.None? ==> After(cmds, Script(isCopy, src, i, Opened())) == old(After(cmds, Script(isCopy, src, i, Opened())))
      ensures failed.Some? ==> failed.value.Failed? && failed.value == old(Script(isCopy, src, i, Opened()))
    {
      hide Script, After, Lines;
      i := i + 1;
      var ok := EndStatement();
      failed := if ok then None else Some(Failed(cmds[|cmds| - 1].line, CopyData));
    }

    /** The rows of the COPY just emitted. */
    method CopyRows() returns (ok: bool)
      requires i <= |src| && !content && buf == "" && cmds != [] && cmds[|cmds| - 1].copy.None?
      requires i < |src| ==> line == Lines(src, i)
      modifies this`i, this`line, this`cmds
      ensures ok == Rows(src, old(i)).Some? && (!ok ==> cmds == old(cmds))
      ensures ok ==> var (rows, next) := Rows(src, old(i)).value; var n := |old(cmds)| - 1;
        Valid() && i == next && cmds == old(cmds)[..n] + [old(cmds)[n].(copy := Some(rows))]
    {
      hide Lines, Rows, Prefixed, LineEnd, TrimReturns;
      var rows := "";
      ghost var from := i;
      PrefixedMore(rows, "", Rows(src, i));
      while i < |src|
        invariant i <= |src| && (i < |src| ==> line == Lines(src, i)) && cmds == old(cmds)
        invariant Rows(src, from) == Prefixed(rows, Rows(src, i))
        decreases |src| - i
      {
        var end := LineEnd(src, i);
        var next := if end < |src| then end + 1 else |src|;
        var row := TrimReturns(src[i..end]);
        LineCounted(src, i);
        RowsNext(src, i, rows);
        i, line := next, line + 1;
        if row == "\\." {
          cmds := cmds[..|cmds| - 1] + [cmds[|cmds| - 1].(copy := Some(rows))];
          return true;
        }
        PrefixedMore(rows, row + "\n", Rows(src, i));
        rows := rows + (row + "\n");
      }
      RowsNever(src, rows);
      return false;
    }
  }

  lemma RowsNever(s: string, rows: string)
    ensures Prefixed(rows, Rows(s, |s|)) == None
  {
  }

  lemma RowsNext(s: string, i: nat, rows: string)
    requires i < |s|
    ensures var row := TrimReturns(s[i..LineEnd(s, i)]);
      Prefixed(rows, Rows(s, i)) ==
        if row == "\\." then Some((rows, NextLine(s, i))) else Prefixed(rows, Prefixed(row + "\n", Rows(s, NextLine(s, i))))
  {
    assert rows + "" == rows;
  }

  /** Inside or outside a statement, a comment or text is passed, and what never ends
      is the failure. */
  lemma Passes(isCopy: string -> bool, s: string, i: nat, open: Option<nat>)
    requires i < |s| && (open.Some? ==> open.value <= i) && !(LineStart(s, i) && open.None? && s[i] == '\\')
    ensures var t := PieceAt(s, i); var r := Script(isCopy, s, i, open);
      && (t.Open? ==> r == Failed(Lines(s, i), t.what))
      && (t.Comment? ==> r == Script(isCopy, s, t.end, open))
      && (t.Text? ==> r == Script(isCopy, s, t.end, if open.None? && !Space(s[i]) then Some(i) else open))
  {
  }

  lemma PassSemicolon(isCopy: string -> bool, s: string, i: nat)
    requires i < |s| && s[i] == ';'
    ensures Script(isCopy, s, i, None) == Script(isCopy, s, i + 1, None)
  {
  }

  lemma SemicolonLine(s: string, i: nat)
    requires i < |s| && s[i] == ';'
    ensures Lines(s, i + 1) == Lines(s, i)
  {
  }

  lemma LineCounted2(s: string, i: nat)
    requires i <= |s|
    ensures NextLine(s, i) < |s| ==> Lines(s, NextLine(s, i)) == Lines(s, i) + 1
  {
    if i < |s| { LineCounted(s, i); }
  }

  lemma Ends(isCopy: string -> bool, s: string, e: nat, o: nat, found: seq<Command>)
    requires o < e < |s| && s[e] == ';'
    ensures var c := Command(Lines(s, o), TrimRight(s[o..e]), "", None);
      var r := Script(isCopy, s, e, Some(o));
      var rows := Rows(s, NextLine(s, e + 1));
      && (!isCopy(c.sql) ==> After(found, r) == After(found + [c], Script(isCopy, s, e + 1, None)))
      && (isCopy(c.sql) && rows.None? ==> r == Failed(c.line, CopyData))
      && (isCopy(c.sql) && rows.Some? ==>
            After(found, r) == After(found + [c.(copy := Some(rows.value.0))], Script(isCopy, s, rows.value.1, None)))
  {
    hide PieceAt, Rows, TrimRight, Lines;
    var c := Command(Lines(s, o), TrimRight(s[o..e]), "", None);
    var rows := Rows(s, NextLine(s, e + 1));
    if !isCopy(c.sql) {
      AfterThen(found, c, Script(isCopy, s, e + 1, None));
    } else if rows.Some? {
      AfterThen(found, c.(copy := Some(rows.value.0)), Script(isCopy, s, rows.value.1, None));
    }
  }

  function Prefixed(rows: string, rest: Option<(string, nat)>): Option<(string, nat)> {
    if rest.None? then None else Some((rows + rest.value.0, rest.value.1))
  }

  lemma PrefixedMore(rows: string, more: string, rest: Option<(string, nat)>)
    ensures Prefixed(rows, Prefixed(more, rest)) == Prefixed(rows + more, rest)
    ensures Prefixed("", rest) == rest
  {
    if rest.Some? {
      assert rows + (more + rest.value.0) == rows + more + rest.value.0;
      assert "" + rest.value.0 == rest.value.0;
    }
  }

  lemma NotBlank(chunk: string)
    requires chunk != "" && (Space(chunk[0]) ==> |chunk| == 1)
    ensures TrimSpace(chunk) == "" <==> Space(chunk[0])
    ensures !Space(chunk[0]) ==> Leading(chunk) == 0
  {
  }

  lemma {:induction false} NoNewline(chunk: string)
    requires forall k :: 0 <= k < |chunk| ==> chunk[k] != '\n'
    ensures Newlines(chunk) == 0
  {
    if chunk != "" { NoNewline(chunk[..|chunk| - 1]); }
  }

  lemma LineCounted(s: string, i: nat)
    requires i < |s|
    ensures NextLine(s, i) < |s| ==> Lines(s, NextLine(s, i)) == Lines(s, i) + 1
  {
    var e := LineEnd(s, i);
    LinesAdd(s, i, e);
    NoNewline(s[i..e]);
  }

  /** ParsePSQL finds the script's commands, or the line of what never ends. */
  method ParsePSQL(isCopy: string -> bool, src: string) returns (r: Outcome)
    ensures r == Script(isCopy, src, 0, None)
  {
    var p := new Parser(isCopy, src);
    r := p.Run();
  }
}
