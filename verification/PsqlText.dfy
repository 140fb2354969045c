/** What a psql script means (pkg/plex/bootstrap/psql.go): where each piece of text
    ends, and the commands the script holds.  Characters are bytes. */
module PsqlText {
  import opened Options

  /** A statement, a COPY with its rows, or a meta-command; `line` is where it
      starts. */
  datatype Command = Command(line: nat, sql: string, meta: string, copy: Option<string>)

  datatype What = BlockComment | Quote(q: char) | DollarQuote(tag: string) | CopyData

  /** The commands, or the line of what never ends. */
  datatype Outcome = Parsed(cmds: seq<Command>) | Failed(line: nat, what: What)

  // ---------------------------------------------------------------------
  // Characters and lines
  // ---------------------------------------------------------------------

  predicate Space(c: char) { c == ' ' || 9 <= c as int <= 13 }

  predicate Letter(c: char) { c == '_' || 'a' <= c <= 'z' || 'A' <= c <= 'Z' }

  predicate NameChar(c: char) { Letter(c) || '0' <= c <= '9' }

  predicate Ident(c: char) { NameChar(c) || c == '$' || c as int >= 0x80 }

  predicate Blank(s: string) { forall k :: 0 <= k < |s| ==> Space(s[k]) }

  /** The line position i is on, the first being 1. */
  function Lines(s: string, i: nat): (n: nat)
    requires i <= |s|
  {
    if i == 0 then 1 else Lines(s, i - 1) + if s[i - 1] == '\n' then 1 else 0
  }

  function LineEnd(s: string, i: nat): (e: nat)
    requires i <= |s|
    ensures i <= e <= |s| && (e < |s| ==> s[e] == '\n') && forall k :: i <= k < e ==> s[k] != '\n'
    decreases |s| - i
  {
    if i == |s| || s[i] == '\n' then i else LineEnd(s, i + 1)
  }

  predicate LineStart(s: string, i: nat)
    requires i <= |s|
  {
    i == 0 || s[i - 1] == '\n'
  }

  /** strings.TrimRight(s, "\r"). */
  function TrimReturns(s: string): (t: string)
    ensures t <= s && (t != "" ==> t[|t| - 1] != '\r') && forall k :: |t| <= k < |s| ==> s[k] == '\r'
  {
    if s != "" && s[|s| - 1] == '\r' then TrimReturns(s[..|s| - 1]) else s
  }

  /** strings.TrimSpace at the right end. */
  function TrimRight(s: string): (t: string)
    ensures t <= s && (t != "" ==> !Space(t[|t| - 1])) && forall k :: |t| <= k < |s| ==> Space(s[k])
  {
    if s != "" && Space(s[|s| - 1]) then TrimRight(s[..|s| - 1]) else s
  }

  /** strings.TrimSpace. */
  function TrimSpace(s: string): string {
    if s != "" && Space(s[0]) then TrimSpace(s[1..]) else TrimRight(s)
  }

  // ---------------------------------------------------------------------
  // Where comments and quotes end
  // ---------------------------------------------------------------------

  predicate Pair(s: string, i: nat, a: char, b: char) { i + 1 < |s| && s[i] == a && s[i + 1] == b }

  /** The end of the block comments open at j, nested `depth` deep. */
  function BlockEnd(s: string, j: nat, depth: int): (e: Option<nat>)
    requires j <= |s|
    ensures e.Some? ==> j + 2 <= e.value <= |s| && s[e.value - 1] == '/'
    decreases |s| - j
  {
    if j == |s| then None
    else if Pair(s, j, '/', '*') then BlockEnd(s, j + 2, depth + 1)
    else if Pair(s, j, '*', '/') then (if depth == 1 then Some(j + 2) else BlockEnd(s, j + 2, depth - 1))
    else BlockEnd(s, j + 1, depth)
  }

  /** The end of a quote whose inside is read from j. */
  function QuoteEnd(s: string, j: nat, q: char, backslash: bool): (e: Option<nat>)
    ensures e.Some? ==> j + 1 <= e.value <= |s| && s[e.value - 1] == q
    decreases |s| - j
  {
    if j >= |s| then None
    else if backslash && s[j] == '\\' then QuoteEnd(s, j + 2, q, backslash)
    else if Pair(s, j, q, q) then QuoteEnd(s, j + 2, q, backslash)
    else if s[j] == q then Some(j + 1)
    else QuoteEnd(s, j + 1, q, backslash)
  }

  function NameEnd(s: string, j: nat): (e: nat)
    requires j <= |s|
    ensures j <= e <= |s| && (e < |s| ==> !NameChar(s[e])) && forall k :: j <= k < e ==> NameChar(s[k])
    decreases |s| - j
  {
    if j == |s| || !NameChar(s[j]) then j else NameEnd(s, j + 1)
  }

  /** Where the delimiter `$$` or `$tag$` at i ends, or i when there is none. */
  function TagEnd(s: string, i: nat): (e: nat)
    requires i < |s| && s[i] == '$'
    ensures e == i || (i + 2 <= e <= |s| && s[e - 1] == '$')
  {
    var n := NameEnd(s, i + 1);
    if n < |s| && s[n] == '$' && (n == i + 1 || Letter(s[i + 1])) then n + 1 else i
  }

  predicate Occurs(s: string, j: nat, tag: string) { j + |tag| <= |s| && s[j..j + |tag|] == tag }

  /** The first occurrence of tag from j on. */
  function Find(s: string, j: nat, tag: string): (k: Option<nat>)
    ensures k.Some? ==> j <= k.value && Occurs(s, k.value, tag)
    decreases |s| - j
  {
    if j > |s| then None else if Occurs(s, j, tag) then Some(j) else Find(s, j + 1, tag)
  }

  predicate IdentBefore(s: string, i: nat)
    requires i <= |s|
  {
    i > 0 && Ident(s[i - 1])
  }

  /** The quote at i opens an E'' string. */
  predicate EscapeAt(s: string, i: nat)
    requires i <= |s|
  {
    i > 0 && (s[i - 1] == 'E' || s[i - 1] == 'e') && !IdentBefore(s, i - 1)
  }

  // ---------------------------------------------------------------------
  // The next piece of text
  // ---------------------------------------------------------------------

  datatype Piece = Semicolon | Comment(end: nat) | Text(end: nat) | Open(what: What)

  function Closed(e: Option<nat>, what: What): Piece { if e.Some? then Text(e.value) else Open(what) }

  function Dollar(s: string, i: nat): (p: Piece)
    requires i < |s| && s[i] == '$' && TagEnd(s, i) > i
    ensures p.Text? || p.Open?
    ensures p.Text? ==> i + 2 <= p.end <= |s| && s[p.end - 1] == '$'
  {
    var tag := s[i..TagEnd(s, i)];
    var k := Find(s, TagEnd(s, i), tag);
    if k.None? then Open(DollarQuote(tag))
    else
      assert s[k.value + |tag| - 1] == tag[|tag| - 1];
      Text(k.value + |tag|)
  }

  function PieceAt(s: string, i: nat): (p: Piece)
    requires i < |s|
    ensures p.Comment? || p.Text? ==> i < p.end <= |s|
    ensures p.Semicolon? <==> s[i] == ';'
    ensures p.Text? && p.end > i + 1 ==> !Space(s[i]) && !Space(s[p.end - 1])
    ensures p.Comment? ==> !Space(s[i]) && (Pair(s, i, '-', '-') || s[p.end - 1] == '/')
  {
    if Pair(s, i, '-', '-') then Comment(LineEnd(s, i + 2))
    else if Pair(s, i, '/', '*') then
      var e := BlockEnd(s, i, 0);
      if e.Some? then Comment(e.value) else Open(BlockComment)
    else if s[i] == '\'' then Closed(QuoteEnd(s, i + 1, '\'', EscapeAt(s, i)), Quote('\''))
    else if s[i] == '"' then Closed(QuoteEnd(s, i + 1, '"', false), Quote('"'))
    else if s[i] == '$' && !IdentBefore(s, i) && TagEnd(s, i) > i then Dollar(s, i)
    else if s[i] == ';' then Semicolon
    else Text(i + 1)
  }

  // ---------------------------------------------------------------------
  // The script
  // ---------------------------------------------------------------------

  /** Where the line after position i starts. */
  function NextLine(s: string, i: nat): (e: nat)
    requires i <= |s|
    ensures i <= e <= |s| && (i < |s| ==> i < e)
  {
    if LineEnd(s, i) < |s| then LineEnd(s, i) + 1 else |s|
  }

  /** The rows from i to the line `\.`, and where the script goes on. */
  function Rows(s: string, i: nat): (r: Option<(string, nat)>)
    requires i <= |s|
    ensures r.Some? ==> i < r.value.1 <= |s|
    decreases |s| - i
  {
    if i == |s| then None
    else
      var row := TrimReturns(s[i..LineEnd(s, i)]);
      if row == "\\." then Some(("", NextLine(s, i)))
      else
        var rest := Rows(s, NextLine(s, i));
        if rest.None? then None else Some((row + "\n" + rest.value.0, rest.value.1))
  }

  function Then(c: Command, rest: Outcome): Outcome {
    if rest.Parsed? then Parsed([c] + rest.cmds) else rest
  }

  /** The commands from i on, when the text since `open` is a statement's. */
  function Script(isCopy: string -> bool, s: string, i: nat, open: Option<nat>): (r: Outcome)
    requires i <= |s| && (open.Some? ==> open.value <= i)
    decreases |s| - i
  {
    if i == |s| then
      if open.Some? then Parsed([Command(Lines(s, open.value), TrimRight(s[open.value..i]), "", None)]) else Parsed([])
    else if LineStart(s, i) && open.None? && s[i] == '\\' then
      Then(Command(Lines(s, i), "", TrimReturns(s[i..LineEnd(s, i + 1)]), None), Script(isCopy, s, LineEnd(s, i + 1), None))
    else
      match PieceAt(s, i)
      case Open(what) => Failed(Lines(s, i), what)
      case Comment(end) => Script(isCopy, s, end, open)
      case Text(end) => Script(isCopy, s, end, if open.None? && !Space(s[i]) then Some(i) else open)
      case Semicolon =>
        if open.None? then Script(isCopy, s, i + 1, None)
        else
          var c := Command(Lines(s, open.value), TrimRight(s[open.value..i]), "", None);
          if !isCopy(c.sql) then Then(c, Script(isCopy, s, i + 1, None))
          else
            var rows := Rows(s, NextLine(s, i + 1));
            if rows.None? then Failed(c.line, CopyData)
            else Then(c.(copy := Some(rows.value.0)), Script(isCopy, s, rows.value.1, None))
  }
}
