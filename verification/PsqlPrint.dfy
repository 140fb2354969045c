/** Printing the commands of a psql script, and reading them back. */
module PsqlPrint {
  import opened Options
  import opened PsqlText

  /** The statement, newline and semicolon, then a COPY's rows and `\.`. */
  function Print(c: Command): string {
    if c.meta != "" then c.meta + "\n"
    else c.sql + "\n;\n" + if c.copy.Some? then c.copy.value + "\\.\n" else ""
  }

  function PrintAll(cs: seq<Command>): string {
    if cs == [] then "" else Print(cs[0]) + PrintAll(cs[1..])
  }

  // ---------------------------------------------------------------------
  // Text moved to another place
  // ---------------------------------------------------------------------

  /** The text s[lo..b] stands at distance d in p, ending its line there; in s a space,
      a semicolon or the end follows it. */
  ghost predicate Moved(s: string, p: string, d: int, lo: nat, b: nat) {
    && lo <= b <= |s| && 0 <= lo + d && b + d < |p| && p[b + d] == '\n'
    && (b < |s| ==> Space(s[b]) || s[b] == ';')
    && forall k :: lo <= k < b ==> s[k] == p[k + d]
  }

  lemma PairMoves(s: string, p: string, d: int, lo: nat, b: nat, j: nat, x: char, y: char)
    requires Moved(s, p, d, lo, b) && lo <= j < b && !Space(y) && y != ';'
    ensures 0 <= j + d < |p| && s[j] == p[j + d] && Pair(s, j, x, y) == Pair(p, j + d, x, y)
    ensures Pair(s, j, x, y) ==> j + 2 <= b
  {
  }

  lemma Moves(s: string, p: string, d: int, lo: nat, b: nat)
    requires Moved(s, p, d, lo, b)
    ensures lo <= b <= |s| && 0 <= lo + d && b + d < |p|
  {
  }

  lemma {:induction false} BlockMoves(s: string, p: string, d: int, lo: nat, b: nat, j: nat, depth: int)
    requires Moved(s, p, d, lo, b) && lo <= j <= |s|
    requires BlockEnd(s, j, depth).Some? && BlockEnd(s, j, depth).value <= b
    ensures BlockEnd(p, j + d, depth) == Some(BlockEnd(s, j, depth).value + d)
    decreases |s| - j
  {
    Moves(s, p, d, lo, b);
    hide Moved, Pair;
    PairMoves(s, p, d, lo, b, j, '/', '*');
    PairMoves(s, p, d, lo, b, j, '*', '/');
    if Pair(s, j, '/', '*') {
      BlockMoves(s, p, d, lo, b, j + 2, depth + 1);
    } else if Pair(s, j, '*', '/') {
      if depth != 1 { BlockMoves(s, p, d, lo, b, j + 2, depth - 1); }
    } else {
      BlockMoves(s, p, d, lo, b, j + 1, depth);
    }
  }

  lemma {:induction false} QuoteMoves(s: string, p: string, d: int, lo: nat, b: nat, j: nat, q: char, backslash: bool)
    requires Moved(s, p, d, lo, b) && lo <= j && (q == '\'' || q == '"')
    requires QuoteEnd(s, j, q, backslash).Some? && QuoteEnd(s, j, q, backslash).value <= b
    ensures QuoteEnd(p, j + d, q, backslash) == Some(QuoteEnd(s, j, q, backslash).value + d)
    decreases |s| - j
  {
    Moves(s, p, d, lo, b);
    hide Moved, Pair;
    PairMoves(s, p, d, lo, b, j, q, q);
    if backslash && s[j] == '\\' {
      QuoteMoves(s, p, d, lo, b, j + 2, q, backslash);
    } else if Pair(s, j, q, q) {
      QuoteMoves(s, p, d, lo, b, j + 2, q, backslash);
    } else if s[j] != q {
      QuoteMoves(s, p, d, lo, b, j + 1, q, backslash);
    }
  }

  lemma {:induction false} NameMoves(s: string, p: string, d: int, lo: nat, b: nat, j: nat)
    requires Moved(s, p, d, lo, b) && lo <= j <= b
    ensures NameEnd(s, j) <= b && NameEnd(p, j + d) == NameEnd(s, j) + d
    decreases b - j
  {
    if j < b && NameChar(s[j]) { NameMoves(s, p, d, lo, b, j + 1); }
  }

  lemma TagMoves(s: string, p: string, d: int, lo: nat, b: nat, i: nat)
    requires Moved(s, p, d, lo, b) && lo <= i < b && s[i] == '$'
    ensures TagEnd(s, i) <= b && TagEnd(p, i + d) == TagEnd(s, i) + d
  {
    NameMoves(s, p, d, lo, b, i + 1);
  }

  lemma {:induction false} FindMoves(s: string, p: string, d: int, lo: nat, b: nat, j: nat, tag: string)
    requires Moved(s, p, d, lo, b) && lo <= j && Find(s, j, tag).Some? && Find(s, j, tag).value + |tag| <= b
    ensures Find(p, j + d, tag) == Some(Find(s, j, tag).value + d)
    decreases |s| - j
  {
    assert s[j..j + |tag|] == p[j + d..j + d + |tag|];
    if !Occurs(s, j, tag) { FindMoves(s, p, d, lo, b, j + 1, tag); }
  }

  lemma BehindMoves(s: string, p: string, d: int, lo: nat, b: nat, i: nat)
    requires Moved(s, p, d, lo, b) && lo <= i <= b && !IdentBefore(s, lo) && !IdentBefore(p, lo + d)
    ensures IdentBefore(s, i) == IdentBefore(p, i + d) && EscapeAt(s, i) == EscapeAt(p, i + d)
  {
  }

  lemma {:induction false} LineMoves(s: string, p: string, d: int, lo: nat, b: nat, j: nat)
    requires Moved(s, p, d, lo, b) && lo <= j <= b
    ensures LineEnd(p, j + d) == (if LineEnd(s, j) <= b then LineEnd(s, j) else b) + d
    decreases b - j
  {
    if j < b && s[j] != '\n' { LineMoves(s, p, d, lo, b, j + 1); }
  }

  lemma DollarMoves(s: string, p: string, d: int, lo: nat, b: nat, i: nat)
    requires Moved(s, p, d, lo, b) && lo <= i < b && s[i] == '$' && TagEnd(s, i) > i
    requires Dollar(s, i).Text? && Dollar(s, i).end <= b
    ensures p[i + d] == '$' && TagEnd(p, i + d) > i + d && Dollar(p, i + d) == Text(Dollar(s, i).end + d)
  {
    hide TagEnd, Find;
    TagMoves(s, p, d, lo, b, i);
    var tag := s[i..TagEnd(s, i)];
    assert p[i + d..TagEnd(p, i + d)] == tag;
    FindMoves(s, p, d, lo, b, TagEnd(s, i), tag);
  }

  function Shift(piece: Piece, b: nat, d: int): Piece
    requires 0 <= b + d && (piece.Text? || piece.Comment? ==> 0 <= piece.end + d)
  {
    match piece
    case Text(end) => Text((if end <= b then end else b) + d)
    case Comment(end) => Comment((if end <= b then end else b) + d)
    case _ => piece
  }

  /** A piece that ends within the text, or a line comment, is the same piece where
      the text was moved to. */
  lemma PieceMoves(s: string, p: string, d: int, lo: nat, b: nat, i: nat)
    requires Moved(s, p, d, lo, b) && lo <= i < b && !IdentBefore(s, lo) && !IdentBefore(p, lo + d)
    requires var t := PieceAt(s, i); (t.Text? && t.end <= b) || (t.Comment? && (t.end <= b || Pair(s, i, '-', '-')))
    ensures PieceAt(p, i + d) == Shift(PieceAt(s, i), b, d)
  {
    hide LineEnd, BlockEnd, QuoteEnd, Dollar, TagEnd, IdentBefore, EscapeAt, Pair, Moved;
    BehindMoves(s, p, d, lo, b, i);
    PairMoves(s, p, d, lo, b, i, '-', '-');
    PairMoves(s, p, d, lo, b, i, '/', '*');
    Moves(s, p, d, lo, b);
    if Pair(s, i, '-', '-') {
      LineMoves(s, p, d, lo, b, i + 2);
    } else if Pair(s, i, '/', '*') {
      BlockMoves(s, p, d, lo, b, i, 0);
    } else if s[i] == '\'' {
      QuoteMoves(s, p, d, lo, b, i + 1, '\'', EscapeAt(s, i));
    } else if s[i] == '"' {
      QuoteMoves(s, p, d, lo, b, i + 1, '"', false);
    } else if s[i] == '$' && !IdentBefore(s, i) {
      TagMoves(s, p, d, lo, b, i);
      if TagEnd(s, i) > i { DollarMoves(s, p, d, lo, b, i); }
    }
  }

  // ---------------------------------------------------------------------
  // Statements
  // ---------------------------------------------------------------------

  /** The pieces from i on reach b, no semicolon among them. */
  predicate Reaches(s: string, i: nat, b: nat)
    requires i <= b <= |s|
    decreases b - i
  {
    i == b || (var t := PieceAt(s, i); (t.Text? || t.Comment?) && t.end <= b && Reaches(s, t.end, b))
  }

  lemma {:induction false} ReachesOn(s: string, o: nat, i: nat)
    requires o <= i < |s| && Reaches(s, o, i)
    requires PieceAt(s, i).Text? || PieceAt(s, i).Comment?
    ensures Reaches(s, o, PieceAt(s, i).end)
    decreases i - o
  {
    hide PieceAt;
    if o == i {
      assert Reaches(s, PieceAt(s, i).end, PieceAt(s, i).end);
    } else {
      ReachesOn(s, PieceAt(s, o).end, i);
    }
  }

  /** Text whose pieces reach i, less the blank at its end, reaches its end where it
      was moved to. */
  lemma {:induction false} ReachesMoves(s: string, p: string, d: int, lo: nat, b: nat, at: nat, i: nat)
    requires Moved(s, p, d, lo, b) && lo <= at <= b <= i <= |s| && !IdentBefore(s, lo) && !IdentBefore(p, lo + d)
    requires Reaches(s, at, i) && forall k :: b <= k < i ==> Space(s[k])
    ensures Reaches(p, at + d, b + d)
    decreases i - at
  {
    hide PieceAt, IdentBefore;
    if at < b {
      var t := PieceAt(s, at);
      assert t.end > b ==> Space(s[t.end - 1]);
      PieceMoves(s, p, d, lo, b, at);
      if t.end <= b {
        ReachesMoves(s, p, d, lo, b, t.end, i);
      } else {
        assert Reaches(p, b + d, b + d);
      }
    }
  }

  /** Text that begins and ends with more than blank, whose pieces end where it does. */
  ghost predicate Statement(sql: string) {
    && sql != "" && !Space(sql[0]) && !Space(sql[|sql| - 1])
    && Reaches(sql + "\n;", 0, |sql|) && PieceAt(sql + "\n;", 0).Text?
  }

  /** A statement read in a script, trimmed. */
  lemma ReadStatement(s: string, o: nat, i: nat)
    requires o < i <= |s| && Reaches(s, o, i) && !Space(s[o]) && PieceAt(s, o).Text? && !IdentBefore(s, o)
    requires i < |s| ==> s[i] == ';'
    ensures Statement(TrimRight(s[o..i]))
  {
    hide PieceAt, Reaches, TrimRight, Moved, IdentBefore;
    var sql := TrimRight(s[o..i]);
    var b, d: int := o + |sql|, 0 - o;
    Trimmed(s, o, i);
    StartApart(sql + "\n;");
    ReachesMoves(s, sql + "\n;", d, o, b, o, i);
    FirstEnds(s, o, i, b);
    PieceMoves(s, sql + "\n;", d, o, b, o);
  }

  lemma StartApart(p: string)
    ensures !IdentBefore(p, 0)
  {
  }

  /** The first piece ends before the blank that is trimmed. */
  lemma FirstEnds(s: string, o: nat, i: nat, b: nat)
    requires o < b <= i <= |s| && Reaches(s, o, i) && PieceAt(s, o).Text? && forall k :: b <= k < i ==> Space(s[k])
    ensures PieceAt(s, o).end <= b
  {
  }

  lemma Trimmed(s: string, o: nat, i: nat)
    requires o < i <= |s| && !Space(s[o]) && (i < |s| ==> s[i] == ';')
    ensures var sql := TrimRight(s[o..i]); var b := o + |sql|;
      && sql != "" && !Space(sql[0]) && !Space(sql[|sql| - 1]) && b <= i && (forall k :: b <= k < i ==> Space(s[k]))
      && Moved(s, sql + "\n;", 0 - o, o, b)
  {
  }

  /** A statement printed at the start of a line is lexed there as it was. */
  lemma PrintedStatement(p: string, k: nat, sql: string)
    requires Statement(sql) && k + |sql| + 2 <= |p| && p[k..k + |sql| + 2] == sql + "\n;" && LineStart(p, k)
    ensures Reaches(p, k, k + |sql|) && PieceAt(p, k).Text?
    ensures p[k] == sql[0] && p[k + |sql|] == '\n' && p[k + |sql| + 1] == ';' && p[k..k + |sql|] == sql
  {
    var s := sql + "\n;";
    var n := |sql|;
    forall i | 0 <= i < n ensures s[i] == p[i + k] { assert p[k..k + n + 2][i] == p[i + k]; }
    assert p[k + n] == p[k..k + n + 2][n] && p[k + n + 1] == p[k..k + n + 2][n + 1];
    assert p[k..k + n] == p[k..k + n + 2][..n] == sql;
    assert Moved(s, p, k, 0, n);
    ReachesMoves(s, p, k, 0, n, 0, n);
    PieceMoves(s, p, k, 0, n, 0);
  }

  /** Inside a statement the pieces are passed over. */
  lemma {:induction false} ScriptReaches(isCopy: string -> bool, s: string, i: nat, b: nat, o: nat)
    requires o <= i <= b <= |s| && Reaches(s, i, b)
    ensures Script(isCopy, s, i, Some(o)) == Script(isCopy, s, b, Some(o))
    decreases b - i
  {
    hide PieceAt;
    if i < b { ScriptReaches(isCopy, s, PieceAt(s, i).end, b, o); }
  }

  // ---------------------------------------------------------------------
  // Commands
  // ---------------------------------------------------------------------

  /** Lines of a COPY, none of them its end. */
  predicate RowsText(r: string) {
    r == "" ||
    (var e := LineEnd(r, 0);
     e < |r| && TrimReturns(r[..e]) == r[..e] && r[..e] != "\\." && RowsText(r[e + 1..]))
  }

  lemma {:induction false} ReadRows(s: string, i: nat)
    requires i <= |s| && Rows(s, i).Some?
    ensures RowsText(Rows(s, i).value.0)
    decreases |s| - i
  {
    var row := TrimReturns(s[i..LineEnd(s, i)]);
    if row != "\\." {
      var rest := Rows(s, NextLine(s, i)).value.0;
      ReadRows(s, NextLine(s, i));
      var r := row + "\n" + rest;
      FirstLine(row, rest);
      assert r[..|row|] == row && r[|row| + 1..] == rest;
      assert TrimReturns(row) == row;
    }
  }

  lemma FirstLine(row: string, rest: string)
    requires forall k :: 0 <= k < |row| ==> row[k] != '\n'
    ensures LineEnd(row + "\n" + rest, 0) == |row|
  {
    var r := row + "\n" + rest;
    var e := LineEnd(r, 0);
    assert r[|row|] == '\n';
    assert forall k :: 0 <= k < |row| ==> r[k] == row[k];
  }

  /** The line `row` at j of p. */
  lemma RowsStep(p: string, j: nat, row: string)
    requires j + |row| + 1 <= |p| && p[j..j + |row| + 1] == row + "\n"
    requires TrimReturns(row) == row && forall k :: 0 <= k < |row| ==> row[k] != '\n'
    ensures row == "\\." ==> Rows(p, j) == Some(("", j + |row| + 1))
    ensures var rest := Rows(p, j + |row| + 1);
      row != "\\." && rest.Some? ==> Rows(p, j) == Some((row + "\n" + rest.value.0, rest.value.1))
  {
    var e := j + |row|;
    var text := p[j..e + 1];
    assert forall k :: j <= k <= e ==> p[k] == text[k - j];
    assert p[j..e] == text[..|row|] == row;
    LineEndIs(p, j, e);
  }

  lemma {:induction false} PrintedRows(p: string, j: nat, r: string)
    requires RowsText(r) && j + |r| + 3 <= |p| && p[j..j + |r| + 3] == r + "\\.\n"
    ensures Rows(p, j) == Some((r, j + |r| + 3))
    decreases |r|
  {
    hide Rows, TrimReturns, RowsText;
    if r == "" {
      assert p[j..j + 3] == "\\." + "\n";
      TrimDot();
      RowsStep(p, j, "\\.");
    } else {
      var row, rest := RowsFirst(r);
      var n := |row| + 1;
      SliceOf(p, j, j + |r| + 3, n);
      Tail(row + "\n", rest + "\\.\n");
      assert r + "\\.\n" == (row + "\n") + (rest + "\\.\n");
      PrintedRows(p, j + n, rest);
      RowsStep(p, j, row);
    }
  }

  lemma RowsFirst(r: string) returns (row: string, rest: string)
    requires RowsText(r) && r != ""
    ensures r == row + "\n" + rest && RowsText(rest) && row != "\\." && TrimReturns(row) == row
    ensures forall k :: 0 <= k < |row| ==> row[k] != '\n'
  {
    var e := LineEnd(r, 0);
    row, rest := r[..e], r[e + 1..];
  }

  lemma Tail(a: string, b: string)
    ensures (a + b)[..|a|] == a && (a + b)[|a|..] == b
  {
  }

  lemma SliceOf(p: string, a: nat, b: nat, n: nat)
    requires a + n <= b <= |p|
    ensures p[a..b][..n] == p[a..a + n] && p[a..b][n..] == p[a + n..b]
  {
  }

  lemma TrimDot()
    ensures TrimReturns("\\.") == "\\."
  {
  }

  lemma LineEndIs(s: string, i: nat, e: nat)
    requires i <= e < |s| && s[e] == '\n' && forall k :: i <= k < e ==> s[k] != '\n'
    ensures LineEnd(s, i) == e && NextLine(s, i) == e + 1
  {
  }

  /** What a parse makes: a meta-command of one line, or a statement, with rows when
      it is a COPY. */
  ghost predicate Proper(isCopy: string -> bool, c: Command) {
    if c.meta != "" then
      && c.sql == "" && c.copy == None && c.meta[0] == '\\' && TrimReturns(c.meta) == c.meta
      && forall k :: 0 <= k < |c.meta| ==> c.meta[k] != '\n'
    else Statement(c.sql) && (c.copy.Some? ==> isCopy(c.sql) && RowsText(c.copy.value))
  }

  /** Printed so that it can be read back: no statement begins with a backslash, and
      every COPY has its rows. */
  ghost predicate Readable(isCopy: string -> bool, c: Command) {
    c.meta == "" ==> c.sql != "" && c.sql[0] != '\\' && (isCopy(c.sql) ==> c.copy.Some?)
  }

  /** The commands, line numbers aside. */
  function Bare(cs: seq<Command>): (r: seq<Command>)
    ensures |r| == |cs|
  {
    seq(|cs|, i requires 0 <= i < |cs| => cs[i].(line := 0))
  }

  ghost predicate Same(r: Outcome, cs: seq<Command>) { r.Parsed? && Bare(r.cmds) == Bare(cs) }

  lemma SameThen(c: Command, d: Command, r: Outcome, cs: seq<Command>)
    requires c.(line := 0) == d.(line := 0)
    ensures Same(Then(c, r), [d] + cs) <==> Same(r, cs)
  {
    if r.Parsed? {
      assert Bare([c] + r.cmds) == [c.(line := 0)] + Bare(r.cmds);
      assert Bare([d] + cs) == [d.(line := 0)] + Bare(cs);
      assert ([c.(line := 0)] + Bare(r.cmds))[1..] == Bare(r.cmds);
      assert ([d.(line := 0)] + Bare(cs))[1..] == Bare(cs);
    }
  }

  // ---------------------------------------------------------------------
  // Reading what was printed
  // ---------------------------------------------------------------------

  lemma NewlinePassed(isCopy: string -> bool, p: string, i: nat, open: Option<nat>)
    requires i < |p| && p[i] == '\n' && (open.Some? ==> open.value <= i)
    ensures Script(isCopy, p, i, open) == Script(isCopy, p, i + 1, open)
  {
  }

  /** A line that begins with a backslash, outside a statement. */
  lemma MetaReads(isCopy: string -> bool, p: string, k: nat, m: string)
    requires k + |m| + 1 <= |p| && p[k..k + |m| + 1] == m + "\n" && LineStart(p, k)
    requires m != "" && m[0] == '\\' && TrimReturns(m) == m && forall i :: 0 <= i < |m| ==> m[i] != '\n'
    ensures Script(isCopy, p, k, None) == Then(Command(Lines(p, k), "", m, None), Script(isCopy, p, k + |m| + 1, None))
  {
    LineText(p, k, m);
    NewlinePassed(isCopy, p, k + |m|, None);
    hide PieceAt, TrimReturns, Lines;
  }

  lemma LineText(p: string, k: nat, m: string)
    requires k + |m| + 1 <= |p| && p[k..k + |m| + 1] == m + "\n"
    requires m != "" && forall i :: 0 <= i < |m| ==> m[i] != '\n'
    ensures p[k] == m[0] && p[k + |m|] == '\n' && p[k..k + |m|] == m && LineEnd(p, k + 1) == k + |m|
  {
    var e := k + |m|;
    SliceOf(p, k, e + 1, |m|);
    Tail(m, "\n");
    assert forall i :: k <= i < e ==> p[i] == p[k..e][i - k];
    assert p[e] == p[k..e + 1][|m|];
    LineEndIs(p, k + 1, e);
  }

  /** A statement that begins a line is read up to its semicolon. */
  lemma StatementReads(isCopy: string -> bool, p: string, k: nat, b: nat)
    requires k < b < |p| && Reaches(p, k, b) && PieceAt(p, k).Text? && p[b] == '\n'
    requires p[k] != '\\' && !Space(p[k])
    ensures Script(isCopy, p, k, None) == Script(isCopy, p, b + 1, Some(k))
  {
    hide Reaches, PieceAt, Script;
    FirstPiece(p, k, b);
    Enters(isCopy, p, k);
    ScriptReaches(isCopy, p, PieceAt(p, k).end, b, k);
    NewlinePassed(isCopy, p, b, Some(k));
  }

  lemma LastLine(p: string, k: nat, sql: string)
    requires k + |sql| + 1 <= |p| && p[k..k + |sql|] == sql && p[k + |sql|] == '\n'
    ensures p[k..k + |sql| + 1] == sql + "\n"
  {
  }

  lemma Enters(isCopy: string -> bool, p: string, k: nat)
    requires k < |p| && !(LineStart(p, k) && p[k] == '\\') && !Space(p[k]) && PieceAt(p, k).Text?
    ensures Script(isCopy, p, k, None) == Script(isCopy, p, PieceAt(p, k).end, Some(k))
  {
  }

  lemma StatementIs(sql: string)
    requires Statement(sql)
    ensures sql != "" && !Space(sql[0]) && !Space(sql[|sql| - 1])
  {
  }

  lemma FirstPiece(p: string, k: nat, b: nat)
    requires k < b <= |p| && Reaches(p, k, b) && PieceAt(p, k).Text?
    ensures PieceAt(p, k).end <= b && Reaches(p, PieceAt(p, k).end, b)
  {
  }

  lemma TrimNewline(sql: string)
    requires sql != "" && !Space(sql[|sql| - 1])
    ensures TrimRight(sql + "\n") == sql
  {
  }

  /** A printed statement, read: the command, and its rows when it is a COPY. */
  lemma SqlReads(isCopy: string -> bool, p: string, k: nat, sql: string)
    requires Statement(sql) && k + |sql| + 3 <= |p| && p[k..k + |sql| + 3] == sql + "\n;\n" && LineStart(p, k)
    requires sql[0] != '\\'
    ensures var c := Command(Lines(p, k), sql, "", None);
      var next := k + |sql| + 3;
      Script(isCopy, p, k, None) ==
        if !isCopy(sql) then Then(c, Script(isCopy, p, next, None))
        else if Rows(p, next).None? then Failed(c.line, CopyData)
        else Then(c.(copy := Some(Rows(p, next).value.0)), Script(isCopy, p, Rows(p, next).value.1, None))
  {
    hide *;
    StatementIs(sql);
    SqlText(p, k, sql);
    PrintedStatement(p, k, sql);
    StatementReads(isCopy, p, k, k + |sql|);
    LastLine(p, k, sql);
    TrimNewline(sql);
    SemicolonReads(isCopy, p, k, k + |sql| + 1);
  }

  lemma SqlText(p: string, k: nat, sql: string)
    requires k + |sql| + 3 <= |p| && p[k..k + |sql| + 3] == sql + "\n;\n"
    ensures p[k..k + |sql| + 2] == sql + "\n;" && p[k + |sql| + 2] == '\n'
  {
    SliceOf(p, k, k + |sql| + 3, |sql| + 2);
    assert sql + "\n;\n" == (sql + "\n;") + "\n";
    Tail(sql + "\n;", "\n");
    assert p[k + |sql| + 2] == p[k..k + |sql| + 3][|sql| + 2];
  }

  lemma SemicolonReads(isCopy: string -> bool, p: string, k: nat, e: nat)
    requires k < e < |p| - 1 && p[e] == ';' && p[e + 1] == '\n'
    ensures var c := Command(Lines(p, k), TrimRight(p[k..e]), "", None);
      var next := e + 2;
      Script(isCopy, p, e, Some(k)) ==
        if !isCopy(c.sql) then Then(c, Script(isCopy, p, next, None))
        else if Rows(p, next).None? then Failed(c.line, CopyData)
        else Then(c.(copy := Some(Rows(p, next).value.0)), Script(isCopy, p, Rows(p, next).value.1, None))
  {
    hide Rows, TrimRight, Lines, PieceAt;
    LineEndIs(p, e + 1, e + 1);
    NewlinePassed(isCopy, p, e + 1, None);
  }

  // ---------------------------------------------------------------------
  // Round trips
  // ---------------------------------------------------------------------

  /** Where no identifier can run into the text. */
  predicate Apart(s: string, i: nat)
    requires i <= |s|
  {
    i == |s| || !IdentBefore(s, i) || s[i] == '\n'
  }

  ghost predicate Reading(s: string, i: nat, open: Option<nat>)
    requires i <= |s|
  {
    if open.None? then Apart(s, i)
    else open.value < i && Reaches(s, open.value, i) && !Space(s[open.value]) && PieceAt(s, open.value).Text? && !IdentBefore(s, open.value)
  }

  /** A parse makes only proper commands. */
  lemma {:induction false} ParseIsProper(isCopy: string -> bool, s: string, i: nat, open: Option<nat>)
    requires i <= |s| && Reading(s, i, open)
    ensures var r := Script(isCopy, s, i, open); r.Parsed? ==> forall c :: c in r.cmds ==> Proper(isCopy, c)
    decreases |s| - i
  {
    hide PieceAt, Rows, Lines, TrimRight, TrimReturns, Statement, RowsText, Reaches;
    if i == |s| {
      if open.Some? { ReadStatement(s, open.value, i); }
    } else if LineStart(s, i) && open.None? && s[i] == '\\' {
      MetaIsProper(isCopy, s, i);
      ParseIsProper(isCopy, s, LineEnd(s, i + 1), None);
    } else {
      var t := PieceAt(s, i);
      if t.Text? || t.Comment? {
        Continues(s, i, open);
        ParseIsProper(isCopy, s, t.end, if t.Text? && open.None? && !Space(s[i]) then Some(i) else open);
      } else if t.Semicolon? {
        if open.None? {
          ParseIsProper(isCopy, s, i + 1, None);
        } else {
          ReadStatement(s, open.value, i);
          if !isCopy(TrimRight(s[open.value..i])) {
            ParseIsProper(isCopy, s, i + 1, None);
          } else if Rows(s, NextLine(s, i + 1)).Some? {
            ReadRows(s, NextLine(s, i + 1));
            RowsApart(s, NextLine(s, i + 1));
            ParseIsProper(isCopy, s, Rows(s, NextLine(s, i + 1)).value.1, None);
          }
        }
      }
    }
  }

  lemma MetaIsProper(isCopy: string -> bool, s: string, i: nat)
    requires i < |s| && s[i] == '\\'
    ensures var m := TrimReturns(s[i..LineEnd(s, i + 1)]);
      m != "" && forall line: nat :: Proper(isCopy, Command(line, "", m, None))
    ensures Apart(s, LineEnd(s, i + 1))
  {
  }

  lemma Continues(s: string, i: nat, open: Option<nat>)
    requires i < |s| && Reading(s, i, open) && (PieceAt(s, i).Text? || PieceAt(s, i).Comment?)
    ensures var t := PieceAt(s, i);
      Reading(s, t.end, if t.Text? && open.None? && !Space(s[i]) then Some(i) else open)
  {
    var t := PieceAt(s, i);
    if open.Some? {
      ReachesOn(s, open.value, i);
    } else if t.Text? && !Space(s[i]) {
      ReachesOn(s, i, i);
    }
  }

  lemma {:induction false} RowsApart(s: string, i: nat)
    requires i <= |s| && Rows(s, i).Some?
    ensures Apart(s, Rows(s, i).value.1)
    decreases |s| - i
  {
    if TrimReturns(s[i..LineEnd(s, i)]) != "\\." { RowsApart(s, NextLine(s, i)); }
  }

  /** The text from k on, cut after its first part. */
  lemma Cut(p: string, k: nat, a: string, b: string)
    requires k <= |p| && p[k..] == a + b
    ensures k + |a| <= |p| && p[k..k + |a|] == a && p[k + |a|..] == b
  {
  }

  /** After text that ends its line, a line starts. */
  lemma Lined(p: string, k: nat, a: string)
    requires k + |a| <= |p| && p[k..k + |a|] == a && a != "" && a[|a| - 1] == '\n'
    ensures LineStart(p, k + |a|)
  {
  }

  /** A proper command that can be read back is, and the reading goes on after it. */
  lemma CommandReads(isCopy: string -> bool, p: string, k: nat, c: Command, more: string)
    requires k <= |p| && LineStart(p, k) && p[k..] == Print(c) + more && Proper(isCopy, c) && Readable(isCopy, c)
    ensures k + |Print(c)| <= |p| && LineStart(p, k + |Print(c)|) && p[k + |Print(c)|..] == more
    ensures Script(isCopy, p, k, None) == Then(c.(line := Lines(p, k)), Script(isCopy, p, k + |Print(c)|, None))
  {
    hide Script, Statement, RowsText, TrimReturns, Rows, Lines, LineStart;
    Cut(p, k, Print(c), more);
    Lined(p, k, Print(c));
    if c.meta != "" {
      MetaReads(isCopy, p, k, c.meta);
    } else {
      var head := c.sql + "\n;\n";
      var tail := if c.copy.Some? then c.copy.value + "\\.\n" else "";
      assert Print(c) + more == head + (tail + more);
      Cut(p, k, head, tail + more);
      SqlReads(isCopy, p, k, c.sql);
      if c.copy.Some? {
        Cut(p, k + |head|, tail, more);
        PrintedRows(p, k + |head|, c.copy.value);
      }
    }
  }

  /** A statement that begins with a backslash is not read back as a statement, and a
      COPY without rows takes what follows it for rows. */
  lemma UnreadableReads(isCopy: string -> bool, p: string, k: nat, c: Command, cs: seq<Command>)
    requires k <= |p| && LineStart(p, k) && p[k..] == Print(c) + PrintAll(cs) && Proper(isCopy, c) && !Readable(isCopy, c)
    ensures !Same(Script(isCopy, p, k, None), [c] + cs)
  {
    hide *;
    PrintHead(isCopy, p, k, c, PrintAll(cs));
    var r := Script(isCopy, p, k, None);
    if c.sql[0] == '\\' {
      BackslashReads(isCopy, p, k);
    } else {
      SqlReads(isCopy, p, k, c.sql);
      ThenFirst(Command(Lines(p, k), c.sql, "", None), p, k + |c.sql| + 3, isCopy);
    }
    Differs(r, c, cs);
  }

  lemma PrintHead(isCopy: string -> bool, p: string, k: nat, c: Command, more: string)
    requires k <= |p| && p[k..] == Print(c) + more && Proper(isCopy, c) && !Readable(isCopy, c)
    ensures k + |c.sql| + 3 <= |p| && p[k..k + |c.sql| + 3] == c.sql + "\n;\n"
    ensures Statement(c.sql) && c.sql != "" && p[k] == c.sql[0]
    ensures c.sql[0] == '\\' || (isCopy(c.sql) && c.copy.None?)
  {
  }

  lemma BackslashReads(isCopy: string -> bool, p: string, k: nat)
    requires k < |p| && LineStart(p, k) && p[k] == '\\'
    ensures var r := Script(isCopy, p, k, None); r.Parsed? ==> |r.cmds| > 0 && r.cmds[0].sql == ""
  {
  }

  lemma ThenFirst(c: Command, p: string, next: nat, isCopy: string -> bool)
    requires next <= |p| && isCopy(c.sql)
    ensures var rows := Rows(p, next);
      rows.Some? ==>
        var r := Then(c.(copy := Some(rows.value.0)), Script(isCopy, p, rows.value.1, None));
        r.Parsed? ==> |r.cmds| > 0 && r.cmds[0].copy.Some?
  {
  }

  lemma Differs(r: Outcome, c: Command, cs: seq<Command>)
    requires r.Parsed? ==> |r.cmds| > 0 && (r.cmds[0].sql != c.sql || r.cmds[0].copy != c.copy)
    ensures !Same(r, [c] + cs)
  {
    assert r.Parsed? ==> Bare(r.cmds)[0] == r.cmds[0].(line := 0);
    assert Bare([c] + cs)[0] == c.(line := 0);
  }

  /** Printed commands are read back, line numbers aside, exactly when none is a
      statement that begins with a backslash or a COPY without its rows. */
  lemma {:induction false} PrintedIsRead(isCopy: string -> bool, p: string, k: nat, cs: seq<Command>)
    requires k <= |p| && LineStart(p, k) && p[k..] == PrintAll(cs) && forall c :: c in cs ==> Proper(isCopy, c)
    ensures Same(Script(isCopy, p, k, None), cs) <==> forall c :: c in cs ==> Readable(isCopy, c)
    decreases |cs|
  {
    hide Script, Proper, Readable, LineStart, Same, Print;
    if cs == [] {
      Nothing(isCopy, p, k);
    } else {
      var c, rest := cs[0], cs[1..];
      assert cs == [c] + rest;
      if Readable(isCopy, c) {
        CommandReads(isCopy, p, k, c, PrintAll(rest));
        PrintedIsRead(isCopy, p, k + |Print(c)|, rest);
        SameThen(c.(line := Lines(p, k)), c, Script(isCopy, p, k + |Print(c)|, None), rest);
      } else {
        UnreadableReads(isCopy, p, k, c, rest);
      }
    }
  }

  lemma Nothing(isCopy: string -> bool, p: string, k: nat)
    requires k == |p|
    ensures Same(Script(isCopy, p, k, None), [])
  {
  }

  /** ParsePSQL. */
  function Parse(isCopy: string -> bool, s: string): Outcome { Script(isCopy, s, 0, None) }

  /** Parsing, printing and parsing again gives the same commands, line numbers aside,
      exactly when no statement begins with a backslash and every COPY has its rows. */
  lemma RoundTrip(isCopy: string -> bool, s: string)
    requires Parse(isCopy, s).Parsed?
    ensures var cs := Parse(isCopy, s).cmds;
      Same(Parse(isCopy, PrintAll(cs)), cs) <==>
      forall c :: c in cs ==> Readable(isCopy, c)
  {
    ParseIsProper(isCopy, s, 0, None);
    var cs := Parse(isCopy, s).cmds;
    var p := PrintAll(cs);
    assert p[0..] == p;
    PrintedIsRead(isCopy, p, 0, cs);
  }
}
