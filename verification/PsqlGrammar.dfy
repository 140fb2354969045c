/** What a psql script is written as, piece by piece, and that it is read so
    (pkg/plex/bootstrap/psql.go). */
module PsqlGrammar {
  import opened Options
  import opened PsqlText
  import opened PsqlPrint

  // ---------------------------------------------------------------------
  // The parts of a statement
  // ---------------------------------------------------------------------

  predicate OneLine(text: string) { forall k :: 0 <= k < |text| ==> text[k] != '\n' }

  /** What is inside a quote: a character, the quote doubled, or an escaped character. */
  datatype Mark = Ch(c: char) | Twice | Slash(c: char)

  /** What is inside a block comment: characters and comments within. */
  datatype Note = Done | Next(c: char, rest: Note) | Nested(inner: Note, rest: Note)

  datatype Part =
    | Plain(c: char)
    | Quoted(q: char, marks: seq<Mark>)
    | Escaped(e: char, marks: seq<Mark>)
    | Dollars(name: string, body: string)
    | Block(note: Note)
    | Line(text: string)

  function MarkText(q: char, m: Mark): (t: string)
    ensures 1 <= |t| <= 2
  {
    match m case Ch(c) => [c] case Twice => [q, q] case Slash(c) => ['\\', c]
  }

  function MarksText(q: char, marks: seq<Mark>): string {
    if marks == [] then "" else MarkText(q, marks[0]) + MarksText(q, marks[1..])
  }

  /** Characters that mean themselves inside the quote. */
  predicate Meant(q: char, backslash: bool, marks: seq<Mark>) {
    forall m :: m in marks ==>
      match m case Ch(c) => c != q && !(backslash && c == '\\') case Twice => true case Slash(_) => backslash
  }

  function NoteText(n: Note): string {
    match n
    case Done => ""
    case Next(c, rest) => [c] + NoteText(rest)
    case Nested(inner, rest) => "/*" + NoteText(inner) + "*/" + NoteText(rest)
  }

  /** No character joins the one after it into the start or the end of a comment. */
  predicate Spaced(n: Note) {
    match n
    case Done => true
    case Next(c, rest) =>
      var d := (NoteText(rest) + "*/")[0];
      !(c == '/' && d == '*') && !(c == '*' && d == '/') && Spaced(rest)
    case Nested(inner, rest) => Spaced(inner) && Spaced(rest)
  }

  function Tag(name: string): string { "$" + name + "$" }

  /** What may stand between the dollars of a tag. */
  predicate Name(name: string) {
    name != "" ==> Letter(name[0]) && forall k :: 0 <= k < |name| ==> NameChar(name[k])
  }

  function Written(part: Part): (t: string)
    ensures t != ""
  {
    match part
    case Plain(c) => [c]
    case Quoted(q, marks) => [q] + (MarksText(q, marks) + [q])
    case Escaped(e, marks) => [e] + (['\''] + (MarksText('\'', marks) + ['\'']))
    case Dollars(name, body) => Tag(name) + (body + Tag(name))
    case Block(note) => "/*" + (NoteText(note) + "*/")
    case Line(text) => "--" + text
  }

  predicate Follows(s: string, i: nat, c: char) { i < |s| && s[i] == c }

  /** The part is written at i of s, and what stands before and after it makes it no other. */
  ghost predicate Stands(s: string, i: nat, part: Part) {
    && Occurs(s, i, Written(part))
    && match part
       case Plain(c) =>
         && c != '\'' && c != '"' && c != ';'
         && !(c == '-' && Follows(s, i + 1, '-')) && !(c == '/' && Follows(s, i + 1, '*'))
         && (c == '$' ==> (i > 0 && Ident(s[i - 1])) || forall name :: Name(name) ==> !Occurs(s, i, Tag(name)))
       case Quoted(q, marks) =>
         && (q == '\'' || q == '"') && Meant(q, false, marks) && !Follows(s, i + |Written(part)|, q)
         && !(q == '\'' && i > 0 && (s[i - 1] == 'E' || s[i - 1] == 'e') && (i == 1 || !Ident(s[i - 2])))
       case Escaped(e, marks) =>
         && (e == 'E' || e == 'e') && (i == 0 || !Ident(s[i - 1]))
         && Meant('\'', true, marks) && !Follows(s, i + |Written(part)|, '\'')
       case Dollars(name, body) =>
         && Name(name) && (i == 0 || !Ident(s[i - 1]))
         && forall k :: 0 <= k < |body| ==> !Occurs(body + Tag(name), k, Tag(name))
       case Block(note) => Spaced(note)
       case Line(text) =>
         OneLine(text) && (i + 2 + |text| == |s| || Follows(s, i + 2 + |text|, '\n'))
  }

  lemma OccursSplit(s: string, i: nat, a: string, b: string)
    requires Occurs(s, i, a + b)
    ensures Occurs(s, i, a) && Occurs(s, i + |a|, b) && i + |a| + |b| <= |s|
  {
    var t := s[i..i + |a + b|];
    assert t[..|a|] == a && t[|a|..] == b;
    assert t[..|a|] == s[i..i + |a|] && t[|a|..] == s[i + |a|..i + |a| + |b|];
  }

  lemma OccursIs(s: string, i: nat, t: string)
    requires Occurs(s, i, t)
    ensures i + |t| <= |s| && s[i..i + |t|] == t
  {
  }

  lemma Head(s: string, i: nat, t: string)
    requires Occurs(s, i, t) && t != ""
    ensures i + |t| <= |s| && s[i] == t[0] && (|t| > 1 ==> s[i + 1] == t[1])
  {
    var u := s[i..i + |t|];
    assert u[0] == s[i] && (|t| > 1 ==> u[1] == s[i + 1]);
  }

  lemma MeantRest(q: char, backslash: bool, marks: seq<Mark>)
    requires Meant(q, backslash, marks) && marks != []
    ensures Meant(q, backslash, marks[1..])
    ensures marks[0].Slash? ==> backslash
    ensures marks[0].Ch? ==> marks[0].c != q && !(backslash && marks[0].c == '\\')
  {
    assert marks[0] in marks;
    forall m | m in marks[1..] ensures m in marks {}
  }

  lemma {:induction false} MarksEnd(s: string, j: nat, q: char, marks: seq<Mark>, backslash: bool)
    requires (q == '\'' || q == '"') && Meant(q, backslash, marks)
    requires Occurs(s, j, MarksText(q, marks) + [q]) && !Follows(s, j + |MarksText(q, marks)| + 1, q)
    ensures QuoteEnd(s, j, q, backslash) == Some(j + |MarksText(q, marks)| + 1)
    decreases |marks|
  {
    hide Occurs, Meant, QuoteEnd, MarkText, Follows;
    Head(s, j, MarksText(q, marks) + [q]);
    if marks == [] {
      QuoteCloses(s, j, q, backslash);
    } else {
      var head, rest := MarkText(q, marks[0]), MarksText(q, marks[1..]) + [q];
      assert MarksText(q, marks) + [q] == head + rest;
      OccursSplit(s, j, head, rest);
      Head(s, j, head);
      MeantRest(q, backslash, marks);
      QuoteGoesOn(s, j, q, backslash, marks[0]);
      MarksEnd(s, j + |head|, q, marks[1..], backslash);
    }
  }

  lemma QuoteCloses(s: string, j: nat, q: char, backslash: bool)
    requires (q == '\'' || q == '"') && j < |s| && s[j] == q && !Follows(s, j + 1, q)
    ensures QuoteEnd(s, j, q, backslash) == Some(j + 1)
  {
  }

  lemma QuoteGoesOn(s: string, j: nat, q: char, backslash: bool, m: Mark)
    requires (q == '\'' || q == '"') && (m.Slash? ==> backslash) && (m.Ch? ==> m.c != q && !(backslash && m.c == '\\'))
    requires var t := MarkText(q, m); j + |t| <= |s| && s[j] == t[0] && (|t| > 1 ==> s[j + 1] == t[1])
    ensures QuoteEnd(s, j, q, backslash) == QuoteEnd(s, j + |MarkText(q, m)|, q, backslash)
  {
  }

  lemma {:induction false} NoteEnd(s: string, j: nat, n: Note, depth: int)
    requires Spaced(n) && depth >= 1 && Occurs(s, j, NoteText(n) + "*/")
    ensures j + |NoteText(n)| + 2 <= |s|
    ensures var e := j + |NoteText(n)| + 2;
      BlockEnd(s, j, depth) == if depth == 1 then Some(e) else BlockEnd(s, e, depth - 1)
    decreases n
  {
    hide Occurs, BlockEnd;
    Head(s, j, NoteText(n) + "*/");
    match n
    case Done =>
      BlockCloses(s, j, depth);
    case Next(c, rest) =>
      var more := NoteText(rest) + "*/";
      assert NoteText(n) + "*/" == [c] + more;
      OccursSplit(s, j, [c], more);
      Head(s, j + 1, more);
      BlockGoesOn(s, j, depth);
      NoteEnd(s, j + 1, rest, depth);
    case Nested(inner, rest) =>
      NestedEnd(s, j, inner, rest, depth);
  }

  lemma BlockCloses(s: string, j: nat, depth: int)
    requires j + 1 < |s| && s[j] == '*' && s[j + 1] == '/'
    ensures BlockEnd(s, j, depth) == if depth == 1 then Some(j + 2) else BlockEnd(s, j + 2, depth - 1)
  {
  }

  lemma BlockGoesOn(s: string, j: nat, depth: int)
    requires j + 1 < |s| && !(s[j] == '/' && s[j + 1] == '*') && !(s[j] == '*' && s[j + 1] == '/')
    ensures BlockEnd(s, j, depth) == BlockEnd(s, j + 1, depth)
  {
  }

  lemma NestedText(inner: Note, rest: Note)
    ensures NoteText(Nested(inner, rest)) + "*/" == "/*" + ((NoteText(inner) + "*/") + (NoteText(rest) + "*/"))
    ensures |NoteText(Nested(inner, rest))| == |NoteText(inner)| + |NoteText(rest)| + 4
  {
  }

  lemma NestedStands(s: string, j: nat, inner: Note, rest: Note)
    requires Occurs(s, j, NoteText(Nested(inner, rest)) + "*/")
    ensures j + 1 < |s| && s[j] == '/' && s[j + 1] == '*' && |NoteText(Nested(inner, rest))| == |NoteText(inner)| + |NoteText(rest)| + 4
    ensures Occurs(s, j + 2, NoteText(inner) + "*/") && Occurs(s, j + 4 + |NoteText(inner)|, NoteText(rest) + "*/")
  {
    hide *;
    NestedText(inner, rest);
    var a, b := NoteText(inner) + "*/", NoteText(rest) + "*/";
    OccursSplit(s, j, "/*", a + b);
    Head(s, j, "/*");
    OccursSplit(s, j + 2, a, b);
  }

  lemma BlockOpens(s: string, j: nat, depth: int)
    requires j + 1 < |s| && s[j] == '/' && s[j + 1] == '*'
    ensures BlockEnd(s, j, depth) == BlockEnd(s, j + 2, depth + 1)
  {
  }

  lemma {:induction false} NestedEnd(s: string, j: nat, inner: Note, rest: Note, depth: int)
    requires Spaced(inner) && Spaced(rest) && depth >= 1 && Occurs(s, j, NoteText(Nested(inner, rest)) + "*/")
    ensures var e := j + |NoteText(Nested(inner, rest))| + 2;
      e <= |s| && BlockEnd(s, j, depth) == if depth == 1 then Some(e) else BlockEnd(s, e, depth - 1)
    decreases Nested(inner, rest), 0
  {
    hide *;
    NestedStands(s, j, inner, rest);
    BlockOpens(s, j, depth);
    NoteEnd(s, j + 2, inner, depth + 1);
    NoteEnd(s, j + 4 + |NoteText(inner)|, rest, depth);
  }

  // ---------------------------------------------------------------------
  // Each part is a piece
  // ---------------------------------------------------------------------

  lemma PlainPiece(s: string, i: nat, c: char)
    requires Stands(s, i, Plain(c))
    ensures i < |s| && s[i] == c && PieceAt(s, i) == Text(i + 1)
  {
    hide Occurs, BlockEnd, QuoteEnd, Dollar, LineEnd;
    Head(s, i, [c]);
    if c == '$' && !IdentBefore(s, i) && TagEnd(s, i) > i {
      NamedTag(s, i);
    }
  }

  lemma NamedTag(s: string, i: nat)
    requires i < |s| && s[i] == '$' && TagEnd(s, i) > i
    ensures exists name :: Name(name) && Occurs(s, i, Tag(name))
  {
    var n := NameEnd(s, i + 1);
    assert s[i..n + 1] == Tag(s[i + 1..n]);
    assert Name(s[i + 1..n]) && Occurs(s, i, Tag(s[i + 1..n]));
  }

  /** A quote ends at its own end: not at a doubled quote inside. */
  lemma QuotePiece(s: string, i: nat, q: char, marks: seq<Mark>)
    requires (q == '\'' || q == '"') && Meant(q, false, marks) && Occurs(s, i, [q] + (MarksText(q, marks) + [q]))
    requires !Follows(s, i + |MarksText(q, marks)| + 2, q)
    requires !(q == '\'' && i > 0 && (s[i - 1] == 'E' || s[i - 1] == 'e') && (i == 1 || !Ident(s[i - 2])))
    ensures i < |s| && s[i] == q && PieceAt(s, i) == Text(i + |MarksText(q, marks)| + 2)
  {
    hide Occurs, Meant, Ident, BlockEnd, TagEnd, Dollar, LineEnd, QuoteEnd;
    OccursSplit(s, i, [q], MarksText(q, marks) + [q]);
    Head(s, i, [q]);
    MarksEnd(s, i + 1, q, marks, false);
  }

  /** Nor, after an E of its own, at an escaped one. */
  lemma EscapePiece(s: string, i: nat, e: char, marks: seq<Mark>)
    requires (e == 'E' || e == 'e') && (i == 0 || (i <= |s| && !Ident(s[i - 1]))) && Meant('\'', true, marks)
    requires Occurs(s, i, [e] + (['\''] + (MarksText('\'', marks) + ['\'']))) && !Follows(s, i + |MarksText('\'', marks)| + 3, '\'')
    ensures i + 1 < |s| && s[i] == e && PieceAt(s, i) == Text(i + 1)
    ensures PieceAt(s, i + 1) == Text(i + |MarksText('\'', marks)| + 3)
  {
    hide Occurs, Meant, Ident, BlockEnd, TagEnd, Dollar, LineEnd, QuoteEnd;
    var inside := MarksText('\'', marks) + ['\''];
    OccursSplit(s, i, [e], ['\''] + inside);
    OccursSplit(s, i + 1, ['\''], inside);
    Head(s, i, [e]);
    Head(s, i + 1, ['\'']);
    MarksEnd(s, i + 2, '\'', marks, true);
  }

  lemma {:induction false} FindIs(s: string, j: nat, k: nat, tag: string)
    requires j <= k && Occurs(s, k, tag) && forall x :: j <= x < k ==> !Occurs(s, x, tag)
    ensures Find(s, j, tag) == Some(k)
    decreases k - j
  {
    if j < k { FindIs(s, j + 1, k, tag); }
  }

  lemma TagIs(s: string, i: nat, name: string)
    requires Name(name) && Occurs(s, i, Tag(name))
    ensures i < |s| && s[i] == '$' && TagEnd(s, i) == i + |Tag(name)| && s[i..TagEnd(s, i)] == Tag(name) && |Tag(name)| >= 2
  {
    OccursSplit(s, i, "$" + name, "$");
    OccursSplit(s, i, "$", name);
    NameText(s, i + 1, name);
    Head(s, i, "$");
    Head(s, i + 1 + |name|, "$");
    NameEndIs(s, i + 1, i + 1 + |name|);
  }

  lemma NameText(s: string, j: nat, name: string)
    requires Name(name) && Occurs(s, j, name)
    ensures j + |name| <= |s| && (name != "" ==> Letter(s[j])) && forall k :: j <= k < j + |name| ==> NameChar(s[k])
  {
    var t := s[j..j + |name|];
    forall k | j <= k < j + |name| ensures NameChar(s[k]) { assert s[k] == t[k - j]; }
    if name != "" { Head(s, j, name); }
  }

  lemma {:induction false} NameEndIs(s: string, j: nat, e: nat)
    requires j <= e < |s| && s[e] == '$' && forall k :: j <= k < e ==> NameChar(s[k])
    ensures NameEnd(s, j) == e
    decreases e - j
  {
    if j < e { NameEndIs(s, j + 1, e); }
  }

  lemma SubSlice(s: string, j: nat, n: nat, a: nat, b: nat)
    requires j + n <= |s| && a <= b <= n
    ensures s[j..j + n][a..b] == s[j + a..j + b]
  {
    var t, u := s[j..j + n][a..b], s[j + a..j + b];
    assert forall k :: 0 <= k < b - a ==> t[k] == u[k];
  }

  lemma NotBefore(s: string, j: nat, body: string, tag: string)
    requires Occurs(s, j, body + tag) && forall k :: 0 <= k < |body| ==> !Occurs(body + tag, k, tag)
    ensures forall x :: j <= x < j + |body| ==> !Occurs(s, x, tag)
  {
    var t := body + tag;
    forall x | j <= x < j + |body| ensures !Occurs(s, x, tag) {
      SubSlice(s, j, |t|, x - j, x - j + |tag|);
      assert !Occurs(t, x - j, tag);
    }
  }

  /** A dollar quote ends where its tag is next: whatever its body holds. */
  lemma DollarPiece(s: string, i: nat, name: string, body: string)
    requires Name(name) && (i == 0 || (i <= |s| && !Ident(s[i - 1]))) && Occurs(s, i, Tag(name) + (body + Tag(name)))
    requires forall k :: 0 <= k < |body| ==> !Occurs(body + Tag(name), k, Tag(name))
    ensures i < |s| && s[i] == '$' && PieceAt(s, i) == Text(i + |Tag(name)| + |body| + |Tag(name)|)
  {
    hide *;
    var tag := Tag(name);
    OccursSplit(s, i, tag, body + tag);
    TagIs(s, i, name);
    NotBefore(s, i + |tag|, body, tag);
    OccursSplit(s, i + |tag|, body, tag);
    FindIs(s, i + |tag|, i + |tag| + |body|, tag);
    DollarIs(s, i, tag, i + |tag| + |body|);
  }

  lemma DollarIs(s: string, i: nat, tag: string, k: nat)
    requires i < |s| && s[i] == '$' && |tag| >= 2 && (i == 0 || !Ident(s[i - 1]))
    requires TagEnd(s, i) == i + |tag| && s[i..TagEnd(s, i)] == tag && Find(s, i + |tag|, tag) == Some(k)
    ensures PieceAt(s, i) == Text(k + |tag|)
  {
    hide TagEnd, Find, BlockEnd, QuoteEnd, LineEnd, Ident;
  }

  /** A block comment ends where as many comments were closed as were opened. */
  lemma BlockPiece(s: string, i: nat, note: Note)
    requires Spaced(note) && Occurs(s, i, "/*" + (NoteText(note) + "*/"))
    ensures i < |s| && s[i] == '/' && PieceAt(s, i) == Comment(i + |NoteText(note)| + 4)
  {
    hide Occurs, Spaced, QuoteEnd, TagEnd, Dollar, LineEnd;
    OccursSplit(s, i, "/*", NoteText(note) + "*/");
    Head(s, i, "/*");
    NoteEnd(s, i + 2, note, 1);
  }

  lemma LineIs(s: string, j: nat, text: string)
    requires Occurs(s, j, text) && OneLine(text) && (j + |text| == |s| || Follows(s, j + |text|, '\n'))
    ensures j <= |s| && LineEnd(s, j) == j + |text|
  {
    var t := s[j..j + |text|];
    assert forall k :: j <= k < j + |text| ==> s[k] == t[k - j];
  }

  lemma LinePiece(s: string, i: nat, text: string)
    requires Occurs(s, i, "--" + text) && OneLine(text)
    requires i + 2 + |text| == |s| || Follows(s, i + 2 + |text|, '\n')
    ensures i < |s| && s[i] == '-' && PieceAt(s, i) == Comment(i + 2 + |text|)
  {
    hide BlockEnd, QuoteEnd, TagEnd, Dollar, LineEnd, Occurs, OneLine;
    OccursSplit(s, i, "--", text);
    Head(s, i, "--");
    LineIs(s, i + 2, text);
  }

  // ---------------------------------------------------------------------
  // Statements
  // ---------------------------------------------------------------------

  function AllWritten(parts: seq<Part>): string {
    if parts == [] then "" else Written(parts[0]) + AllWritten(parts[1..])
  }

  ghost predicate AllStand(s: string, i: nat, parts: seq<Part>)
    decreases |parts|
  {
    parts == [] || (Stands(s, i, parts[0]) && AllStand(s, i + |Written(parts[0])|, parts[1..]))
  }

  lemma {:induction false} Extent(s: string, i: nat, parts: seq<Part>)
    requires AllStand(s, i, parts) && i <= |s|
    ensures Occurs(s, i, AllWritten(parts))
    decreases |parts|
  {
    hide Written, Occurs;
    if parts == [] {
      OccursJoin(s, i, "", "");
    } else {
      StandsOccurs(s, i, parts[0]);
      Extent(s, i + |Written(parts[0])|, parts[1..]);
      OccursJoin(s, i, Written(parts[0]), AllWritten(parts[1..]));
    }
  }

  lemma StandsOccurs(s: string, i: nat, part: Part)
    requires Stands(s, i, part)
    ensures Occurs(s, i, Written(part)) && i + |Written(part)| <= |s|
  {
  }

  lemma OccursJoin(s: string, i: nat, a: string, b: string)
    requires i <= |s| && (a != "" ==> Occurs(s, i, a)) && (b != "" ==> Occurs(s, i + |a|, b))
    ensures Occurs(s, i, a + b)
  {
    assert s[i..i + |a| + |b|] == s[i..i + |a|] + s[i + |a|..i + |a| + |b|];
  }

  /** Blanks and comments. */
  predicate Gap(parts: seq<Part>) {
    forall p :: p in parts ==> p.Block? || p.Line? || (p.Plain? && Space(p.c))
  }

  /** Parts of which the first is neither blank nor a comment, nor a backslash that
      begins a line. */
  predicate Begins(s: string, i: nat, parts: seq<Part>) {
    && parts != [] && !parts[0].Block? && !parts[0].Line?
    && (parts[0].Plain? ==> !Space(parts[0].c) && !(parts[0].c == '\\' && (i == 0 || Follows(s, i - 1, '\n'))))
  }

  /** The piece a part begins with. */
  lemma PartPiece(s: string, i: nat, part: Part)
    requires Stands(s, i, part)
    ensures i < |s| && s[i] == Written(part)[0] && i + |Written(part)| <= |s|
    ensures var e := i + |Written(part)|;
      match part
      case Block(_) => PieceAt(s, i) == Comment(e)
      case Line(_) => PieceAt(s, i) == Comment(e)
      case Escaped(_, _) => PieceAt(s, i) == Text(i + 1) && i + 1 < |s| && PieceAt(s, i + 1) == Text(e)
      case _ => PieceAt(s, i) == Text(e)
  {
    hide PieceAt, Occurs, Spaced, Meant, Name, Tag;
    StandsOccurs(s, i, part);
    Head(s, i, Written(part));
    match part
    case Plain(c) => PlainPiece(s, i, c);
    case Quoted(q, marks) => QuotePiece(s, i, q, marks);
    case Escaped(e, marks) => EscapePiece(s, i, e, marks);
    case Dollars(name, body) => DollarPiece(s, i, name, body);
    case Block(note) => BlockPiece(s, i, note);
    case Line(text) => LinePiece(s, i, text);
  }

  /** No part is cut, and no semicolon inside one ends the statement. */
  lemma {:induction false} PartsReach(s: string, i: nat, parts: seq<Part>)
    requires AllStand(s, i, parts) && i <= |s|
    ensures i + |AllWritten(parts)| <= |s| && Reaches(s, i, i + |AllWritten(parts)|)
    decreases |parts|
  {
    hide PieceAt, Stands, Written;
    if parts != [] {
      PartPiece(s, i, parts[0]);
      var m, e := i + |Written(parts[0])|, i + |AllWritten(parts)|;
      PartsReach(s, m, parts[1..]);
      if parts[0].Escaped? {
        assert Reaches(s, i + 1, e);
      }
    }
  }

  lemma GapStep(isCopy: string -> bool, s: string, i: nat, part: Part)
    requires Stands(s, i, part) && (part.Block? || part.Line? || (part.Plain? && Space(part.c)))
    ensures i + |Written(part)| <= |s| && Script(isCopy, s, i, None) == Script(isCopy, s, i + |Written(part)|, None)
  {
    hide PieceAt, Stands, Rows, Lines, NoteText;
    PartPiece(s, i, part);
  }

  lemma {:induction false} GapPassed(isCopy: string -> bool, s: string, i: nat, gap: seq<Part>)
    requires AllStand(s, i, gap) && i <= |s| && Gap(gap)
    ensures i + |AllWritten(gap)| <= |s| && Script(isCopy, s, i, None) == Script(isCopy, s, i + |AllWritten(gap)|, None)
    decreases |gap|
  {
    hide Script, Stands, Written;
    if gap != [] {
      assert gap[0] in gap;
      GapStep(isCopy, s, i, gap[0]);
      GapPassed(isCopy, s, i + |Written(gap[0])|, gap[1..]);
    }
  }

  /** A statement is read up to its end. */
  lemma PartsRead(isCopy: string -> bool, s: string, i: nat, parts: seq<Part>)
    requires AllStand(s, i, parts) && i <= |s| && Begins(s, i, parts)
    ensures var e := i + |AllWritten(parts)|;
      i < e <= |s| && s[i..e] == AllWritten(parts) && Script(isCopy, s, i, None) == Script(isCopy, s, e, Some(i))
  {
    hide *;
    PartsReach(s, i, parts);
    Extent(s, i, parts);
    OccursIs(s, i, AllWritten(parts));
    BeginsPlainly(s, i, parts);
    StatementPassed(isCopy, s, i, i + |AllWritten(parts)|);
  }

  lemma StatementPassed(isCopy: string -> bool, s: string, i: nat, e: nat)
    requires i < e <= |s| && Reaches(s, i, e) && PieceAt(s, i).Text? && !Space(s[i]) && !(LineStart(s, i) && s[i] == '\\')
    ensures Script(isCopy, s, i, None) == Script(isCopy, s, e, Some(i))
  {
    hide PieceAt, Script, Reaches;
    FirstPiece(s, i, e);
    Enters(isCopy, s, i);
    ScriptReaches(isCopy, s, PieceAt(s, i).end, e, i);
  }

  lemma BeginsPlainly(s: string, i: nat, parts: seq<Part>)
    requires AllStand(s, i, parts) && i <= |s| && Begins(s, i, parts)
    ensures i < |s| && !Space(s[i]) && !(LineStart(s, i) && s[i] == '\\') && PieceAt(s, i).Text? && AllWritten(parts) != ""
  {
    hide PieceAt, Occurs, Meant, Name, NoteText, Spaced, MarksText;
    PartPiece(s, i, parts[0]);
  }

  /** A statement and its semicolon make one command; a COPY takes rows after its line. */
  lemma StatementIsOne(isCopy: string -> bool, s: string, i: nat, parts: seq<Part>)
    requires AllStand(s, i, parts) && i <= |s| && Begins(s, i, parts)
    ensures var e := i + |AllWritten(parts)|; var c := Command(Lines(s, i), TrimRight(AllWritten(parts)), "", None);
      && i < e <= |s|
      && (e == |s| ==> Script(isCopy, s, i, None) == Parsed([c]))
      && (Follows(s, e, ';') && !isCopy(c.sql) ==> Script(isCopy, s, i, None) == Then(c, Script(isCopy, s, e + 1, None)))
      && (Follows(s, e, ';') && isCopy(c.sql) ==>
            var rows := Rows(s, NextLine(s, e + 1));
            Script(isCopy, s, i, None) ==
              if rows.None? then Failed(c.line, CopyData)
              else Then(c.(copy := Some(rows.value.0)), Script(isCopy, s, rows.value.1, None)))
  {
    hide PieceAt, Stands, Begins, AllStand, AllWritten, Rows, Lines, TrimRight, NextLine;
    PartsRead(isCopy, s, i, parts);
  }

  /** A command's line is one more than the line ends before it. */
  lemma {:induction false} LinesAre(s: string, i: nat)
    requires i <= |s|
    ensures Lines(s, i) == 1 + |set k | 0 <= k < i && s[k] == '\n'|
  {
    if i > 0 {
      LinesAre(s, i - 1);
      var before := set k | 0 <= k < i - 1 && s[k] == '\n';
      var all := set k | 0 <= k < i && s[k] == '\n';
      assert all == if s[i - 1] == '\n' then before + {i - 1} else before;
    }
  }

  // ---------------------------------------------------------------------
  // Scripts
  // ---------------------------------------------------------------------

  /** A line of a COPY's rows, and the carriage returns it ends in. */
  datatype Row = Row(text: string, crs: nat)

  function Returns(n: nat): (t: string)
    ensures |t| == n
  {
    if n == 0 then "" else Returns(n - 1) + "\r"
  }

  /** A line that is not the rows' end, less its carriage returns. */
  predicate IsRow(text: string) { OneLine(text) && (text != "" ==> text[|text| - 1] != '\r') && text != "\\." }

  function RowText(r: Row): string { r.text + (Returns(r.crs) + "\n") }

  function RawRows(rows: seq<Row>): string { if rows == [] then "" else RowText(rows[0]) + RawRows(rows[1..]) }

  /** The rows as the command keeps them. */
  function Kept(rows: seq<Row>): string { if rows == [] then "" else rows[0].text + "\n" + Kept(rows[1..]) }

  lemma {:induction false} Trims(text: string, n: nat)
    requires text != "" ==> text[|text| - 1] != '\r'
    ensures TrimReturns(text + Returns(n)) == text
  {
    if n == 0 {
      assert text + Returns(0) == text;
    } else {
      var t := text + Returns(n);
      assert t[..|t| - 1] == text + Returns(n - 1);
      Trims(text, n - 1);
    }
  }

  lemma {:induction false} ReturnsLine(text: string, n: nat)
    requires OneLine(text)
    ensures OneLine(text + Returns(n))
  {
    if n > 0 {
      ReturnsLine(text, n - 1);
      assert text + Returns(n) == (text + Returns(n - 1)) + "\r";
    }
  }

  /** One line of rows, at j. */
  lemma RowRead(s: string, j: nat, text: string, n: nat)
    requires Occurs(s, j, text + (Returns(n) + "\n")) && OneLine(text) && (text != "" ==> text[|text| - 1] != '\r')
    ensures var e := j + |text| + n + 1;
      && j < e <= |s|
      && Rows(s, j) ==
           if text == "\\." then Some(("", e))
           else if Rows(s, e).None? then None else Some((text + "\n" + Rows(s, e).value.0, Rows(s, e).value.1))
  {
    hide Occurs, Returns, TrimReturns, LineEnd, OneLine, Rows;
    var line := text + Returns(n);
    assert text + (Returns(n) + "\n") == line + "\n";
    OccursSplit(s, j, line, "\n");
    Head(s, j + |line|, "\n");
    ReturnsLine(text, n);
    LineIs(s, j, line);
    OccursIs(s, j, line);
    Trims(text, n);
    RowsIs(s, j, text);
  }

  lemma RowsIs(s: string, j: nat, text: string)
    requires j < |s| && LineEnd(s, j) < |s| && TrimReturns(s[j..LineEnd(s, j)]) == text
    ensures var e := LineEnd(s, j) + 1;
      Rows(s, j) ==
        if text == "\\." then Some(("", e))
        else if Rows(s, e).None? then None else Some((text + "\n" + Rows(s, e).value.0, Rows(s, e).value.1))
  {
    hide TrimReturns, LineEnd;
  }

  lemma {:induction false} AllRowsRead(s: string, j: nat, rows: seq<Row>, n: nat)
    requires Occurs(s, j, RawRows(rows) + ("\\." + (Returns(n) + "\n"))) && forall r :: r in rows ==> IsRow(r.text)
    ensures var e := j + |RawRows(rows)| + 3 + n; j < e <= |s| && Rows(s, j) == Some((Kept(rows), e))
    decreases |rows|
  {
    hide Occurs, Returns, RowText, Rows;
    var end := "\\." + (Returns(n) + "\n");
    if rows == [] {
      assert RawRows(rows) + end == end;
      RowRead(s, j, "\\.", n);
    } else {
      var head := RowText(rows[0]);
      assert RawRows(rows) + end == head + (RawRows(rows[1..]) + end);
      OccursSplit(s, j, head, RawRows(rows[1..]) + end);
      assert rows[0] in rows && forall r :: r in rows[1..] ==> r in rows;
      RowIs(rows[0]);
      RowRead(s, j, rows[0].text, rows[0].crs);
      AllRowsRead(s, j + |head|, rows[1..], n);
    }
  }

  lemma RowIs(r: Row)
    ensures RowText(r) == r.text + (Returns(r.crs) + "\n") && |RowText(r)| == |r.text| + r.crs + 1
  {
  }

  /** One command of a script, or a semicolon that ends nothing, after blanks and
      comments. */
  datatype Item =
    | Empty(gap: seq<Part>)
    | Simple(gap: seq<Part>, parts: seq<Part>)
    | Copying(gap: seq<Part>, parts: seq<Part>, rest: string, rows: seq<Row>, crs: nat)
    | Backslash(gap: seq<Part>, text: string)

  /** What follows the semicolon of a COPY: the rest of its line, the rows and their end. */
  function RowsAfter(rest: string, rows: seq<Row>, n: nat): string {
    rest + ("\n" + (RawRows(rows) + ("\\." + (Returns(n) + "\n"))))
  }

  function ItemText(item: Item): string {
    AllWritten(item.gap) +
    match item
    case Empty(_) => ";"
    case Simple(_, parts) => AllWritten(parts) + ";"
    case Copying(_, parts, rest, rows, n) =>
      AllWritten(parts) + (";" + RowsAfter(rest, rows, n))
    case Backslash(_, text) => text
  }

  /** The item is written at i of s. */
  ghost predicate ItemStands(isCopy: string -> bool, s: string, i: nat, item: Item) {
    && Occurs(s, i, ItemText(item)) && AllStand(s, i, item.gap) && Gap(item.gap)
    && var j := i + |AllWritten(item.gap)|;
       match item
       case Empty(_) => true
       case Simple(_, parts) =>
         AllStand(s, j, parts) && Begins(s, j, parts) && !isCopy(TrimRight(AllWritten(parts)))
       case Copying(_, parts, rest, rows, _) =>
         && AllStand(s, j, parts) && Begins(s, j, parts) && isCopy(TrimRight(AllWritten(parts)))
         && OneLine(rest) && forall r :: r in rows ==> IsRow(r.text)
       case Backslash(_, text) =>
         && text != "" && text[0] == '\\' && OneLine(text)
         && (j == 0 || Follows(s, j - 1, '\n')) && (j + |text| == |s| || Follows(s, j + |text|, '\n'))
  }

  /** The command an item is. */
  function CommandsOf(s: string, i: nat, item: Item): seq<Command>
    requires i + |AllWritten(item.gap)| <= |s|
  {
    var line := Lines(s, i + |AllWritten(item.gap)|);
    match item
    case Empty(_) => []
    case Simple(_, parts) => [Command(line, TrimRight(AllWritten(parts)), "", None)]
    case Copying(_, parts, _, rows, _) => [Command(line, TrimRight(AllWritten(parts)), "", Some(Kept(rows)))]
    case Backslash(_, text) => [Command(line, "", TrimReturns(text), None)]
  }

  lemma SimpleRead(isCopy: string -> bool, s: string, i: nat, item: Item)
    requires ItemStands(isCopy, s, i, item) && i <= |s| && item.Simple?
    ensures var e := i + |ItemText(item)|; e <= |s| && Script(isCopy, s, i, None) == Then(CommandsOf(s, i, item)[0], Script(isCopy, s, e, None))
  {
    hide Script, Occurs, AllStand, AllWritten, Begins, Gap, Lines, TrimRight, Rows;
    var gap, j := AllWritten(item.gap), i + |AllWritten(item.gap)|;
    GapPassed(isCopy, s, i, item.gap);
    OccursSplit(s, i, gap, AllWritten(item.parts) + ";");
    OccursSplit(s, j, AllWritten(item.parts), ";");
    Head(s, j + |AllWritten(item.parts)|, ";");
    StatementIsOne(isCopy, s, j, item.parts);
  }

  lemma CopyingRead(isCopy: string -> bool, s: string, i: nat, item: Item)
    requires ItemStands(isCopy, s, i, item) && i <= |s| && item.Copying?
    ensures var e := i + |ItemText(item)|; e <= |s| && Script(isCopy, s, i, None) == Then(CommandsOf(s, i, item)[0], Script(isCopy, s, e, None))
  {
    hide Script, Occurs, AllStand, AllWritten, Begins, Gap, Lines, TrimRight, Rows, RawRows, NextLine, Returns, Kept, ItemStands, IsRow, OneLine;
    var j := i + |AllWritten(item.gap)|;
    CopyingStands(isCopy, s, i, item);
    GapPassed(isCopy, s, i, item.gap);
    RowsRead(s, j + |AllWritten(item.parts)| + 1, item.rest, item.rows, item.crs);
    StatementIsOne(isCopy, s, j, item.parts);
  }

  lemma CopyingStands(isCopy: string -> bool, s: string, i: nat, item: Item)
    requires ItemStands(isCopy, s, i, item) && i <= |s| && item.Copying?
    ensures var j := i + |AllWritten(item.gap)|; var e := j + |AllWritten(item.parts)|;
      && AllStand(s, i, item.gap) && Gap(item.gap) && j <= |s| && AllStand(s, j, item.parts) && Begins(s, j, item.parts)
      && isCopy(TrimRight(AllWritten(item.parts))) && Follows(s, e, ';') && Occurs(s, e + 1, RowsAfter(item.rest, item.rows, item.crs))
      && OneLine(item.rest) && forall r :: r in item.rows ==> IsRow(r.text)
  {
    hide Occurs, AllStand, AllWritten, Begins, Gap, TrimRight, RowsAfter, OneLine, IsRow;
    var gap, sql, more := AllWritten(item.gap), AllWritten(item.parts), RowsAfter(item.rest, item.rows, item.crs);
    OccursSplit(s, i, gap, sql + (";" + more));
    OccursSplit(s, i + |gap|, sql, ";" + more);
    OccursSplit(s, i + |gap| + |sql|, ";", more);
    Head(s, i + |gap| + |sql|, ";");
  }

  lemma RowsRead(s: string, j: nat, rest: string, rows: seq<Row>, n: nat)
    requires Occurs(s, j, RowsAfter(rest, rows, n)) && OneLine(rest)
    requires forall r :: r in rows ==> IsRow(r.text)
    ensures var e := j + |rest| + 1 + |RawRows(rows)| + 3 + n; e <= |s| && Rows(s, NextLine(s, j)) == Some((Kept(rows), e))
  {
    hide RawRows, Rows, LineEnd, Occurs, Returns, Kept, IsRow, OneLine;
    var end := RawRows(rows) + ("\\." + (Returns(n) + "\n"));
    OccursSplit(s, j, rest, "\n" + end);
    OccursSplit(s, j + |rest|, "\n", end);
    Head(s, j + |rest|, "\n");
    LineIs(s, j, rest);
    AllRowsRead(s, j + |rest| + 1, rows, n);
  }

  lemma BackslashRead(isCopy: string -> bool, s: string, i: nat, item: Item)
    requires ItemStands(isCopy, s, i, item) && i <= |s| && item.Backslash?
    ensures var e := i + |ItemText(item)|; e <= |s| && Script(isCopy, s, i, None) == Then(CommandsOf(s, i, item)[0], Script(isCopy, s, e, None))
  {
    hide Script, Occurs, AllStand, AllWritten, Gap, Lines, OneLine, LineEnd, TrimReturns, Follows, ItemStands;
    BackslashStands(isCopy, s, i, item);
    GapPassed(isCopy, s, i, item.gap);
    MetaRead(isCopy, s, i + |AllWritten(item.gap)|, item.text);
  }

  lemma BackslashStands(isCopy: string -> bool, s: string, i: nat, item: Item)
    requires ItemStands(isCopy, s, i, item) && i <= |s| && item.Backslash?
    ensures var j := i + |AllWritten(item.gap)|;
      && AllStand(s, i, item.gap) && Gap(item.gap) && Occurs(s, j, item.text) && OneLine(item.text)
      && item.text != "" && item.text[0] == '\\' && (j == 0 || Follows(s, j - 1, '\n'))
      && (j + |item.text| == |s| || Follows(s, j + |item.text|, '\n'))
  {
    hide Occurs, AllStand, AllWritten, Gap, OneLine, Follows;
    OccursSplit(s, i, AllWritten(item.gap), item.text);
  }

  lemma LineOn(s: string, j: nat)
    requires j < |s| && s[j] != '\n'
    ensures LineEnd(s, j + 1) == LineEnd(s, j)
  {
  }

  lemma MetaRead(isCopy: string -> bool, s: string, j: nat, text: string)
    requires Occurs(s, j, text) && OneLine(text) && text != "" && text[0] == '\\' && (j == 0 || Follows(s, j - 1, '\n'))
    requires j + |text| == |s| || Follows(s, j + |text|, '\n')
    ensures var e := j + |text|;
      && j < e <= |s|
      && Script(isCopy, s, j, None) == Then(Command(Lines(s, j), "", TrimReturns(text), None), Script(isCopy, s, e, None))
  {
    hide Occurs, OneLine, LineEnd, TrimReturns, Lines, PieceAt, Rows;
    Head(s, j, text);
    OccursIs(s, j, text);
    LineIs(s, j, text);
    LineOn(s, j);
  }

  lemma EmptyRead(isCopy: string -> bool, s: string, i: nat, item: Item)
    requires ItemStands(isCopy, s, i, item) && i <= |s| && item.Empty?
    ensures var e := i + |ItemText(item)|; e <= |s| && Script(isCopy, s, i, None) == Script(isCopy, s, e, None)
  {
    hide Script, Occurs, AllStand, AllWritten, Gap;
    GapPassed(isCopy, s, i, item.gap);
    OccursSplit(s, i, AllWritten(item.gap), ";");
    Head(s, i + |AllWritten(item.gap)|, ";");
    SemicolonSkipped(isCopy, s, i + |AllWritten(item.gap)|);
  }

  lemma SemicolonSkipped(isCopy: string -> bool, s: string, i: nat)
    requires i < |s| && s[i] == ';'
    ensures Script(isCopy, s, i, None) == Script(isCopy, s, i + 1, None)
  {
  }

  ghost predicate ItemsStand(isCopy: string -> bool, s: string, i: nat, items: seq<Item>)
    decreases |items|
  {
    items == [] || (ItemStands(isCopy, s, i, items[0]) && ItemsStand(isCopy, s, i + |ItemText(items[0])|, items[1..]))
  }

  function ItemsText(items: seq<Item>): string {
    if items == [] then "" else ItemText(items[0]) + ItemsText(items[1..])
  }

  function AllCommands(s: string, i: nat, items: seq<Item>): seq<Command>
    requires i + |ItemsText(items)| <= |s|
    decreases |items|
  {
    if items == [] then [] else CommandsOf(s, i, items[0]) + AllCommands(s, i + |ItemText(items[0])|, items[1..])
  }

  /** A script written as items, and at its end perhaps a statement left open, holds the
      command of each item in order, and of the open statement. */
  lemma {:induction false} ScriptIs(isCopy: string -> bool, s: string, i: nat, items: seq<Item>, gap: seq<Part>, last: seq<Part>)
    requires i <= |s| && ItemsStand(isCopy, s, i, items)
    requires var e := i + |ItemsText(items)|; var f := e + |AllWritten(gap)|;
      && AllStand(s, e, gap) && Gap(gap) && f + |AllWritten(last)| == |s|
      && (last != [] ==> AllStand(s, f, last) && Begins(s, f, last))
    ensures Script(isCopy, s, i, None) == Parsed(AllCommands(s, i, items) +
      if last == [] then [] else [Command(Lines(s, i + |ItemsText(items)| + |AllWritten(gap)|), TrimRight(AllWritten(last)), "", None)])
    decreases |items|
  {
    hide Script, ItemStands, AllStand, AllWritten, Begins, Gap, Lines, TrimRight, CommandsOf, ItemText;
    if items == [] {
      LastRead(isCopy, s, i, gap, last);
    } else {
      var e := i + |ItemText(items[0])|;
      ScriptIs(isCopy, s, e, items[1..], gap, last);
      ItemRead(isCopy, s, i, items[0]);
    }
  }

  function Adds(cmds: seq<Command>, rest: Outcome): Outcome {
    if rest.Parsed? then Parsed(cmds + rest.cmds) else rest
  }

  lemma ItemRead(isCopy: string -> bool, s: string, i: nat, item: Item)
    requires ItemStands(isCopy, s, i, item) && i <= |s|
    ensures var e := i + |ItemText(item)|; e <= |s| && Script(isCopy, s, i, None) == Adds(CommandsOf(s, i, item), Script(isCopy, s, e, None))
  {
    hide Script, ItemStands, AllWritten, Lines, TrimRight, TrimReturns;
    match item
    case Empty(_) => EmptyRead(isCopy, s, i, item);
    case Simple(_, _) => SimpleRead(isCopy, s, i, item);
    case Copying(_, _, _, _, _) => CopyingRead(isCopy, s, i, item);
    case Backslash(_, _) => BackslashRead(isCopy, s, i, item);
  }

  /** What is left open at the end. */
  lemma LastRead(isCopy: string -> bool, s: string, i: nat, gap: seq<Part>, last: seq<Part>)
    requires i <= |s| && AllStand(s, i, gap) && Gap(gap)
    requires var f := i + |AllWritten(gap)|;
      f + |AllWritten(last)| == |s| && (last != [] ==> AllStand(s, f, last) && Begins(s, f, last))
    ensures Script(isCopy, s, i, None) ==
      Parsed(if last == [] then [] else [Command(Lines(s, i + |AllWritten(gap)|), TrimRight(AllWritten(last)), "", None)])
  {
    hide Script, AllStand, Begins, Gap, Lines, TrimRight;
    GapPassed(isCopy, s, i, gap);
    if last == [] {
      ScriptEnds(isCopy, s);
    } else {
      StatementIsOne(isCopy, s, i + |AllWritten(gap)|, last);
    }
  }

  lemma ScriptEnds(isCopy: string -> bool, s: string)
    ensures Script(isCopy, s, |s|, None) == Parsed([])
  {
  }

  // ---------------------------------------------------------------------
  // What never ends
  // ---------------------------------------------------------------------

  /** A comment or a quote begins at i, and what would end it is not in the rest. */
  ghost predicate NeverEnds(s: string, i: nat, what: What) {
    match what
    case BlockComment => Occurs(s, i, "/*") && forall k :: i + 2 <= k ==> !Occurs(s, k, "*/")
    case Quote(q) => (q == '\'' || q == '"') && Follows(s, i, q) && forall k :: i < k < |s| ==> s[k] != q
    case DollarQuote(tag) =>
      && (exists name :: Name(name) && tag == Tag(name)) && Occurs(s, i, tag) && (i == 0 || !Ident(s[i - 1]))
      && forall k :: i + |tag| <= k ==> !Occurs(s, k, tag)
    case CopyData => false
  }

  lemma {:induction false} BlockNever(s: string, j: nat, depth: int)
    requires j <= |s| && forall k :: j <= k ==> !Occurs(s, k, "*/")
    ensures BlockEnd(s, j, depth) == None
    decreases |s| - j
  {
    if j < |s| {
      assert Pair(s, j, '*', '/') ==> Occurs(s, j, "*/");
      if Pair(s, j, '/', '*') { BlockNever(s, j + 2, depth + 1); } else { BlockNever(s, j + 1, depth); }
    }
  }

  lemma {:induction false} QuoteNever(s: string, j: nat, q: char, backslash: bool)
    requires forall k :: j <= k < |s| ==> s[k] != q
    ensures QuoteEnd(s, j, q, backslash) == None
    decreases |s| - j
  {
    if j < |s| { QuoteNever(s, if backslash && s[j] == '\\' then j + 2 else j + 1, q, backslash); }
  }

  lemma {:induction false} FindNever(s: string, j: nat, tag: string)
    requires forall k :: j <= k ==> !Occurs(s, k, tag)
    ensures Find(s, j, tag) == None
    decreases |s| - j
  {
    if j <= |s| { FindNever(s, j + 1, tag); }
  }

  lemma OpenPiece(s: string, i: nat, what: What)
    requires NeverEnds(s, i, what)
    ensures i < |s| && PieceAt(s, i) == Open(what)
  {
    hide Occurs, Name, Tag, TagEnd, Find, BlockEnd, QuoteEnd, LineEnd, Ident;
    match what
    case BlockComment =>
      Head(s, i, "/*");
      BlockNever(s, i + 2, 1);
      BlockOpens(s, i, 0);
    case Quote(q) =>
      QuoteNever(s, i + 1, q, q == '\'' && EscapeAt(s, i));
    case DollarQuote(tag) =>
      var name :| Name(name) && tag == Tag(name);
      TagIs(s, i, name);
      FindNever(s, i + |tag|, tag);
  }

  /** A comment or a quote that never ends fails the script; the failure says what it is
      and on which line it begins. */
  lemma {:induction false} NeverEndsFails(isCopy: string -> bool, s: string, i: nat, items: seq<Item>, gap: seq<Part>, last: seq<Part>, what: What)
    requires i <= |s| && ItemsStand(isCopy, s, i, items)
    requires var e := i + |ItemsText(items)|; var f := e + |AllWritten(gap)|;
      && AllStand(s, e, gap) && Gap(gap) && (last != [] ==> AllStand(s, f, last) && Begins(s, f, last))
      && NeverEnds(s, f + |AllWritten(last)|, what)
    ensures var g := i + |ItemsText(items)| + |AllWritten(gap)| + |AllWritten(last)|;
      g <= |s| && Script(isCopy, s, i, None) == Failed(Lines(s, g), what)
    decreases |items|
  {
    hide Script, ItemStands, AllStand, AllWritten, Begins, Gap, Lines, CommandsOf, ItemText, NeverEnds;
    if items == [] {
      LastFails(isCopy, s, i, gap, last, what);
    } else {
      ItemRead(isCopy, s, i, items[0]);
      NeverEndsFails(isCopy, s, i + |ItemText(items[0])|, items[1..], gap, last, what);
    }
  }

  lemma LastFails(isCopy: string -> bool, s: string, i: nat, gap: seq<Part>, last: seq<Part>, what: What)
    requires i <= |s| && AllStand(s, i, gap) && Gap(gap)
    requires var f := i + |AllWritten(gap)|;
      (last != [] ==> AllStand(s, f, last) && Begins(s, f, last)) && NeverEnds(s, f + |AllWritten(last)|, what)
    ensures var g := i + |AllWritten(gap)| + |AllWritten(last)|; g <= |s| && Script(isCopy, s, i, None) == Failed(Lines(s, g), what)
  {
    hide *;
    var f := i + |AllWritten(gap)|;
    GapPassed(isCopy, s, i, gap);
    if last == [] { NoParts(); } else { PartsRead(isCopy, s, f, last); }
    OpenFails(isCopy, s, f + |AllWritten(last)|, if last == [] then None else Some(f), what);
  }

  lemma NoParts()
    ensures AllWritten([]) == ""
  {
  }

  lemma OpenFails(isCopy: string -> bool, s: string, g: nat, open: Option<nat>, what: What)
    requires NeverEnds(s, g, what) && (open.Some? ==> open.value <= g)
    ensures g < |s| && Script(isCopy, s, g, open) == Failed(Lines(s, g), what)
  {
    hide PieceAt, Lines, NeverEnds;
    OpenPiece(s, g, what);
    NotBackslash(s, g, what);
  }

  lemma NotBackslash(s: string, g: nat, what: What)
    requires NeverEnds(s, g, what)
    ensures g < |s| && s[g] != '\\'
  {
    hide Name;
    if what.BlockComment? { Head(s, g, "/*"); }
    if what.DollarQuote? { Head(s, g, what.tag); }
  }

  /** A whole script of one statement and its semicolon is exactly one command. */
  lemma OneStatement(isCopy: string -> bool, parts: seq<Part>)
    requires var s := AllWritten(parts) + ";"; AllStand(s, 0, parts) && Begins(s, 0, parts) && !isCopy(TrimRight(AllWritten(parts)))
    ensures Parse(isCopy, AllWritten(parts) + ";") == Parsed([Command(1, TrimRight(AllWritten(parts)), "", None)])
  {
    hide AllStand, AllWritten, Begins, TrimRight, Rows;
    var s := AllWritten(parts) + ";";
    StatementIsOne(isCopy, s, 0, parts);
    ScriptEnds(isCopy, s);
  }

  /** A block in dollar quotes, whatever semicolons and quotes it holds, is one command. */
  lemma DollarBlock(isCopy: string -> bool, name: string, body: string)
    requires Name(name) && forall k :: 0 <= k < |body| ==> !Occurs(body + Tag(name), k, Tag(name))
    requires !isCopy(Tag(name) + (body + Tag(name)))
    ensures var sql := Tag(name) + (body + Tag(name));
      Parse(isCopy, sql + ";") == Parsed([Command(1, sql, "", None)])
  {
    hide Name, Script;
    var part := Dollars(name, body);
    var s := Written(part) + ";";
    assert AllWritten([part]) == Written(part) by { assert [part][1..] == []; assert Written(part) + "" == Written(part); }
    assert s[0..|Written(part)|] == Written(part);
    assert Stands(s, 0, part);
    assert AllStand(s, 0, [part]) by { assert [part][1..] == []; }
    TrimDollar(Written(part));
    OneStatement(isCopy, [part]);
  }

  lemma TrimDollar(t: string)
    requires t != "" && t[|t| - 1] == '$'
    ensures TrimRight(t) == t
  {
  }
}
