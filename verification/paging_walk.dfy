/**
  The walk towards the beginning of a file of any bytes: when following the
  published cursors ends, when a request is refused, and when it gets stuck on an
  empty page that asks for itself.
*/
module PagingWalk {
  import opened Wrappers
  import opened Messages
  import opened StoreModel
  import opened TailReader
  import opened TailFacts
  import opened Paging
  import opened PagingTheorems

  datatype WalkEnd = Ended | Refused | Stuck

  /** Follow the published cursors until there is no more, or no progress. */
  function Walk(c: Codec, hash: string -> string, content: string, before: nat, boundaryEnd: int,
                boundaryHash: string, limit: nat): WalkEnd
    decreases before
  {
    match PageOf(c, hash, Some(content), before, boundaryEnd, boundaryHash, limit)
    case Err(_) => Refused
    case Ok(p) =>
      if !p.hasMore then Ended
      else if p.startOffset < before then Walk(c, hash, content, p.startOffset, p.boundaryEnd, p.boundaryHash, limit)
      else Stuck
  }

  /** What the HTTP handler asks of a cursor before it calls the repository. */
  predicate HandlerAccepts(before: int, boundaryEnd: int, boundaryHash: string) {
    before > 0 && boundaryEnd > before && boundaryHash != ""
  }

  /** JSON ignores white space behind a value, and an empty text is none. */
  ghost predicate IgnoresReturns(c: Codec) {
    c.decode("") == None && forall s :: c.decode(s + "\r") == c.decode(s)
  }

  /** Some row before a newline ends in two carriage returns. */
  predicate DoubledReturn(content: string) {
    exists i :: 0 <= i < |content| - 2 && content[i] == '\r' && content[i + 1] == '\r' && content[i + 2] == '\n'
  }

  /** The line ends that are dropped behind a row do not change what is read. */
  ghost predicate RowsAgree(c: Codec, content: string) { IgnoresReturns(c) || !DoubledReturn(content) }

  lemma DoubledAt(content: string, i: nat)
    requires i + 2 < |content| && content[i] == '\r' && content[i + 1] == '\r' && content[i + 2] == '\n'
    ensures DoubledReturn(content)
  {
  }

  function OrElse(a: Option<Role>, b: Option<Role>): Option<Role> { if a.Some? then a else b }

  function RoleOf(c: Codec, ls: seq<Line>): Option<Role> { FirstRole(c, Texts(ls)) }

  /** The role of the first readable row before an offset that is no system row. */
  function RoleBefore(c: Codec, content: string, end: nat): Option<Role>
    requires end <= |content|
  {
    RoleOf(c, LinesBefore(content, end))
  }

  // ------------------------------------------------------------------ rows and roles

  lemma {:induction false} FirstRoleConcat(c: Codec, a: seq<string>, b: seq<string>)
    ensures FirstRole(c, a + b) == OrElse(FirstRole(c, a), FirstRole(c, b))
  {
    if a == [] {
      assert a + b == b;
    } else {
      assert (a + b)[1..] == a[1..] + b;
      FirstRoleConcat(c, a[1..], b);
    }
  }

  lemma RoleConcat(c: Codec, a: seq<Line>, b: seq<Line>)
    ensures RoleOf(c, a + b) == OrElse(RoleOf(c, a), RoleOf(c, b))
  {
    hide FirstRole;
    assert Texts(a + b) == Texts(a) + Texts(b);
    FirstRoleConcat(c, Texts(a), Texts(b));
  }

  lemma NoLineNoRole(c: Codec)
    ensures RoleOf(c, []) == None
  {
  }

  /** The same on the rows that were read. */
  function FirstOf(rows: seq<(Message, nat)>): Option<Role> {
    if rows == [] then None
    else
      var role := rows[|rows| - 1].0.role;
      OrElse(FirstOf(rows[..|rows| - 1]), if role != System then Some(role) else None)
  }

  lemma RoleOfOne(c: Codec, l: Line)
    ensures var m := c.decode(l.text);
      RoleOf(c, [l]) == if m.Some? && m.value.role != System then Some(m.value.role) else None
  {
    assert Texts([l]) == [l.text];
    assert [l.text][0] == l.text && [l.text][1..] == [] && FirstRole(c, []) == None;
  }

  lemma {:induction false} RoleIsFirst(c: Codec, ls: seq<Line>)
    ensures RoleOf(c, ls) == FirstOf(Parsed(c, ls))
  {
    if ls == [] {
      NoLineNoRole(c);
    } else {
      var n := |ls| - 1;
      RoleIsFirst(c, ls[..n]);
      RoleConcat(c, ls[..n], ls[n..]);
      assert ls == ls[..n] + ls[n..];
      RoleOfOne(c, ls[n]);
      assert ls[n..] == [ls[n]];
      hide RoleOf;
      var front := Parsed(c, ls[..n]);
      assert forall r :: (front + [r])[..|front|] == front;
    }
  }

  lemma ReturnIsIgnored(c: Codec, s: string)
    requires IgnoresReturns(c)
    ensures c.decode("") == None && c.decode(s + "\r") == c.decode(s)
  {
  }

  lemma RowOfLine(c: Codec, row: string, off: nat)
    requires IgnoresReturns(c)
    ensures Parsed(c, LineOf(row, off)) == var m := c.decode(row); if m.Some? then [(m.value, off)] else []
  {
    var t := Chomp(row);
    ReturnIsIgnored(c, t);
    assert row == t || row == t + "\r";
    hide IgnoresReturns;
    assert [Line(off, t)][..0] == [];
  }

  /** Where the last row of a text begins. */
  function LastRowStart(s: string): (o: nat)
    ensures o <= |s| && (o > 0 ==> s[o - 1] == '\n') && forall i :: o <= i < |s| ==> s[i] != '\n'
  {
    if s == "" || s[|s| - 1] == '\n' then |s| else LastRowStart(s[..|s| - 1])
  }

  /** The lines of the rows in front of the one that begins at `o`. */
  function RowsBefore(s: string, o: nat): seq<Line>
    requires o <= |s|
  {
    if o == 0 then [] else Lines(s[..o - 1], 0)
  }

  lemma LinesByLastRow(s: string)
    ensures var o := LastRowStart(s);
      Lines(s, 0) == RowsBefore(s, o) + LineOf(s[o..], o)
  {
    hide Lines, LineOf, LastRowStart;
    var o := LastRowStart(s);
    if o == 0 {
      assert s[0..] == s;
      LastRow(s, 0);
    } else {
      LinesSnoc(s, o - 1, 0);
    }
  }

  lemma LastRowWithReturn(c: Codec, head: seq<Line>, row: string, off: nat)
    requires IgnoresReturns(c)
    ensures Parsed(c, head + LineOf(row + "\r", off)) == Parsed(c, head + LineOf(row, off))
  {
    hide LineOf, Parsed, IgnoresReturns;
    ParsedConcat(c, head, LineOf(row, off));
    ParsedConcat(c, head, LineOf(row + "\r", off));
    RowOfLine(c, row, off);
    RowOfLine(c, row + "\r", off);
    ReturnIsIgnored(c, row);
  }

  lemma NoLineOfNothing(off: nat)
    ensures LineOf("", off) == [] && forall ls: seq<Line> :: ls + LineOf("", off) == ls
  {
  }

  lemma DropOneNewline(s: string)
    requires s != "" && s[|s| - 1] == '\n'
    ensures Lines(s, 0) == Lines(s[..|s| - 1], 0)
  {
    hide Lines, LineOf;
    var n := |s| - 1;
    LinesSnoc(s, n, 0);
    assert s[n + 1..] == "";
    NoLineOfNothing(n + 1);
  }

  lemma SplitWithReturn(s: string, u: string, o: nat)
    requires s == u + "\r" && o <= |u|
    ensures s[o..] == u[o..] + "\r" && RowsBefore(s, o) == RowsBefore(u, o)
  {
    hide Lines;
    assert o > 0 ==> s[..o - 1] == u[..o - 1];
  }

  lemma SameLastRow(s: string, u: string)
    requires s != "" && s[|s| - 1] != '\n' && u == s[..|s| - 1]
    ensures LastRowStart(s) == LastRowStart(u)
  {
  }

  lemma DropOneReturn(c: Codec, u: string)
    requires IgnoresReturns(c)
    ensures Parsed(c, Lines(u + "\r", 0)) == Parsed(c, Lines(u, 0))
  {
    var s, o := u + "\r", LastRowStart(u);
    SameLastRow(s, u);
    hide *;
    LinesByLastRow(u);
    LinesByLastRow(s);
    SplitWithReturn(s, u, o);
    LastRowWithReturn(c, RowsBefore(u, o), u[o..], o);
  }

  /** A trailing line end does not change what is read. */
  lemma DropOneEol(c: Codec, s: string)
    requires IgnoresReturns(c) && s != "" && IsEol(s[|s| - 1])
    ensures Parsed(c, Lines(s, 0)) == Parsed(c, Lines(s[..|s| - 1], 0))
  {
    hide Lines, Parsed, IgnoresReturns;
    if s[|s| - 1] == '\n' {
      DropOneNewline(s);
    } else {
      assert s == s[..|s| - 1] + "\r";
      DropOneReturn(c, s[..|s| - 1]);
    }
  }

  lemma {:induction false} TrimKeepsRows(c: Codec, s: string)
    requires IgnoresReturns(c)
    ensures Parsed(c, Lines(TrimEol(s), 0)) == Parsed(c, Lines(s, 0))
  {
    hide Lines, Parsed, IgnoresReturns;
    if s != "" && IsEol(s[|s| - 1]) {
      DropOneEol(c, s);
      TrimKeepsRows(c, s[..|s| - 1]);
    }
  }

  /** Splitting a text at the start of a row splits its lines. */
  lemma {:induction false} LinesSplit(s: string, o: nat, base: nat)
    requires 0 < o <= |s| && s[o - 1] == '\n'
    ensures Lines(s, base) == Lines(s[..o - 1], base) + Lines(s[o..], base + o)
    decreases |s|
  {
    hide Lines, LineOf, FirstNewline;
    NewlineBound(s, o - 1);
    var k := FirstNewline(s);
    LinesCons(s, base);
    var t := s[k + 1..];
    if k == o - 1 {
      LastRow(s[..k], base);
    } else {
      assert t[o - k - 2] == '\n';
      LinesSplit(t, o - k - 1, base + k + 1);
      FirstNewlineOfPrefix(s, o - 1);
      LinesCons(s[..o - 1], base);
      assert s[..o - 1][..k] == s[..k];
      assert s[..o - 1][k + 1..] == t[..o - k - 2];
      DropDrop(s, k + 1, o - k - 1);
    }
  }

  /** What is read before the start of a row is what its text in front holds. */
  lemma RowsOfPrefix(c: Codec, content: string, o: nat)
    requires IgnoresReturns(c) && 0 < o <= |content| && content[o - 1] == '\n'
    ensures Parsed(c, LinesBefore(content, o)) == Parsed(c, Lines(content[..o - 1], 0))
  {
    hide Lines, Parsed, IgnoresReturns, TrimEol;
    TrimKeepsRows(c, content[..o]);
    DropOneEol(c, content[..o]);
    assert content[..o][..o - 1] == content[..o - 1];
  }

  // ------------------------------------------------------------------- rows of pages

  /** A page and the rows before it are the given rows. */
  predicate KeepsRows(c: Codec, content: string, k: Chunk, rows: seq<(Message, nat)>) {
    k.start <= |content| && Parsed(c, LinesBefore(content, k.start)) + Parsed(c, k.lines) == rows
  }

  ghost predicate KeepsRole(c: Codec, content: string, k: Chunk, role: Option<Role>) {
    k.start <= |content| && OrElse(RoleBefore(c, content, k.start), RoleOf(c, k.lines)) == role
  }

  lemma CutByOffset(ls: seq<Line>, a: seq<Line>, b: seq<Line>, i: nat, o: nat)
    requires ls == a + b && Rising(ls) && i < |ls| && ls[i].off == o
    requires forall j :: 0 <= j < |a| ==> a[j].off < o
    requires forall j :: 0 <= j < |b| ==> b[j].off >= o
    ensures ls[..i] == a
  {
    assert forall j :: 0 <= j < |a| ==> ls[j] == a[j];
    assert forall j :: 0 <= j < |b| ==> ls[|a| + j] == b[j];
    assert i >= |a|;
    assert ls[|a|] == b[0];
  }

  /** The lines from the first one of a suffix on are the lines of the text from its offset on. */
  lemma SuffixByOffset(s: string, i: nat)
    requires i < |Lines(s, 0)|
    ensures var ls, o := Lines(s, 0), Lines(s, 0)[i].off;
      && o <= |s| && (o > 0 ==> s[o - 1] == '\n')
      && (o == 0 ==> i == 0)
      && (o > 0 ==> ls[..i] == Lines(s[..o - 1], 0))
  {
    hide Lines, RowAt, Chomp;
    var ls := Lines(s, 0);
    var o := ls[i].off;
    LinesAreTheRows(s, 0, ls[i]);
    LinesRise(s, 0);
    assert i > 0 ==> ls[0].off < ls[i].off;
    if o > 0 {
      LinesSplit(s, o, 0);
      LinesRise(s[..o - 1], 0);
      LinesRise(s[o..], o);
      CutByOffset(ls, Lines(s[..o - 1], 0), Lines(s[o..], o), i, o);
    }
  }

  lemma LastRowNotReturn(u: string, o: nat)
    requires o <= |u| && (u == "" || u[|u| - 1] != '\r')
    ensures LineOf(u[o..] + "\r", o) == LineOf(u[o..], o)
  {
    var row := u[o..];
    assert row != "" ==> row[|row| - 1] == u[|u| - 1];
    assert Chomp(row + "\r") == row == Chomp(row);
  }

  lemma DropLastReturn(u: string)
    requires u == "" || u[|u| - 1] != '\r'
    ensures Lines(u + "\r", 0) == Lines(u, 0)
  {
    var s, o := u + "\r", LastRowStart(u);
    SameLastRow(s, u);
    LastRowNotReturn(u, o);
    hide *;
    LinesByLastRow(u);
    LinesByLastRow(s);
    SplitWithReturn(s, u, o);
  }

  lemma TrimDropsOne(s: string)
    requires s != "" && IsEol(s[|s| - 1])
    ensures TrimEol(s) == TrimEol(s[..|s| - 1])
  {
  }

  lemma TrimOfNothing(content: string)
    ensures TrimEol(content[..0]) == content[..0]
  {
  }

  lemma {:induction false} TrimAtRow(content: string, n: nat)
    requires n <= |content| && !DoubledReturn(content) && (n > 0 ==> content[n - 1] != '\r')
    ensures Lines(TrimEol(content[..n]), 0) == Lines(content[..n], 0)
    decreases n, 1
  {
    if n > 0 && content[n - 1] != '\n' {
      assert TrimEol(content[..n]) == content[..n];
    } else {
      TrimKeepsLines(content, n);
    }
  }

  /** Where no row ends in two carriage returns the dropped line ends carry no line. */
  lemma {:induction false} TrimKeepsLines(content: string, n: nat)
    requires n <= |content| && !DoubledReturn(content) && (n > 0 ==> content[n - 1] == '\n')
    ensures Lines(TrimEol(content[..n]), 0) == Lines(content[..n], 0)
    decreases n, 0
  {
    hide Lines, TrimEol, DoubledReturn;
    if n > 0 {
      var s := content[..n];
      assert s[..n - 1] == content[..n - 1];
      DropOneNewline(s);
      TrimDropsOne(s);
      if n > 1 && content[n - 2] == '\r' {
        var u := content[..n - 2];
        if n > 2 && content[n - 3] == '\r' {
          DoubledAt(content, n - 3);
        }
        assert content[..n - 1] == u + "\r" && (u + "\r")[..n - 2] == u;
        DropLastReturn(u);
        TrimDropsOne(u + "\r");
        TrimAtRow(content, n - 2);
      } else {
        TrimAtRow(content, n - 1);
      }
    } else {
      TrimOfNothing(content);
    }
  }

  lemma NoLinesOfNothing(content: string)
    ensures LinesBefore(content, 0) == []
  {
    assert content[..0] == "";
  }

  /** The lines before the offset of a line are those in front of it. */
  lemma LinesOfFront(content: string, end: nat, i: nat)
    requires !DoubledReturn(content) && end <= |content| && i < |LinesBefore(content, end)|
    ensures var ls := LinesBefore(content, end);
      && ls[i].off <= |content| && (ls[i].off == 0 ==> i == 0)
      && LinesBefore(content, ls[i].off) == ls[..i]
  {
    hide Lines, TrimEol, DoubledReturn;
    var s, ls := TrimEol(content[..end]), LinesBefore(content, end);
    TrimmedPrefix(content, end);
    SuffixByOffset(s, i);
    var o := ls[i].off;
    if o > 0 {
      assert content[o - 1] == s[o - 1];
      assert s[..o - 1] == content[..o - 1] == content[..o][..o - 1];
      DropOneNewline(content[..o]);
    }
    TrimKeepsLines(content, o);
    if o == 0 {
      NoLinesOfNothing(content);
    }
  }

  lemma TrimmedFront(c: Codec, content: string, end: nat, i: nat)
    requires IgnoresReturns(c) && end <= |content| && i < |LinesBefore(content, end)|
    ensures var ls := LinesBefore(content, end);
      ls[i].off <= |content| && Parsed(c, LinesBefore(content, ls[i].off)) == Parsed(c, ls[..i])
  {
    hide Lines, TrimEol, Parsed, IgnoresReturns;
    var s := TrimEol(content[..end]);
    var ls := LinesBefore(content, end);
    TrimmedPrefix(content, end);
    SuffixByOffset(s, i);
    var o := ls[i].off;
    if o > 0 {
      assert content[o - 1] == s[o - 1];
      assert s[..o - 1] == content[..o - 1];
      RowsOfPrefix(c, content, o);
    } else {
      NoLinesOfNothing(content);
      assert ls[..0] == [];
    }
  }

  /** What is read before the offset of a line is what was read in front of it. */
  lemma FrontIsRead(c: Codec, content: string, end: nat, i: nat)
    requires RowsAgree(c, content) && end <= |content| && i < |LinesBefore(content, end)|
    ensures var ls := LinesBefore(content, end);
      ls[i].off <= |content| && Parsed(c, LinesBefore(content, ls[i].off)) == Parsed(c, ls[..i])
  {
    hide LinesBefore, Parsed, IgnoresReturns, DoubledReturn;
    if IgnoresReturns(c) {
      TrimmedFront(c, content, end, i);
    } else {
      LinesOfFront(content, end, i);
    }
  }

  lemma FirstChunkIs(content: string, end: nat, limit: nat)
    requires end <= |content| && limit > 0
    ensures var ls, k := LinesBefore(content, end), FirstChunk(content, end, limit); var i := |ls| - |k.lines|;
      && i >= 0 && k.lines == ls[i..] && k.start == (if ls == [] then end else ls[i].off) && (ls != [] ==> i < |ls|)
  {
    hide LinesBefore;
  }

  lemma FirstChunkRows(c: Codec, content: string, end: nat, limit: nat)
    requires RowsAgree(c, content) && end <= |content| && limit > 0
    ensures KeepsRows(c, content, FirstChunk(content, end, limit), Parsed(c, LinesBefore(content, end)))
  {
    hide LinesBefore, RowsAgree, FirstChunk;
    var ls := LinesBefore(content, end);
    var k := FirstChunk(content, end, limit);
    FirstChunkIs(content, end, limit);
    if ls != [] {
      var i := |ls| - |k.lines|;
      FrontIsRead(c, content, end, i);
      assert ls == ls[..i] + ls[i..];
      ParsedConcat(c, ls[..i], ls[i..]);
    }
  }

  lemma {:induction false} ExtendKeepsRows(c: Codec, content: string, k: Chunk, rows: seq<(Message, nat)>)
    requires RowsAgree(c, content) && KeepsRows(c, content, k, rows)
    ensures KeepsRows(c, content, Extend(c, content, k), rows)
    decreases k.start
  {
    hide LinesBefore, Parsed, RowsAgree;
    if StartsInTool(c, k) {
      var e := LastLine(content, k.start);
      LastLineIsChunk(content, k.start);
      if e != [] {
        FirstChunkRows(c, content, k.start, 1);
        ParsedConcat(c, e, k.lines);
        assert FirstChunk(content, k.start, 1).start == e[0].off;
        ExtendKeepsRows(c, content, Chunk(e + k.lines, e[0].off, e[0].off > 0), rows);
      }
    }
  }

  /** A page holds what the rows before its offset hold and those before its start do not. */
  lemma PageKeepsRows(c: Codec, content: string, before: nat, limit: nat)
    requires RowsAgree(c, content) && before <= |content| && limit > 0
    ensures var k := Extend(c, content, FirstChunk(content, before, limit));
      KeepsRows(c, content, k, Parsed(c, LinesBefore(content, before)))
  {
    hide *;
    FirstChunkRows(c, content, before, limit);
    ExtendKeepsRows(c, content, FirstChunk(content, before, limit), Parsed(c, LinesBefore(content, before)));
  }

  lemma RowsKeepRole(c: Codec, content: string, k: Chunk, end: nat)
    requires end <= |content| && KeepsRows(c, content, k, Parsed(c, LinesBefore(content, end)))
    ensures KeepsRole(c, content, k, RoleBefore(c, content, end))
  {
    hide LinesBefore, Parsed, RoleOf, FirstOf;
    var older := LinesBefore(content, k.start);
    RoleConcat(c, older, k.lines);
    ParsedConcat(c, older, k.lines);
    RoleIsFirst(c, older + k.lines);
    RoleIsFirst(c, LinesBefore(content, end));
  }

  lemma NoLastLine(content: string, end: nat)
    requires end <= |content|
    ensures LastLine(content, end) == [] <==> LinesBefore(content, end) == []
  {
    hide LinesBefore;
  }

  /** How a page comes out of its extension. */
  lemma {:induction false} ExtendOutcome(c: Codec, content: string, k: Chunk)
    requires k.start <= |content| && (k.more <==> k.start > 0)
    ensures var u := Extend(c, content, k);
      && u.start <= k.start
      && (u.more ==> u.start > 0 && RoleOf(c, u.lines) != Some(Tool))
      && (!u.more ==> u.start == 0 || (LinesBefore(content, u.start) == [] && RoleOf(c, u.lines) == Some(Tool)))
      && (u.lines == [] ==> u.start == k.start && k.lines == [])
    decreases k.start
  {
    hide LinesBefore, FirstRole;
    if StartsInTool(c, k) {
      var e := LastLine(content, k.start);
      NoLastLine(content, k.start);
      if e != [] {
        ExtendOutcome(c, content, Chunk(e + k.lines, e[0].off, e[0].off > 0));
      }
    }
  }

  // -------------------------------------------------------------- the head of a file

  predicate HasText(row: string) { exists i :: 0 <= i < |row| && row[i] != '\r' }

  /** The first row of a file has a visible character. */
  predicate HeadHasText(content: string) { HasText(HeadRow(content)) }

  /** The first row is empty, or one carriage return. */
  predicate HeadIsBlank(content: string) { HeadRow(content) == "" || HeadRow(content) == "\r" }

  predicate AtRow(content: string, e: nat) {
    0 < e <= |content| && (e == |content| || content[e - 1] == '\n')
  }

  lemma TextBeforeRow(content: string, e: nat)
    requires HeadHasText(content) && AtRow(content, e)
    ensures LinesBefore(content, e) != []
  {
    NoLinesIffBlank(content, e);
    hide LinesBefore;
    var row := HeadRow(content);
    var i :| 0 <= i < |row| && row[i] != '\r';
    var k := FirstNewline(content);
    assert row[i] == content[i] && i < k;
    if e < |content| {
      NewlineBound(content, e - 1);
    }
    assert !IsEol(content[i]);
  }

  lemma HeadOfPrefix(content: string, s: string)
    requires HeadIsBlank(content) && |s| <= |content| && forall j :: 0 <= j < |s| ==> s[j] == content[j]
    ensures Chomp(HeadRow(s)) == ""
  {
    var k, j := FirstNewline(content), FirstNewline(s);
    if k < |s| && k < |content| {
      NewlineBound(s, k);
    }
    assert HeadRow(s) == HeadRow(content)[..j];
    hide FirstNewline;
    assert HeadRow(s) == "" || HeadRow(s) == "\r";
  }

  /** With a blank first row no line starts the file. */
  lemma NoLineAtStart(content: string, e: nat, l: Line)
    requires HeadIsBlank(content) && e <= |content| && l in LinesBefore(content, e)
    ensures l.off > 0
  {
    var s := TrimEol(content[..e]);
    TrimmedPrefix(content, e);
    LinesAreTheRows(s, 0, l);
    hide Lines, TrimEol, LinesBefore;
    HeadOfPrefix(content, s);
    assert s[0..] == s;
  }

  lemma LastIsLine(content: string, end: nat)
    requires end <= |content| && LastLine(content, end) != []
    ensures LastLine(content, end)[0] in LinesBefore(content, end)
  {
    var ls := LinesBefore(content, end);
    hide LinesBefore;
    assert LastLine(content, end)[0] == ls[|ls| - 1];
  }

  lemma {:induction false} ExtendNotAtStart(c: Codec, content: string, k: Chunk)
    requires HeadIsBlank(content) && 0 < k.start <= |content|
    ensures Extend(c, content, k).start > 0
    decreases k.start
  {
    hide LinesBefore, FirstRole, HeadRow;
    if StartsInTool(c, k) {
      var e := LastLine(content, k.start);
      if e != [] {
        LastIsLine(content, k.start);
        NoLineAtStart(content, k.start, e[0]);
        ExtendNotAtStart(c, content, Chunk(e + k.lines, e[0].off, e[0].off > 0));
      }
    }
  }

  lemma FirstChunkNotAtStart(content: string, end: nat, limit: nat)
    requires HeadIsBlank(content) && 0 < end <= |content|
    ensures FirstChunk(content, end, limit).start > 0
  {
    var ls := LinesBefore(content, end);
    var k := FirstChunk(content, end, limit);
    hide LinesBefore, HeadRow;
    if k.lines != [] {
      assert k.lines[0] == ls[|ls| - |k.lines|];
      NoLineAtStart(content, end, k.lines[0]);
    }
  }

  // -------------------------------------------------------------------------- the walk

  lemma AcceptedPage(c: Codec, hash: string -> string, content: string, before: nat, boundaryEnd: int,
                     boundaryHash: string, limit: nat)
    requires before <= |content| && limit > 0
    requires boundaryEnd <= 0 || CursorHolds(hash, Some(content), before, boundaryEnd, boundaryHash)
    requires before > 0 || content == ""
    ensures PageOf(c, hash, Some(content), before, boundaryEnd, boundaryHash, limit) ==
              Ok(PageBefore(c, hash, content, before, limit))
  {
    hide LinesBefore, LastLine, FirstChunk, Extend, PageOfChunk, PageBefore, CursorHolds;
  }

  /** One accepted request: the page's extent, as the extended chunk says. */
  lemma PageExtent(c: Codec, hash: string -> string, content: string, before: nat, boundaryEnd: int,
                   boundaryHash: string, limit: nat)
    requires before <= |content| && limit > 0
    requires boundaryEnd <= 0 || CursorHolds(hash, Some(content), before, boundaryEnd, boundaryHash)
    requires before > 0 || content == ""
    ensures PageOf(c, hash, Some(content), before, boundaryEnd, boundaryHash, limit) ==
              Ok(PageBefore(c, hash, content, before, limit))
    ensures var k, p := Extend(c, content, FirstChunk(content, before, limit)),
          PageBefore(c, hash, content, before, limit);
      p.startOffset == k.start && p.hasMore == k.more
  {
    hide *;
    AcceptedPage(c, hash, content, before, boundaryEnd, boundaryHash, limit);
    PageBeforeMeans(c, hash, content, before, limit);
  }

  lemma FirstChunkLines(content: string, before: nat, limit: nat)
    requires before <= |content| && limit > 0
    ensures var k := FirstChunk(content, before, limit);
      (k.lines == [] <==> LinesBefore(content, before) == []) && (k.lines == [] ==> k.start == before) &&
        (k.lines != [] ==> k.start < before)
  {
    if LinesBefore(content, before) != [] {
      LinesStartBefore(content, before, limit);
    }
    hide LinesBefore;
  }

  lemma EmptyPageStays(c: Codec, content: string, first: Chunk, before: nat)
    requires 0 < before <= |content| && first.start <= |content| && (first.more <==> first.start > 0)
    requires first.lines == [] ==> first.start == before
    requires first.lines != [] ==> first.start < before
    ensures first.lines == [] ==> Extend(c, content, first) == first && first.more
    ensures first.lines != [] ==> Extend(c, content, first).start < before
  {
    hide LinesBefore, LastLine;
    ExtendStarts(c, content, first);
    if first.lines == [] {
      assert Texts(first.lines) == [];
    }
  }

  /** What a page says of the rest of the walk. */
  lemma PageStep(c: Codec, content: string, before: nat, limit: nat)
    requires RowsAgree(c, content) && 0 < before <= |content| && limit > 0
    ensures var k := Extend(c, content, FirstChunk(content, before, limit));
      && k.start <= before
      && KeepsRole(c, content, k, RoleBefore(c, content, before))
      && (k.more ==> k.start > 0 && RoleOf(c, k.lines) != Some(Tool))
      && (!k.more ==> k.start == 0 || (LinesBefore(content, k.start) == [] && RoleOf(c, k.lines) == Some(Tool)))
      && (k.more && k.start == before <==> LinesBefore(content, before) == [])
      && (k.more && k.start < before ==> AtRow(content, k.start))
      && (HeadIsBlank(content) ==> k.start > 0)
  {
    hide LinesBefore, RoleOf, RowsAgree, HeadIsBlank;
    var first := FirstChunk(content, before, limit);
    PageKeepsRows(c, content, before, limit);
    RowsKeepRole(c, content, Extend(c, content, first), before);
    ChunkHasStart(content, before, limit);
    ExtendOutcome(c, content, first);
    FirstChunkHeaded(content, before, limit);
    ExtendHeaded(c, content, first, before);
    FirstChunkLines(content, before, limit);
    if HeadIsBlank(content) {
      FirstChunkNotAtStart(content, before, limit);
      ExtendNotAtStart(c, content, first);
    }
    hide FirstChunk, Extend, KeepsRole;
    EmptyPageStays(c, content, first, before);
  }

  /** The first request of a walk, or one whose cursor the repository accepts. */
  predicate Accepted(hash: string -> string, content: string, before: nat, boundaryEnd: int, boundaryHash: string) {
    boundaryEnd <= 0 || CursorHolds(hash, Some(content), before, boundaryEnd, boundaryHash)
  }

  lemma WalkStep(c: Codec, hash: string -> string, content: string, before: nat, boundaryEnd: int,
                 boundaryHash: string, limit: nat)
    requires 0 < before <= |content| && limit > 0
    ensures var w := Walk(c, hash, content, before, boundaryEnd, boundaryHash, limit);
      var k, p := Extend(c, content, FirstChunk(content, before, limit)), PageBefore(c, hash, content, before, limit);
      if !Accepted(hash, content, before, boundaryEnd, boundaryHash) then w == Refused
      else if !k.more then w == Ended
      else if k.start < before then w == Walk(c, hash, content, k.start, p.boundaryEnd, p.boundaryHash, limit)
      else w == Stuck
  {
    hide Extend, FirstChunk, PageBefore, CursorHolds;
    if Accepted(hash, content, before, boundaryEnd, boundaryHash) {
      PageExtent(c, hash, content, before, boundaryEnd, boundaryHash, limit);
    }
  }

  /** A file whose first row has text is read to its beginning. */
  lemma {:induction false} WalkWithText(c: Codec, hash: string -> string, content: string, before: nat,
                                        boundaryEnd: int, boundaryHash: string, limit: nat)
    requires RowsAgree(c, content) && AtRow(content, before) && limit > 0 && HeadHasText(content)
    ensures Walk(c, hash, content, before, boundaryEnd, boundaryHash, limit) != Stuck
    decreases before
  {
    hide Walk, LinesBefore, RoleOf, RowsAgree, HeadHasText;
    hide Extend, FirstChunk, PageBefore, Accepted, KeepsRole, HeadIsBlank;
    var p := PageBefore(c, hash, content, before, limit);
    var k := Extend(c, content, FirstChunk(content, before, limit));
    WalkStep(c, hash, content, before, boundaryEnd, boundaryHash, limit);
    PageStep(c, content, before, limit);
    TextBeforeRow(content, before);
    if k.more && k.start < before {
      WalkWithText(c, hash, content, k.start, p.boundaryEnd, p.boundaryHash, limit);
    }
  }

  /** A file whose first readable row is a tool row is read to its beginning. */
  lemma {:induction false} WalkToTool(c: Codec, hash: string -> string, content: string, before: nat,
                                      boundaryEnd: int, boundaryHash: string, limit: nat)
    requires RowsAgree(c, content) && AtRow(content, before) && limit > 0
    requires RoleBefore(c, content, before) == Some(Tool)
    ensures Walk(c, hash, content, before, boundaryEnd, boundaryHash, limit) != Stuck
    decreases before
  {
    NoLineNoRole(c);
    assert LinesBefore(content, before) != [];
    hide Walk, LinesBefore, RoleOf, RowsAgree, Extend, FirstChunk, PageBefore, Accepted, HeadIsBlank;
    var p := PageBefore(c, hash, content, before, limit);
    var k := Extend(c, content, FirstChunk(content, before, limit));
    WalkStep(c, hash, content, before, boundaryEnd, boundaryHash, limit);
    PageStep(c, content, before, limit);
    if k.more && k.start < before {
      WalkToTool(c, hash, content, k.start, p.boundaryEnd, p.boundaryHash, limit);
    }
  }

  /** Behind a blank first row, only the extension to a tool row's round stops the walk. */
  lemma {:induction false} WalkPastBlank(c: Codec, hash: string -> string, content: string, before: nat,
                                         boundaryEnd: int, boundaryHash: string, limit: nat)
    requires RowsAgree(c, content) && AtRow(content, before) && limit > 0 && HeadIsBlank(content)
    requires RoleBefore(c, content, before) != Some(Tool)
    ensures Walk(c, hash, content, before, boundaryEnd, boundaryHash, limit) != Ended
    decreases before
  {
    NoLineNoRole(c);
    var p := PageBefore(c, hash, content, before, limit);
    var k := Extend(c, content, FirstChunk(content, before, limit));
    WalkStep(c, hash, content, before, boundaryEnd, boundaryHash, limit);
    PageStep(c, content, before, limit);
    assert LinesBefore(content, k.start) == [] ==> RoleBefore(c, content, k.start) == None;
    hide Walk, LinesBefore, RoleOf, RowsAgree, Extend, FirstChunk, PageBefore, Accepted, HeadIsBlank;
    if k.more && k.start < before {
      WalkPastBlank(c, hash, content, k.start, p.boundaryEnd, p.boundaryHash, limit);
    }
  }

  lemma EmptyWalk(c: Codec, hash: string -> string, content: string, limit: nat)
    requires content == "" && limit > 0
    ensures Walk(c, hash, content, 0, 0, "", limit) == Ended
  {
    PageExtent(c, hash, content, 0, 0, "", limit);
    NoLinesIffBlank(content, 0);
    var k := FirstChunk(content, 0, limit);
    assert k == Chunk([], 0, false);
    hide LinesBefore;
  }

  /**
    For every file and every limit: unless a cursor is refused, the walk from the end
    ends if the file is empty, its first row has text, or its first readable row that
    is no system row is a tool row; and on a file with a blank first row only then.
    Where the first row is two or more bare carriage returns it can also depend on
    the limit, see ReturnsAtTheHead.
  */
  lemma WalkEndsIff(c: Codec, hash: string -> string, content: string, limit: nat)
    requires RowsAgree(c, content) && limit > 0
    ensures var w := Walk(c, hash, content, |content|, 0, "", limit);
      var ends := content == "" || HeadHasText(content) || RoleBefore(c, content, |content|) == Some(Tool);
      && (w != Refused && ends ==> w == Ended)
      && (w == Ended && HeadIsBlank(content) ==> ends)
  {
    if content == "" {
      EmptyWalk(c, hash, content, limit);
    } else if HeadHasText(content) {
      WalkWithText(c, hash, content, |content|, 0, "", limit);
    } else if RoleBefore(c, content, |content|) == Some(Tool) {
      WalkToTool(c, hash, content, |content|, 0, "", limit);
    } else if HeadIsBlank(content) {
      WalkPastBlank(c, hash, content, |content|, 0, "", limit);
    }
  }

  /** A first row is one of the three. */
  lemma HeadCases(content: string)
    ensures !(HeadHasText(content) && HeadIsBlank(content))
    ensures !HeadHasText(content) && !HeadIsBlank(content) <==>
      |HeadRow(content)| >= 2 && forall i :: 0 <= i < |HeadRow(content)| ==> HeadRow(content)[i] == '\r'
  {
    hide HeadRow;
    var row := HeadRow(content);
    if !HasText(row) && |row| == 1 {
      assert row == [row[0]];
    }
  }

  // --------------------------------------------------------------------- refusals

  lemma ChompedReturn(s: string, o: nat, text: string)
    requires o <= |s| && text == Chomp(RowAt(s, o)) && EndsInReturn(text)
    ensures o + |text| < |s| && s[o + |text| - 1] == '\r' && s[o + |text|] == '\r'
    ensures o + |text| + 1 < |s| ==> s[o + |text| + 1] == '\n'
  {
    var row := RowAt(s, o);
    var n := |text|;
    hide FirstNewline;
    assert |row| <= |s| - o && forall i :: 0 <= i < |row| ==> row[i] == s[o + i];
    assert |row| == n + 1 && row[n] == '\r' && row[n - 1] == text[n - 1];
  }

  /** A line that keeps a carriage return had two of them. */
  lemma KeptReturnIsDoubled(content: string, e: nat, l: Line)
    requires e <= |content| && l in LinesBefore(content, e) && EndsInReturn(l.text)
    ensures DoubledReturn(content)
  {
    hide Lines, TrimEol, RowAt, Chomp, DoubledReturn;
    var s := TrimEol(content[..e]);
    TrimmedPrefix(content, e);
    LinesAreTheRows(s, 0, l);
    ChompedReturn(s, l.off, l.text);
    hide LinesBefore;
    var i := l.off + |l.text| - 1;
    assert i + 2 < |s| by {
      assert IsEol(s[i + 1]);
    }
    assert content[i] == s[i] && content[i + 1] == s[i + 1] && content[i + 2] == s[i + 2];
    DoubledAt(content, i);
  }

  lemma {:induction false} ExtendIsClean(c: Codec, content: string, k: Chunk)
    requires k.start <= |content| && !DoubledReturn(content)
    requires k.lines != [] ==> !EndsInReturn(k.lines[0].text)
    ensures var u := Extend(c, content, k); u.lines != [] ==> !EndsInReturn(u.lines[0].text)
    decreases k.start
  {
    hide LinesBefore, FirstRole, DoubledReturn;
    if StartsInTool(c, k) {
      var e := LastLine(content, k.start);
      if e != [] {
        LastIsLine(content, k.start);
        if EndsInReturn(e[0].text) {
          KeptReturnIsDoubled(content, k.start, e[0]);
        }
        ExtendIsClean(c, content, Chunk(e + k.lines, e[0].off, e[0].off > 0));
      }
    }
  }

  lemma NextIsAccepted(c: Codec, hash: string -> string, content: string, before: nat, limit: nat)
    requires Injective(hash) && 0 < before <= |content| && limit > 0 && !DoubledReturn(content)
    ensures var k, p := Extend(c, content, FirstChunk(content, before, limit)),
          PageBefore(c, hash, content, before, limit);
      k.lines != [] ==> Accepted(hash, content, k.start, p.boundaryEnd, p.boundaryHash)
  {
    var first := FirstChunk(content, before, limit);
    var ls := LinesBefore(content, before);
    if first.lines != [] {
      assert first.lines[0] == ls[|ls| - |first.lines|] && first.lines[0] in ls;
      if EndsInReturn(first.lines[0].text) {
        KeptReturnIsDoubled(content, before, first.lines[0]);
      }
    }
    ExtendIsClean(c, content, first);
    PageBeforeMeans(c, hash, content, before, limit);
    hide LinesBefore, Extend, FirstChunk, PageBefore, CursorHolds, DoubledReturn;
    IssuedCursor(c, hash, content, "", before, limit);
    assert content + "" == content;
  }

  /** Where no row ends in two carriage returns no cursor of a walk is refused. */
  lemma {:induction false} WalkIsNotRefused(c: Codec, hash: string -> string, content: string, before: nat,
                                            boundaryEnd: int, boundaryHash: string, limit: nat)
    requires Injective(hash) && before <= |content| && limit > 0
    requires !DoubledReturn(content) && (before > 0 || content == "")
    requires Accepted(hash, content, before, boundaryEnd, boundaryHash)
    ensures Walk(c, hash, content, before, boundaryEnd, boundaryHash, limit) != Refused
    decreases before
  {
    if before == 0 {
      PageExtent(c, hash, content, before, boundaryEnd, boundaryHash, limit);
      NoLinesIffBlank(content, 0);
      hide LinesBefore, CursorHolds, DoubledReturn;
      assert FirstChunk(content, 0, limit) == Chunk([], 0, false);
    } else {
      var k, p := Extend(c, content, FirstChunk(content, before, limit)), PageBefore(c, hash, content, before, limit);
      WalkStep(c, hash, content, before, boundaryEnd, boundaryHash, limit);
      NextIsAccepted(c, hash, content, before, limit);
      ChunkHasStart(content, before, limit);
      ExtendOutcome(c, content, FirstChunk(content, before, limit));
      FirstChunkLines(content, before, limit);
      hide Walk, LinesBefore, RoleOf, Extend, FirstChunk, PageBefore, Accepted, DoubledReturn, Injective;
      if k.more && k.start < before {
        WalkIsNotRefused(c, hash, content, k.start, p.boundaryEnd, p.boundaryHash, limit);
      }
    }
  }

  lemma OnlyReturns(content: string)
    requires |HeadRow(content)| >= 2 && forall i :: 0 <= i < |HeadRow(content)| ==> HeadRow(content)[i] == '\r'
    requires !DoubledReturn(content)
    ensures |content| > 0 && forall i :: 0 <= i < |content| ==> content[i] == '\r'
  {
    hide FirstNewline, DoubledReturn;
    var k := FirstNewline(content);
    assert forall i :: 0 <= i < k ==> HeadRow(content)[i] == content[i];
    if k < |content| {
      DoubledAt(content, k - 2);
    }
  }

  /** A file of bare carriage returns has no line. */
  lemma BareReturns(c: Codec, hash: string -> string, content: string, limit: nat)
    requires !HeadHasText(content) && !HeadIsBlank(content) && !DoubledReturn(content) && limit > 0
    ensures LinesBefore(content, |content|) == [] && Walk(c, hash, content, |content|, 0, "", limit) == Stuck
  {
    HeadCases(content);
    OnlyReturns(content);
    assert EolBetween(content, 0, |content|);
    NoLinesIffBlank(content, |content|);
    hide LinesBefore, Walk, EolBetween, HeadHasText, HeadIsBlank, DoubledReturn;
    WalkStep(c, hash, content, |content|, 0, "", limit);
    FirstChunkLines(content, |content|, limit);
    EmptyPageStays(c, content, FirstChunk(content, |content|, limit), |content|);
  }

  lemma EmptyHeadIsBlank(content: string)
    ensures content == "" ==> HeadIsBlank(content)
  {
  }

  lemma StartIsAccepted(hash: string -> string, content: string)
    ensures Accepted(hash, content, |content|, 0, "")
  {
  }

  /**
    On a file in which no row ends in two carriage returns the walk from the end is
    never refused, and for every limit it ends if and only if the file is empty, its
    first row has text, or its first readable row that is no system row is a tool row.
  */
  lemma CleanWalkEndsIff(c: Codec, hash: string -> string, content: string, limit: nat)
    requires Injective(hash) && limit > 0 && !DoubledReturn(content)
    ensures var w := Walk(c, hash, content, |content|, 0, "", limit);
      && w != Refused
      && (w == Ended <==> content == "" || HeadHasText(content) || RoleBefore(c, content, |content|) == Some(Tool))
  {
    NoLineNoRole(c);
    if !HeadHasText(content) && !HeadIsBlank(content) {
      BareReturns(c, hash, content, limit);
      EmptyHeadIsBlank(content);
    }
    hide LinesBefore, RoleOf, Walk, DoubledReturn, HeadHasText, HeadIsBlank;
    WalkEndsIff(c, hash, content, limit);
    StartIsAccepted(hash, content);
    WalkIsNotRefused(c, hash, content, |content|, 0, "", limit);
  }

  // ------------------------------------------------------------------- getting stuck

  /** The page that asks for itself carries a cursor that the HTTP handler answers with a bad request. */
  lemma StuckIsBadRequest(c: Codec, hash: string -> string, content: string, before: nat, limit: nat)
    requires 0 < before <= |content| && limit > 0 && LinesBefore(content, before) == []
    ensures var p := PageBefore(c, hash, content, before, limit);
      p.hasMore && p.messages == [] && p.startOffset == before &&
        !HandlerAccepts(p.startOffset, p.boundaryEnd, p.boundaryHash)
  {
    NoLinesIffBlank(content, before);
    BlankHeadRepeats(c, hash, content, before, limit);
    hide LinesBefore, PageBefore, EolBetween;
  }

  /** A first row of bare carriage returns: a line when a later row is read with it, nothing when it is read last. */
  const RETURNS: string := "\r\r\nab\n"

  lemma FirstRowIs(s: string, k: nat, base: nat)
    requires k < |s| && s[k] == '\n' && forall i :: 0 <= i < k ==> s[i] != '\n'
    ensures Lines(s, base) == LineOf(s[..k], base) + Lines(s[k + 1..], base + k + 1)
  {
    hide Lines, LineOf;
    NewlineBound(s, k);
    LinesCons(s, base);
  }

  /** Row by row: the first row keeps one of its carriage returns. */
  lemma ReturnRows(s: string)
    requires s == "\r\r\nab"
    ensures Lines(s, 0) == [Line(0, "\r"), Line(3, "ab")]
  {
    hide Lines;
    FirstRowIs(s, 2, 0);
    LastRow("ab", 3);
    assert s[..2] == "\r\r" && s[3..] == "ab";
    assert Chomp("\r\r") == "\r" && Chomp("ab") == "ab";
  }

  lemma ReturnLines()
    ensures LinesBefore(RETURNS, 6) == [Line(0, "\r"), Line(3, "ab")] && LinesBefore(RETURNS, 3) == []
  {
    hide Lines, FirstNewline, TrimEol;
    assert RETURNS[..6] == RETURNS && RETURNS[..5] == "\r\r\nab";
    TrimEolIs(RETURNS, 5);
    ReturnRows(RETURNS[..5]);
    assert LinesBefore(RETURNS, 6) == Lines(RETURNS[..5], 0);
    hide LinesBefore;
    assert IsEol(RETURNS[0]) && IsEol(RETURNS[1]) && IsEol(RETURNS[2]);
    NoLinesIffBlank(RETURNS, 3);
  }

  /**
    On this file it depends on the limit: page by page the walk gets stuck, and two
    rows at once it ends.
  */
  lemma ReturnsAtTheHead(c: Codec, hash: string -> string)
    requires Injective(hash) && FirstRole(c, ["ab"]) != Some(Tool) && FirstRole(c, ["\r", "ab"]) != Some(Tool)
    ensures Walk(c, hash, RETURNS, 6, 0, "", 1) == Stuck
    ensures Walk(c, hash, RETURNS, 6, 0, "", 2) == Ended
  {
    ReturnLines();
    hide LinesBefore, Walk, CursorHolds;
    var one, two, last := FirstChunk(RETURNS, 6, 1), FirstChunk(RETURNS, 6, 2), FirstChunk(RETURNS, 3, 1);
    assert one == Chunk([Line(3, "ab")], 3, true) && Texts(one.lines) == ["ab"];
    assert two == Chunk([Line(0, "\r"), Line(3, "ab")], 0, false);
    assert last == Chunk([], 3, true) && Texts(last.lines) == [];
    assert Extend(c, RETURNS, one) == one && Extend(c, RETURNS, two) == two && Extend(c, RETURNS, last) == last;
    WalkStep(c, hash, RETURNS, 6, 0, "", 2);
    WalkStep(c, hash, RETURNS, 6, 0, "", 1);
    IssuedCursor(c, hash, RETURNS, "", 6, 1);
    assert RETURNS + "" == RETURNS;
    var p := PageBefore(c, hash, RETURNS, 6, 1);
    PageBeforeMeans(c, hash, RETURNS, 6, 1);
    WalkStep(c, hash, RETURNS, 3, p.boundaryEnd, p.boundaryHash, 1);
  }

  /** A row that keeps a carriage return when another row follows it. */
  const KEPT: string := "x\na\r\r\nb\n"

  lemma KeptRows(s: string)
    requires s == "x\na\r\r\nb"
    ensures Lines(s, 0) == [Line(0, "x"), Line(2, "a\r"), Line(6, "b")]
  {
    hide Lines;
    FirstRowIs(s, 1, 0);
    var t := s[2..];
    assert t == "a\r\r\nb";
    FirstRowIs(t, 3, 2);
    LastRow("b", 6);
    assert s[..1] == "x" && t[..3] == "a\r\r" && t[4..] == "b";
    assert Chomp("x") == "x" && Chomp("a\r\r") == "a\r" && Chomp("b") == "b";
  }

  lemma KeptLines()
    ensures LinesBefore(KEPT, 8) == [Line(0, "x"), Line(2, "a\r"), Line(6, "b")]
  {
    hide Lines, FirstNewline, TrimEol;
    assert KEPT[..8] == KEPT && KEPT[..7] == "x\na\r\r\nb";
    TrimEolIs(KEPT, 7);
    KeptRows(KEPT[..7]);
  }

  /** Nothing changes on this file, and the second request of the walk is refused. */
  lemma ReturnIsRefused(c: Codec, hash: string -> string)
    requires Injective(hash) && FirstRole(c, ["a\r", "b"]) != Some(Tool)
    ensures Walk(c, hash, KEPT, 8, 0, "", 2) == Refused
  {
    KeptLines();
    hide LinesBefore, Walk, CursorHolds;
    var k := FirstChunk(KEPT, 8, 2);
    assert k == Chunk([Line(2, "a\r"), Line(6, "b")], 2, true) && Texts(k.lines) == ["a\r", "b"];
    assert Extend(c, KEPT, k) == k;
    WalkStep(c, hash, KEPT, 8, 0, "", 2);
    IssuedCursor(c, hash, KEPT, "", 8, 2);
    assert KEPT + "" == KEPT;
    var p := PageBefore(c, hash, KEPT, 8, 2);
    PageBeforeMeans(c, hash, KEPT, 8, 2);
    WalkStep(c, hash, KEPT, 2, p.boundaryEnd, p.boundaryHash, 2);
  }
}
