/**
  What paging promises: an issued page and its cursor survive appends, a cursor
  is honoured exactly while its row stands, following the cursors covers every
  row once, and on a history of rounds no page splits a round.
*/
module PagingTheorems {
  import opened Wrappers
  import opened Messages
  import opened StoreModel
  import opened TailReader
  import opened TailFacts
  import opened Paging
  import RecoveryTheorems

  // ------------------------------------------------------------ growing the file

  lemma LinesUnderAppend(content: string, suffix: string, end: nat)
    requires end <= |content|
    ensures LinesBefore(content + suffix, end) == LinesBefore(content, end)
  {
    assert (content + suffix)[..end] == content[..end];
  }

  lemma {:induction false} ExtendUnderAppend(c: Codec, content: string, suffix: string, k: Chunk)
    requires k.start <= |content|
    ensures Extend(c, content + suffix, k) == Extend(c, content, k)
    decreases k.start
  {
    hide LinesBefore;
    LinesUnderAppend(content, suffix, k.start);
    if StartsInTool(c, k) {
      var e := LastLine(content, k.start);
      assert LastLine(content + suffix, k.start) == e;
      if e != [] {
        ExtendUnderAppend(c, content, suffix, Chunk(e + k.lines, e[0].off, e[0].off > 0));
      }
    }
  }

  /** Whatever is appended later, an older page stays what it was. */
  lemma AppendKeepsPage(c: Codec, hash: string -> string, content: string, suffix: string,
                        before: int, boundaryEnd: int, boundaryHash: string, limit: int)
    requires 0 < before <= |content| && boundaryEnd <= |content|
    ensures PageOf(c, hash, Some(content + suffix), before, boundaryEnd, boundaryHash, limit) ==
            PageOf(c, hash, Some(content), before, boundaryEnd, boundaryHash, limit)
  {
    hide LinesBefore, Extend, PageOfChunk;
    LinesUnderAppend(content, suffix, before);
    if boundaryEnd > 0 {
      LinesUnderAppend(content, suffix, boundaryEnd);
    }
    if limit > 0 {
      assert FirstChunk(content + suffix, before, limit) == FirstChunk(content, before, limit);
      ExtendUnderAppend(c, content, suffix, FirstChunk(content, before, limit));
    }
  }

  // -------------------------------------------------------------------- cursors

  ghost predicate Injective(hash: string -> string) {
    forall a, b :: hash(a) == hash(b) ==> a == b
  }

  predicate EndsInReturn(t: string) { t != "" && t[|t| - 1] == '\r' }

  predicate IsText(t: string) { t != "" && forall j :: 0 <= j < |t| ==> t[j] != '\n' }

  /**
    A cursor is accepted on any file exactly when its row stands unchanged at its
    offset, only line ends follow up to the boundary, and the row does not end
    in a carriage return.
  */
  lemma CursorIff(hash: string -> string, file: string, off: nat, text: string, end: nat)
    requires Injective(hash) && IsText(text)
    ensures CursorHolds(hash, Some(file), off, end, hash(text)) <==>
      RowStandsAt(file, off, text, end) && !EndsInReturn(text)
  {
    if off < end <= |file| {
      AnchorIff(file, off, text, end);
      var e := LastLine(file, end);
      hide LinesBefore, RowStandsAt;
      assert e == [Line(off, text)] <==> e != [] && e[0].off == off && hash(e[0].text) == hash(text);
    }
  }

  /** A request whose anchor row moved or changed is refused, and no other is. */
  lemma StaleCursorRefused(c: Codec, hash: string -> string, file: string, off: nat, text: string, end: nat, limit: nat)
    requires Injective(hash) && IsText(text) && limit > 0 && end > 0
    ensures PageOf(c, hash, Some(file), off, end, hash(text), limit) == Err(PageChanged) <==>
      !(RowStandsAt(file, off, text, end) && !EndsInReturn(text))
  {
    CursorIff(hash, file, off, text, end);
    hide RowStandsAt, LastLine, PageBefore;
  }

  /** The boundary that a page publishes closes its first row. */
  function Boundary(k: Chunk, end: nat): nat
    requires k.lines != []
  {
    if |k.lines| > 1 then k.lines[1].off else end
  }

  ghost predicate Headed(content: string, k: Chunk, end: nat) {
    k.lines != [] ==>
      && k.start == k.lines[0].off && IsText(k.lines[0].text) && Boundary(k, end) <= |content|
      && RowStandsAt(content, k.start, k.lines[0].text, Boundary(k, end))
  }

  lemma FirstChunkHeaded(content: string, end: nat, limit: nat)
    requires end <= |content|
    ensures Headed(content, FirstChunk(content, end, limit), end)
  {
    var ls := LinesBefore(content, end);
    var k := FirstChunk(content, end, limit);
    if k.lines != [] {
      LineInFile(content, end, |ls| - |k.lines|);
    }
  }

  lemma {:induction false} ExtendHeaded(c: Codec, content: string, k: Chunk, end: nat)
    requires k.start <= |content| && Headed(content, k, end)
    ensures Headed(content, Extend(c, content, k), end)
    decreases k.start
  {
    hide LinesBefore, RowStandsAt;
    if StartsInTool(c, k) {
      var e := LastLine(content, k.start);
      if e != [] {
        var ls := LinesBefore(content, k.start);
        LineInFile(content, k.start, |ls| - 1);
        assert e[0] == ls[|ls| - 1];
        ExtendHeaded(c, content, Chunk(e + k.lines, e[0].off, e[0].off > 0), end);
      }
    }
  }

  lemma RowUnderAppend(content: string, suffix: string, off: nat, t: string, end: nat)
    requires RowStandsAt(content, off, t, end)
    ensures RowStandsAt(content + suffix, off, t, end)
  {
  }

  /**
    A cursor issued with a page is accepted after any appends, unless the page's
    first row ends in a carriage return: the reader drops one when the row is
    followed by another, all of them when it is read as the last.
  */
  lemma IssuedCursor(c: Codec, hash: string -> string, content: string, suffix: string, end: nat, limit: nat)
    requires Injective(hash) && end <= |content| && limit > 0
    ensures var k := Extend(c, content, FirstChunk(content, end, limit));
      var p := PageBefore(c, hash, content, end, limit);
      k.lines != [] ==>
        (CursorHolds(hash, Some(content + suffix), p.startOffset, p.boundaryEnd, p.boundaryHash) <==>
         !EndsInReturn(k.lines[0].text))
  {
    hide LinesBefore, Extend, Parsed;
    var first := FirstChunk(content, end, limit);
    FirstChunkHeaded(content, end, limit);
    ExtendHeaded(c, content, first, end);
    var k := Extend(c, content, first);
    if k.lines != [] {
      var t, b := k.lines[0].text, Boundary(k, end);
      hide FirstChunk;
      CursorIff(hash, content + suffix, k.start, t, b);
      RowUnderAppend(content, suffix, k.start, t, b);
    }
  }

  // ---------------------------------------------------------------- files of rows

  /** Where a page that would start at row i really starts. */
  function BackTo(c: Codec, rows: seq<string>, i: nat, j: nat): (k: nat)
    requires i <= j <= |rows|
    ensures k <= i
  {
    if i > 0 && FirstRole(c, rows[i..j]) == Some(Tool) then BackTo(c, rows, i - 1, j) else i
  }

  function Nominal(j: nat, limit: nat): nat { if j < limit then 0 else j - limit }

  function PageStart(c: Codec, rows: seq<string>, j: nat, limit: nat): (k: nat)
    requires j <= |rows|
    ensures k <= Nominal(j, limit)
  {
    BackTo(c, rows, Nominal(j, limit), j)
  }

  function RowChunk(rows: seq<string>, i: nat, j: nat): Chunk
    requires i <= j <= |rows|
  {
    Chunk(RowLines(rows, 0)[i..j], RowOffset(rows, i), i > 0)
  }

  lemma RowChunkTexts(rows: seq<string>, i: nat, j: nat)
    requires i <= j <= |rows|
    ensures RowChunk(rows, i, j).start == RowOffset(rows, i) && (RowChunk(rows, i, j).more <==> i > 0)
    ensures Texts(RowChunk(rows, i, j).lines) == rows[i..j]
  {
    forall m | i <= m < j ensures RowLines(rows, 0)[m].text == rows[m] {
      RowLineAt(rows, 0, m);
    }
  }

  lemma RowsInFile(rows: seq<string>, j: nat)
    requires WellRows(rows) && j <= |rows|
    ensures RowOffset(rows, j) <= |Render(rows)|
    ensures LinesBefore(Render(rows), RowOffset(rows, j)) == RowLines(rows, 0)[..j]
    ensures RowOffset(rows, j) > 0 <==> j > 0
    ensures j < |rows| ==> RowLines(rows, 0)[j] == Line(RowOffset(rows, j), rows[j])
  {
    LinesBeforeRow(rows, j);
    RowLinesPrefix(rows, j);
    if j > 0 {
      OffsetsRise(rows, 0, j);
    }
    if j < |rows| {
      RowLineAt(rows, 0, j);
    }
  }

  lemma ExtendStep(c: Codec, content: string, k: Chunk)
    requires k.start <= |content|
    ensures !(k.more && FirstRole(c, Texts(k.lines)) == Some(Tool)) ==> Extend(c, content, k) == k
    ensures k.more && FirstRole(c, Texts(k.lines)) == Some(Tool) ==>
      var e := LastLine(content, k.start);
      e != [] ==> Extend(c, content, k) == Extend(c, content, Chunk(e + k.lines, e[0].off, e[0].off > 0))
  {
  }

  /** In a file of rows the line before a page is the row before it. */
  lemma EarlierRow(rows: seq<string>, i: nat, j: nat)
    requires WellRows(rows) && 0 < i <= j <= |rows|
    ensures RowOffset(rows, i) <= |Render(rows)|
    ensures RowChunk(rows, i, j).start == RowOffset(rows, i) && RowChunk(rows, i, j).more
    ensures var e := LastLine(Render(rows), RowOffset(rows, i));
      e != [] && Chunk(e + RowChunk(rows, i, j).lines, e[0].off, e[0].off > 0) == RowChunk(rows, i - 1, j)
  {
    hide LinesBefore, RowLines, RowOffset, Render, WellRow;
    RowsInFile(rows, i);
    RowsInFile(rows, i - 1);
    var ls := RowLines(rows, 0);
    assert LastLine(Render(rows), RowOffset(rows, i)) == [ls[i - 1]];
    assert [ls[i - 1]] + ls[i..j] == ls[i - 1..j];
  }

  lemma {:induction false} ExtendOverRows(c: Codec, rows: seq<string>, i: nat, j: nat)
    requires WellRows(rows) && i <= j <= |rows| && RowOffset(rows, i) <= |Render(rows)|
    ensures Extend(c, Render(rows), RowChunk(rows, i, j)) == RowChunk(rows, BackTo(c, rows, i, j), j)
    decreases i
  {
    hide LinesBefore, RowLines, RowOffset, Render, WellRow, FirstRole, LastLine, RowChunk, Extend;
    RowChunkTexts(rows, i, j);
    RowsInFile(rows, i);
    if i > 0 {
      EarlierRow(rows, i, j);
      RowsInFile(rows, i - 1);
    }
    ExtendStep(c, Render(rows), RowChunk(rows, i, j));
    if i > 0 && FirstRole(c, rows[i..j]) == Some(Tool) {
      ExtendOverRows(c, rows, i - 1, j);
    }
  }

  lemma FirstChunkOfRows(rows: seq<string>, j: nat, limit: nat)
    requires WellRows(rows) && 0 < j <= |rows| && limit > 0
    ensures RowOffset(rows, j) <= |Render(rows)| && Nominal(j, limit) < j
    ensures FirstChunk(Render(rows), RowOffset(rows, j), limit) == RowChunk(rows, Nominal(j, limit), j)
  {
    hide LinesBefore, RowLines, RowOffset, Render, WellRow;
    var n := Nominal(j, limit);
    RowsInFile(rows, j);
    RowsInFile(rows, n);
    var ls := RowLines(rows, 0);
    assert LastOf(ls[..j], limit) == ls[n..j];
    assert ls[n..j][0] == ls[n];
  }

  lemma PageStartMeans(c: Codec, rows: seq<string>, j: nat, limit: nat)
    requires j <= |rows|
    ensures PageStart(c, rows, j, limit) == BackTo(c, rows, Nominal(j, limit), j)
  {
  }

  lemma RowChunkHead(rows: seq<string>, i: nat, j: nat)
    requires WellRows(rows) && i < j <= |rows|
    ensures var k := RowChunk(rows, i, j);
      && k.lines != [] && k.lines[0].text == rows[i] && k.start == RowOffset(rows, i) && (k.more <==> i > 0)
      && (if |k.lines| > 1 then k.lines[1].off else RowOffset(rows, j)) == RowOffset(rows, i + 1)
  {
    hide LinesBefore, RowLines, RowOffset, Render, WellRow;
    RowsInFile(rows, i);
    RowsInFile(rows, i + 1);
    var ls := RowLines(rows, 0);
    assert ls[i..j][0] == ls[i];
    if i + 1 < j {
      assert ls[i..j][1] == ls[i + 1];
    }
  }

  lemma PageBeforeMeans(c: Codec, hash: string -> string, content: string, end: nat, limit: nat)
    requires end <= |content|
    ensures var k := Extend(c, content, FirstChunk(content, end, limit));
      var p := PageBefore(c, hash, content, end, limit);
      && p == PageOfChunk(c, hash, k, end) && p.startOffset == k.start && p.hasMore == k.more
      && (k.lines != [] ==> p.boundaryHash == hash(k.lines[0].text) &&
                            p.boundaryEnd == if |k.lines| > 1 then k.lines[1].off else end)
  {
    hide Extend, FirstChunk, Parsed;
  }

  /** The page before row j is rows PageStart..j, closed by the end of its first row. */
  lemma PageOfRows(c: Codec, hash: string -> string, rows: seq<string>, j: nat, limit: nat)
    requires WellRows(rows) && 0 < j <= |rows| && limit > 0
    ensures RowOffset(rows, j) <= |Render(rows)|
    ensures var i := PageStart(c, rows, j, limit);
      var p := PageBefore(c, hash, Render(rows), RowOffset(rows, j), limit);
      && i < j
      && p == PageOfChunk(c, hash, RowChunk(rows, i, j), RowOffset(rows, j))
      && p.startOffset == RowOffset(rows, i) && (p.hasMore <==> i > 0)
      && p.boundaryHash == hash(rows[i]) && p.boundaryEnd == RowOffset(rows, i + 1)
  {
    hide *;
    FirstChunkOfRows(rows, j, limit);
    RowsInFile(rows, Nominal(j, limit));
    ExtendOverRows(c, rows, Nominal(j, limit), j);
    PageStartMeans(c, rows, j, limit);
    RowChunkHead(rows, PageStart(c, rows, j, limit), j);
    PageBeforeMeans(c, hash, Render(rows), RowOffset(rows, j), limit);
  }

  /** A cursor for row j of the file: none yet, or the one its page published. */
  predicate CursorFor(hash: string -> string, rows: seq<string>, j: nat, boundaryEnd: int, boundaryHash: string)
    requires j <= |rows|
  {
    boundaryEnd <= 0 || (j < |rows| && boundaryEnd == RowOffset(rows, j + 1) && boundaryHash == hash(rows[j]))
  }

  lemma RowCursorHolds(hash: string -> string, rows: seq<string>, j: nat)
    requires WellRows(rows) && j < |rows|
    ensures RowOffset(rows, j + 1) <= |Render(rows)|
    ensures CursorHolds(hash, Some(Render(rows)), RowOffset(rows, j), RowOffset(rows, j + 1), hash(rows[j]))
  {
    hide LinesBefore, RowLines, Render, WellRow, RowOffset;
    RowsInFile(rows, j + 1);
    RowsInFile(rows, j);
    var ls := RowLines(rows, 0);
    assert LastOf(ls[..j + 1], 1) == [ls[j]];
    OffsetsRise(rows, j, j + 1);
  }

  /** Follow the published cursors backwards; the file may grow before every request. */
  function Follow(c: Codec, hash: string -> string, content: string, later: nat -> string,
                  before: nat, boundaryEnd: int, boundaryHash: string, limit: nat): seq<Page>
    decreases before
  {
    match PageOf(c, hash, Some(content + later(before)), before, boundaryEnd, boundaryHash, limit)
    case Err(_) => []
    case Ok(p) =>
      (if p.hasMore && p.startOffset < before
       then Follow(c, hash, content, later, p.startOffset, p.boundaryEnd, p.boundaryHash, limit) else []) + [p]
  }

  function AllMessages(ps: seq<Page>): seq<Message> {
    if ps == [] then [] else AllMessages(ps[..|ps| - 1]) + ps[|ps| - 1].messages
  }

  function AllOffsets(ps: seq<Page>): seq<nat> {
    if ps == [] then [] else AllOffsets(ps[..|ps| - 1]) + ps[|ps| - 1].offsets
  }

  /** The rows of a prefix that parse, each with its offset. */
  function Readable(c: Codec, rows: seq<string>, j: nat): seq<(Message, nat)>
    requires j <= |rows|
  {
    Parsed(c, RowLines(rows, 0)[..j])
  }

  function Firsts(ps: seq<(Message, nat)>): (r: seq<Message>)
    ensures |r| == |ps|
  {
    seq(|ps|, i requires 0 <= i < |ps| => ps[i].0)
  }

  function Seconds(ps: seq<(Message, nat)>): (r: seq<nat>)
    ensures |r| == |ps|
  {
    seq(|ps|, i requires 0 <= i < |ps| => ps[i].1)
  }

  lemma {:induction false} ParsedConcat(c: Codec, a: seq<Line>, b: seq<Line>)
    ensures Parsed(c, a + b) == Parsed(c, a) + Parsed(c, b)
  {
    if b == [] {
      assert a + b == a;
    } else {
      var ab := a + b;
      assert ab[..|ab| - 1] == a + b[..|b| - 1];
      ParsedConcat(c, a, b[..|b| - 1]);
    }
  }

  /** Readable rows are what loading the file returns. */
  lemma {:induction false} ReadableIsLoaded(c: Codec, rows: seq<string>, j: nat)
    requires WellRows(rows) && j <= |rows|
    ensures Firsts(Readable(c, rows, j)) == ParseRows(c, rows[..j])
  {
    if j > 0 {
      ReadableIsLoaded(c, rows, j - 1);
      var ls := RowLines(rows, 0)[..j];
      assert ls[..j - 1] == RowLines(rows, 0)[..j - 1];
      assert rows[..j][..j - 1] == rows[..j - 1];
      RowLineAt(rows, 0, j - 1);
      assert WellRow(rows[j - 1]);
    }
  }

  lemma NextCursor(hash: string -> string, rows: seq<string>, i: nat)
    requires i < |rows|
    ensures CursorFor(hash, rows, i, RowOffset(rows, i + 1), hash(rows[i]))
  {
  }

  /** One accepted request: the page, with the rows that it holds. */
  lemma OnePage(c: Codec, hash: string -> string, rows: seq<string>, suffix: string,
                j: nat, boundaryEnd: int, boundaryHash: string, limit: nat)
    requires WellRows(rows) && 0 < j <= |rows| && limit > 0
    requires CursorFor(hash, rows, j, boundaryEnd, boundaryHash)
    ensures RowOffset(rows, j) <= |Render(rows)|
    ensures var i := PageStart(c, rows, j, limit);
      var p := PageBefore(c, hash, Render(rows), RowOffset(rows, j), limit);
      && PageOf(c, hash, Some(Render(rows) + suffix), RowOffset(rows, j), boundaryEnd, boundaryHash, limit) == Ok(p)
      && i < j && p.startOffset == RowOffset(rows, i) && (p.hasMore <==> i > 0)
      && p.boundaryHash == hash(rows[i]) && p.boundaryEnd == RowOffset(rows, i + 1)
      && p.messages == Firsts(Parsed(c, RowChunk(rows, i, j).lines))
      && p.offsets == Seconds(Parsed(c, RowChunk(rows, i, j).lines))
  {
    hide LinesBefore, RowLines, Render, WellRow, RowOffset;
    hide PageBefore, Parsed, LastLine, CursorHolds, PageStart, RowChunk;
    RowsInFile(rows, j);
    if boundaryEnd > 0 {
      RowCursorHolds(hash, rows, j);
    }
    AppendKeepsPage(c, hash, Render(rows), suffix, RowOffset(rows, j), boundaryEnd, boundaryHash, limit);
    PageOfRows(c, hash, rows, j, limit);
  }

  lemma FollowStep(c: Codec, hash: string -> string, content: string, later: nat -> string,
                   before: nat, boundaryEnd: int, boundaryHash: string, limit: nat, p: Page)
    requires PageOf(c, hash, Some(content + later(before)), before, boundaryEnd, boundaryHash, limit) == Ok(p)
    ensures Follow(c, hash, content, later, before, boundaryEnd, boundaryHash, limit) ==
      (if p.hasMore && p.startOffset < before
       then Follow(c, hash, content, later, p.startOffset, p.boundaryEnd, p.boundaryHash, limit) else []) + [p]
  {
    hide PageOf;
  }

  lemma AllOfSnoc(older: seq<Page>, p: Page)
    ensures AllMessages(older + [p]) == AllMessages(older) + p.messages
    ensures AllOffsets(older + [p]) == AllOffsets(older) + p.offsets
    ensures older == [] ==> AllMessages(older) == [] && AllOffsets(older) == []
  {
    assert (older + [p])[..|older|] == older;
  }

  lemma NoneReadable(c: Codec, rows: seq<string>)
    ensures Readable(c, rows, 0) == [] && Firsts([]) == [] && Seconds([]) == []
  {
  }

  lemma SplitReadable(c: Codec, rows: seq<string>, i: nat, j: nat)
    requires i <= j <= |rows|
    ensures var older, page := Readable(c, rows, i), Parsed(c, RowChunk(rows, i, j).lines);
      && Readable(c, rows, j) == older + page
      && Firsts(older + page) == Firsts(older) + Firsts(page) && Seconds(older + page) == Seconds(older) + Seconds(page)
  {
    hide Parsed, RowLines;
    var ls := RowLines(rows, 0);
    assert ls[..j] == ls[..i] + ls[i..j];
    ParsedConcat(c, ls[..i], ls[i..j]);
  }

  /**
    Exact cover: for any limit, and however the file grows meanwhile, following
    the cursors ends, every request is accepted, and the pages hold every
    readable row exactly once and in order.
  */
  lemma {:induction false} ExactCover(c: Codec, hash: string -> string, rows: seq<string>, later: nat -> string,
                                      j: nat, boundaryEnd: int, boundaryHash: string, limit: nat)
    requires WellRows(rows) && 0 < j <= |rows| && limit > 0
    requires CursorFor(hash, rows, j, boundaryEnd, boundaryHash)
    ensures var ps := Follow(c, hash, Render(rows), later, RowOffset(rows, j), boundaryEnd, boundaryHash, limit);
      && ps != [] && !ps[0].hasMore && ps[0].startOffset == 0
      && AllMessages(ps) == Firsts(Readable(c, rows, j))
      && AllOffsets(ps) == Seconds(Readable(c, rows, j))
    decreases j
  {
    hide *;
    var i := PageStart(c, rows, j, limit);
    var end := RowOffset(rows, j);
    OnePage(c, hash, rows, later(end), j, boundaryEnd, boundaryHash, limit);
    var p := PageBefore(c, hash, Render(rows), end, limit);
    FollowStep(c, hash, Render(rows), later, end, boundaryEnd, boundaryHash, limit, p);
    OffsetsRise(rows, i, j);
    SplitReadable(c, rows, i, j);
    if i > 0 {
      NextCursor(hash, rows, i);
      ExactCover(c, hash, rows, later, i, p.boundaryEnd, p.boundaryHash, limit);
      AllOfSnoc(Follow(c, hash, Render(rows), later, p.startOffset, p.boundaryEnd, p.boundaryHash, limit), p);
    } else {
      RowsInFile(rows, 0);
      NoneReadable(c, rows);
      AllOfSnoc([], p);
      assert [] + [p] == [p];
    }
  }

  // ----------------------------------------------------------------- whole rounds

  predicate RowsHold(c: Codec, rows: seq<string>, ms: seq<Message>) {
    |rows| == |ms| && forall i :: 0 <= i < |ms| ==> c.decode(rows[i]) == Some(ms[i])
  }

  /** In a history every row but a tool row starts a block. */
  lemma {:induction false} NonToolStarts(ms: seq<Message>, k: nat)
    requires IsHistory(ms) && k < |ms| && ms[k].role != Tool
    ensures IsHistory(ms[..k])
    decreases |ms|
  {
    if k > 0 {
      var n := BlockLen(ms[0]);
      assert forall i :: 0 <= i < n ==> ms[i] == ms[..n][i];
      NonToolStarts(ms[n..], k - n);
      BlockIsHistory(ms[..n]);
      HistoryConcat(ms[..n], ms[n..][..k - n]);
      assert ms[..n] + ms[n..][..k - n] == ms[..k];
    }
  }

  /** From a block boundary on, the first row that counts is not a tool row. */
  lemma {:induction false} BoundaryRole(c: Codec, rows: seq<string>, ms: seq<Message>, i: nat, j: nat)
    requires RowsHold(c, rows, ms) && i <= j <= |ms| && IsHistory(ms[i..j])
    ensures FirstRole(c, rows[i..j]) != Some(Tool)
    decreases j - i
  {
    if i < j {
      var h := ms[i..j];
      assert h[0] == ms[i] && rows[i..j][0] == rows[i];
      assert rows[i..j][1..] == rows[i + 1..j];
      assert h[..BlockLen(h[0])][0] == h[0];
      if ms[i].role == System {
        assert h[1..] == ms[i + 1..j];
        BoundaryRole(c, rows, ms, i + 1, j);
      }
    }
  }

  lemma FirstIsNotTool(ms: seq<Message>)
    requires IsHistory(ms) && ms != []
    ensures ms[0].role != Tool
  {
    assert ms[..BlockLen(ms[0])][0] == ms[0];
  }

  lemma BoundaryStops(c: Codec, rows: seq<string>, ms: seq<Message>, i: nat, j: nat)
    requires RowsHold(c, rows, ms) && IsHistory(ms) && i < j <= |ms| && IsHistory(ms[..j]) && ms[i].role != Tool
    ensures IsHistory(ms[..i]) && FirstRole(c, rows[i..j]) != Some(Tool)
  {
    hide IsHistory, RowsHold, FirstRole;
    NonToolStarts(ms, i);
    assert ms[..j][..i] == ms[..i];
    RecoveryTheorems.RestIsHistory(ms[..j], i);
    assert ms[..j][i..] == ms[i..j];
    BoundaryRole(c, rows, ms, i, j);
  }

  lemma {:induction false} BackToBoundary(c: Codec, rows: seq<string>, ms: seq<Message>, i: nat, j: nat)
    requires RowsHold(c, rows, ms) && IsHistory(ms) && i < j <= |ms| && IsHistory(ms[..j])
    ensures var k := BackTo(c, rows, i, j); IsHistory(ms[..k]) && forall m :: k < m <= i ==> ms[m].role == Tool
    decreases i
  {
    hide IsHistory;
    assert rows[i..j][0] == rows[i];
    FirstIsNotTool(ms);
    if ms[i].role == Tool {
      if i > 0 {
        BackToBoundary(c, rows, ms, i - 1, j);
      }
    } else {
      BoundaryStops(c, rows, ms, i, j);
    }
  }

  /**
    On a history of rounds a page that ends at a block boundary starts at one
    too, and reaches back no further than the round it would have split.
  */
  lemma PagesAreWholeRounds(c: Codec, rows: seq<string>, ms: seq<Message>, j: nat, limit: nat)
    requires RowsHold(c, rows, ms) && IsHistory(ms) && 0 < j <= |ms| && IsHistory(ms[..j]) && limit > 0
    ensures var i := PageStart(c, rows, j, limit);
      && IsHistory(ms[..i]) && IsHistory(ms[i..j])
      && i <= Nominal(j, limit) && forall m :: i < m <= Nominal(j, limit) ==> ms[m].role == Tool
  {
    var i := PageStart(c, rows, j, limit);
    BackToBoundary(c, rows, ms, Nominal(j, limit), j);
    hide IsHistory;
    assert ms[..j][..i] == ms[..i] && ms[..j][i..] == ms[i..j];
    RecoveryTheorems.RestIsHistory(ms[..j], i);
  }

  // -------------------------------------------------------- a blank head of file

  lemma LinesStartBefore(content: string, end: nat, limit: nat)
    requires end <= |content| && LinesBefore(content, end) != [] && limit > 0
    ensures var k := FirstChunk(content, end, limit); k.lines != [] && k.start < end
  {
    LinesRise(TrimEol(content[..end]), 0);
  }

  lemma {:induction false} ExtendStarts(c: Codec, content: string, k: Chunk)
    requires k.start <= |content|
    ensures Extend(c, content, k).start <= k.start
    decreases k.start
  {
    hide LastLine;
    if StartsInTool(c, k) {
      var e := LastLine(content, k.start);
      if e != [] {
        ExtendStarts(c, content, Chunk(e + k.lines, e[0].off, e[0].off > 0));
      }
    }
  }

  /**
    A page is empty iff only line ends stand before its offset, and then it asks
    for itself again, with a cursor that names no row. Which walks come to such a
    page, and what the HTTP handler makes of that cursor, is PagingWalk.
  */
  lemma BlankHeadRepeats(c: Codec, hash: string -> string, content: string, before: nat, limit: nat)
    requires 0 < before <= |content| && limit > 0
    ensures EolBetween(content, 0, before) <==>
      PageOf(c, hash, Some(content), before, 0, "", limit) == Ok(Page([], [], before, true, "", 0))
  {
    NoLinesIffBlank(content, before);
    var k := FirstChunk(content, before, limit);
    var p := PageBefore(c, hash, content, before, limit);
    hide LinesBefore, EolBetween;
    if LinesBefore(content, before) == [] {
      assert k == Chunk([], before, true);
      assert Extend(c, content, k) == k;
      assert PageOfChunk(c, hash, k, before) == Page([], [], before, true, "", 0);
    } else {
      assert k.lines != [] && k.start < before by { LinesStartBefore(content, before, limit); }
      ExtendStarts(c, content, k);
    }
  }

  lemma WholeFileLines(content: string)
    ensures content[..|content|] == content && LinesBefore(content, |content|) == Lines(TrimEol(content), 0)
  {
    assert content[..|content|] == content;
  }

  lemma WholeFileChunk(content: string, limit: nat)
    requires LinesBefore(content, |content|) != [] && limit >= |LinesBefore(content, |content|)|
    ensures var ls := LinesBefore(content, |content|);
      FirstChunk(content, |content|, limit) == Chunk(ls, ls[0].off, ls[0].off > 0)
  {
    hide LinesBefore;
  }

  lemma FirstLineAtZero(s: string)
    requires Lines(s, 0) != []
    ensures Lines(s, 0)[0].off == 0 <==> Chomp(HeadRow(s)) != ""
  {
    assert s[0..] == s;
    LinesRise(s, 0);
    var ls := Lines(s, 0);
    LinesAreTheRows(s, 0, Line(0, Chomp(HeadRow(s))));
    LinesAreTheRows(s, 0, ls[0]);
    hide Lines, Chomp, HeadRow;
  }

  lemma BlankHead(content: string, s: string)
    requires |s| <= |content| && (forall j :: 0 <= j < |s| ==> s[j] == content[j]) && Lines(s, 0) != []
    ensures EolBetween(content, 0, Lines(s, 0)[0].off)
  {
    LinesPlaced(s, 0);
    hide Lines;
    assert EolBetween(s, 0, Lines(s, 0)[0].off);
  }

  /**
    The page of a whole file says that there is more iff the file starts with a
    blank row; only line ends stand before that page.
  */
  lemma FirstPageEndsIff(content: string, limit: nat)
    requires LinesBefore(content, |content|) != [] && limit >= |LinesBefore(content, |content|)|
    ensures var k := FirstChunk(content, |content|, limit);
      && k.lines == LinesBefore(content, |content|) && EolBetween(content, 0, k.start)
      && (k.more <==> Chomp(HeadRow(TrimEol(content))) == "")
  {
    hide *;
    WholeFileLines(content);
    WholeFileChunk(content, limit);
    FirstLineAtZero(TrimEol(content));
    TrimmedPrefix(content, |content|);
    BlankHead(content, TrimEol(content));
  }
}
