/**
  Reverse paging of a session's history by byte offset: cursor validation, the
  page read, and the backward extension to the assistant row of a round.
*/
module Paging {
  import opened Wrappers
  import opened Messages
  import opened StoreModel
  import opened TailReader
  import opened TailFacts

  datatype Page = Page(messages: seq<Message>, offsets: seq<nat>, startOffset: nat, hasMore: bool,
                       boundaryHash: string, boundaryEnd: nat)

  datatype PageError = BadLimit | PageChanged | ReadFailed

  const EMPTY_PAGE := Page([], [], 0, false, "", 0)

  /** The lines of a page under construction. */
  datatype Chunk = Chunk(lines: seq<Line>, start: nat, more: bool)

  // -------------------------------------------------------------- specification

  /** The role of the first row that parses and is not a system row. */
  function FirstRole(c: Codec, texts: seq<string>): Option<Role> {
    if texts == [] then None
    else
      var m := c.decode(texts[0]);
      if m.Some? && m.value.role != System then Some(m.value.role) else FirstRole(c, texts[1..])
  }

  function LastLine(content: string, end: nat): (e: seq<Line>)
    requires end <= |content|
    ensures e != [] ==> |e| == 1 && e[0].off < end
  {
    var ls := LinesBefore(content, end);
    LinesRise(TrimEol(content[..end]), 0);
    LastOf(ls, 1)
  }

  predicate StartsInTool(c: Codec, k: Chunk) { k.more && FirstRole(c, Texts(k.lines)) == Some(Tool) }

  /** Extend a page backwards until it does not start inside a round. */
  function Extend(c: Codec, content: string, k: Chunk): Chunk
    requires k.start <= |content|
    decreases k.start
  {
    if !StartsInTool(c, k) then k
    else
      var e := LastLine(content, k.start);
      if e == [] then k.(more := false) else Extend(c, content, Chunk(e + k.lines, e[0].off, e[0].off > 0))
  }

  /** The rows of a page that parse, and where they start. */
  function Parsed(c: Codec, lines: seq<Line>): seq<(Message, nat)> {
    if lines == [] then []
    else
      var front := Parsed(c, lines[..|lines| - 1]);
      var l := lines[|lines| - 1];
      if c.decode(l.text).Some? then front + [(c.decode(l.text).value, l.off)] else front
  }

  function PageOfChunk(c: Codec, hash: string -> string, k: Chunk, end: nat): Page {
    var ps := Parsed(c, k.lines);
    Page(
      seq(|ps|, i requires 0 <= i < |ps| => ps[i].0),
      seq(|ps|, i requires 0 <= i < |ps| => ps[i].1),
      k.start, k.more,
      if k.lines == [] then "" else hash(k.lines[0].text),
      if k.lines == [] then 0 else if |k.lines| > 1 then k.lines[1].off else end)
  }

  /** The cursor still names the row it was issued for. */
  predicate CursorHolds(hash: string -> string, file: Option<string>, before: int, boundaryEnd: int,
                         boundaryHash: string)
  {
    && before < boundaryEnd && file.Some? && 0 < boundaryEnd <= |file.value|
    && var anchor := LastLine(file.value, boundaryEnd);
       anchor != [] && anchor[0].off == before && hash(anchor[0].text) == boundaryHash
  }

  function FirstChunk(content: string, end: nat, limit: nat): (k: Chunk)
    requires end <= |content|
    ensures k.start <= end
  {
    var ls := LastOf(LinesBefore(content, end), limit);
    LinesRise(TrimEol(content[..end]), 0);
    Chunk(ls, StartOf(ls, end), StartOf(ls, end) > 0)
  }

  function PageBefore(c: Codec, hash: string -> string, content: string, end: nat, limit: nat): Page
    requires end <= |content|
  {
    PageOfChunk(c, hash, Extend(c, content, FirstChunk(content, end, limit)), end)
  }

  function PageOf(c: Codec, hash: string -> string, file: Option<string>, before: int, boundaryEnd: int,
                  boundaryHash: string, limit: int): Result<Page, PageError>
  {
    if limit <= 0 then Err(BadLimit)
    else if boundaryEnd > 0 && !CursorHolds(hash, file, before, boundaryEnd, boundaryHash) then Err(PageChanged)
    else if file.None? then Ok(EMPTY_PAGE)
    else if before > |file.value| then Err(ReadFailed)
    else Ok(PageBefore(c, hash, file.value, if before <= 0 then |file.value| else before, limit))
  }

  // --------------------------------------------------------------------- methods

  /** A row that does not count for the start of a page. */
  predicate Skipped(c: Codec, text: string) {
    c.decode(text).None? || c.decode(text).value.role == System
  }

  method FirstValidRole(c: Codec, texts: seq<string>) returns (r: Option<Role>)
    ensures r == FirstRole(c, texts)
    ensures r.None? <==> forall j :: 0 <= j < |texts| ==> Skipped(c, texts[j])
    ensures r.Some? ==>
      exists i :: 0 <= i < |texts| && !Skipped(c, texts[i]) && r.value == c.decode(texts[i]).value.role
        && forall j :: 0 <= j < i ==> Skipped(c, texts[j])
  {
    for i := 0 to |texts|
      invariant FirstRole(c, texts) == FirstRole(c, texts[i..])
      invariant forall j :: 0 <= j < i ==> Skipped(c, texts[j])
    {
      var m := c.decode(texts[i]);
      if m.Some? && m.value.role != System {
        return Some(m.value.role);
      }
    }
    r := None;
  }

  method ParseLines(c: Codec, k: Chunk) returns (messages: seq<Message>, offsets: seq<nat>)
    ensures var ps := Parsed(c, k.lines);
      |messages| == |offsets| == |ps| && forall i :: 0 <= i < |ps| ==> messages[i] == ps[i].0 && offsets[i] == ps[i].1
  {
    messages, offsets := [], [];
    for i := 0 to |k.lines|
      invariant var ps := Parsed(c, k.lines[..i]);
        |messages| == |offsets| == |ps| && forall j :: 0 <= j < |ps| ==> messages[j] == ps[j].0 && offsets[j] == ps[j].1
    {
      assert k.lines[..i + 1][..i] == k.lines[..i];
      var m := c.decode(k.lines[i].text);
      if m.Some? {
        messages, offsets := messages + [m.value], offsets + [k.lines[i].off];
      }
    }
    assert k.lines[..|k.lines|] == k.lines;
  }

  /** What one tail read of a page yields. */
  method ReadChunk(content: string, before: int, limit: nat)
    returns (lines: seq<Line>, start: nat, more: bool, end: nat)
    requires limit > 0 && before <= |content|
    ensures end == if before <= 0 then |content| else before
    ensures Chunk(lines, start, more) == FirstChunk(content, end, limit)
  {
    hide LinesBefore;
    var r := ReadTailFile(content, before, limit);
    var tail := r.value;
    end := tail.endOffset;
    start, more := tail.startOffset, tail.hasMore;
    lines := seq(|tail.lines|, i requires 0 <= i < |tail.lines| && |tail.offsets| == |tail.lines| =>
      Line(tail.offsets[i], tail.lines[i]));
    assert lines == LastOf(LinesBefore(content, end), limit);
  }

  lemma LastLineIsChunk(content: string, end: nat)
    requires end <= |content|
    ensures FirstChunk(content, end, 1).lines == LastLine(content, end)
  {
  }

  method CheckCursor(hash: string -> string, file: Option<string>, before: int, boundaryEnd: int, boundaryHash: string)
    returns (ok: bool)
    requires boundaryEnd > 0
    ensures ok == CursorHolds(hash, file, before, boundaryEnd, boundaryHash)
  {
    hide LastLine, FirstChunk;
    if before >= boundaryEnd || file.None? || |file.value| < boundaryEnd {
      return false;
    }
    var anchor, _, _, _ := ReadChunk(file.value, boundaryEnd, 1);
    LastLineIsChunk(file.value, boundaryEnd);
    ok := anchor != [] && anchor[|anchor| - 1].off == before && hash(anchor[|anchor| - 1].text) == boundaryHash;
  }

  method BuildPage(c: Codec, hash: string -> string, chunk: Chunk, end: nat) returns (page: Page)
    ensures page == PageOfChunk(c, hash, chunk, end)
  {
    hide Parsed;
    var messages, offsets := ParseLines(c, chunk);
    page := Page(messages, offsets, chunk.start, chunk.more, "", 0);
    if chunk.lines != [] {
      page := page.(boundaryHash := hash(chunk.lines[0].text), boundaryEnd := end);
      if |chunk.lines| > 1 {
        page := page.(boundaryEnd := chunk.lines[1].off);
      }
    }
  }

  lemma ChunkHasStart(content: string, end: nat, limit: nat)
    requires end <= |content|
    ensures var k := FirstChunk(content, end, limit); k.more <==> k.start > 0
  {
  }

  /** The extension loop: the start offset falls with every row it takes in. */
  method ExtendPage(c: Codec, content: string, first: Chunk) returns (k: Chunk)
    requires first.start <= |content| && (first.more ==> first.start > 0)
    ensures k == Extend(c, content, first)
  {
    hide LastLine;
    k := first;
    while true
      invariant k.start <= |content| && (k.more ==> k.start > 0)
      invariant Extend(c, content, k) == Extend(c, content, first)
      decreases k.start
    {
      var role := FirstValidRole(c, Texts(k.lines));
      if !(k.more && role == Some(Tool)) {
        break;
      }
      var earlier, start, more, _ := ReadChunk(content, k.start, 1);
      LastLineIsChunk(content, k.start);
      if earlier == [] {
        k := k.(more := false);
        break;
      }
      k := Chunk(earlier + k.lines, start, more);
    }
  }

  method LoadMessagePage(c: Codec, hash: string -> string, file: Option<string>, before: int, boundaryEnd: int,
                         boundaryHash: string, limit: int)
    returns (r: Result<Page, PageError>)
    ensures r == PageOf(c, hash, file, before, boundaryEnd, boundaryHash, limit)
    ensures r == Err(BadLimit) <==> limit <= 0
    ensures var accepted := boundaryEnd <= 0 || CursorHolds(hash, file, before, boundaryEnd, boundaryHash);
      && (r == Err(PageChanged) <==> limit > 0 && !accepted)
      && (r == Err(ReadFailed) <==> limit > 0 && accepted && file.Some? && before > |file.value|)
      && (limit > 0 && accepted && file.None? ==> r == Ok(Page([], [], 0, false, "", 0)))
      && (limit > 0 && accepted && file.Some? && before <= |file.value| ==>
            r == Ok(PageBefore(c, hash, file.value, if before > 0 then before else |file.value|, limit)))
  {
    hide Extend, FirstChunk, PageOfChunk, CursorHolds;
    if limit <= 0 {
      return Err(BadLimit);
    }
    if boundaryEnd > 0 {
      var ok := CheckCursor(hash, file, before, boundaryEnd, boundaryHash);
      if !ok {
        return Err(PageChanged);
      }
    }
    if file.None? {
      return Ok(EMPTY_PAGE);
    }
    var content := file.value;
    if before > |content| {
      return Err(ReadFailed);
    }
    var lines, start, more, end := ReadChunk(content, before, limit);
    ChunkHasStart(content, end, limit);
    var chunk := ExtendPage(c, content, Chunk(lines, start, more));
    var page := BuildPage(c, hash, chunk, end);
    r := Ok(page);
  }
}
