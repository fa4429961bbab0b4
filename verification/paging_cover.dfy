/**
  What the walk towards the beginning of a file of any bytes shows: unless a cursor
  is refused, every readable row once, in order, and with its offset, however the file
  grows meanwhile and also where the walk gets stuck.
*/
module PagingCover {
  import opened Wrappers
  import opened Messages
  import opened StoreModel
  import opened TailReader
  import opened TailFacts
  import opened Paging
  import opened PagingTheorems
  import opened PagingWalk

  lemma PageRows(c: Codec, hash: string -> string, content: string, before: nat, limit: nat)
    requires before <= |content|
    ensures var k, p := Extend(c, content, FirstChunk(content, before, limit)),
          PageBefore(c, hash, content, before, limit);
      && p.messages == Firsts(Parsed(c, k.lines)) && p.offsets == Seconds(Parsed(c, k.lines))
      && p.startOffset == k.start && p.hasMore == k.more
  {
    hide Extend, FirstChunk, Parsed;
  }

  lemma PairsSplit(older: seq<(Message, nat)>, newer: seq<(Message, nat)>, all: seq<(Message, nat)>)
    requires all == older + newer
    ensures Firsts(all) == Firsts(older) + Firsts(newer) && Seconds(all) == Seconds(older) + Seconds(newer)
    ensures older == [] ==> Firsts(all) == Firsts(newer) && Seconds(all) == Seconds(newer)
  {
  }

  lemma RowsUnfold(c: Codec, content: string, k: Chunk, rows: seq<(Message, nat)>)
    requires KeepsRows(c, content, k, rows)
    ensures k.start <= |content| && rows == Parsed(c, LinesBefore(content, k.start)) + Parsed(c, k.lines)
    ensures LinesBefore(content, k.start) == [] ==> Parsed(c, LinesBefore(content, k.start)) == []
  {
    hide LinesBefore;
  }

  /** A page that does not get on has nothing to show. */
  lemma NothingBehind(c: Codec, content: string, before: nat, limit: nat)
    requires RowsAgree(c, content) && 0 < before <= |content| && limit > 0
    ensures var k := Extend(c, content, FirstChunk(content, before, limit));
      k.start == before ==> LinesBefore(content, before) == []
  {
    var first := FirstChunk(content, before, limit);
    FirstChunkLines(content, before, limit);
    hide LinesBefore, Extend, FirstChunk;
    EmptyPageStays(c, content, first, before);
  }

  /** A page splits what is read before its offset; the last one of a walk leaves nothing. */
  lemma PageSplits(c: Codec, content: string, before: nat, limit: nat)
    requires RowsAgree(c, content) && 0 < before <= |content| && limit > 0
    ensures var k, all := Extend(c, content, FirstChunk(content, before, limit)),
          Parsed(c, LinesBefore(content, before));
      && k.start <= before && (k.more ==> k.start > 0)
      && var older, newer := Parsed(c, LinesBefore(content, k.start)), Parsed(c, k.lines);
         && Firsts(all) == Firsts(older) + Firsts(newer) && Seconds(all) == Seconds(older) + Seconds(newer)
         && (!k.more || k.start == before ==> Firsts(all) == Firsts(newer) && Seconds(all) == Seconds(newer))
  {
    hide *;
    var k, all := Extend(c, content, FirstChunk(content, before, limit)), Parsed(c, LinesBefore(content, before));
    PageKeepsRows(c, content, before, limit);
    RowsUnfold(c, content, k, all);
    PageStep(c, content, before, limit);
    NoLinesOfNothing(content);
    NothingBehind(c, content, before, limit);
    PairsSplit(Parsed(c, LinesBefore(content, k.start)), Parsed(c, k.lines), all);
  }

  /** One request of a walk, also when the file has grown. */
  lemma AcceptedStep(c: Codec, hash: string -> string, content: string, later: nat -> string,
                     before: nat, boundaryEnd: int, boundaryHash: string, limit: nat)
    requires 0 < before <= |content| && limit > 0
    requires Accepted(hash, content, before, boundaryEnd, boundaryHash)
    ensures var p := PageBefore(c, hash, content, before, limit);
      Follow(c, hash, content, later, before, boundaryEnd, boundaryHash, limit) ==
        (if p.hasMore && p.startOffset < before
         then Follow(c, hash, content, later, p.startOffset, p.boundaryEnd, p.boundaryHash, limit) else []) + [p]
  {
    hide Follow, PageOf, PageBefore, LinesBefore, LastLine;
    var p := PageBefore(c, hash, content, before, limit);
    PageExtent(c, hash, content, before, boundaryEnd, boundaryHash, limit);
    AppendKeepsPage(c, hash, content, later(before), before, boundaryEnd, boundaryHash, limit);
    FollowStep(c, hash, content, later, before, boundaryEnd, boundaryHash, limit, p);
  }

  /**
    Exact cover of a file of any bytes: for every limit, and however the file grows,
    if no request is refused the pages from an offset on hold every readable row before
    it exactly once, in order and with its offset; also when the walk gets stuck, which
    its oldest page says.
  */
  lemma {:induction false} EveryRowOnce(c: Codec, hash: string -> string, content: string, later: nat -> string,
                                        before: nat, boundaryEnd: int, boundaryHash: string, limit: nat)
    requires RowsAgree(c, content) && limit > 0 && 0 < before <= |content|
    requires Walk(c, hash, content, before, boundaryEnd, boundaryHash, limit) != Refused
    ensures var ps := Follow(c, hash, content, later, before, boundaryEnd, boundaryHash, limit);
      var rows := Parsed(c, LinesBefore(content, before));
      && ps != [] && AllMessages(ps) == Firsts(rows) && AllOffsets(ps) == Seconds(rows)
      && Walk(c, hash, content, before, boundaryEnd, boundaryHash, limit) == if ps[0].hasMore then Stuck else Ended
    decreases before
  {
    hide *;
    var k, p := Extend(c, content, FirstChunk(content, before, limit)), PageBefore(c, hash, content, before, limit);
    PageSplits(c, content, before, limit);
    PageRows(c, hash, content, before, limit);
    WalkStep(c, hash, content, before, boundaryEnd, boundaryHash, limit);
    AcceptedStep(c, hash, content, later, before, boundaryEnd, boundaryHash, limit);
    if k.more && k.start < before {
      EveryRowOnce(c, hash, content, later, k.start, p.boundaryEnd, p.boundaryHash, limit);
      AllOfSnoc(Follow(c, hash, content, later, k.start, p.boundaryEnd, p.boundaryHash, limit), p);
    } else {
      AllOfSnoc([], p);
      assert [] + [p] == [p];
    }
  }

  /**
    In particular on every file in which no row ends in two carriage returns: whatever
    the decoder does, and from every offset and cursor that is accepted, no request of
    the walk is refused.
  */
  lemma CleanCover(c: Codec, hash: string -> string, content: string, later: nat -> string,
                   before: nat, boundaryEnd: int, boundaryHash: string, limit: nat)
    requires Injective(hash) && !DoubledReturn(content) && limit > 0 && 0 < before <= |content|
    requires Accepted(hash, content, before, boundaryEnd, boundaryHash)
    ensures var ps := Follow(c, hash, content, later, before, boundaryEnd, boundaryHash, limit);
      var rows := Parsed(c, LinesBefore(content, before));
      && ps != [] && AllMessages(ps) == Firsts(rows) && AllOffsets(ps) == Seconds(rows)
      && Walk(c, hash, content, before, boundaryEnd, boundaryHash, limit) == if ps[0].hasMore then Stuck else Ended
  {
    assert RowsAgree(c, content);
    hide *;
    WalkIsNotRefused(c, hash, content, before, boundaryEnd, boundaryHash, limit);
    EveryRowOnce(c, hash, content, later, before, boundaryEnd, boundaryHash, limit);
  }
}
