/** Round trips of the history file, and the exact reach of the placeholder rewrite. */
module StoreTheorems {
  import opened Wrappers
  import opened Messages
  import opened StoreModel

  lemma ParseOneMore(c: Codec, rows: seq<string>, row: string, m: Message)
    requires row != "" && c.decode(row) == Some(m)
    ensures ParseRows(c, rows + [row]) == ParseRows(c, rows) + [m]
  {
    assert (rows + [row])[..|rows|] == rows;
  }

  lemma PrintSnoc(c: Codec, f: seq<Message>, m: Message)
    ensures PrintRows(c, f + [m]) == PrintRows(c, f) + [c.encode(m)]
  {
  }

  lemma AppendSplits<T>(a: seq<T>, b: seq<T>, x: T)
    ensures a + (b + [x]) == a + b + [x]
  {
  }

  lemma EncodedRow(c: Codec, m: Message)
    requires Faithful(c)
    ensures var row := c.encode(m);
      c.decode(row) == Some(m) && OneLine(row) && CleanStart(row) && CleanEnd(row)
  {
  }

  lemma EncodedMatches(c: Codec, m: Message, id: string)
    requires Faithful(c)
    ensures Matches(c, c.encode(m), id) <==> IsPlaceholderTool(m) && m.toolCallID == id
    ensures c.decode(c.encode(m)) == Some(m)
  {
    EncodedRow(c, m);
  }

  lemma {:induction false} ParsePrinted(c: Codec, rows: seq<string>, ms: seq<Message>)
    requires Faithful(c)
    ensures ParseRows(c, rows + PrintRows(c, ms)) == ParseRows(c, rows) + ms
  {
    if ms == [] {
      assert rows + PrintRows(c, ms) == rows;
    } else {
      hide *;
      var f, l := ms[..|ms| - 1], ms[|ms| - 1];
      ParsePrinted(c, rows, f);
      EncodedRow(c, l);
      assert ms == f + [l];
      PrintSnoc(c, f, l);
      ParseOneMore(c, rows + PrintRows(c, f), c.encode(l), l);
      AppendSplits(rows, PrintRows(c, f), c.encode(l));
      AppendSplits(ParseRows(c, rows), f, l);
    }
  }

  predicate NoNewlines(rows: seq<string>) {
    forall i :: 0 <= i < |rows| ==> '\n' !in rows[i]
  }

  /** Rows that a later append or rewrite keeps as they are. */
  predicate GoodRows(rows: seq<string>) {
    NoNewlines(rows) && (rows == [] || EdgeClean(rows))
  }

  lemma PrintedIsGood(c: Codec, rows: seq<string>, ms: seq<Message>)
    requires Faithful(c) && GoodRows(rows)
    ensures GoodRows(rows + PrintRows(c, ms))
  {
    var all := rows + PrintRows(c, ms);
    forall i | 0 <= i < |all| ensures '\n' !in all[i] {
      if i >= |rows| {
        assert all[i] == c.encode(ms[i - |rows|]);
        assert OneLine(c.encode(ms[i - |rows|]));
      }
    }
    if ms != [] {
      assert all[|all| - 1] == c.encode(ms[|ms| - 1]);
      assert CleanEnd(c.encode(ms[|ms| - 1])) && CleanStart(c.encode(ms[0]));
      assert rows == [] ==> all[0] == c.encode(ms[0]);
    } else {
      assert all == rows;
    }
  }

  lemma LoadOfRender(c: Codec, rows: seq<string>)
    requires GoodRows(rows)
    ensures LoadAll(c, Render(rows)) == ParseRows(c, rows)
  {
    if rows != [] {
      RowsOfRender(rows);
    }
  }

  /** Appending messages to a file of rows appends them to what is loaded. */
  lemma LoadAfterAppend(c: Codec, rows: seq<string>, ms: seq<Message>)
    requires Faithful(c) && GoodRows(rows)
    ensures LoadAll(c, Render(rows) + Render(PrintRows(c, ms))) == LoadAll(c, Render(rows)) + ms
  {
    RenderConcat(rows, PrintRows(c, ms));
    PrintedIsGood(c, rows, ms);
    LoadOfRender(c, rows);
    LoadOfRender(c, rows + PrintRows(c, ms));
    ParsePrinted(c, rows, ms);
  }

  lemma ReplaceIsRender(c: Codec, ms: seq<Message>)
    requires Faithful(c)
    ensures ReplaceContent(c, ms) == Render(PrintRows(c, ms))
  {
    var rows := PrintRows(c, ms);
    if ms != [] {
      RenderIsJoin(rows);
      JoinEnds(rows);
      assert rows[0] == c.encode(ms[0]) && CleanStart(c.encode(ms[0]));
    }
  }

  /** What a full rewrite stores is what the next load returns. */
  lemma LoadAfterReplace(c: Codec, ms: seq<Message>)
    requires Faithful(c)
    ensures LoadAll(c, ReplaceContent(c, ms)) == ms
  {
    ReplaceIsRender(c, ms);
    PrintedIsGood(c, [], ms);
    assert [] + PrintRows(c, ms) == PrintRows(c, ms);
    LoadOfRender(c, PrintRows(c, ms));
    ParsePrinted(c, [], ms);
  }

  // ------------------------------------------------------- placeholder rewrite

  lemma TrimmedEnds(s: string)
    ensures TrimSpace(s) != "" ==> CleanStart(TrimSpace(s)) && CleanEnd(TrimSpace(s))
  {
  }

  lemma {:induction false} JoinSplit(s: string)
    ensures JoinLines(Split(s)) == s
  {
    if s != "" {
      JoinSplit(s[1..]);
      var rest := Split(s[1..]);
      assert s == [s[0]] + s[1..];
      if s[0] == '\n' {
        assert ([""] + rest)[1..] == rest;
        assert "" + "\n" + JoinLines(rest) == "\n" + JoinLines(rest);
      } else {
        var lines := [[s[0]] + rest[0]] + rest[1..];
        assert lines[1..] == rest[1..];
        if |rest| > 1 {
          assert [s[0]] + rest[0] + "\n" + JoinLines(rest[1..]) == [s[0]] + (rest[0] + "\n" + JoinLines(rest[1..]));
        }
      }
    }
  }

  lemma {:induction false} RenderSplit(rows: seq<string>)
    requires NoNewlines(rows)
    ensures Split(Render(rows)) == rows + [""]
  {
    if rows == [] {
      assert rows + [""] == [""];
    } else {
      RenderSplit(rows[1..]);
      SplitRow(rows[0], Render(rows[1..]));
      assert [rows[0]] + (rows[1..] + [""]) == rows + [""];
    }
  }

  lemma RenderInjective(a: seq<string>, b: seq<string>)
    requires NoNewlines(a) && NoNewlines(b) && Render(a) == Render(b)
    ensures a == b
  {
    RenderSplit(a);
    RenderSplit(b);
    assert (a + [""])[..|a|] == a;
    assert |a| == |b|;
    assert (b + [""])[..|b|] == b;
  }

  /** Replacing one line of a text with clean ends by a clean row keeps clean ends. */
  lemma ReplacedLineEnds(t: string, i: nat, stored: string)
    requires CleanStart(t) && CleanEnd(t) && i < |Split(t)| && CleanStart(stored) && CleanEnd(stored)
    ensures var j := JoinLines(Split(t)[i := stored]); CleanStart(j) && CleanEnd(j)
  {
    JoinSplit(t);
    var rows := Split(t);
    hide Split, JoinLines;
    JoinEnds(rows);
    JoinEnds(rows[i := stored]);
  }

  /** The rewrite found a row: its output's outer characters are not blank. */
  lemma StitchOutputEnds(c: Codec, content: string, id: string, row: Message) returns (j: string)
    requires Faithful(c) && content != "" && id != ""
    requires FindPlaceholder(c, Split(TrimSpace(content)), id).Some?
    ensures CleanStart(j) && CleanEnd(j) && StitchContent(c, content, id, row) == j + "\n"
    ensures j == JoinLines(StitchRows(c, Split(TrimSpace(content)), id, row))
  {
    var t := TrimSpace(content);
    var rows := Split(t);
    TrimmedEnds(content);
    var i := FindPlaceholder(c, rows, id).value;
    assert Matches(c, rows[i], id);
    EncodedRow(c, MergeTiming(row, c.decode(rows[i]).value));
    assert t == "" ==> rows == [""];
    hide Split, TrimSpace, JoinLines, Faithful, FindPlaceholder, MergeTiming;
    ReplacedLineEnds(t, i, c.encode(MergeTiming(row, c.decode(rows[i]).value)));
    j := JoinLines(StitchRows(c, rows, id, row));
  }

  lemma ReplacedRowsClean(rows: seq<string>, k: nat, r: string)
    requires EdgeClean(rows) && NoNewlines(rows) && k < |rows| && OneLine(r) && CleanStart(r) && CleanEnd(r)
    ensures EdgeClean(rows[k := r]) && NoNewlines(rows[k := r])
  {
  }

  lemma StitchedRowsClean(c: Codec, rows: seq<string>, id: string, row: Message)
    requires Faithful(c) && EdgeClean(rows) && NoNewlines(rows)
    ensures EdgeClean(StitchRows(c, rows, id, row)) && NoNewlines(StitchRows(c, rows, id, row))
  {
    var f := FindPlaceholder(c, rows, id);
    if id != "" && f.Some? {
      var merged := MergeTiming(row, c.decode(rows[f.value]).value);
      EncodedRow(c, merged);
      hide Faithful, EdgeClean, NoNewlines, OneLine, CleanStart, CleanEnd;
      ReplacedRowsClean(rows, f.value, c.encode(merged));
    }
  }

  lemma StitchCleanFile(c: Codec, rows: seq<string>, id: string, row: Message)
    requires Faithful(c) && EdgeClean(rows) && NoNewlines(rows)
    ensures StitchContent(c, Render(rows), id, row) == Render(StitchRows(c, rows, id, row))
    ensures EdgeClean(StitchRows(c, rows, id, row)) && NoNewlines(StitchRows(c, rows, id, row))
  {
    RowsOfRender(rows);
    StitchedRowsClean(c, rows, id, row);
    var out := StitchRows(c, rows, id, row);
    hide Faithful, Split, TrimSpace, JoinLines, Render, FindPlaceholder, MergeTiming, NoNewlines;
    RenderIsJoin(out);
    JoinEnds(out);
  }

  lemma StitchedRowsEdges(c: Codec, rows: seq<string>, id: string, row: Message)
    requires Faithful(c) && rows != [] && NoNewlines(rows) && id != "" && !row.extra.placeholder && !EdgeClean(rows)
    requires FindPlaceholder(c, rows, id).Some?
    requires var k := FindPlaceholder(c, rows, id).value; CleanStart(rows[k]) && CleanEnd(rows[k])
    ensures var out := StitchRows(c, rows, id, row); out != [] && !EdgeClean(out) && out != rows && NoNewlines(out)
  {
    var k := FindPlaceholder(c, rows, id).value;
    assert Matches(c, rows[k], id);
    var merged := MergeTiming(row, c.decode(rows[k]).value);
    EncodedRow(c, merged);
    hide Faithful, FindPlaceholder;
    assert StitchRows(c, rows, id, row)[k] == c.encode(merged) != rows[k];
  }

  lemma DirtyRender(rows: seq<string>, j: string)
    requires rows != [] && !EdgeClean(rows) && CleanStart(j) && CleanEnd(j)
    ensures Render(rows) != j + "\n"
  {
    RenderIsJoin(rows);
    JoinEnds(rows);
    hide JoinLines, Render;
    var t := JoinLines(rows);
    assert |j + "\n"| == |j| + 1 && |t + "\n"| == |t| + 1;
    assert (j + "\n")[..|j|] == j && (t + "\n")[..|t|] == t;
  }

  lemma StitchSpoilsEdges(c: Codec, rows: seq<string>, id: string, row: Message)
    requires Faithful(c) && rows != [] && NoNewlines(rows) && id != "" && !row.extra.placeholder && !EdgeClean(rows)
    requires FindPlaceholder(c, rows, id).Some?
    requires var k := FindPlaceholder(c, rows, id).value; CleanStart(rows[k]) && CleanEnd(rows[k])
    ensures StitchContent(c, Render(rows), id, row) != Render(StitchRows(c, rows, id, row))
  {
    StitchedRowsEdges(c, rows, id, row);
    RenderIsJoin(rows);
    var content, out := Render(rows), StitchRows(c, rows, id, row);
    if FindPlaceholder(c, Split(TrimSpace(content)), id).None? {
      assert StitchContent(c, content, id, row) == content;
      hide *;
      if Render(rows) == Render(out) {
        RenderInjective(rows, out);
      }
    } else {
      var j := StitchOutputEnds(c, content, id, row);
      hide *;
      DirtyRender(out, j);
    }
  }

  /** The rewrite changes exactly the one matched row, and leaves every other row
      byte-identical, parseable or not, if and only if the first row of the file
      does not begin and the last does not end with white space: TrimSpace
      reshapes such an edge row on the way through. */
  lemma StitchRewritesOneRow(c: Codec, rows: seq<string>, id: string, row: Message)
    requires Faithful(c) && rows != [] && NoNewlines(rows) && id != "" && !row.extra.placeholder
    requires FindPlaceholder(c, rows, id).Some?
    requires var k := FindPlaceholder(c, rows, id).value; CleanStart(rows[k]) && CleanEnd(rows[k])
    ensures StitchContent(c, Render(rows), id, row) == Render(StitchRows(c, rows, id, row)) <==> EdgeClean(rows)
  {
    if EdgeClean(rows) {
      StitchCleanFile(c, rows, id, row);
    } else {
      StitchSpoilsEdges(c, rows, id, row);
    }
  }

  /** The white space in front of and behind what TrimSpace keeps. */
  function Lead(s: string): string { s[..|s| - |TrimLeft(s)|] }

  function Trail(s: string): string { TrimLeft(s)[|TrimSpace(s)|..] }

  lemma TrimParts(s: string)
    ensures s == Lead(s) + TrimSpace(s) + Trail(s)
    ensures forall i :: 0 <= i < |Lead(s)| ==> IsSpace(Lead(s)[i])
  {
    hide TrimLeft, TrimRight;
    var l := TrimLeft(s);
    assert s == s[..|s| - |l|] + l && l == TrimSpace(s) + Trail(s);
  }

  lemma BlanksAround(lead: string, j: string, trail: string)
    requires CleanStart(j) && forall i :: 0 <= i < |lead| ==> IsSpace(lead[i])
    ensures j + "\n" == lead + j + trail <==> lead == "" && trail == "\n"
  {
    var a, b := j + "\n", lead + j + trail;
    assert a[0] == j[0] && (lead != "" ==> b[0] == lead[0]);
    assert lead == "" ==> b == j + trail;
    assert (j + trail)[|j|..] == trail && a[|j|..] == "\n";
  }

  /**
    For any bytes in which the rewrite finds a row: replacing that one line where it
    stands, and nothing else, is what the rewrite does if and only if the file begins
    with something visible and ends with exactly one newline.
  */
  lemma StitchKeepsBytesIff(c: Codec, content: string, id: string, row: Message)
    requires Faithful(c) && content != "" && id != "" && FindPlaceholder(c, Split(TrimSpace(content)), id).Some?
    ensures var rows := Split(TrimSpace(content));
      && content == Lead(content) + JoinLines(rows) + Trail(content)
      && (StitchContent(c, content, id, row) ==
          Lead(content) + JoinLines(StitchRows(c, rows, id, row)) + Trail(content) <==>
          Lead(content) == "" && Trail(content) == "\n")
  {
    TrimParts(content);
    JoinSplit(TrimSpace(content));
    var j := StitchOutputEnds(c, content, id, row);
    hide *;
    BlanksAround(Lead(content), j, Trail(content));
  }

  lemma TrimTwoNewlines(e: string)
    requires CleanStart(e) && CleanEnd(e)
    ensures var s := e + "\n\n"; TrimSpace(s) == e && Lead(s) == "" && Trail(s) == "\n\n"
  {
    var s := e + "\n\n";
    assert s[0] == e[0] && s[..|s| - 1] == e + "\n" && (e + "\n")[..|e|] == e;
    assert TrimLeft(s) == s;
    assert TrimRight(e + "\n") == TrimRight(e) == e;
    assert s[|e|..] == "\n\n";
  }

  /** A file of one placeholder row and a blank line: the rewrite drops the blank line. */
  lemma TrailingLineIsLost(c: Codec, p: Message, row: Message)
    requires Faithful(c) && IsPlaceholderTool(p) && p.toolCallID != ""
    ensures var content := c.encode(p) + "\n\n";
      && Lead(content) == "" && Trail(content) == "\n\n" &&
           FindPlaceholder(c, Split(TrimSpace(content)), p.toolCallID).Some?
      && StitchContent(c, content, p.toolCallID, row) == c.encode(MergeTiming(row, p)) + "\n"
  {
    var e := c.encode(p);
    EncodedRow(c, p);
    EncodedRow(c, MergeTiming(row, p));
    TrimTwoNewlines(e);
    SplitJoin([e]);
    assert JoinLines([e]) == e;
    assert Split(TrimSpace(e + "\n\n")) == [e];
    hide Faithful, MergeTiming, Split, TrimSpace;
    assert Matches(c, [e][0], p.toolCallID);
    assert FindPlaceholder(c, [e], p.toolCallID) == Some(0);
    var stored := c.encode(MergeTiming(row, p));
    assert [e][0 := stored] == [stored] && JoinLines([stored]) == stored;
  }

  lemma {:induction false} ParseReplaced(c: Codec, rows: seq<string>, i: nat, stored: Message)
    requires Faithful(c) && i < |rows| && rows[i] != "" && c.decode(rows[i]).Some?
    ensures |ParseRows(c, rows[i := c.encode(stored)])| == |ParseRows(c, rows)|
  {
    var n := |rows| - 1;
    var out := rows[i := c.encode(stored)];
    if i < n {
      assert out[..n] == rows[..n][i := c.encode(stored)];
      ParseReplaced(c, rows[..n], i, stored);
    } else {
      assert out[..n] == rows[..n];
      assert c.decode(c.encode(stored)) == Some(stored) && CleanStart(c.encode(stored));
    }
  }

  /** The rewrite keeps the number of rows and of loadable messages. */
  lemma StitchKeepsCounts(c: Codec, rows: seq<string>, id: string, row: Message)
    requires Faithful(c)
    ensures |StitchRows(c, rows, id, row)| == |rows|
    ensures |ParseRows(c, StitchRows(c, rows, id, row))| == |ParseRows(c, rows)|
  {
    var f := FindPlaceholder(c, rows, id);
    if id != "" && f.Some? {
      assert Matches(c, rows[f.value], id);
      ParseReplaced(c, rows, f.value, MergeTiming(row, c.decode(rows[f.value]).value));
    }
  }
}
