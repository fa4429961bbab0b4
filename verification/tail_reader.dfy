/**
  The reverse reader of a JSONL file: a backward scan of one window, and a window
  that doubles until it holds enough lines. Both are proved against splitting
  the whole prefix from its beginning.
*/
module TailReader {
  import opened Wrappers

  /** One line: where it starts in the file, and its text without the line end. */
  datatype Line = Line(off: nat, text: string)

  datatype Tail = Tail(lines: seq<string>, offsets: seq<nat>, startOffset: nat, endOffset: nat, fileSize: nat,
                       hasMore: bool)

  datatype TailError = BadCount | PastEnd

  // --------------------------------------------------------- the forward reading

  predicate IsEol(c: char) { c == '\n' || c == '\r' }

  function TrimEol(s: string): (t: string)
    ensures t <= s
    ensures t == "" || !IsEol(t[|t| - 1])
    ensures forall i :: |t| <= i < |s| ==> IsEol(s[i])
  {
    if s == "" || !IsEol(s[|s| - 1]) then s else TrimEol(s[..|s| - 1])
  }

  /** A row loses one trailing carriage return. */
  function Chomp(row: string): string {
    if row != "" && row[|row| - 1] == '\r' then row[..|row| - 1] else row
  }

  function FirstNewline(s: string): (k: nat)
    ensures k <= |s| && (k < |s| ==> s[k] == '\n')
    ensures forall i :: 0 <= i < k ==> s[i] != '\n'
  {
    if s == "" || s[0] == '\n' then 0
    else
      FirstNewline(s[1..]) + 1
  }

  /** The lines of one row: none when it is empty. */
  function LineOf(row: string, off: nat): seq<Line> {
    if Chomp(row) == "" then [] else [Line(off, Chomp(row))]
  }

  /** The non-empty lines of a text that starts at file offset `base`, from the front. */
  function Lines(s: string, base: nat): seq<Line>
    decreases |s|
  {
    if s == "" then []
    else
      var k := FirstNewline(s);
      LineOf(s[..k], base) + if k == |s| then [] else Lines(s[k + 1..], base + k + 1)
  }

  /** All lines that end before `end`. */
  function LinesBefore(content: string, end: nat): seq<Line>
    requires end <= |content|
  {
    Lines(TrimEol(content[..end]), 0)
  }

  function LastOf<T>(s: seq<T>, count: nat): (r: seq<T>)
    ensures |r| <= count && |r| <= |s| && r == s[|s| - |r|..]
    ensures if |s| <= count then r == s else |r| == count
  {
    if |s| <= count then s else s[|s| - count..]
  }

  function Texts(ls: seq<Line>): (r: seq<string>)
    ensures |r| == |ls| && forall i :: 0 <= i < |ls| ==> r[i] == ls[i].text
  {
    seq(|ls|, i requires 0 <= i < |ls| => ls[i].text)
  }

  function Offsets(ls: seq<Line>): (r: seq<nat>)
    ensures |r| == |ls| && forall i :: 0 <= i < |ls| ==> r[i] == ls[i].off
  {
    seq(|ls|, i requires 0 <= i < |ls| => ls[i].off)
  }

  function StartOf(ls: seq<Line>, end: nat): nat { if ls == [] then end else ls[0].off }

  function TailOfLines(ls: seq<Line>, end: nat, fileSize: nat): Tail {
    Tail(Texts(ls), Offsets(ls), StartOf(ls, end), end, fileSize, StartOf(ls, end) > 0)
  }

  /** What reading the tail means: the last `count` lines before an offset. */
  function TailOf(content: string, before: int, count: int): Result<Tail, TailError> {
    if count <= 0 then Err(BadCount)
    else if before > |content| then Err(PastEnd)
    else
      var end := if before <= 0 then |content| else before;
      Ok(TailOfLines(LastOf(LinesBefore(content, end), count), end, |content|))
  }

  /** A row starts at position o: at the front, or right behind a newline. */
  predicate StartsRow(s: string, o: int) {
    0 <= o <= |s| && (o == 0 || s[o - 1] == '\n')
  }

  function HeadRow(t: string): string { t[..FirstNewline(t)] }

  /** The row that starts at position o. */
  function RowAt(s: string, o: nat): string
    requires o <= |s|
  {
    HeadRow(s[o..])
  }

  lemma LinesCons(s: string, base: nat)
    requires FirstNewline(s) < |s|
    ensures var k := FirstNewline(s);
      Lines(s, base) == LineOf(s[..k], base) + Lines(s[k + 1..], base + k + 1)
  {
    hide LineOf, FirstNewline;
  }

  lemma NewlineBound(s: string, p: nat)
    requires p < |s| && s[p] == '\n'
    ensures FirstNewline(s) <= p
  {
  }

  lemma LastRow(row: string, base: nat)
    requires forall i :: 0 <= i < |row| ==> row[i] != '\n'
    ensures Lines(row, base) == LineOf(row, base)
  {
    assert row[..|row|] == row;
  }

  lemma DropDrop(s: string, a: nat, b: nat)
    requires a + b <= |s|
    ensures s[a..][b..] == s[a + b..]
  {
  }

  lemma RowAfter(s: string, k: nat, o: nat)
    requires k < o <= |s| && s[k] == '\n'
    ensures StartsRow(s, o) <==> StartsRow(s[k + 1..], o - k - 1)
    ensures RowAt(s, o) == RowAt(s[k + 1..], o - k - 1)
  {
    hide HeadRow;
    DropDrop(s, k + 1, o - k - 1);
    assert o > k + 1 ==> s[o - 1] == s[k + 1..][o - k - 2];
  }

  lemma RowOfTail(s: string, o: nat)
    requires FirstNewline(s) < o <= |s|
    ensures var k := FirstNewline(s);
      && (StartsRow(s, o) <==> StartsRow(s[k + 1..], o - k - 1))
      && RowAt(s, o) == RowAt(s[k + 1..], o - k - 1)
  {
    hide *;
    var k := FirstNewline(s);
    RowAfter(s, k, o);
  }

  lemma RowOfHead(s: string, o: nat)
    requires o <= FirstNewline(s)
    ensures StartsRow(s, o) <==> o == 0
    ensures RowAt(s, 0) == s[..FirstNewline(s)]
  {
    assert s[0..] == s;
  }

  /** The lines are exactly the non-empty rows, each with the offset where it starts. */
  lemma {:induction false} LinesAreTheRows(s: string, base: nat, l: Line)
    ensures l in Lines(s, base) <==>
      base <= l.off && StartsRow(s, l.off - base) && l.text == Chomp(RowAt(s, l.off - base)) != ""
    decreases |s|
  {
    hide Lines, FirstNewline, Chomp, RowAt;
    var k := FirstNewline(s);
    var o := l.off - base;
    RowOfHead(s, if 0 <= o <= k then o else 0);
    if k < |s| {
      LinesCons(s, base);
      LinesAreTheRows(s[k + 1..], base + k + 1, l);
      if k < o <= |s| {
        RowOfTail(s, o);
      }
    } else {
      assert s[..k] == s;
      LastRow(s, base);
    }
    assert l in LineOf(s[..k], base) <==> o == 0 && l.text == Chomp(s[..k]) != "";
  }

  predicate Rising(ls: seq<Line>) {
    forall i, j :: 0 <= i < j < |ls| ==> ls[i].off < ls[j].off
  }

  lemma RowIsWithin(row: string, off: nat)
    ensures |LineOf(row, off)| <= 1 && (row == "" ==> LineOf(row, off) == [])
  {
  }

  /** The lines come in file order and start inside the text. */
  lemma {:induction false} LinesRise(s: string, base: nat)
    ensures Rising(Lines(s, base))
    ensures forall i :: 0 <= i < |Lines(s, base)| ==> base <= Lines(s, base)[i].off < base + |s|
    decreases |s|
  {
    hide Lines, FirstNewline, Chomp;
    var k := FirstNewline(s);
    if k < |s| {
      LinesCons(s, base);
      LinesRise(s[k + 1..], base + k + 1);
    } else {
      assert s[..k] == s;
      LastRow(s, base);
    }
    RowIsWithin(s[..k], base);
  }

  // ------------------------------------------------------ reading from the back

  lemma FirstNewlineOfPrefix(s: string, p: nat)
    requires p <= |s| && FirstNewline(s) < p
    ensures FirstNewline(s[..p]) == FirstNewline(s)
  {
    var k, j := FirstNewline(s), FirstNewline(s[..p]);
    assert s[..p][k] == '\n';
    NewlineBound(s[..p], k);
    assert s[..p][j] == s[j];
    NewlineBound(s, j);
  }

  lemma {:induction false} LinesSnoc(s: string, p: nat, base: nat)
    requires p < |s| && s[p] == '\n' && forall i :: p < i < |s| ==> s[i] != '\n'
    ensures Lines(s, base) == Lines(s[..p], base) + LineOf(s[p + 1..], base + p + 1)
    decreases |s|
  {
    hide Lines, LineOf, FirstNewline;
    var k := FirstNewline(s);
    var last := s[p + 1..];
    LastRow(last, base + p + 1);
    NewlineBound(s, p);
    LinesCons(s, base);
    if k < p {
      var t := s[k + 1..];
      assert t[p - k - 1] == '\n' && t[p - k..] == last;
      LinesSnoc(t, p - k - 1, base + k + 1);
      assert t[..p - k - 1] == s[..p][k + 1..];
      FirstNewlineOfPrefix(s, p);
      assert s[..p][..k] == s[..k];
      LinesCons(s[..p], base);
    } else {
      LastRow(s[..p], base);
    }
  }

  lemma SuffixIsLast<T>(pre: seq<T>, got: seq<T>)
    ensures LastOf(pre + got, |got|) == got
  {
  }

  method LastNewline(s: string) returns (p: int)
    ensures -1 <= p < |s| && (p >= 0 ==> s[p] == '\n')
    ensures forall i :: p < i < |s| ==> s[i] != '\n'
  {
    p := |s| - 1;
    while p >= 0 && s[p] != '\n'
      invariant -1 <= p < |s| && forall i :: p < i < |s| ==> s[i] != '\n'
    {
      p := p - 1;
    }
  }

  /** One step of the backward scan. */
  lemma RowBefore(content: string, start: nat, lineEnd: nat, newline: int)
    requires start + lineEnd <= |content| && -1 <= newline < lineEnd
    requires newline < 0 ==> start == 0
    requires newline >= 0 ==> content[start + newline] == '\n'
    requires forall i :: start + newline < i < start + lineEnd ==> content[i] != '\n'
    ensures Lines(content[..start + lineEnd], 0) ==
      (if newline < 0 then [] else Lines(content[..start + newline], 0)) +
      LineOf(content[start + newline + 1..start + lineEnd], start + newline + 1)
  {
    hide Lines, LineOf;
    var s := content[..start + lineEnd];
    if newline < 0 {
      assert s == content[0..lineEnd];
      LastRow(s, 0);
    } else {
      assert s[start + newline + 1..] == content[start + newline + 1..start + lineEnd];
      assert s[..start + newline] == content[..start + newline];
      LinesSnoc(s, start + newline, 0);
    }
  }

  lemma TrimEolIs(s: string, n: nat)
    requires n <= |s| && (forall i :: n <= i < |s| ==> IsEol(s[i])) && (n > 0 ==> !IsEol(s[n - 1]))
    ensures TrimEol(s) == s[..n]
  {
    var t := TrimEol(s);
    assert forall i :: 0 <= i < |t| ==> t[i] == s[i];
    assert |t| == n;
  }

  lemma WindowTrim(content: string, start: nat, end: nat, trimmedEnd: nat)
    requires start <= end <= |content| && start + trimmedEnd <= end
    requires forall i :: start + trimmedEnd <= i < end ==> IsEol(content[i])
    requires trimmedEnd > 0 ==> !IsEol(content[start + trimmedEnd - 1])
    requires trimmedEnd == 0 ==> start == 0
    ensures TrimEol(content[..end]) == content[..start + trimmedEnd]
  {
    TrimEolIs(content[..end], start + trimmedEnd);
    assert content[..end][..start + trimmedEnd] == content[..start + trimmedEnd];
  }

  /** The spans, last line first, are the lines found so far. */
  ghost predicate SpansAre(buf: string, start: nat, spans: seq<(nat, nat)>, got: seq<Line>) {
    && |spans| == |got|
    && (forall i :: 0 <= i < |spans| ==> spans[i].0 <= spans[i].1 <= |buf|)
    && (forall i :: 0 <= i < |got| ==>
      got[i] == Line(start + spans[|spans| - 1 - i].0, buf[spans[|spans| - 1 - i].0..spans[|spans| - 1 - i].1]))
  }

  lemma NoSpans(buf: string, start: nat)
    ensures SpansAre(buf, start, [], [])
  {
  }

  lemma SpansCount(buf: string, start: nat, spans: seq<(nat, nat)>, got: seq<Line>)
    requires SpansAre(buf, start, spans, got)
    ensures |spans| == |got|
  {
  }

  lemma SpansSnoc(buf: string, start: nat, spans: seq<(nat, nat)>, got: seq<Line>, a: nat, b: nat)
    requires SpansAre(buf, start, spans, got) && a <= b <= |buf|
    ensures SpansAre(buf, start, spans + [(a, b)], [Line(start + a, buf[a..b])] + got)
  {
  }

  lemma SubSlice(content: string, start: nat, end: nat, a: nat, b: nat)
    requires start <= end <= |content| && a <= b <= end - start
    ensures content[start..end][a..b] == content[start + a..start + b]
  {
    var x, y := content[start..end][a..b], content[start + a..start + b];
    assert |x| == |y|;
    assert forall i :: 0 <= i < |x| ==> x[i] == content[start + a + i] == y[i];
  }

  lemma RowText(buf: string, a: nat, b: nat, actualEnd: nat, off: nat)
    requires a <= b <= |buf| && actualEnd == if b > a && buf[b - 1] == '\r' then b - 1 else b
    ensures LineOf(buf[a..b], off) == if actualEnd > a then [Line(off, buf[a..actualEnd])] else []
  {
    assert Chomp(buf[a..b]) == buf[a..actualEnd];
  }

  /** One pass of the backward scan: the row behind the newline joins the lines found. */
  lemma ScanStep(content: string, buf: string, start: nat, end: nat, spans: seq<(nat, nat)>, got: seq<Line>,
                 lineEnd: nat, newline: int, actualEnd: nat)
    requires start <= end <= |content| && buf == content[start..end] && lineEnd <= |buf| && -1 <= newline < lineEnd
    requires newline < 0 ==> start == 0
    requires newline >= 0 ==> buf[newline] == '\n'
    requires forall i :: newline < i < lineEnd ==> buf[i] != '\n'
    requires actualEnd == if lineEnd > newline + 1 && buf[lineEnd - 1] == '\r' then lineEnd - 1 else lineEnd
    requires SpansAre(buf, start, spans, got)
    ensures var line := LineOf(buf[newline + 1..lineEnd], start + newline + 1);
      && start + lineEnd <= |content| && (newline >= 0 ==> 0 <= start + newline <= |content|)
      && Lines(content[..start + lineEnd], 0) ==
           (if newline < 0 then [] else Lines(content[..start + newline], 0)) + line
      && SpansAre(buf, start, if actualEnd > newline + 1 then spans + [(newline + 1, actualEnd)] else spans, line + got)
  {
    hide Lines, SpansAre, LineOf;
    var row := buf[newline + 1..lineEnd];
    SubSlice(content, start, end, newline + 1, lineEnd);
    assert forall i :: 0 <= i < |buf| ==> content[start + i] == buf[i];
    assert forall i :: start + newline < i < start + lineEnd ==> content[i] == buf[i - start];
    RowBefore(content, start, lineEnd, newline);
    RowText(buf, newline + 1, lineEnd, actualEnd, start + newline + 1);
    if actualEnd > newline + 1 {
      SpansSnoc(buf, start, spans, got, newline + 1, actualEnd);
    } else {
      assert [] + got == got;
    }
  }

  /** The spans in file order, as texts and offsets. */
  method FormatSpans(buf: string, start: nat, spans: seq<(nat, nat)>, ghost got: seq<Line>)
    returns (lines: seq<string>, offsets: seq<nat>)
    requires SpansAre(buf, start, spans, got)
    ensures lines == Texts(got) && offsets == Offsets(got)
  {
    lines, offsets := [], [];
    for i := 0 to |spans|
      invariant |lines| == |offsets| == i
      invariant forall j :: 0 <= j < i ==> lines[j] == got[j].text && offsets[j] == got[j].off
    {
      var span := spans[|spans| - 1 - i];
      lines := lines + [buf[span.0..span.1]];
      offsets := offsets + [start + span.0];
    }
  }

  lemma LinesBeforeIs(content: string, end: nat, n: nat)
    requires end <= |content| && n <= |content| && TrimEol(content[..end]) == content[..n]
    ensures LinesBefore(content, end) == Lines(content[..n], 0)
  {
  }

  /** The length of a window without its trailing line ends. */
  method TrimmedLength(buf: string, start: nat, end: nat, ghost content: string) returns (n: nat)
    requires start <= end <= |content| && buf == content[start..end]
    ensures n <= |buf|
    ensures start == 0 || n > 0 ==> LinesBefore(content, end) == Lines(content[..start + n], 0)
  {
    hide Lines, TrimEol;
    n := |buf|;
    while n > 0 && IsEol(buf[n - 1])
      invariant 0 <= n <= |buf| && forall i :: n <= i < |buf| ==> IsEol(buf[i])
    {
      n := n - 1;
    }
    if start == 0 || n > 0 {
      assert forall i :: start <= i < end ==> content[i] == buf[i - start];
      WindowTrim(content, start, end, n);
      LinesBeforeIs(content, end, start + n);
    }
  }

  lemma NoLines(content: string)
    ensures Lines(content[..0], 0) == []
  {
  }

  /** The backward scan: `rest` is what lies in front of the lines found. */
  method ScanBack(buf: string, start: nat, end: nat, trimmedEnd: nat, count: nat, ghost content: string)
    returns (spans: seq<(nat, nat)>, ghost got: seq<Line>, ghost rest: seq<Line>)
    requires start <= end <= |content| && buf == content[start..end] && trimmedEnd <= |buf|
    ensures SpansAre(buf, start, spans, got) && |got| <= count
    ensures Lines(content[..start + trimmedEnd], 0) == rest + got
    ensures start == 0 && |got| < count ==> rest == []
    ensures trimmedEnd == 0 ==> got == []
  {
    hide *;
    var lineEnd := trimmedEnd;
    spans, got := [], [];
    NoSpans(buf, start);
    NoLines(content);
    rest := Lines(content[..start + lineEnd], 0);
    while lineEnd > 0 && |spans| < count
      invariant 0 <= lineEnd <= trimmedEnd && |spans| == |got| <= count
      invariant SpansAre(buf, start, spans, got)
      invariant rest == Lines(content[..start + lineEnd], 0)
      invariant Lines(content[..start + trimmedEnd], 0) == rest + got
      invariant trimmedEnd == 0 ==> got == []
      decreases lineEnd
    {
      var newline := LastNewline(buf[..lineEnd]);
      if newline < 0 && start > 0 {
        break;
      }
      var lineStart, actualEnd := newline + 1, lineEnd;
      if actualEnd > lineStart && buf[actualEnd - 1] == '\r' {
        actualEnd := actualEnd - 1;
      }
      assert buf[..lineEnd][lineStart..] == buf[lineStart..lineEnd];
      ScanStep(content, buf, start, end, spans, got, lineEnd, newline, actualEnd);
      if actualEnd > lineStart {
        spans := spans + [(lineStart, actualEnd)];
      }
      ghost var line := LineOf(buf[lineStart..lineEnd], start + lineStart);
      ghost var before := if newline < 0 then [] else Lines(content[..start + newline], 0);
      assert before + (line + got) == before + line + got;
      got, rest := line + got, before;
      SpansCount(buf, start, spans, got);
      lineEnd := if newline < 0 then 0 else newline;
    }
  }

  lemma TailMeans(ls: seq<Line>, end: nat, fileSize: nat)
    ensures TailOfLines(ls, end, fileSize) ==
      Tail(Texts(ls), Offsets(ls), if ls == [] then end
           else ls[0].off, end, fileSize, (if ls == [] then end else ls[0].off) > 0)
  {
  }

  /**
    The backward scan of one window. It yields a suffix of the lines before
    `end`, and as many as asked for when the window holds the whole prefix.
  */
  method TailWindow(buf: string, start: nat, end: nat, fileSize: nat, count: nat, ghost content: string)
    returns (r: Tail)
    requires start <= end <= |content| && buf == content[start..end] && count > 0
    ensures |r.lines| <= count && r == TailOfLines(LastOf(LinesBefore(content, end), |r.lines|), end, fileSize)
    ensures start == 0 ==> r == TailOfLines(LastOf(LinesBefore(content, end), count), end, fileSize)
  {
    hide *;
    var trimmedEnd := TrimmedLength(buf, start, end, content);
    var spans;
    ghost var got, rest;
    spans, got, rest := ScanBack(buf, start, end, trimmedEnd, count, content);
    SuffixIsLast(rest, got);
    var lines, offsets := FormatSpans(buf, start, spans, got);
    var startOffset := if offsets != [] then offsets[0] else end;
    r := Tail(lines, offsets, startOffset, end, fileSize, startOffset > 0);
    TailMeans(got, end, fileSize);
  }

  lemma TailAt(content: string, before: int, count: int, end: nat)
    requires count > 0 && before <= |content| && end == if before <= 0 then |content| else before
    ensures TailOf(content, before, count) == Ok(TailOfLines(LastOf(LinesBefore(content, end), count), end, |content|))
  {
  }

  /** One read of the last `window` bytes before `end`, and the byte in front of them. */
  method ReadWindow(content: string, end: nat, window: nat, count: nat) returns (result: Tail, done: bool)
    requires 0 < end <= |content| && window > 0 && count > 0
    ensures done ==> result == TailOfLines(LastOf(LinesBefore(content, end), count), end, |content|)
    ensures !done ==> window < end
  {
    hide *;
    var start := if end < window then 0 else end - window;
    // The byte in front tells an exact line boundary from a cut-off first line.
    var readStart := if start > 0 then start - 1 else start;
    result := TailWindow(content[readStart..end], readStart, end, |content|, count, content);
    done := |result.lines| >= count || start == 0;
  }

  /** The doubling-window reader of the file server. */
  method ReadTailFile(content: string, before: int, count: int) returns (r: Result<Tail, TailError>)
    ensures r == TailOf(content, before, count)
  {
    if count <= 0 {
      return Err(BadCount);
    }
    var end := before;
    if end <= 0 {
      end := |content|;
    }
    if end > |content| {
      return Err(PastEnd);
    }
    TailAt(content, before, count, end);
    if end == 0 {
      assert content[..0] == "";
      return Ok(Tail([], [], 0, 0, |content|, false));
    }
    hide *;
    var window := 65536;
    while true
      invariant window > 0
      decreases end - window
    {
      var result, done := ReadWindow(content, end, window, count);
      if done {
        return Ok(result);
      }
      window := window * 2;
    }
  }

  /** The whole-content fallback of the generic adapter. */
  method ReadTailBytes(content: string, before: int, count: int) returns (r: Result<Tail, TailError>)
    ensures r == TailOf(content, before, count)
  {
    if count <= 0 {
      return Err(BadCount);
    }
    if before > |content| {
      return Err(PastEnd);
    }
    var end := if before <= 0 then |content| else before;
    var tail := TailWindow(content[..end], 0, end, |content|, count, content);
    r := Ok(tail);
  }
}
