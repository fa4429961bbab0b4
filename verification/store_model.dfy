/**
  messages.jsonl as bytes: how rows are written, trimmed, split and parsed, and
  what the placeholder rewrite does to every other byte of the file.
*/
module StoreModel {
  import opened Wrappers
  import opened Messages

  /** The JSON encoder and decoder, as an abstract print/parse pair. */
  datatype Codec = Codec(encode: Message -> string, decode: string -> Option<Message>)

  predicate IsSpace(c: char) {
    c == ' ' || c == '\t' || c == '\n' || c == '\r' || c as int == 11 || c as int == 12
  }

  predicate CleanStart(row: string) { |row| > 0 && !IsSpace(row[0]) }

  predicate CleanEnd(row: string) { |row| > 0 && !IsSpace(row[|row| - 1]) }

  predicate OneLine(row: string) { '\n' !in row && '\r' !in row }

  /** An encoded message decodes to itself and is one line of a JSON object. */
  ghost predicate Faithful(c: Codec) {
    forall m :: c.decode(c.encode(m)) == Some(m) && OneLine(c.encode(m)) && CleanStart(c.encode(m)) &&
        CleanEnd(c.encode(m))
  }

  function TrimLeft(s: string): (t: string)
    ensures |t| <= |s| && t == s[|s| - |t|..]
    ensures t == "" || CleanStart(t)
    ensures forall i :: 0 <= i < |s| - |t| ==> IsSpace(s[i])
  {
    if s == "" || !IsSpace(s[0]) then s else TrimLeft(s[1..])
  }

  function TrimRight(s: string): (t: string)
    ensures t <= s
    ensures t == "" || CleanEnd(t)
    ensures forall i :: |t| <= i < |s| ==> IsSpace(s[i])
  {
    if s == "" || !IsSpace(s[|s| - 1]) then s else TrimRight(s[..|s| - 1])
  }

  function TrimSpace(s: string): string { TrimRight(TrimLeft(s)) }

  /** strings.Split(s, "\n"): one element more than there are newlines. */
  function Split(s: string): (lines: seq<string>)
    ensures |lines| >= 1
  {
    if s == "" then [""]
    else
      var rest := Split(s[1..]);
      if s[0] == '\n' then [""] + rest else [[s[0]] + rest[0]] + rest[1..]
  }

  /** strings.Join(rows, "\n"). */
  function JoinLines(rows: seq<string>): string {
    if rows == [] then "" else if |rows| == 1 then rows[0] else rows[0] + "\n" + JoinLines(rows[1..])
  }

  /** Every row followed by a newline: what appending rows to a file writes. */
  function Render(rows: seq<string>): string {
    if rows == [] then "" else rows[0] + "\n" + Render(rows[1..])
  }

  function ParseRows(c: Codec, rows: seq<string>): seq<Message> {
    if rows == [] then []
    else
      var front := ParseRows(c, rows[..|rows| - 1]);
      var row := rows[|rows| - 1];
      if row == "" || c.decode(row).None? then front else front + [c.decode(row).value]
  }

  function LoadAll(c: Codec, content: string): seq<Message> {
    if content == "" then [] else ParseRows(c, Split(TrimSpace(content)))
  }

  function PrintRows(c: Codec, ms: seq<Message>): (rows: seq<string>)
    ensures |rows| == |ms| && forall i :: 0 <= i < |ms| ==> rows[i] == c.encode(ms[i])
  {
    seq(|ms|, i requires 0 <= i < |ms| => c.encode(ms[i]))
  }

  function ReplaceContent(c: Codec, ms: seq<Message>): string {
    var content := JoinLines(PrintRows(c, ms));
    if |content| > 0 then content + "\n" else content
  }

  predicate Matches(c: Codec, row: string, id: string) {
    row != "" && c.decode(row).Some? && IsPlaceholderTool(c.decode(row).value) && c.decode(row).value.toolCallID == id
  }

  /** The first placeholder row of an id, from the head of the file. */
  function FindPlaceholder(c: Codec, rows: seq<string>, id: string): (r: Option<nat>)
    ensures r.Some? ==> r.value < |rows| && Matches(c, rows[r.value], id) && forall j :: 0 <= j < r.value ==>
              !Matches(c, rows[j], id)
    ensures r.None? ==> forall j :: 0 <= j < |rows| ==> !Matches(c, rows[j], id)
  {
    if rows == [] then None
    else if Matches(c, rows[0], id) then Some(0)
    else
      var r := FindPlaceholder(c, rows[1..], id);
      assert forall j :: 1 <= j < |rows| ==> rows[j] == rows[1..][j - 1];
      if r.Some? then Some(r.value + 1) else None
  }

  /** The real row, keeping the placeholder's timing where it has none. */
  function MergeTiming(row: Message, was: Message): Message {
    row.(extra := row.extra.(
      startedAt := if row.extra.startedAt.Some? then row.extra.startedAt else was.extra.startedAt,
      finishedAt := if row.extra.finishedAt.Some? then row.extra.finishedAt else was.extra.finishedAt))
  }

  function StitchRows(c: Codec, rows: seq<string>, id: string, row: Message): seq<string> {
    if id == "" then rows
    else match FindPlaceholder(c, rows, id)
      case None => rows
      case Some(i) => rows[i := c.encode(MergeTiming(row, c.decode(rows[i]).value))]
  }

  /** ReplacePlaceholderToolResult on the file's bytes. */
  function StitchContent(c: Codec, content: string, id: string, row: Message): string {
    if id == "" || content == "" then content
    else
      var rows := Split(TrimSpace(content));
      if FindPlaceholder(c, rows, id).None? then content
      else
        var joined := JoinLines(StitchRows(c, rows, id, row));
        if |joined| > 0 then joined + "\n" else joined
  }

  // ------------------------------------------------------------ lines and rows

  lemma {:induction false} SplitRow(row: string, rest: string)
    requires '\n' !in row
    ensures Split(row + "\n" + rest) == [row] + Split(rest)
    ensures Split(row) == [row]
  {
    if row == "" {
      assert ("\n" + rest)[1..] == rest;
      assert row + "\n" + rest == "\n" + rest;
    } else {
      assert '\n' !in row[1..];
      SplitRow(row[1..], rest);
      assert (row + "\n" + rest)[1..] == row[1..] + "\n" + rest;
      assert [row[0]] + row[1..] == row;
    }
  }

  lemma {:induction false} SplitJoin(rows: seq<string>)
    requires rows != [] && forall i :: 0 <= i < |rows| ==> '\n' !in rows[i]
    ensures Split(JoinLines(rows)) == rows
  {
    if |rows| == 1 {
      SplitRow(rows[0], "");
    } else {
      SplitJoin(rows[1..]);
      SplitRow(rows[0], JoinLines(rows[1..]));
    }
  }

  lemma {:induction false} RenderIsJoin(rows: seq<string>)
    requires rows != []
    ensures Render(rows) == JoinLines(rows) + "\n"
  {
    if |rows| == 1 {
      assert Render(rows[1..]) == "";
    } else {
      RenderIsJoin(rows[1..]);
    }
  }

  lemma {:induction false} RenderConcat(a: seq<string>, b: seq<string>)
    ensures Render(a + b) == Render(a) + Render(b)
  {
    if a == [] {
      assert a + b == b;
    } else {
      assert (a + b)[1..] == a[1..] + b;
      RenderConcat(a[1..], b);
      var h, x, y := a[0] + "\n", Render(a[1..]), Render(b);
      assert h + (x + y) == (h + x) + y;
    }
  }

  predicate EdgeClean(rows: seq<string>) {
    rows != [] && CleanStart(rows[0]) && CleanEnd(rows[|rows| - 1])
  }

  lemma {:induction false} JoinEnds(rows: seq<string>)
    requires rows != []
    ensures rows[0] != "" ==> JoinLines(rows) != "" && JoinLines(rows)[0] == rows[0][0]
    ensures rows[0] == "" ==> JoinLines(rows) == "" || IsSpace(JoinLines(rows)[0])
    ensures var z := rows[|rows| - 1]; var j := JoinLines(rows);
      if z != "" then j != "" && j[|j| - 1] == z[|z| - 1] else j == "" || IsSpace(j[|j| - 1])
  {
    if |rows| > 1 {
      JoinEnds(rows[1..]);
      var t := JoinLines(rows[1..]);
      assert rows[1..][|rows[1..]| - 1] == rows[|rows| - 1];
      if t == "" {
        assert JoinLines(rows) == rows[0] + "\n";
      } else {
        assert JoinLines(rows)[|JoinLines(rows)| - 1] == t[|t| - 1];
      }
    }
  }

  lemma TrimClean(s: string)
    requires CleanStart(s) && CleanEnd(s)
    ensures TrimSpace(s) == s && TrimSpace(s + "\n") == s
  {
    assert TrimLeft(s + "\n") == s + "\n";
    assert (s + "\n")[..|s|] == s;
  }

  /** Rows with clean outer edges survive TrimSpace and Split unchanged. */
  lemma RowsOfRender(rows: seq<string>)
    requires EdgeClean(rows) && forall i :: 0 <= i < |rows| ==> '\n' !in rows[i]
    ensures Split(TrimSpace(Render(rows))) == rows && Render(rows) != ""
  {
    RenderIsJoin(rows);
    JoinEnds(rows);
    TrimClean(JoinLines(rows));
    SplitJoin(rows);
  }
}
