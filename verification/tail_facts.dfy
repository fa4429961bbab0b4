/**
  What the lines of a prefix say about its bytes: between the lines there are
  only line ends, and the last line before an offset decides a page cursor.
*/
module TailFacts {
  import opened Wrappers
  import opened StoreModel
  import opened TailReader

  /** The bytes from a to b are line ends. */
  predicate EolBetween(s: string, a: int, b: int) {
    0 <= a <= b <= |s| && forall i :: a <= i < b ==> IsEol(s[i])
  }

  predicate StandsAt(s: string, a: int, t: string) {
    0 <= a && a + |t| <= |s| && forall i :: a <= i < a + |t| ==> s[i] == t[i - a]
  }

  function NextOff(ls: seq<Line>, i: int, end: nat): nat
    requires -1 <= i < |ls|
  {
    if i + 1 < |ls| then ls[i + 1].off else end
  }

  ghost predicate PlacedAt(s: string, base: nat, ls: seq<Line>, i: nat)
    requires i < |ls|
  {
    && ls[i].text != "" && StandsAt(s, ls[i].off - base, ls[i].text)
    && EolBetween(s, ls[i].off - base + |ls[i].text|, NextOff(ls, i, base + |s|) - base)
  }

  /** Each line stands at its offset; everything around the lines is line ends. */
  ghost predicate Placed(s: string, base: nat, ls: seq<Line>) {
    && EolBetween(s, 0, NextOff(ls, -1, base + |s|) - base)
    && forall i :: 0 <= i < |ls| ==> PlacedAt(s, base, ls, i)
  }

  lemma ShiftStands(s: string, d: nat, a: int, t: string)
    requires d <= |s| && StandsAt(s[d..], a, t)
    ensures StandsAt(s, a + d, t)
  {
    assert forall i :: a + d <= i < a + d + |t| ==> s[i] == s[d..][i - d];
  }

  lemma ShiftEol(s: string, d: nat, a: int, b: int)
    requires d <= |s| && EolBetween(s[d..], a, b)
    ensures EolBetween(s, a + d, b + d)
  {
    assert forall i :: a + d <= i < b + d ==> s[i] == s[d..][i - d];
  }

  lemma PlacedShift(s: string, d: nat, base: nat, ls: seq<Line>)
    requires d <= |s| && Placed(s[d..], base + d, ls)
    ensures EolBetween(s, d, NextOff(ls, -1, base + |s|) - base)
    ensures forall i :: 0 <= i < |ls| ==> PlacedAt(s, base, ls, i)
  {
    hide EolBetween, StandsAt;
    ShiftEol(s, d, 0, NextOff(ls, -1, base + |s|) - base - d);
    forall i | 0 <= i < |ls| ensures PlacedAt(s, base, ls, i) {
      assert PlacedAt(s[d..], base + d, ls, i);
      ShiftStands(s, d, ls[i].off - base - d, ls[i].text);
      ShiftEol(s, d, ls[i].off - base - d + |ls[i].text|, NextOff(ls, i, base + |s|) - base - d);
    }
  }

  /** A first row in front of placed lines, with only line ends in between. */
  lemma PlacedCons(s: string, base: nat, row: string, rest: seq<Line>)
    requires |row| <= |s| && s[..|row|] == row
    requires EolBetween(s, |row|, NextOff(rest, -1, base + |s|) - base)
    requires forall i :: 0 <= i < |rest| ==> PlacedAt(s, base, rest, i)
    ensures Placed(s, base, LineOf(row, base) + rest)
  {
    var t := Chomp(row);
    assert forall i :: 0 <= i < |row| ==> s[i] == row[i];
    var ls := LineOf(row, base) + rest;
    assert EolBetween(s, |t|, NextOff(rest, -1, base + |s|) - base);
    if t == "" {
      assert ls == rest;
    } else {
      forall i | 0 <= i < |ls| ensures PlacedAt(s, base, ls, i) {
        assert i > 0 ==> PlacedAt(s, base, rest, i - 1);
      }
    }
  }

  lemma EolJoin(s: string, k: nat, b: int)
    requires k < |s| && s[k] == '\n' && EolBetween(s, k + 1, b)
    ensures EolBetween(s, k, b)
  {
  }

  lemma NoGap(s: string, base: nat)
    ensures EolBetween(s, |s|, NextOff([], -1, base + |s|) - base)
  {
  }

  lemma {:induction false} LinesPlaced(s: string, base: nat)
    ensures Placed(s, base, Lines(s, base))
    decreases |s|
  {
    hide *;
    var k := FirstNewline(s);
    if k < |s| {
      var rest := Lines(s[k + 1..], base + k + 1);
      LinesPlaced(s[k + 1..], base + k + 1);
      PlacedShift(s, k + 1, base, rest);
      EolJoin(s, k, NextOff(rest, -1, base + |s|) - base);
      PlacedCons(s, base, s[..k], rest);
      LinesCons(s, base);
    } else {
      assert s[..k] == s;
      LastRow(s, base);
      NoGap(s, base);
      PlacedCons(s, base, s, []);
      assert LineOf(s, base) + [] == LineOf(s, base);
    }
  }

  lemma TrimmedPrefix(content: string, end: nat)
    requires end <= |content|
    ensures var s := TrimEol(content[..end]);
      && |s| <= end && (forall j :: 0 <= j < |s| ==> s[j] == content[j])
      && EolBetween(content, |s|, end) && (s == "" || !IsEol(s[|s| - 1]))
  {
    var s := TrimEol(content[..end]);
    assert forall j :: 0 <= j < end ==> content[j] == content[..end][j];
  }

  ghost predicate RowStandsAt(content: string, off: nat, text: string, end: nat) {
    && StartsRow(content, off) && StandsAt(content, off, text) && EolBetween(content, off + |text|, end)
  }

  lemma PlacedOne(s: string, ls: seq<Line>, i: nat)
    requires Placed(s, 0, ls) && i < |ls|
    ensures PlacedAt(s, 0, ls, i) && ls[i].text != "" && ls[i].off <= |s|
  {
  }

  lemma PlacedInFile(content: string, end: nat, s: string, ls: seq<Line>, i: nat)
    requires |s| <= end <= |content| && (forall j :: 0 <= j < |s| ==> s[j] == content[j])
    requires EolBetween(content, |s|, end) && (s == "" || !IsEol(s[|s| - 1]))
    requires i < |ls| && PlacedAt(s, 0, ls, i) && StartsRow(s, ls[i].off)
    ensures RowStandsAt(content, ls[i].off, ls[i].text, NextOff(ls, i, end)) && NextOff(ls, i, end) <= end
    ensures i + 1 == |ls| ==> ls[i].text[|ls[i].text| - 1] != '\r'
  {
    var a, t := ls[i].off, ls[i].text;
    if i + 1 == |ls| {
      assert a + |t| == |s|;
    }
  }

  lemma RowHasNoNewline(s: string, o: nat)
    requires o <= |s|
    ensures var t := Chomp(RowAt(s, o)); forall j :: 0 <= j < |t| ==> t[j] != '\n'
  {
  }

  /** Line i of a prefix stands in the file, and only line ends separate it from the next. */
  lemma LineInFile(content: string, end: nat, i: nat)
    requires end <= |content| && i < |LinesBefore(content, end)|
    ensures var ls := LinesBefore(content, end); var t := ls[i].text;
      && RowStandsAt(content, ls[i].off, t, NextOff(ls, i, end)) && NextOff(ls, i, end) <= end
      && t != "" && (forall j :: 0 <= j < |t| ==> t[j] != '\n')
      && (i + 1 == |ls| ==> t[|t| - 1] != '\r')
  {
    hide TrimEol, Lines, RowAt, Chomp, PlacedAt, RowStandsAt, EolBetween, StandsAt;
    var s := TrimEol(content[..end]);
    var ls := LinesBefore(content, end);
    TrimmedPrefix(content, end);
    LinesPlaced(s, 0);
    LinesAreTheRows(s, 0, ls[i]);
    RowHasNoNewline(s, ls[i].off);
    PlacedOne(s, ls, i);
    hide Placed, LinesBefore;
    PlacedInFile(content, end, s, ls, i);
  }

  function RowLines(rows: seq<string>, base: nat): (ls: seq<Line>)
    ensures |ls| == |rows|
  {
    if rows == [] then [] else [Line(base, rows[0])] + RowLines(rows[1..], base + |rows[0]| + 1)
  }

  lemma EmptyFront()
    ensures Render([]) == "" && Lines("", 0) == [] && RowLines([], 0) == []
  {
  }

  /** No line at all stands before an offset iff only line ends do. */
  lemma NoLinesIffBlank(content: string, end: nat)
    requires end <= |content|
    ensures LinesBefore(content, end) == [] <==> EolBetween(content, 0, end)
  {
    var s := TrimEol(content[..end]);
    TrimmedPrefix(content, end);
    LinesPlaced(s, 0);
    hide TrimEol, Lines, FirstNewline;
    assert LinesBefore(content, end) == [] ==> EolBetween(s, 0, |s|);
    assert s == "" ==> Lines(s, 0) == [] by { EmptyFront(); }
  }

  // --------------------------------------------------------------- the anchor row

  lemma LastIsLast(ls: seq<Line>, l: Line)
    requires LastOf(ls, 1) == [l]
    ensures ls != [] && ls[|ls| - 1] == l
  {
  }

  lemma NextOfLast(ls: seq<Line>, end: nat)
    requires ls != []
    ensures NextOff(ls, |ls| - 1, end) == end
  {
  }

  lemma VisibleRow(text: string, off: nat)
    requires text != "" && text[|text| - 1] != '\r'
    ensures LineOf(text, off) == [Line(off, text)]
  {
  }

  lemma AnchorFound(content: string, off: nat, text: string, end: nat)
    requires end <= |content| && text != "" && forall j :: 0 <= j < |text| ==> text[j] != '\n'
    requires RowStandsAt(content, off, text, end) && text[|text| - 1] != '\r'
    ensures LastOf(LinesBefore(content, end), 1) == [Line(off, text)]
  {
    hide Lines, TrimEol, LinesBefore, LineOf;
    var n := off + |text|;
    WindowTrim(content, 0, end, n);
    RowBefore(content, 0, n, off - 1);
    LinesBeforeIs(content, end, n);
    assert content[off..n] == text;
    VisibleRow(text, off);
    hide *;
    SuffixIsLast(if off == 0 then [] else Lines(content[..off - 1], 0), [Line(off, text)]);
  }

  /**
    The last line before `end` is a given row iff that row stands there, is
    followed by line ends only, and does not end in a carriage return.
  */
  lemma AnchorIff(content: string, off: nat, text: string, end: nat)
    requires end <= |content| && text != "" && forall j :: 0 <= j < |text| ==> text[j] != '\n'
    ensures LastOf(LinesBefore(content, end), 1) == [Line(off, text)] <==>
      RowStandsAt(content, off, text, end) && text[|text| - 1] != '\r'
  {
    hide *;
    var ls := LinesBefore(content, end);
    if LastOf(ls, 1) == [Line(off, text)] {
      LastIsLast(ls, Line(off, text));
      LineInFile(content, end, |ls| - 1);
      NextOfLast(ls, end);
    }
    if RowStandsAt(content, off, text, end) && text[|text| - 1] != '\r' {
      AnchorFound(content, off, text, end);
    }
  }

  // ---------------------------------------------------------------- files of rows

  /** A row as the encoder writes it, or any other that is not blank and has a visible end. */
  predicate WellRow(row: string) {
    row != "" && row[|row| - 1] != '\r' && forall j :: 0 <= j < |row| ==> row[j] != '\n'
  }

  predicate WellRows(rows: seq<string>) { forall i :: 0 <= i < |rows| ==> WellRow(rows[i]) }

  /** Where row i of a file of rows starts. */
  function RowOffset(rows: seq<string>, i: nat): nat
    requires i <= |rows|
  {
    |Render(rows[..i])|
  }

  lemma LinesOfRowAnd(row: string, rest: string, base: nat)
    requires WellRow(row)
    ensures Lines(row + "\n" + rest, base) == [Line(base, row)] + Lines(rest, base + |row| + 1)
  {
    hide Lines, FirstNewline;
    var s := row + "\n" + rest;
    NewlineBound(s, |row|);
    assert forall i :: 0 <= i < |row| ==> s[i] == row[i];
    assert FirstNewline(s) == |row|;
    LinesCons(s, base);
    assert s[..|row|] == row && s[|row| + 1..] == rest;
  }

  lemma {:induction false} LinesOfRows(rows: seq<string>, base: nat)
    requires rows != [] && WellRows(rows)
    ensures Lines(JoinLines(rows), base) == RowLines(rows, base)
  {
    hide Lines;
    if |rows| == 1 {
      LastRow(rows[0], base);
      assert RowLines(rows[1..], base + |rows[0]| + 1) == [];
    } else {
      LinesOfRows(rows[1..], base + |rows[0]| + 1);
      LinesOfRowAnd(rows[0], JoinLines(rows[1..]), base);
    }
  }

  lemma {:induction false} JoinEndsVisible(rows: seq<string>)
    requires rows != [] && WellRows(rows)
    ensures JoinLines(rows) != "" && !IsEol(JoinLines(rows)[|JoinLines(rows)| - 1])
  {
    if |rows| > 1 {
      JoinEndsVisible(rows[1..]);
    }
  }

  /** The lines before the start of row j are the first j rows. */
  lemma LinesBeforeRow(rows: seq<string>, j: nat)
    requires WellRows(rows) && j <= |rows|
    ensures RowOffset(rows, j) <= |Render(rows)|
    ensures LinesBefore(Render(rows), RowOffset(rows, j)) == RowLines(rows[..j], 0)
  {
    hide Lines, RowLines, Render, JoinLines;
    var front := rows[..j];
    RenderConcat(front, rows[j..]);
    assert front + rows[j..] == rows;
    var end := RowOffset(rows, j);
    assert Render(rows)[..end] == Render(front);
    if j == 0 {
      EmptyFront();
    } else {
      RenderIsJoin(front);
      JoinEndsVisible(front);
      TrimEolIs(Render(front), |JoinLines(front)|);
      assert Render(front)[..|JoinLines(front)|] == JoinLines(front);
      LinesOfRows(front, 0);
    }
  }

  lemma {:induction false} RowLineAt(rows: seq<string>, base: nat, i: nat)
    requires i < |rows|
    ensures RowLines(rows, base)[i] == Line(base + RowOffset(rows, i), rows[i])
    decreases i
  {
    if i > 0 {
      RowLineAt(rows[1..], base + |rows[0]| + 1, i - 1);
      assert rows[..i][1..] == rows[1..][..i - 1];
    }
  }

  lemma RowLinesPrefix(rows: seq<string>, j: nat)
    requires j <= |rows|
    ensures RowLines(rows[..j], 0) == RowLines(rows, 0)[..j]
  {
    forall i | 0 <= i < j ensures RowLines(rows[..j], 0)[i] == RowLines(rows, 0)[i] {
      RowLineAt(rows[..j], 0, i);
      RowLineAt(rows, 0, i);
      assert rows[..j][..i] == rows[..i];
    }
  }

  lemma OffsetsRise(rows: seq<string>, i: nat, j: nat)
    requires i < j <= |rows|
    ensures RowOffset(rows, i) < RowOffset(rows, j)
  {
    RenderConcat(rows[..i], rows[i..j]);
    assert rows[..i] + rows[i..j] == rows[..j];
    assert Render(rows[i..j]) != "";
  }
}
