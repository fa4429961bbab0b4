/**
  What BeginRun leaves on disk: complete blocks are never cut, a crash in the
  middle of a round costs exactly that round, and this stays so over any number
  of crashed runs.
*/
module RecoveryTheorems {
  import opened Wrappers
  import opened Messages
  import opened StoreModel
  import opened StoreTheorems
  import opened Recovery

  // ------------------------------------------------------------ clean histories

  /** An assistant row of a history starts a whole round of it. */
  lemma {:induction false} RoundAt(ms: seq<Message>, i: nat)
    requires IsHistory(ms) && i < |ms| && ms[i].role == Assistant
    ensures i + 1 + |ms[i].toolCalls| <= |ms| && IsRound(ms[i..i + 1 + |ms[i].toolCalls|])
    decreases |ms|
  {
    var n := BlockLen(ms[0]);
    assert forall k :: 0 <= k < n ==> ms[k] == ms[..n][k];
    if i == 0 {
      assert ms[0..n] == ms[..n];
    } else {
      var rest := ms[n..];
      assert rest[i - n] == ms[i];
      RoundAt(rest, i - n);
      assert rest[i - n..i - n + 1 + |ms[i].toolCalls|] == ms[i..i + 1 + |ms[i].toolCalls|];
    }
  }

  /** Row i is an assistant row whose results all follow it at once. */
  ghost predicate RoundFollows(ms: seq<Message>, i: nat) {
    i < |ms| && i + 1 + |ms[i].toolCalls| <= |ms| && IsRound(ms[i..i + 1 + |ms[i].toolCalls|])
  }

  lemma RoundFollowsMeans(ms: seq<Message>, i: nat)
    requires RoundFollows(ms, i)
    ensures forall id :: Declares(ms[i], id) ==> AnsweredBetween(ms, i, i + 1 + |ms[i].toolCalls|, id)
    ensures forall j :: i < j < i + 1 + |ms[i].toolCalls| ==> ms[j].role == Tool
  {
    var r := ms[i..i + 1 + |ms[i].toolCalls|];
    forall id | Declares(ms[i], id) ensures AnsweredBetween(ms, i, i + 1 + |ms[i].toolCalls|, id) {
      var k :| 0 <= k < |ms[i].toolCalls| && ms[i].toolCalls[k].id == id;
      assert r[0] == ms[i] && r[k + 1] == ms[i + k + 1];
    }
    forall j | i < j < i + 1 + |ms[i].toolCalls| ensures ms[j].role == Tool {
      assert r[j - i] == ms[j];
    }
  }

  /** A history is paired and free of overlapping ids, whatever its ids are. */
  lemma HistoryPaired(ms: seq<Message>, start: nat)
    requires IsHistory(ms)
    ensures PairedFrom(ms, start) && NoOverlap(ms, start)
  {
    forall i | start <= i < |ms| && ms[i].role == Assistant ensures RoundFollows(ms, i) {
      RoundAt(ms, i);
    }
    forall i | start <= i < |ms| ensures !Orphan(ms, i) {
      if ms[i].role == Assistant {
        RoundFollowsMeans(ms, i);
      }
    }
    forall i, j, id | start <= i < j < |ms| && Declares(ms[i], id) && Declares(ms[j], id)
      ensures AnsweredBetween(ms, i, j, id)
    {
      RoundFollowsMeans(ms, i);
    }
  }

  /** The scan never cuts a history, even one that reuses tool-call ids. */
  lemma CleanHistoryKept(ms: seq<Message>, start: nat, cut: Option<nat>)
    requires IsHistory(ms) && IsCut(ms, start, cut)
    ensures cut.None?
  {
    HistoryPaired(ms, start);
  }

  // ------------------------------------------------------------- a crashed block

  /** A block whose declared ids are distinct and not empty. */
  predicate GoodBlock(b: seq<Message>) {
    IsBlock(b) && Distinct(CallIds(b[0].toolCalls)) && "" !in CallIds(b[0].toolCalls)
  }

  /** Rows that end neither a round nor a call: the new user messages. */
  predicate UserRows(us: seq<Message>) {
    forall i :: 0 <= i < |us| ==> us[i].role == User || us[i].role == System
  }

  lemma {:induction false} UsersAreHistory(us: seq<Message>)
    requires UserRows(us)
    ensures IsHistory(us)
  {
    if us != [] {
      UsersAreHistory(us[1..]);
      assert us[..1] == [us[0]];
    }
  }

  /** Before a partial block everything is paired; only that block's rounds are open. */
  lemma PrefixPaired(h: seq<Message>, t: seq<Message>)
    requires IsHistory(h)
    ensures forall i :: 0 <= i < |h| ==> !Orphan(h + t, i)
    ensures var ms := h + t;
      forall i, j, id :: 0 <= i < |h| && i < j < |ms| && Declares(ms[i], id) && Declares(ms[j], id) ==>
        AnsweredBetween(ms, i, j, id)
  {
    var ms := h + t;
    forall i | 0 <= i < |h| && ms[i].role == Assistant ensures RoundFollows(ms, i) {
      RoundAt(h, i);
      assert ms[i..i + 1 + |ms[i].toolCalls|] == h[i..i + 1 + |ms[i].toolCalls|];
    }
    forall i | 0 <= i < |h| ensures !Orphan(ms, i) {
      if ms[i].role == Assistant {
        RoundFollowsMeans(ms, i);
      }
    }
    forall i, j, id | 0 <= i < |h| && i < j < |ms| && Declares(ms[i], id) && Declares(ms[j], id)
      ensures AnsweredBetween(ms, i, j, id)
    {
      RoundFollowsMeans(ms, i);
    }
  }

  /** After its assistant row, a cut-off block and the users behind it declare nothing. */
  lemma TailDeclaresNothing(b: seq<Message>, k: nat, us: seq<Message>)
    requires IsBlock(b) && 0 < k <= |b| && UserRows(us)
    ensures forall j, id :: 0 < j < |b[..k] + us| ==> !Declares((b[..k] + us)[j], id)
  {
  }

  /** The first result that the crash lost is never answered. */
  lemma OpenRoundIsOrphan(h: seq<Message>, b: seq<Message>, k: nat, us: seq<Message>)
    requires GoodBlock(b) && 0 < k < |b| && UserRows(us)
    ensures Orphan(h + (b[..k] + us), |h|)
  {
    var t := b[..k] + us;
    var ms := h + t;
    var ids := CallIds(b[0].toolCalls);
    var id := ids[k - 1];
    assert ms[|h|] == b[0] && b[0].toolCalls[k - 1].id == id && id in ids;
    assert Declares(b[0], id);
    forall j | |h| < j < |ms| ensures !Answers(ms[j], id) {
      assert ms[j] == t[j - |h|];
      if j - |h| < k {
        assert ms[j] == b[j - |h|] && b[j - |h|].toolCallID == ids[j - |h| - 1];
      }
    }
  }

  lemma NothingIsHistory()
    ensures IsHistory([])
  {
  }

  lemma WholeCrash(h: seq<Message>, b: seq<Message>, k: nat, us: seq<Message>, start: nat, cut: Option<nat>)
    requires IsHistory(h) && GoodBlock(b) && (k == 0 || k == |b|) && UserRows(us)
    requires IsCut(h + (b[..k] + us), start, cut)
    ensures cut.None?
  {
    UsersAreHistory(us);
    BlockIsHistory(b);
    NothingIsHistory();
    hide IsHistory, IsCut, IsBlock, UserRows;
    assert b[..k] == if k == 0 then [] else b;
    HistoryConcat(b[..k], us);
    HistoryConcat(h, b[..k] + us);
    CleanHistoryKept(h + (b[..k] + us), start, cut);
  }

  lemma TornCrash(h: seq<Message>, b: seq<Message>, k: nat, us: seq<Message>, start: nat, cut: Option<nat>)
    requires IsHistory(h) && GoodBlock(b) && 0 < k < |b| && UserRows(us)
    requires IsCut(h + (b[..k] + us), start, cut)
    ensures cut == if start <= |h| then Some(|h|) else None
  {
    var t := b[..k] + us;
    var ms := h + t;
    PrefixPaired(h, t);
    TailDeclaresNothing(b, k, us);
    OpenRoundIsOrphan(h, b, k, us);
    hide IsHistory, GoodBlock, AnsweredBetween, Declares, IsBlock, UserRows;
    assert forall j :: |h| <= j < |ms| ==> ms[j] == t[j - |h|];
    assert NoOverlap(ms, start);
  }

  /**
    The cut after a crash: exactly the block the crash interrupted, and only if
    the scan starts at or before it. Rows before and complete blocks stay.
  */
  lemma CrashCut(h: seq<Message>, b: seq<Message>, k: nat, us: seq<Message>, start: nat,
                 cut: Option<nat>)
    requires IsHistory(h) && GoodBlock(b) && k <= |b| && UserRows(us)
    requires IsCut(h + (b[..k] + us), start, cut)
    ensures cut == if 0 < k < |b| && start <= |h| then Some(|h|) else None
  {
    hide *;
    if k == 0 || k == |b| {
      WholeCrash(h, b, k, us, start, cut);
    } else {
      TornCrash(h, b, k, us, start, cut);
    }
  }

  // -------------------------------------------------------------------- BeginRun

  predicate AllPrePersisted(us: seq<Message>) {
    forall i :: 0 <= i < |us| ==> us[i].extra.prePersisted
  }

  /** The users that are not on disk yet: a batch with one unmarked row is new as a whole. */
  function NewRows(us: seq<Message>): (r: seq<Message>)
    ensures (exists i :: 0 <= i < |us| && !us[i].extra.prePersisted) ==> r == us
    ensures (forall i :: 0 <= i < |us| ==> us[i].extra.prePersisted) ==> r == []
  {
    if us != [] && AllPrePersisted(us) then [] else us
  }

  function Kept(ms: seq<Message>, cut: Option<nat>): seq<Message>
    requires cut.Some? ==> cut.value <= |ms|
  {
    if cut.Some? then ms[..cut.value] else ms
  }

  ghost function AfterBeginRun(c: Codec, was: string, cut: Option<nat>, us: seq<Message>): string
    requires cut.Some? ==> cut.value <= |LoadAll(c, was)|
  {
    (if cut.Some? then ReplaceContent(c, LoadAll(c, was)[..cut.value]) else was) + Render(PrintRows(c, NewRows(us)))
  }

  /** The view of the model: a bad index is clamped to the nearest end. */
  function ViewIndex(index: Option<int>, n: nat): (i: nat)
    ensures i <= n
    ensures index.Some? && 0 <= index.value <= n ==> i == index.value
    ensures index.None? || index.value < 0 ==> i == 0
    ensures index.Some? && index.value > n ==> i == n
  {
    if index.None? || index.value < 0 then 0 else if index.value > n then n else index.value
  }

  /** The message that stands for the rows in front of an index. */
  datatype Summary = Summary(message: Message, index: int)

  function IndexOf(summary: Option<Summary>): Option<int> {
    if summary.Some? then Some(summary.value.index) else None
  }

  lemma NothingToCut(start: nat)
    ensures IsCut([], start, None)
  {
  }

  /** What the model is shown: the summary, and the rows from its clamped index on. */
  function ViewOf(summary: Option<Summary>, all: seq<Message>): seq<Message> {
    (if summary.Some? then [summary.value.message] else []) + all[ViewIndex(IndexOf(summary), |all|)..]
  }

  lemma CutInWindow(ms: seq<Message>, start: nat, cut: Option<nat>)
    requires cut.Some? && IsCut(ms, start, cut)
    ensures start <= cut.value < |ms|
  {
  }

  lemma NothingRendered(c: Codec)
    ensures Render(PrintRows(c, [])) == ""
  {
  }

  /** The session's history file and its summary. */
  class ChatContextManager {
    const codec: Codec
    var content: string
    var summary: Option<Summary>

    constructor (c: Codec, initial: string, s: Option<Summary>)
      ensures codec == c && content == initial && summary == s
    {
      codec, content, summary := c, initial, s;
    }

    /** Truncate from the first orphan, then append the users not yet on disk. */
    method BeginRun(us: seq<Message>) returns (truncated: bool, ghost cut: Option<nat>)
      modifies this`content
      ensures var was := LoadAll(codec, old(content));
        && IsCut(was, StartIndex(IndexOf(summary), |was|), cut)
        && truncated == cut.Some?
        && content == AfterBeginRun(codec, old(content), cut, us)
        && var base := if cut.Some? then ReplaceContent(codec, was[..cut.value]) else old(content);
           content == base +
             if exists i :: 0 <= i < |us| && !us[i].extra.prePersisted then Render(PrintRows(codec, us)) else ""
    {
      hide LoadAll, Render, IsCut, ReplaceContent, PrintRows, StartIndex;
      var skipAppend := us != [];
      for i := 0 to |us|
        invariant skipAppend == (us != [] && forall j :: 0 <= j < i ==> us[j].extra.prePersisted)
      {
        skipAppend := skipAppend && us[i].extra.prePersisted;
      }
      var msgs := LoadAll(codec, content);
      truncated, cut := false, None;
      NothingToCut(StartIndex(IndexOf(summary), |msgs|));
      if msgs != [] {
        var at := OrphanScan(msgs, StartIndex(IndexOf(summary), |msgs|));
        cut := at;
        if at.Some? {
          CutInWindow(msgs, StartIndex(IndexOf(summary), |msgs|), at);
          content := ReplaceContent(codec, msgs[..at.value]);
          truncated := true;
        }
      }
      NothingRendered(codec);
      content := content + Render(PrintRows(codec, if skipAppend then [] else us));
    }

    /** The messages that the model is shown. */
    method LoadMessagesForLLM() returns (view: seq<Message>)
      ensures view == ViewOf(summary, LoadAll(codec, content))
      ensures var all := LoadAll(codec, content); var n := |all|;
        && (summary.None? ==> view == all)
        && (summary.Some? ==>
          && view != [] && view[0] == summary.value.message
          && var i := summary.value.index;
             && (i < 0 ==> view[1..] == all)
             && (i > n ==> |view| == 1)
             && (0 <= i <= n ==> |view| == 1 + n - i && forall j :: 1 <= j < |view| ==> view[j] == all[i + j - 1]))
    {
      hide LoadAll;
      var all := LoadAll(codec, content);
      if summary.None? {
        return all;
      }
      var idx := summary.value.index;
      if idx < 0 {
        idx := 0;
      }
      if idx > |all| {
        idx := |all|;
      }
      view := [summary.value.message];
      view := view + all[idx..];
    }
  }

  // ------------------------------------------------------------- recovered files

  lemma CrashCutOfPrefix(h: seq<Message>, b: seq<Message>, k: nat, start: nat, cut: Option<nat>)
    requires IsHistory(h) && GoodBlock(b) && k <= |b| && IsCut(h + b[..k], start, cut)
    ensures cut == if 0 < k < |b| && start <= |h| then Some(|h|) else None
  {
    hide IsHistory, GoodBlock, IsCut;
    assert h + (b[..k] + []) == h + b[..k];
    CrashCut(h, b, k, [], start, cut);
  }

  lemma NewRowsOf(us: seq<Message>)
    ensures NewRows(us) == if exists i :: 0 <= i < |us| && !us[i].extra.prePersisted then us else []
  {
  }

  lemma ScanReaches(index: Option<int>, n: nat, k: nat)
    ensures StartIndex(index, n + k) <= n <==> index.None? || index.value <= n || index.value > n + k
  {
  }

  lemma NoRowsAreGood()
    ensures GoodRows([])
  {
  }

  /** A rewritten file and the new rows behind it. */
  lemma AfterCut(c: Codec, was: string, cut: Option<nat>, us: seq<Message>, h: seq<Message>)
    requires Faithful(c) && cut.Some? && cut.value <= |LoadAll(c, was)| && LoadAll(c, was)[..cut.value] == h
    ensures LoadAll(c, AfterBeginRun(c, was, cut, us)) == h + NewRows(us)
  {
    hide LoadAll, Render, ReplaceContent, Faithful, GoodRows, NewRows, PrintRows;
    ReplaceIsRender(c, h);
    NoRowsAreGood();
    PrintedIsGood(c, [], h);
    assert [] + PrintRows(c, h) == PrintRows(c, h);
    LoadAfterAppend(c, PrintRows(c, h), NewRows(us));
    LoadAfterReplace(c, h);
  }

  /** An untouched file and the new rows behind it. */
  lemma AfterNoCut(c: Codec, rows: seq<string>, us: seq<Message>)
    requires Faithful(c) && GoodRows(rows)
    ensures LoadAll(c, AfterBeginRun(c, Render(rows), None, us)) == LoadAll(c, Render(rows)) + NewRows(us)
    ensures AfterBeginRun(c, Render(rows), None, us) == Render(rows + PrintRows(c, NewRows(us)))
  {
    hide LoadAll, Render, ReplaceContent, Faithful, GoodRows, NewRows, PrintRows;
    RenderConcat(rows, PrintRows(c, NewRows(us)));
    LoadAfterAppend(c, rows, NewRows(us));
  }

  /**
    What is loaded behind BeginRun, for any file of good rows: the rows in front of the
    cut, and then the users, all of them unless each of them is on disk already.
  */
  lemma BeginRunLoads(c: Codec, rows: seq<string>, cut: Option<nat>, us: seq<Message>)
    requires Faithful(c) && GoodRows(rows) && (cut.Some? ==> cut.value <= |ParseRows(c, rows)|)
    ensures LoadAll(c, Render(rows)) == ParseRows(c, rows)
    ensures var kept := if cut.Some? then ParseRows(c, rows)[..cut.value] else ParseRows(c, rows);
      LoadAll(c, AfterBeginRun(c, Render(rows), cut, us)) ==
        kept + if exists i :: 0 <= i < |us| && !us[i].extra.prePersisted then us else []
  {
    NewRowsOf(us);
    hide *;
    LoadOfRender(c, rows);
    if cut.Some? {
      AfterCut(c, Render(rows), cut, us, ParseRows(c, rows)[..cut.value]);
    } else {
      AfterNoCut(c, rows, us);
    }
  }

  /**
    A crash anywhere in a block: BeginRun leaves every complete block and the new
    users, and drops the interrupted round iff the scan starts at or before it.
  */
  lemma CrashRecovery(c: Codec, rows: seq<string>, h: seq<Message>, b: seq<Message>, k: nat, us: seq<Message>,
                      index: Option<int>, cut: Option<nat>)
    requires Faithful(c) && GoodRows(rows) && IsHistory(h) && GoodBlock(b) && k <= |b|
    requires ParseRows(c, rows) == h + b[..k]
    requires IsCut(h + b[..k], StartIndex(index, |h| + k), cut)
    ensures LoadAll(c, Render(rows)) == h + b[..k] && (cut.Some? ==> cut.value <= |h| + k)
    ensures var torn := 0 < k < |b| && (index.None? || index.value <= |h| || index.value > |h| + k);
      var unmarked := exists i :: 0 <= i < |us| && !us[i].extra.prePersisted;
      && LoadAll(c, AfterBeginRun(c, Render(rows), cut, us)) ==
         (if torn then h else h + b[..k]) + (if unmarked then us else [])
      && (cut.None? ==>
        AfterBeginRun(c, Render(rows), cut, us) == Render(rows + PrintRows(c, if unmarked then us else [])))
  {
    NewRowsOf(us);
    ScanReaches(index, |h|, k);
    hide *;
    LoadOfRender(c, rows);
    CrashCutOfPrefix(h, b, k, StartIndex(index, |h| + k), cut);
    if cut.Some? {
      assert (h + b[..k])[..|h|] == h;
      AfterCut(c, Render(rows), cut, us, h);
    } else {
      AfterNoCut(c, rows, us);
    }
  }

  /** After a truncation the next scan finds nothing, and the view holds whole rounds. */
  lemma RecoveredIsClean(h: seq<Message>, us: seq<Message>, start: nat, cut: Option<nat>)
    requires IsHistory(h) && UserRows(us) && IsCut(h + us, start, cut)
    ensures IsHistory(h + us) && PairedFrom(h + us, 0) && cut.None?
  {
    UsersAreHistory(us);
    HistoryConcat(h, us);
    HistoryPaired(h + us, 0);
    CleanHistoryKept(h + us, start, cut);
  }

  /** Cutting a history at one of its block boundaries leaves a history behind. */
  lemma {:induction false} RestIsHistory(ms: seq<Message>, s: nat)
    requires IsHistory(ms) && s <= |ms| && IsHistory(ms[..s])
    ensures IsHistory(ms[s..]) && PairedFrom(ms[s..], 0)
    decreases |ms|
  {
    if s > 0 {
      var n := BlockLen(ms[0]);
      assert ms[..s][0] == ms[0];
      assert ms[..s][n..] == ms[n..][..s - n];
      assert ms[s..] == ms[n..][s - n..];
      RestIsHistory(ms[n..], s - n);
    } else {
      assert ms[s..] == ms;
    }
    HistoryPaired(ms[s..], 0);
  }

  /**
    What the model is shown of a history: behind the summary message, if there is one,
    whole rounds, when the index stands at a block boundary or is none of the file's.
  */
  lemma ViewIsWholeRounds(all: seq<Message>, summary: Option<Summary>, view: seq<Message>)
    requires IsHistory(all) && view == ViewOf(summary, all)
    requires summary.Some? && 0 <= summary.value.index <= |all| ==> IsHistory(all[..summary.value.index])
    ensures summary.Some? ==> view != [] && view[0] == summary.value.message
    ensures var rows := if summary.Some? then view[1..] else view;
      && IsHistory(rows) && PairedFrom(rows, 0)
      && (summary.None? || summary.value.index < 0 ==> rows == all)
      && (summary.Some? && summary.value.index > |all| ==> rows == [])
      && (summary.Some? && 0 <= summary.value.index <= |all| ==> all == all[..summary.value.index] + rows)
  {
    var s := ViewIndex(IndexOf(summary), |all|);
    var rows := if summary.Some? then view[1..] else view;
    assert rows == all[s..];
    hide IsHistory, ViewIndex, PairedFrom;
    assert all[..|all|] == all && all[..0] == [];
    NothingIsHistory();
    RestIsHistory(all, s);
  }

  ghost predicate LeastOrphan(ms: seq<Message>, start: nat, j: nat) {
    start <= j < |ms| && Orphan(ms, j) && forall i :: start <= i < j ==> !Orphan(ms, i)
  }

  /** No call in front of the first orphan is answered only behind it. */
  ghost predicate NoAnswerBehind(ms: seq<Message>, start: nat) {
    forall i, j, id :: start <= i < j && LeastOrphan(ms, start, j) && Declares(ms[i], id) ==>
      AnsweredBetween(ms, i, j, id)
  }

  lemma CutIsLeast(ms: seq<Message>, start: nat, cut: Option<nat>, j: nat)
    requires NoOverlap(ms, start) && IsCut(ms, start, cut)
    ensures LeastOrphan(ms, start, j) <==> cut == Some(j)
  {
    hide Orphan, NoOverlap;
  }

  lemma StillPaired(ms: seq<Message>, start: nat, again: Option<nat>)
    requires IsCut(ms, start, None) && IsCut(ms, start, again) && NoOverlap(ms, start)
    ensures again.None?
  {
    hide Orphan, NoOverlap;
  }

  lemma PrefixAnswers(ms: seq<Message>, at: nat, i: int, j: nat, id: string)
    requires j <= at <= |ms|
    ensures AnsweredBetween(ms[..at], i, j, id) <==> AnsweredBetween(ms, i, j, id)
  {
    if AnsweredBetween(ms, i, j, id) {
      var k :| 0 <= k < |ms| && i < k < j && Answers(ms[k], id);
      assert ms[..at][k] == ms[k];
    }
  }

  lemma KeptIsPaired(ms: seq<Message>, start: nat, at: nat, again: Option<nat>)
    requires start <= |ms| && NoOverlap(ms, start) && IsCut(ms, start, Some(at)) && IsCut(ms[..at], start, again)
    ensures again.None? <==> forall i, id :: start <= i < at && Declares(ms[i], id) ==> AnsweredBetween(ms, i, at, id)
  {
    var kept := ms[..at];
    forall i, j: nat, id | j <= at ensures AnsweredBetween(kept, i, j, id) <==> AnsweredBetween(ms, i, j, id) {
      PrefixAnswers(ms, at, i, j, id);
    }
    hide AnsweredBetween, Declares;
    assert NoOverlap(kept, start);
    if again.None? {
      forall i, id | start <= i < at && Declares(ms[i], id) ensures AnsweredBetween(ms, i, at, id) {
        assert !Orphan(kept, i) && kept[i] == ms[i];
      }
    } else {
      var i := again.value;
      assert Orphan(kept, i) && kept[i] == ms[i];
      var id :| Declares(kept[i], id) && !AnsweredBetween(kept, i, |kept|, id);
      assert !AnsweredBetween(ms, i, at, id);
    }
  }

  /**
    A second scan of what the first one kept finds nothing if and only if no call in
    front of the first orphan is answered only behind it.
  */
  lemma SecondTruncation(ms: seq<Message>, start: nat, cut: Option<nat>, again: Option<nat>)
    requires start <= |ms| && NoOverlap(ms, start) && IsCut(ms, start, cut) && IsCut(Kept(ms, cut), start, again)
    ensures again.None? <==> NoAnswerBehind(ms, start)
  {
    if cut.None? {
      forall j ensures !LeastOrphan(ms, start, j) {
        CutIsLeast(ms, start, cut, j);
      }
      hide Orphan, Declares, AnsweredBetween, LeastOrphan;
      assert again.None? by { StillPaired(ms, start, again); }
    } else {
      var at := cut.value;
      KeptIsPaired(ms, start, at, again);
      forall j ensures LeastOrphan(ms, start, j) <==> j == at {
        CutIsLeast(ms, start, cut, j);
      }
      hide Declares, AnsweredBetween, LeastOrphan, Orphan, IsCut, NoOverlap;
    }
  }

  lemma StartStays(index: Option<int>, n: nat, at: nat)
    requires StartIndex(index, n) <= at <= n
    ensures StartIndex(index, at) == StartIndex(index, n)
  {
  }

  /** BeginRun twice in a row, on any file: the second one rewrites nothing iff that condition holds of the file. */
  lemma SecondBeginRun(c: Codec, was: string, index: Option<int>, cut: Option<nat>, again: Option<nat>)
    requires Faithful(c) && NoOverlap(LoadAll(c, was), StartIndex(index, |LoadAll(c, was)|))
    requires IsCut(LoadAll(c, was), StartIndex(index, |LoadAll(c, was)|), cut)
    requires var ms := LoadAll(c, AfterBeginRun(c, was, cut, [])); IsCut(ms, StartIndex(index, |ms|), again)
    ensures LoadAll(c, AfterBeginRun(c, was, cut, [])) == Kept(LoadAll(c, was), cut)
    ensures again.None? <==> NoAnswerBehind(LoadAll(c, was), StartIndex(index, |LoadAll(c, was)|))
  {
    var ms := LoadAll(c, was);
    var start := StartIndex(index, |ms|);
    assert Render(PrintRows(c, NewRows([]))) == "";
    assert AfterBeginRun(c, was, cut, []) == if cut.Some? then ReplaceContent(c, ms[..cut.value]) + "" else was + "";
    hide LoadAll, NoOverlap, IsCut, Render, ReplaceContent, Faithful, StartIndex, NoAnswerBehind;
    if cut.Some? {
      CutInWindow(ms, start, cut);
      LoadAfterReplace(c, ms[..cut.value]);
      StartStays(index, |ms|, cut.value);
      assert ReplaceContent(c, ms[..cut.value]) + "" == ReplaceContent(c, ms[..cut.value]);
    } else {
      assert was + "" == was;
    }
    SecondTruncation(ms, start, cut, again);
  }

  /** A layout no builder writes: two open rounds, the first answered after the second. */
  lemma InterleavedCutsTwice(a: Message, b: Message, t: Message, cut: Option<nat>, again: Option<nat>)
    requires a == Message(Assistant, "", "", [ToolCall("x", "", "")], "", Extra(false, false, None, None))
    requires b == a.(toolCalls := [ToolCall("y", "", "")])
    requires t == Message(Tool, "", "", [], "x", Extra(false, false, None, None))
    requires IsCut([a, b, t], 0, cut) && IsCut([a], 0, again)
    ensures cut == Some(1) && again == Some(0)
  {
    var ms := [a, b, t];
    assert a.toolCalls[0].id == "x" && b.toolCalls[0].id == "y";
    assert Declares(a, "x") && Declares(b, "y");
    assert "x"[0] != "y"[0];
    assert !Declares(t, "x") && !Declares(t, "y");
    assert Answers(ms[2], "x") && AnsweredBetween(ms, 0, 3, "x");
    assert Orphan(ms, 1) by {
      assert !AnsweredBetween(ms, 1, 3, "y");
    }
    assert forall id :: Declares(a, id) ==> id == "x";
    assert forall id :: Declares(b, id) ==> id == "y";
    assert !Orphan(ms, 0);
    assert Orphan([a], 0) by {
      assert !AnsweredBetween([a], 0, 1, "x");
    }
    assert NoOverlap(ms, 0) && NoOverlap([a], 0);
  }

  /** A prompt already on disk survives iff no interrupted round stands before it. */
  lemma PrePersistedPrompt(h: seq<Message>, b: seq<Message>, k: nat, stored: seq<Message>, us: seq<Message>,
                           start: nat, cut: Option<nat>)
    requires IsHistory(h) && GoodBlock(b) && k <= |b| && UserRows(stored) && stored != []
    requires us != [] && IsCut(h + (b[..k] + stored), start, cut)
    requires forall i :: 0 <= i < |us| ==> us[i].extra.prePersisted
    ensures var disk := h + (b[..k] + stored);
      && NewRows(us) == []
      && (Kept(disk, cut) == disk <==> !(0 < k < |b| && start <= |h|))
  {
    CrashCut(h, b, k, stored, start, cut);
  }

  // ---------------------------------------------------------- many crashed runs

  /** One run: it begins with users, writes finished blocks, and dies inside one more. */
  datatype Life = Life(index: Option<int>, users: seq<Message>, done: seq<Message>, block: seq<Message>, landed: nat)

  predicate LifeOK(l: Life) {
    UserRows(l.users) && IsHistory(l.done) && GoodBlock(l.block) && l.landed <= |l.block|
  }

  function OpenRows(l: Life): nat { if l.landed < |l.block| then l.landed else 0 }

  /** One BeginRun and the rows its run then wrote. */
  ghost predicate LiveOnce(ms: seq<Message>, l: Life, out: seq<Message>) {
    exists cut: Option<nat> :: IsCut(ms, StartIndex(l.index, |ms|), cut) && (cut.Some? ==> cut.value <= |ms|) &&
      out == Kept(ms, cut) + NewRows(l.users) + l.done + l.block[..if l.landed <= |l.block| then l.landed else 0]
  }

  /** All the runs; no summary index reaches into the rows of an interrupted block. */
  ghost predicate LiveAll(ms: seq<Message>, open: nat, lives: seq<Life>, out: seq<Message>)
    decreases |lives|
  {
    if lives == [] then out == ms
    else
      && StartIndex(lives[0].index, |ms|) + open <= |ms|
      && exists mid :: LiveOnce(ms, lives[0], mid) && LiveAll(mid, OpenRows(lives[0]), lives[1..], out)
  }

  /** What must be left: every user row and every finished block, in order. */
  function Survived(lives: seq<Life>): seq<Message>
  {
    if lives == [] then []
    else
      var l := lives[0];
      var rest := Survived(lives[1..]);
      var tail := if l.landed <= |l.block| && (l.landed == |l.block| || |lives| == 1) then l.block[..l.landed] else [];
      NewRows(l.users) + l.done + tail + rest
  }

  function Base(h: seq<Message>, b: seq<Message>, k: nat): seq<Message> { if k == |b| then h + b else h }

  lemma CrashKept(h: seq<Message>, b: seq<Message>, k: nat, start: nat, cut: Option<nat>)
    requires IsHistory(h) && GoodBlock(b) && k <= |b|
    requires IsCut(h + b[..k], start, cut) && start + (if k < |b| then k else 0) <= |h| + k
    ensures Kept(h + b[..k], cut) == Base(h, b, k) && IsHistory(Base(h, b, k))
  {
    assert h + (b[..k] + []) == h + b[..k];
    CrashCut(h, b, k, [], start, cut);
    BlockIsHistory(b);
    HistoryConcat(h, b);
    hide IsHistory, GoodBlock, IsCut, IsBlock;
    assert (h + b[..k])[..|h|] == h;
    assert b[..|b|] == b;
    if k == 0 {
      assert h + b[..k] == h;
    }
  }

  lemma LifeKeepsHistory(h: seq<Message>, l: Life)
    requires IsHistory(h) && LifeOK(l)
    ensures IsHistory(h + NewRows(l.users) + l.done)
  {
    UsersAreHistory(NewRows(l.users));
    hide IsHistory;
    HistoryConcat(h, NewRows(l.users));
    HistoryConcat(h + NewRows(l.users), l.done);
  }

  /** One run after a crash: the interrupted block is gone, the rest is still there. */
  lemma OneLife(h: seq<Message>, b: seq<Message>, k: nat, l: Life, mid: seq<Message>)
    requires IsHistory(h) && GoodBlock(b) && k <= |b| && LifeOK(l)
    requires LiveOnce(h + b[..k], l, mid)
    requires StartIndex(l.index, |h| + k) + (if k < |b| then k else 0) <= |h| + k
    ensures mid == Base(h, b, k) + NewRows(l.users) + l.done + l.block[..l.landed]
    ensures IsHistory(Base(h, b, k) + NewRows(l.users) + l.done)
  {
    hide IsHistory, IsCut, GoodBlock, Base, StartIndex, NewRows, Kept;
    var ms := h + b[..k];
    var start := StartIndex(l.index, |ms|);
    var cut: Option<nat> :| IsCut(ms, start, cut) && (cut.Some? ==> cut.value <= |ms|) &&
      mid == Kept(ms, cut) + NewRows(l.users) + l.done + l.block[..if l.landed <= |l.block| then l.landed else 0];
    CrashKept(h, b, k, start, cut);
    LifeKeepsHistory(Base(h, b, k), l);
  }

  lemma BaseIsTail(h: seq<Message>, b: seq<Message>, k: nat)
    requires k <= |b|
    ensures Base(h, b, k) == h + (if k == |b| then b[..k] else [])
  {
    assert b[..|b|] == b;
  }

  lemma Regroup(a: seq<Message>, b: seq<Message>, c: seq<Message>, d: seq<Message>, e: seq<Message>)
    ensures a + b + c + d + e == a + (b + c + d + e)
  {
  }

  /** Over any number of crashed runs nothing finished is lost and no orphan stays. */
  lemma {:induction false} EveryCrashRecovers(h: seq<Message>, b: seq<Message>, k: nat, lives: seq<Life>,
                                              out: seq<Message>)
    requires IsHistory(h) && GoodBlock(b) && k <= |b| && lives != []
    requires forall i :: 0 <= i < |lives| ==> LifeOK(lives[i])
    requires LiveAll(h + b[..k], if k < |b| then k else 0, lives, out)
    ensures out == Base(h, b, k) + Survived(lives)
    decreases |lives|
  {
    hide IsHistory, GoodBlock, LiveOnce, UserRows, StartIndex, Base, NewRows;
    var l := lives[0];
    assert LifeOK(l);
    var mid :| LiveOnce(h + b[..k], l, mid) && LiveAll(mid, OpenRows(l), lives[1..], out);
    OneLife(h, b, k, l, mid);
    var front := Base(h, b, k) + NewRows(l.users) + l.done;
    var tail := if l.landed == |l.block| || |lives| == 1 then l.block[..l.landed] else [];
    assert Survived(lives) == NewRows(l.users) + l.done + tail + Survived(lives[1..]);
    if |lives| == 1 {
      assert lives[1..] == [] && out == mid && Survived(lives[1..]) == [];
    } else {
      EveryCrashRecovers(front, l.block, l.landed, lives[1..], out);
      BaseIsTail(front, l.block, l.landed);
    }
    hide *;
    Regroup(Base(h, b, k), NewRows(l.users), l.done, tail, Survived(lives[1..]));
  }
}
