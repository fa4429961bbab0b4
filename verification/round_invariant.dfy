/**
  What the builder's state says about the event stream. The reference reading of a
  stream is `Declared` (the tool calls in order) and `Answer` (the first terminal
  of a call after its declaration, however late). `Inv` ties the state to it, and
  declarations, chunks and flushes keep it.
*/
module RoundInvariant {
  import opened Wrappers
  import opened Messages
  import opened RoundModel

  function Declared(evs: seq<Event>): seq<string> {
    if evs == [] then []
    else
      var p, e := evs[..|evs| - 1], evs[|evs| - 1];
      if e.ToolCallDecl? then Declared(p) + [e.id] else Declared(p)
  }

  predicate Terminal(e: Event, id: string) {
    e.ToolCallUpdate? && e.id == id && IsTerminal(e.status)
  }

  function Answer(evs: seq<Event>, id: string): Option<string> {
    if evs == [] then None
    else
      var p, e := evs[..|evs| - 1], evs[|evs| - 1];
      var a := Answer(p, id);
      if a.Some? then a
      else if Terminal(e, id) && id in Declared(p) then
        Some(if e.status == Failed then "[failed] " + e.content else e.content)
      else None
  }

  lemma {:induction false} AnswerOnlyIfDeclared(evs: seq<Event>, id: string)
    requires Answer(evs, id).Some?
    ensures id in Declared(evs)
  {
    var p := evs[..|evs| - 1];
    if Answer(p, id).Some? {
      AnswerOnlyIfDeclared(p, id);
    }
  }

  // ---------------------------------------------------------------- invariants

  /** What a placeholder says, for each reason. */
  function PlaceholderText(reason: Reason): string {
    match reason
    case Canceled => "[placeholder] canceled"
    case Interrupted => "[placeholder] interrupted"
    case Superseded => "[placeholder] superseded"
  }

  lemma PlaceholderReads(id: string, reason: Reason, startedAt: Option<int>, finishedAt: Option<int>)
    ensures var m := NewPlaceholder(id, reason, startedAt, finishedAt);
      m.role == Tool && m.toolCallID == id && m.content == PlaceholderText(reason) && m.extra.placeholder
  {
  }

  predicate RowOK(m: Message, evs: seq<Event>) {
    match Answer(evs, m.toolCallID)
    case Some(t) => !m.extra.placeholder && m.content == t
    case None => m.extra.placeholder && m.content == PlaceholderText(Superseded)
  }

  predicate IdsInv(s: State, evs: seq<Event>) {
    ToolIds(s.completed) + CallIds(s.calls) == Declared(evs)
  }

  predicate ResultOK(r: Message, s: State, evs: seq<Event>) {
    r.role == Tool && !r.extra.placeholder && r.toolCallID in CallIds(s.calls) &&
    Answer(evs, r.toolCallID) == Some(r.content)
  }

  predicate ResultsInv(s: State, evs: seq<Event>) {
    && (forall i :: 0 <= i < |s.results| ==> ResultOK(s.results[i], s, evs))
    && Distinct(ResultIds(s.results))
    && (forall i :: 0 <= i < |s.calls| && Answer(evs, s.calls[i].id).Some? ==> s.calls[i].id in ResultIds(s.results))
  }

  predicate RowsInv(s: State, evs: seq<Event>) {
    forall i :: 0 <= i < |s.completed| && s.completed[i].role == Tool ==> RowOK(s.completed[i], evs)
  }

  ghost predicate SupersededInv(s: State, evs: seq<Event>) {
    forall id :: id in s.superseded <==> id in ToolIds(s.completed) && Answer(evs, id).None?
  }

  predicate OpenRound(s: State) {
    |s.results| < |s.calls| || (s.calls == [] && s.results == [])
  }

  ghost predicate Inv(s: State, evs: seq<Event>) {
    && IdsInv(s, evs)
    && ResultsInv(s, evs)
    && RowsInv(s, evs)
    && SupersededInv(s, evs)
    && OpenRound(s)
    && IsHistory(s.completed)
  }

  // ---------------------------------------------------------------- flushing

  lemma ResultIdsCons(results: seq<Message>)
    requires results != []
    ensures ResultIds(results) == [results[0].toolCallID] + ResultIds(results[1..])
  {
  }

  lemma FirstResultCons(results: seq<Message>, id: string)
    requires results != []
    ensures FirstResult(results, id) == if results[0].toolCallID == id then Some(results[0])
              else FirstResult(results[1..], id)
    ensures forall m :: m in results[1..] ==> m in results
  {
  }

  lemma {:induction false} FirstResultFinds(results: seq<Message>, id: string)
    ensures FirstResult(results, id).Some? <==> id in ResultIds(results)
    ensures FirstResult(results, id).Some? ==>
              FirstResult(results, id).value in results && FirstResult(results, id).value.toolCallID == id
  {
    if results != [] {
      FirstResultFinds(results[1..], id);
      ResultIdsCons(results);
      FirstResultCons(results, id);
      hide ResultIds, FirstResult;
    }
  }

  lemma {:induction false} PendingMembers(calls: seq<ToolCall>, results: seq<Message>, id: string)
    ensures id in PendingIds(calls, results) <==> id in CallIds(calls) && id !in ResultIds(results)
  {
    if calls != [] {
      var n := |calls| - 1;
      PendingMembers(calls[..n], results, id);
      assert CallIds(calls) == CallIds(calls[..n]) + [calls[n].id];
    }
  }

  lemma OrderedRowIds(s: State, evs: seq<Event>, reason: Reason)
    requires ResultsInv(s, evs)
    ensures forall i :: 0 <= i < |s.calls| ==>
      OrderedRow(s.calls[i].id, s, reason).toolCallID == s.calls[i].id &&
        OrderedRow(s.calls[i].id, s, reason).role == Tool
  {
    forall i | 0 <= i < |s.calls|
      ensures OrderedRow(s.calls[i].id, s, reason).toolCallID == s.calls[i].id
      ensures OrderedRow(s.calls[i].id, s, reason).role == Tool
    {
      FirstResultFinds(s.results, s.calls[i].id);
    }
  }

  /** A flushed round is one assistant row, then its tool rows in declared order. */
  lemma FlushedRoundShape(s: State, evs: seq<Event>, reason: Reason)
    requires ResultsInv(s, evs) && (s.calls == [] ==> s.results == [])
    ensures IsRound(RoundRows(s, reason))
    ensures ToolIds(RoundRows(s, reason)) == CallIds(s.calls)
  {
    OrderedRowIds(s, evs, reason);
    hide OrderedRow, Answer, ResultsInv;
    var rows := ReorderToolResults(s, reason);
    ToolIdsOfToolRows(rows);
    assert RoundRows(s, reason)[1..] == rows;
    assert ToolIds(rows) == CallIds(s.calls);
  }

  /** Each tool row of a flushed round is its call's answer, or a placeholder. */
  lemma OrderedRowContent(s: State, evs: seq<Event>, reason: Reason, i: nat)
    requires ResultsInv(s, evs) && i < |s.calls|
    ensures var m, a := OrderedRow(s.calls[i].id, s, reason), Answer(evs, s.calls[i].id);
      if a.Some? then !m.extra.placeholder && m.content == a.value
      else m.extra.placeholder && m.content == PlaceholderText(reason)
  {
    var id := s.calls[i].id;
    FirstResultFinds(s.results, id);
    if id in ResultIds(s.results) {
      var r := FirstResult(s.results, id).value;
      var k :| 0 <= k < |s.results| && s.results[k] == r;
      assert ResultOK(s.results[k], s, evs);
    }
    PlaceholderReads(id, reason, PositiveStamp(s.startedAt, id), PositiveStamp(s.finishedAt, id));
  }

  lemma FlushKeepsIds(s: State, evs: seq<Event>, reason: Reason)
    requires IdsInv(s, evs) && ResultsInv(s, evs) && IsHistory(s.completed)
    requires (s.calls == [] ==> s.results == [])
    ensures var f := FlushRound(s, reason);
      IdsInv(f, evs) && ResultsInv(f, evs) && IsHistory(f.completed) && f.calls == [] && f.results == []
    ensures ToolIds(FlushRound(s, reason).completed) == Declared(evs)
  {
    if !NothingToFlush(s) {
      var rows := RoundRows(s, reason);
      FlushedRoundShape(s, evs, reason);
      ToolIdsConcat(s.completed, rows);
      BlockIsHistory(rows);
      HistoryConcat(s.completed, rows);
    } else {
      assert CallIds(s.calls) == [];
    }
  }

  /** A superseding flush leaves only answered rows and superseded placeholders. */
  lemma FlushKeepsRows(s: State, evs: seq<Event>, reason: Reason)
    requires ResultsInv(s, evs) && RowsInv(s, evs)
    requires (s.calls == [] ==> s.results == [])
    requires reason == Superseded || forall i :: 0 <= i < |s.calls| ==> Answer(evs, s.calls[i].id).Some?
    ensures RowsInv(FlushRound(s, reason), evs)
  {
    if !NothingToFlush(s) {
      FlushedRoundShape(s, evs, reason);
      var f := FlushRound(s, reason);
      var n := |s.completed|;
      forall i | 0 <= i < |f.completed| && f.completed[i].role == Tool
        ensures RowOK(f.completed[i], evs)
      {
        if i < n {
          assert f.completed[i] == s.completed[i];
        } else {
          assert i > n;
          assert f.completed[i] == OrderedRow(s.calls[i - n - 1].id, s, reason);
          OrderedRowContent(s, evs, reason, i - n - 1);
        }
      }
    }
  }

  lemma PendingAreUnanswered(s: State, evs: seq<Event>, id: string)
    requires ResultsInv(s, evs)
    ensures id in PendingIds(s.calls, s.results) <==> id in CallIds(s.calls) && Answer(evs, id).None?
  {
    PendingMembers(s.calls, s.results, id);
    if id in CallIds(s.calls) {
      var k :| 0 <= k < |s.calls| && CallIds(s.calls)[k] == id;
      assert s.calls[k].id == id;
      if id in ResultIds(s.results) {
        var j :| 0 <= j < |s.results| && ResultIds(s.results)[j] == id;
        assert ResultOK(s.results[j], s, evs);
      }
    }
  }

  /** The bookkeeping invariants read only these fields. */
  predicate SameCore(s: State, t: State) {
    s.calls == t.calls && s.results == t.results && s.completed == t.completed
  }

  lemma SameCoreKeepsInv(s: State, t: State, evs: seq<Event>)
    requires SameCore(s, t)
    ensures IdsInv(s, evs) ==> IdsInv(t, evs)
    ensures ResultsInv(s, evs) ==> ResultsInv(t, evs)
    ensures RowsInv(s, evs) ==> RowsInv(t, evs)
    ensures OpenRound(s) ==> OpenRound(t)
    ensures IsHistory(s.completed) ==> IsHistory(t.completed)
    ensures SupersededInv(s, evs) && s.superseded == t.superseded ==> SupersededInv(t, evs)
  {
    if ResultsInv(s, evs) {
      forall i | 0 <= i < |t.results| ensures ResultOK(t.results[i], t, evs) {
        assert ResultOK(s.results[i], s, evs);
      }
    }
  }

  lemma SupersedeRecords(s: State, evs: seq<Event>, at: int)
    requires Inv(s, evs) && |s.calls| > 0
    ensures SupersededInv(FlushRound(RememberSuperseded(StampPending(s, at)), Superseded), evs)
  {
    var t := RememberSuperseded(StampPending(s, at));
    SameCoreKeepsInv(s, t, evs);
    FlushKeepsIds(t, evs, Superseded);
    hide FlushRound, FlushedRows, Answer, Declared, ToolIds, IsHistory;
    var f := FlushRound(t, Superseded);
    assert ToolIds(f.completed) == ToolIds(s.completed) + CallIds(s.calls);
    forall id
      ensures id in f.superseded <==> id in ToolIds(f.completed) && Answer(evs, id).None?
    {
      PendingAreUnanswered(s, evs, id);
      assert id in s.superseded <==> id in ToolIds(s.completed) && Answer(evs, id).None?;
    }
  }

  lemma SupersedeKeepsInv(s: State, evs: seq<Event>, at: int)
    requires Inv(s, evs)
    ensures Inv(SupersedeRound(s, at), evs)
    ensures SupersedeRound(s, at).calls == []
  {
    if |s.calls| > 0 {
      var t := RememberSuperseded(StampPending(s, at));
      SameCoreKeepsInv(s, t, evs);
      var f := FlushRound(t, Superseded);
      FlushKeepsIds(t, evs, Superseded);
      FlushKeepsRows(t, evs, Superseded);
      SupersedeRecords(s, evs, at);
      SameCoreKeepsInv(f, SupersedeRound(s, at), evs);
    } else {
      assert s.calls == [];
    }
  }

  lemma ChunkCore(s: State, text: string, at: int)
    requires s.handler
    ensures SameCore(SupersedeRound(s, at), OnMessageChunk(s, text, at))
    ensures OnMessageChunk(s, text, at).superseded == SupersedeRound(s, at).superseded
  {
    hide SupersedeRound;
  }

  lemma ThoughtCore(s: State, text: string, at: int)
    requires s.handler
    ensures SameCore(SupersedeRound(s, at), OnThoughtChunk(s, text, at))
    ensures OnThoughtChunk(s, text, at).superseded == SupersedeRound(s, at).superseded
  {
    hide SupersedeRound;
  }

  lemma SameReadingKeepsInv(s: State, p: seq<Event>, evs: seq<Event>)
    requires Inv(s, p) && Declared(evs) == Declared(p)
    requires forall id :: Answer(evs, id) == Answer(p, id)
    ensures Inv(s, evs)
  {
    hide Answer, Declared;
    forall i | 0 <= i < |s.completed| && s.completed[i].role == Tool ensures RowOK(s.completed[i], evs) {
      assert RowOK(s.completed[i], p);
    }
    forall i | 0 <= i < |s.results| ensures ResultOK(s.results[i], s, evs) {
      assert ResultOK(s.results[i], s, p);
    }
  }

  lemma ChunkKeepsInv(s: State, evs: seq<Event>, text: string, at: int)
    requires Inv(s, evs) && s.handler
    ensures Inv(OnMessageChunk(s, text, at), evs)
    ensures Inv(OnThoughtChunk(s, text, at), evs)
  {
    hide SupersedeRound, OnMessageChunk, OnThoughtChunk;
    SupersedeKeepsInv(s, evs, at);
    ChunkCore(s, text, at);
    ThoughtCore(s, text, at);
    SameCoreKeepsInv(SupersedeRound(s, at), OnMessageChunk(s, text, at), evs);
    SameCoreKeepsInv(SupersedeRound(s, at), OnThoughtChunk(s, text, at), evs);
  }

  lemma CallIdsCons(calls: seq<ToolCall>)
    requires calls != []
    ensures CallIds(calls) == [calls[0].id] + CallIds(calls[1..])
  {
  }

  lemma {:induction false} SetArgsKeepsIds(calls: seq<ToolCall>, id: string, args: string, replace: bool)
    ensures CallIds(SetArgs(calls, id, args, replace)) == CallIds(calls)
  {
    if calls != [] {
      var c := SetArgs(calls, id, args, replace);
      assert c != [] && c[0].id == calls[0].id;
      if calls[0].id != id {
        SetArgsKeepsIds(calls[1..], id, args, replace);
        assert c[1..] == SetArgs(calls[1..], id, args, replace);
      } else {
        assert c[1..] == calls[1..];
      }
      hide SetArgs;
      CallIdsCons(calls);
      CallIdsCons(c);
    }
  }

  lemma ArgsKeepInv(s: State, evs: seq<Event>, id: string, args: string, replace: bool)
    requires Inv(s, evs)
    ensures Inv(OnToolCallArgs(s, id, args, replace), evs)
  {
    var calls := SetArgs(s.calls, id, args, replace);
    SetArgsKeepsIds(s.calls, id, args, replace);
    assert |calls| == |CallIds(calls)| == |s.calls|;
    var t := OnToolCallArgs(s, id, args, replace);
    assert CallIds(t.calls) == CallIds(s.calls);
    forall i | 0 <= i < |t.results| ensures ResultOK(t.results[i], t, evs) {
      assert ResultOK(s.results[i], s, evs);
    }
    forall i | 0 <= i < |t.calls| && Answer(evs, t.calls[i].id).Some? ensures t.calls[i].id in ResultIds(t.results) {
      assert CallIds(t.calls)[i] == CallIds(s.calls)[i] == s.calls[i].id;
    }
  }
}
