/**
  The clocks on the tool rows. The reference reading of a stream is `Record`: when a call
  was declared, when its first terminal arrived, and when a chunk cut it short. Every
  stored tool row of every run carries exactly these stamps.
*/
module RoundTimes {
  import opened Wrappers
  import opened Messages
  import opened RoundModel
  import opened RoundDeclare
  import opened RoundInvariant
  import opened RoundTerminal
  import opened RoundTranscript
  import opened RoundConserve
  import opened RoundDisk
  import RoundScreen

  /** What the stream says about one call: its title, and the clocks of its three moments. */
  datatype CallRecord = CallRecord(title: string, declared: Option<int>, answered: Option<int>, cut: Option<int>)

  const UNHEARD := CallRecord("", None, None, None)

  predicate IsChunk(e: Event) { e.MessageChunk? || e.ThoughtChunk? }

  predicate Awaited(r: CallRecord) { r.declared.Some? && r.answered.None? }

  function Record(evs: seq<Event>, id: string): CallRecord {
    if evs == [] then UNHEARD
    else
      var r, e := Record(evs[..|evs| - 1], id), evs[|evs| - 1];
      if e.ToolCallDecl? && e.id == id then r.(title := e.title, declared := Some(e.at))
      else if Terminal(e, id) && Awaited(r) then r.(answered := Some(e.at))
      else if IsChunk(e) && Awaited(r) && r.cut.None? then r.(cut := Some(e.at))
      else r
  }

  /** A clock that a row leaves out unless it is positive. */
  function Positive(clock: Option<int>): Option<int> {
    if clock.Some? && clock.value > 0 then clock else None
  }

  /**
    The two stamps of a tool row, at a close-out clock for the calls that nothing cut
    before. Beside them a tool row holds its id and its text and nothing else.
  */
  predicate RowStamped(m: Message, r: CallRecord, closed: Option<int>) {
    && r.declared.Some? && m.reasoning == "" && m.toolCalls == [] && !m.extra.prePersisted
    && (m.extra.placeholder ==>
      && m.extra.startedAt == Positive(r.declared)
      && m.extra.finishedAt == Positive(if r.cut.Some? then r.cut else closed)
      && r.answered.None? && (r.cut.Some? || closed.Some?))
    && (!m.extra.placeholder ==>
      && m.extra.startedAt == (if r.cut.Some? then Positive(r.declared) else r.declared)
      && m.extra.finishedAt == r.answered && r.answered.Some?)
  }

  predicate RowsStamped(ms: seq<Message>, evs: seq<Event>, closed: Option<int>) {
    forall i :: 0 <= i < |ms| && ms[i].role == Tool ==> RowStamped(ms[i], Record(evs, ms[i].toolCallID), closed)
  }

  predicate CallStamped(c: ToolCall, r: CallRecord, startedAt: map<string, int>) {
    c.id in startedAt && r.declared == Some(startedAt[c.id]) && r.title == c.name && r.cut.None?
  }

  predicate CallsStamped(s: State, evs: seq<Event>) {
    forall i :: 0 <= i < |s.calls| ==> CallStamped(s.calls[i], Record(evs, s.calls[i].id), s.startedAt)
  }

  predicate ResultStamped(m: Message, r: CallRecord) {
    && m.extra == Extra(false, false, r.declared, r.answered) && r.declared.Some? && r.answered.Some?
    && m.reasoning == "" && m.toolCalls == []
  }

  predicate ResultsStamped(s: State, evs: seq<Event>) {
    && (forall i :: 0 <= i < |s.results| ==> ResultStamped(s.results[i], Record(evs, s.results[i].toolCallID)))
    && (forall id :: id in s.finishedAt ==> id in ResultIds(s.results))
  }

  predicate InfoStamped(info: SupersededInfo, r: CallRecord) {
    r.declared == Some(info.toolStartedAt) && r.title == info.toolName && r.cut.Some?
  }

  predicate InfosStamped(s: State, evs: seq<Event>) {
    forall id :: id in s.superseded ==> InfoStamped(s.superseded[id], Record(evs, id))
  }

  predicate StampInv(s: State, evs: seq<Event>) {
    CallsStamped(s, evs) && ResultsStamped(s, evs) && InfosStamped(s, evs) && RowsStamped(s.completed, evs, None)
  }

  // ------------------------------------------------------- the reference reading

  lemma {:induction false} RecordReads(evs: seq<Event>, id: string)
    ensures var r := Record(evs, id);
      && (r.declared.Some? <==> id in Declared(evs))
      && (r.answered.Some? <==> Answer(evs, id).Some?)
      && (r.declared.None? ==> r == UNHEARD)
  {
    if evs != [] {
      RecordReads(evs[..|evs| - 1], id);
    }
  }

  lemma DeclareRecords(p: seq<Event>, evs: seq<Event>)
    requires evs != [] && p == evs[..|evs| - 1] && evs[|evs| - 1].ToolCallDecl? && Distinct(Declared(evs))
    ensures var e := evs[|evs| - 1];
      && Record(evs, e.id) == CallRecord(e.title, Some(e.at), None, None)
      && forall x :: x != e.id ==> Record(evs, x) == Record(p, x)
  {
    FreshIdHasNoAnswer(p, evs);
    RecordReads(p, evs[|evs| - 1].id);
  }

  lemma TerminalRecords(p: seq<Event>, evs: seq<Event>)
    requires evs != [] && p == evs[..|evs| - 1] && evs[|evs| - 1].ToolCallUpdate? && IsTerminal(evs[|evs| - 1].status)
    ensures var e := evs[|evs| - 1]; var r := Record(p, e.id);
      && Record(evs, e.id) == (if Awaited(r) then r.(answered := Some(e.at)) else r)
      && forall x :: x != e.id ==> Record(evs, x) == Record(p, x)
  {
  }

  lemma QuietRecords(p: seq<Event>, evs: seq<Event>)
    requires evs != [] && p == evs[..|evs| - 1]
    requires var e := evs[|evs| - 1]; e.ArgsSnapshot? || e.TokenUsage? || (e.ToolCallUpdate? && !IsTerminal(e.status))
    ensures forall x :: Record(evs, x) == Record(p, x)
  {
  }

  /** A chunk cuts exactly the open calls without a result. */
  lemma ChunkRecord(s: State, p: seq<Event>, evs: seq<Event>, x: string)
    requires evs != [] && p == evs[..|evs| - 1] && IsChunk(evs[|evs| - 1])
    requires Inv(s, p) && Distinct(Declared(p)) && CallsStamped(s, p) && InfosStamped(s, p)
    ensures var r := Record(p, x);
      if x in PendingIds(s.calls, s.results) then
        Awaited(r) && r.cut.None? && Record(evs, x) == r.(cut := Some(evs[|evs| - 1].at))
      else Record(evs, x) == r
  {
    RecordReads(p, x);
    AwaitedInState(s, p, x);
    PendingMembers(s.calls, s.results, x);
    hide Inv, Declared, Answer, PendingIds;
    if x in CallIds(s.calls) {
      var k :| 0 <= k < |s.calls| && CallIds(s.calls)[k] == x;
      assert CallStamped(s.calls[k], Record(p, x), s.startedAt);
    } else if x in s.superseded {
      assert InfoStamped(s.superseded[x], Record(p, x));
    }
  }

  // -------------------------------------------------------------------- flushing

  lemma {:induction false} CallNameOf(calls: seq<ToolCall>, id: string, name: string)
    requires id in CallIds(calls) && forall i :: 0 <= i < |calls| && calls[i].id == id ==> calls[i].name == name
    ensures CallName(calls, id) == name
  {
    var n := |calls| - 1;
    if calls[n].id != id {
      assert CallIds(calls) == CallIds(calls[..n]) + [calls[n].id];
      CallNameOf(calls[..n], id, name);
    }
  }

  /** A row of a flushed round is a recorded result, or a placeholder with the stamps at hand. */
  lemma OrderedRowIs(t: State, id: string, reason: Reason) returns (k: nat)
    ensures var m := OrderedRow(id, t, reason);
      if id in ResultIds(t.results) then k < |t.results| && t.results[k].toolCallID == id && m == t.results[k]
      else m == NewPlaceholder(id, reason, PositiveStamp(t.startedAt, id), PositiveStamp(t.finishedAt, id))
  {
    FirstResultFinds(t.results, id);
    k := 0;
    if id in ResultIds(t.results) {
      k :| 0 <= k < |t.results| && t.results[k] == FirstResult(t.results, id).value;
    }
  }

  lemma ResultRow(m: Message, r: CallRecord, closed: Option<int>)
    requires ResultStamped(m, r) && r.cut.None?
    ensures RowStamped(m, r, closed)
  {
  }

  /** A stamped result whose call is open and was not cut makes a stamped row. */
  lemma AnsweredRow(t: State, evs: seq<Event>, reason: Reason, i: nat, closed: Option<int>)
    requires i < |t.calls| && t.calls[i].id in ResultIds(t.results) && Record(evs, t.calls[i].id).cut.None?
    requires forall k :: 0 <= k < |t.results| ==> ResultStamped(t.results[k], Record(evs, t.results[k].toolCallID))
    ensures RowStamped(OrderedRow(t.calls[i].id, t, reason), Record(evs, t.calls[i].id), closed)
  {
    hide Record, OrderedRow;
    var k := OrderedRowIs(t, t.calls[i].id, reason);
    ResultRow(t.results[k], Record(evs, t.calls[i].id), closed);
  }

  lemma RoundStamped(t: State, reason: Reason, evs: seq<Event>, p: seq<Event>, closed: Option<int>)
    requires ResultsInv(t, p) && t.calls != []
    requires forall i :: 0 <= i < |t.calls| ==>
               RowStamped(OrderedRow(t.calls[i].id, t, reason), Record(evs, t.calls[i].id), closed)
    ensures RowsStamped(RoundRows(t, reason), evs, closed)
  {
    OrderedRowIds(t, p, reason);
    var rows := RoundRows(t, reason);
    assert rows[0].role == Assistant && |rows| == |t.calls| + 1;
    assert forall k :: 0 <= k < |t.calls| ==> rows[k + 1] == OrderedRow(t.calls[k].id, t, reason);
    hide RoundRows, OrderedRow, ResultsInv, RowStamped, Record;
    forall i | 0 <= i < |rows| && rows[i].role == Tool
      ensures RowStamped(rows[i], Record(evs, rows[i].toolCallID), closed)
    {
      assert rows[i] == OrderedRow(t.calls[i - 1].id, t, reason);
    }
  }

  lemma StampedConcat(a: seq<Message>, b: seq<Message>, evs: seq<Event>, closed: Option<int>)
    requires RowsStamped(a, evs, closed) && RowsStamped(b, evs, closed)
    ensures RowsStamped(a + b, evs, closed)
  {
    hide RowStamped, Record;
  }

  // ----------------------------------------------------------------------- steps

  predicate SameStamps(s: State, t: State) {
    && CallPairs(s.calls) == CallPairs(t.calls) && s.results == t.results && s.completed == t.completed
    && s.startedAt == t.startedAt && s.finishedAt == t.finishedAt && s.superseded == t.superseded
  }

  lemma SameStampsKeep(s: State, t: State, p: seq<Event>, evs: seq<Event>)
    requires StampInv(s, p) && SameStamps(s, t) && forall x :: Record(evs, x) == Record(p, x)
    ensures StampInv(t, evs)
  {
    hide Record;
    assert |s.calls| == |CallPairs(s.calls)| == |t.calls|;
    forall i | 0 <= i < |t.calls| ensures CallStamped(t.calls[i], Record(evs, t.calls[i].id), t.startedAt) {
      assert CallPairs(s.calls)[i] == CallPairs(t.calls)[i];
      assert CallStamped(s.calls[i], Record(p, s.calls[i].id), s.startedAt);
    }
  }

  lemma QuietStamps(s: State, e: Event)
    requires e.ArgsSnapshot? || e.TokenUsage? || (e.ToolCallUpdate? && !IsTerminal(e.status))
    ensures SameStamps(s, Step(s, e))
  {
    if e.ArgsSnapshot? {
      SetArgsKeepsPairs(s.calls, e.id, e.args, true);
    } else if e.ToolCallUpdate? {
      SetArgsKeepsPairs(s.calls, e.id, e.content, false);
    }
    hide SetArgs, CallPairs;
  }

  lemma DeclareStampCore(s: State, e: Event)
    requires e.ToolCallDecl? && s.handler
    ensures var t := Step(s, e);
      && t.calls == s.calls + [ToolCall(e.id, e.title, "")] && t.startedAt == s.startedAt[e.id := e.at]
      && t.finishedAt == s.finishedAt && t.superseded == s.superseded
      && t.completed == s.completed && t.results == s.results
  {
  }

  lemma KnownIds(s: State, p: seq<Event>)
    requires Inv(s, p)
    ensures forall i :: 0 <= i < |s.calls| ==> s.calls[i].id in Declared(p)
    ensures forall i :: 0 <= i < |s.results| ==> s.results[i].toolCallID in Declared(p)
    ensures forall id :: id in s.superseded ==> id in Declared(p)
    ensures forall i :: 0 <= i < |s.completed| && s.completed[i].role == Tool ==>
              s.completed[i].toolCallID in Declared(p)
  {
    var a, b := ToolIds(s.completed), CallIds(s.calls);
    assert a + b == Declared(p);
    hide Answer, Declared, ToolIds, IsHistory;
    forall i | 0 <= i < |s.calls| ensures s.calls[i].id in Declared(p) {
      assert (a + b)[|a| + i] == s.calls[i].id;
    }
    forall i | 0 <= i < |s.results| ensures s.results[i].toolCallID in Declared(p) {
      assert ResultOK(s.results[i], s, p);
    }
    forall i | 0 <= i < |s.completed| && s.completed[i].role == Tool ensures s.completed[i].toolCallID in Declared(p) {
      ToolIdsMember(s.completed, i);
    }
  }

  /** The record of every id that the state knows of is still the same. */
  predicate KnownRecords(s: State, p: seq<Event>, evs: seq<Event>) {
    forall id :: id in Declared(p) ==> Record(evs, id) == Record(p, id)
  }

  lemma ClosedStampsKeep(s: State, t: State, p: seq<Event>, evs: seq<Event>)
    requires Inv(s, p) && StampInv(s, p) && KnownRecords(s, p, evs)
    requires t.results == s.results && t.finishedAt == s.finishedAt
    requires t.superseded == s.superseded && t.completed == s.completed
    ensures ResultsStamped(t, evs) && InfosStamped(t, evs) && RowsStamped(t.completed, evs, None)
  {
    KnownIds(s, p);
    hide Inv, Declared, Record, RowStamped, ResultStamped, InfoStamped;
  }

  lemma OpenStampsKeep(s: State, t: State, p: seq<Event>, evs: seq<Event>, e: Event)
    requires e.ToolCallDecl? && e.id !in Declared(p)
    requires Inv(s, p) && CallsStamped(s, p) && KnownRecords(s, p, evs)
    requires t.calls == s.calls + [ToolCall(e.id, e.title, "")] && t.startedAt == s.startedAt[e.id := e.at]
    requires Record(evs, e.id) == CallRecord(e.title, Some(e.at), None, None)
    ensures CallsStamped(t, evs)
  {
    KnownIds(s, p);
    hide Inv, Declared, Record;
    forall i | 0 <= i < |t.calls| ensures CallStamped(t.calls[i], Record(evs, t.calls[i].id), t.startedAt) {
      if i < |s.calls| {
        assert CallStamped(s.calls[i], Record(p, s.calls[i].id), s.startedAt);
      }
    }
  }

  lemma DeclareStamps(s: State, p: seq<Event>, evs: seq<Event>)
    requires evs != [] && p == evs[..|evs| - 1] && evs[|evs| - 1].ToolCallDecl? && Distinct(Declared(evs))
    requires Inv(s, p) && StampInv(s, p) && s.handler
    ensures StampInv(Step(s, evs[|evs| - 1]), evs)
  {
    var e := evs[|evs| - 1];
    DeclareRecords(p, evs);
    FreshIdHasNoAnswer(p, evs);
    DeclareStampCore(s, e);
    hide Step, Inv, Declared, Record, Answer, CallsStamped, ResultsStamped, InfosStamped, RowsStamped;
    ClosedStampsKeep(s, Step(s, e), p, evs);
    OpenStampsKeep(s, Step(s, e), p, evs, e);
  }

  lemma StampedPending(s: State, at: int, id: string)
    requires id in PendingIds(s.calls, s.results) && id !in s.finishedAt
    ensures var t := RememberSuperseded(StampPending(s, at));
      && id in t.finishedAt && t.finishedAt[id] == at
      && id in t.superseded && t.superseded[id].toolName == CallName(s.calls, id)
    ensures id in StampPending(s, at).finishedAt && StampPending(s, at).finishedAt[id] == at
  {
    hide PendingIds, CallName;
  }

  /** A call that is cut: its placeholder and what is remembered of it. */
  lemma CutCall(s: State, p: seq<Event>, evs: seq<Event>, at: int, i: nat)
    requires StampInv(s, p) && i < |s.calls|
    requires s.calls[i].id in PendingIds(s.calls, s.results) && s.calls[i].id !in ResultIds(s.results)
    requires var r := Record(p, s.calls[i].id); Awaited(r) && Record(evs, s.calls[i].id) == r.(cut := Some(at))
    ensures var t := RememberSuperseded(StampPending(s, at));
      && RowStamped(OrderedRow(s.calls[i].id, t, Superseded), Record(evs, s.calls[i].id), None)
      && s.calls[i].id in t.superseded && t.superseded[s.calls[i].id].toolName == Record(evs, s.calls[i].id).title
  {
    var t, id := RememberSuperseded(StampPending(s, at)), s.calls[i].id;
    assert t.startedAt == s.startedAt && t.results == s.results;
    StampedPending(s, at, id);
    forall k | 0 <= k < |s.calls| && s.calls[k].id == id ensures s.calls[k].name == Record(p, id).title {
      assert CallStamped(s.calls[k], Record(p, s.calls[k].id), s.startedAt);
    }
    assert CallIds(s.calls)[i] == id;
    CallNameOf(s.calls, id, Record(p, id).title);
    assert CallStamped(s.calls[i], Record(p, id), s.startedAt);
    hide Record, StampPending, RememberSuperseded, PendingIds, CallName, OrderedRow, StampInv;
    var k := OrderedRowIs(t, id, Superseded);
  }

  lemma SupersededResults(s: State, at: int)
    requires |s.calls| > 0
    ensures SupersedeRound(s, at).results == []
  {
    hide RoundRows, PendingIds, InfoOf;
  }

  lemma SupersededRow(s: State, p: seq<Event>, evs: seq<Event>, i: nat)
    requires evs != [] && p == evs[..|evs| - 1] && IsChunk(evs[|evs| - 1])
    requires Inv(s, p) && Distinct(Declared(p)) && StampInv(s, p) && i < |s.calls|
    ensures var t, id := RememberSuperseded(StampPending(s, evs[|evs| - 1].at)), s.calls[i].id;
      && RowStamped(OrderedRow(id, t, Superseded), Record(evs, id), None)
      && (id in PendingIds(s.calls, s.results) ==>
            id in t.superseded && t.superseded[id].toolName == Record(evs, id).title)
  {
    var at, id := evs[|evs| - 1].at, s.calls[i].id;
    var t := RememberSuperseded(StampPending(s, at));
    assert t.results == s.results && t.calls == s.calls;
    ChunkRecord(s, p, evs, id);
    PendingMembers(s.calls, s.results, id);
    assert CallIds(s.calls)[i] == id;
    assert CallStamped(s.calls[i], Record(p, id), s.startedAt);
    hide Record, Inv, Declared, StampPending, RememberSuperseded, PendingIds, OrderedRow, RowStamped;
    if id in PendingIds(s.calls, s.results) {
      CutCall(s, p, evs, at, i);
    } else {
      forall k | 0 <= k < |t.results| ensures ResultStamped(t.results[k], Record(evs, t.results[k].toolCallID)) {
        assert ResultStamped(s.results[k], Record(p, s.results[k].toolCallID));
        ChunkRecord(s, p, evs, s.results[k].toolCallID);
      }
      AnsweredRow(t, evs, Superseded, i, None);
    }
  }

  lemma EarlierRows(s: State, p: seq<Event>, evs: seq<Event>)
    requires evs != [] && p == evs[..|evs| - 1] && IsChunk(evs[|evs| - 1])
    requires Inv(s, p) && Distinct(Declared(p)) && StampInv(s, p)
    ensures RowsStamped(s.completed, evs, None)
  {
    hide Inv, Declared, Record, RowStamped, PendingIds, CallsStamped, ResultsStamped, InfosStamped, Distinct;
    forall i | 0 <= i < |s.completed| && s.completed[i].role == Tool
      ensures RowStamped(s.completed[i], Record(evs, s.completed[i].toolCallID), None)
    {
      ClosedIsNotPending(s, p, i);
      ChunkRecord(s, p, evs, s.completed[i].toolCallID);
    }
  }

  /** What is remembered of one call that is cut. */
  lemma CutInfo(s: State, u: State, p: seq<Event>, evs: seq<Event>, id: string)
    requires evs != [] && p == evs[..|evs| - 1] && IsChunk(evs[|evs| - 1])
    requires Inv(s, p) && Distinct(Declared(p)) && StampInv(s, p) && s.calls != []
    requires id in PendingIds(s.calls, s.results) && id in u.superseded
    requires u.superseded == RememberSuperseded(StampPending(s, evs[|evs| - 1].at)).superseded
    requires u.superseded[id].toolStartedAt == if id in s.startedAt then s.startedAt[id] else 0
    ensures InfoStamped(u.superseded[id], Record(evs, id))
  {
    hide Inv, Declared, Record, StampPending, RememberSuperseded, PendingIds, OrderedRow, RowStamped, Distinct;
    ChunkRecord(s, p, evs, id);
    PendingMembers(s.calls, s.results, id);
    var i :| 0 <= i < |s.calls| && CallIds(s.calls)[i] == id;
    SupersededRow(s, p, evs, i);
    assert CallStamped(s.calls[i], Record(p, id), s.startedAt);
  }

  lemma SupersedeInfos(s: State, u: State, p: seq<Event>, evs: seq<Event>)
    requires evs != [] && p == evs[..|evs| - 1] && IsChunk(evs[|evs| - 1])
    requires Inv(s, p) && Distinct(Declared(p)) && StampInv(s, p) && s.calls != []
    requires u == SupersedeRound(s, evs[|evs| - 1].at)
    ensures InfosStamped(u, evs)
  {
    SupersedeTimeCore(s, evs[|evs| - 1].at);
    hide Inv, Declared, Record, SupersedeRound, StampPending, RememberSuperseded, PendingIds, InfoStamped;
    hide CallsStamped, ResultsStamped, RowsStamped, RoundRows, Distinct;
    forall id | id in u.superseded ensures InfoStamped(u.superseded[id], Record(evs, id)) {
      ChunkRecord(s, p, evs, id);
      if id in PendingIds(s.calls, s.results) {
        CutInfo(s, u, p, evs, id);
      }
    }
  }

  lemma SupersedeRows(s: State, p: seq<Event>, evs: seq<Event>)
    requires evs != [] && p == evs[..|evs| - 1] && IsChunk(evs[|evs| - 1])
    requires Inv(s, p) && Distinct(Declared(p)) && StampInv(s, p) && s.calls != []
    ensures var t := RememberSuperseded(StampPending(s, evs[|evs| - 1].at));
      RowsStamped(s.completed + RoundRows(t, Superseded), evs, None)
  {
    var t := RememberSuperseded(StampPending(s, evs[|evs| - 1].at));
    assert t.calls == s.calls && t.results == s.results;
    SameCoreResults(s, t, p);
    hide *;
    EarlierRows(s, p, evs);
    forall i | 0 <= i < |t.calls|
      ensures RowStamped(OrderedRow(t.calls[i].id, t, Superseded), Record(evs, t.calls[i].id), None)
    {
      SupersededRow(s, p, evs, i);
    }
    RoundStamped(t, Superseded, evs, p, None);
    StampedConcat(s.completed, RoundRows(t, Superseded), evs, None);
  }

  lemma SupersedeStamps(s: State, p: seq<Event>, evs: seq<Event>)
    requires evs != [] && p == evs[..|evs| - 1] && IsChunk(evs[|evs| - 1])
    requires Inv(s, p) && Distinct(Declared(p)) && StampInv(s, p) && s.calls != []
    ensures StampInv(SupersedeRound(s, evs[|evs| - 1].at), evs)
  {
    var at := evs[|evs| - 1].at;
    var u := SupersedeRound(s, at);
    SupersedeTimeCore(s, at);
    SupersededResults(s, at);
    SupersedeInfos(s, u, p, evs);
    SupersedeRows(s, p, evs);
    hide Inv, Declared, Record, SupersedeRound, StampPending, RememberSuperseded, PendingIds, RowStamped;
    hide RoundRows, InfosStamped, Distinct;
  }

  lemma ChunkStampCore(s: State, e: Event)
    requires IsChunk(e) && s.handler
    ensures SameStamps(SupersedeRound(s, e.at), Step(s, e))
  {
    ChunkCore(s, e.text, e.at);
    ThoughtCore(s, e.text, e.at);
    ChunkTimeCore(s, e.text, e.at);
    hide SupersedeRound, OnMessageChunk, OnThoughtChunk;
  }

  lemma NothingPends(s: State, p: seq<Event>, evs: seq<Event>)
    requires evs != [] && p == evs[..|evs| - 1] && IsChunk(evs[|evs| - 1])
    requires Inv(s, p) && Distinct(Declared(p)) && StampInv(s, p) && s.calls == []
    ensures forall x :: Record(evs, x) == Record(p, x)
  {
    assert PendingIds(s.calls, s.results) == [];
    hide Inv, Declared, Record, StampInv, PendingIds;
    forall x ensures Record(evs, x) == Record(p, x) {
      ChunkRecord(s, p, evs, x);
    }
  }

  lemma ChunkStamps(s: State, p: seq<Event>, evs: seq<Event>)
    requires evs != [] && p == evs[..|evs| - 1] && IsChunk(evs[|evs| - 1])
    requires Inv(s, p) && Distinct(Declared(p)) && StampInv(s, p) && s.handler
    ensures StampInv(Step(s, evs[|evs| - 1]), evs)
  {
    var e := evs[|evs| - 1];
    var u := SupersedeRound(s, e.at);
    ChunkStampCore(s, e);
    if s.calls == [] {
      NothingSuperseded(s, e.at);
      hide Inv, Declared, Record, StampInv, Step, SupersedeRound, CallsStamped, InfosStamped;
      NothingPends(s, p, evs);
      SameStampsKeep(s, Step(s, e), p, evs);
    } else {
      hide Inv, Declared, Record, StampInv, Step, SupersedeRound;
      SupersedeStamps(s, p, evs);
      SameStampsKeep(u, Step(s, e), evs, evs);
    }
  }

  // ------------------------------------------------------------------- terminals

  /** A terminal changes the record of one id only, so nothing that knows other ids. */
  lemma OtherRecord(s: State, p: seq<Event>, evs: seq<Event>, x: string)
    requires evs != [] && p == evs[..|evs| - 1] && evs[|evs| - 1].ToolCallUpdate? && IsTerminal(evs[|evs| - 1].status)
    requires x != evs[|evs| - 1].id || Answer(p, x).Some? || x !in Declared(p)
    ensures Record(evs, x) == Record(p, x)
  {
    TerminalRecords(p, evs);
    RecordReads(p, x);
  }

  lemma AnsweredRecord(p: seq<Event>, evs: seq<Event>)
    requires evs != [] && p == evs[..|evs| - 1] && evs[|evs| - 1].ToolCallUpdate? && IsTerminal(evs[|evs| - 1].status)
    requires evs[|evs| - 1].id in Declared(p) && Answer(p, evs[|evs| - 1].id).None?
    ensures var e := evs[|evs| - 1]; var r := Record(p, e.id);
      && Awaited(r) && Record(evs, e.id) == r.(answered := Some(e.at))
      && forall x :: x != e.id ==> Record(evs, x) == Record(p, x)
  {
    TerminalRecords(p, evs);
    RecordReads(p, evs[|evs| - 1].id);
  }

  lemma DroppedStamps(s: State, p: seq<Event>, evs: seq<Event>)
    requires evs != [] && p == evs[..|evs| - 1] && evs[|evs| - 1].ToolCallUpdate? && IsTerminal(evs[|evs| - 1].status)
    requires StampInv(s, p)
    requires evs[|evs| - 1].id !in Declared(p) || Answer(p, evs[|evs| - 1].id).Some?
    ensures StampInv(s, evs)
  {
    hide StampInv, Record, Answer, Declared;
    forall x ensures Record(evs, x) == Record(p, x) {
      OtherRecord(s, p, evs, x);
    }
    SameStampsKeep(s, s, p, evs);
  }

  /** The new result carries the clock of its declaration and its own arrival. */
  lemma NewResult(s: State, e: Event, p: seq<Event>, evs: seq<Event>)
    requires e.ToolCallUpdate? && CallsStamped(s, p) && e.id in CallIds(s.calls)
    requires Record(evs, e.id) == Record(p, e.id).(answered := Some(e.at))
    ensures ResultStamped(RealResult(s, e.id, e.content, e.status, e.at), Record(evs, e.id))
    ensures RealResult(s, e.id, e.content, e.status, e.at).toolCallID == e.id
    ensures Record(p, e.id).cut.None?
  {
    hide Record;
    var k :| 0 <= k < |s.calls| && CallIds(s.calls)[k] == e.id;
    assert CallStamped(s.calls[k], Record(p, e.id), s.startedAt);
  }

  lemma OtherRowsStamped(ms: seq<Message>, id: string, p: seq<Event>, evs: seq<Event>)
    requires RowsStamped(ms, p, None) && id !in ToolIds(ms)
    requires forall x :: x != id ==> Record(evs, x) == Record(p, x)
    ensures RowsStamped(ms, evs, None)
  {
    hide Record, ToolIds, RowStamped;
    forall i | 0 <= i < |ms| && ms[i].role == Tool ensures RowStamped(ms[i], Record(evs, ms[i].toolCallID), None) {
      ToolIdsMember(ms, i);
    }
  }

  /** The state in front of the flush that the last terminal may trigger. */
  lemma AcceptedStamps(s: State, t: State, r: Message, p: seq<Event>, evs: seq<Event>)
    requires evs != [] && StampInv(s, p) && Inv(s, p) && Distinct(Declared(p)) && r.toolCallID in CallIds(s.calls)
    requires r.toolCallID !in ResultIds(s.results)
    requires ResultStamped(r, Record(evs, r.toolCallID)) && Record(evs, r.toolCallID).cut.None?
    requires Record(evs, r.toolCallID) == Record(p, r.toolCallID).(answered := Record(evs, r.toolCallID).answered)
    requires forall x :: x != r.toolCallID ==> Record(evs, x) == Record(p, x)
    requires t.calls == s.calls && t.startedAt == s.startedAt && t.results == s.results + [r]
    requires t.completed == s.completed && t.superseded == s.superseded
    requires forall id :: id in t.finishedAt ==> id in s.finishedAt || id == r.toolCallID
    ensures StampInv(t, evs)
  {
    OpenIdIsNotClosed(s, p, r.toolCallID);
    hide Record, Declared, Answer, ToolIds, IsHistory, RowsStamped, InfoStamped, Distinct;
    forall i | 0 <= i < |t.calls| ensures CallStamped(t.calls[i], Record(evs, t.calls[i].id), t.startedAt) {
      assert CallStamped(s.calls[i], Record(p, s.calls[i].id), s.startedAt);
    }
    assert ResultIds(t.results) == ResultIds(s.results) + [r.toolCallID];
    forall i | 0 <= i < |t.results| ensures ResultStamped(t.results[i], Record(evs, t.results[i].toolCallID)) {
      if i < |s.results| {
        assert ResultIds(s.results)[i] == s.results[i].toolCallID;
      }
    }
    OtherRowsStamped(s.completed, r.toolCallID, p, evs);
  }

  /** The flush of a round whose calls all have a result. */
  lemma FullFlushStamps(t: State, u: State, evs: seq<Event>)
    requires StampInv(t, evs) && ResultsInv(t, evs) && t.calls != [] && |t.results| >= |t.calls|
    requires u.completed == t.completed + RoundRows(t, Interrupted) && u.superseded == t.superseded
    requires u.calls == [] && u.results == [] && u.finishedAt == map[]
    ensures StampInv(u, evs)
  {
    FullRoundIsAnswered(t, evs);
    hide Record, ResultsInv, OrderedRow, RoundRows, RowStamped;
    forall i | 0 <= i < |t.calls|
      ensures RowStamped(OrderedRow(t.calls[i].id, t, Interrupted), Record(evs, t.calls[i].id), None)
    {
      assert CallStamped(t.calls[i], Record(evs, t.calls[i].id), t.startedAt);
      AnsweredRow(t, evs, Interrupted, i, None);
    }
    RoundStamped(t, Interrupted, evs, evs, None);
    StampedConcat(t.completed, RoundRows(t, Interrupted), evs, None);
  }

  lemma AcceptStampCore(s: State, id: string, content: string, status: Status, at: int)
    requires s.calls != []
    ensures var t := s.(results := s.results + [RealResult(s, id, content, status, at)],
                        finishedAt := s.finishedAt[id := at]);
      var u := AcceptTerminal(s, id, content, status, at);
      if |t.results| >= |t.calls| then u.calls == [] && u.results == [] else u.results == t.results
  {
    hide RoundRows, RealResult;
  }

  lemma AcceptStamps(s: State, p: seq<Event>, evs: seq<Event>)
    requires evs != [] && p == evs[..|evs| - 1] && evs[|evs| - 1].ToolCallUpdate? && IsTerminal(evs[|evs| - 1].status)
    requires Inv(s, p) && Distinct(Declared(p)) && StampInv(s, p)
    requires evs[|evs| - 1].id in CallIds(s.calls) && evs[|evs| - 1].id !in ResultIds(s.results)
    ensures var e := evs[|evs| - 1]; StampInv(AcceptTerminal(s, e.id, e.content, e.status, e.at), evs)
  {
    var e := evs[|evs| - 1];
    var r := RealResult(s, e.id, e.content, e.status, e.at);
    var t := s.(results := s.results + [r], finishedAt := s.finishedAt[e.id := e.at]);
    var u := AcceptTerminal(s, e.id, e.content, e.status, e.at);
    TerminalAnswers(p, evs);
    OpenIdIsNotClosed(s, p, e.id);
    UnansweredPending(s, p, e.id);
    AnsweredRecord(p, evs);
    AcceptBeforeFlush(s, t, r, p, evs);
    AcceptTimeCore(s, e.id, e.content, e.status, e.at);
    AcceptStampCore(s, e.id, e.content, e.status, e.at);
    hide Record, RoundRows, AcceptTerminal, Inv, RealResult, Answer, Declared, RowsInv, SupersededInv, IdsInv;
    hide ResultsInv, CallStamped, RowStamped;
    NewResult(s, e, p, evs);
    AcceptedStamps(s, t, r, p, evs);
    if |t.results| >= |t.calls| {
      hide CallsStamped, ResultsStamped, InfosStamped, RowsStamped;
      FullFlushStamps(t, u, evs);
    } else {
      SameStampsKeep(t, u, evs, evs);
    }
  }

  /** The stitched row carries the clock of its declaration and its own arrival. */
  lemma NewStitch(s: State, e: Event, p: seq<Event>, evs: seq<Event>)
    requires e.ToolCallUpdate? && InfosStamped(s, p) && TimeInv(s)
    requires e.id in s.superseded && e.id !in CallIds(s.calls)
    requires Record(evs, e.id) == Record(p, e.id).(answered := Some(e.at))
    ensures var r := StitchedRow(s, e.id, e.content, e.status, e.at);
      r.role == Tool && r.toolCallID == e.id && RowStamped(r, Record(evs, e.id), None)
  {
    hide Record, PlaceholderTimed;
    assert InfoStamped(s.superseded[e.id], Record(p, e.id));
  }

  lemma StitchStamps(s: State, u: State, i: nat, r: Message, p: seq<Event>, evs: seq<Event>)
    requires Inv(s, p) && StampInv(s, p) && Distinct(ToolIds(s.completed))
    requires i < |s.completed| && IsPlaceholderTool(s.completed[i]) && s.completed[i].toolCallID == r.toolCallID
    requires r.role == Tool && RowStamped(r, Record(evs, r.toolCallID), None) && r.toolCallID !in CallIds(s.calls)
    requires r.toolCallID !in ResultIds(s.results)
    requires forall x :: x != r.toolCallID ==> Record(evs, x) == Record(p, x)
    requires u.completed == s.completed[i := r] && u.calls == s.calls && u.results == s.results
    requires u.startedAt == s.startedAt && u.finishedAt == s.finishedAt
    requires u.superseded == s.superseded - {r.toolCallID}
    ensures StampInv(u, evs)
  {
    hide Record, Inv, ToolIds, RowStamped, CallStamped, ResultStamped, Distinct;
    forall k | 0 <= k < |u.calls| ensures CallStamped(u.calls[k], Record(evs, u.calls[k].id), u.startedAt) {
      assert CallIds(s.calls)[k] == s.calls[k].id;
    }
    forall k | 0 <= k < |u.results| ensures ResultStamped(u.results[k], Record(evs, u.results[k].toolCallID)) {
      assert ResultIds(s.results)[k] == s.results[k].toolCallID;
    }
    forall k | 0 <= k < |u.completed| && u.completed[k].role == Tool
      ensures RowStamped(u.completed[k], Record(evs, u.completed[k].toolCallID), None)
    {
      if k != i {
        ToolRowUnique(s.completed, k, i);
      }
    }
  }

  lemma LateResults(s: State, id: string, content: string, status: Status, at: int)
    requires id in s.superseded
    ensures LateTerminal(s, id, content, status, at).results == s.results
  {
  }

  lemma LateStamps(s: State, p: seq<Event>, evs: seq<Event>)
    requires evs != [] && p == evs[..|evs| - 1] && evs[|evs| - 1].ToolCallUpdate? && IsTerminal(evs[|evs| - 1].status)
    requires Inv(s, p) && Distinct(Declared(p)) && StampInv(s, p) && TimeInv(s)
    requires evs[|evs| - 1].id in s.superseded && evs[|evs| - 1].id !in CallIds(s.calls)
    ensures var e := evs[|evs| - 1]; StampInv(LateTerminal(s, e.id, e.content, e.status, e.at), evs)
  {
    var e := evs[|evs| - 1];
    var u, r := LateTerminal(s, e.id, e.content, e.status, e.at), StitchedRow(s, e.id, e.content, e.status, e.at);
    var i := LateRow(s, p, e.id);
    LateTimeCore(s, e.id, e.content, e.status, e.at, i);
    AnsweredRecord(p, evs);
    LateResults(s, e.id, e.content, e.status, e.at);
    RoundScreen.ResultsAreOpen(s, p, e.id);
    hide StitchedRow, LateTerminal, Record, Inv, Answer, Declared, RowStamped, TimeInv, StitchIndex;
    hide CallsStamped, ResultsStamped, InfosStamped, RowsStamped, Distinct;
    NewStitch(s, e, p, evs);
    StitchStamps(s, u, i, r, p, evs);
  }

  // ------------------------------------------------------------------------ runs

  lemma StepStamps(s: State, p: seq<Event>, evs: seq<Event>)
    requires evs != [] && p == evs[..|evs| - 1] && Distinct(Declared(evs)) && Distinct(Declared(p))
    requires Inv(s, p) && StampInv(s, p) && TimeInv(s) && s.handler
    ensures StampInv(Step(s, evs[|evs| - 1]), evs)
  {
    var e := evs[|evs| - 1];
    hide Inv, StampInv, TimeInv, Declared, Distinct, Answer, OnToolCall, OnMessageChunk, OnThoughtChunk;
    hide AcceptTerminal, LateTerminal, Record;
    if IsChunk(e) {
      ChunkStamps(s, p, evs);
    } else if e.ToolCallDecl? {
      DeclareStamps(s, p, evs);
    } else if !(e.ToolCallUpdate? && IsTerminal(e.status)) {
      QuietRecords(p, evs);
      QuietStamps(s, e);
      SameStampsKeep(s, Step(s, e), p, evs);
    } else if e.id in CallIds(s.calls) && e.id !in ResultIds(s.results) {
      AcceptStamps(s, p, evs);
    } else if e.id !in CallIds(s.calls) && e.id in s.superseded {
      LateStamps(s, p, evs);
    } else {
      AwaitedInState(s, p, e.id);
      DroppedStamps(s, p, evs);
    }
  }

  /** In every run the rows, the results and the open calls carry the stamps of the stream. */
  lemma {:induction false} RunStamps(evs: seq<Event>)
    requires Distinct(Declared(evs))
    ensures StampInv(Run(evs), evs)
  {
    if evs != [] {
      var p := evs[..|evs| - 1];
      DistinctPrefix(evs);
      RunInv(p);
      RunTime(p);
      RunStamps(p);
      hide Inv, StampInv, TimeInv, Declared, Distinct, Step;
      StepStamps(Run(p), p, evs);
    }
  }

  lemma FinalClock(s: State, reason: Reason, at: int)
    ensures var t := EmitPendingEnds(s, reason, at);
      && SameCore(s, t) && t.startedAt == s.startedAt
      && (forall id :: id in PendingIds(s.calls, s.results) && id !in s.finishedAt ==>
            id in t.finishedAt && t.finishedAt[id] == at)
  {
    hide PendingIds;
  }

  /** A row of the last flush: an answer, or a placeholder with the clock of the close-out. */
  lemma FinalStamp(s: State, t: State, evs: seq<Event>, reason: Reason, at: int, i: nat)
    requires Inv(s, evs) && Distinct(Declared(evs)) && StampInv(s, evs) && i < |s.calls|
    requires SameCore(s, t) && t.startedAt == s.startedAt
    requires forall id :: id in PendingIds(s.calls, s.results) && id !in s.finishedAt ==>
               id in t.finishedAt && t.finishedAt[id] == at
    ensures RowStamped(OrderedRow(t.calls[i].id, t, reason), Record(evs, t.calls[i].id), Some(at))
  {
    var id := s.calls[i].id;
    assert CallIds(s.calls)[i] == id;
    AwaitedInState(s, evs, id);
    RecordReads(evs, id);
    PendingMembers(s.calls, s.results, id);
    assert CallStamped(s.calls[i], Record(evs, id), s.startedAt);
    hide Inv, Declared, Record, Answer, PendingIds, OrderedRow, Distinct;
    if id in ResultIds(t.results) {
      AnsweredRow(t, evs, reason, i, Some(at));
    } else {
      var k := OrderedRowIs(t, id, reason);
    }
  }

  lemma EarlierStamp(m: Message, r: CallRecord, at: int)
    requires RowStamped(m, r, None)
    ensures RowStamped(m, r, Some(at))
  {
  }

  lemma FinalRowsStamped(s: State, t: State, evs: seq<Event>, reason: Reason, at: int)
    requires Inv(s, evs) && Distinct(Declared(evs)) && StampInv(s, evs) && t == EmitPendingEnds(s, reason, at)
    ensures RowsStamped(FlushRound(t, reason).completed, evs, Some(at))
  {
    FinalClock(s, reason, at);
    SameCoreResults(s, t, evs);
    hide EmitPendingEnds, Declared, Record, PendingIds, OrderedRow, RowStamped, Distinct, Answer;
    forall i | 0 <= i < |s.completed| && s.completed[i].role == Tool
      ensures RowStamped(s.completed[i], Record(evs, s.completed[i].toolCallID), Some(at))
    {
      EarlierStamp(s.completed[i], Record(evs, s.completed[i].toolCallID), at);
    }
    if t.calls != [] {
      forall i | 0 <= i < |t.calls|
        ensures RowStamped(OrderedRow(t.calls[i].id, t, reason), Record(evs, t.calls[i].id), Some(at))
      {
        FinalStamp(s, t, evs, reason, at, i);
      }
      RoundStamped(t, reason, evs, evs, Some(at));
    } else {
      assert RowsStamped(RoundRows(t, reason), evs, Some(at));
    }
    hide RoundRows;
    StampedConcat(s.completed, RoundRows(t, reason), evs, Some(at));
  }

  /**
    The stamps of the transcript of every run. A real result started when its call was
    declared and finished when its first terminal arrived; a row that was stitched in
    leaves out a start that is not positive. A placeholder started when its call was
    declared and finished when a chunk cut the call, or else when the run closed, each
    left out unless it is positive.
  */
  lemma TranscriptIsStamped(evs: seq<Event>, reason: Reason, at: int)
    requires Distinct(Declared(evs))
    ensures var c := BeforeCollect(Run(evs), reason, at).completed;
      forall i :: 0 <= i < |c| && c[i].role == Tool ==>
        var m, r := c[i], Record(evs, c[i].toolCallID);
        && r.declared.Some? && m.reasoning == "" && m.toolCalls == [] && !m.extra.prePersisted
        && (m.extra.placeholder <==> r.answered.None?)
        && m.extra.startedAt ==
             (if r.answered.Some? && r.cut.None? then r.declared else Positive(r.declared))
        && m.extra.finishedAt ==
             (if r.answered.Some? then r.answered else Positive(if r.cut.Some? then r.cut else Some(at)))
  {
    RunInv(evs);
    RunStamps(evs);
    var s := Run(evs);
    hide Run, EmitPendingEnds, FlushRound, Inv, StampInv, Record;
    FinalRowsStamped(s, EmitPendingEnds(s, reason, at), evs, reason, at);
  }
}
