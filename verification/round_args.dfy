/**
  The arguments of a tool call. A delta appends and a snapshot replaces, but the
  builder takes arguments only while the call's round is open. What a stored row
  holds is what was heard until then; what the page shows is everything heard.
*/
module RoundArgs {
  import opened Wrappers
  import opened Messages
  import opened RoundModel
  import opened RoundDeclare
  import opened RoundInvariant
  import opened RoundTerminal
  import opened RoundTranscript

  // ---------------------------------------------------------- the stream's reading

  /** What one event does to the arguments of an id. */
  function ApplyArgs(args: string, e: Event, id: string): string {
    if e.ToolCallUpdate? && !IsTerminal(e.status) && e.id == id then args + e.content
    else if e.ArgsSnapshot? && e.id == id then e.args
    else args
  }

  /** All arguments heard for an id since its declaration. */
  function ArgsHeard(evs: seq<Event>, id: string): string {
    if evs == [] then ""
    else
      var p, e := evs[..|evs| - 1], evs[|evs| - 1];
      if e.ToolCallDecl? && e.id == id then "" else ApplyArgs(ArgsHeard(p, id), e, id)
  }

  predicate AllAnswered(evs: seq<Event>, ids: seq<string>) {
    forall i :: 0 <= i < |ids| ==> Answer(evs, ids[i]).Some?
  }

  /** The declared calls of the round that is still open: a chunk closes it, and so does its last answer. */
  function OpenIds(evs: seq<Event>): seq<string> {
    if evs == [] then []
    else
      var p, e := evs[..|evs| - 1], evs[|evs| - 1];
      if e.ToolCallDecl? then OpenIds(p) + [e.id]
      else if e.MessageChunk? || e.ThoughtChunk? then []
      else if e.ToolCallUpdate? && IsTerminal(e.status) && AllAnswered(evs, OpenIds(p)) then []
      else OpenIds(p)
  }

  /** How much of the stream had come when the round of an id stopped taking arguments. */
  function HeldUntil(evs: seq<Event>, id: string): (n: nat)
    ensures n <= |evs|
  {
    if evs == [] then 0
    else
      var p, e := evs[..|evs| - 1], evs[|evs| - 1];
      if (e.ToolCallDecl? && e.id == id) || id in OpenIds(p) then |evs| else HeldUntil(p, id)
  }

  /** The arguments that the builder keeps for an id. */
  function ArgsKept(evs: seq<Event>, id: string): string { ArgsHeard(evs[..HeldUntil(evs, id)], id) }

  /** The effect of a stretch of events on arguments already heard. */
  function FoldArgs(args: string, es: seq<Event>, id: string): string {
    if es == [] then args else ApplyArgs(FoldArgs(args, es[..|es| - 1], id), es[|es| - 1], id)
  }

  lemma OpenIsHeld(evs: seq<Event>, id: string)
    requires id in OpenIds(evs)
    ensures HeldUntil(evs, id) == |evs|
  {
    hide AllAnswered;
    var p := evs[..|evs| - 1];
    if id in OpenIds(p) {
    } else {
      assert evs[|evs| - 1].ToolCallDecl?;
    }
  }

  /** One event: only while its round is open does a call take arguments. */
  lemma KeptStep(evs: seq<Event>, id: string)
    requires evs != []
    ensures var p, e := evs[..|evs| - 1], evs[|evs| - 1];
      ArgsKept(evs, id) ==
        if e.ToolCallDecl? && e.id == id then ""
        else if id in OpenIds(p) then ApplyArgs(ArgsKept(p, id), e, id)
        else ArgsKept(p, id)
  {
    var p, e := evs[..|evs| - 1], evs[|evs| - 1];
    assert evs[..|evs|] == evs;
    hide OpenIds;
    if (e.ToolCallDecl? && e.id == id) || id in OpenIds(p) {
      if id in OpenIds(p) {
        OpenIsHeld(p, id);
        assert p[..|p|] == p;
      }
    } else {
      assert evs[..HeldUntil(p, id)] == p[..HeldUntil(p, id)];
    }
  }

  // -------------------------------------------------------------- the open round

  /** Distinct members of a list are no more than the list is long. */
  lemma NoMoreThan(a: seq<string>, b: seq<string>)
    requires Distinct(a) && forall x :: x in a ==> x in b
    ensures |a| <= |b|
  {
    var sa, sb := set x | x in a, set x | x in b;
    DistinctCount(a);
    DistinctCount(b);
    assert sa <= sb;
    if sa != sb {
      SubsetCard(sa, sb);
    }
  }

  lemma OpenRoundHasUnanswered(s: State, evs: seq<Event>)
    requires ResultsInv(s, evs) && Distinct(CallIds(s.calls)) && |s.results| < |s.calls|
    ensures !AllAnswered(evs, CallIds(s.calls))
  {
    hide Answer, ResultOK;
    var a, b := CallIds(s.calls), ResultIds(s.results);
    if AllAnswered(evs, a) {
      forall x | x in a ensures x in b {
        var i :| 0 <= i < |a| && a[i] == x;
        assert s.calls[i].id == x;
      }
      NoMoreThan(a, b);
    }
  }

  lemma DistinctParts(a: seq<string>, b: seq<string>)
    requires Distinct(a + b)
    ensures Distinct(b)
  {
    assert forall k :: 0 <= k < |b| ==> (a + b)[|a| + k] == b[k];
  }

  lemma OpenAreDistinct(s: State, evs: seq<Event>)
    requires IdsInv(s, evs) && Distinct(Declared(evs))
    ensures Distinct(CallIds(s.calls))
  {
    hide Declared, ToolIds, Distinct;
    DistinctParts(ToolIds(s.completed), CallIds(s.calls));
  }

  /** A terminal keeps the open calls or closes their round. */
  lemma TerminalCalls(s: State, e: Event)
    requires e.ToolCallUpdate? && IsTerminal(e.status)
    ensures var u := Step(s, e);
      u.calls == s.calls || (u.calls == [] && u.superseded == s.superseded)
  {
    hide AcceptTerminal, LateTerminal;
  }

  lemma TerminalOpen(s: State, u: State, p: seq<Event>, evs: seq<Event>)
    requires evs != [] && p == evs[..|evs| - 1] && evs[|evs| - 1].ToolCallUpdate? && IsTerminal(evs[|evs| - 1].status)
    requires Inv(s, p) && Inv(u, evs) && Distinct(Declared(evs)) && u == Step(s, evs[|evs| - 1])
    requires CallIds(s.calls) == OpenIds(p)
    ensures CallIds(u.calls) == OpenIds(evs)
  {
    TerminalCalls(s, evs[|evs| - 1]);
    hide Step, Answer, Declared, IsHistory, ToolIds, RowsInv;
    if u.calls != [] {
      OpenAreDistinct(u, evs);
      OpenRoundHasUnanswered(u, evs);
    } else if s.calls != [] {
      forall i | 0 <= i < |s.calls| ensures Answer(evs, CallIds(s.calls)[i]).Some? {
        var id := CallIds(s.calls)[i];
        assert Declared(evs) == Declared(p) by { TerminalAnswers(p, evs); }
        OpenIdIsNotClosed(s, p, id);
        assert ToolIds(u.completed) + [] == ToolIds(u.completed);
      }
    }
  }

  /** What the other events do to the open calls. */
  lemma QuietCalls(s: State, e: Event)
    requires s.handler && !(e.ToolCallUpdate? && IsTerminal(e.status))
    ensures CallIds(Step(s, e).calls) ==
      if e.ToolCallDecl? then CallIds(s.calls) + [e.id]
      else if e.MessageChunk? || e.ThoughtChunk? then [] else CallIds(s.calls)
  {
    hide SupersedeRound, SetArgs;
    match e
    case ToolCallDecl(id, title, _) => assert CallIds(s.calls + [ToolCall(id, title, "")]) == CallIds(s.calls) + [id];
    case ArgsSnapshot(id, args) => SetArgsKeepsIds(s.calls, id, args, true);
    case ToolCallUpdate(id, content, _, _) => SetArgsKeepsIds(s.calls, id, content, false);
    case MessageChunk(text, at) => ChunkCore(s, text, at);
    case ThoughtChunk(text, at) => ThoughtCore(s, text, at);
    case TokenUsage(_) =>
  }

  lemma QuietOpen(s: State, p: seq<Event>, evs: seq<Event>)
    requires evs != [] && p == evs[..|evs| - 1] && s.handler && CallIds(s.calls) == OpenIds(p)
    requires var e := evs[|evs| - 1]; !(e.ToolCallUpdate? && IsTerminal(e.status))
    ensures CallIds(Step(s, evs[|evs| - 1]).calls) == OpenIds(evs)
  {
    hide Step, AllAnswered, CallIds;
    QuietCalls(s, evs[|evs| - 1]);
  }

  /** The builder's open calls are the open calls of the stream. */
  lemma {:induction false} OpenIdsAreCalls(evs: seq<Event>)
    requires Distinct(Declared(evs))
    ensures CallIds(Run(evs).calls) == OpenIds(evs)
  {
    if evs != [] {
      var p, e := evs[..|evs| - 1], evs[|evs| - 1];
      DistinctPrefix(evs);
      OpenIdsAreCalls(p);
      RunInv(p);
      RunInv(evs);
      hide Step, OpenIds, Inv, Declared;
      if e.ToolCallUpdate? && IsTerminal(e.status) {
        TerminalOpen(Run(p), Run(evs), p, evs);
      } else {
        QuietOpen(Run(p), p, evs);
      }
    }
  }

  // --------------------------------------------------------- what the rows hold

  predicate CallsHold(calls: seq<ToolCall>, evs: seq<Event>) {
    forall k :: 0 <= k < |calls| ==> calls[k].args == ArgsKept(evs, calls[k].id)
  }

  predicate RowsHoldArgs(ms: seq<Message>, evs: seq<Event>) {
    forall i :: 0 <= i < |ms| && ms[i].role == Assistant ==> CallsHold(ms[i].toolCalls, evs)
  }

  predicate ArgsInv(s: State, evs: seq<Event>) { CallsHold(s.calls, evs) && RowsHoldArgs(s.completed, evs) }

  lemma NoCalls(evs: seq<Event>)
    ensures CallsHold([], evs)
  {
  }

  lemma FlushHoldsArgs(s: State, evs: seq<Event>, at: seq<Event>, reason: Reason)
    requires ArgsInv(s, evs) && ResultsInv(s, at) && (s.calls == [] ==> s.results == [])
    ensures ArgsInv(FlushRound(s, reason), evs)
  {
    hide CallsHold;
    assert CallsHold([], evs) by { NoCalls(evs); }
    if !NothingToFlush(s) {
      FlushedRoundShape(s, at, reason);
      var rows := RoundRows(s, reason);
      assert rows[0].toolCalls == s.calls;
      hide RoundRows;
      forall i | 0 <= i < |s.completed + rows| && (s.completed + rows)[i].role == Assistant
        ensures CallsHold((s.completed + rows)[i].toolCalls, evs)
      {
        if i >= |s.completed| {
          assert (s.completed + rows)[i] == rows[i - |s.completed|];
        }
      }
    }
  }

  lemma SameArgs(p: seq<Event>, evs: seq<Event>, s: State)
    requires ArgsInv(s, p) && forall id :: ArgsKept(evs, id) == ArgsKept(p, id)
    ensures ArgsInv(s, evs)
  {
    hide ArgsKept;
    forall i | 0 <= i < |s.completed| && s.completed[i].role == Assistant
      ensures CallsHold(s.completed[i].toolCalls, evs)
    {
      assert CallsHold(s.completed[i].toolCalls, p);
    }
  }

  lemma SupersedeHoldsArgs(s: State, evs: seq<Event>, at: seq<Event>, now: int)
    requires ArgsInv(s, evs) && Inv(s, at)
    ensures ArgsInv(SupersedeRound(s, now), evs)
  {
    if |s.calls| > 0 {
      var t := RememberSuperseded(StampPending(s, now));
      SameCoreKeepsInv(s, t, at);
      hide CallsHold, ResultsInv, FlushRound, IsHistory;
      FlushHoldsArgs(t, evs, at, Superseded);
    }
  }

  lemma ChunkHoldsArgs(s: State, evs: seq<Event>, at: seq<Event>, text: string, now: int)
    requires ArgsInv(s, evs) && Inv(s, at) && s.handler
    ensures ArgsInv(OnMessageChunk(s, text, now), evs) && ArgsInv(OnThoughtChunk(s, text, now), evs)
  {
    ChunkCore(s, text, now);
    ThoughtCore(s, text, now);
    hide CallsHold, OnMessageChunk, OnThoughtChunk, Inv, ResultsInv;
    SupersedeHoldsArgs(s, evs, at, now);
    hide SupersedeRound;
  }

  lemma AcceptHoldsArgs(s: State, p: seq<Event>, evs: seq<Event>)
    requires evs != [] && p == evs[..|evs| - 1] && evs[|evs| - 1].ToolCallUpdate? && IsTerminal(evs[|evs| - 1].status)
    requires Inv(s, p) && Distinct(Declared(p)) && ArgsInv(s, evs)
    requires evs[|evs| - 1].id in CallIds(s.calls) && evs[|evs| - 1].id !in ResultIds(s.results)
    ensures var e := evs[|evs| - 1]; ArgsInv(AcceptTerminal(s, e.id, e.content, e.status, e.at), evs)
  {
    var e := evs[|evs| - 1];
    TerminalAnswers(p, evs);
    UnansweredPending(s, p, e.id);
    var t := AcceptCore(s, e.id, e.content, e.status, e.at);
    AcceptBeforeFlush(s, t, RealResult(s, e.id, e.content, e.status, e.at), p, evs);
    hide CallsHold, ResultsInv, RowsInv, SupersededInv, ToolIds;
    hide IsHistory, Answer, Declared, AcceptTerminal, FlushRound;
    FlushHoldsArgs(t, evs, evs, Interrupted);
  }

  lemma LateHoldsArgs(s: State, e: Event, evs: seq<Event>)
    requires e.ToolCallUpdate? && e.id in s.superseded && ArgsInv(s, evs)
    ensures ArgsInv(LateTerminal(s, e.id, e.content, e.status, e.at), evs)
  {
    hide CallsHold;
    var u := LateTerminal(s, e.id, e.content, e.status, e.at);
    forall i | 0 <= i < |u.completed| && u.completed[i].role == Assistant
      ensures CallsHold(u.completed[i].toolCalls, evs)
    {
      assert u.completed[i] == s.completed[i];
    }
  }

  lemma TerminalHoldsArgs(s: State, p: seq<Event>, evs: seq<Event>)
    requires evs != [] && p == evs[..|evs| - 1] && evs[|evs| - 1].ToolCallUpdate? && IsTerminal(evs[|evs| - 1].status)
    requires Inv(s, p) && Distinct(Declared(p)) && s.handler && ArgsInv(s, evs)
    ensures ArgsInv(Step(s, evs[|evs| - 1]), evs)
  {
    hide CallsHold, ResultsInv, RowsInv, SupersededInv, ToolIds;
    hide IsHistory, Answer, Declared, AcceptTerminal, LateTerminal;
    var e := evs[|evs| - 1];
    if e.id in CallIds(s.calls) && e.id !in ResultIds(s.results) {
      AcceptHoldsArgs(s, p, evs);
    } else if e.id !in CallIds(s.calls) && e.id in s.superseded {
      LateHoldsArgs(s, e, evs);
    }
  }

  /** The calls of stored rows are closed: their ids are neither open nor new. */
  lemma {:induction false} StoredCallIsClosed(ms: seq<Message>, i: nat, k: nat)
    requires IsHistory(ms) && i < |ms| && ms[i].role == Assistant && k < |ms[i].toolCalls|
    ensures ms[i].toolCalls[k].id in ToolIds(ms)
    decreases |ms|
  {
    var n := BlockLen(ms[0]);
    var b, rest := ms[..n], ms[n..];
    assert ms == b + rest;
    ToolIdsConcat(b, rest);
    assert forall j :: 0 <= j < n ==> ms[j] == b[j];
    if i == 0 {
      assert b[k + 1].toolCallID == ms[0].toolCalls[k].id;
      ToolIdsMember(b, k + 1);
    } else {
      assert rest[i - n] == ms[i];
      StoredCallIsClosed(rest, i - n, k);
    }
  }

  lemma ClosedIsNotOpen(s: State, p: seq<Event>, evs: seq<Event>, id: string)
    requires evs != [] && p == evs[..|evs| - 1] && IdsInv(s, p) && Distinct(Declared(evs)) && id in ToolIds(s.completed)
    ensures id !in CallIds(s.calls)
    ensures evs[|evs| - 1].ToolCallDecl? ==> evs[|evs| - 1].id != id
  {
    var a, b := ToolIds(s.completed), CallIds(s.calls);
    var k :| 0 <= k < |a| && a[k] == id;
    assert Declared(p)[k] == id;
    assert forall j :: 0 <= j < |b| ==> Declared(p)[|a| + j] == b[j];
    assert forall j :: 0 <= j < |Declared(p)| ==> Declared(evs)[j] == Declared(p)[j];
    if evs[|evs| - 1].ToolCallDecl? {
      assert Declared(evs)[|Declared(p)|] == evs[|evs| - 1].id;
    }
  }

  /** Arguments touch only an open call; every other call and all stored rows keep theirs. */
  lemma RowsKeepArgs(s: State, p: seq<Event>, evs: seq<Event>)
    requires evs != [] && p == evs[..|evs| - 1] && Inv(s, p) && Distinct(Declared(evs))
    requires CallIds(s.calls) == OpenIds(p) && RowsHoldArgs(s.completed, p)
    ensures RowsHoldArgs(s.completed, evs)
  {
    hide Answer, ToolIds, ResultsInv, RowsInv, SupersededInv, OpenIds, ArgsKept, IsHistory;
    var e := evs[|evs| - 1];
    forall i, k | 0 <= i < |s.completed| && s.completed[i].role == Assistant && 0 <= k < |s.completed[i].toolCalls|
      ensures s.completed[i].toolCalls[k].args == ArgsKept(evs, s.completed[i].toolCalls[k].id)
    {
      var id := s.completed[i].toolCalls[k].id;
      assert CallsHold(s.completed[i].toolCalls, p);
      StoredCallIsClosed(s.completed, i, k);
      ClosedIsNotOpen(s, p, evs, id);
      KeptStep(evs, id);
    }
  }

  lemma {:induction false} SetArgsAt(calls: seq<ToolCall>, id: string, args: string, replace: bool, k: nat)
    requires Distinct(CallIds(calls)) && k < |calls|
    ensures |SetArgs(calls, id, args, replace)| == |calls|
    ensures SetArgs(calls, id, args, replace)[k] ==
      if calls[k].id == id then calls[k].(args := if replace then args else calls[k].args + args) else calls[k]
  {
    SetArgsKeepsIds(calls, id, args, replace);
    if k == 0 {
    } else if calls[0].id == id {
      assert CallIds(calls)[0] == id && CallIds(calls)[k] == calls[k].id;
    } else {
      assert forall j :: 0 <= j < |calls| - 1 ==> CallIds(calls[1..])[j] == CallIds(calls)[j + 1];
      SetArgsAt(calls[1..], id, args, replace, k - 1);
    }
  }

  /** A new call has no arguments yet, and the others keep theirs. */
  lemma DeclaredCallHolds(s: State, p: seq<Event>, evs: seq<Event>)
    requires evs != [] && p == evs[..|evs| - 1] && CallsHold(s.calls, p)
    requires CallIds(s.calls) == OpenIds(p)
    requires evs[|evs| - 1].ToolCallDecl? && evs[|evs| - 1].id !in CallIds(s.calls)
    ensures var e := evs[|evs| - 1]; CallsHold(s.calls + [ToolCall(e.id, e.title, "")], evs)
  {
    hide ArgsKept, OpenIds;
    var e := evs[|evs| - 1];
    var calls := s.calls + [ToolCall(e.id, e.title, "")];
    forall k | 0 <= k < |calls| ensures calls[k].args == ArgsKept(evs, calls[k].id) {
      KeptStep(evs, calls[k].id);
      if k < |s.calls| {
        assert CallIds(s.calls)[k] == s.calls[k].id && calls[k] == s.calls[k];
      }
    }
  }

  /** An argument event reaches the open call of its id and no other. */
  lemma UpdatedCallHolds(s: State, p: seq<Event>, evs: seq<Event>, text: string, replace: bool)
    requires evs != [] && p == evs[..|evs| - 1] && CallsHold(s.calls, p)
    requires CallIds(s.calls) == OpenIds(p) && Distinct(CallIds(s.calls))
    requires var e := evs[|evs| - 1];
      if replace then e.ArgsSnapshot? && e.args == text
        else e.ToolCallUpdate? && !IsTerminal(e.status) && e.content == text
    ensures CallsHold(SetArgs(s.calls, evs[|evs| - 1].id, text, replace), evs)
  {
    hide ArgsKept, OpenIds, Distinct, SetArgs;
    var e := evs[|evs| - 1];
    var calls := SetArgs(s.calls, e.id, text, replace);
    SetArgsKeepsIds(s.calls, e.id, text, replace);
    assert |calls| == |CallIds(calls)| == |s.calls|;
    forall k | 0 <= k < |calls| ensures calls[k].args == ArgsKept(evs, calls[k].id) {
      SetArgsAt(s.calls, e.id, text, replace, k);
      assert CallIds(s.calls)[k] == s.calls[k].id;
      KeptStep(evs, s.calls[k].id);
    }
  }

  /** An empty delta is dropped, which is what appending it would do. */
  lemma {:induction false} EmptyDelta(calls: seq<ToolCall>, id: string)
    ensures SetArgs(calls, id, "", false) == calls
  {
    if calls != [] {
      EmptyDelta(calls[1..], id);
      assert calls[0].args + "" == calls[0].args;
      assert calls == [calls[0]] + calls[1..];
    }
  }

  lemma ArgsStepCalls(s: State, id: string, text: string, replace: bool)
    requires s.handler
    ensures var u := OnToolCallArgs(s, id, text, replace);
      u.calls == SetArgs(s.calls, id, text, replace) && u.completed == s.completed
  {
    EmptyDelta(s.calls, id);
    hide SetArgs;
  }

  lemma FreshIsNotOpen(s: State, p: seq<Event>, id: string)
    requires IdsInv(s, p) && id !in Declared(p)
    ensures id !in CallIds(s.calls)
  {
    var a, b := ToolIds(s.completed), CallIds(s.calls);
    assert forall k :: 0 <= k < |b| ==> Declared(p)[|a| + k] == b[k];
  }

  /** Events that carry no arguments leave all arguments as they are. */
  lemma QuietArgs(s: State, p: seq<Event>, evs: seq<Event>)
    requires evs != [] && p == evs[..|evs| - 1] && ArgsInv(s, p)
    requires var e := evs[|evs| - 1];
      !e.ToolCallDecl? && !e.ArgsSnapshot? && !(e.ToolCallUpdate? && !IsTerminal(e.status))
    ensures ArgsInv(s, evs)
  {
    hide OpenIds, ArgsKept;
    forall id ensures ArgsKept(evs, id) == ArgsKept(p, id) {
      KeptStep(evs, id);
    }
    SameArgs(p, evs, s);
  }

  lemma StepHoldsArgs(s: State, p: seq<Event>, evs: seq<Event>)
    requires evs != [] && p == evs[..|evs| - 1] && Inv(s, p) && Distinct(Declared(evs)) && s.handler
    requires CallIds(s.calls) == OpenIds(p) && ArgsInv(s, p)
    ensures ArgsInv(Step(s, evs[|evs| - 1]), evs)
  {
    var e := evs[|evs| - 1];
    DistinctPrefix(evs);
    OpenAreDistinct(s, p);
    RowsKeepArgs(s, p, evs);
    if e.ToolCallDecl? {
      FreshIdHasNoAnswer(p, evs);
      DeclareCore(s, e);
      FreshIsNotOpen(s, p, e.id);
    }
    hide Inv, SetArgs, CallsHold, RowsHoldArgs, OnMessageChunk, OnThoughtChunk;
    hide OnTerminal, OnToolCallArgs, OpenIds, Declared, CallIds, Distinct, Answer;
    match e
    case ToolCallDecl(_, _, _) => DeclaredCallHolds(s, p, evs);
    case ArgsSnapshot(id, args) =>
      UpdatedCallHolds(s, p, evs, args, true);
      ArgsStepCalls(s, id, args, true);
    case ToolCallUpdate(id, content, status, _) =>
      if IsTerminal(status) {
        QuietArgs(s, p, evs);
        TerminalHoldsArgs(s, p, evs);
      } else {
        UpdatedCallHolds(s, p, evs, content, false);
        ArgsStepCalls(s, id, content, false);
      }
    case MessageChunk(text, at) =>
      QuietArgs(s, p, evs);
      ChunkHoldsArgs(s, evs, p, text, at);
    case ThoughtChunk(text, at) =>
      QuietArgs(s, p, evs);
      ChunkHoldsArgs(s, evs, p, text, at);
    case TokenUsage(_) =>
      QuietArgs(s, p, evs);
  }

  // --------------------------------------------------------------------- theorems

  /**
    After every run, each open call and each call of a stored row holds exactly the
    arguments heard from its declaration to the end of its round.
  */
  lemma {:induction false} RunHoldsArgs(evs: seq<Event>)
    requires Distinct(Declared(evs))
    ensures ArgsInv(Run(evs), evs)
  {
    if evs != [] {
      var p := evs[..|evs| - 1];
      DistinctPrefix(evs);
      RunHoldsArgs(p);
      RunInv(p);
      OpenIdsAreCalls(p);
      StepHoldsArgs(Run(p), p, evs);
    }
  }

  /** An open call holds everything heard so far. */
  lemma OpenCallHoldsAll(evs: seq<Event>, k: nat)
    requires Distinct(Declared(evs)) && k < |Run(evs).calls|
    ensures var c := Run(evs).calls[k]; c.args == ArgsHeard(evs, c.id)
  {
    RunHoldsArgs(evs);
    OpenIdsAreCalls(evs);
    var c := Run(evs).calls[k];
    hide Run, OpenIds;
    assert CallIds(Run(evs).calls)[k] == c.id;
    OpenIsHeld(evs, c.id);
    assert evs[..|evs|] == evs;
  }

  /** The transcript of a closed run holds, for each call, the arguments heard while its round was open. */
  lemma TranscriptHoldsArgs(evs: seq<Event>, reason: Reason, at: int, i: nat, k: nat)
    requires Distinct(Declared(evs))
    requires var c := BeforeCollect(Run(evs), reason, at).completed;
      i < |c| && c[i].role == Assistant && k < |c[i].toolCalls|
    ensures var call := BeforeCollect(Run(evs), reason, at).completed[i].toolCalls[k];
      call.args == ArgsKept(evs, call.id)
  {
    RunHoldsArgs(evs);
    RunInv(evs);
    var s := Run(evs);
    var t := EmitPendingEnds(s, reason, at);
    EmitPendingEndsCore(s, reason, at);
    hide Run, EmitPendingEnds;
    SameCoreKeepsInv(s, t, evs);
    FlushHoldsArgs(t, evs, evs, reason);
  }

  /** Neither a declaration nor an argument event closes a round. */
  lemma ClosingEvent(evs: seq<Event>, id: string)
    requires evs != [] && id in OpenIds(evs[..|evs| - 1]) && id !in OpenIds(evs)
    ensures var e := evs[|evs| - 1]; forall args :: ApplyArgs(args, e, id) == args
    ensures !evs[|evs| - 1].ToolCallDecl?
  {
    hide AllAnswered;
  }

  /** The end of a round in the stream is the flush of the builder. */
  lemma HeldUntilTheFlush(evs: seq<Event>, id: string)
    requires evs != [] && Distinct(Declared(evs))
    ensures var p := evs[..|evs| - 1];
      id in CallIds(Run(p).calls) && id !in CallIds(Run(evs).calls) ==>
        && HeldUntil(evs, id) == |evs| && id in ToolIds(Run(evs).completed)
        && ArgsKept(evs, id) == ArgsHeard(p, id)
  {
    var p, e := evs[..|evs| - 1], evs[|evs| - 1];
    DistinctPrefix(evs);
    OpenIdsAreCalls(p);
    OpenIdsAreCalls(evs);
    RunInv(evs);
    RunInv(p);
    if id in CallIds(Run(p).calls) && id !in CallIds(Run(evs).calls) {
      OpenIdIsNotClosed(Run(p), p, id);
      var k :| 0 <= k < |Declared(p)| && Declared(p)[k] == id;
      assert Declared(evs)[k] == id;
      KeptStep(evs, id);
      OpenIsHeld(p, id);
      assert p[..|p|] == p && evs[..|evs|] == evs;
      ClosingEvent(evs, id);
    }
  }

  lemma {:induction false} HeardSplits(evs: seq<Event>, n: nat, id: string)
    requires n <= |evs| && forall j :: n <= j < |evs| ==> !(evs[j].ToolCallDecl? && evs[j].id == id)
    ensures ArgsHeard(evs, id) == FoldArgs(ArgsHeard(evs[..n], id), evs[n..], id)
    decreases |evs| - n
  {
    if n == |evs| {
      assert evs[..n] == evs;
    } else {
      var p := evs[..|evs| - 1];
      HeardSplits(p, n, id);
      assert p[..n] == evs[..n] && evs[n..][..|evs| - n - 1] == p[n..];
    }
  }

  /** Behind the end of a call's round it is not declared again. */
  lemma {:induction false} NoDeclarationBehind(evs: seq<Event>, id: string)
    requires Distinct(Declared(evs)) && id in Declared(evs)
    ensures forall j :: HeldUntil(evs, id) <= j < |evs| ==> !(evs[j].ToolCallDecl? && evs[j].id == id)
  {
    var p, e := evs[..|evs| - 1], evs[|evs| - 1];
    if !(e.ToolCallDecl? && e.id == id) && id !in OpenIds(p) {
      DistinctPrefix(evs);
      NoDeclarationBehind(p, id);
      assert forall j :: 0 <= j < |p| ==> evs[j] == p[j];
    }
  }

  /** Arguments that came after the round had closed. */
  function LateEvents(evs: seq<Event>, id: string): seq<Event> { evs[HeldUntil(evs, id)..] }

  /**
    A stored call holds everything that was heard for it if and only if the argument
    events behind the end of its round, taken together, change nothing.
  */
  lemma KeptIsHeardIff(evs: seq<Event>, id: string)
    requires Distinct(Declared(evs)) && id in Declared(evs)
    ensures ArgsKept(evs, id) == ArgsHeard(evs, id) <==>
      FoldArgs(ArgsKept(evs, id), LateEvents(evs, id), id) == ArgsKept(evs, id)
  {
    NoDeclarationBehind(evs, id);
    HeardSplits(evs, HeldUntil(evs, id), id);
  }

  /** An event that would change arguments by itself: a delta with text. */
  predicate LateDelta(e: Event, id: string) {
    e.ToolCallUpdate? && !IsTerminal(e.status) && e.id == id && e.content != ""
  }

  lemma {:induction false} DeltasOnlyGrow(args: string, es: seq<Event>, id: string)
    requires forall j :: 0 <= j < |es| ==> !(es[j].ArgsSnapshot? && es[j].id == id)
    ensures |FoldArgs(args, es, id)| >= |args|
    ensures FoldArgs(args, es, id) == args <==> forall j :: 0 <= j < |es| ==> !LateDelta(es[j], id)
  {
    if es != [] {
      var n := |es| - 1;
      assert forall j :: 0 <= j < n ==> es[..n][j] == es[j];
      DeltasOnlyGrow(args, es[..n], id);
      assert FoldArgs(args, es[..n], id) + "" == FoldArgs(args, es[..n], id);
    }
  }

  /** Without a late snapshot, nothing is lost if and only if no delta with text came late. */
  lemma KeptIsHeardIffNoLateDelta(evs: seq<Event>, id: string)
    requires Distinct(Declared(evs)) && id in Declared(evs)
    requires forall j :: 0 <= j < |LateEvents(evs, id)| ==>
               !(LateEvents(evs, id)[j].ArgsSnapshot? && LateEvents(evs, id)[j].id == id)
    ensures ArgsKept(evs, id) == ArgsHeard(evs, id) <==>
      forall j :: 0 <= j < |LateEvents(evs, id)| ==> !LateDelta(LateEvents(evs, id)[j], id)
  {
    KeptIsHeardIff(evs, id);
    DeltasOnlyGrow(ArgsKept(evs, id), LateEvents(evs, id), id);
  }

  // --------------------------------------------------------------------- the page

  /** The arguments that the page shows for a call. */
  function Shown(out: seq<Effect>, id: string): string {
    if out == [] then ""
    else
      var front, f := Shown(out[..|out| - 1], id), out[|out| - 1];
      if f.UI? && f.ev.ToolStart? && f.ev.id == id then ""
      else if f.UI? && f.ev.ToolArgs? && f.ev.id == id then (if f.ev.replace then f.ev.args else front + f.ev.args)
      else front
  }

  predicate NoArgs(f: Effect) { !(f.UI? && (f.ev.ToolStart? || f.ev.ToolArgs?)) }

  /** The new output is the old one and effects that show no arguments. */
  ghost predicate QuietOutput(a: seq<Effect>, b: seq<Effect>) {
    |a| <= |b| && b[..|a|] == a && forall j :: |a| <= j < |b| ==> NoArgs(b[j])
  }

  lemma {:induction false} QuietShows(a: seq<Effect>, b: seq<Effect>, id: string)
    requires QuietOutput(a, b)
    ensures Shown(b, id) == Shown(a, id)
    decreases |b|
  {
    if |a| < |b| {
      QuietShows(a, b[..|b| - 1], id);
      assert NoArgs(b[|b| - 1]);
    } else {
      assert a == b;
    }
  }

  lemma FlushOutput(s: State, reason: Reason)
    ensures QuietOutput(s.out, FlushRound(s, reason).out)
  {
  }

  lemma SupersedeOutput(s: State, at: int)
    ensures QuietOutput(s.out, SupersedeRound(s, at).out)
  {
    if |s.calls| > 0 {
      var t := RememberSuperseded(StampPending(s, at));
      FlushOutput(t, Superseded);
      hide FlushRound;
    }
  }

  lemma MessageOutput(s: State, text: string, at: int)
    ensures QuietOutput(s.out, OnMessageChunk(s, text, at).out)
  {
    SupersedeOutput(s, at);
    hide SupersedeRound;
  }

  lemma ThoughtOutput(s: State, text: string, at: int)
    ensures QuietOutput(s.out, OnThoughtChunk(s, text, at).out)
  {
    SupersedeOutput(s, at);
    hide SupersedeRound;
  }

  lemma AcceptOutput(s: State, id: string, content: string, status: Status, at: int)
    ensures QuietOutput(s.out, AcceptTerminal(s, id, content, status, at).out)
  {
    var t := s.(results := s.results + [RealResult(s, id, content, status, at)], finishedAt := s.finishedAt[id := at]);
    FlushOutput(t, Interrupted);
    hide FlushRound, RealResult;
  }

  lemma LateOutput(s: State, id: string, content: string, status: Status, at: int)
    requires id in s.superseded
    ensures QuietOutput(s.out, LateTerminal(s, id, content, status, at).out)
  {
    hide StitchIndex, StitchedRow;
  }

  lemma TerminalOutput(s: State, e: Event)
    requires e.ToolCallUpdate? && IsTerminal(e.status)
    ensures QuietOutput(s.out, Step(s, e).out)
  {
    hide AcceptTerminal, LateTerminal;
    AcceptOutput(s, e.id, e.content, e.status, e.at);
    if e.id in s.superseded {
      LateOutput(s, e.id, e.content, e.status, e.at);
    }
  }

  lemma ArgsShow(s: State, other: string, text: string, replace: bool, id: string)
    requires s.handler
    ensures Shown(OnToolCallArgs(s, other, text, replace).out, id) ==
      if (text == "" && !replace) || other != id then Shown(s.out, id)
      else if replace then text
      else Shown(s.out, id) + text
  {
    var u := OnToolCallArgs(s, other, text, replace);
    if text != "" || replace {
      assert u.out[..|s.out|] == s.out;
    }
  }

  lemma DeclarationShows(s: State, e: Event, id: string)
    requires s.handler && e.ToolCallDecl?
    ensures Shown(Step(s, e).out, id) == if e.id == id then "" else Shown(s.out, id)
  {
    var u := Step(s, e);
    var front := u.out[..|u.out| - 1];
    assert QuietOutput(s.out, front);
    QuietShows(s.out, front, id);
  }

  lemma StepShows(s: State, e: Event, id: string)
    requires s.handler
    ensures Shown(Step(s, e).out, id) ==
      if e.ToolCallDecl? && e.id == id then "" else ApplyArgs(Shown(s.out, id), e, id)
  {
    hide OnMessageChunk, OnThoughtChunk, OnTerminal;
    match e
    case MessageChunk(text, at) =>
      MessageOutput(s, text, at);
      QuietShows(s.out, Step(s, e).out, id);
    case ThoughtChunk(text, at) =>
      ThoughtOutput(s, text, at);
      QuietShows(s.out, Step(s, e).out, id);
    case ToolCallUpdate(_, content, status, _) =>
      if IsTerminal(status) {
        TerminalOutput(s, e);
        QuietShows(s.out, Step(s, e).out, id);
      } else {
        ArgsShow(s, e.id, content, false, id);
        assert Shown(s.out, id) + "" == Shown(s.out, id);
      }
    case ArgsSnapshot(other, args) => ArgsShow(s, other, args, true, id);
    case ToolCallDecl(_, _, _) => DeclarationShows(s, e, id);
    case TokenUsage(_) => QuietShows(s.out, Step(s, e).out, id);
  }

  /** The page shows everything heard for a call, however late it came. */
  lemma {:induction false} PageShowsAllArgs(evs: seq<Event>, id: string)
    requires Distinct(Declared(evs))
    ensures Shown(Run(evs).out, id) == ArgsHeard(evs, id)
  {
    if evs != [] {
      var p := evs[..|evs| - 1];
      DistinctPrefix(evs);
      PageShowsAllArgs(p, id);
      RunInv(p);
      hide Inv, Step, Declared;
      StepShows(Run(p), evs[|evs| - 1], id);
    }
  }

  // ---------------------------------------------------------------------- the loss

  const LOST: seq<Event> := [ToolCallDecl("t", "tool", 1), MessageChunk("m", 2),
                             ToolCallUpdate("t", "{}", InProgress, 3)]

  lemma StepIsChunk(s: State, e: Event)
    requires e.MessageChunk?
    ensures Step(s, e) == OnMessageChunk(s, e.text, e.at)
  {
  }

  lemma DeltaKeepsRows(s: State, e: Event)
    requires e.ToolCallUpdate? && !IsTerminal(e.status)
    ensures Step(s, e).completed == s.completed
  {
  }

  lemma SupersededFirst(s: State, text: string, at: int)
    requires s.handler && s.calls != [] && s.completed == []
    ensures OnMessageChunk(s, text, at).completed != [] && OnMessageChunk(s, text, at).completed[0].toolCalls == s.calls
  {
    ChunkCore(s, text, at);
    var t := RememberSuperseded(StampPending(s, at));
    assert !NothingToFlush(t) && RoundRows(t, Superseded)[0].toolCalls == s.calls;
    hide RoundRows;
    assert SupersedeRound(s, at).completed == [] + RoundRows(t, Superseded);
  }

  lemma LostRun()
    ensures Run(LOST).completed != [] && Run(LOST).completed[0].toolCalls == [ToolCall("t", "tool", "")]
  {
    var e1, e2, e3 := LOST[0], LOST[1], LOST[2];
    var s0 := Fresh(true, true, true);
    assert LOST[..2] == [e1, e2] && [e1, e2][..1] == [e1] && [e1][..0] == [];
    assert Run([]) == s0 && Run([e1]) == Step(s0, e1);
    assert Run([e1, e2]) == Step(Run([e1]), e2) && Run(LOST) == Step(Run([e1, e2]), e3);
    hide Run, SupersedeRound, SetArgs;
    var s1 := Step(s0, e1);
    DeclareCore(s0, e1);
    hide Step, OnMessageChunk;
    SupersededFirst(s1, "m", 2);
    StepIsChunk(s1, e2);
    DeltaKeepsRows(Run([e1, e2]), e3);
    assert s0.handler && s0.completed == [] && s0.calls == [];
  }

  /**
    Arguments can be lost: a text chunk closes the round, and the delta that follows
    reaches the page but neither the transcript nor the file.
  */
  lemma LateArgumentsAreLost()
    ensures Distinct(Declared(LOST)) && Shown(Run(LOST).out, "t") == "{}" == ArgsHeard(LOST, "t")
    ensures ArgsKept(LOST, "t") == ""
    ensures Run(LOST).completed != [] && Run(LOST).completed[0].toolCalls == [ToolCall("t", "tool", "")]
  {
    var e1, e2, e3 := LOST[0], LOST[1], LOST[2];
    assert LOST[..2] == [e1, e2] && [e1, e2][..1] == [e1] && [e1][..0] == [];
    assert Declared([]) == [] && Declared([e1]) == ["t"] && Declared([e1, e2]) == ["t"] && Declared(LOST) == ["t"];
    assert OpenIds([]) == [] && OpenIds([e1]) == ["t"] && OpenIds([e1, e2]) == [];
    assert HeldUntil([e1, e2], "t") == 2 && HeldUntil(LOST, "t") == 2;
    assert ArgsHeard([e1], "t") == "" && ArgsHeard([e1, e2], "t") == "" && ArgsHeard(LOST, "t") == "" + "{}" == "{}";
    hide Run, OpenIds, HeldUntil, Shown;
    PageShowsAllArgs(LOST, "t");
    LostRun();
  }
}
