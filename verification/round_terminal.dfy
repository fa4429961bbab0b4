/**
  Terminals keep the invariant: an accepted one and the flush it may trigger, a late
  one that is stitched into its stored row, and one that is dropped.
*/
module RoundTerminal {
  import opened Wrappers
  import opened Messages
  import opened RoundModel
  import opened RoundDeclare
  import opened RoundInvariant

  // --------------------------------------------------------------- terminals

  lemma TerminalAnswers(p: seq<Event>, evs: seq<Event>)
    requires evs != [] && p == evs[..|evs| - 1] && evs[|evs| - 1].ToolCallUpdate?
    ensures Declared(evs) == Declared(p)
    ensures forall id :: id != evs[|evs| - 1].id ==> Answer(evs, id) == Answer(p, id)
    ensures var e := evs[|evs| - 1];
      Answer(evs, e.id) ==
      if Answer(p, e.id).None? && IsTerminal(e.status) && e.id in Declared(p)
      then Some(ResultText(e.content, e.status)) else Answer(p, e.id)
  {
  }

  lemma {:induction false} DistinctCount(s: seq<string>)
    ensures |set x | x in s| <= |s|
    ensures Distinct(s) ==> |set x | x in s| == |s|
  {
    if s != [] {
      var f, l := s[..|s| - 1], s[|s| - 1];
      DistinctCount(f);
      assert (set x | x in s) == (set x | x in f) + {l};
    }
  }

  lemma SubsetCard(a: set<string>, b: set<string>)
    requires a < b
    ensures |a| < |b|
  {
    assert b == a + (b - a);
    assert |b - a| > 0 by {
      var x :| x in b && x !in a;
      assert x in b - a;
    }
  }

  /** n distinct results among at most n declared calls answer every call. */
  lemma Pigeonhole(a: seq<string>, b: seq<string>, id: string)
    requires Distinct(a) && (forall x :: x in a ==> x in b) && |a| >= |b|
    requires id in b
    ensures id in a
  {
    DistinctCount(a);
    DistinctCount(b);
    var sa, sb := set x | x in a, set x | x in b;
    if id !in a {
      assert forall x :: x in sa ==> x in sb;
      assert id in sb && id !in sa;
      SubsetCard(sa, sb);
    }
  }

  /** Results after a terminal of an open, unanswered call. */
  lemma AddResultKeepsResults(s: State, t: State, r: Message, p: seq<Event>, evs: seq<Event>)
    requires ResultsInv(s, p)
    requires t.calls == s.calls && t.results == s.results + [r]
    requires r.role == Tool && !r.extra.placeholder && r.toolCallID in CallIds(s.calls)
    requires r.toolCallID !in ResultIds(s.results)
    requires Answer(evs, r.toolCallID) == Some(r.content)
    requires forall id :: id != r.toolCallID ==> Answer(evs, id) == Answer(p, id)
    ensures ResultsInv(t, evs)
  {
    hide Answer;
    assert ResultIds(t.results) == ResultIds(s.results) + [r.toolCallID];
    forall i | 0 <= i < |t.results| ensures ResultOK(t.results[i], t, evs) {
      if i < |s.results| {
        assert ResultOK(s.results[i], s, p);
        assert s.results[i].toolCallID == ResultIds(s.results)[i];
      }
    }
  }

  /** A closed row keeps its reading when another id is answered. */
  lemma OtherRowsKept(s: State, t: State, id: string, p: seq<Event>, evs: seq<Event>)
    requires RowsInv(s, p) && t.completed == s.completed
    requires id !in ToolIds(s.completed)
    requires forall x :: x != id ==> Answer(evs, x) == Answer(p, x)
    ensures RowsInv(t, evs)
  {
    hide Answer;
    forall i | 0 <= i < |t.completed| && t.completed[i].role == Tool ensures RowOK(t.completed[i], evs) {
      ToolIdsMember(s.completed, i);
      assert RowOK(s.completed[i], p);
    }
  }

  lemma OpenIdIsNotClosed(s: State, evs: seq<Event>, id: string)
    requires IdsInv(s, evs) && Distinct(Declared(evs)) && id in CallIds(s.calls)
    ensures id !in ToolIds(s.completed) && id in Declared(evs)
  {
    var a, b := ToolIds(s.completed), CallIds(s.calls);
    var k :| 0 <= k < |b| && b[k] == id;
    assert Declared(evs)[|a| + k] == id;
    assert forall j :: 0 <= j < |a| ==> Declared(evs)[j] == a[j];
  }

  lemma AcceptBeforeFlush(s: State, t: State, r: Message, p: seq<Event>, evs: seq<Event>)
    requires Inv(s, p) && Distinct(Declared(p)) && Declared(evs) == Declared(p)
    requires t.calls == s.calls && t.results == s.results + [r]
    requires t.completed == s.completed && t.superseded == s.superseded
    requires r.role == Tool && !r.extra.placeholder && r.toolCallID in CallIds(s.calls)
    requires r.toolCallID !in ResultIds(s.results)
    requires Answer(evs, r.toolCallID) == Some(r.content)
    requires forall id :: id != r.toolCallID ==> Answer(evs, id) == Answer(p, id)
    ensures IdsInv(t, evs) && ResultsInv(t, evs) && RowsInv(t, evs) && SupersededInv(t, evs) && IsHistory(t.completed)
    ensures |t.results| <= |t.calls| && t.calls != []
  {
    hide Answer, Declared, ToolIds, IsHistory;
    OpenIdIsNotClosed(s, p, r.toolCallID);
    AddResultKeepsResults(s, t, r, p, evs);
    OtherRowsKept(s, t, r.toolCallID, p, evs);
  }

  lemma FullRoundIsAnswered(t: State, evs: seq<Event>)
    requires ResultsInv(t, evs) && |t.results| >= |t.calls|
    ensures forall i :: 0 <= i < |t.calls| ==>
      t.calls[i].id in ResultIds(t.results) && Answer(evs, t.calls[i].id).Some?
  {
    forall x | x in ResultIds(t.results) ensures x in CallIds(t.calls) {
      var k :| 0 <= k < |t.results| && ResultIds(t.results)[k] == x;
      assert ResultOK(t.results[k], t, evs);
    }
    forall i | 0 <= i < |t.calls|
      ensures t.calls[i].id in ResultIds(t.results) && Answer(evs, t.calls[i].id).Some?
    {
      assert CallIds(t.calls)[i] == t.calls[i].id;
      Pigeonhole(ResultIds(t.results), CallIds(t.calls), t.calls[i].id);
      var k :| 0 <= k < |t.results| && ResultIds(t.results)[k] == t.calls[i].id;
      assert ResultOK(t.results[k], t, evs);
    }
  }

  /** The flush that the last terminal triggers holds real results only. */
  lemma TerminalFlushHasNoPlaceholder(t: State, evs: seq<Event>, reason: Reason)
    requires ResultsInv(t, evs) && t.calls != [] && |t.results| >= |t.calls|
    ensures var rows := RoundRows(t, reason);
      |rows| == 1 + |t.calls| && forall i :: 1 <= i < |rows| ==>
        !rows[i].extra.placeholder && rows[i].toolCallID == t.calls[i - 1].id &&
        Answer(evs, t.calls[i - 1].id) == Some(rows[i].content)
  {
    FullRoundIsAnswered(t, evs);
    FlushedRoundShape(t, evs, reason);
    forall i | 0 <= i < |t.calls|
      ensures !RoundRows(t, reason)[i + 1].extra.placeholder
      ensures RoundRows(t, reason)[i + 1].toolCallID == t.calls[i].id
      ensures Answer(evs, t.calls[i].id) == Some(RoundRows(t, reason)[i + 1].content)
    {
      assert RoundRows(t, reason)[i + 1] == OrderedRow(t.calls[i].id, t, reason);
      OrderedRowContent(t, evs, reason, i);
    }
  }

  lemma FlushLeavesSuperseded(t: State)
    ensures FlushRound(t, Interrupted).superseded == t.superseded
  {
  }

  lemma FullFlushKeepsInv(t: State, evs: seq<Event>)
    requires IdsInv(t, evs) && ResultsInv(t, evs) && RowsInv(t, evs) && SupersededInv(t, evs) && IsHistory(t.completed)
    requires |t.results| >= |t.calls| && t.calls != []
    ensures Inv(FlushRound(t, Interrupted), evs)
  {
    hide FlushedRows, Answer, Declared, ToolIds, IsHistory, RowsInv, ResultsInv;
    FullRoundIsAnswered(t, evs);
    FlushKeepsIds(t, evs, Interrupted);
    FlushKeepsRows(t, evs, Interrupted);
    FlushLeavesSuperseded(t);
    hide FlushRound;
    var f := FlushRound(t, Interrupted);
    forall id
      ensures id in f.superseded <==> id in ToolIds(f.completed) && Answer(evs, id).None?
    {
      assert ToolIds(f.completed) == ToolIds(t.completed) + CallIds(t.calls);
      if id in CallIds(t.calls) {
        var k :| 0 <= k < |t.calls| && CallIds(t.calls)[k] == id;
        assert t.calls[k].id == id;
      }
    }
  }

  lemma {:induction false} StitchFindsRow(ms: seq<Message>, i: nat, id: string)
    requires Distinct(ToolIds(ms)) && i < |ms| && IsPlaceholderTool(ms[i]) && ms[i].toolCallID == id
    ensures StitchIndex(ms, id) == Some(i)
  {
    var n := |ms| - 1;
    if i < n {
      if ms[n].role == Tool {
        ToolRowUnique(ms, i, n);
      }
      assert ms == ms[..n] + [ms[n]];
      ToolIdsConcat(ms[..n], [ms[n]]);
      assert forall k :: 0 <= k < |ToolIds(ms[..n])| ==> ToolIds(ms)[k] == ToolIds(ms[..n])[k];
      StitchFindsRow(ms[..n], i, id);
    }
  }

  lemma LateRow(s: State, evs: seq<Event>, id: string) returns (i: nat)
    requires Inv(s, evs) && Distinct(Declared(evs)) && id in s.superseded
    ensures i < |s.completed| && IsPlaceholderTool(s.completed[i]) && s.completed[i].toolCallID == id
    ensures StitchIndex(s.completed, id) == Some(i)
    ensures Distinct(ToolIds(s.completed)) && id in Declared(evs) && Answer(evs, id).None?
  {
    i := ToolIdsWitness(s.completed, id);
    assert RowOK(s.completed[i], evs);
    assert forall k :: 0 <= k < |ToolIds(s.completed)| ==> Declared(evs)[k] == ToolIds(s.completed)[k];
    StitchFindsRow(s.completed, i, id);
  }

  /** Replacing the one placeholder of an id by its answer. */
  lemma StitchKeepsInv(s: State, t: State, i: nat, r: Message, p: seq<Event>, evs: seq<Event>)
    requires Inv(s, p) && Distinct(ToolIds(s.completed)) && Declared(evs) == Declared(p)
    requires i < |s.completed| && IsPlaceholderTool(s.completed[i]) && s.completed[i].toolCallID == r.toolCallID
    requires r.role == Tool && !r.extra.placeholder && Answer(evs, r.toolCallID) == Some(r.content)
    requires r.toolCallID !in CallIds(s.calls)
    requires forall id :: id != r.toolCallID ==> Answer(evs, id) == Answer(p, id)
    requires t.calls == s.calls && t.results == s.results
    requires t.completed == s.completed[i := r] && t.superseded == s.superseded - {r.toolCallID}
    ensures Inv(t, evs)
  {
    hide Answer, Declared, IsHistory;
    ToolIdsReplace(s.completed, i, r);
    HistoryReplace(s.completed, i, r);
    forall k | 0 <= k < |t.completed| && t.completed[k].role == Tool ensures RowOK(t.completed[k], evs) {
      if k != i {
        ToolRowUnique(s.completed, k, i);
        assert RowOK(s.completed[k], p);
      }
    }
    forall k | 0 <= k < |t.results| ensures ResultOK(t.results[k], t, evs) {
      assert ResultOK(s.results[k], s, p);
    }
    forall k | 0 <= k < |t.calls| && Answer(evs, t.calls[k].id).Some? ensures t.calls[k].id in ResultIds(t.results) {
      assert CallIds(s.calls)[k] == s.calls[k].id;
    }
  }

  lemma LateKeepsInv(s: State, p: seq<Event>, evs: seq<Event>)
    requires evs != [] && p == evs[..|evs| - 1] && evs[|evs| - 1].ToolCallUpdate? && IsTerminal(evs[|evs| - 1].status)
    requires Inv(s, p) && Distinct(Declared(p)) && s.handler
    requires evs[|evs| - 1].id in s.superseded && evs[|evs| - 1].id !in CallIds(s.calls)
    ensures Inv(Step(s, evs[|evs| - 1]), evs)
  {
    var e := evs[|evs| - 1];
    TerminalAnswers(p, evs);
    var i := LateRow(s, p, e.id);
    StitchKeepsInv(s, Step(s, e), i, StitchedRow(s, e.id, e.content, e.status, e.at), p, evs);
  }

  lemma AcceptCore(s: State, id: string, content: string, status: Status, at: int) returns (t: State)
    ensures t == s.(results := s.results + [RealResult(s, id, content, status, at)],
                    finishedAt := s.finishedAt[id := at])
    ensures var u := AcceptTerminal(s, id, content, status, at);
      var f := if |t.results| >= |t.calls| then FlushRound(t, Interrupted) else t;
      SameCore(f, u) && u.superseded == f.superseded
  {
    t := s.(results := s.results + [RealResult(s, id, content, status, at)], finishedAt := s.finishedAt[id := at]);
    hide FlushRound;
  }

  lemma UnansweredPending(s: State, evs: seq<Event>, id: string)
    requires ResultsInv(s, evs) && id in CallIds(s.calls) && id !in ResultIds(s.results)
    ensures Answer(evs, id).None?
  {
    PendingMembers(s.calls, s.results, id);
    PendingAreUnanswered(s, evs, id);
  }

  lemma AcceptKeepsInv(s: State, p: seq<Event>, evs: seq<Event>)
    requires evs != [] && p == evs[..|evs| - 1] && evs[|evs| - 1].ToolCallUpdate? && IsTerminal(evs[|evs| - 1].status)
    requires Inv(s, p) && Distinct(Declared(p))
    requires evs[|evs| - 1].id in CallIds(s.calls) && evs[|evs| - 1].id !in ResultIds(s.results)
    ensures var e := evs[|evs| - 1]; Inv(AcceptTerminal(s, e.id, e.content, e.status, e.at), evs)
  {
    var e := evs[|evs| - 1];
    TerminalAnswers(p, evs);
    OpenIdIsNotClosed(s, p, e.id);
    UnansweredPending(s, p, e.id);
    var t := AcceptCore(s, e.id, e.content, e.status, e.at);
    AcceptBeforeFlush(s, t, RealResult(s, e.id, e.content, e.status, e.at), p, evs);
    if |t.results| >= |t.calls| {
      FullFlushKeepsInv(t, evs);
      SameCoreKeepsInv(FlushRound(t, Interrupted), AcceptTerminal(s, e.id, e.content, e.status, e.at), evs);
    } else {
      SameCoreKeepsInv(t, AcceptTerminal(s, e.id, e.content, e.status, e.at), evs);
    }
  }

  /** In the builder's state: a call is open without a result, or superseded, iff the stream has not answered it. */
  lemma AwaitedInState(s: State, evs: seq<Event>, id: string)
    requires Inv(s, evs) && Distinct(Declared(evs))
    ensures id in Declared(evs) && Answer(evs, id).None? <==>
      if id in CallIds(s.calls) then id !in ResultIds(s.results) else id in s.superseded
  {
    PendingAreUnanswered(s, evs, id);
    PendingMembers(s.calls, s.results, id);
    var a, b := ToolIds(s.completed), CallIds(s.calls);
    if id in b {
      OpenIdIsNotClosed(s, evs, id);
    }
    assert forall k :: 0 <= k < |a| ==> Declared(evs)[k] == a[k];
    assert id in Declared(evs) <==> id in a || id in b;
  }

  lemma UnawaitedStep(s: State, e: Event)
    requires e.ToolCallUpdate? && IsTerminal(e.status)
    requires if e.id in CallIds(s.calls) then e.id in ResultIds(s.results) else e.id !in s.superseded
    ensures Step(s, e) == s
  {
  }

  lemma AcceptEmits(s: State, id: string, content: string, status: Status, at: int)
    ensures |AcceptTerminal(s, id, content, status, at).out| > |s.out|
  {
  }

  lemma LateEmits(s: State, id: string, content: string, status: Status, at: int)
    requires id in s.superseded && s.handler
    ensures |LateTerminal(s, id, content, status, at).out| > |s.out|
  {
    hide StitchedRow, StitchIndex;
  }

  /** An awaited terminal is always shown on the page. */
  lemma AwaitedStep(s: State, e: Event)
    requires e.ToolCallUpdate? && IsTerminal(e.status) && s.handler
    requires if e.id in CallIds(s.calls) then e.id !in ResultIds(s.results) else e.id in s.superseded
    ensures Step(s, e).out != s.out
  {
    if e.id in CallIds(s.calls) {
      AcceptEmits(s, e.id, e.content, e.status, e.at);
    } else {
      LateEmits(s, e.id, e.content, e.status, e.at);
    }
  }

  /**
    A terminal changes nothing if and only if it is undeclared, early or a duplicate:
    its id was not declared before it, or the id already has its answer. Then every
    answer stays what it was.
  */
  lemma DroppedTerminal(s: State, p: seq<Event>, evs: seq<Event>)
    requires evs != [] && p == evs[..|evs| - 1] && evs[|evs| - 1].ToolCallUpdate? && IsTerminal(evs[|evs| - 1].status)
    requires Inv(s, p) && Distinct(Declared(p)) && s.handler
    ensures var id := evs[|evs| - 1].id;
      Step(s, evs[|evs| - 1]) == s <==> id !in Declared(p) || Answer(p, id).Some?
    ensures Step(s, evs[|evs| - 1]) == s ==> forall id :: Answer(evs, id) == Answer(p, id)
  {
    var e := evs[|evs| - 1];
    TerminalAnswers(p, evs);
    hide Step, Inv, Answer, Declared;
    AwaitedInState(s, p, e.id);
    if e.id in Declared(p) && Answer(p, e.id).None? {
      AwaitedStep(s, e);
    } else {
      UnawaitedStep(s, e);
    }
  }

  lemma TerminalKeepsInv(s: State, p: seq<Event>, evs: seq<Event>)
    requires evs != [] && p == evs[..|evs| - 1] && evs[|evs| - 1].ToolCallUpdate? && IsTerminal(evs[|evs| - 1].status)
    requires Inv(s, p) && Distinct(Declared(p)) && s.handler
    ensures Inv(Step(s, evs[|evs| - 1]), evs)
  {
    hide Inv, Answer, Declared, AcceptTerminal, LateTerminal;
    var e := evs[|evs| - 1];
    if e.id in CallIds(s.calls) && e.id !in ResultIds(s.results) {
      AcceptKeepsInv(s, p, evs);
    } else if e.id !in CallIds(s.calls) && e.id in s.superseded {
      LateKeepsInv(s, p, evs);
    } else {
      DroppedTerminal(s, p, evs);
      TerminalAnswers(p, evs);
      SameReadingKeepsInv(s, p, evs);
    }
  }
}
