/**
  A declaration keeps the invariant: the new call has no answer yet, and every other
  reading of the stream stays.
*/
module RoundDeclare {
  import opened Wrappers
  import opened Messages
  import opened RoundModel
  import opened RoundInvariant

  lemma FreshIdHasNoAnswer(p: seq<Event>, evs: seq<Event>)
    requires evs != [] && p == evs[..|evs| - 1] && evs[|evs| - 1].ToolCallDecl?
    requires Distinct(Declared(evs))
    ensures Declared(evs) == Declared(p) + [evs[|evs| - 1].id]
    ensures evs[|evs| - 1].id !in Declared(p) && Answer(evs, evs[|evs| - 1].id).None?
  {
    var id := evs[|evs| - 1].id;
    assert id !in Declared(p) by {
      assert forall k :: 0 <= k < |Declared(p)| ==> Declared(evs)[k] == Declared(p)[k] != Declared(evs)[|Declared(p)|];
    }
    if Answer(p, id).Some? {
      AnswerOnlyIfDeclared(p, id);
    }
  }

  lemma SameAnswers(p: seq<Event>, evs: seq<Event>)
    requires evs != [] && p == evs[..|evs| - 1] && !evs[|evs| - 1].ToolCallUpdate?
    ensures forall id :: Answer(evs, id) == Answer(p, id)
  {
  }

  lemma DeclareCore(s: State, e: Event)
    requires e.ToolCallDecl? && s.handler
    ensures var t := Step(s, e);
      && t.calls == s.calls + [ToolCall(e.id, e.title, "")]
      && t.results == s.results && t.completed == s.completed && t.superseded == s.superseded
  {
  }

  lemma AddCallKeepsInv(s: State, t: State, c: ToolCall, p: seq<Event>, evs: seq<Event>)
    requires Inv(s, p)
    requires t.calls == s.calls + [c] && t.results == s.results
    requires t.completed == s.completed && t.superseded == s.superseded
    requires Declared(evs) == Declared(p) + [c.id] && Answer(evs, c.id).None?
    requires forall id :: Answer(evs, id) == Answer(p, id)
    ensures Inv(t, evs)
  {
    hide Answer, Declared, ToolIds, IsHistory;
    assert CallIds(t.calls) == CallIds(s.calls) + [c.id];
    assert IdsInv(t, evs);
    forall i | 0 <= i < |t.results| ensures ResultOK(t.results[i], t, evs) {
      assert ResultOK(s.results[i], s, p);
    }
    forall i | 0 <= i < |t.completed| && t.completed[i].role == Tool ensures RowOK(t.completed[i], evs) {
      assert RowOK(s.completed[i], p);
    }
  }

  lemma DeclareKeepsInv(s: State, p: seq<Event>, evs: seq<Event>)
    requires evs != [] && p == evs[..|evs| - 1] && evs[|evs| - 1].ToolCallDecl?
    requires Inv(s, p) && Distinct(Declared(evs)) && s.handler
    ensures Inv(Step(s, evs[|evs| - 1]), evs)
  {
    var e := evs[|evs| - 1];
    FreshIdHasNoAnswer(p, evs);
    SameAnswers(p, evs);
    DeclareCore(s, e);
    hide Step, Inv, Answer, Declared;
    AddCallKeepsInv(s, Step(s, e), ToolCall(e.id, e.title, ""), p, evs);
  }

  lemma DistinctPrefix(evs: seq<Event>)
    requires evs != [] && Distinct(Declared(evs))
    ensures Distinct(Declared(evs[..|evs| - 1]))
  {
    var p := evs[..|evs| - 1];
    assert forall k :: 0 <= k < |Declared(p)| ==> Declared(evs)[k] == Declared(p)[k];
  }
}
