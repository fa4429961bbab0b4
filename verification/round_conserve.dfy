/**
  Conservation: the completed rounds plus what is still accumulating hold
  exactly the text, the reasoning and the tool calls received, in order.
*/
module RoundConserve {
  import opened Wrappers
  import opened Messages
  import opened RoundModel
  import opened RoundDeclare
  import opened RoundInvariant
  import opened RoundTerminal
  import opened RoundTranscript

  // ------------------------------------------------------------- conservation

  /** What was said: text, reasoning, and the declared calls. */
  datatype Heard = Heard(text: string, thought: string, calls: seq<(string, string)>)

  function Plus(a: Heard, b: Heard): Heard {
    Heard(a.text + b.text, a.thought + b.thought, a.calls + b.calls)
  }

  function CallPairs(calls: seq<ToolCall>): (r: seq<(string, string)>)
    ensures |r| == |calls|
  {
    seq(|calls|, i requires 0 <= i < |calls| => (calls[i].id, calls[i].name))
  }

  function Said(ms: seq<Message>): Heard {
    if ms == [] then Heard("", "", [])
    else if ms[0].role == Assistant then
      Plus(Heard(ms[0].content, ms[0].reasoning, CallPairs(ms[0].toolCalls)), Said(ms[1..]))
    else Said(ms[1..])
  }

  function Open(s: State): Heard {
    Heard(Join(s.messageParts), Join(s.thoughtParts), CallPairs(s.calls))
  }

  function EventHeard(e: Event): Heard {
    match e
    case MessageChunk(text, _) => Heard(text, "", [])
    case ThoughtChunk(text, _) => Heard("", text, [])
    case ToolCallDecl(id, title, _) => Heard("", "", [(id, title)])
    case _ => Heard("", "", [])
  }

  function Received(evs: seq<Event>): Heard {
    if evs == [] then Heard("", "", []) else Plus(Received(evs[..|evs| - 1]), EventHeard(evs[|evs| - 1]))
  }

  lemma PlusAssoc(a: Heard, b: Heard, c: Heard)
    ensures Plus(Plus(a, b), c) == Plus(a, Plus(b, c))
    ensures Plus(a, Heard("", "", [])) == a == Plus(Heard("", "", []), a)
  {
    assert (a.text + b.text) + c.text == a.text + (b.text + c.text);
    assert (a.thought + b.thought) + c.thought == a.thought + (b.thought + c.thought);
    assert (a.calls + b.calls) + c.calls == a.calls + (b.calls + c.calls);
  }

  lemma {:induction false} SaidConcat(a: seq<Message>, b: seq<Message>)
    ensures Said(a + b) == Plus(Said(a), Said(b))
  {
    if a == [] {
      assert a + b == b;
      PlusAssoc(Said(b), Said(b), Said(b));
    } else {
      assert (a + b)[1..] == a[1..] + b;
      SaidConcat(a[1..], b);
      PlusAssoc(Heard(a[0].content, a[0].reasoning, CallPairs(a[0].toolCalls)), Said(a[1..]), Said(b));
    }
  }

  lemma {:induction false} SaidOfToolRows(ms: seq<Message>)
    requires forall i :: 0 <= i < |ms| ==> ms[i].role == Tool
    ensures Said(ms) == Heard("", "", [])
  {
    if ms != [] {
      SaidOfToolRows(ms[1..]);
    }
  }

  lemma {:induction false} SaidReplace(ms: seq<Message>, i: nat, r: Message)
    requires i < |ms| && ms[i].role == Tool && r.role == Tool
    ensures Said(ms[i := r]) == Said(ms)
  {
    if i == 0 {
      assert ms[i := r][1..] == ms[1..];
    } else {
      assert ms[i := r][1..] == ms[1..][i - 1 := r];
      SaidReplace(ms[1..], i - 1, r);
    }
  }

  function Total(s: State): Heard { Plus(Said(s.completed), Open(s)) }

  lemma FlushConserves(s: State, evs: seq<Event>, reason: Reason)
    requires ResultsInv(s, evs) && (s.calls == [] ==> s.results == [])
    ensures Total(FlushRound(s, reason)) == Total(s)
  {
    var none := Heard("", "", []);
    PlusAssoc(Said(s.completed), Open(s), none);
    if !NothingToFlush(s) {
      var rows := RoundRows(s, reason);
      FlushedRoundShape(s, evs, reason);
      SaidConcat(s.completed, rows);
      SaidOfToolRows(rows[1..]);
      PlusAssoc(Open(s), none, none);
      assert Said(rows) == Open(s);
      assert Open(FlushRound(s, reason)) == none;
    }
  }

  predicate SameVoice(s: State, t: State) {
    s.completed == t.completed && s.messageParts == t.messageParts && s.thoughtParts == t.thoughtParts &&
      s.calls == t.calls
  }

  lemma SameVoiceSameTotal(s: State, t: State)
    requires SameVoice(s, t)
    ensures Total(s) == Total(t)
  {
  }

  lemma SupersedeConserves(s: State, evs: seq<Event>, at: int)
    requires Inv(s, evs)
    ensures Total(SupersedeRound(s, at)) == Total(s)
  {
    if |s.calls| > 0 {
      var t := RememberSuperseded(StampPending(s, at));
      SameCoreKeepsInv(s, t, evs);
      SameVoiceSameTotal(s, t);
      FlushConserves(t, evs, Superseded);
      hide FlushRound, Total;
      SameVoiceSameTotal(FlushRound(t, Superseded), SupersedeRound(s, at));
    }
  }

  lemma JoinSnoc(parts: seq<string>, text: string)
    ensures Join(parts + [text]) == Join(parts) + text
  {
    assert (parts + [text])[..|parts|] == parts;
  }

  lemma MessageChunkAdds(s: State, text: string, at: int)
    requires s.handler
    ensures Total(OnMessageChunk(s, text, at)) == Plus(Total(SupersedeRound(s, at)), Heard(text, "", []))
  {
    hide SupersedeRound, Said;
    var t, u := SupersedeRound(s, at), OnMessageChunk(s, text, at);
    assert u.completed == t.completed && u.thoughtParts == t.thoughtParts && u.calls == t.calls;
    assert u.messageParts == t.messageParts + [text];
    hide OnMessageChunk;
    JoinSnoc(t.messageParts, text);
    PlusAssoc(Said(t.completed), Open(t), Heard(text, "", []));
    assert Open(u) == Plus(Open(t), Heard(text, "", []));
  }

  lemma ThoughtChunkAdds(s: State, text: string, at: int)
    requires s.handler
    ensures Total(OnThoughtChunk(s, text, at)) == Plus(Total(SupersedeRound(s, at)), Heard("", text, []))
  {
    hide SupersedeRound, Said;
    var t, u := SupersedeRound(s, at), OnThoughtChunk(s, text, at);
    assert u.completed == t.completed && u.messageParts == t.messageParts && u.calls == t.calls;
    assert u.thoughtParts == t.thoughtParts + [text];
    hide OnThoughtChunk;
    JoinSnoc(t.thoughtParts, text);
    PlusAssoc(Said(t.completed), Open(t), Heard("", text, []));
    assert Open(u) == Plus(Open(t), Heard("", text, []));
  }

  lemma DeclareAdds(s: State, id: string, title: string, at: int)
    requires s.handler
    ensures Total(OnToolCall(s, id, title, at)) == Plus(Total(s), Heard("", "", [(id, title)]))
  {
    hide Said;
    var u := OnToolCall(s, id, title, at);
    assert u.completed == s.completed && u.messageParts == s.messageParts && u.thoughtParts == s.thoughtParts;
    assert u.calls == s.calls + [ToolCall(id, title, "")];
    hide OnToolCall;
    assert CallPairs(u.calls) == CallPairs(s.calls) + [(id, title)];
    PlusAssoc(Said(s.completed), Open(s), Heard("", "", [(id, title)]));
    assert Open(u) == Plus(Open(s), Heard("", "", [(id, title)]));
  }

  lemma {:induction false} SetArgsKeepsPairs(calls: seq<ToolCall>, id: string, args: string, replace: bool)
    ensures CallPairs(SetArgs(calls, id, args, replace)) == CallPairs(calls)
  {
    if calls != [] {
      var rest := calls[1..];
      SetArgsKeepsPairs(rest, id, args, replace);
      assert calls == [calls[0]] + rest;
      assert CallPairs(calls) == [(calls[0].id, calls[0].name)] + CallPairs(rest);
      var c := SetArgs(calls, id, args, replace);
      assert c == [c[0]] + c[1..];
      if calls[0].id == id {
        assert c[1..] == rest;
      } else {
        assert c[1..] == SetArgs(rest, id, args, replace);
      }
      assert CallPairs(c) == [(c[0].id, c[0].name)] + CallPairs(c[1..]);
    }
  }

  lemma ArgsConserve(s: State, id: string, args: string, replace: bool)
    ensures Total(OnToolCallArgs(s, id, args, replace)) == Total(s)
  {
    SetArgsKeepsPairs(s.calls, id, args, replace);
  }

  lemma AcceptConserves(s: State, p: seq<Event>, evs: seq<Event>)
    requires evs != [] && p == evs[..|evs| - 1] && evs[|evs| - 1].ToolCallUpdate? && IsTerminal(evs[|evs| - 1].status)
    requires Inv(s, p) && Distinct(Declared(p))
    requires evs[|evs| - 1].id in CallIds(s.calls) && evs[|evs| - 1].id !in ResultIds(s.results)
    ensures var e := evs[|evs| - 1]; Total(AcceptTerminal(s, e.id, e.content, e.status, e.at)) == Total(s)
  {
    hide Answer, Declared, Total, ToolIds, FlushRound;
    var e := evs[|evs| - 1];
    TerminalAnswers(p, evs);
    OpenIdIsNotClosed(s, p, e.id);
    UnansweredPending(s, p, e.id);
    var t := s.(results := s.results + [RealResult(s, e.id, e.content, e.status, e.at)],
                finishedAt := s.finishedAt[e.id := e.at]);
    AcceptBeforeFlush(s, t, RealResult(s, e.id, e.content, e.status, e.at), p, evs);
    SameVoiceSameTotal(s, t);
    FlushConserves(t, evs, Interrupted);
    var f := if |t.results| >= |t.calls| then FlushRound(t, Interrupted) else t;
    hide Inv;
    SameVoiceSameTotal(f, AcceptTerminal(s, e.id, e.content, e.status, e.at));
  }

  lemma LateConserves(s: State, id: string, content: string, status: Status, at: int)
    requires id in s.superseded
    ensures Total(LateTerminal(s, id, content, status, at)) == Total(s)
  {
    var i := StitchIndex(s.completed, id);
    if i.Some? {
      SaidReplace(s.completed, i.value, StitchedRow(s, id, content, status, at));
    }
  }

  lemma StepConserves(s: State, p: seq<Event>, evs: seq<Event>)
    requires evs != [] && p == evs[..|evs| - 1]
    requires Inv(s, p) && Distinct(Declared(p)) && s.handler
    ensures Total(Step(s, evs[|evs| - 1])) == Plus(Total(s), EventHeard(evs[|evs| - 1]))
  {
    var e := evs[|evs| - 1];
    hide Inv, OnMessageChunk, OnThoughtChunk, OnToolCall, OnToolCallArgs, AcceptTerminal, LateTerminal, Total;
    PlusAssoc(Total(s), Total(s), Total(s));
    match e
    case MessageChunk(text, at) =>
      SupersedeConserves(s, p, at);
      MessageChunkAdds(s, text, at);
    case ThoughtChunk(text, at) =>
      SupersedeConserves(s, p, at);
      ThoughtChunkAdds(s, text, at);
    case ToolCallDecl(id, title, at) => DeclareAdds(s, id, title, at);
    case ArgsSnapshot(id, args) => ArgsConserve(s, id, args, true);
    case TokenUsage(tokens) => SameVoiceSameTotal(s, Step(s, e));
    case ToolCallUpdate(id, content, status, at) =>
      if !IsTerminal(status) {
        ArgsConserve(s, id, content, false);
      } else if id !in CallIds(s.calls) && id in s.superseded {
        LateConserves(s, id, content, status, at);
      } else if id in CallIds(s.calls) && id !in ResultIds(s.results) {
        AcceptConserves(s, p, evs);
      }
  }

  /** Nothing received is lost, duplicated or reordered, in any run. */
  lemma {:induction false} RunConserves(evs: seq<Event>)
    requires Distinct(Declared(evs))
    ensures Total(Run(evs)) == Received(evs)
  {
    if evs != [] {
      var p := evs[..|evs| - 1];
      DistinctPrefix(evs);
      RunInv(p);
      RunConserves(p);
      StepConserves(Run(p), p, evs);
    }
  }

  /** After the close-out everything received is in the collected transcript. */
  lemma TranscriptHoldsEverything(evs: seq<Event>, reason: Reason, at: int)
    requires Distinct(Declared(evs))
    ensures Said(BeforeCollect(Run(evs), reason, at).completed) == Received(evs)
  {
    RunInv(evs);
    RunConserves(evs);
    var s := Run(evs);
    var t := EmitPendingEnds(s, reason, at);
    EmitPendingEndsCore(s, reason, at);
    SameVoiceSameTotal(s, t);
    hide Run, EmitPendingEnds;
    SameCoreKeepsInv(s, t, evs);
    FlushConserves(t, evs, reason);
    var f := FlushRound(t, reason);
    assert Open(f) == Heard("", "", []);
    PlusAssoc(Said(f.completed), Open(f), Open(f));
  }
}
