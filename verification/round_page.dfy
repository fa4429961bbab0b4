/**
  What the page is told. The text, the reasoning and the calls that reach the handler of
  a run are those that the stream brought, in order; cut at the flushes they are the
  assistant rows of the transcript. Every answer shown is the first one of its call, and
  a round is on disk before the page hears of its last answer.
*/
module RoundPage {
  import opened Wrappers
  import opened Messages
  import opened RoundModel
  import opened RoundDeclare
  import opened RoundInvariant
  import opened RoundTerminal
  import opened RoundTranscript
  import opened RoundConserve
  import opened RoundDisk
  import RoundScreen

  const NOTHING := Heard("", "", [])

  function EffectHeard(e: Effect): Heard {
    match e
    case UI(MessageDelta(text)) => Heard(text, "", [])
    case UI(ThoughtDelta(text)) => Heard("", text, [])
    case UI(ToolStart(id, title)) => Heard("", "", [(id, title)])
    case _ => NOTHING
  }

  /** Everything that the page was told: the deltas joined, and the calls. */
  function PageHeard(out: seq<Effect>): Heard {
    if out == [] then NOTHING else Plus(PageHeard(out[..|out| - 1]), EffectHeard(out[|out| - 1]))
  }

  /** What it was told since the last flush. */
  function SinceFlush(out: seq<Effect>): Heard {
    if out == [] || out[|out| - 1].Flush? then NOTHING
    else Plus(SinceFlush(out[..|out| - 1]), EffectHeard(out[|out| - 1]))
  }

  /** What it was told between the flushes. */
  function Segments(out: seq<Effect>): seq<Heard> {
    if out == [] then []
    else
      var p := out[..|out| - 1];
      if out[|out| - 1].Flush? then Segments(p) + [SinceFlush(p)] else Segments(p)
  }

  function PageTokens(out: seq<Effect>): seq<int> {
    if out == [] then []
    else
      var e := out[|out| - 1];
      PageTokens(out[..|out| - 1]) + if e.UI? && e.ev.Usage? then [e.ev.tokens] else []
  }

  function Tokens(evs: seq<Event>): seq<int> {
    if evs == [] then []
    else
      var e := evs[|evs| - 1];
      Tokens(evs[..|evs| - 1]) + if e.TokenUsage? then [e.tokens] else []
  }

  /** The assistant rows: what each of them says. */
  function Turns(ms: seq<Message>): seq<Heard> {
    if ms == [] then []
    else
      (if ms[0].role == Assistant then [Heard(ms[0].content, ms[0].reasoning, CallPairs(ms[0].toolCalls))] else [])
      + Turns(ms[1..])
  }

  // ------------------------------------------------------------------- the voices

  predicate Voiced(out: seq<Effect>, open: Heard, heard: Heard, tokens: seq<int>) {
    PageHeard(out) == heard && SinceFlush(out) == open && PageTokens(out) == tokens
  }

  /** An effect that is neither a flush nor a token count. */
  predicate Speaks(e: Effect) { !e.Flush? && !(e.UI? && e.ev.Usage?) }

  /** An effect that says nothing new. */
  predicate Quiet(e: Effect) { Speaks(e) && EffectHeard(e) == NOTHING }

  predicate QuietTail(a: seq<Effect>, b: seq<Effect>) {
    a <= b && forall i :: |a| <= i < |b| ==> Quiet(b[i])
  }

  lemma PlusNothing(a: Heard)
    ensures Plus(a, NOTHING) == a == Plus(NOTHING, a)
  {
  }

  lemma VoiceSnoc(out: seq<Effect>, e: Effect)
    ensures PageHeard(out + [e]) == Plus(PageHeard(out), EffectHeard(e))
    ensures SinceFlush(out + [e]) == if e.Flush? then NOTHING else Plus(SinceFlush(out), EffectHeard(e))
    ensures PageTokens(out + [e]) == PageTokens(out) + if e.UI? && e.ev.Usage? then [e.ev.tokens] else []
  {
    assert (out + [e])[..|out|] == out;
  }

  lemma {:induction false} QuietKeeps(a: seq<Effect>, b: seq<Effect>, open: Heard, heard: Heard, tokens: seq<int>)
    requires QuietTail(a, b) && Voiced(a, open, heard, tokens)
    ensures Voiced(b, open, heard, tokens)
    decreases |b|
  {
    if |a| == |b| {
      assert a == b;
    } else {
      var p, e := b[..|b| - 1], b[|b| - 1];
      QuietKeeps(a, p, open, heard, tokens);
      assert b == p + [e];
      VoiceSnoc(p, e);
      PlusNothing(heard);
      PlusNothing(open);
    }
  }

  lemma SpokenKeeps(out: seq<Effect>, e: Effect, open: Heard, heard: Heard, tokens: seq<int>)
    requires Voiced(out, open, heard, tokens) && Speaks(e)
    ensures Voiced(out + [e], Plus(open, EffectHeard(e)), Plus(heard, EffectHeard(e)), tokens)
  {
    VoiceSnoc(out, e);
  }

  lemma FlushKeeps(out: seq<Effect>, rows: seq<Message>, open: Heard, heard: Heard, tokens: seq<int>)
    requires Voiced(out, open, heard, tokens)
    ensures Voiced(out + [Flush(rows)], NOTHING, heard, tokens)
  {
    VoiceSnoc(out, Flush(rows));
    PlusNothing(heard);
  }

  lemma FlushOpens(s: State, reason: Reason)
    ensures Open(FlushRound(s, reason)) == NOTHING
  {
  }

  lemma SupersedeOpens(s: State, at: int)
    ensures Open(SupersedeRound(s, at)) == if |s.calls| > 0 then NOTHING else Open(s)
  {
    if |s.calls| > 0 {
      FlushOpens(RememberSuperseded(StampPending(s, at)), Superseded);
    }
    hide FlushRound, RememberSuperseded, StampPending;
  }

  lemma SupersedeVoice(s: State, at: int, heard: Heard, tokens: seq<int>)
    requires Voiced(s.out, Open(s), heard, tokens) && s.onFlush
    ensures var u := SupersedeRound(s, at); Voiced(u.out, Open(u), heard, tokens)
  {
    SupersedeOpens(s, at);
    if |s.calls| > 0 {
      var rows := RoundRows(RememberSuperseded(StampPending(s, at)), Superseded);
      var pending := PendingIds(s.calls, s.results);
      RoundScreen.SupersedeOut(s, at);
      hide Voiced, Open, SupersedeRound, RoundRows, RememberSuperseded, StampPending, PendingIds;
      FlushKeeps(s.out, rows, Open(s), heard, tokens);
      QuietKeeps(s.out + [Flush(rows)], (s.out + [Flush(rows)]) + Interruptions(pending, Superseded), NOTHING, heard,
                 tokens);
    }
  }

  lemma MessageOut(s: State, text: string, at: int)
    requires s.handler
    ensures var u, t := SupersedeRound(s, at), OnMessageChunk(s, text, at);
      && t.out != [] && t.out == t.out[..|t.out| - 1] + [UI(MessageDelta(text))]
      && QuietTail(u.out, t.out[..|t.out| - 1])
      && Open(t) == Plus(Open(u), Heard(text, "", []))
  {
    hide SupersedeRound;
    RoundConserve.JoinSnoc(SupersedeRound(s, at).messageParts, text);
    hide Join;
  }

  lemma ThoughtOut(s: State, text: string, at: int)
    requires s.handler
    ensures var u, t := SupersedeRound(s, at), OnThoughtChunk(s, text, at);
      && t.out != [] && t.out == t.out[..|t.out| - 1] + [UI(ThoughtDelta(text))]
      && QuietTail(u.out, t.out[..|t.out| - 1])
      && Open(t) == Plus(Open(u), Heard("", text, []))
  {
    hide SupersedeRound;
    RoundConserve.JoinSnoc(SupersedeRound(s, at).thoughtParts, text);
    hide Join;
  }

  lemma ChunkOut(s: State, e: Event)
    requires (e.MessageChunk? || e.ThoughtChunk?) && s.handler
    ensures var u, t := SupersedeRound(s, e.at), Step(s, e);
      && t.out != [] && QuietTail(u.out, t.out[..|t.out| - 1]) && Open(t) == Plus(Open(u), EventHeard(e))
      && Speaks(t.out[|t.out| - 1]) && EffectHeard(t.out[|t.out| - 1]) == EventHeard(e)
  {
    hide SupersedeRound, OnMessageChunk, OnThoughtChunk, Open;
    if e.MessageChunk? {
      MessageOut(s, e.text, e.at);
    } else {
      ThoughtOut(s, e.text, e.at);
    }
  }

  lemma ChunkVoice(s: State, e: Event, heard: Heard, tokens: seq<int>)
    requires (e.MessageChunk? || e.ThoughtChunk?) && s.handler && s.onFlush && Voiced(s.out, Open(s), heard, tokens)
    ensures var t := Step(s, e); Voiced(t.out, Open(t), Plus(heard, EventHeard(e)), tokens)
  {
    hide *;
    var u, t := SupersedeRound(s, e.at), Step(s, e);
    SupersedeVoice(s, e.at, heard, tokens);
    ChunkOut(s, e);
    var front := t.out[..|t.out| - 1];
    QuietKeeps(u.out, front, Open(u), heard, tokens);
    SpokenKeeps(front, t.out[|t.out| - 1], Open(u), heard, tokens);
    assert t.out == front + [t.out[|t.out| - 1]];
  }

  lemma DeclareOpens(s: State, e: Event)
    requires e.ToolCallDecl? && s.handler
    ensures var m := if s.inMessage then EndMessage(s) else EndThought(s);
      && QuietTail(s.out, m.out) && Step(s, e).out == m.out + [UI(ToolStart(e.id, e.title))]
      && Open(Step(s, e)) == Plus(Open(s), EventHeard(e))
  {
    var t := Step(s, e);
    assert t.messageParts == s.messageParts && t.thoughtParts == s.thoughtParts;
    assert CallPairs(t.calls) == CallPairs(s.calls) + [(e.id, e.title)];
  }

  lemma DeclareVoice(s: State, e: Event, heard: Heard, tokens: seq<int>)
    requires e.ToolCallDecl? && s.handler && Voiced(s.out, Open(s), heard, tokens)
    ensures var t := Step(s, e); Voiced(t.out, Open(t), Plus(heard, EventHeard(e)), tokens)
  {
    var last := UI(ToolStart(e.id, e.title));
    assert Speaks(last) && EffectHeard(last) == EventHeard(e);
    hide *;
    var m := if s.inMessage then EndMessage(s) else EndThought(s);
    DeclareOpens(s, e);
    QuietKeeps(s.out, m.out, Open(s), heard, tokens);
    SpokenKeeps(m.out, last, Open(s), heard, tokens);
  }

  lemma ArgsVoice(s: State, id: string, args: string, replace: bool, heard: Heard, tokens: seq<int>)
    requires Voiced(s.out, Open(s), heard, tokens)
    ensures var t := OnToolCallArgs(s, id, args, replace); Voiced(t.out, Open(t), heard, tokens)
  {
    var t := OnToolCallArgs(s, id, args, replace);
    SetArgsKeepsPairs(s.calls, id, args, replace);
    assert QuietTail(s.out, t.out) && Open(t) == Open(s);
    hide OnToolCallArgs, Voiced, Open;
    QuietKeeps(s.out, t.out, Open(s), heard, tokens);
  }

  lemma UsageVoice(s: State, n: int, heard: Heard, tokens: seq<int>)
    requires s.handler && Voiced(s.out, Open(s), heard, tokens)
    ensures var t := OnTokenUsage(s, n); Voiced(t.out, Open(t), heard, tokens + [n]) && t.sawTokenUsage
  {
    VoiceSnoc(s.out, UI(Usage(n)));
    PlusNothing(heard);
    PlusNothing(Open(s));
    hide PageHeard, SinceFlush, PageTokens;
  }

  lemma AcceptOpens(s: State, id: string, content: string, status: Status, at: int)
    requires s.onFlush && s.calls != []
    ensures var t := s.(results := s.results + [RealResult(s, id, content, status, at)],
                        finishedAt := s.finishedAt[id := at]);
      var u := AcceptTerminal(s, id, content, status, at);
      if |t.results| >= |t.calls| then
        Open(u) == NOTHING && QuietTail(s.out + [Flush(RoundRows(t, Interrupted))], u.out)
      else Open(u) == Open(s) && QuietTail(s.out, u.out)
  {
    FlushOpens(s.(results := s.results + [RealResult(s, id, content, status, at)],
                  finishedAt := s.finishedAt[id := at]), Interrupted);
    hide RealResult, RoundRows, Join, CallPairs;
  }

  lemma AcceptVoice(s: State, id: string, content: string, status: Status, at: int, heard: Heard, tokens: seq<int>)
    requires s.onFlush && s.calls != [] && Voiced(s.out, Open(s), heard, tokens)
    ensures var u := AcceptTerminal(s, id, content, status, at); Voiced(u.out, Open(u), heard, tokens)
  {
    hide *;
    var r := RealResult(s, id, content, status, at);
    var t := s.(results := s.results + [r], finishedAt := s.finishedAt[id := at]);
    var u := AcceptTerminal(s, id, content, status, at);
    AcceptOpens(s, id, content, status, at);
    if |t.results| >= |t.calls| {
      FlushKeeps(s.out, RoundRows(t, Interrupted), Open(s), heard, tokens);
      QuietKeeps(s.out + [Flush(RoundRows(t, Interrupted))], u.out, NOTHING, heard, tokens);
    } else {
      QuietKeeps(s.out, u.out, Open(s), heard, tokens);
    }
  }

  lemma LateOpens(s: State, id: string, content: string, status: Status, at: int)
    requires id in s.superseded
    ensures var u := LateTerminal(s, id, content, status, at); QuietTail(s.out, u.out) && Open(u) == Open(s)
  {
    hide StitchedRow, StitchIndex, Join, CallPairs;
  }

  lemma LateVoice(s: State, id: string, content: string, status: Status, at: int, heard: Heard, tokens: seq<int>)
    requires id in s.superseded && Voiced(s.out, Open(s), heard, tokens)
    ensures var u := LateTerminal(s, id, content, status, at); Voiced(u.out, Open(u), heard, tokens)
  {
    hide *;
    LateOpens(s, id, content, status, at);
    QuietKeeps(s.out, LateTerminal(s, id, content, status, at).out, Open(s), heard, tokens);
  }

  lemma TerminalVoice(s: State, e: Event, heard: Heard, tokens: seq<int>)
    requires e.ToolCallUpdate? && IsTerminal(e.status) && s.onFlush && Voiced(s.out, Open(s), heard, tokens)
    ensures var t := Step(s, e); Voiced(t.out, Open(t), heard, tokens)
  {
    hide AcceptTerminal, LateTerminal, Voiced, Open;
    if e.id in CallIds(s.calls) {
      AcceptVoice(s, e.id, e.content, e.status, e.at, heard, tokens);
    } else if e.id in s.superseded {
      LateVoice(s, e.id, e.content, e.status, e.at, heard, tokens);
    }
  }

  lemma StepVoice(s: State, e: Event, heard: Heard, tokens: seq<int>)
    requires s.handler && s.onFlush && Voiced(s.out, Open(s), heard, tokens)
    ensures var t := Step(s, e);
      Voiced(t.out, Open(t), Plus(heard, EventHeard(e)), tokens + if e.TokenUsage? then [e.tokens] else [])
  {
    PlusNothing(heard);
    assert tokens + [] == tokens;
    if e.ToolCallUpdate? && IsTerminal(e.status) {
      hide Voiced, Open, Step;
      TerminalVoice(s, e, heard, tokens);
    } else {
      hide Voiced, Open, OnMessageChunk, OnThoughtChunk, OnToolCall, OnToolCallArgs, OnTokenUsage;
      match e
      case MessageChunk(_, _) => ChunkVoice(s, e, heard, tokens);
      case ThoughtChunk(_, _) => ChunkVoice(s, e, heard, tokens);
      case ToolCallDecl(_, _, _) => DeclareVoice(s, e, heard, tokens);
      case ToolCallUpdate(id, content, _, _) => ArgsVoice(s, id, content, false, heard, tokens);
      case ArgsSnapshot(id, args) => ArgsVoice(s, id, args, true, heard, tokens);
      case TokenUsage(n) => UsageVoice(s, n, heard, tokens);
    }
  }

  /**
    After every event of every run the page was told exactly what the stream brought:
    the text, the reasoning, the calls and the token counts, in order. What it was told
    since the last flush is what is still open.
  */
  lemma {:induction false} PageHearsTheStream(evs: seq<Event>)
    ensures var s := Run(evs);
      && PageHeard(s.out) == Received(evs) && PageTokens(s.out) == Tokens(evs)
      && SinceFlush(s.out) == Open(s) && SameCallbacks(Fresh(true, true, true), s)
  {
    if evs != [] {
      var p, e := evs[..|evs| - 1], evs[|evs| - 1];
      PageHearsTheStream(p);
      StepKeepsCallbacks(Run(p), e);
      hide Step;
      StepVoice(Run(p), e, Received(p), Tokens(p));
    }
  }

  lemma EndsAreQuiet(s: State)
    ensures var u := EndThought(EndMessage(s));
      && QuietTail(s.out, u.out) && u.onFlush == s.onFlush
      && u.messageParts == s.messageParts && u.thoughtParts == s.thoughtParts && u.calls == s.calls
  {
  }

  lemma EmitShape(s: State, reason: Reason, at: int)
    ensures var t := EmitPendingEnds(s, reason, at);
      var u := EndThought(EndMessage(StampPending(s, at)));
      && t.out == (if s.handler then u.out + Interruptions(PendingIds(s.calls, s.results), reason) else s.out)
      && t.messageParts == s.messageParts && t.thoughtParts == s.thoughtParts && t.calls == s.calls
      && t.onFlush == s.onFlush && StampPending(s, at).out == s.out
  {
    EndsAreQuiet(StampPending(s, at));
    hide PendingIds, EndThought, EndMessage;
  }

  lemma EmitOpens(s: State, reason: Reason, at: int)
    ensures var t := EmitPendingEnds(s, reason, at);
      QuietTail(s.out, t.out) && Open(t) == Open(s) && t.onFlush == s.onFlush
  {
    EmitShape(s, reason, at);
    EndsAreQuiet(StampPending(s, at));
    hide PendingIds, Join, CallPairs, EmitPendingEnds, StampPending, EndThought, EndMessage;
  }

  lemma FinalOpens(t: State, reason: Reason)
    requires t.onFlush
    ensures var f := FlushRound(t, reason);
      if NothingToFlush(t) then f.out == t.out && Open(t) == NOTHING
      else f.out == t.out + [Flush(RoundRows(t, reason))]
  {
    hide RoundRows, Join;
  }

  lemma CloseIs(s: State, reason: Reason, at: int)
    ensures BeforeCollect(s, reason, at) == FlushRound(EmitPendingEnds(s, reason, at), reason)
  {
  }

  lemma CloseVoice(s: State, reason: Reason, at: int, heard: Heard, tokens: seq<int>)
    requires s.onFlush && Voiced(s.out, Open(s), heard, tokens)
    ensures Voiced(BeforeCollect(s, reason, at).out, NOTHING, heard, tokens)
  {
    hide *;
    var t := EmitPendingEnds(s, reason, at);
    EmitOpens(s, reason, at);
    CloseIs(s, reason, at);
    FinalOpens(t, reason);
    QuietKeeps(s.out, t.out, Open(s), heard, tokens);
    if !NothingToFlush(t) {
      FlushKeeps(t.out, RoundRows(t, reason), Open(s), heard, tokens);
    }
  }

  // -------------------------------------------------------------- the assistant rows

  /** An assistant row says or calls something, and carries no stamps, no marks and no call id. */
  predicate BareTurns(ms: seq<Message>) {
    forall i :: 0 <= i < |ms| && ms[i].role == Assistant ==>
      && ms[i].toolCallID == "" && ms[i].extra == Extra(false, false, None, None)
      && (ms[i].content != "" || ms[i].reasoning != "" || ms[i].toolCalls != [])
  }

  predicate TurnInv(s: State) { Turns(s.completed) == Segments(s.out) && BareTurns(s.completed) }

  lemma {:induction false} TurnsConcat(a: seq<Message>, b: seq<Message>)
    ensures Turns(a + b) == Turns(a) + Turns(b)
  {
    if a == [] {
      assert a + b == b;
    } else {
      hide CallPairs;
      assert (a + b)[1..] == a[1..] + b && (a + b)[0] == a[0];
      TurnsConcat(a[1..], b);
      var head := if a[0].role == Assistant
      then [Heard(a[0].content, a[0].reasoning, CallPairs(a[0].toolCalls))] else [];
      assert Turns(a + b) == head + Turns(a[1..] + b) && Turns(a) == head + Turns(a[1..]);
      hide Turns;
      assert head + (Turns(a[1..]) + Turns(b)) == (head + Turns(a[1..])) + Turns(b);
    }
  }

  lemma {:induction false} TurnsReplace(ms: seq<Message>, i: nat, r: Message)
    requires i < |ms| && ms[i].role == Tool && r.role == Tool
    ensures Turns(ms[i := r]) == Turns(ms)
  {
    if i == 0 {
      assert ms[i := r][1..] == ms[1..];
    } else {
      assert ms[i := r][1..] == ms[1..][i - 1 := r];
      TurnsReplace(ms[1..], i - 1, r);
    }
  }

  lemma {:induction false} TurnsOfToolRows(ms: seq<Message>)
    requires forall i :: 0 <= i < |ms| ==> ms[i].role == Tool
    ensures Turns(ms) == []
  {
    if ms != [] {
      TurnsOfToolRows(ms[1..]);
    }
  }

  lemma RoundTurn(t: State, evs: seq<Event>, reason: Reason)
    requires ResultsInv(t, evs) && (t.calls == [] ==> t.results == [])
    requires Join(t.messageParts) != "" || Join(t.thoughtParts) != "" || t.calls != []
    ensures Turns(RoundRows(t, reason)) == [Open(t)] && BareTurns(RoundRows(t, reason))
  {
    FlushedRoundShape(t, evs, reason);
    var rows := RoundRows(t, reason);
    assert rows[0] == AssistantRow(t);
    hide RoundRows, ResultsInv;
    TurnsOfToolRows(rows[1..]);
    assert Turns(rows) == [Open(t)] + [];
  }

  lemma {:induction false} UITailKeepsSegments(a: seq<Effect>, b: seq<Effect>)
    requires UITail(a, b)
    ensures Segments(b) == Segments(a)
    decreases |b|
  {
    if |a| == |b| {
      assert a == b;
    } else {
      UITailKeepsSegments(a, b[..|b| - 1]);
    }
  }

  lemma FlushSegments(out: seq<Effect>, rows: seq<Message>)
    ensures Segments(out + [Flush(rows)]) == Segments(out) + [SinceFlush(out)]
  {
    assert (out + [Flush(rows)])[..|out|] == out;
  }

  lemma BareConcat(a: seq<Message>, b: seq<Message>)
    requires BareTurns(a) && BareTurns(b)
    ensures BareTurns(a + b)
  {
  }

  lemma FlushTurns(s: State, u: State, rows: seq<Message>)
    requires TurnInv(s) && Turns(rows) == [SinceFlush(s.out)] && BareTurns(rows)
    requires u.completed == s.completed + rows && UITail(s.out + [Flush(rows)], u.out)
    ensures TurnInv(u)
  {
    hide Turns, Segments, SinceFlush, BareTurns, UITail;
    TurnsConcat(s.completed, rows);
    BareConcat(s.completed, rows);
    FlushSegments(s.out, rows);
    UITailKeepsSegments(s.out + [Flush(rows)], u.out);
  }

  lemma QuietTurns(s: State, u: State)
    requires TurnInv(s) && u.completed == s.completed && UITail(s.out, u.out)
    ensures TurnInv(u)
  {
    hide Turns, Segments;
    UITailKeepsSegments(s.out, u.out);
  }

  lemma StitchTurns(s: State, u: State, i: nat, r: Message)
    requires TurnInv(s) && i < |s.completed| && s.completed[i].role == Tool && r.role == Tool
    requires u.completed == s.completed[i := r] && UITail(s.out + [Stitch(r.toolCallID, r)], u.out)
    ensures TurnInv(u)
  {
    TurnsReplace(s.completed, i, r);
    assert (s.out + [Stitch(r.toolCallID, r)])[..|s.out|] == s.out;
    assert Segments(s.out + [Stitch(r.toolCallID, r)]) == Segments(s.out);
    hide Turns, Segments;
    UITailKeepsSegments(s.out + [Stitch(r.toolCallID, r)], u.out);
  }

  lemma SameRound(s: State, t: State)
    requires s.calls == t.calls && s.messageParts == t.messageParts && s.thoughtParts == t.thoughtParts
    ensures Open(s) == Open(t)
  {
  }

  lemma ChunkTurns(s: State, p: seq<Event>, e: Event)
    requires e.MessageChunk? || e.ThoughtChunk?
    requires Inv(s, p) && TurnInv(s) && SinceFlush(s.out) == Open(s) && s.handler && s.onFlush
    ensures TurnInv(Step(s, e))
  {
    var t, u := RememberSuperseded(StampPending(s, e.at)), SupersedeRound(s, e.at);
    SupersedeTail(s, e.at);
    ChunkTail(s, e.text, e.at);
    ThoughtTail(s, e.text, e.at);
    SameCoreResults(s, t, p);
    SameRound(s, t);
    assert t.calls == s.calls;
    hide SupersedeRound, OnMessageChunk, OnThoughtChunk, RoundRows, RememberSuperseded, StampPending;
    hide TurnInv, Open, ResultsInv, UITail;
    if |s.calls| > 0 {
      RoundTurn(t, p, Superseded);
      FlushTurns(s, u, RoundRows(t, Superseded));
    }
    QuietTurns(u, Step(s, e));
  }

  lemma AcceptTurns(s: State, p: seq<Event>, evs: seq<Event>)
    requires evs != [] && p == evs[..|evs| - 1] && evs[|evs| - 1].ToolCallUpdate? && IsTerminal(evs[|evs| - 1].status)
    requires Inv(s, p) && Distinct(Declared(p)) && TurnInv(s) && SinceFlush(s.out) == Open(s) && s.onFlush
    requires evs[|evs| - 1].id in CallIds(s.calls) && evs[|evs| - 1].id !in ResultIds(s.results)
    ensures var e := evs[|evs| - 1]; TurnInv(AcceptTerminal(s, e.id, e.content, e.status, e.at))
  {
    var e := evs[|evs| - 1];
    var r := RealResult(s, e.id, e.content, e.status, e.at);
    var t := s.(results := s.results + [r], finishedAt := s.finishedAt[e.id := e.at]);
    var u := AcceptTerminal(s, e.id, e.content, e.status, e.at);
    TerminalAnswers(p, evs);
    UnansweredPending(s, p, e.id);
    AcceptBeforeFlush(s, t, r, p, evs);
    AcceptTail(s, e.id, e.content, e.status, e.at);
    SameRound(s, t);
    hide RoundRows, AcceptTerminal, RealResult, TurnInv, Open, Inv, ResultsInv, UITail, Answer, Declared;
    if |t.results| >= |t.calls| {
      RoundTurn(t, evs, Interrupted);
      FlushTurns(s, u, RoundRows(t, Interrupted));
    } else {
      QuietTurns(s, u);
    }
  }

  lemma LateTurns(s: State, p: seq<Event>, id: string, content: string, status: Status, at: int)
    requires Inv(s, p) && Distinct(Declared(p)) && TurnInv(s) && id in s.superseded && s.onStitch && s.handler
    ensures TurnInv(LateTerminal(s, id, content, status, at))
  {
    var i := LateRow(s, p, id);
    var r := StitchedRow(s, id, content, status, at);
    LateTail(s, id, content, status, at, i);
    assert r.role == Tool;
    hide LateTerminal, StitchedRow, TurnInv, Inv, UITail;
    StitchTurns(s, LateTerminal(s, id, content, status, at), i, r);
  }

  lemma StepTurns(s: State, p: seq<Event>, evs: seq<Event>)
    requires evs != [] && p == evs[..|evs| - 1]
    requires Inv(s, p) && Distinct(Declared(p)) && TurnInv(s) && SinceFlush(s.out) == Open(s)
    requires s.handler && s.onFlush && s.onStitch
    ensures TurnInv(Step(s, evs[|evs| - 1]))
  {
    var e := evs[|evs| - 1];
    hide Inv, TurnInv, Declared, Open, OnToolCall, AcceptTerminal, LateTerminal, OnMessageChunk, OnThoughtChunk;
    if e.MessageChunk? || e.ThoughtChunk? {
      ChunkTurns(s, p, e);
    } else if !(e.ToolCallUpdate? && IsTerminal(e.status)) {
      PlainTail(s, e);
      QuietTurns(s, Step(s, e));
    } else if e.id in CallIds(s.calls) && e.id !in ResultIds(s.results) {
      AcceptTurns(s, p, evs);
    } else if e.id !in CallIds(s.calls) && e.id in s.superseded {
      LateTurns(s, p, e.id, e.content, e.status, e.at);
    }
  }

  lemma {:induction false} RunTurns(evs: seq<Event>)
    requires Distinct(Declared(evs))
    ensures TurnInv(Run(evs))
  {
    if evs != [] {
      var p := evs[..|evs| - 1];
      DistinctPrefix(evs);
      RunInv(p);
      RunTurns(p);
      PageHearsTheStream(p);
      hide Inv, TurnInv, Declared, Distinct, Open, Step;
      StepTurns(Run(p), p, evs);
    }
  }

  lemma CloseTurns(s: State, evs: seq<Event>, reason: Reason, at: int)
    requires Inv(s, evs) && TurnInv(s) && SinceFlush(s.out) == Open(s) && s.onFlush
    ensures TurnInv(BeforeCollect(s, reason, at))
  {
    var t := EmitPendingEnds(s, reason, at);
    EmitTail(s, reason, at);
    EmitPendingEndsCore(s, reason, at);
    SameCoreResults(s, t, evs);
    EmitOpens(s, reason, at);
    QuietKeeps(s.out, t.out, Open(s), PageHeard(s.out), PageTokens(s.out));
    assert t.calls == [] ==> t.results == [];
    assert NothingToFlush(t) || Join(t.messageParts) != "" || Join(t.thoughtParts) != "" || t.calls != [];
    hide EmitPendingEnds, Open, TurnInv, Inv, UITail, ResultsInv, NothingToFlush, RoundRows, FlushRound, PageHeard;
    hide SinceFlush, PageTokens, QuietTail;
    QuietTurns(s, t);
    FinalTail(t, reason);
    if !NothingToFlush(t) {
      RoundTurn(t, evs, reason);
      FlushTurns(t, FlushRound(t, reason), RoundRows(t, reason));
    }
  }

  /**
    After the close-out the page and the transcript say the same. The page was told all
    that the stream brought, and what it was told between two flushes is the text, the
    reasoning and the calls of one assistant row, in the order of the rows.
  */
  lemma PageSaysTheTranscript(evs: seq<Event>, reason: Reason, at: int)
    requires Distinct(Declared(evs))
    ensures var f := BeforeCollect(Run(evs), reason, at);
      && PageHeard(f.out) == Received(evs) && PageTokens(f.out) == Tokens(evs)
      && Segments(f.out) == Turns(f.completed) && SinceFlush(f.out) == NOTHING && BareTurns(f.completed)
  {
    RunInv(evs);
    PageHearsTheStream(evs);
    RunTurns(evs);
    hide Run, Inv, Open, Turns, Segments, PageHeard, SinceFlush, PageTokens, BareTurns, BeforeCollect;
    CloseVoice(Run(evs), reason, at, Received(evs), Tokens(evs));
    CloseTurns(Run(evs), evs, reason, at);
  }

  // -------------------------------------------------------------- the answers shown

  /** Whether the first terminal of a call after its declaration reported success. */
  function Verdict(evs: seq<Event>, id: string): Option<bool> {
    if evs == [] then None
    else
      var p, e := evs[..|evs| - 1], evs[|evs| - 1];
      var v := Verdict(p, id);
      if v.Some? then v
      else if Terminal(e, id) && id in Declared(p) then Some(e.status == Completed)
      else None
  }

  /** What an effect says of a call is what its first terminal said. */
  predicate EffectTrue(e: Effect, evs: seq<Event>) {
    match e
    case UI(ToolResult(id, content, ok)) => Answer(evs, id) == Some(content) && Verdict(evs, id) == Some(ok)
    case UI(ToolEnd(id, ok)) => Verdict(evs, id) == Some(ok)
    case UI(ToolStitched(id, content, ok)) => Answer(evs, id) == Some(content) && Verdict(evs, id) == Some(ok)
    case Stitch(id, row) => row.toolCallID == id && Answer(evs, id) == Some(row.content) && !row.extra.placeholder
    case _ => true
  }

  predicate ShowsResult(e: Effect, id: string) { e.UI? && e.ev.ToolResult? && e.ev.id == id }

  /** Some call among these ids has no result on the page yet. */
  predicate SomeUnshown(out: seq<Effect>, ids: seq<string>) {
    exists k :: 0 <= k < |ids| && forall j :: 0 <= j < |out| ==> !ShowsResult(out[j], ids[k])
  }

  /** A round with calls is flushed before the page hears of the last result. */
  predicate FlushedFirst(out: seq<Effect>) {
    forall i :: 0 <= i < |out| && out[i].Flush? && ToolIds(out[i].rows) != [] ==>
      SomeUnshown(out[..i], ToolIds(out[i].rows))
  }

  predicate EffectsTrue(out: seq<Effect>, evs: seq<Event>) {
    forall i :: 0 <= i < |out| ==> EffectTrue(out[i], evs)
  }

  /** An effect that neither flushes nor answers. */
  predicate Mute(e: Effect) {
    e.UI? && !e.ev.ToolResult? && !e.ev.ToolEnd? && !e.ev.ToolStitched?
  }

  predicate MuteTail(a: seq<Effect>, b: seq<Effect>) {
    a <= b && forall i :: |a| <= i < |b| ==> Mute(b[i])
  }

  lemma {:induction false} VerdictReads(evs: seq<Event>, id: string)
    ensures Verdict(evs, id).Some? <==> Answer(evs, id).Some?
  {
    if evs != [] {
      VerdictReads(evs[..|evs| - 1], id);
    }
  }

  lemma FirstVerdict(p: seq<Event>, evs: seq<Event>)
    requires evs != [] && p == evs[..|evs| - 1] && evs[|evs| - 1].ToolCallUpdate? && IsTerminal(evs[|evs| - 1].status)
    requires evs[|evs| - 1].id in Declared(p) && Answer(p, evs[|evs| - 1].id).None?
    ensures var e := evs[|evs| - 1];
      Verdict(evs, e.id) == Some(e.status != Failed) && Answer(evs, e.id) == Some(ResultText(e.content, e.status))
  {
    VerdictReads(p, evs[|evs| - 1].id);
  }

  lemma EffectStays(e: Effect, p: seq<Event>, evs: seq<Event>)
    requires evs != [] && p == evs[..|evs| - 1] && EffectTrue(e, p)
    ensures EffectTrue(e, evs)
  {
  }

  lemma EffectsStay(out: seq<Effect>, p: seq<Event>, evs: seq<Event>)
    requires evs != [] && p == evs[..|evs| - 1] && EffectsTrue(out, p)
    ensures EffectsTrue(out, evs)
  {
    forall i | 0 <= i < |out| ensures EffectTrue(out[i], evs) {
      EffectStays(out[i], p, evs);
    }
  }

  lemma MuteKeeps(a: seq<Effect>, b: seq<Effect>, evs: seq<Event>)
    requires MuteTail(a, b) && EffectsTrue(a, evs) && FlushedFirst(a)
    ensures EffectsTrue(b, evs) && FlushedFirst(b)
  {
    assert forall i :: 0 <= i < |a| ==> b[i] == a[i] && b[..i] == a[..i];
    hide Answer, Verdict, SomeUnshown, ToolIds;
    assert forall i :: |a| <= i < |b| ==> EffectTrue(b[i], evs);
  }

  lemma FlushIsFirst(out: seq<Effect>, rows: seq<Message>, evs: seq<Event>)
    requires EffectsTrue(out, evs) && FlushedFirst(out) && (ToolIds(rows) != [] ==> SomeUnshown(out, ToolIds(rows)))
    ensures EffectsTrue(out + [Flush(rows)], evs) && FlushedFirst(out + [Flush(rows)])
  {
    var b := out + [Flush(rows)];
    assert b[..|out|] == out;
    assert forall i :: 0 <= i < |out| ==> b[i] == out[i] && b[..i] == out[..i];
    hide Answer, Verdict, SomeUnshown, ToolIds;
    assert EffectTrue(Flush(rows), evs);
  }

  lemma AnswerKeeps(out: seq<Effect>, e: Effect, evs: seq<Event>)
    requires EffectsTrue(out, evs) && FlushedFirst(out) && !e.Flush? && EffectTrue(e, evs)
    ensures EffectsTrue(out + [e], evs) && FlushedFirst(out + [e])
  {
    var b := out + [e];
    assert forall i :: 0 <= i < |out| ==> b[i] == out[i] && b[..i] == out[..i];
    hide EffectTrue, SomeUnshown, ToolIds;
  }

  /** A call without an answer has no result on the page. */
  lemma UnansweredIsUnshown(out: seq<Effect>, evs: seq<Event>, ids: seq<string>, k: nat)
    requires EffectsTrue(out, evs) && k < |ids| && Answer(evs, ids[k]).None?
    ensures SomeUnshown(out, ids)
  {
    forall j | 0 <= j < |out| ensures !ShowsResult(out[j], ids[k]) {
      assert EffectTrue(out[j], evs);
    }
  }

  predicate ShownInv(out: seq<Effect>, evs: seq<Event>) { EffectsTrue(out, evs) && FlushedFirst(out) }

  /** Fewer ids than distinct ones leave one out. */
  lemma OneIsMissing(a: seq<string>, b: seq<string>) returns (k: nat)
    requires Distinct(a) && |b| < |a|
    ensures k < |a| && a[k] !in b
  {
    DistinctCount(a);
    DistinctCount(b);
    var sa, sb := set x | x in a, set x | x in b;
    if sa <= sb {
      if sa != sb {
        SubsetCard(sa, sb);
      }
      assert false;
    }
    var x :| x in sa && x !in sb;
    k :| 0 <= k < |a| && a[k] == x;
  }

  /** An open round has a call without an answer. */
  lemma OpenRoundWaits(s: State, evs: seq<Event>) returns (k: nat)
    requires Inv(s, evs) && Distinct(Declared(evs)) && s.calls != []
    ensures k < |s.calls| && Answer(evs, s.calls[k].id).None?
  {
    RoundScreen.ClosedNotOpen(s, evs);
    hide Declared, Distinct, ToolIds, IsHistory;
    k := OneIsMissing(CallIds(s.calls), ResultIds(s.results));
  }

  lemma RoundUnshown(out: seq<Effect>, t: State, evs: seq<Event>, q: seq<Event>, reason: Reason, k: nat)
    requires EffectsTrue(out, evs) && ResultsInv(t, q) && k < |t.calls| && Answer(evs, t.calls[k].id).None?
    ensures SomeUnshown(out, ToolIds(RoundRows(t, reason)))
  {
    FlushedRoundShape(t, q, reason);
    hide RoundRows, ResultsInv, Answer, SomeUnshown;
    UnansweredIsUnshown(out, evs, CallIds(t.calls), k);
  }

  lemma SupersedeShown(s: State, p: seq<Event>, at: int)
    requires Inv(s, p) && Distinct(Declared(p)) && ShownInv(s.out, p) && s.onFlush
    ensures ShownInv(SupersedeRound(s, at).out, p)
  {
    if |s.calls| > 0 {
      var t := RememberSuperseded(StampPending(s, at));
      var k := OpenRoundWaits(s, p);
      SameCoreResults(s, t, p);
      assert t.calls == s.calls;
      RoundScreen.SupersedeOut(s, at);
      hide Inv, Declared, Answer, SupersedeRound, RoundRows, RememberSuperseded, StampPending, PendingIds, ResultsInv;
      hide EffectsTrue, FlushedFirst;
      RoundUnshown(s.out, t, p, p, Superseded, k);
      FlushIsFirst(s.out, RoundRows(t, Superseded), p);
      MuteKeeps(s.out + [Flush(RoundRows(t, Superseded))], SupersedeRound(s, at).out, p);
    }
  }

  lemma ChunkMute(s: State, e: Event)
    requires (e.MessageChunk? || e.ThoughtChunk?) && s.handler
    ensures MuteTail(SupersedeRound(s, e.at).out, Step(s, e).out)
  {
    hide SupersedeRound;
  }

  lemma PlainMute(s: State, e: Event)
    requires e.ToolCallDecl? || e.ArgsSnapshot? || e.TokenUsage? || (e.ToolCallUpdate? && !IsTerminal(e.status))
    ensures MuteTail(s.out, Step(s, e).out)
  {
    hide SetArgs;
  }

  lemma AcceptMid(s: State, t: State, mid: seq<Effect>, p: seq<Event>, evs: seq<Event>, id: string)
    requires evs != [] && p == evs[..|evs| - 1] && ShownInv(s.out, p) && ResultsInv(t, evs)
    requires id in CallIds(t.calls) && Answer(p, id).None?
    requires mid == s.out + if |t.results| >= |t.calls| then [Flush(RoundRows(t, Interrupted))] else []
    ensures ShownInv(mid, evs)
  {
    hide Answer, RoundRows, ResultsInv, EffectsTrue, FlushedFirst;
    var k :| 0 <= k < |t.calls| && CallIds(t.calls)[k] == id;
    if |t.results| >= |t.calls| {
      RoundUnshown(s.out, t, p, evs, Interrupted, k);
      FlushIsFirst(s.out, RoundRows(t, Interrupted), p);
    } else {
      assert mid == s.out;
    }
    EffectsStay(mid, p, evs);
  }

  lemma ResultAndEnd(mid: seq<Effect>, id: string, content: string, ok: bool, evs: seq<Event>)
    requires ShownInv(mid, evs) && Answer(evs, id) == Some(content) && Verdict(evs, id) == Some(ok)
    ensures ShownInv(mid + [UI(ToolResult(id, content, ok))] + [UI(ToolEnd(id, ok))], evs)
  {
    hide Answer, Verdict, EffectsTrue, FlushedFirst;
    AnswerKeeps(mid, UI(ToolResult(id, content, ok)), evs);
    AnswerKeeps(mid + [UI(ToolResult(id, content, ok))], UI(ToolEnd(id, ok)), evs);
  }

  lemma AcceptShown(s: State, p: seq<Event>, evs: seq<Event>)
    requires evs != [] && p == evs[..|evs| - 1] && evs[|evs| - 1].ToolCallUpdate? && IsTerminal(evs[|evs| - 1].status)
    requires Inv(s, p) && Distinct(Declared(p)) && ShownInv(s.out, p) && s.onFlush
    requires evs[|evs| - 1].id in CallIds(s.calls) && evs[|evs| - 1].id !in ResultIds(s.results)
    ensures var e := evs[|evs| - 1]; ShownInv(AcceptTerminal(s, e.id, e.content, e.status, e.at).out, evs)
  {
    var e := evs[|evs| - 1];
    var r := RealResult(s, e.id, e.content, e.status, e.at);
    var t := s.(results := s.results + [r], finishedAt := s.finishedAt[e.id := e.at]);
    TerminalAnswers(p, evs);
    UnansweredPending(s, p, e.id);
    AcceptBeforeFlush(s, t, r, p, evs);
    OpenIdIsNotClosed(s, p, e.id);
    FirstVerdict(p, evs);
    RoundScreen.AcceptOut(s, e.id, e.content, e.status, e.at);
    assert r.content == ResultText(e.content, e.status);
    hide *;
    var mid := s.out + if |t.results| >= |t.calls| then [Flush(RoundRows(t, Interrupted))] else [];
    AcceptMid(s, t, mid, p, evs, e.id);
    ResultAndEnd(mid, e.id, r.content, e.status != Failed, evs);
  }

  lemma LateShown(s: State, p: seq<Event>, evs: seq<Event>)
    requires evs != [] && p == evs[..|evs| - 1] && evs[|evs| - 1].ToolCallUpdate? && IsTerminal(evs[|evs| - 1].status)
    requires Inv(s, p) && Distinct(Declared(p)) && ShownInv(s.out, p) && s.onStitch && s.handler
    requires evs[|evs| - 1].id in s.superseded
    ensures var e := evs[|evs| - 1]; ShownInv(LateTerminal(s, e.id, e.content, e.status, e.at).out, evs)
  {
    var e := evs[|evs| - 1];
    var r := StitchedRow(s, e.id, e.content, e.status, e.at);
    var i := LateRow(s, p, e.id);
    FirstVerdict(p, evs);
    RoundScreen.LateOut(s, e.id, e.content, e.status, e.at, i);
    var stitch, shown := Stitch(e.id, r), UI(ToolStitched(e.id, r.content, e.status != Failed));
    assert EffectTrue(stitch, evs) && EffectTrue(shown, evs);
    hide Inv, Declared, Answer, LateTerminal, StitchedRow, EffectsTrue, FlushedFirst, EffectTrue, StitchIndex;
    EffectsStay(s.out, p, evs);
    AnswerKeeps(s.out, stitch, evs);
    AnswerKeeps(s.out + [stitch], shown, evs);
  }

  lemma MuteShown(a: seq<Effect>, b: seq<Effect>, p: seq<Event>, evs: seq<Event>)
    requires evs != [] && p == evs[..|evs| - 1] && MuteTail(a, b) && ShownInv(a, p)
    ensures ShownInv(b, evs)
  {
    hide EffectsTrue, FlushedFirst, MuteTail;
    MuteKeeps(a, b, p);
    EffectsStay(b, p, evs);
  }

  lemma NothingShown(out: seq<Effect>, p: seq<Event>, evs: seq<Event>)
    requires evs != [] && p == evs[..|evs| - 1] && ShownInv(out, p)
    ensures ShownInv(out, evs)
  {
    hide EffectsTrue, FlushedFirst;
    EffectsStay(out, p, evs);
  }

  lemma StepShown(s: State, p: seq<Event>, evs: seq<Event>)
    requires evs != [] && p == evs[..|evs| - 1]
    requires Inv(s, p) && Distinct(Declared(p)) && ShownInv(s.out, p) && s.handler && s.onFlush && s.onStitch
    ensures ShownInv(Step(s, evs[|evs| - 1]).out, evs)
  {
    var e := evs[|evs| - 1];
    hide Inv, ShownInv, EffectsTrue, FlushedFirst, Declared, Distinct, MuteTail;
    hide OnToolCall, AcceptTerminal, LateTerminal, OnMessageChunk, OnThoughtChunk;
    if e.MessageChunk? || e.ThoughtChunk? {
      SupersedeShown(s, p, e.at);
      ChunkMute(s, e);
      MuteShown(SupersedeRound(s, e.at).out, Step(s, e).out, p, evs);
    } else if !(e.ToolCallUpdate? && IsTerminal(e.status)) {
      PlainMute(s, e);
      MuteShown(s.out, Step(s, e).out, p, evs);
    } else if e.id in CallIds(s.calls) && e.id !in ResultIds(s.results) {
      AcceptShown(s, p, evs);
    } else if e.id !in CallIds(s.calls) && e.id in s.superseded {
      LateShown(s, p, evs);
    } else {
      NothingShown(s.out, p, evs);
    }
  }

  lemma {:induction false} RunShown(evs: seq<Event>)
    requires Distinct(Declared(evs))
    ensures ShownInv(Run(evs).out, evs)
  {
    if evs != [] {
      var p := evs[..|evs| - 1];
      DistinctPrefix(evs);
      RunInv(p);
      RunShown(p);
      hide Inv, EffectsTrue, FlushedFirst, Declared, Distinct, Step;
      StepShown(Run(p), p, evs);
    }
  }

  lemma EndsAreMute(s: State)
    ensures MuteTail(s.out, EndThought(EndMessage(s)).out)
  {
  }

  lemma EmitIsMute(s: State, reason: Reason, at: int)
    ensures MuteTail(s.out, EmitPendingEnds(s, reason, at).out)
  {
    EmitShape(s, reason, at);
    EndsAreMute(StampPending(s, at));
    hide PendingIds, EmitPendingEnds, StampPending, EndThought, EndMessage;
  }

  lemma CloseShown(s: State, evs: seq<Event>, reason: Reason, at: int)
    requires Inv(s, evs) && Distinct(Declared(evs)) && ShownInv(s.out, evs) && s.onFlush
    ensures ShownInv(BeforeCollect(s, reason, at).out, evs)
  {
    var t := EmitPendingEnds(s, reason, at);
    EmitIsMute(s, reason, at);
    EmitOpens(s, reason, at);
    EmitPendingEndsCore(s, reason, at);
    SameCoreResults(s, t, evs);
    FinalOpens(t, reason);
    CloseIs(s, reason, at);
    FlushedRoundShape(t, evs, reason);
    assert t.calls == s.calls && |CallIds(t.calls)| == |t.calls|;
    hide Inv, Declared, Distinct, Answer, EmitPendingEnds, FlushRound, RoundRows, ResultsInv, EffectsTrue, FlushedFirst;
    hide MuteTail, Open, ToolIds, NothingToFlush;
    MuteKeeps(s.out, t.out, evs);
    if t.calls != [] {
      var k := OpenRoundWaits(s, evs);
      RoundUnshown(t.out, t, evs, evs, reason, k);
    }
    FlushIsFirst(t.out, RoundRows(t, reason), evs);
  }

  /**
    In every run, closed or not, the page and the file that is stitched hear of a call
    only what its first terminal said, and a round is on disk before the page hears of
    its last result.
  */
  lemma PageShowsTheAnswers(evs: seq<Event>, reason: Reason, at: int)
    requires Distinct(Declared(evs))
    ensures EffectsTrue(Run(evs).out, evs) && FlushedFirst(Run(evs).out)
    ensures var f := BeforeCollect(Run(evs), reason, at); EffectsTrue(f.out, evs) && FlushedFirst(f.out)
  {
    RunInv(evs);
    RunShown(evs);
    hide Run, Inv, BeforeCollect;
    CloseShown(Run(evs), evs, reason, at);
  }

  lemma SupersedeUsage(s: State, at: int)
    ensures SupersedeRound(s, at).sawTokenUsage == s.sawTokenUsage
  {
    hide RoundRows, PendingIds;
  }

  lemma ChunkUsage(s: State, e: Event)
    requires e.MessageChunk? || e.ThoughtChunk?
    ensures Step(s, e).sawTokenUsage == s.sawTokenUsage
  {
    SupersedeUsage(s, e.at);
    hide SupersedeRound;
  }

  lemma TerminalUsage(s: State, id: string, content: string, status: Status, at: int)
    ensures AcceptTerminal(s, id, content, status, at).sawTokenUsage == s.sawTokenUsage
    ensures id in s.superseded ==> LateTerminal(s, id, content, status, at).sawTokenUsage == s.sawTokenUsage
  {
    hide RoundRows, RealResult, StitchedRow, StitchIndex;
  }

  lemma UsageStep(s: State, e: Event)
    ensures Step(s, e).sawTokenUsage <==> (s.sawTokenUsage || e.TokenUsage?)
  {
    if e.MessageChunk? || e.ThoughtChunk? {
      ChunkUsage(s, e);
    } else if e.ToolCallUpdate? && IsTerminal(e.status) {
      TerminalUsage(s, e.id, e.content, e.status, e.at);
      hide AcceptTerminal, LateTerminal;
    } else {
      hide OnMessageChunk, OnThoughtChunk, AcceptTerminal, LateTerminal, SetArgs;
    }
  }

  /** The usage mark is set exactly by the runs that count tokens. */
  lemma {:induction false} UsageIsSeen(evs: seq<Event>)
    ensures Run(evs).sawTokenUsage <==> Tokens(evs) != []
  {
    if evs != [] {
      UsageIsSeen(evs[..|evs| - 1]);
      UsageStep(Run(evs[..|evs| - 1]), evs[|evs| - 1]);
      hide Step;
    }
  }
}
