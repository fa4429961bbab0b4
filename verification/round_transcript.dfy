/**
  The transcript of a whole run. Every run of the builder over distinct ids ends with
  exactly one tool row per declared call, in declared order, holding its answer.
*/
module RoundTranscript {
  import opened Wrappers
  import opened Messages
  import opened RoundModel
  import opened RoundDeclare
  import opened RoundInvariant
  import opened RoundTerminal

  // -------------------------------------------------------------------- runs

  lemma StepKeepsCallbacks(s: State, e: Event)
    ensures SameCallbacks(s, Step(s, e))
  {
    hide OnMessageChunk, OnThoughtChunk, AcceptTerminal, LateTerminal, SetArgs;
    match e
    case ToolCallUpdate(_, _, _, _) =>
    case _ =>
  }

  lemma UsageKeepsInv(s: State, evs: seq<Event>, tokens: int)
    requires Inv(s, evs)
    ensures Inv(OnTokenUsage(s, tokens), evs)
  {
    SameCoreKeepsInv(s, OnTokenUsage(s, tokens), evs);
  }

  lemma QuietStepKeepsInv(s: State, e: Event, evs: seq<Event>)
    requires Inv(s, evs) && s.handler
    requires !e.ToolCallDecl? && !(e.ToolCallUpdate? && IsTerminal(e.status))
    ensures Inv(Step(s, e), evs)
  {
    hide Inv, OnMessageChunk, OnThoughtChunk, OnToolCallArgs, OnTokenUsage;
    match e
    case MessageChunk(text, at) => ChunkKeepsInv(s, evs, text, at);
    case ThoughtChunk(text, at) => ChunkKeepsInv(s, evs, text, at);
    case ToolCallUpdate(id, content, status, at) => ArgsKeepInv(s, evs, id, content, false);
    case ArgsSnapshot(id, args) => ArgsKeepInv(s, evs, id, args, true);
    case TokenUsage(tokens) => UsageKeepsInv(s, evs, tokens);
  }

  lemma StepKeepsInv(s: State, p: seq<Event>, evs: seq<Event>)
    requires evs != [] && p == evs[..|evs| - 1]
    requires Inv(s, p) && Distinct(Declared(evs)) && s.handler
    ensures Inv(Step(s, evs[|evs| - 1]), evs)
  {
    var e := evs[|evs| - 1];
    if e.ToolCallDecl? {
      DeclareKeepsInv(s, p, evs);
    } else if e.ToolCallUpdate? && IsTerminal(e.status) {
      TerminalAnswers(p, evs);
      TerminalKeepsInv(s, p, evs);
    } else {
      assert Declared(evs) == Declared(p) && forall id :: Answer(evs, id) == Answer(p, id);
      SameReadingKeepsInv(s, p, evs);
      QuietStepKeepsInv(s, e, evs);
    }
  }

  lemma {:induction false} RunInv(evs: seq<Event>)
    requires Distinct(Declared(evs))
    ensures Inv(Run(evs), evs)
    ensures var s := Run(evs); s.handler && s.onFlush && s.onStitch
  {
    if evs != [] {
      var p, e := evs[..|evs| - 1], evs[|evs| - 1];
      DistinctPrefix(evs);
      RunInv(p);
      StepKeepsCallbacks(Run(p), e);
      StepKeepsInv(Run(p), p, evs);
    }
  }

  /** In every run a terminal is dropped if and only if the stream does not await it. */
  lemma DroppedInRun(evs: seq<Event>)
    requires evs != [] && evs[|evs| - 1].ToolCallUpdate? && IsTerminal(evs[|evs| - 1].status)
    requires Distinct(Declared(evs))
    ensures var p, id := evs[..|evs| - 1], evs[|evs| - 1].id;
      Run(evs) == Run(p) <==> id !in Declared(p) || Answer(p, id).Some?
  {
    var p := evs[..|evs| - 1];
    DistinctPrefix(evs);
    RunInv(p);
    DroppedTerminal(Run(p), p, evs);
  }

  // ---------------------------------------------------------- why a placeholder

  /** A text or reasoning chunk arrived after the call was declared. */
  predicate ChunkAfter(evs: seq<Event>, id: string) {
    evs != [] &&
    var p, e := evs[..|evs| - 1], evs[|evs| - 1];
    ChunkAfter(p, id) || ((e.MessageChunk? || e.ThoughtChunk?) && id in Declared(p))
  }

  predicate ChunkInv(s: State, evs: seq<Event>) {
    && (forall id :: id in s.superseded ==> ChunkAfter(evs, id))
    && (forall i :: 0 <= i < |s.calls| ==> !ChunkAfter(evs, s.calls[i].id))
  }

  lemma {:induction false} ChunkOnlyAfterDeclaration(evs: seq<Event>, id: string)
    requires ChunkAfter(evs, id)
    ensures id in Declared(evs)
  {
    var p := evs[..|evs| - 1];
    if ChunkAfter(p, id) {
      ChunkOnlyAfterDeclaration(p, id);
    }
  }

  lemma SupersededAreDeclared(s: State, evs: seq<Event>, at: int, id: string)
    requires Inv(s, evs) && id in SupersedeRound(s, at).superseded
    ensures id in Declared(evs)
  {
    SupersedeKeepsInv(s, evs, at);
  }

  lemma ChunkStepCore(s: State, e: Event)
    requires (e.MessageChunk? || e.ThoughtChunk?) && s.handler
    ensures var t := Step(s, e); t.calls == [] && t.superseded == SupersedeRound(s, e.at).superseded
  {
    ChunkCore(s, e.text, e.at);
    ThoughtCore(s, e.text, e.at);
    hide SupersedeRound, OnMessageChunk, OnThoughtChunk;
  }

  lemma ChunkStepChunkInv(s: State, p: seq<Event>, evs: seq<Event>)
    requires evs != [] && p == evs[..|evs| - 1] && (evs[|evs| - 1].MessageChunk? || evs[|evs| - 1].ThoughtChunk?)
    requires Inv(s, p) && s.handler
    ensures ChunkInv(Step(s, evs[|evs| - 1]), evs)
  {
    var e := evs[|evs| - 1];
    ChunkStepCore(s, e);
    hide SupersedeRound, Step, Inv, Declared;
    var t := Step(s, e);
    forall id | id in t.superseded ensures ChunkAfter(evs, id) {
      SupersededAreDeclared(s, p, e.at, id);
    }
  }

  lemma DeclareStepCore(s: State, e: Event)
    requires e.ToolCallDecl?
    ensures var t := Step(s, e);
      && t.superseded.Keys <= s.superseded.Keys
      && (forall id :: id in CallIds(t.calls) ==> id in CallIds(s.calls) || id == e.id)
  {
    if s.handler {
      assert CallIds(Step(s, e).calls) == CallIds(s.calls) + [e.id];
    }
  }

  lemma ArgsStepCore(s: State, id: string, args: string, replace: bool)
    ensures var t := OnToolCallArgs(s, id, args, replace);
      CallIds(t.calls) == CallIds(s.calls) && t.superseded == s.superseded
  {
    hide SetArgs;
    SetArgsKeepsIds(s.calls, id, args, replace);
  }

  lemma TerminalStepCore(s: State, id: string, content: string, status: Status, at: int)
    ensures var t := OnTerminal(s, id, content, status, at);
      t.superseded.Keys <= s.superseded.Keys && (t.calls == s.calls || t.calls == [])
  {
    hide AcceptTerminal, LateTerminal;
  }

  lemma OtherStepCore(s: State, e: Event)
    requires !e.MessageChunk? && !e.ThoughtChunk?
    ensures var t := Step(s, e);
      && t.superseded.Keys <= s.superseded.Keys
      && (forall id :: id in CallIds(t.calls) ==> id in CallIds(s.calls) || (e.ToolCallDecl? && id == e.id))
  {
    hide OnTerminal, OnToolCall, OnToolCallArgs;
    match e
    case ToolCallDecl(_, _, _) => DeclareStepCore(s, e);
    case ArgsSnapshot(id, args) => ArgsStepCore(s, id, args, true);
    case ToolCallUpdate(id, content, status, at) =>
      if IsTerminal(status) {
        TerminalStepCore(s, id, content, status, at);
      } else {
        ArgsStepCore(s, id, content, false);
      }
    case TokenUsage(_) =>
  }

  lemma StepKeepsChunkInv(s: State, p: seq<Event>, evs: seq<Event>)
    requires evs != [] && p == evs[..|evs| - 1] && Distinct(Declared(evs))
    requires Inv(s, p) && ChunkInv(s, p) && s.handler
    ensures ChunkInv(Step(s, evs[|evs| - 1]), evs)
  {
    var e := evs[|evs| - 1];
    if e.MessageChunk? || e.ThoughtChunk? {
      ChunkStepChunkInv(s, p, evs);
    } else {
      OtherStepCore(s, e);
      var t := Step(s, e);
      if e.ToolCallDecl? {
        FreshIdHasNoAnswer(p, evs);
      }
      hide Step, Inv;
      forall i | 0 <= i < |t.calls| ensures !ChunkAfter(evs, t.calls[i].id) {
        var id := CallIds(t.calls)[i];
        if id in CallIds(s.calls) {
          var k :| 0 <= k < |s.calls| && CallIds(s.calls)[k] == id;
          assert s.calls[k].id == id;
        } else if ChunkAfter(p, id) {
          ChunkOnlyAfterDeclaration(p, id);
        }
      }
    }
  }

  lemma {:induction false} RunChunkInv(evs: seq<Event>)
    requires Distinct(Declared(evs))
    ensures ChunkInv(Run(evs), evs)
  {
    if evs != [] {
      var p := evs[..|evs| - 1];
      DistinctPrefix(evs);
      RunInv(p);
      RunChunkInv(p);
      StepKeepsChunkInv(Run(p), p, evs);
    }
  }

  // ---------------------------------------------------------------- close-out

  predicate FinalRowOK(m: Message, evs: seq<Event>, reason: Reason) {
    match Answer(evs, m.toolCallID)
    case Some(t) => !m.extra.placeholder && m.content == t
    case None =>
      m.extra.placeholder &&
      m.content == PlaceholderText(if ChunkAfter(evs, m.toolCallID) then Superseded else reason)
  }

  lemma EmitPendingEndsCore(s: State, reason: Reason, at: int)
    ensures var t := EmitPendingEnds(s, reason, at);
      SameCore(s, t) && t.superseded == s.superseded && SameCallbacks(s, t)
  {
  }

  lemma FinalRows(s: State, t: State, evs: seq<Event>, reason: Reason)
    requires Inv(s, evs) && ChunkInv(s, evs) && SameCore(s, t) && ResultsInv(t, evs)
    ensures var c := FlushRound(t, reason).completed;
      forall i :: 0 <= i < |c| && c[i].role == Tool ==> FinalRowOK(c[i], evs, reason)
  {
    hide FlushRound, Answer, Declared, ChunkAfter, OrderedRow, IsHistory;
    var c := FlushRound(t, reason).completed;
    var n := |s.completed|;
    forall i | 0 <= i < |c| && c[i].role == Tool ensures FinalRowOK(c[i], evs, reason) {
      if i < n {
        assert c[i] == s.completed[i];
        assert RowOK(s.completed[i], evs);
        ToolIdsMember(s.completed, i);
      } else if t.calls != [] {
        assert c[i] == FlushedRows(t, reason)[i - n] == RoundRows(t, reason)[i - n];
        assert i > n;
        OrderedRowContent(t, evs, reason, i - n - 1);
        OrderedRowIds(t, evs, reason);
      }
    }
  }

  /** The transcript of every run: one tool row per declared call, in declared
      order, holding the first terminal received after the declaration however
      late it came; a placeholder exactly when no terminal came, with reason
      "superseded" exactly when a later chunk closed the round, and otherwise
      the close-out reason. */
  lemma TranscriptIsTheAnswers(evs: seq<Event>, reason: Reason, at: int)
    requires Distinct(Declared(evs))
    ensures var c := BeforeCollect(Run(evs), reason, at).completed;
      && IsHistory(c)
      && ToolIds(c) == Declared(evs)
      && forall i :: 0 <= i < |c| && c[i].role == Tool ==> FinalRowOK(c[i], evs, reason)
  {
    RunInv(evs);
    RunChunkInv(evs);
    var s := Run(evs);
    var t := EmitPendingEnds(s, reason, at);
    EmitPendingEndsCore(s, reason, at);
    hide EmitPendingEnds, Run;
    SameCoreKeepsInv(s, t, evs);
    FlushKeepsIds(t, evs, reason);
    FinalRows(s, t, evs, reason);
  }

  /** After the close-out no stream event reaches the transcript, the disk or the UI. */
  lemma FinalizedIgnoresEvents(s: State, reason: Reason, at: int, e: Event)
    ensures var f := FinalizeRound(s, reason, at);
      f.completed == [] && f.calls == [] && Step(f, e) == f.(sawTokenUsage := f.sawTokenUsage || e.TokenUsage?)
  {
    hide EmitPendingEnds, FlushRound;
  }
}
