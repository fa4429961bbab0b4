/**
  Disk refines memory. Applying the persistence callbacks of a run to the
  history file, in order, always leaves the prior rows followed by the encoded
  completed messages, although memory looks for a placeholder from the tail and
  the file rewrite from the head.
*/
module RoundDisk {
  import opened Wrappers
  import opened Messages
  import opened RoundModel
  import opened RoundDeclare
  import opened RoundInvariant
  import opened RoundTerminal
  import opened RoundTranscript
  import opened StoreModel
  import opened StoreTheorems

  function Persist(c: Codec, rows: seq<string>, e: Effect): seq<string> {
    match e
    case Flush(ms) => rows + PrintRows(c, ms)
    case Stitch(id, m) => StitchRows(c, rows, id, m)
    case UI(_) => rows
  }

  function DiskRows(c: Codec, prior: seq<string>, out: seq<Effect>): seq<string> {
    if out == [] then prior
    else Persist(c, DiskRows(c, prior, out[..|out| - 1]), out[|out| - 1])
  }

  function PersistBytes(c: Codec, content: string, e: Effect): string {
    match e
    case Flush(ms) => content + Render(PrintRows(c, ms))
    case Stitch(id, m) => StitchContent(c, content, id, m)
    case UI(_) => content
  }

  /** The same on the bytes of the file. */
  function DiskBytes(c: Codec, content: string, out: seq<Effect>): string {
    if out == [] then content
    else PersistBytes(c, DiskBytes(c, content, out[..|out| - 1]), out[|out| - 1])
  }

  lemma DiskSnoc(c: Codec, prior: seq<string>, out: seq<Effect>, e: Effect)
    ensures DiskRows(c, prior, out + [e]) == Persist(c, DiskRows(c, prior, out), e)
  {
    assert (out + [e])[..|out|] == out;
  }

  /** `b` only adds UI calls to `a`. */
  predicate UITail(a: seq<Effect>, b: seq<Effect>) {
    a <= b && forall i :: |a| <= i < |b| ==> b[i].UI?
  }

  lemma {:induction false} UITailKeepsDisk(c: Codec, prior: seq<string>, a: seq<Effect>, b: seq<Effect>)
    requires UITail(a, b)
    ensures DiskRows(c, prior, b) == DiskRows(c, prior, a)
    decreases |b|
  {
    if |a| == |b| {
      assert a == b;
    } else {
      UITailKeepsDisk(c, prior, a, b[..|b| - 1]);
    }
  }

  predicate DiskInv(s: State, c: Codec, prior: seq<string>) {
    DiskRows(c, prior, s.out) == prior + PrintRows(c, s.completed)
  }

  function Stamp(at: int): Option<int> { if at > 0 then Some(at) else None }

  predicate PlaceholderTimed(s: State, m: Message) {
    m.toolCallID in s.superseded && m.extra.startedAt == Stamp(s.superseded[m.toolCallID].toolStartedAt)
  }

  /** Timing is kept for open calls only; a placeholder remembers its call's start. */
  ghost predicate TimeInv(s: State) {
    && (forall id :: id in s.startedAt || id in s.finishedAt ==> id in CallIds(s.calls))
    && (forall i :: 0 <= i < |s.completed| && IsPlaceholderTool(s.completed[i]) ==> PlaceholderTimed(s, s.completed[i]))
  }

  /** No placeholder of the prior history belongs to a call of this run. */
  predicate PriorDisjoint(c: Codec, prior: seq<string>, ids: seq<string>) {
    forall i, id :: 0 <= i < |prior| && id in ids ==> !Matches(c, prior[i], id)
  }

  // ------------------------------------------------------------------ flushing

  lemma FlushDisk(s: State, u: State, c: Codec, prior: seq<string>, rows: seq<Message>)
    requires DiskInv(s, c, prior) && u.completed == s.completed + rows
    requires UITail(s.out + [Flush(rows)], u.out)
    ensures DiskInv(u, c, prior)
  {
    DiskSnoc(c, prior, s.out, Flush(rows));
    UITailKeepsDisk(c, prior, s.out + [Flush(rows)], u.out);
    assert PrintRows(c, u.completed) == PrintRows(c, s.completed) + PrintRows(c, rows);
  }

  lemma QuietDisk(s: State, u: State, c: Codec, prior: seq<string>)
    requires DiskInv(s, c, prior) && u.completed == s.completed && UITail(s.out, u.out)
    ensures DiskInv(u, c, prior)
  {
    UITailKeepsDisk(c, prior, s.out, u.out);
  }

  lemma SupersedeTail(s: State, at: int)
    requires s.onFlush
    ensures var t := RememberSuperseded(StampPending(s, at));
      var u := SupersedeRound(s, at);
      if |s.calls| == 0 then u == s
      else u.completed == s.completed + RoundRows(t, Superseded) &&
             UITail(s.out + [Flush(RoundRows(t, Superseded))], u.out)
  {
    hide RoundRows, PendingIds;
  }

  lemma ChunkTail(s: State, text: string, at: int)
    requires s.handler
    ensures UITail(SupersedeRound(s, at).out, OnMessageChunk(s, text, at).out)
    ensures OnMessageChunk(s, text, at).completed == SupersedeRound(s, at).completed
  {
    hide SupersedeRound;
  }

  lemma ThoughtTail(s: State, text: string, at: int)
    requires s.handler
    ensures UITail(SupersedeRound(s, at).out, OnThoughtChunk(s, text, at).out)
    ensures OnThoughtChunk(s, text, at).completed == SupersedeRound(s, at).completed
  {
    hide SupersedeRound;
  }

  lemma ChunkDisk(s: State, e: Event, c: Codec, prior: seq<string>)
    requires e.MessageChunk? || e.ThoughtChunk?
    requires DiskInv(s, c, prior) && s.handler && s.onFlush
    ensures DiskInv(Step(s, e), c, prior)
  {
    var t := RememberSuperseded(StampPending(s, e.at));
    var u := SupersedeRound(s, e.at);
    SupersedeTail(s, e.at);
    ChunkTail(s, e.text, e.at);
    ThoughtTail(s, e.text, e.at);
    hide SupersedeRound, OnMessageChunk, OnThoughtChunk, RoundRows, RememberSuperseded, StampPending, DiskInv;
    if |s.calls| > 0 {
      FlushDisk(s, u, c, prior, RoundRows(t, Superseded));
    }
    QuietDisk(u, Step(s, e), c, prior);
  }

  lemma PlainTail(s: State, e: Event)
    requires e.ToolCallDecl? || e.ArgsSnapshot? || e.TokenUsage? || (e.ToolCallUpdate? && !IsTerminal(e.status))
    ensures UITail(s.out, Step(s, e).out) && Step(s, e).completed == s.completed
  {
    hide SetArgs;
  }

  lemma AcceptTail(s: State, id: string, content: string, status: Status, at: int)
    requires s.onFlush && s.calls != []
    ensures var t := s.(results := s.results + [RealResult(s, id, content, status, at)],
                        finishedAt := s.finishedAt[id := at]);
      var u := AcceptTerminal(s, id, content, status, at);
      if |t.results| >= |t.calls| then
        u.completed == s.completed + RoundRows(t, Interrupted) &&
          UITail(s.out + [Flush(RoundRows(t, Interrupted))], u.out)
      else u.completed == s.completed && UITail(s.out, u.out)
  {
    hide RoundRows, RealResult;
  }

  lemma AcceptDisk(s: State, id: string, content: string, status: Status, at: int, c: Codec, prior: seq<string>)
    requires DiskInv(s, c, prior) && s.onFlush && s.calls != []
    ensures DiskInv(AcceptTerminal(s, id, content, status, at), c, prior)
  {
    var t := s.(results := s.results + [RealResult(s, id, content, status, at)], finishedAt := s.finishedAt[id := at]);
    AcceptTail(s, id, content, status, at);
    hide AcceptTerminal, RoundRows, RealResult, DiskInv;
    if |t.results| >= |t.calls| {
      FlushDisk(s, AcceptTerminal(s, id, content, status, at), c, prior, RoundRows(t, Interrupted));
    } else {
      QuietDisk(s, AcceptTerminal(s, id, content, status, at), c, prior);
    }
  }

  // ----------------------------------------------------------------- stitching

  lemma OnlyOnePlaceholder(ms: seq<Message>, i: nat, j: nat)
    requires i < |ms| && j < |ms| && i != j && IsPlaceholderTool(ms[i])
    requires IsPlaceholderTool(ms[j]) && Distinct(ToolIds(ms))
    ensures ms[i].toolCallID != ms[j].toolCallID
  {
    ToolRowUnique(ms, i, j);
  }

  /** No prior row is a placeholder of the id. */
  lemma PriorHasNoMatch(c: Codec, prior: seq<string>, id: string, j: nat)
    requires PriorDisjoint(c, prior, [id]) && j < |prior|
    ensures !Matches(c, prior[j], id)
  {
    hide Matches;
    assert id in [id];
  }

  /** Nor is any other row of the transcript. */
  lemma OtherHasNoMatch(c: Codec, ms: seq<Message>, i: nat, k: nat)
    requires Faithful(c) && i < |ms| && k < |ms| && k != i && IsPlaceholderTool(ms[i]) && Distinct(ToolIds(ms))
    ensures !Matches(c, c.encode(ms[k]), ms[i].toolCallID)
  {
    hide *;
    EncodedMatches(c, ms[k], ms[i].toolCallID);
    if IsPlaceholderTool(ms[k]) {
      OnlyOnePlaceholder(ms, i, k);
    }
  }

  lemma RowOnDisk(c: Codec, prior: seq<string>, ms: seq<Message>, k: nat)
    requires k < |ms|
    ensures |prior| + k < |prior + PrintRows(c, ms)| && (prior + PrintRows(c, ms))[|prior| + k] == c.encode(ms[k])
  {
  }

  lemma FirstMatch(c: Codec, rows: seq<string>, id: string, k: nat)
    requires k < |rows| && Matches(c, rows[k], id) && forall j :: 0 <= j < k ==> !Matches(c, rows[j], id)
    ensures FindPlaceholder(c, rows, id) == Some(k)
  {
    var r := FindPlaceholder(c, rows, id);
    hide Matches;
    assert r.Some?;
    assert !(r.value < k) && !(k < r.value);
  }

  /** From the head, the file search stops at the very row memory replaced. */
  lemma DiskFindsSameRow(c: Codec, prior: seq<string>, ms: seq<Message>, i: nat)
    requires Faithful(c) && i < |ms| && IsPlaceholderTool(ms[i]) && Distinct(ToolIds(ms))
    requires PriorDisjoint(c, prior, [ms[i].toolCallID])
    ensures FindPlaceholder(c, prior + PrintRows(c, ms), ms[i].toolCallID) == Some(|prior| + i)
  {
    hide *;
    var id := ms[i].toolCallID;
    var rows := prior + PrintRows(c, ms);
    EncodedMatches(c, ms[i], id);
    RowOnDisk(c, prior, ms, i);
    forall j | 0 <= j < |prior| + i ensures !Matches(c, rows[j], id) {
      if j < |prior| {
        PriorHasNoMatch(c, prior, id, j);
      } else {
        RowOnDisk(c, prior, ms, j - |prior|);
        OtherHasNoMatch(c, ms, i, j - |prior|);
      }
    }
    FirstMatch(c, rows, id, |prior| + i);
  }

  lemma StitchDisk(s: State, u: State, c: Codec, prior: seq<string>, i: nat, r: Message)
    requires Faithful(c) && DiskInv(s, c, prior) && Distinct(ToolIds(s.completed))
    requires i < |s.completed| && IsPlaceholderTool(s.completed[i]) && s.completed[i].toolCallID == r.toolCallID != ""
    requires PriorDisjoint(c, prior, [r.toolCallID])
    requires MergeTiming(r, s.completed[i]) == r
    requires u.completed == s.completed[i := r] && UITail(s.out + [Stitch(r.toolCallID, r)], u.out)
    ensures DiskInv(u, c, prior)
  {
    var e := Stitch(r.toolCallID, r);
    DiskSnoc(c, prior, s.out, e);
    UITailKeepsDisk(c, prior, s.out + [e], u.out);
    DiskFindsSameRow(c, prior, s.completed, i);
    EncodedRow(c, s.completed[i]);
    hide Faithful, FindPlaceholder, ToolIds, MergeTiming, DiskRows;
    var rows := prior + PrintRows(c, s.completed);
    assert rows[|prior| + i] == c.encode(s.completed[i]);
    assert StitchRows(c, rows, r.toolCallID, r) == rows[|prior| + i := c.encode(r)];
    assert rows[|prior| + i := c.encode(r)] == prior + PrintRows(c, u.completed);
  }

  lemma LateTiming(s: State, id: string, content: string, status: Status, at: int, i: nat)
    requires TimeInv(s) && id in s.superseded && id !in CallIds(s.calls)
    requires i < |s.completed| && IsPlaceholderTool(s.completed[i]) && s.completed[i].toolCallID == id
    ensures var r := StitchedRow(s, id, content, status, at); MergeTiming(r, s.completed[i]) == r
  {
    assert PlaceholderTimed(s, s.completed[i]);
  }

  lemma OpenAndClosed(s: State, evs: seq<Event>, id: string)
    requires IdsInv(s, evs) && Distinct(Declared(evs)) && id in ToolIds(s.completed)
    ensures id !in CallIds(s.calls)
  {
    if id in CallIds(s.calls) {
      OpenIdIsNotClosed(s, evs, id);
    }
  }

  lemma SupersedeTimeCore(s: State, at: int)
    requires |s.calls| > 0
    ensures var t := RememberSuperseded(StampPending(s, at));
      var u := SupersedeRound(s, at);
      && u.startedAt == map[] && u.finishedAt == map[] && u.calls == []
      && u.completed == s.completed + RoundRows(t, Superseded) && u.superseded == t.superseded
      && t.startedAt == s.startedAt && t.calls == s.calls && t.results == s.results
      && (forall id :: id in t.superseded <==> id in s.superseded || id in PendingIds(s.calls, s.results))
      && (forall id :: id in PendingIds(s.calls, s.results) ==>
            t.superseded[id].toolStartedAt == if id in s.startedAt then s.startedAt[id] else 0)
      && (forall id :: id in s.superseded && id !in PendingIds(s.calls, s.results) ==>
          t.superseded[id] == s.superseded[id])
  {
    hide RoundRows, PendingIds;
  }

  lemma NothingSuperseded(s: State, at: int)
    requires |s.calls| == 0
    ensures SupersedeRound(s, at) == s
  {
  }

  lemma ClosedIsNotPending(s: State, evs: seq<Event>, i: nat)
    requires Inv(s, evs) && Distinct(Declared(evs)) && i < |s.completed| && s.completed[i].role == Tool
    ensures s.completed[i].toolCallID !in PendingIds(s.calls, s.results)
  {
    ToolIdsMember(s.completed, i);
    OpenAndClosed(s, evs, s.completed[i].toolCallID);
    PendingMembers(s.calls, s.results, s.completed[i].toolCallID);
  }

  lemma SameCoreResults(s: State, t: State, evs: seq<Event>)
    requires ResultsInv(s, evs) && s.calls == t.calls && s.results == t.results
    ensures ResultsInv(t, evs)
  {
    forall i | 0 <= i < |t.results| ensures ResultOK(t.results[i], t, evs) {
      assert ResultOK(s.results[i], s, evs);
    }
  }

  lemma NewPlaceholderTimed(s: State, t: State, evs: seq<Event>, k: nat)
    requires Inv(s, evs) && s.calls == t.calls && s.results == t.results && s.startedAt == t.startedAt && s.calls != []
    requires k < |RoundRows(t, Superseded)| && IsPlaceholderTool(RoundRows(t, Superseded)[k])
    ensures var m := RoundRows(t, Superseded)[k];
      && m.toolCallID in PendingIds(s.calls, s.results)
      && m.extra.startedAt == PositiveStamp(s.startedAt, m.toolCallID)
  {
    hide Declared, IsHistory, ToolIds;
    var id := s.calls[k - 1].id;
    SameCoreResults(s, t, evs);
    OrderedRowIds(t, evs, Superseded);
    OrderedRowContent(t, evs, Superseded, k - 1);
    PendingAreUnanswered(s, evs, id);
    PendingMembers(s.calls, s.results, id);
    FirstResultFinds(s.results, id);
    assert CallIds(s.calls)[k - 1] == id;
    assert RoundRows(t, Superseded)[k] == OrderedRow(id, t, Superseded);
  }

  lemma SupersedeTime(s: State, evs: seq<Event>, at: int)
    requires Inv(s, evs) && Distinct(Declared(evs)) && TimeInv(s)
    ensures TimeInv(SupersedeRound(s, at))
  {
    hide SupersedeRound, RememberSuperseded, StampPending, Inv, RoundRows;
    if |s.calls| == 0 {
      NothingSuperseded(s, at);
    } else {
      var t := RememberSuperseded(StampPending(s, at));
      var u, n := SupersedeRound(s, at), |s.completed|;
      SupersedeTimeCore(s, at);
      forall i | 0 <= i < |u.completed| && IsPlaceholderTool(u.completed[i])
        ensures PlaceholderTimed(u, u.completed[i])
      {
        if i < n {
          assert u.completed[i] == s.completed[i];
          assert PlaceholderTimed(s, s.completed[i]);
          ClosedIsNotPending(s, evs, i);
        } else {
          assert u.completed[i] == RoundRows(t, Superseded)[i - n];
          NewPlaceholderTimed(s, t, evs, i - n);
        }
      }
    }
  }

  lemma ChunkTimeCore(s: State, text: string, at: int)
    requires s.handler
    ensures var t, u := SupersedeRound(s, at), OnMessageChunk(s, text, at);
      u.startedAt == t.startedAt && u.finishedAt == t.finishedAt && u.superseded == t.superseded
    ensures var t, u := SupersedeRound(s, at), OnThoughtChunk(s, text, at);
      u.startedAt == t.startedAt && u.finishedAt == t.finishedAt && u.superseded == t.superseded
  {
    hide SupersedeRound;
  }

  predicate SameClock(s: State, t: State) {
    s.startedAt == t.startedAt && s.finishedAt == t.finishedAt && s.superseded == t.superseded &&
      s.completed == t.completed
  }

  lemma SameClockKeepsTime(s: State, t: State)
    requires TimeInv(s) && SameClock(s, t) && (forall id :: id in CallIds(s.calls) ==> id in CallIds(t.calls))
    ensures TimeInv(t)
  {
    forall i | 0 <= i < |t.completed| && IsPlaceholderTool(t.completed[i]) ensures PlaceholderTimed(t, t.completed[i]) {
      assert PlaceholderTimed(s, s.completed[i]);
    }
  }

  lemma ChunkTime(s: State, evs: seq<Event>, e: Event)
    requires e.MessageChunk? || e.ThoughtChunk?
    requires Inv(s, evs) && Distinct(Declared(evs)) && TimeInv(s) && s.handler
    ensures TimeInv(Step(s, e))
  {
    SupersedeTime(s, evs, e.at);
    ChunkCore(s, e.text, e.at);
    ThoughtCore(s, e.text, e.at);
    ChunkTimeCore(s, e.text, e.at);
    hide SupersedeRound, OnMessageChunk, OnThoughtChunk, Inv, TimeInv;
    SameClockKeepsTime(SupersedeRound(s, e.at), Step(s, e));
  }

  lemma DeclareTime(s: State, id: string, title: string, at: int)
    requires TimeInv(s)
    ensures TimeInv(OnToolCall(s, id, title, at))
  {
    if s.handler {
      var u := OnToolCall(s, id, title, at);
      assert u.calls == s.calls + [ToolCall(id, title, "")] && u.startedAt == s.startedAt[id := at] &&
               u.finishedAt == s.finishedAt;
      assert u.completed == s.completed && u.superseded == s.superseded;
      hide OnToolCall;
      assert CallIds(u.calls) == CallIds(s.calls) + [id];
      forall i | 0 <= i < |u.completed| && IsPlaceholderTool(u.completed[i])
        ensures PlaceholderTimed(u, u.completed[i])
      {
        assert PlaceholderTimed(s, s.completed[i]);
      }
    }
  }

  lemma PlainTime(s: State, e: Event)
    requires e.ArgsSnapshot? || e.TokenUsage? || (e.ToolCallUpdate? && !IsTerminal(e.status))
    requires TimeInv(s)
    ensures TimeInv(Step(s, e))
  {
    if e.ArgsSnapshot? {
      SetArgsKeepsIds(s.calls, e.id, e.args, true);
    } else if e.ToolCallUpdate? {
      SetArgsKeepsIds(s.calls, e.id, e.content, false);
    }
    hide SetArgs, TimeInv;
    SameClockKeepsTime(s, Step(s, e));
  }

  lemma AcceptTimeCore(s: State, id: string, content: string, status: Status, at: int)
    requires s.calls != []
    ensures var t := s.(results := s.results + [RealResult(s, id, content, status, at)],
                        finishedAt := s.finishedAt[id := at]);
      var u := AcceptTerminal(s, id, content, status, at);
      && u.superseded == s.superseded
      && if |t.results| >= |t.calls| then
           u.startedAt == map[] && u.finishedAt == map[] && u.completed == s.completed + RoundRows(t, Interrupted)
         else u.startedAt == s.startedAt && u.finishedAt == s.finishedAt[id := at] && u.completed == s.completed &&
                u.calls == s.calls
  {
    hide RoundRows, RealResult;
  }

  lemma AssistantLeads(t: State, reason: Reason)
    ensures |RoundRows(t, reason)| > 0 && RoundRows(t, reason)[0].role == Assistant
  {
  }

  lemma AcceptTime(s: State, p: seq<Event>, evs: seq<Event>)
    requires evs != [] && p == evs[..|evs| - 1] && evs[|evs| - 1].ToolCallUpdate? && IsTerminal(evs[|evs| - 1].status)
    requires Inv(s, p) && Distinct(Declared(p)) && TimeInv(s)
    requires evs[|evs| - 1].id in CallIds(s.calls) && evs[|evs| - 1].id !in ResultIds(s.results)
    ensures var e := evs[|evs| - 1]; TimeInv(AcceptTerminal(s, e.id, e.content, e.status, e.at))
  {
    hide AcceptTerminal, RoundRows, Answer, Declared, RowsInv, SupersededInv, IdsInv, ToolIds, IsHistory;
    var e := evs[|evs| - 1];
    var r := RealResult(s, e.id, e.content, e.status, e.at);
    var t := s.(results := s.results + [r], finishedAt := s.finishedAt[e.id := e.at]);
    var u, n := AcceptTerminal(s, e.id, e.content, e.status, e.at), |s.completed|;
    TerminalAnswers(p, evs);
    OpenIdIsNotClosed(s, p, e.id);
    UnansweredPending(s, p, e.id);
    AcceptBeforeFlush(s, t, r, p, evs);
    AcceptTimeCore(s, e.id, e.content, e.status, e.at);
    var full := |t.results| >= |t.calls|;
    if full {
      TerminalFlushHasNoPlaceholder(t, evs, Interrupted);
    }
    AssistantLeads(t, Interrupted);
    hide AcceptTerminal, RoundRows, Inv, Answer, Declared, RealResult, ResultsInv, RowsInv, SupersededInv, IdsInv;
    forall i | n <= i < |u.completed| ensures !IsPlaceholderTool(u.completed[i]) {
      assert u.completed[i] == RoundRows(t, Interrupted)[i - n];
    }
    forall i | 0 <= i < n && IsPlaceholderTool(u.completed[i]) ensures PlaceholderTimed(u, u.completed[i]) {
      assert PlaceholderTimed(s, s.completed[i]);
    }
  }

  lemma LateTimeCore(s: State, id: string, content: string, status: Status, at: int, i: nat)
    requires id in s.superseded && StitchIndex(s.completed, id) == Some(i)
    ensures var u, r := LateTerminal(s, id, content, status, at), StitchedRow(s, id, content, status, at);
      && u.completed == s.completed[i := r] && u.calls == s.calls && u.superseded == s.superseded - {id}
      && u.startedAt == s.startedAt && u.finishedAt == s.finishedAt && !r.extra.placeholder
  {
  }

  lemma LateTime(s: State, p: seq<Event>, id: string, content: string, status: Status, at: int)
    requires Inv(s, p) && Distinct(Declared(p)) && TimeInv(s) && id in s.superseded
    ensures TimeInv(LateTerminal(s, id, content, status, at))
  {
    var i := LateRow(s, p, id);
    var u := LateTerminal(s, id, content, status, at);
    LateTimeCore(s, id, content, status, at, i);
    hide LateTerminal, StitchedRow, Inv, StitchIndex, ToolIds, Distinct, Declared, Answer;
    forall k | 0 <= k < |u.completed| && IsPlaceholderTool(u.completed[k]) ensures PlaceholderTimed(u, u.completed[k]) {
      assert k != i;
      OnlyOnePlaceholder(s.completed, i, k);
      assert PlaceholderTimed(s, s.completed[k]);
    }
  }

  lemma StepTime(s: State, p: seq<Event>, evs: seq<Event>)
    requires evs != [] && p == evs[..|evs| - 1]
    requires Inv(s, p) && Distinct(Declared(p)) && TimeInv(s) && s.handler
    ensures TimeInv(Step(s, evs[|evs| - 1]))
  {
    var e := evs[|evs| - 1];
    hide Inv, TimeInv, Declared, OnToolCall, AcceptTerminal, LateTerminal;
    if e.MessageChunk? || e.ThoughtChunk? {
      ChunkTime(s, p, e);
    } else if e.ToolCallDecl? {
      DeclareTime(s, e.id, e.title, e.at);
    } else if !(e.ToolCallUpdate? && IsTerminal(e.status)) {
      PlainTime(s, e);
    } else if e.id in CallIds(s.calls) && e.id !in ResultIds(s.results) {
      AcceptTime(s, p, evs);
    } else if e.id !in CallIds(s.calls) && e.id in s.superseded {
      LateTime(s, p, e.id, e.content, e.status, e.at);
    }
  }

  lemma {:induction false} RunTime(evs: seq<Event>)
    requires Distinct(Declared(evs))
    ensures TimeInv(Run(evs))
  {
    if evs != [] {
      var p := evs[..|evs| - 1];
      DistinctPrefix(evs);
      RunInv(p);
      RunTime(p);
      StepTime(Run(p), p, evs);
    }
  }

  /** The finish stamp of a stitched result is the arrival of the late terminal:
      the stamp taken by the superseding flush is gone with its round. */
  lemma StitchedFinishIsArrival(evs: seq<Event>, id: string, content: string, status: Status, at: int)
    requires Distinct(Declared(evs)) && id in Run(evs).superseded
    ensures StitchedRow(Run(evs), id, content, status, at).extra.finishedAt == Some(at)
  {
    RunInv(evs);
    RunTime(evs);
    var i := LateRow(Run(evs), evs, id);
    ToolIdsMember(Run(evs).completed, i);
    OpenAndClosed(Run(evs), evs, id);
  }

  lemma LateTail(s: State, id: string, content: string, status: Status, at: int, i: nat)
    requires id in s.superseded && s.onStitch && s.handler && StitchIndex(s.completed, id) == Some(i)
    ensures var u, r := LateTerminal(s, id, content, status, at), StitchedRow(s, id, content, status, at);
      && u.completed == s.completed[i := r] && UITail(s.out + [Stitch(id, r)], u.out) && r.toolCallID == id
  {
  }

  lemma LateDisk(s: State, p: seq<Event>, id: string, content: string, status: Status, at: int, c: Codec,
                 prior: seq<string>)
    requires Inv(s, p) && Distinct(Declared(p)) && TimeInv(s) && DiskInv(s, c, prior) && Faithful(c)
    requires PriorDisjoint(c, prior, Declared(p)) && id != ""
    requires id in s.superseded && id !in CallIds(s.calls) && s.onStitch && s.handler
    ensures DiskInv(LateTerminal(s, id, content, status, at), c, prior)
  {
    var i := LateRow(s, p, id);
    LateTiming(s, id, content, status, at, i);
    LateTail(s, id, content, status, at, i);
    assert PriorDisjoint(c, prior, [id]);
    hide LateTerminal, StitchedRow, Inv, TimeInv, DiskInv, Faithful, MergeTiming;
    StitchDisk(s, LateTerminal(s, id, content, status, at), c, prior, i, StitchedRow(s, id, content, status, at));
  }

  /** A late result reaches the file exactly when its call id is not empty: the
      file rewrite refuses an empty id, the swap in memory does not. */
  lemma LateResultReachesDisk(s: State, p: seq<Event>, id: string, content: string, status: Status, at: int, c: Codec,
                              prior: seq<string>)
    requires Inv(s, p) && Distinct(Declared(p)) && TimeInv(s) && DiskInv(s, c, prior) && Faithful(c)
    requires PriorDisjoint(c, prior, Declared(p))
    requires id in s.superseded && id !in CallIds(s.calls) && s.onStitch && s.handler
    ensures DiskInv(LateTerminal(s, id, content, status, at), c, prior) <==> id != ""
  {
    if id != "" {
      LateDisk(s, p, id, content, status, at, c, prior);
    } else {
      var i := LateRow(s, p, id);
      var u, r := LateTerminal(s, id, content, status, at), StitchedRow(s, id, content, status, at);
      LateTail(s, id, content, status, at, i);
      DiskSnoc(c, prior, s.out, Stitch(id, r));
      UITailKeepsDisk(c, prior, s.out + [Stitch(id, r)], u.out);
      EncodedRow(c, s.completed[i]);
      EncodedRow(c, r);
      assert !r.extra.placeholder;
      hide LateTerminal, StitchedRow, Inv, TimeInv, Faithful, DiskRows;
      assert (prior + PrintRows(c, u.completed))[|prior| + i] == c.encode(r);
      assert (prior + PrintRows(c, s.completed))[|prior| + i] == c.encode(s.completed[i]);
    }
  }

  // --------------------------------------------------------------------- runs

  lemma StepDisk(s: State, p: seq<Event>, evs: seq<Event>, c: Codec, prior: seq<string>)
    requires evs != [] && p == evs[..|evs| - 1]
    requires Inv(s, p) && Distinct(Declared(p)) && TimeInv(s) && DiskInv(s, c, prior)
    requires Faithful(c) && PriorDisjoint(c, prior, Declared(p)) && "" !in Declared(p)
    requires s.handler && s.onFlush && s.onStitch
    ensures DiskInv(Step(s, evs[|evs| - 1]), c, prior)
  {
    var e := evs[|evs| - 1];
    hide Inv, TimeInv, DiskInv, Declared, Faithful;
    hide OnToolCall, AcceptTerminal, LateTerminal, OnMessageChunk, OnThoughtChunk;
    if e.MessageChunk? || e.ThoughtChunk? {
      ChunkDisk(s, e, c, prior);
    } else if !(e.ToolCallUpdate? && IsTerminal(e.status)) {
      PlainTail(s, e);
      QuietDisk(s, Step(s, e), c, prior);
    } else if e.id in CallIds(s.calls) && e.id !in ResultIds(s.results) {
      AcceptDisk(s, e.id, e.content, e.status, e.at, c, prior);
    } else if e.id !in CallIds(s.calls) && e.id in s.superseded {
      LateDisk(s, p, e.id, e.content, e.status, e.at, c, prior);
    }
  }

  /** After every event of every run, the file holds the prior rows followed by
      the encoded completed messages. */
  lemma {:induction false} DiskRefinesMemory(evs: seq<Event>, c: Codec, prior: seq<string>)
    requires Distinct(Declared(evs)) && "" !in Declared(evs)
    requires Faithful(c) && PriorDisjoint(c, prior, Declared(evs))
    ensures DiskRows(c, prior, Run(evs).out) == prior + PrintRows(c, Run(evs).completed)
  {
    if evs == [] {
      assert PrintRows(c, []) == [];
    } else {
      var p := evs[..|evs| - 1];
      DistinctPrefix(evs);
      RunInv(p);
      RunTime(p);
      assert forall id :: id in Declared(p) ==> id in Declared(evs);
      DiskRefinesMemory(p, c, prior);
      StepDisk(Run(p), p, evs, c, prior);
    }
  }

  lemma EmitTail(s: State, reason: Reason, at: int)
    ensures var t := EmitPendingEnds(s, reason, at);
      UITail(s.out, t.out) && t.completed == s.completed && SameCallbacks(s, t)
  {
    hide PendingIds;
  }

  lemma FinalTail(t: State, reason: Reason)
    requires t.onFlush
    ensures var f := FlushRound(t, reason);
      if NothingToFlush(t) then f == t
      else f.completed == t.completed + RoundRows(t, reason) && UITail(t.out + [Flush(RoundRows(t, reason))], f.out)
  {
    hide RoundRows;
  }

  /** The close-out keeps the refinement. */
  lemma FinalDisk(evs: seq<Event>, reason: Reason, at: int, c: Codec, prior: seq<string>)
    requires Distinct(Declared(evs)) && "" !in Declared(evs)
    requires Faithful(c) && PriorDisjoint(c, prior, Declared(evs))
    ensures var f := BeforeCollect(Run(evs), reason, at);
      DiskRows(c, prior, f.out) == prior + PrintRows(c, f.completed)
  {
    RunInv(evs);
    DiskRefinesMemory(evs, c, prior);
    var s := Run(evs);
    var t := EmitPendingEnds(s, reason, at);
    EmitTail(s, reason, at);
    hide Run, EmitPendingEnds;
    QuietDisk(s, t, c, prior);
    FinalTail(t, reason);
    hide FlushRound, RoundRows;
    if !NothingToFlush(t) {
      FlushDisk(t, FlushRound(t, reason), c, prior, RoundRows(t, reason));
    }
  }

  // ------------------------------------------------------------- an empty call id

  /** A call without an id, a chunk that supersedes it, and its late result. */
  const NAMELESS: seq<Event> := [ToolCallDecl("", "tool", 1), MessageChunk("m", 2),
                                 ToolCallUpdate("", "r", Completed, 3)]

  lemma DiskApart(s: State, c: Codec)
    requires !DiskInv(s, c, [])
    ensures DiskRows(c, [], s.out) != PrintRows(c, s.completed)
  {
    hide DiskRows, PrintRows;
    assert [] + PrintRows(c, s.completed) == PrintRows(c, s.completed);
  }

  /** What the stream declares and answers, and its last step. */
  lemma NamelessFacts()
    ensures var p := [NAMELESS[0], NAMELESS[1]];
      && Declared(p) == [""] && Answer(p, "").None? && Distinct(Declared(p))
      && Distinct(Declared(NAMELESS)) && Answer(NAMELESS, "") == Some(ResultText("r", Completed))
      && Run(NAMELESS) == Step(Run(p), NAMELESS[2])
  {
    var e1, e2 := NAMELESS[0], NAMELESS[1];
    assert NAMELESS[..2] == [e1, e2] && [e1, e2][..1] == [e1] && [e1][..0] == [];
    hide Step;
    assert Declared([]) == [] && Declared([e1]) == [""] && Declared([e1, e2]) == [""] && Declared(NAMELESS) == [""];
    assert Answer([], "") == None && Answer([e1], "") == None && Answer([e1, e2], "") == None;
  }

  lemma NamelessStart(c: Codec, e1: Event, e2: Event)
    requires Faithful(c) && e1.ToolCallDecl? && e2.MessageChunk?
    ensures var s := Run([e1, e2]); s.calls == [] && SameCallbacks(Fresh(true, true, true), s) && DiskInv(s, c, [])
  {
    var s0 := Fresh(true, true, true);
    assert [e1, e2][..1] == [e1] && [e1][..0] == [] && Run([]) == s0;
    var s1 := Run([e1]);
    assert s1 == Step(s0, e1) && Run([e1, e2]) == Step(s1, e2);
    assert DiskInv(s0, c, []);
    hide Run, DiskInv, SupersedeRound;
    PlainTail(s0, e1);
    QuietDisk(s0, s1, c, []);
    StepKeepsCallbacks(s0, e1);
    StepKeepsCallbacks(s1, e2);
    ChunkDisk(s1, e2, c, []);
    ChunkCore(s1, e2.text, e2.at);
  }

  lemma NamelessLate(s: State, p: seq<Event>, e: Event, c: Codec)
    requires Inv(s, p) && Declared(p) == [""] && Answer(p, "").None? && s.calls == []
    requires TimeInv(s) && DiskInv(s, c, []) && Faithful(c) && s.handler && s.onStitch
    requires e.ToolCallUpdate? && e.id == "" && IsTerminal(e.status)
    ensures !DiskInv(Step(s, e), c, [])
  {
    assert IdsInv(s, p) && CallIds(s.calls) == [] && ToolIds(s.completed) == ToolIds(s.completed) + CallIds(s.calls);
    assert ToolIds(s.completed)[0] == "";
    assert "" in s.superseded;
    hide Inv, TimeInv, DiskInv, LateTerminal;
    assert Step(s, e) == LateTerminal(s, "", e.content, e.status, e.at);
    LateResultReachesDisk(s, p, "", e.content, e.status, e.at, c, []);
  }

  /** Memory holds the late result of that run; the file keeps the placeholder. */
  lemma NamelessResultIsLost(c: Codec)
    requires Faithful(c)
    ensures Distinct(Declared(NAMELESS)) && Answer(NAMELESS, "") == Some(ResultText("r", Completed))
    ensures DiskRows(c, [], Run(NAMELESS).out) != PrintRows(c, Run(NAMELESS).completed)
  {
    NamelessFacts();
    var p := [NAMELESS[0], NAMELESS[1]];
    hide *;
    RunInv(p);
    RunTime(p);
    NamelessStart(c, NAMELESS[0], NAMELESS[1]);
    NamelessLate(Run(p), p, NAMELESS[2], c);
    DiskApart(Run(NAMELESS), c);
  }

  // -------------------------------------------------------------------- bytes

  lemma {:induction false} BytesFollowRows(c: Codec, prior: seq<string>, out: seq<Effect>)
    requires Faithful(c) && GoodRows(prior)
    ensures GoodRows(DiskRows(c, prior, out))
    ensures DiskBytes(c, Render(prior), out) == Render(DiskRows(c, prior, out))
  {
    if out != [] {
      var o, e := out[..|out| - 1], out[|out| - 1];
      BytesFollowRows(c, prior, o);
      var rows := DiskRows(c, prior, o);
      match e
      case Flush(ms) =>
        PrintedIsGood(c, rows, ms);
        RenderConcat(rows, PrintRows(c, ms));
      case Stitch(id, m) =>
        if rows != [] {
          StitchCleanFile(c, rows, id, m);
        }
      case UI(_) =>
    }
  }

  /** End to end: the bytes after a closed run reload as the prior history
      followed by the transcript. */
  lemma ReloadIsTranscript(evs: seq<Event>, reason: Reason, at: int, c: Codec, prior: seq<string>)
    requires Distinct(Declared(evs)) && "" !in Declared(evs)
    requires Faithful(c) && GoodRows(prior) && PriorDisjoint(c, prior, Declared(evs))
    ensures var f := BeforeCollect(Run(evs), reason, at);
      LoadAll(c, DiskBytes(c, Render(prior), f.out)) == LoadAll(c, Render(prior)) + f.completed
  {
    var f := BeforeCollect(Run(evs), reason, at);
    FinalDisk(evs, reason, at, c, prior);
    BytesFollowRows(c, prior, f.out);
    hide BeforeCollect, Run, DiskRows, DiskBytes;
    LoadOfRender(c, prior);
    PrintedIsGood(c, prior, f.completed);
    LoadOfRender(c, prior + PrintRows(c, f.completed));
    ParsePrinted(c, prior, f.completed);
  }
}
