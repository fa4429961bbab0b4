/**
  The layers together: what the builder writes is exactly what makes recovery
  and paging correct.
*/
module Pipeline {
  import opened Wrappers
  import opened Messages
  import opened M = RoundModel
  import opened RoundDeclare
  import opened RoundInvariant
  import opened RoundTerminal
  import opened RoundTranscript
  import opened RoundConserve
  import opened RoundDisk
  import opened StoreModel
  import opened StoreTheorems
  import opened Recovery
  import opened RecoveryTheorems
  import opened TailFacts
  import opened PagingTheorems
  import opened RoundArgs
  import A = AdapterModel
  import RoundPage

  lemma EncodedIsWell(c: Codec, rows: seq<string>, ms: seq<Message>)
    requires Faithful(c) && WellRows(rows)
    ensures WellRows(rows + PrintRows(c, ms))
  {
    var all := rows + PrintRows(c, ms);
    forall i | 0 <= i < |all| ensures WellRow(all[i]) {
      if i >= |rows| {
        EncodedRow(c, ms[i - |rows|]);
      }
    }
  }

  lemma EncodedHold(c: Codec, rows: seq<string>, before: seq<Message>, ms: seq<Message>)
    requires Faithful(c) && RowsHold(c, rows, before)
    ensures RowsHold(c, rows + PrintRows(c, ms), before + ms)
  {
    var all := rows + PrintRows(c, ms);
    forall i | 0 <= i < |all| ensures c.decode(all[i]) == Some((before + ms)[i]) {
      if i >= |rows| {
        EncodedRow(c, ms[i - |rows|]);
      }
    }
  }

  /** A run that closed normally. */
  function Closed(evs: seq<Event>, reason: Reason, at: int): State { BeforeCollect(Run(evs), reason, at) }

  lemma ClosedFacts(evs: seq<Event>, reason: Reason, at: int, c: Codec, prior: seq<string>)
    requires Distinct(Declared(evs)) && "" !in Declared(evs)
    requires Faithful(c) && GoodRows(prior) && PriorDisjoint(c, prior, Declared(evs))
    ensures var f := Closed(evs, reason, at);
      IsHistory(f.completed) && DiskBytes(c, Render(prior), f.out) == Render(prior + PrintRows(c, f.completed))
  {
    hide IsHistory, Declared, DiskBytes, DiskRows, BeforeCollect;
    hide Run, GoodRows, PriorDisjoint, FinalRowOK, ToolIds, Render;
    TranscriptIsTheAnswers(evs, reason, at);
    FinalDisk(evs, reason, at, c, prior);
    BytesFollowRows(c, prior, Closed(evs, reason, at).out);
  }

  /** On a stored history no scan cuts, and pages that end at a boundary start at one. */
  predicate PagesWhole(c: Codec, rows: seq<string>, ms: seq<Message>, j: nat, limit: nat)
    requires j <= |rows| && j <= |ms|
  {
    limit > 0 && IsHistory(ms[..j]) ==> IsHistory(ms[..PageStart(c, rows, j, limit)])
  }

  lemma StoredHistory(c: Codec, rows: seq<string>, ms: seq<Message>)
    requires RowsHold(c, rows, ms) && IsHistory(ms)
    ensures forall start, cut :: IsCut(ms, start, cut) ==> cut.None?
    ensures forall j: nat, limit: nat :: 0 < j <= |ms| && j <= |rows| ==> PagesWhole(c, rows, ms, j, limit)
  {
    hide IsHistory, IsCut, PageStart;
    forall start, cut | IsCut(ms, start, cut) ensures cut.None? {
      CleanHistoryKept(ms, start, cut);
    }
    forall j: nat, limit: nat | 0 < j <= |ms| && j <= |rows| ensures PagesWhole(c, rows, ms, j, limit) {
      if limit > 0 && IsHistory(ms[..j]) {
        PagesAreWholeRounds(c, rows, ms, j, limit);
      }
    }
  }

  /**
    After any run that closed normally on a history of rounds, the file is again
    rows of a history of rounds: no later scan cuts it, wherever it starts, and
    every page that ends at a block boundary starts at one.
  */
  lemma ClosedRunIsClean(evs: seq<Event>, reason: Reason, at: int, c: Codec, prior: seq<string>, before: seq<Message>)
    requires Distinct(Declared(evs)) && "" !in Declared(evs)
    requires Faithful(c) && GoodRows(prior) && WellRows(prior) && RowsHold(c, prior, before) && IsHistory(before)
    requires PriorDisjoint(c, prior, Declared(evs))
    ensures var f := Closed(evs, reason, at);
      var rows, ms := prior + PrintRows(c, f.completed), before + f.completed;
      && DiskBytes(c, Render(prior), f.out) == Render(rows)
      && WellRows(rows) && RowsHold(c, rows, ms) && IsHistory(ms)
      && (forall start, cut :: IsCut(ms, start, cut) ==> cut.None?)
      && (forall j: nat, limit: nat :: 0 < j <= |ms| && j <= |rows| ==> PagesWhole(c, rows, ms, j, limit))
  {
    hide *;
    ClosedFacts(evs, reason, at, c, prior);
    var f := Closed(evs, reason, at);
    HistoryConcat(before, f.completed);
    EncodedIsWell(c, prior, f.completed);
    EncodedHold(c, prior, before, f.completed);
    StoredHistory(c, prior + PrintRows(c, f.completed), before + f.completed);
  }

  lemma KilledFacts(evs: seq<Event>, c: Codec, prior: seq<string>)
    requires Distinct(Declared(evs)) && "" !in Declared(evs)
    requires Faithful(c) && PriorDisjoint(c, prior, Declared(evs))
    ensures IsHistory(Run(evs).completed)
    ensures DiskRows(c, prior, Run(evs).out) == prior + PrintRows(c, Run(evs).completed)
  {
    hide IsHistory, Declared, DiskRows, Run, PriorDisjoint, IdsInv, ResultsInv, RowsInv, SupersededInv;
    RunInv(evs);
    DiskRefinesMemory(evs, c, prior);
  }

  lemma KilledFile(c: Codec, prior: seq<string>, before: seq<Message>, done: seq<Message>, b: seq<Message>, k: nat,
                   us: seq<Message>, index: Option<int>, cut: Option<nat>)
    requires Faithful(c) && GoodRows(prior) && ParseRows(c, prior) == before && IsHistory(before) && IsHistory(done)
    requires GoodBlock(b) && k <= |b|
    requires index.None? || index.value <= |before + done| || index.value > |before + done| + k
    requires IsCut(before + done + b[..k], StartIndex(index, |before + done| + k), cut)
    ensures var content := Render(prior + PrintRows(c, done) + PrintRows(c, b[..k]));
      && LoadAll(c, content) == before + done + b[..k]
      && LoadAll(c, AfterBeginRun(c, content, cut, us)) ==
         before + done + (if k == |b| then b else []) +
         if exists i :: 0 <= i < |us| && !us[i].extra.prePersisted then us else []
  {
    hide *;
    var rows := prior + PrintRows(c, done);
    var h := before + done;
    HistoryConcat(before, done);
    PrintedIsGood(c, prior, done);
    PrintedIsGood(c, rows, b[..k]);
    ParsePrinted(c, prior, done);
    ParsePrinted(c, rows, b[..k]);
    CrashRecovery(c, rows + PrintRows(c, b[..k]), h, b, k, us, index, cut);
    assert b[..|b|] == b;
    assert h + b[..0] == h && h + [] == h;
  }

  /**
    A run killed after any event, with any number of rows of its next flush on
    disk: the next BeginRun leaves the history before the run, every round the run
    had flushed, late results included, and nothing of the interrupted one.
  */
  lemma KilledRunRecovers(evs: seq<Event>, c: Codec, prior: seq<string>, before: seq<Message>, b: seq<Message>, k: nat,
                          us: seq<Message>, index: Option<int>, cut: Option<nat>)
    requires Distinct(Declared(evs)) && "" !in Declared(evs)
    requires Faithful(c) && GoodRows(prior) && ParseRows(c, prior) == before && IsHistory(before)
    requires PriorDisjoint(c, prior, Declared(evs)) && GoodBlock(b) && k <= |b|
    requires var n := |before + Run(evs).completed|; index.None? || index.value <= n || index.value > n + k
    requires IsCut(before + Run(evs).completed + b[..k], StartIndex(index, |before + Run(evs).completed| + k), cut)
    ensures var content := Render(DiskRows(c, prior, Run(evs).out) + PrintRows(c, b[..k]));
      && LoadAll(c, content) == before + Run(evs).completed + b[..k]
      && LoadAll(c, AfterBeginRun(c, content, cut, us)) ==
         before + Run(evs).completed + (if k == |b| then b else []) +
         if exists i :: 0 <= i < |us| && !us[i].extra.prePersisted then us else []
  {
    hide *;
    KilledFacts(evs, c, prior);
    KilledFile(c, prior, before, Run(evs).completed, b, k, us, index, cut);
  }

  // ------------------------------------------------------ the flush of one event

  /** The rows by which a list of completed messages has grown. */
  function Grown(was: seq<Message>, now: seq<Message>): seq<Message> {
    if |was| <= |now| then now[|was|..] else []
  }

  /** The number of completed messages stays, or one good block is appended to them. */
  predicate GrowsByBlock(s: State, u: State) {
    || |u.completed| == |s.completed|
    || (|u.completed| > |s.completed| && u.completed[..|s.completed|] == s.completed &&
        GoodBlock(Grown(s.completed, u.completed)))
  }

  lemma OpenIdsAreNamed(s: State, evs: seq<Event>)
    requires IdsInv(s, evs) && Distinct(Declared(evs)) && "" !in Declared(evs)
    ensures Distinct(CallIds(s.calls)) && "" !in CallIds(s.calls)
  {
    OpenAreDistinct(s, evs);
    hide Declared, ToolIds, Distinct, CallIds;
    assert forall i :: 0 <= i < |CallIds(s.calls)| ==> Declared(evs)[|ToolIds(s.completed)| + i] == CallIds(s.calls)[i];
  }

  lemma RoundIsGood(t: State, evs: seq<Event>, reason: Reason)
    requires IdsInv(t, evs) && ResultsInv(t, evs) && (t.calls == [] ==> t.results == [])
    requires Distinct(Declared(evs)) && "" !in Declared(evs)
    ensures GoodBlock(RoundRows(t, reason))
  {
    FlushedRoundShape(t, evs, reason);
    OpenIdsAreNamed(t, evs);
    assert RoundRows(t, reason)[0].toolCalls == t.calls;
    hide RoundRows, IdsInv, ResultsInv, Declared, Distinct, IsRound;
  }

  lemma FlushGrows(s: State, t: State, u: State, evs: seq<Event>, reason: Reason)
    requires IdsInv(t, evs) && ResultsInv(t, evs) && (t.calls == [] ==> t.results == [])
    requires Distinct(Declared(evs)) && "" !in Declared(evs)
    requires u.completed == s.completed + RoundRows(t, reason)
    ensures GrowsByBlock(s, u)
  {
    RoundIsGood(t, evs, reason);
    hide RoundRows, GoodBlock, IdsInv, ResultsInv, Declared, Distinct;
    assert Grown(s.completed, u.completed) == RoundRows(t, reason);
  }

  lemma SupersedeGrows(s: State, evs: seq<Event>, at: int)
    requires Inv(s, evs) && Distinct(Declared(evs)) && "" !in Declared(evs) && s.onFlush
    ensures GrowsByBlock(s, SupersedeRound(s, at))
  {
    var t := RememberSuperseded(StampPending(s, at));
    SupersedeTail(s, at);
    SameCoreKeepsInv(s, t, evs);
    assert t.calls == s.calls && t.results == s.results;
    hide RoundRows, SupersedeRound, StampPending, RememberSuperseded, IdsInv, ResultsInv, Declared;
    if |s.calls| > 0 {
      FlushGrows(s, t, SupersedeRound(s, at), evs, Superseded);
    }
  }

  lemma AcceptGrows(s: State, p: seq<Event>, evs: seq<Event>)
    requires evs != [] && p == evs[..|evs| - 1] && evs[|evs| - 1].ToolCallUpdate? && IsTerminal(evs[|evs| - 1].status)
    requires Inv(s, p) && Distinct(Declared(p)) && Distinct(Declared(evs)) && "" !in Declared(evs) && s.onFlush
    requires evs[|evs| - 1].id in CallIds(s.calls) && evs[|evs| - 1].id !in ResultIds(s.results)
    ensures var e := evs[|evs| - 1]; GrowsByBlock(s, AcceptTerminal(s, e.id, e.content, e.status, e.at))
  {
    var e := evs[|evs| - 1];
    var r := RealResult(s, e.id, e.content, e.status, e.at);
    var t := s.(results := s.results + [r], finishedAt := s.finishedAt[e.id := e.at]);
    TerminalAnswers(p, evs);
    UnansweredPending(s, p, e.id);
    assert s.calls != [];
    AcceptTail(s, e.id, e.content, e.status, e.at);
    AcceptBeforeFlush(s, t, r, p, evs);
    hide RoundRows, AcceptTerminal, RealResult, IdsInv, ResultsInv, Declared, Answer;
    if |t.results| >= |t.calls| {
      FlushGrows(s, t, AcceptTerminal(s, e.id, e.content, e.status, e.at), evs, Interrupted);
    }
  }

  lemma NamedBefore(evs: seq<Event>)
    requires evs != [] && Distinct(Declared(evs)) && "" !in Declared(evs)
    ensures var p := evs[..|evs| - 1];
      Distinct(Declared(p)) && "" !in Declared(p) && forall id :: id in Declared(p) ==> id in Declared(evs)
  {
    DistinctPrefix(evs);
    hide Distinct;
  }

  lemma RunUnfolds(evs: seq<Event>)
    requires evs != []
    ensures Run(evs) == Step(Run(evs[..|evs| - 1]), evs[|evs| - 1])
  {
    hide Step;
  }

  lemma RunHolds(p: seq<Event>)
    requires Distinct(Declared(p))
    ensures var s := Run(p); Inv(s, p) && s.handler && s.onFlush
  {
    hide Run, Declared, Distinct, IdsInv, ResultsInv, RowsInv, SupersededInv, IsHistory;
    RunInv(p);
  }

  lemma StepGrows(s: State, p: seq<Event>, evs: seq<Event>)
    requires evs != [] && p == evs[..|evs| - 1] && Inv(s, p) && s.handler && s.onFlush
    requires Distinct(Declared(p)) && "" !in Declared(p) && Distinct(Declared(evs)) && "" !in Declared(evs)
    ensures GrowsByBlock(s, Step(s, evs[|evs| - 1]))
  {
    var e := evs[|evs| - 1];
    hide Inv, Declared, Distinct, GoodBlock, OnToolCall;
    hide AcceptTerminal, LateTerminal, OnMessageChunk, OnThoughtChunk, SupersedeRound;
    if e.MessageChunk? || e.ThoughtChunk? {
      SupersedeGrows(s, p, e.at);
      ChunkTail(s, e.text, e.at);
      ThoughtTail(s, e.text, e.at);
    } else if !(e.ToolCallUpdate? && IsTerminal(e.status)) {
      PlainTail(s, e);
    } else if e.id in CallIds(s.calls) && e.id !in ResultIds(s.results) {
      AcceptGrows(s, p, evs);
    }
  }

  /** Each event of a run leaves the number of completed messages or appends one good block to them. */
  lemma EventGrows(evs: seq<Event>)
    requires evs != [] && Distinct(Declared(evs)) && "" !in Declared(evs)
    ensures GrowsByBlock(Run(evs[..|evs| - 1]), Run(evs))
  {
    hide *;
    NamedBefore(evs);
    RunUnfolds(evs);
    RunHolds(evs[..|evs| - 1]);
    StepGrows(Run(evs[..|evs| - 1]), evs[..|evs| - 1], evs);
  }

  lemma FinalGrows(s: State, evs: seq<Event>, reason: Reason, at: int)
    requires Inv(s, evs) && s.onFlush && Distinct(Declared(evs)) && "" !in Declared(evs)
    ensures GrowsByBlock(s, BeforeCollect(s, reason, at))
  {
    var t := EmitPendingEnds(s, reason, at);
    EmitPendingEndsCore(s, reason, at);
    SameCoreKeepsInv(s, t, evs);
    FinalTail(t, reason);
    hide RoundRows, FlushRound, EmitPendingEnds, IdsInv, ResultsInv;
    hide RowsInv, SupersededInv, IsHistory, Declared, Distinct;
    if !NothingToFlush(t) {
      FlushGrows(s, t, FlushRound(t, reason), evs, reason);
    }
  }

  /** So does the close-out. */
  lemma CloseGrows(evs: seq<Event>, reason: Reason, at: int)
    requires Distinct(Declared(evs)) && "" !in Declared(evs)
    ensures GrowsByBlock(Run(evs), Closed(evs, reason, at))
  {
    RunHolds(evs);
    hide Run, Inv, Declared, Distinct;
    FinalGrows(Run(evs), evs, reason, at);
  }

  /** What a run does next: one more event, or its close-out. */
  datatype Next = OneMore(e: Event) | CloseOut(reason: Reason, at: int)

  function Heard(evs: seq<Event>, next: Next): seq<Event> { if next.OneMore? then evs + [next.e] else evs }

  function Behind(evs: seq<Event>, next: Next): State {
    match next
    case OneMore(e) => Run(evs + [e])
    case CloseOut(reason, at) => Closed(evs, reason, at)
  }

  lemma NextGrows(evs: seq<Event>, next: Next)
    requires Distinct(Declared(Heard(evs, next))) && "" !in Declared(Heard(evs, next))
    ensures GrowsByBlock(Run(evs), Behind(evs, next))
    ensures Distinct(Declared(evs)) && forall id :: id in Declared(evs) ==> id in Declared(Heard(evs, next))
  {
    hide Run, Closed, GrowsByBlock, Distinct;
    match next
    case OneMore(e) =>
      assert (evs + [e])[..|evs|] == evs;
      DistinctPrefix(evs + [e]);
      EventGrows(evs + [e]);
    case CloseOut(reason, at) => CloseGrows(evs, reason, at);
  }

  lemma NextIsBlock(s: State, u: State)
    requires GrowsByBlock(s, u) && |s.completed| < |u.completed|
    ensures GoodBlock(Grown(s.completed, u.completed)) && u.completed[..|s.completed|] == s.completed
  {
  }

  lemma FewerAreDisjoint(c: Codec, prior: seq<string>, ids: seq<string>, more: seq<string>)
    requires PriorDisjoint(c, prior, more) && (forall id :: id in ids ==> id in more)
    ensures PriorDisjoint(c, prior, ids) && ("" !in more ==> "" !in ids)
  {
  }

  lemma Rejoin(before: seq<Message>, was: seq<Message>, now: seq<Message>)
    requires |was| <= |now| && now[..|was|] == was
    ensures before + was + Grown(was, now) == before + now && before + was + [] == before + was
    ensures |Grown(was, now)| == |now| - |was|
  {
    assert was + Grown(was, now) == now;
  }

  /**
    A run killed while its next event or its close-out flushes, with k rows of that
    flush on disk: `was` and `now` are the completed messages before and behind it.
    The next BeginRun keeps the flushed round if all of its rows are there, and nothing
    of it otherwise.
  */
  lemma KilledInFlush(evs: seq<Event>, next: Next, was: seq<Message>, now: seq<Message>, c: Codec, prior: seq<string>,
                      before: seq<Message>, k: nat, content: string, us: seq<Message>,
                      index: Option<int>, cut: Option<nat>)
    requires var heard := Declared(Heard(evs, next)); Distinct(heard) && "" !in heard && PriorDisjoint(c, prior, heard)
    requires Faithful(c) && GoodRows(prior) && ParseRows(c, prior) == before && IsHistory(before)
    requires was == Run(evs).completed && now == Behind(evs, next).completed && |was| < |now| && |was| + k <= |now|
    requires content == Render(DiskRows(c, prior, Run(evs).out) + PrintRows(c, Grown(was, now)[..k]))
    requires var n := |before + was|; index.None? || index.value <= n || index.value > n + k
    requires IsCut(before + was + Grown(was, now)[..k], StartIndex(index, |before + was| + k), cut)
    ensures LoadAll(c, content) == before + was + Grown(was, now)[..k]
    ensures LoadAll(c, AfterBeginRun(c, content, cut, us)) ==
              before + (if |was| + k == |now| then now else was) +
              if exists i :: 0 <= i < |us| && !us[i].extra.prePersisted then us else []
  {
    hide *;
    NextGrows(evs, next);
    NextIsBlock(Run(evs), Behind(evs, next));
    FewerAreDisjoint(c, prior, Declared(evs), Declared(Heard(evs, next)));
    Rejoin(before, was, now);
    KilledRunRecovers(evs, c, prior, before, Grown(was, now), k, us, index, cut);
  }

  // ------------------------------------------------- from fragments to stored rows

  /** The builder event that a handler call of the stream adapter is. */
  function EventOf(call: A.Call, at: int): Event {
    match call
    case Thought(text) => ThoughtChunk(text, at)
    case Say(text) => MessageChunk(text, at)
    case Declare(id, name) => ToolCallDecl(id, name, at)
    case Args(id, text) => ToolCallUpdate(id, text, InProgress, at)
    case Terminal(id, text, failed) => ToolCallUpdate(id, text, if failed then Failed else Completed, at)
  }

  function EventsOf(calls: seq<A.Call>, at: int -> int): (evs: seq<Event>)
    ensures |evs| == |calls|
  {
    if calls == [] then [] else EventsOf(calls[..|calls| - 1], at) + [EventOf(calls[|calls| - 1], at(|calls| - 1))]
  }

  lemma FirstOfPrefix(calls: seq<A.Call>, id: string)
    requires calls != [] && A.DeclaredFirst(calls, id)
    ensures A.DeclaredFirst(calls[..|calls| - 1], id)
  {
    var p := calls[..|calls| - 1];
    forall i | 0 <= i < |p| && p[i].Args? && p[i].id == id
      ensures exists j :: 0 <= j < i && p[j].Declare? && p[j].id == id
    {
      assert calls[i] == p[i];
      var j :| 0 <= j < i && calls[j].Declare? && calls[j].id == id;
      assert p[j] == calls[j];
    }
  }

  lemma {:induction false} NoDeclaration(calls: seq<A.Call>, id: string)
    requires A.Declares(calls, id) == 0
    ensures forall j :: 0 <= j < |calls| ==> !(calls[j].Declare? && calls[j].id == id)
  {
    if calls != [] {
      var n := |calls| - 1;
      NoDeclaration(calls[..n], id);
      assert forall j :: 0 <= j < n ==> calls[..n][j] == calls[j];
    }
  }

  lemma {:induction false} NothingBeforeDeclaration(calls: seq<A.Call>, id: string)
    requires A.DeclaredFirst(calls, id) && A.Declares(calls, id) == 0
    ensures A.Forwarded(calls, id) == []
  {
    if calls != [] {
      var n := |calls| - 1;
      FirstOfPrefix(calls, id);
      NothingBeforeDeclaration(calls[..n], id);
      NoDeclaration(calls, id);
    }
  }

  lemma HeardStep(calls: seq<A.Call>, at: int -> int, id: string)
    requires calls != []
    ensures var n := |calls| - 1; var before := ArgsHeard(EventsOf(calls[..n], at), id);
      ArgsHeard(EventsOf(calls, at), id) ==
        if calls[n].Declare? && calls[n].id == id then ""
        else if calls[n].Args? && calls[n].id == id then before + calls[n].text
        else before
  {
    var n := |calls| - 1;
    assert EventsOf(calls, at)[..n] == EventsOf(calls[..n], at);
  }

  lemma NothingJoined()
    ensures Join([]) == ""
  {
  }

  lemma ForwardedStep(calls: seq<A.Call>, id: string)
    requires calls != []
    ensures var n := |calls| - 1;
      && A.Forwarded(calls, id) ==
           A.Forwarded(calls[..n], id) + (if calls[n].Args? && calls[n].id == id then [calls[n].text] else [])
      && A.Declares(calls, id) == A.Declares(calls[..n], id) + (if calls[n].Declare? && calls[n].id == id then 1 else 0)
      && A.DeclaredNames(calls, id) ==
           A.DeclaredNames(calls[..n], id) + (if calls[n].Declare? && calls[n].id == id then [calls[n].name] else [])
  {
  }

  /** What the builder hears for a call are the updates that the adapter forwarded, joined. */
  lemma {:induction false} HeardIsForwarded(calls: seq<A.Call>, at: int -> int, id: string)
    requires A.DeclaredFirst(calls, id) && A.Declares(calls, id) <= 1
    ensures ArgsHeard(EventsOf(calls, at), id) == Join(A.Forwarded(calls, id))
  {
    if calls == [] {
    } else {
      hide ArgsHeard, Join, A.Forwarded, A.Declares, A.DeclaredFirst, EventsOf;
      var n := |calls| - 1;
      FirstOfPrefix(calls, id);
      ForwardedStep(calls, id);
      HeardIsForwarded(calls[..n], at, id);
      HeardStep(calls, at, id);
      if calls[n].Declare? && calls[n].id == id {
        NothingBeforeDeclaration(calls[..n], id);
        NothingJoined();
      } else if calls[n].Args? && calls[n].id == id {
        JoinSnoc(A.Forwarded(calls[..n], id), calls[n].text);
      } else {
        assert A.Forwarded(calls[..n], id) + [] == A.Forwarded(calls[..n], id);
      }
    }
  }

  lemma {:induction false} DeclarationCounts(calls: seq<A.Call>, j: nat, id: string)
    requires j < |calls| && calls[j].Declare? && calls[j].id == id
    ensures A.Declares(calls, id) > 0
  {
    if j < |calls| - 1 {
      DeclarationCounts(calls[..|calls| - 1], j, id);
    }
  }

  lemma LastIsDeclaredFirst(calls: seq<A.Call>, tools: seq<A.Call>, id: string)
    requires calls != [] && A.DeclaredFirst(calls[..|calls| - 1], id)
    requires A.DeclaredFirst(tools + [calls[|calls| - 1]], id)
    requires A.Declares(calls[..|calls| - 1], id) == A.Declares(tools, id)
    ensures A.DeclaredFirst(calls, id)
  {
    var n := |calls| - 1;
    var c := calls[n];
    assert calls == calls[..n] + [c];
    if c.Args? && c.id == id {
      assert (tools + [c])[|tools|] == c;
      var j :| 0 <= j < |tools| && (tools + [c])[j].Declare? && (tools + [c])[j].id == id;
      DeclarationCounts(tools, j, id);
      A.DeclareExists(calls[..n], id);
    }
    hide A.Declares;
    A.DeclaredFirstSnoc(calls[..n], [c], id);
  }

  /** The calls of a stream that carry tool calls decide what is declared and forwarded. */
  lemma {:induction false} OnlyToolCallsCount(calls: seq<A.Call>, id: string)
    requires A.DeclaredFirst(A.ToolCalls(calls), id)
    ensures A.DeclaredFirst(calls, id)
    ensures A.Declares(calls, id) == A.Declares(A.ToolCalls(calls), id)
    ensures A.Forwarded(calls, id) == A.Forwarded(A.ToolCalls(calls), id)
    ensures A.DeclaredNames(calls, id) == A.DeclaredNames(A.ToolCalls(calls), id)
  {
    if calls != [] {
      var n := |calls| - 1;
      var c := calls[n];
      var tools := A.ToolCalls(calls[..n]);
      assert calls == calls[..n] + [c];
      if c.Declare? || c.Args? {
        assert A.ToolCalls(calls) == tools + [c] && (tools + [c])[..|tools|] == tools;
        FirstOfPrefix(tools + [c], id);
      } else {
        assert A.ToolCalls(calls) == tools + [] == tools;
      }
      OnlyToolCallsCount(calls[..n], id);
      ForwardedStep(calls, id);
      if c.Declare? || c.Args? {
        ForwardedStep(tools + [c], id);
        LastIsDeclaredFirst(calls, tools, id);
      } else {
        hide A.ToolCalls, A.Declares, A.Forwarded, A.DeclaredNames;
        A.DeclaredFirstSnoc(calls[..n], [c], id);
      }
    }
  }

  lemma {:induction false} TerminalsCarryNoCalls(r: A.Results, ids: seq<string>, declared: set<string>,
                                                 failures: set<string>)
    ensures A.ToolCalls(A.Terminals(r, ids, declared, failures)) == []
  {
    if ids != [] {
      var n := |ids| - 1;
      TerminalsCarryNoCalls(r, ids[..n], declared, failures);
      var front, ts := A.Terminals(r, ids[..n], declared, failures), A.Terminals(r, ids, declared, failures);
      if ts != front {
        assert ts[..|ts| - 1] == front;
      }
    }
  }

  /** None of the calls declares the id or carries arguments for it. */
  predicate NoneOf(calls: seq<A.Call>, id: string) {
    forall i :: 0 <= i < |calls| && (calls[i].Declare? || calls[i].Args?) ==> calls[i].id != id
  }

  lemma {:induction false} NoneCounts(calls: seq<A.Call>, id: string)
    requires NoneOf(calls, id)
    ensures A.Declares(calls, id) == 0 && A.Forwarded(calls, id) == [] && A.DeclaredNames(calls, id) == []
  {
    if calls != [] {
      NoneCounts(calls[..|calls| - 1], id);
    }
  }

  lemma DeclaredBehind(before: seq<A.Call>, calls: seq<A.Call>, id: string, i: nat)
    requires NoneOf(before, id) && A.DeclaredFirst(calls, id)
    requires i < |before + calls| && (before + calls)[i].Args? && (before + calls)[i].id == id
    ensures exists j :: 0 <= j < i && (before + calls)[j].Declare? && (before + calls)[j].id == id
  {
    var m := i - |before|;
    assert forall n :: 0 <= n < |before| ==> (before + calls)[n] == before[n];
    assert calls[m] == (before + calls)[i];
    var j :| 0 <= j < m && calls[j].Declare? && calls[j].id == id;
    assert (before + calls)[|before| + j] == calls[j];
  }

  lemma FirstBehind(before: seq<A.Call>, calls: seq<A.Call>, id: string)
    requires NoneOf(before, id) && A.DeclaredFirst(calls, id)
    ensures A.DeclaredFirst(before + calls, id)
  {
    var all := before + calls;
    forall i | 0 <= i < |all| && all[i].Args? && all[i].id == id
      ensures exists j :: 0 <= j < i && all[j].Declare? && all[j].id == id
    {
      DeclaredBehind(before, calls, id, i);
    }
  }

  /** Calls of other streams, in front and behind, change nothing for an id. */
  lemma OthersDoNotCount(before: seq<A.Call>, calls: seq<A.Call>, after: seq<A.Call>, id: string)
    requires NoneOf(before, id) && NoneOf(after, id) && A.DeclaredFirst(calls, id)
    ensures var all := before + calls + after;
      && A.DeclaredFirst(all, id) && A.Declares(all, id) == A.Declares(calls, id)
      && A.Forwarded(all, id) == A.Forwarded(calls, id) && A.DeclaredNames(all, id) == A.DeclaredNames(calls, id)
  {
    NoneCounts(before, id);
    NoneCounts(after, id);
    A.ProjectConcat(before, calls, id);
    A.ProjectConcat(before + calls, after, id);
    hide A.Declares, A.Forwarded, A.DeclaredNames;
    FirstBehind(before, calls, id);
    A.DeclaredFirstSnoc(before + calls, after, id);
  }

  /** The handler calls of one stream of a run. */
  function OwnCalls(st: A.State, chunks: seq<A.Chunk>): seq<A.Call> {
    var calls := A.ForwardStream(st, chunks, false).calls;
    if |st.calls| <= |calls| then calls[|st.calls|..] else []
  }

  lemma OwnIsFed(before: seq<A.Call>, fed: seq<A.Call>, ts: seq<A.Call>, calls: seq<A.Call>)
    requires |before| <= |fed| && fed[..|before|] == before && calls == fed + ts
    ensures calls[|before|..] == fed[|before|..] + ts && calls == before + calls[|before|..]
  {
    assert fed == before + fed[|before|..];
  }

  lemma FedCalls(fs: seq<(int, A.Frag)>, k: int, idOf: int -> string)
    requires A.StableIds(fs, idOf) && A.SeenId(fs, k) && A.SeenName(fs, k)
    ensures var out := A.FeedAll(fs).1;
      && A.DeclaredFirst(out, idOf(k)) && A.Declares(out, idOf(k)) == 1
      && A.Forwarded(out, idOf(k)) == A.Fragments(fs, k)
      && A.DeclaredNames(out, idOf(k)) == [A.NameAtStart(fs, k)]
  {
    hide A.StableIds, A.SeenId, A.SeenName, A.FeedAll, A.DeclaredFirst;
    hide A.Declares, A.Forwarded, A.Fragments, A.DeclaredNames, A.IdAt, A.NameAt, A.BufAt, A.LastName, A.NameAtStart;
    A.Reassembly(fs, k, idOf);
  }

  /** A stream's handler calls declare a complete position once, first, by its name, and forward its fragments. */
  lemma StreamForwards(st: A.State, chunks: seq<A.Chunk>, k: int, idOf: int -> string)
    requires A.StableIds(A.AllFrags(chunks), idOf)
    requires A.SeenId(A.AllFrags(chunks), k) && A.SeenName(A.AllFrags(chunks), k)
    ensures var own := OwnCalls(st, chunks);
      && A.ForwardStream(st, chunks, false).calls == st.calls + own
      && A.DeclaredFirst(own, idOf(k)) && A.Declares(own, idOf(k)) == 1
      && A.Forwarded(own, idOf(k)) == A.Fragments(A.AllFrags(chunks), k)
      && A.DeclaredNames(own, idOf(k)) == [A.NameAtStart(A.AllFrags(chunks), k)]
  {
    var fs := A.AllFrags(chunks);
    var (s, r) := A.ForwardAll(st, chunks);
    var calls := A.ForwardStream(st, chunks, false).calls;
    var ts := A.Terminals(A.Collect(A.ToolTexts(chunks), A.PER_TOOL, A.PER_STREAM), A.FirstSeen(A.ToolTexts(chunks)),
                          s.declared, s.failures);
    A.StreamDelivers(st, chunks);
    var fed := s.calls[|st.calls|..];
    OwnIsFed(st.calls, s.calls, ts, calls);
    hide A.ForwardStream, A.ForwardAll, A.FeedAll, A.Terminals;
    hide A.StableIds, A.SeenId, A.SeenName, A.Collect, A.FirstSeen;
    TerminalsCarryNoCalls(A.Collect(A.ToolTexts(chunks), A.PER_TOOL, A.PER_STREAM), A.FirstSeen(A.ToolTexts(chunks)),
                          s.declared, s.failures);
    A.ToolCallsConcat(fed, ts);
    assert A.ToolCalls(fed + ts) == A.FeedAll(fs).1 + [] == A.FeedAll(fs).1;
    FedCalls(fs, k, idOf);
    OnlyToolCallsCount(fed + ts, idOf(k));
  }

  lemma {:induction false} IsDeclared(calls: seq<A.Call>, at: int -> int, id: string)
    requires A.Declares(calls, id) >= 1
    ensures id in Declared(EventsOf(calls, at))
  {
    if calls != [] {
      var n := |calls| - 1;
      assert EventsOf(calls, at)[..n] == EventsOf(calls[..n], at);
      if !(calls[n].Declare? && calls[n].id == id) {
        IsDeclared(calls[..n], at, id);
      }
    }
  }

  lemma {:induction false} NoSnapshot(calls: seq<A.Call>, at: int -> int)
    ensures forall j :: 0 <= j < |calls| ==> !EventsOf(calls, at)[j].ArgsSnapshot?
  {
    if calls != [] {
      var n := |calls| - 1;
      NoSnapshot(calls[..n], at);
      assert forall j :: 0 <= j < n ==> EventsOf(calls, at)[j] == EventsOf(calls[..n], at)[j];
    }
  }

  lemma NoSnapshots(calls: seq<A.Call>, at: int -> int, id: string)
    ensures var late := LateEvents(EventsOf(calls, at), id);
      forall j :: 0 <= j < |late| ==> !(late[j].ArgsSnapshot? && late[j].id == id)
  {
    NoSnapshot(calls, at);
    hide EventsOf, HeldUntil;
  }

  lemma StoredArgs(evs: seq<Event>, reason: Reason, now: int, i: nat, j: nat)
    requires Distinct(Declared(evs))
    requires var c := Closed(evs, reason, now).completed; i < |c| && c[i].role == Assistant && j < |c[i].toolCalls|
    ensures var call := Closed(evs, reason, now).completed[i].toolCalls[j]; call.args == ArgsKept(evs, call.id)
  {
    hide Run, BeforeCollect, Declared, ArgsKept, Distinct;
    TranscriptHoldsArgs(evs, reason, now, i, j);
  }

  lemma {:induction false} NameIsDeclared(calls: seq<A.Call>, at: int -> int, pair: (string, string))
    requires pair in Received(EventsOf(calls, at)).calls
    ensures pair.1 in A.DeclaredNames(calls, pair.0)
  {
    var n := |calls| - 1;
    assert EventsOf(calls, at)[..n] == EventsOf(calls[..n], at);
    if pair in Received(EventsOf(calls[..n], at)).calls {
      NameIsDeclared(calls[..n], at, pair);
    }
  }

  lemma {:induction false} StoredPair(ms: seq<Message>, i: nat, j: nat)
    requires i < |ms| && ms[i].role == Assistant && j < |ms[i].toolCalls|
    ensures (ms[i].toolCalls[j].id, ms[i].toolCalls[j].name) in Said(ms).calls
  {
    if i > 0 {
      StoredPair(ms[1..], i - 1, j);
    } else {
      assert CallPairs(ms[0].toolCalls)[j] == (ms[0].toolCalls[j].id, ms[0].toolCalls[j].name);
    }
  }

  /** A stored call has a name under which its id was declared. */
  lemma StoredName(calls: seq<A.Call>, at: int -> int, reason: Reason, now: int, i: nat, j: nat)
    requires Distinct(Declared(EventsOf(calls, at)))
    requires var c := Closed(EventsOf(calls, at), reason, now).completed;
      i < |c| && c[i].role == Assistant && j < |c[i].toolCalls|
    ensures var call := Closed(EventsOf(calls, at), reason, now).completed[i].toolCalls[j];
      call.name in A.DeclaredNames(calls, call.id)
  {
    var evs := EventsOf(calls, at);
    TranscriptHoldsEverything(evs, reason, now);
    assert Closed(evs, reason, now).completed == BeforeCollect(Run(evs), reason, now).completed;
    hide *;
    var c := Closed(evs, reason, now).completed;
    StoredPair(c, i, j);
    NameIsDeclared(calls, at, (c[i].toolCalls[j].id, c[i].toolCalls[j].name));
  }

  /**
    From stream to file, for any stream of a run: the stored call of a complete
    position has the name that completed it, and it holds exactly its fragments,
    joined in order, if and only if none with text was forwarded after the round of
    the call had closed. `st` is the adapter
    before the stream and `after` are the handler calls of what follows; neither says
    anything of the call. A stream whose text follows its tool calls closes the round.
  */
  lemma FragmentsReachTheTranscript(st: A.State, chunks: seq<A.Chunk>, after: seq<A.Call>, k: int, idOf: int -> string,
                                    at: int -> int, reason: Reason, now: int, i: nat, j: nat)
    requires A.StableIds(A.AllFrags(chunks), idOf) && NoneOf(st.calls, idOf(k)) && NoneOf(after, idOf(k))
    requires A.SeenId(A.AllFrags(chunks), k) && A.SeenName(A.AllFrags(chunks), k)
    requires Distinct(Declared(EventsOf(A.ForwardStream(st, chunks, false).calls + after, at)))
    requires var c := Closed(EventsOf(A.ForwardStream(st, chunks, false).calls + after, at), reason, now).completed;
      i < |c| && c[i].role == Assistant && j < |c[i].toolCalls| && c[i].toolCalls[j].id == idOf(k)
    ensures var evs := EventsOf(A.ForwardStream(st, chunks, false).calls + after, at);
      Closed(evs, reason, now).completed[i].toolCalls[j].name == A.NameAtStart(A.AllFrags(chunks), k)
    ensures var evs := EventsOf(A.ForwardStream(st, chunks, false).calls + after, at);
      Closed(evs, reason, now).completed[i].toolCalls[j].args == Join(A.Fragments(A.AllFrags(chunks), k)) <==>
        forall m :: 0 <= m < |LateEvents(evs, idOf(k))| ==> !LateDelta(LateEvents(evs, idOf(k))[m], idOf(k))
  {
    var calls := A.ForwardStream(st, chunks, false).calls + after;
    var evs := EventsOf(calls, at);
    hide *;
    StreamForwards(st, chunks, k, idOf);
    OthersDoNotCount(st.calls, OwnCalls(st, chunks), after, idOf(k));
    HeardIsForwarded(calls, at, idOf(k));
    StoredArgs(evs, reason, now, i, j);
    StoredName(calls, at, reason, now, i, j);
    IsDeclared(calls, at, idOf(k));
    NoSnapshots(calls, at, idOf(k));
    KeptIsHeardIffNoLateDelta(evs, idOf(k));
  }

  lemma {:induction false} HeardIsSpoken(calls: seq<A.Call>, at: int -> int)
    ensures var heard := Received(EventsOf(calls, at));
      heard.text == A.SaidIn(calls) && heard.thought == A.ThoughtIn(calls)
  {
    if calls != [] {
      var n := |calls| - 1;
      HeardIsSpoken(calls[..n], at);
      assert EventsOf(calls, at)[..n] == EventsOf(calls[..n], at);
    }
  }

  /** From stream to page: the page is told what was said before, and then the texts of the stream's chunks. */
  lemma StreamReachesThePage(st: A.State, chunks: seq<A.Chunk>, broken: bool, at: int -> int)
    ensures var heard := RoundPage.PageHeard(Run(EventsOf(A.ForwardStream(st, chunks, broken).calls, at)).out);
      && heard.text == A.SaidIn(st.calls) + A.Contents(chunks)
      && heard.thought == A.ThoughtIn(st.calls) + A.Reasonings(chunks)
  {
    hide *;
    var calls := A.ForwardStream(st, chunks, broken).calls;
    A.VoicesOfStream(st, chunks, broken);
    HeardIsSpoken(calls, at);
    RoundPage.PageHearsTheStream(EventsOf(calls, at));
  }
}
