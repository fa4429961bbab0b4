/**
  The live UI. `Show` is a monitor for the handler calls: it breaks on any call
  out of protocol, and otherwise keeps what the page displays. No run breaks
  it, and what is on the page is what a reload reads back.
*/
module RoundScreen {
  import opened Wrappers
  import opened Messages
  import opened RoundModel
  import opened RoundDeclare
  import opened RoundInvariant
  import opened RoundTerminal
  import opened RoundTranscript

  datatype Segment = Idle | InText | InReasoning

  datatype Bubble =
    | Running
    | Resulted(text: string, success: bool)
    | Ended(text: string)
    | Cut(reason: Reason)
    | Restored(text: string)

  /** `persisted` holds the tool ids whose round has been handed to onFlush, and
      `stitched` those handed to onStitch. */
  datatype Screen =
    | Broken
    | Screen(seg: Segment, bubbles: map<string, Bubble>, persisted: set<string>, stitched: set<string>)

  predicate NoneOpen(b: map<string, Bubble>) {
    forall id :: id in b ==> b[id] != Running && !b[id].Resulted?
  }

  function SetBubble(v: Screen, id: string, b: Bubble): Screen
    requires v.Screen?
  {
    v.(bubbles := v.bubbles[id := b])
  }

  function Show(v: Screen, ev: UIEvent): Screen {
    if v.Broken? then v
    else match ev
      case MessageStart => if v.seg == Idle && NoneOpen(v.bubbles) then v.(seg := InText) else Broken
      case MessageDelta(_) => if v.seg == InText then v else Broken
      case MessageEnd => if v.seg == InText then v.(seg := Idle) else Broken
      case ThoughtStart => if v.seg == Idle && NoneOpen(v.bubbles) then v.(seg := InReasoning) else Broken
      case ThoughtDelta(_) => if v.seg == InReasoning then v else Broken
      case ThoughtEnd => if v.seg == InReasoning then v.(seg := Idle) else Broken
      case ToolStart(id, _) => if v.seg == Idle && id !in v.bubbles then SetBubble(v, id, Running) else Broken
      case ToolArgs(_, _, _) => v
      case ToolResult(id, content, success) =>
        if id in v.bubbles && v.bubbles[id] == Running then SetBubble(v, id, Resulted(content, success)) else Broken
      case ToolEnd(id, success) =>
        if id in v.bubbles && v.bubbles[id].Resulted? && v.bubbles[id].success == success
        then SetBubble(v, id, Ended(v.bubbles[id].text)) else Broken
      case ToolInterrupted(id, reason) =>
        if id in v.bubbles && v.bubbles[id] == Running && (reason == Superseded ==> id in v.persisted)
        then SetBubble(v, id, Cut(reason)) else Broken
      case ToolStitched(id, content, _) =>
        if id in v.bubbles && v.bubbles[id] == Cut(Superseded) && id in v.stitched
        then SetBubble(v, id, Restored(content)) else Broken
      case Usage(_) => v
  }

  function ShowEffect(v: Screen, e: Effect): Screen {
    match e
    case UI(ev) => Show(v, ev)
    case Flush(rows) => if v.Broken? then v else v.(persisted := v.persisted + set id | id in ToolIds(rows))
    case Stitch(id, row) => if v.Broken? then v else v.(stitched := v.stitched + {id})
  }

  function View(out: seq<Effect>): Screen {
    if out == [] then Screen(Idle, map[], {}, {})
    else ShowEffect(View(out[..|out| - 1]), out[|out| - 1])
  }

  function BubbleText(b: Bubble): string {
    match b
    case Running => ""
    case Resulted(text, _) => text
    case Ended(text) => text
    case Cut(reason) => PlaceholderText(reason)
    case Restored(text) => text
  }

  lemma ViewSnoc(out: seq<Effect>, e: Effect)
    ensures View(out + [e]) == ShowEffect(View(out), e)
  {
    assert (out + [e])[..|out|] == out;
  }

  lemma ViewEmit(s: State, ev: UIEvent)
    ensures View(Emit(s, ev).out) == Show(View(s.out), ev)
  {
    ViewSnoc(s.out, UI(ev));
  }

  function CutAll(b: map<string, Bubble>, ids: seq<string>, reason: Reason): map<string, Bubble> {
    b + map id | id in ids :: Cut(reason)
  }

  lemma CutAllSnoc(b: map<string, Bubble>, f: seq<string>, l: string, reason: Reason)
    ensures CutAll(b, f + [l], reason) == CutAll(b, f, reason)[l := Cut(reason)]
    ensures l !in f && l in b ==> l in CutAll(b, f, reason) && CutAll(b, f, reason)[l] == b[l]
  {
    var x, y := CutAll(b, f + [l], reason), CutAll(b, f, reason)[l := Cut(reason)];
    forall id ensures id in x <==> id in y {
      assert id in f + [l] <==> id in f || id == l;
    }
    forall id | id in y ensures x[id] == y[id] {
      assert id in f + [l] <==> id in f || id == l;
    }
  }

  lemma ShowCut(v: Screen, f: seq<string>, l: string, reason: Reason)
    requires v.Screen? && l !in f && l in v.bubbles && v.bubbles[l] == Running
    requires reason == Superseded ==> l in v.persisted
    ensures Show(v.(bubbles := CutAll(v.bubbles, f, reason)), ToolInterrupted(l, reason)) ==
            v.(bubbles := CutAll(v.bubbles, f + [l], reason))
  {
    CutAllSnoc(v.bubbles, f, l, reason);
    hide CutAll;
  }

  lemma {:induction false} ViewInterruptions(out: seq<Effect>, ids: seq<string>, reason: Reason)
    requires View(out).Screen? && Distinct(ids)
    requires forall id :: id in ids ==> id in View(out).bubbles && View(out).bubbles[id] == Running
    requires reason == Superseded ==> forall id :: id in ids ==> id in View(out).persisted
    ensures var v := View(out);
      View(out + Interruptions(ids, reason)) == v.(bubbles := CutAll(v.bubbles, ids, reason))
  {
    hide View, Show;
    var v := View(out);
    if ids == [] {
      assert out + Interruptions(ids, reason) == out;
      assert CutAll(v.bubbles, ids, reason) == v.bubbles;
    } else {
      var f, l := ids[..|ids| - 1], ids[|ids| - 1];
      assert ids == f + [l] && l in ids;
      ViewInterruptions(out, f, reason);
      assert out + Interruptions(ids, reason) == (out + Interruptions(f, reason)) + [UI(ToolInterrupted(l, reason))];
      ViewSnoc(out + Interruptions(f, reason), UI(ToolInterrupted(l, reason)));
      ShowCut(v, f, l, reason);
    }
  }

  lemma {:induction false} PendingDistinct(calls: seq<ToolCall>, results: seq<Message>)
    requires Distinct(CallIds(calls))
    ensures Distinct(PendingIds(calls, results))
  {
    if calls != [] {
      var f, l := calls[..|calls| - 1], calls[|calls| - 1];
      assert forall i :: 0 <= i < |f| ==> CallIds(f)[i] == CallIds(calls)[i];
      PendingDistinct(f, results);
      PendingMembers(f, results, l.id);
      assert l.id !in CallIds(f) by {
        assert CallIds(calls)[|f|] == l.id;
      }
    }
  }

  // ---------------------------------------------------------------- invariant

  function SegmentOf(s: State): Segment {
    if s.inMessage then InText else if s.inThought then InReasoning else Idle
  }

  predicate SegInv(v: Screen, s: State) {
    && v.Screen? && v.seg == SegmentOf(s)
    && !(s.inMessage && s.inThought)
    && (s.calls != [] ==> v.seg == Idle)
  }

  predicate BubbleOK(b: Bubble, id: string, s: State) {
    && (b == Running <==> id in PendingIds(s.calls, s.results))
    && !b.Resulted?
    && (b.Cut? ==> b.reason == Superseded)
    && (b == Cut(Superseded) <==> id in s.superseded)
  }

  ghost predicate BubbleInv(v: Screen, s: State) {
    && v.Screen?
    && (forall id :: id in v.bubbles <==> id in ToolIds(s.completed) || id in CallIds(s.calls))
    && (forall id :: id in v.bubbles ==> BubbleOK(v.bubbles[id], id, s))
    && (forall id :: id in ToolIds(s.completed) ==> id in v.persisted)
  }

  predicate TextOK(v: Screen, m: Message)
    requires v.Screen?
  {
    m.toolCallID in v.bubbles && BubbleText(v.bubbles[m.toolCallID]) == m.content
  }

  predicate TextInv(v: Screen, s: State) {
    && v.Screen?
    && (forall i :: 0 <= i < |s.completed| && s.completed[i].role == Tool ==> TextOK(v, s.completed[i]))
    && (forall i :: 0 <= i < |s.results| ==> TextOK(v, s.results[i]))
  }

  ghost predicate ScreenInv(s: State) {
    var v := View(s.out);
    SegInv(v, s) && BubbleInv(v, s) && TextInv(v, s)
  }

  predicate SameBooks(s: State, t: State) {
    SameCore(s, t) && s.superseded == t.superseded
  }

  lemma SameBooksKeep(v: Screen, w: Screen, s: State, t: State)
    requires v.Screen? && w.Screen? && v.bubbles == w.bubbles && v.persisted == w.persisted && SameBooks(s, t)
    ensures BubbleInv(v, s) ==> BubbleInv(w, t)
    ensures TextInv(v, s) ==> TextInv(w, t)
  {
    if BubbleInv(v, s) {
      forall id | id in w.bubbles ensures BubbleOK(w.bubbles[id], id, t) {
        assert BubbleOK(v.bubbles[id], id, s);
      }
    }
    if TextInv(v, s) {
      forall i | 0 <= i < |t.completed| && t.completed[i].role == Tool ensures TextOK(w, t.completed[i]) {
        assert TextOK(v, s.completed[i]);
      }
      forall i | 0 <= i < |t.results| ensures TextOK(w, t.results[i]) {
        assert TextOK(v, s.results[i]);
      }
    }
  }

  // ---------------------------------------------------------------- flushing

  lemma DistinctHalves(a: seq<string>, b: seq<string>)
    requires Distinct(a + b)
    ensures Distinct(a) && Distinct(b)
    ensures forall x :: x in a ==> x !in b
  {
    assert forall i :: 0 <= i < |a| ==> (a + b)[i] == a[i];
    assert forall i :: 0 <= i < |b| ==> (a + b)[|a| + i] == b[i];
  }

  lemma ClosedNotOpen(s: State, evs: seq<Event>)
    requires IdsInv(s, evs) && Distinct(Declared(evs))
    ensures forall id :: id in ToolIds(s.completed) ==> id !in CallIds(s.calls)
    ensures Distinct(CallIds(s.calls)) && Distinct(ToolIds(s.completed))
  {
    hide Distinct, Declared, ToolIds;
    DistinctHalves(ToolIds(s.completed), CallIds(s.calls));
  }

  /** The rows of earlier rounds keep their bubbles. */
  lemma EarlierRowText(v: Screen, w: Screen, s: State, evs: seq<Event>, reason: Reason, i: nat)
    requires TextInv(v, s) && w.Screen? && IdsInv(s, evs) && Distinct(Declared(evs))
    requires w.bubbles == CutAll(v.bubbles, PendingIds(s.calls, s.results), reason)
    requires i < |s.completed| && s.completed[i].role == Tool
    ensures TextOK(w, s.completed[i])
  {
    hide IsHistory, Declared, ToolIds;
    ClosedNotOpen(s, evs);
    assert TextOK(v, s.completed[i]);
    ToolIdsMember(s.completed, i);
    PendingMembers(s.calls, s.results, s.completed[i].toolCallID);
  }

  lemma FlushedRows(s: State, reason: Reason)
    requires s.calls != []
    ensures var f, r := FlushRound(s, reason), RoundRows(s, reason);
      && f.completed == s.completed + r && |r| == |s.calls| + 1 && r[0].role != Tool
      && (forall k :: 0 <= k < |s.calls| ==> r[k + 1] == OrderedRow(s.calls[k].id, s, reason))
  {
    hide OrderedRow;
  }

  lemma OrderedRowText(v: Screen, w: Screen, s: State, evs: seq<Event>, reason: Reason, k: nat)
    requires TextInv(v, s) && w.Screen? && ResultsInv(s, evs) && k < |s.calls|
    requires w.bubbles == CutAll(v.bubbles, PendingIds(s.calls, s.results), reason)
    ensures TextOK(w, OrderedRow(s.calls[k].id, s, reason))
  {
    hide Answer, PendingIds, FirstResult, PlaceholderText, NewPlaceholder;
    var id := s.calls[k].id;
    PlaceholderReads(id, reason, PositiveStamp(s.startedAt, id), PositiveStamp(s.finishedAt, id));
    assert CallIds(s.calls)[k] == id;
    PendingMembers(s.calls, s.results, id);
    FirstResultFinds(s.results, id);
    if id in ResultIds(s.results) {
      var r := FirstResult(s.results, id).value;
      var j :| 0 <= j < |s.results| && s.results[j] == r;
      assert TextOK(v, s.results[j]);
    }
  }

  lemma FlushText(v: Screen, w: Screen, s: State, evs: seq<Event>, reason: Reason, i: nat)
    requires TextInv(v, s) && w.Screen? && ResultsInv(s, evs) && IdsInv(s, evs) && Distinct(Declared(evs))
    requires w.bubbles == CutAll(v.bubbles, PendingIds(s.calls, s.results), reason) && s.calls != []
    requires i < |FlushRound(s, reason).completed| && FlushRound(s, reason).completed[i].role == Tool
    ensures TextOK(w, FlushRound(s, reason).completed[i])
  {
    hide *;
    var n := |s.completed|;
    FlushedRows(s, reason);
    assert i >= n ==> FlushRound(s, reason).completed[i] == RoundRows(s, reason)[i - n];
    if i < n {
      EarlierRowText(v, w, s, evs, reason, i);
    } else {
      OrderedRowText(v, w, s, evs, reason, i - n - 1);
    }
  }

  /** A flush shows, for every tool row it closes, the text of that row. */
  lemma FlushTexts(v: Screen, w: Screen, s: State, evs: seq<Event>, reason: Reason)
    requires TextInv(v, s) && w.Screen? && ResultsInv(s, evs) && IdsInv(s, evs) && Distinct(Declared(evs))
    requires w.bubbles == CutAll(v.bubbles, PendingIds(s.calls, s.results), reason)
    requires s.calls != []
    ensures TextInv(w, FlushRound(s, reason))
  {
    hide Declared, FlushRound, IdsInv, ResultsInv, CutAll, TextOK, PendingIds;
    var f := FlushRound(s, reason);
    forall i | 0 <= i < |f.completed| && f.completed[i].role == Tool ensures TextOK(w, f.completed[i]) {
      FlushText(v, w, s, evs, reason, i);
    }
  }

  lemma NothingPending()
    ensures PendingIds([], []) == []
  {
  }

  lemma FlushBubbles(v: Screen, w: Screen, s: State, f: State, evs: seq<Event>)
    requires BubbleInv(v, s) && w.Screen? && IdsInv(s, evs) && Distinct(Declared(evs))
    requires w.bubbles == CutAll(v.bubbles, PendingIds(s.calls, s.results), Superseded)
    requires forall id :: id in v.persisted || id in CallIds(s.calls) ==> id in w.persisted
    requires ToolIds(f.completed) == ToolIds(s.completed) + CallIds(s.calls) && f.calls == [] && f.results == []
    requires forall id :: id in f.superseded <==> id in s.superseded || id in PendingIds(s.calls, s.results)
    ensures BubbleInv(w, f)
  {
    hide ToolIds, Declared, PendingIds;
    forall id ensures id in PendingIds(s.calls, s.results) ==> id in CallIds(s.calls) {
      PendingMembers(s.calls, s.results, id);
    }
    NothingPending();
    forall id | id in w.bubbles ensures BubbleOK(w.bubbles[id], id, f) {
      assert id in v.bubbles;
      assert BubbleOK(v.bubbles[id], id, s);
    }
  }

  // ------------------------------------------------------------------- steps

  lemma SupersedeOut(s: State, at: int)
    requires |s.calls| > 0 && s.onFlush
    ensures var t := RememberSuperseded(StampPending(s, at));
      && SupersedeRound(s, at).out ==
           (s.out + [Flush(RoundRows(t, Superseded))]) + Interruptions(PendingIds(s.calls, s.results), Superseded)
      && SameBooks(FlushRound(t, Superseded), SupersedeRound(s, at))
      && SameCore(s, t)
      && (forall id :: id in t.superseded <==> id in s.superseded || id in PendingIds(s.calls, s.results))
  {
    hide RoundRows, PendingIds, Interruptions;
  }

  lemma NoCallsNoneOpen(v: Screen, s: State)
    requires BubbleInv(v, s) && s.calls == []
    ensures NoneOpen(v.bubbles)
  {
    forall id | id in v.bubbles ensures v.bubbles[id] != Running && !v.bubbles[id].Resulted? {
      assert BubbleOK(v.bubbles[id], id, s);
    }
  }

  /** The books after a superseding flush, in terms of the books before. */
  lemma SupersedeBooks(s: State, evs: seq<Event>, at: int)
    requires Inv(s, evs) && Distinct(Declared(evs)) && |s.calls| > 0
    ensures var t := RememberSuperseded(StampPending(s, at));
      var f := FlushRound(t, Superseded);
      && ResultsInv(t, evs) && IdsInv(t, evs)
      && ToolIds(RoundRows(t, Superseded)) == CallIds(s.calls)
      && ToolIds(f.completed) == ToolIds(s.completed) + CallIds(s.calls)
      && f.calls == [] && f.results == []
      && Distinct(PendingIds(s.calls, s.results))
  {
    var t := RememberSuperseded(StampPending(s, at));
    SameCoreKeepsInv(s, t, evs);
    FlushedRoundShape(t, evs, Superseded);
    FlushKeepsIds(t, evs, Superseded);
    ClosedNotOpen(s, evs);
    PendingDistinct(s.calls, s.results);
  }

  lemma SupersedeAssembled(s: State, f: State, u: State, v: Screen, w: Screen, evs: seq<Event>)
    requires SegInv(v, s) && BubbleInv(v, s) && s.calls != [] && IdsInv(s, evs) && Distinct(Declared(evs))
    requires TextInv(w, f) && SameBooks(f, u) && u.inMessage == s.inMessage && u.inThought == s.inThought
    requires w.Screen? && w.seg == v.seg && w.bubbles == CutAll(v.bubbles, PendingIds(s.calls, s.results), Superseded)
    requires forall id :: id in v.persisted || id in CallIds(s.calls) ==> id in w.persisted
    requires ToolIds(f.completed) == ToolIds(s.completed) + CallIds(s.calls) && f.calls == [] && f.results == []
    requires forall id :: id in f.superseded <==> id in s.superseded || id in PendingIds(s.calls, s.results)
    ensures SegInv(w, u) && BubbleInv(w, u) && TextInv(w, u)
  {
    FlushBubbles(v, w, s, f, evs);
    hide ToolIds, PendingIds, BubbleInv, TextInv, Declared;
    SameBooksKeep(w, w, f, u);
  }

  lemma SupersedeTexts(s: State, t: State, v: Screen, w: Screen, evs: seq<Event>)
    requires TextInv(v, s) && SameCore(s, t) && s.superseded.Keys <= t.superseded.Keys && w.Screen?
    requires ResultsInv(t, evs) && IdsInv(t, evs) && Distinct(Declared(evs)) && s.calls != []
    requires w.bubbles == CutAll(v.bubbles, PendingIds(s.calls, s.results), Superseded)
    ensures TextInv(w, FlushRound(t, Superseded))
  {
    assert TextInv(v, t) by {
      assert forall i :: 0 <= i < |t.completed| && t.completed[i].role == Tool ==> TextOK(v, s.completed[i]);
      assert forall i :: 0 <= i < |t.results| ==> TextOK(v, s.results[i]);
    }
    hide FlushRound, TextInv, ResultsInv, IdsInv;
    FlushTexts(v, w, t, evs, Superseded);
  }

  lemma SupersedeView(s: State, evs: seq<Event>, rows: seq<Message>, pending: seq<string>)
    requires ScreenInv(s) && pending == PendingIds(s.calls, s.results) && Distinct(pending)
    requires ToolIds(rows) == CallIds(s.calls)
    ensures var v, out := View(s.out), (s.out + [Flush(rows)]) + Interruptions(pending, Superseded);
      && View(out).Screen?
      && View(out) == v.(persisted := v.persisted + (set id | id in ToolIds(rows)),
                         bubbles := CutAll(v.bubbles, pending, Superseded))
  {
    ViewSnoc(s.out, Flush(rows));
    hide View;
    forall id | id in pending ensures id in CallIds(s.calls) {
      PendingMembers(s.calls, s.results, id);
    }
    hide PendingIds, ToolIds;
    ViewInterruptions(s.out + [Flush(rows)], pending, Superseded);
  }

  lemma SupersedeOpenScreen(s: State, evs: seq<Event>, at: int)
    requires Inv(s, evs) && Distinct(Declared(evs)) && s.onFlush && ScreenInv(s) && |s.calls| > 0
    ensures ScreenInv(SupersedeRound(s, at))
  {
    var t := RememberSuperseded(StampPending(s, at));
    var f, u := FlushRound(t, Superseded), SupersedeRound(s, at);
    var v, w := View(s.out), View(u.out);
    SupersedeOut(s, at);
    SupersedeBooks(s, evs, at);
    SupersedeView(s, evs, RoundRows(t, Superseded), PendingIds(s.calls, s.results));
    hide StampPending, RememberSuperseded, View, SupersedeRound, FlushRound, PendingIds, Declared, RoundRows, ToolIds,
      IsHistory,
         BubbleInv, TextInv, SegInv, IdsInv, ResultsInv;
    SupersedeTexts(s, t, v, w, evs);
    SupersedeAssembled(s, f, u, v, w, evs);
  }

  lemma SupersedeScreen(s: State, evs: seq<Event>, at: int)
    requires Inv(s, evs) && Distinct(Declared(evs)) && s.onFlush && ScreenInv(s)
    ensures ScreenInv(SupersedeRound(s, at))
    ensures s.calls == [] ==> SupersedeRound(s, at).out == s.out
    ensures View(SupersedeRound(s, at).out).Screen? && NoneOpen(View(SupersedeRound(s, at).out).bubbles)
  {
    if |s.calls| > 0 {
      SupersedeOpenScreen(s, evs, at);
    }
    hide View, PendingIds;
    NoCallsNoneOpen(View(SupersedeRound(s, at).out), SupersedeRound(s, at));
  }

  lemma EndThoughtScreen(s: State)
    requires ScreenInv(s)
    ensures ScreenInv(EndThought(s))
  {
    if s.inThought {
      var t := s.(inThought := false);
      ViewEmit(t, ThoughtEnd);
      hide View, BubbleInv, TextInv;
      SameBooksKeep(View(s.out), View(EndThought(s).out), s, EndThought(s));
    }
  }

  lemma EndMessageScreen(s: State)
    requires ScreenInv(s)
    ensures ScreenInv(EndMessage(s))
  {
    if s.inMessage {
      var t := s.(inMessage := false);
      ViewEmit(t, MessageEnd);
      hide View, BubbleInv, TextInv;
      SameBooksKeep(View(s.out), View(EndMessage(s).out), s, EndMessage(s));
    }
  }

  lemma StartMessageScreen(s: State)
    requires ScreenInv(s) && !s.inThought && s.calls == [] && NoneOpen(View(s.out).bubbles)
    ensures ScreenInv(StartMessage(s))
  {
    if !s.inMessage {
      var t := s.(inMessage := true);
      ViewEmit(t, MessageStart);
      hide View, BubbleInv, TextInv, NoneOpen;
      SameBooksKeep(View(s.out), View(StartMessage(s).out), s, StartMessage(s));
    }
  }

  lemma StartThoughtScreen(s: State)
    requires ScreenInv(s) && !s.inMessage && s.calls == [] && NoneOpen(View(s.out).bubbles)
    ensures ScreenInv(StartThought(s))
  {
    if !s.inThought {
      var t := s.(inThought := true);
      ViewEmit(t, ThoughtStart);
      hide View, BubbleInv, TextInv, NoneOpen;
      SameBooksKeep(View(s.out), View(StartThought(s).out), s, StartThought(s));
    }
  }

  /** An event that changes neither bubbles nor books. */
  lemma QuietEmitScreen(s: State, t: State, ev: UIEvent)
    requires ScreenInv(s) && SameBooks(s, t) && s.inMessage == t.inMessage && s.inThought == t.inThought
    requires t.out == s.out + [UI(ev)] && Show(View(s.out), ev) == View(s.out)
    ensures ScreenInv(t)
  {
    ViewSnoc(s.out, UI(ev));
    hide View, BubbleInv, TextInv, Show;
    SameBooksKeep(View(s.out), View(t.out), s, t);
  }

  lemma MessageDeltaScreen(c: State, text: string)
    requires ScreenInv(c) && c.inMessage
    ensures ScreenInv(Emit(c.(messageParts := c.messageParts + [text]), MessageDelta(text)))
  {
    hide View, BubbleInv, TextInv;
    QuietEmitScreen(c, Emit(c.(messageParts := c.messageParts + [text]), MessageDelta(text)), MessageDelta(text));
  }

  lemma MessageChunkScreen(s: State, evs: seq<Event>, text: string, at: int)
    requires Inv(s, evs) && Distinct(Declared(evs)) && s.onFlush && s.handler && ScreenInv(s)
    ensures ScreenInv(OnMessageChunk(s, text, at))
  {
    SupersedeScreen(s, evs, at);
    var a := SupersedeRound(s, at);
    var b := EndThought(a);
    var c := StartMessage(b);
    EndThoughtScreen(a);
    assert NoneOpen(View(b.out).bubbles) by {
      ViewEmit(a.(inThought := false), ThoughtEnd);
    }
    assert b.calls == [] && !b.inThought;
    hide SupersedeRound, EndThought, View, Inv, Declared;
    StartMessageScreen(b);
    MessageDeltaScreen(c, text);
  }

  lemma ThoughtDeltaScreen(c: State, text: string)
    requires ScreenInv(c) && c.inThought
    ensures ScreenInv(Emit(c.(thoughtParts := c.thoughtParts + [text]), ThoughtDelta(text)))
  {
    hide View, BubbleInv, TextInv;
    QuietEmitScreen(c, Emit(c.(thoughtParts := c.thoughtParts + [text]), ThoughtDelta(text)), ThoughtDelta(text));
  }

  lemma ThoughtChunkScreen(s: State, evs: seq<Event>, text: string, at: int)
    requires Inv(s, evs) && Distinct(Declared(evs)) && s.onFlush && s.handler && ScreenInv(s)
    ensures ScreenInv(OnThoughtChunk(s, text, at))
  {
    SupersedeScreen(s, evs, at);
    var a := SupersedeRound(s, at);
    var b := EndMessage(a);
    var c := StartThought(b);
    EndMessageScreen(a);
    assert NoneOpen(View(b.out).bubbles) by {
      ViewEmit(a.(inMessage := false), MessageEnd);
    }
    assert b.calls == [] && !b.inMessage;
    hide SupersedeRound, EndMessage, View, Inv, Declared;
    StartThoughtScreen(b);
    ThoughtDeltaScreen(c, text);
  }

  /** A new running bubble for a call declared for the first time. */
  lemma AddBubble(v: Screen, w: Screen, s: State, t: State, c: ToolCall)
    requires BubbleInv(v, s) && TextInv(v, s)
    requires c.id !in v.bubbles && c.id !in ResultIds(s.results) && c.id !in s.superseded
    requires t.calls == s.calls + [c] && t.results == s.results
    requires t.completed == s.completed && t.superseded == s.superseded
    requires w.Screen? && w.bubbles == v.bubbles[c.id := Running] && w.persisted == v.persisted
    ensures BubbleInv(w, t) && TextInv(w, t)
  {
    hide ToolIds, PendingIds;
    assert CallIds(t.calls) == CallIds(s.calls) + [c.id];
    forall id | id in w.bubbles ensures BubbleOK(w.bubbles[id], id, t) {
      PendingMembers(t.calls, t.results, id);
      PendingMembers(s.calls, s.results, id);
      if id != c.id {
        assert BubbleOK(v.bubbles[id], id, s);
      }
    }
    forall i | 0 <= i < |t.completed| && t.completed[i].role == Tool ensures TextOK(w, t.completed[i]) {
      assert TextOK(v, s.completed[i]);
    }
    forall i | 0 <= i < |t.results| ensures TextOK(w, t.results[i]) {
      assert TextOK(v, s.results[i]);
    }
  }

  lemma FreshIdIsNew(s: State, p: seq<Event>, v: Screen, id: string)
    requires Inv(s, p) && BubbleInv(v, s) && id !in Declared(p)
    ensures id !in v.bubbles && id !in ResultIds(s.results) && id !in s.superseded && id !in CallIds(s.calls)
  {
    hide PendingIds, Answer, Declared, ToolIds, IsHistory, BubbleOK;
    forall k | 0 <= k < |s.results| ensures ResultIds(s.results)[k] != id {
      assert ResultOK(s.results[k], s, p);
    }
  }

  lemma EndSegments(s: State)
    requires ScreenInv(s)
    ensures var t := if s.inMessage then EndMessage(s) else EndThought(s);
      ScreenInv(t) && !t.inMessage && !t.inThought && SameBooks(s, t)
  {
    EndMessageScreen(s);
    EndThoughtScreen(s);
  }

  predicate AddsCall(t: State, u: State, c: ToolCall) {
    u.calls == t.calls + [c] && u.results == t.results && u.completed == t.completed && u.superseded == t.superseded
  }

  lemma DeclareOut(s: State, id: string, title: string, at: int)
    requires s.handler
    ensures var t := if s.inMessage then EndMessage(s) else EndThought(s);
      var u := OnToolCall(s, id, title, at);
      && u.out == t.out + [UI(ToolStart(id, title))]
      && u.inMessage == t.inMessage && u.inThought == t.inThought
      && AddsCall(t, u, ToolCall(id, title, ""))
  {
  }

  lemma ToolStartScreen(t: State, u: State, id: string, title: string)
    requires ScreenInv(t) && !t.inMessage && !t.inThought && !u.inMessage && !u.inThought
    requires u.out == t.out + [UI(ToolStart(id, title))] && AddsCall(t, u, ToolCall(id, title, ""))
    requires id !in View(t.out).bubbles && id !in ResultIds(t.results) && id !in t.superseded
    ensures ScreenInv(u)
  {
    ViewSnoc(t.out, UI(ToolStart(id, title)));
    hide View, BubbleInv, TextInv;
    AddBubble(View(t.out), View(u.out), t, u, ToolCall(id, title, ""));
  }

  lemma DeclareScreen(s: State, p: seq<Event>, id: string, title: string, at: int)
    requires Inv(s, p) && s.handler && ScreenInv(s) && id !in Declared(p)
    ensures ScreenInv(OnToolCall(s, id, title, at))
  {
    EndSegments(s);
    var t := if s.inMessage then EndMessage(s) else EndThought(s);
    DeclareOut(s, id, title, at);
    SameCoreKeepsInv(s, t, p);
    hide OnToolCall, EndMessage, EndThought, View;
    FreshIdIsNew(t, p, View(t.out), id);
    hide Inv, BubbleInv, TextInv;
    ToolStartScreen(t, OnToolCall(s, id, title, at), id, title);
  }

  lemma ArgsBubbles(v: Screen, s: State, u: State)
    requires BubbleInv(v, s) && CallIds(u.calls) == CallIds(s.calls) && u.results == s.results
    requires u.completed == s.completed && u.superseded == s.superseded
    ensures BubbleInv(v, u)
  {
    hide PendingIds, ToolIds;
    forall x | x in v.bubbles ensures BubbleOK(v.bubbles[x], x, u) {
      PendingMembers(s.calls, s.results, x);
      PendingMembers(u.calls, u.results, x);
      assert BubbleOK(v.bubbles[x], x, s);
    }
  }

  lemma ArgsTexts(v: Screen, s: State, u: State)
    requires TextInv(v, s) && u.results == s.results && u.completed == s.completed
    ensures TextInv(v, u)
  {
    hide TextOK;
  }

  lemma ArgsBooks(s: State, id: string, args: string, replace: bool)
    ensures var u := OnToolCallArgs(s, id, args, replace);
      && (u == s || u.out == s.out + [UI(ToolArgs(id, args, replace))])
      && CallIds(u.calls) == CallIds(s.calls) && |u.calls| == |s.calls| && u.results == s.results
      && u.completed == s.completed && u.superseded == s.superseded
      && u.inMessage == s.inMessage && u.inThought == s.inThought
  {
    SetArgsKeepsIds(s.calls, id, args, replace);
    hide SetArgs;
    var calls := SetArgs(s.calls, id, args, replace);
    assert |calls| == |CallIds(calls)| == |CallIds(s.calls)| == |s.calls|;
  }

  lemma ShowArgs(v: Screen, id: string, args: string, replace: bool)
    ensures Show(v, ToolArgs(id, args, replace)) == v
  {
  }

  lemma ArgsScreen(s: State, id: string, args: string, replace: bool)
    requires ScreenInv(s)
    ensures ScreenInv(OnToolCallArgs(s, id, args, replace))
  {
    var u := OnToolCallArgs(s, id, args, replace);
    ArgsBooks(s, id, args, replace);
    ViewSnoc(s.out, UI(ToolArgs(id, args, replace)));
    ShowArgs(View(s.out), id, args, replace);
    assert View(u.out) == View(s.out);
    hide View, OnToolCallArgs, BubbleInv, TextInv, Show;
    ArgsBubbles(View(s.out), s, u);
    ArgsTexts(View(s.out), s, u);
  }

  /** The books after one more result, and the page after its two events. */
  lemma AnswerBubble(v: Screen, w: Screen, s: State, t: State, r: Message)
    requires BubbleInv(v, s) && TextInv(v, s)
    requires t.calls == s.calls && t.results == s.results + [r]
    requires t.completed == s.completed && t.superseded == s.superseded
    requires r.toolCallID in CallIds(s.calls) && r.toolCallID !in ResultIds(s.results)
    requires r.toolCallID !in ToolIds(s.completed) && r.toolCallID !in s.superseded
    requires w.Screen? && w.bubbles == v.bubbles[r.toolCallID := Ended(r.content)] && v.persisted <= w.persisted
    ensures BubbleInv(w, t) && TextInv(w, t)
  {
    hide PendingIds, ToolIds;
    assert ResultIds(t.results) == ResultIds(s.results) + [r.toolCallID];
    forall id | id in w.bubbles ensures BubbleOK(w.bubbles[id], id, t) {
      PendingMembers(t.calls, t.results, id);
      PendingMembers(s.calls, s.results, id);
      assert id in v.bubbles ==> BubbleOK(v.bubbles[id], id, s);
    }
    forall i | 0 <= i < |t.completed| && t.completed[i].role == Tool ensures TextOK(w, t.completed[i]) {
      ToolIdsMember(s.completed, i);
      assert TextOK(v, s.completed[i]);
    }
    forall i | 0 <= i < |t.results| ensures TextOK(w, t.results[i]) {
      if i < |s.results| {
        assert TextOK(v, s.results[i]);
        assert ResultIds(s.results)[i] == s.results[i].toolCallID;
      }
    }
  }

  lemma {:induction false} AllAnsweredNonePending(calls: seq<ToolCall>, results: seq<Message>)
    requires forall i :: 0 <= i < |calls| ==> calls[i].id in ResultIds(results)
    ensures PendingIds(calls, results) == []
  {
    if calls != [] {
      AllAnsweredNonePending(calls[..|calls| - 1], results);
    }
  }

  lemma NoPendingWhenFull(t: State, evs: seq<Event>)
    requires ResultsInv(t, evs) && |t.results| >= |t.calls|
    ensures PendingIds(t.calls, t.results) == []
  {
    FullRoundIsAnswered(t, evs);
    AllAnsweredNonePending(t.calls, t.results);
  }

  lemma NothingIsCut(b: map<string, Bubble>, reason: Reason)
    ensures CutAll(b, [], reason) == b
  {
  }

  lemma FullFlushBubbles(v: Screen, w: Screen, t: State, evs: seq<Event>)
    requires BubbleInv(v, t) && t.calls != [] && |t.results| >= |t.calls|
    requires ResultsInv(t, evs) && IdsInv(t, evs) && IsHistory(t.completed) && Distinct(Declared(evs))
    requires w == v.(persisted := v.persisted + set id | id in ToolIds(RoundRows(t, Interrupted)))
    ensures var f := FlushRound(t, Interrupted); BubbleInv(w, f) && f.calls == [] && f.results == []
  {
    NoPendingWhenFull(t, evs);
    FlushedRoundShape(t, evs, Interrupted);
    FlushKeepsIds(t, evs, Interrupted);
    NothingIsCut(v.bubbles, Interrupted);
    NothingIsCut(v.bubbles, Superseded);
    var f := FlushRound(t, Interrupted);
    hide FlushRound, PendingIds, ToolIds, Declared, RoundRows, BubbleInv, CutAll, ResultsInv, Answer, IsHistory;
    FlushBubbles(v, w, t, f, evs);
  }

  lemma FullFlushScreen(v: Screen, w: Screen, t: State, evs: seq<Event>)
    requires BubbleInv(v, t) && TextInv(v, t) && t.calls != [] && |t.results| >= |t.calls|
    requires ResultsInv(t, evs) && IdsInv(t, evs) && IsHistory(t.completed) && Distinct(Declared(evs))
    requires w == v.(persisted := v.persisted + set id | id in ToolIds(RoundRows(t, Interrupted)))
    ensures var f := FlushRound(t, Interrupted); BubbleInv(w, f) && TextInv(w, f) && f.calls == [] && f.results == []
  {
    NothingIsCut(v.bubbles, Interrupted);
    hide *;
    NoPendingWhenFull(t, evs);
    FlushTexts(v, w, t, evs, Interrupted);
    FullFlushBubbles(v, w, t, evs);
  }

  lemma AnswerView(out: seq<Effect>, flush: seq<Effect>, id: string, content: string, ok: bool)
    requires View(out).Screen? && id in View(out).bubbles && View(out).bubbles[id] == Running
    requires flush == [] || (|flush| == 1 && flush[0].Flush?)
    ensures var v, w := View(out), View(out + flush + [UI(ToolResult(id, content, ok))] + [UI(ToolEnd(id, ok))]);
      && w.Screen? && w.seg == v.seg && w.stitched == v.stitched
      && w.bubbles == v.bubbles[id := Ended(content)]
      && w.persisted == if flush == [] then v.persisted else v.persisted + set x | x in ToolIds(flush[0].rows)
  {
    var a := out + flush;
    if flush == [] {
      assert a == out;
    } else {
      assert a == out + [flush[0]];
      ViewSnoc(out, flush[0]);
    }
    ViewSnoc(a, UI(ToolResult(id, content, ok)));
    ViewSnoc(a + [UI(ToolResult(id, content, ok))], UI(ToolEnd(id, ok)));
    assert View(out).bubbles[id := Resulted(content, ok)][id := Ended(content)] ==
             View(out).bubbles[id := Ended(content)];
  }

  lemma AcceptOut(s: State, id: string, content: string, status: Status, at: int)
    requires s.onFlush && s.calls != []
    ensures var r := RealResult(s, id, content, status, at);
      var t := s.(results := s.results + [r], finishedAt := s.finishedAt[id := at]);
      var full := |t.results| >= |t.calls|;
      var f := if full then FlushRound(t, Interrupted) else t;
      var u := AcceptTerminal(s, id, content, status, at);
      && u.out == s.out + (if full then [Flush(RoundRows(t, Interrupted))] else [])
                  + [UI(ToolResult(id, r.content, status != Failed))] + [UI(ToolEnd(id, status != Failed))]
      && SameBooks(f, u) && u.inMessage == s.inMessage && u.inThought == s.inThought
      && r.toolCallID == id
  {
    hide RoundRows;
  }

  lemma AcceptAssembled(s: State, t: State, r: Message, ok: bool, u: State, evs: seq<Event>)
    requires ScreenInv(s) && r.toolCallID in PendingIds(s.calls, s.results)
    requires t.calls == s.calls && t.results == s.results + [r]
    requires t.completed == s.completed && t.superseded == s.superseded
    requires r.toolCallID in CallIds(s.calls) && r.toolCallID !in ResultIds(s.results)
    requires r.toolCallID !in ToolIds(s.completed) && r.toolCallID !in s.superseded
    requires IdsInv(t, evs) && ResultsInv(t, evs) && IsHistory(t.completed) && Distinct(Declared(evs)) && t.calls != []
    requires var full := |t.results| >= |t.calls|;
      && u.out == s.out + (if full then [Flush(RoundRows(t, Interrupted))] else [])
                  + [UI(ToolResult(r.toolCallID, r.content, ok))] + [UI(ToolEnd(r.toolCallID, ok))]
      && SameBooks(if full then FlushRound(t, Interrupted) else t, u)
      && u.inMessage == s.inMessage && u.inThought == s.inThought
    ensures ScreenInv(u)
  {
    var full := |t.results| >= |t.calls|;
    var flush := if full then [Flush(RoundRows(t, Interrupted))] else [];
    var v, w := View(s.out), View(u.out);
    assert BubbleOK(v.bubbles[r.toolCallID], r.toolCallID, s);
    hide View, PendingIds, ToolIds, Declared, IsHistory, RoundRows, FlushRound, ResultsInv, Answer;
    AnswerView(s.out, flush, r.toolCallID, r.content, ok);
    var m := v.(bubbles := v.bubbles[r.toolCallID := Ended(r.content)]);
    hide BubbleInv, TextInv;
    AnswerBubble(v, m, s, t, r);
    if full {
      FullFlushScreen(m, w.(seg := m.seg), t, evs);
      SameBooksKeep(w, w, FlushRound(t, Interrupted), u);
    } else {
      SameBooksKeep(m, w, t, u);
    }
  }

  lemma AcceptScreen(s: State, p: seq<Event>, evs: seq<Event>)
    requires evs != [] && p == evs[..|evs| - 1] && evs[|evs| - 1].ToolCallUpdate? && IsTerminal(evs[|evs| - 1].status)
    requires Inv(s, p) && Distinct(Declared(p)) && ScreenInv(s) && s.onFlush
    requires evs[|evs| - 1].id in CallIds(s.calls) && evs[|evs| - 1].id !in ResultIds(s.results)
    ensures var e := evs[|evs| - 1]; ScreenInv(AcceptTerminal(s, e.id, e.content, e.status, e.at))
  {
    var e := evs[|evs| - 1];
    var id, r := e.id, RealResult(s, e.id, e.content, e.status, e.at);
    var t := s.(results := s.results + [r], finishedAt := s.finishedAt[id := e.at]);
    TerminalAnswers(p, evs);
    OpenIdIsNotClosed(s, p, id);
    UnansweredPending(s, p, id);
    AcceptBeforeFlush(s, t, r, p, evs);
    AcceptOut(s, id, e.content, e.status, e.at);
    PendingMembers(s.calls, s.results, id);
    AcceptAssembled(s, t, r, e.status != Failed, AcceptTerminal(s, id, e.content, e.status, e.at), evs);
  }

  lemma LateBubble(v: Screen, w: Screen, s: State, u: State, i: nat, r: Message)
    requires BubbleInv(v, s) && TextInv(v, s) && Distinct(ToolIds(s.completed))
    requires i < |s.completed| && s.completed[i].role == Tool
    requires s.completed[i].toolCallID == r.toolCallID && r.role == Tool
    requires r.toolCallID !in CallIds(s.calls) && r.toolCallID !in ResultIds(s.results)
    requires u.calls == s.calls && u.results == s.results && u.completed == s.completed[i := r]
    requires u.superseded == s.superseded - {r.toolCallID}
    requires w.Screen? && w.bubbles == v.bubbles[r.toolCallID := Restored(r.content)] && w.persisted == v.persisted
    ensures BubbleInv(w, u) && TextInv(w, u)
  {
    ToolIdsReplace(s.completed, i, r);
    ToolIdsMember(s.completed, i);
    hide PendingIds, ToolIds;
    PendingMembers(s.calls, s.results, r.toolCallID);
    forall id | id in w.bubbles ensures BubbleOK(w.bubbles[id], id, u) {
      assert id in v.bubbles ==> BubbleOK(v.bubbles[id], id, s);
    }
    forall k | 0 <= k < |u.completed| && u.completed[k].role == Tool ensures TextOK(w, u.completed[k]) {
      if k != i {
        ToolRowUnique(s.completed, i, k);
        assert TextOK(v, s.completed[k]);
      }
    }
    forall k | 0 <= k < |u.results| ensures TextOK(w, u.results[k]) {
      assert TextOK(v, s.results[k]);
      assert ResultIds(s.results)[k] == s.results[k].toolCallID;
    }
  }

  lemma LateOut(s: State, id: string, content: string, status: Status, at: int, i: nat)
    requires id in s.superseded && s.onStitch && s.handler && StitchIndex(s.completed, id) == Some(i)
    ensures var u, r := LateTerminal(s, id, content, status, at), StitchedRow(s, id, content, status, at);
      && u.out == s.out + [Stitch(id, r)] + [UI(ToolStitched(id, r.content, status != Failed))]
      && u.completed == s.completed[i := r] && u.calls == s.calls && u.results == s.results
      && u.superseded == s.superseded - {id} && u.inMessage == s.inMessage && u.inThought == s.inThought
      && r.toolCallID == id && r.role == Tool && !r.extra.placeholder && r.content == ResultText(content, status)
  {
  }

  lemma ResultsAreOpen(s: State, evs: seq<Event>, id: string)
    requires ResultsInv(s, evs) && id !in CallIds(s.calls)
    ensures id !in ResultIds(s.results)
  {
    forall k | 0 <= k < |s.results| ensures ResultIds(s.results)[k] != id {
      assert ResultOK(s.results[k], s, evs);
    }
  }

  lemma LateScreen(s: State, p: seq<Event>, id: string, content: string, status: Status, at: int)
    requires Inv(s, p) && Distinct(Declared(p)) && ScreenInv(s) && s.onStitch && s.handler
    requires id in s.superseded && id !in CallIds(s.calls)
    ensures ScreenInv(LateTerminal(s, id, content, status, at))
  {
    hide LateTerminal, StitchedRow, ToolIds, ResultOK, RowsInv, IdsInv;
    var i := LateRow(s, p, id);
    LateOut(s, id, content, status, at, i);
    ResultsAreOpen(s, p, id);
    var u, r, v := LateTerminal(s, id, content, status, at), StitchedRow(s, id, content, status, at), View(s.out);
    assert id in v.bubbles && BubbleOK(v.bubbles[id], id, s);
    hide Inv;
    ViewSnoc(s.out, Stitch(id, r));
    ViewSnoc(s.out + [Stitch(id, r)], UI(ToolStitched(id, r.content, status != Failed)));
    hide View;
    LateBubble(v, View(u.out), s, u, i, r);
  }

  lemma UsageScreen(s: State, tokens: int)
    requires ScreenInv(s)
    ensures ScreenInv(OnTokenUsage(s, tokens))
  {
    hide View, BubbleInv, TextInv;
    var t := s.(sawTokenUsage := true);
    if s.handler {
      QuietEmitScreen(s, OnTokenUsage(s, tokens), Usage(tokens));
    } else {
      SameBooksKeep(View(s.out), View(s.out), s, t);
    }
  }

  lemma TerminalScreen(s: State, p: seq<Event>, evs: seq<Event>)
    requires evs != [] && p == evs[..|evs| - 1] && evs[|evs| - 1].ToolCallUpdate? && IsTerminal(evs[|evs| - 1].status)
    requires Inv(s, p) && Distinct(Declared(p)) && ScreenInv(s) && s.handler && s.onFlush && s.onStitch
    ensures var e := evs[|evs| - 1]; ScreenInv(OnTerminal(s, e.id, e.content, e.status, e.at))
  {
    var e := evs[|evs| - 1];
    hide Inv, ScreenInv, AcceptTerminal, LateTerminal, Declared;
    if e.id !in CallIds(s.calls) && e.id in s.superseded {
      LateScreen(s, p, e.id, e.content, e.status, e.at);
    } else if e.id in CallIds(s.calls) && e.id !in ResultIds(s.results) {
      AcceptScreen(s, p, evs);
    }
  }

  lemma ChunkScreen(s: State, p: seq<Event>, e: Event)
    requires e.MessageChunk? || e.ThoughtChunk?
    requires Inv(s, p) && Distinct(Declared(p)) && ScreenInv(s) && s.handler && s.onFlush
    ensures ScreenInv(Step(s, e))
  {
    hide Inv, ScreenInv, OnMessageChunk, OnThoughtChunk, Declared;
    if e.MessageChunk? {
      MessageChunkScreen(s, p, e.text, e.at);
    } else {
      ThoughtChunkScreen(s, p, e.text, e.at);
    }
  }

  lemma PlainScreen(s: State, e: Event)
    requires e.ArgsSnapshot? || e.TokenUsage? || (e.ToolCallUpdate? && !IsTerminal(e.status))
    requires ScreenInv(s)
    ensures ScreenInv(Step(s, e))
  {
    hide ScreenInv, OnToolCallArgs, OnTokenUsage;
    match e
    case ArgsSnapshot(id, args) => ArgsScreen(s, id, args, true);
    case TokenUsage(tokens) => UsageScreen(s, tokens);
    case ToolCallUpdate(id, content, status, at) => ArgsScreen(s, id, content, false);
  }

  lemma StepScreen(s: State, p: seq<Event>, evs: seq<Event>)
    requires evs != [] && p == evs[..|evs| - 1] && Distinct(Declared(evs))
    requires Inv(s, p) && ScreenInv(s) && s.handler && s.onFlush && s.onStitch
    ensures ScreenInv(Step(s, evs[|evs| - 1]))
  {
    var e := evs[|evs| - 1];
    DistinctPrefix(evs);
    if e.ToolCallDecl? {
      FreshIdHasNoAnswer(p, evs);
      hide Inv, ScreenInv, OnToolCall, Declared, Answer;
      DeclareScreen(s, p, e.id, e.title, e.at);
    } else if e.ToolCallUpdate? && IsTerminal(e.status) {
      hide Inv, ScreenInv, OnTerminal, Declared;
      TerminalScreen(s, p, evs);
    } else {
      hide Inv, ScreenInv, Step, Declared;
      if e.MessageChunk? || e.ThoughtChunk? {
        ChunkScreen(s, p, e);
      } else {
        PlainScreen(s, e);
      }
    }
  }

  lemma {:induction false} RunScreen(evs: seq<Event>)
    requires Distinct(Declared(evs))
    ensures ScreenInv(Run(evs))
  {
    if evs != [] {
      var p := evs[..|evs| - 1];
      DistinctPrefix(evs);
      RunInv(p);
      RunScreen(p);
      StepScreen(Run(p), p, evs);
    }
  }

  lemma EndAllSegments(s: State, at: int)
    requires ScreenInv(s)
    ensures var u := EndThought(EndMessage(StampPending(s, at)));
      ScreenInv(u) && !u.inMessage && !u.inThought && SameBooks(s, u)
  {
    var t := StampPending(s, at);
    assert ScreenInv(t) by {
      hide View, BubbleInv, TextInv;
      SameBooksKeep(View(s.out), View(t.out), s, t);
    }
    hide View, BubbleInv, TextInv, StampPending;
    EndMessageScreen(t);
    EndThoughtScreen(EndMessage(t));
  }

  lemma FinalOut(s: State, reason: Reason, at: int)
    requires s.handler && s.onFlush
    ensures var u := EndThought(EndMessage(StampPending(s, at)));
      var t := EmitPendingEnds(s, reason, at);
      var f := BeforeCollect(s, reason, at);
      && t.out == u.out + Interruptions(PendingIds(s.calls, s.results), reason)
      && f.out == t.out + (if NothingToFlush(t) then [] else [Flush(RoundRows(t, reason))])
      && SameBooks(s, t)
  {
    hide RoundRows, PendingIds;
  }

  lemma FlushView(out: seq<Effect>, flush: seq<Effect>)
    requires View(out).Screen? && (flush == [] || (|flush| == 1 && flush[0].Flush?))
    ensures var v, w := View(out), View(out + flush); w.Screen? && w.seg == v.seg && w.bubbles == v.bubbles
  {
    if flush == [] {
      assert out + flush == out;
    } else {
      assert out + flush == out + [flush[0]];
      ViewSnoc(out, flush[0]);
    }
  }

  lemma EndMessageBubbles(t: State)
    requires View(EndMessage(t).out).Screen?
    ensures View(t.out).Screen? && View(EndMessage(t).out).bubbles == View(t.out).bubbles
  {
    hide View;
    if t.inMessage {
      ViewSnoc(t.out, UI(MessageEnd));
    }
  }

  lemma EndThoughtBubbles(t: State)
    requires View(EndThought(t).out).Screen?
    ensures View(t.out).Screen? && View(EndThought(t).out).bubbles == View(t.out).bubbles
  {
    hide View;
    if t.inThought {
      ViewSnoc(t.out, UI(ThoughtEnd));
    }
  }

  lemma EndSegmentsBubbles(s: State, at: int)
    requires ScreenInv(s)
    ensures View(EndThought(EndMessage(StampPending(s, at))).out).Screen?
    ensures View(EndThought(EndMessage(StampPending(s, at))).out).bubbles == View(s.out).bubbles
  {
    EndAllSegments(s, at);
    var t := StampPending(s, at);
    hide View, EndMessage, EndThought;
    EndThoughtBubbles(EndMessage(t));
    EndMessageBubbles(t);
  }

  lemma FinalView(s: State, evs: seq<Event>, reason: Reason, at: int)
    requires Inv(s, evs) && Distinct(Declared(evs)) && ScreenInv(s) && s.handler && s.onFlush && reason != Superseded
    ensures var v, w := View(s.out), View(BeforeCollect(s, reason, at).out);
      && w.Screen? && w.seg == Idle
      && w.bubbles == CutAll(v.bubbles, PendingIds(s.calls, s.results), reason)
  {
    var u := EndThought(EndMessage(StampPending(s, at)));
    var t := EmitPendingEnds(s, reason, at);
    EndAllSegments(s, at);
    EndSegmentsBubbles(s, at);
    FinalOut(s, reason, at);
    ClosedNotOpen(s, evs);
    PendingDistinct(s.calls, s.results);
    var pending := PendingIds(s.calls, s.results);
    forall id | id in pending ensures id in View(s.out).bubbles && View(s.out).bubbles[id] == Running {
      PendingMembers(s.calls, s.results, id);
      assert BubbleOK(View(s.out).bubbles[id], id, s);
    }
    hide View, PendingIds, EmitPendingEnds, EndThought, EndMessage;
    hide StampPending, BubbleInv, TextInv, BeforeCollect, Inv;
    ViewInterruptions(u.out, pending, reason);
    FlushView(t.out, if NothingToFlush(t) then [] else [Flush(RoundRows(t, reason))]);
  }

  lemma NoCallsTexts(v: Screen, w: Screen, t: State, reason: Reason)
    requires TextInv(v, t) && w.Screen? && t.calls == [] && t.results == []
    requires w.bubbles == CutAll(v.bubbles, PendingIds(t.calls, t.results), reason)
    ensures var c := FlushRound(t, reason).completed;
      forall i :: 0 <= i < |c| && c[i].role == Tool ==> TextOK(w, c[i])
  {
    assert w.bubbles == v.bubbles;
    var c := FlushRound(t, reason).completed;
    forall i | 0 <= i < |c| && c[i].role == Tool ensures TextOK(w, c[i]) {
      assert i < |t.completed|;
      assert TextOK(v, t.completed[i]);
    }
  }

  lemma FinalPage(s: State, t: State, v: Screen, w: Screen, evs: seq<Event>, reason: Reason)
    requires BubbleInv(v, s) && TextInv(v, s) && SameBooks(s, t) && w.Screen? && IdsInv(s, evs)
    requires ResultsInv(t, evs) && IdsInv(t, evs) && Distinct(Declared(evs)) && OpenRound(t)
    requires w.bubbles == CutAll(v.bubbles, PendingIds(s.calls, s.results), reason)
    ensures NoneOpen(w.bubbles)
    ensures forall id :: id in w.bubbles <==> id in Declared(evs)
    ensures var c := FlushRound(t, reason).completed;
      forall i :: 0 <= i < |c| && c[i].role == Tool ==> TextOK(w, c[i])
  {
    hide ToolIds, Declared, Answer, FlushRound, ResultsInv;
    SameBooksKeep(v, v, s, t);
    forall id | id in w.bubbles ensures w.bubbles[id] != Running && !w.bubbles[id].Resulted? {
      PendingMembers(s.calls, s.results, id);
      assert id in v.bubbles ==> BubbleOK(v.bubbles[id], id, s);
    }
    forall id ensures id in w.bubbles <==> id in Declared(evs) {
      PendingMembers(s.calls, s.results, id);
    }
    if t.calls != [] {
      hide BubbleInv, TextInv, PendingIds, IdsInv;
      FlushTexts(v, w, t, evs, reason);
    } else {
      NoCallsTexts(v, w, t, reason);
    }
  }

  /** Closed out, the page is idle, every declared call has one settled bubble,
      and each bubble shows exactly the text of its persisted tool row. */
  lemma PageMatchesTranscript(evs: seq<Event>, reason: Reason, at: int)
    requires Distinct(Declared(evs)) && reason != Superseded
    ensures var f := BeforeCollect(Run(evs), reason, at);
      var v := View(f.out);
      && v.Screen? && v.seg == Idle && NoneOpen(v.bubbles)
      && (forall id :: id in v.bubbles <==> id in Declared(evs))
      && (forall i :: 0 <= i < |f.completed| && f.completed[i].role == Tool ==> TextOK(v, f.completed[i]))
  {
    RunInv(evs);
    RunScreen(evs);
    var s := Run(evs);
    var t := EmitPendingEnds(s, reason, at);
    FinalOut(s, reason, at);
    FinalView(s, evs, reason, at);
    hide Run, EmitPendingEnds, View;
    SameCoreKeepsInv(s, t, evs);
    FinalPage(s, t, View(s.out), View(BeforeCollect(s, reason, at).out), evs, reason);
  }
}