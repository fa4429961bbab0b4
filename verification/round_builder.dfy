/**
  The builder object. Its fields are updated in place by every callback; each
  method's effect is the corresponding step of RoundModel, whose properties the
  transcript, screen and disk modules prove.
*/
module RoundBuilder {
  import opened Wrappers
  import opened Messages
  import M = RoundModel

  class Builder {
    var handler: bool
    var onFlush: bool
    var onStitch: bool
    var inMessage: bool
    var inThought: bool
    var accMessageParts: seq<string>
    var accThoughtParts: seq<string>
    var accToolCalls: seq<ToolCall>
    var accToolResults: seq<Message>
    var toolStartedAt: map<string, int>
    var toolFinishedAt: map<string, int>
    var completedMessages: seq<Message>
    var recentlySuperseded: map<string, M.SupersededInfo>
    var sawTokenUsage: bool
    /** Calls made on the handler and the persistence callbacks, in order. */
    var out: seq<M.Effect>

    ghost function State(): M.State
      reads this
    {
      M.State(handler, onFlush, onStitch, inMessage, inThought, accMessageParts, accThoughtParts,
              accToolCalls, accToolResults, toolStartedAt, toolFinishedAt, completedMessages,
              recentlySuperseded, sawTokenUsage, out)
    }

    constructor ()
      ensures State() == M.Fresh(false, false, false)
    {
      handler, onFlush, onStitch := false, false, false;
      inMessage, inThought := false, false;
      accMessageParts, accThoughtParts := [], [];
      accToolCalls, accToolResults := [], [];
      toolStartedAt, toolFinishedAt := map[], map[];
      completedMessages, recentlySuperseded := [], map[];
      sawTokenUsage, out := false, [];
    }

    method ClearText()
      modifies `accMessageParts, `accThoughtParts
      ensures State() == old(State()).(messageParts := [], thoughtParts := [])
    {
      accMessageParts, accThoughtParts := [], [];
    }

    method ClearTools()
      modifies `accToolCalls, `accToolResults
      ensures State() == old(State()).(calls := [], results := [])
    {
      accToolCalls, accToolResults := [], [];
    }

    method ClearStamps()
      modifies `toolStartedAt, `toolFinishedAt
      ensures State() == old(State()).(startedAt := map[], finishedAt := map[])
    {
      toolStartedAt, toolFinishedAt := map[], map[];
    }

    method ClearRound()
      modifies `accMessageParts, `accThoughtParts, `accToolCalls, `accToolResults, `toolStartedAt, `toolFinishedAt
      ensures State() == old(State()).(messageParts := [], thoughtParts := [], calls := [], results := [],
                                       startedAt := map[], finishedAt := map[])
    {
      ClearText();
      ClearTools();
      ClearStamps();
    }

    method ClearRun()
      modifies `inMessage, `inThought, `completedMessages, `recentlySuperseded, `sawTokenUsage, `out
      ensures !inMessage && !inThought && completedMessages == []
      ensures recentlySuperseded == map[] && !sawTokenUsage && out == []
    {
      inMessage, inThought := false, false;
      completedMessages, recentlySuperseded := [], map[];
      sawTokenUsage, out := false, [];
    }

    /** Reset clears every accumulator and forgets the stitcher. */
    method Reset(withHandler: bool, withFlush: bool)
      modifies this
      ensures State() == M.Fresh(withHandler, withFlush, false)
    {
      ClearRound();
      ClearRun();
      handler, onFlush, onStitch := withHandler, withFlush, false;
    }

    method SetStitcher()
      modifies this`onStitch
      ensures onStitch
    {
      onStitch := true;
    }

    method PendingToolCallIDs() returns (pending: seq<string>)
      ensures pending == M.PendingIds(accToolCalls, accToolResults)
    {
      var closed: set<string> := {};
      for i := 0 to |accToolResults|
        invariant forall id :: id in closed <==> id in M.ResultIds(accToolResults)[..i]
      {
        closed := closed + {accToolResults[i].toolCallID};
      }
      assert M.ResultIds(accToolResults)[..|accToolResults|] == M.ResultIds(accToolResults);
      pending := [];
      for i := 0 to |accToolCalls|
        invariant pending == M.PendingIds(accToolCalls[..i], accToolResults)
      {
        assert accToolCalls[..i + 1][..i] == accToolCalls[..i];
        if accToolCalls[i].id !in closed {
          pending := pending + [accToolCalls[i].id];
        }
      }
      assert accToolCalls[..|accToolCalls|] == accToolCalls;
    }

    /** Each id gets a stamp, unless it has one. */
    static method Stamped(ids: seq<string>, stamps: map<string, int>, at: int) returns (stamped: map<string, int>)
      ensures stamped == (map id | id in ids :: at) + stamps
    {
      stamped := stamps;
      for i := 0 to |ids|
        invariant stamped == (map id | id in ids[..i] :: at) + stamps
      {
        var id := ids[i];
        assert forall x :: x in ids[..i + 1] <==> x in ids[..i] || x == id;
        if id !in stamped {
          stamped := stamped[id := at];
        }
      }
      assert ids[..|ids|] == ids;
    }

    method StampPendingToolsFinished(at: int) returns (pending: seq<string>)
      modifies this`toolFinishedAt
      ensures pending == M.PendingIds(accToolCalls, accToolResults)
      ensures State() == M.StampPending(old(State()), at)
    {
      hide M.PendingIds;
      pending := PendingToolCallIDs();
      toolFinishedAt := Stamped(pending, toolFinishedAt, at);
    }

    method NamesByID() returns (names: map<string, string>)
      ensures forall id :: (if id in names then names[id] else "") == M.CallName(accToolCalls, id)
    {
      names := map[];
      for i := 0 to |accToolCalls|
        invariant forall id :: (if id in names then names[id] else "") == M.CallName(accToolCalls[..i], id)
      {
        assert accToolCalls[..i + 1][..i] == accToolCalls[..i];
        names := names[accToolCalls[i].id := accToolCalls[i].name];
      }
      assert accToolCalls[..|accToolCalls|] == accToolCalls;
    }

    method SupersededInfos(ids: seq<string>) returns (infos: map<string, M.SupersededInfo>)
      ensures infos == map id | id in ids :: M.InfoOf(State(), id)
    {
      var names := NamesByID();
      infos := map[];
      for i := 0 to |ids|
        invariant infos == map id | id in ids[..i] :: M.InfoOf(State(), id)
      {
        var id := ids[i];
        assert forall x :: x in ids[..i + 1] <==> x in ids[..i] || x == id;
        var name := if id in names then names[id] else "";
        infos := infos[id := M.SupersededInfo(name, if id in toolStartedAt then toolStartedAt[id] else 0)];
      }
      assert ids[..|ids|] == ids;
    }

    method RememberSuperseded(ids: seq<string>)
      requires ids == M.PendingIds(accToolCalls, accToolResults)
      modifies this`recentlySuperseded
      ensures State() == M.RememberSuperseded(old(State()))
    {
      var infos := SupersededInfos(ids);
      recentlySuperseded := recentlySuperseded + infos;
    }

    method ReorderToolResults(reason: M.Reason) returns (ordered: seq<Message>)
      ensures ordered == M.ReorderToolResults(State(), reason)
    {
      if |accToolCalls| == 0 {
        return accToolResults;
      }
      var realByID: map<string, Message> := map[];
      for i := |accToolResults| downto 0
        invariant forall id :: (if id in realByID then Some(realByID[id]) else None) ==
                    M.FirstResult(accToolResults[i..], id)
      {
        assert accToolResults[i..][1..] == accToolResults[i + 1..];
        realByID := realByID[accToolResults[i].toolCallID := accToolResults[i]];
      }
      assert accToolResults[0..] == accToolResults;
      ordered := [];
      for i := 0 to |accToolCalls|
        invariant |ordered| == i
        invariant forall j :: 0 <= j < i ==> ordered[j] == M.OrderedRow(accToolCalls[j].id, State(), reason)
      {
        var id := accToolCalls[i].id;
        if id in realByID {
          ordered := ordered + [realByID[id]];
        } else {
          ordered := ordered +
            [M.NewPlaceholder(id, reason, M.PositiveStamp(toolStartedAt, id), M.PositiveStamp(toolFinishedAt, id))];
        }
      }
    }

    method FlushCurrentRound(reason: M.Reason)
      modifies this
      ensures State() == M.FlushRound(old(State()), reason)
    {
      var content, reasoning := M.Join(accMessageParts), M.Join(accThoughtParts);
      if content == "" && reasoning == "" && |accToolCalls| == 0 {
        return;
      }
      var assistant := Message(Assistant, content, reasoning, accToolCalls, "", Extra(false, false, None, None));
      var ordered := ReorderToolResults(reason);
      var rows := [assistant] + ordered;
      assert rows == M.RoundRows(State(), reason);
      hide M.RoundRows, M.Join;
      ClearRound();
      AppendRound(rows);
    }

    method AppendRound(rows: seq<Message>)
      modifies `completedMessages, `out
      ensures var s := old(State());
        State() == s.(completed := s.completed + rows, out := if s.onFlush then s.out + [M.Flush(rows)] else s.out)
    {
      completedMessages := completedMessages + rows;
      if onFlush {
        out := out + [M.Flush(rows)];
      }
    }

    method NotifyInterrupted(ids: seq<string>, reason: M.Reason)
      modifies this`out
      ensures out == old(out) + M.Interruptions(ids, reason)
    {
      for i := 0 to |ids|
        invariant out == old(out) + M.Interruptions(ids, reason)[..i]
      {
        out := out + [M.UI(M.ToolInterrupted(ids[i], reason))];
      }
    }

    method EagerFlush(at: int)
      modifies this
      ensures State() == M.SupersedeRound(old(State()), at)
    {
      hide M.StampPending, M.PendingIds, M.Interruptions, M.FlushRound, M.RememberSuperseded;
      if |accToolCalls| > 0 {
        var pending := StampPendingToolsFinished(at);
        RememberSuperseded(pending);
        FlushCurrentRound(M.Superseded);
        NotifyInterrupted(pending, M.Superseded);
      }
    }

    method EndThought()
      modifies `inThought, `out
      ensures State() == M.EndThought(old(State()))
    {
      if inThought {
        inThought := false;
        out := out + [M.UI(M.ThoughtEnd)];
      }
    }

    method EndMessage()
      modifies `inMessage, `out
      ensures State() == M.EndMessage(old(State()))
    {
      if inMessage {
        inMessage := false;
        out := out + [M.UI(M.MessageEnd)];
      }
    }

    method StartMessage()
      modifies `inMessage, `out
      ensures State() == M.StartMessage(old(State()))
    {
      if !inMessage {
        inMessage := true;
        out := out + [M.UI(M.MessageStart)];
      }
    }

    method StartThought()
      modifies `inThought, `out
      ensures State() == M.StartThought(old(State()))
    {
      if !inThought {
        inThought := true;
        out := out + [M.UI(M.ThoughtStart)];
      }
    }

    method OnMessageChunk(text: string, at: int)
      modifies this
      ensures State() == M.OnMessageChunk(old(State()), text, at)
    {
      if !handler { return; }
      EagerFlush(at);
      EndThought();
      StartMessage();
      accMessageParts := accMessageParts + [text];
      out := out + [M.UI(M.MessageDelta(text))];
    }

    method OnThoughtChunk(text: string, at: int)
      modifies this
      ensures State() == M.OnThoughtChunk(old(State()), text, at)
    {
      if !handler { return; }
      EagerFlush(at);
      EndMessage();
      StartThought();
      accThoughtParts := accThoughtParts + [text];
      out := out + [M.UI(M.ThoughtDelta(text))];
    }

    method OnToolCall(id: string, title: string, at: int)
      modifies this
      ensures State() == M.OnToolCall(old(State()), id, title, at)
    {
      if !handler { return; }
      if inMessage {
        EndMessage();
      } else {
        EndThought();
      }
      accToolCalls := accToolCalls + [ToolCall(id, title, "")];
      toolStartedAt := toolStartedAt[id := at];
      out := out + [M.UI(M.ToolStart(id, title))];
    }

    /** Only the first call of an id is updated. */
    static lemma {:induction false} SetArgsAt(calls: seq<ToolCall>, i: nat, id: string, args: string, replace: bool)
      requires i <= |calls| && (forall k :: 0 <= k < i ==> calls[k].id != id) && (i < |calls| ==> calls[i].id == id)
      ensures M.SetArgs(calls, id, args, replace) ==
              if i == |calls| then calls
              else calls[i := calls[i].(args := if replace then args else calls[i].args + args)]
    {
      if i > 0 {
        SetArgsAt(calls[1..], i - 1, id, args, replace);
      }
    }

    /** The declared calls with the arguments of the first call of an id updated. */
    static method WithArgs(calls: seq<ToolCall>, id: string, args: string, replace: bool)
      returns (updated: seq<ToolCall>)
      ensures updated == M.SetArgs(calls, id, args, replace)
    {
      hide M.SetArgs;
      var i := 0;
      while i < |calls| && calls[i].id != id
        invariant 0 <= i <= |calls| && forall k :: 0 <= k < i ==> calls[k].id != id
      {
        i := i + 1;
      }
      SetArgsAt(calls, i, id, args, replace);
      updated := calls;
      if i < |calls| {
        updated := calls[i := calls[i].(args := if replace then args else calls[i].args + args)];
      }
    }

    method OnToolCallArgs(id: string, args: string, replace: bool)
      modifies this
      ensures State() == M.OnToolCallArgs(old(State()), id, args, replace)
    {
      if (args == "" && !replace) || !handler { return; }
      accToolCalls := WithArgs(accToolCalls, id, args, replace);
      out := out + [M.UI(M.ToolArgs(id, args, replace))];
    }

    method IsDeclared(id: string) returns (declared: bool)
      ensures declared <==> id in CallIds(accToolCalls)
    {
      declared := false;
      for i := 0 to |accToolCalls|
        invariant declared <==> id in CallIds(accToolCalls)[..i]
      {
        if accToolCalls[i].id == id {
          declared := true;
        }
      }
      assert CallIds(accToolCalls)[..|accToolCalls|] == CallIds(accToolCalls);
    }

    method HasResult(id: string) returns (found: bool)
      ensures found <==> id in M.ResultIds(accToolResults)
    {
      found := false;
      for i := 0 to |accToolResults|
        invariant found <==> id in M.ResultIds(accToolResults)[..i]
      {
        if accToolResults[i].toolCallID == id {
          found := true;
        }
      }
      assert M.ResultIds(accToolResults)[..|accToolResults|] == M.ResultIds(accToolResults);
    }

    /** A terminal update: a result, a late result, or nothing. */
    method OnTerminal(id: string, content: string, status: M.Status, at: int)
      modifies this
      ensures State() == M.OnTerminal(old(State()), id, content, status, at)
    {
      if !handler { return; }
      var declared := IsDeclared(id);
      if !declared {
        if id in recentlySuperseded {
          LateTerminalStitch(id, content, status, at);
        }
        return;
      }
      var duplicate := HasResult(id);
      if duplicate { return; }
      AcceptTerminal(id, content, status, at);
    }

    method AcceptTerminal(id: string, content: string, status: M.Status, at: int)
      modifies this
      ensures State() == M.AcceptTerminal(old(State()), id, content, status, at)
    {
      hide M.FlushRound, M.RealResult, M.Emit;
      RecordResult(id, content, status, at);
      if |accToolResults| >= |accToolCalls| {
        FlushCurrentRound(M.Interrupted);
      }
      NotifyResult(id, M.ResultText(content, status), status != M.Failed);
    }

    method RecordResult(id: string, content: string, status: M.Status, at: int)
      modifies `toolFinishedAt, `accToolResults
      ensures var s := old(State());
        State() == s.(results := s.results + [M.RealResult(s, id, content, status, at)],
                      finishedAt := s.finishedAt[id := at])
    {
      toolFinishedAt := toolFinishedAt[id := at];
      var extra := Extra(false, false, if id in toolStartedAt then Some(toolStartedAt[id]) else None, Some(at));
      accToolResults := accToolResults + [Message(Tool, M.ResultText(content, status), "", [], id, extra)];
    }

    method NotifyResult(id: string, text: string, success: bool)
      modifies `out
      ensures State() == M.Emit(M.Emit(old(State()), M.ToolResult(id, text, success)), M.ToolEnd(id, success))
    {
      out := out + [M.UI(M.ToolResult(id, text, success))];
      out := out + [M.UI(M.ToolEnd(id, success))];
    }

    /** The row a late terminal replaces, searched from the tail. */
    static method FindStitch(ms: seq<Message>, id: string) returns (found: Option<nat>)
      ensures found == M.StitchIndex(ms, id)
    {
      assert ms[..|ms|] == ms;
      var i := |ms|;
      while i > 0
        invariant 0 <= i <= |ms|
        invariant M.StitchIndex(ms, id) == M.StitchIndex(ms[..i], id)
      {
        assert ms[..i][..i - 1] == ms[..i - 1];
        var m := ms[i - 1];
        if m.role == Tool && m.toolCallID == id {
          return if m.extra.placeholder then Some(i - 1) else None;
        }
        i := i - 1;
      }
      found := None;
    }

    method BuildStitchedRow(id: string, content: string, status: M.Status, at: int) returns (row: Message)
      requires id in recentlySuperseded
      ensures row == M.StitchedRow(State(), id, content, status, at)
    {
      var started := if id in toolStartedAt then toolStartedAt[id] else 0;
      if started == 0 {
        started := recentlySuperseded[id].toolStartedAt;
      }
      var finished := at;
      if id in toolFinishedAt && toolFinishedAt[id] > 0 {
        finished := toolFinishedAt[id];
      }
      row := Message(Tool, M.ResultText(content, status), "", [], id,
        Extra(false, false, if started > 0 then Some(started) else None, Some(finished)));
    }

    /** Swap the placeholder in memory, then hand the real row to the stitcher. */
    method LateTerminalStitch(id: string, content: string, status: M.Status, at: int)
      requires id in recentlySuperseded
      modifies this
      ensures State() == M.LateTerminal(old(State()), id, content, status, at)
    {
      hide M.StitchedRow, M.StitchIndex;
      var row := BuildStitchedRow(id, content, status, at);
      SwapPlaceholder(id, row);
      recentlySuperseded := recentlySuperseded - {id};
      NotifyStitched(id, row, M.ResultText(content, status), status != M.Failed);
    }

    method SwapPlaceholder(id: string, row: Message)
      modifies this`completedMessages
      ensures completedMessages ==
              var i := M.StitchIndex(old(completedMessages), id);
              if i.Some? then old(completedMessages)[i.value := row] else old(completedMessages)
    {
      hide M.StitchIndex;
      var found := FindStitch(completedMessages, id);
      if found.Some? {
        completedMessages := completedMessages[found.value := row];
      }
    }

    method NotifyStitched(id: string, row: Message, text: string, success: bool)
      modifies this`out
      ensures out == old(out) + (if onStitch then [M.Stitch(id, row)] else []) +
                     (if handler then [M.UI(M.ToolStitched(id, text, success))] else [])
    {
      var effects := if onStitch then [M.Stitch(id, row)] else [];
      var notice := if handler then [M.UI(M.ToolStitched(id, text, success))] else [];
      out := out + effects + notice;
    }

    method OnTokenUsage(tokens: int)
      modifies this
      ensures State() == M.OnTokenUsage(old(State()), tokens)
    {
      sawTokenUsage := true;
      if handler {
        out := out + [M.UI(M.Usage(tokens))];
      }
    }

    method Handle(e: M.Event)
      modifies this
      ensures State() == M.Step(old(State()), e)
    {
      match e
      case MessageChunk(text, at) => OnMessageChunk(text, at);
      case ThoughtChunk(text, at) => OnThoughtChunk(text, at);
      case ToolCallDecl(id, title, at) => OnToolCall(id, title, at);
      case ToolCallUpdate(id, content, status, at) =>
        if M.IsTerminal(status) {
          OnTerminal(id, content, status, at);
        } else {
          OnToolCallArgs(id, content, false);
        }
      case ArgsSnapshot(id, args) => OnToolCallArgs(id, args, true);
      case TokenUsage(tokens) => OnTokenUsage(tokens);
    }

    method EmitPendingEnds(reason: M.Reason, at: int)
      modifies this
      ensures State() == M.EmitPendingEnds(old(State()), reason, at)
    {
      hide M.StampPending, M.PendingIds, M.Interruptions, M.EndThought, M.EndMessage;
      var pending := StampPendingToolsFinished(at);
      if !handler {
        DropSegments();
        return;
      }
      EndSegments();
      NotifyInterrupted(pending, reason);
    }

    method DropSegments()
      modifies `inMessage, `inThought
      ensures State() == old(State()).(inMessage := false, inThought := false)
    {
      inMessage, inThought := false, false;
    }

    method EndSegments()
      modifies `inMessage, `inThought, `out
      ensures State() == M.EndThought(M.EndMessage(old(State())))
    {
      EndMessage();
      EndThought();
    }

    method CollectMessages(reason: M.Reason) returns (collected: seq<Message>)
      modifies this
      ensures collected == M.FlushRound(old(State()), reason).completed
      ensures State() == M.FlushRound(old(State()), reason).(completed := [])
    {
      FlushCurrentRound(reason);
      collected := completedMessages;
      completedMessages := [];
    }

    /** The close-out of a Run, in the order that keeps UI and disk in step. */
    method FinalizeRound(canceled: bool, at: int) returns (collected: seq<Message>)
      modifies this
      ensures var reason := if canceled then M.Canceled else M.Interrupted;
        collected == M.BeforeCollect(old(State()), reason, at).completed &&
        State() == M.FinalizeRound(old(State()), reason, at)
    {
      var reason := if canceled then M.Canceled else M.Interrupted;
      EmitPendingEnds(reason, at);
      collected := CollectMessages(reason);
      handler := false;
    }

    /** A whole Run: reset, every event, close-out. */
    method RunAll(evs: seq<M.Event>, canceled: bool, at: int) returns (collected: seq<Message>)
      modifies this
      ensures var reason := if canceled then M.Canceled else M.Interrupted;
        collected == M.BeforeCollect(M.Run(evs), reason, at).completed &&
        State() == M.FinalizeRound(M.Run(evs), reason, at)
    {
      Reset(true, true);
      SetStitcher();
      for i := 0 to |evs|
        invariant State() == M.Run(evs[..i])
      {
        assert evs[..i + 1][..i] == evs[..i];
        Handle(evs[i]);
      }
      assert evs[..|evs|] == evs;
      collected := FinalizeRound(canceled, at);
    }
  }
}
