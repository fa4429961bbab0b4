/**
  The stream adapter as an object: per-position maps, the declared ids of the
  run, the shared failure registry, and the byte-capped buffers of one stream.
*/
module Adapter {
  import opened Wrappers
  import opened M = AdapterModel

  function Joined(parts: seq<string>): string {
    if parts == [] then "" else Joined(parts[..|parts| - 1]) + parts[|parts| - 1]
  }

  /** The stream-local maps, with their parts joined. */
  ghost predicate Holding(parts: map<string, seq<string>>, bytes: map<string, nat>, r: Results) {
    && parts.Keys == r.parts.Keys && bytes.Keys <= parts.Keys
    && (forall id :: id in parts ==> Joined(parts[id]) == r.parts[id])
    && (forall id :: id in parts ==> (if id in bytes then bytes[id] else 0) == |r.parts[id]|)
  }

  method JoinParts(parts: seq<string>) returns (s: string)
    ensures s == Joined(parts)
  {
    s := "";
    for i := 0 to |parts|
      invariant s == Joined(parts[..i])
    {
      assert parts[..i + 1][..i] == parts[..i];
      s := s + parts[i];
    }
    assert parts[..|parts|] == parts;
  }

  lemma NotedKeepsStarted(s: Slots, k: int, f: Frag)
    ensures Noted(s, k, f).started == s.started
  {
  }

  lemma EmitSnoc(st: State, r: Results, order: seq<string>, i: nat)
    requires i < |order|
    ensures EmitAll(st, r, order[..i + 1]) == EmitTerminal(EmitAll(st, r, order[..i]), r, order[i])
  {
    assert order[..i + 1][..i] == order[..i];
  }

  lemma JoinedSnoc(parts: seq<string>, text: string)
    ensures Joined(parts + [text]) == Joined(parts) + text
  {
    assert (parts + [text])[..|parts|] == parts;
  }

  lemma SameKeys(parts: map<string, seq<string>>, bytes: map<string, nat>, r: Results)
    requires Holding(parts, bytes, r)
    ensures forall id :: id in r.parts <==> id in parts
    ensures forall id :: id in bytes ==> id in parts
  {
  }

  lemma NamelessIs(r: Results, text: string)
    ensures Collect1(r, "", text, PER_TOOL, PER_STREAM) == r
  {
  }

  lemma ArrivedHolds(parts: map<string, seq<string>>, bytes: map<string, nat>, r: Results, id: string)
    requires Holding(parts, bytes, r) && id != ""
    ensures var a := Arrived(r, id); var now := if id in parts then parts else parts[id := []];
      && id in now && Part(a, id) == Joined(now[id])
      && |Part(a, id)| == (if id in parts && id in bytes then bytes[id] else 0)
      && a.order == (if id in parts then r.order else r.order + [id])
      && a.truncated == r.truncated && a.total == r.total
      && Holding(now, bytes, a)
  {
  }

  lemma KeptHolds(parts: map<string, seq<string>>, bytes: map<string, nat>, a: Results, id: string, text: string,
                  cut: bool)
    requires Holding(parts, bytes, a) && id in parts
    ensures Holding(parts[id := parts[id] + [text]], bytes[id := |Part(a, id)| + |text|], Kept(a, id, text, cut))
  {
    JoinedSnoc(parts[id], text);
  }

  lemma NothingHolds(parts: map<string, seq<string>>, bytes: map<string, nat>, a: Results, id: string)
    requires Holding(parts, bytes, a) && id in parts
    ensures Holding(parts, bytes, Kept(a, id, "", true)) && Kept(a, id, "", true).total == a.total
  {
    assert Part(a, id) + "" == Part(a, id);
    assert a.parts[id := Part(a, id) + ""] == a.parts;
  }

  /** Buffer one piece of a tool result under both caps. */
  method CollectText(parts: map<string, seq<string>>, bytes: map<string, nat>, total: nat, truncated: set<string>,
                     order: seq<string>, id: string, text: string, ghost r: Results)
    returns (parts': map<string, seq<string>>, bytes': map<string, nat>, total': nat, truncated': set<string>,
             order': seq<string>, ghost r': Results)
    requires Holding(parts, bytes, r) && r.order == order && r.truncated == truncated && r.total == total
    requires forall j :: 0 <= j < |order| ==> order[j] in parts
    ensures r' == Collect1(r, id, text, PER_TOOL, PER_STREAM)
    ensures Holding(parts', bytes', r') && r'.order == order' && r'.truncated == truncated' && r'.total == total'
    ensures forall j :: 0 <= j < |order'| ==> order'[j] in parts'
  {
    hide Joined, Collect1, Arrived, Holding, Part;
    SameKeys(parts, bytes, r);
    parts', bytes', total', truncated', order' := parts, bytes, total, truncated, order;
    r' := Collect1(r, id, text, PER_TOOL, PER_STREAM);
    NamelessIs(r, text);
    if id == "" {
      return;
    }
    ArrivedHolds(parts, bytes, r, id);
    Collect1Is(r, id, text, PER_TOOL, PER_STREAM);
    if id !in parts {
      order' := order' + [id];
      parts' := parts'[id := []];
    }
    if text == "" || id in truncated {
      return;
    }
    ghost var a := Arrived(r, id);
    var used := if id in bytes then bytes[id] else 0;
    var perToolRemaining, streamRemaining := PER_TOOL - used, PER_STREAM - total;
    var remaining := if streamRemaining < perToolRemaining then streamRemaining else perToolRemaining;
    assert remaining == Room(a, id, PER_TOOL, PER_STREAM);
    if |text| > remaining {
      NothingHolds(parts', bytes', a, id);
      if remaining > 0 {
        KeptHolds(parts', bytes', a, id, text[..remaining], true);
        parts' := parts'[id := parts'[id] + [text[..remaining]]];
        bytes' := bytes'[id := used + remaining];
        total' := total' + remaining;
      }
      truncated' := truncated' + {id};
      return;
    }
    KeptHolds(parts', bytes', a, id, text, false);
    parts' := parts'[id := parts'[id] + [text]];
    bytes' := bytes'[id := used + |text|];
    total' := total' + |text|;
  }

  class RoundAdapter {
    var toolCallIDs: map<int, string>
    var toolCallNames: map<int, string>
    var toolCallArgsBuf: map<int, seq<string>>
    var toolCallStarted: set<int>
    var declaredIDs: set<string>
    var toolFailures: set<string>
    /** The calls made on the stream handler so far. */
    var handler: seq<Call>

    constructor (failures: set<string>)
      ensures State() == M.State(EMPTY, {}, failures, [])
    {
      toolCallIDs, toolCallNames, toolCallArgsBuf, toolCallStarted := map[], map[], map[], {};
      declaredIDs, toolFailures, handler := {}, failures, [];
    }

    ghost function State(): M.State
      reads this
    {
      M.State(Slots(toolCallIDs, toolCallNames, toolCallArgsBuf, toolCallStarted), declaredIDs, toolFailures, handler)
    }

    method ResetStreamState()
      modifies this
      ensures State() == old(State()).(slots := EMPTY)
    {
      toolCallIDs, toolCallNames, toolCallArgsBuf, toolCallStarted := map[], map[], map[], {};
    }

    /** Note a fragment's id, name and, while the call is not complete, its arguments. */
    method NoteFragment(key: int, tc: Frag)
      modifies this
      ensures State() == old(State()).(slots := Noted(old(State()).slots, key, tc))
    {
      var ids, names, bufs := toolCallIDs, toolCallNames, toolCallArgsBuf;
      if tc.id != "" {
        ids := ids[key := tc.id];
      }
      if tc.name != "" {
        names := names[key := tc.name];
      }
      var id := if key in ids then ids[key] else "";
      var name := if key in names then names[key] else "";
      if (key !in toolCallStarted || id == "" || name == "") && tc.args != "" {
        bufs := bufs[key := (if key in bufs then bufs[key] else []) + [tc.args]];
      }
      toolCallIDs, toolCallNames, toolCallArgsBuf := ids, names, bufs;
    }

    /** Declare a completed call and flush what was buffered for it. */
    method StartCall(key: int, id: string, name: string)
      modifies this
      ensures var st := old(State()); var buffered := BufAt(st.slots, key);
        State() == M.State(st.slots.(started := st.slots.started + {key}, bufs := st.slots.bufs[key := []]),
                           st.declared + {id}, st.failures, st.calls + ([Declare(id, name)] + ArgCalls(id, buffered)))
    {
      var flushed := if key in toolCallArgsBuf then toolCallArgsBuf[key] else [];
      toolCallStarted := toolCallStarted + {key};
      toolCallArgsBuf := toolCallArgsBuf[key := []];
      declaredIDs := declaredIDs + {id};
      var calls := [Declare(id, name)];
      for i := 0 to |flushed|
        invariant calls == [Declare(id, name)] + ArgCalls(id, flushed)[..i]
      {
        calls := calls + [Args(id, flushed[i])];
      }
      assert ArgCalls(id, flushed)[..|flushed|] == ArgCalls(id, flushed);
      handler := handler + calls;
    }

    method ForwardToolCall(tc: Frag, pos: nat)
      modifies this
      ensures State() == ForwardFrag(old(State()), if tc.index.Some? then tc.index.value else pos, tc)
    {
      hide Noted;
      var key := if tc.index.Some? then tc.index.value else pos;
      var started := key in toolCallStarted;
      NotedKeepsStarted(State().slots, key, tc);
      NoteFragment(key, tc);
      var id := if key in toolCallIDs then toolCallIDs[key] else "";
      var name := if key in toolCallNames then toolCallNames[key] else "";
      if !started && id != "" && name != "" {
        StartCall(key, id, name);
      }
      if started && tc.args != "" && id != "" {
        handler := handler + [Args(id, tc.args)];
      }
      assert old(handler) + [] == old(handler);
    }

    method ForwardChunk(chunk: Chunk)
      requires chunk.Assist?
      modifies this
      ensures State() == M.ForwardChunk(old(State()), chunk)
    {
      hide ForwardFrag;
      if chunk.reasoning != "" {
        handler := handler + [Thought(chunk.reasoning)];
      }
      if chunk.content != "" {
        handler := handler + [Say(chunk.content)];
      }
      assert State() == ForwardText(old(State()), chunk.reasoning, chunk.content);
      for i := 0 to |chunk.frags|
        invariant State() == ForwardFrags(ForwardText(old(State()), chunk.reasoning, chunk.content), chunk.frags, i)
      {
        ForwardToolCall(chunk.frags[i], i);
      }
    }

    /** Completed, or failed when the tool wrapper recorded a failure, which is consumed. */
    method EmitToolTerminal(id: string, content: string)
      modifies this
      ensures State() == old(State()).(calls := old(handler) + [Terminal(id, content, id in old(toolFailures))],
                                       failures := old(toolFailures) - {id})
    {
      var failed := id in toolFailures;
      toolFailures := toolFailures - {id};
      handler := handler + [Terminal(id, content, failed)];
    }

    /** Deliver the collected results in order of first arrival. */
    method EmitResults(order: seq<string>, parts: map<string, seq<string>>, truncated: set<string>, ghost r: Results)
      requires parts.Keys == r.parts.Keys && truncated == r.truncated
      requires forall id :: id in parts ==> Joined(parts[id]) == r.parts[id]
      requires forall i :: 0 <= i < |order| ==> order[i] in parts
      modifies this
      ensures State() == EmitAll(old(State()), r, order)
    {
      for i := 0 to |order|
        invariant State() == EmitAll(old(State()), r, order[..i])
      {
        EmitSnoc(old(State()), r, order, i);
        hide EmitAll;
        var id := order[i];
        if id in declaredIDs {
          var content := JoinParts(parts[id]);
          if id in truncated {
            content := content + TRUNCATED;
          }
          assert Part(r, id) + "" == Part(r, id);
          EmitToolTerminal(id, content);
        }
      }
      assert order[..|order|] == order;
    }

    /** Forward a whole stream; a broken one reports its error and delivers no results. */
    method ForwardStream(stream: seq<Chunk>, broken: bool) returns (ok: bool)
      modifies this
      ensures State() == M.ForwardStream(old(State()), stream, broken) && ok == !broken
    {
      hide M.ForwardChunk, EmitAll;
      ResetStreamState();
      var toolParts: map<string, seq<string>>, toolBytes: map<string, nat>, totalBytes := map[], map[], 0;
      var toolTruncated: set<string>, toolOrder: seq<string> := {}, [];
      ghost var r := NO_RESULTS;
      for i := 0 to |stream|
        invariant (State(), r) == ForwardAll(old(State()), stream[..i])
        invariant Holding(toolParts, toolBytes, r) && r.order == toolOrder
        invariant r.truncated == toolTruncated && r.total == totalBytes
        invariant forall j :: 0 <= j < |toolOrder| ==> toolOrder[j] in toolParts
      {
        assert stream[..i + 1][..i] == stream[..i];
        match stream[i]
        case Assist(_, _, _) => ForwardChunk(stream[i]);
        case ToolText(id, text) =>
          toolParts, toolBytes, totalBytes, toolTruncated, toolOrder, r :=
            CollectText(toolParts, toolBytes, totalBytes, toolTruncated, toolOrder, id, text, r);
      }
      assert stream[..|stream|] == stream;
      ok := !broken;
      if !broken {
        EmitResults(toolOrder, toolParts, toolTruncated, r);
      }
    }
  }
}
