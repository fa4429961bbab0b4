/**
  The round aggregator: what each stream event does to the builder's fields and
  to the outside world. Every callback is one atomic step. `out` lists, in the
  order the program performs them, the persistence callbacks and the calls on
  the UI handler.
*/
module RoundModel {
  import opened Wrappers
  import opened Messages

  datatype Status = Pending | InProgress | Completed | Failed

  predicate IsTerminal(st: Status) { st == Completed || st == Failed }

  datatype Reason = Canceled | Interrupted | Superseded

  function ReasonText(r: Reason): string {
    match r
    case Canceled => "canceled"
    case Interrupted => "interrupted"
    case Superseded => "superseded"
  }

  datatype UIEvent =
    | MessageStart | MessageDelta(text: string) | MessageEnd
    | ThoughtStart | ThoughtDelta(text: string) | ThoughtEnd
    | ToolStart(id: string, title: string)
    | ToolArgs(id: string, args: string, replace: bool)
    | ToolResult(id: string, content: string, success: bool)
    | ToolEnd(id: string, success: bool)
    | ToolInterrupted(id: string, reason: Reason)
    | ToolStitched(id: string, content: string, success: bool)
    | Usage(tokens: int)

  datatype Effect = Flush(rows: seq<Message>) | Stitch(id: string, row: Message) | UI(ev: UIEvent)

  /** Snapshot taken when an eager flush placeholders a tool call. */
  datatype SupersededInfo = SupersededInfo(toolName: string, toolStartedAt: int)

  /** One call on the builder's stream-handler interface; `at` is the clock. */
  datatype Event =
    | MessageChunk(text: string, at: int)
    | ThoughtChunk(text: string, at: int)
    | ToolCallDecl(id: string, title: string, at: int)
    | ToolCallUpdate(id: string, content: string, status: Status, at: int)
    | ArgsSnapshot(id: string, args: string)
    | TokenUsage(tokens: int)

  datatype State = State(
    handler: bool,
    onFlush: bool,
    onStitch: bool,
    inMessage: bool,
    inThought: bool,
    messageParts: seq<string>,
    thoughtParts: seq<string>,
    calls: seq<ToolCall>,
    results: seq<Message>,
    startedAt: map<string, int>,
    finishedAt: map<string, int>,
    completed: seq<Message>,
    superseded: map<string, SupersededInfo>,
    sawTokenUsage: bool,
    out: seq<Effect>)

  predicate SameCallbacks(s: State, t: State) {
    s.handler == t.handler && s.onFlush == t.onFlush && s.onStitch == t.onStitch
  }

  /** The state after Reset and SetStitcher. */
  function Fresh(handler: bool, onFlush: bool, onStitch: bool): State {
    State(handler, onFlush, onStitch, false, false, [], [], [], [], map[], map[], [], map[], false, [])
  }

  function Emit(s: State, ev: UIEvent): State { s.(out := s.out + [UI(ev)]) }

  function Join(parts: seq<string>): string {
    if parts == [] then "" else Join(parts[..|parts| - 1]) + parts[|parts| - 1]
  }

  function ResultIds(results: seq<Message>): (ids: seq<string>)
    ensures |ids| == |results|
    ensures forall i :: 0 <= i < |results| ==> ids[i] == results[i].toolCallID
  {
    seq(|results|, i requires 0 <= i < |results| => results[i].toolCallID)
  }

  /** Ids of the declared calls that have no result yet, in declared order. */
  function PendingIds(calls: seq<ToolCall>, results: seq<Message>): seq<string> {
    if calls == [] then []
    else
      var rest := PendingIds(calls[..|calls| - 1], results);
      var id := calls[|calls| - 1].id;
      if id in ResultIds(results) then rest else rest + [id]
  }

  function PositiveStamp(m: map<string, int>, id: string): Option<int> {
    if id in m && m[id] > 0 then Some(m[id]) else None
  }

  function NewPlaceholder(id: string, reason: Reason, startedAt: Option<int>, finishedAt: Option<int>): Message {
    Message(Tool, PLACEHOLDER_PREFIX + ReasonText(reason), "", [], id, Extra(true, false, startedAt, finishedAt))
  }

  function ResultText(content: string, status: Status): string {
    if status == Failed then FAILED_PREFIX + content else content
  }

  function FirstResult(results: seq<Message>, id: string): Option<Message> {
    if results == [] then None
    else if results[0].toolCallID == id then Some(results[0])
    else FirstResult(results[1..], id)
  }

  function OrderedRow(id: string, s: State, reason: Reason): Message {
    match FirstResult(s.results, id)
    case Some(r) => r
    case None => NewPlaceholder(id, reason, PositiveStamp(s.startedAt, id), PositiveStamp(s.finishedAt, id))
  }

  /** Tool rows in declared order, with placeholders for the missing results. */
  function ReorderToolResults(s: State, reason: Reason): seq<Message> {
    if |s.calls| == 0 then s.results
    else seq(|s.calls|, i requires 0 <= i < |s.calls| => OrderedRow(s.calls[i].id, s, reason))
  }

  function AssistantRow(s: State): Message {
    Message(Assistant, Join(s.messageParts), Join(s.thoughtParts), s.calls, "", Extra(false, false, None, None))
  }

  predicate NothingToFlush(s: State) {
    Join(s.messageParts) == "" && Join(s.thoughtParts) == "" && |s.calls| == 0
  }

  function RoundRows(s: State, reason: Reason): seq<Message> {
    [AssistantRow(s)] + ReorderToolResults(s, reason)
  }

  /** The rows one flush adds to the completed messages. */
  function FlushedRows(s: State, reason: Reason): seq<Message> {
    if NothingToFlush(s) then [] else RoundRows(s, reason)
  }

  function FlushRound(s: State, reason: Reason): (f: State)
    ensures SameCallbacks(s, f) && f.superseded == s.superseded
    ensures f.inMessage == s.inMessage && f.inThought == s.inThought
    ensures f.completed == s.completed + FlushedRows(s, reason)
    ensures f.calls == []
    ensures (s.calls == [] ==> s.results == []) ==> f.results == []
  {
    if NothingToFlush(s) then s
    else
      var rows := RoundRows(s, reason);
      s.(messageParts := [], thoughtParts := [], calls := [], results := [],
         startedAt := map[], finishedAt := map[],
         completed := s.completed + rows,
         out := if s.onFlush then s.out + [Flush(rows)] else s.out)
  }

  /** Record a finish time for every pending call that has none. */
  function StampPending(s: State, at: int): State {
    var pending := PendingIds(s.calls, s.results);
    s.(finishedAt := (map id | id in pending :: at) + s.finishedAt)
  }

  function CallName(calls: seq<ToolCall>, id: string): string {
    if calls == [] then ""
    else if calls[|calls| - 1].id == id then calls[|calls| - 1].name
    else CallName(calls[..|calls| - 1], id)
  }

  /** What an eager flush remembers about a call: its name and start time. */
  function InfoOf(s: State, id: string): SupersededInfo {
    SupersededInfo(CallName(s.calls, id), if id in s.startedAt then s.startedAt[id] else 0)
  }

  function RememberSuperseded(s: State): State {
    var pending := PendingIds(s.calls, s.results);
    s.(superseded := s.superseded + map id | id in pending :: InfoOf(s, id))
  }

  function Interruptions(ids: seq<string>, reason: Reason): (es: seq<Effect>)
    ensures |es| == |ids|
    ensures forall i :: 0 <= i < |ids| ==> es[i] == UI(ToolInterrupted(ids[i], reason))
  {
    seq(|ids|, i requires 0 <= i < |ids| => UI(ToolInterrupted(ids[i], reason)))
  }

  /** Eager flush of a round whose successor has already begun. */
  function SupersedeRound(s: State, at: int): (f: State)
    ensures SameCallbacks(s, f) && f.calls == []
    ensures f.inMessage == s.inMessage && f.inThought == s.inThought
  {
    if |s.calls| == 0 then s
    else
      var pending := PendingIds(s.calls, s.results);
      var f := FlushRound(RememberSuperseded(StampPending(s, at)), Superseded);
      f.(out := f.out + Interruptions(pending, Superseded))
  }

  function EndThought(s: State): State {
    if s.inThought then Emit(s.(inThought := false), ThoughtEnd) else s
  }

  function EndMessage(s: State): State {
    if s.inMessage then Emit(s.(inMessage := false), MessageEnd) else s
  }

  function StartMessage(s: State): State {
    if s.inMessage then s else Emit(s.(inMessage := true), MessageStart)
  }

  function StartThought(s: State): State {
    if s.inThought then s else Emit(s.(inThought := true), ThoughtStart)
  }

  function OnMessageChunk(s: State, text: string, at: int): (t: State)
    ensures SameCallbacks(s, t)
  {
    if !s.handler then s
    else
      var t := StartMessage(EndThought(SupersedeRound(s, at)));
      Emit(t.(messageParts := t.messageParts + [text]), MessageDelta(text))
  }

  function OnThoughtChunk(s: State, text: string, at: int): (t: State)
    ensures SameCallbacks(s, t)
  {
    if !s.handler then s
    else
      var t := StartThought(EndMessage(SupersedeRound(s, at)));
      Emit(t.(thoughtParts := t.thoughtParts + [text]), ThoughtDelta(text))
  }

  function OnToolCall(s: State, id: string, title: string, at: int): State {
    if !s.handler then s
    else
      var t := if s.inMessage then EndMessage(s) else EndThought(s);
      Emit(t.(calls := t.calls + [ToolCall(id, title, "")], startedAt := t.startedAt[id := at]), ToolStart(id, title))
  }

  /** Update the arguments of the first call with this id, if any. */
  function SetArgs(calls: seq<ToolCall>, id: string, args: string, replace: bool): seq<ToolCall> {
    if calls == [] then []
    else if calls[0].id == id then
      [calls[0].(args := if replace then args else calls[0].args + args)] + calls[1..]
    else [calls[0]] + SetArgs(calls[1..], id, args, replace)
  }

  function OnToolCallArgs(s: State, id: string, args: string, replace: bool): State {
    if (args == "" && !replace) || !s.handler then s
    else Emit(s.(calls := SetArgs(s.calls, id, args, replace)), ToolArgs(id, args, replace))
  }

  /** Index of the placeholder a late terminal replaces, searched from the tail. */
  function StitchIndex(ms: seq<Message>, id: string): (r: Option<nat>)
    ensures r.Some? ==> r.value < |ms| && IsPlaceholderTool(ms[r.value]) && ms[r.value].toolCallID == id
    ensures r.Some? ==> forall j :: r.value < j < |ms| ==> !(ms[j].role == Tool && ms[j].toolCallID == id)
    ensures r.None? ==> forall i :: 0 <= i < |ms| && IsPlaceholderTool(ms[i]) && ms[i].toolCallID == id ==>
              exists j :: i < j < |ms| && ms[j].role == Tool && ms[j].toolCallID == id && !ms[j].extra.placeholder
  {
    if ms == [] then None
    else
      var n := |ms| - 1;
      if ms[n].role != Tool || ms[n].toolCallID != id then StitchIndex(ms[..n], id)
      else if !ms[n].extra.placeholder then None
      else Some(n)
  }

  function StitchedRow(s: State, id: string, content: string, status: Status, at: int): Message
    requires id in s.superseded
  {
    var live := if id in s.startedAt then s.startedAt[id] else 0;
    var started := if live == 0 then s.superseded[id].toolStartedAt else live;
    var finished := if id in s.finishedAt && s.finishedAt[id] > 0 then s.finishedAt[id] else at;
    Message(Tool, ResultText(content, status), "", [], id,
            Extra(false, false, if started > 0 then Some(started) else None, Some(finished)))
  }

  function LateTerminal(s: State, id: string, content: string, status: Status, at: int): (t: State)
    requires id in s.superseded
    ensures SameCallbacks(s, t) && t.superseded == s.superseded - {id}
    ensures t.calls == s.calls && t.results == s.results && |t.completed| == |s.completed|
  {
    var row := StitchedRow(s, id, content, status, at);
    var i := StitchIndex(s.completed, id);
    var stitched := if i.Some? then s.completed[i.value := row] else s.completed;
    var t := s.(completed := stitched, superseded := s.superseded - {id},
                out := if s.onStitch then s.out + [Stitch(id, row)] else s.out);
    if s.handler then Emit(t, ToolStitched(id, ResultText(content, status), status != Failed)) else t
  }

  function RealResult(s: State, id: string, content: string, status: Status, at: int): Message {
    Message(Tool, ResultText(content, status), "", [], id,
            Extra(false, false, if id in s.startedAt then Some(s.startedAt[id]) else None, Some(at)))
  }

  function AcceptTerminal(s: State, id: string, content: string, status: Status, at: int): (t: State)
    ensures SameCallbacks(s, t) && t.superseded == s.superseded
    ensures t.calls == s.calls || t.calls == []
  {
    var t := s.(results := s.results + [RealResult(s, id, content, status, at)],
                finishedAt := s.finishedAt[id := at]);
    var f := if |t.results| >= |t.calls| then FlushRound(t, Interrupted) else t;
    Emit(Emit(f, ToolResult(id, ResultText(content, status), status != Failed)), ToolEnd(id, status != Failed))
  }

  function OnTerminal(s: State, id: string, content: string, status: Status, at: int): State {
    if !s.handler then s
    else if id !in CallIds(s.calls) then
      if id in s.superseded then LateTerminal(s, id, content, status, at) else s
    else if id in ResultIds(s.results) then s
    else AcceptTerminal(s, id, content, status, at)
  }

  function OnTokenUsage(s: State, tokens: int): State {
    var t := s.(sawTokenUsage := true);
    if s.handler then Emit(t, Usage(tokens)) else t
  }

  function Step(s: State, e: Event): State {
    match e
    case MessageChunk(text, at) => OnMessageChunk(s, text, at)
    case ThoughtChunk(text, at) => OnThoughtChunk(s, text, at)
    case ToolCallDecl(id, title, at) => OnToolCall(s, id, title, at)
    case ToolCallUpdate(id, content, status, at) =>
      if IsTerminal(status) then OnTerminal(s, id, content, status, at) else OnToolCallArgs(s, id, content, false)
    case ArgsSnapshot(id, args) => OnToolCallArgs(s, id, args, true)
    case TokenUsage(tokens) => OnTokenUsage(s, tokens)
  }

  /** The builder after a whole event sequence, from a fresh Run. */
  function Run(evs: seq<Event>): State {
    if evs == [] then Fresh(true, true, true)
    else Step(Run(evs[..|evs| - 1]), evs[|evs| - 1])
  }

  function EmitPendingEnds(s: State, reason: Reason, at: int): State {
    var pending := PendingIds(s.calls, s.results);
    var t := StampPending(s, at);
    if !s.handler then t.(inMessage := false, inThought := false)
    else
      var u := EndThought(EndMessage(t));
      u.(out := u.out + Interruptions(pending, reason))
  }

  /** Close-out: pending UI ends, final flush, handler cleared. The collected
      messages are `FlushRound(...).completed`. */
  function BeforeCollect(s: State, reason: Reason, at: int): State {
    FlushRound(EmitPendingEnds(s, reason, at), reason)
  }

  function FinalizeRound(s: State, reason: Reason, at: int): State {
    BeforeCollect(s, reason, at).(completed := [], handler := false)
  }
}
