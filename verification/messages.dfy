/**
  The persisted message model and the shape of a well-formed history: user and
  system rows, and rounds (one assistant row followed by one tool row per
  declared tool call, in declared order).
  Strings are byte strings: one char per byte, as in the modelled program.
*/
module Messages {
  import opened Wrappers

  datatype Role = User | Assistant | Tool | System

  datatype ToolCall = ToolCall(id: string, name: string, args: string)

  datatype Extra = Extra(placeholder: bool, prePersisted: bool, startedAt: Option<int>, finishedAt: Option<int>)

  datatype Message = Message(
    role: Role,
    content: string,
    reasoning: string,
    toolCalls: seq<ToolCall>,
    toolCallID: string,
    extra: Extra)

  const PLACEHOLDER_PREFIX := "[placeholder] "
  const FAILED_PREFIX := "[failed] "

  predicate IsPlaceholderTool(m: Message) {
    m.role == Tool && m.extra.placeholder
  }

  predicate Distinct<T(==)>(s: seq<T>) {
    forall i, j :: 0 <= i < j < |s| ==> s[i] != s[j]
  }

  function CallIds(calls: seq<ToolCall>): (ids: seq<string>)
    ensures |ids| == |calls|
    ensures forall i :: 0 <= i < |calls| ==> ids[i] == calls[i].id
  {
    seq(|calls|, i requires 0 <= i < |calls| => calls[i].id)
  }

  /** The ids of the tool rows of a message sequence, in order. */
  function ToolIds(ms: seq<Message>): seq<string> {
    if ms == [] then []
    else (if ms[0].role == Tool then [ms[0].toolCallID] else []) + ToolIds(ms[1..])
  }

  lemma {:induction false} ToolIdsConcat(a: seq<Message>, b: seq<Message>)
    ensures ToolIds(a + b) == ToolIds(a) + ToolIds(b)
  {
    if a == [] {
      assert a + b == b;
    } else {
      assert (a + b)[1..] == a[1..] + b;
      ToolIdsConcat(a[1..], b);
    }
  }

  lemma {:induction false} ToolIdsOfToolRows(ms: seq<Message>)
    requires forall i :: 0 <= i < |ms| ==> ms[i].role == Tool
    ensures |ToolIds(ms)| == |ms|
    ensures forall i :: 0 <= i < |ms| ==> ToolIds(ms)[i] == ms[i].toolCallID
  {
    if ms != [] {
      ToolIdsOfToolRows(ms[1..]);
      assert forall i :: 0 < i < |ms| ==> ms[i] == ms[1..][i - 1];
    }
  }

  lemma {:induction false} ToolIdsMember(ms: seq<Message>, i: nat)
    requires i < |ms| && ms[i].role == Tool
    ensures ms[i].toolCallID in ToolIds(ms)
  {
    if i > 0 {
      ToolIdsMember(ms[1..], i - 1);
    }
  }

  /** Every listed tool id is the id of some tool row. */
  lemma {:induction false} ToolIdsWitness(ms: seq<Message>, id: string) returns (i: nat)
    requires id in ToolIds(ms)
    ensures i < |ms| && ms[i].role == Tool && ms[i].toolCallID == id
  {
    if ms[0].role == Tool && ms[0].toolCallID == id {
      i := 0;
    } else {
      var j := ToolIdsWitness(ms[1..], id);
      i := j + 1;
    }
  }

  lemma RowBehindDiffers(a: seq<Message>, b: seq<Message>, i: nat)
    requires i < |a| && a[i].role == Tool && b != [] && b[0].role == Tool && Distinct(ToolIds(a + b))
    ensures a[i].toolCallID != b[0].toolCallID
  {
    ToolIdsConcat(a, b);
    ToolIdsMember(a, i);
    assert ToolIds(b)[0] == b[0].toolCallID;
    var k :| 0 <= k < |ToolIds(a)| && ToolIds(a)[k] == a[i].toolCallID;
    hide ToolIds;
    assert (ToolIds(a) + ToolIds(b))[k] == ToolIds(a)[k];
    assert (ToolIds(a) + ToolIds(b))[|ToolIds(a)|] == ToolIds(b)[0];
  }

  /** With distinct tool ids, at most one tool row carries an id. */
  lemma ToolRowUnique(ms: seq<Message>, i: nat, j: nat)
    requires i < |ms| && j < |ms| && i != j
    requires ms[i].role == Tool && ms[j].role == Tool
    requires Distinct(ToolIds(ms))
    ensures ms[i].toolCallID != ms[j].toolCallID
  {
    hide ToolIds, Distinct;
    var lo, hi := if i < j then i else j, if i < j then j else i;
    assert ms == ms[..hi] + ms[hi..];
    RowBehindDiffers(ms[..hi], ms[hi..], lo);
  }

  /** Replacing a tool row by a tool row of the same id keeps the id sequence. */
  lemma {:induction false} ToolIdsReplace(ms: seq<Message>, i: nat, r: Message)
    requires i < |ms| && ms[i].role == Tool && r.role == Tool && r.toolCallID == ms[i].toolCallID
    ensures ToolIds(ms[i := r]) == ToolIds(ms)
  {
    if i > 0 {
      assert ms[i := r][1..] == ms[1..][i - 1 := r];
      ToolIdsReplace(ms[1..], i - 1, r);
    } else {
      assert ms[i := r][1..] == ms[1..];
    }
  }

  /** One complete round: an assistant row and its tool rows in declared order. */
  predicate IsRound(ms: seq<Message>) {
    && |ms| >= 1
    && ms[0].role == Assistant
    && |ms| == 1 + |ms[0].toolCalls|
    && forall i :: 1 <= i < |ms| ==> ms[i].role == Tool && ms[i].toolCallID == ms[0].toolCalls[i - 1].id
  }

  /** The length of the block that starts a history: a round, or one plain row. */
  function BlockLen(m: Message): (n: nat)
    ensures n >= 1
  {
    if m.role == Assistant then 1 + |m.toolCalls| else 1
  }

  predicate IsBlock(ms: seq<Message>) {
    IsRound(ms) || (|ms| == 1 && (ms[0].role == User || ms[0].role == System))
  }

  /** A history is a concatenation of blocks. */
  predicate IsHistory(ms: seq<Message>)
    decreases |ms|
  {
    ms == [] || (var n := BlockLen(ms[0]); n <= |ms| && IsBlock(ms[..n]) && IsHistory(ms[n..]))
  }

  lemma {:induction false} HistoryConcat(a: seq<Message>, b: seq<Message>)
    requires IsHistory(a) && IsHistory(b)
    ensures IsHistory(a + b)
    decreases |a|
  {
    if a == [] {
      assert a + b == b;
    } else {
      var n := BlockLen(a[0]);
      assert (a + b)[..n] == a[..n];
      assert (a + b)[n..] == a[n..] + b;
      HistoryConcat(a[n..], b);
    }
  }

  lemma BlockIsHistory(ms: seq<Message>)
    requires IsBlock(ms)
    ensures IsHistory(ms)
  {
    assert BlockLen(ms[0]) == |ms|;
    assert ms[..|ms|] == ms;
    assert IsHistory(ms[|ms|..]);
  }

  lemma {:induction false} HistoryReplace(ms: seq<Message>, i: nat, r: Message)
    requires IsHistory(ms) && i < |ms|
    requires ms[i].role == Tool && r.role == Tool && r.toolCallID == ms[i].toolCallID
    ensures IsHistory(ms[i := r])
    decreases |ms|
  {
    var n := BlockLen(ms[0]);
    var ms' := ms[i := r];
    assert ms[0].role != Tool;
    assert ms'[0] == ms[0];
    if i < n {
      assert ms'[..n] == ms[..n][i := r];
      assert ms'[n..] == ms[n..];
    } else {
      assert ms'[..n] == ms[..n];
      assert ms'[n..] == ms[n..][i - n := r];
      HistoryReplace(ms[n..], i - n, r);
    }
  }
}
