/**
  What the cached store means to its callers. A load returns the list that the operations
  on its session alone describe; the cached histories stand in the order of their last
  load, and their text fits the budget.
*/
module CacheLedger {
  import opened Wrappers
  import opened Messages
  import opened StoreModel
  import opened StoreTheorems
  import opened CacheModel

  // ------------------------------------------------------- a file as a message list

  /** A stitched row takes over the clocks that it lacks. */
  function WithClocksOf(row: Message, was: Message): Message {
    var e, w := row.extra, was.extra;
    var started := if e.startedAt.None? then w.startedAt else e.startedAt;
    var finished := if e.finishedAt.None? then w.finishedAt else e.finishedAt;
    row.(extra := Extra(e.placeholder, e.prePersisted, started, finished))
  }

  /** The first placeholder of a call gives way to its late result. */
  function Answered(ms: seq<Message>, id: string, row: Message): seq<Message> {
    if ms == [] || id == "" then ms
    else if ms[0].role == Tool && ms[0].extra.placeholder && ms[0].toolCallID == id then
      [WithClocksOf(row, ms[0])] + ms[1..]
    else [ms[0]] + Answered(ms[1..], id, row)
  }

  /** What one operation makes of the messages of a session. */
  function Told(c: Codec, ms: seq<Message>, op: Op, key: string): seq<Message> {
    if op.key != key then ms
    else match op
      case Append(_, more) => ms + more
      case TornAppend(_, landed) => ms + LoadAll(c, landed)
      case Rewrite(_, anew) => anew
      case Stitch(_, id, row) => Answered(ms, id, row)
      case Load(_, _) => ms
  }

  /** The messages of a session that began with `first`, told by the operations alone. */
  function Ledger(c: Codec, first: seq<Message>, ops: seq<Op>, key: string): seq<Message> {
    if ops == [] then first else Told(c, Ledger(c, first, ops[..|ops| - 1], key), ops[|ops| - 1], key)
  }

  /** Bytes that are whole rows of messages, or nothing. */
  predicate WholeRows(c: Codec, bytes: string) { bytes == Render(PrintRows(c, LoadAll(c, bytes))) }

  /** What an append that failed left behind ends with a row. */
  predicate WholeWrites(c: Codec, ops: seq<Op>) {
    forall i :: 0 <= i < |ops| && ops[i].TornAppend? ==> WholeRows(c, ops[i].landed)
  }

  lemma MergeIsWithClocks(row: Message, was: Message)
    ensures MergeTiming(row, was) == WithClocksOf(row, was)
  {
  }

  lemma FindCons(c: Codec, rows: seq<string>, id: string)
    requires rows != []
    ensures var r := FindPlaceholder(c, rows[1..], id);
      FindPlaceholder(c, rows, id) ==
        if Matches(c, rows[0], id) then Some(0) else if r.Some? then Some(r.value + 1) else None
  {
    hide Matches;
  }

  lemma PrintCons(c: Codec, m: Message, ms: seq<Message>)
    ensures PrintRows(c, [m] + ms) == [c.encode(m)] + PrintRows(c, ms)
  {
  }

  lemma StitchCons(c: Codec, rows: seq<string>, id: string, row: Message)
    requires rows != [] && id != ""
    ensures Matches(c, rows[0], id) ==>
              StitchRows(c, rows, id, row) == [c.encode(MergeTiming(row, c.decode(rows[0]).value))] + rows[1..]
    ensures !Matches(c, rows[0], id) ==> StitchRows(c, rows, id, row) == [rows[0]] + StitchRows(c, rows[1..], id, row)
  {
    FindCons(c, rows, id);
    hide FindPlaceholder, MergeTiming;
    var r := FindPlaceholder(c, rows[1..], id);
    if !Matches(c, rows[0], id) && r.Some? {
      assert rows[r.value + 1] == rows[1..][r.value];
    }
  }

  /** The rewrite of the printed rows prints the answered list. */
  lemma {:induction false} StitchPrinted(c: Codec, ms: seq<Message>, id: string, row: Message)
    requires Faithful(c) && id != ""
    ensures StitchRows(c, PrintRows(c, ms), id, row) == PrintRows(c, Answered(ms, id, row))
    ensures FindPlaceholder(c, PrintRows(c, ms), id).None? ==> Answered(ms, id, row) == ms
  {
    if ms == [] {
      assert PrintRows(c, ms) == [];
    } else {
      var rows := PrintRows(c, ms);
      assert ms == [ms[0]] + ms[1..];
      hide Faithful, FindPlaceholder, StitchRows, Matches, PrintRows, MergeTiming, WithClocksOf;
      PrintCons(c, ms[0], ms[1..]);
      assert rows[0] == c.encode(ms[0]) && rows[1..] == PrintRows(c, ms[1..]);
      StitchPrinted(c, ms[1..], id, row);
      EncodedMatches(c, ms[0], id);
      FindCons(c, rows, id);
      StitchCons(c, rows, id, row);
      MergeIsWithClocks(row, ms[0]);
      PrintCons(c, WithClocksOf(row, ms[0]), ms[1..]);
      PrintCons(c, ms[0], Answered(ms[1..], id, row));
    }
  }

  lemma PrintedIsClean(c: Codec, ms: seq<Message>)
    requires Faithful(c)
    ensures forall i :: 0 <= i < |PrintRows(c, ms)| ==> '\n' !in PrintRows(c, ms)[i]
    ensures ms != [] ==> EdgeClean(PrintRows(c, ms))
  {
    forall i | 0 <= i < |ms| ensures '\n' !in PrintRows(c, ms)[i] {
      EncodedRow(c, ms[i]);
    }
  }

  lemma RenderNothing()
    ensures Render([]) == "" && forall rows :: Render(rows) == "" ==> rows == []
  {
  }

  lemma StitchFile(c: Codec, ms: seq<Message>, id: string, row: Message)
    requires Faithful(c)
    ensures var content, rows := Render(PrintRows(c, ms)), PrintRows(c, Answered(ms, id, row));
      && (id == "" || content == "" || FindPlaceholder(c, Split(TrimSpace(content)), id).None? ==>
            content == Render(rows))
      && (id != "" && content != "" ==> StitchContent(c, content, id, row) == Render(rows))
  {
    PrintedIsClean(c, ms);
    RenderNothing();
    hide Faithful, FindPlaceholder, Split, TrimSpace, Render, StitchContent, StitchRows, EdgeClean, PrintRows;
    if id != "" && ms != [] {
      RowsOfRender(PrintRows(c, ms));
      StitchPrinted(c, ms, id, row);
      StitchCleanFile(c, PrintRows(c, ms), id, row);
    } else if ms == [] {
      assert PrintRows(c, ms) == [];
    }
  }

  lemma AppendFile(c: Codec, ms: seq<Message>, more: seq<Message>)
    ensures Render(PrintRows(c, ms)) + Render(PrintRows(c, more)) == Render(PrintRows(c, ms + more))
  {
    assert PrintRows(c, ms + more) == PrintRows(c, ms) + PrintRows(c, more);
    hide PrintRows, Render;
    RenderConcat(PrintRows(c, ms), PrintRows(c, more));
  }

  lemma LoadKeepsFiles(c: Codec, budget: nat, w: World, key: string, mtime: int)
    ensures LoadStep(c, budget, w, key, mtime).0.files == w.files
  {
  }

  lemma WriteLedger(c: Codec, budget: nat, w: World, op: Op, ms: seq<Message>, key: string)
    requires Faithful(c) && (op.Append? || op.TornAppend? || op.Rewrite?) && FileOf(w, key) == Render(PrintRows(c, ms))
    requires op.TornAppend? ==> WholeRows(c, op.landed)
    ensures FileOf(Step(c, budget, w, op), key) == Render(PrintRows(c, Told(c, ms, op, key)))
  {
    EmptyLoads(c);
    hide Render, PrintRows, Without, ReplaceContent, Faithful, LoadAll;
    assert ms + [] == ms;
    if op.Append? {
      AppendFile(c, ms, op.ms);
    } else if op.TornAppend? {
      AppendFile(c, ms, LoadAll(c, op.landed));
    } else {
      ReplaceIsRender(c, op.ms);
    }
  }

  lemma AnswerLedger(c: Codec, budget: nat, w: World, op: Op, ms: seq<Message>, key: string)
    requires Faithful(c) && op.Stitch? && FileOf(w, key) == Render(PrintRows(c, ms))
    ensures FileOf(Step(c, budget, w, op), key) == Render(PrintRows(c, Told(c, ms, op, key)))
  {
    hide Render, PrintRows, Without, StitchContent, Split, TrimSpace, FindPlaceholder, Faithful, Answered;
    StitchFile(c, ms, op.id, op.row);
  }

  /** One operation changes the file of its own session only, and that as it says. */
  lemma StepLedger(c: Codec, budget: nat, w: World, op: Op, ms: seq<Message>, key: string)
    requires Faithful(c) && (op.TornAppend? ==> WholeRows(c, op.landed)) && FileOf(w, key) == Render(PrintRows(c, ms))
    ensures FileOf(Step(c, budget, w, op), key) == Render(PrintRows(c, Told(c, ms, op, key)))
  {
    hide WholeRows;
    if op.Append? || op.TornAppend? || op.Rewrite? {
      WriteLedger(c, budget, w, op, ms, key);
    } else if op.Stitch? {
      AnswerLedger(c, budget, w, op, ms, key);
    } else {
      hide Render, PrintRows, LoadStep, Faithful;
      LoadKeepsFiles(c, budget, w, op.key, op.mtime);
    }
  }

  lemma {:induction false} RunLedger(c: Codec, budget: nat, files: map<string, string>, first: seq<Message>,
                                     ops: seq<Op>, key: string)
    requires Faithful(c) && WholeWrites(c, ops) && FileOf(World(files, []), key) == Render(PrintRows(c, first))
    ensures FileOf(Run(c, budget, World(files, []), ops), key) == Render(PrintRows(c, Ledger(c, first, ops, key)))
  {
    if ops != [] {
      RunLedger(c, budget, files, first, ops[..|ops| - 1], key);
      hide Step, Render, PrintRows, Faithful, Told, FileOf, WholeRows;
      StepLedger(c, budget, Run(c, budget, World(files, []), ops[..|ops| - 1]), ops[|ops| - 1],
                 Ledger(c, first, ops[..|ops| - 1], key), key);
    }
  }

  /**
    Over every run of all sessions a load returns the messages that its session began
    with, appended to, rewritten and answered as the operations say, whatever the cache
    holds and whatever the file times are. A failed append counts with the rows it left.
  */
  lemma LoadsAreTheLedger(c: Codec, budget: nat, files: map<string, string>, first: seq<Message>, ops: seq<Op>,
                          key: string, mtime: int)
    requires Faithful(c) && WholeWrites(c, ops) && FileOf(World(files, []), key) == Render(PrintRows(c, first))
    ensures LoadStep(c, budget, Run(c, budget, World(files, []), ops), key, mtime).1 == Ledger(c, first, ops, key)
  {
    hide *;
    var ms := Ledger(c, first, ops, key);
    LoadsAreCurrent(c, budget, files, ops, key, mtime);
    RunLedger(c, budget, files, first, ops, key);
    ReplaceIsRender(c, ms);
    LoadAfterReplace(c, ms);
  }

  // ------------------------------------------------------------------ recency order

  /** The place of the last load of a session among the operations, or 0. */
  function LastLoad(ops: seq<Op>, key: string): (n: nat)
    ensures n <= |ops|
  {
    if ops == [] then 0
    else
      var op := ops[|ops| - 1];
      if op.Load? && op.key == key then |ops| else LastLoad(ops[..|ops| - 1], key)
  }

  /** Later in the list is longer ago. */
  predicate ByRecency(items: seq<Item>, ops: seq<Op>) {
    && (forall i :: 0 <= i < |items| ==> LastLoad(ops, items[i].key) > 0)
    && (forall i, j :: 0 <= i < j < |items| ==> LastLoad(ops, items[i].key) > LastLoad(ops, items[j].key))
  }

  /** The old place of element i of a list that lost the element at f. */
  function OldPlace(f: nat, i: nat): nat { if i < f then i else i + 1 }

  lemma DroppedAt(items: seq<Item>, f: nat, i: nat)
    requires f < |items| && i < |items| - 1
    ensures (items[..f] + items[f + 1..])[i] == items[OldPlace(f, i)]
  {
  }

  lemma DropKeepsOne(items: seq<Item>, f: nat, p: seq<Op>, ops: seq<Op>, i: nat)
    requires ByRecency(items, p) && UniqueKeys(items) && f < |items| && i < |items| - 1
    requires forall k :: k != items[f].key ==> LastLoad(ops, k) == LastLoad(p, k)
    ensures var m := OldPlace(f, i);
      items[m].key != items[f].key && LastLoad(ops, items[m].key) == LastLoad(p, items[m].key) > 0
  {
    hide LastLoad;
  }

  lemma DropKeepsRecency(items: seq<Item>, f: nat, p: seq<Op>, ops: seq<Op>)
    requires ByRecency(items, p) && UniqueKeys(items) && f < |items|
    requires forall k :: k != items[f].key ==> LastLoad(ops, k) == LastLoad(p, k)
    ensures var rest := items[..f] + items[f + 1..];
      ByRecency(rest, ops) && forall i :: 0 <= i < |rest| ==> rest[i].key != items[f].key
  {
    var rest := items[..f] + items[f + 1..];
    hide LastLoad, UniqueKeys;
    forall i | 0 <= i < |rest| ensures LastLoad(ops, rest[i].key) > 0 && rest[i].key != items[f].key {
      DroppedAt(items, f, i);
      DropKeepsOne(items, f, p, ops, i);
    }
    forall i, j | 0 <= i < j < |rest| ensures LastLoad(ops, rest[i].key) > LastLoad(ops, rest[j].key) {
      DroppedAt(items, f, i);
      DroppedAt(items, f, j);
      DropKeepsOne(items, f, p, ops, i);
      DropKeepsOne(items, f, p, ops, j);
      assert OldPlace(f, i) < OldPlace(f, j);
    }
  }

  lemma WithoutKeepsRecency(items: seq<Item>, key: string, p: seq<Op>, ops: seq<Op>)
    requires ByRecency(items, p) && UniqueKeys(items) && forall k :: k != key ==> LastLoad(ops, k) == LastLoad(p, k)
    ensures ByRecency(Without(items, key), ops)
    ensures forall i :: 0 <= i < |Without(items, key)| ==> Without(items, key)[i].key != key
  {
    var f := Find(items, key);
    if f.Some? {
      DropKeepsRecency(items, f.value, p, ops);
    }
    hide LastLoad, Find, UniqueKeys;
  }

  lemma FrontKeepsRecency(items: seq<Item>, item: Item, ops: seq<Op>)
    requires ByRecency(items, ops) && ops != [] && LastLoad(ops, item.key) == |ops|
    requires forall i :: 0 <= i < |items| ==> items[i].key != item.key
    requires forall k :: k != item.key ==> LastLoad(ops, k) < |ops|
    ensures ByRecency([item] + items, ops)
  {
    hide LastLoad;
  }

  lemma LoadMarks(ops: seq<Op>)
    requires ops != []
    ensures var op, p := ops[|ops| - 1], ops[..|ops| - 1];
      && (op.Load? ==> LastLoad(ops, op.key) == |ops|)
      && forall k :: !(op.Load? && op.key == k) ==> LastLoad(ops, k) == LastLoad(p, k) < |ops|
  {
  }

  lemma GetLeaves(items: seq<Item>, key: string, size: nat, mtime: int)
    ensures var g := Get(items, key, size, mtime);
      if g.1.None? then g.0 == Without(items, key)
      else g.0 != [] && g.0[0].key == key && g.0[1..] == Without(items, key)
  {
  }

  lemma PutLeaves(rest: seq<Item>, budget: nat, item: Item)
    requires budget > 0 && UniqueKeys(rest) && Find(rest, item.key).None?
    ensures var now := Put(rest, budget, item);
      now == rest || (now != [] && now[0].key == item.key && now[1..] <= rest)
  {
    assert Without(rest, item.key) == rest;
    if item.bytes <= budget {
      PutSurvivors(rest, budget, item, 0);
      hide Fit;
      assert Put(rest, budget, item) <= [item] + rest;
      assert ([item] + rest)[1..] == rest;
    }
  }

  /** A load leaves its own history in front, or not at all, and the others in their order. */
  lemma LoadLeaves(c: Codec, budget: nat, w: World, key: string, mtime: int)
    requires Coherent(c, budget, w) && (budget == 0 ==> w.items == [])
    ensures var items, rest := LoadStep(c, budget, w, key, mtime).0.items, Without(w.items, key);
      items == rest || (items != [] && items[0].key == key && items[1..] <= rest)
  {
    WithoutKeepsUnique(w.items, key);
    if Find(w.items, key).Some? {
      assert ItemOK(c, w.files, w.items[Find(w.items, key).value]);
    }
    assert Find(w.items, key).None? ==> Without(w.items, key) == w.items;
    hide LoadAll, Estimate, Find, Without, Put, Get, UniqueKeys, Total;
    if key in w.files && budget > 0 {
      var content := w.files[key];
      var g, ms := Get(w.items, key, |content|, mtime), LoadAll(c, content);
      GetLeaves(w.items, key, |content|, mtime);
      if g.1.None? && content != "" {
        PutLeaves(g.0, budget, Item(key, |content|, mtime, ms, Estimate(ms)));
      }
    } else {
      assert Find([], key).None?;
    }
  }

  lemma PrefixKeepsRecency(front: seq<Item>, items: seq<Item>, ops: seq<Op>)
    requires ByRecency(items, ops) && front <= items
    ensures ByRecency(front, ops)
  {
    hide LastLoad;
    assert forall i :: 0 <= i < |front| ==> front[i] == items[i];
  }

  lemma LoadKeepsRecency(items: seq<Item>, now: seq<Item>, key: string, p: seq<Op>, ops: seq<Op>)
    requires ops != [] && p == ops[..|ops| - 1] && ops[|ops| - 1].Load? && ops[|ops| - 1].key == key
    requires ByRecency(items, p) && UniqueKeys(items)
    requires now == Without(items, key) || (now != [] && now[0].key == key && now[1..] <= Without(items, key))
    ensures ByRecency(now, ops)
  {
    LoadMarks(ops);
    WithoutKeepsRecency(items, key, p, ops);
    hide LastLoad, Without, UniqueKeys, ByRecency;
    if now != Without(items, key) {
      var rest := now[1..];
      assert forall i :: 0 <= i < |rest| ==> rest[i] == Without(items, key)[i];
      assert now == [now[0]] + rest;
      PrefixKeepsRecency(rest, Without(items, key), ops);
      FrontKeepsRecency(rest, now[0], ops);
    }
  }

  lemma SameRecency(items: seq<Item>, p: seq<Op>, ops: seq<Op>)
    requires ByRecency(items, p) && forall k :: LastLoad(ops, k) == LastLoad(p, k)
    ensures ByRecency(items, ops)
  {
    hide LastLoad;
  }

  lemma NothingWithout(key: string)
    ensures Without([], key) == []
  {
  }

  lemma NoBudgetNoItems(c: Codec, w: World, key: string, mtime: int)
    ensures w.items == [] ==> LoadStep(c, 0, w, key, mtime).0.items == []
  {
    hide LoadAll, Estimate;
  }

  lemma StepKeepsRecency(c: Codec, budget: nat, w: World, p: seq<Op>, ops: seq<Op>)
    requires ops != [] && p == ops[..|ops| - 1] && Coherent(c, budget, w) && (budget == 0 ==> w.items == [])
    requires ByRecency(w.items, p)
    ensures var u := Step(c, budget, w, ops[|ops| - 1]); ByRecency(u.items, ops) && (budget == 0 ==> u.items == [])
  {
    var op := ops[|ops| - 1];
    LoadMarks(ops);
    NothingWithout(op.key);
    hide LoadStep, ByRecency, LastLoad, Without, UniqueKeys, Total, ItemOK;
    hide Render, PrintRows, ReplaceContent, StitchContent, FindPlaceholder, Split, TrimSpace;
    if op.Load? {
      LoadLeaves(c, budget, w, op.key, op.mtime);
      LoadKeepsRecency(w.items, LoadStep(c, budget, w, op.key, op.mtime).0.items, op.key, p, ops);
      NoBudgetNoItems(c, w, op.key, op.mtime);
    } else {
      SameRecency(w.items, p, ops);
      WithoutKeepsRecency(w.items, op.key, p, ops);
    }
  }

  /**
    The cached histories stand in the order of their last load, in every run: what the
    budget pushes out at the cold end was loaded before all that stays.
  */
  lemma {:induction false} RecencyOrder(c: Codec, budget: nat, files: map<string, string>, ops: seq<Op>)
    ensures var items := Run(c, budget, World(files, []), ops).items;
      ByRecency(items, ops) && (budget == 0 ==> items == [])
  {
    if ops != [] {
      var p := ops[..|ops| - 1];
      RecencyOrder(c, budget, files, p);
      RunCoherent(c, budget, files, p);
      hide Step, ByRecency, Coherent;
      StepKeepsRecency(c, budget, Run(c, budget, World(files, []), p), p, ops);
    }
  }

  // -------------------------------------------------------------------- the budget

  /** The size of all cached histories: their texts, and 256 for each message. */
  function Held(items: seq<Item>): nat {
    if items == [] then 0
    else
      var ms := items[|items| - 1].msgs;
      Held(items[..|items| - 1]) + 256 * |ms| + |Written(ms)|
  }

  lemma {:induction false} HeldIsTotal(items: seq<Item>)
    requires forall i :: 0 <= i < |items| ==> items[i].bytes == Estimate(items[i].msgs)
    ensures Held(items) == Total(items)
  {
    if items != [] {
      var n := |items| - 1;
      assert forall i :: 0 <= i < n ==> items[..n][i] == items[i];
      HeldIsTotal(items[..n]);
      EstimateIs(items[n].msgs);
    }
  }

  /** The cached histories of every run fit the budget. */
  lemma CachedTextFits(c: Codec, budget: nat, files: map<string, string>, ops: seq<Op>)
    ensures Held(Run(c, budget, World(files, []), ops).items) <= budget
  {
    RunCoherent(c, budget, files, ops);
    var w := Run(c, budget, World(files, []), ops);
    hide Run, LoadAll, Estimate, Total, Held, UniqueKeys;
    forall i | 0 <= i < |w.items| ensures w.items[i].bytes == Estimate(w.items[i].msgs) {
      assert ItemOK(c, w.files, w.items[i]);
    }
    HeldIsTotal(w.items);
  }
}
