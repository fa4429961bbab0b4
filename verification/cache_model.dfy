/**
  The byte-bounded LRU over parsed histories as a list of items, most recently
  used first, and its coherence with the files over every run of loads and
  writes of all sessions.
*/
module CacheModel {
  import opened Wrappers
  import opened Messages
  import opened StoreModel
  import opened StoreTheorems

  datatype Item = Item(key: string, size: nat, mtime: int, msgs: seq<Message>, bytes: nat)

  function Total(items: seq<Item>): nat {
    if items == [] then 0 else Total(items[..|items| - 1]) + items[|items| - 1].bytes
  }

  predicate UniqueKeys(items: seq<Item>) {
    forall i, j :: 0 <= i < j < |items| ==> items[i].key != items[j].key
  }

  function Find(items: seq<Item>, key: string): (r: Option<nat>)
    ensures r.Some? ==> r.value < |items| && items[r.value].key == key
    ensures r.None? ==> forall i :: 0 <= i < |items| ==> items[i].key != key
  {
    if items == [] then None
    else if items[|items| - 1].key == key then Some(|items| - 1)
    else Find(items[..|items| - 1], key)
  }

  function Without(items: seq<Item>, key: string): seq<Item> {
    match Find(items, key)
    case None => items
    case Some(i) => items[..i] + items[i + 1..]
  }

  /** What eviction from the cold end leaves. */
  function Fit(items: seq<Item>, budget: nat): (r: seq<Item>)
    ensures r <= items && Total(r) <= budget
  {
    if Total(items) <= budget then items else Fit(items[..|items| - 1], budget)
  }

  function Get(items: seq<Item>, key: string, size: nat, mtime: int): (seq<Item>, Option<seq<Message>>) {
    match Find(items, key)
    case None => (items, None)
    case Some(i) =>
      if items[i].size != size || items[i].mtime != mtime then (Without(items, key), None)
      else ([items[i]] + Without(items, key), Some(items[i].msgs))
  }

  function Put(items: seq<Item>, budget: nat, item: Item): seq<Item> {
    if budget == 0 then items
    else if item.bytes > budget then Without(items, item.key)
    else Fit([item] + Without(items, item.key), budget)
  }

  // -------------------------------------------------------------------- eviction

  lemma {:induction false} TotalOfPrefix(items: seq<Item>, k: nat)
    requires k <= |items|
    ensures Total(items[..k]) <= Total(items)
    decreases |items|
  {
    if k < |items| {
      TotalOfPrefix(items[..|items| - 1], k);
      assert items[..|items| - 1][..k] == items[..k];
    } else {
      assert items[..k] == items;
    }
  }

  lemma {:induction false} TotalConcat(a: seq<Item>, b: seq<Item>)
    ensures Total(a + b) == Total(a) + Total(b)
  {
    if b == [] {
      assert a + b == a;
    } else {
      var ab := a + b;
      assert ab[..|ab| - 1] == a + b[..|b| - 1];
      TotalConcat(a, b[..|b| - 1]);
    }
  }

  /** Eviction keeps the longest prefix of most recently used items that fits. */
  lemma {:induction false} FitIsLongest(items: seq<Item>, budget: nat, k: nat)
    requires k <= |items|
    ensures Total(items[..k]) <= budget <==> k <= |Fit(items, budget)|
    decreases |items|
  {
    TotalOfPrefix(items, k);
    if Total(items) > budget {
      if k < |items| {
        FitIsLongest(items[..|items| - 1], budget, k);
        assert items[..|items| - 1][..k] == items[..k];
      } else {
        assert items[..k] == items;
      }
    }
  }

  lemma TotalOfOne(item: Item)
    ensures Total([item]) == item.bytes
  {
    assert [item][..0] == [];
  }

  /** A stored history is the most recent survivor, and every survivor list fits. */
  lemma PutSurvivors(items: seq<Item>, budget: nat, item: Item, k: nat)
    requires 0 < budget && item.bytes <= budget && k <= |Without(items, item.key)|
    ensures var now := Put(items, budget, item);
      && now != [] && now[0] == item && Total(now) <= budget
      && (k + 1 <= |now| <==> item.bytes + Total(Without(items, item.key)[..k]) <= budget)
  {
    hide Fit, Without, Find, Total;
    var old' := Without(items, item.key);
    var all := [item] + old';
    FitIsLongest(all, budget, 1);
    assert all[..1] == [item];
    TotalOfOne(item);
    FitIsLongest(all, budget, k + 1);
    assert all[..k + 1] == [item] + old'[..k];
    TotalConcat([item], old'[..k]);
  }

  lemma SplitAt<T>(s: seq<T>, i: nat)
    requires i < |s|
    ensures s == s[..i] + ([s[i]] + s[i + 1..])
  {
  }

  lemma TotalWithout(items: seq<Item>, i: nat)
    requires i < |items|
    ensures Total(items[..i] + items[i + 1..]) == Total(items) - items[i].bytes
  {
    var a, x, b := items[..i], [items[i]], items[i + 1..];
    hide *;
    SplitAt(items, i);
    TotalOfOne(items[i]);
    TotalConcat(a, b);
    TotalConcat(a, x + b);
    TotalConcat(x, b);
  }

  lemma DropAt(items: seq<Item>, i: nat)
    requires i < |items| && UniqueKeys(items)
    ensures var rest := items[..i] + items[i + 1..];
      && UniqueKeys(rest)
      && forall it :: it in rest <==> it in items && it.key != items[i].key
  {
    var rest := items[..i] + items[i + 1..];
    assert forall j :: 0 <= j < |rest| ==> rest[j] == items[if j < i then j else j + 1];
    forall it | it in rest ensures it in items && it.key != items[i].key {
      var j :| 0 <= j < |rest| && rest[j] == it;
    }
    forall it | it in items && it.key != items[i].key ensures it in rest {
      var j :| 0 <= j < |items| && items[j] == it;
      assert rest[if j < i then j else j - 1] == it;
    }
  }

  lemma WithoutKeepsUnique(items: seq<Item>, key: string)
    requires UniqueKeys(items)
    ensures UniqueKeys(Without(items, key)) && Find(Without(items, key), key).None?
    ensures Total(Without(items, key)) ==
              Total(items) - (if Find(items, key).Some? then items[Find(items, key).value].bytes else 0)
    ensures forall it :: it in Without(items, key) <==> it in items && it.key != key
  {
    hide Find, Total, UniqueKeys;
    var f := Find(items, key);
    if f.Some? {
      DropAt(items, f.value);
      TotalWithout(items, f.value);
    }
    assert forall it :: it in Without(items, key) <==> it in items && it.key != key;
  }

  /** Every operation keeps keys unique and the budget. */
  lemma GetPutKeep(items: seq<Item>, budget: nat, item: Item, size: nat, mtime: int)
    requires UniqueKeys(items) && Total(items) <= budget
    ensures var g := Get(items, item.key, size, mtime).0; UniqueKeys(g) && Total(g) <= budget
    ensures var p := Put(items, budget, item); UniqueKeys(p) && Total(p) <= budget
  {
    hide Find, Fit, Without, Total;
    WithoutKeepsUnique(items, item.key);
    var rest := Without(items, item.key);
    var f := Find(items, item.key);
    if f.Some? {
      TotalOfOne(items[f.value]);
      TotalConcat([items[f.value]], rest);
    }
    assert forall j :: 0 <= j < |rest| ==> rest[j] in rest && rest[j].key != item.key;
    assert UniqueKeys([item] + rest);
  }

  // ------------------------------------------------------------------- coherence

  /** What one session process-wide may do to a history file. */
  datatype Op =
    | Load(key: string, mtime: int)
    | Append(key: string, ms: seq<Message>)
    | TornAppend(key: string, landed: string)
    | Rewrite(key: string, ms: seq<Message>)
    | Stitch(key: string, id: string, row: Message)

  datatype World = World(files: map<string, string>, items: seq<Item>)

  function FileOf(w: World, key: string): string { if key in w.files then w.files[key] else "" }

  const OVERHEAD: nat := 256

  function CallBytes(calls: seq<ToolCall>): nat {
    if calls == [] then 0 else CallBytes(calls[..|calls| - 1]) + |calls[|calls| - 1].args| + |calls[|calls| - 1].name|
  }

  function MessageBytes(m: Message): nat { |m.content| + OVERHEAD + CallBytes(m.toolCalls) }

  function Estimate(ms: seq<Message>): nat {
    if ms == [] then 0 else Estimate(ms[..|ms| - 1]) + MessageBytes(ms[|ms| - 1])
  }

  /** The text of a list of calls: their arguments and their names. */
  function CallText(calls: seq<ToolCall>): string {
    if calls == [] then "" else CallText(calls[..|calls| - 1]) + calls[|calls| - 1].args + calls[|calls| - 1].name
  }

  /** The text of a history: what its messages say, and what they call. */
  function Written(ms: seq<Message>): string {
    if ms == [] then ""
    else Written(ms[..|ms| - 1]) + ms[|ms| - 1].content + CallText(ms[|ms| - 1].toolCalls)
  }

  lemma {:induction false} CallBytesAre(calls: seq<ToolCall>)
    ensures CallBytes(calls) == |CallText(calls)|
  {
    if calls != [] {
      CallBytesAre(calls[..|calls| - 1]);
    }
  }

  /** The estimate is the length of the text of a history, and 256 for each message. */
  lemma {:induction false} EstimateIs(ms: seq<Message>)
    ensures Estimate(ms) == 256 * |ms| + |Written(ms)|
  {
    if ms != [] {
      EstimateIs(ms[..|ms| - 1]);
      CallBytesAre(ms[|ms| - 1].toolCalls);
    }
  }

  /** A load: by the cache when size and time match, else by parsing and storing. */
  function LoadStep(c: Codec, budget: nat, w: World, key: string, mtime: int): (World, seq<Message>) {
    if key !in w.files then (w, [])
    else
      var content := w.files[key];
      var g := if budget == 0 then (w.items, None) else Get(w.items, key, |content|, mtime);
      if g.1.Some? then (w.(items := g.0), g.1.value)
      else if content == "" then (w.(items := g.0), [])
      else
        var ms := LoadAll(c, content);
        (w.(items := Put(g.0, budget, Item(key, |content|, mtime, ms, Estimate(ms)))), ms)
  }

  /** A successful write invalidates; an append that failed half-way does not. */
  function Step(c: Codec, budget: nat, w: World, op: Op): World {
    match op
    case Load(key, mtime) => LoadStep(c, budget, w, key, mtime).0
    case Append(key, ms) =>
      if ms == [] then w
      else World(w.files[key := FileOf(w, key) + Render(PrintRows(c, ms))], Without(w.items, key))
    case TornAppend(key, landed) => if landed == "" then w else w.(files := w.files[key := FileOf(w, key) + landed])
    case Rewrite(key, ms) => World(w.files[key := ReplaceContent(c, ms)], Without(w.items, key))
    case Stitch(key, id, row) =>
      if key !in w.files || id == "" || w.files[key] == "" ||
        FindPlaceholder(c, Split(TrimSpace(w.files[key])), id).None? then w
      else World(w.files[key := StitchContent(c, w.files[key], id, row)], Without(w.items, key))
  }

  function Run(c: Codec, budget: nat, w: World, ops: seq<Op>): World {
    if ops == [] then w else Step(c, budget, Run(c, budget, w, ops[..|ops| - 1]), ops[|ops| - 1])
  }

  /** A cached history is the parse of its file, or of a file that has grown since. */
  ghost predicate ItemOK(c: Codec, files: map<string, string>, it: Item) {
    && it.key in files && it.size <= |files[it.key]| && it.bytes == Estimate(it.msgs)
    && (it.size == |files[it.key]| ==> it.msgs == LoadAll(c, files[it.key]))
  }

  ghost predicate Coherent(c: Codec, budget: nat, w: World) {
    && UniqueKeys(w.items) && Total(w.items) <= budget
    && forall it :: it in w.items ==> ItemOK(c, w.files, it)
  }

  lemma FitMembers(items: seq<Item>, budget: nat)
    ensures forall it :: it in Fit(items, budget) ==> it in items
  {
  }

  lemma GetFinds(items: seq<Item>, key: string, size: nat, mtime: int)
    requires UniqueKeys(items)
    ensures var g := Get(items, key, size, mtime);
      && (forall it :: it in g.0 ==> it in items)
      && (g.1.Some? ==> exists it :: it in items && it.key == key && it.size == size && it.msgs == g.1.value)
  {
    WithoutKeepsUnique(items, key);
    var f := Find(items, key);
    if f.Some? {
      assert items[f.value] in items;
    }
  }

  lemma EmptyLoads(c: Codec)
    ensures LoadAll(c, "") == []
  {
  }

  lemma PutMembers(items: seq<Item>, budget: nat, item: Item)
    requires UniqueKeys(items)
    ensures forall it :: it in Put(items, budget, item) ==> it in items || it == item
  {
    WithoutKeepsUnique(items, item.key);
    var rest := Without(items, item.key);
    FitMembers([item] + rest, budget);
    hide Fit, Without;
  }

  lemma LoadCoherent(c: Codec, budget: nat, w: World, key: string, mtime: int)
    requires Coherent(c, budget, w)
    ensures var r := LoadStep(c, budget, w, key, mtime);
      Coherent(c, budget, r.0) && r.0.files == w.files && r.1 == LoadAll(c, FileOf(w, key))
  {
    hide LoadAll, Get, Put, Find, Without, Fit, UniqueKeys, Total, Estimate;
    if key in w.files {
      var content := w.files[key];
      GetFinds(w.items, key, |content|, mtime);
      GetPutKeep(w.items, budget, Item(key, 0, 0, [], 0), |content|, mtime);
      EmptyLoads(c);
      var g := if budget == 0 then (w.items, None) else Get(w.items, key, |content|, mtime);
      if g.1.Some? {
        assert g.1.value == LoadAll(c, content);
      } else if content != "" {
        var item := Item(key, |content|, mtime, LoadAll(c, content), Estimate(LoadAll(c, content)));
        GetPutKeep(g.0, budget, item, 0, 0);
        PutMembers(g.0, budget, item);
        assert ItemOK(c, w.files, item);
      }
    } else {
      EmptyLoads(c);
    }
  }

  lemma WriteCoherent(c: Codec, budget: nat, w: World, key: string, content: string)
    requires Coherent(c, budget, w)
    ensures Coherent(c, budget, World(w.files[key := content], Without(w.items, key)))
  {
    WithoutKeepsUnique(w.items, key);
    hide Without, Total, UniqueKeys, LoadAll;
  }

  lemma StepCoherent(c: Codec, budget: nat, w: World, op: Op)
    requires Coherent(c, budget, w)
    ensures Coherent(c, budget, Step(c, budget, w, op))
  {
    hide LoadStep, LoadAll, Without, UniqueKeys, Total, Render, ReplaceContent, StitchContent, FindPlaceholder;
    match op
    case Load(key, mtime) => LoadCoherent(c, budget, w, key, mtime);
    case Append(key, ms) => WriteCoherent(c, budget, w, key, FileOf(w, key) + Render(PrintRows(c, ms)));
    case TornAppend(key, landed) =>
      var u := Step(c, budget, w, op);
      forall it | it in u.items ensures ItemOK(c, u.files, it) {
        assert ItemOK(c, w.files, it);
      }
    case Rewrite(key, ms) => WriteCoherent(c, budget, w, key, ReplaceContent(c, ms));
    case Stitch(key, id, row) =>
      if key in w.files {
        WriteCoherent(c, budget, w, key, StitchContent(c, w.files[key], id, row));
      }
  }

  lemma {:induction false} RunCoherent(c: Codec, budget: nat, files: map<string, string>, ops: seq<Op>)
    ensures Coherent(c, budget, Run(c, budget, World(files, []), ops))
    decreases |ops|
  {
    if ops != [] {
      RunCoherent(c, budget, files, ops[..|ops| - 1]);
      StepCoherent(c, budget, Run(c, budget, World(files, []), ops[..|ops| - 1]), ops[|ops| - 1]);
    }
  }

  /**
    Over every run of all sessions, with file times that may never change and
    appends that fail half-way, a load returns the parse of the current file.
  */
  lemma LoadsAreCurrent(c: Codec, budget: nat, files: map<string, string>, ops: seq<Op>, key: string, mtime: int)
    ensures var w := Run(c, budget, World(files, []), ops);
      LoadStep(c, budget, w, key, mtime).1 == LoadAll(c, FileOf(w, key))
  {
    RunCoherent(c, budget, files, ops);
    LoadCoherent(c, budget, Run(c, budget, World(files, []), ops), key, mtime);
  }

  // --------------------------------------------------------- changes out of band

  lemma GetHit(items: seq<Item>, key: string, size: nat, mtime: int)
    ensures var g := Get(items, key, size, mtime);
      g.1.Some? ==>
        && g.0 != [] && g.0[0] in items && g.0[0].key == key
        && g.0[0].size == size && g.0[0].mtime == mtime && g.0[0].msgs == g.1.value
  {
    hide Without;
  }

  /** After a load that fits the cache, the history is its most recent item. */
  lemma LoadCaches(c: Codec, budget: nat, w: World, key: string, mtime: int)
    requires Coherent(c, budget, w) && key in w.files && w.files[key] != ""
    requires Estimate(LoadAll(c, w.files[key])) <= budget
    requires 0 < budget
    ensures var u, was := LoadStep(c, budget, w, key, mtime).0, w.files[key];
      && u.items != [] && u.items[0].key == key && u.items[0].size == |was| && u.items[0].mtime == mtime
      && u.items[0].msgs == LoadAll(c, was) && u.files == w.files && UniqueKeys(u.items)
  {
    hide LoadAll, Estimate, Total, Fit, UniqueKeys, Without, Put;
    var was := w.files[key];
    var item := Item(key, |was|, mtime, LoadAll(c, was), Estimate(LoadAll(c, was)));
    var g := Get(w.items, key, |was|, mtime);
    GetPutKeep(w.items, budget, item, |was|, mtime);
    GetHit(w.items, key, |was|, mtime);
    if g.1.Some? {
      assert ItemOK(c, w.files, g.0[0]);
    } else {
      PutSurvivors(g.0, budget, item, 0);
      GetPutKeep(g.0, budget, item, |was|, mtime);
    }
  }

  lemma FirstIsFound(items: seq<Item>, key: string)
    requires items != [] && UniqueKeys(items) && items[0].key == key
    ensures Find(items, key) == Some(0)
  {
    hide Find;
    assert forall j :: 0 < j < |items| ==> items[j].key != items[0].key;
  }

  lemma ServedFrom(c: Codec, budget: nat, u: World, key: string, now: int)
    requires 0 < budget && key in u.files && Find(u.items, key) == Some(0) && |u.items| > 0
    ensures LoadStep(c, budget, u, key, now).1 ==
      if u.items[0].size == |u.files[key]| && u.items[0].mtime == now then u.items[0].msgs else LoadAll(c, u.files[key])
  {
    hide Find, Without, Put, Estimate, LoadAll;
    EmptyLoads(c);
  }

  /**
    A file that something else changes after it was loaded is served stale exactly
    when its size and its time stayed the same and its history did not.
  */
  lemma ChangedOutOfBand(c: Codec, budget: nat, w: World, key: string, earlier: int, changed: string, now: int)
    requires Coherent(c, budget, w) && key in w.files && w.files[key] != ""
    requires Estimate(LoadAll(c, w.files[key])) <= budget
    requires 0 < budget
    ensures var was, u := w.files[key], LoadStep(c, budget, w, key, earlier).0;
      LoadStep(c, budget, u.(files := u.files[key := changed]), key, now).1 == LoadAll(c, changed) <==>
        |changed| != |was| || now != earlier || LoadAll(c, changed) == LoadAll(c, was)
  {
    var u := LoadStep(c, budget, w, key, earlier).0;
    LoadCaches(c, budget, w, key, earlier);
    hide LoadStep;
    FirstIsFound(u.items, key);
    EmptyLoads(c);
    ServedFrom(c, budget, u.(files := u.files[key := changed]), key, now);
  }

  lemma OneRow(c: Codec, m: Message)
    requires Faithful(c)
    ensures var s := Render(PrintRows(c, [m])); LoadAll(c, s) == [m] && |s| == |c.encode(m)| + 1
  {
    PrintedIsGood(c, [], [m]);
    assert [] + PrintRows(c, [m]) == PrintRows(c, [m]) == [c.encode(m)];
    LoadOfRender(c, [c.encode(m)]);
    ParsePrinted(c, [], [m]);
    assert [c.encode(m)][1..] == [];
  }

  /** Two messages of the same length: the second load of the changed file returns the old one. */
  lemma StaleRead(c: Codec, budget: nat, key: string, time: int, a: Message, b: Message)
    requires Faithful(c) && a != b && |c.encode(a)| == |c.encode(b)| && 0 < Estimate([a]) <= budget
    ensures var w := World(map[key := Render(PrintRows(c, [a]))], []);
      var u := LoadStep(c, budget, w, key, time).0;
      var changed := Render(PrintRows(c, [b]));
      LoadAll(c, changed) == [b] && LoadStep(c, budget, u.(files := u.files[key := changed]), key, time).1 != [b]
  {
    var w := World(map[key := Render(PrintRows(c, [a]))], []);
    OneRow(c, a);
    OneRow(c, b);
    hide Faithful, LoadStep, LoadAll, Estimate, Render, PrintRows;
    ChangedOutOfBand(c, budget, w, key, time, Render(PrintRows(c, [b])), time);
  }

  // ----------------------------------------------------------------- fingerprint

  /** Row count and content hash of a history file. */
  function Fingerprint(c: Codec, hash: string -> string, content: string): (nat, string) {
    if TrimSpace(content) == "" then (0, "") else (|LoadAll(c, content)|, hash(TrimSpace(content)))
  }

  lemma BlankLoads(c: Codec, s: string)
    ensures s == "" ==> TrimSpace(s) == ""
    ensures TrimSpace(s) == "" ==> LoadAll(c, s) == []
  {
    assert [""][..0] == [] && [""][0] == "";
    assert ParseRows(c, [""]) == ParseRows(c, []);
    hide TrimSpace;
    assert Split("") == [""];
  }

  /** Equal fingerprints mean equal histories, when the hash is injective and never empty. */
  lemma SameFingerprint(c: Codec, hash: string -> string, a: string, b: string)
    requires forall x, y :: hash(x) == hash(y) ==> x == y
    requires forall x :: hash(x) != ""
    ensures Fingerprint(c, hash, a) == Fingerprint(c, hash, b) <==> TrimSpace(a) == TrimSpace(b)
    ensures Fingerprint(c, hash, a) == Fingerprint(c, hash, b) ==> LoadAll(c, a) == LoadAll(c, b)
  {
    BlankLoads(c, a);
    BlankLoads(c, b);
    hide TrimSpace, ParseRows, Split;
    if TrimSpace(a) == TrimSpace(b) != "" {
      assert a != "" && b != "";
    }
  }
}
