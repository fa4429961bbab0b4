/**
  The cache and the history store as the objects that the process shares: the
  recency list, the key index, the running byte count, and the file operations
  that fill and invalidate the cache.
*/
module Cache {
  import opened Wrappers
  import opened Messages
  import opened StoreModel
  import opened CacheModel

  lemma FindIs(items: seq<Item>, i: nat)
    requires UniqueKeys(items) && i < |items|
    ensures Find(items, items[i].key) == Some(i)
    ensures Without(items, items[i].key) == items[..i] + items[i + 1..]
  {
  }

  /** List and index hold the same items, one for each key. */
  ghost predicate InBijection(ll: seq<Item>, byKey: map<string, Item>) {
    && UniqueKeys(ll)
    && (forall i :: 0 <= i < |ll| ==> ll[i].key in byKey && byKey[ll[i].key] == ll[i])
    && (forall k :: k in byKey ==> byKey[k] in ll && byKey[k].key == k)
  }

  lemma IndexFinds(ll: seq<Item>, byKey: map<string, Item>, key: string)
    requires InBijection(ll, byKey)
    ensures key in byKey <==> Find(ll, key).Some?
    ensures key in byKey ==> ll[Find(ll, key).value] == byKey[key]
  {
    if key in byKey {
      var i :| 0 <= i < |ll| && ll[i] == byKey[key];
      FindIs(ll, i);
    }
  }

  lemma BijectionWithout(ll: seq<Item>, byKey: map<string, Item>, key: string)
    requires InBijection(ll, byKey)
    ensures InBijection(Without(ll, key), byKey - {key})
  {
    hide Find, Without, UniqueKeys;
    WithoutKeepsUnique(ll, key);
    var rest := Without(ll, key);
    forall i | 0 <= i < |rest| ensures rest[i].key in byKey - {key} && (byKey - {key})[rest[i].key] == rest[i] {
      assert rest[i] in rest;
    }
  }

  lemma BijectionCons(ll: seq<Item>, byKey: map<string, Item>, item: Item)
    requires InBijection(ll, byKey) && item.key !in byKey
    ensures InBijection([item] + ll, byKey[item.key := item])
  {
    var all := [item] + ll;
    var index := byKey[item.key := item];
    assert all[0] == item;
    assert forall x :: x in ll ==> x in all;
    forall k | k in index ensures index[k] in all && index[k].key == k {
      assert k != item.key ==> byKey[k] in ll;
    }
  }

  lemma ListIsUnique(ll: seq<Item>, byKey: map<string, Item>)
    requires InBijection(ll, byKey)
    ensures UniqueKeys(ll)
  {
  }

  class MessagesCache {
    var ll: seq<Item>
    var byKey: map<string, Item>
    var curBytes: nat
    const maxBytes: nat

    ghost predicate Linked()
      reads this
    {
      InBijection(ll, byKey) && curBytes == Total(ll)
    }

    ghost predicate Valid()
      reads this
    {
      Linked() && curBytes <= maxBytes && (maxBytes == 0 ==> ll == [])
    }

    constructor (budget: nat)
      ensures Valid() && maxBytes == budget && ll == []
    {
      ll, byKey, curBytes, maxBytes := [], map[], 0, budget;
    }

    /** Unlink an element from the list and the index, and give its bytes back. */
    method RemoveElement(i: nat)
      requires Linked() && i < |ll|
      modifies this
      ensures Linked() && ll == Without(old(ll), old(ll[i].key)) == old(ll[..i] + ll[i + 1..])
      ensures old(ll[i].key) !in byKey
    {
      hide InBijection, Find, Without, Total;
      ListIsUnique(ll, byKey);
      FindIs(ll, i);
      TotalWithout(ll, i);
      BijectionWithout(ll, byKey, ll[i].key);
      byKey := byKey - {ll[i].key};
      curBytes := curBytes - ll[i].bytes;
      ll := ll[..i] + ll[i + 1..];
    }

    method PushFront(item: Item)
      requires Linked() && item.key !in byKey
      modifies this
      ensures Linked() && ll == [item] + old(ll)
    {
      hide InBijection, Total;
      BijectionCons(ll, byKey, item);
      TotalOfOne(item);
      TotalConcat([item], ll);
      byKey := byKey[item.key := item];
      curBytes := curBytes + item.bytes;
      ll := [item] + ll;
    }

    /** The list position of a key's element. */
    method Position(key: string) returns (i: nat)
      requires Linked() && key in byKey
      ensures i < |ll| && ll[i] == byKey[key] && ll[i].key == key && Find(ll, key) == Some(i)
    {
      hide Find, Total;
      IndexFinds(ll, byKey, key);
      i := 0;
      while ll[i] != byKey[key]
        invariant i < |ll| && byKey[key] !in ll[..i]
        decreases |ll| - i
      {
        i := i + 1;
      }
      FindIs(ll, i);
    }

    method Get(key: string, size: nat, mtime: int) returns (msgs: seq<Message>, hit: bool)
      requires Valid()
      modifies this
      ensures Valid()
      ensures var g := if maxBytes == 0 then (old(ll), None) else CacheModel.Get(old(ll), key, size, mtime);
        ll == g.0 && hit == g.1.Some? && (hit ==> msgs == g.1.value)
    {
      hide InBijection, Find, Without, Total;
      msgs, hit := [], false;
      IndexFinds(ll, byKey, key);
      if maxBytes == 0 || key !in byKey {
        return;
      }
      var i := Position(key);
      var item := ll[i];
      TotalWithout(ll, i);
      RemoveElement(i);
      if item.size == size && item.mtime == mtime {
        msgs, hit := item.msgs, true;
        PushFront(item);
        TotalConcat([item], ll[1..]);
        TotalOfOne(item);
      }
    }

    method Invalidate(key: string)
      requires Valid()
      modifies this
      ensures Valid() && ll == if maxBytes == 0 then old(ll) else Without(old(ll), key)
    {
      hide InBijection, Find, Total;
      IndexFinds(ll, byKey, key);
      if maxBytes == 0 || key !in byKey {
        return;
      }
      var i := Position(key);
      TotalWithout(ll, i);
      RemoveElement(i);
    }

    /** Drop elements from the cold end until the rest fits. */
    method Evict()
      requires Linked() && maxBytes > 0
      modifies this
      ensures Valid() && ll == Fit(old(ll), maxBytes)
    {
      hide InBijection, Find, Without;
      while curBytes > maxBytes
        invariant Linked() && Fit(ll, maxBytes) == Fit(old(ll), maxBytes)
        decreases |ll|
      {
        if ll == [] {
          break;
        }
        assert ll[..|ll| - 1] + ll[|ll|..] == ll[..|ll| - 1];
        RemoveElement(|ll| - 1);
      }
    }

    method Put(item: Item)
      requires Valid()
      modifies this
      ensures Valid() && ll == CacheModel.Put(old(ll), maxBytes, item)
      ensures item.bytes > maxBytes ==> forall it :: it in ll <==> it in old(ll) && it.key != item.key
      ensures 0 < item.bytes <= maxBytes ==> ll != [] && ll[0] == item
    {
      ListIsUnique(ll, byKey);
      WithoutKeepsUnique(ll, item.key);
      if 0 < item.bytes <= maxBytes {
        PutSurvivors(ll, maxBytes, item, 0);
      }
      hide InBijection, Find, Total, Fit;
      if maxBytes == 0 {
        return;
      }
      if item.bytes > maxBytes {
        Invalidate(item.key);
        return;
      }
      IndexFinds(ll, byKey, item.key);
      if item.key in byKey {
        var i := Position(item.key);
        RemoveElement(i);
      }
      PushFront(item);
      Evict();
    }
  }

  // ----------------------------------------------------------- the history store

  lemma ParseSnoc(c: Codec, rows: seq<string>, i: nat)
    requires i < |rows|
    ensures ParseRows(c, rows[..i + 1]) ==
      ParseRows(c, rows[..i]) + if rows[i] == "" || c.decode(rows[i]).None? then [] else [c.decode(rows[i]).value]
    ensures ParseRows(c, rows[..0]) == [] && rows[..|rows|] == rows
  {
    assert rows[..i + 1][..i] == rows[..i];
  }

  method ParseContent(c: Codec, content: string) returns (ms: seq<Message>)
    ensures ms == LoadAll(c, content)
  {
    hide Split, TrimSpace, ParseRows;
    ms := [];
    if content == "" {
      return;
    }
    var lines := Split(TrimSpace(content));
    ParseSnoc(c, lines, 0);
    for i := 0 to |lines|
      invariant ms == ParseRows(c, lines[..i])
    {
      ParseSnoc(c, lines, i);
      if lines[i] != "" {
        var m := c.decode(lines[i]);
        if m.Some? {
          ms := ms + [m.value];
        }
      }
    }
  }

  method EncodeRows(c: Codec, ms: seq<Message>) returns (rows: seq<string>)
    ensures rows == PrintRows(c, ms)
  {
    rows := [];
    for i := 0 to |ms|
      invariant |rows| == i && forall j :: 0 <= j < i ==> rows[j] == c.encode(ms[j])
    {
      rows := rows + [c.encode(ms[i])];
    }
  }

  method EstimateBytes(ms: seq<Message>) returns (total: nat)
    ensures total == Estimate(ms) == 256 * |ms| + |Written(ms)|
  {
    total := 0;
    for i := 0 to |ms|
      invariant total == Estimate(ms[..i])
    {
      assert ms[..i + 1][..i] == ms[..i];
      total := total + |ms[i].content| + OVERHEAD;
      var calls := ms[i].toolCalls;
      for j := 0 to |calls|
        invariant total == Estimate(ms[..i]) + |ms[i].content| + OVERHEAD + CallBytes(calls[..j])
      {
        assert calls[..j + 1][..j] == calls[..j];
        total := total + |calls[j].args| + |calls[j].name|;
      }
      assert calls[..|calls|] == calls;
    }
    assert ms[..|ms|] == ms;
    EstimateIs(ms);
  }

  predicate CanStitch(c: Codec, file: Option<string>, id: string) {
    file.Some? && id != "" && file.value != "" && FindPlaceholder(c, Split(TrimSpace(file.value)), id).Some?
  }

  lemma StitchStep(c: Codec, budget: nat, w: World, key: string, id: string, row: Message, content: string)
    requires w.files.Keys == {key} && CanStitch(c, Some(w.files[key]), id)
    requires content == StitchContent(c, w.files[key], id, row)
    ensures Step(c, budget, w, Stitch(key, id, row)) == World(map[key := content], Without(w.items, key))
  {
    hide Split, TrimSpace, FindPlaceholder, StitchContent, Without;
    assert w.files[key := content] == map[key := content];
  }

  lemma WriteStep(c: Codec, budget: nat, w: World, key: string, ms: seq<Message>)
    requires w.files.Keys <= {key}
    ensures ms != [] ==>
      Step(c, budget, w, Append(key, ms)) ==
        World(map[key := FileOf(w, key) + Render(PrintRows(c, ms))], Without(w.items, key))
    ensures Step(c, budget, w, Rewrite(key, ms)) == World(map[key := ReplaceContent(c, ms)], Without(w.items, key))
  {
    hide Render, ReplaceContent, Without;
    forall x: string ensures w.files[key := x] == map[key := x] {
    }
  }

  lemma NothingToDrop(items: seq<Item>, key: string)
    ensures items == [] ==> Without(items, key) == items
  {
  }

  method FirstPlaceholder(c: Codec, rows: seq<string>, id: string) returns (at: Option<nat>)
    ensures at == FindPlaceholder(c, rows, id)
  {
    for i := 0 to |rows|
      invariant forall j :: 0 <= j < i ==> !Matches(c, rows[j], id)
    {
      if rows[i] != "" && c.decode(rows[i]).Some? {
        var m := c.decode(rows[i]).value;
        if m.role == Tool && m.toolCallID == id && m.extra.placeholder {
          return Some(i);
        }
      }
    }
    at := None;
  }

  class ChatContextRepo {
    const codec: Codec
    const key: string
    const cache: MessagesCache
    /** messages.jsonl, when it exists. */
    var file: Option<string>

    constructor (c: Codec, k: string, shared: MessagesCache, initial: Option<string>)
      ensures codec == c && key == k && cache == shared && file == initial
    {
      codec, key, cache, file := c, k, shared, initial;
    }

    ghost function State(): World
      reads this, cache
    {
      World(if file.Some? then map[key := file.value] else map[], cache.ll)
    }

    /** The cache fast path, else read, parse and store. */
    method LoadAllMessages(mtime: int) returns (ms: seq<Message>)
      requires cache.Valid()
      modifies cache
      ensures cache.Valid()
      ensures var r := LoadStep(codec, cache.maxBytes, old(State()), key, mtime); State() == r.0 && ms == r.1
    {
      hide LoadAll, CacheModel.Get, CacheModel.Put, Estimate;
      if file.None? {
        return [];
      }
      var content := file.value;
      var msgs, hit := cache.Get(key, |content|, mtime);
      if hit {
        return msgs;
      }
      if content == "" {
        return [];
      }
      ms := ParseContent(codec, content);
      var bytes := EstimateBytes(ms);
      cache.Put(Item(key, |content|, mtime, ms, bytes));
    }

    /** Append rows; when the write fails only `landed` reached the file. */
    method AppendMessages(ms: seq<Message>, failure: Option<string>) returns (ok: bool)
      requires cache.Valid()
      modifies this`file, cache
      ensures cache.Valid() && ok == (ms == [] || failure.None?)
      ensures State() == Step(codec, cache.maxBytes, old(State()), if ok then Append(key, ms)
                              else TornAppend(key, failure.value))
      ensures !ok && failure.value != "" ==>
                file == Some((if old(file).Some? then old(file.value) else "") + failure.value)
      ensures ok && ms != [] ==> forall it :: it in cache.ll <==> it in old(cache.ll) && it.key != key
    {
      ListIsUnique(cache.ll, cache.byKey);
      WithoutKeepsUnique(cache.ll, key);
      hide Render, Without, PrintRows;
      if ms == [] {
        return true;
      }
      var rows := EncodeRows(codec, ms);
      var was := if file.Some? then file.value else "";
      if failure.Some? {
        if failure.value != "" {
          file := Some(was + failure.value);
        }
        return false;
      }
      WriteStep(codec, cache.maxBytes, State(), key, ms);
      file := Some(was + Render(rows));
      NothingToDrop(cache.ll, key);
      cache.Invalidate(key);
      ok := true;
    }

    /** The whole file is replaced atomically, or not at all. */
    method ReplaceMessages(ms: seq<Message>, writes: bool) returns (ok: bool)
      requires cache.Valid()
      modifies this`file, cache
      ensures cache.Valid() && ok == writes
      ensures State() == if ok then Step(codec, cache.maxBytes, old(State()), Rewrite(key, ms)) else old(State())
      ensures ok ==> forall it :: it in cache.ll <==> it in old(cache.ll) && it.key != key
    {
      ListIsUnique(cache.ll, cache.byKey);
      WithoutKeepsUnique(cache.ll, key);
      hide Without, Step, JoinLines, PrintRows;
      var rows := EncodeRows(codec, ms);
      if !writes {
        return false;
      }
      WriteStep(codec, cache.maxBytes, State(), key, ms);
      var content := JoinLines(rows);
      file := Some(if |content| > 0 then content + "\n" else content);
      NothingToDrop(cache.ll, key);
      cache.Invalidate(key);
      ok := true;
    }

    /** Rewrite the first placeholder row of an id; every other line stays as it is. */
    method ReplacePlaceholderToolResult(id: string, row: Message, writes: bool) returns (stitched: bool)
      requires cache.Valid()
      modifies this`file, cache
      ensures cache.Valid()
      ensures stitched ==> State() == Step(codec, cache.maxBytes, old(State()), Stitch(key, id, row))
      ensures !stitched ==> State() == old(State())
      ensures stitched <==> writes && CanStitch(codec, old(file), id)
      ensures stitched ==> forall it :: it in cache.ll <==> it in old(cache.ll) && it.key != key
    {
      ListIsUnique(cache.ll, cache.byKey);
      WithoutKeepsUnique(cache.ll, key);
      if id == "" || file.None? || file.value == "" {
        return false;
      }
      hide Without, Split, TrimSpace, JoinLines, Step;
      var rows := Split(TrimSpace(file.value));
      var at := FirstPlaceholder(codec, rows, id);
      if at.None? || !writes {
        return false;
      }
      rows := rows[at.value := codec.encode(MergeTiming(row, codec.decode(rows[at.value]).value))];
      var content := JoinLines(rows);
      content := if |content| > 0 then content + "\n" else content;
      StitchStep(codec, cache.maxBytes, State(), key, id, row, content);
      file := Some(content);
      NothingToDrop(cache.ll, key);
      cache.Invalidate(key);
      stitched := true;
    }

    /** The row count and content hash that the drift check compares. */
    method CountAndHash(hash: string -> string) returns (count: nat, digest: string)
      ensures (count, digest) == Fingerprint(codec, hash, if file.Some? then file.value else "")
      ensures var content := if file.Some? then file.value else "";
        && count == |LoadAll(codec, content)|
        && digest == if TrimSpace(content) == "" then "" else hash(TrimSpace(content))
    {
      hide TrimSpace;
      count, digest := 0, "";
      if file.None? {
        BlankLoads(codec, "");
        return;
      }
      var trimmed := TrimSpace(file.value);
      BlankLoads(codec, file.value);
      if trimmed == "" {
        return;
      }
      var lines := Split(trimmed);
      for i := 0 to |lines|
        invariant count == |ParseRows(codec, lines[..i])|
      {
        assert lines[..i + 1][..i] == lines[..i];
        if lines[i] != "" && codec.decode(lines[i]).Some? {
          count := count + 1;
        }
      }
      assert lines[..|lines|] == lines;
      digest := hash(trimmed);
    }
  }
}
