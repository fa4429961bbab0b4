/**
  The repositories of all sessions over the one cache that they share: whatever
  their methods do, in any order, the objects hold what the model's run of those
  operations says, and so every load returns the parse of the current file.
*/
module CacheSimulation {
  import opened Wrappers
  import opened Messages
  import opened StoreModel
  import M = CacheModel
  import opened Cache

  /** The file of one key, alone. */
  function Only(files: map<string, string>, key: string): map<string, string> {
    if key in files then map[key := files[key]] else map[]
  }

  /** An operation of one session does to the whole what it does to its own file and the cache. */
  lemma StepIsLocal(c: Codec, budget: nat, w: M.World, op: M.Op)
    ensures var own, all := M.Step(c, budget, M.World(Only(w.files, op.key), w.items), op), M.Step(c, budget, w, op);
      && own.items == all.items && own.files == Only(all.files, op.key)
      && forall k :: k != op.key ==> Only(all.files, k) == Only(w.files, k)
  {
    hide M.Get, M.Put, M.Without, M.Estimate;
    hide LoadAll, Render, ReplaceContent, StitchContent, FindPlaceholder, Split, TrimSpace;
  }

  lemma LoadIsLocal(c: Codec, budget: nat, w: M.World, key: string, mtime: int)
    ensures var own := M.LoadStep(c, budget, M.World(Only(w.files, key), w.items), key, mtime);
      && own.1 == M.LoadStep(c, budget, w, key, mtime).1
      && own.0 == M.Step(c, budget, M.World(Only(w.files, key), w.items), M.Load(key, mtime))
  {
    hide M.Get, M.Put, M.Estimate, LoadAll;
  }

  lemma RunSnoc(c: Codec, budget: nat, w: M.World, ops: seq<M.Op>, op: M.Op)
    ensures M.Run(c, budget, w, ops + [op]) == M.Step(c, budget, M.Run(c, budget, w, ops), op)
  {
    assert (ops + [op])[..|ops|] == ops;
    hide M.Step;
  }

  function FileIn(files: map<string, string>, key: string): Option<string> {
    if key in files then Some(files[key]) else None
  }

  /** The file of one key determines a file field. */
  lemma SameOnly(files: map<string, string>, key: string, file: Option<string>)
    requires (if file.Some? then map[key := file.value] else map[]) == Only(files, key)
    ensures file == FileIn(files, key)
  {
    if file.Some? {
      assert key in map[key := file.value];
    }
    if key in files {
      assert key in map[key := files[key]] && map[key := files[key]][key] == files[key];
    }
  }

  lemma SameElsewhere(files: map<string, string>, now: map<string, string>, key: string)
    requires forall k :: k != key ==> Only(now, k) == Only(files, k)
    ensures forall k :: k != key ==> FileIn(now, k) == FileIn(files, k)
  {
    forall k | k != key ensures FileIn(now, k) == FileIn(files, k) {
      SameOnly(files, k, FileIn(now, k));
    }
  }

  /** The sessions that have been opened, and the operations run so far. */
  class Sessions {
    const codec: Codec
    const cache: MessagesCache
    var repos: map<string, ChatContextRepo>
    ghost const initial: map<string, string>
    ghost var ops: seq<M.Op>

    ghost function World(): M.World
      reads this
    {
      M.Run(codec, cache.maxBytes, M.World(initial, []), ops)
    }

    ghost predicate Holds(r: ChatContextRepo, key: string)
      reads this, r
    {
      r.codec == codec && r.key == key && r.cache == cache && r.file == FileIn(World().files, key)
    }

    ghost predicate Valid()
      reads this, cache, repos.Values
    {
      && cache.Valid() && cache.ll == World().items
      && forall k :: k in repos ==> Holds(repos[k], k)
    }

    constructor (c: Codec, budget: nat, ghost files: map<string, string>)
      ensures Valid() && codec == c && initial == files && repos == map[] && ops == [] && fresh(cache)
    {
      codec, repos, initial, ops := c, map[], files, [];
      cache := new MessagesCache(budget);
      new;
      assert World() == M.World(files, []);
    }

    /** The first repository of a session; `file` is what its directory holds. */
    method Open(key: string, file: Option<string>)
      requires Valid() && key !in repos && file == FileIn(World().files, key)
      modifies this`repos
      ensures Valid() && ops == old(ops) && repos.Keys == old(repos).Keys + {key}
    {
      hide M.Run;
      var r := new ChatContextRepo(codec, key, cache, file);
      repos := repos[key := r];
    }

    /** One more operation on the file of a key, done by its repository. */
    lemma OpOnFile(w: M.World, op: M.Op, items: seq<M.Item>, file: Option<string>)
      requires M.World(if file.Some? then map[op.key := file.value] else map[], items) ==
        M.Step(codec, cache.maxBytes, M.World(Only(w.files, op.key), w.items), op)
      ensures var u := M.Step(codec, cache.maxBytes, w, op);
        && u.items == items && FileIn(u.files, op.key) == file
        && forall k :: k != op.key ==> FileIn(u.files, k) == FileIn(w.files, k)
    {
      hide M.Step, Only, FileIn;
      StepIsLocal(codec, cache.maxBytes, w, op);
      var u := M.Step(codec, cache.maxBytes, w, op);
      SameOnly(u.files, op.key, file);
      SameElsewhere(w.files, u.files, op.key);
    }

    /** A load, by the cache or from the file, returns what the file holds now. */
    method LoadAllMessages(key: string, mtime: int) returns (ms: seq<Message>)
      requires Valid() && key in repos
      modifies this`ops, cache
      ensures Valid() && ops == old(ops) + [M.Load(key, mtime)] && repos == old(repos)
      ensures ms == LoadAll(codec, if repos[key].file.Some? then repos[key].file.value else "")
    {
      hide M.Run, M.Step, M.LoadStep, LoadAll;
      ghost var w := World();
      M.LoadsAreCurrent(codec, cache.maxBytes, initial, ops, key, mtime);
      ms := repos[key].LoadAllMessages(mtime);
      LoadIsLocal(codec, cache.maxBytes, w, key, mtime);
      OpOnFile(w, M.Load(key, mtime), cache.ll, repos[key].file);
      RunSnoc(codec, cache.maxBytes, M.World(initial, []), ops, M.Load(key, mtime));
      ops := ops + [M.Load(key, mtime)];
    }

    /** An append that lands whole, or only its first bytes. */
    method AppendMessages(key: string, ms: seq<Message>, failure: Option<string>) returns (ok: bool)
      requires Valid() && key in repos
      modifies this`ops, cache, repos[key]
      ensures Valid() && repos == old(repos) && ok == (ms == [] || failure.None?)
      ensures ops == old(ops) + [if ok then M.Append(key, ms) else M.TornAppend(key, failure.value)]
    {
      hide M.Run, M.Step;
      ghost var w := World();
      ok := repos[key].AppendMessages(ms, failure);
      ghost var op := if ok then M.Append(key, ms) else M.TornAppend(key, failure.value);
      OpOnFile(w, op, cache.ll, repos[key].file);
      RunSnoc(codec, cache.maxBytes, M.World(initial, []), ops, op);
      ops := ops + [op];
    }

    method ReplaceMessages(key: string, ms: seq<Message>, writes: bool) returns (ok: bool)
      requires Valid() && key in repos
      modifies this`ops, cache, repos[key]
      ensures Valid() && repos == old(repos) && ok == writes
      ensures ops == if ok then old(ops) + [M.Rewrite(key, ms)] else old(ops)
    {
      hide M.Run, M.Step;
      ghost var w := World();
      ok := repos[key].ReplaceMessages(ms, writes);
      if ok {
        OpOnFile(w, M.Rewrite(key, ms), cache.ll, repos[key].file);
        RunSnoc(codec, cache.maxBytes, M.World(initial, []), ops, M.Rewrite(key, ms));
        ops := ops + [M.Rewrite(key, ms)];
      } else {
        SameOnly(w.files, key, repos[key].file);
      }
    }

    method ReplacePlaceholderToolResult(key: string, id: string, row: Message, writes: bool) returns (stitched: bool)
      requires Valid() && key in repos
      modifies this`ops, cache, repos[key]
      ensures Valid() && repos == old(repos)
      ensures ops == if stitched then old(ops) + [M.Stitch(key, id, row)] else old(ops)
      ensures stitched <==> writes && CanStitch(codec, old(repos[key].file), id)
    {
      hide M.Run, M.Step, CanStitch;
      ghost var w := World();
      stitched := repos[key].ReplacePlaceholderToolResult(id, row, writes);
      if stitched {
        OpOnFile(w, M.Stitch(key, id, row), cache.ll, repos[key].file);
        RunSnoc(codec, cache.maxBytes, M.World(initial, []), ops, M.Stitch(key, id, row));
        ops := ops + [M.Stitch(key, id, row)];
      } else {
        SameOnly(w.files, key, repos[key].file);
      }
    }
  }
}
