/**
  Translating a model stream into builder events: tool-call fragments are joined
  per position until id and name are known, and tool results are collected per id
  under two byte caps and delivered once at the end of the stream.
*/
module AdapterModel {
  import opened Wrappers

  /** One tool-call fragment of a chunk; its position is its index, or its place in the chunk. */
  datatype Frag = Frag(index: Option<int>, id: string, name: string, args: string)

  datatype Chunk =
    | Assist(reasoning: string, content: string, frags: seq<Frag>)
    | ToolText(id: string, text: string)

  /** The calls made on the stream handler. */
  datatype Call =
    | Thought(text: string)
    | Say(text: string)
    | Declare(id: string, name: string)
    | Args(id: string, text: string)
    | Terminal(id: string, text: string, failed: bool)

  /** The per-position buffers of one stream. */
  datatype Slots = Slots(ids: map<int, string>, names: map<int, string>, bufs: map<int, seq<string>>, started: set<int>)

  const EMPTY := Slots(map[], map[], map[], {})

  const PER_TOOL: nat := 16 * 1024 * 1024

  const PER_STREAM: nat := 32 * 1024 * 1024

  const TRUNCATED := "\n\n[truncated: tool result exceeded buffer cap]"

  // ----------------------------------------------------------- fragment reassembly

  function IdAt(s: Slots, k: int): string { if k in s.ids then s.ids[k] else "" }

  function NameAt(s: Slots, k: int): string { if k in s.names then s.names[k] else "" }

  function BufAt(s: Slots, k: int): seq<string> { if k in s.bufs then s.bufs[k] else [] }

  function ArgCalls(id: string, texts: seq<string>): (r: seq<Call>)
    ensures |r| == |texts| && forall i :: 0 <= i < |texts| ==> r[i] == Args(id, texts[i])
  {
    seq(|texts|, i requires 0 <= i < |texts| => Args(id, texts[i]))
  }

  /** The buffers once a fragment's id, name and arguments are noted. */
  function Noted(s: Slots, k: int, f: Frag): Slots {
    var ids := if f.id != "" then s.ids[k := f.id] else s.ids;
    var names := if f.name != "" then s.names[k := f.name] else s.names;
    var t := s.(ids := ids, names := names);
    if (k !in s.started || IdAt(t, k) == "" || NameAt(t, k) == "") && f.args != ""
    then t.(bufs := s.bufs[k := BufAt(s, k) + [f.args]]) else t
  }

  function Ready(s: Slots, k: int): bool { k !in s.started && IdAt(s, k) != "" && NameAt(s, k) != "" }

  function Feed(s: Slots, k: int, f: Frag): (Slots, seq<Call>) {
    var t := Noted(s, k, f);
    if Ready(t, k) then
      (t.(started := t.started + {k}, bufs := t.bufs[k := []]),
       [Declare(IdAt(t, k), NameAt(t, k))] + ArgCalls(IdAt(t, k), BufAt(t, k)))
    else if k in s.started && f.args != "" && IdAt(t, k) != "" then (t, [Args(IdAt(t, k), f.args)])
    else (t, [])
  }

  /** Positioned fragments in stream order. */
  function FeedAll(fs: seq<(int, Frag)>): (Slots, seq<Call>) {
    if fs == [] then (EMPTY, [])
    else
      var (s, out) := FeedAll(fs[..|fs| - 1]);
      var (t, more) := Feed(s, fs[|fs| - 1].0, fs[|fs| - 1].1);
      (t, out + more)
  }

  function Declares(out: seq<Call>, id: string): nat {
    if out == [] then 0
    else
      var last := out[|out| - 1];
      Declares(out[..|out| - 1], id) + if last.Declare? && last.id == id then 1 else 0
  }

  /** The names under which an id is declared. */
  function DeclaredNames(out: seq<Call>, id: string): seq<string> {
    if out == [] then []
    else
      var last := out[|out| - 1];
      DeclaredNames(out[..|out| - 1], id) + if last.Declare? && last.id == id then [last.name] else []
  }

  /** The argument updates forwarded for an id. */
  function Forwarded(out: seq<Call>, id: string): seq<string> {
    if out == [] then []
    else
      var last := out[|out| - 1];
      Forwarded(out[..|out| - 1], id) + if last.Args? && last.id == id then [last.text] else []
  }

  predicate DeclaredFirst(out: seq<Call>, id: string) {
    forall i :: 0 <= i < |out| && out[i].Args? && out[i].id == id ==>
      exists j :: 0 <= j < i && out[j].Declare? && out[j].id == id
  }

  /** The non-empty argument fragments of a position. */
  function Fragments(fs: seq<(int, Frag)>, k: int): seq<string> {
    if fs == [] then []
    else
      var (j, f) := fs[|fs| - 1];
      Fragments(fs[..|fs| - 1], k) + if j == k && f.args != "" then [f.args] else []
  }

  predicate SeenId(fs: seq<(int, Frag)>, k: int) { exists i :: 0 <= i < |fs| && fs[i].0 == k && fs[i].1.id != "" }

  predicate SeenName(fs: seq<(int, Frag)>, k: int) { exists i :: 0 <= i < |fs| && fs[i].0 == k && fs[i].1.name != "" }

  /** The last non-empty name of a position. */
  function LastName(fs: seq<(int, Frag)>, k: int): string {
    if fs == [] then ""
    else
      var (j, f) := fs[|fs| - 1];
      if j == k && f.name != "" then f.name else LastName(fs[..|fs| - 1], k)
  }

  /** The last non-empty name of a position up to the fragment that completes it. */
  function NameAtStart(fs: seq<(int, Frag)>, k: int): string {
    if fs == [] || !SeenId(fs, k) || !SeenName(fs, k) then ""
    else
      var front := fs[..|fs| - 1];
      if SeenId(front, k) && SeenName(front, k) then NameAtStart(front, k) else LastName(fs, k)
  }

  /** Each position keeps one id, and no two positions share one. */
  ghost predicate StableIds(fs: seq<(int, Frag)>, idOf: int -> string) {
    && (forall i :: 0 <= i < |fs| && fs[i].1.id != "" ==> fs[i].1.id == idOf(fs[i].0))
    && (forall j, k :: j != k ==> idOf(j) != idOf(k))
  }

  lemma {:induction false} ProjectConcat(a: seq<Call>, b: seq<Call>, id: string)
    ensures Declares(a + b, id) == Declares(a, id) + Declares(b, id)
    ensures Forwarded(a + b, id) == Forwarded(a, id) + Forwarded(b, id)
    ensures DeclaredNames(a + b, id) == DeclaredNames(a, id) + DeclaredNames(b, id)
  {
    if b == [] {
      assert a + b == a;
    } else {
      var ab := a + b;
      assert ab[..|ab| - 1] == a + b[..|b| - 1];
      ProjectConcat(a, b[..|b| - 1], id);
    }
  }

  lemma {:induction false} ProjectArgs(id: string, texts: seq<string>, x: string)
    ensures Declares(ArgCalls(id, texts), x) == 0 && DeclaredNames(ArgCalls(id, texts), x) == []
    ensures Forwarded(ArgCalls(id, texts), x) == if id == x then texts else []
  {
    if texts != [] {
      var n := |texts| - 1;
      assert ArgCalls(id, texts)[..n] == ArgCalls(id, texts[..n]);
      ProjectArgs(id, texts[..n], x);
      assert texts[..n] + [texts[n]] == texts;
    }
  }

  lemma ProjectOne(c: Call, x: string)
    ensures Declares([c], x) == if c.Declare? && c.id == x then 1 else 0
    ensures Forwarded([c], x) == if c.Args? && c.id == x then [c.text] else []
    ensures DeclaredNames([c], x) == if c.Declare? && c.id == x then [c.name] else []
  {
    assert [c][..0] == [];
  }

  lemma NothingProjected(x: string)
    ensures Declares([], x) == 0 && Forwarded([], x) == [] && DeclaredNames([], x) == []
  {
  }

  /** What one fragment makes the handler see, for any id. */
  lemma FeedProjects(s: Slots, k: int, f: Frag, x: string)
    ensures var (t, more) := Feed(s, k, f); var u := Noted(s, k, f);
      && (IdAt(u, k) != x ==> Declares(more, x) == 0 && Forwarded(more, x) == [])
      && (IdAt(u, k) == x && Ready(u, k) ==> Declares(more, x) == 1 && Forwarded(more, x) == BufAt(u, k))
      && (IdAt(u, k) == x && !Ready(u, k) ==>
          && Declares(more, x) == 0
          && Forwarded(more, x) == if k in s.started && f.args != "" && x != "" then [f.args] else [])
      && DeclaredNames(more, x) == if IdAt(u, k) == x && Ready(u, k) then [NameAt(u, k)] else []
  {
    var u := Noted(s, k, f);
    hide Noted, Declares, Forwarded, DeclaredNames;
    NothingProjected(x);
    if Ready(u, k) {
      ProjectConcat([Declare(IdAt(u, k), NameAt(u, k))], ArgCalls(IdAt(u, k), BufAt(u, k)), x);
      ProjectOne(Declare(IdAt(u, k), NameAt(u, k)), x);
      ProjectArgs(IdAt(u, k), BufAt(u, k), x);
    } else {
      ProjectOne(Args(IdAt(u, k), f.args), x);
    }
  }

  /** What is known about position k, whose id is x, after some fragments. */
  ghost predicate SlotOK(fs: seq<(int, Frag)>, k: int, x: string, s: Slots, out: seq<Call>) {
    && IdAt(s, k) == (if SeenId(fs, k) then x else "")
    && NameAt(s, k) == LastName(fs, k) && (NameAt(s, k) != "" <==> SeenName(fs, k))
    && (k in s.started <==> SeenId(fs, k) && SeenName(fs, k))
    && BufAt(s, k) == (if k in s.started then [] else Fragments(fs, k))
    && Declares(out, x) == (if k in s.started then 1 else 0)
    && DeclaredNames(out, x) == (if k in s.started then [NameAtStart(fs, k)] else [])
    && Forwarded(out, x) == (if k in s.started then Fragments(fs, k) else [])
    && DeclaredFirst(out, x)
  }

  ghost predicate IdsOK(s: Slots, idOf: int -> string) {
    forall j :: j in s.ids ==> s.ids[j] == idOf(j) && s.ids[j] != ""
  }

  lemma SeenSnoc(fs: seq<(int, Frag)>, j: int, f: Frag, k: int)
    ensures SeenId(fs + [(j, f)], k) <==> SeenId(fs, k) || (j == k && f.id != "")
    ensures SeenName(fs + [(j, f)], k) <==> SeenName(fs, k) || (j == k && f.name != "")
    ensures Fragments(fs + [(j, f)], k) == Fragments(fs, k) + if j == k && f.args != "" then [f.args] else []
    ensures LastName(fs + [(j, f)], k) == if j == k && f.name != "" then f.name else LastName(fs, k)
    ensures SeenId(fs, k) && SeenName(fs, k) ==> NameAtStart(fs + [(j, f)], k) == NameAtStart(fs, k)
    ensures !(SeenId(fs, k) && SeenName(fs, k)) ==>
              NameAtStart(fs + [(j, f)], k) ==
              if SeenId(fs + [(j, f)], k) && SeenName(fs + [(j, f)], k) then LastName(fs + [(j, f)], k) else ""
  {
    var all := fs + [(j, f)];
    assert all[..|fs|] == fs;
    if SeenId(fs, k) {
      var i :| 0 <= i < |fs| && fs[i].0 == k && fs[i].1.id != "";
      assert all[i] == fs[i];
    }
    if SeenName(fs, k) {
      var i :| 0 <= i < |fs| && fs[i].0 == k && fs[i].1.name != "";
      assert all[i] == fs[i];
    }
    assert all[|fs|] == (j, f);
  }

  lemma DeclaredFirstSnoc(out: seq<Call>, more: seq<Call>, x: string)
    requires DeclaredFirst(out, x)
    requires (exists j :: 0 <= j < |out| && out[j].Declare? && out[j].id == x) ||
               (more != [] && more[0].Declare? && more[0].id == x) ||
             (forall i :: 0 <= i < |more| ==> !(more[i].Args? && more[i].id == x))
    ensures DeclaredFirst(out + more, x)
  {
    var all := out + more;
    if j :| 0 <= j < |out| && out[j].Declare? && out[j].id == x {
      assert all[j] == out[j];
    } else if more != [] && more[0].Declare? && more[0].id == x {
      assert all[|out|] == more[0];
    }
    forall i | 0 <= i < |all| && all[i].Args? && all[i].id == x
      ensures exists j :: 0 <= j < i && all[j].Declare? && all[j].id == x
    {
      if i < |out| {
        assert out[i] == all[i];
        var j :| 0 <= j < i && out[j].Declare? && out[j].id == x;
        assert all[j] == out[j];
      } else {
        assert more[i - |out|] == all[i];
      }
    }
  }

  lemma {:induction false} DeclareExists(out: seq<Call>, x: string)
    requires Declares(out, x) > 0
    ensures exists j :: 0 <= j < |out| && out[j].Declare? && out[j].id == x
  {
    var n := |out| - 1;
    if !(out[n].Declare? && out[n].id == x) {
      DeclareExists(out[..n], x);
      var j :| 0 <= j < n && out[..n][j].Declare? && out[..n][j].id == x;
      assert out[j] == out[..n][j];
    }
  }

  lemma FeedKeepsOrder(s: Slots, k: int, f: Frag, out: seq<Call>, x: string)
    requires DeclaredFirst(out, x)
    requires (k in s.started && IdAt(Noted(s, k, f), k) == x && x != "" ==> Declares(out, x) > 0)
    ensures DeclaredFirst(out + Feed(s, k, f).1, x)
  {
    var u := Noted(s, k, f);
    var more := Feed(s, k, f).1;
    if k in s.started && IdAt(u, k) == x && x != "" {
      DeclareExists(out, x);
    }
    hide Noted, DeclaredFirst;
    DeclaredFirstSnoc(out, more, x);
  }

  /** A fragment of another position changes nothing for position k. */
  lemma OtherSlot(s: Slots, j: int, f: Frag, k: int)
    requires j != k
    ensures var t := Feed(s, j, f).0;
      IdAt(t, k) == IdAt(s, k) && NameAt(t, k) == NameAt(s, k) && BufAt(t, k) == BufAt(s, k) &&
        (k in t.started <==> k in s.started)
  {
  }

  /** A fragment of position k itself. */
  lemma OwnSlot(s: Slots, k: int, f: Frag)
    ensures var u, t := Noted(s, k, f), Feed(s, k, f).0;
      && IdAt(u, k) == IdAt(t, k) == (if f.id != "" then f.id else IdAt(s, k))
      && NameAt(u, k) == NameAt(t, k) == (if f.name != "" then f.name else NameAt(s, k))
      && (k in t.started <==> k in s.started || (IdAt(t, k) != "" && NameAt(t, k) != ""))
      && (Ready(u, k) <==> k !in s.started && IdAt(t, k) != "" && NameAt(t, k) != "")
      && BufAt(t, k) == (if Ready(u, k) then [] else BufAt(u, k))
      && var buffers := (k !in s.started || IdAt(t, k) == "" || NameAt(t, k) == "") && f.args != "";
         BufAt(u, k) == BufAt(s, k) + if buffers then [f.args] else []
  {
  }

  lemma FeedKeepsIds(s: Slots, j: int, f: Frag, idOf: int -> string)
    requires IdsOK(s, idOf) && (f.id != "" ==> f.id == idOf(j))
    ensures IdsOK(Feed(s, j, f).0, idOf)
  {
  }

  lemma NamelessUnseen(s: Slots, j: int, f: Frag)
    ensures Declares(Feed(s, j, f).1, "") == 0 && Forwarded(Feed(s, j, f).1, "") == []
    ensures DeclaredNames(Feed(s, j, f).1, "") == []
  {
    FeedProjects(s, j, f, "");
    hide Declares, Forwarded, DeclaredNames, Noted;
  }

  lemma OtherKeepsSlot(fs: seq<(int, Frag)>, j: int, f: Frag, k: int, x: string, s: Slots, out: seq<Call>)
    requires SlotOK(fs, k, x, s, out) && j != k && (IdAt(Noted(s, j, f), j) != x || x == "")
    ensures SlotOK(fs + [(j, f)], k, x, Feed(s, j, f).0, out + Feed(s, j, f).1)
  {
    var more := Feed(s, j, f).1;
    SeenSnoc(fs, j, f, k);
    FeedProjects(s, j, f, x);
    ProjectConcat(out, more, x);
    OtherSlot(s, j, f, k);
    FeedKeepsOrder(s, j, f, out, x);
    NamelessUnseen(s, j, f);
    hide SeenId, SeenName, Fragments, Declares, Forwarded, DeclaredFirst, DeclaredNames, LastName, NameAtStart, Feed,
      Noted;
  }

  lemma OwnKeepsSlot(fs: seq<(int, Frag)>, f: Frag, k: int, x: string, s: Slots, out: seq<Call>)
    requires SlotOK(fs, k, x, s, out) && (f.id != "" ==> f.id == x) && (SeenId(fs, k) ==> x != "")
    ensures SlotOK(fs + [(k, f)], k, x, Feed(s, k, f).0, out + Feed(s, k, f).1)
  {
    hide SeenId, SeenName, Fragments, Declares, Forwarded, DeclaredFirst, DeclaredNames, LastName, NameAtStart, Feed,
      Noted;
    var more := Feed(s, k, f).1;
    SeenSnoc(fs, k, f, k);
    FeedProjects(s, k, f, x);
    ProjectConcat(out, more, x);
    OwnSlot(s, k, f);
    FeedKeepsOrder(s, k, f, out, x);
    NamelessUnseen(s, k, f);
  }

  lemma FeedKeepsSlot(fs: seq<(int, Frag)>, j: int, f: Frag, k: int, idOf: int -> string, s: Slots, out: seq<Call>)
    requires SlotOK(fs, k, idOf(k), s, out) && IdsOK(s, idOf) && StableIds(fs + [(j, f)], idOf)
    ensures SlotOK(fs + [(j, f)], k, idOf(k), Feed(s, j, f).0, out + Feed(s, j, f).1)
  {
    assert (fs + [(j, f)])[|fs|] == (j, f);
    if j != k {
      OwnSlot(s, j, f);
      assert IdAt(Noted(s, j, f), j) == idOf(j) || IdAt(Noted(s, j, f), j) == "";
      hide SlotOK, Noted, Feed;
      OtherKeepsSlot(fs, j, f, k, idOf(k), s, out);
    } else {
      assert forall i :: 0 <= i < |fs| ==> (fs + [(j, f)])[i] == fs[i];
      hide SlotOK, Noted, Feed;
      OwnKeepsSlot(fs, f, k, idOf(k), s, out);
    }
  }

  /**
    Reassembly: for every splitting and interleaving of id, name and argument
    fragments over the positions of a stream, a position that received both its id
    and its name is declared exactly once and before any of its arguments, under the
    last name it had received by the fragment that completed it, and its forwarded
    updates are exactly its fragments in order; an incomplete position forwards nothing.
  */
  lemma {:induction false} Reassembly(fs: seq<(int, Frag)>, k: int, idOf: int -> string)
    requires StableIds(fs, idOf)
    ensures var (s, out) := FeedAll(fs); SlotOK(fs, k, idOf(k), s, out) && IdsOK(s, idOf)
    decreases |fs|
  {
    if fs == [] {
    } else {
      var n := |fs| - 1;
      var (j, f) := fs[n];
      assert fs == fs[..n] + [(j, f)];
      assert StableIds(fs[..n], idOf);
      Reassembly(fs[..n], k, idOf);
      var (s, out) := FeedAll(fs[..n]);
      FeedKeepsSlot(fs[..n], j, f, k, idOf, s, out);
      FeedKeepsIds(s, j, f, idOf);
    }
  }

  // ------------------------------------------------------------ capped collection

  /** The tool results of a stream: what is kept, in order of first arrival. */
  datatype Results = Results(parts: map<string, string>, order: seq<string>, truncated: set<string>, total: nat)

  const NO_RESULTS := Results(map[], [], {}, 0)

  function Part(r: Results, id: string): string { if id in r.parts then r.parts[id] else "" }

  function Arrived(r: Results, id: string): Results {
    if id in r.parts then r else r.(parts := r.parts[id := ""], order := r.order + [id])
  }

  function Room(r: Results, id: string, perTool: nat, perStream: nat): int {
    var a, b := perTool - |Part(r, id)|, perStream - r.total;
    if b < a then b else a
  }

  function Collect1(r: Results, id: string, text: string, perTool: nat, perStream: nat): Results {
    if id == "" then r
    else
      var a := Arrived(r, id);
      var room := Room(a, id, perTool, perStream);
      if text == "" || id in a.truncated then a
      else if |text| > room then
        var kept := if room > 0 then text[..room] else "";
        Results(a.parts[id := Part(a, id) + kept], a.order, a.truncated + {id}, a.total + |kept|)
      else a.(parts := a.parts[id := Part(a, id) + text], total := a.total + |text|)
  }

  function Collect(cs: seq<(string, string)>, perTool: nat, perStream: nat): Results {
    if cs == [] then NO_RESULTS
    else Collect1(Collect(cs[..|cs| - 1], perTool, perStream), cs[|cs| - 1].0, cs[|cs| - 1].1, perTool, perStream)
  }

  /** Everything that a stream said for an id. */
  function Full(cs: seq<(string, string)>, id: string): string {
    if cs == [] then "" else Full(cs[..|cs| - 1], id) + if cs[|cs| - 1].0 == id then cs[|cs| - 1].1 else ""
  }

  /** The non-empty ids of a stream, in order of first arrival. */
  function FirstSeen(cs: seq<(string, string)>): seq<string> {
    if cs == [] then []
    else
      var front, id := FirstSeen(cs[..|cs| - 1]), cs[|cs| - 1].0;
      if id == "" || id in front then front else front + [id]
  }

  function Lengths(parts: map<string, string>, ids: seq<string>): nat
    requires forall i :: 0 <= i < |ids| ==> ids[i] in parts
  {
    if ids == [] then 0 else Lengths(parts, ids[..|ids| - 1]) + |parts[ids[|ids| - 1]]|
  }

  ghost predicate Unique(ids: seq<string>) { forall i, j :: 0 <= i < j < |ids| ==> ids[i] != ids[j] }

  ghost predicate OrderOK(cs: seq<(string, string)>, r: Results) {
    && r.order == FirstSeen(cs) && Unique(r.order)
    && (forall id :: id in r.parts <==> id in r.order)
    && (forall id :: id in r.truncated ==> id in r.parts)
    && "" !in r.parts
  }

  /** The exact text, or, when truncated, a proper prefix of it. */
  ghost predicate PartOK(cs: seq<(string, string)>, r: Results, id: string, perTool: nat)
    requires id in r.parts
  {
    && |r.parts[id]| <= perTool && r.parts[id] <= Full(cs, id)
    && (id in r.truncated <==> |r.parts[id]| < |Full(cs, id)|)
  }

  ghost predicate PartsOK(cs: seq<(string, string)>, r: Results, perTool: nat) {
    forall id :: id in r.parts ==> PartOK(cs, r, id, perTool)
  }

  ghost predicate SumOK(r: Results, perStream: nat)
    requires forall id :: id in r.order ==> id in r.parts
  {
    r.total == Lengths(r.parts, r.order) && r.total <= perStream
  }

  /** How the collected results relate to what the stream said. */
  ghost predicate CollectOK(cs: seq<(string, string)>, r: Results, perTool: nat, perStream: nat) {
    OrderOK(cs, r) && PartsOK(cs, r, perTool) && SumOK(r, perStream)
  }

  lemma {:induction false} LengthsUpdate(parts: map<string, string>, ids: seq<string>, id: string, text: string)
    requires forall i :: 0 <= i < |ids| ==> ids[i] in parts
    requires Unique(ids) && id in parts
    ensures Lengths(parts[id := text], ids) == Lengths(parts, ids) + if id in ids then |text| - |parts[id]| else 0
  {
    if ids != [] {
      var n := |ids| - 1;
      LengthsUpdate(parts, ids[..n], id, text);
      assert forall i :: 0 <= i < n ==> ids[..n][i] == ids[i];
      assert id in ids <==> id in ids[..n] || id == ids[n];
    }
  }

  lemma {:induction false} LengthsExtend(parts: map<string, string>, ids: seq<string>, id: string)
    requires (forall i :: 0 <= i < |ids| ==> ids[i] in parts) && id !in parts
    ensures Lengths(parts[id := ""], ids + [id]) == Lengths(parts, ids)
    ensures Lengths(parts[id := ""], ids) == Lengths(parts, ids)
  {
    if ids != [] {
      var n := |ids| - 1;
      LengthsExtend(parts, ids[..n], id);
    }
    assert (ids + [id])[..|ids|] == ids;
  }

  lemma FullSnoc(cs: seq<(string, string)>, id: string, text: string, x: string)
    ensures Full(cs + [(id, text)], x) == Full(cs, x) + (if id == x then text else "")
    ensures FirstSeen(cs + [(id, text)]) ==
              (if id == "" || id in FirstSeen(cs) then FirstSeen(cs) else FirstSeen(cs) + [id])
  {
    assert (cs + [(id, text)])[..|cs|] == cs;
  }

  lemma {:induction false} UnseenIsSilent(cs: seq<(string, string)>, id: string)
    requires id != "" && id !in FirstSeen(cs)
    ensures Full(cs, id) == ""
  {
    if cs != [] {
      UnseenIsSilent(cs[..|cs| - 1], id);
    }
  }

  lemma ArrivedKeepsParts(cs: seq<(string, string)>, r: Results, id: string, perTool: nat)
    requires OrderOK(cs, r) && PartsOK(cs, r, perTool) && id != ""
    ensures PartsOK(cs + [(id, "")], Arrived(r, id), perTool)
  {
    var a, all := Arrived(r, id), cs + [(id, "")];
    if id !in r.parts {
      UnseenIsSilent(cs, id);
    }
    hide Full, FirstSeen, Unique;
    forall x | x in a.parts ensures PartOK(all, a, x, perTool) {
      FullSnoc(cs, id, "", x);
      assert Full(cs, x) + "" == Full(cs, x);
      assert Full(all, x) == Full(cs, x);
      assert x in r.parts ==> PartOK(cs, r, x, perTool) && a.parts[x] == r.parts[x];
    }
  }

  lemma ArrivedKeeps(cs: seq<(string, string)>, r: Results, id: string, perTool: nat, perStream: nat)
    requires CollectOK(cs, r, perTool, perStream) && id != ""
    ensures CollectOK(cs + [(id, "")], Arrived(r, id), perTool, perStream)
  {
    hide Full, FirstSeen, Lengths, PartOK, PartsOK;
    FullSnoc(cs, id, "", id);
    ArrivedKeepsParts(cs, r, id, perTool);
    if id !in r.parts {
      LengthsExtend(r.parts, r.order, id);
    }
  }

  /** The results after a piece of text was kept, and perhaps cut. */
  function Kept(a: Results, id: string, kept: string, cut: bool): Results {
    var truncated := if cut then a.truncated + {id} else a.truncated;
    Results(a.parts[id := Part(a, id) + kept], a.order, truncated, a.total + |kept|)
  }

  lemma PrefixGrows(part: string, full: string, kept: string, text: string, cut: bool)
    requires part <= full && kept <= text && (cut ==> kept == "") && (!cut ==> part == full)
    ensures part + kept <= full + text
  {
    if cut {
      assert part + kept == part;
    }
  }

  lemma KeptKeepsParts(cs: seq<(string, string)>, a: Results, id: string, text: string, kept: string, cut: bool,
                       perTool: nat)
    requires PartsOK(cs + [(id, "")], a, perTool) && id in a.parts && text != ""
    requires kept <= text && |Part(a, id)| + |kept| <= perTool
    requires id in a.truncated ==> kept == "" && cut
    requires id !in a.truncated ==> (cut <==> |kept| < |text|)
    ensures PartsOK(cs + [(id, text)], Kept(a, id, kept, cut), perTool)
  {
    hide Full;
    var r := Kept(a, id, kept, cut);
    forall x | x in r.parts ensures PartOK(cs + [(id, text)], r, x, perTool) {
      assert PartOK(cs + [(id, "")], a, x, perTool);
      FullSnoc(cs, id, text, x);
      FullSnoc(cs, id, "", x);
      if x == id {
        PrefixGrows(a.parts[id], Full(cs, id), kept, text, id in a.truncated);
      }
    }
  }

  lemma KeptKeepsOrder(cs: seq<(string, string)>, a: Results, id: string, text: string, kept: string, cut: bool)
    requires OrderOK(cs + [(id, "")], a) && id in a.parts
    ensures OrderOK(cs + [(id, text)], Kept(a, id, kept, cut))
  {
    FullSnoc(cs, id, text, id);
    FullSnoc(cs, id, "", id);
    hide Full, FirstSeen, Unique;
  }

  lemma KeptKeepsSum(cs: seq<(string, string)>, a: Results, id: string, kept: string, cut: bool, perStream: nat)
    requires OrderOK(cs + [(id, "")], a) && SumOK(a, perStream) && id in a.parts && a.total + |kept| <= perStream
    ensures forall x :: x in Kept(a, id, kept, cut).order ==> x in Kept(a, id, kept, cut).parts
    ensures SumOK(Kept(a, id, kept, cut), perStream)
  {
    LengthsUpdate(a.parts, a.order, id, Part(a, id) + kept);
    hide FirstSeen, Unique, Lengths;
  }

  lemma KeptKeeps(cs: seq<(string, string)>, a: Results, id: string, text: string, kept: string, cut: bool,
                  perTool: nat, perStream: nat)
    requires CollectOK(cs + [(id, "")], a, perTool, perStream) && id in a.parts && text != ""
    requires kept <= text && |Part(a, id)| + |kept| <= perTool && a.total + |kept| <= perStream
    requires id in a.truncated ==> kept == "" && cut
    requires id !in a.truncated ==> (cut <==> |kept| < |text|)
    ensures CollectOK(cs + [(id, text)], Kept(a, id, kept, cut), perTool, perStream)
  {
    hide Full, FirstSeen, PartOK, PartsOK, OrderOK, SumOK;
    KeptKeepsParts(cs, a, id, text, kept, cut, perTool);
    KeptKeepsOrder(cs, a, id, text, kept, cut);
    KeptKeepsSum(cs, a, id, kept, cut, perStream);
  }

  function Cut(text: string, room: int): (kept: string)
    ensures kept <= text && |kept| == if |text| <= room then |text| else if room > 0 then room else 0
  {
    if |text| <= room then text else if room > 0 then text[..room] else ""
  }

  lemma Collect1Is(r: Results, id: string, text: string, perTool: nat, perStream: nat)
    requires id != ""
    ensures var a := Arrived(r, id); var kept := Cut(text, Room(a, id, perTool, perStream));
      Collect1(r, id, text, perTool, perStream) ==
        if text == "" || id in a.truncated then a else Kept(a, id, kept, |kept| < |text|)
  {
    hide Arrived;
    var a := Arrived(r, id);
    var kept := Cut(text, Room(a, id, perTool, perStream));
    assert text != "" && |text| > Room(a, id, perTool, perStream) ==> |kept| < |text|;
  }

  lemma KeptNothing(a: Results, id: string)
    requires id in a.parts && id in a.truncated
    ensures Kept(a, id, "", true) == a
  {
    assert Part(a, id) + "" == Part(a, id);
    assert a.parts[id := Part(a, id) + ""] == a.parts;
    assert a.truncated + {id} == a.truncated;
  }

  lemma ArrivedPart(cs: seq<(string, string)>, r: Results, id: string, perTool: nat, perStream: nat)
    requires CollectOK(cs, r, perTool, perStream) && id != ""
    ensures CollectOK(cs + [(id, "")], Arrived(r, id), perTool, perStream)
    ensures var a := Arrived(r, id);
      id in a.parts && PartOK(cs + [(id, "")], a, id, perTool) && |Part(a, id)| <= perTool && a.total <= perStream
  {
    ArrivedKeeps(cs, r, id, perTool, perStream);
    hide Full, FirstSeen, Lengths, Unique;
  }

  lemma NamelessKeeps(cs: seq<(string, string)>, r: Results, text: string, perTool: nat, perStream: nat)
    requires CollectOK(cs, r, perTool, perStream)
    ensures CollectOK(cs + [("", text)], r, perTool, perStream)
  {
    var all := cs + [("", text)];
    FullSnoc(cs, "", text, "");
    hide Full, FirstSeen, Lengths;
    forall x | x in r.parts ensures PartOK(all, r, x, perTool) {
      FullSnoc(cs, "", text, x);
      assert PartOK(cs, r, x, perTool);
    }
  }

  lemma Collect1Keeps(cs: seq<(string, string)>, r: Results, id: string, text: string, perTool: nat, perStream: nat)
    requires CollectOK(cs, r, perTool, perStream)
    ensures CollectOK(cs + [(id, text)], Collect1(r, id, text, perTool, perStream), perTool, perStream)
  {
    if id == "" {
      NamelessKeeps(cs, r, text, perTool, perStream);
    } else {
      var a := Arrived(r, id);
      ArrivedPart(cs, r, id, perTool, perStream);
      Collect1Is(r, id, text, perTool, perStream);
      hide CollectOK, PartOK, Collect1, Arrived;
      if text != "" && id in a.truncated {
        KeptKeeps(cs, a, id, text, "", true, perTool, perStream);
        KeptNothing(a, id);
      } else if text != "" {
        var kept := Cut(text, Room(a, id, perTool, perStream));
        KeptKeeps(cs, a, id, text, kept, |kept| < |text|, perTool, perStream);
      }
    }
  }

  /** A result is cut only where its own cap or the stream's is used up. */
  ghost predicate CutsAreFull(r: Results, perTool: nat, perStream: nat) {
    forall id :: id in r.truncated ==> |Part(r, id)| == perTool || r.total == perStream
  }

  lemma KeptFills(a: Results, id: string, text: string, perTool: nat, perStream: nat)
    requires CutsAreFull(a, perTool, perStream) && id in a.parts && |Part(a, id)| <= perTool && a.total <= perStream
    ensures id !in a.truncated ==>
      var kept := Cut(text, Room(a, id, perTool, perStream));
      CutsAreFull(Kept(a, id, kept, |kept| < |text|), perTool, perStream)
  {
    var kept := Cut(text, Room(a, id, perTool, perStream));
    hide Cut;
    if id !in a.truncated {
      var u := Kept(a, id, kept, |kept| < |text|);
      forall x | x in u.truncated ensures |Part(u, x)| == perTool || u.total == perStream {
        assert x != id ==> x in a.truncated && Part(u, x) == Part(a, x);
      }
    }
  }

  lemma Collect1Fills(cs: seq<(string, string)>, r: Results, id: string, text: string, perTool: nat, perStream: nat)
    requires CollectOK(cs, r, perTool, perStream) && CutsAreFull(r, perTool, perStream)
    ensures CutsAreFull(Collect1(r, id, text, perTool, perStream), perTool, perStream)
  {
    if id != "" {
      ArrivedPart(cs, r, id, perTool, perStream);
      Collect1Is(r, id, text, perTool, perStream);
      assert forall x :: x in r.truncated ==> x in r.parts;
      hide CollectOK, PartOK, Collect1;
      var a := Arrived(r, id);
      assert CutsAreFull(a, perTool, perStream);
      hide Arrived;
      KeptFills(a, id, text, perTool, perStream);
    }
  }

  /**
    Capped buffering: the ids are in order of first arrival; each holds its exact
    text or a proper prefix; no id exceeds its cap, the running total is the sum
    of the parts and never exceeds the stream's cap, and nothing is cut while both
    caps have room.
  */
  lemma {:induction false} CollectIsCapped(cs: seq<(string, string)>, perTool: nat, perStream: nat)
    ensures CollectOK(cs, Collect(cs, perTool, perStream), perTool, perStream)
    ensures CutsAreFull(Collect(cs, perTool, perStream), perTool, perStream)
    decreases |cs|
  {
    if cs != [] {
      var n := |cs| - 1;
      CollectIsCapped(cs[..n], perTool, perStream);
      assert cs == cs[..n] + [(cs[n].0, cs[n].1)];
      hide CollectOK, CutsAreFull, Collect1;
      Collect1Keeps(cs[..n], Collect(cs[..n], perTool, perStream), cs[n].0, cs[n].1, perTool, perStream);
      Collect1Fills(cs[..n], Collect(cs[..n], perTool, perStream), cs[n].0, cs[n].1, perTool, perStream);
    }
  }

  /** All result bytes of a stream. */
  function AllBytes(cs: seq<(string, string)>): nat {
    if cs == [] then 0 else AllBytes(cs[..|cs| - 1]) + if cs[|cs| - 1].0 == "" then 0 else |cs[|cs| - 1].1|
  }

  ghost predicate Fits(cs: seq<(string, string)>, perTool: nat, perStream: nat) {
    (forall id :: id != "" ==> |Full(cs, id)| <= perTool) && AllBytes(cs) <= perStream
  }

  lemma FitsSnoc(cs: seq<(string, string)>, id: string, text: string, perTool: nat, perStream: nat)
    ensures Fits(cs + [(id, text)], perTool, perStream) ==> Fits(cs, perTool, perStream)
    ensures Fits(cs, perTool, perStream) ==> (Fits(cs + [(id, text)], perTool, perStream) <==>
      id == "" || (|Full(cs, id)| + |text| <= perTool && AllBytes(cs) + |text| <= perStream))
    ensures AllBytes(cs + [(id, text)]) == AllBytes(cs) + if id == "" then 0 else |text|
  {
    var all := cs + [(id, text)];
    assert all[..|cs|] == cs;
    forall x ensures |Full(all, x)| == |Full(cs, x)| + if x == id then |text| else 0 {
      FullSnoc(cs, id, text, x);
    }
    hide Full;
  }

  lemma OneMore(cs: seq<(string, string)>, r: Results, id: string, text: string, perTool: nat, perStream: nat)
    requires CollectOK(cs, r, perTool, perStream) && (r.truncated == {} ==> r.total == AllBytes(cs))
    ensures var u := Collect1(r, id, text, perTool, perStream);
      && (u.truncated == {} <==>
          && r.truncated == {}
          && (id == "" || text == "" || (|Full(cs, id)| + |text| <= perTool && AllBytes(cs) + |text| <= perStream)))
      && (u.truncated == {} && id != "" ==> u.total == AllBytes(cs) + |text|) && (id == "" ==> u == r)
  {
    hide Full, AllBytes, Lengths, FirstSeen, Unique;
    if id != "" && r.truncated == {} {
      if id in r.parts {
        assert PartOK(cs, r, id, perTool);
      } else {
        UnseenIsSilent(cs, id);
      }
    }
  }

  /** Nothing is truncated iff every id fits its cap and all of them fit the stream's. */
  lemma {:induction false} NothingTruncatedIff(cs: seq<(string, string)>, perTool: nat, perStream: nat)
    ensures var r := Collect(cs, perTool, perStream);
      && (r.truncated == {} <==> Fits(cs, perTool, perStream))
      && (r.truncated == {} ==> r.total == AllBytes(cs))
    decreases |cs|
  {
    if cs != [] {
      var n := |cs| - 1;
      var (id, text) := cs[n];
      var front := cs[..n];
      assert cs == front + [(id, text)];
      NothingTruncatedIff(front, perTool, perStream);
      CollectIsCapped(front, perTool, perStream);
      FitsSnoc(front, id, text, perTool, perStream);
      OneMore(front, Collect(front, perTool, perStream), id, text, perTool, perStream);
    }
  }

  // --------------------------------------------------------------- end of stream

  function Terminals(r: Results, ids: seq<string>, declared: set<string>, failures: set<string>): seq<Call> {
    if ids == [] then []
    else
      var front, id := Terminals(r, ids[..|ids| - 1], declared, failures), ids[|ids| - 1];
      if id in declared
      then front + [Terminal(id, Part(r, id) + if id in r.truncated then TRUNCATED else "", id in failures)] else front
  }

  function Keep(ids: seq<string>, declared: set<string>): seq<string> {
    if ids == [] then []
    else
      var front, id := Keep(ids[..|ids| - 1], declared), ids[|ids| - 1];
      if id in declared then front + [id] else front
  }

  /**
    At the end of a stream every declared id that was seen gets exactly one
    terminal, in order of first arrival: its exact text, or, when it was cut, the
    proper prefix that was kept, and the marker.
  */
  lemma {:induction false} TerminalsAreTheResults(cs: seq<(string, string)>, ids: seq<string>, declared: set<string>,
                                                  failures: set<string>, perTool: nat, perStream: nat)
    requires ids <= FirstSeen(cs)
    ensures var r := Collect(cs, perTool, perStream); var ts := Terminals(r, ids, declared, failures);
      var kept := Keep(ids, declared);
      && |ts| == |kept|
      && forall i :: 0 <= i < |ts| ==>
           && ts[i].Terminal? && ts[i].id == kept[i] && (ts[i].failed <==> kept[i] in failures)
           && kept[i] in r.parts
           && (kept[i] !in r.truncated ==> ts[i].text == Full(cs, kept[i]))
           && (kept[i] in r.truncated ==>
                 r.parts[kept[i]] < Full(cs, kept[i]) && ts[i].text == r.parts[kept[i]] + TRUNCATED)
    decreases |ids|
  {
    if ids != [] {
      var n := |ids| - 1;
      TerminalsAreTheResults(cs, ids[..n], declared, failures, perTool, perStream);
      CollectIsCapped(cs, perTool, perStream);
      var r := Collect(cs, perTool, perStream);
      var id := ids[n];
      assert FirstSeen(cs)[n] == id;
      assert id in r.order && id in r.parts;
      assert PartOK(cs, r, id, perTool);
      hide Collect, Full, FirstSeen, Lengths, Unique;
      if id in r.truncated {
        assert Part(r, id) == Full(cs, id)[..|Part(r, id)|];
      }
    }
  }

  // ---------------------------------------------------------------- whole streams

  function Key(f: Frag, pos: nat): int { if f.index.Some? then f.index.value else pos }

  /** The state of an adapter and the handler calls that it has made. */
  datatype State = State(slots: Slots, declared: set<string>, failures: set<string>, calls: seq<Call>)

  function ForwardFrag(st: State, k: int, f: Frag): State {
    var (t, more) := Feed(st.slots, k, f);
    st.(slots := t, calls := st.calls + more,
        declared := if Ready(Noted(st.slots, k, f), k) then st.declared + {IdAt(t, k)} else st.declared)
  }

  function ForwardFrags(st: State, frags: seq<Frag>, n: nat): State
    requires n <= |frags|
  {
    if n == 0 then st else ForwardFrag(ForwardFrags(st, frags, n - 1), Key(frags[n - 1], n - 1), frags[n - 1])
  }

  function ForwardText(st: State, reasoning: string, content: string): State {
    st.(calls := st.calls + (if reasoning != "" then [Thought(reasoning)] else []) +
        (if content != "" then [Say(content)] else []))
  }

  function ForwardChunk(st: State, c: Chunk): State
    requires c.Assist?
  {
    ForwardFrags(ForwardText(st, c.reasoning, c.content), c.frags, |c.frags|)
  }

  /** A stream so far: the forwarded chunks, and the results that wait for its end. */
  function ForwardAll(st: State, chunks: seq<Chunk>): (State, Results) {
    if chunks == [] then (st.(slots := EMPTY), NO_RESULTS)
    else
      var (s, r) := ForwardAll(st, chunks[..|chunks| - 1]);
      match chunks[|chunks| - 1]
      case ToolText(id, text) => (s, Collect1(r, id, text, PER_TOOL, PER_STREAM))
      case Assist(_, _, _) => (ForwardChunk(s, chunks[|chunks| - 1]), r)
  }

  function EmitTerminal(st: State, r: Results, id: string): State {
    if id !in st.declared then st
    else st.(calls := st.calls +
             [Terminal(id, Part(r, id) + if id in r.truncated then TRUNCATED else "", id in st.failures)],
             failures := st.failures - {id})
  }

  function EmitAll(st: State, r: Results, ids: seq<string>): State {
    if ids == [] then st else EmitTerminal(EmitAll(st, r, ids[..|ids| - 1]), r, ids[|ids| - 1])
  }

  /** A stream that ends normally delivers its results; one that breaks does not. */
  function ForwardStream(st: State, chunks: seq<Chunk>, broken: bool): State {
    var (s, r) := ForwardAll(st, chunks);
    if broken then s else EmitAll(s, r, r.order)
  }

  // ------------------------------------------------- streams as the two folds above

  function ToolTexts(chunks: seq<Chunk>): seq<(string, string)> {
    if chunks == [] then []
    else
      var c := chunks[|chunks| - 1];
      ToolTexts(chunks[..|chunks| - 1]) + if c.ToolText? then [(c.id, c.text)] else []
  }

  function Keyed(frags: seq<Frag>, n: nat): seq<(int, Frag)>
    requires n <= |frags|
  {
    if n == 0 then [] else Keyed(frags, n - 1) + [(Key(frags[n - 1], n - 1), frags[n - 1])]
  }

  function AllFrags(chunks: seq<Chunk>): seq<(int, Frag)> {
    if chunks == [] then []
    else
      var c := chunks[|chunks| - 1];
      AllFrags(chunks[..|chunks| - 1]) + if c.Assist? then Keyed(c.frags, |c.frags|) else []
  }

  /** The tool-call calls among a list of handler calls. */
  function ToolCalls(calls: seq<Call>): seq<Call> {
    if calls == [] then []
    else
      var front, c := ToolCalls(calls[..|calls| - 1]), calls[|calls| - 1];
      front + if c.Declare? || c.Args? then [c] else []
  }

  lemma {:induction false} ToolCallsConcat(a: seq<Call>, b: seq<Call>)
    ensures ToolCalls(a + b) == ToolCalls(a) + ToolCalls(b)
  {
    if b == [] {
      assert a + b == a;
    } else {
      var ab := a + b;
      assert ab[..|ab| - 1] == a + b[..|b| - 1];
      ToolCallsConcat(a, b[..|b| - 1]);
    }
  }

  lemma {:induction false} AllToolCalls(calls: seq<Call>)
    requires forall i :: 0 <= i < |calls| ==> calls[i].Declare? || calls[i].Args?
    ensures ToolCalls(calls) == calls
  {
    if calls != [] {
      AllToolCalls(calls[..|calls| - 1]);
    }
  }

  /** What the fragments of the stream have done to the adapter. */
  ghost predicate FollowsFrags(st: State, s: State, fs: seq<(int, Frag)>) {
    && s.slots == FeedAll(fs).0
    && |st.calls| <= |s.calls| && s.calls[..|st.calls|] == st.calls
    && ToolCalls(s.calls[|st.calls|..]) == FeedAll(fs).1
  }

  lemma FeedMakesToolCalls(s: Slots, k: int, f: Frag)
    ensures forall i :: 0 <= i < |Feed(s, k, f).1| ==> Feed(s, k, f).1[i].Declare? || Feed(s, k, f).1[i].Args?
  {
    hide Noted;
  }

  lemma MoreCalls(old': seq<Call>, calls: seq<Call>, more: seq<Call>)
    requires |old'| <= |calls| && calls[..|old'|] == old'
    ensures (calls + more)[..|old'|] == old'
    ensures ToolCalls((calls + more)[|old'|..]) == ToolCalls(calls[|old'|..]) + ToolCalls(more)
  {
    hide ToolCalls;
    assert (calls + more)[|old'|..] == calls[|old'|..] + more;
    ToolCallsConcat(calls[|old'|..], more);
  }

  lemma FeedAllSnoc(fs: seq<(int, Frag)>, k: int, f: Frag)
    ensures var (s, out) := FeedAll(fs); var (t, more) := Feed(s, k, f); FeedAll(fs + [(k, f)]) == (t, out + more)
  {
    assert (fs + [(k, f)])[..|fs|] == fs;
    hide Feed;
  }

  lemma FollowFrag(st: State, s: State, fs: seq<(int, Frag)>, k: int, f: Frag)
    requires FollowsFrags(st, s, fs)
    ensures FollowsFrags(st, ForwardFrag(s, k, f), fs + [(k, f)])
  {
    hide FeedAll, Feed, Noted, ToolCalls;
    var more := Feed(s.slots, k, f).1;
    FeedMakesToolCalls(s.slots, k, f);
    FeedAllSnoc(fs, k, f);
    MoreCalls(st.calls, s.calls, more);
    AllToolCalls(more);
  }

  lemma {:induction false} FollowFrags(st: State, s: State, fs: seq<(int, Frag)>, frags: seq<Frag>, n: nat)
    requires FollowsFrags(st, s, fs) && n <= |frags|
    ensures FollowsFrags(st, ForwardFrags(s, frags, n), fs + Keyed(frags, n))
    decreases n
  {
    hide FollowsFrags, ForwardFrag;
    if n == 0 {
      assert fs + [] == fs;
    } else {
      FollowFrags(st, s, fs, frags, n - 1);
      FollowFrag(st, ForwardFrags(s, frags, n - 1), fs + Keyed(frags, n - 1), Key(frags[n - 1], n - 1), frags[n - 1]);
      var a, b, c := fs, Keyed(frags, n - 1), [(Key(frags[n - 1], n - 1), frags[n - 1])];
      assert (a + b) + c == a + (b + c);
    }
  }

  lemma {:induction false} NoToolCalls(calls: seq<Call>)
    requires forall i :: 0 <= i < |calls| ==> !calls[i].Declare? && !calls[i].Args?
    ensures ToolCalls(calls) == []
  {
    if calls != [] {
      NoToolCalls(calls[..|calls| - 1]);
    }
  }

  lemma FollowText(st: State, s: State, fs: seq<(int, Frag)>, reasoning: string, content: string)
    requires FollowsFrags(st, s, fs)
    ensures FollowsFrags(st, ForwardText(s, reasoning, content), fs)
  {
    var a := if reasoning != "" then [Thought(reasoning)] else [];
    var b := if content != "" then [Say(content)] else [];
    hide FeedAll, ToolCalls;
    assert s.calls + a + b == s.calls + (a + b);
    MoreCalls(st.calls, s.calls, a + b);
    NoToolCalls(a + b);
  }

  /**
    A stream's tool calls are those of its fragments alone, and its collected
    results those of its tool chunks alone, however they interleave; buffers of an
    earlier stream play no part.
  */
  lemma {:induction false} StreamIsItsParts(st: State, chunks: seq<Chunk>)
    ensures var (s, r) := ForwardAll(st, chunks);
      FollowsFrags(st, s, AllFrags(chunks)) && r == Collect(ToolTexts(chunks), PER_TOOL, PER_STREAM)
    decreases |chunks|
  {
    hide ForwardFrags, ForwardText, Keyed, Collect1;
    if chunks == [] {
      assert st.calls[|st.calls|..] == [];
    } else {
      var front, c := chunks[..|chunks| - 1], chunks[|chunks| - 1];
      StreamIsItsParts(st, front);
      var (s, r) := ForwardAll(st, front);
      hide FollowsFrags;
      if c.ToolText? {
        var cs := ToolTexts(front);
        assert (cs + [(c.id, c.text)])[..|cs|] == cs;
        assert AllFrags(chunks) == AllFrags(front) + [] == AllFrags(front);
      } else {
        FollowText(st, s, AllFrags(front), c.reasoning, c.content);
        FollowFrags(st, ForwardText(s, c.reasoning, c.content), AllFrags(front), c.frags, |c.frags|);
        assert ToolTexts(chunks) == ToolTexts(front) + [] == ToolTexts(front);
      }
    }
  }

  lemma {:induction false} FirstSeenUnique(cs: seq<(string, string)>)
    ensures Unique(FirstSeen(cs)) && "" !in FirstSeen(cs)
  {
    if cs != [] {
      FirstSeenUnique(cs[..|cs| - 1]);
    }
  }

  /** Emission in order is the list of terminals; each failure is consumed once. */
  lemma {:induction false} EmitsTerminals(st: State, r: Results, ids: seq<string>)
    requires Unique(ids)
    ensures var u := EmitAll(st, r, ids);
      && u.calls == st.calls + Terminals(r, ids, st.declared, st.failures)
      && u.declared == st.declared && u.slots == st.slots
      && forall x :: x in u.failures <==> x in st.failures && !(x in ids && x in st.declared)
  {
    if ids != [] {
      var n := |ids| - 1;
      EmitsTerminals(st, r, ids[..n]);
      assert ids[n] !in ids[..n];
      assert ids == ids[..n] + [ids[n]];
    }
  }

  /**
    A stream that ends normally: its tool calls are the reassembled ones, then
    come the terminals, one for each declared id that was seen, and the failures of
    exactly those ids are consumed. A broken stream delivers none.
  */
  lemma StreamDelivers(st: State, chunks: seq<Chunk>)
    ensures var (s, r) := ForwardAll(st, chunks); var u := ForwardStream(st, chunks, false);
      && FollowsFrags(st, s, AllFrags(chunks))
      && u.calls == s.calls + Terminals(Collect(ToolTexts(chunks), PER_TOOL, PER_STREAM),
                                        FirstSeen(ToolTexts(chunks)), s.declared, s.failures)
      && (forall x :: x in u.failures <==> x in s.failures && !(x in FirstSeen(ToolTexts(chunks)) && x in s.declared))
      && ForwardStream(st, chunks, true).calls == s.calls
  {
    hide FollowsFrags, ForwardAll, Terminals, EmitAll, Collect, FirstSeen;
    StreamIsItsParts(st, chunks);
    CollectIsCapped(ToolTexts(chunks), PER_TOOL, PER_STREAM);
    var (s, r) := ForwardAll(st, chunks);
    EmitsTerminals(s, r, r.order);
  }

  // ------------------------------------------------------------------- the voices

  /** What a list of handler calls says, joined. */
  function SaidIn(calls: seq<Call>): string {
    if calls == [] then ""
    else
      var c := calls[|calls| - 1];
      SaidIn(calls[..|calls| - 1]) + if c.Say? then c.text else ""
  }

  function ThoughtIn(calls: seq<Call>): string {
    if calls == [] then ""
    else
      var c := calls[|calls| - 1];
      ThoughtIn(calls[..|calls| - 1]) + if c.Thought? then c.text else ""
  }

  /** The text of a stream. */
  function Contents(chunks: seq<Chunk>): string {
    if chunks == [] then ""
    else
      var c := chunks[|chunks| - 1];
      Contents(chunks[..|chunks| - 1]) + if c.Assist? then c.content else ""
  }

  /** The reasoning of a stream. */
  function Reasonings(chunks: seq<Chunk>): string {
    if chunks == [] then ""
    else
      var c := chunks[|chunks| - 1];
      Reasonings(chunks[..|chunks| - 1]) + if c.Assist? then c.reasoning else ""
  }

  predicate Silent(calls: seq<Call>) {
    forall i :: 0 <= i < |calls| ==> !calls[i].Say? && !calls[i].Thought?
  }

  lemma {:induction false} VoicesConcat(a: seq<Call>, b: seq<Call>)
    ensures SaidIn(a + b) == SaidIn(a) + SaidIn(b) && ThoughtIn(a + b) == ThoughtIn(a) + ThoughtIn(b)
  {
    if b == [] {
      assert a + b == a;
    } else {
      var ab := a + b;
      assert ab[..|ab| - 1] == a + b[..|b| - 1];
      VoicesConcat(a, b[..|b| - 1]);
    }
  }

  lemma {:induction false} SilentCalls(calls: seq<Call>)
    requires Silent(calls)
    ensures SaidIn(calls) == "" && ThoughtIn(calls) == ""
  {
    if calls != [] {
      SilentCalls(calls[..|calls| - 1]);
    }
  }

  lemma FragIsSilent(st: State, k: int, f: Frag)
    ensures var u := ForwardFrag(st, k, f);
      |st.calls| <= |u.calls| && u.calls[..|st.calls|] == st.calls && Silent(u.calls[|st.calls|..])
  {
    FeedMakesToolCalls(st.slots, k, f);
    hide Feed, Noted;
  }

  lemma {:induction false} FragsAreSilent(st: State, frags: seq<Frag>, n: nat)
    requires n <= |frags|
    ensures var u := ForwardFrags(st, frags, n);
      |st.calls| <= |u.calls| && u.calls[..|st.calls|] == st.calls && Silent(u.calls[|st.calls|..])
    decreases n
  {
    hide ForwardFrag;
    if n > 0 {
      FragsAreSilent(st, frags, n - 1);
      FragIsSilent(ForwardFrags(st, frags, n - 1), Key(frags[n - 1], n - 1), frags[n - 1]);
    }
  }

  /** A chunk forwards its reasoning, then its text, and then only tool calls. */
  lemma ChunkSpeaksFirst(st: State, c: Chunk)
    requires c.Assist?
    ensures var u := ForwardChunk(st, c);
      var front := st.calls + (if c.reasoning == "" then [] else [Thought(c.reasoning)])
                   + (if c.content == "" then [] else [Say(c.content)]);
      |front| <= |u.calls| && u.calls[..|front|] == front && Silent(u.calls[|front|..])
  {
    FragsAreSilent(ForwardText(st, c.reasoning, c.content), c.frags, |c.frags|);
    hide ForwardFrags;
    assert ForwardText(st, c.reasoning, c.content).calls ==
             st.calls + (if c.reasoning == "" then [] else [Thought(c.reasoning)])
             + (if c.content == "" then [] else [Say(c.content)]);
  }

  lemma VoiceOfOne(c: Call)
    ensures SaidIn([c]) == (if c.Say? then c.text else "") && ThoughtIn([c]) == (if c.Thought? then c.text else "")
    ensures SaidIn([]) == "" && ThoughtIn([]) == ""
  {
    assert [c][..0] == [];
  }

  lemma PartVoices(calls: seq<Call>, c: Call)
    requires c.Say? || c.Thought?
    ensures var u := calls + if c.text == "" then [] else [c];
      && SaidIn(u) == SaidIn(calls) + (if c.Say? then c.text else "")
      && ThoughtIn(u) == ThoughtIn(calls) + (if c.Thought? then c.text else "")
  {
    VoiceOfOne(c);
    hide SaidIn, ThoughtIn;
    VoicesConcat(calls, if c.text == "" then [] else [c]);
  }

  lemma ChunkVoices(st: State, c: Chunk)
    requires c.Assist?
    ensures var u := ForwardChunk(st, c);
      SaidIn(u.calls) == SaidIn(st.calls) + c.content && ThoughtIn(u.calls) == ThoughtIn(st.calls) + c.reasoning
  {
    hide *;
    var u := ForwardChunk(st, c);
    ChunkSpeaksFirst(st, c);
    var a := st.calls + if c.reasoning == "" then [] else [Thought(c.reasoning)];
    var front := a + if c.content == "" then [] else [Say(c.content)];
    PartVoices(st.calls, Thought(c.reasoning));
    PartVoices(a, Say(c.content));
    assert u.calls == front + u.calls[|front|..];
    VoicesConcat(front, u.calls[|front|..]);
    SilentCalls(u.calls[|front|..]);
  }

  lemma {:induction false} VoicesOfAll(st: State, chunks: seq<Chunk>)
    ensures var s := ForwardAll(st, chunks).0;
      && SaidIn(s.calls) == SaidIn(st.calls) + Contents(chunks)
      && ThoughtIn(s.calls) == ThoughtIn(st.calls) + Reasonings(chunks)
  {
    hide ForwardChunk, Collect1, SaidIn, ThoughtIn;
    if chunks != [] {
      var n := |chunks| - 1;
      VoicesOfAll(st, chunks[..n]);
      if chunks[n].Assist? {
        ChunkVoices(ForwardAll(st, chunks[..n]).0, chunks[n]);
      }
    }
  }

  lemma {:induction false} TerminalsAreSilent(r: Results, ids: seq<string>, declared: set<string>,
                                              failures: set<string>)
    ensures Silent(Terminals(r, ids, declared, failures))
  {
    if ids != [] {
      TerminalsAreSilent(r, ids[..|ids| - 1], declared, failures);
    }
  }

  /** A stream, broken or not, says its text and its reasoning, whole and in order. */
  lemma VoicesOfStream(st: State, chunks: seq<Chunk>, broken: bool)
    ensures var u := ForwardStream(st, chunks, broken);
      && SaidIn(u.calls) == SaidIn(st.calls) + Contents(chunks)
      && ThoughtIn(u.calls) == ThoughtIn(st.calls) + Reasonings(chunks)
  {
    VoicesOfAll(st, chunks);
    StreamDelivers(st, chunks);
    var s := ForwardAll(st, chunks).0;
    var r, ids := Collect(ToolTexts(chunks), PER_TOOL, PER_STREAM), FirstSeen(ToolTexts(chunks));
    hide ForwardAll, ForwardStream, Terminals, SaidIn, ThoughtIn, Collect, FirstSeen, FollowsFrags, Silent;
    TerminalsAreSilent(r, ids, s.declared, s.failures);
    SilentCalls(Terminals(r, ids, s.declared, s.failures));
    VoicesConcat(s.calls, Terminals(r, ids, s.declared, s.failures));
  }
}
