/**
  Crash recovery of a session's history: the one-pass orphan scan, the
  truncation that BeginRun performs before appending the new user messages, and
  the view the model is given afterwards.
*/
module Recovery {
  import opened Wrappers
  import opened Messages
  import opened StoreModel
  import opened StoreTheorems

  // ------------------------------------------------------ the quadratic reading

  predicate Declares(m: Message, id: string) {
    m.role == Assistant && id != "" && exists k :: 0 <= k < |m.toolCalls| && m.toolCalls[k].id == id
  }

  predicate Answers(m: Message, id: string) { m.role == Tool && m.toolCallID == id }

  predicate AnsweredBetween(ms: seq<Message>, i: int, j: int, id: string) {
    exists k :: 0 <= k < |ms| && i < k < j && Answers(ms[k], id)
  }

  /** An assistant row with a declared id that no later row answers. */
  ghost predicate Orphan(ms: seq<Message>, i: nat) {
    i < |ms| && exists id :: Declares(ms[i], id) && !AnsweredBetween(ms, i, |ms|, id)
  }

  ghost predicate PairedFrom(ms: seq<Message>, start: nat) {
    forall i :: start <= i < |ms| ==> !Orphan(ms, i)
  }

  /** No id of the scan window is declared again before it was answered. */
  ghost predicate NoOverlap(ms: seq<Message>, start: nat) {
    forall i, j, id :: start <= i < j < |ms| && Declares(ms[i], id) && Declares(ms[j], id) ==>
      AnsweredBetween(ms, i, j, id)
  }

  /** The scan starts at the summary index; an impossible index means a full scan. */
  function StartIndex(summary: Option<int>, n: nat): (s: nat)
    ensures s <= n
    ensures summary.Some? && 0 <= summary.value <= n ==> s == summary.value
    ensures summary.None? || summary.value < 0 || summary.value > n ==> s == 0
  {
    match summary
    case None => 0
    case Some(i) => if i < 0 || i > n then 0 else i
  }

  // ------------------------------------------------------------ the linear scan

  datatype Entry = Entry(pos: nat, missed: set<string>)

  function DeclaredIds(calls: seq<ToolCall>): set<string> {
    set k | 0 <= k < |calls| && calls[k].id != "" :: calls[k].id
  }

  method Register(calls: seq<ToolCall>, byID: map<string, nat>, k: nat)
    returns (missed: set<string>, index: map<string, nat>)
    ensures missed == DeclaredIds(calls)
    ensures forall id :: id in index <==> id in byID || id in missed
    ensures forall id :: id in index ==> index[id] == if id in byID then byID[id] else k
  {
    missed, index := {}, byID;
    for i := 0 to |calls|
      invariant missed == DeclaredIds(calls[..i])
      invariant forall id :: id in index <==> id in byID || id in missed
      invariant forall id :: id in index ==> index[id] == if id in byID then byID[id] else k
    {
      var id := calls[i].id;
      assert forall j :: 0 <= j < i ==> calls[..i + 1][j] == calls[..i][j];
      assert DeclaredIds(calls[..i + 1]) == DeclaredIds(calls[..i]) + (if id == "" then {} else {id});
      if id != "" {
        missed := missed + {id};
        if id !in index {
          index := index[id := k];
        }
      }
    }
    assert calls[..|calls|] == calls;
  }

  /** What the scan knows about one pending assistant row after reading ms[..i]. */
  ghost predicate EntryOK(ms: seq<Message>, start: nat, i: nat, e: Entry) {
    && start <= e.pos < i <= |ms| && ms[e.pos].role == Assistant
    && e.missed <= DeclaredIds(ms[e.pos].toolCalls)
    && (forall id :: Declares(ms[e.pos], id) && id !in e.missed ==> AnsweredBetween(ms, e.pos, i, id))
  }

  ghost predicate EntriesOK(ms: seq<Message>, start: nat, i: nat, es: seq<Entry>) {
    && (forall k :: 0 <= k < |es| ==> EntryOK(ms, start, i, es[k]))
    && (forall k, l :: 0 <= k < l < |es| ==> es[k].pos < es[l].pos)
    && (forall a, id :: start <= a < i && a < |ms| && Declares(ms[a], id) ==>
        exists k :: 0 <= k < |es| && es[k].pos == a)
  }

  /** When no open id is declared again, `missed` is exact and indexed. */
  ghost predicate Exact(ms: seq<Message>, i: nat, es: seq<Entry>, byID: map<string, nat>) {
    && (forall k, id :: 0 <= k < |es| && id in es[k].missed ==> id in byID && byID[id] == k)
    && (forall k, id :: 0 <= k < |es| && id in es[k].missed ==> !AnsweredBetween(ms, es[k].pos, i, id))
  }

  ghost predicate Indexed(ms: seq<Message>, es: seq<Entry>, byID: map<string, nat>) {
    forall id :: id in byID ==> byID[id] < |es| && id in es[byID[id]].missed
  }

  lemma DeclaredIdsMeaning(m: Message, id: string)
    requires m.role == Assistant
    ensures id in DeclaredIds(m.toolCalls) <==> Declares(m, id)
  {
  }

  lemma AnsweredExtends(ms: seq<Message>, p: int, i: nat, id: string)
    requires i < |ms|
    ensures AnsweredBetween(ms, p, i, id) ==> AnsweredBetween(ms, p, i + 1, id)
    ensures p < i && Answers(ms[i], id) ==> AnsweredBetween(ms, p, i + 1, id)
    ensures !Answers(ms[i], id) && AnsweredBetween(ms, p, i + 1, id) ==> AnsweredBetween(ms, p, i, id)
  {
  }

  lemma KeepEntries(ms: seq<Message>, start: nat, i: nat, es: seq<Entry>)
    requires EntriesOK(ms, start, i, es) && i < |ms|
    requires forall id :: !Declares(ms[i], id)
    ensures EntriesOK(ms, start, i + 1, es)
  {
    forall k | 0 <= k < |es| ensures EntryOK(ms, start, i + 1, es[k]) {
      assert EntryOK(ms, start, i, es[k]);
      forall id | Declares(ms[es[k].pos], id) && id !in es[k].missed ensures AnsweredBetween(ms, es[k].pos, i + 1, id) {
        AnsweredExtends(ms, es[k].pos, i, id);
      }
    }
  }

  lemma AddEntry(ms: seq<Message>, start: nat, i: nat, es: seq<Entry>)
    requires EntriesOK(ms, start, i, es) && start <= i < |ms| && ms[i].role == Assistant
    ensures EntriesOK(ms, start, i + 1, es + [Entry(i, DeclaredIds(ms[i].toolCalls))])
  {
    var es' := es + [Entry(i, DeclaredIds(ms[i].toolCalls))];
    forall k | 0 <= k < |es'| ensures EntryOK(ms, start, i + 1, es'[k]) {
      if k < |es| {
        assert EntryOK(ms, start, i, es[k]);
        forall id | Declares(ms[es[k].pos], id) && id !in es[k].missed
          ensures AnsweredBetween(ms, es[k].pos, i + 1, id)
        {
          AnsweredExtends(ms, es[k].pos, i, id);
        }
      } else {
        forall id | Declares(ms[i], id) ensures id in es'[k].missed {
          DeclaredIdsMeaning(ms[i], id);
        }
      }
    }
    forall k, l | 0 <= k < l < |es'| ensures es'[k].pos < es'[l].pos {
      assert EntryOK(ms, start, i, es[k]);
    }
    forall a, id | start <= a < i + 1 && Declares(ms[a], id) ensures exists k :: 0 <= k < |es'| && es'[k].pos == a {
      if a < i {
        var k :| 0 <= k < |es| && es[k].pos == a;
        assert es'[k].pos == a;
      } else {
        assert es'[|es|].pos == a;
      }
    }
  }

  lemma ClearMissed(ms: seq<Message>, start: nat, i: nat, es: seq<Entry>, k: nat, id: string)
    requires EntriesOK(ms, start, i, es) && i < |ms| && k < |es| && Answers(ms[i], id)
    ensures EntriesOK(ms, start, i + 1, es[k := Entry(es[k].pos, es[k].missed - {id})])
  {
    var es' := es[k := Entry(es[k].pos, es[k].missed - {id})];
    forall l | 0 <= l < |es'| ensures EntryOK(ms, start, i + 1, es'[l]) {
      assert EntryOK(ms, start, i, es[l]);
      forall x | Declares(ms[es'[l].pos], x) && x !in es'[l].missed ensures AnsweredBetween(ms, es'[l].pos, i + 1, x) {
        AnsweredExtends(ms, es'[l].pos, i, x);
      }
    }
    forall a, x | start <= a < i + 1 && Declares(ms[a], x) ensures exists l :: 0 <= l < |es'| && es'[l].pos == a {
      assert a < i;
      var l :| 0 <= l < |es| && es[l].pos == a;
      assert es'[l].pos == a;
    }
  }

  lemma ExactClear(ms: seq<Message>, i: nat, es: seq<Entry>, byID: map<string, nat>, id: string)
    requires Exact(ms, i, es, byID) && i < |ms| && Answers(ms[i], id) && id in byID && byID[id] < |es|
    ensures var k := byID[id]; Exact(ms, i + 1, es[k := Entry(es[k].pos, es[k].missed - {id})], byID - {id})
  {
    var k := byID[id];
    var es' := es[k := Entry(es[k].pos, es[k].missed - {id})];
    forall l, x | 0 <= l < |es'| && x in es'[l].missed
      ensures x in byID - {id} && (byID - {id})[x] == l && !AnsweredBetween(ms, es'[l].pos, i + 1, x)
    {
      assert x in es[l].missed;
      AnsweredExtends(ms, es[l].pos, i, x);
    }
  }

  lemma PendingIsNotDeclared(ms: seq<Message>, start: nat, i: nat, es: seq<Entry>, byID: map<string, nat>)
    requires Exact(ms, i, es, byID) && Indexed(ms, es, byID) && EntriesOK(ms, start, i, es)
    requires start <= i < |ms| && NoOverlap(ms, start)
    ensures forall x :: x in byID ==> !Declares(ms[i], x)
  {
    forall k, x | 0 <= k < |es| && x in es[k].missed ensures !Declares(ms[i], x) {
      assert EntryOK(ms, start, i, es[k]);
      DeclaredIdsMeaning(ms[es[k].pos], x);
    }
    forall x | x in byID ensures !Declares(ms[i], x) {
      assert x in es[byID[x]].missed;
    }
  }

  lemma ExactSnoc(ms: seq<Message>, i: nat, es: seq<Entry>, byID: map<string, nat>, index: map<string, nat>,
                  missed: set<string>)
    requires Exact(ms, i, es, byID) && i < |ms| && ms[i].role == Assistant
    requires forall x :: x in missed ==> x !in byID && x in index && index[x] == |es|
    requires forall x :: x in byID ==> x in index && index[x] == byID[x]
    ensures Exact(ms, i + 1, es + [Entry(i, missed)], index)
  {
    var es' := es + [Entry(i, missed)];
    forall l, x | 0 <= l < |es'| && x in es'[l].missed
      ensures x in index && index[x] == l && !AnsweredBetween(ms, es'[l].pos, i + 1, x)
    {
      AnsweredExtends(ms, es'[l].pos, i, x);
    }
  }

  lemma ExactAdd(ms: seq<Message>, start: nat, i: nat, es: seq<Entry>, byID: map<string, nat>, index: map<string, nat>)
    requires Exact(ms, i, es, byID) && Indexed(ms, es, byID) && EntriesOK(ms, start, i, es)
    requires start <= i < |ms| && ms[i].role == Assistant && NoOverlap(ms, start)
    requires forall id :: id in index <==> id in byID || id in DeclaredIds(ms[i].toolCalls)
    requires forall id :: id in index ==> index[id] == if id in byID then byID[id] else |es|
    ensures Exact(ms, i + 1, es + [Entry(i, DeclaredIds(ms[i].toolCalls))], index)
  {
    PendingIsNotDeclared(ms, start, i, es, byID);
    forall x | x in DeclaredIds(ms[i].toolCalls) ensures x !in byID {
      DeclaredIdsMeaning(ms[i], x);
    }
    ExactSnoc(ms, i, es, byID, index, DeclaredIds(ms[i].toolCalls));
  }

  lemma IndexedAfter(ms: seq<Message>, es: seq<Entry>, byID: map<string, nat>, id: string)
    requires Indexed(ms, es, byID) && id in byID
    ensures var k := byID[id]; Indexed(ms, es[k := Entry(es[k].pos, es[k].missed - {id})], byID - {id})
  {
  }

  /**
    What the scan promises. With reused ids only the first two hold: a clean
    verdict is sound, and nothing unpaired precedes the cut.
  */
  ghost predicate IsCut(ms: seq<Message>, start: nat, cut: Option<nat>) {
    && (cut.None? ==> PairedFrom(ms, start))
    && (cut.Some? ==> start <= cut.value < |ms| && forall i :: start <= i < cut.value ==> !Orphan(ms, i))
    && (cut.Some? && NoOverlap(ms, start) ==> Orphan(ms, cut.value))
  }

  /** The verdict drawn from the pending entries: the first one still missing a result. */
  lemma Verdict(ms: seq<Message>, start: nat, es: seq<Entry>, byID: map<string, nat>, k: nat)
    requires start <= |ms| && EntriesOK(ms, start, |ms|, es) && k <= |es|
    requires NoOverlap(ms, start) ==> Exact(ms, |ms|, es, byID)
    requires forall j :: 0 <= j < k ==> es[j].missed == {}
    requires k < |es| ==> es[k].missed != {}
    ensures IsCut(ms, start, if k < |es| then Some(es[k].pos) else None)
  {
    var end := if k < |es| then es[k].pos else |ms|;
    if k < |es| {
      assert EntryOK(ms, start, |ms|, es[k]);
      var id :| id in es[k].missed;
      DeclaredIdsMeaning(ms[es[k].pos], id);
      assert Exact(ms, |ms|, es, byID) ==> !AnsweredBetween(ms, es[k].pos, |ms|, id);
    }
    forall i | start <= i < end ensures !Orphan(ms, i) {
      forall id | Declares(ms[i], id) ensures AnsweredBetween(ms, i, |ms|, id) {
        var j :| 0 <= j < |es| && es[j].pos == i;
        assert j < k;
        assert EntryOK(ms, start, |ms|, es[j]);
      }
    }
  }

  lemma NothingScanned(ms: seq<Message>, start: nat)
    requires start <= |ms|
    ensures EntriesOK(ms, start, start, []) && Exact(ms, start, [], map[])
  {
  }

  lemma ScanOther(ms: seq<Message>, start: nat, i: nat, es: seq<Entry>, byID: map<string, nat>)
    requires EntriesOK(ms, start, i, es) && start <= i < |ms|
    requires forall id :: !Declares(ms[i], id)
    requires ms[i].role == Tool ==> ms[i].toolCallID == "" || ms[i].toolCallID !in byID
    requires NoOverlap(ms, start) ==> Exact(ms, i, es, byID)
    ensures EntriesOK(ms, start, i + 1, es)
    ensures NoOverlap(ms, start) ==> Exact(ms, i + 1, es, byID)
  {
    KeepEntries(ms, start, i, es);
    if NoOverlap(ms, start) {
      forall k, x | 0 <= k < |es| && x in es[k].missed ensures !AnsweredBetween(ms, es[k].pos, i + 1, x) {
        assert EntryOK(ms, start, i, es[k]);
        DeclaredIdsMeaning(ms[es[k].pos], x);
        AnsweredExtends(ms, es[k].pos, i, x);
      }
    }
  }

  lemma ScanAssistant(ms: seq<Message>, start: nat, i: nat, es: seq<Entry>, byID: map<string, nat>,
                      index: map<string, nat>)
    requires EntriesOK(ms, start, i, es) && Indexed(ms, es, byID) && start <= i < |ms| && ms[i].role == Assistant
    requires NoOverlap(ms, start) ==> Exact(ms, i, es, byID)
    requires forall id :: id in index <==> id in byID || id in DeclaredIds(ms[i].toolCalls)
    requires forall id :: id in index ==> index[id] == if id in byID then byID[id] else |es|
    ensures var missed := DeclaredIds(ms[i].toolCalls);
      var es' := if missed == {} then es else es + [Entry(i, missed)];
      && EntriesOK(ms, start, i + 1, es') && Indexed(ms, es', index)
      && (NoOverlap(ms, start) ==> Exact(ms, i + 1, es', index))
  {
    var missed := DeclaredIds(ms[i].toolCalls);
    if missed == {} {
      forall id ensures !Declares(ms[i], id) {
        DeclaredIdsMeaning(ms[i], id);
      }
      assert index == byID;
      ScanOther(ms, start, i, es, byID);
    } else {
      AddEntry(ms, start, i, es);
      if NoOverlap(ms, start) {
        ExactAdd(ms, start, i, es, byID, index);
      }
    }
  }

  /** The one-pass scan with its pending list and id index. */
  method OrphanScan(ms: seq<Message>, start: nat) returns (cut: Option<nat>)
    requires start <= |ms|
    ensures IsCut(ms, start, cut)
  {
    hide EntriesOK, Exact, IsCut, DeclaredIds, NoOverlap;
    var entries: seq<Entry>, byID: map<string, nat> := [], map[];
    NothingScanned(ms, start);
    for i := start to |ms|
      invariant EntriesOK(ms, start, i, entries)
      invariant Indexed(ms, entries, byID)
      invariant NoOverlap(ms, start) ==> Exact(ms, i, entries, byID)
    {
      var was, ix := entries, byID;
      var m := ms[i];
      if m.role == Assistant && m.toolCalls != [] {
        var missed, index := Register(m.toolCalls, byID, |entries|);
        byID := index;
        if missed != {} {
          entries := entries + [Entry(i, missed)];
        }
        ScanAssistant(ms, start, i, was, ix, index);
      } else if m.role == Tool && m.toolCallID in byID && m.toolCallID != "" {
        var k := byID[m.toolCallID];
        entries := entries[k := Entry(entries[k].pos, entries[k].missed - {m.toolCallID})];
        byID := byID - {m.toolCallID};
        ClearMissed(ms, start, i, was, k, m.toolCallID);
        IndexedAfter(ms, was, ix, m.toolCallID);
        if NoOverlap(ms, start) {
          ExactClear(ms, i, was, ix, m.toolCallID);
        }
      } else {
        ScanOther(ms, start, i, was, ix);
      }
    }
    var k := 0;
    while k < |entries| && entries[k].missed == {}
      invariant k <= |entries| && forall j :: 0 <= j < k ==> entries[j].missed == {}
    {
      k := k + 1;
    }
    Verdict(ms, start, entries, byID, k);
    cut := if k < |entries| then Some(entries[k].pos) else None;
  }
}
