/**
  The agent-connection objects and the two registries that share them: the
  maintenance registry and the reaper's list of tracked connections.
*/
module Acp {
  import opened Wrappers
  import M = AcpModel

  /** One agent process; `alive` is what its wait goroutine has observed. */
  class AgentConn {
    const key: string
    var alive: bool
    var reaped: bool
    var uses: nat
    var lastUsedAt: int

    constructor (k: string, now: int)
      ensures key == k && alive && !reaped && uses == 0 && lastUsedAt == now
    {
      key, alive, reaped, uses, lastUsedAt := k, true, false, 0, now;
    }

    /** The part of the protocol state that lives in this object. */
    ghost function View(): M.Conn
      reads this
    {
      M.Conn(key, alive, reaped, uses, false, false, false, false, false, false, false)
    }

    /** Claim the connection, unless its key is blocked or it is gone or about to go. */
    method TryAcquireUse(rt: RuntimeMaintenance, now: int) returns (ok: bool)
      modifies this
      ensures ok == M.CanUse(old(View()), key in rt.blocked)
      ensures ok <==> key !in rt.blocked && old(alive) && !old(reaped)
      ensures View() == if ok then old(View()).(uses := old(uses) + 1) else old(View())
      ensures lastUsedAt == if ok then now else old(lastUsedAt)
    {
      if key in rt.blocked {
        return false;
      }
      if reaped || !alive {
        return false;
      }
      uses := uses + 1;
      lastUsedAt := now;
      ok := true;
    }

    method ReleaseUse()
      modifies this
      ensures View() == old(View()).(uses := if old(uses) > 0 then old(uses) - 1 else 0)
    {
      if uses > 0 {
        uses := uses - 1;
      }
    }

    /** The wait goroutine sees the process exit. */
    method ProcessExits()
      modifies this`alive
      ensures !alive
    {
      alive := false;
    }

    /** Mark for idle reaping; a dead connection is dropped without a mark. */
    method TryBeginIdleReap(now: int, timeout: int) returns (reap: bool)
      modifies this
      ensures reap == M.CanReap(old(View()), now - old(lastUsedAt) > timeout)
      ensures reap <==> old(uses) == 0 && !old(reaped) && (!old(alive) || now - old(lastUsedAt) > timeout)
      ensures View() == old(View()).(reaped := old(reaped) || (reap && old(alive)))
      ensures lastUsedAt == old(lastUsedAt)
    {
      if uses > 0 || reaped {
        return false;
      }
      if !alive {
        return true;
      }
      if now - lastUsedAt <= timeout {
        return false;
      }
      reaped := true;
      reap := true;
    }
  }

  method MarkAll(cs: seq<AgentConn>)
    modifies cs
    ensures forall c :: c in cs ==> c.View() == old(c.View()).(reaped := true) && c.lastUsedAt == old(c.lastUsedAt)
  {
    for i := 0 to |cs|
      invariant forall c :: c in cs[..i] ==> c.reaped
      invariant forall c :: c in cs ==>
        c.View() == old(c.View()).(reaped := c.reaped) && (old(c.reaped) ==> c.reaped) &&
          c.lastUsedAt == old(c.lastUsedAt)
    {
      cs[i].reaped := true;
    }
  }

  class RuntimeMaintenance {
    var blocked: set<string>
    var opening: map<string, int>
    var conns: map<AgentConn, bool>

    constructor ()
      ensures blocked == {} && opening == map[] && conns == map[]
    {
      blocked, opening, conns := {}, map[], map[];
    }

    function Opening(key: string): int
      reads this
    {
      if key in opening then opening[key] else 0
    }

    method BeginRuntimeCreation(key: string) returns (ok: bool)
      modifies this`opening
      ensures ok == (key !in blocked)
      ensures opening == if ok then old(opening)[key := old(Opening(key)) + 1] else old(opening)
    {
      if key in blocked {
        return false;
      }
      opening := opening[key := Opening(key) + 1];
      ok := true;
    }

    method EndRuntimeCreation(key: string)
      modifies this`opening
      ensures opening == old(opening)[key := old(Opening(key)) - 1]
    {
      opening := opening[key := Opening(key) - 1];
    }

    /** The last step of a constructor. */
    method RegisterConn(c: AgentConn, transient: bool)
      modifies this`conns
      ensures conns == old(conns)[c := transient]
    {
      conns := conns[c := transient];
    }

    /** The last step of a Close. */
    method RemoveConn(c: AgentConn)
      modifies this`conns
      ensures conns == old(conns) - {c}
    {
      conns := conns - {c};
    }

    predicate Concerns(c: AgentConn, key: string)
      reads this, c
    {
      c in conns && c.key == key && c.alive
    }

    predicate InTheWay(c: AgentConn, key: string)
      reads this, c
    {
      Concerns(c, key) && (conns[c] || c.uses > 0)
    }

    /**
      Maintenance begins iff the key is neither blocked nor opening and no live
      registered connection of it is transient or in use; then, and only then, the
      key is blocked and exactly its live registered connections are marked.
    */
    method BeginRuntimeMaintenance(key: string) returns (ok: bool, idle: seq<AgentConn>)
      modifies this`blocked, conns.Keys
      ensures ok <==> key !in old(blocked) && Opening(key) <= 0 && forall c :: c in conns ==> !old(InTheWay(c, key))
      ensures blocked == if ok then old(blocked) + {key} else old(blocked)
      ensures forall c :: c in conns ==>
                c.View() == old(c.View()).(reaped := old(c.reaped) || (ok && old(Concerns(c, key))))
      ensures ok ==> forall c :: c in idle <==> c in conns && old(Concerns(c, key))
      ensures forall c :: c in conns ==> c.lastUsedAt == old(c.lastUsedAt)
    {
      idle := [];
      if key in blocked || Opening(key) > 0 {
        return false, idle;
      }
      var rest := conns.Keys;
      while rest != {}
        invariant rest <= conns.Keys
        invariant forall c :: c in conns && c !in rest ==> !InTheWay(c, key)
        invariant forall c :: c in idle <==> c in conns && c !in rest && Concerns(c, key)
        decreases |rest|
      {
        var c :| c in rest;
        if c.key == key && c.alive {
          if conns[c] || c.uses > 0 {
            return false, idle;
          }
          idle := idle + [c];
        }
        rest := rest - {c};
      }
      blocked := blocked + {key};
      MarkAll(idle);
      ok := true;
    }

    method EndRuntimeMaintenance(key: string)
      modifies this`blocked
      ensures blocked == old(blocked) - {key}
    {
      blocked := blocked - {key};
    }
  }

  ghost predicate Reapable(c: AgentConn, now: int, timeout: int)
    reads c
  {
    M.CanReap(c.View(), now - c.lastUsedAt > timeout)
  }

  /** Nothing of a connection changed but its mark, and that only so. */
  twostate predicate MarkedOnly(c: AgentConn, marked: bool)
    reads c
  {
    c.alive == old(c.alive) && c.uses == old(c.uses) && c.lastUsedAt == old(c.lastUsedAt) &&
      c.reaped == (old(c.reaped) || marked)
  }

  /** Which entries of the list a scan drops. */
  ghost function ReapPlan(cs: seq<AgentConn>, now: int, timeout: int): (plan: seq<bool>)
    reads cs
    ensures |plan| == |cs|
  {
    seq(|cs|, i requires 0 <= i < |cs| reads cs => Reapable(cs[i], now, timeout) && (cs[i] !in cs[..i] || !cs[i].alive))
  }

  /** The entries that a plan drops, or those that it keeps, in order. */
  function Picked<T>(cs: seq<T>, plan: seq<bool>, drop: bool): seq<T>
    requires |plan| == |cs|
  {
    if cs == [] then []
    else
      var n := |cs| - 1;
      Picked(cs[..n], plan[..n], drop) + if plan[n] == drop then [cs[n]] else []
  }

  lemma NothingPicked<T>(cs: seq<T>, plan: seq<bool>)
    requires |plan| == |cs|
    ensures Picked(cs[..0], plan[..0], true) == [] && Picked(cs[..0], plan[..0], false) == []
  {
  }

  lemma PickedSnoc<T>(cs: seq<T>, plan: seq<bool>, i: nat)
    requires |plan| == |cs| && i < |cs|
    ensures Picked(cs[..i + 1], plan[..i + 1], true) ==
      Picked(cs[..i], plan[..i], true) + if plan[i] then [cs[i]] else []
    ensures Picked(cs[..i + 1], plan[..i + 1], false) ==
      Picked(cs[..i], plan[..i], false) + if plan[i] then [] else [cs[i]]
  {
    assert cs[..i + 1][..i] == cs[..i] && plan[..i + 1][..i] == plan[..i];
  }

  lemma {:induction false} PickedMember<T>(cs: seq<T>, plan: seq<bool>, drop: bool, c: T)
    requires |plan| == |cs|
    ensures c in Picked(cs, plan, drop) <==> exists i :: 0 <= i < |cs| && cs[i] == c && plan[i] == drop
  {
    if cs != [] {
      var n := |cs| - 1;
      PickedMember(cs[..n], plan[..n], drop, c);
      assert forall i :: 0 <= i < n ==> cs[..n][i] == cs[i] && plan[..n][i] == plan[i];
    }
  }

  class ConnPool {
    var tracked: seq<AgentConn>
    var closing: bool

    constructor ()
      ensures tracked == [] && !closing
    {
      tracked, closing := [], false;
    }

    method TrackConn(c: AgentConn) returns (ok: bool)
      modifies this`tracked
      ensures ok == !closing && tracked == if ok then old(tracked) + [c] else old(tracked)
    {
      if closing {
        return false;
      }
      tracked := tracked + [c];
      ok := true;
    }

    /**
      Drop the connections that may be reaped from the list; they are closed outside
      the lock. A live one that is listed twice is dropped once, since the first drop
      marks it.
    */
    method ReapIdleConns(now: int, timeout: int) returns (toClose: seq<AgentConn>)
      modifies this`tracked, tracked
      ensures var plan := old(ReapPlan(tracked, now, timeout));
        toClose == Picked(old(tracked), plan, true) && tracked == Picked(old(tracked), plan, false)
      ensures forall c :: c in old(tracked) ==> MarkedOnly(c, old(Reapable(c, now, timeout)) && old(c.alive))
    {
      hide Picked;
      var all := tracked;
      var alive: seq<AgentConn> := [];
      ghost var plan := ReapPlan(all, now, timeout);
      toClose := [];
      NothingPicked(all, plan);
      for i := 0 to |all|
        invariant tracked == all
        invariant toClose == Picked(all[..i], plan[..i], true) && alive == Picked(all[..i], plan[..i], false)
        invariant forall c :: c in all ==>
                    MarkedOnly(c, c in all[..i] && old(Reapable(c, now, timeout)) && old(c.alive))
      {
        PickedSnoc(all, plan, i);
        var reap := all[i].TryBeginIdleReap(now, timeout);
        assert forall c :: c in all[..i + 1] <==> c in all[..i] || c == all[i];
        if reap {
          toClose := toClose + [all[i]];
        } else {
          alive := alive + [all[i]];
        }
      }
      assert all[..|all|] == all && plan[..|all|] == plan;
      tracked := alive;
    }

    method CloseAllConns() returns (toClose: seq<AgentConn>)
      modifies this
      ensures closing && tracked == [] && toClose == old(tracked)
    {
      closing := true;
      toClose := tracked;
      tracked := [];
    }
  }
}
