/**
  The objects of Acp refine the state machine of AcpModel: whatever critical
  sections run, in any order, the objects hold what the model's run of those
  sections says.
*/
module AcpSimulation {
  import opened Wrappers
  import opened Acp
  import M = AcpModel

  /** What the objects hold of one connection of the model. */
  ghost predicate Shows(c: AgentConn, m: M.Conn, rt: RuntimeMaintenance, pool: ConnPool)
    reads c, rt, pool
  {
    && m.key == c.key && m.alive == c.alive && m.reaped == c.reaped && m.uses == c.uses
    && (m.registered <==> c in rt.conns) && (m.registered ==> m.transient == rt.conns[c])
    && (m.tracked <==> c in pool.tracked)
  }

  lemma RunOne(actions: seq<M.Action>, w: M.World, a: M.Action)
    requires w == M.Run(actions) && M.Enabled(w, a)
    ensures M.Run(actions + [a]) == M.Step(w, a)
  {
    hide *;
    M.RunSnoc(actions, w, a, M.Step(w, a));
  }

  // A scan of a list without duplicates.

  lemma PlanOfDistinct(list: seq<AgentConn>, now: int, timeout: int)
    requires forall i, j :: 0 <= i < j < |list| ==> list[i] != list[j]
    ensures forall k :: 0 <= k < |list| ==> ReapPlan(list, now, timeout)[k] == Reapable(list[k], now, timeout)
  {
    hide Reapable;
  }

  lemma {:induction false} PickedOnce<T>(list: seq<T>, plan: seq<bool>)
    requires |plan| == |list| && forall i, j :: 0 <= i < j < |list| ==> list[i] != list[j]
    ensures var kept := Picked(list, plan, false);
      (forall i, j :: 0 <= i < j < |kept| ==> kept[i] != kept[j]) && forall i :: 0 <= i < |kept| ==> kept[i] in list
  {
    if list != [] {
      var n := |list| - 1;
      PickedOnce(list[..n], plan[..n]);
      PickedMember(list[..n], plan[..n], false, list[n]);
    }
  }

  lemma ScannedConn(c: AgentConn, list: seq<AgentConn>, plan: seq<bool>, dropped: seq<AgentConn>, kept: seq<AgentConn>)
    requires |plan| == |list| && (forall i, j :: 0 <= i < j < |list| ==> list[i] != list[j])
    requires dropped == Picked(list, plan, true) && kept == Picked(list, plan, false)
    ensures c !in list ==> c !in dropped && c !in kept
    ensures forall k :: 0 <= k < |list| && list[k] == c ==> (c in dropped <==> plan[k]) && (c in kept <==> !plan[k])
  {
    PickedMember(list, plan, true, c);
    PickedMember(list, plan, false, c);
  }

  // The world after some of the longer steps.

  lemma MaintainStep(w: M.World, key: string)
    ensures M.Step(w, M.Maintain(key)) ==
      if !M.CanMaintain(w, key) then w
      else w.(blocked := w.blocked + {key}, conns := M.Retired(w.conns, key),
              maintainers := w.maintainers + [M.Maintainer(key, true)])
  {
    hide M.CanMaintain, M.Retired;
  }

  lemma RegisterStep(w: M.World, k: nat, i: nat)
    requires M.Enabled(w, M.Register(k)) && w.creators[k].conn == Some(i) && !w.conns[i].closed
    ensures M.Step(w, M.Register(k)) == w.(conns := w.conns[i := w.conns[i].(registered := true)])
  {
  }

  lemma RemoveStep(w: M.World, i: nat)
    requires M.Enabled(w, M.Unregister(i))
    ensures M.Step(w, M.Unregister(i)) == w.(conns := w.conns[i := w.conns[i].(registered := false, closed := true)])
  {
  }

  lemma EndStep(w: M.World, k: nat)
    requires M.Enabled(w, M.EndCreation(k))
    ensures var u, cr := M.Step(w, M.EndCreation(k)), w.creators[k];
      && u.opening == w.opening[cr.key := M.Opening(w, cr.key) - 1]
      && u.blocked == w.blocked && u.poolClosing == w.poolClosing
      && u.conns ==
         if cr.conn.None? then w.conns else w.conns[cr.conn.value := w.conns[cr.conn.value].(opening := false)]
  {
  }

  /** All the connections there have been, and the critical sections run so far. */
  class Runtime {
    const rt: RuntimeMaintenance
    const pool: ConnPool
    ghost var cs: seq<AgentConn>
    ghost var actions: seq<M.Action>

    ghost function World(): M.World
      reads this
    {
      M.Run(actions)
    }

    ghost predicate ConnsMatch()
      reads this, rt, pool, cs
    {
      var w := World();
      && |cs| == |w.conns|
      && (forall i, j :: 0 <= i < j < |cs| ==> cs[i] != cs[j])
      && (forall i :: 0 <= i < |cs| ==> Shows(cs[i], w.conns[i], rt, pool))
      && (forall c :: c in rt.conns ==> c in cs) && (forall c :: c in pool.tracked ==> c in cs)
      && (forall i, j :: 0 <= i < j < |pool.tracked| ==> pool.tracked[i] != pool.tracked[j])
    }

    ghost predicate RegistriesMatch()
      reads this, rt, pool
    {
      var w := World();
      rt.blocked == w.blocked && rt.opening == w.opening && pool.closing == w.poolClosing
    }

    ghost predicate Valid()
      reads this, rt, pool, cs
    {
      ConnsMatch() && RegistriesMatch()
    }

    constructor ()
      ensures Valid() && cs == [] && actions == [] && fresh(rt) && fresh(pool)
    {
      rt := new RuntimeMaintenance();
      pool := new ConnPool();
      cs, actions := [], [];
      new;
      assert World() == M.START;
    }

    method BeginRuntimeCreation(key: string) returns (ok: bool)
      requires Valid()
      modifies this`actions, rt`opening
      ensures Valid() && cs == old(cs) && actions == old(actions) + [M.BeginCreation(key)]
      ensures ok == (key !in rt.blocked)
    {
      hide M.Run;
      ok := rt.BeginRuntimeCreation(key);
      RunOne(actions, World(), M.BeginCreation(key));
      actions := actions + [M.BeginCreation(key)];
    }

    method EndRuntimeCreation(key: string, ghost k: nat)
      requires Valid() && M.Enabled(World(), M.EndCreation(k)) && World().creators[k].key == key
      modifies this`actions, rt`opening
      ensures Valid() && cs == old(cs) && actions == old(actions) + [M.EndCreation(k)]
    {
      hide M.Run, M.Step;
      rt.EndRuntimeCreation(key);
      RunOne(actions, World(), M.EndCreation(k));
      EndStep(World(), k);
      actions := actions + [M.EndCreation(k)];
    }

    /** A constructor of the key starts its process. */
    method StartProcess(key: string, transient: bool, now: int, ghost k: nat) returns (c: AgentConn)
      requires Valid() && M.Enabled(World(), M.StartProcess(k, transient)) && World().creators[k].key == key
      modifies this`actions, this`cs
      ensures Valid() && fresh(c) && cs == old(cs) + [c] && actions == old(actions) + [M.StartProcess(k, transient)]
    {
      hide M.Run;
      c := new AgentConn(key, now);
      RunOne(actions, World(), M.StartProcess(k, transient));
      actions := actions + [M.StartProcess(k, transient)];
      cs := cs + [c];
    }

    /** The constructor that still has its connection registers it. */
    method RegisterConn(c: AgentConn, transient: bool, ghost k: nat, ghost i: nat)
      requires Valid() && i < |cs| && cs[i] == c && M.Enabled(World(), M.Register(k))
      requires World().creators[k].conn == Some(i)
      requires World().conns[i].transient == transient && !World().conns[i].closed
      modifies this`actions, rt`conns
      ensures Valid() && cs == old(cs) && actions == old(actions) + [M.Register(k)]
    {
      hide M.Run, M.Step;
      rt.RegisterConn(c, transient);
      RunOne(actions, World(), M.Register(k));
      RegisterStep(World(), k, i);
      assert forall j :: 0 <= j < |cs| && j != i ==> cs[j] != c;
      actions := actions + [M.Register(k)];
      forall j | 0 <= j < |cs| ensures Shows(cs[j], World().conns[j], rt, pool) {
      }
    }

    /** Each connection is tracked once, by its constructor's caller. */
    method TrackConn(c: AgentConn, ghost i: nat) returns (ok: bool)
      requires Valid() && i < |cs| && cs[i] == c && M.Enabled(World(), M.Track(i)) && !World().conns[i].tracked
      modifies this`actions, pool`tracked
      ensures Valid() && cs == old(cs) && actions == old(actions) + [M.Track(i)]
      ensures ok <==> c in pool.tracked
    {
      hide M.Run;
      ok := pool.TrackConn(c);
      RunOne(actions, World(), M.Track(i));
      actions := actions + [M.Track(i)];
    }

    method Acquire(c: AgentConn, now: int, ghost i: nat) returns (ok: bool)
      requires Valid() && i < |cs| && cs[i] == c && M.Enabled(World(), M.Acquire(i))
      modifies this`actions, c
      ensures Valid() && cs == old(cs) && actions == old(actions) + [M.Acquire(i)]
      ensures ok <==> c.uses > old(c.uses)
    {
      hide M.Run;
      ok := c.TryAcquireUse(rt, now);
      RunOne(actions, World(), M.Acquire(i));
      actions := actions + [M.Acquire(i)];
    }

    method ReleaseUse(c: AgentConn, ghost i: nat)
      requires Valid() && i < |cs| && cs[i] == c
      modifies this`actions, c
      ensures Valid() && cs == old(cs) && actions == old(actions) + [M.Release(i)]
    {
      hide M.Run;
      c.ReleaseUse();
      RunOne(actions, World(), M.Release(i));
      actions := actions + [M.Release(i)];
    }

    /** What the registry sees is what the model asks. */
    lemma GuardsAgree(key: string)
      requires Valid()
      ensures M.CanMaintain(World(), key) <==>
        key !in rt.blocked && rt.Opening(key) <= 0 && forall c :: c in rt.conns ==> !rt.InTheWay(c, key)
    {
      hide M.Run;
      var w := World();
      forall i | 0 <= i < |cs| ensures M.Busy(w.conns[i], key) <==> cs[i] in rt.conns && rt.InTheWay(cs[i], key) {
      }
      if exists c :: c in rt.conns && rt.InTheWay(c, key) {
        var c :| c in rt.conns && rt.InTheWay(c, key);
        var i :| 0 <= i < |cs| && cs[i] == c;
        assert M.Busy(w.conns[i], key);
      }
    }

    /** The process may be terminated as the reaper and maintenance do it. */
    ghost predicate Closable(i: nat)
      reads this
    {
      forall exits :: M.Enabled(World(), M.Terminate(i, M.Reaper, exits))
    }

    lemma CondemnedIsClosable(i: nat)
      requires i < |World().conns| && World().conns[i].condemned
      ensures Closable(i)
    {
      hide M.Run;
    }

    /** What maintenance would close. */
    lemma WouldBeCondemned(key: string)
      requires Valid()
      ensures forall i :: 0 <= i < |cs| && rt.Concerns(cs[i], key) ==> M.Retired(World().conns, key)[i].condemned
    {
      hide M.Run;
      assert forall i :: 0 <= i < |cs| ==> Shows(cs[i], World().conns[i], rt, pool);
    }

    method BeginRuntimeMaintenance(key: string) returns (ok: bool, idle: seq<AgentConn>)
      requires Valid()
      modifies this`actions, rt`blocked, rt.conns.Keys
      ensures Valid() && cs == old(cs) && actions == old(actions) + [M.Maintain(key)]
      ensures ok == old(M.CanMaintain(World(), key))
      ensures ok ==> forall i :: 0 <= i < |cs| && cs[i] in idle ==> Closable(i)
    {
      hide M.Run, M.Step, M.CanMaintain, Closable;
      GuardsAgree(key);
      WouldBeCondemned(key);
      ok, idle := rt.BeginRuntimeMaintenance(key);
      RunOne(actions, World(), M.Maintain(key));
      MaintainStep(World(), key);
      assert ok ==> forall i :: 0 <= i < |cs| && cs[i] in idle ==> old(rt.Concerns(cs[i], key));
      actions := actions + [M.Maintain(key)];
      forall i | ok && 0 <= i < |cs| && cs[i] in idle ensures Closable(i) {
        CondemnedIsClosable(i);
      }
    }

    /** The release runs once. */
    method EndRuntimeMaintenance(key: string, ghost m: nat)
      requires Valid() && m < |World().maintainers| && World().maintainers[m] == M.Maintainer(key, true)
      modifies this`actions, rt`blocked
      ensures Valid() && cs == old(cs) && actions == old(actions) + [M.EndMaintain(m)]
    {
      hide M.Run;
      rt.EndRuntimeMaintenance(key);
      RunOne(actions, World(), M.EndMaintain(m));
      actions := actions + [M.EndMaintain(m)];
    }

    /** The first half of a Close: the process may be seen to exit, or not in time. */
    method Terminate(c: AgentConn, exits: bool, ghost i: nat, ghost who: M.Closer)
      requires Valid() && i < |cs| && cs[i] == c && M.Enabled(World(), M.Terminate(i, who, exits))
      modifies this`actions, c
      ensures Valid() && cs == old(cs) && actions == old(actions) + [M.Terminate(i, who, exits)]
    {
      hide M.Run;
      if exits {
        c.ProcessExits();
      }
      RunOne(actions, World(), M.Terminate(i, who, exits));
      actions := actions + [M.Terminate(i, who, exits)];
    }

    /** The second half. */
    method RemoveConn(c: AgentConn, ghost i: nat)
      requires Valid() && i < |cs| && cs[i] == c && M.Enabled(World(), M.Unregister(i))
      modifies this`actions, rt`conns
      ensures Valid() && cs == old(cs) && actions == old(actions) + [M.Unregister(i)]
    {
      hide M.Run, M.Step;
      rt.RemoveConn(c);
      RunOne(actions, World(), M.Unregister(i));
      RemoveStep(World(), i);
      assert forall j :: 0 <= j < |cs| && j != i ==> cs[j] != c;
      actions := actions + [M.Unregister(i)];
      forall j | 0 <= j < |cs| ensures Shows(cs[j], World().conns[j], rt, pool) {
      }
    }

    method ProcessExits(c: AgentConn, ghost i: nat)
      requires Valid() && i < |cs| && cs[i] == c
      modifies this`actions, c
      ensures Valid() && cs == old(cs) && actions == old(actions) + [M.Die(i)]
    {
      hide M.Run;
      c.ProcessExits();
      RunOne(actions, World(), M.Die(i));
      actions := actions + [M.Die(i)];
    }

    ghost function IdleFor(now: int, timeout: int): (idle: seq<bool>)
      reads this, cs
      ensures |idle| == |cs|
    {
      seq(|cs|, i requires 0 <= i < |cs| reads this, cs => now - cs[i].lastUsedAt > timeout)
    }

    /** A scan of the list; what it returns may be closed by the reaper. */
    method ReapIdleConns(now: int, timeout: int) returns (toClose: seq<AgentConn>)
      requires Valid()
      modifies this`actions, pool`tracked, pool.tracked
      ensures Valid() && cs == old(cs) && actions == old(actions) + M.Scan(old(IdleFor(now, timeout)), |cs|)
      ensures forall i :: 0 <= i < |cs| && cs[i] in toClose ==> Closable(i)
    {
      hide M.Run, Picked, ReapPlan, M.Scan;
      ghost var idle, w, list := IdleFor(now, timeout), World(), pool.tracked;
      ghost var plan := ReapPlan(list, now, timeout);
      PlanOfDistinct(list, now, timeout);
      M.ScanIsRun(actions, idle, |cs|);
      toClose := pool.ReapIdleConns(now, timeout);
      PickedOnce(list, plan);
      actions := actions + M.Scan(idle, |cs|);
      forall i | 0 <= i < |cs|
        ensures Shows(cs[i], World().conns[i], rt, pool) && (cs[i] in toClose ==> World().conns[i].condemned)
      {
        ScannedConn(cs[i], list, plan, toClose, pool.tracked);
      }
    }

    method CloseAllConns() returns (toClose: seq<AgentConn>)
      requires Valid()
      modifies this`actions, pool
      ensures Valid() && cs == old(cs) && actions == old(actions) + [M.ShutDown]
      ensures toClose == old(pool.tracked)
    {
      hide M.Run;
      toClose := pool.CloseAllConns();
      RunOne(actions, World(), M.ShutDown);
      actions := actions + [M.ShutDown];
    }
  }

  /**
    What the run invariant of the model means for the objects, after any sequence
    of critical sections: a marked connection has no user, and while a key is
    blocked its live registered connections are marked, nothing of it is opening,
    and its connections cannot be claimed; nor can a marked one, ever.
  */
  lemma ObjectsAreSafe(r: Runtime, c: AgentConn)
    requires r.Valid() && c in r.cs
    ensures c.reaped ==> c.uses == 0
    ensures c.key in r.rt.blocked ==> r.rt.Opening(c.key) == 0
    ensures c.key in r.rt.blocked && c in r.rt.conns && c.alive ==> c.reaped && c.uses == 0
    ensures c.key in r.rt.blocked || c.reaped ==> !M.CanUse(c.View(), c.key in r.rt.blocked)
  {
    hide M.Run;
    var i :| 0 <= i < |r.cs| && r.cs[i] == c;
    M.RunInv(r.actions);
    M.ConnsAreOK(r.World(), i);
    if c.key in r.rt.blocked {
      M.BlockedKeyIsQuiet(r.World(), r.actions, c.key);
    }
    hide M.Inv;
  }
}
