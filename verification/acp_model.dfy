/**
  The life of agent processes under several small locks: creation, use claims,
  idle reaping, credential maintenance and shutdown. Every critical section is
  one step; any interleaving of steps of any number of callers is a run.
*/
module AcpModel {
  import opened Wrappers

  /**
    One connection. `opening` lasts while its constructor runs; `closed` holds
    once a Close has taken it out of the registry, even when the process was
    never seen to exit.
  */
  datatype Conn = Conn(
    key: string,
    alive: bool,
    reaped: bool,
    uses: nat,
    opening: bool,
    registered: bool,
    transient: bool,
    tracked: bool,
    condemned: bool,
    terminated: bool,
    closed: bool)

  datatype Creator = Creator(key: string, inFlight: bool, conn: Option<nat>)

  datatype Maintainer = Maintainer(key: string, holds: bool)

  datatype World = World(
    conns: seq<Conn>,
    creators: seq<Creator>,
    maintainers: seq<Maintainer>,
    opening: map<string, int>,
    blocked: set<string>,
    poolClosing: bool)

  datatype Closer = Owner | Reaper | Shutdown

  datatype Action =
    | BeginCreation(key: string)
    | StartProcess(creator: nat, transient: bool)
    | Register(creator: nat)
    | EndCreation(creator: nat)
    | Track(conn: nat)
    | Acquire(conn: nat)
    | Release(conn: nat)
    | ReapOne(conn: nat, idleTooLong: bool)
    | Maintain(key: string)
    | EndMaintain(maintainer: nat)
    | Terminate(conn: nat, who: Closer, exits: bool)
    | Unregister(conn: nat)
    | Die(conn: nat)
    | ShutDown

  // ------------------------------------------------------ one critical section

  function Opening(w: World, key: string): int { if key in w.opening then w.opening[key] else 0 }

  predicate CanUse(c: Conn, blocked: bool) { !blocked && !c.reaped && c.alive }

  predicate CanReap(c: Conn, idleTooLong: bool) { c.uses == 0 && !c.reaped && (!c.alive || idleTooLong) }

  function Reaped(c: Conn): Conn { c.(reaped := c.reaped || c.alive, tracked := false, condemned := true) }

  /** A connection that maintenance must respect. */
  predicate Busy(c: Conn, key: string) { c.registered && c.key == key && c.alive && (c.transient || c.uses > 0) }

  predicate Idle(c: Conn, key: string) { c.registered && c.key == key && c.alive }

  predicate CanMaintain(w: World, key: string) {
    key !in w.blocked && Opening(w, key) <= 0 && forall i :: 0 <= i < |w.conns| ==> !Busy(w.conns[i], key)
  }

  function Retired(cs: seq<Conn>, key: string): (r: seq<Conn>)
    ensures |r| == |cs|
    ensures forall i :: 0 <= i < |cs| ==>
      r[i] == if Idle(cs[i], key) then cs[i].(reaped := true, condemned := true) else cs[i]
  {
    seq(|cs|, i requires 0 <= i < |cs| => if Idle(cs[i], key) then cs[i].(reaped := true, condemned := true) else cs[i])
  }

  function Untracked(cs: seq<Conn>): (r: seq<Conn>)
    ensures |r| == |cs| && forall i :: 0 <= i < |cs| ==> r[i] == cs[i].(tracked := false)
  {
    seq(|cs|, i requires 0 <= i < |cs| => cs[i].(tracked := false))
  }

  // ------------------------------------------------------------------ transitions

  predicate Enabled(w: World, a: Action) {
    match a
    case BeginCreation(key) => true
    case StartProcess(k, _) => k < |w.creators| && w.creators[k].inFlight && w.creators[k].conn.None?
    case Register(k) =>
      && k < |w.creators| && w.creators[k].inFlight
      && w.creators[k].conn.Some? && w.creators[k].conn.value < |w.conns|
    case EndCreation(k) =>
      && k < |w.creators| && w.creators[k].inFlight
      && (w.creators[k].conn.Some? ==>
        w.creators[k].conn.value < |w.conns| &&
          (w.conns[w.creators[k].conn.value].registered || w.conns[w.creators[k].conn.value].closed))
    case Track(i) => i < |w.conns| && !w.conns[i].opening
    case Acquire(i) => i < |w.conns| && !w.conns[i].opening
    case Release(i) => i < |w.conns|
    case ReapOne(i, _) => i < |w.conns| && w.conns[i].tracked
    case Maintain(key) => true
    case EndMaintain(m) => m < |w.maintainers|
    case Terminate(i, who, _) => i < |w.conns| && (who == Reaper ==> w.conns[i].condemned)
    case Unregister(i) => i < |w.conns| && w.conns[i].terminated
    case Die(i) => i < |w.conns|
    case ShutDown => true
  }

  function Put(w: World, i: nat, c: Conn): World
    requires i < |w.conns|
  {
    w.(conns := w.conns[i := c])
  }

  function Step(w: World, a: Action): World
    requires Enabled(w, a)
  {
    match a
    case BeginCreation(key) =>
      if key in w.blocked then w
      else w.(creators := w.creators + [Creator(key, true, None)], opening := w.opening[key := Opening(w, key) + 1])
    case StartProcess(k, transient) =>
      var c := Conn(w.creators[k].key, true, false, 0, true, false, transient, false, false, false, false);
      w.(conns := w.conns + [c],
         creators := w.creators[k := w.creators[k].(conn := Some(|w.conns|))])
    case Register(k) =>
      var i := w.creators[k].conn.value;
      if w.conns[i].closed then w else Put(w, i, w.conns[i].(registered := true))
    case EndCreation(k) =>
      var cr := w.creators[k];
      var w' := w.(creators := w.creators[k := cr.(inFlight := false)],
                   opening := w.opening[cr.key := Opening(w, cr.key) - 1]);
      if cr.conn.None? then w' else Put(w', cr.conn.value, w.conns[cr.conn.value].(opening := false))
    case Track(i) => if w.poolClosing then w else Put(w, i, w.conns[i].(tracked := true))
    case Acquire(i) =>
      if CanUse(w.conns[i], w.conns[i].key in w.blocked) then Put(w, i, w.conns[i].(uses := w.conns[i].uses + 1)) else w
    case Release(i) => if w.conns[i].uses > 0 then Put(w, i, w.conns[i].(uses := w.conns[i].uses - 1)) else w
    case ReapOne(i, idleTooLong) => if CanReap(w.conns[i], idleTooLong) then Put(w, i, Reaped(w.conns[i])) else w
    case Maintain(key) =>
      if !CanMaintain(w, key) then w
      else w.(blocked := w.blocked + {key}, conns := Retired(w.conns, key),
              maintainers := w.maintainers + [Maintainer(key, true)])
    case EndMaintain(m) =>
      if !w.maintainers[m].holds then w
      else w.(blocked := w.blocked - {w.maintainers[m].key},
              maintainers := w.maintainers[m := w.maintainers[m].(holds := false)])
    case Terminate(i, _, exits) => Put(w, i, w.conns[i].(alive := w.conns[i].alive && !exits, terminated := true))
    case Unregister(i) => Put(w, i, w.conns[i].(registered := false, closed := true))
    case Die(i) => Put(w, i, w.conns[i].(alive := false))
    case ShutDown => w.(poolClosing := true, conns := Untracked(w.conns))
  }

  const START := World([], [], [], map[], {}, false)

  /** An action that is not possible now does nothing. */
  function Do(w: World, a: Action): World { if Enabled(w, a) then Step(w, a) else w }

  /** A run: any interleaving of the actions of all callers. */
  function Run(actions: seq<Action>): World {
    if actions == [] then START else Do(Run(actions[..|actions| - 1]), actions[|actions| - 1])
  }

  // -------------------------------------------------------------------- invariant

  function InFlight(cs: seq<Creator>, key: string): nat {
    if cs == [] then 0
    else InFlight(cs[..|cs| - 1], key) + if cs[|cs| - 1].inFlight && cs[|cs| - 1].key == key then 1 else 0
  }

  function Holders(ms: seq<Maintainer>, key: string): nat {
    if ms == [] then 0
    else Holders(ms[..|ms| - 1], key) + if ms[|ms| - 1].holds && ms[|ms| - 1].key == key then 1 else 0
  }

  predicate ConnOK(c: Conn, blocked: bool) {
    && (c.reaped ==> c.uses == 0)
    && (c.condemned ==> c.reaped || !c.alive)
    && (c.condemned ==> c.uses == 0)
    && (c.alive ==> c.opening || c.registered || c.closed)
    && (blocked ==> !c.opening)
    && (blocked && c.alive ==> c.reaped || c.closed)
    && (c.opening ==> c.uses == 0)
    && (c.registered ==> !c.closed)
  }

  predicate ConnsOK(w: World) {
    forall i :: 0 <= i < |w.conns| ==> ConnOK(w.conns[i], w.conns[i].key in w.blocked)
  }

  /** A constructor in flight and its connection know each other. */
  predicate CreatorsOK(w: World) {
    && (forall i :: 0 <= i < |w.conns| && w.conns[i].opening ==>
      exists k :: 0 <= k < |w.creators| && w.creators[k].inFlight && w.creators[k].conn == Some(i))
    && (forall k :: 0 <= k < |w.creators| && w.creators[k].conn.Some? ==>
      w.creators[k].conn.value < |w.conns| && w.conns[w.creators[k].conn.value].key == w.creators[k].key)
    && (forall k, l :: 0 <= k < l < |w.creators| && w.creators[k].conn.Some? ==>
        w.creators[k].conn != w.creators[l].conn)
  }

  ghost predicate CountsOK(w: World) {
    && (forall key :: Opening(w, key) == InFlight(w.creators, key))
    && (forall key :: key in w.blocked ==> InFlight(w.creators, key) == 0)
    && (forall key :: Holders(w.maintainers, key) == if key in w.blocked then 1 else 0)
  }

  ghost predicate Inv(w: World) { ConnsOK(w) && CreatorsOK(w) && CountsOK(w) }

  lemma {:induction false} InFlightUpdate(cs: seq<Creator>, k: nat, c: Creator, key: string)
    requires k < |cs| && c.key == cs[k].key
    ensures InFlight(cs[k := c], key) == InFlight(cs, key) +
      (if c.inFlight && c.key == key then 1 else 0) - (if cs[k].inFlight && cs[k].key == key then 1 else 0)
    decreases |cs|
  {
    var n := |cs| - 1;
    if k < n {
      assert cs[k := c][..n] == cs[..n][k := c];
      InFlightUpdate(cs[..n], k, c, key);
    } else {
      assert cs[k := c][..n] == cs[..n];
    }
  }

  lemma {:induction false} HoldersUpdate(ms: seq<Maintainer>, k: nat, m: Maintainer, key: string)
    requires k < |ms| && m.key == ms[k].key
    ensures Holders(ms[k := m], key) == Holders(ms, key) +
      (if m.holds && m.key == key then 1 else 0) - (if ms[k].holds && ms[k].key == key then 1 else 0)
    decreases |ms|
  {
    var n := |ms| - 1;
    if k < n {
      assert ms[k := m][..n] == ms[..n][k := m];
      HoldersUpdate(ms[..n], k, m, key);
    } else {
      assert ms[k := m][..n] == ms[..n];
    }
  }

  lemma {:induction false} InFlightSeen(cs: seq<Creator>, k: nat)
    requires k < |cs| && cs[k].inFlight
    ensures InFlight(cs, cs[k].key) > 0
    decreases |cs|
  {
    if k < |cs| - 1 {
      InFlightSeen(cs[..|cs| - 1], k);
    }
  }

  lemma OpeningIsInFlight(w: World, i: nat)
    requires CreatorsOK(w) && CountsOK(w) && i < |w.conns| && w.conns[i].opening
    ensures w.conns[i].key !in w.blocked && Opening(w, w.conns[i].key) > 0
  {
    var k :| 0 <= k < |w.creators| && w.creators[k].inFlight && w.creators[k].conn == Some(i);
    InFlightSeen(w.creators, k);
  }

  /** A step that changes one connection and neither the creators nor the maintainers. */
  lemma PutKeeps(w: World, i: nat, c: Conn)
    requires Inv(w) && i < |w.conns| && ConnOK(c, c.key in w.blocked)
    requires c.key == w.conns[i].key && (c.opening ==> w.conns[i].opening)
    ensures Inv(Put(w, i, c))
  {
    hide InFlight, Holders;
    var u := Put(w, i, c);
    forall j | 0 <= j < |u.conns| && u.conns[j].opening
      ensures exists k :: 0 <= k < |u.creators| && u.creators[k].inFlight && u.creators[k].conn == Some(j)
    {
      assert w.conns[j].opening;
    }
  }

  lemma KeepCreators(w: World, u: World)
    requires CreatorsOK(w) && u.conns == w.conns && |u.creators| == |w.creators| + 1
    requires u.creators[..|w.creators|] == w.creators && u.creators[|w.creators|].conn.None?
    ensures CreatorsOK(u)
  {
    assert forall k :: 0 <= k < |w.creators| ==> u.creators[k] == w.creators[k];
  }

  lemma BeginCreationKeeps(w: World, key: string)
    requires Inv(w)
    ensures Inv(Step(w, BeginCreation(key)))
  {
    if key !in w.blocked {
      var u := Step(w, BeginCreation(key));
      assert u.creators[..|w.creators|] == w.creators;
      forall x ensures Opening(u, x) == InFlight(u.creators, x) && (x in u.blocked ==> InFlight(u.creators, x) == 0) {
        assert Opening(w, x) == InFlight(w.creators, x);
      }
      KeepCreators(w, u);
    }
  }

  lemma StartCreators(w: World, u: World, k: nat)
    requires CreatorsOK(w) && k < |w.creators| && w.creators[k].inFlight && w.creators[k].conn.None?
    requires |u.conns| == |w.conns| + 1 && (forall i :: 0 <= i < |w.conns| ==> u.conns[i] == w.conns[i])
    requires u.conns[|w.conns|].key == w.creators[k].key
    requires u.creators == w.creators[k := w.creators[k].(conn := Some(|w.conns|))]
    ensures CreatorsOK(u)
  {
    forall i | 0 <= i < |u.conns| && u.conns[i].opening
      ensures exists l :: 0 <= l < |u.creators| && u.creators[l].inFlight && u.creators[l].conn == Some(i)
    {
      if i < |w.conns| {
        var l :| 0 <= l < |w.creators| && w.creators[l].inFlight && w.creators[l].conn == Some(i);
        assert l != k && u.creators[l] == w.creators[l];
      } else {
        assert u.creators[k].inFlight && u.creators[k].conn == Some(i);
      }
    }
  }

  lemma StartKeeps(w: World, k: nat, transient: bool)
    requires Inv(w) && Enabled(w, StartProcess(k, transient))
    ensures Inv(Step(w, StartProcess(k, transient)))
  {
    var u := Step(w, StartProcess(k, transient));
    InFlightSeen(w.creators, k);
    assert w.creators[k].key !in w.blocked;
    forall x ensures InFlight(u.creators, x) == InFlight(w.creators, x) {
      InFlightUpdate(w.creators, k, u.creators[k], x);
    }
    hide InFlight, Holders;
    assert CountsOK(u) by {
      forall x ensures Opening(u, x) == InFlight(u.creators, x) {
        assert Opening(w, x) == InFlight(w.creators, x);
      }
    }
    StartCreators(w, u, k);
  }

  lemma EndCreators(w: World, u: World, k: nat)
    requires CreatorsOK(w) && ConnsOK(w) && Enabled(w, EndCreation(k)) && u == Step(w, EndCreation(k))
    ensures CreatorsOK(u) && ConnsOK(u)
  {
    var cr := w.creators[k];
    assert forall i :: 0 <= i < |w.conns| ==>
      u.conns[i] == if cr.conn == Some(i) then w.conns[i].(opening := false) else w.conns[i];
    forall i | 0 <= i < |u.conns| && u.conns[i].opening
      ensures exists l :: 0 <= l < |u.creators| && u.creators[l].inFlight && u.creators[l].conn == Some(i)
    {
      var l :| 0 <= l < |w.creators| && w.creators[l].inFlight && w.creators[l].conn == Some(i);
      assert l != k && u.creators[l] == w.creators[l];
    }
  }

  lemma EndCreationKeeps(w: World, k: nat)
    requires Inv(w) && Enabled(w, EndCreation(k))
    ensures Inv(Step(w, EndCreation(k)))
  {
    var u := Step(w, EndCreation(k));
    forall x ensures InFlight(u.creators, x) == InFlight(w.creators, x) - if w.creators[k].key == x then 1 else 0 {
      InFlightUpdate(w.creators, k, u.creators[k], x);
    }
    InFlightSeen(w.creators, k);
    hide InFlight, Holders;
    assert CountsOK(u) by {
      forall x ensures Opening(u, x) == InFlight(u.creators, x) {
        assert Opening(w, x) == InFlight(w.creators, x);
      }
    }
    EndCreators(w, u, k);
  }

  lemma SameCreators(w: World, u: World)
    requires CreatorsOK(w) && u.creators == w.creators && |u.conns| == |w.conns|
    requires forall i :: 0 <= i < |w.conns| ==>
               u.conns[i].key == w.conns[i].key && u.conns[i].opening == w.conns[i].opening
    ensures CreatorsOK(u)
  {
  }

  lemma MaintainKeeps(w: World, key: string)
    requires Inv(w)
    ensures Inv(Step(w, Maintain(key)))
  {
    if CanMaintain(w, key) {
      var u := Step(w, Maintain(key));
      assert u.maintainers[..|w.maintainers|] == w.maintainers;
      forall i | 0 <= i < |w.conns| && w.conns[i].opening ensures w.conns[i].key != key {
        OpeningIsInFlight(w, i);
      }
      hide InFlight;
      forall i | 0 <= i < |u.conns| ensures ConnOK(u.conns[i], u.conns[i].key in u.blocked) {
        assert ConnOK(w.conns[i], w.conns[i].key in w.blocked) && !Busy(w.conns[i], key);
      }
      forall x ensures Holders(u.maintainers, x) == if x in u.blocked then 1 else 0 {
        assert Holders(w.maintainers, x) == if x in w.blocked then 1 else 0;
      }
      hide Holders;
      SameCreators(w, u);
      assert CountsOK(u) by {
        forall x ensures Opening(u, x) == InFlight(u.creators, x) {
          assert Opening(w, x) == InFlight(w.creators, x);
        }
      }
    }
  }

  lemma EndMaintainKeeps(w: World, m: nat)
    requires Inv(w) && m < |w.maintainers|
    ensures Inv(Step(w, EndMaintain(m)))
  {
    if w.maintainers[m].holds {
      var u := Step(w, EndMaintain(m));
      forall x ensures Holders(u.maintainers, x) == if x in u.blocked then 1 else 0 {
        assert Holders(w.maintainers, x) == if x in w.blocked then 1 else 0;
        HoldersUpdate(w.maintainers, m, u.maintainers[m], x);
      }
      hide InFlight, Holders;
      forall x ensures Opening(u, x) == InFlight(u.creators, x) && (x in u.blocked ==> InFlight(u.creators, x) == 0) {
        assert Opening(w, x) == InFlight(w.creators, x);
      }
    }
  }

  lemma ShutDownKeeps(w: World)
    requires Inv(w)
    ensures Inv(Step(w, ShutDown))
  {
    hide InFlight, Holders;
    var u := Step(w, ShutDown);
    SameCreators(w, u);
    forall i | 0 <= i < |u.conns| ensures ConnOK(u.conns[i], u.conns[i].key in u.blocked) {
      assert ConnOK(w.conns[i], w.conns[i].key in w.blocked);
    }
    forall x ensures Opening(u, x) == InFlight(u.creators, x) {
      assert Opening(w, x) == InFlight(w.creators, x);
    }
  }

  /** Every step of every caller keeps the invariant. */
  lemma StepKeeps(w: World, a: Action)
    requires Inv(w) && Enabled(w, a)
    ensures Inv(Step(w, a))
  {
    hide CreatorsOK, CountsOK, InFlight, Holders, CanMaintain;
    match a
    case BeginCreation(key) => BeginCreationKeeps(w, key);
    case StartProcess(k, transient) => StartKeeps(w, k, transient);
    case Register(k) =>
      var i := w.creators[k].conn.value;
      if !w.conns[i].closed {
        PutKeeps(w, i, w.conns[i].(registered := true));
      }
    case EndCreation(k) => EndCreationKeeps(w, k);
    case Maintain(key) => MaintainKeeps(w, key);
    case EndMaintain(m) => EndMaintainKeeps(w, m);
    case ShutDown => ShutDownKeeps(w);
    case Track(i) => PutKeeps(w, i, w.conns[i].(tracked := true));
    case Acquire(i) =>
      if CanUse(w.conns[i], w.conns[i].key in w.blocked) {
        PutKeeps(w, i, w.conns[i].(uses := w.conns[i].uses + 1));
      }
    case Release(i) =>
      if w.conns[i].uses > 0 {
        PutKeeps(w, i, w.conns[i].(uses := w.conns[i].uses - 1));
      }
    case ReapOne(i, idleTooLong) =>
      if CanReap(w.conns[i], idleTooLong) {
        PutKeeps(w, i, Reaped(w.conns[i]));
      }
    case Terminate(i, _, exits) =>
      PutKeeps(w, i, w.conns[i].(alive := w.conns[i].alive && !exits, terminated := true));
    case Unregister(i) => PutKeeps(w, i, w.conns[i].(registered := false, closed := true));
    case Die(i) => PutKeeps(w, i, w.conns[i].(alive := false));
  }

  lemma {:induction false} RunInv(actions: seq<Action>)
    ensures Inv(Run(actions))
    decreases |actions|
  {
    if actions != [] {
      var n := |actions| - 1;
      RunInv(actions[..n]);
      if Enabled(Run(actions[..n]), actions[n]) {
        StepKeeps(Run(actions[..n]), actions[n]);
      }
    }
  }

  // --------------------------------------------------------------------- theorems

  lemma StepKeepsMark(w: World, a: Action, i: nat)
    requires i < |w.conns| && w.conns[i].reaped
    ensures i < |Do(w, a).conns| && Do(w, a).conns[i].reaped
    ensures w.conns[i].tracked && a != ShutDown ==> Do(w, a).conns[i].tracked
  {
    hide CanMaintain, Reaped;
  }

  lemma ConnsAreOK(w: World, i: nat)
    requires Inv(w) && i < |w.conns|
    ensures ConnOK(w.conns[i], w.conns[i].key in w.blocked)
  {
  }

  /** A reaped connection has no user, ever again. */
  lemma {:induction false} ReapedForever(actions: seq<Action>, more: seq<Action>, i: nat)
    requires i < |Run(actions).conns| && Run(actions).conns[i].reaped
    ensures var u := Run(actions + more); i < |u.conns| && u.conns[i].reaped && u.conns[i].uses == 0
    decreases |more|
  {
    hide Step, Enabled, Inv;
    if more == [] {
      assert actions + more == actions;
    } else {
      var n := |more| - 1;
      ReapedForever(actions, more[..n], i);
      assert (actions + more)[..|actions| + n] == actions + more[..n];
      StepKeepsMark(Run(actions + more[..n]), more[n], i);
    }
    RunInv(actions + more);
    ConnsAreOK(Run(actions + more), i);
  }

  /**
    Only shutdown takes a marked connection off the reaper's list: one that
    maintenance closed is never pruned, although the documentation of Close says
    that dead connections are.
  */
  lemma {:induction false} MarkedStaysTracked(actions: seq<Action>, more: seq<Action>, i: nat)
    requires i < |Run(actions).conns| && Run(actions).conns[i].reaped && Run(actions).conns[i].tracked
    requires ShutDown !in more
    ensures var u := Run(actions + more); i < |u.conns| && u.conns[i].reaped && u.conns[i].tracked
    decreases |more|
  {
    hide Step, Enabled;
    if more == [] {
      assert actions + more == actions;
    } else {
      var n := |more| - 1;
      MarkedStaysTracked(actions, more[..n], i);
      assert (actions + more)[..|actions| + n] == actions + more[..n];
      assert more[n] in more;
      StepKeepsMark(Run(actions + more[..n]), more[n], i);
    }
  }

  /** Neither the reaper nor maintenance terminates a connection in use, and nobody can claim it any more. */
  lemma CloseOnlyIdle(w: World, actions: seq<Action>, i: nat, exits: bool)
    requires w == Run(actions) && Enabled(w, Terminate(i, Reaper, exits))
    ensures w.conns[i].uses == 0 && Do(w, Acquire(i)) == w
  {
    RunInv(actions);
    ConnsAreOK(w, i);
  }

  /**
    While a key is blocked: exactly one maintainer holds it, no constructor of it
    is in flight, and a live connection of it that was not given up by a Close
    has no user. Nothing can change that but the maintainer's release.
  */
  lemma BlockedKeyIsQuiet(w: World, actions: seq<Action>, key: string)
    requires w == Run(actions) && key in w.blocked
    ensures Holders(w.maintainers, key) == 1 && InFlight(w.creators, key) == 0 && Opening(w, key) == 0
    ensures forall i :: 0 <= i < |w.conns| && w.conns[i].key == key && w.conns[i].alive && !w.conns[i].closed ==>
      w.conns[i].uses == 0 && w.conns[i].reaped
  {
    RunInv(actions);
  }

  /** While a key is blocked no live process of it is in use, if and only if none that a Close gave up is. */
  lemma QuietIff(w: World, actions: seq<Action>, key: string)
    requires w == Run(actions) && key in w.blocked
    ensures (forall i :: 0 <= i < |w.conns| && w.conns[i].key == key && w.conns[i].alive ==> w.conns[i].uses == 0) <==>
            (forall i :: 0 <= i < |w.conns| && w.conns[i].key == key && w.conns[i].alive && w.conns[i].closed ==>
             w.conns[i].uses == 0)
  {
    BlockedKeyIsQuiet(w, actions, key);
    hide Run, InFlight, Holders;
  }

  lemma AtMostOneHolder(w: World, actions: seq<Action>, key: string)
    requires w == Run(actions)
    ensures Holders(w.maintainers, key) <= 1 && (Holders(w.maintainers, key) == 1 <==> key in w.blocked)
  {
    RunInv(actions);
    hide Holders;
  }

  lemma ConnCount(w: World, a: Action)
    requires Enabled(w, a)
    ensures |Step(w, a).conns| >= |w.conns|
  {
    hide CanMaintain, CanReap, CanUse;
  }

  /** During maintenance no connection of the key gains a user, given up or not. */
  lemma NoUseWhileBlocked(w: World, a: Action, i: nat)
    requires Enabled(w, a) && i < |w.conns| && w.conns[i].key in w.blocked
    ensures |Step(w, a).conns| >= |w.conns| && Step(w, a).conns[i].uses <= w.conns[i].uses
  {
    hide CanMaintain, CanReap;
    ConnCount(w, a);
    match a
    case Acquire(_) =>
    case Maintain(_) =>
    case ShutDown =>
    case _ =>
  }

  /** Only its maintainer's release unblocks a key. */
  lemma OnlyReleaseUnblocks(w: World, a: Action, key: string)
    requires Enabled(w, a) && key in w.blocked && key !in Step(w, a).blocked
    ensures a.EndMaintain? && w.maintainers[a.maintainer] == Maintainer(key, true)
  {
    hide CanMaintain, CanReap, CanUse;
  }

  /** Maintenance starts iff nothing is opening and nothing registered is busy. */
  lemma MaintainIff(w: World, actions: seq<Action>, key: string)
    requires w == Run(actions)
    ensures Step(w, Maintain(key)) != w <==>
      && key !in w.blocked && InFlight(w.creators, key) == 0
      && forall i :: 0 <= i < |w.conns| && w.conns[i].registered && w.conns[i].key == key && w.conns[i].alive ==>
           !w.conns[i].transient && w.conns[i].uses == 0
  {
    RunInv(actions);
    assert Opening(w, key) == InFlight(w.creators, key);
    hide InFlight, Holders, Inv;
    if CanMaintain(w, key) {
      assert |Step(w, Maintain(key)).maintainers| == |w.maintainers| + 1;
      forall i | 0 <= i < |w.conns| ensures !Busy(w.conns[i], key) {
      }
    } else if key !in w.blocked && Opening(w, key) == 0 {
      var i :| 0 <= i < |w.conns| && Busy(w.conns[i], key);
    }
  }

  /**
    A scan drops a tracked connection iff it is unused, not already marked, and
    dead or idle for too long. One closed by maintenance carries the mark, so no
    scan ever drops it.
  */
  lemma ScanDropsIff(w: World, i: nat, idleTooLong: bool)
    requires Enabled(w, ReapOne(i, idleTooLong))
    ensures !Step(w, ReapOne(i, idleTooLong)).conns[i].tracked <==>
      w.conns[i].uses == 0 && !w.conns[i].reaped && (!w.conns[i].alive || idleTooLong)
  {
  }

  /** A claim counts if and only if the key is not blocked and the connection is alive and unmarked. */
  lemma AcquireIff(w: World, i: nat)
    requires Enabled(w, Acquire(i))
    ensures Step(w, Acquire(i)).conns[i].uses ==
      w.conns[i].uses + if w.conns[i].key !in w.blocked && w.conns[i].alive && !w.conns[i].reaped then 1 else 0
  {
    hide Opening, Retired, Untracked;
  }

  /** A constructor may begin if and only if its key is not blocked; then it is counted. */
  lemma CreationIff(w: World, key: string)
    ensures var u := Step(w, BeginCreation(key));
      && |u.creators| == |w.creators| + (if key in w.blocked then 0 else 1)
      && Opening(u, key) == Opening(w, key) + (if key in w.blocked then 0 else 1)
      && forall k :: k != key ==> Opening(u, k) == Opening(w, k)
  {
  }

  lemma RunSnoc(actions: seq<Action>, w: World, a: Action, u: World)
    requires Run(actions) == w && Enabled(w, a) && Step(w, a) == u
    ensures Run(actions + [a]) == u
  {
    hide Step, Enabled;
    assert (actions + [a])[..|actions|] == actions;
  }

  /** So many claims of one connection in a row. */
  function Claims(i: nat, n: nat): seq<Action> { seq(n, _ => Acquire(i)) }

  lemma ClaimOnce(w: World, i: nat)
    requires i < |w.conns| && !w.conns[i].opening && w.conns[i].alive && !w.conns[i].reaped
    requires w.conns[i].key !in w.blocked
    ensures Enabled(w, Acquire(i))
    ensures Step(w, Acquire(i)) == w.(conns := w.conns[i := w.conns[i].(uses := w.conns[i].uses + 1)])
  {
    hide Opening, Retired, Untracked;
  }

  lemma ClaimsSnoc(actions: seq<Action>, i: nat, n: nat)
    ensures actions + Claims(i, n + 1) == (actions + Claims(i, n)) + [Acquire(i)] && actions + Claims(i, 0) == actions
  {
  }

  /** A connection is shared: while it may be used, every further claim is granted. */
  lemma {:induction false} ClaimsAdd(actions: seq<Action>, i: nat, n: nat)
    requires var w := Run(actions);
      && i < |w.conns| && !w.conns[i].opening && w.conns[i].alive && !w.conns[i].reaped
      && w.conns[i].key !in w.blocked
    ensures var w := Run(actions);
      Run(actions + Claims(i, n)) == w.(conns := w.conns[i := w.conns[i].(uses := w.conns[i].uses + n)])
  {
    hide *;
    var w := Run(actions);
    if n == 0 {
      ClaimsSnoc(actions, i, 0);
    } else {
      var u := Run(actions + Claims(i, n - 1));
      ClaimsAdd(actions, i, n - 1);
      ClaimsSnoc(actions, i, n - 1);
      ClaimOnce(u, i);
      RunSnoc(actions + Claims(i, n - 1), u, Acquire(i), Step(u, Acquire(i)));
    }
  }

  /** A started and registered connection of one key, and the same one claimed. */
  const READY := Conn("k", true, false, 0, false, true, false, false, false, false, false)

  const IN_USE := READY.(uses := 1)

  const CREATE: seq<Action> := [BeginCreation("k")] + [StartProcess(0, false)] + [Register(0)] + [EndCreation(0)]

  const CLAIM: seq<Action> := CREATE + [Acquire(0)]

  /** A world with that one connection and nothing under way. */
  function Alone(c: Conn): World { World([c], [Creator("k", false, Some(0))], [], map["k" := 0], {}, false) }

  /** The same connection while its constructor runs. */
  const STARTING := READY.(opening := true, registered := false)

  lemma StartOne()
    ensures Run([BeginCreation("k")] + [StartProcess(0, false)]) ==
            World([STARTING], [Creator("k", true, Some(0))], [], map["k" := 1], {}, false)
  {
    var w1 := World([], [Creator("k", true, None)], [], map["k" := 1], {}, false);
    assert Run([]) == START;
    hide Run, CanMaintain, Reaped, Retired, Untracked;
    RunSnoc([], START, BeginCreation("k"), w1);
    assert [] + [BeginCreation("k")] == [BeginCreation("k")];
    RunSnoc([BeginCreation("k")], w1, StartProcess(0, false),
            World([STARTING], [Creator("k", true, Some(0))], [], map["k" := 1], {}, false));
  }

  lemma CreateOne()
    ensures Run(CREATE) == Alone(READY)
  {
    var w2 := World([STARTING], [Creator("k", true, Some(0))], [], map["k" := 1], {}, false);
    var w3 := w2.(conns := [STARTING.(registered := true)]);
    var started: seq<Action> := [BeginCreation("k")] + [StartProcess(0, false)];
    hide Run, CanMaintain, Reaped, Retired, Untracked;
    StartOne();
    RunSnoc(started, w2, Register(0), w3);
    RunSnoc(started + [Register(0)], w3, EndCreation(0), Alone(READY));
  }

  lemma ClaimOne()
    ensures Run(CLAIM) == Alone(IN_USE)
  {
    CreateOne();
    hide Run, CanMaintain, Reaped, Retired, Untracked;
    RunSnoc(CREATE, Alone(READY), Acquire(0), Alone(IN_USE));
  }

  /** Track the connection, then maintain its key, which closes it. */
  const RETIRE: seq<Action> := CREATE + [Track(0)] + [Maintain("k")] + [Terminate(0, Reaper, true)] + [Unregister(0)]

  lemma RetireOne()
    ensures Run(RETIRE) ==
      Alone(Conn("k", false, true, 0, false, false, false, true, true, true, true))
        .(blocked := {"k"}, maintainers := [Maintainer("k", true)])
  {
    CreateOne();
    var c1 := READY.(tracked := true);
    var c2 := c1.(reaped := true, condemned := true);
    var c3 := c2.(alive := false, terminated := true);
    var w2 := Alone(c2).(blocked := {"k"}, maintainers := [Maintainer("k", true)]);
    hide Run, Reaped, Untracked;
    RunSnoc(CREATE, Alone(READY), Track(0), Alone(c1));
    assert Retired([c1], "k") == [c2];
    RunSnoc(CREATE + [Track(0)], Alone(c1), Maintain("k"), w2);
    RunSnoc(CREATE + [Track(0)] + [Maintain("k")], w2, Terminate(0, Reaper, true), w2.(conns := [c3]));
    RunSnoc(CREATE + [Track(0)] + [Maintain("k")] + [Terminate(0, Reaper, true)], w2.(conns := [c3]), Unregister(0),
            w2.(conns := [c3.(registered := false, closed := true)]));
  }

  /** Maintenance leaves a dead connection on the list, and no later scan drops it. */
  lemma RetiredStaysListed(more: seq<Action>, idleTooLong: bool)
    requires ShutDown !in more
    ensures var w := Run(RETIRE + more);
      && |w.conns| > 0 && w.conns[0].tracked && w.conns[0].reaped
      && (more == [] ==> !w.conns[0].alive && w.conns[0].closed)
      && Do(w, ReapOne(0, idleTooLong)) == w
  {
    RetireOne();
    MarkedStaysTracked(RETIRE, more, 0);
    assert more == [] ==> RETIRE + more == RETIRE;
    hide Run;
  }

  // --------------------------------------------------------------- the reaper's scan

  /** The first n connections have been looked at. */
  function ScannedTo(w: World, idle: seq<bool>, n: nat): (u: World)
    requires n <= |idle| == |w.conns|
    ensures |u.conns| == |w.conns|
  {
    w.(conns := seq(|w.conns|, i requires 0 <= i < |w.conns| =>
      if i < n && w.conns[i].tracked && CanReap(w.conns[i], idle[i]) then Reaped(w.conns[i]) else w.conns[i]))
  }

  function Scan(idle: seq<bool>, n: nat): seq<Action>
    requires n <= |idle|
  {
    seq(n, i requires 0 <= i < n => ReapOne(i, idle[i]))
  }

  lemma ScanOneMore(w: World, idle: seq<bool>, n: nat)
    requires 0 < n <= |idle| == |w.conns|
    ensures Do(ScannedTo(w, idle, n - 1), ReapOne(n - 1, idle[n - 1])) == ScannedTo(w, idle, n)
  {
    hide CanMaintain, CanUse;
    assert Do(ScannedTo(w, idle, n - 1), ReapOne(n - 1, idle[n - 1])).conns == ScannedTo(w, idle, n).conns;
  }

  /** A scan of the whole list is a run of single reaping steps. */
  lemma {:induction false} ScanIsRun(actions: seq<Action>, idle: seq<bool>, n: nat)
    requires n <= |idle| == |Run(actions).conns|
    ensures Run(actions + Scan(idle, n)) == ScannedTo(Run(actions), idle, n)
    decreases n
  {
    var w := Run(actions);
    if n == 0 {
      assert actions + Scan(idle, 0) == actions;
      assert ScannedTo(w, idle, 0).conns == w.conns;
    } else {
      ScanIsRun(actions, idle, n - 1);
      assert Scan(idle, n) == Scan(idle, n - 1) + [ReapOne(n - 1, idle[n - 1])];
      var front := actions + Scan(idle, n - 1);
      assert actions + Scan(idle, n) == front + [ReapOne(n - 1, idle[n - 1])];
      assert (front + [ReapOne(n - 1, idle[n - 1])])[..|front|] == front;
      ScanOneMore(w, idle, n);
    }
  }

  /**
    The exception is real: a Close that gave up before the process exited leaves
    a live user that maintenance cannot see.
  */
  lemma GivenUpConnStaysInUse()
    ensures var w := Run(CLAIM + [Terminate(0, Owner, false)] + [Unregister(0)] + [Maintain("k")]);
      "k" in w.blocked && |w.conns| == 1 && w.conns[0].key == "k" && w.conns[0].alive && w.conns[0].uses == 1 &&
        w.conns[0].closed
  {
    ClaimOne();
    var c := IN_USE.(terminated := true);
    var w0 := Alone(IN_USE);
    var w1 := w0.(conns := [c]);
    var w2 := w0.(conns := [c.(registered := false, closed := true)]);
    hide Run, Reaped, Untracked;
    RunSnoc(CLAIM, w0, Terminate(0, Owner, false), w1);
    RunSnoc(CLAIM + [Terminate(0, Owner, false)], w1, Unregister(0), w2);
    assert CanMaintain(w2, "k");
    RunSnoc(CLAIM + [Terminate(0, Owner, false)] + [Unregister(0)], w2, Maintain("k"), Step(w2, Maintain("k")));
  }
}
