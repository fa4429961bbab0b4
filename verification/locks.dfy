/**
  Cancellable acquisition of a readers-writer lock. The wait itself cannot be
  cancelled, so a caller that gives up leaves a chaser behind that releases the
  lock when it lands. Every step of every caller may interleave.
*/
module Locks {
  datatype Mode = Read | Write

  /**
    Refused: cancelled before it began. Waiting: the lock call is in flight.
    Granted: it landed, the caller has not looked yet. Abandoned: the caller has
    left with an error. Landed: the abandoned call landed and awaits its chaser.
  */
  datatype Phase = Refused | Waiting | Granted | Owner | Abandoned | Landed | Swept | Released

  datatype Caller = Caller(mode: Mode, phase: Phase, unlocks: nat)

  /** The underlying lock: its count of readers and whether a writer holds it. */
  datatype World = World(callers: seq<Caller>, readers: nat, writer: bool)

  datatype Action =
    | Request(mode: Mode, cancelled: bool)
    | Grant(i: nat)
    | Take(i: nat)
    | Cancel(i: nat)
    | Unlock(i: nat)
    | Chase(i: nat)

  const START := World([], 0, false)

  predicate Free(w: World, mode: Mode) { !w.writer && (mode == Write ==> w.readers == 0) }

  predicate Enabled(w: World, a: Action) {
    if a.Request? then true
    else
      && a.i < |w.callers|
      && var c := w.callers[a.i];
         match a
         case Grant(_) => (c.phase == Waiting || c.phase == Abandoned) && Free(w, c.mode)
         case Take(_) => c.phase == Granted
         case Cancel(_) => c.phase == Waiting || c.phase == Granted
         case Unlock(_) => c.phase == Owner
         case Chase(_) => c.phase == Landed
         case Request(_, _) => true
  }

  function Move(w: World, i: nat, phase: Phase): World
    requires i < |w.callers|
  {
    w.(callers := w.callers[i := w.callers[i].(phase := phase)])
  }

  function LockFor(w: World, i: nat, phase: Phase): World
    requires i < |w.callers|
  {
    var m := w.callers[i].mode;
    Move(w, i, phase).(readers := if m == Read then w.readers + 1 else w.readers, writer := w.writer || m == Write)
  }

  function UnlockFor(w: World, i: nat, phase: Phase): World
    requires i < |w.callers|
  {
    var c := w.callers[i];
    w.(callers := w.callers[i := Caller(c.mode, phase, c.unlocks + 1)],
       readers := if c.mode == Read && w.readers > 0 then w.readers - 1 else w.readers,
       writer := w.writer && c.mode == Read)
  }

  function Step(w: World, a: Action): World
    requires Enabled(w, a)
  {
    match a
    case Request(mode, cancelled) =>
      w.(callers := w.callers + [Caller(mode, if cancelled then Refused else Waiting, 0)])
    case Grant(i) => LockFor(w, i, if w.callers[i].phase == Waiting then Granted else Landed)
    case Take(i) => Move(w, i, Owner)
    case Cancel(i) => Move(w, i, if w.callers[i].phase == Waiting then Abandoned else Landed)
    case Unlock(i) => UnlockFor(w, i, Released)
    case Chase(i) => UnlockFor(w, i, Swept)
  }

  /** An action that is not possible now does nothing. */
  function Do(w: World, a: Action): World { if Enabled(w, a) then Step(w, a) else w }

  function Run(w: World, actions: seq<Action>): World {
    if actions == [] then w else Do(Run(w, actions[..|actions| - 1]), actions[|actions| - 1])
  }

  // -------------------------------------------------------------------- invariant

  predicate Holds(c: Caller) { c.phase == Granted || c.phase == Owner || c.phase == Landed }

  function Count(cs: seq<Caller>, mode: Mode): nat {
    if cs == [] then 0
    else Count(cs[..|cs| - 1], mode) + if Holds(cs[|cs| - 1]) && cs[|cs| - 1].mode == mode then 1 else 0
  }

  function Phased(cs: seq<Caller>, phase: Phase): nat {
    if cs == [] then 0 else Phased(cs[..|cs| - 1], phase) + if cs[|cs| - 1].phase == phase then 1 else 0
  }

  predicate CallerOK(c: Caller) {
    c.unlocks == if c.phase == Swept || c.phase == Released then 1 else 0
  }

  predicate Inv(w: World) {
    && w.readers == Count(w.callers, Read)
    && Count(w.callers, Write) == (if w.writer then 1 else 0)
    && (w.writer ==> w.readers == 0)
    && forall i :: 0 <= i < |w.callers| ==> CallerOK(w.callers[i])
  }

  function Weight(c: Caller, mode: Mode): nat { if Holds(c) && c.mode == mode then 1 else 0 }

  lemma {:induction false} CountUpdate(cs: seq<Caller>, i: nat, c: Caller, mode: Mode)
    requires i < |cs|
    ensures Count(cs[i := c], mode) == Count(cs, mode) + Weight(c, mode) - Weight(cs[i], mode)
    decreases |cs|
  {
    var n := |cs| - 1;
    if i < n {
      assert cs[i := c][..n] == cs[..n][i := c];
      CountUpdate(cs[..n], i, c, mode);
    } else {
      assert cs[i := c][..n] == cs[..n];
    }
  }

  lemma {:induction false} CountSeen(cs: seq<Caller>, i: nat)
    requires i < |cs| && Holds(cs[i])
    ensures Count(cs, cs[i].mode) >= 1
    decreases |cs|
  {
    if i < |cs| - 1 {
      CountSeen(cs[..|cs| - 1], i);
    }
  }

  lemma {:induction false} CountTwo(cs: seq<Caller>, i: nat, j: nat)
    requires i < j < |cs| && Holds(cs[i]) && Holds(cs[j]) && cs[i].mode == cs[j].mode
    ensures Count(cs, cs[i].mode) >= 2
    decreases |cs|
  {
    if j < |cs| - 1 {
      CountTwo(cs[..|cs| - 1], i, j);
    } else {
      CountSeen(cs[..j], i);
    }
  }

  lemma RequestKeeps(w: World, mode: Mode, cancelled: bool)
    requires Inv(w)
    ensures Inv(Step(w, Request(mode, cancelled)))
  {
    var u := Step(w, Request(mode, cancelled));
    assert u.callers[..|w.callers|] == w.callers;
  }

  /** What a step may do to one caller and to the lock without breaking the count. */
  lemma MoveKeeps(w: World, u: World, i: nat)
    requires Inv(w) && i < |w.callers| == |u.callers| && u.callers == w.callers[i := u.callers[i]]
    requires CallerOK(u.callers[i])
    requires u.readers == Count(u.callers, Read) && Count(u.callers, Write) == (if u.writer then 1 else 0)
    requires u.writer ==> u.readers == 0
    ensures Inv(u)
  {
    hide Count, CallerOK;
    forall j | 0 <= j < |u.callers| ensures CallerOK(u.callers[j]) {
    }
  }

  lemma StepKeeps(w: World, a: Action)
    requires Inv(w) && Enabled(w, a)
    ensures Inv(Step(w, a))
  {
    if a.Request? {
      RequestKeeps(w, a.mode, a.cancelled);
    } else {
      var u := Step(w, a);
      CountUpdate(w.callers, a.i, u.callers[a.i], Read);
      CountUpdate(w.callers, a.i, u.callers[a.i], Write);
      if Holds(w.callers[a.i]) {
        CountSeen(w.callers, a.i);
      }
      MoveKeeps(w, u, a.i);
    }
  }

  lemma {:induction false} RunKeeps(w: World, actions: seq<Action>)
    requires Inv(w)
    ensures Inv(Run(w, actions))
    decreases |actions|
  {
    if actions != [] {
      RunKeeps(w, actions[..|actions| - 1]);
      var v := Run(w, actions[..|actions| - 1]);
      hide Inv, Step, Enabled;
      if Enabled(v, actions[|actions| - 1]) {
        StepKeeps(v, actions[|actions| - 1]);
      }
    }
  }

  // --------------------------------------------------------------------- theorems

  lemma {:induction false} HoldersByPhase(cs: seq<Caller>)
    ensures Count(cs, Read) + Count(cs, Write) == Phased(cs, Owner) + Phased(cs, Granted) + Phased(cs, Landed)
  {
    if cs != [] {
      HoldersByPhase(cs[..|cs| - 1]);
    }
  }

  /** The holds on the lock are the owners, the undelivered grants and the pending chasers. */
  lemma HoldsAreAccountedFor(actions: seq<Action>)
    ensures var w := Run(START, actions);
      w.readers + (if w.writer then 1 else 0) ==
      Phased(w.callers, Owner) + Phased(w.callers, Granted) + Phased(w.callers, Landed)
  {
    RunKeeps(START, actions);
    HoldersByPhase(Run(START, actions).callers);
  }

  /** A writer that owns the lock owns it alone: nobody else even holds it. */
  lemma Exclusion(actions: seq<Action>, i: nat, j: nat)
    requires var cs := Run(START, actions).callers;
      i < |cs| && j < |cs| && i != j && Holds(cs[i]) && Holds(cs[j])
    ensures Run(START, actions).callers[i].mode == Read && Run(START, actions).callers[j].mode == Read
  {
    RunKeeps(START, actions);
    var w := Run(START, actions);
    CountSeen(w.callers, i);
    CountSeen(w.callers, j);
    if w.callers[i].mode == Write && w.callers[j].mode == Write {
      CountTwo(w.callers, if i < j then i else j, if i < j then j else i);
    }
  }

  lemma {:induction false} CountNone(cs: seq<Caller>, mode: Mode)
    ensures Count(cs, mode) == 0 <==> forall j :: 0 <= j < |cs| ==> !(Holds(cs[j]) && cs[j].mode == mode)
  {
    if cs != [] {
      var n := |cs| - 1;
      CountNone(cs[..n], mode);
      assert forall j :: 0 <= j < n ==> cs[..n][j] == cs[j];
    }
  }

  /**
    In every run a lock call that is in flight lands if and only if nobody who holds
    the lock is in its way: readers share it, and a writer needs it alone.
  */
  lemma GrantIff(actions: seq<Action>, i: nat)
    requires i < |Run(START, actions).callers|
    ensures var w := Run(START, actions); var cs := w.callers;
      Enabled(w, Grant(i)) <==>
        && (cs[i].phase == Waiting || cs[i].phase == Abandoned)
        && forall j :: 0 <= j < |cs| && Holds(cs[j]) ==> cs[j].mode == Read && cs[i].mode == Read
  {
    RunKeeps(START, actions);
    var w := Run(START, actions);
    CountNone(w.callers, Read);
    CountNone(w.callers, Write);
    hide Run, Count;
  }

  /** The caller was told that it did not get the lock. */
  predicate Errored(c: Caller) { c.phase in {Refused, Abandoned, Landed, Swept} }

  lemma StepKeepsError(w: World, a: Action, i: nat)
    requires i < |w.callers| && Errored(w.callers[i])
    ensures i < |Do(w, a).callers| && Errored(Do(w, a).callers[i])
  {
  }

  lemma CallersOK(w: World, i: nat)
    requires Inv(w) && i < |w.callers|
    ensures CallerOK(w.callers[i])
  {
  }

  /**
    A caller that received an error never owns the lock afterwards, and its
    abandoned hold is released exactly once if it lands.
  */
  lemma {:induction false} ErroredNeverOwns(actions: seq<Action>, more: seq<Action>, i: nat)
    requires i < |Run(START, actions).callers| && Errored(Run(START, actions).callers[i])
    ensures var cs := Run(START, actions + more).callers;
      && i < |cs| && Errored(cs[i]) && cs[i].phase != Owner
      && (cs[i].unlocks == 1 <==> cs[i].phase == Swept) && cs[i].unlocks <= 1
    decreases |more|
  {
    RunKeeps(START, actions + more);
    hide Inv, Enabled, Step;
    if more == [] {
      assert actions + more == actions;
    } else {
      var n := |more| - 1;
      ErroredNeverOwns(actions, more[..n], i);
      assert (actions + more)[..|actions| + n] == actions + more[..n];
      StepKeepsError(Run(START, actions + more[..n]), more[n], i);
    }
    CallersOK(Run(START, actions + more), i);
  }

  // ---------------------------------------------------------------------- drain

  function Rank(c: Caller): nat {
    match c.phase
    case Waiting => 5
    case Abandoned => 4
    case Granted => 3
    case Owner => 2
    case Landed => 1
    case _ => 0
  }

  function Ranks(cs: seq<Caller>): nat {
    if cs == [] then 0 else Ranks(cs[..|cs| - 1]) + Rank(cs[|cs| - 1])
  }

  lemma {:induction false} RanksUpdate(cs: seq<Caller>, i: nat, c: Caller)
    requires i < |cs|
    ensures Ranks(cs[i := c]) == Ranks(cs) + Rank(c) - Rank(cs[i])
    decreases |cs|
  {
    var n := |cs| - 1;
    if i < n {
      assert cs[i := c][..n] == cs[..n][i := c];
      RanksUpdate(cs[..n], i, c);
    } else {
      assert cs[i := c][..n] == cs[..n];
    }
  }

  /** Every step but a new request brings the callers closer to their end. */
  lemma StepsDescend(w: World, a: Action)
    requires Enabled(w, a) && !a.Request?
    ensures Ranks(Step(w, a).callers) < Ranks(w.callers)
  {
    RanksUpdate(w.callers, a.i, Step(w, a).callers[a.i]);
  }

  lemma {:induction false} RankZeroIsFree(cs: seq<Caller>)
    requires Ranks(cs) == 0
    ensures Count(cs, Read) == 0 && Count(cs, Write) == 0
  {
    if cs != [] {
      RankZeroIsFree(cs[..|cs| - 1]);
    }
  }

  lemma {:induction false} NobodyHolds(cs: seq<Caller>)
    requires Ranks(cs) == 0
    ensures forall j :: 0 <= j < |cs| ==> !Holds(cs[j])
  {
    if cs != [] {
      NobodyHolds(cs[..|cs| - 1]);
      assert forall j :: 0 <= j < |cs| - 1 ==> cs[j] == cs[..|cs| - 1][j];
    }
  }

  lemma {:induction false} SomeRank(cs: seq<Caller>) returns (i: nat)
    requires Ranks(cs) > 0
    ensures i < |cs| && Rank(cs[i]) > 0
    ensures (exists j :: 0 <= j < |cs| && Holds(cs[j])) ==> Holds(cs[i])
  {
    var n := |cs| - 1;
    if Holds(cs[n]) || Ranks(cs[..n]) == 0 {
      i := n;
      if Ranks(cs[..n]) == 0 {
        NobodyHolds(cs[..n]);
        assert forall j :: 0 <= j < n ==> cs[j] == cs[..n][j];
      }
    } else {
      i := SomeRank(cs[..n]);
      assert forall j :: 0 <= j < n ==> cs[j] == cs[..n][j];
      if !Holds(cs[i]) && Rank(cs[n]) > 0 {
        i := n;
      }
    }
  }

  lemma {:induction false} NoHolderNoCount(cs: seq<Caller>, mode: Mode)
    requires forall j :: 0 <= j < |cs| ==> !Holds(cs[j])
    ensures Count(cs, mode) == 0
  {
    if cs != [] {
      NoHolderNoCount(cs[..|cs| - 1], mode);
    }
  }

  /** The steps never run dry while a caller is unfinished. */
  lemma NeverStuck(w: World) returns (a: Action)
    requires Inv(w) && Ranks(w.callers) > 0
    ensures Enabled(w, a) && !a.Request?
  {
    var i := SomeRank(w.callers);
    var c := w.callers[i];
    if Holds(c) {
      a := if c.phase == Granted then Take(i) else if c.phase == Owner then Unlock(i) else Chase(i);
    } else {
      NoHolderNoCount(w.callers, Read);
      NoHolderNoCount(w.callers, Write);
      a := Grant(i);
    }
  }

  lemma {:induction false} RunCons(w: World, a: Action, rest: seq<Action>)
    requires Enabled(w, a)
    ensures Run(w, [a] + rest) == Run(Step(w, a), rest)
    decreases |rest|
  {
    hide Step, Enabled;
    if rest == [] {
      assert ([a] + rest)[..0] == [];
    } else {
      var n := |rest| - 1;
      assert ([a] + rest)[..n + 1] == [a] + rest[..n];
      RunCons(w, a, rest[..n]);
    }
  }

  /**
    Drain: from any reachable state, with no further requests, some schedule of at
    most Ranks steps finishes every caller, and then the lock is free.
  */
  lemma {:induction false} Drains(w: World) returns (steps: seq<Action>)
    requires Inv(w)
    ensures |steps| <= Ranks(w.callers) && forall k :: 0 <= k < |steps| ==> !steps[k].Request?
    ensures var u := Run(w, steps); Ranks(u.callers) == 0 && u.readers == 0 && !u.writer
    decreases Ranks(w.callers)
  {
    if Ranks(w.callers) == 0 {
      steps := [];
      RankZeroIsFree(w.callers);
    } else {
      var a := NeverStuck(w);
      StepsDescend(w, a);
      StepKeeps(w, a);
      hide Inv, Step, Enabled;
      var rest := Drains(Step(w, a));
      RunCons(w, a, rest);
      steps := [a] + rest;
    }
  }

  /** A schedule without requests: each step is possible when its turn comes. */
  ghost predicate Schedule(w: World, steps: seq<Action>)
    decreases |steps|
  {
    steps == [] || (Enabled(w, steps[0]) && !steps[0].Request? && Schedule(Step(w, steps[0]), steps[1..]))
  }

  /** Nothing can happen any more, unless somebody asks for the lock. */
  ghost predicate Settled(w: World) { forall a :: Enabled(w, a) ==> a.Request? }

  /** The lock is free, and every caller has returned and released what it got. */
  predicate Drained(w: World) {
    && w.readers == 0 && !w.writer
    && forall i :: 0 <= i < |w.callers| ==> w.callers[i].phase in {Refused, Swept, Released}
  }

  lemma {:induction false} RankZeroIsDone(cs: seq<Caller>)
    ensures Ranks(cs) == 0 <==> forall i :: 0 <= i < |cs| ==> cs[i].phase in {Refused, Swept, Released}
  {
    if cs != [] {
      RankZeroIsDone(cs[..|cs| - 1]);
      assert forall i :: 0 <= i < |cs| - 1 ==> cs[i] == cs[..|cs| - 1][i];
    }
  }

  /** The callers can only come to rest when all of them are done and the lock is free. */
  lemma SettledIffDrained(w: World)
    requires Inv(w)
    ensures Settled(w) <==> Drained(w)
  {
    RankZeroIsDone(w.callers);
    hide Ranks;
    if Ranks(w.callers) == 0 {
      RankZeroIsFree(w.callers);
    } else {
      var a := NeverStuck(w);
      assert Enabled(w, a) && !a.Request?;
    }
  }

  /**
    Whatever the scheduler does: no run without new requests is longer than the
    rank of the callers, and where it cannot go on the lock is free and every
    caller is done.
  */
  lemma {:induction false} EveryScheduleDrains(w: World, steps: seq<Action>)
    requires Inv(w) && Schedule(w, steps)
    ensures var u := Run(w, steps);
      && |steps| + Ranks(u.callers) <= Ranks(w.callers)
      && (Settled(u) <==> Drained(u))
    decreases |steps|
  {
    hide Inv, Enabled, Ranks, Settled, Drained;
    if steps == [] {
      SettledIffDrained(w);
    } else {
      var a, rest := steps[0], steps[1..];
      StepKeeps(w, a);
      StepsDescend(w, a);
      EveryScheduleDrains(Step(w, a), rest);
      assert steps == [a] + rest;
      RunCons(w, a, rest);
    }
  }
}
