/**
  The two-file account swap: a compare-and-replace of each file in turn, and the
  rollback that restores the state before it after any number of crashes.
*/
module CodexAccount {
  import opened Wrappers

  /** auth.json and config.toml of one home directory; a missing file is None. */
  datatype Files = Files(auth: Option<string>, config: Option<string>)

  datatype Outcome = Done | Refused | Crashed

  /** May one file be taken from `was` to `next`, given what is on disk? */
  predicate Allowed(disk: Option<string>, was: Option<string>, next: Option<string>) {
    was == next || disk == was
  }

  /** The disk after the first `steps` file steps, none of which was refused. */
  function Partly(disk: Files, before: Files, after: Files, steps: nat): Files {
    Files(
      if steps >= 1 && before.auth != after.auth then after.auth else disk.auth,
      if steps >= 2 && before.config != after.config then after.config else disk.config)
  }

  /** How far a replacement gets, and with which outcome. */
  function Replace(disk: Files, before: Files, after: Files, crashAfter: nat): (Outcome, Files) {
    if crashAfter == 0 then (Crashed, disk)
    else if !Allowed(disk.auth, before.auth, after.auth) then (Refused, disk)
    else if crashAfter == 1 then (Crashed, Partly(disk, before, after, 1))
    else if !Allowed(disk.config, before.config, after.config) then (Refused, Partly(disk, before, after, 1))
    else if crashAfter == 2 then (Crashed, Partly(disk, before, after, 2))
    else (if Partly(disk, before, after, 2) == after then Done else Refused, Partly(disk, before, after, 2))
  }

  predicate Known(disk: Files, before: Files, after: Files) {
    (disk.auth == before.auth || disk.auth == after.auth) &&
      (disk.config == before.config || disk.config == after.config)
  }

  function Rollback(disk: Files, before: Files, after: Files, crashAfter: nat): (Outcome, Files) {
    if !Known(disk, before, after) then (Refused, disk) else Replace(disk, disk, before, crashAfter)
  }

  const NO_CRASH: nat := 3

  /** The files on disk, changed step by step. */
  class CodexHome {
    var auth: Option<string>
    var config: Option<string>

    constructor (files: Files)
      ensures Disk() == files
    {
      auth, config := files.auth, files.config;
    }

    function Disk(): Files
      reads this
    {
      Files(auth, config)
    }

    /** Compare each file right before its replacement; stop where a crash strikes. */
    method ReplaceFiles(before: Files, after: Files, crashAfter: nat) returns (r: Outcome)
      modifies this
      ensures (r, Disk()) == Replace(old(Disk()), before, after, crashAfter)
      ensures old(Disk()) == before ==>
        && r == (if crashAfter > 2 then Done else Crashed)
        && auth == (if crashAfter > 0 then after.auth else before.auth)
        && config == (if crashAfter > 1 then after.config else before.config)
    {
      if crashAfter == 0 {
        return Crashed;
      }
      if before.auth != after.auth {
        if auth != before.auth {
          return Refused;
        }
        auth := after.auth;
      }
      if crashAfter == 1 {
        return Crashed;
      }
      if before.config != after.config {
        if config != before.config {
          return Refused;
        }
        config := after.config;
      }
      if crashAfter == 2 {
        return Crashed;
      }
      if Disk() != after {
        return Refused;
      }
      r := Done;
    }

    method RollbackFiles(before: Files, after: Files, crashAfter: nat) returns (r: Outcome)
      modifies this
      ensures (r, Disk()) == Rollback(old(Disk()), before, after, crashAfter)
    {
      var actual := Disk();
      if actual.auth != before.auth && actual.auth != after.auth {
        return Refused;
      }
      if actual.config != before.config && actual.config != after.config {
        return Refused;
      }
      r := ReplaceFiles(actual, before, crashAfter);
    }
  }

  // --------------------------------------------------------------------- theorems

  /**
    A replacement that runs to its end succeeds iff the disk held exactly
    `before`, and then holds exactly `after`.
  */
  lemma ReplaceIff(disk: Files, before: Files, after: Files)
    ensures var (r, now) := Replace(disk, before, after, NO_CRASH);
      (r == Done <==> disk == before) && (r == Done ==> now == after)
  {
  }

  /**
    Wherever it crashes or refuses, a file that changes held its `before` content
    and now holds its `after` content, and the second one changes only behind the first.
  */
  lemma NeverOverwritesForeign(disk: Files, before: Files, after: Files, crashAfter: nat)
    ensures var (_, now) := Replace(disk, before, after, crashAfter);
      && (now.auth != disk.auth ==> disk.auth == before.auth && now.auth == after.auth)
      && (now.config != disk.config ==>
        && disk.config == before.config && now.config == after.config
        && now.auth == if before.auth == after.auth then disk.auth else after.auth)
  {
  }

  /** Rollback restores `before` iff each file is on one of its two sides; else it changes nothing. */
  lemma RollbackIff(disk: Files, before: Files, after: Files)
    ensures var (r, now) := Rollback(disk, before, after, NO_CRASH);
      if Known(disk, before, after) then r == Done && now == before else r == Refused && now == disk
  {
  }

  /** Rollbacks, each crashing after some step. */
  function Rollbacks(disk: Files, before: Files, after: Files, crashes: seq<nat>): Files {
    if crashes == [] then disk
    else Rollback(Rollbacks(disk, before, after, crashes[..|crashes| - 1]), before, after, crashes[|crashes| - 1]).1
  }

  lemma {:induction false} RollbacksStayKnown(disk: Files, before: Files, after: Files, crashes: seq<nat>)
    requires Known(disk, before, after)
    ensures Known(Rollbacks(disk, before, after, crashes), before, after)
    decreases |crashes|
  {
    if crashes != [] {
      RollbacksStayKnown(disk, before, after, crashes[..|crashes| - 1]);
    }
  }

  /**
    Recovery: crash the replacement anywhere, then crash the rollback anywhere and
    any number of times; the next rollback that is allowed to end restores exactly
    what was there before.
  */
  lemma RecoveryRestores(before: Files, after: Files, crashAfter: nat, crashes: seq<nat>)
    ensures var left := Rollbacks(Replace(before, before, after, crashAfter).1, before, after, crashes);
      Rollback(left, before, after, NO_CRASH) == (Done, before)
  {
    var first := Replace(before, before, after, crashAfter).1;
    RollbacksStayKnown(first, before, after, crashes);
    RollbackIff(Rollbacks(first, before, after, crashes), before, after);
  }

  lemma UnknownIsLeft(disk: Files, before: Files, after: Files, crashAfter: nat)
    requires !Known(disk, before, after)
    ensures Rollback(disk, before, after, crashAfter) == (Refused, disk)
  {
  }

  /**
    An outside edit outlives the whole transaction: a file that held neither side
    when the replacement began holds the same content after it and after any number
    of rollbacks, wherever each of them crashes.
  */
  lemma {:induction false} ForeignSurvives(disk: Files, before: Files, after: Files, crashAfter: nat, crashes: seq<nat>)
    ensures var left := Rollbacks(Replace(disk, before, after, crashAfter).1, before, after, crashes);
      && (disk.auth != before.auth && disk.auth != after.auth ==> left.auth == disk.auth)
      && (disk.config != before.config && disk.config != after.config ==> left.config == disk.config)
    decreases |crashes|
  {
    var first := Replace(disk, before, after, crashAfter).1;
    if crashes == [] {
      NeverOverwritesForeign(disk, before, after, crashAfter);
    } else {
      var n := |crashes| - 1;
      ForeignSurvives(disk, before, after, crashAfter, crashes[..n]);
      var now := Rollbacks(first, before, after, crashes[..n]);
      if !Known(now, before, after) {
        UnknownIsLeft(now, before, after, crashes[n]);
      }
    }
  }

  // -------------------------------------------------------- edits between the steps

  /** A replacement with outside edits before each step and before the final check; and the disks it saw. */
  function ReplaceAmong(disk: Files, before: Files, after: Files, edit: nat -> (Files -> Files))
    : (r: (Outcome, seq<Files>))
    ensures r.1 != []
  {
    var d0 := edit(0)(disk);
    if !Allowed(d0.auth, before.auth, after.auth) then (Refused, [d0])
    else
      var d1 := edit(1)(Partly(d0, before, after, 1));
      if !Allowed(d1.config, before.config, after.config) then (Refused, [d0, d1])
      else
        var d2 := edit(2)(if before.config != after.config then d1.(config := after.config) else d1);
        (if d2 == after then Done else Refused, [d0, d1, d2])
  }

  /**
    With outside edits at any time, success still means that the files are `after`
    at the final check, and that each file was replaced only where it held its
    `before` content at its own step. Without edits this is Replace.
  */
  lemma SuccessMeansAfter(disk: Files, before: Files, after: Files, edit: nat -> (Files -> Files))
    ensures var (r, seen) := ReplaceAmong(disk, before, after, edit);
      r == Done ==>
        && |seen| == 3 && seen[2] == after
        && (before.auth != after.auth ==> seen[0].auth == before.auth)
        && (before.config != after.config ==> seen[1].config == before.config)
    ensures (forall k, d :: edit(k)(d) == d) ==>
      var (r, seen) := ReplaceAmong(disk, before, after, edit);
      (r, seen[|seen| - 1]) == Replace(disk, before, after, NO_CRASH)
  {
  }
}
