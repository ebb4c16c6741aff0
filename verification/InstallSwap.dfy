/**
 * deploy/updater/orderpy-bridge-updater.sh, from the removal of the old backup to the end: the swap of the installed
 * tree, its rollback, the service, and the result. A removal, and a move that may cross file systems, pass through a
 * partial tree on their way; a move between the two neighbouring directories is a rename and does not.
 */
module InstallSwap {
  import opened Basics

  /** What a directory holds; Partial is anything that is neither whole tree. */
  datatype Tree = Absent | Previous | New | Partial

  /** The result file: success, or failed with an error. */
  datatype Status = Success | Failed(error: string)

  /** How each command turns out. */
  datatype Outcomes = Outcomes(
    removesOldBackup: bool,   // rm -rf OLD before the swap
    stopWipes: bool,          // stopping the service removes its runtime directory
    backsUp: bool,            // mv INSTALL OLD
    installs: bool,           // mv EXTRACTED INSTALL
    leavesPart: bool,         // ... and whether a failed one leaves a part
    rollbackRemoves: bool,    // rm -rf INSTALL while rolling back
    rollbackMoves: bool,      // mv OLD INSTALL while rolling back
    restarts: bool,           // systemctl start on the failure paths
    writes: bool,             // write_result, where the runtime directory is there
    finishesInstall: bool,    // the unguarded commands before the start
    starts: bool,             // systemctl start of the new version
    failedStartWipes: bool,   // a failed systemctl start leaves no runtime directory
    removesBackup: bool)      // rm -rf OLD after the start

  // ----- what the directories go through -----

  datatype Moment = Moment(install: Tree, backup: Tree, running: bool)

  /** A whole tree is in place: the previous one, or, once the service runs from it, the new one. */
  predicate Whole(m: Moment) {
    m.install == Previous || m.backup == Previous || (m.install == New && m.running)
  }

  function Remains(t: Tree): Tree { if t == Absent then Absent else Partial }

  /** rm -rf INSTALL and mv OLD INSTALL. */
  function RollbackTrail(out: Outcomes, install: Tree): seq<Moment> {
    var removing, removed := Moment(Remains(install), Previous, false), Moment(Absent, Previous, false);
    if !out.rollbackRemoves then [removing]
    else if !out.rollbackMoves then [removing, removed]
    else [removing, removed, Moment(Previous, Absent, false)]
  }

  /** After a rollback that got through. */
  function Restored(out: Outcomes, running: bool): Moment {
    if out.rollbackMoves then Moment(Previous, Absent, running) else Moment(Absent, Previous, running)
  }

  function Left(out: Outcomes): Tree { if out.leavesPart then Partial else Absent }

  /** From a failed move of the new tree. */
  function FailedMoveTrail(out: Outcomes): seq<Moment> {
    [Moment(Left(out), Previous, false)]
    + (RollbackTrail(out, Left(out)) + if out.rollbackRemoves then [Restored(out, out.restarts)] else [])
  }

  /** From a move of the new tree that worked. */
  function NewTreeTrail(out: Outcomes): seq<Moment> {
    var moved, started, removing := Moment(New, Previous, false), Moment(New, Previous, true), Moment(New, Partial, true);
    if !out.finishesInstall then [moved]
    else if !out.starts then [moved] + RollbackTrail(out, New)
    else if !out.removesBackup then [moved, started, removing]
    else [moved, started, removing, Moment(New, Absent, true)]
  }

  /** After the backup is made. */
  function InstallTrail(out: Outcomes): seq<Moment> {
    [Moment(Partial, Previous, false)] + if out.installs then NewTreeTrail(out) else FailedMoveTrail(out)
  }

  /** Until the service is stopped. */
  function Preparing(leftover: Tree, running: bool): seq<Moment> {
    [Moment(Previous, Remains(leftover), running), Moment(Previous, Absent, running), Moment(Previous, Absent, false)]
  }

  /** Every state of the two directories and the service, from the first removal to the end. */
  function Trail(out: Outcomes, leftover: Tree, running: bool): seq<Moment> {
    if !out.removesOldBackup then [Moment(Previous, Remains(leftover), running)]
    else if out.backsUp then (Preparing(leftover, running) + [Moment(Absent, Previous, false)]) + InstallTrail(out)
    else if out.stopWipes || !out.writes then Preparing(leftover, running)
    else Preparing(leftover, running) + [Moment(Previous, Absent, out.restarts)]
  }

  predicate AllWhole(trail: seq<Moment>) {
    forall i :: 0 <= i < |trail| ==> Whole(trail[i])
  }

  lemma WholeConcat(a: seq<Moment>, b: seq<Moment>)
    ensures AllWhole(a + b) <==> AllWhole(a) && AllWhole(b)
  {
    hide Whole;
    if AllWhole(a + b) {
      forall i | 0 <= i < |a| ensures Whole(a[i]) { assert (a + b)[i] == a[i]; }
      forall i | 0 <= i < |b| ensures Whole(b[i]) { assert (a + b)[|a| + i] == b[i]; }
    }
  }

  lemma InstallWhole(out: Outcomes)
    ensures AllWhole(InstallTrail(out))
  {
    var left := if out.installs then New else Left(out);
    var back := RollbackTrail(out, left);
    assert AllWhole(back);
    hide RollbackTrail;
    var first := [Moment(Partial, Previous, false)];
    if !out.installs {
      var up := if out.rollbackRemoves then [Restored(out, out.restarts)] else [];
      assert AllWhole(first) && AllWhole([Moment(left, Previous, false)]) && AllWhole(up);
      hide AllWhole;
      WholeConcat(back, up);
      WholeConcat([Moment(left, Previous, false)], back + up);
      WholeConcat(first, FailedMoveTrail(out));
    } else {
      assert AllWhole(first) && AllWhole([Moment(New, Previous, false)]);
      assert AllWhole(NewTreeTrail(out)) by { WholeConcat([Moment(New, Previous, false)], back); }
      hide AllWhole, NewTreeTrail;
      WholeConcat(first, NewTreeTrail(out));
    }
  }

  /** At every moment a whole tree is in one of the two places, wherever the script is killed. */
  lemma NeverWithoutATree(out: Outcomes, leftover: Tree, running: bool)
    ensures AllWhole(Trail(out, leftover, running))
  {
    hide InstallTrail;
    InstallWhole(out);
    if out.removesOldBackup && out.backsUp {
      var front := Preparing(leftover, running) + [Moment(Absent, Previous, false)];
      assert AllWhole(front);
      WholeConcat(front, InstallTrail(out));
    }
  }

  /** The swap is not atomic: there is a moment without any installation exactly when the backup is made. */
  lemma WithoutInstallation(out: Outcomes, leftover: Tree, running: bool)
    ensures (exists i :: 0 <= i < |Trail(out, leftover, running)| && Trail(out, leftover, running)[i].install == Absent)
       <==> out.removesOldBackup && out.backsUp
  {
    var trail := Trail(out, leftover, running);
    if out.removesOldBackup && out.backsUp {
      assert trail[3] == Moment(Absent, Previous, false);
    }
  }

  /** Whenever the service runs, what is installed is a whole tree or nothing. */
  lemma NeverRunsAPart(out: Outcomes, leftover: Tree, running: bool)
    ensures forall i :: 0 <= i < |Trail(out, leftover, running)| ==>
      Trail(out, leftover, running)[i].running ==> Trail(out, leftover, running)[i].install != Partial
  {
    var trail := Trail(out, leftover, running);
    if out.removesOldBackup && out.backsUp {
      var front := Preparing(leftover, running) + [Moment(Absent, Previous, false)];
      InstallRuns(out);
      hide InstallTrail;
      forall i | 0 <= i < |trail|
        ensures trail[i].running ==> trail[i].install != Partial
      {
        assert i >= |front| ==> trail[i] == InstallTrail(out)[i - |front|];
      }
    }
  }

  lemma InstallRuns(out: Outcomes)
    ensures forall i :: 0 <= i < |InstallTrail(out)| ==> InstallTrail(out)[i].running ==> InstallTrail(out)[i].install != Partial
  {
  }

  /**
   * The state after each command: of a swap that goes through, of one whose new version does not start, and of one whose
   * new tree cannot be moved, where the rollback goes through.
   */
  lemma CommandByCommand(out: Outcomes, running: bool)
    requires out.removesOldBackup && out.backsUp
    ensures out.installs && out.finishesInstall && out.starts && out.removesBackup ==> Trail(out, Absent, running) == [
      Moment(Previous, Absent, running), Moment(Previous, Absent, running), Moment(Previous, Absent, false),
      Moment(Absent, Previous, false), Moment(Partial, Previous, false), Moment(New, Previous, false),
      Moment(New, Previous, true), Moment(New, Partial, true), Moment(New, Absent, true)]
    ensures out.installs && out.finishesInstall && !out.starts && out.rollbackRemoves && out.rollbackMoves ==>
      Trail(out, Absent, running) == [
      Moment(Previous, Absent, running), Moment(Previous, Absent, running), Moment(Previous, Absent, false),
      Moment(Absent, Previous, false), Moment(Partial, Previous, false), Moment(New, Previous, false),
      Moment(Partial, Previous, false), Moment(Absent, Previous, false), Moment(Previous, Absent, false)]
    ensures !out.installs && out.rollbackRemoves && out.rollbackMoves ==>
      var left := if out.leavesPart then Partial else Absent;
      Trail(out, Absent, running) == [
      Moment(Previous, Absent, running), Moment(Previous, Absent, running), Moment(Previous, Absent, false),
      Moment(Absent, Previous, false), Moment(Partial, Previous, false), Moment(left, Previous, false),
      Moment(left, Previous, false), Moment(Absent, Previous, false), Moment(Previous, Absent, false),
      Moment(Previous, Absent, out.restarts)]
  {
  }

  /** When the old backup cannot be removed, nothing else has been touched and the service is as it was. */
  lemma EarlyExit(out: Outcomes, running: bool)
    requires !out.removesOldBackup
    ensures EndOf(out, Partial, running) == Ending(Moment(Previous, Partial, running), None, 1)
    ensures |Trail(out, Partial, running)| == 1
  {
  }

  // ----- how a run ends -----

  datatype Ending = Ending(last: Moment, result: Option<Status>, exitCode: int)

  function ReportedIf(dir: bool, status: Status): Option<Status> { if dir then Some(status) else None }

  predicate DirAfterRestart(out: Outcomes) { out.restarts || !out.failedStartWipes }

  /**
   * The result the script leaves and its exit code. write_result needs the runtime directory and can fail even so; a
   * failed start that removes the directory removes a result in it. A result that is not written whole is none.
   */
  function ReportOf(out: Outcomes): (Option<Status>, int) {
    if !out.removesOldBackup then (None, 1)
    else if !out.backsUp then (ReportedIf(!out.stopWipes && out.writes && DirAfterRestart(out), Failed("backup_failed")), 1)
    else if !out.installs then
      (ReportedIf(out.rollbackRemoves && DirAfterRestart(out) && out.writes, Failed("install_move_failed")), 1)
    else if !out.finishesInstall then (None, 1)
    else if !out.starts then
      (ReportedIf(out.rollbackRemoves && !out.failedStartWipes && out.writes, Failed("service_start_failed")), 1)
    else if !out.removesBackup || !out.writes then (None, 1)
    else (Some(Success), 0)
  }

  function EndOf(out: Outcomes, leftover: Tree, running: bool): Ending {
    var trail, report := Trail(out, leftover, running), ReportOf(out);
    Ending(trail[|trail| - 1], report.0, report.1)
  }

  lemma LastOf(a: seq<Moment>, b: seq<Moment>)
    requires b != []
    ensures (a + b)[|a + b| - 1] == b[|b| - 1]
  {
  }

  lemma FailedMoveLast(out: Outcomes)
    ensures FailedMoveTrail(out) != []
    ensures var last := FailedMoveTrail(out)[|FailedMoveTrail(out)| - 1];
      if out.rollbackRemoves then last == Restored(out, out.restarts) else last.backup == Previous && !last.running
  {
    hide RollbackTrail, Restored;
    var back, up := RollbackTrail(out, Left(out)), if out.rollbackRemoves then [Restored(out, out.restarts)] else [];
    BackLast(out, Left(out));
    assert [] + back == back && back + [] == back;
    LastOf([Moment(Left(out), Previous, false)], back + up);
    if up != [] {
      LastOf(back, up);
    }
  }

  lemma NewTreeLast(out: Outcomes)
    ensures NewTreeTrail(out) != []
    ensures var last := NewTreeTrail(out)[|NewTreeTrail(out)| - 1];
      if !out.finishesInstall then last == Moment(New, Previous, false)
      else if out.starts then last == Moment(New, if out.removesBackup then Absent else Partial, true)
      else if out.rollbackRemoves then last == Restored(out, false)
      else last.backup == Previous && !last.running
  {
    hide RollbackTrail, Restored;
    BackLast(out, New);
    LastOf([Moment(New, Previous, false)], RollbackTrail(out, New));
  }

  /** The state at the end of a run that made its backup. */
  lemma EndOfInstall(out: Outcomes, leftover: Tree, running: bool)
    requires out.removesOldBackup && out.backsUp
    ensures var last := EndOf(out, leftover, running).last;
      if out.installs && !out.finishesInstall then last == Moment(New, Previous, false)
      else if out.installs && out.starts then last == Moment(New, if out.removesBackup then Absent else Partial, true)
      else if out.rollbackRemoves then last == Restored(out, !out.installs && out.restarts)
      else last.backup == Previous && !last.running
  {
    hide FailedMoveTrail, NewTreeTrail, Restored;
    FailedMoveLast(out);
    NewTreeLast(out);
    var tail := if out.installs then NewTreeTrail(out) else FailedMoveTrail(out);
    LastOf([Moment(Partial, Previous, false)], tail);
    LastOf(Preparing(leftover, running) + [Moment(Absent, Previous, false)], InstallTrail(out));
  }

  lemma BackLast(out: Outcomes, left: Tree)
    ensures var back := RollbackTrail(out, left);
      back != [] && back[|back| - 1] == if out.rollbackRemoves then Restored(out, false) else Moment(Remains(left), Previous, false)
  {
  }

  /** A success leaves the new tree running with no backup; it is the only way to exit with 0. */
  lemma SuccessMeansNew(out: Outcomes, leftover: Tree, running: bool)
    ensures var e := EndOf(out, leftover, running);
      && (e.result == Some(Success) <==> e.exitCode == 0)
      && (e.exitCode == 0 ==> e.last == Moment(New, Absent, true))
  {
    hide Trail;
    if ReportOf(out).1 == 0 {
      EndOfInstall(out, leftover, running);
    }
  }

  /** A reported error names the first command that failed of the backup, the move of the new tree and the start. */
  lemma ErrorNamesTheStep(out: Outcomes, leftover: Tree, running: bool, error: string)
    requires EndOf(out, leftover, running).result == Some(Failed(error))
    ensures out.removesOldBackup
    ensures error ==
      if !out.backsUp then "backup_failed" else if !out.installs then "install_move_failed" else "service_start_failed"
    ensures out.backsUp && out.installs ==> out.finishesInstall && !out.starts
  {
    hide Trail;
  }

  /** A reported failure leaves the previous tree installed, unless the move of the rollback failed: then in OLD. */
  lemma FailureMeansPrevious(out: Outcomes, leftover: Tree, running: bool)
    requires EndOf(out, leftover, running).result.Some? && EndOf(out, leftover, running).exitCode != 0
    ensures var last := EndOf(out, leftover, running).last;
      if out.backsUp && !out.rollbackMoves then last.install == Absent && last.backup == Previous
      else last.install == Previous && last.backup == Absent
  {
    if out.backsUp {
      EndOfInstall(out, leftover, running);
    }
  }

  /**
   * A run ends without any result if and only if an unguarded command failed, a removal of the rollback failed, the
   * result could not be written, or the runtime directory was gone: removed by stopping the service, or by a start that
   * failed.
   */
  lemma SilentExits(out: Outcomes, leftover: Tree, running: bool)
    ensures EndOf(out, leftover, running).result.None? <==>
      || !out.removesOldBackup
      || !out.writes
      || (!out.backsUp && (out.stopWipes || (!out.restarts && out.failedStartWipes)))
      || (out.backsUp && !out.installs && (!out.rollbackRemoves || (!out.restarts && out.failedStartWipes)))
      || (out.backsUp && out.installs && !out.finishesInstall)
      || (out.backsUp && out.installs && out.finishesInstall && !out.starts && (!out.rollbackRemoves || out.failedStartWipes))
      || (out.backsUp && out.installs && out.finishesInstall && out.starts && !out.removesBackup)
  {
  }

  /**
   * The service is left stopped whenever the new version did not start: the previous tree is put back but not started
   * again. A failed backup whose result cannot be written, or not for want of the runtime directory, ends the script
   * before the restart, too.
   */
  lemma LeftStopped(out: Outcomes, leftover: Tree, running: bool)
    requires out.removesOldBackup
    ensures EndOf(out, leftover, running).last.running <==>
      if !out.backsUp then out.restarts && !out.stopWipes && out.writes
      else if !out.installs then out.restarts && out.rollbackRemoves
      else out.finishesInstall && out.starts
  {
    if out.backsUp {
      EndOfInstall(out, leftover, running);
    }
  }

  // ----- the script -----

  class Host {
    var install: Tree
    var backup: Tree
    var running: bool
    /** The runtime directory, where the result goes. */
    var runtimeDir: bool
    var result: Option<Status>
    /** Every state gone through so far. */
    ghost var trail: seq<Moment>

    constructor (leftover: Tree, running: bool)
      requires leftover == Absent || leftover == Partial
      ensures install == Previous && backup == leftover && this.running == running && runtimeDir && result == None && trail == []
    {
      install, backup, this.running, runtimeDir, result, trail := Previous, leftover, running, true, None, [];
    }

    ghost function Now(): Moment
      reads this
    {
      Moment(install, backup, running)
    }

    ghost method Checkpoint()
      modifies this`trail
      ensures trail == old(trail) + [Now()]
    {
      trail := trail + [Now()];
    }

    /** write_result; when it fails, as it does without the directory, so does the script (set -e). */
    method WriteResult(out: Outcomes, status: Status) returns (ok: bool)
      modifies this`result
      ensures ok == (runtimeDir && out.writes) && result == if ok then Some(status) else old(result)
    {
      ok := runtimeDir && out.writes;
      if ok {
        result := Some(status);
      }
    }

    /** systemctl start; systemd makes the runtime directory and may take it away again, with all that is in it. */
    method StartService(out: Outcomes, works: bool)
      modifies this`running, this`runtimeDir, this`result, this`trail
      ensures running == works && runtimeDir == (works || !out.failedStartWipes)
      ensures result == if runtimeDir then old(result) else None
      ensures trail == old(trail) + [Now()]
    {
      running := works;
      runtimeDir := works || !out.failedStartWipes;
      if !runtimeDir {
        result := None;
      }
      Checkpoint();
    }

    /** rm -rf INSTALL and mv OLD INSTALL; false when a failed removal ends the script. */
    method RestoreOld(out: Outcomes) returns (proceeds: bool)
      requires backup == Previous && !running
      modifies this`install, this`backup, this`trail
      ensures trail == old(trail) + RollbackTrail(out, old(install))
      ensures proceeds == out.rollbackRemoves
      ensures proceeds ==> Now() == Restored(out, false)
    {
      install := if install == Absent then Absent else Partial;
      Checkpoint();
      proceeds := out.rollbackRemoves;
      if !proceeds {
        return;
      }
      install := Absent;
      Checkpoint();
      if out.rollbackMoves {
        install, backup := Previous, Absent;
        Checkpoint();
      }
    }

    /** Lines 141 to 152: with a false result the script has ended. */
    method StopOld(out: Outcomes) returns (proceeds: bool)
      requires install == Previous && trail == []
      modifies this
      ensures proceeds == out.removesOldBackup && install == Previous && result == old(result)
      ensures !proceeds ==> trail == [Moment(Previous, Remains(old(backup)), old(running))]
      ensures proceeds ==> trail == Preparing(old(backup), old(running))
      ensures proceeds ==> backup == Absent && !running && runtimeDir == !out.stopWipes
    {
      backup := if backup == Absent then Absent else Partial;
      Checkpoint();
      proceeds := out.removesOldBackup;
      if proceeds {
        backup := Absent;
        Checkpoint();
        running, runtimeDir := false, !out.stopWipes;
        Checkpoint();
      }
    }

    /** Lines 154 to 160: with a false result the script has ended. */
    method BackUp(out: Outcomes) returns (proceeds: bool)
      requires install == Previous && backup == Absent && !running && result == None && runtimeDir == !out.stopWipes
      requires out.removesOldBackup
      modifies this
      ensures proceeds == out.backsUp
      ensures proceeds ==> result == None && Now() == Moment(Absent, Previous, false) && trail == old(trail) + [Now()]
      ensures !proceeds ==> (result, 1) == ReportOf(out)
      ensures !proceeds ==> trail == if out.stopWipes || !out.writes then old(trail) else old(trail) + [Moment(Previous, Absent, out.restarts)]
    {
      if !out.backsUp {
        var written := WriteResult(out, Failed("backup_failed"));
        if written {
          StartService(out, out.restarts);
        }
        return false;
      }
      install, backup := Absent, install;
      Checkpoint();
      proceeds := true;
    }

    /** Lines 163 to 165. */
    method GiveUpMove(out: Outcomes)
      requires result == None && install == Left(out) && backup == Previous && !running
      requires out.removesOldBackup && out.backsUp && !out.installs
      modifies this
      ensures trail == old(trail) +
        (RollbackTrail(out, Left(out)) + if out.rollbackRemoves then [Restored(out, out.restarts)] else [])
      ensures (result, 1) == ReportOf(out)
    {
      hide RollbackTrail;
      var proceeds := RestoreOld(out);
      if proceeds {
        StartService(out, out.restarts);
        var _ := WriteResult(out, Failed("install_move_failed"));
      }
    }

    /** Lines 168 to 193, with the new tree in place. */
    method StartNew(out: Outcomes) returns (exitCode: int)
      requires result == None && Now() == Moment(New, Previous, false)
      requires out.removesOldBackup && out.backsUp && out.installs
      requires trail != [] && trail[|trail| - 1] == Now()
      modifies this
      ensures trail == old(trail)[..|old(trail)| - 1] + NewTreeTrail(out) && (result, exitCode) == ReportOf(out)
    {
      hide RollbackTrail;
      exitCode := 1;
      if !out.finishesInstall {
        return;
      }
      if !out.starts {
        runtimeDir := !out.failedStartWipes;
        var proceeds := RestoreOld(out);
        if proceeds {
          var _ := WriteResult(out, Failed("service_start_failed"));
        }
        return;
      }
      StartService(out, true);
      backup := Partial;
      Checkpoint();
      if !out.removesBackup {
        return;
      }
      backup := Absent;
      Checkpoint();
      var written := WriteResult(out, Success);
      exitCode := if written then 0 else 1;
    }

    /** Lines 162 to 193. */
    method PutNew(out: Outcomes) returns (exitCode: int)
      requires result == None && Now() == Moment(Absent, Previous, false)
      requires out.removesOldBackup && out.backsUp
      modifies this
      ensures trail == old(trail) + InstallTrail(out) && (result, exitCode) == ReportOf(out)
    {
      hide RollbackTrail, NewTreeTrail, ReportOf;
      exitCode := 1;
      install := Partial;
      Checkpoint();
      ghost var before := trail;
      AppendAssociates(old(trail), [Moment(Partial, Previous, false)], if out.installs then NewTreeTrail(out) else FailedMoveTrail(out));
      install := if out.installs then New else if out.leavesPart then Partial else Absent;
      Checkpoint();
      if !out.installs {
        GiveUpMove(out);
        assert trail == before + FailedMoveTrail(out);
      } else {
        exitCode := StartNew(out);
      }
    }

    /** From line 141 to the end: every state gone through and the report are the specified ones. */
    method Swap(out: Outcomes) returns (exitCode: int)
      requires install == Previous && result == None && runtimeDir && trail == []
      modifies this
      ensures trail == Trail(out, old(backup), old(running))
      ensures (result, exitCode) == ReportOf(out)
    {
      hide InstallTrail, Preparing;
      exitCode := 1;
      var proceeds := StopOld(out);
      if proceeds {
        proceeds := BackUp(out);
        if proceeds {
          exitCode := PutNew(out);
        }
      }
    }
  }
}
