/**
 The answers of a task execution, said without the program's own branches: which gates let it pass, how far it gets
 and which of the three final statuses it reports.
 */
module TaskOutcomes {
  import opened Wrappers
  import opened TaskExecutor
  import D = DeviceLocks

  /** A real transport is switched on and lab validated. */
  ghost predicate MayUseTransport(t: TaskData, env: Env) {
    t.realTransport ==> env.allowRealApply && env.labAllows
  }

  ghost predicate RightJob(path: Path, job: Job) {
    && !job.cancelled
    && (path == VlanPath ==> job.jobType == VlanChange)
    && (path == PasswordPath ==> && job.jobType == PasswordChange && job.hasDryRun && job.backupBeforeApply
                                 && job.verifyNewCredential)
  }

  /** Everything a task needs before it asks for the lock. */
  ghost predicate Cleared(path: Path, job: Job, t: TaskData, env: Env) {
    && RightJob(path, job) && t.applySupported && MayUseTransport(t, env)
    && (path == VlanPath ==> |t.verification| > 0)
    && (path == PasswordPath ==> t.verificationRequired && job.username.Some? && env.prepared)
  }

  /** A task goes for the lock exactly if every gate of its path is open. */
  lemma ClearedExactly(path: Path, job: Job, t: TaskData, env: Env)
    ensures Guard(path, job, t, env) == None <==> Cleared(path, job, t, env)
  {
  }

  // ---------------------------------------------------------------------------------------------
  // The final status
  // ---------------------------------------------------------------------------------------------

  lemma LockedStatus(path: Path, t: TaskData, env: Env)
    ensures LockedReport(path, t, env).status != Skipped
  {
  }

  /**
   A password task ends as succeeded, skipped or failed. It is skipped exactly if its job is a password change that
   is not cancelled, has its dry-run, backup and verification, and the driver cannot apply.
   */
  lemma PasswordStatusExactly(job: Job, t: TaskData, before: TaskStatus, env: Env, free: bool, noted: bool)
    ensures var status := TaskReport(PasswordPath, job, t, before, env, free, noted).status;
            && status in {Succeeded, Failed, Skipped}
            && (status == Skipped <==> && job.jobType == PasswordChange && !job.cancelled && job.hasDryRun
                                       && job.backupBeforeApply && job.verifyNewCredential && !t.applySupported)
  {
    LockedStatus(PasswordPath, t, env);
  }

  /**
   A VLAN task ends as succeeded, skipped or failed. It is skipped exactly if its job is a VLAN change that is not
   cancelled and the driver cannot apply, or if it was skipped before and is refused as unsafe again.
   */
  lemma VlanStatusExactly(job: Job, t: TaskData, before: TaskStatus, env: Env, free: bool, noted: bool)
    ensures var status := TaskReport(VlanPath, job, t, before, env, free, noted).status;
            && status in {Succeeded, Failed, Skipped}
            && (status == Skipped <==>
                  || (job.jobType == VlanChange && !job.cancelled && !t.applySupported)
                  || (before == Skipped && (|| job.jobType != VlanChange || job.cancelled || t.verification == []
                                            || (t.realTransport && !(env.allowRealApply && env.labAllows)))))
  {
    LockedStatus(VlanPath, t, env);
  }

  /** A task succeeds exactly if every gate is open, the lock is free and nothing afterwards is rejected or raises. */
  lemma SucceedsExactly(path: Path, job: Job, t: TaskData, before: TaskStatus, env: Env, free: bool, noted: bool)
    ensures TaskReport(path, job, t, before, env, free, noted).status == Succeeded <==>
              && Cleared(path, job, t, env) && free && env.backup.Some? && env.opens && env.closes
              && (forall k :: 0 <= k < |t.config| ==> env.reply(Config, k) == Accepted)
              && (forall k :: 0 <= k < (if path == VlanPath then |t.verification| else 1) ==>
                    env.reply(Verify, k) == Accepted)
              && (forall k :: 0 <= k < |t.save| ==> env.reply(Save, k) == Accepted) && env.interrupts == {}
  {
    ClearedExactly(path, job, t, env);
    SucceededExactly(path, job, t, before, env, free, noted);
  }

  // ---------------------------------------------------------------------------------------------
  // How far a task gets
  // ---------------------------------------------------------------------------------------------

  ghost predicate NoRaise(stage: Stage, j: nat, env: Env) {
    forall i :: 0 <= i < j ==> env.reply(stage, i) != Raised
  }

  lemma {:induction false} TriedLength(stage: Stage, commands: seq<Text>, env: Env, k: nat, j: nat)
    requires k <= j < |commands|
    ensures j - k < |Tried(stage, commands, env.reply, k)| <==>
              forall i :: k <= i < j ==> env.reply(stage, i) != Raised
    decreases |commands| - k
  {
    if k < j && env.reply(stage, k) != Raised {
      TriedLength(stage, commands, env, k + 1, j);
    }
  }

  lemma TriedAll(stage: Stage, commands: seq<Text>, env: Env)
    ensures |Tried(stage, commands, env.reply, 0)| <= |commands|
    ensures NoRaise(stage, |commands|, env) ==> |Tried(stage, commands, env.reply, 0)| == |commands|
    ensures forall j: nat :: j < |commands| ==>
                               (j < |Tried(stage, commands, env.reply, 0)| <==> NoRaise(stage, j, env))
  {
    TriedIsPrefix(stage, commands, env.reply, 0);
    forall j: nat | j < |commands|
      ensures j < |Tried(stage, commands, env.reply, 0)| <==> NoRaise(stage, j, env)
    {
      TriedLength(stage, commands, env, 0, j);
    }
  }

  /** Every command of the stage was accepted and the step after it did not raise. */
  ghost predicate Passed(stage: Stage, commands: seq<Text>, env: Env) {
    StageDone(stage) !in env.interrupts && forall i :: 0 <= i < |commands| ==> env.reply(stage, i) == Accepted
  }

  lemma PassedExactly(stage: Stage, commands: seq<Text>, env: Env)
    ensures StageFailure(stage, |commands|, env) == None <==> Passed(stage, commands, env)
    ensures Passed(stage, commands, env) ==> |Tried(stage, commands, env.reply, 0)| == |commands|
  {
    TriedAll(stage, commands, env);
  }

  /**
   Command j of the stage, at place `start + j` of the events sent, is reached exactly if the stage is and none
   before raised.
   */
  ghost predicate StageReached(sent: nat, start: nat, stage: Stage, commands: seq<Text>, begun: bool, env: Env) {
    forall j: nat :: j < |commands| ==> (start + j < sent <==> begun && NoRaise(stage, j, env))
  }

  lemma OpenReaches(path: Path, t: TaskData, env: Env)
    ensures var sent, checks := |OpenReport(path, t, env).trace|, Checks(path, t);
            && StageReached(sent, 0, Config, t.config, true, env)
            && StageReached(sent, |t.config|, Verify, checks, Passed(Config, t.config, env), env)
            && StageReached(sent, |t.config| + |checks|, Save, t.save,
                            Passed(Config, t.config, env) && Passed(Verify, checks, env), env)
  {
    var checks := Checks(path, t);
    TriedAll(Config, t.config, env);
    TriedAll(Verify, checks, env);
    TriedAll(Save, t.save, env);
    PassedExactly(Config, t.config, env);
    PassedExactly(Verify, checks, env);
  }

  /**
   How far a task gets in its script. It takes the lock exactly if every gate is open and the lock is free; makes the
   backup, opens the transport and sends each command exactly if nothing before raised; and begins a stage only if
   every command of the one before was accepted, whereas a rejected command does not keep back the rest of its own.
   */
  lemma HowFarExactly(path: Path, job: Job, t: TaskData, before: TaskStatus, env: Env, free: bool, noted: bool)
      returns (k: nat)
    ensures k <= |Script(path, t, env.backup.GetOr(0))|
    ensures var done := Script(path, t, env.backup.GetOr(0))[..k];
            TaskReport(path, job, t, before, env, free, noted).trace ==
            done + Cleanup(done, t.device, noted, env.releases)
    ensures k > 0 <==> Cleared(path, job, t, env) && free
    ensures k > 1 <==> k > 0 && LockNoted !in env.interrupts && env.backup.Some?
    ensures k > 2 <==> k > 1 && BackupStored !in env.interrupts && env.opens
    ensures var checks := if path == VlanPath then t.verification else [CREDENTIAL_CHECK];
            k > 2 ==>
              && StageReached(k - 3, 0, Config, t.config, true, env)
              && StageReached(k - 3, |t.config|, Verify, checks, Passed(Config, t.config, env), env)
              && StageReached(k - 3, |t.config| + |checks|, Save, t.save,
                              Passed(Config, t.config, env) && Passed(Verify, checks, env), env)
  {
    k := ScriptThenCleanup(path, job, t, before, env, free, noted);
    ClearedExactly(path, job, t, env);
    OpenReaches(path, t, env);
  }

  /** The task notes a backup id exactly if the run made that backup, and has taken the lock exactly if the run did. */
  lemma ReportIsTrue(path: Path, job: Job, t: TaskData, before: TaskStatus, env: Env, free: bool, noted: bool, id: nat)
    ensures var r := TaskReport(path, job, t, before, env, free, noted);
            && (r.backup == Some(id) <==> BackupMade(id) in r.trace) && (r.locked <==> LockTaken(t.device) in r.trace)
  {
    var k := ScriptThenCleanup(path, job, t, before, env, free, noted);
    var script := Script(path, t, env.backup.GetOr(0));
    OpenedAndLocked(path, t, env.backup.GetOr(0), k);
    BackupInScript(path, t, env.backup.GetOr(0), k, id);
    ReportBackup(path, job, t, before, env, free, noted);
  }

  lemma ReportBackup(path: Path, job: Job, t: TaskData, before: TaskStatus, env: Env, free: bool, noted: bool)
    ensures TaskReport(path, job, t, before, env, free, noted).backup ==
              if Guard(path, job, t, env) == None && free && LockNoted !in env.interrupts then env.backup else None
  {
    BackupKept(path, t, env);
  }

  lemma BackupKept(path: Path, t: TaskData, env: Env)
    ensures LockedReport(path, t, env).backup == if LockNoted in env.interrupts then None else env.backup
  {
  }

  lemma BackupInScript(path: Path, t: TaskData, backup: nat, k: nat, id: nat)
    requires k <= |Script(path, t, backup)|
    ensures BackupMade(id) in Script(path, t, backup)[..k] <==> k > 1 && id == backup
  {
    var script, sends := Script(path, t, backup), DeviceScript(path, t);
    assert forall i :: 0 <= i < |sends| ==> sends[i].Sent?;
    assert forall i :: 3 <= i < |script| ==> script[i] == sends[i - 3];
    if k > 1 {
      assert script[..k][1] == BackupMade(backup);
    }
  }

  /** A lock that a task leaves behind, because its release raised, keeps every task off the device for 15 minutes. */
  lemma LockKeepsOthersOff(rows: D.Table, d: D.Device, job: D.Job, now: int, later: int)
    requires D.Free(rows, d, now)
    ensures D.Free(D.Acquired(rows, d, job, LOCK_TTL, now), d, later) <==> later - now >= 15 * 60
  {
  }
}
