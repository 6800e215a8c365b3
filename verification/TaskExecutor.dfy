/**
 The execution of one job task: lock, backup, configure, verify, save, and the cleanup on every way out. What the
 lab register, the backup store and the device answer is an input, exceptions included; the effects on the
 outside world are recorded in the order they happen.
 */
module TaskExecutor {
  import opened Wrappers
  import opened DeviceLocks

  type Text = nat

  datatype JobType = VlanChange | PasswordChange | OtherJob

  datatype Job = Job(id: DeviceLocks.Job, jobType: JobType, cancelled: bool, hasDryRun: bool, backupBeforeApply: bool,
                     verifyNewCredential: bool, username: Option<Text>)

  /** The dry-run data of a task. A password change verifies by one credential check instead of by commands. */
  datatype TaskData = TaskData(device: Device, applySupported: bool, realTransport: bool, verificationRequired: bool,
                               config: seq<Text>, verification: seq<Text>, save: seq<Text>)

  datatype TaskStatus = Pending | Locked | BackingUp | Applying | Verifying | Saving | Succeeded | Failed | Skipped

  /** The two entry points: `execute_job_task` and `execute_password_change_task`. */
  datatype Path = VlanPath | PasswordPath

  datatype Stage = Config | Verify | Save

  /** One command: a result that says success or not, or an exception. */
  datatype Reply = Accepted | Rejected | Raised

  /** The places between two stages, where storing the task or its audit row may raise. */
  datatype Boundary = LockNoted | BackupStored | StageDone(stage: Stage) | BodyDone

  datatype Env = Env(allowRealApply: bool, labAllows: bool, prepared: bool, now: int, backup: Option<nat>, opens: bool,
                     reply: (Stage, nat) -> Reply, closes: bool, releases: bool, interrupts: set<Boundary>)

  /** A `SafetyError`, or any other exception. */
  datatype Failure = Unsafe | Crash

  datatype Refusal = RefuseAsSkipped | Refuse(failure: Failure)

  datatype Event = LockTaken(device: Device) | BackupMade(id: nat) | Opened | Sent(stage: Stage, command: Text) | Closed
    | LockFreed(device: Device)

  const LOCK_TTL: int := 900

  const CREDENTIAL_CHECK: Text := 0

  function Checks(path: Path, t: TaskData): seq<Text> {
    match path
    case VlanPath => t.verification
    case PasswordPath => [CREDENTIAL_CHECK]
  }

  /** The checks before the lock, in the order the program makes them. */
  function Guard(path: Path, job: Job, t: TaskData, env: Env): Option<Refusal> {
    match path
    case VlanPath =>
      if job.jobType != VlanChange || job.cancelled then Some(Refuse(Unsafe))
      else if !t.applySupported then Some(RefuseAsSkipped)
      else if t.verification == [] then Some(Refuse(Unsafe))
      else if t.realTransport && (!env.allowRealApply || !env.labAllows) then Some(Refuse(Unsafe))
      else None
    case PasswordPath =>
      if job.jobType != PasswordChange || job.cancelled then Some(Refuse(Unsafe))
      else if !job.hasDryRun || !job.backupBeforeApply || !job.verifyNewCredential then Some(Refuse(Unsafe))
      else if !t.applySupported then Some(RefuseAsSkipped)
      else if !t.verificationRequired then Some(Refuse(Unsafe))
      else if t.realTransport && (!env.allowRealApply || !env.labAllows) then Some(Refuse(Unsafe))
      else if job.username == None then Some(Refuse(Unsafe))
      else if !env.prepared then Some(Refuse(Crash))
      else None
  }

  // ---------------------------------------------------------------------------------------------
  // What a run does, stage by stage
  // ---------------------------------------------------------------------------------------------

  /** The commands of a stage that reach the device: all of them, unless one raises. */
  function Tried(stage: Stage, commands: seq<Text>, reply: (Stage, nat) -> Reply, k: nat): seq<Event>
    requires k <= |commands|
    decreases |commands| - k
  {
    if k == |commands| then [] else
    [Sent(stage, commands[k])] + if reply(stage, k) == Raised then [] else Tried(stage, commands, reply, k + 1)
  }

  predicate AnyRaised(stage: Stage, n: nat, reply: (Stage, nat) -> Reply) {
    exists k | 0 <= k < n :: reply(stage, k) == Raised
  }

  predicate AllAccepted(stage: Stage, n: nat, reply: (Stage, nat) -> Reply) {
    forall k :: 0 <= k < n ==> reply(stage, k) == Accepted
  }

  function CommandsFailure(stage: Stage, n: nat, reply: (Stage, nat) -> Reply): Option<Failure> {
    if AnyRaised(stage, n, reply) then Some(Crash) else if AllAccepted(stage, n, reply) then None else Some(Unsafe)
  }

  function Interrupted(failure: Option<Failure>, b: Boundary, env: Env): Option<Failure> {
    if failure == None && b in env.interrupts then Some(Crash) else failure
  }

  function StageFailure(stage: Stage, n: nat, env: Env): Option<Failure> {
    Interrupted(CommandsFailure(stage, n, env.reply), StageDone(stage), env)
  }

  datatype Report = Report(failure: Option<Failure>, trace: seq<Event>, status: TaskStatus, backup: Option<nat>,
                           locked: bool)

  function Then(r: Report, next: Report): Report {
    if r.failure.Some? then r else next.(trace := r.trace + next.trace)
  }

  /** One stage on the open transport, with the status the task has during it. */
  function StageReport(stage: Stage, commands: seq<Text>, status: TaskStatus, env: Env): Report {
    Report(StageFailure(stage, |commands|, env), Tried(stage, commands, env.reply, 0), status, env.backup, true)
  }

  function OpenReport(path: Path, t: TaskData, env: Env): Report {
    Then(StageReport(Config, t.config, Applying, env),
         Then(StageReport(Verify, Checks(path, t), Verifying, env), StageReport(Save, t.save, Saving, env)))
  }

  /** From the moment the lock is taken. */
  function LockedReport(path: Path, t: TaskData, env: Env): Report {
    if LockNoted in env.interrupts || env.backup == None then
      Report(Some(Crash), [LockTaken(t.device)], BackingUp, None, true)
    else if BackupStored in env.interrupts || !env.opens then
      Report(Some(Crash), [LockTaken(t.device), BackupMade(env.backup.value)], Applying, env.backup, true)
    else
      var r := OpenReport(path, t, env);
      Report(if env.closes then Interrupted(r.failure, BodyDone, env) else Some(Crash),
             Preamble(t, env.backup.value) + r.trace + [Closed], r.status, env.backup, true)
  }

  function RefusedReport(refusal: Option<Refusal>, before: TaskStatus): Report {
    if refusal == None then Report(Some(Crash), [], before, None, false)
    else if refusal.value.RefuseAsSkipped? then Report(Some(Unsafe), [], Skipped, None, false)
    else Report(Some(refusal.value.failure), [], before, None, false)
  }

  function BodyReport(path: Path, job: Job, t: TaskData, before: TaskStatus, env: Env, free: bool): Report {
    var refusal := Guard(path, job, t, env);
    if refusal == None && free then LockedReport(path, t, env) else RefusedReport(refusal, before)
  }

  function FinalStatus(failure: Option<Failure>, status: TaskStatus): TaskStatus {
    if failure == None then Succeeded
    else if failure == Some(Unsafe) && status == Skipped then Skipped
    else Failed
  }

  /** The end of a task: its final status, and the lock given back if one is noted and the release does not raise. */
  function Finish(r: Report, d: Device, noted: bool, releases: bool): Report {
    r.(status := FinalStatus(r.failure, r.status), trace := r.trace + Freed((r.locked || noted) && releases, d))
  }

  function Freed(locked: bool, d: Device): seq<Event> {
    if locked then [LockFreed(d)] else []
  }

  /** `noted`: the service still notes a lock of this device as acquired, from a task whose release raised. */
  function TaskReport(path: Path, job: Job, t: TaskData, before: TaskStatus, env: Env, free: bool,
                      noted: bool): Report {
    Finish(BodyReport(path, job, t, if path == PasswordPath then Applying else before, env, free), t.device, noted,
           env.releases)
  }

  function Preamble(t: TaskData, backup: nat): seq<Event> {
    [LockTaken(t.device), BackupMade(backup), Opened]
  }

  lemma Concatenated(start: seq<Event>, a: seq<Event>, b: seq<Event>, c: seq<Event>)
    ensures start + a + b + c == start + (a + b + c)
  {
  }

  // ---------------------------------------------------------------------------------------------
  // The program
  // ---------------------------------------------------------------------------------------------

  class JobTask {
    const data: TaskData
    var status: TaskStatus
    var attempt: nat
    var backup: Option<nat>

    constructor (data: TaskData)
      ensures this.data == data && status == Pending && attempt == 0 && backup == None
    {
      this.data, status, attempt, backup := data, Pending, 0, None;
    }
  }

  class JobExecutionService {
    const locks: LockService
    var acquired: set<Device>
    var trace: seq<Event>

    constructor (locks: LockService)
      ensures this.locks == locks && acquired == {} && trace == []
    {
      this.locks, acquired, trace := locks, {}, [];
    }

    /** `raised` says that the release of the lock raised, and the call with it. */
    method ExecuteTask(path: Path, job: Job, task: JobTask, env: Env) returns (raised: bool)
      modifies this, locks, task
      ensures var d, noted := task.data.device, task.data.device in old(acquired);
              var r := TaskReport(path, job, task.data, old(task.status), env, Free(old(locks.rows), d, env.now),
                                  noted);
              && trace == old(trace) + r.trace && task.status == r.status && task.attempt == old(task.attempt) + 1
              && task.backup == (if r.backup.Some? then r.backup else old(task.backup))
              && raised == ((r.locked || noted) && !env.releases)
              && acquired == (if raised then old(acquired) + {d} else old(acquired) - {d})
              && locks.rows == (if raised then (if r.locked then Acquired(old(locks.rows), d, job.id, LOCK_TTL, env.now)
                                                else old(locks.rows))
                                else if r.locked || noted then Released(old(locks.rows), d) else old(locks.rows))
    {
      ghost var rows := locks.rows;
      task.attempt := task.attempt + 1;
      if path == PasswordPath {
        task.status := Applying;
      }
      var failure := ExecuteBody(path, job, task, env);
      AcquireThenRelease(rows, task.data.device, job.id, LOCK_TTL, env.now);
      raised := FinishTask(task, failure, env.releases);
    }

    /**
     The handlers and the `finally` block around the body of a task. A release that raises deletes and forgets
     nothing.
     */
    method FinishTask(task: JobTask, failure: Option<Failure>, releases: bool) returns (raised: bool)
      modifies this`acquired, this`trace, locks, task`status
      ensures task.status == FinalStatus(failure, old(task.status))
      ensures var noted := task.data.device in old(acquired);
              && raised == (noted && !releases)
              && acquired == (if raised then old(acquired) else old(acquired) - {task.data.device})
              && trace == old(trace) + Freed(noted && releases, task.data.device)
              && locks.rows == if noted && releases then Released(old(locks.rows), task.data.device)
                 else old(locks.rows)
    {
      if failure == None {
        task.status := Succeeded;
      } else if failure == Some(Unsafe) {
        if task.status != Skipped {
          task.status := Failed;
        }
      } else {
        task.status := Failed;
      }
      raised := false;
      if task.data.device in acquired {
        if !releases {
          return true;
        }
        locks.Release(task.data.device);
        acquired := acquired - {task.data.device};
        trace := trace + [LockFreed(task.data.device)];
      }
    }

    method ExecuteBody(path: Path, job: Job, task: JobTask, env: Env) returns (failure: Option<Failure>)
      modifies this, locks, task
      ensures task.attempt == old(task.attempt)
      ensures var d := task.data.device;
              var r := BodyReport(path, job, task.data, old(task.status), env, Free(old(locks.rows), d, env.now));
              && failure == r.failure && trace == old(trace) + r.trace && task.status == r.status
              && task.backup == (if r.backup.Some? then r.backup else old(task.backup))
              && acquired == old(acquired) + (if r.locked then {d} else {})
              && locks.rows == if r.locked then Acquired(old(locks.rows), d, job.id, LOCK_TTL, env.now)
                 else old(locks.rows)
    {
      var d := task.data.device;
      var refusal := Guard(path, job, task.data, env);
      if refusal.Some? {
        if refusal.value.RefuseAsSkipped? {
          task.status := Skipped;
          return Some(Unsafe);
        }
        return Some(refusal.value.failure);
      }
      var lock := locks.Acquire(d, job.id, LOCK_TTL, env.now);
      if lock == None {
        return Some(Crash);
      }
      failure := ExecuteLocked(path, task, env);
    }

    method ExecuteLocked(path: Path, task: JobTask, env: Env) returns (failure: Option<Failure>)
      modifies this, task
      ensures task.attempt == old(task.attempt) && acquired == old(acquired) + {task.data.device}
      ensures var r := LockedReport(path, task.data, env);
              && failure == r.failure && trace == old(trace) + r.trace && task.status == r.status
              && task.backup == (if r.backup.Some? then r.backup else old(task.backup))
    {
      ghost var start := trace;
      acquired, trace := acquired + {task.data.device}, trace + [LockTaken(task.data.device)];
      if path == VlanPath {
        task.status := Locked;
      }
      task.status := BackingUp;
      if LockNoted in env.interrupts || env.backup == None {
        return Some(Crash);
      }
      task.backup, trace := env.backup, trace + [BackupMade(env.backup.value)];
      task.status := Applying;
      if BackupStored in env.interrupts || !env.opens {
        return Some(Crash);
      }
      trace := trace + [Opened];
      assert trace == start + Preamble(task.data, env.backup.value);
      failure := RunOnTransport(path, task, env);
      trace := trace + [Closed];
      failure := if env.closes then Interrupted(failure, BodyDone, env) else Some(Crash);
      Concatenated(start, Preamble(task.data, env.backup.value), OpenReport(path, task.data, env).trace, [Closed]);
    }

    method RunOnTransport(path: Path, task: JobTask, env: Env) returns (failure: Option<Failure>)
      requires task.status == Applying && task.backup == env.backup
      modifies this`trace, task`status
      ensures var r := OpenReport(path, task.data, env);
              failure == r.failure && trace == old(trace) + r.trace && task.status == r.status && r.backup == env.backup
    {
      ghost var start := trace;
      ghost var config := StageReport(Config, task.data.config, Applying, env);
      ghost var checks := StageReport(Verify, Checks(path, task.data), Verifying, env);
      ghost var saves := StageReport(Save, task.data.save, Saving, env);
      failure := RunStage(Config, task.data.config, env);
      if failure.Some? {
        return;
      }
      task.status := Verifying;
      failure := RunStage(Verify, Checks(path, task.data), env);
      Associative(start, config.trace, checks.trace);
      if failure.Some? {
        return;
      }
      task.status := Saving;
      failure := RunStage(Save, task.data.save, env);
      Associative(start, config.trace + checks.trace, saves.trace);
      Associative(config.trace, checks.trace, saves.trace);
    }

    method RunStage(stage: Stage, commands: seq<Text>, env: Env) returns (failure: Option<Failure>)
      modifies this`trace
      ensures trace == old(trace) + Tried(stage, commands, env.reply, 0)
      ensures failure == StageFailure(stage, |commands|, env)
    {
      failure := SendAll(stage, commands, env);
      if failure == None && StageDone(stage) in env.interrupts {
        failure := Some(Crash);
      }
    }

    /** Sends every command of the stage, even after one was rejected; only an exception cuts the stage short. */
    method SendAll(stage: Stage, commands: seq<Text>, env: Env) returns (failure: Option<Failure>)
      modifies this`trace
      ensures trace == old(trace) + Tried(stage, commands, env.reply, 0)
      ensures failure == CommandsFailure(stage, |commands|, env.reply)
    {
      var allAccepted, k := true, 0;
      ghost var done: seq<Event> := [];
      while k < |commands|
        invariant k <= |commands|
        invariant trace == old(trace) + done
        invariant done + Tried(stage, commands, env.reply, k) == Tried(stage, commands, env.reply, 0)
        invariant !AnyRaised(stage, k, env.reply) && allAccepted == AllAccepted(stage, k, env.reply)
      {
        ghost var rest := if env.reply(stage, k) == Raised then [] else Tried(stage, commands, env.reply, k + 1);
        Associative(old(trace), done, [Sent(stage, commands[k])]);
        Associative(done, [Sent(stage, commands[k])], rest);
        trace, done := trace + [Sent(stage, commands[k])], done + [Sent(stage, commands[k])];
        if env.reply(stage, k) == Raised {
          return Some(Crash);
        }
        allAccepted := allAccepted && env.reply(stage, k) == Accepted;
        k := k + 1;
      }
      failure := if allAccepted then None else Some(Unsafe);
    }
  }

  // ---------------------------------------------------------------------------------------------
  // What every run keeps
  // ---------------------------------------------------------------------------------------------

  function Commands(stage: Stage, commands: seq<Text>): seq<Event> {
    seq(|commands|, k requires 0 <= k < |commands| => Sent(stage, commands[k]))
  }

  ghost predicate Prefix(a: seq<Event>, b: seq<Event>) {
    |a| <= |b| && a == b[..|a|]
  }

  lemma {:induction false} TriedIsPrefix(stage: Stage, commands: seq<Text>, reply: (Stage, nat) -> Reply, k: nat)
    requires k <= |commands|
    ensures Prefix(Tried(stage, commands, reply, k), Commands(stage, commands)[k..])
    ensures (forall i :: k <= i < |commands| ==> reply(stage, i) != Raised) ==>
              Tried(stage, commands, reply, k) == Commands(stage, commands)[k..]
    decreases |commands| - k
  {
    if k < |commands| {
      TriedIsPrefix(stage, commands, reply, k + 1);
      var all := Commands(stage, commands);
      assert all[k..] == [all[k]] + all[k + 1..];
    }
  }

  /** `r` does a beginning of the script `a`, and all of it if it does not fail. */
  ghost predicate Follows(r: Report, a: seq<Event>) {
    Prefix(r.trace, a) && (r.failure == None ==> r.trace == a)
  }

  lemma StageFollows(stage: Stage, commands: seq<Text>, status: TaskStatus, env: Env)
    ensures Follows(StageReport(stage, commands, status, env), Commands(stage, commands))
  {
    TriedIsPrefix(stage, commands, env.reply, 0);
    var all := Commands(stage, commands);
    assert all[0..] == all;
  }

  lemma ThenFollows(r: Report, next: Report, a: seq<Event>, b: seq<Event>)
    requires Follows(r, a) && Follows(next, b)
    ensures Follows(Then(r, next), a + b)
  {
  }

  function DeviceScript(path: Path, t: TaskData): seq<Event> {
    Commands(Config, t.config) + (Commands(Verify, Checks(path, t)) + Commands(Save, t.save))
  }

  lemma OpenFollows(path: Path, t: TaskData, env: Env)
    ensures Follows(OpenReport(path, t, env), DeviceScript(path, t))
  {
    StageFollows(Config, t.config, Applying, env);
    StageFollows(Verify, Checks(path, t), Verifying, env);
    StageFollows(Save, t.save, Saving, env);
    var checks, saves := StageReport(Verify, Checks(path, t), Verifying, env), StageReport(Save, t.save, Saving, env);
    ThenFollows(checks, saves, Commands(Verify, Checks(path, t)), Commands(Save, t.save));
    ThenFollows(StageReport(Config, t.config, Applying, env), Then(checks, saves), Commands(Config, t.config),
                Commands(Verify, Checks(path, t)) + Commands(Save, t.save));
  }

  /** Everything a task may do before it cleans up, in order. */
  function Script(path: Path, t: TaskData, backup: nat): seq<Event> {
    Preamble(t, backup) + DeviceScript(path, t)
  }

  /** What has to follow: a close if it was opened, and an unlock if a lock is noted and the release does not raise. */
  function Cleanup(done: seq<Event>, d: Device, noted: bool, releases: bool): seq<Event> {
    (if Opened in done then [Closed] else []) + Freed((LockTaken(d) in done || noted) && releases, d)
  }

  lemma OpenedAndLocked(path: Path, t: TaskData, backup: nat, k: nat)
    requires k <= |Script(path, t, backup)|
    ensures Opened in Script(path, t, backup)[..k] <==> k > 2
    ensures LockTaken(t.device) in Script(path, t, backup)[..k] <==> k > 0
  {
    var script, sends := Script(path, t, backup), DeviceScript(path, t);
    assert forall i :: 0 <= i < |sends| ==> sends[i].Sent?;
    assert forall i :: 3 <= i < |script| ==> script[i] == sends[i - 3];
    if k > 0 {
      assert script[..k][0] == LockTaken(t.device);
    }
    if k > 2 {
      assert script[..k][2] == Opened;
    }
  }

  lemma CleanupIs(path: Path, t: TaskData, backup: nat, k: nat, noted: bool, releases: bool)
    requires k <= |Script(path, t, backup)|
    ensures Cleanup(Script(path, t, backup)[..k], t.device, noted, releases) ==
              (if k > 2 then [Closed] else []) + Freed((k > 0 || noted) && releases, t.device)
  {
    OpenedAndLocked(path, t, backup, k);
  }

  lemma LockedFollows(path: Path, t: TaskData, env: Env) returns (k: nat)
    ensures k <= |Script(path, t, env.backup.GetOr(0))|
    ensures LockedReport(path, t, env).trace ==
              Script(path, t, env.backup.GetOr(0))[..k] + if k > 2 then [Closed] else []
    ensures k > 0 && LockedReport(path, t, env).locked
    ensures LockedReport(path, t, env).failure == None ==> k == |Script(path, t, env.backup.GetOr(0))|
    ensures k == if LockNoted in env.interrupts || env.backup == None then 1
                 else if BackupStored in env.interrupts || !env.opens then 2 else 3 + |OpenReport(path, t, env).trace|
  {
    var script := Script(path, t, env.backup.GetOr(0));
    if LockNoted in env.interrupts || env.backup == None {
      k := 1;
    } else if BackupStored in env.interrupts || !env.opens {
      k := 2;
    } else {
      var sent := OpenReport(path, t, env).trace;
      OpenFollows(path, t, env);
      k := 3 + |sent|;
      assert script[..k] == Preamble(t, env.backup.value) + sent;
    }
  }

  lemma BodyFollows(path: Path, job: Job, t: TaskData, before: TaskStatus, env: Env, free: bool) returns (k: nat)
    ensures k <= |Script(path, t, env.backup.GetOr(0))|
    ensures var r := BodyReport(path, job, t, before, env, free);
            && r.trace == Script(path, t, env.backup.GetOr(0))[..k] + (if k > 2 then [Closed] else [])
            && (r.locked <==> k > 0) && (r.failure == None ==> k == |Script(path, t, env.backup.GetOr(0))|)
    ensures k > 0 <==> Guard(path, job, t, env) == None && free
    ensures k > 0 ==>
              k == if LockNoted in env.interrupts || env.backup == None then 1
                   else if BackupStored in env.interrupts || !env.opens then 2 else 3 + |OpenReport(path, t, env).trace|
  {
    if Guard(path, job, t, env) == None && free {
      k := LockedFollows(path, t, env);
    } else {
      k := 0;
      assert RefusedReport(Guard(path, job, t, env), before).trace == [];
    }
  }

  /**
   Whatever fails or raises, in a stage or between two, a task does a beginning of its script (lock, backup, open,
   configure, verify, save) and then closes the transport exactly if it was opened and frees the lock exactly if it
   was taken, or still noted from before, and the release itself does not raise.
   */
  lemma ScriptThenCleanup(path: Path, job: Job, t: TaskData, before: TaskStatus, env: Env, free: bool, noted: bool)
      returns (k: nat)
    ensures k <= |Script(path, t, env.backup.GetOr(0))|
    ensures var done, r := Script(path, t, env.backup.GetOr(0))[..k],
            TaskReport(path, job, t, before, env, free, noted);
            && r.trace == done + Cleanup(done, t.device, noted, env.releases) && (r.locked <==> k > 0)
            && (r.status == Succeeded ==> k == |Script(path, t, env.backup.GetOr(0))|)
    ensures k > 0 <==> Guard(path, job, t, env) == None && free
    ensures k > 0 ==>
              k == if LockNoted in env.interrupts || env.backup == None then 1
                   else if BackupStored in env.interrupts || !env.opens then 2 else 3 + |OpenReport(path, t, env).trace|
  {
    var start := if path == PasswordPath then Applying else before;
    k := BodyFollows(path, job, t, start, env, free);
    FinishFollows(path, t, env.backup.GetOr(0), BodyReport(path, job, t, start, env, free), k, noted, env.releases);
  }

  lemma FinishFollows(path: Path, t: TaskData, backup: nat, r: Report, k: nat, noted: bool, releases: bool)
    requires k <= |Script(path, t, backup)| && (r.locked <==> k > 0)
    requires r.trace == Script(path, t, backup)[..k] + (if k > 2 then [Closed] else [])
    ensures var done := Script(path, t, backup)[..k];
            Finish(r, t.device, noted, releases).trace == done + Cleanup(done, t.device, noted, releases)
  {
    CleanupIs(path, t, backup, k, noted, releases);
    Associative(Script(path, t, backup)[..k], if k > 2 then [Closed] else [],
                Freed((r.locked || noted) && releases, t.device));
  }

  function Rank(e: Event): nat {
    match e
    case LockTaken(_) => 0
    case BackupMade(_) => 1
    case Opened => 2
    case Sent(Config, _) => 3
    case Sent(Verify, _) => 4
    case Sent(Save, _) => 5
    case Closed => 6
    case LockFreed(_) => 7
  }

  ghost predicate InOrder(trace: seq<Event>) {
    forall i, j :: 0 <= i < j < |trace| ==> Rank(trace[i]) <= Rank(trace[j])
  }

  lemma InOrderConcat(a: seq<Event>, b: seq<Event>)
    requires InOrder(a) && InOrder(b) && forall i, j :: 0 <= i < |a| && 0 <= j < |b| ==> Rank(a[i]) <= Rank(b[j])
    ensures InOrder(a + b)
  {
  }

  lemma ScriptInOrder(path: Path, t: TaskData, backup: nat)
    ensures InOrder(Script(path, t, backup))
    ensures forall i :: 0 <= i < |Script(path, t, backup)| ==> Rank(Script(path, t, backup)[i]) <= 5
  {
    var config, checks, saves := Commands(Config, t.config), Commands(Verify, Checks(path, t)), Commands(Save, t.save);
    InOrderConcat(checks, saves);
    InOrderConcat(config, checks + saves);
    InOrderConcat(Preamble(t, backup), DeviceScript(path, t));
  }

  /** The events of every run come in the order lock, backup, open, configure, verify, save, close, unlock. */
  lemma StagesInOrder(path: Path, job: Job, t: TaskData, before: TaskStatus, env: Env, free: bool, noted: bool)
    ensures InOrder(TaskReport(path, job, t, before, env, free, noted).trace)
  {
    var k := ScriptThenCleanup(path, job, t, before, env, free, noted);
    ScriptInOrder(path, t, env.backup.GetOr(0));
    CleanupInOrder(Script(path, t, env.backup.GetOr(0)), t.device, k, noted, env.releases);
  }

  lemma CleanupInOrder(script: seq<Event>, d: Device, k: nat, noted: bool, releases: bool)
    requires InOrder(script) && k <= |script| && forall i :: 0 <= i < |script| ==> Rank(script[i]) <= 5
    ensures InOrder(script[..k] + Cleanup(script[..k], d, noted, releases))
  {
    var done := script[..k];
    assert forall i :: 0 <= i < |done| ==> done[i] == script[i];
    assert InOrder(done);
    InOrderConcat(done, Cleanup(done, d, noted, releases));
  }

  lemma NoSaves(stage: Stage, commands: seq<Text>, reply: (Stage, nat) -> Reply, k: nat, c: Text)
    requires stage != Save && k <= |commands|
    ensures Sent(Save, c) !in Tried(stage, commands, reply, k)
    decreases |commands| - k
  {
  }

  lemma SaveOnOpenTransport(path: Path, t: TaskData, env: Env, c: Text)
    requires Sent(Save, c) in OpenReport(path, t, env).trace
    ensures AllAccepted(Config, |t.config|, env.reply) && AllAccepted(Verify, |Checks(path, t)|, env.reply)
    ensures Prefix(Commands(Config, t.config) + Commands(Verify, Checks(path, t)), OpenReport(path, t, env).trace)
  {
    var config, checks := StageReport(Config, t.config, Applying, env),
        StageReport(Verify, Checks(path, t), Verifying, env);
    var saves := StageReport(Save, t.save, Saving, env);
    NoSaves(Config, t.config, env.reply, 0, c);
    NoSaves(Verify, Checks(path, t), env.reply, 0, c);
    StageFollows(Config, t.config, Applying, env);
    StageFollows(Verify, Checks(path, t), Verifying, env);
    Associative(config.trace, checks.trace, saves.trace);
  }

  lemma PrefixLifts(before: seq<Event>, a: seq<Event>, b: seq<Event>, after: seq<Event>)
    requires Prefix(a, b)
    ensures Prefix(before + a, before + b + after)
  {
  }

  /**
   A save command is sent only when the lock and a backup are there and every configuration command and every
   check went out before and was accepted.
   */
  lemma SaveOnlyAfterVerification(path: Path, job: Job, t: TaskData, before: TaskStatus, env: Env, free: bool,
                                  noted: bool, c: Text)
    requires Sent(Save, c) in TaskReport(path, job, t, before, env, free, noted).trace
    ensures free && env.backup.Some? && env.opens && Guard(path, job, t, env) == None
    ensures AllAccepted(Config, |t.config|, env.reply) && AllAccepted(Verify, |Checks(path, t)|, env.reply)
    ensures Prefix(Preamble(t, env.backup.value) + (Commands(Config, t.config) + Commands(Verify, Checks(path, t))),
                   TaskReport(path, job, t, before, env, free, noted).trace)
  {
    var sent := OpenReport(path, t, env).trace;
    var trace := TaskReport(path, job, t, before, env, free, noted).trace;
    assert Guard(path, job, t, env) == None && free && env.backup.Some? && env.opens;
    var pre, freed := Preamble(t, env.backup.value), Freed(env.releases, t.device);
    Associative(pre + sent, [Closed], freed);
    assert trace == pre + sent + ([Closed] + freed);
    assert Sent(Save, c) in sent;
    SaveOnOpenTransport(path, t, env, c);
    PrefixLifts(pre, Commands(Config, t.config) + Commands(Verify, Checks(path, t)), sent, [Closed] + freed);
  }

  /**
   A task succeeds exactly if every gate let it pass, the lock was free, every later stage did its work and nothing
   raised between the stages.
   */
  lemma SucceededExactly(path: Path, job: Job, t: TaskData, before: TaskStatus, env: Env, free: bool, noted: bool)
    ensures TaskReport(path, job, t, before, env, free, noted).status == Succeeded <==>
              && Guard(path, job, t, env) == None && free && env.backup.Some? && env.opens && env.closes
              && AllAccepted(Config, |t.config|, env.reply) && AllAccepted(Verify, |Checks(path, t)|, env.reply)
              && AllAccepted(Save, |t.save|, env.reply) && env.interrupts == {}
  {
    NoneLeft(env.interrupts);
  }

  /** A task that succeeds did its whole script, closed and unlocked, and has the backup id of this run. */
  lemma SucceededDidEverything(path: Path, job: Job, t: TaskData, before: TaskStatus, env: Env, free: bool, noted: bool)
    requires TaskReport(path, job, t, before, env, free, noted).status == Succeeded
    ensures env.backup.Some? && TaskReport(path, job, t, before, env, free, noted).backup == env.backup
    ensures TaskReport(path, job, t, before, env, free, noted).trace ==
              Script(path, t, env.backup.value) + ([Closed] + Freed(env.releases, t.device))
  {
    var k := ScriptThenCleanup(path, job, t, before, env, free, noted);
    CleanupIs(path, t, env.backup.GetOr(0), k, noted, env.releases);
  }

  lemma NoneLeft(interrupts: set<Boundary>)
    ensures interrupts == {} <==>
              && LockNoted !in interrupts && BackupStored !in interrupts && StageDone(Config) !in interrupts
              && StageDone(Verify) !in interrupts && StageDone(Save) !in interrupts && BodyDone !in interrupts
  {
    if interrupts != {} {
      var b :| b in interrupts;
      if b.StageDone? {
        assert b.stage == Config || b.stage == Verify || b.stage == Save;
      }
    }
  }

  /**
   Nothing but a late unlock happens to a device, not even a lock, unless the driver may apply, the job is of the
   right kind and not cancelled, there is something to verify with, and a real transport is both switched on and
   lab validated.
   */
  lemma NothingHappensUnlessCleared(path: Path, job: Job, t: TaskData, before: TaskStatus, env: Env, free: bool,
                                    noted: bool, e: Event)
    requires e in TaskReport(path, job, t, before, env, free, noted).trace && e != LockFreed(t.device)
    ensures free && t.applySupported && !job.cancelled && Checks(path, t) != []
    ensures t.realTransport ==> env.allowRealApply && env.labAllows
    ensures path == PasswordPath ==> job.backupBeforeApply && job.verifyNewCredential && t.verificationRequired
  {
  }

  /**
   A task refused the lock releases nothing exactly if no lock of its device is noted from an earlier task whose
   release raised (or its own release raises again). If one is, it deletes the lock that refused it, whoever holds it.
   */
  lemma RefusedReleasesNothingExactly(path: Path, job: Job, t: TaskData, before: TaskStatus, env: Env, noted: bool)
    ensures var trace := TaskReport(path, job, t, before, env, false, noted).trace;
            && (trace == [] <==> !noted || !env.releases) && (trace != [] ==> trace == [LockFreed(t.device)])
  {
    var k := ScriptThenCleanup(path, job, t, before, env, false, noted);
    assert !TaskReport(path, job, t, before, env, false, noted).locked;
  }
}
