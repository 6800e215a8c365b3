/** A password rollout whose tasks are run by the task executor: what a succeeded rollout did to every device. */
module RolloutExecution {
  import opened Wrappers
  import R = PasswordRollout
  import T = TaskExecutor

  /** One execution of a task: what it met outside, and whether the lock of its device was free. */
  datatype Meeting = Meeting(env: T.Env, free: bool)

  function ReportOf(job: T.Job, data: T.TaskData, m: Meeting): T.Report {
    T.TaskReport(T.PasswordPath, job, data, T.Pending, m.env, m.free, false)
  }

  function OutcomeOf(status: T.TaskStatus): R.Outcome {
    match status
    case Succeeded => R.DidSucceed
    case Skipped => R.DidSkip
    case _ => R.DidFail
  }

  /**
   In step k of the run, the outcome of each task is what its execution reports. A release that raises ends the call
   without an outcome, so each of them was released and none is noted from before.
   */
  ghost predicate Executes(steps: seq<R.Step>, job: T.Job, data: seq<T.TaskData>, met: (nat, nat) -> Meeting) {
    forall k, t :: 0 <= k < |steps| && steps[k].DoRun? && 0 <= t < |data| ==>
      met(k, t).env.releases && steps[k].outcome(t) == OutcomeOf(ReportOf(job, data[t], met(k, t)).status)
  }

  /** The device got everything in order: lock, backup, configuration, an accepted check, save, and its lock back. */
  ghost predicate ChangedCompletely(job: T.Job, data: T.TaskData, m: Meeting) {
    && m.env.backup.Some?
    && ReportOf(job, data, m).trace == T.Script(T.PasswordPath, data, m.env.backup.value)
       + ([T.Closed] + [T.LockFreed(data.device)])
    && T.AllAccepted(T.Config, |data.config|, m.env.reply) && T.AllAccepted(T.Verify, 1, m.env.reply)
    && T.AllAccepted(T.Save, |data.save|, m.env.reply)
  }

  lemma SucceededBatch(states: seq<R.Rollout>, steps: seq<R.Step>, i: nat, b: nat, j: nat, job: T.Job,
                       data: seq<T.TaskData>, met: (nat, nat) -> Meeting) returns (k: nat)
    requires R.IsRun(states, steps) && i < |states| && Executes(steps, job, data, met)
    requires b < |states[i].members| && j < |states[i].members[b]| && states[i].members[b][j] < |data|
    requires b < |states[i].batches| && states[i].batches[b] == R.BatchSucceeded
    ensures k < i && steps[k].DoRun? && ChangedCompletely(job, data[states[i].members[b][j]],
                                                          met(k, states[i].members[b][j]))
  {
    k := R.BatchHasRun(states, steps, i, b);
    var t := states[i].members[b][j];
    assert steps[k].outcome(t) == R.DidSucceed;
    var m := met(k, t);
    T.SucceededExactly(T.PasswordPath, job, data[t], T.Pending, m.env, m.free, false);
    T.SucceededDidEverything(T.PasswordPath, job, data[t], T.Pending, m.env, m.free, false);
  }

  /**
   A rollout that stops on the first failure and ends as succeeded changed every device completely: each task was
   run in some step, under the device's lock, with its own backup, and saved only after an accepted verification.
   */
  lemma SucceededRolloutChangedEveryDevice(states: seq<R.Rollout>, steps: seq<R.Step>, i: nat, t: nat, job: T.Job,
                                           data: seq<T.TaskData>, met: (nat, nat) -> Meeting) returns (k: nat)
    requires R.IsRun(states, steps) && i < |states| && Executes(steps, job, data, met)
    requires states[i].policy.stopOnFirstFailure && states[i].status == R.Succeeded
    requires t < |states[i].tasks| == |data|
    ensures k < i && steps[k].DoRun? && ChangedCompletely(job, data[t], met(k, t))
  {
    var r := states[i];
    R.SucceededMeans(states, steps, i);
    assert R.Scheduled(r.members, t);
    var b :| 0 <= b < |r.members| && t in r.members[b];
    var j :| 0 <= j < |r.members[b]| && r.members[b][j] == t;
    k := SucceededBatch(states, steps, i, b, j, job, data, met);
  }
}
