/**
 The canary rollout of a password change: approve, cancel, pause, resume and run-next-batch over one job,
 its batches and its temporary secret. Each service call is one atomic step; what a task execution returns
 is an input (TaskExecutor says which effects stand behind it).
 */
module PasswordRollout {
  import opened Wrappers
  import opened CanaryPlan

  datatype JobStatus = PendingApproval | Approved | Running | Paused | Succeeded | Failed | PartiallyFailed | Cancelled
  datatype Approval = ApprovalPending | ApprovalApproved | ApprovalCancelled
  datatype BatchStatus = BatchPending | BatchRunning | BatchSucceeded | BatchFailed
  datatype TaskStatus = TaskPending | TaskSucceeded | TaskFailed | TaskSkipped

  /** What `execute_password_change_task` returns. */
  datatype Outcome = DidSucceed | DidFail | DidSkip

  datatype Task = Task(status: TaskStatus, attempt: nat)

  datatype Policy = Policy(stopOnFirstFailure: bool, backupBeforeApply: bool, verifyNewCredential: bool,
                           hasDryRun: bool)

  /** `members[k]` are the task numbers of batch k, in the order they run. */
  datatype Rollout = Rollout(status: JobStatus, approval: Approval, members: seq<seq<nat>>, batches: seq<BatchStatus>,
                             tasks: seq<Task>, secret: bool, policy: Policy)

  function Indices(n: nat): seq<nat> {
    seq(n, i requires 0 <= i < n => i)
  }

  ghost predicate Scheduled(members: seq<seq<nat>>, t: nat) {
    exists i :: 0 <= i < |members| && t in members[i]
  }

  ghost predicate SamePlace(members: seq<seq<nat>>, i: nat, j: nat, k: nat, l: nat)
    requires i < |members| && j < |members[i]| && k < |members| && l < |members[k]|
  {
    members[i][j] == members[k][l] ==> i == k && j == l
  }

  /** Every task is in exactly one place of exactly one batch. */
  ghost predicate Partition(members: seq<seq<nat>>, n: nat) {
    && (forall i, j :: 0 <= i < |members| && 0 <= j < |members[i]| ==> members[i][j] < n)
    && (forall i, j, k, l :: 0 <= i < |members| && 0 <= j < |members[i]| && 0 <= k < |members| ==>
          0 <= l < |members[k]| ==> SamePlace(members, i, j, k, l))
    && (forall t: nat :: t < n ==> Scheduled(members, t))
  }

  predicate Aligned(r: Rollout) {
    |r.batches| == |r.members|
  }

  ghost predicate Shape(r: Rollout) {
    Aligned(r) && |r.members| > 0 && Partition(r.members, |r.tasks|)
  }

  // ---------------------------------------------------------------------------------------------
  // The steps
  // ---------------------------------------------------------------------------------------------

  predicate CanCreate(deviceCount: nat, plan: Option<seq<int>>) {
    deviceCount > 0 && (plan.Some? ==> forall i :: 0 <= i < |plan.value| ==> plan.value[i] >= 1)
  }

  function Create(deviceCount: nat, plan: Option<seq<int>>, policy: Policy): Rollout {
    var sizes := Normalize(deviceCount, plan);
    Rollout(PendingApproval, ApprovalPending, Slices(Indices(deviceCount), sizes, 0), seq(|sizes|, _ => BatchPending),
            seq(deviceCount, _ => Task(TaskPending, 0)), true, policy)
  }

  predicate CanApprove(r: Rollout) {
    r.status != Cancelled
  }

  function Approve(r: Rollout): Rollout {
    if !CanApprove(r) || r.approval == ApprovalApproved then r else r.(status := Approved, approval := ApprovalApproved)
  }

  predicate CanCancel(r: Rollout) {
    r.status != Running && r.status != Succeeded
  }

  function Skip(t: Task): Task {
    if t.status == TaskPending then t.(status := TaskSkipped) else t
  }

  function Cancel(r: Rollout): Rollout {
    if !CanCancel(r) || r.status == Cancelled then r
    else r.(status := Cancelled, approval := ApprovalCancelled,
            tasks := seq(|r.tasks|, i requires 0 <= i < |r.tasks| => Skip(r.tasks[i])))
  }

  predicate CanPause(r: Rollout) {
    r.status != Succeeded && r.status != Failed && r.status != Cancelled
  }

  function Pause(r: Rollout): Rollout {
    if CanPause(r) then r.(status := Paused) else r
  }

  predicate CanResume(r: Rollout) {
    r.status == Paused
  }

  function Resume(r: Rollout): Rollout {
    if CanResume(r) then r.(status := Approved) else r
  }

  predicate CanRun(r: Rollout) {
    && r.status != Cancelled && r.status != Paused && r.status != Succeeded && r.status != Failed
    && r.approval == ApprovalApproved
    && r.policy.hasDryRun && r.policy.backupBeforeApply && r.policy.verifyNewCredential
  }

  /** The number of the first pending batch, or the number of batches. */
  function NextPending(batches: seq<BatchStatus>): (k: nat)
    ensures k <= |batches| && (k < |batches| ==> batches[k] == BatchPending)
    ensures forall i :: 0 <= i < k ==> batches[i] != BatchPending
  {
    if batches == [] || batches[0] == BatchPending then 0 else 1 + NextPending(batches[1..])
  }

  function After(o: Outcome): TaskStatus {
    match o
    case DidSucceed => TaskSucceeded
    case DidFail => TaskFailed
    case DidSkip => TaskSkipped
  }

  function Execute(tasks: seq<Task>, batch: seq<nat>, outcome: nat -> Outcome): seq<Task> {
    seq(|tasks|, t requires 0 <= t < |tasks| => if t in batch then Task(After(outcome(t)), tasks[t].attempt + 1)
        else tasks[t])
  }

  /** The rest of a batch still runs after one of its tasks failed. */
  predicate AllSucceed(batch: seq<nat>, outcome: nat -> Outcome) {
    forall j :: 0 <= j < |batch| ==> outcome(batch[j]) == DidSucceed
  }

  function RunBatch(r: Rollout, k: nat, outcome: nat -> Outcome): Rollout
    requires k < |r.batches| == |r.members|
  {
    var ok := AllSucceed(r.members[k], outcome);
    var batches := r.batches[k := if ok then BatchSucceeded else BatchFailed];
    var done := NextPending(batches) == |batches|;
    r.(tasks := Execute(r.tasks, r.members[k], outcome), batches := batches, secret := r.secret && !(ok && done),
       status := if !ok then (if r.policy.stopOnFirstFailure then Failed else PartiallyFailed)
                 else if done then Succeeded else Approved)
  }

  predicate AllBatchesSucceeded(r: Rollout) {
    forall i :: 0 <= i < |r.batches| ==> r.batches[i] == BatchSucceeded
  }

  function CompleteIfDone(r: Rollout): Rollout {
    if r.batches != [] && AllBatchesSucceeded(r) then r.(status := Succeeded, secret := false) else r
  }

  function RunNext(r: Rollout, outcome: nat -> Outcome): Rollout
    requires Aligned(r)
  {
    var k := NextPending(r.batches);
    if !CanRun(r) then r else if k == |r.batches| then CompleteIfDone(r) else RunBatch(r, k, outcome)
  }

  // ---------------------------------------------------------------------------------------------
  // The service
  // ---------------------------------------------------------------------------------------------

  class PasswordRolloutJob {
    var status: JobStatus
    var approval: Approval
    var batches: seq<BatchStatus>
    var tasks: seq<Task>
    var secret: bool
    const members: seq<seq<nat>>
    const policy: Policy

    ghost function View(): Rollout
      reads this
    {
      Rollout(status, approval, members, batches, tasks, secret, policy)
    }

    constructor (deviceCount: nat, plan: Option<seq<int>>, policy: Policy)
      requires CanCreate(deviceCount, plan)
      ensures View() == Create(deviceCount, plan, policy)
      ensures Shape(View())
    {
      var sizes := NormalizeCanaryPlan(deviceCount, plan);
      var slices := CreateBatches(Indices(deviceCount), sizes);
      status, approval, secret := PendingApproval, ApprovalPending, true;
      members := slices;
      batches := seq(|sizes|, _ => BatchPending);
      tasks := seq(deviceCount, _ => Task(TaskPending, 0));
      this.policy := policy;
      CreatedShape(deviceCount, plan, policy);
    }

    method ApproveJob() returns (ok: bool)
      modifies this
      ensures ok == (old(status) != Cancelled) && View() == Approve(old(View()))
    {
      if status == Cancelled {
        return false;
      }
      if approval != ApprovalApproved {
        status, approval := Approved, ApprovalApproved;
      }
      return true;
    }

    method CancelJob() returns (ok: bool)
      modifies this
      ensures ok == (old(status) != Running && old(status) != Succeeded) && View() == Cancel(old(View()))
    {
      if status == Cancelled {
        return true;
      }
      if status == Running || status == Succeeded {
        return false;
      }
      status, approval := Cancelled, ApprovalCancelled;
      ghost var before := tasks;
      for t := 0 to |tasks|
        invariant |tasks| == |before| && status == Cancelled && approval == ApprovalCancelled
        invariant batches == old(batches) && secret == old(secret)
        invariant forall i :: 0 <= i < |tasks| ==> tasks[i] == if i < t then Skip(before[i]) else before[i]
      {
        if tasks[t].status == TaskPending {
          tasks := tasks[t := tasks[t].(status := TaskSkipped)];
        }
      }
      return true;
    }

    method PauseRollout() returns (ok: bool)
      modifies this
      ensures ok == (old(status) !in {Succeeded, Failed, Cancelled}) && View() == Pause(old(View()))
    {
      if status == Succeeded || status == Failed || status == Cancelled {
        return false;
      }
      status := Paused;
      return true;
    }

    method ResumeRollout() returns (ok: bool)
      modifies this
      ensures ok == (old(status) == Paused) && View() == Resume(old(View()))
    {
      if status != Paused {
        return false;
      }
      status := Approved;
      return true;
    }

    method GetNextPendingBatch() returns (k: nat)
      ensures k == NextPending(batches)
    {
      k := 0;
      while k < |batches| && batches[k] != BatchPending
        invariant k <= |batches| && NextPending(batches) == k + NextPending(batches[k..])
      {
        assert batches[k..][1..] == batches[k + 1..];
        k := k + 1;
      }
    }

    method RunNextBatch(outcome: nat -> Outcome) returns (ok: bool)
      requires Shape(View())
      modifies this
      ensures ok <==> && old(status) !in {Cancelled, Paused, Succeeded, Failed} && approval == ApprovalApproved
                      && policy.hasDryRun && policy.backupBeforeApply && policy.verifyNewCredential
      ensures View() == RunNext(old(View()), outcome)
    {
      ghost var before := View();
      if status == Cancelled || status == Paused || status == Succeeded || status == Failed {
        return false;
      }
      if approval != ApprovalApproved || !policy.hasDryRun || !policy.backupBeforeApply || !policy.verifyNewCredential {
        return false;
      }
      var k := GetNextPendingBatch();
      if k == |batches| {
        if batches != [] && forall i :: 0 <= i < |batches| ==> batches[i] == BatchSucceeded {
          status, secret := Succeeded, false;
        }
        return true;
      }
      batches := batches[k := BatchRunning];
      status := Running;
      forall j, l | 0 <= j < |members[k]| && 0 <= l < |members[k]| && members[k][j] == members[k][l] ensures j == l {
        assert SamePlace(members, k, j, k, l);
      }
      var failed := RunTasks(members[k], outcome);
      batches := batches[k := if failed then BatchFailed else BatchSucceeded];
      if failed {
        status := if policy.stopOnFirstFailure then Failed else PartiallyFailed;
      } else {
        var pending := GetNextPendingBatch();
        status := if pending < |batches| then Approved else Succeeded;
        if pending == |batches| {
          secret := false;
        }
      }
      assert batches == before.batches[k := if failed then BatchFailed else BatchSucceeded];
      return true;
    }

    /** The task loop of a batch: no task is left out, whatever the earlier ones returned. */
    method RunTasks(batch: seq<nat>, outcome: nat -> Outcome) returns (failed: bool)
      requires forall j :: 0 <= j < |batch| ==> batch[j] < |tasks|
      requires forall j, l :: 0 <= j < |batch| && 0 <= l < |batch| && batch[j] == batch[l] ==> j == l
      modifies this`tasks
      ensures tasks == Execute(old(tasks), batch, outcome)
      ensures failed == !AllSucceed(batch, outcome)
    {
      failed := false;
      for j := 0 to |batch|
        invariant |tasks| == |old(tasks)|
        invariant forall t :: 0 <= t < |tasks| ==>
                    tasks[t] == if t in batch[..j] then Task(After(outcome(t)), old(tasks)[t].attempt + 1)
                      else old(tasks)[t]
        invariant failed == !AllSucceed(batch[..j], outcome)
      {
        var t, result := batch[j], outcome(batch[j]);
        assert t !in batch[..j];
        assert batch[..j + 1] == batch[..j] + [t];
        tasks := tasks[t := Task(After(result), tasks[t].attempt + 1)];
        if result != DidSucceed {
          failed := true;
          assert !AllSucceed(batch[..j + 1], outcome) by { assert outcome(batch[..j + 1][j]) != DidSucceed; }
        }
      }
      assert batch[..|batch|] == batch;
    }
  }

  /** What Python's `str.strip` takes away. */
  predicate IsSpace(c: char) {
    var n := c as int;
    || 0x09 <= n <= 0x0d || 0x1c <= n <= 0x20 || n == 0x85 || n == 0xa0 || n == 0x1680 || 0x2000 <= n <= 0x200a
    || n == 0x2028 || n == 0x2029 || n == 0x202f || n == 0x205f || n == 0x3000
  }

  predicate IsBlank(text: string) {
    forall i :: 0 <= i < |text| ==> IsSpace(text[i])
  }

  /** `create_password_change_job`: None stands for its ValueError. */
  method CreatePasswordChangeJob(deviceCount: nat, username: string, password: string, plan: Option<seq<int>>,
                                 policy: Policy)
    returns (job: Option<PasswordRolloutJob>)
    ensures job.Some? <==> CanCreate(deviceCount, plan) && !IsBlank(username) && password != ""
    ensures job.Some? ==> fresh(job.value) && job.value.View() == Create(deviceCount, plan, policy)
    ensures job.Some? ==> Shape(job.value.View())
  {
    if deviceCount == 0 || IsBlank(username) || password == "" {
      return None;
    }
    if plan.Some? && exists i :: 0 <= i < |plan.value| && plan.value[i] < 1 {
      return None;
    }
    var created := new PasswordRolloutJob(deviceCount, plan, policy);
    return Some(created);
  }

  function Members(deviceCount: nat, plan: Option<seq<int>>): seq<seq<nat>> {
    Slices(Indices(deviceCount), Normalize(deviceCount, plan), 0)
  }

  /** Batch k of a new rollout is the run of task numbers that starts at the k-th partial sum of the plan. */
  lemma CreatedMembers(deviceCount: nat, plan: Option<seq<int>>)
    requires deviceCount > 0
    ensures var sizes, members := Normalize(deviceCount, plan), Members(deviceCount, plan);
            && |members| == |sizes| > 0 && AllPositive(sizes) && Sum(sizes) == deviceCount
            && forall k :: 0 <= k < |members| ==>
                 |members[k]| == sizes[k] && forall j :: 0 <= j < |members[k]| ==> members[k][j] == Sum(sizes[..k]) + j
  {
    var sizes, members := Normalize(deviceCount, plan), Members(deviceCount, plan);
    NormalizedPlanPartitions(Indices(deviceCount), plan, 0);
    ClipCovers(deviceCount, Requested(plan));
    forall k | 0 <= k < |members|
      ensures |members[k]| == sizes[k] && forall j :: 0 <= j < |members[k]| ==> members[k][j] == Sum(sizes[..k]) + j
    {
      BatchAt(Indices(deviceCount), sizes, 0, k);
    }
  }

  lemma CreatedBounds(deviceCount: nat, plan: Option<seq<int>>, i: nat, k: nat)
    requires deviceCount > 0 && i < k <= |Normalize(deviceCount, plan)|
    ensures var sizes := Normalize(deviceCount, plan);
            0 <= Sum(sizes[..i]) && Sum(sizes[..i]) + sizes[i] <= Sum(sizes[..k]) <= deviceCount
  {
    var sizes := Normalize(deviceCount, plan);
    CreatedMembers(deviceCount, plan);
    SumNext(sizes, i);
    PartialSums(sizes, i + 1, k);
  }

  lemma CreatedApart(deviceCount: nat, plan: Option<seq<int>>, i: nat, j: nat, k: nat, l: nat)
    requires deviceCount > 0
    requires var members := Members(deviceCount, plan);
             i < |members| && j < |members[i]| && k < |members| && l < |members[k]|
    ensures SamePlace(Members(deviceCount, plan), i, j, k, l)
  {
    CreatedMembers(deviceCount, plan);
    if i < k {
      CreatedBounds(deviceCount, plan, i, k);
    } else if k < i {
      CreatedBounds(deviceCount, plan, k, i);
    }
  }

  lemma CreatedScheduled(deviceCount: nat, plan: Option<seq<int>>, t: nat)
    requires t < deviceCount
    ensures Scheduled(Members(deviceCount, plan), t)
  {
    var sizes, members := Normalize(deviceCount, plan), Members(deviceCount, plan);
    CreatedMembers(deviceCount, plan);
    var i := BatchHolding(sizes, t);
    SumNext(sizes, i);
    assert members[i][t - Sum(sizes[..i])] == t;
  }

  lemma CreatedShape(deviceCount: nat, plan: Option<seq<int>>, policy: Policy)
    requires deviceCount > 0
    ensures Shape(Create(deviceCount, plan, policy))
  {
    var members := Members(deviceCount, plan);
    CreatedMembers(deviceCount, plan);
    forall i, j | 0 <= i < |members| && 0 <= j < |members[i]|
      ensures members[i][j] < deviceCount
    {
      CreatedBounds(deviceCount, plan, i, i + 1);
    }
    forall i, j, k, l | 0 <= i < |members| && 0 <= j < |members[i]| && 0 <= k < |members| && 0 <= l < |members[k]|
      ensures SamePlace(members, i, j, k, l)
    {
      CreatedApart(deviceCount, plan, i, j, k, l);
    }
    forall t: nat | t < deviceCount
      ensures Scheduled(members, t)
    {
      CreatedScheduled(deviceCount, plan, t);
    }
  }

  // ---------------------------------------------------------------------------------------------
  // Every run
  // ---------------------------------------------------------------------------------------------

  datatype Step = DoApprove | DoCancel | DoPause | DoResume | DoRun(outcome: nat -> Outcome)

  function Apply(r: Rollout, a: Step): (s: Rollout)
    requires Aligned(r)
    ensures Aligned(s) && s.members == r.members && s.policy == r.policy && |s.tasks| == |r.tasks|
  {
    match a
    case DoApprove => Approve(r)
    case DoCancel => Cancel(r)
    case DoPause => Pause(r)
    case DoResume => Resume(r)
    case DoRun(outcome) => RunNext(r, outcome)
  }

  predicate Finished(b: BatchStatus) {
    b == BatchSucceeded || b == BatchFailed
  }

  /** Finished batches, then pending ones. */
  ghost predicate Ordered(r: Rollout, k: nat) {
    k <= |r.batches| && forall i :: 0 <= i < |r.batches| ==>
      if i < k then Finished(r.batches[i]) else r.batches[i] == BatchPending
  }

  /** The task at place j of batch i, when k batches are finished. */
  ghost predicate TaskAgrees(r: Rollout, k: nat, i: nat, j: nat)
    requires Shape(r) && i < |r.members| && j < |r.members[i]|
  {
    var t := r.tasks[r.members[i][j]];
    && t.attempt == (if i < k then 1 else 0)
    && (i < k && r.batches[i] == BatchSucceeded ==> t.status == TaskSucceeded)
    && (i < k ==> t.status != TaskPending)
  }

  /** A task ran once if its batch is finished and never otherwise; a failed batch has a task that did not succeed. */
  ghost predicate Progress(r: Rollout, k: nat)
    requires Shape(r)
  {
    && Ordered(r, k)
    && (forall i, j :: 0 <= i < |r.members| && 0 <= j < |r.members[i]| ==> TaskAgrees(r, k, i, j))
    && (forall i :: 0 <= i < k && r.batches[i] == BatchFailed ==> HasFailedTask(r, i))
  }

  ghost predicate HasFailedTask(r: Rollout, i: nat)
    requires Shape(r) && i < |r.members|
  {
    exists j :: 0 <= j < |r.members[i]| && r.tasks[r.members[i][j]].status != TaskSucceeded
  }

  /** How job status, approval, secret and batches hang together. */
  ghost predicate Control(r: Rollout, k: nat)
    requires k <= |r.batches|
  {
    && r.status != Running
    && (k > 0 ==> r.approval != ApprovalPending)
    && (r.status == Cancelled <==> r.approval == ApprovalCancelled)
    && (r.status in {Succeeded, Failed, PartiallyFailed} ==> r.approval == ApprovalApproved)
    && (r.secret <==> r.status != Succeeded)
    && (r.status == Succeeded <==> r.batches != [] && r.batches[|r.batches| - 1] == BatchSucceeded)
    && (r.policy.stopOnFirstFailure ==>
          forall i :: 0 <= i < k && r.batches[i] == BatchFailed ==> i == k - 1 && r.status in {Failed, Cancelled})
    && (r.status == Failed ==> r.policy.stopOnFirstFailure && k > 0 && r.batches[k - 1] == BatchFailed)
  }

  ghost predicate Inv(r: Rollout) {
    Shape(r) && Progress(r, NextPending(r.batches)) && Control(r, NextPending(r.batches))
  }

  lemma NextPendingIs(batches: seq<BatchStatus>, k: nat)
    requires k <= |batches| && (k < |batches| ==> batches[k] == BatchPending)
    requires forall i :: 0 <= i < k ==> batches[i] != BatchPending
    ensures NextPending(batches) == k
  {
  }

  lemma InOneBatchOnly(members: seq<seq<nat>>, n: nat, k: nat, i: nat, j: nat)
    requires Partition(members, n) && k < |members| && i < |members| && j < |members[i]|
    ensures members[i][j] in members[k] <==> i == k
  {
    if members[i][j] in members[k] {
      var l :| 0 <= l < |members[k]| && members[k][l] == members[i][j];
      assert SamePlace(members, i, j, k, l);
    }
  }

  lemma TaskFollows(r: Rollout, k: nat, outcome: nat -> Outcome, i: nat, j: nat, next: nat)
    requires Shape(r) && Ordered(r, k) && k < |r.batches| && next == k + 1
    requires i < |r.members| && j < |r.members[i]| && TaskAgrees(r, k, i, j)
    ensures TaskAgrees(RunBatch(r, k, outcome), next, i, j)
  {
    InOneBatchOnly(r.members, |r.tasks|, k, i, j);
  }

  lemma BatchProgress(r: Rollout, outcome: nat -> Outcome)
    requires Shape(r) && Progress(r, NextPending(r.batches)) && NextPending(r.batches) < |r.batches|
    ensures var s := RunBatch(r, NextPending(r.batches), outcome);
            && NextPending(s.batches) == NextPending(r.batches) + 1
            && Shape(s) && Progress(s, NextPending(r.batches) + 1)
  {
    var k := NextPending(r.batches);
    var s := RunBatch(r, k, outcome);
    var next := k + 1;
    NextPendingIs(s.batches, next);
    forall i, j | 0 <= i < |r.members| && 0 <= j < |r.members[i]|
      ensures TaskAgrees(s, next, i, j)
    {
      TaskFollows(r, k, outcome, i, j, next);
    }
    forall i | 0 <= i < next && s.batches[i] == BatchFailed
      ensures HasFailedTask(s, i)
    {
      FailedTaskFound(r, k, outcome, i);
    }
  }

  lemma FailedTaskFound(r: Rollout, k: nat, outcome: nat -> Outcome, i: nat)
    requires Shape(r) && i <= k < |r.batches| && RunBatch(r, k, outcome).batches[i] == BatchFailed
    requires i < k ==> HasFailedTask(r, i)
    ensures HasFailedTask(RunBatch(r, k, outcome), i)
  {
    var s := RunBatch(r, k, outcome);
    if i == k {
      var j :| 0 <= j < |r.members[k]| && outcome(r.members[k][j]) != DidSucceed;
      assert s.tasks[s.members[k][j]].status != TaskSucceeded;
    } else {
      var j :| 0 <= j < |r.members[i]| && r.tasks[r.members[i][j]].status != TaskSucceeded;
      InOneBatchOnly(r.members, |r.tasks|, k, i, j);
      assert s.tasks[s.members[i][j]].status != TaskSucceeded;
    }
  }

  lemma CancelProgress(r: Rollout)
    requires Shape(r) && Progress(r, NextPending(r.batches))
    ensures Progress(Cancel(r), NextPending(r.batches))
  {
    var k, s := NextPending(r.batches), Cancel(r);
    forall i, j | 0 <= i < |r.members| && 0 <= j < |r.members[i]|
      ensures TaskAgrees(s, k, i, j)
    {
      assert TaskAgrees(r, k, i, j);
    }
    forall i | 0 <= i < k && s.batches[i] == BatchFailed
      ensures HasFailedTask(s, i)
    {
      var j :| 0 <= j < |r.members[i]| && r.tasks[r.members[i][j]].status != TaskSucceeded;
      assert s.tasks[s.members[i][j]].status != TaskSucceeded;
    }
  }

  lemma ProgressStep(r: Rollout, a: Step)
    requires Inv(r)
    ensures Shape(Apply(r, a)) && Progress(Apply(r, a), NextPending(Apply(r, a).batches))
  {
    if a.DoRun? && CanRun(r) && NextPending(r.batches) < |r.batches| {
      BatchProgress(r, a.outcome);
    } else if a.DoCancel? {
      CancelProgress(r);
    } else {
      OtherStepsKeepTasks(r, a);
    }
  }

  lemma OtherStepsKeepTasks(r: Rollout, a: Step)
    requires Shape(r) && Progress(r, NextPending(r.batches)) && !a.DoCancel?
    requires a.DoRun? && CanRun(r) ==> NextPending(r.batches) == |r.batches|
    ensures Progress(Apply(r, a), NextPending(Apply(r, a).batches))
  {
    var k, s := NextPending(r.batches), Apply(r, a);
    assert s.tasks == r.tasks && s.batches == r.batches;
    forall i, j | 0 <= i < |r.members| && 0 <= j < |r.members[i]|
      ensures TaskAgrees(s, k, i, j)
    {
      assert TaskAgrees(r, k, i, j);
    }
    forall i | 0 <= i < k && s.batches[i] == BatchFailed
      ensures HasFailedTask(s, i)
    {
      assert HasFailedTask(r, i);
    }
  }

  lemma ControlRun(r: Rollout, k: nat, outcome: nat -> Outcome)
    requires Aligned(r) && k == NextPending(r.batches) < |r.batches| && Ordered(r, k) && Control(r, k) && CanRun(r)
    ensures Control(RunBatch(r, k, outcome), k + 1)
  {
    var s := RunBatch(r, k, outcome);
    NextPendingIs(s.batches, k + 1);
    assert r.batches[|r.batches| - 1] == BatchPending;
    assert k + 1 < |r.batches| ==> s.batches[|r.batches| - 1] == BatchPending;
    assert r.policy.stopOnFirstFailure ==> forall i :: 0 <= i < k ==> s.batches[i] == r.batches[i] != BatchFailed;
  }

  lemma ControlStep(r: Rollout, a: Step)
    requires Aligned(r) && r.batches != [] && Ordered(r, NextPending(r.batches)) && Control(r, NextPending(r.batches))
    ensures Control(Apply(r, a), NextPending(Apply(r, a).batches))
  {
    var k := NextPending(r.batches);
    if a.DoRun? && CanRun(r) && k < |r.batches| {
      NextPendingIs(RunBatch(r, k, a.outcome).batches, k + 1);
      ControlRun(r, k, a.outcome);
    } else if a.DoRun? {
      ControlComplete(r, k);
    } else {
      ControlOther(r, k, a);
    }
  }

  lemma ControlComplete(r: Rollout, k: nat)
    requires k == NextPending(r.batches) && r.batches != [] && Control(r, k)
    ensures k == |r.batches| ==> Control(CompleteIfDone(r), k)
  {
  }

  lemma ControlOther(r: Rollout, k: nat, a: Step)
    requires Aligned(r) && k == NextPending(r.batches) && r.batches != [] && Control(r, k) && !a.DoRun?
    ensures Control(Apply(r, a), k)
  {
  }

  lemma InvStep(r: Rollout, a: Step)
    requires Inv(r)
    ensures Inv(Apply(r, a))
  {
    ProgressStep(r, a);
    ControlStep(r, a);
  }

  ghost predicate IsNew(r: Rollout) {
    exists n, plan, policy :: CanCreate(n, plan) && r == Create(n, plan, policy)
  }

  ghost predicate IsRun(states: seq<Rollout>, steps: seq<Step>) {
    && |states| == |steps| + 1
    && IsNew(states[0])
    && (forall i :: 0 <= i < |states| ==> Aligned(states[i]))
    && forall i :: 0 <= i < |steps| ==> states[i + 1] == Apply(states[i], steps[i])
  }

  lemma CreatedInv(n: nat, plan: Option<seq<int>>, policy: Policy)
    requires CanCreate(n, plan)
    ensures Inv(Create(n, plan, policy))
  {
    var r := Create(n, plan, policy);
    CreatedShape(n, plan, policy);
    NextPendingIs(r.batches, 0);
  }

  lemma {:induction false} InvAlways(states: seq<Rollout>, steps: seq<Step>, i: nat)
    requires IsRun(states, steps) && i < |states|
    ensures Inv(states[i])
  {
    if i == 0 {
      var n, plan, policy :| CanCreate(n, plan) && states[0] == Create(n, plan, policy);
      CreatedInv(n, plan, policy);
    } else {
      InvAlways(states, steps, i - 1);
      InvStep(states[i - 1], steps[i - 1]);
      assert states[i - 1 + 1] == Apply(states[i - 1], steps[i - 1]);
    }
  }

  /** Batches finish in order; a task ran once if its batch is finished and never if it is pending. */
  lemma TasksRunAtMostOnce(states: seq<Rollout>, steps: seq<Step>, i: nat, b: nat, j: nat)
    requires IsRun(states, steps) && i < |states|
    requires b < |states[i].members| && j < |states[i].members[b]|
    ensures Shape(states[i])
    ensures var r := states[i];
            && r.tasks[r.members[b][j]].attempt == (if Finished(r.batches[b]) then 1 else 0)
            && (!Finished(r.batches[b]) ==> forall c :: b <= c < |r.batches| ==> r.batches[c] == BatchPending)
  {
    InvAlways(states, steps, i);
    assert TaskAgrees(states[i], NextPending(states[i].batches), b, j);
  }

  /** Only a run of the next batch of an approved, non-cancelled job executes anything, and only that batch. */
  lemma NothingRunsUnapproved(states: seq<Rollout>, steps: seq<Step>, i: nat, t: nat)
    requires IsRun(states, steps) && i < |steps|
    requires t < |states[i].tasks| && states[i + 1].tasks[t].attempt != states[i].tasks[t].attempt
    ensures steps[i].DoRun? && states[i].approval == ApprovalApproved && states[i].status != Cancelled
    ensures NextPending(states[i].batches) < |states[i].batches|
            && t in states[i].members[NextPending(states[i].batches)]
  {
    assert states[i + 1] == Apply(states[i], steps[i]);
  }

  /** Step a on r runs batch b, and the batch ends with the given status. */
  ghost predicate RunsBatch(r: Rollout, a: Step, b: nat, status: BatchStatus) {
    && a.DoRun? && CanRun(r) && NextPending(r.batches) == b < |r.members|
    && (status == BatchSucceeded <==> AllSucceed(r.members[b], a.outcome))
  }

  lemma FinishedStep(r: Rollout, a: Step, b: nat)
    requires Aligned(r) && b < |Apply(r, a).batches| && Finished(Apply(r, a).batches[b])
    ensures b < |r.batches|
    ensures if Finished(r.batches[b]) then Apply(r, a).batches[b] == r.batches[b]
            else RunsBatch(r, a, b, Apply(r, a).batches[b])
  {
  }

  lemma FinishedAt(states: seq<Rollout>, steps: seq<Step>, i: nat, b: nat)
    requires IsRun(states, steps) && i < |steps| && b < |states[i + 1].batches| && Finished(states[i + 1].batches[b])
    ensures b < |states[i].batches| && states[i].members == states[i + 1].members
    ensures if Finished(states[i].batches[b]) then states[i + 1].batches[b] == states[i].batches[b]
            else RunsBatch(states[i], steps[i], b, states[i + 1].batches[b])
  {
    assert states[i + 1] == Apply(states[i], steps[i]);
    FinishedStep(states[i], steps[i], b);
  }

  /** A finished batch was run by an earlier step, and its status says whether all its tasks succeeded there. */
  lemma {:induction false} BatchHasRun(states: seq<Rollout>, steps: seq<Step>, i: nat, b: nat) returns (k: nat)
    requires IsRun(states, steps) && i < |states| && b < |states[i].batches| && Finished(states[i].batches[b])
    ensures k < i && RunsBatch(states[k], steps[k], b, states[i].batches[b]) && states[k].members == states[i].members
  {
    NewIsPending(states[0]);
    assert i > 0;
    FinishedAt(states, steps, i - 1, b);
    if Finished(states[i - 1].batches[b]) {
      k := BatchHasRun(states, steps, i - 1, b);
    } else {
      k := i - 1;
    }
  }

  lemma NewIsPending(r: Rollout)
    requires IsNew(r)
    ensures forall b :: 0 <= b < |r.batches| ==> r.batches[b] == BatchPending
  {
    var n, plan, policy :| CanCreate(n, plan) && r == Create(n, plan, policy);
  }

  ghost predicate SomeBatchFailed(r: Rollout) {
    exists b :: 0 <= b < |r.batches| && r.batches[b] == BatchFailed
  }

  /** `s` is a job that stopped at `r`: no batch and no task moved since. */
  ghost predicate HaltedSince(r: Rollout, s: Rollout) {
    && s.status in {Failed, Cancelled} && s.batches == r.batches && |s.tasks| == |r.tasks|
    && forall t :: 0 <= t < |r.tasks| ==> s.tasks[t].attempt == r.tasks[t].attempt
  }

  lemma FailureHalts(r: Rollout)
    requires Inv(r) && r.policy.stopOnFirstFailure && SomeBatchFailed(r)
    ensures HaltedSince(r, r)
  {
    var k := NextPending(r.batches);
    assert Control(r, k) && Ordered(r, k);
  }

  lemma HaltedStep(r: Rollout, s: Rollout, a: Step)
    requires HaltedSince(r, s) && Aligned(s) && (s.status == Failed ==> s.approval == ApprovalApproved)
    ensures HaltedSince(r, Apply(s, a))
  {
  }

  lemma FailedWasApproved(states: seq<Rollout>, steps: seq<Step>, i: nat)
    requires IsRun(states, steps) && i < |states|
    ensures states[i].status == Failed ==> states[i].approval == ApprovalApproved
  {
    InvAlways(states, steps, i);
  }

  lemma FailureHaltsHere(states: seq<Rollout>, steps: seq<Step>, i: nat)
    requires IsRun(states, steps) && i < |states|
    requires states[i].policy.stopOnFirstFailure && SomeBatchFailed(states[i])
    ensures HaltedSince(states[i], states[i])
  {
    InvAlways(states, steps, i);
    FailureHalts(states[i]);
  }

  /** With stop-on-first-failure, a failed batch stops the job for good: no operation makes any further task run. */
  lemma {:induction false} FailureHaltsForever(states: seq<Rollout>, steps: seq<Step>, i: nat, j: nat)
    requires IsRun(states, steps) && i <= j < |states|
    requires states[i].policy.stopOnFirstFailure && SomeBatchFailed(states[i])
    ensures HaltedSince(states[i], states[j])
    decreases j
  {
    if i == j {
      FailureHaltsHere(states, steps, i);
    } else {
      FailureHaltsForever(states, steps, i, j - 1);
      FailedWasApproved(states, steps, j - 1);
      HaltedStep(states[i], states[j - 1], steps[j - 1]);
      assert states[j - 1 + 1] == Apply(states[j - 1], steps[j - 1]);
    }
  }

  lemma {:induction false} FixedParts(states: seq<Rollout>, steps: seq<Step>, i: nat)
    requires IsRun(states, steps) && i < |states|
    ensures states[i].members == states[0].members && states[i].policy == states[0].policy
            && |states[i].tasks| == |states[0].tasks|
  {
    if i > 0 {
      FixedParts(states, steps, i - 1);
      assert states[i - 1 + 1] == Apply(states[i - 1], steps[i - 1]);
    }
  }

  /** Where task number t of a new rollout is: in the batch whose partial sums enclose t. */
  lemma BatchOfTask(n: nat, plan: Option<seq<int>>, t: nat) returns (c: nat, j: nat)
    requires t < n
    ensures c < |Members(n, plan)| && j < |Members(n, plan)[c]| && Members(n, plan)[c][j] == t
    ensures forall b :: 0 < b <= |Normalize(n, plan)| ==> (c < b <==> t < Sum(Normalize(n, plan)[..b]))
  {
    var sizes := Normalize(n, plan);
    CreatedMembers(n, plan);
    c := BatchHolding(sizes, t);
    CreatedBounds(n, plan, c, c + 1);
    assert sizes[..c + 1] == sizes[..c] + [sizes[c]];
    SumConcat(sizes[..c], [sizes[c]]);
    j := t - Sum(sizes[..c]);
    forall b | 0 < b <= |sizes|
      ensures c < b <==> t < Sum(sizes[..b])
    {
      if c < b {
        PartialSums(sizes, c + 1, b);
      } else {
        PartialSums(sizes, b, c);
      }
    }
  }

  /**
   The damage of a failure: when batch b is the one that failed, a task has run exactly if its number is
   below the sum of the first b + 1 sizes of the normalized plan.
   */
  lemma FailureTouchesOnlyThePrefix(states: seq<Rollout>, steps: seq<Step>, i: nat, n: nat, plan: Option<seq<int>>,
                                    policy: Policy, b: nat, t: nat)
    requires IsRun(states, steps) && i < |states|
    requires CanCreate(n, plan) && states[0] == Create(n, plan, policy) && policy.stopOnFirstFailure
    requires b < |states[i].batches| && states[i].batches[b] == BatchFailed && t < n
    ensures b < |Normalize(n, plan)| && |states[i].tasks| == n
    ensures states[i].tasks[t].attempt == if t < Sum(Normalize(n, plan)[..b + 1]) then 1 else 0
  {
    InvAlways(states, steps, i);
    FixedParts(states, steps, i);
    assert |Members(n, plan)| == |Normalize(n, plan)| by { CreatedMembers(n, plan); }
    var c, j := BatchOfTask(n, plan, t);
    assert states[i].members == Members(n, plan);
    assert NextPending(states[i].batches) == b + 1;
    TasksRunAtMostOnce(states, steps, i, c, j);
  }

  /** The encrypted secret exists exactly until the job has succeeded; so no batch ever runs without it. */
  lemma SecretLifetime(states: seq<Rollout>, steps: seq<Step>, i: nat)
    requires IsRun(states, steps) && i < |states|
    ensures states[i].secret <==> states[i].status != Succeeded
    ensures (exists b :: 0 <= b < |states[i].batches| && states[i].batches[b] == BatchPending) ==> states[i].secret
  {
    InvAlways(states, steps, i);
    var r := states[i];
    if b: nat :| b < |r.batches| && r.batches[b] == BatchPending {
      assert NextPending(r.batches) <= b;
      assert r.batches[|r.batches| - 1] == BatchPending;
    }
  }

  /**
   What `succeeded` means. In both modes it is the outcome of the last batch; it is the outcome of every
   batch exactly when no earlier batch failed, which stop-on-first-failure guarantees.
   */
  lemma SucceededMeans(states: seq<Rollout>, steps: seq<Step>, i: nat)
    requires IsRun(states, steps) && i < |states|
    ensures Shape(states[i])
    ensures var r := states[i];
            && (r.status == Succeeded <==> r.batches[|r.batches| - 1] == BatchSucceeded)
            && (AllBatchesSucceeded(r) <==> r.status == Succeeded && !SomeBatchFailed(r))
            && (r.policy.stopOnFirstFailure ==> (r.status == Succeeded <==> AllBatchesSucceeded(r)))
  {
    InvAlways(states, steps, i);
  }

  lemma Extend(states: seq<Rollout>, steps: seq<Step>, a: Step)
    requires IsRun(states, steps)
    ensures IsRun(states + [Apply(states[|steps|], a)], steps + [a])
  {
    var after, done := states + [Apply(states[|steps|], a)], steps + [a];
    forall i | 0 <= i < |done|
      ensures after[i + 1] == Apply(after[i], done[i])
    {
      if i < |steps| {
        assert states[i + 1] == Apply(states[i], steps[i]);
      }
    }
  }

  ghost predicate Reachable(r: Rollout) {
    exists states, steps :: IsRun(states, steps) && states[|steps|] == r
  }

  lemma Advance(r: Rollout, a: Step)
    requires Reachable(r)
    ensures Aligned(r) && Reachable(Apply(r, a))
  {
    var states, steps :| IsRun(states, steps) && states[|steps|] == r;
    Extend(states, steps, a);
    var after, done := states + [Apply(r, a)], steps + [a];
    assert after[|done|] == Apply(r, a);
  }

  lemma NewIsReachable(r: Rollout)
    requires IsNew(r) && Aligned(r)
    ensures Reachable(r)
  {
    var states, steps: seq<Step> := [r], [];
    assert IsRun(states, steps) && states[|steps|] == r;
  }

  lemma ApprovedToRun(r: Rollout, policy: Policy) returns (s: Rollout)
    requires Reachable(r) && r == TwoBatches(policy)
    ensures Reachable(s) && s == r.(status := Approved, approval := ApprovalApproved)
  {
    Advance(r, DoApprove);
    s := Approve(r);
  }

  lemma FirstFails(r: Rollout, outcome: nat -> Outcome) returns (s: Rollout)
    requires Reachable(r) && r.members == [[0], [1]] && r.batches == [BatchPending, BatchPending] && |r.tasks| == 2
    requires CanRun(r) && !r.policy.stopOnFirstFailure && outcome(0) == DidFail
    ensures Reachable(s) && s.status == PartiallyFailed && s.batches == [BatchFailed, BatchPending]
    ensures s.members == r.members && |s.tasks| == 2 && s.approval == r.approval && s.policy == r.policy
  {
    Advance(r, DoRun(outcome));
    s := RunNext(r, outcome);
    NextPendingIs(r.batches, 0);
    assert !AllSucceed(r.members[0], outcome) by { assert outcome(r.members[0][0]) == DidFail; }
  }

  lemma SecondSucceeds(r: Rollout, outcome: nat -> Outcome) returns (s: Rollout)
    requires Reachable(r) && r.members == [[0], [1]] && r.batches == [BatchFailed, BatchPending] && |r.tasks| == 2
    requires CanRun(r) && outcome(1) == DidSucceed
    ensures Reachable(s) && s.status == Succeeded && s.batches == [BatchFailed, BatchSucceeded]
  {
    Advance(r, DoRun(outcome));
    s := RunNext(r, outcome);
    NextPendingIs(r.batches, 1);
    assert AllSucceed(r.members[1], outcome);
    NextPendingIs([BatchFailed, BatchSucceeded], 2);
  }

  /** Without stop-on-first-failure a job can end as succeeded although a batch, and a device in it, failed. */
  lemma SucceededDespiteFailure()
    ensures exists r :: Reachable(r) && r.status == Succeeded && SomeBatchFailed(r)
  {
    var policy := Policy(false, true, true, true);
    TwoSingletons(policy);
    var r := TwoBatches(policy);
    assert IsNew(r) by {
      assert CanCreate(2, Some([1, 1]));
    }
    NewIsReachable(r);
    r := ApprovedToRun(r, policy);
    var outcome := (t: nat) => if t == 0 then DidFail else DidSucceed;
    r := FirstFails(r, outcome);
    r := SecondSucceeds(r, outcome);
    assert r.batches[0] == BatchFailed;
  }

  function TwoBatches(policy: Policy): Rollout {
    Rollout(PendingApproval, ApprovalPending, [[0], [1]], [BatchPending, BatchPending],
            [Task(TaskPending, 0), Task(TaskPending, 0)], true, policy)
  }

  lemma TwoSingletons(policy: Policy)
    ensures Create(2, Some([1, 1]), policy) == TwoBatches(policy)
  {
    FixedPoints(2, [1, 1]);
    CreatedMembers(2, Some([1, 1]));
    assert Sum([1, 1][..0]) == 0 && [1, 1][..1] == [1];
    var members := Members(2, Some([1, 1]));
    assert members[0][0] == 0 && members[1][0] == 1;
    assert members[0] == [0] && members[1] == [1];
  }

  /** Asking for a batch when none is pending changes nothing in any reachable state. */
  lemma NothingLeftToComplete(states: seq<Rollout>, steps: seq<Step>, i: nat, outcome: nat -> Outcome)
    requires IsRun(states, steps) && i < |states|
    requires NextPending(states[i].batches) == |states[i].batches|
    ensures RunNext(states[i], outcome) == states[i]
  {
    InvAlways(states, steps, i);
  }
}
