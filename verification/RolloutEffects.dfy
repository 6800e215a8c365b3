/**
 What each call on a rollout does in the runs of PasswordRollout, said in the terms of the job alone: which call
 executes which task, what a task and the job look like afterwards, what stops a job and what lets it go on.
 */
module RolloutEffects {
  import opened Wrappers
  import opened CanaryPlan
  import opened PasswordRollout

  /** Batch b is the one whose turn it is. */
  ghost predicate IsNext(r: Rollout, b: nat) {
    && b < |r.batches| && r.batches[b] == BatchPending
    && forall i :: 0 <= i < b ==> r.batches[i] == BatchSucceeded || r.batches[i] == BatchFailed
  }

  ghost predicate SomePending(r: Rollout) {
    exists b :: 0 <= b < |r.batches| && r.batches[b] == BatchPending
  }

  ghost predicate HasFlags(p: Policy) {
    p.hasDryRun && p.backupBeforeApply && p.verifyNewCredential
  }

  /** The call executes task number t. */
  ghost predicate Executes(r: Rollout, a: Step, t: nat) {
    && a.DoRun? && r.approval == ApprovalApproved && r.status !in {Cancelled, Paused, Succeeded, Failed}
    && HasFlags(r.policy) && exists b: nat :: IsNext(r, b) && b < |r.members| && t in r.members[b]
  }

  lemma NextIsFirstPending(r: Rollout, b: nat)
    requires Inv(r)
    ensures IsNext(r, b) <==> b == NextPending(r.batches) < |r.batches|
  {
  }

  lemma StepOf(states: seq<Rollout>, steps: seq<Step>, i: nat)
    requires IsRun(states, steps) && i < |steps|
    ensures states[i + 1] == Apply(states[i], steps[i]) && Inv(states[i]) && Inv(states[i + 1])
  {
    InvAlways(states, steps, i);
    InvAlways(states, steps, i + 1);
  }

  lemma ExecutesHere(r: Rollout, a: Step, t: nat)
    requires Inv(r) && t < |r.tasks|
    ensures Apply(r, a).tasks[t].attempt == r.tasks[t].attempt + if Executes(r, a, t) then 1 else 0
  {
    var k := NextPending(r.batches);
    forall b: nat
      ensures IsNext(r, b) <==> b == k < |r.batches|
    {
      NextIsFirstPending(r, b);
    }
  }

  /**
   A call executes a task exactly if it runs a batch of an approved job that is not cancelled, paused, succeeded or
   failed, that has a dry-run, a backup and a verification, and whose next pending batch holds the task.
   */
  lemma ExecutesExactly(states: seq<Rollout>, steps: seq<Step>, i: nat, t: nat)
    requires IsRun(states, steps) && i < |steps| && t < |states[i].tasks|
    ensures |states[i + 1].tasks| == |states[i].tasks|
    ensures states[i + 1].tasks[t].attempt ==
              states[i].tasks[t].attempt + if Executes(states[i], steps[i], t) then 1 else 0
  {
    StepOf(states, steps, i);
    ExecutesHere(states[i], steps[i], t);
  }

  lemma NewRollout(r: Rollout)
    requires IsNew(r)
    ensures r.status == PendingApproval && r.approval == ApprovalPending && r.secret && r.batches != []
    ensures forall t :: 0 <= t < |r.tasks| ==> r.tasks[t] == Task(TaskPending, 0)
    ensures forall b :: 0 <= b < |r.batches| ==> r.batches[b] == BatchPending
  {
    var n, plan, policy :| CanCreate(n, plan) && r == Create(n, plan, policy);
    CreatedShape(n, plan, policy);
  }

  /** A job that was created without a dry-run, a backup or a verification never executes a task, whatever is called. */
  lemma {:induction false} WithoutFlagsNothingRuns(states: seq<Rollout>, steps: seq<Step>, i: nat, t: nat)
    requires IsRun(states, steps) && i < |states| && t < |states[i].tasks| && !HasFlags(states[0].policy)
    ensures states[i].tasks[t] == Task(if states[i].status == Cancelled then TaskSkipped else TaskPending, 0)
  {
    if i == 0 {
      NewRollout(states[0]);
    } else {
      FixedParts(states, steps, i - 1);
      ExecutesExactly(states, steps, i - 1, t);
      WithoutFlagsNothingRuns(states, steps, i - 1, t);
      StepOf(states, steps, i - 1);
      UnexecutedStep(states[i - 1], steps[i - 1], t);
    }
  }

  lemma UnexecutedStep(r: Rollout, a: Step, t: nat)
    requires Inv(r) && t < |r.tasks| && !Executes(r, a, t)
    requires r.tasks[t].status == (if r.status == Cancelled then TaskSkipped else TaskPending)
    ensures Apply(r, a).tasks[t].status == if Apply(r, a).status == Cancelled then TaskSkipped else TaskPending
  {
    ExecutesHere(r, a, t);
  }

  function Became(o: Outcome): TaskStatus {
    match o
    case DidSucceed => TaskSucceeded
    case DidFail => TaskFailed
    case DidSkip => TaskSkipped
  }

  lemma ExecutedStep(r: Rollout, a: Step, t: nat)
    requires Inv(r) && t < |r.tasks|
    ensures Executes(r, a, t) ==> Apply(r, a).tasks[t].status == Became(a.outcome(t))
    ensures !Executes(r, a, t) && r.tasks[t].attempt > 0 ==> Apply(r, a).tasks[t] == r.tasks[t]
  {
    ExecutesHere(r, a, t);
    forall b: nat
      ensures IsNext(r, b) <==> b == NextPending(r.batches) < |r.batches|
    {
      NextIsFirstPending(r, b);
    }
    if r.tasks[t].attempt > 0 {
      AttemptedIsNotPending(r, t);
    }
  }

  lemma AttemptedIsNotPending(r: Rollout, t: nat)
    requires Inv(r) && t < |r.tasks| && r.tasks[t].attempt > 0
    ensures r.tasks[t].status != TaskPending
  {
    assert Scheduled(r.members, t);
    var i :| 0 <= i < |r.members| && t in r.members[i];
    var j :| 0 <= j < |r.members[i]| && r.members[i][j] == t;
    assert TaskAgrees(r, NextPending(r.batches), i, j);
  }

  /**
   In every reachable state a task that was executed has the status of what its one execution returned, and one that
   was not is skipped if the job is cancelled and pending otherwise.
   */
  lemma {:induction false} TaskStatusExactly(states: seq<Rollout>, steps: seq<Step>, i: nat, t: nat) returns (k: nat)
    requires IsRun(states, steps) && i < |states| && t < |states[i].tasks|
    ensures states[i].tasks[t].attempt == 0 ==>
              states[i].tasks[t].status == if states[i].status == Cancelled then TaskSkipped else TaskPending
    ensures states[i].tasks[t].attempt > 0 ==>
              k < i && steps[k].DoRun? && states[i].tasks[t].status == Became(steps[k].outcome(t))
              && t < |states[k].tasks| && Executes(states[k], steps[k], t)
  {
    if i == 0 {
      NewRollout(states[0]);
      k := 0;
    } else {
      TaskStatusAt(states, steps, i - 1, t);
      k := TaskStatusExactly(states, steps, i - 1, t);
      if Executes(states[i - 1], steps[i - 1], t) {
        k := i - 1;
      }
    }
  }

  lemma TaskStatusAt(states: seq<Rollout>, steps: seq<Step>, i: nat, t: nat)
    requires IsRun(states, steps) && i < |steps| && t < |states[i + 1].tasks|
    ensures t < |states[i].tasks|
    ensures var x, y := states[i].tasks[t], states[i + 1].tasks[t];
            if Executes(states[i], steps[i], t) then
              y.attempt == x.attempt + 1 && y.status == Became(steps[i].outcome(t))
            else
              && y.attempt == x.attempt && (x.attempt > 0 ==> y == x)
              && (x.status == (if states[i].status == Cancelled then TaskSkipped else TaskPending) ==>
                    y.status == if states[i + 1].status == Cancelled then TaskSkipped else TaskPending)
  {
    StepOf(states, steps, i);
    ExecutesHere(states[i], steps[i], t);
    ExecutedStep(states[i], steps[i], t);
    var expected := if states[i].status == Cancelled then TaskSkipped else TaskPending;
    if !Executes(states[i], steps[i], t) && states[i].tasks[t].status == expected {
      UnexecutedStep(states[i], steps[i], t);
    }
  }

  lemma ApprovalStep(r: Rollout, a: Step)
    requires Aligned(r) && Apply(r, a).approval == ApprovalApproved
    ensures r.approval == ApprovalApproved || a.DoApprove?
  {
  }

  /** Behind every executed task there is an approval given before. */
  lemma {:induction false} ApprovalHasCause(states: seq<Rollout>, steps: seq<Step>, i: nat) returns (k: nat)
    requires IsRun(states, steps) && i < |states| && states[i].approval == ApprovalApproved
    ensures k < i && steps[k].DoApprove?
  {
    NewRollout(states[0]);
    ApprovalStep(states[i - 1], steps[i - 1]);
    assert states[i - 1 + 1] == Apply(states[i - 1], steps[i - 1]);
    if states[i - 1].approval == ApprovalApproved {
      k := ApprovalHasCause(states, steps, i - 1);
    } else {
      k := i - 1;
    }
  }

  // ---------------------------------------------------------------------------------------------
  // The job after each call
  // ---------------------------------------------------------------------------------------------

  ghost predicate AllDid(batch: seq<nat>, outcome: nat -> Outcome) {
    forall t :: t in batch ==> outcome(t) == DidSucceed
  }

  /** The job after its batch b has run: the batch and the job say whether every task of the batch succeeded. */
  lemma AfterBatch(r: Rollout, a: Step, b: nat)
    requires Inv(r) && a.DoRun? && IsNext(r, b) && HasFlags(r.policy) && r.approval == ApprovalApproved
    requires r.status !in {Cancelled, Paused, Succeeded, Failed}
    ensures b < |r.members| && Inv(Apply(r, a))
    ensures var s := Apply(r, a);
            && s.batches == r.batches[b := if AllDid(r.members[b], a.outcome) then BatchSucceeded else BatchFailed]
            && s.approval == ApprovalApproved
            && s.status == if AllDid(r.members[b], a.outcome) then
               (if b == |r.batches| - 1 then Succeeded else Approved)
                           else if r.policy.stopOnFirstFailure then Failed else PartiallyFailed
  {
    NextIsFirstPending(r, b);
    InvStep(r, a);
    var s := RunBatch(r, b, a.outcome);
    assert AllDid(r.members[b], a.outcome) <==> AllSucceed(r.members[b], a.outcome) by {
      if AllSucceed(r.members[b], a.outcome) {
        forall t | t in r.members[b] ensures a.outcome(t) == DidSucceed {
          var j :| 0 <= j < |r.members[b]| && r.members[b][j] == t;
        }
      }
    }
    NextPendingIs(s.batches, b + 1);
  }

  /** In a state whose next batch may not run, the call to run it changes nothing. */
  lemma BlockedRun(r: Rollout, a: Step)
    requires Inv(r) && a.DoRun?
    requires || !SomePending(r) || !HasFlags(r.policy) || r.approval != ApprovalApproved
             || r.status in {Cancelled, Paused, Succeeded, Failed}
    ensures Apply(r, a) == r
  {
    if NextPending(r.batches) < |r.batches| {
      assert r.batches[NextPending(r.batches)] == BatchPending;
    }
  }

  /**
   A call that may run and finds no pending batch completes the job exactly if every batch succeeded, in whatever state
   the job is. (In the runs of PasswordRollout such a job has succeeded before.)
   */
  lemma CompletesExactly(r: Rollout, a: Step)
    requires Aligned(r) && r.batches != [] && a.DoRun? && !SomePending(r) && HasFlags(r.policy)
    requires r.approval == ApprovalApproved && r.status !in {Cancelled, Paused, Succeeded, Failed}
    ensures Apply(r, a) ==
              if forall b :: 0 <= b < |r.batches| ==> r.batches[b] == BatchSucceeded
              then r.(status := Succeeded, secret := false) else r
  {
    NextPendingIs(r.batches, |r.batches|);
  }

  /**
   In a reachable state an approval makes a job that awaits it ready to run and does nothing else; a pause stops
   every job that has not ended and a resume undoes it; a cancellation ends every job that has not succeeded.
   */
  lemma ControlCalls(r: Rollout)
    requires Inv(r)
    ensures Apply(r, DoApprove) ==
              if r.approval == ApprovalPending then r.(status := Approved, approval := ApprovalApproved) else r
    ensures r.status !in {Succeeded, Failed, Cancelled} ==>
              Apply(r, DoPause) == r.(status := Paused)
              && Apply(Apply(r, DoPause), DoResume) == r.(status := Approved)
    ensures r.status in {Succeeded, Failed, Cancelled} ==> Apply(r, DoPause) == r
    ensures r.status != Paused ==> Apply(r, DoResume) == r
    ensures Apply(r, DoCancel).status == if r.status == Succeeded then Succeeded else Cancelled
    ensures Apply(r, DoCancel).batches == r.batches && Apply(r, DoCancel).secret == r.secret
  {
  }

  /** A cancelled or a succeeded job never changes again. */
  lemma {:induction false} EndedForever(states: seq<Rollout>, steps: seq<Step>, i: nat, j: nat)
    requires IsRun(states, steps) && i <= j < |states| && states[i].status in {Cancelled, Succeeded}
    ensures states[j] == states[i]
    decreases j
  {
    if i < j {
      EndedForever(states, steps, i, j - 1);
      EndedAt(states, steps, j - 1);
    }
  }

  lemma EndedStep(r: Rollout, a: Step)
    requires Inv(r) && r.status in {Cancelled, Succeeded}
    ensures Apply(r, a) == r
  {
    if a.DoRun? {
      BlockedRun(r, a);
    } else {
      ControlCalls(r);
    }
  }

  lemma EndedAt(states: seq<Rollout>, steps: seq<Step>, i: nat)
    requires IsRun(states, steps) && i < |steps| && states[i].status in {Cancelled, Succeeded}
    ensures states[i + 1] == states[i]
  {
    StepOf(states, steps, i);
    EndedStep(states[i], steps[i]);
  }

  lemma PausedAt(states: seq<Rollout>, steps: seq<Step>, i: nat)
    requires IsRun(states, steps) && i < |steps|
    requires states[i].approval == ApprovalApproved && states[i].status == Paused
    requires !steps[i].DoResume? && !steps[i].DoCancel?
    ensures states[i + 1] == states[i]
  {
    StepOf(states, steps, i);
    if steps[i].DoRun? {
      BlockedRun(states[i], steps[i]);
    } else {
      ControlCalls(states[i]);
    }
  }

  /** An approved job stays exactly where a pause stopped it until it is resumed or cancelled. */
  lemma {:induction false} PausedStays(states: seq<Rollout>, steps: seq<Step>, i: nat, j: nat)
    requires IsRun(states, steps) && i < j < |states| && steps[i].DoPause?
    requires states[i].approval == ApprovalApproved && states[i].status !in {Succeeded, Failed}
    requires forall k :: i < k < j ==> !steps[k].DoResume? && !steps[k].DoCancel?
    ensures states[j] == states[i].(status := Paused)
    decreases j
  {
    if i + 1 < j {
      PausedStays(states, steps, i, j - 1);
      PausedAt(states, steps, j - 1);
    } else {
      StepOf(states, steps, i);
      ControlCalls(states[i]);
    }
  }

  // ---------------------------------------------------------------------------------------------
  // What can still become of a job
  // ---------------------------------------------------------------------------------------------

  function ApplyAll(r: Rollout, steps: seq<Step>): Rollout
    requires Aligned(r)
    decreases |steps|
  {
    if steps == [] then r else ApplyAll(Apply(r, steps[0]), steps[1..])
  }

  ghost predicate CanStillSucceed(r: Rollout)
    requires Aligned(r)
  {
    exists steps :: ApplyAll(r, steps).status == Succeeded
  }

  lemma CanStep(r: Rollout, a: Step)
    requires Aligned(r) && CanStillSucceed(Apply(r, a))
    ensures CanStillSucceed(r)
  {
    var steps :| ApplyAll(Apply(r, a), steps).status == Succeeded;
    assert ([a] + steps)[1..] == steps;
    assert ApplyAll(r, [a] + steps).status == Succeeded;
  }

  ghost predicate Hopeful(r: Rollout) {
    r.status != Cancelled && r.status != Failed && HasFlags(r.policy) && SomePending(r)
  }

  lemma Hope(r: Rollout)
    requires Inv(r) && Hopeful(r)
    ensures CanStillSucceed(r)
    decreases |r.batches| - NextPending(r.batches), r.status == Paused,
              r.approval == ApprovalPending
  {
    var b: nat := NextPending(r.batches);
    NextIsFirstPending(r, b);
    if r.approval == ApprovalPending {
      ControlCalls(r);
      InvStep(r, DoApprove);
      Hope(Apply(r, DoApprove));
      CanStep(r, DoApprove);
    } else if r.status == Paused {
      InvStep(r, DoResume);
      Hope(Apply(r, DoResume));
      CanStep(r, DoResume);
    } else {
      var a := DoRun(_ => DidSucceed);
      AfterBatch(r, a, b);
      var s := Apply(r, a);
      if b == |r.batches| - 1 {
        assert ApplyAll(s, []).status == Succeeded;
      } else {
        NextPendingIs(s.batches, b + 1);
        assert s.batches[b + 1] == BatchPending;
        Hope(s);
      }
      CanStep(r, a);
    }
  }

  lemma HopelessStep(r: Rollout, a: Step)
    requires Inv(r) && r.status != Succeeded && !Hopeful(r)
    ensures Inv(Apply(r, a)) && Apply(r, a).status != Succeeded && !Hopeful(Apply(r, a))
  {
    InvStep(r, a);
    if a.DoRun? {
      BlockedRun(r, a);
    }
  }

  lemma {:induction false} Hopeless(r: Rollout, steps: seq<Step>)
    requires Inv(r) && r.status != Succeeded && !Hopeful(r)
    ensures ApplyAll(r, steps).status != Succeeded
    decreases |steps|
  {
    if steps != [] {
      HopelessStep(r, steps[0]);
      Hopeless(Apply(r, steps[0]), steps[1..]);
    }
  }

  /**
   Whether further calls can bring a job to success: exactly if it has succeeded, or is neither cancelled nor failed,
   has its dry-run, backup and verification, and a batch is still pending.
   */
  lemma CanStillSucceedExactly(states: seq<Rollout>, steps: seq<Step>, i: nat)
    requires IsRun(states, steps) && i < |states|
    ensures var r := states[i];
            CanStillSucceed(r) <==>
              || r.status == Succeeded
              || (r.status != Cancelled && r.status != Failed && HasFlags(r.policy) && SomePending(r))
  {
    var r := states[i];
    InvAlways(states, steps, i);
    if r.status == Succeeded {
      assert ApplyAll(r, []).status == Succeeded;
    } else if Hopeful(r) {
      Hope(r);
    } else {
      forall more
        ensures ApplyAll(r, more).status != Succeeded
      {
        Hopeless(r, more);
      }
    }
  }
}
