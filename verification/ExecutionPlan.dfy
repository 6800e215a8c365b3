/**
 The step graph of a change execution and its simulation. A step is known by its order; masking and the texts of the
 simulated outputs are represented by what they are made from.
 */
module ExecutionPlan {
  import opened Wrappers
  import opened ChangeExecution

  datatype StepType =
    | ValidateSource | CheckBackup | CheckLabValidation | CheckLocks | BuildSourcePlan | BuildRollback | ApprovalGate
    | SimulateVlanChange | SimulatePasswordChange | SimulateConfigBackup | SimulateDeviceChange | Finalize

  datatype StepStatus = Pending | Running | Done | BlockedStep | FailedStep | CancelledStep

  /** The output names what was simulated, or for finalize the number of steps before it. */
  datatype Output = Simulated(stepType: StepType, device: Option<Device>) | Summary(priorSteps: nat)

  datatype Step = Step(order: nat, stepType: StepType, dependsOn: seq<nat>, device: Option<Device>, status: StepStatus,
                       output: Option<Output>)

  function Planned(order: nat, stepType: StepType, dependsOn: seq<nat>, device: Option<Device>): Step {
    Step(order, stepType, dependsOn, device, Pending, None)
  }

  /** The orders from `from` up to and without `to`. */
  function Range(from: nat, to: nat): seq<nat>
    requires from <= to
  {
    seq(to - from, i requires 0 <= i < to - from => from + i)
  }

  function BaseTypes(rollback: bool): seq<StepType> {
    [ValidateSource, CheckBackup, CheckLabValidation, CheckLocks, BuildSourcePlan]
    + (if rollback then [BuildRollback] else []) + [ApprovalGate]
  }

  class ChangeExecutionPlanService {
    constructor () {}

    method BaseSteps(rollback: bool) returns (steps: seq<Step>)
      ensures steps == Base(rollback)
    {
      steps := [
        Planned(1, ValidateSource, [], None),
        Planned(2, CheckBackup, [1], None),
        Planned(3, CheckLabValidation, [2], None),
        Planned(4, CheckLocks, [3], None),
        Planned(5, BuildSourcePlan, [4], None)
      ];
      if rollback {
        steps := steps + [Planned(6, BuildRollback, [5], None)];
        steps := steps + [Planned(7, ApprovalGate, [6], None)];
      } else {
        steps := steps + [Planned(6, ApprovalGate, [5], None)];
      }
    }

    /**
     The three source-specific builders: one step per device after the approval gate, then finalize over all of
     them.
     */
    method DeviceSteps(rollback: bool, stepType: StepType, sourceId: Option<nat>, devices: seq<Device>)
        returns (steps: seq<Step>)
      ensures steps == if sourceId == None then Base(rollback) else Graph(rollback, stepType, devices)
    {
      steps := BaseSteps(rollback);
      if sourceId == None {
        return;
      }
      var gate := if rollback then 7 else 6;
      var order := gate + 1;
      ghost var base, planned := steps, PerDevice(gate, stepType, devices);
      assert |base| == gate;
      for k := 0 to |devices|
        invariant order == gate + 1 + k && steps == base + planned[..k]
      {
        assert planned[..k + 1] == planned[..k] + [planned[k]];
        Associative(base, planned[..k], [planned[k]]);
        steps := steps + [Planned(order, stepType, [gate], Some(devices[k]))];
        order := order + 1;
      }
      assert planned[..|devices|] == planned;
      steps := steps + [Planned(order, Finalize, Range(gate + 1, order), None)];
    }

    method BuildStepsForSource(sourceType: SourceType, sourceId: Option<nat>, devices: seq<Device>)
        returns (steps: seq<Step>)
      ensures steps == StepsFor(sourceType, sourceId, devices)
    {
      match sourceType
      case VlanWorkflow => steps := DeviceSteps(true, SimulateVlanChange, sourceId, devices);
      case PasswordRollout => steps := DeviceSteps(false, SimulatePasswordChange, sourceId, devices);
      case ConfigBackupJob => steps := DeviceSteps(false, SimulateConfigBackup, sourceId, devices);
      case Composite =>
        steps := BaseSteps(false);
        steps := steps + [Planned(7, SimulateDeviceChange, [6], None)];
        steps := steps + [Planned(8, Finalize, [7], None)];
      case Manual =>
        steps := BaseSteps(false);
        steps := steps + [Planned(8, Finalize, [7], None)];
    }

    /** A plan is built once; asking again gives the stored steps. */
    method BuildExecutionPlan(stored: seq<Step>, sourceType: SourceType, sourceId: Option<nat>, devices: seq<Device>)
        returns (steps: seq<Step>)
      ensures steps == if stored != [] then stored else StepsFor(sourceType, sourceId, devices)
      ensures steps != []
    {
      steps := stored;
      if steps == [] {
        steps := BuildStepsForSource(sourceType, sourceId, devices);
      }
    }
  }

  function Base(rollback: bool): seq<Step> {
    var types := BaseTypes(rollback);
    seq(|types|, i requires 0 <= i < |types| => Planned(i + 1, types[i], if i == 0 then [] else [i], None))
  }

  function PerDevice(gate: nat, stepType: StepType, devices: seq<Device>): seq<Step> {
    seq(|devices|, k requires 0 <= k < |devices| => Planned(gate + 1 + k, stepType, [gate], Some(devices[k])))
  }

  function Graph(rollback: bool, stepType: StepType, devices: seq<Device>): seq<Step> {
    var gate := |Base(rollback)|;
    Base(rollback) + PerDevice(gate, stepType, devices)
    + [Planned(gate + 1 + |devices|, Finalize, Range(gate + 1, gate + 1 + |devices|), None)]
  }

  function StepsFor(sourceType: SourceType, sourceId: Option<nat>, devices: seq<Device>): seq<Step> {
    match sourceType
    case VlanWorkflow => if sourceId == None then Base(true) else Graph(true, SimulateVlanChange, devices)
    case PasswordRollout => if sourceId == None then Base(false) else Graph(false, SimulatePasswordChange, devices)
    case ConfigBackupJob => if sourceId == None then Base(false) else Graph(false, SimulateConfigBackup, devices)
    case Composite => Base(false) + [Planned(7, SimulateDeviceChange, [6], None), Planned(8, Finalize, [7], None)]
    case Manual => Base(false) + [Planned(8, Finalize, [7], None)]
  }

  // ---------------------------------------------------------------------------------------------
  // The graph
  // ---------------------------------------------------------------------------------------------

  /** Step i has order i + 1. */
  ghost predicate Numbered(steps: seq<Step>) {
    forall i :: 0 <= i < |steps| ==> steps[i].order == i + 1
  }

  ghost predicate DependsOnEarlier(steps: seq<Step>, s: Step) {
    forall d :: d in s.dependsOn ==> d < s.order && Exists(steps, d)
  }

  ghost predicate Exists(steps: seq<Step>, order: nat) {
    exists i :: 0 <= i < |steps| && steps[i].order == order
  }

  /** Every dependency is an existing step of a smaller order. */
  ghost predicate Grounded(steps: seq<Step>) {
    forall i :: 0 <= i < |steps| ==> DependsOnEarlier(steps, steps[i])
  }

  lemma NumberedExists(steps: seq<Step>, order: nat)
    requires Numbered(steps)
    ensures Exists(steps, order) <==> 1 <= order <= |steps|
  {
    if 1 <= order <= |steps| {
      assert steps[order - 1].order == order;
    }
  }

  lemma GraphAt(rollback: bool, stepType: StepType, devices: seq<Device>, i: nat)
    requires i < |Graph(rollback, stepType, devices)|
    ensures var steps, gate := Graph(rollback, stepType, devices), |Base(rollback)|;
            && |steps| == gate + |devices| + 1 && 6 <= gate
            && (i < gate ==> steps[i] == Base(rollback)[i])
            && (gate <= i < gate + |devices| ==> steps[i] == Planned(i + 1, stepType, [gate], Some(devices[i - gate])))
            && (i == gate + |devices| ==>
                  steps[i] == Planned(i + 1, Finalize, Range(gate + 1, gate + 1 + |devices|), None))
  {
  }

  lemma GraphGrounded(rollback: bool, stepType: StepType, devices: seq<Device>)
    ensures Numbered(Graph(rollback, stepType, devices)) && Grounded(Graph(rollback, stepType, devices))
  {
    var steps := Graph(rollback, stepType, devices);
    forall i | 0 <= i < |steps|
      ensures steps[i].order == i + 1
    {
      GraphAt(rollback, stepType, devices, i);
    }
    forall i, d | 0 <= i < |steps| && d in steps[i].dependsOn
      ensures d < steps[i].order && Exists(steps, d)
    {
      GraphAt(rollback, stepType, devices, i);
      NumberedExists(steps, d);
    }
  }

  lemma BaseGrounded(rollback: bool)
    ensures Numbered(Base(rollback)) && Grounded(Base(rollback))
  {
    var steps := Base(rollback);
    forall i, d | 0 <= i < |steps| && d in steps[i].dependsOn
      ensures d < steps[i].order && Exists(steps, d)
    {
      NumberedExists(steps, d);
    }
  }

  lemma CompositeGrounded(sourceId: Option<nat>, devices: seq<Device>)
    ensures Numbered(StepsFor(Composite, sourceId, devices)) && Grounded(StepsFor(Composite, sourceId, devices))
  {
    var steps := StepsFor(Composite, sourceId, devices);
    forall i, d | 0 <= i < |steps| && d in steps[i].dependsOn
      ensures d < steps[i].order && Exists(steps, d)
    {
      NumberedExists(steps, d);
    }
  }

  /**
   A planned graph is numbered 1..n and grounded (so acyclic) exactly if the source is not manual: a manual source
   gets a step 8 after step 6 that depends on a step 7 nobody plans.
   */
  lemma PlanGroundedExactly(sourceType: SourceType, sourceId: Option<nat>, devices: seq<Device>)
    ensures var steps := StepsFor(sourceType, sourceId, devices);
            Numbered(steps) && Grounded(steps) <==> sourceType != Manual
    ensures !Exists(StepsFor(Manual, sourceId, devices), 7) && 7 in StepsFor(Manual, sourceId, devices)[6].dependsOn
  {
    BaseGrounded(true);
    BaseGrounded(false);
    GraphGrounded(true, SimulateVlanChange, devices);
    GraphGrounded(false, SimulatePasswordChange, devices);
    GraphGrounded(false, SimulateConfigBackup, devices);
    CompositeGrounded(sourceId, devices);
    assert StepsFor(Manual, sourceId, devices)[6].order == 8;
  }

  /** `b` is reached from `a` along dependencies. */
  ghost predicate Reaches(steps: seq<Step>, a: nat, b: nat)
    requires Numbered(steps)
    decreases b
  {
    1 <= a <= b <= |steps| && (a == b || exists d :: d in steps[b - 1].dependsOn && d < b && Reaches(steps, a, d))
  }

  lemma {:induction false} BaseReaches(rollback: bool, stepType: StepType, devices: seq<Device>, a: nat, b: nat)
    requires 1 <= a <= b <= |Base(rollback)|
    ensures Numbered(Graph(rollback, stepType, devices)) && Reaches(Graph(rollback, stepType, devices), a, b)
    decreases b
  {
    GraphGrounded(rollback, stepType, devices);
    GraphAt(rollback, stepType, devices, b - 1);
    if a < b {
      BaseReaches(rollback, stepType, devices, a, b - 1);
      assert b - 1 in Graph(rollback, stepType, devices)[b - 1].dependsOn;
    }
  }

  lemma ReachesVia(steps: seq<Step>, a: nat, via: nat, b: nat)
    requires Numbered(steps) && via < b <= |steps| && Reaches(steps, a, via) && via in steps[b - 1].dependsOn
    ensures Reaches(steps, a, b)
  {
  }

  lemma InRange(from: nat, to: nat, n: nat)
    requires from <= n < to
    ensures n in Range(from, to)
  {
    assert Range(from, to)[n - from] == n;
  }

  lemma ReachesFirstDevice(rollback: bool, stepType: StepType, devices: seq<Device>, a: nat)
    requires 1 <= a <= |Base(rollback)| && devices != []
    ensures Numbered(Graph(rollback, stepType, devices))
            && Reaches(Graph(rollback, stepType, devices), a, |Base(rollback)| + 1)
  {
    var steps, gate := Graph(rollback, stepType, devices), |Base(rollback)|;
    GraphAt(rollback, stepType, devices, gate);
    BaseReaches(rollback, stepType, devices, a, gate);
    ReachesVia(steps, a, gate, gate + 1);
  }

  lemma DeviceReaches(rollback: bool, stepType: StepType, devices: seq<Device>, a: nat)
    requires 1 <= a <= |Base(rollback)| + |devices| && devices != []
    ensures Numbered(Graph(rollback, stepType, devices))
    ensures Reaches(Graph(rollback, stepType, devices), a, |Graph(rollback, stepType, devices)|)
  {
    var steps, gate := Graph(rollback, stepType, devices), |Base(rollback)|;
    var last := gate + |devices| + 1;
    GraphGrounded(rollback, stepType, devices);
    GraphAt(rollback, stepType, devices, last - 1);
    if a <= gate {
      ReachesFirstDevice(rollback, stepType, devices, a);
      InRange(gate + 1, last, gate + 1);
      ReachesVia(steps, a, gate + 1, last);
    } else {
      InRange(gate + 1, last, a);
      ReachesVia(steps, a, a, last);
    }
  }

  /** The last step is finalize, and it comes after every other step. */
  ghost predicate Closed(steps: seq<Step>) {
    && Numbered(steps) && steps != [] && steps[|steps| - 1].stepType == Finalize
    && forall a :: 1 <= a <= |steps| ==> Reaches(steps, a, |steps|)
  }

  lemma GraphClosedExactly(rollback: bool, stepType: StepType, devices: seq<Device>)
    ensures Closed(Graph(rollback, stepType, devices)) <==> devices != []
  {
    var steps := Graph(rollback, stepType, devices);
    GraphGrounded(rollback, stepType, devices);
    GraphAt(rollback, stepType, devices, |steps| - 1);
    if devices != [] {
      forall a | 1 <= a < |steps|
        ensures Reaches(steps, a, |steps|)
      {
        DeviceReaches(rollback, stepType, devices, a);
      }
    } else {
      assert !Reaches(steps, 1, |steps|);
    }
  }

  ghost predicate FollowsPrevious(steps: seq<Step>, i: nat)
    requires i < |steps|
  {
    i in steps[i].dependsOn
  }

  /** Every step but the first depends on the one before it. */
  ghost predicate IsChain(steps: seq<Step>) {
    Numbered(steps) && forall i :: 0 < i < |steps| ==> FollowsPrevious(steps, i)
  }

  lemma {:induction false} ChainReaches(steps: seq<Step>, a: nat, b: nat)
    requires IsChain(steps) && 1 <= a <= b <= |steps|
    ensures Reaches(steps, a, b)
    decreases b
  {
    if a == b {
      assert Reaches(steps, a, b);
    } else {
      ChainReaches(steps, a, b - 1);
      assert FollowsPrevious(steps, b - 1);
      ReachesVia(steps, a, b - 1, b);
    }
  }

  lemma CompositeClosed(sourceId: Option<nat>, devices: seq<Device>)
    ensures Closed(StepsFor(Composite, sourceId, devices))
  {
    var steps := StepsFor(Composite, sourceId, devices);
    CompositeGrounded(sourceId, devices);
    forall i | 0 < i < |steps|
      ensures FollowsPrevious(steps, i)
    {
    }
    forall a | 1 <= a <= |steps|
      ensures Reaches(steps, a, |steps|)
    {
      ChainReaches(steps, a, |steps|);
    }
  }

  lemma BaseNotClosed(rollback: bool)
    ensures !Closed(Base(rollback))
  {
    assert Base(rollback)[|Base(rollback)| - 1].stepType == ApprovalGate;
  }

  lemma ManualNotClosed(sourceId: Option<nat>, devices: seq<Device>)
    ensures !Closed(StepsFor(Manual, sourceId, devices))
  {
    assert StepsFor(Manual, sourceId, devices)[6].order == 8;
  }

  /**
   A plan ends in a finalize step behind all the others exactly if the source is composite, or it is not manual, has
   an id and has a target device. (A source without an id gets no finalize step at all.)
   */
  lemma FinalizeClosesExactly(sourceType: SourceType, sourceId: Option<nat>, devices: seq<Device>)
    ensures Closed(StepsFor(sourceType, sourceId, devices)) <==>
              sourceType == Composite || (sourceType != Manual && sourceId.Some? && devices != [])
  {
    match sourceType
    case VlanWorkflow =>
      BaseNotClosed(true);
      GraphClosedExactly(true, SimulateVlanChange, devices);
    case PasswordRollout =>
      BaseNotClosed(false);
      GraphClosedExactly(false, SimulatePasswordChange, devices);
    case ConfigBackupJob =>
      BaseNotClosed(false);
      GraphClosedExactly(false, SimulateConfigBackup, devices);
    case Composite => CompositeClosed(sourceId, devices);
    case Manual => ManualNotClosed(sourceId, devices);
  }

  // ---------------------------------------------------------------------------------------------
  // The simulation
  // ---------------------------------------------------------------------------------------------

  predicate Stuck(s: Step) {
    s.status in {BlockedStep, FailedStep, CancelledStep}
  }

  function PriorSteps(steps: seq<Step>): nat {
    if steps == [] then 0 else PriorSteps(steps[1..]) + if steps[0].stepType != Finalize then 1 else 0
  }

  function OutputOf(s: Step, prior: nat): Output {
    if s.stepType == Finalize then Summary(prior) else Output.Simulated(s.stepType, s.device)
  }

  function SimulateOne(s: Step, prior: nat): Step {
    if s.status == Done || Stuck(s) then s else s.(status := Done, output := Some(OutputOf(s, prior)))
  }

  /** The steps when the first k of them have been visited. */
  function SimulatedUpTo(steps: seq<Step>, k: nat): seq<Step> {
    seq(|steps|, i requires 0 <= i < |steps| => if i < k then SimulateOne(steps[i], PriorSteps(steps)) else steps[i])
  }

  class ChangeExecutionSimulationService {
    var steps: seq<Step>

    constructor (steps: seq<Step>)
      ensures this.steps == steps
    {
      this.steps := steps;
    }

    method SimulateSteps()
      modifies this
      ensures steps == SimulatedUpTo(old(steps), |old(steps)|)
    {
      for k := 0 to |steps|
        invariant steps == SimulatedUpTo(old(steps), k)
      {
        ghost var before := steps;
        SimulateStep(k);
        SamePriorSteps(old(steps), k);
        assert steps == before[k := SimulateOne(old(steps)[k], PriorSteps(old(steps)))];
      }
    }

    method SimulateStep(k: nat)
      requires k < |steps|
      modifies this
      ensures steps == old(steps)[k := SimulateOne(old(steps)[k], PriorSteps(old(steps)))]
    {
      var s := steps[k];
      if s.status == Done || Stuck(s) {
        return;
      }
      steps := steps[k := s.(status := Running)];
      var output: Output;
      if s.stepType == Finalize {
        var prior := CountPrior();
        output := Summary(prior);
        PriorStepsUpdate(old(steps), k, s.(status := Running));
      } else {
        output := Output.Simulated(s.stepType, s.device);
      }
      steps := steps[k := s.(status := Done, output := Some(output))];
    }

    method CountPrior() returns (n: nat)
      ensures n == PriorSteps(steps)
    {
      n := 0;
      for k := 0 to |steps|
        invariant n + PriorSteps(steps[k..]) == PriorSteps(steps)
      {
        assert steps[k..][1..] == steps[k + 1..];
        if steps[k].stepType != Finalize {
          n := n + 1;
        }
      }
    }
  }

  lemma {:induction false} PriorStepsUpdate(steps: seq<Step>, k: nat, s: Step)
    requires k < |steps| && s.stepType == steps[k].stepType
    ensures PriorSteps(steps[k := s]) == PriorSteps(steps)
  {
    if k > 0 {
      PriorStepsUpdate(steps[1..], k - 1, s);
      assert steps[k := s][1..] == steps[1..][k - 1 := s];
    }
  }

  lemma {:induction false} SamePriorSteps(steps: seq<Step>, k: nat)
    requires k <= |steps|
    ensures PriorSteps(SimulatedUpTo(steps, k)) == PriorSteps(steps)
  {
    if k == 0 {
      assert SimulatedUpTo(steps, 0) == steps;
    } else {
      SamePriorSteps(steps, k - 1);
      var before, s := SimulatedUpTo(steps, k - 1), SimulateOne(steps[k - 1], PriorSteps(steps));
      assert SimulatedUpTo(steps, k) == before[k - 1 := s];
      PriorStepsUpdate(before, k - 1, s);
    }
  }

  ghost predicate DependenciesDone(steps: seq<Step>, s: Step) {
    forall d :: d in s.dependsOn ==> exists i :: 0 <= i < |steps| && steps[i].order == d && steps[i].status == Done
  }

  ghost predicate NoneStuck(steps: seq<Step>) {
    forall i :: 0 <= i < |steps| ==> !Stuck(steps[i])
  }

  /** In a planned graph with nothing stuck, a step's turn comes only when all its dependencies are simulated. */
  lemma SimulatedAfterDependencies(steps: seq<Step>, k: nat)
    requires Numbered(steps) && Grounded(steps) && NoneStuck(steps) && k < |steps|
    ensures DependenciesDone(SimulatedUpTo(steps, k), steps[k])
  {
    var now := SimulatedUpTo(steps, k);
    forall d | d in steps[k].dependsOn
      ensures exists i :: 0 <= i < |now| && now[i].order == d && now[i].status == Done
    {
      assert DependsOnEarlier(steps, steps[k]);
      NumberedExists(steps, d);
      assert now[d - 1].order == d && now[d - 1].status == Done;
    }
  }

  lemma PlanIsPending(sourceType: SourceType, sourceId: Option<nat>, devices: seq<Device>, i: nat)
    requires i < |StepsFor(sourceType, sourceId, devices)|
    ensures StepsFor(sourceType, sourceId, devices)[i].status == Pending
  {
    PendingBase(true);
    PendingBase(false);
    PendingGraph(true, SimulateVlanChange, devices);
    PendingGraph(false, SimulatePasswordChange, devices);
    PendingGraph(false, SimulateConfigBackup, devices);
    var steps := StepsFor(sourceType, sourceId, devices);
    assert steps[i] in steps;
  }

  lemma PendingBase(rollback: bool)
    ensures forall s :: s in Base(rollback) ==> s.status == Pending
  {
  }

  lemma PendingGraph(rollback: bool, stepType: StepType, devices: seq<Device>)
    ensures forall s :: s in Graph(rollback, stepType, devices) ==> s.status == Pending
  {
  }

  lemma PlanNotStuck(sourceType: SourceType, sourceId: Option<nat>, devices: seq<Device>)
    ensures NoneStuck(StepsFor(sourceType, sourceId, devices))
  {
    var steps := StepsFor(sourceType, sourceId, devices);
    forall i | 0 <= i < |steps|
      ensures !Stuck(steps[i])
    {
      PlanIsPending(sourceType, sourceId, devices, i);
    }
  }

  lemma SimulatesInOrder(steps: seq<Step>, k: nat)
    requires Numbered(steps) && Grounded(steps) && NoneStuck(steps) && k < |steps|
    ensures DependenciesDone(SimulatedUpTo(steps, k), steps[k]) && SimulatedUpTo(steps, |steps|)[k].status == Done
  {
    SimulatedAfterDependencies(steps, k);
  }

  /** Every plan of a source that is not manual simulates in dependency order and to the end. */
  lemma PlansSimulateInOrder(sourceType: SourceType, sourceId: Option<nat>, devices: seq<Device>, k: nat)
    requires sourceType != Manual && k < |StepsFor(sourceType, sourceId, devices)|
    ensures var steps := StepsFor(sourceType, sourceId, devices);
            && DependenciesDone(SimulatedUpTo(steps, k), steps[k])
            && SimulatedUpTo(steps, |steps|)[k].status == Done
  {
    PlanGroundedExactly(sourceType, sourceId, devices);
    PlanNotStuck(sourceType, sourceId, devices);
    SimulatesInOrder(StepsFor(sourceType, sourceId, devices), k);
  }

  /** A simulation ends with every step simulated exactly if no step was blocked, failed or cancelled. */
  lemma AllSimulatedExactly(steps: seq<Step>)
    ensures (forall i :: 0 <= i < |steps| ==> SimulatedUpTo(steps, |steps|)[i].status == Done) <==> NoneStuck(steps)
  {
    if !NoneStuck(steps) {
      var i :| 0 <= i < |steps| && Stuck(steps[i]);
      assert SimulatedUpTo(steps, |steps|)[i].status != Done;
    }
  }

  /**
   Simulating again, after a simulation of the whole plan or of a beginning of it, ends in the same steps with the same
   outputs as one simulation; in particular a second full simulation changes nothing.
   */
  lemma ResimulationChangesNothing(steps: seq<Step>, k: nat)
    requires k <= |steps|
    ensures var earlier := SimulatedUpTo(steps, k);
            SimulatedUpTo(earlier, |earlier|) == SimulatedUpTo(steps, |steps|)
  {
    SamePriorSteps(steps, k);
  }

  // ---------------------------------------------------------------------------------------------
  // What a plan holds and what its simulation says
  // ---------------------------------------------------------------------------------------------

  ghost predicate Fresh(s: Step, order: nat, stepType: StepType) {
    s.order == order && s.stepType == stepType && s.status == Pending && s.output == None
  }

  function ChecksOf(rollback: bool): seq<StepType> {
    if rollback then
      [ValidateSource, CheckBackup, CheckLabValidation, CheckLocks, BuildSourcePlan, BuildRollback, ApprovalGate]
    else
      [ValidateSource, CheckBackup, CheckLabValidation, CheckLocks, BuildSourcePlan, ApprovalGate]
  }

  /** The check of the given order: it depends on the one before it, and is about no single device. */
  ghost predicate IsCheck(s: Step, order: nat, stepType: StepType) {
    Fresh(s, order, stepType) && s.device == None && s.dependsOn == if order == 1 then [] else [order - 1]
  }

  /** The checks up to the gate, in a chain. */
  ghost predicate BeginsWithChecks(steps: seq<Step>, rollback: bool) {
    var checks := ChecksOf(rollback);
    |steps| >= |checks| && forall i :: 0 <= i < |checks| ==> IsCheck(steps[i], i + 1, checks[i])
  }

  lemma BaseIs(rollback: bool)
    ensures BeginsWithChecks(Base(rollback), rollback)
  {
    assert BaseTypes(rollback) == ChecksOf(rollback);
  }

  lemma BaseBegins(rollback: bool, more: seq<Step>)
    ensures BeginsWithChecks(Base(rollback), rollback) && BeginsWithChecks(Base(rollback) + more, rollback)
  {
    BaseIs(rollback);
    ChecksKept(Base(rollback), more, rollback);
  }

  lemma GraphBegins(rollback: bool, stepType: StepType, devices: seq<Device>)
    ensures BeginsWithChecks(Graph(rollback, stepType, devices), rollback)
  {
    var gate := |Base(rollback)|;
    var finish := [Planned(gate + 1 + |devices|, Finalize, Range(gate + 1, gate + 1 + |devices|), None)];
    BaseBegins(rollback, PerDevice(gate, stepType, devices));
    ChecksKept(Base(rollback) + PerDevice(gate, stepType, devices), finish, rollback);
  }

  lemma ChecksKept(steps: seq<Step>, more: seq<Step>, rollback: bool)
    requires BeginsWithChecks(steps, rollback)
    ensures BeginsWithChecks(steps + more, rollback)
  {
  }

  /** Every plan begins with the checks, and only that of a VLAN workflow with a rollback step among them. */
  lemma ChecksExactly(sourceType: SourceType, sourceId: Option<nat>, devices: seq<Device>)
    ensures BeginsWithChecks(StepsFor(sourceType, sourceId, devices), sourceType == VlanWorkflow)
  {
    match sourceType
    case VlanWorkflow =>
      BaseBegins(true, []);
      GraphBegins(true, SimulateVlanChange, devices);
    case PasswordRollout =>
      BaseBegins(false, []);
      GraphBegins(false, SimulatePasswordChange, devices);
    case ConfigBackupJob =>
      BaseBegins(false, []);
      GraphBegins(false, SimulateConfigBackup, devices);
    case Composite =>
      BaseBegins(false, [Planned(7, SimulateDeviceChange, [6], None), Planned(8, Finalize, [7], None)]);
    case Manual => BaseBegins(false, [Planned(8, Finalize, [7], None)]);
  }

  ghost predicate IsDeviceStep(s: Step, gate: nat, k: nat, stepType: StepType, d: Device) {
    Fresh(s, gate + k + 1, stepType) && s.device == Some(d) && s.dependsOn == [gate]
  }

  /** One step per device behind the gate, in their order, and then a finalize step over exactly these. */
  ghost predicate EndsWithDevices(steps: seq<Step>, gate: nat, stepType: StepType, devices: seq<Device>) {
    && |steps| == gate + |devices| + 1
    && (forall k :: 0 <= k < |devices| ==> IsDeviceStep(steps[gate + k], gate, k, stepType, devices[k]))
    && Fresh(steps[gate + |devices|], gate + |devices| + 1, Finalize) && steps[gate + |devices|].device == None
    && var closed := steps[gate + |devices|].dependsOn;
    forall d: nat :: d in closed <==> gate < d <= gate + |devices|
  }

  lemma RangeHas(from: nat, to: nat)
    requires from <= to
    ensures forall d: nat :: d in Range(from, to) <==> from <= d < to
  {
    forall d: nat | from <= d < to
      ensures d in Range(from, to)
    {
      InRange(from, to, d);
    }
  }

  lemma GraphDeviceStep(rollback: bool, stepType: StepType, devices: seq<Device>, k: nat)
    requires k < |devices|
    ensures var steps, gate := Graph(rollback, stepType, devices), if rollback then 7 else 6;
            gate + k < |steps| && IsDeviceStep(steps[gate + k], gate, k, stepType, devices[k])
  {
    GraphAt(rollback, stepType, devices, |Base(rollback)| + k);
  }

  lemma GraphCloses(rollback: bool, stepType: StepType, devices: seq<Device>)
    ensures var steps, gate := Graph(rollback, stepType, devices), if rollback then 7 else 6;
            && |steps| == gate + |devices| + 1
            && Fresh(steps[gate + |devices|], gate + |devices| + 1, Finalize) && steps[gate + |devices|].device == None
            && var closed := steps[gate + |devices|].dependsOn;
               forall d: nat :: d in closed <==> gate < d <= gate + |devices|
  {
    var gate := |Base(rollback)|;
    GraphAt(rollback, stepType, devices, gate + |devices|);
    RangeHas(gate + 1, gate + 1 + |devices|);
  }

  lemma GraphEnds(rollback: bool, stepType: StepType, devices: seq<Device>)
    ensures EndsWithDevices(Graph(rollback, stepType, devices), if rollback then 7 else 6, stepType, devices)
  {
    GraphCloses(rollback, stepType, devices);
    forall k: nat | k < |devices|
      ensures var steps, gate := Graph(rollback, stepType, devices), if rollback then 7 else 6;
              gate + k < |steps| && IsDeviceStep(steps[gate + k], gate, k, stepType, devices[k])
    {
      GraphDeviceStep(rollback, stepType, devices, k);
    }
  }

  function SimulationOf(sourceType: SourceType): StepType {
    match sourceType
    case VlanWorkflow => SimulateVlanChange
    case PasswordRollout => SimulatePasswordChange
    case ConfigBackupJob => SimulateConfigBackup
    case _ => SimulateDeviceChange
  }

  /**
   Behind the gate of a source with an id stands one step per target device, of the kind of the source; a source without
   an id ends at the gate.
   */
  lemma DeviceStepsExactly(sourceType: SourceType, sourceId: Option<nat>, devices: seq<Device>)
    requires sourceType in {VlanWorkflow, PasswordRollout, ConfigBackupJob}
    ensures var steps, gate := StepsFor(sourceType, sourceId, devices), if sourceType == VlanWorkflow then 7 else 6;
            if sourceId == None then |steps| == gate
            else EndsWithDevices(steps, gate, SimulationOf(sourceType), devices)
  {
    GraphEnds(true, SimulateVlanChange, devices);
    GraphEnds(false, SimulatePasswordChange, devices);
    GraphEnds(false, SimulateConfigBackup, devices);
  }

  /** A composite source is simulated by one step without a device; a manual one has only its finalize step. */
  lemma OtherStepsExactly(sourceId: Option<nat>, devices: seq<Device>)
    ensures var composite, manual := StepsFor(Composite, sourceId, devices), StepsFor(Manual, sourceId, devices);
            && |composite| == 8 && Fresh(composite[6], 7, SimulateDeviceChange) && composite[6].device == None
            && Fresh(composite[7], 8, Finalize) && composite[6].dependsOn == [6] && composite[7].dependsOn == [7]
            && |manual| == 7 && Fresh(manual[6], 8, Finalize)
  {
  }

  function TypesOf(steps: seq<Step>): seq<StepType> {
    seq(|steps|, i requires 0 <= i < |steps| => steps[i].stepType)
  }

  /** The number in the summary is the number of steps that are not finalize. */
  lemma {:induction false} PriorStepsMean(steps: seq<Step>)
    ensures PriorSteps(steps) + multiset(TypesOf(steps))[Finalize] == |steps|
  {
    if steps != [] {
      PriorStepsMean(steps[1..]);
      assert TypesOf(steps) == [steps[0].stepType] + TypesOf(steps[1..]);
    }
  }

  /**
   A simulation leaves blocked, failed, cancelled and simulated steps as they are. Every other step keeps its place in
   the graph and says what was simulated on which device, or for finalize how many steps are not finalize.
   */
  lemma SimulationSays(steps: seq<Step>, i: nat)
    requires i < |steps|
    ensures var s, done := steps[i], SimulatedUpTo(steps, |steps|);
            && |done| == |steps|
            && (s.status in {Done, BlockedStep, FailedStep, CancelledStep} ==> done[i] == s)
            && (s.status in {Pending, Running} ==>
                  && done[i].order == s.order && done[i].stepType == s.stepType && done[i].device == s.device
                  && done[i].dependsOn == s.dependsOn && done[i].status == Done && done[i].output.Some?
                  && if s.stepType == Finalize
                     then done[i].output.value.Summary?
                          && done[i].output.value.priorSteps + multiset(TypesOf(steps))[Finalize] == |steps|
                     else done[i].output.value == Output.Simulated(s.stepType, s.device))
  {
    PriorStepsMean(steps);
  }

  lemma OneFinalize(steps: seq<Step>)
    requires steps != [] && forall i :: 0 <= i < |steps| ==> (steps[i].stepType == Finalize <==> i == |steps| - 1)
    ensures multiset(TypesOf(steps))[Finalize] == 1
  {
    var n := |steps| - 1;
    assert TypesOf(steps) == TypesOf(steps[..n]) + [Finalize];
    assert Finalize !in TypesOf(steps[..n]);
  }

  lemma GraphFinalizes(rollback: bool, stepType: StepType, devices: seq<Device>)
    requires stepType != Finalize
    ensures multiset(TypesOf(Graph(rollback, stepType, devices)))[Finalize] == 1
  {
    var steps := Graph(rollback, stepType, devices);
    forall i | 0 <= i < |steps|
      ensures steps[i].stepType == Finalize <==> i == |steps| - 1
    {
      GraphAt(rollback, stepType, devices, i);
    }
    OneFinalize(steps);
  }

  /** The simulation of these steps ends in a summary that counts n steps. */
  ghost predicate EndsInSummary(steps: seq<Step>, n: nat) {
    steps != [] && SimulatedUpTo(steps, |steps|)[|steps| - 1].output == Some(Summary(n))
  }

  lemma GraphSummary(rollback: bool, stepType: StepType, devices: seq<Device>)
    requires stepType != Finalize
    ensures EndsInSummary(Graph(rollback, stepType, devices), (if rollback then 7 else 6) + |devices|)
  {
    var steps := Graph(rollback, stepType, devices);
    GraphFinalizes(rollback, stepType, devices);
    GraphAt(rollback, stepType, devices, |steps| - 1);
    SimulationSays(steps, |steps| - 1);
  }

  /** So the simulated plan of a source with an id ends in the number of its checks and target devices. */
  lemma PlanSummary(sourceType: SourceType, sourceId: Option<nat>, devices: seq<Device>)
    requires sourceType in {VlanWorkflow, PasswordRollout, ConfigBackupJob} && sourceId.Some?
    ensures EndsInSummary(StepsFor(sourceType, sourceId, devices),
                          (if sourceType == VlanWorkflow then 7 else 6) + |devices|)
  {
    match sourceType
    case VlanWorkflow => GraphSummary(true, SimulateVlanChange, devices);
    case PasswordRollout => GraphSummary(false, SimulatePasswordChange, devices);
    case ConfigBackupJob => GraphSummary(false, SimulateConfigBackup, devices);
  }
}
