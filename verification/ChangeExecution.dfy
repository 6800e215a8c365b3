/**
 The change execution orchestrator: any number of executions that compete for device and workflow locks. Each
 service call is one atomic step. What a call finds at the execution's source (its target devices and whether
 anything but the locks is wrong with it) may be different on every call, so it is an input of the step.
 */
module ChangeExecution {
  import opened Wrappers

  type Id = nat
  type Device = nat

  datatype Status = Draft | Validated | Blocked | PendingApproval | Approved | Rejected | Ready | Simulated | Cancelled

  datatype Approval = Undecided | Granted | Denied

  datatype SourceType = VlanWorkflow | PasswordRollout | ConfigBackupJob | Composite | Manual

  datatype Target = DeviceTarget(device: Device) | WorkflowTarget(sourceType: SourceType, sourceId: nat)

  datatype LockRow = LockRow(execution: Id, target: Target, reserved: bool)

  /** `approvals` are the approval rows in the order of their creation. */
  datatype Execution = Execution(status: Status, requiresApproval: bool, sourceType: SourceType, sourceId: Option<nat>,
                                 approvals: seq<Approval>, planned: bool)

  datatype World = World(executions: seq<Execution>, locks: seq<LockRow>)

  /** The target devices, and whether mode, source, backups or lab validations are in error. */
  datatype Source = Source(targets: seq<Device>, errors: bool)

  // ---------------------------------------------------------------------------------------------
  // Locks
  // ---------------------------------------------------------------------------------------------

  /** What an execution has to lock: each target device and, if it has one, its source workflow. */
  function Wanted(x: Execution, targets: seq<Device>): seq<Target> {
    seq(|targets|, i requires 0 <= i < |targets| => DeviceTarget(targets[i]))
    + if x.sourceId.Some? then [WorkflowTarget(x.sourceType, x.sourceId.value)] else []
  }

  predicate Holds(locks: seq<LockRow>, e: Id, t: Target) {
    exists i | 0 <= i < |locks| :: locks[i] == LockRow(e, t, true)
  }

  predicate HeldByOther(locks: seq<LockRow>, e: Id, t: Target) {
    exists i | 0 <= i < |locks| :: locks[i].reserved && locks[i].target == t && locks[i].execution != e
  }

  predicate Conflict(locks: seq<LockRow>, e: Id, wanted: seq<Target>) {
    exists k | 0 <= k < |wanted| :: HeldByOther(locks, e, wanted[k])
  }

  predicate HasRows(locks: seq<LockRow>, e: Id) {
    exists i | 0 <= i < |locks| :: locks[i].execution == e
  }

  predicate HoldsWorkflow(locks: seq<LockRow>, e: Id, sourceId: nat) {
    exists i | 0 <= i < |locks| ::
      locks[i].execution == e && locks[i].reserved && locks[i].target.WorkflowTarget?
        && locks[i].target.sourceId == sourceId
  }

  /** The gate of `mark_ready`: every target is locked, and a workflow lock with the source's id exists. */
  predicate HasRequired(locks: seq<LockRow>, e: Id, x: Execution, targets: seq<Device>) {
    && (forall k :: 0 <= k < |targets| ==> Holds(locks, e, DeviceTarget(targets[k])))
    && (x.sourceId.Some? ==> HoldsWorkflow(locks, e, x.sourceId.value))
  }

  function NewRows(e: Id, wanted: seq<Target>): seq<LockRow> {
    seq(|wanted|, k requires 0 <= k < |wanted| => LockRow(e, wanted[k], true))
  }

  function Free(row: LockRow, e: Id): LockRow {
    if row.execution == e then row.(reserved := false) else row
  }

  function Freed(locks: seq<LockRow>, e: Id): seq<LockRow> {
    seq(|locks|, i requires 0 <= i < |locks| => Free(locks[i], e))
  }

  // ---------------------------------------------------------------------------------------------
  // The calls
  // ---------------------------------------------------------------------------------------------

  datatype Call =
    | Create(requiresApproval: bool, sourceType: SourceType, sourceId: Option<nat>)
    | Validate(e: Id, source: Source)
    | BuildPlan(e: Id, source: Source)
    | Submit(e: Id, source: Source)
    | Approve(e: Id)
    | Reject(e: Id)
    | Reserve(e: Id, source: Source)
    | ReleaseLocks(e: Id)
    | MarkReady(e: Id, source: Source)
    | Simulate(e: Id)
    | Cancel(e: Id)

  predicate Errors(w: World, e: Id, source: Source)
    requires e < |w.executions|
  {
    source.errors || Conflict(w.locks, e, Wanted(w.executions[e], source.targets))
  }

  /** Does the call return, rather than raise? */
  predicate Accepts(w: World, c: Call) {
    if c.Create? || c.ReleaseLocks? then true
    else if c.e >= |w.executions| then false
    else
      var x := w.executions[c.e];
      match c
      case Validate(_, _) => true
      case BuildPlan(e, source) => !Errors(w, e, source)
      case Submit(e, source) => !Errors(w, e, source) && x.planned
      case Approve(_) => x.status == Ready || x.status == PendingApproval
      case Reject(_) => x.status == PendingApproval
      case Reserve(e, source) => x.status in {Approved, Ready} && !Conflict(w.locks, e, Wanted(x, source.targets))
      case MarkReady(e, source) =>
        && x.status in {Approved, Ready} && !Errors(w, e, source) && x.planned
           && HasRequired(w.locks, e, x, source.targets)
        && (x.requiresApproval ==> x.status == Approved)
      case Simulate(_) => x.status == Ready && x.planned
      case Cancel(_) => true
  }

  function Decide(approvals: seq<Approval>, a: Approval): seq<Approval> {
    if approvals == [] then [a] else approvals[|approvals| - 1 := a]
  }

  /** The execution after an accepted call on it. */
  function Updated(w: World, c: Call): Execution
    requires !c.Create? && c.e < |w.executions|
  {
    var x := w.executions[c.e];
    match c
    case Validate(e, source) => x.(status := if Errors(w, e, source) then Blocked else Validated)
    case BuildPlan(_, _) => x.(planned := true)
    case Submit(_, _) =>
      if x.requiresApproval then x.(approvals := x.approvals + [Undecided], status := PendingApproval)
      else x.(status := Approved)
    case Approve(_) => if x.status == Ready then x
        else x.(approvals := Decide(x.approvals, Granted), status := Approved)
    case Reject(_) => x.(approvals := Decide(x.approvals, Denied), status := Rejected)
    case Reserve(_, _) => x
    case ReleaseLocks(_) => x
    case MarkReady(_, _) => x.(status := Ready)
    case Simulate(_) => x.(status := Simulated)
    case Cancel(_) => if x.status in {Simulated, Cancelled} then x else x.(status := Cancelled)
  }

  /** The lock rows after an accepted call. */
  function Locks(w: World, c: Call): seq<LockRow>
    requires Accepts(w, c)
  {
    match c
    case Reserve(e, source) =>
      if HasRows(w.locks, e) then w.locks else w.locks + NewRows(e, Wanted(w.executions[e], source.targets))
    case ReleaseLocks(e) => Freed(w.locks, e)
    case Cancel(e) => if w.executions[e].status in {Simulated, Cancelled} then w.locks else Freed(w.locks, e)
    case _ => w.locks
  }

  function Apply(w: World, c: Call): World {
    if !Accepts(w, c) then w
    else if c.Create? then w.(executions := w.executions
                              + [Execution(Draft, c.requiresApproval, c.sourceType, c.sourceId, [], false)])
    else World(if c.e < |w.executions| then w.executions[c.e := Updated(w, c)] else w.executions, Locks(w, c))
  }

  // ---------------------------------------------------------------------------------------------
  // The service
  // ---------------------------------------------------------------------------------------------

  class ChangeExecutionService {
    var executions: seq<Execution>
    var locks: seq<LockRow>

    ghost function View(): World
      reads this
    {
      World(executions, locks)
    }

    constructor ()
      ensures View() == World([], [])
    {
      executions, locks := [], [];
    }

    method CreateExecution(requiresApproval: bool, sourceType: SourceType, sourceId: Option<nat>) returns (e: Id)
      modifies this
      ensures View() == Apply(old(View()), Create(requiresApproval, sourceType, sourceId))
      ensures e == old(|executions|) < |executions|
    {
      e := |executions|;
      executions := executions + [Execution(Draft, requiresApproval, sourceType, sourceId, [], false)];
    }

    method ValidateLocks(e: Id, targets: seq<Device>) returns (conflict: bool)
      requires e < |executions|
      ensures conflict == Conflict(locks, e, Wanted(executions[e], targets))
    {
      conflict := false;
      var wanted := Wanted(executions[e], targets);
      for k := 0 to |wanted|
        invariant conflict == Conflict(locks, e, wanted[..k])
      {
        var found := FindReservedLock(e, wanted[k]);
        conflict := conflict || found;
        ConflictExtends(locks, e, wanted, k);
      }
      assert wanted[..|wanted|] == wanted;
    }

    method FindReservedLock(e: Id, t: Target) returns (found: bool)
      ensures found == HeldByOther(locks, e, t)
    {
      for i := 0 to |locks|
        invariant forall j :: 0 <= j < i ==> !(locks[j].reserved && locks[j].target == t && locks[j].execution != e)
      {
        if locks[i].reserved && locks[i].target == t && locks[i].execution != e {
          return true;
        }
      }
      return false;
    }

    method Report(e: Id, source: Source) returns (errors: bool)
      requires e < |executions|
      ensures errors == Errors(View(), e, source)
    {
      var conflict := ValidateLocks(e, source.targets);
      errors := source.errors || conflict;
    }

    method ValidateExecution(e: Id, source: Source) returns (ok: bool)
      modifies this`executions
      ensures ok == Accepts(old(View()), Validate(e, source)) && View() == Apply(old(View()), Validate(e, source))
    {
      if e >= |executions| {
        return false;
      }
      var errors := Report(e, source);
      executions := executions[e := executions[e].(status := if errors then Blocked else Validated)];
      return true;
    }

    method BuildExecutionPlan(e: Id, source: Source) returns (ok: bool)
      modifies this`executions
      ensures ok == Accepts(old(View()), BuildPlan(e, source)) && View() == Apply(old(View()), BuildPlan(e, source))
    {
      if e >= |executions| {
        return false;
      }
      var errors := Report(e, source);
      if errors {
        return false;
      }
      if !executions[e].planned {
        executions := executions[e := executions[e].(planned := true)];
      }
      return true;
    }

    method SubmitForApproval(e: Id, source: Source) returns (ok: bool)
      modifies this`executions
      ensures ok == Accepts(old(View()), Submit(e, source)) && View() == Apply(old(View()), Submit(e, source))
    {
      if e >= |executions| {
        return false;
      }
      var errors := Report(e, source);
      if errors || !executions[e].planned {
        return false;
      }
      var x := executions[e];
      if !x.requiresApproval {
        executions := executions[e := x.(status := Approved)];
        return true;
      }
      executions := executions[e := x.(approvals := x.approvals + [Undecided], status := PendingApproval)];
      return true;
    }

    method ApproveExecution(e: Id) returns (ok: bool)
      modifies this`executions
      ensures ok == Accepts(old(View()), Approve(e)) && View() == Apply(old(View()), Approve(e))
    {
      if e >= |executions| {
        return false;
      }
      var x := executions[e];
      if x.status == Ready {
        return true;
      }
      if x.status != PendingApproval {
        return false;
      }
      executions := executions[e := x.(approvals := Decide(x.approvals, Granted), status := Approved)];
      return true;
    }

    method RejectExecution(e: Id) returns (ok: bool)
      modifies this`executions
      ensures ok == Accepts(old(View()), Reject(e)) && View() == Apply(old(View()), Reject(e))
    {
      if e >= |executions| || executions[e].status != PendingApproval {
        return false;
      }
      var x := executions[e];
      executions := executions[e := x.(approvals := Decide(x.approvals, Denied), status := Rejected)];
      return true;
    }

    method ReserveLocks(e: Id, source: Source) returns (ok: bool)
      modifies this`locks
      ensures ok == Accepts(old(View()), Reserve(e, source)) && View() == Apply(old(View()), Reserve(e, source))
    {
      if e >= |executions| || executions[e].status !in {Approved, Ready} {
        return false;
      }
      var conflict := ValidateLocks(e, source.targets);
      if conflict {
        return false;
      }
      if !HasRows(locks, e) {
        CreateLocks(e, Wanted(executions[e], source.targets));
      }
      return true;
    }

    method CreateLocks(e: Id, wanted: seq<Target>)
      modifies this`locks
      ensures locks == old(locks) + NewRows(e, wanted)
    {
      for k := 0 to |wanted|
        invariant locks == old(locks) + NewRows(e, wanted)[..k]
      {
        locks := locks + [LockRow(e, wanted[k], true)];
      }
    }

    method ReleaseExecutionLocks(e: Id)
      modifies this`locks
      ensures View() == Apply(old(View()), ReleaseLocks(e)) && locks == Freed(old(locks), e)
    {
      for i := 0 to |locks|
        invariant |locks| == |old(locks)|
        invariant forall j :: 0 <= j < |locks| ==> locks[j] == if j < i then Free(old(locks)[j], e) else old(locks)[j]
      {
        if locks[i].execution == e && locks[i].reserved {
          locks := locks[i := locks[i].(reserved := false)];
        }
      }
    }

    method MarkExecutionReady(e: Id, source: Source) returns (ok: bool)
      modifies this`executions
      ensures ok == Accepts(old(View()), MarkReady(e, source)) && View() == Apply(old(View()), MarkReady(e, source))
    {
      if e >= |executions| || executions[e].status !in {Approved, Ready} {
        return false;
      }
      var errors := Report(e, source);
      var x := executions[e];
      if errors || !x.planned || !HasRequired(locks, e, x, source.targets)
          || (x.requiresApproval && x.status != Approved) {
        return false;
      }
      executions := executions[e := x.(status := Ready)];
      return true;
    }

    method SimulateExecution(e: Id) returns (ok: bool)
      modifies this`executions
      ensures ok == Accepts(old(View()), Simulate(e)) && View() == Apply(old(View()), Simulate(e))
    {
      if e >= |executions| || executions[e].status != Ready || !executions[e].planned {
        return false;
      }
      executions := executions[e := executions[e].(status := Simulated)];
      return true;
    }

    method CancelExecution(e: Id) returns (ok: bool)
      modifies this
      ensures ok == Accepts(old(View()), Cancel(e)) && View() == Apply(old(View()), Cancel(e))
    {
      if e >= |executions| {
        return false;
      }
      if executions[e].status in {Simulated, Cancelled} {
        return true;
      }
      ReleaseExecutionLocks(e);
      executions := executions[e := executions[e].(status := Cancelled)];
      return true;
    }
  }

  lemma ConflictExtends(locks: seq<LockRow>, e: Id, wanted: seq<Target>, k: nat)
    requires k < |wanted|
    ensures Conflict(locks, e, wanted[..k + 1]) <==> Conflict(locks, e, wanted[..k]) || HeldByOther(locks, e, wanted[k])
  {
    var before, after := wanted[..k], wanted[..k + 1];
    if Conflict(locks, e, before) {
      var i :| 0 <= i < k && HeldByOther(locks, e, before[i]);
      assert after[i] == before[i];
    }
    if HeldByOther(locks, e, wanted[k]) {
      assert after[k] == wanted[k];
    }
    if Conflict(locks, e, after) {
      var i :| 0 <= i < |after| && HeldByOther(locks, e, after[i]);
      assert i < k ==> before[i] == after[i];
    }
  }

  // ---------------------------------------------------------------------------------------------
  // Every run
  // ---------------------------------------------------------------------------------------------

  ghost predicate IsRun(states: seq<World>, calls: seq<Call>) {
    && |states| == |calls| + 1
    && states[0] == World([], [])
    && forall i :: 0 <= i < |calls| ==> states[i + 1] == Apply(states[i], calls[i])
  }

  /** A reserved device or workflow belongs to one execution. */
  ghost predicate Exclusive(locks: seq<LockRow>) {
    forall i, j :: 0 <= i < |locks| && 0 <= j < |locks| && locks[i].reserved && locks[j].reserved ==>
      locks[i].target == locks[j].target ==> locks[i].execution == locks[j].execution
  }

  /** Every row names an execution, and a workflow row the source of that execution. */
  ghost predicate OwnRow(w: World, row: LockRow) {
    && row.execution < |w.executions|
    && (row.target.WorkflowTarget? ==>
          var x := w.executions[row.execution];
          row.target.sourceType == x.sourceType && x.sourceId == Some(row.target.sourceId))
  }

  ghost predicate OwnRows(w: World) {
    forall i :: 0 <= i < |w.locks| ==> OwnRow(w, w.locks[i])
  }

  /** The status of an execution that needs approval says what its newest approval row says. */
  ghost predicate ApprovalAgrees(x: Execution) {
    x.requiresApproval ==>
      && (x.status in {Approved, Ready, Simulated} ==> x.approvals != [] && x.approvals[|x.approvals| - 1] == Granted)
      && (x.status == PendingApproval ==> x.approvals != [] && x.approvals[|x.approvals| - 1] == Undecided)
      && (x.status == Rejected ==> x.approvals != [] && x.approvals[|x.approvals| - 1] == Denied)
  }

  ghost predicate Inv(w: World) {
    && Exclusive(w.locks) && OwnRows(w)
    && forall e :: 0 <= e < |w.executions| ==> ApprovalAgrees(w.executions[e])
  }

  lemma ReserveExclusive(locks: seq<LockRow>, e: Id, wanted: seq<Target>)
    requires Exclusive(locks) && !Conflict(locks, e, wanted)
    ensures Exclusive(locks + NewRows(e, wanted))
  {
    var rows := locks + NewRows(e, wanted);
    forall i, j | 0 <= i < |locks| && |locks| <= j < |rows| && rows[i].reserved && rows[i].target == rows[j].target
      ensures rows[i].execution == e
    {
      assert !HeldByOther(locks, e, wanted[j - |locks|]);
    }
  }

  lemma LocksStep(w: World, c: Call)
    requires Exclusive(w.locks) && Accepts(w, c)
    ensures Exclusive(Locks(w, c))
  {
    if c.Reserve? {
      ReserveExclusive(w.locks, c.e, Wanted(w.executions[c.e], c.source.targets));
    }
  }

  lemma OwnRowsStep(w: World, c: Call)
    requires OwnRows(w)
    ensures OwnRows(Apply(w, c))
  {
    var v := Apply(w, c);
    forall i | 0 <= i < |v.locks|
      ensures OwnRow(v, v.locks[i])
    {
      if i < |w.locks| {
        assert OwnRow(w, w.locks[i]);
      }
    }
  }

  lemma InvStep(w: World, c: Call)
    requires Inv(w)
    ensures Inv(Apply(w, c))
  {
    OwnRowsStep(w, c);
    if Accepts(w, c) {
      LocksStep(w, c);
    }
  }

  lemma {:induction false} InvAlways(states: seq<World>, calls: seq<Call>, i: nat)
    requires IsRun(states, calls) && i < |states|
    ensures Inv(states[i])
  {
    if i > 0 {
      InvAlways(states, calls, i - 1);
      InvStep(states[i - 1], calls[i - 1]);
      assert states[i - 1 + 1] == Apply(states[i - 1], calls[i - 1]);
    }
  }

  /** Two different executions never have reserved locks on a common device or a common source workflow. */
  lemma LocksExclude(states: seq<World>, calls: seq<Call>, i: nat, e: Id, f: Id, t: Target)
    requires IsRun(states, calls) && i < |states|
    requires Holds(states[i].locks, e, t) && Holds(states[i].locks, f, t)
    ensures e == f
  {
    InvAlways(states, calls, i);
    var j :| 0 <= j < |states[i].locks| && states[i].locks[j] == LockRow(e, t, true);
    var k :| 0 <= k < |states[i].locks| && states[i].locks[k] == LockRow(f, t, true);
  }

  /** The newest approval row always agrees with the status of an execution that needs approval. */
  lemma ApprovalAlwaysAgrees(states: seq<World>, calls: seq<Call>, i: nat, e: Id)
    requires IsRun(states, calls) && i < |states| && e < |states[i].executions|
    ensures ApprovalAgrees(states[i].executions[e])
  {
    InvAlways(states, calls, i);
  }

  // ---------------------------------------------------------------------------------------------
  // What stands behind a simulation
  // ---------------------------------------------------------------------------------------------

  predicate Has(w: World, e: Id, statuses: set<Status>) {
    e < |w.executions| && w.executions[e].status in statuses
  }

  predicate NeedsApproval(w: World, e: Id) {
    e < |w.executions| && w.executions[e].requiresApproval
  }

  ghost predicate Stays(states: seq<World>, e: Id, from: nat, to: nat, statuses: set<Status>)
    requires to < |states|
  {
    forall k :: from <= k <= to ==> Has(states[k], e, statuses)
  }

  /** Call j marked e as ready, with every gate open, and e was ready in every state from then until state i. */
  ghost predicate MadeReady(states: seq<World>, calls: seq<Call>, e: Id, j: nat, i: nat)
    requires i < |states| == |calls| + 1
  {
    && j < i && calls[j].MarkReady? && calls[j].e == e && Accepts(states[j], calls[j])
    && Stays(states, e, j + 1, i, {Ready})
  }

  /** Call a approved e while its newest request was pending, and no request came after it until state i. */
  ghost predicate WasApproved(states: seq<World>, calls: seq<Call>, e: Id, a: nat, i: nat)
    requires i < |states| == |calls| + 1
  {
    && a < i && calls[a] == Approve(e) && Has(states[a], e, {PendingApproval})
    && Stays(states, e, a + 1, i, {Approved, Ready})
  }

  lemma ReadyStep(w: World, c: Call, e: Id)
    requires Has(Apply(w, c), e, {Ready})
    ensures Has(w, e, {Ready}) || (c.MarkReady? && c.e == e && Accepts(w, c))
  {
  }

  lemma ApprovedStep(w: World, c: Call, e: Id)
    requires Has(Apply(w, c), e, {Approved, Ready}) && NeedsApproval(Apply(w, c), e)
    ensures (Has(w, e, {Approved, Ready}) && NeedsApproval(w, e)) || (c == Approve(e) && Has(w, e, {PendingApproval}))
  {
  }

  lemma {:induction false} ReadyHasCause(states: seq<World>, calls: seq<Call>, i: nat, e: Id) returns (j: nat)
    requires IsRun(states, calls) && i < |states| && Has(states[i], e, {Ready})
    ensures MadeReady(states, calls, e, j, i)
  {
    assert i > 0;
    assert states[i - 1 + 1] == Apply(states[i - 1], calls[i - 1]);
    ReadyStep(states[i - 1], calls[i - 1], e);
    if Has(states[i - 1], e, {Ready}) {
      j := ReadyHasCause(states, calls, i - 1, e);
    } else {
      j := i - 1;
    }
  }

  lemma {:induction false} ApprovedHasCause(states: seq<World>, calls: seq<Call>, i: nat, e: Id) returns (a: nat)
    requires IsRun(states, calls) && i < |states| && Has(states[i], e, {Approved, Ready}) && NeedsApproval(states[i], e)
    ensures WasApproved(states, calls, e, a, i)
  {
    assert i > 0;
    assert states[i - 1 + 1] == Apply(states[i - 1], calls[i - 1]);
    ApprovedStep(states[i - 1], calls[i - 1], e);
    if Has(states[i - 1], e, {Approved, Ready}) {
      a := ApprovedHasCause(states, calls, i - 1, e);
    } else {
      a := i - 1;
    }
  }

  /**
   Behind every simulation: a `mark_ready` at which there were no errors, a plan existed and every target and
   the source workflow was locked, with the status unchanged since; and, if the execution needs one, an
   approval of its newest request.
   */
  lemma SimulationIsJustified(states: seq<World>, calls: seq<Call>, i: nat, e: Id) returns (j: nat, a: nat)
    requires IsRun(states, calls) && i < |calls| && calls[i] == Simulate(e) && Accepts(states[i], calls[i])
    ensures MadeReady(states, calls, e, j, i) && e < |states[j].executions| && states[j].executions[e].planned
    ensures !Errors(states[j], e, calls[j].source)
            && HasRequired(states[j].locks, e, states[j].executions[e], calls[j].source.targets)
    ensures NeedsApproval(states[i], e) ==> WasApproved(states, calls, e, a, i)
  {
    j := ReadyHasCause(states, calls, i, e);
    a := 0;
    if NeedsApproval(states[i], e) {
      a := ApprovedHasCause(states, calls, i, e);
    }
  }

  lemma HoldsStep(w: World, c: Call, e: Id, t: Target)
    requires Holds(w.locks, e, t) && !(c.ReleaseLocks? && c.e == e)
    requires c.Cancel? && c.e == e ==> Has(w, e, {Simulated, Cancelled}) || !Has(Apply(w, c), e, {Cancelled})
    ensures Holds(Apply(w, c).locks, e, t)
  {
    var i :| 0 <= i < |w.locks| && w.locks[i] == LockRow(e, t, true);
    assert Apply(w, c).locks[i] == w.locks[i];
  }

  /** A lock that an execution held when it became ready is still held, unless it was released explicitly. */
  lemma {:induction false} ReadyKeepsLocks(states: seq<World>, calls: seq<Call>, e: Id, j: nat, i: nat, t: Target)
    requires IsRun(states, calls) && i < |states| && MadeReady(states, calls, e, j, i) && Holds(states[j].locks, e, t)
    requires forall k :: j < k < i ==> calls[k] != ReleaseLocks(e)
    ensures Holds(states[i].locks, e, t)
  {
    assert Has(states[i], e, {Ready});
    assert states[i - 1 + 1] == Apply(states[i - 1], calls[i - 1]);
    if i - 1 > j {
      ReadyKeepsLocks(states, calls, e, j, i - 1, t);
    }
    HoldsStep(states[i - 1], calls[i - 1], e, t);
  }

  /**
   No device is a target of two executions that are ready together, unless one of them was released explicitly
   since.
   */
  lemma ReadyExecutionsExclude(states: seq<World>, calls: seq<Call>, i: nat, e: Id, f: Id, j: nat, k: nat, d: Device)
    requires IsRun(states, calls) && i < |states| && MadeReady(states, calls, e, j, i)
             && MadeReady(states, calls, f, k, i)
    requires d in calls[j].source.targets && d in calls[k].source.targets
    requires forall n :: j < n < i ==> calls[n] != ReleaseLocks(e)
    requires forall n :: k < n < i ==> calls[n] != ReleaseLocks(f)
    ensures e == f
  {
    ReadyKeepsLocks(states, calls, e, j, i, DeviceTarget(d));
    ReadyKeepsLocks(states, calls, f, k, i, DeviceTarget(d));
    LocksExclude(states, calls, i, e, f, DeviceTarget(d));
  }

  // ---------------------------------------------------------------------------------------------
  // What the locks do not do
  // ---------------------------------------------------------------------------------------------

  ghost predicate NoneReserved(locks: seq<LockRow>, e: Id) {
    HasRows(locks, e) && forall i :: 0 <= i < |locks| && locks[i].execution == e ==> !locks[i].reserved
  }

  lemma HoldsNothing(locks: seq<LockRow>, e: Id, t: Target)
    requires NoneReserved(locks, e)
    ensures !Holds(locks, e, t)
  {
  }

  lemma NoneReservedStep(w: World, c: Call, e: Id)
    requires NoneReserved(w.locks, e)
    ensures NoneReserved(Apply(w, c).locks, e)
  {
    var i :| 0 <= i < |w.locks| && w.locks[i].execution == e;
    assert Apply(w, c).locks[i].execution == e;
  }

  /**
   Locks are reserved once. After an execution's rows have been released, by `cancel` or by hand, it never has
   a reserved lock again, and it can be marked ready only if it has no target and no source workflow.
   */
  lemma {:induction false} ReleasedForever(states: seq<World>, calls: seq<Call>, e: Id, i: nat, j: nat)
    requires IsRun(states, calls) && i <= j < |states| && NoneReserved(states[i].locks, e)
    ensures NoneReserved(states[j].locks, e)
    ensures j < |calls| && calls[j].MarkReady? && calls[j].e == e && Accepts(states[j], calls[j]) ==>
              calls[j].source.targets == [] && states[j].executions[e].sourceId == None
    decreases j
  {
    if i < j {
      ReleasedForever(states, calls, e, i, j - 1);
      NoneReservedStep(states[j - 1], calls[j - 1], e);
      assert states[j - 1 + 1] == Apply(states[j - 1], calls[j - 1]);
    }
    if j < |calls| && calls[j].MarkReady? && calls[j].e == e && Accepts(states[j], calls[j])
        && calls[j].source.targets != [] {
      HoldsNothing(states[j].locks, e, DeviceTarget(calls[j].source.targets[0]));
    }
  }

  /**
   When `reserve_locks` does its job: an accepted call leaves the execution with everything it has to lock exactly
   if it had no lock rows before, or had it all already. It answers with the old rows otherwise.
   */
  lemma ReserveExactly(w: World, e: Id, source: Source)
    requires OwnRows(w) && Accepts(w, Reserve(e, source))
    ensures var v := Apply(w, Reserve(e, source));
            HasRequired(v.locks, e, v.executions[e], source.targets) <==>
              !HasRows(w.locks, e) || HasRequired(w.locks, e, w.executions[e], source.targets)
  {
    var x, v := w.executions[e], Apply(w, Reserve(e, source));
    var wanted := Wanted(x, source.targets);
    if !HasRows(w.locks, e) {
      forall k | 0 <= k < |wanted|
        ensures Holds(v.locks, e, wanted[k])
      {
        assert v.locks[|w.locks| + k] == LockRow(e, wanted[k], true);
      }
      forall k | 0 <= k < |source.targets|
        ensures Holds(v.locks, e, DeviceTarget(source.targets[k]))
      {
        assert wanted[k] == DeviceTarget(source.targets[k]);
      }
      if x.sourceId.Some? {
        assert wanted[|wanted| - 1] == WorkflowTarget(x.sourceType, x.sourceId.value);
      }
    }
  }

  ghost predicate HeldOnlyBy(locks: seq<LockRow>, e: Id, wanted: seq<Target>) {
    forall i, k :: 0 <= i < |locks| && 0 <= k < |wanted| && locks[i].reserved && locks[i].target == wanted[k] ==>
      locks[i].execution == e
  }

  lemma FreedConflicts(locks: seq<LockRow>, e: Id, f: Id, wanted: seq<Target>)
    requires HeldOnlyBy(locks, e, wanted)
    ensures !Conflict(Freed(locks, e), f, wanted)
  {
  }

  /**
   An explicit `release_locks` of a ready execution leaves it ready. Whatever else the state is, an approved and
   planned execution f without rows that was kept out only by e's locks can then lock and become ready beside it, and
   both go on to simulate.
   */
  lemma ExplicitReleaseLetsAnotherIn(w: World, e: Id, f: Id, source: Source)
    requires OwnRows(w) && e != f && Has(w, e, {Ready}) && Has(w, f, {Approved})
    requires w.executions[e].planned && w.executions[f].planned && !HasRows(w.locks, f) && !source.errors
    requires HeldOnlyBy(w.locks, e, Wanted(w.executions[f], source.targets))
    ensures var released := Apply(w, ReleaseLocks(e));
            var reserved := Apply(released, Reserve(f, source));
            var v := Apply(reserved, MarkReady(f, source));
            && Has(released, e, {Ready}) && Has(reserved, e, {Ready}) && Accepts(reserved, MarkReady(f, source))
            && Has(v, e, {Ready}) && Has(v, f, {Ready}) && Accepts(v, Simulate(e))
               && Accepts(Apply(v, Simulate(e)), Simulate(f))
  {
    var wanted := Wanted(w.executions[f], source.targets);
    var released := Apply(w, ReleaseLocks(e));
    FreedConflicts(w.locks, e, f, wanted);
    assert !HasRows(released.locks, f);
    var reserved := Apply(released, Reserve(f, source));
    OwnRowsStep(w, ReleaseLocks(e));
    ReserveExactly(released, f, source);
    assert !Conflict(reserved.locks, f, wanted);
  }

  /**
   What a call can find at a source: a manual or composite one has no target devices, and any other one without a
   source id is an error and has none either.
   */
  predicate CanBeFound(x: Execution, source: Source) {
    && (x.sourceType in {Manual, Composite} ==> source.targets == [])
    && (x.sourceType !in {Manual, Composite} && x.sourceId == None ==> source.targets == [] && source.errors)
  }

  predicate Receivable(w: World, c: Call) {
    c.Validate? || c.BuildPlan? || c.Submit? || c.Reserve? || c.MarkReady? ==>
      c.e < |w.executions| ==> CanBeFound(w.executions[c.e], c.source)
  }

  /** A run in which every source is as the service can find it. */
  ghost predicate IsRealRun(states: seq<World>, calls: seq<Call>) {
    IsRun(states, calls) && forall i :: 0 <= i < |calls| ==> Receivable(states[i], calls[i])
  }

  lemma Extend(states: seq<World>, calls: seq<Call>, c: Call)
    requires IsRealRun(states, calls) && Receivable(states[|calls|], c)
    ensures IsRealRun(states + [Apply(states[|calls|], c)], calls + [c])
  {
    var after, done := states + [Apply(states[|calls|], c)], calls + [c];
    forall i | 0 <= i < |done|
      ensures after[i + 1] == Apply(after[i], done[i]) && Receivable(after[i], done[i])
    {
      if i < |calls| {
        assert states[i + 1] == Apply(states[i], calls[i]);
      }
    }
  }

  ghost predicate Reachable(w: World) {
    exists states, calls :: IsRealRun(states, calls) && states[|calls|] == w
  }

  lemma Advance(w: World, c: Call)
    requires Reachable(w) && Receivable(w, c)
    ensures Reachable(Apply(w, c))
  {
    var states, calls :| IsRealRun(states, calls) && states[|calls|] == w;
    Extend(states, calls, c);
    var after, done := states + [Apply(w, c)], calls + [c];
    assert after[|done|] == Apply(w, c);
  }

  lemma Start()
    ensures Reachable(World([], []))
  {
    var states, calls: seq<Call> := [World([], [])], [];
    assert IsRealRun(states, calls);
  }

  /** An execution of a password rollout with the given id. */
  function Rollout(id: nat, status: Status, planned: bool): Execution {
    Execution(status, false, PasswordRollout, Some(id), [], planned)
  }

  /** Device 5 is the target of every rollout here. */
  function Five(): Source {
    Source([5], false)
  }

  function RolloutTargets(id: nat): seq<Target> {
    [DeviceTarget(5), WorkflowTarget(PasswordRollout, id)]
  }

  lemma WantedByRollout(id: nat, status: Status, planned: bool)
    ensures Wanted(Rollout(id, status, planned), [5]) == RolloutTargets(id)
    ensures CanBeFound(Rollout(id, status, planned), Five())
  {
  }

  /** Create, plan and submit one more rollout while nobody holds what it wants. */
  lemma ToApproved(before: seq<Execution>, id: nat)
    requires Reachable(World(before, []))
    ensures Reachable(World(before + [Rollout(id, Approved, true)], []))
  {
    var e := |before|;
    WantedByRollout(id, Draft, false);
    WantedByRollout(id, Draft, true);
    Advance(World(before, []), Create(false, PasswordRollout, Some(id)));
    Advance(World(before + [Rollout(id, Draft, false)], []), BuildPlan(e, Five()));
    assert (before + [Rollout(id, Draft, false)])[e := Rollout(id, Draft, true)] == before + [Rollout(id, Draft, true)];
    Advance(World(before + [Rollout(id, Draft, true)], []), Submit(e, Five()));
    assert (before + [Rollout(id, Draft, true)])[e := Rollout(id, Approved, true)] ==
           before + [Rollout(id, Approved, true)];
  }

  /** Two approved rollouts of device 5; the first has locked the device and its own source. */
  function Contended(): World {
    World([Rollout(1, Approved, true), Rollout(2, Approved, true)],
          [LockRow(0, DeviceTarget(5), true), LockRow(0, WorkflowTarget(PasswordRollout, 1), true)])
  }

  lemma ContendedReachable()
    ensures Reachable(Contended())
  {
    Start();
    ToApproved([], 1);
    assert [] + [Rollout(1, Approved, true)] == [Rollout(1, Approved, true)];
    ToApproved([Rollout(1, Approved, true)], 2);
    var both := [Rollout(1, Approved, true), Rollout(2, Approved, true)];
    assert [Rollout(1, Approved, true)] + [Rollout(2, Approved, true)] == both;
    WantedByRollout(1, Approved, true);
    Advance(World(both, []), Reserve(0, Five()));
    assert [] + NewRows(0, RolloutTargets(1)) == Contended().locks;
    assert both[0 := both[0]] == both;
  }

  /** Two more calls on a run. */
  lemma Twice(states: seq<World>, calls: seq<Call>, a: Call, b: Call) returns (states': seq<World>, calls': seq<Call>)
    requires IsRealRun(states, calls) && Receivable(states[|calls|], a) && Receivable(Apply(states[|calls|], a), b)
    ensures var n := |calls|;
            && IsRealRun(states', calls') && |calls'| == n + 2 && calls'[..n] == calls && states'[..n + 1] == states
            && calls'[n] == a && calls'[n + 1] == b
            && states'[n + 1] == Apply(states[n], a) && states'[n + 2] == Apply(states'[n + 1], b)
  {
    Extend(states, calls, a);
    states', calls' := states + [Apply(states[|calls|], a)], calls + [a];
    Extend(states', calls', b);
    states', calls' := states' + [Apply(states'[|calls'|], b)], calls' + [b];
  }

  ghost predicate ReadyTogether(states: seq<World>, calls: seq<Call>, e: Id, f: Id, j: nat, k: nat, d: Device) {
    && IsRealRun(states, calls) && e != f && MadeReady(states, calls, e, j, |calls|)
       && MadeReady(states, calls, f, k, |calls|)
    && d in calls[j].source.targets && d in calls[k].source.targets
  }

  /** From the contended state the first rollout becomes ready, and only its locks keep the second one out. */
  lemma FirstReady(w: World, v: World)
    requires w == Contended() && v == Apply(w, MarkReady(0, Five()))
    ensures Accepts(w, MarkReady(0, Five()))
            && v == World([Rollout(1, Ready, true), Rollout(2, Approved, true)], w.locks)
    ensures OwnRows(v) && !HasRows(v.locks, 1) && HeldOnlyBy(v.locks, 0, Wanted(v.executions[1], [5]))
  {
    WantedByRollout(1, Approved, true);
    WantedByRollout(2, Approved, true);
    assert w.locks[0] == LockRow(0, DeviceTarget(5), true)
           && w.locks[1] == LockRow(0, WorkflowTarget(PasswordRollout, 1), true);
    assert !HeldByOther(w.locks, 0, DeviceTarget(5)) && !HeldByOther(w.locks, 0, WorkflowTarget(PasswordRollout, 1));
  }

  /**
   With an explicit release the exclusion of ready executions is lost: a run of calls the service can receive
   readies two rollouts with different sources for one device.
   */
  lemma DoubleReadyIsReachable()
    ensures exists states, calls, j, k :: ReadyTogether(states, calls, 0, 1, j, k, 5)
  {
    var w := Contended();
    ContendedReachable();
    var states, calls :| IsRealRun(states, calls) && states[|calls|] == w;
    var n := |calls|;
    WantedByRollout(1, Approved, true);
    states, calls := Twice(states, calls, MarkReady(0, Five()), ReleaseLocks(0));
    FirstReady(w, states[n + 1]);
    ReadyBesideIt(states, calls, n);
  }

  lemma ReadyBesideIt(states: seq<World>, calls: seq<Call>, n: nat)
    requires IsRealRun(states, calls) && |calls| == n + 2 && calls[n] == MarkReady(0, Five())
             && calls[n + 1] == ReleaseLocks(0)
    requires Accepts(states[n], calls[n])
    requires var v := states[n + 1];
             && v.executions == [Rollout(1, Ready, true), Rollout(2, Approved, true)] && OwnRows(v)
             && !HasRows(v.locks, 1) && HeldOnlyBy(v.locks, 0, Wanted(v.executions[1], [5]))
    ensures exists states', calls', j, k :: ReadyTogether(states', calls', 0, 1, j, k, 5)
  {
    ExplicitReleaseLetsAnotherIn(states[n + 1], 0, 1, Five());
    assert states[n + 1 + 1] == Apply(states[n + 1], calls[n + 1]);
    WantedByRollout(2, Approved, true);
    var states', calls' := Twice(states, calls, Reserve(1, Five()), MarkReady(1, Five()));
    assert states'[n] == states'[..n + 3][n] && states'[n + 1] == states'[..n + 3][n + 1]
           && states'[n + 2] == states'[..n + 3][n + 2];
    assert calls'[n] == calls'[..n + 2][n];
    assert Stays(states', 0, n + 1, n + 4, {Ready});
    assert ReadyTogether(states', calls', 0, 1, n, n + 3, 5);
  }

  // ---------------------------------------------------------------------------------------------
  // When a ready execution is alone on a device
  // ---------------------------------------------------------------------------------------------

  ghost predicate QuietCall(e: Id, w: World, c: Call, v: World) {
    c != ReleaseLocks(e) && Receivable(w, c) && v == Apply(w, c) && Has(v, e, {Ready})
  }

  ghost predicate QuietAt(e: Id, states: seq<World>, calls: seq<Call>, i: nat)
    requires i < |calls| && |states| == |calls| + 1
  {
    QuietCall(e, states[i], calls[i], states[i + 1])
  }

  /** A continuation of receivable calls from w in which e stays ready and is not released explicitly. */
  ghost predicate Quiet(w: World, e: Id, states: seq<World>, calls: seq<Call>) {
    && |states| == |calls| + 1 && states[0] == w && Has(w, e, {Ready})
    && forall i :: 0 <= i < |calls| ==> QuietAt(e, states, calls, i)
  }

  ghost predicate QuietlyReaches(w: World, e: Id, v: World) {
    exists states, calls :: Quiet(w, e, states, calls) && states[|calls|] == v
  }

  /** Some such continuation comes to a point where another execution is marked ready with d among its targets. */
  ghost predicate CanBeJoined(w: World, e: Id, d: Device) {
    exists v, f, source :: QuietlyReaches(w, e, v) && Joins(v, e, f, source, d)
  }

  predicate Joins(v: World, e: Id, f: Id, source: Source, d: Device) {
    f != e && d in source.targets && Receivable(v, MarkReady(f, source)) && Accepts(v, MarkReady(f, source))
  }

  lemma {:induction false} QuietKeeps(w: World, e: Id, states: seq<World>, calls: seq<Call>, i: nat, t: Target)
    requires Quiet(w, e, states, calls) && Inv(w) && Holds(w.locks, e, t) && i < |states|
    ensures Inv(states[i]) && Holds(states[i].locks, e, t)
  {
    if i > 0 {
      QuietKeeps(w, e, states, calls, i - 1, t);
      assert QuietAt(e, states, calls, i - 1);
      InvStep(states[i - 1], calls[i - 1]);
      HoldsStep(states[i - 1], calls[i - 1], e, t);
    }
  }

  lemma HolderIsAlone(w: World, e: Id, d: Device, v: World, f: Id, source: Source)
    requires Inv(w) && Holds(w.locks, e, DeviceTarget(d)) && QuietlyReaches(w, e, v)
    ensures !Joins(v, e, f, source, d)
  {
    var states, calls :| Quiet(w, e, states, calls) && states[|calls|] == v;
    QuietKeeps(w, e, states, calls, |calls|, DeviceTarget(d));
    if d in source.targets && Holds(v.locks, f, DeviceTarget(d)) {
      var i :| 0 <= i < |v.locks| && v.locks[i] == LockRow(e, DeviceTarget(d), true);
      var j :| 0 <= j < |v.locks| && v.locks[j] == LockRow(f, DeviceTarget(d), true);
      assert f == e;
    }
  }

  lemma QuietStart(w: World, e: Id)
    requires Has(w, e, {Ready})
    ensures QuietlyReaches(w, e, w)
  {
    var states, calls: seq<Call> := [w], [];
    assert Quiet(w, e, states, calls) && states[|calls|] == w;
  }

  lemma QuietStep(w: World, e: Id, v: World, c: Call)
    requires QuietlyReaches(w, e, v) && c != ReleaseLocks(e) && Receivable(v, c) && Has(Apply(v, c), e, {Ready})
    ensures QuietlyReaches(w, e, Apply(v, c))
  {
    var states, calls :| Quiet(w, e, states, calls) && states[|calls|] == v;
    var after, done := states + [Apply(v, c)], calls + [c];
    forall i | 0 <= i < |done|
      ensures QuietAt(e, after, done, i)
    {
      if i < |calls| {
        assert QuietAt(e, states, calls, i);
      }
    }
    assert Quiet(w, e, after, done) && after[|done|] == Apply(v, c);
  }

  lemma {:induction false} UnusedId(locks: seq<LockRow>) returns (id: nat)
    ensures forall i :: 0 <= i < |locks| && locks[i].target.WorkflowTarget? ==> locks[i].target.sourceId < id
  {
    id := 0;
    if locks != [] {
      id := UnusedId(locks[1..]);
      forall i | 0 <= i < |locks| && locks[i].target.WorkflowTarget? && i > 0
        ensures locks[i].target.sourceId < id
      {
        assert locks[i] == locks[1..][i - 1];
      }
      if locks[0].target.WorkflowTarget? && id <= locks[0].target.sourceId {
        id := locks[0].target.sourceId + 1;
      }
    }
  }

  /** The execution that holds d, or an id that no execution has. */
  lemma HolderOf(w: World, e: Id, d: Device) returns (g: Id)
    requires Inv(w) && e < |w.executions| && !Holds(w.locks, e, DeviceTarget(d))
    ensures g != e
    ensures forall i :: 0 <= i < |w.locks| && w.locks[i].reserved && w.locks[i].target == DeviceTarget(d) ==>
              w.locks[i].execution == g
  {
    g := |w.executions|;
    if i: nat :| i < |w.locks| && w.locks[i].reserved && w.locks[i].target == DeviceTarget(d) {
      assert w.locks[i] == LockRow(w.locks[i].execution, DeviceTarget(d), true);
      g := w.locks[i].execution;
    }
  }

  /** The holder, if there is one, is released; then nobody holds the device. */
  lemma MakeRoom(w: World, e: Id, d: Device) returns (v: World)
    requires Inv(w) && Has(w, e, {Ready}) && !Holds(w.locks, e, DeviceTarget(d))
    ensures QuietlyReaches(w, e, v) && OwnRows(v) && v.executions == w.executions
    ensures forall f :: !HeldByOther(v.locks, f, DeviceTarget(d))
  {
    var g := HolderOf(w, e, d);
    QuietStart(w, e);
    OwnRowsStep(w, ReleaseLocks(g));
    v := Apply(w, ReleaseLocks(g));
    assert v.executions == w.executions;
    QuietStep(w, e, w, ReleaseLocks(g));
  }

  lemma NobodyHolds(locks: seq<LockRow>, f: Id, d: Device, id: nat)
    requires forall g :: !HeldByOther(locks, g, DeviceTarget(d))
    requires forall i :: 0 <= i < |locks| && locks[i].target.WorkflowTarget? ==> locks[i].target.sourceId < id
    ensures !Conflict(locks, f, [DeviceTarget(d), WorkflowTarget(PasswordRollout, id)])
  {
  }

  lemma WantedOnDevice(d: Device, id: nat, status: Status, planned: bool)
    ensures Wanted(Rollout(id, status, planned), [d]) == [DeviceTarget(d), WorkflowTarget(PasswordRollout, id)]
  {
  }

  /** A new rollout of the device is created, planned and submitted. */
  lemma Newcomer(w: World, e: Id, v: World, d: Device, id: nat) returns (u: World)
    requires QuietlyReaches(w, e, v) && Has(v, e, {Ready}) && forall g :: !HeldByOther(v.locks, g, DeviceTarget(d))
    requires forall i :: 0 <= i < |v.locks| && v.locks[i].target.WorkflowTarget? ==> v.locks[i].target.sourceId < id
    ensures QuietlyReaches(w, e, u) && u == World(v.executions + [Rollout(id, Approved, true)], v.locks)
  {
    var f, source := |v.executions|, Source([d], false);
    NobodyHolds(v.locks, f, d, id);
    WantedOnDevice(d, id, Draft, false);
    WantedOnDevice(d, id, Draft, true);
    QuietStep(w, e, v, Create(false, PasswordRollout, Some(id)));
    var drafted := World(v.executions + [Rollout(id, Draft, false)], v.locks);
    assert drafted.executions[f := Rollout(id, Draft, true)] == v.executions + [Rollout(id, Draft, true)];
    QuietStep(w, e, drafted, BuildPlan(f, source));
    var planned := World(v.executions + [Rollout(id, Draft, true)], v.locks);
    assert planned.executions[f := Rollout(id, Approved, true)] == v.executions + [Rollout(id, Approved, true)];
    QuietStep(w, e, planned, Submit(f, source));
    u := World(v.executions + [Rollout(id, Approved, true)], v.locks);
  }

  lemma NotHolderIsJoined(w: World, e: Id, d: Device)
    requires Inv(w) && Has(w, e, {Ready}) && !Holds(w.locks, e, DeviceTarget(d))
    ensures CanBeJoined(w, e, d)
  {
    var v := MakeRoom(w, e, d);
    var id := UnusedId(v.locks);
    var u := Newcomer(w, e, v, d, id);
    var f, source := |v.executions|, Source([d], false);
    NobodyHolds(u.locks, f, d, id);
    WantedOnDevice(d, id, Approved, true);
    assert OwnRows(u) by {
      forall i | 0 <= i < |u.locks| ensures OwnRow(u, u.locks[i]) {
        assert OwnRow(v, v.locks[i]);
      }
    }
    assert !HasRows(u.locks, f) by {
      assert forall i :: 0 <= i < |v.locks| ==> OwnRow(v, v.locks[i]);
    }
    var t := Apply(u, Reserve(f, source));
    assert t.executions == u.executions;
    QuietStep(w, e, u, Reserve(f, source));
    ReserveExactly(u, f, source);
    ReservedHasNoConflict(u.locks, f, [DeviceTarget(d), WorkflowTarget(PasswordRollout, id)]);
    assert Joins(t, e, f, source, d);
  }

  lemma ReservedHasNoConflict(locks: seq<LockRow>, f: Id, wanted: seq<Target>)
    requires !Conflict(locks, f, wanted)
    ensures !Conflict(locks + NewRows(f, wanted), f, wanted)
  {
  }

  /**
   Whom a lock protects: in every reachable state a ready execution still holds device d exactly if no continuation
   that leaves it ready and does not release it explicitly can mark another execution ready for d.
   */
  lemma AloneExactly(states: seq<World>, calls: seq<Call>, i: nat, e: Id, d: Device)
    requires IsRun(states, calls) && i < |states| && Has(states[i], e, {Ready})
    ensures Holds(states[i].locks, e, DeviceTarget(d)) <==> !CanBeJoined(states[i], e, d)
  {
    InvAlways(states, calls, i);
    var w := states[i];
    if Holds(w.locks, e, DeviceTarget(d)) {
      forall v, f, source | QuietlyReaches(w, e, v)
        ensures !Joins(v, e, f, source, d)
      {
        HolderIsAlone(w, e, d, v, f, source);
      }
    } else {
      NotHolderIsJoined(w, e, d);
    }
  }

  // ---------------------------------------------------------------------------------------------
  // The calls in the terms of a caller
  // ---------------------------------------------------------------------------------------------

  /** A cancelled execution has locked nothing, in any reachable state. */
  ghost predicate CancelledHoldNothing(w: World) {
    forall e, t :: Has(w, e, {Cancelled}) ==> !Holds(w.locks, e, t)
  }

  lemma FreedHoldNothing(locks: seq<LockRow>, e: Id, f: Id, t: Target)
    ensures Holds(Freed(locks, e), f, t) <==> f != e && Holds(locks, f, t)
  {
    if f != e && Holds(locks, f, t) {
      var i :| 0 <= i < |locks| && locks[i] == LockRow(f, t, true);
      assert Freed(locks, e)[i] == locks[i];
    }
  }

  lemma NewRowsHold(locks: seq<LockRow>, e: Id, wanted: seq<Target>, f: Id, t: Target)
    ensures Holds(locks + NewRows(e, wanted), f, t) <==> Holds(locks, f, t) || (f == e && t in wanted)
  {
    var rows := locks + NewRows(e, wanted);
    if Holds(locks, f, t) {
      var i :| 0 <= i < |locks| && locks[i] == LockRow(f, t, true);
      assert rows[i] == locks[i];
    }
    if f == e && t in wanted {
      var k :| 0 <= k < |wanted| && wanted[k] == t;
      assert rows[|locks| + k] == LockRow(e, t, true);
    }
    if Holds(rows, f, t) && !Holds(locks, f, t) {
      var i :| 0 <= i < |rows| && rows[i] == LockRow(f, t, true);
      assert i >= |locks|;
    }
  }

  /**
   How each call changes who holds what. `cancel` of an execution that is neither simulated nor cancelled, and
   `release_locks`, take away all it held; an accepted first `reserve_locks` adds its targets and its workflow; nothing
   else changes any lock, and no call changes the locks of another execution.
   */
  lemma HoldsAfter(w: World, c: Call, f: Id, t: Target)
    ensures Holds(Apply(w, c).locks, f, t) <==>
              if (c.ReleaseLocks? || (c.Cancel? && c.e < |w.executions| && !Has(w, c.e, {Simulated, Cancelled})))
                  && c.e == f
              then false
              else Holds(w.locks, f, t) || (c.Reserve? && c.e == f && Accepts(w, c) && !HasRows(w.locks, f)
                                            && Asks(w, c, t))
  {
    if c.ReleaseLocks? || (c.Cancel? && c.e < |w.executions| && !Has(w, c.e, {Simulated, Cancelled})) {
      FreedHoldNothing(w.locks, c.e, f, t);
    } else if c.Reserve? && Accepts(w, c) && !HasRows(w.locks, c.e) {
      NewRowsHold(w.locks, c.e, Wanted(w.executions[c.e], c.source.targets), f, t);
      AsksMeans(w, c, t);
    }
  }

  /** A target device of the call, or the source of its execution. */
  ghost predicate Asks(w: World, c: Call, t: Target)
    requires c.Reserve? || c.BuildPlan? || c.Submit? || c.MarkReady? || c.Validate?
  {
    match t
    case DeviceTarget(d) => d in c.source.targets
    case WorkflowTarget(sourceType, id) =>
      c.e < |w.executions| && w.executions[c.e].sourceType == sourceType && w.executions[c.e].sourceId == Some(id)
  }

  lemma AsksMeans(w: World, c: Call, t: Target)
    requires c.Reserve? || c.BuildPlan? || c.Submit? || c.MarkReady? || c.Validate?
    requires c.e < |w.executions|
    ensures t in Wanted(w.executions[c.e], c.source.targets) <==> Asks(w, c, t)
  {
    var x, targets := w.executions[c.e], c.source.targets;
    var wanted := Wanted(x, targets);
    if t.DeviceTarget? && t.device in targets {
      var k :| 0 <= k < |targets| && targets[k] == t.device;
      assert wanted[k] == t;
    }
    if t.WorkflowTarget? && Asks(w, c, t) {
      assert wanted[|targets|] == t;
    }
  }

  lemma CancelledStep(w: World, c: Call)
    requires OwnRows(w) && CancelledHoldNothing(w)
    ensures CancelledHoldNothing(Apply(w, c))
  {
    var v := Apply(w, c);
    forall e, t | Has(v, e, {Cancelled})
      ensures !Holds(v.locks, e, t)
    {
      HoldsAfter(w, c, e, t);
      if e == |w.executions| {
        assert !Holds(w.locks, e, t);
      }
    }
  }

  /** Over every run: a cancelled execution holds no lock. */
  lemma {:induction false} CancelledHoldsNothing(states: seq<World>, calls: seq<Call>, i: nat)
    requires IsRun(states, calls) && i < |states|
    ensures CancelledHoldNothing(states[i])
  {
    if i > 0 {
      CancelledHoldsNothing(states, calls, i - 1);
      InvAlways(states, calls, i - 1);
      CancelledStep(states[i - 1], calls[i - 1]);
      assert states[i - 1 + 1] == Apply(states[i - 1], calls[i - 1]);
    }
  }

  /** What one call finds in the way: a lock that another execution has on something this one asks for. */
  ghost predicate InTheWay(w: World, c: Call)
    requires c.Reserve? || c.BuildPlan? || c.Submit? || c.MarkReady? || c.Validate?
  {
    exists f, t :: f != c.e && Holds(w.locks, f, t) && Asks(w, c, t)
  }

  lemma InTheWayMeans(w: World, c: Call)
    requires c.Reserve? || c.BuildPlan? || c.Submit? || c.MarkReady? || c.Validate?
    requires c.e < |w.executions|
    ensures Conflict(w.locks, c.e, Wanted(w.executions[c.e], c.source.targets)) <==> InTheWay(w, c)
  {
    var wanted := Wanted(w.executions[c.e], c.source.targets);
    if Conflict(w.locks, c.e, wanted) {
      var k :| 0 <= k < |wanted| && HeldByOther(w.locks, c.e, wanted[k]);
      var i :| 0 <= i < |w.locks| && w.locks[i].reserved && w.locks[i].target == wanted[k]
          && w.locks[i].execution != c.e;
      assert w.locks[i] == LockRow(w.locks[i].execution, wanted[k], true);
      assert Holds(w.locks, w.locks[i].execution, wanted[k]);
      AsksMeans(w, c, wanted[k]);
    }
    if InTheWay(w, c) {
      var f, t :| f != c.e && Holds(w.locks, f, t) && Asks(w, c, t);
      AsksMeans(w, c, t);
      var k :| 0 <= k < |wanted| && wanted[k] == t;
      assert HeldByOther(w.locks, c.e, wanted[k]);
    }
  }

  /** Nothing wrong with the source, and nobody else's lock in the way. */
  ghost predicate Clear(w: World, c: Call)
    requires c.Reserve? || c.BuildPlan? || c.Submit? || c.MarkReady? || c.Validate?
  {
    !c.source.errors && !InTheWay(w, c)
  }

  /** The status that a call on an execution asks for, when it may: which call leads from which status to which. */
  ghost predicate Moves(w: World, c: Call, x: Execution, to: Status)
    requires !c.Create?
  {
    match c
    case Validate(_, _) => to == if Clear(w, c) then Validated else Blocked
    case Submit(_, _) => Clear(w, c) && x.planned && to == if x.requiresApproval then PendingApproval else Approved
    case Approve(_) => x.status == PendingApproval && to == Approved
    case Reject(_) => x.status == PendingApproval && to == Rejected
    case MarkReady(_, _) =>
      && Clear(w, c) && x.planned && (x.status == Approved || (x.status == Ready && !x.requiresApproval)) && to == Ready
      && forall t :: Asks(w, c, t) ==> Holds(w.locks, c.e, t)
    case Simulate(_) => x.status == Ready && x.planned && to == Simulated
    case Cancel(_) => x.status !in {Simulated, Cancelled} && to == Cancelled
    case _ => false
  }

  lemma RequiredMeans(w: World, c: Call)
    requires OwnRows(w) && c.MarkReady? && c.e < |w.executions|
    ensures HasRequired(w.locks, c.e, w.executions[c.e], c.source.targets) <==>
              forall t :: Asks(w, c, t) ==> Holds(w.locks, c.e, t)
  {
    var x := w.executions[c.e];
    if HasRequired(w.locks, c.e, x, c.source.targets) {
      forall t | Asks(w, c, t)
        ensures Holds(w.locks, c.e, t)
      {
        match t
        case DeviceTarget(d) =>
          var k :| 0 <= k < |c.source.targets| && c.source.targets[k] == d;
          assert Holds(w.locks, c.e, DeviceTarget(c.source.targets[k]));
        case WorkflowTarget(sourceType, id) => OwnWorkflowHeld(w, c.e, id);
      }
    }
    if forall t :: Asks(w, c, t) ==> Holds(w.locks, c.e, t) {
      forall k | 0 <= k < |c.source.targets|
        ensures Holds(w.locks, c.e, DeviceTarget(c.source.targets[k]))
      {
        assert Asks(w, c, DeviceTarget(c.source.targets[k]));
      }
      if x.sourceId.Some? {
        var t := WorkflowTarget(x.sourceType, x.sourceId.value);
        assert Asks(w, c, t);
        var i :| 0 <= i < |w.locks| && w.locks[i] == LockRow(c.e, t, true);
      }
    }
  }

  lemma OwnWorkflowHeld(w: World, e: Id, id: nat)
    requires OwnRows(w) && e < |w.executions| && HoldsWorkflow(w.locks, e, id)
    ensures Holds(w.locks, e, WorkflowTarget(w.executions[e].sourceType, id))
  {
    var i :| 0 <= i < |w.locks| && w.locks[i].execution == e && w.locks[i].reserved && w.locks[i].target.WorkflowTarget?
             && w.locks[i].target.sourceId == id;
    assert OwnRow(w, w.locks[i]);
  }

  /** Every call, on any execution and from any status, moves the status exactly so, and leaves the others alone. */
  lemma MovesExactly(w: World, c: Call, f: Id)
    requires OwnRows(w) && !c.Create? && f < |w.executions|
    ensures f < |Apply(w, c).executions|
    ensures var x, y := w.executions[f], Apply(w, c).executions[f];
            && (f != c.e ==> y == x)
            && (f == c.e ==> forall to :: Moves(w, c, x, to) ==> y.status == to)
            && (f == c.e && (forall to :: !Moves(w, c, x, to)) ==> y.status == x.status)
  {
    if f == c.e {
      if c.Validate? || c.BuildPlan? || c.Submit? || c.MarkReady? {
        InTheWayMeans(w, c);
      }
      if c.MarkReady? {
        RequiredMeans(w, c);
      }
      var x := w.executions[f];
      assert Moves(w, c, x, Updated(w, c).status) || !Accepts(w, c) || Updated(w, c).status == x.status;
    }
  }

  /** The answer to a call on an execution: it returns when it may, or has nothing to do, and raises otherwise. */
  ghost predicate Grants(w: World, c: Call, x: Execution)
    requires !c.Create? && !c.ReleaseLocks?
  {
    match c
    case Validate(_, _) => true
    case BuildPlan(_, _) => Clear(w, c)
    case Submit(_, _) => Clear(w, c) && x.planned
    case Approve(_) => x.status == Ready || x.status == PendingApproval
    case Reject(_) => x.status == PendingApproval
    case Reserve(_, _) => (x.status == Approved || x.status == Ready) && !InTheWay(w, c)
    case MarkReady(_, _) =>
      && Clear(w, c) && x.planned && (x.status == Approved || (x.status == Ready && !x.requiresApproval))
      && forall t :: Asks(w, c, t) ==> Holds(w.locks, c.e, t)
    case Simulate(_) => x.status == Ready && x.planned
    case Cancel(_) => true
  }

  /** Which calls return, in terms of the statuses, of who holds what is asked for, and of what the source says. */
  lemma AnswersExactly(w: World, c: Call)
    requires OwnRows(w)
    ensures Accepts(w, c) <==>
              c.Create? || c.ReleaseLocks? || (c.e < |w.executions| && Grants(w, c, w.executions[c.e]))
  {
    if !c.Create? && !c.ReleaseLocks? && c.e < |w.executions| {
      if c.Reserve? || c.BuildPlan? || c.Submit? || c.MarkReady? {
        InTheWayMeans(w, c);
      }
      if c.MarkReady? {
        RequiredMeans(w, c);
      }
    }
  }

  /** Only an accepted plan makes an execution planned, and only a submit or a decision touches its approval rows. */
  lemma RowsAfter(w: World, c: Call, f: Id)
    requires OwnRows(w) && !c.Create? && f < |w.executions|
    ensures f < |Apply(w, c).executions|
    ensures var x, y := w.executions[f], Apply(w, c).executions[f];
            && y.requiresApproval == x.requiresApproval && y.sourceType == x.sourceType && y.sourceId == x.sourceId
            && (y.planned <==> x.planned || (c.BuildPlan? && c.e == f && Clear(w, c)))
            && (if c.Submit? && c.e == f && Clear(w, c) && x.planned && x.requiresApproval
                then y.approvals == x.approvals + [Undecided]
                else if c.e == f && x.status == PendingApproval && x.approvals != [] && (c.Approve? || c.Reject?)
                then y.approvals == x.approvals[..|x.approvals| - 1] + [if c.Approve? then Granted else Denied]
                else x.status != PendingApproval || x.approvals != [] ==> y.approvals == x.approvals)
  {
    if f == c.e && (c.Validate? || c.BuildPlan? || c.Submit? || c.MarkReady?) {
      InTheWayMeans(w, c);
    }
  }

  /** A new execution is an unplanned draft without approvals or locks, and nothing else changes. */
  lemma CreateAdds(w: World, c: Call)
    requires OwnRows(w) && c.Create?
    ensures var v, e := Apply(w, c), |w.executions|;
            && |v.executions| == e + 1 && v.executions[..e] == w.executions && v.locks == w.locks
               && !HasRows(v.locks, e)
            && v.executions[e].status == Draft && !v.executions[e].planned && v.executions[e].approvals == []
            && v.executions[e].requiresApproval == c.requiresApproval
            && v.executions[e].sourceType == c.sourceType && v.executions[e].sourceId == c.sourceId
  {
    forall i | 0 <= i < |w.locks|
      ensures w.locks[i].execution < |w.executions|
    {
      assert OwnRow(w, w.locks[i]);
    }
  }

  /** The six calls that take an execution from wherever it is to a simulation. */
  function Route(e: Id, source: Source): seq<Call> {
    [BuildPlan(e, source), Submit(e, source), Approve(e), Reserve(e, source), MarkReady(e, source), Simulate(e)]
  }

  function ApplyAll(w: World, calls: seq<Call>): World
    decreases |calls|
  {
    if calls == [] then w else ApplyAll(Apply(w, calls[0]), calls[1..])
  }

  lemma SameWay(w: World, v: World, c: Call, b: Call)
    requires (c.Reserve? || c.BuildPlan? || c.Submit? || c.MarkReady? || c.Validate?)
    requires (b.Reserve? || b.BuildPlan? || b.Submit? || b.MarkReady? || b.Validate?)
    requires c.e == b.e < |w.executions| == |v.executions| && c.source == b.source && !InTheWay(w, c)
    requires v.executions[c.e].sourceType == w.executions[c.e].sourceType
    requires v.executions[c.e].sourceId == w.executions[c.e].sourceId
    requires forall f, t :: f != c.e && Holds(v.locks, f, t) ==> Holds(w.locks, f, t)
    ensures !InTheWay(v, b)
  {
    if InTheWay(v, b) {
      var f, t :| f != b.e && Holds(v.locks, f, t) && Asks(v, b, t);
      assert Holds(w.locks, f, t) && Asks(w, c, t);
    }
  }

  lemma NothingInTheWay(w: World, v: World, c: Call)
    requires (c.Reserve? || c.BuildPlan? || c.Submit? || c.MarkReady?) && c.e < |w.executions| == |v.executions|
    requires !InTheWay(w, BuildPlan(c.e, c.source)) && Wanted(v.executions[c.e], c.source.targets) ==
               Wanted(w.executions[c.e], c.source.targets)
    requires v.executions[c.e].sourceType == w.executions[c.e].sourceType
    requires v.executions[c.e].sourceId == w.executions[c.e].sourceId
    requires forall f, t :: f != c.e && Holds(v.locks, f, t) ==> Holds(w.locks, f, t)
    ensures !Conflict(v.locks, c.e, Wanted(v.executions[c.e], c.source.targets))
  {
    SameWay(w, v, BuildPlan(c.e, c.source), c);
    InTheWayMeans(v, c);
  }

  /** Plan and submit, and approve if that is needed. */
  lemma Approves(w: World, e: Id, source: Source) returns (v: World)
    requires e < |w.executions| && !source.errors && !InTheWay(w, BuildPlan(e, source))
    ensures v == Apply(Apply(Apply(w, BuildPlan(e, source)), Submit(e, source)), Approve(e))
    ensures v.locks == w.locks && |v.executions| == |w.executions| && v.executions[e].status == Approved
    ensures v.executions[e].planned && v.executions[e].sourceType == w.executions[e].sourceType
    ensures v.executions[e].sourceId == w.executions[e].sourceId
  {
    var w1 := Apply(w, BuildPlan(e, source));
    InTheWayMeans(w, BuildPlan(e, source));
    NothingInTheWay(w, w1, Submit(e, source));
    var w2 := Apply(w1, Submit(e, source));
    v := Apply(w2, Approve(e));
  }

  lemma Reserves(w: World, e: Id, source: Source) returns (v: World)
    requires OwnRows(w) && e < |w.executions| && !source.errors && !InTheWay(w, BuildPlan(e, source))
    requires w.executions[e].status == Approved && !HasRows(w.locks, e)
    ensures v == Apply(w, Reserve(e, source)) && v.executions == w.executions
    ensures HasRequired(v.locks, e, v.executions[e], source.targets)
    ensures !Conflict(v.locks, e, Wanted(v.executions[e], source.targets))
  {
    NothingInTheWay(w, w, Reserve(e, source));
    v := Apply(w, Reserve(e, source));
    ReserveExactly(w, e, source);
    forall f, t | f != e && Holds(v.locks, f, t)
      ensures Holds(w.locks, f, t)
    {
      HoldsAfter(w, Reserve(e, source), f, t);
    }
    NothingInTheWay(w, v, MarkReady(e, source));
  }

  /** Reserve, mark ready and simulate. */
  lemma Simulates(w: World, e: Id, source: Source) returns (v: World)
    requires OwnRows(w) && e < |w.executions| && !source.errors && !InTheWay(w, BuildPlan(e, source))
    requires w.executions[e].status == Approved && w.executions[e].planned && !HasRows(w.locks, e)
    ensures v == Apply(Apply(Apply(w, Reserve(e, source)), MarkReady(e, source)), Simulate(e))
    ensures |v.executions| == |w.executions| && v.executions[e].status == Simulated
    ensures forall t :: Asks(w, Reserve(e, source), t) ==> Holds(v.locks, e, t)
  {
    var w1 := Reserves(w, e, source);
    var w2 := Apply(w1, MarkReady(e, source));
    v := Apply(w2, Simulate(e));
    OwnRowsStep(w, Reserve(e, source));
    RequiredMeans(w1, MarkReady(e, source));
    forall t | Asks(w, Reserve(e, source), t)
      ensures Holds(v.locks, e, t)
    {
      assert Asks(w1, MarkReady(e, source), t);
    }
  }

  /**
   Nothing is a dead end: from any status, cancelled and simulated ones included, an execution that never had lock rows,
   with nothing wrong at its source and nobody in the way, goes by these six calls to a simulation in which it holds all
   it asks for.
   */
  lemma RouteSimulates(w: World, e: Id, source: Source)
    requires OwnRows(w) && e < |w.executions| && !source.errors && !InTheWay(w, BuildPlan(e, source))
             && !HasRows(w.locks, e)
    ensures var v := ApplyAll(w, Route(e, source));
            && |v.executions| == |w.executions| && v.executions[e].status == Simulated
            && forall t :: Asks(w, Reserve(e, source), t) ==> Holds(v.locks, e, t)
  {
    var w3 := Approves(w, e, source);
    OwnRowsStep(w, BuildPlan(e, source));
    OwnRowsStep(Apply(w, BuildPlan(e, source)), Submit(e, source));
    OwnRowsStep(Apply(Apply(w, BuildPlan(e, source)), Submit(e, source)), Approve(e));
    SameWay(w, w3, BuildPlan(e, source), BuildPlan(e, source));
    var w6 := Simulates(w3, e, source);
    SixCalls(w, e, source);
    forall t | Asks(w, Reserve(e, source), t)
      ensures Holds(w6.locks, e, t)
    {
      assert Asks(w3, Reserve(e, source), t);
    }
  }

  lemma SixCalls(w: World, e: Id, source: Source)
    ensures var w3 := Apply(Apply(Apply(w, BuildPlan(e, source)), Submit(e, source)), Approve(e));
            ApplyAll(w, Route(e, source)) ==
              Apply(Apply(Apply(w3, Reserve(e, source)), MarkReady(e, source)), Simulate(e))
  {
    var a, b, c, d := BuildPlan(e, source), Submit(e, source), Approve(e), Reserve(e, source);
    var f, g := MarkReady(e, source), Simulate(e);
    var w1 := Apply(w, a);
    var w2 := Apply(w1, b);
    var w3 := Apply(w2, c);
    var w4 := Apply(w3, d);
    var w5 := Apply(w4, f);
    OneCall(w, a, [b, c, d, f, g]);
    OneCall(w1, b, [c, d, f, g]);
    OneCall(w2, c, [d, f, g]);
    OneCall(w3, d, [f, g]);
    OneCall(w4, f, [g]);
    OneCall(w5, g, []);
    assert [g] + [] == [g];
  }

  lemma OneCall(w: World, c: Call, rest: seq<Call>)
    ensures ApplyAll(w, [c] + rest) == ApplyAll(Apply(w, c), rest)
  {
    assert ([c] + rest)[1..] == rest;
  }

  /** An execution kept out only by the locks of another one can reserve as soon as that one is cancelled. */
  lemma CancelMakesRoom(w: World, e: Id, f: Id, source: Source)
    requires e < |w.executions| && f < |w.executions| && e != f && Has(w, f, {Approved, Ready})
    requires !Has(w, e, {Simulated, Cancelled})
    requires forall g, t :: g != f && Holds(w.locks, g, t) && Asks(w, Reserve(f, source), t) ==> g == e
    ensures Accepts(Apply(w, Cancel(e)), Reserve(f, source))
  {
    var v, c := Apply(w, Cancel(e)), Reserve(f, source);
    if InTheWay(v, c) {
      var g, t :| g != f && Holds(v.locks, g, t) && Asks(v, c, t);
      HoldsAfter(w, Cancel(e), g, t);
      assert Asks(w, c, t);
    }
    InTheWayMeans(v, c);
  }
}
