/**
 The device lock of the file-mode lab, as the small steps of any number of processes.

 `reserve_lock` creates a guard file with O_CREAT|O_EXCL (atomic by `open()` of POSIX.1-2017, System
 Interfaces), checks `locks.json`, reads it a second time and replaces it with one more record.
 `release_locks` reads it, marks its records released, replaces it and unlinks the guard. Only the
 guard is exclusive: two processes may interleave between reading and replacing `locks.json`.
 */
module FileLockProtocol {
  import opened LabLocks

  type Proc = nat

  /** Where a process stands inside `ExcelLabApplyExecutor.execute`. */
  datatype Pc =
    | Idle
    | Guarded(device: Device)                             // the exclusive create succeeded
    | Checked(device: Device)                             // has_active_lock answered false
    | Loaded(device: Device, pending: seq<LockRecord>)    // read, own record appended, not yet written
    | Holding(device: Device)                             // reserve_lock returned: the critical section
    | Releasing(device: Device, pending: seq<LockRecord>) // read, own records marked, not yet written
    | Unlinking(device: Device)                           // written, guard file still there
    | Aborting(device: Device)                            // reserve_lock raised, guard file still there
    | Crashed

  /** A guard file carries no owner; the map records who created it so that ownership can be stated. */
  datatype Sys = Sys(guards: map<Device, Proc>, file: seq<LockRecord>, pc: map<Proc, Pc>)

  datatype Step =
    | Create(p: Proc, device: Device)
    | CreateRefused(p: Proc, device: Device)
    | CheckFree(p: Proc)
    | CheckBusy(p: Proc)
    | Load(p: Proc, id: nat)
    | Commit(p: Proc)
    | CommitThenRaise(p: Proc)   // the replace took effect and _write_json raised afterwards
    | ReserveError(p: Proc)      // any exception inside reserve_lock before the replace
    | AbortUnlink(p: Proc)
    | LoadRelease(p: Proc)
    | CommitRelease(p: Proc)
    | ReleaseError(p: Proc)      // release_locks raised: its guard file stays behind
    | Unlink(p: Proc)
    | Crash(p: Proc)

  predicate Enabled(s: Sys, a: Step) {
    && a.p in s.pc
    && var pc := s.pc[a.p];
       match a
       case Create(_, d) => pc.Idle? && d !in s.guards
       case CreateRefused(_, d) => pc.Idle? && d in s.guards
       case CheckFree(_) => pc.Guarded? && !HasActive(s.file, pc.device)
       case CheckBusy(_) => pc.Guarded? && HasActive(s.file, pc.device)
       case Load(_, _) => pc.Checked?
       case Commit(_) => pc.Loaded?
       case CommitThenRaise(_) => pc.Loaded?
       case ReserveError(_) => pc.Guarded? || pc.Checked? || pc.Loaded?
       case AbortUnlink(_) => pc.Aborting?
       case LoadRelease(_) => pc.Holding?
       case CommitRelease(_) => pc.Releasing?
       case ReleaseError(_) => pc.Holding? || pc.Releasing? || pc.Unlinking?
       case Unlink(_) => pc.Unlinking?
       case Crash(_) => !pc.Crashed?
  }

  function Goto(s: Sys, p: Proc, pc: Pc): Sys {
    s.(pc := s.pc[p := pc])
  }

  function Apply(s: Sys, a: Step): Sys
    requires Enabled(s, a)
  {
    var p, pc := a.p, s.pc[a.p];
    match a
    case Create(_, d) => Goto(s.(guards := s.guards[d := p]), p, Guarded(d))
    case CreateRefused(_, _) => s
    case CheckFree(_) => Goto(s, p, Checked(pc.device))
    case CheckBusy(_) => Goto(s, p, Aborting(pc.device))
    case Load(_, id) => Goto(s, p, Loaded(pc.device, s.file + [LockRecord(id, pc.device, Reserved)]))
    case Commit(_) => Goto(s.(file := pc.pending), p, Holding(pc.device))
    case CommitThenRaise(_) => Goto(s.(file := pc.pending), p, Aborting(pc.device))
    case ReserveError(_) => Goto(s, p, Aborting(pc.device))
    case AbortUnlink(_) => Goto(s.(guards := s.guards - {pc.device}), p, Idle)
    case LoadRelease(_) => Goto(s, p, Releasing(pc.device, MarkReleased(s.file, pc.device)))
    case CommitRelease(_) => Goto(s.(file := pc.pending), p, Unlinking(pc.device))
    case ReleaseError(_) => Goto(s, p, Idle)
    case Unlink(_) => Goto(s.(guards := s.guards - {pc.device}), p, Idle)
    case Crash(_) => Goto(s, p, Crashed)
  }

  ghost predicate Init(s: Sys) {
    && s.guards == map[]
    && (forall d :: !HasActive(s.file, d))
    && forall p :: p in s.pc ==> s.pc[p] == Idle
  }

  ghost predicate IsRun(states: seq<Sys>, steps: seq<Step>) {
    Continues(states, steps) && Init(states[0])
  }

  ghost predicate Continues(states: seq<Sys>, steps: seq<Step>) {
    && |states| == |steps| + 1
    && forall i :: 0 <= i < |steps| ==> Enabled(states[i], steps[i]) && states[i + 1] == Apply(states[i], steps[i])
  }

  /** Between a successful `reserve_lock` and the unlink in `release_locks`. */
  predicate InSection(s: Sys, p: Proc, d: Device) {
    p in s.pc && (s.pc[p] == Holding(d) || (s.pc[p].Releasing? && s.pc[p].device == d) || s.pc[p] == Unlinking(d))
  }

  predicate Busy(pc: Pc) {
    !pc.Idle? && !pc.Crashed?
  }

  /** The inductive invariant: a process past its exclusive create owns the guard of its device. */
  ghost predicate GuardOwned(s: Sys) {
    forall p :: p in s.pc && Busy(s.pc[p]) ==> s.pc[p].device in s.guards && s.guards[s.pc[p].device] == p
  }

  lemma {:induction false} GuardOwnedAlways(states: seq<Sys>, steps: seq<Step>, i: nat)
    requires IsRun(states, steps) && i < |states|
    ensures GuardOwned(states[i])
  {
    if i > 0 {
      GuardOwnedAlways(states, steps, i - 1);
      assert states[i] == Apply(states[i - 1], steps[i - 1]);
    }
  }

  /** For every interleaving, at most one process per device is in its critical section. */
  lemma MutualExclusion(states: seq<Sys>, steps: seq<Step>, i: nat, p: Proc, q: Proc, d: Device)
    requires IsRun(states, steps) && i < |states|
    requires InSection(states[i], p, d) && InSection(states[i], q, d)
    ensures p == q
  {
    GuardOwnedAlways(states, steps, i);
  }

  /** The unlink goes by path and checks no owner, yet a guard is only ever unlinked by its creator. */
  lemma OnlyCreatorUnlinks(states: seq<Sys>, steps: seq<Step>, i: nat, d: Device)
    requires IsRun(states, steps) && i < |steps|
    requires d in states[i].guards && d !in states[i + 1].guards
    ensures steps[i].Unlink? || steps[i].AbortUnlink?
    ensures states[i].guards[d] == steps[i].p && states[i].pc[steps[i].p].device == d
  {
    GuardOwnedAlways(states, steps, i);
    assert states[i + 1] == Apply(states[i], steps[i]);
  }

  // ---------------------------------------------------------------------------------------------
  // Agreement of locks.json with the guards
  // ---------------------------------------------------------------------------------------------

  predicate Rewriting(pc: Pc) {
    pc.Loaded? || pc.Releasing?
  }

  ghost predicate AtMostOneActive(locks: seq<LockRecord>, d: Device) {
    forall i, j :: 0 <= i < |locks| && 0 <= j < |locks| && IsActive(locks[i], d) && IsActive(locks[j], d) ==> i == j
  }

  /**
   The file says what the guards say: a reserved record needs its guard, is the only one, is there while a process
   is in its section, and is not there before the commit and after the release.
   */
  ghost predicate Agrees(s: Sys) {
    && (forall d :: HasActive(s.file, d) ==> d in s.guards)
    && (forall d :: AtMostOneActive(s.file, d))
    && (forall p :: p in s.pc && Busy(s.pc[p]) ==>
          (HasActive(s.file, s.pc[p].device) <==> s.pc[p].Holding? || s.pc[p].Releasing?))
  }

  /** Over the whole run the file agrees with the guards, and no step loses or revives a record. */
  ghost predicate FileIsRight(states: seq<Sys>, steps: seq<Step>)
    requires |states| == |steps| + 1
  {
    && (forall i :: 0 <= i < |states| ==> Agrees(states[i]))
    && (forall i, j :: 0 <= i < |steps| && j == i + 1 ==> Extends(states[i].file, states[j].file))
  }

  /** What a process is about to write is the present file with its own change: nothing was written since it read. */
  predicate IsCurrent(s: Sys, p: Proc) {
    p in s.pc
    && match s.pc[p]
       case Loaded(_, pending) => pending != [] && pending[..|pending| - 1] == s.file
       case Releasing(d, pending) => pending == MarkReleased(s.file, d)
       case _ => true
  }

  /** No replace writes a list read before another one's replace, and none raises after it took effect. */
  predicate WritesCurrent(s: Sys, a: Step) {
    && !a.CommitThenRaise?
    && (a.Commit? || a.CommitRelease? ==> IsCurrent(s, a.p))
  }

  ghost predicate AllWritesCurrent(states: seq<Sys>, steps: seq<Step>)
    requires |states| == |steps| + 1
  {
    forall i :: 0 <= i < |steps| ==> WritesCurrent(states[i], steps[i])
  }

  /** A process that has read the file to reserve has its own reserved record at the end of its list. */
  ghost predicate OwnRecordLast(s: Sys) {
    forall p :: p in s.pc && s.pc[p].Loaded? ==>
      s.pc[p].pending != [] && IsActive(s.pc[p].pending[|s.pc[p].pending| - 1], s.pc[p].device)
  }

  lemma {:induction false} OwnRecordLastAlways(states: seq<Sys>, steps: seq<Step>, i: nat)
    requires IsRun(states, steps) && i < |states|
    ensures OwnRecordLast(states[i])
  {
    if i > 0 {
      OwnRecordLastAlways(states, steps, i - 1);
      assert states[i - 1 + 1] == Apply(states[i - 1], steps[i - 1]);
    }
  }

  lemma AppendActive(locks: seq<LockRecord>, id: nat, d: Device)
    requires !HasActive(locks, d)
    ensures forall e :: HasActive(locks + [LockRecord(id, d, Reserved)], e) <==> e == d || HasActive(locks, e)
    ensures (forall e :: AtMostOneActive(locks, e)) ==>
              forall e :: AtMostOneActive(locks + [LockRecord(id, d, Reserved)], e)
  {
    var more := locks + [LockRecord(id, d, Reserved)];
    assert IsActive(more[|locks|], d);
    forall e | HasActive(locks, e) ensures HasActive(more, e) {
      var i :| 0 <= i < |locks| && IsActive(locks[i], e);
      assert IsActive(more[i], e);
    }
    forall e | e != d && HasActive(more, e) ensures HasActive(locks, e) {
      var i :| 0 <= i < |more| && IsActive(more[i], e);
      assert IsActive(locks[i], e);
    }
    if forall e :: AtMostOneActive(locks, e) {
      forall e, i, j | 0 <= i < |more| && 0 <= j < |more| && IsActive(more[i], e) && IsActive(more[j], e)
        ensures i == j
      {
        assert AtMostOneActive(locks, e);
        if i < |locks| { assert IsActive(locks[i], e); }
        if j < |locks| { assert IsActive(locks[j], e); }
      }
    }
  }

  lemma MarkReleasedKeepsOne(locks: seq<LockRecord>, d: Device)
    requires forall e :: AtMostOneActive(locks, e)
    ensures forall e :: AtMostOneActive(MarkReleased(locks, d), e)
  {
    var released := MarkReleased(locks, d);
    forall e, i, j | 0 <= i < |released| && 0 <= j < |released| && IsActive(released[i], e) && IsActive(released[j], e)
      ensures i == j
    {
      assert AtMostOneActive(locks, e);
      assert IsActive(locks[i], e) && IsActive(locks[j], e);
    }
  }

  lemma AgreesStep(s: Sys, a: Step)
    requires GuardOwned(s) && OwnRecordLast(s) && Agrees(s) && Enabled(s, a) && WritesCurrent(s, a)
    ensures Agrees(Apply(s, a)) && Extends(s.file, Apply(s, a).file)
  {
    var pc := s.pc[a.p];
    match a
    case Commit(_) =>
      var own := pc.pending[|pc.pending| - 1];
      assert pc.pending == s.file + [own];
      AppendActive(s.file, own.id, pc.device);
    case CommitRelease(_) =>
      MarkReleasedClears(s.file, pc.device);
      MarkReleasedKeepsOne(s.file, pc.device);
    case _ =>
  }

  /** If every write up to state i is current, the file agrees with the guards there. */
  lemma {:induction false} AgreesAlways(states: seq<Sys>, steps: seq<Step>, i: nat)
    requires IsRun(states, steps) && i < |states|
    requires forall k :: 0 <= k < i ==> WritesCurrent(states[k], steps[k])
    ensures Agrees(states[i])
    ensures i > 0 ==> Extends(states[i - 1].file, states[i].file)
  {
    if i > 0 {
      AgreesAlways(states, steps, i - 1);
      GuardOwnedAlways(states, steps, i - 1);
      OwnRecordLastAlways(states, steps, i - 1);
      assert states[i - 1 + 1] == Apply(states[i - 1], steps[i - 1]);
      AgreesStep(states[i - 1], steps[i - 1]);
    } else {
      forall d ensures AtMostOneActive(states[0].file, d) {
        assert !HasActive(states[0].file, d);
      }
    }
  }

  lemma ExtendsTransitive(a: seq<LockRecord>, b: seq<LockRecord>, c: seq<LockRecord>)
    requires Extends(a, b) && Extends(b, c)
    ensures Extends(a, c)
  {
  }

  /** What a rewriter has read is an earlier content of the file: every record of it is still there. */
  ghost predicate ReadEarlier(s: Sys, p: Proc)
    requires p in s.pc
  {
    match s.pc[p]
    case Loaded(_, pending) => pending != [] && Extends(pending[..|pending| - 1], s.file)
    case Releasing(d, pending) => exists read :: pending == MarkReleased(read, d) && Extends(read, s.file)
    case _ => true
  }

  lemma ReadEarlierStep(s: Sys, a: Step, p: Proc)
    requires Enabled(s, a) && Extends(s.file, Apply(s, a).file) && p in s.pc && ReadEarlier(s, p)
    ensures ReadEarlier(Apply(s, a), p)
  {
    var t := Apply(s, a);
    if a.p != p {
      match s.pc[p]
      case Loaded(_, pending) => ExtendsTransitive(pending[..|pending| - 1], s.file, t.file);
      case Releasing(d, pending) =>
        var read :| pending == MarkReleased(read, d) && Extends(read, s.file);
        ExtendsTransitive(read, s.file, t.file);
      case _ =>
    } else if a.Load? {
      var pending := t.pc[p].pending;
      assert pending[..|pending| - 1] == s.file;
    } else if a.LoadRelease? {
      assert Extends(s.file, t.file);
    }
  }

  lemma {:induction false} ReadEarlierAlways(states: seq<Sys>, steps: seq<Step>, i: nat, p: Proc)
    requires IsRun(states, steps) && i < |states| && p in states[i].pc
    requires forall k, n :: 0 <= k && n == k + 1 <= i ==> Extends(states[k].file, states[n].file)
    ensures ReadEarlier(states[i], p)
  {
    if i > 0 {
      assert states[i - 1 + 1] == Apply(states[i - 1], steps[i - 1]);
      ReadEarlierAlways(states, steps, i - 1, p);
      ReadEarlierStep(states[i - 1], steps[i - 1], p);
    }
  }

  lemma BothWays(a: LockRecord, b: LockRecord)
    requires b == a || b == a.(status := Released)
    requires a == b || a == b.(status := Released)
    ensures a == b
  {
  }

  lemma NewRecordWasThere(file: seq<LockRecord>, pending: seq<LockRecord>, d: Device)
    requires |pending| == |file| > 0 && IsActive(pending[|pending| - 1], d) && Extends(file, pending)
    ensures HasActive(file, d)
  {
    var n := |file| - 1;
    assert IsActive(file[n], d);
  }

  /** A reservation that loses and revives nothing was written on the present content. */
  lemma StaleCommitLoses(file: seq<LockRecord>, pending: seq<LockRecord>, d: Device)
    requires pending != [] && IsActive(pending[|pending| - 1], d) && !HasActive(file, d)
    requires Extends(pending[..|pending| - 1], file) && Extends(file, pending)
    ensures pending[..|pending| - 1] == file
  {
    var n := |pending| - 1;
    if |file| == n + 1 {
      NewRecordWasThere(file, pending, d);
    }
    forall j | 0 <= j < n
      ensures pending[j] == file[j]
    {
      assert pending[..n][j] == pending[j];
      BothWays(pending[j], file[j]);
    }
  }

  lemma StaleReleaseLoses(file: seq<LockRecord>, read: seq<LockRecord>, d: Device)
    requires Extends(read, file) && Extends(file, MarkReleased(read, d))
    ensures MarkReleased(read, d) == MarkReleased(file, d)
  {
    var pending := MarkReleased(read, d);
    forall j | 0 <= j < |file|
      ensures pending[j] == MarkReleased(file, d)[j]
    {
      if IsActive(read[j], d) {
        assert file[j] == read[j] || file[j] == read[j].(status := Released);
      } else {
        BothWays(read[j], file[j]);
      }
    }
  }

  lemma RaiseDisagrees(s: Sys, a: Step)
    requires a.CommitThenRaise? && Enabled(s, a) && OwnRecordLast(s)
    ensures !Agrees(Apply(s, a))
  {
    var t := Apply(s, a);
    assert IsActive(t.file[|t.file| - 1], s.pc[a.p].device);
    assert t.pc[a.p] == Aborting(s.pc[a.p].device);
  }

  /** A write that is not current, or a raise after the replace, shows in the file at once. */
  lemma NotCurrentShows(s: Sys, a: Step)
    requires Enabled(s, a) && OwnRecordLast(s) && ReadEarlier(s, a.p)
    requires Agrees(s) && Agrees(Apply(s, a)) && Extends(s.file, Apply(s, a).file)
    ensures WritesCurrent(s, a)
  {
    var pc := s.pc[a.p];
    if a.Commit? {
      StaleCommitLoses(s.file, pc.pending, pc.device);
    } else if a.CommitRelease? {
      var read :| pc.pending == MarkReleased(read, pc.device) && Extends(read, s.file);
      StaleReleaseLoses(s.file, read, pc.device);
    } else if a.CommitThenRaise? {
      RaiseDisagrees(s, a);
    }
  }

  /**
   When `locks.json` can be relied on: over a run it agrees with the guards in every state and never loses a record
   exactly if every replace writes what is still the present content with the writer's own change, and no replace
   raises after it took effect.
   */
  lemma FileIsRightExactly(states: seq<Sys>, steps: seq<Step>)
    requires IsRun(states, steps)
    ensures FileIsRight(states, steps) <==> AllWritesCurrent(states, steps)
  {
    if FileIsRight(states, steps) {
      forall i | 0 <= i < |steps|
        ensures WritesCurrent(states[i], steps[i])
      {
        OwnRecordLastAlways(states, steps, i);
        ReadEarlierAlways(states, steps, i, steps[i].p);
        assert states[i + 1] == Apply(states[i], steps[i]);
        NotCurrentShows(states[i], steps[i]);
      }
    }
    if AllWritesCurrent(states, steps) {
      forall i | 0 <= i < |states|
        ensures Agrees(states[i]) && (i > 0 ==> Extends(states[i - 1].file, states[i].file))
      {
        AgreesAlways(states, steps, i);
      }
    }
  }

  /** While all writes are current, no lock record is ever lost between any two moments of a run. */
  lemma {:induction false} RecordsNeverLost(states: seq<Sys>, steps: seq<Step>, i: nat, j: nat)
    requires IsRun(states, steps) && AllWritesCurrent(states, steps) && i <= j < |states|
    ensures Extends(states[i].file, states[j].file)
    decreases j
  {
    if i < j {
      RecordsNeverLost(states, steps, i, j - 1);
      AgreesAlways(states, steps, j);
      ExtendsTransitive(states[i].file, states[j - 1].file, states[j].file);
    }
  }

  /** While all writes are current, a process that wins the guard never fails the second check. */
  lemma WinnerPassesSecondCheck(states: seq<Sys>, steps: seq<Step>, i: nat)
    requires IsRun(states, steps) && i < |steps| && forall k :: 0 <= k < i ==> WritesCurrent(states[k], steps[k])
    ensures !steps[i].CheckBusy?
  {
    AgreesAlways(states, steps, i);
  }

  ghost predicate AllCurrent(s: Sys) {
    forall p :: p in s.pc ==> IsCurrent(s, p)
  }

  /** No other process is between reading and replacing the file when one replaces it. */
  ghost predicate Undisturbed(s: Sys, a: Step) {
    a.Commit? || a.CommitRelease? || a.CommitThenRaise? ==> forall q :: q in s.pc && Rewriting(s.pc[q]) ==> q == a.p
  }

  lemma AllCurrentStep(s: Sys, a: Step)
    requires AllCurrent(s) && Enabled(s, a) && Undisturbed(s, a)
    ensures AllCurrent(Apply(s, a))
  {
    var t := Apply(s, a);
    forall p | p in t.pc
      ensures IsCurrent(t, p)
    {
      assert IsCurrent(s, p);
      if a.Load? && p == a.p {
        assert t.pc[p].pending[..|t.pc[p].pending| - 1] == s.file;
      }
    }
  }

  /** While replaces do not fall into each other's rewriting, whatever was read is still the present content. */
  lemma {:induction false} UndisturbedIsCurrent(states: seq<Sys>, steps: seq<Step>, i: nat)
    requires IsRun(states, steps) && i < |states| && forall k :: 0 <= k < i ==> Undisturbed(states[k], steps[k])
    ensures AllCurrent(states[i])
  {
    if i > 0 {
      UndisturbedIsCurrent(states, steps, i - 1);
      assert states[i - 1 + 1] == Apply(states[i - 1], steps[i - 1]);
      AllCurrentStep(states[i - 1], steps[i - 1]);
    }
  }

  // ---------------------------------------------------------------------------------------------
  // One device: the guard itself keeps rewrites apart
  // ---------------------------------------------------------------------------------------------

  ghost predicate OneDevice(steps: seq<Step>, d: Device) {
    forall i :: 0 <= i < |steps| && steps[i].Create? ==> steps[i].device == d
  }

  lemma {:induction false} OnlyThatDevice(states: seq<Sys>, steps: seq<Step>, d: Device, i: nat)
    requires IsRun(states, steps) && OneDevice(steps, d) && i < |states|
    ensures forall p :: p in states[i].pc && Busy(states[i].pc[p]) ==> states[i].pc[p].device == d
  {
    if i > 0 {
      OnlyThatDevice(states, steps, d, i - 1);
      assert states[i - 1 + 1] == Apply(states[i - 1], steps[i - 1]);
    }
  }

  /** With one device the guard lets only one process rewrite. */
  lemma OneDeviceCurrent(states: seq<Sys>, steps: seq<Step>, d: Device, i: nat)
    requires IsRun(states, steps) && OneDevice(steps, d) && i < |states|
    ensures AllCurrent(states[i])
  {
    forall k | 0 <= k < i
      ensures Undisturbed(states[k], steps[k])
    {
      OnlyThatDevice(states, steps, d, k);
      GuardOwnedAlways(states, steps, k);
    }
    UndisturbedIsCurrent(states, steps, i);
  }

  /**
   When all processes contend for one device, the file is right over the whole run exactly if no replace raises
   after it took effect.
   */
  lemma OneDeviceExactly(states: seq<Sys>, steps: seq<Step>, d: Device)
    requires IsRun(states, steps) && OneDevice(steps, d)
    ensures FileIsRight(states, steps) <==> forall i :: 0 <= i < |steps| ==> !steps[i].CommitThenRaise?
  {
    FileIsRightExactly(states, steps);
    forall i | 0 <= i < |steps|
      ensures WritesCurrent(states[i], steps[i]) <==> !steps[i].CommitThenRaise?
    {
      OneDeviceCurrent(states, steps, d, i);
    }
  }

  /**
   One device, up to the first such raise: file and guard agree, nothing is lost, and the second check never fails.
   */
  lemma OneDeviceAgreement(states: seq<Sys>, steps: seq<Step>, d: Device, i: nat)
    requires IsRun(states, steps) && OneDevice(steps, d) && i < |states|
    requires forall k :: 0 <= k < i ==> !steps[k].CommitThenRaise?
    ensures Agrees(states[i])
    ensures i > 0 ==> Extends(states[i - 1].file, states[i].file)
    ensures i < |steps| ==> !steps[i].CheckBusy?
  {
    forall k | 0 <= k < i
      ensures WritesCurrent(states[k], steps[k])
    {
      OneDeviceCurrent(states, steps, d, k);
    }
    AgreesAlways(states, steps, i);
  }

  ghost predicate EndsStale(states: seq<Sys>, steps: seq<Step>, d: Device) {
    && IsRun(states, steps) && OneDevice(steps, d)
    && Quiescent(states[|steps|]) && states[|steps|].guards == map[] && HasActive(states[|steps|].file, d)
  }

  /**
   The raise does break it: one process, one device, a replace that raises afterwards. Its guard is unlinked, its
   record stays reserved, and by StaleRecordLocksOutForever nobody ever gets the device again.
   */
  lemma RaiseAfterReplaceLocksOut()
    ensures exists states, steps :: EndsStale(states, steps, 0)
  {
    var states, steps: seq<Step> := [FRESH], [];
    assert IsRun(states, steps);
    states, steps := OneMore(states, steps, Create(0, 0), 0);
    states, steps := OneMore(states, steps, CheckFree(0), 0);
    states, steps := OneMore(states, steps, Load(0, 10), 0);
    assert states[|steps|].pc[0].pending == [LockRecord(10, 0, Reserved)];
    states, steps := OneMore(states, steps, CommitThenRaise(0), 0);
    states, steps := OneMore(states, steps, AbortUnlink(0), 0);
    var last := states[|steps|];
    assert last.file == [LockRecord(10, 0, Reserved)];
    assert IsActive(last.file[0], 0);
    assert EndsStale(states, steps, 0);
  }

  lemma OneMore(states: seq<Sys>, steps: seq<Step>, a: Step, d: Device) returns (states': seq<Sys>, steps': seq<Step>)
    requires IsRun(states, steps) && OneDevice(steps, d) && Enabled(states[|steps|], a) && (a.Create? ==> a.device == d)
    ensures IsRun(states', steps') && OneDevice(steps', d) && |steps'| == |steps| + 1
    ensures states'[|steps'|] == Apply(states[|steps|], a)
  {
    Extend(states, steps, a);
    states', steps' := states + [Apply(states[|steps|], a)], steps + [a];
  }

  // ---------------------------------------------------------------------------------------------
  // Two devices: what exclusion has to survive
  // ---------------------------------------------------------------------------------------------

  ghost predicate Reachable(s: Sys) {
    exists states: seq<Sys>, steps: seq<Step> :: IsRun(states, steps) && states[|steps|] == s
  }

  lemma Advance(s: Sys, a: Step) returns (t: Sys)
    requires Reachable(s) && Enabled(s, a)
    ensures t == Apply(s, a) && Reachable(t)
  {
    t := Apply(s, a);
    var states, steps :| IsRun(states, steps) && states[|steps|] == s;
    Extend(states, steps, a);
    var after, done := states + [t], steps + [a];
    assert after[|done|] == t;
  }

  lemma Extend(states: seq<Sys>, steps: seq<Step>, a: Step)
    requires IsRun(states, steps) && Enabled(states[|steps|], a)
    ensures IsRun(states + [Apply(states[|steps|], a)], steps + [a])
  {
    var after, done := states + [Apply(states[|steps|], a)], steps + [a];
    forall i | 0 <= i < |done|
      ensures Enabled(after[i], done[i]) && after[i + 1] == Apply(after[i], done[i])
    {
      if i < |steps| {
        assert states[i + 1] == Apply(states[i], steps[i]);
      }
    }
  }

  const FRESH := Sys(map[], [], map[0 := Idle, 1 := Idle])

  lemma FreshReachable()
    ensures Reachable(FRESH)
  {
    assert IsRun([FRESH], []);
  }

  /** `reserve_lock` up to the second read, without interference. */
  lemma SoloLoad(s: Sys, p: Proc, d: Device, id: nat) returns (t: Sys)
    requires Reachable(s) && p in s.pc && s.pc[p].Idle? && d !in s.guards && !HasActive(s.file, d)
    ensures Reachable(t)
    ensures t == Sys(s.guards[d := p], s.file, s.pc[p := Loaded(d, s.file + [LockRecord(id, d, Reserved)])])
  {
    t := Advance(s, Create(p, d));
    t := Advance(t, CheckFree(p));
    t := Advance(t, Load(p, id));
    assert t.pc == s.pc[p := Loaded(d, s.file + [LockRecord(id, d, Reserved)])];
  }

  /** The replace that ends a reservation. */
  lemma CommitOnce(s: Sys, p: Proc) returns (t: Sys)
    requires Reachable(s) && p in s.pc && s.pc[p].Loaded?
    ensures Reachable(t) && t == Sys(s.guards, s.pc[p].pending, s.pc[p := Holding(s.pc[p].device)])
  {
    t := Advance(s, Commit(p));
  }

  lemma LoadReleaseOnce(s: Sys, p: Proc) returns (t: Sys)
    requires Reachable(s) && p in s.pc && s.pc[p].Holding?
    ensures Reachable(t)
    ensures t == Sys(s.guards, s.file, s.pc[p := Releasing(s.pc[p].device, MarkReleased(s.file, s.pc[p].device))])
  {
    t := Advance(s, LoadRelease(p));
  }

  lemma CommitReleaseOnce(s: Sys, p: Proc) returns (t: Sys)
    requires Reachable(s) && p in s.pc && s.pc[p].Releasing?
    ensures Reachable(t) && t == Sys(s.guards, s.pc[p].pending, s.pc[p := Unlinking(s.pc[p].device)])
  {
    t := Advance(s, CommitRelease(p));
  }

  lemma UnlinkOnce(s: Sys, p: Proc) returns (t: Sys)
    requires Reachable(s) && p in s.pc && s.pc[p].Unlinking?
    ensures Reachable(t) && t == Sys(s.guards - {s.pc[p].device}, s.file, s.pc[p := Idle])
  {
    t := Advance(s, Unlink(p));
  }

  /** `release_locks` without interference. */
  lemma SoloRelease(s: Sys, p: Proc) returns (t: Sys)
    requires Reachable(s) && p in s.pc && s.pc[p].Holding?
    ensures Reachable(t)
    ensures t == Sys(s.guards - {s.pc[p].device}, MarkReleased(s.file, s.pc[p].device), s.pc[p := Idle])
  {
    t := LoadReleaseOnce(s, p);
    t := CommitReleaseOnce(t, p);
    t := UnlinkOnce(t, p);
    assert t.pc == s.pc[p := Idle];
  }

  /** With two devices a record can be lost: process 1 is in its section and the file does not say so. */
  lemma LostUpdateReachable()
    ensures exists s :: Reachable(s) && InSection(s, 1, 1) && !HasActive(s.file, 1)
  {
    var s := BothLoad();
    s := CommitOnce(s, 1);
    s := CommitOnce(s, 0);
    assert s.file == [LockRecord(20, 0, Reserved)];
  }

  /** Both processes have read the empty file. */
  lemma BothLoad() returns (s: Sys)
    ensures Reachable(s)
    ensures s.pc == map[0 := Loaded(0, [LockRecord(20, 0, Reserved)]), 1 := Loaded(1, [LockRecord(10, 1, Reserved)])]
  {
    FreshReachable();
    s := SoloLoad(FRESH, 1, 1, 10);
    s := SoloLoad(s, 0, 0, 20);
    assert s.pc[0].pending == [LockRecord(20, 0, Reserved)] && s.pc[1].pending == [LockRecord(10, 1, Reserved)];
  }

  /** No process is inside the protocol. */
  ghost predicate Quiescent(s: Sys) {
    forall p :: p in s.pc ==> !Busy(s.pc[p])
  }

  /**
   With two devices a released record can come back: every process is done, no guard file is left,
   and the file still reserves device 1.
   */
  lemma StaleRecordReachable()
    ensures exists s :: Reachable(s) && Quiescent(s) && s.guards == map[] && HasActive(s.file, 1)
  {
    var s := LoadsOldRecord();
    s := SoloRelease(s, 1);
    s := CommitOnce(s, 0);
    s := SoloRelease(s, 0);
    assert IsActive(s.file[0], 1);
    assert s.guards == map[];
  }

  /** Process 1 is in its section, and process 0 has read the file that says so. */
  lemma LoadsOldRecord() returns (s: Sys)
    ensures Reachable(s) && s.guards == map[1 := 1, 0 := 0] && s.file == [LockRecord(10, 1, Reserved)]
    ensures s.pc == map[0 := Loaded(0, [LockRecord(10, 1, Reserved), LockRecord(20, 0, Reserved)]), 1 := Holding(1)]
  {
    FreshReachable();
    s := SoloLoad(FRESH, 1, 1, 10);
    s := CommitOnce(s, 1);
    assert s.file == [LockRecord(10, 1, Reserved)];
    s := SoloLoad(s, 0, 0, 20);
    assert s.pc[0].pending == [LockRecord(10, 1, Reserved), LockRecord(20, 0, Reserved)];
  }

  /** Every list that can still reach the file reserves `d`, and nobody is past the second check for `d`. */
  ghost predicate LockedOut(s: Sys, d: Device) {
    && HasActive(s.file, d)
    && (forall p :: p in s.pc && Rewriting(s.pc[p]) ==> HasActive(s.pc[p].pending, d))
    && forall p :: p in s.pc && Busy(s.pc[p]) && s.pc[p].device == d ==> s.pc[p].Guarded? || s.pc[p].Aborting?
  }

  lemma LockedOutStep(s: Sys, a: Step, d: Device)
    requires LockedOut(s, d) && Enabled(s, a)
    ensures LockedOut(Apply(s, a), d)
  {
    match a
    case Load(_, id) =>
      var i :| 0 <= i < |s.file| && IsActive(s.file[i], d);
      assert IsActive((s.file + [LockRecord(id, s.pc[a.p].device, Reserved)])[i], d);
    case LoadRelease(_) =>
      MarkReleasedClears(s.file, s.pc[a.p].device);
    case _ =>
  }

  /** Such a stale record locks its device out for ever: no later run enters the section of that device. */
  lemma {:induction false} StaleRecordLocksOutForever(states: seq<Sys>, steps: seq<Step>, d: Device, i: nat)
    requires Continues(states, steps) && i < |states|
    requires Quiescent(states[0]) && HasActive(states[0].file, d)
    ensures LockedOut(states[i], d)
    ensures forall p :: !InSection(states[i], p, d)
  {
    if i > 0 {
      StaleRecordLocksOutForever(states, steps, d, i - 1);
      assert states[i - 1 + 1] == Apply(states[i - 1], steps[i - 1]);
      LockedOutStep(states[i - 1], steps[i - 1], d);
    }
  }
}
