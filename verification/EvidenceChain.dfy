/**
 The command-line evidence chain: backup, dry-run, evaluate, certify, evaluate, execute, over one record
 store. Every run keeps a log of what was recorded; an execution is justified by what the log says.
 */
module EvidenceChain {
  import opened Wrappers
  import opened VendorContracts
  import opened LabLocks
  import opened LabStore
  import opened ExcelLabSafety

  /** `Executed` is every execution that got past the checks and the lock, whatever became of it. */
  datatype Event =
    | BackupSaved(b: Backup)
    | DryRunSaved(r: DryRun)
    | EvaluationSaved(e: Evaluation)
    | Certified(v: Validation)
    | Executed(device: InventoryDevice, operation: Operation, commands: seq<Command>, hash: Hash, at: Time,
               maxAgeHours: int)

  datatype Lab = Lab(store: Store, log: seq<Event>)

  /** Settings, clock and vault may differ from one command to the next. */
  datatype Env = Env(settings: Settings, now: Time, usable: set<string>)

  datatype Action =
    | RunBackup(device: InventoryDevice)
    | LoseBackupFile(index: nat)
    | RunDryRun(device: InventoryDevice, operation: Operation, parameters: string)
    | RunEvaluate(request: Request)
    | RunCertify(device: InventoryDevice, capability: Operation, credential: string)
    | RunExecute(device: InventoryDevice, decision: Decision, runtime: Runtime, credential: string, realLab: bool,
                 lockId: nat, outcome: RunOutcome, release: ReleaseOutcome)

  function ContextOf(lab: Lab, e: Env): Context {
    Context(lab.store, e.settings, e.now, e.usable)
  }

  function EvaluationRecord(lib: Library, c: Context, r: Request): Evaluation {
    var d := Decide(lib, c, r);
    var dryRun := if r.simulationHash.Some? then GetDryRun(c.store, r.simulationHash.value, r.device.id, r.operation)
        else None;
    Evaluation(r.device.id, r.operation, r.credentialRef, r.simulationHash, d.commandHash,
               if dryRun.Some? then dryRun.value.privateHash else None,
               r.device.profile, lib.decide(r.device), d.allowed, d.denied, r.realApply, c.now)
  }

  /** `_has_pre_certification_evaluation`. It never compares the evaluation's simulation hash. */
  predicate HasPreCertificationEvaluation(lib: Library, c: Context, device: InventoryDevice, capability: Operation,
                                          dryRun: DryRun, credential: string) {
    var found := LatestEvaluation(c.store, device.id, capability, dryRun.commandHash);
    && found.Some?
    && var e := found.value;
    && e.credentialRef == Some(credential)
    && e.profile == device.profile && e.runtime == lib.decide(device)
    && !e.realApply
    && (dryRun.privateHash.Some? ==> e.privateHash == dryRun.privateHash)
    && ((e.allowed && e.denied == {}) || e.denied == {LabValidation})
  }

  /** `_assert_certification_allowed`. */
  predicate CertificationAllowed(lib: Library, c: Context, device: InventoryDevice, capability: Operation,
                                 credential: string) {
    var runtime := lib.decide(device);
    var contract := ContractOf(runtime.family);
    && credential in c.usable
    && device.ip in c.settings.allowlist
    && runtime.transport != UnsupportedTransport && runtime.transport != IcmpOnly
    && if capability == ReadBackup then
         contract.readOnly != [] && HasFreshBackup(c, device.id)
       else
         && runtime.family !in BLOCKED_FAMILIES
         && contract.Supports(capability) && capability in contract.templates
         && HasFreshBackup(c, device.id)
         && var dryRun := LatestDryRun(c.store, device.id, capability);
            dryRun.Some? && HasPreCertificationEvaluation(lib, c, device, capability, dryRun.value, credential)
  }

  function Apply(lib: Library, lab: Lab, e: Env, a: Action): Lab {
    var c := ContextOf(lab, e);
    match a
    case RunBackup(device) =>
      var b := Backup(device.id, true, true, e.now);
      Lab(lab.store.(backups := lab.store.backups + [b]), lab.log + [BackupSaved(b)])
    case LoseBackupFile(i) =>
      if i >= |lab.store.backups| then lab
      else lab.(store := lab.store.(backups := lab.store.backups[i := lab.store.backups[i].(fileUsable := false)]))
    case RunDryRun(device, op, parameters) =>
      var commands := Render(lib, lib.decide(device).family, op, parameters);
      if commands.None? || PrivateHash(lib, e.settings.secretKey, commands.value).None? then lab
      else
        var r := DryRun(device.id, op, lib.commandHash(commands.value),
                        PrivateHash(lib, e.settings.secretKey, commands.value), e.now);
        Lab(SaveDryRun(lab.store, r), lab.log + [DryRunSaved(r)])
    case RunEvaluate(request) =>
      var record := EvaluationRecord(lib, c, request);
      Lab(SaveEvaluation(lab.store, record), lab.log + [EvaluationSaved(record)])
    case RunCertify(device, capability, credential) =>
      if !CertificationAllowed(lib, c, device, capability, credential) then lab
      else
        var v := Validation(device.id, capability, device.profile, lib.decide(device), e.now);
        Lab(SaveValidation(lab.store, v), lab.log + [Certified(v)])
    case RunExecute(device, d, runtime, credential, realLab, lockId, outcome, release) =>
      if ExecutionRefusal(lib, c, device, d, runtime, credential, realLab).Some? then lab
      else Lab(AfterRun(lab.store, device.id, lockId, realLab, outcome, release),
               lab.log + [ExecutedEvent(e, a)])
  }

  function ExecutedEvent(e: Env, a: Action): Event
    requires a.RunExecute? && a.decision.operation.Some? && a.decision.commandHash.Some?
  {
    Executed(a.device, a.decision.operation.value, a.decision.commands, a.decision.commandHash.value, e.now,
             e.settings.backupMaxAgeHours)
  }

  const EMPTY := Lab(Store({}, [], [], [], [], [], []), [])

  ghost predicate IsRun(lib: Library, labs: seq<Lab>, envs: seq<Env>, actions: seq<Action>) {
    && |labs| == |actions| + 1 && |envs| == |actions|
    && labs[0] == EMPTY
    && forall i :: 0 <= i < |actions| ==> labs[i + 1] == Apply(lib, labs[i], envs[i], actions[i])
  }

  // ---------------------------------------------------------------------------------------------
  // What the log says before position `i`
  // ---------------------------------------------------------------------------------------------

  ghost predicate DryRunBefore(log: seq<Event>, i: int, d: Device, op: Operation, hash: Hash) {
    exists j :: 0 <= j < i <= |log| && log[j].DryRunSaved?
      && log[j].r.device == d && log[j].r.operation == op && log[j].r.commandHash == hash
  }

  predicate OnlyLabValidationMissing(e: Evaluation) {
    e.denied == {} || e.denied == {LabValidation}
  }

  /** An evaluation denied for nothing but the missing certification, of a plan whose dry-run was stored before it. */
  ghost predicate EvaluationBefore(log: seq<Event>, i: int, e: Evaluation) {
    exists m :: 0 <= m < i <= |log| && log[m] == EvaluationSaved(e)
      && e.commandHash.Some? && e.simulationHash == e.commandHash
      && DryRunBefore(log, m, e.device, e.operation, e.commandHash.value)
  }

  ghost predicate CertifiedBefore(log: seq<Event>, i: int, v: Validation) {
    exists k :: 0 <= k < i <= |log| && log[k] == Certified(v)
      && (v.capability != ReadBackup ==>
            exists e: Evaluation :: EvaluationBefore(log, k, e) && OnlyLabValidationMissing(e)
                                    && e.device == v.device && e.operation == v.capability
                                    && e.profile == v.profile && e.runtime == v.runtime)
  }

  ghost predicate BackupBefore(log: seq<Event>, i: int, d: Device, at: Time, maxAgeHours: int) {
    exists j :: 0 <= j < i <= |log| && log[j].BackupSaved? && log[j].b.device == d
      && at - log[j].b.createdAt <= Max(1, maxAgeHours) * 3600
  }

  /** Why the execution at position `i` of the log was justified. */
  ghost predicate Justified(lib: Library, log: seq<Event>, i: int)
    requires 0 <= i < |log| && log[i].Executed?
  {
    var x := log[i];
    && x.hash == lib.commandHash(x.commands)
    && DryRunBefore(log, i, x.device.id, x.operation, x.hash)
    && (x.operation != ReadBackup ==>
          && BackupBefore(log, i, x.device.id, x.at, x.maxAgeHours)
          && exists v :: CertifiedBefore(log, i, v) && v.device == x.device.id && v.capability == x.operation
                         && ValidationMatches(v, x.device.profile, lib.decide(x.device)))
  }

  /** Every record of the store is in the log, with what made it acceptable. */
  ghost predicate StoreRecorded(lab: Lab) {
    && (forall b :: b in lab.store.backups ==>
          exists j :: 0 <= j < |lab.log| && lab.log[j].BackupSaved? && lab.log[j].b.device == b.device
            && lab.log[j].b.createdAt == b.createdAt)
    && (forall r :: r in lab.store.dryRuns ==> DryRunBefore(lab.log, |lab.log|, r.device, r.operation, r.commandHash))
    && (forall e :: e in lab.store.evaluations && OnlyLabValidationMissing(e) ==>
        EvaluationBefore(lab.log, |lab.log|, e))
    && (forall v :: v in lab.store.validations ==> CertifiedBefore(lab.log, |lab.log|, v))
  }

  ghost predicate AllJustified(lib: Library, log: seq<Event>) {
    forall i :: 0 <= i < |log| && log[i].Executed? ==> Justified(lib, log, i)
  }

  lemma DryRunStays(log: seq<Event>, x: Event, i: int, d: Device, op: Operation, hash: Hash)
    requires DryRunBefore(log, i, d, op, hash)
    ensures forall n :: i <= n <= |log + [x]| ==> DryRunBefore(log + [x], n, d, op, hash)
  {
    var j :| 0 <= j < i <= |log| && log[j].DryRunSaved?
      && log[j].r.device == d && log[j].r.operation == op && log[j].r.commandHash == hash;
    forall n | i <= n <= |log + [x]| ensures DryRunBefore(log + [x], n, d, op, hash) {
      assert (log + [x])[j] == log[j];
    }
  }

  lemma EvaluationStays(log: seq<Event>, x: Event, i: int, e: Evaluation)
    requires EvaluationBefore(log, i, e)
    ensures forall n :: i <= n <= |log + [x]| ==> EvaluationBefore(log + [x], n, e)
  {
    var m :| 0 <= m < i <= |log| && log[m] == EvaluationSaved(e)
        && DryRunBefore(log, m, e.device, e.operation, e.commandHash.value);
    DryRunStays(log, x, m, e.device, e.operation, e.commandHash.value);
    forall n | i <= n <= |log + [x]| ensures EvaluationBefore(log + [x], n, e) {
      assert (log + [x])[m] == log[m];
    }
  }

  lemma CertifiedStays(log: seq<Event>, x: Event, i: int, v: Validation)
    requires CertifiedBefore(log, i, v)
    ensures forall n :: i <= n <= |log + [x]| ==> CertifiedBefore(log + [x], n, v)
  {
    var k :| 0 <= k < i <= |log| && log[k] == Certified(v)
      && (v.capability != ReadBackup ==>
            exists e: Evaluation :: EvaluationBefore(log, k, e) && OnlyLabValidationMissing(e)
                                    && e.device == v.device && e.operation == v.capability
                                    && e.profile == v.profile && e.runtime == v.runtime);
    if v.capability != ReadBackup {
      var e: Evaluation :| EvaluationBefore(log, k, e) && OnlyLabValidationMissing(e)
                           && e.device == v.device && e.operation == v.capability
                           && e.profile == v.profile && e.runtime == v.runtime;
      EvaluationStays(log, x, k, e);
    }
    forall n | i <= n <= |log + [x]| ensures CertifiedBefore(log + [x], n, v) {
      assert (log + [x])[k] == log[k];
    }
  }

  lemma JustifiedStays(lib: Library, log: seq<Event>, x: Event, i: int)
    requires 0 <= i < |log| && log[i].Executed? && Justified(lib, log, i)
    ensures Justified(lib, log + [x], i)
  {
    var y := log[i];
    assert (log + [x])[i] == y;
    DryRunStays(log, x, i, y.device.id, y.operation, y.hash);
    if y.operation != ReadBackup {
      var v :| CertifiedBefore(log, i, v) && v.device == y.device.id && v.capability == y.operation
               && ValidationMatches(v, y.device.profile, lib.decide(y.device));
      CertifiedStays(log, x, i, v);
      var j :| 0 <= j < i <= |log| && log[j].BackupSaved? && log[j].b.device == y.device.id
               && y.at - log[j].b.createdAt <= Max(1, y.maxAgeHours) * 3600;
      assert (log + [x])[j] == log[j];
    }
  }

  lemma AllJustifiedStays(lib: Library, log: seq<Event>, x: Event)
    requires AllJustified(lib, log)
    requires x.Executed? ==> Justified(lib, log + [x], |log|)
    ensures AllJustified(lib, log + [x])
  {
    forall i | 0 <= i < |log| && log[i].Executed? ensures Justified(lib, log + [x], i) {
      JustifiedStays(lib, log, x, i);
    }
  }

  /** A longer log keeps everything recorded so far. */
  lemma StoreRecordedStays(lab: Lab, x: Event)
    requires StoreRecorded(lab)
    ensures StoreRecorded(lab.(log := lab.log + [x]))
  {
    var log := lab.log + [x];
    forall b | b in lab.store.backups
      ensures exists j :: 0 <= j < |log| && log[j].BackupSaved? && log[j].b.device == b.device
                          && log[j].b.createdAt == b.createdAt
    {
      var j :| 0 <= j < |lab.log| && lab.log[j].BackupSaved? && lab.log[j].b.device == b.device
          && lab.log[j].b.createdAt == b.createdAt;
      assert log[j] == lab.log[j];
    }
    forall r | r in lab.store.dryRuns ensures DryRunBefore(log, |log|, r.device, r.operation, r.commandHash) {
      DryRunStays(lab.log, x, |lab.log|, r.device, r.operation, r.commandHash);
    }
    forall e | e in lab.store.evaluations && OnlyLabValidationMissing(e) ensures EvaluationBefore(log, |log|, e) {
      EvaluationStays(lab.log, x, |lab.log|, e);
    }
    forall v | v in lab.store.validations ensures CertifiedBefore(log, |log|, v) {
      CertifiedStays(lab.log, x, |lab.log|, v);
    }
  }

  /**
   The certification of a config operation rests on the latest evaluation of the latest dry-run, which is in the
   log.
   */
  lemma CertificationEvidence(lib: Library, lab: Lab, e: Env, device: InventoryDevice, capability: Operation,
                              credential: string)
    returns (found: Evaluation)
    requires StoreRecorded(lab) && capability != ReadBackup
    requires CertificationAllowed(lib, ContextOf(lab, e), device, capability, credential)
    ensures EvaluationBefore(lab.log, |lab.log|, found) && OnlyLabValidationMissing(found)
    ensures found.device == device.id && found.operation == capability && found.profile == device.profile
            && found.runtime == lib.decide(device)
  {
    var dryRun := LatestDryRun(lab.store, device.id, capability).value;
    found := LatestEvaluation(lab.store, device.id, capability, dryRun.commandHash).value;
    assert OnlyLabValidationMissing(found);
  }

  lemma ValidationAdded(lab: Lab, v: Validation)
    requires StoreRecorded(lab) && CertifiedBefore(lab.log + [Certified(v)], |lab.log| + 1, v)
    ensures StoreRecorded(Lab(SaveValidation(lab.store, v), lab.log + [Certified(v)]))
  {
    StoreRecordedStays(lab, Certified(v));
  }

  lemma CertifiedOn(log: seq<Event>, v: Validation, e: Evaluation)
    requires EvaluationBefore(log, |log|, e) && OnlyLabValidationMissing(e)
    requires e.device == v.device && e.operation == v.capability && e.profile == v.profile && e.runtime == v.runtime
    ensures CertifiedBefore(log + [Certified(v)], |log| + 1, v)
  {
    EvaluationStays(log, Certified(v), |log|, e);
    assert (log + [Certified(v)])[|log|] == Certified(v) && EvaluationBefore(log + [Certified(v)], |log|, e);
  }

  lemma BackupAdded(lab: Lab, b: Backup)
    requires StoreRecorded(lab)
    ensures StoreRecorded(Lab(lab.store.(backups := lab.store.backups + [b]), lab.log + [BackupSaved(b)]))
  {
    StoreRecordedStays(lab, BackupSaved(b));
    assert (lab.log + [BackupSaved(b)])[|lab.log|] == BackupSaved(b);
  }

  lemma BackupLost(lab: Lab, i: nat)
    requires StoreRecorded(lab) && i < |lab.store.backups|
    ensures StoreRecorded(lab.(store := lab.store.(backups :=
                                                   lab.store.backups[i := lab.store.backups[i].(fileUsable := false)])))
  {
    assert lab.store.backups[i] in lab.store.backups;
  }

  lemma DryRunAdded(lab: Lab, r: DryRun)
    requires StoreRecorded(lab)
    ensures StoreRecorded(Lab(SaveDryRun(lab.store, r), lab.log + [DryRunSaved(r)]))
  {
    StoreRecordedStays(lab, DryRunSaved(r));
    assert (lab.log + [DryRunSaved(r)])[|lab.log|] == DryRunSaved(r);
  }

  lemma EvaluationAdded(lab: Lab, saved: Evaluation)
    requires StoreRecorded(lab)
    requires OnlyLabValidationMissing(saved) ==>
               EvaluationBefore(lab.log + [EvaluationSaved(saved)], |lab.log| + 1, saved)
    ensures StoreRecorded(Lab(SaveEvaluation(lab.store, saved), lab.log + [EvaluationSaved(saved)]))
  {
    StoreRecordedStays(lab, EvaluationSaved(saved));
  }

  /** An evaluation denied for at most the certification found its dry-run in the store. */
  lemma EvaluationRecorded(lib: Library, lab: Lab, e: Env, r: Request)
    requires StoreRecorded(lab)
    ensures StoreRecorded(Apply(lib, lab, e, RunEvaluate(r)))
  {
    var saved := EvaluationRecord(lib, ContextOf(lab, e), r);
    var log := lab.log + [EvaluationSaved(saved)];
    if OnlyLabValidationMissing(saved) {
      assert SimulationHash !in Decide(lib, ContextOf(lab, e), r).denied;
      assert GateOpen(lib, ContextOf(lab, e), r, SimulationHash);
      DryRunStays(lab.log, EvaluationSaved(saved), |lab.log|, saved.device, saved.operation, saved.commandHash.value);
      assert log[|lab.log|] == EvaluationSaved(saved);
      assert EvaluationBefore(log, |log|, saved);
    }
    EvaluationAdded(lab, saved);
  }

  /** The executor's state checks find the dry-run, the backup and the certification that the log needs. */
  lemma ExecutionEvidence(lib: Library, lab: Lab, e: Env, a: Action)
    requires StoreRecorded(lab) && a.RunExecute?
    requires ExecutionRefusal(lib, ContextOf(lab, e), a.device, a.decision, a.runtime, a.credential, a.realLab).None?
    ensures a.decision.operation.Some? && a.decision.commandHash == Some(lib.commandHash(a.decision.commands))
    ensures DryRunBefore(lab.log, |lab.log|, a.device.id, a.decision.operation.value, a.decision.commandHash.value)
    ensures a.decision.operation.value != ReadBackup ==>
              && HasFreshBackup(ContextOf(lab, e), a.device.id)
              && LatestValidation(lab.store, a.device.id, a.decision.operation.value, a.device.profile,
                                  lib.decide(a.device)).Some?
  {
    assert StateRefusal(lib, ContextOf(lab, e), a.device, a.decision, a.runtime, a.realLab).None?;
    var dryRun := GetDryRun(lab.store, a.decision.commandHash.value, a.device.id, a.decision.operation.value).value;
    assert dryRun in lab.store.dryRuns;
  }

  lemma ExecutionJustified(lib: Library, lab: Lab, e: Env, a: Action)
    requires StoreRecorded(lab) && a.RunExecute?
    requires ExecutionRefusal(lib, ContextOf(lab, e), a.device, a.decision, a.runtime, a.credential, a.realLab).None?
    ensures Justified(lib, lab.log + [ExecutedEvent(e, a)], |lab.log|)
  {
    var d, op, device := a.decision, a.decision.operation.value, a.device;
    var x := ExecutedEvent(e, a);
    var log := lab.log + [x];
    ExecutionEvidence(lib, lab, e, a);
    DryRunStays(lab.log, x, |lab.log|, device.id, op, d.commandHash.value);
    if op != ReadBackup {
      var b := LatestBackup(lab.store, device.id).value;
      var j :| 0 <= j < |lab.log| && lab.log[j].BackupSaved? && lab.log[j].b.device == b.device
          && lab.log[j].b.createdAt == b.createdAt;
      assert log[j] == lab.log[j];
      assert BackupBefore(log, |lab.log|, device.id, x.at, x.maxAgeHours);
      var v := LatestValidation(lab.store, device.id, op, device.profile, lib.decide(device)).value;
      CertifiedStays(lab.log, x, |lab.log|, v);
    }
  }

  /** What a granted certification stores is backed by the log. */
  lemma CertificationRecorded(lib: Library, lab: Lab, e: Env, device: InventoryDevice, capability: Operation,
                              credential: string)
    requires StoreRecorded(lab) && CertificationAllowed(lib, ContextOf(lab, e), device, capability, credential)
    ensures var v := Validation(device.id, capability, device.profile, lib.decide(device), e.now);
            StoreRecorded(Lab(SaveValidation(lab.store, v), lab.log + [Certified(v)]))
  {
    var v := Validation(device.id, capability, device.profile, lib.decide(device), e.now);
    if capability != ReadBackup {
      var found := CertificationEvidence(lib, lab, e, device, capability, credential);
      CertifiedOn(lab.log, v, found);
    } else {
      assert (lab.log + [Certified(v)])[|lab.log|] == Certified(v);
    }
    ValidationAdded(lab, v);
  }

  lemma BackupRecorded(lib: Library, lab: Lab, e: Env, a: Action)
    requires StoreRecorded(lab) && a.RunBackup?
    ensures StoreRecorded(Apply(lib, lab, e, a))
  {
    BackupAdded(lab, Backup(a.device.id, true, true, e.now));
  }

  lemma LossRecorded(lib: Library, lab: Lab, e: Env, a: Action)
    requires StoreRecorded(lab) && a.LoseBackupFile?
    ensures StoreRecorded(Apply(lib, lab, e, a))
  {
    if a.index < |lab.store.backups| {
      BackupLost(lab, a.index);
    }
  }

  lemma DryRunRecorded(lib: Library, lab: Lab, e: Env, a: Action)
    requires StoreRecorded(lab) && a.RunDryRun?
    ensures StoreRecorded(Apply(lib, lab, e, a))
  {
    var after := Apply(lib, lab, e, a);
    if after != lab {
      DryRunAdded(lab, after.log[|lab.log|].r);
    }
  }

  lemma CertifyRecorded(lib: Library, lab: Lab, e: Env, a: Action)
    requires StoreRecorded(lab) && a.RunCertify?
    ensures StoreRecorded(Apply(lib, lab, e, a))
  {
    if CertificationAllowed(lib, ContextOf(lab, e), a.device, a.capability, a.credential) {
      CertificationRecorded(lib, lab, e, a.device, a.capability, a.credential);
    }
  }

  /** Guards, locks and executions are no evidence. */
  lemma OtherRecordsStay(lab: Lab, store: Store, x: Event)
    requires StoreRecorded(lab)
    requires store == lab.store.(guards := store.guards, locks := store.locks, executions := store.executions)
    ensures StoreRecorded(Lab(store, lab.log + [x]))
  {
    StoreRecordedStays(lab, x);
  }

  lemma ExecuteRecorded(lib: Library, lab: Lab, e: Env, a: Action)
    requires StoreRecorded(lab) && a.RunExecute?
    ensures StoreRecorded(Apply(lib, lab, e, a))
  {
    var after := Apply(lib, lab, e, a);
    if after != lab {
      OtherRecordsStay(lab, after.store, after.log[|lab.log|]);
    }
  }

  lemma StoreRecordedStep(lib: Library, lab: Lab, e: Env, a: Action)
    requires StoreRecorded(lab)
    ensures StoreRecorded(Apply(lib, lab, e, a))
  {
    match a
    case RunBackup(_) => BackupRecorded(lib, lab, e, a);
    case LoseBackupFile(_) => LossRecorded(lib, lab, e, a);
    case RunDryRun(_, _, _) => DryRunRecorded(lib, lab, e, a);
    case RunEvaluate(request) => EvaluationRecorded(lib, lab, e, request);
    case RunCertify(_, _, _) => CertifyRecorded(lib, lab, e, a);
    case RunExecute(_, _, _, _, _, _, _, _) => ExecuteRecorded(lib, lab, e, a);
  }

  lemma AllJustifiedStep(lib: Library, lab: Lab, e: Env, a: Action)
    requires StoreRecorded(lab) && AllJustified(lib, lab.log)
    ensures AllJustified(lib, Apply(lib, lab, e, a).log)
  {
    var after := Apply(lib, lab, e, a);
    if after.log != lab.log {
      var x := after.log[|lab.log|];
      assert after.log == lab.log + [x];
      if a.RunExecute? {
        ExecutionJustified(lib, lab, e, a);
      }
      AllJustifiedStays(lib, lab.log, x);
    }
  }

  lemma {:induction false} RecordedAlways(lib: Library, labs: seq<Lab>, envs: seq<Env>, actions: seq<Action>, n: nat)
    requires IsRun(lib, labs, envs, actions) && n < |labs|
    ensures StoreRecorded(labs[n]) && AllJustified(lib, labs[n].log)
  {
    if n > 0 {
      RecordedAlways(lib, labs, envs, actions, n - 1);
      StoreRecordedStep(lib, labs[n - 1], envs[n - 1], actions[n - 1]);
      AllJustifiedStep(lib, labs[n - 1], envs[n - 1], actions[n - 1]);
      assert labs[n - 1 + 1] == Apply(lib, labs[n - 1], envs[n - 1], actions[n - 1]);
    }
  }

  /**
   Over every run: whatever was executed had its dry-run stored before with exactly the executed hash
   and, for a config operation, a fresh backup and a matching certification that was recorded only after
   an evaluation denied for nothing but the certification, itself after the dry-run of its plan.
   */
  lemma EveryExecutionJustified(lib: Library, labs: seq<Lab>, envs: seq<Env>, actions: seq<Action>, n: nat, i: nat)
    requires IsRun(lib, labs, envs, actions) && n < |labs|
    requires i < |labs[n].log| && labs[n].log[i].Executed?
    ensures Justified(lib, labs[n].log, i)
  {
    RecordedAlways(lib, labs, envs, actions, n);
  }

  // ---------------------------------------------------------------------------------------------
  // The chain can be completed
  // ---------------------------------------------------------------------------------------------

  /** A device, operation and credential that no standing rule of the lab excludes. */
  predicate Eligible(lib: Library, settings: Settings, usable: set<string>, device: InventoryDevice, op: Operation,
                     parameters: string, credential: string) {
    var runtime := lib.decide(device);
    && credential != "" && credential in usable
    && device.ip in settings.allowlist
    && runtime.transport != UnsupportedTransport && runtime.transport != IcmpOnly
    && op != ReadBackup
    && var commands := Render(lib, runtime.family, op, parameters);
       commands.Some? && commands.value != [] && PrivateHash(lib, settings.secretKey, commands.value).Some?
  }

  /** Every record of the store was created before `t`. */
  predicate OlderThan(s: Store, t: Time) {
    && (forall b :: b in s.backups ==> b.createdAt < t)
    && (forall r :: r in s.dryRuns ==> r.createdAt < t)
    && (forall e :: e in s.evaluations ==> e.createdAt < t)
  }

  /** The request of an `evaluate` that names the dry-run of these very parameters. */
  function Ask(lib: Library, device: InventoryDevice, op: Operation, parameters: string, credential: string): Request {
    var commands := Render(lib, lib.decide(device).family, op, parameters).GetOr([]);
    Request(device, op, Some(credential), parameters, Some(lib.commandHash(commands)), false, true)
  }

  /** Fresh backup and covering dry-run in place, device free: only the certification may be missing. */
  ghost predicate Rehearsed(lib: Library, c: Context, device: InventoryDevice, op: Operation, parameters: string,
                            credential: string) {
    && Eligible(lib, c.settings, c.usable, device, op, parameters, credential)
    && HasFreshBackup(c, device.id) && CanReserve(c.store, device.id)
    && var r, latest := Ask(lib, device, op, parameters, credential), LatestDryRun(c.store, device.id, op);
       && latest.Some? && Some(latest.value.commandHash) == r.simulationHash
       && GetDryRun(c.store, r.simulationHash.value, device.id, op) == latest
       && latest.value.privateHash == PrivateHash(lib, c.settings.secretKey, Plan(lib, r).GetOr([]))
  }

  lemma RehearsedOpensGates(lib: Library, c: Context, device: InventoryDevice, op: Operation, parameters: string,
                            credential: string)
    requires Rehearsed(lib, c, device, op, parameters, credential)
    ensures forall g :: g != LabValidation ==> GateOpen(lib, c, Ask(lib, device, op, parameters, credential), g)
  {
    forall g | g != LabValidation
      ensures GateOpen(lib, c, Ask(lib, device, op, parameters, credential), g)
    {
      RehearsedOpensGate(lib, c, device, op, parameters, credential, g);
    }
  }

  lemma RehearsedOpensGate(lib: Library, c: Context, device: InventoryDevice, op: Operation, parameters: string,
                           credential: string, g: Gate)
    requires Rehearsed(lib, c, device, op, parameters, credential) && g != LabValidation
    ensures GateOpen(lib, c, Ask(lib, device, op, parameters, credential), g)
  {
    TemplatesNeedLabLevel(lib.decide(device).family, op);
  }

  /** `RunDryRun` leaves a dry-run that covers its own plan and is the latest one. */
  lemma DryRunFound(lib: Library, lab: Lab, e: Env, device: InventoryDevice, op: Operation, parameters: string,
                    credential: string)
    requires Eligible(lib, e.settings, e.usable, device, op, parameters, credential) && OlderThan(lab.store, e.now)
    ensures var after, r := Apply(lib, lab, e, RunDryRun(device, op, parameters)),
            Ask(lib, device, op, parameters, credential);
            && after.store == lab.store.(dryRuns := after.store.dryRuns)
            && OlderThan(after.store, e.now + 1)
            && var latest := LatestDryRun(after.store, device.id, op);
               && latest.Some? && Some(latest.value.commandHash) == r.simulationHash
               && GetDryRun(after.store, r.simulationHash.value, device.id, op) == latest
               && latest.value.privateHash == PrivateHash(lib, e.settings.secretKey, Plan(lib, r).GetOr([]))
  {
    var after, r := Apply(lib, lab, e, RunDryRun(device, op, parameters)), Ask(lib, device, op, parameters, credential);
    var commands := Render(lib, lib.decide(device).family, op, parameters).value;
    var saved := DryRun(device.id, op, lib.commandHash(commands), PrivateHash(lib, e.settings.secretKey, commands),
                        e.now);
    SavedDryRunIsFound(lab.store, saved);
    assert after.store == SaveDryRun(lab.store, saved) && r.simulationHash == Some(saved.commandHash);
  }

  lemma BackupFound(lib: Library, lab: Lab, e: Env, device: InventoryDevice)
    requires OlderThan(lab.store, e.now)
    ensures var after := Apply(lib, lab, e, RunBackup(device));
            && after.store == lab.store.(backups := after.store.backups)
            && OlderThan(after.store, e.now + 1)
            && LatestBackup(after.store, device.id) == Some(Backup(device.id, true, true, e.now))
  {
    var after := Apply(lib, lab, e, RunBackup(device));
    var saved := Backup(device.id, true, true, e.now);
    assert saved in after.store.backups;
    assert forall b :: b in after.store.backups ==> b == saved || b in lab.store.backups;
  }

  lemma BackupThenDryRunRehearses(lib: Library, lab: Lab, settings: Settings, usable: set<string>, t0: Time, t1: Time,
                                  at: Time, device: InventoryDevice, op: Operation, parameters: string,
                                  credential: string)
    requires Eligible(lib, settings, usable, device, op, parameters, credential) && CanReserve(lab.store, device.id)
    requires OlderThan(lab.store, t0) && t0 < t1 && at - t0 <= Max(1, settings.backupMaxAgeHours) * 3600
    ensures var after := Apply(lib, Apply(lib, lab, Env(settings, t0, usable), RunBackup(device)),
                               Env(settings, t1, usable), RunDryRun(device, op, parameters));
            && Rehearsed(lib, Context(after.store, settings, at, usable), device, op, parameters, credential)
            && OlderThan(after.store, t1 + 1)
  {
    BackupFound(lib, lab, Env(settings, t0, usable), device);
    var first := Apply(lib, lab, Env(settings, t0, usable), RunBackup(device));
    DryRunFound(lib, first, Env(settings, t1, usable), device, op, parameters, credential);
    var after := Apply(lib, first, Env(settings, t1, usable), RunDryRun(device, op, parameters));
    assert LatestBackup(after.store, device.id) == LatestBackup(first.store, device.id);
  }

  /** Later evaluations and certifications leave a rehearsed plan rehearsed. */
  lemma RehearsedSurvives(lib: Library, c: Context, store: Store, device: InventoryDevice, op: Operation,
                          parameters: string, credential: string)
    requires Rehearsed(lib, c, device, op, parameters, credential)
    requires store == c.store.(evaluations := store.evaluations, validations := store.validations)
    ensures Rehearsed(lib, c.(store := store), device, op, parameters, credential)
  {
  }

  lemma RehearsedEvaluation(lib: Library, c: Context, device: InventoryDevice, op: Operation, parameters: string,
                            credential: string)
    requires Rehearsed(lib, c, device, op, parameters, credential)
    ensures var r := Ask(lib, device, op, parameters, credential);
            var saved := EvaluationRecord(lib, c, r);
            && saved.device == device.id && saved.operation == op && saved.createdAt == c.now
            && saved.commandHash.Some? && saved.commandHash == r.simulationHash && saved.denied <= {LabValidation}
  {
    var r := Ask(lib, device, op, parameters, credential);
    RehearsedOpensGates(lib, c, device, op, parameters, credential);
    assert GateOpen(lib, c, r, SimulationHash);
  }

  /** The recorded evaluation is the latest one for its plan and is denied for at most the certification. */
  lemma EvaluationFound(lib: Library, lab: Lab, e: Env, device: InventoryDevice, op: Operation, parameters: string,
                        credential: string)
    requires Rehearsed(lib, ContextOf(lab, e), device, op, parameters, credential) && OlderThan(lab.store, e.now)
    ensures var r := Ask(lib, device, op, parameters, credential);
            var saved := EvaluationRecord(lib, ContextOf(lab, e), r);
            && r.simulationHash.Some?
            && LatestEvaluation(Apply(lib, lab, e, RunEvaluate(r)).store, device.id, op, r.simulationHash.value) ==
               Some(saved)
            && saved.commandHash == r.simulationHash && saved.denied <= {LabValidation}
  {
    RehearsedEvaluation(lib, ContextOf(lab, e), device, op, parameters, credential);
    SavedEvaluationIsFound(lab.store, EvaluationRecord(lib, ContextOf(lab, e),
                                                       Ask(lib, device, op, parameters, credential)));
  }

  lemma PreCertified(lib: Library, lab: Lab, before: Env, device: InventoryDevice, op: Operation, parameters: string,
                     credential: string, c: Context)
    requires Rehearsed(lib, ContextOf(lab, before), device, op, parameters, credential)
             && OlderThan(lab.store, before.now)
    requires c.store == Apply(lib, lab, before, RunEvaluate(Ask(lib, device, op, parameters, credential))).store
    ensures LatestDryRun(c.store, device.id, op).Some?
    ensures HasPreCertificationEvaluation(lib, c, device, op, LatestDryRun(c.store, device.id, op).value, credential)
  {
    EvaluationFound(lib, lab, before, device, op, parameters, credential);
    RehearsedRecord(lib, ContextOf(lab, before), device, op, parameters, credential);
    assert LatestDryRun(c.store, device.id, op) == LatestDryRun(lab.store, device.id, op);
  }

  /** What the certification compares the recorded evaluation with. */
  lemma RehearsedRecord(lib: Library, c: Context, device: InventoryDevice, op: Operation, parameters: string,
                        credential: string)
    requires Rehearsed(lib, c, device, op, parameters, credential)
    ensures var saved := EvaluationRecord(lib, c, Ask(lib, device, op, parameters, credential));
            && saved.credentialRef == Some(credential) && saved.profile == device.profile
            && saved.runtime == lib.decide(device) && !saved.realApply && (saved.allowed <==> saved.denied == {})
            && saved.privateHash == LatestDryRun(c.store, device.id, op).value.privateHash
  {
  }

  lemma RehearsedAllowsCertification(lib: Library, c: Context, device: InventoryDevice, op: Operation,
                                     parameters: string, credential: string)
    requires Rehearsed(lib, c, device, op, parameters, credential)
    requires HasPreCertificationEvaluation(lib, c, device, op, LatestDryRun(c.store, device.id, op).value, credential)
    ensures CertificationAllowed(lib, c, device, op, credential)
  {
    TemplatesNeedLabLevel(lib.decide(device).family, op);
  }

  lemma CertificationGranted(lib: Library, lab: Lab, before: Env, e: Env, device: InventoryDevice, op: Operation,
                             parameters: string, credential: string)
    requires Rehearsed(lib, ContextOf(lab, before), device, op, parameters, credential)
             && OlderThan(lab.store, before.now)
    requires Rehearsed(lib, ContextOf(lab, e), device, op, parameters, credential)
    ensures var after := Apply(lib, lab, before, RunEvaluate(Ask(lib, device, op, parameters, credential)));
            CertificationAllowed(lib, ContextOf(after, e), device, op, credential)
  {
    var after := Apply(lib, lab, before, RunEvaluate(Ask(lib, device, op, parameters, credential)));
    PreCertified(lib, lab, before, device, op, parameters, credential, ContextOf(after, e));
    RehearsedSurvives(lib, ContextOf(lab, e), after.store, device, op, parameters, credential);
    RehearsedAllowsCertification(lib, ContextOf(after, e), device, op, parameters, credential);
  }

  /** Backup, dry-run, evaluate and certify, at four later and later times. */
  function Prepared(lib: Library, lab: Lab, settings: Settings, usable: set<string>, t: seq<Time>,
                    device: InventoryDevice, op: Operation, parameters: string, credential: string): Lab
    requires |t| == 5
  {
    var l1 := Apply(lib, lab, Env(settings, t[0], usable), RunBackup(device));
    var l2 := Apply(lib, l1, Env(settings, t[1], usable), RunDryRun(device, op, parameters));
    var l3 := Apply(lib, l2, Env(settings, t[2], usable), RunEvaluate(Ask(lib, device, op, parameters, credential)));
    Apply(lib, l3, Env(settings, t[3], usable), RunCertify(device, op, credential))
  }

  /**
   A rehearsed plan with a certification of this very device is allowed and executed, on the fake or the real
   transport.
   */
  lemma CertifiedIsExecutable(lib: Library, c: Context, device: InventoryDevice, op: Operation, parameters: string,
                              credential: string, v: Validation, realLab: bool)
    requires ReadOnlyUnblocked(lib) && (realLab ==> RealApplyFlags(c.settings))
    requires Rehearsed(lib, c, device, op, parameters, credential)
    requires v in c.store.validations && v == Validation(device.id, op, device.profile, lib.decide(device), v.createdAt)
    ensures var r := Ask(lib, device, op, parameters, credential).(realApply := realLab);
            Decide(lib, c, r).allowed && ExecutionRefusal(lib, c, device, Decide(lib, c, r), lib.decide(device),
                                                          credential, realLab) == None
  {
    var r := Ask(lib, device, op, parameters, credential);
    var asked := r.(realApply := realLab);
    RehearsedOpensGates(lib, c, device, op, parameters, credential);
    assert ValidationMatches(v, device.profile, lib.decide(device));
    assert GateOpen(lib, c, r, LabValidation);
    forall g ensures GateOpen(lib, c, asked, g) {
      assert GateOpen(lib, c, r, g);
      assert Plan(lib, asked) == Plan(lib, r);
    }
    AllowedMeansAllOpen(lib, c, asked);
    UnchangedStateExecutes(lib, c, asked, realLab);
  }

  lemma CertifyAdds(lib: Library, lab: Lab, e: Env, device: InventoryDevice, op: Operation, credential: string)
    requires CertificationAllowed(lib, ContextOf(lab, e), device, op, credential)
    ensures var v := Validation(device.id, op, device.profile, lib.decide(device), e.now);
            var store := Apply(lib, lab, e, RunCertify(device, op, credential)).store;
            store == lab.store.(validations := store.validations) && v in store.validations
  {
    var store := Apply(lib, lab, e, RunCertify(device, op, credential)).store;
    assert store.validations[|lab.store.validations|] ==
           Validation(device.id, op, device.profile, lib.decide(device), e.now);
  }

  lemma CertifyAndExecute(lib: Library, lab: Lab, settings: Settings, usable: set<string>, t2: Time, t3: Time, t4: Time,
                          device: InventoryDevice, op: Operation, parameters: string, credential: string, realLab: bool)
    requires ReadOnlyUnblocked(lib) && OlderThan(lab.store, t2) && (realLab ==> RealApplyFlags(settings))
    requires Rehearsed(lib, Context(lab.store, settings, t2, usable), device, op, parameters, credential)
    requires Rehearsed(lib, Context(lab.store, settings, t3, usable), device, op, parameters, credential)
    requires Rehearsed(lib, Context(lab.store, settings, t4, usable), device, op, parameters, credential)
    ensures var r := Ask(lib, device, op, parameters, credential);
            var evaluated := Apply(lib, lab, Env(settings, t2, usable), RunEvaluate(r));
            var c := Context(Apply(lib, evaluated, Env(settings, t3, usable), RunCertify(device, op, credential)).store,
                             settings, t4, usable);
            var asked := r.(realApply := realLab);
            && Decide(lib, c, asked).allowed
            && ExecutionRefusal(lib, c, device, Decide(lib, c, asked), lib.decide(device), credential, realLab) == None
  {
    CertificationGranted(lib, lab, Env(settings, t2, usable), Env(settings, t3, usable), device, op, parameters,
                         credential);
    var evaluated := Apply(lib, lab, Env(settings, t2, usable),
                           RunEvaluate(Ask(lib, device, op, parameters, credential)));
    var certified := Apply(lib, evaluated, Env(settings, t3, usable), RunCertify(device, op, credential));
    var v := Validation(device.id, op, device.profile, lib.decide(device), t3);
    CertifyAdds(lib, evaluated, Env(settings, t3, usable), device, op, credential);
    RehearsedSurvives(lib, Context(lab.store, settings, t4, usable), certified.store, device, op, parameters,
                      credential);
    CertifiedIsExecutable(lib, Context(certified.store, settings, t4, usable), device, op, parameters, credential, v,
                          realLab);
  }

  /**
   The chain is not a dead end: for an eligible, unlocked device, backup, dry-run, evaluate and certify
   make a second evaluation allowed while the backup is fresh, and the executor then accepts it; with the flags for a
   real apply set, on the real transport too.
   */
  lemma ChainReachesExecution(lib: Library, lab: Lab, settings: Settings, usable: set<string>, t: seq<Time>,
                              device: InventoryDevice, op: Operation, parameters: string, credential: string,
                              realLab: bool)
    requires ReadOnlyUnblocked(lib) && (realLab ==> RealApplyFlags(settings))
    requires Eligible(lib, settings, usable, device, op, parameters, credential) && CanReserve(lab.store, device.id)
    requires |t| == 5 && t[0] < t[1] < t[2] <= t[3] <= t[4] && OlderThan(lab.store, t[0])
    requires t[4] - t[0] <= Max(1, settings.backupMaxAgeHours) * 3600
    ensures var r := Ask(lib, device, op, parameters, credential);
            var c := Context(Prepared(lib, lab, settings, usable, t, device, op, parameters, credential).store,
                             settings, t[4], usable);
            var asked := r.(realApply := realLab);
            && Decide(lib, c, asked).allowed
            && ExecutionRefusal(lib, c, device, Decide(lib, c, asked), lib.decide(device), credential, realLab) == None
  {
    BackupThenDryRunRehearses(lib, lab, settings, usable, t[0], t[1], t[2], device, op, parameters, credential);
    BackupThenDryRunRehearses(lib, lab, settings, usable, t[0], t[1], t[3], device, op, parameters, credential);
    BackupThenDryRunRehearses(lib, lab, settings, usable, t[0], t[1], t[4], device, op, parameters, credential);
    var l2 := Apply(lib, Apply(lib, lab, Env(settings, t[0], usable), RunBackup(device)), Env(settings, t[1], usable),
                    RunDryRun(device, op, parameters));
    CertifyAndExecute(lib, l2, settings, usable, t[2], t[3], t[4], device, op, parameters, credential, realLab);
  }

  // ---------------------------------------------------------------------------------------------
  // The commands in the terms of an operator
  // ---------------------------------------------------------------------------------------------

  /** An evaluation of the plan of this dry-run, asked with this credential and not for real, on the device as it is. */
  ghost predicate IsEvaluationOf(lib: Library, e: Evaluation, device: InventoryDevice, r: DryRun, credential: string) {
    && e.credentialRef == Some(credential) && !e.realApply
    && e.profile.vendor == device.profile.vendor && e.profile.model == device.profile.model
    && e.profile.driver == device.profile.driver && e.profile.platform == device.profile.platform
    && e.runtime.family == lib.decide(device).family && e.runtime.transport == lib.decide(device).transport
    && (r.privateHash != None ==> e.privateHash == r.privateHash)
    && (e.denied == {LabValidation} || (e.allowed && e.denied == {}))
  }

  ghost predicate MayCertify(lib: Library, c: Context, device: InventoryDevice, capability: Operation,
                             credential: string) {
    var family := lib.decide(device).family;
    && credential in c.usable && device.ip in c.settings.allowlist
    && lib.decide(device).transport in {Netmiko, Paramiko, CustomCli} && FreshlyBackedUp(c, device.id)
    && if capability == ReadBackup then ContractOf(family).readOnly != []
       else
         && capability in ContractOf(family).templates
         && match LatestDryRun(c.store, device.id, capability)
            case None => false
            case Some(r) =>
              match LatestEvaluation(c.store, device.id, capability, r.commandHash)
              case None => false
              case Some(e) => IsEvaluationOf(lib, e, device, r, credential)
  }

  /** `certify` records a certification of the device as it is now, exactly when an operator would call it permitted. */
  lemma CertifiesExactly(lib: Library, lab: Lab, e: Env, device: InventoryDevice, capability: Operation,
                         credential: string)
    ensures var after := Apply(lib, lab, e, RunCertify(device, capability, credential));
            if MayCertify(lib, ContextOf(lab, e), device, capability, credential) then
              var v := Validation(device.id, capability, device.profile, lib.decide(device), e.now);
              after.log == lab.log + [Certified(v)] && after.store.validations == lab.store.validations + [v]
            else after == lab
  {
    var c := ContextOf(lab, e);
    FreshBackupMeans(c, device.id);
    TemplatesNeedLabLevel(lib.decide(device).family, capability);
    if capability != ReadBackup {
      EvaluationCounts(lib, c, device, capability, credential);
    }
  }

  lemma EvaluationCounts(lib: Library, c: Context, device: InventoryDevice, capability: Operation, credential: string)
    ensures LatestDryRun(c.store, device.id, capability).Some? ==>
              var r := LatestDryRun(c.store, device.id, capability).value;
              HasPreCertificationEvaluation(lib, c, device, capability, r, credential) <==>
                match LatestEvaluation(c.store, device.id, capability, r.commandHash)
                case None => false
                case Some(e) => IsEvaluationOf(lib, e, device, r, credential)
  {
  }

  /** `dry-run` stores the plan of the operation under its hash, exactly when there is one that can be hashed. */
  lemma DryRunStoresPlan(lib: Library, lab: Lab, e: Env, device: InventoryDevice, op: Operation, parameters: string,
                         commands: seq<Command>, h: Hash)
    requires IsPlan(lib, lib.decide(device).family, op, parameters, commands)
    requires IsPrivateHash(lib, e.settings.secretKey, commands, h)
    ensures var r := DryRun(device.id, op, lib.commandHash(commands), Some(h), e.now);
            var after := Apply(lib, lab, e, RunDryRun(device, op, parameters));
            after.log == lab.log + [DryRunSaved(r)] && after.store == SaveDryRun(lab.store, r)
  {
    RenderMeans(lib, lib.decide(device).family, op, parameters);
    PrivateHashMeans(lib, e.settings.secretKey, commands, h);
  }

  lemma DryRunNeedsPlan(lib: Library, lab: Lab, e: Env, device: InventoryDevice, op: Operation, parameters: string)
    ensures var after := Apply(lib, lab, e, RunDryRun(device, op, parameters));
            after == lab || exists commands, h :: IsPlan(lib, lib.decide(device).family, op, parameters, commands)
                                                  && IsPrivateHash(lib, e.settings.secretKey, commands, h)
  {
    RenderMeans(lib, lib.decide(device).family, op, parameters);
    var rendered := Render(lib, lib.decide(device).family, op, parameters);
    if rendered.Some? && PrivateHash(lib, e.settings.secretKey, rendered.value).Some? {
      var h := PrivateHash(lib, e.settings.secretKey, rendered.value).value;
      PrivateHashMeans(lib, e.settings.secretKey, rendered.value, h);
    }
  }

  /** What `evaluate` records: who asked for what, the decision, and the private hash of the dry-run that was named. */
  lemma EvaluationSays(lib: Library, lab: Lab, e: Env, r: Request)
    ensures var saved := EvaluationRecord(lib, ContextOf(lab, e), r);
            && saved.device == r.device.id && saved.operation == r.operation && saved.credentialRef == r.credentialRef
            && saved.simulationHash == r.simulationHash && saved.realApply == r.realApply && saved.createdAt == e.now
            && saved.profile == r.device.profile && saved.runtime == lib.decide(r.device)
            && (saved.allowed <==> exists commands :: MayApply(lib, ContextOf(lab, e), r, commands))
            && (saved.allowed <==> saved.denied == {}) && saved.denied == Decide(lib, ContextOf(lab, e), r).denied
            && (forall commands :: HasPlan(lib, r, commands) ==>
                  saved.commandHash == if commands == [] then None else Some(lib.commandHash(commands)))
            && (forall hash :: saved.privateHash == Some(hash) ==>
                  exists x :: x in lab.store.dryRuns && x.device == r.device.id && x.operation == r.operation
                              && Some(x.commandHash) == r.simulationHash && x.privateHash == Some(hash))
  {
    AllowedExactly(lib, ContextOf(lab, e), r);
    PlanMeans(lib, r);
    if r.simulationHash.Some? {
      GetDryRunMeans(lab.store, r.simulationHash.value, r.device.id, r.operation);
    }
  }

  // ---------------------------------------------------------------------------------------------
  // Other devices
  // ---------------------------------------------------------------------------------------------

  /** The device a command is about. */
  function About(a: Action): Option<Device> {
    match a
    case RunBackup(device) => Some(device.id)
    case LoseBackupFile(_) => None
    case RunDryRun(device, _, _) => Some(device.id)
    case RunEvaluate(request) => Some(request.device.id)
    case RunCertify(device, _, _) => Some(device.id)
    case RunExecute(device, _, _, _, _, _, _, _) => Some(device.id)
  }

  /**
   Whatever is done for another device, the evidence of this one is found as before, and it stays as free as it was.
   */
  lemma OtherDevicesDoNotMatter(lib: Library, lab: Lab, e: Env, a: Action, d: Device, op: Operation, hash: Hash,
                                p: Profile, r: Runtime)
    requires About(a).Some? && About(a) != Some(d)
    ensures var s, t := lab.store, Apply(lib, lab, e, a).store;
            && LatestBackup(t, d) == LatestBackup(s, d) && LatestDryRun(t, d, op) == LatestDryRun(s, d, op)
            && GetDryRun(t, hash, d, op) == GetDryRun(s, hash, d, op)
            && LatestEvaluation(t, d, op, hash) == LatestEvaluation(s, d, op, hash)
            && LatestValidation(t, d, op, p, r) == LatestValidation(s, d, op, p, r)
            && (CanReserve(t, d) <==> CanReserve(s, d))
  {
    match a
    case RunBackup(device) => OtherBackups(lab.store, Backup(device.id, true, true, e.now), d);
    case RunDryRun(_, _, _) => OtherDryRun(lib, lab, e, a, d, op, hash);
    case RunEvaluate(request) => OtherEvaluationsAreFound(lab.store, EvaluationRecord(lib, ContextOf(lab, e), request),
                                                          d, op, hash);
    case RunCertify(device, capability, _) =>
      SaveValidationKeeps(lab.store, Validation(device.id, capability, device.profile, lib.decide(device), e.now), d,
                          op, p, r);
    case RunExecute(device, _, _, _, _, lockId, outcome, release) => OtherRun(lib, lab, e, a, d);
  }

  lemma OtherBackups(s: Store, b: Backup, d: Device)
    requires b.device != d
    ensures LatestBackup(s.(backups := s.backups + [b]), d) == LatestBackup(s, d)
  {
    NewestSkipsLast(s.backups, b, (x: Backup) => x.device == d && x.sanitized
                    && x.fileUsable, (x: Backup) => x.createdAt);
  }

  lemma OtherDryRun(lib: Library, lab: Lab, e: Env, a: Action, d: Device, op: Operation, hash: Hash)
    requires a.RunDryRun? && a.device.id != d
    ensures var s, t := lab.store, Apply(lib, lab, e, a).store;
            && t == s.(dryRuns := t.dryRuns) && LatestDryRun(t, d, op) == LatestDryRun(s, d, op)
            && GetDryRun(t, hash, d, op) == GetDryRun(s, hash, d, op)
  {
    var after := Apply(lib, lab, e, a);
    if after != lab {
      var saved := after.log[|lab.log|].r;
      OtherDryRunsAreFound(lab.store, saved, hash, d, op);
    }
  }

  lemma OtherRun(lib: Library, lab: Lab, e: Env, a: Action, d: Device)
    requires a.RunExecute? && a.device.id != d
    ensures var s, t := lab.store, Apply(lib, lab, e, a).store;
            && t == s.(guards := t.guards, locks := t.locks, executions := t.executions)
            && (CanReserve(t, d) <==> CanReserve(s, d))
  {
    if ExecutionRefusal(lib, ContextOf(lab, e), a.device, a.decision, a.runtime, a.credential, a.realLab).None? {
      OtherReserve(lab.store, a.device.id, d, a.lockId);
      MarkReleasedClears(Reserve(lab.store, a.device.id, a.lockId).locks, a.device.id);
    }
  }

  lemma OtherReserve(s: Store, d: Device, other: Device, id: nat)
    requires d != other && CanReserve(s, d)
    ensures HasActive(Reserve(s, d, id).locks, other) <==> HasActive(s.locks, other)
  {
    var locks := Reserve(s, d, id).locks;
    if HasActive(s.locks, other) {
      var i :| 0 <= i < |s.locks| && IsActive(s.locks[i], other);
      assert IsActive(locks[i], other);
    }
    if HasActive(locks, other) {
      var i :| 0 <= i < |locks| && IsActive(locks[i], other);
      assert i < |s.locks| && IsActive(s.locks[i], other);
    }
  }

  /** A rehearsed plan stays rehearsed whatever is done for other devices. */
  lemma RehearsedSurvivesOthers(lib: Library, lab: Lab, e: Env, a: Action, settings: Settings, now: Time,
                                usable: set<string>, device: InventoryDevice, op: Operation, parameters: string,
                                  credential: string)
    requires Rehearsed(lib, Context(lab.store, settings, now, usable), device, op, parameters, credential)
    requires About(a).Some? && About(a) != Some(device.id)
    ensures Rehearsed(lib, Context(Apply(lib, lab, e, a).store, settings, now, usable), device, op, parameters,
                      credential)
  {
    var hash := Ask(lib, device, op, parameters, credential).simulationHash.value;
    OtherDevicesDoNotMatter(lib, lab, e, a, device.id, op, hash, device.profile, lib.decide(device));
  }
}
