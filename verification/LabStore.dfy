/** The JSON record lists of the file-mode lab state, as values, with the lookups and updates made on them. */
module LabStore {
  import opened LabLocks
  import opened Wrappers
  import opened VendorContracts

  type Hash = nat
  type Time = nat

  /** The inventory columns that pick the runtime; the last two may be missing. */
  datatype Profile = Profile(vendor: string, model: string, driver: Option<string>, platform: Option<string>)

  datatype InventoryDevice = InventoryDevice(id: Device, ip: string, hostname: string, profile: Profile)

  datatype Runtime = Runtime(family: Family, transport: Transport)

  datatype Gate =
    | EnvironmentFlags | DeviceAllowlist | RuntimeDecision | VendorContract | CredentialReference
    | FreshBackup | LabValidation | SimulationHash | CommandSafety | LockConflict

  datatype DryRun = DryRun(device: Device, operation: Operation, commandHash: Hash, privateHash: Option<Hash>,
                           createdAt: Time)

  datatype Evaluation = Evaluation(
    device: Device, operation: Operation, credentialRef: Option<string>,
    simulationHash: Option<Hash>, commandHash: Option<Hash>, privateHash: Option<Hash>,
    profile: Profile, runtime: Runtime, allowed: bool, denied: set<Gate>, realApply: bool, createdAt: Time)

  /** Only approved records are ever written, so the status column is left out. */
  datatype Validation = Validation(device: Device, capability: Operation, profile: Profile, runtime: Runtime,
                                   createdAt: Time)

  datatype Backup = Backup(device: Device, sanitized: bool, fileUsable: bool, createdAt: Time)

  datatype Execution = Execution(device: Device, realLab: bool, executed: bool, commandCount: nat)

  datatype Store = Store(
    guards: set<Device>, locks: seq<LockRecord>, dryRuns: seq<DryRun>, evaluations: seq<Evaluation>,
    validations: seq<Validation>, backups: seq<Backup>, executions: seq<Execution>)

  function Filter<T(!new)>(items: seq<T>, keep: T -> bool): (r: seq<T>)
    ensures forall x :: x in r <==> x in items && keep(x)
  {
    if items == [] then [] else (if keep(items[0]) then [items[0]] else []) + Filter(items[1..], keep)
  }

  /** `sorted(matches, key=created_at, reverse=True)[0]`: the newest match, the first of them on a tie. */
  function Newest<T(!new)>(items: seq<T>, matches: T -> bool, at: T -> Time): (r: Option<T>)
    ensures r.None? <==> forall x :: x in items ==> !matches(x)
    ensures r.Some? ==> r.value in items && matches(r.value)
    ensures r.Some? ==> forall x :: x in items && matches(x) ==> at(x) <= at(r.value)
  {
    if items == [] then None
    else
      var rest := Newest(items[1..], matches, at);
      if !matches(items[0]) then rest
      else if rest.Some? && at(items[0]) < at(rest.value) then rest
      else Some(items[0])
  }

  function First<T(!new)>(items: seq<T>, matches: T -> bool): (r: Option<T>)
    ensures r.None? <==> forall x :: x in items ==> !matches(x)
    ensures r.Some? ==> r.value in items && matches(r.value)
  {
    if items == [] then None else if matches(items[0]) then Some(items[0]) else First(items[1..], matches)
  }

  function GetDryRun(s: Store, hash: Hash, d: Device, op: Operation): Option<DryRun> {
    First(s.dryRuns, (x: DryRun) => x.commandHash == hash && x.device == d && x.operation == op)
  }

  function SaveDryRun(s: Store, r: DryRun): Store {
    s.(dryRuns := Filter(s.dryRuns, (x: DryRun) =>
         !(x.commandHash == r.commandHash && x.device == r.device && x.operation == r.operation)) + [r])
  }

  function SaveEvaluation(s: Store, r: Evaluation): Store {
    s.(evaluations := Filter(s.evaluations, (x: Evaluation) =>
         !(x.commandHash == r.commandHash && x.device == r.device && x.operation == r.operation
           && x.simulationHash == r.simulationHash)) + [r])
  }

  function LatestEvaluation(s: Store, d: Device, op: Operation, hash: Hash): Option<Evaluation> {
    Newest(s.evaluations, (x: Evaluation) => x.device == d && x.operation == op && x.commandHash == Some(hash),
           (x: Evaluation) => x.createdAt)
  }

  function SaveValidation(s: Store, r: Validation): Store {
    s.(validations := s.validations + [r])
  }

  /** A stored value against a wanted one: a missing wanted value matches everything, a missing stored one is "". */
  predicate FieldMatches(stored: Option<string>, wanted: Option<string>) {
    wanted.None? || stored.GetOr("") == wanted.value
  }

  predicate ValidationMatches(v: Validation, p: Profile, r: Runtime) {
    && v.profile.vendor == p.vendor && v.profile.model == p.model
    && FieldMatches(v.profile.driver, p.driver) && FieldMatches(v.profile.platform, p.platform)
    && v.runtime == r
  }

  function LatestValidation(s: Store, d: Device, op: Operation, p: Profile, r: Runtime): Option<Validation> {
    Newest(s.validations, (v: Validation) => v.device == d && v.capability == op && ValidationMatches(v, p, r),
           (v: Validation) => v.createdAt)
  }

  function LatestBackup(s: Store, d: Device): Option<Backup> {
    Newest(s.backups, (b: Backup) => b.device == d && b.sanitized && b.fileUsable, (b: Backup) => b.createdAt)
  }

  /** The newest dry-run of a device and capability; a password change needs its private hash. */
  function LatestDryRun(s: Store, d: Device, op: Operation): Option<DryRun> {
    Newest(s.dryRuns, (x: DryRun) => x.device == d && x.operation == op
           && (op == PasswordChange ==> x.privateHash.Some?), (x: DryRun) => x.createdAt)
  }

  predicate CanReserve(s: Store, d: Device) {
    d !in s.guards && !HasActive(s.locks, d)
  }

  /** `reserve_lock` run alone: it fails without a trace, or leaves a guard and a reserved record. */
  function Reserve(s: Store, d: Device, id: nat): Store {
    if CanReserve(s, d) then s.(guards := s.guards + {d}, locks := s.locks + [LockRecord(id, d, Reserved)]) else s
  }

  function ReleaseLocks(s: Store, d: Device): Store {
    s.(guards := s.guards - {d}, locks := MarkReleased(s.locks, d))
  }

  /** A reservation that is given back leaves the guards as they were and one more, released, record. */
  lemma ReserveThenRelease(s: Store, d: Device, id: nat)
    requires CanReserve(s, d)
    ensures ReleaseLocks(Reserve(s, d, id), d) == s.(locks := s.locks + [LockRecord(id, d, Released)])
    ensures CanReserve(ReleaseLocks(Reserve(s, d, id), d), d)
  {
    var reserved := Reserve(s, d, id);
    forall i | 0 <= i < |s.locks|
      ensures MarkReleased(reserved.locks, d)[i] == s.locks[i]
    {
      assert !IsActive(s.locks[i], d);
    }
    assert MarkReleased(reserved.locks, d) == s.locks + [LockRecord(id, d, Released)];
    assert reserved.guards - {d} == s.guards;
    MarkReleasedClears(reserved.locks, d);
  }

  /** The transport's report, or an exception before or after the execution record was saved. */
  datatype RunOutcome = Ran(executed: bool, commandCount: nat) | RaisedBeforeSave
    | RaisedAfterSave(executed: bool, commandCount: nat)

  /**
   A release that is done, or one that raised before or after it replaced the lock file; then the guard stays
   behind.
   */
  datatype ReleaseOutcome = ReleaseDone | ReleaseRaisedEarly | ReleaseRaisedLate

  predicate Saves(outcome: RunOutcome) {
    !outcome.RaisedBeforeSave?
  }

  /** Without a real transport the commands count as executed once the run was recorded. */
  predicate Executes(outcome: RunOutcome, realLab: bool) {
    Saves(outcome) && (!realLab || outcome.executed)
  }

  function Given(s: Store, d: Device, release: ReleaseOutcome): Store {
    match release
    case ReleaseDone => ReleaseLocks(s, d)
    case ReleaseRaisedEarly => s
    case ReleaseRaisedLate => s.(locks := MarkReleased(s.locks, d))
  }

  /** The critical section of `execute`: reserve, run, record, release. */
  function AfterRun(s: Store, d: Device, lockId: nat, realLab: bool, outcome: RunOutcome,
                    release: ReleaseOutcome): Store {
    var held := Reserve(s, d, lockId);
    var record := Execution(d, realLab, Executes(outcome, realLab), if Saves(outcome) then outcome.commandCount else 0);
    Given(if Saves(outcome) then held.(executions := held.executions + [record]) else held, d, release)
  }

  /**
   Every run that can start and whose release is done leaves the device free, its record released and the rest kept.
   */
  lemma AfterRunIs(s: Store, d: Device, lockId: nat, realLab: bool, outcome: RunOutcome, release: ReleaseOutcome)
    requires CanReserve(s, d)
    ensures var t := AfterRun(s, d, lockId, realLab, outcome, release);
            && (CanReserve(t, d) <==> release.ReleaseDone?)
            && (!release.ReleaseRaisedEarly? ==> t.locks == s.locks + [LockRecord(lockId, d, Released)])
            && t == s.(guards := t.guards, locks := t.locks, executions := t.executions)
            && t.executions == s.executions + match outcome
                 case RaisedBeforeSave => []
                 case Ran(executed, n) => [Execution(d, realLab, realLab ==> executed, n)]
                 case RaisedAfterSave(executed, n) => [Execution(d, realLab, realLab ==> executed, n)]
  {
    ReserveThenRelease(s, d, lockId);
    assert ReleaseLocks(Reserve(s, d, lockId), d).locks == MarkReleased(Reserve(s, d, lockId).locks, d);
  }

  /** A dry-run saved after all others is the latest one of its device and operation, and is found by its hash. */
  lemma SavedDryRunIsFound(s: Store, r: DryRun)
    requires forall x :: x in s.dryRuns ==> x.createdAt < r.createdAt
    requires r.operation == PasswordChange ==> r.privateHash.Some?
    ensures LatestDryRun(SaveDryRun(s, r), r.device, r.operation) == Some(r)
    ensures GetDryRun(SaveDryRun(s, r), r.commandHash, r.device, r.operation) == Some(r)
    ensures forall x :: x in SaveDryRun(s, r).dryRuns ==> x == r || x in s.dryRuns
  {
    var after := SaveDryRun(s, r);
    assert r in after.dryRuns;
    assert forall x :: x in after.dryRuns ==>
             x == r || (x in s.dryRuns && !(x.commandHash == r.commandHash && x.device == r.device
                                            && x.operation == r.operation));
  }

  /** An evaluation with a plan, saved after all others, is the latest one of that plan. */
  lemma SavedEvaluationIsFound(s: Store, r: Evaluation)
    requires forall x :: x in s.evaluations ==> x.createdAt < r.createdAt
    requires r.commandHash.Some?
    ensures LatestEvaluation(SaveEvaluation(s, r), r.device, r.operation, r.commandHash.value) == Some(r)
  {
    var after := SaveEvaluation(s, r);
    assert r in after.evaluations;
    assert forall x :: x in after.evaluations ==> x == r || x in s.evaluations;
  }

  // ---------------------------------------------------------------------------------------------
  // What a save leaves alone
  // ---------------------------------------------------------------------------------------------

  /** One step of a filtered list with a record at its end. */
  lemma FilterStep<T(!new)>(items: seq<T>, keep: T -> bool, r: T)
    requires items != []
    ensures Filter(items, keep) + [r] ==
              if keep(items[0]) then [items[0]] + (Filter(items[1..], keep) + [r]) else Filter(items[1..], keep) + [r]
  {
    var rest := Filter(items[1..], keep);
    if keep(items[0]) {
      assert Filter(items, keep) == [items[0]] + rest;
      Associative([items[0]], rest, [r]);
    } else {
      assert Filter(items, keep) == rest;
    }
  }

  lemma FirstOfCons<T(!new)>(head: T, rest: seq<T>, matches: T -> bool)
    ensures First([head] + rest, matches) == if matches(head) then Some(head) else First(rest, matches)
  {
    assert ([head] + rest)[1..] == rest;
  }

  lemma {:induction false} FirstSkips<T(!new)>(items: seq<T>, keep: T -> bool, r: T, matches: T -> bool)
    requires !matches(r) && forall x :: x in items && matches(x) ==> keep(x)
    ensures First(Filter(items, keep) + [r], matches) == First(items, matches)
  {
    if items == [] {
      FirstOfCons(r, [], matches);
      assert Filter(items, keep) + [r] == [r] + [];
    } else {
      FirstSkips(items[1..], keep, r, matches);
      FilterStep(items, keep, r);
      FirstOfCons(items[0], Filter(items[1..], keep) + [r], matches);
    }
  }

  lemma NewestOfCons<T(!new)>(head: T, rest: seq<T>, matches: T -> bool, at: T -> Time)
    ensures var later := Newest(rest, matches, at);
            Newest([head] + rest, matches, at) ==
              if !matches(head) || (later.Some? && at(head) < at(later.value)) then later else Some(head)
  {
    assert ([head] + rest)[1..] == rest;
  }

  lemma {:induction false} NewestSkips<T(!new)>(items: seq<T>, keep: T -> bool, r: T, matches: T -> bool, at: T -> Time)
    requires !matches(r) && forall x :: x in items && matches(x) ==> keep(x)
    ensures Newest(Filter(items, keep) + [r], matches, at) == Newest(items, matches, at)
  {
    if items == [] {
      NewestOfCons(r, [], matches, at);
      assert Filter(items, keep) + [r] == [r] + [];
    } else {
      NewestSkips(items[1..], keep, r, matches, at);
      FilterStep(items, keep, r);
      NewestOfCons(items[0], Filter(items[1..], keep) + [r], matches, at);
    }
  }

  lemma {:induction false} NewestSkipsLast<T(!new)>(items: seq<T>, r: T, matches: T -> bool, at: T -> Time)
    requires !matches(r)
    ensures Newest(items + [r], matches, at) == Newest(items, matches, at)
  {
    if items != [] {
      NewestSkipsLast(items[1..], r, matches, at);
      assert (items + [r])[1..] == items[1..] + [r];
    }
  }

  /**
   Saving a dry-run removes those of the same device, operation and hash, and no other; and it touches no other
   list.
   */
  lemma SaveDryRunKeeps(s: Store, r: DryRun)
    ensures forall x :: x in SaveDryRun(s, r).dryRuns <==>
              || x == r
              || (x in s.dryRuns && (x.device != r.device || x.operation != r.operation
                                     || x.commandHash != r.commandHash))
    ensures SaveDryRun(s, r).(dryRuns := s.dryRuns) == s
  {
  }

  /** So the dry-runs of other plans and of other devices are found as before. */
  lemma OtherDryRunsAreFound(s: Store, r: DryRun, hash: Hash, d: Device, op: Operation)
    ensures hash != r.commandHash || d != r.device || op != r.operation ==>
              GetDryRun(SaveDryRun(s, r), hash, d, op) == GetDryRun(s, hash, d, op)
    ensures d != r.device || op != r.operation ==> LatestDryRun(SaveDryRun(s, r), d, op) == LatestDryRun(s, d, op)
  {
    var keep := (x: DryRun) => !(x.commandHash == r.commandHash && x.device == r.device && x.operation == r.operation);
    if hash != r.commandHash || d != r.device || op != r.operation {
      FirstSkips(s.dryRuns, keep, r, (x: DryRun) => x.commandHash == hash && x.device == d && x.operation == op);
    }
    if d != r.device || op != r.operation {
      NewestSkips(s.dryRuns, keep, r,
                  (x: DryRun) => x.device == d && x.operation == op && (op == PasswordChange ==> x.privateHash.Some?),
                  (x: DryRun) => x.createdAt);
    }
  }

  /** Saving an evaluation removes those of the same request and plan, and no other; and it touches no other list. */
  lemma SaveEvaluationKeeps(s: Store, r: Evaluation)
    ensures forall x :: x in SaveEvaluation(s, r).evaluations <==>
              || x == r
              || (x in s.evaluations && (x.device != r.device || x.operation != r.operation
                                         || x.commandHash != r.commandHash || x.simulationHash != r.simulationHash))
    ensures SaveEvaluation(s, r).(evaluations := s.evaluations) == s
  {
  }

  lemma OtherEvaluationsAreFound(s: Store, r: Evaluation, d: Device, op: Operation, hash: Hash)
    requires d != r.device || op != r.operation || Some(hash) != r.commandHash
    ensures LatestEvaluation(SaveEvaluation(s, r), d, op, hash) == LatestEvaluation(s, d, op, hash)
  {
    NewestSkips(s.evaluations,
                (x: Evaluation) => !(x.commandHash == r.commandHash && x.device == r.device
                                     && x.operation == r.operation
                                     && x.simulationHash == r.simulationHash),
                r, (x: Evaluation) => x.device == d && x.operation == op && x.commandHash == Some(hash),
                (x: Evaluation) => x.createdAt);
  }

  /**
   A certification is added to the others, counts for its own device and capability only, and touches no other list.
   */
  lemma SaveValidationKeeps(s: Store, v: Validation, d: Device, op: Operation, p: Profile, r: Runtime)
    ensures SaveValidation(s, v).validations == s.validations + [v]
    ensures SaveValidation(s, v).(validations := s.validations) == s
    ensures d != v.device || op != v.capability ==>
              LatestValidation(SaveValidation(s, v), d, op, p, r) == LatestValidation(s, d, op, p, r)
  {
    if d != v.device || op != v.capability {
      NewestSkipsLast(s.validations, v, (x: Validation) => x.device == d && x.capability == op
                      && ValidationMatches(x, p, r), (x: Validation) => x.createdAt);
    }
  }

  // ---------------------------------------------------------------------------------------------
  // What a lookup answers
  // ---------------------------------------------------------------------------------------------

  /**
   The latest backup is a newest one of the device that is sanitized and has a usable file; there is one if any is
   so.
   */
  lemma LatestBackupMeans(s: Store, d: Device)
    ensures match LatestBackup(s, d)
            case None => forall b :: b in s.backups ==> b.device != d || !b.sanitized || !b.fileUsable
            case Some(b) =>
              && b in s.backups && b.device == d && b.sanitized && b.fileUsable
              && forall x :: x in s.backups && x.device == d && x.sanitized && x.fileUsable ==>
                   x.createdAt <= b.createdAt
  {
  }

  /**
   The latest dry-run is a newest one of device and operation; one without a private hash is none for a password
   change.
   */
  lemma LatestDryRunMeans(s: Store, d: Device, op: Operation)
    ensures match LatestDryRun(s, d, op)
            case None =>
              forall x :: x in s.dryRuns ==>
                x.device != d || x.operation != op || (op == PasswordChange && x.privateHash == None)
            case Some(r) =>
              && r in s.dryRuns && r.device == d && r.operation == op
                 && (op == PasswordChange ==> r.privateHash != None)
              && forall x :: x in s.dryRuns && x.device == d && x.operation == op && x.privateHash != None ==>
                   x.createdAt <= r.createdAt
  {
  }

  lemma GetDryRunMeans(s: Store, hash: Hash, d: Device, op: Operation)
    ensures match GetDryRun(s, hash, d, op)
            case None => forall x :: x in s.dryRuns ==> x.device != d || x.operation != op || x.commandHash != hash
            case Some(r) => r in s.dryRuns && r.device == d && r.operation == op && r.commandHash == hash
  {
  }

  lemma LatestEvaluationMeans(s: Store, d: Device, op: Operation, hash: Hash)
    ensures match LatestEvaluation(s, d, op, hash)
            case None =>
              forall x :: x in s.evaluations ==> x.device != d || x.operation != op || x.commandHash != Some(hash)
            case Some(e) =>
              && e in s.evaluations && e.device == d && e.operation == op && e.commandHash == Some(hash)
              && forall x :: x in s.evaluations && x.device == d && x.operation == op && x.commandHash == Some(hash) ==>
                   x.createdAt <= e.createdAt
  {
  }

  /**
   A certification counts for exactly the device, capability and runtime it was given for, and for the same vendor and
   model; driver and platform may differ only where the device has none.
   */
  lemma LatestValidationMeans(s: Store, d: Device, op: Operation, p: Profile, r: Runtime)
    ensures LatestValidation(s, d, op, p, r).Some? <==>
              exists v :: v in s.validations && v.device == d && v.capability == op && CertifiesProfile(v, p, r)
    ensures forall v :: v in s.validations && v.device == d && v.capability == op && CertifiesProfile(v, p, r) ==>
              LatestValidation(s, d, op, p, r).Some? && v.createdAt <= LatestValidation(s, d, op, p, r).value.createdAt
  {
    forall v: Validation
      ensures CertifiesProfile(v, p, r) <==> ValidationMatches(v, p, r)
    {
    }
    if LatestValidation(s, d, op, p, r).Some? {
      var v := LatestValidation(s, d, op, p, r).value;
      assert v in s.validations && v.device == d && v.capability == op && CertifiesProfile(v, p, r);
    }
  }

  ghost predicate CertifiesProfile(v: Validation, p: Profile, r: Runtime) {
    && v.runtime.family == r.family && v.runtime.transport == r.transport
    && v.profile.vendor == p.vendor && v.profile.model == p.model
    && (p.driver == None || v.profile.driver == p.driver || (v.profile.driver == None && p.driver == Some("")))
    && (p.platform == None || v.profile.platform == p.platform
        || (v.profile.platform == None && p.platform == Some("")))
  }
}
