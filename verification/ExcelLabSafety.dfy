/**
 The file-mode safety gates, written twice in the source: once by the evaluator, which produces a
 decision, and once by the executor, which re-checks a decision that may have become stale.
 */
module ExcelLabSafety {
  import opened Wrappers
  import opened VendorContracts
  import opened LabLocks
  import opened LabStore

  /** Everything that is deterministic and not interpreted here: runtime matrix, templates, patterns, hashes. */
  datatype Library = Library(
    decide: InventoryDevice -> Runtime,
    format: (Family, Operation, string) -> seq<Command>,
    validParameters: (Operation, string) -> bool,
    blocks: (Family, Command) -> bool,
    commandHash: seq<Command> -> Hash,
    plainHash: seq<Command> -> Hash,
    keyedHash: (string, seq<Command>) -> Hash)

  /** A table fact: no forbidden pattern matches a read-only command. */
  ghost predicate ReadOnlyUnblocked(lib: Library) {
    forall f: Family, c :: c in ContractOf(f).readOnly ==> !lib.blocks(f, c)
  }

  datatype Settings = Settings(allowRealApply: bool, labRealApply: bool, productionRealApply: bool,
                               secretKey: string, allowlist: set<string>, backupMaxAgeHours: int)

  /** What a command finds when it runs: the stored records, the settings, the clock and the usable credentials. */
  datatype Context = Context(store: Store, settings: Settings, now: Time, usable: set<string>)

  datatype Request = Request(device: InventoryDevice, operation: Operation, credentialRef: Option<string>,
                             parameters: string, simulationHash: Option<Hash>, realApply: bool, allowCandidate: bool)

  datatype Decision = Decision(
    allowed: bool, satisfied: set<Gate>, denied: set<Gate>, commands: seq<Command>,
    device: Option<Device>, operation: Option<Operation>, credentialRef: Option<string>,
    simulationHash: Option<Hash>, commandHash: Option<Hash>, runtime: Option<Runtime>, realApply: bool)

  const BLOCKED_FAMILIES: set<Family> := {UnknownFamily, Icmp, GenericSsh, LimitedWeb, NonSwitch, Eltex, Bulat, Qtech}

  /** What the contract table says: only families at lab level, none of them blocked, have config templates. */
  lemma TemplatesNeedLabLevel(f: Family, op: Operation)
    ensures op in ContractOf(f).templates ==>
              f !in BLOCKED_FAMILIES && ContractOf(f).LabLevel() && ContractOf(f).Supports(op)
    ensures ReadBackup !in ContractOf(f).templates
  {
  }

  predicate AnySecret(commands: seq<Command>) {
    exists c :: c in commands && c.secret
  }

  /** The template service: no commands for an unsupported operation, a missing template or a forbidden line. */
  function Render(lib: Library, family: Family, op: Operation, parameters: string): Option<seq<Command>> {
    var contract := ContractOf(family);
    if !contract.Supports(op) then None
    else if op == ReadBackup then Some(contract.readOnly)
    else if op !in contract.templates || !lib.validParameters(op, parameters) then None
    else
      var rendered := lib.format(family, op, parameters);
      if exists c :: c in rendered && lib.blocks(family, c) then None else Some(rendered)
  }

  /** `private_command_hash`: None stands for the SafetyError of a secret-bearing plan without a key. */
  function PrivateHash(lib: Library, key: string, commands: seq<Command>): Option<Hash> {
    if !AnySecret(commands) then Some(lib.plainHash(commands))
    else if key == "" then None
    else Some(lib.keyedHash(key, commands))
  }

  predicate IsFresh(b: Backup, now: Time, maxAgeHours: int) {
    now - b.createdAt <= Max(1, maxAgeHours) * 3600
  }

  predicate HasFreshBackup(c: Context, d: Device) {
    var b := LatestBackup(c.store, d);
    b.Some? && IsFresh(b.value, c.now, c.settings.backupMaxAgeHours)
  }

  predicate RealApplyFlags(s: Settings) {
    s.allowRealApply && s.labRealApply && !s.productionRealApply && s.secretKey != ""
  }

  function Plan(lib: Library, r: Request): Option<seq<Command>> {
    Render(lib, lib.decide(r.device).family, r.operation, r.parameters)
  }

  /** The stored dry-run covers this plan, secrets included. */
  predicate DryRunCovers(lib: Library, c: Context, dryRun: Option<DryRun>, commands: seq<Command>) {
    && dryRun.Some?
    && if dryRun.value.privateHash.Some? then
       PrivateHash(lib, c.settings.secretKey, commands) == dryRun.value.privateHash
       else !AnySecret(commands)
  }

  /** When each of the ten gates is open. */
  predicate GateOpen(lib: Library, c: Context, r: Request, g: Gate) {
    var runtime := lib.decide(r.device);
    var contract := ContractOf(runtime.family);
    match g
    case EnvironmentFlags => r.realApply ==> RealApplyFlags(c.settings)
    case DeviceAllowlist => r.device.ip in c.settings.allowlist
    case RuntimeDecision =>
      && runtime.transport != UnsupportedTransport && runtime.transport != IcmpOnly
      && (r.operation == ReadBackup || runtime.family !in BLOCKED_FAMILIES)
    case VendorContract =>
      || (contract.LabLevel() && (r.allowCandidate || contract.level == LabCertified))
      || (r.operation == ReadBackup && contract.readOnly != [])
    case CredentialReference => r.credentialRef.Some? && r.credentialRef.value != ""
        && r.credentialRef.value in c.usable
    case FreshBackup => r.operation == ReadBackup || HasFreshBackup(c, r.device.id)
    case LabValidation =>
      r.operation == ReadBackup || LatestValidation(c.store, r.device.id, r.operation, r.device.profile, runtime).Some?
    case SimulationHash =>
      && Plan(lib, r).Some? && Plan(lib, r).value != [] && r.simulationHash == Some(lib.commandHash(Plan(lib, r).value))
      && DryRunCovers(lib, c, GetDryRun(c.store, r.simulationHash.value, r.device.id, r.operation), Plan(lib, r).value)
    case CommandSafety =>
      Plan(lib, r).Some? && (Plan(lib, r).value == []
                             || PrivateHash(lib, c.settings.secretKey, Plan(lib, r).value).Some?)
    case LockConflict => !HasActive(c.store.locks, r.device.id)
  }

  const ENVIRONMENT_GATES: set<Gate> := {EnvironmentFlags, DeviceAllowlist}
  const RUNTIME_GATES: set<Gate> := {RuntimeDecision, VendorContract}
  const EVIDENCE_GATES: set<Gate> := {CredentialReference, FreshBackup, LabValidation, LockConflict}
  const PLAN_GATES: set<Gate> := {CommandSafety, SimulationHash}
  const ALL_GATES: set<Gate> := ENVIRONMENT_GATES + RUNTIME_GATES + EVIDENCE_GATES + PLAN_GATES

  function Decide(lib: Library, c: Context, r: Request): Decision {
    var denied := set g | g in ALL_GATES && !GateOpen(lib, c, r, g);
    var commands := Plan(lib, r).GetOr([]);
    Decision(denied == {}, ALL_GATES - denied, denied, commands, Some(r.device.id), Some(r.operation), r.credentialRef,
             r.simulationHash, if commands == [] then None else Some(lib.commandHash(commands)),
             Some(lib.decide(r.device)), r.realApply)
  }

  /** The gates of `group` have been judged, each one rightly. */
  ghost predicate Judged(lib: Library, c: Context, r: Request, group: set<Gate>, satisfied: set<Gate>,
                         denied: set<Gate>) {
    && (forall g :: g in satisfied <==> g in group && GateOpen(lib, c, r, g))
    && (forall g :: g in denied <==> g in group && !GateOpen(lib, c, r, g))
  }

  method JudgeEnvironment(lib: Library, c: Context, r: Request) returns (satisfied: set<Gate>, denied: set<Gate>)
    ensures Judged(lib, c, r, ENVIRONMENT_GATES, satisfied, denied)
  {
    satisfied, denied := {}, {};
    if r.realApply {
      if !c.settings.allowRealApply { denied := denied + {EnvironmentFlags}; }
      if !c.settings.labRealApply { denied := denied + {EnvironmentFlags}; }
      if c.settings.productionRealApply { denied := denied + {EnvironmentFlags}; }
      if c.settings.secretKey == "" { denied := denied + {EnvironmentFlags}; }
      if EnvironmentFlags !in denied { satisfied := satisfied + {EnvironmentFlags}; }
    } else {
      satisfied := satisfied + {EnvironmentFlags};
    }
    if r.device.ip in c.settings.allowlist {
      satisfied := satisfied + {DeviceAllowlist};
    } else {
      denied := denied + {DeviceAllowlist};
    }
  }

  method JudgeRuntime(lib: Library, c: Context, r: Request) returns (satisfied: set<Gate>, denied: set<Gate>)
    ensures Judged(lib, c, r, RUNTIME_GATES, satisfied, denied)
  {
    satisfied, denied := {}, {};
    var runtime := lib.decide(r.device);
    var contract := ContractOf(runtime.family);
    if runtime.transport == UnsupportedTransport || runtime.transport == IcmpOnly {
      denied := denied + {RuntimeDecision};
    } else if r.operation != ReadBackup && runtime.family in {UnknownFamily, Icmp, GenericSsh, LimitedWeb, NonSwitch} {
      denied := denied + {RuntimeDecision};
    } else if r.operation != ReadBackup && runtime.family in {Eltex, Bulat, Qtech} {
      denied := denied + {RuntimeDecision};
    } else {
      satisfied := satisfied + {RuntimeDecision};
    }
    if contract.LabLevel() && (r.allowCandidate || contract.level == LabCertified) {
      satisfied := satisfied + {VendorContract};
    } else if r.operation == ReadBackup && contract.readOnly != [] {
      satisfied := satisfied + {VendorContract};
    } else {
      denied := denied + {VendorContract};
    }
  }

  method JudgeEvidence(lib: Library, c: Context, r: Request) returns (satisfied: set<Gate>, denied: set<Gate>)
    ensures Judged(lib, c, r, EVIDENCE_GATES, satisfied, denied)
  {
    satisfied, denied := {}, {};
    if r.credentialRef.Some? && r.credentialRef.value != "" && r.credentialRef.value in c.usable {
      satisfied := satisfied + {CredentialReference};
    } else {
      denied := denied + {CredentialReference};
    }
    if r.operation == ReadBackup || HasFreshBackup(c, r.device.id) {
      satisfied := satisfied + {FreshBackup};
    } else {
      denied := denied + {FreshBackup};
    }
    var validation := LatestValidation(c.store, r.device.id, r.operation, r.device.profile, lib.decide(r.device));
    if r.operation == ReadBackup || validation.Some? {
      satisfied := satisfied + {LabValidation};
    } else {
      denied := denied + {LabValidation};
    }
    if HasActive(c.store.locks, r.device.id) {
      denied := denied + {LockConflict};
    } else {
      satisfied := satisfied + {LockConflict};
    }
  }

  method JudgePlan(lib: Library, c: Context, r: Request)
    returns (satisfied: set<Gate>, denied: set<Gate>, commands: seq<Command>, computedHash: Option<Hash>)
    ensures Judged(lib, c, r, PLAN_GATES, satisfied, denied)
    ensures commands == Plan(lib, r).GetOr([])
    ensures computedHash == if commands == [] then None else Some(lib.commandHash(commands))
  {
    satisfied, denied := {}, {};
    var rendered := Render(lib, lib.decide(r.device).family, r.operation, r.parameters);
    commands := rendered.GetOr([]);
    var commandErrors := rendered.None?;
    computedHash := if commands == [] then None else Some(lib.commandHash(commands));
    var computedPrivateHash := None;
    if commands != [] && !commandErrors {
      computedPrivateHash := PrivateHash(lib, c.settings.secretKey, commands);
      commandErrors := computedPrivateHash.None?;
    }
    if commandErrors {
      denied := denied + {CommandSafety};
    } else {
      satisfied := satisfied + {CommandSafety};
    }
    var dryRun := None;
    if r.simulationHash.Some? {
      dryRun := GetDryRun(c.store, r.simulationHash.value, r.device.id, r.operation);
    }
    var matches := dryRun.Some?
      && if dryRun.value.privateHash.Some? then computedPrivateHash == dryRun.value.privateHash
         else !AnySecret(commands);
    if computedHash.Some? && r.simulationHash == computedHash && matches {
      satisfied := satisfied + {SimulationHash};
    } else {
      denied := denied + {SimulationHash};
    }
  }

  lemma JudgedTogether(lib: Library, c: Context, r: Request, group: set<Gate>, satisfied: set<Gate>, denied: set<Gate>,
                       more: set<Gate>, ok: set<Gate>, bad: set<Gate>)
    requires Judged(lib, c, r, group, satisfied, denied) && Judged(lib, c, r, more, ok, bad)
    ensures Judged(lib, c, r, group + more, satisfied + ok, denied + bad)
  {
  }

  lemma JudgedDecides(lib: Library, c: Context, r: Request, satisfied: set<Gate>, denied: set<Gate>)
    requires Judged(lib, c, r, ALL_GATES, satisfied, denied)
    ensures denied == Decide(lib, c, r).denied && satisfied == Decide(lib, c, r).satisfied
  {
    assert denied == set g | g in ALL_GATES && !GateOpen(lib, c, r, g);
    assert satisfied == ALL_GATES - denied;
  }

  /** `evaluate`: gate after gate, collecting the satisfied and the denied ones. */
  method Evaluate(lib: Library, c: Context, r: Request) returns (d: Decision)
    ensures d == Decide(lib, c, r)
  {
    var satisfied, denied := JudgeEnvironment(lib, c, r);
    var ok, bad := JudgeRuntime(lib, c, r);
    JudgedTogether(lib, c, r, ENVIRONMENT_GATES, satisfied, denied, RUNTIME_GATES, ok, bad);
    satisfied, denied := satisfied + ok, denied + bad;
    ok, bad := JudgeEvidence(lib, c, r);
    JudgedTogether(lib, c, r, ENVIRONMENT_GATES + RUNTIME_GATES, satisfied, denied, EVIDENCE_GATES, ok, bad);
    satisfied, denied := satisfied + ok, denied + bad;
    var commands, computedHash;
    ok, bad, commands, computedHash := JudgePlan(lib, c, r);
    JudgedTogether(lib, c, r, ENVIRONMENT_GATES + RUNTIME_GATES + EVIDENCE_GATES, satisfied, denied, PLAN_GATES, ok,
                   bad);
    satisfied, denied := satisfied + ok, denied + bad;
    JudgedDecides(lib, c, r, satisfied, denied);
    d := Decision(denied == {}, satisfied, denied, commands, Some(r.device.id), Some(r.operation), r.credentialRef,
                  r.simulationHash, computedHash, Some(lib.decide(r.device)), r.realApply);
  }

  // ---------------------------------------------------------------------------------------------
  // The executor's own checks
  // ---------------------------------------------------------------------------------------------

  datatype Refusal =
    | NotAllowed | RealNotEvaluated
    | DeviceMismatch | CredentialMismatch | FamilyMismatch | TransportMismatch
    | InvalidOperation | HashMismatch | PlanMismatch | NotAllowlisted | EnvironmentChanged | RuntimeChanged
    | NotEligible | ForbiddenCommand | DryRunGone | SecretNotVerifiable | PrivateHashMismatch | PrivateHashMissing
    | BackupRequired | CertificationRequired | CredentialUnusable | AlreadyLocked

  function BoundaryRefusal(device: InventoryDevice, d: Decision, runtime: Runtime,
                           credential: string): Option<Refusal> {
    if d.device != Some(device.id) then Some(DeviceMismatch)
    else if d.credentialRef != Some(credential) then Some(CredentialMismatch)
    else if d.runtime.None? || d.runtime.value.family != runtime.family then Some(FamilyMismatch)
    else if d.runtime.value.transport != runtime.transport then Some(TransportMismatch)
    else None
  }

  /** The first half of the state checks: decision, settings, runtime and contract. */
  function PlanRefusal(lib: Library, c: Context, device: InventoryDevice, d: Decision, runtime: Runtime,
                       realLab: bool): Option<Refusal> {
    if d.operation.None? then Some(InvalidOperation)
    else if d.commandHash.None? || d.simulationHash != d.commandHash then Some(HashMismatch)
    else if lib.commandHash(d.commands) != d.commandHash.value then Some(PlanMismatch)
    else if device.ip !in c.settings.allowlist then Some(NotAllowlisted)
    else if realLab && !RealApplyFlags(c.settings) then Some(EnvironmentChanged)
    else
      var op, current := d.operation.value, lib.decide(device);
      var contract := ContractOf(current.family);
      if current.family != runtime.family || current.transport != runtime.transport then Some(RuntimeChanged)
      else if op != ReadBackup && (current.family in BLOCKED_FAMILIES || !contract.Supports(op)
                                   || !contract.LabLevel()) then Some(NotEligible)
      else if exists x :: x in d.commands && lib.blocks(current.family, x) then Some(ForbiddenCommand)
      else None
  }

  /** The second half: dry-run, backup and certification. */
  function EvidenceRefusal(lib: Library, c: Context, device: InventoryDevice, op: Operation, hash: Hash,
                           commands: seq<Command>): Option<Refusal> {
    var dryRun := GetDryRun(c.store, hash, device.id, op);
    if dryRun.None? then Some(DryRunGone)
    else if dryRun.value.privateHash.Some? && PrivateHash(lib, c.settings.secretKey, commands).None? then
      Some(SecretNotVerifiable)
    else if dryRun.value.privateHash.Some?
            && PrivateHash(lib, c.settings.secretKey, commands) != dryRun.value.privateHash then
      Some(PrivateHashMismatch)
    else if dryRun.value.privateHash.None? && AnySecret(commands) then Some(PrivateHashMissing)
    else if op == ReadBackup then None
    else if !HasFreshBackup(c, device.id) then Some(BackupRequired)
    else if LatestValidation(c.store, device.id, op, device.profile, lib.decide(device)).None? then
      Some(CertificationRequired)
    else None
  }

  function StateRefusal(lib: Library, c: Context, device: InventoryDevice, d: Decision, runtime: Runtime,
                        realLab: bool): Option<Refusal> {
    if PlanRefusal(lib, c, device, d, runtime, realLab).Some? then PlanRefusal(lib, c, device, d, runtime, realLab)
    else EvidenceRefusal(lib, c, device, d.operation.value, d.simulationHash.value, d.commands)
  }

  /** The checks of `execute`, in order, up to and including the reservation of the device lock. */
  function ExecutionRefusal(lib: Library, c: Context, device: InventoryDevice, d: Decision, runtime: Runtime,
                            credential: string, realLab: bool): Option<Refusal> {
    if !d.allowed then Some(NotAllowed)
    else if realLab && !d.realApply then Some(RealNotEvaluated)
    else if BoundaryRefusal(device, d, runtime, credential).Some? then BoundaryRefusal(device, d, runtime, credential)
    else if StateRefusal(lib, c, device, d, runtime, realLab).Some? then
      StateRefusal(lib, c, device, d, runtime, realLab)
    else if credential !in c.usable then Some(CredentialUnusable)
    else if !CanReserve(c.store, device.id) then Some(AlreadyLocked)
    else None
  }

  /** `r` as it would be asked again for `device` and for the kind of run at hand. */
  function Again(r: Request, device: InventoryDevice, realLab: bool): Request {
    r.(device := device, realApply := realLab)
  }

  lemma Listed(g: Gate)
    ensures g in ALL_GATES
  {
    match g
    case EnvironmentFlags | DeviceAllowlist | RuntimeDecision | VendorContract | CredentialReference =>
    case FreshBackup | LabValidation | SimulationHash | CommandSafety | LockConflict =>
  }

  lemma AllowedMeansAllOpen(lib: Library, c: Context, r: Request)
    ensures Decide(lib, c, r).allowed <==> forall g :: GateOpen(lib, c, r, g)
  {
    forall g
      ensures GateOpen(lib, c, r, g) <==> g !in Decide(lib, c, r).denied
    {
      Listed(g);
    }
  }

  lemma AcceptedPlanIsAskedFor(lib: Library, past: Context, c: Context, r: Request, device: InventoryDevice,
                               runtime: Runtime, credential: string, realLab: bool)
    requires Decide(lib, past, r).allowed
    requires ExecutionRefusal(lib, c, device, Decide(lib, past, r), runtime, credential, realLab).None?
    ensures lib.decide(device) == lib.decide(r.device) && Plan(lib, Again(r, device, realLab)) == Plan(lib, r)
    ensures forall g :: GateOpen(lib, past, r, g)
    ensures Plan(lib, r) == Some(Decide(lib, past, r).commands)
  {
    AllowedMeansAllOpen(lib, past, r);
    assert GateOpen(lib, past, r, SimulationHash);
  }

  /** The executor's checks on the current state open each gate of a fresh evaluation. */
  lemma AcceptedOpensGate(lib: Library, past: Context, c: Context, r: Request, device: InventoryDevice,
                          runtime: Runtime, credential: string, realLab: bool, g: Gate)
    requires Decide(lib, past, r).allowed
    requires ExecutionRefusal(lib, c, device, Decide(lib, past, r), runtime, credential, realLab).None?
    ensures GateOpen(lib, c, Again(r, device, realLab), g)
  {
    AcceptedPlanIsAskedFor(lib, past, c, r, device, runtime, credential, realLab);
    assert GateOpen(lib, past, r, g);
  }

  /** What the executor accepts, a fresh evaluation of the current state allows. */
  lemma AcceptsOnlyOpenGates(lib: Library, past: Context, c: Context, r: Request, device: InventoryDevice,
                             runtime: Runtime, credential: string, realLab: bool)
    requires Decide(lib, past, r).allowed
    requires ExecutionRefusal(lib, c, device, Decide(lib, past, r), runtime, credential, realLab).None?
    ensures Decide(lib, c, Again(r, device, realLab)).allowed
  {
    forall g ensures GateOpen(lib, c, Again(r, device, realLab), g) {
      AcceptedOpensGate(lib, past, c, r, device, runtime, credential, realLab, g);
    }
    AllowedMeansAllOpen(lib, c, Again(r, device, realLab));
  }

  /** The converse: open gates on the current state leave no state check to fail. */
  lemma OpenGatesPassStateChecks(lib: Library, past: Context, c: Context, r: Request, device: InventoryDevice,
                                 realLab: bool)
    requires ReadOnlyUnblocked(lib)
    requires Decide(lib, past, r).allowed && Decide(lib, c, Again(r, device, realLab)).allowed
    requires device.id == r.device.id && lib.decide(device) == lib.decide(r.device)
    ensures StateRefusal(lib, c, device, Decide(lib, past, r), lib.decide(device), realLab).None?
  {
    OpenGatesPassPlan(lib, past, c, r, device, realLab);
    OpenGatesPassEvidence(lib, past, c, r, device, realLab);
  }

  lemma OpenGatesPassPlan(lib: Library, past: Context, c: Context, r: Request, device: InventoryDevice, realLab: bool)
    requires ReadOnlyUnblocked(lib)
    requires Decide(lib, past, r).allowed && Decide(lib, c, Again(r, device, realLab)).allowed
    requires device.id == r.device.id && lib.decide(device) == lib.decide(r.device)
    ensures PlanRefusal(lib, c, device, Decide(lib, past, r), lib.decide(device), realLab).None?
  {
    var again := Again(r, device, realLab);
    AllowedMeansAllOpen(lib, past, r);
    AllowedMeansAllOpen(lib, c, again);
    assert GateOpen(lib, past, r, SimulationHash);
    assert Decide(lib, past, r).commands == Plan(lib, again).value;
    assert GateOpen(lib, c, again, EnvironmentFlags) && GateOpen(lib, c, again, DeviceAllowlist);
    assert GateOpen(lib, c, again, RuntimeDecision) && GateOpen(lib, c, again, VendorContract);
    assert forall x :: x in Plan(lib, again).value ==> !lib.blocks(lib.decide(device).family, x);
  }

  lemma OpenGatesPassEvidence(lib: Library, past: Context, c: Context, r: Request, device: InventoryDevice,
                              realLab: bool)
    requires Decide(lib, past, r).allowed && Decide(lib, c, Again(r, device, realLab)).allowed
    requires device.id == r.device.id && lib.decide(device) == lib.decide(r.device)
    ensures r.simulationHash.Some?
    ensures EvidenceRefusal(lib, c, device, r.operation, r.simulationHash.value, Decide(lib, past, r).commands).None?
  {
    var again := Again(r, device, realLab);
    AllowedMeansAllOpen(lib, past, r);
    AllowedMeansAllOpen(lib, c, again);
    assert GateOpen(lib, past, r, SimulationHash);
    assert Decide(lib, past, r).commands == Plan(lib, again).value;
    assert GateOpen(lib, c, again, FreshBackup) && GateOpen(lib, c, again, LabValidation);
    assert GateOpen(lib, c, again, SimulationHash) && GateOpen(lib, c, again, CommandSafety);
  }

  /**
   The two implementations of the gates agree on every current state: a decision that was allowed at
   some earlier moment is executed exactly when its device, credential and runtime still match and a
   fresh evaluation, asked for the kind of run at hand, allows it again (and no guard file is left).
   */
  lemma ExecutorRefinesEvaluator(lib: Library, past: Context, c: Context, r: Request, device: InventoryDevice,
                                 runtime: Runtime, credential: string, realLab: bool)
    requires ReadOnlyUnblocked(lib)
    requires Decide(lib, past, r).allowed
    ensures ExecutionRefusal(lib, c, device, Decide(lib, past, r), runtime, credential, realLab).None? <==>
              && (realLab ==> r.realApply)
              && device.id == r.device.id && r.credentialRef == Some(credential)
              && lib.decide(device) == runtime == lib.decide(r.device)
              && Decide(lib, c, Again(r, device, realLab)).allowed
              && device.id !in c.store.guards
  {
    var matches := && (realLab ==> r.realApply)
                   && device.id == r.device.id && r.credentialRef == Some(credential)
                   && lib.decide(device) == runtime == lib.decide(r.device)
                   && Decide(lib, c, Again(r, device, realLab)).allowed
                   && device.id !in c.store.guards;
    if ExecutionRefusal(lib, c, device, Decide(lib, past, r), runtime, credential, realLab).None? {
      AcceptsOnlyOpenGates(lib, past, c, r, device, runtime, credential, realLab);
    }
    if matches {
      OpenGatesPassStateChecks(lib, past, c, r, device, realLab);
      AllowedMeansAllOpen(lib, c, Again(r, device, realLab));
      assert GateOpen(lib, c, Again(r, device, realLab), CredentialReference);
      assert GateOpen(lib, c, Again(r, device, realLab), LockConflict);
    }
  }

  /** Nothing changed since the evaluation: only a guard file left behind can still stop the execution. */
  lemma UnchangedStateExecutes(lib: Library, c: Context, r: Request, realLab: bool)
    requires ReadOnlyUnblocked(lib)
    requires Decide(lib, c, r).allowed && r.credentialRef.Some? && (realLab ==> r.realApply)
    ensures var refusal := ExecutionRefusal(lib, c, r.device, Decide(lib, c, r), lib.decide(r.device),
                                            r.credentialRef.value, realLab);
            if r.device.id in c.store.guards then refusal == Some(AlreadyLocked) else refusal == None
  {
    if r.device.id in c.store.guards {
      GuardedIsLocked(lib, c, r, realLab);
    } else {
      UnguardedExecutes(lib, c, r, realLab);
    }
  }

  lemma UnguardedExecutes(lib: Library, c: Context, r: Request, realLab: bool)
    requires ReadOnlyUnblocked(lib)
    requires Decide(lib, c, r).allowed && r.credentialRef.Some? && (realLab ==> r.realApply)
             && r.device.id !in c.store.guards
    ensures ExecutionRefusal(lib, c, r.device, Decide(lib, c, r), lib.decide(r.device), r.credentialRef.value,
                             realLab) == None
  {
    AllowedAgain(lib, c, c, r, realLab);
    ExecutorRefinesEvaluator(lib, c, c, r, r.device, lib.decide(r.device), r.credentialRef.value, realLab);
  }

  /** Without the guard it would be executed, and every check but the lock reads no guard. */
  lemma GuardedIsLocked(lib: Library, c: Context, r: Request, realLab: bool)
    requires ReadOnlyUnblocked(lib)
    requires Decide(lib, c, r).allowed && r.credentialRef.Some? && (realLab ==> r.realApply)
             && r.device.id in c.store.guards
    ensures ExecutionRefusal(lib, c, r.device, Decide(lib, c, r), lib.decide(r.device), r.credentialRef.value,
                             realLab) == Some(AlreadyLocked)
  {
    var free := c.(store := c.store.(guards := {}));
    AllowedAgain(lib, c, free, r, realLab);
    ExecutorRefinesEvaluator(lib, c, free, r, r.device, lib.decide(r.device), r.credentialRef.value, realLab);
  }

  /** No gate reads the guard files, and a run that asks for less than was evaluated is allowed too. */
  lemma AllowedAgain(lib: Library, c: Context, free: Context, r: Request, realLab: bool)
    requires Decide(lib, c, r).allowed && (realLab ==> r.realApply)
    requires free == c || free == c.(store := c.store.(guards := {}))
    ensures Decide(lib, free, Again(r, r.device, realLab)).allowed
  {
    AllowedMeansAllOpen(lib, c, r);
    forall g ensures GateOpen(lib, free, Again(r, r.device, realLab), g) {
      assert GateOpen(lib, c, r, g);
      assert Plan(lib, Again(r, r.device, realLab)) == Plan(lib, r);
    }
    AllowedMeansAllOpen(lib, free, Again(r, r.device, realLab));
  }

  // ---------------------------------------------------------------------------------------------
  // The gates in the terms of an operator
  // ---------------------------------------------------------------------------------------------

  const CONFIGURABLE: set<Family> := {CiscoIos, CiscoNxos, CiscoAsa, HuaweiVrp, HpeComware, HpeProcurve, ArubaOsSwitch,
                                      DellOs}

  /** These commands, none of them forbidden, are what the operation means on the family. */
  ghost predicate IsPlan(lib: Library, f: Family, op: Operation, parameters: string, commands: seq<Command>) {
    && op in ContractOf(f).supported && op !in ContractOf(f).forbidden
    && if op == ReadBackup then commands == ContractOf(f).readOnly
       else
         && op in ContractOf(f).templates && lib.validParameters(op, parameters)
         && commands == lib.format(f, op, parameters) && forall x :: x in commands ==> !lib.blocks(f, x)
  }

  /** The hash a plan is stored under; a plan with a secret has one only with a key. */
  ghost predicate IsPrivateHash(lib: Library, key: string, commands: seq<Command>, h: Hash) {
    if exists x :: x in commands && x.secret then key != "" && h == lib.keyedHash(key, commands)
    else h == lib.plainHash(commands)
  }

  ghost predicate FreshlyBackedUp(c: Context, d: Device) {
    exists b :: b in c.store.backups && b.device == d && b.sanitized && b.fileUsable
                && c.now - b.createdAt <= Max(1, c.settings.backupMaxAgeHours) * 3600
  }

  ghost predicate IsCertified(c: Context, device: InventoryDevice, op: Operation, runtime: Runtime) {
    exists v :: v in c.store.validations && v.device == device.id && v.capability == op
                && CertifiesProfile(v, device.profile, runtime)
  }

  /** The dry-run stored under the hash is of this very plan, secrets included. */
  ghost predicate IsRehearsed(lib: Library, c: Context, d: Device, op: Operation, commands: seq<Command>) {
    match GetDryRun(c.store, lib.commandHash(commands), d, op)
    case None => false
    case Some(r) =>
      match r.privateHash
      case None => forall x :: x in commands ==> !x.secret
      case Some(h) => IsPrivateHash(lib, c.settings.secretKey, commands, h)
  }

  ghost predicate MayApply(lib: Library, c: Context, r: Request, commands: seq<Command>) {
    var runtime, op := lib.decide(r.device), r.operation;
    && (r.realApply ==> c.settings.allowRealApply && c.settings.labRealApply && !c.settings.productionRealApply
                        && c.settings.secretKey != "")
    && r.device.ip in c.settings.allowlist
    && runtime.transport in {Netmiko, Paramiko, CustomCli}
    && (op != ReadBackup ==> runtime.family in CONFIGURABLE && FreshlyBackedUp(c, r.device.id)
                             && IsCertified(c, r.device, op, runtime))
    && (ContractOf(runtime.family).level == LabCertified
        || (ContractOf(runtime.family).level == LabCandidate && r.allowCandidate)
        || (op == ReadBackup && ContractOf(runtime.family).readOnly != []))
    && r.credentialRef != None && r.credentialRef != Some("") && r.credentialRef.value in c.usable
    && IsPlan(lib, runtime.family, op, r.parameters, commands) && commands != []
    && (exists h :: IsPrivateHash(lib, c.settings.secretKey, commands, h))
    && r.simulationHash == Some(lib.commandHash(commands)) && IsRehearsed(lib, c, r.device.id, op, commands)
    && forall l :: l in c.store.locks && l.device == r.device.id ==> l.status == Released
  }

  lemma RenderMeans(lib: Library, f: Family, op: Operation, parameters: string)
    ensures match Render(lib, f, op, parameters)
            case None => forall commands :: !IsPlan(lib, f, op, parameters, commands)
            case Some(commands) => IsPlan(lib, f, op, parameters, commands)
    ensures forall commands :: IsPlan(lib, f, op, parameters, commands) ==>
              Render(lib, f, op, parameters) == Some(commands)
  {
  }

  lemma PrivateHashMeans(lib: Library, key: string, commands: seq<Command>, h: Hash)
    ensures PrivateHash(lib, key, commands) == Some(h) <==> IsPrivateHash(lib, key, commands, h)
    ensures PrivateHash(lib, key, commands) == None <==> forall x :: !IsPrivateHash(lib, key, commands, x)
  {
    if PrivateHash(lib, key, commands).Some? {
      assert IsPrivateHash(lib, key, commands, PrivateHash(lib, key, commands).value);
    }
  }

  lemma FreshBackupMeans(c: Context, d: Device)
    ensures HasFreshBackup(c, d) <==> FreshlyBackedUp(c, d)
  {
    LatestBackupMeans(c.store, d);
  }

  lemma CertifiedMeans(c: Context, device: InventoryDevice, op: Operation, runtime: Runtime)
    ensures LatestValidation(c.store, device.id, op, device.profile, runtime).Some? <==>
              IsCertified(c, device, op, runtime)
  {
    LatestValidationMeans(c.store, device.id, op, device.profile, runtime);
  }

  lemma RehearsedMeans(lib: Library, c: Context, d: Device, op: Operation, commands: seq<Command>)
    ensures DryRunCovers(lib, c, GetDryRun(c.store, lib.commandHash(commands), d, op), commands) <==>
              IsRehearsed(lib, c, d, op, commands)
  {
    var found := GetDryRun(c.store, lib.commandHash(commands), d, op);
    if found.Some? && found.value.privateHash.Some? {
      PrivateHashMeans(lib, c.settings.secretKey, commands, found.value.privateHash.value);
    }
  }

  lemma UnlockedMeans(locks: seq<LockRecord>, d: Device)
    ensures !HasActive(locks, d) <==> forall l :: l in locks && l.device == d ==> l.status == Released
  {
    if HasActive(locks, d) {
      var i :| 0 <= i < |locks| && IsActive(locks[i], d);
      assert locks[i] in locks;
    }
  }

  lemma GatesMean(lib: Library, c: Context, r: Request)
    requires Plan(lib, r).Some?
    ensures MayApply(lib, c, r, Plan(lib, r).value) <==> forall g :: GateOpen(lib, c, r, g)
  {
    var commands := Plan(lib, r).value;
    if MayApply(lib, c, r, commands) {
      forall g
        ensures GateOpen(lib, c, r, g)
      {
        MayApplyOpens(lib, c, r, commands, g);
      }
    }
    if forall g :: GateOpen(lib, c, r, g) {
      OpenMayApply(lib, c, r, commands);
    }
  }

  lemma MayApplyOpens(lib: Library, c: Context, r: Request, commands: seq<Command>, g: Gate)
    requires MayApply(lib, c, r, commands) && Plan(lib, r) == Some(commands)
    ensures GateOpen(lib, c, r, g)
  {
    match g
    case FreshBackup => FreshBackupMeans(c, r.device.id);
    case LabValidation => CertifiedMeans(c, r.device, r.operation, lib.decide(r.device));
    case SimulationHash => RehearsedMeans(lib, c, r.device.id, r.operation, commands);
    case LockConflict => UnlockedMeans(c.store.locks, r.device.id);
    case CommandSafety =>
      var h :| IsPrivateHash(lib, c.settings.secretKey, commands, h);
      PrivateHashMeans(lib, c.settings.secretKey, commands, h);
    case _ =>
  }

  /** What the open gates say about the evidence of a configuration. */
  lemma OpenEvidence(lib: Library, c: Context, r: Request)
    requires r.operation != ReadBackup && GateOpen(lib, c, r, RuntimeDecision) && GateOpen(lib, c, r, FreshBackup)
    requires GateOpen(lib, c, r, LabValidation)
    ensures FreshlyBackedUp(c, r.device.id) && IsCertified(c, r.device, r.operation, lib.decide(r.device))
  {
    FreshBackupMeans(c, r.device.id);
    CertifiedMeans(c, r.device, r.operation, lib.decide(r.device));
  }

  /** And about its plan. */
  lemma OpenPlan(lib: Library, c: Context, r: Request, commands: seq<Command>)
    requires Plan(lib, r) == Some(commands) && GateOpen(lib, c, r, SimulationHash)
    requires GateOpen(lib, c, r, CommandSafety)
    ensures commands != [] && IsPlan(lib, lib.decide(r.device).family, r.operation, r.parameters, commands)
    ensures exists h :: IsPrivateHash(lib, c.settings.secretKey, commands, h)
    ensures r.simulationHash == Some(lib.commandHash(commands))
            && IsRehearsed(lib, c, r.device.id, r.operation, commands)
  {
    RenderMeans(lib, lib.decide(r.device).family, r.operation, r.parameters);
    RehearsedMeans(lib, c, r.device.id, r.operation, commands);
    var h := PrivateHash(lib, c.settings.secretKey, commands).value;
    PrivateHashMeans(lib, c.settings.secretKey, commands, h);
  }

  lemma OpenRuntime(lib: Library, c: Context, r: Request)
    requires GateOpen(lib, c, r, RuntimeDecision) && Plan(lib, r).Some?
    ensures lib.decide(r.device).transport in {Netmiko, Paramiko, CustomCli}
    ensures r.operation != ReadBackup ==> lib.decide(r.device).family in CONFIGURABLE
  {
    RenderMeans(lib, lib.decide(r.device).family, r.operation, r.parameters);
  }

  lemma OpenMayApply(lib: Library, c: Context, r: Request, commands: seq<Command>)
    requires Plan(lib, r) == Some(commands) && forall g :: GateOpen(lib, c, r, g)
    ensures MayApply(lib, c, r, commands)
  {
    assert GateOpen(lib, c, r, EnvironmentFlags) && GateOpen(lib, c, r, DeviceAllowlist);
    assert GateOpen(lib, c, r, VendorContract) && GateOpen(lib, c, r, CredentialReference);
    assert GateOpen(lib, c, r, LockConflict);
    OpenRuntime(lib, c, r);
    if r.operation != ReadBackup {
      OpenEvidence(lib, c, r);
    }
    OpenPlan(lib, c, r, commands);
    UnlockedMeans(c.store.locks, r.device.id);
  }

  /** An evaluation allows exactly what an operator would call permitted, and then for exactly that plan. */
  lemma AllowedExactly(lib: Library, c: Context, r: Request)
    ensures Decide(lib, c, r).allowed <==> exists commands :: MayApply(lib, c, r, commands)
    ensures forall commands :: MayApply(lib, c, r, commands) ==> Decide(lib, c, r).commands == commands
  {
    AllowedMeansAllOpen(lib, c, r);
    RenderMeans(lib, lib.decide(r.device).family, r.operation, r.parameters);
    if Decide(lib, c, r).allowed {
      assert GateOpen(lib, c, r, SimulationHash);
    }
    if Plan(lib, r).Some? {
      GatesMean(lib, c, r);
    }
  }

  lemma DeniedMeansClosed(lib: Library, c: Context, r: Request, g: Gate)
    ensures g in Decide(lib, c, r).denied <==> !GateOpen(lib, c, r, g)
    ensures g in Decide(lib, c, r).satisfied <==> GateOpen(lib, c, r, g)
  {
    Listed(g);
  }

  /** Which of the two sets of a decision each gate of the request itself and of the vendor contract is in, and why. */
  lemma RequestGatesExactly(lib: Library, c: Context, r: Request)
    ensures var d, runtime, op := Decide(lib, c, r), lib.decide(r.device), r.operation;
            var contract := ContractOf(runtime.family);
            && d.satisfied !! d.denied
            && (EnvironmentFlags in d.denied <==>
                  r.realApply && (!c.settings.allowRealApply || !c.settings.labRealApply
                                  || c.settings.productionRealApply || c.settings.secretKey == ""))
            && (DeviceAllowlist in d.denied <==> r.device.ip !in c.settings.allowlist)
            && (RuntimeDecision in d.denied <==>
                  runtime.transport in {UnsupportedTransport, IcmpOnly}
                  || (op != ReadBackup && runtime.family !in CONFIGURABLE))
            && (VendorContract in d.satisfied <==>
                  || contract.level == LabCertified || (contract.level == LabCandidate && r.allowCandidate)
                  || (op == ReadBackup && contract.readOnly != []))
            && (CredentialReference in d.denied <==>
                  match r.credentialRef case None => true case Some(x) => x == "" || x !in c.usable)
  {
    DeniedMeansClosed(lib, c, r, EnvironmentFlags);
    DeniedMeansClosed(lib, c, r, DeviceAllowlist);
    DeniedMeansClosed(lib, c, r, RuntimeDecision);
    DeniedMeansClosed(lib, c, r, VendorContract);
    DeniedMeansClosed(lib, c, r, CredentialReference);
  }

  lemma LockGateExactly(lib: Library, c: Context, r: Request)
    ensures LockConflict in Decide(lib, c, r).denied <==>
              exists l :: l in c.store.locks && l.device == r.device.id && l.status != Released
  {
    DeniedMeansClosed(lib, c, r, LockConflict);
    UnlockedMeans(c.store.locks, r.device.id);
  }

  /** The same for the gates that look at what was recorded before. */
  lemma RecordGatesExactly(lib: Library, c: Context, r: Request)
    ensures var d, op := Decide(lib, c, r), r.operation;
            && (FreshBackup in d.denied <==> op != ReadBackup && !FreshlyBackedUp(c, r.device.id))
            && (LabValidation in d.denied <==>
                  op != ReadBackup && !IsCertified(c, r.device, op, lib.decide(r.device)))
            && (LockConflict in d.denied <==>
                  exists l :: l in c.store.locks && l.device == r.device.id && l.status != Released)
  {
    DeniedMeansClosed(lib, c, r, FreshBackup);
    DeniedMeansClosed(lib, c, r, LabValidation);
    FreshBackupMeans(c, r.device.id);
    CertifiedMeans(c, r.device, r.operation, lib.decide(r.device));
    LockGateExactly(lib, c, r);
  }

  ghost predicate HasPlan(lib: Library, r: Request, commands: seq<Command>) {
    IsPlan(lib, lib.decide(r.device).family, r.operation, r.parameters, commands)
  }

  lemma PlanMeans(lib: Library, r: Request)
    ensures forall commands :: HasPlan(lib, r, commands) <==> Plan(lib, r) == Some(commands)
    ensures Plan(lib, r).Some? ==> HasPlan(lib, r, Plan(lib, r).value)
  {
    RenderMeans(lib, lib.decide(r.device).family, r.operation, r.parameters);
  }

  /** And for the two gates about the plan. */
  lemma PlanGatesExactly(lib: Library, c: Context, r: Request, commands: seq<Command>)
    requires HasPlan(lib, r, commands)
    ensures var d := Decide(lib, c, r);
            && d.commands == commands
            && (CommandSafety in d.satisfied <==>
                  commands == [] || exists h :: IsPrivateHash(lib, c.settings.secretKey, commands, h))
            && (SimulationHash in d.satisfied <==>
                  commands != [] && r.simulationHash == Some(lib.commandHash(commands))
                  && IsRehearsed(lib, c, r.device.id, r.operation, commands))
  {
    PlanMeans(lib, r);
    DeniedMeansClosed(lib, c, r, CommandSafety);
    DeniedMeansClosed(lib, c, r, SimulationHash);
    RehearsedMeans(lib, c, r.device.id, r.operation, commands);
    if x :| IsPrivateHash(lib, c.settings.secretKey, commands, x) {
      PrivateHashMeans(lib, c.settings.secretKey, commands, x);
    } else {
      PrivateHashGone(lib, c.settings.secretKey, commands);
    }
  }

  lemma PrivateHashGone(lib: Library, key: string, commands: seq<Command>)
    requires forall h :: !IsPrivateHash(lib, key, commands, h)
    ensures PrivateHash(lib, key, commands) == None
  {
    if PrivateHash(lib, key, commands).Some? {
      PrivateHashMeans(lib, key, commands, PrivateHash(lib, key, commands).value);
    }
  }

  /** Without a plan both are denied, and there is nothing to run. */
  lemma NoPlanDenied(lib: Library, c: Context, r: Request)
    requires forall commands :: !HasPlan(lib, r, commands)
    ensures var d := Decide(lib, c, r);
            d.commands == [] && d.commandHash == None && CommandSafety in d.denied && SimulationHash in d.denied
  {
    PlanMeans(lib, r);
    DeniedMeansClosed(lib, c, r, CommandSafety);
    DeniedMeansClosed(lib, c, r, SimulationHash);
  }

  // ---------------------------------------------------------------------------------------------
  // The executor in the same terms
  // ---------------------------------------------------------------------------------------------

  /** The decision is about this device, credential and runtime, and about this very plan. */
  ghost predicate Fits(lib: Library, device: InventoryDevice, d: Decision, credential: string) {
    && d.device == Some(device.id) && d.credentialRef == Some(credential) && d.runtime == Some(lib.decide(device))
    && d.operation.Some? && d.commandHash == Some(lib.commandHash(d.commands)) && d.simulationHash == d.commandHash
  }

  /** The device may be configured by the operation: its family, its contract and its evidence say so. */
  ghost predicate MayConfigure(lib: Library, c: Context, device: InventoryDevice, op: Operation) {
    var runtime := lib.decide(device);
    && runtime.family in CONFIGURABLE && ContractOf(runtime.family).level in {LabCandidate, LabCertified}
    && op in ContractOf(runtime.family).supported && op !in ContractOf(runtime.family).forbidden
    && FreshlyBackedUp(c, device.id) && IsCertified(c, device, op, runtime)
  }

  lemma BoundaryExactly(device: InventoryDevice, d: Decision, runtime: Runtime, credential: string)
    ensures BoundaryRefusal(device, d, runtime, credential) == None <==>
              d.device == Some(device.id) && d.credentialRef == Some(credential) && d.runtime == Some(runtime)
  {
  }

  lemma PlanAcceptedExactly(lib: Library, c: Context, device: InventoryDevice, d: Decision, runtime: Runtime,
                            realLab: bool)
    ensures PlanRefusal(lib, c, device, d, runtime, realLab) == None <==>
              && d.operation.Some? && d.commandHash == Some(lib.commandHash(d.commands))
              && d.simulationHash == d.commandHash && device.ip in c.settings.allowlist
              && (realLab ==> c.settings.allowRealApply && c.settings.labRealApply
                              && !c.settings.productionRealApply && c.settings.secretKey != "")
              && runtime == lib.decide(device)
              && (d.operation.value != ReadBackup ==>
                    && runtime.family in CONFIGURABLE
                    && ContractOf(runtime.family).level in {LabCandidate, LabCertified}
                    && d.operation.value in ContractOf(runtime.family).supported
                    && d.operation.value !in ContractOf(runtime.family).forbidden)
              && forall x :: x in d.commands ==> !lib.blocks(runtime.family, x)
  {
  }

  lemma EvidenceAcceptedExactly(lib: Library, c: Context, device: InventoryDevice, op: Operation,
                                commands: seq<Command>)
    ensures EvidenceRefusal(lib, c, device, op, lib.commandHash(commands), commands) == None <==>
              && IsRehearsed(lib, c, device.id, op, commands)
              && (op != ReadBackup ==> FreshlyBackedUp(c, device.id) && IsCertified(c, device, op, lib.decide(device)))
  {
    RehearsedMeans(lib, c, device.id, op, commands);
    FreshBackupMeans(c, device.id);
    CertifiedMeans(c, device, op, lib.decide(device));
  }

  /**
   What the executor accepts, of any decision, even one that no evaluation made: exactly an allowing one that fits
   device, credential, runtime and plan, for an allowlisted and unlocked device, with a usable credential, no forbidden
   command, the plan rehearsed and, to configure, everything that takes; on the real transport also its flags.
   */
  lemma AcceptedExactly(lib: Library, c: Context, device: InventoryDevice, d: Decision, runtime: Runtime,
                        credential: string, realLab: bool)
    ensures ExecutionRefusal(lib, c, device, d, runtime, credential, realLab) == None <==>
              && d.allowed && runtime == lib.decide(device) && Fits(lib, device, d, credential)
              && (realLab ==> d.realApply && c.settings.allowRealApply && c.settings.labRealApply
                              && !c.settings.productionRealApply && c.settings.secretKey != "")
              && device.ip in c.settings.allowlist && credential in c.usable
              && (forall x :: x in d.commands ==> !lib.blocks(runtime.family, x))
              && IsRehearsed(lib, c, device.id, d.operation.value, d.commands)
              && (d.operation.value != ReadBackup ==> MayConfigure(lib, c, device, d.operation.value))
              && device.id !in c.store.guards
              && forall l :: l in c.store.locks && l.device == device.id ==> l.status == Released
  {
    BoundaryExactly(device, d, runtime, credential);
    PlanAcceptedExactly(lib, c, device, d, runtime, realLab);
    if d.operation.Some? {
      EvidenceAcceptedExactly(lib, c, device, d.operation.value, d.commands);
    }
    UnlockedMeans(c.store.locks, device.id);
  }
}
