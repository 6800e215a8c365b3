/** Device families, operations and the facts of the vendor contract table that the lab gates use. */
module VendorContracts {
  datatype Operation = ReadBackup | PasswordChange | VlanCreate | VlanAssignPort | PortDescription | PortEnableDisable
    | AclUpdate

  datatype Family =
    | CiscoIos | CiscoNxos | CiscoAsa | HuaweiVrp | HpeComware | HpeProcurve | ArubaOsSwitch | Qtech
    | Eltex | Bulat | DellOs | LimitedWeb | NonSwitch | GenericSsh | Icmp | UnknownFamily

  datatype Transport = Netmiko | Paramiko | CustomCli | IcmpOnly | UnsupportedTransport

  datatype SupportLevel = Unsupported | ReadOnlyOnly | DryRunOnly | LabCandidate | LabCertified | ProductionCandidate
    | ProductionCertified

  datatype Command = Command(text: string, secret: bool)

  datatype Contract = Contract(level: SupportLevel, supported: set<Operation>, forbidden: set<Operation>,
                               readOnly: seq<Command>, templates: set<Operation>)
  {
    predicate Supports(op: Operation) {
      op in supported && op !in forbidden
    }

    predicate LabLevel() {
      level == LabCandidate || level == LabCertified
    }
  }

  const ALL_OPERATIONS: set<Operation> :=
    {ReadBackup, PasswordChange, VlanCreate, VlanAssignPort, PortDescription, PortEnableDisable, AclUpdate}

  const SHOW_RUN := [Command("show running-config", false)]
  const DISPLAY_CURRENT := [Command("display current-configuration", false)]

  function ReadOnlyContract(level: SupportLevel): Contract {
    Contract(level, {ReadBackup}, ALL_OPERATIONS - {ReadBackup}, SHOW_RUN, {})
  }

  function NoCliContract(level: SupportLevel): Contract {
    Contract(level, {}, ALL_OPERATIONS, [], {})
  }

  function Candidate(readOnly: seq<Command>, templates: set<Operation>): Contract {
    Contract(LabCandidate, ALL_OPERATIONS, {}, readOnly, templates)
  }

  function ContractOf(family: Family): Contract {
    match family
    case CiscoIos => Candidate(SHOW_RUN, {PasswordChange, VlanCreate, VlanAssignPort})
    case CiscoNxos => Candidate(SHOW_RUN, {})
    case CiscoAsa => ReadOnlyContract(DryRunOnly)
    case HuaweiVrp => Candidate(DISPLAY_CURRENT, {PasswordChange, VlanCreate})
    case HpeComware => Candidate(DISPLAY_CURRENT, {VlanCreate, VlanAssignPort})
    case HpeProcurve => Candidate(SHOW_RUN, {VlanCreate, VlanAssignPort})
    case ArubaOsSwitch => Candidate(SHOW_RUN, {})
    case Qtech => ReadOnlyContract(ReadOnlyOnly)
    case DellOs => Candidate(SHOW_RUN, {VlanCreate})
    case LimitedWeb => NoCliContract(Unsupported)
    case NonSwitch => NoCliContract(Unsupported)
    case Eltex => ReadOnlyContract(ReadOnlyOnly)
    case Bulat => ReadOnlyContract(ReadOnlyOnly)
    case GenericSsh => ReadOnlyContract(ReadOnlyOnly)
    case Icmp => NoCliContract(ReadOnlyOnly)
    case UnknownFamily => NoCliContract(Unsupported)
  }

  /** The table read by columns: which families each kind of entry is for. */
  lemma TableByColumn(f: Family)
    ensures PasswordChange in ContractOf(f).templates <==> f in {CiscoIos, HuaweiVrp}
    ensures VlanCreate in ContractOf(f).templates <==> f in {CiscoIos, HuaweiVrp, HpeComware, HpeProcurve, DellOs}
    ensures VlanAssignPort in ContractOf(f).templates <==> f in {CiscoIos, HpeComware, HpeProcurve}
    ensures forall op :: op in ContractOf(f).templates ==> op in {PasswordChange, VlanCreate, VlanAssignPort}
    ensures ContractOf(f).level == LabCandidate <==>
              f in {CiscoIos, CiscoNxos, HuaweiVrp, HpeComware, HpeProcurve, ArubaOsSwitch, DellOs}
    ensures ContractOf(f).level == ReadOnlyOnly <==> f in {Qtech, Eltex, Bulat, GenericSsh, Icmp}
    ensures ContractOf(f).level == DryRunOnly <==> f == CiscoAsa
    ensures ContractOf(f).level == Unsupported <==> f in {LimitedWeb, NonSwitch, UnknownFamily}
    ensures ContractOf(f).Supports(ReadBackup) <==> ContractOf(f).readOnly != []
    ensures forall op :: op != ReadBackup ==> (ContractOf(f).Supports(op) <==> ContractOf(f).level == LabCandidate)
    ensures ContractOf(f).readOnly == DISPLAY_CURRENT <==> f in {HuaweiVrp, HpeComware}
    ensures ContractOf(f).readOnly == [] <==> f in {LimitedWeb, NonSwitch, Icmp, UnknownFamily}
    ensures ContractOf(f).readOnly in [SHOW_RUN, DISPLAY_CURRENT, []]
    ensures forall x :: x in ContractOf(f).readOnly ==> !x.secret
  {
  }
}
