/**
 Inventory import: the rows of a batch are processed one by one against the device table, which each accepted row
 updates or extends. Normalization and credential lookup are inputs: a row arrives with their outcome.
 */
module InventoryImport {
  import opened Wrappers

  type Text = string

  /**
   A device; `hostname` may be absent, `attributes` are its remaining metadata, `hasCredential` its credential
   status.
   */
  datatype Device = Device(ip: Text, hostname: Option<Text>, attributes: Text, hasCredential: bool)

  /** `credential` is the stored credential that the row's credential name was found to mean. */
  datatype Row = Malformed | Row(ip: Text, hostname: Option<Text>, attributes: Option<Text>, credential: Option<nat>)

  datatype Assignment = Assignment(credential: nat, ip: Text)

  datatype RowStatus = Valid | Invalid | Created | Updated

  datatype Counters = Counters(total: nat, valid: nat, invalid: nat, created: nat, updated: nat)

  type Table = seq<Device>

  function FindByIp(devices: Table, ip: Text): (i: nat)
    ensures i <= |devices| && (i < |devices| ==> devices[i].ip == ip)
    ensures forall j :: 0 <= j < i ==> devices[j].ip != ip
  {
    if devices == [] || devices[0].ip == ip then 0 else 1 + FindByIp(devices[1..], ip)
  }

  function FindByHostname(devices: Table, hostname: Text): (i: nat)
    ensures i <= |devices| && (i < |devices| ==> devices[i].hostname == Some(hostname))
    ensures forall j :: 0 <= j < i ==> devices[j].hostname != Some(hostname)
  {
    if devices == [] || devices[0].hostname == Some(hostname) then 0 else 1 + FindByHostname(devices[1..], hostname)
  }

  /** A row sets what it has and leaves the rest. */
  function ApplyMetadata(d: Device, row: Row): Device
    requires row.Row?
  {
    Device(row.ip, if row.hostname.Some? then row.hostname else d.hostname, row.attributes.GetOr(d.attributes),
           row.credential.Some?)
  }

  function Upsert(devices: Table, row: Row): Table
    requires row.Row?
  {
    var i := FindByIp(devices, row.ip);
    if i < |devices| then devices[i := ApplyMetadata(devices[i], row)]
    else devices + [ApplyMetadata(Device(row.ip, None, "", false), row)]
  }

  predicate HostnameTaken(devices: Table, row: Row)
    requires row.Row?
  {
    row.hostname.Some? && var h := FindByHostname(devices, row.hostname.value);
    h < |devices| && h != FindByIp(devices, row.ip)
  }

  function Status(devices: Table, row: Row, strict: bool, dryRun: bool): RowStatus {
    if row.Malformed? || HostnameTaken(devices, row) || (strict && row.credential == None) then Invalid
    else if dryRun then Valid
    else if FindByIp(devices, row.ip) == |devices| then Created else Updated
  }

  function After(devices: Table, row: Row, strict: bool, dryRun: bool): Table {
    if Status(devices, row, strict, dryRun) in {Created, Updated} then Upsert(devices, row) else devices
  }

  /** The table after the rows of a batch. */
  function Import(devices: Table, rows: seq<Row>, strict: bool, dryRun: bool): Table
    decreases |rows|
  {
    if rows == [] then devices
    else After(Import(devices, rows[..|rows| - 1], strict, dryRun), rows[|rows| - 1], strict, dryRun)
  }

  function Statuses(devices: Table, rows: seq<Row>, strict: bool, dryRun: bool): (statuses: seq<RowStatus>)
    ensures |statuses| == |rows|
    decreases |rows|
  {
    if rows == [] then []
    else
      var before := rows[..|rows| - 1];
      Statuses(devices, before, strict, dryRun)
        + [Status(Import(devices, before, strict, dryRun), rows[|rows| - 1], strict, dryRun)]
  }

  function AssignmentOf(row: Row, status: RowStatus): seq<Assignment> {
    if row.Row? && status in {Created, Updated} && row.credential.Some? then [Assignment(row.credential.value, row.ip)]
    else []
  }

  /** The credential assignments that the accepted rows add. */
  function Assignments(rows: seq<Row>, statuses: seq<RowStatus>): seq<Assignment>
    requires |rows| == |statuses|
    decreases |rows|
  {
    if rows == [] then []
    else
      var n := |rows| - 1;
      Assignments(rows[..n], statuses[..n]) + AssignmentOf(rows[n], statuses[n])
  }

  function Count(statuses: seq<RowStatus>, wanted: set<RowStatus>): (n: nat)
    decreases |statuses|
  {
    if statuses == [] then 0
    else Count(statuses[..|statuses| - 1], wanted) + if statuses[|statuses| - 1] in wanted then 1 else 0
  }

  class InventoryValidationService {
    var devices: Table
    var assignments: seq<Assignment>

    constructor ()
      ensures devices == [] && assignments == []
    {
      devices, assignments := [], [];
    }

    method ImportInventory(rows: seq<Row>, strict: bool, dryRun: bool)
        returns (statuses: seq<RowStatus>, counters: Counters)
      modifies this
      ensures devices == Import(old(devices), rows, strict, dryRun)
              && statuses == Statuses(old(devices), rows, strict, dryRun)
      ensures assignments == old(assignments) + Assignments(rows, statuses)
      ensures counters == Counters(|rows|, Count(statuses, {Valid, Created, Updated}), Count(statuses, {Invalid}),
                                   Count(statuses, {Created}), Count(statuses, {Updated}))
    {
      statuses := [];
      for k := 0 to |rows|
        invariant devices == Import(old(devices), rows[..k], strict, dryRun)
        invariant statuses == Statuses(old(devices), rows[..k], strict, dryRun)
        invariant assignments == old(assignments) + Assignments(rows[..k], statuses)
      {
        OneMoreRow(old(devices), rows, strict, dryRun, k, statuses);
        var status := ProcessRow(rows[k], strict, dryRun);
        Associative(old(assignments), Assignments(rows[..k], statuses), AssignmentOf(rows[k], status));
        statuses := statuses + [status];
      }
      assert rows[..|rows|] == rows;
      counters := FinishBatch(statuses);
    }

    method ProcessRow(row: Row, strict: bool, dryRun: bool) returns (status: RowStatus)
      modifies this
      ensures devices == After(old(devices), row, strict, dryRun) && status == Status(old(devices), row, strict, dryRun)
      ensures assignments == old(assignments) + AssignmentOf(row, status)
    {
      if row.Malformed? {
        return Invalid;
      }
      if row.hostname.Some? {
        var h := FindByHostname(devices, row.hostname.value);
        if h < |devices| && h != FindByIp(devices, row.ip) {
          return Invalid;
        }
      }
      if strict && row.credential == None {
        return Invalid;
      }
      if dryRun {
        return Valid;
      }
      var created := UpsertDevice(row);
      if row.credential.Some? {
        assignments := assignments + [Assignment(row.credential.value, row.ip)];
      }
      status := if created then Created else Updated;
    }

    method UpsertDevice(row: Row) returns (created: bool)
      requires row.Row?
      modifies this`devices
      ensures devices == Upsert(old(devices), row) && created == (FindByIp(old(devices), row.ip) == |old(devices)|)
    {
      var i := FindByIp(devices, row.ip);
      created := i == |devices|;
      if created {
        devices := devices + [ApplyMetadata(Device(row.ip, None, "", false), row)];
      } else {
        devices := devices[i := ApplyMetadata(devices[i], row)];
      }
    }
  }

  /** What the rows up to and with row k come to, from what the rows before it came to. */
  lemma OneMoreRow(devices: Table, rows: seq<Row>, strict: bool, dryRun: bool, k: nat, before: seq<RowStatus>)
    requires k < |rows| && before == Statuses(devices, rows[..k], strict, dryRun)
    ensures var table := Import(devices, rows[..k], strict, dryRun);
            var status := Status(table, rows[k], strict, dryRun);
            && Import(devices, rows[..k + 1], strict, dryRun) == After(table, rows[k], strict, dryRun)
            && Statuses(devices, rows[..k + 1], strict, dryRun) == before + [status]
            && Assignments(rows[..k + 1], before + [status]) ==
               Assignments(rows[..k], before) + AssignmentOf(rows[k], status)
  {
    assert rows[..k + 1][..k] == rows[..k];
    var status := Status(Import(devices, rows[..k], strict, dryRun), rows[k], strict, dryRun);
    assert (before + [status])[..k] == before;
  }

  method FinishBatch(statuses: seq<RowStatus>) returns (c: Counters)
    ensures c == Counters(|statuses|, Count(statuses, {Valid, Created, Updated}), Count(statuses, {Invalid}),
                          Count(statuses, {Created}), Count(statuses, {Updated}))
  {
    c := Counters(0, 0, 0, 0, 0);
    for k := 0 to |statuses|
      invariant var seen := statuses[..k];
                c == Counters(k, Count(seen, {Valid, Created, Updated}), Count(seen, {Invalid}), Count(seen, {Created}),
                              Count(seen, {Updated}))
    {
      assert statuses[..k + 1][..k] == statuses[..k];
      match statuses[k]
      case Valid => c := c.(total := k + 1, valid := c.valid + 1);
      case Invalid => c := c.(total := k + 1, invalid := c.invalid + 1);
      case Created => c := c.(total := k + 1, valid := c.valid + 1, created := c.created + 1);
      case Updated => c := c.(total := k + 1, valid := c.valid + 1, updated := c.updated + 1);
    }
    assert statuses[..|statuses|] == statuses;
  }

  // ---------------------------------------------------------------------------------------------
  // What every import keeps
  // ---------------------------------------------------------------------------------------------

  ghost predicate Unique(devices: Table) {
    && (forall i, j :: 0 <= i < j < |devices| ==> devices[i].ip != devices[j].ip)
    && (forall i, j :: 0 <= i < j < |devices| && devices[i].hostname.Some? ==>
        devices[i].hostname != devices[j].hostname)
  }

  lemma UniqueAfter(devices: Table, row: Row, strict: bool, dryRun: bool)
    requires Unique(devices)
    ensures Unique(After(devices, row, strict, dryRun))
  {
    if Status(devices, row, strict, dryRun) in {Created, Updated} {
      var i := FindByIp(devices, row.ip);
      if row.hostname.Some? {
        var h := FindByHostname(devices, row.hostname.value);
        assert forall j :: 0 <= j < |devices| && j != i ==> devices[j].hostname != row.hostname;
      }
    }
  }

  lemma {:induction false} UniqueAfterBatch(devices: Table, rows: seq<Row>, strict: bool, dryRun: bool)
    requires Unique(devices)
    ensures Unique(Import(devices, rows, strict, dryRun))
    decreases |rows|
  {
    if rows != [] {
      var before := rows[..|rows| - 1];
      UniqueAfterBatch(devices, before, strict, dryRun);
      UniqueAfter(Import(devices, before, strict, dryRun), rows[|rows| - 1], strict, dryRun);
    }
  }

  datatype Batch = Batch(rows: seq<Row>, strict: bool, dryRun: bool)

  function Imports(batches: seq<Batch>): Table
    decreases |batches|
  {
    if batches == [] then []
    else
      var last := batches[|batches| - 1];
      Import(Imports(batches[..|batches| - 1]), last.rows, last.strict, last.dryRun)
  }

  /** After any sequence of imports, management IPs are unique and so are hostnames where there is one. */
  lemma {:induction false} AlwaysUnique(batches: seq<Batch>)
    ensures Unique(Imports(batches))
    decreases |batches|
  {
    if batches != [] {
      var before, last := batches[..|batches| - 1], batches[|batches| - 1];
      AlwaysUnique(before);
      UniqueAfterBatch(Imports(before), last.rows, last.strict, last.dryRun);
    }
  }

  function Ips(devices: Table): set<Text> {
    set d | d in devices :: d.ip
  }

  function AcceptedIps(rows: seq<Row>, statuses: seq<RowStatus>): set<Text>
    requires |rows| == |statuses|
  {
    set k | 0 <= k < |rows| && statuses[k] in {Created, Updated} && rows[k].Row? :: rows[k].ip
  }

  lemma IpsAfter(devices: Table, row: Row, strict: bool)
    ensures Ips(After(devices, row, strict, false)) ==
              Ips(devices) + if Status(devices, row, strict, false) in {Created, Updated} then {row.ip} else {}
  {
    if Status(devices, row, strict, false) in {Created, Updated} {
      var i, after := FindByIp(devices, row.ip), Upsert(devices, row);
      assert after[i].ip == row.ip && after[i] in after;
      forall d | d in devices
        ensures d.ip in Ips(after)
      {
        var j :| 0 <= j < |devices| && devices[j] == d;
        assert after[j].ip == d.ip && after[j] in after;
      }
      forall d | d in after
        ensures d.ip in Ips(devices) + {row.ip}
      {
        var j :| 0 <= j < |after| && after[j] == d;
        if j != i {
          assert devices[j] == d && devices[j] in devices;
        }
      }
    }
  }

  lemma AcceptedSnoc(rows: seq<Row>, statuses: seq<RowStatus>, row: Row, status: RowStatus)
    requires |rows| == |statuses| && (status in {Created, Updated} ==> row.Row?)
    ensures AcceptedIps(rows + [row], statuses + [status]) ==
              AcceptedIps(rows, statuses) + if status in {Created, Updated} then {row.ip} else {}
  {
    var all, marks := rows + [row], statuses + [status];
    forall ip | ip in AcceptedIps(rows, statuses)
      ensures ip in AcceptedIps(all, marks)
    {
      var k :| 0 <= k < |rows| && statuses[k] in {Created, Updated} && rows[k].Row? && rows[k].ip == ip;
      assert all[k] == rows[k] && marks[k] == statuses[k];
    }
    if status in {Created, Updated} {
      assert all[|rows|] == row && marks[|rows|] == status;
    }
  }

  /** The table an import leaves has exactly the addresses it had and those of the rows it accepted. */
  lemma {:induction false} ImportLands(devices: Table, rows: seq<Row>, strict: bool)
    ensures Ips(Import(devices, rows, strict, false)) ==
            Ips(devices) + AcceptedIps(rows, Statuses(devices, rows, strict, false))
    decreases |rows|
  {
    if rows != [] {
      var before, last := rows[..|rows| - 1], rows[|rows| - 1];
      var table, statuses := Import(devices, before, strict, false), Statuses(devices, before, strict, false);
      ImportLands(devices, before, strict);
      IpsAfter(table, last, strict);
      AcceptedSnoc(before, statuses, last, Status(table, last, strict, false));
      assert rows == before + [last];
    }
  }

  /** Every row is counted once, and the number of created rows is the growth of the device table. */
  lemma {:induction false} CountersAddUp(devices: Table, rows: seq<Row>, strict: bool, dryRun: bool)
    ensures var statuses := Statuses(devices, rows, strict, dryRun);
            && Count(statuses, {Created}) == |Import(devices, rows, strict, dryRun)| - |devices|
            && Count(statuses, {Valid, Created, Updated}) + Count(statuses, {Invalid}) == |rows|
            && (!dryRun ==>
                  Count(statuses, {Created}) + Count(statuses, {Updated}) + Count(statuses, {Invalid}) == |rows|)
            && (dryRun ==> Import(devices, rows, strict, dryRun) == devices)
    decreases |rows|
  {
    if rows != [] {
      var before, last := rows[..|rows| - 1], rows[|rows| - 1];
      CountersAddUp(devices, before, strict, dryRun);
      var statuses, status := Statuses(devices, before, strict, dryRun),
          Status(Import(devices, before, strict, dryRun), last, strict, dryRun);
      assert (statuses + [status])[..|before|] == statuses;
    }
  }

  // ---------------------------------------------------------------------------------------------
  // What a dry run foresees
  // ---------------------------------------------------------------------------------------------

  function NameOf(devices: Table, ip: Text): Option<Text> {
    var i := FindByIp(devices, ip);
    if i < |devices| then devices[i].hostname else None
  }

  /**
   The hostname that address `ip` has if the rows before k that a dry run calls valid take effect: the one of the last
   such row of that address with a hostname, else the one in the table.
   */
  function NameBefore(devices: Table, rows: seq<Row>, strict: bool, k: nat, ip: Text): Option<Text>
    requires k <= |rows|
  {
    if k == 0 then NameOf(devices, ip)
    else
      var row := rows[k - 1];
      if Status(devices, row, strict, true) == Valid && row.ip == ip && row.hostname.Some? then row.hostname
      else NameBefore(devices, rows, strict, k - 1, ip)
  }

  /** Is the hostname of row k that of another address, when the rows before it have taken effect? */
  ghost predicate TakenBefore(devices: Table, rows: seq<Row>, strict: bool, k: nat)
    requires k < |rows| && rows[k].Row?
  {
    && rows[k].hostname.Some?
    && exists ip :: ip != rows[k].ip && NameBefore(devices, rows, strict, k, ip) == rows[k].hostname
  }

  /** Neither the form of row k nor its missing credential refuses it. */
  predicate Open(row: Row, strict: bool) {
    row.Row? && (strict ==> row.credential.Some?)
  }

  /** The rows before k neither claim a free hostname of row k for another address nor free a taken one. */
  ghost predicate Undisturbed(devices: Table, rows: seq<Row>, strict: bool, k: nat)
    requires k < |rows|
  {
    Open(rows[k], strict) ==> (HostnameTaken(devices, rows[k]) <==> TakenBefore(devices, rows, strict, k))
  }

  /** Do the dry run and the import of a batch judge row k alike? */
  predicate Alike(devices: Table, rows: seq<Row>, strict: bool, k: nat)
    requires k < |rows|
  {
    Statuses(devices, rows, strict, true)[k] == Valid <==>
      Statuses(devices, rows, strict, false)[k] in {Created, Updated}
  }

  lemma TakenMeans(devices: Table, row: Row)
    requires Unique(devices) && row.Row?
    ensures HostnameTaken(devices, row) <==>
              row.hostname.Some? && exists ip :: ip != row.ip && NameOf(devices, ip) == row.hostname
  {
    if HostnameTaken(devices, row) {
      var h := FindByHostname(devices, row.hostname.value);
      NameAt(devices, h);
      assert devices[h].ip != row.ip by {
        if devices[h].ip == row.ip {
          FoundAt(devices, h);
        }
      }
      assert NameOf(devices, devices[h].ip) == row.hostname;
    }
    if row.hostname.Some? && exists ip :: ip != row.ip && NameOf(devices, ip) == row.hostname {
      var ip :| ip != row.ip && NameOf(devices, ip) == row.hostname;
      var i, h := FindByIp(devices, ip), FindByHostname(devices, row.hostname.value);
      assert devices[i].hostname == row.hostname;
      assert h == i;
    }
  }

  lemma FoundAt(devices: Table, i: nat)
    requires Unique(devices) && i < |devices|
    ensures FindByIp(devices, devices[i].ip) == i
  {
  }

  lemma NameAt(devices: Table, i: nat)
    requires Unique(devices) && i < |devices|
    ensures NameOf(devices, devices[i].ip) == devices[i].hostname
  {
    FoundAt(devices, i);
  }

  lemma FindIs(devices: Table, ip: Text, i: nat)
    requires i <= |devices| && (i < |devices| ==> devices[i].ip == ip) && forall j :: 0 <= j < i ==> devices[j].ip != ip
    ensures FindByIp(devices, ip) == i
  {
  }

  lemma NameAfterUpsert(devices: Table, row: Row, ip: Text)
    requires row.Row?
    ensures NameOf(Upsert(devices, row), ip) == if row.ip == ip && row.hostname.Some? then row.hostname
            else NameOf(devices, ip)
  {
    var i, j, after := FindByIp(devices, row.ip), FindByIp(devices, ip), Upsert(devices, row);
    if row.ip == ip {
      FindIs(after, ip, i);
    } else if j < |devices| {
      FindIs(after, ip, j);
    } else {
      FindIs(after, ip, |after|);
    }
  }

  /** The statuses of the rows before k are those of the shorter batch. */
  lemma {:induction false} StatusAt(devices: Table, rows: seq<Row>, strict: bool, dryRun: bool, k: nat)
    requires k < |rows|
    ensures Statuses(devices, rows, strict, dryRun)[k] ==
            Status(Import(devices, rows[..k], strict, dryRun), rows[k], strict, dryRun)
    decreases |rows|
  {
    if k < |rows| - 1 {
      StatusAt(devices, rows[..|rows| - 1], strict, dryRun, k);
      assert rows[..|rows| - 1][..k] == rows[..k];
    }
  }

  lemma {:induction false} DryRunKeeps(devices: Table, rows: seq<Row>, strict: bool)
    ensures Import(devices, rows, strict, true) == devices
    decreases |rows|
  {
    if rows != [] {
      DryRunKeeps(devices, rows[..|rows| - 1], strict);
    }
  }

  /** Each run judges row k by the table it has made so far; the dry run by the one it started with. */
  lemma AlikeMeans(devices: Table, rows: seq<Row>, strict: bool, k: nat)
    requires k < |rows|
    ensures Alike(devices, rows, strict, k) <==>
              (Open(rows[k], strict) ==>
                 (HostnameTaken(devices, rows[k]) <==>
                    HostnameTaken(Import(devices, rows[..k], strict, false), rows[k])))
  {
    StatusAt(devices, rows, strict, true, k);
    StatusAt(devices, rows, strict, false, k);
    DryRunKeeps(devices, rows[..k], strict);
  }

  /** As long as the runs judge alike, the import gives each address the hostname foreseen for it. */
  lemma {:induction false} NamesForeseen(devices: Table, rows: seq<Row>, strict: bool, k: nat, ip: Text)
    requires k <= |rows| && forall j :: 0 <= j < k ==> Alike(devices, rows, strict, j)
    ensures NameOf(Import(devices, rows[..k], strict, false), ip) == NameBefore(devices, rows, strict, k, ip)
  {
    if k > 0 {
      var before, row := Import(devices, rows[..k - 1], strict, false), rows[k - 1];
      NamesForeseen(devices, rows, strict, k - 1, ip);
      AlikeMeans(devices, rows, strict, k - 1);
      assert Alike(devices, rows, strict, k - 1);
      assert rows[..k][..k - 1] == rows[..k - 1] && rows[..k][k - 1] == row;
      assert Import(devices, rows[..k], strict, false) == After(before, row, strict, false);
      if Status(before, row, strict, false) in {Created, Updated} {
        NameAfterUpsert(before, row, ip);
      }
    }
  }

  lemma AlikeAt(devices: Table, rows: seq<Row>, strict: bool, k: nat)
    requires Unique(devices) && k < |rows| && forall j :: 0 <= j < k ==> Alike(devices, rows, strict, j)
    ensures Alike(devices, rows, strict, k) <==> Undisturbed(devices, rows, strict, k)
  {
    AlikeMeans(devices, rows, strict, k);
    if rows[k].Row? {
      var table := Import(devices, rows[..k], strict, false);
      UniqueAfterBatch(devices, rows[..k], strict, false);
      TakenMeans(table, rows[k]);
      forall ip
        ensures NameOf(table, ip) == NameBefore(devices, rows, strict, k, ip)
      {
        NamesForeseen(devices, rows, strict, k, ip);
      }
    }
  }

  lemma {:induction false} AlikeUpTo(devices: Table, rows: seq<Row>, strict: bool, n: nat)
    requires Unique(devices) && n <= |rows|
    ensures (forall k :: 0 <= k < n ==> Alike(devices, rows, strict, k)) <==>
            (forall k :: 0 <= k < n ==> Undisturbed(devices, rows, strict, k))
  {
    if n > 0 {
      AlikeUpTo(devices, rows, strict, n - 1);
      if forall k :: 0 <= k < n - 1 ==> Alike(devices, rows, strict, k) {
        AlikeAt(devices, rows, strict, n - 1);
      }
    }
  }

  /**
   A dry run judges every row of a batch as the import does exactly if no row's hostname changes between free and
   taken by another address through the valid rows before it: neither newly claimed nor freed by a renamed holder.
   */
  lemma DryRunForeseesExactly(devices: Table, rows: seq<Row>, strict: bool)
    requires Unique(devices)
    ensures (forall k :: 0 <= k < |rows| ==> Alike(devices, rows, strict, k)) <==>
            (forall k :: 0 <= k < |rows| ==> Undisturbed(devices, rows, strict, k))
  {
    AlikeUpTo(devices, rows, strict, |rows|);
  }

  lemma TwoRows(devices: Table, a: Row, b: Row, dryRun: bool)
    ensures Statuses(devices, [a, b], false, dryRun) ==
              [Status(devices, a, false, dryRun), Status(After(devices, a, false, dryRun), b, false, dryRun)]
  {
    assert [a, b][..1] == [a] && [a][..0] == [];
    assert Import(devices, [], false, dryRun) == devices;
    assert Import(devices, [a], false, dryRun) == After(devices, a, false, dryRun);
    assert Statuses(devices, [a], false, dryRun) == [Status(devices, a, false, dryRun)];
  }

  /** Claimed: two rows of a batch want one free hostname, and only the import refuses the second. */
  lemma DryRunMissesInBatchDuplicates(ip: Text, other: Text, name: Text)
    requires ip != other
    ensures var rows := [Row(ip, Some(name), None, None), Row(other, Some(name), None, None)];
            Statuses([], rows, false, true) == [Valid, Valid] && Statuses([], rows, false, false) == [Created, Invalid]
  {
    var a, b := Row(ip, Some(name), None, None), Row(other, Some(name), None, None);
    TwoRows([], a, b, true);
    TwoRows([], a, b, false);
  }

  /** Freed: a row renames the holder of a hostname that the next row wants, and only the dry run refuses that one. */
  lemma DryRunMissesFreedHostname(ip: Text, other: Text, name: Text, newName: Text)
    requires ip != other && name != newName
    ensures var devices, rows := [Device(ip, Some(name), "", false)],
            [Row(ip, Some(newName), None, None), Row(other, Some(name), None, None)];
            Statuses(devices, rows, false, true) == [Valid, Invalid]
              && Statuses(devices, rows, false, false) == [Updated, Created]
  {
    var devices := [Device(ip, Some(name), "", false)];
    var a, b := Row(ip, Some(newName), None, None), Row(other, Some(name), None, None);
    TwoRows(devices, a, b, true);
    TwoRows(devices, a, b, false);
    assert FindByIp(devices, ip) == 0 && FindByIp(devices, other) == 1;
    assert FindByHostname(devices, name) == 0 && FindByHostname(devices, newName) == 1;
    assert After(devices, a, false, false) == [Device(ip, Some(newName), "", false)];
  }
}
