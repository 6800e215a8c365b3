/**
 What an import does to single devices and rows, said without the order in which the table is searched: why a row is
 refused, what an accepted row writes, which row has the last word on a device and which assignments a batch adds.
 */
module ImportEffects {
  import opened Wrappers
  import opened InventoryImport

  /** The row is malformed, wants the hostname of another address, or lacks a credential that is demanded. */
  ghost predicate IsRefused(devices: Table, row: Row, strict: bool) {
    || row.Malformed?
    || (row.hostname.Some? && exists j :: 0 <= j < |devices| && devices[j].hostname == row.hostname
                                          && devices[j].ip != row.ip)
    || (strict && row.credential == None)
  }

  ghost predicate HasIp(devices: Table, ip: Text) {
    exists j :: 0 <= j < |devices| && devices[j].ip == ip
  }

  lemma TakenByOther(devices: Table, row: Row)
    requires Unique(devices) && row.Row?
    ensures HostnameTaken(devices, row) <==>
              row.hostname.Some? && exists j :: 0 <= j < |devices| && devices[j].hostname == row.hostname
                                                && devices[j].ip != row.ip
  {
    if HostnameTaken(devices, row) {
      var h := FindByHostname(devices, row.hostname.value);
      if devices[h].ip == row.ip {
        FoundAt(devices, h);
      }
    } else if row.hostname.Some? {
      forall j | 0 <= j < |devices| && devices[j].hostname == row.hostname
        ensures devices[j].ip == row.ip
      {
        assert j == FindByHostname(devices, row.hostname.value);
      }
    }
  }

  /**
   The status of a row, whatever was imported before: invalid exactly if it is malformed, its hostname belongs to
   another address, or it lacks a demanded credential; otherwise it says what is done with the device.
   */
  lemma StatusExactly(batches: seq<Batch>, row: Row, strict: bool, dryRun: bool)
    ensures var devices := Imports(batches);
            Status(devices, row, strict, dryRun) ==
            if IsRefused(devices, row, strict) then Invalid else if dryRun then Valid
            else if HasIp(devices, row.ip) then Updated else Created
  {
    AlwaysUnique(batches);
    StatusIs(Imports(batches), row, strict, dryRun);
  }

  lemma StatusIs(devices: Table, row: Row, strict: bool, dryRun: bool)
    requires Unique(devices)
    ensures Status(devices, row, strict, dryRun) ==
              if IsRefused(devices, row, strict) then Invalid else if dryRun then Valid
              else if HasIp(devices, row.ip) then Updated else Created
  {
    if row.Row? {
      TakenByOther(devices, row);
      var i := FindByIp(devices, row.ip);
      if i < |devices| {
        assert devices[i].ip == row.ip;
      }
    }
  }

  /** `d` with what the row says about it; a row without a credential takes the credential status away. */
  ghost predicate Written(d: Device, row: Row, before: Device)
    requires row.Row?
  {
    && d.ip == row.ip && d.hasCredential == row.credential.Some?
    && (if row.hostname.Some? then d.hostname == row.hostname else d.hostname == before.hostname)
    && (if row.attributes.Some? then d.attributes == row.attributes.value else d.attributes == before.attributes)
  }

  /**
   A row that is not refused writes the one device of its address, a new one at the end if there was none, and leaves
   every other device where and as it was; a refused row and a dry run write nothing.
   */
  lemma RowWrites(devices: Table, row: Row, strict: bool, dryRun: bool)
    requires Unique(devices)
    ensures var after := After(devices, row, strict, dryRun);
            if dryRun || IsRefused(devices, row, strict) then after == devices else
              && |after| == |devices| + (if HasIp(devices, row.ip) then 0 else 1)
              && (forall j :: 0 <= j < |devices| ==>
                    if devices[j].ip == row.ip then Written(after[j], row, devices[j]) else after[j] == devices[j])
              && (!HasIp(devices, row.ip) ==> Written(after[|devices|], row, Device(row.ip, None, "", false)))
  {
    StatusIs(devices, row, strict, dryRun);
    if row.Row? && FindByIp(devices, row.ip) < |devices| {
      assert devices[FindByIp(devices, row.ip)].ip == row.ip;
    }
  }

  // ---------------------------------------------------------------------------------------------
  // Over a batch
  // ---------------------------------------------------------------------------------------------

  predicate Accepted(status: RowStatus) {
    status == Created || status == Updated
  }

  /** The table holds a device of the row's address that has everything the row says. */
  ghost predicate Holds(devices: Table, row: Row)
    requires row.Row?
  {
    exists j :: 0 <= j < |devices| && Written(devices[j], row, devices[j])
  }

  lemma AcceptedRowHolds(devices: Table, row: Row, strict: bool)
    requires Unique(devices) && Accepted(Status(devices, row, strict, false))
    ensures row.Row? && Holds(After(devices, row, strict, false), row)
  {
    var after, i := After(devices, row, strict, false), FindByIp(devices, row.ip);
    assert Written(after[i], row, after[i]);
  }

  lemma OtherRowKeeps(devices: Table, row: Row, strict: bool, d: Device)
    requires Unique(devices) && d in devices
    requires Accepted(Status(devices, row, strict, false)) ==> row.ip != d.ip
    ensures d in After(devices, row, strict, false)
  {
    var j :| 0 <= j < |devices| && devices[j] == d;
    assert After(devices, row, strict, false)[j] == d;
  }

  /** No row from k on that the import accepts has the address. */
  ghost predicate UntouchedFrom(devices: Table, rows: seq<Row>, strict: bool, k: nat, ip: Text) {
    forall j :: k <= j < |rows| && Accepted(Statuses(devices, rows, strict, false)[j]) ==>
                  rows[j].Row? && rows[j].ip != ip
  }

  lemma RowKeeps(devices: Table, rows: seq<Row>, strict: bool, n: nat, d: Device)
    requires Unique(devices) && n < |rows| && d in Import(devices, rows[..n], strict, false)
    requires Accepted(Statuses(devices, rows, strict, false)[n]) ==> rows[n].Row? && rows[n].ip != d.ip
    ensures d in Import(devices, rows[..n + 1], strict, false)
  {
    UniqueAfterBatch(devices, rows[..n], strict, false);
    StatusAt(devices, rows, strict, false, n);
    OtherRowKeeps(Import(devices, rows[..n], strict, false), rows[n], strict, d);
    assert rows[..n + 1][..n] == rows[..n];
  }

  lemma {:induction false} DeviceStays(devices: Table, rows: seq<Row>, strict: bool, k: nat, n: nat, d: Device)
    requires Unique(devices) && k <= n <= |rows| && UntouchedFrom(devices, rows, strict, k, d.ip)
    requires d in Import(devices, rows[..k], strict, false)
    ensures d in Import(devices, rows[..n], strict, false)
    decreases n
  {
    if k < n {
      DeviceStays(devices, rows, strict, k, n - 1, d);
      RowKeeps(devices, rows, strict, n - 1, d);
    }
  }

  /** A device whose address no accepted row has stays as it was. */
  lemma UntouchedDevice(devices: Table, rows: seq<Row>, strict: bool, d: Device)
    requires Unique(devices) && d in devices && UntouchedFrom(devices, rows, strict, 0, d.ip)
    ensures d in Import(devices, rows, strict, false)
  {
    assert rows[..0] == [] && rows[..|rows|] == rows;
    DeviceStays(devices, rows, strict, 0, |rows|, d);
  }

  /** The last accepted row of an address has the last word on its device. */
  lemma LastRowWins(devices: Table, rows: seq<Row>, strict: bool, k: nat)
    requires Unique(devices) && k < |rows| && Accepted(Statuses(devices, rows, strict, false)[k]) && rows[k].Row?
    requires UntouchedFrom(devices, rows, strict, k + 1, rows[k].ip)
    ensures Holds(Import(devices, rows, strict, false), rows[k])
  {
    var before, next := Import(devices, rows[..k], strict, false), k + 1;
    UniqueAfterBatch(devices, rows[..k], strict, false);
    StatusAt(devices, rows, strict, false, k);
    AcceptedRowHolds(before, rows[k], strict);
    var after := Import(devices, rows[..next], strict, false);
    assert rows[..next][..k] == rows[..k];
    var j :| 0 <= j < |after| && Written(after[j], rows[k], after[j]);
    DeviceStays(devices, rows, strict, next, |rows|, after[j]);
    assert rows[..|rows|] == rows;
  }

  /** Row k adds the assignment. */
  ghost predicate Assigns(rows: seq<Row>, statuses: seq<RowStatus>, k: nat, a: Assignment)
    requires k < |rows| == |statuses|
  {
    Accepted(statuses[k]) && rows[k].Row? && rows[k].ip == a.ip && rows[k].credential == Some(a.credential)
  }

  lemma OneMoreAssigns(rows: seq<Row>, statuses: seq<RowStatus>, n: nat, a: Assignment)
    requires |rows| == |statuses| == n + 1
    ensures forall k: nat :: k < n ==> (Assigns(rows[..n], statuses[..n], k, a) <==> Assigns(rows, statuses, k, a))
    ensures a in AssignmentOf(rows[n], statuses[n]) <==> Assigns(rows, statuses, n, a)
  {
  }

  /** A batch adds exactly the assignments of its accepted rows with a credential. */
  lemma {:induction false} AssignmentsExactly(rows: seq<Row>, statuses: seq<RowStatus>, a: Assignment)
    requires |rows| == |statuses|
    ensures a in Assignments(rows, statuses) <==> exists k: nat :: k < |rows| && Assigns(rows, statuses, k, a)
    decreases |rows|
  {
    if rows != [] {
      var n := |rows| - 1;
      AssignmentsExactly(rows[..n], statuses[..n], a);
      OneMoreAssigns(rows, statuses, n, a);
      if k: nat :| k < n && Assigns(rows[..n], statuses[..n], k, a) {
        assert Assigns(rows, statuses, k, a);
      }
    }
  }

  function CredentialRows(rows: seq<Row>, statuses: seq<RowStatus>): set<nat>
    requires |rows| == |statuses|
  {
    set k: nat | k < |rows| && Accepted(statuses[k]) && rows[k].Row? && rows[k].credential.Some?
  }

  lemma CredentialRowsGrow(rows: seq<Row>, statuses: seq<RowStatus>, n: nat)
    requires |rows| == |statuses| == n + 1
    ensures CredentialRows(rows, statuses) ==
              CredentialRows(rows[..n], statuses[..n]) + if AssignmentOf(rows[n], statuses[n]) != [] then {n} else {}
  {
  }

  /** And one for each of them. */
  lemma {:induction false} AssignmentCount(rows: seq<Row>, statuses: seq<RowStatus>)
    requires |rows| == |statuses|
    ensures |Assignments(rows, statuses)| == |CredentialRows(rows, statuses)|
    decreases |rows|
  {
    if rows != [] {
      var n := |rows| - 1;
      AssignmentCount(rows[..n], statuses[..n]);
      CredentialRowsGrow(rows, statuses, n);
    }
  }

  /** A counter is the number of rows with a status it counts. */
  lemma {:induction false} CountMeans(statuses: seq<RowStatus>, wanted: set<RowStatus>)
    ensures Count(statuses, wanted) == |set k | 0 <= k < |statuses| && statuses[k] in wanted|
    decreases |statuses|
  {
    if statuses != [] {
      var n := |statuses| - 1;
      CountMeans(statuses[..n], wanted);
      var fewer := set k | 0 <= k < n && statuses[..n][k] in wanted;
      var more := set k | 0 <= k < |statuses| && statuses[k] in wanted;
      assert more == fewer + if n in more then {n} else {};
    }
  }
}
