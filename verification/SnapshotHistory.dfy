/**
 Configuration snapshots, the stored diffs between them, retention, and drift detection that uses the stored diffs as
 a cache. The table is held in the order in which its queries list it, newest first. Hashing, diffing and summarizing
 are deterministic functions that are not looked into.
 */
module SnapshotHistory {
  import opened Wrappers

  type Device = nat
  type Id = nat
  type Text = string

  datatype Snapshot = Snapshot(id: Id, device: Device, text: Text, hash: Text, at: int)

  datatype Diff = Diff(device: Device, from: Id, to: Id, summary: seq<nat>)

  /** The columns that tell whether a device can be backed up by reading its configuration. */
  datatype DeviceKind = DeviceKind(driver: string, platform: string, vendor: string)
  {
    predicate IsUnsupported() {
      driver == "ReadOnlyICMPDriver" || platform == "icmp-only" || vendor == "ICMP"
    }
  }

  datatype Tools = Tools(hash: Text -> Text, summary: (Text, Text) -> seq<nat>)

  datatype Store = Store(rows: seq<Snapshot>, diffs: seq<Diff>)

  predicate Newer(a: Snapshot, b: Snapshot) {
    a.at > b.at || (a.at == b.at && a.id > b.id)
  }

  ghost predicate Sorted(rows: seq<Snapshot>) {
    forall i, j :: 0 <= i < j < |rows| ==> Newer(rows[i], rows[j])
  }

  ghost predicate UniqueIds(rows: seq<Snapshot>) {
    forall i, j :: 0 <= i < j < |rows| ==> rows[i].id != rows[j].id
  }

  function Of(rows: seq<Snapshot>, d: Device): (own: seq<Snapshot>)
    ensures |own| <= |rows|
    ensures forall s :: s in own <==> s in rows && s.device == d
  {
    if rows == [] then [] else (if rows[0].device == d then [rows[0]] else []) + Of(rows[1..], d)
  }

  function Ids(rows: seq<Snapshot>): set<Id> {
    set s | s in rows :: s.id
  }

  /** A new row goes where the listing order puts it. */
  function Insert(rows: seq<Snapshot>, s: Snapshot): seq<Snapshot> {
    if rows == [] || Newer(s, rows[0]) then [s] + rows else [rows[0]] + Insert(rows[1..], s)
  }

  function Latest(rows: seq<Snapshot>, d: Device): Option<Snapshot> {
    var own := Of(rows, d);
    if own == [] then None else Some(own[0])
  }

  function NewDiffs(tools: Tools, previous: Option<Snapshot>, current: Snapshot): seq<Diff> {
    if previous == None || previous.value.hash == current.hash then []
    else [Diff(current.device, previous.value.id, current.id, tools.summary(previous.value.text, current.text))]
  }

  function Backup(st: Store, tools: Tools, d: Device, text: Text, id: Id, now: int): Store {
    var s := Snapshot(id, d, text, tools.hash(text), now);
    Store(Insert(st.rows, s), st.diffs + NewDiffs(tools, Latest(st.rows, d), s))
  }

  // ---------------------------------------------------------------------------------------------
  // Retention
  // ---------------------------------------------------------------------------------------------

  /** Where the slice `snapshots[n:]` begins: a negative n counts from the end. */
  function SliceStart(length: nat, n: int): (k: nat)
    ensures k <= length
  {
    if n >= 0 then Min(n, length) else Max(0, length + n)
  }

  function Limit(length: nat, max: Option<int>): (k: nat)
    ensures k <= length
  {
    if max == None then length else SliceStart(length, max.value)
  }

  /** Is `s` past the limit in the list of its device? */
  predicate Beyond(rows: seq<Snapshot>, s: Snapshot, max: Option<int>) {
    var own := Of(rows, s.device);
    s in own[Limit(|own|, max)..]
  }

  /** The rows one pass deletes: too old, or beyond the limit. */
  function Doomed(rows: seq<Snapshot>, cutoff: int, max: Option<int>): set<Id> {
    set s | s in rows && (s.at < cutoff || Beyond(rows, s, max)) :: s.id
  }

  function Without(rows: seq<Snapshot>, doomed: set<Id>): (kept: seq<Snapshot>)
    ensures forall s :: s in kept <==> s in rows && s.id !in doomed
  {
    if rows == [] then [] else (if rows[0].id in doomed then [] else [rows[0]]) + Without(rows[1..], doomed)
  }

  function DiffsWithout(diffs: seq<Diff>, doomed: set<Id>): (kept: seq<Diff>)
    ensures forall d :: d in kept <==> d in diffs && d.from !in doomed && d.to !in doomed
  {
    if diffs == [] then []
    else
      (if diffs[0].from in doomed || diffs[0].to in doomed then [] else [diffs[0]]) + DiffsWithout(diffs[1..], doomed)
  }

  function Retain(st: Store, cutoff: int, max: Option<int>): Store {
    var doomed := Doomed(st.rows, cutoff, max);
    Store(Without(st.rows, doomed), DiffsWithout(st.diffs, doomed))
  }

  // ---------------------------------------------------------------------------------------------
  // Drift
  // ---------------------------------------------------------------------------------------------

  datatype Drift = Drift(latest: Option<Id>, previous: Option<Id>, detected: bool, summary: seq<nat>)

  predicate Joins(diff: Diff, from: Id, to: Id) {
    diff.from == from && diff.to == to
  }

  function FindDiff(diffs: seq<Diff>, from: Id, to: Id): (found: Option<Diff>)
    ensures found.Some? ==> found.value in diffs && Joins(found.value, from, to)
    ensures found == None ==> forall d :: d in diffs ==> !Joins(d, from, to)
  {
    if diffs == [] then None else if Joins(diffs[0], from, to) then Some(diffs[0]) else FindDiff(diffs[1..], from, to)
  }

  function DetectDrift(st: Store, tools: Tools, d: Device): Drift {
    var own := Of(st.rows, d);
    if own == [] then Drift(None, None, false, [])
    else if |own| == 1 then Drift(Some(own[0].id), None, false, [])
    else if own[1].hash == own[0].hash then Drift(Some(own[0].id), Some(own[1].id), false, [])
    else
      var diff := FindDiff(st.diffs, own[1].id, own[0].id);
      Drift(Some(own[0].id), Some(own[1].id), true,
            if diff.Some? then diff.value.summary else tools.summary(own[1].text, own[0].text))
  }

  // ---------------------------------------------------------------------------------------------
  // The services
  // ---------------------------------------------------------------------------------------------

  class ConfigHistory {
    const tools: Tools
    var rows: seq<Snapshot>
    var diffs: seq<Diff>

    ghost function View(): Store
      reads this
    {
      Store(rows, diffs)
    }

    constructor (tools: Tools)
      ensures this.tools == tools && View() == Store([], [])
    {
      this.tools, rows, diffs := tools, [], [];
    }

    method BackupDeviceConfig(d: Device, kind: DeviceKind, text: Text, id: Id, now: int) returns (ok: bool)
      modifies this
      ensures ok <==> kind.driver != "ReadOnlyICMPDriver" && kind.platform != "icmp-only" && kind.vendor != "ICMP"
      ensures View() == if ok then Backup(old(View()), tools, d, text, id, now) else old(View())
    {
      if kind.IsUnsupported() {
        return false;
      }
      var previous := Latest(rows, d);
      var s := Snapshot(id, d, text, tools.hash(text), now);
      rows := Insert(rows, s);
      CreateDiffIfChanged(previous, s);
      return true;
    }

    method CreateDiffIfChanged(previous: Option<Snapshot>, current: Snapshot)
      modifies this`diffs
      ensures diffs == old(diffs) + NewDiffs(tools, previous, current)
    {
      if previous.Some? && previous.value.hash != current.hash {
        diffs := diffs + [Diff(current.device, previous.value.id, current.id,
                               tools.summary(previous.value.text, current.text))];
      }
    }

    method DeleteOldSnapshots(cutoff: int, max: Option<int>) returns (count: nat)
      modifies this
      ensures View() == Retain(old(View()), cutoff, max) && count == |Doomed(old(rows), cutoff, max)|
    {
      var toDelete := TooOldIds(cutoff);
      if max.Some? {
        var beyond := BeyondLimitIds(max.value);
        toDelete := toDelete + beyond;
      }
      DoomedIs(rows, cutoff, max);
      assert toDelete == Doomed(rows, cutoff, max);
      if toDelete != {} {
        rows, diffs := Without(rows, toDelete), DiffsWithout(diffs, toDelete);
      } else {
        NothingDoomed(rows, diffs);
      }
      count := |toDelete|;
    }

    method TooOldIds(cutoff: int) returns (ids: set<Id>)
      ensures ids == TooOld(rows, cutoff)
    {
      ids := {};
      for i := 0 to |rows|
        invariant ids == TooOld(rows[..i], cutoff)
      {
        assert rows[..i + 1] == rows[..i] + [rows[i]];
        if rows[i].at < cutoff {
          ids := ids + {rows[i].id};
        }
      }
      assert rows[..|rows|] == rows;
    }

    method BeyondLimitIds(n: int) returns (ids: set<Id>)
      ensures ids == BeyondLimit(rows, Devices(rows), n)
    {
      ids := {};
      var devices := Devices(rows);
      ghost var visited: set<Device> := {};
      while devices != {}
        invariant devices + visited == Devices(rows)
        invariant ids == BeyondLimit(rows, visited, n)
        decreases |devices|
      {
        var d :| d in devices;
        var own := Of(rows, d);
        ids := ids + Ids(own[SliceStart(|own|, n)..]);
        BeyondLimitGrows(rows, visited, d, n);
        devices, visited := devices - {d}, visited + {d};
      }
      assert visited == Devices(rows);
    }
  }

  function Devices(rows: seq<Snapshot>): set<Device> {
    set s | s in rows :: s.device
  }

  function TooOld(rows: seq<Snapshot>, cutoff: int): set<Id> {
    set s | s in rows && s.at < cutoff :: s.id
  }

  function BeyondLimit(rows: seq<Snapshot>, devices: set<Device>, n: int): set<Id> {
    set s | s in rows && s.device in devices && Beyond(rows, s, Some(n)) :: s.id
  }

  lemma BeyondLimitGrows(rows: seq<Snapshot>, devices: set<Device>, d: Device, n: int)
    ensures BeyondLimit(rows, devices + {d}, n) ==
            BeyondLimit(rows, devices, n) + Ids(Of(rows, d)[SliceStart(|Of(rows, d)|, n)..])
  {
    var own, before, after := Of(rows, d), BeyondLimit(rows, devices, n), BeyondLimit(rows, devices + {d}, n);
    var beyond := own[SliceStart(|own|, n)..];
    forall s | s in beyond
      ensures s.id in after
    {
      assert s in own && Beyond(rows, s, Some(n));
    }
    forall id | id in after
      ensures id in before + Ids(beyond)
    {
      var s :| s in rows && s.device in devices + {d} && Beyond(rows, s, Some(n)) && s.id == id;
      assert s.device == d ==> s in beyond;
    }
    assert before <= after;
  }

  lemma DoomedIs(rows: seq<Snapshot>, cutoff: int, max: Option<int>)
    ensures Doomed(rows, cutoff, max) ==
              TooOld(rows, cutoff) + if max.Some? then BeyondLimit(rows, Devices(rows), max.value) else {}
  {
  }

  lemma {:induction false} NothingDoomed(rows: seq<Snapshot>, diffs: seq<Diff>)
    ensures Without(rows, {}) == rows && DiffsWithout(diffs, {}) == diffs
  {
    if rows != [] {
      NothingDoomed(rows[1..], diffs);
    } else if diffs != [] {
      NothingDoomed(rows, diffs[1..]);
    }
  }

  // ---------------------------------------------------------------------------------------------
  // Listing
  // ---------------------------------------------------------------------------------------------

  ghost predicate NewestOf(s: Snapshot, rows: seq<Snapshot>) {
    forall r :: r in rows ==> Newer(s, r) && s.id != r.id
  }

  lemma Head(rows: seq<Snapshot>)
    requires Sorted(rows) && UniqueIds(rows) && rows != []
    ensures rows == [rows[0]] + rows[1..]
    ensures Sorted(rows[1..]) && UniqueIds(rows[1..]) && NewestOf(rows[0], rows[1..])
  {
    var rest := rows[1..];
    assert forall i :: 0 <= i < |rest| ==> rest[i] == rows[i + 1];
  }

  lemma ConsSorted(s: Snapshot, rows: seq<Snapshot>)
    requires Sorted(rows) && UniqueIds(rows) && NewestOf(s, rows)
    ensures Sorted([s] + rows) && UniqueIds([s] + rows)
  {
  }

  lemma {:induction false} OfSorted(rows: seq<Snapshot>, d: Device)
    requires Sorted(rows) && UniqueIds(rows)
    ensures Sorted(Of(rows, d)) && UniqueIds(Of(rows, d))
  {
    if rows != [] {
      Head(rows);
      OfSorted(rows[1..], d);
      ConsSorted(rows[0], Of(rows[1..], d));
    }
  }

  lemma {:induction false} InsertSorted(rows: seq<Snapshot>, s: Snapshot)
    requires Sorted(rows) && UniqueIds(rows) && s.id !in Ids(rows)
    ensures Sorted(Insert(rows, s)) && UniqueIds(Insert(rows, s))
    ensures forall r :: r in Insert(rows, s) <==> r == s || r in rows
  {
    if rows == [] {
      return;
    }
    Head(rows);
    assert rows[0].id in Ids(rows);
    if Newer(s, rows[0]) {
      assert NewestOf(s, rows);
      ConsSorted(s, rows);
    } else {
      assert forall r :: r in rows[1..] ==> r in rows;
      InsertSorted(rows[1..], s);
      ConsSorted(rows[0], Insert(rows[1..], s));
    }
  }

  /** Where `Insert` puts a snapshot. */
  function Position(rows: seq<Snapshot>, s: Snapshot): (p: nat)
    ensures p <= |rows|
  {
    if rows == [] || Newer(s, rows[0]) then 0 else 1 + Position(rows[1..], s)
  }

  lemma {:induction false} InsertAt(rows: seq<Snapshot>, s: Snapshot)
    ensures Insert(rows, s) == rows[..Position(rows, s)] + [s] + rows[Position(rows, s)..]
  {
    if rows != [] && !Newer(s, rows[0]) {
      var rest, q := rows[1..], Position(rows[1..], s);
      InsertAt(rest, s);
      assert rows[..q + 1] == [rows[0]] + rest[..q];
      assert rows[q + 1..] == rest[q..];
    }
  }

  lemma InsertFirst(s: Snapshot, rows: seq<Snapshot>)
    requires forall r :: r in rows ==> Newer(s, r)
    ensures Insert(rows, s) == [s] + rows
  {
    assert rows != [] ==> rows[0] in rows;
  }

  lemma InsertLater(r: Snapshot, rows: seq<Snapshot>, s: Snapshot)
    requires !Newer(s, r)
    ensures Insert([r] + rows, s) == [r] + Insert(rows, s)
  {
    assert ([r] + rows)[1..] == rows;
  }

  lemma OfInsertFirst(rows: seq<Snapshot>, s: Snapshot, d: Device)
    requires Sorted(rows) && UniqueIds(rows) && (rows != [] ==> Newer(s, rows[0]))
    ensures Of(Insert(rows, s), d) == if s.device == d then Insert(Of(rows, d), s) else Of(rows, d)
  {
    if rows != [] {
      Head(rows);
    }
    forall r | r in rows
      ensures Newer(s, r)
    {
      assert r == rows[0] || r in rows[1..];
    }
    InsertFirst(s, rows);
    InsertFirst(s, Of(rows, d));
    Cons(s, rows, {}, d);
  }

  lemma OfInsertLater(r: Snapshot, rest: seq<Snapshot>, s: Snapshot, d: Device)
    requires !Newer(s, r)
    requires Of(Insert(rest, s), d) == if s.device == d then Insert(Of(rest, d), s) else Of(rest, d)
    ensures Of(Insert([r] + rest, s), d) == if s.device == d then Insert(Of([r] + rest, d), s) else Of([r] + rest, d)
  {
    InsertLater(r, rest, s);
    Cons(r, rest, {}, d);
    Cons(r, Insert(rest, s), {}, d);
    if r.device == d {
      InsertLater(r, Of(rest, d), s);
    } else {
      assert Of([r] + rest, d) == Of(rest, d);
    }
  }

  lemma {:induction false} OfInsert(rows: seq<Snapshot>, s: Snapshot, d: Device)
    requires Sorted(rows) && UniqueIds(rows)
    ensures Of(Insert(rows, s), d) == if s.device == d then Insert(Of(rows, d), s) else Of(rows, d)
  {
    if rows == [] || Newer(s, rows[0]) {
      OfInsertFirst(rows, s, d);
    } else {
      Head(rows);
      OfInsert(rows[1..], s, d);
      OfInsertLater(rows[0], rows[1..], s, d);
    }
  }

  lemma Cons(s: Snapshot, rows: seq<Snapshot>, doomed: set<Id>, d: Device)
    ensures Of([s] + rows, d) == (if s.device == d then [s] else []) + Of(rows, d)
    ensures Without([s] + rows, doomed) == (if s.id in doomed then [] else [s]) + Without(rows, doomed)
    ensures Ids([s] + rows) == {s.id} + Ids(rows)
  {
    assert ([s] + rows)[1..] == rows;
  }

  lemma {:induction false} OfWithout(rows: seq<Snapshot>, doomed: set<Id>, d: Device)
    ensures Of(Without(rows, doomed), d) == Without(Of(rows, d), doomed)
  {
    if rows != [] {
      var s, rest := rows[0], rows[1..];
      OfWithout(rest, doomed, d);
      assert rows == [s] + rest;
      Cons(s, rest, doomed, d);
      Cons(s, Without(rest, doomed), doomed, d);
      Cons(s, Of(rest, d), doomed, d);
      assert Without(rows, doomed) == if s.id in doomed then Without(rest, doomed) else [s] + Without(rest, doomed);
      assert Of(rows, d) == if s.device == d then [s] + Of(rest, d) else Of(rest, d);
    }
  }

  lemma WithoutOne(rows: seq<Snapshot>, doomed: set<Id>)
    requires rows != []
    ensures Without(rows, doomed) == (if rows[0].id in doomed then [] else [rows[0]]) + Without(rows[1..], doomed)
  {
  }

  lemma PrefixOfRest(own: seq<Snapshot>, k: nat)
    requires 0 < k <= |own|
    ensures own[..k] == [own[0]] + own[1..][..k - 1]
  {
  }

  lemma {:induction false} WithoutIsPrefix(own: seq<Snapshot>, doomed: set<Id>, k: nat)
    requires k <= |own| && forall i :: 0 <= i < |own| ==> (own[i].id in doomed <==> i >= k)
    ensures Without(own, doomed) == own[..k]
  {
    if own != [] {
      var rest, j := own[1..], if k > 0 then k - 1 else 0;
      forall i | 0 <= i < |rest|
        ensures rest[i].id in doomed <==> i >= j
      {
        assert rest[i] == own[i + 1];
      }
      WithoutIsPrefix(rest, doomed, j);
      WithoutOne(own, doomed);
      assert own[0].id in doomed <==> k == 0;
      if k > 0 {
        PrefixOfRest(own, k);
      }
    }
  }

  // ---------------------------------------------------------------------------------------------
  // What retention keeps
  // ---------------------------------------------------------------------------------------------

  /** How many of a newest-first list are not older than the cutoff. */
  function FreshCount(own: seq<Snapshot>, cutoff: int): (k: nat)
    ensures k <= |own|
  {
    if own == [] || own[0].at < cutoff then 0 else 1 + FreshCount(own[1..], cutoff)
  }

  lemma {:induction false} FreshAreFirst(own: seq<Snapshot>, cutoff: int)
    requires Sorted(own)
    ensures forall i :: 0 <= i < |own| ==> (own[i].at >= cutoff <==> i < FreshCount(own, cutoff))
  {
    if own != [] {
      FreshAreFirst(own[1..], cutoff);
      forall i | 0 <= i < |own|
        ensures own[i].at >= cutoff <==> i < FreshCount(own, cutoff)
      {
        if i > 0 {
          assert own[i] == own[1..][i - 1] && Newer(own[0], own[i]);
        }
      }
    }
  }

  function KeepCount(own: seq<Snapshot>, cutoff: int, max: Option<int>): nat {
    Min(FreshCount(own, cutoff), Limit(|own|, max))
  }

  lemma InSuffix(own: seq<Snapshot>, limit: nat, i: nat)
    requires UniqueIds(own) && limit <= |own| && i < |own|
    ensures own[i] in own[limit..] <==> i >= limit
  {
    if i >= limit {
      assert own[limit..][i - limit] == own[i];
    } else {
      forall j | 0 <= j < |own[limit..]|
        ensures own[limit..][j] != own[i]
      {
        assert own[limit..][j] == own[limit + j];
      }
    }
  }

  lemma DoomedRow(rows: seq<Snapshot>, cutoff: int, max: Option<int>, s: Snapshot)
    requires UniqueIds(rows) && s in rows
    ensures s.id in Doomed(rows, cutoff, max) <==> s.at < cutoff || Beyond(rows, s, max)
  {
    forall t | t in rows && t.id == s.id
      ensures t == s
    {
    }
  }

  lemma DoomedAt(rows: seq<Snapshot>, cutoff: int, max: Option<int>, d: Device, i: nat)
    requires Sorted(rows) && UniqueIds(rows) && i < |Of(rows, d)|
    ensures Of(rows, d)[i].id in Doomed(rows, cutoff, max) <==> i >= KeepCount(Of(rows, d), cutoff, max)
  {
    var own := Of(rows, d);
    assert own[i] in own;
    OfSorted(rows, d);
    FreshAreFirst(own, cutoff);
    InSuffix(own, Limit(|own|, max), i);
    DoomedRow(rows, cutoff, max, own[i]);
  }

  /**
   Retention leaves of each device's newest-first list a beginning: the snapshots that are not older than the
   cutoff and among the newest n. (For a negative n the slice counts from the end; see Limit.)
   */
  lemma RetentionKeepsPrefix(st: Store, cutoff: int, max: Option<int>, d: Device)
    requires Sorted(st.rows) && UniqueIds(st.rows)
    ensures var own := Of(st.rows, d);
            && Of(Retain(st, cutoff, max).rows, d) == own[..KeepCount(own, cutoff, max)]
            && (forall i :: 0 <= i < |own| ==> (own[i] in Of(Retain(st, cutoff, max).rows, d) <==>
                                                own[i].at >= cutoff && i < Limit(|own|, max)))
  {
    var own, doomed := Of(st.rows, d), Doomed(st.rows, cutoff, max);
    forall i | 0 <= i < |own|
      ensures own[i].id in doomed <==> i >= KeepCount(own, cutoff, max)
    {
      DoomedAt(st.rows, cutoff, max, d, i);
    }
    OfSorted(st.rows, d);
    OfWithout(st.rows, doomed, d);
    WithoutIsPrefix(own, doomed, KeepCount(own, cutoff, max));
    FreshAreFirst(own, cutoff);
  }

  /** A diff survives exactly if both its snapshots do. */
  lemma DiffsFollowSnapshots(st: Store, cutoff: int, max: Option<int>, diff: Diff)
    requires diff in st.diffs && diff.from in Ids(st.rows) && diff.to in Ids(st.rows)
    ensures diff in Retain(st, cutoff, max).diffs <==>
              diff.from in Ids(Retain(st, cutoff, max).rows) && diff.to in Ids(Retain(st, cutoff, max).rows)
  {
  }

  lemma IdsOne(rows: seq<Snapshot>)
    requires UniqueIds(rows) && rows != []
    ensures UniqueIds(rows[1..]) && rows[0].id !in Ids(rows[1..]) && Ids(rows) == {rows[0].id} + Ids(rows[1..])
  {
    var rest := rows[1..];
    assert forall i :: 0 <= i < |rest| ==> rest[i] == rows[i + 1];
    assert rows == [rows[0]] + rest;
  }

  lemma {:induction false} WithoutCount(rows: seq<Snapshot>, doomed: set<Id>)
    requires UniqueIds(rows)
    ensures |Without(rows, doomed)| + |doomed * Ids(rows)| == |rows|
  {
    if rows != [] {
      IdsOne(rows);
      WithoutCount(rows[1..], doomed);
      WithoutOne(rows, doomed);
      DropOne(doomed, rows[0].id, Ids(rows[1..]));
    }
  }

  lemma DropOne(doomed: set<Id>, id: Id, rest: set<Id>)
    requires id !in rest
    ensures |doomed * ({id} + rest)| == |doomed * rest| + if id in doomed then 1 else 0
  {
    if id in doomed {
      assert doomed * ({id} + rest) == {id} + doomed * rest;
    } else {
      assert doomed * ({id} + rest) == doomed * rest;
    }
  }

  /** The number that the pass returns is the number of snapshots it removed. */
  lemma RetentionCounts(st: Store, cutoff: int, max: Option<int>)
    requires UniqueIds(st.rows)
    ensures |Doomed(st.rows, cutoff, max)| == |st.rows| - |Retain(st, cutoff, max).rows|
  {
    var doomed := Doomed(st.rows, cutoff, max);
    WithoutCount(st.rows, doomed);
    assert doomed * Ids(st.rows) == doomed;
  }

  lemma {:induction false} WithoutSorted(rows: seq<Snapshot>, doomed: set<Id>)
    requires Sorted(rows) && UniqueIds(rows)
    ensures Sorted(Without(rows, doomed)) && UniqueIds(Without(rows, doomed))
  {
    if rows != [] {
      Head(rows);
      WithoutSorted(rows[1..], doomed);
      ConsSorted(rows[0], Without(rows[1..], doomed));
    }
  }

  lemma {:induction false} KeptAreFresh(own: seq<Snapshot>, cutoff: int, k: nat)
    requires k <= FreshCount(own, cutoff)
    ensures FreshCount(own[..k], cutoff) == k
  {
    if k > 0 {
      KeptAreFresh(own[1..], cutoff, k - 1);
      assert own[..k][1..] == own[1..][..k - 1];
    }
  }

  lemma KeptList(st: Store, cutoff: int, max: Option<int>, d: Device)
    requires Sorted(st.rows) && UniqueIds(st.rows)
    ensures var once := Retain(st, cutoff, max);
            Sorted(once.rows) && UniqueIds(once.rows) && FreshCount(Of(once.rows, d), cutoff) == |Of(once.rows, d)|
    ensures var own := Of(st.rows, d);
            |Of(Retain(st, cutoff, max).rows, d)| == KeepCount(own, cutoff, max)
  {
    var own := Of(st.rows, d);
    RetentionKeepsPrefix(st, cutoff, max, d);
    OfSorted(st.rows, d);
    KeptAreFresh(own, cutoff, KeepCount(own, cutoff, max));
    WithoutSorted(st.rows, Doomed(st.rows, cutoff, max));
  }

  lemma SecondPassDooms(rows: seq<Snapshot>, cutoff: int, max: Option<int>, s: Snapshot)
    requires Sorted(rows) && UniqueIds(rows) && s in rows
    requires FreshCount(Of(rows, s.device), cutoff) == |Of(rows, s.device)|
    requires max.Some? && max.value >= 0 ==> |Of(rows, s.device)| <= max.value
    ensures max == None || max.value >= 0 ==> s.id !in Doomed(rows, cutoff, max)
    ensures max.Some? && max.value < 0 ==> Doomed(rows, cutoff, max) != {}
  {
    var own := Of(rows, s.device);
    assert s in own;
    var i :| 0 <= i < |own| && own[i] == s;
    DoomedAt(rows, cutoff, max, s.device, i);
    DoomedAt(rows, cutoff, max, s.device, |own| - 1);
  }

  /**
   A second pass with the same cutoff removes nothing, exactly if there is no limit, or it is not negative, or the first
   pass already left nothing. With a negative limit every pass removes more, until the table is empty.
   */
  lemma RetentionIsStableExactly(st: Store, cutoff: int, max: Option<int>)
    requires Sorted(st.rows) && UniqueIds(st.rows)
    ensures var once := Retain(st, cutoff, max);
            Doomed(once.rows, cutoff, max) == {} <==> max == None || max.value >= 0 || once.rows == []
  {
    var once := Retain(st, cutoff, max);
    forall s | s in once.rows
      ensures max == None || max.value >= 0 ==> s.id !in Doomed(once.rows, cutoff, max)
    {
      SecondPassOn(st, cutoff, max, s);
    }
    if once.rows != [] {
      SecondPassOn(st, cutoff, max, once.rows[0]);
    }
  }

  lemma SecondPassOn(st: Store, cutoff: int, max: Option<int>, s: Snapshot)
    requires Sorted(st.rows) && UniqueIds(st.rows) && s in Retain(st, cutoff, max).rows
    ensures max == None || max.value >= 0 ==> s.id !in Doomed(Retain(st, cutoff, max).rows, cutoff, max)
    ensures max.Some? && max.value < 0 ==> Doomed(Retain(st, cutoff, max).rows, cutoff, max) != {}
  {
    KeptList(st, cutoff, max, s.device);
    SecondPassDooms(Retain(st, cutoff, max).rows, cutoff, max, s);
  }

  // ---------------------------------------------------------------------------------------------
  // Stored diffs, over every run
  // ---------------------------------------------------------------------------------------------

  datatype Step = DoBackup(device: Device, text: Text, id: Id, now: int) | DoRetain(cutoff: int, max: Option<int>)

  /** A new snapshot gets an unused identifier. */
  predicate Enabled(st: Store, a: Step) {
    a.DoBackup? ==> a.id !in Ids(st.rows)
  }

  function Apply(st: Store, tools: Tools, a: Step): Store {
    match a
    case DoBackup(d, text, id, now) => Backup(st, tools, d, text, id, now)
    case DoRetain(cutoff, max) => Retain(st, cutoff, max)
  }

  ghost predicate IsRun(states: seq<Store>, steps: seq<Step>, tools: Tools) {
    && |states| == |steps| + 1
    && states[0].rows == [] && states[0].diffs == []
    && forall i :: 0 <= i < |steps| ==>
         Enabled(states[i], steps[i]) && states[i + 1] == Apply(states[i], tools, steps[i])
  }

  ghost predicate Between(tools: Tools, diff: Diff, a: Snapshot, b: Snapshot) {
    Joins(diff, a.id, b.id) && a.device == b.device == diff.device && a.hash != b.hash
      && diff.summary == tools.summary(a.text, b.text)
  }

  /** A stored diff joins two stored snapshots and is what recomputing it would give. */
  ghost predicate Sound(rows: seq<Snapshot>, tools: Tools, diff: Diff) {
    exists a, b :: a in rows && b in rows && Between(tools, diff, a, b)
  }

  ghost predicate Inv(st: Store, tools: Tools) {
    && Sorted(st.rows) && UniqueIds(st.rows)
    && forall diff :: diff in st.diffs ==> Sound(st.rows, tools, diff)
  }

  lemma BackupInv(st: Store, tools: Tools, d: Device, text: Text, id: Id, now: int)
    requires Inv(st, tools) && id !in Ids(st.rows)
    ensures Inv(Backup(st, tools, d, text, id, now), tools)
  {
    var s, after := Snapshot(id, d, text, tools.hash(text), now), Backup(st, tools, d, text, id, now);
    InsertSorted(st.rows, s);
    forall diff | diff in after.diffs
      ensures Sound(after.rows, tools, diff)
    {
      if diff in st.diffs {
        var a, b :| a in st.rows && b in st.rows && Between(tools, diff, a, b);
        assert a in after.rows && b in after.rows;
      } else {
        var previous := Of(st.rows, d)[0];
        assert previous in Of(st.rows, d);
        assert previous in after.rows && s in after.rows && Between(tools, diff, previous, s);
      }
    }
  }

  lemma RetainInv(st: Store, tools: Tools, cutoff: int, max: Option<int>)
    requires Inv(st, tools)
    ensures Inv(Retain(st, cutoff, max), tools)
  {
    var after := Retain(st, cutoff, max);
    WithoutSorted(st.rows, Doomed(st.rows, cutoff, max));
    forall diff | diff in after.diffs
      ensures Sound(after.rows, tools, diff)
    {
      var a, b :| a in st.rows && b in st.rows && Between(tools, diff, a, b);
      assert a in after.rows && b in after.rows;
    }
  }

  lemma {:induction false} InvAlways(states: seq<Store>, steps: seq<Step>, tools: Tools, i: nat)
    requires IsRun(states, steps, tools) && i < |states|
    ensures Inv(states[i], tools)
  {
    if i > 0 {
      InvAlways(states, steps, tools, i - 1);
      assert states[i - 1 + 1] == Apply(states[i - 1], tools, steps[i - 1]);
      match steps[i - 1]
      case DoBackup(d, text, id, now) => BackupInv(states[i - 1], tools, d, text, id, now);
      case DoRetain(cutoff, max) => RetainInv(states[i - 1], tools, cutoff, max);
    }
  }

  /**
   Whatever the clock does, drift detection gives the same verdict and the same summary from a stored diff as by
   recomputing: the stored diffs are a cache that is never wrong.
   */
  lemma DriftIgnoresTheCache(states: seq<Store>, steps: seq<Step>, tools: Tools, i: nat, d: Device)
    requires IsRun(states, steps, tools) && i < |states|
    ensures DetectDrift(states[i], tools, d) == DetectDrift(states[i].(diffs := []), tools, d)
  {
    var own := Of(states[i].rows, d);
    InvAlways(states, steps, tools, i);
    if |own| > 1 {
      assert own[0] in own && own[1] in own;
      FoundIsRecomputed(states[i], tools, own[1], own[0]);
    }
  }

  lemma FoundIsRecomputed(st: Store, tools: Tools, from: Snapshot, to: Snapshot)
    requires Inv(st, tools) && from in st.rows && to in st.rows
    ensures var found := FindDiff(st.diffs, from.id, to.id);
            found.Some? ==> found.value.summary == tools.summary(from.text, to.text)
  {
    var found := FindDiff(st.diffs, from.id, to.id);
    if found.Some? {
      var a, b :| a in st.rows && b in st.rows && Between(tools, found.value, a, b);
      assert a == from && b == to;
    }
  }

  ghost predicate HasDiff(diffs: seq<Diff>, from: Id, to: Id) {
    exists x :: x in diffs && Joins(x, from, to)
  }

  ghost predicate CoveredAt(own: seq<Snapshot>, diffs: seq<Diff>, n: nat)
    requires 0 < n < |own|
  {
    own[n].hash != own[n - 1].hash <==> HasDiff(diffs, own[n].id, own[n - 1].id)
  }

  /** Consecutive snapshots have a stored diff exactly if their hashes differ. */
  ghost predicate CoveredList(own: seq<Snapshot>, diffs: seq<Diff>) {
    forall n :: 0 < n < |own| ==> CoveredAt(own, diffs, n)
  }

  ghost predicate Covered(st: Store, d: Device) {
    CoveredList(Of(st.rows, d), st.diffs)
  }

  /** The snapshot comes first in the list of its device, or between snapshots of its own hash. */
  predicate FitsIn(own: seq<Snapshot>, s: Snapshot) {
    var p := Position(own, s);
    p == 0 || (own[p - 1].hash == s.hash && (p < |own| ==> own[p].hash == s.hash))
  }

  /** The diffs after a backup, seen from the snapshot it adds: one to it from the latest before, and none from it. */
  lemma DiffsAround(st: Store, tools: Tools, s: Snapshot, from: Snapshot, to: Snapshot)
    requires Inv(st, tools) && s.id !in Ids(st.rows) && from in st.rows && to in st.rows
    ensures var all := st.diffs + NewDiffs(tools, Latest(st.rows, s.device), s);
            && (HasDiff(all, from.id, to.id) <==> HasDiff(st.diffs, from.id, to.id))
            && (HasDiff(all, from.id, s.id) <==> Latest(st.rows, s.device) == Some(from) && from.hash != s.hash)
            && !HasDiff(all, s.id, to.id)
  {
    var latest := Latest(st.rows, s.device);
    var added := NewDiffs(tools, latest, s);
    var all := st.diffs + added;
    assert forall x :: x in all <==> x in st.diffs || x in added;
    forall x | x in st.diffs
      ensures x.from in Ids(st.rows) && x.to in Ids(st.rows)
    {
      assert Sound(st.rows, tools, x);
    }
    if latest.Some? {
      assert latest.value in Of(st.rows, s.device);
      assert latest.value in st.rows;
    }
    if latest == Some(from) && from.hash != s.hash {
      assert added[0] in all && Joins(added[0], from.id, s.id);
    }
  }

  /**
   What `all` has over `diffs` concerns the snapshot put at p only: a diff to it from the first one, if the hashes
   differ.
   */
  ghost predicate OnlyToNew(own: seq<Snapshot>, s: Snapshot, diffs: seq<Diff>, all: seq<Diff>) {
    && (forall a, b :: a in own && b in own ==> (HasDiff(all, a.id, b.id) <==> HasDiff(diffs, a.id, b.id)))
    && (forall i :: 0 <= i < |own| ==> (HasDiff(all, own[i].id, s.id) <==> i == 0 && own[i].hash != s.hash))
    && (forall b :: b in own ==> !HasDiff(all, s.id, b.id))
  }

  lemma CoveredBeside(own: seq<Snapshot>, s: Snapshot, p: nat, diffs: seq<Diff>, all: seq<Diff>, n: nat)
    requires CoveredList(own, diffs) && OnlyToNew(own, s, diffs, all) && p <= |own| && 0 < n <= |own| && n != p
             && n != p + 1
    ensures CoveredAt(own[..p] + [s] + own[p..], all, n)
  {
    var m := if n < p then n else n - 1;
    assert CoveredAt(own, diffs, m);
    assert own[m] in own && own[m - 1] in own;
  }

  lemma CoveredAround(own: seq<Snapshot>, s: Snapshot, p: nat, diffs: seq<Diff>, all: seq<Diff>)
    requires OnlyToNew(own, s, diffs, all) && p <= |own|
    ensures p > 0 ==> (CoveredAt(own[..p] + [s] + own[p..], all, p) <==> own[p - 1].hash == s.hash)
    ensures p < |own| ==> (CoveredAt(own[..p] + [s] + own[p..], all, p + 1) <==> p == 0 || own[p].hash == s.hash)
  {
    var later := own[..p] + [s] + own[p..];
    assert later[p] == s;
    if p > 0 {
      assert later[p - 1] == own[p - 1] && own[p - 1] in own;
    }
    if p < |own| {
      assert later[p + 1] == own[p];
    }
  }

  lemma InsertCovered(own: seq<Snapshot>, s: Snapshot, diffs: seq<Diff>, all: seq<Diff>)
    requires CoveredList(own, diffs) && OnlyToNew(own, s, diffs, all)
    ensures CoveredList(Insert(own, s), all) <==> FitsIn(own, s)
  {
    var p := Position(own, s);
    var later := own[..p] + [s] + own[p..];
    InsertAt(own, s);
    CoveredAround(own, s, p, diffs, all);
    if CoveredList(later, all) {
      assert p > 0 ==> CoveredAt(later, all, p);
      assert p < |own| ==> CoveredAt(later, all, p + 1);
    }
    if FitsIn(own, s) {
      forall n | 0 < n < |later|
        ensures CoveredAt(later, all, n)
      {
        if n != p && n != p + 1 {
          CoveredBeside(own, s, p, diffs, all, n);
        }
      }
    }
  }

  /**
   When a backup keeps the stored diffs of its device complete: exactly if its snapshot comes first, or falls
   between snapshots of its own hash. Those of the other devices it always keeps.
   */
  lemma BackupCoversExactly(st: Store, tools: Tools, d: Device, text: Text, id: Id, now: int, e: Device)
    requires Inv(st, tools) && id !in Ids(st.rows) && Covered(st, e)
    ensures Covered(Backup(st, tools, d, text, id, now), e) <==>
              d != e || FitsIn(Of(st.rows, d), Snapshot(id, d, text, tools.hash(text), now))
  {
    var s, own := Snapshot(id, d, text, tools.hash(text), now), Of(st.rows, e);
    var all := st.diffs + NewDiffs(tools, Latest(st.rows, d), s);
    OfInsert(st.rows, s, e);
    OfSorted(st.rows, e);
    forall a, b | a in own && b in own
      ensures HasDiff(all, a.id, b.id) <==> HasDiff(st.diffs, a.id, b.id)
      ensures HasDiff(all, a.id, s.id) <==> Latest(st.rows, d) == Some(a) && a.hash != s.hash
      ensures !HasDiff(all, s.id, b.id)
    {
      DiffsAround(st, tools, s, a, b);
    }
    if d == e {
      forall i | 0 <= i < |own|
        ensures HasDiff(all, own[i].id, s.id) <==> i == 0 && own[i].hash != s.hash
      {
        assert own[i] in own;
      }
      InsertCovered(own, s, st.diffs, all);
    } else {
      forall n | 0 < n < |own|
        ensures CoveredAt(own, all, n)
      {
        assert CoveredAt(own, st.diffs, n) && own[n] in own && own[n - 1] in own;
      }
    }
  }

  lemma RetainCovers(st: Store, cutoff: int, max: Option<int>, e: Device)
    requires Sorted(st.rows) && UniqueIds(st.rows) && Covered(st, e)
    ensures Covered(Retain(st, cutoff, max), e)
  {
    var own, after := Of(st.rows, e), Retain(st, cutoff, max);
    var kept := Of(after.rows, e);
    RetentionKeepsPrefix(st, cutoff, max, e);
    forall n | 0 < n < |kept|
      ensures CoveredAt(kept, after.diffs, n)
    {
      assert CoveredAt(own, st.diffs, n);
      assert kept[n - 1] == own[n - 1] && kept[n] == own[n];
      assert kept[n - 1] in kept && kept[n] in kept;
      if HasDiff(st.diffs, own[n].id, own[n - 1].id) {
        var x :| x in st.diffs && Joins(x, own[n].id, own[n - 1].id);
        assert x in after.diffs;
      }
    }
  }

  predicate StepFits(st: Store, tools: Tools, d: Device, a: Step) {
    a.DoBackup? && a.device == d ==> FitsIn(Of(st.rows, d), Snapshot(a.id, d, a.text, tools.hash(a.text), a.now))
  }

  lemma CoveredStep(st: Store, tools: Tools, d: Device, a: Step)
    requires Inv(st, tools) && Enabled(st, a) && Covered(st, d)
    ensures Covered(Apply(st, tools, a), d) <==> StepFits(st, tools, d, a)
  {
    match a
    case DoBackup(e, text, id, now) => BackupCoversExactly(st, tools, e, text, id, now, d);
    case DoRetain(cutoff, max) => RetainCovers(st, cutoff, max, d);
  }

  lemma {:induction false} CoveredWhileFitting(states: seq<Store>, steps: seq<Step>, tools: Tools, d: Device, n: nat)
    requires IsRun(states, steps, tools) && n < |states|
    requires forall i :: 0 <= i < n ==> StepFits(states[i], tools, d, steps[i])
    ensures Covered(states[n], d)
  {
    if n > 0 {
      CoveredWhileFitting(states, steps, tools, d, n - 1);
      CoveredAfter(states, steps, tools, d, n - 1);
    }
  }

  lemma CoveredAfter(states: seq<Store>, steps: seq<Step>, tools: Tools, d: Device, i: nat)
    requires IsRun(states, steps, tools) && i < |steps| && Covered(states[i], d)
    ensures Covered(states[i + 1], d) <==> StepFits(states[i], tools, d, steps[i])
  {
    InvAlways(states, steps, tools, i);
    CoveredStep(states[i], tools, d, steps[i]);
    assert states[i + 1] == Apply(states[i], tools, steps[i]);
  }

  /**
   Over any run of backups and retention passes the stored diffs between consecutive surviving snapshots of a device
   are complete at every moment exactly if each of its backups came first or between snapshots of its own hash.
   */
  lemma DiffsAreCompleteExactly(states: seq<Store>, steps: seq<Step>, tools: Tools, d: Device)
    requires IsRun(states, steps, tools)
    ensures (forall i :: 0 <= i < |states| ==> Covered(states[i], d)) <==>
            (forall i :: 0 <= i < |steps| ==> StepFits(states[i], tools, d, steps[i]))
  {
    if forall i :: 0 <= i < |states| ==> Covered(states[i], d) {
      forall i | 0 <= i < |steps|
        ensures StepFits(states[i], tools, d, steps[i])
      {
        CoveredAfter(states, steps, tools, d, i);
      }
    }
    if forall i :: 0 <= i < |steps| ==> StepFits(states[i], tools, d, steps[i]) {
      forall n | 0 <= n < |states|
        ensures Covered(states[n], d)
      {
        CoveredWhileFitting(states, steps, tools, d, n);
      }
    }
  }

  /** So they are complete if each backup of the device is stamped later than the newest snapshot of that device. */
  lemma DiffsAreComplete(states: seq<Store>, steps: seq<Step>, tools: Tools, i: nat, d: Device)
    requires IsRun(states, steps, tools) && i < |states|
    requires forall k :: 0 <= k < |steps| && steps[k].DoBackup? && steps[k].device == d ==>
               Latest(states[k].rows, d).Some? ==> Latest(states[k].rows, d).value.at < steps[k].now
    ensures Covered(states[i], d)
  {
    DiffsAreCompleteExactly(states, steps, tools, d);
  }

  /**
   Without such a clock they need not be: a backup stamped before the newest snapshot stores the diff the other way
   round.
   */
  lemma CompletenessNeedsTheClock(tools: Tools, d: Device, text: Text, changed: Text)
    requires tools.hash(text) != tools.hash(changed)
    ensures var st := Backup(Store([], []), tools, d, text, 1, 10);
            Enabled(st, DoBackup(d, changed, 2, 5)) && Covered(st, d)
              && !Covered(Backup(st, tools, d, changed, 2, 5), d)
  {
    var a, b := Snapshot(1, d, text, tools.hash(text), 10), Snapshot(2, d, changed, tools.hash(changed), 5);
    var st := Backup(Store([], []), tools, d, text, 1, 10);
    assert st.rows == [a] && st.diffs == [] && Of([a], d) == [a];
    BackupCoversExactly(st, tools, d, changed, 2, 5, d);
    assert !Newer(b, a) && [a][1..] == [];
    assert Position([a], b) == 1;
  }
}
