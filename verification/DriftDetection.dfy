/**
 What a backup, a retention pass and a drift question mean for one device, said by the order of its snapshots alone.
 */
module DriftDetection {
  import opened Wrappers
  import opened SnapshotHistory

  ghost predicate Listed(rows: seq<Snapshot>, d: Device, s: Snapshot) {
    s in rows && s.device == d
  }

  /** `a` is the newest snapshot of the device. */
  ghost predicate IsNewest(rows: seq<Snapshot>, d: Device, a: Snapshot) {
    Listed(rows, d, a) && forall s :: Listed(rows, d, s) && s != a ==> Newer(a, s)
  }

  /** `b` is the newest but one. */
  ghost predicate IsSecond(rows: seq<Snapshot>, d: Device, a: Snapshot, b: Snapshot) {
    && IsNewest(rows, d, a) && Listed(rows, d, b) && b != a
    && forall s :: Listed(rows, d, s) && s != a && s != b ==> Newer(b, s)
  }

  lemma FirstIsNewest(rows: seq<Snapshot>, d: Device, a: Snapshot)
    requires Sorted(rows) && UniqueIds(rows) && IsNewest(rows, d, a)
    ensures Of(rows, d) != [] && Of(rows, d)[0] == a
  {
    var own := Of(rows, d);
    OfSorted(rows, d);
    assert a in own;
    assert own[0] in own;
    assert Listed(rows, d, own[0]);
    if own[0] != a {
      FirstIsFirst(own, a);
    }
  }

  lemma FirstIsFirst(own: seq<Snapshot>, s: Snapshot)
    requires Sorted(own) && s in own && s != own[0]
    ensures Newer(own[0], s)
  {
  }

  lemma NextIsSecond(rows: seq<Snapshot>, d: Device, a: Snapshot, b: Snapshot)
    requires Sorted(rows) && UniqueIds(rows) && IsSecond(rows, d, a, b)
    ensures |Of(rows, d)| > 1 && Of(rows, d)[0] == a && Of(rows, d)[1] == b
  {
    var own := Of(rows, d);
    FirstIsNewest(rows, d, a);
    OfSorted(rows, d);
    assert b in own;
    var i :| 0 <= i < |own| && own[i] == b;
    assert own[1] in own && own[1].id != own[0].id;
    assert Listed(rows, d, own[1]);
    if i > 1 {
      assert Newer(own[1], own[i]);
    }
  }

  /**
   In every reachable state drift compares the newest snapshot a of the device with the newest but one, b: it is
   detected exactly if their hashes differ, and then summarized from b's text to a's.
   */
  lemma DriftExactly(states: seq<Store>, steps: seq<Step>, tools: Tools, i: nat, d: Device, a: Snapshot, b: Snapshot)
    requires IsRun(states, steps, tools) && i < |states| && IsSecond(states[i].rows, d, a, b)
    ensures var drift := DetectDrift(states[i], tools, d);
            && drift.latest == Some(a.id) && drift.previous == Some(b.id)
            && (drift.detected <==> a.hash != b.hash)
            && drift.summary == if a.hash != b.hash then tools.summary(b.text, a.text) else []
  {
    InvAlways(states, steps, tools, i);
    NextIsSecond(states[i].rows, d, a, b);
    FoundIsRecomputed(states[i], tools, b, a);
  }

  /** With one snapshot or none there is nothing to compare. */
  lemma NoDriftWithoutTwo(states: seq<Store>, steps: seq<Step>, tools: Tools, i: nat, d: Device)
    requires IsRun(states, steps, tools) && i < |states|
    requires forall s, t :: Listed(states[i].rows, d, s) && Listed(states[i].rows, d, t) ==> s == t
    ensures var drift := DetectDrift(states[i], tools, d);
            && !drift.detected && drift.previous == None && drift.summary == []
            && (forall s :: Listed(states[i].rows, d, s) ==> drift.latest == Some(s.id))
            && ((forall s :: !Listed(states[i].rows, d, s)) ==> drift.latest == None)
  {
    var own := Of(states[i].rows, d);
    InvAlways(states, steps, tools, i);
    OfSorted(states[i].rows, d);
    if own != [] {
      assert Listed(states[i].rows, d, own[0]);
    }
    if |own| > 1 {
      assert Listed(states[i].rows, d, own[1]);
    }
  }

  // ---------------------------------------------------------------------------------------------
  // Backups
  // ---------------------------------------------------------------------------------------------

  function Taken(tools: Tools, a: Step): Snapshot
    requires a.DoBackup?
  {
    Snapshot(a.id, a.device, a.text, tools.hash(a.text), a.now)
  }

  lemma BackupIs(st: Store, tools: Tools, a: Step)
    requires Inv(st, tools) && Enabled(st, a) && a.DoBackup?
    ensures forall r :: r in Apply(st, tools, a).rows <==> r in st.rows || r == Taken(tools, a)
    ensures |Apply(st, tools, a).rows| == |st.rows| + 1
  {
    InsertSorted(st.rows, Taken(tools, a));
    InsertAt(st.rows, Taken(tools, a));
  }

  /**
   A backup adds exactly the snapshot of the text it read, with that text's hash, and at most one diff: from the
   newest snapshot of the device before, exactly if their hashes differ.
   */
  lemma BackupAdds(states: seq<Store>, steps: seq<Step>, tools: Tools, i: nat)
    requires IsRun(states, steps, tools) && i < |steps| && steps[i].DoBackup?
    ensures var d, s := steps[i].device, Taken(tools, steps[i]);
            && (forall r :: r in states[i + 1].rows <==> r in states[i].rows || r == s)
            && (forall a :: IsNewest(states[i].rows, d, a) ==>
                  states[i + 1].diffs == states[i].diffs +
                  if a.hash != s.hash then [Diff(d, a.id, s.id, tools.summary(a.text, s.text))] else [])
            && ((forall r :: !Listed(states[i].rows, d, r)) ==> states[i + 1].diffs == states[i].diffs)
  {
    var d, s := steps[i].device, Taken(tools, steps[i]);
    InvAlways(states, steps, tools, i);
    BackupIs(states[i], tools, steps[i]);
    forall a | IsNewest(states[i].rows, d, a)
      ensures Latest(states[i].rows, d) == Some(a)
    {
      FirstIsNewest(states[i].rows, d, a);
    }
    var own := Of(states[i].rows, d);
    if own != [] {
      assert Listed(states[i].rows, d, own[0]);
    }
    assert states[i + 1] == Apply(states[i], tools, steps[i]);
  }

  /** Step i is the last backup of the device before step j, later than all before it, and no pass removed it since. */
  ghost predicate LastBefore(states: seq<Store>, steps: seq<Step>, tools: Tools, i: nat, j: nat, d: Device)
    requires IsRun(states, steps, tools) && i < j <= |steps|
  {
    && steps[i].DoBackup? && steps[i].device == d
    && (forall s :: Listed(states[i].rows, d, s) ==> s.at < steps[i].now)
    && (forall k :: i < k < j ==> !(steps[k].DoBackup? && steps[k].device == d))
    && (forall k :: i < k <= j ==> Taken(tools, steps[i]) in states[k].rows)
  }

  lemma OtherStep(states: seq<Store>, steps: seq<Step>, tools: Tools, k: nat, d: Device, s: Snapshot)
    requires IsRun(states, steps, tools) && k < |steps| && !(steps[k].DoBackup? && steps[k].device == d)
    ensures Listed(states[k + 1].rows, d, s) ==> Listed(states[k].rows, d, s)
  {
    InvAlways(states, steps, tools, k);
    assert states[k + 1] == Apply(states[k], tools, steps[k]);
    if steps[k].DoBackup? {
      BackupIs(states[k], tools, steps[k]);
    }
  }

  lemma BecomesNewest(states: seq<Store>, steps: seq<Step>, tools: Tools, i: nat)
    requires IsRun(states, steps, tools) && i < |steps| && steps[i].DoBackup?
    requires forall s :: Listed(states[i].rows, steps[i].device, s) ==> s.at < steps[i].now
    ensures IsNewest(states[i + 1].rows, steps[i].device, Taken(tools, steps[i]))
  {
    InvAlways(states, steps, tools, i);
    BackupIs(states[i], tools, steps[i]);
    assert states[i + 1] == Apply(states[i], tools, steps[i]);
    forall s | Listed(states[i + 1].rows, steps[i].device, s) && s != Taken(tools, steps[i])
      ensures Newer(Taken(tools, steps[i]), s)
    {
      assert Listed(states[i].rows, steps[i].device, s);
    }
  }

  lemma {:induction false} StaysNewest(states: seq<Store>, steps: seq<Step>, tools: Tools, i: nat, j: nat, d: Device)
    requires IsRun(states, steps, tools) && i < j <= |steps| && LastBefore(states, steps, tools, i, j, d)
    ensures IsNewest(states[j].rows, d, Taken(tools, steps[i]))
    decreases j
  {
    if j == i + 1 {
      BecomesNewest(states, steps, tools, i);
    } else {
      StaysNewest(states, steps, tools, i, j - 1, d);
      StillNewest(states, steps, tools, j - 1, d, Taken(tools, steps[i]));
    }
  }

  lemma StillNewest(states: seq<Store>, steps: seq<Step>, tools: Tools, k: nat, d: Device, a: Snapshot)
    requires IsRun(states, steps, tools) && k < |steps| && !(steps[k].DoBackup? && steps[k].device == d)
    requires IsNewest(states[k].rows, d, a) && a in states[k + 1].rows
    ensures IsNewest(states[k + 1].rows, d, a)
  {
    forall s | Listed(states[k + 1].rows, d, s)
      ensures Listed(states[k].rows, d, s)
    {
      OtherStep(states, steps, tools, k, d, s);
    }
  }

  /**
   After two consecutive backups of a device at rising times, or at one time with rising ids, whatever happened to
   other devices in between, drift is detected exactly if the hashes of the two texts differ, and is summarized from
   the first text to the second.
   */
  lemma TwoBackupsDrift(states: seq<Store>, steps: seq<Step>, tools: Tools, i: nat, j: nat, d: Device)
    requires IsRun(states, steps, tools) && i < j < |steps| && LastBefore(states, steps, tools, i, j, d)
    requires steps[j].DoBackup? && steps[j].device == d
    requires steps[i].now < steps[j].now || (steps[i].now == steps[j].now && steps[i].id < steps[j].id)
    ensures var drift, changed := DetectDrift(states[j + 1], tools, d),
            tools.hash(steps[i].text) != tools.hash(steps[j].text);
            && drift.latest == Some(steps[j].id) && drift.previous == Some(steps[i].id) && drift.detected == changed
            && drift.summary == if changed then tools.summary(steps[i].text, steps[j].text) else []
  {
    var a, b := Taken(tools, steps[j]), Taken(tools, steps[i]);
    StaysNewest(states, steps, tools, i, j, d);
    InvAlways(states, steps, tools, j);
    BackupIs(states[j], tools, steps[j]);
    assert states[j + 1] == Apply(states[j], tools, steps[j]);
    forall s | Listed(states[j + 1].rows, d, s) && s != a
      ensures Newer(a, s) && Listed(states[j].rows, d, s)
    {
      assert Listed(states[j].rows, d, s);
    }
    assert IsNewest(states[j + 1].rows, d, a);
    assert Listed(states[j + 1].rows, d, b);
    DriftExactly(states, steps, tools, j + 1, d, a, b);
  }

  // ---------------------------------------------------------------------------------------------
  // Retention
  // ---------------------------------------------------------------------------------------------

  /**
   Of n snapshots of a device the one that k others are newer than stays exactly if it is not older than the cutoff
   and no limit was given, or k is below the limit, which counts from the end when it is negative.
   */
  lemma RetainedExactly(st: Store, cutoff: int, max: Option<int>, d: Device, k: nat)
    requires Sorted(st.rows) && UniqueIds(st.rows) && k < |Of(st.rows, d)|
    ensures var own := Of(st.rows, d);
            var s := own[k];
            && Listed(st.rows, d, s) && (forall i :: 0 <= i < |own| ==> (Newer(own[i], s) <==> i < k))
            && (s in Retain(st, cutoff, max).rows <==>
                  s.at >= cutoff && (max.Some? ==> k < if max.value >= 0 then max.value else |own| + max.value))
    ensures forall s :: s in Retain(st, cutoff, max).rows ==> s in st.rows
  {
    var own := Of(st.rows, d);
    OfSorted(st.rows, d);
    RetentionKeepsPrefix(st, cutoff, max, d);
    assert own[k] in own;
    forall i | 0 <= i < |own|
      ensures Newer(own[i], own[k]) <==> i < k
    {
      if i > k {
        assert Newer(own[k], own[i]);
      }
    }
  }
}
