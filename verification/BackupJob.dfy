/** A configuration backup job: its items are backed up one by one into the snapshot history, and a success is final. */
module BackupJob {
  import opened Wrappers
  import opened SnapshotHistory

  datatype ItemStatus = Pending | Success | FailedItem | Unsupported

  datatype Item = Item(device: Device, status: ItemStatus)

  datatype JobStatus = PendingJob | Completed | CompletedWithErrors | FailedJob | CancelledJob

  /** What an item meets: a device with a configuration to read, or any exception before a snapshot is stored. */
  datatype Attempt = Collected(kind: DeviceKind, text: Text, id: Id, now: int) | Raised

  function After(item: Item, a: Attempt): Item {
    if item.status == Success then item
    else match a
      case Collected(kind, _, _, _) => item.(status := if kind.IsUnsupported() then Unsupported else Success)
      case Raised => item.(status := FailedItem)
  }

  /** The items when the first k of them have been visited. */
  function Visited(items: seq<Item>, attempt: nat -> Attempt, k: nat): seq<Item> {
    seq(|items|, i requires 0 <= i < |items| => if i < k then After(items[i], attempt(i)) else items[i])
  }

  function StepOf(item: Item, a: Attempt): seq<Step> {
    if item.status != Success && a.Collected? && !a.kind.IsUnsupported()
    then [DoBackup(item.device, a.text, a.id, a.now)] else []
  }

  /** The backups that visiting the first k items makes. */
  function Backups(items: seq<Item>, attempt: nat -> Attempt, k: nat): seq<Step>
    requires k <= |items|
  {
    if k == 0 then [] else Backups(items, attempt, k - 1) + StepOf(items[k - 1], attempt(k - 1))
  }

  function Replay(st: Store, tools: Tools, steps: seq<Step>): Store
    decreases |steps|
  {
    if steps == [] then st else Apply(Replay(st, tools, steps[..|steps| - 1]), tools, steps[|steps| - 1])
  }

  function Tally(items: seq<Item>, wanted: ItemStatus, k: nat): nat
    requires k <= |items|
  {
    if k == 0 then 0 else Tally(items, wanted, k - 1) + if items[k - 1].status == wanted then 1 else 0
  }

  function Verdict(items: seq<Item>): JobStatus {
    if Tally(items, FailedItem, |items|) > 0 then
      if Tally(items, Success, |items|) == 0 then FailedJob else CompletedWithErrors
    else if Tally(items, Unsupported, |items|) > 0 then CompletedWithErrors
    else Completed
  }

  class ConfigBackupJob {
    const history: ConfigHistory
    var status: JobStatus
    var items: seq<Item>

    constructor (history: ConfigHistory, devices: seq<Device>)
      ensures this.history == history && status == PendingJob && |items| == |devices|
      ensures forall i :: 0 <= i < |items| ==> items[i] == Item(devices[i], Pending)
    {
      this.history, status := history, PendingJob;
      items := seq(|devices|, i requires 0 <= i < |devices| => Item(devices[i], Pending));
    }

    method RunBackupJob(attempt: nat -> Attempt) returns (ok: bool)
      modifies this, history
      ensures ok == (old(status) != CancelledJob)
      ensures !ok ==> status == old(status) && items == old(items) && history.View() == old(history.View())
      ensures ok ==> items == Visited(old(items), attempt, |old(items)|) && status == Verdict(items)
      ensures ok ==> history.View() == Replay(old(history.View()), history.tools,
                                              Backups(old(items), attempt, |old(items)|))
    {
      if status == CancelledJob {
        return false;
      }
      RunItems(attempt);
      status := Judge();
      return true;
    }

    method RunItems(attempt: nat -> Attempt)
      modifies this`items, history
      ensures items == Visited(old(items), attempt, |old(items)|)
      ensures history.View() == Replay(old(history.View()), history.tools, Backups(old(items), attempt, |old(items)|))
    {
      ghost var start, was := items, history.View();
      NoneVisited(start, attempt);
      for k := 0 to |items|
        invariant |items| == |start| && items == Visited(start, attempt, k)
        invariant history.View() == Replay(was, history.tools, Backups(start, attempt, k))
      {
        OneMoreVisited(start, attempt, k);
        RunItem(k, attempt(k));
        ReplayMore(was, history.tools, Backups(start, attempt, k), StepOf(start[k], attempt(k)));
      }
    }

    method RunItem(k: nat, a: Attempt)
      requires k < |items|
      modifies this`items, history
      ensures items == old(items)[k := After(old(items)[k], a)]
      ensures history.View() == Replay(old(history.View()), history.tools, StepOf(old(items)[k], a))
    {
      if items[k].status == Success {
        return;
      }
      match a {
        case Collected(kind, text, id, now) =>
          var ok := history.BackupDeviceConfig(items[k].device, kind, text, id, now);
          ReplayOne(old(history.View()), history.tools, DoBackup(items[k].device, text, id, now));
          items := items[k := items[k].(status := if ok then Success else Unsupported)];
        case Raised => items := items[k := items[k].(status := FailedItem)];
      }
    }

    method Judge() returns (verdict: JobStatus)
      ensures verdict == Verdict(items)
    {
      var successful, failed, skipped := 0, 0, 0;
      for k := 0 to |items|
        invariant successful == Tally(items, Success, k) && failed == Tally(items, FailedItem, k)
                  && skipped == Tally(items, Unsupported, k)
      {
        match items[k].status
        case Success => successful := successful + 1;
        case FailedItem => failed := failed + 1;
        case Unsupported => skipped := skipped + 1;
        case Pending =>
      }
      if failed > 0 {
        return if successful == 0 then FailedJob else CompletedWithErrors;
      }
      return if skipped > 0 then CompletedWithErrors else Completed;
    }
  }

  lemma NoneVisited(items: seq<Item>, attempt: nat -> Attempt)
    ensures Visited(items, attempt, 0) == items
  {
  }

  lemma OneMoreVisited(items: seq<Item>, attempt: nat -> Attempt, k: nat)
    requires k < |items|
    ensures Visited(items, attempt, k)[k] == items[k]
    ensures Visited(items, attempt, k + 1) == Visited(items, attempt, k)[k := After(items[k], attempt(k))]
    ensures Backups(items, attempt, k + 1) == Backups(items, attempt, k) + StepOf(items[k], attempt(k))
  {
  }

  lemma ReplayOne(st: Store, tools: Tools, a: Step)
    ensures Replay(st, tools, [a]) == Apply(st, tools, a)
  {
    assert [a][..0] == [];
  }

  lemma {:induction false} ReplayMore(st: Store, tools: Tools, steps: seq<Step>, more: seq<Step>)
    ensures Replay(st, tools, steps + more) == Replay(Replay(st, tools, steps), tools, more)
    decreases |more|
  {
    if more == [] {
      assert steps + more == steps;
    } else {
      var n := |more| - 1;
      ReplayMore(st, tools, steps, more[..n]);
      assert (steps + more)[..|steps + more| - 1] == steps + more[..n];
    }
  }

  // ---------------------------------------------------------------------------------------------
  // What every run of a job keeps
  // ---------------------------------------------------------------------------------------------

  lemma {:induction false} TallyZero(items: seq<Item>, wanted: ItemStatus, k: nat)
    requires k <= |items|
    ensures Tally(items, wanted, k) == 0 <==> forall i :: 0 <= i < k ==> items[i].status != wanted
  {
    if k > 0 {
      TallyZero(items, wanted, k - 1);
    }
  }

  /**
   After a run: the job is completed exactly if every device has its snapshot, failed exactly if some device
   failed and none has one, and completed with errors otherwise.
   */
  lemma VerdictExactly(items: seq<Item>, attempt: nat -> Attempt)
    ensures var done := Visited(items, attempt, |items|);
            && (Verdict(done) == Completed <==> forall i :: 0 <= i < |done| ==> done[i].status == Success)
            && (Verdict(done) == FailedJob <==>
                  && (exists i :: 0 <= i < |done| && done[i].status == FailedItem)
                  && forall i :: 0 <= i < |done| ==> done[i].status != Success)
            && Verdict(done) in {Completed, FailedJob, CompletedWithErrors}
  {
    var done := Visited(items, attempt, |items|);
    TallyZero(done, Success, |done|);
    TallyZero(done, FailedItem, |done|);
    TallyZero(done, Unsupported, |done|);
    forall i | 0 <= i < |done|
      ensures done[i].status != Pending
    {
      assert done[i] == After(items[i], attempt(i));
    }
  }

  ghost predicate CanBeRead(kind: DeviceKind) {
    kind.driver != "ReadOnlyICMPDriver" && kind.platform != "icmp-only" && kind.vendor != "ICMP"
  }

  /**
   What a run makes of an item: a success stays one and an attempt whose device can be read becomes one; otherwise the
   item is unsupported if its device cannot be read, and failed if the attempt raised.
   */
  lemma ItemAfterRun(items: seq<Item>, attempt: nat -> Attempt, i: nat)
    requires i < |items|
    ensures var done, a := Visited(items, attempt, |items|), attempt(i);
            && |done| == |items| && done[i].device == items[i].device
            && (done[i].status == Success <==> items[i].status == Success || (a.Collected? && CanBeRead(a.kind)))
            && (done[i].status == Unsupported <==>
                  items[i].status != Success && a.Collected? && !CanBeRead(a.kind))
            && (done[i].status == FailedItem <==> items[i].status != Success && a == Raised)
  {
  }

  /** Item i brings the backup b. */
  ghost predicate Brings(items: seq<Item>, attempt: nat -> Attempt, i: nat, b: Step)
    requires i < |items|
  {
    var a := attempt(i);
    && items[i].status != Success && a.Collected? && CanBeRead(a.kind)
    && b == DoBackup(items[i].device, a.text, a.id, a.now)
  }

  /** A run makes exactly the backups of its items that can be read and are no success yet, of what was read there. */
  lemma {:induction false} BackupsExactly(items: seq<Item>, attempt: nat -> Attempt, k: nat, b: Step)
    requires k <= |items|
    ensures b in Backups(items, attempt, k) <==> exists i: nat :: i < k && Brings(items, attempt, i, b)
  {
    if k > 0 {
      BackupsExactly(items, attempt, k - 1, b);
      assert b in StepOf(items[k - 1], attempt(k - 1)) <==> Brings(items, attempt, k - 1, b);
    }
  }

  lemma {:induction false} BackupsCount(items: seq<Item>, attempt: nat -> Attempt, k: nat)
    requires k <= |items|
    ensures |Backups(items, attempt, k)| == Tally(Visited(items, attempt, |items|), Success, k)
            - Tally(items, Success, k)
  {
    if k > 0 {
      BackupsCount(items, attempt, k - 1);
    }
  }

  /** The items after several runs, and all the backups they made. */
  function Rerun(items: seq<Item>, attempts: seq<nat -> Attempt>): seq<Item>
    decreases |attempts|
  {
    if attempts == [] then items else Rerun(Visited(items, attempts[0], |items|), attempts[1..])
  }

  function AllBackups(items: seq<Item>, attempts: seq<nat -> Attempt>): seq<Step>
    decreases |attempts|
  {
    if attempts == [] then []
    else Backups(items, attempts[0], |items|) + AllBackups(Visited(items, attempts[0], |items|), attempts[1..])
  }

  lemma {:induction false} TallyBound(items: seq<Item>, wanted: ItemStatus, k: nat)
    requires k <= |items|
    ensures Tally(items, wanted, k) <= k
  {
    if k > 0 {
      TallyBound(items, wanted, k - 1);
    }
  }

  /**
   However often a job is run again, it makes one snapshot for each item that came to success and none more: as many
   backups as successes were added, so at most one per item.
   */
  lemma {:induction false} OneSnapshotPerItem(items: seq<Item>, attempts: seq<nat -> Attempt>)
    ensures |Rerun(items, attempts)| == |items|
    ensures |AllBackups(items, attempts)| ==
            Tally(Rerun(items, attempts), Success, |items|) - Tally(items, Success, |items|)
    ensures |AllBackups(items, attempts)| <= |items|
    decreases |attempts|
  {
    if attempts != [] {
      OneSnapshotPerItem(Visited(items, attempts[0], |items|), attempts[1..]);
      BackupsCount(items, attempts[0], |items|);
    }
    TallyBound(Rerun(items, attempts), Success, |items|);
  }
}
