/**
 The evidence chain when commands interleave. A command may have read each record file at any earlier moment, each
 file at another one, and it replaces its own file by what it read plus its record, so that records of others can
 get lost. What was executed is justified all the same.
 */
module InterleavedEvidence {
  import opened VendorContracts
  import opened LabStore
  import opened ExcelLabSafety
  import opened EvidenceChain

  /** The store when a command that saw `seen` is done: it replaces the file it writes, if it writes one. */
  function Written(current: Store, a: Action, after: Store): Store {
    match a
    case RunBackup(_) => current.(backups := after.backups)
    case LoseBackupFile(_) => current.(backups := after.backups)
    case RunDryRun(_, _, _) => current.(dryRuns := after.dryRuns)
    case RunEvaluate(_) => current.(evaluations := after.evaluations)
    case RunCertify(_, _, _) => current.(validations := after.validations)
    case RunExecute(_, _, _, _, _, _, _, _) =>
      current.(guards := after.guards, locks := after.locks, executions := after.executions)
  }

  /** A command that is refused, and logs nothing, writes nothing. */
  function ApplyOn(lib: Library, lab: Lab, seen: Store, e: Env, a: Action): Lab {
    var after := Apply(lib, Lab(seen, lab.log), e, a);
    if after.log == lab.log && !a.LoseBackupFile? then lab else Lab(Written(lab.store, a, after.store), after.log)
  }

  /** Each list of records in `seen` was the content of its file at some moment up to state i. */
  ghost predicate SeenBy(labs: seq<Lab>, i: nat, seen: Store)
    requires i < |labs|
  {
    && (exists k :: 0 <= k <= i && seen.backups == labs[k].store.backups)
    && (exists k :: 0 <= k <= i && seen.dryRuns == labs[k].store.dryRuns)
    && (exists k :: 0 <= k <= i && seen.evaluations == labs[k].store.evaluations)
    && (exists k :: 0 <= k <= i && seen.validations == labs[k].store.validations)
  }

  /** Guards, locks and executions in `seen` may be anything. */
  ghost predicate IsInterleaved(lib: Library, labs: seq<Lab>, envs: seq<Env>, actions: seq<Action>, seen: seq<Store>) {
    && |labs| == |actions| + 1 && |envs| == |actions| == |seen|
    && labs[0] == EMPTY
    && forall i :: 0 <= i < |actions| ==>
         SeenBy(labs, i, seen[i]) && labs[i + 1] == ApplyOn(lib, labs[i], seen[i], envs[i], actions[i])
  }

  lemma BackupsRecorded(store: Store, from: Store, log: seq<Event>)
    requires StoreRecorded(Lab(from, log)) && store.backups == from.backups
    ensures forall b :: b in store.backups ==>
              exists j :: 0 <= j < |log| && log[j].BackupSaved? && log[j].b.device == b.device
                          && log[j].b.createdAt == b.createdAt
  {
  }

  /** A store is backed by the log if each of its lists is that of a store that is. */
  lemma MixIsRecorded(store: Store, b: Store, d: Store, e: Store, v: Store, log: seq<Event>)
    requires StoreRecorded(Lab(b, log)) && StoreRecorded(Lab(d, log))
    requires StoreRecorded(Lab(e, log)) && StoreRecorded(Lab(v, log))
    requires store.backups == b.backups && store.dryRuns == d.dryRuns
    requires store.evaluations == e.evaluations && store.validations == v.validations
    ensures StoreRecorded(Lab(store, log))
  {
    BackupsRecorded(store, b, log);
  }

  /** Every store up to state n is backed by the log of state n. */
  ghost predicate AllRecorded(labs: seq<Lab>, n: nat)
    requires n < |labs|
  {
    forall k :: 0 <= k <= n ==> StoreRecorded(Lab(labs[k].store, labs[n].log))
  }

  lemma SeenIsRecorded(labs: seq<Lab>, n: nat, seen: Store)
    requires n < |labs| && AllRecorded(labs, n) && SeenBy(labs, n, seen)
    ensures StoreRecorded(Lab(seen, labs[n].log))
  {
    var b :| 0 <= b <= n && seen.backups == labs[b].store.backups;
    var d :| 0 <= d <= n && seen.dryRuns == labs[d].store.dryRuns;
    var e :| 0 <= e <= n && seen.evaluations == labs[e].store.evaluations;
    var v :| 0 <= v <= n && seen.validations == labs[v].store.validations;
    MixIsRecorded(seen, labs[b].store, labs[d].store, labs[e].store, labs[v].store, labs[n].log);
  }

  lemma LogGrowsByOne(lib: Library, lab: Lab, e: Env, a: Action)
    ensures var log := Apply(lib, lab, e, a).log;
            log == lab.log || (|log| == |lab.log| + 1 && log == lab.log + [log[|lab.log|]])
  {
  }

  lemma StaysRecorded(lib: Library, store: Store, lab: Lab, e: Env, a: Action)
    requires StoreRecorded(Lab(store, lab.log))
    ensures StoreRecorded(Lab(store, Apply(lib, lab, e, a).log))
  {
    LogGrowsByOne(lib, lab, e, a);
    var log := Apply(lib, lab, e, a).log;
    if log != lab.log {
      StoreRecordedStays(Lab(store, lab.log), log[|lab.log|]);
    }
  }

  lemma WrittenIsRecorded(current: Store, a: Action, after: Store, log: seq<Event>)
    requires StoreRecorded(Lab(current, log)) && StoreRecorded(Lab(after, log))
    ensures StoreRecorded(Lab(Written(current, a, after), log))
  {
    var store := Written(current, a, after);
    MixIsRecorded(store, if a.RunBackup? || a.LoseBackupFile? then after else current,
                  if a.RunDryRun? then after else current, if a.RunEvaluate? then after else current,
                  if a.RunCertify? then after else current, log);
  }

  lemma InterleavedStep(lib: Library, lab: Lab, seen: Store, e: Env, a: Action)
    requires StoreRecorded(lab) && StoreRecorded(Lab(seen, lab.log)) && AllJustified(lib, lab.log)
    ensures StoreRecorded(ApplyOn(lib, lab, seen, e, a)) && AllJustified(lib, ApplyOn(lib, lab, seen, e, a).log)
  {
    var saw := Lab(seen, lab.log);
    var after := Apply(lib, saw, e, a);
    StoreRecordedStep(lib, saw, e, a);
    AllJustifiedStep(lib, saw, e, a);
    StaysRecorded(lib, lab.store, saw, e, a);
    WrittenIsRecorded(lab.store, a, after.store, after.log);
  }

  lemma EarlierStaysRecorded(lib: Library, store: Store, lab: Lab, seen: Store, e: Env, a: Action)
    requires StoreRecorded(Lab(store, lab.log))
    ensures StoreRecorded(Lab(store, ApplyOn(lib, lab, seen, e, a).log))
  {
    StaysRecorded(lib, store, Lab(seen, lab.log), e, a);
  }

  lemma StepKeepsRecorded(lib: Library, labs: seq<Lab>, n: nat, seen: Store, e: Env, a: Action)
    requires n + 1 < |labs| && AllRecorded(labs, n) && AllJustified(lib, labs[n].log) && SeenBy(labs, n, seen)
    requires labs[n + 1] == ApplyOn(lib, labs[n], seen, e, a)
    ensures AllRecorded(labs, n + 1) && AllJustified(lib, labs[n + 1].log)
  {
    var lab, next := labs[n], labs[n + 1];
    SeenIsRecorded(labs, n, seen);
    assert Lab(lab.store, lab.log) == lab && Lab(next.store, next.log) == next;
    InterleavedStep(lib, lab, seen, e, a);
    forall k | 0 <= k <= n
      ensures StoreRecorded(Lab(labs[k].store, next.log))
    {
      EarlierStaysRecorded(lib, labs[k].store, lab, seen, e, a);
    }
  }

  lemma StartIsRecorded(lib: Library, labs: seq<Lab>)
    requires labs != [] && labs[0] == EMPTY
    ensures AllRecorded(labs, 0) && AllJustified(lib, labs[0].log)
  {
  }

  ghost predicate RecordedAt(lib: Library, labs: seq<Lab>, n: nat) {
    n < |labs| && AllRecorded(labs, n) && AllJustified(lib, labs[n].log)
  }

  lemma RecordedNext(lib: Library, labs: seq<Lab>, envs: seq<Env>, actions: seq<Action>, seen: seq<Store>, i: nat,
                     n: nat)
    requires IsInterleaved(lib, labs, envs, actions, seen) && i < |actions| && n == i + 1 && RecordedAt(lib, labs, i)
    ensures RecordedAt(lib, labs, n)
  {
    StepKeepsRecorded(lib, labs, i, seen[i], envs[i], actions[i]);
  }

  lemma {:induction false} RecordedThroughout(lib: Library, labs: seq<Lab>, envs: seq<Env>, actions: seq<Action>,
                                              seen: seq<Store>, n: nat)
    requires IsInterleaved(lib, labs, envs, actions, seen) && n < |labs|
    ensures RecordedAt(lib, labs, n)
  {
    if n == 0 {
      StartIsRecorded(lib, labs);
    } else {
      RecordedThroughout(lib, labs, envs, actions, seen, n - 1);
      RecordedNext(lib, labs, envs, actions, seen, n - 1, n);
    }
  }

  /**
   However commands interleave, whatever stale files they read and whichever records they overwrite: everything
   that got past the executor's checks had its dry-run before it and, for a config operation, a fresh backup and a
   certification with its evaluation and dry-run before that.
   */
  lemma InterleavedExecutionsJustified(lib: Library, labs: seq<Lab>, envs: seq<Env>, actions: seq<Action>,
                                       seen: seq<Store>, n: nat, i: nat)
    requires IsInterleaved(lib, labs, envs, actions, seen) && n < |labs|
    requires i < |labs[n].log| && labs[n].log[i].Executed?
    ensures Justified(lib, labs[n].log, i)
  {
    RecordedThroughout(lib, labs, envs, actions, seen, n);
  }

  /** Commands that each see the present files are the atomic commands of EvidenceChain. */
  lemma AtomicIsInterleaved(lib: Library, labs: seq<Lab>, envs: seq<Env>, actions: seq<Action>)
    requires IsRun(lib, labs, envs, actions)
    ensures IsInterleaved(lib, labs, envs, actions, seq(|actions|, i requires 0 <= i < |actions| => labs[i].store))
  {
    forall i | 0 <= i < |actions|
      ensures SeenBy(labs, i, labs[i].store) && labs[i + 1] == ApplyOn(lib, labs[i], labs[i].store, envs[i], actions[i])
    {
      assert labs[i + 1] == Apply(lib, labs[i], envs[i], actions[i]);
      AtomicStep(lib, labs[i], envs[i], actions[i]);
    }
  }

  lemma AtomicStep(lib: Library, lab: Lab, e: Env, a: Action)
    ensures ApplyOn(lib, lab, lab.store, e, a) == Apply(lib, lab, e, a)
  {
    assert Lab(lab.store, lab.log) == lab;
  }
}
