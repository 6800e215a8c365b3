/** The file-mode state object and the executor that runs one change under its device lock. */
module FileLabState {
  import opened Wrappers
  import opened VendorContracts
  import opened LabLocks
  import opened LabStore
  import opened ExcelLabSafety

  class LabState {
    var guards: set<Device>
    var locks: seq<LockRecord>
    var dryRuns: seq<DryRun>
    var evaluations: seq<Evaluation>
    var validations: seq<Validation>
    var backups: seq<Backup>
    var executions: seq<Execution>

    ghost function View(): Store
      reads this
    {
      Store(guards, locks, dryRuns, evaluations, validations, backups, executions)
    }

    constructor ()
      ensures View() == Store({}, [], [], [], [], [], [])
    {
      guards, locks, dryRuns, evaluations, validations, backups, executions := {}, [], [], [], [], [], [];
    }

    method HasActiveLock(d: Device) returns (active: bool)
      ensures active <==> HasActive(locks, d)
    {
      for i := 0 to |locks|
        invariant forall j :: 0 <= j < i ==> !IsActive(locks[j], d)
      {
        if IsActive(locks[i], d) {
          return true;
        }
      }
      return false;
    }

    method ReserveLock(d: Device, id: nat) returns (r: Result<LockRecord, Refusal>)
      modifies this
      ensures View() == Reserve(old(View()), d, id)
      ensures r == if CanReserve(old(View()), d) then Ok(LockRecord(id, d, Reserved)) else Err(AlreadyLocked)
    {
      if d in guards {
        return Err(AlreadyLocked);
      }
      guards := guards + {d};
      var active := HasActiveLock(d);
      if active {
        guards := guards - {d};
        return Err(AlreadyLocked);
      }
      var lock := LockRecord(id, d, Reserved);
      locks := locks + [lock];
      return Ok(lock);
    }

    method ReleaseLocks(d: Device)
      modifies this
      ensures View() == LabStore.ReleaseLocks(old(View()), d)
    {
      WriteReleased(d);
      guards := guards - {d};
    }

    /** The loop over the records and the replace of the file. */
    method WriteReleased(d: Device)
      modifies this`locks
      ensures locks == MarkReleased(old(locks), d)
    {
      var marked := locks;
      for i := 0 to |locks|
        invariant |marked| == |locks| && locks == old(locks)
        invariant forall j :: 0 <= j < i ==> marked[j] == Release(locks[j], d)
        invariant forall j :: i <= j < |locks| ==> marked[j] == locks[j]
      {
        if IsActive(marked[i], d) {
          marked := marked[i := marked[i].(status := Released)];
        }
      }
      assert marked == MarkReleased(locks, d);
      locks := marked;
    }

    /** `release_locks` with the exceptions it may raise. */
    method ReleaseOrRaise(d: Device, release: ReleaseOutcome)
      modifies this
      ensures View() == Given(old(View()), d, release)
    {
      match release {
        case ReleaseDone => ReleaseLocks(d);
        case ReleaseRaisedEarly =>
        case ReleaseRaisedLate => WriteReleased(d);
      }
    }
  }

  datatype ApplyResult = Applied(executed: bool, commandCount: nat) | Refused(reason: Refusal) | Failed

  class ExcelLabApplyExecutor {
    const state: LabState

    constructor (state: LabState)
      ensures this.state == state
    {
      this.state := state;
    }

    /** The release is tried on every exit past the reservation, exceptions included. */
    method Execute(lib: Library, settings: Settings, now: Time, usable: set<string>, device: InventoryDevice,
                   d: Decision, runtime: Runtime, credential: string, realLab: bool, lockId: nat, outcome: RunOutcome,
                   release: ReleaseOutcome)
      returns (result: ApplyResult)
      modifies state
      ensures var c := Context(old(state.View()), settings, now, usable);
              match ExecutionRefusal(lib, c, device, d, runtime, credential, realLab)
              case Some(reason) => result == Refused(reason) && state.View() == c.store
              case None =>
                && state.View() == AfterRun(c.store, device.id, lockId, realLab, outcome, release)
                && (CanReserve(state.View(), device.id) <==> release.ReleaseDone?)
                && (result.Failed? <==> !outcome.Ran? || !release.ReleaseDone?)
                && (result.Applied? ==> result.executed == Executes(outcome, realLab))
    {
      ghost var before := state.View();
      if !d.allowed {
        return Refused(NotAllowed);
      }
      if realLab && !d.realApply {
        return Refused(RealNotEvaluated);
      }
      var boundary := BoundaryRefusal(device, d, runtime, credential);
      if boundary.Some? {
        return Refused(boundary.value);
      }
      var store := Store(state.guards, state.locks, state.dryRuns, state.evaluations, state.validations, state.backups,
                         state.executions);
      var gate := StateRefusal(lib, Context(store, settings, now, usable), device, d, runtime, realLab);
      if gate.Some? {
        return Refused(gate.value);
      }
      if credential !in usable {
        return Refused(CredentialUnusable);
      }
      var reservation := state.ReserveLock(device.id, lockId);
      if reservation.Err? {
        return Refused(reservation.error);
      }
      result := Failed;
      match outcome {
        case RaisedBeforeSave =>
        case RaisedAfterSave(executed, count) =>
          state.executions := state.executions + [Execution(device.id, realLab, !realLab || executed, count)];
        case Ran(executed, count) =>
          state.executions := state.executions + [Execution(device.id, realLab, !realLab || executed, count)];
          result := Applied(!realLab || executed, count);
      }
      state.ReleaseOrRaise(device.id, release);
      if !release.ReleaseDone? {
        result := Failed;
      }
      AfterRunIs(before, device.id, lockId, realLab, outcome, release);
    }
  }
}
