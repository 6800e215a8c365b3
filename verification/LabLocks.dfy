/** The records of `locks.json` and the two list operations the file-mode lab state performs on them. */
module LabLocks {
  type Device = nat

  datatype LockStatus = Reserved | Released

  datatype LockRecord = LockRecord(id: nat, device: Device, status: LockStatus)

  predicate IsActive(r: LockRecord, d: Device) {
    r.device == d && r.status == Reserved
  }

  /** What `has_active_lock` answers for a given content of the file. */
  predicate HasActive(locks: seq<LockRecord>, d: Device) {
    exists i :: 0 <= i < |locks| && IsActive(locks[i], d)
  }

  function Release(r: LockRecord, d: Device): LockRecord {
    if IsActive(r, d) then r.(status := Released) else r
  }

  /** The list that `release_locks` writes back. */
  function MarkReleased(locks: seq<LockRecord>, d: Device): seq<LockRecord> {
    seq(|locks|, i requires 0 <= i < |locks| => Release(locks[i], d))
  }

  /** `later` keeps every record of `earlier` in place; a record may only go from reserved to released. */
  ghost predicate Extends(earlier: seq<LockRecord>, later: seq<LockRecord>) {
    && |earlier| <= |later|
    && forall i :: 0 <= i < |earlier| ==> later[i] == earlier[i] || later[i] == earlier[i].(status := Released)
  }

  lemma MarkReleasedClears(locks: seq<LockRecord>, d: Device)
    ensures !HasActive(MarkReleased(locks, d), d)
    ensures forall e :: e != d ==> (HasActive(MarkReleased(locks, d), e) <==> HasActive(locks, e))
    ensures Extends(locks, MarkReleased(locks, d))
  {
    var released := MarkReleased(locks, d);
    forall e | e != d && HasActive(locks, e)
      ensures HasActive(released, e)
    {
      var i :| 0 <= i < |locks| && IsActive(locks[i], e);
      assert IsActive(released[i], e);
    }
    forall e | e != d && HasActive(released, e)
      ensures HasActive(locks, e)
    {
      var i :| 0 <= i < |released| && IsActive(released[i], e);
      assert IsActive(locks[i], e);
    }
  }
}
