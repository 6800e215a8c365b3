/** A reservation or a release that nobody interrupts does in small steps what the record store does in one. */
module LockRefinement {
  import opened LabLocks
  import P = FileLockProtocol
  import S = LabStore

  /** The protocol state and the store have the same guard files and the same `locks.json`. */
  ghost predicate SameFiles(s: P.Sys, st: S.Store) {
    s.guards.Keys == st.guards && s.file == st.locks
  }

  /** `steps` leads from `s` to `t`, and every one of them is a step of p. */
  ghost predicate Alone(s: P.Sys, t: P.Sys, p: P.Proc, states: seq<P.Sys>, steps: seq<P.Step>) {
    && P.Continues(states, steps) && states[0] == s && states[|steps|] == t
    && forall i :: 0 <= i < |steps| ==> steps[i].p == p
  }

  lemma Then(s: P.Sys, t: P.Sys, p: P.Proc, states: seq<P.Sys>, steps: seq<P.Step>, a: P.Step)
    returns (t': P.Sys, states': seq<P.Sys>, steps': seq<P.Step>)
    requires Alone(s, t, p, states, steps) && P.Enabled(t, a) && a.p == p
    ensures t' == P.Apply(t, a) && Alone(s, t', p, states', steps')
  {
    t', states', steps' := P.Apply(t, a), states + [P.Apply(t, a)], steps + [a];
  }

  /**
   An uninterrupted `reserve_lock` ends in the critical section exactly if the store can reserve, and leaves its
   files.
   */
  lemma ReserveRefines(s: P.Sys, st: S.Store, p: P.Proc, d: Device, id: nat)
      returns (t: P.Sys, states: seq<P.Sys>, steps: seq<P.Step>)
    requires SameFiles(s, st) && p in s.pc && s.pc[p].Idle?
    ensures Alone(s, t, p, states, steps) && SameFiles(t, S.Reserve(st, d, id))
    ensures t.pc == s.pc[p := if S.CanReserve(st, d) then P.Holding(d) else P.Idle]
  {
    t, states, steps := s, [s], [];
    if d in s.guards {
      t, states, steps := Then(s, t, p, states, steps, P.CreateRefused(p, d));
      return;
    }
    t, states, steps := Then(s, t, p, states, steps, P.Create(p, d));
    if HasActive(s.file, d) {
      t, states, steps := Then(s, t, p, states, steps, P.CheckBusy(p));
      t, states, steps := Then(s, t, p, states, steps, P.AbortUnlink(p));
    } else {
      t, states, steps := Then(s, t, p, states, steps, P.CheckFree(p));
      t, states, steps := Then(s, t, p, states, steps, P.Load(p, id));
      t, states, steps := Then(s, t, p, states, steps, P.Commit(p));
    }
  }

  /** An uninterrupted `release_locks` leaves the files that the store's release leaves. */
  lemma ReleaseRefines(s: P.Sys, st: S.Store, p: P.Proc, d: Device)
      returns (t: P.Sys, states: seq<P.Sys>, steps: seq<P.Step>)
    requires SameFiles(s, st) && p in s.pc && s.pc[p] == P.Holding(d)
    ensures Alone(s, t, p, states, steps) && SameFiles(t, S.ReleaseLocks(st, d))
    ensures t.pc == s.pc[p := P.Idle]
  {
    t, states, steps := s, [s], [];
    t, states, steps := Then(s, t, p, states, steps, P.LoadRelease(p));
    t, states, steps := Then(s, t, p, states, steps, P.CommitRelease(p));
    t, states, steps := Then(s, t, p, states, steps, P.Unlink(p));
  }
}
