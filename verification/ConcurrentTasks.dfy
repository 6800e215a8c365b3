/**
 Many task executions on one lock table. Each takes its lock in one step and then does the rest of what
 TaskExecutor reports of it, event by event, while others do the same.
 */
module ConcurrentTasks {
  import opened Wrappers
  import D = DeviceLocks
  import T = TaskExecutor

  /** A task execution that got its lock, with the events still to come. */
  datatype Task = Task(device: D.Device, rest: seq<T.Event>)

  datatype Entry = Entry(ticket: D.Ticket, device: D.Device, event: T.Event)

  /** A ticket names one execution, for good. */
  datatype Sys = Sys(locks: D.Sys, tasks: map<D.Ticket, Task>, log: seq<Entry>)

  datatype Step =
    | Start(ticket: D.Ticket, path: T.Path, job: T.Job, data: T.TaskData, before: T.TaskStatus, env: T.Env)
    | Next(ticket: D.Ticket, at: int)
    | Look(device: D.Device, at: int)

  /** What the execution does from its lock on; nothing if it is refused before or by the lock. */
  function TraceOf(s: Sys, a: Step): seq<T.Event>
    requires a.Start?
  {
    T.TaskReport(a.path, a.job, a.data, a.before, a.env, D.Free(s.locks.rows, a.data.device, a.env.now), false).trace
  }

  predicate Enabled(s: Sys, a: Step) {
    match a
    case Start(ticket, _, _, _, _, env) => ticket !in s.tasks && ticket !in s.locks.active && s.locks.clock <= env.now
    case Next(ticket, at) => ticket in s.tasks && s.tasks[ticket].rest != [] && s.locks.clock <= at
    case Look(_, at) => s.locks.clock <= at
  }

  function Log(s: Sys, ticket: D.Ticket, device: D.Device, trace: seq<T.Event>): Sys
    requires trace != []
  {
    s.(tasks := s.tasks[ticket := Task(device, trace[1..])], log := s.log + [Entry(ticket, device, trace[0])])
  }

  function Enter(a: Step): D.Step
    requires a.Start?
  {
    D.Enter(a.ticket, a.data.device, a.job.id, T.LOCK_TTL, a.env.now)
  }

  function Apply(s: Sys, a: Step): Sys
    requires Enabled(s, a)
  {
    match a
    case Start(ticket, _, _, data, _, env) =>
      if TraceOf(s, a) == [] then s.(locks := s.locks.(clock := env.now))
      else Log(s.(locks := D.Apply(s.locks, Enter(a))), ticket, data.device, TraceOf(s, a))
    case Next(ticket, at) =>
      var task := s.tasks[ticket];
      var locks := if task.rest[0].LockFreed? && ticket in s.locks.active then D.Apply(s.locks, D.Leave(ticket, at))
                   else s.locks.(clock := at);
      Log(s.(locks := locks), ticket, task.device, task.rest)
    case Look(device, at) => s.(locks := D.Apply(s.locks, D.Look(device, at)))
  }

  ghost predicate IsRun(states: seq<Sys>, steps: seq<Step>) {
    && |states| == |steps| + 1
    && states[0].locks.rows == map[] && states[0].locks.active == map[] && states[0].tasks == map[]
       && states[0].log == []
    && forall i :: 0 <= i < |steps| ==> Enabled(states[i], steps[i]) && states[i + 1] == Apply(states[i], steps[i])
  }

  /** Nobody starts on a device whose holder has outlived its time to live. */
  ghost predicate NotLate(s: Sys, a: Step) {
    a.Start? ==> D.NotAfterDeadline(s.locks, Enter(a))
  }

  // ---------------------------------------------------------------------------------------------
  // The traces
  // ---------------------------------------------------------------------------------------------

  /** Of the events still to come none takes a lock, and only the last can give one back. */
  ghost predicate Tail(rest: seq<T.Event>) {
    && (forall i :: 0 <= i < |rest| ==> !rest[i].LockTaken?)
    && forall i :: 0 <= i < |rest| - 1 ==> !rest[i].LockFreed?
  }

  lemma ScriptTail(path: T.Path, t: T.TaskData, backup: nat, k: nat)
    requires 0 < k <= |T.Script(path, t, backup)|
    ensures T.Script(path, t, backup)[..k][0] == T.LockTaken(t.device)
    ensures forall i :: 1 <= i < k ==> !T.Script(path, t, backup)[..k][i].LockTaken?
    ensures forall i :: 0 <= i < k ==> !T.Script(path, t, backup)[..k][i].LockFreed?
  {
    var script, sends := T.Script(path, t, backup), T.DeviceScript(path, t);
    assert forall i :: 0 <= i < |sends| ==> sends[i].Sent?;
    assert forall i :: 3 <= i < |script| ==> script[i] == sends[i - 3];
  }

  lemma CleanupTail(done: seq<T.Event>, d: D.Device, closes: bool, freed: bool)
    requires done != [] && forall i :: 1 <= i < |done| ==> !done[i].LockTaken?
    requires forall i :: 0 <= i < |done| ==> !done[i].LockFreed?
    ensures Tail((done + ((if closes then [T.Closed] else []) + T.Freed(freed, d)))[1..])
  {
    var all := done + ((if closes then [T.Closed] else []) + T.Freed(freed, d));
    assert forall i :: 0 <= i < |all| - 1 ==> all[1..][i] == all[i + 1];
  }

  /** What is done starts with the lock, which was free, and gives it back at most at the very end. */
  lemma TraceShape(s: Sys, a: Step)
    requires a.Start? && TraceOf(s, a) != []
    ensures TraceOf(s, a)[0] == T.LockTaken(a.data.device) && Tail(TraceOf(s, a)[1..])
    ensures D.Free(s.locks.rows, a.data.device, a.env.now)
  {
    var free, d := D.Free(s.locks.rows, a.data.device, a.env.now), a.data.device;
    var backup := a.env.backup.GetOr(0);
    var k := T.ScriptThenCleanup(a.path, a.job, a.data, a.before, a.env, free, false);
    var done := T.Script(a.path, a.data, backup)[..k];
    T.CleanupIs(a.path, a.data, backup, k, false, a.env.releases);
    assert k > 0;
    ScriptTail(a.path, a.data, backup, k);
    CleanupTail(done, d, k > 2, a.env.releases);
    T.NothingHappensUnlessCleared(a.path, a.job, a.data, a.before, a.env, free, false, TraceOf(s, a)[0]);
  }

  // ---------------------------------------------------------------------------------------------
  // What every run keeps
  // ---------------------------------------------------------------------------------------------

  /** A task that has something to do yet is in its section. */
  ghost predicate Held(s: Sys, t: D.Ticket)
    requires t in s.tasks
  {
    && Tail(s.tasks[t].rest)
    && (s.tasks[t].rest != [] ==> t in s.locks.active && s.locks.active[t].device == s.tasks[t].device)
  }

  ghost predicate AllHeld(s: Sys) {
    forall t :: t in s.tasks ==> Held(s, t)
  }

  ghost predicate LogKnown(s: Sys) {
    forall i :: 0 <= i < |s.log| ==> s.log[i].ticket in s.tasks && s.tasks[s.log[i].ticket].device == s.log[i].device
  }

  /** When another task has followed on the same device, a task has nothing to do any more. */
  ghost predicate Followed(log: seq<Entry>, tasks: map<D.Ticket, Task>) {
    forall i, j :: 0 <= i < j < |log| ==> LeftBehind(log, tasks, i, j)
  }

  ghost predicate LeftBehind(log: seq<Entry>, tasks: map<D.Ticket, Task>, i: nat, j: nat)
    requires i < |log| && j < |log|
  {
    var t := log[i].ticket;
    log[i].device == log[j].device && t != log[j].ticket && t in tasks ==> tasks[t].rest == []
  }

  ghost predicate Between(log: seq<Entry>, i: nat, j: nat, k: nat)
    requires i < |log| && j < |log| && k < |log|
  {
    i < j < k && log[i].ticket == log[k].ticket && log[j].device == log[i].device ==> log[j].ticket == log[i].ticket
  }

  ghost predicate Unmixed(log: seq<Entry>) {
    forall i, j, k :: 0 <= i < |log| && 0 <= j < |log| && 0 <= k < |log| ==> Between(log, i, j, k)
  }

  ghost predicate Inv(s: Sys) {
    AllHeld(s) && LogKnown(s) && Followed(s.log, s.tasks) && Unmixed(s.log) && D.Owned(s.locks) && D.Exclusive(s.locks)
  }

  lemma Ticks(s: D.Sys, at: int)
    requires D.Owned(s) && D.Exclusive(s) && s.clock <= at
    ensures D.Owned(s.(clock := at)) && D.Exclusive(s.(clock := at))
  {
    forall t | t in s.active
      ensures D.OwnsRow(s.(clock := at), t)
    {
      assert D.OwnsRow(s, t);
    }
  }

  lemma LocksStep(s: Sys, a: Step)
    requires Inv(s) && Enabled(s, a) && NotLate(s, a)
    ensures D.Owned(Apply(s, a).locks) && D.Exclusive(Apply(s, a).locks)
  {
    match a
    case Start(_, _, _, _, _, env) =>
      if TraceOf(s, a) == [] {
        Ticks(s.locks, env.now);
      } else {
        D.OwnedStep(s.locks, Enter(a));
      }
    case Next(ticket, at) =>
      if s.tasks[ticket].rest[0].LockFreed? && ticket in s.locks.active {
        D.OwnedStep(s.locks, D.Leave(ticket, at));
      } else {
        Ticks(s.locks, at);
      }
    case Look(device, at) => D.OwnedStep(s.locks, D.Look(device, at));
  }

  lemma HeldStep(s: Sys, a: Step)
    requires AllHeld(s) && Enabled(s, a)
    ensures AllHeld(Apply(s, a))
  {
    var v := Apply(s, a);
    if a.Start? && TraceOf(s, a) != [] {
      TraceShape(s, a);
    }
    forall t | t in v.tasks
      ensures Held(v, t)
    {
      if t in s.tasks {
        assert Held(s, t);
        if a.Next? && t == a.ticket {
          TailOfTail(s.tasks[t].rest);
        }
      }
    }
  }

  lemma TailOfTail(rest: seq<T.Event>)
    requires Tail(rest) && rest != []
    ensures Tail(rest[1..]) && (rest[0].LockFreed? ==> rest[1..] == [])
  {
    assert forall i :: 0 <= i < |rest| - 1 ==> rest[1..][i] == rest[i + 1];
  }

  /** The task that does the next event on a device is the only one that has anything to do there. */
  lemma OthersAreDone(s: Sys, t: D.Ticket, d: D.Device, u: D.Ticket)
    requires AllHeld(s) && D.Exclusive(s.locks) && u in s.tasks && s.tasks[u].device == d && u != t
    requires t in s.locks.active && s.locks.active[t].device == d
    ensures s.tasks[u].rest == []
  {
    assert Held(s, u);
  }

  lemma LogStep(s: Sys, v: Sys, t: D.Ticket, d: D.Device, trace: seq<T.Event>)
    requires LogKnown(s) && Followed(s.log, s.tasks) && Unmixed(s.log) && trace != []
    requires v.log == s.log + [Entry(t, d, trace[0])] && v.tasks == s.tasks[t := Task(d, trace[1..])]
    requires t in s.tasks ==> s.tasks[t].rest != [] && s.tasks[t].device == d
    requires forall u :: u in s.tasks && s.tasks[u].device == d && u != t ==> s.tasks[u].rest == []
    ensures LogKnown(v) && Followed(v.log, v.tasks) && Unmixed(v.log)
  {
    var n := |s.log|;
    forall i, j | 0 <= i < j < |v.log|
      ensures LeftBehind(v.log, v.tasks, i, j)
    {
      if j < n {
        assert LeftBehind(s.log, s.tasks, i, j);
      }
    }
    forall i, j, k | 0 <= i < |v.log| && 0 <= j < |v.log| && 0 <= k < |v.log|
      ensures Between(v.log, i, j, k)
    {
      if i < n && j < n && k < n {
        assert Between(s.log, i, j, k);
      } else if i < j < k {
        assert LeftBehind(s.log, s.tasks, i, j);
      }
    }
  }

  lemma StartLog(s: Sys, a: Step)
    requires Inv(s) && Enabled(s, a) && a.Start? && TraceOf(s, a) != []
    requires AllHeld(Apply(s, a)) && D.Exclusive(Apply(s, a).locks)
    ensures var v := Apply(s, a);
            LogKnown(v) && Followed(v.log, v.tasks) && Unmixed(v.log)
  {
    var v, d := Apply(s, a), a.data.device;
    TraceShape(s, a);
    forall u | u in s.tasks && s.tasks[u].device == d && u != a.ticket
      ensures s.tasks[u].rest == []
    {
      OthersAreDone(v, a.ticket, d, u);
    }
    LogStep(s, v, a.ticket, d, TraceOf(s, a));
  }

  lemma NextLog(s: Sys, a: Step)
    requires Inv(s) && Enabled(s, a) && a.Next?
    ensures var v := Apply(s, a);
            LogKnown(v) && Followed(v.log, v.tasks) && Unmixed(v.log)
  {
    var task := s.tasks[a.ticket];
    assert Held(s, a.ticket);
    forall u | u in s.tasks && s.tasks[u].device == task.device && u != a.ticket
      ensures s.tasks[u].rest == []
    {
      OthersAreDone(s, a.ticket, task.device, u);
    }
    LogStep(s, Apply(s, a), a.ticket, task.device, task.rest);
  }

  lemma InvStep(s: Sys, a: Step)
    requires Inv(s) && Enabled(s, a) && NotLate(s, a)
    ensures Inv(Apply(s, a))
  {
    LocksStep(s, a);
    HeldStep(s, a);
    if a.Next? {
      NextLog(s, a);
    } else if a.Start? && TraceOf(s, a) != [] {
      StartLog(s, a);
    } else {
      assert Apply(s, a).log == s.log && Apply(s, a).tasks == s.tasks;
    }
  }

  lemma {:induction false} InvAlways(states: seq<Sys>, steps: seq<Step>, n: nat)
    requires IsRun(states, steps) && n < |states| && forall i :: 0 <= i < n ==> NotLate(states[i], steps[i])
    ensures Inv(states[n])
  {
    if n > 0 {
      InvAlways(states, steps, n - 1);
      InvStep(states[n - 1], steps[n - 1]);
      assert states[n - 1 + 1] == Apply(states[n - 1], steps[n - 1]);
    }
  }

  /**
   Tasks do not mix on a device: as long as nobody starts on a device whose holder is past its time to live, no
   event of another execution on the same device lies between two events of one execution, whatever they are and
   however many executions run at once.
   */
  lemma TasksDoNotMix(states: seq<Sys>, steps: seq<Step>, n: nat, i: nat, j: nat, k: nat)
    requires IsRun(states, steps) && n < |states| && forall m :: 0 <= m < n ==> NotLate(states[m], steps[m])
    requires i < j < k < |states[n].log| && states[n].log[i].ticket == states[n].log[k].ticket
    requires states[n].log[j].device == states[n].log[i].device
    ensures states[n].log[j].ticket == states[n].log[i].ticket
  {
    InvAlways(states, steps, n);
    assert Between(states[n].log, i, j, k);
  }

  /** Whatever the clock does, an execution acts only inside its own section of the lock table. */
  lemma {:induction false} ActsInSection(states: seq<Sys>, steps: seq<Step>, n: nat)
    requires IsRun(states, steps) && n < |states|
    ensures AllHeld(states[n])
  {
    if n > 0 {
      ActsInSection(states, steps, n - 1);
      HeldStep(states[n - 1], steps[n - 1]);
      assert states[n - 1 + 1] == Apply(states[n - 1], steps[n - 1]);
    }
  }
}
