/**
 The database lock table with lazy expiry, and the protected sections that rely on it. A row that has run
 out stays in the table until somebody looks at it, and `release` deletes by device, whoever asks.
 */
module DeviceLocks {
  import opened Wrappers

  type Device = nat
  type Job = nat
  type Ticket = nat

  datatype Lock = Lock(job: Job, expires: int)

  type Table = map<Device, Lock>

  /** The locks that have not run out: what the table means at one instant. */
  function Live(rows: Table, now: int): (live: Table)
    ensures forall d :: d in live <==> d in rows && rows[d].expires > now
    ensures forall d :: d in live ==> live[d] == rows[d]
  {
    map d | d in rows && rows[d].expires > now :: rows[d]
  }

  predicate Free(rows: Table, d: Device, now: int) {
    d !in rows || rows[d].expires <= now
  }

  function Acquired(rows: Table, d: Device, job: Job, ttl: int, now: int): Table {
    if Free(rows, d, now) then rows[d := Lock(job, now + ttl)] else rows
  }

  function Released(rows: Table, d: Device): Table {
    rows - {d}
  }

  function Checked(rows: Table, d: Device, now: int): Table {
    if d in rows && rows[d].expires <= now then rows - {d} else rows
  }

  lemma AcquireThenRelease(rows: Table, d: Device, job: Job, ttl: int, now: int)
    ensures Released(Acquired(rows, d, job, ttl, now), d) == Released(rows, d)
  {
  }

  class LockService {
    var rows: Table

    constructor ()
      ensures rows == map[]
    {
      rows := map[];
    }

    method Acquire(d: Device, job: Job, ttl: int, now: int) returns (r: Option<Lock>)
      modifies this
      ensures rows == Acquired(old(rows), d, job, ttl, now)
      ensures r == if d in Live(old(rows), now) then None else Some(Lock(job, now + ttl))
    {
      if d in rows && rows[d].expires > now {
        return None;
      }
      if d in rows {
        rows := rows - {d};
      }
      rows := rows[d := Lock(job, now + ttl)];
      return Some(rows[d]);
    }

    method Release(d: Device)
      modifies this
      ensures rows == Released(old(rows), d)
    {
      if d in rows {
        rows := rows - {d};
      }
    }

    method IsLocked(d: Device, now: int) returns (locked: bool)
      modifies this
      ensures rows == Checked(old(rows), d, now)
      ensures (locked <==> d in Live(old(rows), now)) && (locked <==> d in rows)
    {
      if d !in rows {
        return false;
      }
      if rows[d].expires <= now {
        rows := rows - {d};
        return false;
      }
      return true;
    }
  }

  // ---------------------------------------------------------------------------------------------
  // The lazy table against a table that forgets every lock at its deadline
  // ---------------------------------------------------------------------------------------------

  datatype Call =
    | CallAcquire(device: Device, job: Job, ttl: int, at: int)
    | CallRelease(device: Device, at: int)
    | CallIsLocked(device: Device, at: int)

  datatype Answer = Granted(lock: Lock) | Refused | Gone | Held(locked: bool)

  datatype Reply = Reply(rows: Table, answer: Answer)

  function LazyReply(rows: Table, c: Call): Reply {
    match c
    case CallAcquire(d, job, ttl, at) =>
      Reply(Acquired(rows, d, job, ttl, at), if Free(rows, d, at) then Granted(Lock(job, at + ttl)) else Refused)
    case CallRelease(d, at) => Reply(Released(rows, d), Gone)
    case CallIsLocked(d, at) => Reply(Checked(rows, d, at), Held(!Free(rows, d, at)))
  }

  /** The call on a table that holds live locks only. */
  function HeldReply(held: Table, c: Call): Reply {
    match c
    case CallAcquire(d, job, ttl, at) =>
      if d in held then Reply(held, Refused) else Reply(held[d := Lock(job, at + ttl)], Granted(Lock(job, at + ttl)))
    case CallRelease(d, _) => Reply(held - {d}, Gone)
    case CallIsLocked(d, _) => Reply(held, Held(d in held))
  }

  /** The same, after everything that ran out by the time of the call is gone. */
  function EagerReply(live: Table, c: Call): Reply {
    HeldReply(Live(live, c.at), c)
  }

  function Answers(reply: (Table, Call) -> Reply, rows: Table, calls: seq<Call>): seq<Answer>
    decreases |calls|
  {
    if calls == [] then [] else
    var r := reply(rows, calls[0]);
    [r.answer] + Answers(reply, r.rows, calls[1..])
  }

  ghost predicate InOrder(calls: seq<Call>, now: int) {
    calls != [] ==> now <= calls[0].at && InOrder(calls[1..], calls[0].at)
  }

  /** `live` and `rows` have the same locks that are unexpired at `now`. */
  ghost predicate Agree(rows: Table, live: Table, now: int) {
    Live(live, now) == Live(rows, now)
  }

  lemma AgreeLater(rows: Table, live: Table, now: int, t: int)
    requires Agree(rows, live, now) && now <= t
    ensures Live(live, t) == Live(rows, t)
  {
    forall d
      ensures d in Live(live, t) <==> d in Live(rows, t)
      ensures d in Live(live, t) ==> Live(live, t)[d] == Live(rows, t)[d]
    {
      if d in Live(live, t) {
        assert d in Live(live, now);
      }
      if d in Live(rows, t) {
        assert d in Live(rows, now);
      }
    }
  }

  lemma LiveParts(rows: Table, d: Device, t: int)
    ensures Live(rows - {d}, t) == Live(rows, t) - {d}
    ensures Free(rows, d, t) ==> Live(rows, t) - {d} == Live(rows, t)
  {
  }

  lemma LivePut(rows: Table, d: Device, l: Lock, t: int)
    ensures Live(rows[d := l], t) == if l.expires > t then Live(rows, t)[d := l] else Live(rows, t) - {d}
  {
  }

  lemma AcquireAgrees(rows: Table, held: Table, d: Device, job: Job, ttl: int, at: int)
    requires held == Live(rows, at) && held == Live(held, at)
    ensures Live(Acquired(rows, d, job, ttl, at), at) == if d in held then held
            else Live(held[d := Lock(job, at + ttl)], at)
  {
    LivePut(rows, d, Lock(job, at + ttl), at);
    LivePut(held, d, Lock(job, at + ttl), at);
  }

  lemma HeldRepliesAgree(rows: Table, held: Table, c: Call)
    requires held == Live(rows, c.at) && held == Live(held, c.at)
    ensures LazyReply(rows, c).answer == HeldReply(held, c).answer
    ensures Live(LazyReply(rows, c).rows, c.at) == Live(HeldReply(held, c).rows, c.at)
  {
    match c
    case CallAcquire(d, job, ttl, at) => AcquireAgrees(rows, held, d, job, ttl, at);
    case CallRelease(d, at) =>
      LiveParts(rows, d, at);
      LiveParts(held, d, at);
    case CallIsLocked(d, at) => LiveParts(rows, d, at);
  }

  lemma RepliesAgree(rows: Table, live: Table, now: int, c: Call)
    requires Agree(rows, live, now) && now <= c.at
    ensures LazyReply(rows, c).answer == EagerReply(live, c).answer
    ensures Agree(LazyReply(rows, c).rows, EagerReply(live, c).rows, c.at)
  {
    AgreeLater(rows, live, now, c.at);
    var held := Live(live, c.at);
    assert Live(held, c.at) == held;
    HeldRepliesAgree(rows, held, c);
  }

  /**
   Lazy expiry cannot be observed: for calls at non-decreasing times, `acquire`, `release` and `is_locked` answer
   exactly as on the table that keeps nothing but unexpired locks.
   */
  lemma {:induction false} LazyExpiryIsInvisible(rows: Table, live: Table, now: int, calls: seq<Call>)
    requires InOrder(calls, now) && Agree(rows, live, now)
    ensures Answers(LazyReply, rows, calls) == Answers(EagerReply, live, calls)
    decreases |calls|
  {
    if calls != [] {
      RepliesAgree(rows, live, now, calls[0]);
      LazyExpiryIsInvisible(LazyReply(rows, calls[0]).rows, EagerReply(live, calls[0]).rows, calls[0].at, calls[1..]);
    }
  }

  // ---------------------------------------------------------------------------------------------
  // Protected sections
  // ---------------------------------------------------------------------------------------------

  /** A holder between its successful `acquire` and its `release`; `deadline` is where its time to live ends. */
  datatype Section = Section(device: Device, job: Job, deadline: int)

  datatype Sys = Sys(rows: Table, active: map<Ticket, Section>, clock: int)

  datatype Step =
    | Enter(ticket: Ticket, device: Device, job: Job, ttl: int, at: int)
    | Leave(ticket: Ticket, at: int)
    | Look(device: Device, at: int)

  predicate Enabled(s: Sys, a: Step) {
    && s.clock <= a.at
    && (a.Enter? ==> a.ticket !in s.active)
    && (a.Leave? ==> a.ticket in s.active)
  }

  function Apply(s: Sys, a: Step): Sys
    requires Enabled(s, a)
  {
    match a
    case Enter(t, d, job, ttl, at) =>
      Sys(Acquired(s.rows, d, job, ttl, at),
          if Free(s.rows, d, at) then s.active[t := Section(d, job, at + ttl)] else s.active, at)
    case Leave(t, at) => Sys(Released(s.rows, s.active[t].device), s.active - {t}, at)
    case Look(d, at) => Sys(Checked(s.rows, d, at), s.active, at)
  }

  ghost predicate IsRun(states: seq<Sys>, steps: seq<Step>) {
    && |states| == |steps| + 1
    && states[0].rows == map[] && states[0].active == map[]
    && forall i :: 0 <= i < |steps| ==> Enabled(states[i], steps[i]) && states[i + 1] == Apply(states[i], steps[i])
  }

  ghost predicate Exclusive(s: Sys) {
    forall t, u :: t in s.active && u in s.active && s.active[t].device == s.active[u].device ==> t == u
  }

  /** Nobody tries to enter a device whose holder has outlived its time to live. */
  ghost predicate NotAfterDeadline(s: Sys, a: Step) {
    a.Enter? ==> forall t :: t in s.active && s.active[t].device == a.device ==> s.active[t].deadline > a.at
  }

  /** A holder's row is still its own, or has run out and been removed by a look. */
  ghost predicate OwnsRow(s: Sys, t: Ticket)
    requires t in s.active
  {
    var c := s.active[t];
    if c.device in s.rows then s.rows[c.device] == Lock(c.job, c.deadline) else c.deadline <= s.clock
  }

  ghost predicate Owned(s: Sys) {
    forall t :: t in s.active ==> OwnsRow(s, t)
  }

  lemma OwnedStep(s: Sys, a: Step)
    requires Enabled(s, a) && Owned(s) && Exclusive(s) && NotAfterDeadline(s, a)
    ensures Owned(Apply(s, a)) && Exclusive(Apply(s, a))
  {
    if a.Enter? {
      forall t | t in s.active
        ensures t in Apply(s, a).active && OwnsRow(Apply(s, a), t)
      {
        assert OwnsRow(s, t);
      }
    } else if a.Leave? {
      forall t | t in Apply(s, a).active
        ensures OwnsRow(Apply(s, a), t)
      {
        assert OwnsRow(s, t);
      }
    } else {
      forall t | t in s.active
        ensures OwnsRow(Apply(s, a), t)
      {
        assert OwnsRow(s, t);
      }
    }
  }

  lemma {:induction false} OwnedUntil(states: seq<Sys>, steps: seq<Step>, n: nat)
    requires IsRun(states, steps) && n < |states|
    requires forall i :: 0 <= i < n ==> NotAfterDeadline(states[i], steps[i])
    ensures Owned(states[n]) && Exclusive(states[n])
  {
    if n > 0 {
      OwnedUntil(states, steps, n - 1);
      OwnedStep(states[n - 1], steps[n - 1]);
      assert states[n - 1 + 1] == Apply(states[n - 1], steps[n - 1]);
    }
  }

  lemma LateEntryCollides(s: Sys, a: Step)
    requires Enabled(s, a) && Owned(s) && !NotAfterDeadline(s, a)
    ensures !Exclusive(Apply(s, a))
  {
    var t :| t in s.active && s.active[t].device == a.device && s.active[t].deadline <= a.at;
    assert OwnsRow(s, t);
    var r := Apply(s, a);
    assert t in r.active && a.ticket in r.active && r.active[t].device == r.active[a.ticket].device;
  }

  lemma {:induction false} ExclusiveNeedsDeadlines(states: seq<Sys>, steps: seq<Step>, n: nat)
    requires IsRun(states, steps) && n <= |steps|
    requires forall i :: 0 <= i <= n ==> Exclusive(states[i])
    ensures forall i :: 0 <= i < n ==> NotAfterDeadline(states[i], steps[i])
  {
    if n > 0 {
      ExclusiveNeedsDeadlines(states, steps, n - 1);
      OwnedUntil(states, steps, n - 1);
      assert states[n - 1 + 1] == Apply(states[n - 1], steps[n - 1]);
      if !NotAfterDeadline(states[n - 1], steps[n - 1]) {
        LateEntryCollides(states[n - 1], steps[n - 1]);
      }
    }
  }

  /**
   When the table excludes: over a whole run no two holders are ever in their section on one device exactly
   if no `acquire` comes for a device whose holder is past its time to live.
   */
  lemma ExclusionExactly(states: seq<Sys>, steps: seq<Step>)
    requires IsRun(states, steps)
    ensures (forall n :: 0 <= n < |states| ==> Exclusive(states[n])) <==>
            (forall i :: 0 <= i < |steps| ==> NotAfterDeadline(states[i], steps[i]))
  {
    if forall n :: 0 <= n < |states| ==> Exclusive(states[n]) {
      ExclusiveNeedsDeadlines(states, steps, |steps|);
    }
    if forall i :: 0 <= i < |steps| ==> NotAfterDeadline(states[i], steps[i]) {
      forall n | 0 <= n < |states|
        ensures Exclusive(states[n])
      {
        OwnedUntil(states, steps, n);
      }
    }
  }

  /** If every holder is always within its time to live, the sections exclude and the live locks are theirs. */
  lemma WithinTtlExcludes(states: seq<Sys>, steps: seq<Step>, n: nat)
    requires IsRun(states, steps) && n < |states|
    requires forall i, t :: 0 <= i < |steps| && t in states[i].active ==> states[i].active[t].deadline > steps[i].at
    requires forall t :: t in states[n].active ==> states[n].active[t].deadline > states[n].clock
    ensures Exclusive(states[n])
    ensures forall t :: t in states[n].active ==>
              var c := states[n].active[t];
              c.device in Live(states[n].rows, states[n].clock) && states[n].rows[c.device] == Lock(c.job, c.deadline)
  {
    OwnedUntil(states, steps, n);
    forall t | t in states[n].active
      ensures var c := states[n].active[t];
              c.device in Live(states[n].rows, states[n].clock) && states[n].rows[c.device] == Lock(c.job, c.deadline)
    {
      assert OwnsRow(states[n], t);
    }
  }

  /**
   One late holder harms others: job 1 overruns, job 2 enters properly, job 1's release deletes job 2's lock,
   and job 3 enters while job 2 is within its time to live.
   */
  lemma LateReleaseEvictsSuccessor()
    ensures exists states: seq<Sys>, steps: seq<Step> ::
              && IsRun(states, steps) && |steps| == 4
              && var last := states[4];
                 && 2 in last.active && 3 in last.active && last.active[2].device == last.active[3].device
                 && last.clock < last.active[2].deadline && last.clock < last.active[3].deadline
  {
    var s0 := Sys(map[], map[], 0);
    var s1 := Apply(s0, Enter(1, 7, 1, 900, 0));
    var s2 := Apply(s1, Enter(2, 7, 2, 900, 1000));
    var s3 := Apply(s2, Leave(1, 1001));
    var s4 := Apply(s3, Enter(3, 7, 3, 900, 1002));
    var states, steps := [s0, s1, s2, s3, s4],
        [Enter(1, 7, 1, 900, 0), Enter(2, 7, 2, 900, 1000), Leave(1, 1001), Enter(3, 7, 3, 900, 1002)];
    assert IsRun(states, steps);
    assert states[4] == s4;
  }
}
