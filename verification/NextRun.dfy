/**
 The next run of a backup schedule, in a zone with a fixed offset. Instants are microseconds. Only the minute and hour
 fields of a five-field expression are read.
 */
module NextRun {
  import opened Wrappers

  const MINUTE: int := 60_000_000
  const HOUR: int := 3_600_000_000
  const DAY: int := 86_400_000_000

  /** `Garbage` is text that is not an integer. */
  datatype Field = Star | Number(value: int) | Garbage

  datatype Schedule = Hourly | Daily | Cron(fields: seq<Field>)

  datatype Error = ValueError

  function MinuteOf(t: int): (m: int)
    ensures 0 <= m < 60
  {
    t / MINUTE % 60
  }

  function HourOf(t: int): (h: int)
    ensures 0 <= h < 24
  {
    t / HOUR % 24
  }

  function CronNumber(f: Field, current: int): Result<int, Error> {
    match f
    case Star => Ok(current)
    case Number(value) => if value < 0 then Err(ValueError) else Ok(value)
    case Garbage => Err(ValueError)
  }

  /** `local.replace(hour, minute, second=0, microsecond=0)`, which refuses numbers out of range. */
  function Replace(local: int, hour: int, minute: int): Result<int, Error> {
    if 0 <= hour < 24 && 0 <= minute < 60 then Ok(local / DAY * DAY + hour * HOUR + minute * MINUTE)
    else Err(ValueError)
  }

  function NextLocal(schedule: Schedule, local: int): Result<int, Error> {
    match schedule
    case Hourly => Ok(local / HOUR * HOUR + HOUR)
    case Daily => Ok(local / DAY * DAY + DAY)
    case Cron(fields) =>
      if |fields| != 5 then Err(ValueError)
      else if CronNumber(fields[0], MinuteOf(local)).Err? || CronNumber(fields[1], HourOf(local)).Err? then
        Err(ValueError)
      else
        var candidate := Replace(local, CronNumber(fields[1], HourOf(local)).value,
                                 CronNumber(fields[0], MinuteOf(local)).value);
        if candidate.Err? || candidate.value > local then candidate
        else Ok(candidate.value + if fields[1] == Star then HOUR else DAY)
  }

  /** `calculate_next_run`, with the instants in UTC. A zone is its offset; None is a name that no zone has. */
  function CalculateNextRun(schedule: Schedule, zone: Option<int>, now: int): Result<int, Error> {
    if zone == None then Err(ValueError) else
    var next := NextLocal(schedule, now + zone.value);
    if next.Ok? then Ok(next.value - zone.value) else next
  }

  predicate InRange(f: Field, bound: int) {
    f == Star || (f.Number? && 0 <= f.value < bound)
  }

  predicate Valid(schedule: Schedule) {
    schedule.Cron? ==> |schedule.fields| == 5 && InRange(schedule.fields[0], 60) && InRange(schedule.fields[1], 24)
  }

  function MinuteField(schedule: Schedule): Field {
    match schedule
    case Cron(fields) => if |fields| > 0 then fields[0] else Garbage
    case _ => Number(0)
  }

  function HourField(schedule: Schedule): Field {
    match schedule
    case Cron(fields) => if |fields| > 1 then fields[1] else Garbage
    case Hourly => Star
    case Daily => Number(0)
  }

  function Period(schedule: Schedule): int {
    if HourField(schedule) == Star then HOUR else DAY
  }

  /** What the schedule asks for: a whole minute whose minute and hour are the numeric ones. */
  predicate Matches(schedule: Schedule, local: int) {
    && local % MINUTE == 0
    && (MinuteField(schedule).Number? ==> MinuteOf(local) == MinuteField(schedule).value)
    && (HourField(schedule).Number? ==> HourOf(local) == HourField(schedule).value)
  }

  /** The instant with the given day, hour, minute and remainder. */
  function At(d: int, h: int, m: int, rest: int): int {
    d * DAY + h * HOUR + m * MINUTE + rest
  }

  lemma Parts(t: int) returns (d: int, h: int, m: int, rest: int)
    ensures t == At(d, h, m, rest) && 0 <= h < 24 && 0 <= m < 60 && 0 <= rest < MINUTE
    ensures d == t / DAY && h == HourOf(t) && m == MinuteOf(t) && rest == t % MINUTE
  {
    d, h, m, rest := t / DAY, HourOf(t), MinuteOf(t), t % MINUTE;
    assert t / HOUR == (t / MINUTE) / 60;
    assert t / DAY == (t / HOUR) / 24;
  }

  lemma Divide(q: int, r: int)
    ensures 0 <= r < MINUTE ==> (q * MINUTE + r) / MINUTE == q && (q * MINUTE + r) % MINUTE == r
    ensures 0 <= r < HOUR ==> (q * HOUR + r) / HOUR == q
    ensures 0 <= r < DAY ==> (q * DAY + r) / DAY == q
    ensures 0 <= r < 60 ==> (q * 60 + r) % 60 == r
    ensures 0 <= r < 24 ==> (q * 24 + r) % 24 == r
  {
  }

  lemma PartsOf(d: int, h: int, m: int, rest: int)
    requires 0 <= h < 24 && 0 <= m < 60 && 0 <= rest < MINUTE
    ensures var t := At(d, h, m, rest);
            t / DAY == d && HourOf(t) == h && MinuteOf(t) == m && t % MINUTE == rest && t / HOUR == 24 * d + h
  {
    assert At(d, h, m, rest) == (1440 * d + 60 * h + m) * MINUTE + rest;
    assert At(d, h, m, rest) == (24 * d + h) * HOUR + (m * MINUTE + rest);
    assert At(d, h, m, rest) == d * DAY + (h * HOUR + m * MINUTE + rest);
    Divide(1440 * d + 60 * h + m, rest);
    Divide(24 * d + h, m * MINUTE + rest);
    Divide(d, h * HOUR + m * MINUTE + rest);
    Divide(24 * d + h, m);
    Divide(d, h);
  }

  /** A next run is computed exactly for a known zone and a schedule that is well formed and in range. */
  lemma ComputesExactly(schedule: Schedule, zone: Option<int>, now: int)
    ensures CalculateNextRun(schedule, zone, now).Ok? <==> zone.Some? && Valid(schedule)
  {
  }

  /** The result in terms of the parts of the current local time. */
  lemma NextIs(schedule: Schedule, d: int, h: int, m: int, rest: int)
    requires Valid(schedule) && 0 <= h < 24 && 0 <= m < 60 && 0 <= rest < MINUTE
    ensures var minute := if MinuteField(schedule).Number? then MinuteField(schedule).value else m;
            var hour := if HourField(schedule).Number? then HourField(schedule).value else h;
            var first, local := At(d, hour, minute, 0), At(d, h, m, rest);
            0 <= minute < 60 && 0 <= hour < 24
            && NextLocal(schedule, local) == Ok(if first > local then first else first + Period(schedule))
  {
    PartsOf(d, h, m, rest);
  }

  /** Where the next run lies: the numeric minute and hour are met, and the period is not exceeded. */
  lemma NextParts(schedule: Schedule, local: int) returns (d: int, h: int, m: int)
    requires Valid(schedule)
    ensures NextLocal(schedule, local) == Ok(At(d, h, m, 0)) && 0 <= h < 24 && 0 <= m < 60
    ensures MinuteField(schedule).Number? ==> m == MinuteField(schedule).value
    ensures HourField(schedule).Number? ==> h == HourField(schedule).value
    ensures local < At(d, h, m, 0) <= local + Period(schedule)
  {
    var rest;
    d, h, m, rest := Parts(local);
    NextIs(schedule, d, h, m, rest);
    if MinuteField(schedule).Number? {
      m := MinuteField(schedule).value;
    }
    if HourField(schedule).Number? {
      h := HourField(schedule).value;
      d := if At(d, h, m, 0) > local then d else d + 1;
    } else if At(d, h, m, 0) <= local {
      d, h := if h < 23 then d else d + 1, if h < 23 then h + 1 else 0;
    }
  }

  /** The next run is after now, at most one period away, and at a time that the schedule asks for. */
  lemma NextRunIsSoonAndMatches(schedule: Schedule, offset: int, now: int)
    requires Valid(schedule)
    ensures CalculateNextRun(schedule, Some(offset), now).Ok?
    ensures var next := CalculateNextRun(schedule, Some(offset), now).value;
            now < next <= now + Period(schedule) && Matches(schedule, next + offset)
  {
    var d, h, m := NextParts(schedule, now + offset);
    PartsOf(d, h, m, 0);
  }

  /** A starred minute stays the current one. */
  predicate KeepsMinute(schedule: Schedule, local: int, next: int) {
    MinuteField(schedule) == Star ==> MinuteOf(next) == MinuteOf(local)
  }

  lemma StarredMinuteKept(schedule: Schedule, local: int)
    requires Valid(schedule)
    ensures NextLocal(schedule, local).Ok? && KeepsMinute(schedule, local, NextLocal(schedule, local).value)
  {
    var d, h, m, rest := Parts(local);
    NextIs(schedule, d, h, m, rest);
    if MinuteField(schedule) == Star {
      var hour := if HourField(schedule).Number? then HourField(schedule).value else h;
      PartsOf(d, hour, m, 0);
      PartsOf(d + 1, hour, m, 0);
      PartsOf(d, if h < 23 then h + 1 else 0, m, 0);
      PartsOf(d + 1, 0, m, 0);
    }
  }

  lemma OneInWindow(schedule: Schedule, local: int, t: int, u: int)
    requires Valid(schedule) && KeepsMinute(schedule, local, t) && KeepsMinute(schedule, local, u)
    requires Matches(schedule, t) && Matches(schedule, u)
    requires local < t <= local + Period(schedule) && local < u <= local + Period(schedule)
    ensures t == u
  {
    var d, h, m, _ := Parts(t);
    var e, i, n, _ := Parts(u);
    if HourField(schedule) == Star {
      WholeHours(24 * d + h, 24 * e + i);
    } else {
      WholeDays(d, e);
    }
  }

  lemma WholeHours(a: int, b: int)
    requires -HOUR < a * HOUR - b * HOUR < HOUR
    ensures a == b
  {
  }

  lemma WholeDays(a: int, b: int)
    requires -DAY < a * DAY - b * DAY < DAY
    ensures a == b
  {
  }

  /**
   Exactly which instant is the next run: the one after now and at most a period away at which the schedule's numeric
   minute and hour are met, at the current minute of the hour if the minute is starred.
   */
  lemma NextRunExactly(schedule: Schedule, offset: int, now: int, t: int)
    requires Valid(schedule)
    ensures CalculateNextRun(schedule, Some(offset), now) == Ok(t) <==>
              && now < t <= now + (if HourField(schedule) == Star then HOUR else DAY)
              && Matches(schedule, t + offset) && KeepsMinute(schedule, now + offset, t + offset)
  {
    NextRunIsSoonAndMatches(schedule, offset, now);
    StarredMinuteKept(schedule, now + offset);
    var next := CalculateNextRun(schedule, Some(offset), now).value;
    if now < t <= now + Period(schedule) && Matches(schedule, t + offset)
       && KeepsMinute(schedule, now + offset, t + offset) {
      OneInWindow(schedule, now + offset, t + offset, next + offset);
    }
  }

  ghost predicate IsLeast(schedule: Schedule, offset: int, now: int) {
    var next := CalculateNextRun(schedule, Some(offset), now);
    next.Ok? && forall t :: now + offset < t && Matches(schedule, t) ==> next.value + offset <= t
  }

  /** Whole minutes after a given instant, with the same minute of the hour or with the same hour of the day. */
  lemma SameMinuteLater(n: int, m: int, rest: int, k: int, minute: int)
    requires 0 <= m < 60 && 0 <= rest < MINUTE && 0 <= minute < 60
    requires n * HOUR + m * MINUTE + rest < k * HOUR + minute * MINUTE
    ensures k >= n && (n * HOUR + minute * MINUTE <= n * HOUR + m * MINUTE + rest ==> k >= n + 1)
  {
  }

  lemma SameHourLater(d: int, h: int, m: int, rest: int, k: int, hour: int, minute: int)
    requires 0 <= h < 24 && 0 <= m < 60 && 0 <= rest < MINUTE && 0 <= hour < 24 && 0 <= minute < 60
    requires At(d, h, m, rest) < At(k, hour, minute, 0)
    ensures k >= d && (h > hour ==> k >= d + 1) && (At(d, hour, minute, 0) <= At(d, h, m, rest) ==> k >= d + 1)
  {
  }

  lemma NoEarlierMatch(schedule: Schedule, local: int, t: int)
    requires Valid(schedule) && MinuteField(schedule).Number? && local < t && Matches(schedule, t)
    ensures NextLocal(schedule, local).Ok? && NextLocal(schedule, local).value <= t
  {
    var d, h, m, rest := Parts(local);
    NextIs(schedule, d, h, m, rest);
    var k, hour, minute, _ := Parts(t);
    if HourField(schedule).Number? {
      SameHourLater(d, h, m, rest, k, hour, minute);
    } else {
      SameMinuteLater(24 * d + h, m, rest, 24 * k + hour, minute);
    }
  }

  lemma NoEarlierMatchAtHour(schedule: Schedule, local: int, t: int)
    requires Valid(schedule) && HourField(schedule).Number? && MinuteField(schedule) == Star
    requires MinuteOf(local) == 0 && HourOf(local) != HourField(schedule).value
    requires local < t && Matches(schedule, t)
    ensures NextLocal(schedule, local).Ok? && NextLocal(schedule, local).value <= t
  {
    var d, h, m, rest := Parts(local);
    NextIs(schedule, d, h, m, rest);
    var k, hour, minute, _ := Parts(t);
    SameHourLater(d, h, m, rest, k, hour, minute);
  }

  /**
   With a starred minute and otherwise, an earlier whole minute matches too: the next minute, or the start of the
   hour.
   */
  lemma EarlierMatch(schedule: Schedule, local: int) returns (t: int)
    requires Valid(schedule) && MinuteField(schedule) == Star
    requires HourField(schedule).Number? && MinuteOf(local) == 0 ==> HourOf(local) == HourField(schedule).value
    ensures local < t && Matches(schedule, t) && NextLocal(schedule, local).Ok? && t < NextLocal(schedule, local).value
  {
    var d, h, m, rest := Parts(local);
    NextIs(schedule, d, h, m, rest);
    if HourField(schedule) == Star || (h == HourField(schedule).value && m < 59) {
      t := At(d, h, m, 0) + MINUTE;
      if m < 59 {
        PartsOf(d, h, m + 1, 0);
      } else if h < 23 {
        PartsOf(d, h + 1, 0, 0);
      } else {
        PartsOf(d + 1, 0, 0, 0);
      }
    } else {
      var hour := HourField(schedule).value;
      t := if h < hour then At(d, hour, 0, 0) else At(d + 1, hour, 0, 0);
      PartsOf(d, hour, 0, 0);
      PartsOf(d + 1, hour, 0, 0);
    }
  }

  /**
   The next run is the least later time the schedule asks for exactly if the minute is numeric (as for `@hourly` and
   `@daily`), or the hour is numeric, the current minute is 0 and the current hour is a different one.
   */
  lemma LeastExactly(schedule: Schedule, offset: int, now: int)
    requires Valid(schedule)
    ensures IsLeast(schedule, offset, now) <==>
              || MinuteField(schedule).Number?
              || (HourField(schedule).Number? && MinuteOf(now + offset) == 0
                  && HourOf(now + offset) != HourField(schedule).value)
  {
    var local := now + offset;
    ComputesExactly(schedule, Some(offset), now);
    if MinuteField(schedule).Number? {
      forall t | local < t && Matches(schedule, t)
        ensures CalculateNextRun(schedule, Some(offset), now).value + offset <= t
      {
        NoEarlierMatch(schedule, local, t);
      }
    } else if HourField(schedule).Number? && MinuteOf(local) == 0 && HourOf(local) != HourField(schedule).value {
      forall t | local < t && Matches(schedule, t)
        ensures CalculateNextRun(schedule, Some(offset), now).value + offset <= t
      {
        NoEarlierMatchAtHour(schedule, local, t);
      }
    } else {
      var t := EarlierMatch(schedule, local);
      assert local < t && Matches(schedule, t);
    }
  }
}
