/** When a scheduled job runs next: ScheduledJob.updateTime and the hour window of event jobs. */
module ScheduledJobs {
  import opened FlowTypes

  /** Time in milliseconds, with days of fixed length. */
  const MINUTE := 60000
  const HOUR := 60 * MINUTE
  const DAY := 24 * HOUR

  /** The loop gives up once it has counted past this. */
  const MAX_COUNT := 100000

  datatype Window = Window(startHour: int, stopHour: int)

  datatype JobInfo = JobInfo(id: string, period: Option<int>, event: Option<Window>)

  /** The readings of the clock in one call of updateTime, in the order they are taken. */
  datatype Clock = Clock(check: int, now: int, local: int) {
    predicate Forward() {
      check <= now <= local
    }
  }

  datatype NextRun = At(time: int) | TooManyIncrements | IllegalHour

  datatype Update = Updated(next: int) | NotRecurring | Raised(problem: NextRun)

  // ---- The window ----

  function HourOf(t: int): (h: int)
    ensures 0 <= h < 24
  {
    t % DAY / HOUR
  }

  /** checkTimeConstraints. */
  predicate CheckTimeConstraints(nowHour: int, startHour: int, stopHour: int) {
    if startHour < stopHour then nowHour >= startHour && nowHour < stopHour
    else nowHour >= startHour || nowHour < stopHour
  }

  /** The window is the circular interval that starts with one hour and ends before the other; it is
      the whole day when they are the same. */
  lemma {:induction false} WindowIsCircular(nowHour: int, startHour: int, stopHour: int)
    requires 0 <= nowHour < 24 && 0 <= startHour < 24 && 0 <= stopHour < 24
    ensures CheckTimeConstraints(nowHour, startHour, stopHour) <==>
              startHour == stopHour || (nowHour - startHour) % 24 < (stopHour - startHour) % 24
  {
    CircularDistance(nowHour, startHour);
    CircularDistance(stopHour, startHour);
  }

  lemma CircularDistance(a: int, b: int)
    requires 0 <= a < 24 && 0 <= b < 24
    ensures (a - b) % 24 == if a >= b then a - b else a - b + 24
  {
  }

  /** withHourOfDay(startHour).withMinuteOfHour(0): seconds and milliseconds stay. */
  function WithHour(t: int, hour: int): int {
    t - t % DAY + hour * HOUR + t % MINUTE
  }

  lemma WithHourParts(t: int, hour: int)
    requires 0 <= hour < 24
    ensures HourOf(WithHour(t, hour)) == hour && t - t % DAY <= WithHour(t, hour) < t - t % DAY + DAY
    ensures HourOf(WithHour(t, hour) + DAY) == hour
  {
    var r := hour * HOUR + t % MINUTE;
    assert 0 <= r < DAY && r / HOUR == hour;
    var d := t / DAY;
    assert t - t % DAY == d * DAY;
    DayOffset(d, r);
    DayOffset(d + 1, r);
  }

  lemma DayOffset(d: int, r: int)
    requires 0 <= r < DAY
    ensures (d * DAY + r) % DAY == r
  {
    assert (d * DAY + r) / DAY == d by {
      assert d * DAY <= d * DAY + r < (d + 1) * DAY;
    }
  }

  // ---- Catching up ----

  /** The loop of getNextRuntime from a date and a count on. */
  function Advance(date: int, period: int, now: int, count: nat): NextRun
    decreases MAX_COUNT + 1 - count
  {
    if now < date then At(date)
    else if count > MAX_COUNT then TooManyIncrements
    else Advance(date + period, period, now, count + 1)
  }

  /** An event job outside its window waits for it. */
  predicate MustWait(info: JobInfo, clock: Clock) {
    && info.event.Some?
    && !CheckTimeConstraints(HourOf(clock.now), info.event.value.startHour, info.event.value.stopHour)
  }

  /** getNextRuntime for a job with a period. */
  function NextRuntime(info: JobInfo, scheduled: int, period: int, clock: Clock): NextRun {
    if MustWait(info, clock) then
      var start := info.event.value.startHour;
      if !(0 <= start < 24) then IllegalHour
      else if WithHour(clock.local, start) < clock.now then At(WithHour(clock.local, start) + DAY)
      else At(WithHour(clock.local, start))
    else Advance(scheduled, period, clock.now, 0)
  }

  function UpdateTime(info: JobInfo, next: int, clock: Clock): Update {
    if next > clock.check then Updated(next)
    else if info.period.None? then NotRecurring
    else
      match NextRuntime(info, next, info.period.value, clock)
      case At(t) => Updated(t)
      case problem => Raised(problem)
  }

  lemma {:induction false} AdvanceFrom(date: int, period: int, now: int, count: nat) returns (k: nat)
    requires count <= MAX_COUNT + 1
    ensures k <= MAX_COUNT + 1 - count && forall j: nat :: j < k ==> date + j * period <= now
    ensures match Advance(date, period, now, count)
            case At(t) => t == date + k * period && t > now
            case TooManyIncrements => k == MAX_COUNT + 1 - count && date + k * period <= now
            case IllegalHour => false
    decreases MAX_COUNT + 1 - count
  {
    k := 0;
    if date <= now && count <= MAX_COUNT {
      var m := AdvanceFrom(date + period, period, now, count + 1);
      k := m + 1;
      assert date + k * period == (date + period) + m * period;
      forall j: nat | j < k ensures date + j * period <= now {
        if j > 0 { assert date + j * period == (date + period) + (j - 1) * period; }
      }
    }
  }

  /** The loop returns the first multiple of the period past the present, and gives up exactly when
      even the last one it may try is not past it. The period need not be positive. */
  lemma {:induction false} CatchUp(date: int, period: int, now: int)
    requires date <= now
    ensures Advance(date, period, now, 0).TooManyIncrements? <==> now >= date + (MAX_COUNT + 1) * period
    ensures !Advance(date, period, now, 0).IllegalHour?
    ensures Advance(date, period, now, 0).At? ==>
              exists k: nat :: Advance(date, period, now, 0).time == date + k * period > now
                && k <= MAX_COUNT + 1 && forall j: nat :: j < k ==> date + j * period <= now
  {
    var k := AdvanceFrom(date, period, now, 0);
    if Advance(date, period, now, 0).At? {
      assert k > 0;
      MoreIsLater(date, period, now, k);
    }
  }

  lemma MoreIsLater(date: int, period: int, now: int, k: nat)
    requires date <= now < date + k * period && k <= MAX_COUNT + 1
    ensures now < date + (MAX_COUNT + 1) * period
  {
    NoGrowth(k, period);
    assert period > 0;
    ProductOfNats(MAX_COUNT + 1 - k, period);
    assert (MAX_COUNT + 1) * period == k * period + (MAX_COUNT + 1 - k) * period;
  }

  lemma NoGrowth(a: nat, b: int)
    ensures b <= 0 ==> a * b <= 0
  {
    if b <= 0 {
      ProductOfNats(a, -b);
      assert a * b == -(a * -b);
    }
  }

  lemma ProductOfNats(a: nat, b: nat)
    ensures a * b >= 0
  {
  }

  /** An event job outside its window is put off to a moment inside the window, after the present and
      less than a day after the clock is read. */
  lemma {:induction false} DeferredIntoWindow(info: JobInfo, scheduled: int, period: int, clock: Clock)
    requires clock.Forward() && info.event.Some?
    requires !CheckTimeConstraints(HourOf(clock.now), info.event.value.startHour, info.event.value.stopHour)
    requires 0 <= info.event.value.startHour < 24
    ensures var r := NextRuntime(info, scheduled, period, clock);
            && r.At? && clock.now < r.time < clock.local + DAY
            && HourOf(r.time) == info.event.value.startHour
            && CheckTimeConstraints(HourOf(r.time), info.event.value.startHour, info.event.value.stopHour)
  {
    var start := info.event.value.startHour;
    WithHourParts(clock.local, start);
    assert HourOf(clock.now) != start;
  }

  /** A period that reaches the present in time always leads to a later run. */
  lemma {:induction false} UpdatedIsLater(info: JobInfo, next: int, clock: Clock)
    requires clock.Forward() && UpdateTime(info, next, clock).Updated?
    ensures UpdateTime(info, next, clock).next > clock.check
    ensures next <= clock.check ==> UpdateTime(info, next, clock).next > clock.now && info.period.Some?
  {
    if next <= clock.check {
      var r := NextRuntime(info, next, info.period.value, clock);
      if MustWait(info, clock) {
        DeferredIntoWindow(info, next, info.period.value, clock);
      } else {
        CatchUp(next, info.period.value, clock.now);
      }
    }
  }

  /** updateTime raises an exception exactly when the loop gives up, or the window to wait for does
      not start at an hour of the day. */
  lemma {:induction false} RaisedIff(info: JobInfo, next: int, clock: Clock)
    requires clock.Forward() && next <= clock.check && info.period.Some?
    ensures UpdateTime(info, next, clock).Raised? <==>
              if MustWait(info, clock)
              then !(0 <= info.event.value.startHour < 24)
              else clock.now >= next + (MAX_COUNT + 1) * info.period.value
  {
    CatchUp(next, info.period.value, clock.now);
  }

  // ---- What updateTime sets the time to, without its loop ----

  /** The first multiple of the period past the present. */
  ghost predicate IsCaughtUp(next: int, period: int, now: int, t: int) {
    exists k: nat :: t == next + k * period > now && forall j: nat :: j < k ==> next + j * period <= now
  }

  /** A moment at the full hour that the window starts with, but for the seconds and milliseconds of the
      clock, on the day of the reading or later and not before the present. */
  predicate AtWindowStart(window: Window, clock: Clock, t: int) {
    && HourOf(t) == window.startHour && t % HOUR / MINUTE == 0 && t % MINUTE == clock.local % MINUTE
    && t >= clock.now && t / DAY >= clock.local / DAY
  }

  /** The first such moment. */
  ghost predicate IsDeferred(window: Window, clock: Clock, t: int) {
    AtWindowStart(window, clock, t) && forall u :: AtWindowStart(window, clock, u) ==> t <= u
  }

  lemma PartsOf(t: int)
    ensures t == t / DAY * DAY + t % DAY && 0 <= t % DAY < DAY
    ensures t % DAY == HourOf(t) * HOUR + t % DAY % HOUR && t % DAY % HOUR == t % HOUR
    ensures t % HOUR == t % HOUR / MINUTE * MINUTE + t % HOUR % MINUTE && t % HOUR % MINUTE == t % MINUTE
  {
    Nested(t, HOUR, 24);
    Nested(t, MINUTE, 60);
  }

  /** The remainder of a coarse division has the remainder of the fine one. */
  lemma Nested(t: int, unit: nat, n: nat)
    requires unit > 0 && n > 0
    ensures unit * n > 0 && t % (unit * n) % unit == t % unit
  {
    ProductPositive(unit, n);
    var m := unit * n;
    var q, r := t / m, t % m;
    assert t == q * m + r;
    var a, b := r / unit, r % unit;
    assert r == a * unit + b;
    assert t == (q * n + a) * unit + b by { assert q * m == (q * n) * unit; }
    Remainder(q * n + a, unit, b);
  }

  lemma ProductPositive(a: nat, b: nat)
    requires a > 0 && b > 0
    ensures a * b > 0
  {
  }

  lemma Remainder(q: int, unit: nat, b: nat)
    requires b < unit
    ensures (q * unit + b) % unit == b
  {
    var t := q * unit + b;
    assert t / unit == q by {
      assert q * unit <= t < (q + 1) * unit;
      Quotient(t, unit, q);
    }
  }

  lemma Quotient(t: int, unit: nat, q: int)
    requires unit > 0 && q * unit <= t < (q + 1) * unit
    ensures t / unit == q
  {
    var d := t / unit;
    assert d * unit <= t < (d + 1) * unit;
    if d > q { Grows(q + 1, d, unit); }
    if d < q { Grows(d + 1, q, unit); }
  }

  lemma Grows(a: int, b: int, unit: nat)
    requires a <= b
    ensures a * unit <= b * unit
  {
    ProductOfNats(b - a, unit);
    assert b * unit == a * unit + (b - a) * unit;
  }

  lemma Split(d: int, x: int)
    requires 0 <= x < DAY
    ensures (d * DAY + x) / DAY == d && (d * DAY + x) % DAY == x
  {
    Quotient(d * DAY + x, DAY, d);
  }

  /** The time of day at the start of the window. */
  lemma WindowStartParts(window: Window, clock: Clock, u: int)
    requires 0 <= window.startHour < 24 && AtWindowStart(window, clock, u)
    ensures u == u / DAY * DAY + window.startHour * HOUR + clock.local % MINUTE
  {
    PartsOf(u);
  }

  lemma AtStartOfDay(window: Window, clock: Clock, d: int)
    requires 0 <= window.startHour < 24 && d >= clock.local / DAY
    ensures var u := d * DAY + window.startHour * HOUR + clock.local % MINUTE;
            && d * DAY <= u < d * DAY + DAY && u / DAY == d
            && (u >= clock.now ==> AtWindowStart(window, clock, u))
  {
    var x := window.startHour * HOUR + clock.local % MINUTE;
    assert 0 <= x < DAY;
    Split(d, x);
    PartsOf(d * DAY + x);
    assert x / HOUR == window.startHour && x % HOUR == clock.local % MINUTE;
  }

  lemma PutOff(info: JobInfo, next: int, period: int, clock: Clock)
    requires MustWait(info, clock) && 0 <= info.event.value.startHour < 24
    ensures var r, d := NextRuntime(info, next, period, clock), clock.local / DAY;
            var t := d * DAY + info.event.value.startHour * HOUR + clock.local % MINUTE;
            info.event.Some? && r.At? && r.time == if t < clock.now then t + DAY else t
  {
  }

  /** An event job outside its window is put off to exactly the first start of the window. */
  lemma {:induction false} DeferredExactly(info: JobInfo, next: int, period: int, clock: Clock)
    requires clock.Forward() && MustWait(info, clock) && 0 <= info.event.value.startHour < 24
    ensures NextRuntime(info, next, period, clock).At?
    ensures IsDeferred(info.event.value, clock, NextRuntime(info, next, period, clock).time)
  {
    hide NextRuntime;
    PutOff(info, next, period, clock);
    var w, d := info.event.value, clock.local / DAY;
    var x := w.startHour * HOUR + clock.local % MINUTE;
    var t := NextRuntime(info, next, period, clock).time;
    AtStartOfDay(w, clock, d);
    AtStartOfDay(w, clock, d + 1);
    assert clock.now <= clock.local < d * DAY + DAY;
    hide AtWindowStart, HourOf;
    forall u | AtWindowStart(w, clock, u) ensures t <= u {
      WindowStartParts(w, clock, u);
      StartIsLater(w, clock, u, d, x);
    }
  }

  lemma StartIsLater(window: Window, clock: Clock, u: int, d: int, x: int)
    requires AtWindowStart(window, clock, u) && d == clock.local / DAY && u == u / DAY * DAY + x
    ensures u >= d * DAY + x && (d * DAY + x < clock.now ==> u >= (d + 1) * DAY + x)
  {
    Grows(d, u / DAY, DAY);
    if u / DAY > d { Grows(d + 1, u / DAY, DAY); }
  }

  /** What the time becomes: a due job that recurs is caught up, or put off to the start of its window. */
  ghost predicate NextIs(info: JobInfo, next: int, clock: Clock, t: int) {
    if MustWait(info, clock) then IsDeferred(info.event.value, clock, t)
    else info.period.Some? && IsCaughtUp(next, info.period.value, clock.now, t)
  }

  lemma {:induction false} UpdatedExactly(info: JobInfo, next: int, clock: Clock)
    requires clock.Forward()
    ensures next > clock.check ==> UpdateTime(info, next, clock) == Updated(next)
    ensures next <= clock.check && info.period.None? ==> UpdateTime(info, next, clock) == NotRecurring
    ensures next <= clock.check && UpdateTime(info, next, clock).Updated? ==>
              NextIs(info, next, clock, UpdateTime(info, next, clock).next)
  {
    if next <= clock.check && info.period.Some? {
      if MustWait(info, clock) {
        if 0 <= info.event.value.startHour < 24 { DeferredExactly(info, next, info.period.value, clock); }
      } else {
        CatchUp(next, info.period.value, clock.now);
      }
    }
  }

  // ---- The object ----

  class ScheduledJob {
    const info: JobInfo
    var nextScheduledExecution: int

    constructor (info: JobInfo, nextExecution: int)
      ensures this.info == info && nextScheduledExecution == nextExecution
    {
      this.info := info;
      nextScheduledExecution := nextExecution;
    }

    method GetNextRuntime(scheduledDate: int, period: int, clock: Clock) returns (r: NextRun)
      ensures r == NextRuntime(info, scheduledDate, period, clock)
    {
      hide HourOf;
      if info.event.Some? {
        var startHour, stopHour := info.event.value.startHour, info.event.value.stopHour;
        if !CheckTimeConstraints(HourOf(clock.now), startHour, stopHour) {
          if !(0 <= startHour < 24) {
            return IllegalHour;
          }
          var deferred := WithHour(clock.local, startHour);
          if deferred < clock.now {
            deferred := deferred + DAY;
          }
          return At(deferred);
        }
      }
      var date := scheduledDate;
      var count := 0;
      while !(clock.now < date)
        invariant 0 <= count <= MAX_COUNT + 1
        invariant Advance(date, period, clock.now, count) == Advance(scheduledDate, period, clock.now, 0)
        decreases MAX_COUNT + 1 - count
      {
        if count > MAX_COUNT {
          return TooManyIncrements;
        }
        date := date + period;
        count := count + 1;
      }
      return At(date);
    }

    /** The time is the only thing that changes, and only when a next run was found: then to the first
        multiple of the period past the present, or to the start of the window. */
    method Update(clock: Clock) returns (u: Update)
      modifies this
      ensures clock.Forward() && old(nextScheduledExecution) <= clock.check ==>
                && (info.period.None? ==> u.NotRecurring?)
                && (u.Updated? ==> NextIs(info, old(nextScheduledExecution), clock, nextScheduledExecution))
      ensures u == UpdateTime(info, old(nextScheduledExecution), clock)
      ensures nextScheduledExecution == if u.Updated? then u.next else old(nextScheduledExecution)
    {
      if clock.Forward() { UpdatedExactly(info, nextScheduledExecution, clock); }
      hide NextIs, NextRuntime;
      if nextScheduledExecution > clock.check {
        return Updated(nextScheduledExecution);
      }
      if info.period.Some? {
        var other := GetNextRuntime(nextScheduledExecution, info.period.value, clock);
        if other.At? {
          nextScheduledExecution := other.time;
          return Updated(other.time);
        }
        return Raised(other);
      }
      return NotRecurring;
    }
  }
}
