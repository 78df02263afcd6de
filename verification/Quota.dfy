/**
 Push quota (cloud/src/quota.rs): one reservation spends a unit in the account's day, hour
 and minute windows, or in none of them. Instants are microseconds; window starts are
 seconds, and a day is its number since the epoch.
 */
module Quota {
  import opened Prelude

  type Account = nat
  type Counter = map<(Account, int), nat>

  datatype Limits = Limits(daily: nat, hourly: nat, burst: nat)
  datatype Counters = Counters(daily: Counter, hourly: Counter, burst: Counter)
  datatype Spending = Spent(counters: Counters) | Rejected(code: Code)
  datatype Code = DailyQuota | HourlyQuota | BurstQuota

  const SECOND := 1_000_000
  const MINUTE_SECONDS := 60
  const HOUR_SECONDS := 3600
  const DAY_SECONDS := 86400

  /** The limits accepted at start-up (cloud/src/config.rs:226-238). */
  predicate Configured(l: Limits) {
    0 < l.burst <= l.hourly <= l.daily
  }

  function Seconds(now: int): int {
    now / SECOND
  }

  function Truncated(now: int, seconds: int): (start: int)
    requires seconds > 0
    ensures start % seconds == 0 && start <= Seconds(now) < start + seconds
  {
    var t := Seconds(now);
    assert t == seconds * (t / seconds) + t % seconds;
    MultipleOf(t / seconds, seconds);
    t - t % seconds
  }

  lemma MultipleOf(q: int, d: int)
    requires d > 0
    ensures (d * q) % d == 0
  {
    var r := (d * q) % d;
    var k := (d * q) / d;
    assert d * q == d * k + r;
    assert d * (q - k) == r;
    assert (q - k >= 1 ==> d * (q - k) >= d) && (q - k <= -1 ==> d * (q - k) <= -d);
  }

  function Day(now: int): int {
    Seconds(now) / DAY_SECONDS
  }

  function Get(c: Counter, a: Account, at: int): nat {
    if (a, at) in c then c[(a, at)] else 0
  }

  /** The upsert: a new window starts at one, an existing one grows while it is below the limit. */
  function Bump(c: Counter, a: Account, at: int, limit: nat): Option<Counter> {
    if (a, at) !in c then Some(c[(a, at) := 1])
    else if c[(a, at)] < limit then Some(c[(a, at) := c[(a, at)] + 1])
    else None
  }

  /** The three upserts in one transaction; an error rolls all of them back. */
  function Spend(c: Counters, a: Account, now: int, l: Limits): Spending {
    var daily := Bump(c.daily, a, Day(now), l.daily);
    if daily.None? then Rejected(DailyQuota) else
    var hourly := Bump(c.hourly, a, Truncated(now, HOUR_SECONDS), l.hourly);
    if hourly.None? then Rejected(HourlyQuota) else
    var burst := Bump(c.burst, a, Truncated(now, MINUTE_SECONDS), l.burst);
    if burst.None? then Rejected(BurstQuota) else
    Spent(Counters(daily.value, hourly.value, burst.value))
  }

  /** maintenance: hours and minutes are dropped after a week, days after ninety days. */
  function Sweep(c: Counters, now: int): Counters {
    Counters(
      map k | k in c.daily && k.1 >= Day(now - 90 * DAY_SECONDS * SECOND) :: c.daily[k],
      map k | k in c.hourly && k.1 * SECOND >= Cutoff(now) :: c.hourly[k],
      map k | k in c.burst && k.1 * SECOND >= Cutoff(now) :: c.burst[k])
  }

  function Cutoff(now: int): int {
    now - 7 * DAY_SECONDS * SECOND
  }

  // Limits

  ghost predicate Within(c: Counter, limit: nat) {
    forall k :: k in c ==> 1 <= c[k] <= limit
  }

  ghost predicate WithinLimits(c: Counters, l: Limits) {
    Within(c.daily, l.daily) && Within(c.hourly, l.hourly) && Within(c.burst, l.burst)
  }

  lemma SpendKeepsLimits(c: Counters, a: Account, now: int, l: Limits)
    requires Configured(l) && WithinLimits(c, l) && Spend(c, a, now, l).Spent?
    ensures WithinLimits(Spend(c, a, now, l).counters, l)
  {}

  /** A unit is refused exactly when one of the account's three current windows is full. */
  lemma RejectedIffFull(c: Counters, a: Account, now: int, l: Limits)
    requires Configured(l) && WithinLimits(c, l)
    ensures Spend(c, a, now, l).Rejected? <==>
      (Get(c.daily, a, Day(now)) == l.daily || Get(c.hourly, a, Truncated(now, HOUR_SECONDS)) == l.hourly ||
       Get(c.burst, a, Truncated(now, MINUTE_SECONDS)) == l.burst)
  {
    var h, m := Truncated(now, HOUR_SECONDS), Truncated(now, MINUTE_SECONDS);
    assert (a, Day(now)) in c.daily ==> c.daily[(a, Day(now))] <= l.daily;
    assert (a, h) in c.hourly ==> c.hourly[(a, h)] <= l.hourly;
    assert (a, m) in c.burst ==> c.burst[(a, m)] <= l.burst;
  }

  // Nested windows

  /** The sum of the first n windows of a width from a start. */
  function Total(c: Counter, a: Account, start: int, width: int, n: nat): nat {
    if n == 0 then 0 else Total(c, a, start, width, n - 1) + Get(c, a, start + width * (n - 1))
  }

  /** The hour holds the sum of its minutes. */
  ghost predicate HourAddsUp(c: Counters, a: Account, h: int) {
    Get(c.hourly, a, h) == Total(c.burst, a, h, MINUTE_SECONDS, 60)
  }

  /** The day holds the sum of its hours. */
  ghost predicate DayAddsUp(c: Counters, a: Account, d: int) {
    Get(c.daily, a, d) == Total(c.hourly, a, d * DAY_SECONDS, HOUR_SECONDS, 24)
  }

  /** From an instant on, each hour holds the sum of its minutes and each day the sum of its hours. */
  ghost predicate Nested(c: Counters, from: int) {
    (forall a, h :: HourFrom(h, from) ==> HourAddsUp(c, a, h)) &&
    (forall a, d :: DayFrom(d, from) ==> DayAddsUp(c, a, d))
  }

  ghost predicate HourFrom(h: int, from: int) {
    h % HOUR_SECONDS == 0 && h * SECOND >= from
  }

  ghost predicate DayFrom(d: int, from: int) {
    d * DAY_SECONDS * SECOND >= from
  }

  lemma {:induction false} BumpedMinutes(c: Counter, a: Account, at: int, limit: nat, b: Account, start: int, n: nat)
    requires at % MINUTE_SECONDS == 0 && start % MINUTE_SECONDS == 0 && Bump(c, a, at, limit).Some?
    ensures var e := Bump(c, a, at, limit).value;
      Total(e, b, start, MINUTE_SECONDS, n) ==
      Total(c, b, start, MINUTE_SECONDS, n) + (if a == b && start <= at < start + MINUTE_SECONDS * n then 1 else 0)
  {
    if n > 0 {
      BumpedMinutes(c, a, at, limit, b, start, n - 1);
    }
  }

  lemma {:induction false} BumpedHours(c: Counter, a: Account, at: int, limit: nat, b: Account, start: int, n: nat)
    requires at % HOUR_SECONDS == 0 && start % HOUR_SECONDS == 0 && Bump(c, a, at, limit).Some?
    ensures var e := Bump(c, a, at, limit).value;
      Total(e, b, start, HOUR_SECONDS, n) ==
      Total(c, b, start, HOUR_SECONDS, n) + (if a == b && start <= at < start + HOUR_SECONDS * n then 1 else 0)
  {
    if n > 0 {
      BumpedHours(c, a, at, limit, b, start, n - 1);
    }
  }

  lemma HourOfMinute(now: int, h: int)
    requires h % HOUR_SECONDS == 0
    ensures Truncated(now, HOUR_SECONDS) == h <==> h <= Truncated(now, MINUTE_SECONDS) < h + HOUR_SECONDS
  {
    var hour := Truncated(now, HOUR_SECONDS);
    assert hour % HOUR_SECONDS == 0 && hour <= Seconds(now) < hour + HOUR_SECONDS;
  }

  lemma DayOfHour(now: int, d: int)
    ensures Day(now) == d <==>
      d * DAY_SECONDS <= Truncated(now, HOUR_SECONDS) < d * DAY_SECONDS + DAY_SECONDS
  {
    var hour := Truncated(now, HOUR_SECONDS);
    HourInDay(Seconds(now), hour, hour / HOUR_SECONDS, Seconds(now) / DAY_SECONDS, d);
  }

  lemma HourInDay(t: int, hour: int, k: int, q: int, d: int)
    requires hour == HOUR_SECONDS * k && hour <= t < hour + HOUR_SECONDS
    requires DAY_SECONDS * q <= t < DAY_SECONDS * q + DAY_SECONDS
    ensures q == d <==> d * DAY_SECONDS <= hour < d * DAY_SECONDS + DAY_SECONDS
  {
    assert 24 * q <= k < 24 * q + 24;
  }

  lemma SpentCounters(c: Counters, a: Account, now: int, l: Limits)
    requires Spend(c, a, now, l).Spent?
    ensures var e := Spend(c, a, now, l).counters;
      Bump(c.daily, a, Day(now), l.daily) == Some(e.daily) &&
      Bump(c.hourly, a, Truncated(now, HOUR_SECONDS), l.hourly) == Some(e.hourly) &&
      Bump(c.burst, a, Truncated(now, MINUTE_SECONDS), l.burst) == Some(e.burst)
  {}

  lemma BumpedHourMatches(hourly: Counter, burst: Counter, a: Account, hour: int, minute: int, l: Limits,
    b: Account, h: int, n: nat)
    requires n * MINUTE_SECONDS == HOUR_SECONDS && h % MINUTE_SECONDS == 0 && minute % MINUTE_SECONDS == 0
    requires hour == h <==> h <= minute < h + HOUR_SECONDS
    requires Bump(hourly, a, hour, l.hourly).Some? && Bump(burst, a, minute, l.burst).Some?
    requires Get(hourly, b, h) == Total(burst, b, h, MINUTE_SECONDS, n)
    ensures Get(Bump(hourly, a, hour, l.hourly).value, b, h) ==
      Total(Bump(burst, a, minute, l.burst).value, b, h, MINUTE_SECONDS, n)
  {
    BumpedMinutes(burst, a, minute, l.burst, b, h, n);
  }

  lemma BumpedDayMatches(daily: Counter, hourly: Counter, a: Account, day: int, hour: int, l: Limits,
    b: Account, d: int, start: int, n: nat)
    requires n * HOUR_SECONDS == DAY_SECONDS && start % HOUR_SECONDS == 0 && hour % HOUR_SECONDS == 0
    requires day == d <==> start <= hour < start + DAY_SECONDS
    requires Bump(daily, a, day, l.daily).Some? && Bump(hourly, a, hour, l.hourly).Some?
    requires Get(daily, b, d) == Total(hourly, b, start, HOUR_SECONDS, n)
    ensures Get(Bump(daily, a, day, l.daily).value, b, d) ==
      Total(Bump(hourly, a, hour, l.hourly).value, b, start, HOUR_SECONDS, n)
  {
    BumpedHours(hourly, a, hour, l.hourly, b, start, n);
  }

  lemma HourIsMinutes(h: int)
    requires h % HOUR_SECONDS == 0
    ensures h % MINUTE_SECONDS == 0
  {
    assert h == MINUTE_SECONDS * (60 * (h / HOUR_SECONDS));
  }

  lemma DayIsHours(d: int)
    ensures d * DAY_SECONDS % HOUR_SECONDS == 0
  {
    assert d * DAY_SECONDS == HOUR_SECONDS * (24 * d);
  }

  lemma SpendKeepsHour(c: Counters, a: Account, now: int, l: Limits, b: Account, h: int)
    requires Spend(c, a, now, l).Spent? && h % HOUR_SECONDS == 0 && HourAddsUp(c, b, h)
    ensures HourAddsUp(Spend(c, a, now, l).counters, b, h)
  {
    SpentCounters(c, a, now, l);
    HourOfMinute(now, h);
    HourIsMinutes(h);
    BumpedHourMatches(c.hourly, c.burst, a, Truncated(now, HOUR_SECONDS), Truncated(now, MINUTE_SECONDS), l, b, h, 60);
  }

  lemma SpendKeepsDay(c: Counters, a: Account, now: int, l: Limits, b: Account, d: int)
    requires Spend(c, a, now, l).Spent? && DayAddsUp(c, b, d)
    ensures DayAddsUp(Spend(c, a, now, l).counters, b, d)
  {
    SpentCounters(c, a, now, l);
    DayOfHour(now, d);
    DayIsHours(d);
    BumpedDayMatches(c.daily, c.hourly, a, Day(now), Truncated(now, HOUR_SECONDS), l, b, d, d * DAY_SECONDS, 24);
  }

  lemma SpendKeepsNested(c: Counters, a: Account, now: int, l: Limits, from: int)
    requires Nested(c, from) && Spend(c, a, now, l).Spent?
    ensures Nested(Spend(c, a, now, l).counters, from)
  {
    var e := Spend(c, a, now, l).counters;
    forall b, h | HourFrom(h, from)
      ensures HourAddsUp(e, b, h)
    {
      SpendKeepsHour(c, a, now, l, b, h);
    }
    forall b, d | DayFrom(d, from)
      ensures DayAddsUp(e, b, d)
    {
      SpendKeepsDay(c, a, now, l, b, d);
    }
  }

  lemma {:induction false} SameTotal(c: Counter, e: Counter, a: Account, start: int, width: int, n: nat)
    requires width >= 0 && forall k :: k >= start ==> Get(c, a, k) == Get(e, a, k)
    ensures Total(c, a, start, width, n) == Total(e, a, start, width, n)
  {
    if n > 0 {
      SameTotal(c, e, a, start, width, n - 1);
      assert width * (n - 1) >= 0;
    }
  }

  /** Windows that start after every clean-up cutoff keep their rows. */
  lemma SweepKeepsNested(c: Counters, now: int, from: int)
    requires Nested(c, from) && Cutoff(now) <= from
    ensures Nested(Sweep(c, now), from)
  {
    var e := Sweep(c, now);
    forall a, h | HourFrom(h, from)
      ensures HourAddsUp(e, a, h)
    {
      assert HourAddsUp(c, a, h);
      SameTotal(c.burst, e.burst, a, h, MINUTE_SECONDS, 60);
    }
    forall a, d | DayFrom(d, from)
      ensures DayAddsUp(e, a, d)
    {
      assert DayAddsUp(c, a, d);
      SameTotal(c.hourly, e.hourly, a, d * DAY_SECONDS, HOUR_SECONDS, 24);
    }
  }

  lemma NoSpending(from: int)
    ensures Nested(Counters(map[], map[], map[]), from)
  {
    var none := Counters(map[], map[], map[]);
    forall a, h | HourFrom(h, from)
      ensures HourAddsUp(none, a, h)
    {
      TotalOfNothing(a, h, MINUTE_SECONDS, 60);
    }
    forall a, d | DayFrom(d, from)
      ensures DayAddsUp(none, a, d)
    {
      TotalOfNothing(a, d * DAY_SECONDS, HOUR_SECONDS, 24);
    }
  }

  lemma {:induction false} TotalOfNothing(a: Account, start: int, width: int, n: nat)
    ensures Total(map[], a, start, width, n) == 0
  {
    if n > 0 {
      TotalOfNothing(a, start, width, n - 1);
    }
  }
}
