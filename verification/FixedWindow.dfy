/**
 The fixed-window counter behind two limits: relay ingress bytes per second
 (edge/src/runtime_relay.ts, admitIngress) and configuration requests per minute
 (cloud/src/configuration.rs, limit_requests). A window opens at the first admitted unit,
 a unit that arrives `period` or more after the opening starts a new window, and a unit
 that would pass the limit is refused without changing the counter.
 */
module FixedWindow {
  import opened Prelude

  datatype Window = Idle | Open(start: int, used: nat)

  /** The window after a unit of `size` is admitted at `now`, or None when it is refused. */
  function Admit(w: Window, now: int, size: nat, limit: nat, period: nat): Option<Window> {
    var restart := w.Idle? || now - w.start >= period;
    var used := if restart then 0 else w.used;
    if used + size > limit then None
    else Some(Open(if restart then now else w.start, used + size))
  }

  /** What an outside observer counts: the first admission and the total since then. */
  datatype Meter = Unused | Counting(first: int, total: nat)

  function Count(m: Meter, now: int, size: nat): Meter {
    match m
    case Unused => Counting(now, size)
    case Counting(first, total) => Counting(first, total + size)
  }

  /** The counter never under-reports: every closed window holds at most `limit`. */
  ghost predicate Accounted(w: Window, m: Meter, limit: nat, period: nat)
    requires period > 0
  {
    match m
    case Unused => w.Idle?
    case Counting(first, total) =>
      w.Open? && first <= w.start && w.used <= limit &&
      total <= limit * ((w.start - first) / period) + w.used
  }

  lemma DivisionStep(a: int, b: int, period: nat)
    requires period > 0 && a + period <= b
    ensures a / period + 1 <= b / period
  {
    var q, r := a / period, b / period;
    assert a == q * period + a % period && b == r * period + b % period;
    assert (q + 1) * period < (r + 1) * period;
  }

  lemma DivisionMonotone(a: int, b: int, period: nat)
    requires period > 0 && a <= b
    ensures a / period <= b / period
  {
    var q, r := a / period, b / period;
    assert a == q * period + a % period && b == r * period + b % period;
    assert q * period < (r + 1) * period;
  }

  lemma ScaleMonotone(limit: nat, a: int, b: int)
    requires a <= b
    ensures limit * a <= limit * b
  {}

  lemma AdmitKeepsAccount(w: Window, m: Meter, now: int, size: nat, limit: nat, period: nat)
    requires period > 0 && Accounted(w, m, limit, period)
    requires w.Open? ==> w.start <= now
    requires Admit(w, now, size, limit, period).Some?
    ensures Accounted(Admit(w, now, size, limit, period).value, Count(m, now, size), limit, period)
  {
    if m.Counting? && now - w.start >= period {
      DivisionStep(w.start - m.first, now - m.first, period);
      var k := (w.start - m.first) / period;
      ScaleMonotone(limit, k + 1, (now - m.first) / period);
      assert limit * (k + 1) == limit * k + limit;
    }
  }

  /** Units admitted in the T time units after the first one never pass limit * (T / period + 1). */
  lemma AccountBound(w: Window, m: Meter, now: int, limit: nat, period: nat)
    requires period > 0 && Accounted(w, m, limit, period)
    requires m.Counting? && w.start <= now
    ensures m.total <= limit * ((now - m.first) / period + 1)
  {
    var k := (w.start - m.first) / period;
    var n := (now - m.first) / period;
    DivisionMonotone(w.start - m.first, now - m.first, period);
    ScaleMonotone(limit, k + 1, n + 1);
    assert limit * (k + 1) == limit * k + limit;
  }
}
