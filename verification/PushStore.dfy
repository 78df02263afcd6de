/** The delivery_attempts and push_quota tables, updated in place; every method keeps the invariant of PushDelivery. */
module PushStore {
  import opened Prelude
  import opened Quota
  import opened PushModel
  import PD = PushDelivery

  class Attempts {
    const limits: Limits
    var rows: map<ClaimId, Attempt>
    var used: set<ClaimId>
    var quota: Counters

    function View(): Store
      reads this
    {
      Store(rows, used, quota)
    }

    ghost predicate Valid()
      reads this
    {
      Configured(limits) && PD.Inv(View(), limits)
    }

    constructor (limits: Limits)
      requires Configured(limits)
      ensures Valid() && View() == Empty() && this.limits == limits
    {
      this.limits := limits;
      rows, used, quota := map[], {}, Counters(map[], map[], map[]);
    }

    /** The `latest` query: highest attempt, then newest. */
    method FindLatest(event: EventId, device: Device) returns (latest: Option<ClaimId>)
      ensures IsLatest(rows, event, device, latest)
    {
      latest := None;
      var todo := rows.Keys;
      while todo != {}
        invariant todo <= rows.Keys
        invariant latest.Some? ==> latest.value in rows && latest.value !in todo
        invariant IsLatest(rows - todo, event, device, latest)
        decreases todo
      {
        var i :| i in todo;
        ghost var done := rows - todo;
        todo := todo - {i};
        assert rows - todo == done[i := rows[i]];
        if ForPair(rows[i], event, device) && (latest.None? || Newer(rows[i], rows[latest.value])) {
          latest := Some(i);
        }
      }
      assert rows - todo == rows;
    }

    static predicate Newer(a: Attempt, b: Attempt) {
      a.attempt > b.attempt || (a.attempt == b.attempt && a.createdAt > b.createdAt)
    }

    /** claim_delivery_attempt: a reclaimed row, else a first attempt, else nothing. */
    method ClaimDeliveryAttempt(event: EventId, device: Device, account: Account, id: ClaimId, now: int)
      returns (claimed: Option<int>, ghost latest: Option<ClaimId>)
      requires Valid() && id !in used
      modifies this`rows, this`used
      ensures Valid() && IsLatest(old(rows), event, device, latest)
      ensures claimed.Some? ==> Current(View(), id) && ForPair(rows[id], event, device)
      ensures (View(), claimed) == ClaimSeeing(old(View()), Shown(old(View()), latest), event, device, account, id, now)
    {
      var found := FindLatest(event, device);
      latest := found;
      PD.StepKeeps(View(), DoClaim(event, device, account, found, id, now), limits);
      if found.Some? && Reclaimable(rows[found.value], now) {
        claimed := Some(rows[found.value].attempt);
        rows := (rows - {found.value})[id := Reclaimed(rows[found.value], now)];
        used := used + {id};
      } else if found.None? {
        claimed := Some(1);
        rows := rows[id := FirstAttempt(event, device, account, now)];
        used := used + {id};
      } else {
        claimed := None;
      }
    }

    /** reserve_push_delivery: three counters and the flag together, or nothing. */
    method ReservePushDelivery(id: ClaimId, account: Account, now: int) returns (r: Reservation)
      requires Valid()
      modifies this`rows, this`quota
      ensures Valid() && (View(), r) == Reserve(old(View()), id, account, now, limits)
      ensures r == Reserved ==> PD.Paid(View(), rows[id].event, rows[id].device)
    {
      PD.StepKeeps(View(), DoReserve(id, account, now), limits);
      if id !in rows || rows[id].status != Pending {
        return Lost;
      }
      if rows[id].quotaReserved {
        return Reserved;
      }
      var daily := Bump(quota.daily, account, Day(now), limits.daily);
      if daily.None? {
        return Refused(DailyQuota);
      }
      var hourly := Bump(quota.hourly, account, Truncated(now, HOUR_SECONDS), limits.hourly);
      if hourly.None? {
        return Refused(HourlyQuota);
      }
      var burst := Bump(quota.burst, account, Truncated(now, MINUTE_SECONDS), limits.burst);
      if burst.None? {
        return Refused(BurstQuota);
      }
      quota := Counters(daily.value, hourly.value, burst.value);
      rows := rows[id := rows[id].(quotaReserved := true)];
      r := Reserved;
    }

    /** finalize_attempt: the holder of a current claim finishes its pair, once; anybody else changes nothing. */
    method FinalizeAttempt(id: ClaimId, attempt: int, status: Status, receipt: Option<string>, error: Option<string>)
      returns (finalized: bool)
      requires Valid() && Terminal(status)
      modifies this`rows
      ensures Valid() && finalized == old(Current(View(), id)) && !Current(View(), id)
      ensures rows.Keys == old(rows).Keys && (!finalized ==> rows == old(rows))
      ensures finalized ==>
        id in rows && !PD.Finished(old(View()), rows[id].event, rows[id].device) &&
        PD.Finished(View(), rows[id].event, rows[id].device) &&
        rows[id] == old(rows)[id].(attempt := attempt, status := status, receipt := receipt, error := error)
      ensures forall i :: i in rows && i != id ==> rows[i] == old(rows)[i]
    {
      ghost var e := DoFinalize(id, attempt, status, receipt, error);
      PD.StepKeeps(View(), e, limits);
      if Current(View(), id) {
        PD.FinishingStep(View(), e, limits, rows[id].event, rows[id].device);
      }
      finalized := id in rows && rows[id].status == Pending;
      if finalized {
        rows := rows[id := rows[id].(attempt := attempt, status := status, receipt := receipt, error := error)];
      }
    }

    /** release_claim_after_failure: a current claim is given back, and the next claim of its pair gets it at once. */
    method ReleaseClaim(id: ClaimId)
      requires Valid()
      modifies this`rows
      ensures Valid() && !Current(View(), id) && rows.Keys == old(rows).Keys
      ensures old(Current(View(), id)) ==> forall now :: Reclaimable(rows[id], now)
      ensures !old(Current(View(), id)) ==> rows == old(rows)
      ensures id in rows ==> rows[id].(status := Pending) == old(rows)[id].(status := Pending)
      ensures forall i :: i in rows && i != id ==> rows[i] == old(rows)[i]
    {
      PD.StepKeeps(View(), DoRelease(id), limits);
      if id in rows && rows[id].status == Pending {
        rows := rows[id := rows[id].(status := Retryable)];
      }
    }
  }
}
