/**
 Push delivery claims (cloud/src/push_delivery.rs). A row of delivery_attempts is claimed by
 giving it a new id, so the id a worker holds is its fencing token. Each SQL statement or
 transaction is one step; instants are microseconds.
 */
module PushModel {
  import opened Prelude
  import opened Quota

  type ClaimId = nat
  type EventId = nat
  type Device = nat

  datatype Status = Pending | Retryable | Delivered | Failed | QuotaRejected
  datatype Attempt = Attempt(
    event: EventId, device: Device, account: Account, attempt: int, status: Status,
    receipt: Option<string>, error: Option<string>, createdAt: int, quotaReserved: bool)
  datatype Store = Store(rows: map<ClaimId, Attempt>, used: set<ClaimId>, quota: Counters)

  const CLAIM_LEASE := 30 * SECOND

  function Empty(): Store {
    Store(map[], {}, Counters(map[], map[], map[]))
  }

  predicate Terminal(status: Status) {
    status in {Delivered, Failed, QuotaRejected}
  }

  predicate ForPair(row: Attempt, event: EventId, device: Device) {
    row.event == event && row.device == device
  }

  predicate Reclaimable(row: Attempt, now: int) {
    row.status == Retryable || (row.status == Pending && row.createdAt < now - CLAIM_LEASE)
  }

  /** The row the statement's `latest` finds in a table. */
  ghost predicate IsLatest(rows: map<ClaimId, Attempt>, event: EventId, device: Device, latest: Option<ClaimId>) {
    match latest
    case None => forall i :: i in rows ==> !ForPair(rows[i], event, device)
    case Some(k) =>
      k in rows && ForPair(rows[k], event, device) &&
      forall i :: i in rows && ForPair(rows[i], event, device) ==>
        rows[i].attempt < rows[k].attempt ||
        (rows[i].attempt == rows[k].attempt && rows[i].createdAt <= rows[k].createdAt)
  }

  /** The unique key over event, device and attempt is free. */
  predicate FirstAttemptFree(rows: map<ClaimId, Attempt>, event: EventId, device: Device) {
    forall i :: i in rows ==> !(ForPair(rows[i], event, device) && rows[i].attempt == 1)
  }

  function FirstAttempt(event: EventId, device: Device, account: Account, now: int): Attempt {
    Attempt(event, device, account, 1, Pending, None, None, now, false)
  }

  function Reclaimed(row: Attempt, now: int): Attempt {
    row.(status := Pending, receipt := None, error := None, createdAt := now)
  }

  /**
   The claim statement. `seen` is the latest row as its snapshot shows it; the update checks
   the row again as it is when written, and the insert relies on the snapshot and the unique key.
   */
  function ClaimSeeing(s: Store, seen: Option<(ClaimId, Attempt)>, event: EventId, device: Device,
    account: Account, id: ClaimId, now: int): (Store, Option<int>)
  {
    if seen.Some? && Reclaimable(seen.value.1, now) &&
      seen.value.0 in s.rows && Reclaimable(s.rows[seen.value.0], now)
    then
      var row := s.rows[seen.value.0];
      (s.(rows := (s.rows - {seen.value.0})[id := Reclaimed(row, now)], used := s.used + {id}), Some(row.attempt))
    else if (seen.None? || Reclaimable(seen.value.1, now)) && FirstAttemptFree(s.rows, event, device) then
      (s.(rows := s.rows[id := FirstAttempt(event, device, account, now)], used := s.used + {id}), Some(1))
    else (s, None)
  }

  /** What the snapshot shows when nothing intervenes. */
  function Shown(s: Store, latest: Option<ClaimId>): Option<(ClaimId, Attempt)>
    requires latest.Some? ==> latest.value in s.rows
  {
    if latest.None? then None else Some((latest.value, s.rows[latest.value]))
  }

  /** The second query of claim_delivery_attempt. */
  ghost predicate InProgress(s: Store, event: EventId, device: Device, now: int) {
    exists i :: i in s.rows && ForPair(s.rows[i], event, device) && s.rows[i].status == Pending &&
      s.rows[i].createdAt >= now - CLAIM_LEASE
  }

  predicate Current(s: Store, id: ClaimId) {
    id in s.rows && s.rows[id].status == Pending
  }

  datatype Reservation = Lost | Reserved | Refused(code: Code)

  /** reserve_push_delivery. */
  function Reserve(s: Store, id: ClaimId, account: Account, now: int, l: Limits): (Store, Reservation) {
    if !Current(s, id) then (s, Lost)
    else if s.rows[id].quotaReserved then (s, Reserved)
    else
      match Spend(s.quota, account, now, l)
      case Rejected(code) => (s, Refused(code))
      case Spent(quota) => (s.(rows := s.rows[id := s.rows[id].(quotaReserved := true)], quota := quota), Reserved)
  }

  /** finalize_attempt. */
  function Finalize(s: Store, id: ClaimId, attempt: int, status: Status, receipt: Option<string>, error: Option<string>)
    : (Store, bool)
  {
    if !Current(s, id) then (s, false)
    else
      (s.(rows := s.rows[id :=
        s.rows[id].(attempt := attempt, status := status, receipt := receipt, error := error)]), true)
  }

  /** release_claim_after_failure. */
  function Release(s: Store, id: ClaimId): Store {
    if !Current(s, id) then s else s.(rows := s.rows[id := s.rows[id].(status := Retryable)])
  }

  datatype Step =
    | DoClaim(event: EventId, device: Device, account: Account, latest: Option<ClaimId>, id: ClaimId, now: int)
    | DoReserve(id: ClaimId, account: Account, now: int)
    | DoFinalize(id: ClaimId, attempt: int, status: Status, receipt: Option<string>, error: Option<string>)
    | DoRelease(id: ClaimId)
    | DoSweep(now: int)

  /** Any worker may run any statement at any time; ids are new and finalizations are terminal. */
  ghost predicate Enabled(s: Store, e: Step) {
    match e
    case DoClaim(event, device, account, latest, id, now) => id !in s.used && IsLatest(s.rows, event, device, latest)
    case DoFinalize(id, attempt, status, receipt, error) => Terminal(status)
    case _ => true
  }

  ghost function Apply(s: Store, e: Step, l: Limits): Store
    requires Enabled(s, e)
  {
    match e
    case DoClaim(event, device, account, latest, id, now) =>
      ClaimSeeing(s, Shown(s, latest), event, device, account, id, now).0
    case DoReserve(id, account, now) => Reserve(s, id, account, now, l).0
    case DoFinalize(id, attempt, status, receipt, error) => Finalize(s, id, attempt, status, receipt, error).0
    case DoRelease(id) => Release(s, id)
    case DoSweep(now) => s.(quota := Sweep(s.quota, now))
  }
}
