/**
 Webhook and MCP Events delivery (cloud/src/events: fanout.rs, delivery.rs,
 mcp_subscriptions.rs, webhooks.rs) as a step system. One SQL statement or transaction is one step.
 Times are microseconds. A worker's task lives between its statements: it wins a row with
 the claim UPDATE, loads a snapshot with the SELECT after it, decides, posts, and then
 runs the statements it decided on, one at a time. Row ids and grant ids are never used twice; a grant
 that has been deleted is kept as a revoked one, which reaches as little.
 */
module EventModel {
  import opened Prelude

  const SECOND := 1_000_000
  const LEASE := 45 * SECOND
  const RETENTION := 24 * 3600 * SECOND
  const MAX_ATTEMPTS := 12
  const CLAIM_BATCH := 16
  const FAN_OUT_BATCH := 500
  const MIN_LIFETIME := 60
  const MAX_LIFETIME := 24 * 3600
  const MAX_WEBHOOKS_PER_ACCOUNT := 20
  const TEST_EVENT_KIND := "alera.test"

  type SubId = string
  type EventId = nat
  type RowId = nat
  type TaskId = nat
  type GrantId = nat

  datatype DomainEvent = DomainEvent(
    account: nat, runtimeId: string, key: string, kind: string, workspace: Option<string>, project: Option<string>,
    data: map<string, string>, receivedAt: int, fannedOut: Option<int>)

  datatype SubStatus = Active | SubStopped | Revoked | SubExpired

  datatype Sub = Sub(
    account: nat, webhook: bool, kinds: set<string>, runtimeIds: set<string>, allRuntimes: bool,
    status: SubStatus, refreshBefore: Option<int>, ownerGrant: GrantId, filter: map<string, string>)

  datatype Grant = Grant(revoked: bool, allRuntimes: bool, runtimes: set<string>)

  datatype Reason =
    | SubscriptionExpired | SubscriptionInactive | RuntimeMcpDisabled | RetentionOver | SecretUnavailable
    | Http(code: int) | Callback(text: string)

  datatype Status = Pending | Sending | Delivered | Stopped | Dead

  datatype Row = Row(
    sub: SubId, event: EventId, status: Status, attempts: nat, nextAt: int, lease: Option<int>,
    lastStatus: Option<int>, lastError: Option<Reason>, deliveredAt: Option<int>)

  // ---- Pure policy ----

  function Power(n: nat): nat {
    if n == 0 then 1 else 2 * Power(n - 1)
  }

  /** The wait after `attempts` failed attempts, in seconds: 5 s doubling up to 15 minutes. */
  function RetryDelay(attempts: int): int {
    var exponent := if attempts - 1 < 0 then 0 else if attempts - 1 > 16 then 16 else attempts - 1;
    Min(5 * Power(exponent), 900)
  }

  datatype Reply = Answered(status: int) | Failed(permanent: bool, text: string)

  datatype Outcome = Sent(status: int) | Again(reason: Reason) | Never(reason: Reason) | Gone

  function Classify(reply: Reply): Outcome {
    match reply
    case Answered(status) =>
      if 200 <= status < 300 then Sent(status)
      else if status == 410 then Gone
      else if status == 408 || status == 425 || status == 429 || status >= 500 then Again(Http(status))
      else Never(Http(status))
    case Failed(permanent, text) => if permanent then Never(Callback(text)) else Again(Callback(text))
  }

  function StatusOf(reason: Reason): Option<int> {
    if reason.Http? then Some(reason.code) else None
  }

  // ---- Store ----

  datatype Store = Store(
    events: map<EventId, DomainEvent>, subs: map<SubId, Sub>, rows: map<RowId, Row>, used: set<RowId>,
    tasks: map<TaskId, Task>, grants: map<GrantId, Grant>, mcpOn: set<string>, mcpEvents: bool)

  /** What the SELECT after the claim returns for one row. */
  datatype Snapshot = Snapshot(
    row: RowId, attempts: nat, sub: SubId, status: SubStatus, refreshBefore: Option<int>, authorized: bool,
    runtimeAllowed: bool, receivedAt: int, anchor: Option<int>)

  datatype Action =
    | StopSub(to: SubStatus)
    | Finish(status: Status, http: Option<int>, error: Option<Reason>, next: Option<int>)

  /** `granted` is the attempt number this task's own claim wrote; the worker is not told it. */
  datatype Task =
    | Won(row: RowId, granted: nat)
    | Loaded(granted: nat, snapshot: Snapshot)
    | Posting(granted: nat, snapshot: Snapshot)
    | Acting(granted: nat, snapshot: Snapshot, todo: seq<Action>)

  predicate InScope(g: Grant, runtimeId: string) {
    g.allRuntimes || runtimeId in g.runtimes
  }

  predicate Reaches(g: Grant, runtimeId: string) {
    !g.revoked && InScope(g, runtimeId)
  }

  predicate Authorized(s: Store, sub: Sub, runtimeId: string) {
    sub.webhook || (sub.ownerGrant in s.grants && Reaches(s.grants[sub.ownerGrant], runtimeId))
  }

  function Field(m: DomainEvent, key: string): Option<string> {
    if key == "workspaceId" then m.workspace
    else if key == "projectId" then m.project
    else if key in m.data then Some(m.data[key]) else None
  }

  /** The event is of the subscription's account and of one of its kinds, and it passes the filter. */
  predicate Admits(sub: Sub, m: DomainEvent) {
    sub.account == m.account && m.kind in sub.kinds &&
    forall key :: key in sub.filter ==> Field(m, key) == Some(sub.filter[key])
  }

  /** The MATCH predicate of event m and subscription `sub`. */
  predicate Matches(s: Store, sub: Sub, m: DomainEvent, now: int) {
    Admits(sub, m) && sub.status.Active? &&
    (sub.refreshBefore.Some? ==> sub.refreshBefore.value > now) &&
    (sub.allRuntimes || m.runtimeId in sub.runtimeIds) &&
    (sub.webhook || (s.mcpEvents && m.runtimeId in s.mcpOn && Authorized(s, sub, m.runtimeId)))
  }

  predicate HasRow(s: Store, sub: SubId, event: EventId) {
    exists r :: r in s.rows && s.rows[r].sub == sub && s.rows[r].event == event
  }

  /** A batch of fresh ids, one for each pair to insert. */
  ghost predicate Covers(s: Store, ids: map<RowId, (SubId, EventId)>, pairs: set<(SubId, EventId)>) {
    ids.Keys !! s.used && ids.Values == pairs && OneToOne(ids)
  }

  ghost predicate OneToOne(ids: map<RowId, (SubId, EventId)>) {
    forall a, b :: a in ids && b in ids && ids[a] == ids[b] ==> a == b
  }

  function NewRows(ids: map<RowId, (SubId, EventId)>, now: int): map<RowId, Row> {
    map r | r in ids :: Row(ids[r].0, ids[r].1, Pending, 0, now, None, None, None, None)
  }

  // ---- fan_out_pending ----

  function FanOutPairs(s: Store, claimed: set<EventId>, now: int): set<(SubId, EventId)>
    requires claimed <= s.events.Keys
  {
    set u, m | u in s.subs && m in claimed && s.events[m].receivedAt > now - RETENTION
               && Matches(s, s.subs[u], s.events[m], now) && !HasRow(s, u, m) :: (u, m)
  }

  function OnFanOut(s: Store, now: int, claimed: set<EventId>, ids: map<RowId, (SubId, EventId)>): Store {
    s.(events := map m | m in s.events :: if m in claimed then s.events[m].(fannedOut := Some(now)) else s.events[m],
       rows := s.rows + NewRows(ids, now), used := s.used + ids.Keys)
  }

  // ---- claim ----

  predicate Due(s: Store, r: RowId, now: int) {
    r in s.rows && (s.rows[r].status.Pending? || s.rows[r].status.Sending?) && s.rows[r].nextAt <= now &&
    (s.mcpEvents || s.rows[r].sub !in s.subs || s.subs[s.rows[r].sub].webhook)
  }

  function ClaimRow(row: Row, now: int): Row {
    row.(status := Sending, attempts := row.attempts + 1, lease := Some(now + LEASE), nextAt := now + LEASE)
  }

  /** `winners` gives each claimed row a new task. */
  function OnClaim(s: Store, now: int, winners: map<TaskId, RowId>): Store
    requires forall t :: t in winners ==> winners[t] in s.rows
  {
    s.(rows := map r | r in s.rows :: if r in winners.Values then ClaimRow(s.rows[r], now) else s.rows[r],
       tasks := s.tasks + map t | t in winners :: Won(winners[t], s.rows[winners[t]].attempts + 1))
  }

  predicate Waiting(s: Store, r: RowId, sub: SubId) {
    r in s.rows && s.rows[r].sub == sub && (s.rows[r].status.Pending? || s.rows[r].status.Sending?)
  }

  /** The SELECT MIN(received_at) over the subscription's waiting rows. */
  ghost predicate IsAnchor(s: Store, sub: SubId, anchor: Option<int>) {
    match anchor
    case None => forall r :: !Waiting(s, r, sub)
    case Some(at) =>
      (exists r :: Waiting(s, r, sub) && s.rows[r].event in s.events && s.events[s.rows[r].event].receivedAt == at) &&
      (forall r :: Waiting(s, r, sub) && s.rows[r].event in s.events ==> at <= s.events[s.rows[r].event].receivedAt)
  }

  function Load(s: Store, r: RowId, anchor: Option<int>): Snapshot
    requires r in s.rows && s.rows[r].sub in s.subs && s.rows[r].event in s.events
  {
    var row := s.rows[r];
    var sub, m := s.subs[row.sub], s.events[row.event];
    Snapshot(r, row.attempts, row.sub, sub.status, sub.refreshBefore, Authorized(s, sub, m.runtimeId),
             sub.webhook || m.runtimeId in s.mcpOn, m.receivedAt, anchor)
  }

  // ---- deliver and settle ----

  /** What deliver decides before it posts; None means it goes on to post. */
  function Decide(c: Snapshot, now: int, keysAvailable: bool): Option<seq<Action>> {
    if c.receivedAt + RETENTION <= now then Some([Finish(Dead, None, Some(RetentionOver), None)])
    else if c.status.SubExpired? then Some([Finish(Stopped, None, Some(SubscriptionExpired), None)])
    else if !c.status.Active? then Some([Finish(Stopped, None, Some(SubscriptionInactive), None)])
    else if c.refreshBefore.Some? && c.refreshBefore.value <= now then
      Some([StopSub(SubExpired), Finish(Stopped, None, Some(SubscriptionExpired), None)])
    else if !c.authorized then Some([StopSub(Revoked), Finish(Stopped, None, Some(SubscriptionInactive), None)])
    else if !c.runtimeAllowed then Some([Finish(Stopped, None, Some(RuntimeMcpDisabled), None)])
    else if !keysAvailable then Some([Finish(Dead, None, Some(SecretUnavailable), None)])
    else None
  }

  function Settlement(c: Snapshot, outcome: Outcome, now: int): seq<Action> {
    match outcome
    case Sent(status) => [Finish(Delivered, Some(status), None, None)]
    case Gone => [StopSub(SubStopped), Finish(Stopped, Some(410), Some(Http(410)), None)]
    case Never(reason) => [Finish(Dead, StatusOf(reason), Some(reason), None)]
    case Again(reason) =>
      var next := now + RetryDelay(c.attempts) * SECOND;
      if c.attempts >= MAX_ATTEMPTS || next >= c.receivedAt + RETENTION
      then [Finish(Dead, StatusOf(reason), Some(reason), None)]
      else [Finish(Pending, StatusOf(reason), Some(reason), Some(next))]
  }

  /** finish: settles the claim only if the row is still sending this attempt. */
  predicate Holds(s: Store, c: Snapshot) {
    c.row in s.rows && s.rows[c.row].attempts == c.attempts && s.rows[c.row].status.Sending?
  }

  function FinishRow(row: Row, a: Action, now: int): Row
    requires a.Finish?
  {
    row.(status := a.status, lastStatus := if a.http.Some? then a.http else row.lastStatus, lastError := a.error,
         nextAt := Coalesce(a.next, row.nextAt), lease := None,
         deliveredAt := if a.status.Delivered? then Some(now) else row.deliveredAt)
  }

  function OnFinish(s: Store, c: Snapshot, a: Action, now: int): Store
    requires a.Finish?
  {
    if Holds(s, c) then s.(rows := s.rows[c.row := FinishRow(s.rows[c.row], a, now)]) else s
  }

  /** stop_subscription: one transaction over the subscription and its pending rows. */
  function OnStopSub(s: Store, sub: SubId, to: SubStatus): Store {
    var subs := if sub in s.subs && s.subs[sub].status.Active?
      then s.subs[sub := s.subs[sub].(status := to)] else s.subs;
    var reason := if sub in subs && subs[sub].status.SubExpired? then SubscriptionExpired else SubscriptionInactive;
    s.(subs := subs,
       rows := map r | r in s.rows ::
         if s.rows[r].sub == sub && s.rows[r].status.Pending?
         then s.rows[r].(status := Stopped, lease := None, lastError := Some(reason)) else s.rows[r])
  }

  function OnAct(s: Store, task: TaskId, now: int): Store
    requires task in s.tasks && s.tasks[task].Acting? && s.tasks[task].todo != []
  {
    var t := s.tasks[task];
    var done := s.(tasks := s.tasks[task := t.(todo := t.todo[1..])]);
    match t.todo[0]
    case StopSub(to) => OnStopSub(done, t.snapshot.sub, to)
    case Finish(_, _, _, _) => OnFinish(done, t.snapshot, t.todo[0], now)
  }

  // ---- subscribe ----

  /** Seconds a subscription lives, from the requested milliseconds. */
  function Lifetime(ttlMs: Option<int>): int {
    var asked :=
      if ttlMs.Some? then (if ttlMs.value < 0 then -(-ttlMs.value / 1000) else ttlMs.value / 1000) else MAX_LIFETIME;
    if asked < MIN_LIFETIME then MIN_LIFETIME else if asked > MAX_LIFETIME then MAX_LIFETIME else asked
  }

  /**
   The id of an MCP Events subscription is a hash of its account, grant, callback, kind and arguments.
   So a request that meets a stored id asks for the same filter, and for one runtime if that did.
   */
  predicate SameRequest(stored: Sub, wanted: Sub) {
    !stored.webhook && wanted.account == stored.account && wanted.kinds == stored.kinds &&
    wanted.ownerGrant == stored.ownerGrant && wanted.allRuntimes == stored.allRuntimes && wanted.filter == stored.filter
  }

  /**
   A request has a grant. It covers all runtimes, or one that its runtime argument names; the argument
   is resolved again for every request, as an id and then as a name, among the runtimes the grant covers.
   */
  ghost predicate Requested(s: Store, id: SubId, wanted: Sub) {
    wanted.ownerGrant in s.grants && (id in s.subs ==> SameRequest(s.subs[id], wanted)) &&
    (wanted.allRuntimes ==> wanted.runtimeIds == {}) &&
    (!wanted.allRuntimes ==>
      exists runtimeId :: InScope(s.grants[wanted.ownerGrant], runtimeId) && wanted.runtimeIds == {runtimeId})
  }

  /** Grants are added and revoked. What a grant covers is never changed, and revoking it is never undone. */
  ghost predicate GrantsGrow(before: map<GrantId, Grant>, after: map<GrantId, Grant>) {
    before.Keys <= after.Keys &&
    forall g :: g in before ==>
      after[g] == before[g].(revoked := after[g].revoked) && (before[g].revoked ==> after[g].revoked)
  }

  /** The upsert of an MCP Events subscription. */
  function OnSubscribe(s: Store, id: SubId, wanted: Sub, now: int, ttlMs: Option<int>): Store {
    var until := Some(now + Lifetime(ttlMs) * SECOND);
    s.(subs := s.subs[id :=
         if id in s.subs
         then s.subs[id].(runtimeIds := wanted.runtimeIds, allRuntimes := wanted.allRuntimes, filter := wanted.filter,
                          status := Active, refreshBefore := until)
         else wanted.(webhook := false, status := Active, refreshBefore := until)])
  }

  // ---- webhooks ----

  function Webhooks(s: Store, account: nat): set<SubId> {
    set u | u in s.subs && s.subs[u].webhook && s.subs[u].account == account
  }

  /** An account's webhook: always active, with no filter and no date by which it must be refreshed. */
  function NewWebhook(account: nat, kinds: set<string>, runtimeIds: set<string>, allRuntimes: bool): Sub {
    Sub(account, true, kinds, runtimeIds, allRuntimes, Active, None, 0, map[])
  }

  /** create_webhook under the account's lock: refused at the limit. */
  function OnCreateWebhook(s: Store, id: SubId, account: nat, kinds: set<string>, runtimeIds: set<string>,
    allRuntimes: bool): Store
  {
    if |Webhooks(s, account)| >= MAX_WEBHOOKS_PER_ACCOUNT then s
    else s.(subs := s.subs[id := NewWebhook(account, kinds, runtimeIds, allRuntimes)])
  }

  /** The event that test_webhook stores: marked as fanned out, so that only its one row delivers it. */
  function TestEvent(account: nat, runtimeId: string, key: string, now: int): DomainEvent {
    DomainEvent(account, runtimeId, key, TEST_EVENT_KIND, None, None, map[], now, Some(now))
  }

  /** test_webhook: one event and its pending row in one transaction. */
  function OnTestWebhook(s: Store, id: SubId, event: EventId, test: DomainEvent, row: RowId, now: int): Store {
    s.(events := s.events[event := test],
       rows := s.rows[row := Row(id, event, Pending, 0, now, None, None, None, None)], used := s.used + {row})
  }

  // ---- backfill ----

  /** A retained event the refreshed subscription should have. */
  predicate Wanted(s: Store, sub: SubId, m: EventId, since: int, now: int) {
    sub in s.subs && m in s.events && s.events[m].receivedAt >= Max(since, now - RETENTION) &&
    Matches(s, s.subs[sub], s.events[m], now)
  }

  function BackfillPairs(s: Store, sub: SubId, since: int, now: int): set<(SubId, EventId)> {
    set m | m in s.events && Wanted(s, sub, m, since, now) && !HasRow(s, sub, m) :: (sub, m)
  }

  predicate StoppedByExpiry(row: Row) {
    row.status.Stopped? && row.lastError == Some(SubscriptionExpired)
  }

  function Requeue(row: Row, now: int): Row {
    row.(status := Pending, attempts := 0, nextAt := now, lease := None, lastStatus := None, lastError := None)
  }

  function OnBackfill(s: Store, sub: SubId, since: int, now: int, ids: map<RowId, (SubId, EventId)>): Store {
    s.(rows := (map r | r in s.rows ::
                  if s.rows[r].sub == sub && Wanted(s, sub, s.rows[r].event, since, now) && StoppedByExpiry(s.rows[r])
                  then Requeue(s.rows[r], now) else s.rows[r]) + NewRows(ids, now),
       used := s.used + ids.Keys)
  }

  // ---- Deletions ----

  /** Deleting subscriptions or events deletes their delivery rows. */
  function OnDelete(s: Store, subs: set<SubId>, events: set<EventId>): Store {
    s.(subs := s.subs - subs, events := s.events - events,
       rows := map r | r in s.rows && s.rows[r].sub !in subs && s.rows[r].event !in events :: s.rows[r])
  }

  // ---- Steps ----

  datatype Step =
    | Receive(now: int, arrived: map<EventId, DomainEvent>)
    | FanOut(now: int, claimed: set<EventId>, ids: map<RowId, (SubId, EventId)>)
    | Claim(now: int, winners: map<TaskId, RowId>)
    | LoadTask(now: int, task: TaskId, anchor: Option<int>)
    | Check(now: int, task: TaskId, keysAvailable: bool)
    | Settle(now: int, task: TaskId, reply: Reply)
    | Act(now: int, task: TaskId)
    | Subscribe(now: int, sub: SubId, wanted: Sub, ttlMs: Option<int>)
    | CreateWebhook(now: int, sub: SubId, account: nat, kinds: set<string>, runtimeIds: set<string>, allRuntimes: bool)
    | TestWebhook(now: int, sub: SubId, event: EventId, account: nat, runtimeId: string, key: string, row: RowId)
    | Backfill(now: int, sub: SubId, since: int, ids: map<RowId, (SubId, EventId)>)
    | Delete(now: int, subs: set<SubId>, events: set<EventId>)
    | Configure(now: int, grants: map<GrantId, Grant>, mcpOn: set<string>, mcpEvents: bool)

  ghost predicate Enabled(s: Store, e: Step) {
    match e
    case Receive(_, arrived) => arrived.Keys !! s.events.Keys
    case FanOut(now, claimed, ids) =>
      claimed <= s.events.Keys && |claimed| <= FAN_OUT_BATCH && (forall m <- claimed :: s.events[m].fannedOut.None?) &&
      Covers(s, ids, FanOutPairs(s, claimed, now))
    case Claim(now, winners) =>
      winners.Keys !! s.tasks.Keys && |winners| <= CLAIM_BATCH &&
      (forall t :: t in winners ==> Due(s, winners[t], now)) &&
      (forall t, u :: t in winners && u in winners && winners[t] == winners[u] ==> t == u)
    case LoadTask(_, t, anchor) =>
      t in s.tasks && s.tasks[t].Won? && s.tasks[t].row in s.rows && IsAnchor(s, s.rows[s.tasks[t].row].sub, anchor) &&
      s.rows[s.tasks[t].row].sub in s.subs && s.rows[s.tasks[t].row].event in s.events
    case Check(_, t, _) => t in s.tasks && s.tasks[t].Loaded?
    case Settle(_, t, _) => t in s.tasks && s.tasks[t].Posting?
    case Act(_, t) => t in s.tasks && s.tasks[t].Acting? && s.tasks[t].todo != []
    case Backfill(now, sub, since, ids) => Covers(s, ids, BackfillPairs(s, sub, since, now))
    case Subscribe(_, sub, wanted, _) => Requested(s, sub, wanted)
    case CreateWebhook(_, sub, _, _, _, _) => sub !in s.subs
    case TestWebhook(_, sub, event, _, runtimeId, key, row) =>
      sub in s.subs && s.subs[sub].webhook && event !in s.events && row !in s.used &&
      forall m :: m in s.events ==> !(s.events[m].runtimeId == runtimeId && s.events[m].key == key)
    case Delete(_, _, _) => true
    case Configure(_, grants, _, _) => GrantsGrow(s.grants, grants)
  }

  ghost function Apply(s: Store, e: Step): Store
    requires Enabled(s, e)
  {
    match e
    case Receive(_, arrived) => s.(events := s.events + arrived)
    case FanOut(now, claimed, ids) => OnFanOut(s, now, claimed, ids)
    case Claim(now, winners) => OnClaim(s, now, winners)
    case LoadTask(_, t, anchor) =>
      s.(tasks := s.tasks[t := Loaded(s.tasks[t].granted, Load(s, s.tasks[t].row, anchor))])
    case Check(now, t, keysAvailable) =>
      var task := s.tasks[t];
      var plan := Decide(task.snapshot, now, keysAvailable);
      s.(tasks := s.tasks[t :=
        if plan.Some? then Acting(task.granted, task.snapshot, plan.value) else Posting(task.granted, task.snapshot)])
    case Settle(now, t, reply) =>
      var task := s.tasks[t];
      s.(tasks := s.tasks[t := Acting(task.granted, task.snapshot, Settlement(task.snapshot, Classify(reply), now))])
    case Act(now, t) => OnAct(s, t, now)
    case Subscribe(now, sub, wanted, ttlMs) => OnSubscribe(s, sub, wanted, now, ttlMs)
    case Backfill(now, sub, since, ids) => OnBackfill(s, sub, since, now, ids)
    case CreateWebhook(_, sub, account, kinds, runtimeIds, allRuntimes) =>
      OnCreateWebhook(s, sub, account, kinds, runtimeIds, allRuntimes)
    case TestWebhook(now, sub, event, account, runtimeId, key, row) =>
      OnTestWebhook(s, sub, event, TestEvent(account, runtimeId, key, now), row, now)
    case Delete(_, subs, events) => OnDelete(s, subs, events)
    case Configure(_, grants, mcpOn, mcpEvents) => s.(grants := grants, mcpOn := mcpOn, mcpEvents := mcpEvents)
  }

  const EMPTY := Store(map[], map[], map[], {}, map[], map[], {}, false)
}
