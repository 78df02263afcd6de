/**
 Workers that have lost their row. The settlement of a row is fenced by its attempt number,
 but the stop of a subscription, which a 410 or an expired or unauthorized snapshot calls
 for, is a statement of its own and is not fenced. A worker whose row was claimed again
 therefore writes nothing, except when it still stops a subscription.
 */
module EventStale {
  import opened Prelude
  import opened EventModel
  import opened EventInvariant
  import opened EventDelivery

  // ---- Losing a row ----

  /** The row was claimed again after the snapshot, or deleted. */
  ghost predicate Lost(s: Store, c: Snapshot) {
    c.row in s.used && (c.row in s.rows ==> s.rows[c.row].attempts > c.attempts)
  }

  lemma ReclaimedIsLost(s: Store, c: Snapshot, steps: seq<Step>)
    requires Inv(s) && c.row in s.rows && c.attempts == s.rows[c.row].attempts
    requires NeverRequeued(s, steps, c.row) && ClaimCount(steps, s, c.row) > 0
    ensures Lost(From(s, steps), c) && !Holds(From(s, steps), c)
  {
    AttemptsCountClaims(s, steps, c.row);
  }

  // ---- Following a task ----

  /** The task holds a snapshot. */
  ghost predicate Carries(s: Store, t: TaskId, c: Snapshot) {
    t in s.tasks && !s.tasks[t].Won? && s.tasks[t].snapshot == c
  }

  lemma CarriesOn(s: Store, e: Step, t: TaskId, c: Snapshot)
    requires Enabled(s, e) && Carries(s, t, c)
    ensures Carries(Apply(s, e), t, c)
  {
    if e.Act? {
      ActKeepsPlans(s, e);
    }
  }

  lemma {:induction false} SnapshotStays(s: Store, steps: seq<Step>, t: TaskId, c: Snapshot)
    requires Carries(s, t, c)
    ensures Carries(From(s, steps), t, c)
  {
    if steps != [] {
      var m := From(s, steps[..|steps| - 1]);
      SnapshotStays(s, steps[..|steps| - 1], t, c);
      if Enabled(m, steps[|steps| - 1]) {
        CarriesOn(m, steps[|steps| - 1], t, c);
      }
    }
  }

  /** The plan that a decision makes: past the checks of deliver, or from the reply. */
  ghost predicate Decides(s: Store, e: Step, t: TaskId) {
    Enabled(s, e) &&
    ((e.Check? && e.task == t && Decide(s.tasks[t].snapshot, e.now, e.keysAvailable).Some?) ||
     (e.Settle? && e.task == t))
  }

  function PlanOf(c: Snapshot, e: Step): seq<Action>
    requires e.Settle? || (e.Check? && Decide(c, e.now, e.keysAvailable).Some?)
  {
    if e.Settle? then Settlement(c, Classify(e.reply), e.now) else Decide(c, e.now, e.keysAvailable).value
  }

  /**
   The decision stops the subscription: the receiver said 410; or an active subscription of a
   retained event was past its refresh date, or its grant no longer reached the runtime.
   */
  predicate Stops(c: Snapshot, e: Step)
    requires e.Settle? || e.Check?
  {
    if e.Settle? then e.reply == Answered(410)
    else
      e.now < c.receivedAt + RETENTION && c.status.Active? &&
      ((c.refreshBefore.Some? && c.refreshBefore.value <= e.now) || !c.authorized)
  }

  lemma PlanStopsFirst(c: Snapshot, e: Step)
    requires e.Settle? || (e.Check? && Decide(c, e.now, e.keysAvailable).Some?)
    ensures IsPlan(PlanOf(c, e), Stops(c, e))
  {}

  lemma DecisionIsPlanned(s: Store, e: Step, t: TaskId)
    requires Decides(s, e, t)
    ensures var u := Apply(s, e); var c := s.tasks[t].snapshot;
      t in u.tasks && u.tasks[t].Acting? && u.tasks[t].snapshot == c && u.tasks[t].todo == PlanOf(c, e)
  {}

  predicate ActsFor(e: Step, t: TaskId) {
    e.Act? && e.task == t
  }

  /** Only its own acts shorten a task's plan. */
  lemma PlanMoves(s: Store, e: Step, t: TaskId)
    requires Enabled(s, e) && t in s.tasks && s.tasks[t].Acting?
    ensures var u := Apply(s, e);
      t in u.tasks && u.tasks[t].Acting? && u.tasks[t].snapshot == s.tasks[t].snapshot &&
      u.tasks[t].todo == if ActsFor(e, t) then s.tasks[t].todo[1..] else s.tasks[t].todo
  {
    if e.Act? {
      ActKeepsPlans(s, e);
    }
  }

  ghost predicate NoActs(steps: seq<Step>, t: TaskId) {
    forall j :: 0 <= j < |steps| ==> !ActsFor(steps[j], t)
  }

  /** After some steps a plan of one or two actions is whole, or at most its second action is left. */
  lemma {:induction false} PlanShrinks(s: Store, steps: seq<Step>, t: TaskId)
    requires t in s.tasks && s.tasks[t].Acting? && 1 <= |s.tasks[t].todo| <= 2
    ensures var u, plan := From(s, steps), s.tasks[t].todo;
      t in u.tasks && u.tasks[t].Acting? && u.tasks[t].snapshot == s.tasks[t].snapshot &&
      if NoActs(steps, t) then u.tasks[t].todo == plan
      else u.tasks[t].todo == [] || (|plan| == 2 && u.tasks[t].todo == [plan[1]])
  {
    if steps != [] {
      var n := |steps| - 1;
      var before, e := steps[..n], steps[n];
      PlanShrinks(s, before, t);
      assert NoActs(steps, t) <==> NoActs(before, t) && !ActsFor(e, t);
      var m := From(s, before);
      if Enabled(m, e) {
        PlanMoves(m, e, t);
      }
    }
  }

  // ---- What a stale worker still writes ----

  ghost predicate Writes(s: Store, e: Step)
    requires Enabled(s, e)
  {
    Apply(s, e).rows != s.rows || Apply(s, e).subs != s.subs
  }

  /** The subscription is active or has a pending row. */
  ghost predicate CanStop(s: Store, sub: SubId) {
    (sub in s.subs && s.subs[sub].status.Active?) ||
    exists r :: r in s.rows && s.rows[r].sub == sub && s.rows[r].status.Pending?
  }

  lemma StopWritesIff(s: Store, e: Step)
    requires Enabled(s, e) && e.Act? && s.tasks[e.task].todo[0].StopSub? && !s.tasks[e.task].todo[0].to.Active?
    ensures Writes(s, e) <==> CanStop(s, s.tasks[e.task].snapshot.sub)
  {
    var t := s.tasks[e.task];
    var done := s.(tasks := s.tasks[e.task := t.(todo := t.todo[1..])]);
    assert Apply(s, e) == OnStopSub(done, t.snapshot.sub, t.todo[0].to);
    if r :| r in s.rows && s.rows[r].sub == t.snapshot.sub && s.rows[r].status.Pending? {
      assert Apply(s, e).rows[r].status.Stopped?;
    }
  }

  lemma LostFinishIsSilent(s: Store, e: Step)
    requires Enabled(s, e) && e.Act? && s.tasks[e.task].todo[0].Finish? && Lost(s, s.tasks[e.task].snapshot)
    ensures !Writes(s, e)
  {}

  /**
   In every run, take a worker that loaded its row and decided on a plan, and any of its later
   statements after somebody else claimed the row, within one retry budget. The statement
   changes a row or a subscription if and only if it is the first of a plan that stops the
   subscription (the reply was 410, or the loaded subscription was past its refresh date or no
   longer authorized) and there is still something to stop.
   */
  lemma StaleWorkerWritesIff(s: Store, t: TaskId, steps: seq<Step>, d: nat, i: nat)
    requires Reachable(s) && t in s.tasks && s.tasks[t].Loaded?
    requires var c := s.tasks[t].snapshot; c.row in s.rows && c.attempts == s.rows[c.row].attempts
    requires d < i < |steps| && Decides(From(s, steps[..d]), steps[d], t)
    requires Enabled(From(s, steps[..i]), steps[i]) && ActsFor(steps[i], t)
    requires NeverRequeued(s, steps[..i], s.tasks[t].snapshot.row)
    requires ClaimCount(steps[..i], s, s.tasks[t].snapshot.row) > 0
    ensures var c, m := s.tasks[t].snapshot, From(s, steps[..i]);
      Writes(m, steps[i]) <==> Stops(c, steps[d]) && NoActs(steps[d + 1..i], t) && CanStop(m, c.sub)
  {
    var c, m := s.tasks[t].snapshot, From(s, steps[..i]);
    ReachableKeeps(s);
    ReclaimedIsLost(s, c, steps[..i]);
    TaskAt(s, t, steps, d, i);
    if m.tasks[t].todo[0].StopSub? {
      StopWritesIff(m, steps[i]);
    } else {
      LostFinishIsSilent(m, steps[i]);
    }
  }

  /** Where a task stands between its decision and its last statement. */
  lemma TaskAt(s: Store, t: TaskId, steps: seq<Step>, d: nat, i: nat)
    requires t in s.tasks && s.tasks[t].Loaded?
    requires d < i < |steps| && Decides(From(s, steps[..d]), steps[d], t)
    requires Enabled(From(s, steps[..i]), steps[i]) && ActsFor(steps[i], t)
    ensures var c, task := s.tasks[t].snapshot, From(s, steps[..i]).tasks[t];
      task.snapshot == c && task.todo != [] && (task.todo[0].StopSub? ==> !task.todo[0].to.Active?) &&
      (task.todo[0].StopSub? <==> Stops(c, steps[d]) && NoActs(steps[d + 1..i], t))
  {
    PlannedAt(s, t, steps, d);
    PlanLater(From(s, steps[..d + 1]), steps[d + 1..i], t, Stops(s.tasks[t].snapshot, steps[d]));
    RunJoins(s, steps[..d + 1], steps[d + 1..i]);
    assert steps[..d + 1] + steps[d + 1..i] == steps[..i];
  }

  /** A stop and a settlement, or a settlement alone. */
  predicate IsPlan(plan: seq<Action>, stops: bool) {
    if stops then |plan| == 2 && plan[0].StopSub? && !plan[0].to.Active? && plan[1].Finish?
    else |plan| == 1 && plan[0].Finish?
  }

  lemma PlanLater(s: Store, steps: seq<Step>, t: TaskId, stops: bool)
    requires t in s.tasks && s.tasks[t].Acting? && IsPlan(s.tasks[t].todo, stops)
    ensures var u := From(s, steps);
      t in u.tasks && u.tasks[t].Acting? && u.tasks[t].snapshot == s.tasks[t].snapshot &&
      var todo := u.tasks[t].todo;
      todo != [] ==> (todo[0].StopSub? ==> !todo[0].to.Active?) && (todo[0].StopSub? <==> stops && NoActs(steps, t))
  {
    PlanShrinks(s, steps, t);
  }

  /** Right after its decision the task has its plan. */
  lemma PlannedAt(s: Store, t: TaskId, steps: seq<Step>, d: nat)
    requires t in s.tasks && s.tasks[t].Loaded? && d < |steps| && Decides(From(s, steps[..d]), steps[d], t)
    ensures var c, u := s.tasks[t].snapshot, From(s, steps[..d + 1]);
      t in u.tasks && u.tasks[t].Acting? && u.tasks[t].snapshot == c && IsPlan(u.tasks[t].todo, Stops(c, steps[d]))
  {
    SnapshotStays(s, steps[..d], t, s.tasks[t].snapshot);
    DecisionIsPlanned(From(s, steps[..d]), steps[d], t);
    PlanStopsFirst(s.tasks[t].snapshot, steps[d]);
    assert steps[..d + 1][..d] == steps[..d];
  }

  lemma {:induction false} RunJoins(s: Store, a: seq<Step>, b: seq<Step>)
    ensures From(s, a + b) == From(From(s, a), b)
  {
    if b == [] {
      assert a + b == a;
    } else {
      var n := |b| - 1;
      RunJoins(s, a, b[..n]);
      assert (a + b)[..|a + b| - 1] == a + b[..n] && (a + b)[|a + b| - 1] == b[n];
    }
  }

  // ---- A run in which that happens ----

  const HOOK := NewWebhook(1, {"kind"}, {}, true)
  const ARRIVAL := DomainEvent(1, "runtime", "key", "kind", None, None, map[], 0, None)

  /** A webhook, an event and its pending row. */
  const QUEUED := Store(map[0 := ARRIVAL.(fannedOut := Some(0))], map["hook" := HOOK],
    map[0 := Row("hook", 0, Pending, 0, 0, None, None, None, None)], {0}, map[], map[], {}, false)

  lemma ReachNext(s: Store, e: Step)
    requires Reachable(s)
    ensures Reachable(Next(s, e))
  {
    var steps :| From(EMPTY, steps) == s;
    assert (steps + [e])[..|steps|] == steps;
    assert From(EMPTY, steps + [e]) == Next(s, e);
  }

  lemma ReachClaim(s: Store, r: RowId, t: TaskId, now: int)
    requires Reachable(s) && Due(s, r, now) && t !in s.tasks
    ensures Reachable(ClaimedOnce(s, r, t, now))
  {
    ClaimOne(s, r, t, now);
    ReachNext(s, Claim(now, map[t := r]));
  }

  const CREATED := Store(map[], map["hook" := HOOK], map[], {}, map[], map[], {}, false)
  const RECEIVED := CREATED.(events := map[0 := ARRIVAL])
  const FIRST_ROW: map<RowId, (SubId, EventId)> := map[0 := ("hook", 0)]

  lemma CreatedIsReachable()
    ensures Reachable(CREATED)
  {
    var nothing: seq<Step> := [];
    assert From(EMPTY, nothing) == EMPTY;
    assert Webhooks(EMPTY, 1) == {};
    ReachNext(EMPTY, CreateWebhook(0, "hook", 1, {"kind"}, {}, true));
  }

  lemma ReceivedIsReachable()
    ensures Reachable(RECEIVED)
  {
    CreatedIsReachable();
    var arrived := map[0 := ARRIVAL];
    ReachNext(CREATED, Receive(0, arrived));
    assert CREATED.events + arrived == arrived;
  }

  lemma FirstFanOut()
    ensures FanOutPairs(RECEIVED, {0}, 0) == {("hook", 0)} && FIRST_ROW.Values == {("hook", 0)}
  {
    assert Matches(RECEIVED, HOOK, ARRIVAL, 0);
    assert 0 in FIRST_ROW && FIRST_ROW[0] == ("hook", 0);
  }

  lemma QueuedIsReachable()
    ensures Reachable(QUEUED)
  {
    ReceivedIsReachable();
    FirstFanOut();
    var e := FanOut(0, {0}, FIRST_ROW);
    assert |{0}| == 1;
    assert Enabled(RECEIVED, e);
    ReachNext(RECEIVED, e);
    FirstSpread();
  }

  lemma FirstSpread()
    ensures OnFanOut(RECEIVED, 0, {0}, FIRST_ROW) == QUEUED
  {
    var t := OnFanOut(RECEIVED, 0, {0}, FIRST_ROW);
    assert t.events == QUEUED.events && t.rows == QUEUED.rows && t.used == QUEUED.used;
  }

  function Seen(attempts: nat): Snapshot {
    Snapshot(0, attempts, "hook", Active, None, true, true, 0, Some(0))
  }

  function HeldRow(attempts: nat, until: int): Row {
    Row("hook", 0, Sending, attempts, until, Some(until), None, None, None)
  }

  /** The row in its first or second claim, with the workers' tasks. */
  function Held(attempts: nat, until: int, tasks: map<TaskId, Task>): Store {
    QUEUED.(rows := map[0 := HeldRow(attempts, until)], tasks := tasks)
  }

  const GONE_PLAN := [StopSub(SubStopped), Finish(Stopped, Some(410), Some(Http(410)), None)]
  const AFTER_LOAD := Held(1, LEASE, map[1 := Loaded(1, Seen(1))])
  const AFTER_CHECK := Held(1, LEASE, map[1 := Posting(1, Seen(1))])
  const AFTER_RECLAIM := Held(2, 2 * LEASE, map[1 := Posting(1, Seen(1)), 2 := Loaded(2, Seen(2))])
  const AFTER_REPLY := Held(2, 2 * LEASE, map[1 := Acting(1, Seen(1), GONE_PLAN), 2 := Loaded(2, Seen(2))])

  lemma AnchorIsZero(s: Store)
    requires s.events == QUEUED.events && s.subs == QUEUED.subs && s.rows.Keys == {0} && s.rows[0].sub == "hook"
    requires s.rows[0].event == 0 && s.rows[0].status.Sending?
    ensures IsAnchor(s, "hook", Some(0))
  {
    assert Waiting(s, 0, "hook");
  }

  const FIRST_WON := Held(1, LEASE, map[1 := Won(0, 1)])

  lemma FirstClaim()
    ensures Reachable(FIRST_WON)
  {
    QueuedIsReachable();
    ReachClaim(QUEUED, 0, 1, 0);
    assert FIRST_WON == ClaimedOnce(QUEUED, 0, 1, 0);
  }

  lemma FirstLoad()
    ensures Reachable(AFTER_LOAD)
  {
    FirstClaim();
    AnchorIsZero(FIRST_WON);
    ReachNext(FIRST_WON, LoadTask(0, 1, Some(0)));
    assert Next(FIRST_WON, LoadTask(0, 1, Some(0))) == AFTER_LOAD;
  }

  lemma FirstPost()
    ensures Reachable(AFTER_CHECK)
  {
    FirstLoad();
    ReachNext(AFTER_LOAD, Check(0, 1, true));
    assert Decide(Seen(1), 0, true) == None;
    assert Next(AFTER_LOAD, Check(0, 1, true)) == AFTER_CHECK;
  }

  const SECOND_WON := Held(2, 2 * LEASE, map[1 := Posting(1, Seen(1)), 2 := Won(0, 2)])

  lemma SecondClaim()
    ensures Reachable(SECOND_WON)
  {
    FirstPost();
    ReachClaim(AFTER_CHECK, 0, 2, LEASE);
    assert SECOND_WON == ClaimedOnce(AFTER_CHECK, 0, 2, LEASE);
  }

  lemma SecondLoad()
    ensures Reachable(AFTER_RECLAIM)
  {
    SecondClaim();
    AnchorIsZero(SECOND_WON);
    ReachNext(SECOND_WON, LoadTask(LEASE, 2, Some(0)));
    assert Next(SECOND_WON, LoadTask(LEASE, 2, Some(0))) == AFTER_RECLAIM;
  }

  /**
   The first worker posts and is overtaken by its lease; a second worker claims the row; then
   the first gets a 410. In the reached state the second worker holds the row and the first
   does not, and the first worker's next statement ends the active webhook.
   */
  lemma StaleGoneStopsTheWebhook()
    ensures Reachable(AFTER_REPLY) && Enabled(AFTER_REPLY, Act(LEASE, 1))
    ensures !Holds(AFTER_REPLY, Seen(1)) && Holds(AFTER_REPLY, Seen(2)) && AFTER_REPLY.subs["hook"].status.Active?
    ensures var t := Apply(AFTER_REPLY, Act(LEASE, 1)); t.subs["hook"].status.SubStopped? && Holds(t, Seen(2))
  {
    SecondLoad();
    var e := Settle(LEASE, 1, Answered(410));
    ReachNext(AFTER_RECLAIM, e);
    assert Settlement(Seen(1), Classify(Answered(410)), LEASE) == GONE_PLAN;
    assert Next(AFTER_RECLAIM, e) == AFTER_REPLY;
  }

  // ---- Lost leases ----

  /** What a row past its budget has gone through: only rows being sent gain attempts, for a lease each. */
  predicate Overspent(a: Row, b: Row) {
    b.attempts >= a.attempts && !b.status.Pending? && (!a.status.Sending? ==> b.attempts == a.attempts) &&
    (b.status.Sending? ==> a.status.Sending? && b.nextAt >= a.nextAt + LEASE * (b.attempts - a.attempts))
  }

  predicate OverspentOnce(a: Row, b: Row) {
    || b == a
    || (a.status.Sending? && b.status.Sending? && b.attempts == a.attempts + 1 && b.nextAt >= a.nextAt + LEASE)
    || (a.status.Sending? && !b.status.Sending? && !b.status.Pending? && b.attempts == a.attempts)
  }

  lemma OverspentMore(a: Row, b: Row, c: Row)
    requires Overspent(a, b) && OverspentOnce(b, c)
    ensures Overspent(a, c)
  {}

  /**
   The attempt limit holds for pending rows only: a row whose workers never settle it is claimed again
   and again. From 12 attempts on, within one retry budget, each further attempt costs a whole lease:
   while the row is being sent, its lease has moved by at least 45 s for each of them.
   */
  lemma {:induction false} LostLeasesCostTime(s: Store, steps: seq<Step>, r: RowId)
    requires Inv(s) && r in s.rows && s.rows[r].attempts >= MAX_ATTEMPTS && NeverRequeued(s, steps, r)
    ensures r in From(s, steps).used
    ensures r in From(s, steps).rows ==> Overspent(s.rows[r], From(s, steps).rows[r])
  {
    if steps != [] {
      var n := |steps| - 1;
      var before, e := steps[..n], steps[n];
      assert NeverRequeued(s, before, r) by {
        assert forall i :: 0 <= i < n ==> before[i] == steps[i] && before[..i] == steps[..i];
      }
      LostLeasesCostTime(s, before, r);
      RunKeeps(s, before);
      var m := From(s, before);
      assert !Requeues(From(s, steps[..n]), steps[n], r);
      if Enabled(m, e) {
        UsedGrows(m, e);
        if r in Apply(m, e).rows {
          if r !in m.rows {
            DeletedForEver(m, e, r);
          } else {
            AttemptCosts(m, e, r);
            OverspentMore(s.rows[r], m.rows[r], Apply(m, e).rows[r]);
          }
        }
      }
    }
  }

  /** One step of a row past its budget. */
  lemma AttemptCosts(s: Store, e: Step, r: RowId)
    requires Inv(s) && Enabled(s, e) && r in s.rows && s.rows[r].attempts >= MAX_ATTEMPTS && r in Apply(s, e).rows
    requires !Requeues(s, e, r)
    ensures OverspentOnce(s.rows[r], Apply(s, e).rows[r])
  {
    RowMoves(s, e, r);
    StepKeeps(s, e);
    if Settles(s, e, r) {
      var task := s.tasks[e.task];
      assert task.todo[0] in task.todo;
      assert GoodAction(task.snapshot, task.todo[0]);
    }
  }

  /** The tasks of n workers that each claimed the row and vanished. */
  function Vanished(n: nat): map<TaskId, Task> {
    map t: TaskId | 1 <= t <= n :: Won(0, t)
  }

  function ClaimedTimes(n: nat): Store {
    if n == 0 then QUEUED else Held(n, n * LEASE, Vanished(n))
  }

  lemma ClaimedOnceMore(n: nat)
    ensures ClaimedOnce(ClaimedTimes(n), 0, n + 1, n * LEASE) == ClaimedTimes(n + 1)
  {
    var s := ClaimedTimes(n);
    assert s.rows[0].attempts == n;
    assert s.tasks == Vanished(n);
    assert Vanished(n)[n + 1 := Won(0, n + 1)] == Vanished(n + 1);
    assert ClaimRow(s.rows[0], n * LEASE) == HeldRow(n + 1, (n + 1) * LEASE);
  }

  lemma DueAgain(n: nat)
    ensures Due(ClaimedTimes(n), 0, n * LEASE) && n + 1 !in ClaimedTimes(n).tasks
  {}

  lemma ReachOnceMore(n: nat)
    requires Reachable(ClaimedTimes(n))
    ensures Reachable(ClaimedTimes(n + 1))
  {
    DueAgain(n);
    ReachClaim(ClaimedTimes(n), 0, n + 1, n * LEASE);
    ClaimedOnceMore(n);
  }

  /** For every n a run from the start reaches a row with n attempts, each 45 s after the one before. */
  lemma {:induction false} AttemptsCanPassTheLimit(n: nat)
    ensures Reachable(ClaimedTimes(n)) && ClaimedTimes(n).rows[0].attempts == n
    ensures n > 0 ==> ClaimedTimes(n).rows[0].status.Sending? && ClaimedTimes(n).rows[0].nextAt == n * LEASE
  {
    if n == 0 {
      QueuedIsReachable();
    } else {
      AttemptsCanPassTheLimit(n - 1);
      ReachOnceMore(n - 1);
    }
  }
}
