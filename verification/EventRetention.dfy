/** How replies settle a delivery, and that no run schedules one past the retention of its event. */
module EventRetention {
  import opened EventModel
  import opened EventInvariant
  import opened EventDelivery

  // ---- What a reply leads to ----

  /** Worth another attempt: a timeout, too early, a rate limit, a server error or a passing failure to connect. */
  predicate Transient(reply: Reply) {
    match reply
    case Answered(status) => status in {408, 425, 429} || status >= 500
    case Failed(permanent, _) => !permanent
  }

  predicate Delivers(reply: Reply) {
    reply.Answered? && 200 <= reply.status < 300
  }

  predicate CanWait(c: Snapshot, now: int) {
    c.attempts < MAX_ATTEMPTS && now + RetryDelay(c.attempts) * SECOND < c.receivedAt + RETENTION
  }

  /**
   From a reply to the row, through classify, settle and finish: a held row is delivered for a
   2xx, stopped for 410 together with its subscription, queued again for a transient reply
   while attempts and retention allow, and dead otherwise.
   */
  lemma ReplySettlesRow(row: Row, c: Snapshot, reply: Reply, now: int)
    ensures var plan := Settlement(c, Classify(reply), now);
      |plan| >= 1 && plan[|plan| - 1].Finish? &&
      var done := FinishRow(row, plan[|plan| - 1], now);
      && (done.status.Delivered? <==> Delivers(reply))
      && (done.status.Stopped? <==> reply == Answered(410))
      && (done.status.Pending? <==> Transient(reply) && CanWait(c, now))
      && !done.status.Sending?
      && (done.status.Pending? ==> done.nextAt == now + RetryDelay(c.attempts) * SECOND)
      && (plan[0] == StopSub(SubStopped) <==> reply == Answered(410))
  {}

  // ---- Retention ----

  /** The event of row r was received at an instant. */
  ghost predicate Received(s: Store, r: RowId, at: int) {
    r in s.rows && s.rows[r].event in s.events && s.events[s.rows[r].event].receivedAt == at
  }

  ghost predicate Timely(s: Store) {
    forall r, at :: Received(s, r, at) && s.rows[r].status.Pending? ==> s.rows[r].nextAt <= at + RETENTION
  }

  ghost predicate Truthful(s: Store, t: TaskId) {
    t in s.tasks && !s.tasks[t].Won? ==>
      var c := s.tasks[t].snapshot; c.row in s.used && (c.row in s.rows ==> Received(s, c.row, c.receivedAt))
  }

  ghost predicate TimelyAction(c: Snapshot, a: Action) {
    a.Finish? && a.status.Pending? ==> a.next.Some? && a.next.value < c.receivedAt + RETENTION
  }

  ghost predicate TimelyPlan(s: Store, t: TaskId) {
    t in s.tasks && s.tasks[t].Acting? ==> forall a <- s.tasks[t].todo :: TimelyAction(s.tasks[t].snapshot, a)
  }

  ghost predicate InTime(s: Store) {
    Timely(s) && (forall t :: Truthful(s, t)) && (forall t :: TimelyPlan(s, t))
  }

  lemma ReceivedStays(s: Store, e: Step, r: RowId, at: int)
    requires Recorded(s) && Enabled(s, e) && Received(s, r, at) && r in Apply(s, e).rows
    ensures Received(Apply(s, e), r, at)
  {
    RecordedAfter(s, e);
    RowMoves(s, e, r);
    ReceiveTimesStay(s, e, s.rows[r].event);
  }

  /** A task keeps its row and snapshot from the load on. */
  lemma SnapshotMoves(s: Store, e: Step, t: TaskId)
    requires Enabled(s, e) && t in Apply(s, e).tasks && !Apply(s, e).tasks[t].Won?
    ensures t in s.tasks
    ensures s.tasks[t].Won? ==>
      e.LoadTask? && e.task == t && Apply(s, e).tasks[t].snapshot == Load(s, s.tasks[t].row, e.anchor)
    ensures !s.tasks[t].Won? ==> Apply(s, e).tasks[t].snapshot == s.tasks[t].snapshot
  {}

  lemma TruthfulAfter(s: Store, e: Step, t: TaskId)
    requires Recorded(s) && Enabled(s, e) && Truthful(s, t)
    ensures Truthful(Apply(s, e), t)
  {
    var u := Apply(s, e);
    if t in u.tasks && !u.tasks[t].Won? {
      SnapshotMoves(s, e, t);
      UsedGrows(s, e);
      var c := u.tasks[t].snapshot;
      if c.row in u.rows {
        if c.row !in s.rows {
          DeletedForEver(s, e, c.row);
        }
        ReceivedStays(s, e, c.row, c.receivedAt);
      }
    }
  }

  lemma TimelyDecisions(c: Snapshot, now: int, keysAvailable: bool, reply: Reply)
    ensures Decide(c, now, keysAvailable).Some? ==>
      forall a <- Decide(c, now, keysAvailable).value :: TimelyAction(c, a)
    ensures forall a <- Settlement(c, Classify(reply), now) :: TimelyAction(c, a)
  {}

  lemma TimelyPlanAfter(s: Store, e: Step, t: TaskId)
    requires Enabled(s, e) && TimelyPlan(s, t)
    ensures TimelyPlan(Apply(s, e), t)
  {
    if e.Check? && e.task == t {
      TimelyDecisions(s.tasks[t].snapshot, e.now, e.keysAvailable, Answered(0));
    } else if e.Settle? && e.task == t {
      TimelyDecisions(s.tasks[t].snapshot, e.now, true, e.reply);
    } else if e.Act? && e.task == t {
      ActKeepsPlans(s, e);
      assert forall a <- s.tasks[t].todo[1..] :: a in s.tasks[t].todo;
    } else if e.Act? {
      ActKeepsPlans(s, e);
    }
  }

  lemma NewRowIsTimely(s: Store, e: Step, r: RowId, at: int)
    requires Enabled(s, e) && r in Apply(s, e).rows && r !in s.rows && Received(Apply(s, e), r, at)
    ensures Apply(s, e).rows[r].nextAt <= at + RETENTION
  {
    InsertedBy(s, e, r);
    if !e.TestWebhook? {
      InsertedAreRecorded(s, e, r);
      assert e.ids[r] in e.ids.Values;
      ReceiveTimesStay(s, e, e.ids[r].1);
    }
  }

  lemma OldRowIsTimely(s: Store, e: Step, r: RowId, at: int)
    requires Recorded(s) && InTime(s) && Enabled(s, e) && Received(s, r, at)
    requires r in Apply(s, e).rows && Apply(s, e).rows[r].status.Pending?
    ensures Apply(s, e).rows[r].nextAt <= at + RETENTION
  {
    RowMoves(s, e, r);
    if Settles(s, e, r) {
      var task := s.tasks[e.task];
      assert Truthful(s, e.task) && TimelyPlan(s, e.task);
      assert task.todo[0] in task.todo;
      assert TimelyAction(task.snapshot, task.todo[0]);
    }
  }

  lemma TimelyAfter(s: Store, e: Step)
    requires Recorded(s) && InTime(s) && Enabled(s, e)
    ensures Timely(Apply(s, e))
  {
    var u := Apply(s, e);
    forall r, at | Received(u, r, at) && u.rows[r].status.Pending?
      ensures u.rows[r].nextAt <= at + RETENTION
    {
      if r in s.rows {
        var before := s.events[s.rows[r].event].receivedAt;
        assert Received(s, r, before);
        ReceivedStays(s, e, r, before);
        OldRowIsTimely(s, e, r, before);
      } else {
        NewRowIsTimely(s, e, r, at);
      }
    }
  }

  lemma {:induction false} RunIsInTime(steps: seq<Step>)
    ensures Inv(From(EMPTY, steps)) && InTime(From(EMPTY, steps))
  {
    RunKeeps(EMPTY, steps);
    if steps != [] {
      var before, e := steps[..|steps| - 1], steps[|steps| - 1];
      RunIsInTime(before);
      var s := From(EMPTY, before);
      if Enabled(s, e) {
        TimelyAfter(s, e);
        forall t
          ensures Truthful(Apply(s, e), t) && TimelyPlan(Apply(s, e), t)
        {
          TruthfulAfter(s, e, t);
          TimelyPlanAfter(s, e, t);
        }
      }
    }
  }

  /** In every run a pending delivery is due no later than its event is retained. */
  lemma PendingIsDueInRetention(s: Store, r: RowId)
    requires Reachable(s) && r in s.rows && s.rows[r].status.Pending?
    ensures s.rows[r].event in s.events && s.rows[r].nextAt <= s.events[s.rows[r].event].receivedAt + RETENTION
  {
    var steps :| From(EMPTY, steps) == s;
    RunIsInTime(steps);
    assert Received(s, r, s.events[s.rows[r].event].receivedAt);
  }
}
