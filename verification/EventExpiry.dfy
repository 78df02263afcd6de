/**
 How long a refreshed subscription lasts. A refresh stores an active status and a date between a
 minute and a day ahead, but the stop of a subscription looks only at the worker's own snapshot:
 it does not check the stored date again. This module says, over whole runs, when a statement ends
 a subscription before its stored date.
 */
module EventExpiry {
  import opened Prelude
  import opened EventModel
  import opened EventInvariant
  import opened EventDelivery
  import opened EventRetention
  import opened EventStale

  // ---- Points of a run ----

  /** The store before step k of a run. */
  ghost function At(steps: seq<Step>, k: nat): Store
    requires k <= |steps|
  {
    From(EMPTY, steps[..k])
  }

  lemma AtNext(steps: seq<Step>, k: nat)
    requires k < |steps|
    ensures At(steps, k + 1) == Next(At(steps, k), steps[k])
  {
    assert steps[..k + 1][..k] == steps[..k];
  }

  lemma AtJoins(steps: seq<Step>, a: nat, b: nat)
    requires a <= b <= |steps|
    ensures From(At(steps, a), steps[a..b]) == At(steps, b)
  {
    RunJoins(EMPTY, steps[..a], steps[a..b]);
    assert steps[..a] + steps[a..b] == steps[..b];
  }

  // ---- Ends ----

  /** The step ends an active subscription. */
  ghost predicate Ends(s: Store, e: Step, u: SubId) {
    Enabled(s, e) && u in s.subs && s.subs[u].status.Active? &&
    u in Apply(s, e).subs && !Apply(s, e).subs[u].status.Active?
  }

  /** The stored date by which the subscription must be refreshed is after an instant. */
  ghost predicate Early(s: Store, u: SubId, at: int) {
    u in s.subs && (s.subs[u].refreshBefore.Some? ==> at < s.subs[u].refreshBefore.value)
  }

  lemma EndIsAStop(s: Store, e: Step, u: SubId)
    requires Ends(s, e, u)
    ensures e.Act? && s.tasks[e.task].todo[0].StopSub? && s.tasks[e.task].snapshot.sub == u
  {}

  lemma StopIsAnEnd(s: Store, e: Step, u: SubId)
    requires Enabled(s, e) && e.Act? && s.tasks[e.task].snapshot.sub == u && u in s.subs && s.subs[u].status.Active?
    requires s.tasks[e.task].todo[0].StopSub? ==> !s.tasks[e.task].todo[0].to.Active?
    ensures Ends(s, e, u) <==> s.tasks[e.task].todo[0].StopSub?
  {}

  /** The step writes the date of a subscription: a refresh, or its creation. */
  ghost predicate Dates(s: Store, e: Step, u: SubId) {
    Enabled(s, e) && (e.Subscribe? || e.CreateWebhook?) && e.sub == u
  }

  ghost predicate DatedIn(steps: seq<Step>, a: nat, b: nat, u: SubId)
    requires a <= b <= |steps|
  {
    exists k :: a <= k < b && Dates(At(steps, k), steps[k], u)
  }

  lemma DateMoves(s: Store, e: Step, u: SubId)
    requires Enabled(s, e) && !Dates(s, e, u) && u in Apply(s, e).subs
    ensures u in s.subs && Apply(s, e).subs[u].refreshBefore == s.subs[u].refreshBefore
  {}

  lemma {:induction false} DateStays(steps: seq<Step>, a: nat, b: nat, u: SubId)
    requires a <= b <= |steps| && !DatedIn(steps, a, b, u) && u in At(steps, b).subs
    ensures u in At(steps, a).subs && At(steps, b).subs[u].refreshBefore == At(steps, a).subs[u].refreshBefore
  {
    if a < b {
      var k := b - 1;
      AtNext(steps, k);
      assert !Dates(At(steps, k), steps[k], u);
      if Enabled(At(steps, k), steps[k]) {
        DateMoves(At(steps, k), steps[k], u);
      }
      DateStays(steps, a, k, u);
    }
  }

  // ---- Workers ----

  /** Step j loads a task and step d decides on its plan. */
  ghost predicate Works(steps: seq<Step>, j: nat, d: nat, t: TaskId) {
    j < d < |steps| && steps[j].LoadTask? && steps[j].task == t && Enabled(At(steps, j), steps[j]) &&
    Decides(At(steps, d), steps[d], t)
  }

  /** What the worker saw. */
  ghost function Saw(steps: seq<Step>, j: nat): Snapshot
    requires j < |steps| && steps[j].LoadTask? && Enabled(At(steps, j), steps[j])
  {
    Apply(At(steps, j), steps[j]).tasks[steps[j].task].snapshot
  }

  /**
   A decision that may end a subscription before its date: the receiver said 410; or the event is
   retained, the subscription was active, and its grant did not reach the runtime or the date that
   the worker saw has passed and is not the stored one any more.
   */
  predicate EarlyCause(c: Snapshot, e: Step, dated: bool)
    requires e.Settle? || e.Check?
  {
    if e.Settle? then e.reply == Answered(410)
    else
      e.now < c.receivedAt + RETENTION && c.status.Active? &&
      (!c.authorized || (c.refreshBefore.Some? && c.refreshBefore.value <= e.now && dated))
  }

  lemma LoadShowsTheDate(s: Store, e: Step)
    requires Enabled(s, e) && e.LoadTask?
    ensures var c, u := Apply(s, e).tasks[e.task].snapshot, Apply(s, e);
      c.sub in u.subs && c.refreshBefore == u.subs[c.sub].refreshBefore
  {}

  lemma Sliced(steps: seq<Step>, a: nat, b: nat, c: nat)
    requires a <= b < c < |steps|
    ensures var rest := steps[a..];
      rest[..b - a] == steps[a..b] && rest[..c - a] == steps[a..c] && rest[b - a + 1..c - a] == steps[b + 1..c] &&
      rest[b - a] == steps[b] && rest[c - a] == steps[c]
  {}

  lemma WorkerAt(steps: seq<Step>, j: nat, d: nat, i: nat, t: TaskId)
    requires Works(steps, j, d, t) && d < i < |steps|
    requires Enabled(At(steps, i), steps[i]) && ActsFor(steps[i], t)
    ensures var c, task := Saw(steps, j), At(steps, i).tasks[t];
      task.snapshot == c && task.todo != [] && (task.todo[0].StopSub? ==> !task.todo[0].to.Active?) &&
      (task.todo[0].StopSub? <==> Stops(c, steps[d]) && NoActs(steps[d + 1..i], t))
  {
    AtNext(steps, j);
    AtJoins(steps, j + 1, d);
    AtJoins(steps, j + 1, i);
    Sliced(steps, j + 1, d, i);
    TaskAt(At(steps, j + 1), t, steps[j + 1..], d - j - 1, i - j - 1);
  }

  /**
   In every run, take a worker that loaded its row at step j, decided at step d and runs a statement
   at step i, while its subscription is active with a stored date after the decision. The statement
   ends the subscription if and only if it is the first of the plan and the decision was made for a
   410, a lost authorization, or a passed date that has been written anew since the load.
   */
  lemma EndsEarlyIff(steps: seq<Step>, j: nat, d: nat, i: nat, t: TaskId)
    requires Works(steps, j, d, t) && d < i < |steps|
    requires Enabled(At(steps, i), steps[i]) && ActsFor(steps[i], t)
    requires var s, u := At(steps, i), Saw(steps, j).sub; Early(s, u, steps[d].now) && s.subs[u].status.Active?
    ensures var c := Saw(steps, j);
      Ends(At(steps, i), steps[i], c.sub) <==>
      NoActs(steps[d + 1..i], t) && EarlyCause(c, steps[d], DatedIn(steps, j + 1, i, c.sub))
  {
    var c := Saw(steps, j);
    WorkerAt(steps, j, d, i, t);
    StopIsAnEnd(At(steps, i), steps[i], c.sub);
    LoadShowsTheDate(At(steps, j), steps[j]);
    AtNext(steps, j);
    if !DatedIn(steps, j + 1, i, c.sub) {
      DateStays(steps, j + 1, i, c.sub);
    }
  }

  // ---- Every end has a worker ----

  lemma PlanComesFromDecision(s: Store, e: Step, t: TaskId)
    requires Enabled(s, e) && t in s.tasks && !s.tasks[t].Acting?
    requires t in Apply(s, e).tasks && Apply(s, e).tasks[t].Acting?
    ensures Decides(s, e, t)
  {}

  /** A task that holds a snapshot was loaded at some step, and one that has a plan decided after that. */
  lemma {:induction false} TaskHistory(steps: seq<Step>, n: nat, t: TaskId) returns (j: nat, d: nat)
    requires n <= |steps| && t in At(steps, n).tasks && !At(steps, n).tasks[t].Won?
    ensures j < n && steps[j].LoadTask? && steps[j].task == t && Enabled(At(steps, j), steps[j])
    ensures At(steps, n).tasks[t].snapshot == Saw(steps, j)
    ensures At(steps, n).tasks[t].Acting? ==> j < d < n && Decides(At(steps, d), steps[d], t)
  {
    assert At(steps, 0) == EMPTY;
    j, d := n - 1, n - 1;
    var k := n - 1;
    AtNext(steps, k);
    var s, e := At(steps, k), steps[k];
    if !Enabled(s, e) {
      j, d := TaskHistory(steps, k, t);
    } else {
      SnapshotMoves(s, e, t);
      if !s.tasks[t].Won? {
        j, d := TaskHistory(steps, k, t);
        if !s.tasks[t].Acting? && At(steps, n).tasks[t].Acting? {
          PlanComesFromDecision(s, e, t);
          d := k;
        }
      }
    }
  }

  /** Every statement that ends a subscription is the stop of some worker's plan. */
  lemma EndHasAWorker(steps: seq<Step>, i: nat, u: SubId) returns (j: nat, d: nat)
    requires i < |steps| && Ends(At(steps, i), steps[i], u)
    ensures steps[i].Act? && Works(steps, j, d, steps[i].task) && d < i && Saw(steps, j).sub == u
    ensures Stops(Saw(steps, j), steps[d])
    ensures Early(At(steps, i), u, steps[d].now) ==>
      EarlyCause(Saw(steps, j), steps[d], DatedIn(steps, j + 1, i, u))
  {
    EndIsAStop(At(steps, i), steps[i], u);
    var t := steps[i].task;
    j, d := TaskHistory(steps, i, t);
    WorkerAt(steps, j, d, i, t);
    if Early(At(steps, i), u, steps[d].now) {
      EndsEarlyIff(steps, j, d, i, t);
    }
  }

  // ---- What a refresh is worth ----

  ghost predicate EndedIn(steps: seq<Step>, a: nat, b: nat, u: SubId)
    requires a <= b <= |steps|
  {
    exists i :: a <= i < b && Ends(At(steps, i), steps[i], u)
  }

  lemma InactiveMoves(s: Store, e: Step, u: SubId)
    requires Enabled(s, e) && !Dates(s, e, u) && u in Apply(s, e).subs && !Apply(s, e).subs[u].status.Active?
    ensures u in s.subs && (!s.subs[u].status.Active? || Ends(s, e, u))
  {}

  lemma {:induction false} InactiveWasEnded(steps: seq<Step>, a: nat, b: nat, u: SubId)
    requires a <= b <= |steps| && !DatedIn(steps, a, b, u)
    requires u in At(steps, b).subs && !At(steps, b).subs[u].status.Active?
    requires u in At(steps, a).subs ==> At(steps, a).subs[u].status.Active?
    ensures EndedIn(steps, a, b, u)
  {
    if a < b {
      var k := b - 1;
      AtNext(steps, k);
      assert !Dates(At(steps, k), steps[k], u);
      if Enabled(At(steps, k), steps[k]) {
        InactiveMoves(At(steps, k), steps[k], u);
      }
      if !Ends(At(steps, k), steps[k], u) {
        InactiveWasEnded(steps, a, k, u);
        var i :| a <= i < k && Ends(At(steps, i), steps[i], u);
        assert a <= i < b;
      }
    }
  }

  /**
   A refresh stores an active status and a date between a minute and a day ahead. Of a stored subscription
   it may change the runtimes besides, and nothing else.
   */
  lemma RefreshDates(s: Store, e: Step)
    requires Enabled(s, e) && e.Subscribe?
    ensures e.sub in Apply(s, e).subs &&
      var sub := Apply(s, e).subs[e.sub];
      && sub.status.Active? && sub.refreshBefore == Some(e.now + Lifetime(e.ttlMs) * SECOND)
      && 60 <= Lifetime(e.ttlMs) && Lifetime(e.ttlMs) * SECOND <= RETENTION
      && (e.ttlMs.Some? && 60_000 <= e.ttlMs.value <= 86_400_000 ==> Lifetime(e.ttlMs) == e.ttlMs.value / 1000)
      && (e.sub in s.subs ==> sub.(runtimeIds := s.subs[e.sub].runtimeIds, status := s.subs[e.sub].status,
            refreshBefore := s.subs[e.sub].refreshBefore) == s.subs[e.sub])
  {}

  /**
   In every run, take a subscription that was refreshed at step r, with a date between a minute and
   a day ahead, and not dated again. If it is found inactive at step n, then a worker's stop ended
   it in between; and that worker decided at or after the date, or on a 410, or on a lost
   authorization, or on a snapshot that it had loaded before the refresh.
   */
  lemma RefreshLasts(steps: seq<Step>, r: nat, n: nat, u: SubId) returns (i: nat, j: nat, d: nat)
    requires r < n <= |steps| && steps[r].Subscribe? && Dates(At(steps, r), steps[r], u)
    requires !DatedIn(steps, r + 1, n, u)
    requires u in At(steps, n).subs && !At(steps, n).subs[u].status.Active?
    ensures r < i < n && Ends(At(steps, i), steps[i], u) && steps[i].Act?
    ensures Works(steps, j, d, steps[i].task) && d < i && Saw(steps, j).sub == u
    ensures 60 <= Lifetime(steps[r].ttlMs) && Lifetime(steps[r].ttlMs) * SECOND <= RETENTION
    ensures var until := steps[r].now + Lifetime(steps[r].ttlMs) * SECOND;
      steps[d].now >= until || EarlyCause(Saw(steps, j), steps[d], j < r)
  {
    AtNext(steps, r);
    RefreshDates(At(steps, r), steps[r]);
    InactiveWasEnded(steps, r + 1, n, u);
    i :| r + 1 <= i < n && Ends(At(steps, i), steps[i], u);
    assert !DatedIn(steps, r + 1, i, u) by {
      assert forall k :: r + 1 <= k < i ==> r + 1 <= k < n && !Dates(At(steps, k), steps[k], u);
    }
    DateStays(steps, r + 1, i, u);
    j, d := EndHasAWorker(steps, i, u);
    if DatedIn(steps, j + 1, i, u) {
      var k :| j + 1 <= k < i && Dates(At(steps, k), steps[k], u);
      assert k <= r;
    }
  }

  // ---- A run in which that happens ----

  const OWNER := Grant(false, true, {})
  const WANTED_SUB := Sub(1, false, {"kind"}, {}, true, Active, None, 5, map[])
  const MINUTE := 60 * SECOND

  /** The subscription with a date. */
  function Dated(until: int, status: SubStatus): Sub {
    WANTED_SUB.(refreshBefore := Some(until), status := status)
  }

  const OPEN := EMPTY.(grants := map[5 := OWNER], mcpOn := {"runtime"}, mcpEvents := true)
  const SUBSCRIBED := OPEN.(subs := map["sub" := Dated(MINUTE, Active)])
  const FILLED := SUBSCRIBED.(events := map[0 := ARRIVAL])
  const ROW_IDS: map<RowId, (SubId, EventId)> := map[0 := ("sub", 0)]
  const WAITING_ROW := Row("sub", 0, Pending, 0, 0, None, None, None, None)
  const SPREAD := FILLED.(
    events := map[0 := ARRIVAL.(fannedOut := Some(0))], rows := map[0 := WAITING_ROW], used := {0})

  lemma OpenIsReachable()
    ensures Reachable(OPEN)
  {
    var nothing: seq<Step> := [];
    assert From(EMPTY, nothing) == EMPTY;
    ReachNext(EMPTY, Configure(0, map[5 := OWNER], {"runtime"}, true));
  }

  lemma SubscribedIsReachable()
    ensures Reachable(SUBSCRIBED)
  {
    OpenIsReachable();
    ReachNext(OPEN, Subscribe(0, "sub", WANTED_SUB, Some(60_000)));
    assert Lifetime(Some(60_000)) == 60;
    assert Next(OPEN, Subscribe(0, "sub", WANTED_SUB, Some(60_000))) == SUBSCRIBED;
  }

  lemma FilledIsReachable()
    ensures Reachable(FILLED)
  {
    SubscribedIsReachable();
    var arrived := map[0 := ARRIVAL];
    ReachNext(SUBSCRIBED, Receive(0, arrived));
    assert SUBSCRIBED.events + arrived == arrived;
  }

  lemma SpreadPairs()
    ensures FanOutPairs(FILLED, {0}, 0) == {("sub", 0)} && ROW_IDS.Values == {("sub", 0)}
  {
    assert Matches(FILLED, Dated(MINUTE, Active), ARRIVAL, 0);
    assert 0 in ROW_IDS && ROW_IDS[0] == ("sub", 0);
  }

  lemma SpreadIsReachable()
    ensures Reachable(SPREAD)
  {
    FilledIsReachable();
    SpreadPairs();
    var e := FanOut(0, {0}, ROW_IDS);
    assert |{0}| == 1;
    assert Enabled(FILLED, e);
    ReachNext(FILLED, e);
    SpreadRows();
  }

  lemma SpreadRows()
    ensures OnFanOut(FILLED, 0, {0}, ROW_IDS) == SPREAD
  {
    var t := OnFanOut(FILLED, 0, {0}, ROW_IDS);
    assert t.events == SPREAD.events && t.rows == SPREAD.rows && t.used == SPREAD.used;
  }

  const TAKEN_ROW := Row("sub", 0, Sending, 1, MINUTE + LEASE, Some(MINUTE + LEASE), None, None, None)
  const SEEN := Snapshot(0, 1, "sub", Active, Some(MINUTE), true, true, 0, Some(0))
  const EXPIRY_PLAN := [StopSub(SubExpired), Finish(Stopped, None, Some(SubscriptionExpired), None)]

  function Taken(until: int, tasks: map<TaskId, Task>): Store {
    SPREAD.(subs := map["sub" := Dated(until, Active)], rows := map[0 := TAKEN_ROW], tasks := tasks)
  }

  const TAKEN := Taken(MINUTE, map[1 := Won(0, 1)])
  const LOOKED := Taken(MINUTE, map[1 := Loaded(1, SEEN)])
  const DECIDED := Taken(MINUTE, map[1 := Acting(1, SEEN, EXPIRY_PLAN)])
  const REFRESHED := Taken(MINUTE + RETENTION, map[1 := Acting(1, SEEN, EXPIRY_PLAN)])

  lemma TakenIsReachable()
    ensures Reachable(TAKEN)
  {
    SpreadIsReachable();
    ReachClaim(SPREAD, 0, 1, MINUTE);
    assert TAKEN == ClaimedOnce(SPREAD, 0, 1, MINUTE);
  }

  lemma LookedIsReachable()
    ensures Reachable(LOOKED)
  {
    TakenIsReachable();
    assert Waiting(TAKEN, 0, "sub");
    ReachNext(TAKEN, LoadTask(MINUTE, 1, Some(0)));
    assert Next(TAKEN, LoadTask(MINUTE, 1, Some(0))) == LOOKED;
  }

  lemma DecidedIsReachable()
    ensures Reachable(DECIDED)
  {
    LookedIsReachable();
    ReachNext(LOOKED, Check(MINUTE, 1, true));
    assert Decide(SEEN, MINUTE, true) == Some(EXPIRY_PLAN);
    assert Next(LOOKED, Check(MINUTE, 1, true)) == DECIDED;
  }

  lemma RefreshedIsReachable()
    ensures Reachable(REFRESHED)
  {
    DecidedIsReachable();
    ReachNext(DECIDED, Subscribe(MINUTE, "sub", WANTED_SUB, None));
    assert Next(DECIDED, Subscribe(MINUTE, "sub", WANTED_SUB, None)) == REFRESHED;
  }

  /**
   A worker loads its row when the date has just passed and plans the expiry; the client refreshes for
   a day; then the worker, which still holds its row, ends the refreshed subscription.
   */
  lemma StopEndsARefreshedSubscription()
    ensures Reachable(REFRESHED) && Enabled(REFRESHED, Act(MINUTE, 1)) && Holds(REFRESHED, SEEN)
    ensures Early(REFRESHED, "sub", MINUTE + RETENTION - 1) && Ends(REFRESHED, Act(MINUTE, 1), "sub")
    ensures Apply(REFRESHED, Act(MINUTE, 1)).subs["sub"].status.SubExpired?
  {
    RefreshedIsReachable();
  }
}
