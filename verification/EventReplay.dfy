/**
 When resuming from a cursor is complete. The cursor of a delivery is the receive time of the
 oldest row then waiting for the subscription; an event without a row does not count. This module
 says exactly when every later refresh from the cursor queues all the events it should.
 */
module EventReplay {
  import opened Prelude
  import opened EventModel
  import opened EventInvariant
  import opened EventDelivery
  import opened EventStale
  import opened EventExpiry
  import C = Cursor

  // ---- One refresh ----

  /** The event has a row of the subscription that is not stopped for expiry: queued, sent or settled for good. */
  ghost predicate Handled(s: Store, sub: SubId, m: EventId) {
    exists r :: HandledBy(s, sub, m, r)
  }

  ghost predicate HandledBy(s: Store, sub: SubId, m: EventId, r: RowId) {
    r in s.rows && s.rows[r].sub == sub && s.rows[r].event == m && !StoppedByExpiry(s.rows[r])
  }

  /** A retained event that matches the subscription. */
  ghost predicate Deserved(s: Store, sub: SubId, m: EventId, now: int) {
    sub in s.subs && m in s.events && s.events[m].receivedAt >= now - RETENTION &&
    Matches(s, s.subs[sub], s.events[m], now)
  }

  /** After the refresh every deserved event is handled. */
  ghost predicate Recovers(s: Store, e: Step)
    requires Enabled(s, e) && e.Backfill?
  {
    forall m :: Deserved(s, e.sub, m, e.now) ==> Handled(Apply(s, e), e.sub, m)
  }

  lemma InsertedIsYounger(s: Store, e: Step, r: RowId)
    requires Enabled(s, e) && e.Backfill? && r in Apply(s, e).rows && r !in s.rows
    ensures Apply(s, e).rows[r].event in s.events && s.events[Apply(s, e).rows[r].event].receivedAt >= e.since
  {
    InsertedBy(s, e, r);
    assert e.ids[r] in e.ids.Values;
  }

  lemma RefreshSkipsOlder(s: Store, e: Step, m: EventId)
    requires Inv(s) && Enabled(s, e) && e.Backfill? && m in s.events && s.events[m].receivedAt < e.since
    ensures Handled(Apply(s, e), e.sub, m) <==> Handled(s, e.sub, m)
  {
    var t := Apply(s, e);
    if r :| HandledBy(s, e.sub, m, r) {
      RefreshKeepsRows(s, e, r);
      RowMoves(s, e, r);
      assert HandledBy(t, e.sub, m, r);
    }
    if r :| HandledBy(t, e.sub, m, r) {
      if r in s.rows {
        RowMoves(s, e, r);
        assert HandledBy(s, e.sub, m, r);
      } else {
        InsertedIsYounger(s, e, r);
        assert false;
      }
    }
  }

  lemma RefreshReachesYounger(s: Store, e: Step, m: EventId)
    requires Inv(s) && Enabled(s, e) && e.Backfill? && Deserved(s, e.sub, m, e.now)
    requires s.events[m].receivedAt >= e.since
    ensures Handled(Apply(s, e), e.sub, m)
  {
    RefreshCovers(s, e);
    assert Wanted(s, e.sub, m, e.since, e.now);
    var t := Apply(s, e);
    var r :| r in t.rows && t.rows[r].sub == e.sub && t.rows[r].event == m && !StoppedByExpiry(t.rows[r]);
    assert HandledBy(t, e.sub, m, r);
  }

  /** A refresh recovers everything if and only if the deserved events before its cursor are handled already. */
  lemma RecoversIff(s: Store, e: Step)
    requires Inv(s) && Enabled(s, e) && e.Backfill?
    ensures Recovers(s, e) <==>
      forall m :: Deserved(s, e.sub, m, e.now) && s.events[m].receivedAt < e.since ==> Handled(s, e.sub, m)
  {
    forall m | Deserved(s, e.sub, m, e.now)
      ensures Handled(Apply(s, e), e.sub, m) <==> s.events[m].receivedAt >= e.since || Handled(s, e.sub, m)
    {
      if s.events[m].receivedAt < e.since {
        RefreshSkipsOlder(s, e, m);
      } else {
        RefreshReachesYounger(s, e, m);
      }
    }
  }

  // ---- What a continuation keeps ----

  ghost predicate KeepsSub(steps: seq<Step>, sub: SubId) {
    forall e <- steps :: e.Delete? ==> sub !in e.subs
  }

  /** Events that appear have been received at or after an instant. */
  ghost predicate ArrivesFrom(e: Step, since: int) {
    (e.Receive? ==> forall m :: m in e.arrived ==> e.arrived[m].receivedAt >= since) &&
    (e.TestWebhook? ==> e.now >= since)
  }

  ghost predicate AllArriveFrom(steps: seq<Step>, since: int) {
    forall e <- steps :: ArrivesFrom(e, since)
  }

  /** An event before the instant was there before the step, the same but for its fan-out mark. */
  lemma OlderEventWasThere(s: Store, e: Step, m: EventId, since: int)
    requires Enabled(s, e) && ArrivesFrom(e, since) && m in Apply(s, e).events
    requires Apply(s, e).events[m].receivedAt < since
    ensures m in s.events && s.events[m] == Apply(s, e).events[m].(fannedOut := s.events[m].fannedOut)
    ensures !(e.Delete? && m in e.events)
  {}

  /** Two versions of one subscription differ only in the runtimes, the status and the date. */
  predicate SameArguments(a: Sub, b: Sub) {
    a == b.(runtimeIds := a.runtimeIds, status := a.status, refreshBefore := a.refreshBefore)
  }

  lemma SubKeepsArguments(s: Store, e: Step, sub: SubId)
    requires Enabled(s, e) && sub in s.subs && !(e.Delete? && sub in e.subs)
    ensures sub in Apply(s, e).subs && SameArguments(Apply(s, e).subs[sub], s.subs[sub])
  {}

  lemma GrantsGrowInAStep(s: Store, e: Step)
    requires Enabled(s, e)
    ensures GrantsGrow(s.grants, Apply(s, e).grants)
  {
    assert e.Configure? || Apply(s, e).grants == s.grants;
  }

  /** Every MCP Events subscription has its grant. */
  ghost predicate Owned(s: Store) {
    forall u :: u in s.subs && !s.subs[u].webhook ==> s.subs[u].ownerGrant in s.grants
  }

  lemma OwnedAfter(s: Store, e: Step)
    requires Owned(s) && Enabled(s, e)
    ensures Owned(Apply(s, e))
  {}

  lemma {:induction false} RunOwned(steps: seq<Step>)
    ensures Owned(From(EMPTY, steps))
  {
    if steps != [] {
      var n := |steps| - 1;
      RunOwned(steps[..n]);
      if Enabled(From(EMPTY, steps[..n]), steps[n]) {
        OwnedAfter(From(EMPTY, steps[..n]), steps[n]);
      }
    }
  }

  lemma ReachableOwned(s: Store)
    requires Reachable(s)
    ensures Owned(s)
  {
    var steps :| From(EMPTY, steps) == s;
    RunOwned(steps);
  }

  /** Delivered, dead, or stopped for another reason than expiry. */
  predicate Done(row: Row) {
    !row.status.Pending? && !row.status.Sending? && !StoppedByExpiry(row)
  }

  lemma RowRemains(s: Store, e: Step, r: RowId)
    requires Recorded(s) && Enabled(s, e) && r in s.rows
    requires !(e.Delete? && (s.rows[r].sub in e.subs || s.rows[r].event in e.events))
    ensures r in Apply(s, e).rows
  {}

  lemma DoneStays(s: Store, e: Step, r: RowId)
    requires Recorded(s) && Enabled(s, e) && r in s.rows && Done(s.rows[r])
    requires !(e.Delete? && (s.rows[r].sub in e.subs || s.rows[r].event in e.events))
    ensures r in Apply(s, e).rows && Apply(s, e).rows[r] == s.rows[r]
  {
    RowRemains(s, e, r);
    RowMoves(s, e, r);
  }

  lemma {:induction false} SubContinues(s: Store, steps: seq<Step>, sub: SubId)
    requires sub in s.subs && KeepsSub(steps, sub)
    ensures var t := From(s, steps);
      sub in t.subs && SameArguments(t.subs[sub], s.subs[sub]) && GrantsGrow(s.grants, t.grants)
  {
    if steps != [] {
      var n := |steps| - 1;
      assert forall e <- steps[..n] :: e in steps;
      SubContinues(s, steps[..n], sub);
      assert steps[n] in steps;
      if Enabled(From(s, steps[..n]), steps[n]) {
        SubKeepsArguments(From(s, steps[..n]), steps[n], sub);
        GrantsGrowInAStep(From(s, steps[..n]), steps[n]);
      }
    }
  }

  /** An older event that is still there was there all the time, and its settled row with it. */
  lemma {:induction false} OlderContinues(s: Store, steps: seq<Step>, sub: SubId, m: EventId, since: int, r: RowId)
    requires Inv(s) && KeepsSub(steps, sub) && AllArriveFrom(steps, since)
    requires m in From(s, steps).events && From(s, steps).events[m].receivedAt < since
    ensures m in s.events && s.events[m] == From(s, steps).events[m].(fannedOut := s.events[m].fannedOut)
    ensures HandledBy(s, sub, m, r) && Done(s.rows[r]) ==> HandledBy(From(s, steps), sub, m, r)
    ensures HandledBy(s, sub, m, r) && Done(s.rows[r]) ==> From(s, steps).rows[r] == s.rows[r]
  {
    if steps != [] {
      var n := |steps| - 1;
      assert forall e <- steps[..n] :: e in steps;
      assert steps[n] in steps;
      var t, e := From(s, steps[..n]), steps[n];
      RunKeeps(s, steps[..n]);
      if Enabled(t, e) {
        OlderEventWasThere(t, e, m, since);
      }
      OlderContinues(s, steps[..n], sub, m, since, r);
      if Enabled(t, e) && HandledBy(s, sub, m, r) && Done(s.rows[r]) {
        DoneStays(t, e, r);
      }
    }
  }

  // ---- Cursors ----

  /**
   A refresh from the cursor, at or after an instant and after any steps: the subscription is not
   deleted meanwhile, and events that appear meanwhile were received at or after the cursor's time.
   */
  ghost predicate Resumes(s: Store, sub: SubId, since: int, at: int, steps: seq<Step>, e: Step) {
    KeepsSub(steps, sub) && AllArriveFrom(steps, since) && Enabled(From(s, steps), e) &&
    e.Backfill? && e.sub == sub && e.since == since && e.now >= at
  }

  /**
   The event is of the subscription's account, of one of its kinds and passes its filter, and the
   subscription's grant, not revoked, reaches the event's runtime. These are the parts of a match that no
   step can bring back: a refresh renews the status and the date and resolves the runtime anew, among
   the runtimes of the grant, and MCP Control can be turned on.
   */
  ghost predicate Concerns(s: Store, sub: SubId, m: EventId) {
    sub in s.subs && m in s.events && Admits(s.subs[sub], s.events[m]) &&
    Authorized(s, s.subs[sub], s.events[m].runtimeId)
  }

  /** Every event before an instant that concerns the subscription and is retained has been handled. */
  ghost predicate CaughtUp(s: Store, sub: SubId, since: int, at: int) {
    forall m :: Concerns(s, sub, m) && at - RETENTION <= s.events[m].receivedAt < since ==> Handled(s, sub, m)
  }

  /** No row of the subscription before the instant is waiting. */
  ghost predicate NoneWaitsBefore(s: Store, sub: SubId, since: int) {
    forall r :: Waiting(s, r, sub) ==> s.rows[r].event in s.events && since <= s.events[s.rows[r].event].receivedAt
  }

  /** What is deserved after a continuation concerned the subscription all the time. */
  lemma DeservedConcerned(s: Store, steps: seq<Step>, sub: SubId, m: EventId, now: int)
    requires Owned(s) && sub in s.subs && !s.subs[sub].webhook && KeepsSub(steps, sub) && m in s.events
    requires Deserved(From(s, steps), sub, m, now)
    requires s.events[m] == From(s, steps).events[m].(fannedOut := s.events[m].fannedOut)
    ensures Concerns(s, sub, m)
  {
    SubContinues(s, steps, sub);
    var t, g := From(s, steps), s.subs[sub].ownerGrant;
    assert Reaches(t.grants[g], s.events[m].runtimeId);
    forall key | key in s.subs[sub].filter
      ensures Field(s.events[m], key) == Some(s.subs[sub].filter[key])
    {
      assert Field(s.events[m], key) == Field(t.events[m], key);
    }
  }

  lemma OlderStaysHandled(s: Store, sub: SubId, since: int, at: int, steps: seq<Step>, e: Step, m: EventId)
    requires Inv(s) && Owned(s) && sub in s.subs && !s.subs[sub].webhook
    requires NoneWaitsBefore(s, sub, since) && CaughtUp(s, sub, since, at)
    requires Resumes(s, sub, since, at, steps, e)
    requires Deserved(From(s, steps), sub, m, e.now) && From(s, steps).events[m].receivedAt < since
    ensures Handled(From(s, steps), sub, m)
  {
    OlderContinues(s, steps, sub, m, since, 0);
    DeservedConcerned(s, steps, sub, m, e.now);
    var r :| HandledBy(s, sub, m, r);
    assert !Waiting(s, r, sub);
    OlderContinues(s, steps, sub, m, since, r);
  }

  lemma CaughtUpRecovers(s: Store, sub: SubId, since: int, at: int, steps: seq<Step>, e: Step)
    requires Inv(s) && Owned(s) && sub in s.subs && !s.subs[sub].webhook
    requires NoneWaitsBefore(s, sub, since) && CaughtUp(s, sub, since, at)
    requires Resumes(s, sub, since, at, steps, e)
    ensures Recovers(From(s, steps), e)
  {
    RunKeeps(s, steps);
    forall m | Deserved(From(s, steps), sub, m, e.now) && From(s, steps).events[m].receivedAt < since
      ensures Handled(From(s, steps), sub, m)
    {
      OlderStaysHandled(s, sub, since, at, steps, e, m);
    }
    RecoversIff(From(s, steps), e);
  }

  /** There are always new row ids for a set of pairs. */
  lemma {:induction false} FreshIds(used: set<RowId>, pairs: set<(SubId, EventId)>)
    returns (ids: map<RowId, (SubId, EventId)>)
    ensures ids.Keys !! used && ids.Values == pairs && OneToOne(ids)
  {
    if pairs == {} {
      ids := map[];
      assert forall p :: p !in ids.Values;
    } else {
      var p :| p in pairs;
      var rest := FreshIds(used, pairs - {p});
      var r := Unused(used + rest.Keys);
      ids := rest[r := p];
      forall q | q in pairs
        ensures q in ids.Values
      {
        if q == p {
          assert r in ids && ids[r] == q;
        } else {
          assert q in rest.Values;
          var x :| x in rest && rest[x] == q;
          assert x in ids && ids[x] == q;
        }
      }
      assert forall x :: x in rest ==> rest[x] in rest.Values;
    }
  }

  lemma {:induction false} Unused(used: set<RowId>) returns (r: RowId)
    ensures r !in used && forall x <- used :: x < r
  {
    if used == {} {
      r := 0;
    } else {
      var x :| x in used;
      var y := Unused(used - {x});
      assert used == (used - {x}) + {x};
      r := if y > x then y else x + 1;
    }
  }

  /** MCP Control is turned on for the runtime of the event. */
  function TurnOn(s: Store, m: EventId, now: int): Step
    requires m in s.events
  {
    Configure(now, s.grants, s.mcpOn + {s.events[m].runtimeId}, true)
  }

  /** The same request again; a runtime argument now resolves to the runtime of the event. */
  function AskAgain(s: Store, sub: SubId, m: EventId, now: int): Step
    requires sub in s.subs && m in s.events
  {
    var stored := s.subs[sub];
    Subscribe(now, sub, stored.(runtimeIds := if stored.allRuntimes then {} else {s.events[m].runtimeId}), None)
  }

  function Opened(s: Store, sub: SubId, m: EventId, now: int): Store
    requires sub in s.subs && m in s.events
  {
    var asked := AskAgain(s, sub, m, now).wanted;
    s.(subs := s.subs[sub := asked.(status := Active, refreshBefore := Some(now + RETENTION))],
       mcpOn := s.mcpOn + {s.events[m].runtimeId}, mcpEvents := true)
  }

  lemma OpenedByTwoSteps(s: Store, sub: SubId, m: EventId, now: int)
    requires Concerns(s, sub, m) && !s.subs[sub].webhook
    ensures From(s, [TurnOn(s, m, now), AskAgain(s, sub, m, now)]) == Opened(s, sub, m, now)
  {
    var a, b := TurnOn(s, m, now), AskAgain(s, sub, m, now);
    TwoSteps(s, a, b);
    var mid := s.(mcpOn := a.mcpOn, mcpEvents := true);
    assert Next(s, a) == mid;
    assert Requested(mid, sub, b.wanted) by {
      assert InScope(s.grants[b.wanted.ownerGrant], s.events[m].runtimeId);
    }
    assert Next(mid, b) == OnSubscribe(mid, sub, b.wanted, now, None);
    assert Lifetime(None) * SECOND == RETENTION;
  }

  lemma OpenedMatches(s: Store, sub: SubId, m: EventId, now: int)
    requires Concerns(s, sub, m)
    ensures var t := Opened(s, sub, m, now); Matches(t, t.subs[sub], s.events[m], now)
  {}

  lemma PassedOver(s: Store, sub: SubId, since: int, at: int, m: EventId)
    returns (steps: seq<Step>, e: Step)
    requires Inv(s) && Concerns(s, sub, m) && !s.subs[sub].webhook
    requires at - RETENTION <= s.events[m].receivedAt < since && !Handled(s, sub, m)
    ensures Resumes(s, sub, since, at, steps, e) && !Recovers(From(s, steps), e)
  {
    steps := [TurnOn(s, m, at), AskAgain(s, sub, m, at)];
    var t := Opened(s, sub, m, at);
    OpenedByTwoSteps(s, sub, m, at);
    OpenedMatches(s, sub, m, at);
    var ids := FreshIds(t.used, BackfillPairs(t, sub, since, at));
    e := Backfill(at, sub, since, ids);
    RunKeeps(s, steps);
    assert Deserved(t, sub, m, at);
    assert !Handled(t, sub, m) by {
      assert forall r :: HandledBy(t, sub, m, r) ==> HandledBy(s, sub, m, r);
    }
    RecoversIff(t, e);
  }

  lemma LoadedNoneWaitsBefore(s: Store, e: Step, now: int)
    requires Reachable(s) && Enabled(s, e) && e.LoadTask?
    requires C.Decode(CursorOf(Apply(s, e).tasks[e.task].snapshot), now).Some?
    ensures var u, c := Apply(s, e), Apply(s, e).tasks[e.task].snapshot;
      c.sub in u.subs && NoneWaitsBefore(u, c.sub, C.Decode(CursorOf(c), now).value)
  {
    var u, c := Apply(s, e), Apply(s, e).tasks[e.task].snapshot;
    forall r | Waiting(u, r, c.sub)
      ensures u.rows[r].event in u.events &&
        C.Decode(CursorOf(c), now).value <= u.events[u.rows[r].event].receivedAt
    {
      assert Waiting(s, r, c.sub);
      CursorIsBeforeWaitingRows(s, e, r, now);
    }
  }

  /**
   In every run, a cursor sent with a delivery of an MCP Events subscription is complete, that is every
   later refresh from it, after any steps, leaves every retained matching event handled, if and only
   if the subscription was caught up when the snapshot was loaded: every retained event before the
   cursor that concerns it had a row, and not one stopped for expiry.
   */
  lemma CursorIsCompleteIff(s: Store, load: Step, now: int, at: int)
    requires Reachable(s) && Enabled(s, load) && load.LoadTask?
    requires !s.subs[s.rows[s.tasks[load.task].row].sub].webhook
    requires C.Decode(CursorOf(Apply(s, load).tasks[load.task].snapshot), now).Some?
    ensures var u, c := Apply(s, load), Apply(s, load).tasks[load.task].snapshot;
      var since := C.Decode(CursorOf(c), now).value;
      (forall steps, e :: Resumes(u, c.sub, since, at, steps, e) ==> Recovers(From(u, steps), e)) <==>
      CaughtUp(u, c.sub, since, at)
  {
    var u, c := Apply(s, load), Apply(s, load).tasks[load.task].snapshot;
    var since := C.Decode(CursorOf(c), now).value;
    ReachableKeeps(s);
    StepKeeps(s, load);
    ReachableOwned(s);
    OwnedAfter(s, load);
    LoadedNoneWaitsBefore(s, load, now);
    if CaughtUp(u, c.sub, since, at) {
      forall steps, e | Resumes(u, c.sub, since, at, steps, e)
        ensures Recovers(From(u, steps), e)
      {
        CaughtUpRecovers(u, c.sub, since, at, steps, e);
      }
    } else {
      var m :| Concerns(u, c.sub, m) && at - RETENTION <= u.events[m].receivedAt < since && !Handled(u, c.sub, m);
      var steps, e := PassedOver(u, c.sub, since, at, m);
    }
  }

  // ---- A run in which an event is passed over ----

  const LATER_ARRIVAL := ARRIVAL.(key := "later", receivedAt := 1000)
  const BOTH := map[0 := ARRIVAL, 1 := LATER_ARRIVAL]
  const SECOND_ID: map<RowId, (SubId, EventId)> := map[0 := ("sub", 1)]

  /** Two events, of which only the later one has been fanned out. */
  const HALF := SUBSCRIBED.(events := map[0 := ARRIVAL, 1 := LATER_ARRIVAL.(fannedOut := Some(1000))],
    rows := map[0 := Row("sub", 1, Pending, 0, 1000, None, None, None, None)], used := {0})

  lemma BothAreReachable()
    ensures Reachable(SUBSCRIBED.(events := BOTH))
  {
    SubscribedIsReachable();
    ReachNext(SUBSCRIBED, Receive(1000, BOTH));
    assert SUBSCRIBED.events + BOTH == BOTH;
  }

  lemma HalfPairs()
    ensures FanOutPairs(SUBSCRIBED.(events := BOTH), {1}, 1000) == {("sub", 1)} && SECOND_ID.Values == {("sub", 1)}
  {
    assert Matches(SUBSCRIBED.(events := BOTH), Dated(MINUTE, Active), LATER_ARRIVAL, 1000);
    assert 0 in SECOND_ID && SECOND_ID[0] == ("sub", 1);
  }

  lemma HalfIsSpread()
    ensures OnFanOut(SUBSCRIBED.(events := BOTH), 1000, {1}, SECOND_ID) == HALF
  {
    var t := OnFanOut(SUBSCRIBED.(events := BOTH), 1000, {1}, SECOND_ID);
    assert t.events == HALF.events && t.rows == HALF.rows && t.used == HALF.used;
  }

  lemma HalfIsReachable()
    ensures Reachable(HALF)
  {
    BothAreReachable();
    HalfPairs();
    HalfIsSpread();
    var s, e := SUBSCRIBED.(events := BOTH), FanOut(1000, {1}, SECOND_ID);
    assert |{1}| == 1;
    assert Enabled(s, e);
    ReachNext(s, e);
  }

  const HELD_LATER := Row("sub", 1, Sending, 1, 1000 + LEASE, Some(1000 + LEASE), None, None, None)
  const SEEN_LATER := Snapshot(0, 1, "sub", Active, Some(MINUTE), true, true, 1000, Some(1000))
  const HELD := HALF.(rows := map[0 := HELD_LATER], tasks := map[1 := Won(0, 1)])
  const LOAD_LATER := LoadTask(1000, 1, Some(1000))
  const ISSUED := HELD.(tasks := map[1 := Loaded(1, SEEN_LATER)])

  lemma HeldIsReachable()
    ensures Reachable(HELD)
  {
    HalfIsReachable();
    ReachClaim(HALF, 0, 1, 1000);
    assert HELD == ClaimedOnce(HALF, 0, 1, 1000);
  }

  lemma IssuedIsReachable()
    ensures Reachable(HELD) && Enabled(HELD, LOAD_LATER) && Apply(HELD, LOAD_LATER) == ISSUED
    ensures C.Decode(CursorOf(SEEN_LATER), MINUTE) == Some(1000)
  {
    HeldIsReachable();
    assert Waiting(HELD, 0, "sub");
  }

  const NO_IDS: map<RowId, (SubId, EventId)> := map[]
  const LATE_FAN_OUT := FanOut(MINUTE, {0}, NO_IDS)
  const REFRESH := Subscribe(MINUTE, "sub", WANTED_SUB, None)
  const RESUME := Backfill(MINUTE, "sub", 1000, NO_IDS)
  const LATE := ISSUED.(events := ISSUED.events[0 := ARRIVAL.(fannedOut := Some(MINUTE))])
  const RESUMED := LATE.(subs := map["sub" := Dated(MINUTE + RETENTION, Active)])

  lemma NoLatePairs()
    ensures FanOutPairs(ISSUED, {0}, MINUTE) == {} && Covers(ISSUED, NO_IDS, {})
  {
    assert !Matches(ISSUED, Dated(MINUTE, Active), ARRIVAL, MINUTE);
    assert NO_IDS.Values == {};
  }

  lemma LateFanOutMarks()
    ensures OnFanOut(ISSUED, MINUTE, {0}, NO_IDS) == LATE
  {
    var t := OnFanOut(ISSUED, MINUTE, {0}, NO_IDS);
    assert t.events == LATE.events && t.rows == LATE.rows && t.used == LATE.used;
  }

  lemma LateFanOutFindsNothing()
    ensures Next(ISSUED, LATE_FAN_OUT) == LATE
  {
    NoLatePairs();
    LateFanOutMarks();
    assert |{0}| == 1;
    assert Enabled(ISSUED, LATE_FAN_OUT);
  }

  lemma RefreshesForADay()
    ensures Next(LATE, REFRESH) == RESUMED
  {
    assert Lifetime(None) * SECOND == RETENTION;
  }

  lemma ResumedStore()
    ensures From(ISSUED, [LATE_FAN_OUT, REFRESH]) == RESUMED
  {
    LateFanOutFindsNothing();
    RefreshesForADay();
    TwoSteps(ISSUED, LATE_FAN_OUT, REFRESH);
  }

  lemma ResumeFindsNothing()
    ensures Enabled(RESUMED, RESUME) && Apply(RESUMED, RESUME) == RESUMED
  {
    assert HasRow(RESUMED, "sub", 1) by {
      assert RESUMED.rows[0].event == 1;
    }
    assert BackfillPairs(RESUMED, "sub", 1000, MINUTE) == {};
    assert NO_IDS.Values == {};
    QuietBackfill(RESUMED, "sub", 1000, MINUTE);
  }

  /**
   The later of two events is delivered first, with its own receive time as the cursor. The earlier
   one is fanned out only after the subscription has expired, so it gets no row; and the refresh
   from the cursor passes it over, although it is retained and matches.
   */
  lemma EventCanBePassedOver()
    ensures Reachable(HELD) && Enabled(HELD, LOAD_LATER) && Apply(HELD, LOAD_LATER) == ISSUED
    ensures Resumes(ISSUED, "sub", 1000, MINUTE, [LATE_FAN_OUT, REFRESH], RESUME)
    ensures C.Decode(CursorOf(SEEN_LATER), MINUTE) == Some(1000)
    ensures Deserved(RESUMED, "sub", 0, MINUTE) && RESUMED.events[0].fannedOut.Some?
    ensures Enabled(RESUMED, RESUME) && !Handled(Apply(RESUMED, RESUME), "sub", 0)
  {
    IssuedIsReachable();
    ResumedStore();
    ResumeFindsNothing();
  }
}
