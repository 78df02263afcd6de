/**
 Delivery over whole runs: settled rows are final, leases keep claims apart, attempt
 numbers fence stale claimants, and a cursor never skips a waiting row.
 */
module EventDelivery {
  import opened Prelude
  import opened EventModel
  import opened EventInvariant
  import C = Cursor

  // ---- Retry policy ----

  lemma {:induction false} PowerIsLarge(n: nat)
    ensures Power(n) >= n + 1
  {
    if n > 0 {
      PowerIsLarge(n - 1);
    }
  }

  /** The wait starts at 5 s, doubles with each attempt until 15 minutes, and stays there. */
  lemma RetryDelayDoubles(attempts: int)
    ensures attempts <= 1 ==> RetryDelay(attempts) == 5
    ensures attempts >= 1 ==> RetryDelay(attempts + 1) == Min(2 * RetryDelay(attempts), 900)
    ensures 5 <= RetryDelay(attempts) <= 900
  {
    assert Power(0) == 1;
    assert Power(7) == 128 && Power(8) == 256;
    if attempts >= 9 {
      var n := if attempts - 1 > 16 then 16 else attempts - 1;
      PowerGrows(8, n);
      PowerGrows(8, if attempts > 16 then 16 else attempts);
    }
    PowerIsLarge(if attempts - 1 < 0 then 0 else if attempts - 1 > 16 then 16 else attempts - 1);
  }

  lemma {:induction false} PowerGrows(a: nat, b: nat)
    requires a <= b
    ensures Power(a) <= Power(b)
  {
    if a < b {
      PowerGrows(a, b - 1);
    }
  }

  // ---- Settled rows ----

  ghost predicate Final(row: Row) {
    row.status.Delivered? || row.status.Dead?
  }

  lemma FinalStays(s: Store, e: Step, r: RowId)
    requires Recorded(s) && Enabled(s, e) && r in s.rows && Final(s.rows[r]) && r in Apply(s, e).rows
    ensures Apply(s, e).rows[r] == s.rows[r]
  {
    RowMoves(s, e, r);
  }

  /** Over any continuation of any run a delivered or dead row never changes while it exists. */
  lemma {:induction false} FinalForEver(s: Store, steps: seq<Step>, r: RowId)
    requires Inv(s) && r in s.rows && Final(s.rows[r])
    ensures r in s.used && r in From(s, steps).used
    ensures r in From(s, steps).rows ==> From(s, steps).rows[r] == s.rows[r]
  {
    if steps != [] {
      var before, e := steps[..|steps| - 1], steps[|steps| - 1];
      FinalForEver(s, before, r);
      RunKeeps(s, before);
      var m := From(s, before);
      if Enabled(m, e) {
        UsedGrows(m, e);
        if r in Apply(m, e).rows {
          if r !in m.rows {
            DeletedForEver(m, e, r);
          } else {
            FinalStays(m, e, r);
          }
        }
      }
    }
  }

  // ---- Leases ----

  /** No step of the run claims or settles row r. */
  ghost predicate Undisturbed(s: Store, steps: seq<Step>, r: RowId) {
    forall i :: 0 <= i < |steps| ==>
      !Claims(steps[i], r) && !Settles(From(s, steps[..i]), steps[i], r)
  }

  lemma {:induction false} SendingStays(s: Store, steps: seq<Step>, r: RowId)
    requires Inv(s) && r in s.rows && s.rows[r].status.Sending? && Undisturbed(s, steps, r)
    ensures r in From(s, steps).used
    ensures r in From(s, steps).rows ==> From(s, steps).rows[r] == s.rows[r]
  {
    if steps != [] {
      var n := |steps| - 1;
      var before, e := steps[..n], steps[n];
      assert Undisturbed(s, before, r) by {
        assert forall i :: 0 <= i < n ==> before[i] == steps[i] && before[..i] == steps[..i];
      }
      SendingStays(s, before, r);
      RunKeeps(s, before);
      var m := From(s, before);
      assert !Claims(steps[n], r) && !Settles(From(s, steps[..n]), steps[n], r);
      if Enabled(m, e) {
        UsedGrows(m, e);
        if r in Apply(m, e).rows {
          if r !in m.rows {
            DeletedForEver(m, e, r);
          } else {
            RowMoves(m, e, r);
          }
        }
      }
    }
  }

  /**
   Two claims of one row with no settlement between them are at least 45 s apart, whatever
   any number of workers and refreshes do in between.
   */
  lemma ClaimsAreALeaseApart(s: Store, first: Step, between: seq<Step>, second: Step, r: RowId)
    requires Reachable(s) && Enabled(s, first) && Claims(first, r)
    requires Undisturbed(Apply(s, first), between, r)
    requires var m := From(Apply(s, first), between); Enabled(m, second) && Claims(second, r)
    ensures first.now + LEASE <= second.now
  {
    ReachableKeeps(s);
    StepKeeps(s, first);
    var t: TaskId :| t in first.winners && first.winners[t] == r;
    RowMoves(s, first, r);
    SendingStays(Apply(s, first), between, r);
    var m := From(Apply(s, first), between);
    var u: TaskId :| u in second.winners && second.winners[u] == r;
    assert Due(m, r, second.now);
  }

  // ---- Fencing ----

  ghost function ClaimCount(steps: seq<Step>, s: Store, r: RowId): nat {
    if steps == [] then 0
    else
      var before, e := steps[..|steps| - 1], steps[|steps| - 1];
      ClaimCount(before, s, r) + if Enabled(From(s, before), e) && Claims(e, r) then 1 else 0
  }

  ghost predicate NeverRequeued(s: Store, steps: seq<Step>, r: RowId) {
    forall i :: 0 <= i < |steps| ==> !Requeues(From(s, steps[..i]), steps[i], r)
  }

  /** Within one retry budget a row's attempt number counts its claims. */
  lemma {:induction false} AttemptsCountClaims(s: Store, steps: seq<Step>, r: RowId)
    requires Inv(s) && r in s.rows && NeverRequeued(s, steps, r)
    ensures r in From(s, steps).used
    ensures r in From(s, steps).rows ==> From(s, steps).rows[r].attempts == s.rows[r].attempts + ClaimCount(steps, s, r)
  {
    if steps != [] {
      var n := |steps| - 1;
      var before, e := steps[..n], steps[n];
      assert NeverRequeued(s, before, r) by {
        assert forall i :: 0 <= i < n ==> before[i] == steps[i] && before[..i] == steps[..i];
      }
      AttemptsCountClaims(s, before, r);
      RunKeeps(s, before);
      var m := From(s, before);
      assert !Requeues(From(s, steps[..n]), steps[n], r);
      if Enabled(m, e) {
        UsedGrows(m, e);
        if r in Apply(m, e).rows {
          if r !in m.rows {
            DeletedForEver(m, e, r);
          } else {
            RowMoves(m, e, r);
          }
        }
      }
    }
  }

  /**
   A worker that loaded its snapshot in state s can still settle the row later, within one
   retry budget, exactly when the row is still sending and nobody has claimed it since the
   snapshot was loaded.
   */
  lemma SettlesIffNotReclaimed(s: Store, c: Snapshot, steps: seq<Step>)
    requires Reachable(s) && c.row in s.rows && c.attempts == s.rows[c.row].attempts && NeverRequeued(s, steps, c.row)
    ensures var t := From(s, steps);
      Holds(t, c) <==> c.row in t.rows && t.rows[c.row].status.Sending? && ClaimCount(steps, s, c.row) == 0
  {
    ReachableKeeps(s);
    AttemptsCountClaims(s, steps, c.row);
  }

  /** The store after one worker claims row r for its task t. */
  function ClaimedOnce(s: Store, r: RowId, t: TaskId, now: int): Store
    requires r in s.rows
  {
    s.(rows := s.rows[r := ClaimRow(s.rows[r], now)], tasks := s.tasks[t := Won(r, s.rows[r].attempts + 1)])
  }

  lemma OneWinner(winners: map<TaskId, RowId>, t: TaskId, r: RowId)
    requires winners == map[t := r]
    ensures winners.Values == {r}
  {
    assert t in winners && winners[t] == r;
    assert forall v :: v in winners.Values ==> exists u :: u in winners && winners[u] == v;
  }

  lemma OnClaimOne(s: Store, r: RowId, t: TaskId, now: int)
    requires r in s.rows
    ensures OnClaim(s, now, map[t := r]) == ClaimedOnce(s, r, t, now)
  {
    var winners: map<TaskId, RowId> := map[t := r];
    OneWinner(winners, t, r);
    var u := OnClaim(s, now, winners);
    assert u.rows == s.rows[r := ClaimRow(s.rows[r], now)];
    assert u.tasks == s.tasks[t := Won(r, s.rows[r].attempts + 1)];
  }

  /** One worker claims one due row. */
  lemma ClaimOne(s: Store, r: RowId, t: TaskId, now: int)
    requires Due(s, r, now) && t !in s.tasks
    ensures Next(s, Claim(now, map[t := r])) == ClaimedOnce(s, r, t, now)
  {
    ClaimIsOnClaim(s, r, t, now);
    OnClaimOne(s, r, t, now);
  }

  lemma ClaimIsOnClaim(s: Store, r: RowId, t: TaskId, now: int)
    requires Due(s, r, now) && t !in s.tasks
    ensures Enabled(s, Claim(now, map[t := r])) && Next(s, Claim(now, map[t := r])) == OnClaim(s, now, map[t := r])
  {
    var winners: map<TaskId, RowId> := map[t := r];
    assert winners.Keys == {t};
    assert |winners| == 1;
    assert Enabled(s, Claim(now, winners));
  }

  lemma TwoSteps(s: Store, a: Step, b: Step)
    ensures From(s, [a, b]) == Next(Next(s, a), b)
  {
    assert [a, b][..1] == [a] && [a][..0] == [];
    assert From(s, []) == s;
    assert From(s, [a]) == Next(s, a);
  }

  /** The store after two workers claim the same row, the second when the first lease ends. */
  function ClaimedTwice(s: Store, r: RowId, one: TaskId, two: TaskId, now: int): Store
    requires r in s.rows
  {
    ClaimedOnce(ClaimedOnce(s, r, one, now), r, two, now + LEASE)
  }

  lemma ClaimTwice(s: Store, r: RowId, one: TaskId, two: TaskId, now: int)
    requires Due(s, r, now) && one !in s.tasks && two !in s.tasks && one != two
    ensures From(s, [Claim(now, map[one := r]), Claim(now + LEASE, map[two := r])]) == ClaimedTwice(s, r, one, two, now)
  {
    TwoSteps(s, Claim(now, map[one := r]), Claim(now + LEASE, map[two := r]));
    ClaimOne(s, r, one, now);
    ClaimOne(ClaimedOnce(s, r, one, now), r, two, now + LEASE);
  }

  lemma LoadOne(s: Store, r: RowId, t: TaskId, now: int, anchor: Option<int>)
    requires Recorded(s) && r in s.rows && s.rows[r].status.Sending? &&
      t in s.tasks && s.tasks[t].Won? && s.tasks[t].row == r
    requires IsAnchor(s, s.rows[r].sub, anchor)
    ensures Enabled(s, LoadTask(now, t, anchor))
    ensures var u := Apply(s, LoadTask(now, t, anchor));
      && u == s.(tasks := s.tasks[t := Loaded(s.tasks[t].granted, Load(s, r, anchor))])
      && Holds(u, Load(s, r, anchor)) && IsAnchor(u, s.rows[r].sub, anchor) && Recorded(u)
  {
    var u := Apply(s, LoadTask(now, t, anchor));
    assert forall q, v :: Waiting(u, q, v) == Waiting(s, q, v);
  }

  /**
   The fence is the attempt number the SELECT sees, not the one the claim wrote. From any
   state with a due row, let one worker claim it, a second claim it when the lease runs
   out, and only then the first load its snapshot: both now hold the row.
   */
  lemma LateLoadSharesTheFence(s: Store, r: RowId, one: TaskId, two: TaskId, now: int, anchor: Option<int>)
    requires Inv(s) && Due(s, r, now) && one !in s.tasks && two !in s.tasks && one != two
    requires IsAnchor(ClaimedTwice(s, r, one, two, now), s.rows[r].sub, anchor)
    ensures var m := From(s, [Claim(now, map[one := r]), Claim(now + LEASE, map[two := r])]);
      var loadOne, loadTwo := LoadTask(now + LEASE, one, anchor), LoadTask(now + LEASE, two, anchor);
      && Enabled(m, loadOne) && Enabled(Apply(m, loadOne), loadTwo)
      && var t := Apply(Apply(m, loadOne), loadTwo);
         t.tasks[one].Loaded? && t.tasks[two].Loaded? && t.tasks[one].snapshot.attempts == t.tasks[one].granted + 1 &&
         Holds(t, t.tasks[one].snapshot) && Holds(t, t.tasks[two].snapshot)
  {
    ClaimTwice(s, r, one, two, now);
    var m := ClaimedTwice(s, r, one, two, now);
    assert Recorded(m);
    LoadOne(m, r, one, now + LEASE, anchor);
    LoadOne(Apply(m, LoadTask(now + LEASE, one, anchor)), r, two, now + LEASE, anchor);
  }

  // ---- Cursors and replay ----

  /** The cursor put into a delivery body. */
  function CursorOf(c: Snapshot): C.Anchor {
    C.Encode(Coalesce(c.anchor, c.receivedAt))
  }

  /**
   In every run, a cursor sent with a delivery decodes to a time no later than the receive
   time of every row of that subscription that was waiting when the snapshot was loaded.
   */
  lemma CursorIsBeforeWaitingRows(s: Store, e: Step, q: RowId, now: int)
    requires Reachable(s) && Enabled(s, e) && e.LoadTask? && Waiting(s, q, s.rows[s.tasks[e.task].row].sub)
    ensures var c := Apply(s, e).tasks[e.task].snapshot;
      C.Decode(CursorOf(c), now).Some? ==>
      s.rows[q].event in s.events && C.Decode(CursorOf(c), now).value <= s.events[s.rows[q].event].receivedAt
  {
    ReachableKeeps(s);
    var c := Apply(s, e).tasks[e.task].snapshot;
    C.CursorRoundTrip(Coalesce(c.anchor, c.receivedAt), now);
  }

  /** Rows keep their subscription and event, and events their receive time, for ever. */
  ghost predicate SameOrigin(s: Store, t: Store, r: RowId)
    requires r in s.rows && s.rows[r].event in s.events
  {
    r in t.rows ==>
      t.rows[r].sub == s.rows[r].sub && t.rows[r].event == s.rows[r].event && t.rows[r].event in t.events &&
      t.events[t.rows[r].event].receivedAt == s.events[s.rows[r].event].receivedAt
  }

  lemma ReceiveTimesStay(s: Store, e: Step, m: EventId)
    requires Enabled(s, e) && m in s.events && m in Apply(s, e).events
    ensures Apply(s, e).events[m].receivedAt == s.events[m].receivedAt
  {}

  lemma {:induction false} OriginStays(s: Store, steps: seq<Step>, r: RowId)
    requires Inv(s) && r in s.rows
    ensures r in From(s, steps).used && SameOrigin(s, From(s, steps), r)
  {
    if steps != [] {
      var before, e := steps[..|steps| - 1], steps[|steps| - 1];
      OriginStays(s, before, r);
      RunKeeps(s, before);
      var m := From(s, before);
      if Enabled(m, e) {
        StepKeeps(m, e);
        UsedGrows(m, e);
        if r in Apply(m, e).rows {
          if r !in m.rows {
            DeletedForEver(m, e, r);
          } else {
            RowMoves(m, e, r);
            ReceiveTimesStay(m, e, m.rows[r].event);
          }
        }
      }
    }
  }

  /**
   Resuming from a cursor skips no row that was waiting: take any row waiting when a cursor was
   issued and any later run; if that row has been stopped for expiry and its event is still retained
   and still matches, then a refresh from the cursor queues it again with a fresh budget.
   */
  lemma RefreshResumesStoppedRows(s: Store, e: Step, steps: seq<Step>, refresh: Step, q: RowId, now: int)
    requires Reachable(s) && Enabled(s, e) && e.LoadTask? && Waiting(s, q, s.rows[s.tasks[e.task].row].sub)
    requires var t := From(Apply(s, e), steps);
      Enabled(t, refresh) && refresh.Backfill? && refresh.sub == s.rows[q].sub
    requires C.Decode(CursorOf(Apply(s, e).tasks[e.task].snapshot), now) == Some(refresh.since)
    requires var t := From(Apply(s, e), steps);
      q in t.rows && StoppedByExpiry(t.rows[q]) && refresh.sub in t.subs && t.rows[q].event in t.events
      && t.events[t.rows[q].event].receivedAt >= refresh.now - RETENTION
      && Matches(t, t.subs[refresh.sub], t.events[t.rows[q].event], refresh.now)
    ensures var t, u := From(Apply(s, e), steps), Apply(From(Apply(s, e), steps), refresh);
      q in u.rows && u.rows[q] == Requeue(t.rows[q], refresh.now) && Due(u, q, refresh.now)
  {
    ReachableKeeps(s);
    StepKeeps(s, e);
    CursorIsBeforeWaitingRows(s, e, q, now);
    OriginStays(Apply(s, e), steps, q);
    var t := From(Apply(s, e), steps);
    RunKeeps(Apply(s, e), steps);
    assert Wanted(t, refresh.sub, t.rows[q].event, refresh.since, refresh.now);
    assert Requeues(t, refresh, q);
    RefreshKeepsRows(t, refresh, q);
    RowMoves(t, refresh, q);
  }

  lemma RefreshKeepsRows(s: Store, e: Step, r: RowId)
    requires Recorded(s) && Enabled(s, e) && e.Backfill? && r in s.rows
    ensures r in Apply(s, e).rows && Apply(s, e).subs == s.subs && Apply(s, e).mcpEvents == s.mcpEvents
  {}

  /**
   A refresh leaves exactly the retained matching events queued or already handled: every
   one of them has a row that is not stopped for expiry; rows that are delivered, dead or
   stopped for another reason are untouched; and a second refresh at once does nothing.
   */
  lemma RefreshIsCompleteAndIdempotent(s: Store, e: Step)
    requires Reachable(s) && Enabled(s, e) && e.Backfill?
    ensures var t := Apply(s, e);
      && (forall m :: m in s.events && Wanted(s, e.sub, m, e.since, e.now) ==>
            exists r :: r in t.rows && t.rows[r].sub == e.sub && t.rows[r].event == m && !StoppedByExpiry(t.rows[r]))
      && (forall r :: r in s.rows ==> r in t.rows && (t.rows[r] != s.rows[r] ==> Requeues(s, e, r)))
      && (forall r :: r in s.rows && !StoppedByExpiry(s.rows[r]) ==> t.rows[r] == s.rows[r])
      && Enabled(t, SameRefresh(e)) && Apply(t, SameRefresh(e)) == t
  {
    ReachableKeeps(s);
    RefreshFrame(s, e);
    RefreshCovers(s, e);
    RefreshTwice(s, e);
  }

  lemma RefreshFrame(s: Store, e: Step)
    requires Inv(s) && Enabled(s, e) && e.Backfill?
    ensures forall r :: r in s.rows ==>
      r in Apply(s, e).rows && (Apply(s, e).rows[r] != s.rows[r] ==> Requeues(s, e, r))
  {
    forall r | r in s.rows
      ensures r in Apply(s, e).rows && (Apply(s, e).rows[r] != s.rows[r] ==> Requeues(s, e, r))
    {
      RefreshKeepsRows(s, e, r);
      RowMoves(s, e, r);
    }
  }

  lemma RefreshCovers(s: Store, e: Step)
    requires Inv(s) && Enabled(s, e) && e.Backfill?
    ensures forall m :: m in s.events && Wanted(s, e.sub, m, e.since, e.now) ==>
      exists r :: r in Apply(s, e).rows && Apply(s, e).rows[r].sub == e.sub && Apply(s, e).rows[r].event == m
                  && !StoppedByExpiry(Apply(s, e).rows[r])
  {
    var t := Apply(s, e);
    forall m | m in s.events && Wanted(s, e.sub, m, e.since, e.now)
      ensures exists r :: r in t.rows && t.rows[r].sub == e.sub && t.rows[r].event == m && !StoppedByExpiry(t.rows[r])
    {
      if HasRow(s, e.sub, m) {
        var r :| r in s.rows && s.rows[r].sub == e.sub && s.rows[r].event == m;
        RefreshKeepsRows(s, e, r);
        RowMoves(s, e, r);
        assert r in t.rows && !StoppedByExpiry(t.rows[r]);
      } else {
        assert (e.sub, m) in BackfillPairs(s, e.sub, e.since, e.now);
        assert (e.sub, m) in e.ids.Values;
        var r :| r in e.ids && e.ids[r] == (e.sub, m);
        assert t.rows[r] == NewRows(e.ids, e.now)[r];
      }
    }
  }

  /** The same refresh when no row is left to insert. */
  function SameRefresh(e: Step): Step
    requires e.Backfill?
  {
    Backfill(e.now, e.sub, e.since, map[])
  }

  lemma WantedDependsOnEvents(s: Store, t: Store, sub: SubId, m: EventId, since: int, now: int)
    requires t.subs == s.subs && t.events == s.events &&
      t.grants == s.grants && t.mcpOn == s.mcpOn && t.mcpEvents == s.mcpEvents
    ensures Wanted(t, sub, m, since, now) == Wanted(s, sub, m, since, now)
  {}

  lemma NothingLeftToQueue(s: Store, e: Step, m: EventId)
    requires Inv(s) && Enabled(s, e) && e.Backfill? && m in s.events && Wanted(s, e.sub, m, e.since, e.now)
    ensures HasRow(Apply(s, e), e.sub, m)
    ensures forall r :: r in Apply(s, e).rows && Apply(s, e).rows[r].sub == e.sub && Apply(s, e).rows[r].event == m ==>
      !StoppedByExpiry(Apply(s, e).rows[r])
  {
    RefreshCovers(s, e);
    StepKeeps(s, e);
    var t := Apply(s, e);
    var q :| q in t.rows && t.rows[q].sub == e.sub && t.rows[q].event == m && !StoppedByExpiry(t.rows[q]);
    assert OneRowEach(t);
  }

  lemma RefreshTwice(s: Store, e: Step)
    requires Inv(s) && Enabled(s, e) && e.Backfill?
    ensures Enabled(Apply(s, e), SameRefresh(e)) && Apply(Apply(s, e), SameRefresh(e)) == Apply(s, e)
  {
    var t := Apply(s, e);
    forall m
      ensures Wanted(t, e.sub, m, e.since, e.now) == Wanted(s, e.sub, m, e.since, e.now)
    {
      WantedDependsOnEvents(s, t, e.sub, m, e.since, e.now);
    }
    forall m | m in t.events && Wanted(t, e.sub, m, e.since, e.now)
      ensures HasRow(t, e.sub, m)
    {
      NothingLeftToQueue(s, e, m);
    }
    assert BackfillPairs(t, e.sub, e.since, e.now) == {};
    QuietRefresh(s, e);
  }

  lemma QuietBackfill(t: Store, sub: SubId, since: int, now: int)
    requires forall r :: r in t.rows && t.rows[r].sub == sub && Wanted(t, sub, t.rows[r].event, since, now) ==>
      !StoppedByExpiry(t.rows[r])
    ensures OnBackfill(t, sub, since, now, map[]) == t
  {
    var u := OnBackfill(t, sub, since, now, map[]);
    assert u.rows == t.rows && u.used == t.used;
  }

  lemma QuietRefresh(s: Store, e: Step)
    requires Inv(s) && Enabled(s, e) && e.Backfill?
    ensures OnBackfill(Apply(s, e), e.sub, e.since, e.now, map[]) == Apply(s, e)
  {
    var t := Apply(s, e);
    forall r | r in t.rows && t.rows[r].sub == e.sub && Wanted(t, e.sub, t.rows[r].event, e.since, e.now)
      ensures !StoppedByExpiry(t.rows[r])
    {
      WantedDependsOnEvents(s, t, e.sub, t.rows[r].event, e.since, e.now);
      NothingLeftToQueue(s, e, t.rows[r].event);
    }
    QuietBackfill(t, e.sub, e.since, e.now);
  }

  // ---- Subscriptions ----

  /** Only its creation makes a webhook, and nothing moves one to another account. */
  lemma WebhooksAreCreated(s: Store, e: Step, u: SubId)
    requires Enabled(s, e) && !e.CreateWebhook? && u in Apply(s, e).subs && Apply(s, e).subs[u].webhook
    ensures u in s.subs && s.subs[u].webhook && s.subs[u].account == Apply(s, e).subs[u].account
  {}

  lemma CreationKeepsLimit(s: Store, id: SubId, hook: Sub, account: nat)
    requires id !in s.subs && hook.webhook && |Webhooks(s, hook.account)| < MAX_WEBHOOKS_PER_ACCOUNT
    requires |Webhooks(s, account)| <= MAX_WEBHOOKS_PER_ACCOUNT
    ensures |Webhooks(s.(subs := s.subs[id := hook]), account)| <= MAX_WEBHOOKS_PER_ACCOUNT
  {
    var before, after := Webhooks(s, account), Webhooks(s.(subs := s.subs[id := hook]), account);
    assert after == if hook.account == account then before + {id} else before;
  }

  lemma StepKeepsWebhookLimit(s: Store, e: Step, account: nat)
    requires Enabled(s, e) && |Webhooks(s, account)| <= MAX_WEBHOOKS_PER_ACCOUNT
    ensures |Webhooks(Apply(s, e), account)| <= MAX_WEBHOOKS_PER_ACCOUNT
  {
    if e.CreateWebhook? {
      if |Webhooks(s, e.account)| < MAX_WEBHOOKS_PER_ACCOUNT {
        CreationKeepsLimit(s, e.sub, NewWebhook(e.account, e.kinds, e.runtimeIds, e.allRuntimes), account);
      }
    } else {
      var before, after := Webhooks(s, account), Webhooks(Apply(s, e), account);
      forall u | u in after
        ensures u in before
      {
        WebhooksAreCreated(s, e, u);
      }
      SubsetCardinality(after, before);
    }
  }

  /** In every run an account has at most 20 webhooks. */
  lemma {:induction false} AtMostTwentyWebhooks(steps: seq<Step>, account: nat)
    ensures |Webhooks(From(EMPTY, steps), account)| <= 20
  {
    if steps == [] {
      assert Webhooks(EMPTY, account) == {};
    } else {
      AtMostTwentyWebhooks(steps[..|steps| - 1], account);
      var s := From(EMPTY, steps[..|steps| - 1]);
      if Enabled(s, steps[|steps| - 1]) {
        StepKeepsWebhookLimit(s, steps[|steps| - 1], account);
      }
    }
  }
}
