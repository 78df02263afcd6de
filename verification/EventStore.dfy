/**
 The delivery tables updated in place, one method for each statement or transaction of
 cloud/src/events/fanout.rs, delivery.rs, mcp_subscriptions.rs and webhooks.rs. Every method
 keeps the invariant of EventInvariant and is proved to be the corresponding step; fan-out
 and backfill number new rows one by one.
 */
module EventStore {
  import opened Prelude
  import opened EventModel
  import opened EventInvariant
  import opened EventStale

  /** The upsert keeps the invariant whatever it is given. */
  lemma UpsertKeeps(s: Store, id: SubId, wanted: Sub, now: int, ttlMs: Option<int>)
    requires Inv(s)
    ensures Inv(OnSubscribe(s, id, wanted, now, ttlMs))
  {}

  class Tables {
    var events: map<EventId, DomainEvent>
    var subs: map<SubId, Sub>
    var rows: map<RowId, Row>
    var used: set<RowId>
    var nextRow: RowId
    var grants: map<GrantId, Grant>
    var mcpOn: set<string>
    var mcpEvents: bool

    ghost predicate Valid()
      reads this
    {
      Inv(View()) && Numbered()
    }

    /** Row ids count up, so the next one is new. */
    ghost predicate Numbered()
      reads this
    {
      rows.Keys <= used && forall r <- used :: r < nextRow
    }

    /** The store these tables are; the workers' tasks live outside the database. */
    function View(): Store
      reads this
    {
      Store(events, subs, rows, used, map[], grants, mcpOn, mcpEvents)
    }

    constructor (mcpEvents: bool)
      ensures Valid() && View() == EMPTY.(mcpEvents := mcpEvents)
    {
      events, subs, rows, used, nextRow, grants, mcpOn := map[], map[], map[], {}, 0, map[], {};
      this.mcpEvents := mcpEvents;
    }

    /** Inserts one pending row with a new id for each pair. */
    method InsertPending(pairs: set<(SubId, EventId)>, now: int) returns (ids: map<RowId, (SubId, EventId)>)
      requires Numbered()
      modifies this`rows, this`used, this`nextRow
      ensures Numbered() && Covers(old(View()), ids, pairs)
      ensures rows == old(rows) + NewRows(ids, now) && used == old(used) + ids.Keys
    {
      var next;
      ids, next := Number(pairs, nextRow);
      rows := rows + NewRows(ids, now);
      used := used + ids.Keys;
      nextRow := next;
    }

    /** fan_out_pending: one pending row for each claimed event and matching subscription. */
    method FanOutPending(claimed: set<EventId>, now: int) returns (ids: map<RowId, (SubId, EventId)>)
      requires Valid() && claimed <= events.Keys && |claimed| <= FAN_OUT_BATCH
      requires forall m <- claimed :: events[m].fannedOut.None?
      modifies this`events, this`rows, this`used, this`nextRow
      ensures Valid()
      ensures var s := old(View());
        Covers(s, ids, FanOutPairs(s, claimed, now)) && View() == OnFanOut(s, now, claimed, ids)
    {
      ghost var s := View();
      ids := InsertPending(FanOutPairs(View(), claimed, now), now);
      events := map m | m in events :: if m in claimed then events[m].(fannedOut := Some(now)) else events[m];
      FanOutKeeps(s, now, claimed, ids);
    }

    /** claim: the UPDATE over the rows picked with FOR UPDATE SKIP LOCKED; nobody gets them again for a lease. */
    method ClaimDue(now: int, picked: set<RowId>)
      requires Valid() && |picked| <= CLAIM_BATCH && forall r <- picked :: Due(View(), r, now)
      modifies this`rows
      ensures Valid() && Leased(old(View()), View(), now, picked)
      ensures Claimed(old(View()), View(), now, picked)
    {
      ClaimKeeps(View(), now, picked);
      rows := map r | r in rows :: if r in picked then ClaimRow(rows[r], now) else rows[r];
    }

    /** finish: settles the row only while it is sending this attempt. */
    method FinishDelivery(c: Snapshot, action: Action, now: int) returns (settled: bool)
      requires Valid() && action.Finish? && GoodAction(c, action)
      modifies this`rows
      ensures Valid()
      ensures View() == OnFinish(old(View()), c, action, now) && settled == Holds(old(View()), c)
    {
      FinishKeeps(View(), c, action, now);
      settled := false;
      if c.row in rows && rows[c.row].attempts == c.attempts && rows[c.row].status.Sending? {
        settled := true;
        var before := rows[c.row];
        var http := before.lastStatus;
        if action.http.Some? {
          http := action.http;
        }
        var next := before.nextAt;
        if action.next.Some? {
          next := action.next.value;
        }
        var delivered := before.deliveredAt;
        if action.status.Delivered? {
          delivered := Some(now);
        }
        rows := rows[c.row := Row(before.sub, before.event, action.status, before.attempts, next, None, http,
                                  action.error, delivered)];
      }
    }

    /** stop_subscription: afterwards there is nothing left of it to stop, and nothing else has changed. */
    method StopSubscription(sub: SubId, to: SubStatus)
      requires Valid() && !to.Active?
      modifies this`subs, this`rows
      ensures Valid() && !CanStop(View(), sub) && StopsOnly(old(View()), View(), sub)
      ensures View() == OnStopSub(old(View()), sub, to)
    {
      StopKeeps(View(), sub, to);
      StopEnds(View(), sub, to);
      if sub in subs && subs[sub].status.Active? {
        subs := subs[sub := subs[sub].(status := to)];
      }
      var reason := SubscriptionInactive;
      if sub in subs && subs[sub].status.SubExpired? {
        reason := SubscriptionExpired;
      }
      rows := map r | r in rows ::
        if rows[r].sub == sub && rows[r].status.Pending?
        then rows[r].(status := Stopped, lease := None, lastError := Some(reason)) else rows[r];
    }

    /** subscribe: the upsert; the subscription matches by date for a minute at least and a day at most. */
    method UpsertSubscription(id: SubId, wanted: Sub, now: int, ttlMs: Option<int>)
      requires Valid()
      modifies this`subs
      ensures Valid() && id in subs && subs[id].status.Active? && subs[id].refreshBefore.Some?
      ensures now + 60 * SECOND <= subs[id].refreshBefore.value <= now + RETENTION
      ensures forall u :: u != id ==> (u in subs <==> u in old(subs)) && (u in subs ==> subs[u] == old(subs)[u])
      ensures id in old(subs) ==> subs[id].webhook == old(subs)[id].webhook && subs[id].account == old(subs)[id].account
      ensures View() == OnSubscribe(old(View()), id, wanted, now, ttlMs)
    {
      ghost var after := OnSubscribe(View(), id, wanted, now, ttlMs);
      UpsertKeeps(View(), id, wanted, now, ttlMs);
      var until := now + Lifetime(ttlMs) * SECOND;
      if id in subs {
        var row := subs[id];
        subs := subs[id := Sub(row.account, row.webhook, row.kinds, wanted.runtimeIds, wanted.allRuntimes,
                               Active, Some(until), row.ownerGrant, wanted.filter)];
      } else {
        subs := subs[id := Sub(wanted.account, false, wanted.kinds, wanted.runtimeIds, wanted.allRuntimes,
                               Active, Some(until), wanted.ownerGrant, wanted.filter)];
      }
      assert View() == after;
    }

    /** create_webhook under the account's lock. */
    method CreateAccountWebhook(id: SubId, account: nat, kinds: set<string>, runtimeIds: set<string>, allRuntimes: bool)
      returns (created: bool)
      requires Valid() && id !in subs
      modifies this`subs
      ensures Valid() && created == (|Webhooks(old(View()), account)| < MAX_WEBHOOKS_PER_ACCOUNT)
      ensures View() == OnCreateWebhook(old(View()), id, account, kinds, runtimeIds, allRuntimes)
    {
      StepKeeps(View(), CreateWebhook(0, id, account, kinds, runtimeIds, allRuntimes));
      var count := CountWebhooks(account);
      created := count < MAX_WEBHOOKS_PER_ACCOUNT;
      if created {
        subs := subs[id := NewWebhook(account, kinds, runtimeIds, allRuntimes)];
      }
    }

    method CountWebhooks(account: nat) returns (count: nat)
      ensures count == |Webhooks(View(), account)|
    {
      var todo := subs.Keys;
      count := 0;
      while todo != {}
        invariant todo <= subs.Keys
        invariant count == |Webhooks(View(), account) - todo|
        decreases todo
      {
        var u :| u in todo;
        ghost var counted := Webhooks(View(), account) - todo;
        todo := todo - {u};
        if subs[u].webhook && subs[u].account == account {
          assert Webhooks(View(), account) - todo == counted + {u};
          count := count + 1;
        } else {
          assert Webhooks(View(), account) - todo == counted;
        }
      }
      assert Webhooks(View(), account) - todo == Webhooks(View(), account);
    }

    /** test_webhook: the event and its row together. */
    method QueueTest(id: SubId, event: EventId, account: nat, runtimeId: string, key: string, now: int)
      returns (row: RowId)
      requires Valid() && id in subs && subs[id].webhook && event !in events
      requires forall m :: m in events ==> !(events[m].runtimeId == runtimeId && events[m].key == key)
      modifies this`events, this`rows, this`used, this`nextRow
      ensures Valid() && row !in old(used)
      ensures View() == OnTestWebhook(old(View()), id, event, TestEvent(account, runtimeId, key, now), row, now)
    {
      row := nextRow;
      StepKeeps(View(), TestWebhook(now, id, event, account, runtimeId, key, row));
      events := events[event := TestEvent(account, runtimeId, key, now)];
      rows := rows[row := Row(id, event, Pending, 0, now, None, None, None, None)];
      used := used + {row};
      nextRow := nextRow + 1;
    }

    /** backfill: the ON CONFLICT DO UPDATE arm for rows that exist, then the inserts. */
    method BackfillSubscription(sub: SubId, since: int, now: int) returns (ids: map<RowId, (SubId, EventId)>)
      requires Valid()
      modifies this`rows, this`used, this`nextRow
      ensures Valid()
      ensures var s := old(View());
        Covers(s, ids, BackfillPairs(s, sub, since, now)) && View() == OnBackfill(s, sub, since, now, ids)
    {
      var s := View();
      rows := map r | r in rows ::
        if rows[r].sub == sub && Wanted(s, sub, rows[r].event, since, now) && StoppedByExpiry(rows[r])
        then Requeue(rows[r], now) else rows[r];
      ids := InsertPending(BackfillPairs(s, sub, since, now), now);
      BackfillKeeps(s, sub, since, now, ids);
    }

    /** delete_owned: afterwards the owner has no such subscription, and nobody else's has changed. */
    method DeleteOwned(id: SubId, account: nat, grant: GrantId)
      requires Valid()
      modifies this`subs, this`rows
      ensures Valid() && !Owns(View(), id, account, grant)
      ensures id !in subs ==> forall r :: r in rows ==> rows[r].sub != id
      ensures forall u :: u != id ==> (u in subs <==> u in old(subs)) && (u in subs ==> subs[u] == old(subs)[u])
      ensures !Owns(old(View()), id, account, grant) ==> View() == old(View())
      ensures forall r :: r in old(rows) && old(rows)[r].sub != id ==> r in rows && rows[r] == old(rows)[r]
    {
      DeletionKeeps(View(), id);
      if id in subs && subs[id].account == account && !subs[id].webhook && subs[id].ownerGrant == grant {
        subs := subs - {id};
        rows := map r | r in rows && rows[r].sub != id :: rows[r];
      }
    }
  }

  predicate Owns(s: Store, id: SubId, account: nat, grant: GrantId) {
    id in s.subs && s.subs[id].account == account && !s.subs[id].webhook && s.subs[id].ownerGrant == grant
  }

  /** The picked rows are being sent, count one more attempt and are not due for a lease; the others are as before. */
  ghost predicate Leased(s: Store, t: Store, now: int, picked: set<RowId>) {
    t.rows.Keys == s.rows.Keys && picked <= s.rows.Keys &&
    (forall r :: r in picked ==> t.rows[r].status.Sending? && t.rows[r].attempts == s.rows[r].attempts + 1) &&
    (forall r, at :: r in picked && at < now + LEASE ==> !Due(t, r, at)) &&
    (forall r :: r in s.rows && r !in picked ==> t.rows[r] == s.rows[r])
  }

  /** One task for each picked row. */
  ghost function Picks(picked: set<RowId>): map<TaskId, RowId> {
    map r | r in picked :: r
  }

  /** A store without tasks, after a claim of some rows. */
  ghost predicate Claimed(s: Store, t: Store, now: int, picked: set<RowId>) {
    picked <= s.rows.Keys && t == OnClaim(s, now, Picks(picked)).(tasks := map[])
  }

  function ClaimedRows(s: Store, now: int, picked: set<RowId>): Store {
    s.(rows := map r | r in s.rows :: if r in picked then ClaimRow(s.rows[r], now) else s.rows[r])
  }

  lemma PicksAreThese(picked: set<RowId>)
    ensures Picks(picked).Values == picked && |Picks(picked)| == |picked|
  {
    assert forall r :: r in picked ==> r in Picks(picked) && Picks(picked)[r] == r;
    assert Picks(picked).Keys == picked;
  }

  lemma TasksDoNotMatter(s: Store)
    requires Inv(s)
    ensures Inv(s.(tasks := map[]))
  {}

  lemma ClaimIsStep(s: Store, now: int, picked: set<RowId>)
    requires s.tasks == map[] && |picked| <= CLAIM_BATCH && forall r <- picked :: Due(s, r, now)
    ensures var e, t := Claim(now, Picks(picked)), ClaimedRows(s, now, picked);
      Enabled(s, e) && Apply(s, e).(tasks := map[]) == t && Claimed(s, t, now, picked)
  {
    PicksAreThese(picked);
  }

  lemma ClaimLeases(s: Store, now: int, picked: set<RowId>)
    requires forall r <- picked :: Due(s, r, now)
    ensures Leased(s, ClaimedRows(s, now, picked), now, picked)
  {}

  lemma ClaimKeeps(s: Store, now: int, picked: set<RowId>)
    requires Inv(s) && s.tasks == map[] && |picked| <= CLAIM_BATCH && forall r <- picked :: Due(s, r, now)
    ensures var t := ClaimedRows(s, now, picked); Inv(t) && Claimed(s, t, now, picked) && Leased(s, t, now, picked)
  {
    ClaimIsStep(s, now, picked);
    ClaimLeases(s, now, picked);
    StepApplies(s, Claim(now, Picks(picked)));
  }

  /** An enabled step keeps the invariant of the tables. */
  lemma StepApplies(s: Store, e: Step)
    requires Inv(s) && Enabled(s, e)
    ensures Inv(Apply(s, e)) && Inv(Apply(s, e).(tasks := map[]))
  {
    StepKeeps(s, e);
    TasksDoNotMatter(Apply(s, e));
  }

  lemma BackfillIsStep(s: Store, sub: SubId, since: int, now: int, ids: map<RowId, (SubId, EventId)>)
    requires Covers(s, ids, BackfillPairs(s, sub, since, now))
    ensures var e := Backfill(now, sub, since, ids); Enabled(s, e) && Apply(s, e) == OnBackfill(s, sub, since, now, ids)
  {}

  lemma BackfillKeeps(s: Store, sub: SubId, since: int, now: int, ids: map<RowId, (SubId, EventId)>)
    requires Inv(s) && Covers(s, ids, BackfillPairs(s, sub, since, now))
    ensures Inv(OnBackfill(s, sub, since, now, ids))
  {
    BackfillIsStep(s, sub, since, now, ids);
    StepApplies(s, Backfill(now, sub, since, ids));
  }

  lemma DeletionKeeps(s: Store, id: SubId)
    requires Inv(s)
    ensures Inv(s.(subs := s.subs - {id}, rows := map r | r in s.rows && s.rows[r].sub != id :: s.rows[r]))
  {}

  lemma FinishKeeps(s: Store, c: Snapshot, a: Action, now: int)
    requires Inv(s) && a.Finish? && GoodAction(c, a)
    ensures Inv(OnFinish(s, c, a, now))
  {}

  /** Only the subscription, if it was active, and its pending rows differ. */
  ghost predicate StopsOnly(s: Store, t: Store, sub: SubId) {
    t.rows.Keys == s.rows.Keys && t.subs.Keys == s.subs.Keys && t.events == s.events &&
    (forall r :: r in s.rows && (s.rows[r].sub != sub || !s.rows[r].status.Pending?) ==> t.rows[r] == s.rows[r]) &&
    (forall u :: u in s.subs && (u != sub || !s.subs[u].status.Active?) ==> t.subs[u] == s.subs[u])
  }

  lemma StopKeeps(s: Store, sub: SubId, to: SubStatus)
    requires Inv(s) && !to.Active?
    ensures Inv(OnStopSub(s, sub, to))
  {}

  lemma StopEnds(s: Store, sub: SubId, to: SubStatus)
    requires !to.Active?
    ensures !CanStop(OnStopSub(s, sub, to), sub) && StopsOnly(s, OnStopSub(s, sub, to), sub)
  {}

  lemma FanOutKeeps(s: Store, now: int, claimed: set<EventId>, ids: map<RowId, (SubId, EventId)>)
    requires Inv(s) && claimed <= s.events.Keys && |claimed| <= FAN_OUT_BATCH
    requires (forall m <- claimed :: s.events[m].fannedOut.None?) && Covers(s, ids, FanOutPairs(s, claimed, now))
    ensures Inv(OnFanOut(s, now, claimed, ids))
  {
    StepKeeps(s, FanOut(now, claimed, ids));
  }

  /** One more fresh id keeps a batch one-to-one and adds one pair. */
  lemma ExtendBatch(ids: map<RowId, (SubId, EventId)>, r: RowId, p: (SubId, EventId))
    requires r !in ids && p !in ids.Values && OneToOne(ids)
    ensures ids[r := p].Values == ids.Values + {p} && OneToOne(ids[r := p])
  {
    var longer := ids[r := p];
    forall q | q in ids.Values + {p}
      ensures q in longer.Values
    {
      if q == p {
        assert longer[r] == p;
      } else {
        var a :| a in ids && ids[a] == q;
        assert longer[a] == q;
      }
    }
    forall a, b | a in longer && b in longer && longer[a] == longer[b]
      ensures a == b
    {
      assert a != r ==> ids[a] in ids.Values;
      assert b != r ==> ids[b] in ids.Values;
    }
  }

  /** Gives each pair one id of its own, counting up from first. */
  method Number(pairs: set<(SubId, EventId)>, first: nat) returns (ids: map<RowId, (SubId, EventId)>, next: nat)
    ensures ids.Values == pairs && OneToOne(ids) && first <= next
    ensures forall r :: r in ids ==> first <= r < next
  {
    var todo := pairs;
    ids, next := map[], first;
    while todo != {}
      invariant todo !! ids.Values && todo + ids.Values == pairs && OneToOne(ids)
      invariant first <= next && forall r :: r in ids ==> first <= r < next
      decreases todo
    {
      var p :| p in todo;
      todo := todo - {p};
      ExtendBatch(ids, next, p);
      ids, next := ids[next := p], next + 1;
    }
  }
}
