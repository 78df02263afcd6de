/** post_domain_events over the delivery tables, updated in place. */
module IngestStore {
  import opened EventModel
  import opened EventInvariant
  import opened EventStore
  import opened Ingest

  class Intake {
    const tables: Tables
    var nextId: nat

    ghost predicate Valid()
      reads this, tables
    {
      tables.Valid() && UniqueKeys(tables.events) && forall m :: m in tables.events ==> m < nextId
    }

    constructor (mcpEvents: bool)
      ensures Valid() && tables.View() == EMPTY.(mcpEvents := mcpEvents) && fresh(tables)
    {
      tables := new Tables(mcpEvents);
      nextId := 0;
    }

    /** validate_batch: only an empty or oversized batch fails as a whole. */
    static method ValidateBatch(batch: seq<Input>, latest: int)
      returns (ok: bool, valid: seq<Input>, rejected: seq<(string, string)>)
      ensures ok <==> 1 <= |batch| <= MAX_BATCH_EVENTS
      ensures ok ==> valid == Ingest.Valid(batch, latest) && rejected == Rejected(batch, latest)
    {
      valid, rejected := [], [];
      ok := 1 <= |batch| <= MAX_BATCH_EVENTS;
      if !ok {
        return;
      }
      for i := 0 to |batch|
        invariant valid == Ingest.Valid(batch[..i], latest) && rejected == Rejected(batch[..i], latest)
      {
        var event := batch[i];
        var fault := Fault(event, latest);
        if fault.None? {
          valid := valid + [event];
        } else {
          rejected := rejected + [(Shown(event.eventId), fault.value)];
        }
        assert batch[..i + 1][..i] == batch[..i];
      }
      assert batch[..|batch|] == batch;
    }

    /** The first of each lower-cased event id. */
    static method Unique(valid: seq<Input>) returns (unique: seq<Input>)
      ensures unique == Firsts(valid)
    {
      var seen: set<string> := {};
      unique := [];
      for i := 0 to |valid|
        invariant unique == Firsts(valid[..i]) && seen == Keys(valid[..i])
      {
        var event := valid[i];
        assert valid[..i + 1][..i] == valid[..i];
        LastKey(valid[..i + 1]);
        if Key(event) !in seen {
          unique := unique + [event];
          seen := seen + {Key(event)};
        }
      }
      assert valid[..|valid|] == valid;
    }

    /** The events whose id is not stored for the runtime. */
    static method Unstored(unique: seq<Input>, stored: set<string>) returns (added: seq<Input>)
      ensures added == Fresh(unique, stored)
    {
      added := [];
      for i := 0 to |unique|
        invariant added == Fresh(unique[..i], stored)
      {
        assert unique[..i + 1][..i] == unique[..i];
        if Key(unique[i]) !in stored {
          added := added + [unique[i]];
        }
      }
      assert unique[..|unique|] == unique;
    }

    /** insert_events: the ids the table already holds for a runtime decide what is inserted. */
    method InsertEvents(runtime: string, account: nat, unique: seq<Input>, now: int) returns (accepted: nat)
      requires Valid() && |unique| == |Keys(unique)|
      modifies this`nextId, tables`events
      ensures Valid()
      ensures var s := old(tables.View()); var added := Fresh(unique, Stored(s.events, runtime));
        accepted == |added| &&
        tables.View() == s.(events := s.events + Arrivals(added, old(nextId), runtime, account, now))
    {
      var stored := Stored(tables.events, runtime);
      var added := Unstored(unique, stored);
      FreshHasTheKeys(unique, stored);
      IntakeKeeps(tables.View(), added, nextId, runtime, account, now);
      accepted := |added|;
      tables.events := tables.events + Arrivals(added, nextId, runtime, account, now);
      nextId := nextId + |added|;
    }

    /** The events a fan-out takes: unmarked ones, all of them or a full batch. */
    method PickUnmarked() returns (claimed: set<EventId>)
      ensures Unmarked(tables.events, claimed) && |claimed| <= FAN_OUT_BATCH
      ensures |claimed| == FAN_OUT_BATCH ||
        forall m :: m in tables.events && tables.events[m].fannedOut.None? ==> m in claimed
    {
      claimed := {};
      var todo := tables.events.Keys;
      while todo != {} && |claimed| < FAN_OUT_BATCH
        invariant todo <= tables.events.Keys && claimed !! todo
        invariant Unmarked(tables.events, claimed) && |claimed| <= FAN_OUT_BATCH
        invariant forall m :: m in tables.events && tables.events[m].fannedOut.None? ==> m in claimed + todo
        decreases todo
      {
        var m :| m in todo;
        todo := todo - {m};
        if tables.events[m].fannedOut.None? {
          claimed := claimed + {m};
        }
      }
    }

    /** active_subscription_count. */
    method CountActive(account: nat, runtime: string, now: int) returns (count: nat)
      ensures count == |ActiveFor(tables.View(), account, runtime, now)|
    {
      var s := tables.View();
      ghost var all := ActiveFor(s, account, runtime, now);
      var todo := s.subs.Keys;
      count := 0;
      while todo != {}
        invariant todo <= s.subs.Keys && count == |all - todo|
        decreases todo
      {
        var u :| u in todo;
        ghost var counted := all - todo;
        todo := todo - {u};
        if Counts(s, s.subs[u], account, runtime, now) {
          assert all - todo == counted + {u};
          count := count + 1;
        } else {
          assert all - todo == counted;
        }
      }
      assert all - todo == all;
    }

    /**
     post_domain_events for an authenticated runtime session, reading the clock when it checks
     the batch, stores it, fans out and counts.
     */
    method PostDomainEvents(session: string, owned: bool, runtime: string, account: nat, batch: seq<Input>,
      checked: int, stored: int, fanned: int, counted: int)
      returns (reply: Ingest.Reply, ghost claimed: set<EventId>, ghost ids: map<RowId, (SubId, EventId)>)
      requires Valid()
      modifies this`nextId, tables
      ensures Valid()
      ensures session != runtime ==> reply == NotOwned
      ensures session == runtime && !(1 <= |batch| <= MAX_BATCH_EVENTS) ==> reply == BadBatch
      ensures session == runtime && 1 <= |batch| <= MAX_BATCH_EVENTS && !owned ==> reply == NotOwned
      ensures !reply.Posted? ==> tables.View() == old(tables.View())
      ensures reply.Posted? <==> session == runtime && 1 <= |batch| <= MAX_BATCH_EVENTS && owned
      ensures reply.Posted? ==>
        reply.response == Answer(old(tables.events), runtime, batch, checked + TOLERANCE) &&
        Posts(old(tables.View()), tables.View(), NewEvents(old(tables.events), runtime, batch, checked + TOLERANCE),
              old(nextId), runtime, account, stored, fanned, claimed, ids) &&
        reply.active == |ActiveFor(tables.View(), account, runtime, counted)|
    {
      claimed, ids := {}, map[];
      if session != runtime {
        return NotOwned, claimed, ids;
      }
      var ok, valid, rejected := ValidateBatch(batch, checked + TOLERANCE);
      if !ok {
        return BadBatch, claimed, ids;
      }
      if !owned {
        return NotOwned, claimed, ids;
      }
      var unique := Unique(valid);
      FirstsHaveTheKeys(valid);
      var repeated := |valid| - |unique|;
      var accepted := InsertEvents(runtime, account, unique, stored);
      if accepted > 0 {
        claimed, ids := FanOutNew(fanned);
      }
      var active := CountActive(account, runtime, counted);
      reply := Posted(Response(accepted, |unique| - accepted + repeated, rejected), active);
    }

    /** The fan-out that follows an accepted batch. */
    method FanOutNew(now: int) returns (claimed: set<EventId>, ids: map<RowId, (SubId, EventId)>)
      requires Valid()
      modifies tables
      ensures Valid() && FansOut(old(tables.View()), tables.View(), now, claimed, ids)
    {
      claimed := PickUnmarked();
      ids := tables.FanOutPending(claimed, now);
    }
  }

  ghost predicate Unmarked(events: Table, claimed: set<EventId>) {
    claimed <= events.Keys && forall m <- claimed :: events[m].fannedOut.None?
  }

  /** t is s after a fan-out of unmarked events: all of them, or a full batch. */
  ghost predicate FansOut(s: Store, t: Store, now: int, claimed: set<EventId>, ids: map<RowId, (SubId, EventId)>) {
    Unmarked(s.events, claimed) &&
    (|claimed| == FAN_OUT_BATCH || forall m :: m in s.events && s.events[m].fannedOut.None? ==> m in claimed) &&
    Covers(s, ids, FanOutPairs(s, claimed, now)) && t == OnFanOut(s, now, claimed, ids)
  }

  function WithEvents(s: Store, arrived: Table): Store {
    s.(events := s.events + arrived)
  }

  /** t is s with the new events stored and, if there are any, a fan-out after it. */
  ghost predicate Posts(s: Store, t: Store, added: seq<Input>, first: nat, runtime: string, account: nat,
    stored: int, fanned: int, claimed: set<EventId>, ids: map<RowId, (SubId, EventId)>)
  {
    var mid := WithEvents(s, Arrivals(added, first, runtime, account, stored));
    if added == [] then t == mid else FansOut(mid, t, fanned, claimed, ids)
  }

  lemma IntakeKeeps(s: Store, added: seq<Input>, first: nat, runtime: string, account: nat, now: int)
    requires Inv(s) && UniqueKeys(s.events) && (forall m :: m in s.events ==> m < first)
    requires |added| == |Keys(added)| && Keys(added) !! Stored(s.events, runtime)
    ensures var t := WithEvents(s, Arrivals(added, first, runtime, account, now));
      Inv(t) && UniqueKeys(t.events) && forall m :: m in t.events ==> m < first + |added|
  {
    var arrived := Arrivals(added, first, runtime, account, now);
    ReceiptKeeps(s, arrived, now);
    AddingKeepsKeysUnique(s.events, added, first, runtime, account, now);
  }

  lemma ReceiptKeeps(s: Store, arrived: Table, now: int)
    requires Inv(s) && arrived.Keys !! s.events.Keys
    ensures Inv(WithEvents(s, arrived))
  {
    StepKeeps(s, Receive(now, arrived));
  }

  lemma FannedOutHasRow(s: Store, t: Store, now: int, claimed: set<EventId>, ids: map<RowId, (SubId, EventId)>,
    m: EventId, u: SubId)
    requires Recorded(s) && FansOut(s, t, now, claimed, ids) && m in claimed && u in s.subs
    requires s.events[m].receivedAt > now - RETENTION && Matches(s, s.subs[u], s.events[m], now)
    ensures HasRow(t, u, m)
  {
    if HasRow(s, u, m) {
      var r :| r in s.rows && s.rows[r].sub == u && s.rows[r].event == m;
      assert r in s.used;
      assert t.rows[r] == s.rows[r];
    } else {
      assert (u, m) in FanOutPairs(s, claimed, now);
      var r :| r in ids && ids[r] == (u, m);
      assert t.rows[r] == NewRows(ids, now)[r];
    }
  }

  lemma ArrivalsMatchAlike(s: Store, arrived: Table, m: EventId, u: SubId, now: int)
    requires Inv(s) && m in arrived && u in s.subs && Matches(s, s.subs[u], arrived[m], now)
    ensures var mid := WithEvents(s, arrived);
      Recorded(mid) && mid.events[m] == arrived[m] && Matches(mid, mid.subs[u], mid.events[m], now)
  {}

  lemma NewEventIsQueued(s: Store, t: Store, arrived: Table, now: int, claimed: set<EventId>,
    ids: map<RowId, (SubId, EventId)>, m: EventId, u: SubId)
    requires Inv(s) && FansOut(WithEvents(s, arrived), t, now, claimed, ids) && |claimed| < FAN_OUT_BATCH
    requires m in arrived && arrived[m].fannedOut.None? && arrived[m].receivedAt > now - RETENTION
    requires u in s.subs && Matches(s, s.subs[u], arrived[m], now)
    ensures HasRow(t, u, m)
  {
    ArrivalsMatchAlike(s, arrived, m, u, now);
    FannedOutHasRow(WithEvents(s, arrived), t, now, claimed, ids, m, u);
  }

  /** With room in the batch, every new event is queued at once for each subscription that matches it. */
  lemma NewEventsAreQueued(s: Store, t: Store, added: seq<Input>, first: nat, runtime: string, account: nat,
    stored: int, fanned: int, claimed: set<EventId>, ids: map<RowId, (SubId, EventId)>, i: nat, u: SubId)
    requires Inv(s) && Posts(s, t, added, first, runtime, account, stored, fanned, claimed, ids) && i < |added|
    requires |claimed| < FAN_OUT_BATCH && stored > fanned - RETENTION
    requires u in s.subs && Matches(s, s.subs[u], RowOf(added[i], runtime, account, stored), fanned)
    ensures HasRow(t, u, first + i)
  {
    PostingFansOut(s, t, added, first, runtime, account, stored, fanned, claimed, ids);
    NewEventIsQueued(s, t, Arrivals(added, first, runtime, account, stored), fanned, claimed, ids, first + i, u);
  }

  lemma PostingFansOut(s: Store, t: Store, added: seq<Input>, first: nat, runtime: string, account: nat,
    stored: int, fanned: int, claimed: set<EventId>, ids: map<RowId, (SubId, EventId)>)
    requires Posts(s, t, added, first, runtime, account, stored, fanned, claimed, ids) && added != []
    ensures FansOut(WithEvents(s, Arrivals(added, first, runtime, account, stored)), t, fanned, claimed, ids)
  {}
}
