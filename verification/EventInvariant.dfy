/** What every run of the delivery store keeps, and the only ways one row can change. */
module EventInvariant {
  import opened EventModel

  // ---- Runs ----

  ghost function Next(s: Store, e: Step): Store {
    if Enabled(s, e) then Apply(s, e) else s
  }

  ghost function From(s: Store, steps: seq<Step>): Store {
    if steps == [] then s else Next(From(s, steps[..|steps| - 1]), steps[|steps| - 1])
  }

  ghost predicate Reachable(s: Store) {
    exists steps :: From(EMPTY, steps) == s
  }

  // ---- Invariant ----

  ghost predicate Recorded(s: Store) {
    s.rows.Keys <= s.used &&
    forall r :: r in s.rows ==> s.rows[r].sub in s.subs && s.rows[r].event in s.events
  }

  /** At most one delivery row for each subscription and event. */
  ghost predicate OneRowEach(s: Store) {
    forall r, q ::
      r in s.rows && q in s.rows && s.rows[r].sub == s.rows[q].sub && s.rows[r].event == s.rows[q].event ==> r == q
  }

  ghost predicate WithinBudget(s: Store) {
    forall r :: r in s.rows && s.rows[r].status.Pending? ==> s.rows[r].attempts < MAX_ATTEMPTS
  }

  ghost predicate GoodAction(c: Snapshot, a: Action) {
    a.Finish? ==> !a.status.Sending? && (a.status.Pending? ==> c.attempts < MAX_ATTEMPTS)
  }

  ghost predicate Planned(s: Store) {
    forall t :: t in s.tasks && s.tasks[t].Acting? ==> forall a <- s.tasks[t].todo :: GoodAction(s.tasks[t].snapshot, a)
  }

  ghost predicate Inv(s: Store) {
    Recorded(s) && OneRowEach(s) && WithinBudget(s) && Planned(s)
  }

  // ---- How one row moves ----

  ghost predicate Claims(e: Step, r: RowId) {
    e.Claim? && r in e.winners.Values
  }

  /** The statement that settles row r: its task still holds it. */
  ghost predicate Settles(s: Store, e: Step, r: RowId) {
    Enabled(s, e) && e.Act? && s.tasks[e.task].todo[0].Finish? &&
    s.tasks[e.task].snapshot.row == r && Holds(s, s.tasks[e.task].snapshot)
  }

  ghost predicate Requeues(s: Store, e: Step, r: RowId) {
    e.Backfill? && r in s.rows && s.rows[r].sub == e.sub &&
    StoppedByExpiry(s.rows[r]) && Wanted(s, e.sub, s.rows[r].event, e.since, e.now)
  }

  /** stop_subscription reaches a pending row of the subscription. */
  ghost predicate Halts(s: Store, e: Step, r: RowId) {
    Enabled(s, e) && e.Act? && s.tasks[e.task].todo[0].StopSub? && r in s.rows && s.rows[r].status.Pending?
    && s.rows[r].sub == s.tasks[e.task].snapshot.sub
  }

  /** A row that survives a step is unchanged, or moved in one of four ways. */
  ghost predicate Moved(s: Store, e: Step, r: RowId, a: Row, b: Row) {
    && b.sub == a.sub && b.event == a.event
    && (b != a ==> Claims(e, r) || Settles(s, e, r) || Halts(s, e, r) || Requeues(s, e, r))
    && (Claims(e, r) ==> b == ClaimRow(a, e.now) && (a.status.Pending? || a.status.Sending?) && a.nextAt <= e.now)
    && (Settles(s, e, r) ==> b == FinishRow(a, s.tasks[e.task].todo[0], e.now))
    && (Halts(s, e, r) ==> b.status.Stopped? && b.attempts == a.attempts)
    && (Requeues(s, e, r) ==> b == Requeue(a, e.now))
  }

  lemma RowMovesInAct(s: Store, e: Step, r: RowId)
    requires Enabled(s, e) && e.Act? && r in s.rows && r in Apply(s, e).rows
    ensures Moved(s, e, r, s.rows[r], Apply(s, e).rows[r])
  {
    var t := s.tasks[e.task];
    var done := s.(tasks := s.tasks[e.task := t.(todo := t.todo[1..])]);
    if t.todo[0].Finish? {
      assert Apply(s, e) == OnFinish(done, t.snapshot, t.todo[0], e.now);
      assert Holds(done, t.snapshot) == Holds(s, t.snapshot);
    } else {
      assert Apply(s, e) == OnStopSub(done, t.snapshot.sub, t.todo[0].to);
    }
  }

  lemma RowMovesInClaim(s: Store, e: Step, r: RowId)
    requires Enabled(s, e) && e.Claim? && r in s.rows
    ensures Moved(s, e, r, s.rows[r], Apply(s, e).rows[r])
  {
    if r in e.winners.Values {
      var t :| t in e.winners && e.winners[t] == r;
    }
  }

  lemma RowMovesInInsert(s: Store, e: Step, r: RowId)
    requires Recorded(s) && Enabled(s, e) && (e.FanOut? || e.Backfill?) && r in s.rows
    ensures Moved(s, e, r, s.rows[r], Apply(s, e).rows[r])
  {
    assert r in s.used;
  }

  lemma RowMoves(s: Store, e: Step, r: RowId)
    requires Recorded(s) && Enabled(s, e) && r in s.rows && r in Apply(s, e).rows
    ensures Moved(s, e, r, s.rows[r], Apply(s, e).rows[r])
  {
    if e.Claim? {
      RowMovesInClaim(s, e, r);
    } else if e.FanOut? || e.Backfill? {
      RowMovesInInsert(s, e, r);
    } else if e.Act? {
      RowMovesInAct(s, e, r);
    }
  }

  /** A deleted row never comes back. */
  lemma DeletedForEver(s: Store, e: Step, r: RowId)
    requires Recorded(s) && Enabled(s, e) && r in s.used && r !in s.rows
    ensures r !in Apply(s, e).rows
  {}

  lemma UsedGrows(s: Store, e: Step)
    requires Enabled(s, e)
    ensures s.used <= Apply(s, e).used
  {}

  // ---- Preservation ----

  /** A row appears by a fan-out, a backfill or a webhook test. */
  lemma InsertedBy(s: Store, e: Step, r: RowId)
    requires Enabled(s, e) && r in Apply(s, e).rows && r !in s.rows
    ensures e.FanOut? || e.Backfill? || e.TestWebhook?
    ensures e.FanOut? || e.Backfill? ==>
      r in e.ids && r !in s.used && Apply(s, e).rows[r] == NewRows(e.ids, e.now)[r]
    ensures e.TestWebhook? ==>
      r == e.row && r !in s.used && Apply(s, e).rows[r].sub == e.sub && Apply(s, e).rows[r].event == e.event
  {}

  lemma InsertedAreRecorded(s: Store, e: Step, r: RowId)
    requires Enabled(s, e) && (e.FanOut? || e.Backfill?) && r in e.ids
    ensures e.ids[r].0 in s.subs && e.ids[r].1 in s.events && !HasRow(s, e.ids[r].0, e.ids[r].1)
  {
    assert e.ids[r] in e.ids.Values;
  }

  lemma OldRowsStayRecorded(s: Store, e: Step, r: RowId)
    requires Recorded(s) && Enabled(s, e) && r in s.rows && r in Apply(s, e).rows
    ensures Apply(s, e).rows[r].sub in Apply(s, e).subs && Apply(s, e).rows[r].event in Apply(s, e).events
  {
    RowMoves(s, e, r);
  }

  lemma RowsAreUsed(s: Store, e: Step)
    requires Recorded(s) && Enabled(s, e)
    ensures Apply(s, e).rows.Keys <= Apply(s, e).used
  {}

  lemma RecordedAfter(s: Store, e: Step)
    requires Recorded(s) && Enabled(s, e)
    ensures Recorded(Apply(s, e))
  {
    var t := Apply(s, e);
    RowsAreUsed(s, e);
    forall r | r in t.rows
      ensures t.rows[r].sub in t.subs && t.rows[r].event in t.events
    {
      if r in s.rows {
        OldRowsStayRecorded(s, e, r);
      } else {
        InsertedBy(s, e, r);
        if !e.TestWebhook? {
          InsertedAreRecorded(s, e, r);
        }
      }
    }
  }

  lemma InsertedAreNew(s: Store, e: Step, r: RowId, q: RowId)
    requires Recorded(s) && Enabled(s, e) && q in Apply(s, e).rows && q !in s.rows && r in Apply(s, e).rows
    requires Apply(s, e).rows[r].sub == Apply(s, e).rows[q].sub &&
      Apply(s, e).rows[r].event == Apply(s, e).rows[q].event
    ensures r == q
  {
    InsertedBy(s, e, q);
    if !e.TestWebhook? {
      InsertedAreRecorded(s, e, q);
    }
    if r in s.rows {
      RowMoves(s, e, r);
    } else {
      InsertedBy(s, e, r);
    }
  }

  lemma OneRowAfter(s: Store, e: Step)
    requires Recorded(s) && OneRowEach(s) && Enabled(s, e)
    ensures OneRowEach(Apply(s, e))
  {
    var t := Apply(s, e);
    forall r, q | r in t.rows && q in t.rows && t.rows[r].sub == t.rows[q].sub && t.rows[r].event == t.rows[q].event
      ensures r == q
    {
      if q !in s.rows {
        InsertedAreNew(s, e, r, q);
      } else if r !in s.rows {
        InsertedAreNew(s, e, q, r);
      } else {
        RowMoves(s, e, r);
        RowMoves(s, e, q);
      }
    }
  }

  lemma BudgetAfter(s: Store, e: Step)
    requires Recorded(s) && WithinBudget(s) && Planned(s) && Enabled(s, e)
    ensures WithinBudget(Apply(s, e))
  {
    var t := Apply(s, e);
    forall r | r in t.rows && t.rows[r].status.Pending?
      ensures t.rows[r].attempts < MAX_ATTEMPTS
    {
      if r in s.rows {
        RowMoves(s, e, r);
        if Settles(s, e, r) {
          var task := s.tasks[e.task];
          assert task.todo[0] in task.todo;
          assert GoodAction(task.snapshot, task.todo[0]);
        }
      }
    }
  }

  lemma DecisionsAreGood(c: Snapshot, now: int, keysAvailable: bool, reply: Reply)
    ensures Decide(c, now, keysAvailable).Some? ==> forall a <- Decide(c, now, keysAvailable).value :: GoodAction(c, a)
    ensures forall a <- Settlement(c, Classify(reply), now) :: GoodAction(c, a)
  {}

  lemma ActKeepsPlans(s: Store, e: Step)
    requires Enabled(s, e) && e.Act?
    ensures Apply(s, e).tasks == s.tasks[e.task := s.tasks[e.task].(todo := s.tasks[e.task].todo[1..])]
  {}

  lemma DecisionsKeepPlans(s: Store, e: Step)
    requires Planned(s) && Enabled(s, e) && (e.Check? || e.Settle?)
    ensures Planned(Apply(s, e))
  {
    var c := s.tasks[e.task].snapshot;
    if e.Check? {
      DecisionsAreGood(c, e.now, e.keysAvailable, Answered(0));
    } else {
      DecisionsAreGood(c, e.now, true, e.reply);
    }
  }

  lemma PlannedAfter(s: Store, e: Step)
    requires Planned(s) && Enabled(s, e)
    ensures Planned(Apply(s, e))
  {
    if e.Check? || e.Settle? {
      DecisionsKeepPlans(s, e);
    } else if e.Act? {
      ActShortensPlan(s, e);
    }
  }

  lemma ActShortensPlan(s: Store, e: Step)
    requires Planned(s) && Enabled(s, e) && e.Act?
    ensures Planned(Apply(s, e))
  {
    ActKeepsPlans(s, e);
    assert forall a <- s.tasks[e.task].todo[1..] :: a in s.tasks[e.task].todo;
  }

  lemma StepKeeps(s: Store, e: Step)
    requires Inv(s)
    ensures Inv(Next(s, e))
  {
    if Enabled(s, e) {
      RecordedAfter(s, e);
      OneRowAfter(s, e);
      BudgetAfter(s, e);
      PlannedAfter(s, e);
    }
  }

  lemma {:induction false} RunKeeps(s: Store, steps: seq<Step>)
    requires Inv(s)
    ensures Inv(From(s, steps))
  {
    if steps != [] {
      RunKeeps(s, steps[..|steps| - 1]);
      StepKeeps(From(s, steps[..|steps| - 1]), steps[|steps| - 1]);
    }
  }

  /**
   In every run: one row for each subscription and event, and a pending row always has
   fewer than 12 attempts.
   */
  lemma ReachableKeeps(s: Store)
    requires Reachable(s)
    ensures Inv(s)
  {
    var steps :| From(EMPTY, steps) == s;
    RunKeeps(EMPTY, steps);
  }
}
