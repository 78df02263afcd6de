/**
 What a claim costs when its snapshot is not current. A claim statement reads the table in one state
 of a run and writes in a later one, so a pair of event and device can be left with several rows
 (RacedClaimDuplicatesIff). Each row can take a unit of quota and a finalization of its own; this module
 counts them in every run in which claims read any earlier state.
 */
module PushRace {
  import opened Prelude
  import opened Quota
  import opened PushModel
  import opened PushDelivery

  /** A statement; a claim reads its snapshot after the first `read` moves of the run. */
  datatype Move = Move(step: Step, read: nat)

  ghost predicate Allowed(past: Store, s: Store, e: Step) {
    match e
    case DoClaim(event, device, _, latest, id, _) => id !in s.used && IsLatest(past.rows, event, device, latest)
    case _ => Enabled(s, e)
  }

  /** The unique key over event, device and attempt admits the attempt number a finalization reports. */
  ghost predicate KeyFree(s: Store, id: ClaimId, attempt: int)
    requires id in s.rows
  {
    forall i :: i in s.rows && i != id && ForPair(s.rows[i], s.rows[id].event, s.rows[id].device) ==>
      s.rows[i].attempt != attempt
  }

  ghost predicate Blocked(s: Store, e: Step) {
    e.DoFinalize? && Current(s, e.id) && !KeyFree(s, e.id, e.attempt)
  }

  /** A finalization that would break the unique key fails and writes nothing. */
  ghost function Write(past: Store, s: Store, e: Step, l: Limits): Store
    requires Allowed(past, s, e)
  {
    if e.DoClaim? then ClaimSeeing(s, Shown(past, e.latest), e.event, e.device, e.account, e.id, e.now).0
    else if Blocked(s, e) then s else Apply(s, e, l)
  }

  ghost function After(run: seq<Move>, l: Limits): Option<Store>
    decreases |run|
  {
    if run == [] then Some(Empty())
    else
      var n := |run| - 1;
      var before := After(run[..n], l);
      if before.None? || run[n].read > n then None
      else
        var past := After(run[..run[n].read], l);
        if past.Some? && Allowed(past.value, before.value, run[n].step)
        then Some(Write(past.value, before.value, run[n].step, l)) else None
  }

  /** The last move of a run: what it read, the state before it, and its statement. */
  lemma LastMove(run: seq<Move>, l: Limits) returns (past: Store, p: Store, e: Step)
    requires After(run, l).Some? && run != []
    ensures run[|run| - 1].read < |run| && e == run[|run| - 1].step
    ensures After(run[..run[|run| - 1].read], l) == Some(past) && After(run[..|run| - 1], l) == Some(p)
    ensures Allowed(past, p, e) && After(run, l) == Some(Write(past, p, e, l))
  {
    var n := |run| - 1;
    past, p, e := After(run[..run[n].read], l).value, After(run[..n], l).value, run[n].step;
  }

  // What every run keeps

  /** The rows of a pair have different attempt numbers. */
  ghost predicate Keyed(s: Store) {
    forall i, j ::
      i in s.rows && j in s.rows && ForPair(s.rows[i], s.rows[j].event, s.rows[j].device) && i != j ==>
        s.rows[i].attempt != s.rows[j].attempt
  }

  ghost predicate Safe(s: Store, l: Limits) {
    Recorded(s) && OpenAtFirst(s) && Keyed(s) && WithinLimits(s.quota, l)
  }

  /** Ids of an earlier state are used, and those that are still in the table name the same pair. */
  ghost predicate Follows(past: Store, s: Store) {
    past.rows.Keys <= s.used &&
    forall i :: i in past.rows && i in s.rows ==> ForPair(s.rows[i], past.rows[i].event, past.rows[i].device)
  }

  lemma MoveFollows(past: Store, s: Store, e: Step, l: Limits, older: Store)
    requires Allowed(past, s, e) && Follows(older, s)
    ensures Follows(older, Write(past, s, e, l))
  {}

  lemma MoveKeepsRows(past: Store, s: Store, e: Step, l: Limits)
    requires Allowed(past, s, e) && Follows(past, s) && Recorded(s) && OpenAtFirst(s) && Keyed(s)
    ensures var t := Write(past, s, e, l); Recorded(t) && OpenAtFirst(t) && Keyed(t)
  {}

  lemma MoveKeeps(past: Store, s: Store, e: Step, l: Limits)
    requires Configured(l) && Allowed(past, s, e) && Follows(past, s) && Safe(s, l)
    ensures Safe(Write(past, s, e, l), l)
  {
    MoveKeepsRows(past, s, e, l);
    if !e.DoClaim? {
      StepKeepsLimits(s, e, l);
    }
  }

  lemma {:induction false} LaterFollows(run: seq<Move>, k: nat, l: Limits)
    requires After(run, l).Some? && k <= |run|
    ensures After(run[..k], l).Some? && Follows(After(run[..k], l).value, After(run, l).value)
    decreases |run|
  {
    if k == |run| {
      assert run[..k] == run;
      RunRecorded(run, l);
    } else {
      var n := |run| - 1;
      var past, p, e := LastMove(run, l);
      LaterFollows(run[..n], k, l);
      assert run[..n][..k] == run[..k];
      MoveFollows(past, p, e, l, After(run[..k], l).value);
    }
  }

  lemma {:induction false} RunRecorded(run: seq<Move>, l: Limits)
    requires After(run, l).Some?
    ensures Recorded(After(run, l).value)
  {
    if run != [] {
      var past, p, e := LastMove(run, l);
      RunRecorded(run[..|run| - 1], l);
    }
  }

  /** What the last move reads is an earlier state of the run. */
  lemma ReadFollows(run: seq<Move>, l: Limits) returns (past: Store, p: Store, e: Step)
    requires After(run, l).Some? && run != []
    ensures After(run[..|run| - 1], l) == Some(p) && e == run[|run| - 1].step && run[|run| - 1].read < |run|
    ensures After(run[..run[|run| - 1].read], l) == Some(past)
    ensures Allowed(past, p, e) && Follows(past, p) && After(run, l) == Some(Write(past, p, e, l))
  {
    past, p, e := LastMove(run, l);
    var n := |run| - 1;
    LaterFollows(run[..n], run[n].read, l);
    assert run[..n][..run[n].read] == run[..run[n].read];
  }

  /**
   In every run, whatever the claims have read: open rows are at attempt one, rows of a pair have
   different attempt numbers, and no counter is past its limit.
   */
  lemma {:induction false} RacesKeep(run: seq<Move>, l: Limits)
    requires Configured(l) && After(run, l).Some?
    ensures Safe(After(run, l).value, l)
  {
    if run != [] {
      var past, p, e := ReadFollows(run, l);
      RacesKeep(run[..|run| - 1], l);
      MoveKeeps(past, p, e, l);
    }
  }

  /** Two current claims are never of one pair, whatever the claims have read. */
  lemma OneHolder(run: seq<Move>, l: Limits, i: ClaimId, j: ClaimId)
    requires Configured(l) && After(run, l).Some?
    requires var t := After(run, l).value;
      Current(t, i) && Current(t, j) && ForPair(t.rows[i], t.rows[j].event, t.rows[j].device)
    ensures i == j
  {
    RacesKeep(run, l);
  }

  // Counting

  ghost function RowsOf(s: Store, event: EventId, device: Device): set<ClaimId> {
    set i | i in s.rows && ForPair(s.rows[i], event, device)
  }

  ghost function PaidRows(s: Store, event: EventId, device: Device): set<ClaimId> {
    set i | i in s.rows && ForPair(s.rows[i], event, device) && s.rows[i].quotaReserved
  }

  ghost function EndedRows(s: Store, event: EventId, device: Device): set<ClaimId> {
    set i | i in s.rows && ForPair(s.rows[i], event, device) && Terminal(s.rows[i].status)
  }

  /** The move adds a row to a pair that has one. */
  ghost predicate Duplicates(past: Store, s: Store, e: Step, l: Limits, event: EventId, device: Device)
    requires Allowed(past, s, e)
  {
    RowsOf(s, event, device) != {} && RowsOf(s, event, device) < RowsOf(Write(past, s, e, l), event, device)
  }

  datatype Tally = Tally(units: nat, endings: nat, copies: nat)

  function Count(happened: bool): nat {
    if happened then 1 else 0
  }

  /** How often a run charged a pair, finalized it, and duplicated its row. */
  ghost function Tallied(run: seq<Move>, l: Limits, event: EventId, device: Device): Tally
    requires After(run, l).Some?
  {
    if run == [] then Tally(0, 0, 0)
    else
      var n := |run| - 1;
      var past, p, e := After(run[..run[n].read], l).value, After(run[..n], l).value, run[n].step;
      var before := Tallied(run[..n], l, event, device);
      Tally(before.units + Count(Charges(p, e, l, event, device)),
            before.endings + Count(Finalizes(p, e, event, device) && !Blocked(p, e)),
            before.copies + Count(Duplicates(past, p, e, l, event, device)))
  }

  lemma Exchanged<T>(a: set<T>, b: set<T>, x: T, y: T)
    requires x in a && y !in a && b == a - {x} + {y}
    ensures |b| == |a|
  {}

  lemma ProperSubset<T>(a: set<T>, b: set<T>)
    requires a < b
    ensures |a| < |b|
  {
    assert b == a + (b - a);
  }

  /** What a claim of the pair may take, as its snapshot shows it. */
  ghost predicate Claimable(past: Store, e: Step)
    requires e.DoClaim? && (e.latest.Some? ==> e.latest.value in past.rows)
  {
    e.latest.None? || Reclaimable(past.rows[e.latest.value], e.now)
  }

  ghost predicate Reclaims(past: Store, s: Store, e: Step)
    requires e.DoClaim? && (e.latest.Some? ==> e.latest.value in past.rows)
  {
    e.latest.Some? && Claimable(past, e) && e.latest.value in s.rows && Reclaimable(s.rows[e.latest.value], e.now)
  }

  /** A row k moves to a new id. */
  ghost predicate Renamed(s: Store, t: Store, k: ClaimId, id: ClaimId) {
    k in s.rows && id !in s.rows && t.rows.Keys == s.rows.Keys - {k} + {id} &&
    (forall i :: i in s.rows && i != k ==> t.rows[i] == s.rows[i]) &&
    ForPair(t.rows[id], s.rows[k].event, s.rows[k].device) && t.rows[id].quotaReserved == s.rows[k].quotaReserved &&
    !Terminal(s.rows[k].status) && !Terminal(t.rows[id].status)
  }

  lemma RenamedRows(s: Store, t: Store, k: ClaimId, id: ClaimId, event: EventId, device: Device)
    requires Renamed(s, t, k, id)
    ensures |RowsOf(t, event, device)| == |RowsOf(s, event, device)|
  {
    var a, b := RowsOf(s, event, device), RowsOf(t, event, device);
    if ForPair(s.rows[k], event, device) {
      assert b == a - {k} + {id};
      Exchanged(a, b, k, id);
    } else {
      assert a == b;
    }
  }

  lemma RenamedPaid(s: Store, t: Store, k: ClaimId, id: ClaimId, event: EventId, device: Device)
    requires Renamed(s, t, k, id)
    ensures |PaidRows(t, event, device)| == |PaidRows(s, event, device)|
  {
    var a, b := PaidRows(s, event, device), PaidRows(t, event, device);
    if ForPair(s.rows[k], event, device) && s.rows[k].quotaReserved {
      assert b == a - {k} + {id};
      Exchanged(a, b, k, id);
    } else {
      assert a == b;
    }
  }

  lemma RenamedEnded(s: Store, t: Store, k: ClaimId, id: ClaimId, event: EventId, device: Device)
    requires Renamed(s, t, k, id)
    ensures EndedRows(t, event, device) == EndedRows(s, event, device)
  {}

  /** A reclaim gives the row a new id; the pair keeps as many rows, paid rows and ended rows. */
  lemma ReclaimCounts(past: Store, s: Store, e: Step, l: Limits, event: EventId, device: Device)
    requires Allowed(past, s, e) && Recorded(s) && e.DoClaim? && Reclaims(past, s, e)
    ensures var t := Write(past, s, e, l);
      && |RowsOf(t, event, device)| == |RowsOf(s, event, device)|
      && |PaidRows(t, event, device)| == |PaidRows(s, event, device)|
      && EndedRows(t, event, device) == EndedRows(s, event, device)
      && !Duplicates(past, s, e, l, event, device)
  {
    var t, k := Write(past, s, e, l), e.latest.value;
    assert Renamed(s, t, k, e.id);
    RenamedRows(s, t, k, e.id, event, device);
    RenamedPaid(s, t, k, e.id, event, device);
    RenamedEnded(s, t, k, e.id, event, device);
    if RowsOf(s, event, device) < RowsOf(t, event, device) {
      ProperSubset(RowsOf(s, event, device), RowsOf(t, event, device));
    }
  }

  /** Any other claim writes nothing, or a new unpaid open row. */
  lemma InsertCounts(past: Store, s: Store, e: Step, l: Limits, event: EventId, device: Device)
    requires Allowed(past, s, e) && Recorded(s) && e.DoClaim? && !Reclaims(past, s, e)
    ensures var t := Write(past, s, e, l);
      var adds := Claimable(past, e) && FirstAttemptFree(s.rows, e.event, e.device) &&
        e.event == event && e.device == device;
      && RowsOf(t, event, device) == RowsOf(s, event, device) + (if adds then {e.id} else {})
      && e.id !in RowsOf(s, event, device)
      && PaidRows(t, event, device) == PaidRows(s, event, device)
      && EndedRows(t, event, device) == EndedRows(s, event, device)
  {}

  lemma OtherKeepsRows(past: Store, s: Store, e: Step, l: Limits, event: EventId, device: Device)
    requires Allowed(past, s, e) && !e.DoClaim?
    ensures RowsOf(Write(past, s, e, l), event, device) == RowsOf(s, event, device)
  {
    OtherStepsKeepOwners(s, e, l);
  }

  lemma OthersPayNothing(past: Store, s: Store, e: Step, l: Limits, event: EventId, device: Device)
    requires Allowed(past, s, e) && !e.DoClaim? && !Spends(s, e, l)
    ensures PaidRows(Write(past, s, e, l), event, device) == PaidRows(s, event, device)
  {}

  lemma ChargePays(past: Store, s: Store, e: Step, l: Limits, event: EventId, device: Device)
    requires Allowed(past, s, e) && !e.DoClaim?
    ensures |PaidRows(Write(past, s, e, l), event, device)| ==
      |PaidRows(s, event, device)| + Count(Charges(s, e, l, event, device))
  {
    var a, b := PaidRows(s, event, device), PaidRows(Write(past, s, e, l), event, device);
    if !Spends(s, e, l) {
      OthersPayNothing(past, s, e, l, event, device);
    } else if ForPair(s.rows[e.id], event, device) {
      assert b == a + {e.id};
    } else {
      assert b == a;
    }
  }

  lemma OthersEndNothing(past: Store, s: Store, e: Step, l: Limits, event: EventId, device: Device)
    requires Allowed(past, s, e) && !e.DoClaim? && (!e.DoFinalize? || Blocked(s, e) || !Current(s, e.id))
    ensures EndedRows(Write(past, s, e, l), event, device) == EndedRows(s, event, device)
  {}

  lemma FinalizationEnds(past: Store, s: Store, e: Step, l: Limits, event: EventId, device: Device)
    requires Allowed(past, s, e) && !e.DoClaim?
    ensures |EndedRows(Write(past, s, e, l), event, device)| ==
      |EndedRows(s, event, device)| + Count(Finalizes(s, e, event, device) && !Blocked(s, e))
  {
    var a, b := EndedRows(s, event, device), EndedRows(Write(past, s, e, l), event, device);
    if !e.DoFinalize? || Blocked(s, e) || !Current(s, e.id) {
      OthersEndNothing(past, s, e, l, event, device);
    } else if ForPair(s.rows[e.id], event, device) {
      assert b == a + {e.id};
    } else {
      assert b == a;
    }
  }

  lemma MoveCounts(past: Store, s: Store, e: Step, l: Limits, event: EventId, device: Device)
    requires Allowed(past, s, e) && Follows(past, s) && Recorded(s)
    ensures var t := Write(past, s, e, l);
      && |PaidRows(t, event, device)| == |PaidRows(s, event, device)| + Count(Charges(s, e, l, event, device))
      && |EndedRows(t, event, device)| ==
         |EndedRows(s, event, device)| + Count(Finalizes(s, e, event, device) && !Blocked(s, e))
      && (RowsOf(s, event, device) == {} ==> |RowsOf(t, event, device)| <= 1)
      && (RowsOf(s, event, device) != {} ==>
            |RowsOf(t, event, device)| ==
            |RowsOf(s, event, device)| + Count(Duplicates(past, s, e, l, event, device)))
  {
    if !e.DoClaim? {
      OtherKeepsRows(past, s, e, l, event, device);
      ChargePays(past, s, e, l, event, device);
      FinalizationEnds(past, s, e, l, event, device);
    } else if Reclaims(past, s, e) {
      ReclaimCounts(past, s, e, l, event, device);
    } else {
      InsertCounts(past, s, e, l, event, device);
    }
  }

  /**
   In every run, whatever the claims have read, a pair has been charged once for every row that is paid
   for and finalized once for every row that is ended, and it has one row and one more for
   every duplicating write. So duplicating writes bound what a race can cost.
   */
  lemma {:induction false} RacesAreCounted(run: seq<Move>, l: Limits, event: EventId, device: Device)
    requires After(run, l).Some?
    ensures var t, n := After(run, l).value, Tallied(run, l, event, device);
      && n.units == |PaidRows(t, event, device)| && n.endings == |EndedRows(t, event, device)|
      && |RowsOf(t, event, device)| == (if RowsOf(t, event, device) == {} then 0 else 1 + n.copies)
      && n.units <= 1 + n.copies && n.endings <= 1 + n.copies
      && (RowsOf(t, event, device) == {} ==> n.copies == 0)
  {
    var t := After(run, l).value;
    if run != [] {
      var past, p, e := ReadFollows(run, l);
      RacesAreCounted(run[..|run| - 1], l, event, device);
      RunRecorded(run[..|run| - 1], l);
      MoveCounts(past, p, e, l, event, device);
    }
    SubsetCardinality(PaidRows(t, event, device), RowsOf(t, event, device));
    SubsetCardinality(EndedRows(t, event, device), RowsOf(t, event, device));
  }

  /** A pair whose row was never duplicated is charged at most once and finalized at most once. */
  lemma WithoutDuplicatesAtMostOnce(run: seq<Move>, l: Limits, event: EventId, device: Device)
    requires After(run, l).Some? && Tallied(run, l, event, device).copies == 0
    ensures var t, n := After(run, l).value, Tallied(run, l, event, device);
      n.units == Count(Paid(t, event, device)) && n.endings == Count(Finished(t, event, device))
  {
    RacesAreCounted(run, l, event, device);
    var t := After(run, l).value;
    assert Paid(t, event, device) <==> PaidRows(t, event, device) != {} by {
      if i :| i in PaidRows(t, event, device) {
        assert ForPair(t.rows[i], event, device) && t.rows[i].quotaReserved;
      }
      if Paid(t, event, device) {
        var i :| i in t.rows && ForPair(t.rows[i], event, device) && t.rows[i].quotaReserved;
        assert i in PaidRows(t, event, device);
      }
    }
    assert Finished(t, event, device) <==> EndedRows(t, event, device) != {} by {
      if i :| i in EndedRows(t, event, device) {
        assert ForPair(t.rows[i], event, device) && Terminal(t.rows[i].status);
      }
      if Finished(t, event, device) {
        var i :| i in t.rows && ForPair(t.rows[i], event, device) && Terminal(t.rows[i].status);
        assert i in EndedRows(t, event, device);
      }
    }
  }

  // When a write duplicates

  /** Every row of the pair is ended, under an attempt number other than one. */
  ghost predicate AllEndedLater(s: Store, event: EventId, device: Device) {
    forall i <- RowsOf(s, event, device) :: Terminal(s.rows[i].status) && s.rows[i].attempt != 1
  }

  /**
   In every run, a claim duplicates the row of its pair if and only if what it saw could be claimed and,
   when it writes, the pair has rows and all of them are ended under an attempt number other than one.
   */
  lemma DuplicatesIff(run: seq<Move>, l: Limits)
    requires Configured(l) && After(run, l).Some? && run != [] && run[|run| - 1].step.DoClaim?
    ensures var n := |run| - 1;
      var past, p, e := After(run[..run[n].read], l).value, After(run[..n], l).value, run[n].step;
      Duplicates(past, p, e, l, e.event, e.device) <==>
      Claimable(past, e) && RowsOf(p, e.event, e.device) != {} && AllEndedLater(p, e.event, e.device)
  {
    var past, p, e := ReadFollows(run, l);
    RacesKeep(run[..|run| - 1], l);
    RunRecorded(run[..|run| - 1], l);
    if Reclaims(past, p, e) {
      ReclaimCounts(past, p, e, l, e.event, e.device);
      assert e.latest.value in RowsOf(p, e.event, e.device);
    } else {
      InsertCounts(past, p, e, l, e.event, e.device);
      assert FirstAttemptFree(p.rows, e.event, e.device) <==> AllEndedLater(p, e.event, e.device);
    }
  }

  // Claims that read the current state

  /** Every claim reads the state it writes in. */
  function Prompt(steps: seq<Step>): seq<Move> {
    seq(|steps|, i requires 0 <= i < |steps| => Move(steps[i], i))
  }

  lemma PromptMove(s: Store, e: Step, l: Limits, event: EventId, device: Device)
    requires Enabled(s, e) && Inv(s, l)
    ensures Allowed(s, s, e) && Write(s, s, e, l) == Apply(s, e, l) && !Duplicates(s, s, e, l, event, device)
  {
    if e.DoClaim? {
      if Reclaims(s, s, e) {
        ReclaimCounts(s, s, e, l, event, device);
      } else {
        InsertCounts(s, s, e, l, event, device);
      }
    } else {
      OtherKeepsRows(s, s, e, l, event, device);
      assert !Blocked(s, e);
    }
  }

  /** The runs of PushDelivery are those in which every claim reads the current state, and they duplicate nothing. */
  lemma {:induction false} PromptRuns(steps: seq<Step>, l: Limits, t: Store, event: EventId, device: Device)
    requires Configured(l) && Runs(Empty(), steps, l, t)
    ensures After(Prompt(steps), l) == Some(t) && Tallied(Prompt(steps), l, event, device).copies == 0
  {
    if steps != [] {
      var n := |steps| - 1;
      var p := LastStep(Empty(), steps, l, t);
      PromptRuns(steps[..n], l, p, event, device);
      assert Prompt(steps)[..n] == Prompt(steps[..n]);
      RunKeeps(steps[..n], l, p);
      PromptMove(p, steps[n], l, event, device);
    }
  }

  // A run that charges twice

  /** A worker claims the pair having read the empty table, reserves, and finishes at its n-th send. */
  function Serve(id: ClaimId, n: int, now: int): seq<Move> {
    [Move(DoClaim(7, 8, 5, None, id, now), 0), Move(DoReserve(id, 5, now), 0),
     Move(DoFinalize(id, n, Delivered, None, None), 0)]
  }

  function Served(n: int, now: int): Attempt {
    FirstAttempt(7, 8, 5, now).(attempt := n, status := Delivered, quotaReserved := true)
  }

  /** No counter is past n. */
  ghost predicate Roomy(c: Counters, n: nat) {
    WithinLimits(c, Limits(n, n, n))
  }

  lemma RoomForAUnit(c: Counters, n: nat, now: int)
    requires Roomy(c, n) && n < 9
    ensures Spend(c, 5, now, ROOM).Spent? && Roomy(Spend(c, 5, now, ROOM).counters, n + 1)
  {}

  lemma Appended(run: seq<Move>, e: Step, l: Limits, s: Store)
    requires After(run, l) == Some(s) && Allowed(Empty(), s, e)
    ensures After(run + [Move(e, 0)], l) == Some(Write(Empty(), s, e, l))
  {
    var longer := run + [Move(e, 0)];
    assert longer[..|run|] == run && longer[..0] == [];
  }

  /** A worker is served if no row of the pair has attempt one, or the number it will report. */
  lemma WorkerIsServed(run: seq<Move>, s: Store, id: ClaimId, n: int, now: int, units: nat) returns (t: Store)
    requires After(run, ROOM) == Some(s) && Recorded(s) && id !in s.used && Roomy(s.quota, units) && units < 9
    requires forall i <- RowsOf(s, 7, 8) :: s.rows[i].attempt != 1 && s.rows[i].attempt != n
    ensures After(run + Serve(id, n, now), ROOM) == Some(t)
    ensures t.rows == s.rows[id := Served(n, now)] && t.used == s.used + {id} && Roomy(t.quota, units + 1)
  {
    var taken := s.(rows := s.rows[id := FirstAttempt(7, 8, 5, now)], used := s.used + {id});
    var moves := Serve(id, n, now);
    assert FirstAttemptFree(s.rows, 7, 8) by {
      assert forall i :: i in s.rows && ForPair(s.rows[i], 7, 8) ==> i in RowsOf(s, 7, 8);
    }
    Appended(run, moves[0].step, ROOM, s);
    assert Write(Empty(), s, moves[0].step, ROOM) == taken;
    t := ClaimIsServed(run + [moves[0]], taken, id, n, now, units);
    assert run + moves == run + [moves[0]] + moves[1..];
    assert t.rows == s.rows[id := Served(n, now)];
  }

  lemma ClaimIsServed(run: seq<Move>, s: Store, id: ClaimId, n: int, now: int, units: nat) returns (t: Store)
    requires After(run, ROOM) == Some(s) && Roomy(s.quota, units) && units < 9
    requires id in s.rows && s.rows[id] == FirstAttempt(7, 8, 5, now) && KeyFree(s, id, n)
    ensures After(run + Serve(id, n, now)[1..], ROOM) == Some(t)
    ensures t.rows == s.rows[id := Served(n, now)] && t.used == s.used && Roomy(t.quota, units + 1)
  {
    RoomForAUnit(s.quota, units, now);
    var moves := Serve(id, n, now);
    var paid := s.(rows := s.rows[id := s.rows[id].(quotaReserved := true)],
                   quota := Spend(s.quota, 5, now, ROOM).counters);
    Appended(run, moves[1].step, ROOM, s);
    assert Write(Empty(), s, moves[1].step, ROOM) == paid;
    assert !Blocked(paid, moves[2].step);
    Appended(run + [moves[1]], moves[2].step, ROOM, paid);
    t := Write(Empty(), paid, moves[2].step, ROOM);
    assert run + moves[1..] == run + [moves[1]] + [moves[2]];
  }

  /**
   Two workers whose claims both read the table before either wrote; the first finishes at its second
   send before the other writes. The pair takes two units and is finalized twice.
   */
  lemma RaceCanChargeTwice(now: int)
    ensures var run := Serve(1, 2, now) + Serve(2, 1, now);
      After(run, ROOM).Some? && Tallied(run, ROOM, 7, 8) == Tally(2, 2, 1)
  {
    var run := Serve(1, 2, now) + Serve(2, 1, now);
    var once := WorkerIsServed([], Empty(), 1, 2, now, 0);
    assert [] + Serve(1, 2, now) == Serve(1, 2, now);
    var twice := WorkerIsServed(Serve(1, 2, now), once, 2, 1, now, 1);
    RacesAreCounted(run, ROOM, 7, 8);
    assert PaidRows(twice, 7, 8) == {1, 2} && EndedRows(twice, 7, 8) == {1, 2} && RowsOf(twice, 7, 8) == {1, 2};
  }
}
