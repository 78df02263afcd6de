/** What every run of concurrent push requests keeps. */
module PushDelivery {
  import opened Prelude
  import opened Quota
  import opened PushModel

  ghost function From(s: Store, run: seq<Step>, l: Limits): Option<Store>
  {
    if run == [] then Some(s)
    else
      var before := From(s, run[..|run| - 1], l);
      if before.Some? && Enabled(before.value, run[|run| - 1])
      then Some(Apply(before.value, run[|run| - 1], l)) else None
  }

  ghost predicate Runs(s: Store, run: seq<Step>, l: Limits, t: Store) {
    From(s, run, l) == Some(t)
  }

  lemma LastStep(s: Store, run: seq<Step>, l: Limits, t: Store) returns (p: Store)
    requires Runs(s, run, l, t) && run != []
    ensures Runs(s, run[..|run| - 1], l, p) && Enabled(p, run[|run| - 1]) && Apply(p, run[|run| - 1], l) == t
  {
    p := From(s, run[..|run| - 1], l).value;
  }

  // The invariant

  ghost predicate Recorded(s: Store) {
    s.rows.Keys <= s.used
  }

  ghost predicate OneRowEach(s: Store) {
    forall i, j :: i in s.rows && j in s.rows && ForPair(s.rows[i], s.rows[j].event, s.rows[j].device) ==> i == j
  }

  ghost predicate OpenAtFirst(s: Store) {
    forall i :: i in s.rows && !Terminal(s.rows[i].status) ==> s.rows[i].attempt == 1
  }

  ghost predicate Inv(s: Store, l: Limits) {
    Recorded(s) && OneRowEach(s) && OpenAtFirst(s) && WithinLimits(s.quota, l)
  }

  /** How a claim acts when its snapshot is current. */
  lemma ClaimOutcomes(s: Store, e: Step, l: Limits) returns (claimed: Option<int>)
    requires e.DoClaim? && Enabled(s, e)
    ensures claimed == ClaimSeeing(s, Shown(s, e.latest), e.event, e.device, e.account, e.id, e.now).1
    ensures claimed.Some? <==> e.latest.None? || Reclaimable(s.rows[e.latest.value], e.now)
    ensures e.latest.None? ==>
      Apply(s, e, l) == s.(rows := s.rows[e.id := FirstAttempt(e.event, e.device, e.account, e.now)],
        used := s.used + {e.id})
    ensures e.latest.Some? && Reclaimable(s.rows[e.latest.value], e.now) ==>
      Apply(s, e, l) == s.(rows := (s.rows - {e.latest.value})[e.id := Reclaimed(s.rows[e.latest.value], e.now)],
        used := s.used + {e.id})
    ensures claimed.None? ==> Apply(s, e, l) == s
  {
    claimed := ClaimSeeing(s, Shown(s, e.latest), e.event, e.device, e.account, e.id, e.now).1;
  }

  /** Steps other than claims leave every row at its id, with its pair and account. */
  ghost predicate SameOwners(s: Store, t: Store) {
    t.rows.Keys == s.rows.Keys && t.used == s.used &&
    forall i :: i in s.rows ==>
      t.rows[i].event == s.rows[i].event && t.rows[i].device == s.rows[i].device
  }

  lemma OtherStepsKeepOwners(s: Store, e: Step, l: Limits)
    requires !e.DoClaim? && Enabled(s, e)
    ensures SameOwners(s, Apply(s, e, l))
  {}

  lemma ClaimKeepsRows(s: Store, e: Step, l: Limits)
    requires e.DoClaim? && Enabled(s, e) && Recorded(s) && OneRowEach(s) && OpenAtFirst(s)
    ensures var t := Apply(s, e, l); Recorded(t) && OneRowEach(t) && OpenAtFirst(t)
  {
    var claimed := ClaimOutcomes(s, e, l);
  }

  lemma StepKeepsRows(s: Store, e: Step, l: Limits)
    requires Enabled(s, e) && Recorded(s) && OneRowEach(s) && OpenAtFirst(s)
    ensures var t := Apply(s, e, l); Recorded(t) && OneRowEach(t) && OpenAtFirst(t)
  {
    if e.DoClaim? {
      ClaimKeepsRows(s, e, l);
    } else {
      OtherStepsKeepOwners(s, e, l);
    }
  }

  lemma StepKeepsLimits(s: Store, e: Step, l: Limits)
    requires Configured(l) && Enabled(s, e) && WithinLimits(s.quota, l)
    ensures WithinLimits(Apply(s, e, l).quota, l)
  {
    if e.DoReserve? && Spend(s.quota, e.account, e.now, l).Spent? {
      SpendKeepsLimits(s.quota, e.account, e.now, l);
    }
  }

  lemma StepKeeps(s: Store, e: Step, l: Limits)
    requires Configured(l) && Enabled(s, e) && Inv(s, l)
    ensures Inv(Apply(s, e, l), l)
  {
    StepKeepsRows(s, e, l);
    StepKeepsLimits(s, e, l);
  }

  lemma {:induction false} KeptFrom(s: Store, run: seq<Step>, l: Limits, t: Store)
    requires Configured(l) && Inv(s, l) && Runs(s, run, l, t)
    ensures Inv(t, l)
  {
    if run != [] {
      var p := LastStep(s, run, l, t);
      KeptFrom(s, run[..|run| - 1], l, p);
      StepKeeps(p, run[|run| - 1], l);
    }
  }

  /** One row for each pair, and no counter past its limit, in every run. */
  lemma RunKeeps(run: seq<Step>, l: Limits, t: Store)
    requires Configured(l) && Runs(Empty(), run, l, t)
    ensures Inv(t, l)
  {
    KeptFrom(Empty(), run, l, t);
  }

  // Fencing

  /** A claim id that has been replaced names no row again, whatever runs next. */
  lemma {:induction false} ReplacedForEver(s: Store, run: seq<Step>, l: Limits, t: Store, id: ClaimId)
    requires Runs(s, run, l, t) && id in s.used && id !in s.rows
    ensures id in t.used && id !in t.rows
  {
    if run != [] {
      var p := LastStep(s, run, l, t);
      ReplacedForEver(s, run[..|run| - 1], l, p, id);
      var e := run[|run| - 1];
      if e.DoClaim? {
        var claimed := ClaimOutcomes(p, e, l);
      }
    }
  }

  /** After a reclaim, every statement under the old id is a no-op and reports that it lost. */
  lemma StaleClaimIsSilent(s: Store, e: Step, l: Limits, run: seq<Step>, t: Store,
    account: Account, now: int, attempt: int, status: Status, receipt: Option<string>, error: Option<string>)
    requires Inv(s, l) && e.DoClaim? && Enabled(s, e) && e.latest.Some?
    requires Reclaimable(s.rows[e.latest.value], e.now)
    requires Runs(Apply(s, e, l), run, l, t)
    ensures var stale := e.latest.value;
      !Current(t, stale) && Reserve(t, stale, account, now, l) == (t, Lost) &&
      Finalize(t, stale, attempt, status, receipt, error) == (t, false) && Release(t, stale) == t
  {
    var claimed := ClaimOutcomes(s, e, l);
    assert e.latest.value in s.used;
    ReplacedForEver(Apply(s, e, l), run, l, t, e.latest.value);
  }

  /** A row that is delivered, failed or refused is never written again. */
  lemma {:induction false} TerminalForEver(s: Store, run: seq<Step>, l: Limits, t: Store, id: ClaimId)
    requires Runs(s, run, l, t) && Recorded(s) && OneRowEach(s) && OpenAtFirst(s)
    requires id in s.rows && Terminal(s.rows[id].status)
    ensures id in t.rows && t.rows[id] == s.rows[id] && Recorded(t) && OneRowEach(t) && OpenAtFirst(t)
  {
    if run != [] {
      var p := LastStep(s, run, l, t);
      TerminalForEver(s, run[..|run| - 1], l, p, id);
      StepKeepsRows(p, run[|run| - 1], l);
      TerminalStays(p, run[|run| - 1], l, id);
    }
  }

  lemma TerminalStays(p: Store, e: Step, l: Limits, id: ClaimId)
    requires Enabled(p, e) && Recorded(p) && id in p.rows && Terminal(p.rows[id].status)
    ensures var t := Apply(p, e, l); id in t.rows && t.rows[id] == p.rows[id]
  {
    if e.DoClaim? {
      var claimed := ClaimOutcomes(p, e, l);
    }
  }

  /** The steps of a run that finalize a pair. */
  ghost function Finalizations(run: seq<Step>, l: Limits, event: EventId, device: Device): nat {
    if run == [] then 0
    else
      var before := From(Empty(), run[..|run| - 1], l);
      Finalizations(run[..|run| - 1], l, event, device) +
      (if before.Some? && Finalizes(before.value, run[|run| - 1], event, device) then 1 else 0)
  }

  ghost predicate Finalizes(s: Store, e: Step, event: EventId, device: Device) {
    e.DoFinalize? && Current(s, e.id) && ForPair(s.rows[e.id], event, device)
  }

  ghost predicate Finished(s: Store, event: EventId, device: Device) {
    exists i :: i in s.rows && ForPair(s.rows[i], event, device) && Terminal(s.rows[i].status)
  }

  lemma FinishedStays(p: Store, e: Step, l: Limits, event: EventId, device: Device)
    requires Enabled(p, e) && Recorded(p)
    ensures Finished(p, event, device) ==> Finished(Apply(p, e, l), event, device)
  {
    if Finished(p, event, device) {
      var i :| i in p.rows && ForPair(p.rows[i], event, device) && Terminal(p.rows[i].status);
      TerminalStays(p, e, l, i);
      assert ForPair(Apply(p, e, l).rows[i], event, device);
    }
  }

  /** At most one finalization of a pair ever succeeds: one when the pair is finished, none before. */
  lemma {:induction false} AtMostOneFinalization(run: seq<Step>, l: Limits, t: Store, event: EventId, device: Device)
    requires Configured(l) && Runs(Empty(), run, l, t)
    ensures Finalizations(run, l, event, device) == if Finished(t, event, device) then 1 else 0
  {
    if run != [] {
      var p := LastStep(Empty(), run, l, t);
      var e := run[|run| - 1];
      RunKeeps(run[..|run| - 1], l, p);
      AtMostOneFinalization(run[..|run| - 1], l, p, event, device);
      FinishedStays(p, e, l, event, device);
      FinishingStep(p, e, l, event, device);
    }
  }

  lemma FinishingStep(p: Store, e: Step, l: Limits, event: EventId, device: Device)
    requires Enabled(p, e) && Recorded(p) && OneRowEach(p)
    ensures Finalizes(p, e, event, device) ==> !Finished(p, event, device) && Finished(Apply(p, e, l), event, device)
    ensures !Finalizes(p, e, event, device) && Finished(Apply(p, e, l), event, device) ==> Finished(p, event, device)
  {
    var t := Apply(p, e, l);
    if Finalizes(p, e, event, device) {
      assert ForPair(t.rows[e.id], event, device) && Terminal(t.rows[e.id].status);
      forall i | i in p.rows && ForPair(p.rows[i], event, device)
        ensures i == e.id
      {
        assert ForPair(p.rows[i], p.rows[e.id].event, p.rows[e.id].device);
      }
    } else if Finished(t, event, device) {
      var i :| i in t.rows && ForPair(t.rows[i], event, device) && Terminal(t.rows[i].status);
      if e.DoClaim? {
        var claimed := ClaimOutcomes(p, e, l);
      }
      assert i in p.rows && ForPair(p.rows[i], event, device) && Terminal(p.rows[i].status);
    }
  }

  /** A claim with nothing to do means that the pair is held by a live claim or finished. */
  lemma ClaimAnswers(s: Store, e: Step, l: Limits)
    requires Inv(s, l) && e.DoClaim? && Enabled(s, e)
    ensures var claimed := ClaimSeeing(s, Shown(s, e.latest), e.event, e.device, e.account, e.id, e.now).1;
      (claimed.Some? ==> claimed == Some(1)) &&
      (claimed.None? ==> (InProgress(s, e.event, e.device, e.now) <==> !Finished(s, e.event, e.device)))
  {
    var claimed := ClaimOutcomes(s, e, l);
    if claimed.None? {
      var k := e.latest.value;
      forall i | i in s.rows && ForPair(s.rows[i], e.event, e.device)
        ensures i == k
      {
        assert ForPair(s.rows[i], s.rows[k].event, s.rows[k].device);
      }
    }
  }

  lemma HeldClaimIsOverdue(s: Store, e: Step, l: Limits, id: ClaimId)
    requires Inv(s, l) && e.DoClaim? && Enabled(s, e)
    requires Current(s, id) && ForPair(s.rows[id], e.event, e.device)
    requires ClaimSeeing(s, Shown(s, e.latest), e.event, e.device, e.account, e.id, e.now).1.Some?
    ensures e.now > s.rows[id].createdAt + CLAIM_LEASE && !Current(Apply(s, e, l), id)
  {
    var claimed := ClaimOutcomes(s, e, l);
    assert e.latest.Some?;
    assert ForPair(s.rows[id], s.rows[e.latest.value].event, s.rows[e.latest.value].device);
  }

  /** While a claim keeps its row, the row keeps its pair and the time of that claim. */
  lemma {:induction false} ClaimTimeStays(s: Store, run: seq<Step>, l: Limits, t: Store, id: ClaimId)
    requires Runs(s, run, l, t) && id in s.rows && id in s.used
    ensures id in t.used
    ensures id in t.rows ==> t.rows[id].createdAt == s.rows[id].createdAt
    ensures id in t.rows ==> ForPair(t.rows[id], s.rows[id].event, s.rows[id].device)
  {
    if run != [] {
      var p := LastStep(s, run, l, t);
      ClaimTimeStays(s, run[..|run| - 1], l, p, id);
      var e := run[|run| - 1];
      if e.DoClaim? {
        var claimed := ClaimOutcomes(p, e, l);
      } else {
        OtherStepsKeepOwners(p, e, l);
      }
    }
  }

  /**
   Of two successful claims of a pair, with anything between them, the second takes over a first
   that was neither released nor finished only when more than 30 s have passed.
   */
  lemma ReclaimsAreALeaseApart(s: Store, first: Step, l: Limits, run: seq<Step>, t: Store, second: Step)
    requires Configured(l) && Inv(s, l) && first.DoClaim? && Enabled(s, first)
    requires first.latest.None? || Reclaimable(s.rows[first.latest.value], first.now)
    requires Runs(Apply(s, first, l), run, l, t)
    requires second.DoClaim? && Enabled(t, second) && second.event == first.event && second.device == first.device
    requires second.latest.None? || Reclaimable(t.rows[second.latest.value], second.now)
    ensures Current(t, first.id) ==> second.now > first.now + CLAIM_LEASE && !Current(Apply(t, second, l), first.id)
  {
    var claimed := ClaimOutcomes(s, first, l);
    StepKeeps(s, first, l);
    KeptFrom(Apply(s, first, l), run, l, t);
    ClaimTimeStays(Apply(s, first, l), run, l, t, first.id);
    var again := ClaimOutcomes(t, second, l);
    if Current(t, first.id) {
      HeldClaimIsOverdue(t, second, l, first.id);
    }
  }

  // Quota

  /** The step takes a unit of quota. */
  ghost predicate Spends(s: Store, e: Step, l: Limits) {
    e.DoReserve? && Current(s, e.id) && !s.rows[e.id].quotaReserved && Spend(s.quota, e.account, e.now, l).Spent?
  }

  ghost predicate Charges(s: Store, e: Step, l: Limits, event: EventId, device: Device) {
    Spends(s, e, l) && ForPair(s.rows[e.id], event, device)
  }

  ghost predicate Paid(s: Store, event: EventId, device: Device) {
    exists i :: i in s.rows && ForPair(s.rows[i], event, device) && s.rows[i].quotaReserved
  }

  ghost function Units(run: seq<Step>, l: Limits, event: EventId, device: Device): nat {
    if run == [] then 0
    else
      var before := From(Empty(), run[..|run| - 1], l);
      Units(run[..|run| - 1], l, event, device) +
      (if before.Some? && Charges(before.value, run[|run| - 1], l, event, device) then 1 else 0)
  }

  lemma PaidStays(p: Store, e: Step, l: Limits, event: EventId, device: Device)
    requires Enabled(p, e) && Recorded(p)
    ensures Paid(p, event, device) ==> Paid(Apply(p, e, l), event, device)
  {
    if Paid(p, event, device) {
      var i :| i in p.rows && ForPair(p.rows[i], event, device) && p.rows[i].quotaReserved;
      var t := Apply(p, e, l);
      if e.DoClaim? {
        var claimed := ClaimOutcomes(p, e, l);
        if claimed.Some? && e.latest == Some(i) {
          assert ForPair(t.rows[e.id], event, device) && t.rows[e.id].quotaReserved;
        } else {
          assert ForPair(t.rows[i], event, device) && t.rows[i].quotaReserved;
        }
      } else {
        assert ForPair(t.rows[i], event, device) && t.rows[i].quotaReserved;
      }
    }
  }

  lemma PayingStep(p: Store, e: Step, l: Limits, event: EventId, device: Device)
    requires Enabled(p, e) && Recorded(p) && OneRowEach(p)
    ensures Charges(p, e, l, event, device) ==> !Paid(p, event, device) && Paid(Apply(p, e, l), event, device)
    ensures !Charges(p, e, l, event, device) && Paid(Apply(p, e, l), event, device) ==> Paid(p, event, device)
  {
    var t := Apply(p, e, l);
    if Charges(p, e, l, event, device) {
      assert ForPair(t.rows[e.id], event, device) && t.rows[e.id].quotaReserved;
      forall i | i in p.rows && ForPair(p.rows[i], event, device)
        ensures i == e.id
      {
        assert ForPair(p.rows[i], p.rows[e.id].event, p.rows[e.id].device);
      }
    } else if Paid(t, event, device) {
      var i :| i in t.rows && ForPair(t.rows[i], event, device) && t.rows[i].quotaReserved;
      if e.DoClaim? {
        var claimed := ClaimOutcomes(p, e, l);
        var j := if claimed.Some? && i == e.id then e.latest.value else i;
        assert j in p.rows && ForPair(p.rows[j], event, device) && p.rows[j].quotaReserved;
      } else {
        assert i in p.rows && ForPair(p.rows[i], event, device) && p.rows[i].quotaReserved;
      }
    }
  }

  /** Through any number of reclaims a pair takes one unit, or none while nothing is reserved for it. */
  lemma {:induction false} AtMostOneUnit(run: seq<Step>, l: Limits, t: Store, event: EventId, device: Device)
    requires Configured(l) && Runs(Empty(), run, l, t)
    ensures Units(run, l, event, device) == if Paid(t, event, device) then 1 else 0
  {
    if run != [] {
      var p := LastStep(Empty(), run, l, t);
      var e := run[|run| - 1];
      RunKeeps(run[..|run| - 1], l, p);
      AtMostOneUnit(run[..|run| - 1], l, p, event, device);
      PaidStays(p, e, l, event, device);
      PayingStep(p, e, l, event, device);
    }
  }

  /** A reservation that reports success leaves the pair paid for, now and in every later state. */
  lemma {:induction false} ReservedStaysPaid(s: Store, id: ClaimId, account: Account, now: int, l: Limits,
    run: seq<Step>, t: Store)
    requires Configured(l) && Inv(s, l) && Reserve(s, id, account, now, l).1 == Reserved
    requires Runs(Reserve(s, id, account, now, l).0, run, l, t)
    ensures Paid(t, s.rows[id].event, s.rows[id].device) && Recorded(t)
  {
    var event, device := s.rows[id].event, s.rows[id].device;
    if run == [] {
      assert ForPair(t.rows[id], event, device) && t.rows[id].quotaReserved;
    } else {
      var p := LastStep(Reserve(s, id, account, now, l).0, run, l, t);
      ReservedStaysPaid(s, id, account, now, l, run[..|run| - 1], p);
      PaidStays(p, run[|run| - 1], l, event, device);
      RecordedStays(p, run[|run| - 1], l);
    }
  }

  lemma RecordedStays(p: Store, e: Step, l: Limits)
    requires Enabled(p, e) && Recorded(p)
    ensures Recorded(Apply(p, e, l))
  {}

  /** Only a successful first reservation moves a counter, and a refused one moves none. */
  lemma QuotaMovesOnlyByCharges(s: Store, e: Step, l: Limits)
    requires Enabled(s, e) && !e.DoSweep?
    ensures Apply(s, e, l).quota == s.quota <==> !Spends(s, e, l)
    ensures e.DoReserve? && Reserve(s, e.id, e.account, e.now, l).1.Refused? ==> Apply(s, e, l) == s
  {
    if e.DoReserve? && Spend(s.quota, e.account, e.now, l).Spent? {
      SpentCounters(s.quota, e.account, e.now, l);
      var d := Day(e.now);
      assert Get(Spend(s.quota, e.account, e.now, l).counters.daily, e.account, d) != Get(s.quota.daily, e.account, d);
    }
  }

  /** Every clean-up of the run cuts off before an instant. */
  ghost predicate SweptBefore(run: seq<Step>, from: int) {
    forall k :: 0 <= k < |run| && run[k].DoSweep? ==> Cutoff(run[k].now) <= from
  }

  /** Hours hold the sum of their minutes and days the sum of their hours, for windows no clean-up has reached. */
  lemma {:induction false} WindowsAreConserved(run: seq<Step>, l: Limits, t: Store, from: int)
    requires Runs(Empty(), run, l, t) && SweptBefore(run, from)
    ensures Nested(t.quota, from)
  {
    if run == [] {
      NoSpending(from);
    } else {
      var p := LastStep(Empty(), run, l, t);
      var e := run[|run| - 1];
      WindowsAreConserved(run[..|run| - 1], l, p, from);
      if e.DoSweep? {
        SweepKeepsNested(p.quota, e.now, from);
      } else if t.quota != p.quota {
        QuotaMovesOnlyByCharges(p, e, l);
        SpendKeepsNested(p.quota, e.account, e.now, l, from);
      }
    }
  }

  /** Charged units of an account in a minute. */
  ghost function Charged(run: seq<Step>, l: Limits, account: Account, minute: int): nat {
    if run == [] then 0
    else
      var before := From(Empty(), run[..|run| - 1], l);
      var e := run[|run| - 1];
      Charged(run[..|run| - 1], l, account, minute) +
      (if before.Some? && Spends(before.value, e, l) && e.account == account &&
        Truncated(e.now, MINUTE_SECONDS) == minute then 1 else 0)
  }

  /** A minute's counter is the number of reservations charged in it. */
  lemma {:induction false} CountersCountCharges(run: seq<Step>, l: Limits, t: Store, from: int,
    account: Account, minute: int)
    requires Runs(Empty(), run, l, t) && SweptBefore(run, from) && minute * SECOND >= from
    ensures Get(t.quota.burst, account, minute) == Charged(run, l, account, minute)
  {
    if run != [] {
      var p := LastStep(Empty(), run, l, t);
      var e := run[|run| - 1];
      CountersCountCharges(run[..|run| - 1], l, p, from, account, minute);
      if !e.DoSweep? {
        QuotaMovesOnlyByCharges(p, e, l);
        if t.quota != p.quota {
          SpentCounters(p.quota, e.account, e.now, l);
        }
      }
    }
  }

  // A snapshot that is not current

  /** An id that is still in the table names the same pair as before. */
  lemma {:induction false} PairStays(s: Store, run: seq<Step>, l: Limits, t: Store, id: ClaimId)
    requires Recorded(s) && Runs(s, run, l, t) && id in s.rows
    ensures id in t.used
    ensures id in t.rows ==> ForPair(t.rows[id], s.rows[id].event, s.rows[id].device)
  {
    if run != [] {
      var p := LastStep(s, run, l, t);
      PairStays(s, run[..|run| - 1], l, p, id);
      var e := run[|run| - 1];
      if e.DoClaim? {
        var claimed := ClaimOutcomes(p, e, l);
      }
    }
  }

  /** The pair was finished under an attempt number other than one, which leaves the key of a first attempt free. */
  ghost predicate FinishedLater(s: Store, event: EventId, device: Device) {
    exists i :: i in s.rows && ForPair(s.rows[i], event, device) && Terminal(s.rows[i].status) && s.rows[i].attempt != 1
  }

  /** For any snapshot whose row, if it is still there, is one of the pair. */
  lemma SeenClaimDuplicatesIff(s: Store, seen: Option<(ClaimId, Attempt)>, event: EventId, device: Device,
    account: Account, id: ClaimId, now: int, l: Limits)
    requires Inv(s, l) && id !in s.used
    requires seen.Some? && seen.value.0 in s.rows ==> ForPair(s.rows[seen.value.0], event, device)
    ensures OneRowEach(ClaimSeeing(s, seen, event, device, account, id, now).0) <==>
      !((seen.None? || Reclaimable(seen.value.1, now)) && FinishedLater(s, event, device))
  {
    var t := ClaimSeeing(s, seen, event, device, account, id, now).0;
    assert id !in s.rows;
    if k :| k in s.rows && ForPair(s.rows[k], event, device) {
      forall i | i in s.rows && ForPair(s.rows[i], event, device)
        ensures i == k
      {
        assert ForPair(s.rows[i], s.rows[k].event, s.rows[k].device);
      }
      if (seen.None? || Reclaimable(seen.value.1, now)) && FinishedLater(s, event, device) {
        assert id in t.rows && k in t.rows && ForPair(t.rows[id], t.rows[k].event, t.rows[k].device) && id != k;
      }
    }
  }

  /**
   The claim statement reads its snapshot in one state of a run and locks and writes in a later
   one. It leaves the pair with two rows if and only if what it saw could be claimed (no row, a
   released one, or one whose lease was over) and in the meantime the pair was finished under an
   attempt number other than one.
   */
  lemma RacedClaimDuplicatesIff(s: Store, latest: Option<ClaimId>, run: seq<Step>, l: Limits, t: Store,
    event: EventId, device: Device, account: Account, id: ClaimId, now: int)
    requires Configured(l) && Inv(s, l) && IsLatest(s.rows, event, device, latest)
    requires Runs(s, run, l, t) && id !in t.used
    ensures OneRowEach(ClaimSeeing(t, Shown(s, latest), event, device, account, id, now).0) <==>
      !((latest.None? || Reclaimable(s.rows[latest.value], now)) && FinishedLater(t, event, device))
  {
    if latest.Some? {
      PairStays(s, run, l, t, latest.value);
    }
    KeptFrom(s, run, l, t);
    SeenClaimDuplicatesIff(t, Shown(s, latest), event, device, account, id, now, l);
  }

  // Two runs in which it happens

  const ROOM := Limits(9, 9, 9)
  const LATE := CLAIM_LEASE + 1
  const HELD := Store(map[1 := FirstAttempt(7, 8, 5, 0)], {1}, Counters(map[], map[], map[]))
  const DONE := HELD.(rows := map[1 := FirstAttempt(7, 8, 5, 0).(attempt := 2, status := Delivered)])
  const TAKE := DoClaim(7, 8, 5, None, 1, 0)
  const DELIVER := DoFinalize(1, 2, Delivered, None, None)

  lemma SampleRuns()
    ensures Runs(Empty(), [TAKE], ROOM, HELD) && Runs(Empty(), [TAKE, DELIVER], ROOM, DONE) &&
      Runs(HELD, [DELIVER], ROOM, DONE)
  {
    var one, both := [TAKE], [TAKE, DELIVER];
    assert one[..0] == [] && both[..1] == one && [DELIVER][..0] == [];
    assert From(Empty(), [], ROOM) == Some(Empty()) && From(HELD, [], ROOM) == Some(HELD);
    assert Apply(Empty(), TAKE, ROOM).rows == HELD.rows && Apply(Empty(), TAKE, ROOM).used == HELD.used;
    assert From(Empty(), one, ROOM) == Some(HELD);
    assert Apply(HELD, DELIVER, ROOM).rows == DONE.rows;
  }

  /**
   A worker claims a pair and finishes it at its second send. A statement that read the table
   before the claim, and one that read it just before the finish with the lease over, each
   insert a second row.
   */
  lemma RacedClaimCanDuplicate()
    ensures Runs(Empty(), [TAKE, DELIVER], ROOM, DONE) && Runs(Empty(), [TAKE], ROOM, HELD) &&
      Runs(HELD, [DELIVER], ROOM, DONE)
    ensures IsLatest(Empty().rows, 7, 8, None) &&
      !OneRowEach(ClaimSeeing(DONE, Shown(Empty(), None), 7, 8, 5, 2, LATE).0)
    ensures IsLatest(HELD.rows, 7, 8, Some(1)) &&
      !OneRowEach(ClaimSeeing(DONE, Shown(HELD, Some(1)), 7, 8, 5, 2, LATE).0)
  {
    SampleRuns();
    RunKeeps([TAKE, DELIVER], ROOM, DONE);
    assert FinishedLater(DONE, 7, 8) by {
      assert ForPair(DONE.rows[1], 7, 8) && Terminal(DONE.rows[1].status);
    }
    SeenClaimDuplicatesIff(DONE, None, 7, 8, 5, 2, LATE, ROOM);
    SeenClaimDuplicatesIff(DONE, Some((1, HELD.rows[1])), 7, 8, 5, 2, LATE, ROOM);
  }
}
