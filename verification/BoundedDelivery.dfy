/**
 run_bounded_deliveries (cloud/src/push_delivery.rs): tasks are spawned in order, at most four
 are running, and each completion, in whatever order completions come, is followed by the
 next task if one is left.
 */
module BoundedDelivery {
  import opened Prelude

  const MAX_PARALLEL_DELIVERIES := 4

  /** How a spawned task ends; a task that panics is reported as an internal error. */
  datatype Outcome = Answered(delivered: bool) | Errored | Panicked
  datatype Report = Ok(delivered: bool) | Err

  datatype Move = Start(task: nat) | Finish(task: nat)

  function Reported(o: Outcome): Report {
    match o
    case Answered(delivered) => Ok(delivered)
    case Errored => Err
    case Panicked => Err
  }

  function Reports(outcomes: seq<Outcome>): seq<Report> {
    seq(|outcomes|, i requires 0 <= i < |outcomes| => Reported(outcomes[i]))
  }

  function Started(trace: seq<Move>): nat {
    if trace == [] then 0
    else Started(trace[..|trace| - 1]) + (if trace[|trace| - 1].Start? then 1 else 0)
  }

  function Finishes(trace: seq<Move>): seq<nat> {
    if trace == [] then []
    else
      var last := trace[|trace| - 1];
      Finishes(trace[..|trace| - 1]) + (if last.Finish? then [last.task] else [])
  }

  function Running(trace: seq<Move>): int {
    Started(trace) - |Finishes(trace)|
  }

  /** The next task starts while fewer than four run; a running task finishes only when the bound is used up. */
  ghost predicate Allowed(trace: seq<Move>, m: Move, n: nat) {
    match m
    case Start(i) => i == Started(trace) && i < n && Running(trace) < MAX_PARALLEL_DELIVERIES
    case Finish(i) =>
      i < Started(trace) && i !in Finishes(trace) &&
      0 < Running(trace) == Min(MAX_PARALLEL_DELIVERIES, n - |Finishes(trace)|)
  }

  ghost predicate Scheduled(trace: seq<Move>, n: nat) {
    trace == [] ||
    (Scheduled(trace[..|trace| - 1], n) && Allowed(trace[..|trace| - 1], trace[|trace| - 1], n))
  }

  lemma Extend(trace: seq<Move>, m: Move, n: nat)
    requires Scheduled(trace, n) && Allowed(trace, m, n)
    ensures Scheduled(trace + [m], n)
    ensures Started(trace + [m]) == Started(trace) + (if m.Start? then 1 else 0)
    ensures Finishes(trace + [m]) == Finishes(trace) + (if m.Finish? then [m.task] else [])
  {
    assert (trace + [m])[..|trace|] == trace;
  }

  /** At no point do more than four tasks run. */
  lemma {:induction false} NeverMoreThanFour(trace: seq<Move>, n: nat, k: nat)
    requires Scheduled(trace, n) && k <= |trace|
    ensures 0 <= Running(trace[..k]) <= MAX_PARALLEL_DELIVERIES && Started(trace[..k]) <= n
  {
    if trace == [] {
      assert trace[..k] == [];
    } else {
      var init := trace[..|trace| - 1];
      if k == |trace| {
        NeverMoreThanFour(init, n, |init|);
        assert init[..|init|] == init && trace[..k] == trace;
        UnfinishedRuns(init, n);
      } else {
        NeverMoreThanFour(init, n, k);
        assert trace[..k] == init[..k];
      }
    }
  }

  /** No task finishes twice or before it starts. */
  lemma {:induction false} UnfinishedRuns(trace: seq<Move>, n: nat)
    requires Scheduled(trace, n)
    ensures Distinct(Finishes(trace)) && |Finishes(trace)| <= Started(trace) <= n
    ensures forall i :: i in Finishes(trace) ==> i < Started(trace)
  {
    if trace != [] {
      UnfinishedRuns(trace[..|trace| - 1], n);
    }
  }

  /** The reports in completion order, one for each task that has finished. */
  function Collected(trace: seq<Move>, outcomes: seq<Outcome>): seq<Report> {
    if trace == [] then []
    else
      var last := trace[|trace| - 1];
      Collected(trace[..|trace| - 1], outcomes) +
      (if last.Finish? && last.task < |outcomes| then [Reported(outcomes[last.task])] else [])
  }

  lemma {:induction false} CollectedAt(trace: seq<Move>, outcomes: seq<Outcome>)
    requires Scheduled(trace, |outcomes|)
    ensures var done := Finishes(trace);
      |Collected(trace, outcomes)| == |done| &&
      forall k :: 0 <= k < |done| ==>
        done[k] < |outcomes| && Collected(trace, outcomes)[k] == Reported(outcomes[done[k]])
  {
    if trace != [] {
      UnfinishedRuns(trace[..|trace| - 1], |outcomes|);
      CollectedAt(trace[..|trace| - 1], outcomes);
    }
  }

  /** The active tasks are those that started and have not finished. */
  ghost predicate Tracks(active: set<nat>, trace: seq<Move>) {
    |active| == Running(trace) && forall i :: i in active <==> 0 <= i < Started(trace) && i !in Finishes(trace)
  }

  method Spawn(active: set<nat>, trace: seq<Move>, next: nat, n: nat) returns (active': set<nat>, trace': seq<Move>)
    requires Tracks(active, trace) && Scheduled(trace, n) && Allowed(trace, Start(next), n)
    ensures Tracks(active', trace') && Scheduled(trace', n)
    ensures Started(trace') == next + 1 && Finishes(trace') == Finishes(trace)
    ensures forall outcomes :: Collected(trace', outcomes) == Collected(trace, outcomes)
  {
    Extend(trace, Start(next), n);
    UnfinishedRuns(trace, n);
    assert (trace + [Start(next)])[..|trace|] == trace;
    active', trace' := active + {next}, trace + [Start(next)];
  }

  method Join(active: set<nat>, results: seq<Report>, trace: seq<Move>, outcomes: seq<Outcome>, i: nat)
    returns (active': set<nat>, results': seq<Report>, trace': seq<Move>)
    requires Tracks(active, trace) && Scheduled(trace, |outcomes|) && results == Collected(trace, outcomes)
    requires i in active && Started(trace) == Min(MAX_PARALLEL_DELIVERIES + |Finishes(trace)|, |outcomes|)
    ensures Tracks(active', trace') && Scheduled(trace', |outcomes|) && results' == Collected(trace', outcomes)
    ensures Started(trace') == Started(trace) && |Finishes(trace')| == |Finishes(trace)| + 1 <= |outcomes|
  {
    Extend(trace, Finish(i), |outcomes|);
    UnfinishedRuns(trace, |outcomes|);
    UnfinishedRuns(trace + [Finish(i)], |outcomes|);
    assert (trace + [Finish(i)])[..|trace|] == trace;
    active', results', trace' := active - {i}, results + [Reported(outcomes[i])], trace + [Finish(i)];
  }

  /** The first four tasks, or all of them. */
  method Fill(n: nat) returns (active: set<nat>, trace: seq<Move>)
    ensures Started(trace) == Min(MAX_PARALLEL_DELIVERIES, n) && Finishes(trace) == []
    ensures forall outcomes :: Collected(trace, outcomes) == []
    ensures Tracks(active, trace) && Scheduled(trace, n)
  {
    active, trace := {}, [];
    var next := 0;
    while next < n && next < MAX_PARALLEL_DELIVERIES
      invariant Started(trace) == next <= n && next <= MAX_PARALLEL_DELIVERIES && Finishes(trace) == []
      invariant Tracks(active, trace) && Scheduled(trace, n)
      invariant forall outcomes :: Collected(trace, outcomes) == []
    {
      active, trace := Spawn(active, trace, next, n);
      next := next + 1;
    }
  }

  /** Between completions, as many tasks have started as the bound and the list allow. */
  ghost predicate Ongoing(active: set<nat>, results: seq<Report>, trace: seq<Move>, outcomes: seq<Outcome>) {
    Tracks(active, trace) && Scheduled(trace, |outcomes|) && results == Collected(trace, outcomes) &&
    Started(trace) == Min(MAX_PARALLEL_DELIVERIES + |Finishes(trace)|, |outcomes|)
  }

  /** One completion, of any active task, and the next task if there is one. */
  method Turn(active: set<nat>, results: seq<Report>, trace: seq<Move>, outcomes: seq<Outcome>)
    returns (active': set<nat>, results': seq<Report>, trace': seq<Move>)
    requires Ongoing(active, results, trace, outcomes) && active != {}
    ensures Ongoing(active', results', trace', outcomes)
    ensures |Finishes(trace')| == |Finishes(trace)| + 1 <= |outcomes|
  {
    var i :| i in active;
    active', results', trace' := Join(active, results, trace, outcomes, i);
    if Started(trace') < |outcomes| {
      active', trace' := Spawn(active', trace', Started(trace'), |outcomes|);
    }
  }

  /** Every task is started in order and finishes once, as scheduled; each has one report. */
  method RunBoundedDeliveries(outcomes: seq<Outcome>) returns (results: seq<Report>, trace: seq<Move>)
    ensures Scheduled(trace, |outcomes|) && Started(trace) == |outcomes| && FinishedAll(trace, |outcomes|)
    ensures results == Collected(trace, outcomes)
  {
    var active: set<nat>;
    active, trace := Fill(|outcomes|);
    results := [];
    while active != {}
      invariant Ongoing(active, results, trace, outcomes)
      decreases |outcomes| - |Finishes(trace)|
    {
      active, results, trace := Turn(active, results, trace, outcomes);
    }
    AllDone(trace, |outcomes|);
  }

  lemma AllDone(trace: seq<Move>, n: nat)
    requires Scheduled(trace, n) && Tracks({}, trace)
    requires Started(trace) == Min(MAX_PARALLEL_DELIVERIES + |Finishes(trace)|, n)
    ensures Started(trace) == n && FinishedAll(trace, n)
  {
    UnfinishedRuns(trace, n);
  }

  ghost predicate FinishedAll(trace: seq<Move>, n: nat) {
    Distinct(Finishes(trace)) && |Finishes(trace)| == n && forall i :: 0 <= i < n ==> i in Finishes(trace)
  }

  /** So the reports are, up to order, those of the tasks. */
  lemma OneReportEach(results: seq<Report>, trace: seq<Move>, outcomes: seq<Outcome>)
    requires Scheduled(trace, |outcomes|) && FinishedAll(trace, |outcomes|) && results == Collected(trace, outcomes)
    ensures multiset(results) == multiset(Reports(outcomes))
  {
    CollectedAt(trace, outcomes);
    Reordered(Finishes(trace), outcomes, results);
  }

  ghost predicate Permutes(order: seq<nat>, n: nat) {
    Distinct(order) && |order| == n && (forall i :: 0 <= i < n ==> i in order) &&
    forall k :: 0 <= k < |order| ==> order[k] < n
  }

  lemma {:induction false} Reordered(order: seq<nat>, outcomes: seq<Outcome>, results: seq<Report>)
    requires Permutes(order, |outcomes|) && |results| == |order|
    requires forall k :: 0 <= k < |order| ==> results[k] == Reported(outcomes[order[k]])
    ensures multiset(results) == multiset(Reports(outcomes))
  {
    if outcomes != [] {
      var n := |outcomes| - 1;
      assert n in order;
      var k :| 0 <= k < |order| && order[k] == n;
      StillPermutes(order, k, n);
      Reordered(Without(order, k), outcomes[..n], Without(results, k));
      TakeOut(results, k);
      assert Reports(outcomes) == Reports(outcomes[..n]) + [Reported(outcomes[n])];
    }
  }

  function Without<T>(s: seq<T>, k: nat): (r: seq<T>)
    requires k < |s|
    ensures |r| == |s| - 1 && forall i :: 0 <= i < |r| ==> r[i] == s[if i < k then i else i + 1]
  {
    s[..k] + s[k + 1..]
  }

  lemma TakeOut<T>(s: seq<T>, k: nat)
    requires k < |s|
    ensures multiset(s) == multiset(Without(s, k)) + multiset{s[k]}
  {
    assert s == s[..k] + [s[k]] + s[k + 1..];
  }

  lemma StillPermutes(order: seq<nat>, k: nat, n: nat)
    requires Permutes(order, n + 1) && k < |order| && order[k] == n
    ensures Permutes(Without(order, k), n)
  {
    var r := Without(order, k);
    forall i | 0 <= i < n
      ensures i in r
    {
      assert i in order;
      var j :| 0 <= j < |order| && order[j] == i;
      assert r[if j < k then j else j - 1] == i;
    }
  }
}
