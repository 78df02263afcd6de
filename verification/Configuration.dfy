/**
 Shared configuration (cloud/src/configuration.rs): compare-and-set publishing with
 idempotent operations over a history pruned to its last hundred revisions. One account is
 modelled; accounts share no rows. A request's fingerprint stands for its content.
 */
module Configuration {
  import opened Prelude
  import opened FixedWindow

  type Operation = nat
  const KEPT := 100

  /** Document, device name and summary are one `content`; the fingerprint also covers `expected`. */
  datatype Request = Request(operation: Operation, expected: Option<int>, content: string)
  datatype Revision = Revision(request: Request, client: string)
  datatype State = State(head: int, revisions: map<int, Revision>)
  datatype Outcome =
    Applied(revision: int) | Replayed(revision: int, stored: Revision) | OperationConflict | RevisionConflict

  const INITIAL := State(0, map[])

  /** A published expected revision is at least one when it is present. */
  predicate WellFormed(r: Request) {
    r.expected.Some? ==> r.expected.value >= 1
  }

  predicate Finds(s: State, operation: Operation, at: int) {
    at in s.revisions && s.revisions[at].request.operation == operation
  }

  ghost predicate Known(s: State, operation: Operation) {
    exists at :: Finds(s, operation, at)
  }

  function Stored(s: State, r: Request, client: string): State {
    var next := s.head + 1;
    var all := s.revisions[next := Revision(r, client)];
    State(next, map at | at in all && at > next - KEPT :: all[at])
  }

  /** publish, when the operation is found at a retained revision. */
  function Repeat(s: State, r: Request, at: int): Outcome
    requires at in s.revisions
  {
    if s.revisions[at].request == r then Replayed(at, s.revisions[at]) else OperationConflict
  }

  /** publish; `found` is where the operation is retained, if it is. */
  function Publish(s: State, r: Request, client: string, found: Option<int>): (State, Outcome)
    requires found.Some? ==> found.value in s.revisions
  {
    if found.Some? then (s, Repeat(s, r, found.value))
    else if Coalesce(r.expected, 0) != s.head then (s, RevisionConflict)
    else (Stored(s, r, client), Applied(s.head + 1))
  }

  ghost predicate Lookup(s: State, operation: Operation, found: Option<int>) {
    match found
    case Some(at) => Finds(s, operation, at)
    case None => !Known(s, operation)
  }

  datatype Call = Call(request: Request, client: string, found: Option<int>)

  ghost predicate Enabled(s: State, c: Call) {
    WellFormed(c.request) && Lookup(s, c.request.operation, c.found)
  }

  ghost function After(calls: seq<Call>): Option<State> {
    if calls == [] then Some(INITIAL)
    else
      var before := After(calls[..|calls| - 1]);
      var c := calls[|calls| - 1];
      if before.Some? && Enabled(before.value, c)
      then Some(Publish(before.value, c.request, c.client, c.found).0) else None
  }

  ghost predicate Result(calls: seq<Call>, k: nat, o: Outcome)
    requires k < |calls|
  {
    var before := After(calls[..k]);
    before.Some? && Enabled(before.value, calls[k]) &&
    Publish(before.value, calls[k].request, calls[k].client, calls[k].found).1 == o
  }

  lemma PrefixRuns(calls: seq<Call>, k: nat)
    requires After(calls).Some? && k < |calls|
    ensures After(calls[..k]).Some? && Enabled(After(calls[..k]).value, calls[k])
    ensures After(calls[..k + 1]) ==
      Some(Publish(After(calls[..k]).value, calls[k].request, calls[k].client, calls[k].found).0)
    decreases |calls|
  {
    var n := |calls| - 1;
    if k < n {
      PrefixRuns(calls[..n], k);
      assert calls[..n][..k] == calls[..k] && calls[..n][..k + 1] == calls[..k + 1];
    } else {
      assert calls[..k + 1] == calls;
    }
  }

  // The history

  /** The retained revisions are exactly the last hundred up to the head, each operation once. */
  ghost predicate Inv(s: State) {
    s.head >= 0 && (forall at :: at in s.revisions <==> Max(1, s.head - KEPT + 1) <= at <= s.head) && OnceEach(s) &&
    forall at :: at in s.revisions ==> Coalesce(s.revisions[at].request.expected, 0) == at - 1
  }

  predicate SameOperation(a: Revision, b: Revision) {
    a.request.operation == b.request.operation
  }

  ghost predicate OnceEach(s: State) {
    forall a, b :: a in s.revisions && b in s.revisions && SameOperation(s.revisions[a], s.revisions[b]) ==> a == b
  }

  lemma StoreKeeps(s: State, r: Request, client: string)
    requires Inv(s) && !Known(s, r.operation) && Coalesce(r.expected, 0) == s.head
    ensures Inv(Stored(s, r, client))
  {
    var t := Stored(s, r, client);
    forall at | at in s.revisions
      ensures s.revisions[at].request.operation != r.operation
    {
      assert !Finds(s, r.operation, at);
    }
  }

  lemma CallKeeps(s: State, c: Call)
    requires Inv(s) && Enabled(s, c)
    ensures Inv(Publish(s, c.request, c.client, c.found).0)
  {
    if c.found.None? && Coalesce(c.request.expected, 0) == s.head {
      StoreKeeps(s, c.request, c.client);
    }
  }

  /** In every run the head is the largest revision and the last hundred revisions are retained. */
  lemma {:induction false} RunKeeps(calls: seq<Call>)
    requires After(calls).Some?
    ensures Inv(After(calls).value)
  {
    if calls != [] {
      PrefixRuns(calls, |calls| - 1);
      assert calls[..|calls|] == calls;
      RunKeeps(calls[..|calls| - 1]);
      CallKeeps(After(calls[..|calls| - 1]).value, calls[|calls| - 1]);
    }
  }

  // Applying a request

  lemma {:induction false} HeadGrows(calls: seq<Call>, j: nat, k: nat)
    requires After(calls).Some? && j <= k <= |calls|
    ensures After(calls[..j]).Some? && After(calls[..k]).Some? &&
      After(calls[..j]).value.head <= After(calls[..k]).value.head
  {
    if j == k {
      if k < |calls| {
        PrefixRuns(calls, k);
      } else {
        assert calls[..k] == calls;
      }
    } else {
      PrefixRuns(calls, k - 1);
      HeadGrows(calls, j, k - 1);
    }
  }

  /** Where a call is applied: at the revision after the one it expects. */
  lemma AppliedAt(calls: seq<Call>, k: nat, at: int)
    requires After(calls).Some? && k < |calls| && Result(calls, k, Applied(at))
    ensures at == Coalesce(calls[k].request.expected, 0) + 1 == After(calls[..k]).value.head + 1
    ensures After(calls[..k + 1]).Some? && After(calls[..k + 1]).value.head == at
  {
    PrefixRuns(calls, k);
  }

  /**
   Two calls that expect the same revision are never both applied, so an identical request is
   applied at most once, whatever was pruned between.
   */
  lemma AppliedAtMostOnce(calls: seq<Call>, j: nat, k: nat, a: int, b: int)
    requires After(calls).Some? && j < |calls| && k < |calls|
    requires Result(calls, j, Applied(a)) && Result(calls, k, Applied(b))
    requires Coalesce(calls[j].request.expected, 0) == Coalesce(calls[k].request.expected, 0)
    ensures j == k
  {
    AppliedAt(calls, j, a);
    AppliedAt(calls, k, b);
    if j < k {
      HeadGrows(calls, j + 1, k);
    } else if k < j {
      HeadGrows(calls, k + 1, j);
    }
  }

  // Sending a request again

  /** A revision stays as it was published until it is pruned. */
  lemma {:induction false} RevisionStays(calls: seq<Call>, k: nat, at: int)
    requires After(calls).Some? && k < |calls| && Result(calls, k, Applied(at))
    ensures var s := After(calls).value;
      s.head >= at && (at > s.head - KEPT ==>
        at in s.revisions && s.revisions[at] == Revision(calls[k].request, calls[k].client))
    decreases |calls|
  {
    var n := |calls| - 1;
    PrefixRuns(calls, n);
    assert calls[..|calls|] == calls;
    var p := After(calls[..n]).value;
    if k == n {
      RunKeeps(calls[..n]);
      AppliedAt(calls, k, at);
    } else {
      assert calls[..n][..k] == calls[..k];
      RevisionStays(calls[..n], k, at);
    }
  }

  /** An operation was applied at a revision by call j. */
  ghost predicate AppliedBy(calls: seq<Call>, j: nat, operation: Operation, at: int) {
    j < |calls| && Result(calls, j, Applied(at)) && calls[j].request.operation == operation
  }

  lemma AppliedBefore(calls: seq<Call>, n: nat, j: nat, operation: Operation, at: int)
    requires j < n <= |calls| && AppliedBy(calls[..n], j, operation, at)
    ensures AppliedBy(calls, j, operation, at)
  {
    assert calls[..n][..j] == calls[..j];
  }

  /** Every retained revision was applied by a call with its operation. */
  lemma {:induction false} RetainedWasApplied(calls: seq<Call>, at: int) returns (j: nat)
    requires After(calls).Some? && at in After(calls).value.revisions
    ensures AppliedBy(calls, j, After(calls).value.revisions[at].request.operation, at)
  {
    var n := |calls| - 1;
    PrefixRuns(calls, n);
    assert calls[..|calls|] == calls;
    var p := After(calls[..n]).value;
    RunKeeps(calls[..n]);
    if at in p.revisions && p.revisions[at] == After(calls).value.revisions[at] {
      j := RetainedWasApplied(calls[..n], at);
      AppliedBefore(calls, n, j, p.revisions[at].request.operation, at);
    } else {
      j := n;
    }
  }

  /** An application of the operation is among the last hundred revisions. */
  ghost predicate AppliedRecently(calls: seq<Call>, operation: Operation)
    requires After(calls).Some?
  {
    exists j: nat, at :: AppliedBy(calls, j, operation, at) && at > After(calls).value.head - KEPT
  }

  /** The lookup finds exactly the operations applied within the last hundred revisions. */
  lemma FoundIffAppliedRecently(calls: seq<Call>, operation: Operation, found: Option<int>)
    requires After(calls).Some? && Lookup(After(calls).value, operation, found)
    ensures found.Some? <==> AppliedRecently(calls, operation)
  {
    var s := After(calls).value;
    RunKeeps(calls);
    if found.Some? {
      var j := RetainedWasApplied(calls, found.value);
    }
    if AppliedRecently(calls, operation) {
      var j: nat, at :| AppliedBy(calls, j, operation, at) && at > s.head - KEPT;
      RevisionStays(calls, j, at);
      assert Finds(s, operation, at);
    }
  }

  /** Two applications of one operation id are more than a hundred revisions apart. */
  lemma ReusesAreFarApart(calls: seq<Call>, j: nat, k: nat, operation: Operation, a: int, b: int)
    requires After(calls).Some? && j < k && AppliedBy(calls, j, operation, a) && AppliedBy(calls, k, operation, b)
    ensures b - a > KEPT
  {
    PrefixRuns(calls, k);
    AppliedAt(calls, k, b);
    assert calls[..k][..j] == calls[..j];
    RevisionStays(calls[..k], j, a);
    var s := After(calls[..k]).value;
    if a > s.head - KEPT {
      assert Finds(s, operation, a);
      assert Known(s, operation);
    }
  }

  /**
   An operation id whose last application was at revision a can be applied again, by a call that
   expects the head, if and only if that is more than a hundred revisions later.
   */
  lemma ReusableIff(calls: seq<Call>, k: nat, a: int, again: Call)
    requires After(calls).Some? && AppliedBy(calls, k, again.request.operation, a)
    requires forall j: nat, at :: AppliedBy(calls, j, again.request.operation, at) ==> j <= k
    requires Enabled(After(calls).value, again) && Coalesce(again.request.expected, 0) == After(calls).value.head
    ensures var s := After(calls).value;
      Publish(s, again.request, again.client, again.found).1 == Applied(s.head + 1) <==> s.head + 1 - a > KEPT
  {
    var s := After(calls).value;
    FoundIffAppliedRecently(calls, again.request.operation, again.found);
    if AppliedRecently(calls, again.request.operation) {
      var j: nat, at :| AppliedBy(calls, j, again.request.operation, at) && at > s.head - KEPT;
      AppliedAt(calls, j, at);
      AppliedAt(calls, k, a);
      if j < k {
        HeadGrows(calls, j + 1, k);
      }
    }
  }

  /**
   After a request was applied, the same request is answered with its original revision while
   that is among the last hundred. Afterwards it meets an operation conflict if its operation id
   was applied again within the last hundred revisions, and a revision conflict otherwise. It
   never changes anything.
   */
  lemma ReplayAnswers(calls: seq<Call>, k: nat, at: int, again: Call)
    requires After(calls).Some? && k < |calls| && Result(calls, k, Applied(at))
    requires again.request == calls[k].request && Enabled(After(calls).value, again)
    ensures var s := After(calls).value;
      Publish(s, again.request, again.client, again.found) ==
      (s, if at > s.head - KEPT then Replayed(at, Revision(calls[k].request, calls[k].client))
          else if AppliedRecently(calls, again.request.operation) then OperationConflict else RevisionConflict)
  {
    var s := After(calls).value;
    RunKeeps(calls);
    RevisionStays(calls, k, at);
    AppliedAt(calls, k, at);
    FoundIffAppliedRecently(calls, again.request.operation, again.found);
    if at > s.head - KEPT {
      assert Finds(s, again.request.operation, at);
    } else if again.found.Some? && s.revisions[again.found.value].request == again.request {
      NotRetained(calls, k, at, again.found.value);
    }
  }

  /** A pruned request's operation is not retained under another revision. */
  lemma NotRetained(calls: seq<Call>, k: nat, at: int, other: int)
    requires After(calls).Some? && k < |calls| && Result(calls, k, Applied(at))
    requires var s := After(calls).value; other in s.revisions && s.revisions[other].request == calls[k].request
    ensures other == at
  {
    RunKeeps(calls);
    AppliedAt(calls, k, at);
  }

  // A run in which an operation id is used twice

  /** The i-th of a series of calls, each with an operation of its own. */
  function Numbered(i: nat): Call {
    Call(Request(i, if i == 0 then None else Some(i), ""), "", None)
  }

  function Series(n: nat): seq<Call> {
    if n == 0 then [] else Series(n - 1) + [Numbered(n - 1)]
  }

  /** After n of them revision i carries operation i - 1. */
  lemma {:induction false} SeriesApplies(n: nat)
    ensures |Series(n)| == n && After(Series(n)).Some?
    ensures var s := After(Series(n)).value;
      s.head == n && forall at :: at in s.revisions ==> at >= 1 && s.revisions[at].request.operation == at - 1
  {
    if n > 0 {
      SeriesApplies(n - 1);
      var before, c := Series(n - 1), Numbered(n - 1);
      var s := After(before).value;
      assert Series(n)[..n - 1] == before && Series(n)[n - 1] == c;
      forall at
        ensures !Finds(s, c.request.operation, at)
      {
        if at in s.revisions {
          RunKeeps(before);
        }
      }
      assert Enabled(s, c);
    }
  }

  /** The first operation once more, after a hundred and one revisions. */
  const REUSE := Call(Request(0, Some(101), ""), "", None)

  /** A run that applies operation 0 at revision 1 and again at revision 102. */
  lemma OperationCanBeReused()
    ensures var calls := Series(101) + [REUSE];
      After(calls).Some? && AppliedBy(calls, 0, 0, 1) && AppliedBy(calls, 101, 0, 102)
  {
    var before := Series(101);
    var calls := before + [REUSE];
    SeriesApplies(101);
    RunKeeps(before);
    var s := After(before).value;
    assert calls[..101] == before && calls[101] == REUSE;
    assert !Known(s, 0) by {
      assert forall at :: at in s.revisions ==> at >= 2;
    }
    assert Enabled(s, REUSE);
    SeriesStarts(101);
    assert calls[0] == Numbered(0) && calls[..0] == [];
  }

  lemma {:induction false} SeriesStarts(n: nat)
    requires n >= 1
    ensures |Series(n)| == n && Series(n)[0] == Numbered(0)
  {
    if n > 1 {
      SeriesStarts(n - 1);
    }
  }

  /** An operation that is retained with other content is refused and changes nothing. */
  lemma OtherContentConflicts(s: State, c: Call, at: int)
    requires Inv(s) && Enabled(s, c) && Finds(s, c.request.operation, at) && s.revisions[at].request != c.request
    ensures Publish(s, c.request, c.client, c.found) == (s, OperationConflict)
  {
    if c.found.None? {
      assert Known(s, c.request.operation);
    }
  }

  // Request limits

  const WINDOW := 60 * 1_000_000

  /** limit_requests: the counter row after a request at an instant, or a refusal. */
  function Limit(w: Window, now: int, limit: nat): Option<Window> {
    match w
    case Idle => Some(Open(now, 1))
    case Open(start, used) =>
      if start <= now - WINDOW then Some(Open(now, 1))
      else if used < limit then Some(Open(start, used + 1))
      else None
  }

  /** The row and what an observer counts after requests at some instants; a refused one changes neither. */
  ghost function Served(times: seq<int>, limit: nat): (Window, Meter) {
    if times == [] then (Idle, Unused)
    else
      var (w, m) := Served(times[..|times| - 1], limit);
      var now := times[|times| - 1];
      var next := Limit(w, now, limit);
      if next.Some? then (next.value, Count(m, now, 1)) else (w, m)
  }

  ghost predicate Ordered(times: seq<int>) {
    forall i, j :: 0 <= i < j < |times| ==> times[i] <= times[j]
  }

  lemma {:induction false} RequestsAreAccounted(times: seq<int>, limit: nat)
    requires limit > 0 && Ordered(times)
    ensures var (w, m) := Served(times, limit);
      Accounted(w, m, limit, WINDOW) && (w.Open? ==> times != [] && w.start <= times[|times| - 1])
  {
    if times != [] {
      var n := |times| - 1;
      RequestsAreAccounted(times[..n], limit);
      var (w, m) := Served(times[..n], limit);
      assert n > 0 ==> times[n - 1] <= times[n];
      assert Limit(w, times[n], limit) == Admit(w, times[n], 1, limit, WINDOW);
      if Limit(w, times[n], limit).Some? {
        AdmitKeepsAccount(w, m, times[n], 1, limit, WINDOW);
      }
    }
  }

  /** In the time T after the first request, at most limit * (T / 1 minute + 1) requests are served. */
  lemma RequestsAreBounded(times: seq<int>, limit: nat)
    requires limit > 0 && Ordered(times) && Served(times, limit).1.Counting?
    ensures var m := Served(times, limit).1;
      times != [] && m.total <= limit * ((times[|times| - 1] - m.first) / WINDOW + 1)
  {
    RequestsAreAccounted(times, limit);
    var (w, m) := Served(times, limit);
    AccountBound(w, m, times[|times| - 1], limit, WINDOW);
  }
}
