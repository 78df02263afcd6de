/**
 Sending one push message with retries (cloud/src/fcm.rs), with and without a deadline.
 Times are milliseconds. What the network and the scheduler do around each attempt is a
 parameter, so the results hold for every such behaviour.
 */
module FcmRetry {

  datatype Error = Unregistered | InvalidArgument | RateLimited | Unauthorized | Transient | Disabled | DeadlineExceeded
  datatype Reply = Receipt(messageId: string) | Failure(error: Error)

  const MAX_SEND_ATTEMPTS := 3

  /**
   One attempt as the world plays it: how late it begins, what is answered and after how long,
   how much the pause overruns, and who wins when an answer or a wake-up meets the deadline.
   */
  datatype Attempt = Attempt(lag: nat, reply: Reply, took: nat, overrun: nat, sendLoses: bool, wakeLoses: bool)
  datatype World = World(start: int, first: Attempt, second: Attempt, third: Attempt)

  function At(w: World, k: nat): Attempt {
    if k == 1 then w.first else if k == 2 then w.second else w.third
  }

  predicate Retryable(r: Reply) {
    r.Failure? && (r.error.RateLimited? || r.error.Transient?)
  }

  predicate CanRetry(w: World, k: nat) {
    Retryable(At(w, k).reply) && k < MAX_SEND_ATTEMPTS
  }

  function RetryDelay(k: nat): nat {
    if k == 1 then 100 else if k == 2 then 300 else 0
  }

  /** When attempt k begins, if it does. */
  function SendTime(w: World, k: nat): int {
    if k <= 1 then w.start + At(w, k).lag
    else
      var before := At(w, k - 1);
      SendTime(w, k - 1) + before.took + RetryDelay(k - 1) + before.overrun + At(w, k).lag
  }

  function AnswerTime(w: World, k: nat): int {
    SendTime(w, k) + At(w, k).took
  }

  function WakeTime(w: World, k: nat): int {
    AnswerTime(w, k) + RetryDelay(k) + At(w, k).overrun
  }

  /** A future that is ready at an instant, raced against the deadline. */
  predicate TimesOut(ready: int, deadline: int, loses: bool) {
    ready > deadline || (ready == deadline && loses)
  }

  predicate InTime(w: World, deadline: int, k: nat) {
    SendTime(w, k) < deadline && !TimesOut(AnswerTime(w, k), deadline, At(w, k).sendLoses)
  }

  /** Attempt k is answered before the deadline and followed by another. */
  predicate GoesOn(w: World, deadline: int, k: nat) {
    InTime(w, deadline, k) && CanRetry(w, k) && !TimesOut(WakeTime(w, k), deadline, At(w, k).wakeLoses)
  }

  function Times(w: World, n: nat): seq<int> {
    seq(n, i requires 0 <= i < n => SendTime(w, i + 1))
  }

  /** send_with_retry: it goes on while it can, and gives the last answer. */
  ghost predicate PlainEnds(w: World, attempt: nat, result: Reply, sends: seq<int>) {
    1 <= attempt <= MAX_SEND_ATTEMPTS && (forall k :: 1 <= k < attempt ==> CanRetry(w, k)) && !CanRetry(w, attempt) &&
    result == At(w, attempt).reply && sends == Times(w, attempt)
  }

  /** send_with_retry_until: it goes on while there is time, and gives the last answer that came in time. */
  ghost predicate BoundedEnds(w: World, deadline: int, attempt: nat, result: Reply, sends: seq<int>) {
    1 <= attempt <= MAX_SEND_ATTEMPTS && (forall k :: 1 <= k < attempt ==> GoesOn(w, deadline, k)) &&
    !GoesOn(w, deadline, attempt) &&
    result == (if InTime(w, deadline, attempt) && !CanRetry(w, attempt) then At(w, attempt).reply
               else Failure(DeadlineExceeded)) &&
    sends == Times(w, if SendTime(w, attempt) < deadline then attempt else attempt - 1)
  }

  method SendWithRetry(w: World) returns (attempt: nat, result: Reply, sends: seq<int>)
    ensures PlainEnds(w, attempt, result, sends)
  {
    var now := w.start;
    attempt, sends := 1, [];
    while true
      invariant 1 <= attempt <= MAX_SEND_ATTEMPTS && sends == Times(w, attempt - 1)
      invariant now + At(w, attempt).lag == SendTime(w, attempt)
      invariant forall k :: 1 <= k < attempt ==> CanRetry(w, k)
      decreases MAX_SEND_ATTEMPTS - attempt
    {
      var a := At(w, attempt);
      now := now + a.lag;
      sends := sends + [now];
      result := a.reply;
      if !(Retryable(result) && attempt < MAX_SEND_ATTEMPTS) {
        return;
      }
      now := now + a.took + RetryDelay(attempt) + a.overrun;
      attempt := attempt + 1;
    }
  }

  method SendWithRetryUntil(w: World, deadline: int) returns (attempt: nat, result: Reply, sends: seq<int>)
    ensures BoundedEnds(w, deadline, attempt, result, sends)
  {
    var now := w.start;
    attempt, sends := 1, [];
    while true
      invariant 1 <= attempt <= MAX_SEND_ATTEMPTS && sends == Times(w, attempt - 1)
      invariant now + At(w, attempt).lag == SendTime(w, attempt)
      invariant forall k :: 1 <= k < attempt ==> GoesOn(w, deadline, k)
      decreases MAX_SEND_ATTEMPTS - attempt
    {
      var a := At(w, attempt);
      now := now + a.lag;
      if now >= deadline {
        result := Failure(DeadlineExceeded);
      } else {
        sends := sends + [now];
        now := now + a.took;
        result := if TimesOut(now, deadline, a.sendLoses) then Failure(DeadlineExceeded) else a.reply;
      }
      if !(Retryable(result) && attempt < MAX_SEND_ATTEMPTS) {
        return;
      }
      now := now + RetryDelay(attempt) + a.overrun;
      if TimesOut(now, deadline, a.wakeLoses) {
        result := Failure(DeadlineExceeded);
        return;
      }
      attempt := attempt + 1;
    }
  }

  /** Later attempts begin later, by the answer, the pause and the delay between. */
  lemma {:induction false} SendsAreOrdered(w: World, j: nat, k: nat)
    requires 1 <= j < k
    ensures AnswerTime(w, j) + RetryDelay(j) <= WakeTime(w, j) <= SendTime(w, k)
  {
    if j < k - 1 {
      SendsAreOrdered(w, j, k - 1);
    }
  }

  /** Three sends at most, the retry delay apart, none at or after the deadline. */
  lemma SendsAreBounded(w: World, deadline: int, attempt: nat, result: Reply, sends: seq<int>)
    requires BoundedEnds(w, deadline, attempt, result, sends)
    ensures |sends| <= MAX_SEND_ATTEMPTS
    ensures forall i :: 0 <= i < |sends| ==> sends[i] < deadline
    ensures forall i, j :: 0 <= i < j < |sends| ==> sends[i] + RetryDelay(i + 1) <= sends[j]
  {
    forall i | 0 <= i < |sends|
      ensures sends[i] < deadline
    {
      assert i + 1 < attempt ==> GoesOn(w, deadline, i + 1);
    }
    forall i, j | 0 <= i < j < |sends|
      ensures sends[i] + RetryDelay(i + 1) <= sends[j]
    {
      SendsAreOrdered(w, i + 1, j + 1);
    }
  }

  /** A retryable error comes back only after exactly three sends. */
  lemma RetryableOnlyAfterThree(w: World, deadline: int, attempt: nat, result: Reply, sends: seq<int>)
    requires BoundedEnds(w, deadline, attempt, result, sends)
    ensures Retryable(result) ==> attempt == |sends| == MAX_SEND_ATTEMPTS && result == w.third.reply
    ensures result != Failure(DeadlineExceeded) ==> |sends| == attempt && result == At(w, attempt).reply
  {}

  /** The deadline changes nothing when the plain form is answered before it. */
  lemma EarlyAnswersAgree(w: World, deadline: int, n: nat, r: Reply, s: seq<int>,
    attempt: nat, result: Reply, sends: seq<int>)
    requires PlainEnds(w, n, r, s) && BoundedEnds(w, deadline, attempt, result, sends)
    requires AnswerTime(w, n) < deadline
    ensures attempt == n && result == r && sends == s
  {
    forall k | 1 <= k < n
      ensures GoesOn(w, deadline, k)
    {
      SendsAreOrdered(w, k, n);
      assert CanRetry(w, k);
    }
    assert n < attempt ==> GoesOn(w, deadline, n);
  }

  /** A plain form that would be answered after the deadline becomes a deadline error. */
  lemma LateAnswersAreErrors(w: World, deadline: int, n: nat, r: Reply, s: seq<int>,
    attempt: nat, result: Reply, sends: seq<int>)
    requires PlainEnds(w, n, r, s) && BoundedEnds(w, deadline, attempt, result, sends)
    requires AnswerTime(w, n) > deadline
    ensures result == Failure(DeadlineExceeded) && attempt <= n && |sends| <= |s|
  {
    assert n < attempt ==> GoesOn(w, deadline, n);
    if attempt < n {
      assert CanRetry(w, attempt);
    }
  }
}
