/**
 The signing-key cache of one JWKS URL (edge/src/relay_authorization.ts, signingKeys).
 A lookup runs to its first await in one step; a fetch finishes in another; each caller
 that waits for it continues in a step of its own, and the one that started it also clears
 `pending`. Times are milliseconds. Key material is not modelled: a key set is its key ids
 and the fetch that delivered it.
 */
module SigningKeyCache {
  import opened Prelude

  const LIFETIME := 60000
  const FAILURE_PAUSE := 1000
  const UNKNOWN_PAUSE := 5000

  type Kid = string
  type FetchId = nat
  type Caller = nat

  datatype Keys = Keys(kids: set<Kid>, from: FetchId)

  datatype Entry = Entry(
    until: int, failureUntil: Option<int>, unknownRefresh: Option<int>, keys: Keys, pending: Option<FetchId>)

  datatype Fetch = Flying | Resolved(at: int, keys: Keys) | Rejected(at: int)

  /** A caller between its lookup and its answer. */
  datatype Wait = Wait(fetch: FetchId, starter: bool)

  /** What the outside sees: whom each lookup joined, what fetches did, and what each caller got. */
  datatype Note =
    | Started(at: int, caller: Caller, fetch: FetchId, unknown: bool)
    | Joined(at: int, caller: Caller, fetch: FetchId)
    | Failed(at: int, caller: Caller, fetch: FetchId)
    | Returned(at: int, caller: Caller, keys: Keys, awaited: bool)
    | Threw(at: int, caller: Caller)

  datatype State = State(
    clock: int, entry: Option<Entry>, fetches: map<FetchId, Fetch>, waiting: map<Caller, Wait>, callers: set<Caller>,
    log: seq<Note>)

  datatype Event =
    | Lookup(now: int, caller: Caller, kid: Kid, id: FetchId)
    | Resolve(now: int, id: FetchId, kids: set<Kid>)
    | Reject(now: int, id: FetchId)
    | Continue(now: int, caller: Caller)

  const BLANK := Entry(0, None, None, Keys({}, 0), None)
  const START := State(0, None, map[], map[], {}, [])

  /** Lookups bring new callers and fetch ids; a fetch finishes once; a caller continues when its fetch has finished. */
  predicate Enabled(s: State, e: Event) {
    s.clock <= e.now &&
    match e
    case Lookup(_, caller, _, id) => caller !in s.callers && id !in s.fetches
    case Resolve(_, id, _) => id in s.fetches && s.fetches[id].Flying?
    case Reject(_, id) => id in s.fetches && s.fetches[id].Flying?
    case Continue(_, caller) =>
      caller in s.waiting && s.waiting[caller].fetch in s.fetches && !s.fetches[s.waiting[caller].fetch].Flying?
  }

  predicate Serves(e: Entry, kid: Kid, now: int) {
    e.until > now && (kid in e.keys.kids || now - Coalesce(e.unknownRefresh, 0) < UNKNOWN_PAUSE)
  }

  function Refetch(e: Entry, kid: Kid, now: int, id: FetchId): Entry {
    e.(unknownRefresh := if e.until > now && kid !in e.keys.kids then Some(now) else e.unknownRefresh,
       pending := Some(id))
  }

  function Logged(s: State, n: Note): State {
    s.(log := s.log + [n])
  }

  function OnLookup(s: State, now: int, caller: Caller, kid: Kid, id: FetchId): State {
    var s := s.(clock := now, callers := s.callers + {caller});
    var e := Coalesce(s.entry, BLANK);
    if e.pending.Some? then
      Logged(s.(waiting := s.waiting[caller := Wait(e.pending.value, false)]), Joined(now, caller, e.pending.value))
    else if e.failureUntil.Some? && e.failureUntil.value > now then Logged(s, Threw(now, caller))
    else if s.entry.Some? && Serves(e, kid, now) then Logged(s, Returned(now, caller, e.keys, false))
    else
      Logged(
        s.(entry := Some(Refetch(e, kid, now, id)), fetches := s.fetches[id := Flying],
           waiting := s.waiting[caller := Wait(id, true)]),
        Started(now, caller, id, e.until > now && kid !in e.keys.kids))
  }

  /** The entry after the catch and finally blocks of the caller that started a fetch. */
  function Cleared(e: Entry, id: FetchId, fetch: Fetch, now: int): Entry {
    e.(pending := if e.pending == Some(id) then None else e.pending,
       failureUntil := if fetch.Resolved? then e.failureUntil else Some(now + FAILURE_PAUSE))
  }

  function OnContinue(s: State, now: int, caller: Caller): State
    requires caller in s.waiting && s.waiting[caller].fetch in s.fetches
  {
    var Wait(id, starter) := s.waiting[caller];
    var s := s.(clock := now, waiting := s.waiting - {caller});
    var t := if starter && s.entry.Some? then s.(entry := Some(Cleared(s.entry.value, id, s.fetches[id], now))) else s;
    match s.fetches[id]
    case Resolved(_, keys) => Logged(t, Returned(now, caller, keys, true))
    case _ => Logged(t, if starter then Failed(now, caller, id) else Threw(now, caller))
  }

  function Step(s: State, e: Event): State
    requires Enabled(s, e)
  {
    match e
    case Lookup(now, caller, kid, id) => OnLookup(s, now, caller, kid, id)
    case Resolve(now, id, kids) =>
      var keys := Keys(kids, id);
      s.(clock := now, fetches := s.fetches[id := Resolved(now, keys)],
         entry := Some(Coalesce(s.entry, BLANK).(keys := keys, until := now + LIFETIME)))
    case Reject(now, id) => s.(clock := now, fetches := s.fetches[id := Rejected(now)])
    case Continue(now, caller) => OnContinue(s, now, caller)
  }

  function After(events: seq<Event>): State {
    if events == [] then START
    else
      var before, e := After(events[..|events| - 1]), events[|events| - 1];
      if Enabled(before, e) then Step(before, e) else before
  }

  // ---- The laws ----

  ghost predicate OneFlying(s: State) {
    forall i :: i in s.fetches && s.fetches[i].Flying? ==> s.entry.Some? && s.entry.value.pending == Some(i)
  }

  /** No fetch starts within a second of a failure before it. */
  ghost predicate FailuresPause(log: seq<Note>) {
    forall i, j :: 0 <= i < j < |log| && log[i].Failed? && log[j].Started? ==> log[i].at + FAILURE_PAUSE <= log[j].at
  }

  /** Refreshes for an unknown key id are at least five seconds apart. */
  ghost predicate UnknownsPause(log: seq<Note>) {
    forall i, j :: 0 <= i < j < |log| && Refreshes(log[i]) && Refreshes(log[j]) ==>
      log[i].at + UNKNOWN_PAUSE <= log[j].at
  }

  predicate Refreshes(n: Note) {
    n.Started? && n.unknown
  }

  /** The caller's lookup found this fetch pending, or started it. */
  predicate Asks(n: Note, caller: Caller, fetch: FetchId) {
    (n.Started? || n.Joined?) && n.caller == caller && n.fetch == fetch
  }

  ghost predicate Asked(log: seq<Note>, caller: Caller, fetch: FetchId) {
    exists j :: 0 <= j < |log| && Asks(log[j], caller, fetch)
  }

  /** The fetch delivered these keys by an instant. */
  predicate Delivered(s: State, keys: Keys, at: int) {
    keys.from in s.fetches && s.fetches[keys.from].Resolved? && s.fetches[keys.from].keys == keys &&
    s.fetches[keys.from].at <= at
  }

  /**
   Keys a caller gets come from a fetch that delivered them: the very fetch that was pending at
   its own lookup, or, answered at once, one that finished under a minute before.
   */
  ghost predicate Honest(s: State, i: nat)
    requires i < |s.log|
  {
    var n := s.log[i];
    n.Returned? ==>
      Delivered(s, n.keys, n.at) &&
      if n.awaited then Asked(s.log[..i], n.caller, n.keys.from) else n.at < s.fetches[n.keys.from].at + LIFETIME
  }

  ghost predicate AllHonest(s: State) {
    forall i :: 0 <= i < |s.log| ==> Honest(s, i)
  }

  ghost predicate Laws(s: State) {
    OneFlying(s) && FailuresPause(s.log) && UnknownsPause(s.log) && AllHonest(s)
  }

  // ---- Their invariant ----

  ghost predicate Timed(s: State) {
    0 <= s.clock && (forall n <- s.log :: n.at <= s.clock) &&
    (forall i :: i in s.fetches && s.fetches[i].Resolved? ==> s.fetches[i].at <= s.clock && s.fetches[i].keys.from == i)
  }

  ghost predicate Remembered(s: State) {
    var e := Coalesce(s.entry, BLANK);
    (e.pending.Some? ==> e.pending.value in s.fetches) &&
    (e.until > 0 ==> e.keys.from in s.fetches && s.fetches[e.keys.from] == Resolved(e.until - LIFETIME, e.keys)) &&
    (forall n <- s.log :: n.Failed? ==> e.failureUntil.Some? && n.at + FAILURE_PAUSE <= e.failureUntil.value) &&
    (forall n <- s.log :: Refreshes(n) ==> e.unknownRefresh.Some? && n.at <= e.unknownRefresh.value)
  }

  /** Each waiting caller asked for its fetch; the one that started it still holds the pending mark. */
  ghost predicate Waits(s: State) {
    s.waiting.Keys <= s.callers &&
    forall c :: c in s.waiting ==>
      s.waiting[c].fetch in s.fetches && Asked(s.log, c, s.waiting[c].fetch) &&
      (s.waiting[c].starter ==> s.entry.Some? && s.entry.value.pending == Some(s.waiting[c].fetch))
  }

  /** A fetch has one starter. */
  ghost predicate OneStarter(s: State) {
    forall c, d :: c in s.waiting && d in s.waiting && s.waiting[c].starter && s.waiting[d].starter ==> c == d
  }

  ghost predicate Inv(s: State) {
    Laws(s) && Timed(s) && Remembered(s) && Waits(s) && OneStarter(s)
  }

  ghost predicate Past(at: Option<int>, now: int) {
    at.Some? ==> at.value <= now
  }

  /** Resolved fetches stay as they are. */
  ghost predicate KeepsResults(s: State, t: State) {
    forall i :: i in s.fetches && s.fetches[i].Resolved? ==> i in t.fetches && t.fetches[i] == s.fetches[i]
  }

  lemma AskedStays(log: seq<Note>, n: Note, caller: Caller, fetch: FetchId)
    requires Asked(log, caller, fetch)
    ensures Asked(log + [n], caller, fetch)
  {
    var j :| 0 <= j < |log| && Asks(log[j], caller, fetch);
    assert Asks((log + [n])[j], caller, fetch);
  }

  /** One more note keeps the pauses when it does, and everybody's honesty. */
  lemma PausesGrow(s: State, n: Note)
    requires Inv(s) && s.clock <= n.at
    requires n.Started? ==> Past(Coalesce(s.entry, BLANK).failureUntil, n.at)
    requires Refreshes(n) ==> Past(Coalesce(s.entry, BLANK).unknownRefresh, n.at - UNKNOWN_PAUSE)
    ensures FailuresPause(s.log + [n]) && UnknownsPause(s.log + [n])
  {
    forall i | 0 <= i < |s.log|
      ensures s.log[i].Failed? && n.Started? ==> s.log[i].at + FAILURE_PAUSE <= n.at
      ensures Refreshes(s.log[i]) && Refreshes(n) ==> s.log[i].at + UNKNOWN_PAUSE <= n.at
    {
      assert s.log[i] in s.log;
    }
  }

  lemma HonestyLasts(s: State, t: State)
    requires AllHonest(s) && KeepsResults(s, t) && s.log <= t.log
    ensures forall i :: 0 <= i < |s.log| ==> Honest(t, i)
  {
    forall i | 0 <= i < |s.log|
      ensures Honest(t, i)
    {
      assert Honest(s, i);
      assert t.log[..i] == s.log[..i];
    }
  }

  lemma WaitersStay(s: State, t: State, n: Note)
    requires Waits(s) && t.log == s.log + [n] && t.waiting == s.waiting && t.entry == s.entry
    requires s.fetches.Keys <= t.fetches.Keys && s.callers <= t.callers
    ensures Waits(t)
  {
    forall c | c in t.waiting
      ensures Asked(t.log, c, t.waiting[c].fetch)
    {
      AskedStays(s.log, n, c, s.waiting[c].fetch);
    }
  }

  lemma AnswerKeeps(s: State, e: Event)
    requires Inv(s) && Enabled(s, e) && e.Lookup? && Step(s, e).waiting == s.waiting
    ensures Inv(Step(s, e))
  {
    var t := Step(s, e);
    var n := t.log[|s.log|];
    assert t.log == s.log + [n];
    PausesGrow(s, n);
    HonestyLasts(s, t);
    WaitersStay(s, t, n);
  }

  lemma JoinKeeps(s: State, e: Event)
    requires Inv(s) && Enabled(s, e) && e.Lookup? && Coalesce(s.entry, BLANK).pending.Some?
    ensures Inv(Step(s, e))
  {
    var t := Step(s, e);
    var n := Joined(e.now, e.caller, s.entry.value.pending.value);
    assert t.log == s.log + [n] && t.log[|s.log|] == n;
    PausesGrow(s, n);
    HonestyLasts(s, t);
    JoinKeepsWaiters(s, e);
  }

  lemma JoinKeepsWaiters(s: State, e: Event)
    requires Inv(s) && Enabled(s, e) && e.Lookup? && Coalesce(s.entry, BLANK).pending.Some?
    ensures Waits(Step(s, e)) && OneStarter(Step(s, e))
  {
    var t := Step(s, e);
    var n := Joined(e.now, e.caller, s.entry.value.pending.value);
    assert t.log == s.log + [n] && t.log[|s.log|] == n;
    forall c | c in t.waiting
      ensures Asked(t.log, c, t.waiting[c].fetch)
    {
      if c == e.caller {
        assert Asks(t.log[|s.log|], c, t.waiting[c].fetch);
      } else {
        AskedStays(s.log, n, c, s.waiting[c].fetch);
      }
    }
  }

  predicate Starts(s: State, e: Event) {
    e.Lookup? &&
    var entry := Coalesce(s.entry, BLANK);
    entry.pending.None? && !(entry.failureUntil.Some? && entry.failureUntil.value > e.now) &&
    !(s.entry.Some? && Serves(entry, e.kid, e.now))
  }

  lemma StartKeepsWaiters(s: State, e: Event)
    requires Inv(s) && Enabled(s, e) && Starts(s, e)
    ensures Waits(Step(s, e)) && OneStarter(Step(s, e))
  {
    var t := Step(s, e);
    var n := t.log[|s.log|];
    assert t.log == s.log + [n];
    forall c | c in t.waiting
      ensures Asked(t.log, c, t.waiting[c].fetch)
    {
      if c == e.caller {
        assert Asks(t.log[|s.log|], c, e.id);
      } else {
        AskedStays(s.log, n, c, s.waiting[c].fetch);
      }
    }
  }

  lemma StartKeeps(s: State, e: Event)
    requires Inv(s) && Enabled(s, e) && Starts(s, e)
    ensures Inv(Step(s, e))
  {
    var t := Step(s, e);
    var n := t.log[|s.log|];
    assert t.log == s.log + [n];
    HonestyLasts(s, t);
    StartRemembers(s, e);
    StartKeepsWaiters(s, e);
  }

  lemma StartRemembers(s: State, e: Event)
    requires Inv(s) && Enabled(s, e) && Starts(s, e)
    ensures var t := Step(s, e);
      OneFlying(t) && Timed(t) && Remembered(t) && FailuresPause(t.log) && UnknownsPause(t.log)
  {
    var t := Step(s, e);
    var n := t.log[|s.log|];
    assert t.log == s.log + [n];
    PausesGrow(s, n);
  }

  lemma LookupKeeps(s: State, e: Event)
    requires Inv(s) && Enabled(s, e) && e.Lookup?
    ensures Inv(Step(s, e))
  {
    if Coalesce(s.entry, BLANK).pending.Some? {
      JoinKeeps(s, e);
    } else if Starts(s, e) {
      StartKeeps(s, e);
    } else {
      AnswerKeeps(s, e);
    }
  }

  lemma ContinueKeepsWaiters(s: State, e: Event)
    requires Inv(s) && Enabled(s, e) && e.Continue?
    ensures Waits(Step(s, e)) && OneStarter(Step(s, e))
  {
    var t := Step(s, e);
    var n := t.log[|s.log|];
    assert t.log == s.log + [n];
    forall c | c in t.waiting
      ensures Asked(t.log, c, t.waiting[c].fetch)
    {
      AskedStays(s.log, n, c, s.waiting[c].fetch);
    }
  }

  lemma ContinueIsHonest(s: State, e: Event)
    requires Inv(s) && Enabled(s, e) && e.Continue?
    ensures AllHonest(Step(s, e))
  {
    var t := Step(s, e);
    assert t.log[..|s.log|] == s.log;
    HonestyLasts(s, t);
  }

  lemma ContinueRemembers(s: State, e: Event)
    requires Inv(s) && Enabled(s, e) && e.Continue?
    ensures var t := Step(s, e);
      OneFlying(t) && Timed(t) && Remembered(t) && FailuresPause(t.log) && UnknownsPause(t.log)
  {
    var t := Step(s, e);
    var n := t.log[|s.log|];
    assert t.log == s.log + [n];
    PausesGrow(s, n);
  }

  lemma ContinueKeeps(s: State, e: Event)
    requires Inv(s) && Enabled(s, e) && e.Continue?
    ensures Inv(Step(s, e))
  {
    ContinueIsHonest(s, e);
    ContinueRemembers(s, e);
    ContinueKeepsWaiters(s, e);
  }

  lemma FinishKeeps(s: State, e: Event)
    requires Inv(s) && Enabled(s, e) && (e.Resolve? || e.Reject?)
    ensures Inv(Step(s, e))
  {
    HonestyLasts(s, Step(s, e));
  }

  lemma StepKeeps(s: State, e: Event)
    requires Inv(s) && Enabled(s, e)
    ensures Inv(Step(s, e))
  {
    match e
    case Lookup(_, _, _, _) => LookupKeeps(s, e);
    case Resolve(_, _, _) => FinishKeeps(s, e);
    case Reject(_, _) => FinishKeeps(s, e);
    case Continue(_, _) => ContinueKeeps(s, e);
  }

  /**
   In every run: at most one fetch is in flight; a caller's keys come from the fetch pending at
   its own lookup or from one finished less than 60 s before its answer; no fetch starts within
   1 s of a failure; and unknown-key refreshes are at least 5 s apart.
   */
  lemma {:induction false} CacheLaws(events: seq<Event>)
    ensures Inv(After(events)) && Laws(After(events))
  {
    if events != [] {
      var before, e := events[..|events| - 1], events[|events| - 1];
      CacheLaws(before);
      if Enabled(After(before), e) {
        StepKeeps(After(before), e);
      }
    }
  }

  lemma AtMostOneInFlight(events: seq<Event>, i: FetchId, j: FetchId)
    requires var f := After(events).fetches; i in f && j in f && f[i].Flying? && f[j].Flying?
    ensures i == j
  {
    CacheLaws(events);
  }

  /**
   A lookup answers from the cache exactly when no fetch is pending, no failure is recent,
   the keys are fresh, and the key is known or was looked for under 5 s ago; it starts a
   fetch exactly when nothing stands in its way, and joins exactly when one is pending.
   */
  lemma LookupAnswers(events: seq<Event>, e: Event)
    requires Enabled(After(events), e) && e.Lookup?
    ensures var s, t := After(events), Step(After(events), e);
      var entry := Coalesce(s.entry, BLANK);
      var calm := entry.pending.None? && (entry.failureUntil.None? || entry.failureUntil.value <= e.now);
      |t.log| == |s.log| + 1 &&
      var n := t.log[|s.log|];
      && (n == Returned(e.now, e.caller, entry.keys, false) <==> calm && Serves(entry, e.kid, e.now))
      && (e.id in t.fetches <==> calm && !Serves(entry, e.kid, e.now))
      && (e.caller in t.waiting <==> entry.pending.Some? || (calm && !Serves(entry, e.kid, e.now)))
  {
    CacheLaws(events);
  }

  // ---- The cache object ----

  /** Delivered under a minute ago. */
  predicate FreshKeys(s: State, keys: Keys, now: int) {
    Delivered(s, keys, now) && now < s.fetches[keys.from].at + LIFETIME
  }

  datatype Outcome = Waiting(id: FetchId) | Unavailable | Cached(keys: Keys) | Fetching

  lemma StarterClears(s: State, caller: Caller, now: int)
    requires Inv(s) && Enabled(s, Continue(now, caller)) && s.waiting[caller].starter
    ensures var t := Step(s, Continue(now, caller)); var fetch := s.fetches[s.waiting[caller].fetch];
      t.entry.Some? && t.entry.value.pending.None? && t.fetches == s.fetches &&
      (fetch.Resolved? ==> Delivered(t, fetch.keys, now) && fetch.keys.from == s.waiting[caller].fetch) &&
      (!fetch.Resolved? ==> forall e: Event :: e.Lookup? && e.now < now + FAILURE_PAUSE ==> !Starts(t, e))
  {}

  class KeyCache {
    var clock: int
    var entry: Option<Entry>
    var fetches: map<FetchId, Fetch>
    var waiting: map<Caller, Wait>
    var callers: set<Caller>
    var log: seq<Note>

    constructor ()
      ensures Valid() && View() == START
    {
      clock, entry, fetches, waiting, callers, log := 0, None, map[], map[], {}, [];
    }

    ghost function View(): State
      reads this
    {
      State(clock, entry, fetches, waiting, callers, log)
    }

    ghost predicate Valid()
      reads this
    {
      Inv(View())
    }

    /** The early returns of signingKeys: a pending fetch, a recent failure, fresh keys. */
    method AnswerAtOnce(caller: Caller, kid: Kid, now: int, id: FetchId) returns (outcome: Outcome)
      requires Enabled(View(), Lookup(now, caller, kid, id))
      modifies this
      ensures outcome.Fetching? <==> Starts(old(View()), Lookup(now, caller, kid, id))
      ensures outcome.Fetching? ==> View() == old(View())
      ensures !outcome.Fetching? ==> View() == Step(old(View()), Lookup(now, caller, kid, id))
      ensures outcome.Cached? ==> entry.Some? && entry.value.until > now && outcome.keys == entry.value.keys
      ensures outcome.Waiting? ==> caller in waiting && waiting[caller] == Wait(outcome.id, false)
    {
      outcome := Fetching;
      if entry.Some? {
        var e := entry.value;
        if e.pending.Some? {
          waiting := waiting[caller := Wait(e.pending.value, false)];
          log := log + [Joined(now, caller, e.pending.value)];
          outcome := Waiting(e.pending.value);
        } else if e.failureUntil.Some? && e.failureUntil.value > now {
          log := log + [Threw(now, caller)];
          outcome := Unavailable;
        } else if e.until > now && (kid in e.keys.kids || now - Coalesce(e.unknownRefresh, 0) < UNKNOWN_PAUSE) {
          log := log + [Returned(now, caller, e.keys, false)];
          outcome := Cached(e.keys);
        }
      }
      if !outcome.Fetching? {
        clock, callers := now, callers + {caller};
      }
    }

    /** The start of a fetch. */
    method StartFetch(caller: Caller, kid: Kid, now: int, id: FetchId)
      requires Enabled(View(), Lookup(now, caller, kid, id)) && Starts(View(), Lookup(now, caller, kid, id))
      modifies this
      ensures View() == Step(old(View()), Lookup(now, caller, kid, id))
    {
      clock, callers := now, callers + {caller};
      var target := if entry.Some? then entry.value else BLANK;
      var unknown := target.until > now && kid !in target.keys.kids;
      if unknown {
        target := target.(unknownRefresh := Some(now));
      }
      entry := Some(target.(pending := Some(id)));
      fetches := fetches[id := Flying];
      waiting := waiting[caller := Wait(id, true)];
      log := log + [Started(now, caller, id, unknown)];
    }

    /** signingKeys up to its await. */
    method SigningKeys(caller: Caller, kid: Kid, now: int, id: FetchId) returns (outcome: Outcome)
      requires Valid() && Enabled(View(), Lookup(now, caller, kid, id))
      modifies this
      ensures Valid() && View() == Step(old(View()), Lookup(now, caller, kid, id))
      ensures outcome.Fetching? <==> Starts(old(View()), Lookup(now, caller, kid, id))
      ensures outcome.Cached? ==> FreshKeys(View(), outcome.keys, now)
      ensures outcome.Waiting? ==> caller in waiting && waiting[caller] == Wait(outcome.id, false)
    {
      StepKeeps(View(), Lookup(now, caller, kid, id));
      outcome := AnswerAtOnce(caller, kid, now, id);
      if outcome.Fetching? {
        StartFetch(caller, kid, now, id);
      }
    }

    /** The fetch delivers its keys: for a minute every lookup of one of them that finds no fetch pending is served. */
    method Complete(id: FetchId, kids: set<Kid>, now: int)
      requires Valid() && Enabled(View(), Resolve(now, id, kids))
      modifies this
      ensures Valid() && entry.Some? && entry.value.pending == Some(id) && entry.value.keys == Keys(kids, id)
      ensures forall kid, at :: kid in kids && at < now + LIFETIME ==> Serves(entry.value, kid, at)
      ensures forall kid, at :: at >= now + LIFETIME ==> !Serves(entry.value, kid, at)
      ensures log == old(log) && waiting == old(waiting) && callers == old(callers)
    {
      StepKeeps(View(), Resolve(now, id, kids));
      clock := now;
      var keys := Keys(kids, id);
      var target := if entry.Some? then entry.value else BLANK;
      entry := Some(target.(keys := keys, until := now + LIFETIME));
      fetches := fetches[id := Resolved(now, keys)];
      assert View() == Step(old(View()), Resolve(now, id, kids));
    }

    /** The catch and finally blocks of the caller that started the fetch: afterwards none is pending. */
    method Conclude(caller: Caller, now: int) returns (keys: Option<Keys>)
      requires Valid() && Enabled(View(), Continue(now, caller)) && waiting[caller].starter
      modifies this
      ensures Valid() && View() == Step(old(View()), Continue(now, caller))
      ensures entry.Some? && entry.value.pending.None?
      ensures keys.Some? ==> Delivered(View(), keys.value, now) && keys.value.from == old(waiting)[caller].fetch
      ensures keys.None? ==> forall e: Event :: e.Lookup? && e.now < now + FAILURE_PAUSE ==> !Starts(View(), e)
    {
      StepKeeps(View(), Continue(now, caller));
      StarterClears(View(), caller, now);
      clock := now;
      var id := waiting[caller].fetch;
      waiting := waiting - {caller};
      var target := entry.value;
      if fetches[id].Resolved? {
        keys := Some(fetches[id].keys);
        log := log + [Returned(now, caller, fetches[id].keys, true)];
      } else {
        keys := None;
        target := target.(failureUntil := Some(now + FAILURE_PAUSE));
        log := log + [Failed(now, caller, id)];
      }
      if target.pending == Some(id) {
        target := target.(pending := None);
      }
      entry := Some(target);
      assert View() == Step(old(View()), Continue(now, caller));
    }
  }
}
