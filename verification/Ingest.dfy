/**
 Receiving a runtime's event batch (cloud/src/events/ingest.rs): events that break the
 payload policy are rejected one by one, the others are stored once for each runtime and
 lower-cased event id. The checks that do not depend on the clock are given by their codes.
 */
module Ingest {
  import opened Prelude
  import opened EventModel
  import Invariant = EventInvariant
  import UserCode

  const MAX_BATCH_EVENTS := 100
  const TOLERANCE := 5 * 60 * SECOND
  const MAX_ID_BYTES := 128
  const SHOWN_ID_CHARS := 64

  /**
   `shape` is the code of a failed check made before the clock is read, `content` of one made
   after. `data` holds the kept fields as text, `named` the string among them under workspaceId.
   */
  datatype Input = Input(
    eventId: string, occurredAt: int, shape: Option<string>, content: Option<string>, kind: string,
    workspace: Option<string>, project: Option<string>, data: map<string, string>, named: Option<string>)

  type Table = map<EventId, DomainEvent>

  /** validate_event: the code of the first failed check. */
  function Fault(e: Input, latest: int): Option<string> {
    if e.shape.Some? then e.shape
    else if e.occurredAt > latest then Some("invalid_event_time")
    else e.content
  }

  function LowerChar(c: char): char {
    if 'A' <= c <= 'Z' then ((c as int) + 32) as char else c
  }

  function Lower(s: string): string {
    seq(|s|, i requires 0 <= i < |s| => LowerChar(s[i]))
  }

  function Key(e: Input): string {
    Lower(e.eventId)
  }

  function Utf8Bytes(s: string): nat {
    if s == "" then 0
    else
      var n := s[0] as int;
      (if n < 0x80 then 1 else if n < 0x800 then 2 else if n < 0x10000 then 3 else 4) + Utf8Bytes(s[1..])
  }

  predicate Control(c: char) {
    c as int < 0x20 || 0x7f <= c as int < 0xa0
  }

  /** valid_id: not blank, at most 128 bytes, no control characters. */
  predicate ValidId(s: string) {
    (exists c :: c in s && !UserCode.Whitespace(c)) &&
    Utf8Bytes(s) <= MAX_ID_BYTES && forall c :: c in s ==> !Control(c)
  }

  /** The envelope's workspace, else a valid one named in the data. */
  function WorkspaceOf(e: Input): Option<string> {
    if e.workspace.Some? then e.workspace
    else if e.named.Some? && ValidId(e.named.value) then e.named
    else None
  }

  /** An id as it is echoed in a rejection. */
  function Shown(id: string): string {
    if |id| <= SHOWN_ID_CHARS then id else id[..SHOWN_ID_CHARS]
  }

  // What a batch comes to

  function Valid(batch: seq<Input>, latest: int): seq<Input> {
    if batch == [] then []
    else
      var last := batch[|batch| - 1];
      Valid(batch[..|batch| - 1], latest) + (if Fault(last, latest).None? then [last] else [])
  }

  function Rejected(batch: seq<Input>, latest: int): seq<(string, string)> {
    if batch == [] then []
    else
      var last := batch[|batch| - 1];
      var fault := Fault(last, latest);
      Rejected(batch[..|batch| - 1], latest) + (if fault.Some? then [(Shown(last.eventId), fault.value)] else [])
  }

  function Keys(events: seq<Input>): set<string> {
    set e | e in events :: Key(e)
  }

  /** The first event of each key. */
  function Firsts(events: seq<Input>): seq<Input> {
    if events == [] then []
    else
      var last := events[|events| - 1];
      var before := events[..|events| - 1];
      Firsts(before) + (if Key(last) in Keys(before) then [] else [last])
  }

  function Stored(table: Table, runtime: string): set<string> {
    set m | m in table && table[m].runtimeId == runtime :: table[m].key
  }

  /** The events that do not conflict with a stored row. */
  function Fresh(events: seq<Input>, stored: set<string>): seq<Input> {
    if events == [] then []
    else
      var last := events[|events| - 1];
      Fresh(events[..|events| - 1], stored) + (if Key(last) in stored then [] else [last])
  }

  function RowOf(e: Input, runtime: string, account: nat, now: int): DomainEvent {
    DomainEvent(account, runtime, Key(e), e.kind, WorkspaceOf(e), e.project, e.data, now, None)
  }

  /** The rows for some events, with ids counting up from first. */
  function Arrivals(events: seq<Input>, first: nat, runtime: string, account: nat, now: int): (t: Table)
    ensures forall m :: m in t <==> first <= m < first + |events|
    ensures forall m :: m in t ==> t[m] == RowOf(events[m - first], runtime, account, now)
  {
    if events == [] then map[]
    else
      var n := |events| - 1;
      Arrivals(events[..n], first, runtime, account, now)[first + n := RowOf(events[n], runtime, account, now)]
  }

  datatype Response = Response(accepted: nat, duplicate: int, rejected: seq<(string, string)>)
  datatype Reply = BadBatch | NotOwned | Posted(response: Response, active: nat)

  function NewEvents(table: Table, runtime: string, batch: seq<Input>, latest: int): seq<Input> {
    Fresh(Firsts(Valid(batch, latest)), Stored(table, runtime))
  }

  function Answer(table: Table, runtime: string, batch: seq<Input>, latest: int): Response {
    var valid := Valid(batch, latest);
    var unique := Firsts(valid);
    var accepted := |Fresh(unique, Stored(table, runtime))|;
    Response(accepted, |unique| - accepted + (|valid| - |unique|), Rejected(batch, latest))
  }

  // Counting

  lemma {:induction false} EveryEventIsValidOrRejected(batch: seq<Input>, latest: int)
    ensures |Valid(batch, latest)| + |Rejected(batch, latest)| == |batch|
  {
    if batch != [] {
      EveryEventIsValidOrRejected(batch[..|batch| - 1], latest);
    }
  }

  lemma {:induction false} ValidEvents(batch: seq<Input>, latest: int, e: Input)
    ensures e in Valid(batch, latest) <==> e in batch && Fault(e, latest).None?
  {
    if batch != [] {
      var n := |batch| - 1;
      ValidEvents(batch[..n], latest, e);
      assert batch == batch[..n] + [batch[n]];
    }
  }

  lemma LastKey(events: seq<Input>)
    requires events != []
    ensures Keys(events) == Keys(events[..|events| - 1]) + {Key(events[|events| - 1])}
  {
    var n := |events| - 1;
    assert events == events[..n] + [events[n]];
  }

  lemma KeysOf(a: seq<Input>, b: seq<Input>)
    ensures Keys(a + b) == Keys(a) + Keys(b)
  {}

  /** The firsts have the same keys, one each. */
  lemma {:induction false} FirstsHaveTheKeys(events: seq<Input>)
    ensures Keys(Firsts(events)) == Keys(events) && |Firsts(events)| == |Keys(events)|
  {
    if events != [] {
      var before := events[..|events| - 1];
      FirstsHaveTheKeys(before);
      LastKey(events);
      KeysOf(Firsts(before), [events[|events| - 1]]);
    }
  }

  /** What is fresh has the keys not stored, and stays one for each key. */
  lemma {:induction false} FreshHasTheKeys(events: seq<Input>, stored: set<string>)
    requires |events| == |Keys(events)|
    ensures Keys(Fresh(events, stored)) == Keys(events) - stored && |Fresh(events, stored)| == |Keys(events) - stored|
  {
    if events != [] {
      var n := |events| - 1;
      var before, last := events[..n], events[n];
      LastKey(events);
      KeysAreAtMost(before);
      assert Key(last) !in Keys(before);
      FreshHasTheKeys(before, stored);
      KeysOf(Fresh(before, stored), [last]);
      if Key(last) in stored {
        assert Keys(events) - stored == Keys(before) - stored;
      } else {
        assert Keys(events) - stored == (Keys(before) - stored) + {Key(last)};
      }
    }
  }

  lemma {:induction false} KeysAreAtMost(events: seq<Input>)
    ensures |Keys(events)| <= |events|
  {
    if events != [] {
      LastKey(events);
      KeysAreAtMost(events[..|events| - 1]);
    }
  }

  /** A batch stores one event for each valid key that is new, and its three counts add up to its size. */
  lemma CountsAddUp(table: Table, runtime: string, batch: seq<Input>, latest: int)
    ensures var r := Answer(table, runtime, batch, latest);
      r.accepted == |Keys(Valid(batch, latest)) - Stored(table, runtime)| && r.duplicate >= 0 &&
      r.accepted + r.duplicate + |r.rejected| == |batch|
  {
    var valid := Valid(batch, latest);
    EveryEventIsValidOrRejected(batch, latest);
    FirstsHaveTheKeys(valid);
    FreshHasTheKeys(Firsts(valid), Stored(table, runtime));
    KeysAreAtMost(valid);
    SubsetCardinality(Keys(valid) - Stored(table, runtime), Keys(valid));
  }

  // Uniqueness

  ghost predicate UniqueKeys(table: Table) {
    forall a, b :: a in table && b in table && table[a].runtimeId == table[b].runtimeId && table[a].key == table[b].key
      ==> a == b
  }

  lemma {:induction false} DistinctKeys(events: seq<Input>, i: nat, j: nat)
    requires |events| == |Keys(events)| && i < j < |events|
    ensures Key(events[i]) != Key(events[j])
  {
    var n := |events| - 1;
    LastKey(events);
    KeysAreAtMost(events[..n]);
    if j == n {
      assert events[i] == events[..n][i] && events[..n][i] in events[..n];
    } else {
      DistinctKeys(events[..n], i, j);
    }
  }

  lemma NewKeyIsNotStored(table: Table, added: seq<Input>, first: nat, runtime: string, account: nat, now: int,
    a: EventId, b: EventId)
    requires Keys(added) !! Stored(table, runtime) && b in table
    requires a in Arrivals(added, first, runtime, account, now)
    ensures !(table[b].runtimeId == runtime && table[b].key == Arrivals(added, first, runtime, account, now)[a].key)
  {
    assert added[a - first] in added;
    assert Key(added[a - first]) in Keys(added);
    assert table[b].runtimeId == runtime ==> table[b].key in Stored(table, runtime);
  }

  lemma NewKeysDiffer(added: seq<Input>, first: nat, runtime: string, account: nat, now: int, a: EventId, b: EventId)
    requires |added| == |Keys(added)|
    requires var t := Arrivals(added, first, runtime, account, now); a in t && b in t && t[a].key == t[b].key
    ensures a == b
  {
    if a < b {
      DistinctKeys(added, a - first, b - first);
    } else if b < a {
      DistinctKeys(added, b - first, a - first);
    }
  }

  lemma AddingKeepsKeysUnique(table: Table, added: seq<Input>, first: nat, runtime: string, account: nat, now: int)
    requires UniqueKeys(table) && |added| == |Keys(added)| && Keys(added) !! Stored(table, runtime)
    ensures UniqueKeys(table + Arrivals(added, first, runtime, account, now))
  {
    var arrived := Arrivals(added, first, runtime, account, now);
    var t := table + arrived;
    forall a, b | a in t && b in t && t[a].runtimeId == t[b].runtimeId && t[a].key == t[b].key
      ensures a == b
    {
      if a in arrived && b in arrived {
        NewKeysDiffer(added, first, runtime, account, now, a, b);
      } else if a in arrived {
        NewKeyIsNotStored(table, added, first, runtime, account, now, a, b);
      } else if b in arrived {
        NewKeyIsNotStored(table, added, first, runtime, account, now, b, a);
      }
    }
  }

  /** Storing a batch keeps stored events unique for each runtime and event id. */
  lemma BatchKeepsKeysUnique(table: Table, runtime: string, account: nat, batch: seq<Input>, latest: int,
    first: nat, now: int)
    requires UniqueKeys(table)
    ensures UniqueKeys(table + Arrivals(NewEvents(table, runtime, batch, latest), first, runtime, account, now))
  {
    FirstsHaveTheKeys(Valid(batch, latest));
    FreshHasTheKeys(Firsts(Valid(batch, latest)), Stored(table, runtime));
    AddingKeepsKeysUnique(table, NewEvents(table, runtime, batch, latest), first, runtime, account, now);
  }

  /** What a step receives, if it receives anything, is what storing some batch adds. */
  ghost predicate Intake(s: Store, e: Step) {
    e.Receive? ==>
      exists runtime, account, batch, latest, first :: IsBatch(s, e, runtime, account, batch, latest, first)
  }

  ghost predicate IsBatch(s: Store, e: Step, runtime: string, account: nat,
    batch: seq<Input>, latest: int, first: nat) {
    e.Receive? && e.arrived == Arrivals(NewEvents(s.events, runtime, batch, latest), first, runtime, account, e.now)
  }

  lemma StepKeepsKeysUnique(s: Store, e: Step)
    requires UniqueKeys(s.events) && Intake(s, e)
    ensures UniqueKeys(Invariant.Next(s, e).events)
  {
    if e.Receive? {
      var runtime, account, batch, latest, first :| IsBatch(s, e, runtime, account, batch, latest, first);
      BatchKeepsKeysUnique(s.events, runtime, account, batch, latest, first, e.now);
    }
  }

  /** The steps of a run that receive events store batches. */
  ghost predicate ByBatches(steps: seq<Step>) {
    steps == [] ||
    (ByBatches(steps[..|steps| - 1]) && Intake(Invariant.From(EMPTY, steps[..|steps| - 1]), steps[|steps| - 1]))
  }

  lemma {:induction false} RunKeepsKeysUnique(steps: seq<Step>)
    requires ByBatches(steps)
    ensures UniqueKeys(Invariant.From(EMPTY, steps).events)
  {
    if steps != [] {
      RunKeepsKeysUnique(steps[..|steps| - 1]);
      StepKeepsKeysUnique(Invariant.From(EMPTY, steps[..|steps| - 1]), steps[|steps| - 1]);
    }
  }

  /** So a subscription never has two delivery rows for one event id of a runtime. */
  lemma OneDeliveryPerEventId(steps: seq<Step>, r: RowId, q: RowId)
    requires ByBatches(steps)
    requires var s := Invariant.From(EMPTY, steps);
      r in s.rows && q in s.rows && s.rows[r].sub == s.rows[q].sub &&
      s.rows[r].event in s.events && s.rows[q].event in s.events &&
      s.events[s.rows[r].event].runtimeId == s.events[s.rows[q].event].runtimeId &&
      s.events[s.rows[r].event].key == s.events[s.rows[q].event].key
    ensures r == q
  {
    RunKeepsKeysUnique(steps);
    Invariant.ReachableKeeps(Invariant.From(EMPTY, steps));
  }

  // Sending a batch again

  /** The clock has let in an event since: it was too far in the future, and its id is not stored. */
  ghost predicate LetIn(table: Table, runtime: string, e: Input, before: int, after: int) {
    e.shape.None? && e.content.None? && before < e.occurredAt <= after && Key(e) !in Stored(table, runtime)
  }

  /** The event was valid the first time, and its id is not stored any more. */
  ghost predicate Forgotten(table: Table, runtime: string, e: Input, before: int) {
    Fault(e, before).None? && Key(e) !in Stored(table, runtime)
  }

  /**
   A batch sent again is accepted for nothing, except for events that were too far in the future
   the first time and no longer are, and events that were valid and are not stored any more.
   */
  lemma ResendAcceptsNothingIff(table: Table, runtime: string, batch: seq<Input>, before: int, after: int)
    requires before <= after
    ensures Answer(table, runtime, batch, after).accepted == 0 <==>
      forall e :: e in batch ==> !LetIn(table, runtime, e, before, after) && !Forgotten(table, runtime, e, before)
  {
    var left := Keys(Valid(batch, after)) - Stored(table, runtime);
    CountsAddUp(table, runtime, batch, after);
    if e :| e in batch && (LetIn(table, runtime, e, before, after) || Forgotten(table, runtime, e, before)) {
      ValidEvents(batch, after, e);
      assert Key(e) in left;
    } else {
      forall e | e in Valid(batch, after)
        ensures Key(e) in Stored(table, runtime)
      {
        ValidEvents(batch, after, e);
        assert !LetIn(table, runtime, e, before, after) && !Forgotten(table, runtime, e, before);
      }
      assert left == {};
    }
  }

  lemma ArrivedAreStored(table: Table, added: seq<Input>, first: nat, runtime: string, account: nat, now: int,
    k: string)
    requires table.Keys !! Arrivals(added, first, runtime, account, now).Keys
    requires k in Stored(table, runtime) + Keys(added)
    ensures k in Stored(table + Arrivals(added, first, runtime, account, now), runtime)
  {
    var t := table + Arrivals(added, first, runtime, account, now);
    if k in Stored(table, runtime) {
      var m :| m in table && table[m].runtimeId == runtime && table[m].key == k;
      assert m in t && t[m] == table[m];
    } else {
      var i :| 0 <= i < |added| && Key(added[i]) == k;
      assert first + i in t && t[first + i] == RowOf(added[i], runtime, account, now);
    }
  }

  lemma OnlyArrivedAreStored(table: Table, added: seq<Input>, first: nat, runtime: string, account: nat, now: int,
    k: string)
    requires k in Stored(table + Arrivals(added, first, runtime, account, now), runtime)
    ensures k in Stored(table, runtime) + Keys(added)
  {
    var arrived := Arrivals(added, first, runtime, account, now);
    var t := table + arrived;
    var m :| m in t && t[m].runtimeId == runtime && t[m].key == k;
    if m in arrived {
      assert added[m - first] in added;
    }
  }

  /** After a batch is stored, the stored ids of its runtime are the former ones and its valid ones. */
  lemma BatchIsStored(table: Table, runtime: string, account: nat, batch: seq<Input>, latest: int, first: nat, now: int)
    requires table.Keys !! Arrivals(NewEvents(table, runtime, batch, latest), first, runtime, account, now).Keys
    ensures var t := table + Arrivals(NewEvents(table, runtime, batch, latest), first, runtime, account, now);
      Stored(t, runtime) == Stored(table, runtime) + Keys(Valid(batch, latest))
  {
    var stored := Stored(table, runtime);
    var added := NewEvents(table, runtime, batch, latest);
    FirstsHaveTheKeys(Valid(batch, latest));
    FreshHasTheKeys(Firsts(Valid(batch, latest)), stored);
    var t := table + Arrivals(added, first, runtime, account, now);
    forall k | k in stored + Keys(added)
      ensures k in Stored(t, runtime)
    {
      ArrivedAreStored(table, added, first, runtime, account, now, k);
    }
    forall k | k in Stored(t, runtime)
      ensures k in stored + Keys(added)
    {
      OnlyArrivedAreStored(table, added, first, runtime, account, now, k);
    }
  }

  // Sending a batch again after anything

  /** The step stores an event with this id. */
  ghost predicate Stores(s: Store, e: Step, runtime: string, k: string) {
    Enabled(s, e) &&
    ((e.Receive? && k in Stored(e.arrived, runtime)) || (e.TestWebhook? && e.runtimeId == runtime && e.key == k))
  }

  /** The step deletes every stored event with this id. */
  ghost predicate Forgets(s: Store, e: Step, runtime: string, k: string) {
    Enabled(s, e) && e.Delete? &&
    forall m :: m in s.events && s.events[m].runtimeId == runtime && s.events[m].key == k ==> m in e.events
  }

  /** An id that was stored has been deleted, and nothing has stored it since. */
  ghost predicate Deleted(s: Store, steps: seq<Step>, runtime: string, k: string) {
    steps != [] &&
    var before, e := steps[..|steps| - 1], steps[|steps| - 1];
    var m := Invariant.From(s, before);
    Forgets(m, e, runtime, k) || (Deleted(s, before, runtime, k) && !Stores(m, e, runtime, k))
  }

  lemma StoredByUnion(a: Table, b: Table, runtime: string)
    requires a.Keys !! b.Keys
    ensures Stored(a + b, runtime) == Stored(a, runtime) + Stored(b, runtime)
  {
    var t := a + b;
    forall k | k in Stored(a, runtime) + Stored(b, runtime)
      ensures k in Stored(t, runtime)
    {
      if k in Stored(a, runtime) {
        var m :| m in a && a[m].runtimeId == runtime && a[m].key == k;
        assert m in t && t[m] == a[m];
      } else {
        var m :| m in b && b[m].runtimeId == runtime && b[m].key == k;
        assert m in t && t[m] == b[m];
      }
    }
  }

  lemma StoredAfterDelete(s: Store, e: Step, runtime: string, k: string)
    requires Enabled(s, e) && e.Delete?
    ensures k in Stored(Apply(s, e).events, runtime) <==>
      k in Stored(s.events, runtime) && !Forgets(s, e, runtime, k)
  {
    var t := Apply(s, e).events;
    assert t == s.events - e.events;
    if k in Stored(s.events, runtime) && !Forgets(s, e, runtime, k) {
      var m :| m in s.events && s.events[m].runtimeId == runtime && s.events[m].key == k && m !in e.events;
      assert m in t && t[m] == s.events[m];
    }
  }

  /** A step that does not delete it leaves an event with its runtime, id and receive time. */
  lemma EventRemains(s: Store, e: Step, m: EventId)
    requires Enabled(s, e) && m in s.events && !(e.Delete? && m in e.events)
    ensures var t := Apply(s, e).events;
      m in t && t[m].runtimeId == s.events[m].runtimeId && t[m].key == s.events[m].key &&
      t[m].receivedAt == s.events[m].receivedAt
  {}

  lemma OthersAddNoEvent(s: Store, e: Step)
    requires Enabled(s, e) && !e.Receive? && !e.TestWebhook?
    ensures Apply(s, e).events.Keys <= s.events.Keys
  {}

  /** Steps other than intake and deletion leave the stored ids alone. */
  lemma StoredAfterOther(s: Store, e: Step, runtime: string)
    requires Enabled(s, e) && !e.Delete? && !e.Receive? && !e.TestWebhook?
    ensures Stored(Apply(s, e).events, runtime) == Stored(s.events, runtime)
  {
    OthersAddNoEvent(s, e);
    forall m | m in s.events
      ensures var t := Apply(s, e).events;
        m in t && t[m].runtimeId == s.events[m].runtimeId && t[m].key == s.events[m].key
    {
      EventRemains(s, e, m);
    }
  }

  lemma StoredAfterTest(s: Store, e: Step, runtime: string)
    requires Enabled(s, e) && e.TestWebhook?
    ensures Stored(Apply(s, e).events, runtime) ==
      Stored(s.events, runtime) + if e.runtimeId == runtime then {e.key} else {}
  {
    var test := TestEvent(e.account, e.runtimeId, e.key, e.now);
    var one: Table := map[e.event := test];
    StoredByUnion(s.events, one, runtime);
    assert Apply(s, e).events == s.events + one;
    assert e.event in one && one[e.event] == test;
  }

  lemma StoredMoves(s: Store, e: Step, runtime: string, k: string)
    requires Enabled(s, e)
    ensures k in Stored(Apply(s, e).events, runtime) <==>
      Stores(s, e, runtime, k) || (k in Stored(s.events, runtime) && !Forgets(s, e, runtime, k))
  {
    if e.Receive? {
      StoredByUnion(s.events, e.arrived, runtime);
    } else if e.Delete? {
      StoredAfterDelete(s, e, runtime, k);
    } else if e.TestWebhook? {
      StoredAfterTest(s, e, runtime);
    } else {
      StoredAfterOther(s, e, runtime);
    }
  }

  /** Only deletions make the store forget an id. */
  lemma {:induction false} ForgottenIffDeleted(s: Store, steps: seq<Step>, runtime: string, k: string)
    requires k in Stored(s.events, runtime)
    ensures k !in Stored(Invariant.From(s, steps).events, runtime) <==> Deleted(s, steps, runtime, k)
  {
    if steps != [] {
      var before, e := steps[..|steps| - 1], steps[|steps| - 1];
      ForgottenIffDeleted(s, before, runtime, k);
      if Enabled(Invariant.From(s, before), e) {
        StoredMoves(Invariant.From(s, before), e, runtime, k);
      }
    }
  }

  /**
   A batch stored by some step and sent again after any run is accepted for nothing if and only if
   the clock has let in none of its events meanwhile, and none of those valid the first time has
   been deleted without being stored again.
   */
  lemma ResendAfterRun(s: Store, send: Step, runtime: string, account: nat, batch: seq<Input>, before: int,
    first: nat, steps: seq<Step>, after: int)
    requires Enabled(s, send) && IsBatch(s, send, runtime, account, batch, before, first) && before <= after
    ensures var u, t := Apply(s, send), Invariant.From(Apply(s, send), steps);
      Answer(t.events, runtime, batch, after).accepted == 0 <==>
      forall e :: e in batch ==>
        !LetIn(t.events, runtime, e, before, after) && !(Fault(e, before).None? && Deleted(u, steps, runtime, Key(e)))
  {
    var u, t := Apply(s, send), Invariant.From(Apply(s, send), steps);
    ResendAcceptsNothingIff(t.events, runtime, batch, before, after);
    BatchIsStored(s.events, runtime, account, batch, before, first, send.now);
    forall e | e in batch && Fault(e, before).None?
      ensures Forgotten(t.events, runtime, e, before) <==> Deleted(u, steps, runtime, Key(e))
    {
      ValidEvents(batch, before, e);
      assert Key(e) in Keys(Valid(batch, before));
      ForgottenIffDeleted(u, steps, runtime, Key(e));
    }
  }

  /** The deletions of the run are maintenance: events received more than 24 hours before. */
  ghost predicate Sweeps(s: Store, steps: seq<Step>) {
    forall i :: 0 <= i < |steps| && steps[i].Delete? ==> SweepsAt(Invariant.From(s, steps[..i]), steps[i])
  }

  ghost predicate SweepsAt(s: Store, e: Step)
    requires e.Delete?
  {
    forall m :: m in e.events && m in s.events ==> s.events[m].receivedAt < e.now - RETENTION
  }

  /** An event stays while no clean-up is more than 24 hours later. */
  lemma {:induction false} EventStays(s: Store, steps: seq<Step>, m: EventId)
    requires m in s.events && Sweeps(s, steps)
    requires forall e <- steps :: e.now <= s.events[m].receivedAt + RETENTION
    ensures var t := Invariant.From(s, steps).events;
      m in t && t[m].runtimeId == s.events[m].runtimeId && t[m].key == s.events[m].key &&
      t[m].receivedAt == s.events[m].receivedAt
  {
    if steps != [] {
      var n := |steps| - 1;
      var before, e := steps[..n], steps[n];
      assert Sweeps(s, before) by {
        assert forall i :: 0 <= i < n ==> before[i] == steps[i] && before[..i] == steps[..i];
      }
      assert forall x <- before :: x in steps;
      EventStays(s, before, m);
      assert steps[n] in steps;
      var t := Invariant.From(s, steps[..n]);
      assert e.Delete? ==> SweepsAt(t, steps[n]);
      if Enabled(t, e) {
        EventRemains(t, e, m);
      }
    }
  }

  /** So for 24 hours after a batch, whatever runs, none of the events it accepted is accepted again. */
  lemma AcceptedStaysADay(s: Store, send: Step, runtime: string, account: nat, batch: seq<Input>, before: int,
    first: nat, steps: seq<Step>, e: Input)
    requires Enabled(s, send) && IsBatch(s, send, runtime, account, batch, before, first)
    requires Sweeps(Apply(s, send), steps) && forall x <- steps :: x.now <= send.now + RETENTION
    requires e in NewEvents(s.events, runtime, batch, before)
    ensures Key(e) in Stored(Invariant.From(Apply(s, send), steps).events, runtime)
  {
    var m := AcceptedIsStored(s, send, runtime, account, batch, before, first, e);
    EventStays(Apply(s, send), steps, m);
  }

  lemma AcceptedIsStored(s: Store, send: Step, runtime: string, account: nat, batch: seq<Input>, before: int,
    first: nat, e: Input) returns (m: EventId)
    requires Enabled(s, send) && IsBatch(s, send, runtime, account, batch, before, first)
    requires e in NewEvents(s.events, runtime, batch, before)
    ensures m in Apply(s, send).events && Apply(s, send).events[m] == RowOf(e, runtime, account, send.now)
  {
    var added := NewEvents(s.events, runtime, batch, before);
    var i :| 0 <= i < |added| && added[i] == e;
    m := first + i;
    assert m in send.arrived;
  }

  const KEPT := Input("id", 0, None, None, "kind", None, None, map[], None)
  const CLEAN_UP := Delete(RETENTION + 1, {}, {0})

  lemma OneEventBatch(latest: int)
    requires latest >= 0
    ensures Valid([KEPT], latest) == [KEPT] && Firsts([KEPT]) == [KEPT] && Fresh([KEPT], {}) == [KEPT]
    ensures Fresh([KEPT], {Key(KEPT)}) == []
  {
    assert [KEPT][..0] == [];
  }

  /** A run that accepts an event, deletes it a day later by the clause of maintenance, and accepts it again. */
  lemma ResendAfterCleanUp(runtime: string, account: nat)
    ensures var arrived := Arrivals([KEPT], 0, runtime, account, 0);
      var send := Receive(0, arrived);
      && IsBatch(EMPTY, send, runtime, account, [KEPT], TOLERANCE, 0) && Sweeps(Apply(EMPTY, send), [CLEAN_UP])
      && Answer(EMPTY.events, runtime, [KEPT], TOLERANCE).accepted == 1
      && Answer(Apply(EMPTY, send).events, runtime, [KEPT], CLEAN_UP.now + TOLERANCE).accepted == 0
      && Answer(Invariant.From(Apply(EMPTY, send), [CLEAN_UP]).events, runtime, [KEPT],
                CLEAN_UP.now + TOLERANCE).accepted == 1
  {
    var arrived := Arrivals([KEPT], 0, runtime, account, 0);
    OneEventBatch(TOLERANCE);
    OneEventBatch(CLEAN_UP.now + TOLERANCE);
    assert Stored(map[], runtime) == {};
    var u := Apply(EMPTY, Receive(0, arrived));
    assert u.events == arrived;
    assert 0 in arrived && arrived[0] == RowOf(KEPT, runtime, account, 0);
    assert Stored(arrived, runtime) == {Key(KEPT)};
    assert [CLEAN_UP][..0] == [];
    var steps: seq<Step> := [];
    assert Invariant.From(u, steps) == u;
    assert Invariant.From(u, [CLEAN_UP]) == Apply(u, CLEAN_UP);
    assert Apply(u, CLEAN_UP).events == map[];
  }

  /** One event ten minutes ahead is rejected, and accepted when the same batch comes six minutes later. */
  lemma ResendCanAccept(runtime: string, id: string, kind: string, now: int)
    ensures var batch := [Input(id, now + 600 * SECOND, None, None, kind, None, None, map[], None)];
      Answer(map[], runtime, batch, now + TOLERANCE).accepted == 0 &&
      Answer(map[], runtime, batch, now + 360 * SECOND + TOLERANCE).accepted == 1
  {
    var e := Input(id, now + 600 * SECOND, None, None, kind, None, None, map[], None);
    assert [e][..0] == [];
    assert Fault(e, now + TOLERANCE).Some? && Fault(e, now + 360 * SECOND + TOLERANCE).None?;
    assert Valid([e], now + TOLERANCE) == [];
    assert Valid([e], now + 360 * SECOND + TOLERANCE) == [e];
    assert Firsts([e]) == [e];
    assert Fresh([e], {}) == [e];
    assert Stored(map[], runtime) == {};
  }

  // The count of subscriptions

  /** active_subscription_count: the subscriptions that would receive this runtime's events. */
  predicate Counts(s: Store, sub: Sub, account: nat, runtimeId: string, now: int) {
    sub.account == account && sub.status.Active? && (sub.refreshBefore.Some? ==> sub.refreshBefore.value > now) &&
    (sub.allRuntimes || runtimeId in sub.runtimeIds) &&
    (sub.webhook || (s.mcpEvents && runtimeId in s.mcpOn && Authorized(s, sub, runtimeId)))
  }

  function ActiveFor(s: Store, account: nat, runtimeId: string, now: int): set<SubId> {
    set u | u in s.subs && Counts(s, s.subs[u], account, runtimeId, now)
  }

  /** A subscription matches an event if and only if it is counted for the runtime and its kinds and filter agree. */
  lemma MatchesIffCounted(s: Store, u: SubId, m: DomainEvent, now: int)
    requires u in s.subs
    ensures Matches(s, s.subs[u], m, now) <==>
      u in ActiveFor(s, m.account, m.runtimeId, now) && m.kind in s.subs[u].kinds &&
      forall key :: key in s.subs[u].filter ==> Field(m, key) == Some(s.subs[u].filter[key])
  {}
}
