/**
 The signing secrets of one MCP Events subscription (`subscribe` in
 cloud/src/events/mcp_subscriptions.rs, `signing_keys` in delivery.rs). A request reads the
 stored row, makes the callback echo a challenge signed with its secret unless it may reuse an
 earlier verification, and then writes the row. Reading and writing are two statements, so
 requests interleave. Times are microseconds; a request's clock reading is taken at its start.
 */
module SecretRotation {
  import opened Prelude

  const SECOND := 1_000_000
  const ROTATION_WINDOW := 300 * SECOND
  const VERIFICATION_REUSE := 300 * SECOND

  type Secret = nat
  type RequestId = nat

  datatype Previous = Previous(secret: Secret, until: int)

  datatype Entry = Entry(secret: Secret, previous: Option<Previous>, active: bool, verifiedAt: Option<int>)

  /** A request after its SELECT: `stored` is the secret of the row then, `readable` whether it could be decrypted. */
  datatype Request = Request(
    now: int, secret: Secret, stored: Option<Secret>, readable: bool, reuse: bool, echoed: bool)

  /** The callback echoed a challenge signed with this secret. */
  datatype Proof = Proof(secret: Secret, at: int)

  /** `proofs` records the challenges; the service does not keep it. */
  datatype State = State(entry: Option<Entry>, requests: map<RequestId, Request>, proofs: set<Proof>)

  datatype Step =
    | Look(id: RequestId, now: int, secret: Secret, readable: bool)
    | Echo(id: RequestId, at: int)
    | Upsert(id: RequestId)
    | Abandon(id: RequestId)
    | Stop
    | Remove

  /** The SELECT and what the request concludes from it. */
  function LookUp(entry: Option<Entry>, now: int, secret: Secret, readable: bool): Request {
    var reuse := entry.Some? && entry.value.active && readable && entry.value.secret == secret &&
      entry.value.verifiedAt.Some? && entry.value.verifiedAt.value > now - VERIFICATION_REUSE;
    Request(now, secret, StoredIn(entry), readable, reuse, false)
  }

  function StoredIn(entry: Option<Entry>): Option<Secret> {
    if entry.Some? then Some(entry.value.secret) else None
  }

  /** The request decrypted its own secret from the row. */
  predicate ReadsOwn(r: Request) {
    r.readable && r.stored == Some(r.secret)
  }

  /** secret_changed, decided at the SELECT: a secret that cannot be decrypted counts as another one. */
  predicate Changes(r: Request) {
    r.stored.Some? && !ReadsOwn(r)
  }

  function Written(entry: Option<Entry>, r: Request): Entry {
    var verified := if r.reuse then None else Some(r.now);
    match entry
    case None => Entry(r.secret, None, true, verified)
    case Some(held) =>
      Entry(r.secret, if Changes(r) then Some(Previous(held.secret, r.now + ROTATION_WINDOW)) else held.previous,
            true, if verified.Some? then verified else held.verifiedAt)
  }

  /** The keys that sign a delivery at an instant: the current one, and the previous one while it rotates out. */
  function SigningKeys(e: Entry, now: int): seq<Secret> {
    [e.secret] + if e.previous.Some? && e.previous.value.until > now then [e.previous.value.secret] else []
  }

  predicate Enabled(s: State, e: Step) {
    match e
    case Look(id, _, _, _) => id !in s.requests
    case Echo(id, at) => id in s.requests && !s.requests[id].reuse && s.requests[id].now <= at
    case Upsert(id) => id in s.requests && (s.requests[id].reuse || s.requests[id].echoed)
    case Abandon(id) => id in s.requests
    case _ => true
  }

  function Next(s: State, e: Step): State {
    if !Enabled(s, e) then s
    else
      match e
      case Look(id, now, secret, readable) =>
        s.(requests := s.requests[id := LookUp(s.entry, now, secret, readable)])
      case Echo(id, at) =>
        s.(requests := s.requests[id := s.requests[id].(echoed := true)],
           proofs := s.proofs + {Proof(s.requests[id].secret, at)})
      case Upsert(id) =>
        s.(entry := Some(Written(s.entry, s.requests[id])), requests := s.requests - {id})
      case Abandon(id) => s.(requests := s.requests - {id})
      case Stop => s.(entry := if s.entry.Some? then Some(s.entry.value.(active := false)) else None)
      case Remove => s.(entry := None)
  }

  const EMPTY := State(None, map[], {})

  function After(steps: seq<Step>): State {
    if steps == [] then EMPTY else Next(After(steps[..|steps| - 1]), steps[|steps| - 1])
  }

  lemma AfterOneMore(steps: seq<Step>, e: Step)
    ensures After(steps + [e]) == Next(After(steps), e)
  {
    assert (steps + [e])[..|steps|] == steps;
  }

  predicate Writes(s: State, e: Step) {
    Enabled(s, e) && e.Upsert?
  }

  // ---- Which secrets sign, told from the requests alone ----

  /** A rotation: the secret that was stored before, and the clock reading of the request. */
  datatype Change = Change(replaced: Secret, now: int)

  /** The secret of the request that wrote last. */
  function LastWritten(steps: seq<Step>): Option<Secret> {
    if steps == [] then None
    else
      var before, e := steps[..|steps| - 1], steps[|steps| - 1];
      if Writes(After(before), e) then Some(After(before).requests[e.id].secret)
      else if e.Remove? then None else LastWritten(before)
  }

  /** The last write over a stored secret whose request wrote another secret, or could not decrypt the stored one. */
  function LastChange(steps: seq<Step>): Option<Change> {
    if steps == [] then None
    else
      var before, e := steps[..|steps| - 1], steps[|steps| - 1];
      var s := After(before);
      if Writes(s, e) then
        var held, r := LastWritten(before), s.requests[e.id];
        if held.None? then None
        else if held.value == r.secret && r.readable then LastChange(before)
        else Some(Change(held.value, r.now))
      else if e.Remove? then None else LastChange(before)
  }

  /** The stored secret is still the one that was stored when this request looked. */
  predicate Undisturbed(s: State, id: RequestId)
    requires id in s.requests
  {
    s.requests[id].stored == StoredIn(s.entry)
  }

  /** Every write of the run finds the secret that was stored when its request looked. */
  predicate Steady(steps: seq<Step>) {
    steps == [] ||
    var before, e := steps[..|steps| - 1], steps[|steps| - 1];
    Steady(before) && (Writes(After(before), e) ==> Undisturbed(After(before), e.id))
  }

  lemma {:induction false} StoredIsLastWritten(steps: seq<Step>)
    ensures LastWritten(steps) == StoredIn(After(steps).entry)
  {
    if steps != [] {
      StoredIsLastWritten(steps[..|steps| - 1]);
    }
  }

  lemma {:induction false} PreviousIsLastChange(steps: seq<Step>)
    requires Steady(steps)
    ensures After(steps).entry.Some? ==>
      After(steps).entry.value.previous ==
      match LastChange(steps)
      case None => None
      case Some(c) => Some(Previous(c.replaced, c.now + ROTATION_WINDOW))
  {
    if steps != [] {
      var before := steps[..|steps| - 1];
      PreviousIsLastChange(before);
      StoredIsLastWritten(before);
    }
  }

  /**
   In every run whose writes find what was stored when their requests looked, a delivery is signed
   with the secret written last, and besides only with the one stored before the last rotation,
   for five minutes from that request. Requests that could not decrypt the row are included.
   */
  lemma SecretsInForce(steps: seq<Step>, at: int, x: Secret)
    requires Steady(steps) && After(steps).entry.Some?
    ensures x in SigningKeys(After(steps).entry.value, at) <==>
      LastWritten(steps) == Some(x) ||
      (LastChange(steps).Some? && LastChange(steps).value.replaced == x &&
       at < LastChange(steps).value.now + ROTATION_WINDOW)
  {
    PreviousIsLastChange(steps);
    StoredIsLastWritten(steps);
  }

  /** Nothing in these further steps writes another secret or removes the subscription. */
  predicate Refreshes(steps: seq<Step>, more: seq<Step>, secret: Secret) {
    more == [] ||
    var before, e := more[..|more| - 1], more[|more| - 1];
    var s := After(steps + before);
    Refreshes(steps, before, secret) && !e.Remove? && (Writes(s, e) ==> s.requests[e.id].secret == secret)
  }

  /** Every request that writes in these further steps could decrypt the row it found. */
  predicate Decrypts(steps: seq<Step>, more: seq<Step>) {
    more == [] ||
    var before, e := more[..|more| - 1], more[|more| - 1];
    var s := After(steps + before);
    Decrypts(steps, before) && (Writes(s, e) ==> s.requests[e.id].readable)
  }

  lemma {:induction false} RefreshesKeep(steps: seq<Step>, more: seq<Step>, secret: Secret)
    requires Refreshes(steps, more, secret) && LastWritten(steps) == Some(secret)
    ensures LastWritten(steps + more) == Some(secret) && After(steps + more).entry.Some?
    ensures Decrypts(steps, more) ==> LastChange(steps + more) == LastChange(steps)
    ensures !Decrypts(steps, more) ==>
      LastChange(steps + more).Some? && LastChange(steps + more).value.replaced == secret
  {
    if more == [] {
      assert steps + more == steps;
    } else {
      var before := more[..|more| - 1];
      RefreshesKeep(steps, before, secret);
      assert (steps + more)[..|steps + more| - 1] == steps + before;
    }
    StoredIsLastWritten(steps + more);
  }

  /**
   A client that replaces its secret and then only refreshes: through any refreshes and any other
   steps, every delivery is signed with the new secret; and with the old one exactly for five
   minutes, unless a refresh could not decrypt the row, which ends the overlap at once.
   */
  lemma RotationOverlaps(steps: seq<Step>, id: RequestId, more: seq<Step>, at: int)
    requires Writes(After(steps), Upsert(id)) && After(steps).entry.Some?
    requires After(steps).entry.value.secret != After(steps).requests[id].secret
    requires Refreshes(steps + [Upsert(id)], more, After(steps).requests[id].secret)
    requires Steady(steps + [Upsert(id)] + more)
    ensures var s, e := After(steps), After(steps + [Upsert(id)] + more).entry;
      e.Some? && s.requests[id].secret in SigningKeys(e.value, at) &&
      (s.entry.value.secret in SigningKeys(e.value, at) <==>
       at < s.requests[id].now + ROTATION_WINDOW && Decrypts(steps + [Upsert(id)], more))
  {
    var turned := steps + [Upsert(id)];
    assert turned[..|turned| - 1] == steps;
    StoredIsLastWritten(steps);
    RefreshesKeep(turned, more, After(steps).requests[id].secret);
    SecretsInForce(turned + more, at, After(steps).requests[id].secret);
    SecretsInForce(turned + more, at, After(steps).entry.value.secret);
  }

  /**
   Without that condition: a write that replaces a stored secret keeps it signing for the whole
   window if and only if its request had looked at a row without reading its own secret there, or
   the replaced one was rotating out anyway and not sooner.
   */
  lemma ReplacedSecretSignsIff(s: State, id: RequestId)
    requires Writes(s, Upsert(id)) && s.entry.Some? && s.entry.value.secret != s.requests[id].secret
    ensures var held, r := s.entry.value, s.requests[id];
      (forall at :: at < r.now + ROTATION_WINDOW ==>
         held.secret in SigningKeys(Next(s, Upsert(id)).entry.value, at)) <==>
      (r.stored.Some? && !ReadsOwn(r)) ||
      (held.previous.Some? && held.previous.value.secret == held.secret &&
       held.previous.value.until >= r.now + ROTATION_WINDOW)
  {
    var held, r := s.entry.value, s.requests[id];
    var e := Next(s, Upsert(id)).entry.value;
    var last := r.now + ROTATION_WINDOW - 1;
    if forall at :: at < r.now + ROTATION_WINDOW ==> held.secret in SigningKeys(e, at) {
      assert held.secret in SigningKeys(e, last);
    }
  }

  // ---- Verification ----

  ghost predicate Proven(s: State, secret: Secret, since: int) {
    exists p :: p in s.proofs && p.secret == secret && p.at >= since
  }

  ghost predicate EverProven(s: State, secret: Secret) {
    exists p :: p in s.proofs && p.secret == secret
  }

  /** What a request may rely on. */
  ghost predicate Entitled(s: State, r: Request) {
    (r.reuse ==> ReadsOwn(r) && EverProven(s, r.secret)) && (r.echoed ==> Proven(s, r.secret, r.now))
  }

  ghost predicate AllProven(s: State) {
    (s.entry.Some? ==> EverProven(s, s.entry.value.secret)) &&
    (s.entry.Some? && s.entry.value.previous.Some? ==> EverProven(s, s.entry.value.previous.value.secret)) &&
    (forall id :: id in s.requests ==> Entitled(s, s.requests[id]))
  }

  lemma ProofsStay(s: State, t: State, secret: Secret, since: int)
    requires s.proofs <= t.proofs
    ensures EverProven(s, secret) ==> EverProven(t, secret)
    ensures Proven(s, secret, since) ==> Proven(t, secret, since)
  {}

  lemma EchoProves(s: State, e: Step)
    requires e.Echo? && Enabled(s, e)
    ensures Proven(Next(s, e), s.requests[e.id].secret, s.requests[e.id].now)
    ensures EverProven(Next(s, e), s.requests[e.id].secret)
  {
    assert Proof(s.requests[e.id].secret, e.at) in Next(s, e).proofs;
  }

  lemma RequestsStayEntitled(s: State, e: Step)
    requires AllProven(s)
    ensures forall id :: id in Next(s, e).requests ==> Entitled(Next(s, e), Next(s, e).requests[id])
  {
    var t := Next(s, e);
    forall id | id in t.requests
      ensures Entitled(t, t.requests[id])
    {
      ProofsStay(s, t, t.requests[id].secret, t.requests[id].now);
      if e.Echo? && Enabled(s, e) {
        EchoProves(s, e);
      }
    }
  }

  lemma StepKeepsProven(s: State, e: Step)
    requires AllProven(s)
    ensures AllProven(Next(s, e))
  {
    RequestsStayEntitled(s, e);
    var t := Next(s, e);
    if Writes(s, e) {
      assert EverProven(s, s.requests[e.id].secret);
    }
  }

  /** In every run, whatever interleaves, no delivery is signed with a secret the callback has not echoed. */
  lemma {:induction false} SigningSecretsWereEchoed(steps: seq<Step>, at: int)
    ensures AllProven(After(steps))
    ensures After(steps).entry.Some? ==>
      forall x <- SigningKeys(After(steps).entry.value, at) :: EverProven(After(steps), x)
  {
    if steps != [] {
      SigningSecretsWereEchoed(steps[..|steps| - 1], at);
      StepKeepsProven(After(steps[..|steps| - 1]), steps[|steps| - 1]);
    }
  }

  /** The stamp of the row is covered by an echo of the stored secret, and so is each reuse. */
  ghost predicate Stamped(s: State) {
    (s.entry.Some? && s.entry.value.verifiedAt.Some? ==>
       Proven(s, s.entry.value.secret, s.entry.value.verifiedAt.value)) &&
    (forall id :: id in s.requests && s.requests[id].reuse ==>
       Proven(s, s.requests[id].secret, s.requests[id].now - VERIFICATION_REUSE + 1))
  }

  lemma StampedRequests(s: State, e: Step, id: RequestId)
    requires Stamped(s) && id in Next(s, e).requests && Next(s, e).requests[id].reuse
    ensures var r := Next(s, e).requests[id]; Proven(Next(s, e), r.secret, r.now - VERIFICATION_REUSE + 1)
  {
    var t := Next(s, e);
    var r := t.requests[id];
    if id in s.requests {
      ProofsStay(s, t, r.secret, r.now - VERIFICATION_REUSE + 1);
    } else {
      var p :| p in s.proofs && p.secret == r.secret && p.at >= s.entry.value.verifiedAt.value;
      assert p in t.proofs;
    }
  }

  /** A reusing write finds no row, or its own secret stored. */
  predicate FindsOwn(s: State, id: RequestId)
    requires id in s.requests
  {
    s.requests[id].reuse && s.entry.Some? ==> s.entry.value.secret == s.requests[id].secret
  }

  lemma StampedWrite(s: State, e: Step)
    requires AllProven(s) && Stamped(s) && Writes(s, e) && FindsOwn(s, e.id)
    ensures var t := Next(s, e).entry.value;
      t.verifiedAt.Some? ==> Proven(Next(s, e), t.secret, t.verifiedAt.value)
  {
    var t, r := Next(s, e), s.requests[e.id];
    assert Entitled(s, r);
    if t.entry.value.verifiedAt.Some? {
      ProofsStay(s, t, r.secret, t.entry.value.verifiedAt.value);
    }
  }

  lemma StepKeepsStamped(s: State, e: Step)
    requires AllProven(s) && Stamped(s) && (Writes(s, e) ==> FindsOwn(s, e.id))
    ensures Stamped(Next(s, e))
  {
    var t := Next(s, e);
    forall id | id in t.requests && t.requests[id].reuse
      ensures Proven(t, t.requests[id].secret, t.requests[id].now - VERIFICATION_REUSE + 1)
    {
      StampedRequests(s, e, id);
    }
    if Writes(s, e) {
      StampedWrite(s, e);
    } else if t.entry.Some? && t.entry.value.verifiedAt.Some? {
      ProofsStay(s, t, t.entry.value.secret, t.entry.value.verifiedAt.value);
    }
  }

  /** Every write of the run that reuses a verification finds no row, or its own secret stored. */
  predicate OwnReuse(steps: seq<Step>) {
    steps == [] ||
    var before, e := steps[..|steps| - 1], steps[|steps| - 1];
    OwnReuse(before) && (Writes(After(before), e) ==> FindsOwn(After(before), e.id))
  }

  lemma {:induction false} OwnReuseIsStamped(steps: seq<Step>)
    requires OwnReuse(steps)
    ensures Stamped(After(steps))
  {
    if steps != [] {
      OwnReuseIsStamped(steps[..|steps| - 1]);
      SigningSecretsWereEchoed(steps[..|steps| - 1], 0);
      StepKeepsStamped(After(steps[..|steps| - 1]), steps[|steps| - 1]);
    }
  }

  /**
   In every run whose reusing writes find no row or their own secret, a request writes a secret only
   if the callback echoed that very secret less than five minutes before the request began, or
   since. Writes that verified their own secret may cross any others.
   */
  lemma WritesAreFreshlyVerified(steps: seq<Step>, id: RequestId)
    requires OwnReuse(steps) && Writes(After(steps), Upsert(id))
    ensures var s := After(steps); Proven(s, s.requests[id].secret, s.requests[id].now - VERIFICATION_REUSE + 1)
  {
    OwnReuseIsStamped(steps);
    SigningSecretsWereEchoed(steps, 0);
    var r := After(steps).requests[id];
    if !r.reuse {
      assert Entitled(After(steps), r);
      var p :| p in After(steps).proofs && p.secret == r.secret && p.at >= r.now;
    }
  }

  /** Some later request, at an instant of its own, may write the stored secret without a fresh echo of it. */
  ghost predicate Misleads(s: State) {
    s.entry.Some? && exists now :: ReusesStale(s, now)
  }

  ghost predicate ReusesStale(s: State, now: int)
    requires s.entry.Some?
  {
    LookUp(s.entry, now, s.entry.value.secret, true).reuse &&
    !Proven(s, s.entry.value.secret, now - VERIFICATION_REUSE + 1)
  }

  /** The last instant at which the stamp may be reused tells. */
  lemma MisleadsIff(s: State)
    requires s.entry.Some? && s.entry.value.active
    ensures Misleads(s) <==>
      s.entry.value.verifiedAt.Some? && !Proven(s, s.entry.value.secret, s.entry.value.verifiedAt.value)
  {
    if s.entry.value.verifiedAt.Some? {
      var stamp := s.entry.value.verifiedAt.value;
      assert ReusesStale(s, stamp + VERIFICATION_REUSE - 1) <==> !Proven(s, s.entry.value.secret, stamp);
    }
  }

  /**
   One write, wherever the stamp was good before: it leaves a stamp that misleads a later request if
   and only if it reused a verification, found another secret with a stamp in the row, and its own
   secret has not been echoed since that stamp.
   */
  lemma WriteMisleadsIff(s: State, id: RequestId)
    requires AllProven(s) && Stamped(s) && Writes(s, Upsert(id))
    ensures var r := s.requests[id];
      Misleads(Next(s, Upsert(id))) <==>
      r.reuse && s.entry.Some? && s.entry.value.secret != r.secret &&
      s.entry.value.verifiedAt.Some? && !Proven(s, r.secret, s.entry.value.verifiedAt.value)
  {
    var t := Next(s, Upsert(id));
    MisleadsIff(t);
    if FindsOwn(s, id) {
      StampedWrite(s, Upsert(id));
    } else {
      ProofsStay(s, t, s.requests[id].secret, 0);
    }
  }

  // ---- Two requests at once ----

  const CREATED := [Look(0, 0, 7, true), Echo(0, 0), Upsert(0)]

  /** The subscription has secret 7; one request writes 8 while a refresh has already read 7. */
  const CROSSED := CREATED + [
    Look(1, 299 * SECOND, 8, true), Look(2, 299 * SECOND, 7, true), Echo(1, 299 * SECOND), Upsert(1), Upsert(2)]

  lemma CreatedState()
    ensures After(CREATED) == State(Some(Entry(7, None, true, Some(0))), map[], {Proof(7, 0)})
  {
    AfterOneMore([], CREATED[0]);
    AfterOneMore(CREATED[..1], CREATED[1]);
    AfterOneMore(CREATED[..2], CREATED[2]);
    assert [] + [CREATED[0]] == CREATED[..1];
    assert CREATED[..1] + [CREATED[1]] == CREATED[..2];
    assert CREATED[..2] + [CREATED[2]] == CREATED;
  }

  lemma CrossedReads()
    ensures After(CROSSED[..5]) == After(CREATED).(requests := map[
      1 := Request(299 * SECOND, 8, Some(7), true, false, false),
      2 := Request(299 * SECOND, 7, Some(7), true, true, false)])
  {
    CreatedState();
    AfterOneMore(CREATED, CROSSED[3]);
    AfterOneMore(CROSSED[..4], CROSSED[4]);
    assert CREATED + [CROSSED[3]] == CROSSED[..4];
    assert CROSSED[..4] + [CROSSED[4]] == CROSSED[..5];
  }

  lemma CrossedState()
    ensures After(CROSSED[..7]).entry ==
      Some(Entry(8, Some(Previous(7, 599 * SECOND)), true, Some(299 * SECOND)))
    ensures After(CROSSED) == State(Some(Entry(7, Some(Previous(7, 599 * SECOND)), true, Some(299 * SECOND))), map[],
                                    {Proof(7, 0), Proof(8, 299 * SECOND)})
  {
    CreatedState();
    CrossedReads();
    AfterOneMore(CROSSED[..5], CROSSED[5]);
    AfterOneMore(CROSSED[..6], CROSSED[6]);
    AfterOneMore(CROSSED[..7], CROSSED[7]);
    assert CROSSED[..5] + [CROSSED[5]] == CROSSED[..6];
    assert CROSSED[..6] + [CROSSED[6]] == CROSSED[..7];
    assert CROSSED[..7] + [CROSSED[7]] == CROSSED;
  }

  /**
   A run in which a secret that was written, and verified, signs nothing one statement later, and in
   which a later refresh reuses the verification of that lost secret for the other one.
   */
  lemma CrossedRequestsLoseASecret(at: int)
    ensures LastWritten(CROSSED[..7]) == Some(8)
    ensures After(CROSSED).entry.Some? && 8 !in SigningKeys(After(CROSSED).entry.value, at)
    ensures var s := After(CROSSED + [Look(3, 598 * SECOND, 7, true)]);
      Writes(s, Upsert(3)) && !Proven(s, 7, 298 * SECOND + 1)
  {
    CrossedState();
    StoredIsLastWritten(CROSSED[..7]);
    AfterOneMore(CROSSED, Look(3, 598 * SECOND, 7, true));
  }

  /** Secret 8 replaces 7, and a refresh a second later cannot decrypt the row. */
  const REPLACED := CREATED + [Look(1, 0, 8, true), Echo(1, 0), Upsert(1)]
  const REFRESHED := REPLACED + [Look(2, SECOND, 8, false), Echo(2, SECOND), Upsert(2)]

  lemma ReplacedState()
    ensures After(REPLACED).entry == Some(Entry(8, Some(Previous(7, ROTATION_WINDOW)), true, Some(0)))
    ensures After(REPLACED).requests == map[]
  {
    CreatedState();
    AfterOneMore(CREATED, REPLACED[3]);
    AfterOneMore(REPLACED[..4], REPLACED[4]);
    AfterOneMore(REPLACED[..5], REPLACED[5]);
    assert CREATED + [REPLACED[3]] == REPLACED[..4];
    assert REPLACED[..4] + [REPLACED[4]] == REPLACED[..5];
    assert REPLACED[..5] + [REPLACED[5]] == REPLACED;
  }

  /** A run in which a refresh that cannot decrypt the row ends the overlap of the old secret at once. */
  lemma UnreadableRefreshEndsOverlap()
    ensures var e := After(REPLACED).entry; e.Some? && 7 in SigningKeys(e.value, SECOND)
    ensures var e := After(REFRESHED).entry; e.Some? && 7 !in SigningKeys(e.value, SECOND)
  {
    ReplacedState();
    AfterOneMore(REPLACED, REFRESHED[6]);
    AfterOneMore(REFRESHED[..7], REFRESHED[7]);
    AfterOneMore(REFRESHED[..8], REFRESHED[8]);
    assert REPLACED + [REFRESHED[6]] == REFRESHED[..7];
    assert REFRESHED[..7] + [REFRESHED[7]] == REFRESHED[..8];
    assert REFRESHED[..8] + [REFRESHED[8]] == REFRESHED;
  }

  // ---- The two statements ----

  class SubscriptionRow {
    var entry: Option<Entry>

    constructor ()
      ensures entry.None?
    {
      entry := None;
    }

    /** The SELECT: whether an earlier verification of this very secret may stand in for a new one. */
    method ReadExisting(now: int, secret: Secret, readable: bool) returns (r: Request)
      ensures r == LookUp(entry, now, secret, readable)
      ensures r.reuse ==> entry.Some? && entry.value.secret == secret && !Changes(r)
    {
      var stored, reuse := None, false;
      if entry.Some? {
        stored := Some(entry.value.secret);
        if entry.value.active && readable && entry.value.secret == secret && entry.value.verifiedAt.Some? {
          reuse := entry.value.verifiedAt.value > now - VERIFICATION_REUSE;
        }
      }
      r := Request(now, secret, stored, readable, reuse, false);
    }

    /** The upsert: the new secret signs at once, and an undisturbed request keeps the old one for the window. */
    method WriteRow(r: Request)
      requires r.reuse || r.echoed
      modifies this
      ensures entry == Some(Written(old(entry), r))
      ensures forall at :: r.secret in SigningKeys(entry.value, at)
      ensures old(entry).Some? && r.stored == Some(old(entry).value.secret) && r.stored != Some(r.secret) ==>
        forall at :: old(entry).value.secret in SigningKeys(entry.value, at) <==> at < r.now + ROTATION_WINDOW
    {
      var previous, verified := None, None;
      if entry.Some? {
        previous := entry.value.previous;
        verified := entry.value.verifiedAt;
        if r.stored.Some? && !(r.readable && r.stored == Some(r.secret)) {
          previous := Some(Previous(entry.value.secret, r.now + ROTATION_WINDOW));
        }
      }
      if !r.reuse {
        verified := Some(r.now);
      }
      entry := Some(Entry(r.secret, previous, true, verified));
    }
  }
}
