/**
 Device sign-in (cloud/src/device_auth). A code is confirmed in a browser and polled by the
 runtime; the poll that finds it approved consumes it in one transaction and redeems it in a
 second one, under a lock for the runtime. Each transaction is one step, so anything may
 happen between the two.
 */
module DeviceSignIn {
  import opened Prelude
  import opened SessionModel
  import Safety = SessionSafety

  type Code = nat
  type Consent = nat

  datatype Status = Pending | Approved | Denied | Consumed
  datatype Device = Device(
    client: Client, account: Option<Account>, consent: Option<Consent>, status: Status,
    approvedAt: Option<int>, lastPolledAt: Option<int>, expiresAt: int)
  /** What a poll that consumed a code carries to its redemption. */
  datatype Ticket = Ticket(client: Client, account: Account, now: int)
  /** `usedCodes` and `consents` are the codes and consent tokens ever given out. */
  datatype Desk = Desk(
    sessions: Sessions, devices: map<Code, Device>, usedCodes: set<Code>, tickets: map<Code, Ticket>,
    consents: set<Consent>)

  const SECONDS := 1_000_000
  const DEVICE_CODE_LIFE := 600 * SECONDS
  /** One second less than the five-second poll interval. */
  const MINIMUM_GAP := 4 * SECONDS

  function Opening(): Desk {
    Desk(SessionModel.Empty(), map[], {}, map[], {})
  }

  /** runtime_signed_in. */
  ghost predicate SignedIn(s: Sessions, client: Client, now: int) {
    exists k :: k in s.tokens && s.tokens[k].family in s.families &&
      Usable(s.families[s.tokens[k].family], s.tokens[k], client, now)
  }

  predicate Usable(f: Family, t: TokenRow, client: Client, now: int) {
    f.kind == Runtime && f.client == client && f.revokedAt.None? && f.absoluteExpiresAt > now &&
    t.usedAt.None? && t.revokedAt.None? && t.inactivityExpiresAt > now
  }

  predicate Open(d: Desk, code: Code, now: int) {
    code in d.devices && d.devices[code].status == Pending && d.devices[code].expiresAt > now
  }

  /** begin_confirm. */
  function Begin(d: Desk, code: Code, account: Account, consent: Consent, now: int): Desk {
    var d := d.(consents := d.consents + {consent});
    if Open(d, code, now)
    then d.(devices := d.devices[code := d.devices[code].(account := Some(account), consent := Some(consent))])
    else d
  }

  function SetStatus(device: Device, status: Status, approvedAt: Option<int>): Device {
    device.(status := status, approvedAt := approvedAt, consent := None)
  }

  datatype Choice = Deny | Approve(ensured: bool)
  datatype Confirmation = PageExpired | NowDenied | NowApproved | Failed

  /** submit_confirm; when registering the runtime fails, the transaction is rolled back. */
  function Submit(d: Desk, code: Code, consent: Consent, choice: Choice, now: int): (Desk, Confirmation) {
    if !(Open(d, code, now) && d.devices[code].consent == Some(consent) && d.devices[code].account.Some?) then
      (d, PageExpired)
    else match choice
      case Deny => (d.(devices := d.devices[code := SetStatus(d.devices[code], Denied, None)]), NowDenied)
      case Approve(true) =>
        (d.(devices := d.devices[code := SetStatus(d.devices[code], Approved, Some(now))]), NowApproved)
      case Approve(false) => (d, Failed)
  }

  /** The second transaction after a failure: it denies the code whatever its status is by then. */
  function DenyAfterFailure(d: Desk, code: Code): Desk {
    if code in d.devices then d.(devices := d.devices[code := SetStatus(d.devices[code], Denied, None)]) else d
  }

  datatype Answer = InvalidCode | AccessDenied | ExpiredToken | Redeemable | SlowDown | AuthorizationPending

  predicate Redeems(device: Device, now: int) {
    device.status == Approved && device.account.Some? && device.expiresAt > now
  }

  function Polled(device: Device, now: int): Device {
    var status := if Redeems(device, now) then Consumed else device.status;
    device.(status := status, lastPolledAt := Some(now), consent := if status == Pending then device.consent else None)
  }

  function AnswerTo(device: Device, now: int): Answer {
    if device.status == Denied then AccessDenied
    else if device.status == Consumed || device.expiresAt <= now then ExpiredToken
    else if Redeems(device, now) then Redeemable
    else if device.lastPolledAt.Some? && now - device.lastPolledAt.value < MINIMUM_GAP then SlowDown
    else AuthorizationPending
  }

  /** The first transaction of token. */
  function Poll(d: Desk, code: Code, now: int): (Desk, Answer) {
    if code !in d.devices then (d, InvalidCode) else
    var device := d.devices[code];
    var after := d.(devices := d.devices[code := Polled(device, now)]);
    (if Redeems(device, now)
     then after.(tickets := d.tickets[code := Ticket(device.client, device.account.value, now)]) else after,
     AnswerTo(device, now))
  }

  /** The second transaction of token: a session, unless the runtime already has a usable one. */
  ghost function Redeem(d: Desk, code: Code, f: FamilyId, k: Token, now: int): Desk
    requires code in d.tickets
  {
    var ticket := d.tickets[code];
    var rest := d.(tickets := d.tickets - {code});
    if SignedIn(d.sessions, ticket.client, ticket.now) then rest
    else rest.(sessions := Insert(d.sessions, f, k, ticket.account, ticket.client, Runtime, now))
  }

  datatype Move =
    | DoStart(code: Code, client: Client, now: int)
    | DoBegin(code: Code, account: Account, consent: Consent, now: int)
    | DoSubmit(code: Code, consent: Consent, choice: Choice, now: int)
    | DoDeny(code: Code)
    | DoPoll(code: Code, now: int)
    | DoRedeem(code: Code, family: FamilyId, token: Token, now: int)
    | DoSweep(now: int)
    | DoSession(step: Step)

  /**
   Codes, consent tokens and ids are new. A denial after a failure may come at any time, which
   includes every time it does come.
   */
  predicate Enabled(d: Desk, m: Move) {
    match m
    case DoStart(code, client, now) => code !in d.usedCodes
    case DoBegin(code, account, consent, now) => consent !in d.consents
    case DoRedeem(code, f, k, now) => code in d.tickets && f !in d.sessions.usedFamilies && k !in d.sessions.usedTokens
    case DoSession(step) => SessionModel.Enabled(d.sessions, step)
    case _ => true
  }

  ghost function Apply(d: Desk, m: Move): Desk
    requires Enabled(d, m)
  {
    match m
    case DoStart(code, client, now) =>
      d.(devices := d.devices[code := Device(client, None, None, Pending, None, None, now + DEVICE_CODE_LIFE)],
         usedCodes := d.usedCodes + {code})
    case DoBegin(code, account, consent, now) => Begin(d, code, account, consent, now)
    case DoSubmit(code, consent, choice, now) => Submit(d, code, consent, choice, now).0
    case DoDeny(code) => DenyAfterFailure(d, code)
    case DoPoll(code, now) => Poll(d, code, now).0
    case DoRedeem(code, f, k, now) => Redeem(d, code, f, k, now)
    case DoSweep(now) => d.(devices := map c | c in d.devices && d.devices[c].expiresAt >= now - DAY :: d.devices[c])
    case DoSession(step) => d.(sessions := SessionModel.Apply(d.sessions, step))
  }

  ghost function From(d: Desk, run: seq<Move>): Option<Desk> {
    if run == [] then Some(d)
    else
      var before := From(d, run[..|run| - 1]);
      if before.Some? && Enabled(before.value, run[|run| - 1])
      then Some(Apply(before.value, run[|run| - 1])) else None
  }

  ghost function After(run: seq<Move>): Option<Desk> {
    From(Opening(), run)
  }

  lemma LastMove(d: Desk, run: seq<Move>, t: Desk) returns (p: Desk)
    requires From(d, run) == Some(t) && run != []
    ensures From(d, run[..|run| - 1]) == Some(p) && Enabled(p, run[|run| - 1]) && Apply(p, run[|run| - 1]) == t
  {
    p := From(d, run[..|run| - 1]).value;
  }

  // Signed in

  /** The query and a rotation agree: signed in means that some token of the runtime would rotate now. */
  lemma SignedInIffSomeTokenRotates(s: Sessions, client: Client, now: int)
    ensures SignedIn(s, client, now) <==>
      exists k :: WouldRotate(s, k, NativeEndpoint, now) && BelongsTo(s, k, client)
  {
    if SignedIn(s, client, now) {
      var k :| k in s.tokens && s.tokens[k].family in s.families &&
        Usable(s.families[s.tokens[k].family], s.tokens[k], client, now);
      assert WouldRotate(s, k, NativeEndpoint, now) && BelongsTo(s, k, client);
    }
    if k :| WouldRotate(s, k, NativeEndpoint, now) && BelongsTo(s, k, client) {
      assert Usable(s.families[s.tokens[k].family], s.tokens[k], client, now);
    }
  }

  predicate BelongsTo(s: Sessions, k: Token, client: Client) {
    k in s.tokens && s.tokens[k].family in s.families &&
    s.families[s.tokens[k].family].kind == Runtime && s.families[s.tokens[k].family].client == client
  }

  /** A redemption makes a session exactly when no token of the runtime would rotate at its clock reading. */
  lemma RedemptionNeedsSignedOut(d: Desk, m: Move)
    requires m.DoRedeem? && Enabled(d, m)
    ensures Creates(d, m) <==>
      forall k :: BelongsTo(d.sessions, k, d.tickets[m.code].client) ==>
        !WouldRotate(d.sessions, k, NativeEndpoint, d.tickets[m.code].now)
  {
    SignedInIffSomeTokenRotates(d.sessions, d.tickets[m.code].client, d.tickets[m.code].now);
    assert m.family !in d.sessions.usedFamilies;
  }

  /** The redemption adds a family. */
  ghost predicate Creates(d: Desk, m: Move)
    requires Enabled(d, m)
  {
    m.DoRedeem? && Apply(d, m).sessions != d.sessions
  }

  ghost predicate HasLiveFamily(s: Sessions, client: Client, now: int) {
    exists f :: f in s.families && s.families[f].kind == Runtime && s.families[f].client == client &&
      Safety.Live(s.families[f], now)
  }

  /** In every run the query sees exactly the live families: unrevoked, used in the last 30 days, within 365 days. */
  lemma SignedInIffLiveFamily(s: Sessions, client: Client, now: int)
    requires Safety.Inv(s)
    ensures SignedIn(s, client, now) <==> HasLiveFamily(s, client, now)
  {
    SignedInIffSomeTokenRotates(s, client, now);
    if SignedIn(s, client, now) {
      var k :| WouldRotate(s, k, NativeEndpoint, now) && BelongsTo(s, k, client);
      var f := s.tokens[k].family;
      assert Safety.Usable(s, f, NativeEndpoint, now);
      Safety.UsableIffLive(s, f, NativeEndpoint, now);
    }
    if HasLiveFamily(s, client, now) {
      var f :| f in s.families && s.families[f].kind == Runtime && s.families[f].client == client &&
        Safety.Live(s.families[f], now);
      Safety.UsableIffLive(s, f, NativeEndpoint, now);
      var k :| k in s.tokens && s.tokens[k].family == f && WouldRotate(s, k, NativeEndpoint, now);
      assert BelongsTo(s, k, client);
    }
  }

  /** So a redemption makes a session if and only if the runtime has no live family at its clock reading. */
  lemma RedeemsIffNoLiveFamily(run: seq<Move>, d: Desk, m: Move)
    requires After(run) == Some(d) && m.DoRedeem? && Enabled(d, m)
    ensures Creates(d, m) <==> !HasLiveFamily(d.sessions, d.tickets[m.code].client, d.tickets[m.code].now)
  {
    SessionsKeep(run, d);
    var ticket := d.tickets[m.code];
    SignedInIffLiveFamily(d.sessions, ticket.client, ticket.now);
    RedemptionNeedsSignedOut(d, m);
    SignedInIffSomeTokenRotates(d.sessions, ticket.client, ticket.now);
  }

  /** A family keeps its client and kind for as long as it exists. */
  lemma FamilyStays(d: Desk, m: Move, f: FamilyId)
    requires Enabled(d, m) && f in d.sessions.usedFamilies
    ensures f in Apply(d, m).sessions.usedFamilies && SameOwner(d, Apply(d, m), f)
  {}

  ghost predicate SameOwner(d: Desk, t: Desk, f: FamilyId) {
    f in t.sessions.families ==>
      f in d.sessions.families && t.sessions.families[f].client == d.sessions.families[f].client &&
      t.sessions.families[f].kind == d.sessions.families[f].kind
  }

  lemma {:induction false} FamilyForEver(d: Desk, run: seq<Move>, t: Desk, f: FamilyId)
    requires From(d, run) == Some(t) && f in d.sessions.usedFamilies
    ensures f in t.sessions.usedFamilies && SameOwner(d, t, f)
  {
    if run != [] {
      var p := LastMove(d, run, t);
      FamilyForEver(d, run[..|run| - 1], p, f);
      FamilyStays(p, run[|run| - 1], f);
    }
  }

  /**
   Of two redemptions for one runtime, with anything between them, the second succeeds only if by
   its clock reading the first one's session was deleted, revoked, idle for 30 days or a year old.
   */
  lemma SecondRedemptionNeedsDeadFirst(past: seq<Move>, d: Desk, m: Move, run: seq<Move>, t: Desk, again: Move)
    requires After(past) == Some(d) && m.DoRedeem? && Enabled(d, m) && Creates(d, m)
    requires From(Apply(d, m), run) == Some(t) && again.DoRedeem? && Enabled(t, again) && Creates(t, again)
    requires t.tickets[again.code].client == d.tickets[m.code].client
    ensures m.family in t.sessions.families ==> !Safety.Live(t.sessions.families[m.family], t.tickets[again.code].now)
  {
    FamilyForEver(Apply(d, m), run, t, m.family);
    RunsJoin(past, d, m, run, t);
    RedeemsIffNoLiveFamily(past + [m] + run, t, again);
  }

  lemma {:induction false} RunsJoin(past: seq<Move>, d: Desk, m: Move, run: seq<Move>, t: Desk)
    requires After(past) == Some(d) && Enabled(d, m) && From(Apply(d, m), run) == Some(t)
    ensures After(past + [m] + run) == Some(t)
  {
    if run == [] {
      assert past + [m] + run == past + [m] && (past + [m])[..|past|] == past;
    } else {
      var n := |run| - 1;
      var p := LastMove(Apply(d, m), run, t);
      RunsJoin(past, d, m, run[..n], p);
      var whole := past + [m] + run;
      assert whole[..|whole| - 1] == past + [m] + run[..n] && whole[|whole| - 1] == run[n];
    }
  }

  // One session for each code

  /** The code can no longer be approved or consumed. */
  ghost predicate Spent(d: Desk, code: Code) {
    code in d.usedCodes && (code in d.devices ==> d.devices[code].status in {Consumed, Denied})
  }

  ghost predicate Recorded(d: Desk) {
    d.devices.Keys <= d.usedCodes
  }

  lemma SpentStays(d: Desk, m: Move, code: Code)
    requires Recorded(d) && Enabled(d, m) && Spent(d, code)
    ensures Spent(Apply(d, m), code)
  {}

  /** A code gets a ticket only from the poll that consumes it. */
  lemma TicketSpendsCode(d: Desk, m: Move, code: Code)
    requires Recorded(d) && Enabled(d, m)
    ensures code in Apply(d, m).tickets && code !in d.tickets ==>
      m.DoPoll? && m.code == code && !Spent(d, code) && Spent(Apply(d, m), code)
  {}

  /** Sessions that a run makes from a code. */
  ghost function Created(run: seq<Move>, code: Code): nat {
    if run == [] then 0
    else
      var before := After(run[..|run| - 1]);
      var m := run[|run| - 1];
      Created(run[..|run| - 1], code) +
      (if before.Some? && Enabled(before.value, m) && Creates(before.value, m) && m.code == code then 1 else 0)
  }

  lemma {:induction false} CodesAreSpent(run: seq<Move>, d: Desk, code: Code)
    requires After(run) == Some(d)
    ensures Recorded(d)
    ensures Created(run, code) + (if code in d.tickets then 1 else 0) <= (if Spent(d, code) then 1 else 0)
  {
    if run != [] {
      var p := LastMove(Opening(), run, d);
      var m := run[|run| - 1];
      CodesAreSpent(run[..|run| - 1], p, code);
      TicketSpendsCode(p, m, code);
      if Spent(p, code) {
        SpentStays(p, m, code);
      }
    }
  }

  /** In every run a device code yields at most one session. */
  lemma AtMostOneSessionPerCode(run: seq<Move>, d: Desk, code: Code)
    requires After(run) == Some(d)
    ensures Created(run, code) <= 1
  {
    CodesAreSpent(run, d, code);
  }

  /** The code is past confirmation, and its row and its ticket name this account and runtime. */
  ghost predicate BoundTo(d: Desk, code: Code, account: Account, client: Client) {
    code in d.usedCodes &&
    (code in d.devices ==>
      d.devices[code].status != Pending && d.devices[code].account == Some(account) &&
      d.devices[code].client == client) &&
    (code in d.tickets ==> d.tickets[code].account == account && d.tickets[code].client == client)
  }

  lemma BoundStays(d: Desk, m: Move, code: Code, account: Account, client: Client)
    requires Enabled(d, m) && BoundTo(d, code, account, client)
    ensures BoundTo(Apply(d, m), code, account, client)
  {}

  lemma {:induction false} BoundForEver(d: Desk, run: seq<Move>, t: Desk, code: Code, account: Account, client: Client)
    requires BoundTo(d, code, account, client) && From(d, run) == Some(t)
    ensures BoundTo(t, code, account, client)
  {
    if run != [] {
      var p := LastMove(d, run, t);
      BoundForEver(d, run[..|run| - 1], p, code, account, client);
      BoundStays(p, run[|run| - 1], code, account, client);
    }
  }

  /**
   Whatever runs after an approval, a session made from the code is the approved runtime's, for
   the account that approved it.
   */
  lemma SessionIsAsApproved(past: seq<Move>, d: Desk, run: seq<Move>, t: Desk, m: Move, code: Code)
    requires After(past) == Some(d) && code in d.devices && d.devices[code].status == Approved
    requires From(d, run) == Some(t) && m.DoRedeem? && m.code == code && Enabled(t, m) && Creates(t, m)
    ensures var made := Apply(t, m).sessions.families[m.family];
      Some(made.account) == d.devices[code].account && made.client == d.devices[code].client && made.kind == Runtime
  {
    CodesAreSpent(past, d, code);
    ApprovedHasAccount(past, d, code);
    BoundForEver(d, run, t, code, d.devices[code].account.value, d.devices[code].client);
  }

  lemma {:induction false} ApprovedHasAccount(run: seq<Move>, d: Desk, code: Code)
    requires After(run) == Some(d) && code in d.devices && d.devices[code].status == Approved
    ensures d.devices[code].account.Some?
  {
    var p := LastMove(Opening(), run, d);
    if code in p.devices && p.devices[code].status == Approved {
      ApprovedHasAccount(run[..|run| - 1], p, code);
    }
  }

  /** A code becomes approved only from pending, before it expires, by a submission of its current consent token. */
  lemma ApprovalNeedsConsent(d: Desk, m: Move, code: Code)
    requires Recorded(d) && Enabled(d, m) && code in Apply(d, m).devices && Apply(d, m).devices[code].status == Approved
    requires !(code in d.devices && d.devices[code].status == Approved)
    ensures m.DoSubmit? && m.code == code && m.choice == Approve(true) && Open(d, code, m.now)
    ensures d.devices[code].consent == Some(m.consent) && d.devices[code].account.Some?
  {}

  /** The move binds an account to a code with a consent token. */
  predicate Binds(m: Move, code: Code, account: Option<Account>, consent: Consent) {
    m.DoBegin? && m.code == code && Some(m.account) == account && m.consent == consent
  }

  /** A code's account and consent token change together, and only by a confirmation that begins. */
  lemma BindingMoves(d: Desk, m: Move, code: Code)
    requires Enabled(d, m) && code in Apply(d, m).devices && Apply(d, m).devices[code].consent.Some?
    ensures var now := Apply(d, m).devices[code];
      Binds(m, code, now.account, now.consent.value) ||
      (code in d.devices && d.devices[code].account == now.account && d.devices[code].consent == now.consent)
  {}

  lemma {:induction false} BoundByOne(run: seq<Move>, d: Desk, code: Code) returns (i: nat)
    requires After(run) == Some(d) && code in d.devices && d.devices[code].consent.Some?
    ensures i < |run| && Binds(run[i], code, d.devices[code].account, d.devices[code].consent.value)
  {
    var p := LastMove(Opening(), run, d);
    var n := |run| - 1;
    BindingMoves(p, run[n], code);
    if Binds(run[n], code, d.devices[code].account, d.devices[code].consent.value) {
      i := n;
    } else {
      i := BoundByOne(run[..n], p, code);
    }
  }

  predicate Uses(m: Move, consent: Consent) {
    m.DoBegin? && m.consent == consent
  }

  lemma {:induction false} ConsentsAreRecorded(run: seq<Move>, d: Desk, i: nat, consent: Consent)
    requires After(run) == Some(d) && i < |run| && Uses(run[i], consent)
    ensures consent in d.consents
  {
    var p := LastMove(Opening(), run, d);
    if i < |run| - 1 {
      ConsentsAreRecorded(run[..|run| - 1], p, i, consent);
    }
  }

  lemma {:induction false} ConsentsAreUsedOnce(run: seq<Move>, d: Desk, i: nat, j: nat, consent: Consent)
    requires After(run) == Some(d) && i <= j < |run| && Uses(run[i], consent) && Uses(run[j], consent)
    ensures i == j
  {
    var p := LastMove(Opening(), run, d);
    var n := |run| - 1;
    if j < n {
      ConsentsAreUsedOnce(run[..n], p, i, j, consent);
    } else if i < n {
      ConsentsAreRecorded(run[..n], p, i, consent);
    }
  }

  /**
   In every run, an approval approves the account of the one confirmation that issued the consent
   token it submits: that confirmation was for this code, and no other move ever used the token.
   */
  lemma ApprovalNamesItsConfirmation(run: seq<Move>, d: Desk, m: Move) returns (i: nat)
    requires After(run) == Some(d) && m.DoSubmit? && Submit(d, m.code, m.consent, m.choice, m.now).1 == NowApproved
    ensures i < |run| && Binds(run[i], m.code, Apply(d, m).devices[m.code].account, m.consent)
    ensures forall j :: 0 <= j < |run| && Uses(run[j], m.consent) ==> j == i
  {
    i := BoundByOne(run, d, m.code);
    forall j | 0 <= j < |run| && Uses(run[j], m.consent)
      ensures j == i
    {
      ConsentsAreUsedOnce(run, d, if i <= j then i else j, if i <= j then j else i, m.consent);
    }
  }

  /** The sessions stay well formed through device sign-ins. */
  lemma {:induction false} SessionsKeep(run: seq<Move>, d: Desk)
    requires After(run) == Some(d)
    ensures Safety.Inv(d.sessions)
  {
    if run == [] {
      Safety.EmptyHolds();
    } else {
      var p := LastMove(Opening(), run, d);
      var m := run[|run| - 1];
      SessionsKeep(run[..|run| - 1], p);
      if m.DoRedeem? && d.sessions != p.sessions {
        var ticket := p.tickets[m.code];
        Safety.StepKeeps(p.sessions, DoInsert(m.family, m.token, ticket.account, ticket.client, Runtime, m.now),
          d.sessions);
      } else if m.DoSession? {
        Safety.StepKeeps(p.sessions, m.step, d.sessions);
      }
    }
  }
}
