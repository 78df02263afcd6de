/**
 The device_authorizations table beside the session tables, updated in place. Every method keeps
 the sessions well formed and the codes recorded.
 */
module DeviceStore {
  import opened Prelude
  import opened SessionModel
  import opened DeviceSignIn
  import Safety = SessionSafety

  class Authorizations {
    var sessions: Sessions
    var devices: map<Code, Device>
    var usedCodes: set<Code>
    var tickets: map<Code, Ticket>
    var consents: set<Consent>

    function View(): Desk
      reads this
    {
      Desk(sessions, devices, usedCodes, tickets, consents)
    }

    ghost predicate Valid()
      reads this
    {
      Safety.Inv(sessions) && Recorded(View())
    }

    constructor ()
      ensures Valid() && View() == Opening()
    {
      Safety.EmptyHolds();
      sessions, devices, usedCodes, tickets, consents := SessionModel.Empty(), map[], {}, map[], {};
    }

    /**
     begin_confirm: binds an account and a new consent token to an open code. Of all tokens only the
     new one can then confirm it, for this account.
     */
    method BeginConfirm(code: Code, account: Account, consent: Consent, now: int) returns (bound: bool)
      requires Valid() && consent !in consents
      modifies this`devices, this`consents
      ensures Valid() && bound == Open(old(View()), code, now) &&
        View() == Begin(old(View()), code, account, consent, now)
      ensures bound ==> forall other, choice, at :: other != consent ==>
        Submit(View(), code, other, choice, at).1 == PageExpired
      ensures bound ==> forall at :: at < devices[code].expiresAt ==>
        Submit(View(), code, consent, Approve(true), at).1 == NowApproved
      ensures bound ==> devices[code].account == Some(account)
      ensures !bound ==> devices == old(devices)
    {
      consents := consents + {consent};
      bound := code in devices && devices[code].status == Pending && devices[code].expiresAt > now;
      if bound {
        devices := devices[code := devices[code].(account := Some(account), consent := Some(consent))];
      }
    }

    /** submit_confirm up to its commit or rollback. */
    method SubmitConfirm(code: Code, consent: Consent, choice: Choice, now: int) returns (r: Confirmation)
      requires Valid()
      modifies this`devices
      ensures Valid() && (View(), r) == Submit(old(View()), code, consent, choice, now)
    {
      if code !in devices {
        return PageExpired;
      }
      var row := devices[code];
      if row.account.None? || row.consent != Some(consent) || row.status != Pending || row.expiresAt <= now {
        return PageExpired;
      }
      match choice {
        case Deny =>
          devices := devices[code := SetStatus(row, Denied, None)];
          r := NowDenied;
        case Approve(ensured) =>
          if !ensured {
            return Failed;
          }
          devices := devices[code := SetStatus(row, Approved, Some(now))];
          r := NowApproved;
      }
    }

    /** The first transaction of token: records the poll and consumes an approved code. */
    method PollToken(code: Code, now: int) returns (answer: Answer)
      requires Valid()
      modifies this`devices, this`tickets
      ensures Valid() && (answer.Redeemable? ==> Spent(View(), code))
      ensures (View(), answer) == Poll(old(View()), code, now)
    {
      if code !in devices {
        return InvalidCode;
      }
      var row := devices[code];
      var tooFast := row.lastPolledAt.Some? && now - row.lastPolledAt.value < MINIMUM_GAP;
      var expired := row.expiresAt <= now;
      var next := if row.status == Approved && row.account.Some? && !expired then Consumed else row.status;
      devices := devices[code :=
        row.(status := next, lastPolledAt := Some(now), consent := if next == Pending then row.consent else None)];
      if row.status == Denied {
        return AccessDenied;
      }
      if row.status == Consumed || expired {
        return ExpiredToken;
      }
      if row.status == Approved && row.account.Some? {
        tickets := tickets[code := Ticket(row.client, row.account.value, now)];
        return Redeemable;
      }
      answer := if tooFast then SlowDown else AuthorizationPending;
    }

    /** runtime_signed_in, searching the tokens. */
    method RuntimeSignedIn(client: Client, now: int) returns (found: bool)
      ensures found == SignedIn(sessions, client, now)
    {
      found := false;
      var todo := sessions.tokens.Keys;
      while todo != {} && !found
        invariant todo <= sessions.tokens.Keys
        invariant found ==> SignedIn(sessions, client, now)
        invariant !found ==> forall k :: k in sessions.tokens && k !in todo ==> !Holds(k, client, now)
        decreases todo
      {
        var k :| k in todo;
        todo := todo - {k};
        found := Holds(k, client, now);
      }
      assert !found ==> forall k :: k in sessions.tokens ==> !Holds(k, client, now);
    }

    predicate Holds(k: Token, client: Client, now: int)
      requires k in sessions.tokens
      reads this
    {
      var t := sessions.tokens[k];
      t.family in sessions.families && Usable(sessions.families[t.family], t, client, now)
    }

    /** The second transaction of token: a session unless the runtime already has a usable one. */
    method RedeemTicket(code: Code, f: FamilyId, k: Token, now: int) returns (created: bool)
      requires Valid() && code in tickets && f !in sessions.usedFamilies && k !in sessions.usedTokens
      modifies this`sessions, this`tickets
      ensures Valid() && View() == Redeem(old(View()), code, f, k, now)
      ensures created == !SignedIn(old(sessions), old(tickets)[code].client, old(tickets)[code].now)
    {
      var ticket := tickets[code];
      Safety.StepKeeps(sessions, DoInsert(f, k, ticket.account, ticket.client, Runtime, now),
        Insert(sessions, f, k, ticket.account, ticket.client, Runtime, now));
      tickets := tickets - {code};
      var signedIn := RuntimeSignedIn(ticket.client, ticket.now);
      if !signedIn {
        sessions := Insert(sessions, f, k, ticket.account, ticket.client, Runtime, now);
      }
      created := !signedIn;
    }
  }
}
