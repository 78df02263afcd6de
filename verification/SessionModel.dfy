/**
 Refresh-token families (cloud/src/auth/sessions.rs), with the other statements that revoke
 them and the clean-up of cloud/src/maintenance.rs. A raw refresh token names its row: its
 hash and row id are both as new as the token. Each transaction is one step; instants are
 microseconds.
 */
module SessionModel {
  import opened Prelude

  type FamilyId = nat
  type Token = nat
  type Account = nat
  type Client = nat

  datatype Kind = Runtime | Mobile | Mcp
  /** Which families an endpoint may rotate. */
  datatype Endpoint = NativeEndpoint | McpEndpoint

  datatype Family = Family(
    account: Account, client: Client, kind: Kind, lastUsedAt: int, absoluteExpiresAt: int,
    revokedAt: Option<int>, reason: Option<string>)
  datatype TokenRow = TokenRow(
    family: FamilyId, inactivityExpiresAt: int, usedAt: Option<int>, replacedBy: Option<Token>, revokedAt: Option<int>)

  /** `families` and `tokens` are the tables; `usedFamilies` and `usedTokens` the ids ever given out. */
  datatype Sessions = Sessions(
    families: map<FamilyId, Family>, tokens: map<Token, TokenRow>, usedFamilies: set<FamilyId>, usedTokens: set<Token>)

  const DAY := 24 * 60 * 60 * 1_000_000
  const INACTIVITY := 30 * DAY
  const ABSOLUTE := 365 * DAY

  function Empty(): Sessions {
    Sessions(map[], map[], {}, {})
  }

  /** insert_family. */
  function Insert(s: Sessions, f: FamilyId, k: Token, account: Account,
    client: Client, kind: Kind, now: int): Sessions {
    Sessions(
      s.families[f := Family(account, client, kind, now, now + ABSOLUTE, None, None)],
      s.tokens[k := TokenRow(f, now + INACTIVITY, None, None, None)],
      s.usedFamilies + {f}, s.usedTokens + {k})
  }

  predicate Serves(e: Endpoint, kind: Kind) {
    kind.Mcp? == e.McpEndpoint?
  }

  /** A token on an endpoint that handles its family. */
  predicate Presents(s: Sessions, k: Token, e: Endpoint) {
    k in s.tokens && s.tokens[k].family in s.families && Serves(e, s.families[s.tokens[k].family].kind)
  }

  predicate Expired(s: Sessions, k: Token, now: int)
    requires k in s.tokens && s.tokens[k].family in s.families
  {
    s.tokens[k].inactivityExpiresAt <= now || s.families[s.tokens[k].family].absoluteExpiresAt <= now
  }

  function Revoked(f: Family, now: int, reason: string): Family {
    f.(revokedAt := Some(Coalesce(f.revokedAt, now)), reason := Some(Coalesce(f.reason, reason)))
  }

  datatype Rotation = Rotated(token: Token) | Invalid | Reused | TooOld

  /** rotate_family. */
  function Rotate(s: Sessions, k: Token, e: Endpoint, renewal: Token, now: int): (Sessions, Rotation) {
    if !Presents(s, k, e) then (s, Invalid) else
    var row := s.tokens[k];
    var family := s.families[row.family];
    if row.usedAt.Some? then
      (if family.revokedAt.None?
       then s.(families :=
         s.families[row.family := family.(revokedAt := Some(now), reason := Some("refresh_token_replay"))])
       else s, Reused)
    else if Expired(s, k, now) || family.revokedAt.Some? || row.revokedAt.Some? then (s, TooOld)
    else
      (Sessions(
        s.families[row.family := family.(lastUsedAt := now)],
        s.tokens[renewal := TokenRow(row.family, Min(now + INACTIVITY, family.absoluteExpiresAt), None, None, None)]
          [k := row.(usedAt := Some(now), replacedBy := Some(renewal))],
        s.usedFamilies, s.usedTokens + {renewal}), Rotated(renewal))
  }

  /** The families a revocation statement selects. */
  datatype Target =
    ByToken(token: Token) | ByFamily(family: FamilyId) | ByClient(account: Account, client: Client, kind: Kind)

  predicate Selects(s: Sessions, target: Target, f: FamilyId)
    requires f in s.families
  {
    match target
    case ByToken(k) => k in s.tokens && s.tokens[k].family == f
    case ByFamily(g) => g == f
    case ByClient(account, client, kind) =>
      s.families[f].account == account && s.families[f].client == client && s.families[f].kind == kind
  }

  function Revoke(s: Sessions, target: Target, reason: string, now: int): Sessions {
    s.(families := map f | f in s.families ::
      if Selects(s, target, f) then Revoked(s.families[f], now, reason) else s.families[f])
  }

  /** The condition under which maintenance deletes a family. */
  predicate Stale(s: Sessions, f: FamilyId, now: int)
    requires f in s.families
  {
    var family := s.families[f];
    family.absoluteExpiresAt < now - 30 * DAY ||
    (family.revokedAt.Some? && family.revokedAt.value < now - 30 * DAY) ||
    (NoneActive(s, f, now) && family.lastUsedAt < now - 30 * DAY)
  }

  predicate NoneActive(s: Sessions, f: FamilyId, now: int) {
    forall k :: k in s.tokens ==> !(s.tokens[k].family == f && s.tokens[k].inactivityExpiresAt >= now)
  }

  /** Deleting a family deletes its tokens. */
  function Without(s: Sessions, gone: set<FamilyId>): Sessions {
    s.(families := s.families - gone,
       tokens := map k | k in s.tokens && s.tokens[k].family !in gone :: s.tokens[k])
  }

  function StaleFamilies(s: Sessions, now: int): set<FamilyId> {
    set f | f in s.families && Stale(s, f, now)
  }

  datatype Step =
    | DoInsert(family: FamilyId, token: Token, account: Account, client: Client, kind: Kind, now: int)
    | DoRotate(token: Token, endpoint: Endpoint, renewal: Token, now: int)
    | DoRevoke(target: Target, reason: string, now: int)
    | DoClean(now: int)

  predicate Enabled(s: Sessions, e: Step) {
    match e
    case DoInsert(f, k, account, client, kind, now) => f !in s.usedFamilies && k !in s.usedTokens
    case DoRotate(k, endpoint, renewal, now) => renewal !in s.usedTokens
    case _ => true
  }

  function Apply(s: Sessions, e: Step): Sessions {
    match e
    case DoInsert(f, k, account, client, kind, now) => Insert(s, f, k, account, client, kind, now)
    case DoRotate(k, endpoint, renewal, now) => Rotate(s, k, endpoint, renewal, now).0
    case DoRevoke(target, reason, now) => Revoke(s, target, reason, now)
    case DoClean(now) => Without(s, StaleFamilies(s, now))
  }

  /** A rotation of the token would succeed. */
  predicate WouldRotate(s: Sessions, k: Token, e: Endpoint, now: int) {
    Presents(s, k, e) && s.tokens[k].usedAt.None? && !Expired(s, k, now) &&
    s.families[s.tokens[k].family].revokedAt.None? && s.tokens[k].revokedAt.None?
  }
}
