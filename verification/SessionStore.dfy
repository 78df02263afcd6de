/**
 The refresh_token_families and refresh_tokens tables, updated in place. Every method keeps the
 invariant of SessionSafety: each family one chain of tokens with one unused tail.
 */
module SessionStore {
  import opened Prelude
  import opened SessionModel
  import Safety = SessionSafety

  class Tables {
    var families: map<FamilyId, Family>
    var tokens: map<Token, TokenRow>
    var usedFamilies: set<FamilyId>
    var usedTokens: set<Token>

    function View(): Sessions
      reads this
    {
      Sessions(families, tokens, usedFamilies, usedTokens)
    }

    ghost predicate Valid()
      reads this
    {
      Safety.Inv(View())
    }

    constructor ()
      ensures Valid() && View() == Empty()
    {
      Safety.EmptyHolds();
      families, tokens, usedFamilies, usedTokens := map[], map[], {}, {};
    }

    /** insert_family: a family of one token, which its own endpoint rotates for 30 days; no other answer changes. */
    method InsertFamily(f: FamilyId, k: Token, account: Account, client: Client, kind: Kind, now: int)
      requires Valid() && f !in usedFamilies && k !in usedTokens
      modifies this
      ensures Valid() && Safety.IsChain(View(), f, [k])
      ensures forall e, at :: WouldRotate(View(), k, e, at) <==> Serves(e, kind) && at < now + INACTIVITY
      ensures forall other, e, at :: other != k ==>
        (WouldRotate(View(), other, e, at) <==> old(WouldRotate(View(), other, e, at)))
      ensures f in families && families[f].account == account &&
        families[f].client == client && families[f].kind == kind
      ensures View() == Insert(old(View()), f, k, account, client, kind, now)
    {
      ghost var e := DoInsert(f, k, account, client, kind, now);
      Safety.StepKeeps(View(), e, Insert(View(), f, k, account, client, kind, now));
      Safety.NewChain(View(), e, Insert(View(), f, k, account, client, kind, now));
      families := families[f := Family(account, client, kind, now, now + ABSOLUTE, None, None)];
      tokens := tokens[k := TokenRow(f, now + INACTIVITY, None, None, None)];
      usedFamilies, usedTokens := usedFamilies + {f}, usedTokens + {k};
    }

    /** rotate_family: the token is replaced, or refused and, when it was used before, its family revoked. */
    method RotateFamily(k: Token, endpoint: Endpoint, renewal: Token, now: int) returns (r: Rotation)
      requires Valid() && renewal !in usedTokens
      modifies this`families, this`tokens, this`usedTokens
      ensures Valid() && (r.Rotated? <==> old(WouldRotate(View(), k, endpoint, now)))
      ensures (View(), r) == Rotate(old(View()), k, endpoint, renewal, now)
    {
      Safety.StepKeeps(View(), DoRotate(k, endpoint, renewal, now), Rotate(View(), k, endpoint, renewal, now).0);
      if k !in tokens || tokens[k].family !in families {
        return Invalid;
      }
      var row := tokens[k];
      var family := families[row.family];
      if family.kind.Mcp? != endpoint.McpEndpoint? {
        return Invalid;
      }
      var replayed := row.usedAt.Some?;
      var expired := row.inactivityExpiresAt <= now || family.absoluteExpiresAt <= now;
      if replayed || expired || family.revokedAt.Some? || row.revokedAt.Some? {
        if replayed && family.revokedAt.None? {
          families := families[row.family := family.(revokedAt := Some(now), reason := Some("refresh_token_replay"))];
        }
        return if replayed then Reused else TooOld;
      }
      var expires := Min(now + INACTIVITY, family.absoluteExpiresAt);
      tokens := tokens[renewal := TokenRow(row.family, expires, None, None, None)];
      tokens := tokens[k := row.(usedAt := Some(now), replacedBy := Some(renewal))];
      families := families[row.family := family.(lastUsedAt := now)];
      usedTokens := usedTokens + {renewal};
      r := Rotated(renewal);
    }

    /** revoke_by_refresh_token and revoke_family: the first revocation is kept. */
    method RevokeOne(f: FamilyId, reason: string, now: int)
      requires Valid()
      modifies this`families
      ensures Valid() && forall e, at :: !Safety.Usable(View(), f, e, at)
      ensures View() == Revoke(old(View()), ByFamily(f), reason, now)
    {
      RevocationIsSafe(View(), ByFamily(f), reason, now);
      if f in families {
        families := families[f := Revoked(families[f], now, reason)];
      }
      assert families == (map g | g in old(families) ::
        if g == f then Revoked(old(families)[g], now, reason) else old(families)[g]);
      assert View() == Revoke(old(View()), ByFamily(f), reason, now);
    }

    /** The revocations of a transferred runtime and of a removed grant: no token of the client is usable afterwards. */
    method RevokeClient(account: Account, client: Client, kind: Kind, reason: string, now: int)
      requires Valid()
      modifies this`families
      ensures Valid() && RevokesOnly(old(View()), View(), account, client, kind)
    {
      ghost var t := Revoke(View(), ByClient(account, client, kind), reason, now);
      ClientIsRevoked(View(), account, client, kind, reason, now);
      families := map f | f in families ::
        if IsClients(families[f], account, client, kind) then Revoked(families[f], now, reason) else families[f];
      assert families == t.families;
      assert View() == t;
    }

    /** Maintenance: stale families go, and their tokens with them. */
    method CleanUp(now: int)
      requires Valid()
      modifies this`families, this`tokens
      ensures Valid() && forall k, e, at :: at >= now ==>
        (WouldRotate(View(), k, e, at) <==> old(WouldRotate(View(), k, e, at)))
      ensures View() == Without(old(View()), StaleFamilies(old(View()), now))
    {
      var gone: set<FamilyId> := {};
      var todo := families.Keys;
      while todo != {}
        invariant families == old(families) && tokens == old(tokens) && todo <= families.Keys
        invariant gone == set f | f in families && f !in todo && Stale(View(), f, now)
        decreases todo
      {
        var f :| f in todo;
        todo := todo - {f};
        if Stale(View(), f, now) {
          gone := gone + {f};
        }
      }
      assert gone == StaleFamilies(View(), now);
      CleanUpIsSafe(View(), now);
      tokens := map k | k in tokens && tokens[k].family !in gone :: tokens[k];
      families := families - gone;
    }
  }

  lemma CleanUpIsSafe(s: Sessions, now: int)
    requires Safety.Inv(s)
    ensures var t := Without(s, StaleFamilies(s, now));
      Safety.Inv(t) && forall k, e, at :: at >= now ==> (WouldRotate(t, k, e, at) <==> WouldRotate(s, k, e, at))
  {
    var t := Without(s, StaleFamilies(s, now));
    Safety.StepKeeps(s, DoClean(now), t);
    forall k, e, at | at >= now
      ensures WouldRotate(t, k, e, at) <==> WouldRotate(s, k, e, at)
    {
      Safety.CleanUpKeepsUsable(s, now, k, e, at);
    }
  }

  lemma RevocationIsSafe(s: Sessions, target: Target, reason: string, now: int)
    requires Safety.Inv(s)
    ensures Safety.Inv(Revoke(s, target, reason, now))
    ensures forall f, e, at :: (f in s.families ==> Selects(s, target, f)) ==>
      !Safety.Usable(Revoke(s, target, reason, now), f, e, at)
  {
    var t := Revoke(s, target, reason, now);
    Safety.StepKeeps(s, DoRevoke(target, reason, now), t);
    forall f, e, at | f in s.families ==> Selects(s, target, f)
      ensures !Safety.Usable(t, f, e, at)
    {
      if f in s.families {
        Safety.UsableIffLive(t, f, e, at);
      }
    }
  }

  predicate IsClients(f: Family, account: Account, client: Client, kind: Kind) {
    f.account == account && f.client == client && f.kind == kind
  }

  /** No token of the client is usable; revocations made before, and every other family, are as they were. */
  ghost predicate RevokesOnly(s: Sessions, t: Sessions, account: Account, client: Client, kind: Kind) {
    t.tokens == s.tokens && t.families.Keys == s.families.Keys &&
    forall f :: f in s.families ==>
      (if IsClients(s.families[f], account, client, kind) then Ended(t, f) else t.families[f] == s.families[f]) &&
      (s.families[f].revokedAt.Some? ==> t.families[f].revokedAt == s.families[f].revokedAt)
  }

  ghost predicate Ended(t: Sessions, f: FamilyId) {
    forall e, at :: !Safety.Usable(t, f, e, at)
  }

  lemma ClientIsRevoked(s: Sessions, account: Account, client: Client, kind: Kind, reason: string, now: int)
    requires Safety.Inv(s)
    ensures var t := Revoke(s, ByClient(account, client, kind), reason, now);
      Safety.Inv(t) && RevokesOnly(s, t, account, client, kind)
  {
    var target := ByClient(account, client, kind);
    RevocationIsSafe(s, target, reason, now);
    assert forall f :: f in s.families ==> (IsClients(s.families[f], account, client, kind) <==> Selects(s, target, f));
  }
}
