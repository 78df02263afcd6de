/** What every run of sign-ins, rotations, revocations and clean-ups keeps. */
module SessionSafety {
  import opened Prelude
  import opened SessionModel

  ghost predicate Next(s: Sessions, e: Step, t: Sessions) {
    Enabled(s, e) && t == Apply(s, e)
  }

  ghost function From(s: Sessions, run: seq<Step>): Option<Sessions> {
    if run == [] then Some(s)
    else
      var before := From(s, run[..|run| - 1]);
      if before.Some? && Enabled(before.value, run[|run| - 1])
      then Some(Apply(before.value, run[|run| - 1])) else None
  }

  ghost predicate Runs(s: Sessions, run: seq<Step>, t: Sessions) {
    From(s, run) == Some(t)
  }

  lemma LastStep(s: Sessions, run: seq<Step>, t: Sessions) returns (p: Sessions)
    requires Runs(s, run, t) && run != []
    ensures Runs(s, run[..|run| - 1], p) && Next(p, run[|run| - 1], t)
  {
    p := From(s, run[..|run| - 1]).value;
  }

  // The invariant

  ghost predicate Recorded(s: Sessions) {
    s.families.Keys <= s.usedFamilies && s.tokens.Keys <= s.usedTokens &&
    forall k :: k in s.tokens ==> s.tokens[k].family in s.families
  }

  /** Expiries are nested. */
  ghost predicate Nested(s: Sessions) {
    forall k :: k in s.tokens && s.tokens[k].family in s.families ==>
      s.tokens[k].inactivityExpiresAt <= s.families[s.tokens[k].family].absoluteExpiresAt
  }

  /** The tokens of a family in the order of their replacements; only the last is unused. */
  ghost predicate IsChain(s: Sessions, f: FamilyId, chain: seq<Token>) {
    chain != [] && Distinct(chain) &&
    (forall k :: k in chain <==> k in s.tokens && s.tokens[k].family == f) &&
    forall i :: 0 <= i < |chain| ==> chain[i] in s.tokens && Linked(s.tokens[chain[i]], chain, i)
  }

  ghost predicate Linked(row: TokenRow, chain: seq<Token>, i: nat)
    requires i < |chain|
  {
    row.replacedBy == (if i + 1 < |chain| then Some(chain[i + 1]) else None) &&
    (row.usedAt.Some? <==> i + 1 < |chain|)
  }

  ghost predicate Chained(s: Sessions) {
    forall f :: f in s.families ==> HasChain(s, f)
  }

  ghost predicate HasChain(s: Sessions, f: FamilyId) {
    exists chain :: IsChain(s, f, chain)
  }

  lemma StepKeepsRecords(s: Sessions, e: Step, t: Sessions)
    requires Recorded(s) && Next(s, e, t)
    ensures Recorded(t)
  {}

  lemma StepKeepsNesting(s: Sessions, e: Step, t: Sessions)
    requires Recorded(s) && Nested(s) && Next(s, e, t)
    ensures Nested(t)
  {}

  /** A token is never revoked by itself, and the unused one expires with the inactivity of its family. */
  ghost predicate TailExpires(s: Sessions) {
    forall k :: k in s.tokens && s.tokens[k].family in s.families ==>
      s.tokens[k].revokedAt.None? &&
      (s.tokens[k].usedAt.None? ==> s.tokens[k].inactivityExpiresAt == IdleUntil(s.families[s.tokens[k].family]))
  }

  function IdleUntil(f: Family): int {
    Min(f.lastUsedAt + INACTIVITY, f.absoluteExpiresAt)
  }

  lemma StepKeepsTailExpiry(s: Sessions, e: Step, t: Sessions)
    requires Recorded(s) && Chained(s) && TailExpires(s) && Next(s, e, t)
    ensures TailExpires(t)
  {
    if Renews(s, e) {
      var f := s.tokens[e.token].family;
      assert HasChain(s, f);
      var tail := UnusedTail(s, f);
      assert tail == e.token;
    }
  }

  /** A successful rotation. */
  ghost predicate Renews(s: Sessions, e: Step) {
    e.DoRotate? && WouldRotate(s, e.token, e.endpoint, e.now)
  }

  /** Only an insertion and a successful rotation touch tokens; a clean-up may drop all of a family's. */
  lemma TokensMove(s: Sessions, e: Step, t: Sessions)
    requires Recorded(s) && Next(s, e, t)
    ensures (e.DoRotate? && !Renews(s, e)) || e.DoRevoke? ==> t.tokens == s.tokens && t.families.Keys == s.families.Keys
    ensures e.DoClean? ==> forall k :: k in s.tokens && s.tokens[k].family in t.families ==> k in t.tokens
    ensures e.DoClean? ==> forall k :: k in t.tokens ==> k in s.tokens && t.tokens[k] == s.tokens[k]
  {}

  lemma RenewalExtendsChain(s: Sessions, e: Step, t: Sessions, f: FamilyId, chain: seq<Token>)
    requires Recorded(s) && Next(s, e, t) && Renews(s, e) && s.tokens[e.token].family == f && IsChain(s, f, chain)
    ensures IsChain(t, f, chain + [e.renewal])
  {
    var longer := chain + [e.renewal];
    assert e.token in chain;
    var i :| 0 <= i < |chain| && chain[i] == e.token;
    assert Linked(s.tokens[chain[i]], chain, i);
    assert i == |chain| - 1;
    forall j | 0 <= j < |longer|
      ensures longer[j] in t.tokens && Linked(t.tokens[longer[j]], longer, j)
    {
      if j < i {
        assert Linked(s.tokens[chain[j]], chain, j);
      }
    }
  }

  lemma RenewalLeavesOthers(s: Sessions, e: Step, t: Sessions, f: FamilyId, chain: seq<Token>)
    requires Recorded(s) && Next(s, e, t) && Renews(s, e) && s.tokens[e.token].family != f && IsChain(s, f, chain)
    ensures IsChain(t, f, chain)
  {
    assert e.token !in chain && e.renewal !in chain;
  }

  lemma CleanUpLeavesChain(s: Sessions, e: Step, t: Sessions, f: FamilyId, chain: seq<Token>)
    requires Recorded(s) && Next(s, e, t) && e.DoClean? && f in t.families && IsChain(s, f, chain)
    ensures IsChain(t, f, chain)
  {
    TokensMove(s, e, t);
    forall k
      ensures k in chain <==> k in t.tokens && t.tokens[k].family == f
    {}
  }

  lemma InsertLeavesChain(s: Sessions, e: Step, t: Sessions, f: FamilyId, chain: seq<Token>)
    requires Recorded(s) && Next(s, e, t) && e.DoInsert? && f in s.families && IsChain(s, f, chain)
    ensures IsChain(t, f, chain)
  {
    assert e.token !in chain;
  }

  /** The chain of a family after a step: the same, or one token longer after a rotation in it. */
  lemma ChainGrows(s: Sessions, e: Step, t: Sessions, f: FamilyId, chain: seq<Token>) returns (later: seq<Token>)
    requires Recorded(s) && Next(s, e, t) && f in s.families && f in t.families && IsChain(s, f, chain)
    ensures IsChain(t, f, later) && chain <= later
  {
    later := chain;
    if e.DoInsert? {
      InsertLeavesChain(s, e, t, f, chain);
    } else if e.DoClean? {
      CleanUpLeavesChain(s, e, t, f, chain);
    } else if Renews(s, e) {
      if s.tokens[e.token].family == f {
        later := chain + [e.renewal];
        RenewalExtendsChain(s, e, t, f, chain);
      } else {
        RenewalLeavesOthers(s, e, t, f, chain);
      }
    } else {
      TokensMove(s, e, t);
    }
  }

  lemma NewChain(s: Sessions, e: Step, t: Sessions)
    requires Recorded(s) && Next(s, e, t) && e.DoInsert?
    ensures IsChain(t, e.family, [e.token])
  {}

  lemma StepKeepsChains(s: Sessions, e: Step, t: Sessions)
    requires Recorded(s) && Chained(s) && Next(s, e, t)
    ensures Chained(t)
  {
    forall f | f in t.families
      ensures HasChain(t, f)
    {
      if f in s.families {
        assert HasChain(s, f);
        var chain :| IsChain(s, f, chain);
        var later := ChainGrows(s, e, t, f, chain);
      } else {
        assert e.DoInsert? && f == e.family;
        NewChain(s, e, t);
      }
    }
  }

  ghost predicate Inv(s: Sessions) {
    Recorded(s) && Nested(s) && Chained(s) && TailExpires(s)
  }

  lemma StepKeeps(s: Sessions, e: Step, t: Sessions)
    requires Inv(s) && Next(s, e, t)
    ensures Inv(t)
  {
    StepKeepsRecords(s, e, t);
    StepKeepsNesting(s, e, t);
    StepKeepsChains(s, e, t);
    StepKeepsTailExpiry(s, e, t);
  }

  /** In every run, each family is one chain with one unused tail, and expiries stay nested. */
  lemma {:induction false} RunKeeps(s: Sessions, run: seq<Step>, t: Sessions)
    requires Inv(s) && Runs(s, run, t)
    ensures Inv(t)
  {
    if run != [] {
      var p := LastStep(s, run, t);
      RunKeeps(s, run[..|run| - 1], p);
      StepKeeps(p, run[|run| - 1], t);
    }
  }

  lemma EmptyHolds()
    ensures Inv(Empty())
  {}

  lemma UnusedTail(s: Sessions, f: FamilyId) returns (tail: Token)
    requires HasChain(s, f)
    ensures tail in s.tokens && s.tokens[tail].family == f && s.tokens[tail].usedAt.None?
    ensures forall k :: k in s.tokens && s.tokens[k].family == f && s.tokens[k].usedAt.None? ==> k == tail
  {
    var chain :| IsChain(s, f, chain);
    tail := chain[|chain| - 1];
    assert Linked(s.tokens[tail], chain, |chain| - 1);
    forall k | k in s.tokens && s.tokens[k].family == f && s.tokens[k].usedAt.None?
      ensures k == tail
    {
      assert k in chain;
      var i :| 0 <= i < |chain| && chain[i] == k;
      assert Linked(s.tokens[chain[i]], chain, i);
    }
  }

  /** Exactly one token of a family is unused, so a family can be renewed through at most one token. */
  lemma OneUnusedToken(s: Sessions, f: FamilyId) returns (tail: Token)
    requires Inv(s) && f in s.families
    ensures tail in s.tokens && s.tokens[tail].family == f && s.tokens[tail].usedAt.None?
    ensures forall k :: k in s.tokens && s.tokens[k].family == f && s.tokens[k].usedAt.None? ==> k == tail
  {
    assert HasChain(s, f);
    tail := UnusedTail(s, f);
  }

  /** The family is unrevoked, was used in the last 30 days and is younger than 365 days. */
  predicate Live(f: Family, now: int) {
    f.revokedAt.None? && now < f.lastUsedAt + INACTIVITY && now < f.absoluteExpiresAt
  }

  ghost predicate Usable(s: Sessions, f: FamilyId, e: Endpoint, now: int) {
    exists k :: k in s.tokens && s.tokens[k].family == f && WouldRotate(s, k, e, now)
  }

  /** In every run some token of a family would rotate if and only if the family is live and the endpoint is its own. */
  lemma UsableIffLive(s: Sessions, f: FamilyId, e: Endpoint, now: int)
    requires Inv(s) && f in s.families
    ensures Usable(s, f, e, now) <==> Live(s.families[f], now) && Serves(e, s.families[f].kind)
  {
    var tail := OneUnusedToken(s, f);
    if Live(s.families[f], now) && Serves(e, s.families[f].kind) {
      assert WouldRotate(s, tail, e, now);
    }
  }

  // Rotation

  /** A rotation succeeds exactly when the token is usable; the renewal is then usable until its own expiry. */
  lemma RotationSucceedsIff(s: Sessions, k: Token, e: Endpoint, renewal: Token, now: int, later: int)
    requires Inv(s) && renewal !in s.usedTokens
    ensures var (t, r) := Rotate(s, k, e, renewal, now);
      (r.Rotated? <==> WouldRotate(s, k, e, now)) &&
      (r.Rotated? ==>
        (WouldRotate(t, renewal, e, later) <==>
          later < now + INACTIVITY && later < s.families[s.tokens[k].family].absoluteExpiresAt) &&
        !WouldRotate(t, k, e, later))
  {}

  /** A family that is revoked, or already deleted. */
  ghost predicate Ended(s: Sessions, f: FamilyId) {
    f in s.usedFamilies && (f in s.families ==> s.families[f].revokedAt.Some?)
  }

  lemma {:induction false} EndedForEver(s: Sessions, run: seq<Step>, t: Sessions, f: FamilyId)
    requires Recorded(s) && Runs(s, run, t) && Ended(s, f)
    ensures Recorded(t) && Ended(t, f)
  {
    if run != [] {
      var p := LastStep(s, run, t);
      EndedForEver(s, run[..|run| - 1], p, f);
      StepKeepsRecords(p, run[|run| - 1], t);
    }
  }

  /** A token never changes family and never becomes unused. */
  lemma {:induction false} TokenStays(s: Sessions, run: seq<Step>, t: Sessions, k: Token)
    requires Recorded(s) && Runs(s, run, t) && k in s.usedTokens
    ensures Recorded(t) && k in t.usedTokens
    ensures k in t.tokens ==> k in s.tokens && t.tokens[k].family == s.tokens[k].family
    ensures k in t.tokens && s.tokens[k].usedAt.Some? ==> t.tokens[k].usedAt.Some?
  {
    if run != [] {
      var p := LastStep(s, run, t);
      TokenStays(s, run[..|run| - 1], p, k);
      StepKeepsRecords(p, run[|run| - 1], t);
    }
  }

  /**
   Once a used token is presented on its endpoint, no token of its family rotates again,
   whatever runs next, clean-ups included.
   */
  lemma ReplayEndsTheFamily(s: Sessions, k: Token, e: Endpoint, renewal: Token, now: int, run: seq<Step>, t: Sessions,
    other: Token, endpoint: Endpoint, later: int)
    requires Inv(s) && Presents(s, k, e) && s.tokens[k].usedAt.Some?
    requires Runs(Rotate(s, k, e, renewal, now).0, run, t)
    ensures Rotate(s, k, e, renewal, now).1 == Reused
    ensures other in s.tokens && s.tokens[other].family == s.tokens[k].family ==>
      !WouldRotate(t, other, endpoint, later)
    ensures other in t.tokens && t.tokens[other].family == s.tokens[k].family ==>
      !WouldRotate(t, other, endpoint, later)
  {
    var u := Rotate(s, k, e, renewal, now).0;
    EndedForEver(u, run, t, s.tokens[k].family);
    if other in s.tokens {
      TokenStays(u, run, t, other);
    }
  }

  /** A token rotates at most once: after its rotation it is never usable again. */
  lemma RotatesOnce(s: Sessions, k: Token, e: Endpoint, renewal: Token, now: int, run: seq<Step>, t: Sessions,
    endpoint: Endpoint, later: int)
    requires Inv(s) && renewal !in s.usedTokens && WouldRotate(s, k, e, now)
    requires Runs(Rotate(s, k, e, renewal, now).0, run, t)
    ensures !WouldRotate(t, k, endpoint, later)
  {
    var u := Rotate(s, k, e, renewal, now).0;
    StepKeepsRecords(s, DoRotate(k, e, renewal, now), u);
    TokenStays(u, run, t, k);
  }

  /** A revocation ends each family it selects for good. */
  lemma RevocationIsFinal(s: Sessions, target: Target, reason: string, now: int, run: seq<Step>, t: Sessions,
    f: FamilyId, k: Token, endpoint: Endpoint, later: int)
    requires Inv(s) && f in s.families && Selects(s, target, f) && Runs(Revoke(s, target, reason, now), run, t)
    requires k in t.tokens && t.tokens[k].family == f
    ensures !WouldRotate(t, k, endpoint, later)
  {
    EndedForEver(Revoke(s, target, reason, now), run, t, f);
  }

  /** A clean-up changes no answer that a rotation could give at or after its instant. */
  lemma CleanUpKeepsUsable(s: Sessions, now: int, k: Token, e: Endpoint, later: int)
    requires Inv(s) && now <= later
    ensures var t := Without(s, StaleFamilies(s, now)); WouldRotate(t, k, e, later) <==> WouldRotate(s, k, e, later)
  {
    if WouldRotate(s, k, e, later) {
      assert !NoneActive(s, s.tokens[k].family, now);
    }
  }

  /** In particular a family whose tail can still rotate is never deleted. */
  lemma CleanUpKeepsFamily(s: Sessions, now: int, f: FamilyId, e: Endpoint, later: int, k: Token)
    requires Inv(s) && now <= later && WouldRotate(s, k, e, later) && s.tokens[k].family == f
    ensures f in Without(s, StaleFamilies(s, now)).families
  {
    CleanUpKeepsUsable(s, now, k, e, later);
  }
}
