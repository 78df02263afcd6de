/**
 The limits of the relay object over whole runs: ingress bytes per socket, live mobile
 sockets per object, and how long a socket lives on one grant.
 */
module RelayLimits {
  import opened Prelude
  import opened RelayModel
  import opened RelayInvariant
  import FW = FixedWindow

  // ---- Ingress ----

  /** The first admission of a socket and the bytes admitted from it since, over a run. */
  function Tally(w: World, events: seq<Event>, k: SocketId): FW.Meter {
    if events == [] then FW.Unused
    else
      var before, e := events[..|events| - 1], events[|events| - 1];
      var s, tally := After(w, before), Tally(w, before, k);
      if e.Message? && e.socket == k && k in s.att && Admitted(s, e) then FW.Count(tally, e.now, |e.bytes|) else tally
  }

  /** Only a socket's own admitted frames move its window; renewals carry it over. */
  lemma WindowMovesOnlyByIngress(w: World, s: State, e: Event, k: SocketId)
    requires WellFormed(s) && Known(s, e) && k in s.att
    ensures k in Next(w, s, e).state.att
    ensures Next(w, s, e).state.att[k].window ==
            if e.Message? && e.socket == k && Admitted(s, e) then Ingress(s, e).value else s.att[k].window
  {
    match e
    case Connect(_, _, _, _, _) => ConnectOutcomes(s, e);
    case Message(_, _, _, _, _) => MessageOutcomes(w.config, s, e);
      AdmittedMoves(w.config, s, e);
    case Verified(_, _, _, _) => RenewalOutcomes(s, e);
    case Disconnected(_, _, _) =>
    case Leave(_, _, _) =>
  }

  lemma AdmittedMoves(config: Config, s: State, e: Event)
    requires WellFormed(s) && e.Message? && Known(s, e)
    ensures e.socket in OnMessage(config, s, e).state.att
    ensures Admitted(s, e) ==> OnMessage(config, s, e).state.att[e.socket].window == Ingress(s, e).value
  {}

  lemma {:induction false} NewSocketIsIdle(w: World, s: State, e: Event, k: SocketId)
    requires WellFormed(s) && Known(s, e) && k !in s.att && k in Next(w, s, e).state.att
    ensures e.Connect? && Next(w, s, e).state.att[k].window == FW.Idle
  {
    match e
    case Connect(_, _, _, _, _) => ConnectOutcomes(s, e);
    case Message(_, _, _, _, _) => MessageOutcomes(w.config, s, e);
    case Verified(_, _, _, _) => RenewalOutcomes(s, e);
    case Disconnected(_, _, _) =>
    case Leave(_, _, _) =>
  }

  lemma {:induction false} RunIsAccounted(w: World, events: seq<Event>, k: SocketId)
    requires ValidRun(w, events)
    ensures k !in After(w, events).att ==> Tally(w, events, k) == FW.Unused
    ensures k in After(w, events).att ==>
      var window := After(w, events).att[k].window;
      FW.Accounted(window, Tally(w, events, k), MAX_INGRESS_BYTES, INGRESS_PERIOD) &&
      (window.Open? ==> events != [] && window.start <= events[|events| - 1].now)
  {
    if events != [] {
      var before, e := events[..|events| - 1], events[|events| - 1];
      var s := After(w, before);
      RunIsAccounted(w, before, k);
      RunKeeps(w, before);
      if k in s.att {
        WindowMovesOnlyByIngress(w, s, e, k);
        if e.Message? && e.socket == k && Admitted(s, e) {
          FW.AdmitKeepsAccount(s.att[k].window, Tally(w, before, k), e.now,
            |e.bytes|, MAX_INGRESS_BYTES, INGRESS_PERIOD);
        }
      } else if k in After(w, events).att {
        NewSocketIsIdle(w, s, e, k);
      }
    }
  }

  /**
   In every run, for any frame sizes and timings and through any number of renewals, the
   bytes admitted from one socket in the T milliseconds after its first frame are at most
   16 MiB * (T / 1000 + 1).
   */
  lemma IngressIsBounded(w: World, events: seq<Event>, k: SocketId, now: int)
    requires ValidRun(w, events) && events != [] && events[|events| - 1].now <= now
    requires Tally(w, events, k).Counting?
    ensures var m := Tally(w, events, k);
      m.total <= MAX_INGRESS_BYTES * ((now - m.first) / 1000 + 1)
  {
    RunIsAccounted(w, events, k);
    FW.AccountBound(After(w, events).att[k].window, Tally(w, events, k), now, MAX_INGRESS_BYTES, INGRESS_PERIOD);
  }

  // ---- Grant lifetime ----

  ghost predicate VerifiedBy(c: Claims, now: int) {
    exists at :: at <= now && GrantTimesAccepted(c, at)
  }

  /** An event that carries a grant carries one that was verified no later than now. */
  ghost predicate InTime(e: Event) {
    match e
    case Connect(now, _, _, claims, _) => VerifiedBy(claims, now)
    case Verified(now, _, _, Checked(Some(claims))) => VerifiedBy(claims, now)
    case _ => true
  }

  lemma AcceptedGrantHorizon(c: Claims, now: int)
    requires VerifiedBy(c, now)
    ensures c.exp <= Seconds(now) + MAX_GRANT_SECONDS + CLOCK_SKEW_SECONDS
  {
    var at :| at <= now && GrantTimesAccepted(c, at);
  }

  lemma ExpiryMovesOnlyByGrant(w: World, s: State, e: Event, k: SocketId)
    requires WellFormed(s) && Known(s, e) && InTime(e) && k in Next(w, s, e).state.att
    ensures var exp := Next(w, s, e).state.att[k].claims.exp;
      (k in s.att && exp == s.att[k].claims.exp) || exp <= Seconds(e.now) + 150
  {
    match e
    case Connect(_, _, _, claims, _) =>
      ConnectOutcomes(s, e);
      AcceptedGrantHorizon(claims, e.now);
    case Message(_, _, _, _, _) => MessageOutcomes(w.config, s, e);
    case Verified(_, _, _, verdict) =>
      RenewalOutcomes(s, e);
      if verdict.Checked? && verdict.claims.Some? {
        AcceptedGrantHorizon(verdict.claims.value, e.now);
      }
    case Disconnected(_, _, _) =>
    case Leave(_, _, _) =>
  }

  /** In every run a socket's grant expires at most 150 s after the latest event. */
  lemma {:induction false} SocketsExpireSoon(w: World, events: seq<Event>, k: SocketId)
    requires ValidRun(w, events) && k in After(w, events).att
    requires forall i :: 0 <= i < |events| ==> InTime(events[i])
    ensures events != []
    ensures After(w, events).att[k].claims.exp <= Seconds(events[|events| - 1].now) + 150
  {
    var n := |events| - 1;
    var before, e := events[..n], events[n];
    var s := After(w, before);
    RunKeeps(w, before);
    if k in s.att {
      SocketsExpireSoon(w, before, k);
    }
    ExpiryMovesOnlyByGrant(w, s, e, k);
  }

  // ---- The cap of eight mobiles ----

  lemma LiveMobilesShrink(s: State, earlier: int, later: int)
    requires earlier <= later
    ensures LiveMobiles(s, later) <= LiveMobiles(s, earlier)
  {}

  lemma OnlyAdmissionAddsMobiles(w: World, s: State, e: Event)
    requires Inv(w, s) && Legal(w, s, e) && !e.Connect?
    ensures LiveMobiles(Next(w, s, e).state, e.now) <= LiveMobiles(s, e.now)
  {
    match e
    case Message(_, _, _, _, _) => MessageOutcomes(w.config, s, e);
    case Verified(_, _, _, _) => RenewalOutcomes(s, e);
    case Disconnected(_, _, _) =>
    case Leave(_, _, _) =>
  }

  /** A live socket the new connection replaces. */
  ghost predicate ReplacesLive(s: State, e: Event, p: SocketId) {
    e.Connect? && p in s.att && Duplicate(s.att[p], e.claims) && LiveMobile(s.att[p], e.now)
  }

  ghost function Replaced(s: State, e: Event): set<SocketId> {
    set p | p in s.att && ReplacesLive(s, e, p)
  }

  /** Exactly the replaced socket goes and exactly the new one comes. */
  lemma MobilesAfterAdmission(w: World, s: State, e: Event)
    requires Inv(w, s) && Legal(w, s, e) && e.Connect? && e.claims.role.Mobile? && Admission(s, e.claims, e.now) == 101
    ensures var t := Next(w, s, e).state;
      var kept := LiveMobiles(s, e.now) - Replaced(s, e);
      LiveMobiles(t, e.now) == if e.claims.exp > Seconds(e.now) then kept + {e.socket} else kept
  {
    ConnectOutcomes(s, e);
    MobilesAfterAccept(s, e, Next(w, s, e).state, Accepted(s, e.claims, e.controlProtocol));
  }

  lemma MobilesAfterAccept(s: State, e: Event, t: State, a: Attachment)
    requires WellFormed(s) && Listed(s) && e.Connect? && e.claims.role.Mobile? && e.socket !in s.att
    requires t.att == AfterReplacement(s, e.claims)[e.socket := a] && a.claims == e.claims && !a.suppressed
    ensures var kept := LiveMobiles(s, e.now) - Replaced(s, e);
      LiveMobiles(t, e.now) == if e.claims.exp > Seconds(e.now) then kept + {e.socket} else kept
  {
    var kept := LiveMobiles(s, e.now) - Replaced(s, e);
    forall k | k in s.att
      ensures k in LiveMobiles(t, e.now) <==> k in kept
    {
      KeptUnlessReplaced(s, e, k);
    }
  }

  lemma KeptUnlessReplaced(s: State, e: Event, k: SocketId)
    requires WellFormed(s) && Listed(s) && e.Connect? && e.claims.role.Mobile? && k in s.att
    ensures LiveMobile(AfterReplacement(s, e.claims)[k], e.now) <==>
      LiveMobile(s.att[k], e.now) && !ReplacesLive(s, e, k)
  {
    assert LiveMobile(s.att[k], e.now) ==> Live(s, k);
  }

  lemma ReplacesAtMostOne(w: World, s: State, e: Event)
    requires Inv(w, s) && e.Connect?
    ensures |Replaced(s, e)| <= 1
  {
    var all := Replaced(s, e);
    if p :| p in all {
      forall q | q in all
        ensures q == p
      {
        assert Live(s, p) && Live(s, q) && Duplicate(s.att[q], s.att[p].claims);
      }
      assert all == {p};
    }
  }

  lemma CountedOverPeers(w: World, s: State, now: int)
    requires Inv(w, s)
    ensures LiveMobiles(s, now) == set p | p in s.peers && LiveMobile(s.att[p], now)
  {
    forall k | k in LiveMobiles(s, now)
      ensures k in s.peers
    {
      assert Live(s, k);
    }
  }

  /**
   When an admission of a mobile meets the cap, exactly: the object was below it, or the
   connection replaced a socket that was itself live, or the new grant is already expired.
   The third case is vacuous for a grant checked at the same instant.
   */
  lemma AdmissionMeetsCap(w: World, s: State, e: Event)
    requires Inv(w, s) && Legal(w, s, e) && e.Connect? && e.claims.role.Mobile? && Admission(s, e.claims, e.now) == 101
    requires |LiveMobiles(s, e.now)| <= MAX_MOBILE_CONNECTIONS
    ensures |LiveMobiles(Next(w, s, e).state, e.now)| <= MAX_MOBILE_CONNECTIONS <==>
            (|LiveMobiles(s, e.now)| < MAX_MOBILE_CONNECTIONS || (exists p :: ReplacesLive(s, e, p)) ||
             e.claims.exp <= Seconds(e.now))
  {
    MobilesAfterAdmission(w, s, e);
    ReplacesAtMostOne(w, s, e);
    var live := LiveMobiles(s, e.now);
    var gone := Replaced(s, e);
    assert gone <= live;
    if p :| ReplacesLive(s, e, p) {
      assert p in gone;
      assert |gone| == 1;
    } else {
      assert gone == {};
    }
    assert |live - gone| == |live| - |gone|;
    assert e.socket !in live;
  }

  /** At every mobile admission of the run, each same-client socket found is itself live. */
  ghost predicate ReplacesOnlyLive(w: World, events: seq<Event>) {
    forall i :: 0 <= i < |events| && events[i].Connect? ==>
      var s, e := After(w, events[..i]), events[i];
      e.claims.role.Mobile? ==>
        forall p :: p in s.peers && p in s.att && Duplicate(s.att[p], e.claims) ==> LiveMobile(s.att[p], e.now)
  }

  /** Along every such run the object never has more than eight live mobiles. */
  lemma {:induction false} NeverMoreThanEightMobiles(w: World, events: seq<Event>, now: int)
    requires ValidRun(w, events) && ReplacesOnlyLive(w, events)
    requires events != [] ==> events[|events| - 1].now <= now
    ensures |LiveMobiles(After(w, events), now)| <= MAX_MOBILE_CONNECTIONS
  {
    if events != [] {
      var n := |events| - 1;
      var before, e := events[..n], events[n];
      var s := After(w, before);
      assert ReplacesOnlyLive(w, before) by {
        assert forall i :: 0 <= i < n ==> before[i] == events[i] && before[..i] == events[..i];
      }
      RunKeeps(w, before);
      NeverMoreThanEightMobiles(w, before, e.now);
      var t := After(w, events);
      assert |LiveMobiles(t, e.now)| <= MAX_MOBILE_CONNECTIONS by {
        EightAfterStep(w, s, e);
      }
      LiveMobilesShrink(t, e.now, now);
      SubsetCardinality(LiveMobiles(t, now), LiveMobiles(t, e.now));
    }
  }

  lemma EightAfterStep(w: World, s: State, e: Event)
    requires Inv(w, s) && Legal(w, s, e) && |LiveMobiles(s, e.now)| <= MAX_MOBILE_CONNECTIONS
    requires e.Connect? && e.claims.role.Mobile? ==>
      forall p :: p in s.peers && p in s.att && Duplicate(s.att[p], e.claims) ==> LiveMobile(s.att[p], e.now)
    ensures |LiveMobiles(Next(w, s, e).state, e.now)| <= MAX_MOBILE_CONNECTIONS
  {
    var t := Next(w, s, e).state;
    if e.Connect? && e.claims.role.Mobile? && Admission(s, e.claims, e.now) == 101 {
      CountedOverPeers(w, s, e.now);
      if Replacing(s, e.claims) {
        var p :| p in s.peers && Duplicate(s.att[p], e.claims);
        assert ReplacesLive(s, e, p);
      }
      AdmissionMeetsCap(w, s, e);
    } else {
      if e.Connect? {
        ConnectOutcomes(s, e);
      } else {
        OnlyAdmissionAddsMobiles(w, s, e);
      }
      assert LiveMobiles(t, e.now) <= LiveMobiles(s, e.now);
      SubsetCardinality(LiveMobiles(t, e.now), LiveMobiles(s, e.now));
    }
  }
}
