/**
 Renewal and readiness under every interleaving: verification yields, so any other turn
 may run between the request and its verdict.
 */
module RelayRenewal {
  import opened Prelude
  import opened RelayFrame
  import opened RelayModel
  import opened RelayInvariant
  import opened RelayRouting
  import FW = FixedWindow

  // ---- Runs that continue from a state ----

  function From(w: World, s: State, events: seq<Event>): State {
    if events == [] then s
    else Next(w, From(w, s, events[..|events| - 1]), events[|events| - 1]).state
  }

  ghost predicate Continues(w: World, s: State, events: seq<Event>) {
    events == [] ||
    var before := events[..|events| - 1];
    Continues(w, s, before) && Legal(w, From(w, s, before), events[|events| - 1])
  }

  /**
   Identity, connection and suppression over any continuation: suppression is never undone,
   nothing changes who a socket is, and its grant never expires earlier than it did.
   */
  lemma {:induction false} SocketsOnlyEvolve(w: World, s: State, events: seq<Event>)
    requires Inv(w, s) && Continues(w, s, events)
    ensures Inv(w, From(w, s, events)) && Evolves(s, From(w, s, events))
  {
    if events != [] {
      var before := events[..|events| - 1];
      SocketsOnlyEvolve(w, s, before);
      var m := From(w, s, before);
      StepKeeps(w, m, events[|events| - 1]);
      EvolvesTransitively(s, m, From(w, s, events));
    }
  }

  // ---- Renewal ----

  /** Nothing else about the socket moves when a verdict arrives. */
  ghost predicate OnlyClaimsRenewed(a: Attachment, b: Attachment) {
    b.suppressed == a.suppressed && SameIdentity(a.claims, b.claims) &&
    ConnectionOf(a) == ConnectionOf(b) && b.window == a.window && b.control == a.control
  }

  /**
   In every run, whatever happened while a grant was being verified: a verdict changes only
   its own socket; it changes that socket's claims only if the socket is neither suppressed
   nor expired now; it keeps identity, connection and the ingress counted so far; and a
   different grant is taken only if it expires later. The claims a renewal started from are
   still the socket's claims, so the source's `jti` comparison can never fail.
   */
  lemma RenewalIsSafe(w: World, s: State, e: Event)
    requires Reachable(w, s) && Legal(w, s, e) && e.Verified?
    ensures var t := Next(w, s, e).state;
      var a, b := s.att[e.socket], t.att[e.socket];
      && t.att == s.att[e.socket := b] && t.peers == s.peers && t.pending == s.pending - {e.socket}
      && a.claims == s.pending[e.socket].previous.claims
      && OnlyClaimsRenewed(a, b)
      && (b.claims != a.claims ==>
            !a.suppressed && !Expired(a, e.now) && e.verdict == Checked(Some(b.claims)) && a.claims.exp < b.claims.exp)
      && (b != a ==> !a.suppressed && !Expired(a, e.now))
  {
    ReachableKeeps(w, s);
    RenewalOutcomes(s, e);
    assert s.att[e.socket := s.att[e.socket]] == s.att;
  }

  /** A live, unexpired socket does take a later grant for the same identity. */
  lemma RenewalTakesEffect(w: World, s: State, e: Event)
    requires Reachable(w, s) && Legal(w, s, e) && e.Verified? && e.verdict.Checked?
    requires var a := s.att[e.socket]; !a.suppressed && !Expired(a, e.now)
    ensures var t := Next(w, s, e);
      var a := s.att[e.socket];
      if RenewalAccepted(a.claims, e.verdict.claims)
      then t.state.att[e.socket].claims == e.verdict.claims.value &&
           Send(e.socket, Renewed(s.pending[e.socket].requestId, e.verdict.claims.value.exp)) in t.out
      else t.state.att == s.att && Send(e.socket, AuthError(s.pending[e.socket].requestId, false)) in t.out
  {
    ReachableKeeps(w, s);
    RenewalOutcomes(s, e);
  }

  // ---- Readiness ----

  /**
   The relay processes a command: the frame passes the checks of every frame, it is a control
   frame of bounded size, and it comes from a live runtime that speaks the control protocol.
   */
  ghost predicate Obeyed(s: State, e: Event) {
    e.Message? && Live(s, e.socket) && s.att[e.socket].claims.role.Runtime? && s.att[e.socket].control &&
    ControlFrame(e.bytes) && |e.bytes| <= MAX_CONTROL_BYTES && Admitted(s, e)
  }

  /** A live mobile and an obeyed ready or close command of its runtime that names its client and connection. */
  ghost predicate Names(s: State, e: Event, k: SocketId) {
    Obeyed(s, e) && (e.command.PeerReady? || e.command.PeerClose?) &&
    Live(s, k) && s.att[k].claims.role.Mobile? && SameRuntime(s.att[k].claims, s.att[e.socket].claims) &&
    e.command.clientId == s.att[k].claims.clientId && e.command.connectionId == ConnectionOf(s.att[k])
  }

  /** A `peer.ready` for this socket's own connection is processed. */
  ghost predicate NamesReady(s: State, e: Event, k: SocketId) {
    Names(s, e, k) && e.command.PeerReady?
  }

  ghost predicate StillAwaiting(s: State, k: SocketId) {
    k in s.att && s.att[k].awaiting && (k in s.pending ==> s.pending[k].previous.awaiting)
  }

  lemma AwaitingSurvivesMessage(w: World, s: State, e: Event, k: SocketId)
    requires WellFormed(s) && e.Message? && Known(s, e) && StillAwaiting(s, k) && !NamesReady(s, e, k)
    ensures StillAwaiting(OnMessage(w.config, s, e).state, k)
  {
    MessageOutcomes(w.config, s, e);
  }

  lemma AwaitingSurvives(w: World, s: State, e: Event, k: SocketId)
    requires Inv(w, s) && Legal(w, s, e) && StillAwaiting(s, k) && !NamesReady(s, e, k)
    ensures StillAwaiting(Next(w, s, e).state, k)
    ensures forall i :: DataAt(Next(w, s, e).out, i) ==> Next(w, s, e).out[i].socket != k
  {
    StaysAwaiting(w, s, e, k);
    DataInStep(w, s, e);
  }

  lemma StaysAwaiting(w: World, s: State, e: Event, k: SocketId)
    requires WellFormed(s) && Known(s, e) && StillAwaiting(s, k) && !NamesReady(s, e, k)
    ensures StillAwaiting(Next(w, s, e).state, k)
  {
    match e {
      case Connect(_, _, _, _, _) => ConnectOutcomes(s, e);
      case Message(_, _, _, _, _) => AwaitingSurvivesMessage(w, s, e, k);
      case Verified(_, _, _, _) => RenewalOutcomes(s, e);
      case Disconnected(_, _, _) =>
      case Leave(_, _, _) =>
    }
  }

  /** In every run a turn makes a waiting socket ready if and only if it processes a `peer.ready` for it. */
  lemma ReadyIffNamed(w: World, s: State, e: Event, k: SocketId)
    requires Reachable(w, s) && Legal(w, s, e) && StillAwaiting(s, k)
    ensures k in Next(w, s, e).state.att
    ensures !Next(w, s, e).state.att[k].awaiting <==> NamesReady(s, e, k)
  {
    ReachableKeeps(w, s);
    if NamesReady(s, e, k) {
      var m := Metered(s, e);
      assert k in m.peers && Targeted(m.att[k], e.command, m.att[e.socket].claims);
      assert Next(w, s, e).state == Commanded(m, e);
    } else {
      StaysAwaiting(w, s, e, k);
    }
  }

  /** A mobile that was told to wait is admitted waiting, with no renewal in flight. */
  lemma AdmissionStartsAwaiting(w: World, s: State, e: Event)
    requires Inv(w, s) && Legal(w, s, e) && e.Connect? && Admission(s, e.claims, e.now) == 101
    ensures var t := Next(w, s, e).state;
      && (t.att[e.socket].awaiting ==> StillAwaiting(t, e.socket))
      && (t.att[e.socket].awaiting <==>
            e.claims.role.Mobile? && e.controlProtocol &&
            exists p :: Live(s, p) && s.att[p].claims.role.Runtime? && s.att[p].control)
  {
    ConnectOutcomes(s, e);
    if p :| Live(s, p) && s.att[p].claims.role.Runtime? && s.att[p].control {
      assert p in s.peers;
    }
    if p :| p in s.peers && s.att[p].claims.role.Runtime? && !s.att[p].suppressed && s.att[p].control {
      assert Live(s, p);
    }
  }

  /**
   Over any continuation, through any number of renewals: until a `peer.ready` for its own
   connection is processed, a waiting mobile stays waiting and is sent no runtime frame. The same
   command from the mobile itself, a dead socket or another runtime does not count.
   */
  lemma {:induction false} NoRuntimeFrameBeforeReady(w: World, s: State, events: seq<Event>, e: Event, k: SocketId)
    requires Inv(w, s) && StillAwaiting(s, k) && Continues(w, s, events) && Legal(w, From(w, s, events), e)
    requires forall i :: 0 <= i < |events| ==> !NamesReady(From(w, s, events[..i]), events[i], k)
    requires !NamesReady(From(w, s, events), e, k)
    ensures StillAwaiting(From(w, s, events), k)
    ensures forall i :: DataAt(Next(w, From(w, s, events), e).out, i) ==>
      Next(w, From(w, s, events), e).out[i].socket != k
  {
    if events != [] {
      var n := |events| - 1;
      var before := events[..n];
      assert !NamesReady(From(w, s, before), events[n], k);
      assert forall i :: 0 <= i < n ==> before[..i] == events[..i];
      NoRuntimeFrameBeforeReady(w, s, before, events[n], k);
      SocketsOnlyEvolve(w, s, before);
      AwaitingSurvives(w, From(w, s, before), events[n], k);
    }
    SocketsOnlyEvolve(w, s, events);
    AwaitingSurvives(w, From(w, s, events), e, k);
  }

  /**
   An accepted renewal writes back the readiness it saw when it started: the socket waits
   afterwards exactly when it waited then.
   */
  lemma ReadinessAfterRenewal(w: World, s: State, e: Event)
    requires Reachable(w, s) && Legal(w, s, e) && e.Verified? && AcceptsRenewal(s, e)
    ensures var t := Next(w, s, e).state;
      t.att[e.socket].awaiting <==> s.pending[e.socket].previous.awaiting
  {
    ReachableKeeps(w, s);
    RenewalOutcomes(s, e);
  }

  /** The socket is ready, and so is the snapshot of a renewal in flight. */
  ghost predicate StaysReady(s: State, k: SocketId) {
    k in s.att && !s.att[k].awaiting && (k in s.pending ==> !s.pending[k].previous.awaiting)
  }

  lemma ReadySurvives(w: World, s: State, e: Event, k: SocketId)
    requires WellFormed(s) && Known(s, e) && StaysReady(s, k)
    ensures StaysReady(Next(w, s, e).state, k)
  {
    match e {
      case Connect(_, _, _, _, _) => ConnectOutcomes(s, e);
      case Message(_, _, _, _, _) => MessageOutcomes(w.config, s, e);
      case Verified(_, _, _, _) => RenewalOutcomes(s, e);
      case Disconnected(_, _, _) =>
      case Leave(_, _, _) =>
    }
  }

  lemma {:induction false} ReadyForEver(w: World, s: State, events: seq<Event>, k: SocketId)
    requires Inv(w, s) && StaysReady(s, k) && Continues(w, s, events)
    ensures StaysReady(From(w, s, events), k)
  {
    if events != [] {
      var n := |events| - 1;
      ReadyForEver(w, s, events[..n], k);
      SocketsOnlyEvolve(w, s, events[..n]);
      ReadySurvives(w, From(w, s, events[..n]), events[n], k);
    }
  }

  /**
   Readiness is lost only to a renewal that began before it: a ready socket that waits again
   after any continuation had, while it was ready, a renewal in flight that began when it was
   still waiting.
   */
  lemma ReadinessLostOnlyToOlderRenewal(w: World, s: State, events: seq<Event>, k: SocketId)
    requires Inv(w, s) && k in s.att && !s.att[k].awaiting && Continues(w, s, events)
    ensures From(w, s, events).att.Keys >= s.att.Keys
    ensures From(w, s, events).att[k].awaiting ==> k in s.pending && s.pending[k].previous.awaiting
  {
    SocketsOnlyEvolve(w, s, events);
    if !(k in s.pending && s.pending[k].previous.awaiting) {
      ReadyForEver(w, s, events, k);
    }
  }

  // ---- Control commands ----

  /** A message that changes more than the sender's ingress count is an obeyed command. */
  lemma OtherMessagesOnlyMeter(config: Config, s: State, e: Event)
    requires WellFormed(s) && e.Message? && Known(s, e)
    ensures var t := OnMessage(config, s, e).state;
      t.att == s.att || (Ingress(s, e).Some? && t.att == Metered(s, e).att) ||
      (Obeyed(s, e) && (e.command.PeerReady? || e.command.PeerClose?) && t == Commanded(Metered(s, e), e))
  {}

  /**
   In every run a ready or close command is obeyed only from a live runtime that speaks the
   control protocol, and touches only live mobiles of that runtime whose client id and connection
   it names; every other socket is unchanged but for the sender's own ingress count.
   */
  lemma CommandTouchesOnlyItsConnection(w: World, s: State, e: Event, k: SocketId)
    requires Reachable(w, s) && Legal(w, s, e) && e.Message? && k in s.att
    ensures var t := Next(w, s, e).state;
      k in t.att &&
      (t.att[k].window != s.att[k].window ==> k == e.socket) &&
      (t.att[k].(window := s.att[k].window) != s.att[k] ==> Names(s, e, k))
  {
    ReachableKeeps(w, s);
    OtherMessagesOnlyMeter(w.config, s, e);
  }

  /** A connection keeps for life, through any renewals, the name of the grant it was opened with. */
  lemma ConnectionIsTheOpeningGrant(w: World, s: State, e: Event, events: seq<Event>)
    requires Inv(w, s) && Legal(w, s, e) && e.Connect? && Admission(s, e.claims, e.now) == 101
    requires Continues(w, Next(w, s, e).state, events)
    ensures var t := From(w, Next(w, s, e).state, events);
      Inv(w, t) && e.socket in t.att && ConnectionOf(t.att[e.socket]) == e.claims.jti &&
      SameIdentity(e.claims, t.att[e.socket].claims)
  {
    StepKeeps(w, s, e);
    ConnectOutcomes(s, e);
    SocketsOnlyEvolve(w, Next(w, s, e).state, events);
  }

  /**
   Two connections of one mobile client, the second after anything: a ready or close command that
   names the older one reaches the newer one, for as long as that lives, if and only if both were
   opened with one grant.
   */
  lemma OlderCommandReachesNewer(w: World, s: State, first: Event, between: seq<Event>, second: Event,
    events: seq<Event>, command: Control, sender: Claims)
    requires Inv(w, s) && Legal(w, s, first) && first.Connect? && Admission(s, first.claims, first.now) == 101
    requires Continues(w, Next(w, s, first).state, between)
    requires var m := From(w, Next(w, s, first).state, between);
      Legal(w, m, second) && second.Connect? && WellFormed(m) && Admission(m, second.claims, second.now) == 101 &&
      Continues(w, Next(w, m, second).state, events) && first.socket in m.att &&
      (command.PeerReady? || command.PeerClose?) && command.clientId == second.claims.clientId &&
      command.connectionId == ConnectionOf(m.att[first.socket])
    requires first.claims.role.Mobile? && second.claims.role.Mobile? && first.claims.clientId == second.claims.clientId
    requires SameRuntime(second.claims, sender)
    ensures var t := From(w, Next(w, From(w, Next(w, s, first).state, between), second).state, events);
      Live(t, second.socket) ==>
      (Targeted(t.att[second.socket], command, sender) <==> first.claims.jti == second.claims.jti)
  {
    ConnectionIsTheOpeningGrant(w, s, first, between);
    ConnectionIsTheOpeningGrant(w, From(w, Next(w, s, first).state, between), second, events);
  }

  // ---- Replaced sockets ----

  lemma ReplacedIsSuppressed(w: World, s: State, e: Event, k: SocketId)
    requires WellFormed(s) && Known(s, e) && e.Connect? && Admission(s, e.claims, e.now) in {101, 429}
    requires k in s.att && Displaced(s, e.claims, k)
    ensures k in Next(w, s, e).state.att && Next(w, s, e).state.att[k].suppressed
  {
    ConnectOutcomes(s, e);
  }

  /**
   In every run, a socket displaced by a connection (a duplicate, or a mobile of a replaced
   runtime) is silent for good: whatever happens afterwards, its close or error changes nothing
   and emits nothing.
   */
  lemma ReplacedSocketIsSilent(w: World, s: State, e: Event, events: seq<Event>, late: Event)
    requires Reachable(w, s) && Legal(w, s, e) && e.Connect? && WellFormed(s)
    requires Admission(s, e.claims, e.now) in {101, 429}
    requires late.Disconnected? && late.socket in s.att && Displaced(s, e.claims, late.socket)
    requires Continues(w, Next(w, s, e).state, events)
    ensures var t := From(w, Next(w, s, e).state, events); Next(w, t, late) == Turn(t, [])
  {
    ReachableKeeps(w, s);
    StepKeeps(w, s, e);
    ReplacedIsSuppressed(w, s, e, late.socket);
    SocketsOnlyEvolve(w, Next(w, s, e).state, events);
  }

  // ---- Two concrete runs ----

  function SampleClaims(jti: Byte, role: Role, clientId: Byte, exp: int): Claims {
    Claims([1], [2], exp, exp - 100, exp - 100, [jti], [3], [9], [clientId], role, 1, [4], [5], None)
  }

  const RUNTIME_GRANT := SampleClaims(10, Runtime, 9, 100)
  const MOBILE_GRANT := SampleClaims(11, Mobile, 7, 100)
  const LATER_GRANT := SampleClaims(12, Mobile, 7, 120)
  const NAMESAKE_GRANT := MOBILE_GRANT.(jti := [13], clientId := RUNTIME_TAG)
  const SAMPLE_WORLD := World([9], Config(true, true),
    map[[10] := RUNTIME_GRANT, [11] := MOBILE_GRANT, [12] := LATER_GRANT, [13] := NAMESAKE_GRANT])
  const CONTROL_BYTES: seq<Byte> := [0, 0, 1]

  const CONNECT_RUNTIME := Connect(0, {}, 0, RUNTIME_GRANT, true)
  const CONNECT_MOBILE := Connect(0, {}, 1, MOBILE_GRANT, true)
  const ASK_RENEWAL := Message(0, {}, 1, CONTROL_BYTES, Renew(5))
  const SAY_READY := Message(0, {}, 0, CONTROL_BYTES, PeerReady([7], [11]))
  const GRANT_RENEWAL := Verified(0, {}, 1, Checked(Some(LATER_GRANT)))

  function SampleRuntime(used: FW.Window): Attachment {
    Attachment(RUNTIME_GRANT, false, true, Some([10]), false, used)
  }

  function SampleMobile(claims: Claims, awaiting: bool, used: FW.Window): Attachment {
    Attachment(claims, false, true, Some([11]), awaiting, used)
  }

  const BOTH := State([0, 1], map[0 := SampleRuntime(FW.Idle), 1 := SampleMobile(MOBILE_GRANT, true, FW.Idle)], map[])

  lemma SampleConnected()
    ensures ValidRun(SAMPLE_WORLD, [CONNECT_RUNTIME, CONNECT_MOBILE])
    ensures After(SAMPLE_WORLD, [CONNECT_RUNTIME, CONNECT_MOBILE]) == BOTH
  {
    var w := SAMPLE_WORLD;
    var one := State([0], map[0 := SampleRuntime(FW.Idle)], map[]);
    assert [CONNECT_RUNTIME][..0] == [];
    assert Next(w, EMPTY, CONNECT_RUNTIME).state == one;
    assert After(w, [CONNECT_RUNTIME]) == one;
    assert ValidRun(w, []);
    assert ValidRun(w, [CONNECT_RUNTIME]);
    assert [CONNECT_RUNTIME, CONNECT_MOBILE][..1] == [CONNECT_RUNTIME];
    assert 0 in one.peers && Serves(one.att[0], MOBILE_GRANT, 0);
    assert Admission(one, MOBILE_GRANT, 0) == 101;
    ConnectOutcomes(one, CONNECT_MOBILE);
    assert Accepted(one, MOBILE_GRANT, true) == SampleMobile(MOBILE_GRANT, true, FW.Idle);
    assert Next(w, one, CONNECT_MOBILE).state == BOTH;
  }

  const USED := FW.Open(0, 3)
  const WAITING := SampleMobile(MOBILE_GRANT, true, USED)
  const ASKED := State([0, 1], map[0 := SampleRuntime(FW.Idle), 1 := WAITING], map[1 := Renewal(WAITING, 5)])
  const READY := State([0, 1],
    map[0 := SampleRuntime(USED), 1 := SampleMobile(MOBILE_GRANT, false, USED)], map[1 := Renewal(WAITING, 5)])
  const AGAIN := State([0, 1], map[0 := SampleRuntime(USED), 1 := SampleMobile(LATER_GRANT, true, USED)], map[])

  lemma SampleAsked()
    ensures WellFormed(BOTH) && Next(SAMPLE_WORLD, BOTH, ASK_RENEWAL).state == ASKED
  {}

  lemma SampleReady()
    ensures WellFormed(ASKED) && Next(SAMPLE_WORLD, ASKED, SAY_READY).state == READY
  {
    assert Metered(ASKED, SAY_READY).att == map[0 := SampleRuntime(USED), 1 := WAITING];
    assert Targeted(WAITING, SAY_READY.command, RUNTIME_GRANT);
    assert !Targeted(SampleRuntime(USED), SAY_READY.command, RUNTIME_GRANT);
  }

  lemma SampleAgain()
    ensures WellFormed(READY) && Next(SAMPLE_WORLD, READY, GRANT_RENEWAL).state == AGAIN
  {}

  /** Two runs of one event each join. */
  lemma Extends(w: World, events: seq<Event>, e: Event, s: State)
    requires ValidRun(w, events) && After(w, events) == s && Legal(w, s, e)
    requires events != [] ==> events[|events| - 1].now <= e.now
    ensures ValidRun(w, events + [e]) && After(w, events + [e]) == Next(w, s, e).state
  {
    assert (events + [e])[..|events|] == events;
  }

  const CONNECTED := [CONNECT_RUNTIME, CONNECT_MOBILE]

  /**
   Renewal started, `peer.ready` processed, renewal accepted: in one run from the start, the
   mobile is ready after the fourth turn and waits again after the fifth.
   */
  lemma ReadinessCanBeLost()
    ensures ValidRun(SAMPLE_WORLD, CONNECTED + [ASK_RENEWAL] + [SAY_READY] + [GRANT_RENEWAL])
    ensures var s := After(SAMPLE_WORLD, CONNECTED + [ASK_RENEWAL] + [SAY_READY]); 1 in s.att && !s.att[1].awaiting
    ensures var s := After(SAMPLE_WORLD, CONNECTED + [ASK_RENEWAL] + [SAY_READY] + [GRANT_RENEWAL]);
      1 in s.att && !s.att[1].suppressed && s.att[1].awaiting
  {
    var w := SAMPLE_WORLD;
    SampleConnected();
    SampleAsked();
    Extends(w, CONNECTED, ASK_RENEWAL, BOTH);
    SampleReady();
    Extends(w, CONNECTED + [ASK_RENEWAL], SAY_READY, ASKED);
    SampleAgain();
    Extends(w, CONNECTED + [ASK_RENEWAL] + [SAY_READY], GRANT_RENEWAL, READY);
  }

  // The same grant, connected twice

  const CONNECT_AGAIN := Connect(0, {}, 2, MOBILE_GRANT, true)
  const CLOSE_OLDER := Message(0, {}, 0, CONTROL_BYTES, PeerClose([7], [11], 4004))
  const FRESH_MOBILE := SampleMobile(MOBILE_GRANT, true, FW.Idle)
  const REPLACED := State([0, 1, 2],
    map[0 := SampleRuntime(FW.Idle), 1 := Suppress(FRESH_MOBILE), 2 := FRESH_MOBILE], map[])

  lemma SampleReplaced()
    ensures WellFormed(BOTH) && Next(SAMPLE_WORLD, BOTH, CONNECT_AGAIN).state == REPLACED
  {
    assert 0 in BOTH.peers && Serves(BOTH.att[0], MOBILE_GRANT, 0);
    assert 1 in BOTH.peers && Duplicate(BOTH.att[1], MOBILE_GRANT);
    assert Replacing(BOTH, MOBILE_GRANT);
    ConnectOutcomes(BOTH, CONNECT_AGAIN);
    assert Accepted(BOTH, MOBILE_GRANT, true) == FRESH_MOBILE;
    assert Displaced(BOTH, MOBILE_GRANT, 1) && !Displaced(BOTH, MOBILE_GRANT, 0);
    assert AfterReplacement(BOTH, MOBILE_GRANT) == map[0 := SampleRuntime(FW.Idle), 1 := Suppress(FRESH_MOBILE)];
  }

  lemma SampleClosed()
    ensures WellFormed(REPLACED) && 2 in Next(SAMPLE_WORLD, REPLACED, CLOSE_OLDER).state.att
    ensures Next(SAMPLE_WORLD, REPLACED, CLOSE_OLDER).state.att[2].suppressed
  {
    var m := Metered(REPLACED, CLOSE_OLDER);
    assert m.att[2] == FRESH_MOBILE && m.att[0] == SampleRuntime(USED);
    assert Targeted(m.att[2], CLOSE_OLDER.command, RUNTIME_GRANT);
  }

  /** A run in which the close of a mobile's first connection ends its second one. */
  lemma OlderCloseCanReachNewer()
    ensures ValidRun(SAMPLE_WORLD, CONNECTED + [CONNECT_AGAIN] + [CLOSE_OLDER])
    ensures var s := After(SAMPLE_WORLD, CONNECTED);
      1 in s.att && CLOSE_OLDER.command.connectionId == ConnectionOf(s.att[1])
    ensures Live(After(SAMPLE_WORLD, CONNECTED + [CONNECT_AGAIN]), 2)
    ensures !Live(After(SAMPLE_WORLD, CONNECTED + [CONNECT_AGAIN] + [CLOSE_OLDER]), 2)
  {
    var w := SAMPLE_WORLD;
    SampleConnected();
    SampleReplaced();
    Extends(w, CONNECTED, CONNECT_AGAIN, BOTH);
    SampleClosed();
    Extends(w, CONNECTED + [CONNECT_AGAIN], CLOSE_OLDER, REPLACED);
  }
}
