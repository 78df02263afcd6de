/**
 What every run of the relay object keeps. The environment is stated by `Legal`: the grant of
 a connection names this object's runtime, a renewal may bring any grant the cloud issued, a
 runtime's client id is its runtime id (cloud/src/relay.rs:192-197), one `jti` names one
 grant, and only a suppressed socket leaves the peer list.
 */
module RelayInvariant {
  import opened Prelude
  import opened RelayFrame
  import opened RelayModel

  datatype World = World(runtimeId: Id, config: Config, grants: map<Id, Claims>)

  /** A grant the cloud signed, for this runtime or another one. */
  ghost predicate Issued(w: World, c: Claims) {
    c.jti in w.grants && w.grants[c.jti] == c && (c.role.Runtime? ==> c.clientId == c.runtimeId)
  }

  /** A grant that routing brings to this object. */
  ghost predicate Granted(w: World, c: Claims) {
    Issued(w, c) && c.runtimeId == w.runtimeId
  }

  ghost predicate Legal(w: World, s: State, e: Event) {
    Known(s, e) &&
    match e
    case Connect(_, _, _, claims, _) => Granted(w, claims)
    case Verified(_, _, _, Checked(Some(claims))) => Issued(w, claims)
    case Leave(_, _, k) => s.att[k].suppressed
    case _ => true
  }

  // ---- Runs ----

  function Next(w: World, s: State, e: Event): Turn {
    if WellFormed(s) && Known(s, e) then Step(w.config, s, e) else Turn(s, [])
  }

  function After(w: World, events: seq<Event>): State {
    if events == [] then EMPTY
    else Next(w, After(w, events[..|events| - 1]), events[|events| - 1]).state
  }

  /** A run: every event is legal where it happens and the clock never goes back. */
  ghost predicate ValidRun(w: World, events: seq<Event>) {
    events == [] ||
    var before := events[..|events| - 1];
    var e := events[|events| - 1];
    ValidRun(w, before) && Legal(w, After(w, before), e) &&
    (before != [] ==> before[|before| - 1].now <= e.now)
  }

  // ---- The invariant ----

  ghost predicate Live(s: State, k: SocketId) {
    k in s.att && !s.att[k].suppressed
  }

  ghost predicate Listed(s: State) {
    forall k :: Live(s, k) ==> k in s.peers
  }

  /** Each role and client id has at most one unsuppressed socket. */
  ghost predicate Unique(s: State) {
    forall j, k :: Live(s, j) && Live(s, k) && Duplicate(s.att[j], s.att[k].claims) ==> j == k
  }

  ghost predicate ServedBy(s: State, k: SocketId, p: SocketId) {
    k in s.att && Live(s, p) && s.att[p].claims.role.Runtime? &&
    SameRuntime(s.att[k].claims, s.att[p].claims)
  }

  /** Every unsuppressed mobile has an unsuppressed runtime of its account and runtime id. */
  ghost predicate Served(s: State) {
    forall k :: Live(s, k) && s.att[k].claims.role.Mobile? ==> exists p :: ServedBy(s, k, p)
  }

  ghost predicate Scoped(w: World, s: State) {
    forall k :: k in s.att ==>
      Granted(w, s.att[k].claims) && (s.att[k].claims.role.Runtime? ==> !s.att[k].awaiting)
  }

  /** While a renewal waits, nothing else rewrites the claims it started from. */
  ghost predicate Snapshots(s: State) {
    forall k :: k in s.pending ==>
      k in s.att && s.pending[k].previous.claims == s.att[k].claims && s.att[k].control &&
      ConnectionOf(s.pending[k].previous) == ConnectionOf(s.att[k]) &&
      (s.att[k].claims.role.Runtime? ==> !s.pending[k].previous.awaiting)
  }

  ghost predicate Inv(w: World, s: State) {
    WellFormed(s) && Listed(s) && Unique(s) && Served(s) && Scoped(w, s) && Snapshots(s)
  }

  /** Identity and connection never change, and suppression is never undone. */
  ghost predicate Evolves(s: State, t: State) {
    forall k :: k in s.att ==>
      k in t.att && SameIdentity(s.att[k].claims, t.att[k].claims) &&
      ConnectionOf(s.att[k]) == ConnectionOf(t.att[k]) &&
      (s.att[k].suppressed ==> t.att[k].suppressed) &&
      s.att[k].claims.exp <= t.att[k].claims.exp
  }

  /** t is s with some sockets suppressed, some made ready and some windows advanced. */
  ghost predicate Weakens(s: State, t: State) {
    t.peers == s.peers && t.pending == s.pending && t.att.Keys == s.att.Keys &&
    forall k :: k in s.att ==>
      t.att[k].claims == s.att[k].claims && t.att[k].control == s.att[k].control &&
      t.att[k].connectionId == s.att[k].connectionId &&
      (s.att[k].suppressed ==> t.att[k].suppressed) && (t.att[k].awaiting ==> s.att[k].awaiting)
  }

  /** A runtime is suppressed only together with every mobile it serves. */
  ghost predicate Together(s: State, t: State) {
    forall k, p :: ServedBy(s, k, p) && s.att[k].claims.role.Mobile? && Live(t, k) ==> Live(t, p)
  }

  lemma WeakeningServes(s: State, t: State)
    requires Served(s) && Weakens(s, t) && Together(s, t)
    ensures Served(t)
  {
    forall k | Live(t, k) && t.att[k].claims.role.Mobile?
      ensures exists p :: ServedBy(t, k, p)
    {
      assert Live(s, k);
      var p :| ServedBy(s, k, p);
      assert Live(t, p);
      assert ServedBy(t, k, p);
    }
  }

  lemma WeakeningIsUnique(s: State, t: State)
    requires Unique(s) && Weakens(s, t)
    ensures Unique(t)
  {
    forall j, k | Live(t, j) && Live(t, k) && Duplicate(t.att[j], t.att[k].claims)
      ensures j == k
    {
      assert Live(s, j) && Live(s, k);
    }
  }

  lemma WeakeningIsListed(s: State, t: State)
    requires Listed(s) && Weakens(s, t)
    ensures Listed(t)
  {
    forall k | Live(t, k)
      ensures k in t.peers
    {
      assert Live(s, k);
    }
  }

  lemma WeakeningKeeps(w: World, s: State, t: State)
    requires Inv(w, s) && Weakens(s, t) && Together(s, t)
    ensures Inv(w, t) && Evolves(s, t)
  {
    WeakeningServes(s, t);
    WeakeningIsUnique(s, t);
    WeakeningIsListed(s, t);
    assert Scoped(w, t) && Snapshots(t) && WellFormed(t);
  }

  lemma DisconnectedOutcomes(s: State, e: Event)
    requires WellFormed(s) && Known(s, e) && e.Disconnected?
    ensures Weakens(s, OnDisconnected(s, e).state)
  {}

  lemma DisconnectedWeakens(s: State, e: Event)
    requires WellFormed(s) && Listed(s) && Known(s, e) && e.Disconnected?
    ensures Weakens(s, OnDisconnected(s, e).state) && Together(s, OnDisconnected(s, e).state)
  {
    var t := OnDisconnected(s, e).state;
    DisconnectedOutcomes(s, e);
    forall k, p | ServedBy(s, k, p) && s.att[k].claims.role.Mobile? && Live(t, k)
      ensures Live(t, p)
    {
      assert Live(s, k);
      assert k in s.peers;
    }
  }

  lemma CommandWeakens(s: State, command: Control, sender: Claims)
    requires command.PeerReady? || command.PeerClose?
    ensures Weakens(s, s.(att := AfterCommand(s, command, sender)))
    ensures Together(s, s.(att := AfterCommand(s, command, sender)))
  {}

  lemma MeteringWeakens(s: State, e: Event)
    requires e.Message? && e.socket in s.att && Ingress(s, e).Some?
    ensures Weakens(s, Metered(s, e)) && Together(s, Metered(s, e))
  {}

  lemma ReplacementWeakens(s: State, claims: Claims)
    requires WellFormed(s) && Listed(s)
    ensures Weakens(s, s.(att := AfterReplacement(s, claims)))
    ensures Together(s, s.(att := AfterReplacement(s, claims)))
  {
    var t := s.(att := AfterReplacement(s, claims));
    forall k, p | ServedBy(s, k, p) && s.att[k].claims.role.Mobile? && Live(t, k)
      ensures Live(t, p)
    {
      assert Live(s, k);
      assert k in s.peers;
    }
  }

  /** The invariant looks at pending renewals only through their snapshots. */
  lemma SameSocketsKeep(w: World, s: State, t: State)
    requires Inv(w, s) && t.att == s.att && t.peers == s.peers && WellFormed(t) && Snapshots(t)
    ensures Inv(w, t)
  {
    assert forall k :: Live(t, k) <==> Live(s, k);
    assert forall k, p :: ServedBy(t, k, p) <==> ServedBy(s, k, p);
  }

  lemma RenewalStartKeeps(w: World, s: State, e: Event)
    requires Inv(w, s) && e.Message? && e.socket in s.att
    ensures Inv(w, StartRenewal(w.config, s, e).state)
  {
    SameSocketsKeep(w, s, StartRenewal(w.config, s, e).state);
  }

  lemma DisconnectedKeeps(w: World, s: State, e: Event)
    requires Inv(w, s) && Legal(w, s, e) && e.Disconnected?
    ensures Inv(w, OnDisconnected(s, e).state) && Evolves(s, OnDisconnected(s, e).state)
  {
    DisconnectedWeakens(s, e);
    WeakeningKeeps(w, s, OnDisconnected(s, e).state);
  }

  lemma EvolvesTransitively(s: State, m: State, t: State)
    requires Evolves(s, m) && Evolves(m, t)
    ensures Evolves(s, t)
  {}

  function Commanded(s: State, e: Event): State
    requires e.Message? && e.socket in s.att && (e.command.PeerReady? || e.command.PeerClose?)
  {
    s.(att := AfterCommand(s, e.command, s.att[e.socket].claims))
  }

  /** The four states a message can lead to. */
  lemma MessageOutcomes(config: Config, s: State, e: Event)
    requires WellFormed(s) && e.Message? && Known(s, e)
    ensures OnMessage(config, s, e).state == s ||
            (Admitted(s, e) &&
             (OnMessage(config, s, e).state == Metered(s, e) ||
              OnMessage(config, s, e).state == StartRenewal(config, Metered(s, e), e).state ||
              ((e.command.PeerReady? || e.command.PeerClose?) &&
               OnMessage(config, s, e).state == Commanded(Metered(s, e), e))))
  {}

  lemma CommandedKeeps(w: World, s: State, e: Event)
    requires Inv(w, s) && e.Message? && e.socket in s.att && (e.command.PeerReady? || e.command.PeerClose?)
    ensures Inv(w, Commanded(s, e)) && Evolves(s, Commanded(s, e))
  {
    CommandWeakens(s, e.command, s.att[e.socket].claims);
    WeakeningKeeps(w, s, Commanded(s, e));
  }

  lemma MeteringKeeps(w: World, s: State, e: Event)
    requires Inv(w, s) && e.Message? && e.socket in s.att && Ingress(s, e).Some?
    ensures Inv(w, Metered(s, e)) && Evolves(s, Metered(s, e))
  {
    MeteringWeakens(s, e);
    WeakeningKeeps(w, s, Metered(s, e));
  }

  lemma MessageKeeps(w: World, s: State, e: Event)
    requires Inv(w, s) && Legal(w, s, e) && e.Message?
    ensures Inv(w, OnMessage(w.config, s, e).state) && Evolves(s, OnMessage(w.config, s, e).state)
  {
    var t := OnMessage(w.config, s, e).state;
    MessageOutcomes(w.config, s, e);
    if t != s {
      var m := Metered(s, e);
      MeteringKeeps(w, s, e);
      if t == StartRenewal(w.config, m, e).state {
        RenewalStartKeeps(w, m, e);
        assert t.att == m.att;
      } else if t != m {
        CommandedKeeps(w, m, e);
        EvolvesTransitively(s, m, t);
      }
    }
  }

  lemma ReplacementKeeps(w: World, s: State, claims: Claims)
    requires Inv(w, s)
    ensures Inv(w, s.(att := AfterReplacement(s, claims)))
    ensures Evolves(s, s.(att := AfterReplacement(s, claims)))
  {
    ReplacementWeakens(s, claims);
    WeakeningKeeps(w, s, s.(att := AfterReplacement(s, claims)));
  }

  lemma ConnectOutcomes(s: State, e: Event)
    requires WellFormed(s) && e.Connect? && Known(s, e)
    ensures Admission(s, e.claims, e.now) in {101, 403, 429, 503}
    ensures Admission(s, e.claims, e.now) == 101 ==>
      OnConnect(s, e).state == State(s.peers + [e.socket],
        AfterReplacement(s, e.claims)[e.socket := Accepted(s, e.claims, e.controlProtocol)], s.pending)
    ensures Admission(s, e.claims, e.now) != 101 ==>
      OnConnect(s, e).state == s || OnConnect(s, e).state == s.(att := AfterReplacement(s, e.claims))
  {}

  lemma AcceptanceEvolves(s: State, e: Event)
    requires WellFormed(s) && e.Connect? && Known(s, e) && Admission(s, e.claims, e.now) == 101
    requires Evolves(s, s.(att := AfterReplacement(s, e.claims)))
    ensures Evolves(s, OnConnect(s, e).state)
  {
    ConnectOutcomes(s, e);
    assert forall k :: k in s.att ==> OnConnect(s, e).state.att[k] == AfterReplacement(s, e.claims)[k];
  }

  lemma AcceptanceIsScoped(w: World, s: State, e: Event)
    requires WellFormed(s) && e.Connect? && Legal(w, s, e) && Admission(s, e.claims, e.now) == 101
    requires Listed(s.(att := AfterReplacement(s, e.claims)))
    requires Scoped(w, s) && Snapshots(s)
    ensures WellFormed(OnConnect(s, e).state) && Listed(OnConnect(s, e).state)
    ensures Scoped(w, OnConnect(s, e).state) && Snapshots(OnConnect(s, e).state)
  {
    ConnectOutcomes(s, e);
    var t := OnConnect(s, e).state;
    forall k | Live(t, k) && k != e.socket
      ensures k in t.peers
    {
      assert Live(s.(att := AfterReplacement(s, e.claims)), k);
    }
  }

  lemma ConnectKeeps(w: World, s: State, e: Event)
    requires Inv(w, s) && Legal(w, s, e) && e.Connect?
    ensures Inv(w, OnConnect(s, e).state) && Evolves(s, OnConnect(s, e).state)
  {
    ReplacementKeeps(w, s, e.claims);
    ConnectOutcomes(s, e);
    if Admission(s, e.claims, e.now) == 101 {
      AcceptanceServes(s, e);
      AcceptanceIsUnique(s, e);
      AcceptanceIsScoped(w, s, e);
      AcceptanceEvolves(s, e);
    }
  }

  lemma AcceptanceServes(s: State, e: Event)
    requires WellFormed(s) && e.Connect? && Known(s, e) && Admission(s, e.claims, e.now) == 101
    requires Served(s.(att := AfterReplacement(s, e.claims)))
    ensures Served(OnConnect(s, e).state)
  {
    var mid := s.(att := AfterReplacement(s, e.claims));
    var t := OnConnect(s, e).state;
    forall k | Live(t, k) && t.att[k].claims.role.Mobile?
      ensures exists p :: ServedBy(t, k, p)
    {
      if k == e.socket {
        var p :| p in s.peers && Serves(s.att[p], e.claims, e.now);
        assert ServedBy(t, k, p);
      } else {
        assert Live(mid, k);
        var p :| ServedBy(mid, k, p);
        assert ServedBy(t, k, p);
      }
    }
  }

  lemma AcceptanceIsUnique(s: State, e: Event)
    requires WellFormed(s) && Listed(s) && e.Connect? && Known(s, e) && Admission(s, e.claims, e.now) == 101
    requires Unique(s.(att := AfterReplacement(s, e.claims)))
    ensures Unique(OnConnect(s, e).state)
  {
    var mid := s.(att := AfterReplacement(s, e.claims));
    var t := OnConnect(s, e).state;
    forall j, k | Live(t, j) && Live(t, k) && Duplicate(t.att[j], t.att[k].claims)
      ensures j == k
    {
      assert j != e.socket ==> Live(mid, j) && Live(s, j);
      assert k != e.socket ==> Live(mid, k) && Live(s, k);
    }
  }

  lemma RenewalServes(s: State, e: Event)
    requires WellFormed(s) && e.Verified? && Known(s, e) && Served(s) && Snapshots(s)
    ensures Served(OnVerified(s, e).state)
  {
    var t := OnVerified(s, e).state;
    forall k | Live(t, k) && t.att[k].claims.role.Mobile?
      ensures exists p :: ServedBy(t, k, p)
    {
      assert Live(s, k);
      var p :| ServedBy(s, k, p);
      assert ServedBy(t, k, p);
    }
  }

  lemma RenewalIsUnique(s: State, e: Event)
    requires WellFormed(s) && e.Verified? && Known(s, e) && Unique(s) && Snapshots(s)
    ensures Unique(OnVerified(s, e).state)
  {
    var t := OnVerified(s, e).state;
    forall j, k | Live(t, j) && Live(t, k) && Duplicate(t.att[j], t.att[k].claims)
      ensures j == k
    {
      assert Live(s, j) && Live(s, k);
    }
  }

  lemma RenewalOutcomes(s: State, e: Event)
    requires WellFormed(s) && e.Verified? && Known(s, e)
    ensures OnVerified(s, e).state.peers == s.peers
    ensures OnVerified(s, e).state.pending == s.pending - {e.socket}
    ensures OnVerified(s, e).state.att == s.att || AcceptsRenewal(s, e)
    ensures AcceptsRenewal(s, e) ==>
      OnVerified(s, e).state.att ==
      s.att[e.socket := RenewedAttachment(s.pending[e.socket].previous, s.att[e.socket], e.verdict.claims.value)]
  {}

  /** The verification result is one the relay acts on. */
  ghost predicate AcceptsRenewal(s: State, e: Event)
    requires e.Verified? && Known(s, e)
  {
    e.verdict.Checked? && !s.att[e.socket].suppressed && !Expired(s.att[e.socket], e.now) &&
    s.att[e.socket].claims.jti == s.pending[e.socket].previous.claims.jti &&
    RenewalAccepted(s.pending[e.socket].previous.claims, e.verdict.claims)
  }

  lemma RenewalEvolves(w: World, s: State, e: Event)
    requires WellFormed(s) && Snapshots(s) && Scoped(w, s) && Legal(w, s, e) && e.Verified?
    ensures Evolves(s, OnVerified(s, e).state)
  {
    RenewalOutcomes(s, e);
    var t := OnVerified(s, e).state;
    if t.att != s.att {
      assert forall k :: k in s.att && k != e.socket ==> t.att[k] == s.att[k];
    }
  }

  lemma RenewalIsScoped(w: World, s: State, e: Event)
    requires WellFormed(s) && Snapshots(s) && Scoped(w, s) && Legal(w, s, e) && e.Verified?
    ensures Scoped(w, OnVerified(s, e).state) && Snapshots(OnVerified(s, e).state)
  {
    RenewalOutcomes(s, e);
  }

  lemma RenewalIsListed(s: State, e: Event)
    requires WellFormed(s) && e.Verified? && Known(s, e) && Listed(s)
    ensures Listed(OnVerified(s, e).state)
  {
    var t := OnVerified(s, e).state;
    forall k | Live(t, k)
      ensures k in t.peers
    {
      assert Live(s, k);
    }
  }

  lemma VerifiedKeeps(w: World, s: State, e: Event)
    requires Inv(w, s) && Legal(w, s, e) && e.Verified?
    ensures Inv(w, OnVerified(s, e).state) && Evolves(s, OnVerified(s, e).state)
  {
    RenewalServes(s, e);
    RenewalIsUnique(s, e);
    RenewalEvolves(w, s, e);
    RenewalIsScoped(w, s, e);
    RenewalIsListed(s, e);
  }

  lemma {:induction false} WithoutMembers(peers: seq<SocketId>, k: SocketId)
    ensures forall p :: p in Without(peers, k) <==> p in peers && p != k
    ensures Distinct(peers) ==> Distinct(Without(peers, k))
  {
    if peers != [] {
      var front, last := peers[..|peers| - 1], peers[|peers| - 1];
      WithoutMembers(front, k);
      assert peers == front + [last];
      if Distinct(peers) {
        assert forall p :: p in front ==> p != last;
        assert forall i :: 0 <= i < |Without(front, k)| ==> Without(front, k)[i] in front;
      }
    }
  }

  lemma LeaveKeeps(w: World, s: State, e: Event)
    requires Inv(w, s) && Legal(w, s, e) && e.Leave?
    ensures Inv(w, Step(w.config, s, e).state) && Evolves(s, Step(w.config, s, e).state)
  {
    WithoutMembers(s.peers, e.socket);
    var t := Step(w.config, s, e).state;
    assert Served(t) by {
      forall k | Live(t, k) && t.att[k].claims.role.Mobile?
        ensures exists p :: ServedBy(t, k, p)
      {
        assert Live(s, k);
        var p :| ServedBy(s, k, p);
        assert ServedBy(t, k, p);
      }
    }
    assert Unique(t) by {
      forall j, k | Live(t, j) && Live(t, k) && Duplicate(t.att[j], t.att[k].claims)
        ensures j == k
      {
        assert Live(s, j) && Live(s, k);
      }
    }
    assert Listed(t) by {
      forall k | Live(t, k)
        ensures k in t.peers
      {
        assert Live(s, k);
      }
    }
  }

  lemma StepKeeps(w: World, s: State, e: Event)
    requires Inv(w, s) && Legal(w, s, e)
    ensures Inv(w, Next(w, s, e).state) && Evolves(s, Next(w, s, e).state)
  {
    match e
    case Connect(_, _, _, _, _) => ConnectKeeps(w, s, e);
    case Message(_, _, _, _, _) => MessageKeeps(w, s, e);
    case Verified(_, _, _, _) => VerifiedKeeps(w, s, e);
    case Disconnected(_, _, _) => DisconnectedKeeps(w, s, e);
    case Leave(_, _, _) => LeaveKeeps(w, s, e);
  }

  lemma {:induction false} RunKeeps(w: World, events: seq<Event>)
    requires ValidRun(w, events)
    ensures Inv(w, After(w, events))
  {
    if events != [] {
      var before := events[..|events| - 1];
      RunKeeps(w, before);
      StepKeeps(w, After(w, before), events[|events| - 1]);
    }
  }

  ghost predicate Reachable(w: World, s: State) {
    exists events :: ValidRun(w, events) && After(w, events) == s
  }

  /** Every reachable state of every run satisfies the invariant. */
  lemma ReachableKeeps(w: World, s: State)
    requires Reachable(w, s)
    ensures Inv(w, s)
  {
    var events :| ValidRun(w, events) && After(w, events) == s;
    RunKeeps(w, events);
  }
}
