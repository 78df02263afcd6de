/**
 Whom a disconnect notice reaches. The notice is meant for the runtime, but its loop selects sockets by
 the tag 'runtime', and a socket is tagged with its client id as well as with its role.
 */
module RelayNotices {
  import opened Prelude
  import opened RelayFrame
  import opened RelayModel
  import opened RelayInvariant
  import opened RelayRouting
  import opened RelayRenewal
  import FW = FixedWindow

  /** The socket hears of a mobile that leaves. */
  ghost predicate Hears(a: Attachment, mobile: Claims) {
    !a.suppressed && TaggedRuntime(a.claims) && SameRuntime(a.claims, mobile)
  }

  lemma NotifyReaches(
    att: map<SocketId, Attachment>, broken: set<SocketId>, peers: seq<SocketId>, mobile: Claims, p: SocketId, c: Id)
    requires forall q <- peers :: q in att
    ensures Send(p, Gone(c)) in Gather(NotifyRuntime(mobile), att, broken, peers) <==>
      p in peers && Hears(att[p], mobile) && c == mobile.clientId
  {
    GatherMembers(NotifyRuntime(mobile), att, broken, peers, Send(p, Gone(c)));
    if p in peers && Hears(att[p], mobile) {
      assert Send(p, Gone(mobile.clientId)) in Emit(NotifyRuntime(mobile), att, broken, p);
    }
  }

  /**
   The i-th peer is replaced and p is told: p is none of the duplicates suppressed so far. So p may
   be a duplicate itself, if it is replaced later.
   */
  ghost predicate ToldAt(s: State, claims: Claims, peers: seq<SocketId>, i: int, p: SocketId)
    requires forall q <- peers :: q in s.att
  {
    0 <= i < |peers| && Duplicate(s.att[peers[i]], claims) && p in s.att && Hears(s.att[p], s.att[peers[i]].claims) &&
    !(p in peers[..i + 1] && Duplicate(s.att[p], claims))
  }

  lemma LastToldAt(s: State, claims: Claims, peers: seq<SocketId>, p: SocketId)
    requires peers != [] && forall q <- peers :: q in s.att
    ensures var n := |peers| - 1;
      (exists i :: ToldAt(s, claims, peers, i, p)) <==>
      (exists i :: ToldAt(s, claims, peers[..n], i, p)) || ToldAt(s, claims, peers, n, p)
  {
    var n := |peers| - 1;
    forall i | 0 <= i < n
      ensures ToldAt(s, claims, peers, i, p) <==> ToldAt(s, claims, peers[..n], i, p)
    {
      assert peers[..n][..i + 1] == peers[..i + 1];
    }
  }

  lemma {:induction false} ReplacementReaches(
    s: State, claims: Claims, broken: set<SocketId>, peers: seq<SocketId>, p: SocketId, c: Id)
    requires WellFormed(s) && Listed(s) && claims.role.Mobile? && forall q <- peers :: q in s.att
    ensures Send(p, Gone(c)) in ReplaceOutputs(s, claims, broken, peers) <==>
      c == claims.clientId && exists i :: ToldAt(s, claims, peers, i, p)
  {
    if peers != [] {
      var n := |peers| - 1;
      ReplacementReaches(s, claims, broken, peers[..n], p, c);
      LastToldAt(s, claims, peers, p);
      LastNotice(s, claims, broken, peers, p, c);
    }
  }

  lemma LastNotice(s: State, claims: Claims, broken: set<SocketId>, peers: seq<SocketId>, p: SocketId, c: Id)
    requires WellFormed(s) && Listed(s) && claims.role.Mobile? && peers != [] && forall q <- peers :: q in s.att
    ensures var n := |peers| - 1;
      Send(p, Gone(c)) in ReplaceOutputs(s, claims, broken, peers) <==>
      Send(p, Gone(c)) in ReplaceOutputs(s, claims, broken, peers[..n]) ||
      (c == claims.clientId && ToldAt(s, claims, peers, n, p))
  {
    var n := |peers| - 1;
    if Duplicate(s.att[peers[n]], claims) {
      assert peers[..n + 1] == peers;
      NotifyReaches(Swept(s, claims, peers), broken, s.peers, s.att[peers[n]].claims, p, c);
    }
  }

  /** The step tells p that client c has gone. */
  ghost predicate Told(s: State, e: Event, p: SocketId, c: Id)
    requires WellFormed(s) && Known(s, e)
  {
    (e.Disconnected? && p in s.att && p != e.socket && Live(s, e.socket) && s.att[e.socket].claims.role.Mobile? &&
     s.att[e.socket].claims.clientId == c && Hears(s.att[p], s.att[e.socket].claims)) ||
    (e.Connect? && e.claims.role.Mobile? && e.claims.clientId == c && Admission(s, e.claims, e.now) in {101, 429} &&
     exists i :: ToldAt(s, e.claims, s.peers, i, p))
  }

  lemma DepartureReaches(s: State, e: Event, p: SocketId, c: Id)
    requires WellFormed(s) && Listed(s) && Known(s, e) && e.Disconnected?
    ensures Send(p, Gone(c)) in OnDisconnected(s, e).out <==> Told(s, e, p, c)
  {
    var a := s.att[e.socket];
    if Live(s, e.socket) && a.claims.role.Mobile? {
      NotifyReaches(s.att[e.socket := Suppress(a)], e.broken, s.peers, a.claims, p, c);
    } else if Send(p, Gone(c)) in OnDisconnected(s, e).out {
      DisconnectionNotices(s, e, p, c);
    }
  }

  lemma ConnectionReaches(s: State, e: Event, p: SocketId, c: Id)
    requires WellFormed(s) && Listed(s) && Known(s, e) && e.Connect?
    ensures Send(p, Gone(c)) in OnConnect(s, e).out <==> Told(s, e, p, c)
  {
    ConnectOutcomes(s, e);
    if e.claims.role.Mobile? {
      ReplacementReaches(s, e.claims, e.broken, s.peers, p, c);
    } else if Send(p, Gone(c)) in OnConnect(s, e).out {
      ReplaceNotices(s, e.claims, e.broken, s.peers, p, c);
    }
  }

  lemma NoticeInStep(w: World, s: State, e: Event, p: SocketId, c: Id)
    requires WellFormed(s) && Listed(s) && Known(s, e)
    ensures Send(p, Gone(c)) in Next(w, s, e).out <==> Told(s, e, p, c)
  {
    match e
    case Connect(_, _, _, _, _) => ConnectionReaches(s, e, p, c);
    case Message(_, _, _, _, _) => MessagesSendNoNotice(w.config, s, e, p, c);
    case Disconnected(_, _, _) => DepartureReaches(s, e, p, c);
    case _ => RenewalsSendNoNotice(w.config, s, e, p, c);
  }

  /**
   In every run, a notice that client c has gone is sent to a socket if and only if a mobile of that
   client leaves or is replaced and the socket, of the same account and runtime, is live at that
   moment and is a runtime or a mobile whose client id is "runtime".
   */
  lemma NoticeReachesIff(w: World, s: State, e: Event, p: SocketId, c: Id)
    requires Reachable(w, s) && Legal(w, s, e) && WellFormed(s)
    ensures Send(p, Gone(c)) in Next(w, s, e).out <==> Told(s, e, p, c)
  {
    ReachableKeeps(w, s);
    NoticeInStep(w, s, e, p, c);
  }

  /** A notice that reaches a socket that is no runtime reaches a live mobile whose client id is "runtime". */
  lemma StrayNoticeHasTheName(w: World, s: State, e: Event, p: SocketId, c: Id)
    requires Reachable(w, s) && Legal(w, s, e) && Send(p, Gone(c)) in Next(w, s, e).out
    ensures Live(s, p) && (s.att[p].claims.role.Runtime? || s.att[p].claims.clientId == RUNTIME_TAG)
  {
    ReachableKeeps(w, s);
    NoticeReachesIff(w, s, e, p, c);
  }

  // ---- A run in which a mobile is told ----

  const CONNECT_NAMESAKE := Connect(0, {}, 2, NAMESAKE_GRANT, true)
  const NAMESAKE := Attachment(NAMESAKE_GRANT, false, true, Some([13]), true, FW.Idle)
  const THREE := State([0, 1, 2], BOTH.att[2 := NAMESAKE], map[])
  const LEAVE_FIRST := Disconnected(0, {}, 1)

  lemma NamesakeJoins()
    ensures WellFormed(BOTH) && Legal(SAMPLE_WORLD, BOTH, CONNECT_NAMESAKE)
    ensures Next(SAMPLE_WORLD, BOTH, CONNECT_NAMESAKE).state == THREE
  {
    assert 0 in BOTH.peers && Serves(BOTH.att[0], NAMESAKE_GRANT, 0);
    NamesakeIsAdmitted();
    ConnectOutcomes(BOTH, CONNECT_NAMESAKE);
    assert forall k :: k in BOTH.att ==> !Displaced(BOTH, NAMESAKE_GRANT, k);
    assert AfterReplacement(BOTH, NAMESAKE_GRANT) == BOTH.att;
    assert Accepted(BOTH, NAMESAKE_GRANT, true) == NAMESAKE;
  }

  lemma NamesakeIsAdmitted()
    ensures WellFormed(BOTH) && Admission(BOTH, NAMESAKE_GRANT, 0) == 101
  {
    assert 0 in BOTH.peers && Serves(BOTH.att[0], NAMESAKE_GRANT, 0);
    assert (set p | p in BOTH.peers && LiveMobile(BOTH.att[p], 0)) == {1};
  }

  /** A runtime and two mobiles, one of them called "runtime": it is told when the other one leaves. */
  lemma NamesakeIsTold()
    ensures ValidRun(SAMPLE_WORLD, CONNECTED + [CONNECT_NAMESAKE])
    ensures After(SAMPLE_WORLD, CONNECTED + [CONNECT_NAMESAKE]) == THREE && THREE.att[2].claims.role.Mobile?
    ensures Legal(SAMPLE_WORLD, THREE, LEAVE_FIRST) && Send(2, Gone([7])) in Next(SAMPLE_WORLD, THREE, LEAVE_FIRST).out
  {
    SampleConnected();
    NamesakeJoins();
    Extends(SAMPLE_WORLD, CONNECTED, CONNECT_NAMESAKE, BOTH);
    FirstLeaves();
  }

  lemma FirstLeaves()
    ensures Legal(SAMPLE_WORLD, THREE, LEAVE_FIRST) && Send(2, Gone([7])) in Next(SAMPLE_WORLD, THREE, LEAVE_FIRST).out
  {
    assert Listed(THREE) && WellFormed(THREE);
    DepartureReaches(THREE, LEAVE_FIRST, 2, [7]);
  }
}
