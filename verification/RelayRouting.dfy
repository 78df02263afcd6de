/**
 Where frames go, in every run: a data frame reaches at most one socket, the one its
 sender and header name, and a disconnect notice is sent exactly when a client has gone.
 */
module RelayRouting {
  import opened Prelude
  import opened RelayFrame
  import opened RelayModel
  import opened RelayInvariant

  ghost predicate DataAt(out: seq<Output>, i: int) {
    0 <= i < |out| && out[i].Send? && out[i].frame.Data?
  }

  lemma {:induction false} GatherMembers(
    cause: Cause, att: map<SocketId, Attachment>, broken: set<SocketId>, peers: seq<SocketId>, o: Output)
    requires forall p <- peers :: p in att
    ensures o in Gather(cause, att, broken, peers) <==> exists p :: p in peers && o in Emit(cause, att, broken, p)
  {
    if peers != [] {
      var front, last := peers[..|peers| - 1], peers[|peers| - 1];
      GatherMembers(cause, att, broken, front, o);
      assert peers == front + [last];
    }
  }

  /** If only `t` is sent data, then it is sent data once. */
  lemma {:induction false} GatherSendsDataOnce(
    cause: Cause, att: map<SocketId, Attachment>, broken: set<SocketId>, peers: seq<SocketId>, t: SocketId)
    requires forall p <- peers :: p in att
    requires Distinct(peers)
    requires forall p, i :: p in peers && DataAt(Emit(cause, att, broken, p), i) ==> p == t
    ensures forall i, j ::
      DataAt(Gather(cause, att, broken, peers), i) && DataAt(Gather(cause, att, broken, peers), j) ==> i == j
    ensures t !in peers ==> forall i :: !DataAt(Gather(cause, att, broken, peers), i)
  {
    if peers != [] {
      var front, last := peers[..|peers| - 1], peers[|peers| - 1];
      assert forall p :: p in front ==> p in peers && p != last;
      GatherSendsDataOnce(cause, att, broken, front, t);
      var a, b := Gather(cause, att, broken, front), Emit(cause, att, broken, last);
      var all := Gather(cause, att, broken, peers);
      assert all == a + b;
      assert forall i :: DataAt(all, i) ==> if i < |a| then DataAt(a, i) else DataAt(b, i - |a|);
      assert forall i :: DataAt(b, i) ==> i == 0;
    }
  }

  // ---- Data frames ----

  /** p is the socket this frame is meant for. */
  ghost predicate Addressee(s: State, e: Event, p: SocketId) {
    e.Message? && Live(s, e.socket) && Live(s, p) && !Expired(s.att[p], e.now) && !s.att[p].awaiting &&
    var from, to := s.att[e.socket].claims, s.att[p].claims;
    SameRuntime(from, to) &&
    (if from.role.Mobile? then to.role.Runtime? && FrameClientId(e.bytes) == Some(from.clientId)
     else to.role.Mobile? && FrameClientId(e.bytes) == Some(to.clientId))
  }

  lemma OneRuntime(w: World, s: State, p: SocketId, q: SocketId)
    requires Unique(s) && Scoped(w, s) && Live(s, p) && Live(s, q)
    requires s.att[p].claims.role.Runtime? && s.att[q].claims.role.Runtime?
    ensures p == q
  {
    assert Granted(w, s.att[p].claims) && Granted(w, s.att[q].claims);
  }

  lemma AddresseeIsUnique(w: World, s: State, e: Event, p: SocketId, q: SocketId)
    requires Unique(s) && Scoped(w, s) && Addressee(s, e, p) && Addressee(s, e, q)
    ensures p == q
  {
    if s.att[p].claims.role.Runtime? {
      OneRuntime(w, s, p, q);
    }
  }

  /** The frame passes every check before the forwarding loop. */
  ghost predicate Forwardable(s: State, e: Event) {
    e.Message? && e.socket in s.att && Admitted(s, e) && !ControlFrame(e.bytes) &&
    FrameClientId(e.bytes).Some? && !Reserved(FrameClientId(e.bytes).value) &&
    (s.att[e.socket].claims.role.Mobile? ==> FrameClientId(e.bytes).value == s.att[e.socket].claims.clientId)
  }

  function ForwardCause(s: State, e: Event): Cause
    requires e.Message? && e.socket in s.att && FrameClientId(e.bytes).Some?
  {
    Forward(e.socket, s.att[e.socket].claims, FrameClientId(e.bytes).value, e.bytes, e.now)
  }

  lemma ForwardOutput(config: Config, s: State, e: Event)
    requires WellFormed(s) && Forwardable(s, e)
    ensures OnMessage(config, s, e).out == Gather(ForwardCause(s, e), Metered(s, e).att, e.broken, s.peers)
  {}

  lemma OnlyForwardGathersData(
    cause: Cause, att: map<SocketId, Attachment>, broken: set<SocketId>, peers: seq<SocketId>, o: Output)
    requires (forall p <- peers :: p in att) && o in Gather(cause, att, broken, peers) && o.Send? && o.frame.Data?
    ensures cause.Forward?
  {
    GatherMembers(cause, att, broken, peers, o);
  }

  lemma OnlyForwardableFramesSendData(config: Config, s: State, e: Event, i: int)
    requires WellFormed(s) && e.Message? && Known(s, e) && DataAt(OnMessage(config, s, e).out, i)
    ensures Forwardable(s, e)
  {
    if Admitted(s, e) && ControlFrame(e.bytes) && (e.command.PeerReady? || e.command.PeerClose?) {
      var m := Metered(s, e);
      var cause := Obey(e.command, m.att[e.socket].claims);
      if OnMessage(config, s, e).out == Gather(cause, m.att, e.broken, s.peers) {
        OnlyForwardGathersData(cause, m.att, e.broken, s.peers, OnMessage(config, s, e).out[i]);
      }
    }
  }

  lemma DisconnectionSendsNoData(s: State, e: Event, i: int)
    requires WellFormed(s) && e.Disconnected? && Known(s, e)
    ensures !DataAt(OnDisconnected(s, e).out, i)
  {
    if DataAt(OnDisconnected(s, e).out, i) {
      var a := s.att[e.socket];
      var cause := if a.claims.role.Mobile? then NotifyRuntime(a.claims) else CloseMobiles(a.claims);
      OnlyForwardGathersData(cause, s.att[e.socket := Suppress(a)], e.broken, s.peers, OnDisconnected(s, e).out[i]);
    }
  }

  lemma OnlyForwardingSendsData(config: Config, s: State, e: Event, i: int)
    requires WellFormed(s) && Known(s, e) && DataAt(Step(config, s, e).out, i)
    ensures Forwardable(s, e)
  {
    match e
    case Connect(_, _, _, _, _) =>
      ReplaceSendsNoData(s, e.claims, e.broken, s.peers, OnConnect(s, e).out[i]);
    case Message(_, _, _, _, _) => OnlyForwardableFramesSendData(config, s, e, i);
    case Verified(_, _, _, _) =>
    case Disconnected(_, _, _) => DisconnectionSendsNoData(s, e, i);
    case Leave(_, _, _) =>
  }

  lemma {:induction false} ReplaceSendsNoData(s: State, claims: Claims,
    broken: set<SocketId>, peers: seq<SocketId>, o: Output)
    requires WellFormed(s) && forall p <- peers :: p in s.att
    requires o in ReplaceOutputs(s, claims, broken, peers) && o.Send?
    ensures !o.frame.Data?
  {
    var front, p := peers[..|peers| - 1], peers[|peers| - 1];
    if o in ReplaceOutputs(s, claims, broken, front) {
      ReplaceSendsNoData(s, claims, broken, front, o);
    } else {
      var cause := if claims.role.Mobile? then NotifyRuntime(s.att[p].claims) else CloseMobiles(s.att[p].claims);
      if o.frame.Data? && o in Gather(cause, Swept(s, claims, peers), broken, s.peers) {
        OnlyForwardGathersData(cause, Swept(s, claims, peers), broken, s.peers, o);
      }
    }
  }

  lemma EmitsToAddressee(s: State, e: Event, p: SocketId)
    requires WellFormed(s) && Forwardable(s, e) && p in s.att
    ensures (exists i :: DataAt(Emit(ForwardCause(s, e), Metered(s, e).att, e.broken, p), i)) <==> Addressee(s, e, p)
    ensures Addressee(s, e, p) ==> Send(p, Data(e.bytes)) in Emit(ForwardCause(s, e), Metered(s, e).att, e.broken, p)
    ensures forall o ::
      o in Emit(ForwardCause(s, e), Metered(s, e).att, e.broken, p) && o.Send? ==> o == Send(p, Data(e.bytes))
  {
    var out := Emit(ForwardCause(s, e), Metered(s, e).att, e.broken, p);
    if Addressee(s, e, p) {
      assert DataAt(out, 0);
    }
  }

  /**
   In every run a step sends data to at most one socket, only to the addressee of the frame
   it processes, with the bytes unchanged; and a forwardable frame does reach its addressee.
   */
  lemma DataReachesOnlyItsAddressee(w: World, s: State, e: Event)
    requires Reachable(w, s) && Legal(w, s, e)
    ensures var out := Next(w, s, e).out;
      && (forall i, j :: DataAt(out, i) && DataAt(out, j) ==> i == j)
      && (forall i :: DataAt(out, i) ==> Addressee(s, e, out[i].socket) && out[i].frame.bytes == e.bytes)
      && (Forwardable(s, e) ==> forall p :: Addressee(s, e, p) ==> Send(p, Data(e.bytes)) in out)
  {
    ReachableKeeps(w, s);
    DataInStep(w, s, e);
  }

  lemma DataInStep(w: World, s: State, e: Event)
    requires Inv(w, s) && Known(s, e)
    ensures var out := Next(w, s, e).out;
      && (forall i, j :: DataAt(out, i) && DataAt(out, j) ==> i == j)
      && (forall i :: DataAt(out, i) ==> Addressee(s, e, out[i].socket) && out[i].frame.bytes == e.bytes)
      && (Forwardable(s, e) ==> forall p :: Addressee(s, e, p) ==> Send(p, Data(e.bytes)) in out)
  {
    var out := Next(w, s, e).out;
    if Forwardable(s, e) {
      ForwardingInStep(w, s, e);
    } else {
      forall i | DataAt(out, i)
        ensures false
      {
        OnlyForwardingSendsData(w.config, s, e, i);
      }
    }
  }

  lemma ForwardedToAddressee(w: World, s: State, e: Event, i: int)
    requires WellFormed(s) && Forwardable(s, e) && DataAt(OnMessage(w.config, s, e).out, i)
    ensures var o := OnMessage(w.config, s, e).out[i]; Addressee(s, e, o.socket) && o.frame.bytes == e.bytes
  {
    var out := OnMessage(w.config, s, e).out;
    var cause, att := ForwardCause(s, e), Metered(s, e).att;
    ForwardOutput(w.config, s, e);
    GatherMembers(cause, att, e.broken, s.peers, out[i]);
    var p :| p in s.peers && out[i] in Emit(cause, att, e.broken, p);
    EmitsToAddressee(s, e, p);
  }

  lemma AddresseeIsSent(w: World, s: State, e: Event, p: SocketId)
    requires WellFormed(s) && Listed(s) && Forwardable(s, e) && Addressee(s, e, p)
    ensures Send(p, Data(e.bytes)) in OnMessage(w.config, s, e).out
  {
    ForwardOutput(w.config, s, e);
    EmitsToAddressee(s, e, p);
    GatherMembers(ForwardCause(s, e), Metered(s, e).att, e.broken, s.peers, Send(p, Data(e.bytes)));
  }

  lemma ForwardedOnce(w: World, s: State, e: Event, t: SocketId)
    requires WellFormed(s) && Unique(s) && Scoped(w, s) && Forwardable(s, e) && Addressee(s, e, t)
    ensures forall i, j ::
      DataAt(OnMessage(w.config, s, e).out, i) && DataAt(OnMessage(w.config, s, e).out, j) ==> i == j
  {
    var cause, att := ForwardCause(s, e), Metered(s, e).att;
    ForwardOutput(w.config, s, e);
    forall p, i | p in s.peers && DataAt(Emit(cause, att, e.broken, p), i)
      ensures p == t
    {
      EmitsToAddressee(s, e, p);
      AddresseeIsUnique(w, s, e, p, t);
    }
    GatherSendsDataOnce(cause, att, e.broken, s.peers, t);
  }

  lemma ForwardingInStep(w: World, s: State, e: Event)
    requires WellFormed(s) && Listed(s) && Unique(s) && Scoped(w, s) && Forwardable(s, e)
    ensures var out := OnMessage(w.config, s, e).out;
      && (forall i, j :: DataAt(out, i) && DataAt(out, j) ==> i == j)
      && (forall i :: DataAt(out, i) ==> Addressee(s, e, out[i].socket) && out[i].frame.bytes == e.bytes)
      && (forall p :: Addressee(s, e, p) ==> Send(p, Data(e.bytes)) in out)
  {
    var out := OnMessage(w.config, s, e).out;
    forall i | DataAt(out, i)
      ensures Addressee(s, e, out[i].socket) && out[i].frame.bytes == e.bytes
    {
      ForwardedToAddressee(w, s, e, i);
    }
    forall p | Addressee(s, e, p)
      ensures Send(p, Data(e.bytes)) in out
    {
      AddresseeIsSent(w, s, e, p);
    }
    if t :| Addressee(s, e, t) {
      ForwardedOnce(w, s, e, t);
    }
  }

  // ---- Disconnect notices ----

  lemma {:induction false} ReplaceNotices(
    s: State, claims: Claims, broken: set<SocketId>, peers: seq<SocketId>, p: SocketId, c: Id)
    requires WellFormed(s) && forall q <- peers :: q in s.att
    requires Send(p, Gone(c)) in ReplaceOutputs(s, claims, broken, peers)
    ensures claims.role.Mobile? && claims.clientId == c
  {
    var front, q := peers[..|peers| - 1], peers[|peers| - 1];
    if Send(p, Gone(c)) in ReplaceOutputs(s, claims, broken, front) {
      ReplaceNotices(s, claims, broken, front, p, c);
    } else {
      var cause := if claims.role.Mobile? then NotifyRuntime(s.att[q].claims) else CloseMobiles(s.att[q].claims);
      GatherMembers(cause, Swept(s, claims, peers), broken, s.peers, Send(p, Gone(c)));
    }
  }

  lemma OnlyNotifyGathersNotices(
    cause: Cause, att: map<SocketId, Attachment>, broken: set<SocketId>, peers: seq<SocketId>, p: SocketId, c: Id)
    requires (forall q <- peers :: q in att) && Send(p, Gone(c)) in Gather(cause, att, broken, peers)
    ensures cause.NotifyRuntime? && cause.mobile.clientId == c
  {
    GatherMembers(cause, att, broken, peers, Send(p, Gone(c)));
  }

  lemma MessagesSendNoNotice(config: Config, s: State, e: Event, p: SocketId, c: Id)
    requires WellFormed(s) && e.Message? && Known(s, e)
    ensures Send(p, Gone(c)) !in OnMessage(config, s, e).out
  {
    var o, out := Send(p, Gone(c)), OnMessage(config, s, e).out;
    if o in out && Admitted(s, e) {
      var m := Metered(s, e);
      if !ControlFrame(e.bytes) && FrameClientId(e.bytes).Some? {
        OnlyNotifyGathersNotices(ForwardCause(s, e), m.att, e.broken, s.peers, p, c);
      } else if ControlFrame(e.bytes) && (e.command.PeerReady? || e.command.PeerClose?) {
        OnlyNotifyGathersNotices(Obey(e.command, m.att[e.socket].claims), m.att, e.broken, s.peers, p, c);
      }
    }
  }

  lemma RenewalsSendNoNotice(config: Config, s: State, e: Event, p: SocketId, c: Id)
    requires WellFormed(s) && (e.Verified? || e.Leave?) && Known(s, e)
    ensures Send(p, Gone(c)) !in Step(config, s, e).out
  {}

  lemma DisconnectionNotices(s: State, e: Event, p: SocketId, c: Id)
    requires WellFormed(s) && e.Disconnected? && Known(s, e) && Send(p, Gone(c)) in OnDisconnected(s, e).out
    ensures !s.att[e.socket].suppressed && s.att[e.socket].claims.role.Mobile? && s.att[e.socket].claims.clientId == c
  {
    var a := s.att[e.socket];
    var cause := if a.claims.role.Mobile? then NotifyRuntime(a.claims) else CloseMobiles(a.claims);
    OnlyNotifyGathersNotices(cause, s.att[e.socket := Suppress(a)], e.broken, s.peers, p, c);
  }

  /** Only a connection or a disconnection of the named mobile client sends its notice. */
  lemma NoticeComesFrom(w: World, s: State, e: Event, p: SocketId, c: Id)
    requires WellFormed(s) && Known(s, e) && Send(p, Gone(c)) in Next(w, s, e).out
    ensures (e.Connect? && e.claims.role.Mobile? && e.claims.clientId == c &&
             Admission(s, e.claims, e.now) in {101, 429}) ||
            (e.Disconnected? && !s.att[e.socket].suppressed && s.att[e.socket].claims.role.Mobile?
             && s.att[e.socket].claims.clientId == c)
  {
    match e
    case Connect(_, _, _, _, _) => ReplaceNotices(s, e.claims, e.broken, s.peers, p, c);
    case Message(_, _, _, _, _) => MessagesSendNoNotice(w.config, s, e, p, c);
    case Disconnected(_, _, _) => DisconnectionNotices(s, e, p, c);
    case _ => RenewalsSendNoNotice(w.config, s, e, p, c);
  }

  /**
   In every run, after a step that tells a socket that a client has gone, none of that client's
   mobile sockets that was live before the step is still live.
   */
  lemma NoticeMeansGone(w: World, s: State, e: Event, p: SocketId, c: Id)
    requires Reachable(w, s) && Legal(w, s, e) && Send(p, Gone(c)) in Next(w, s, e).out
    ensures var t := Next(w, s, e).state;
      forall k :: Live(s, k) && s.att[k].claims.role.Mobile? && s.att[k].claims.clientId == c ==> !Live(t, k)
  {
    ReachableKeeps(w, s);
    var t := Next(w, s, e).state;
    NoticeComesFrom(w, s, e, p, c);
    forall k | Live(s, k) && s.att[k].claims.role.Mobile? && s.att[k].claims.clientId == c
      ensures !Live(t, k)
    {
      assert k in s.peers;
      if e.Connect? {
        ConnectOutcomes(s, e);
        assert Displaced(s, e.claims, k);
      } else {
        assert Duplicate(s.att[k], s.att[e.socket].claims);
        assert Live(s, e.socket);
      }
    }
  }

  /** In every run, a live mobile that disconnects is announced to the live runtime it had. */
  lemma DepartureIsAnnounced(w: World, s: State, e: Event)
    requires Reachable(w, s) && Legal(w, s, e) && e.Disconnected?
    requires Live(s, e.socket) && s.att[e.socket].claims.role.Mobile?
    ensures exists p :: ServedBy(s, e.socket, p) && Send(p, Gone(s.att[e.socket].claims.clientId)) in Next(w, s, e).out
  {
    ReachableKeeps(w, s);
    var a := s.att[e.socket];
    var p :| ServedBy(s, e.socket, p);
    assert p in s.peers;
    var gone := s.att[e.socket := Suppress(a)];
    var o := Send(p, Gone(a.claims.clientId));
    assert o in Emit(NotifyRuntime(a.claims), gone, e.broken, p);
    GatherMembers(NotifyRuntime(a.claims), gone, e.broken, s.peers, o);
  }
}
