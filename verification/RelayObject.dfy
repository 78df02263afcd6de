/**
 The relay object as the source writes it: socket attachments rewritten in place and loops
 over the peers that close and notify. Each handler is proved to be one step of RelayModel and
 to keep the invariant of RelayInvariant.
 `att`, `pending` and `outbox` stand for the sockets' attachments, the `renewing` set with
 the state captured before the await, and the sends and closes made so far. A loop collects
 its own sends and closes in `sent`.
 */
module RelayObject {
  import opened Prelude
  import opened RelayFrame
  import opened RelayModel
  import RI = RelayInvariant
  import FW = FixedWindow

  /** In every world for which s satisfies the relay's invariant and e is legal, t satisfies it too. */
  ghost predicate Kept(config: Config, s: State, e: Event, t: State) {
    forall w: RI.World :: w.config == config && RI.Inv(w, s) && RI.Legal(w, s, e) ==> RI.Inv(w, t)
  }

  lemma TurnKeeps(config: Config, s: State, e: Event)
    requires WellFormed(s) && Known(s, e)
    ensures Kept(config, s, e, Step(config, s, e).state)
  {
    forall w: RI.World | w.config == config && RI.Inv(w, s) && RI.Legal(w, s, e)
      ensures RI.Inv(w, Step(config, s, e).state)
    {
      RI.StepKeeps(w, s, e);
    }
  }

  lemma GatherNext(cause: Cause, att: map<SocketId, Attachment>, broken: set<SocketId>, peers: seq<SocketId>, i: int)
    requires forall p <- peers :: p in att
    requires 0 <= i < |peers|
    ensures Gather(cause, att, broken, peers[..i + 1]) ==
      Gather(cause, att, broken, peers[..i]) + Emit(cause, att, broken, peers[i])
  {
    assert peers[..i + 1][..i] == peers[..i];
  }

  lemma {:induction false} GatherAgrees(cause: Cause,
    a: map<SocketId, Attachment>, b: map<SocketId, Attachment>, broken: set<SocketId>, peers: seq<SocketId>)
    requires forall p <- peers :: p in a && p in b && Emit(cause, a, broken, p) == Emit(cause, b, broken, p)
    ensures Gather(cause, a, broken, peers) == Gather(cause, b, broken, peers)
  {
    if peers != [] {
      GatherAgrees(cause, a, b, broken, peers[..|peers| - 1]);
    }
  }

  /** Closing mobiles does not depend on which sends fail. */
  lemma {:induction false} ClosingIgnoresBroken(cause: Cause,
    att: map<SocketId, Attachment>, a: set<SocketId>, b: set<SocketId>, peers: seq<SocketId>)
    requires cause.CloseMobiles? && forall p <- peers :: p in att
    ensures Gather(cause, att, a, peers) == Gather(cause, att, b, peers)
  {
    if peers != [] {
      ClosingIgnoresBroken(cause, att, a, b, peers[..|peers| - 1]);
    }
  }

  // ---- What a loop over the peers does to the attachments ----

  function Touch(cause: Cause, a: Attachment): Attachment {
    match cause
    case CloseMobiles(runtime) => if a.claims.role.Mobile? && SameRuntime(a.claims, runtime) then Suppress(a) else a
    case Obey(command, sender) =>
      if (command.PeerReady? || command.PeerClose?) && Targeted(a, command, sender)
      then (if command.PeerReady? then a.(awaiting := false) else Suppress(a)) else a
    case _ => a
  }

  function Sweep(cause: Cause, att: map<SocketId, Attachment>, peers: seq<SocketId>): (swept: map<SocketId, Attachment>)
    requires forall p <- peers :: p in att
    ensures swept.Keys == att.Keys
  {
    if peers == [] then att
    else
      var p, before := peers[|peers| - 1], Sweep(cause, att, peers[..|peers| - 1]);
      before[p := Touch(cause, before[p])]
  }

  lemma {:induction false} SweepTouchesPeers(cause: Cause,
    att: map<SocketId, Attachment>, peers: seq<SocketId>, k: SocketId)
    requires Distinct(peers) && (forall p <- peers :: p in att) && k in att
    ensures Sweep(cause, att, peers)[k] == if k in peers then Touch(cause, att[k]) else att[k]
  {
    if peers != [] {
      var front, last := peers[..|peers| - 1], peers[|peers| - 1];
      assert peers == front + [last] && last !in front;
      SweepTouchesPeers(cause, att, front, k);
      SweepTouchesPeers(cause, att, front, last);
    }
  }

  /** One turn of a loop: peer i is still as it was, then it is touched. */
  lemma SweepNext(cause: Cause, att: map<SocketId, Attachment>, broken: set<SocketId>, peers: seq<SocketId>, i: int)
    requires Distinct(peers) && (forall p <- peers :: p in att) && 0 <= i < |peers|
    ensures Sweep(cause, att, peers[..i])[peers[i]] == att[peers[i]]
    ensures Sweep(cause, att, peers[..i + 1]) == Sweep(cause, att, peers[..i])[peers[i] := Touch(cause, att[peers[i]])]
    ensures Gather(cause, att, broken, peers[..i + 1]) ==
      Gather(cause, att, broken, peers[..i]) + Emit(cause, att, broken, peers[i])
  {
    assert peers[..i + 1][..i] == peers[..i];
    assert peers[i] !in peers[..i];
    SweepTouchesPeers(cause, att, peers[..i], peers[i]);
  }

  lemma SweepClosesMobiles(s: State, runtime: Claims)
    requires WellFormed(s)
    ensures Sweep(CloseMobiles(runtime), s.att, s.peers) == WithoutMobiles(s, runtime)
  {
    forall k | k in s.att
      ensures Sweep(CloseMobiles(runtime), s.att, s.peers)[k] == WithoutMobiles(s, runtime)[k]
    {
      SweepTouchesPeers(CloseMobiles(runtime), s.att, s.peers, k);
    }
  }

  lemma SweepObeys(s: State, command: Control, sender: Claims)
    requires WellFormed(s) && (command.PeerReady? || command.PeerClose?)
    ensures Sweep(Obey(command, sender), s.att, s.peers) == AfterCommand(s, command, sender)
  {
    forall k | k in s.att
      ensures Sweep(Obey(command, sender), s.att, s.peers)[k] == AfterCommand(s, command, sender)[k]
    {
      SweepTouchesPeers(Obey(command, sender), s.att, s.peers, k);
    }
  }

  /** The replacement loop has handled the first i peers. */
  ghost predicate DisplacedBy(s: State, claims: Claims, i: int, k: SocketId)
    requires WellFormed(s) && k in s.att && 0 <= i <= |s.peers|
  {
    (k in s.peers[..i] && Duplicate(s.att[k], claims)) ||
    (k in s.peers && s.att[k].claims.role.Mobile? && claims.role.Runtime? &&
     exists p :: p in s.peers[..i] && Duplicate(s.att[p], claims) && SameRuntime(s.att[k].claims, s.att[p].claims))
  }

  ghost function ReplacedUpTo(s: State, claims: Claims, i: int): map<SocketId, Attachment>
    requires WellFormed(s) && 0 <= i <= |s.peers|
  {
    map k | k in s.att :: if DisplacedBy(s, claims, i, k) then Suppress(s.att[k]) else s.att[k]
  }

  lemma ReplacedByAll(s: State, claims: Claims)
    requires WellFormed(s)
    ensures ReplacedUpTo(s, claims, |s.peers|) == AfterReplacement(s, claims)
    ensures ReplacedUpTo(s, claims, 0) == s.att
  {
    assert s.peers[..|s.peers|] == s.peers;
    forall k | k in s.att
      ensures DisplacedBy(s, claims, |s.peers|, k) == Displaced(s, claims, k)
    {}
  }

  lemma ReplacedSkips(s: State, claims: Claims, i: int)
    requires WellFormed(s) && 0 <= i < |s.peers| && !Duplicate(s.att[s.peers[i]], claims)
    ensures ReplacedUpTo(s, claims, i + 1) == ReplacedUpTo(s, claims, i)
  {
    forall k | k in s.att
      ensures DisplacedBy(s, claims, i + 1, k) == DisplacedBy(s, claims, i, k)
    {
      assert s.peers[..i + 1] == s.peers[..i] + [s.peers[i]];
    }
  }

  lemma ReplacedMobile(s: State, claims: Claims, i: int)
    requires WellFormed(s) && 0 <= i < |s.peers| && Duplicate(s.att[s.peers[i]], claims) && claims.role.Mobile?
    ensures ReplacedUpTo(s, claims, i + 1) == ReplacedUpTo(s, claims, i)[s.peers[i] := Suppress(s.att[s.peers[i]])]
  {
    forall k | k in s.att
      ensures DisplacedBy(s, claims, i + 1, k) == (DisplacedBy(s, claims, i, k) || k == s.peers[i])
    {
      assert s.peers[..i + 1] == s.peers[..i] + [s.peers[i]];
    }
  }

  lemma ReplacedRuntime(s: State, claims: Claims, i: int)
    requires WellFormed(s) && 0 <= i < |s.peers| && Duplicate(s.att[s.peers[i]], claims) && claims.role.Runtime?
    ensures var p := s.peers[i];
      var before := ReplacedUpTo(s, claims, i)[p := Suppress(s.att[p])];
      WithoutMobiles(s.(att := before), s.att[p].claims) == ReplacedUpTo(s, claims, i + 1)
  {
    var p := s.peers[i];
    var before := ReplacedUpTo(s, claims, i)[p := Suppress(s.att[p])];
    assert s.peers[..i + 1] == s.peers[..i] + [p];
    forall k | k in s.att
      ensures DisplacedBy(s, claims, i + 1, k) ==
              (DisplacedBy(s, claims, i, k) || k == p ||
               (k in s.peers && s.att[k].claims.role.Mobile? && SameRuntime(s.att[k].claims, s.att[p].claims)))
    {}
    var after := WithoutMobiles(s.(att := before), s.att[p].claims);
    forall k | k in s.att
      ensures after[k] == ReplacedUpTo(s, claims, i + 1)[k]
    {
      assert before[k].claims == s.att[k].claims;
    }
  }

  function ReplaceCause(peer: Claims): Cause {
    if peer.role.Mobile? then NotifyRuntime(peer) else CloseMobiles(peer)
  }

  lemma ReplacementEmitsAlike(s: State, claims: Claims, broken: set<SocketId>, i: int, p: SocketId)
    requires WellFormed(s) && 0 <= i < |s.peers| && Duplicate(s.att[s.peers[i]], claims) && p in s.peers
    ensures var q := s.peers[i];
      var marked := ReplacedUpTo(s, claims, i)[q := Suppress(s.att[q])];
      Emit(ReplaceCause(s.att[q].claims), marked, broken, p) ==
      Emit(ReplaceCause(s.att[q].claims), Swept(s, claims, s.peers[..i + 1]), broken, p)
  {
    assert s.peers[..i + 1] == s.peers[..i] + [s.peers[i]];
  }

  /** What one turn of the replacement loop does to the attachments and the outputs. */
  lemma ReplacedNext(s: State, claims: Claims, broken: set<SocketId>, i: int)
    requires WellFormed(s) && 0 <= i < |s.peers|
    ensures var p := s.peers[i];
      var before := ReplacedUpTo(s, claims, i);
      var marked := before[p := Suppress(before[p])];
      && before[p].claims == s.att[p].claims
      && (Duplicate(s.att[p], claims) ==>
            && ReplacedUpTo(s, claims, i + 1) ==
               (if claims.role.Mobile? then marked else WithoutMobiles(s.(att := marked), s.att[p].claims))
            && ReplaceOutputs(s, claims, broken, s.peers[..i + 1]) ==
               ReplaceOutputs(s, claims, broken, s.peers[..i]) +
               Gather(ReplaceCause(s.att[p].claims), marked, broken, s.peers) + [Close(p, 4001)])
      && (!Duplicate(s.att[p], claims) ==>
            && ReplacedUpTo(s, claims, i + 1) == before
            && ReplaceOutputs(s, claims, broken, s.peers[..i + 1]) == ReplaceOutputs(s, claims, broken, s.peers[..i]))
  {
    var p := s.peers[i];
    assert s.peers[..i + 1][..i] == s.peers[..i];
    if Duplicate(s.att[p], claims) {
      var marked := ReplacedUpTo(s, claims, i)[p := Suppress(s.att[p])];
      var swept := Swept(s, claims, s.peers[..i + 1]);
      forall q | q in s.peers
        ensures Emit(ReplaceCause(s.att[p].claims), marked, broken, q) ==
          Emit(ReplaceCause(s.att[p].claims), swept, broken, q)
      {
        ReplacementEmitsAlike(s, claims, broken, i, q);
      }
      GatherAgrees(ReplaceCause(s.att[p].claims), marked, swept, broken, s.peers);
      if claims.role.Mobile? {
        ReplacedMobile(s, claims, i);
      } else {
        ReplacedRuntime(s, claims, i);
      }
    } else {
      ReplacedSkips(s, claims, i);
    }
  }

  function Marked(att: map<SocketId, Attachment>, p: SocketId): map<SocketId, Attachment>
    requires p in att
  {
    att[p := Suppress(att[p])]
  }

  datatype Progress = Progress(att: map<SocketId, Attachment>, out: seq<Output>)

  /** The replacement loop of fetch after i peers, as the source runs it. */
  ghost function ReplaceLoop(s: State, claims: Claims, broken: set<SocketId>, i: int): (r: Progress)
    requires WellFormed(s) && 0 <= i <= |s.peers|
    ensures r.att.Keys == s.att.Keys
  {
    if i == 0 then Progress(s.att, [])
    else
      var before, p := ReplaceLoop(s, claims, broken, i - 1), s.peers[i - 1];
      var peer := before.att[p];
      if !Duplicate(peer, claims) then before else ReplaceTurn(s, broken, before, p)
  }

  /** One turn of the loop that finds a duplicate. */
  ghost function ReplaceTurn(s: State, broken: set<SocketId>, before: Progress, p: SocketId): (r: Progress)
    requires WellFormed(s) && before.att.Keys == s.att.Keys && p in s.att
    ensures r.att.Keys == s.att.Keys
  {
    var peer, marked := before.att[p], Marked(before.att, p);
    Progress(if peer.claims.role.Mobile? then marked else WithoutMobiles(s.(att := marked), peer.claims),
             before.out + Gather(ReplaceCause(peer.claims), marked, broken, s.peers) + [Close(p, 4001)])
  }

  ghost function UpTo(s: State, claims: Claims, broken: set<SocketId>, i: int): (r: Progress)
    requires WellFormed(s) && 0 <= i <= |s.peers|
    ensures r.att.Keys == s.att.Keys
  {
    Progress(ReplacedUpTo(s, claims, i), ReplaceOutputs(s, claims, broken, s.peers[..i]))
  }

  lemma UpToNext(s: State, claims: Claims, broken: set<SocketId>, i: int)
    requires WellFormed(s) && 0 <= i < |s.peers|
    ensures var before, p := UpTo(s, claims, broken, i), s.peers[i];
      UpTo(s, claims, broken, i + 1) ==
      if Duplicate(before.att[p], claims) then ReplaceTurn(s, broken, before, p) else before
  {
    ReplacedNext(s, claims, broken, i);
  }

  lemma {:induction false} ReplaceLoopUpTo(s: State, claims: Claims, broken: set<SocketId>, i: int)
    requires WellFormed(s) && 0 <= i <= |s.peers|
    ensures ReplaceLoop(s, claims, broken, i) == UpTo(s, claims, broken, i)
  {
    if i == 0 {
      ReplacedByAll(s, claims);
    } else {
      ReplaceLoopUpTo(s, claims, broken, i - 1);
      UpToNext(s, claims, broken, i - 1);
    }
  }

  lemma ReplaceLoopIs(s: State, claims: Claims, broken: set<SocketId>)
    requires WellFormed(s)
    ensures ReplaceLoop(s, claims, broken, |s.peers|) ==
            Progress(AfterReplacement(s, claims), ReplaceOutputs(s, claims, broken, s.peers))
  {
    ReplaceLoopUpTo(s, claims, broken, |s.peers|);
    ReplacedByAll(s, claims);
    assert s.peers[..|s.peers|] == s.peers;
  }

  /** The next turn of the loop that finds a duplicate, on top of what was sent before the loop. */
  lemma LoopTakesATurn(s: State, claims: Claims, broken: set<SocketId>, i: int, sent: seq<Output>)
    requires WellFormed(s) && 0 <= i < |s.peers|
    requires Duplicate(ReplaceLoop(s, claims, broken, i).att[s.peers[i]], claims)
    ensures var before, after := ReplaceLoop(s, claims, broken, i), ReplaceLoop(s, claims, broken, i + 1);
      var p := s.peers[i];
      var peer, marked := before.att[p], Marked(before.att, p);
      && after.att == (if peer.claims.role.Mobile? then marked
                       else WithoutMobiles(State(s.peers, marked, s.pending), peer.claims))
      && sent + after.out ==
         sent + before.out + Gather(ReplaceCause(peer.claims), marked, broken, s.peers) + [Close(p, 4001)]
  {}

  class RuntimeRelay {
    const config: Config
    var peers: seq<SocketId>
    var att: map<SocketId, Attachment>
    var pending: map<SocketId, Renewal>
    var outbox: seq<Output>

    constructor (config: Config)
      ensures View() == EMPTY && outbox == [] && this.config == config
    {
      this.config := config;
      peers, att, pending, outbox := [], map[], map[], [];
    }

    ghost function View(): State
      reads this
    {
      State(peers, att, pending)
    }

    // ---- Private loops ----

    /** notifyRuntimeOfMobileDisconnect: the loop is over the sockets with the tag 'runtime'. */
    method NotifyRuntimeOfMobileDisconnect(mobile: Claims, broken: set<SocketId>)
      requires WellFormed(View())
      modifies this`outbox
      ensures outbox == old(outbox) + Gather(NotifyRuntime(mobile), att, broken, peers)
    {
      var i, sent := 0, [];
      while i < |peers|
        invariant 0 <= i <= |peers|
        invariant outbox == old(outbox)
        invariant sent == Gather(NotifyRuntime(mobile), att, broken, peers[..i])
      {
        var p := peers[i];
        var runtime := att[p];
        GatherNext(NotifyRuntime(mobile), att, broken, peers, i);
        if TaggedRuntime(runtime.claims) && !runtime.suppressed && SameRuntime(runtime.claims, mobile) {
          sent := sent + Attempt(p, Gone(mobile.clientId), broken, 1011);
        }
        i := i + 1;
      }
      assert peers[..|peers|] == peers;
      outbox := outbox + sent;
    }

    /** disconnectMobilesForRuntime */
    method DisconnectMobilesForRuntime(runtime: Claims)
      requires WellFormed(View())
      modifies this`outbox, this`att
      ensures att == WithoutMobiles(old(View()), runtime)
      ensures outbox == old(outbox) + Gather(CloseMobiles(runtime), old(att), {}, peers)
    {
      ghost var s, before := View(), att;
      var i, sent := 0, [];
      while i < |peers|
        invariant 0 <= i <= |peers|
        invariant att == Sweep(CloseMobiles(runtime), before, peers[..i])
        invariant outbox == old(outbox)
        invariant sent == Gather(CloseMobiles(runtime), before, {}, peers[..i])
      {
        SweepNext(CloseMobiles(runtime), before, {}, peers, i);
        var p := peers[i];
        var mobile := att[p];
        if mobile.claims.role.Mobile? && SameRuntime(mobile.claims, runtime) {
          att := att[p := mobile.(suppressed := true)];
          sent := sent + [Close(p, 4002)];
        }
        i := i + 1;
      }
      assert peers[..|peers|] == peers;
      SweepClosesMobiles(s, runtime);
      outbox := outbox + sent;
    }

    // ---- fetch ----

    method FindRuntime(claims: Claims, now: int) returns (found: bool)
      requires WellFormed(View())
      ensures found <==> exists p :: p in peers && Serves(att[p], claims, now)
    {
      found := false;
      for i := 0 to |peers|
        invariant found <==> exists p :: p in peers[..i] && Serves(att[p], claims, now)
      {
        assert peers[..i + 1] == peers[..i] + [peers[i]];
        found := found || Serves(att[peers[i]], claims, now);
      }
      assert peers[..|peers|] == peers;
    }

    method CountLiveMobiles(now: int) returns (n: nat)
      requires WellFormed(View())
      ensures n == |set p | p in peers && LiveMobile(att[p], now)|
    {
      n := 0;
      ghost var counted: set<SocketId> := {};
      for i := 0 to |peers|
        invariant counted == set p | p in peers[..i] && LiveMobile(att[p], now)
        invariant n == |counted|
      {
        var p := peers[i];
        assert p !in peers[..i];
        assert peers[..i + 1] == peers[..i] + [p];
        if LiveMobile(att[p], now) {
          n := n + 1;
          counted := counted + {p};
        }
      }
      assert peers[..|peers|] == peers;
    }

    /** One duplicate found by the replacement loop. */
    method ReplacePeer(p: SocketId, broken: set<SocketId>)
      requires WellFormed(View()) && p in att
      modifies this`outbox, this`att
      ensures var peer := old(att)[p];
        var marked := Marked(old(att), p);
        && att == (if peer.claims.role.Mobile? then marked
                   else WithoutMobiles(State(peers, marked, pending), peer.claims))
        && outbox == old(outbox) + Gather(ReplaceCause(peer.claims), marked, broken, peers) + [Close(p, 4001)]
    {
      var peer := att[p];
      att := att[p := peer.(suppressed := true)];
      if peer.claims.role.Mobile? {
        NotifyRuntimeOfMobileDisconnect(peer.claims, broken);
      } else {
        ClosingIgnoresBroken(CloseMobiles(peer.claims), att, {}, broken, peers);
        DisconnectMobilesForRuntime(peer.claims);
      }
      outbox := outbox + [Close(p, 4001)];
    }

    method FindDuplicate(claims: Claims) returns (replacing: bool)
      requires WellFormed(View())
      ensures replacing == Replacing(View(), claims)
    {
      replacing := false;
      for i := 0 to |peers|
        invariant replacing <==> exists p :: p in peers[..i] && Duplicate(att[p], claims)
      {
        assert peers[..i + 1] == peers[..i] + [peers[i]];
        replacing := replacing || Duplicate(att[peers[i]], claims);
      }
      assert peers[..|peers|] == peers;
    }

    method ReplaceDuplicates(claims: Claims, broken: set<SocketId>)
      requires WellFormed(View())
      modifies this`outbox, this`att
      ensures att == AfterReplacement(old(View()), claims)
      ensures outbox == old(outbox) + ReplaceOutputs(old(View()), claims, broken, peers)
    {
      ghost var s, sent := View(), outbox;
      var i := 0;
      while i < |peers|
        invariant 0 <= i <= |peers|
        invariant att == ReplaceLoop(s, claims, broken, i).att
        invariant outbox == sent + ReplaceLoop(s, claims, broken, i).out
      {
        if Duplicate(att[peers[i]], claims) {
          LoopTakesATurn(s, claims, broken, i, sent);
          ReplacePeer(peers[i], broken);
        }
        i := i + 1;
      }
      ReplaceLoopIs(s, claims, broken);
    }

    /** fetch: the response status, and the new socket when it is 101. */
    method Fetch(socket: SocketId, claims: Claims, controlProtocol: bool, now: int,
      broken: set<SocketId>) returns (status: int)
      requires WellFormed(View()) && socket !in att
      modifies this`peers, this`att, this`outbox
      ensures status == Admission(old(View()), claims, now)
      ensures var turn := OnConnect(old(View()), Connect(now, broken, socket, claims, controlProtocol));
        View() == turn.state && outbox == old(outbox) + turn.out
      ensures Kept(config, old(View()), Connect(now, broken, socket, claims, controlProtocol), View())
    {
      ghost var s := View();
      TurnKeeps(config, s, Connect(now, broken, socket, claims, controlProtocol));
      if claims.role.Mobile? {
        if Reserved(claims.clientId) {
          return 403;
        }
        var available := FindRuntime(claims, now);
        if !available {
          return 503;
        }
      }
      var live := CountLiveMobiles(now);
      var speaking := false;
      for i := 0 to |peers|
        invariant speaking <==> exists p ::
          p in peers[..i] && att[p].claims.role.Runtime? && !att[p].suppressed && att[p].control
      {
        assert peers[..i + 1] == peers[..i] + [peers[i]];
        var peer := att[peers[i]];
        speaking := speaking || (peer.claims.role.Runtime? && !peer.suppressed && peer.control);
      }
      assert peers[..|peers|] == peers;
      var replacing := FindDuplicate(claims);
      ReplaceDuplicates(claims, broken);
      if claims.role.Mobile? && live >= MAX_MOBILE_CONNECTIONS && !replacing {
        return 429;
      }
      peers := peers + [socket];
      att := att[socket := Attachment(claims, false, controlProtocol, Some(claims.jti),
                                      claims.role.Mobile? && controlProtocol && speaking, FW.Idle)];
      return 101;
    }

    // ---- webSocketMessage ----

    /** admitIngress: counts the frame against the sender's window, or closes the socket. */
    method AdmitIngress(socket: SocketId, size: nat, now: int) returns (admitted: bool)
      requires socket in att
      modifies this`att, this`outbox
      ensures var window := FW.Admit(old(att)[socket].window, now, size, MAX_INGRESS_BYTES, INGRESS_PERIOD);
        && admitted == window.Some?
        && att == (if admitted then old(att)[socket := old(att)[socket].(window := window.value)] else old(att))
        && outbox == (if admitted then old(outbox) else old(outbox) + [Close(socket, 1013)])
    {
      var sender := att[socket];
      var started := if sender.window.Open? then sender.window.start else now;
      var expired := now - started >= INGRESS_PERIOD;
      var bytes := if expired || sender.window.Idle? then 0 else sender.window.used;
      if bytes + size > MAX_INGRESS_BYTES {
        outbox := outbox + [Close(socket, 1013)];
        return false;
      }
      att := att[socket := sender.(window := FW.Open(if expired then now else started, bytes + size))];
      return true;
    }

    /** One peer and one command: made ready, closed, or left alone. */
    method ObeyFor(p: SocketId, command: Control, sender: Claims, broken: set<SocketId>) returns (sent: seq<Output>)
      requires p in att && (command.PeerReady? || command.PeerClose?)
      modifies this`att
      ensures att == old(att)[p := Touch(Obey(command, sender), old(att)[p])]
      ensures sent == Emit(Obey(command, sender), old(att), broken, p)
    {
      var target := att[p];
      sent := [];
      if Targeted(target, command, sender) {
        if command.PeerReady? {
          att := att[p := target.(awaiting := false)];
        } else {
          att := att[p := target.(suppressed := true)];
          sent := [Close(p, if command.code == 4004 then 4004 else 1013)];
        }
      }
    }

    /** The loop over mobiles for peer.ready and peer.close. */
    method ObeyCommand(command: Control, sender: Claims, broken: set<SocketId>)
      requires WellFormed(View()) && (command.PeerReady? || command.PeerClose?)
      modifies this`att, this`outbox
      ensures att == AfterCommand(old(View()), command, sender)
      ensures outbox == old(outbox) + Gather(Obey(command, sender), old(att), broken, peers)
    {
      ghost var s, before := View(), att;
      var i, sent := 0, [];
      while i < |peers|
        invariant 0 <= i <= |peers|
        invariant att == Sweep(Obey(command, sender), before, peers[..i])
        invariant outbox == old(outbox)
        invariant sent == Gather(Obey(command, sender), before, broken, peers[..i])
      {
        SweepNext(Obey(command, sender), before, broken, peers, i);
        var closing := ObeyFor(peers[i], command, sender, broken);
        sent := sent + closing;
        i := i + 1;
      }
      assert peers[..|peers|] == peers;
      SweepObeys(s, command, sender);
      outbox := outbox + sent;
    }

    /** The forwarding loop. */
    method ForwardFrame(from: SocketId, sender: Claims, clientId: Id, bytes: seq<Byte>, now: int, broken: set<SocketId>)
      requires WellFormed(View())
      modifies this`outbox
      ensures outbox == old(outbox) + Gather(Forward(from, sender, clientId, bytes, now), att, broken, peers)
    {
      ghost var cause := Forward(from, sender, clientId, bytes, now);
      var i, sent := 0, [];
      while i < |peers|
        invariant 0 <= i <= |peers|
        invariant outbox == old(outbox)
        invariant sent == Gather(cause, att, broken, peers[..i])
      {
        var p := peers[i];
        var target := att[p];
        GatherNext(cause, att, broken, peers, i);
        i := i + 1;
        if p == from || target.suppressed || target.awaiting {
          continue;
        }
        if target.claims.exp <= now / 1000 {
          sent := sent + [Close(p, 4003)];
          continue;
        }
        if sender.role == target.claims.role || sender.accountId != target.claims.accountId ||
           sender.runtimeId != target.claims.runtimeId ||
           (sender.role.Runtime? && target.claims.clientId != clientId) {
          continue;
        }
        sent := sent + [Send(p, Data(bytes))];
        if p in broken {
          sent := sent + [Close(p, 1011)];
        }
      }
      assert peers[..|peers|] == peers;
      outbox := outbox + sent;
    }

    /** renewAuthorization up to the await. */
    method BeginRenewal(socket: SocketId, bytes: seq<Byte>, command: Control, now: int, broken: set<SocketId>)
      requires WellFormed(View()) && socket in att
      modifies this`pending, this`outbox
      ensures var turn := StartRenewal(config, old(View()), Message(now, broken, socket, bytes, command));
        View() == turn.state && outbox == old(outbox) + turn.out
    {
      var previous := att[socket];
      if previous.control && config.configured && !config.renewal {
        outbox := outbox + [Close(socket, 1012)];
      } else if !previous.control || !config.configured || |bytes| > MAX_CONTROL_BYTES {
        outbox := outbox + [Close(socket, 1008)];
      } else if socket !in pending {
        if command.Renew? {
          pending := pending[socket := Renewal(previous, command.requestId)];
        } else {
          outbox := outbox + [Close(socket, 1007)];
        }
      }
    }

    /** webSocketMessage */
    method WebSocketMessage(socket: SocketId, bytes: seq<Byte>, command: Control, now: int, broken: set<SocketId>)
      requires WellFormed(View()) && socket in att
      modifies this`att, this`pending, this`outbox
      ensures var turn := OnMessage(config, old(View()), Message(now, broken, socket, bytes, command));
        View() == turn.state && outbox == old(outbox) + turn.out
      ensures Kept(config, old(View()), Message(now, broken, socket, bytes, command), View())
    {
      TurnKeeps(config, View(), Message(now, broken, socket, bytes, command));
      if |bytes| > MAX_FRAME_BYTES {
        outbox := outbox + [Close(socket, 1009)];
        return;
      }
      if att[socket].suppressed {
        return;
      }
      if att[socket].claims.exp <= now / 1000 {
        outbox := outbox + [Close(socket, 4003)];
        return;
      }
      var admitted := AdmitIngress(socket, |bytes|, now);
      if !admitted {
        return;
      }
      var sender := att[socket];
      if |bytes| >= 2 && bytes[0] == 0 && bytes[1] == 0 {
        if sender.control && sender.claims.role.Runtime? && |bytes| <= MAX_CONTROL_BYTES {
          if command.BadJson? {
            outbox := outbox + [Close(socket, 1007)];
            return;
          }
          if command.PeerReady? || command.PeerClose? {
            ObeyCommand(command, sender.claims, broken);
            return;
          }
        }
        BeginRenewal(socket, bytes, command, now, broken);
        return;
      }
      var named := FrameClientId(bytes);
      if named.None? {
        outbox := outbox + [Close(socket, 1007)];
      } else if sender.claims.role.Mobile? && sender.claims.clientId != named.value {
        outbox := outbox + [Close(socket, 1008)];
      } else if Reserved(named.value) {
        if sender.claims.role.Runtime? && named.value == MCP_CLIENT_ID {
          outbox := outbox + [Handle(socket, bytes)];
        }
      } else {
        ForwardFrame(socket, sender.claims, named.value, bytes, now, broken);
      }
    }

    /** renewAuthorization after the await. */
    method FinishRenewal(socket: SocketId, verdict: Verdict, now: int, broken: set<SocketId>)
      requires WellFormed(View()) && socket in pending
      modifies this`att, this`pending, this`outbox
      ensures var turn := OnVerified(old(View()), Verified(now, broken, socket, verdict));
        View() == turn.state && outbox == old(outbox) + turn.out
      ensures Kept(config, old(View()), Verified(now, broken, socket, verdict), View())
    {
      TurnKeeps(config, View(), Verified(now, broken, socket, verdict));
      var renewal := pending[socket];
      var previous := renewal.previous;
      var current := att[socket];
      pending := pending - {socket};
      if current.suppressed || current.claims.jti != previous.claims.jti {
        return;
      }
      if verdict.Unavailable? {
        outbox := outbox + [Send(socket, AuthError(renewal.requestId, true))];
        return;
      }
      if current.claims.exp <= now / 1000 {
        outbox := outbox + [Close(socket, 4003)];
        return;
      }
      var claims := verdict.claims;
      if claims.None? || !SameIdentity(previous.claims, claims.value) ||
         (claims.value.jti != previous.claims.jti && claims.value.exp <= previous.claims.exp) {
        outbox := outbox + [Send(socket, AuthError(renewal.requestId, false))];
      } else {
        att := att[socket := Attachment(claims.value, false, true,
          Some(ConnectionOf(previous)), previous.awaiting, current.window)];
        outbox := outbox + [Send(socket, Renewed(renewal.requestId, claims.value.exp))];
      }
      if socket in broken && !att[socket].suppressed && att[socket].claims.jti == previous.claims.jti {
        outbox := outbox + [Close(socket, 1007)];
      }
    }

    /** webSocketClose and webSocketError */
    method HandlePeerDisconnectOnce(socket: SocketId, now: int, broken: set<SocketId>)
      requires WellFormed(View()) && socket in att
      modifies this`att, this`outbox
      ensures var turn := OnDisconnected(old(View()), Disconnected(now, broken, socket));
        View() == turn.state && outbox == old(outbox) + turn.out
      ensures Kept(config, old(View()), Disconnected(now, broken, socket), View())
    {
      TurnKeeps(config, View(), Disconnected(now, broken, socket));
      var peer := att[socket];
      if peer.suppressed {
        return;
      }
      att := att[socket := peer.(suppressed := true)];
      if peer.claims.role.Mobile? {
        NotifyRuntimeOfMobileDisconnect(peer.claims, broken);
      } else {
        ClosingIgnoresBroken(CloseMobiles(peer.claims), att, {}, broken, peers);
        DisconnectMobilesForRuntime(peer.claims);
      }
    }
  }
}
