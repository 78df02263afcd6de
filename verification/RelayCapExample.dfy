/**
 Why the cap of eight needs its hypothesis: an admission that finds a lingering suppressed
 socket of the same client skips the count. For every n up to 100 there is a run with n
 live mobiles: n clients connect and disconnect in turn, then connect again while their
 closed sockets are still listed.
 */
module RelayCapExample {
  import opened Prelude
  import opened RelayFrame
  import opened RelayModel
  import opened RelayInvariant
  import opened RelayLimits

  function Grant(jti: Byte, role: Role): Claims {
    Claims([1], [2], 100, 0, 0, [jti], [3], [200], [jti], role, 1, [4], [5], None)
  }

  const THE_RUNTIME := Grant(200, Runtime)

  function Crowd(): World {
    World([200], Config(true, true),
          (map i: Byte | 1 <= i <= 100 :: [i] := Grant(i, Mobile))[[200] := THE_RUNTIME])
  }

  lemma CrowdGrants(i: Byte)
    requires 1 <= i <= 100
    ensures Granted(Crowd(), Grant(i, Mobile)) && Granted(Crowd(), THE_RUNTIME)
  {
    var grants := map j: Byte | 1 <= j <= 100 :: [j] := Grant(j, Mobile);
    assert [i] in grants;
    assert [i] != [200 as Byte];
    var j: Byte :| 1 <= j <= 100 && [j] == [i] && grants[[i]] == Grant(j, Mobile);
    assert [j][0] == [i][0];
  }

  predicate AllAtZero(events: seq<Event>) {
    forall i :: 0 <= i < |events| ==> events[i].now == 0
  }

  ghost predicate AtZero(w: World, s: State) {
    exists events :: ValidRun(w, events) && After(w, events) == s && AllAtZero(events)
  }

  lemma Extend(w: World, s: State, e: Event)
    requires AtZero(w, s) && Legal(w, s, e) && e.now == 0
    ensures AtZero(w, Next(w, s, e).state)
  {
    var events :| ValidRun(w, events) && After(w, events) == s && AllAtZero(events);
    var longer := events + [e];
    assert longer[..|longer| - 1] == events;
    assert ValidRun(w, longer) && After(w, longer) == Next(w, s, e).state;
  }

  lemma AtZeroKeeps(w: World, s: State)
    requires AtZero(w, s)
    ensures Inv(w, s)
  {
    var events :| ValidRun(w, events) && After(w, events) == s && AllAtZero(events);
    RunKeeps(w, events);
  }

  ghost predicate Lists(s: State, i: Byte) {
    exists p :: p in s.peers && p in s.att && Duplicate(s.att[p], Grant(i, Mobile))
  }

  ghost predicate LiveClient(s: State, i: Byte) {
    exists k :: k in LiveMobiles(s, 0) && s.att[k].claims.clientId == [i]
  }

  ghost predicate Hosted(s: State) {
    exists p :: p in s.peers && p in s.att && Serves(s.att[p], THE_RUNTIME, 0)
  }

  /** `listed` clients have a socket in the list, the first `live` of them a live one. */
  ghost predicate Stage(s: State, bound: nat, listed: int, live: int) {
    AtZero(Crowd(), s) && Hosted(s) && (forall k :: k in s.att ==> k < bound) &&
    (forall i: Byte :: 1 <= i <= listed ==> Lists(s, i)) &&
    |LiveMobiles(s, 0)| == live &&
    (forall i: Byte :: i > live ==> !LiveClient(s, i))
  }

  lemma Opened() returns (s: State)
    ensures Stage(s, 1, 0, 0)
  {
    var w := Crowd();
    CrowdGrants(1);
    var nothing: seq<Event> := [];
    assert ValidRun(w, nothing) && After(w, nothing) == EMPTY;
    var e := Connect(0, {}, 0, THE_RUNTIME, true);
    Extend(w, EMPTY, e);
    s := Next(w, EMPTY, e).state;
    HostConnects(s);
  }

  lemma HostConnects(s: State)
    requires s == OnConnect(EMPTY, Connect(0, {}, 0, THE_RUNTIME, true)).state
    ensures Hosted(s) && s.att.Keys == {0} && LiveMobiles(s, 0) == {}
  {
    assert s.peers == [0] && s.att[0] == Accepted(EMPTY, THE_RUNTIME, true);
    assert Serves(s.att[0], THE_RUNTIME, 0);
  }

  lemma AdmitsWhenServed(s: State, claims: Claims, now: int, p: SocketId)
    requires WellFormed(s) && claims.role.Mobile? && !Reserved(claims.clientId)
    requires p in s.peers && Serves(s.att[p], claims, now)
    requires |set q | q in s.peers && LiveMobile(s.att[q], now)| < MAX_MOBILE_CONNECTIONS || Replacing(s, claims)
    ensures Admission(s, claims, now) == 101
  {}

  lemma Admits(s: State, i: Byte)
    requires Inv(Crowd(), s) && Hosted(s) && 1 <= i <= 100
    requires |LiveMobiles(s, 0)| < MAX_MOBILE_CONNECTIONS || Lists(s, i)
    ensures Admission(s, Grant(i, Mobile), 0) == 101
  {
    CountedOverPeers(Crowd(), s, 0);
    var p :| p in s.peers && p in s.att && Serves(s.att[p], THE_RUNTIME, 0);
    AdmitsWhenServed(s, Grant(i, Mobile), 0, p);
  }

  /** t still lists everything s lists, and its runtimes are untouched. */
  ghost predicate Carries(s: State, t: State) {
    (forall p :: p in s.peers ==> p in t.peers) &&
    (forall p :: p in s.att ==> p in t.att && t.att[p].claims == s.att[p].claims) &&
    (forall p :: p in s.att && s.att[p].claims.role.Runtime? ==> t.att[p] == s.att[p])
  }

  function JoinEvent(bound: nat, i: Byte): Event {
    Connect(0, {}, bound, Grant(i, Mobile), false)
  }

  lemma JoinCarries(s: State, bound: nat, i: Byte)
    requires WellFormed(s) && bound !in s.att && Admission(s, Grant(i, Mobile), 0) == 101
    ensures var t := OnConnect(s, JoinEvent(bound, i)).state;
      Carries(s, t) && t.att.Keys == s.att.Keys + {bound} && bound in t.peers && t.att[bound].claims == Grant(i, Mobile)
  {
    ConnectOutcomes(s, JoinEvent(bound, i));
    assert OnConnect(s, JoinEvent(bound, i)).state.peers == s.peers + [bound];
  }

  lemma Join(s: State, bound: nat, i: Byte) returns (t: State)
    requires AtZero(Crowd(), s) && Hosted(s) && 1 <= i <= 100 && bound !in s.att
    requires |LiveMobiles(s, 0)| < MAX_MOBILE_CONNECTIONS || Lists(s, i)
    ensures AtZero(Crowd(), t) && Carries(s, t) && t.att.Keys == s.att.Keys + {bound}
    ensures bound in t.peers && t.att[bound].claims == Grant(i, Mobile)
    ensures LiveMobiles(t, 0) == LiveMobiles(s, 0) - Replaced(s, JoinEvent(bound, i)) + {bound}
  {
    var w, e := Crowd(), JoinEvent(bound, i);
    CrowdGrants(i);
    AtZeroKeeps(w, s);
    Admits(s, i);
    t := Next(w, s, e).state;
    assert AtZero(w, t) by {
      Extend(w, s, e);
    }
    assert LiveMobiles(t, 0) == LiveMobiles(s, 0) - Replaced(s, e) + {bound} by {
      MobilesAfterAdmission(w, s, e);
    }
    JoinCarries(s, bound, i);
  }

  lemma PartCarries(s: State, k: SocketId)
    requires WellFormed(s) && k in s.att && s.att[k].claims.role.Mobile?
    ensures var t := OnDisconnected(s, Disconnected(0, {}, k)).state;
      Carries(s, t) && t.att.Keys == s.att.Keys && k !in LiveMobiles(t, 0)
  {}

  lemma Part(s: State, k: SocketId) returns (t: State)
    requires AtZero(Crowd(), s) && k in s.att && s.att[k].claims.role.Mobile?
    ensures AtZero(Crowd(), t) && Carries(s, t) && t.att.Keys == s.att.Keys
    ensures LiveMobiles(t, 0) <= LiveMobiles(s, 0) - {k}
  {
    var w, e := Crowd(), Disconnected(0, {}, k);
    AtZeroKeeps(w, s);
    t := Next(w, s, e).state;
    assert AtZero(w, t) by {
      Extend(w, s, e);
    }
    assert LiveMobiles(t, 0) <= LiveMobiles(s, 0) by {
      OnlyAdmissionAddsMobiles(w, s, e);
    }
    PartCarries(s, k);
  }

  lemma CarriesTransitively(s: State, m: State, t: State)
    requires Carries(s, m) && Carries(m, t)
    ensures Carries(s, t)
  {}

  lemma NewlyListed(t: State, p: SocketId, n: int)
    requires 1 <= n <= 100 && p in t.peers && p in t.att && t.att[p].claims == Grant(n, Mobile)
    requires forall i: Byte :: 1 <= i <= n - 1 ==> Lists(t, i)
    ensures forall i: Byte :: 1 <= i <= n ==> Lists(t, i)
  {
    assert Duplicate(t.att[p], Grant(n, Mobile));
    assert Lists(t, n);
  }

  /** One more client with a listed socket, none of them live. */
  lemma Lingers(s: State, bound: nat, n: int) returns (t: State)
    requires Stage(s, bound, n - 1, 0) && 1 <= n <= 100
    ensures Stage(t, bound + 1, n, 0)
  {
    var m := Join(s, bound, n);
    t := Part(m, bound);
    assert LiveMobiles(t, 0) == {};
    CarriesTransitively(s, m, t);
    StillListed(s, t, n - 1);
    NewlyListed(t, bound, n);
    assert forall i: Byte :: !LiveClient(t, i);
  }

  /** Listed sockets and the runtime stay where they are. */
  lemma StillListed(s: State, t: State, n: int)
    requires Hosted(s) && (forall i: Byte :: 1 <= i <= n ==> Lists(s, i))
    requires Carries(s, t)
    ensures Hosted(t) && forall i: Byte :: 1 <= i <= n ==> Lists(t, i)
  {
    var p :| p in s.peers && p in s.att && Serves(s.att[p], THE_RUNTIME, 0);
    assert p in t.peers && Serves(t.att[p], THE_RUNTIME, 0);
    forall i: Byte | 1 <= i <= n
      ensures Lists(t, i)
    {
      assert Lists(s, i);
      var q :| q in s.peers && q in s.att && Duplicate(s.att[q], Grant(i, Mobile));
      assert q in t.peers && Duplicate(t.att[q], Grant(i, Mobile));
    }
  }

  /** One more live client, whatever the count already is. */
  lemma Returns(s: State, bound: nat, n: int, m: int) returns (t: State)
    requires Stage(s, bound, n, m - 1) && 1 <= m <= n <= 100
    ensures Stage(t, bound + 1, n, m)
  {
    t := Join(s, bound, m);
    StillListed(s, t, n);
    assert Replaced(s, JoinEvent(bound, m)) == {} by {
      forall p | p in Replaced(s, JoinEvent(bound, m))
        ensures LiveClient(s, m)
      {
        assert p in LiveMobiles(s, 0);
      }
    }
    forall i: Byte | i > m
      ensures !LiveClient(t, i)
    {
      assert !LiveClient(s, i);
    }
  }

  lemma {:induction false} AllLinger(n: int) returns (s: State, bound: nat)
    requires 0 <= n <= 100
    ensures Stage(s, bound, n, 0)
  {
    if n == 0 {
      s := Opened();
      bound := 1;
    } else {
      s, bound := AllLinger(n - 1);
      s := Lingers(s, bound, n);
      bound := bound + 1;
    }
  }

  lemma {:induction false} AllReturn(n: int, m: int) returns (s: State, bound: nat)
    requires 0 <= m <= n <= 100
    ensures Stage(s, bound, n, m)
  {
    if m == 0 {
      s, bound := AllLinger(n);
    } else {
      s, bound := AllReturn(n, m - 1);
      s := Returns(s, bound, n, m);
      bound := bound + 1;
    }
  }

  /** Some run reaches n live mobiles, for every n up to 100; nine is already too many. */
  lemma CapCanBePassed(n: int)
    requires 0 <= n <= 100
    ensures exists events :: ValidRun(Crowd(), events) && |LiveMobiles(After(Crowd(), events), 0)| == n
  {
    var s, bound := AllReturn(n, n);
    var events :| ValidRun(Crowd(), events) && After(Crowd(), events) == s && AllAtZero(events);
  }
}
