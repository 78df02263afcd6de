/**
 The per-runtime relay object (edge/src/runtime_relay.ts) as a step system. One step is
 one JavaScript turn: everything between two awaits. The wall clock does not move inside a
 turn. Sockets never leave `att`, because a socket object keeps its attachment after it
 has left the peer list. JSON is not modelled: a control frame arrives with the command it
 decodes to, and grant verification arrives as a verdict.
 */
module RelayModel {
  import opened Prelude
  import opened RelayFrame
  import FW = FixedWindow

  const MAX_FRAME_BYTES := 1024 * 1024
  const MAX_CONTROL_BYTES := 16384
  const MAX_MOBILE_CONNECTIONS := 8
  const MAX_INGRESS_BYTES := 16 * 1024 * 1024
  const INGRESS_PERIOD := 1000
  const MAX_GRANT_SECONDS := 120
  const CLOCK_SKEW_SECONDS := 30

  /** The UTF-8 bytes of "runtime". */
  const RUNTIME_TAG: Id := [114, 117, 110, 116, 105, 109, 101]

  type SocketId = nat

  datatype Role = Runtime | Mobile

  datatype Claims = Claims(
    iss: Id, aud: Id, exp: int, iat: int, nbf: int, jti: Id,
    accountId: Id, runtimeId: Id, clientId: Id, role: Role,
    keyVersion: int, clientPublicKey: Id, runtimePublicKey: Id, mobileAccess: Option<bool>)

  datatype Attachment = Attachment(
    claims: Claims, suppressed: bool, control: bool,
    connectionId: Option<Id>, awaiting: bool, window: FW.Window)

  /** A renewal waiting for verification: the attachment it started from and its request id. */
  datatype Renewal = Renewal(previous: Attachment, requestId: int)

  datatype State = State(
    peers: seq<SocketId>, att: map<SocketId, Attachment>, pending: map<SocketId, Renewal>)

  /** `renewal` is RELAY_RENEWAL_ENABLED; `configured` tells whether the object has an environment. */
  datatype Config = Config(renewal: bool, configured: bool)

  datatype Control =
    | BadJson
    | PeerReady(clientId: Id, connectionId: Id)
    | PeerClose(clientId: Id, connectionId: Id, code: int)
    | Renew(requestId: int)
    | OtherJson

  datatype Verdict = Unavailable | Checked(claims: Option<Claims>)

  /** `broken` holds the sockets whose `send` throws during the turn. */
  datatype Event =
    | Connect(now: int, broken: set<SocketId>, socket: SocketId, claims: Claims, controlProtocol: bool)
    | Message(now: int, broken: set<SocketId>, socket: SocketId, bytes: seq<Byte>, command: Control)
    | Verified(now: int, broken: set<SocketId>, socket: SocketId, verdict: Verdict)
    | Disconnected(now: int, broken: set<SocketId>, socket: SocketId)
    | Leave(now: int, broken: set<SocketId>, socket: SocketId)

  datatype Frame =
    | Data(bytes: seq<Byte>)
    | Gone(clientId: Id)
    | Renewed(requestId: int, exp: int)
    | AuthError(requestId: int, unavailable: bool)

  /** `Handle` passes a runtime's frame to the object's own MCP calls. */
  datatype Output =
    | Send(socket: SocketId, frame: Frame)
    | Close(socket: SocketId, code: int)
    | Handle(socket: SocketId, bytes: seq<Byte>)

  datatype Turn = Turn(state: State, out: seq<Output>)

  predicate WellFormed(s: State) {
    Distinct(s.peers) && (forall p <- s.peers :: p in s.att) && s.pending.Keys <= s.att.Keys
  }

  /** The socket an event names exists, except that a new connection brings a new socket. */
  predicate Known(s: State, e: Event) {
    if e.Connect? then e.socket !in s.att
    else if e.Verified? then e.socket in s.pending && e.socket in s.att
    else e.socket in s.att
  }

  function Seconds(now: int): int {
    now / 1000
  }

  predicate Expired(a: Attachment, now: int) {
    a.claims.exp <= Seconds(now)
  }

  predicate SameIdentity(a: Claims, b: Claims) {
    a.iss == b.iss && a.aud == b.aud && a.accountId == b.accountId && a.runtimeId == b.runtimeId &&
    a.clientId == b.clientId && a.role == b.role && a.keyVersion == b.keyVersion &&
    a.clientPublicKey == b.clientPublicKey && a.runtimePublicKey == b.runtimePublicKey
  }

  /** The time checks a grant must pass when it is verified at `now` (milliseconds). */
  predicate GrantTimesAccepted(c: Claims, now: int) {
    c.iat < c.exp && c.exp - c.iat <= MAX_GRANT_SECONDS && c.nbf <= c.exp &&
    c.exp > Seconds(now) && c.nbf <= Seconds(now) + CLOCK_SKEW_SECONDS &&
    c.iat <= Seconds(now) + CLOCK_SKEW_SECONDS
  }

  predicate SameRuntime(a: Claims, b: Claims) {
    a.accountId == b.accountId && a.runtimeId == b.runtimeId
  }

  /** The tag 'runtime' selects the socket. A socket is tagged with its role and with its client id. */
  predicate TaggedRuntime(c: Claims) {
    c.role.Runtime? || c.clientId == RUNTIME_TAG
  }

  function ConnectionOf(a: Attachment): Id {
    Coalesce(a.connectionId, a.claims.jti)
  }

  // ---- What one loop over the peers emits ----

  datatype Cause =
    | NotifyRuntime(mobile: Claims)
    | CloseMobiles(runtime: Claims)
    | Forward(from: SocketId, sender: Claims, clientId: Id, bytes: seq<Byte>, now: int)
    | Obey(command: Control, sender: Claims)

  predicate Targeted(a: Attachment, command: Control, sender: Claims)
    requires command.PeerReady? || command.PeerClose?
  {
    !a.suppressed && a.claims.role.Mobile? && a.claims.clientId == command.clientId &&
    ConnectionOf(a) == command.connectionId && SameRuntime(a.claims, sender)
  }

  predicate Routed(sender: Claims, target: Claims, clientId: Id) {
    sender.role != target.role && SameRuntime(sender, target) &&
    (sender.role.Runtime? ==> target.clientId == clientId)
  }

  function Attempt(p: SocketId, frame: Frame, broken: set<SocketId>, code: int): seq<Output> {
    [Send(p, frame)] + if p in broken then [Close(p, code)] else []
  }

  function Emit(cause: Cause, att: map<SocketId, Attachment>, broken: set<SocketId>, p: SocketId): seq<Output>
    requires p in att
  {
    var a := att[p];
    match cause
    case NotifyRuntime(mobile) =>
      if TaggedRuntime(a.claims) && !a.suppressed && SameRuntime(a.claims, mobile)
      then Attempt(p, Gone(mobile.clientId), broken, 1011) else []
    case CloseMobiles(runtime) =>
      if a.claims.role.Mobile? && SameRuntime(a.claims, runtime) then [Close(p, 4002)] else []
    case Forward(from, sender, clientId, bytes, now) =>
      if p == from || a.suppressed || a.awaiting then []
      else if Expired(a, now) then [Close(p, 4003)]
      else if Routed(sender, a.claims, clientId) then Attempt(p, Data(bytes), broken, 1011)
      else []
    case Obey(command, sender) =>
      if command.PeerClose? && Targeted(a, command, sender)
      then [Close(p, if command.code == 4004 then 4004 else 1013)] else []
  }

  function Gather(cause: Cause, att: map<SocketId, Attachment>,
    broken: set<SocketId>, peers: seq<SocketId>): seq<Output>
    requires forall p <- peers :: p in att
  {
    if peers == [] then []
    else
      var last := |peers| - 1;
      Gather(cause, att, broken, peers[..last]) + Emit(cause, att, broken, peers[last])
  }

  function Suppress(a: Attachment): Attachment {
    a.(suppressed := true)
  }

  /** Every mobile of this runtime that is still a peer, live or not, becomes suppressed. */
  function WithoutMobiles(s: State, runtime: Claims): map<SocketId, Attachment> {
    map k | k in s.att ::
      if k in s.peers && s.att[k].claims.role.Mobile? && SameRuntime(s.att[k].claims, runtime)
      then Suppress(s.att[k]) else s.att[k]
  }

  // ---- fetch: admission and replacement ----

  predicate Duplicate(a: Attachment, claims: Claims) {
    a.claims.role == claims.role && a.claims.clientId == claims.clientId
  }

  predicate Serves(a: Attachment, mobile: Claims, now: int) {
    a.claims.role.Runtime? && !a.suppressed && a.claims.mobileAccess != Some(false) &&
    !Expired(a, now) && SameRuntime(a.claims, mobile)
  }

  predicate LiveMobile(a: Attachment, now: int) {
    a.claims.role.Mobile? && !a.suppressed && !Expired(a, now)
  }

  function LiveMobiles(s: State, now: int): set<SocketId> {
    set k | k in s.att && LiveMobile(s.att[k], now)
  }

  predicate Replacing(s: State, claims: Claims)
    requires WellFormed(s)
  {
    exists p :: p in s.peers && Duplicate(s.att[p], claims)
  }

  /** The HTTP status of an upgrade request. */
  function Admission(s: State, claims: Claims, now: int): int
    requires WellFormed(s)
  {
    if claims.role.Mobile? && Reserved(claims.clientId) then 403
    else if claims.role.Mobile? && !exists p :: p in s.peers && Serves(s.att[p], claims, now) then 503
    else if claims.role.Mobile? && |set p | p in s.peers && LiveMobile(s.att[p], now)| >= MAX_MOBILE_CONNECTIONS
            && !Replacing(s, claims) then 429
    else 101
  }

  /** Suppressed by a connection with these claims: a duplicate, or a mobile of a replaced runtime. */
  predicate Displaced(s: State, claims: Claims, k: SocketId)
    requires WellFormed(s) && k in s.att
  {
    k in s.peers &&
    (Duplicate(s.att[k], claims) ||
     (s.att[k].claims.role.Mobile? && claims.role.Runtime? &&
      exists p :: p in s.peers && Duplicate(s.att[p], claims) && SameRuntime(s.att[k].claims, s.att[p].claims)))
  }

  function AfterReplacement(s: State, claims: Claims): map<SocketId, Attachment>
    requires WellFormed(s)
  {
    map k | k in s.att :: if Displaced(s, claims, k) then Suppress(s.att[k]) else s.att[k]
  }

  /** The duplicates among the first peers have been suppressed. */
  function Swept(s: State, claims: Claims, peers: seq<SocketId>): map<SocketId, Attachment> {
    map k | k in s.att :: if k in peers && Duplicate(s.att[k], claims) then Suppress(s.att[k]) else s.att[k]
  }

  /** The replacement loop over the first peers: each duplicate is suppressed before its notice is sent. */
  function ReplaceOutputs(s: State, claims: Claims, broken: set<SocketId>, peers: seq<SocketId>): seq<Output>
    requires WellFormed(s)
    requires forall p <- peers :: p in s.att
  {
    if peers == [] then []
    else
      var p := peers[|peers| - 1];
      var before := ReplaceOutputs(s, claims, broken, peers[..|peers| - 1]);
      if !Duplicate(s.att[p], claims) then before
      else
        var cause := if claims.role.Mobile? then NotifyRuntime(s.att[p].claims) else CloseMobiles(s.att[p].claims);
        before + Gather(cause, Swept(s, claims, peers), broken, s.peers) + [Close(p, 4001)]
  }

  function Accepted(s: State, claims: Claims, controlProtocol: bool): Attachment
    requires WellFormed(s)
  {
    var speaking := exists p ::
      p in s.peers && s.att[p].claims.role.Runtime? && !s.att[p].suppressed && s.att[p].control;
    Attachment(claims, false, controlProtocol, Some(claims.jti),
               claims.role.Mobile? && controlProtocol && speaking, FW.Idle)
  }

  function OnConnect(s: State, e: Event): Turn
    requires WellFormed(s) && e.Connect? && Known(s, e)
  {
    var status := Admission(s, e.claims, e.now);
    if status == 403 || status == 503 then Turn(s, [])
    else
      var out := ReplaceOutputs(s, e.claims, e.broken, s.peers);
      var replaced := s.(att := AfterReplacement(s, e.claims));
      if status == 429 then Turn(replaced, out)
      else Turn(replaced.(peers := s.peers + [e.socket],
                          att := replaced.att[e.socket := Accepted(s, e.claims, e.controlProtocol)]), out)
  }

  // ---- webSocketMessage ----

  function AfterCommand(s: State, command: Control, sender: Claims): map<SocketId, Attachment>
    requires command.PeerReady? || command.PeerClose?
  {
    map k | k in s.att ::
      if k in s.peers && Targeted(s.att[k], command, sender)
      then (if command.PeerReady? then s.att[k].(awaiting := false) else Suppress(s.att[k]))
      else s.att[k]
  }

  function StartRenewal(config: Config, s: State, e: Event): Turn
    requires WellFormed(s) && e.Message? && e.socket in s.att
  {
    var sender := s.att[e.socket];
    if sender.control && config.configured && !config.renewal then Turn(s, [Close(e.socket, 1012)])
    else if !sender.control || !config.configured || |e.bytes| > MAX_CONTROL_BYTES then Turn(s, [Close(e.socket, 1008)])
    else if e.socket in s.pending then Turn(s, [])
    else if !e.command.Renew? then Turn(s, [Close(e.socket, 1007)])
    else Turn(s.(pending := s.pending[e.socket := Renewal(sender, e.command.requestId)]), [])
  }

  function OnControl(config: Config, s: State, e: Event): Turn
    requires WellFormed(s) && e.Message? && e.socket in s.att
  {
    var sender := s.att[e.socket];
    if sender.control && sender.claims.role.Runtime? && |e.bytes| <= MAX_CONTROL_BYTES && e.command.BadJson? then
      Turn(s, [Close(e.socket, 1007)])
    else if sender.control && sender.claims.role.Runtime? && |e.bytes| <= MAX_CONTROL_BYTES
            && (e.command.PeerReady? || e.command.PeerClose?) then
      Turn(s.(att := AfterCommand(s, e.command, sender.claims)),
           Gather(Obey(e.command, sender.claims), s.att, e.broken, s.peers))
    else StartRenewal(config, s, e)
  }

  function OnData(s: State, e: Event): seq<Output>
    requires WellFormed(s) && e.Message? && e.socket in s.att
  {
    var sender := s.att[e.socket].claims;
    var named := FrameClientId(e.bytes);
    if named.None? then [Close(e.socket, 1007)]
    else if sender.role.Mobile? && sender.clientId != named.value then [Close(e.socket, 1008)]
    else if Reserved(named.value) then
      (if sender.role.Runtime? && named.value == MCP_CLIENT_ID then [Handle(e.socket, e.bytes)] else [])
    else Gather(Forward(e.socket, sender, named.value, e.bytes, e.now), s.att, e.broken, s.peers)
  }

  function Ingress(s: State, e: Event): Option<FW.Window>
    requires e.Message? && e.socket in s.att
  {
    FW.Admit(s.att[e.socket].window, e.now, |e.bytes|, MAX_INGRESS_BYTES, INGRESS_PERIOD)
  }

  /** The frame passes the size, suppression, expiry and rate checks. */
  predicate Admitted(s: State, e: Event)
    requires e.Message? && e.socket in s.att
  {
    |e.bytes| <= MAX_FRAME_BYTES && !s.att[e.socket].suppressed &&
    !Expired(s.att[e.socket], e.now) && Ingress(s, e).Some?
  }

  predicate ControlFrame(bytes: seq<Byte>) {
    |bytes| >= 2 && bytes[0] == 0 && bytes[1] == 0
  }

  function Metered(s: State, e: Event): State
    requires e.Message? && e.socket in s.att && Ingress(s, e).Some?
  {
    s.(att := s.att[e.socket := s.att[e.socket].(window := Ingress(s, e).value)])
  }

  function OnMessage(config: Config, s: State, e: Event): Turn
    requires WellFormed(s) && e.Message? && Known(s, e)
  {
    if |e.bytes| > MAX_FRAME_BYTES then Turn(s, [Close(e.socket, 1009)])
    else if s.att[e.socket].suppressed then Turn(s, [])
    else if Expired(s.att[e.socket], e.now) then Turn(s, [Close(e.socket, 4003)])
    else if Ingress(s, e).None? then Turn(s, [Close(e.socket, 1013)])
    else
      var metered := Metered(s, e);
      if ControlFrame(e.bytes) then OnControl(config, metered, e)
      else Turn(metered, OnData(metered, e))
  }

  // ---- renewAuthorization after the await ----

  predicate RenewalAccepted(previous: Claims, claims: Option<Claims>) {
    claims.Some? && SameIdentity(previous, claims.value) &&
    (claims.value.jti == previous.jti || claims.value.exp > previous.exp)
  }

  function RenewedAttachment(previous: Attachment, current: Attachment, claims: Claims): Attachment {
    Attachment(claims, false, true, Some(ConnectionOf(previous)), previous.awaiting, current.window)
  }

  function OnVerified(s: State, e: Event): Turn
    requires WellFormed(s) && e.Verified? && Known(s, e)
  {
    var k := e.socket;
    var Renewal(previous, id) := s.pending[k];
    var current := s.att[k];
    var done := s.(pending := s.pending - {k});
    if current.suppressed || current.claims.jti != previous.claims.jti then Turn(done, [])
    else if e.verdict.Unavailable? then Turn(done, [Send(k, AuthError(id, true))])
    else if Expired(current, e.now) then Turn(done, [Close(k, 4003)])
    else if !RenewalAccepted(previous.claims, e.verdict.claims) then
      Turn(done, Attempt(k, AuthError(id, false), e.broken, 1007))
    else
      var claims := e.verdict.claims.value;
      Turn(done.(att := s.att[k := RenewedAttachment(previous, current, claims)]),
           [Send(k, Renewed(id, claims.exp))] +
           if k in e.broken && claims.jti == previous.claims.jti then [Close(k, 1007)] else [])
  }

  // ---- webSocketClose and webSocketError ----

  function OnDisconnected(s: State, e: Event): Turn
    requires WellFormed(s) && e.Disconnected? && Known(s, e)
  {
    var a := s.att[e.socket];
    if a.suppressed then Turn(s, [])
    else
      var gone := s.(att := s.att[e.socket := Suppress(a)]);
      if a.claims.role.Mobile? then Turn(gone, Gather(NotifyRuntime(a.claims), gone.att, e.broken, s.peers))
      else Turn(gone.(att := WithoutMobiles(gone, a.claims)),
                Gather(CloseMobiles(a.claims), gone.att, e.broken, s.peers))
  }

  function Without(peers: seq<SocketId>, k: SocketId): seq<SocketId> {
    if peers == [] then []
    else if peers[|peers| - 1] == k then Without(peers[..|peers| - 1], k)
    else Without(peers[..|peers| - 1], k) + [peers[|peers| - 1]]
  }

  function Step(config: Config, s: State, e: Event): Turn
    requires WellFormed(s) && Known(s, e)
  {
    match e
    case Connect(_, _, _, _, _) => OnConnect(s, e)
    case Message(_, _, _, _, _) => OnMessage(config, s, e)
    case Verified(_, _, _, _) => OnVerified(s, e)
    case Disconnected(_, _, _) => OnDisconnected(s, e)
    case Leave(_, _, k) => Turn(s.(peers := Without(s.peers, k)), [])
  }

  const EMPTY := State([], map[], map[])
}
