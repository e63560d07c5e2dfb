/** The whole server as a timed state machine: decoded packets, datagrams from peers, timer
    completions and the passing of time.  A request handler runs as one step: it decides on an
    effect and its replies, and the effect is applied to the state. */
module Server {
  import opened Common
  import opened Stun
  import opened Timers
  import opened RelayPorts
  import Permissions
  import Channels
  import Nonces

  // ---------------------------------------------------------------- configuration and state

  // Configured lifetimes are in seconds.  Key derivation, message integrity, the nonce HMAC and
  // the attribute codec are whatever functions the libraries provide.
  datatype Env = Env(
    realm: string,
    users: map<string, string>,
    allocationLifetime: int,
    maxAllocationLifetime: int,
    channelLifetime: int,
    permissionLifetime: int,
    reservationLifetime: int,
    relayIsV4: bool,
    ports: PortRange,
    md5Key: (string, string, string) -> seq<Byte>,
    sha256Key: (string, string, string) -> seq<Byte>,
    integrityHolds: (Request, AuthKey) -> bool,
    hmac: Nonces.Hmac,
    codec: AttributeCodec)

  ghost predicate ValidEnv(env: Env) {
    RelayPorts.Valid(env.ports) && 0 < env.ports.min && HasEvenPort(env.ports)
  }

  datatype Allocation = Allocation(
    fiveTuple: FiveTuple,
    port: nat,
    success: seq<Byte>,
    permissions: Permissions.PermissionTable,
    channels: Channels.ChannelTable)

  /* `sessions` is the session map with the timers of its allocations; an allocation is numbered by
     its timer.  `allocations` also holds those that have left the session map but whose reader
     still runs on their socket. */
  datatype State = State(
    now: int,
    sessions: Table<FiveTuple, ()>,
    allocations: map<nat, Allocation>,
    reservations: map<Token, nat>,
    bound: set<nat>)

  function Init(start: int): State {
    State(start, Empty(), map[], map[], {})
  }

  function FindAllocation(s: State, f: FiveTuple): Option<nat> {
    if f in s.sessions.entries && s.sessions.entries[f].timer in s.allocations
    then Some(s.sessions.entries[f].timer) else None
  }

  // ---------------------------------------------------------------- packets and outputs

  // The outside world's part in one request.
  datatype Oracle = Oracle(
    unixNow: int,             // the wall clock, for nonces
    draws: nat -> Draw,       // random ports and bind permissions
    token: Token,             // the random token that is not outstanding
    builderValid: bool)       // whether an error reply fits its buffer

  datatype Packet =
    | StunRequest(request: Request)
    | SendIndication(data: Option<seq<Byte>>, to: Option<PeerAddress>, encodes: bool)
    | ChannelData(number: nat, payload: seq<Byte>, encodes: bool)
    | Unprocessable           // malformed, an unknown indication, a response, or not TURN at all

  datatype Output =
    | ToClient(bytes: seq<Byte>, client: Endpoint)
    | ChannelDataToClient(number: nat, payload: seq<Byte>, client: Endpoint)
    | DataToClient(peer: Endpoint, payload: seq<Byte>, client: Endpoint)
    | ToPeer(allocation: nat, payload: seq<Byte>, peer: Endpoint)
    | Terminated              // an exception leaves the reader

  // ---------------------------------------------------------------- authentication

  const SUPPORTED_ALGORITHMS := [AlgorithmEntry(SHA256, []), AlgorithmEntry(MD5, [])]

  datatype Verdict =
    | Granted(key: AuthKey)
    | Refused(code: ErrorCode, signedWith: Option<AuthKey>)

  function DeriveKey(env: Env, algorithm: Algorithm, username: string, realm: string, password: string): AuthKey {
    if algorithm == SHA256 then AuthKey(SHA256, env.sha256Key(username, realm, password))
    else AuthKey(MD5, env.md5Key(username, realm, password))
  }

  // The algorithm to use, or None when the two attributes do not fit together.
  function ChooseAlgorithm(req: Request, nonce: string): Option<Algorithm> {
    if !Nonces.HasPasswordAlgorithmsBit(nonce) then Some(MD5)
    else if req.passwordAlgorithm.None? && req.passwordAlgorithms.None? then Some(MD5)
    else if req.passwordAlgorithm.None? || req.passwordAlgorithms.None? then None
    else if req.passwordAlgorithms.value != SUPPORTED_ALGORITHMS then None
    else if !(exists i :: 0 <= i < |req.passwordAlgorithms.value|
                          && req.passwordAlgorithms.value[i].algorithm == req.passwordAlgorithm.value) then None
    else Some(req.passwordAlgorithm.value)
  }

  function Authenticate(env: Env, req: Request, unixNow: int): Verdict {
    if req.integritySha1.Some? == req.integritySha256.Some? then Refused(Unauthenticated, None)
    else if req.username.None? || req.realm.None? || req.realm.value != env.realm || req.nonce.None? then
      Refused(BadRequest, None)
    else
      match ChooseAlgorithm(req, req.nonce.value)
      case None => Refused(BadRequest, None)
      case Some(algorithm) =>
        var username := req.username.value;
        if username !in env.users then Refused(Unauthenticated, None)
        else
          var key := DeriveKey(env, algorithm, username, req.realm.value, env.users[username]);
          var attribute := if algorithm == SHA256 then req.integritySha256 else req.integritySha1;
          if attribute.None? then Refused(Unauthenticated, Some(key))
          else if !env.integrityHolds(req, key) then Refused(Unauthenticated, Some(key))
          else if !Nonces.Validate(env.hmac, req.nonce.value, unixNow) then Refused(StaleNonce, Some(key))
          else Granted(key)
  }

  // ---------------------------------------------------------------- decisions

  datatype Effect =
    | NoEffect
    | Allocated(relay: Relay, token: Token, lifetime: int, success: seq<Byte>)
    | Claimed(token: Token, lifetime: int, success: seq<Byte>)
    | Refreshed(lifetime: int)
    | Permitted(addresses: seq<Address>)
    | ChannelBound(number: nat, peer: Endpoint)

  datatype Decision = Decision(effect: Effect, replies: seq<Output>)

  function ErrorMessage(env: Env, req: Request, code: ErrorCode, key: Option<AuthKey>, unixNow: int): Message {
    var challenge :=
      if code == Unauthenticated || code == StaleNonce then Some(Nonces.Generate(env.hmac, 0, unixNow)) else None;
    Message(ErrorResponse, req.operation, req.transactionId, ErrorBody(code, challenge), key)
  }

  function ErrorReplies(
    env: Env, f: FiveTuple, req: Request, o: Oracle, code: ErrorCode, key: Option<AuthKey>): seq<Output>
  {
    if !o.builderValid then []
    else [ToClient(Encode(env.codec, ErrorMessage(env, req, code, key, o.unixNow)), f.ClientEndpoint())]
  }

  function Reject(
    env: Env, f: FiveTuple, req: Request, o: Oracle, code: ErrorCode, key: Option<AuthKey>): Decision
  {
    Decision(NoEffect, ErrorReplies(env, f, req, o, code, key))
  }

  function Success(req: Request, body: Body, key: AuthKey): Message {
    Message(SuccessResponse, req.operation, req.transactionId, body, Some(key))
  }

  // Only a positive request above the default, capped by the maximum, changes the default.
  function ComputeLifetime(env: Env, requested: Option<nat>): int {
    if requested.Some? && requested.value > 0 then
      var computed := Min(requested.value, env.maxAllocationLifetime);
      if computed > env.allocationLifetime then computed else env.allocationLifetime
    else env.allocationLifetime
  }

  function SupportsFamily(env: Env, family: Family): bool {
    match family
    case IPv4 => env.relayIsV4
    case IPv6 => !env.relayIsV4
    case UnassignedFamily(_) => false
  }

  function ToAddress(p: PeerAddress): Address {
    if p.family == IPv4 then V4(p.octets) else V6(p.octets)
  }

  // What an Allocate request asks for, judged by its attributes alone and in order.
  datatype Plan =
    | Refuse(code: ErrorCode)
    | FromReservation(token: Token)
    | FromPool(policy: PortPolicy, additionalFamilyRefused: bool)

  function PolicyOf(req: Request): PortPolicy {
    match req.evenPort
    case None => AnyPort
    case Some(reserve) => if reserve then EvenAndReserveNext else EvenPort
  }

  function PlanAllocation(env: Env, req: Request): Plan {
    if req.transport.None? then Refuse(BadRequest)
    else if req.transport.value != UDP_TRANSPORT then Refuse(UnsupportedTransport)
    else if req.dontFragment then Refuse(UnknownAttribute)
    else if req.reservationToken.Some? then
      if req.evenPort.Some? || req.requestedFamily.Some? || req.additionalFamily.Some? then Refuse(BadRequest)
      else FromReservation(req.reservationToken.value)
    else if req.requestedFamily.Some? && req.additionalFamily.Some? then Refuse(BadRequest)
    else if !SupportsFamily(env, if req.requestedFamily.Some? then req.requestedFamily.value else IPv4) then
      Refuse(AddressFamilyNotSupported)
    else if PolicyOf(req) == EvenAndReserveNext && req.additionalFamily.Some? then Refuse(BadRequest)
    else if req.additionalFamily == Some(IPv4) then Refuse(BadRequest)
    else FromPool(PolicyOf(req), req.additionalFamily.Some?)
  }

  function AllocateSuccess(
    env: Env, f: FiveTuple, req: Request, key: AuthKey, port: nat, lifetime: int,
    additionalFamilyRefused: bool, token: Option<Token>): seq<Byte>
  {
    Encode(env.codec,
           Success(req, AllocateBody(port, lifetime, f.ClientEndpoint(), additionalFamilyRefused, token), key))
  }

  function DecideNewAllocation(env: Env, s: State, f: FiveTuple, req: Request, o: Oracle, key: AuthKey): Decision
    requires ValidEnv(env)
  {
    var lifetime := ComputeLifetime(env, req.lifetime);
    match PlanAllocation(env, req)
    case Refuse(code) => Reject(env, f, req, o, code, Some(key))
    case FromReservation(token) =>
      if token !in s.reservations then Reject(env, f, req, o, InsufficientCapacity, Some(key))
      else
        var success := AllocateSuccess(env, f, req, key, s.reservations[token], lifetime, false, None);
        Decision(Claimed(token, lifetime, success), [ToClient(success, f.ClientEndpoint())])
    case FromPool(policy, refused) =>
      AlwaysDrawable(env.ports, policy);
      match Generate(env.ports, policy, s.bound, o.draws)
      case None => Reject(env, f, req, o, InsufficientCapacity, Some(key))
      case Some(relay) =>
        var token := if relay.secondary.Some? then Some(o.token) else None;
        var success := AllocateSuccess(env, f, req, key, relay.primary, lifetime, refused, token);
        Decision(Allocated(relay, o.token, lifetime, success), [ToClient(success, f.ClientEndpoint())])
  }

  function DecideAllocate(env: Env, s: State, f: FiveTuple, req: Request, o: Oracle, key: AuthKey): Decision
    requires ValidEnv(env)
  {
    match FindAllocation(s, f)
    case None => DecideNewAllocation(env, s, f, req, o, key)
    case Some(id) =>
      var stored := s.allocations[id].success;
      if |stored| < HEADER_SIZE then Decision(NoEffect, [Terminated])
      else if TransactionIdOf(stored) == req.transactionId then
        Decision(NoEffect, [ToClient(stored, f.ClientEndpoint())])
      else Reject(env, f, req, o, AllocationMismatch, Some(key))
  }

  function Accept(env: Env, f: FiveTuple, req: Request, effect: Effect, body: Body, key: AuthKey): Decision {
    Decision(effect, [ToClient(Encode(env.codec, Success(req, body, key)), f.ClientEndpoint())])
  }

  // The family check is as the code has it: a supported family is what it rejects.
  function DecideRefresh(env: Env, s: State, f: FiveTuple, req: Request, o: Oracle, key: AuthKey): Decision {
    if FindAllocation(s, f).None? then Reject(env, f, req, o, AllocationMismatch, Some(key))
    else if req.requestedFamily.Some? && SupportsFamily(env, req.requestedFamily.value) then
      Reject(env, f, req, o, AddressFamilyNotSupported, Some(key))
    else
      var lifetime := ComputeLifetime(env, req.lifetime);
      Accept(env, f, req, Refreshed(lifetime), RefreshBody(lifetime), key)
  }

  // The addresses before the first one of an unsupported family.
  function SupportedPrefix(env: Env, peers: seq<PeerAddress>): seq<Address> {
    if peers == [] || !SupportsFamily(env, peers[0].family) then []
    else [ToAddress(peers[0])] + SupportedPrefix(env, peers[1..])
  }

  function DecidePermission(env: Env, s: State, f: FiveTuple, req: Request, o: Oracle, key: AuthKey): Decision {
    if FindAllocation(s, f).None? then Reject(env, f, req, o, AllocationMismatch, Some(key))
    else if req.peers == [] then Reject(env, f, req, o, BadRequest, None)
    else
      var addresses := SupportedPrefix(env, req.peers);
      if |addresses| < |req.peers| then Decision(Permitted(addresses), ErrorReplies(env, f, req, o, BadRequest, None))
      else Accept(env, f, req, Permitted(addresses), EmptyBody, key)
  }

  function DecideChannelBind(env: Env, s: State, f: FiveTuple, req: Request, o: Oracle, key: AuthKey): Decision {
    match FindAllocation(s, f)
    case None => Reject(env, f, req, o, AllocationMismatch, Some(key))
    case Some(id) =>
      if req.channelNumber.None? then Reject(env, f, req, o, BadRequest, None)
      else if req.peers == [] then Reject(env, f, req, o, BadRequest, None)
      else if !SupportsFamily(env, req.peers[0].family) then
        Reject(env, f, req, o, AddressFamilyNotSupported, Some(key))
      else
        var peer := Endpoint(ToAddress(req.peers[0]), req.peers[0].port, UDP);
        if !Channels.Accepts(s.allocations[id].channels, req.channelNumber.value, peer) then
          Reject(env, f, req, o, BadRequest, Some(key))
        else Accept(env, f, req, ChannelBound(req.channelNumber.value, peer), EmptyBody, key)
  }

  function DecideBinding(env: Env, f: FiveTuple, req: Request): Decision {
    Decision(NoEffect, [
      ToClient(
        Encode(env.codec,
               Message(SuccessResponse, BINDING, req.transactionId, BindingBody(f.ClientEndpoint()), None)),
        f.ClientEndpoint())])
  }

  predicate NeedsAuthentication(operation: Method) {
    operation in {ALLOCATE, REFRESH, CREATE_PERMISSION, CHANNEL_BIND}
  }

  function Decide(env: Env, s: State, f: FiveTuple, req: Request, o: Oracle): Decision
    requires ValidEnv(env)
  {
    if req.operation == BINDING then DecideBinding(env, f, req)
    else if !NeedsAuthentication(req.operation) then Reject(env, f, req, o, BadRequest, None)
    else
      match Authenticate(env, req, o.unixNow)
      case Refused(code, key) => Reject(env, f, req, o, code, key)
      case Granted(key) =>
        if req.operation == ALLOCATE then DecideAllocate(env, s, f, req, o, key)
        else if req.operation == REFRESH then DecideRefresh(env, s, f, req, o, key)
        else if req.operation == CREATE_PERMISSION then DecidePermission(env, s, f, req, o, key)
        else DecideChannelBind(env, s, f, req, o, key)
  }

  // ---------------------------------------------------------------- effects

  // The sockets of a relay become bound; a second one is reserved.
  function Hold(s: State, relay: Relay, token: Token): State {
    s.(bound := s.bound + SocketsOf(relay),
       reservations := if relay.secondary.Some? then s.reservations[token := relay.secondary.value] else s.reservations)
  }

  // A new allocation object enters the session map and its timer is started.
  function Admit(s: State, f: FiveTuple, port: nat, lifetime: int, success: seq<Byte>): State {
    s.(sessions := Insert(s.sessions, f, (), After(s.now, lifetime)),
       allocations := s.allocations[s.sessions.pending.next := Allocation(f, port, success, Empty(), Empty())])
  }

  function AddAll(t: Permissions.PermissionTable, addresses: seq<Address>, expiry: int): Permissions.PermissionTable {
    if addresses == [] then t
    else Permissions.Add(AddAll(t, addresses[..|addresses|-1], expiry), addresses[|addresses|-1], expiry)
  }

  function Permit(env: Env, now: int, a: Allocation, addresses: seq<Address>): Allocation {
    a.(permissions := AddAll(a.permissions, addresses, After(now, env.permissionLifetime)))
  }

  // addChannel installs or refreshes the channel and then the permission of its peer.
  function Bind(env: Env, now: int, a: Allocation, number: nat, peer: Endpoint): Allocation {
    a.(channels := Channels.Add(a.channels, number, peer, After(now, env.channelLifetime)),
       permissions := Permissions.Add(a.permissions, peer.address, After(now, env.permissionLifetime)))
  }

  function Apply(env: Env, s: State, f: FiveTuple, effect: Effect): State {
    match effect
    case NoEffect => s
    case Allocated(relay, token, lifetime, success) =>
      Admit(Hold(s, relay, token), f, relay.primary, lifetime, success)
    case Claimed(token, lifetime, success) =>
      if token in s.reservations then
        Admit(s.(reservations := s.reservations - {token}), f, s.reservations[token], lifetime, success)
      else s
    case Refreshed(lifetime) =>
      if FindAllocation(s, f).Some? then s.(sessions := Rearm(s.sessions, f, After(s.now, lifetime))) else s
    case Permitted(addresses) =>
      (match FindAllocation(s, f)
       case None => s
       case Some(id) => s.(allocations := s.allocations[id := Permit(env, s.now, s.allocations[id], addresses)]))
    case ChannelBound(number, peer) =>
      (match FindAllocation(s, f)
       case None => s
       case Some(id) => s.(allocations := s.allocations[id := Bind(env, s.now, s.allocations[id], number, peer)]))
  }

  // ---------------------------------------------------------------- relayed data

  // Send indications look at no permission.
  function RelayToPeer(s: State, f: FiveTuple, packet: Packet): seq<Output> {
    match (FindAllocation(s, f), packet)
    case (Some(id), ChannelData(number, payload, encodes)) =>
      (match Channels.GetEndpoint(s.allocations[id].channels, number)
       case None => []
       case Some(peer) => if encodes then [ToPeer(id, payload, peer)] else [])
    case (Some(id), SendIndication(data, to, encodes)) =>
      if data.None? || to.None? || !encodes then []
      else [ToPeer(id, data.value, Endpoint(ToAddress(to.value), to.value.port, UDP))]
    case _ => []
  }

  // A datagram from a peer arrives on the socket of allocation `id`: the channel is tried first.
  ghost function RelayToClient(s: State, id: nat, peer: Endpoint, payload: seq<Byte>, encodes: bool): seq<Output> {
    if id !in s.allocations then []
    else
      var a := s.allocations[id];
      var client := a.fiveTuple.ClientEndpoint();
      match Channels.ChannelByAddress(a.channels, peer)
      case Some(number) => if encodes then [ChannelDataToClient(number, payload, client)] else []
      case None => if peer.address in a.permissions.entries then [DataToClient(peer, payload, client)] else []
  }

  // ---------------------------------------------------------------- events

  datatype Event =
    | Tick(elapsed: nat)
    | Received(from: FiveTuple, packet: Packet, oracle: Oracle)
    | PeerDatagram(id: nat, peer: Endpoint, payload: seq<Byte>, encodes: bool)
    | SessionFires(wait: nat)
    | SessionHandler(wait: nat)
    | PermissionFires(id: nat, wait: nat)
    | PermissionHandler(id: nat, wait: nat)
    | ChannelFires(id: nat, wait: nat)
    | ChannelHandler(id: nat, wait: nat)
    | ReaderEnds(id: nat)                 // an allocation outside the session map lets its socket go
    | ReservationExpires(token: Token)    // only if something calls expireReservation

  // No entry of the session map points at allocation `id`.
  predicate Orphaned(s: State, id: nat) {
    forall f :: f in s.sessions.entries ==> s.sessions.entries[f].timer != id
  }

  function WithAllocation(s: State, id: nat, a: Allocation): State {
    s.(allocations := s.allocations[id := a])
  }

  // An allocation object goes, and with it its socket and its timer.
  function Release(s: State, id: nat): State
    requires id in s.allocations
  {
    s.(allocations := s.allocations - {id},
       bound := s.bound - {s.allocations[id].port},
       sessions := s.sessions.(pending := CancelTimer(s.sessions.pending, id)))
  }

  function Step(env: Env, s: State, e: Event): State
    requires ValidEnv(env)
  {
    match e
    case Tick(d) => s.(now := s.now + d)
    case Received(f, packet, o) =>
      if packet.StunRequest? then Apply(env, s, f, Decide(env, s, f, packet.request, o).effect) else s
    case PeerDatagram(_, _, _, _) => s
    case SessionFires(i) => s.(sessions := Fire(s.sessions, i, s.now))
    case SessionHandler(i) => s.(sessions := Complete(s.sessions, i, s.now, Shared))
    case PermissionFires(id, i) =>
      if id !in s.allocations then s
      else WithAllocation(s, id, s.allocations[id].(permissions := Fire(s.allocations[id].permissions, i, s.now)))
    case PermissionHandler(id, i) =>
      if id !in s.allocations then s
      else WithAllocation(
          s, id, s.allocations[id].(permissions := Complete(s.allocations[id].permissions, i, s.now, Owned)))
    case ChannelFires(id, i) =>
      if id !in s.allocations then s
      else WithAllocation(s, id, s.allocations[id].(channels := Fire(s.allocations[id].channels, i, s.now)))
    case ChannelHandler(id, i) =>
      if id !in s.allocations then s
      else WithAllocation(s, id, s.allocations[id].(channels := Complete(s.allocations[id].channels, i, s.now, Owned)))
    case ReaderEnds(id) =>
      if id !in s.allocations || !Orphaned(s, id) then s
      else Release(s, id)
    case ReservationExpires(token) =>
      if token !in s.reservations then s
      else s.(reservations := s.reservations - {token}, bound := s.bound - {s.reservations[token]})
  }

  ghost function Outputs(env: Env, s: State, e: Event): seq<Output>
    requires ValidEnv(env)
  {
    match e
    case Received(f, packet, o) =>
      if packet.StunRequest? then Decide(env, s, f, packet.request, o).replies else RelayToPeer(s, f, packet)
    case PeerDatagram(id, peer, payload, encodes) => RelayToClient(s, id, peer, payload, encodes)
    case _ => []
  }

  // The token loop only ends with a token that is not outstanding.
  ghost predicate Legal(s: State, e: Event) {
    e.Received? ==> e.oracle.token !in s.reservations
  }

  function Run(env: Env, start: int, es: seq<Event>): State
    requires ValidEnv(env)
  {
    if es == [] then Init(start) else Step(env, Run(env, start, es[..|es|-1]), es[|es|-1])
  }

  ghost predicate IsRun(env: Env, start: int, es: seq<Event>)
    requires ValidEnv(env)
  {
    es != [] ==> IsRun(env, start, es[..|es|-1]) && Legal(Run(env, start, es[..|es|-1]), es[|es|-1])
  }
}
