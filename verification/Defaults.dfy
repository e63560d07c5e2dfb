/** Concrete histories under the default configuration: one client, one allocation, one channel. */
module Defaults {
  import opened Common
  import opened Stun
  import opened Timers
  import opened RelayPorts
  import opened Server
  import opened ServerInvariant
  import opened Sessions
  import opened Relaying
  import opened Orphans
  import Channels
  import Nonces

  const ZERO_HMAC: Nonces.Hmac := _ => seq(32, _ => 0)
  const EXPIRES := 2_000_000_000
  const NONCE := Nonces.Generate(ZERO_HMAC, EXPIRES, 0)
  const CLIENT := FiveTuple(V4([192, 0, 2, 1]), 40000, V4([127, 0, 0, 1]), 3478, UDP)
  const PEER := PeerAddress(IPv4, [192, 0, 2, 2], 50000)
  const PEER_ENDPOINT := Endpoint(V4([192, 0, 2, 2]), 50000, UDP)
  const NUMBER := 0x4000

  // The default lifetimes and port range, with one user and an integrity check that accepts.
  const ENV := Env(
    "example.com", map["user" := "password"], 600, 3600, 600, 300, 300, true, PortRange(49152, 65535),
    (_: string, _: string, _: string) => [], (_: string, _: string, _: string) => [],
    (_: Request, _: AuthKey) => true, ZERO_HMAC, (_: Message) => [])

  const ORACLE := Oracle(EXPIRES - 600, (_: nat) => Draw(0, true, true, true, true, 1), [], true)

  function Ask(operation: Method, transport: Option<nat>, number: Option<nat>, peers: seq<PeerAddress>): Request {
    Request(operation, seq(12, _ => 0), Some([]), None, Some("user"), Some("example.com"), Some(NONCE), None, None,
            transport, false, None, None, None, None, None, number, peers)
  }

  const ALLOCATES := Received(CLIENT, StunRequest(Ask(ALLOCATE, Some(UDP_TRANSPORT), None, [])), ORACLE)
  const BINDS := Received(CLIENT, StunRequest(Ask(CHANNEL_BIND, None, Some(NUMBER), [PEER])), ORACLE)

  lemma EnvIsValid()
    ensures ValidEnv(ENV)
  {
  }

  // A signed request without password algorithms is authentic under the MD5 key.
  lemma SignedIsGranted(env: Env, req: Request, unixNow: int)
    requires req.integritySha1.Some? && req.integritySha256.None?
    requires req.username.Some? && req.username.value in env.users && req.realm == Some(env.realm)
    requires req.nonce.Some? && Nonces.Validate(env.hmac, req.nonce.value, unixNow)
    requires req.passwordAlgorithm.None? && req.passwordAlgorithms.None?
    requires env.integrityHolds(req, DeriveKey(env, MD5, req.username.value, env.realm, env.users[req.username.value]))
    ensures Authenticate(env, req, unixNow).Granted?
  {
  }

  lemma NonceIsValid()
    ensures Nonces.Validate(ENV.hmac, NONCE, ORACLE.unixNow)
  {
    Nonces.RoundTripExact(ZERO_HMAC, EXPIRES, 0, ORACLE.unixNow);
  }

  lemma RequestsAreAuthentic(req: Request)
    requires req == Ask(req.operation, req.transport, req.channelNumber, req.peers)
    ensures Authenticate(ENV, req, ORACLE.unixNow).Granted?
  {
    NonceIsValid();
    SignedIsGranted(ENV, req, ORACLE.unixNow);
  }

  // The first allocation of a run, when its first draw succeeds.
  lemma FirstAllocation(env: Env, start: int, f: FiveTuple, req: Request, o: Oracle)
    requires ValidEnv(env) && Authenticate(env, req, o.unixNow).Granted? && req.operation == ALLOCATE
    requires PlanAllocation(env, req) == FromPool(AnyPort, false)
    requires Drawable(env.ports, AnyPort) && Succeeds(env.ports, AnyPort, {}, o.draws(0))
    ensures var s := Step(env, Init(start), Received(f, StunRequest(req), o));
            && FindAllocation(s, f) == Some(0)
            && s.allocations[0].channels.entries == map[] && s.allocations[0].permissions.entries == map[]
            && s.allocations[0].port in s.bound && s.reservations == map[]
            && s.now == start && s.sessions == Insert(Empty(), f, (), After(start, ComputeLifetime(env, req.lifetime)))
  {
  }

  lemma AllocationIsMade()
    requires ValidEnv(ENV)
    ensures var s := Step(ENV, Init(0), ALLOCATES);
            && FindAllocation(s, CLIENT) == Some(0)
            && s.allocations[0].channels.entries == map[] && s.allocations[0].permissions.entries == map[]
            && s.allocations[0].port in s.bound && s.reservations == map[]
            && s.now == 0 && s.sessions == Insert(Empty(), CLIENT, (), After(0, 600))
  {
    RequestsAreAuthentic(ALLOCATES.packet.request);
    AlwaysDrawable(ENV.ports, AnyPort);
    FirstAllocation(ENV, 0, CLIENT, ALLOCATES.packet.request, ORACLE);
  }

  // An authentic, well-formed ChannelBind on an allocation without channels is accepted.
  lemma FirstBindSucceeds(env: Env, s: State, f: FiveTuple, req: Request, o: Oracle, id: nat)
    requires ValidEnv(env) && Authenticate(env, req, o.unixNow).Granted? && req.operation == CHANNEL_BIND
    requires FindAllocation(s, f) == Some(id) && s.allocations[id].channels.entries == map[]
    requires req.channelNumber.Some? && req.peers != [] && SupportsFamily(env, req.peers[0].family)
    ensures BindsChannel(env, s, Received(f, StunRequest(req), o), id, req.channelNumber.value) ==
            Some(Endpoint(ToAddress(req.peers[0]), req.peers[0].port, UDP))
  {
  }

  // Two requests and a wait, the second request a bind.
  lemma GapAfter(env: Env, start: int, a: Event, b: Event, id: nat, n: nat, peer: Endpoint)
    requires ValidEnv(env) && 0 <= env.permissionLifetime < env.channelLifetime
    requires Legal(Init(start), a) && Legal(Step(env, Init(start), a), b)
    requires BindsChannel(env, Step(env, Init(start), a), b, id, n) == Some(peer)
    ensures var run := [a, b, Tick(env.permissionLifetime * TICKS_PER_SECOND)];
            var s := Run(env, start, run);
            && IsRun(env, start, run)
            && ChannelOf(s, id, n).Some? && ChannelOf(s, id, n).value.expiry > s.now
            && (PermissionOf(s, id, peer.address).Some? ==> PermissionOf(s, id, peer.address).value.expiry <= s.now)
  {
    var es := [a];
    assert es[..0] == [] && (es + [b])[..1] == es;
    ShortPermissionsLeaveGaps(env, start, es, b, id, n, peer);
    assert es + [b] + [Tick(env.permissionLifetime * TICKS_PER_SECOND)] ==
           [a, b, Tick(env.permissionLifetime * TICKS_PER_SECOND)];
  }

  /** The default lifetimes of 600 s for channels and 300 s for permissions do leave a gap: allocate,
      bind a channel, wait 300 s, and the channel is unexpired while its peer has no unexpired
      permission. */
  lemma DefaultsLeaveAGap()
    ensures ValidEnv(ENV)
    ensures var run := [ALLOCATES, BINDS, Tick(ENV.permissionLifetime * TICKS_PER_SECOND)];
            var s := Run(ENV, 0, run);
            && IsRun(ENV, 0, run)
            && ChannelOf(s, 0, NUMBER).Some? && ChannelOf(s, 0, NUMBER).value.expiry > s.now
            && var permission := PermissionOf(s, 0, V4([192, 0, 2, 2]));
               permission.Some? ==> permission.value.expiry <= s.now
  {
    EnvIsValid();
    AllocationIsMade();
    RequestsAreAuthentic(BINDS.packet.request);
    FirstBindSucceeds(ENV, Step(ENV, Init(0), ALLOCATES), CLIENT, BINDS.packet.request, ORACLE, 0);
    GapAfter(ENV, 0, ALLOCATES, BINDS, 0, NUMBER, PEER_ENDPOINT);
  }

  // ---------------------------------------------------------------- Send without a permission

  /** Right after its Allocate a client that has no permission at all can send to any peer. */
  lemma SendNeedsNoPermission(data: seq<Byte>, to: PeerAddress)
    ensures ValidEnv(ENV) && IsRun(ENV, 0, [ALLOCATES])
    ensures var s := Run(ENV, 0, [ALLOCATES]);
            && FindAllocation(s, CLIENT) == Some(0) && s.allocations[0].permissions.entries == map[]
            && Outputs(ENV, s, Received(CLIENT, SendIndication(Some(data), Some(to), true), ORACLE)) ==
               [ToPeer(0, data, Endpoint(if to.family == IPv4 then V4(to.octets) else V6(to.octets), to.port, UDP))]
  {
    EnvIsValid();
    AllocationIsMade();
    assert [ALLOCATES][..0] == [];
  }

  // ---------------------------------------------------------------- an orphan that relays

  // A bind leaves sessions and sockets alone.
  lemma BindKeeps(env: Env, s: State, e: Event, id: nat, n: nat, peer: Endpoint)
    requires ValidEnv(env) && Legal(s, e) && BindsChannel(env, s, e, id, n) == Some(peer)
    ensures var u := Step(env, s, e);
            && u.sessions == s.sessions && u.bound == s.bound && u.now == s.now
            && id in s.allocations && id in u.allocations && u.allocations[id].port == s.allocations[id].port
            && u.allocations[id].fiveTuple == s.allocations[id].fiveTuple
            && Channels.Bound(u.allocations[id].channels, n, peer)
  {
    DecideIsSound(env, s, e.from, e.packet.request, e.oracle);
  }

  lemma Wait(env: Env, s: State, wait: nat) returns (t: State)
    requires ValidEnv(env)
    ensures t == s.(now := s.now + wait)
    ensures RunFrom(env, s, [Tick(wait)]) == t && IsContinuation(env, s, [Tick(wait)])
  {
    t := s.(now := s.now + wait);
    ContinuationGrows(env, s, [], Tick(wait));
    assert [Tick(wait)] == [] + [Tick(wait)];
  }

  // What the end of its session finds: the session's first wait, the allocation's port, and a channel.
  ghost predicate Awaits(v: State, f: FiveTuple, until: int, id: nat, n: nat, peer: Endpoint) {
    && f in v.sessions.entries && Covers(v.sessions, f, 0) && v.sessions.entries[f].expiry <= until
    && id in v.allocations && v.allocations[id].port in v.bound
    && Channels.Bound(v.allocations[id].channels, n, peer)
  }

  lemma FirstBindAwaits(env: Env, t: State, f: FiveTuple, req: Request, o: Oracle, id: nat, until: int)
    requires ValidEnv(env) && t.reservations == map[]
    requires t.sessions == Insert(Empty(), f, (), until) && FindAllocation(t, f) == Some(id)
    requires t.allocations[id].port in t.bound && t.allocations[id].channels.entries == map[]
    requires Authenticate(env, req, o.unixNow).Granted? && req.operation == CHANNEL_BIND
    requires req.channelNumber.Some? && req.peers != [] && SupportsFamily(env, req.peers[0].family)
    ensures var v := Step(env, t, Received(f, StunRequest(req), o));
            && v.now == t.now
            && Awaits(v, f, until, id, req.channelNumber.value,
                      Endpoint(ToAddress(req.peers[0]), req.peers[0].port, UDP))
  {
    FirstBindSucceeds(env, t, f, req, o, id);
    BindKeeps(env, t, Received(f, StunRequest(req), o), id, req.channelNumber.value,
              Endpoint(ToAddress(req.peers[0]), req.peers[0].port, UDP));
  }

  // Wait, and bind a first channel.
  lemma WaitAndBind(
    env: Env, start: int, es: seq<Event>, s: State, wait: nat,
    f: FiveTuple, req: Request, o: Oracle, id: nat, until: int)
    returns (v: State)
    requires ValidEnv(env) && IsRun(env, start, es) && s == Run(env, start, es)
    requires && s.sessions == Insert(Empty(), f, (), until) && s.reservations == map[]
             && FindAllocation(s, f) == Some(id) && s.allocations[id].port in s.bound
             && s.allocations[id].channels.entries == map[]
    requires Authenticate(env, req, o.unixNow).Granted? && req.operation == CHANNEL_BIND
    requires req.channelNumber.Some? && req.peers != [] && SupportsFamily(env, req.peers[0].family)
    ensures var more := es + [Tick(wait), Received(f, StunRequest(req), o)];
            IsRun(env, start, more) && v == Run(env, start, more) && v.now == s.now + wait
    ensures Awaits(v, f, until, id, req.channelNumber.value,
                   Endpoint(ToAddress(req.peers[0]), req.peers[0].port, UDP))
  {
    var t := Wait(env, s, wait);
    v := Step(env, t, Received(f, StunRequest(req), o));
    FirstBindAwaits(env, t, f, req, o, id, until);
    ContinuationGrows(env, s, [Tick(wait)], Received(f, StunRequest(req), o));
    RunContinues(env, start, es, [Tick(wait)] + [Received(f, StunRequest(req), o)]);
    assert [Tick(wait)] + [Received(f, StunRequest(req), o)] == [Tick(wait), Received(f, StunRequest(req), o)];
  }

  lemma OrphanRelays(
    env: Env, start: int, es: seq<Event>, elapsed: nat, f: FiveTuple, id: nat, n: nat, peer: Endpoint)
    requires ValidEnv(env) && IsRun(env, start, es)
    requires var v := Run(env, start, es); Awaits(v, f, v.now + elapsed, id, n, peer)
    ensures IsRun(env, start, es + Ending(elapsed, 0))
    ensures var u := Run(env, start, es + Ending(elapsed, 0));
            && FindAllocation(u, f) == None && id in u.allocations && u.allocations[id].port in u.bound
            && forall payload ::
                 RelayToClient(u, id, peer, payload, true) ==
                 [ChannelDataToClient(n, payload, u.allocations[id].fiveTuple.ClientEndpoint())]
  {
    var v := Run(env, start, es);
    SessionEnds(env, v, f, elapsed, 0);
    RunContinues(env, start, es, Ending(elapsed, 0));
    ChannelDecides(env, start, es + Ending(elapsed, 0), id, n, peer);
  }

  lemma ChannelDecides(env: Env, start: int, es: seq<Event>, id: nat, n: nat, peer: Endpoint)
    requires ValidEnv(env) && IsRun(env, start, es) && id in Run(env, start, es).allocations
    requires Channels.Bound(Run(env, start, es).allocations[id].channels, n, peer)
    ensures var u := Run(env, start, es);
            forall payload ::
              RelayToClient(u, id, peer, payload, true) ==
              [ChannelDataToClient(n, payload, u.allocations[id].fiveTuple.ClientEndpoint())]
  {
    var u := Run(env, start, es);
    ReachedAllocation(env, start, es, id);
    Channels.LookupsAreInverse(u.allocations[id].channels, u.now, n, peer);
  }

  const TO_BIND := [ALLOCATES] + [Tick(300 * TICKS_PER_SECOND), BINDS]

  lemma DefaultBindAwaits()
    requires ValidEnv(ENV)
    ensures IsRun(ENV, 0, TO_BIND)
    ensures var v := Run(ENV, 0, TO_BIND);
            Awaits(v, CLIENT, v.now + 300 * TICKS_PER_SECOND, 0, NUMBER, PEER_ENDPOINT)
  {
    AllocationIsMade();
    RequestsAreAuthentic(BINDS.packet.request);
    assert [ALLOCATES][..0] == [];
    var v := WaitAndBind(
      ENV, 0, [ALLOCATES], Step(ENV, Init(0), ALLOCATES), 300 * TICKS_PER_SECOND,
      CLIENT, BINDS.packet.request, ORACLE, 0, After(0, 600));
  }

  /** Under the defaults an allocation that has expired can hold its port and relay to its client:
      allocate, bind a channel after 300 s, let the 600 s of the allocation pass and its handler run. */
  lemma ExpiredAllocationStillRelays()
    ensures ValidEnv(ENV)
    ensures var run := TO_BIND + Ending(300 * TICKS_PER_SECOND, 0);
            var u := Run(ENV, 0, run);
            && IsRun(ENV, 0, run)
            && FindAllocation(u, CLIENT) == None && 0 in u.allocations && u.allocations[0].port in u.bound
            && forall payload ::
                 RelayToClient(u, 0, PEER_ENDPOINT, payload, true) ==
                 [ChannelDataToClient(NUMBER, payload, u.allocations[0].fiveTuple.ClientEndpoint())]
  {
    EnvIsValid();
    DefaultBindAwaits();
    OrphanRelays(ENV, 0, TO_BIND, 300 * TICKS_PER_SECOND, CLIENT, 0, NUMBER,
                 PEER_ENDPOINT);
  }
}
