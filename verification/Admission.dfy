/** When requests succeed: for each kind of request that changes something, exactly the conditions
    under which it does, and which error a refused Allocate gets. */
module Admission {
  import opened Common
  import opened Stun
  import opened Timers
  import opened RelayPorts
  import opened Server
  import opened ServerInvariant
  import opened Replies
  import Channels

  // ---------------------------------------------------------------- Allocate

  ghost predicate UdpWithoutDontFragment(req: Request) {
    req.transport == Some(17) && !req.dontFragment
  }

  // Asks for a reserved port, and for nothing that a reserved port cannot give.
  ghost predicate AsksForReserved(req: Request) {
    && UdpWithoutDontFragment(req)
    && req.reservationToken.Some?
    && req.evenPort.None? && req.requestedFamily.None? && req.additionalFamily.None?
  }

  // The family the relayed address is to have: IPv4 unless the client says otherwise.
  ghost predicate FamilyIsServed(env: Env, req: Request) {
    if env.relayIsV4 then req.requestedFamily in {None, Some(IPv4)} else req.requestedFamily == Some(IPv6)
  }

  // Asks for a new port in a way the server can serve.
  ghost predicate AsksForNew(env: Env, req: Request) {
    && UdpWithoutDontFragment(req)
    && req.reservationToken.None?
    && FamilyIsServed(env, req)
    && (req.additionalFamily.Some? ==>
          && req.requestedFamily.None? && req.additionalFamily != Some(IPv4) && req.evenPort != Some(true))
  }

  /** The attribute checks, taken together: what passes them, and which error the rest gets. */
  lemma PlanIsExact(env: Env, req: Request)
    ensures var plan := PlanAllocation(env, req);
            && (plan.FromReservation? <==> AsksForReserved(req))
            && (plan.FromReservation? ==> plan.token == req.reservationToken.value)
            && (plan.FromPool? <==> AsksForNew(env, req))
            && (plan.FromPool? ==>
                  && (RequireEven(plan.policy) <==> req.evenPort.Some?)
                  && (ReserveNext(plan.policy) <==> req.evenPort == Some(true))
                  && plan.additionalFamilyRefused == req.additionalFamily.Some?)
            && (plan == Refuse(UnsupportedTransport) <==> req.transport.Some? && req.transport != Some(17))
            && (plan == Refuse(UnknownAttribute) <==> req.transport == Some(17) && req.dontFragment)
            && (plan == Refuse(AddressFamilyNotSupported) <==>
                  && UdpWithoutDontFragment(req) && req.reservationToken.None?
                  && !FamilyIsServed(env, req)
                  && !(req.requestedFamily.Some? && req.additionalFamily.Some?))
            && (plan.Refuse? ==>
                  plan.code in {BadRequest, UnsupportedTransport, UnknownAttribute, AddressFamilyNotSupported})
  {
  }

  // Some attempt finds what the policy needs.
  ghost predicate SomeDrawSucceeds(env: Env, s: State, policy: PortPolicy, o: Oracle)
    requires Drawable(env.ports, policy)
  {
    exists i :: 0 <= i < 210 && Succeeds(env.ports, policy, s.bound, o.draws(i))
  }

  lemma PoolServes(env: Env, s: State, policy: PortPolicy, o: Oracle)
    requires Drawable(env.ports, policy)
    ensures Generate(env.ports, policy, s.bound, o.draws).Some? <==> SomeDrawSucceeds(env, s, policy, o)
  {
    GenerateFromFirst(env.ports, policy, s.bound, o.draws, 0);
  }

  /** An Allocate request creates an allocation exactly when it is authentic, its five-tuple has
      none, and it either names an outstanding reservation or asks for a port that one of the
      attempts finds. */
  lemma AllocateSucceedsIff(env: Env, s: State, f: FiveTuple, req: Request, o: Oracle)
    requires ValidEnv(env) && req.operation == ALLOCATE
    ensures Drawable(env.ports, PolicyOf(req))
    ensures var effect := Decide(env, s, f, req, o).effect;
            effect != NoEffect <==>
              && Authenticate(env, req, o.unixNow).Granted?
              && FindAllocation(s, f).None?
              && (|| (AsksForReserved(req) && req.reservationToken.value in s.reservations)
                  || (AsksForNew(env, req) && SomeDrawSucceeds(env, s, PolicyOf(req), o)))
    ensures var effect := Decide(env, s, f, req, o).effect;
            || effect == NoEffect
            || (effect.Claimed? && AsksForReserved(req))
            || (effect.Allocated? && AsksForNew(env, req))
  {
    AlwaysDrawable(env.ports, PolicyOf(req));
    PoolServes(env, s, PolicyOf(req), o);
    PlanIsExact(env, req);
  }

  function WithDraws(o: Oracle, draws: nat -> Draw): Oracle {
    o.(draws := draws)
  }

  // The request gets a new allocation on `port`.
  ghost predicate Gets(env: Env, s: State, f: FiveTuple, req: Request, o: Oracle, port: nat)
    requires ValidEnv(env)
  {
    var effect := Decide(env, s, f, req, o).effect;
    effect.Allocated? && effect.relay.primary == port
  }

  lemma GetsIff(env: Env, s: State, f: FiveTuple, req: Request, o: Oracle, port: nat)
    requires ValidEnv(env) && req.operation == ALLOCATE && AsksForNew(env, req) && FindAllocation(s, f).None?
    requires Authenticate(env, req, o.unixNow).Granted?
    ensures Drawable(env.ports, PolicyOf(req))
    ensures Gets(env, s, f, req, o, port) <==>
            Generate(env.ports, PolicyOf(req), s.bound, o.draws) == Some(RelayOn(PolicyOf(req), port))
  {
    PoolDecides(env, s, f, req, o);
    AlwaysDrawable(env.ports, PolicyOf(req));
    GeneratedOn(env.ports, PolicyOf(req), s.bound, o.draws);
  }

  /** A proper request for a new port can get, for some draws, exactly the free ports of the range: any
      without EVEN-PORT, an even one with it, and one that is followed by a free port of the range if
      that is to be reserved. */
  lemma AllocateCanGetIff(env: Env, s: State, f: FiveTuple, req: Request, o: Oracle, port: nat)
    requires ValidEnv(env) && req.operation == ALLOCATE && AsksForNew(env, req) && FindAllocation(s, f).None?
    requires Authenticate(env, req, o.unixNow).Granted?
    ensures (exists draws: nat -> Draw :: Gets(env, s, f, req, WithDraws(o, draws), port)) <==>
              && env.ports.min <= port <= env.ports.max && port !in s.bound
              && (req.evenPort.Some? ==> port % 2 == 0)
              && (req.evenPort == Some(true) ==> port + 1 <= env.ports.max && port + 1 !in s.bound)
  {
    var policy := PolicyOf(req);
    AlwaysDrawable(env.ports, policy);
    PortsToBeHad(env.ports, policy, s.bound, port);
    if draws: nat -> Draw :| Gets(env, s, f, req, WithDraws(o, draws), port) {
      GetsIff(env, s, f, req, WithDraws(o, draws), port);
    }
    if Suitable(env.ports, policy, s.bound, port) {
      var draws: nat -> Draw :| Generate(env.ports, policy, s.bound, draws) == Some(RelayOn(policy, port));
      GetsIff(env, s, f, req, WithDraws(o, draws), port);
    }
  }

  lemma PoolDecides(env: Env, s: State, f: FiveTuple, req: Request, o: Oracle)
    requires ValidEnv(env) && req.operation == ALLOCATE && AsksForNew(env, req) && FindAllocation(s, f).None?
    requires Authenticate(env, req, o.unixNow).Granted?
    ensures Drawable(env.ports, PolicyOf(req))
    ensures var effect := Decide(env, s, f, req, o).effect;
            match Generate(env.ports, PolicyOf(req), s.bound, o.draws)
            case None => effect == NoEffect
            case Some(relay) => effect.Allocated? && effect.relay == relay
  {
    PlanIsExact(env, req);
    AlwaysDrawable(env.ports, PolicyOf(req));
  }

  /** With every port of the range taken, no new port is handed out; a reservation still is. */
  lemma FullPoolOnlyServesReservations(env: Env, s: State, f: FiveTuple, req: Request, o: Oracle)
    requires ValidEnv(env) && req.operation == ALLOCATE && o.token !in s.reservations
    requires forall p :: env.ports.min <= p <= env.ports.max ==> p in s.bound
    ensures !Decide(env, s, f, req, o).effect.Allocated?
  {
    DecideIsSound(env, s, f, req, o);
  }

  // The token a client gets: with a pair of ports, and only then.
  function TokenFor(req: Request, o: Oracle): Option<Token> {
    if req.evenPort == Some(true) then Some(o.token) else None
  }

  // What a new allocation on `port` is announced with.
  function Announcement(env: Env, f: FiveTuple, req: Request, key: AuthKey, port: nat, o: Oracle): seq<Byte> {
    var body := AllocateBody(
      port, ComputeLifetime(env, req.lifetime), Endpoint(f.clientAddress, f.clientPort, f.protocol),
      req.additionalFamily.Some?, TokenFor(req, o));
    Encode(env.codec, Message(SuccessResponse, ALLOCATE, req.transactionId, body, Some(key)))
  }

  // What a decision to allocate consists of.
  ghost predicate Announces(env: Env, s: State, f: FiveTuple, req: Request, o: Oracle, key: AuthKey, d: Decision) {
    match d.effect
    case Allocated(relay, token, lifetime, success) =>
      && token == o.token && lifetime == ComputeLifetime(env, req.lifetime)
      && relay.secondary == (if TokenFor(req, o).Some? then Some(relay.primary + 1) else None)
      && success == Announcement(env, f, req, key, relay.primary, o)
      && d.replies == [ToClient(success, f.ClientEndpoint())]
    case Claimed(token, lifetime, success) =>
      && req.reservationToken == Some(token) && token in s.reservations
      && TokenFor(req, o).None? && lifetime == ComputeLifetime(env, req.lifetime)
      && success == Announcement(env, f, req, key, s.reservations[token], o)
      && d.replies == [ToClient(success, f.ClientEndpoint())]
    case _ => true
  }

  lemma PairAsAsked(env: Env, s: State, policy: PortPolicy, o: Oracle)
    requires ValidEnv(env)
    ensures Drawable(env.ports, policy)
    ensures match Generate(env.ports, policy, s.bound, o.draws)
            case None => true
            case Some(relay) => relay.secondary == if ReserveNext(policy) then Some(relay.primary + 1) else None
  {
    AlwaysDrawable(env.ports, policy);
    GeneratedFits(env.ports, policy, s.bound, o.draws);
  }

  lemma NewAllocationAnnounces(env: Env, s: State, f: FiveTuple, req: Request, o: Oracle, key: AuthKey)
    requires ValidEnv(env) && req.operation == ALLOCATE
    ensures Announces(env, s, f, req, o, key, DecideNewAllocation(env, s, f, req, o, key))
  {
    PlanIsExact(env, req);
    match PlanAllocation(env, req)
    case Refuse(_) =>
    case FromReservation(_) =>
    case FromPool(policy, _) =>
      PairAsAsked(env, s, policy, o);
  }

  lemma AllocateAnnounces(env: Env, s: State, f: FiveTuple, req: Request, o: Oracle)
    requires ValidEnv(env) && req.operation == ALLOCATE && Authenticate(env, req, o.unixNow).Granted?
    ensures Announces(env, s, f, req, o, Authenticate(env, req, o.unixNow).key, Decide(env, s, f, req, o))
  {
    NewAllocationAnnounces(env, s, f, req, o, Authenticate(env, req, o.unixNow).key);
  }

  // What the state then holds for the client.
  ghost predicate HoldsAnnounced(env: Env, s: State, f: FiveTuple, req: Request, o: Oracle, key: AuthKey, u: State) {
    && f in u.sessions.entries
    && u.sessions.entries[f].expiry == After(s.now, ComputeLifetime(env, req.lifetime))
    && var id := u.sessions.entries[f].timer;
       id in u.allocations
       && var a := u.allocations[id];
          && a == Allocation(f, a.port, Announcement(env, f, req, key, a.port, o), Empty(), Empty())
          && (TokenFor(req, o).Some? ==> o.token in u.reservations && u.reservations[o.token] == a.port + 1)
          && (req.reservationToken.Some? ==>
                && req.reservationToken.value in s.reservations && req.reservationToken.value !in u.reservations
                && a.port == s.reservations[req.reservationToken.value])
  }

  lemma ApplyHoldsAnnounced(env: Env, s: State, f: FiveTuple, req: Request, o: Oracle, key: AuthKey, d: Decision)
    requires Announces(env, s, f, req, o, key, d) && (d.effect.Claimed? || d.effect.Allocated?)
    requires d.effect.Allocated? ==> req.reservationToken.None?
    ensures HoldsAnnounced(env, s, f, req, o, key, Apply(env, s, f, d.effect))
  {
  }

  /** The reply to an Allocate that creates an allocation describes the state it leaves: the client's
      own address, the port and lifetime of the new allocation, which has no permissions or channels
      yet and keeps the reply; a token exactly when a pair of ports was asked for, outstanding and
      standing for the next port; and a claimed port is the reserved one, its token gone. */
  lemma AllocateReplyDescribesState(env: Env, s: State, f: FiveTuple, req: Request, o: Oracle)
    requires ValidEnv(env) && req.operation == ALLOCATE && Decide(env, s, f, req, o).effect != NoEffect
    ensures Authenticate(env, req, o.unixNow).Granted?
    ensures var key := Authenticate(env, req, o.unixNow).key;
            var u := Step(env, s, Received(f, StunRequest(req), o));
            && HoldsAnnounced(env, s, f, req, o, key, u)
            && var port := u.allocations[u.sessions.entries[f].timer].port;
               Decide(env, s, f, req, o).replies ==
               [ToClient(Announcement(env, f, req, key, port, o), f.ClientEndpoint())]
  {
    AllocateSucceedsIff(env, s, f, req, o);
    AllocateAnnounces(env, s, f, req, o);
    ApplyHoldsAnnounced(env, s, f, req, o, Authenticate(env, req, o.unixNow).key, Decide(env, s, f, req, o));
  }

  // ---------------------------------------------------------------- the other requests

  /** A Refresh extends its allocation exactly when it is authentic, there is an allocation, and the
      requested family, if any, is one that the server does not relay. */
  lemma RefreshSucceedsIff(env: Env, s: State, f: FiveTuple, req: Request, o: Oracle)
    requires ValidEnv(env) && req.operation == REFRESH
    ensures Decide(env, s, f, req, o).effect != NoEffect <==>
              && Authenticate(env, req, o.unixNow).Granted?
              && FindAllocation(s, f).Some?
              && req.requestedFamily != Some(if env.relayIsV4 then IPv4 else IPv6)
    ensures Decide(env, s, f, req, o).effect in {NoEffect, Refreshed(ComputeLifetime(env, req.lifetime))}
  {
  }

  // The endpoint of a peer of the family that is relayed.
  function RelayedEndpoint(env: Env, p: PeerAddress): Endpoint {
    Endpoint(if env.relayIsV4 then V4(p.octets) else V6(p.octets), p.port, UDP)
  }

  /** A ChannelBind takes effect exactly when it is authentic, there is an allocation, number and
      peer are given, the first peer's family is relayed, and in that allocation the number and the
      peer are either bound to each other or both unbound. */
  lemma ChannelBindSucceedsIff(env: Env, s: State, f: FiveTuple, req: Request, o: Oracle)
    requires ValidEnv(env) && req.operation == CHANNEL_BIND
    ensures Decide(env, s, f, req, o).effect != NoEffect <==>
              && Authenticate(env, req, o.unixNow).Granted?
              && FindAllocation(s, f).Some?
              && req.channelNumber.Some? && req.peers != []
              && req.peers[0].family == (if env.relayIsV4 then IPv4 else IPv6)
              && var t := s.allocations[FindAllocation(s, f).value].channels;
                 var number := req.channelNumber.value;
                 var peer := RelayedEndpoint(env, req.peers[0]);
                 || Channels.Bound(t, number, peer)
                 || (number !in t.entries && forall n :: !Channels.Bound(t, n, peer))
    ensures Decide(env, s, f, req, o).effect != NoEffect ==>
              Decide(env, s, f, req, o).effect ==
              ChannelBound(req.channelNumber.value, RelayedEndpoint(env, req.peers[0]))
  {
    if FindAllocation(s, f).Some? && req.channelNumber.Some? && req.peers != [] {
      AcceptsIff(s.allocations[FindAllocation(s, f).value].channels, req.channelNumber.value,
                 Endpoint(ToAddress(req.peers[0]), req.peers[0].port, UDP));
    }
  }

  lemma AcceptsIff(t: Channels.ChannelTable, number: nat, peer: Endpoint)
    ensures Channels.Accepts(t, number, peer) <==>
              || Channels.Bound(t, number, peer)
              || (number !in t.entries && forall n :: !Channels.Bound(t, n, peer))
  {
    if !Channels.Accepts(t, number, peer) && number !in t.entries {
      var n :| n in t.entries && t.entries[n].value == peer;
      assert Channels.Bound(t, n, peer);
    }
  }

  /** A CreatePermission takes effect as a whole exactly when it is authentic, there is an
      allocation, and it names peers all of whose families are relayed. */
  lemma CreatePermissionSucceedsIff(env: Env, s: State, f: FiveTuple, req: Request, o: Oracle)
    requires ValidEnv(env) && req.operation == CREATE_PERMISSION
    ensures var effect := Decide(env, s, f, req, o).effect;
            effect.Permitted? && |effect.addresses| == |req.peers| <==>
              && Authenticate(env, req, o.unixNow).Granted?
              && FindAllocation(s, f).Some?
              && req.peers != []
              && forall i :: 0 <= i < |req.peers| ==> SupportsFamily(env, req.peers[i].family)
  {
    PrefixStopsAtUnsupported(env, req.peers);
  }
}
