/** The request handlers as early-exit sequences over the allocation manager's objects, each proved
    to take the step that the state machine takes. */
module Processor {
  import opened Common
  import opened Stun
  import opened Timers
  import opened RelayPorts
  import opened Server
  import opened ServerInvariant
  import opened AllocationObjects
  import opened Replies
  import Channels
  import Nonces

  // ---------------------------------------------------------------- the machine's steps, unfolded

  // One handler's step: the effect applied, the replies sent.
  ghost predicate Took(env: Env, was: State, is_: State, sent: seq<Output>, f: FiveTuple, d: Decision) {
    is_ == Apply(env, was, f, d.effect) && sent == d.replies
  }

  // The invariant gives the class invariant's quantifier-free needs.
  lemma NextNumberIsFree(env: Env, s: State)
    requires ServerInv(env, s)
    ensures s.sessions.pending.next !in s.allocations
    ensures CancelTimer(s.sessions.pending, s.sessions.pending.next) == s.sessions.pending
  {
    assert s.sessions.pending.next in s.allocations ==> s.sessions.pending.next in OwnersOf(s);
  }

  lemma RefreshTook(env: Env, s: State, f: FiveTuple, req: Request, o: Oracle, key: AuthKey)
    requires FindAllocation(s, f).Some?
    requires req.requestedFamily.Some? ==> !SupportsFamily(env, req.requestedFamily.value)
    ensures var lifetime := ComputeLifetime(env, req.lifetime);
            Took(env, s, s.(sessions := Rearm(s.sessions, f, After(s.now, lifetime))),
                 [ToClient(Encode(env.codec, Success(req, RefreshBody(lifetime), key)), f.ClientEndpoint())],
                 f, DecideRefresh(env, s, f, req, o, key))
  {
  }

  // A CreatePermission with peers installs a prefix of them, and succeeds if that is all.
  lemma PermitTook(env: Env, s: State, f: FiveTuple, req: Request, o: Oracle, key: AuthKey)
    requires FindAllocation(s, f).Some? && req.peers != []
    ensures var addresses := SupportedPrefix(env, req.peers);
            Took(env, s, Apply(env, s, f, Permitted(addresses)),
                 if |addresses| == |req.peers|
                 then [ToClient(Encode(env.codec, Success(req, EmptyBody, key)), f.ClientEndpoint())]
                 else ErrorReplies(env, f, req, o, BadRequest, None),
                 f, DecidePermission(env, s, f, req, o, key))
  {
    PrefixStopsAtUnsupported(env, req.peers);
  }

  // A well-formed ChannelBind request is decided by the channel table.
  lemma BindTook(env: Env, s: State, f: FiveTuple, req: Request, o: Oracle, key: AuthKey)
    requires FindAllocation(s, f).Some? && req.channelNumber.Some? && req.peers != []
    requires SupportsFamily(env, req.peers[0].family)
    ensures var id, number := FindAllocation(s, f).value, req.channelNumber.value;
            var peer := Endpoint(ToAddress(req.peers[0]), req.peers[0].port, UDP);
            var ok := Channels.Accepts(s.allocations[id].channels, number, peer);
            Took(env, s, if ok then WithAllocation(s, id, Bind(env, s.now, s.allocations[id], number, peer)) else s,
                 if ok then [ToClient(Encode(env.codec, Success(req, EmptyBody, key)), f.ClientEndpoint())]
                 else ErrorReplies(env, f, req, o, BadRequest, Some(key)),
                 f, DecideChannelBind(env, s, f, req, o, key))
  {
  }

  // Storing the success message completes what creating the allocation began.
  lemma AllocatedStores(env: Env, s: State, f: FiveTuple, relay: Relay, token: Token, lifetime: int, success: seq<Byte>)
    ensures var u := Apply(env, s, f, Allocated(relay, token, lifetime, []));
            var id := s.sessions.pending.next;
            && id in u.allocations
            && WithAllocation(u, id, u.allocations[id].(success := success)) ==
               Apply(env, s, f, Allocated(relay, token, lifetime, success))
  {
  }

  lemma ClaimedStores(env: Env, s: State, f: FiveTuple, token: Token, lifetime: int, success: seq<Byte>)
    requires token in s.reservations
    ensures var u := Apply(env, s, f, Claimed(token, lifetime, []));
            var id := s.sessions.pending.next;
            && id in u.allocations
            && WithAllocation(u, id, u.allocations[id].(success := success)) ==
               Apply(env, s, f, Claimed(token, lifetime, success))
  {
  }

  // What is left to do once the pool has given sockets, and when it has none.
  lemma PoolTook(
    env: Env, s: State, f: FiveTuple, req: Request, o: Oracle, key: AuthKey, policy: PortPolicy, refused: bool)
    requires ValidEnv(env) && PlanAllocation(env, req) == FromPool(policy, refused) && Drawable(env.ports, policy)
    ensures match Generate(env.ports, policy, s.bound, o.draws)
            case None =>
              Took(env, s, s, ErrorReplies(env, f, req, o, InsufficientCapacity, Some(key)), f,
                   DecideNewAllocation(env, s, f, req, o, key))
            case Some(relay) =>
              var lifetime, id := ComputeLifetime(env, req.lifetime), s.sessions.pending.next;
              var token := if relay.secondary.Some? then Some(o.token) else None;
              var success := AllocateSuccess(env, f, req, key, relay.primary, lifetime, refused, token);
              var u := Apply(env, s, f, Allocated(relay, o.token, lifetime, []));
              && id in u.allocations
              && Took(env, s, WithAllocation(u, id, u.allocations[id].(success := success)),
                      [ToClient(success, f.ClientEndpoint())], f, DecideNewAllocation(env, s, f, req, o, key))
  {
    PoolDecision(env, s, f, req, o, key, policy, refused);
    match Generate(env.ports, policy, s.bound, o.draws)
    case None =>
    case Some(relay) =>
      var lifetime := ComputeLifetime(env, req.lifetime);
      var token := if relay.secondary.Some? then Some(o.token) else None;
      var success := AllocateSuccess(env, f, req, key, relay.primary, lifetime, refused, token);
      AllocatedStores(env, s, f, relay, o.token, lifetime, success);
  }

  lemma PoolDecision(
    env: Env, s: State, f: FiveTuple, req: Request, o: Oracle, key: AuthKey, policy: PortPolicy, refused: bool)
    requires ValidEnv(env) && PlanAllocation(env, req) == FromPool(policy, refused) && Drawable(env.ports, policy)
    ensures DecideNewAllocation(env, s, f, req, o, key) ==
            match Generate(env.ports, policy, s.bound, o.draws)
            case None => Reject(env, f, req, o, InsufficientCapacity, Some(key))
            case Some(relay) =>
              var lifetime := ComputeLifetime(env, req.lifetime);
              var token := if relay.secondary.Some? then Some(o.token) else None;
              var success := AllocateSuccess(env, f, req, key, relay.primary, lifetime, refused, token);
              Decision(Allocated(relay, o.token, lifetime, success), [ToClient(success, f.ClientEndpoint())])
  {
  }

  class StunTurnProcessor {
    const env: Env
    const manager: AllocationManager
    const authenticator: Nonces.Authenticator

    constructor (manager: AllocationManager)
      ensures this.manager == manager && env == manager.env && authenticator.hmac == env.hmac
    {
      this.manager := manager;
      this.env := manager.env;
      authenticator := new Nonces.Authenticator(manager.env.hmac);
    }

    // The processor works on a consistent manager of the same configuration.
    ghost predicate Valid()
      reads manager`running, manager`sessionMap, manager`owned
      reads manager.reservationManager, manager.reservationManager.reservations.Values
    {
      manager.env == env && authenticator.hmac == env.hmac && manager.Valid()
    }

    // The nonce cookie check: the algorithm to use, or None when the attributes do not fit.
    method SelectAlgorithm(req: Request) returns (chosen: Option<Algorithm>)
      requires req.nonce.Some?
      ensures chosen == ChooseAlgorithm(req, req.nonce.value)
    {
      chosen := Some(MD5);
      if Nonces.HasPasswordAlgorithmsBit(req.nonce.value) {
        if req.passwordAlgorithm.Some? || req.passwordAlgorithms.Some? {
          if req.passwordAlgorithm.None? || req.passwordAlgorithms.None? {
            return None;
          }
          if req.passwordAlgorithms.value != SUPPORTED_ALGORITHMS {
            return None;
          }
          if forall i :: 0 <= i < |req.passwordAlgorithms.value| ==>
                           req.passwordAlgorithms.value[i].algorithm != req.passwordAlgorithm.value {
            return None;
          }
          chosen := Some(req.passwordAlgorithm.value);
        }
      }
    }

    // The key, or None after an error reply.
    method AuthenticateRequest(f: FiveTuple, req: Request, o: Oracle) returns (key: Option<AuthKey>, sent: seq<Output>)
      requires authenticator.hmac == env.hmac
      ensures match Authenticate(env, req, o.unixNow)
              case Granted(k) => key == Some(k) && sent == []
              case Refused(code, k) => key == None && sent == ErrorReplies(env, f, req, o, code, k)
    {
      key, sent := None, [];
      if   || (req.integritySha1.None? && req.integritySha256.None?)
           || (req.integritySha1.Some? && req.integritySha256.Some?) {
        sent := ErrorReplies(env, f, req, o, Unauthenticated, None);
        return;
      }
      if req.username.None? || req.realm.None? || req.realm.value != env.realm || req.nonce.None? {
        sent := ErrorReplies(env, f, req, o, BadRequest, None);
        return;
      }
      var chosen := SelectAlgorithm(req);
      if chosen == None {
        sent := ErrorReplies(env, f, req, o, BadRequest, None);
        return;
      }
      var username := req.username.value;
      if username !in env.users {
        sent := ErrorReplies(env, f, req, o, Unauthenticated, None);
        return;
      }
      var outKey := DeriveKey(env, chosen.value, username, req.realm.value, env.users[username]);
      var useSha256 := chosen == Some(SHA256);
      if (useSha256 && req.integritySha256.None?) || (!useSha256 && req.integritySha1.None?) {
        sent := ErrorReplies(env, f, req, o, Unauthenticated, Some(outKey));
        return;
      }
      if !env.integrityHolds(req, outKey) {
        sent := ErrorReplies(env, f, req, o, Unauthenticated, Some(outKey));
        return;
      }
      var accepted := authenticator.ValidateNonce(req.nonce.value, o.unixNow);
      if !accepted {
        sent := ErrorReplies(env, f, req, o, StaleNonce, Some(outKey));
        return;
      }
      key := Some(outKey);
    }

    // ------------------------------------------------------------ Refresh

    method RefreshSession(f: FiveTuple, req: Request, o: Oracle, key: AuthKey, now: int, ghost s: State)
      returns (sent: seq<Output>)
      requires Valid() && s == manager.Contents(now)
      modifies manager.timers
      modifies if f in manager.sessionMap then {manager.sessionMap[f]} else {}
      ensures Valid() && manager.OwnsAfresh()
      ensures Took(env, s, manager.Contents(now), sent, f, DecideRefresh(env, s, f, req, o, key))
    {
      manager.GetFinds(f, now);
      var allocation := manager.GetAllocation(f);
      if allocation == null {
        sent := ErrorReplies(env, f, req, o, AllocationMismatch, Some(key));
        return;
      }
      if req.requestedFamily.Some? && SupportsFamily(env, req.requestedFamily.value) {
        sent := ErrorReplies(env, f, req, o, AddressFamilyNotSupported, Some(key));
        return;
      }
      var lifetime := ComputeLifetime(env, req.lifetime);
      RefreshTook(env, s, f, req, o, key);
      manager.RefreshAllocation(allocation, lifetime, now);
      sent := [ToClient(Encode(env.codec, Success(req, RefreshBody(lifetime), key)), f.ClientEndpoint())];
    }

    // ------------------------------------------------------------ Allocate

    method AllocateFromPool(
      f: FiveTuple, req: Request, o: Oracle, key: AuthKey, policy: PortPolicy, refused: bool, now: int, ghost s: State)
      returns (sent: seq<Output>)
      requires Valid() && manager.NextIsFree() && s == manager.Contents(now)
      requires f !in manager.sessionMap && o.token !in manager.reservationManager.reservations
      requires PlanAllocation(env, req) == FromPool(policy, refused)
      modifies manager`running, manager`sessionMap, manager`owned, manager.timers, manager.network
      modifies manager.reservationManager
      ensures Valid() && manager.OwnsAfresh()
      ensures Took(env, s, manager.Contents(now), sent, f, DecideNewAllocation(env, s, f, req, o, key))
    {
      AlwaysDrawable(env.ports, policy);
      PoolTook(env, s, f, req, o, key, policy, refused);
      var lifetime := NewLifetime(req.lifetime);
      var allocation, token := manager.CreateAllocation(f, policy, lifetime, o, now, s);
      if allocation == null {
        sent := ErrorReplies(env, f, req, o, InsufficientCapacity, Some(key));
        return;
      }
      var success := AllocateSuccess(env, f, req, key, allocation.port, lifetime, refused, token);
      ghost var relay := Generate(env.ports, policy, s.bound, o.draws).value;
      ghost var u := Apply(env, s, f, Allocated(relay, o.token, lifetime, []));
      manager.StoreSuccess(f, allocation, success, now, u);
      sent := [ToClient(success, f.ClientEndpoint())];
    }

    // The Allocate handler's own computation of the lifetime.
    method NewLifetime(requested: Option<nat>) returns (lifetime: int)
      ensures lifetime == ComputeLifetime(env, requested)
    {
      lifetime := env.allocationLifetime;
      if requested.Some? && requested.value > 0 {
        var computed := Min(requested.value, env.maxAllocationLifetime);
        if computed > env.allocationLifetime {
          lifetime := computed;
        }
      }
    }

    method AllocateFromReservation(
      f: FiveTuple, req: Request, o: Oracle, key: AuthKey, token: Token, now: int, ghost s: State)
      returns (sent: seq<Output>)
      requires Valid() && manager.NextIsFree() && s == manager.Contents(now)
      requires f !in manager.sessionMap
      requires PlanAllocation(env, req) == FromReservation(token)
      modifies manager`running, manager`sessionMap, manager`owned, manager.timers
      modifies manager.reservationManager, manager.reservationManager.reservations.Values
      ensures Valid() && manager.OwnsAfresh()
      ensures Took(env, s, manager.Contents(now), sent, f, DecideNewAllocation(env, s, f, req, o, key))
    {
      var lifetime := ComputeLifetime(env, req.lifetime);
      var allocation := manager.ClaimReservation(token, f, lifetime, now, s);
      if allocation == null {
        sent := ErrorReplies(env, f, req, o, InsufficientCapacity, Some(key));
        return;
      }
      var success := AllocateSuccess(env, f, req, key, allocation.port, lifetime, false, None);
      ClaimedStores(env, s, f, token, lifetime, success);
      manager.StoreSuccess(f, allocation, success, now, Apply(env, s, f, Claimed(token, lifetime, [])));
      sent := [ToClient(success, f.ClientEndpoint())];
    }

    // The ladder of checks, in the order of the requirements it implements.
    method AllocateNew(f: FiveTuple, req: Request, o: Oracle, key: AuthKey, now: int, ghost s: State)
      returns (sent: seq<Output>)
      requires Valid() && manager.NextIsFree() && s == manager.Contents(now)
      requires f !in manager.sessionMap && o.token !in manager.reservationManager.reservations
      modifies manager`running, manager`sessionMap, manager`owned, manager.timers, manager.network
      modifies manager.reservationManager, manager.reservationManager.reservations.Values
      ensures Valid() && manager.OwnsAfresh()
      ensures Took(env, s, manager.Contents(now), sent, f, DecideNewAllocation(env, s, f, req, o, key))
    {
      if req.transport.None? {
        return ErrorReplies(env, f, req, o, BadRequest, Some(key));
      }
      if req.transport.value != UDP_TRANSPORT {
        return ErrorReplies(env, f, req, o, UnsupportedTransport, Some(key));
      }
      if req.dontFragment {
        return ErrorReplies(env, f, req, o, UnknownAttribute, Some(key));
      }
      if req.reservationToken.Some? {
        if req.evenPort.Some? || req.requestedFamily.Some? || req.additionalFamily.Some? {
          return ErrorReplies(env, f, req, o, BadRequest, Some(key));
        }
        sent := AllocateFromReservation(f, req, o, key, req.reservationToken.value, now, s);
        return;
      }
      if req.requestedFamily.Some? && req.additionalFamily.Some? {
        return ErrorReplies(env, f, req, o, BadRequest, Some(key));
      }
      var family := if req.requestedFamily.Some? then req.requestedFamily.value else IPv4;
      if !SupportsFamily(env, family) {
        return ErrorReplies(env, f, req, o, AddressFamilyNotSupported, Some(key));
      }
      if req.evenPort == Some(true) && req.additionalFamily.Some? {
        return ErrorReplies(env, f, req, o, BadRequest, Some(key));
      }
      if req.additionalFamily.Some? && req.additionalFamily.value == IPv4 {
        return ErrorReplies(env, f, req, o, BadRequest, Some(key));
      }
      var policy := AnyPort;
      if req.evenPort.Some? {
        policy := if req.evenPort.value then EvenAndReserveNext else EvenPort;
      }
      sent := AllocateFromPool(f, req, o, key, policy, req.additionalFamily.Some?, now, s);
    }

    method AllocateSession(f: FiveTuple, req: Request, o: Oracle, key: AuthKey, now: int, ghost s: State)
      returns (sent: seq<Output>)
      requires Valid() && manager.NextIsFree() && s == manager.Contents(now)
      requires o.token !in manager.reservationManager.reservations
      modifies manager`running, manager`sessionMap, manager`owned, manager.timers, manager.network
      modifies manager.reservationManager, manager.reservationManager.reservations.Values
      ensures Valid() && manager.OwnsAfresh()
      ensures Took(env, s, manager.Contents(now), sent, f, DecideAllocate(env, s, f, req, o, key))
    {
      manager.GetFinds(f, now);
      var allocation := manager.GetAllocation(f);
      if allocation != null {
        if |allocation.success| < HEADER_SIZE {
          return [Terminated];
        }
        if TransactionIdOf(allocation.success) == req.transactionId {
          return [ToClient(allocation.success, f.ClientEndpoint())];
        }
        return ErrorReplies(env, f, req, o, AllocationMismatch, Some(key));
      }
      sent := AllocateNew(f, req, o, key, now, s);
    }

    // ------------------------------------------------------------ CreatePermission

    method PermitPeers(f: FiveTuple, req: Request, o: Oracle, key: AuthKey, now: int, ghost s: State)
      returns (sent: seq<Output>)
      requires Valid() && s == manager.Contents(now)
      modifies if f in manager.sessionMap then {manager.sessionMap[f].permissionManager} else {}
      ensures Valid() && manager.OwnsAfresh()
      ensures Took(env, s, manager.Contents(now), sent, f, DecidePermission(env, s, f, req, o, key))
    {
      manager.GetFinds(f, now);
      var allocation := manager.GetAllocation(f);
      if allocation == null {
        return ErrorReplies(env, f, req, o, AllocationMismatch, Some(key));
      }
      if req.peers == [] {
        return ErrorReplies(env, f, req, o, BadRequest, None);
      }
      PermitTook(env, s, f, req, o, key);
      var whole := InstallPeers(f, allocation, req.peers, now, s);
      if !whole {
        return ErrorReplies(env, f, req, o, BadRequest, None);
      }
      sent := [ToClient(Encode(env.codec, Success(req, EmptyBody, key)), f.ClientEndpoint())];
    }

    // Installs addresses up to the first one of an unsupported family.
    method InstallPeers(f: FiveTuple, allocation: UdpAllocation, peers: seq<PeerAddress>, now: int, ghost s: State)
      returns (whole: bool)
      requires Valid() && s == manager.Contents(now) && allocation == manager.GetAllocation(f)
      modifies allocation.permissionManager
      ensures Valid()
      ensures manager.Contents(now) == Apply(env, s, f, Permitted(SupportedPrefix(env, peers)))
      ensures whole <==> |SupportedPrefix(env, peers)| == |peers|
    {
      manager.GetFinds(f, now);
      PermitsNothing(env, s, f);
      ghost var u := s;
      for i := 0 to |peers|
        invariant Valid() && u == manager.Contents(now)
        invariant |SupportedPrefix(env, peers[..i])| == i
        invariant u == Apply(env, s, f, Permitted(SupportedPrefix(env, peers[..i])))
      {
        if !SupportsFamily(env, peers[i].family) {
          PrefixEndsAt(env, peers, i);
          return false;
        }
        PermitMore(env, s, f, peers, i);
        manager.PermitPeer(f, allocation, ToAddress(peers[i]), now, u);
        u := manager.Contents(now);
      }
      assert peers[..|peers|] == peers;
      whole := true;
    }

    // ------------------------------------------------------------ ChannelBind

    method BindChannel(f: FiveTuple, req: Request, o: Oracle, key: AuthKey, now: int, ghost s: State)
      returns (sent: seq<Output>)
      requires Valid() && s == manager.Contents(now)
      modifies if f in manager.sessionMap
               then {manager.sessionMap[f].channelManager, manager.sessionMap[f].permissionManager} else {}
      ensures Valid() && manager.OwnsAfresh()
      ensures Took(env, s, manager.Contents(now), sent, f, DecideChannelBind(env, s, f, req, o, key))
    {
      manager.GetFinds(f, now);
      var allocation := manager.GetAllocation(f);
      if allocation == null {
        return ErrorReplies(env, f, req, o, AllocationMismatch, Some(key));
      }
      if req.channelNumber.None? {
        return ErrorReplies(env, f, req, o, BadRequest, None);
      }
      if req.peers == [] {
        return ErrorReplies(env, f, req, o, BadRequest, None);
      }
      if !SupportsFamily(env, req.peers[0].family) {
        return ErrorReplies(env, f, req, o, AddressFamilyNotSupported, Some(key));
      }
      var peer := Endpoint(ToAddress(req.peers[0]), req.peers[0].port, UDP);
      BindTook(env, s, f, req, o, key);
      var ok := manager.BindChannel(f, allocation, req.channelNumber.value, peer, now, s);
      if !ok {
        return ErrorReplies(env, f, req, o, BadRequest, Some(key));
      }
      sent := [ToClient(Encode(env.codec, Success(req, EmptyBody, key)), f.ClientEndpoint())];
    }

    // ------------------------------------------------------------ data from the client

    method HandleChannelData(f: FiveTuple, number: nat, payload: seq<Byte>, encodes: bool, ghost now: int)
      returns (sent: seq<Output>)
      requires Valid()
      ensures sent == RelayToPeer(manager.Contents(now), f, ChannelData(number, payload, encodes))
    {
      manager.GetFinds(f, now);
      var allocation := manager.GetAllocation(f);
      if allocation == null {
        return [];
      }
      var peer := allocation.GetPeerByChannel(number);
      if peer == None || !encodes {
        return [];
      }
      sent := [ToPeer(allocation.id, payload, peer.value)];
    }

    method HandleSendIndication(
      f: FiveTuple, data: Option<seq<Byte>>, to: Option<PeerAddress>, encodes: bool, ghost now: int)
      returns (sent: seq<Output>)
      requires Valid()
      ensures sent == RelayToPeer(manager.Contents(now), f, SendIndication(data, to, encodes))
      ensures sent ==
              if f in manager.sessionMap && data.Some? && to.Some? && encodes
              then [ToPeer(manager.sessionMap[f].id, data.value,
                           Endpoint(if to.value.family == IPv4 then V4(to.value.octets) else V6(to.value.octets),
                                    to.value.port, UDP))] else []
    {
      manager.GetFinds(f, now);
      var allocation := manager.GetAllocation(f);
      if allocation == null || data == None || to == None || !encodes {
        return [];
      }
      sent := [ToPeer(allocation.id, data.value, Endpoint(ToAddress(to.value), to.value.port, UDP))];
    }

    // ------------------------------------------------------------ dispatch

    method HandleRequest(f: FiveTuple, req: Request, o: Oracle, now: int, ghost s: State) returns (sent: seq<Output>)
      requires Valid() && manager.NextIsFree() && s == manager.Contents(now)
      requires o.token !in manager.reservationManager.reservations
      modifies manager`running, manager`sessionMap, manager`owned, manager.timers, manager.network
      modifies manager.reservationManager, manager.reservationManager.reservations.Values
      modifies if f in manager.sessionMap then {
                 manager.sessionMap[f], manager.sessionMap[f].channelManager, manager.sessionMap[f].permissionManager
               } else {}
      ensures Valid() && manager.OwnsAfresh()
      ensures Took(env, s, manager.Contents(now), sent, f, Decide(env, s, f, req, o))
    {
      if req.operation == BINDING {
        var reply := Message(SuccessResponse, BINDING, req.transactionId, BindingBody(f.ClientEndpoint()), None);
        return [ToClient(Encode(env.codec, reply), f.ClientEndpoint())];
      }
      if !NeedsAuthentication(req.operation) {
        return ErrorReplies(env, f, req, o, BadRequest, None);
      }
      var key;
      key, sent := AuthenticateRequest(f, req, o);
      if key == None {
        return;
      }
      sent := HandleAuthentic(f, req, o, key.value, now, s);
    }

    method HandleAuthentic(f: FiveTuple, req: Request, o: Oracle, key: AuthKey, now: int, ghost s: State)
      returns (sent: seq<Output>)
      requires Valid() && manager.NextIsFree() && s == manager.Contents(now)
      requires o.token !in manager.reservationManager.reservations
      requires NeedsAuthentication(req.operation) && Authenticate(env, req, o.unixNow) == Granted(key)
      modifies manager`running, manager`sessionMap, manager`owned, manager.timers, manager.network
      modifies manager.reservationManager, manager.reservationManager.reservations.Values
      modifies if f in manager.sessionMap then {
                 manager.sessionMap[f], manager.sessionMap[f].channelManager, manager.sessionMap[f].permissionManager
               } else {}
      ensures Valid() && manager.OwnsAfresh()
      ensures Took(env, s, manager.Contents(now), sent, f, Decide(env, s, f, req, o))
    {
      if req.operation == ALLOCATE {
        sent := AllocateSession(f, req, o, key, now, s);
      } else if req.operation == REFRESH {
        sent := RefreshSession(f, req, o, key, now, s);
      } else if req.operation == CREATE_PERMISSION {
        sent := PermitPeers(f, req, o, key, now, s);
      } else {
        sent := BindChannel(f, req, o, key, now, s);
      }
    }

    method RelayData(f: FiveTuple, packet: Packet, ghost now: int) returns (sent: seq<Output>)
      requires Valid() && !packet.StunRequest?
      ensures sent == RelayToPeer(manager.Contents(now), f, packet)
    {
      match packet
      case ChannelData(number, payload, encodes) =>
        sent := HandleChannelData(f, number, payload, encodes, now);
      case SendIndication(data, to, encodes) =>
        sent := HandleSendIndication(f, data, to, encodes, now);
      case Unprocessable =>
        sent := [];
    }

    // One packet is one step of the machine.
    method ProcessPacket(f: FiveTuple, packet: Packet, o: Oracle, now: int, ghost s: State) returns (sent: seq<Output>)
      requires Valid() && manager.NextIsFree() && s == manager.Contents(now)
      requires Legal(s, Received(f, packet, o))
      modifies manager`running, manager`sessionMap, manager`owned, manager.timers, manager.network
      modifies manager.reservationManager, manager.reservationManager.reservations.Values
      modifies if f in manager.sessionMap then {
                 manager.sessionMap[f], manager.sessionMap[f].channelManager, manager.sessionMap[f].permissionManager
               } else {}
      ensures Valid() && manager.OwnsAfresh()
      ensures manager.Contents(now) == Step(env, s, Received(f, packet, o))
      ensures sent == Outputs(env, s, Received(f, packet, o))
    {
      if packet.StunRequest? {
        sent := HandleRequest(f, packet.request, o, now, s);
      } else {
        sent := RelayData(f, packet, now);
      }
    }

    // Between packets the machine's invariant is all that the next one needs.
    method Serve(f: FiveTuple, packet: Packet, o: Oracle, now: int, ghost s: State) returns (sent: seq<Output>)
      requires Valid() && s == manager.Contents(now)
      requires ServerInv(env, s) && Legal(s, Received(f, packet, o))
      modifies manager`running, manager`sessionMap, manager`owned, manager.timers, manager.network
      modifies manager.reservationManager, manager.reservationManager.reservations.Values
      modifies if f in manager.sessionMap then {
                 manager.sessionMap[f], manager.sessionMap[f].channelManager, manager.sessionMap[f].permissionManager
               } else {}
      ensures Valid() && manager.OwnsAfresh()
      ensures manager.Contents(now) == Step(env, s, Received(f, packet, o))
      ensures sent == Outputs(env, s, Received(f, packet, o))
      ensures ServerInv(env, manager.Contents(now))
    {
      NextNumberIsFree(env, s);
      StepInv(env, s, Received(f, packet, o));
      sent := ProcessPacket(f, packet, o, now, s);
    }
  }

  // A supported prefix grows by its next address.
  lemma {:induction false} PrefixGrows(env: Env, peers: seq<PeerAddress>, i: nat)
    requires i < |peers| && |SupportedPrefix(env, peers[..i])| == i
    ensures SupportedPrefix(env, peers[..i+1]) ==
            SupportedPrefix(env, peers[..i])
            + if SupportsFamily(env, peers[i].family) then [ToAddress(peers[i])] else []
  {
    if i > 0 {
      assert peers[..i][1..] == peers[1..][..i-1];
      assert peers[..i+1][1..] == peers[1..][..i];
      PrefixGrows(env, peers[1..], i - 1);
    } else {
      assert peers[..i+1][1..] == [];
    }
  }

  // It ends at the first address of an unsupported family.
  lemma {:induction false} PrefixEndsAt(env: Env, peers: seq<PeerAddress>, i: nat)
    requires i < |peers| && |SupportedPrefix(env, peers[..i])| == i && !SupportsFamily(env, peers[i].family)
    ensures SupportedPrefix(env, peers) == SupportedPrefix(env, peers[..i])
  {
    if i > 0 {
      assert peers[..i][1..] == peers[1..][..i-1];
      PrefixEndsAt(env, peers[1..], i - 1);
    }
  }

  lemma PermitMore(env: Env, s: State, f: FiveTuple, peers: seq<PeerAddress>, i: nat)
    requires i < |peers| && |SupportedPrefix(env, peers[..i])| == i && SupportsFamily(env, peers[i].family)
    requires FindAllocation(s, f).Some?
    ensures |SupportedPrefix(env, peers[..i+1])| == i + 1
    ensures var id, u := FindAllocation(s, f).value, Apply(env, s, f, Permitted(SupportedPrefix(env, peers[..i])));
            && id in u.allocations
            && WithAllocation(u, id, Permit(env, u.now, u.allocations[id], [ToAddress(peers[i])])) ==
               Apply(env, s, f, Permitted(SupportedPrefix(env, peers[..i+1])))
  {
    var id, done, more := FindAllocation(s, f).value, SupportedPrefix(env, peers[..i]), ToAddress(peers[i]);
    var a := s.allocations[id];
    PrefixGrows(env, peers, i);
    PermitOne(env, s.now, Permit(env, s.now, a, done), more);
    assert (done + [more])[..|done|] == done;
    UpdateTwice(s.allocations, id, Permit(env, s.now, a, done), Permit(env, s.now, a, done + [more]));
  }
}
