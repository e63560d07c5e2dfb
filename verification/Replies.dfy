/** What clients are told: one reply per request, errors that change nothing, replayed successes. */
module Replies {
  import opened Common
  import opened Stun
  import opened RelayPorts
  import opened Server
  import opened ServerInvariant
  import Permissions
  import Nonces

  // ---------------------------------------------------------------- authentication

  // Exactly one of the two message-integrity attributes is there.
  ghost predicate OneIntegrity(req: Request) {
    req.integritySha1.Some? != req.integritySha256.Some?
  }

  ghost predicate NamesItself(env: Env, req: Request) {
    req.username.Some? && req.realm == Some(env.realm) && req.nonce.Some?
  }

  // The nonce announces password algorithms and the client takes part in their choice.
  ghost predicate Negotiates(req: Request)
    requires req.nonce.Some?
  {
    && Nonces.HasPasswordAlgorithmsBit(req.nonce.value)
    && (req.passwordAlgorithm.Some? || req.passwordAlgorithms.Some?)
  }

  // If so, it repeats the server's list and picks from it.
  ghost predicate AlgorithmsFit(req: Request)
    requires req.nonce.Some?
  {
    Negotiates(req) ==>
      && req.passwordAlgorithms == Some([AlgorithmEntry(SHA256, []), AlgorithmEntry(MD5, [])])
      && req.passwordAlgorithm in {Some(SHA256), Some(MD5)}
  }

  // SHA-256 if the client picks it, and MD5 in every other case.
  ghost predicate PicksSha256(req: Request)
    requires req.nonce.Some?
  {
    Negotiates(req) && req.passwordAlgorithm == Some(SHA256)
  }

  // The key of a known user.
  ghost predicate IsKeyOf(env: Env, req: Request, key: AuthKey)
    requires req.username.Some? && req.nonce.Some?
  {
    && req.username.value in env.users
    && var password := env.users[req.username.value];
       key == if PicksSha256(req) then AuthKey(SHA256, env.sha256Key(req.username.value, env.realm, password))
              else AuthKey(MD5, env.md5Key(req.username.value, env.realm, password))
  }

  // The integrity attribute is that of the algorithm, and is right.
  ghost predicate Signed(env: Env, req: Request, key: AuthKey)
    requires req.nonce.Some?
  {
    (if PicksSha256(req) then req.integritySha256.Some? else req.integritySha1.Some?) && env.integrityHolds(req, key)
  }

  /** Authentication succeeds exactly when all of this holds: one message-integrity attribute; user
      name, the server's realm and a nonce; if algorithms are negotiated, the server's list in its order
      and one of the two picked; a known user, whose key under that algorithm is then the result; the
      integrity attribute of that algorithm, valid under that key; and a nonce that is accepted. */
  lemma GrantedIff(env: Env, req: Request, unixNow: int, key: AuthKey)
    ensures Authenticate(env, req, unixNow) == Granted(key) <==>
            && OneIntegrity(req) && NamesItself(env, req) && AlgorithmsFit(req)
            && IsKeyOf(env, req, key) && Signed(env, req, key)
            && Nonces.Validate(env.hmac, req.nonce.value, unixNow)
  {
    if req.nonce.Some? {
      ChosenIsPicked(req);
    }
  }

  /** What is refused with which error, and which refusals are signed: 401 without exactly one integrity
      attribute; 400 without user name, realm and nonce, or with algorithms that do not fit; 401 for an
      unknown user; 401, signed, for a missing or wrong integrity attribute; 438, signed, for a nonce
      that is not accepted.  The first of these that applies decides. */
  lemma RefusedIff(env: Env, req: Request, unixNow: int, key: AuthKey)
    ensures var v := Authenticate(env, req, unixNow);
            && (v == Refused(Unauthenticated, None) <==>
                  || !OneIntegrity(req)
                  || (NamesItself(env, req) && AlgorithmsFit(req) && req.username.value !in env.users))
            && (v == Refused(BadRequest, None) <==>
                  OneIntegrity(req) && (!NamesItself(env, req) || !AlgorithmsFit(req)))
            && (v == Refused(Unauthenticated, Some(key)) <==>
                  && OneIntegrity(req) && NamesItself(env, req) && AlgorithmsFit(req)
                  && IsKeyOf(env, req, key) && !Signed(env, req, key))
            && (v == Refused(StaleNonce, Some(key)) <==>
                  && OneIntegrity(req) && NamesItself(env, req) && AlgorithmsFit(req)
                  && IsKeyOf(env, req, key) && Signed(env, req, key)
                  && !Nonces.Validate(env.hmac, req.nonce.value, unixNow))
            && (v.Refused? ==>
                  || (v.code == Unauthenticated)
                  || (v.code == BadRequest && v.signedWith == None)
                  || (v.code == StaleNonce && v.signedWith.Some?))
  {
    if req.nonce.Some? {
      ChosenIsPicked(req);
    }
  }

  lemma ChosenIsPicked(req: Request)
    requires req.nonce.Some?
    ensures ChooseAlgorithm(req, req.nonce.value) ==
            if !AlgorithmsFit(req) then None else Some(if PicksSha256(req) then SHA256 else MD5)
  {
    if req.passwordAlgorithms == Some([AlgorithmEntry(SHA256, []), AlgorithmEntry(MD5, [])]) {
      var entries := req.passwordAlgorithms.value;
      assert entries[0].algorithm == SHA256 && entries[1].algorithm == MD5;
    }
  }

  // ---------------------------------------------------------------- one reply

  ghost predicate IsReplyTo(bytes: seq<Byte>, req: Request, c: Class) {
    && |bytes| >= HEADER_SIZE
    && MethodOf(bytes) == req.operation
    && TransactionIdOf(bytes) == req.transactionId
    && ClassBitsOf(bytes) == ClassBits(c)
  }

  // Exactly one reply of the given class to the sender.
  ghost predicate Answers(replies: seq<Output>, f: FiveTuple, req: Request, c: Class) {
    && |replies| == 1 && replies[0].ToClient?
    && replies[0].client == f.ClientEndpoint()
    && IsReplyTo(replies[0].bytes, req, c)
  }

  // An error reply, or none at all when it cannot be built.
  ghost predicate AnswersWithError(replies: seq<Output>, f: FiveTuple, req: Request, o: Oracle) {
    if o.builderValid then Answers(replies, f, req, ErrorResponse) else replies == []
  }

  lemma ErrorIsAnswer(env: Env, f: FiveTuple, req: Request, o: Oracle, code: ErrorCode, key: Option<AuthKey>)
    ensures AnswersWithError(ErrorReplies(env, f, req, o, code, key), f, req, o)
  {
    HeaderRoundTrip(env.codec, ErrorMessage(env, req, code, key, o.unixNow));
  }

  lemma SuccessIsAnswer(env: Env, f: FiveTuple, req: Request, body: Body, key: AuthKey)
    ensures Answers([ToClient(Encode(env.codec, Success(req, body, key)), f.ClientEndpoint())], f, req, SuccessResponse)
  {
    HeaderRoundTrip(env.codec, Success(req, body, key));
  }

  // A decision either succeeds with one success reply, or fails with one error reply and no effect;
  // CreatePermission alone may fail after a prefix of its work.
  ghost predicate GoodDecision(env: Env, d: Decision, f: FiveTuple, req: Request, o: Oracle) {
    || Answers(d.replies, f, req, SuccessResponse)
    || (&& AnswersWithError(d.replies, f, req, o)
        && (|| d.effect == NoEffect
            || (&& req.operation == CREATE_PERMISSION
                && d.effect == Permitted(SupportedPrefix(env, req.peers))
                && |SupportedPrefix(env, req.peers)| < |req.peers|)))
  }

  lemma RejectIsGood(env: Env, f: FiveTuple, req: Request, o: Oracle, code: ErrorCode, key: Option<AuthKey>)
    ensures GoodDecision(env, Reject(env, f, req, o, code, key), f, req, o)
  {
    ErrorIsAnswer(env, f, req, o, code, key);
  }

  lemma AcceptIsGood(env: Env, f: FiveTuple, req: Request, o: Oracle, effect: Effect, body: Body, key: AuthKey)
    ensures GoodDecision(env, Accept(env, f, req, effect, body, key), f, req, o)
  {
    SuccessIsAnswer(env, f, req, body, key);
  }

  lemma NewAllocationIsGood(env: Env, s: State, f: FiveTuple, req: Request, o: Oracle, key: AuthKey)
    requires ValidEnv(env)
    ensures GoodDecision(env, DecideNewAllocation(env, s, f, req, o, key), f, req, o)
  {
    var lifetime := ComputeLifetime(env, req.lifetime);
    match PlanAllocation(env, req)
    case Refuse(code) => RejectIsGood(env, f, req, o, code, Some(key));
    case FromReservation(token) =>
      if token in s.reservations {
        SuccessIsAnswer(
          env, f, req, AllocateBody(s.reservations[token], lifetime, f.ClientEndpoint(), false, None), key);
      } else {
        RejectIsGood(env, f, req, o, InsufficientCapacity, Some(key));
      }
    case FromPool(policy, refused) =>
      AlwaysDrawable(env.ports, policy);
      match Generate(env.ports, policy, s.bound, o.draws)
      case None => RejectIsGood(env, f, req, o, InsufficientCapacity, Some(key));
      case Some(relay) =>
        var token := if relay.secondary.Some? then Some(o.token) else None;
        SuccessIsAnswer(env, f, req, AllocateBody(relay.primary, lifetime, f.ClientEndpoint(), refused, token), key);
  }

  lemma ExistingIsGood(env: Env, s: State, f: FiveTuple, req: Request, o: Oracle, key: AuthKey)
    requires ValidEnv(env) && req.operation == ALLOCATE && FindAllocation(s, f).Some?
    requires IsAllocateSuccess(s.allocations[FindAllocation(s, f).value].success)
    ensures GoodDecision(env, DecideAllocate(env, s, f, req, o, key), f, req, o)
  {
    RejectIsGood(env, f, req, o, AllocationMismatch, Some(key));
  }

  lemma AllocateIsGood(env: Env, s: State, f: FiveTuple, req: Request, o: Oracle, key: AuthKey)
    requires ValidEnv(env) && ServerInv(env, s) && req.operation == ALLOCATE
    ensures GoodDecision(env, DecideAllocate(env, s, f, req, o, key), f, req, o)
  {
    match FindAllocation(s, f)
    case None => NewAllocationIsGood(env, s, f, req, o, key);
    case Some(id) =>
      assert AllocationInv(s.allocations[id], s.now);
      ExistingIsGood(env, s, f, req, o, key);
  }

  lemma RefreshIsGood(env: Env, s: State, f: FiveTuple, req: Request, o: Oracle, key: AuthKey)
    ensures GoodDecision(env, DecideRefresh(env, s, f, req, o, key), f, req, o)
  {
    var lifetime := ComputeLifetime(env, req.lifetime);
    RejectIsGood(env, f, req, o, AllocationMismatch, Some(key));
    RejectIsGood(env, f, req, o, AddressFamilyNotSupported, Some(key));
    AcceptIsGood(env, f, req, o, Refreshed(lifetime), RefreshBody(lifetime), key);
  }

  lemma PermissionIsGood(env: Env, s: State, f: FiveTuple, req: Request, o: Oracle, key: AuthKey)
    requires req.operation == CREATE_PERMISSION
    ensures GoodDecision(env, DecidePermission(env, s, f, req, o, key), f, req, o)
  {
    RejectIsGood(env, f, req, o, AllocationMismatch, Some(key));
    ErrorIsAnswer(env, f, req, o, BadRequest, None);
    AcceptIsGood(env, f, req, o, Permitted(SupportedPrefix(env, req.peers)), EmptyBody, key);
  }

  lemma ChannelBindIsGood(env: Env, s: State, f: FiveTuple, req: Request, o: Oracle, key: AuthKey)
    ensures GoodDecision(env, DecideChannelBind(env, s, f, req, o, key), f, req, o)
  {
    RejectIsGood(env, f, req, o, AllocationMismatch, Some(key));
    RejectIsGood(env, f, req, o, BadRequest, None);
    RejectIsGood(env, f, req, o, BadRequest, Some(key));
    RejectIsGood(env, f, req, o, AddressFamilyNotSupported, Some(key));
    if req.channelNumber.Some? && req.peers != [] {
      var peer := Endpoint(ToAddress(req.peers[0]), req.peers[0].port, UDP);
      AcceptIsGood(env, f, req, o, ChannelBound(req.channelNumber.value, peer), EmptyBody, key);
    }
  }

  /** In every reachable state a decoded request gets exactly one reply, to its sender, with its own
      method and transaction ID; none only when an error reply does not fit its buffer.  A replayed
      stored success is no exception, and no exception leaves the handler.  With an error reply (or
      none) nothing changes, except that CreatePermission keeps the addresses it installed before
      the first one of an unsupported family. */
  lemma EveryRequestIsAnswered(env: Env, s: State, f: FiveTuple, req: Request, o: Oracle)
    requires ValidEnv(env) && ServerInv(env, s)
    ensures GoodDecision(env, Decide(env, s, f, req, o), f, req, o)
  {
    if req.operation == BINDING {
      HeaderRoundTrip(env.codec,
                      Message(SuccessResponse, BINDING, req.transactionId, BindingBody(f.ClientEndpoint()), None));
    } else if !NeedsAuthentication(req.operation) {
      RejectIsGood(env, f, req, o, BadRequest, None);
    } else {
      match Authenticate(env, req, o.unixNow)
      case Refused(code, key) => RejectIsGood(env, f, req, o, code, key);
      case Granted(key) =>
        if req.operation == ALLOCATE {
          AllocateIsGood(env, s, f, req, o, key);
        } else if req.operation == REFRESH {
          RefreshIsGood(env, s, f, req, o, key);
        } else if req.operation == CREATE_PERMISSION {
          PermissionIsGood(env, s, f, req, o, key);
        } else {
          ChannelBindIsGood(env, s, f, req, o, key);
        }
    }
  }

  // ---------------------------------------------------------------- errors change nothing

  // An authentic CreatePermission on an allocation whose first peer has a relayed family and a later
  // one has not.
  ghost predicate FailsHalfway(env: Env, s: State, f: FiveTuple, req: Request, o: Oracle) {
    && req.operation == CREATE_PERMISSION
    && Authenticate(env, req, o.unixNow).Granted?
    && FindAllocation(s, f).Some?
    && req.peers != [] && SupportsFamily(env, req.peers[0].family)
    && exists i :: 0 <= i < |req.peers| && !SupportsFamily(env, req.peers[i].family)
  }

  // Every installation starts waits, so it shows in the table.
  lemma {:induction false} AddAllCounts(t: Permissions.PermissionTable, addresses: seq<Address>, expiry: int)
    ensures AddAll(t, addresses, expiry).pending.next == t.pending.next + |addresses|
  {
    if addresses != [] {
      AddAllCounts(t, addresses[..|addresses|-1], expiry);
    }
  }

  lemma PermitShows(env: Env, s: State, f: FiveTuple, addresses: seq<Address>)
    requires FindAllocation(s, f).Some? && addresses != []
    ensures Apply(env, s, f, Permitted(addresses)) != s
  {
    var id := FindAllocation(s, f).value;
    AddAllCounts(s.allocations[id].permissions, addresses, After(s.now, env.permissionLifetime));
    assert Apply(env, s, f, Permitted(addresses)).allocations[id] != s.allocations[id];
  }

  lemma PermitsNothing(env: Env, s: State, f: FiveTuple)
    ensures Apply(env, s, f, Permitted([])) == s
  {
    if FindAllocation(s, f).Some? {
      var id := FindAllocation(s, f).value;
      assert s.allocations[id := s.allocations[id]] == s.allocations;
    }
  }

  lemma HalfwayDecision(env: Env, s: State, f: FiveTuple, req: Request, o: Oracle)
    requires ValidEnv(env) && FailsHalfway(env, s, f, req, o)
    ensures Decide(env, s, f, req, o).effect == Permitted(SupportedPrefix(env, req.peers))
    ensures SupportedPrefix(env, req.peers) != []
    ensures Decide(env, s, f, req, o).replies == ErrorReplies(env, f, req, o, BadRequest, None)
  {
    PrefixStopsAtUnsupported(env, req.peers);
  }

  lemma PartialPermitIsHalfway(env: Env, s: State, f: FiveTuple, req: Request, o: Oracle)
    requires ValidEnv(env) && req.operation == CREATE_PERMISSION
    requires Decide(env, s, f, req, o).effect == Permitted(SupportedPrefix(env, req.peers))
    requires 0 < |SupportedPrefix(env, req.peers)| < |req.peers|
    ensures FailsHalfway(env, s, f, req, o)
  {
    PrefixStopsAtUnsupported(env, req.peers);
  }

  lemma ErrorIsNoSuccess(env: Env, f: FiveTuple, req: Request, o: Oracle, code: ErrorCode, key: Option<AuthKey>)
    ensures !Answers(ErrorReplies(env, f, req, o, code, key), f, req, SuccessResponse)
  {
    ErrorIsAnswer(env, f, req, o, code, key);
  }

  lemma HalfwayShows(env: Env, s: State, f: FiveTuple, req: Request, o: Oracle)
    requires ValidEnv(env) && FailsHalfway(env, s, f, req, o)
    ensures var d, id := Decide(env, s, f, req, o), FindAllocation(s, f).value;
            && !Answers(d.replies, f, req, SuccessResponse) && Apply(env, s, f, d.effect) != s
            && Apply(env, s, f, d.effect) ==
               WithAllocation(s, id, Permit(env, s.now, s.allocations[id], SupportedPrefix(env, req.peers)))
  {
    HalfwayDecision(env, s, f, req, o);
    ErrorIsNoSuccess(env, f, req, o, BadRequest, None);
    PermitShows(env, s, f, SupportedPrefix(env, req.peers));
  }

  lemma FailureIsClean(env: Env, s: State, f: FiveTuple, req: Request, o: Oracle)
    requires ValidEnv(env) && !FailsHalfway(env, s, f, req, o)
    requires var d := Decide(env, s, f, req, o);
             GoodDecision(env, d, f, req, o) && !Answers(d.replies, f, req, SuccessResponse)
    ensures Apply(env, s, f, Decide(env, s, f, req, o).effect) == s
  {
    if Decide(env, s, f, req, o).effect != NoEffect {
      if SupportedPrefix(env, req.peers) == [] {
        PermitsNothing(env, s, f);
      } else {
        PartialPermitIsHalfway(env, s, f, req, o);
      }
    }
  }

  /** The requests that change something without being answered with a success are exactly the
      CreatePermissions that fail halfway, and what they change is one allocation's permissions: the
      addresses before the first one of an unsupported family are installed.  Every other request that
      gets an error, or no answer, leaves the whole server as it was. */
  lemma ErrorsChangeNothing(env: Env, s: State, f: FiveTuple, req: Request, o: Oracle)
    requires ValidEnv(env) && ServerInv(env, s)
    ensures var u := Step(env, s, Received(f, StunRequest(req), o));
            && (u != s && !Answers(Decide(env, s, f, req, o).replies, f, req, SuccessResponse)
                <==> FailsHalfway(env, s, f, req, o))
            && (FailsHalfway(env, s, f, req, o) ==>
                  var id := FindAllocation(s, f).value;
                  u == WithAllocation(s, id, Permit(env, s.now, s.allocations[id], SupportedPrefix(env, req.peers))))
  {
    EveryRequestIsAnswered(env, s, f, req, o);
    if FailsHalfway(env, s, f, req, o) {
      HalfwayShows(env, s, f, req, o);
    } else if !Answers(Decide(env, s, f, req, o).replies, f, req, SuccessResponse) {
      FailureIsClean(env, s, f, req, o);
    }
  }

  // The address with the family and the octets of an XOR-PEER-ADDRESS of one of the two families.
  ghost predicate IsAddressOf(a: Address, p: PeerAddress) {
    match a
    case V4(octets) => p.family == IPv4 && p.octets == octets
    case V6(octets) => p.family == IPv6 && p.octets == octets
  }

  /** The kept prefix: the addresses before the first one of an unsupported family, all of them. */
  lemma {:induction false} PrefixStopsAtUnsupported(env: Env, peers: seq<PeerAddress>)
    ensures var p := SupportedPrefix(env, peers);
            && |p| <= |peers|
            && (forall i :: 0 <= i < |p| ==> IsAddressOf(p[i], peers[i]) && SupportsFamily(env, peers[i].family))
            && (|p| < |peers| ==> !SupportsFamily(env, peers[|p|].family))
  {
    if peers != [] && SupportsFamily(env, peers[0].family) {
      PrefixStopsAtUnsupported(env, peers[1..]);
    }
  }

  /** Installing addresses gives each of them the new expiry and leaves every other one alone. */
  lemma {:induction false} AddAllInstalls(
    t: Permissions.PermissionTable, addresses: seq<Address>, expiry: int, a: Address)
    ensures var u := AddAll(t, addresses, expiry);
            if a in addresses then a in u.entries && u.entries[a].expiry == expiry
            else (a in u.entries <==> a in t.entries) && (a in t.entries ==> u.entries[a] == t.entries[a])
  {
    if addresses != [] {
      AddAllInstalls(t, addresses[..|addresses|-1], expiry, a);
    }
  }

  // ---------------------------------------------------------------- lifetimes

  /** The lifetime is the default, raised to the capped request when that is longer. */
  lemma LifetimeRule(env: Env, requested: Option<nat>)
    ensures ComputeLifetime(env, requested) ==
            match requested
            case None => env.allocationLifetime
            case Some(n) =>
              var capped := if n < env.maxAllocationLifetime then n else env.maxAllocationLifetime;
              if n == 0 || capped < env.allocationLifetime then env.allocationLifetime else capped
    ensures env.allocationLifetime <= ComputeLifetime(env, requested) <= LifetimeCap(env)
  {
  }

  // The lifetime that an effect arms the allocation's timer with.
  function ArmedLifetime(effect: Effect): Option<int> {
    match effect
    case Allocated(_, _, lifetime, _) => Some(lifetime)
    case Claimed(_, lifetime, _) => Some(lifetime)
    case Refreshed(lifetime) => Some(lifetime)
    case _ => None
  }

  function LifetimeSent(body: Body): Option<int> {
    match body
    case AllocateBody(_, lifetime, _, _, _) => Some(lifetime)
    case RefreshBody(lifetime) => Some(lifetime)
    case _ => None
  }

  // A reply that carries the lifetime that the decision arms the timer with.
  ghost predicate SendsLifetime(env: Env, f: FiveTuple, d: Decision, lifetime: int) {
    exists m: Message ::
      LifetimeSent(m.body) == Some(lifetime) && d.replies == [ToClient(Encode(env.codec, m), f.ClientEndpoint())]
  }

  lemma AllocateSendsLifetime(env: Env, s: State, f: FiveTuple, req: Request, o: Oracle, key: AuthKey)
    requires ValidEnv(env)
    ensures var d := DecideNewAllocation(env, s, f, req, o, key);
            ArmedLifetime(d.effect).Some? ==>
              ArmedLifetime(d.effect) == Some(ComputeLifetime(env, req.lifetime))
              && SendsLifetime(env, f, d, ComputeLifetime(env, req.lifetime))
  {
    var lifetime := ComputeLifetime(env, req.lifetime);
    var d := DecideNewAllocation(env, s, f, req, o, key);
    match d.effect
    case Allocated(relay, token, _, _) =>
      var sent := if relay.secondary.Some? then Some(token) else None;
      var refused := PlanAllocation(env, req).additionalFamilyRefused;
      var m := Success(req, AllocateBody(relay.primary, lifetime, f.ClientEndpoint(), refused, sent), key);
      assert LifetimeSent(m.body) == Some(lifetime);
      assert d.replies == [ToClient(Encode(env.codec, m), f.ClientEndpoint())];
    case Claimed(token, _, _) =>
      var m := Success(req, AllocateBody(s.reservations[token], lifetime, f.ClientEndpoint(), false, None), key);
      assert LifetimeSent(m.body) == Some(lifetime);
      assert d.replies == [ToClient(Encode(env.codec, m), f.ClientEndpoint())];
    case _ =>
  }

  lemma RefreshSendsLifetime(env: Env, s: State, f: FiveTuple, req: Request, o: Oracle, key: AuthKey)
    ensures var d := DecideRefresh(env, s, f, req, o, key);
            ArmedLifetime(d.effect).Some? ==>
              ArmedLifetime(d.effect) == Some(ComputeLifetime(env, req.lifetime))
              && SendsLifetime(env, f, d, ComputeLifetime(env, req.lifetime))
  {
    var lifetime := ComputeLifetime(env, req.lifetime);
    var m := Success(req, RefreshBody(lifetime), key);
    assert LifetimeSent(m.body) == Some(lifetime);
  }

  lemma DecisionSendsLifetime(env: Env, s: State, f: FiveTuple, req: Request, o: Oracle)
    requires ValidEnv(env) && ArmedLifetime(Decide(env, s, f, req, o).effect).Some?
    ensures var d := Decide(env, s, f, req, o);
            ArmedLifetime(d.effect) == Some(ComputeLifetime(env, req.lifetime))
            && SendsLifetime(env, f, d, ComputeLifetime(env, req.lifetime))
  {
    match Authenticate(env, req, o.unixNow)
    case Refused(_, _) =>
    case Granted(key) =>
      if req.operation == ALLOCATE {
        AllocateSendsLifetime(env, s, f, req, o, key);
      } else {
        RefreshSendsLifetime(env, s, f, req, o, key);
      }
  }

  lemma ApplyArms(env: Env, s: State, f: FiveTuple, effect: Effect)
    requires Sound(env, s, f, effect) && ArmedLifetime(effect).Some?
    ensures var u := Apply(env, s, f, effect);
            f in u.sessions.entries && u.sessions.entries[f].expiry == After(s.now, ArmedLifetime(effect).value)
  {
  }

  /** The LIFETIME in the reply is the one the timer is armed with, and follows the rule. */
  lemma LifetimeSentIsArmed(env: Env, s: State, f: FiveTuple, req: Request, o: Oracle)
    requires ValidEnv(env) && o.token !in s.reservations
    requires ArmedLifetime(Decide(env, s, f, req, o).effect).Some?
    ensures var lifetime := ComputeLifetime(env, req.lifetime);
            var u := Step(env, s, Received(f, StunRequest(req), o));
            && f in u.sessions.entries && u.sessions.entries[f].expiry == After(s.now, lifetime)
            && SendsLifetime(env, f, Decide(env, s, f, req, o), lifetime)
  {
    DecisionSendsLifetime(env, s, f, req, o);
    DecideIsSound(env, s, f, req, o);
    ApplyArms(env, s, f, Decide(env, s, f, req, o).effect);
  }
}
