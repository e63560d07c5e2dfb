/** What each request is answered, condition by condition: the message, whether it is signed, and the
    challenge that 401 and 438 replies carry. */
module Responses {
  import opened Common
  import opened Stun
  import opened RelayPorts
  import opened Server
  import opened ServerInvariant
  import opened Replies
  import opened Admission
  import Channels
  import Nonces

  // ---------------------------------------------------------------- messages

  // One message to the client's own address and port: method and transaction ID are the request's.
  ghost predicate Says(
    env: Env, f: FiveTuple, req: Request, replies: seq<Output>, c: Class, body: Body, key: Option<AuthKey>)
  {
    replies ==
    [ToClient(Encode(env.codec, Message(c, req.operation, req.transactionId, body, key)),
              Endpoint(f.clientAddress, f.clientPort, f.protocol))]
  }

  // A nonce with the cookie and the password-algorithms bit that is good for an hour, if at all.
  ghost predicate IsChallenge(env: Env, nonce: string, issued: int) {
    var expiry := issued + 3600;
    && |nonce| >= 13 && nonce[..13] == "obMatJos2gAAA" && Nonces.HasPasswordAlgorithmsBit(nonce)
    && (Nonces.IsHmac(env.hmac) && expiry != 0 && expiry <= 0x7fff_ffff_ffff_ffff ==>
          forall t :: Nonces.Validate(env.hmac, nonce, t) <==>
                        t <= expiry && 1_000_000_000 <= expiry && !Nonces.IsDigit(env.hmac(Nonces.Decimal(expiry))[0]))
  }

  // An error reply with that code, and with a challenge if and only if the code is 401 or 438; or no
  // reply, when none can be built.
  ghost predicate Refuses(
    env: Env, f: FiveTuple, req: Request, o: Oracle, replies: seq<Output>, code: ErrorCode, key: Option<AuthKey>)
  {
    if !o.builderValid then replies == []
    else
      exists challenge: Option<string> ::
        && Says(env, f, req, replies, ErrorResponse, ErrorBody(code, challenge), key)
        && (challenge.Some? <==> code in {Unauthenticated, StaleNonce})
        && (challenge.Some? ==> IsChallenge(env, challenge.value, o.unixNow))
  }

  lemma GeneratedIsChallenge(env: Env, issued: int)
    ensures IsChallenge(env, Nonces.Generate(env.hmac, 0, issued), issued)
  {
    var nonce := Nonces.Generate(env.hmac, 0, issued);
    Nonces.GeneratedPrefix(env.hmac, 0, issued);
    Nonces.FeatureBitReadsBack(env.hmac, 0, issued);
    var expiry := issued + 3600;
    if Nonces.IsHmac(env.hmac) && expiry != 0 && expiry <= 0x7fff_ffff_ffff_ffff {
      forall t
        ensures Nonces.Validate(env.hmac, nonce, t) <==>
                  t <= expiry && 1_000_000_000 <= expiry && !Nonces.IsDigit(env.hmac(Nonces.Decimal(expiry))[0])
      {
        ChallengeLasts(env.hmac, issued, expiry, t);
      }
    }
  }

  lemma ChallengeLasts(hmac: Nonces.Hmac, issued: int, expiry: int, t: int)
    requires Nonces.IsHmac(hmac) && expiry == issued + 3600 && expiry != 0 && expiry <= 0x7fff_ffff_ffff_ffff
    ensures Nonces.Validate(hmac, Nonces.Generate(hmac, 0, issued), t) <==>
              t <= expiry && 1_000_000_000 <= expiry && !Nonces.IsDigit(hmac(Nonces.Decimal(expiry))[0])
  {
    assert Nonces.Generate(hmac, 0, issued) == Nonces.Generate(hmac, expiry, issued);
    Nonces.RoundTripExact(hmac, expiry, issued, t);
  }

  lemma ErrorRefuses(env: Env, f: FiveTuple, req: Request, o: Oracle, code: ErrorCode, key: Option<AuthKey>)
    ensures Refuses(env, f, req, o, ErrorReplies(env, f, req, o, code, key), code, key)
  {
    if o.builderValid {
      var nonce := Nonces.Generate(env.hmac, 0, o.unixNow);
      GeneratedIsChallenge(env, o.unixNow);
      var challenge := if code == Unauthenticated || code == StaleNonce then Some(nonce) else None;
      assert Says(env, f, req, ErrorReplies(env, f, req, o, code, key), ErrorResponse, ErrorBody(code, challenge), key);
    }
  }

  // ---------------------------------------------------------------- request by request

  // A request that does nothing and is refused.
  ghost predicate Rejected(
    env: Env, f: FiveTuple, req: Request, o: Oracle, d: Decision, code: ErrorCode, key: Option<AuthKey>)
  {
    d.effect == NoEffect && Refuses(env, f, req, o, d.replies, code, key)
  }

  // A request that has its effect, and gets a success signed with the key.
  ghost predicate Fulfilled(
    env: Env, f: FiveTuple, req: Request, d: Decision, effect: Effect, body: Body, key: AuthKey)
  {
    d.effect == effect && Says(env, f, req, d.replies, SuccessResponse, body, Some(key))
  }

  /** A Binding request is answered with the address it came from, unsigned; a request of a method the
      server does not know with 400; and one that does not authenticate with its verdict. */
  lemma UnprivilegedAnswers(env: Env, s: State, f: FiveTuple, req: Request, o: Oracle)
    requires ValidEnv(env)
    ensures var d, v := Decide(env, s, f, req, o), Authenticate(env, req, o.unixNow);
            && (req.operation == 0x001 ==>
                  && d.effect == NoEffect
                  && Says(env, f, req, d.replies, SuccessResponse,
                          BindingBody(Endpoint(f.clientAddress, f.clientPort, f.protocol)), None))
            && (req.operation !in {0x001, 0x003, 0x004, 0x008, 0x009} ==>
                  Rejected(env, f, req, o, d, BadRequest, None))
            && (req.operation in {0x003, 0x004, 0x008, 0x009} && v.Refused? ==>
                  Rejected(env, f, req, o, d, v.code, v.signedWith))
  {
    ErrorRefuses(env, f, req, o, BadRequest, None);
    var v := Authenticate(env, req, o.unixNow);
    if v.Refused? {
      ErrorRefuses(env, f, req, o, v.code, v.signedWith);
    }
  }

  /** An authenticated Refresh: 437 without an allocation, 440 if it asks for the family that the server
      relays, and else a success with the lifetime that the allocation has got. */
  lemma RefreshAnswers(env: Env, s: State, f: FiveTuple, req: Request, o: Oracle, key: AuthKey)
    requires ValidEnv(env) && req.operation == 0x004
    requires Authenticate(env, req, o.unixNow) == Granted(key)
    ensures var d, lifetime := Decide(env, s, f, req, o), ComputeLifetime(env, req.lifetime);
            if FindAllocation(s, f).None? then Rejected(env, f, req, o, d, AllocationMismatch, Some(key))
            else if req.requestedFamily == Some(if env.relayIsV4 then IPv4 else IPv6) then
              Rejected(env, f, req, o, d, AddressFamilyNotSupported, Some(key))
            else Fulfilled(env, f, req, d, Refreshed(lifetime), RefreshBody(lifetime), key)
  {
    ErrorRefuses(env, f, req, o, AllocationMismatch, Some(key));
    ErrorRefuses(env, f, req, o, AddressFamilyNotSupported, Some(key));
  }

  ghost predicate AllRelayed(env: Env, peers: seq<PeerAddress>) {
    forall i :: 0 <= i < |peers| ==> peers[i].family == if env.relayIsV4 then IPv4 else IPv6
  }

  /** An authenticated CreatePermission: 437, signed, without an allocation; 400, unsigned, without peers
      or with one of a family that is not relayed; and else a success.  It permits the addresses of all
      its peers, or of those before the first that is not relayed. */
  lemma CreatePermissionAnswers(env: Env, s: State, f: FiveTuple, req: Request, o: Oracle, key: AuthKey)
    requires ValidEnv(env) && req.operation == 0x008
    requires Authenticate(env, req, o.unixNow) == Granted(key)
    ensures var d := Decide(env, s, f, req, o);
            if FindAllocation(s, f).None? then Rejected(env, f, req, o, d, AllocationMismatch, Some(key))
            else if req.peers == [] then Rejected(env, f, req, o, d, BadRequest, None)
            else
              && d.effect.Permitted? && |d.effect.addresses| <= |req.peers|
              && (forall i :: 0 <= i < |d.effect.addresses| ==> IsAddressOf(d.effect.addresses[i], req.peers[i]))
              && (|d.effect.addresses| < |req.peers| ==>
                    req.peers[|d.effect.addresses|].family != if env.relayIsV4 then IPv4 else IPv6)
              && if AllRelayed(env, req.peers)
                 then |d.effect.addresses| == |req.peers|
                      && Fulfilled(env, f, req, d, d.effect, EmptyBody, key)
                 else Refuses(env, f, req, o, d.replies, BadRequest, None)
  {
    ErrorRefuses(env, f, req, o, AllocationMismatch, Some(key));
    ErrorRefuses(env, f, req, o, BadRequest, None);
    PrefixStopsAtUnsupported(env, req.peers);
  }

  /** An authenticated ChannelBind: 437, signed, without an allocation; 400, unsigned, without number or
      peer; 440, signed, for a family that is not relayed; 400, signed, if number or peer is bound
      otherwise; and else a success, with that number bound to that peer. */
  lemma ChannelBindAnswers(env: Env, s: State, f: FiveTuple, req: Request, o: Oracle, key: AuthKey)
    requires ValidEnv(env) && req.operation == 0x009
    requires Authenticate(env, req, o.unixNow) == Granted(key)
    ensures var d := Decide(env, s, f, req, o);
            if FindAllocation(s, f).None? then Rejected(env, f, req, o, d, AllocationMismatch, Some(key))
            else if req.channelNumber.None? || req.peers == [] then Rejected(env, f, req, o, d, BadRequest, None)
            else if req.peers[0].family != (if env.relayIsV4 then IPv4 else IPv6) then
              Rejected(env, f, req, o, d, AddressFamilyNotSupported, Some(key))
            else
              var t, n := s.allocations[FindAllocation(s, f).value].channels, req.channelNumber.value;
              var peer := RelayedEndpoint(env, req.peers[0]);
              if Channels.Bound(t, n, peer) || (n !in t.entries && forall m :: !Channels.Bound(t, m, peer))
              then Fulfilled(env, f, req, d, ChannelBound(n, peer), EmptyBody, key)
              else Rejected(env, f, req, o, d, BadRequest, Some(key))
  {
    ErrorRefuses(env, f, req, o, AllocationMismatch, Some(key));
    ErrorRefuses(env, f, req, o, BadRequest, None);
    ErrorRefuses(env, f, req, o, BadRequest, Some(key));
    ErrorRefuses(env, f, req, o, AddressFamilyNotSupported, Some(key));
    if FindAllocation(s, f).Some? && req.channelNumber.Some? && req.peers != [] {
      var peer := Endpoint(ToAddress(req.peers[0]), req.peers[0].port, UDP);
      AcceptsIff(s.allocations[FindAllocation(s, f).value].channels, req.channelNumber.value, peer);
    }
  }

  // What an authenticated Allocate gets when its attributes are at fault.
  ghost function FaultOf(env: Env, req: Request): Option<ErrorCode> {
    if req.transport.None? then Some(BadRequest)
    else if req.transport != Some(17) then Some(UnsupportedTransport)
    else if req.dontFragment then Some(UnknownAttribute)
    else if AsksForReserved(req) || AsksForNew(env, req) then None
    else if req.reservationToken.None? && !FamilyIsServed(env, req)
            && (req.requestedFamily.None? || req.additionalFamily.None?) then Some(AddressFamilyNotSupported)
    else Some(BadRequest)
  }

  lemma PlanHasFault(env: Env, req: Request)
    ensures match FaultOf(env, req)
            case Some(code) => PlanAllocation(env, req) == Refuse(code)
            case None => !PlanAllocation(env, req).Refuse?
  {
    PlanIsExact(env, req);
  }

  // A success that announces the port, the lifetime and the client's own address.
  ghost predicate Announced(
    env: Env, f: FiveTuple, req: Request, d: Decision, port: nat, token: Option<Token>, key: AuthKey)
  {
    Says(env, f, req, d.replies, SuccessResponse,
         AllocateBody(port, ComputeLifetime(env, req.lifetime), Endpoint(f.clientAddress, f.clientPort, f.protocol),
                      req.additionalFamily.Some?, token), Some(key))
  }

  /** An authenticated Allocate.  With an allocation: the stored success again if it has the request's
      transaction ID, and else 437.  Without: 400, 442, 420 or 440 for its attributes; 508 for a token
      that is not outstanding or when no attempt finds a port; and else a success with the reserved or
      new port, the lifetime, the client's own address, and the token of a reserved second port.  All of
      it is signed. */
  lemma AllocateAnswers(env: Env, s: State, f: FiveTuple, req: Request, o: Oracle, key: AuthKey)
    requires ValidEnv(env) && req.operation == 0x003
    requires Authenticate(env, req, o.unixNow) == Granted(key)
    requires FindAllocation(s, f).Some? ==> |s.allocations[FindAllocation(s, f).value].success| >= 20
    ensures Drawable(env.ports, PolicyOf(req))
    ensures var d := Decide(env, s, f, req, o);
            if FindAllocation(s, f).Some? then
              var stored := s.allocations[FindAllocation(s, f).value].success;
              if stored[8..20] == req.transactionId then
                && d.effect == NoEffect
                && d.replies == [ToClient(stored, Endpoint(f.clientAddress, f.clientPort, f.protocol))]
              else Rejected(env, f, req, o, d, AllocationMismatch, Some(key))
            else if FaultOf(env, req).Some? then Rejected(env, f, req, o, d, FaultOf(env, req).value, Some(key))
            else if AsksForReserved(req) then
              if req.reservationToken.value !in s.reservations then
                Rejected(env, f, req, o, d, InsufficientCapacity, Some(key))
              else
                && d.effect.Claimed? && d.effect.token == req.reservationToken.value
                && Announced(env, f, req, d, s.reservations[req.reservationToken.value], None, key)
            else if !SomeDrawSucceeds(env, s, PolicyOf(req), o) then
              Rejected(env, f, req, o, d, InsufficientCapacity, Some(key))
            else
              && d.effect.Allocated? && d.effect.token == o.token
              && Announced(env, f, req, d, d.effect.relay.primary,
                           if req.evenPort == Some(true) then Some(o.token) else None, key)
  {
    AlwaysDrawable(env.ports, PolicyOf(req));
    PlanHasFault(env, req);
    PlanIsExact(env, req);
    PoolServes(env, s, PolicyOf(req), o);
    AllocateAnnounces(env, s, f, req, o);
    ErrorRefuses(env, f, req, o, AllocationMismatch, Some(key));
    ErrorRefuses(env, f, req, o, InsufficientCapacity, Some(key));
    if FaultOf(env, req).Some? {
      ErrorRefuses(env, f, req, o, FaultOf(env, req).value, Some(key));
    }
  }

  // ---------------------------------------------------------------- successes

  lemma SaysIsAnswer(
    env: Env, f: FiveTuple, req: Request, replies: seq<Output>, c: Class, body: Body, key: Option<AuthKey>)
    requires Says(env, f, req, replies, c, body, key)
    ensures Answers(replies, f, req, c)
    ensures c == ErrorResponse ==> !Answers(replies, f, req, SuccessResponse)
  {
    HeaderRoundTrip(env.codec, Message(c, req.operation, req.transactionId, body, key));
  }

  lemma RefusalIsNoSuccess(
    env: Env, f: FiveTuple, req: Request, o: Oracle, replies: seq<Output>, code: ErrorCode, key: Option<AuthKey>)
    requires Refuses(env, f, req, o, replies, code, key)
    ensures !Answers(replies, f, req, SuccessResponse)
  {
    if o.builderValid {
      var challenge :| Says(env, f, req, replies, ErrorResponse, ErrorBody(code, challenge), key);
      SaysIsAnswer(env, f, req, replies, ErrorResponse, ErrorBody(code, challenge), key);
    }
  }

  // Either a refusal, or the success of a request that is not refused.
  ghost predicate Settled(env: Env, f: FiveTuple, req: Request, o: Oracle, replies: seq<Output>, success: bool) {
    if success then exists body, key :: Says(env, f, req, replies, SuccessResponse, body, key)
    else exists code, key :: Refuses(env, f, req, o, replies, code, key)
  }

  lemma SettledIsAnswer(env: Env, f: FiveTuple, req: Request, o: Oracle, replies: seq<Output>, success: bool)
    requires Settled(env, f, req, o, replies, success)
    ensures Answers(replies, f, req, SuccessResponse) <==> success
  {
    if success {
      var body, key :| Says(env, f, req, replies, SuccessResponse, body, key);
      SaysIsAnswer(env, f, req, replies, SuccessResponse, body, key);
    } else {
      var code, key :| Refuses(env, f, req, o, replies, code, key);
      RefusalIsNoSuccess(env, f, req, o, replies, code, key);
    }
  }

  // An authenticated Allocate for an allocation that the same request has made.
  ghost predicate Replayed(env: Env, s: State, f: FiveTuple, req: Request, o: Oracle) {
    && req.operation == 0x003 && Authenticate(env, req, o.unixNow).Granted?
    && FindAllocation(s, f).Some?
    && var stored := s.allocations[FindAllocation(s, f).value].success;
       |stored| >= 20 && stored[8..20] == req.transactionId
  }

  // It has an effect, and for CreatePermission the whole of it.
  ghost predicate TakesWholeEffect(env: Env, s: State, f: FiveTuple, req: Request, o: Oracle)
    requires ValidEnv(env)
  {
    Decide(env, s, f, req, o).effect != NoEffect && (req.operation == 0x008 ==> AllRelayed(env, req.peers))
  }

  lemma GrantedIsSettled(env: Env, s: State, f: FiveTuple, req: Request, o: Oracle, key: AuthKey)
    requires ValidEnv(env) && req.operation in {0x003, 0x004, 0x008, 0x009}
    requires Authenticate(env, req, o.unixNow) == Granted(key) && !Replayed(env, s, f, req, o)
    requires FindAllocation(s, f).Some? ==> |s.allocations[FindAllocation(s, f).value].success| >= 20
    ensures Settled(env, f, req, o, Decide(env, s, f, req, o).replies, TakesWholeEffect(env, s, f, req, o))
  {
    if req.operation == 0x003 {
      AllocateAnswers(env, s, f, req, o, key);
    } else if req.operation == 0x004 {
      RefreshAnswers(env, s, f, req, o, key);
    } else if req.operation == 0x008 {
      CreatePermissionAnswers(env, s, f, req, o, key);
    } else {
      ChannelBindAnswers(env, s, f, req, o, key);
    }
  }

  lemma ReplayIsAnswer(env: Env, s: State, f: FiveTuple, req: Request, o: Oracle)
    requires ValidEnv(env) && Replayed(env, s, f, req, o)
    requires IsAllocateSuccess(s.allocations[FindAllocation(s, f).value].success)
    ensures Answers(Decide(env, s, f, req, o).replies, f, req, SuccessResponse)
  {
  }

  lemma StoredSuccess(env: Env, s: State, f: FiveTuple)
    requires ServerInv(env, s) && FindAllocation(s, f).Some?
    ensures IsAllocateSuccess(s.allocations[FindAllocation(s, f).value].success)
  {
    assert AllocationInv(s.allocations[FindAllocation(s, f).value], s.now);
  }

  /** In every reachable state a request is answered with a success if and only if it is a Binding
      request, or takes its whole effect, or repeats the Allocate that has made the allocation. */
  lemma SuccessIff(env: Env, s: State, f: FiveTuple, req: Request, o: Oracle)
    requires ValidEnv(env) && ServerInv(env, s)
    ensures Answers(Outputs(env, s, Received(f, StunRequest(req), o)), f, req, SuccessResponse) <==>
              || req.operation == 0x001
              || TakesWholeEffect(env, s, f, req, o)
              || Replayed(env, s, f, req, o)
  {
    if FindAllocation(s, f).Some? {
      StoredSuccess(env, s, f);
    }
    SuccessIffStored(env, s, f, req, o);
  }

  lemma SuccessIffStored(env: Env, s: State, f: FiveTuple, req: Request, o: Oracle)
    requires ValidEnv(env)
    requires FindAllocation(s, f).Some? ==> IsAllocateSuccess(s.allocations[FindAllocation(s, f).value].success)
    ensures Answers(Decide(env, s, f, req, o).replies, f, req, SuccessResponse) <==>
              || req.operation == 0x001
              || TakesWholeEffect(env, s, f, req, o)
              || Replayed(env, s, f, req, o)
  {
    var replies, v := Decide(env, s, f, req, o).replies, Authenticate(env, req, o.unixNow);
    if Replayed(env, s, f, req, o) {
      ReplayIsAnswer(env, s, f, req, o);
    } else if req.operation in {0x003, 0x004, 0x008, 0x009} && v.Granted? {
      GrantedIsSettled(env, s, f, req, o, v.key);
      SettledIsAnswer(env, f, req, o, replies, TakesWholeEffect(env, s, f, req, o));
    } else {
      UnprivilegedAnswers(env, s, f, req, o);
      SettledIsAnswer(env, f, req, o, replies, req.operation == 0x001);
    }
  }
}
