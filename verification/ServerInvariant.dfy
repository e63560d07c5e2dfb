/** The invariant of every reachable state, and its preservation by every step. */
module ServerInvariant {
  import opened Common
  import opened Stun
  import opened Timers
  import opened RelayPorts
  import opened Server
  import Permissions
  import Channels

  // ---------------------------------------------------------------- the parts

  ghost predicate InRange(r: PortRange, port: nat) {
    r.min <= port <= r.max
  }

  // A reserved port is odd and the even port below it is in the range too.
  ghost predicate Reservable(r: PortRange, port: nat) {
    port % 2 == 1 && r.min <= port - 1 && port <= r.max
  }

  // Somebody holds the socket bound to `port`.
  ghost predicate Held(ports: map<nat, nat>, reserved: map<Token, nat>, port: nat) {
    || (exists id :: id in ports && ports[id] == port)
    || (exists t :: t in reserved && reserved[t] == port)
  }

  // Ports have exactly one holder each, and no socket is bound without a holder.
  ghost predicate PortsInv(r: PortRange, ports: map<nat, nat>, reserved: map<Token, nat>, bound: set<nat>) {
    && (forall id :: id in ports ==> InRange(r, ports[id]) && ports[id] in bound)
    && (forall t :: t in reserved ==> Reservable(r, reserved[t]) && reserved[t] in bound)
    && (forall i, j :: i in ports && j in ports && ports[i] == ports[j] ==> i == j)
    && (forall t, u :: t in reserved && u in reserved && reserved[t] == reserved[u] ==> t == u)
    && (forall i, t :: i in ports && t in reserved ==> ports[i] != reserved[t])
    && (forall p :: p in bound ==> Held(ports, reserved, p))
  }

  function PortsOf(s: State): map<nat, nat> {
    map id | id in s.allocations :: s.allocations[id].port
  }

  function OwnersOf(s: State): map<nat, FiveTuple> {
    map id | id in s.allocations :: s.allocations[id].fiveTuple
  }

  // A stored success message of an Allocate request.
  ghost predicate IsAllocateSuccess(bytes: seq<Byte>) {
    |bytes| >= HEADER_SIZE && MethodOf(bytes) == ALLOCATE && ClassBitsOf(bytes) == ClassBits(SuccessResponse)
  }

  ghost predicate AllocationInv(a: Allocation, now: int) {
    && IsAllocateSuccess(a.success)
    && Inv(a.permissions, now)
    && Channels.ChannelInv(a.channels, now)
  }

  function LifetimeCap(env: Env): int {
    Max(env.allocationLifetime, env.maxAllocationLifetime)
  }

  // Every session has its allocation, its timer covered, and no more than the longest lifetime left.
  ghost predicate SessionsInv(cap: int, t: Table<FiveTuple, ()>, owners: map<nat, FiveTuple>, now: int) {
    && Inv(t, now)
    && (forall f :: f in t.entries ==>
          && t.entries[f].timer in owners
          && owners[t.entries[f].timer] == f
          && t.entries[f].expiry <= After(now, cap))
    && (forall id :: id in owners ==> id < t.pending.next)
  }

  ghost predicate AllocationsInv(allocations: map<nat, Allocation>, now: int) {
    forall id :: id in allocations ==> AllocationInv(allocations[id], now)
  }

  ghost predicate ServerInv(env: Env, s: State) {
    && SessionsInv(LifetimeCap(env), s.sessions, OwnersOf(s), s.now)
    && AllocationsInv(s.allocations, s.now)
    && PortsInv(env.ports, PortsOf(s), s.reservations, s.bound)
  }

  // ---------------------------------------------------------------- what handlers may decide

  ghost predicate SoundRelay(r: PortRange, s: State, relay: Relay, token: Token) {
    && InRange(r, relay.primary) && relay.primary !in s.bound
    && (relay.secondary.Some? ==>
          && relay.secondary.value == relay.primary + 1
          && Reservable(r, relay.secondary.value)
          && relay.secondary.value !in s.bound
          && token !in s.reservations)
  }

  ghost predicate Sound(env: Env, s: State, f: FiveTuple, effect: Effect) {
    match effect
    case NoEffect => true
    case Allocated(relay, token, lifetime, success) =>
      FindAllocation(s, f).None? && SoundRelay(env.ports, s, relay, token)
      && lifetime <= LifetimeCap(env) && IsAllocateSuccess(success)
    case Claimed(token, lifetime, success) =>
      FindAllocation(s, f).None? && token in s.reservations
      && lifetime <= LifetimeCap(env) && IsAllocateSuccess(success)
    case Refreshed(lifetime) => FindAllocation(s, f).Some? && lifetime <= LifetimeCap(env)
    case Permitted(_) => FindAllocation(s, f).Some?
    case ChannelBound(number, peer) =>
      FindAllocation(s, f).Some?
      && Channels.Accepts(s.allocations[FindAllocation(s, f).value].channels, number, peer)
  }

  lemma AllocateSuccessIsOne(env: Env, f: FiveTuple, req: Request, key: AuthKey, port: nat, lifetime: int,
                             refused: bool, token: Option<Token>)
    requires req.operation == ALLOCATE
    ensures IsAllocateSuccess(AllocateSuccess(env, f, req, key, port, lifetime, refused, token))
  {
    HeaderRoundTrip(env.codec,
                    Success(req, AllocateBody(port, lifetime, f.ClientEndpoint(), refused, token), key));
  }

  lemma NewAllocationIsSound(env: Env, s: State, f: FiveTuple, req: Request, o: Oracle, key: AuthKey)
    requires ValidEnv(env) && o.token !in s.reservations && FindAllocation(s, f).None? && req.operation == ALLOCATE
    ensures Sound(env, s, f, DecideNewAllocation(env, s, f, req, o, key).effect)
  {
    var lifetime := ComputeLifetime(env, req.lifetime);
    match PlanAllocation(env, req)
    case Refuse(_) =>
    case FromReservation(token) =>
      if token in s.reservations {
        AllocateSuccessIsOne(env, f, req, key, s.reservations[token], lifetime, false, None);
      }
    case FromPool(policy, refused) =>
      PoolRelayIsSound(env.ports, policy, s, o);
      if relay :| Generate(env.ports, policy, s.bound, o.draws) == Some(relay) {
        var token := if relay.secondary.Some? then Some(o.token) else None;
        AllocateSuccessIsOne(env, f, req, key, relay.primary, lifetime, refused, token);
      }
  }

  lemma FitsIsSound(r: PortRange, policy: PortPolicy, s: State, relay: Relay, token: Token)
    requires Fits(r, policy, s.bound, relay) && token !in s.reservations
    ensures SoundRelay(r, s, relay, token)
  {
    if ReserveNext(policy) {
      assert (relay.primary + 1) % 2 == 1;
    }
  }

  lemma PoolRelayIsSound(r: PortRange, policy: PortPolicy, s: State, o: Oracle)
    requires RelayPorts.Valid(r) && 0 < r.min && HasEvenPort(r) && o.token !in s.reservations
    ensures Drawable(r, policy)
    ensures Generate(r, policy, s.bound, o.draws).Some? ==>
              SoundRelay(r, s, Generate(r, policy, s.bound, o.draws).value, o.token)
  {
    AlwaysDrawable(r, policy);
    GeneratedFits(r, policy, s.bound, o.draws);
    if relay :| Generate(r, policy, s.bound, o.draws) == Some(relay) {
      FitsIsSound(r, policy, s, relay, o.token);
    }
  }

  lemma DecideIsSound(env: Env, s: State, f: FiveTuple, req: Request, o: Oracle)
    requires ValidEnv(env) && o.token !in s.reservations
    ensures Sound(env, s, f, Decide(env, s, f, req, o).effect)
  {
    if req.operation == ALLOCATE && FindAllocation(s, f).None? {
      match Authenticate(env, req, o.unixNow)
      case Refused(_, _) =>
      case Granted(key) => NewAllocationIsSound(env, s, f, req, o, key);
    }
  }

  // ---------------------------------------------------------------- preservation by effects

  lemma {:induction false} AddAllInv(t: Permissions.PermissionTable, addresses: seq<Address>, expiry: int, now: int)
    requires Inv(t, now)
    ensures Inv(AddAll(t, addresses, expiry), now)
  {
    if addresses != [] {
      AddAllInv(t, addresses[..|addresses|-1], expiry, now);
      Permissions.AddInv(AddAll(t, addresses[..|addresses|-1], expiry), addresses[|addresses|-1], expiry, now);
    }
  }

  // The invariant from its parts, given what the maps of ports and owners have become.
  lemma Assemble(env: Env, u: State, owners: map<nat, FiveTuple>, ports: map<nat, nat>)
    requires OwnersOf(u) == owners && PortsOf(u) == ports
    requires SessionsInv(LifetimeCap(env), u.sessions, owners, u.now)
    requires AllocationsInv(u.allocations, u.now)
    requires PortsInv(env.ports, ports, u.reservations, u.bound)
    ensures ServerInv(env, u)
  {
  }

  lemma ReplaceOne(allocations: map<nat, Allocation>, id: nat, a: Allocation, now: int)
    requires AllocationsInv(allocations, now) && AllocationInv(a, now)
    ensures AllocationsInv(allocations[id := a], now)
  {
  }

  // Only the allocations' tables differ.
  lemma SameMaps(s: State, u: State)
    requires s.allocations.Keys == u.allocations.Keys
    requires forall id :: id in s.allocations ==>
               && u.allocations[id].port == s.allocations[id].port
               && u.allocations[id].fiveTuple == s.allocations[id].fiveTuple
    ensures OwnersOf(u) == OwnersOf(s) && PortsOf(u) == PortsOf(s)
  {
  }

  lemma ReplaceMaps(s: State, id: nat, a: Allocation)
    requires id in s.allocations
    requires a.port == s.allocations[id].port && a.fiveTuple == s.allocations[id].fiveTuple
    ensures var u := WithAllocation(s, id, a); OwnersOf(u) == OwnersOf(s) && PortsOf(u) == PortsOf(s)
  {
    SameMaps(s, WithAllocation(s, id, a));
  }

  // Replacing one allocation by another on the same port and five-tuple.
  lemma ReplaceInv(env: Env, s: State, id: nat, a: Allocation)
    requires ServerInv(env, s) && id in s.allocations
    requires AllocationInv(a, s.now) && a.port == s.allocations[id].port && a.fiveTuple == s.allocations[id].fiveTuple
    ensures ServerInv(env, WithAllocation(s, id, a))
  {
    ReplaceOne(s.allocations, id, a, s.now);
    ReplaceMaps(s, id, a);
    Assemble(env, WithAllocation(s, id, a), OwnersOf(s), PortsOf(s));
  }

  // A bound port that nobody holds gets its holder.
  lemma HoldPort(r: PortRange, ports: map<nat, nat>, reserved: map<Token, nat>, bound: set<nat>, id: nat, port: nat)
    requires PortsInv(r, ports, reserved, bound - {port}) && port in bound && id !in ports && InRange(r, port)
    ensures PortsInv(r, ports[id := port], reserved, bound)
  {
    var more := ports[id := port];
    forall p | p in bound
      ensures Held(more, reserved, p)
    {
      if p == port {
        assert more[id] == p;
      } else {
        assert Held(ports, reserved, p);
        if i :| i in ports && ports[i] == p {
          assert i in more && more[i] == p;
        }
      }
    }
  }

  lemma ReservePort(
    r: PortRange, ports: map<nat, nat>, reserved: map<Token, nat>, bound: set<nat>, token: Token, port: nat)
    requires PortsInv(r, ports, reserved, bound) && port !in bound && token !in reserved && Reservable(r, port)
    ensures PortsInv(r, ports, reserved[token := port], bound + {port})
  {
    var more := reserved[token := port];
    forall p | p in bound + {port}
      ensures Held(ports, more, p)
    {
      if p == port {
        assert more[token] == p;
      } else {
        assert Held(ports, reserved, p);
        if t :| t in reserved && reserved[t] == p {
          assert t in more && more[t] == p;
        }
      }
    }
  }

  lemma ReleasePort(r: PortRange, ports: map<nat, nat>, reserved: map<Token, nat>, bound: set<nat>, id: nat)
    requires PortsInv(r, ports, reserved, bound) && id in ports
    ensures PortsInv(r, ports - {id}, reserved, bound - {ports[id]})
  {
    var fewer := ports - {id};
    forall p | p in bound - {ports[id]}
      ensures Held(fewer, reserved, p)
    {
      assert Held(ports, reserved, p);
      if i :| i in ports && ports[i] == p {
        assert i in fewer && fewer[i] == p;
      }
    }
  }

  lemma UnreservePort(r: PortRange, ports: map<nat, nat>, reserved: map<Token, nat>, bound: set<nat>, token: Token)
    requires PortsInv(r, ports, reserved, bound) && token in reserved
    ensures PortsInv(r, ports, reserved - {token}, bound - {reserved[token]})
    ensures reserved[token] in bound && InRange(r, reserved[token])
  {
    var fewer := reserved - {token};
    forall p | p in bound - {reserved[token]}
      ensures Held(ports, fewer, p)
    {
      assert Held(ports, reserved, p);
      if t :| t in reserved && reserved[t] == p {
        assert t in fewer && fewer[t] == p;
      }
    }
  }

  lemma AdmitSession(
    cap: int, t: Table<FiveTuple, ()>, owners: map<nat, FiveTuple>, now: int, f: FiveTuple, expiry: int)
    requires SessionsInv(cap, t, owners, now) && f !in t.entries && expiry <= After(now, cap)
    ensures SessionsInv(cap, Insert(t, f, (), expiry), owners[t.pending.next := f], now)
  {
    InsertInv(t, f, (), expiry, now);
  }

  lemma AdmitMaps(s: State, f: FiveTuple, port: nat, lifetime: int, success: seq<Byte>)
    ensures var u := Admit(s, f, port, lifetime, success);
            && OwnersOf(u) == OwnersOf(s)[s.sessions.pending.next := f]
            && PortsOf(u) == PortsOf(s)[s.sessions.pending.next := port]
  {
  }

  lemma AdmitAllocation(s: State, f: FiveTuple, port: nat, lifetime: int, success: seq<Byte>)
    requires AllocationsInv(s.allocations, s.now) && IsAllocateSuccess(success)
    ensures AllocationsInv(Admit(s, f, port, lifetime, success).allocations, s.now)
  {
    var a := Allocation(f, port, success, Empty(), Empty());
    EmptyInv<Address, ()>(s.now);
    EmptyInv<nat, Endpoint>(s.now);
    ReplaceOne(s.allocations, s.sessions.pending.next, a, s.now);
  }

  // A new allocation on a bound port that nobody holds.
  lemma AdmitInv(env: Env, s: State, f: FiveTuple, port: nat, lifetime: int, success: seq<Byte>)
    requires SessionsInv(LifetimeCap(env), s.sessions, OwnersOf(s), s.now) && AllocationsInv(s.allocations, s.now)
    requires f !in s.sessions.entries && lifetime <= LifetimeCap(env) && IsAllocateSuccess(success)
    requires PortsInv(env.ports, PortsOf(s), s.reservations, s.bound - {port})
    requires InRange(env.ports, port) && port in s.bound
    ensures ServerInv(env, Admit(s, f, port, lifetime, success))
  {
    var u := Admit(s, f, port, lifetime, success);
    var id := s.sessions.pending.next;
    AdmitSession(LifetimeCap(env), s.sessions, OwnersOf(s), s.now, f, After(s.now, lifetime));
    AdmitAllocation(s, f, port, lifetime, success);
    AdmitMaps(s, f, port, lifetime, success);
    UnusedId(LifetimeCap(env), s.sessions, OwnersOf(s), s.now, PortsOf(s));
    HoldPort(env.ports, PortsOf(s), s.reservations, s.bound, id, port);
    Assemble(env, u, OwnersOf(s)[id := f], PortsOf(s)[id := port]);
  }

  lemma UnusedId(cap: int, t: Table<FiveTuple, ()>, owners: map<nat, FiveTuple>, now: int, ports: map<nat, nat>)
    requires SessionsInv(cap, t, owners, now) && ports.Keys == owners.Keys
    ensures t.pending.next !in ports
  {
  }

  lemma AllocatedInv(env: Env, s: State, f: FiveTuple, relay: Relay, token: Token, lifetime: int, success: seq<Byte>)
    requires ServerInv(env, s) && Sound(env, s, f, Allocated(relay, token, lifetime, success))
    ensures ServerInv(env, Apply(env, s, f, Allocated(relay, token, lifetime, success)))
  {
    var held := Hold(s, relay, token);
    SameMaps(s, held);
    NotFound(env, s, f);
    if relay.secondary.Some? {
      ReservePort(env.ports, PortsOf(s), s.reservations, s.bound, token, relay.secondary.value);
      assert held.bound - {relay.primary} == s.bound + {relay.secondary.value};
    } else {
      assert held.bound - {relay.primary} == s.bound;
    }
    AdmitInv(env, held, f, relay.primary, lifetime, success);
  }

  lemma ClaimedInv(env: Env, s: State, f: FiveTuple, token: Token, lifetime: int, success: seq<Byte>)
    requires ServerInv(env, s) && Sound(env, s, f, Claimed(token, lifetime, success))
    ensures ServerInv(env, Apply(env, s, f, Claimed(token, lifetime, success)))
  {
    var held := s.(reservations := s.reservations - {token});
    SameMaps(s, held);
    NotFound(env, s, f);
    UnreservePort(env.ports, PortsOf(s), s.reservations, s.bound, token);
    AdmitInv(env, held, f, s.reservations[token], lifetime, success);
  }

  // In a reachable state a five-tuple without an allocation is not in the session map.
  lemma NotFound(env: Env, s: State, f: FiveTuple)
    requires ServerInv(env, s)
    ensures FindAllocation(s, f).None? <==> f !in s.sessions.entries
    ensures FindAllocation(s, f).Some? ==> s.allocations[FindAllocation(s, f).value].fiveTuple == f
  {
    assert f in s.sessions.entries ==> s.sessions.entries[f].timer in OwnersOf(s);
  }

  lemma RearmSession(
    cap: int, t: Table<FiveTuple, ()>, owners: map<nat, FiveTuple>, now: int, f: FiveTuple, expiry: int)
    requires SessionsInv(cap, t, owners, now) && f in t.entries && expiry <= After(now, cap)
    ensures SessionsInv(cap, Rearm(t, f, expiry), owners, now)
  {
    RearmInv(t, f, expiry, now);
  }

  lemma RefreshedInv(env: Env, s: State, f: FiveTuple, lifetime: int)
    requires ServerInv(env, s) && Sound(env, s, f, Refreshed(lifetime))
    ensures ServerInv(env, Apply(env, s, f, Refreshed(lifetime)))
  {
    RearmSession(LifetimeCap(env), s.sessions, OwnersOf(s), s.now, f, After(s.now, lifetime));
    SessionsPreserve(env, s, Rearm(s.sessions, f, After(s.now, lifetime)));
  }

  lemma PermittedInv(env: Env, s: State, f: FiveTuple, addresses: seq<Address>)
    requires ServerInv(env, s) && Sound(env, s, f, Permitted(addresses))
    ensures ServerInv(env, Apply(env, s, f, Permitted(addresses)))
  {
    var id := FindAllocation(s, f).value;
    AddAllInv(s.allocations[id].permissions, addresses, After(s.now, env.permissionLifetime), s.now);
    ReplaceInv(env, s, id, Permit(env, s.now, s.allocations[id], addresses));
  }

  lemma ChannelBoundInv(env: Env, s: State, f: FiveTuple, number: nat, peer: Endpoint)
    requires ServerInv(env, s) && Sound(env, s, f, ChannelBound(number, peer))
    ensures ServerInv(env, Apply(env, s, f, ChannelBound(number, peer)))
  {
    var id := FindAllocation(s, f).value;
    var a := s.allocations[id];
    BindInv(env, s.now, a, number, peer);
    ReplaceInv(env, s, id, Bind(env, s.now, a, number, peer));
  }

  lemma TablesInv(a: Allocation, p: Permissions.PermissionTable, c: Channels.ChannelTable, now: int)
    requires AllocationInv(a, now) && Inv(p, now) && Channels.ChannelInv(c, now)
    ensures AllocationInv(a.(channels := c, permissions := p), now)
  {
  }

  lemma BindInv(env: Env, now: int, a: Allocation, number: nat, peer: Endpoint)
    requires AllocationInv(a, now)
    ensures AllocationInv(Bind(env, now, a, number, peer), now)
  {
    var p := Permissions.Add(a.permissions, peer.address, After(now, env.permissionLifetime));
    var c := Channels.Add(a.channels, number, peer, After(now, env.channelLifetime));
    Permissions.AddInv(a.permissions, peer.address, After(now, env.permissionLifetime), now);
    Channels.AddInv(a.channels, number, peer, After(now, env.channelLifetime), now);
    TablesInv(a, p, c, now);
  }

  lemma ApplyInv(env: Env, s: State, f: FiveTuple, effect: Effect)
    requires ServerInv(env, s) && Sound(env, s, f, effect)
    ensures ServerInv(env, Apply(env, s, f, effect))
  {
    match effect
    case NoEffect =>
    case Allocated(relay, token, lifetime, success) => AllocatedInv(env, s, f, relay, token, lifetime, success);
    case Claimed(token, lifetime, success) => ClaimedInv(env, s, f, token, lifetime, success);
    case Refreshed(lifetime) => RefreshedInv(env, s, f, lifetime);
    case Permitted(addresses) => PermittedInv(env, s, f, addresses);
    case ChannelBound(number, peer) => ChannelBoundInv(env, s, f, number, peer);
  }

  // ---------------------------------------------------------------- preservation by steps

  lemma AllocationTick(a: Allocation, now: int, later: int)
    requires AllocationInv(a, now) && now <= later
    ensures AllocationInv(a, later)
  {
    TickInv(a.permissions, now, later);
    TickInv(a.channels, now, later);
  }

  lemma SessionsTick(cap: int, t: Table<FiveTuple, ()>, owners: map<nat, FiveTuple>, now: int, later: int)
    requires SessionsInv(cap, t, owners, now) && now <= later
    ensures SessionsInv(cap, t, owners, later)
  {
    TickInv(t, now, later);
  }

  lemma TickPreserves(env: Env, s: State, elapsed: nat)
    requires ServerInv(env, s)
    ensures ServerInv(env, s.(now := s.now + elapsed))
  {
    var u := s.(now := s.now + elapsed);
    SessionsTick(LifetimeCap(env), s.sessions, OwnersOf(s), s.now, u.now);
    forall id | id in u.allocations
      ensures AllocationInv(u.allocations[id], u.now)
    {
      AllocationTick(s.allocations[id], s.now, u.now);
    }
    SameMaps(s, u);
    Assemble(env, u, OwnersOf(s), PortsOf(s));
  }

  // The sessions table loses waits or entries.
  lemma SessionsShrink(
    cap: int, t: Table<FiveTuple, ()>, u: Table<FiveTuple, ()>, owners: map<nat, FiveTuple>, now: int)
    requires SessionsInv(cap, t, owners, now) && Inv(u, now) && u.pending.next == t.pending.next
    requires forall f :: f in u.entries ==> f in t.entries && u.entries[f] == t.entries[f]
    ensures SessionsInv(cap, u, owners, now)
  {
  }

  lemma SessionsPreserve(env: Env, s: State, t: Table<FiveTuple, ()>)
    requires ServerInv(env, s) && SessionsInv(LifetimeCap(env), t, OwnersOf(s), s.now)
    ensures ServerInv(env, s.(sessions := t))
  {
    SameMaps(s, s.(sessions := t));
    Assemble(env, s.(sessions := t), OwnersOf(s), PortsOf(s));
  }

  lemma SessionHandlerRuns(cap: int, t: Table<FiveTuple, ()>, owners: map<nat, FiveTuple>, now: int, i: nat)
    requires SessionsInv(cap, t, owners, now)
    ensures SessionsInv(cap, Complete(t, i, now, Shared), owners, now)
  {
    CompleteInv(t, i, now, Shared);
    SessionsShrink(cap, t, Complete(t, i, now, Shared), owners, now);
  }

  lemma SessionFiresPreserves(env: Env, s: State, i: nat)
    requires ServerInv(env, s)
    ensures ServerInv(env, s.(sessions := Fire(s.sessions, i, s.now)))
  {
    FireInv(s.sessions, i, s.now);
    SessionsShrink(LifetimeCap(env), s.sessions, Fire(s.sessions, i, s.now), OwnersOf(s), s.now);
    SessionsPreserve(env, s, Fire(s.sessions, i, s.now));
  }

  lemma SessionHandlerPreserves(env: Env, s: State, i: nat)
    requires ServerInv(env, s)
    ensures ServerInv(env, s.(sessions := Complete(s.sessions, i, s.now, Shared)))
  {
    SessionHandlerRuns(LifetimeCap(env), s.sessions, OwnersOf(s), s.now, i);
    SessionsPreserve(env, s, Complete(s.sessions, i, s.now, Shared));
  }

  // A timer event inside one allocation.
  lemma InsideAllocation(a: Allocation, i: nat, now: int)
    requires AllocationInv(a, now)
    ensures AllocationInv(a.(permissions := Fire(a.permissions, i, now)), now)
    ensures AllocationInv(a.(permissions := Complete(a.permissions, i, now, Owned)), now)
    ensures AllocationInv(a.(channels := Fire(a.channels, i, now)), now)
    ensures AllocationInv(a.(channels := Complete(a.channels, i, now, Owned)), now)
  {
    FireInv(a.permissions, i, now);
    CompleteInv(a.permissions, i, now, Owned);
    FireInv(a.channels, i, now);
    CompleteInv(a.channels, i, now, Owned);
  }

  // It replaces that allocation by another on the same port and five-tuple.
  lemma TableEvent(env: Env, s: State, e: Event) returns (a: Allocation)
    requires ValidEnv(env)
    requires e.PermissionFires? || e.PermissionHandler? || e.ChannelFires? || e.ChannelHandler?
    requires e.id in s.allocations && AllocationInv(s.allocations[e.id], s.now)
    ensures Step(env, s, e) == WithAllocation(s, e.id, a)
    ensures AllocationInv(a, s.now)
    ensures a.port == s.allocations[e.id].port && a.fiveTuple == s.allocations[e.id].fiveTuple
  {
    a := Step(env, s, e).allocations[e.id];
    InsideAllocation(s.allocations[e.id], e.wait, s.now);
  }

  lemma TableEventPreserves(env: Env, s: State, e: Event)
    requires ValidEnv(env) && ServerInv(env, s)
    requires e.PermissionFires? || e.PermissionHandler? || e.ChannelFires? || e.ChannelHandler?
    ensures ServerInv(env, Step(env, s, e))
  {
    if e.id in s.allocations {
      var a := TableEvent(env, s, e);
      ReplaceInv(env, s, e.id, a);
    }
  }

  lemma SessionsWithout(cap: int, t: Table<FiveTuple, ()>, owners: map<nat, FiveTuple>, now: int, id: nat)
    requires SessionsInv(cap, t, owners, now)
    requires forall f :: f in t.entries ==> t.entries[f].timer != id
    ensures SessionsInv(cap, t.(pending := CancelTimer(t.pending, id)), owners - {id}, now)
  {
    CancelStrayInv(t, id, now);
  }

  lemma MapsWithout(s: State, u: State, id: nat)
    requires u.allocations == s.allocations - {id}
    ensures OwnersOf(u) == OwnersOf(s) - {id} && PortsOf(u) == PortsOf(s) - {id}
  {
  }

  lemma ReaderEndsPreserves(env: Env, s: State, id: nat)
    requires ServerInv(env, s) && id in s.allocations && Orphaned(s, id)
    ensures ServerInv(env, Release(s, id))
  {
    var u := Release(s, id);
    SessionsWithout(LifetimeCap(env), s.sessions, OwnersOf(s), s.now, id);
    ReleasePort(env.ports, PortsOf(s), s.reservations, s.bound, id);
    MapsWithout(s, u, id);
    Assemble(env, u, OwnersOf(s) - {id}, PortsOf(s) - {id});
  }

  lemma ReservationExpiresPreserves(env: Env, s: State, token: Token)
    requires ServerInv(env, s) && token in s.reservations
    ensures ServerInv(env, s.(reservations := s.reservations - {token}, bound := s.bound - {s.reservations[token]}))
  {
    var u := s.(reservations := s.reservations - {token}, bound := s.bound - {s.reservations[token]});
    UnreservePort(env.ports, PortsOf(s), s.reservations, s.bound, token);
    SameMaps(s, u);
    Assemble(env, u, OwnersOf(s), PortsOf(s));
  }

  lemma RequestPreserves(env: Env, s: State, f: FiveTuple, req: Request, o: Oracle)
    requires ValidEnv(env) && ServerInv(env, s) && o.token !in s.reservations
    ensures ServerInv(env, Apply(env, s, f, Decide(env, s, f, req, o).effect))
  {
    DecideIsSound(env, s, f, req, o);
    ApplyInv(env, s, f, Decide(env, s, f, req, o).effect);
  }

  // Sockets let go.
  lemma ReaderEndsStep(env: Env, s: State, id: nat)
    requires ValidEnv(env)
    ensures var u := Step(env, s, ReaderEnds(id));
            u == s || (id in s.allocations && Orphaned(s, id) && u == Release(s, id))
  {
  }

  lemma ReleasedInv(env: Env, s: State, u: State, id: nat)
    requires ServerInv(env, s)
    requires u == s || (id in s.allocations && Orphaned(s, id) && u == Release(s, id))
    ensures ServerInv(env, u)
  {
    if u != s {
      ReaderEndsPreserves(env, s, id);
    }
  }

  lemma ReservationExpiresStep(env: Env, s: State, token: Token)
    requires ValidEnv(env) && ServerInv(env, s)
    ensures ServerInv(env, Step(env, s, ReservationExpires(token)))
  {
    if token in s.reservations {
      ReservationExpiresPreserves(env, s, token);
    } else {
      assert Step(env, s, ReservationExpires(token)) == s;
    }
  }

  // Time and the timers of sessions.
  lemma TimePreserves(env: Env, s: State, e: Event)
    requires ValidEnv(env) && ServerInv(env, s)
    requires e.Tick? || e.SessionFires? || e.SessionHandler?
    ensures ServerInv(env, Step(env, s, e))
  {
    match e
    case Tick(d) =>
      TickPreserves(env, s, d);
      assert Step(env, s, e) == s.(now := s.now + d);
    case SessionFires(i) =>
      SessionFiresPreserves(env, s, i);
      assert Step(env, s, e) == s.(sessions := Fire(s.sessions, i, s.now));
    case SessionHandler(i) =>
      SessionHandlerPreserves(env, s, i);
      assert Step(env, s, e) == s.(sessions := Complete(s.sessions, i, s.now, Shared));
  }

  lemma DatagramPreserves(env: Env, s: State, e: Event)
    requires ValidEnv(env) && ServerInv(env, s) && Legal(s, e)
    requires e.Received? || e.PeerDatagram?
    ensures ServerInv(env, Step(env, s, e))
  {
    if e.Received? && e.packet.StunRequest? {
      RequestPreserves(env, s, e.from, e.packet.request, e.oracle);
    }
  }

  /** Every step keeps the invariant. */
  lemma StepInv(env: Env, s: State, e: Event)
    requires ValidEnv(env) && ServerInv(env, s) && Legal(s, e)
    ensures ServerInv(env, Step(env, s, e))
  {
    if e.Received? || e.PeerDatagram? {
      DatagramPreserves(env, s, e);
    } else if e.PermissionFires? || e.PermissionHandler? || e.ChannelFires? || e.ChannelHandler? {
      TableEventPreserves(env, s, e);
    } else if e.ReaderEnds? {
      ReaderEndsStep(env, s, e.id);
      ReleasedInv(env, s, Step(env, s, e), e.id);
    } else if e.ReservationExpires? {
      ReservationExpiresStep(env, s, e.token);
    } else {
      TimePreserves(env, s, e);
    }
  }

  /** The invariant holds in every reachable state. */
  lemma {:induction false} RunInv(env: Env, start: int, es: seq<Event>)
    requires ValidEnv(env) && IsRun(env, start, es)
    ensures ServerInv(env, Run(env, start, es))
  {
    if es != [] {
      RunInv(env, start, es[..|es|-1]);
      StepInv(env, Run(env, start, es[..|es|-1]), es[|es|-1]);
    }
  }
}
