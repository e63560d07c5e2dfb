/** The objects behind the session map: allocations with their two managers, and the manager that
    creates, claims, finds and expires them.  Their methods are proved against the state machine. */
module AllocationObjects {
  import opened Common
  import opened Stun
  import opened Timers
  import opened RelayPorts
  import opened Server
  import Permissions
  import Channels
  import Reservations

  // The waits that the event loop holds for allocation timers.
  class SessionTimers {
    var pending: Pending<FiveTuple>

    constructor ()
      ensures pending == NoWaits()
    {
      pending := NoWaits();
    }
  }

  // The events of the timers inside one allocation.
  predicate IsTimerEvent(e: Event) {
    e.PermissionFires? || e.PermissionHandler? || e.ChannelFires? || e.ChannelHandler?
  }

  ghost function AfterTimerEvent(a: Allocation, e: Event, now: int): Allocation
    requires IsTimerEvent(e)
  {
    match e
    case PermissionFires(_, i) => a.(permissions := Fire(a.permissions, i, now))
    case PermissionHandler(_, i) => a.(permissions := Complete(a.permissions, i, now, Owned))
    case ChannelFires(_, i) => a.(channels := Fire(a.channels, i, now))
    case ChannelHandler(_, i) => a.(channels := Complete(a.channels, i, now, Owned))
  }

  lemma TimerEventStep(env: Env, s: State, e: Event)
    requires ValidEnv(env) && IsTimerEvent(e)
    ensures Step(env, s, e) ==
            if e.id in s.allocations
            then WithAllocation(s, e.id, AfterTimerEvent(s.allocations[e.id], e, s.now)) else s
  {
  }

  class UdpAllocation {
    const id: nat
    const fiveTuple: FiveTuple
    const port: nat
    const timers: SessionTimers
    const permissionManager: Permissions.PermissionManager
    const channelManager: Channels.ChannelManager
    var expiry: int
    var success: seq<Byte>

    ghost function Contents(): Allocation
      reads `success, permissionManager, channelManager
    {
      Allocation(fiveTuple, port, success, permissionManager.Contents(), channelManager.Contents())
    }

    // Its constants, and that its two managers are its own.
    ghost predicate Configured(env: Env, id: nat, timers: SessionTimers) {
      && this.id == id && this.timers == timers
      && permissionManager.lifetime == env.permissionLifetime && permissionManager.owner == id
      && channelManager.lifetime == env.channelLifetime && channelManager.owner == id
    }

    constructor (env: Env, id: nat, fiveTuple: FiveTuple, port: nat, timers: SessionTimers)
      ensures this.id == id && this.fiveTuple == fiveTuple && this.port == port && this.timers == timers
      ensures fresh(permissionManager) && fresh(channelManager) && Configured(env, id, timers)
      ensures Contents() == Allocation(fiveTuple, port, [], Empty(), Empty())
    {
      this.id := id;
      this.fiveTuple := fiveTuple;
      this.port := port;
      this.timers := timers;
      permissionManager := new Permissions.PermissionManager(env.permissionLifetime, id);
      channelManager := new Channels.ChannelManager(env.channelLifetime, id);
      expiry := 0;
      success := [];
    }

    // Arms the timer again, for `seconds` from now.
    method Refresh(seconds: int, now: int)
      modifies this`expiry, timers
      ensures expiry == After(now, seconds)
      ensures timers.pending == StartWait(CancelTimer(old(timers.pending), id), id, fiveTuple, After(now, seconds))
    {
      expiry := After(now, seconds);
      timers.pending := StartWait(CancelTimer(timers.pending, id), id, fiveTuple, expiry);
    }

    method Expired(now: int) returns (b: bool)
      ensures b <==> expiry <= now
    {
      b := expiry <= now;
    }

    method AddPermission(peer: Address, now: int)
      modifies permissionManager
      ensures Contents() == old(Contents()).(
        permissions := Permissions.Add(old(Contents()).permissions, peer, After(now, permissionManager.lifetime)))
    {
      permissionManager.AddPermission(peer, now);
    }

    method HasPermission(peer: Address) returns (b: bool)
      ensures b <==> peer in Contents().permissions.entries
    {
      b := permissionManager.HasPermission(peer);
    }

    // The channel first; its peer's permission only if the channel was accepted.
    method AddChannel(number: nat, peer: Endpoint, now: int) returns (ok: bool)
      modifies channelManager, permissionManager
      ensures ok == Channels.Accepts(old(Contents()).channels, number, peer)
      ensures !ok ==> Contents() == old(Contents())
      ensures ok ==> Contents() == old(Contents()).(
        channels :=
          Channels.Add(old(Contents()).channels, number, peer, After(now, channelManager.lifetime)),
        permissions :=
          Permissions.Add(old(Contents()).permissions, peer.address, After(now, permissionManager.lifetime)))
    {
      ok := channelManager.AddChannel(number, peer, now);
      if !ok {
        return false;
      }
      AddPermission(peer.address, now);
    }

    method GetPeerByChannel(number: nat) returns (r: Option<Endpoint>)
      ensures r == Channels.GetEndpoint(Contents().channels, number)
    {
      r := channelManager.FindEndpoint(number);
    }

    // A datagram from a peer: the channel bound to the sender, else its permission, else nothing.
    method ProcessPeerMessage(peer: Endpoint, payload: seq<Byte>, encodes: bool) returns (out: seq<Output>)
      requires Channels.Injective(Contents().channels)
      ensures forall s: State :: id in s.allocations && s.allocations[id] == Contents() ==>
                out == RelayToClient(s, id, peer, payload, encodes)
    {
      var number := channelManager.FindChannel(peer);
      if number.Some? {
        return if encodes then [ChannelDataToClient(number.value, payload, fiveTuple.ClientEndpoint())] else [];
      }
      var permitted := HasPermission(peer.address);
      if permitted {
        return [DataToClient(peer, payload, fiveTuple.ClientEndpoint())];
      }
      return [];
    }

    // A wait of one of the two managers' timers passes its deadline, or its handler runs.
    method OnTimerEvent(e: Event, now: int)
      requires IsTimerEvent(e)
      modifies permissionManager, channelManager
      ensures Contents() == AfterTimerEvent(old(Contents()), e, now)
    {
      match e
      case PermissionFires(_, i) => permissionManager.OnDeadline(i, now);
      case PermissionHandler(_, i) =>
        if IsReady(permissionManager.pending, i) {
          permissionManager.OnTimer(i, now);
        }
      case ChannelFires(_, i) => channelManager.OnDeadline(i, now);
      case ChannelHandler(_, i) =>
        if IsReady(channelManager.pending, i) {
          channelManager.OnTimer(i, now);
        }
    }

    method SetSuccessMessage(message: seq<Byte>)
      modifies this`success
      ensures Contents() == old(Contents()).(success := message)
    {
      success := message;
    }
  }

  class AllocationManager {
    const env: Env
    const network: Network
    const timers: SessionTimers
    const reservationManager: Reservations.ReservationManager
    const generator: RelayAddressGenerator
    var sessionMap: map<FiveTuple, UdpAllocation>
    // every allocation whose reader still runs, in the session map or not: the event loop holds them
    var running: map<nat, UdpAllocation>
    // the objects that this manager's state lives in
    ghost var owned: set<object>

    // Every running allocation is configured for its number; the session map holds some of them.
    ghost predicate Wired()
      reads `running, `sessionMap, `owned
    {
      && (forall i :: i in running ==>
            running[i].Configured(env, i, timers)
            && running[i] in owned && running[i].permissionManager in owned && running[i].channelManager in owned)
      && (forall f :: f in sessionMap ==>
            sessionMap[f].fiveTuple == f && sessionMap[f].id in running && running[sessionMap[f].id] == sessionMap[f])
    }

    // The next number belongs to no allocation, and no wait is left over on a timer of that number.
    ghost predicate NextIsFree()
      reads `running, timers
    {
      && timers.pending.next !in running
      && CancelTimer(timers.pending, timers.pending.next) == timers.pending
    }

    ghost predicate Valid()
      reads `running, `sessionMap, `owned, reservationManager, reservationManager.reservations.Values
    {
      && timers in owned && network in owned && reservationManager in owned
      && ValidEnv(env)
      && generator.range == env.ports && generator.network == network
      && reservationManager.Valid() && !reservationManager.shared
      && Wired()
    }

    // Whatever objects it has come to use, other than those it had, are new.
    twostate predicate OwnsAfresh()
      reads `owned, reservationManager`reservations
    {
      && (forall o :: o in owned ==> o in old(owned) || fresh(o))
      && (forall r :: r in reservationManager.reservations.Values ==>
            r in old(reservationManager.reservations.Values) || fresh(r))
    }

    // The session map with the timers of its allocations.
    ghost function Entries(): map<FiveTuple, Entry<()>>
      reads `sessionMap, sessionMap.Values`expiry
    {
      map f | f in sessionMap :: Entry((), sessionMap[f].id, sessionMap[f].expiry)
    }

    ghost function Sessions(): Table<FiveTuple, ()>
      reads `sessionMap, sessionMap.Values`expiry, timers
    {
      Table(Entries(), timers.pending)
    }

    ghost function Allocations(): map<nat, Allocation>
      reads `running, running.Values`success
      reads set i | i in running :: running[i].permissionManager
      reads set i | i in running :: running[i].channelManager
    {
      map i | i in running :: running[i].Contents()
    }

    // The state of the machine, as these objects hold it.
    ghost function Contents(now: int): State
      requires reservationManager.Valid()
      reads `running, running.Values`success, `sessionMap, sessionMap.Values`expiry, timers, network
      reads set i | i in running :: running[i].permissionManager
      reads set i | i in running :: running[i].channelManager
      reads reservationManager, reservationManager.reservations.Values
    {
      State(now, Sessions(), Allocations(), reservationManager.Contents(), network.bound)
    }

    constructor (env: Env)
      requires ValidEnv(env)
      ensures Valid() && this.env == env
      ensures fresh(owned) && reservationManager.reservations == map[]
      ensures Sessions() == Empty() && Allocations() == map[]
      ensures reservationManager.Contents() == map[] && network.bound == {}
    {
      this.env := env;
      var net := new Network();
      network := net;
      timers := new SessionTimers();
      reservationManager := new Reservations.ReservationManager(env.reservationLifetime, false);
      generator := new RelayAddressGenerator(env.ports, net);
      sessionMap := map[];
      running := map[];
      owned := {timers, network, reservationManager};
    }

    function GetAllocation(f: FiveTuple): (a: UdpAllocation?)
      reads `sessionMap
    {
      if f in sessionMap then sessionMap[f] else null
    }

    // Looking a five-tuple up in the session map is looking it up in the machine's state.
    lemma GetFinds(f: FiveTuple, now: int)
      requires Valid()
      ensures GetAllocation(f) == null ==> FindAllocation(Contents(now), f) == None
      ensures GetAllocation(f) != null ==>
                var a := GetAllocation(f);
                && a.fiveTuple == f && a.id in running && running[a.id] == a
                && FindAllocation(Contents(now), f) == Some(a.id) && Contents(now).allocations[a.id] == a.Contents()
    {
    }

    // A new allocation object on a bound port, not yet in the session map.
    method MakeAllocation(f: FiveTuple, port: nat) returns (a: UdpAllocation)
      ensures fresh(a) && fresh(a.permissionManager) && fresh(a.channelManager)
      ensures a.Configured(env, timers.pending.next, timers)
      ensures a.fiveTuple == f && a.port == port && a.Contents() == Allocation(f, port, [], Empty(), Empty())
      ensures Entries() == old(Entries()) && Allocations() == old(Allocations())
    {
      a := new UdpAllocation(env, timers.pending.next, f, port, timers);
    }

    // session_map_[five_tuple] = udp_alloc
    method EnterSession(a: UdpAllocation)
      requires Wired() && a.id !in running && a.fiveTuple !in sessionMap && a.Configured(env, a.id, timers)
      modifies `running, `sessionMap, `owned
      ensures Wired() && owned == old(owned) + {a, a.permissionManager, a.channelManager}
      ensures sessionMap == old(sessionMap)[a.fiveTuple := a]
      ensures Entries() == old(Entries())[a.fiveTuple := Entry((), a.id, a.expiry)]
      ensures Allocations() == old(Allocations())[a.id := a.Contents()]
    {
      RunReader(a);
      assert Entries() == old(Entries());
      AddSession(a);
    }

    method AddSession(a: UdpAllocation)
      requires Wired() && a.id in running && running[a.id] == a && a.fiveTuple !in sessionMap
      modifies `sessionMap
      ensures Wired() && sessionMap == old(sessionMap)[a.fiveTuple := a]
      ensures Entries() == old(Entries())[a.fiveTuple := Entry((), a.id, a.expiry)]
    {
      sessionMap := sessionMap[a.fiveTuple := a];
    }

    // Its reader starts to run.
    method RunReader(a: UdpAllocation)
      requires Wired() && a.id !in running && a.Configured(env, a.id, timers)
      modifies `running, `owned
      ensures Wired() && running == old(running)[a.id := a]
      ensures owned == old(owned) + {a, a.permissionManager, a.channelManager}
      ensures Allocations() == old(Allocations())[a.id := a.Contents()]
    {
      running := running[a.id := a];
      owned := owned + {a, a.permissionManager, a.channelManager};
    }

    // Arming the timer of one allocation changes its own expiry in the session map.
    method ArmSession(a: UdpAllocation, seconds: int, now: int)
      requires Wired() && a.fiveTuple in sessionMap && sessionMap[a.fiveTuple] == a
      modifies a`expiry, timers
      ensures Entries() == old(Entries())[a.fiveTuple := Entry((), a.id, After(now, seconds))]
      ensures timers.pending ==
              StartWait(CancelTimer(old(timers.pending), a.id), a.id, a.fiveTuple, After(now, seconds))
      ensures Allocations() == old(Allocations())
    {
      a.Refresh(seconds, now);
    }

    method RefreshAllocation(a: UdpAllocation, seconds: int, now: int)
      requires Valid() && a.fiveTuple in sessionMap && sessionMap[a.fiveTuple] == a
      modifies a`expiry, timers
      ensures Valid()
      ensures Contents(now) ==
              old(Contents(now)).(sessions := Rearm(old(Contents(now)).sessions, a.fiveTuple, After(now, seconds)))
    {
      RearmUnfolds(Sessions(), a.fiveTuple, After(now, seconds));
      ArmSession(a, seconds, now);
    }

    // What a call on one running allocation means for the machine's state.

    method PermitPeer(f: FiveTuple, a: UdpAllocation, peer: Address, now: int, ghost s: State)
      requires Valid() && a == GetAllocation(f) && s == Contents(now)
      modifies a.permissionManager
      ensures Valid()
      ensures a.id in s.allocations
      ensures Contents(now) == WithAllocation(s, a.id, Permit(env, now, s.allocations[a.id], [peer]))
    {
      PermitOne(env, now, a.Contents(), peer);
      AddPermissionTo(a, peer, now);
    }

    method AddPermissionTo(a: UdpAllocation, peer: Address, now: int)
      requires Wired() && a.id in running && running[a.id] == a
      modifies a.permissionManager
      ensures Allocations() == old(Allocations())[a.id := a.Contents()]
      ensures a.Contents() == old(a.Contents()).(
        permissions := Permissions.Add(old(a.Contents()).permissions, peer, After(now, env.permissionLifetime)))
    {
      a.AddPermission(peer, now);
    }

    method BindChannel(f: FiveTuple, a: UdpAllocation, number: nat, peer: Endpoint, now: int, ghost s: State)
      returns (ok: bool)
      requires Valid() && a == GetAllocation(f) && s == Contents(now)
      modifies a.channelManager, a.permissionManager
      ensures Valid()
      ensures a.id in s.allocations
      ensures ok == Channels.Accepts(s.allocations[a.id].channels, number, peer)
      ensures Contents(now) ==
              if ok then WithAllocation(s, a.id, Bind(env, now, s.allocations[a.id], number, peer)) else s
    {
      ok := AddChannelTo(a, number, peer, now);
      if !ok {
        return;
      }
      assert Sessions() == old(Sessions());
    }

    method AddChannelTo(a: UdpAllocation, number: nat, peer: Endpoint, now: int) returns (ok: bool)
      requires Wired() && a.id in running && running[a.id] == a
      modifies a.channelManager, a.permissionManager
      ensures ok == Channels.Accepts(old(a.Contents()).channels, number, peer)
      ensures Allocations() ==
              if ok then old(Allocations())[a.id := Bind(env, now, old(a.Contents()), number, peer)]
              else old(Allocations())
    {
      ok := a.AddChannel(number, peer, now);
    }

    method StoreSuccess(f: FiveTuple, a: UdpAllocation, message: seq<Byte>, ghost now: int, ghost s: State)
      requires Valid() && a == GetAllocation(f) && s == Contents(now)
      modifies a`success
      ensures Valid()
      ensures a.id in s.allocations
      ensures Contents(now) == WithAllocation(s, a.id, s.allocations[a.id].(success := message))
    {
      SetSuccessOf(a, message);
    }

    method SetSuccessOf(a: UdpAllocation, message: seq<Byte>)
      requires Wired() && a.id in running && running[a.id] == a
      modifies a`success
      ensures Allocations() == old(Allocations())[a.id := old(a.Contents()).(success := message)]
    {
      a.SetSuccessMessage(message);
    }

    // The new allocation object enters the session map, and its timer is started.
    method StartAllocation(a: UdpAllocation, lifetime: int, now: int)
      requires Wired() && NextIsFree() && a.fiveTuple !in sessionMap && a.Configured(env, timers.pending.next, timers)
      modifies `running, `sessionMap, `owned, a`expiry, timers
      ensures Wired() && owned == old(owned) + {a, a.permissionManager, a.channelManager}
      ensures sessionMap == old(sessionMap)[a.fiveTuple := a]
      ensures Entries() == old(Entries())[a.fiveTuple := Entry((), a.id, After(now, lifetime))]
      ensures timers.pending == StartWait(old(timers.pending), a.id, a.fiveTuple, After(now, lifetime))
      ensures Allocations() == old(Allocations())[a.id := old(a.Contents())]
    {
      UpdateTwice(Entries(), a.fiveTuple, Entry((), a.id, a.expiry), Entry((), a.id, After(now, lifetime)));
      EnterSession(a);
      ArmSession(a, lifetime, now);
    }

    // A new allocation on a bound port.
    method AdmitAllocation(f: FiveTuple, port: nat, lifetime: int, now: int, ghost s: State) returns (a: UdpAllocation)
      requires Valid() && NextIsFree() && f !in sessionMap && s == Contents(now)
      modifies `running, `sessionMap, `owned, timers
      ensures Valid() && OwnsAfresh()
      ensures fresh(a) && a == GetAllocation(f) && a.port == port && a.id == s.sessions.pending.next
      ensures Contents(now) == Admit(s, f, port, lifetime, [])
    {
      AdmitUnfolds(s, f, port, lifetime);
      a := AdmitObject(f, port, lifetime, now);
    }

    method AdmitObject(f: FiveTuple, port: nat, lifetime: int, now: int) returns (a: UdpAllocation)
      requires Wired() && NextIsFree() && f !in sessionMap
      modifies `running, `sessionMap, `owned, timers
      ensures Wired() && fresh(a) && fresh(a.permissionManager) && fresh(a.channelManager)
      ensures owned == old(owned) + {a, a.permissionManager, a.channelManager}
      ensures a.fiveTuple == f && a.port == port && a.id == old(timers.pending.next)
      ensures sessionMap == old(sessionMap)[f := a]
      ensures Entries() == old(Entries())[f := Entry((), a.id, After(now, lifetime))]
      ensures timers.pending == StartWait(old(timers.pending), a.id, f, After(now, lifetime))
      ensures Allocations() == old(Allocations())[a.id := Allocation(f, port, [], Empty(), Empty())]
    {
      a := MakeAllocation(f, port);
      StartAllocation(a, lifetime, now);
    }

    // The sockets of a new allocation, moved out of what the generator returns.
    method DrawSockets(policy: PortPolicy, o: Oracle)
      returns (first: Option<nat>, second: Option<nat>, ghost relay: Option<Relay>)
      requires generator.range == env.ports && generator.network == network && Drawable(env.ports, policy)
      modifies network
      ensures relay == Generate(env.ports, policy, old(network.bound), o.draws)
      ensures first == if relay.Some? then Some(relay.value.primary) else None
      ensures second == if relay.Some? then relay.value.secondary else None
      ensures network.bound == old(network.bound) + if relay.Some? then SocketsOf(relay.value) else {}
    {
      first, second, relay := None, None, None;
      var sockets := generator.GenerateUdpRelay(policy, o.draws);
      if sockets == null {
        return;
      }
      first, relay := Some(sockets.primary), Some(sockets.Contents());
      var reserved := sockets.HasSecondary();
      if reserved {
        var port := sockets.ReleaseSecondary();
        second := Some(port);
      }
    }

    method DrawRelay(policy: PortPolicy, o: Oracle, ghost now: int, ghost s: State)
      returns (first: Option<nat>, second: Option<nat>, ghost relay: Option<Relay>)
      requires Valid() && Drawable(env.ports, policy) && s == Contents(now)
      modifies network
      ensures Valid()
      ensures relay == Generate(env.ports, policy, s.bound, o.draws)
      ensures first == if relay.Some? then Some(relay.value.primary) else None
      ensures second == if relay.Some? then relay.value.secondary else None
      ensures Contents(now) == if relay.Some? then s.(bound := s.bound + SocketsOf(relay.value)) else s
    {
      first, second, relay := DrawSockets(policy, o);
    }

    // A second socket goes straight into a reservation.
    method Reserve(port: nat, o: Oracle, now: int, ghost s: State)
      requires Valid() && o.token !in reservationManager.reservations && s == Contents(now)
      modifies reservationManager
      ensures Valid()
      ensures fresh(reservationManager.reservations.Values - old(reservationManager.reservations.Values))
      ensures Contents(now) == s.(reservations := s.reservations[o.token := port])
    {
      IssueToken(port, o, now);
    }

    method IssueToken(port: nat, o: Oracle, now: int)
      requires reservationManager.Valid() && o.token !in reservationManager.reservations
      modifies reservationManager
      ensures reservationManager.Valid()
      ensures fresh(reservationManager.reservations.Values - old(reservationManager.reservations.Values))
      ensures reservationManager.Contents() == old(reservationManager.Contents())[o.token := port]
      ensures Entries() == old(Entries()) && Allocations() == old(Allocations())
    {
      var token := reservationManager.CreateReservation(port, now, _ => o.token, 0);
    }

    method HoldPorts(policy: PortPolicy, o: Oracle, now: int, ghost s: State)
      returns (port: Option<nat>, token: Option<Token>, ghost relay: Option<Relay>)
      requires Valid() && s == Contents(now)
      requires o.token !in reservationManager.reservations && Drawable(env.ports, policy)
      modifies network, reservationManager
      ensures Valid()
      ensures fresh(reservationManager.reservations.Values - old(reservationManager.reservations.Values))
      ensures relay == Generate(env.ports, policy, s.bound, o.draws)
      ensures port == if relay.Some? then Some(relay.value.primary) else None
      ensures token == if relay.Some? && relay.value.secondary.Some? then Some(o.token) else None
      ensures Contents(now) == if relay.Some? then Hold(s, relay.value, o.token) else s
    {
      var second;
      token := None;
      port, second, relay := DrawRelay(policy, o, now, s);
      if second.Some? {
        Reserve(second.value, o, now, s.(bound := s.bound + SocketsOf(relay.value)));
        token := Some(o.token);
      }
    }

    method CreateAllocation(f: FiveTuple, policy: PortPolicy, lifetime: int, o: Oracle, now: int, ghost s: State)
      returns (a: UdpAllocation?, token: Option<Token>)
      requires Valid() && NextIsFree() && s == Contents(now)
      requires f !in sessionMap && o.token !in reservationManager.reservations && Drawable(env.ports, policy)
      modifies `running, `sessionMap, `owned, timers, network, reservationManager
      ensures Valid() && OwnsAfresh()
      ensures match Generate(env.ports, policy, s.bound, o.draws)
              case None => a == null && Contents(now) == s
              case Some(relay) =>
                && a != null && fresh(a) && a == GetAllocation(f)
                && a.port == relay.primary && a.id == s.sessions.pending.next
                && token == (if relay.secondary.Some? then Some(o.token) else None)
                && Contents(now) == Apply(env, s, f, Allocated(relay, o.token, lifetime, []))
    {
      var port;
      ghost var relay;
      port, token, relay := HoldPorts(policy, o, now, s);
      if port == None {
        return null, None;
      }
      a := AdmitAllocation(f, port.value, lifetime, now, Hold(s, relay.value, o.token));
    }

    // The reservation manager's part of a claim, which touches no allocation.
    method TakeReserved(token: Token) returns (port: Option<nat>)
      requires reservationManager.Valid()
      modifies reservationManager, reservationManager.reservations.Values
      ensures reservationManager.Valid()
      ensures reservationManager.reservations.Values <= old(reservationManager.reservations.Values)
      ensures port == Reservations.Claimed(old(reservationManager.Contents()), token)
      ensures reservationManager.Contents() == old(reservationManager.Contents()) - {token}
      ensures Entries() == old(Entries()) && Allocations() == old(Allocations())
    {
      port := reservationManager.ClaimReservation(token);
    }

    method ClaimReservation(token: Token, f: FiveTuple, lifetime: int, now: int, ghost s: State)
      returns (a: UdpAllocation?)
      requires Valid() && NextIsFree() && f !in sessionMap && s == Contents(now)
      modifies `running, `sessionMap, `owned, timers, reservationManager, reservationManager.reservations.Values
      ensures Valid() && OwnsAfresh()
      ensures a == null <==> token !in s.reservations
      ensures a == null ==> Contents(now) == s
      ensures a != null ==>
                && fresh(a) && a == GetAllocation(f)
                && a.port == s.reservations[token] && a.id == s.sessions.pending.next
                && Contents(now) == Apply(env, s, f, Claimed(token, lifetime, []))
    {
      var port := TakeReserved(token);
      if port == None {
        assert s.reservations - {token} == s.reservations;
        return null;
      }
      a := AdmitAllocation(f, port.value, lifetime, now, s.(reservations := s.reservations - {token}));
    }

    // The timer of a reservation ends.  This manager holds its reservation manager by value, so
    // nothing happens.
    method EndReservationTimer(token: Token, now: int, ghost s: State)
      requires Valid() && s == Contents(now) && token in reservationManager.reservations
      requires reservationManager.reservations[token].timerArmed
      requires reservationManager.reservations[token].expiryTime <= now
      modifies reservationManager, reservationManager.reservations.Values
      ensures Valid()
      ensures Contents(now) == s
    {
      EndTimer(token, now);
    }

    method EndTimer(token: Token, now: int)
      requires reservationManager.Valid() && !reservationManager.shared && token in reservationManager.reservations
      requires reservationManager.reservations[token].timerArmed
      requires reservationManager.reservations[token].expiryTime <= now
      modifies reservationManager, reservationManager.reservations.Values
      ensures reservationManager.Valid() && reservationManager.Contents() == old(reservationManager.Contents())
      ensures reservationManager.reservations.Values <= old(reservationManager.reservations.Values)
      ensures Entries() == old(Entries()) && Allocations() == old(Allocations())
    {
      reservationManager.OnTimer(token, now);
    }

    // The body of every allocation's completion handler, whatever the outcome of the wait.
    method ExpireAllocation(f: FiveTuple, now: int)
      requires Wired()
      modifies `sessionMap
      ensures Wired()
      ensures Entries() ==
              if f in old(Entries()) && old(Entries())[f].expiry <= now then old(Entries()) - {f} else old(Entries())
    {
      if f !in sessionMap {
        return;
      }
      var due := sessionMap[f].Expired(now);
      if due {
        sessionMap := sessionMap - {f};
      }
    }

    // The event loop runs the completion handler of wait `i`.
    method OnTimer(i: nat, now: int)
      requires Wired()
      requires i in timers.pending.waits && !timers.pending.waits[i].status.Waiting?
      modifies `sessionMap, timers
      ensures Wired()
      ensures Sessions() == Complete(old(Sessions()), i, now, Shared)
    {
      SharedCompletion(Sessions(), i, now);
      var w := timers.pending.waits[i];
      timers.pending := Dequeue(timers.pending, i);
      assert Entries() == old(Entries());
      ExpireAllocation(w.key, now);
    }

    // One completion is one step of the machine.
    method RunCompletion(i: nat, now: int, ghost s: State)
      requires Valid() && s == Contents(now)
      modifies `sessionMap, timers
      ensures Valid()
      ensures Contents(now) == s.(sessions := Complete(s.sessions, i, now, Shared))
    {
      if IsReady(timers.pending, i) {
        OnTimer(i, now);
      }
    }

    method PassSessionDeadline(i: nat, now: int, ghost s: State)
      requires Valid() && s == Contents(now)
      modifies timers
      ensures Valid()
      ensures Contents(now) == s.(sessions := Fire(s.sessions, i, now))
    {
      timers.pending := PassDeadline(timers.pending, i, now);
    }

    // A timer event of a running allocation; the callbacks of any other find nothing to act on.
    method RunTimerEvent(e: Event, now: int, ghost s: State)
      requires Valid() && s == Contents(now) && IsTimerEvent(e)
      modifies if e.id in running then {running[e.id].permissionManager, running[e.id].channelManager} else {}
      ensures Valid()
      ensures Contents(now) == Step(env, s, e)
    {
      TimerEventStep(env, s, e);
      if e.id in running {
        TimerEventIn(running[e.id], e, now, s);
      }
    }

    method TimerEventIn(a: UdpAllocation, e: Event, now: int, ghost s: State)
      requires Valid() && s == Contents(now) && a.id in running && running[a.id] == a && IsTimerEvent(e)
      modifies a.permissionManager, a.channelManager
      ensures Valid()
      ensures a.id in s.allocations
      ensures Contents(now) == WithAllocation(s, a.id, AfterTimerEvent(s.allocations[a.id], e, now))
    {
      TimerEventOf(a, e, now);
    }

    method TimerEventOf(a: UdpAllocation, e: Event, now: int)
      requires Wired() && a.id in running && running[a.id] == a && IsTimerEvent(e)
      modifies a.permissionManager, a.channelManager
      ensures Allocations() == old(Allocations())[a.id := AfterTimerEvent(old(a.Contents()), e, now)]
    {
      a.OnTimerEvent(e, now);
    }

    // The reader of an allocation ends.  If nothing else holds the allocation, its socket and its
    // timer go with it.
    method EndReader(id: nat, now: int, ghost s: State)
      requires Valid() && s == Contents(now)
      modifies `running, timers, network
      ensures Valid()
      ensures Contents(now) == Step(env, s, ReaderEnds(id))
    {
      if id !in running || exists f :: f in sessionMap && sessionMap[f].id == id {
        HeldElsewhere(id, now);
        return;
      }
      NotHeld(id, now);
      ghost var t := s.(bound := s.bound - {running[id].port});
      CloseSocket(running[id].port, now, s);
      CancelSession(id, now, t);
      Forget(id, now, t.(sessions := t.sessions.(pending := CancelTimer(t.sessions.pending, id))));
    }

    method CloseSocket(port: nat, ghost now: int, ghost s: State)
      requires Valid() && s == Contents(now)
      modifies network
      ensures Valid()
      ensures Contents(now) == s.(bound := s.bound - {port})
    {
      network.Close(port);
    }

    method CancelSession(id: nat, ghost now: int, ghost s: State)
      requires Valid() && s == Contents(now)
      modifies timers
      ensures Valid()
      ensures Contents(now) == s.(sessions := s.sessions.(pending := CancelTimer(s.sessions.pending, id)))
    {
      timers.pending := CancelTimer(timers.pending, id);
    }

    method Forget(id: nat, ghost now: int, ghost s: State)
      requires Valid() && s == Contents(now)
      requires id in running && !exists f :: f in sessionMap && sessionMap[f].id == id
      modifies `running
      ensures Valid()
      ensures Contents(now) == s.(allocations := s.allocations - {id})
    {
      StopReader(id);
    }

    method StopReader(id: nat)
      requires Wired() && id in running && !exists f :: f in sessionMap && sessionMap[f].id == id
      modifies `running
      ensures Wired() && running == old(running) - {id}
      ensures Allocations() == old(Allocations()) - {id}
    {
      running := running - {id};
    }

    lemma HeldElsewhere(id: nat, now: int)
      requires Valid() && (id !in running || exists f :: f in sessionMap && sessionMap[f].id == id)
      ensures Step(env, Contents(now), ReaderEnds(id)) == Contents(now)
    {
      if f :| f in sessionMap && sessionMap[f].id == id {
        assert Contents(now).sessions.entries[f].timer == id;
      }
    }

    lemma NotHeld(id: nat, now: int)
      requires Valid() && id in running && !exists f :: f in sessionMap && sessionMap[f].id == id
      ensures id in Contents(now).allocations && Orphaned(Contents(now), id)
      ensures Step(env, Contents(now), ReaderEnds(id)) == Release(Contents(now), id)
    {
    }

    // A call of expireReservation: the reservation goes, and its socket with it.
    method ExpireReservation(token: Token, now: int, ghost s: State)
      requires Valid() && s == Contents(now)
      modifies reservationManager, network
      ensures Valid()
      ensures reservationManager.reservations.Values <= old(reservationManager.reservations.Values)
      ensures Contents(now) == Step(env, s, ReservationExpires(token))
    {
      if token in reservationManager.reservations {
        var port := reservationManager.reservations[token].socket.value;
        CloseSocket(port, now, s);
        ForgetToken(token, now, s.(bound := s.bound - {port}));
      }
    }

    method ForgetToken(token: Token, ghost now: int, ghost s: State)
      requires Valid() && s == Contents(now)
      modifies reservationManager
      ensures Valid()
      ensures reservationManager.reservations.Values <= old(reservationManager.reservations.Values)
      ensures Contents(now) == s.(reservations := s.reservations - {token})
    {
      ExpireToken(token);
    }

    method ExpireToken(token: Token)
      requires reservationManager.Valid()
      modifies reservationManager
      ensures reservationManager.Valid()
      ensures reservationManager.reservations.Values <= old(reservationManager.reservations.Values)
      ensures reservationManager.Contents() == old(reservationManager.Contents()) - {token}
      ensures Entries() == old(Entries()) && Allocations() == old(Allocations())
    {
      reservationManager.ExpireReservation(token);
    }
  }

  // A shared timer's handler runs whatever the outcome of its wait.
  lemma SharedCompletion<K, V>(t: Table<K, V>, i: nat, now: int)
    requires i in t.pending.waits && !t.pending.waits[i].status.Waiting?
    ensures var k, u := t.pending.waits[i].key, Complete(t, i, now, Shared);
            && u.pending == Dequeue(t.pending, i)
            && u.entries == if k in t.entries && t.entries[k].expiry <= now then t.entries - {k} else t.entries
  {
  }

  lemma PermitOne(env: Env, now: int, a: Allocation, peer: Address)
    ensures Permit(env, now, a, [peer]) == a.(
      permissions := Permissions.Add(a.permissions, peer, After(now, env.permissionLifetime)))
  {
    assert AddAll(a.permissions, [peer][..0], After(now, env.permissionLifetime)) == a.permissions;
  }

  lemma AdmitUnfolds(s: State, f: FiveTuple, port: nat, lifetime: int)
    ensures var id := s.sessions.pending.next;
            Admit(s, f, port, lifetime, []) ==
            State(s.now,
                  Table(s.sessions.entries[f := Entry((), id, After(s.now, lifetime))],
                        StartWait(s.sessions.pending, id, f, After(s.now, lifetime))),
                  s.allocations[id := Allocation(f, port, [], Empty(), Empty())],
                  s.reservations, s.bound)
  {
  }

  lemma RearmUnfolds(t: Table<FiveTuple, ()>, f: FiveTuple, expiry: int)
    requires f in t.entries
    ensures var id := t.entries[f].timer;
            Rearm(t, f, expiry) ==
            Table(t.entries[f := Entry((), id, expiry)], StartWait(CancelTimer(t.pending, id), id, f, expiry))
  {
    assert t.entries[f].value == ();
  }

  lemma UpdateTwice<K, V>(m: map<K, V>, k: K, v: V, w: V)
    ensures m[k := v][k := w] == m[k := w]
  {
  }
}
