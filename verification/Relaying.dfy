/** What reaches a client from its peers, over whole histories. */
module Relaying {
  import opened Common
  import opened Stun
  import opened Timers
  import opened RelayPorts
  import opened Server
  import opened ServerInvariant
  import opened Replies
  import opened Sessions
  import Admission
  import Permissions
  import Channels

  // ---------------------------------------------------------------- installing events

  // The effect that event `e` has on allocation `id`, if it is a request on that allocation.
  function EffectOn(env: Env, s: State, e: Event, id: nat): Effect
    requires ValidEnv(env)
  {
    if e.Received? && e.packet.StunRequest? && FindAllocation(s, e.from) == Some(id)
    then Decide(env, s, e.from, e.packet.request, e.oracle).effect else NoEffect
  }

  function BindsChannel(env: Env, s: State, e: Event, id: nat, number: nat): Option<Endpoint>
    requires ValidEnv(env)
  {
    match EffectOn(env, s, e, id)
    case ChannelBound(n, peer) => if n == number then Some(peer) else None
    case _ => None
  }

  predicate InstallsPermission(env: Env, s: State, e: Event, id: nat, address: Address)
    requires ValidEnv(env)
  {
    match EffectOn(env, s, e, id)
    case Permitted(addresses) => address in addresses
    case ChannelBound(_, peer) => peer.address == address
    case _ => false
  }

  lemma EffectsAreRequests(env: Env, s: State, e: Event, id: nat)
    requires ValidEnv(env) && EffectOn(env, s, e, id) != NoEffect
    ensures e.Received? && e.packet.StunRequest? && FindAllocation(s, e.from) == Some(id)
    ensures Authenticate(env, e.packet.request, e.oracle.unixNow).Granted?
  {
  }

  // Event `e` is an authenticated request from the client of allocation `id`.
  ghost predicate ByItsClient(env: Env, s: State, e: Event, id: nat) {
    && e.Received? && e.packet.StunRequest?
    && Authenticate(env, e.packet.request, e.oracle.unixNow).Granted?
    && id in s.allocations && s.allocations[id].fiveTuple == e.from
  }

  lemma EffectsAreByItsClient(env: Env, s: State, e: Event, id: nat)
    requires ValidEnv(env) && ServerInv(env, s) && EffectOn(env, s, e, id) != NoEffect
    ensures ByItsClient(env, s, e, id)
  {
    EffectsAreRequests(env, s, e, id);
    NotFound(env, s, e.from);
  }

  // The instant until which the last installation of `address` on allocation `id` lasts.
  function PermittedUntil(env: Env, start: int, es: seq<Event>, id: nat, address: Address): Option<int>
    requires ValidEnv(env)
  {
    if es == [] then None
    else
      var before := es[..|es|-1];
      var s := Run(env, start, before);
      if InstallsPermission(env, s, es[|es|-1], id, address) then Some(After(s.now, env.permissionLifetime))
      else PermittedUntil(env, start, before, id, address)
  }

  // The peer and end of the last successful ChannelBind of `number` on allocation `id`.
  function BoundUntil(env: Env, start: int, es: seq<Event>, id: nat, number: nat): Option<(Endpoint, int)>
    requires ValidEnv(env)
  {
    if es == [] then None
    else
      var before := es[..|es|-1];
      var s := Run(env, start, before);
      match BindsChannel(env, s, es[|es|-1], id, number)
      case Some(peer) => Some((peer, After(s.now, env.channelLifetime)))
      case None => BoundUntil(env, start, before, id, number)
  }

  // ---------------------------------------------------------------- one step, one entry

  // The table entry of `k`, if the allocation exists and has one.
  function PermissionOf(s: State, id: nat, k: Address): Option<Entry<()>> {
    if id in s.allocations && k in s.allocations[id].permissions.entries
    then Some(s.allocations[id].permissions.entries[k]) else None
  }

  function ChannelOf(s: State, id: nat, k: nat): Option<Entry<Endpoint>> {
    if id in s.allocations && k in s.allocations[id].channels.entries
    then Some(s.allocations[id].channels.entries[k]) else None
  }

  // An entry stays, or goes because it is due or its allocation goes, or is new.
  ghost predicate EntryStep<V>(was: Option<Entry<V>>, is_: Option<Entry<V>>, now: int, gone: bool) {
    && (is_.Some? ==> is_ == was)
    && (was.Some? && was.value.expiry > now && !gone ==> is_ == was)
  }

  lemma EffectOnPermission(env: Env, s: State, f: FiveTuple, effect: Effect, id: nat, a: Address)
    requires Ready(s, f, effect)
    requires id in s.allocations ==> id < s.sessions.pending.next
    ensures var u := Apply(env, s, f, effect);
            if FindAllocation(s, f) == Some(id) && (   (effect.Permitted? && a in effect.addresses)
                                                    || (effect.ChannelBound? && effect.peer.address == a)) then
              && PermissionOf(u, id, a).Some?
              && PermissionOf(u, id, a).value.expiry == After(s.now, env.permissionLifetime)
            else EntryStep(PermissionOf(s, id, a), PermissionOf(u, id, a), s.now, false)
  {
    if FindAllocation(s, f) == Some(id) && effect.Permitted? {
      AddAllInstalls(s.allocations[id].permissions, effect.addresses, After(s.now, env.permissionLifetime), a);
    }
  }

  lemma EffectOnChannel(env: Env, s: State, f: FiveTuple, effect: Effect, id: nat, n: nat)
    requires Ready(s, f, effect)
    requires id in s.allocations ==> id < s.sessions.pending.next
    requires effect.ChannelBound? && FindAllocation(s, f) == Some(id) ==>
               Channels.Accepts(s.allocations[id].channels, effect.number, effect.peer)
    ensures var u := Apply(env, s, f, effect);
            if FindAllocation(s, f) == Some(id) && effect.ChannelBound? && effect.number == n then
              && ChannelOf(u, id, n).Some?
              && ChannelOf(u, id, n).value.value == effect.peer
              && ChannelOf(u, id, n).value.expiry == After(s.now, env.channelLifetime)
            else EntryStep(ChannelOf(s, id, n), ChannelOf(u, id, n), s.now, false)
  {
  }

  lemma OtherOnPermission(env: Env, s: State, e: Event, id: nat, a: Address)
    requires ValidEnv(env) && Interleaving(e)
    ensures EntryStep(PermissionOf(s, id, a), PermissionOf(Step(env, s, e), id, a), s.now,
                      id !in Step(env, s, e).allocations)
  {
  }

  lemma OtherOnChannel(env: Env, s: State, e: Event, id: nat, n: nat)
    requires ValidEnv(env) && Interleaving(e)
    ensures EntryStep(ChannelOf(s, id, n), ChannelOf(Step(env, s, e), id, n), s.now,
                      id !in Step(env, s, e).allocations)
  {
  }

  // The facts about a request step that do not quantify over the state.
  ghost predicate RequestFacts(env: Env, s: State, e: Event, id: nat)
    requires ValidEnv(env)
  {
    && e.Received? && e.packet.StunRequest?
    && Ready(s, e.from, Decide(env, s, e.from, e.packet.request, e.oracle).effect)
    && (id in s.allocations ==> id < s.sessions.pending.next)
    && var effect := EffectOn(env, s, e, id);
       effect.ChannelBound? ==>
         id in s.allocations && Channels.Accepts(s.allocations[id].channels, effect.number, effect.peer)
  }

  lemma FactsHold(env: Env, s: State, e: Event, id: nat)
    requires ValidEnv(env) && !Interleaving(e)
    requires Ready(s, e.from, Decide(env, s, e.from, e.packet.request, e.oracle).effect)
    requires Sound(env, s, e.from, Decide(env, s, e.from, e.packet.request, e.oracle).effect)
    requires id in s.allocations ==> id < s.sessions.pending.next
    ensures RequestFacts(env, s, e, id)
  {
  }

  lemma InvGivesFacts(env: Env, s: State, e: Event, id: nat)
    requires ValidEnv(env) && ServerInv(env, s) && Legal(s, e) && !Interleaving(e)
    ensures RequestFacts(env, s, e, id)
  {
    DecisionIsReady(env, s, e.from, e.packet.request, e.oracle);
    DecideIsSound(env, s, e.from, e.packet.request, e.oracle);
    assert id in s.allocations ==> id in OwnersOf(s);
    FactsHold(env, s, e, id);
  }

  ghost predicate PermissionStep(env: Env, s: State, u: State, e: Event, id: nat, a: Address)
    requires ValidEnv(env)
  {
    if InstallsPermission(env, s, e, id, a) then
      && PermissionOf(u, id, a).Some?
      && PermissionOf(u, id, a).value.expiry == After(s.now, env.permissionLifetime)
    else EntryStep(PermissionOf(s, id, a), PermissionOf(u, id, a), s.now, id !in u.allocations)
  }

  ghost predicate ChannelStep(env: Env, s: State, u: State, e: Event, id: nat, n: nat)
    requires ValidEnv(env)
  {
    match BindsChannel(env, s, e, id, n)
    case Some(peer) =>
      && ChannelOf(u, id, n).Some?
      && ChannelOf(u, id, n).value.value == peer
      && ChannelOf(u, id, n).value.expiry == After(s.now, env.channelLifetime)
    case None => EntryStep(ChannelOf(s, id, n), ChannelOf(u, id, n), s.now, id !in u.allocations)
  }

  lemma RequestOnPermission(env: Env, s: State, e: Event, id: nat, a: Address)
    requires ValidEnv(env) && RequestFacts(env, s, e, id)
    ensures PermissionStep(env, s, Step(env, s, e), e, id, a)
  {
    EffectOnPermission(env, s, e.from, Decide(env, s, e.from, e.packet.request, e.oracle).effect, id, a);
  }

  lemma RequestOnChannel(env: Env, s: State, e: Event, id: nat, n: nat)
    requires ValidEnv(env) && RequestFacts(env, s, e, id)
    ensures ChannelStep(env, s, Step(env, s, e), e, id, n)
  {
    EffectOnChannel(env, s, e.from, Decide(env, s, e.from, e.packet.request, e.oracle).effect, id, n);
  }

  lemma StepOnPermission(env: Env, s: State, e: Event, id: nat, a: Address)
    requires ValidEnv(env) && ServerInv(env, s) && Legal(s, e)
    ensures PermissionStep(env, s, Step(env, s, e), e, id, a)
  {
    if Interleaving(e) {
      OtherOnPermission(env, s, e, id, a);
    } else {
      InvGivesFacts(env, s, e, id);
      RequestOnPermission(env, s, e, id, a);
    }
  }

  lemma StepOnChannel(env: Env, s: State, e: Event, id: nat, n: nat)
    requires ValidEnv(env) && ServerInv(env, s) && Legal(s, e)
    ensures ChannelStep(env, s, Step(env, s, e), e, id, n)
  {
    if Interleaving(e) {
      OtherOnChannel(env, s, e, id, n);
    } else {
      InvGivesFacts(env, s, e, id);
      RequestOnChannel(env, s, e, id, n);
    }
  }

  /** A table entry of an allocation is new, or has a later expiry, only through an authenticated
      request of the client to whom the allocation belongs. */
  lemma InstallersAreAuthenticated(env: Env, s: State, e: Event, id: nat, a: Address, n: nat)
    requires ValidEnv(env) && ServerInv(env, s) && Legal(s, e)
    ensures var u := Step(env, s, e);
            || ByItsClient(env, s, e, id)
            || (&& (PermissionOf(u, id, a).Some? ==> PermissionOf(u, id, a) == PermissionOf(s, id, a))
                && (ChannelOf(u, id, n).Some? ==> ChannelOf(u, id, n) == ChannelOf(s, id, n)))
  {
    StepOnPermission(env, s, e, id, a);
    StepOnChannel(env, s, e, id, n);
    if EffectOn(env, s, e, id) != NoEffect {
      EffectsAreByItsClient(env, s, e, id);
    }
  }

  // ---------------------------------------------------------------- whole runs

  lemma {:induction false} RunOnPermission(env: Env, start: int, es: seq<Event>, id: nat, a: Address)
    requires ValidEnv(env) && IsRun(env, start, es)
    ensures var s := Run(env, start, es);
            var until := PermittedUntil(env, start, es, id, a);
            && (PermissionOf(s, id, a).Some? ==> until == Some(PermissionOf(s, id, a).value.expiry))
            && (until.Some? && until.value > s.now && id in s.allocations ==> PermissionOf(s, id, a).Some?)
            && (until.Some? ==> id < s.sessions.pending.next)
  {
    if es != [] {
      var before := es[..|es|-1];
      var s := Run(env, start, before);
      RunInv(env, start, before);
      RunOnPermission(env, start, before, id, a);
      StepOnPermission(env, s, es[|es|-1], id, a);
      TimePasses(env, s, es[|es|-1]);
      if id < s.sessions.pending.next {
        StepKeepsIdentity(env, s, es[|es|-1], id);
      }
    }
  }

  lemma {:induction false} RunOnChannel(env: Env, start: int, es: seq<Event>, id: nat, n: nat)
    requires ValidEnv(env) && IsRun(env, start, es)
    ensures var s := Run(env, start, es);
            var until := BoundUntil(env, start, es, id, n);
            && (ChannelOf(s, id, n).Some? ==>
                  until == Some((ChannelOf(s, id, n).value.value, ChannelOf(s, id, n).value.expiry)))
            && (until.Some? && until.value.1 > s.now && id in s.allocations ==> ChannelOf(s, id, n).Some?)
            && (until.Some? ==> id < s.sessions.pending.next)
  {
    if es != [] {
      var before := es[..|es|-1];
      var s := Run(env, start, before);
      RunInv(env, start, before);
      RunOnChannel(env, start, before, id, n);
      StepOnChannel(env, s, es[|es|-1], id, n);
      TimePasses(env, s, es[|es|-1]);
      if id < s.sessions.pending.next {
        StepKeepsIdentity(env, s, es[|es|-1], id);
      }
    }
  }

  lemma {:induction false} PermittedByEvent(env: Env, start: int, es: seq<Event>, id: nat, a: Address) returns (k: nat)
    requires ValidEnv(env) && PermittedUntil(env, start, es, id, a).Some?
    ensures k < |es| && InstallsPermission(env, Run(env, start, es[..k]), es[k], id, a)
  {
    k := |es| - 1;
    if !InstallsPermission(env, Run(env, start, es[..k]), es[k], id, a) {
      k := PermittedByEvent(env, start, es[..|es|-1], id, a);
      assert es[..|es|-1][..k] == es[..k];
    }
  }

  lemma {:induction false} BoundByEvent(env: Env, start: int, es: seq<Event>, id: nat, n: nat) returns (k: nat)
    requires ValidEnv(env) && BoundUntil(env, start, es, id, n).Some?
    ensures k < |es|
    ensures BindsChannel(env, Run(env, start, es[..k]), es[k], id, n) == Some(BoundUntil(env, start, es, id, n).value.0)
  {
    k := |es| - 1;
    if BindsChannel(env, Run(env, start, es[..k]), es[k], id, n).None? {
      k := BoundByEvent(env, start, es[..|es|-1], id, n);
      assert es[..|es|-1][..k] == es[..k];
    }
  }

  // Event `e` is an authenticated ChannelBind of `n` to `peer` from five-tuple `f`, which has allocation `id`.
  ghost predicate BoundBy(env: Env, s: State, e: Event, f: FiveTuple, id: nat, n: nat, peer: Endpoint) {
    && ByItsClient(env, s, e, id) && e.from == f
    && var req := e.packet.request;
       && req.operation == CHANNEL_BIND && req.channelNumber == Some(n) && req.peers != []
       && IsAddressOf(peer.address, req.peers[0]) && peer.port == req.peers[0].port && peer.protocol == UDP
  }

  // It is an authenticated CreatePermission or ChannelBind from `f` that names `address`, no later
  // than any address of a family that is not relayed.
  ghost predicate PermittedBy(env: Env, s: State, e: Event, f: FiveTuple, id: nat, address: Address) {
    && ByItsClient(env, s, e, id) && e.from == f
    && var req := e.packet.request;
       && (req.operation == CREATE_PERMISSION || req.operation == CHANNEL_BIND)
       && exists i :: 0 <= i < |req.peers| && IsAddressOf(address, req.peers[i])
                      && (req.operation == CHANNEL_BIND ==> i == 0)
                      && forall j :: 0 <= j <= i ==> SupportsFamily(env, req.peers[j].family)
  }

  lemma BindIsBy(env: Env, s: State, e: Event, id: nat, n: nat, peer: Endpoint)
    requires ValidEnv(env) && ByItsClient(env, s, e, id) && BindsChannel(env, s, e, id, n) == Some(peer)
    ensures BoundBy(env, s, e, e.from, id, n, peer)
  {
  }

  lemma PermissionEffects(env: Env, s: State, f: FiveTuple, req: Request, o: Oracle)
    requires ValidEnv(env)
    ensures var effect := Decide(env, s, f, req, o).effect;
            && (effect.Permitted? ==>
                  req.operation == CREATE_PERMISSION && effect.addresses == SupportedPrefix(env, req.peers))
            && (effect.ChannelBound? ==>
                  && req.operation == CHANNEL_BIND && req.peers != []
                  && SupportsFamily(env, req.peers[0].family) && IsAddressOf(effect.peer.address, req.peers[0]))
  {
  }

  lemma InstallIsBy(env: Env, s: State, e: Event, id: nat, address: Address)
    requires ValidEnv(env) && ByItsClient(env, s, e, id) && InstallsPermission(env, s, e, id, address)
    ensures PermittedBy(env, s, e, e.from, id, address)
  {
    var req := e.packet.request;
    PermissionEffects(env, s, e.from, req, e.oracle);
    PrefixStopsAtUnsupported(env, req.peers);
    var i :| 0 <= i < |req.peers| && IsAddressOf(address, req.peers[i])
             && (req.operation == CHANNEL_BIND ==> i == 0)
             && forall j :: 0 <= j <= i ==> SupportsFamily(env, req.peers[j].family);
  }

  // Whoever has an effect on an allocation is the client it belongs to for good.
  lemma EffectIsByOwner(env: Env, start: int, es: seq<Event>, k: nat, id: nat)
    requires ValidEnv(env) && IsRun(env, start, es) && k < |es| && id in Run(env, start, es).allocations
    requires EffectOn(env, Run(env, start, es[..k]), es[k], id) != NoEffect
    ensures ByItsClient(env, Run(env, start, es[..k]), es[k], id)
    ensures es[k].from == Run(env, start, es).allocations[id].fiveTuple
  {
    var s := Run(env, start, es[..k]);
    PrefixIsRun(env, start, es, k);
    RunInv(env, start, es[..k]);
    EffectsAreRequests(env, s, es[k], id);
    EffectsAreByItsClient(env, s, es[k], id);
    InvLinks(env, s, es[k].from);
    RunKeepsIdentity(env, start, es, k, id);
  }

  /** Relay safety over every history, for live and orphaned allocations alike: a peer's datagram
      goes to the client as ChannelData only if an earlier authenticated ChannelBind from that client,
      on that same allocation, named that number and that very endpoint, and as a Data indication only
      if an earlier authenticated request from it named that address, among relayed families. */
  lemma RelayedOnlyIfInstalled(
    env: Env, start: int, es: seq<Event>, id: nat, peer: Endpoint, payload: seq<Byte>, encodes: bool)
    requires ValidEnv(env) && IsRun(env, start, es)
    requires RelayToClient(Run(env, start, es), id, peer, payload, encodes) != []
    ensures id in Run(env, start, es).allocations
    ensures var f := Run(env, start, es).allocations[id].fiveTuple;
            var out := RelayToClient(Run(env, start, es), id, peer, payload, encodes);
            || (exists n, k ::
                  && 0 <= k < |es| && BoundBy(env, Run(env, start, es[..k]), es[k], f, id, n, peer)
                  && out == [ChannelDataToClient(n, payload, f.ClientEndpoint())])
            || (&& out == [DataToClient(peer, payload, f.ClientEndpoint())]
                && exists k :: 0 <= k < |es| && PermittedBy(env, Run(env, start, es[..k]), es[k], f, id, peer.address))
  {
    var s := Run(env, start, es);
    var a := s.allocations[id];
    match Channels.ChannelByAddress(a.channels, peer)
    case Some(n) =>
      assert Channels.Bound(a.channels, n, peer);
      var k := BoundByItsClient(env, start, es, id, n, peer);
    case None =>
      var k := PermittedByItsClient(env, start, es, id, peer.address);
  }

  lemma BoundByItsClient(env: Env, start: int, es: seq<Event>, id: nat, n: nat, peer: Endpoint) returns (k: nat)
    requires ValidEnv(env) && IsRun(env, start, es) && id in Run(env, start, es).allocations
    requires Channels.Bound(Run(env, start, es).allocations[id].channels, n, peer)
    ensures k < |es|
    ensures BoundBy(env, Run(env, start, es[..k]), es[k], Run(env, start, es).allocations[id].fiveTuple, id, n, peer)
  {
    RunOnChannel(env, start, es, id, n);
    k := BoundByEvent(env, start, es, id, n);
    EffectIsByOwner(env, start, es, k, id);
    BindIsBy(env, Run(env, start, es[..k]), es[k], id, n, peer);
  }

  lemma PermittedByItsClient(env: Env, start: int, es: seq<Event>, id: nat, address: Address) returns (k: nat)
    requires ValidEnv(env) && IsRun(env, start, es) && id in Run(env, start, es).allocations
    requires address in Run(env, start, es).allocations[id].permissions.entries
    ensures k < |es|
    ensures var f := Run(env, start, es).allocations[id].fiveTuple;
            PermittedBy(env, Run(env, start, es[..k]), es[k], f, id, address)
  {
    RunOnPermission(env, start, es, id, address);
    k := PermittedByEvent(env, start, es, id, address);
    EffectIsByOwner(env, start, es, k, id);
    InstallIsBy(env, Run(env, start, es[..k]), es[k], id, address);
  }

  lemma ReachedAllocation(env: Env, start: int, es: seq<Event>, id: nat)
    requires ValidEnv(env) && IsRun(env, start, es) && id in Run(env, start, es).allocations
    ensures AllocationInv(Run(env, start, es).allocations[id], Run(env, start, es).now)
  {
    RunInv(env, start, es);
  }

  lemma ReachedOwner(env: Env, start: int, es: seq<Event>, f: FiveTuple)
    requires ValidEnv(env) && IsRun(env, start, es) && FindAllocation(Run(env, start, es), f).Some?
    ensures var s := Run(env, start, es); s.allocations[FindAllocation(s, f).value].fiveTuple == f
  {
    RunInv(env, start, es);
    NotFound(env, Run(env, start, es), f);
  }

  /** In every reachable state a channel works both ways or not at all: the client's ChannelData on a
      number goes to an endpoint exactly when that endpoint's datagrams come back on that number. */
  lemma ChannelIsTwoWay(env: Env, start: int, es: seq<Event>, f: FiveTuple, n: nat, peer: Endpoint, payload: seq<Byte>)
    requires ValidEnv(env) && IsRun(env, start, es) && FindAllocation(Run(env, start, es), f).Some?
    ensures var s := Run(env, start, es);
            var id := FindAllocation(s, f).value;
            RelayToPeer(s, f, ChannelData(n, payload, true)) == [ToPeer(id, payload, peer)] <==>
            RelayToClient(s, id, peer, payload, true) == [ChannelDataToClient(n, payload, f.ClientEndpoint())]
  {
    var s := Run(env, start, es);
    var a := s.allocations[FindAllocation(s, f).value];
    ReachedAllocation(env, start, es, FindAllocation(s, f).value);
    ReachedOwner(env, start, es, f);
    Channels.LookupsAreInverse(a.channels, s.now, n, peer);
  }

  /** What a client sends on a channel goes nowhere but to the endpoint that an earlier authenticated
      ChannelBind from that client, on the same allocation, named with that number. */
  lemma SentOnlyIfBound(env: Env, start: int, es: seq<Event>, f: FiveTuple, n: nat, payload: seq<Byte>, encodes: bool)
    requires ValidEnv(env) && IsRun(env, start, es)
    requires RelayToPeer(Run(env, start, es), f, ChannelData(n, payload, encodes)) != []
    ensures FindAllocation(Run(env, start, es), f).Some?
    ensures var id := FindAllocation(Run(env, start, es), f).value;
            exists k, peer ::
              && 0 <= k < |es| && BoundBy(env, Run(env, start, es[..k]), es[k], f, id, n, peer)
              && RelayToPeer(Run(env, start, es), f, ChannelData(n, payload, encodes)) == [ToPeer(id, payload, peer)]
  {
    var s := Run(env, start, es);
    var id := FindAllocation(s, f).value;
    var peer := s.allocations[id].channels.entries[n].value;
    ReachedOwner(env, start, es, f);
    var k := BoundByItsClient(env, start, es, id, n, peer);
    assert RelayToPeer(s, f, ChannelData(n, payload, encodes)) == [ToPeer(id, payload, peer)];
  }

  // Other permission tables in the same allocations.
  function WithPermissions(s: State, tables: nat -> Permissions.PermissionTable): State {
    s.(allocations := map id | id in s.allocations :: s.allocations[id].(permissions := tables(id)))
  }

  /** A Send indication is relayed exactly when its five-tuple has an allocation, data and address are
      given, and the data encodes; and to that address.  No permission plays any part in what a client
      sends: whatever the permission tables hold, the same goes out. */
  lemma SendIgnoresPermissions(
    env: Env, s: State, f: FiveTuple, data: Option<seq<Byte>>, to: Option<PeerAddress>, encodes: bool, o: Oracle,
    tables: nat -> Permissions.PermissionTable)
    requires ValidEnv(env)
    ensures var out := Outputs(env, s, Received(f, SendIndication(data, to, encodes), o));
            && (out != [] <==> FindAllocation(s, f).Some? && data.Some? && to.Some? && encodes)
            && (out != [] ==>
                  out == [ToPeer(FindAllocation(s, f).value, data.value,
                                 Endpoint(if to.value.family == IPv4 then V4(to.value.octets) else V6(to.value.octets),
                                          to.value.port, UDP))])
    ensures forall packet :: RelayToPeer(WithPermissions(s, tables), f, packet) == RelayToPeer(s, f, packet)
  {
  }

  ghost predicate LiveBind(env: Env, start: int, es: seq<Event>, id: nat, n: nat, peer: Endpoint)
    requires ValidEnv(env)
  {
    match BoundUntil(env, start, es, id, n)
    case None => false
    case Some((p, until)) => p == peer && until > Run(env, start, es).now
  }

  ghost predicate LivePermission(env: Env, start: int, es: seq<Event>, id: nat, address: Address)
    requires ValidEnv(env)
  {
    match PermittedUntil(env, start, es, id, address)
    case None => false
    case Some(until) => until > Run(env, start, es).now
  }

  // Once drained, the tables hold what the history says is unexpired.
  lemma DrainedTables(env: Env, start: int, es: seq<Event>, id: nat, n: nat, peer: Endpoint)
    requires ValidEnv(env) && IsRun(env, start, es) && id in Run(env, start, es).allocations
    requires var s := Run(env, start, es);
             Drained(s.allocations[id].permissions, s.now) && Drained(s.allocations[id].channels, s.now)
    ensures var a := Run(env, start, es).allocations[id];
            && (peer.address in a.permissions.entries <==> LivePermission(env, start, es, id, peer.address))
            && (Channels.Bound(a.channels, n, peer) <==> LiveBind(env, start, es, id, n, peer))
  {
    var s := Run(env, start, es);
    var a := s.allocations[id];
    ReachedAllocation(env, start, es, id);
    RunOnPermission(env, start, es, id, peer.address);
    RunOnChannel(env, start, es, id, n);
    if peer.address in a.permissions.entries {
      DrainedEntriesAreLive(a.permissions, s.now, peer.address);
    }
    if n in a.channels.entries {
      DrainedEntriesAreLive(a.channels, s.now, n);
    }
  }

  /** In a drained state the choice is decided by the history alone: ChannelData on the number whose
      last bind to that endpoint is unexpired, else a Data indication if the address's last
      installation is unexpired, else nothing. */
  lemma RelayDecidedByHistory(env: Env, start: int, es: seq<Event>, id: nat, peer: Endpoint, payload: seq<Byte>)
    requires ValidEnv(env) && IsRun(env, start, es) && id in Run(env, start, es).allocations
    requires var s := Run(env, start, es);
             Drained(s.allocations[id].permissions, s.now) && Drained(s.allocations[id].channels, s.now)
    ensures var client := Run(env, start, es).allocations[id].fiveTuple.ClientEndpoint();
            var out := RelayToClient(Run(env, start, es), id, peer, payload, true);
            && (forall n :: LiveBind(env, start, es, id, n, peer) ==> out == [ChannelDataToClient(n, payload, client)])
            && ((forall n :: !LiveBind(env, start, es, id, n, peer)) ==>
                  out == if LivePermission(env, start, es, id, peer.address)
                         then [DataToClient(peer, payload, client)] else [])
  {
    var s := Run(env, start, es);
    var a := s.allocations[id];
    ReachedAllocation(env, start, es, id);
    forall n: nat
      ensures Channels.Bound(a.channels, n, peer) <==> LiveBind(env, start, es, id, n, peer)
      ensures peer.address in a.permissions.entries <==> LivePermission(env, start, es, id, peer.address)
      ensures Channels.ChannelByAddress(a.channels, peer) == Some(n) <==> Channels.Bound(a.channels, n, peer)
    {
      DrainedTables(env, start, es, id, n, peer);
      Channels.LookupsAreInverse(a.channels, s.now, n, peer);
    }
    assert peer.address in a.permissions.entries <==> LivePermission(env, start, es, id, peer.address) by {
      DrainedTables(env, start, es, id, 0, peer);
    }
    Channels.LookupsAreInverse(a.channels, s.now, 0, peer);
  }

  // ---------------------------------------------------------------- exactly what is relayed

  /** What becomes of a datagram from a peer, in every reachable state, live or orphaned, drained or not:
      ChannelData on the number bound to the sender, if it encodes; without such a number a Data
      indication if the sender's address has a permission; and else nothing.  It goes to the client's own
      address and port. */
  lemma RelayIsExact(env: Env, s: State, id: nat, peer: Endpoint, payload: seq<Byte>, encodes: bool)
    requires ValidEnv(env) && ServerInv(env, s) && id in s.allocations
    ensures var a := s.allocations[id];
            var client := Endpoint(a.fiveTuple.clientAddress, a.fiveTuple.clientPort, a.fiveTuple.protocol);
            var out := Outputs(env, s, PeerDatagram(id, peer, payload, encodes));
            && (forall n :: Channels.Bound(a.channels, n, peer) ==>
                  out == if encodes then [ChannelDataToClient(n, payload, client)] else [])
            && ((forall n :: !Channels.Bound(a.channels, n, peer)) ==>
                  out == if peer.address in a.permissions.entries then [DataToClient(peer, payload, client)] else [])
  {
    var a := s.allocations[id];
    assert AllocationInv(a, s.now);
    ScanIsExact(a.channels, s.now, peer);
  }

  lemma ScanIsExact(t: Channels.ChannelTable, now: int, peer: Endpoint)
    requires Channels.ChannelInv(t, now)
    ensures forall n: nat :: Channels.Bound(t, n, peer) ==> Channels.ChannelByAddress(t, peer) == Some(n)
    ensures (forall n :: !Channels.Bound(t, n, peer)) ==> Channels.ChannelByAddress(t, peer) == None
  {
    forall n: nat
      ensures Channels.Bound(t, n, peer) ==> Channels.ChannelByAddress(t, peer) == Some(n)
    {
      Channels.LookupsAreInverse(t, now, n, peer);
    }
    Channels.LookupsAreInverse(t, now, 0, peer);
  }

  /** What becomes of ChannelData from a client: it goes to the peer bound to its number in the client's
      own allocation, if there is one and the data encodes, and else nowhere. */
  lemma ChannelDataIsExact(
    env: Env, s: State, f: FiveTuple, n: nat, peer: Endpoint, payload: seq<Byte>, encodes: bool, o: Oracle)
    requires ValidEnv(env)
    ensures var out := Outputs(env, s, Received(f, ChannelData(n, payload, encodes), o));
            && (out != [] <==>
                  && FindAllocation(s, f).Some? && encodes
                  && n in s.allocations[FindAllocation(s, f).value].channels.entries)
            && (FindAllocation(s, f).Some? && encodes
                && Channels.Bound(s.allocations[FindAllocation(s, f).value].channels, n, peer) ==>
                  out == [ToPeer(FindAllocation(s, f).value, payload, peer)])
  {
  }

  // ---------------------------------------------------------------- what a request opens

  // The instant until which an installation lasts is never brought forward.
  lemma {:induction false} PermittedUntilGrows(
    env: Env, start: int, es: seq<Event>, more: seq<Event>, id: nat, address: Address, until: int)
    requires ValidEnv(env) && PermittedUntil(env, start, es, id, address).Some?
    requires until <= PermittedUntil(env, start, es, id, address).value
    requires until <= After(Run(env, start, es).now, env.permissionLifetime)
    ensures PermittedUntil(env, start, es + more, id, address).Some?
    ensures until <= PermittedUntil(env, start, es + more, id, address).value
    ensures Run(env, start, es + more).now >= Run(env, start, es).now
  {
    if more == [] {
      assert es + more == es;
    } else {
      var before := more[..|more|-1];
      assert (es + more)[..|es + more|-1] == es + before;
      PermittedUntilGrows(env, start, es, before, id, address, until);
      TimePasses(env, Run(env, start, es + before), more[|more|-1]);
    }
  }

  // An authentic CreatePermission on allocation `id`, all of whose peers are of relayed families.
  ghost predicate PermitsAll(env: Env, s: State, e: Event, id: nat) {
    && e.Received? && e.packet.StunRequest?
    && var req := e.packet.request;
       && req.operation == 0x008 && Authenticate(env, req, e.oracle.unixNow).Granted?
       && FindAllocation(s, e.from) == Some(id)
       && req.peers != []
       && forall i :: 0 <= i < |req.peers| ==> req.peers[i].family == if env.relayIsV4 then IPv4 else IPv6
  }

  lemma PermitsInstall(env: Env, s: State, e: Event, id: nat, i: nat, address: Address)
    requires ValidEnv(env) && PermitsAll(env, s, e, id)
    requires i < |e.packet.request.peers| && IsAddressOf(address, e.packet.request.peers[i])
    ensures InstallsPermission(env, s, e, id, address)
  {
    var req := e.packet.request;
    PrefixStopsAtUnsupported(env, req.peers);
    assert SupportedPrefix(env, req.peers)[i] == address;
  }

  lemma NowInstalled(env: Env, start: int, es: seq<Event>, e: Event, id: nat, address: Address)
    requires ValidEnv(env) && InstallsPermission(env, Run(env, start, es), e, id, address)
    ensures PermittedUntil(env, start, es + [e], id, address) ==
            Some(After(Run(env, start, es).now, env.permissionLifetime))
    ensures Run(env, start, es + [e]).now == Run(env, start, es).now
  {
    assert (es + [e])[..|es|] == es;
  }

  lemma ContinuedPermission(
    env: Env, start: int, es: seq<Event>, e: Event, more: seq<Event>, id: nat, i: nat, address: Address)
    requires ValidEnv(env) && IsRun(env, start, es + [e] + more) && PermitsAll(env, Run(env, start, es), e, id)
    requires i < |e.packet.request.peers| && IsAddressOf(address, e.packet.request.peers[i])
    requires id in Run(env, start, es + [e] + more).allocations
    requires Run(env, start, es + [e] + more).now < After(Run(env, start, es).now, env.permissionLifetime)
    ensures address in Run(env, start, es + [e] + more).allocations[id].permissions.entries
  {
    var until := After(Run(env, start, es).now, env.permissionLifetime);
    PermitsInstall(env, Run(env, start, es), e, id, i, address);
    NowInstalled(env, start, es, e, id, address);
    PermittedUntilGrows(env, start, es + [e], more, id, address, until);
    RunOnPermission(env, start, es + [e] + more, id, address);
  }

  /** A CreatePermission opens the way: from an authentic one whose peers are all of relayed families,
      until the permission lifetime has passed and whatever else happens, every datagram from the
      address of any of those peers, from whatever port, reaches the client as a Data indication, unless
      a channel is bound to its sender. */
  lemma PermissionOpensTheWay(
    env: Env, start: int, es: seq<Event>, e: Event, more: seq<Event>, id: nat, i: nat, peer: Endpoint,
    payload: seq<Byte>)
    requires ValidEnv(env) && IsRun(env, start, es + [e] + more) && PermitsAll(env, Run(env, start, es), e, id)
    requires i < |e.packet.request.peers| && IsAddressOf(peer.address, e.packet.request.peers[i])
    requires id in Run(env, start, es + [e] + more).allocations
    requires Run(env, start, es + [e] + more).now < After(Run(env, start, es).now, env.permissionLifetime)
    requires forall n :: !Channels.Bound(Run(env, start, es + [e] + more).allocations[id].channels, n, peer)
    ensures var s := Run(env, start, es + [e] + more);
            var f := s.allocations[id].fiveTuple;
            forall encodes ::
              Outputs(env, s, PeerDatagram(id, peer, payload, encodes)) ==
              [DataToClient(peer, payload, Endpoint(f.clientAddress, f.clientPort, f.protocol))]
  {
    var s := Run(env, start, es + [e] + more);
    ContinuedPermission(env, start, es, e, more, id, i, peer.address);
    RunInv(env, start, es + [e] + more);
    forall encodes
      ensures Outputs(env, s, PeerDatagram(id, peer, payload, encodes)) ==
              var f := s.allocations[id].fiveTuple;
              [DataToClient(peer, payload, Endpoint(f.clientAddress, f.clientPort, f.protocol))]
    {
      RelayIsExact(env, s, id, peer, payload, encodes);
    }
  }

  // A bind of an unexpired channel can only be to the peer it has.
  lemma RebindIsSame(env: Env, s: State, e: Event, id: nat, n: nat)
    requires ValidEnv(env) && Legal(s, e) && ChannelOf(s, id, n).Some? && BindsChannel(env, s, e, id, n).Some?
    ensures BindsChannel(env, s, e, id, n) == Some(ChannelOf(s, id, n).value.value)
  {
    DecideIsSound(env, s, e.from, e.packet.request, e.oracle);
  }

  // Until it expires a channel keeps its peer, and its expiry is never brought forward.
  lemma {:induction false} BoundUntilGrows(
    env: Env, start: int, es: seq<Event>, more: seq<Event>, id: nat, n: nat, peer: Endpoint, until: int)
    requires ValidEnv(env) && IsRun(env, start, es + more)
    requires BoundUntil(env, start, es, id, n).Some?
    requires BoundUntil(env, start, es, id, n).value.0 == peer && until <= BoundUntil(env, start, es, id, n).value.1
    requires until <= After(Run(env, start, es).now, env.channelLifetime)
    requires id in Run(env, start, es + more).allocations && Run(env, start, es + more).now < until
    ensures BoundUntil(env, start, es + more, id, n).Some?
    ensures BoundUntil(env, start, es + more, id, n).value.0 == peer
    ensures until <= BoundUntil(env, start, es + more, id, n).value.1
    ensures Run(env, start, es + more).now >= Run(env, start, es).now
  {
    if more == [] {
      assert es + more == es;
    } else {
      var before, e := more[..|more|-1], more[|more|-1];
      assert es + more == es + before + [e];
      RunGrows(env, start, es + before, e);
      ContinuedBefore(env, start, es, before, e, id, n);
      BoundUntilGrows(env, start, es, before, id, n, peer, until);
      StaysBound(env, start, es + before, e, id, n, peer, until);
    }
  }

  lemma RunGrows(env: Env, start: int, es: seq<Event>, e: Event)
    requires ValidEnv(env)
    ensures Run(env, start, es + [e]) == Step(env, Run(env, start, es), e)
    ensures IsRun(env, start, es + [e]) <==> IsRun(env, start, es) && Legal(Run(env, start, es), e)
    ensures Run(env, start, es + [e]).now >= Run(env, start, es).now
  {
    assert (es + [e])[..|es|] == es;
    TimePasses(env, Run(env, start, es), e);
  }

  lemma StaysBound(env: Env, start: int, es: seq<Event>, e: Event, id: nat, n: nat, peer: Endpoint, until: int)
    requires ValidEnv(env) && IsRun(env, start, es) && Legal(Run(env, start, es), e)
    requires BoundUntil(env, start, es, id, n).Some?
    requires BoundUntil(env, start, es, id, n).value.0 == peer && until <= BoundUntil(env, start, es, id, n).value.1
    requires until <= After(Run(env, start, es).now, env.channelLifetime)
    requires id in Run(env, start, es).allocations && Run(env, start, es).now < until
    ensures BoundUntil(env, start, es + [e], id, n).Some?
    ensures BoundUntil(env, start, es + [e], id, n).value.0 == peer
    ensures until <= BoundUntil(env, start, es + [e], id, n).value.1
  {
    assert (es + [e])[..|es|] == es;
    RunOnChannel(env, start, es, id, n);
    if BindsChannel(env, Run(env, start, es), e, id, n).Some? {
      RebindIsSame(env, Run(env, start, es), e, id, n);
    }
  }

  // An allocation that is there after a step was there before it, if it is not new.
  lemma ContinuedBefore(env: Env, start: int, es: seq<Event>, before: seq<Event>, e: Event, id: nat, n: nat)
    requires ValidEnv(env) && IsRun(env, start, es + before) && BoundUntil(env, start, es, id, n).Some?
    requires id in Step(env, Run(env, start, es + before), e).allocations
    ensures id in Run(env, start, es + before).allocations
  {
    PrefixIsRun(env, start, es + before, |es|);
    assert (es + before)[..|es|] == es;
    RunOnChannel(env, start, es, id, n);
    RunKeepsIdentity(env, start, es + before, |es|, id);
    StepKeepsIdentity(env, Run(env, start, es + before), e, id);
  }

  lemma NowBound(env: Env, start: int, es: seq<Event>, e: Event, id: nat, n: nat, peer: Endpoint)
    requires ValidEnv(env) && BindsChannel(env, Run(env, start, es), e, id, n) == Some(peer)
    ensures BoundUntil(env, start, es + [e], id, n) ==
            Some((peer, After(Run(env, start, es).now, env.channelLifetime)))
    ensures Run(env, start, es + [e]).now == Run(env, start, es).now
  {
    assert (es + [e])[..|es|] == es;
  }

  // An authentic ChannelBind on allocation `id`, of a number and a peer that are bound to each other or
  // both unbound, the peer of the family that is relayed.
  ghost predicate BindsFairly(env: Env, s: State, e: Event, id: nat, n: nat, peer: Endpoint) {
    && e.Received? && e.packet.StunRequest?
    && var req := e.packet.request;
       && req.operation == 0x009 && Authenticate(env, req, e.oracle.unixNow).Granted?
       && FindAllocation(s, e.from) == Some(id)
       && req.channelNumber == Some(n) && req.peers != []
       && req.peers[0].family == (if env.relayIsV4 then IPv4 else IPv6)
       && IsAddressOf(peer.address, req.peers[0]) && peer.port == req.peers[0].port && peer.protocol == UDP
       && var t := s.allocations[id].channels;
          Channels.Bound(t, n, peer) || (n !in t.entries && forall m :: !Channels.Bound(t, m, peer))
  }

  lemma FairBindTakes(env: Env, s: State, e: Event, id: nat, n: nat, peer: Endpoint)
    requires ValidEnv(env) && BindsFairly(env, s, e, id, n, peer)
    ensures BindsChannel(env, s, e, id, n) == Some(peer)
  {
    Admission.AcceptsIff(s.allocations[id].channels, n, peer);
  }

  /** A ChannelBind opens the way in both directions: from an authentic one that is fair, until the
      channel lifetime has passed and whatever else happens, ChannelData on that number goes to that very
      peer as long as the client has its session, and every datagram from that peer reaches the client
      as ChannelData on that number. */
  lemma ChannelOpensTheWay(
    env: Env, start: int, es: seq<Event>, e: Event, more: seq<Event>, id: nat, n: nat, peer: Endpoint,
    payload: seq<Byte>)
    requires ValidEnv(env) && IsRun(env, start, es + [e] + more)
    requires BindsFairly(env, Run(env, start, es), e, id, n, peer)
    requires id in Run(env, start, es + [e] + more).allocations
    requires Run(env, start, es + [e] + more).now < After(Run(env, start, es).now, env.channelLifetime)
    ensures var s := Run(env, start, es + [e] + more);
            var f := s.allocations[id].fiveTuple;
            && Outputs(env, s, PeerDatagram(id, peer, payload, true)) ==
               [ChannelDataToClient(n, payload, Endpoint(f.clientAddress, f.clientPort, f.protocol))]
            && (FindAllocation(s, e.from) == Some(id) ==>
                  forall o :: Outputs(env, s, Received(e.from, ChannelData(n, payload, true), o)) ==
                              [ToPeer(id, payload, peer)])
  {
    var all := es + [e] + more;
    var s := Run(env, start, all);
    FairBindTakes(env, Run(env, start, es), e, id, n, peer);
    NowBound(env, start, es, e, id, n, peer);
    BoundUntilGrows(env, start, es + [e], more, id, n, peer, After(Run(env, start, es).now, env.channelLifetime));
    RunOnChannel(env, start, all, id, n);
    RunInv(env, start, all);
    assert Channels.Bound(s.allocations[id].channels, n, peer);
    RelayIsExact(env, s, id, peer, payload, true);
    forall o
      ensures FindAllocation(s, e.from) == Some(id) ==>
                Outputs(env, s, Received(e.from, ChannelData(n, payload, true), o)) == [ToPeer(id, payload, peer)]
    {
      ChannelDataIsExact(env, s, e.from, n, peer, payload, true, o);
    }
  }

  // ---------------------------------------------------------------- channels and permissions

  lemma {:induction false} PermissionOutlastsChannel(env: Env, start: int, es: seq<Event>, id: nat, n: nat)
    requires ValidEnv(env) && env.permissionLifetime >= env.channelLifetime
    ensures match BoundUntil(env, start, es, id, n)
            case None => true
            case Some((peer, until)) =>
              && PermittedUntil(env, start, es, id, peer.address).Some?
              && PermittedUntil(env, start, es, id, peer.address).value >= until
              && until <= After(Run(env, start, es).now, env.channelLifetime)
  {
    if es != [] {
      var before := es[..|es|-1];
      PermissionOutlastsChannel(env, start, before, id, n);
      TimePasses(env, Run(env, start, before), es[|es|-1]);
    }
  }

  /** When permissions live at least as long as channels, the peer of every unexpired channel has an
      unexpired permission, in every reachable state. */
  lemma ChannelsHavePermissions(env: Env, start: int, es: seq<Event>, id: nat, n: nat)
    requires ValidEnv(env) && IsRun(env, start, es) && env.permissionLifetime >= env.channelLifetime
    requires var s := Run(env, start, es);
             ChannelOf(s, id, n).Some? && ChannelOf(s, id, n).value.expiry > s.now
    ensures var s := Run(env, start, es);
            var permission := PermissionOf(s, id, ChannelOf(s, id, n).value.value.address);
            permission.Some? && permission.value.expiry > s.now
  {
    RunOnChannel(env, start, es, id, n);
    PermissionOutlastsChannel(env, start, es, id, n);
    RunOnPermission(env, start, es, id, ChannelOf(Run(env, start, es), id, n).value.value.address);
  }

  // A successful bind starts both lifetimes at the same instant.
  lemma BindArmsBoth(env: Env, start: int, es: seq<Event>, e: Event, id: nat, n: nat, peer: Endpoint)
    requires ValidEnv(env) && IsRun(env, start, es) && Legal(Run(env, start, es), e)
    requires BindsChannel(env, Run(env, start, es), e, id, n) == Some(peer)
    ensures var s := Run(env, start, es);
            var u := Step(env, s, e);
            && u.now == s.now
            && ChannelOf(u, id, n).Some? && ChannelOf(u, id, n).value.value == peer
            && ChannelOf(u, id, n).value.expiry == After(s.now, env.channelLifetime)
            && PermissionOf(u, id, peer.address).Some?
            && PermissionOf(u, id, peer.address).value.expiry == After(s.now, env.permissionLifetime)
  {
    var s := Run(env, start, es);
    RunInv(env, start, es);
    StepOnChannel(env, s, e, id, n);
    StepOnPermission(env, s, e, id, peer.address);
  }

  /** When permissions live shorter, every successful ChannelBind is followed, one permission
      lifetime later, by an unexpired channel whose peer has no unexpired permission. */
  lemma ShortPermissionsLeaveGaps(env: Env, start: int, es: seq<Event>, e: Event, id: nat, n: nat, peer: Endpoint)
    requires ValidEnv(env) && IsRun(env, start, es + [e]) && 0 <= env.permissionLifetime < env.channelLifetime
    requires BindsChannel(env, Run(env, start, es), e, id, n) == Some(peer)
    ensures var gap := es + [e] + [Tick(env.permissionLifetime * TICKS_PER_SECOND)];
            var s := Run(env, start, gap);
            && IsRun(env, start, gap)
            && ChannelOf(s, id, n).Some? && ChannelOf(s, id, n).value.value == peer
            && ChannelOf(s, id, n).value.expiry > s.now
            && (PermissionOf(s, id, peer.address).Some? ==> PermissionOf(s, id, peer.address).value.expiry <= s.now)
  {
    var s := Run(env, start, es);
    var bound := es + [e];
    var gap := bound + [Tick(env.permissionLifetime * TICKS_PER_SECOND)];
    assert bound[..|bound|-1] == es && gap[..|gap|-1] == bound;
    BindArmsBoth(env, start, es, e, id, n, peer);
    assert Run(env, start, gap) == Step(env, Step(env, s, e), gap[|gap|-1]);
  }
}
