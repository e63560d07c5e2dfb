/** Expiry ends a session, not the allocation behind it: the allocation stays on its port, orphaned,
    until its reader ends. */
module Orphans {
  import opened Common
  import opened Timers
  import opened RelayPorts
  import opened Server
  import opened ServerInvariant
  import opened Sessions
  import PortAccounting
  import Stun

  // ---------------------------------------------------------------- what frees a port

  // The reader of an orphan ends.
  ghost predicate EndsReader(s: State, e: Event) {
    e.ReaderEnds? && e.id in s.allocations && Orphaned(s, e.id)
  }

  // The holder of port `p` lets it go.
  ghost predicate Frees(s: State, e: Event, p: nat) {
    || (EndsReader(s, e) && s.allocations[e.id].port == p)
    || (e.ReservationExpires? && e.token in s.reservations && s.reservations[e.token] == p)
  }

  lemma EffectsFreeNothing(env: Env, s: State, f: FiveTuple, effect: Effect)
    ensures s.bound <= Apply(env, s, f, effect).bound
  {
  }

  /** A port becomes free exactly when the reader of the orphan that holds it ends, or when
      expireReservation is called for the token that holds it.  No request, no passing of time and no
      expiry of a session frees one. */
  lemma PortFreedIff(env: Env, s: State, e: Event, p: nat)
    requires ValidEnv(env) && p in s.bound
    ensures p !in Step(env, s, e).bound <==> Frees(s, e, p)
  {
    if e.Received? && e.packet.StunRequest? {
      EffectsFreeNothing(env, s, e.from, Decide(env, s, e.from, e.packet.request, e.oracle).effect);
    } else if EndsReader(s, e) {
      assert Step(env, s, e) == Release(s, e.id);
    }
  }

  /** The handler that ends a session leaves every allocation, reservation and bound port as it was. */
  lemma ExpiryFreesNothing(env: Env, s: State, i: nat)
    requires ValidEnv(env)
    ensures var u := Step(env, s, SessionHandler(i));
            u.allocations == s.allocations && u.reservations == s.reservations && u.bound == s.bound
  {
  }

  ghost predicate ReaderLasts(env: Env, s: State, es: seq<Event>, id: nat)
    requires ValidEnv(env)
  {
    es != [] ==>
      && ReaderLasts(env, s, es[..|es|-1], id)
      && !(EndsReader(RunFrom(env, s, es[..|es|-1]), es[|es|-1]) && es[|es|-1].id == id)
  }

  /** Over any continuation an allocation stays, on the same bound port, exactly as long as its own
      reader does not end; whether it is still in the session map does not matter. */
  lemma {:induction false} AllocationOutlivesSession(env: Env, s: State, es: seq<Event>, id: nat)
    requires ValidEnv(env) && id in s.allocations && id < s.sessions.pending.next
    ensures var u := RunFrom(env, s, es);
            && id < u.sessions.pending.next
            && (id in u.allocations <==> ReaderLasts(env, s, es, id))
            && (id in u.allocations ==> u.allocations[id].port == s.allocations[id].port)
  {
    if es != [] {
      var before, e := es[..|es|-1], es[|es|-1];
      var t := RunFrom(env, s, before);
      AllocationOutlivesSession(env, s, before, id);
      StepKeepsIdentity(env, t, e, id);
      if id in t.allocations {
        OnlyItsReaderEnds(env, t, e, id);
      }
    }
  }

  lemma EffectsKeepAllocations(env: Env, s: State, f: FiveTuple, effect: Effect)
    ensures s.allocations.Keys <= Apply(env, s, f, effect).allocations.Keys
  {
  }

  lemma OnlyItsReaderEnds(env: Env, s: State, e: Event, id: nat)
    requires ValidEnv(env) && id in s.allocations
    ensures id !in Step(env, s, e).allocations <==> EndsReader(s, e) && e.id == id
  {
    if e.Received? && e.packet.StunRequest? {
      EffectsKeepAllocations(env, s, e.from, Decide(env, s, e.from, e.packet.request, e.oracle).effect);
    }
  }

  // Every wait that can still fire is on the timer of an allocation that is still there.
  ghost predicate TimersLive(s: State) {
    forall i :: i in s.sessions.pending.waits && s.sessions.pending.waits[i].status.Waiting? ==>
      s.sessions.pending.waits[i].timer in s.allocations
  }

  lemma EffectKeepsTimersLive(env: Env, s: State, f: FiveTuple, effect: Effect)
    requires TimersLive(s) && Ready(s, f, effect)
    ensures TimersLive(Apply(env, s, f, effect))
  {
  }

  lemma OtherKeepsTimersLive(env: Env, s: State, e: Event)
    requires ValidEnv(env) && TimersLive(s) && Interleaving(e)
    ensures TimersLive(Step(env, s, e))
  {
    OtherOnKeys(env, s, e);
  }

  /** Over every run the timer of an allocation dies with it: no wait is left that could still fire. */
  lemma {:induction false} TimersDieWithAllocations(env: Env, start: int, es: seq<Event>)
    requires ValidEnv(env) && IsRun(env, start, es)
    ensures TimersLive(Run(env, start, es))
  {
    if es != [] {
      var before, e := es[..|es|-1], es[|es|-1];
      var s := Run(env, start, before);
      TimersDieWithAllocations(env, start, before);
      if Interleaving(e) {
        OtherKeepsTimersLive(env, s, e);
      } else {
        RunInv(env, start, before);
        DecisionIsReady(env, s, e.from, e.packet.request, e.oracle);
        EffectKeepsTimersLive(env, s, e.from, Decide(env, s, e.from, e.packet.request, e.oracle).effect);
      }
    }
  }

  // ---------------------------------------------------------------- every allocation is paid for

  ghost predicate CreatesAllocation(env: Env, s: State, e: Event)
    requires ValidEnv(env)
  {
    e.Received? && e.packet.StunRequest? && Creates(env, s, e.from, e.packet.request, e.oracle)
  }

  // How many allocations a history has created, and how many readers of orphans have ended in it.
  ghost function Creations(env: Env, start: int, es: seq<Event>): nat
    requires ValidEnv(env)
  {
    if es == [] then 0
    else
      var s := Run(env, start, es[..|es|-1]);
      Creations(env, start, es[..|es|-1]) + if CreatesAllocation(env, s, es[|es|-1]) then 1 else 0
  }

  ghost function Endings(env: Env, start: int, es: seq<Event>): nat
    requires ValidEnv(env)
  {
    if es == [] then 0
    else
      var s := Run(env, start, es[..|es|-1]);
      Endings(env, start, es[..|es|-1]) + if EndsReader(s, es[|es|-1]) then 1 else 0
  }

  lemma EffectOnCount(env: Env, s: State, f: FiveTuple, effect: Effect)
    requires Ready(s, f, effect) && s.sessions.pending.next !in s.allocations
    ensures |Apply(env, s, f, effect).allocations| ==
            |s.allocations| + if effect.Allocated? || effect.Claimed? then 1 else 0
  {
    CountKeys(s.allocations);
    CountKeys(Apply(env, s, f, effect).allocations);
    EffectOnKeys(env, s, f, effect);
  }

  lemma CountKeys<V>(m: map<nat, V>)
    ensures |m| == |m.Keys|
  {
  }

  lemma EffectOnKeys(env: Env, s: State, f: FiveTuple, effect: Effect)
    requires Ready(s, f, effect)
    ensures Apply(env, s, f, effect).allocations.Keys ==
            s.allocations.Keys + if effect.Allocated? || effect.Claimed? then {s.sessions.pending.next} else {}
  {
  }

  lemma OtherOnCount(env: Env, s: State, e: Event)
    requires ValidEnv(env) && Interleaving(e)
    ensures |Step(env, s, e).allocations| ==
            |s.allocations| - if EndsReader(s, e) then 1 else 0
  {
    CountKeys(s.allocations);
    CountKeys(Step(env, s, e).allocations);
    OtherOnKeys(env, s, e);
  }

  lemma OtherOnKeys(env: Env, s: State, e: Event)
    requires ValidEnv(env) && Interleaving(e)
    ensures Step(env, s, e).allocations.Keys == s.allocations.Keys - if EndsReader(s, e) then {e.id} else {}
  {
  }

  lemma StepOnCount(env: Env, s: State, e: Event)
    requires ValidEnv(env) && ServerInv(env, s) && Legal(s, e)
    ensures |Step(env, s, e).allocations| ==
            |s.allocations|
            + (if CreatesAllocation(env, s, e) then 1 else 0)
            - (if EndsReader(s, e) then 1 else 0)
  {
    if Interleaving(e) {
      OtherOnCount(env, s, e);
    } else {
      DecisionIsReady(env, s, e.from, e.packet.request, e.oracle);
      assert s.sessions.pending.next in s.allocations ==> s.sessions.pending.next in OwnersOf(s);
      EffectOnCount(env, s, e.from, Decide(env, s, e.from, e.packet.request, e.oracle).effect);
    }
  }

  /** Conservation over every run: each allocation ever created is still there, holding its port,
      unless the reader of an orphan has ended for it. */
  lemma {:induction false} AllocationsAreConserved(env: Env, start: int, es: seq<Event>)
    requires ValidEnv(env) && IsRun(env, start, es)
    ensures Creations(env, start, es) == |Run(env, start, es).allocations| + Endings(env, start, es)
  {
    if es != [] {
      var before := es[..|es|-1];
      RunInv(env, start, before);
      AllocationsAreConserved(env, start, before);
      StepOnCount(env, Run(env, start, before), es[|es|-1]);
    }
  }

  /** So the range bounds how many allocations a server can ever make, however many of them have
      expired: their number never exceeds the size of the range plus the readers that have ended. */
  lemma CreationsFitThePool(env: Env, start: int, es: seq<Event>)
    requires ValidEnv(env) && IsRun(env, start, es)
    ensures Creations(env, start, es) <= env.ports.max - env.ports.min + 1 + Endings(env, start, es)
  {
    AllocationsAreConserved(env, start, es);
    PortAccounting.HoldersFitThePool(env, start, es);
  }

  ghost predicate Releases(s: State, e: Event) {
    exists p :: p in s.bound && Frees(s, e, p)
  }

  ghost predicate NothingFreed(env: Env, s: State, es: seq<Event>)
    requires ValidEnv(env)
  {
    es != [] ==>
      && NothingFreed(env, s, es[..|es|-1])
      && !Releases(RunFrom(env, s, es[..|es|-1]), es[|es|-1])
  }

  /** Bound ports only add up along a continuation in which none is freed. */
  lemma {:induction false} BoundOnlyGrows(env: Env, s: State, es: seq<Event>)
    requires ValidEnv(env) && NothingFreed(env, s, es)
    ensures s.bound <= RunFrom(env, s, es).bound
  {
    if es != [] {
      var before, e := es[..|es|-1], es[|es|-1];
      var t := RunFrom(env, s, before);
      BoundOnlyGrows(env, s, before);
      forall p | p in t.bound
        ensures p in Step(env, t, e).bound
      {
        PortFreedIff(env, t, e, p);
      }
    }
  }

  ghost predicate Full(r: PortRange, s: State) {
    forall p :: r.min <= p <= r.max ==> p in s.bound
  }

  /** Once the range is used up it stays so, and no new port is given out, however much time passes
      and however many sessions expire, until some port is freed. */
  lemma FullPoolStaysFull(env: Env, s: State, es: seq<Event>, f: FiveTuple, req: Stun.Request, o: Oracle)
    requires ValidEnv(env) && Full(env.ports, s) && NothingFreed(env, s, es)
    requires o.token !in RunFrom(env, s, es).reservations
    ensures Full(env.ports, RunFrom(env, s, es))
    ensures !Decide(env, RunFrom(env, s, es), f, req, o).effect.Allocated?
  {
    BoundOnlyGrows(env, s, es);
    DecideIsSound(env, RunFrom(env, s, es), f, req, o);
  }

  // ---------------------------------------------------------------- entries of a table end too

  // A due entry goes once the handler of the wait that covers it has run.
  lemma EndEntry<K, V>(t: Table<K, V>, k: K, i: nat, now: int, own: Ownership)
    requires k in t.entries && Covers(t, k, i) && t.entries[k].expiry <= now
    ensures Complete(Fire(t, i, now), i, now, own).entries == t.entries - {k}
  {
  }

  lemma EndOfPermission(env: Env, s: State, id: nat, i: nat)
    requires ValidEnv(env) && id in s.allocations
    ensures var u := Step(env, Step(env, s, PermissionFires(id, i)), PermissionHandler(id, i));
            && id in u.allocations && u.now == s.now
            && u.allocations[id].permissions ==
               Complete(Fire(s.allocations[id].permissions, i, s.now), i, s.now, Owned)
  {
  }

  lemma EndOfChannel(env: Env, s: State, id: nat, i: nat)
    requires ValidEnv(env) && id in s.allocations
    ensures var u := Step(env, Step(env, s, ChannelFires(id, i)), ChannelHandler(id, i));
            && id in u.allocations && u.now == s.now
            && u.allocations[id].channels ==
               Complete(Fire(s.allocations[id].channels, i, s.now), i, s.now, Owned)
  {
  }

  lemma TablesAreCovered(env: Env, s: State, id: nat)
    requires ServerInv(env, s) && id in s.allocations
    ensures Inv(s.allocations[id].permissions, s.now) && Inv(s.allocations[id].channels, s.now)
  {
    assert AllocationInv(s.allocations[id], s.now);
  }

  /** A due permission can always end: the event loop holds a wait whose firing and handler remove it,
      and no other permission. */
  lemma DuePermissionEnds(env: Env, s: State, id: nat, a: Address) returns (i: nat)
    requires ValidEnv(env) && ServerInv(env, s) && id in s.allocations
    requires a in s.allocations[id].permissions.entries && s.allocations[id].permissions.entries[a].expiry <= s.now
    ensures var u := Step(env, Step(env, s, PermissionFires(id, i)), PermissionHandler(id, i));
            && id in u.allocations
            && u.allocations[id].permissions.entries == s.allocations[id].permissions.entries - {a}
  {
    TablesAreCovered(env, s, id);
    i :| Covers(s.allocations[id].permissions, a, i);
    EndOfPermission(env, s, id, i);
    EndEntry(s.allocations[id].permissions, a, i, s.now, Owned);
  }

  /** And so can a due channel. */
  lemma DueChannelEnds(env: Env, s: State, id: nat, n: nat) returns (i: nat)
    requires ValidEnv(env) && ServerInv(env, s) && id in s.allocations
    requires n in s.allocations[id].channels.entries && s.allocations[id].channels.entries[n].expiry <= s.now
    ensures var u := Step(env, Step(env, s, ChannelFires(id, i)), ChannelHandler(id, i));
            && id in u.allocations
            && u.allocations[id].channels.entries == s.allocations[id].channels.entries - {n}
  {
    TablesAreCovered(env, s, id);
    i :| Covers(s.allocations[id].channels, n, i);
    EndOfChannel(env, s, id, i);
    EndEntry(s.allocations[id].channels, n, i, s.now, Owned);
  }

  // ---------------------------------------------------------------- every session ends as an orphan

  // The shortest way to the end of a session whose wait is `i`.
  function Ending(elapsed: nat, i: nat): seq<Event> {
    [Tick(elapsed), SessionFires(i), SessionHandler(i)]
  }

  lemma RunEnding(env: Env, s: State, elapsed: nat, i: nat)
    requires ValidEnv(env)
    ensures RunFrom(env, s, Ending(elapsed, i)) ==
            s.(now := s.now + elapsed,
               sessions := Complete(Fire(s.sessions, i, s.now + elapsed), i, s.now + elapsed, Shared))
    ensures IsContinuation(env, s, Ending(elapsed, i))
  {
    ContinuationGrows(env, s, [], Tick(elapsed));
    ContinuationGrows(env, s, [Tick(elapsed)], SessionFires(i));
    ContinuationGrows(env, s, [Tick(elapsed), SessionFires(i)], SessionHandler(i));
    assert Ending(elapsed, i) == [Tick(elapsed), SessionFires(i)] + [SessionHandler(i)];
    assert [Tick(elapsed), SessionFires(i)] == [Tick(elapsed)] + [SessionFires(i)];
    assert [Tick(elapsed)] == [] + [Tick(elapsed)];
  }

  /** Every session can end, and when it does its allocation is an orphan on the same bound port that
      treats every datagram from a peer as it did before. */
  lemma EverySessionEndsAsAnOrphan(env: Env, s: State, f: FiveTuple, elapsed: nat) returns (i: nat)
    requires ValidEnv(env) && ServerInv(env, s) && f in s.sessions.entries
    requires s.sessions.entries[f].expiry <= s.now + elapsed
    ensures IsContinuation(env, s, Ending(elapsed, i))
    ensures var u, id := RunFrom(env, s, Ending(elapsed, i)), s.sessions.entries[f].timer;
            && FindAllocation(s, f) == Some(id) && FindAllocation(u, f) == None && Orphaned(u, id)
            && u.allocations == s.allocations && u.bound == s.bound && s.allocations[id].port in u.bound
            && forall peer, payload, encodes ::
                 RelayToClient(u, id, peer, payload, encodes) == RelayToClient(s, id, peer, payload, encodes)
  {
    InvLinks(env, s, f);
    i := CoveringWait(env, s, f);
    SessionEnds(env, s, f, elapsed, i);
    OrphanedAfter(env, s, f, RunFrom(env, s, Ending(elapsed, i)));
    HeldPort(env, s, s.sessions.entries[f].timer);
  }

  lemma SessionEnds(env: Env, s: State, f: FiveTuple, elapsed: nat, i: nat)
    requires ValidEnv(env) && f in s.sessions.entries && Covers(s.sessions, f, i)
    requires s.sessions.entries[f].expiry <= s.now + elapsed
    ensures IsContinuation(env, s, Ending(elapsed, i))
    ensures var u := RunFrom(env, s, Ending(elapsed, i));
            && FindAllocation(u, f) == None && u.sessions.entries == s.sessions.entries - {f}
            && u.allocations == s.allocations && u.bound == s.bound
            && forall id, peer, payload, encodes ::
                 RelayToClient(u, id, peer, payload, encodes) == RelayToClient(s, id, peer, payload, encodes)
  {
    RunEnding(env, s, elapsed, i);
    EndEntry(s.sessions, f, i, s.now + elapsed, Shared);
  }

  lemma CoveringWait(env: Env, s: State, f: FiveTuple) returns (i: nat)
    requires ServerInv(env, s) && f in s.sessions.entries
    ensures Covers(s.sessions, f, i)
  {
    i :| Covers(s.sessions, f, i);
  }

  lemma OrphanedAfter(env: Env, s: State, f: FiveTuple, u: State)
    requires ServerInv(env, s) && f in s.sessions.entries && u.sessions.entries == s.sessions.entries - {f}
    ensures Orphaned(u, s.sessions.entries[f].timer)
  {
  }

  lemma HeldPort(env: Env, s: State, id: nat)
    requires ServerInv(env, s) && id in s.allocations
    ensures s.allocations[id].port in s.bound
  {
    assert id in PortsOf(s) && PortsOf(s)[id] == s.allocations[id].port;
  }
}
