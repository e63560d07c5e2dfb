/** The event loop over the server's objects: a history of calls on them is a run of the machine. */
module EventLoop {
  import opened Common
  import opened Timers
  import opened Server
  import opened ServerInvariant
  import opened AllocationObjects
  import opened Processor
  import Channels
  import Sessions

  // A datagram from a peer reaches the reader of its allocation, if that still runs.
  method Deliver(p: StunTurnProcessor, e: Event, ghost now: int, ghost s: State) returns (sent: seq<Output>)
    requires p.Valid() && s == p.manager.Contents(now) && e.PeerDatagram? && ServerInv(p.env, s)
    ensures s == Step(p.env, s, e) && sent == Outputs(p.env, s, e)
  {
    sent := [];
    if e.id in p.manager.running {
      ChannelsStayInjective(p.env, s, e.id);
      sent := p.manager.running[e.id].ProcessPeerMessage(e.peer, e.payload, e.encodes);
    }
  }

  lemma ChannelsStayInjective(env: Env, s: State, id: nat)
    requires ServerInv(env, s) && id in s.allocations
    ensures Channels.Injective(s.allocations[id].channels)
  {
    assert AllocationInv(s.allocations[id], s.now);
  }

  // An event that is neither a packet nor a datagram.
  method Turn(p: StunTurnProcessor, e: Event, now: int, ghost s: State) returns (later: int)
    requires p.Valid() && s == p.manager.Contents(now) && !e.Received? && !e.PeerDatagram?
    modifies p.manager`running, p.manager`sessionMap, p.manager.timers, p.manager.network
    modifies p.manager.reservationManager, p.manager.owned
    ensures p.Valid() && p.manager.OwnsAfresh()
    ensures later == Step(p.env, s, e).now && p.manager.Contents(later) == Step(p.env, s, e)
  {
    later := now;
    if e.Tick? {
      later := now + e.elapsed;
    } else if e.SessionFires? {
      p.manager.PassSessionDeadline(e.wait, now, s);
    } else if e.SessionHandler? {
      p.manager.RunCompletion(e.wait, now, s);
    } else if e.ReaderEnds? {
      p.manager.EndReader(e.id, now, s);
    } else if e.ReservationExpires? {
      p.manager.ExpireReservation(e.token, now, s);
    } else {
      p.manager.RunTimerEvent(e, now, s);
    }
  }

  // One event on the objects is one step of the machine.
  method Perform(p: StunTurnProcessor, e: Event, now: int, ghost s: State) returns (later: int, sent: seq<Output>)
    requires p.Valid() && s == p.manager.Contents(now)
    requires ServerInv(p.env, s) && Legal(s, e)
    modifies p.manager`running, p.manager`sessionMap, p.manager`owned, p.manager.timers, p.manager.network
    modifies p.manager.reservationManager, p.manager.reservationManager.reservations.Values, p.manager.owned
    ensures p.Valid() && p.manager.OwnsAfresh()
    ensures later == Step(p.env, s, e).now && p.manager.Contents(later) == Step(p.env, s, e)
    ensures sent == Outputs(p.env, s, e)
  {
    later, sent := now, [];
    if e.Received? {
      sent := p.Serve(e.from, e.packet, e.oracle, now, s);
    } else if e.PeerDatagram? {
      sent := Deliver(p, e, now, s);
    } else {
      later := Turn(p, e, now, s);
    }
  }

  // The next event of a run.
  method PerformNext(p: StunTurnProcessor, ghost start: int, es: seq<Event>, k: nat, now: int)
    returns (later: int, sent: seq<Output>)
    requires p.Valid() && ValidEnv(p.env) && IsRun(p.env, start, es) && k < |es|
    requires p.manager.Contents(now) == Run(p.env, start, es[..k])
    modifies p.manager`running, p.manager`sessionMap, p.manager`owned, p.manager.timers, p.manager.network
    modifies p.manager.reservationManager, p.manager.reservationManager.reservations.Values, p.manager.owned
    ensures p.Valid() && p.manager.OwnsAfresh()
    ensures later == Run(p.env, start, es[..k+1]).now && p.manager.Contents(later) == Run(p.env, start, es[..k+1])
    ensures sent == Outputs(p.env, Run(p.env, start, es[..k]), es[k])
  {
    Sessions.PrefixIsRun(p.env, start, es, k);
    RunInv(p.env, start, es[..k]);
    later, sent := Perform(p, es[k], now, Run(p.env, start, es[..k]));
  }

  /** From a freshly started server, any history of packets, datagrams, timer completions and passing
      time leaves the objects in the state of the machine's run, and sends what that run sends. */
  method Drive(env: Env, start: int, es: seq<Event>) returns (p: StunTurnProcessor, sent: seq<seq<Output>>)
    requires ValidEnv(env) && IsRun(env, start, es)
    ensures p.Valid() && p.env == env
    ensures p.manager.Contents(Run(env, start, es).now) == Run(env, start, es)
    ensures |sent| == |es|
    ensures forall k :: 0 <= k < |es| ==> sent[k] == Outputs(env, Run(env, start, es[..k]), es[k])
  {
    var manager := new AllocationManager(env);
    p := new StunTurnProcessor(manager);
    var now := start;
    sent := [];
    for k := 0 to |es|
      invariant fresh(p) && p.env == env && p.Valid() && fresh(p.manager) && fresh(p.manager.owned)
      invariant fresh(p.manager.reservationManager.reservations.Values)
      invariant p.manager.Contents(now) == Run(env, start, es[..k])
      invariant |sent| == k
      invariant forall j :: 0 <= j < k ==> sent[j] == Outputs(env, Run(env, start, es[..j]), es[j])
    {
      var out;
      now, out := PerformNext(p, start, es, k, now);
      sent := sent + [out];
    }
    assert es[..|es|] == es;
  }
}
