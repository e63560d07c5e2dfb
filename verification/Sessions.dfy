/** Sessions over whole runs: who can change them, when they end, and retransmitted requests. */
module Sessions {
  import opened Common
  import opened Stun
  import opened Timers
  import opened Server
  import opened ServerInvariant
  import opened Replies
  import Admission

  // ---------------------------------------------------------------- gating and isolation

  /** A packet that changes anything is a request whose authentication granted a key. */
  lemma ChangesNeedAuthentication(env: Env, s: State, f: FiveTuple, packet: Packet, o: Oracle)
    requires ValidEnv(env) && Step(env, s, Received(f, packet, o)) != s
    ensures packet.StunRequest? && NeedsAuthentication(packet.request.operation)
    ensures Authenticate(env, packet.request, o.unixNow).Granted?
  {
  }

  // Everything that belongs to one five-tuple: its allocation and the timer of its session.
  datatype View = View(allocation: Allocation, timer: nat, expiry: int)

  function ViewOf(s: State, f: FiveTuple): Option<View> {
    match FindAllocation(s, f)
    case None => None
    case Some(id) => Some(View(s.allocations[id], id, s.sessions.entries[f].expiry))
  }

  // The few facts about one five-tuple that the following steps need from the invariant.
  ghost predicate Linked(s: State, f: FiveTuple) {
    f in s.sessions.entries ==>
      && s.sessions.entries[f].timer in s.allocations
      && s.sessions.entries[f].timer < s.sessions.pending.next
      && s.allocations[s.sessions.entries[f].timer].fiveTuple == f
  }

  lemma InvLinks(env: Env, s: State, f: FiveTuple)
    requires ServerInv(env, s)
    ensures Linked(s, f)
  {
    assert f in s.sessions.entries ==> s.sessions.entries[f].timer in OwnersOf(s);
  }

  // What the soundness of an effect says about the session map.
  ghost predicate Ready(s: State, f: FiveTuple, effect: Effect) {
    && Linked(s, f)
    && (effect.Allocated? || effect.Claimed? ==> f !in s.sessions.entries)
    && (effect.Claimed? ==> effect.token in s.reservations)
    && (effect.Refreshed? || effect.Permitted? || effect.ChannelBound? ==> f in s.sessions.entries)
  }

  lemma DecisionIsReady(env: Env, s: State, f: FiveTuple, req: Request, o: Oracle)
    requires ValidEnv(env) && ServerInv(env, s) && o.token !in s.reservations
    ensures Ready(s, f, Decide(env, s, f, req, o).effect)
  {
    DecideIsSound(env, s, f, req, o);
    InvLinks(env, s, f);
    NotFound(env, s, f);
  }

  lemma EffectIsolation(env: Env, s: State, f: FiveTuple, effect: Effect, g: FiveTuple)
    requires Ready(s, f, effect) && Linked(s, g) && f != g
    ensures ViewOf(Apply(env, s, f, effect), g) == ViewOf(s, g)
  {
  }

  /** A packet from one five-tuple never alters another five-tuple's allocation, channels,
      permissions or expiry. */
  lemma PacketsAreIsolated(env: Env, s: State, f: FiveTuple, packet: Packet, o: Oracle, g: FiveTuple)
    requires ValidEnv(env) && ServerInv(env, s) && o.token !in s.reservations && f != g
    ensures ViewOf(Step(env, s, Received(f, packet, o)), g) == ViewOf(s, g)
  {
    if packet.StunRequest? {
      DecisionIsReady(env, s, f, packet.request, o);
      InvLinks(env, s, g);
      EffectIsolation(env, s, f, Decide(env, s, f, packet.request, o).effect, g);
    }
  }

  // ---------------------------------------------------------------- when a session ends

  lemma EffectOnSession(env: Env, s: State, f: FiveTuple, effect: Effect, g: FiveTuple)
    requires Ready(s, f, effect)
    ensures var u := Apply(env, s, f, effect);
            && (g in s.sessions.entries ==>
                  g in u.sessions.entries && u.sessions.entries[g].timer == s.sessions.entries[g].timer)
            && (if f == g && ArmedLifetime(effect).Some? then
                  g in u.sessions.entries && u.sessions.entries[g].expiry == After(s.now, ArmedLifetime(effect).value)
                else
                  && (g in u.sessions.entries <==> g in s.sessions.entries)
                  && (g in s.sessions.entries ==> u.sessions.entries[g] == s.sessions.entries[g]))
  {
  }

  // The lifetime that event `e` arms the session of `g` with.
  function Arms(env: Env, s: State, e: Event, g: FiveTuple): Option<int>
    requires ValidEnv(env)
  {
    if e.Received? && e.packet.StunRequest? && e.from == g
    then ArmedLifetime(Decide(env, s, g, e.packet.request, e.oracle).effect) else None
  }

  // The events that can happen between two points of one request handler.
  ghost predicate Interleaving(e: Event) {
    e.Received? ==> !e.packet.StunRequest?
  }

  // What an event does to the session of `g`, given what it arms.
  ghost predicate SessionStep(s: State, u: State, e: Event, g: FiveTuple, armed: Option<int>) {
    && (armed.Some? ==> g in u.sessions.entries && u.sessions.entries[g].expiry == After(s.now, armed.value))
    && (armed.None? && g in u.sessions.entries ==>
          g in s.sessions.entries && u.sessions.entries[g] == s.sessions.entries[g])
    && (g in s.sessions.entries && g in u.sessions.entries ==>
          u.sessions.entries[g].timer == s.sessions.entries[g].timer)
    && (g in s.sessions.entries && g !in u.sessions.entries ==>
          e.SessionHandler? && s.sessions.entries[g].expiry <= s.now)
  }

  lemma OtherStepOnSession(env: Env, s: State, e: Event, g: FiveTuple)
    requires ValidEnv(env) && Interleaving(e)
    ensures SessionStep(s, Step(env, s, e), e, g, None)
  {
  }

  /** One step and one session: only an Allocate or Refresh from that five-tuple arms it; only a
      completion handler ends it, and only once it is due, whichever timer and whichever outcome
      (fired or aborted, current or stale) the handler belongs to. */
  lemma StepOnSession(env: Env, s: State, e: Event, g: FiveTuple)
    requires ValidEnv(env) && ServerInv(env, s) && Legal(s, e)
    ensures SessionStep(s, Step(env, s, e), e, g, Arms(env, s, e, g))
  {
    if Interleaving(e) {
      OtherStepOnSession(env, s, e, g);
    } else {
      DecisionIsReady(env, s, e.from, e.packet.request, e.oracle);
      EffectOnSession(env, s, e.from, Decide(env, s, e.from, e.packet.request, e.oracle).effect, g);
    }
  }

  lemma CompletionEnds(env: Env, s: State, e: Event, g: FiveTuple)
    requires ValidEnv(env) && g in s.sessions.entries && e.SessionHandler?
    ensures g !in Step(env, s, e).sessions.entries <==>
              && e.wait in s.sessions.pending.waits && s.sessions.pending.waits[e.wait].key == g
              && !s.sessions.pending.waits[e.wait].status.Waiting? && s.sessions.entries[g].expiry <= s.now
  {
    CompleteErasesIff(s.sessions, e.wait, s.now, Shared, g);
  }

  /** A session ends in a step if and only if the handler of some wait for its five-tuple runs, fired or
      aborted, and the session is due. */
  lemma SessionEndsIff(env: Env, s: State, e: Event, g: FiveTuple)
    requires ValidEnv(env) && ServerInv(env, s) && Legal(s, e) && g in s.sessions.entries
    ensures g !in Step(env, s, e).sessions.entries <==>
              && e.SessionHandler?
              && e.wait in s.sessions.pending.waits && s.sessions.pending.waits[e.wait].key == g
              && !s.sessions.pending.waits[e.wait].status.Waiting? && s.sessions.entries[g].expiry <= s.now
  {
    StepOnSession(env, s, e, g);
    if e.SessionHandler? {
      CompletionEnds(env, s, e, g);
    }
  }

  // The instant until which the last successful Allocate or Refresh of `g` has extended it.
  function ArmedUntil(env: Env, start: int, es: seq<Event>, g: FiveTuple): Option<int>
    requires ValidEnv(env)
  {
    if es == [] then None
    else
      var s := Run(env, start, es[..|es|-1]);
      match Arms(env, s, es[|es|-1], g)
      case Some(lifetime) => Some(After(s.now, lifetime))
      case None => ArmedUntil(env, start, es[..|es|-1], g)
  }

  ghost predicate Unexpired(env: Env, start: int, es: seq<Event>, g: FiveTuple)
    requires ValidEnv(env)
  {
    match ArmedUntil(env, start, es, g)
    case None => false
    case Some(until) => until > Run(env, start, es).now
  }

  lemma {:induction false} RunOnSession(env: Env, start: int, es: seq<Event>, g: FiveTuple)
    requires ValidEnv(env) && IsRun(env, start, es)
    ensures var s := Run(env, start, es);
            && (g in s.sessions.entries ==> ArmedUntil(env, start, es, g) == Some(s.sessions.entries[g].expiry))
            && (Unexpired(env, start, es, g) ==> g in s.sessions.entries)
  {
    if es != [] {
      var before := es[..|es|-1];
      var s := Run(env, start, before);
      RunInv(env, start, before);
      RunOnSession(env, start, before, g);
      StepOnSession(env, s, es[|es|-1], g);
      TimePasses(env, s, es[|es|-1]);
    }
  }

  lemma TimePasses(env: Env, s: State, e: Event)
    requires ValidEnv(env)
    ensures Step(env, s, e).now >= s.now
  {
  }

  lemma DrainedSession(env: Env, s: State, g: FiveTuple)
    requires ServerInv(env, s)
    ensures FindAllocation(s, g).Some? <==> g in s.sessions.entries
    ensures Drained(s.sessions, s.now) && g in s.sessions.entries ==> s.sessions.entries[g].expiry > s.now
  {
    InvLinks(env, s, g);
    if Drained(s.sessions, s.now) && g in s.sessions.entries {
      DrainedEntriesAreLive(s.sessions, s.now, g);
    }
  }

  lemma ReachedSession(env: Env, start: int, es: seq<Event>, g: FiveTuple)
    requires ValidEnv(env) && IsRun(env, start, es)
    ensures var s := Run(env, start, es);
            && (FindAllocation(s, g).Some? <==> g in s.sessions.entries)
            && (Drained(s.sessions, s.now) && g in s.sessions.entries ==> s.sessions.entries[g].expiry > s.now)
  {
    RunInv(env, start, es);
    DrainedSession(env, Run(env, start, es), g);
  }

  /** Over every run a five-tuple keeps its allocation until the lifetime of its last successful
      Allocate or Refresh runs out, and loses it once the event loop is drained after that. */
  lemma SessionsRefineTimedMap(env: Env, start: int, es: seq<Event>, g: FiveTuple)
    requires ValidEnv(env) && IsRun(env, start, es)
    ensures var s := Run(env, start, es);
            && (Unexpired(env, start, es, g) ==> FindAllocation(s, g).Some?)
            && (Drained(s.sessions, s.now) ==> (FindAllocation(s, g).Some? <==> Unexpired(env, start, es, g)))
  {
    ReachedSession(env, start, es, g);
    RunOnSession(env, start, es, g);
  }

  /** No session ever has more than the longest lifetime ahead of it. */
  lemma RemainingLifeIsBounded(env: Env, start: int, es: seq<Event>, g: FiveTuple)
    requires ValidEnv(env) && IsRun(env, start, es) && g in Run(env, start, es).sessions.entries
    ensures var longest := if env.allocationLifetime < env.maxAllocationLifetime then env.maxAllocationLifetime
                           else env.allocationLifetime;
            Run(env, start, es).sessions.entries[g].expiry <= After(Run(env, start, es).now, longest)
  {
    RunInv(env, start, es);
  }

  /** A Refresh never ends a session, even with LIFETIME 0: if it does anything, it gives the
      session at least the default lifetime. */
  lemma RefreshNeverDeletes(env: Env, s: State, f: FiveTuple, req: Request, o: Oracle)
    requires ValidEnv(env) && ServerInv(env, s) && o.token !in s.reservations
    requires req.operation == REFRESH && f in s.sessions.entries
    ensures var u := Step(env, s, Received(f, StunRequest(req), o));
            && f in u.sessions.entries && u.sessions.entries[f].timer == s.sessions.entries[f].timer
            && (u.sessions.entries[f] == s.sessions.entries[f]
                || u.sessions.entries[f].expiry >= After(s.now, env.allocationLifetime))
  {
    Admission.RefreshSucceedsIff(env, s, f, req, o);
    LifetimeRule(env, req.lifetime);
    var effect := Decide(env, s, f, req, o).effect;
    DecisionIsReady(env, s, f, req, o);
    EffectOnSession(env, s, f, effect, f);
  }

  // ---------------------------------------------------------------- never overwritten

  function RunFrom(env: Env, s: State, es: seq<Event>): State
    requires ValidEnv(env)
  {
    if es == [] then s else Step(env, RunFrom(env, s, es[..|es|-1]), es[|es|-1])
  }

  // Every event of a continuation is legal when it comes.
  ghost predicate IsContinuation(env: Env, s: State, es: seq<Event>)
    requires ValidEnv(env)
  {
    es != [] ==> IsContinuation(env, s, es[..|es|-1]) && Legal(RunFrom(env, s, es[..|es|-1]), es[|es|-1])
  }

  lemma ContinuationGrows(env: Env, s: State, es: seq<Event>, e: Event)
    requires ValidEnv(env)
    ensures RunFrom(env, s, es + [e]) == Step(env, RunFrom(env, s, es), e)
    ensures IsContinuation(env, s, es + [e]) <==> IsContinuation(env, s, es) && Legal(RunFrom(env, s, es), e)
  {
    assert (es + [e])[..|es|] == es;
  }

  // A run and a continuation of it are one run.
  lemma {:induction false} RunContinues(env: Env, start: int, es: seq<Event>, more: seq<Event>)
    requires ValidEnv(env)
    ensures Run(env, start, es + more) == RunFrom(env, Run(env, start, es), more)
    ensures IsRun(env, start, es + more) <==> IsRun(env, start, es) && IsContinuation(env, Run(env, start, es), more)
  {
    if more == [] {
      assert es + more == es;
    } else {
      assert (es + more)[..|es + more|-1] == es + more[..|more|-1];
      RunContinues(env, start, es, more[..|more|-1]);
    }
  }

  /** Whatever completes between looking a five-tuple up and inserting it, a five-tuple that was
      absent stays absent: everything but a request only removes sessions. */
  lemma {:induction false} AbsentStaysAbsent(env: Env, s: State, es: seq<Event>, f: FiveTuple)
    requires ValidEnv(env) && f !in s.sessions.entries
    requires forall i :: 0 <= i < |es| ==> Interleaving(es[i])
    ensures f !in RunFrom(env, s, es).sessions.entries
  {
    if es != [] {
      AbsentStaysAbsent(env, s, es[..|es|-1], f);
      assert Interleaving(es[|es|-1]);
    }
  }

  /** An allocation is only ever inserted where the session map has no entry. */
  lemma InsertNeverOverwrites(env: Env, s: State, f: FiveTuple, req: Request, o: Oracle)
    requires ValidEnv(env) && ServerInv(env, s) && o.token !in s.reservations
    ensures var effect := Decide(env, s, f, req, o).effect;
            effect.Allocated? || effect.Claimed? ==> f !in s.sessions.entries
  {
    DecideIsSound(env, s, f, req, o);
    NotFound(env, s, f);
  }

  // ---------------------------------------------------------------- retransmissions

  ghost predicate SameIdentity(s: State, u: State, id: nat) {
    id in u.allocations ==>
      && id in s.allocations
      && u.allocations[id].success == s.allocations[id].success
      && u.allocations[id].port == s.allocations[id].port
      && u.allocations[id].fiveTuple == s.allocations[id].fiveTuple
  }

  lemma EffectKeepsIdentity(env: Env, s: State, f: FiveTuple, effect: Effect, id: nat)
    requires id < s.sessions.pending.next
    ensures SameIdentity(s, Apply(env, s, f, effect), id)
    ensures Apply(env, s, f, effect).sessions.pending.next >= s.sessions.pending.next
  {
  }

  // An allocation's success message, port and owner never change, and its number is not reused.
  lemma StepKeepsIdentity(env: Env, s: State, e: Event, id: nat)
    requires ValidEnv(env) && id < s.sessions.pending.next
    ensures SameIdentity(s, Step(env, s, e), id)
    ensures id < Step(env, s, e).sessions.pending.next
  {
    if e.Received? && e.packet.StunRequest? {
      EffectKeepsIdentity(env, s, e.from, Decide(env, s, e.from, e.packet.request, e.oracle).effect, id);
    }
  }

  lemma {:induction false} RunKeepsIdentity(env: Env, start: int, es: seq<Event>, k: nat, id: nat)
    requires ValidEnv(env) && k <= |es|
    requires id < Run(env, start, es[..k]).sessions.pending.next
    ensures SameIdentity(Run(env, start, es[..k]), Run(env, start, es), id)
    ensures id < Run(env, start, es).sessions.pending.next
  {
    if k == |es| {
      assert es[..k] == es;
    } else {
      var before := es[..|es|-1];
      assert before[..k] == es[..k];
      RunKeepsIdentity(env, start, before, k, id);
      StepKeepsIdentity(env, Run(env, start, before), es[|es|-1], id);
    }
  }

  // Every prefix of a run is a run, and the step after it is legal.
  lemma {:induction false} PrefixIsRun(env: Env, start: int, es: seq<Event>, k: nat)
    requires ValidEnv(env) && IsRun(env, start, es) && k <= |es|
    ensures IsRun(env, start, es[..k])
    ensures k < |es| ==> Legal(Run(env, start, es[..k]), es[k])
    ensures k < |es| ==> Run(env, start, es[..k+1]) == Step(env, Run(env, start, es[..k]), es[k])
  {
    if k < |es| {
      assert es[..k+1][..k] == es[..k];
      if k < |es| - 1 {
        var before := es[..|es|-1];
        assert before[..k] == es[..k] && before[..k+1] == es[..k+1];
        PrefixIsRun(env, start, before, k);
      } else {
        assert es[..k+1] == es;
      }
    } else {
      assert es[..k] == es;
    }
  }

  ghost predicate Creates(env: Env, s: State, f: FiveTuple, req: Request, o: Oracle)
    requires ValidEnv(env)
  {
    var effect := Decide(env, s, f, req, o).effect;
    effect.Allocated? || effect.Claimed?
  }

  // The success bytes that a creating effect stores.
  lemma AdmitStores(env: Env, s: State, f: FiveTuple, effect: Effect)
    requires (effect.Allocated? || effect.Claimed?) && Ready(s, f, effect)
    ensures var u := Apply(env, s, f, effect);
            var id := s.sessions.pending.next;
            id in u.allocations && u.allocations[id].success == effect.success && id < u.sessions.pending.next
  {
  }

  // A creating decision replies with the bytes it stores.
  lemma CreationReplies(env: Env, s: State, f: FiveTuple, req: Request, o: Oracle)
    requires ValidEnv(env) && Creates(env, s, f, req, o)
    ensures req.operation == ALLOCATE
    ensures var d := Decide(env, s, f, req, o); d.replies == [ToClient(d.effect.success, f.ClientEndpoint())]
  {
  }

  // What creating an allocation leaves behind: its number and the bytes of its reply.
  lemma CreationStoresReply(env: Env, s: State, f: FiveTuple, req: Request, o: Oracle)
    requires ValidEnv(env) && ServerInv(env, s) && o.token !in s.reservations && Creates(env, s, f, req, o)
    ensures req.operation == ALLOCATE
    ensures var u := Step(env, s, Received(f, StunRequest(req), o));
            var id := s.sessions.pending.next;
            && id in u.allocations && id < u.sessions.pending.next
            && |u.allocations[id].success| >= HEADER_SIZE
            && TransactionIdOf(u.allocations[id].success) == req.transactionId
            && Decide(env, s, f, req, o).replies == [ToClient(u.allocations[id].success, f.ClientEndpoint())]
  {
    DecisionIsReady(env, s, f, req, o);
    EveryRequestIsAnswered(env, s, f, req, o);
    CreationReplies(env, s, f, req, o);
    AdmitStores(env, s, f, Decide(env, s, f, req, o).effect);
  }

  lemma ReplayDecision(env: Env, s: State, f: FiveTuple, req: Request, o: Oracle, id: nat)
    requires ValidEnv(env) && req.operation == ALLOCATE && Authenticate(env, req, o.unixNow).Granted?
    requires FindAllocation(s, f) == Some(id) && |s.allocations[id].success| >= HEADER_SIZE
    requires TransactionIdOf(s.allocations[id].success) == req.transactionId
    ensures Decide(env, s, f, req, o) ==
            Decision(NoEffect, [ToClient(s.allocations[id].success, f.ClientEndpoint())])
  {
  }

  /** Allocate is idempotent: at any later point of the run at which the allocation it created is
      still in the session map, the same request, authenticated again, is answered with the very
      bytes of the first reply, and changes nothing. */
  lemma RetransmittedAllocateIsReplayed(
    env: Env, start: int, es: seq<Event>, k: nat, f: FiveTuple, req: Request, o: Oracle, again: Oracle)
    requires ValidEnv(env) && IsRun(env, start, es)
    requires k < |es| && es[k] == Received(f, StunRequest(req), o)
    requires Creates(env, Run(env, start, es[..k]), f, req, o)
    requires FindAllocation(Run(env, start, es), f) == Some(Run(env, start, es[..k]).sessions.pending.next)
    requires Authenticate(env, req, again.unixNow).Granted?
    ensures var first, now := Run(env, start, es[..k]), Run(env, start, es);
            && Decide(env, now, f, req, again).replies == Decide(env, first, f, req, o).replies
            && Step(env, now, Received(f, StunRequest(req), again)) == now
  {
    var first, now := Run(env, start, es[..k]), Run(env, start, es);
    var id := first.sessions.pending.next;
    PrefixIsRun(env, start, es, k);
    RunInv(env, start, es[..k]);
    CreationStoresReply(env, first, f, req, o);
    RunKeepsIdentity(env, start, es, k + 1, id);
    ReplayDecision(env, now, f, req, again, id);
  }
}
