/** Relay ports and reservation tokens over whole runs: exclusive holders, capacity, and where a
    claimed reservation ends up. */
module PortAccounting {
  import opened Common
  import opened Stun
  import opened RelayPorts
  import opened Server
  import opened ServerInvariant
  import Reservations
  import Sessions

  // ---------------------------------------------------------------- counting

  lemma SubsetSize(a: set<nat>, b: set<nat>)
    requires a <= b
    ensures |a| <= |b|
  {
    assert b == a + (b - a);
  }

  lemma {:induction false} InjectiveSize<K>(m: map<K, nat>)
    requires forall j, k :: j in m && k in m && m[j] == m[k] ==> j == k
    ensures |m.Values| == |m|
    decreases |m|
  {
    if k :| k in m {
      var rest := m - {k};
      assert m.Keys == rest.Keys + {k};
      assert m.Values == rest.Values + {m[k]} by {
        forall v | v in m.Values ensures v in rest.Values + {m[k]} {
          var j :| j in m && m[j] == v;
          if j != k { assert j in rest && rest[j] == v; }
        }
      }
      InjectiveSize(rest);
    } else {
      assert m == map[];
    }
  }

  function Range(lo: nat, hi: nat): (r: set<nat>)
    ensures forall p :: p in r <==> lo <= p <= hi
    ensures |r| == if lo <= hi then hi - lo + 1 else 0
    decreases hi + 1 - lo
  {
    if lo > hi then {} else {lo} + Range(lo + 1, hi)
  }

  lemma ReachedPorts(env: Env, start: int, es: seq<Event>)
    requires ValidEnv(env) && IsRun(env, start, es)
    ensures var s := Run(env, start, es); PortsInv(env.ports, PortsOf(s), s.reservations, s.bound)
  {
    RunInv(env, start, es);
  }

  /** In every reachable state each bound port of the pool has exactly one holder, an allocation
      (live or orphaned) or a reservation, so together they never exceed the pool. */
  lemma HoldersFitThePool(env: Env, start: int, es: seq<Event>)
    requires ValidEnv(env) && IsRun(env, start, es)
    ensures var s := Run(env, start, es);
            && |s.bound| == |s.allocations| + |s.reservations|
            && s.bound <= Range(env.ports.min, env.ports.max)
            && |s.allocations| + |s.reservations| <= env.ports.max - env.ports.min + 1
  {
    ReachedPorts(env, start, es);
    var s := Run(env, start, es);
    CountHolders(env.ports, PortsOf(s), s.reservations, s.bound);
    assert PortsOf(s).Keys == s.allocations.Keys;
  }

  lemma CountHolders(r: PortRange, ports: map<nat, nat>, reserved: map<Token, nat>, bound: set<nat>)
    requires RelayPorts.Valid(r) && PortsInv(r, ports, reserved, bound)
    ensures |bound| == |ports| + |reserved|
    ensures bound <= Range(r.min, r.max) && |bound| <= r.max - r.min + 1
  {
    InjectiveSize(ports);
    InjectiveSize(reserved);
    BoundIsUnion(r, ports, reserved, bound);
    SubsetSize(bound, Range(r.min, r.max));
  }

  lemma BoundIsUnion(r: PortRange, ports: map<nat, nat>, reserved: map<Token, nat>, bound: set<nat>)
    requires PortsInv(r, ports, reserved, bound)
    ensures bound == ports.Values + reserved.Values && ports.Values !! reserved.Values
    ensures bound <= Range(r.min, r.max)
  {
    forall p | p in bound
      ensures p in ports.Values + reserved.Values && p in Range(r.min, r.max)
    {
      assert Held(ports, reserved, p);
    }
  }

  // How many even ports of the range have their successor in it too.
  function PairCount(r: PortRange): int {
    (r.max + 1) / 2 - (r.min + 1) / 2
  }

  lemma PairIndex(r: PortRange, port: nat)
    requires Reservable(r, port)
    ensures port / 2 * 2 + 1 == port
    ensures (r.min + 1) / 2 <= port / 2 <= (r.max + 1) / 2 - 1
  {
  }

  /** Outstanding reservations never exceed the number of even/odd pairs in the range. */
  lemma ReservationsFitThePairs(env: Env, start: int, es: seq<Event>)
    requires ValidEnv(env) && IsRun(env, start, es)
    ensures |Run(env, start, es).reservations| <= (env.ports.max + 1) / 2 - (env.ports.min + 1) / 2
  {
    ReachedPorts(env, start, es);
    var s := Run(env, start, es);
    CountPairs(env.ports, PortsOf(s), s.reservations, s.bound);
  }

  lemma ValuesFit(index: map<Token, nat>, lo: nat, hi: int)
    requires lo <= hi + 1
    requires forall t :: t in index ==> lo <= index[t] <= hi
    requires forall t, u :: t in index && u in index && index[t] == index[u] ==> t == u
    ensures |index| <= hi - lo + 1
  {
    InjectiveSize(index);
    if lo <= hi {
      SubsetSize(index.Values, Range(lo, hi));
    } else {
      assert index.Keys == {};
    }
  }

  // The even ports of reserved pairs, halved.
  lemma PairIndexes(r: PortRange, reserved: map<Token, nat>) returns (index: map<Token, nat>)
    requires forall t :: t in reserved ==> Reservable(r, reserved[t])
    ensures index.Keys == reserved.Keys
    ensures forall t :: t in reserved ==> (r.min + 1) / 2 <= index[t] <= (r.max + 1) / 2 - 1
    ensures forall t :: t in reserved ==> index[t] * 2 + 1 == reserved[t]
  {
    index := map t | t in reserved :: reserved[t] / 2;
    forall t | t in reserved
      ensures (r.min + 1) / 2 <= index[t] <= (r.max + 1) / 2 - 1 && index[t] * 2 + 1 == reserved[t]
    {
      PairIndex(r, reserved[t]);
    }
  }

  lemma CountPairs(r: PortRange, ports: map<nat, nat>, reserved: map<Token, nat>, bound: set<nat>)
    requires RelayPorts.Valid(r) && PortsInv(r, ports, reserved, bound)
    ensures |reserved| <= PairCount(r)
  {
    var index := PairIndexes(r, reserved);
    var lo, hi := (r.min + 1) / 2, (r.max + 1) / 2 - 1;
    ValuesFit(index, lo, hi);
    assert |index| == |index.Keys| == |reserved.Keys| == |reserved|;
  }

  /** The default range has room for 8192 reservations. */
  lemma DefaultPairCount(env: Env, start: int, es: seq<Event>)
    requires ValidEnv(env) && IsRun(env, start, es) && env.ports == PortRange(49152, 65535)
    ensures |Run(env, start, es).reservations| <= 8192
  {
    ReservationsFitThePairs(env, start, es);
  }

  // ---------------------------------------------------------------- tokens

  // What one effect, and one event, means to the reservation manager.
  function EffectTokens(effect: Effect): seq<Reservations.Event> {
    match effect
    case Allocated(relay, t, _, _) =>
      if relay.secondary.Some? then [Reservations.Create(t, relay.secondary.value)] else []
    case Claimed(t, _, _) => [Reservations.Claim(t)]
    case _ => []
  }

  function TokenEvents(env: Env, s: State, e: Event): seq<Reservations.Event>
    requires ValidEnv(env)
  {
    match e
    case ReservationExpires(t) => [Reservations.Expire(t)]
    case Received(f, StunRequest(req), o) => EffectTokens(Decide(env, s, f, req, o).effect)
    case _ => []
  }

  function TokenTrace(env: Env, start: int, es: seq<Event>): seq<Reservations.Event>
    requires ValidEnv(env)
  {
    if es == [] then []
    else TokenTrace(env, start, es[..|es|-1]) + TokenEvents(env, Run(env, start, es[..|es|-1]), es[|es|-1])
  }

  ghost predicate TokenStep(m: map<Token, nat>, n: map<Token, nat>, ts: seq<Reservations.Event>) {
    if |ts| == 1 then Reservations.Legal(m, ts[0]) && n == Reservations.Step(m, ts[0]) else ts == [] && n == m
  }

  lemma EffectOnTokens(env: Env, s: State, f: FiveTuple, effect: Effect)
    requires Sound(env, s, f, effect)
    ensures TokenStep(s.reservations, Apply(env, s, f, effect).reservations, EffectTokens(effect))
  {
  }

  lemma StepOnTokens(env: Env, s: State, e: Event)
    requires ValidEnv(env) && Legal(s, e)
    ensures TokenStep(s.reservations, Step(env, s, e).reservations, TokenEvents(env, s, e))
  {
    if e.Received? && e.packet.StunRequest? {
      DecideIsSound(env, s, e.from, e.packet.request, e.oracle);
      EffectOnTokens(env, s, e.from, Decide(env, s, e.from, e.packet.request, e.oracle).effect);
    }
  }

  /** The server's reservations are those of its reservation manager run on the same history. */
  lemma {:induction false} ServerRunsReservations(env: Env, start: int, es: seq<Event>)
    requires ValidEnv(env) && IsRun(env, start, es)
    ensures Reservations.IsRun(TokenTrace(env, start, es))
    ensures Run(env, start, es).reservations == Reservations.Run(TokenTrace(env, start, es))
  {
    if es != [] {
      var before := es[..|es|-1];
      var s := Run(env, start, before);
      ServerRunsReservations(env, start, before);
      StepOnTokens(env, s, es[|es|-1]);
      ExtendTrace(TokenTrace(env, start, before), TokenEvents(env, s, es[|es|-1]));
    }
  }

  lemma ExtendTrace(trace: seq<Reservations.Event>, ts: seq<Reservations.Event>)
    requires Reservations.IsRun(trace) && |ts| <= 1
    requires |ts| == 1 ==> Reservations.Legal(Reservations.Run(trace), ts[0])
    ensures Reservations.IsRun(trace + ts)
    ensures Reservations.Run(trace + ts) ==
            if |ts| == 0 then Reservations.Run(trace) else Reservations.Step(Reservations.Run(trace), ts[0])
  {
    if |ts| == 0 {
      assert trace + ts == trace;
    } else {
      assert (trace + ts)[..|trace|] == trace;
      forall i | 0 <= i < |trace + ts|
        ensures Reservations.Legal(Reservations.Run((trace + ts)[..i]), (trace + ts)[i])
      {
        if i < |trace| {
          assert (trace + ts)[..i] == trace[..i];
        }
      }
    }
  }

  /** Over every run of the server each issue of a token is used up by at most one claim or expiry:
      the two counts differ by one exactly while the token is outstanding. */
  lemma EachIssueIsUsedOnce(env: Env, start: int, es: seq<Event>, token: Token)
    requires ValidEnv(env) && IsRun(env, start, es)
    ensures var trace := TokenTrace(env, start, es);
            Reservations.Issues(trace, token) ==
            Reservations.Removals(trace, token) + (if token in Run(env, start, es).reservations then 1 else 0)
  {
    ServerRunsReservations(env, start, es);
    Reservations.TokensAreConserved(TokenTrace(env, start, es), token);
  }

  // The relayed port of the allocation whose reply last carried `token`.
  function LastIssuer(env: Env, start: int, es: seq<Event>, token: Token): Option<nat>
    requires ValidEnv(env)
  {
    if es == [] then None
    else
      var before := es[..|es|-1];
      match Issuer(env, Run(env, start, before), es[|es|-1], token)
      case Some(port) => Some(port)
      case None => LastIssuer(env, start, before, token)
  }

  function Issuer(env: Env, s: State, e: Event, token: Token): Option<nat>
    requires ValidEnv(env)
  {
    match e
    case Received(f, StunRequest(req), o) =>
      (match Decide(env, s, f, req, o).effect
       case Allocated(relay, t, _, _) => if relay.secondary.Some? && t == token then Some(relay.primary) else None
       case _ => None)
    case _ => None
  }

  lemma StepOnToken(env: Env, s: State, e: Event, token: Token)
    requires ValidEnv(env) && ServerInv(env, s) && Legal(s, e)
    ensures var u := Step(env, s, e);
            token in u.reservations ==>
              match Issuer(env, s, e, token)
              case Some(port) => u.reservations[token] == port + 1
              case None => token in s.reservations && u.reservations[token] == s.reservations[token]
  {
    StepOnTokens(env, s, e);
    if e.Received? && e.packet.StunRequest? {
      DecideIsSound(env, s, e.from, e.packet.request, e.oracle);
    }
  }

  lemma {:induction false} ReservedAboveIssuer(env: Env, start: int, es: seq<Event>, token: Token)
    requires ValidEnv(env) && IsRun(env, start, es) && token in Run(env, start, es).reservations
    ensures LastIssuer(env, start, es, token).Some?
    ensures Run(env, start, es).reservations[token] == LastIssuer(env, start, es, token).value + 1
  {
    if es != [] {
      var before := es[..|es|-1];
      RunInv(env, start, before);
      StepOnToken(env, Run(env, start, before), es[|es|-1], token);
      if Issuer(env, Run(env, start, before), es[|es|-1], token).None? {
        ReservedAboveIssuer(env, start, before, token);
      }
    }
  }

  /** Claiming a token puts the new allocation on the odd port just above the even port of the
      allocation that last issued the token. */
  lemma ClaimSitsAboveIssuer(env: Env, start: int, es: seq<Event>, f: FiveTuple, req: Request, o: Oracle, token: Token)
    requires ValidEnv(env) && IsRun(env, start, es)
    requires o.token !in Run(env, start, es).reservations
    requires var effect := Decide(env, Run(env, start, es), f, req, o).effect; effect.Claimed? && effect.token == token
    ensures var s := Run(env, start, es);
            var u := Step(env, s, Received(f, StunRequest(req), o));
            && LastIssuer(env, start, es, token).Some?
            && FindAllocation(u, f).Some?
            && u.allocations[FindAllocation(u, f).value].port == LastIssuer(env, start, es, token).value + 1
            && u.allocations[FindAllocation(u, f).value].port % 2 == 1
            && token !in u.reservations
  {
    var s := Run(env, start, es);
    RunInv(env, start, es);
    Sessions.DecisionIsReady(env, s, f, req, o);
    ReservedAboveIssuer(env, start, es, token);
    assert Reservable(env.ports, s.reservations[token]);
  }

  // Event `e` claims or expires `token`.
  ghost predicate Removes(env: Env, s: State, e: Event, token: Token)
    requires ValidEnv(env)
  {
    || e == ReservationExpires(token)
    || (&& e.Received? && e.packet.StunRequest?
        && var effect := Decide(env, s, e.from, e.packet.request, e.oracle).effect;
           effect.Claimed? && effect.token == token)
  }

  lemma TokenLeavesIff(env: Env, s: State, e: Event, token: Token)
    requires ValidEnv(env) && Legal(s, e) && token in s.reservations
    ensures token !in Step(env, s, e).reservations <==> Removes(env, s, e, token)
  {
    StepOnTokens(env, s, e);
  }

  ghost predicate StaysOutstanding(env: Env, s: State, es: seq<Event>, token: Token)
    requires ValidEnv(env)
  {
    && token in Sessions.RunFrom(env, s, es).reservations
    && (es != [] ==> StaysOutstanding(env, s, es[..|es|-1], token))
  }

  ghost predicate NeverRemoved(env: Env, s: State, es: seq<Event>, token: Token)
    requires ValidEnv(env)
  {
    es != [] ==>
      && NeverRemoved(env, s, es[..|es|-1], token)
      && !Removes(env, Sessions.RunFrom(env, s, es[..|es|-1]), es[|es|-1], token)
  }

  /** An outstanding token stays outstanding along a continuation, however long that takes, exactly
      when nobody claims it and nothing calls expireReservation for it. */
  lemma {:induction false} ReservationsWaitForever(env: Env, s: State, es: seq<Event>, token: Token)
    requires ValidEnv(env) && Sessions.IsContinuation(env, s, es) && token in s.reservations
    ensures StaysOutstanding(env, s, es, token) <==> NeverRemoved(env, s, es, token)
  {
    if es != [] {
      var before := es[..|es|-1];
      ReservationsWaitForever(env, s, before, token);
      if StaysOutstanding(env, s, before, token) {
        TokenLeavesIff(env, Sessions.RunFrom(env, s, before), es[|es|-1], token);
      }
    }
  }
}
