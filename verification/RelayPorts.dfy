/** Choosing and binding relay ports: 16-bit parity and range arithmetic, a bounded retry loop, and
    the two-socket acquisition that gives the first socket back when the second one fails. */
module RelayPorts {
  import opened Common

  datatype PortPolicy = AnyPort | EvenPort | EvenAndReserveNext

  datatype PortRange = PortRange(min: nat, max: nat)

  const MAX_RETRIES := 210

  predicate RequireEven(policy: PortPolicy) {
    policy != AnyPort
  }

  predicate ReserveNext(policy: PortPolicy) {
    policy == EvenAndReserveNext
  }

  // ---------------------------------------------------------------- 16-bit arithmetic

  function U16(n: int): nat {
    n % 0x1_0000
  }

  function ClearLowBit(n: int): int {
    n - n % 2
  }

  // Two 16-bit ports in order.
  predicate Valid(r: PortRange) {
    r.min <= r.max <= 0xffff
  }

  function LowDraw(r: PortRange, policy: PortPolicy): nat {
    if RequireEven(policy) then U16(ClearLowBit(r.min + 1)) / 2 else r.min
  }

  function HighDraw(r: PortRange, policy: PortPolicy): nat {
    if RequireEven(policy) then U16(ClearLowBit(r.max)) / 2 else r.max
  }

  // What the uniform distribution demands of its bounds.
  predicate Drawable(r: PortRange, policy: PortPolicy) {
    LowDraw(r, policy) <= HighDraw(r, policy)
  }

  // Any value of the distribution, chosen by `pick`; picks outside it count as its least value.
  function DrawnPort(r: PortRange, policy: PortPolicy, pick: nat): nat
    requires Drawable(r, policy)
  {
    var lo, hi := LowDraw(r, policy), HighDraw(r, policy);
    var x := if lo <= pick <= hi then pick else lo;
    if RequireEven(policy) then U16(x * 2) else x
  }

  predicate HasEvenPort(r: PortRange) {
    ClearLowBit(r.min + 1) <= ClearLowBit(r.max)
  }

  lemma Cleared(n: nat)
    ensures ClearLowBit(n) % 2 == 0 && n - 1 <= ClearLowBit(n) <= n
    ensures 2 * (ClearLowBit(n) / 2) == ClearLowBit(n)
  {
  }

  lemma SmallU16(n: nat)
    requires n <= 0xffff
    ensures U16(n) == n
  {
  }

  lemma HalvedAndDoubled(n: nat)
    requires n <= 0xffff
    ensures 2 * (U16(ClearLowBit(n)) / 2) == ClearLowBit(n)
  {
    Cleared(n);
    SmallU16(ClearLowBit(n));
  }

  lemma Wrapped()
    ensures U16(ClearLowBit(0x1_0000)) == 0
  {
    assert ClearLowBit(0x1_0000) == 0x1_0000;
  }

  // Only a lower bound of 65535 wraps, to 0.
  lemma EvenBounds(r: PortRange, policy: PortPolicy)
    requires Valid(r) && RequireEven(policy)
    ensures 2 * LowDraw(r, policy) == if r.min < 0xffff then ClearLowBit(r.min + 1) else 0
    ensures 2 * HighDraw(r, policy) == ClearLowBit(r.max)
  {
    HalvedAndDoubled(r.max);
    if r.min < 0xffff {
      HalvedAndDoubled(r.min + 1);
    } else {
      Wrapped();
    }
  }

  lemma DoubleDraw(x: nat)
    requires 2 * x <= 0xffff
    ensures U16(x * 2) == 2 * x && 2 * x % 2 == 0
  {
  }

  lemma DrawBounds(r: PortRange, policy: PortPolicy, pick: nat)
    requires Valid(r) && Drawable(r, policy)
    ensures var lo, hi := LowDraw(r, policy), HighDraw(r, policy);
            var p := DrawnPort(r, policy, pick);
            if RequireEven(policy) then p % 2 == 0 && 2 * lo <= p <= 2 * hi else lo <= p <= hi
  {
    var lo, hi := LowDraw(r, policy), HighDraw(r, policy);
    if RequireEven(policy) {
      EvenBounds(r, policy);
      Cleared(r.max);
      DoubleDraw(if lo <= pick <= hi then pick else lo);
    }
  }

  // The pick that draws a given even port.
  lemma PickFor(r: PortRange, policy: PortPolicy, port: nat) returns (pick: nat)
    requires Valid(r) && RequireEven(policy) && Drawable(r, policy)
    requires port % 2 == 0 && 2 * LowDraw(r, policy) <= port <= 2 * HighDraw(r, policy)
    ensures DrawnPort(r, policy, pick) == port
  {
    pick := port / 2;
    EvenBounds(r, policy);
    Cleared(r.max);
    DoubleDraw(port / 2);
  }

  /** Halving and doubling: with an even port in the range, the draws for an even port are exactly
      the even ports of the range, without 16-bit wrap-around. */
  lemma EvenDrawsAreTheEvenPorts(r: PortRange, policy: PortPolicy, port: nat)
    requires Valid(r) && RequireEven(policy) && HasEvenPort(r)
    ensures Drawable(r, policy)
    ensures (exists pick :: DrawnPort(r, policy, pick) == port) <==> port % 2 == 0 && r.min <= port <= r.max
  {
    EvenBounds(r, policy);
    Cleared(r.min + 1);
    Cleared(r.max);
    if port % 2 == 0 && r.min <= port <= r.max {
      var pick := PickFor(r, policy, port);
    }
    if pick :| DrawnPort(r, policy, pick) == port {
      DrawBounds(r, policy, pick);
    }
  }

  /** Without a wish for an even port the draws are exactly the ports of the range. */
  lemma AnyDrawsAreThePorts(r: PortRange, port: nat)
    requires Valid(r)
    ensures Drawable(r, AnyPort)
    ensures (exists pick :: DrawnPort(r, AnyPort, pick) == port) <==> r.min <= port <= r.max
  {
    if r.min <= port <= r.max {
      assert DrawnPort(r, AnyPort, port) == port;
    }
  }

  lemma EvenPortBelowTop(r: PortRange)
    requires Valid(r) && HasEvenPort(r)
    ensures r.min < 0xffff
  {
    Cleared(r.max);
    assert ClearLowBit(0x1_0000) == 0x1_0000;
  }

  lemma Halves(lo: int, hi: int)
    requires 2 * lo <= 2 * hi
    ensures lo <= hi
  {
  }

  // With an even port in the range, no policy can be denied a draw or wrap around.
  lemma AlwaysDrawable(r: PortRange, policy: PortPolicy)
    requires Valid(r) && HasEvenPort(r)
    ensures Drawable(r, policy) && r.min < 0xffff
  {
    EvenPortBelowTop(r);
    if RequireEven(policy) {
      EvenBounds(r, policy);
      Halves(LowDraw(r, policy), HighDraw(r, policy));
    }
  }

  /** The same draws, for every range the distribution accepts: all of them lie in the range exactly
      when the lower bound is not 65535, where rounding up to the next even port wraps to port 0. */
  lemma EvenDrawsInRangeIff(r: PortRange, policy: PortPolicy)
    requires Valid(r) && RequireEven(policy) && Drawable(r, policy)
    ensures (forall pick :: r.min <= DrawnPort(r, policy, pick) <= r.max) <==> r.min < 0xffff
  {
    EvenBounds(r, policy);
    Cleared(r.min + 1);
    Cleared(r.max);
    if r.min < 0xffff {
      forall pick: nat
        ensures r.min <= DrawnPort(r, policy, pick) <= r.max
      {
        DrawBounds(r, policy, pick);
      }
    } else {
      var pick := PickFor(r, policy, 0);
      assert DrawnPort(r, policy, pick) < r.min;
    }
  }

  // ---------------------------------------------------------------- one attempt

  type SystemPort = p: nat | 0 < p <= 0xffff witness 1

  // The outside world's part in one attempt: the random draw, whether each call is permitted, and
  // the port that the system chooses if it is asked to.
  datatype Draw = Draw(
    pick: nat,
    primaryOpens: bool, primaryBinds: bool,
    secondaryOpens: bool, secondaryBinds: bool,
    systemPort: SystemPort)

  datatype Relay = Relay(primary: nat, secondary: Option<nat>)

  function SocketsOf(relay: Relay): set<nat> {
    {relay.primary} + (if relay.secondary.Some? then {relay.secondary.value} else {})
  }

  // The port that a socket gets from bind(port): port 0 leaves the choice to the system.
  function LocalPort(port: nat, systemPort: SystemPort): nat {
    if port == 0 then systemPort else port
  }

  // Every call of an attempt at `port` succeeds.
  predicate Available(r: PortRange, port: nat, reserveNext: bool, bound: set<nat>, d: Draw) {
    var primary := LocalPort(port, d.systemPort);
    && d.primaryOpens && d.primaryBinds && primary !in bound
    && (reserveNext ==>
          && port + 1 <= r.max && d.secondaryOpens && d.secondaryBinds
          && port + 1 !in bound && port + 1 != primary)
  }

  predicate Succeeds(r: PortRange, policy: PortPolicy, bound: set<nat>, d: Draw)
    requires Drawable(r, policy)
  {
    Available(r, DrawnPort(r, policy, d.pick), ReserveNext(policy), bound, d)
  }

  function RelayAt(policy: PortPolicy, port: nat, systemPort: SystemPort): Relay {
    Relay(LocalPort(port, systemPort), if ReserveNext(policy) then Some(port + 1) else None)
  }

  // The first of the remaining attempts that succeeds.
  function GenerateFrom(r: PortRange, policy: PortPolicy, bound: set<nat>, draws: nat -> Draw, i: nat): Option<Relay>
    requires Drawable(r, policy)
    decreases MAX_RETRIES - i
  {
    if i >= MAX_RETRIES then None
    else if Succeeds(r, policy, bound, draws(i)) then
      Some(RelayAt(policy, DrawnPort(r, policy, draws(i).pick), draws(i).systemPort))
    else GenerateFrom(r, policy, bound, draws, i + 1)
  }

  function Generate(r: PortRange, policy: PortPolicy, bound: set<nat>, draws: nat -> Draw): Option<Relay>
    requires Drawable(r, policy)
  {
    GenerateFrom(r, policy, bound, draws, 0)
  }

  // An attempt either is the last one or leaves the rest to decide.
  lemma AttemptDecides(
    r: PortRange, policy: PortPolicy, bound: set<nat>, draws: nat -> Draw, i: nat, relay: Option<Relay>)
    requires Drawable(r, policy) && i < MAX_RETRIES
    requires relay ==
             if Succeeds(r, policy, bound, draws(i))
             then Some(RelayAt(policy, DrawnPort(r, policy, draws(i).pick), draws(i).systemPort)) else None
    ensures GenerateFrom(r, policy, bound, draws, i) ==
            if relay.Some? then relay else GenerateFrom(r, policy, bound, draws, i + 1)
  {
  }

  lemma {:induction false} GenerateFromFirst(
    r: PortRange, policy: PortPolicy, bound: set<nat>, draws: nat -> Draw, i: nat)
    requires Drawable(r, policy)
    ensures match GenerateFrom(r, policy, bound, draws, i)
            case None => forall j :: i <= j < MAX_RETRIES ==> !Succeeds(r, policy, bound, draws(j))
            case Some(relay) =>
              exists j :: i <= j < MAX_RETRIES && Succeeds(r, policy, bound, draws(j))
                          && relay == RelayAt(policy, DrawnPort(r, policy, draws(j).pick), draws(j).systemPort)
                          && (forall k :: i <= k < j ==> !Succeeds(r, policy, bound, draws(k)))
    decreases MAX_RETRIES - i
  {
    if i < MAX_RETRIES && !Succeeds(r, policy, bound, draws(i)) {
      GenerateFromFirst(r, policy, bound, draws, i + 1);
    }
  }

  ghost predicate Fits(r: PortRange, policy: PortPolicy, bound: set<nat>, relay: Relay) {
    && r.min <= relay.primary <= r.max
    && relay.primary !in bound
    && (RequireEven(policy) ==> relay.primary % 2 == 0)
    && (relay.secondary.Some? <==> ReserveNext(policy))
    && (ReserveNext(policy) ==>
          relay.secondary == Some(relay.primary + 1) && relay.primary + 1 <= r.max && relay.primary + 1 !in bound)
  }

  /* A lower bound of 65535 makes even draws wrap around, to port 0 and up.  A range from port 0 draws
     0, and the system then chooses any port at all: right only if any port will do, or if that draw
     can never succeed. */
  predicate KeepsToRange(r: PortRange, policy: PortPolicy) {
    if r.min == 0 then
      (policy == AnyPort && r.max == 0xffff) || (policy == EvenAndReserveNext && r.max == 0)
    else RequireEven(policy) ==> r.min < 0xffff
  }

  lemma SuccessFits(r: PortRange, policy: PortPolicy, bound: set<nat>, d: Draw)
    requires Valid(r) && Drawable(r, policy) && KeepsToRange(r, policy)
    requires Succeeds(r, policy, bound, d)
    ensures Fits(r, policy, bound, RelayAt(policy, DrawnPort(r, policy, d.pick), d.systemPort))
  {
    DrawBounds(r, policy, d.pick);
    if RequireEven(policy) {
      EvenBounds(r, policy);
      Cleared(r.min + 1);
      Cleared(r.max);
    }
  }

  lemma GeneratedFits(r: PortRange, policy: PortPolicy, bound: set<nat>, draws: nat -> Draw)
    requires Valid(r) && Drawable(r, policy) && KeepsToRange(r, policy)
    ensures Generate(r, policy, bound, draws).Some? ==>
              Fits(r, policy, bound, Generate(r, policy, bound, draws).value)
  {
    GenerateFromFirst(r, policy, bound, draws, 0);
    if relay :| Generate(r, policy, bound, draws) == Some(relay) {
      var j :| 0 <= j < MAX_RETRIES && Succeeds(r, policy, bound, draws(j))
               && relay == RelayAt(policy, DrawnPort(r, policy, draws(j).pick), draws(j).systemPort);
      SuccessFits(r, policy, bound, draws(j));
    }
  }

  // The pick of a draw that goes wrong where the condition fails: port 0 or, after wrapping, port 2.
  lemma StrayPick(r: PortRange, policy: PortPolicy) returns (pick: nat)
    requires Valid(r) && Drawable(r, policy) && !KeepsToRange(r, policy)
    ensures DrawnPort(r, policy, pick) == if r.min == 0 then 0 else 2
  {
    if policy == AnyPort {
      pick := 0;
    } else {
      EvenBounds(r, policy);
      Cleared(1);
      Cleared(0xffff);
      pick := PickFor(r, policy, if r.min == 0 then 0 else 2);
    }
  }

  lemma StrayRelay(r: PortRange, policy: PortPolicy, port: nat, d: Draw)
    requires Valid(r) && !KeepsToRange(r, policy)
    requires port == if r.min == 0 then 0 else 2
    requires d.primaryOpens && d.primaryBinds && d.secondaryOpens && d.secondaryBinds
    requires d.systemPort == match policy case AnyPort => r.max + 1 case EvenPort => 1 case EvenAndReserveNext => 2
    ensures Available(r, port, ReserveNext(policy), {}, d)
    ensures !Fits(r, policy, {}, RelayAt(policy, port, d.systemPort))
  {
  }

  // Then one attempt on a free pool already goes wrong.
  lemma StrayAttempt(r: PortRange, policy: PortPolicy) returns (d: Draw)
    requires Valid(r) && Drawable(r, policy) && !KeepsToRange(r, policy)
    ensures Succeeds(r, policy, {}, d)
    ensures !Fits(r, policy, {}, RelayAt(policy, DrawnPort(r, policy, d.pick), d.systemPort))
  {
    var pick := StrayPick(r, policy);
    d := Draw(pick, true, true, true, true,
              match policy case AnyPort => r.max + 1 case EvenPort => 1 case EvenAndReserveNext => 2);
    StrayRelay(r, policy, DrawnPort(r, policy, pick), d);
  }

  /** Whatever is bound and whatever the draws and refusals, every relay that is generated lies in the
      range, is free, is even when the policy asks for it, and comes with the free next port exactly
      when one is reserved: for every range and policy the distribution accepts, if and only if the
      range satisfies `KeepsToRange`. */
  lemma GeneratedFitsIff(r: PortRange, policy: PortPolicy)
    requires Valid(r) && Drawable(r, policy)
    ensures (forall bound: set<nat>, draws: nat -> Draw ::
               Generate(r, policy, bound, draws).Some? ==>
                 Fits(r, policy, bound, Generate(r, policy, bound, draws).value))
            <==> KeepsToRange(r, policy)
  {
    if KeepsToRange(r, policy) {
      forall bound: set<nat>, draws: nat -> Draw
        ensures Generate(r, policy, bound, draws).Some? ==>
                  Fits(r, policy, bound, Generate(r, policy, bound, draws).value)
      {
        GeneratedFits(r, policy, bound, draws);
      }
    } else {
      var d := StrayAttempt(r, policy);
      var draws: nat -> Draw := (_: nat) => d;
      assert Succeeds(r, policy, {}, draws(0));
      assert Generate(r, policy, {}, draws) == Some(RelayAt(policy, DrawnPort(r, policy, d.pick), d.systemPort));
    }
  }

  // A port of the range that is free, even if it must be, with a free port after it if it must have one.
  ghost predicate Suitable(r: PortRange, policy: PortPolicy, bound: set<nat>, port: nat) {
    && r.min <= port <= r.max && port !in bound
    && (policy != AnyPort ==> port % 2 == 0)
    && (policy == EvenAndReserveNext ==> port + 1 <= r.max && port + 1 !in bound)
  }

  ghost predicate Permits(policy: PortPolicy, d: Draw) {
    && d.primaryOpens && d.primaryBinds
    && (policy == EvenAndReserveNext ==> d.secondaryOpens && d.secondaryBinds)
  }

  function RelayOn(policy: PortPolicy, port: nat): Relay {
    Relay(port, if policy == EvenAndReserveNext then Some(port + 1) else None)
  }

  lemma GeneratedOn(r: PortRange, policy: PortPolicy, bound: set<nat>, draws: nat -> Draw)
    requires Valid(r) && Drawable(r, policy) && KeepsToRange(r, policy)
    ensures match Generate(r, policy, bound, draws)
            case None => true
            case Some(relay) => relay == RelayOn(policy, relay.primary)
  {
    GeneratedFits(r, policy, bound, draws);
  }

  // Attempts that are refused are passed over.
  lemma {:induction false} RefusedArePassed(
    r: PortRange, policy: PortPolicy, bound: set<nat>, draws: nat -> Draw, j: nat)
    requires Drawable(r, policy) && j <= 210
    requires forall i :: 0 <= i < j ==> !Permits(policy, draws(i))
    ensures Generate(r, policy, bound, draws) == GenerateFrom(r, policy, bound, draws, j)
  {
    if j > 0 {
      RefusedArePassed(r, policy, bound, draws, j - 1);
      assert !Succeeds(r, policy, bound, draws(j - 1));
    }
  }

  /** There are 210 attempts: when all of them are refused there is no relay, whatever comes after; and
      the first one that is not, be it the last, gives the port it draws if that is suitable. */
  lemma AttemptsDecide(r: PortRange, policy: PortPolicy, bound: set<nat>, draws: nat -> Draw, j: nat)
    requires Drawable(r, policy) && j <= 210
    requires forall i :: 0 <= i < j ==> !Permits(policy, draws(i))
    ensures j == 210 ==> Generate(r, policy, bound, draws) == None
    ensures j < 210 && 0 < DrawnPort(r, policy, draws(j).pick) && Permits(policy, draws(j))
            && Suitable(r, policy, bound, DrawnPort(r, policy, draws(j).pick)) ==>
              Generate(r, policy, bound, draws) == Some(RelayOn(policy, DrawnPort(r, policy, draws(j).pick)))
  {
    RefusedArePassed(r, policy, bound, draws, j);
  }

  // The pick that draws a suitable port.
  lemma PickSuitable(r: PortRange, policy: PortPolicy, bound: set<nat>, port: nat) returns (pick: nat)
    requires Valid(r) && Drawable(r, policy) && 0 < r.min && KeepsToRange(r, policy)
    requires Suitable(r, policy, bound, port)
    ensures DrawnPort(r, policy, pick) == port
  {
    if policy == AnyPort {
      pick := port;
    } else {
      EvenBounds(r, policy);
      Cleared(r.min + 1);
      Cleared(r.max);
      pick := PickFor(r, policy, port);
    }
  }

  /** In a range from 1 up without wrap-around, what can be had is exactly what is suitable: a port can
      come out of the generator, for some draws, if and only if it is in the range, free, even where
      that is asked for, and followed by a free port of the range where that one is to be reserved. */
  lemma PortsToBeHad(r: PortRange, policy: PortPolicy, bound: set<nat>, port: nat)
    requires Valid(r) && Drawable(r, policy) && 0 < r.min && KeepsToRange(r, policy)
    ensures (exists draws: nat -> Draw :: Generate(r, policy, bound, draws) == Some(RelayOn(policy, port)))
            <==> Suitable(r, policy, bound, port)
  {
    if draws: nat -> Draw :| Generate(r, policy, bound, draws) == Some(RelayOn(policy, port)) {
      GeneratedFits(r, policy, bound, draws);
    }
    if Suitable(r, policy, bound, port) {
      var pick := PickSuitable(r, policy, bound, port);
      var d := Draw(pick, true, true, true, true, 1);
      var draws: nat -> Draw := (_: nat) => d;
      AttemptsDecide(r, policy, bound, draws, 0);
      assert Generate(r, policy, bound, draws) == Some(RelayOn(policy, port));
    }
  }

  // ---------------------------------------------------------------- sockets

  // The ports of the relay address that this process has bound.
  class Network {
    var bound: set<nat>

    constructor ()
      ensures bound == {}
    {
      bound := {};
    }

    // Binding fails when the port is in use, and may fail anyway.
    method Bind(port: nat, permitted: bool, systemPort: SystemPort) returns (local: Option<nat>)
      modifies this
      ensures local ==
              if permitted && LocalPort(port, systemPort) !in old(bound) then Some(LocalPort(port, systemPort))
              else None
      ensures bound == if local.Some? then old(bound) + {local.value} else old(bound)
    {
      var chosen := LocalPort(port, systemPort);
      if !permitted || chosen in bound {
        return None;
      }
      bound := bound + {chosen};
      local := Some(chosen);
    }

    // A socket goes out of scope.
    method Close(port: nat)
      modifies this
      ensures bound == old(bound) - {port}
    {
      bound := bound - {port};
    }
  }

  // Sockets are owned by whoever holds the port number; moving out leaves None behind.
  class RelayAllocation {
    var primary: nat
    var secondary: Option<nat>

    constructor (primary: nat, secondary: Option<nat>)
      ensures this.primary == primary && this.secondary == secondary
    {
      this.primary := primary;
      this.secondary := secondary;
    }

    ghost function Contents(): Relay
      reads this
    {
      Relay(primary, secondary)
    }

    method HasSecondary() returns (b: bool)
      ensures b <==> secondary.Some?
    {
      b := secondary.Some?;
    }

    method ReleaseSecondary() returns (port: nat)
      requires secondary.Some?
      modifies this
      ensures Some(port) == old(secondary) && secondary == None && primary == old(primary)
    {
      port := secondary.value;
      secondary := None;
    }
  }

  class RelayAddressGenerator {
    const range: PortRange
    const network: Network

    constructor (range: PortRange, network: Network)
      ensures this.range == range && this.network == network
    {
      this.range := range;
      this.network := network;
    }

    method GenerateUdpRelay(policy: PortPolicy, draws: nat -> Draw) returns (relay: RelayAllocation?)
      requires Drawable(range, policy)
      modifies network
      ensures (relay == null) <==> Generate(range, policy, old(network.bound), draws) == None
      ensures relay != null ==>
                fresh(relay) && Some(relay.Contents()) == Generate(range, policy, old(network.bound), draws)
      ensures network.bound == old(network.bound) + if relay == null then {} else SocketsOf(relay.Contents())
    {
      ghost var before := network.bound;
      for i := 0 to MAX_RETRIES
        invariant network.bound == before
        invariant GenerateFrom(range, policy, before, draws, i) == Generate(range, policy, before, draws)
      {
        relay := Attempt(DrawnPort(range, policy, draws(i).pick), ReserveNext(policy), draws(i));
        AttemptDecides(range, policy, before, draws, i, if relay == null then None else Some(relay.Contents()));
        if relay != null {
          return;
        }
      }
      relay := null;
    }

    // One attempt at a drawn port: all of its sockets, or none.
    method Attempt(port: nat, reserveNext: bool, d: Draw) returns (relay: RelayAllocation?)
      modifies network
      ensures relay != null <==> Available(range, port, reserveNext, old(network.bound), d)
      ensures relay != null ==>
                fresh(relay) && relay.Contents() ==
                Relay(LocalPort(port, d.systemPort), if reserveNext then Some(port + 1) else None)
      ensures network.bound == old(network.bound) + if relay == null then {} else SocketsOf(relay.Contents())
    {
      relay := null;
      if reserveNext && port + 1 > range.max {
        return;
      }
      if !d.primaryOpens {
        return;
      }
      var primary := network.Bind(port, d.primaryBinds, d.systemPort);
      if primary == None {
        return;
      }
      if !reserveNext {
        relay := new RelayAllocation(primary.value, None);
        return;
      }
      if !d.secondaryOpens {
        network.Close(primary.value);
        return;
      }
      var secondary := network.Bind(port + 1, d.secondaryBinds, d.systemPort);
      if secondary == None {
        network.Close(primary.value);
        return;
      }
      relay := new RelayAllocation(primary.value, secondary);
    }
  }
}
