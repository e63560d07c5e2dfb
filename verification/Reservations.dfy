/** Reserved relay ports waiting to be claimed by their 8-byte token. */
module Reservations {
  import opened Common

  // ---------------------------------------------------------------- runs

  datatype Event =
    | Create(token: Token, port: nat)
    | Claim(token: Token)
    | Expire(token: Token)

  // createReservation draws tokens until one is not outstanding.
  ghost predicate Legal(m: map<Token, nat>, e: Event) {
    e.Create? ==> e.token !in m
  }

  function Step(m: map<Token, nat>, e: Event): map<Token, nat> {
    match e
    case Create(t, p) => m[t := p]
    case Claim(t) => m - {t}
    case Expire(t) => m - {t}
  }

  function Run(es: seq<Event>): map<Token, nat> {
    if es == [] then map[] else Step(Run(es[..|es|-1]), es[|es|-1])
  }

  ghost predicate IsRun(es: seq<Event>) {
    forall i :: 0 <= i < |es| ==> Legal(Run(es[..i]), es[i])
  }

  function Claimed(m: map<Token, nat>, token: Token): Option<nat> {
    if token in m then Some(m[token]) else None
  }

  // Bookkeeping over the history, for one token.
  function Issues(es: seq<Event>, token: Token): nat {
    if es == [] then 0
    else Issues(es[..|es|-1], token) + (if es[|es|-1].Create? && es[|es|-1].token == token then 1 else 0)
  }

  function Removals(es: seq<Event>, token: Token): nat {
    if es == [] then 0
    else
      var e := es[|es|-1];
      Removals(es[..|es|-1], token)
      + (if !e.Create? && e.token == token && token in Run(es[..|es|-1]) then 1 else 0)
  }

  function LastPort(es: seq<Event>, token: Token): Option<nat> {
    if es == [] then None
    else if es[|es|-1].Create? && es[|es|-1].token == token then Some(es[|es|-1].port)
    else LastPort(es[..|es|-1], token)
  }

  /** Conservation: every issue of a token is matched by at most one claim or expiry that found it,
      the difference is one exactly while the token is outstanding, and an outstanding token still
      holds the port of its latest issue. */
  lemma {:induction false} TokensAreConserved(es: seq<Event>, token: Token)
    requires IsRun(es)
    ensures Issues(es, token) == Removals(es, token) + (if token in Run(es) then 1 else 0)
    ensures token in Run(es) ==> LastPort(es, token) == Some(Run(es)[token])
  {
    if es != [] {
      var before := es[..|es|-1];
      assert forall i :: 0 <= i < |before| ==> before[..i] == es[..i];
      TokensAreConserved(before, token);
      assert Legal(Run(es[..|es|-1]), es[|es|-1]);
    }
  }

  /** Between two successful claims of one token there is a new issue of it. */
  lemma {:induction false} ClaimTwiceNeedsReissue(es: seq<Event>, more: seq<Event>, token: Token)
    requires token !in Run(es)
    requires forall i :: 0 <= i < |more| ==> !(more[i].Create? && more[i].token == token)
    ensures token !in Run(es + more)
  {
    if more != [] {
      var before := more[..|more|-1];
      ClaimTwiceNeedsReissue(es, before, token);
      assert (es + more)[..|es + more| - 1] == es + before;
    } else {
      assert es + more == es;
    }
  }

  // ---------------------------------------------------------------- the manager

  class Reservation {
    const lifetime: int
    const token: Token
    var socket: Option<nat>
    var expiryTime: int
    var timerArmed: bool

    constructor (port: nat, lifetime: int, token: Token)
      ensures this.lifetime == lifetime && this.token == token
      ensures socket == Some(port) && !timerArmed
    {
      this.lifetime := lifetime;
      this.token := token;
      socket := Some(port);
      expiryTime := 0;
      timerArmed := false;
    }

    method StartTimer(now: int)
      modifies this
      ensures timerArmed && expiryTime == After(now, lifetime) && socket == old(socket)
    {
      timerArmed := true;
      expiryTime := After(now, lifetime);
    }

    method TakeSocket() returns (port: Option<nat>)
      modifies this
      ensures port == old(socket) && socket == None
      ensures timerArmed == old(timerArmed) && expiryTime == old(expiryTime)
    {
      port := socket;
      socket := None;
    }

    method Stop()
      modifies this
      ensures !timerArmed && socket == old(socket) && expiryTime == old(expiryTime)
    {
      timerArmed := false;
    }

    // The wait of its timer ends without an error.
    method TimerEnds()
      modifies this
      ensures !timerArmed && socket == old(socket) && expiryTime == old(expiryTime)
    {
      timerArmed := false;
    }
  }

  class ReservationManager {
    const lifetime: int
    // whether a shared pointer owns this manager, which alone lets the timers' callbacks find it
    const shared: bool
    var reservations: map<Token, Reservation>

    // Every outstanding reservation is an object of its own that still owns its socket.
    ghost predicate Valid()
      reads this, reservations.Values
    {
      && (forall t :: t in reservations ==> reservations[t].socket.Some?)
      && (forall t, u :: t in reservations && u in reservations && reservations[t] == reservations[u] ==> t == u)
    }

    ghost function Contents(): map<Token, nat>
      requires Valid()
      reads this, reservations.Values
    {
      map t | t in reservations :: reservations[t].socket.value
    }

    constructor (lifetime: int, shared: bool)
      ensures Valid() && Contents() == map[] && reservations == map[]
      ensures this.lifetime == lifetime && this.shared == shared
    {
      this.lifetime := lifetime;
      this.shared := shared;
      reservations := map[];
    }

    method ClaimReservation(token: Token) returns (port: Option<nat>)
      requires Valid()
      modifies this, reservations.Values
      ensures Valid()
      ensures reservations.Values <= old(reservations.Values)
      ensures port == Claimed(old(Contents()), token)
      ensures Contents() == Step(old(Contents()), Claim(token))
      ensures token in old(reservations) ==> !old(reservations[token]).timerArmed
    {
      if token !in reservations {
        return None;
      }
      var reservation := reservations[token];
      reservations := reservations - {token};
      reservation.Stop();
      port := reservation.TakeSocket();
    }

    // `candidate` is the random token source; `enough` bounds how long it keeps to tokens in use.
    method CreateReservation(port: nat, now: int, candidate: nat -> Token, ghost enough: nat) returns (token: Token)
      requires Valid() && candidate(enough) !in reservations
      modifies this
      ensures Valid()
      ensures token !in old(reservations)
      ensures exists n: nat :: token == candidate(n) && forall i :: 0 <= i < n ==> candidate(i) in old(reservations)
      ensures fresh(reservations.Values - old(reservations.Values))
      ensures Contents() == Step(old(Contents()), Create(token, port))
      ensures token in reservations
      ensures reservations[token].timerArmed && reservations[token].expiryTime == After(now, lifetime)
    {
      var n: nat := 0;
      token := candidate(n);
      while token in reservations
        invariant token == candidate(n)
        invariant forall i :: 0 <= i < n ==> candidate(i) in reservations
        decreases enough - n
      {
        n := n + 1;
        token := candidate(n);
      }
      var reservation := new Reservation(port, lifetime, token);
      reservations := reservations[token := reservation];
      reservation.StartTimer(now);
    }

    // The timer of an outstanding reservation ends.  Its callback reaches a shared manager only.
    method OnTimer(token: Token, now: int)
      requires Valid() && token in reservations
      requires reservations[token].timerArmed && reservations[token].expiryTime <= now
      modifies this, reservations[token]
      ensures Valid() && reservations.Values <= old(reservations.Values)
      ensures Contents() == if shared then Step(old(Contents()), Expire(token)) else old(Contents())
    {
      reservations[token].TimerEnds();
      if shared {
        ExpireReservation(token);
      }
    }

    method ExpireReservation(token: Token)
      requires Valid()
      modifies this
      ensures Valid() && reservations.Values <= old(reservations.Values)
      ensures Contents() == Step(old(Contents()), Expire(token))
    {
      reservations := reservations - {token};
    }
  }
}
