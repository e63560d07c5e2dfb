/** The channel table of an allocation: channel number -> peer endpoint, with a timer. */
module Channels {
  import opened Common
  import opened Timers

  type ChannelTable = Table<nat, Endpoint>

  // The channel `number` is bound to `peer`.
  ghost predicate Bound(t: ChannelTable, number: nat, peer: Endpoint) {
    number in t.entries && t.entries[number].value == peer
  }

  function GetEndpoint(t: ChannelTable, number: nat): Option<Endpoint> {
    if number in t.entries then Some(t.entries[number].value) else None
  }

  // The first match of a scan in an unspecified order.
  ghost function ChannelByAddress(t: ChannelTable, peer: Endpoint): Option<nat> {
    if n :| Bound(t, n, peer) then Some(n) else None
  }

  predicate Accepts(t: ChannelTable, number: nat, peer: Endpoint) {
    if number in t.entries then t.entries[number].value == peer
    else forall n :: n in t.entries ==> t.entries[n].value != peer
  }

  function Add(t: ChannelTable, number: nat, peer: Endpoint, expiry: int): ChannelTable {
    if !Accepts(t, number, peer) then t
    else if number in t.entries then Rearm(t, number, expiry)
    else Insert(t, number, peer, expiry)
  }

  ghost predicate Injective(t: ChannelTable) {
    forall m, n :: m in t.entries && n in t.entries && t.entries[m].value == t.entries[n].value ==> m == n
  }

  ghost predicate ChannelInv(t: ChannelTable, now: int) {
    Inv(t, now) && Injective(t)
  }

  /** In an injective table a bind is accepted exactly when the table extended with it still pairs
      numbers and peers one to one, and then that pair is bound and every other one is untouched. */
  lemma AddKeepsBijection(t: ChannelTable, number: nat, peer: Endpoint, expiry: int, now: int)
    requires ChannelInv(t, now)
    ensures Accepts(t, number, peer) <==> forall m :: m in t.entries ==> (m == number <==> t.entries[m].value == peer)
    ensures var u := Add(t, number, peer, expiry);
            && ChannelInv(u, now)
            && (Accepts(t, number, peer) ==> Bound(u, number, peer) && u.entries[number].expiry == expiry)
            && (!Accepts(t, number, peer) ==> u == t)
            && (forall m :: m != number ==> (m in u.entries <==> m in t.entries))
            && (forall m :: m != number && m in t.entries ==> u.entries[m] == t.entries[m])
  {
    if Accepts(t, number, peer) {
      if number in t.entries {
        RearmInv(t, number, expiry, now);
      } else {
        InsertInv(t, number, peer, expiry, now);
      }
    }
  }

  lemma AddInv(t: ChannelTable, number: nat, peer: Endpoint, expiry: int, now: int)
    requires ChannelInv(t, now)
    ensures ChannelInv(Add(t, number, peer, expiry), now)
  {
    AddKeepsBijection(t, number, peer, expiry, now);
  }

  /** The two lookups are mutual inverses, whatever order the scan takes. */
  lemma LookupsAreInverse(t: ChannelTable, now: int, number: nat, peer: Endpoint)
    requires ChannelInv(t, now)
    ensures GetEndpoint(t, number) == Some(peer) <==> ChannelByAddress(t, peer) == Some(number)
    ensures ChannelByAddress(t, peer) == None <==> forall n :: !Bound(t, n, peer)
  {
    if GetEndpoint(t, number) == Some(peer) {
      assert Bound(t, number, peer);
    }
  }

  // ---------------------------------------------------------------- runs

  datatype Event =
    | Tick(elapsed: nat)
    | AddChannel(number: nat, peer: Endpoint)
    | TimerFires(wait: nat)
    | HandlerRuns(wait: nat)

  datatype State = State(now: int, table: ChannelTable)

  function Step(lifetime: int, s: State, e: Event): State {
    match e
    case Tick(d) => s.(now := s.now + d)
    case AddChannel(n, p) => s.(table := Add(s.table, n, p, After(s.now, lifetime)))
    case TimerFires(i) => s.(table := Fire(s.table, i, s.now))
    case HandlerRuns(i) => s.(table := Complete(s.table, i, s.now, Owned))
  }

  function Run(lifetime: int, start: int, es: seq<Event>): State {
    if es == [] then State(start, Empty())
    else Step(lifetime, Run(lifetime, start, es[..|es|-1]), es[|es|-1])
  }

  // Did the last event bind or refresh `number`?
  predicate BindsLast(lifetime: int, start: int, es: seq<Event>, number: nat)
    requires es != []
  {
    var e := es[|es|-1];
    e.AddChannel? && e.number == number && Accepts(Run(lifetime, start, es[..|es|-1]).table, number, e.peer)
  }

  // The peer and instant of the last addChannel for `number` that returned true.
  function LastBind(lifetime: int, start: int, es: seq<Event>, number: nat): Option<(Endpoint, int)> {
    if es == [] then None
    else if BindsLast(lifetime, start, es, number) then
      Some((es[|es|-1].peer, Run(lifetime, start, es[..|es|-1]).now))
    else LastBind(lifetime, start, es[..|es|-1], number)
  }

  ghost predicate Fresh(lifetime: int, start: int, es: seq<Event>, number: nat) {
    match LastBind(lifetime, start, es, number)
    case None => false
    case Some(bind) => After(bind.1, lifetime) > Run(lifetime, start, es).now
  }

  lemma StepInv(lifetime: int, s: State, e: Event)
    requires ChannelInv(s.table, s.now)
    ensures ChannelInv(Step(lifetime, s, e).table, Step(lifetime, s, e).now)
  {
    match e
    case Tick(d) => TickInv(s.table, s.now, s.now + d);
    case AddChannel(n, p) => AddKeepsBijection(s.table, n, p, After(s.now, lifetime), s.now);
    case TimerFires(i) => FireInv(s.table, i, s.now);
    case HandlerRuns(i) => CompleteInv(s.table, i, s.now, Owned);
  }

  // What one event does to one number: only an accepted bind changes its entry, and none drops it early.
  lemma StepOnNumber(lifetime: int, s: State, e: Event, number: nat)
    ensures var u := Step(lifetime, s, e);
            if e.AddChannel? && e.number == number && Accepts(s.table, number, e.peer) then
              && number in u.table.entries
              && u.table.entries[number].value == e.peer
              && u.table.entries[number].expiry == After(s.now, lifetime)
            else
              && (number in u.table.entries ==>
                    number in s.table.entries && u.table.entries[number] == s.table.entries[number])
              && (number in s.table.entries && s.table.entries[number].expiry > s.now ==> number in u.table.entries)
  {
  }

  lemma {:induction false} RunInvariant(lifetime: int, start: int, es: seq<Event>)
    ensures ChannelInv(Run(lifetime, start, es).table, Run(lifetime, start, es).now)
  {
    if es != [] {
      RunInvariant(lifetime, start, es[..|es|-1]);
      StepInv(lifetime, Run(lifetime, start, es[..|es|-1]), es[|es|-1]);
    }
  }

  lemma {:induction false} RunOnNumber(lifetime: int, start: int, es: seq<Event>, number: nat)
    ensures var s := Run(lifetime, start, es);
            && (number in s.table.entries ==>
                  var bind := LastBind(lifetime, start, es, number);
                  && bind.Some?
                  && s.table.entries[number].value == bind.value.0
                  && s.table.entries[number].expiry == After(bind.value.1, lifetime))
            && (Fresh(lifetime, start, es, number) ==> number in s.table.entries)
  {
    if es != [] {
      var before := es[..|es|-1];
      RunOnNumber(lifetime, start, before, number);
      StepOnNumber(lifetime, Run(lifetime, start, before), es[|es|-1], number);
    }
  }

  /** Over every run the table is one to one, keeps each number whose last successful bind is
      younger than the lifetime bound to the peer of that bind, and when drained holds no other. */
  lemma {:induction false} ChannelsRefineTimedBijection(lifetime: int, start: int, es: seq<Event>, number: nat)
    ensures var s := Run(lifetime, start, es);
            && Injective(s.table)
            && (Fresh(lifetime, start, es, number) ==>
                  GetEndpoint(s.table, number) == Some(LastBind(lifetime, start, es, number).value.0))
            && (Drained(s.table, s.now) ==> (number in s.table.entries <==> Fresh(lifetime, start, es, number)))
  {
    RunInvariant(lifetime, start, es);
    RunOnNumber(lifetime, start, es, number);
    var s := Run(lifetime, start, es);
    if Drained(s.table, s.now) && number in s.table.entries {
      DrainedEntriesAreLive(s.table, s.now, number);
    }
  }

  lemma StepLean(lifetime: int, s: State, e: Event)
    requires ChannelInv(s.table, s.now) && Lean(s.table)
    ensures Lean(Step(lifetime, s, e).table)
  {
    match e
    case Tick(d) =>
    case AddChannel(n, p) =>
      if Accepts(s.table, n, p) {
        if n in s.table.entries {
          RearmLean(s.table, n, After(s.now, lifetime));
        } else {
          InsertLean(s.table, n, p, After(s.now, lifetime));
        }
      }
    case TimerFires(i) => CompleteLean(s.table, i, s.now);
    case HandlerRuns(i) => CompleteLean(s.table, i, s.now);
  }

  /** No wait is left behind: over every run a wait that can still fire is that of a bound number, at
      its expiry. */
  lemma {:induction false} NoWaitIsLeftBehind(lifetime: int, start: int, es: seq<Event>)
    ensures Lean(Run(lifetime, start, es).table)
  {
    if es != [] {
      RunInvariant(lifetime, start, es[..|es|-1]);
      NoWaitIsLeftBehind(lifetime, start, es[..|es|-1]);
      StepLean(lifetime, Run(lifetime, start, es[..|es|-1]), es[|es|-1]);
    }
  }

  // ---------------------------------------------------------------- the manager

  class ChannelManager {
    const lifetime: int
    ghost const owner: nat  // the allocation that this manager belongs to
    var channels: map<nat, Entry<Endpoint>>
    // the waits that the event loop holds for this manager's timers
    var pending: Pending<nat>

    ghost function Contents(): ChannelTable
      reads this
    {
      Table(channels, pending)
    }

    constructor (lifetime: int, ghost owner: nat)
      ensures this.lifetime == lifetime && this.owner == owner
      ensures Contents() == Empty()
    {
      this.lifetime := lifetime;
      this.owner := owner;
      channels := map[];
      pending := NoWaits();
    }

    method AddChannel(number: nat, peer: Endpoint, now: int) returns (ok: bool)
      modifies this
      ensures ok == Accepts(old(Contents()), number, peer)
      ensures Contents() == Add(old(Contents()), number, peer, After(now, lifetime))
    {
      if number in channels {
        var entry := channels[number];
        // channel is occupied by a different peer
        if entry.value != peer {
          return false;
        }
        channels := channels[number := entry.(expiry := After(now, lifetime))];
        pending := StartWait(CancelTimer(pending, entry.timer), entry.timer, number, After(now, lifetime));
        return true;
      }
      // peer already bound to a different number
      if exists n :: n in channels && channels[n].value == peer {
        return false;
      }
      var timer := pending.next;
      pending := StartWait(pending, timer, number, After(now, lifetime));
      channels := channels[number := Entry(peer, timer, After(now, lifetime))];
      return true;
    }

    method CheckChannel(number: nat) returns (b: bool)
      ensures b <==> number in Contents().entries
    {
      b := number in channels;
    }

    method FindEndpoint(number: nat) returns (r: Option<Endpoint>)
      ensures r == GetEndpoint(Contents(), number)
    {
      r := if number in channels then Some(channels[number].value) else None;
    }

    method FindChannel(peer: Endpoint) returns (r: Option<nat>)
      requires Injective(Contents())
      ensures r == ChannelByAddress(Contents(), peer)
    {
      if n :| n in channels && channels[n].value == peer {
        assert Bound(Contents(), n, peer);
        r := Some(n);
      } else {
        assert forall n :: !Bound(Contents(), n, peer);
        r := None;
      }
    }

    method RemoveChannel(number: nat, now: int)
      modifies this
      ensures Contents() == ExpireKey(old(Contents()), number, now, Owned)
    {
      if number in channels && channels[number].expiry <= now {
        pending := CancelTimer(pending, channels[number].timer);
        channels := channels - {number};
      }
    }

    // The deadline of wait `i` may have passed.
    method OnDeadline(i: nat, now: int)
      modifies this
      ensures Contents() == Fire(old(Contents()), i, now)
    {
      pending := PassDeadline(pending, i, now);
    }

    // The completion handler of wait `i`: an error code ends it at once.
    method OnTimer(i: nat, now: int)
      requires i in pending.waits && !pending.waits[i].status.Waiting?
      modifies this
      ensures Contents() == Complete(old(Contents()), i, now, Owned)
    {
      var w := pending.waits[i];
      pending := Dequeue(pending, i);
      if w.status.Aborted? {
        return;
      }
      RemoveChannel(w.key, now);
    }
  }
}
