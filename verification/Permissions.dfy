/** The permission table of an allocation: peer address -> timer. */
module Permissions {
  import opened Common
  import opened Timers

  type PermissionTable = Table<Address, ()>

  // An existing permission is erased first, so every installation starts a new timer.
  function Add(t: PermissionTable, peer: Address, expiry: int): PermissionTable {
    Insert(Erase(t, peer, Owned), peer, (), expiry)
  }

  lemma AddInv(t: PermissionTable, peer: Address, expiry: int, now: int)
    requires Inv(t, now)
    ensures Inv(Add(t, peer, expiry), now)
  {
    EraseInv(t, peer, now, Owned);
    InsertInv(Erase(t, peer, Owned), peer, (), expiry, now);
  }

  // ---------------------------------------------------------------- runs

  datatype Event =
    | Tick(elapsed: nat)
    | AddPermission(peer: Address)
    | RemovePermission(peer: Address)
    | TimerFires(wait: nat)
    | HandlerRuns(wait: nat)

  datatype State = State(now: int, table: PermissionTable)

  function Step(lifetime: int, s: State, e: Event): State {
    match e
    case Tick(d) => s.(now := s.now + d)
    case AddPermission(a) => s.(table := Add(s.table, a, After(s.now, lifetime)))
    case RemovePermission(a) => s.(table := ExpireKey(s.table, a, s.now, Owned))
    case TimerFires(i) => s.(table := Fire(s.table, i, s.now))
    case HandlerRuns(i) => s.(table := Complete(s.table, i, s.now, Owned))
  }

  function Run(lifetime: int, start: int, es: seq<Event>): State {
    if es == [] then State(start, Empty())
    else Step(lifetime, Run(lifetime, start, es[..|es|-1]), es[|es|-1])
  }

  // The reference mentions neither timers nor waits: the wall clock, and per address the last add.
  function Clock(start: int, es: seq<Event>): int {
    if es == [] then start
    else Clock(start, es[..|es|-1]) + (match es[|es|-1] case Tick(d) => d case _ => 0)
  }

  function LastAdd(start: int, es: seq<Event>, peer: Address): Option<int> {
    if es == [] then None
    else if es[|es|-1] == AddPermission(peer) then Some(Clock(start, es[..|es|-1]))
    else LastAdd(start, es[..|es|-1], peer)
  }

  ghost predicate Fresh(lifetime: int, start: int, es: seq<Event>, peer: Address) {
    match LastAdd(start, es, peer)
    case None => false
    case Some(at) => After(at, lifetime) > Clock(start, es)
  }

  lemma StepInv(lifetime: int, s: State, e: Event)
    requires Inv(s.table, s.now)
    ensures Inv(Step(lifetime, s, e).table, Step(lifetime, s, e).now)
  {
    match e
    case Tick(d) => TickInv(s.table, s.now, s.now + d);
    case AddPermission(a) => AddInv(s.table, a, After(s.now, lifetime), s.now);
    case RemovePermission(a) => EraseInv(s.table, a, s.now, Owned);
    case TimerFires(i) => FireInv(s.table, i, s.now);
    case HandlerRuns(i) => CompleteInv(s.table, i, s.now, Owned);
  }

  // What one event does to one address: only an add changes its entry, and none drops it early.
  lemma StepOnAddress(lifetime: int, s: State, e: Event, peer: Address)
    ensures var u := Step(lifetime, s, e);
            if e == AddPermission(peer) then
              peer in u.table.entries && u.table.entries[peer].expiry == After(s.now, lifetime)
            else
              && (peer in u.table.entries ==> peer in s.table.entries && u.table.entries[peer] == s.table.entries[peer])
              && (peer in s.table.entries && s.table.entries[peer].expiry > s.now ==> peer in u.table.entries)
  {
  }

  lemma {:induction false} RunInvariant(lifetime: int, start: int, es: seq<Event>)
    ensures Run(lifetime, start, es).now == Clock(start, es)
    ensures Inv(Run(lifetime, start, es).table, Clock(start, es))
  {
    if es != [] {
      RunInvariant(lifetime, start, es[..|es|-1]);
      StepInv(lifetime, Run(lifetime, start, es[..|es|-1]), es[|es|-1]);
    }
  }

  lemma {:induction false} RunOnAddress(lifetime: int, start: int, es: seq<Event>, peer: Address)
    ensures var s := Run(lifetime, start, es);
            && (peer in s.table.entries ==>
                  && LastAdd(start, es, peer).Some?
                  && s.table.entries[peer].expiry == After(LastAdd(start, es, peer).value, lifetime))
            && (Fresh(lifetime, start, es, peer) ==> peer in s.table.entries)
  {
    if es != [] {
      var before := es[..|es|-1];
      RunInvariant(lifetime, start, before);
      RunOnAddress(lifetime, start, before, peer);
      StepOnAddress(lifetime, Run(lifetime, start, before), es[|es|-1], peer);
    }
  }

  /** The permission table refines "the last add is younger than the lifetime": over every
      interleaving of adds, removals, ticks and (possibly stale or aborted) completions, a fresh
      address is present, and once the event loop is drained nothing else is. */
  lemma {:induction false} PermissionsRefineTimedSet(lifetime: int, start: int, es: seq<Event>, peer: Address)
    ensures var s := Run(lifetime, start, es);
            && (Fresh(lifetime, start, es, peer) ==> peer in s.table.entries)
            && (Drained(s.table, s.now) ==> (peer in s.table.entries <==> Fresh(lifetime, start, es, peer)))
  {
    RunInvariant(lifetime, start, es);
    RunOnAddress(lifetime, start, es, peer);
    var s := Run(lifetime, start, es);
    if Drained(s.table, s.now) && peer in s.table.entries {
      DrainedEntriesAreLive(s.table, s.now, peer);
    }
  }

  lemma AddLean(t: PermissionTable, peer: Address, expiry: int, now: int)
    requires Inv(t, now) && Lean(t)
    ensures Lean(Add(t, peer, expiry))
  {
    EraseInv(t, peer, now, Owned);
    EraseLean(t, peer);
    InsertLean(Erase(t, peer, Owned), peer, (), expiry);
  }

  lemma StepLean(lifetime: int, s: State, e: Event)
    requires Inv(s.table, s.now) && Lean(s.table)
    ensures Lean(Step(lifetime, s, e).table)
  {
    match e
    case Tick(d) =>
    case AddPermission(a) => AddLean(s.table, a, After(s.now, lifetime), s.now);
    case RemovePermission(a) => EraseLean(s.table, a);
    case TimerFires(i) => CompleteLean(s.table, i, s.now);
    case HandlerRuns(i) => CompleteLean(s.table, i, s.now);
  }

  /** No wait is left behind: over every run a wait that can still fire is that of an address in the
      table, at its expiry.  Installing an address again and removing it abort its earlier wait. */
  lemma {:induction false} NoWaitIsLeftBehind(lifetime: int, start: int, es: seq<Event>)
    ensures Lean(Run(lifetime, start, es).table)
  {
    if es != [] {
      RunInvariant(lifetime, start, es[..|es|-1]);
      NoWaitIsLeftBehind(lifetime, start, es[..|es|-1]);
      StepLean(lifetime, Run(lifetime, start, es[..|es|-1]), es[|es|-1]);
    }
  }

  // ---------------------------------------------------------------- the manager

  class PermissionManager {
    const lifetime: int
    ghost const owner: nat  // the allocation that this manager belongs to
    var permissions: map<Address, Entry<()>>
    // the waits that the event loop holds for this manager's timers
    var pending: Pending<Address>

    ghost function Contents(): PermissionTable
      reads this
    {
      Table(permissions, pending)
    }

    constructor (lifetime: int, ghost owner: nat)
      ensures this.lifetime == lifetime && this.owner == owner
      ensures Contents() == Empty()
    {
      this.lifetime := lifetime;
      this.owner := owner;
      permissions := map[];
      pending := NoWaits();
    }

    method AddPermission(peer: Address, now: int)
      modifies this
      ensures Contents() == Add(old(Contents()), peer, After(now, lifetime))
    {
      if peer in permissions {
        pending := CancelTimer(pending, permissions[peer].timer);
        permissions := permissions - {peer};
      }
      var timer := pending.next;
      permissions := permissions[peer := Entry((), timer, After(now, lifetime))];
      pending := StartWait(pending, timer, peer, After(now, lifetime));
    }

    method RemovePermission(peer: Address, now: int)
      modifies this
      ensures Contents() == ExpireKey(old(Contents()), peer, now, Owned)
    {
      if peer in permissions && permissions[peer].expiry <= now {
        pending := CancelTimer(pending, permissions[peer].timer);
        permissions := permissions - {peer};
      }
    }

    // The deadline of wait `i` may have passed.
    method OnDeadline(i: nat, now: int)
      modifies this
      ensures Contents() == Fire(old(Contents()), i, now)
    {
      pending := PassDeadline(pending, i, now);
    }

    // The completion handler of wait `i`: an error code ends it at once.
    method OnTimer(i: nat, now: int)
      requires i in pending.waits && !pending.waits[i].status.Waiting?
      modifies this
      ensures Contents() == Complete(old(Contents()), i, now, Owned)
    {
      var w := pending.waits[i];
      pending := Dequeue(pending, i);
      if w.status.Aborted? {
        return;
      }
      RemovePermission(w.key, now);
    }

    method HasPermission(peer: Address) returns (b: bool)
      ensures b <==> peer in Contents().entries
    {
      b := peer in permissions;
    }
  }
}
