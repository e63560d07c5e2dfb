/** Expiring tables: keyed entries, each with a timer, and the asynchronous waits that the event
    loop still holds for them.

    A wait is started when a timer is armed.  It becomes ready when its deadline passes (Fired) or
    when its timer is re-armed or destroyed first (Aborted), and its completion handler runs at
    some later, arbitrary moment.  Between becoming ready and running, the timer may have been
    re-armed or the entry replaced, so a completion can be stale. */
module Timers {

  datatype Status = Waiting | Fired | Aborted

  datatype Wait<K> = Wait(timer: nat, key: K, deadline: int, status: Status)

  // The outstanding waits of one owner, by wait number; `next` numbers the next timer or wait.
  datatype Pending<K> = Pending(waits: map<nat, Wait<K>>, next: nat)

  datatype Entry<V> = Entry(value: V, timer: nat, expiry: int)

  datatype Table<K(==), V> = Table(entries: map<K, Entry<V>>, pending: Pending<K>)

  /* An Owned timer is a member of the entry: erasing the entry destroys (and so cancels) it, and
     its handler returns at once when aborted.  A Shared timer outlives the entry, and its handler
     does not look at the error code. */
  datatype Ownership = Owned | Shared

  function NoWaits<K>(): Pending<K> {
    Pending(map[], 0)
  }

  function Empty<K(==), V>(): Table<K, V> {
    Table(map[], NoWaits())
  }

  // ---------------------------------------------------------------- timer operations

  // Cancelling a timer readies its unfinished waits with "operation aborted"; a wait that has
  // already fired keeps its success code.
  function CancelTimer<K>(p: Pending<K>, timer: nat): Pending<K> {
    Pending(
      map i | i in p.waits ::
        if p.waits[i].timer == timer && p.waits[i].status.Waiting?
        then p.waits[i].(status := Aborted) else p.waits[i],
      p.next)
  }

  function StartWait<K>(p: Pending<K>, timer: nat, key: K, deadline: int): Pending<K> {
    Pending(p.waits[p.next := Wait(timer, key, deadline, Waiting)], p.next + 1)
  }

  // A new timer, armed for `expiry` and stored under `k`.
  function Insert<K(==), V>(t: Table<K, V>, k: K, v: V, expiry: int): Table<K, V> {
    Table(t.entries[k := Entry(v, t.pending.next, expiry)],
          StartWait(t.pending, t.pending.next, k, expiry))
  }

  // expires_after and async_wait on the timer already stored under `k`.
  function Rearm<K(==), V>(t: Table<K, V>, k: K, expiry: int): Table<K, V>
    requires k in t.entries
  {
    var e := t.entries[k];
    Table(t.entries[k := e.(expiry := expiry)],
          StartWait(CancelTimer(t.pending, e.timer), e.timer, k, expiry))
  }

  function Erase<K(==), V>(t: Table<K, V>, k: K, own: Ownership): Table<K, V> {
    if k !in t.entries then t
    else Table(t.entries - {k},
               if own.Owned? then CancelTimer(t.pending, t.entries[k].timer) else t.pending)
  }

  // The expiry handlers look the entry up again and erase it only if it is due.
  function ExpireKey<K(==), V>(t: Table<K, V>, k: K, now: int, own: Ownership): Table<K, V> {
    if k in t.entries && t.entries[k].expiry <= now then Erase(t, k, own) else t
  }

  // ---------------------------------------------------------------- event loop steps

  // The deadline of a waiting wait has passed: its handler is queued.
  function PassDeadline<K>(p: Pending<K>, i: nat, now: int): Pending<K> {
    if i in p.waits && p.waits[i].status.Waiting? && p.waits[i].deadline <= now
    then p.(waits := p.waits[i := p.waits[i].(status := Fired)]) else p
  }

  function Fire<K(==), V>(t: Table<K, V>, i: nat, now: int): Table<K, V> {
    t.(pending := PassDeadline(t.pending, i, now))
  }

  // The handler of wait `i` is queued.
  predicate IsReady<K>(p: Pending<K>, i: nat) {
    i in p.waits && !p.waits[i].status.Waiting?
  }

  function Dequeue<K>(p: Pending<K>, i: nat): Pending<K> {
    p.(waits := p.waits - {i})
  }

  // The event loop runs the queued handler of wait `i`.
  function Complete<K(==), V>(t: Table<K, V>, i: nat, now: int, own: Ownership): Table<K, V> {
    if i in t.pending.waits && !t.pending.waits[i].status.Waiting? then
      var w := t.pending.waits[i];
      var rest := t.(pending := Dequeue(t.pending, i));
      if w.status.Fired? || own.Shared? then ExpireKey(rest, w.key, now, own) else rest
    else t
  }

  // ---------------------------------------------------------------- the inductive invariant

  // Wait `i` will, unless the timer is re-armed, run the handler of `k` at its current expiry.
  ghost predicate Covers<K, V>(t: Table<K, V>, k: K, i: nat)
    requires k in t.entries
  {
    && i in t.pending.waits
    && t.pending.waits[i].timer == t.entries[k].timer
    && t.pending.waits[i].key == k
    && t.pending.waits[i].deadline == t.entries[k].expiry
    && !t.pending.waits[i].status.Aborted?
  }

  ghost predicate Numbered<K, V>(t: Table<K, V>) {
    && (forall i :: i in t.pending.waits ==> i < t.pending.next && t.pending.waits[i].timer < t.pending.next)
    && (forall k :: k in t.entries ==> t.entries[k].timer < t.pending.next)
    && (forall j, k :: j in t.entries && k in t.entries && t.entries[j].timer == t.entries[k].timer ==> j == k)
  }

  ghost predicate Inv<K, V>(t: Table<K, V>, now: int) {
    && Numbered(t)
    && (forall i :: i in t.pending.waits && t.pending.waits[i].status.Fired? ==> t.pending.waits[i].deadline <= now)
    && (forall k :: k in t.entries ==> exists i :: Covers(t, k, i))
  }

  // No handler is queued and no deadline is due: the event loop has nothing to do for this table.
  ghost predicate Drained<K, V>(t: Table<K, V>, now: int) {
    forall i :: i in t.pending.waits ==> t.pending.waits[i].status.Waiting? && t.pending.waits[i].deadline > now
  }

  lemma EmptyInv<K, V>(now: int)
    ensures Inv(Empty<K, V>(), now)
  {
  }

  lemma TickInv<K, V>(t: Table<K, V>, now: int, later: int)
    requires Inv(t, now) && now <= later
    ensures Inv(t, later)
  {
  }

  lemma InsertInv<K, V>(t: Table<K, V>, k: K, v: V, expiry: int, now: int)
    requires Inv(t, now)
    ensures Inv(Insert(t, k, v, expiry), now)
  {
    var u := Insert(t, k, v, expiry);
    assert Covers(u, k, t.pending.next);
    forall j | j in u.entries && j != k
      ensures exists i :: Covers(u, j, i)
    {
      var i :| Covers(t, j, i);
      assert Covers(u, j, i);
    }
  }

  lemma RearmInv<K, V>(t: Table<K, V>, k: K, expiry: int, now: int)
    requires Inv(t, now) && k in t.entries
    ensures Inv(Rearm(t, k, expiry), now)
  {
    var u := Rearm(t, k, expiry);
    assert Covers(u, k, t.pending.next);
    forall j | j in u.entries && j != k
      ensures exists i :: Covers(u, j, i)
    {
      var i :| Covers(t, j, i);
      assert Covers(u, j, i);
    }
  }

  lemma EraseInv<K, V>(t: Table<K, V>, k: K, now: int, own: Ownership)
    requires Inv(t, now)
    ensures Inv(Erase(t, k, own), now)
  {
    var u := Erase(t, k, own);
    forall j | j in u.entries
      ensures exists i :: Covers(u, j, i)
    {
      var i :| Covers(t, j, i);
      assert Covers(u, j, i);
    }
  }

  lemma FireInv<K, V>(t: Table<K, V>, i: nat, now: int)
    requires Inv(t, now)
    ensures Inv(Fire(t, i, now), now)
  {
    var u := Fire(t, i, now);
    forall j | j in u.entries
      ensures exists i :: Covers(u, j, i)
    {
      var w :| Covers(t, j, w);
      assert Covers(u, j, w);
    }
  }

  // Taking a ready wait out of the queue leaves every entry that is not due covered.
  lemma DequeueCovers<K, V>(t: Table<K, V>, i: nat, now: int, k: K)
    requires Inv(t, now) && i in t.pending.waits && !t.pending.waits[i].status.Waiting?
    requires k in t.entries
    requires !(t.pending.waits[i].status.Fired? && t.pending.waits[i].key == k && t.entries[k].expiry <= now)
    ensures exists j :: Covers(t.(pending := Dequeue(t.pending, i)), k, j)
  {
    var j :| Covers(t, k, j);
    assert Covers(t.(pending := Dequeue(t.pending, i)), k, j);
  }

  /** Running any queued handler, however stale, keeps the invariant: an entry that stays still has
      a live wait at its current expiry. */
  lemma CompleteInv<K, V>(t: Table<K, V>, i: nat, now: int, own: Ownership)
    requires Inv(t, now)
    ensures Inv(Complete(t, i, now, own), now)
  {
    if i in t.pending.waits && !t.pending.waits[i].status.Waiting? {
      var w := t.pending.waits[i];
      var rest := t.(pending := Dequeue(t.pending, i));
      var u := Complete(t, i, now, own);
      forall k | k in u.entries
        ensures exists j :: Covers(u, k, j)
      {
        DequeueCovers(t, i, now, k);
        var j :| Covers(rest, k, j);
        assert Covers(u, k, j);
      }
    }
  }

  // Cancelling a timer that no entry holds (the timer of an entry erased earlier).
  lemma CancelStrayInv<K, V>(t: Table<K, V>, timer: nat, now: int)
    requires Inv(t, now)
    requires forall k :: k in t.entries ==> t.entries[k].timer != timer
    ensures Inv(t.(pending := CancelTimer(t.pending, timer)), now)
  {
    var u := t.(pending := CancelTimer(t.pending, timer));
    forall k | k in u.entries
      ensures exists i :: Covers(u, k, i)
    {
      var i :| Covers(t, k, i);
      assert Covers(u, k, i);
    }
  }

  /** No expired entry survives draining. */
  lemma DrainedEntriesAreLive<K, V>(t: Table<K, V>, now: int, k: K)
    requires Inv(t, now) && Drained(t, now) && k in t.entries
    ensures t.entries[k].expiry > now
  {
    var i :| Covers(t, k, i);
  }

  /** No completion removes or changes an entry that is not due, whatever wait it belongs to. */
  lemma CompleteKeepsLive<K, V>(t: Table<K, V>, i: nat, now: int, own: Ownership, k: K)
    ensures k in Complete(t, i, now, own).entries ==>
              k in t.entries && Complete(t, i, now, own).entries[k] == t.entries[k]
    ensures k in t.entries && t.entries[k].expiry > now ==> k in Complete(t, i, now, own).entries
  {
  }

  /** A completion erases an entry exactly when it is queued for that key, the entry is due, and its
      handler does not return at once, as the handler of an owned timer does on an error code. */
  lemma CompleteErasesIff<K, V>(t: Table<K, V>, i: nat, now: int, own: Ownership, k: K)
    requires k in t.entries
    ensures k !in Complete(t, i, now, own).entries <==>
              && i in t.pending.waits && t.pending.waits[i].key == k && t.entries[k].expiry <= now
              && (t.pending.waits[i].status.Fired? || (own.Shared? && t.pending.waits[i].status.Aborted?))
  {
  }

  // ---------------------------------------------------------------- no wait is left behind

  /* A timer has at most one wait that can still fire.  With owned timers it belongs to an entry, at
     that entry's expiry: re-arming and erasing abort the wait they make void. */
  ghost predicate Lean<K, V>(t: Table<K, V>) {
    forall i :: i in t.pending.waits && t.pending.waits[i].status.Waiting? ==>
      var w := t.pending.waits[i];
      w.key in t.entries && t.entries[w.key].timer == w.timer && t.entries[w.key].expiry == w.deadline
  }

  lemma InsertLean<K, V>(t: Table<K, V>, k: K, v: V, expiry: int)
    requires Lean(t) && Numbered(t) && k !in t.entries
    ensures Lean(Insert(t, k, v, expiry))
  {
  }

  lemma RearmLean<K, V>(t: Table<K, V>, k: K, expiry: int)
    requires Lean(t) && Numbered(t) && k in t.entries
    ensures Lean(Rearm(t, k, expiry))
  {
  }

  lemma EraseLean<K, V>(t: Table<K, V>, k: K)
    requires Lean(t) && Numbered(t)
    ensures Lean(Erase(t, k, Owned))
  {
  }

  /** Firing and completing keep it, for owned timers. */
  lemma CompleteLean<K, V>(t: Table<K, V>, i: nat, now: int)
    requires Lean(t) && Numbered(t)
    ensures Lean(Fire(t, i, now)) && Lean(Complete(t, i, now, Owned))
  {
  }
}
