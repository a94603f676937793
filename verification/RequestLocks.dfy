/** The reference-counted per-command lock of Service.lock
    (internal/command/service.go).

    A handler's `Ticket` is what its unlock closure captured: the table key and
    the lock object. `RequestLocks` is the object; the pure functions are the
    four atomic steps (the two critical sections under locksMu, and the
    acquisition and release of the lock object itself), which handlers may
    interleave in any order. */
module RequestLocks {
  import opened Wrappers

  /** One lock table per service object. */
  datatype LockKey = LockKey(service: nat, name: string)

  /** `key` is the table key the object was created under. */
  datatype Mutex = Mutex(key: LockKey, refs: nat, holder: Option<nat>)

  datatype Ticket = Ticket(key: LockKey, mutex: nat)

  datatype Locks =
    Locks(entries: map<LockKey, nat>, mutexes: map<nat, Mutex>, next: nat, tickets: map<nat, Ticket>)

  const NO_LOCKS := Locks(map[], map[], 0, map[])

  /** The handlers between refs++ and refs-- on one lock object. */
  ghost function Users(tickets: map<nat, Ticket>, m: nat): set<nat> {
    set h | h in tickets && tickets[h].mutex == m
  }

  ghost predicate TicketValid(l: Locks, h: nat)
    requires h in l.tickets
  {
    l.tickets[h].key in l.entries && l.entries[l.tickets[h].key] == l.tickets[h].mutex
  }

  /** The lock object under a key counts its users, and serves only that key. */
  ghost predicate EntryValid(l: Locks, k: LockKey)
    requires k in l.entries
  {
    && l.entries[k] in l.mutexes
    && l.mutexes[l.entries[k]].refs == |Users(l.tickets, l.entries[k])|
    && l.mutexes[l.entries[k]].refs > 0
    && l.mutexes[l.entries[k]].key == k
  }

  ghost predicate HolderValid(l: Locks, m: nat)
    requires m in l.mutexes
  {
    l.mutexes[m].holder.Some? ==>
      l.mutexes[m].holder.value in l.tickets && l.tickets[l.mutexes[m].holder.value].mutex == m
  }

  ghost predicate Inv(l: Locks) {
    && (forall h <- l.tickets :: TicketValid(l, h))
    && (forall k <- l.entries :: EntryValid(l, k))
    && (forall m <- l.mutexes :: HolderValid(l, m))
    && (forall m <- l.mutexes :: m < l.next)
  }

  predicate Holds(l: Locks, h: nat) {
    && h in l.tickets
    && l.tickets[h].mutex in l.mutexes
    && l.mutexes[l.tickets[h].mutex].holder == Some(h)
  }

  // --------------------------------------------------------------- the steps

  /** refs++, creating the lock object when the table has none for the key. */
  function Ref(l: Locks, h: nat, key: LockKey): Locks {
    if h in l.tickets then l
    else if key in l.entries && l.entries[key] in l.mutexes then
      var m := l.entries[key];
      var x := l.mutexes[m];
      l.(mutexes := l.mutexes[m := x.(refs := x.refs + 1)], tickets := l.tickets[h := Ticket(key, m)])
    else
      l.(entries := l.entries[key := l.next],
         mutexes := l.mutexes[l.next := Mutex(key, 1, None)],
         next := l.next + 1,
         tickets := l.tickets[h := Ticket(key, l.next)])
  }

  /** mu.Lock returning: possible only while nobody holds the lock object. */
  function Acquire(l: Locks, h: nat): Locks {
    if h in l.tickets && l.tickets[h].mutex in l.mutexes && l.mutexes[l.tickets[h].mutex].holder.None? then
      var m := l.tickets[h].mutex;
      l.(mutexes := l.mutexes[m := l.mutexes[m].(holder := Some(h))])
    else l
  }

  function Release(l: Locks, h: nat): Locks {
    if Holds(l, h) then
      var m := l.tickets[h].mutex;
      l.(mutexes := l.mutexes[m := l.mutexes[m].(holder := None)])
    else l
  }

  /** refs--, deleting the table entry under the key when the count is zero. */
  function Unref(l: Locks, h: nat): Locks {
    if h in l.tickets && !Holds(l, h) && l.tickets[h].mutex in l.mutexes && l.mutexes[l.tickets[h].mutex].refs > 0 then
      var t := l.tickets[h];
      var x := l.mutexes[t.mutex];
      l.(mutexes := l.mutexes[t.mutex := x.(refs := x.refs - 1)],
         entries := if x.refs == 1 then l.entries - {t.key} else l.entries,
         tickets := l.tickets - {h})
    else l
  }

  // ------------------------------------------------- what every step preserves

  lemma UsersAdd(tickets: map<nat, Ticket>, h: nat, t: Ticket, m: nat)
    requires h !in tickets
    ensures |Users(tickets[h := t], m)| == |Users(tickets, m)| + (if m == t.mutex then 1 else 0)
  {
    assert Users(tickets[h := t], m) == Users(tickets, m) + (if m == t.mutex then {h} else {});
  }

  lemma UsersRemove(tickets: map<nat, Ticket>, h: nat, m: nat)
    requires h in tickets
    ensures |Users(tickets - {h}, m)| == |Users(tickets, m)| - (if m == tickets[h].mutex then 1 else 0)
  {
    assert Users(tickets, m) == Users(tickets - {h}, m) + (if m == tickets[h].mutex then {h} else {});
  }

  lemma RefKeeps(l: Locks, h: nat, key: LockKey)
    requires Inv(l)
    ensures Inv(Ref(l, h, key))
  {
    if h !in l.tickets {
      if key in l.entries {
        assert EntryValid(l, key);
        JoinKeeps(l, h, key);
      } else {
        CreateKeeps(l, h, key);
      }
    }
  }

  /** Joining an existing lock object. */
  lemma JoinKeeps(l: Locks, h: nat, key: LockKey)
    requires Inv(l) && h !in l.tickets && key in l.entries && EntryValid(l, key)
    ensures Inv(Ref(l, h, key))
  {
    var l' := Ref(l, h, key);
    hide Users;
    forall k <- l'.entries ensures EntryValid(l', k) {
      assert EntryValid(l, k);
      UsersAdd(l.tickets, h, l'.tickets[h], l'.entries[k]);
    }
    forall g <- l'.tickets ensures TicketValid(l', g) {
      assert g in l.tickets ==> TicketValid(l, g);
    }
    forall m <- l'.mutexes ensures HolderValid(l', m) {
      assert HolderValid(l, m);
    }
  }

  /** The first user of a key creates the lock object. */
  lemma CreateKeeps(l: Locks, h: nat, key: LockKey)
    requires Inv(l) && h !in l.tickets && key !in l.entries
    ensures Inv(Ref(l, h, key))
  {
    var l' := Ref(l, h, key);
    assert forall g <- l.tickets :: TicketValid(l, g) && EntryValid(l, l.tickets[g].key);
    assert Users(l.tickets, l.next) == {};
    hide Users;
    forall k <- l'.entries ensures EntryValid(l', k) {
      assert k in l.entries ==> EntryValid(l, k);
      UsersAdd(l.tickets, h, l'.tickets[h], l'.entries[k]);
    }
    forall g <- l'.tickets ensures TicketValid(l', g) {
      assert g in l.tickets ==> TicketValid(l, g);
    }
    forall m <- l'.mutexes ensures HolderValid(l', m) {
      assert m in l.mutexes ==> HolderValid(l, m);
    }
  }

  lemma UnrefKeeps(l: Locks, h: nat)
    requires Inv(l)
    ensures Inv(Unref(l, h))
  {
    var l' := Unref(l, h);
    if l' != l {
      var t := l.tickets[h];
      assert TicketValid(l, h) && EntryValid(l, t.key);
      UsersRemove(l.tickets, h, t.mutex);
      forall k <- l'.entries ensures EntryValid(l', k) {
        assert EntryValid(l, k);
        UsersRemove(l.tickets, h, l.entries[k]);
      }
      forall g <- l'.tickets ensures TicketValid(l', g) {
        assert TicketValid(l, g);
        assert l.tickets[g].mutex == t.mutex ==> g in Users(l'.tickets, t.mutex);
        assert EntryValid(l, l.tickets[g].key);
      }
      forall m <- l'.mutexes ensures HolderValid(l', m) {
        assert HolderValid(l, m);
      }
    }
  }

  lemma HolderKeeps(l: Locks, h: nat, l': Locks)
    requires Inv(l)
    requires l' == Acquire(l, h) || l' == Release(l, h)
    ensures Inv(l')
  {
    hide Users;
    forall k <- l'.entries ensures EntryValid(l', k) {
      assert EntryValid(l, k);
    }
    forall g <- l'.tickets ensures TicketValid(l', g) {
      assert TicketValid(l, g);
    }
    forall m <- l'.mutexes ensures HolderValid(l', m) {
      assert HolderValid(l, m);
    }
  }

  /** Handler `g` sees no difference between the two lock states. */
  predicate SameFor(l: Locks, l': Locks, g: nat) {
    && (g in l'.tickets <==> g in l.tickets)
    && (g in l.tickets ==> l'.tickets[g] == l.tickets[g])
    && (Holds(l', g) <==> Holds(l, g))
  }

  lemma RefOthers(l: Locks, h: nat, key: LockKey)
    requires Inv(l)
    ensures forall g: nat :: g != h ==> SameFor(l, Ref(l, h, key), g)
  {
    forall g: nat | g != h ensures SameFor(l, Ref(l, h, key), g) {
      assert g in l.tickets ==> TicketValid(l, g) && EntryValid(l, l.tickets[g].key);
    }
  }

  lemma RefTicket(l: Locks, h: nat, key: LockKey)
    requires Inv(l) && h !in l.tickets
    ensures h in Ref(l, h, key).tickets && Ref(l, h, key).tickets[h].key == key && !Holds(Ref(l, h, key), h)
  {
    assert forall m <- l.mutexes :: HolderValid(l, m);
  }

  lemma UnrefTicket(l: Locks, h: nat)
    requires Inv(l) && h in l.tickets && !Holds(l, h)
    ensures h !in Unref(l, h).tickets
  {
    assert TicketValid(l, h) && EntryValid(l, l.tickets[h].key);
  }

  lemma UnrefOthers(l: Locks, h: nat)
    requires Inv(l)
    ensures forall g: nat :: g != h ==> SameFor(l, Unref(l, h), g)
  {
  }

  lemma HolderOthers(l: Locks, h: nat, l': Locks)
    requires Inv(l)
    requires l' == Acquire(l, h) || l' == Release(l, h)
    ensures forall g: nat :: g != h ==> SameFor(l, l', g)
  {
  }

  // ---------------------------------------------------------------- the object

  datatype LockStep =
    | DoRef(h: nat, key: LockKey)
    | DoAcquire(h: nat)
    | DoRelease(h: nat)
    | DoUnref(h: nat)

  function Step(l: Locks, s: LockStep): Locks {
    match s
    case DoRef(h, key) => Ref(l, h, key)
    case DoAcquire(h) => Acquire(l, h)
    case DoRelease(h) => Release(l, h)
    case DoUnref(h) => Unref(l, h)
  }

  function Run(l: Locks, steps: seq<LockStep>): Locks
    decreases |steps|
  {
    if steps == [] then l else Run(Step(l, steps[0]), steps[1..])
  }

  lemma {:induction false} RunKeeps(l: Locks, steps: seq<LockStep>)
    requires Inv(l)
    ensures Inv(Run(l, steps))
    decreases |steps|
  {
    if steps != [] {
      match steps[0] {
        case DoRef(h, key) => RefKeeps(l, h, key);
        case DoAcquire(h) => HolderKeeps(l, h, Acquire(l, h));
        case DoRelease(h) => HolderKeeps(l, h, Release(l, h));
        case DoUnref(h) => UnrefKeeps(l, h);
      }
      RunKeeps(Step(l, steps[0]), steps[1..]);
    }
  }

  /** In every interleaving: handlers on one key share one lock object and at
      most one of them holds it, and the table's keys are exactly the keys in
      use. */
  lemma MutualExclusion(steps: seq<LockStep>, h1: nat, h2: nat)
    ensures var l := Run(NO_LOCKS, steps);
            && (h1 in l.tickets && h2 in l.tickets ==>
                  (l.tickets[h1].key == l.tickets[h2].key <==> l.tickets[h1].mutex == l.tickets[h2].mutex))
            && (Holds(l, h1) && Holds(l, h2) && l.tickets[h1].key == l.tickets[h2].key ==> h1 == h2)
            && l.entries.Keys == (set h <- l.tickets :: l.tickets[h].key)
  {
    RunKeeps(NO_LOCKS, steps);
    var l := Run(NO_LOCKS, steps);
    assert forall h <- l.tickets :: TicketValid(l, h) && EntryValid(l, l.tickets[h].key);
    forall k <- l.entries ensures k in (set h <- l.tickets :: l.tickets[h].key) {
      assert EntryValid(l, k);
      assert Users(l.tickets, l.entries[k]) != {};
      var h :| h in Users(l.tickets, l.entries[k]);
      assert TicketValid(l, h) && EntryValid(l, l.tickets[h].key);
    }
  }

  /** In a table nobody uses, a new user's lock is free. */
  lemma UnusedIsFree(l: Locks, h: nat, key: LockKey)
    requires Inv(l) && l.tickets == map[]
    ensures l.entries == map[]
    ensures Ref(l, h, key).tickets == map[h := Ticket(key, l.next)]
    ensures l.next in Ref(l, h, key).mutexes && Ref(l, h, key).mutexes[l.next].holder.None?
  {
    EntriesHaveUsers(l);
  }

  lemma EntriesHaveUsers(l: Locks)
    requires Inv(l)
    ensures l.entries != map[] ==> l.tickets != map[]
  {
    if k :| k in l.entries {
      assert EntryValid(l, k);
      var h :| h in Users(l.tickets, l.entries[k]);
    }
  }

  lemma EntryFacts(l: Locks, key: LockKey)
    requires Inv(l)
    ensures key in l.entries ==> l.entries[key] in l.mutexes
  {
    assert key in l.entries ==> EntryValid(l, key);
  }

  /** The service's `locks` table. Each method is one critical section. */
  class RequestLockTable {
    var state: Locks

    constructor ()
      ensures state == NO_LOCKS && Inv(state)
    {
      state := NO_LOCKS;
    }

    method LockRef(h: nat, key: LockKey)
      requires Inv(state) && h !in state.tickets
      modifies this
      ensures Inv(state) && state == Ref(old(state), h, key)
      ensures h in state.tickets && state.tickets[h].key == key && !Holds(state, h)
    {
      hide Users;
      RefKeeps(state, h, key);
      RefTicket(state, h, key);
      EntryFacts(state, key);
      hide Inv, EntryValid, Holds;
      ghost var before := state;
      if key !in state.entries {
        state := state.(entries := state.entries[key := state.next],
                        mutexes := state.mutexes[state.next := Mutex(key, 0, None)],
                        next := state.next + 1);
      }
      var m := state.entries[key];
      var x := state.mutexes[m];
      state := state.(mutexes := state.mutexes[m := x.(refs := x.refs + 1)], tickets := state.tickets[h := Ticket(key, m)]);
      assert state == Ref(before, h, key);
    }

    /** The lock object's own Lock, once nobody holds it. */
    method Lock(h: nat)
      requires Inv(state) && h in state.tickets && state.tickets[h].mutex in state.mutexes
      requires state.mutexes[state.tickets[h].mutex].holder.None?
      modifies this
      ensures Inv(state) && state == Acquire(old(state), h) && Holds(state, h)
    {
      HolderKeeps(state, h, Acquire(state, h));
      hide Inv;
      var m := state.tickets[h].mutex;
      state := state.(mutexes := state.mutexes[m := state.mutexes[m].(holder := Some(h))]);
    }

    method Unlock(h: nat)
      requires Inv(state) && Holds(state, h)
      modifies this
      ensures Inv(state) && state == Release(old(state), h) && !Holds(state, h)
    {
      HolderKeeps(state, h, Release(state, h));
      hide Inv;
      var m := state.tickets[h].mutex;
      state := state.(mutexes := state.mutexes[m := state.mutexes[m].(holder := None)]);
    }

    method UnlockUnref(h: nat)
      requires Inv(state) && h in state.tickets && !Holds(state, h)
      modifies this
      ensures Inv(state) && state == Unref(old(state), h)
      ensures state.tickets == old(state).tickets - {h}
      ensures old(state).tickets[h].key in state.entries <==>
              exists g <- state.tickets :: state.tickets[g].key == old(state).tickets[h].key
    {
      UnrefKeeps(state, h);
      ghost var before := state;
      var t := state.tickets[h];
      assert h in Users(state.tickets, t.mutex);
      state := state.(mutexes := state.mutexes[t.mutex := state.mutexes[t.mutex].(refs := state.mutexes[t.mutex].refs - 1)],
                      tickets := state.tickets - {h});
      if state.mutexes[t.mutex].refs == 0 {
        state := state.(entries := state.entries - {t.key});
      }
      assert state == Unref(before, h);
      if t.key in state.entries {
        ghost var g :| g in Users(state.tickets, state.entries[t.key]);
        assert state.tickets[g].key == t.key;
      }
    }
  }

  // -------------------------------------------------- the key "%d:%s" is injective

  function Decimal(n: nat): (s: string)
    ensures s != [] && ':' !in s
  {
    var d := ['0' + (n % 10) as char];
    if n < 10 then d else Decimal(n / 10) + d
  }

  function LockName(uid: nat, commandID: string): string {
    Decimal(uid) + [':'] + commandID
  }

  lemma {:induction false} DecimalInjective(a: nat, b: nat)
    requires Decimal(a) == Decimal(b)
    ensures a == b
    decreases a
  {
    var da, db := Decimal(a), Decimal(b);
    assert da[|da| - 1] == '0' + (a % 10) as char && db[|db| - 1] == '0' + (b % 10) as char;
    assert a % 10 == b % 10;
    if a >= 10 && b >= 10 {
      assert da[..|da| - 1] == Decimal(a / 10) && db[..|db| - 1] == Decimal(b / 10);
      DecimalInjective(a / 10, b / 10);
    }
  }

  function UpToColon(s: string): string {
    if s == [] || s[0] == ':' then [] else [s[0]] + UpToColon(s[1..])
  }

  lemma {:induction false} UpToColonStops(d: string, rest: string)
    requires ':' !in d
    ensures UpToColon(d + [':'] + rest) == d
  {
    if d != [] {
      assert (d + [':'] + rest)[1..] == d[1..] + [':'] + rest;
      UpToColonStops(d[1..], rest);
    }
  }

  /** Two commands never share a lock by accident, whatever the command IDs
      contain. */
  lemma LockNameInjective(u1: nat, c1: string, u2: nat, c2: string)
    requires LockName(u1, c1) == LockName(u2, c2)
    ensures u1 == u2 && c1 == c2
  {
    UpToColonStops(Decimal(u1), c1);
    UpToColonStops(Decimal(u2), c2);
    DecimalInjective(u1, u2);
    var n := |Decimal(u1)| + 1;
    assert LockName(u1, c1)[n..] == c1 && LockName(u2, c2)[n..] == c2;
  }
}
