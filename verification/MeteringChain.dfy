/**
 The metering chain in the code's own form (internal/kernel/metering_chain.go): an
 object holding its backends by priority, a breaker per backend, a bounded channel per
 asynchronous backend, the duplicate filter, the log and the memory store.

 Each method is what one goroutine does when nobody interferes; MeteringMachine gives
 the same steps under interference.
 */
module MeteringChain {
  import opened Prelude
  import opened Calendar
  import opened CycleWindow
  import opened MeteringMemory
  import opened SegmentLog
  import opened MeteringMachine
  import Breaking = CircuitBreaker
  import Dedup = EventDedup

  // ---- fan-out of an accepted event, as a value ----

  /** What fan-out reads and writes. */
  datatype Fabric = Fabric(
    breakers: map<string, Breaking.Breaker>,
    queues: map<string, seq<Op>>,
    log: Log<Entry>)
  {
    ghost predicate Reaches(b: string) { log.Valid() && b in breakers && b in queues }
  }

  /** Refused by the breaker or out of channel space, the operation goes to the log;
      otherwise into the channel. */
  ghost function FanOutOne(f: Fabric, capacity: nat, op: Op, b: string, size: nat, now: Instant): (f': Fabric)
    requires f.Reaches(b)
    ensures f'.queues.Keys == f.queues.Keys && forall c :: f.Reaches(c) ==> f'.Reaches(c)
  {
    AppendGrows(f.log, Entry(b, op), size, now);
    var f1 := f.(breakers := f.breakers[b := Breaking.Consulted(f.breakers[b], now)]);
    if Breaking.Admits(f.breakers[b], now) && |f.queues[b]| < capacity
    then f1.(queues := f.queues[b := f.queues[b] + [op]])
    else f1.(log := f.log.Appended(Entry(b, op), size, now))
  }

  ghost function FanOut(f: Fabric, capacity: nat, op: Op, todo: seq<string>, size: nat, now: Instant): Fabric
    requires forall b :: b in todo ==> f.Reaches(b)
    decreases |todo|
  {
    if todo == [] then f
    else
      assert forall b :: b in todo[1..] ==> b in todo;
      assert todo[0] in todo;
      FanOut(FanOutOne(f, capacity, op, todo[0], size, now), capacity, op, todo[1..], size, now)
  }

  /** Of what was there nothing is lost, and no channel goes over capacity. */
  ghost predicate Kept(f: Fabric, f': Fabric, capacity: nat, b: string) {
    && b in f.queues && b in f'.queues && f.queues[b] <= f'.queues[b]
    && (|f.queues[b]| <= capacity ==> |f'.queues[b]| <= capacity)
    && (forall e :: f.log.Holds(e) ==> f'.log.Holds(e))
  }

  /** The operation waits in the backend's channel or in the log under its name. */
  ghost predicate Pending(f: Fabric, b: string, op: Op) {
    (b in f.queues && op in f.queues[b]) || f.log.Holds(Entry(b, op))
  }

  /** After fan-out the operation is pending for every backend. */
  lemma {:induction false} FanOutReachesAll(f: Fabric, capacity: nat, op: Op, todo: seq<string>, size: nat, now: Instant, b: string)
    requires forall c :: c in todo ==> f.Reaches(c)
    requires b in f.queues
    ensures Kept(f, FanOut(f, capacity, op, todo, size, now), capacity, b)
    ensures b in todo ==> Pending(FanOut(f, capacity, op, todo, size, now), b, op)
    decreases |todo|
  {
    hide FanOutOne, FanOut;
    FanOutUnfolds(f, capacity, op, todo, size, now);
    if todo != [] {
      var f1 := FanOutOne(f, capacity, op, todo[0], size, now);
      assert todo[0] in todo;
      FanOutOneReaches(f, capacity, op, todo[0], size, now, b);
      FanOutReachesAll(f1, capacity, op, todo[1..], size, now, b);
      if op in f1.queues[b] {
        InPrefix(op, f1.queues[b], FanOut(f1, capacity, op, todo[1..], size, now).queues[b]);
      }
    }
  }

  lemma FanOutOneReaches(f: Fabric, capacity: nat, op: Op, c: string, size: nat, now: Instant, b: string)
    requires f.Reaches(c) && b in f.queues
    ensures Kept(f, FanOutOne(f, capacity, op, c, size, now), capacity, b)
    ensures Pending(FanOutOne(f, capacity, op, c, size, now), c, op)
  {
    hide Breaking.Admits, Breaking.Consulted;
    forall e
      ensures f.log.Holds(e) ==> f.log.Appended(Entry(c, op), size, now).Holds(e)
    {
      AppendHolds(f.log, Entry(c, op), size, now, e);
    }
    AppendGrows(f.log, Entry(c, op), size, now);
    assert (f.queues[c] + [op])[|f.queues[c]|] == op;
  }

  /** The channel takes the operation: the breaker lets it through and there is room. */
  ghost predicate Direct(f: Fabric, capacity: nat, b: string, now: Instant) {
    b in f.breakers && b in f.queues && Breaking.Admits(f.breakers[b], now) && |f.queues[b]| < capacity
  }

  /** Exactly where it is then: with backends of different names, once at the end of the
      channel of each backend that takes it, and in the log for exactly the others; nothing
      else is queued or logged. */
  lemma {:induction false} FanOutSplits(f: Fabric, capacity: nat, op: Op, todo: seq<string>, size: nat, now: Instant, b: string)
    requires forall c :: c in todo ==> f.Reaches(c)
    requires Distinct(todo) && b in f.queues
    ensures var f' := FanOut(f, capacity, op, todo, size, now);
            && b in f'.queues && f'.queues[b] == f.queues[b] + (if b in todo && Direct(f, capacity, b, now) then [op] else [])
            && (forall x :: f'.log.Holds(Entry(b, x)) <==> f.log.Holds(Entry(b, x)) || (x == op && b in todo && !Direct(f, capacity, b, now)))
    decreases |todo|
  {
    hide FanOutOne, FanOut, Direct, Log.Holds;
    FanOutUnfolds(f, capacity, op, todo, size, now);
    if todo != [] {
      assert todo[0] in todo;
      assert b in todo[1..] ==> b != todo[0];
      FanOutOneSplits(f, capacity, op, todo[0], size, now, b);
      FanOutSplits(FanOutOne(f, capacity, op, todo[0], size, now), capacity, op, todo[1..], size, now, b);
    }
  }

  lemma FanOutOneSplits(f: Fabric, capacity: nat, op: Op, c: string, size: nat, now: Instant, b: string)
    requires f.Reaches(c) && b in f.queues
    ensures var f' := FanOutOne(f, capacity, op, c, size, now);
            && b in f'.queues && f'.queues[b] == f.queues[b] + (if b == c && Direct(f, capacity, b, now) then [op] else [])
            && (forall x :: f'.log.Holds(Entry(b, x)) <==> f.log.Holds(Entry(b, x)) || (x == op && b == c && !Direct(f, capacity, b, now)))
            && (b != c ==> (Direct(f', capacity, b, now) <==> Direct(f, capacity, b, now)))
  {
    hide Breaking.Admits, Breaking.Consulted, Log.Holds, Log.Appended;
    forall e
      ensures f.log.Appended(Entry(c, op), size, now).Holds(e) <==> f.log.Holds(e) || e == Entry(c, op)
    {
      AppendHolds(f.log, Entry(c, op), size, now, e);
    }
  }

  lemma InPrefix<T>(x: T, s: seq<T>, t: seq<T>)
    requires x in s && s <= t
    ensures x in t
  {
    var i :| 0 <= i < |s| && s[i] == x;
    assert t[i] == x;
  }

  function FabricOf(s: State): Fabric { Fabric(s.breakers, s.queues, s.log) }

  /** One backend's share of fan-out is the machine's own steps with no other goroutine
      between them: consult, then send, or append to the log. */
  lemma FanOutOneIsSteps(s: State, o: Owner, size: nat)
    requires At(s, o, AtBreaker) && s.tasks[o].queued && s.tasks[o].op.RecordEvent? && s.tasks[o].todo != []
    requires FabricOf(s).Reaches(s.tasks[o].todo[0])
    ensures o in Consulted(s, o).tasks
    ensures var t, c := s.tasks[o], Consulted(s, o);
            var f' := FanOutOne(FabricOf(s), s.config.capacity, t.op, t.todo[0], size, s.clock);
            && (c.tasks[o].stage.AtLog? ==> f' == FabricOf(Logged(c, o, size)))
            && (!c.tasks[o].stage.AtLog? && |c.queues[t.todo[0]]| < c.config.capacity ==> f' == FabricOf(Sent(c, o)))
            && (!c.tasks[o].stage.AtLog? && |c.queues[t.todo[0]]| >= c.config.capacity ==>
                  o in Sent(c, o).tasks && f' == FabricOf(Logged(Sent(c, o), o, size)))
  {
    hide SameWaiting, CoreOf;
    var b := s.tasks[o].todo[0];
    if !Breaking.Admits(s.breakers[b], s.clock) {
      assert s.breakers[b := s.breakers[b]] == s.breakers;
    }
  }

  // ---- the chain ----

  datatype Backend = Backend(name: string, priority: nat)

  function NamesOf(backends: seq<Backend>): seq<string> {
    if backends == [] then [] else [backends[0].name] + NamesOf(backends[1..])
  }

  predicate Ordered(backends: seq<Backend>) {
    forall i, j :: 0 <= i < j < |backends| ==> backends[i].priority <= backends[j].priority
  }

  ghost predicate Wired(backends: seq<Backend>, breakers: map<string, Breaking.CircuitBreaker>, channels: set<string>, stores: set<string>) {
    && backends != [] && backends[0] == Backend(MEMORY, 0) && Ordered(backends)
    && MEMORY !in channels && channels == stores
    && (forall i :: 1 <= i < |backends| ==> backends[i].priority > 0 && backends[i].name in channels)
    && (forall b :: b in channels ==> b in breakers)
    && (forall b, c :: b in breakers && c in breakers && b != c ==> breakers[b] != breakers[c])
  }

  lemma StaysWired(backends: seq<Backend>, breakers: map<string, Breaking.CircuitBreaker>, channels: set<string>, stores: set<string>,
                   i: nat, b: Backend, breaker: Breaking.CircuitBreaker)
    requires Wired(backends, breakers, channels, stores) && MEMORY in breakers && 1 <= i <= |backends|
    requires b.priority > 0 && b.name !in breakers && breaker !in breakers.Values
    requires Ordered(backends[..i] + [b] + backends[i..])
    ensures Wired(backends[..i] + [b] + backends[i..], breakers[b.name := breaker], channels + {b.name}, stores + {b.name})
  {
    hide Ordered;
    assert forall j :: 1 <= j < i ==> backends[j].priority > 0 && backends[j].name in channels;
  }

  class MeteringChain {
    var backends: seq<Backend>
    var breakers: map<string, Breaking.CircuitBreaker>
    var asyncChans: map<string, seq<Op>>
    var stores: map<string, seq<Op>>
    ghost var writes: seq<(string, Op, bool)>
    var tickets: nat
    const capacity: nat
    const threshold: int
    const cooldown: int
    const dedup: Dedup.EventDedup
    const wal: MeteringWAL<Entry>
    const memory: MemoryMeteringStore

    /** Memory comes first, alone with priority 0, and its breaker is closed; every other
        backend has a breaker of its own and a channel.  `stores` is what each of them
        has taken, `writes` the history of writes to them with what they reported. */
    ghost predicate Valid()
      reads this, wal, breakers.Values
    {
      && wal.Valid() && !wal.stopped
      && Wired(backends, breakers, asyncChans.Keys, stores.Keys)
      && MEMORY in breakers && breakers[MEMORY].state.Closed?
    }

    lemma Turn(i: nat)
      requires Valid() && i < |backends|
      ensures backends[i].priority == 0 <==> i == 0
      ensures backends[i].name in breakers
      ensures if i == 0 then backends[i].name == MEMORY else backends[i].name in asyncChans && backends[i].name != MEMORY
    {
    }

    lemma Apart(b: string)
      requires Valid() && b in breakers
      ensures forall c :: c in breakers && c != b ==> breakers[c] != breakers[b]
    {
    }

    lemma Known(b: string)
      requires Valid() && b in asyncChans
      ensures b in breakers && b != MEMORY && breakers[b] != breakers[MEMORY] && b in stores
    {
    }

    ghost function View(): Fabric
      reads this, breakers.Values, wal
    {
      Fabric(map b | b in breakers :: breakers[b].View(), asyncChans, wal.View())
    }

    constructor (capacity: nat, threshold: int, cooldown: int, retention: int, limits: Limits, now: Instant)
      ensures Valid() && fresh(dedup) && fresh(wal) && fresh(memory)
      ensures backends == [Backend(MEMORY, 0)] && asyncChans == map[]
      ensures memory.View() == EMPTY && dedup.seen == map[] && wal.View() == Reopened(map[], limits, now)
    {
      this.capacity, this.threshold, this.cooldown := capacity, threshold, cooldown;
      dedup := new Dedup.EventDedup(retention);
      wal := new MeteringWAL(limits, now);
      memory := new MemoryMeteringStore();
      var breaker := new Breaking.CircuitBreaker(threshold, cooldown);
      backends, breakers := [Backend(MEMORY, 0)], map[MEMORY := breaker];
      asyncChans, stores, writes, tickets := map[], map[], [], 0;
    }

    /** Registers a backend, keeping the list sorted by priority.  The chain stays well
        formed when the backend has a name of its own and is not a second synchronous
        one. */
    method AddBackend(b: Backend)
      requires Valid()
      modifies this
      ensures Ordered(backends) && multiset(backends) == multiset(old(backends)) + multiset{b}
      ensures asyncChans == if b.priority > 0 then old(asyncChans)[b.name := []] else old(asyncChans)
      ensures b.name in breakers && fresh(breakers[b.name]) && breakers == old(breakers)[b.name := breakers[b.name]]
      ensures breakers[b.name].View() == Breaking.Fresh(threshold, cooldown)
      ensures b.priority > 0 && b.name !in old(breakers) ==> Valid()
    {
      hide Wired, Ordered;
      WiredParts();
      var i := |backends|;
      while i > 0 && backends[i - 1].priority > b.priority
        invariant 1 <= i <= |backends|
        invariant forall j :: i <= j < |backends| ==> backends[j].priority > b.priority
      {
        i := i - 1;
      }
      InsertOrdered(backends, i, b);
      var breaker := new Breaking.CircuitBreaker(threshold, cooldown);
      if b.priority > 0 && b.name !in breakers {
        StaysWired(backends, breakers, asyncChans.Keys, stores.Keys, i, b, breaker);
      }
      backends := backends[..i] + [b] + backends[i..];
      breakers := breakers[b.name := breaker];
      if b.priority > 0 {
        asyncChans := asyncChans[b.name := []];
        stores := stores[b.name := if b.name in stores then stores[b.name] else []];
        assert asyncChans.Keys == old(asyncChans).Keys + {b.name} && stores.Keys == old(stores).Keys + {b.name};
      }
    }

    lemma WiredParts()
      requires Valid()
      ensures Ordered(backends) && backends != [] && backends[0].priority == 0
    {
    }

    /** Asks the backend's breaker. */
    method Consult(b: string, now: Instant) returns (admitted: bool)
      requires Valid() && b in breakers
      modifies breakers[b]
      ensures Valid() && admitted == Breaking.Admits(old(breakers[b].View()), now)
      ensures breakers[b].View() == Breaking.Consulted(old(breakers[b].View()), now)
      ensures View() == old(View()).(breakers := old(View()).breakers[b := Breaking.Consulted(old(breakers[b].View()), now)])
    {
      hide Breaking.Admits, Wired;
      Apart(b);
      admitted := breakers[b].Allow(now);
    }

    method WalAppend(b: string, op: Op, size: nat, now: Instant)
      requires Valid()
      modifies wal
      ensures Valid() && View() == old(View()).(log := old(View().log).Appended(Entry(b, op), size, now))
    {
      hide Wired;
      var _ := wal.Append(Entry(b, op), size, now);
    }

    /** A send that does not wait. */
    method TrySend(b: string, op: Op) returns (sent: bool)
      requires Valid() && b in asyncChans
      modifies `asyncChans
      ensures Valid() && sent == (|old(asyncChans)[b]| < capacity)
      ensures View() == if sent then old(View()).(queues := old(asyncChans)[b := old(asyncChans)[b] + [op]]) else old(View())
    {
      hide Wired;
      sent := |asyncChans[b]| < capacity;
      if sent {
        asyncChans := asyncChans[b := asyncChans[b] + [op]];
        assert asyncChans.Keys == old(asyncChans).Keys;
      }
    }

    /** One turn of the fan-out loop. */
    method FanOutTo(b: string, op: Op, size: nat, now: Instant)
      requires Valid() && b in asyncChans
      modifies `asyncChans, breakers[b], wal
      ensures Valid()
      ensures View() == FanOutOne(old(View()), capacity, op, b, size, now)
    {
      hide Breaking.Consulted, Breaking.Admits, Wired;
      Known(b);
      ghost var f := View();
      assert f.Reaches(b) && f.breakers[b] == breakers[b].View() && f.queues == asyncChans;
      var admitted := Consult(b, now);
      if !admitted {
        WalAppend(b, op, size, now);
        return;
      }
      var sent := TrySend(b, op);
      if !sent {
        WalAppend(b, op, size, now);
      }
    }

    /** Records an event: a duplicate changes nothing; an accepted event is written to
        memory and fanned out to every other backend in priority order. */
    method RecordMeteringEvent(e: Event, size: nat, now: Instant)
      requires Valid()
      modifies `tickets, `asyncChans, breakers.Values, dedup, wal, memory
      ensures Valid()
      ensures dedup.seen == Dedup.Checked(old(dedup.seen), e.id, now)
      ensures Dedup.Duplicate(old(dedup.seen), e.id) ==>
                View() == old(View()) && memory.View() == old(memory.View()) && tickets == old(tickets)
      ensures !Dedup.Duplicate(old(dedup.seen), e.id) ==>
                && memory.View() == Record(old(memory.View()), e, now) && tickets == old(tickets) + 1
                && (forall b :: b in NamesOf(backends[1..]) ==> old(View()).Reaches(b))
                && View() == FanOut(old(View()), capacity, RecordEvent(old(tickets), e), NamesOf(backends[1..]), size, now)
    {
      hide Ordered, Record, FanOut;
      NamesReached();
      var dup := dedup.IsDuplicate(e.id, now);
      assert View() == old(View());
      if dup {
        return;
      }
      var op := RecordEvent(tickets, e);
      tickets := tickets + 1;
      assert View() == old(View());
      WriteFirst(e, now);
      assert View() == old(View());
      FanOutAll(op, size, now);
    }

    lemma NamesReached()
      requires Valid()
      ensures forall b :: b in NamesOf(backends[1..]) ==> b in asyncChans && View().Reaches(b)
    {
      NamesMember(backends[1..]);
    }

    /** The synchronous write: to the first backend of priority 0, if there is one. */
    method WriteFirst(e: Event, now: Instant)
      modifies memory
      ensures (exists i :: 0 <= i < |backends| && backends[i].priority == 0) ==> memory.View() == Record(old(memory.View()), e, now)
      ensures (forall i :: 0 <= i < |backends| ==> backends[i].priority != 0) ==> memory.View() == old(memory.View())
    {
      var i := 0;
      while i < |backends|
        invariant i <= |backends| && memory.View() == old(memory.View())
        invariant forall j :: 0 <= j < i ==> backends[j].priority != 0
      {
        if backends[i].priority == 0 {
          memory.RecordMeteringEvent(e, now);
          return;
        }
        i := i + 1;
      }
    }

    /** The fan-out loop over the backends that are not synchronous. */
    method FanOutAll(op: Op, size: nat, now: Instant)
      requires Valid() && forall b :: b in NamesOf(backends[1..]) ==> View().Reaches(b)
      modifies `asyncChans, breakers.Values, wal
      ensures Valid() && View() == FanOut(old(View()), capacity, op, NamesOf(backends[1..]), size, now)
    {
      hide Wired, FanOut, FanOutOne;
      WiredParts();
      ghost var f, all := View(), NamesOf(backends[1..]);
      var i := 0;
      while i < |backends|
        invariant 0 <= i <= |backends| && Valid()
        invariant forall b :: b in NamesOf(backends[if i == 0 then 1 else i..]) ==> View().Reaches(b)
        invariant FanOut(View(), capacity, op, NamesOf(backends[if i == 0 then 1 else i..]), size, now)
               == FanOut(f, capacity, op, all, size, now)
      {
        var b := backends[i];
        Turn(i);
        if b.priority == 0 {
          i := i + 1;
          continue;
        }
        assert backends[i..][1..] == backends[i + 1..];
        FanOutUnfolds(View(), capacity, op, NamesOf(backends[i..]), size, now);
        FanOutTo(b.name, op, size, now);
        i := i + 1;
      }
      FanOutUnfolds(View(), capacity, op, [], size, now);
    }

    /** A write to a slower backend.  One that reports an error may still have taken
        effect. */
    method WriteTo(b: string, op: Op) returns (ok: bool)
      requires b in stores
      modifies `stores, `writes
      ensures writes == old(writes) + [(b, op, ok)]
      ensures stores == old(stores) || stores == old(stores)[b := old(stores)[b] + [op]]
      ensures ok ==> stores == old(stores)[b := old(stores)[b] + [op]]
      ensures stores.Keys == old(stores).Keys
    {
      ok := *;
      writes := writes + [(b, op, ok)];
      var tookEffect: bool := *;
      if ok || tookEffect {
        stores := stores[b := stores[b] + [op]];
        assert stores.Keys == old(stores).Keys;
      }
    }

    /** One turn of a worker, or of the registration loop, with a slower backend. */
    method Deliver(b: string, op: Op, size: nat, now: Instant) returns (ok: bool)
      requires Valid() && b in asyncChans
      modifies `stores, `writes, breakers[b], wal
      ensures writes == if Breaking.Admits(old(breakers[b].View()), now) then old(writes) + [(b, op, ok)] else old(writes)
      ensures Valid() && Settled(stores, wal.View(), b, op)
      ensures Progressed(old(stores), old(wal.View()), stores, wal.View())
      ensures !Breaking.Admits(old(breakers[b].View()), now) ==>
                stores == old(stores) && ok && breakers[b].View() == Breaking.Consulted(old(breakers[b].View()), now) == old(breakers[b].View())
      ensures !ok ==> wal.View().Holds(Entry(b, op)) && breakers[b].View() == Breaking.Failing(Breaking.Consulted(old(breakers[b].View()), now), now)
      ensures ok && Breaking.Admits(old(breakers[b].View()), now) ==>
                && wal.View() == old(wal.View()) && stores == old(stores)[b := old(stores)[b] + [op]]
                && breakers[b].View() == Breaking.Closing(Breaking.Consulted(old(breakers[b].View()), now))
    {
      hide Breaking.Consulted, Breaking.Admits, Breaking.Failing, Breaking.Closing, Wired;
      Known(b);
      forall e
        ensures wal.View().Appended(Entry(b, op), size, now).Holds(e) <==> wal.View().Holds(e) || e == Entry(b, op)
      {
        AppendHolds(wal.View(), Entry(b, op), size, now, e);
      }
      RefusedStays(breakers[b].View(), now);
      var admitted := Consult(b, now);
      if !admitted {
        WalAppend(b, op, size, now);
        return true;
      }
      ok := WriteTo(b, op);
      if !ok {
        breakers[b].RecordFailure(now);
        WalAppend(b, op, size, now);
      } else {
        breakers[b].RecordSuccess();
        assert stores[b][|stores[b]| - 1] == op;
      }
    }

    /** A worker's turn: it takes the first operation of its channel and writes it. */
    method WorkOff(b: string, size: nat, now: Instant) returns (ok: bool)
      requires Valid() && b in asyncChans && asyncChans[b] != []
      modifies `asyncChans, `stores, `writes, breakers[b], wal
      ensures Valid() && asyncChans == old(asyncChans)[b := old(asyncChans)[b][1..]]
      ensures Settled(stores, wal.View(), b, old(asyncChans)[b][0]) && Progressed(old(stores), old(wal.View()), stores, wal.View())
      ensures var op := old(asyncChans)[b][0];
              if Breaking.Admits(old(breakers[b].View()), now)
              then writes == old(writes) + [(b, op, ok)]
                   && (ok ==> Took(old(stores), b, [op], stores) && wal.View() == old(wal.View()) && Breaking.Admits(breakers[b].View(), now))
              else writes == old(writes)
    {
      hide Wired, Settled, Progressed, Breaking.Consulted, Breaking.Admits, Breaking.Failing, Breaking.Closing;
      Known(b);
      RefusedStays(Breaking.Consulted(breakers[b].View(), now), now);
      var op := asyncChans[b][0];
      asyncChans := asyncChans[b := asyncChans[b][1..]];
      assert asyncChans.Keys == old(asyncChans).Keys;
      ok := Deliver(b, op, size, now);
    }

    /** A worker empties its backend's channel; every operation ends stored or logged.  A
        backend that is let through and takes every write gets all of them, in order. */
    method AsyncWriteWorker(b: string, size: nat, now: Instant)
      requires Valid() && b in asyncChans
      modifies `asyncChans, `stores, `writes, breakers[b], wal
      ensures Valid() && asyncChans == old(asyncChans)[b := []]
      ensures AllSettled(stores, wal.View(), b, old(asyncChans)[b])
      ensures Progressed(old(stores), old(wal.View()), stores, wal.View())
      ensures old(writes) <= writes
      ensures Breaking.Admits(old(breakers[b].View()), now) && (forall w :: w in writes[|old(writes)|..] ==> w.2) ==>
                Took(old(stores), b, old(asyncChans)[b], stores) && wal.View() == old(wal.View())
    {
      hide Wired, Settled, AllSettled, Progressed, Took, Breaking.Admits;
      Known(b);
      ghost var ops, taken, clean := asyncChans[b], 0, Breaking.Admits(breakers[b].View(), now);
      NothingToSettle(stores, wal.View(), b);
      TookNothing(stores, b);
      while asyncChans[b] != []
        invariant Valid() && asyncChans.Keys == old(asyncChans).Keys
        invariant taken <= |ops| && asyncChans == old(asyncChans)[b := ops[taken..]]
        invariant AllSettled(stores, wal.View(), b, ops[..taken])
        invariant Progressed(old(stores), old(wal.View()), stores, wal.View())
        invariant old(writes) <= writes
        invariant Breaking.Admits(old(breakers[b].View()), now) && (forall w :: w in writes[|old(writes)|..] ==> w.2) ==> clean
        invariant clean ==> Took(old(stores), b, ops[..taken], stores) && wal.View() == old(wal.View()) && Breaking.Admits(breakers[b].View(), now)
        decreases |asyncChans[b]|
      {
        ghost var s0, l0, w0 := stores, wal.View(), writes;
        var ok := WorkOff(b, size, now);
        ProgressedTransitive(old(stores), old(wal.View()), s0, l0, stores, wal.View());
        OneMoreSettled(s0, l0, stores, wal.View(), b, ops[..taken], ops[taken]);
        assert ops[..taken + 1] == ops[..taken] + [ops[taken]];
        OneMoreWrite(w0, |old(writes)|, (b, ops[taken], ok));
        if clean && ok {
          TookOneMore(old(stores), s0, stores, b, ops[..taken], ops[taken]);
        }
        clean, taken := clean && ok, taken + 1;
      }
      assert ops[..taken] == ops;
    }

    /** Replays one line of the log: it counts as done only when the backend took it; an
        unknown backend or a refusing breaker leaves everything as it is. */
    method ReplayWALEntry(e: Entry, now: Instant) returns (ok: bool)
      requires Valid()
      modifies `stores, `writes, breakers.Values, memory
      ensures Valid() && Progressed(old(stores), wal.View(), stores, wal.View())
      ensures e.backend !in NamesOf(backends) ==> !ok && stores == old(stores) && View() == old(View()) && memory.View() == old(memory.View())
      ensures e.backend in NamesOf(backends) ==>
                && e.backend in old(breakers) && e.backend in breakers
                && (!Breaking.Admits(old(breakers[e.backend].View()), now) ==>
                      !ok && stores == old(stores) && View() == old(View()) && memory.View() == old(memory.View()))
      ensures e.op.Query? ==> !ok
      ensures ok && e.backend == MEMORY ==> memory.View() == if e.op.RecordEvent? then Record(old(memory.View()), e.op.event, now) else Register(old(memory.View()), e.op.sub, now)
      ensures ok && e.backend != MEMORY ==> e.backend in stores && e.op in stores[e.backend] && memory.View() == old(memory.View())
      ensures e.backend == MEMORY && !e.op.Query? ==> ok
      ensures writes == old(writes) || (e.backend != MEMORY && writes == old(writes) + [(e.backend, e.op, ok)])
      ensures e.backend in NamesOf(backends) && e.backend != MEMORY && !e.op.Query? && e.backend in LettingThrough(old(View()).breakers, now) ==> writes != old(writes)
      ensures e.backend in NamesOf(backends) && !e.op.Query? && Breaking.Admits(old(breakers[e.backend].View()), now) ==>
                var cb := old(breakers[e.backend].View());
                breakers[e.backend].View() == if ok then Breaking.Closing(cb) else Breaking.Failing(Breaking.Consulted(cb, now), now)
    {
      hide Wired;
      WiredNames(e.backend);
      WiredParts();
      Turn(0);
      var i := 0;
      while i < |backends| && backends[i].name != e.backend
        invariant i <= |backends| && forall j :: 0 <= j < i ==> backends[j].name != e.backend
      {
        i := i + 1;
      }
      NamesMember(backends);
      if i == |backends| {
        return false;
      }
      ghost var before := View();
      assert e.backend in NamesOf(backends);
      Apart(e.backend);
      var admitted := Consult(e.backend, now);
      if !admitted {
        assert View() == before;
        return false;
      }
      if e.op.Query? {
        return false;
      }
      if e.backend == MEMORY {
        ReplayInMemory(e.op, now);
        return true;
      }
      ok := ReplayTo(e, now);
    }

    /** A replayed write to a slower backend that let it through. */
    method ReplayTo(e: Entry, now: Instant) returns (ok: bool)
      requires Valid() && e.backend in asyncChans
      modifies `stores, `writes, breakers[e.backend]
      ensures Valid() && Progressed(old(stores), wal.View(), stores, wal.View())
      ensures writes == old(writes) + [(e.backend, e.op, ok)]
      ensures ok ==> e.backend in stores && e.op in stores[e.backend]
      ensures breakers[e.backend].View() == if ok then Breaking.Closing(old(breakers[e.backend].View())) else Breaking.Failing(old(breakers[e.backend].View()), now)
    {
      hide Wired;
      Known(e.backend);
      Apart(e.backend);
      ok := WriteTo(e.backend, e.op);
      if ok {
        assert stores[e.backend][|stores[e.backend]| - 1] == e.op;
        breakers[e.backend].RecordSuccess();
      } else {
        breakers[e.backend].RecordFailure(now);
      }
    }

    method ReplayInMemory(op: Op, now: Instant)
      requires Valid() && !op.Query?
      modifies memory, breakers[MEMORY]
      ensures Valid() && memory.View() == if op.RecordEvent? then Record(old(memory.View()), op.event, now) else Register(old(memory.View()), op.sub, now)
      ensures breakers[MEMORY].View() == Breaking.Closing(old(breakers[MEMORY].View()))
    {
      hide Wired, Record, Register;
      match op {
        case RecordEvent(_, e) => memory.RecordMeteringEvent(e, now);
        case RegisterSub(sub) => memory.RegisterServiceSubscription(sub, now);
      }
      breakers[MEMORY].RecordSuccess();
    }

    lemma WiredNames(b: string)
      requires Valid()
      ensures b in NamesOf(backends) ==> b in breakers && (b != MEMORY ==> b in asyncChans)
    {
      NamesMember(backends);
    }

    /** What the i-th backend says when asked: memory its own statement; a slower one what
        it says if it is healthy and its breaker lets the query through.  `says` holds the
        answers of the healthy ones. */
    ghost function Reply(i: nat, says: map<string, Option<Statement>>, own: Option<Statement>, now: Instant): Option<Statement>
      requires Valid() && i < |backends|
      reads this, wal, breakers.Values
    {
      Turn(i);
      var b := backends[i].name;
      if i == 0 then own
      else if b in says && Breaking.Admits(breakers[b].View(), now) then says[b]
      else None
    }

    /** The backend's breaker has been consulted in one of the first n turns. */
    ghost predicate Asked(b: string, n: nat, says: map<string, Option<Statement>>)
      requires n <= |backends|
      reads this
    {
      (b == MEMORY || b in says) && exists j :: 0 <= j < n && backends[j].name == b
    }

    /** A query asks the backends in order and returns the first statement found, at
        position n: memory's own if it has the subscription, otherwise that of the first
        slower backend that is healthy, is let through and has one.  The breaker of that
        backend closes; those asked in vain before it are left without an outcome. */
    method GetServiceUsageStatement(tenant: string, service: string, zones: map<string, int>, at: Instant, says: map<string, Option<Statement>>, now: Instant)
      returns (r: Option<Statement>, ghost n: nat)
      requires Valid()
      modifies breakers.Values
      ensures Valid() && asyncChans == old(asyncChans) && wal.View() == old(wal.View()) && memory.View() == old(memory.View())
      ensures UsageStatement(memory.View(), tenant, service, zones, at).Some? ==> r == UsageStatement(memory.View(), tenant, service, zones, at)
      ensures n <= |backends| && (n == |backends| <==> r == None)
      ensures forall j :: 0 <= j < n ==> old(Reply(j, says, UsageStatement(memory.View(), tenant, service, zones, at), now)) == None
      ensures r.Some? ==> r == old(Reply(n, says, UsageStatement(memory.View(), tenant, service, zones, at), now))
      ensures forall b ::
                b in breakers ==> breakers[b].View() == if r.Some? && b == backends[n].name then Breaking.Closing(old(breakers[b].View()))
                                                        else if Asked(b, n, says) then Breaking.Consulted(old(breakers[b].View()), now)
                                                        else old(breakers[b].View())
    {
      hide Wired, UsageStatement, Breaking.Consulted, Breaking.Admits, Breaking.Closing;
      WiredParts();
      ghost var own := UsageStatement(memory.View(), tenant, service, zones, at);
      n := 0;
      var i := 0;
      while i < |backends|
        invariant n == i <= |backends| && Valid() && (i > 0 ==> own == None)
        invariant forall j :: 0 <= j < i ==> old(Reply(j, says, own, now)) == None
        invariant forall b ::
                    b in breakers ==> breakers[b].View() == if Asked(b, i, says) then Breaking.Consulted(old(breakers[b].View()), now) else old(breakers[b].View())
      {
        var b := backends[i];
        Turn(i);
        Apart(b.name);
        if b.priority == 0 {
          r := AskMemory(tenant, service, zones, at, now);
        } else {
          Known(b.name);
          AskedTwice(old(breakers[b.name].View()), now);
          r := AskSlower(b.name, says, now);
          if Asked(b.name, i, says) {
            ghost var j :| 0 <= j < i && backends[j].name == b.name;
            assert old(Reply(j, says, own, now)) == None;
            Turn(j);
            assert old(Reply(i, says, own, now)) == None;
            assert r == None;
          } else {
            assert b.name in says ==> breakers[b.name] == old(breakers[b.name]);
            assert r == old(Reply(i, says, own, now));
          }
        }
        if r.Some? {
          return;
        }
        i := i + 1;
        n := i;
      }
      return None, n;
    }

    /** Memory, whose breaker is closed and which is always healthy. */
    method AskMemory(tenant: string, service: string, zones: map<string, int>, at: Instant, now: Instant) returns (r: Option<Statement>)
      requires Valid()
      modifies breakers[MEMORY]
      ensures Valid() && r == UsageStatement(memory.View(), tenant, service, zones, at)
      ensures breakers[MEMORY].View() == if r.Some? then Breaking.Closing(old(breakers[MEMORY].View())) else Breaking.Consulted(old(breakers[MEMORY].View()), now)
    {
      hide Wired, UsageStatement;
      r := None;
      var admitted := Consult(MEMORY, now);
      if admitted {
        r := memory.GetServiceUsageStatement(tenant, service, zones, at);
        if r.Some? {
          RecordSuccessOf(MEMORY);
        }
      }
    }

    method AskSlower(b: string, says: map<string, Option<Statement>>, now: Instant) returns (r: Option<Statement>)
      requires Valid() && b in asyncChans && b in breakers
      modifies breakers[b]
      ensures Valid() && r == if b in says && Breaking.Admits(old(breakers[b].View()), now) then says[b] else None
      ensures breakers[b].View() ==
                if b !in says then old(breakers[b].View())
                else if r.Some? then Breaking.Closing(old(breakers[b].View()))
                else Breaking.Consulted(old(breakers[b].View()), now)
    {
      hide Wired;
      r := None;
      Known(b);
      var healthy := b in says;
      if !healthy {
        return;
      }
      var admitted := Consult(b, now);
      if admitted {
        r := says[b];
        if r.Some? {
          RecordSuccessOf(b);
        }
      }
    }

    method RecordSuccessOf(b: string)
      requires Valid() && b in breakers
      modifies breakers[b]
      ensures Valid() && breakers[b].View() == Breaking.Closing(old(breakers[b].View()))
    {
      hide Wired;
      breakers[b].RecordSuccess();
    }

    method RegisterInMemory(b: string, sub: Subscription, now: Instant)
      requires Valid() && b == MEMORY
      modifies breakers[b], memory
      ensures Valid() && memory.View() == Register(old(memory.View()), sub, now)
    {
      hide Wired;
      var admitted := breakers[b].Allow(now);
      if admitted {
        memory.RegisterServiceSubscription(sub, now);
        breakers[b].RecordSuccess();
      }
    }

    /** One backend's turn in a registration. */
    method RegisterAt(i: nat, sub: Subscription, size: nat, now: Instant) returns (ok: bool)
      requires Valid() && i < |backends| && backends[i].name in breakers
      modifies `stores, `writes, breakers[backends[i].name], wal, memory
      ensures Valid() && memory.View() == if i == 0 then Register(old(memory.View()), sub, now) else old(memory.View())
      ensures writes == if i > 0 && Breaking.Admits(old(breakers[backends[i].name].View()), now) then old(writes) + [(backends[i].name, RegisterSub(sub), ok)] else old(writes)
      ensures i > 0 ==> Settled(stores, wal.View(), backends[i].name, RegisterSub(sub))
      ensures View().breakers == old(View()).breakers[backends[i].name := breakers[backends[i].name].View()]
      ensures i > 0 && !Breaking.Admits(old(breakers[backends[i].name].View()), now) ==> View().breakers == old(View()).breakers
      ensures Progressed(old(stores), old(wal.View()), stores, wal.View())
      ensures !ok ==> i > 0 && Breaking.Admits(old(breakers[backends[i].name].View()), now) && wal.View().Holds(Entry(backends[i].name, RegisterSub(sub)))
    {
      hide Wired, Register, Settled, Progressed, Log.Holds, Breaking.Failing, Breaking.Admits, Breaking.Consulted, Breaking.Closing;
      var b := backends[i];
      Turn(i);
      Apart(b.name);
      ok := true;
      if b.priority == 0 {
        RegisterInMemory(b.name, sub, now);
        NothingToSettle(stores, wal.View(), MEMORY);
      } else {
        ok := Deliver(b.name, RegisterSub(sub), size, now);
      }
    }

    lemma Seen(b: string)
      requires b in breakers
      ensures b in View().breakers && View().breakers[b] == breakers[b].View()
    {
    }

    /** Registers a subscription with every backend in turn: memory has it, and every
        slower backend has it or the log keeps it under the backend's name; those whose
        breaker lets the write through are written to, and no others; the error is that of
        the first backend whose write failed, if any did. */
    method RegisterServiceSubscription(sub: Subscription, size: nat, now: Instant) returns (firstErr: Option<string>)
      requires Valid()
      modifies `stores, `writes, breakers.Values, wal, memory
      ensures old(writes) <= writes && IsFirstFailure(firstErr, writes[|old(writes)|..])
      ensures forall w :: w in writes[|old(writes)|..] ==> w.1 == RegisterSub(sub)
      ensures forall i :: 1 <= i < |backends| ==> (backends[i].name in Called(writes[|old(writes)|..]) <==> backends[i].name in LettingThrough(old(View()).breakers, now))
      ensures Valid() && memory.View() == Register(old(memory.View()), sub, now)
      ensures forall i :: 1 <= i < |backends| ==> Settled(stores, wal.View(), backends[i].name, RegisterSub(sub))
      ensures Progressed(old(stores), old(wal.View()), stores, wal.View())
      ensures firstErr.Some? ==> wal.View().Holds(Entry(firstErr.value, RegisterSub(sub)))
    {
      hide Wired, Register, Registering, IsFirstFailure, Settled, Called, Progressed, Log.Holds, Breaking.Admits, View, LettingThrough;
      firstErr := None;
      WiredParts();
      ghost var calls, op, f0 := [], RegisterSub(sub), View().breakers;
      Suffix(writes, []);
      NothingRegistered(op, stores, wal.View(), f0, backends, now);
      var i := 0;
      while i < |backends|
        invariant i <= |backends| && Valid() && writes == old(writes) + calls
        invariant memory.View() == if i == 0 then old(memory.View()) else Register(old(memory.View()), sub, now)
        invariant Registering(calls, op, firstErr, old(stores), old(wal.View()), stores, wal.View(), f0, View().breakers, backends, i, now)
      {
        var b := backends[i];
        ghost var s0, l0, f := stores, wal.View(), View().breakers;
        Turn(i);
        Seen(b.name);
        var ok := RegisterAt(i, sub, size, now);
        RegisteredNext(calls, op, firstErr, old(stores), old(wal.View()), s0, l0, stores, wal.View(), f0, f, View().breakers, backends, i, now, b.name, ok);
        Joined(old(writes), calls, (b.name, op, ok));
        if i > 0 && Breaking.Admits(f[b.name], now) {
          calls := calls + [(b.name, op, ok)];
        }
        if !ok && firstErr == None {
          firstErr := Some(b.name);
        }
        i := i + 1;
      }
      Suffix(old(writes), calls);
      AllRegistered(calls, op, firstErr, old(stores), old(wal.View()), stores, wal.View(), f0, View().breakers, backends, now);
    }
  }

  lemma RefusedStays(b: Breaking.Breaker, now: Instant)
    ensures !Breaking.Admits(b, now) ==> Breaking.Consulted(b, now) == b
    ensures Breaking.Admits(Breaking.Closing(b), now)
  {
  }

  /** A second consultation changes nothing and lets through no more than the first. */
  lemma AskedTwice(b: Breaking.Breaker, now: Instant)
    ensures var c := Breaking.Consulted(b, now);
            && Breaking.Consulted(c, now) == c && Breaking.Closing(c) == Breaking.Closing(b)
            && (Breaking.Admits(c, now) ==> Breaking.Admits(b, now))
  {
  }

  /** The backend of the first write that reported an error. */
  ghost function FirstFailure(calls: seq<(string, Op, bool)>): Option<string> {
    if calls == [] then None
    else if !calls[0].2 then Some(calls[0].0)
    else FirstFailure(calls[1..])
  }

  /** The error is that of the first of the writes that reported one, if any did. */
  ghost predicate IsFirstFailure(err: Option<string>, calls: seq<(string, Op, bool)>) {
    match err
    case None => forall i :: 0 <= i < |calls| ==> calls[i].2
    case Some(b) => exists i :: 0 <= i < |calls| && !calls[i].2 && calls[i].0 == b && forall j :: 0 <= j < i ==> calls[j].2
  }

  lemma {:induction false} FirstFailureIs(calls: seq<(string, Op, bool)>)
    ensures IsFirstFailure(FirstFailure(calls), calls)
    decreases |calls|
  {
    if calls != [] && calls[0].2 {
      FirstFailureIs(calls[1..]);
      assert forall j :: 1 <= j < |calls| ==> calls[j] == calls[1..][j - 1];
      if FirstFailure(calls).Some? {
        var i :| 0 <= i < |calls| - 1 && !calls[1..][i].2 && calls[1..][i].0 == FirstFailure(calls).value && forall j :: 0 <= j < i ==> calls[1..][j].2;
        assert !calls[i + 1].2;
      }
    }
  }

  /** What a registration has written so far: this operation only, with the first failure
      as its error and that write in the log. */
  ghost predicate Tracked(calls: seq<(string, Op, bool)>, op: Op, err: Option<string>, log: Log<Entry>) {
    && err == FirstFailure(calls) && (forall w :: w in calls ==> w.1 == op)
    && (err.Some? ==> log.Holds(Entry(err.value, op)))
  }

  lemma NothingTracked(op: Op, log: Log<Entry>)
    ensures Tracked([], op, None, log)
  {
  }

  lemma TrackedNext(calls: seq<(string, Op, bool)>, err: Option<string>, log: Log<Entry>, stores': map<string, seq<Op>>, stores: map<string, seq<Op>>,
                    log': Log<Entry>, call: (string, Op, bool))
    requires Tracked(calls, call.1, err, log) && Progressed(stores, log, stores', log')
    requires !call.2 ==> log'.Holds(Entry(call.0, call.1))
    ensures call.2 ==> Tracked(calls, call.1, err, log')
    ensures Tracked(calls + [call], call.1, if !call.2 && err == None then Some(call.0) else err, log')
  {
    hide Log.Holds, FirstFailure;
    FailureAppended(calls, call);
    EntriesStay(stores, log, stores', log');
  }

  lemma TrackedMeans(calls: seq<(string, Op, bool)>, op: Op, err: Option<string>, log: Log<Entry>)
    requires Tracked(calls, op, err, log)
    ensures IsFirstFailure(err, calls) && (forall w :: w in calls ==> w.1 == op)
    ensures err.Some? ==> log.Holds(Entry(err.value, op))
  {
    FirstFailureIs(calls);
  }

  lemma {:induction false} FailureAppended(calls: seq<(string, Op, bool)>, call: (string, Op, bool))
    ensures FirstFailure(calls + [call])
            == if FirstFailure(calls).Some? then FirstFailure(calls) else if call.2 then None else Some(call.0)
    decreases |calls|
  {
    if calls == [] {
      assert ([call])[1..] == [];
    } else {
      assert (calls + [call])[1..] == calls[1..] + [call];
      FailureAppended(calls[1..], call);
    }
  }

  /** The operation is stored by the backend or in the log under its name. */
  ghost predicate Settled(stores: map<string, seq<Op>>, log: Log<Entry>, b: string, op: Op) {
    (b in stores && op in stores[b]) || log.Holds(Entry(b, op))
  }

  /** The backend has taken these operations, in order, and the others nothing. */
  ghost predicate Took(stores: map<string, seq<Op>>, b: string, ops: seq<Op>, stores': map<string, seq<Op>>) {
    b in stores && stores' == stores[b := stores[b] + ops]
  }

  lemma TookNothing(stores: map<string, seq<Op>>, b: string)
    requires b in stores
    ensures Took(stores, b, [], stores)
  {
    assert stores[b] + [] == stores[b];
  }

  lemma TookOneMore(s0: map<string, seq<Op>>, s1: map<string, seq<Op>>, s2: map<string, seq<Op>>, b: string, ops: seq<Op>, op: Op)
    requires Took(s0, b, ops, s1) && Took(s1, b, [op], s2)
    ensures Took(s0, b, ops + [op], s2)
  {
    assert s0[b] + ops + [op] == s0[b] + (ops + [op]);
  }

  lemma Suffix<T>(s: seq<T>, t: seq<T>)
    ensures s <= s + t && (s + t)[|s|..] == t && s + [] == s
  {
  }

  lemma Joined<T>(s: seq<T>, t: seq<T>, x: T)
    ensures s + t + [x] == s + (t + [x])
  {
  }

  lemma OneMoreWrite(writes: seq<(string, Op, bool)>, n: nat, w: (string, Op, bool))
    requires n <= |writes|
    ensures w in (writes + [w])[n..] && forall v :: v in writes[n..] ==> v in (writes + [w])[n..]
  {
    assert (writes + [w])[n..] == writes[n..] + [w];
  }

  /** The backends whose breaker would let a write through. */
  function LettingThrough(f: map<string, Breaking.Breaker>, now: Instant): set<string> {
    set b | b in f && Breaking.Admits(f[b], now)
  }

  /** The backends written to. */
  ghost function Called(calls: seq<(string, Op, bool)>): set<string> {
    set w | w in calls :: w.0
  }

  lemma OneMoreCalled(calls: seq<(string, Op, bool)>, call: (string, Op, bool))
    ensures Called([]) == {} && Called(calls + [call]) == Called(calls) + {call.0}
  {
    assert call in calls + [call];
    forall w | w in calls
      ensures w.0 in Called(calls + [call])
    {
      assert w in calls + [call];
    }
  }

  /** Of the slower backends before the i-th those were written to that let it through at
      first; the breakers of the others are as they were. */
  ghost predicate CalledRight(calls: seq<(string, Op, bool)>, f0: map<string, Breaking.Breaker>, f: map<string, Breaking.Breaker>, backends: seq<Backend>, i: nat, now: Instant)
    requires i <= |backends|
  {
    && f.Keys == f0.Keys && Called(calls) <= LettingThrough(f0, now)
    && (forall b :: b in f0 && b != MEMORY && b !in Called(calls) ==> b in f && f[b] == f0[b])
    && (forall k :: 1 <= k < i && backends[k].name in LettingThrough(f0, now) ==> backends[k].name in Called(calls))
  }

  lemma NoneCalled(f: map<string, Breaking.Breaker>, backends: seq<Backend>, now: Instant)
    ensures CalledRight([], f, f, backends, 0, now)
  {
  }

  lemma CalledNext(calls: seq<(string, Op, bool)>, f0: map<string, Breaking.Breaker>, f: map<string, Breaking.Breaker>, f': map<string, Breaking.Breaker>,
                   backends: seq<Backend>, i: nat, now: Instant, call: (string, Op, bool))
    requires i < |backends| && CalledRight(calls, f0, f, backends, i, now)
    requires call.0 == backends[i].name && call.0 in f && call.0 in f' && f' == f[call.0 := f'[call.0]]
    requires if i == 0 then call.0 == MEMORY else call.0 != MEMORY
    requires i > 0 && !Breaking.Admits(f[call.0], now) ==> f' == f
    ensures i > 0 && Breaking.Admits(f[call.0], now) ==> CalledRight(calls + [call], f0, f', backends, i + 1, now)
    ensures i == 0 || !Breaking.Admits(f[call.0], now) ==> CalledRight(calls, f0, f', backends, i + 1, now)
  {
    OneMoreCalled(calls, call);
    hide Called, Breaking.Admits;
  }

  lemma CalledMeans(calls: seq<(string, Op, bool)>, f0: map<string, Breaking.Breaker>, f: map<string, Breaking.Breaker>, backends: seq<Backend>, now: Instant)
    requires CalledRight(calls, f0, f, backends, |backends|, now)
    ensures forall i :: 1 <= i < |backends| ==> (backends[i].name in Called(calls) <==> backends[i].name in LettingThrough(f0, now))
  {
    hide Called, Breaking.Admits;
  }

  /** A registration has had its turn with the backends before the i-th. */
  ghost predicate Registering(calls: seq<(string, Op, bool)>, op: Op, err: Option<string>,
                              stores0: map<string, seq<Op>>, log0: Log<Entry>, stores: map<string, seq<Op>>, log: Log<Entry>,
                              f0: map<string, Breaking.Breaker>, f: map<string, Breaking.Breaker>, backends: seq<Backend>, i: nat, now: Instant)
    requires i <= |backends|
  {
    && Tracked(calls, op, err, log) && CalledRight(calls, f0, f, backends, i, now)
    && SettledBefore(stores, log, backends, i, op) && Progressed(stores0, log0, stores, log)
  }

  lemma NothingRegistered(op: Op, stores: map<string, seq<Op>>, log: Log<Entry>, f: map<string, Breaking.Breaker>, backends: seq<Backend>, now: Instant)
    ensures Registering([], op, None, stores, log, stores, log, f, f, backends, 0, now)
  {
    NothingTracked(op, log);
    NoneCalled(f, backends, now);
    NoneBefore(stores, log, backends, op);
    NothingToSettle(stores, log, MEMORY);
  }

  lemma RegisteredNext(calls: seq<(string, Op, bool)>, op: Op, err: Option<string>,
                       stores0: map<string, seq<Op>>, log0: Log<Entry>, stores: map<string, seq<Op>>, log: Log<Entry>, stores': map<string, seq<Op>>, log': Log<Entry>,
                       f0: map<string, Breaking.Breaker>, f: map<string, Breaking.Breaker>, f': map<string, Breaking.Breaker>,
                       backends: seq<Backend>, i: nat, now: Instant, b: string, ok: bool)
    requires i < |backends| && Registering(calls, op, err, stores0, log0, stores, log, f0, f, backends, i, now)
    requires b == backends[i].name && b in f && b in f' && f' == f[b := f'[b]] && (if i == 0 then b == MEMORY else b != MEMORY)
    requires i > 0 && !Breaking.Admits(f[b], now) ==> f' == f
    requires Progressed(stores, log, stores', log') && (i > 0 ==> Settled(stores', log', b, op))
    requires !ok ==> i > 0 && Breaking.Admits(f[b], now) && log'.Holds(Entry(b, op))
    ensures Registering(if i > 0 && Breaking.Admits(f[b], now) then calls + [(b, op, ok)] else calls, op,
                        if !ok && err == None then Some(b) else err, stores0, log0, stores', log', f0, f', backends, i + 1, now)
  {
    hide Tracked, CalledRight, SettledBefore, Progressed, Settled, Log.Holds, Breaking.Admits;
    TrackedNext(calls, err, log, stores', stores, log', (b, op, ok));
    CalledNext(calls, f0, f, f', backends, i, now, (b, op, ok));
    ProgressedTransitive(stores0, log0, stores, log, stores', log');
    OneMoreBefore(stores, log, stores', log', backends, i, op);
  }

  lemma AllRegistered(calls: seq<(string, Op, bool)>, op: Op, err: Option<string>,
                      stores0: map<string, seq<Op>>, log0: Log<Entry>, stores: map<string, seq<Op>>, log: Log<Entry>,
                      f0: map<string, Breaking.Breaker>, f: map<string, Breaking.Breaker>, backends: seq<Backend>, now: Instant)
    requires Registering(calls, op, err, stores0, log0, stores, log, f0, f, backends, |backends|, now)
    ensures IsFirstFailure(err, calls) && (forall w :: w in calls ==> w.1 == op) && (err.Some? ==> log.Holds(Entry(err.value, op)))
    ensures forall i :: 1 <= i < |backends| ==> Settled(stores, log, backends[i].name, op)
    ensures forall i :: 1 <= i < |backends| ==> (backends[i].name in Called(calls) <==> backends[i].name in LettingThrough(f0, now))
    ensures Progressed(stores0, log0, stores, log)
  {
    hide Tracked, CalledRight, SettledBefore, Progressed, IsFirstFailure, Log.Holds, Breaking.Admits, Called, LettingThrough;
    TrackedMeans(calls, op, err, log);
    CalledMeans(calls, f0, f, backends, now);
    AllBefore(stores, log, backends, op);
  }

  /** The operation is settled for every slower backend before the i-th. */
  ghost predicate SettledBefore(stores: map<string, seq<Op>>, log: Log<Entry>, backends: seq<Backend>, i: nat, op: Op)
    requires i <= |backends|
  {
    forall j :: 1 <= j < i ==> Settled(stores, log, backends[j].name, op)
  }

  lemma NoneBefore(stores: map<string, seq<Op>>, log: Log<Entry>, backends: seq<Backend>, op: Op)
    ensures SettledBefore(stores, log, backends, 0, op) && Called([]) == {}
  {
  }

  lemma AllBefore(stores: map<string, seq<Op>>, log: Log<Entry>, backends: seq<Backend>, op: Op)
    requires SettledBefore(stores, log, backends, |backends|, op)
    ensures forall i :: 1 <= i < |backends| ==> Settled(stores, log, backends[i].name, op)
  {
  }

  lemma OneMoreBefore(stores: map<string, seq<Op>>, log: Log<Entry>, stores': map<string, seq<Op>>, log': Log<Entry>, backends: seq<Backend>, i: nat, op: Op)
    requires i < |backends| && SettledBefore(stores, log, backends, i, op) && Progressed(stores, log, stores', log')
    requires i > 0 ==> Settled(stores', log', backends[i].name, op)
    ensures SettledBefore(stores', log', backends, i + 1, op)
  {
    forall j | 1 <= j < i
      ensures Settled(stores', log', backends[j].name, op)
    {
      StaysSettled(stores, log, stores', log', backends[j].name, op);
    }
  }

  ghost predicate Progressed(stores: map<string, seq<Op>>, log: Log<Entry>, stores': map<string, seq<Op>>, log': Log<Entry>) {
    && stores'.Keys == stores.Keys
    && (forall b :: b in stores ==> stores[b] <= stores'[b])
    && (forall e :: log.Holds(e) ==> log'.Holds(e))
  }

  ghost predicate AllSettled(stores: map<string, seq<Op>>, log: Log<Entry>, b: string, ops: seq<Op>) {
    forall op :: op in ops ==> Settled(stores, log, b, op)
  }

  lemma ProgressedTransitive(s0: map<string, seq<Op>>, l0: Log<Entry>, s1: map<string, seq<Op>>, l1: Log<Entry>, s2: map<string, seq<Op>>, l2: Log<Entry>)
    requires Progressed(s0, l0, s1, l1) && Progressed(s1, l1, s2, l2)
    ensures Progressed(s0, l0, s2, l2)
  {
  }

  lemma StaysSettled(stores: map<string, seq<Op>>, log: Log<Entry>, stores': map<string, seq<Op>>, log': Log<Entry>, b: string, op: Op)
    requires Progressed(stores, log, stores', log') && Settled(stores, log, b, op)
    ensures Settled(stores', log', b, op)
  {
    if b in stores && op in stores[b] {
      InPrefix(op, stores[b], stores'[b]);
    }
  }

  lemma EntriesStay(stores: map<string, seq<Op>>, log: Log<Entry>, stores': map<string, seq<Op>>, log': Log<Entry>)
    requires Progressed(stores, log, stores', log')
    ensures forall e :: log.Holds(e) ==> log'.Holds(e)
  {
  }

  lemma NothingToSettle(stores: map<string, seq<Op>>, log: Log<Entry>, b: string)
    ensures AllSettled(stores, log, b, []) && Progressed(stores, log, stores, log)
  {
  }

  lemma OneMoreSettled(stores: map<string, seq<Op>>, log: Log<Entry>, stores': map<string, seq<Op>>, log': Log<Entry>, b: string, ops: seq<Op>, op: Op)
    requires Progressed(stores, log, stores', log') && AllSettled(stores, log, b, ops) && Settled(stores', log', b, op)
    ensures AllSettled(stores', log', b, ops + [op])
  {
    forall x | x in ops
      ensures Settled(stores', log', b, x)
    {
      StaysSettled(stores, log, stores', log', b, x);
    }
  }

  lemma FanOutUnfolds(f: Fabric, capacity: nat, op: Op, todo: seq<string>, size: nat, now: Instant)
    requires forall b :: b in todo ==> f.Reaches(b)
    ensures todo == [] ==> FanOut(f, capacity, op, todo, size, now) == f
    ensures todo != [] ==>
              && (forall b :: b in todo[1..] ==> FanOutOne(f, capacity, op, todo[0], size, now).Reaches(b))
              && FanOut(f, capacity, op, todo, size, now)
                 == FanOut(FanOutOne(f, capacity, op, todo[0], size, now), capacity, op, todo[1..], size, now)
  {
  }

  lemma {:induction false} NamesMember(backends: seq<Backend>)
    ensures forall b :: b in NamesOf(backends) <==> exists i :: 0 <= i < |backends| && backends[i].name == b
  {
    if backends != [] {
      NamesMember(backends[1..]);
      forall b | exists i :: 0 <= i < |backends| && backends[i].name == b
        ensures b in NamesOf(backends)
      {
        var i :| 0 <= i < |backends| && backends[i].name == b;
        if i > 0 { assert backends[1..][i - 1].name == b; }
      }
    }
  }

  lemma InsertOrdered(backends: seq<Backend>, i: nat, b: Backend)
    requires i <= |backends| && Ordered(backends)
    requires i > 0 ==> backends[i - 1].priority <= b.priority
    requires forall j :: i <= j < |backends| ==> b.priority < backends[j].priority
    ensures Ordered(backends[..i] + [b] + backends[i..])
    ensures multiset(backends[..i] + [b] + backends[i..]) == multiset(backends) + multiset{b}
  {
    hide Ordered;
    var l := backends[..i] + [b] + backends[i..];
    assert backends == backends[..i] + backends[i..];
    InsertedOrdered(backends, i, b, l);
  }

  lemma InsertedOrdered(backends: seq<Backend>, i: nat, b: Backend, l: seq<Backend>)
    requires i <= |backends| && Ordered(backends) && |l| == |backends| + 1
    requires forall j {:trigger l[j]} :: 0 <= j < |l| ==> l[j] == (if j < i then backends[j] else if j == i then b else backends[j - 1])
    requires i > 0 ==> backends[i - 1].priority <= b.priority
    requires i < |backends| ==> b.priority <= backends[i].priority
    ensures Ordered(l)
  {
    forall j, k | 0 <= j < k < |l|
      ensures l[j].priority <= l[k].priority
    {
      var j', k' := if j < i then j else j - 1, if k < i then k else k - 1;
      assert j < i - 1 ==> backends[j].priority <= backends[i - 1].priority;
      assert i < k - 1 ==> backends[i].priority <= backends[k - 1].priority;
      if j != i && k != i {
        assert l[j] == backends[j'] && l[k] == backends[k'];
      }
    }
  }
}
