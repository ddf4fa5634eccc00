/**
 What the metering machine's invariant means: no accepted event is lost, memory's
 answers do not depend on the slower backends, and memory takes each accepted event
 once.
 */
module MeteringResults {
  import opened Prelude
  import opened Calendar
  import opened MeteringMemory
  import opened MeteringMachine
  import opened MeteringSafety
  import Breaking = CircuitBreaker

  // ---- no accepted event is lost ----

  /** Nothing but accepted events is in a backend, each as it was accepted. */
  ghost predicate OnlyAccepted(ops: seq<Op>, accepted: seq<Event>) {
    forall op :: op in ops && op.RecordEvent? ==> op.ticket < |accepted| && accepted[op.ticket] == op.event
  }

  /** In every state of every run, for every asynchronous backend: each accepted event
      is being carried to it, in its channel, in the log for it or stored in it; nothing
      is stored in it that was not accepted; its channel is within capacity. */
  lemma NoAcceptedEventIsLost(ss: seq<State>, acts: seq<Action>, i: nat, b: string)
    requires Run(ss, acts) && i < |ss|
    requires b in ss[0].config.names
    ensures var s := ss[i];
            && (forall n: nat {:trigger EventOp(s, n)} :: n < |s.accepted| ==> Located(s, b, EventOp(s, n)))
            && b in s.queues && |s.queues[b]| <= s.config.capacity
            && b in s.applied && OnlyAccepted(s.applied[b], s.accepted)
  {
    hide Located, WrittenOk, Run;
    ReachableInv(ss, acts, i);
    BackendState(ss[i], b);
  }

  lemma BackendState(s: State, b: string)
    requires Inv(s) && b in s.config.names
    ensures forall n: nat {:trigger EventOp(s, n)} :: n < |s.accepted| ==> Located(s, b, EventOp(s, n))
    ensures b in s.queues && |s.queues[b]| <= s.config.capacity
    ensures b in s.applied && OnlyAccepted(s.applied[b], s.accepted)
  {
    hide Located, WrittenOk, TasksOk, LogOk, ReplayOk, BreakersOk, ReportsOk, ConfigOk;
    forall op | op in s.applied[b] && op.RecordEvent?
      ensures op.ticket < |s.accepted| && s.accepted[op.ticket] == op.event
    {
      assert Genuine(s.accepted, op);
    }
  }

  /** Nobody still has to deal with the backend, and its channel is empty. */
  ghost predicate Quiet(s: State, b: string) {
    (forall o :: o in s.tasks ==> b !in s.tasks[o].todo) && (b in s.queues ==> s.queues[b] == [])
  }

  /** The log has no event for the backend that it has not taken. */
  ghost predicate Replayed(s: State, b: string) {
    forall op: Op :: op.RecordEvent? && s.log.Holds(Entry(b, op)) ==> AppliedEntry(s.applied, Entry(b, op))
  }

  /** A quiet backend has every accepted event exactly when every event logged for it has
      been replayed, whatever was refused, overflowed or failed before. */
  lemma QuietHasAllIff(s: State, b: string)
    requires Inv(s) && b in s.config.names && Quiet(s, b)
    ensures b in s.applied && ((forall n: nat :: n < |s.accepted| ==> EventOp(s, n) in s.applied[b]) <==> Replayed(s, b))
    ensures forall n: nat :: n < |s.accepted| ==> n in s.written
  {
    BackendState(s, b);
    MemoryHasTheRest(s, b);
    if Replayed(s, b) {
      forall n: nat | n < |s.accepted|
        ensures EventOp(s, n) in s.applied[b]
      {
        assert Located(s, b, EventOp(s, n));
      }
    }
    LoggedAreAccepted(s, b);
  }

  /** Nobody bringing an event to memory is quiet about any backend. */
  lemma MemoryHasTheRest(s: State, b: string)
    requires Inv(s) && b in s.config.names && Quiet(s, b)
    ensures forall n: nat :: n < |s.accepted| ==> n in s.written
    ensures forall o :: o in s.tasks ==> !s.tasks[o].stage.AtMemory?
  {
    hide Shaped, NothingLost;
  }

  lemma LoggedAreAccepted(s: State, b: string)
    requires Inv(s)
    ensures forall op: Op :: op.RecordEvent? && s.log.Holds(Entry(b, op)) ==> op.ticket < |s.accepted| && op == EventOp(s, op.ticket)
  {
    hide WrittenOk, NothingLost;
    forall op: Op | op.RecordEvent? && s.log.Holds(Entry(b, op))
      ensures op.ticket < |s.accepted| && op == EventOp(s, op.ticket)
    {
      var k: nat, i: nat :| s.log.At(k, i, Entry(b, op));
      assert EntryOk(s.config.names, s.accepted, s.log.segments[k][i]);
    }
  }

  // ---- what memory holds ----

  ghost function AsStored(accepted: seq<Event>, tickets: seq<nat>, at: seq<Instant>): seq<Event>
    requires |tickets| == |at| && Below(tickets, |accepted|)
  {
    seq(|tickets|, i requires 0 <= i < |tickets| => Stamped(accepted[tickets[i]], at[i]))
  }

  function OfTenant(events: seq<Event>, tenant: string): seq<Event> {
    if events == [] then []
    else
      var n := |events| - 1;
      OfTenant(events[..n], tenant) + if events[n].tenantKey == tenant then [events[n]] else []
  }

  /** Memory holds, per tenant, the accepted events that reached it, in that order. */
  ghost predicate MemoryOk(s: State)
    requires Inv(s)
  {
    forall tenant :: tenant != "" ==>
      EventsOf(s.memory, tenant) == OfTenant(AsStored(s.accepted, s.written, s.writtenAt), tenant)
  }

  /** What a step leaves alone. */
  lemma StepFrame(s: State, a: Action)
    requires Inv(s) && Enabled(s, a)
    ensures var s' := Next(s, a);
            && s'.config == s.config
            && (!a.Submit? ==> s'.accepted == s.accepted && s'.acceptedAt == s.acceptedAt)
            && (!a.Submit? && !a.Prune? ==> s'.seen == s.seen)
            && (!a.Tick? ==> s'.clock == s.clock)
            && (!a.WriteMemory? ==> s'.written == s.written && s'.writtenAt == s.writtenAt)
            && (!a.WriteMemory? ==> s'.memory.events == s.memory.events)
  {
    hide Shaped, WrittenOk, NothingLost, Moved, Done, Consulted, Sent, WrittenToBackend, Reported, Logged, Taken,
         NextLine, ReplayConsulted, ReplayWritten, ReplayReported, SegmentClosed, Record, Register;
  }

  lemma MemoryStep(s: State, a: Action)
    requires Inv(s) && Enabled(s, a) && MemoryOk(s)
    ensures Inv(Next(s, a)) && MemoryOk(Next(s, a))
  {
    hide Inv, Next, MemoryOk;
    if a.WriteMemory? {
      WriteMemoryStored(s, a.owner);
    } else {
      ElsewhereStored(s, a);
    }
  }

  lemma ElsewhereStored(s: State, a: Action)
    requires Inv(s) && Enabled(s, a) && MemoryOk(s) && !a.WriteMemory?
    ensures Inv(Next(s, a)) && MemoryOk(Next(s, a))
  {
    StepKeepsInv(s, a);
    StepFrame(s, a);
    SubmitExtends(s, a);
    hide Inv, Next, Enabled;
    var s' := Next(s, a);
    assert AsStored(s'.accepted, s'.written, s'.writtenAt) == AsStored(s.accepted, s.written, s.writtenAt);
  }

  lemma SubmitExtends(s: State, a: Action)
    requires Inv(s) && Enabled(s, a)
    ensures s.accepted <= Next(s, a).accepted
    ensures Below(s.written, |s.accepted|)
  {
    StepFrame(s, a);
    hide Shaped, NothingLost;
  }

  lemma StoredOneMore(accepted: seq<Event>, tickets: seq<nat>, at: seq<Instant>, ticket: nat, now: Instant)
    requires |tickets| == |at| && Below(tickets, |accepted|) && ticket < |accepted|
    ensures Below(tickets + [ticket], |accepted|)
    ensures AsStored(accepted, tickets + [ticket], at + [now]) ==
            AsStored(accepted, tickets, at) + [Stamped(accepted[ticket], now)]
  {
  }

  lemma RecordOfTenant(m: Store, held: seq<Event>, e: Event, now: Instant, tenant: string)
    requires tenant != "" && EventsOf(m, tenant) == OfTenant(held, tenant)
    ensures EventsOf(Record(m, e, now), tenant) == OfTenant(held + [Stamped(e, now)], tenant)
  {
    var after := held + [Stamped(e, now)];
    assert after[..|after| - 1] == held;
  }

  lemma WriteMemoryStored(s: State, o: Owner)
    requires Inv(s) && At(s, o, AtMemory) && MemoryOk(s)
    ensures Inv(Next(s, WriteMemory(o))) && MemoryOk(Next(s, WriteMemory(o)))
  {
    WriteMemoryOnce(s, o);
    SubmitExtends(s, WriteMemory(o));
    SameLength(s);
    TicketEvent(s, o);
    StepKeepsInv(s, WriteMemory(o));
    hide Inv, Shaped, WrittenOk, NothingLost, AsStored, Record;
    var e := s.tasks[o].op.event;
    StoredOneMore(s.accepted, s.written, s.writtenAt, s.tasks[o].op.ticket, s.clock);
    forall tenant | tenant != ""
      ensures EventsOf(Record(s.memory, e, s.clock), tenant)
              == OfTenant(AsStored(s.accepted, s.written, s.writtenAt) + [Stamped(e, s.clock)], tenant)
    {
      RecordOfTenant(s.memory, AsStored(s.accepted, s.written, s.writtenAt), e, s.clock, tenant);
    }
    hide EventsOf, OfTenant, Stamped;
  }

  lemma TicketEvent(s: State, o: Owner)
    requires Inv(s) && At(s, o, AtMemory)
    ensures s.tasks[o].op.RecordEvent? && s.tasks[o].op.ticket < |s.accepted|
    ensures s.accepted[s.tasks[o].op.ticket] == s.tasks[o].op.event
  {
    WriteMemoryOnce(s, o);
    TasksGenuine(s);
  }

  lemma {:induction false} ReachableMemory(ss: seq<State>, acts: seq<Action>, n: nat)
    requires Run(ss, acts) && n < |ss|
    ensures Inv(ss[n]) && MemoryOk(ss[n])
  {
    hide Inv, Next, Enabled, MemoryOk;
    ReachableInv(ss, acts, n);
    if n == 0 {
      StartMemory(ss[0]);
    } else {
      ReachableMemory(ss, acts, n - 1);
      RunStep(ss, acts, n - 1);
      MemoryStep(ss[n - 1], acts[n - 1]);
    }
  }

  lemma StartMemory(s: State)
    requires IsStart(s) && Inv(s)
    ensures MemoryOk(s)
  {
    hide Inv;
  }

  // ---- answers ----

  /** The cascade of GetServiceUsageStatement: memory is always healthy, so it answers
      whenever its breaker lets the read through and it knows the subscription; only
      otherwise does the answer come from the slower backends. */
  function Answer(s: State, slower: Option<Statement>, tenant: string, service: string, zones: map<string, int>, at: Instant): Option<Statement>
    requires MEMORY in s.breakers
  {
    var first := if Breaking.Admits(s.breakers[MEMORY], s.clock) then UsageStatement(s.memory, tenant, service, zones, at) else None;
    if first.Some? then first else slower
  }

  /** A subscription once written to memory is there for good. */
  lemma SubscribedStays(s: State, a: Action, tenant: string, service: string)
    requires Inv(s) && Enabled(s, a)
    requires Subscribed(s.memory, tenant, service).Some?
    ensures Subscribed(Next(s, a).memory, tenant, service).Some?
  {
    if a.Write? {
      hide Next, Shaped, WrittenOk, NothingLost;
      WriteSubscribes(s, a.owner, a.ok, a.stored, tenant, service);
    } else {
      SubscriptionsStay(s, a);
      hide Next, Shaped, WrittenOk, NothingLost;
    }
  }

  lemma SubscriptionsStay(s: State, a: Action)
    requires Inv(s) && Enabled(s, a) && !a.Write?
    ensures Next(s, a).memory.subscriptions == s.memory.subscriptions
  {
    hide Shaped, WrittenOk, NothingLost, CoreOf, SameWaiting, Moved, Done, Consulted, Sent, WrittenToMemory, Reported, Logged,
         Taken, NextLine, ReplayConsulted, ReplayWritten, ReplayReported, SegmentClosed;
  }

  lemma WriteSubscribes(s: State, o: Owner, ok: bool, stored: bool, tenant: string, service: string)
    requires Inv(s) && Enabled(s, Write(o, ok, stored))
    ensures Subscribed(s.memory, tenant, service).Some? ==>
              Subscribed(Next(s, Write(o, ok, stored)).memory, tenant, service).Some?
    ensures s.tasks[o].op.RegisterSub? && s.tasks[o].todo[0] == MEMORY && tenant != "" && service != ""
            && s.tasks[o].op.sub.tenantKey == tenant && s.tasks[o].op.sub.serviceId == service ==>
              Subscribed(Next(s, Write(o, ok, stored)).memory, tenant, service)
              == Some(WithDefaults(s.tasks[o].op.sub, s.clock))
  {
    TodoNonEmpty(s, o);
    hide Shaped, WrittenOk, NothingLost, WithDefaults;
  }

  lemma {:induction false} SubscribedLater(ss: seq<State>, acts: seq<Action>, i: nat, n: nat, tenant: string, service: string)
    requires Run(ss, acts) && i <= n < |ss|
    requires Subscribed(ss[i].memory, tenant, service).Some?
    ensures Subscribed(ss[n].memory, tenant, service).Some?
    decreases n
  {
    hide Subscribed, Next, Enabled, Shaped, WrittenOk, NothingLost;
    if i < n {
      SubscribedLater(ss, acts, i, n - 1, tenant, service);
      ReachableInv(ss, acts, n - 1);
      assert ss[n] == Next(ss[n - 1], acts[n - 1]);
      SubscribedStays(ss[n - 1], acts[n - 1], tenant, service);
    }
  }

  /** Whatever happens to the slower backends, once a tenant's subscription has been
      written the chain's statement is the aggregation of the accepted events that
      have reached memory, under the tenant's current subscription. */
  lemma AnswersIgnoreSlowerBackends(ss: seq<State>, acts: seq<Action>, i: nat, n: nat,
      slower: Option<Statement>, tenant: string, service: string, zones: map<string, int>, at: Instant)
    requires Run(ss, acts) && i <= n < |ss| && tenant != ""
    requires Subscribed(ss[i].memory, tenant, service).Some?
    ensures Inv(ss[n]) && MEMORY in ss[n].breakers
    ensures var sub := Subscribed(ss[n].memory, tenant, service);
            sub.Some? && Answer(ss[n], slower, tenant, service, zones, at) ==
              Some(StatementFor(sub.value, OfTenant(AsStored(ss[n].accepted, ss[n].written, ss[n].writtenAt), tenant), service, zones, at))
  {
    SubscribedLater(ss, acts, i, n, tenant, service);
    ReachableMemory(ss, acts, n);
    MemoryAdmits(ss[n]);
    hide Shaped, WrittenOk, NothingLost, StatementFor, Breaking.Admits;
  }

  /** No step ever opens memory's breaker. */
  lemma MemoryAdmits(s: State)
    requires Inv(s)
    ensures MEMORY in s.breakers && Breaking.Admits(s.breakers[MEMORY], s.clock)
  {
  }

  // ---- every event once ----

  ghost predicate Timestamped(events: seq<Event>) {
    forall n :: 0 <= n < |events| ==> events[n].timestamp != ZERO_TIME
  }

  ghost function Pick(accepted: seq<Event>, tickets: seq<nat>): seq<Event>
    requires Below(tickets, |accepted|)
  {
    seq(|tickets|, i requires 0 <= i < |tickets| => accepted[tickets[i]])
  }

  lemma PickWithout(accepted: seq<Event>, a: seq<nat>, j: nat)
    requires Below(a, |accepted|) && j < |a|
    ensures Below(Without(a, j), |accepted|)
    ensures multiset(Pick(accepted, a)) == multiset(Pick(accepted, Without(a, j))) + multiset{accepted[a[j]]}
  {
    WithoutOne(Pick(accepted, a), j);
    assert Without(Pick(accepted, a), j) == Pick(accepted, Without(a, j));
  }

  lemma {:induction false} PickPermuted(accepted: seq<Event>, a: seq<nat>, b: seq<nat>)
    requires Below(a, |accepted|) && Below(b, |accepted|)
    requires multiset(a) == multiset(b)
    ensures multiset(Pick(accepted, a)) == multiset(Pick(accepted, b))
    decreases |a|
  {
    hide Without, Pick, Below;
    if a == [] {
      assert forall x :: x !in multiset(b);
    } else {
      var n := |a| - 1;
      assert a[n] in multiset(b);
      var j :| 0 <= j < |b| && b[j] == a[n];
      WithoutOne(a, n);
      WithoutOne(b, j);
      assert multiset(Without(a, n)) == multiset(a) - multiset{a[n]};
      assert multiset(Without(b, j)) == multiset(b) - multiset{b[j]};
      PickWithout(accepted, a, n);
      PickWithout(accepted, b, j);
      PickPermuted(accepted, Without(a, n), Without(b, j));
    }
  }

  /** Tickets that cover the accepted events once each pick them all. */
  lemma PickAll(accepted: seq<Event>, tickets: seq<nat>)
    requires OnceEach(tickets, |accepted|)
    requires forall n: nat :: n < |accepted| ==> n in tickets
    ensures multiset(Pick(accepted, tickets)) == multiset(accepted)
  {
    var all: seq<nat> := seq(|accepted|, i requires 0 <= i < |accepted| => i);
    assert forall n: nat :: n < |accepted| ==> all[n] == n;
    forall n: nat
      ensures n in tickets <==> n in all
    {
      if n in tickets {
        assert n < |accepted|;
        assert all[n] == n;
      }
    }
    SameElements(tickets, all);
    PickPermuted(accepted, tickets, all);
    assert Pick(accepted, all) == accepted;
  }

  lemma {:induction false} OfTenantCounts(events: seq<Event>, tenant: string, e: Event)
    ensures multiset(OfTenant(events, tenant))[e] == if e.tenantKey == tenant then multiset(events)[e] else 0
  {
    if events != [] {
      var n := |events| - 1;
      assert events == events[..n] + [events[n]];
      OfTenantCounts(events[..n], tenant, e);
    }
  }

  lemma OfTenantPermuted(a: seq<Event>, b: seq<Event>, tenant: string)
    requires multiset(a) == multiset(b)
    ensures multiset(OfTenant(a, tenant)) == multiset(OfTenant(b, tenant))
  {
    forall e
      ensures multiset(OfTenant(a, tenant))[e] == multiset(OfTenant(b, tenant))[e]
    {
      OfTenantCounts(a, tenant, e);
      OfTenantCounts(b, tenant, e);
    }
  }

  /** When the event of a ticket reached memory. */
  ghost function Arrival(tickets: seq<nat>, at: seq<Instant>, n: nat): Instant
    requires |tickets| == |at| && n in tickets
  {
    var i :| 0 <= i < |tickets| && tickets[i] == n;
    at[i]
  }

  /** The accepted events, each once and in the order of acceptance, with the time of
      their arrival in memory where they came without one. */
  ghost function Arrived(accepted: seq<Event>, tickets: seq<nat>, at: seq<Instant>): seq<Event>
    requires |tickets| == |at| && forall n: nat :: n < |accepted| ==> n in tickets
  {
    seq(|accepted|, n requires 0 <= n < |accepted| => Stamped(accepted[n], Arrival(tickets, at, n)))
  }

  lemma ArrivedStamped(accepted: seq<Event>, tickets: seq<nat>, at: seq<Instant>)
    requires |tickets| == |at| && forall n: nat :: n < |accepted| ==> n in tickets
    ensures Timestamped(accepted) ==> Arrived(accepted, tickets, at) == accepted
  {
  }

  /** When no caller is on its way to memory, memory has each accepted event once. */
  lemma MemoryHasEachOnce(s: State)
    requires Inv(s) && forall n: nat :: n < |s.accepted| ==> n in s.written
    ensures |s.writtenAt| == |s.written| && Below(s.written, |s.accepted|)
    ensures multiset(AsStored(s.accepted, s.written, s.writtenAt)) == multiset(Arrived(s.accepted, s.written, s.writtenAt))
  {
    SameLength(s);
    WrittenOnce(s);
    hide Inv;
    var arrived := Arrived(s.accepted, s.written, s.writtenAt);
    PickAll(arrived, s.written);
    assert AsStored(s.accepted, s.written, s.writtenAt) == Pick(arrived, s.written);
  }

  lemma WrittenOnce(s: State)
    requires Inv(s)
    ensures OnceEach(s.written, |s.accepted|)
  {
  }

  lemma SameLength(s: State)
    requires Inv(s)
    ensures |s.writtenAt| == |s.written| && |s.acceptedAt| == |s.accepted|
  {
  }

  /** So the totals of a statement are those of the accepted events, each once. */
  lemma MemoryTotals(s: State, tenant: string, service: string, metric: string, w: (Instant, Instant))
    requires Inv(s) && MemoryOk(s) && tenant != ""
    requires forall n: nat :: n < |s.accepted| ==> n in s.written
    ensures |s.writtenAt| == |s.written|
    ensures var events := OfTenant(Arrived(s.accepted, s.written, s.writtenAt), tenant);
            && Total(EventsOf(s.memory, tenant), service, metric, w) == Total(events, service, metric, w)
            && Count(EventsOf(s.memory, tenant), service, metric, w) == Count(events, service, metric, w)
  {
    MemoryHasEachOnce(s);
    var stored, arrived := AsStored(s.accepted, s.written, s.writtenAt), Arrived(s.accepted, s.written, s.writtenAt);
    assert EventsOf(s.memory, tenant) == OfTenant(stored, tenant);
    hide Inv, Shaped, WrittenOk, NothingLost, AsStored, Arrived;
    OfTenantPermuted(stored, arrived, tenant);
    TotalPermuted(OfTenant(stored, tenant), OfTenant(arrived, tenant), service, metric, w);
  }
}
