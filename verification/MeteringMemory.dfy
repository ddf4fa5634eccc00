/**
 The in-memory metering backend (internal/kernel/metering_memory.go): events per
 tenant, subscriptions per tenant and service, and usage statements aggregated
 over the current cycle.
 */
module MeteringMemory {
  import opened Calendar
  import opened CycleWindow
  import opened Prelude

  datatype Event = Event(
    id: string,
    tenantKey: string,
    serviceId: string,
    metricId: string,
    unit: string,
    quantity: int,
    timestamp: Instant)

  datatype Summary = Summary(metricId: string, unit: string, cycleTotal: int, totalEvents: nat)

  datatype Statement = Statement(
    subscription: Subscription,
    cycleStart: Instant,
    cycleEnd: Instant,
    metrics: map<string, Summary>)

  // ---- aggregation ----

  predicate Counted(e: Event, service: string, w: (Instant, Instant)) {
    e.serviceId == service && Within(w, e.timestamp)
  }

  function AddTo(ms: map<string, Summary>, e: Event): map<string, Summary> {
    var m := if e.metricId in ms then ms[e.metricId] else Summary(e.metricId, e.unit, 0, 0);
    ms[e.metricId := m.(cycleTotal := m.cycleTotal + e.quantity, totalEvents := m.totalEvents + 1)]
  }

  function Aggregate(events: seq<Event>, service: string, w: (Instant, Instant)): map<string, Summary> {
    if events == [] then map[]
    else
      var ms := Aggregate(events[..|events| - 1], service, w);
      var e := events[|events| - 1];
      if Counted(e, service, w) then AddTo(ms, e) else ms
  }

  /** The quantity an event contributes to a metric of a service in a window. */
  function Share(e: Event, service: string, metric: string, w: (Instant, Instant)): int {
    if Counted(e, service, w) && e.metricId == metric then e.quantity else 0
  }

  predicate Contributes(e: Event, service: string, metric: string, w: (Instant, Instant)) {
    Counted(e, service, w) && e.metricId == metric
  }

  function Total(events: seq<Event>, service: string, metric: string, w: (Instant, Instant)): int {
    if events == [] then 0
    else Total(events[..|events| - 1], service, metric, w) + Share(events[|events| - 1], service, metric, w)
  }

  function Count(events: seq<Event>, service: string, metric: string, w: (Instant, Instant)): nat {
    if events == [] then 0
    else Count(events[..|events| - 1], service, metric, w)
         + if Contributes(events[|events| - 1], service, metric, w) then 1 else 0
  }

  /** What a statement line means: the sum and number of the metric's events in the
      window, under the unit of the earliest of them. */
  ghost predicate Summarizes(m: Summary, events: seq<Event>, service: string, metric: string, w: (Instant, Instant)) {
    && m.metricId == metric
    && m.cycleTotal == Total(events, service, metric, w)
    && m.totalEvents == Count(events, service, metric, w)
    && exists i :: FirstOf(i, events, service, metric, w) && m.unit == events[i].unit
  }

  ghost predicate FirstOf(i: int, events: seq<Event>, service: string, metric: string, w: (Instant, Instant)) {
    && 0 <= i < |events|
    && Contributes(events[i], service, metric, w)
    && forall j :: 0 <= j < i ==> !Contributes(events[j], service, metric, w)
  }

  /** A statement has a line for exactly the metrics with an event in the window, and
      every line sums up those events. */
  lemma {:induction false} AggregateMeaning(events: seq<Event>, service: string, metric: string, w: (Instant, Instant))
    ensures metric in Aggregate(events, service, w) <==> Count(events, service, metric, w) > 0
    ensures metric in Aggregate(events, service, w) ==>
              Summarizes(Aggregate(events, service, w)[metric], events, service, metric, w)
    ensures Count(events, service, metric, w) == 0 ==>
              Total(events, service, metric, w) == 0
              && forall i :: 0 <= i < |events| ==> !Contributes(events[i], service, metric, w)
  {
    if events != [] {
      var n := |events| - 1;
      AggregateMeaning(events[..n], service, metric, w);
      if metric in Aggregate(events[..n], service, w) {
        var i :| FirstOf(i, events[..n], service, metric, w)
                 && Aggregate(events[..n], service, w)[metric].unit == events[..n][i].unit;
        assert FirstOf(i, events, service, metric, w);
      } else if Contributes(events[n], service, metric, w) {
        forall j | 0 <= j < n
          ensures !Contributes(events[j], service, metric, w)
        {
          assert events[..n][j] == events[j];
        }
        assert FirstOf(n, events, service, metric, w);
      }
      forall i | 0 <= i < |events| && Count(events, service, metric, w) == 0
        ensures !Contributes(events[i], service, metric, w)
      {
        if i < n { assert events[..n][i] == events[i]; }
      }
    }
  }

  /** One more event adds its quantity to its metric's line, if it is the service's and its
      time lies in the window, the start included and the end not; other lines stay. */
  lemma OneMoreEvent(events: seq<Event>, e: Event, service: string, start: Instant, end: Instant)
    ensures var before, after := Aggregate(events, service, (start, end)), Aggregate(events + [e], service, (start, end));
            if e.serviceId == service && start <= e.timestamp < end then
              && after.Keys == before.Keys + {e.metricId}
              && (forall m :: m in before && m != e.metricId ==> after[m] == before[m])
              && after[e.metricId] == if e.metricId in before
                                      then Summary(e.metricId, before[e.metricId].unit, before[e.metricId].cycleTotal + e.quantity, before[e.metricId].totalEvents + 1)
                                      else Summary(e.metricId, e.unit, e.quantity, 1)
            else after == before
  {
    assert (events + [e])[..|events|] == events;
    AggregateMeaning(events, service, e.metricId, (start, end));
  }

  // ---- order does not matter to totals ----

  lemma {:induction false} TotalConcat(a: seq<Event>, b: seq<Event>, service: string, metric: string, w: (Instant, Instant))
    ensures Total(a + b, service, metric, w) == Total(a, service, metric, w) + Total(b, service, metric, w)
    ensures Count(a + b, service, metric, w) == Count(a, service, metric, w) + Count(b, service, metric, w)
  {
    if b == [] {
      assert a + b == a;
    } else {
      var n := |b| - 1;
      assert (a + b)[..|a + b| - 1] == a + b[..n];
      TotalConcat(a, b[..n], service, metric, w);
    }
  }

  /** The same events in another order sum up to the same. */
  lemma {:induction false} TotalPermuted(a: seq<Event>, b: seq<Event>, service: string, metric: string, w: (Instant, Instant))
    requires multiset(a) == multiset(b)
    ensures Total(a, service, metric, w) == Total(b, service, metric, w)
    ensures Count(a, service, metric, w) == Count(b, service, metric, w)
    decreases |a|
  {
    if a == [] {
      assert forall x :: x !in multiset(b);
    } else {
      var n := |a| - 1;
      assert a[n] in multiset(b);
      var j :| 0 <= j < |b| && b[j] == a[n];
      hide Total, Count, Share, Contributes;
      WithoutBoth(a, n, b, j);
      TotalPermuted(Without(a, n), Without(b, j), service, metric, w);
      TotalWithout(a, n, service, metric, w);
      TotalWithout(b, j, service, metric, w);
    }
  }

  lemma WithoutBoth<T>(a: seq<T>, i: nat, b: seq<T>, j: nat)
    requires i < |a| && j < |b| && a[i] == b[j] && multiset(a) == multiset(b)
    ensures multiset(Without(a, i)) == multiset(Without(b, j)) && |Without(a, i)| < |a|
  {
    WithoutOne(a, i);
    WithoutOne(b, j);
    assert multiset(Without(a, i)) == multiset(a) - multiset{a[i]};
    assert multiset(Without(b, j)) == multiset(b) - multiset{b[j]};
  }

  lemma TotalWithout(s: seq<Event>, j: nat, service: string, metric: string, w: (Instant, Instant))
    requires j < |s|
    ensures Total(s, service, metric, w) == Total(Without(s, j), service, metric, w) + Share(s[j], service, metric, w)
    ensures Count(s, service, metric, w) ==
            Count(Without(s, j), service, metric, w) + if Contributes(s[j], service, metric, w) then 1 else 0
  {
    assert s == s[..j + 1] + s[j + 1..] && s[..j + 1][..j] == s[..j];
    TotalConcat(s[..j + 1], s[j + 1..], service, metric, w);
    TotalConcat(s[..j], s[j + 1..], service, metric, w);
  }

  // ---- the store as a value ----

  datatype Store = Store(
    subscriptions: map<string, map<string, Subscription>>,
    events: map<string, seq<Event>>)

  const EMPTY := Store(map[], map[])

  function EventsOf(m: Store, tenant: string): seq<Event> {
    if tenant in m.events then m.events[tenant] else []
  }

  function Subscribed(m: Store, tenant: string, service: string): Option<Subscription> {
    if tenant in m.subscriptions && service in m.subscriptions[tenant]
    then Some(m.subscriptions[tenant][service]) else None
  }

  function WithDefaults(s: Subscription, now: Instant): Subscription {
    s.(timezone := if s.timezone == "" then "UTC" else s.timezone,
       anchor := if s.anchor == ZERO_TIME then now else s.anchor,
       status := if s.status == "" then "active" else s.status)
  }

  function Register(m: Store, s: Subscription, now: Instant): Store {
    if s.tenantKey == "" || s.serviceId == "" then m
    else
      var services := if s.tenantKey in m.subscriptions then m.subscriptions[s.tenantKey] else map[];
      m.(subscriptions := m.subscriptions[s.tenantKey := services[s.serviceId := WithDefaults(s, now)]])
  }

  function Stamped(e: Event, now: Instant): Event {
    if e.timestamp == ZERO_TIME then e.(timestamp := now) else e
  }

  function Record(m: Store, e: Event, now: Instant): Store {
    if e.tenantKey == "" then m
    else m.(events := m.events[e.tenantKey := EventsOf(m, e.tenantKey) + [Stamped(e, now)]])
  }

  function StatementFor(s: Subscription, events: seq<Event>, service: string, zones: map<string, int>, at: Instant): Statement {
    var w := CurrentCycleWindow(s, zones, at);
    Statement(s, w.0, w.1, Aggregate(events, service, w))
  }

  function UsageStatement(m: Store, tenant: string, service: string, zones: map<string, int>, at: Instant): Option<Statement> {
    match Subscribed(m, tenant, service)
    case None => None
    case Some(s) => Some(StatementFor(s, EventsOf(m, tenant), service, zones, at))
  }

  /** A subscription is kept as given, under its tenant and service, with a time zone, an
      anchor and a status filled in where there is none; no other changes. */
  lemma RegisterMeaning(m: Store, s: Subscription, now: Instant, tenant: string, service: string)
    ensures Register(m, s, now).events == m.events
    ensures var r := Subscribed(Register(m, s, now), tenant, service);
            if tenant == s.tenantKey != "" && service == s.serviceId != "" then
              && r.Some? && r.value.(timezone := s.timezone, anchor := s.anchor, status := s.status) == s
              && r.value.timezone == (if s.timezone == "" then "UTC" else s.timezone)
              && r.value.anchor == (if s.anchor == 0 then now else s.anchor)
              && r.value.status == (if s.status == "" then "active" else s.status)
            else r == Subscribed(m, tenant, service)
  {
  }

  /** An event is kept as given at the end of its tenant's list, with the present as its
      time if it has none; one without a tenant is dropped. */
  lemma RecordMeaning(m: Store, e: Event, now: Instant, tenant: string)
    ensures Record(m, e, now).subscriptions == m.subscriptions
    ensures EventsOf(Record(m, e, now), tenant)
            == EventsOf(m, tenant) + if tenant == e.tenantKey != "" then [e.(timestamp := if e.timestamp == 0 then now else e.timestamp)] else []
  {
  }

  /** A statement is there for exactly the tenant's subscribed services: it covers the
      subscription's current cycle and has a line for exactly the metrics with an event of
      the service in it. */
  lemma StatementMeaning(m: Store, tenant: string, service: string, zones: map<string, int>, at: Instant)
    ensures UsageStatement(m, tenant, service, zones, at).Some? <==> tenant in m.subscriptions && service in m.subscriptions[tenant]
    ensures UsageStatement(m, tenant, service, zones, at).Some? ==>
              var st, events := UsageStatement(m, tenant, service, zones, at).value, EventsOf(m, tenant);
              && st.subscription == m.subscriptions[tenant][service]
              && (st.cycleStart, st.cycleEnd) == CurrentCycleWindow(st.subscription, zones, at)
              && forall metric ::
                   (metric in st.metrics <==> exists i :: 0 <= i < |events| && events[i].serviceId == service && events[i].metricId == metric
                                                          && st.cycleStart <= events[i].timestamp < st.cycleEnd)
  {
    if UsageStatement(m, tenant, service, zones, at).Some? {
      var s, events := m.subscriptions[tenant][service], EventsOf(m, tenant);
      var w := CurrentCycleWindow(s, zones, at);
      hide CurrentCycleWindow, Aggregate;
      forall metric
        ensures metric in Aggregate(events, service, w)
                <==> exists i :: 0 <= i < |events| && events[i].serviceId == service && events[i].metricId == metric && w.0 <= events[i].timestamp < w.1
      {
        AggregateMeaning(events, service, metric, w);
      }
    }
  }

  /** Recording an event changes one tenant's statements and no other's. */
  lemma RecordIsLocal(m: Store, e: Event, now: Instant, tenant: string, service: string, zones: map<string, int>, at: Instant)
    requires tenant != e.tenantKey || service != e.serviceId
    ensures UsageStatement(Record(m, e, now), tenant, service, zones, at) == UsageStatement(m, tenant, service, zones, at)
  {
    hide CurrentCycleWindow, Aggregate, UsageStatement, Record, EventsOf;
    RecordedEvents(m, e, now, tenant);
    RecordedSubscriptions(m, e, now, tenant, service);
    SameStatement(m, Record(m, e, now), tenant, service, zones, at);
  }

  lemma RecordedSubscriptions(m: Store, e: Event, now: Instant, tenant: string, service: string)
    ensures Subscribed(Record(m, e, now), tenant, service) == Subscribed(m, tenant, service)
  {
  }

  lemma RecordedEvents(m: Store, e: Event, now: Instant, tenant: string)
    ensures EventsOf(Record(m, e, now), tenant)
            == if tenant == e.tenantKey && tenant != "" then EventsOf(m, tenant) + [Stamped(e, now)] else EventsOf(m, tenant)
  {
  }

  /** Statements of a service depend on its subscription and its events only. */
  lemma SameStatement(m: Store, m': Store, tenant: string, service: string, zones: map<string, int>, at: Instant)
    requires Subscribed(m', tenant, service) == Subscribed(m, tenant, service)
    requires EventsOf(m', tenant) == EventsOf(m, tenant)
             || exists e: Event :: e.serviceId != service && EventsOf(m', tenant) == EventsOf(m, tenant) + [e]
    ensures UsageStatement(m', tenant, service, zones, at) == UsageStatement(m, tenant, service, zones, at)
  {
    hide CurrentCycleWindow, Aggregate;
    if EventsOf(m', tenant) != EventsOf(m, tenant) && Subscribed(m, tenant, service).Some? {
      var e: Event :| e.serviceId != service && EventsOf(m', tenant) == EventsOf(m, tenant) + [e];
      OtherService(EventsOf(m, tenant), e, service, CurrentCycleWindow(Subscribed(m, tenant, service).value, zones, at));
    }
  }

  lemma OtherService(events: seq<Event>, e: Event, service: string, w: (Instant, Instant))
    requires e.serviceId != service
    ensures Aggregate(events + [e], service, w) == Aggregate(events, service, w)
  {
    assert (events + [e])[..|events|] == events;
  }

  // ---- the store as the code has it ----

  class MemoryMeteringStore {
    var subscriptions: map<string, map<string, Subscription>>
    var events: map<string, seq<Event>>

    function View(): Store
      reads this
    {
      Store(subscriptions, events)
    }

    constructor ()
      ensures View() == EMPTY
    {
      subscriptions, events := map[], map[];
    }

    method RegisterServiceSubscription(s: Subscription, now: Instant)
      modifies this
      ensures View() == Register(old(View()), s, now)
    {
      if s.tenantKey == "" || s.serviceId == "" {
        return;
      }
      var sub := s;
      if sub.timezone == "" {
        sub := sub.(timezone := "UTC");
      }
      if sub.anchor == ZERO_TIME {
        sub := sub.(anchor := now);
      }
      if sub.status == "" {
        sub := sub.(status := "active");
      }
      if sub.tenantKey !in subscriptions {
        subscriptions := subscriptions[sub.tenantKey := map[]];
      }
      subscriptions := subscriptions[sub.tenantKey := subscriptions[sub.tenantKey][sub.serviceId := sub]];
    }

    method RecordMeteringEvent(e: Event, now: Instant)
      modifies this
      ensures View() == Record(old(View()), e, now)
    {
      if e.tenantKey == "" {
        return;
      }
      var event := e;
      if event.timestamp == ZERO_TIME {
        event := event.(timestamp := now);
      }
      var before := if event.tenantKey in events then events[event.tenantKey] else [];
      events := events[event.tenantKey := before + [event]];
    }

    /** The tenant's subscriptions, in no particular order. */
    method GetServiceSubscriptions(tenant: string) returns (r: seq<Subscription>)
      ensures tenant !in subscriptions ==> r == []
      ensures tenant in subscriptions ==> |r| == |subscriptions[tenant]|
      ensures forall s :: s in r ==> exists service :: Subscribed(View(), tenant, service) == Some(s)
      ensures forall service :: Subscribed(View(), tenant, service).Some? ==> Subscribed(View(), tenant, service).value in r
    {
      r := [];
      if tenant !in subscriptions {
        return;
      }
      var services := subscriptions[tenant];
      var rest := services.Keys;
      while rest != {}
        invariant rest <= services.Keys && |r| + |rest| == |services.Keys|
        invariant forall s :: s in r ==> exists service :: Subscribed(View(), tenant, service) == Some(s)
        invariant forall service :: service in services && service !in rest ==> services[service] in r
        decreases rest
      {
        var service :| service in rest;
        assert Subscribed(View(), tenant, service) == Some(services[service]);
        r, rest := r + [services[service]], rest - {service};
      }
      assert |services.Keys| == |services|;
    }

    method SumUp(tenant: string, service: string, w: (Instant, Instant)) returns (metrics: map<string, Summary>)
      ensures metrics == Aggregate(EventsOf(View(), tenant), service, w)
    {
      metrics := map[];
      var list := if tenant in events then events[tenant] else [];
      for i := 0 to |list|
        invariant metrics == Aggregate(list[..i], service, w)
      {
        assert list[..i + 1][..i] == list[..i];
        var e := list[i];
        if e.serviceId != service {
          continue;
        }
        if (e.timestamp == w.0 || e.timestamp > w.0) && e.timestamp < w.1 {
          if e.metricId !in metrics {
            metrics := metrics[e.metricId := Summary(e.metricId, e.unit, 0, 0)];
          }
          var m := metrics[e.metricId];
          metrics := metrics[e.metricId := m.(cycleTotal := m.cycleTotal + e.quantity, totalEvents := m.totalEvents + 1)];
        }
      }
      assert list[..|list|] == list;
    }

    method GetServiceUsageStatement(tenant: string, service: string, zones: map<string, int>, at: Instant)
      returns (r: Option<Statement>)
      ensures r == UsageStatement(View(), tenant, service, zones, at)
    {
      if tenant !in subscriptions || service !in subscriptions[tenant] {
        return None;
      }
      var s := subscriptions[tenant][service];
      var w := CurrentCycleWindow(s, zones, at);
      var metrics := SumUp(tenant, service, w);
      r := Some(Statement(s, w.0, w.1, metrics));
    }

    /** One statement per subscribed service, each the one that service's own query
        returns. */
    method GetTenantUsageOverview(tenant: string, zones: map<string, int>, at: Instant) returns (r: seq<Statement>)
      ensures tenant !in subscriptions ==> r == []
      ensures tenant in subscriptions ==>
                exists order: seq<string> :: Lists(order, subscriptions[tenant].Keys) && |r| == |order|
                  && forall i :: 0 <= i < |r| ==> UsageStatement(View(), tenant, order[i], zones, at) == Some(r[i])
    {
      r := [];
      if tenant !in subscriptions {
        return;
      }
      var services := subscriptions[tenant];
      var rest := services.Keys;
      ghost var order: seq<string> := [];
      while rest != {}
        invariant rest <= services.Keys
        invariant |r| == |order| && Lists(order, services.Keys - rest)
        invariant forall i :: 0 <= i < |r| ==> UsageStatement(View(), tenant, order[i], zones, at) == Some(r[i])
        decreases rest
      {
        var service :| service in rest;
        var s := services[service];
        var w := CurrentCycleWindow(s, zones, at);
        var metrics := SumUp(tenant, service, w);
        r := r + [Statement(s, w.0, w.1, metrics)];
        order := order + [service];
        rest := rest - {service};
      }
      assert services.Keys - rest == services.Keys;
    }
  }
}
