/**
 Aggregation composed with the calendar: under an anchor whose cycles tile time,
 every event is billed in exactly one cycle and the cycle totals add up.
 */
module CycleBilling {
  import opened Calendar
  import opened CycleWindow
  import opened MeteringMemory

  /** The statement of the k-th cycle, asked for at the cycle's first instant. */
  function CycleStatement(s: Subscription, events: seq<Event>, zones: map<string, int>, k: nat): Statement {
    StatementFor(s, events, s.serviceId, zones, CycleStart(s, zones, k))
  }

  function LineTotal(st: Statement, metric: string): int {
    if metric in st.metrics then st.metrics[metric].cycleTotal else 0
  }

  function LineEvents(st: Statement, metric: string): nat {
    if metric in st.metrics then st.metrics[metric].totalEvents else 0
  }

  /** An event at or after the anchor is counted in one cycle's statement, the cycle
      of its timestamp, and in no other. */
  lemma BilledOnce(s: Subscription, zones: map<string, int>, e: Event, k: nat)
    requires Regular(s, zones)
    requires s.anchor <= e.timestamp && e.serviceId == s.serviceId
    ensures Counted(e, s.serviceId, CurrentCycleWindow(s, zones, CycleStart(s, zones, k)))
            <==> k == CycleIndex(s, zones, e.timestamp)
  {
    hide CycleStart, CurrentCycleWindow, Regular, CycleIndex;
    var j := CycleIndex(s, zones, e.timestamp);
    WindowIsCycle(s, zones, e.timestamp);
    CycleAtItsStart(s, zones, k);
    if k + 1 < j {
      CycleStartsAscend(s, zones, k + 1, j);
    } else if j + 1 < k {
      CycleStartsAscend(s, zones, j + 1, k);
    }
  }

  lemma {:induction false} SplitWindow(events: seq<Event>, service: string, metric: string, a: Instant, b: Instant, c: Instant)
    requires a <= b <= c
    ensures Total(events, service, metric, (a, c)) ==
            Total(events, service, metric, (a, b)) + Total(events, service, metric, (b, c))
    ensures Count(events, service, metric, (a, c)) ==
            Count(events, service, metric, (a, b)) + Count(events, service, metric, (b, c))
  {
    if events != [] {
      SplitWindow(events[..|events| - 1], service, metric, a, b, c);
    }
  }

  lemma {:induction false} EmptyWindow(events: seq<Event>, service: string, metric: string, a: Instant)
    ensures Total(events, service, metric, (a, a)) == 0 && Count(events, service, metric, (a, a)) == 0
  {
    if events != [] {
      EmptyWindow(events[..|events| - 1], service, metric, a);
    }
  }

  /** Billed quantity of a metric over the first n cycles. */
  function BilledTotal(s: Subscription, events: seq<Event>, zones: map<string, int>, metric: string, n: nat): int {
    if n == 0 then 0
    else BilledTotal(s, events, zones, metric, n - 1) + LineTotal(CycleStatement(s, events, zones, n - 1), metric)
  }

  function BilledEvents(s: Subscription, events: seq<Event>, zones: map<string, int>, metric: string, n: nat): nat {
    if n == 0 then 0
    else BilledEvents(s, events, zones, metric, n - 1) + LineEvents(CycleStatement(s, events, zones, n - 1), metric)
  }

  /** Bills over the first n cycles add up to the usage from the anchor to the end of
      the n-th: nothing is dropped between cycles and nothing charged twice. */
  lemma {:induction false} BillsAddUp(s: Subscription, events: seq<Event>, zones: map<string, int>, metric: string, n: nat)
    requires Regular(s, zones)
    ensures BilledTotal(s, events, zones, metric, n) ==
            Total(events, s.serviceId, metric, (s.anchor, CycleStart(s, zones, n)))
    ensures BilledEvents(s, events, zones, metric, n) ==
            Count(events, s.serviceId, metric, (s.anchor, CycleStart(s, zones, n)))
  {
    hide CycleStart, CurrentCycleWindow, Regular;
    CycleAtItsStart(s, zones, n);
    if n == 0 {
      EmptyWindow(events, s.serviceId, metric, s.anchor);
    } else {
      BillsAddUp(s, events, zones, metric, n - 1);
      CycleAtItsStart(s, zones, n - 1);
      CycleStartsAscend(s, zones, n - 1, n);
      var a, b := CycleStart(s, zones, n - 1), CycleStart(s, zones, n);
      SplitWindow(events, s.serviceId, metric, s.anchor, a, b);
      AggregateMeaning(events, s.serviceId, metric, (a, b));
    }
  }
}
