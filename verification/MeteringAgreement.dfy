/**
 Agreement at rest: a durable backend that ignores repeated event ids, as the
 PostgreSQL store does, ends up with memory's statements, however often replay repeated
 an entry.
 */
module MeteringAgreement {
  import opened Prelude
  import opened Calendar
  import opened MeteringMemory
  import opened MeteringMachine
  import opened MeteringSafety
  import opened MeteringResults
  import Dedup = EventDedup

  // ---- accepted ids are distinct ----

  /** What the duplicate filter remembers about the accepted events. */
  ghost predicate SeenOk(s: State)
    requires |s.acceptedAt| == |s.accepted|
  {
    forall n :: 0 <= n < |s.accepted| && s.accepted[n].id != "" ==>
      && s.acceptedAt[n] <= s.clock
      && ((s.accepted[n].id in s.seen && s.acceptedAt[n] <= s.seen[s.accepted[n].id])
          || s.clock - s.acceptedAt[n] > s.config.retention)
  }

  /** Two acceptances of one id lie more than the retention apart. */
  ghost predicate Spaced(s: State)
    requires |s.acceptedAt| == |s.accepted|
  {
    forall i, j :: 0 <= i < j < |s.accepted| && s.accepted[i].id == s.accepted[j].id != "" ==>
      s.acceptedAt[j] - s.acceptedAt[i] > s.config.retention
  }

  /** A prune forgets exactly the ids accepted longer ago than the retention: they are
      accepted again, the others still refused. */
  lemma PruneForgets(s: State, id: string)
    requires Inv(s) && id != ""
    ensures var s' := Next(s, Prune);
            Dedup.Duplicate(s'.seen, id) <==> id in s.seen && s.clock - s.seen[id] <= s.config.retention
  {
    hide Inv;
  }

  lemma DedupStep(s: State, a: Action)
    requires Inv(s) && Enabled(s, a)
    requires |s.acceptedAt| == |s.accepted| && SeenOk(s) && Spaced(s)
    ensures var s' := Next(s, a);
            |s'.acceptedAt| == |s'.accepted| && SeenOk(s') && Spaced(s')
  {
    StepFrame(s, a);
    if a.Submit? {
      DedupSubmit(s, a.caller, a.event);
    } else if a.Prune? {
      DedupPrune(s);
    }
    hide Inv, Next;
  }

  lemma DedupSubmit(s: State, c: nat, e: Event)
    requires |s.acceptedAt| == |s.accepted| && SeenOk(s) && Spaced(s)
    ensures var s' := Submitted(s, c, e); |s'.acceptedAt| == |s'.accepted| && SeenOk(s') && Spaced(s')
  {
  }

  lemma DedupPrune(s: State)
    requires |s.acceptedAt| == |s.accepted| && SeenOk(s)
    ensures SeenOk(s.(seen := Dedup.Pruned(s.seen, s.config.retention, s.clock)))
  {
  }

  lemma {:induction false} ReachableSpaced(ss: seq<State>, acts: seq<Action>, n: nat)
    requires Run(ss, acts) && n < |ss|
    ensures Inv(ss[n]) && |ss[n].acceptedAt| == |ss[n].accepted| && SeenOk(ss[n]) && Spaced(ss[n])
  {
    hide Inv, Next, Enabled, SeenOk, Spaced;
    ReachableInv(ss, acts, n);
    if n == 0 {
      StartSpaced(ss[0]);
    } else {
      ReachableSpaced(ss, acts, n - 1);
      RunStep(ss, acts, n - 1);
      DedupStep(ss[n - 1], acts[n - 1]);
    }
  }

  lemma StartSpaced(s: State)
    requires IsStart(s)
    ensures |s.acceptedAt| == |s.accepted| && SeenOk(s) && Spaced(s)
  {
  }

  /** No caller submits an id again once the retention has passed since its acceptance. */
  ghost predicate TimelyRun(ss: seq<State>, acts: seq<Action>)
    requires |ss| == |acts| + 1
  {
    forall i, n ::
      (0 <= i < |acts| && acts[i].Submit? && 0 <= n < |ss[i].accepted| && n < |ss[i].acceptedAt|
       && ss[i].accepted[n].id == acts[i].event.id)
      ==> ss[i].clock - ss[i].acceptedAt[n] <= ss[i].config.retention
  }

  ghost predicate Identified(events: seq<Event>) {
    forall n :: 0 <= n < |events| ==> events[n].id != ""
  }

  ghost predicate DistinctIds(events: seq<Event>) {
    forall i, j :: 0 <= i < j < |events| ==> events[i].id != events[j].id
  }

  lemma SubmitDistinct(s: State, a: Action)
    requires Inv(s) && a.Submit? && Enabled(s, a)
    requires |s.acceptedAt| == |s.accepted| && SeenOk(s) && DistinctIds(s.accepted)
    requires Identified(Next(s, a).accepted)
    requires forall n :: 0 <= n < |s.accepted| && s.accepted[n].id == a.event.id ==> s.clock - s.acceptedAt[n] <= s.config.retention
    ensures DistinctIds(Next(s, a).accepted)
  {
    hide Shaped, WrittenOk, NothingLost;
    var s' := Next(s, a);
    if s'.accepted != s.accepted {
      forall n | 0 <= n < |s.accepted|
        ensures s.accepted[n].id != a.event.id
      {
        assert s'.accepted[n] == s.accepted[n];
      }
    }
  }

  lemma {:induction false} ReachableDistinct(ss: seq<State>, acts: seq<Action>, n: nat)
    requires Run(ss, acts) && n < |ss| && TimelyRun(ss, acts)
    requires Identified(ss[n].accepted)
    ensures DistinctIds(ss[n].accepted)
  {
    hide Inv, Next, SeenOk, Spaced, Enabled, Identified, DistinctIds;
    if n == 0 {
      StartDistinct(ss[0]);
    } else {
      ReachableSpaced(ss, acts, n - 1);
      RunStep(ss, acts, n - 1);
      StillIdentified(ss[n - 1], acts[n - 1]);
      ReachableDistinct(ss, acts, n - 1);
      DistinctStep(ss[n - 1], acts[n - 1]);
    }
  }

  lemma StartDistinct(s: State)
    requires IsStart(s)
    ensures DistinctIds(s.accepted)
  {
  }

  lemma StillIdentified(s: State, a: Action)
    requires Inv(s) && Enabled(s, a) && Identified(Next(s, a).accepted)
    ensures Identified(s.accepted)
  {
    SubmitExtends(s, a);
    hide Inv, Next;
    assert forall i :: 0 <= i < |s.accepted| ==> s.accepted[i] == Next(s, a).accepted[i];
  }

  lemma DistinctStep(s: State, a: Action)
    requires Inv(s) && Enabled(s, a) && |s.acceptedAt| == |s.accepted| && SeenOk(s) && DistinctIds(s.accepted)
    requires Identified(Next(s, a).accepted)
    requires a.Submit? ==> forall n :: 0 <= n < |s.accepted| && s.accepted[n].id == a.event.id ==> s.clock - s.acceptedAt[n] <= s.config.retention
    ensures DistinctIds(Next(s, a).accepted)
  {
    if a.Submit? {
      SubmitDistinct(s, a);
    } else {
      StepFrame(s, a);
    }
  }

  // ---- the durable store ----

  /** The rows of a table keyed by event id, after inserts that ignore a present key. */
  function Rows(ops: seq<Op>): (rows: seq<Event>) {
    if ops == [] then []
    else
      var rows := Rows(ops[..|ops| - 1]);
      match ops[|ops| - 1]
      case RecordEvent(_, e) => if HasId(rows, e.id) then rows else rows + [e]
      case _ => rows
  }

  predicate HasId(rows: seq<Event>, id: string) {
    exists i :: 0 <= i < |rows| && rows[i].id == id
  }

  ghost predicate Inserted(ops: seq<Op>, e: Event) {
    exists i :: 0 <= i < |ops| && ops[i].RecordEvent? && ops[i].event == e
  }

  /** Ids are unique, every row was inserted, and every inserted id has its row. */
  lemma {:induction false} RowsMeaning(ops: seq<Op>)
    ensures DistinctIds(Rows(ops))
    ensures forall e :: e in Rows(ops) ==> Inserted(ops, e)
    ensures forall e :: Inserted(ops, e) ==> HasId(Rows(ops), e.id)
  {
    hide Inserted, HasId;
    NothingInserted();
    if ops != [] {
      var n := |ops| - 1;
      RowsMeaning(ops[..n]);
      var rows := Rows(ops[..n]);
      forall e
        ensures Inserted(ops, e) <==> Inserted(ops[..n], e) || (ops[n].RecordEvent? && ops[n].event == e)
        ensures HasId(rows + [e], e.id)
      {
        InsertedLast(ops, e);
        HasIdAppended(rows, e, e.id);
      }
      if ops[n].RecordEvent? {
        var e := ops[n].event;
        forall id
          ensures HasId(rows + [e], id) <==> HasId(rows, id) || id == e.id
        {
          HasIdAppended(rows, e, id);
        }
        if !HasId(rows, e.id) { DistinctAppended(rows, e); }
      }
    }
  }

  lemma NothingInserted()
    ensures forall e :: !Inserted([], e)
  {
  }

  lemma InsertedLast(ops: seq<Op>, e: Event)
    requires ops != []
    ensures var n := |ops| - 1; Inserted(ops, e) <==> Inserted(ops[..n], e) || (ops[n].RecordEvent? && ops[n].event == e)
  {
    var n := |ops| - 1;
    if Inserted(ops[..n], e) {
      var i :| 0 <= i < n && ops[..n][i].RecordEvent? && ops[..n][i].event == e;
      assert ops[i].RecordEvent? && ops[i].event == e;
    }
    if Inserted(ops, e) {
      var i :| 0 <= i <= n && ops[i].RecordEvent? && ops[i].event == e;
      if i < n { assert ops[..n][i].RecordEvent? && ops[..n][i].event == e; }
    }
  }

  lemma HasIdAppended(rows: seq<Event>, e: Event, id: string)
    ensures HasId(rows + [e], id) <==> HasId(rows, id) || id == e.id
  {
    var more := rows + [e];
    assert more[|rows|].id == e.id;
    if HasId(rows, id) {
      var i :| 0 <= i < |rows| && rows[i].id == id;
      assert more[i].id == id;
    }
  }

  lemma DistinctAppended(rows: seq<Event>, e: Event)
    requires DistinctIds(rows) && !HasId(rows, e.id)
    ensures DistinctIds(rows + [e])
  {
  }

  /** Sum and count of one group of SELECT metric_id, unit, SUM, COUNT ... GROUP BY. */
  function GroupTotal(rows: seq<Event>, service: string, g: (string, string), w: (Instant, Instant)): int {
    if rows == [] then 0
    else
      var e := rows[|rows| - 1];
      GroupTotal(rows[..|rows| - 1], service, g, w) + if Contributes(e, service, g.0, w) && e.unit == g.1 then e.quantity else 0
  }

  function GroupCount(rows: seq<Event>, service: string, g: (string, string), w: (Instant, Instant)): nat {
    if rows == [] then 0
    else
      var e := rows[|rows| - 1];
      GroupCount(rows[..|rows| - 1], service, g, w) + if Contributes(e, service, g.0, w) && e.unit == g.1 then 1 else 0
  }

  /** The query's groups, in whatever order the database returns them. */
  ghost predicate Groups(groups: seq<(string, string)>, rows: seq<Event>, service: string, w: (Instant, Instant)) {
    forall g :: g in groups <==> GroupCount(rows, service, g, w) > 0
  }

  /** The statement read off the rows: a later group of the same metric overwrites. */
  function DurableMetrics(groups: seq<(string, string)>, rows: seq<Event>, service: string, w: (Instant, Instant)): map<string, Summary> {
    if groups == [] then map[]
    else
      var g := groups[|groups| - 1];
      DurableMetrics(groups[..|groups| - 1], rows, service, w)
        [g.0 := Summary(g.0, g.1, GroupTotal(rows, service, g, w), GroupCount(rows, service, g, w))]
  }

  ghost predicate OneUnit(events: seq<Event>) {
    forall e, f :: e in events && f in events && e.metricId == f.metricId ==> e.unit == f.unit
  }

  /** With one unit per metric a metric has one group, and it is the whole metric. */
  lemma {:induction false} GroupIsMetric(rows: seq<Event>, service: string, g: (string, string), w: (Instant, Instant))
    requires forall e :: e in rows && e.metricId == g.0 ==> e.unit == g.1
    ensures GroupTotal(rows, service, g, w) == Total(rows, service, g.0, w)
    ensures GroupCount(rows, service, g, w) == Count(rows, service, g.0, w)
  {
    if rows != [] {
      var n := |rows| - 1;
      assert forall e :: e in rows[..n] ==> e in rows;
      GroupIsMetric(rows[..n], service, g, w);
    }
  }

  lemma {:induction false} GroupHasEvent(rows: seq<Event>, service: string, g: (string, string), w: (Instant, Instant))
    requires GroupCount(rows, service, g, w) > 0
    ensures exists i :: 0 <= i < |rows| && rows[i].metricId == g.0 && rows[i].unit == g.1
  {
    var n := |rows| - 1;
    if GroupCount(rows[..n], service, g, w) > 0 {
      GroupHasEvent(rows[..n], service, g, w);
      var i :| 0 <= i < n && rows[..n][i].metricId == g.0 && rows[..n][i].unit == g.1;
      assert rows[i].metricId == g.0 && rows[i].unit == g.1;
    } else {
      assert rows[n].metricId == g.0 && rows[n].unit == g.1;
    }
  }

  lemma {:induction false} DurableLines(groups: seq<(string, string)>, rows: seq<Event>, service: string, w: (Instant, Instant))
    requires OneUnit(rows)
    requires forall g :: g in groups ==> GroupCount(rows, service, g, w) > 0
    ensures forall m :: m in DurableMetrics(groups, rows, service, w) <==> exists g :: g in groups && g.0 == m
    ensures forall g :: g in groups ==>
              g.0 in DurableMetrics(groups, rows, service, w)
              && DurableMetrics(groups, rows, service, w)[g.0] ==
                 Summary(g.0, g.1, GroupTotal(rows, service, g, w), GroupCount(rows, service, g, w))
  {
    if groups != [] {
      var n := |groups| - 1;
      assert groups == groups[..n] + [groups[n]];
      assert groups[n] in groups;
      DurableLines(groups[..n], rows, service, w);
      forall g | g in groups && g.0 == groups[n].0
        ensures g == groups[n]
      {
        GroupHasEvent(rows, service, g, w);
        GroupHasEvent(rows, service, groups[n], w);
      }
    }
  }

  /** The durable query over rows, and memory's aggregation over any reordering of them,
      give the same lines. */
  lemma QueriesAgree(groups: seq<(string, string)>, rows: seq<Event>, events: seq<Event>, service: string, w: (Instant, Instant))
    requires multiset(rows) == multiset(events) && OneUnit(rows) && Groups(groups, rows, service, w)
    ensures DurableMetrics(groups, rows, service, w) == Aggregate(events, service, w)
  {
    DurableLines(groups, rows, service, w);
    assert forall e :: e in events ==> e in multiset(events) && e in multiset(rows) && e in rows;
    var durable, memory := DurableMetrics(groups, rows, service, w), Aggregate(events, service, w);
    forall m
      ensures m in durable <==> m in memory
      ensures m in durable ==> durable[m] == memory[m]
    {
      LineAgrees(groups, rows, events, service, w, m);
    }
  }

  lemma LineAgrees(groups: seq<(string, string)>, rows: seq<Event>, events: seq<Event>, service: string, w: (Instant, Instant), m: string)
    requires multiset(rows) == multiset(events) && OneUnit(rows) && Groups(groups, rows, service, w)
    requires forall e :: e in events ==> e in rows
    ensures var memory := Aggregate(events, service, w);
            && (m in memory <==> exists g :: g in groups && g.0 == m)
            && (forall g :: g in groups && g.0 == m && m in memory ==>
                  memory[m] == Summary(g.0, g.1, GroupTotal(rows, service, g, w), GroupCount(rows, service, g, w)))
  {
    AggregateMeaning(events, service, m, w);
    TotalPermuted(rows, events, service, m, w);
    var memory := Aggregate(events, service, w);
    if m in memory {
      var i :| FirstOf(i, events, service, m, w) && memory[m].unit == events[i].unit;
      var g := (m, events[i].unit);
      assert events[i] in events;
      GroupIsMetric(rows, service, g, w);
      assert g in groups;
    }
    forall g | g in groups && g.0 == m
      ensures m in memory && memory[m] == Summary(g.0, g.1, GroupTotal(rows, service, g, w), GroupCount(rows, service, g, w))
    {
      GroupHasEvent(rows, service, g, w);
      GroupIsMetric(rows, service, g, w);
      var i :| FirstOf(i, events, service, m, w) && memory[m].unit == events[i].unit;
      assert events[i] in events;
    }
  }

  // ---- agreement ----

  /** Of a quiet backend, the table has exactly the accepted events if and only if every
      event logged for it has been replayed. */
  lemma TableCompleteIff(s: State, b: string)
    requires Inv(s) && b in s.config.names && Quiet(s, b) && DistinctIds(s.accepted)
    ensures b in s.applied && (multiset(Rows(s.applied[b])) == multiset(s.accepted) <==> Replayed(s, b))
  {
    BackendState(s, b);
    QuietHasAllIff(s, b);
    hide Inv, Quiet, Replayed;
    if forall n: nat :: n < |s.accepted| ==> EventOp(s, n) in s.applied[b] {
      forall n: nat | n < |s.accepted|
        ensures RecordEvent(n, s.accepted[n]) in s.applied[b]
      {
        assert EventOp(s, n) in s.applied[b];
      }
      TableIsComplete(s.accepted, s.applied[b]);
    }
    if multiset(Rows(s.applied[b])) == multiset(s.accepted) {
      TableHasOps(s.accepted, s.applied[b]);
    }
  }

  /** A backend that took every accepted event, and no others, however often, has a table
      of exactly these events. */
  lemma TableIsComplete(accepted: seq<Event>, ops: seq<Op>)
    requires DistinctIds(accepted) && OnlyAccepted(ops, accepted)
    requires forall n: nat :: n < |accepted| ==> RecordEvent(n, accepted[n]) in ops
    ensures multiset(Rows(ops)) == multiset(accepted)
  {
    RowsMeaning(ops);
    var rows := Rows(ops);
    forall e | e in rows
      ensures e in accepted
    {
      var i :| 0 <= i < |ops| && ops[i].RecordEvent? && ops[i].event == e;
      assert ops[i] in ops;
    }
    forall e | e in accepted
      ensures e in rows
    {
      var n :| 0 <= n < |accepted| && accepted[n] == e;
      assert RecordEvent(n, accepted[n]) in ops;
      var i :| 0 <= i < |ops| && ops[i] == RecordEvent(n, accepted[n]);
      assert Inserted(ops, e);
      var k :| 0 <= k < |rows| && rows[k].id == e.id;
      assert rows[k] in accepted;
      var m :| 0 <= m < |accepted| && accepted[m] == rows[k];
      assert m == n;
    }
    DistinctIdsDistinct(rows);
    DistinctIdsDistinct(accepted);
    SameElements(rows, accepted);
  }

  /** And conversely. */
  lemma TableHasOps(accepted: seq<Event>, ops: seq<Op>)
    requires DistinctIds(accepted) && OnlyAccepted(ops, accepted)
    requires multiset(Rows(ops)) == multiset(accepted)
    ensures forall n: nat :: n < |accepted| ==> RecordEvent(n, accepted[n]) in ops
  {
    RowsMeaning(ops);
    forall n: nat | n < |accepted|
      ensures RecordEvent(n, accepted[n]) in ops
    {
      assert accepted[n] in multiset(accepted) && accepted[n] in Rows(ops);
      var i :| 0 <= i < |ops| && ops[i].RecordEvent? && ops[i].event == accepted[n];
      assert ops[i] in ops && accepted[ops[i].ticket] == accepted[n];
      assert ops[i].ticket == n;
    }
  }

  lemma DistinctIdsDistinct(events: seq<Event>)
    requires DistinctIds(events)
    ensures Distinct(events)
  {
  }

  /** A quiet backend to which all logged events were replayed answers with memory's
      statement lines, for every tenant, service and window, whatever was refused,
      overflowed, failed or replayed before. */
  lemma AgreementAtRest(ss: seq<State>, acts: seq<Action>, n: nat, b: string,
      tenant: string, service: string, w: (Instant, Instant), groups: seq<(string, string)>)
    requires Run(ss, acts) && TimelyRun(ss, acts) && n < |ss|
    requires b in ss[0].config.names && Quiet(ss[n], b) && Replayed(ss[n], b)
    requires Identified(ss[n].accepted) && Timestamped(ss[n].accepted) && OneUnit(ss[n].accepted)
    requires tenant != ""
    ensures b in ss[n].applied
    ensures Groups(groups, OfTenant(Rows(ss[n].applied[b]), tenant), service, w) ==>
              DurableMetrics(groups, OfTenant(Rows(ss[n].applied[b]), tenant), service, w)
              == Aggregate(EventsOf(ss[n].memory, tenant), service, w)
  {
    var s := ss[n];
    hide Inv, Run, TimelyRun, Rows, Quiet, Replayed, MemoryOk, Aggregate, DurableMetrics, Groups;
    ReachableMemory(ss, acts, n);
    ReachableInv(ss, acts, n);
    ReachableDistinct(ss, acts, n);
    TableCompleteIff(s, b);
    QuietHasAllIff(s, b);
    StoredIsAccepted(s, tenant);
    var rows := Rows(s.applied[b]);
    OfTenantPermuted(rows, s.accepted, tenant);
    forall e | e in OfTenant(rows, tenant)
      ensures e in s.accepted
    {
      assert e in multiset(OfTenant(rows, tenant));
      OfTenantCounts(rows, tenant, e);
      assert e in multiset(s.accepted);
    }
    if Groups(groups, OfTenant(rows, tenant), service, w) {
      QueriesAgree(groups, OfTenant(rows, tenant), EventsOf(s.memory, tenant), service, w);
    }
  }

  /** What memory has for a tenant, once everybody is through with it, are the tenant's
      accepted events. */
  lemma StoredIsAccepted(s: State, tenant: string)
    requires Inv(s) && MemoryOk(s) && tenant != "" && Timestamped(s.accepted)
    requires forall n: nat :: n < |s.accepted| ==> n in s.written
    ensures multiset(EventsOf(s.memory, tenant)) == multiset(OfTenant(s.accepted, tenant))
  {
    MemoryHasEachOnce(s);
    ArrivedStamped(s.accepted, s.written, s.writtenAt);
    assert EventsOf(s.memory, tenant) == OfTenant(AsStored(s.accepted, s.written, s.writtenAt), tenant);
    hide Inv, AsStored, Arrived;
    OfTenantPermuted(AsStored(s.accepted, s.written, s.writtenAt), s.accepted, tenant);
  }
}
