/**
 A run in which a slower backend comes to rest after faults: one write fails, another
 reports an error although it took effect, and replay brings what was missing.
 */
module MeteringRest {
  import opened MeteringMemory
  import opened SegmentLog
  import opened MeteringMachine
  import opened MeteringSafety
  import opened MeteringPaths
  import opened MeteringResults
  import Breaking = CircuitBreaker
  import Dedup = EventDedup

  /** Nothing is under way, and the only slower backend takes writes. */
  ghost predicate Idle(t: State, b: string) {
    && t.config.names == [b] && t.config.capacity > 0 && b != MEMORY && t.tasks == map[] && t.replay == Resting
    && b in t.queues && t.queues[b] == [] && b in t.applied
    && b in t.breakers && t.breakers[b].state.Closed? && t.breakers[b].failures + 1 < t.breakers[b].threshold
    && t.log.active in t.log.segments
  }

  /** A caller has the event accepted and written to memory. */
  lemma Accepted(s: State, t: State, b: string, e: Event) returns (u: State)
    requires Leads(s, t) && Inv(t) && Idle(t, b) && !Dedup.Duplicate(t.seen, e.id)
    ensures Leads(s, u) && Inv(u)
    ensures var op := RecordEvent(|t.accepted|, e);
            u == t.(seen := Dedup.Checked(t.seen, e.id, t.clock), accepted := t.accepted + [e], acceptedAt := t.acceptedAt + [t.clock],
                    memory := Record(t.memory, e, t.clock), written := t.written + [|t.accepted|], writtenAt := t.writtenAt + [t.clock],
                    tasks := map[Caller(0) := Task(op, [b], AtBreaker, true)])
  {
    hide Inv, Leads, CoreOf, SameWaiting, Record, Dedup.Checked;
    LeadsOn(s, t, Submit(0, e));
    var t1 := Next(t, Submit(0, e));
    LeadsOn(s, t1, WriteMemory(Caller(0)));
    u := Next(t1, WriteMemory(Caller(0)));
  }

  /** It goes through the channel to the worker, which is let through. */
  lemma Handed(s: State, t: State, b: string, op: Op) returns (u: State)
    requires Leads(s, t) && Inv(t) && op.RecordEvent? && t.tasks == map[Caller(0) := Task(op, [b], AtBreaker, true)]
    requires Idle(t.(tasks := map[]), b)
    ensures Leads(s, u) && Inv(u) && u == t.(tasks := map[Worker(b) := Task(op, [b], AtBackend, false)])
  {
    hide Inv, Leads, CoreOf, SameWaiting;
    LeadsOn(s, t, Consult(Caller(0)));
    var t1 := Next(t, Consult(Caller(0)));
    assert t1 == t.(tasks := map[Caller(0) := Task(op, [b], AtQueue, true)]);
    LeadsOn(s, t1, Send(Caller(0)));
    var t2 := Next(t1, Send(Caller(0)));
    assert t1.tasks - {Caller(0)} == map[] && t.queues[b] + [op] == [op];
    assert t2 == t.(tasks := map[], queues := t.queues[b := [op]]);
    u := TakenUp(s, t2, b, op);
    assert u == t.(tasks := map[Worker(b) := Task(op, [b], AtBackend, false)]);
  }

  lemma TakenUp(s: State, t: State, b: string, op: Op) returns (u: State)
    requires Leads(s, t) && Inv(t) && op.RecordEvent? && t.tasks == map[] && b in t.queues && t.queues[b] == [op]
    requires b != MEMORY && b in t.breakers && t.breakers[b].state.Closed?
    ensures Leads(s, u) && Inv(u) && u == t.(tasks := map[Worker(b) := Task(op, [b], AtBackend, false)], queues := t.queues[b := []])
  {
    hide Inv, Leads, CoreOf, SameWaiting;
    LeadsOn(s, t, Take(b));
    var t1 := Next(t, Take(b));
    assert t1 == t.(tasks := map[Worker(b) := Task(op, [b], AtBreaker, false)], queues := t.queues[b := []]);
    LeadsOn(s, t1, Consult(Worker(b)));
    u := Next(t1, Consult(Worker(b)));
  }

  /** The write reports an error, and the worker logs the event. */
  lemma FailedAndLogged(s: State, t: State, b: string, op: Op, stored: bool) returns (u: State)
    requires Leads(s, t) && Inv(t) && op.RecordEvent? && t.tasks == map[Worker(b) := Task(op, [b], AtBackend, false)]
    requires b != MEMORY && b in t.breakers && b in t.applied && t.log.active in t.log.segments
    ensures Leads(s, u) && Inv(u)
    ensures u == t.(tasks := map[], breakers := t.breakers[b := Breaking.Failing(t.breakers[b], t.clock)],
                    applied := if stored then t.applied[b := t.applied[b] + [op]] else t.applied,
                    log := t.log.Appended(Entry(b, op), 1, t.clock))
  {
    hide Inv, Leads, CoreOf, SameWaiting, Breaking.Failing, Log.Appended;
    var o := Worker(b);
    LeadsOn(s, t, Write(o, false, stored));
    var t1 := Next(t, Write(o, false, stored));
    assert t1 == t.(tasks := map[o := Task(op, [b], AtReport(false), false)],
                    applied := if stored then t.applied[b := t.applied[b] + [op]] else t.applied);
    u := ReportedAndLogged(s, t1, b, op);
  }

  lemma ReportedAndLogged(s: State, t: State, b: string, op: Op) returns (u: State)
    requires Leads(s, t) && Inv(t) && op.RecordEvent? && t.tasks == map[Worker(b) := Task(op, [b], AtReport(false), false)]
    requires b != MEMORY && b in t.breakers && t.log.active in t.log.segments
    ensures Leads(s, u) && Inv(u)
    ensures u == t.(tasks := map[], breakers := t.breakers[b := Breaking.Failing(t.breakers[b], t.clock)],
                    log := t.log.Appended(Entry(b, op), 1, t.clock))
  {
    hide Inv, Leads, CoreOf, SameWaiting, Breaking.Failing, Log.Appended;
    var o := Worker(b);
    LeadsOn(s, t, Report(o));
    var t1 := Next(t, Report(o));
    assert t1.tasks == map[o := Task(op, [b], AtLog, false)];
    LeadsOn(s, t1, AppendLog(o, 1));
    u := Next(t1, AppendLog(o, 1));
  }

  /** One event whose write reports an error, from acceptance to the log. */
  lemma FailedEvent(s: State, t: State, b: string, e: Event, stored: bool) returns (u: State)
    requires Leads(s, t) && Inv(t) && Idle(t, b) && !Dedup.Duplicate(t.seen, e.id)
    ensures Leads(s, u) && Inv(u) && u.config == t.config && u.clock == t.clock && u.tasks == map[] && u.replay == Resting
    ensures b in u.queues && u.queues[b] == [] && u.seen == Dedup.Checked(t.seen, e.id, t.clock) && u.accepted == t.accepted + [e]
    ensures b in u.breakers && u.breakers[b] == Breaking.Failing(t.breakers[b], t.clock)
    ensures var op := RecordEvent(|t.accepted|, e);
            && u.log == t.log.Appended(Entry(b, op), 1, t.clock)
            && b in u.applied && u.applied[b] == t.applied[b] + if stored then [op] else []
  {
    hide Inv, Leads, Record, Dedup.Checked, Breaking.Failing, Log.Appended;
    var op := RecordEvent(|t.accepted|, e);
    var t1 := Accepted(s, t, b, e);
    assert Idle(t1.(tasks := map[]), b);
    var t2 := Handed(s, t1, b, op);
    u := FailedAndLogged(s, t2, b, op, stored);
  }

  /** A pass over one sealed segment of one line that succeeds. */
  lemma ReplayedSegment(s: State, t: State, b: string, k: nat, e: Entry) returns (u: State)
    requires Leads(s, t) && Inv(t) && t.replay == Resting && k in t.log.segments && k != t.log.active && t.log.segments[k] == [e]
    requires e.backend == b && b in t.breakers && b in t.applied && t.breakers[b].state.Closed?
    ensures Leads(s, u) && Inv(u) && u.log == t.log.Deleted(k) && u.tasks == t.tasks && u.queues == t.queues && u.accepted == t.accepted
    ensures u.config == t.config && u.applied == t.applied[b := t.applied[b] + [e.op]]
  {
    hide Inv, Leads, CoreOf;
    LeadsOn(s, t, BeginPass);
    var t1 := Next(t, BeginPass);
    LeadsOn(s, t1, OpenSegment(k));
    var t2 := Next(t1, OpenSegment(k));
    var rest := t.log.segments.Keys - {t.log.active} - {k};
    assert t2 == t.(replay := Inside(rest, k, 0, AtBreaker, true));
    var t3 := ReplayedLine(s, t2, b, e);
    LeadsOn(s, t3, CloseSegment);
    u := Next(t3, CloseSegment);
  }

  lemma ReplayedLine(s: State, t: State, b: string, e: Entry) returns (u: State)
    requires Leads(s, t) && Inv(t) && t.replay.Inside? && t.replay.stage == AtBreaker && t.replay.allOk
    requires MoreLines(t) && Line(t) == e && e.backend == b
    requires b in t.breakers && b in t.applied && t.breakers[b].state.Closed?
    ensures Leads(s, u) && Inv(u)
    ensures u == t.(replay := t.replay.(line := t.replay.line + 1), applied := t.applied[b := t.applied[b] + [e.op]],
                    breakers := t.breakers[b := Breaking.Closing(t.breakers[b])])
  {
    hide Inv, Leads, CoreOf;
    LeadsOn(s, t, ReplayConsult);
    var t1 := Next(t, ReplayConsult);
    assert t1 == t.(replay := t.replay.(stage := AtBackend));
    LeadsOn(s, t1, ReplayWrite(true, true));
    var t2 := Next(t1, ReplayWrite(true, true));
    u := ReplayedReport(s, t2, b);
  }

  lemma ReplayedReport(s: State, t: State, b: string) returns (u: State)
    requires Leads(s, t) && Inv(t) && t.replay.Inside? && t.replay.stage == AtReport(true) && t.replay.allOk
    requires MoreLines(t) && Line(t).backend == b && b in t.breakers
    ensures Leads(s, u) && Inv(u)
    ensures u == t.(replay := t.replay.(line := t.replay.line + 1, stage := AtBreaker), breakers := t.breakers[b := Breaking.Closing(t.breakers[b])])
  {
    hide Inv, Leads, CoreOf;
    LeadsOn(s, t, ReplayReport);
    u := Next(t, ReplayReport);
  }

  function Beginning(b: string): State {
    Start(Config([b], 1, 1), Breaking.Fresh(5, 1), Limits(1, 1), 0)
  }

  lemma BeginningIdle(b: string)
    requires b != MEMORY
    ensures IsStart(Beginning(b)) && Idle(Beginning(b), b)
    ensures var s := Beginning(b);
            s.seen == map[] && s.accepted == [] && s.applied[b] == [] && s.clock == 0
            && s.breakers[b] == Breaking.Fresh(5, 1) && s.log == Log(map[1 := []], 1, 0, 0, Limits(1, 1))
  {
    var s := Beginning(b);
    assert s.log == Log(map[1 := []], 1, 0, 0, Limits(1, 1));
    assert s.config == Config([b], 1, 1);
  }

  /** The first event's write fails, the second's only says so; after replay of the first
      the backend is at rest with both, though the log still has the second. */
  lemma RestAfterFaults(b: string, e: Event, f: Event) returns (u: State)
    requires b != MEMORY && e.id != f.id
    ensures Reachable(u) && Inv(u) && u.config.names == [b] && u.accepted == [e, f]
    ensures Quiet(u, b) && Replayed(u, b) && !u.log.Empty()
    ensures b in u.applied && u.applied[b] == [RecordEvent(1, f), RecordEvent(0, e)]
  {
    hide Inv, Leads, Reachable, Idle, IsStart, Beginning, Log.Appended, Breaking.Failing, Dedup.Checked, Dedup.Duplicate;
    var s := Beginning(b);
    BeginningIdle(b);
    StartReachable(s);
    LeadsToItself(s);
    FirstSteps(b, e, f);
    TwoFailures(e, f);
    var t := FailedEvent(s, s, b, e, false);
    IdleAgain(s, t, b);
    var v := FailedEvent(s, t, b, f, true);
    u := ReplayedSegment(s, v, b, 1, Entry(b, RecordEvent(0, e)));
    LeadsInv(s, v);
    ReachableOn(s, u);
    assert u.log.segments == map[2 := [Entry(b, RecordEvent(1, f))]];
    assert u.applied[b][0] == RecordEvent(1, f);
    OnlySecondLeft(u, b, RecordEvent(1, f));
    assert u.applied[b] == [RecordEvent(1, f), RecordEvent(0, e)];
  }

  lemma FirstSteps(b: string, e: Event, f: Event)
    ensures var log := Log(map[1 := []], 1, 0, 0, Limits(1, 1));
            var first, second := Entry(b, RecordEvent(0, e)), Entry(b, RecordEvent(1, f));
            && log.Appended(first, 1, 0) == Log(map[1 := [first]], 1, 1, 0, Limits(1, 1))
            && Log(map[1 := [first]], 1, 1, 0, Limits(1, 1)).Appended(second, 1, 0) == Log(map[1 := [first], 2 := [second]], 2, 1, 0, Limits(1, 1))
  {
    var log := Log(map[1 := []], 1, 0, 0, Limits(1, 1));
    var first, second := Entry(b, RecordEvent(0, e)), Entry(b, RecordEvent(1, f));
    assert log.Appended(first, 1, 0) == log.Put(first, 1);
    assert [] + [first] == [first] && [] + [second] == [second];
    assert log.Put(first, 1).segments == map[1 := [first]];
    var one := Log(map[1 := [first]], 1, 1, 0, Limits(1, 1));
    assert one.Appended(second, 1, 0) == one.Rotated(0).Put(second, 1);
    assert one.Rotated(0).Put(second, 1).segments == map[1 := [first], 2 := [second]];
  }

  lemma TwoFailures(e: Event, f: Event)
    requires e.id != f.id
    ensures Breaking.Failing(Breaking.Fresh(5, 1), 0) == Breaking.Fresh(5, 1).(failures := 1)
    ensures Breaking.Failing(Breaking.Fresh(5, 1).(failures := 1), 0) == Breaking.Fresh(5, 1).(failures := 2)
    ensures !Dedup.Duplicate(map[], e.id) && !Dedup.Duplicate(Dedup.Checked(map[], e.id, 0), f.id)
  {
  }

  lemma OnlySecondLeft(u: State, b: string, op: Op)
    requires u.log.segments == map[2 := [Entry(b, op)]]
    requires b in u.applied && op in u.applied[b] && op.RecordEvent?
    ensures Replayed(u, b) && !u.log.Empty()
  {
    assert u.log.segments[2] != [];
    forall x: Op | u.log.Holds(Entry(b, x))
      ensures x == op
    {
      var k: nat, i: nat :| u.log.At(k, i, Entry(b, x));
    }
  }

  lemma IdleAgain(s: State, t: State, b: string)
    requires Idle(s, b) && t.config == s.config && t.tasks == map[] && t.replay == Resting && b in t.queues && t.queues[b] == []
    requires b in t.applied && b in t.breakers && t.breakers[b].state.Closed? && t.breakers[b].failures + 1 < t.breakers[b].threshold
    requires t.log.active in t.log.segments
    ensures Idle(t, b)
  {
  }
}
