/**
 The metering machine's invariant holds in every reachable state, whatever the
 interleaving and whatever fails.
 */
module MeteringSafety {
  import opened Calendar
  import opened MeteringMemory
  import opened SegmentLog
  import opened MeteringMachine
  import Breaking = CircuitBreaker
  import Dedup = EventDedup

  // ---- nothing lost ----

  ghost predicate Keeps(s: State, s': State) {
    forall b, op: Op {:trigger Located(s, b, op)} {:trigger Located(s', b, op)} ::
      b != MEMORY && !op.Query? && Located(s, b, op) ==> Located(s', b, op)
  }

  /** A step of one task keeps everything located when what that task carried still is. */
  lemma OneTaskMoves(s: State, s': State, o: Owner)
    requires forall p :: p in s.tasks && p != o ==> p in s'.tasks && s'.tasks[p] == s.tasks[p]
    requires o in s.tasks && !s.tasks[o].op.Query? ==>
               forall b :: b in s.tasks[o].todo && b != MEMORY ==> Located(s', b, s.tasks[o].op)
    requires forall b, op :: b in s.queues && op in s.queues[b] ==> Located(s', b, op)
    requires forall b, op :: b in s.applied && op in s.applied[b] ==> b in s'.applied && op in s'.applied[b]
    requires forall e :: s.log.Holds(e) ==> s'.log.Holds(e)
    ensures Keeps(s, s')
  {
    forall b, op: Op | b != MEMORY && !op.Query? && Located(s, b, op)
      ensures Located(s', b, op)
    {
      if InHand(s, b, op) {
        var p :| p in s.tasks && s.tasks[p].op == op && b in s.tasks[p].todo;
        if p != o {
          assert p in s'.tasks;
        }
      }
    }
  }

  lemma InHandOf(s: State, o: Owner, b: string)
    requires o in s.tasks && b in s.tasks[o].todo
    ensures Located(s, b, s.tasks[o].op)
  {
    assert InHand(s, b, s.tasks[o].op);
  }

  /** Finishing with a backend gives up only that backend. */
  lemma DoneCarries(s: State, o: Owner, b: string)
    requires o in s.tasks && s.tasks[o].todo != []
    requires b in s.tasks[o].todo && b != s.tasks[o].todo[0]
    ensures Located(Done(s, o), b, s.tasks[o].op)
  {
    var t := s.tasks[o];
    var i :| 0 <= i < |t.todo| && t.todo[i] == b;
    assert t.todo[1..][i - 1] == b;
    InHandOf(Done(s, o), o, b);
  }

  lemma MoveKeeps(s: State, o: Owner, stage: Stage)
    requires o in s.tasks
    ensures Keeps(s, Moved(s, o, stage))
  {
    forall b | b in s.tasks[o].todo
      ensures Located(Moved(s, o, stage), b, s.tasks[o].op)
    {
      InHandOf(Moved(s, o, stage), o, b);
    }
    OneTaskMoves(s, Moved(s, o, stage), o);
  }

  lemma DoneKeeps(s: State, o: Owner)
    requires o in s.tasks && s.tasks[o].todo != []
    requires !s.tasks[o].op.Query? && s.tasks[o].todo[0] != MEMORY ==> Located(Done(s, o), s.tasks[o].todo[0], s.tasks[o].op)
    ensures Keeps(s, Done(s, o))
  {
    var t := s.tasks[o];
    forall b | b in t.todo && b != MEMORY && !t.op.Query?
      ensures Located(Done(s, o), b, t.op)
    {
      if b != t.todo[0] { DoneCarries(s, o, b); }
    }
    OneTaskMoves(s, Done(s, o), o);
  }

  /** Changes that leave tasks, channels, log and stores at least as full. */
  lemma NoTaskMoves(s: State, s': State)
    requires s'.tasks == s.tasks && s'.log == s.log
    requires forall b, op :: b in s.queues && op in s.queues[b] ==> b in s'.queues && op in s'.queues[b]
    requires forall b, op :: b in s.applied && op in s.applied[b] ==> b in s'.applied && op in s'.applied[b]
    ensures Keeps(s, s')
  {
    forall b, op: Op | b != MEMORY && !op.Query? && Located(s, b, op)
      ensures Located(s', b, op)
    {
      if InHand(s, b, op) {
        assert InHand(s', b, op);
      }
    }
  }

  lemma KeepsTransitive(a: State, b: State, c: State)
    requires Keeps(a, b) && Keeps(b, c)
    ensures Keeps(a, c)
  {
    forall x, op: Op | x != MEMORY && !op.Query? && Located(a, x, op)
      ensures Located(c, x, op)
    {
      assert Located(b, x, op);
    }
  }

  lemma SubmitKeeps(s: State, c: nat, e: Event)
    requires Inv(s) && Caller(c) !in s.tasks
    ensures Keeps(s, Submitted(s, c, e))
  {
    OneTaskMoves(s, Submitted(s, c, e), Caller(c));
  }

  lemma WriteMemoryKeeps(s: State, o: Owner)
    requires Inv(s) && At(s, o, AtMemory)
    ensures Keeps(s, WrittenToMemory(s, o))
  {
    var s' := WrittenToMemory(s, o);
    forall b | b in s.tasks[o].todo
      ensures Located(s', b, s.tasks[o].op)
    {
      InHandOf(s', o, b);
    }
    OneTaskMoves(s, s', o);
  }

  lemma ConsultKeeps(s: State, o: Owner)
    requires Inv(s) && At(s, o, AtBreaker)
    ensures Keeps(s, Consulted(s, o))
  {
    var t := s.tasks[o];
    var b := t.todo[0];
    var s' := s.(breakers := s.breakers[b := Breaking.Consulted(s.breakers[b], s.clock)]);
    NoTaskMoves(s, s');
    if Breaking.Admits(s.breakers[b], s.clock) {
      MoveKeeps(s', o, if t.queued then AtQueue else AtBackend);
      KeepsTransitive(s, s', Consulted(s, o));
    } else if t.op.Query? {
      DoneKeeps(s, o);
    } else {
      MoveKeeps(s, o, AtLog);
    }
  }

  lemma SendKeeps(s: State, o: Owner)
    requires Inv(s) && At(s, o, AtQueue)
    ensures Keeps(s, Sent(s, o))
  {
    var op, b := s.tasks[o].op, s.tasks[o].todo[0];
    if |s.queues[b]| < s.config.capacity {
      var s' := s.(queues := s.queues[b := s.queues[b] + [op]]);
      NoTaskMoves(s, s');
      assert op == s'.queues[b][|s.queues[b]|];
      DoneKeeps(s', o);
      KeepsTransitive(s, s', Sent(s, o));
    } else {
      MoveKeeps(s, o, AtLog);
    }
  }

  lemma ApplyKeeps(s: State, b: string, op: Op)
    requires b in s.applied
    ensures Keeps(s, s.(applied := s.applied[b := s.applied[b] + [op]]))
    ensures op in (s.applied[b] + [op])
  {
    assert (s.applied[b] + [op])[|s.applied[b]|] == op;
    NoTaskMoves(s, s.(applied := s.applied[b := s.applied[b] + [op]]));
  }

  lemma WriteKeeps(s: State, o: Owner, ok: bool, stored: bool)
    requires Inv(s) && Enabled(s, Write(o, ok, stored))
    ensures Keeps(s, WrittenToBackend(s, o, ok, stored))
  {
    var t := s.tasks[o];
    var b := t.todo[0];
    if t.op.Query? {
      if ok { MoveKeeps(s, o, AtReport(true)); } else { DoneKeeps(s, o); }
    } else if b == MEMORY {
      var s' := if t.op.RegisterSub? then s.(memory := Register(s.memory, t.op.sub, s.clock)) else s;
      NoTaskMoves(s, s');
      MoveKeeps(s', o, AtReport(ok));
      KeepsTransitive(s, s', WrittenToBackend(s, o, ok, stored));
    } else {
      var s' := if stored then s.(applied := s.applied[b := s.applied[b] + [t.op]]) else s;
      ApplyKeeps(s, b, t.op);
      MoveKeeps(s', o, AtReport(ok));
      KeepsTransitive(s, s', WrittenToBackend(s, o, ok, stored));
    }
  }

  lemma ReportKeeps(s: State, o: Owner)
    requires Inv(s) && Enabled(s, Report(o))
    ensures Keeps(s, Reported(s, o))
  {
    var t := s.tasks[o];
    var b := t.todo[0];
    if t.stage.ok {
      var s' := s.(breakers := s.breakers[b := Breaking.Closing(s.breakers[b])]);
      NoTaskMoves(s, s');
      if t.op.Query? {
        OneTaskMoves(s, Reported(s, o), o);
      } else {
        DoneKeeps(s', o);
        KeepsTransitive(s, s', Reported(s, o));
      }
    } else {
      var s' := s.(breakers := s.breakers[b := Breaking.Failing(s.breakers[b], s.clock)]);
      NoTaskMoves(s, s');
      MoveKeeps(s', o, AtLog);
      KeepsTransitive(s, s', Reported(s, o));
    }
  }

  lemma LogKeeps(s: State, o: Owner, size: nat)
    requires Inv(s) && At(s, o, AtLog)
    ensures Keeps(s, Logged(s, o, size))
  {
    var t := s.tasks[o];
    var entry := Entry(t.todo[0], t.op);
    var s' := s.(log := s.log.Appended(entry, size, s.clock));
    forall e | s.log.Holds(e)
      ensures s'.log.Holds(e)
    {
      AppendHolds(s.log, entry, size, s.clock, e);
    }
    AppendHolds(s.log, entry, size, s.clock, entry);
    forall b | b in t.todo
      ensures Located(s', b, t.op)
    {
      InHandOf(s', o, b);
    }
    OneTaskMoves(s, s', o);
    DoneKeeps(s', o);
    KeepsTransitive(s, s', Logged(s, o, size));
  }

  lemma TakeKeeps(s: State, b: string)
    requires Inv(s) && Enabled(s, Take(b))
    ensures Keeps(s, Taken(s, b))
  {
    var s' := Taken(s, b);
    forall c, op | c in s.queues && op in s.queues[c]
      ensures Located(s', c, op)
    {
      if c == b {
        var i :| 0 <= i < |s.queues[b]| && s.queues[b][i] == op;
        if i == 0 {
          assert b in s'.tasks[Worker(b)].todo;
          InHandOf(s', Worker(b), b);
        } else {
          assert s'.queues[b][i - 1] == op;
        }
      }
    }
    OneTaskMoves(s, s', Worker(b));
  }

  /** The one step that takes entries off the disk: each of them has been applied. */
  lemma CloseKeeps(s: State)
    requires Inv(s) && Enabled(s, CloseSegment)
    ensures Keeps(s, SegmentClosed(s))
  {
    var s' := SegmentClosed(s);
    forall b, op: Op | b != MEMORY && !op.Query? && Located(s, b, op)
      ensures Located(s', b, op)
    {
      if InHand(s, b, op) {
        assert InHand(s', b, op);
      } else if s.log.Holds(Entry(b, op)) {
        var k: nat, i: nat :| s.log.At(k, i, Entry(b, op));
        if k == s.replay.segment && s.replay.allOk {
          assert AppliedEntry(s.applied, s.log.segments[k][i]);
        } else {
          assert s'.log.At(k, i, Entry(b, op));
        }
      }
    }
  }

  // ---- shape ----

  /** Accepting one more event leaves earlier tickets meaning what they did. */
  lemma AcceptingKeepsGenuine(s: State, e: Event)
    requires Shaped(s)
    ensures TasksOk(s.config.names, s.accepted + [e], s.tasks)
    ensures QueuesOk(s.config, s.accepted + [e], s.queues)
    ensures AppliedOk(s.config.names, s.accepted + [e], s.applied)
    ensures LogOk(s.config.names, s.accepted + [e], s.log)
  {
    assert forall op :: Genuine(s.accepted, op) ==> Genuine(s.accepted + [e], op);
  }

  lemma SubmitShaped(s: State, c: nat, e: Event)
    requires Inv(s) && Caller(c) !in s.tasks
    ensures Shaped(Submitted(s, c, e))
  {
    hide LogOk, QueuesOk, AppliedOk, ReplayOk, BreakersOk, ConfigOk, WrittenOk, NothingLost, Dedup.Checked;
    AcceptingKeepsGenuine(s, e);
    var op := RecordEvent(|s.accepted|, e);
    assert Genuine(s.accepted + [e], op);
    assert MEMORY !in s.config.names by { NamesAvoidMemory(s.config); }
  }

  lemma NamesAvoidMemory(c: Config)
    requires ConfigOk(c)
    ensures MEMORY !in c.names
  {
  }

  lemma StartShaped(s: State, c: nat, op: Op)
    requires Inv(s) && Caller(c) !in s.tasks && !op.RecordEvent?
    ensures Shaped(s.(tasks := s.tasks[Caller(c) := Task(op, [MEMORY] + s.config.names, AtBreaker, false)]))
  {
  }

  lemma MovedShaped(s: State, o: Owner, stage: Stage)
    requires Shaped(s) && o in s.tasks
    requires TaskOk(s.config.names, s.accepted, o, s.tasks[o].(stage := stage))
    requires stage == AtReport(true) && !s.tasks[o].op.Query? && s.tasks[o].todo != [] && s.tasks[o].todo[0] != MEMORY ==>
               s.tasks[o].todo[0] in s.applied && s.tasks[o].op in s.applied[s.tasks[o].todo[0]]
    ensures Shaped(Moved(s, o, stage))
  {
  }

  lemma DoneShaped(s: State, o: Owner)
    requires Shaped(s) && o in s.tasks
    ensures Shaped(Done(s, o))
  {
    var t := s.tasks[o];
    if |t.todo| > 1 {
      var t' := t.(todo := t.todo[1..], stage := AtBreaker);
      forall i | 0 <= i < |t'.todo|
        ensures t'.todo[i] in s.config.names
      {
        assert t'.todo[i] == t.todo[i + 1];
      }
      assert TaskOk(s.config.names, s.accepted, o, t');
    }
  }

  lemma WriteMemoryShaped(s: State, o: Owner)
    requires Inv(s) && At(s, o, AtMemory)
    ensures Shaped(WrittenToMemory(s, o))
  {
    var t := s.tasks[o];
    var s' := s.(memory := Record(s.memory, t.op.event, s.clock), written := s.written + [t.op.ticket],
                writtenAt := s.writtenAt + [s.clock]);
    if t.todo != [] { MovedShaped(s', o, AtBreaker); }
  }

  lemma ConsultShaped(s: State, o: Owner)
    requires Inv(s) && At(s, o, AtBreaker)
    ensures Shaped(Consulted(s, o))
  {
    var t := s.tasks[o];
    var b := t.todo[0];
    if Breaking.Admits(s.breakers[b], s.clock) {
      var s' := s.(breakers := s.breakers[b := Breaking.Consulted(s.breakers[b], s.clock)]);
      MovedShaped(s', o, if t.queued then AtQueue else AtBackend);
    } else if t.op.Query? {
      DoneShaped(s, o);
    } else {
      MovedShaped(s, o, AtLog);
    }
  }

  lemma SendShaped(s: State, o: Owner)
    requires Inv(s) && At(s, o, AtQueue)
    ensures Shaped(Sent(s, o))
  {
    hide AppliedOk, LogOk, ReplayOk, BreakersOk, WrittenOk, NothingLost, ConfigOk;
    NamesAvoidMemory(s.config);
    var b := s.tasks[o].todo[0];
    if |s.queues[b]| < s.config.capacity {
      DoneShaped(s.(queues := s.queues[b := s.queues[b] + [s.tasks[o].op]]), o);
    } else {
      MovedShaped(s, o, AtLog);
    }
  }

  lemma ApplyShaped(s: State, b: string, op: Op)
    requires Shaped(s) && b in s.applied && !op.Query? && Genuine(s.accepted, op)
    ensures Shaped(s.(applied := s.applied[b := s.applied[b] + [op]]))
  {
  }

  lemma WriteShaped(s: State, o: Owner, ok: bool, stored: bool)
    requires Inv(s) && Enabled(s, Write(o, ok, stored))
    ensures Shaped(WrittenToBackend(s, o, ok, stored))
  {
    var t := s.tasks[o];
    var b := t.todo[0];
    if t.op.Query? {
      if ok { MovedShaped(s, o, AtReport(true)); } else { DoneShaped(s, o); }
    } else if b == MEMORY {
      var s' := if t.op.RegisterSub? then s.(memory := Register(s.memory, t.op.sub, s.clock)) else s;
      MovedShaped(s', o, AtReport(ok));
    } else {
      var s' := if stored then s.(applied := s.applied[b := s.applied[b] + [t.op]]) else s;
      if stored {
        ApplyShaped(s, b, t.op);
        assert s'.applied[b][|s.applied[b]|] == t.op;
      }
      MovedShaped(s', o, AtReport(ok));
    }
  }

  lemma ReportShaped(s: State, o: Owner)
    requires Inv(s) && Enabled(s, Report(o))
    ensures Shaped(Reported(s, o))
  {
    var t := s.tasks[o];
    var b := t.todo[0];
    if t.stage.ok {
      var s' := s.(breakers := s.breakers[b := Breaking.Closing(s.breakers[b])]);
      if !t.op.Query? { DoneShaped(s', o); }
    } else {
      MovedShaped(s.(breakers := s.breakers[b := Breaking.Failing(s.breakers[b], s.clock)]), o, AtLog);
    }
  }

  /** Replay's bookkeeping survives anything appended meanwhile. */
  lemma GrownReplay(a: Log<Entry>, b: Log<Entry>, applied: map<string, seq<Op>>, r: Replay)
    requires a.Valid() && b.Valid() && Grown(a, b) && ReplayOk(a, applied, r)
    ensures ReplayOk(b, applied, r)
  {
  }

  lemma LogShaped(s: State, o: Owner, size: nat)
    requires Inv(s) && At(s, o, AtLog)
    ensures Shaped(Logged(s, o, size))
  {
    TodoNonEmpty(s, o);
    LoggableEntry(s, o);
    var t := s.tasks[o];
    AppendedShaped(s, Entry(t.todo[0], t.op), size, s.clock);
    hide Inv, Shaped;
    DoneShaped(s.(log := s.log.Appended(Entry(t.todo[0], t.op), size, s.clock)), o);
  }

  lemma LoggableEntry(s: State, o: Owner)
    requires Inv(s) && At(s, o, AtLog) && s.tasks[o].todo != []
    ensures EntryOk(s.config.names, s.accepted, Entry(s.tasks[o].todo[0], s.tasks[o].op))
  {
    hide AppliedOk, QueuesOk, ReplayOk, BreakersOk, WrittenOk, NothingLost, LogOk;
    assert TaskOk(s.config.names, s.accepted, o, s.tasks[o]);
    assert s.tasks[o].todo[0] in s.tasks[o].todo;
  }

  lemma AppendedShaped(s: State, e: Entry, size: nat, now: Instant)
    requires Shaped(s) && EntryOk(s.config.names, s.accepted, e)
    ensures Shaped(s.(log := s.log.Appended(e, size, now)))
  {
    hide AppliedOk, QueuesOk, ReplayOk, BreakersOk, ConfigOk, TasksOk, ReportsOk, EntryOk;
    var l := s.log.Appended(e, size, now);
    AppendGrows(s.log, e, size, now);
    GrownReplay(s.log, l, s.applied, s.replay);
  }

  lemma TakeShaped(s: State, b: string)
    requires Inv(s) && Enabled(s, Take(b))
    ensures Shaped(Taken(s, b))
  {
    hide AppliedOk, LogOk, ReplayOk, BreakersOk, WrittenOk, NothingLost, ConfigOk;
    var s' := Taken(s, b);
    assert Genuine(s.accepted, s.queues[b][0]) && s.queues[b][0].RecordEvent?;
    assert s.queues[b][0] in s.queues[b];
    assert MEMORY !in s.config.names by { NamesAvoidMemory(s.config); }
    assert TaskOk(s.config.names, s.accepted, Worker(b), s'.tasks[Worker(b)]);
  }

  lemma ReplayConsultShaped(s: State)
    requires Inv(s) && Enabled(s, ReplayConsult)
    ensures Shaped(ReplayConsulted(s))
  {
    hide TasksOk, QueuesOk, AppliedOk, ReportsOk, ConfigOk, WrittenOk, NothingLost;
  }

  lemma ReplayWriteShaped(s: State, ok: bool, stored: bool)
    requires Inv(s) && Enabled(s, ReplayWrite(ok, stored))
    ensures Line(s).backend in s.applied
    ensures Shaped(ReplayWritten(s, ok, stored))
  {
    var b, op := Line(s).backend, Line(s).op;
    assert EntryOk(s.config.names, s.accepted, s.log.segments[s.replay.segment][s.replay.line]);
    if stored {
      ApplyShaped(s, b, op);
      assert (s.applied[b] + [op])[|s.applied[b]|] == op;
    }
    hide TasksOk, QueuesOk, AppliedOk, ReportsOk, ConfigOk, WrittenOk, NothingLost, BreakersOk, LogOk;
  }

  lemma ReplayReportShaped(s: State)
    requires Inv(s) && Enabled(s, ReplayReport)
    ensures Line(s).backend in s.breakers
    ensures Shaped(ReplayReported(s))
  {
    hide TasksOk, QueuesOk, AppliedOk, ReportsOk, ConfigOk, WrittenOk, NothingLost;
    assert EntryOk(s.config.names, s.accepted, s.log.segments[s.replay.segment][s.replay.line]);
    NamesAvoidMemory(s.config);
  }

  lemma CloseShaped(s: State)
    requires Inv(s) && Enabled(s, CloseSegment)
    ensures Shaped(SegmentClosed(s))
  {
    hide TasksOk, QueuesOk, AppliedOk, ReportsOk, ConfigOk, WrittenOk, NothingLost, BreakersOk;
  }

  lemma PassShaped(s: State, a: Action)
    requires Inv(s) && Enabled(s, a)
    requires a.BeginPass? || a.OpenSegment? || a.EndPass? || a.Prune? || a.Tick?
    ensures Shaped(Next(s, a))
  {
    hide TasksOk, QueuesOk, AppliedOk, ReportsOk, ConfigOk, WrittenOk, NothingLost, BreakersOk, LogOk;
    if a.BeginPass? { hide ReplayOk; ValidLogPass(s); }
  }

  lemma ValidLogPass(s: State)
    ensures ReplayOk(s.log, s.applied, Between(s.log.segments.Keys - {s.log.active}))
  {
  }

  // ---- memory's copy ----

  lemma WaitingKept(s: State, s': State)
    requires WrittenOk(s) && SameWaiting(s.tasks, s'.tasks)
    requires s'.written == s.written && s'.accepted == s.accepted && s'.config == s.config
    ensures WrittenOk(s')
  {
    forall n | 0 <= n < |s'.accepted| && n !in s'.written
      ensures BeforeMemory(s', n)
    {
      assert BeforeMemory(s, n);
      var o :| o in s.tasks && s.tasks[o].stage.AtMemory? && s.tasks[o].op.RecordEvent? && s.tasks[o].op.ticket == n;
      assert o in s'.tasks;
    }
  }

  lemma TasksGenuine(s: State)
    requires Shaped(s)
    ensures forall o :: o in s.tasks ==> Genuine(s.accepted, s.tasks[o].op)
  {
  }

  lemma SubmitWaiting(s: State, c: nat, e: Event)
    requires Inv(s) && Caller(c) !in s.tasks
    ensures WaitingOk(Submitted(s, c, e))
  {
    TasksGenuine(s);
    hide Shaped, NothingLost, Dedup.Checked, Dedup.Duplicate, BeforeMemory;
  }

  lemma SubmitWritten(s: State, c: nat, e: Event)
    requires Inv(s) && Caller(c) !in s.tasks
    ensures WrittenOk(Submitted(s, c, e))
  {
    TasksGenuine(s);
    hide Shaped, NothingLost, Dedup.Checked, Dedup.Duplicate, WaitingOk;
    var s' := Submitted(s, c, e);
    SubmitWaiting(s, c, e);
    forall n | 0 <= n < |s'.accepted| && n !in s'.written
      ensures BeforeMemory(s', n)
    {
      var o := Caller(c);
      if n < |s.accepted| {
        assert BeforeMemory(s, n);
        o :| o in s.tasks && s.tasks[o].stage.AtMemory? && s.tasks[o].op.RecordEvent? && s.tasks[o].op.ticket == n;
      }
      assert o in s'.tasks;
    }
  }

  /** Once in memory, an event is no longer on its way there, and no other task is
      bringing it a second time. */
  lemma WriteMemoryOnce(s: State, o: Owner)
    requires Inv(s) && At(s, o, AtMemory)
    ensures s.tasks[o].op.RecordEvent? && s.tasks[o].op.ticket !in s.written && s.tasks[o].op.ticket < |s.accepted|
    ensures forall p :: p in s.tasks && p != o && s.tasks[p].stage.AtMemory? ==>
              s.tasks[p].op.RecordEvent? && s.tasks[p].op.ticket != s.tasks[o].op.ticket
  {
    TasksGenuine(s);
    hide Shaped, NothingLost;
  }

  lemma WriteMemoryWaiting(s: State, o: Owner)
    requires Inv(s) && At(s, o, AtMemory)
    ensures WaitingOk(WrittenToMemory(s, o))
  {
    WriteMemoryOnce(s, o);
    hide Shaped, NothingLost, Record, BeforeMemory, OnceEach, WaitingOk;
    var s' := WrittenToMemory(s, o);
    FewerWaiting(s, s', o);
  }

  /** One task fewer waits, and no other has its ticket. */
  lemma FewerWaiting(s: State, s': State, o: Owner)
    requires WaitingOk(s) && At(s, o, AtMemory) && s.tasks[o].op.RecordEvent?
    requires s'.config == s.config && s'.written == s.written + [s.tasks[o].op.ticket]
    requires forall p :: p in s'.tasks && s'.tasks[p].stage.AtMemory? ==> p in s.tasks && p != o && s'.tasks[p] == s.tasks[p]
    requires forall p :: p in s.tasks && p != o && s.tasks[p].stage.AtMemory? ==>
               s.tasks[p].op.RecordEvent? && s.tasks[p].op.ticket != s.tasks[o].op.ticket
    ensures WaitingOk(s')
  {
  }

  lemma OneMore(written: seq<nat>, ticket: nat, n: nat)
    requires OnceEach(written, n) && ticket !in written && ticket < n
    ensures OnceEach(written + [ticket], n)
  {
  }

  lemma WriteMemoryWritten(s: State, o: Owner)
    requires Inv(s) && At(s, o, AtMemory)
    ensures WrittenOk(WrittenToMemory(s, o))
  {
    WriteMemoryWaiting(s, o);
    WriteMemoryOnce(s, o);
    hide Shaped, NothingLost, Record, BeforeMemory, OnceEach, WaitingOk;
    OneMore(s.written, s.tasks[o].op.ticket, |s.accepted|);
    var s' := WrittenToMemory(s, o);
    forall n | 0 <= n < |s'.accepted| && n !in s'.written
      ensures BeforeMemory(s', n)
    {
      WriteMemoryLeaves(s, o, n);
    }
  }

  lemma WriteMemoryLeaves(s: State, o: Owner, n: nat)
    requires Inv(s) && At(s, o, AtMemory)
    requires n < |s.accepted| && n !in WrittenToMemory(s, o).written
    ensures BeforeMemory(WrittenToMemory(s, o), n)
  {
    WriteMemoryOnce(s, o);
    var s' := WrittenToMemory(s, o);
    assert s'.written[|s.written|] == s.tasks[o].op.ticket;
    assert forall i :: 0 <= i < |s.written| ==> s'.written[i] == s.written[i];
    WaitingOf(s, n);
    hide Shaped, NothingLost, WrittenOk, Record;
    var p :| p in s.tasks && s.tasks[p].stage.AtMemory? && s.tasks[p].op.RecordEvent? && s.tasks[p].op.ticket == n;
    assert p != o && p in s'.tasks;
  }

  lemma WaitingOf(s: State, n: nat)
    requires WrittenOk(s) && n < |s.accepted| && n !in s.written
    ensures BeforeMemory(s, n)
  {
  }

  // ---- the invariant ----

  lemma NamesAreSlower(s: State)
    requires Inv(s)
    ensures MEMORY !in s.config.names
  {
  }

  lemma NothingLostKept(s: State, s': State)
    requires NothingLost(s) && Keeps(s, s') && MEMORY !in s.config.names
    requires s'.accepted == s.accepted && s'.config == s.config
    ensures NothingLost(s')
  {
    forall b, n: int | b in s'.config.names && 0 <= n < |s'.accepted|
      ensures Located(s', b, EventOp(s', n))
    {
      assert Located(s, b, EventOp(s, n));
    }
  }

  lemma SubmitNothingLost(s: State, c: nat, e: Event)
    requires Inv(s) && Caller(c) !in s.tasks
    ensures NothingLost(Submitted(s, c, e))
  {
    NamesAreSlower(s);
    hide Shaped, WrittenOk;
    var s' := Submitted(s, c, e);
    SubmitKeeps(s, c, e);
    forall b, n: int | b in s'.config.names && 0 <= n < |s'.accepted|
      ensures Located(s', b, EventOp(s', n))
    {
      if n < |s.accepted| {
        assert Located(s, b, EventOp(s, n)) && EventOp(s', n) == EventOp(s, n);
      } else {
        InHandOf(s', Caller(c), b);
      }
    }
  }

  lemma LineKnown(s: State)
    requires Shaped(s) && s.replay.Inside? && MoreLines(s)
    ensures Line(s).backend in s.breakers && Line(s).backend in s.applied && Line(s).backend in s.config.names
  {
    assert EntryOk(s.config.names, s.accepted, s.log.segments[s.replay.segment][s.replay.line]);
  }

  lemma Combine(s: State, s': State)
    requires Inv(s) && Shaped(s') && Keeps(s, s') && SameWaiting(s.tasks, s'.tasks)
    requires s'.written == s.written && s'.accepted == s.accepted && s'.config == s.config
    ensures Inv(s')
  {
    NamesAreSlower(s);
    hide Shaped, WrittenOk, NothingLost, Keeps, SameWaiting;
    NothingLostKept(s, s');
    WaitingKept(s, s');
  }

  lemma TodoNonEmpty(s: State, o: Owner)
    requires Inv(s) && o in s.tasks && !s.tasks[o].stage.AtMemory?
    ensures s.tasks[o].todo != [] && s.tasks[o].todo[0] in s.breakers
    ensures s.tasks[o].todo[0] != MEMORY ==> s.tasks[o].todo[0] in s.queues && s.tasks[o].todo[0] in s.applied
    ensures s.tasks[o].stage.AtQueue? || s.tasks[o].stage.AtLog? ==> s.tasks[o].todo[0] != MEMORY
    ensures s.log.Valid()
  {
    assert TaskOk(s.config.names, s.accepted, o, s.tasks[o]);
    assert s.tasks[o].todo[0] in s.tasks[o].todo;
  }

  lemma ConsultStep(s: State, o: Owner)
    requires Inv(s) && At(s, o, AtBreaker)
    ensures Inv(Consulted(s, o))
  {
    hide Inv, Shaped, WrittenOk, NothingLost, Keeps, SameWaiting, Consulted;
    TodoNonEmpty(s, o);
    var s' := Consulted(s, o);
    ConsultKeeps(s, o);
    ConsultShaped(s, o);
    Combine(s, s');
  }

  /** A query passes over an unhealthy backend. */
  lemma SkipStep(s: State, o: Owner)
    requires Inv(s) && Enabled(s, Skip(o))
    ensures Inv(Done(s, o))
  {
    DoneShaped(s, o);
    DoneKeeps(s, o);
    hide Inv, Shaped, WrittenOk, NothingLost, Keeps, SameWaiting, Done;
    Combine(s, Done(s, o));
  }

  lemma SendStep(s: State, o: Owner)
    requires Inv(s) && At(s, o, AtQueue)
    ensures Inv(Sent(s, o))
  {
    hide Inv, Shaped, WrittenOk, NothingLost, Keeps, SameWaiting, Sent;
    TodoNonEmpty(s, o);
    var s' := Sent(s, o);
    SendKeeps(s, o);
    SendShaped(s, o);
    Combine(s, s');
  }

  lemma WriteStep(s: State, o: Owner, ok: bool, stored: bool)
    requires Inv(s) && Enabled(s, Write(o, ok, stored))
    ensures Inv(WrittenToBackend(s, o, ok, stored))
  {
    hide Inv, Shaped, WrittenOk, NothingLost, Keeps, SameWaiting, WrittenToBackend;
    TodoNonEmpty(s, o);
    var s' := WrittenToBackend(s, o, ok, stored);
    WriteKeeps(s, o, ok, stored);
    WriteShaped(s, o, ok, stored);
    Combine(s, s');
  }

  lemma ReportStep(s: State, o: Owner)
    requires Inv(s) && Enabled(s, Report(o))
    ensures Inv(Reported(s, o))
  {
    hide Inv, Shaped, WrittenOk, NothingLost, Keeps, SameWaiting, Reported;
    TodoNonEmpty(s, o);
    var s' := Reported(s, o);
    ReportKeeps(s, o);
    ReportShaped(s, o);
    Combine(s, s');
  }

  lemma LogStep(s: State, o: Owner, size: nat)
    requires Inv(s) && At(s, o, AtLog)
    ensures Inv(Logged(s, o, size))
  {
    hide Inv, Shaped, WrittenOk, NothingLost, Keeps, SameWaiting, Logged;
    TodoNonEmpty(s, o);
    var s' := Logged(s, o, size);
    LogKeeps(s, o, size);
    LogShaped(s, o, size);
    Combine(s, s');
  }

  lemma TakeStep(s: State, b: string)
    requires Inv(s) && Enabled(s, Take(b))
    ensures Inv(Taken(s, b))
  {
    hide Inv, Shaped, WrittenOk, NothingLost, Keeps, Record, Register, Breaking.Consulted, Breaking.Failing, Breaking.Admits;
    var s' := Taken(s, b);
    TakeKeeps(s, b);
    TakeShaped(s, b);
    Combine(s, s');
  }

  lemma ReplayConsultStep(s: State)
    requires Inv(s) && Enabled(s, ReplayConsult)
    ensures Inv(ReplayConsulted(s))
  {
    hide Inv, Shaped, WrittenOk, NothingLost, Keeps, Breaking.Consulted, Breaking.Failing, Breaking.Admits;
    var s' := ReplayConsulted(s);
    ReplayConsultShaped(s);
    NoTaskMoves(s, s');
    Combine(s, s');
  }

  lemma ReplayReportStep(s: State)
    requires Inv(s) && Enabled(s, ReplayReport) && Line(s).backend in s.breakers
    ensures Inv(ReplayReported(s))
  {
    hide Inv, Shaped, WrittenOk, NothingLost, Keeps, Breaking.Consulted, Breaking.Failing, Breaking.Admits;
    var s' := ReplayReported(s);
    ReplayReportShaped(s);
    NoTaskMoves(s, s');
    Combine(s, s');
  }

  lemma CloseStep(s: State)
    requires Inv(s) && Enabled(s, CloseSegment)
    ensures Inv(SegmentClosed(s))
  {
    hide Inv, Shaped, WrittenOk, NothingLost, Keeps, Record, Register, Breaking.Consulted, Breaking.Failing, Breaking.Admits;
    var s' := SegmentClosed(s);
    CloseKeeps(s);
    CloseShaped(s);
    Combine(s, s');
  }

  lemma StartTaskStep(s: State, c: nat, op: Op)
    requires Inv(s) && Caller(c) !in s.tasks && !op.RecordEvent?
    ensures Inv(s.(tasks := s.tasks[Caller(c) := Task(op, [MEMORY] + s.config.names, AtBreaker, false)]))
  {
    var s' := s.(tasks := s.tasks[Caller(c) := Task(op, [MEMORY] + s.config.names, AtBreaker, false)]);
    StartShaped(s, c, op);
    OneTaskMoves(s, s', Caller(c));
    hide Shaped, WrittenOk, NothingLost, Keeps;
    Combine(s, s');
  }

  lemma ReplayWriteStep(s: State, ok: bool, stored: bool)
    requires Inv(s) && Enabled(s, ReplayWrite(ok, stored)) && Line(s).backend in s.applied
    ensures Inv(ReplayWritten(s, ok, stored))
  {
    var s' := ReplayWritten(s, ok, stored);
    ReplayWriteShaped(s, ok, stored);
    hide Shaped, WrittenOk, NothingLost;
    NoTaskMoves(s, s');
    hide Keeps;
    Combine(s, s');
  }

  lemma QuietStep(s: State, a: Action)
    requires Inv(s) && Enabled(s, a)
    requires a.BeginPass? || a.OpenSegment? || a.EndPass? || a.Prune? || a.Tick?
    ensures Inv(Next(s, a))
  {
    hide Inv, Shaped, WrittenOk, NothingLost, Keeps, Dedup.Pruned;
    var s' := Next(s, a);
    PassShaped(s, a);
    NoTaskMoves(s, s');
    Combine(s, s');
  }

  /** Every step of every goroutine keeps the invariant. */
  lemma StepKeepsInv(s: State, a: Action)
    requires Inv(s) && Enabled(s, a)
    ensures Inv(Next(s, a))
  {
    hide Shaped, WrittenOk, NothingLost;
    match a {
      case Submit(c, e) => SubmitStep(s, c, e);
      case WriteMemory(o) => WriteMemoryStep(s, o);
      case Consult(o) => ConsultStep(s, o);
      case Skip(o) => SkipStep(s, o);
      case Send(o) => SendStep(s, o);
      case Write(o, ok, stored) => WriteStep(s, o, ok, stored);
      case Report(o) => ReportStep(s, o);
      case AppendLog(o, size) => LogStep(s, o, size);
      case StartRegister(c, sub) => StartTaskStep(s, c, RegisterSub(sub));
      case StartQuery(c) => StartTaskStep(s, c, Query);
      case Take(b) => TakeStep(s, b);
      case ReplayConsult => ReplayConsultStep(s);
      case ReplayWrite(ok, stored) => LineKnown(s); ReplayWriteStep(s, ok, stored);
      case ReplayReport => LineKnown(s); ReplayReportStep(s);
      case CloseSegment => CloseStep(s);
      case BeginPass => QuietStep(s, a);
      case OpenSegment(_) => QuietStep(s, a);
      case EndPass => QuietStep(s, a);
      case Prune => QuietStep(s, a);
      case Tick(_) => QuietStep(s, a);
    }
  }

  lemma SubmitStep(s: State, c: nat, e: Event)
    requires Inv(s) && Enabled(s, Submit(c, e))
    ensures Inv(Next(s, Submit(c, e)))
  {
    SubmitShaped(s, c, e);
    SubmitWritten(s, c, e);
    SubmitNothingLost(s, c, e);
  }

  lemma WriteMemoryStep(s: State, o: Owner)
    requires Inv(s) && Enabled(s, WriteMemory(o))
    ensures Inv(Next(s, WriteMemory(o)))
  {
    var s' := WrittenToMemory(s, o);
    WriteMemoryShaped(s, o);
    WriteMemoryWritten(s, o);
    WriteMemoryKeeps(s, o);
    NothingLostKept(s, s');
  }

  lemma StartInv(c: Config, breaker: Breaking.Breaker, limits: Limits, now: Instant)
    requires ConfigOk(c) && breaker.state.Closed? && breaker.threshold > 0
    ensures Inv(Start(c, breaker, limits, now))
  {
    FreshShaped(c, breaker, limits, now);
    hide Shaped;
  }

  lemma FreshShaped(c: Config, breaker: Breaking.Breaker, limits: Limits, now: Instant)
    requires ConfigOk(c) && breaker.state.Closed? && breaker.threshold > 0
    ensures Shaped(Start(c, breaker, limits, now))
  {
    hide ConfigOk, AppliedOk, QueuesOk;
    var s := Start(c, breaker, limits, now);
    assert s.log.segments == map[1 := []];
    FreshStores(c, breaker, limits, now);
  }

  lemma FreshStores(c: Config, breaker: Breaking.Breaker, limits: Limits, now: Instant)
    ensures var s := Start(c, breaker, limits, now); AppliedOk(c.names, [], s.applied) && QueuesOk(c, [], s.queues)
  {
  }

  // ---- runs ----

  ghost predicate IsStart(s: State) {
    ConfigOk(s.config) && exists threshold, cooldown, limits, now ::
      s == Start(s.config, Breaking.Fresh(threshold, cooldown), limits, now)
  }

  /** A run: states linked by enabled steps, from a fresh start.  (A step from a state
      outside the invariant could do anything; ReachableInv shows that no run has one.) */
  ghost predicate Run(ss: seq<State>, acts: seq<Action>) {
    && |ss| == |acts| + 1
    && IsStart(ss[0])
    && forall i {:trigger acts[i]} :: 0 <= i < |acts| && Inv(ss[i]) ==>
         Enabled(ss[i], acts[i]) && ss[i + 1] == Next(ss[i], acts[i])
  }

  lemma {:induction false} ReachableInv(ss: seq<State>, acts: seq<Action>, n: nat)
    requires Run(ss, acts) && n < |ss|
    ensures Inv(ss[n]) && ss[n].config == ss[0].config
  {
    if n == 0 {
      var threshold, cooldown, limits, now :|
        ss[0] == Start(ss[0].config, Breaking.Fresh(threshold, cooldown), limits, now);
      StartInv(ss[0].config, Breaking.Fresh(threshold, cooldown), limits, now);
    } else {
      ReachableInv(ss, acts, n - 1);
      assert ss[n] == Next(ss[n - 1], acts[n - 1]);
      StepKeepsInv(ss[n - 1], acts[n - 1]);
      SameConfig(ss[n - 1], acts[n - 1]);
    }
  }

  /** Every state of a run satisfies the invariant, and every step is one of the machine's. */
  lemma RunStep(ss: seq<State>, acts: seq<Action>, n: nat)
    requires Run(ss, acts) && n < |acts|
    ensures Inv(ss[n]) && Inv(ss[n + 1]) && Enabled(ss[n], acts[n]) && ss[n + 1] == Next(ss[n], acts[n])
    ensures ss[n].config == ss[0].config
  {
    hide Inv, Next, Enabled;
    ReachableInv(ss, acts, n);
    ReachableInv(ss, acts, n + 1);
    var a := acts[n];
  }

  lemma SameConfig(s: State, a: Action)
    requires Inv(s) && Enabled(s, a)
    ensures Next(s, a).config == s.config
  {
    hide Shaped, WrittenOk, NothingLost;
  }
}
