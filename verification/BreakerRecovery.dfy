/**
 Why a breaker of the metering chain may never close again.

 A producer consults the breaker before it queues an event, and the worker consults it
 again before it writes.  When the producer takes the one half-open probe nothing is
 written, the worker is refused, and no outcome is ever recorded: from then on every
 consultation is refused and nothing more reaches the backend.
 */
module BreakerRecovery {
  import opened MeteringMemory
  import opened SegmentLog
  import opened MeteringMachine
  import opened MeteringSafety
  import Breaking = CircuitBreaker

  predicate Waiting(t: Task, b: string) {
    t.todo != [] && t.todo[0] == b ==> !t.stage.AtBackend? && !t.stage.AtReport?
  }

  ghost predicate TasksWait(tasks: map<Owner, Task>, b: string) {
    forall o :: o in tasks ==> Waiting(tasks[o], b)
  }

  predicate ReplayWaits(s: State, b: string) {
    s.replay.Inside? && !s.replay.stage.AtBreaker? && MoreLines(s) ==> Line(s).backend != b
  }

  /** Nobody has been let through to the backend without having reported yet. */
  ghost predicate NoAttempt(s: State, b: string) {
    TasksWait(s.tasks, b) && ReplayWaits(s, b)
  }

  ghost predicate Stuck(s: State, b: string) {
    b in s.breakers && s.breakers[b].state.HalfOpen? && NoAttempt(s, b)
  }

  lemma MovedWaits(s: State, o: Owner, stage: Stage, b: string)
    requires TasksWait(s.tasks, b) && o in s.tasks && Waiting(s.tasks[o].(stage := stage), b)
    ensures TasksWait(Moved(s, o, stage).tasks, b)
  {
    hide SameWaiting, CoreOf;
  }

  lemma DoneWaits(s: State, o: Owner, b: string)
    requires TasksWait(s.tasks, b) && o in s.tasks
    ensures TasksWait(Done(s, o).tasks, b)
  {
    hide SameWaiting, CoreOf;
  }

  lemma FewerWait(tasks: map<Owner, Task>, o: Owner, b: string)
    requires TasksWait(tasks, b)
    ensures TasksWait(tasks - {o}, b)
  {
  }

  lemma AttemptElsewhere(s: State, o: Owner, b: string)
    requires TasksWait(s.tasks, b) && o in s.tasks && s.tasks[o].todo != []
    requires s.tasks[o].stage.AtBackend? || s.tasks[o].stage.AtReport?
    ensures s.tasks[o].todo[0] != b
  {
  }

  lemma StuckConsult(s: State, o: Owner, b: string)
    requires Inv(s) && At(s, o, AtBreaker) && Stuck(s, b)
    ensures Stuck(Consulted(s, o), b) && Consulted(s, o).applied == s.applied
  {
    hide Inv, SameWaiting, CoreOf, TasksWait;
    TodoNonEmpty(s, o);
    var c := s.tasks[o].todo[0];
    var s' := s.(breakers := s.breakers[c := Breaking.Consulted(s.breakers[c], s.clock)]);
    if Breaking.Admits(s.breakers[c], s.clock) {
      MovedWaits(s', o, if s.tasks[o].queued then AtQueue else AtBackend, b);
    } else if s.tasks[o].op.Query? {
      DoneWaits(s, o, b);
    } else {
      MovedWaits(s, o, AtLog, b);
    }
  }

  lemma StuckWrite(s: State, o: Owner, ok: bool, stored: bool, b: string)
    requires Inv(s) && Enabled(s, Write(o, ok, stored)) && Stuck(s, b) && b in s.applied
    ensures var s' := WrittenToBackend(s, o, ok, stored);
            Stuck(s', b) && b in s'.applied && s'.applied[b] == s.applied[b]
  {
    hide Inv, SameWaiting, CoreOf, TasksWait;
    TodoNonEmpty(s, o);
    AttemptElsewhere(s, o, b);
    var t := s.tasks[o];
    var c := t.todo[0];
    if t.op.Query? {
      if ok { MovedWaits(s, o, AtReport(true), b); } else { DoneWaits(s, o, b); }
    } else if c == MEMORY {
      MovedWaits(if t.op.RegisterSub? then s.(memory := Register(s.memory, t.op.sub, s.clock)) else s, o, AtReport(ok), b);
    } else {
      MovedWaits(if stored then s.(applied := s.applied[c := s.applied[c] + [t.op]]) else s, o, AtReport(ok), b);
    }
  }

  lemma StuckReport(s: State, o: Owner, b: string)
    requires Inv(s) && Enabled(s, Report(o)) && Stuck(s, b)
    ensures Stuck(Reported(s, o), b) && Reported(s, o).applied == s.applied
  {
    hide Inv, SameWaiting, CoreOf, TasksWait;
    TodoNonEmpty(s, o);
    AttemptElsewhere(s, o, b);
    var t := s.tasks[o];
    var c := t.todo[0];
    if t.stage.ok {
      var s' := s.(breakers := s.breakers[c := Breaking.Closing(s.breakers[c])]);
      DoneWaits(s', o, b);
      FewerWait(s.tasks, o, b);
    } else {
      MovedWaits(s.(breakers := s.breakers[c := Breaking.Failing(s.breakers[c], s.clock)]), o, AtLog, b);
    }
  }

  lemma StuckSkip(s: State, o: Owner, b: string)
    requires Inv(s) && Enabled(s, Skip(o)) && Stuck(s, b)
    ensures Stuck(Done(s, o), b) && Done(s, o).applied == s.applied
  {
    hide Inv, SameWaiting, CoreOf, TasksWait;
    DoneWaits(s, o, b);
    FewerWait(s.tasks, o, b);
  }

  lemma StuckSend(s: State, o: Owner, b: string)
    requires Inv(s) && At(s, o, AtQueue) && Stuck(s, b)
    ensures Stuck(Sent(s, o), b) && Sent(s, o).applied == s.applied
  {
    hide Inv, SameWaiting, CoreOf, TasksWait;
    TodoNonEmpty(s, o);
    var c := s.tasks[o].todo[0];
    DoneWaits(s.(queues := s.queues[c := s.queues[c] + [s.tasks[o].op]]), o, b);
    MovedWaits(s, o, AtLog, b);
  }

  lemma StuckLog(s: State, o: Owner, size: nat, b: string)
    requires Inv(s) && At(s, o, AtLog) && Stuck(s, b)
    ensures Stuck(Logged(s, o, size), b) && Logged(s, o, size).applied == s.applied
  {
    hide Inv, SameWaiting, CoreOf, TasksWait;
    TodoNonEmpty(s, o);
    SealedLine(s);
    var entry := Entry(s.tasks[o].todo[0], s.tasks[o].op);
    AppendGrows(s.log, entry, size, s.clock);
    DoneWaits(s.(log := s.log.Appended(entry, size, s.clock)), o, b);
  }

  lemma SealedLine(s: State)
    requires Inv(s)
    ensures s.replay.Inside? ==> s.replay.segment in s.log.segments && s.replay.segment != s.log.active
  {
  }

  lemma StuckReplay(s: State, a: Action, b: string)
    requires Inv(s) && Enabled(s, a) && Stuck(s, b) && b in s.applied
    requires a.ReplayConsult? || a.ReplayWrite? || a.ReplayReport? || a.CloseSegment?
    ensures Stuck(Next(s, a), b) && b in Next(s, a).applied && Next(s, a).applied[b] == s.applied[b]
  {
    hide Inv, Stuck, Next, Enabled;
    match a {
      case ReplayConsult => StuckReplayConsult(s, b);
      case ReplayWrite(ok, stored) => StuckReplayWrite(s, ok, stored, b);
      case ReplayReport => StuckReplayReport(s, b);
      case CloseSegment => StuckClose(s, b);
    }
  }

  lemma StuckReplayConsult(s: State, b: string)
    requires Inv(s) && Enabled(s, ReplayConsult) && Stuck(s, b)
    ensures Stuck(Next(s, ReplayConsult), b) && Next(s, ReplayConsult).applied == s.applied
  {
    LineKnown(s);
    hide Inv, CoreOf, TasksWait;
  }

  lemma StuckReplayWrite(s: State, ok: bool, stored: bool, b: string)
    requires Inv(s) && Enabled(s, ReplayWrite(ok, stored)) && Stuck(s, b) && b in s.applied
    ensures var s' := Next(s, ReplayWrite(ok, stored)); Stuck(s', b) && b in s'.applied && s'.applied[b] == s.applied[b]
  {
    LineKnown(s);
    hide Inv, CoreOf, TasksWait;
  }

  lemma StuckReplayReport(s: State, b: string)
    requires Inv(s) && Enabled(s, ReplayReport) && Stuck(s, b)
    ensures Stuck(Next(s, ReplayReport), b) && Next(s, ReplayReport).applied == s.applied
  {
    LineKnown(s);
    hide Inv, CoreOf, TasksWait;
  }

  lemma StuckClose(s: State, b: string)
    requires Inv(s) && Enabled(s, CloseSegment) && Stuck(s, b)
    ensures Stuck(Next(s, CloseSegment), b) && Next(s, CloseSegment).applied == s.applied
  {
    hide Inv, CoreOf, TasksWait;
  }

  lemma SetWaits(tasks: map<Owner, Task>, o: Owner, t: Task, b: string)
    requires TasksWait(tasks, b) && Waiting(t, b)
    ensures TasksWait(tasks[o := t], b)
  {
  }

  lemma StuckCaller(s: State, a: Action, b: string)
    requires Inv(s) && Enabled(s, a) && Stuck(s, b)
    requires a.Submit? || a.StartRegister? || a.StartQuery? || a.Take?
    ensures Stuck(Next(s, a), b) && Next(s, a).applied == s.applied
  {
    hide Inv, CoreOf, TasksWait;
    match a {
      case Submit(c, e) => SetWaits(s.tasks, Caller(c), Task(RecordEvent(|s.accepted|, e), s.config.names, AtMemory, true), b);
      case StartRegister(c, sub) =>
        SetWaits(s.tasks, Caller(c), Task(RegisterSub(sub), [MEMORY] + s.config.names, AtBreaker, false), b);
      case StartQuery(c) => SetWaits(s.tasks, Caller(c), Task(Query, [MEMORY] + s.config.names, AtBreaker, false), b);
      case Take(c) => SetWaits(s.tasks, Worker(c), Task(s.queues[c][0], [c], AtBreaker, false), b);
    }
  }

  lemma StuckMemory(s: State, o: Owner, b: string)
    requires Inv(s) && At(s, o, AtMemory) && Stuck(s, b)
    ensures Stuck(Next(s, WriteMemory(o)), b) && Next(s, WriteMemory(o)).applied == s.applied
  {
    WriteMemoryOnce(s, o);
    hide Inv, CoreOf, TasksWait, SameWaiting;
    FewerWait(s.tasks, o, b);
    SetWaits(s.tasks, o, s.tasks[o].(stage := AtBreaker), b);
  }

  lemma StuckQuiet(s: State, a: Action, b: string)
    requires Inv(s) && Enabled(s, a) && Stuck(s, b)
    requires a.BeginPass? || a.OpenSegment? || a.EndPass? || a.Prune? || a.Tick?
    ensures Stuck(Next(s, a), b) && Next(s, a).applied == s.applied
  {
    hide Inv, CoreOf, TasksWait;
  }

  /** A half-open circuit with nobody let through stays so, and its backend's store does
      not change, whatever step comes next. */
  lemma StuckStays(s: State, a: Action, b: string)
    requires Inv(s) && Enabled(s, a) && Stuck(s, b) && b in s.applied
    ensures Stuck(Next(s, a), b) && b in Next(s, a).applied && Next(s, a).applied[b] == s.applied[b]
  {
    hide Stuck, Shaped, WrittenOk, NothingLost;
    match a {
      case Consult(o) => StuckConsult(s, o, b);
      case Skip(o) => StuckSkip(s, o, b);
      case Write(o, ok, stored) => StuckWrite(s, o, ok, stored, b);
      case Report(o) => StuckReport(s, o, b);
      case Send(o) => StuckSend(s, o, b);
      case AppendLog(o, size) => StuckLog(s, o, size, b);
      case ReplayConsult => StuckReplay(s, a, b);
      case ReplayWrite(_, _) => StuckReplay(s, a, b);
      case ReplayReport => StuckReplay(s, a, b);
      case CloseSegment => StuckReplay(s, a, b);
      case Submit(_, _) => StuckCaller(s, a, b);
      case StartRegister(_, _) => StuckCaller(s, a, b);
      case StartQuery(_) => StuckCaller(s, a, b);
      case WriteMemory(o) => StuckMemory(s, o, b);
      case Take(_) => StuckCaller(s, a, b);
      case BeginPass => StuckQuiet(s, a, b);
      case OpenSegment(_) => StuckQuiet(s, a, b);
      case EndPass => StuckQuiet(s, a, b);
      case Prune => StuckQuiet(s, a, b);
      case Tick(_) => StuckQuiet(s, a, b);
    }
  }

  /** So once stuck, a backend never receives anything again, in any continuation. */
  lemma {:induction false} StuckForever(ss: seq<State>, acts: seq<Action>, i: nat, n: nat, b: string)
    requires Run(ss, acts) && i <= n < |ss| && b in ss[0].config.names
    requires Stuck(ss[i], b)
    ensures b in ss[i].applied && b in ss[n].applied
    ensures Stuck(ss[n], b) && ss[n].applied[b] == ss[i].applied[b]
    decreases n
  {
    hide Stuck, Inv, Next, Run, Enabled;
    ReachableInv(ss, acts, i);
    AsyncKnown(ss[i], b);
    if i < n {
      StuckForever(ss, acts, i, n - 1, b);
      RunLength(ss, acts);
      RunStep(ss, acts, n - 1);
      StuckStays(ss[n - 1], acts[n - 1], b);
    }
  }

  lemma RunLength(ss: seq<State>, acts: seq<Action>)
    requires Run(ss, acts)
    ensures |ss| == |acts| + 1
  {
  }

  lemma AsyncKnown(s: State, b: string)
    requires Inv(s) && b in s.config.names
    ensures b in s.applied && b in s.breakers
  {
  }

  /** And a producer gets it there: the first consultation after the cooldown takes the
      probe, though the producer only queues. */
  lemma ProducerLosesProbe(s: State, o: Owner)
    requires Inv(s) && At(s, o, AtBreaker) && s.tasks[o].queued
    ensures s.tasks[o].todo != [] && s.tasks[o].todo[0] in s.breakers
    ensures var b := s.tasks[o].todo[0];
            s.breakers[b].state.Open? && Breaking.Admits(s.breakers[b], s.clock) && NoAttempt(s, b) ==>
              Stuck(Consulted(s, o), b)
  {
    hide Inv, SameWaiting, CoreOf, TasksWait;
    TodoNonEmpty(s, o);
    var b := s.tasks[o].todo[0];
    var s' := s.(breakers := s.breakers[b := Breaking.Consulted(s.breakers[b], s.clock)]);
    if TasksWait(s.tasks, b) { MovedWaits(s', o, AtQueue, b); }
  }
}
