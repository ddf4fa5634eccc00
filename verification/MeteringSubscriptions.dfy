/**
 Registrations of subscriptions in the slower backends: none is lost, and when the latest
 one is what a backend ends up with.
 */
module MeteringSubscriptions {
  import opened Prelude
  import opened CycleWindow
  import opened MeteringMemory
  import opened SegmentLog
  import opened MeteringMachine
  import opened MeteringSafety
  import opened MeteringLog
  import opened MeteringEffects
  import opened MeteringResults
  import Breaking = CircuitBreaker

  // ---- no write is lost ----

  /** Every step keeps every write, of an event or a registration, on its way to a slower
      backend, queued or logged for it, or stored. */
  lemma StepKeeps(s: State, a: Action)
    requires Inv(s) && Enabled(s, a)
    ensures Keeps(s, Next(s, a))
  {
    hide Shaped, WrittenOk, NothingLost, Keeps, CoreOf, SameWaiting;
    match a {
      case Submit(c, e) => SubmitKeeps(s, c, e);
      case WriteMemory(o) => WriteMemoryKeeps(s, o);
      case Consult(o) => ConsultKeeps(s, o);
      case Skip(o) => SkipKeeps(s, o);
      case Send(o) => SendKeeps(s, o);
      case Write(o, ok, stored) => WriteKeeps(s, o, ok, stored);
      case Report(o) => ReportKeeps(s, o);
      case AppendLog(o, size) => LogKeeps(s, o, size);
      case Take(b) => TakeKeeps(s, b);
      case CloseSegment => CloseKeeps(s);
      case StartRegister(c, _) => StartKeeps(s, a, Caller(c));
      case StartQuery(c) => StartKeeps(s, a, Caller(c));
      case ReplayConsult => ReplayKeeps(s, a);
      case ReplayWrite(_, _) => ReplayKeeps(s, a);
      case ReplayReport => ReplayKeeps(s, a);
      case _ => QuietKeeps(s, a);
    }
  }

  lemma SkipKeeps(s: State, o: Owner)
    requires Inv(s) && Enabled(s, Skip(o))
    ensures Keeps(s, Done(s, o))
  {
    DoneKeeps(s, o);
  }

  lemma StartKeeps(s: State, a: Action, o: Owner)
    requires Inv(s) && Enabled(s, a) && ((a.StartRegister? && o == Caller(a.caller)) || (a.StartQuery? && o == Caller(a.caller)))
    ensures Keeps(s, Next(s, a))
  {
    OneTaskMoves(s, Next(s, a), o);
  }

  lemma ReplayKeeps(s: State, a: Action)
    requires Inv(s) && Enabled(s, a) && (a.ReplayConsult? || a.ReplayWrite? || a.ReplayReport?)
    ensures Keeps(s, Next(s, a))
  {
    ReplayTasks(s, a);
    hide Inv, Keeps, Next, Enabled;
    NoTaskMoves(s, Next(s, a));
  }

  lemma QuietKeeps(s: State, a: Action)
    requires Inv(s) && Enabled(s, a) && (a.BeginPass? || a.OpenSegment? || a.EndPass? || a.Prune? || a.Tick?)
    ensures Keeps(s, Next(s, a))
  {
    hide Inv, Keeps;
    NoTaskMoves(s, Next(s, a));
  }

  lemma {:induction false} StaysLocated(ss: seq<State>, acts: seq<Action>, i: nat, n: nat, b: string, op: Op)
    requires Run(ss, acts) && i <= n < |ss| && b != MEMORY && !op.Query? && Located(ss[i], b, op)
    ensures Located(ss[n], b, op)
    decreases n
  {
    hide Inv, Next, Enabled, Located;
    if i < n {
      StaysLocated(ss, acts, i, n - 1, b, op);
      RunStep(ss, acts, n - 1);
      StepKeeps(ss[n - 1], acts[n - 1]);
    }
  }

  /** From its start on a registration is, for every slower backend, with the caller that
      still has to deal with it, in the log under the backend's name, or stored. */
  lemma NoRegistrationIsLost(ss: seq<State>, acts: seq<Action>, i: nat, n: nat, b: string)
    requires Run(ss, acts) && i < n < |ss| && acts[i].StartRegister? && b in ss[0].config.names
    ensures Located(ss[n], b, RegisterSub(acts[i].sub))
  {
    hide Inv, Next, Enabled, Located;
    RunStep(ss, acts, i);
    StartLocates(ss[i], acts[i], b);
    NamesAreSlower(ss[i]);
    StaysLocated(ss, acts, i + 1, n, b, RegisterSub(acts[i].sub));
  }

  lemma StartLocates(s: State, a: Action, b: string)
    requires Inv(s) && Enabled(s, a) && a.StartRegister? && b in s.config.names
    ensures Located(Next(s, a), b, RegisterSub(a.sub))
  {
    hide Inv;
    var i :| 0 <= i < |s.config.names| && s.config.names[i] == b;
    assert ([MEMORY] + s.config.names)[i + 1] == b;
    InHandOf(Next(s, a), Caller(a.caller), b);
  }

  // ---- the latest registration ----

  /** A registration of the same tenant and service. */
  predicate SameKey(op: Op, sub: Subscription) {
    op.RegisterSub? && op.sub.tenantKey == sub.tenantKey && op.sub.serviceId == sub.serviceId
  }

  /** The subscription a store that upserts ends up with. */
  function Latest(ops: seq<Op>, sub: Subscription): Option<Subscription> {
    if ops == [] then None
    else if SameKey(ops[|ops| - 1], sub) then Some(ops[|ops| - 1].sub)
    else Latest(ops[..|ops| - 1], sub)
  }

  lemma {:induction false} LatestIs(ops: seq<Op>, sub: Subscription, from: nat, i: nat)
    requires from <= i < |ops| && ops[i] == RegisterSub(sub)
    requires forall j :: from <= j < |ops| && SameKey(ops[j], sub) ==> ops[j].sub == sub
    ensures Latest(ops, sub) == Some(sub)
  {
    var n := |ops| - 1;
    if !SameKey(ops[n], sub) {
      LatestIs(ops[..n], sub, from, i);
    }
  }

  /** No other registration of the key is under way to memory or to the backend, or
      logged for it. */
  ghost predicate NoOther(s: State, b: string, sub: Subscription) {
    && (forall o :: o in s.tasks && SameKey(s.tasks[o].op, sub) && (b in s.tasks[o].todo || MEMORY in s.tasks[o].todo) ==> s.tasks[o].op.sub == sub)
    && (forall op :: s.log.Holds(Entry(b, op)) && SameKey(op, sub) ==> op.sub == sub)
  }

  /** What the backend took from a point on is that registration only. */
  ghost predicate OnlySince(s: State, b: string, sub: Subscription, from: nat) {
    b in s.applied && from <= |s.applied[b]|
    && forall i :: from <= i < |s.applied[b]| && SameKey(s.applied[b][i], sub) ==> s.applied[b][i].sub == sub
  }

  /** Memory has it, or a caller is about to write it there. */
  ghost predicate InMemoryOrOnItsWay(s: State, b: string, sub: Subscription) {
    MemoryHas(s, sub) || exists o :: FirstAtMemory(s, o, b, sub)
  }

  ghost predicate MemoryHas(s: State, sub: Subscription) {
    exists at :: Subscribed(s.memory, sub.tenantKey, sub.serviceId) == Some(WithDefaults(sub, at))
  }

  ghost predicate FirstAtMemory(s: State, o: Owner, b: string, sub: Subscription) {
    o in s.tasks && s.tasks[o].op == RegisterSub(sub) && s.tasks[o].todo != [] && s.tasks[o].todo[0] == MEMORY && b in s.tasks[o].todo
    && (s.tasks[o].stage.AtBreaker? || s.tasks[o].stage.AtBackend?) && !s.tasks[o].queued
  }

  // ---- where things come from ----

  /** A registration under way was under way before, for no more backends than now, or has
      just started. */
  ghost predicate Origins(tasks: map<Owner, Task>, a: Action, tasks': map<Owner, Task>) {
    forall o :: o in tasks' && tasks'[o].op.RegisterSub? ==>
      || (o in tasks && tasks[o].op == tasks'[o].op && forall x :: x in tasks'[o].todo ==> x in tasks[o].todo)
      || (a.StartRegister? && tasks'[o].op == RegisterSub(a.sub))
  }

  lemma StepOrigins(s: State, a: Action)
    requires Inv(s) && Enabled(s, a)
    ensures Origins(s.tasks, a, Next(s, a).tasks)
  {
    hide Shaped, WrittenOk, NothingLost, CoreOf, SameWaiting;
    match a {
      case Consult(o) => TodoNonEmpty(s, o); TaskOrigins(s, a, o);
      case Skip(o) => TodoNonEmpty(s, o); TaskOrigins(s, a, o);
      case Send(o) => TodoNonEmpty(s, o); TaskOrigins(s, a, o);
      case Write(o, ok, stored) => TodoNonEmpty(s, o); WrittenOrigins(s, o, ok, stored);
      case Report(o) => TodoNonEmpty(s, o); ReportedOrigins(s, o);
      case AppendLog(o, size) => TodoNonEmpty(s, o); AppendOrigins(s, o, size);
      case WriteMemory(o) => MemoryOrigins(s, o);
      case Submit(_, _) =>
      case StartRegister(_, _) =>
      case StartQuery(_) =>
      case Take(b) => TakeOrigins(s, b);
      case _ => OtherOrigins(s, a);
    }
  }

  lemma MovedOrigins(s: State, o: Owner, stage: Stage, a: Action)
    requires o in s.tasks
    ensures Origins(s.tasks, a, Moved(s, o, stage).tasks)
  {
    hide CoreOf, SameWaiting;
  }

  lemma DoneOrigins(s: State, o: Owner, a: Action)
    requires o in s.tasks
    ensures Origins(s.tasks, a, Done(s, o).tasks)
  {
    hide CoreOf, SameWaiting, Origins;
    var t := s.tasks[o];
    if |t.todo| <= 1 {
      RemovedOrigins(s.tasks, o, a);
    } else {
      NextOrigins(s.tasks, o, a);
    }
  }

  lemma NextOrigins(tasks: map<Owner, Task>, o: Owner, a: Action)
    requires o in tasks && |tasks[o].todo| > 1
    ensures Origins(tasks, a, tasks[o := tasks[o].(todo := tasks[o].todo[1..], stage := AtBreaker)])
  {
  }

  lemma TaskOrigins(s: State, a: Action, o: Owner)
    requires Inv(s) && Enabled(s, a) && o in s.tasks && s.tasks[o].todo != []
    requires (a.Consult? || a.Skip? || a.Send?) && a.owner == o
    ensures Origins(s.tasks, a, Next(s, a).tasks)
  {
    TodoNonEmpty(s, o);
    hide Inv, Origins, CoreOf, SameWaiting, Consulted, Sent, WrittenToBackend, WrittenToMemory, Reported, Logged, Done,
         Taken, ReplayConsulted, ReplayWritten, ReplayReported, SegmentClosed;
    match a {
      case Consult(_) => ConsultOrigins(s, o, a);
      case Skip(_) => DoneOrigins(s, o, a);
      case Send(_) => SendOrigins(s, o, a);
    }
  }

  lemma WrittenOrigins(s: State, o: Owner, ok: bool, stored: bool)
    requires Inv(s) && Enabled(s, Write(o, ok, stored)) && o in s.tasks && s.tasks[o].todo != []
    ensures Origins(s.tasks, Write(o, ok, stored), Next(s, Write(o, ok, stored)).tasks)
  {
    TodoNonEmpty(s, o);
    NextIsWrite(s, o, ok, stored);
    hide Inv, Next, Origins, CoreOf, SameWaiting, WrittenToBackend;
    WriteOrigins(s, o, ok, stored, Write(o, ok, stored));
  }

  lemma ReportedOrigins(s: State, o: Owner)
    requires Inv(s) && Enabled(s, Report(o)) && o in s.tasks && s.tasks[o].todo != []
    ensures Origins(s.tasks, Report(o), Next(s, Report(o)).tasks)
  {
    TodoNonEmpty(s, o);
    hide Inv, Origins, CoreOf, SameWaiting, Reported;
    ReportOrigins(s, o, Report(o));
  }

  lemma AppendOrigins(s: State, o: Owner, size: nat)
    requires Inv(s) && Enabled(s, AppendLog(o, size)) && o in s.tasks && s.tasks[o].todo != []
    ensures Origins(s.tasks, AppendLog(o, size), Next(s, AppendLog(o, size)).tasks)
  {
    TodoNonEmpty(s, o);
    hide Inv, Origins, CoreOf, SameWaiting, Done;
    DoneOrigins(s.(log := s.log.Appended(Entry(s.tasks[o].todo[0], s.tasks[o].op), size, s.clock)), o, AppendLog(o, size));
  }

  lemma ConsultOrigins(s: State, o: Owner, a: Action)
    requires o in s.tasks && s.tasks[o].todo != [] && s.tasks[o].todo[0] in s.breakers
    ensures Origins(s.tasks, a, Consulted(s, o).tasks)
  {
    hide CoreOf, SameWaiting, Moved, Done, Origins;
    var b := s.tasks[o].todo[0];
    var s1 := s.(breakers := s.breakers[b := Breaking.Consulted(s.breakers[b], s.clock)]);
    MovedOrigins(s1, o, if s.tasks[o].queued then AtQueue else AtBackend, a);
    MovedOrigins(s, o, AtLog, a);
    DoneOrigins(s, o, a);
  }

  lemma SendOrigins(s: State, o: Owner, a: Action)
    requires o in s.tasks && s.tasks[o].todo != [] && s.tasks[o].todo[0] in s.queues
    ensures Origins(s.tasks, a, Sent(s, o).tasks)
  {
    hide CoreOf, SameWaiting, Moved, Done, Origins;
    var b := s.tasks[o].todo[0];
    DoneOrigins(s.(queues := s.queues[b := s.queues[b] + [s.tasks[o].op]]), o, a);
    MovedOrigins(s, o, AtLog, a);
  }

  lemma WriteOrigins(s: State, o: Owner, ok: bool, stored: bool, a: Action)
    requires o in s.tasks && s.tasks[o].todo != []
    requires s.tasks[o].todo[0] == MEMORY || s.tasks[o].todo[0] in s.applied
    ensures Origins(s.tasks, a, WrittenToBackend(s, o, ok, stored).tasks)
  {
    hide CoreOf, SameWaiting, Moved, Done, Register, Gained, Origins;
    var t := s.tasks[o];
    var b := t.todo[0];
    if t.op.Query? {
      DoneOrigins(s, o, a);
      MovedOrigins(s, o, AtReport(true), a);
    } else if b == MEMORY {
      MovedOrigins(if t.op.RegisterSub? then s.(memory := Register(s.memory, t.op.sub, s.clock)) else s, o, AtReport(ok), a);
    } else {
      MovedOrigins(if stored then s.(applied := s.applied[b := s.applied[b] + [t.op]]) else s, o, AtReport(ok), a);
    }
  }

  lemma RemovedOrigins(tasks: map<Owner, Task>, o: Owner, a: Action)
    ensures Origins(tasks, a, tasks - {o})
  {
  }

  lemma ReportOrigins(s: State, o: Owner, a: Action)
    requires o in s.tasks && s.tasks[o].stage.AtReport? && s.tasks[o].todo != [] && s.tasks[o].todo[0] in s.breakers
    ensures Origins(s.tasks, a, Reported(s, o).tasks)
  {
    hide CoreOf, SameWaiting, Moved, Done, Origins;
    RemovedOrigins(s.tasks, o, a);
    var b := s.tasks[o].todo[0];
    DoneOrigins(s.(breakers := s.breakers[b := Breaking.Closing(s.breakers[b])]), o, a);
    MovedOrigins(s.(breakers := s.breakers[b := Breaking.Failing(s.breakers[b], s.clock)]), o, AtLog, a);
  }

  lemma MemoryOrigins(s: State, o: Owner)
    requires Inv(s) && Enabled(s, WriteMemory(o))
    ensures Origins(s.tasks, WriteMemory(o), Next(s, WriteMemory(o)).tasks)
  {
    WriteMemoryOnce(s, o);
    hide Inv, CoreOf, SameWaiting, Record;
  }

  lemma TakeOrigins(s: State, b: string)
    requires Inv(s) && Enabled(s, Take(b))
    ensures Origins(s.tasks, Take(b), Next(s, Take(b)).tasks)
  {
    QueuedAreEvents(s, b);
    assert s.queues[b][0] in s.queues[b];
    hide Inv, CoreOf;
  }

  lemma QueuedAreEvents(s: State, b: string)
    requires Inv(s) && b in s.queues
    ensures forall op :: op in s.queues[b] ==> op.RecordEvent?
  {
  }

  lemma OtherOrigins(s: State, a: Action)
    requires Inv(s) && Enabled(s, a)
    requires a.BeginPass? || a.OpenSegment? || a.ReplayConsult? || a.ReplayWrite? || a.ReplayReport? || a.CloseSegment? || a.EndPass? || a.Prune? || a.Tick?
    ensures Origins(s.tasks, a, Next(s, a).tasks) && Next(s, a).tasks == s.tasks
  {
    if a.ReplayConsult? || a.ReplayWrite? || a.ReplayReport? {
      ReplayTasks(s, a);
    } else {
      PlainTasks(s, a);
    }
    hide Inv, Next;
  }

  lemma PlainTasks(s: State, a: Action)
    requires Inv(s) && Enabled(s, a)
    requires a.BeginPass? || a.OpenSegment? || a.CloseSegment? || a.EndPass? || a.Prune? || a.Tick?
    ensures Next(s, a).tasks == s.tasks
  {
    hide Inv, CoreOf, SameWaiting, Moved, Done, Consulted, Sent, WrittenToBackend, WrittenToMemory, Reported, Logged, Taken,
         NextLine, ReplayConsulted, ReplayWritten, ReplayReported;
  }

  /** A step of the retry loop touches no task, no channel and not the log. */
  lemma ReplayTasks(s: State, a: Action)
    requires Inv(s) && Enabled(s, a) && (a.ReplayConsult? || a.ReplayWrite? || a.ReplayReport?)
    ensures var s' := Next(s, a); s'.tasks == s.tasks && s'.queues == s.queues && s'.log == s.log && Gained(s.applied, s'.applied)
  {
    match a {
      case ReplayConsult => ReplayConsultTasks(s);
      case ReplayWrite(ok, stored) => ReplayWriteTasks(s, ok, stored);
      case ReplayReport => ReplayReportTasks(s);
    }
    hide Inv, Next;
  }

  lemma ReplayConsultTasks(s: State)
    requires Inv(s) && Enabled(s, ReplayConsult)
    ensures var s' := Next(s, ReplayConsult); s'.tasks == s.tasks && s'.queues == s.queues && s'.log == s.log && s'.applied == s.applied
  {
    hide Inv, CoreOf;
  }

  lemma ReplayWriteTasks(s: State, ok: bool, stored: bool)
    requires Inv(s) && Enabled(s, ReplayWrite(ok, stored))
    ensures var s' := Next(s, ReplayWrite(ok, stored)); s'.tasks == s.tasks && s'.queues == s.queues && s'.log == s.log && Gained(s.applied, s'.applied)
  {
    LineKnown(s);
    hide Inv, CoreOf, Gained;
  }

  lemma ReplayReportTasks(s: State)
    requires Inv(s) && Enabled(s, ReplayReport)
    ensures var s' := Next(s, ReplayReport); s'.tasks == s.tasks && s'.queues == s.queues && s'.log == s.log && s'.applied == s.applied
  {
    LineKnown(s);
    hide Inv, CoreOf;
  }

  /** What is new in the log is a write its task had for that backend. */
  lemma StepLogged(s: State, a: Action, b: string, op: Op)
    requires Inv(s) && Enabled(s, a) && Next(s, a).log.Holds(Entry(b, op))
    ensures s.log.Holds(Entry(b, op)) || exists o :: o in s.tasks && s.tasks[o].op == op && b in s.tasks[o].todo
  {
    StepLog(s, a);
    if a.AppendLog? {
      AppendLogged(s, a.owner, a.size, b, op);
    } else {
      hide Inv, Next, Enabled;
      var k: nat, i: nat :| Next(s, a).log.At(k, i, Entry(b, op));
      assert s.log.At(k, i, Entry(b, op));
    }
  }

  lemma AppendLogged(s: State, o: Owner, size: nat, b: string, op: Op)
    requires Inv(s) && Enabled(s, AppendLog(o, size)) && Next(s, AppendLog(o, size)).log.Holds(Entry(b, op))
    ensures s.log.Holds(Entry(b, op)) || (o in s.tasks && s.tasks[o].op == op && b in s.tasks[o].todo)
  {
    TodoNonEmpty(s, o);
    AppendHolds(s.log, Entry(s.tasks[o].todo[0], s.tasks[o].op), size, s.clock, Entry(b, op));
    hide Inv, CoreOf, SameWaiting, Log.Appended, Log.Holds, Done;
  }

  /** What a backend newly takes is a write a task had for it, or a line of the log. */
  ghost predicate Took(s: State, b: string, s': State) {
    b in s.applied && b in s'.applied
    && (s'.applied[b] == s.applied[b]
        || exists op :: s'.applied[b] == s.applied[b] + [op]
                        && (s.log.Holds(Entry(b, op)) || exists o :: o in s.tasks && s.tasks[o].op == op && b in s.tasks[o].todo))
  }

  lemma StepTook(s: State, a: Action, b: string)
    requires Inv(s) && Enabled(s, a) && b in s.applied
    ensures Took(s, b, Next(s, a))
  {
    hide Shaped, WrittenOk, NothingLost, CoreOf, SameWaiting, Moved, Done, Consulted, Sent, WrittenToBackend, WrittenToMemory,
         Reported, Logged, Taken, NextLine, ReplayConsulted, ReplayWritten, ReplayReported, SegmentClosed, Took;
    if a.Write? {
      WriteTook(s, a.owner, a.ok, a.stored, b);
    } else if a.ReplayWrite? {
      ReplayTook(s, a.ok, a.stored, b);
    } else {
      SameTook(s, Next(s, a), b);
    }
  }

  lemma SameTook(s: State, s': State, b: string)
    requires s'.applied == s.applied && b in s.applied
    ensures Took(s, b, s')
  {
  }

  lemma WriteTook(s: State, o: Owner, ok: bool, stored: bool, b: string)
    requires Inv(s) && Enabled(s, Write(o, ok, stored)) && b in s.applied
    ensures Took(s, b, Next(s, Write(o, ok, stored)))
  {
    TodoNonEmpty(s, o);
    NextIsWrite(s, o, ok, stored);
    hide Inv, Next, CoreOf, SameWaiting, Took, Enabled;
    BackendTook(s, o, ok, stored, b);
  }

  lemma BackendTook(s: State, o: Owner, ok: bool, stored: bool, b: string)
    requires o in s.tasks && s.tasks[o].todo != [] && b in s.applied
    requires s.tasks[o].todo[0] == MEMORY || s.tasks[o].todo[0] in s.applied
    ensures Took(s, b, WrittenToBackend(s, o, ok, stored))
  {
    assert s.tasks[o].todo[0] in s.tasks[o].todo;
    hide CoreOf, SameWaiting, Register, Log.Holds, Gained;
  }

  lemma ReplayTook(s: State, ok: bool, stored: bool, b: string)
    requires Inv(s) && Enabled(s, ReplayWrite(ok, stored)) && b in s.applied
    ensures Took(s, b, Next(s, ReplayWrite(ok, stored)))
  {
    LineKnown(s);
    assert s.log.At(s.replay.segment, s.replay.line, Line(s));
    assert Entry(Line(s).backend, Line(s).op) == Line(s);
    assert s.log.Holds(Line(s));
    hide Inv, CoreOf, Log.Holds;
  }

  // ---- what a step keeps ----

  lemma StepNoOther(s: State, a: Action, b: string, sub: Subscription)
    requires Inv(s) && Enabled(s, a) && NoOther(s, b, sub)
    requires a.StartRegister? && SameKey(RegisterSub(a.sub), sub) ==> a.sub == sub
    ensures NoOther(Next(s, a), b, sub)
  {
    StepOrigins(s, a);
    var s' := Next(s, a);
    hide Inv, Next, Enabled, Log.Holds;
    forall op | s'.log.Holds(Entry(b, op)) && SameKey(op, sub)
      ensures op.sub == sub
    {
      StepLogged(s, a, b, op);
    }
  }

  lemma StepOnlySince(s: State, a: Action, b: string, sub: Subscription, from: nat)
    requires Inv(s) && Enabled(s, a) && NoOther(s, b, sub) && OnlySince(s, b, sub, from)
    ensures OnlySince(Next(s, a), b, sub, from)
  {
    StepTook(s, a, b);
    hide Inv, Next, Enabled, Took, NoOther, OnlySince;
    TookOnly(s, b, sub, from, Next(s, a));
  }

  lemma TookOnly(s: State, b: string, sub: Subscription, from: nat, s': State)
    requires NoOther(s, b, sub) && OnlySince(s, b, sub, from) && Took(s, b, s')
    ensures OnlySince(s', b, sub, from)
  {
    hide Log.Holds;
    if s'.applied[b] != s.applied[b] {
      var op :| s'.applied[b] == s.applied[b] + [op]
                && (s.log.Holds(Entry(b, op)) || exists o :: o in s.tasks && s.tasks[o].op == op && b in s.tasks[o].todo);
      assert SameKey(op, sub) ==> op.sub == sub;
    }
  }

  lemma StepInMemory(s: State, a: Action, b: string, sub: Subscription)
    requires Inv(s) && Enabled(s, a) && NoOther(s, b, sub) && InMemoryOrOnItsWay(s, b, sub) && sub.tenantKey != "" && sub.serviceId != ""
    ensures InMemoryOrOnItsWay(Next(s, a), b, sub)
  {
    hide Inv, Next, Enabled, MemoryHas, FirstAtMemory;
    if MemoryHas(s, sub) {
      StepMemoryHas(s, a, b, sub);
    } else {
      var o :| FirstAtMemory(s, o, b, sub);
      StepFirst(s, a, o, b, sub);
    }
  }

  lemma StepMemoryHas(s: State, a: Action, b: string, sub: Subscription)
    requires Inv(s) && Enabled(s, a) && NoOther(s, b, sub) && MemoryHas(s, sub) && sub.tenantKey != "" && sub.serviceId != ""
    ensures MemoryHas(Next(s, a), sub)
  {
    if a.Write? {
      WriteMemoryHas(s, a.owner, a.ok, a.stored, b, sub);
    } else {
      SubscriptionsStay(s, a);
      hide Inv, Next, Enabled, WithDefaults;
    }
  }

  lemma WriteMemoryHas(s: State, o: Owner, ok: bool, stored: bool, b: string, sub: Subscription)
    requires Inv(s) && Enabled(s, Write(o, ok, stored)) && NoOther(s, b, sub) && MemoryHas(s, sub) && sub.tenantKey != "" && sub.serviceId != ""
    ensures MemoryHas(Next(s, Write(o, ok, stored)), sub)
  {
    TodoNonEmpty(s, o);
    var t := s.tasks[o];
    assert t.todo[0] in t.todo;
    WriteToMemory(s, o, ok, stored);
    hide Inv, Next, WithDefaults, Log.Holds;
    if t.op.RegisterSub? && t.todo[0] == MEMORY {
      RegisterHas(s.memory, t.op.sub, sub, s.clock);
    }
  }

  /** What a write does to memory's subscriptions. */
  lemma WriteToMemory(s: State, o: Owner, ok: bool, stored: bool)
    requires Inv(s) && Enabled(s, Write(o, ok, stored)) && s.tasks[o].todo != []
    ensures var t, s' := s.tasks[o], Next(s, Write(o, ok, stored));
            if t.op.RegisterSub? && t.todo[0] == MEMORY then s'.memory == Register(s.memory, t.op.sub, s.clock)
            else s'.memory == s.memory
  {
    TodoNonEmpty(s, o);
    hide Inv, CoreOf, SameWaiting, Register, Gained;
  }

  lemma RegisterHas(m: Store, r: Subscription, sub: Subscription, now: int)
    requires sub.tenantKey != "" && sub.serviceId != ""
    ensures Subscribed(Register(m, r, now), sub.tenantKey, sub.serviceId)
            == if SameKey(RegisterSub(r), sub) then Some(WithDefaults(r, now)) else Subscribed(m, sub.tenantKey, sub.serviceId)
  {
    hide WithDefaults;
  }

  lemma StepFirst(s: State, a: Action, o: Owner, b: string, sub: Subscription)
    requires Inv(s) && Enabled(s, a) && FirstAtMemory(s, o, b, sub) && sub.tenantKey != "" && sub.serviceId != ""
    ensures InMemoryOrOnItsWay(Next(s, a), b, sub)
  {
    if a == Consult(o) {
      FirstConsults(s, o, b, sub);
    } else if a.Write? && a.owner == o {
      WriteToMemory(s, o, a.ok, a.stored);
      RegisterHas(s.memory, sub, sub, s.clock);
      assert MemoryHas(Next(s, a), sub) by { hide Inv, Next, WithDefaults; }
    } else {
      OthersStay(s, a, o);
      hide Inv, Next, Enabled, MemoryHas;
      assert FirstAtMemory(Next(s, a), o, b, sub);
    }
  }

  lemma FirstConsults(s: State, o: Owner, b: string, sub: Subscription)
    requires Inv(s) && Enabled(s, Consult(o)) && FirstAtMemory(s, o, b, sub)
    ensures FirstAtMemory(Next(s, Consult(o)), o, b, sub)
  {
    MemoryAdmits(s);
    hide Inv, CoreOf, SameWaiting;
  }

  /** A step leaves a registration alone that is not the step's own. */
  lemma OthersStay(s: State, a: Action, o: Owner)
    requires Inv(s) && Enabled(s, a) && o in s.tasks && s.tasks[o].op.RegisterSub? && (s.tasks[o].stage.AtBreaker? || s.tasks[o].stage.AtBackend?)
    requires a != Consult(o) && !(a.Write? && a.owner == o)
    ensures o in Next(s, a).tasks && Next(s, a).tasks[o] == s.tasks[o]
  {
    hide Shaped, WrittenOk, NothingLost, CoreOf, SameWaiting, Moved, Done, Consulted, Sent, WrittenToBackend, WrittenToMemory,
         Reported, Logged, ReplayConsulted, ReplayWritten, ReplayReported;
    match a {
      case Consult(p) => TodoNonEmpty(s, p); ConsultEffect(s, p);
      case Skip(p) => DoneElsewhere(s, p);
      case Send(p) => SendEffect(s, p);
      case Write(p, ok, stored) => WriteEffect(s, p, ok, stored);
      case Report(p) => TodoNonEmpty(s, p); ReportEffect(s, p);
      case AppendLog(p, size) => AppendEffect(s, p, size);
      case WriteMemory(p) => MemoryOthers(s, p, o);
      case ReplayConsult => ReplayTasks(s, a);
      case ReplayWrite(_, _) => ReplayTasks(s, a);
      case ReplayReport => ReplayTasks(s, a);
      case _ =>
    }
  }

  lemma MemoryOthers(s: State, p: Owner, o: Owner)
    requires Inv(s) && Enabled(s, WriteMemory(p)) && o in s.tasks && !s.tasks[o].stage.AtMemory?
    ensures o in Next(s, WriteMemory(p)).tasks && Next(s, WriteMemory(p)).tasks[o] == s.tasks[o]
  {
    WriteMemoryOnce(s, p);
    hide Inv, CoreOf, SameWaiting, Record;
  }

  // ---- over runs ----

  /** No other registration of the key starts in this part of the run. */
  ghost predicate NoneStarts(acts: seq<Action>, i: nat, n: nat, sub: Subscription)
    requires n <= |acts|
  {
    forall k :: i <= k < n && acts[k].StartRegister? && SameKey(RegisterSub(acts[k].sub), sub) ==> acts[k].sub == sub
  }

  lemma {:induction false} BackendGrows(ss: seq<State>, acts: seq<Action>, i: nat, n: nat, b: string)
    requires Run(ss, acts) && i <= n < |ss| && b in ss[i].applied
    ensures b in ss[n].applied && ss[i].applied[b] <= ss[n].applied[b]
    decreases n
  {
    hide Inv, Next, Enabled;
    if i < n {
      BackendGrows(ss, acts, i, n - 1, b);
      RunStep(ss, acts, n - 1);
      StepLog(ss[n - 1], acts[n - 1]);
    }
  }

  lemma {:induction false} KeptSince(ss: seq<State>, acts: seq<Action>, i: nat, n: nat, b: string, sub: Subscription, from: nat)
    requires Run(ss, acts) && i <= n < |ss| && NoneStarts(acts, i, n, sub) && sub.tenantKey != "" && sub.serviceId != ""
    requires NoOther(ss[i], b, sub) && OnlySince(ss[i], b, sub, from) && InMemoryOrOnItsWay(ss[i], b, sub)
    ensures NoOther(ss[n], b, sub) && OnlySince(ss[n], b, sub, from) && InMemoryOrOnItsWay(ss[n], b, sub)
    decreases n
  {
    hide Inv, Next, Enabled, NoOther, OnlySince, InMemoryOrOnItsWay;
    if i < n {
      KeptSince(ss, acts, i, n - 1, b, sub, from);
      RunStep(ss, acts, n - 1);
      StepNoOther(ss[n - 1], acts[n - 1], b, sub);
      StepOnlySince(ss[n - 1], acts[n - 1], b, sub, from);
      StepInMemory(ss[n - 1], acts[n - 1], b, sub);
    }
  }

  lemma Started(s: State, a: Action, b: string, sub: Subscription)
    requires Inv(s) && Enabled(s, a) && a.StartRegister? && a.sub == sub && b in s.config.names && NoOther(s, b, sub)
    ensures b in s.applied && NoOther(Next(s, a), b, sub) && OnlySince(Next(s, a), b, sub, |s.applied[b]|)
    ensures InMemoryOrOnItsWay(Next(s, a), b, sub)
  {
    StepNoOther(s, a, b, sub);
    BackendState(s, b);
    StartedAtMemory(s, a, b);
    hide Inv, NoOther, MemoryHas, FirstAtMemory;
  }

  lemma StartedAtMemory(s: State, a: Action, b: string)
    requires Inv(s) && Enabled(s, a) && a.StartRegister? && b in s.config.names
    ensures FirstAtMemory(Next(s, a), Caller(a.caller), b, a.sub)
  {
    hide Inv;
    var i :| 0 <= i < |s.config.names| && s.config.names[i] == b;
    assert ([MEMORY] + s.config.names)[i + 1] == b;
  }

  /** A registration of new contents, started while no other of its key was under way or
      logged for a backend, and none started since: once the backend is quiet, memory has
      it, and the backend has it as its latest if and only if, where it was logged for the
      backend, it has been replayed. */
  lemma RegistrationSettlesIff(ss: seq<State>, acts: seq<Action>, i: nat, n: nat, b: string, sub: Subscription)
    requires Run(ss, acts) && i < n < |ss| && acts[i].StartRegister? && acts[i].sub == sub
    requires b in ss[0].config.names && sub.tenantKey != "" && sub.serviceId != ""
    requires NoOther(ss[i], b, sub) && NoneStarts(acts, i, n, sub)
    requires b in ss[i].applied && RegisterSub(sub) !in ss[i].applied[b]
    requires Quiet(ss[n], b)
    ensures b in ss[n].applied && MemoryHas(ss[n], sub)
    ensures Latest(ss[n].applied[b], sub) == Some(sub)
            <==> (ss[n].log.Holds(Entry(b, RegisterSub(sub))) ==> AppliedEntry(ss[n].applied, Entry(b, RegisterSub(sub))))
  {
    hide Inv, Next, Enabled, NoOther, OnlySince, InMemoryOrOnItsWay, Located, Quiet, Log.Holds, NoneStarts, MemoryHas;
    RunStep(ss, acts, i);
    Started(ss[i], acts[i], b, sub);
    NoneStartsLater(acts, i, n, sub);
    var from := |ss[i].applied[b]|;
    KeptSince(ss, acts, i + 1, n, b, sub, from);
    BackendGrows(ss, acts, i, n, b);
    NoRegistrationIsLost(ss, acts, i, n, b);
    QuietSettles(ss[n], b, sub);
    AppliedIsLatestIff(ss[i].applied[b], ss[n], b, sub);
  }

  lemma NoneStartsLater(acts: seq<Action>, i: nat, n: nat, sub: Subscription)
    requires i < n <= |acts| && NoneStarts(acts, i, n, sub)
    ensures NoneStarts(acts, i + 1, n, sub)
  {
  }

  /** Quiet means the caller is past memory and the backend. */
  lemma QuietSettles(s: State, b: string, sub: Subscription)
    requires Quiet(s, b) && Located(s, b, RegisterSub(sub)) && InMemoryOrOnItsWay(s, b, sub)
    ensures MemoryHas(s, sub)
    ensures s.log.Holds(Entry(b, RegisterSub(sub))) || AppliedEntry(s.applied, Entry(b, RegisterSub(sub)))
  {
    hide MemoryHas, Log.Holds;
  }

  lemma AppliedIsLatestIff(before: seq<Op>, s: State, b: string, sub: Subscription)
    requires b in s.applied && before <= s.applied[b] && OnlySince(s, b, sub, |before|) && RegisterSub(sub) !in before
    ensures Latest(s.applied[b], sub) == Some(sub) <==> AppliedEntry(s.applied, Entry(b, RegisterSub(sub)))
  {
    var ops := s.applied[b];
    assert forall j :: 0 <= j < |before| ==> before[j] == ops[j] && before[j] in before;
    if RegisterSub(sub) in ops {
      var i :| 0 <= i < |ops| && ops[i] == RegisterSub(sub);
      LatestIs(ops, sub, |before|, i);
    }
    LatestIsIn(ops, sub);
  }

  lemma {:induction false} LatestIsIn(ops: seq<Op>, sub: Subscription)
    ensures Latest(ops, sub).Some? ==> RegisterSub(Latest(ops, sub).value) in ops
  {
    if ops != [] {
      LatestIsIn(ops[..|ops| - 1], sub);
    }
  }
}
