/**
 The metering chain as a machine of atomic steps (internal/kernel/metering_chain.go).

 Callers record events, register subscriptions and query; each asynchronous backend
 has a bounded channel and one worker; the retry loop replays the sealed segments of
 the log.  A step is what one goroutine does between two points at which another can
 run: consult a breaker, send on a channel, write to a backend, record an outcome,
 append to the log.  Which step comes next, whether a write succeeds, and how long
 anything takes is left open.

 An accepted event carries its position in the order of acceptance, its ticket, which
 stands for the identity of the event the code passes around by pointer.
 */
module MeteringMachine {
  import opened Calendar
  import opened CycleWindow
  import opened MeteringMemory
  import opened SegmentLog
  import Breaking = CircuitBreaker
  import Dedup = EventDedup

  const MEMORY := "memory"

  datatype Op =
    | RecordEvent(ticket: nat, event: Event)
    | RegisterSub(sub: Subscription)
    | Query

  datatype Entry = Entry(backend: string, op: Op)

  datatype Stage = AtMemory | AtBreaker | AtQueue | AtBackend | AtReport(ok: bool) | AtLog

  /** What a goroutine still has to do: the operation, the backends left (the current
      one first), where it is with the current one, and whether it hands the operation
      to the backend's channel or writes it itself. */
  datatype Task = Task(op: Op, todo: seq<string>, stage: Stage, queued: bool)

  datatype Owner = Caller(id: nat) | Worker(backend: string)

  /** The retry loop: resting, between two segments of a pass, or inside one. */
  datatype Replay =
    | Resting
    | Between(rest: set<nat>)
    | Inside(rest: set<nat>, segment: nat, line: nat, stage: Stage, allOk: bool)

  /** `seen` to `applied` is what the code stores, `applied` being the writes that took
      effect on each asynchronous backend, in order.  The rest observes the run: which
      tickets memory has taken and when, and the accepted events and their times. */
  datatype Config = Config(names: seq<string>, capacity: nat, retention: int)

  datatype State = State(
    config: Config,
    clock: Instant,
    seen: Dedup.Seen,
    memory: Store,
    written: seq<nat>,
    writtenAt: seq<Instant>,
    breakers: map<string, Breaking.Breaker>,
    queues: map<string, seq<Op>>,
    tasks: map<Owner, Task>,
    log: Log<Entry>,
    replay: Replay,
    applied: map<string, seq<Op>>,
    accepted: seq<Event>,
    acceptedAt: seq<Instant>)

  /** The part of the state that only submissions, writes to memory, pruning and the
      clock change. */
  datatype Core = Core(
    config: Config, clock: Instant, seen: Dedup.Seen, accepted: seq<Event>, acceptedAt: seq<Instant>,
    written: seq<nat>, writtenAt: seq<Instant>, events: map<string, seq<Event>>)

  function CoreOf(s: State): Core {
    Core(s.config, s.clock, s.seen, s.accepted, s.acceptedAt, s.written, s.writtenAt, s.memory.events)
  }

  // ---- the start ----

  ghost predicate ConfigOk(c: Config) {
    && MEMORY !in c.names
    && c.retention > 0
    && forall i, j :: 0 <= i < j < |c.names| ==> c.names[i] != c.names[j]
  }

  function Start(c: Config, breaker: Breaking.Breaker, limits: Limits, now: Instant): State {
    var names := set b | b in c.names;
    State(c, now, map[], EMPTY, [], [],
          map b | b in names + {MEMORY} :: breaker,
          map b | b in names :: [],
          map[], Reopened(map[], limits, now), Resting,
          map b | b in names :: [],
          [], [])
  }

  // ---- steps ----

  datatype Action =
    | Submit(caller: nat, event: Event)
    | StartRegister(caller: nat, sub: Subscription)
    | StartQuery(caller: nat)
    | WriteMemory(owner: Owner)
    | Consult(owner: Owner)
    | Skip(owner: Owner)
    | Send(owner: Owner)
    | Write(owner: Owner, ok: bool, stored: bool)
    | Report(owner: Owner)
    | AppendLog(owner: Owner, size: nat)
    | Take(backend: string)
    | BeginPass
    | OpenSegment(segment: nat)
    | ReplayConsult
    | ReplayWrite(ok: bool, stored: bool)
    | ReplayReport
    | CloseSegment
    | EndPass
    | Prune
    | Tick(elapsed: nat)

  ghost predicate At(s: State, o: Owner, stage: Stage) {
    o in s.tasks && s.tasks[o].stage == stage
  }

  ghost predicate Enabled(s: State, a: Action) {
    match a
    case Submit(c, _) => Caller(c) !in s.tasks
    case StartRegister(c, _) => Caller(c) !in s.tasks
    case StartQuery(c) => Caller(c) !in s.tasks
    case WriteMemory(o) => At(s, o, AtMemory)
    case Consult(o) => At(s, o, AtBreaker)
    case Skip(o) => At(s, o, AtBreaker) && s.tasks[o].op.Query? && s.tasks[o].todo != [] && s.tasks[o].todo[0] != MEMORY
    case Send(o) => At(s, o, AtQueue)
    case Write(o, ok, stored) =>
      At(s, o, AtBackend) && (ok ==> stored) && (s.tasks[o].todo != [] && s.tasks[o].todo[0] == MEMORY && !s.tasks[o].op.Query? ==> ok)
    case Report(o) => o in s.tasks && s.tasks[o].stage.AtReport?
    case AppendLog(o, _) => At(s, o, AtLog)
    case Take(b) => b in s.queues && s.queues[b] != [] && Worker(b) !in s.tasks
    case BeginPass => s.replay.Resting?
    case OpenSegment(k) => s.replay.Between? && k in s.replay.rest
    case ReplayConsult => s.replay.Inside? && s.replay.stage == AtBreaker && MoreLines(s)
    case ReplayWrite(ok, stored) => s.replay.Inside? && s.replay.stage == AtBackend && MoreLines(s) && (ok ==> stored)
    case ReplayReport => s.replay.Inside? && s.replay.stage.AtReport? && MoreLines(s)
    case CloseSegment => s.replay.Inside? && s.replay.stage == AtBreaker && !MoreLines(s)
    case EndPass => s.replay == Between({})
    case Prune => true
    case Tick(_) => true
  }

  predicate MoreLines(s: State)
    requires s.replay.Inside?
  {
    s.replay.segment in s.log.segments && s.replay.line < |s.log.segments[s.replay.segment]|
  }

  function Line(s: State): Entry
    requires s.replay.Inside? && MoreLines(s)
  {
    s.log.segments[s.replay.segment][s.replay.line]
  }

  /** The events still on their way to memory are the same. */
  ghost predicate SameWaiting(tasks: map<Owner, Task>, tasks': map<Owner, Task>) {
    && (forall o :: o in tasks && tasks[o].stage.AtMemory? ==> o in tasks' && tasks'[o] == tasks[o])
    && (forall o :: o in tasks' && tasks'[o].stage.AtMemory? ==> o in tasks && tasks[o] == tasks'[o])
  }

  /** Backends only ever take more. */
  ghost predicate Gained(applied: map<string, seq<Op>>, applied': map<string, seq<Op>>) {
    applied'.Keys == applied.Keys && forall b :: b in applied ==> applied[b] <= applied'[b]
  }

  function Moved(s: State, o: Owner, stage: Stage): (s': State)
    requires o in s.tasks
    ensures CoreOf(s') == CoreOf(s) && s'.memory == s.memory
    ensures !s.tasks[o].stage.AtMemory? && !stage.AtMemory? ==> SameWaiting(s.tasks, s'.tasks)
    ensures s'.log == s.log && s'.applied == s.applied
  {
    s.(tasks := s.tasks[o := s.tasks[o].(stage := stage)])
  }

  /** The goroutine is through with its current backend. */
  function Done(s: State, o: Owner): (s': State)
    requires o in s.tasks
    ensures CoreOf(s') == CoreOf(s) && s'.memory == s.memory
    ensures !s.tasks[o].stage.AtMemory? ==> SameWaiting(s.tasks, s'.tasks)
    ensures s'.log == s.log && s'.applied == s.applied
  {
    var t := s.tasks[o];
    if |t.todo| <= 1 then s.(tasks := s.tasks - {o})
    else s.(tasks := s.tasks[o := t.(todo := t.todo[1..], stage := AtBreaker)])
  }

  function Submitted(s: State, c: nat, e: Event): State {
    if Dedup.Duplicate(s.seen, e.id) then s
    else s.(seen := Dedup.Checked(s.seen, e.id, s.clock),
            accepted := s.accepted + [e],
            acceptedAt := s.acceptedAt + [s.clock],
            tasks := s.tasks[Caller(c) := Task(RecordEvent(|s.accepted|, e), s.config.names, AtMemory, true)])
  }

  function WrittenToMemory(s: State, o: Owner): (s': State)
    requires o in s.tasks && s.tasks[o].op.RecordEvent?
    ensures s'.memory.subscriptions == s.memory.subscriptions
    ensures s'.log == s.log && s'.applied == s.applied
  {
    var t := s.tasks[o];
    var s' := s.(memory := Record(s.memory, t.op.event, s.clock), written := s.written + [t.op.ticket],
                 writtenAt := s.writtenAt + [s.clock]);
    if t.todo == [] then s'.(tasks := s.tasks - {o}) else Moved(s', o, AtBreaker)
  }

  function Consulted(s: State, o: Owner): (s': State)
    requires o in s.tasks && s.tasks[o].todo != [] && s.tasks[o].todo[0] in s.breakers
    ensures CoreOf(s') == CoreOf(s) && s'.memory == s.memory
    ensures !s.tasks[o].stage.AtMemory? ==> SameWaiting(s.tasks, s'.tasks)
    ensures s'.log == s.log && s'.applied == s.applied
  {
    var t := s.tasks[o];
    var b := t.todo[0];
    if Breaking.Admits(s.breakers[b], s.clock) then
      Moved(s.(breakers := s.breakers[b := Breaking.Consulted(s.breakers[b], s.clock)]), o,
            if t.queued then AtQueue else AtBackend)
    else if t.op.Query? then Done(s, o)
    else Moved(s, o, AtLog)
  }

  function Sent(s: State, o: Owner): (s': State)
    requires o in s.tasks && s.tasks[o].todo != [] && s.tasks[o].todo[0] in s.queues
    ensures CoreOf(s') == CoreOf(s) && s'.memory == s.memory
    ensures !s.tasks[o].stage.AtMemory? ==> SameWaiting(s.tasks, s'.tasks)
    ensures s'.log == s.log && s'.applied == s.applied
  {
    var b := s.tasks[o].todo[0];
    if |s.queues[b]| < s.config.capacity
    then Done(s.(queues := s.queues[b := s.queues[b] + [s.tasks[o].op]]), o)
    else Moved(s, o, AtLog)
  }

  /** A write to a backend.  One that reports an error may still have taken effect. */
  function WrittenToBackend(s: State, o: Owner, ok: bool, stored: bool): (s': State)
    requires o in s.tasks && s.tasks[o].todo != []
    requires s.tasks[o].todo[0] == MEMORY || s.tasks[o].todo[0] in s.applied
    ensures CoreOf(s') == CoreOf(s)
    ensures !s.tasks[o].stage.AtMemory? ==> SameWaiting(s.tasks, s'.tasks)
    ensures s'.log == s.log && Gained(s.applied, s'.applied)
  {
    var t := s.tasks[o];
    var b := t.todo[0];
    if t.op.Query? then if ok then Moved(s, o, AtReport(true)) else Done(s, o)
    else if b == MEMORY then
      Moved(if t.op.RegisterSub? then s.(memory := Register(s.memory, t.op.sub, s.clock)) else s, o, AtReport(ok))
    else
      Moved(if stored then s.(applied := s.applied[b := s.applied[b] + [t.op]]) else s, o, AtReport(ok))
  }

  function Reported(s: State, o: Owner): (s': State)
    requires o in s.tasks && s.tasks[o].stage.AtReport?
    requires s.tasks[o].todo != [] && s.tasks[o].todo[0] in s.breakers
    ensures CoreOf(s') == CoreOf(s) && s'.memory == s.memory
    ensures !s.tasks[o].stage.AtMemory? ==> SameWaiting(s.tasks, s'.tasks)
    ensures s'.log == s.log && s'.applied == s.applied
  {
    var t := s.tasks[o];
    var b := t.todo[0];
    if t.stage.ok then
      var s' := s.(breakers := s.breakers[b := Breaking.Closing(s.breakers[b])]);
      if t.op.Query? then s'.(tasks := s.tasks - {o}) else Done(s', o)
    else Moved(s.(breakers := s.breakers[b := Breaking.Failing(s.breakers[b], s.clock)]), o, AtLog)
  }

  function Logged(s: State, o: Owner, size: nat): (s': State)
    requires o in s.tasks && s.tasks[o].todo != [] && s.log.active in s.log.segments
    requires s.log.Valid()
    ensures CoreOf(s') == CoreOf(s) && s'.memory == s.memory
    ensures !s.tasks[o].stage.AtMemory? ==> SameWaiting(s.tasks, s'.tasks)
    ensures s'.log == s.log.Appended(Entry(s.tasks[o].todo[0], s.tasks[o].op), size, s.clock) && s'.applied == s.applied
  {
    var t := s.tasks[o];
    Done(s.(log := s.log.Appended(Entry(t.todo[0], t.op), size, s.clock)), o)
  }

  function Taken(s: State, b: string): (s': State)
    requires b in s.queues && s.queues[b] != []
    ensures CoreOf(s') == CoreOf(s) && s'.memory == s.memory
    ensures s'.log == s.log && s'.applied == s.applied
  {
    s.(queues := s.queues[b := s.queues[b][1..]],
       tasks := s.tasks[Worker(b) := Task(s.queues[b][0], [b], AtBreaker, false)])
  }

  function NextLine(s: State, ok: bool): (s': State)
    requires s.replay.Inside?
    ensures CoreOf(s') == CoreOf(s) && s'.memory == s.memory
    ensures s'.log == s.log && s'.applied == s.applied
  {
    s.(replay := s.replay.(line := s.replay.line + 1, stage := AtBreaker, allOk := s.replay.allOk && ok))
  }

  function ReplayConsulted(s: State): (s': State)
    requires s.replay.Inside? && MoreLines(s)
    ensures CoreOf(s') == CoreOf(s) && s'.memory == s.memory
    ensures s'.log == s.log && s'.applied == s.applied
  {
    var b := Line(s).backend;
    if b !in s.breakers then NextLine(s, false)
    else if Breaking.Admits(s.breakers[b], s.clock) then
      s.(breakers := s.breakers[b := Breaking.Consulted(s.breakers[b], s.clock)],
         replay := s.replay.(stage := AtBackend))
    else NextLine(s, false)
  }

  function ReplayWritten(s: State, ok: bool, stored: bool): (s': State)
    requires s.replay.Inside? && MoreLines(s) && Line(s).backend in s.applied
    ensures CoreOf(s') == CoreOf(s) && s'.memory == s.memory
    ensures s'.log == s.log && Gained(s.applied, s'.applied)
  {
    var b := Line(s).backend;
    var s' := if stored then s.(applied := s.applied[b := s.applied[b] + [Line(s).op]]) else s;
    s'.(replay := s.replay.(stage := AtReport(ok)))
  }

  function ReplayReported(s: State): (s': State)
    requires s.replay.Inside? && MoreLines(s) && s.replay.stage.AtReport? && Line(s).backend in s.breakers
    ensures CoreOf(s') == CoreOf(s) && s'.memory == s.memory
    ensures s'.log == s.log && s'.applied == s.applied
  {
    var b := Line(s).backend;
    var breaker := if s.replay.stage.ok then Breaking.Closing(s.breakers[b]) else Breaking.Failing(s.breakers[b], s.clock);
    NextLine(s.(breakers := s.breakers[b := breaker]), s.replay.stage.ok)
  }

  function SegmentClosed(s: State): (s': State)
    requires s.replay.Inside?
    ensures CoreOf(s') == CoreOf(s) && s'.memory == s.memory
    ensures s'.log == (if s.replay.allOk then s.log.Deleted(s.replay.segment) else s.log) && s'.applied == s.applied
  {
    s.(log := if s.replay.allOk then s.log.Deleted(s.replay.segment) else s.log, replay := Between(s.replay.rest))
  }

  ghost function Next(s: State, a: Action): State
    requires Inv(s) && Enabled(s, a)
  {
    match a
    case Submit(c, e) => Submitted(s, c, e)
    case StartRegister(c, sub) =>
      s.(tasks := s.tasks[Caller(c) := Task(RegisterSub(sub), [MEMORY] + s.config.names, AtBreaker, false)])
    case StartQuery(c) =>
      s.(tasks := s.tasks[Caller(c) := Task(Query, [MEMORY] + s.config.names, AtBreaker, false)])
    case WriteMemory(o) => WrittenToMemory(s, o)
    case Consult(o) => Consulted(s, o)
    case Skip(o) => Done(s, o)
    case Send(o) => Sent(s, o)
    case Write(o, ok, stored) => WrittenToBackend(s, o, ok, stored)
    case Report(o) => Reported(s, o)
    case AppendLog(o, size) => Logged(s, o, size)
    case Take(b) => Taken(s, b)
    case BeginPass => s.(replay := Between(s.log.segments.Keys - {s.log.active}))
    case OpenSegment(k) => s.(replay := Inside(s.replay.rest - {k}, k, 0, AtBreaker, true))
    case ReplayConsult => ReplayConsulted(s)
    case ReplayWrite(ok, stored) => ReplayWritten(s, ok, stored)
    case ReplayReport => ReplayReported(s)
    case CloseSegment => SegmentClosed(s)
    case EndPass => s.(replay := Resting)
    case Prune => s.(seen := Dedup.Pruned(s.seen, s.config.retention, s.clock))
    case Tick(d) => s.(clock := s.clock + d)
  }

  // ---- what every step keeps ----

  /** The operation is a real one: an event names its own acceptance. */
  ghost predicate Genuine(accepted: seq<Event>, op: Op) {
    op.RecordEvent? ==> op.ticket < |accepted| && accepted[op.ticket] == op.event
  }

  ghost predicate TaskOk(names: seq<string>, accepted: seq<Event>, o: Owner, t: Task) {
    && Genuine(accepted, t.op)
    && (t.todo == [] ==> t.stage.AtMemory?)
    && (forall i {:trigger t.todo[i]} :: 0 <= i < |t.todo| ==> t.todo[i] in names || (i == 0 && t.todo[0] == MEMORY))
    && (t.queued ==> t.op.RecordEvent? && MEMORY !in t.todo && !t.stage.AtBackend? && !t.stage.AtReport?)
    && (!t.queued ==> !t.stage.AtMemory? && !t.stage.AtQueue?)
    && (o.Worker? ==> !t.queued && t.todo == [o.backend] && !t.op.Query?)
    && (o.Caller? && t.op.RecordEvent? ==> t.queued)
    && (t.op.Query? ==> !t.stage.AtLog? && t.stage != AtReport(false))
    && (MEMORY in t.todo ==> !t.op.RecordEvent? && !t.stage.AtLog? && t.stage != AtReport(false))
  }

  ghost predicate TasksOk(names: seq<string>, accepted: seq<Event>, tasks: map<Owner, Task>) {
    forall o :: o in tasks ==> TaskOk(names, accepted, o, tasks[o])
  }

  ghost predicate QueuesOk(c: Config, accepted: seq<Event>, queues: map<string, seq<Op>>) {
    && (forall b :: b in queues <==> b in c.names)
    && (forall b :: b in queues ==> |queues[b]| <= c.capacity)
    && (forall b, op :: b in queues && op in queues[b] ==> op.RecordEvent? && Genuine(accepted, op))
  }

  ghost predicate AppliedOk(names: seq<string>, accepted: seq<Event>, applied: map<string, seq<Op>>) {
    && (forall b :: b in applied <==> b in names)
    && (forall b, op :: b in applied && op in applied[b] ==> !op.Query? && Genuine(accepted, op))
  }

  /** A task about to report success of a write has it in the backend's store. */
  ghost predicate ReportsOk(tasks: map<Owner, Task>, applied: map<string, seq<Op>>) {
    forall o :: o in tasks && tasks[o].stage == AtReport(true) && !tasks[o].op.Query? && tasks[o].todo != [] && tasks[o].todo[0] != MEMORY ==>
      tasks[o].todo[0] in applied && tasks[o].op in applied[tasks[o].todo[0]]
  }

  ghost predicate BreakersOk(names: seq<string>, breakers: map<string, Breaking.Breaker>) {
    && (forall b :: b in breakers <==> b in names || b == MEMORY)
    && breakers[MEMORY].state.Closed?
    && forall b :: b in breakers ==> breakers[b].threshold > 0
  }

  ghost predicate LogOk(names: seq<string>, accepted: seq<Event>, log: Log<Entry>) {
    && log.Valid()
    && forall k, i :: k in log.segments && 0 <= i < |log.segments[k]| ==> EntryOk(names, accepted, log.segments[k][i])
  }

  ghost predicate EntryOk(names: seq<string>, accepted: seq<Event>, e: Entry) {
    e.backend in names && !e.op.Query? && Genuine(accepted, e.op)
  }

  ghost predicate AppliedEntry(applied: map<string, seq<Op>>, e: Entry) {
    e.backend in applied && e.op in applied[e.backend]
  }

  /** The retry loop works on sealed segments only, and while it may still delete the
      current one every line behind it has been applied. */
  ghost predicate ReplayOk(log: Log<Entry>, applied: map<string, seq<Op>>, r: Replay) {
    match r
    case Resting => true
    case Between(rest) => rest <= log.segments.Keys - {log.active}
    case Inside(rest, k, line, stage, allOk) =>
      && rest <= log.segments.Keys - {log.active} - {k}
      && k in log.segments && k != log.active
      && line <= |log.segments[k]|
      && (stage.AtBreaker? || stage.AtBackend? || stage.AtReport?)
      && (!stage.AtBreaker? ==> line < |log.segments[k]|)
      && (stage == AtReport(true) ==> AppliedEntry(applied, log.segments[k][line]))
      && (allOk ==> forall i :: 0 <= i < line ==> AppliedEntry(applied, log.segments[k][i]))
  }

  /** Memory has taken each accepted event at most once, and those it has not taken yet
      are each with the one caller that brings it. */
  ghost predicate WrittenOk(s: State) {
    && OnceEach(s.written, |s.accepted|)
    && WaitingOk(s)
    && forall n :: 0 <= n < |s.accepted| ==> n in s.written || BeforeMemory(s, n)
  }

  ghost predicate OnceEach(written: seq<nat>, n: nat) {
    && Below(written, n)
    && (forall i, j :: 0 <= i < j < |written| ==> written[i] != written[j])
  }

  ghost predicate Below(tickets: seq<nat>, n: nat) {
    forall i :: 0 <= i < |tickets| ==> tickets[i] < n
  }

  ghost predicate WaitingOk(s: State) {
    && (forall o :: o in s.tasks && s.tasks[o].stage.AtMemory? ==>
          s.tasks[o].op.RecordEvent? && s.tasks[o].todo == s.config.names && s.tasks[o].op.ticket !in s.written)
    && (forall o, p :: (o in s.tasks && p in s.tasks && s.tasks[o].stage.AtMemory? && s.tasks[p].stage.AtMemory?
                        && s.tasks[o].op == s.tasks[p].op) ==> o == p)
  }

  ghost predicate BeforeMemory(s: State, n: nat) {
    exists o :: o in s.tasks && s.tasks[o].stage.AtMemory? && s.tasks[o].op.RecordEvent? && s.tasks[o].op.ticket == n
  }

  // ---- where an accepted event is ----

  function EventOp(s: State, n: nat): Op
    requires n < |s.accepted|
  {
    RecordEvent(n, s.accepted[n])
  }

  ghost predicate InHand(s: State, b: string, op: Op) {
    exists o :: o in s.tasks && s.tasks[o].op == op && b in s.tasks[o].todo
  }

  /** Somebody still has to deal with the event for this backend, or it is in the
      backend's channel, or in the log under the backend's name, or stored. */
  ghost predicate Located(s: State, b: string, op: Op) {
    || InHand(s, b, op)
    || (b in s.queues && op in s.queues[b])
    || s.log.Holds(Entry(b, op))
    || (b in s.applied && op in s.applied[b])
  }

  ghost predicate NothingLost(s: State) {
    forall b, n {:trigger Located(s, b, EventOp(s, n))} ::
      b in s.config.names && 0 <= n < |s.accepted| ==> Located(s, b, EventOp(s, n))
  }

  ghost predicate Shaped(s: State) {
    && ConfigOk(s.config)
    && |s.acceptedAt| == |s.accepted| && |s.writtenAt| == |s.written|
    && TasksOk(s.config.names, s.accepted, s.tasks)
    && QueuesOk(s.config, s.accepted, s.queues)
    && AppliedOk(s.config.names, s.accepted, s.applied)
    && ReportsOk(s.tasks, s.applied)
    && BreakersOk(s.config.names, s.breakers)
    && LogOk(s.config.names, s.accepted, s.log)
    && ReplayOk(s.log, s.applied, s.replay)
  }

  ghost predicate Inv(s: State) {
    Shaped(s) && WrittenOk(s) && NothingLost(s)
  }
}
