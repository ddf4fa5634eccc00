/**
 When a breaker of the metering chain can still close: exactly when it is not half-open
 with nobody let through, and how it gets into that state.
 */
module BreakerClosing {
  import opened CycleWindow
  import opened MeteringMemory
  import opened MeteringMachine
  import opened MeteringSafety
  import opened MeteringPaths
  import opened MeteringEffects
  import opened BreakerRecovery
  import Breaking = CircuitBreaker

  ghost predicate CanClose(s: State, b: string) {
    exists t :: Leads(s, t) && b in t.breakers && t.breakers[b].state.Closed?
  }

  // ---- stuck means never ----

  lemma {:induction false} StuckAlong(ss: seq<State>, acts: seq<Action>, n: nat, b: string)
    requires Path(ss, acts) && n < |ss| && b in ss[0].config.names && Stuck(ss[0], b)
    ensures Stuck(ss[n], b) && b in ss[n].applied
  {
    hide Inv, Enabled, Next, Stuck;
    AsyncKnown(ss[0], b);
    if n > 0 {
      StuckAlong(ss, acts, n - 1, b);
      var a := acts[n - 1];
      StuckStays(ss[n - 1], a, b);
    }
  }

  lemma StuckCannotClose(s: State, b: string)
    requires b in s.config.names && Stuck(s, b)
    ensures !CanClose(s, b)
  {
    hide Path, Leads;
    forall t | Leads(s, t)
      ensures Stuck(t, b)
    {
      StuckLeads(s, t, b);
    }
  }

  lemma StuckLeads(s: State, t: State, b: string)
    requires b in s.config.names && Stuck(s, b) && Leads(s, t)
    ensures Stuck(t, b)
  {
    hide Inv, Enabled, Next, Stuck;
    var ss, acts :| Path(ss, acts) && ss[0] == s && ss[|acts|] == t;
    StuckAlong(ss, acts, |acts|, b);
  }

  // ---- an attempt under way closes it ----

  ghost predicate Attempting(s: State, o: Owner, b: string) {
    o in s.tasks && s.tasks[o].todo != [] && s.tasks[o].todo[0] == b && (s.tasks[o].stage.AtBackend? || s.tasks[o].stage.AtReport?)
  }

  /** Whoever reports a success next closes the circuit. */
  lemma ReportCloses(s: State, t: State, o: Owner, b: string)
    requires Leads(s, t) && Inv(t) && b in t.config.names && Attempting(t, o, b) && t.tasks[o].stage == AtReport(true)
    ensures CanClose(s, b)
  {
    TodoNonEmpty(t, o);
    LeadsOn(s, t, Report(o));
    hide Inv, Leads, CoreOf, SameWaiting;
    var u := Next(t, Report(o));
    assert u.breakers[b].state.Closed?;
  }

  lemma WriteCloses(s: State, t: State, o: Owner, b: string)
    requires Leads(s, t) && Inv(t) && b in t.config.names && Attempting(t, o, b) && t.tasks[o].stage == AtBackend
    ensures CanClose(s, b)
  {
    TodoNonEmpty(t, o);
    WriteEffect(t, o, true, true);
    LeadsOn(s, t, Write(o, true, true));
    hide Inv, Next, Leads;
    ReportCloses(s, Next(t, Write(o, true, true)), o, b);
  }

  lemma ReplayReportCloses(s: State, t: State, b: string)
    requires Leads(s, t) && Inv(t) && b in t.config.names
    requires t.replay.Inside? && t.replay.stage == AtReport(true) && MoreLines(t) && Line(t).backend == b
    ensures CanClose(s, b)
  {
    LineKnown(t);
    LeadsOn(s, t, ReplayReport);
    hide Inv, Leads, CoreOf;
    var u := Next(t, ReplayReport);
    assert u.breakers[b].state.Closed?;
  }

  lemma ReplayWriteCloses(s: State, t: State, b: string)
    requires Leads(s, t) && Inv(t) && b in t.config.names
    requires t.replay.Inside? && t.replay.stage == AtBackend && MoreLines(t) && Line(t).backend == b
    ensures CanClose(s, b)
  {
    LineKnown(t);
    LeadsOn(s, t, ReplayWrite(true, true));
    LeadsInv(s, t);
    LeadsInv(s, Next(t, ReplayWrite(true, true)));
    var u := Next(t, ReplayWrite(true, true));
    assert u.replay.Inside? && u.replay.stage == AtReport(true) && MoreLines(u) && Line(u).backend == b by { hide Inv, Leads, CoreOf; }
    ReplayReportCloses(s, u, b);
  }

  // ---- a query reaches any backend ----

  /** Nothing but the owner's task differs. */
  ghost predicate OnlyTask(s: State, t: State, o: Owner) {
    && t.config == s.config && t.clock == s.clock && t.replay == s.replay && t.log == s.log
    && forall p :: p in t.tasks && p != o ==> p in s.tasks && s.tasks[p] == t.tasks[p]
  }

  ghost predicate QueryAt(t: State, o: Owner, b: string) {
    At(t, o, AtBreaker) && t.tasks[o].op.Query? && t.tasks[o].todo != [] && t.tasks[o].todo[0] == b && !t.tasks[o].queued
  }

  /** A query that finds backends unhealthy passes on to any later one. */
  lemma {:induction false} SkipTo(s: State, t: State, o: Owner, b: string) returns (u: State)
    requires Leads(s, t) && Inv(t) && At(t, o, AtBreaker) && t.tasks[o].op.Query? && !t.tasks[o].queued
    requires b in t.tasks[o].todo && MEMORY !in t.tasks[o].todo
    ensures Leads(s, u) && Inv(u) && QueryAt(u, o, b) && OnlyTask(t, u, o) && u.breakers == t.breakers
    decreases |t.tasks[o].todo|
  {
    hide Inv, Leads, CoreOf, SameWaiting;
    if t.tasks[o].todo[0] == b {
      return t;
    }
    assert t.tasks[o].todo[0] in t.tasks[o].todo;
    LeadsOn(s, t, Skip(o));
    var v := Next(t, Skip(o));
    assert forall c :: c in t.tasks[o].todo[1..] ==> c in t.tasks[o].todo;
    u := SkipTo(s, v, o, b);
  }

  lemma FreshNat(s: set<nat>) returns (n: nat)
    ensures forall m :: m in s ==> m < n
  {
    if s == {} {
      n := 0;
    } else {
      var m :| m in s;
      n := FreshNat(s - {m});
      assert forall k :: k in s ==> k == m || k in s - {m};
      if n <= m { n := m + 1; }
    }
  }

  lemma FreshCaller(tasks: map<Owner, Task>) returns (c: nat)
    ensures Caller(c) !in tasks
  {
    var ids := set o | o in tasks.Keys && o.Caller? :: o.id;
    c := FreshNat(ids);
    assert Caller(c) in tasks ==> c in ids;
  }

  /** From any state a new query can come to any slower backend. */
  lemma QueryReaches(s: State, t: State, b: string) returns (u: State, o: Owner)
    requires Leads(s, t) && Inv(t) && b in t.config.names
    ensures Leads(s, u) && Inv(u) && QueryAt(u, o, b) && o !in t.tasks && OnlyTask(t, u, o)
    ensures b in u.breakers && b in t.breakers && u.breakers[b] == t.breakers[b]
  {
    AsyncKnown(t, b);
    var t1;
    t1, o := NewTask(s, t, Query);
    MemoryClosed(t1);
    hide Inv, Leads, OnlyTask, ConfigOk;
    var t2 := PassMemory(s, t1, o, t.config.names);
    u := SkipTo(s, t2, o, b);
    OnlyTaskTransitive(t, t1, t2, o);
    OnlyTaskTransitive(t, t2, u, o);
  }

  /** A new caller starts a query or a registration. */
  lemma NewTask(s: State, t: State, op: Op) returns (u: State, o: Owner)
    requires Leads(s, t) && Inv(t) && !op.RecordEvent?
    ensures Leads(s, u) && Inv(u) && o !in t.tasks && OnlyTask(t, u, o)
    ensures u == t.(tasks := t.tasks[o := Task(op, [MEMORY] + t.config.names, AtBreaker, false)])
  {
    var c := FreshCaller(t.tasks);
    o := Caller(c);
    if op.Query? {
      LeadsOn(s, t, StartQuery(c));
      StartedQuery(t, c);
      u := Next(t, StartQuery(c));
    } else {
      LeadsOn(s, t, StartRegister(c, op.sub));
      StartedRegistration(t, c, op.sub);
      u := Next(t, StartRegister(c, op.sub));
    }
    hide Inv, Leads, Next;
  }

  lemma OnlyTaskTransitive(s: State, t: State, u: State, o: Owner)
    requires OnlyTask(s, t, o) && OnlyTask(t, u, o)
    ensures OnlyTask(s, u, o)
  {
  }

  lemma StartedQuery(t: State, c: nat)
    requires Inv(t) && Caller(c) !in t.tasks
    ensures Next(t, StartQuery(c)) == t.(tasks := t.tasks[Caller(c) := Task(Query, [MEMORY] + t.config.names, AtBreaker, false)])
  {
    hide Inv;
  }

  /** A query memory has no answer to passes on. */
  lemma PassMemory(s: State, t: State, o: Owner, names: seq<string>) returns (u: State)
    requires Leads(s, t) && Inv(t) && MEMORY in t.breakers && t.breakers[MEMORY].state.Closed?
    requires o in t.tasks && t.tasks[o] == Task(Query, [MEMORY] + names, AtBreaker, false) && names != []
    ensures Leads(s, u) && Inv(u) && At(u, o, AtBreaker) && u.tasks[o] == Task(Query, names, AtBreaker, false)
    ensures OnlyTask(t, u, o) && u.breakers == t.breakers
  {
    hide Inv, Leads, CoreOf, SameWaiting;
    LeadsOn(s, t, Consult(o));
    var t1 := Next(t, Consult(o));
    assert t1.tasks == t.tasks[o := Task(Query, [MEMORY] + names, AtBackend, false)] && t1.breakers == t.breakers;
    LeadsOn(s, t1, Write(o, false, false));
    u := Next(t1, Write(o, false, false));
    assert ([MEMORY] + names)[1..] == names;
  }

  lemma MemoryClosed(s: State)
    requires Inv(s)
    ensures MEMORY in s.breakers && s.breakers[MEMORY].state.Closed? && MEMORY !in s.config.names
  {
  }

  /** An open circuit closes once the cooldown is over and a query succeeds. */
  lemma OpenCloses(s: State, t: State, b: string)
    requires Leads(s, t) && Inv(t) && b in t.config.names && b in t.breakers && t.breakers[b].state.Open?
    ensures CanClose(s, b)
  {
    var u, o := OpenAttempt(s, t, b);
    WriteCloses(s, u, o, b);
  }

  /** After the cooldown a query is let through. */
  lemma OpenAttempt(s: State, t: State, b: string) returns (u: State, o: Owner)
    requires Leads(s, t) && Inv(t) && b in t.config.names && b in t.breakers && t.breakers[b].state.Open?
    ensures Leads(s, u) && Inv(u) && Attempting(u, o, b) && u.tasks[o].stage == AtBackend && u.tasks[o].op.Query?
    ensures b in u.breakers && u.breakers[b].state.HalfOpen? && o !in t.tasks && u.config == t.config
    ensures u.replay == t.replay && u.log == t.log && forall p :: p in u.tasks && p != o ==> p in t.tasks && t.tasks[p] == u.tasks[p]
  {
    var wait := t.breakers[b].cooldown - (t.clock - t.breakers[b].tripped);
    var d: nat := if wait < 0 then 0 else wait;
    LeadsOn(s, t, Tick(d));
    Ticked(t, d);
    hide Inv, Leads, CoreOf, SameWaiting, Next, Enabled;
    var t1 := t.(clock := t.clock + d);
    var v;
    v, o := QueryReaches(s, t1, b);
    u := QueryLetThrough(s, v, o, b);
  }

  lemma Ticked(t: State, d: nat)
    requires Inv(t)
    ensures Next(t, Tick(d)) == t.(clock := t.clock + d)
  {
    hide Inv;
  }

  lemma QueryLetThrough(s: State, v: State, o: Owner, b: string) returns (u: State)
    requires Leads(s, v) && Inv(v) && QueryAt(v, o, b) && b in v.breakers
    requires v.breakers[b].state.Open? && Breaking.Admits(v.breakers[b], v.clock)
    ensures Leads(s, u) && Inv(u) && Attempting(u, o, b) && u.tasks[o].stage == AtBackend && u.tasks[o].op.Query?
    ensures b in u.breakers && u.breakers[b].state.HalfOpen? && OnlyTask(v, u, o)
  {
    LeadsOn(s, v, Consult(o));
    LetThrough(v, o, b);
    u := Next(v, Consult(o));
    hide Inv, Leads, Next;
  }

  lemma LetThrough(v: State, o: Owner, b: string)
    requires Inv(v) && QueryAt(v, o, b) && b in v.breakers
    requires v.breakers[b].state.Open? && Breaking.Admits(v.breakers[b], v.clock)
    ensures var u := Next(v, Consult(o));
            && Attempting(u, o, b) && u.tasks[o].stage == AtBackend && u.tasks[o].op.Query?
            && b in u.breakers && u.breakers[b].state.HalfOpen? && OnlyTask(v, u, o)
  {
    ConsultEffect(v, o);
    hide Inv, Next;
  }

  // ---- the condition ----

  /** Some continuation closes a slower backend's circuit if and only if it is not
      half-open with nobody let through. */
  lemma CanCloseIff(s: State, b: string)
    requires Inv(s) && b in s.config.names
    ensures CanClose(s, b) <==> !Stuck(s, b)
  {
    AsyncKnown(s, b);
    LeadsToItself(s);
    if Stuck(s, b) {
      StuckCannotClose(s, b);
    } else if s.breakers[b].state.Closed? {
      assert CanClose(s, b);
    } else if s.breakers[b].state.Open? {
      OpenCloses(s, s, b);
    } else {
      AttemptCloses(s, b);
    }
  }

  /** An attempt under way decides it: a success closes the circuit, a failure opens it
      and the next success closes it. */
  lemma AttemptCloses(s: State, b: string)
    requires Inv(s) && Leads(s, s) && b in s.config.names && b in s.breakers && s.breakers[b].state.HalfOpen? && !Stuck(s, b)
    ensures CanClose(s, b)
  {
    hide Inv, Leads, CanClose;
    if o :| Attempting(s, o, b) {
      if s.tasks[o].stage == AtBackend {
        WriteCloses(s, s, o, b);
      } else if s.tasks[o].stage == AtReport(true) {
        ReportCloses(s, s, o, b);
      } else {
        FailureReopens(s, o, b);
      }
    } else {
      ReplayAttempts(s, b);
      hide Stuck, MoreLines, Line;
      if s.replay.stage == AtBackend {
        ReplayWriteCloses(s, s, b);
      } else if s.replay.stage == AtReport(true) {
        ReplayReportCloses(s, s, b);
      } else {
        ReplayFailureReopens(s, b);
      }
    }
  }

  lemma ReplayAttempts(s: State, b: string)
    requires Inv(s) && b in s.breakers && s.breakers[b].state.HalfOpen? && !Stuck(s, b) && forall o :: !Attempting(s, o, b)
    ensures s.replay.Inside? && (s.replay.stage.AtBackend? || s.replay.stage.AtReport?) && MoreLines(s) && Line(s).backend == b
  {
    hide WrittenOk, NothingLost, TasksOk, QueuesOk, AppliedOk, BreakersOk, LogOk, ConfigOk, ReportsOk;
    forall o | o in s.tasks
      ensures Waiting(s.tasks[o], b)
    {
      assert !Attempting(s, o, b);
    }
    assert TasksWait(s.tasks, b);
  }

  lemma FailureReopens(s: State, o: Owner, b: string)
    requires Inv(s) && Leads(s, s) && b in s.config.names && b in s.breakers && s.breakers[b].state.HalfOpen?
    requires Attempting(s, o, b) && s.tasks[o].stage == AtReport(false)
    ensures CanClose(s, b)
  {
    TodoNonEmpty(s, o);
    LeadsOn(s, s, Report(o));
    var t := Next(s, Report(o));
    LeadsInv(s, t);
    assert b in t.breakers && t.breakers[b].state.Open? by { hide Inv, Leads, CoreOf, SameWaiting; }
    OpenCloses(s, t, b);
  }

  lemma ReplayFailureReopens(s: State, b: string)
    requires Inv(s) && Leads(s, s) && b in s.config.names && b in s.breakers && s.breakers[b].state.HalfOpen?
    requires s.replay.Inside? && s.replay.stage == AtReport(false) && MoreLines(s) && Line(s).backend == b
    ensures CanClose(s, b)
  {
    LeadsOn(s, s, ReplayReport);
    var t := Next(s, ReplayReport);
    LeadsInv(s, t);
    assert b in t.breakers && t.breakers[b].state.Open? by { hide Inv, Leads, CoreOf; }
    OpenCloses(s, t, b);
  }

  // ---- how it gets stuck ----

  /** A query that was let through as the probe and finds nothing reports nothing. */
  lemma QueryLosesProbe(s: State, o: Owner, b: string)
    requires Inv(s) && Attempting(s, o, b) && s.tasks[o].stage == AtBackend && s.tasks[o].op.Query?
    requires b in s.breakers && s.breakers[b].state.HalfOpen?
    requires ReplayWaits(s, b) && forall p :: p in s.tasks && p != o ==> Waiting(s.tasks[p], b)
    ensures Enabled(s, Write(o, false, false)) && Stuck(Next(s, Write(o, false, false)), b)
  {
    hide Inv, CoreOf, SameWaiting;
  }

  /** So any open circuit can get stuck: after the cooldown the next query for something
      unknown takes the probe. */
  lemma OpenCanStick(s: State, t: State, b: string) returns (u: State)
    requires Leads(s, t) && Inv(t) && b in t.config.names && b in t.breakers && t.breakers[b].state.Open? && NoAttempt(t, b)
    ensures Leads(s, u) && Stuck(u, b) && u.config == t.config
  {
    var v, o := OpenAttempt(s, t, b);
    QueryLosesProbe(v, o, b);
    LeadsOn(s, v, Write(o, false, false));
    hide Inv, Leads, Next, Stuck;
    u := Next(v, Write(o, false, false));
    LeadsInv(s, t);
    LeadsInv(s, u);
  }

  /** A registration that fails at the first slower backend counts one failure there. */
  lemma FailOnce(s: State, t: State, b: string, sub: Subscription) returns (u: State)
    requires Leads(s, t) && Inv(t) && t.config.names != [] && b == t.config.names[0]
    requires b in t.breakers && t.breakers[b].state.Closed? && NoAttempt(t, b)
    ensures Leads(s, u) && Inv(u) && u.config == t.config && NoAttempt(u, b)
    ensures b in u.breakers && u.breakers[b] == Breaking.Failing(t.breakers[b], t.clock)
  {
    AsyncKnown(t, b);
    var t1, o := NewTask(s, t, RegisterSub(sub));
    MemoryClosed(t1);
    hide Inv, Leads, OnlyTask, ConfigOk, NoAttempt, Waiting, Breaking.Failing;
    var t2 := RegisteredInMemory(s, t1, o, sub, t.config.names);
    assert t2.config == t.config && t2.clock == t.clock by { SameSettings(t1, t2, o); }
    AsyncKnown(t2, b);
    u := FailsThere(s, t2, o, b);
    OnlyTaskTransitive(t, t1, t2, o);
    OnlyTaskTransitive(t, t2, u, o);
    StillNoAttempt(t, u, o, b);
  }

  lemma SameSettings(t: State, u: State, o: Owner)
    requires OnlyTask(t, u, o)
    ensures u.config == t.config && u.clock == t.clock
  {
  }

  lemma StillNoAttempt(t: State, u: State, o: Owner, b: string)
    requires NoAttempt(t, b) && OnlyTask(t, u, o) && (o in u.tasks ==> Waiting(u.tasks[o], b))
    ensures NoAttempt(u, b) && u.config == t.config
  {
  }

  lemma StartedRegistration(t: State, c: nat, sub: Subscription)
    requires Inv(t) && Caller(c) !in t.tasks
    ensures Next(t, StartRegister(c, sub)) == t.(tasks := t.tasks[Caller(c) := Task(RegisterSub(sub), [MEMORY] + t.config.names, AtBreaker, false)])
  {
    hide Inv;
  }

  lemma RegisteredInMemory(s: State, t: State, o: Owner, sub: Subscription, names: seq<string>) returns (u: State)
    requires Leads(s, t) && Inv(t) && MEMORY in t.breakers && t.breakers[MEMORY].state.Closed? && MEMORY !in names
    requires o in t.tasks && t.tasks[o] == Task(RegisterSub(sub), [MEMORY] + names, AtBreaker, false) && names != []
    ensures Leads(s, u) && Inv(u) && At(u, o, AtBreaker) && u.tasks[o] == Task(RegisterSub(sub), names, AtBreaker, false)
    ensures OnlyTask(t, u, o) && forall b :: b in names && b in t.breakers ==> b in u.breakers && u.breakers[b] == t.breakers[b]
  {
    hide Inv, Leads, CoreOf, SameWaiting, Register;
    LeadsOn(s, t, Consult(o));
    var t1 := Next(t, Consult(o));
    LeadsOn(s, t1, Write(o, true, true));
    var t2 := Next(t1, Write(o, true, true));
    LeadsOn(s, t2, Report(o));
    u := Next(t2, Report(o));
    assert ([MEMORY] + names)[1..] == names;
  }

  lemma FailsThere(s: State, t: State, o: Owner, b: string) returns (u: State)
    requires Leads(s, t) && Inv(t) && At(t, o, AtBreaker) && t.tasks[o].op.RegisterSub? && !t.tasks[o].queued
    requires t.tasks[o].todo != [] && t.tasks[o].todo[0] == b && b != MEMORY && b in t.applied
    requires b in t.breakers && t.breakers[b].state.Closed?
    ensures Leads(s, u) && Inv(u) && OnlyTask(t, u, o) && o in u.tasks && Waiting(u.tasks[o], b)
    ensures b in u.breakers && u.breakers[b] == Breaking.Failing(t.breakers[b], t.clock)
  {
    hide Inv, Leads, CoreOf, SameWaiting, Breaking.Failing;
    LeadsOn(s, t, Consult(o));
    var t1 := Next(t, Consult(o));
    LeadsOn(s, t1, Write(o, false, false));
    var t2 := Next(t1, Write(o, false, false));
    LeadsOn(s, t2, Report(o));
    u := Next(t2, Report(o));
  }

  /** As many failures as the threshold, and the circuit is open. */
  lemma {:induction false} TripsOpen(s: State, t: State, b: string, sub: Subscription) returns (u: State)
    requires Leads(s, t) && Inv(t) && t.config.names != [] && b == t.config.names[0]
    requires b in t.breakers && t.breakers[b].state.Closed? && NoAttempt(t, b)
    ensures Leads(s, u) && Inv(u) && u.config == t.config && NoAttempt(u, b) && b in u.breakers && u.breakers[b].state.Open?
    decreases t.breakers[b].threshold - t.breakers[b].failures
  {
    hide Inv, Leads, NoAttempt;
    u := FailOnce(s, t, b, sub);
    if !u.breakers[b].state.Open? {
      u := TripsOpen(s, u, b, sub);
    }
  }

  /** Every chain with a slower backend has a run in which that backend's circuit gets
      stuck, whatever the settings. */
  lemma EveryChainCanStick(s: State, sub: Subscription) returns (u: State)
    requires IsStart(s) && s.config.names != []
    ensures Leads(s, u) && Reachable(u) && Stuck(u, s.config.names[0])
  {
    var b := s.config.names[0];
    StartReachable(s);
    LeadsToItself(s);
    StartQuiet(s);
    hide IsStart, Inv, Leads, Reachable, NoAttempt, Stuck;
    var t := TripsOpen(s, s, b, sub);
    assert b in t.config.names;
    u := OpenCanStick(s, t, b);
    ReachableOn(s, u);
  }

  lemma StartQuiet(s: State)
    requires IsStart(s)
    ensures s.breakers.Keys == (set b | b in s.config.names) + {MEMORY}
    ensures forall b :: b in s.breakers ==> s.breakers[b].state.Closed? && NoAttempt(s, b)
  {
  }

  // ---- and in no other way ----

  /** A producer takes the probe, or a query that was let through finds nothing. */
  ghost predicate LosesProbe(s: State, a: Action, b: string) {
    || (a.Consult? && At(s, a.owner, AtBreaker) && s.tasks[a.owner].queued && s.tasks[a.owner].todo != [] && s.tasks[a.owner].todo[0] == b)
    || (a.Write? && Attempting(s, a.owner, b) && s.tasks[a.owner].op.Query? && !a.ok)
  }

  /** Those are the only steps that leave a circuit stuck. */
  lemma OnlyWaysToStick(s: State, a: Action, b: string)
    requires Inv(s) && Enabled(s, a) && b in s.config.names && !Stuck(s, b) && Stuck(Next(s, a), b)
    ensures LosesProbe(s, a, b)
  {
    hide Inv, Stuck, Next, Enabled;
    match a {
      case Consult(o) => ConsultSticks(s, o, b);
      case Write(o, ok, stored) => WriteSticks(s, o, ok, stored, b);
      case Report(o) => ReportSticks(s, o, b);
      case Skip(o) => PassSticks(s, a, b);
      case Send(o) => PassSticks(s, a, b);
      case AppendLog(o, size) => PassSticks(s, a, b);
      case WriteMemory(o) => PassSticks(s, a, b);
      case Submit(_, _) => NewSticks(s, a, b);
      case StartRegister(_, _) => NewSticks(s, a, b);
      case StartQuery(_) => NewSticks(s, a, b);
      case Take(_) => NewSticks(s, a, b);
      case _ => QuietSticks(s, a, b);
    }
  }

  lemma ConsultSticks(s: State, o: Owner, b: string)
    requires Inv(s) && Enabled(s, Consult(o)) && !Stuck(s, b) && Stuck(Next(s, Consult(o)), b)
    ensures LosesProbe(s, Consult(o), b)
  {
    TodoNonEmpty(s, o);
    ConsultEffect(s, o);
    hide Inv, Next;
    OthersWait(s, Next(s, Consult(o)), o, b);
  }

  /** Tasks but the owner's are the same, so they are as idle before as after. */
  lemma OthersWait(s: State, t: State, o: Owner, b: string)
    requires TasksWait(t.tasks, b) && forall p :: p in s.tasks && p != o ==> p in t.tasks && t.tasks[p] == s.tasks[p]
    requires o in s.tasks ==> Waiting(s.tasks[o], b)
    ensures TasksWait(s.tasks, b)
  {
  }

  lemma WriteSticks(s: State, o: Owner, ok: bool, stored: bool, b: string)
    requires Inv(s) && Enabled(s, Write(o, ok, stored)) && !Stuck(s, b) && Stuck(Next(s, Write(o, ok, stored)), b)
    ensures LosesProbe(s, Write(o, ok, stored), b)
  {
    TodoNonEmpty(s, o);
    WriteEffect(s, o, ok, stored);
    hide Inv, Next;
    if s.tasks[o].todo[0] != b { OthersWait(s, Next(s, Write(o, ok, stored)), o, b); }
  }

  lemma ReportSticks(s: State, o: Owner, b: string)
    requires Inv(s) && Enabled(s, Report(o)) && !Stuck(s, b)
    ensures !Stuck(Next(s, Report(o)), b)
  {
    TodoNonEmpty(s, o);
    ReportEffect(s, o);
    hide Inv, Next;
    var t := Next(s, Report(o));
    if s.tasks[o].todo[0] != b && Stuck(t, b) { OthersWait(s, t, o, b); }
  }

  lemma PassSticks(s: State, a: Action, b: string)
    requires Inv(s) && Enabled(s, a) && !Stuck(s, b)
    requires a.Skip? || a.Send? || a.AppendLog? || a.WriteMemory?
    ensures !Stuck(Next(s, a), b)
  {
    hide Inv, Stuck, Next, Enabled;
    match a {
      case Skip(o) => SkipSticks(s, o, b);
      case Send(o) => SendSticks(s, o, b);
      case AppendLog(o, size) => AppendSticks(s, o, size, b);
      case WriteMemory(o) => MemorySticks(s, o, b);
    }
  }

  lemma SkipSticks(s: State, o: Owner, b: string)
    requires Inv(s) && Enabled(s, Skip(o)) && !Stuck(s, b)
    ensures !Stuck(Next(s, Skip(o)), b)
  {
    hide Inv, CoreOf, SameWaiting, TasksWait;
    if Stuck(Next(s, Skip(o)), b) { OthersWait(s, Next(s, Skip(o)), o, b); }
  }

  lemma SendSticks(s: State, o: Owner, b: string)
    requires Inv(s) && Enabled(s, Send(o)) && !Stuck(s, b)
    ensures !Stuck(Next(s, Send(o)), b)
  {
    TodoNonEmpty(s, o);
    SendEffect(s, o);
    hide Inv, Next;
    if Stuck(Next(s, Send(o)), b) { OthersWait(s, Next(s, Send(o)), o, b); }
  }

  lemma AppendSticks(s: State, o: Owner, size: nat, b: string)
    requires Inv(s) && Enabled(s, AppendLog(o, size)) && !Stuck(s, b)
    ensures !Stuck(Next(s, AppendLog(o, size)), b)
  {
    TodoNonEmpty(s, o);
    SealedLine(s);
    AppendEffect(s, o, size);
    hide Inv, Next;
    if Stuck(Next(s, AppendLog(o, size)), b) { OthersWait(s, Next(s, AppendLog(o, size)), o, b); }
  }

  lemma MemorySticks(s: State, o: Owner, b: string)
    requires Inv(s) && Enabled(s, WriteMemory(o)) && !Stuck(s, b)
    ensures !Stuck(Next(s, WriteMemory(o)), b)
  {
    WriteMemoryOnce(s, o);
    hide Inv, CoreOf, SameWaiting, TasksWait, Record;
    if Stuck(Next(s, WriteMemory(o)), b) { OthersWait(s, Next(s, WriteMemory(o)), o, b); }
  }

  lemma NewSticks(s: State, a: Action, b: string)
    requires Inv(s) && Enabled(s, a) && !Stuck(s, b)
    requires a.Submit? || a.StartRegister? || a.StartQuery? || a.Take?
    ensures !Stuck(Next(s, a), b)
  {
    hide Inv, CoreOf, SameWaiting, TasksWait;
    var t := Next(s, a);
    var o := if a.Take? then Worker(a.backend) else Caller(a.caller);
    if Stuck(t, b) { OthersWait(s, t, o, b); }
  }

  lemma QuietSticks(s: State, a: Action, b: string)
    requires Inv(s) && Enabled(s, a) && !Stuck(s, b)
    requires a.BeginPass? || a.OpenSegment? || a.ReplayConsult? || a.ReplayWrite? || a.ReplayReport? || a.CloseSegment? || a.EndPass? || a.Prune? || a.Tick?
    ensures !Stuck(Next(s, a), b)
  {
    if a.ReplayConsult? || a.ReplayWrite? || a.ReplayReport? {
      ReplaySticks(s, a, b);
    } else {
      hide Inv, CoreOf, TasksWait;
    }
  }

  lemma ReplaySticks(s: State, a: Action, b: string)
    requires Inv(s) && Enabled(s, a) && !Stuck(s, b)
    requires a.ReplayConsult? || a.ReplayWrite? || a.ReplayReport?
    ensures !Stuck(Next(s, a), b)
  {
    LineKnown(s);
    hide Inv, Stuck, Next, Enabled;
    match a {
      case ReplayConsult => ReplayConsultSticks(s, b);
      case ReplayWrite(ok, stored) => ReplayWriteSticks(s, ok, stored, b);
      case ReplayReport => ReplayReportSticks(s, b);
    }
  }

  lemma ReplayConsultSticks(s: State, b: string)
    requires Inv(s) && Enabled(s, ReplayConsult) && !Stuck(s, b)
    ensures !Stuck(Next(s, ReplayConsult), b)
  {
    LineKnown(s);
    hide Inv, CoreOf, TasksWait;
  }

  lemma ReplayWriteSticks(s: State, ok: bool, stored: bool, b: string)
    requires Inv(s) && Enabled(s, ReplayWrite(ok, stored)) && !Stuck(s, b)
    ensures !Stuck(Next(s, ReplayWrite(ok, stored)), b)
  {
    LineKnown(s);
    hide Inv, CoreOf, TasksWait;
  }

  lemma ReplayReportSticks(s: State, b: string)
    requires Inv(s) && Enabled(s, ReplayReport) && !Stuck(s, b)
    ensures !Stuck(Next(s, ReplayReport), b)
  {
    LineKnown(s);
    hide Inv, CoreOf, TasksWait;
  }
}
