/** What single steps of the metering machine change and leave alone. */
module MeteringEffects {
  import opened MeteringMemory
  import opened SegmentLog
  import opened MeteringMachine
  import opened MeteringSafety
  import Breaking = CircuitBreaker

  /** A write moves its task on and touches no breaker. */
  lemma WriteEffect(s: State, o: Owner, ok: bool, stored: bool)
    requires Inv(s) && Enabled(s, Write(o, ok, stored))
    ensures var t := WrittenToBackend(s, o, ok, stored);
            && t == Next(s, Write(o, ok, stored))
            && t.breakers == s.breakers && t.replay == s.replay && t.log == s.log && t.config == s.config && t.clock == s.clock
            && (forall p :: p in s.tasks && p != o ==> p in t.tasks && t.tasks[p] == s.tasks[p])
            && (!(s.tasks[o].op.Query? && !ok) ==> o in t.tasks && t.tasks[o] == s.tasks[o].(stage := AtReport(ok)))
  {
    TodoNonEmpty(s, o);
    NextIsWrite(s, o, ok, stored);
    WriteTasks(s, o, ok, stored);
    hide Inv, CoreOf, SameWaiting, Register, Next, Gained;
  }

  lemma NextIsWrite(s: State, o: Owner, ok: bool, stored: bool)
    requires Inv(s) && Enabled(s, Write(o, ok, stored))
    ensures WrittenToBackend(s, o, ok, stored) == Next(s, Write(o, ok, stored))
  {
    TodoNonEmpty(s, o);
    hide Inv, WrittenToBackend;
  }

  lemma WriteTasks(s: State, o: Owner, ok: bool, stored: bool)
    requires Inv(s) && Enabled(s, Write(o, ok, stored)) && s.tasks[o].todo != []
    requires s.tasks[o].todo[0] == MEMORY || s.tasks[o].todo[0] in s.applied
    ensures var t := WrittenToBackend(s, o, ok, stored);
            && (forall p :: p in s.tasks && p != o ==> p in t.tasks && t.tasks[p] == s.tasks[p])
            && (!(s.tasks[o].op.Query? && !ok) ==> o in t.tasks && t.tasks[o] == s.tasks[o].(stage := AtReport(ok)))
  {
    hide Inv, CoreOf, SameWaiting, Register, Gained;
  }

  /** A consultation touches the breaker it consults and its task. */
  lemma ConsultEffect(s: State, o: Owner)
    requires Inv(s) && Enabled(s, Consult(o)) && s.tasks[o].todo != [] && s.tasks[o].todo[0] in s.breakers
    ensures var t, c := Next(s, Consult(o)), s.tasks[o].todo[0];
            && t.breakers == s.breakers[c := Breaking.Consulted(s.breakers[c], s.clock)]
            && t.replay == s.replay && t.log == s.log && t.config == s.config && t.clock == s.clock && t.tasks.Keys <= s.tasks.Keys
            && (forall p :: p in s.tasks && p != o ==> p in t.tasks && t.tasks[p] == s.tasks[p])
            && (!Breaking.Admits(s.breakers[c], s.clock) ==> t.breakers == s.breakers)
            && (Breaking.Admits(s.breakers[c], s.clock) ==>
                  o in t.tasks && t.tasks[o] == s.tasks[o].(stage := if s.tasks[o].queued then AtQueue else AtBackend))
  {
    assert Next(s, Consult(o)) == Consulted(s, o) by {
      hide Inv, Consulted;
    }
    hide Inv, CoreOf, SameWaiting, Next;
  }

  /** A report settles the breaker it is about. */
  lemma ReportEffect(s: State, o: Owner)
    requires Inv(s) && Enabled(s, Report(o)) && s.tasks[o].todo != [] && s.tasks[o].todo[0] in s.breakers
    ensures var t, c := Next(s, Report(o)), s.tasks[o].todo[0];
            && t.replay == s.replay && t.log == s.log && c in t.breakers
            && (s.breakers[c].state.HalfOpen? ==> !t.breakers[c].state.HalfOpen?)
            && (t.breakers[c].state.HalfOpen? ==> s.breakers[c].state.HalfOpen?)
            && (forall b :: b != c ==> (b in t.breakers <==> b in s.breakers) && (b in s.breakers ==> t.breakers[b] == s.breakers[b]))
            && (forall p :: p in s.tasks && p != o ==> p in t.tasks && t.tasks[p] == s.tasks[p])
  {
    assert Next(s, Report(o)) == Reported(s, o) by {
      hide Inv, Reported;
    }
    hide Inv, CoreOf, SameWaiting, Next;
  }

  /** A query ends with the first backend that has an answer. */
  lemma AnsweredQueryEnds(s: State, o: Owner)
    requires Inv(s) && Enabled(s, Report(o)) && s.tasks[o].op.Query? && s.tasks[o].stage.ok
    ensures Next(s, Report(o)).tasks == s.tasks - {o}
  {
    TodoNonEmpty(s, o);
    hide Inv, CoreOf, SameWaiting, Done, Moved;
  }

  lemma SendEffect(s: State, o: Owner)
    requires Inv(s) && Enabled(s, Send(o))
    ensures var t := Next(s, Send(o));
            && t.breakers == s.breakers && t.replay == s.replay && t.log == s.log
            && forall p :: p in s.tasks && p != o ==> p in t.tasks && t.tasks[p] == s.tasks[p]
  {
    TodoNonEmpty(s, o);
    assert Next(s, Send(o)) == Sent(s, o) by {
      hide Inv, Sent;
    }
    hide Inv, CoreOf, SameWaiting, Next;
  }

  /** Going on to the next backend touches no other task. */
  lemma DoneElsewhere(s: State, o: Owner)
    requires o in s.tasks
    ensures var t := Done(s, o);
            && t.breakers == s.breakers && t.replay == s.replay
            && (forall p :: p in s.tasks && p != o ==> p in t.tasks && t.tasks[p] == s.tasks[p])
  {
    hide CoreOf, SameWaiting;
  }

  /** An append touches the log and its task. */
  lemma AppendEffect(s: State, o: Owner, size: nat)
    requires Inv(s) && Enabled(s, AppendLog(o, size))
    ensures var t := Next(s, AppendLog(o, size));
            && t.breakers == s.breakers && t.replay == s.replay && Grown(s.log, t.log)
            && (forall p :: p in s.tasks && p != o ==> p in t.tasks && t.tasks[p] == s.tasks[p])
  {
    TodoNonEmpty(s, o);
    AppendGrows(s.log, Entry(s.tasks[o].todo[0], s.tasks[o].op), size, s.clock);
    assert Next(s, AppendLog(o, size)) == Logged(s, o, size) by {
      hide Inv, Logged;
    }
    DoneElsewhere(s.(log := s.log.Appended(Entry(s.tasks[o].todo[0], s.tasks[o].op), size, s.clock)), o);
    hide Inv, CoreOf, SameWaiting, Log.Appended, Grown, Next, Enabled, Done;
  }
}
