/**
 The log of the metering machine over whole runs: what it holds stays until it has been
 applied, sealed segments are never written again, and it never drains.
 */
module MeteringLog {
  import opened SegmentLog
  import opened MeteringMachine
  import opened MeteringSafety

  // ---- one step ----

  /** Only appends and the end of a segment's replay touch the log, and backends only
      ever take more. */
  lemma StepLog(s: State, a: Action)
    requires Inv(s) && Enabled(s, a)
    ensures var s' := Next(s, a);
            && s.log.Valid() && Gained(s.applied, s'.applied)
            && (a.AppendLog? ==> Grown(s.log, s'.log) && s'.log.Valid() && s'.log.segments[s'.log.active] != [])
            && (a.CloseSegment? ==> s.replay.Inside? && s.replay.segment != s.log.active
                                    && s'.log == if s.replay.allOk then s.log.Deleted(s.replay.segment) else s.log)
            && (!a.AppendLog? && !a.CloseSegment? ==> s'.log == s.log)
  {
    LogAndReplay(s);
    if a.AppendLog? {
      var e := Entry(s.tasks[a.owner].todo[0], s.tasks[a.owner].op);
      AppendGrows(s.log, e, a.size, s.clock);
    }
    hide Shaped, WrittenOk, NothingLost, CoreOf, SameWaiting, Moved, Done, Consulted, Sent, WrittenToBackend, WrittenToMemory,
         Reported, Logged, Taken, NextLine, ReplayConsulted, ReplayWritten, ReplayReported, SegmentClosed, Grown, Gained;
    GainedSame(s.applied);
  }

  lemma GainedSame(applied: map<string, seq<Op>>)
    ensures Gained(applied, applied)
  {
  }

  lemma LogAndReplay(s: State)
    requires Inv(s)
    ensures s.log.Valid()
    ensures s.replay.Inside? ==> s.replay.segment in s.log.segments && s.replay.segment != s.log.active
  {
  }

  /** What the log holds is still there after a step, or has been applied. */
  lemma StepHolds(s: State, a: Action, e: Entry)
    requires Inv(s) && Enabled(s, a) && s.log.Holds(e)
    ensures Next(s, a).log.Holds(e) || AppliedEntry(Next(s, a).applied, e)
  {
    StepLog(s, a);
    var k: nat, i: nat :| s.log.At(k, i, e);
    if a.CloseSegment? && k == s.replay.segment && s.replay.allOk {
      ClosedApplied(s, i);
      StaysApplied(s.applied, Next(s, a).applied, e);
    } else {
      hide Inv, Next;
      assert Next(s, a).log.At(k, i, e);
    }
  }

  /** A segment about to be deleted has every line applied. */
  lemma ClosedApplied(s: State, i: nat)
    requires Inv(s) && Enabled(s, CloseSegment) && s.replay.allOk && i < |s.log.segments[s.replay.segment]|
    ensures AppliedEntry(s.applied, s.log.segments[s.replay.segment][i])
  {
  }

  lemma StaysApplied(applied: map<string, seq<Op>>, applied': map<string, seq<Op>>, e: Entry)
    requires Gained(applied, applied') && AppliedEntry(applied, e)
    ensures AppliedEntry(applied', e)
  {
    var i :| 0 <= i < |applied[e.backend]| && applied[e.backend][i] == e.op;
    assert applied'[e.backend][i] == e.op;
  }

  // ---- runs ----

  /** At least once: an entry, of an event or of a registration, stays in the log until
      the backend it names has taken it. */
  lemma {:induction false} LoggedUntilApplied(ss: seq<State>, acts: seq<Action>, i: nat, n: nat, e: Entry)
    requires Run(ss, acts) && i <= n < |ss|
    requires ss[i].log.Holds(e) || AppliedEntry(ss[i].applied, e)
    ensures ss[n].log.Holds(e) || AppliedEntry(ss[n].applied, e)
    decreases n
  {
    hide Inv, Next, Enabled, AppliedEntry, Log.Holds;
    if i < n {
      LoggedUntilApplied(ss, acts, i, n - 1, e);
      RunStep(ss, acts, n - 1);
      StepLog(ss[n - 1], acts[n - 1]);
      if ss[n - 1].log.Holds(e) {
        StepHolds(ss[n - 1], acts[n - 1], e);
      } else {
        StaysApplied(ss[n - 1].applied, ss[n].applied, e);
      }
    }
  }

  /** A sealed segment stays sealed; as long as it is there it is as it was when sealed,
      and once deleted it does not come back. */
  lemma {:induction false} SealedIsFinal(ss: seq<State>, acts: seq<Action>, i: nat, n: nat, k: nat)
    requires Run(ss, acts) && i <= n < |ss|
    requires k < ss[i].log.active
    ensures k < ss[n].log.active
    ensures k in ss[n].log.segments ==> k in ss[i].log.segments && ss[n].log.segments[k] == ss[i].log.segments[k]
    decreases n
  {
    hide Inv, Next, Enabled;
    if i < n {
      SealedIsFinal(ss, acts, i, n - 1, k);
      RunStep(ss, acts, n - 1);
      StepLog(ss[n - 1], acts[n - 1]);
    }
  }

  /** The log never drains: the active segment is sealed only by an append, which then
      writes to the next one, and only sealed segments are deleted. */
  lemma {:induction false} LogNeverDrains(ss: seq<State>, acts: seq<Action>, i: nat, n: nat)
    requires Run(ss, acts) && i < n < |ss| && acts[i].AppendLog?
    ensures ss[n].log.active in ss[n].log.segments && ss[n].log.segments[ss[n].log.active] != []
    decreases n
  {
    hide Inv, Next, Enabled;
    RunStep(ss, acts, n - 1);
    StepLog(ss[n - 1], acts[n - 1]);
    if i < n - 1 {
      LogNeverDrains(ss, acts, i, n - 1);
    }
  }

  /** So the log is empty exactly in the runs that have not needed it yet. */
  lemma {:induction false} EmptyIffUnused(ss: seq<State>, acts: seq<Action>, n: nat)
    requires Run(ss, acts) && n < |ss|
    ensures ss[n].log.Empty() <==> forall i :: 0 <= i < n ==> !acts[i].AppendLog?
  {
    hide Inv, Next, Enabled;
    if n == 0 {
      StartEmpty(ss[0]);
    } else {
      EmptyIffUnused(ss, acts, n - 1);
      RunStep(ss, acts, n - 1);
      StepLog(ss[n - 1], acts[n - 1]);
      if i :| 0 <= i < n && acts[i].AppendLog? {
        LogNeverDrains(ss, acts, i, n);
      }
    }
  }

  lemma StartEmpty(s: State)
    requires IsStart(s)
    ensures s.log.Empty()
  {
  }
}
