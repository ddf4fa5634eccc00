/** What can follow a state of the metering machine. */
module MeteringPaths {
  import opened MeteringMachine
  import opened MeteringSafety

  ghost predicate Path(ss: seq<State>, acts: seq<Action>) {
    && |ss| == |acts| + 1 && Inv(ss[0])
    && forall i {:trigger acts[i]} :: 0 <= i < |acts| ==>
         Inv(ss[i]) && Enabled(ss[i], acts[i]) && ss[i + 1] == Next(ss[i], acts[i])
  }

  /** Some continuation of the first state comes to the second. */
  ghost predicate Leads(s: State, t: State) {
    exists ss, acts :: Path(ss, acts) && ss[0] == s && ss[|acts|] == t
  }

  ghost predicate Reachable(s: State) {
    exists ss, acts :: Run(ss, acts) && ss[|acts|] == s
  }

  lemma LeadsToItself(s: State)
    requires Inv(s)
    ensures Leads(s, s)
  {
    hide Inv;
    assert Path([s], []);
  }

  /** One more step. */
  lemma LeadsOn(s: State, t: State, a: Action)
    requires Leads(s, t) && Inv(t) && Enabled(t, a)
    ensures Leads(s, Next(t, a)) && Inv(Next(t, a))
  {
    hide Inv, Enabled, Next, Leads;
    StepKeepsInv(t, a);
    StepLeads(t, a, Next(t, a));
    LeadsTransitive(s, t, Next(t, a));
  }

  lemma StepLeads(t: State, a: Action, u: State)
    requires Inv(t) && Enabled(t, a) && u == Next(t, a)
    ensures Leads(t, u)
  {
    hide Inv, Enabled, Next;
    var ss, acts := [t, u], [a];
    assert Path(ss, acts);
    assert ss[0] == t && ss[|acts|] == u;
  }

  lemma LeadsTransitive(s: State, t: State, u: State)
    requires Leads(s, t) && Leads(t, u)
    ensures Leads(s, u)
  {
    hide Inv, Enabled, Next;
    var ss, acts :| Path(ss, acts) && ss[0] == s && ss[|acts|] == t;
    var ts, more :| Path(ts, more) && ts[0] == t && ts[|more|] == u;
    var us, all := ss[..|acts|] + ts, acts + more;
    assert Path(us, all) by {
      forall i | 0 <= i < |all|
        ensures Inv(us[i]) && Enabled(us[i], all[i]) && us[i + 1] == Next(us[i], all[i])
      {
        if i < |acts| { assert all[i] == acts[i] && us[i] == ss[i] && us[i + 1] == ss[i + 1]; }
        else { assert all[i] == more[i - |acts|] && us[i] == ts[i - |acts|] && us[i + 1] == ts[i - |acts| + 1]; }
      }
    }
    assert us[0] == s && us[|all|] == u;
  }

  lemma {:induction false} PathInv(ss: seq<State>, acts: seq<Action>, n: nat)
    requires Path(ss, acts) && n < |ss|
    ensures Inv(ss[n]) && ss[n].config == ss[0].config
  {
    hide Inv, Enabled, Next;
    if n > 0 {
      PathInv(ss, acts, n - 1);
      var a := acts[n - 1];
      StepKeepsInv(ss[n - 1], a);
      SameConfig(ss[n - 1], a);
    }
  }

  lemma LeadsInv(s: State, t: State)
    requires Leads(s, t)
    ensures Inv(s) && Inv(t) && t.config == s.config
  {
    hide Inv, Enabled, Next;
    var ss, acts :| Path(ss, acts) && ss[0] == s && ss[|acts|] == t;
    PathInv(ss, acts, |acts|);
  }

  /** Continuations of runs are runs. */
  lemma ReachableOn(s: State, t: State)
    requires Reachable(s) && Leads(s, t)
    ensures Reachable(t)
  {
    hide Inv, Enabled, Next, IsStart;
    var ss, acts :| Run(ss, acts) && ss[|acts|] == s;
    var ts, more :| Path(ts, more) && ts[0] == s && ts[|more|] == t;
    var us, all := ss[..|acts|] + ts, acts + more;
    assert Run(us, all) by {
      assert us[0] == ss[0];
      forall i | 0 <= i < |all| && Inv(us[i])
        ensures Enabled(us[i], all[i]) && us[i + 1] == Next(us[i], all[i])
      {
        if i < |acts| { assert all[i] == acts[i] && us[i] == ss[i] && us[i + 1] == ss[i + 1]; }
        else { assert all[i] == more[i - |acts|] && us[i] == ts[i - |acts|] && us[i + 1] == ts[i - |acts| + 1]; }
      }
    }
    assert us[|all|] == t;
  }

  lemma StartReachable(s: State)
    requires IsStart(s)
    ensures Reachable(s) && Inv(s)
  {
    hide Inv, Enabled, Next, IsStart;
    assert Run([s], []);
    ReachableInv([s], [], 0);
  }
}
