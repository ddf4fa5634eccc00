/**
 The duplicate filter (internal/kernel/metering_dedup.go): event ids with the time
 they were first seen, pruned after a retention period.
 */
module EventDedup {
  import opened Calendar

  const DEFAULT_RETENTION := 3_600_000_000_000

  type Seen = map<string, Instant>

  predicate Duplicate(seen: Seen, id: string) { id != "" && id in seen }

  function Checked(seen: Seen, id: string, now: Instant): Seen {
    if id == "" || id in seen then seen else seen[id := now]
  }

  function Pruned(seen: Seen, retention: int, now: Instant): Seen {
    map id | id in seen && seen[id] >= now - retention :: seen[id]
  }

  // ---- histories ----

  datatype Call = Check(id: string, at: Instant) | Prune(at: Instant)

  function Step(seen: Seen, retention: int, c: Call): Seen {
    match c
    case Check(id, at) => Checked(seen, id, at)
    case Prune(at) => Pruned(seen, retention, at)
  }

  ghost predicate History(ss: seq<Seen>, cs: seq<Call>, retention: int) {
    && |ss| == |cs| + 1 && ss[0] == map[] && retention >= 0
    && (forall i {:trigger cs[i]} :: 0 <= i < |cs| ==> ss[i + 1] == Step(ss[i], retention, cs[i]))
    && (forall i, j :: 0 <= i < j < |cs| ==> cs[i].at <= cs[j].at)
  }

  ghost predicate Accepts(ss: seq<Seen>, cs: seq<Call>, i: nat, id: string)
    requires |ss| == |cs| + 1 && i < |cs|
  {
    cs[i].Check? && cs[i].id == id && !Duplicate(ss[i], id)
  }

  /** An accepted id is remembered, since its acceptance or later, for as long as the
      retention lasts. */
  lemma {:induction false} Remembered(ss: seq<Seen>, cs: seq<Call>, retention: int, i: nat, n: nat)
    requires History(ss, cs, retention) && i < n <= |cs|
    requires cs[i].Check? && cs[i].id != "" && Accepts(ss, cs, i, cs[i].id)
    ensures (cs[i].id in ss[n] && cs[i].at <= ss[n][cs[i].id]) || cs[n - 1].at - cs[i].at > retention
  {
    assert ss[n] == Step(ss[n - 1], retention, cs[n - 1]);
    if i + 1 < n {
      Remembered(ss, cs, retention, i, n - 1);
    }
  }

  /** Two acceptances of one id are more than the retention apart. */
  lemma AcceptancesAreSpaced(ss: seq<Seen>, cs: seq<Call>, retention: int, i: nat, j: nat)
    requires History(ss, cs, retention) && i < j < |cs|
    requires cs[i].Check? && cs[i].id != ""
    requires Accepts(ss, cs, i, cs[i].id) && Accepts(ss, cs, j, cs[i].id)
    ensures cs[j].at - cs[i].at > retention
  {
    Remembered(ss, cs, retention, i, j);
  }

  /** Conversely a refused check repeats an id accepted before and not forgotten. */
  lemma {:induction false} RefusedOnlyRepeats(ss: seq<Seen>, cs: seq<Call>, retention: int, n: nat, id: string)
    requires History(ss, cs, retention) && n <= |cs|
    requires id in ss[n]
    ensures exists i :: 0 <= i < n && Accepts(ss, cs, i, id) && cs[i].at == ss[n][id]
  {
    assert n > 0;
    assert ss[n] == Step(ss[n - 1], retention, cs[n - 1]);
    if id in ss[n - 1] {
      RefusedOnlyRepeats(ss, cs, retention, n - 1, id);
    } else {
      assert Accepts(ss, cs, n - 1, id);
    }
  }

  /** What a prune leaves was accepted within the retention: an id not accepted for longer
      is accepted again. */
  lemma ForgottenAfterPrune(ss: seq<Seen>, cs: seq<Call>, retention: int, n: nat, id: string)
    requires History(ss, cs, retention) && n < |cs| && cs[n].Prune? && id in ss[n + 1]
    ensures exists i :: 0 <= i < n && Accepts(ss, cs, i, id) && cs[n].at - cs[i].at <= retention
  {
    assert ss[n + 1] == Step(ss[n], retention, cs[n]);
    RefusedOnlyRepeats(ss, cs, retention, n, id);
  }

  /** An event without an id is never a duplicate. */
  lemma NamelessIsNew(ss: seq<Seen>, cs: seq<Call>, retention: int, i: nat)
    requires History(ss, cs, retention) && i < |cs| && cs[i].Check? && cs[i].id == ""
    ensures Accepts(ss, cs, i, "") && ss[i + 1] == ss[i]
  {
    assert ss[i + 1] == Step(ss[i], retention, cs[i]);
  }

  // ---- the filter as the code has it ----

  class EventDedup {
    var seen: Seen
    const retention: int

    constructor (retention: int)
      ensures seen == map[]
      ensures this.retention == if retention <= 0 then 3_600_000_000_000 else retention
    {
      seen := map[];
      this.retention := if retention <= 0 then DEFAULT_RETENTION else retention;
    }

    method IsDuplicate(id: string, now: Instant) returns (dup: bool)
      modifies this
      ensures dup == Duplicate(old(seen), id)
      ensures seen == Checked(old(seen), id, now)
    {
      if id == "" {
        return false;
      }
      if id in seen {
        return true;
      }
      seen := seen[id := now];
      return false;
    }

    method Prune(now: Instant)
      modifies this
      ensures seen == Pruned(old(seen), retention, now)
    {
      var cutoff := now - retention;
      var rest := seen.Keys;
      while rest != {}
        invariant rest <= old(seen).Keys
        invariant seen == map id | id in old(seen) && (id in rest || old(seen)[id] >= cutoff) :: old(seen)[id]
        decreases rest
      {
        var id :| id in rest;
        if seen[id] < cutoff {
          seen := seen - {id};
        }
        rest := rest - {id};
      }
    }
  }
}
