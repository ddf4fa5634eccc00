/**
 The segmented write-ahead log (internal/kernel/metering_wal.go, and the log of
 internal/kernel/catalog_wal.go, which shares its segments and rotation).

 Segments are numbered.  The active one receives appends, the others are sealed; a
 replay pass attempts every entry of every sealed segment and deletes a segment only
 when all of its entries succeeded.
 */
module SegmentLog {
  import opened Calendar

  datatype Limits = Limits(maxSize: nat, maxAge: int)

  datatype Log<E> = Log(
    segments: map<nat, seq<E>>,
    active: nat,
    activeSize: nat,
    activeCreatedAt: Instant,
    limits: Limits)
  {
    /** Segment numbers only ever go up, so opening the next one creates it. */
    ghost predicate Valid() {
      active in segments && forall k :: k in segments ==> k <= active
    }

    predicate ShouldRotate(now: Instant) {
      activeSize >= limits.maxSize || now - activeCreatedAt >= limits.maxAge
    }

    /** Opens the next segment, appending to a file of that name if there is one. */
    function Rotated(now: Instant): Log<E> {
      var next := active + 1;
      this.(segments := segments[next := if next in segments then segments[next] else []],
            active := next, activeSize := 0, activeCreatedAt := now)
    }

    function Put(e: E, size: nat): Log<E>
      requires active in segments
    {
      this.(segments := segments[active := segments[active] + [e]], activeSize := activeSize + size)
    }

    function Appended(e: E, size: nat, now: Instant): Log<E>
      requires active in segments
    {
      (if ShouldRotate(now) then Rotated(now) else this).Put(e, size)
    }

    function Deleted(k: nat): Log<E> {
      this.(segments := segments - {k})
    }

    ghost predicate Holds(e: E) {
      exists k, i :: At(k, i, e)
    }

    ghost predicate At(k: nat, i: nat, e: E) {
      k in segments && i < |segments[k]| && segments[k][i] == e
    }

    ghost predicate Empty() {
      forall k :: k in segments ==> segments[k] == []
    }
  }

  /** What appends and rotations may do between two looks at the log: sealed segments
      are as they were, the active one is longer, every new segment is a later one. */
  ghost predicate Grown<E>(a: Log<E>, b: Log<E>) {
    && a.active <= b.active
    && a.limits == b.limits
    && (forall k :: k in a.segments ==>
          k in b.segments && a.segments[k] <= b.segments[k] && (k != a.active ==> b.segments[k] == a.segments[k]))
    && (forall k :: k in b.segments ==> k in a.segments || a.active < k)
  }

  lemma GrownTransitive<E>(a: Log<E>, b: Log<E>, c: Log<E>)
    requires a.Valid() && b.Valid() && Grown(a, b) && Grown(b, c)
    ensures Grown(a, c)
  {
    forall k | k in a.segments
      ensures k in c.segments && a.segments[k] <= c.segments[k] && (k != a.active ==> c.segments[k] == a.segments[k])
    {
      assert k in b.segments;
    }
  }

  lemma RotatedHolds<E>(l: Log<E>, now: Instant, x: E)
    requires l.Valid()
    ensures l.Rotated(now).Valid() && Grown(l, l.Rotated(now))
    ensures l.Rotated(now).Holds(x) <==> l.Holds(x)
  {
    var r := l.Rotated(now);
    if l.Holds(x) {
      var k, i :| l.At(k, i, x);
      assert r.At(k, i, x);
    }
    if r.Holds(x) {
      var k, i :| r.At(k, i, x);
      assert l.At(k, i, x);
    }
  }

  /** Appending, after a rotation or without, keeps what the log held and adds only the
      entry. */
  lemma PutHolds<E>(l: Log<E>, rotate: bool, e: E, size: nat, now: Instant, x: E)
    requires l.Valid()
    ensures var p := (if rotate then l.Rotated(now) else l).Put(e, size);
            p.Valid() && Grown(l, p) && (p.Holds(x) <==> l.Holds(x) || x == e)
  {
    var r := if rotate then l.Rotated(now) else l;
    var p := r.Put(e, size);
    RotatedHolds(l, now, x);
    assert p.At(p.active, |p.segments[p.active]| - 1, e);
    if r.Holds(x) {
      var k, i :| r.At(k, i, x);
      assert p.At(k, i, x);
    }
    if p.Holds(x) && x != e {
      var k, i :| p.At(k, i, x);
      assert r.At(k, i, x);
    }
  }

  lemma AppendGrows<E>(l: Log<E>, e: E, size: nat, now: Instant)
    requires l.Valid()
    ensures l.Appended(e, size, now).Valid()
    ensures Grown(l, l.Appended(e, size, now))
    ensures l.Appended(e, size, now).Holds(e)
  {
    PutHolds(l, l.ShouldRotate(now), e, size, now, e);
  }

  /** An entry goes to the end of the active segment, or of the next one if the active one
      has reached its size or its age, which then starts anew; no other segment changes. */
  lemma AppendMeaning<E>(l: Log<E>, e: E, size: nat, now: Instant)
    requires l.Valid()
    ensures var full := l.activeSize >= l.limits.maxSize || now - l.activeCreatedAt >= l.limits.maxAge;
            var a := l.Appended(e, size, now);
            && a.active == (if full then l.active + 1 else l.active) && a.limits == l.limits
            && a.segments == l.segments[a.active := (if full then [] else l.segments[l.active]) + [e]]
            && a.activeSize == size + (if full then 0 else l.activeSize)
            && a.activeCreatedAt == (if full then now else l.activeCreatedAt)
  {
  }

  /** Appending keeps what the log held, and adds only the entry. */
  lemma AppendHolds<E>(l: Log<E>, e: E, size: nat, now: Instant, x: E)
    requires l.Valid()
    ensures l.Appended(e, size, now).Holds(x) <==> l.Holds(x) || x == e
  {
    PutHolds(l, l.ShouldRotate(now), e, size, now, x);
  }

  // ---- depth ----

  /** The number of entries in some segments. */
  ghost function Entries<E>(segments: map<nat, seq<E>>, ks: set<nat>): nat
    requires ks <= segments.Keys
  {
    if ks == {} then 0
    else
      var k :| k in ks;
      |segments[k]| + Entries(segments, ks - {k})
  }

  lemma {:induction false} EntriesPick<E>(segments: map<nat, seq<E>>, ks: set<nat>, k: nat)
    requires ks <= segments.Keys && k in ks
    ensures Entries(segments, ks) == |segments[k]| + Entries(segments, ks - {k})
    decreases ks
  {
    var first :| first in ks && Entries(segments, ks) == |segments[first]| + Entries(segments, ks - {first});
    if first != k {
      EntriesPick(segments, ks - {first}, k);
      EntriesPick(segments, ks - {k}, first);
      assert ks - {first} - {k} == ks - {k} - {first};
    }
  }

  /** Nothing is pending exactly when every segment is empty. */
  lemma {:induction false} NoEntriesIff<E>(segments: map<nat, seq<E>>, ks: set<nat>)
    requires ks <= segments.Keys
    ensures Entries(segments, ks) == 0 <==> forall k :: k in ks ==> segments[k] == []
    decreases ks
  {
    if ks != {} {
      var k :| k in ks;
      EntriesPick(segments, ks, k);
      NoEntriesIff(segments, ks - {k});
    }
  }

  // ---- restart ----

  /** A log opened on existing segments starts from the number of files. */
  function Reopened<E>(files: map<nat, seq<E>>, limits: Limits, now: Instant): Log<E> {
    Log(files, |files|, 0, now, limits).Rotated(now)
  }

  /** The log is sound after a restart exactly when no file is numbered above the
      number of files. */
  lemma ReopenedValidIff<E>(files: map<nat, seq<E>>, limits: Limits, now: Instant)
    ensures (Reopened(files, limits, now).Valid() && Reopened(files, limits, now).active !in files)
            <==> forall k :: k in files ==> k <= |files|
  {
    var l := Reopened(files, limits, now);
    assert l.active == |files| + 1 && l.segments.Keys == files.Keys + {l.active};
    if l.Valid() && l.active !in files {
      forall k | k in files
        ensures k <= |files|
      {
        assert k in l.segments;
      }
    }
  }

  datatype Addition<E> = Addition(entry: E, size: nat, at: Instant)

  /** Any number of appends, each rotating first where it is due. */
  function AppendedAll<E>(l: Log<E>, more: seq<Addition<E>>): (r: Log<E>)
    requires l.active in l.segments
    ensures r.active in r.segments
    decreases |more|
  {
    if more == [] then l
    else AppendedAll(l.Appended(more[0].entry, more[0].size, more[0].at), more[1..])
  }

  lemma {:induction false} AppendedAllGrows<E>(l: Log<E>, more: seq<Addition<E>>)
    requires l.Valid()
    ensures AppendedAll(l, more).Valid() && Grown(l, AppendedAll(l, more))
    decreases |more|
  {
    if more != [] {
      var a := l.Appended(more[0].entry, more[0].size, more[0].at);
      AppendGrows(l, more[0].entry, more[0].size, more[0].at);
      AppendedAllGrows(a, more[1..]);
      GrownTransitive(l, a, AppendedAll(a, more[1..]));
    }
  }

  /** Appends that come late enough walk through the numbers, whatever files there are,
      and write into any file they come to. */
  lemma {:induction false} AppendsReach<E>(l: Log<E>, k: nat, e: E) returns (more: seq<Addition<E>>)
    requires l.active in l.segments && l.active <= k && k in l.segments
    requires l.limits.maxSize > 0 && l.limits.maxAge > 0 && (l.active == k ==> l.activeSize == 0)
    ensures k in AppendedAll(l, more).segments && AppendedAll(l, more).segments[k] != l.segments[k]
    decreases k - l.active
  {
    if l.active == k {
      more := [Addition(e, 0, l.activeCreatedAt)];
      var a := l.Appended(e, 0, l.activeCreatedAt);
      assert |a.segments[k]| == |l.segments[k]| + 1;
      assert AppendedAll(l, more) == AppendedAll(a, []);
    } else {
      var late := l.activeCreatedAt + l.limits.maxAge;
      var a := l.Appended(e, 0, late);
      if a.active == k {
        more := [Addition(e, 0, late)];
        assert |a.segments[k]| == |l.segments[k]| + 1;
        assert AppendedAll(l, more) == AppendedAll(a, []);
      } else {
        var rest := AppendsReach(a, k, e);
        more := [Addition(e, 0, late)] + rest;
        assert more[1..] == rest;
      }
    }
  }

  /** After a restart some sequence of appends writes into a file that was there, which is
      then sealed, if and only if a file is numbered above the number of files. */
  lemma RestartOverwritesIff<E(!new)>(files: map<nat, seq<E>>, limits: Limits, now: Instant, e: E)
    requires limits.maxSize > 0 && limits.maxAge > 0
    ensures (exists more, k :: k in files && k in AppendedAll(Reopened(files, limits, now), more).segments
                               && AppendedAll(Reopened(files, limits, now), more).segments[k] != files[k])
            <==> exists k :: k in files && k > |files|
  {
    var l := Reopened(files, limits, now);
    assert forall k :: k in files ==> k in l.segments && l.segments[k] == files[k];
    if k :| k in files && k > |files| {
      var more := AppendsReach(l, k, e);
      assert k in files && k in AppendedAll(l, more).segments && AppendedAll(l, more).segments[k] != files[k];
    } else {
      ReopenedValidIff(files, limits, now);
      forall more: seq<Addition<E>>, k | k in files && k in AppendedAll(l, more).segments
        ensures AppendedAll(l, more).segments[k] == files[k]
      {
        AppendedAllGrows(l, more);
      }
    }
  }

  /** Two files of which the first was deleted: the next append goes into the second. */
  lemma GapIsOverwritten<E>(sealed: seq<E>, limits: Limits, now: Instant, e: E)
    requires limits.maxSize > 0 && limits.maxAge > 0
    ensures var l := Reopened(map[2 := sealed], limits, now);
            l.active == 2 && l.Appended(e, 0, now).segments == map[2 := sealed + [e]]
  {
    assert |map[2 := sealed]| == 1;
  }

  // ---- the log as the code has it ----

  class MeteringWAL<E(0)> {
    var segments: map<nat, seq<E>>
    var activeFile: nat
    var activeSize: nat
    var activeCreatedAt: Instant
    var stopped: bool
    const limits: Limits
    ghost var attempts: seq<(E, bool)>

    function View(): Log<E>
      reads this
    {
      Log(segments, activeFile, activeSize, activeCreatedAt, limits)
    }

    ghost predicate Valid()
      reads this
    {
      View().Valid()
    }

    /** A log in a fresh directory. */
    constructor (limits: Limits, now: Instant)
      ensures Valid() && !stopped && this.limits == limits
      ensures View() == Reopened(map[], limits, now)
    {
      this.limits := limits;
      segments, activeFile, activeSize, activeCreatedAt := map[1 := []], 1, 0, now;
      stopped, attempts := false, [];
    }

    method RotateSegment(now: Instant)
      modifies this
      ensures View() == old(View()).Rotated(now) && stopped == old(stopped) && attempts == old(attempts)
      ensures old(Valid()) ==> Valid() && Grown(old(View()), View())
    {
      var next := activeFile + 1;
      segments := segments[next := if next in segments then segments[next] else []];
      activeFile, activeSize, activeCreatedAt := next, 0, now;
    }

    method Append(e: E, size: nat, now: Instant) returns (ok: bool)
      requires Valid()
      modifies this
      ensures Valid() && ok == !old(stopped) && stopped == old(stopped) && attempts == old(attempts)
      ensures ok ==> View() == old(View()).Appended(e, size, now)
      ensures ok ==> activeFile == old(activeFile) + if old(activeSize) >= limits.maxSize || now - old(activeCreatedAt) >= limits.maxAge then 1 else 0
      ensures Grown(old(View()), View())
      ensures !ok ==> View() == old(View())
    {
      if stopped {
        return false;
      }
      AppendGrows(View(), e, size, now);
      if activeSize >= limits.maxSize || now - activeCreatedAt >= limits.maxAge {
        RotateSegment(now);
      }
      segments := segments[activeFile := segments[activeFile] + [e]];
      activeSize := activeSize + size;
      return true;
    }

    /** The number of pending entries over all segments. */
    method Depth() returns (count: nat)
      ensures count == Entries(segments, segments.Keys)
    {
      count := 0;
      var rest := segments.Keys;
      while rest != {}
        invariant rest <= segments.Keys
        invariant count + Entries(segments, rest) == Entries(segments, segments.Keys)
        decreases rest
      {
        var k :| k in rest;
        EntriesPick(segments, rest, k);
        count := count + |segments[k]|;
        rest := rest - {k};
      }
    }

    method Stop()
      modifies this
      ensures stopped && View() == old(View()) && attempts == old(attempts)
    {
      stopped := true;
    }

    /** Whatever other goroutines append while the replay loop does not hold the lock. */
    method Others()
      requires Valid()
      modifies this
      ensures Valid() && Grown(old(View()), View()) && attempts == old(attempts)
    {
      var n: nat := *;
      while n > 0
        invariant Valid() && Grown(old(View()), View()) && attempts == old(attempts)
      {
        var e: E, size: nat, now: Instant := *, *, *;
        ghost var mid := View();
        var _ := Append(e, size, now);
        GrownTransitive(old(View()), mid, View());
        n := n - 1;
      }
    }

    /** The replay function is called for an entry, while others append; `attempts` is the
        history of these calls and their outcomes. */
    method ReplayEntry(e: E) returns (ok: bool)
      requires Valid()
      modifies this
      ensures Valid() && Grown(old(View()), View()) && attempts == old(attempts) + [(e, ok)]
    {
      ok := *;
      attempts := attempts + [(e, ok)];
      Others();
    }

    /** Replays the entries of a sealed segment, each once and in order, and succeeds if
        every call did. */
    method ReplaySegment(k: nat) returns (allSucceeded: bool)
      requires Valid() && k in segments && k != activeFile
      modifies this
      ensures Valid() && Grown(old(View()), View())
      ensures old(attempts) <= attempts && AreCalls(attempts[|old(attempts)|..], old(segments)[k])
      ensures allSucceeded <==> AllSucceeded(attempts[|old(attempts)|..])
    {
      GrownSame(View());
      allSucceeded := true;
      ghost var calls := [];
      var line := 0;
      while line < |segments[k]|
        invariant Valid() && Grown(old(View()), View())
        invariant line <= |segments[k]| && attempts == old(attempts) + calls
        invariant AreCalls(calls, old(segments)[k][..line])
        invariant allSucceeded <==> AllSucceeded(calls)
        decreases |old(segments)[k]| - line
      {
        ghost var mid := View();
        var ok := ReplayEntry(segments[k][line]);
        GrownTransitive(old(View()), mid, View());
        OneMoreCall(calls, (mid.segments[k][line], ok));
        calls := calls + [(mid.segments[k][line], ok)];
        if !ok {
          allSucceeded := false;
        }
        line := line + 1;
      }
      assert old(segments)[k][..line] == old(segments)[k];
      assert attempts[|old(attempts)|..] == calls;
    }

    /** A sealed segment's turn: it is deleted exactly when all its calls succeeded. */
    method ReplayAndDelete(k: nat)
      requires Valid() && k in segments && k < activeFile
      modifies this
      ensures Valid() && old(activeFile) <= activeFile
      ensures old(attempts) <= attempts && AreCalls(attempts[|old(attempts)|..], old(segments)[k])
      ensures k !in segments <==> AllSucceeded(attempts[|old(attempts)|..])
      ensures forall j :: j in old(segments) && j != k ==> j in segments
      ensures forall j :: j in old(segments) && j in segments ==>
                old(segments)[j] <= segments[j] && (j != old(activeFile) ==> segments[j] == old(segments)[j])
      ensures forall j :: j in segments ==> j in old(segments) || old(activeFile) < j
    {
      var all := ReplaySegment(k);
      if all {
        segments := segments - {k};
      }
    }

    /** One pass of the retry loop over the segments sealed when it begins, oldest first.
        Each is replayed in full by calls of its own; it is gone at the end exactly when
        all of these succeeded, and otherwise still has every entry; all the other
        segments have lost nothing. */
    method ReplaySealed() returns (ghost at: map<nat, nat>)
      requires Valid()
      modifies this
      ensures Valid() && old(attempts) <= attempts
      ensures at.Keys == old(segments).Keys - {old(activeFile)}
      ensures ReplayedIn(old(segments), segments, attempts, at, |old(attempts)|)
      ensures old(activeFile) in segments && old(segments)[old(activeFile)] <= segments[old(activeFile)]
      ensures forall k :: k in segments ==> k in old(segments) || old(activeFile) < k
    {
      hide ReplayedIn;
      var activePath := activeFile;
      at := map[];
      NothingReplayed(segments, attempts, |attempts|);
      var k := 0;
      while k < activePath
        invariant k <= activePath == old(activeFile) <= activeFile && Valid() && old(attempts) <= attempts
        invariant at.Keys == set j | j in old(segments) && j < k
        invariant ReplayedIn(old(segments), segments, attempts, at, |old(attempts)|)
        invariant Untouched(old(segments), activePath, k)
      {
        if k in segments {
          ghost var before, mid := attempts, segments;
          ReplayAndDelete(k);
          OneMoreReplayed(old(segments), mid, segments, before, attempts, at, k, |old(attempts)|);
          at := at[k := |before|];
        }
        k := k + 1;
      }
    }

    /** Nothing sealed has changed or gone from number k on. */
    ghost predicate Untouched(segs: map<nat, seq<E>>, activePath: nat, k: nat)
      reads this
    {
      && (forall j :: j in segs && k <= j < activePath ==> j in segments && segments[j] == segs[j])
      && activePath in segs && activePath in segments && segs[activePath] <= segments[activePath]
      && (forall j :: j in segments ==> j in segs || activePath < j)
    }
  }

  // ---- the history of replay calls ----

  /** One call per entry, in order. */
  ghost predicate AreCalls<E>(calls: seq<(E, bool)>, entries: seq<E>) {
    |calls| == |entries| && forall i :: 0 <= i < |calls| ==> calls[i].0 == entries[i]
  }

  ghost predicate AllSucceeded<E>(calls: seq<(E, bool)>) {
    forall i :: 0 <= i < |calls| ==> calls[i].1
  }

  lemma OneMoreCall<E>(calls: seq<(E, bool)>, call: (E, bool))
    ensures AllSucceeded(calls + [call]) <==> AllSucceeded(calls) && call.1
  {
    var more := calls + [call];
    assert more[|calls|] == call;
    if AllSucceeded(more) {
      assert forall i :: 0 <= i < |calls| ==> more[i].1 && calls[i] == more[i];
    }
  }

  /** The segment was replayed by the calls from a position on, and is gone exactly when
      all of them succeeded; otherwise it is as it was. */
  ghost predicate ReplayedAt<E>(entries: seq<E>, k: nat, segments: map<nat, seq<E>>, attempts: seq<(E, bool)>, at: nat) {
    && at + |entries| <= |attempts|
    && AreCalls(attempts[at..at + |entries|], entries)
    && (k !in segments <==> AllSucceeded(attempts[at..at + |entries|]))
    && (k in segments ==> segments[k] == entries)
  }

  /** Each segment with a position was replayed there, by calls of its own, made after
      those for lower numbers. */
  ghost predicate ReplayedIn<E>(before: map<nat, seq<E>>, segments: map<nat, seq<E>>, attempts: seq<(E, bool)>, at: map<nat, nat>, from: nat) {
    && (forall k :: k in at ==> k in before && from <= at[k] && ReplayedAt(before[k], k, segments, attempts, at[k]))
    && (forall j, k :: j in at && k in at && j < k ==> at[j] + |before[j]| <= at[k])
  }

  lemma NothingReplayed<E>(segments: map<nat, seq<E>>, attempts: seq<(E, bool)>, from: nat)
    ensures ReplayedIn(segments, segments, attempts, map[], from)
  {
  }

  lemma StaysReplayedAt<E>(entries: seq<E>, k: nat, mid: map<nat, seq<E>>, segments: map<nat, seq<E>>,
                           attempts: seq<(E, bool)>, longer: seq<(E, bool)>, at: nat)
    requires ReplayedAt(entries, k, mid, attempts, at) && attempts <= longer
    requires (k in segments <==> k in mid) && (k in segments ==> segments[k] == mid[k])
    ensures ReplayedAt(entries, k, segments, longer, at) && at + |entries| <= |attempts|
  {
    assert longer[at..at + |entries|] == attempts[at..at + |entries|];
  }

  lemma NewlyReplayedAt<E>(entries: seq<E>, k: nat, segments: map<nat, seq<E>>, attempts: seq<(E, bool)>, longer: seq<(E, bool)>)
    requires attempts <= longer && AreCalls(longer[|attempts|..], entries)
    requires (k !in segments <==> AllSucceeded(longer[|attempts|..])) && (k in segments ==> segments[k] == entries)
    ensures ReplayedAt(entries, k, segments, longer, |attempts|)
  {
    assert longer[|attempts|..|attempts| + |entries|] == longer[|attempts|..];
  }

  lemma OneMoreReplayed<E>(before: map<nat, seq<E>>, mid: map<nat, seq<E>>, segments: map<nat, seq<E>>,
                           attempts: seq<(E, bool)>, longer: seq<(E, bool)>, at: map<nat, nat>, k: nat, from: nat)
    requires ReplayedIn(before, mid, attempts, at, from) && attempts <= longer && from <= |attempts|
    requires k in before && k in mid && mid[k] == before[k] && AreCalls(longer[|attempts|..], before[k])
    requires k !in segments <==> AllSucceeded(longer[|attempts|..])
    requires k in segments ==> segments[k] == before[k]
    requires forall j :: j in at ==> j < k && (j in segments <==> j in mid) && (j in segments ==> segments[j] == mid[j])
    ensures ReplayedIn(before, segments, longer, at[k := |attempts|], from)
  {
    NewlyReplayedAt(before[k], k, segments, attempts, longer);
    hide ReplayedAt, AreCalls, AllSucceeded;
    forall j | j in at
      ensures ReplayedAt(before[j], j, segments, longer, at[j]) && at[j] + |before[j]| <= |attempts|
    {
      StaysReplayedAt(before[j], j, mid, segments, attempts, longer, at[j]);
    }
  }

  lemma GrownSame<E>(l: Log<E>)
    ensures Grown(l, l)
  {
  }
}
