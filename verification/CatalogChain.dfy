/**
 The tenant catalog chain in the code's own form (internal/kernel/catalog_chain.go):
 memory, slower layers and a repair log.

 A caller's operation and the retry loop take turns, one access to a layer or to the log
 at a time: `Meanwhile` is what the retry loop and expiry may do between two accesses of
 a caller, `Callers` what callers may do between two accesses of the retry loop.  Both
 are made of the very steps the other side takes.
 */
module CatalogChain {
  import opened Prelude
  import opened Calendar
  import opened SegmentLog
  import opened CatalogTypes
  import opened CatalogState
  import opened CatalogMemory
  import opened CatalogWAL

  /** What the retry loop may do as callers see it. */
  ghost predicate Replayed(a: Catalog, b: Catalog) {
    && b.names == a.names && b.registered == a.registered && b.owed == a.owed && b.reliable == a.reliable
    && a.layers != [] && |b.layers| == |a.layers| && b.layers[0] == a.layers[0] && a.Last().Keys <= b.Last().Keys
  }

  /** What callers may do as the retry loop sees it. */
  ghost predicate Served(a: Catalog, b: Catalog) {
    && b.names == a.names && a.registered <= b.registered && Grown(a.log, b.log)
    && a.layers != [] && |b.layers| == |a.layers| && a.Last().Keys <= b.Last().Keys
  }

  ghost function ItemsOf(layer: Layer): set<Item> {
    set k | k in layer :: Plain(Item(k.tenant, layer[k]))
  }

  /** After a restart memory is empty, the last layer is the catalog and the layers
      between hold parts of it. */
  ghost predicate Restartable(names: seq<string>, slower: seq<Layer>) {
    && |names| == |slower| + 1 && names[0] == MEMORY
    && (forall i, j :: 0 <= i < j < |names| ==> names[i] != names[j])
    && forall i :: 0 <= i < |slower| ==> PartOf(slower[i], ItemsOf(slower[|slower| - 1]))
  }

  ghost function Restarted(names: seq<string>, slower: seq<Layer>, limits: Limits, now: Instant): Catalog {
    Catalog(names, [map[]] + slower, Reopened(map[], limits, now),
            if slower == [] then {} else ItemsOf(slower[|slower| - 1]), {}, true)
  }

  lemma RestartedInv(names: seq<string>, slower: seq<Layer>, limits: Limits, now: Instant)
    requires Restartable(names, slower)
    ensures Inv(Restarted(names, slower, limits, now))
  {
    hide Accepts, KeyOf, Plain, PartOf, WriteOnce, ItemsOf;
    var c := Restarted(names, slower, limits, now);
    RestartedParts(names, slower, limits, now);
    assert forall k, i, e :: !c.log.At(k, i, e);
    ItemsOfLayer(c.Last());
  }

  lemma RestartedParts(names: seq<string>, slower: seq<Layer>, limits: Limits, now: Instant)
    requires Restartable(names, slower)
    ensures var c := Restarted(names, slower, limits, now);
            && c.registered == ItemsOf(c.Last())
            && forall i :: 0 <= i < |c.layers| ==> PartOf(c.layers[i], c.registered)
  {
    hide Accepts, KeyOf, Plain;
    var c := Restarted(names, slower, limits, now);
    assert forall i :: 0 < i < |c.layers| ==> c.layers[i] == slower[i - 1];
  }

  /** A state in which this happens: after a restart the service is in the last layer only,
      and the one read of that layer fails. */
  lemma RestartLosesARegistration(limits: Limits, now: Instant)
    ensures var first, second := ServiceDescriptor("s", "old", "", ""), ServiceDescriptor("s", "new", "", "");
            var k, x := Key("t", ServiceKind, "s"), Item("t", second);
            var c := Restarted([MEMORY, "postgres"], [map[k := first]], limits, now);
            && Inv(c) && MapAt(c.registered, k) == Some(Item("t", first)) && ReadThrough(c.layers, {1}, k) == None
            && var c' := Overwritten(c, x);
            && Inv(c') && c'.owed == {} && k in c'.Last() && c'.Last()[k].name == "new" && !WriteOnce(c'.registered)
  {
    var first, second := ServiceDescriptor("s", "old", "", ""), ServiceDescriptor("s", "new", "", "");
    var k, x := Key("t", ServiceKind, "s"), Item("t", second);
    var c := Restarted([MEMORY, "postgres"], [map[k := first]], limits, now);
    OneServiceLeft(first, limits, now);
    hide Inv, Restarted, ReadThrough;
    FailedReadLosesARegistration(c, {1}, k, x);
  }

  /** After a restart with one service in the last layer that is what is registered, and
      a lookup misses it if the last layer fails. */
  lemma OneServiceLeft(d: Descriptor, limits: Limits, now: Instant)
    requires d.ServiceDescriptor? && d.id == "s" && d.createdAt == ""
    ensures var k := Key("t", ServiceKind, "s");
            var c := Restarted([MEMORY, "postgres"], [map[k := d]], limits, now);
            && Inv(c) && c.owed == {} && c.reliable && |c.layers| == 2 && Accepts(k)
            && MapAt(c.registered, k) == Some(Item("t", d)) && ReadThrough(c.layers, {1}, k) == None
  {
    var k := Key("t", ServiceKind, "s");
    var slower := [map[k := d]];
    OneItem(d);
    assert Restartable([MEMORY, "postgres"], slower);
    RestartedInv([MEMORY, "postgres"], slower, limits, now);
    var c := Restarted([MEMORY, "postgres"], slower, limits, now);
    hide Inv, ItemsOf;
    assert Item("t", d) in c.registered && KeyOf(Item("t", d)) == k;
    MissedIff(c.layers, {1}, k);
  }

  lemma OneItem(d: Descriptor)
    requires d.ServiceDescriptor? && d.id == "s" && d.createdAt == ""
    ensures ItemsOf(map[Key("t", ServiceKind, "s") := d]) == {Item("t", d)}
  {
    var layer := map[Key("t", ServiceKind, "s") := d];
    assert Plain(Item("t", d)) == Item("t", d);
    assert Key("t", ServiceKind, "s") in layer;
  }

  lemma ItemsOfLayer(layer: Layer)
    requires PartOf(layer, ItemsOf(layer))
    ensures WriteOnce(ItemsOf(layer))
    ensures forall x :: x in ItemsOf(layer) ==> x == Plain(x) && KeyOf(x) in layer
  {
    hide Accepts;
  }

  class CatalogChain {
    const names: seq<string>
    const memory: MemoryTenantCatalogStore
    var slower: seq<Layer>
    const wal: CatalogWAL<Entry>
    ghost var owed: set<Entry>
    ghost var registered: set<Item>
    ghost var reliable: bool
    ghost var writes: seq<(nat, Item, bool)>
    ghost var asked: seq<(nat, Key, bool)>
    ghost var listed: seq<(string, Kind, bool)>

    ghost function View(): Catalog
      reads this, memory, wal
    {
      Catalog(names, [memory.View()] + slower, wal.View(), registered, owed, reliable)
    }

    /** `writes`, `asked` and `listed` are the histories of accesses to layers: of writes
        to a layer, of lookups in one, and of reads of the last layer's lists, each with
        whether it succeeded. */
    ghost predicate Valid()
      reads this, memory, wal
    {
      Inv(View()) && !wal.stopped
    }

    constructor (names: seq<string>, slower: seq<Layer>, limits: Limits, now: Instant)
      requires Restartable(names, slower)
      ensures Valid() && fresh(memory) && fresh(wal)
      ensures View() == Restarted(names, slower, limits, now)
    {
      this.names, this.slower := names, slower;
      memory := new MemoryTenantCatalogStore();
      wal := new CatalogWAL(limits, now);
      owed, reliable, writes, asked, listed := {}, true, [], [], [];
      registered := if slower == [] then {} else ItemsOf(slower[|slower| - 1]);
      RestartedInv(names, slower, limits, now);
    }

    // ---- one access to a layer or to the log ----

    /** Writes to one layer.  Memory refuses only what it does not accept; a slower layer
        may fail, with or without effect. */
    method WriteLayer(i: nat, x: Item, now: string) returns (ok: bool, ghost stored: Option<Descriptor>)
      requires Valid() && i < |names| && Plain(x) in registered
      modifies memory, `slower, `writes
      ensures Valid() && writes == old(writes) + [(i, x, ok)]
      ensures i == 0 ==> ok == Accepts(KeyOf(x)) == stored.Some?
      ensures stored.None? ==> !ok && View() == old(View())
      ensures stored.Some? ==> Plain(Item(x.tenant, stored.value)) == Plain(x) && View() == Wrote(old(View()), i, x, stored.value)
    {
      hide Inv, Accepts, KeyOf;
      SizesMatch();
      ghost var c := View();
      if i == 0 {
        stored := None;
        ok := memory.Register(x, now);
        if ok {
          stored := Some(Stamped(x.descriptor, now));
          assert View().layers == Wrote(c, 0, x, stored.value).layers;
        }
      } else {
        ok := *;
        var tookEffect: bool := *;
        stored := None;
        if ok || tookEffect {
          var d := Stamped(x.descriptor, now);
          stored := Some(d);
          slower := slower[i - 1 := slower[i - 1][KeyOf(x) := d]];
          assert View().layers == Wrote(c, i, x, d).layers;
        }
      }
      writes := writes + [(i, x, ok)];
      if stored.Some? {
        WroteKeeps(c, i, x, stored.value);
      }
    }

    lemma SizesMatch()
      requires Valid()
      ensures |names| == |slower| + 1 && View().Shaped() && names[0] == MEMORY
    {
    }

    /** Reads one layer.  Memory always answers. */
    method ReadLayer(i: nat, k: Key) returns (r: Result<Option<Descriptor>, ()>)
      requires Valid() && i < |names|
      modifies `reliable, `asked
      ensures Valid() && asked == old(asked) + [(i, k, r.Ok?)]
      ensures r.Ok? ==> View() == old(View())
                        && r.value == if k in View().layers[i] then Some(View().layers[i][k]) else None
      ensures r.Err? ==> i > 0 && View() == old(View()).(reliable := old(reliable) && i < |names| - 1)
    {
      hide Inv;
      SizesMatch();
      if i == 0 {
        var d := memory.Get(k);
        asked := asked + [(i, k, true)];
        return Ok(d);
      }
      var fails: bool := *;
      asked := asked + [(i, k, !fails)];
      if fails {
        UnreliableKeeps(View());
        reliable := reliable && i < |names| - 1;
        return Err(());
      }
      return Ok(if k in slower[i - 1] then Some(slower[i - 1][k]) else None);
    }

    /** Takes down a write a layer did not take, for the retry loop. */
    method WalAppend(e: Entry, size: nat, now: Instant)
      requires Valid() && EntryOk(names, registered, e)
      modifies wal, `owed
      ensures Valid() && exists rotate :: View() == Logged(old(View()), e, size, now, rotate)
      ensures wal.View().Holds(e)
    {
      hide Inv, EntryOk;
      SizesMatch();
      ghost var c := View();
      LoggedKeeps(c, e, size, now, Due(c.log, now));
      PutHolds(c.log, Due(c.log, now), e, size, now, e);
      var _ := wal.Append(e, size, now);
      owed := owed - {e};
      assert View() == Logged(c, e, size, now, Due(c.log, now));
    }

    method Settle(i: nat, x: Item)
      requires Valid() && i < |names|
      requires KeyOf(x) in View().layers[i] || !Accepts(KeyOf(x))
      modifies `owed
      ensures Valid() && View() == Settled(old(View()), Entry(names[i], x))
    {
      hide Inv;
      SizesMatch();
      SettledKeeps(View(), i, x);
      owed := owed - {Entry(names[i], x)};
    }

    /** A registration begins; one that conflicts ends reliability. */
    method Begin(x: Item)
      requires Valid()
      modifies `owed, `registered, `reliable
      ensures Valid() && View() == Began(old(View()), x).(reliable := old(reliable) && NoConflict(old(registered), x))
    {
      hide Inv, Accepts, KeyOf, Plain, NoConflict;
      SizesMatch();
      UnreliableKeeps(View());
      reliable := reliable && NoConflict(registered, x);
      BeganKeeps(View(), x);
      owed, registered := owed + {Entry(MEMORY, x), Entry(names[|names| - 1], x)}, registered + {Plain(x)};
    }

    /** A write of an item being registered to some layer, settled where it succeeds. */
    method WriteAndSettle(x: Item, i: nat, stamp: string)
      requires Valid() && Plain(x) in registered && i < |names|
      modifies memory, `slower, `writes, `owed
      ensures Valid() && wal.View() == old(wal.View()) && registered == old(registered) && old(writes) <= writes
      ensures |View().layers| == |old(View()).layers| && old(View()).Last().Keys <= View().Last().Keys
    {
      hide Inv, Accepts, KeyOf, Plain;
      SizesMatch();
      var ok, stored := WriteLayer(i, x, stamp);
      SizesMatch();
      if ok {
        Settle(i, x);
      }
    }

    /** Copies what layer j holds under a key to a faster layer. */
    method Backfill(i: nat, j: nat, k: Key, stamp: string)
      requires Valid() && i < j < |names|
      modifies memory, `slower, `writes
      ensures Valid() && wal.View() == old(wal.View()) && old(writes) <= writes
      ensures |View().layers| == |old(View()).layers| && old(View()).Last().Keys <= View().Last().Keys
    {
      hide Inv, Accepts, KeyOf, Plain;
      SizesMatch();
      if k in slower[j - 1] {
        HeldIsRegistered(j, k);
        var _, stored := WriteLayer(i, Item(k.tenant, slower[j - 1][k]), stamp);
        SizesMatch();
      }
    }

    lemma HeldIsRegistered(j: nat, k: Key)
      requires Valid() && j < |names| && k in View().layers[j]
      ensures KeyOf(Item(k.tenant, View().layers[j][k])) == k && Plain(Item(k.tenant, View().layers[j][k])) in registered
    {
    }

    // ---- what the others do in between ----

    /** One line of a sealed segment is tried; a line for a layer no longer configured is
        discarded. */
    method ReplayWALEntry(e: Entry, now: string) returns (ok: bool)
      requires Valid() && e.backend != MEMORY && (e.backend in names ==> Plain(e.item) in registered)
      modifies memory, `slower, `writes
      ensures Valid() && Replayed(old(View()), View()) && wal.View() == old(wal.View())
      ensures ok && e.backend == View().LastName() ==> KeyOf(e.item) in View().Last()
      ensures e.backend !in names ==> ok && writes == old(writes)
      ensures e.backend in names ==> exists i :: 0 <= i < |names| && names[i] == e.backend && writes == old(writes) + [(i, e.item, ok)]
    {
      hide Inv, Accepts, KeyOf;
      SizesMatch();
      var i := 0;
      while i < |names| && names[i] != e.backend
        invariant i <= |names| && forall j :: 0 <= j < i ==> names[j] != e.backend
      {
        i := i + 1;
      }
      if i == |names| {
        return true;
      }
      ghost var stored;
      ok, stored := WriteLayer(i, e.item, now);
    }

    /** Between two accesses of a caller: any number of replayed lines, rotations,
        deletions of delivered segments and expiries in the layers between. */
    method Meanwhile(now: Instant, stamp: string)
      requires Valid()
      modifies memory, `slower, `writes, wal
      ensures Valid() && Replayed(old(View()), View()) && old(writes) <= writes
    {
      hide Inv, Accepts, KeyOf;
      var n: nat := *;
      SizesMatch();
      while n > 0
        invariant Valid() && Replayed(old(View()), View()) && old(writes) <= writes
      {
        SizesMatch();
        var choice: nat, k: nat, i: nat, keys: set<Key> := *, *, *, *;
        if choice == 0 && k in wal.segments && k != wal.activeFile && i < |wal.segments[k]| {
          EntryIsOk(k, i);
          var _ := ReplayWALEntry(wal.segments[k][i], stamp);
        } else if choice == 1 {
          SealedKeeps(View(), now);
          wal.RotateSegment(now);
        } else if choice == 2 && k in wal.segments && k != wal.activeFile && IsDelivered(k) {
          DroppedKeeps(View(), k);
          wal.Remove(k);
        } else if choice == 3 && 0 < i < |slower| {
          ghost var c := View();
          ExpiredKeeps(c, i, keys);
          slower := slower[i - 1 := slower[i - 1] - keys];
          assert View().layers == Expired(c, i, keys).layers;
        }
        n := n - 1;
      }
    }

    lemma EntryIsOk(k: nat, i: nat)
      requires Valid() && k in wal.segments && i < |wal.segments[k]|
      ensures EntryOk(names, registered, wal.segments[k][i])
    {
      assert View().log.At(k, i, wal.segments[k][i]);
    }

    predicate IsDelivered(k: nat)
      requires Valid() && k in wal.segments
      reads this, memory, wal
      ensures IsDelivered(k) ==> Delivered(View(), k)
    {
      hide Inv, KeyOf;
      SizesMatch();
      forall i :: 0 <= i < |wal.segments[k]| && wal.segments[k][i].backend == names[|names| - 1] ==>
        slower != [] && KeyOf(wal.segments[k][i].item) in slower[|slower| - 1]
    }

    /** Between two accesses of the retry loop: any number of steps of callers, each part
        of a registration, a backfill or a read that fails. */
    method Callers(now: Instant, stamp: string)
      requires Valid()
      modifies memory, `slower, `writes, wal, `owed, `registered, `reliable
      ensures Valid() && Served(old(View()), View()) && old(writes) <= writes
    {
      hide Inv, Served;
      SizesMatch();
      ServedSame(View());
      var n: nat := *;
      while n > 0
        invariant Valid() && Served(old(View()), View()) && old(writes) <= writes
      {
        ghost var mid := View();
        CallerStep(now, stamp);
        ServedTransitive(old(View()), mid, View());
        n := n - 1;
      }
    }

    /** One of these steps.  Beginning what has begun already changes nothing, so a write
        or an append here may belong to any registration in progress. */
    method CallerStep(now: Instant, stamp: string)
      requires Valid()
      modifies memory, `slower, `writes, wal, `owed, `registered, `reliable
      ensures Valid() && Served(old(View()), View()) && old(writes) <= writes
    {
      hide Inv, Accepts, KeyOf, Plain, Grown, NoConflict;
      SizesMatch();
      GrownSame(View().log);
      var choice: nat, x: Item, i: nat, j: nat, k: Key, size: nat := *, *, *, *, *, *;
      if choice == 0 {
        Begin(x);
      } else if choice == 1 && i < |names| {
        BeginAndWrite(x, i, stamp);
      } else if choice == 2 && 0 < i < |names| {
        BeginAndLog(x, i, size, now);
      } else if choice == 3 && i < j < |names| {
        Backfill(i, j, k, stamp);
      } else if choice == 4 {
        UnreliableKeeps(View());
        reliable := false;
      }
    }

    method BeginAndWrite(x: Item, i: nat, stamp: string)
      requires Valid() && i < |names|
      modifies memory, `slower, `writes, `owed, `registered, `reliable
      ensures Valid() && Served(old(View()), View()) && old(writes) <= writes
    {
      hide Inv, Accepts, KeyOf, Plain, Grown, NoConflict;
      SizesMatch();
      GrownSame(View().log);
      Begin(x);
      WriteAndSettle(x, i, stamp);
    }

    method BeginAndLog(x: Item, i: nat, size: nat, now: Instant)
      requires Valid() && 0 < i < |names|
      modifies wal, `owed, `registered, `reliable
      ensures Valid() && Served(old(View()), View())
    {
      hide Inv, Accepts, KeyOf, Plain, Grown, NoConflict;
      SizesMatch();
      Begin(x);
      SizesMatch();
      ghost var begun := View();
      WalAppend(Entry(names[i], x), size, now);
      LoggedGrows(begun, View(), Entry(names[i], x), size, now);
    }

    // ---- callers ----

    /** The registered item is what memory holds under its key. */
    ghost predicate HeldInMemory(x: Item)
      reads memory
    {
      KeyOf(x) in memory.View() && Plain(Item(x.tenant, memory.View()[KeyOf(x)])) == Plain(x)
    }

    /** One layer's turn in a registration. */
    method WriteThrough(i: nat, x: Item, size: nat, now: Instant, stamp: string) returns (ok: bool)
      requires Valid() && i < |names| && Plain(x) in registered
      modifies memory, `slower, `writes, wal, `owed
      ensures Valid() && owed == old(owed) - {Entry(names[i], x)} && writes == old(writes) + [(i, x, ok)]
      ensures i == 0 ==> ok == Accepts(KeyOf(x)) && (if ok then HeldInMemory(x) else memory.View() == old(memory.View()))
      ensures i > 0 ==> memory.View() == old(memory.View())
      ensures i > 0 ==> if ok then KeyOf(x) in View().layers[i] else wal.View().Holds(Entry(names[i], x))
    {
      hide Inv, Accepts, KeyOf, Plain;
      SizesMatch();
      ghost var stored;
      ok, stored := WriteLayer(i, x, stamp);
      assert View().layers[0] == memory.View();
      if ok || i == 0 {
        Settle(i, x);
      } else {
        assert EntryOk(names, registered, Entry(names[i], x));
        WalAppend(Entry(names[i], x), size, now);
      }
    }

    /** One layer's turn after whatever the others did in between. */
    method WriteTurn(i: nat, x: Item, size: nat, now: Instant, stamp: string) returns (ok: bool, ghost w1: seq<(nat, Item, bool)>)
      requires Valid() && i < |names| && Plain(x) in registered
      modifies memory, `slower, `writes, wal, `owed
      ensures Valid() && owed == old(owed) - {Entry(names[i], x)} && old(writes) <= w1 && writes == w1 + [(i, x, ok)]
      ensures names[0] == MEMORY
      ensures i == 0 ==> ok == Accepts(KeyOf(x)) && (if ok then HeldInMemory(x) else memory.View() == old(memory.View()))
      ensures i > 0 ==> memory.View() == old(memory.View())
    {
      hide Inv, Accepts, KeyOf, Plain, HeldInMemory;
      SizesMatch();
      assert View().layers[0] == memory.View();
      Meanwhile(now, stamp);
      SizesMatch();
      assert View().layers[0] == memory.View();
      w1 := writes;
      ok := WriteThrough(i, x, size, now, stamp);
    }

    /** Writes through all layers; what a slower layer does not take goes to the log.
        Memory alone decides whether the caller sees an error. */
    method Register(x: Item, size: nat, now: Instant, stamp: string) returns (err: bool)
      requires Valid() && owed == {}
      modifies memory, `slower, `writes, wal, `owed, `registered, `reliable
      ensures Valid() && owed == {} && registered == old(registered) + {Plain(x)}
      ensures reliable == (old(reliable) && NoConflict(old(registered), x))
      ensures Accepts(KeyOf(x)) ==> !err && HeldInMemory(x)
      ensures Accepts(KeyOf(x)) ==> KeyOf(x) in View().Last() || Awaited(wal.View(), {}, View().LastName(), KeyOf(x))
      ensures !Accepts(KeyOf(x)) ==> err == (KeyOf(x) !in old(View()).layers[0])
      ensures old(writes) <= writes && TriedBefore(writes, |old(writes)|, |names|, x)
    {
      hide Inv, Accepts, KeyOf, Plain, NoConflict, TriedBefore;
      NothingTried(writes, |writes|, x);
      SizesMatch();
      Begin(x);
      var firstErr := false;
      var i := 0;
      while i < |names|
        invariant i <= |names| && Valid() && registered == old(registered) + {Plain(x)}
        invariant reliable == (old(reliable) && NoConflict(old(registered), x))
        invariant owed <= {Entry(MEMORY, x), Entry(names[|names| - 1], x)}
        invariant i > 0 ==> Entry(MEMORY, x) !in owed && (Accepts(KeyOf(x)) ==> HeldInMemory(x))
        invariant i > 0 && !Accepts(KeyOf(x)) ==> firstErr
        invariant !Accepts(KeyOf(x)) ==> memory.View() == old(memory.View())
        invariant i == |names| ==> owed == {}
        invariant old(writes) <= writes && TriedBefore(writes, |old(writes)|, i, x)
      {
        ghost var w0 := writes;
        var ok;
        ghost var w1;
        ok, w1 := WriteTurn(i, x, size, now, stamp);
        TriedNext(w0, w1, |old(writes)|, i, x, ok);
        if !ok {
          firstErr := true;
        }
        i := i + 1;
      }
      var found := memory.Get(KeyOf(x));
      err := found == None && firstErr;
      HasOrAwaits(Plain(x));
    }

    lemma HasOrAwaits(x: Item)
      requires Valid() && owed == {} && x in registered
      ensures Accepts(KeyOf(x)) ==> KeyOf(x) in View().Last() || Awaited(wal.View(), {}, View().LastName(), KeyOf(x))
    {
      hide KeyOf, Accepts, Plain, PartOf, LogOk, OwedOk;
    }

    /** A layer's turn in a lookup: it is asked as it is when its turn comes. */
    method AskLayer(i: nat, k: Key, now: Instant, stamp: string) returns (r: Result<Option<Descriptor>, ()>, ghost c: Catalog)
      requires Valid() && i < |names|
      modifies memory, `slower, `writes, wal, `reliable, `asked
      ensures Valid() && Replayed(old(View()), c) && c.Shaped() && c.names == names && memory.View() == old(memory.View())
      ensures View().Shaped() && |c.layers| == |View().layers| == |names|
      ensures old(writes) <= writes && asked == old(asked) + [(i, k, r.Ok?)]
      ensures r.Ok? ==> View() == c && r.value == if k in c.layers[i] then Some(c.layers[i][k]) else None
      ensures r.Err? ==> i > 0 && View() == c.(reliable := c.reliable && i < |names| - 1)
    {
      hide Inv;
      SizesMatch();
      Meanwhile(now, stamp);
      SizesMatch();
      c := View();
      assert c.layers[0] == memory.View();
      r := ReadLayer(i, k);
    }

    /** The reading half of a lookup.  `seen` is each layer as it was when its turn came,
        `failed` the layers whose read failed. */
    method Search(k: Key, now: Instant, stamp: string)
      returns (r: Option<Descriptor>, foundAt: nat, ghost seen: seq<Layer>, ghost failed: set<nat>)
      requires Valid() && owed == {}
      modifies memory, `slower, `writes, wal, `reliable, `asked
      ensures Valid() && memory.View() == old(memory.View()) && old(writes) <= writes
      ensures asked == old(asked) + Lookups(k, if r.Some? then foundAt + 1 else |names|, failed)
      ensures SeenBy(seen, failed, old(View()), View()) && r == ReadThrough(seen, failed, k)
      ensures r.Some? ==> foundAt < |names| && IsRegistered(k, r.value) && (foundAt == 0 <==> k in memory.View())
      ensures forall j :: j in failed ==> j < if r.Some? then foundAt else |names|
      ensures r == None && |names| - 1 !in failed ==> k !in View().Last()
    {
      hide Inv, Accepts, KeyOf, Plain, ReadThrough, SeenBy, SeenSoFar, Lookups, Replayed, IsRegistered, Catalog.Shaped;
      SizesMatch();
      ghost var before := View();
      assert |before.layers| == |names|;
      seen, failed := [], {};
      NothingSeen(before, k);
      LookupsNext(k, 0, {});
      var i := 0;
      while i < |names|
        invariant i <= |names| && Valid() && memory.View() == old(memory.View()) && before == old(View())
        invariant View().Shaped() && View().names == before.names && SeenSoFar(seen, failed, before, View(), i, k)
        invariant |before.layers| == |names| && |seen| == i && forall j :: j in failed ==> j < i
        invariant old(writes) <= writes && asked == old(asked) + Lookups(k, i, failed)
      {
        LookupsNext(k, i, failed);
        ghost var prior := View();
        var read;
        ghost var c;
        read, c := AskLayer(i, k, now, stamp);
        SeenStill(seen, failed, before, prior, c, i, k);
        match read {
          case Err(_) =>
            ReadFailed(seen, failed, before, c, View(), i, k);
            failed := failed + {i};
          case Ok(None) =>
            ReadMissed(seen, failed, before, c, i, k);
          case Ok(Some(d)) =>
            HeldIsFound(i, k);
            ReadFound(seen, failed, before, c, i, k);
            seen := seen + c.layers[i..];
            return Some(d), i, seen, failed;
        }
        seen := seen + [c.layers[i]];
        i := i + 1;
      }
      NothingFound(seen, failed, before, View(), k);
      return None, 0, seen, failed;
    }

    /** Reads through the layers and copies what it finds to the faster ones.  The answer
        is that of the layers as seen and the reads that failed; whatever is found was
        registered, and with reliable reads the answer is the map's. */
    method Get(k: Key, now: Instant, stamp: string) returns (r: Option<Descriptor>, ghost seen: seq<Layer>, ghost failed: set<nat>)
      requires Valid() && owed == {}
      modifies memory, `slower, `writes, wal, `reliable, `asked
      ensures Valid() && r == ReadThrough(seen, failed, k) && old(writes) <= writes
      ensures exists n: nat :: n <= |names| && AskedAndFilled(old(asked), old(writes), n, k, failed, r)
      ensures |seen| == |names| && 0 !in failed && seen[0] == old(memory.View()) && old(View()).Last().Keys <= seen[|names| - 1].Keys
      ensures reliable == (old(reliable) && |names| - 1 !in failed)
      ensures r.Some? ==> IsRegistered(k, r.value)
      ensures reliable && Accepts(k) ==> MapAt(registered, k) == if r == None then None else Some(Plain(Item(k.tenant, r.value)))
      ensures r.Some? && Accepts(k) ==> HeldInMemory(Item(k.tenant, r.value))
      ensures k in old(memory.View()) ==> r == Some(old(memory.View())[k]) && reliable == old(reliable)
    {
      hide Inv, Accepts, KeyOf, Plain, ReadThrough, TriedBefore, Lookups;
      SizesMatch();
      var foundAt;
      r, foundAt, seen, failed := Search(k, now, stamp);
      SizesMatch();
      MemoryAnswers(seen, failed, k);
      assert r == None ==> AskedAndFilled(old(asked), old(writes), |names|, k, failed, r);
      if r.Some? {
        ghost var w0 := writes;
        BackfillAll(foundAt, Item(k.tenant, r.value), now, stamp);
        TriedSince(writes, |old(writes)|, |w0|, foundAt, Item(k.tenant, r.value));
        assert AskedAndFilled(old(asked), old(writes), foundAt + 1, k, failed, r);
        FoundIsTheItem(k, r.value);
      } else if reliable {
        NowhereMeansNew(k);
        assert Accepts(k) ==> MapAt(registered, k) == None;
      }
    }

    /** The first n layers were asked for the key, in order; where the last of them has it,
        the others were written what it has, and otherwise all were asked. */
    ghost predicate AskedAndFilled(asked0: seq<(nat, Key, bool)>, writes0: seq<(nat, Item, bool)>, n: nat, k: Key, failed: set<nat>, r: Option<Descriptor>)
      reads `asked, `writes
    {
      && asked == asked0 + Lookups(k, n, failed) && (forall j :: j in failed ==> j < n)
      && (r == None ==> n == |names|)
      && (r.Some? ==> n > 0 && n - 1 !in failed && TriedBefore(writes, |writes0|, n - 1, Item(k.tenant, r.value)))
    }

    ghost predicate IsRegistered(k: Key, d: Descriptor)
      reads `registered
    {
      KeyOf(Item(k.tenant, d)) == k && Plain(Item(k.tenant, d)) in registered
    }

    lemma HeldIsFound(i: nat, k: Key)
      requires Valid() && i < |names| && k in View().layers[i]
      ensures IsRegistered(k, View().layers[i][k])
    {
      hide Inv, KeyOf, Plain;
      HeldIsRegistered(i, k);
    }

    lemma FoundIsTheItem(k: Key, d: Descriptor)
      requires Valid() && IsRegistered(k, d)
      ensures reliable && Accepts(k) ==> MapAt(registered, k) == Some(Plain(Item(k.tenant, d)))
    {
      hide Accepts, KeyOf, Plain;
      if reliable && Accepts(k) {
        MapAtOnly(registered, Plain(Item(k.tenant, d)));
      }
    }

    lemma NowhereMeansNew(k: Key)
      requires Valid() && owed == {} && k !in memory.View() && k !in View().Last()
      ensures Accepts(k) ==> forall x :: x in registered ==> KeyOf(x) != k
    {
    }

    method BackfillAll(foundAt: nat, x: Item, now: Instant, stamp: string)
      requires Valid() && foundAt < |names| && Plain(x) in registered
      modifies memory, `slower, `writes, wal
      ensures Valid() && old(memory.View()).Keys <= memory.View().Keys
      ensures foundAt > 0 && Accepts(KeyOf(x)) ==> HeldInMemory(x)
      ensures foundAt == 0 ==> memory.View() == old(memory.View())
      ensures old(writes) <= writes && TriedBefore(writes, |old(writes)|, foundAt, x)
    {
      hide Inv, Accepts, KeyOf, Plain, TriedBefore;
      SizesMatch();
      NothingTried(writes, |writes|, x);
      var i := 0;
      while i < foundAt
        invariant old(writes) <= writes && TriedBefore(writes, |old(writes)|, i, x)
        invariant i <= foundAt && Valid() && old(memory.View()).Keys <= memory.View().Keys
        invariant i == 0 ==> memory.View() == old(memory.View())
        invariant i > 0 && Accepts(KeyOf(x)) ==> HeldInMemory(x)
      {
        ghost var w0 := writes;
        Meanwhile(now, stamp);
        assert View().layers[0] == memory.View();
        ghost var w1 := writes;
        var ok, stored := WriteLayer(i, x, stamp);
        TriedNext(w0, w1, |old(writes)|, i, x, ok);
        assert View().layers[0] == memory.View();
        i := i + 1;
      }
    }

    method ListMemory(tenant: string, kind: Kind) returns (r: seq<Descriptor>, ghost ids: seq<string>)
      ensures AreListed(memory.View(), tenant, kind, r, ids)
    {
      r, ids := memory.List(tenant, kind);
    }

    /** Reads a tenant's list from the last layer; memory, if it is the only one, always
        answers. */
    method ReadLast(tenant: string, kind: Kind) returns (ok: bool, r: seq<Descriptor>, ghost ids: seq<string>)
      requires Valid()
      modifies `reliable, `listed
      ensures Valid() && listed == old(listed) + [(tenant, kind, ok)]
      ensures ok ==> View() == old(View()) && AreListed(View().Last(), tenant, kind, r, ids)
      ensures !ok ==> |names| > 1 && View() == old(View()).(reliable := false)
    {
      hide Inv;
      SizesMatch();
      var fails: bool := *;
      ok, r, ids := true, [], [];
      if slower == [] {
        r, ids := ListMemory(tenant, kind);
      } else if fails {
        UnreliableKeeps(View());
        ok, reliable := false, false;
      } else {
        r, ids := ListLayer(slower[|slower| - 1], tenant, kind);
      }
      listed := listed + [(tenant, kind, ok)];
    }

    /** Lists a tenant's descriptors of one kind from the last layer, and copies them to
        the faster ones; if that layer cannot be read, from memory.  Whatever is listed
        was registered, and with reliable reads a registered one the list leaves out is
        in memory. */
    method List(tenant: string, kind: Kind, now: Instant, stamp: string)
      returns (r: seq<Descriptor>, ghost ids: seq<string>, ghost answered: bool, ghost source: Layer)
      requires Valid() && owed == {}
      modifies memory, `slower, `writes, wal, `reliable, `listed
      ensures Valid() && reliable == (old(reliable) && answered) && listed == old(listed) + [(tenant, kind, answered)]
      ensures AreListed(source, tenant, kind, r, ids)
      ensures if answered then old(View()).Last().Keys <= source.Keys else source == old(memory.View())
      ensures old(writes) <= writes
      ensures answered ==> forall i :: 0 <= i < |r| ==> TriedBefore(writes, |old(writes)|, |names| - 1, Item(tenant, r[i]))
      ensures forall i :: 0 <= i < |r| ==> IsRegistered(Key(tenant, kind, ids[i]), r[i])
      ensures reliable ==> forall x :: x in registered && Omitted(x, tenant, kind, ids) ==> KeyOf(x) in old(memory.View())
      ensures Warm(tenant, kind, ids)
    {
      hide Inv, Accepts, KeyOf, Plain, TriedBefore, Omitted, AreListed, IsRegistered, Warm;
      SizesMatch();
      Meanwhile(now, stamp);
      SizesMatch();
      assert View().layers[0] == memory.View();
      var ok;
      ok, r, ids := ReadLast(tenant, kind);
      answered := ok;
      if !ok {
        source := memory.View();
        r, ids := ListMemory(tenant, kind);
        ListedIsRegistered(0, tenant, kind, r, ids);
        MemoryIsWarm(tenant, kind, r, ids);
        return;
      }
      source := View().Last();
      ListedIsRegistered(|names| - 1, tenant, kind, r, ids);
      OmittedIsInMemory(tenant, kind, r, ids);
      if |names| == 1 {
        assert View().Last() == memory.View();
        MemoryIsWarm(tenant, kind, r, ids);
      }
      ghost var w0 := writes;
      WarmAll(tenant, kind, r, ids, now, stamp);
      forall i | 0 <= i < |r|
        ensures TriedBefore(writes, |old(writes)|, |names| - 1, Item(tenant, r[i]))
      {
        TriedSince(writes, |old(writes)|, |w0|, |names| - 1, Item(tenant, r[i]));
      }
    }

    method WarmAll(tenant: string, kind: Kind, r: seq<Descriptor>, ghost ids: seq<string>, now: Instant, stamp: string)
      requires Valid() && |r| == |ids|
      requires forall i :: 0 <= i < |r| ==> IsRegistered(Key(tenant, kind, ids[i]), r[i])
      requires |names| == 1 ==> Warm(tenant, kind, ids)
      modifies memory, `slower, `writes, wal
      ensures Valid() && Warm(tenant, kind, ids) && old(writes) <= writes
      ensures forall i :: 0 <= i < |r| ==> TriedBefore(writes, |old(writes)|, |names| - 1, Item(tenant, r[i]))
    {
      hide Inv, Accepts, KeyOf, Plain, TriedBefore, Warm;
      SizesMatch();
      WarmMeans(tenant, kind, []);
      var j := 0;
      while j < |r|
        invariant j <= |r| && Valid() && Warm(tenant, kind, ids[..j]) && old(writes) <= writes
        invariant |names| == 1 ==> Warm(tenant, kind, ids)
        invariant forall i :: 0 <= i < j ==> TriedBefore(writes, |old(writes)|, |names| - 1, Item(tenant, r[i]))
      {
        assert IsRegistered(Key(tenant, kind, ids[j]), r[j]);
        ghost var before, w0 := memory.View().Keys, writes;
        WarmMeans(tenant, kind, ids[..j]);
        WarmMeans(tenant, kind, ids);
        BackfillAll(|names| - 1, Item(tenant, r[j]), now, stamp);
        TriedSince(writes, |old(writes)|, |w0|, |names| - 1, Item(tenant, r[j]));
        TriedBeforeGrows(w0, writes, |old(writes)|, |names| - 1);
        OneMoreWarm(before, tenant, kind, ids[..j], ids[j]);
        WarmStays(before, tenant, kind, ids);
        assert ids[..j + 1] == ids[..j] + [ids[j]];
        j := j + 1;
      }
      assert ids[..j] == ids;
    }

    /** What was listed can be read from memory. */
    ghost predicate Warm(tenant: string, kind: Kind, ids: seq<string>)
      reads memory
    {
      forall id :: id in ids && Accepts(Key(tenant, kind, id)) ==> Key(tenant, kind, id) in memory.View()
    }

    lemma WarmMeans(tenant: string, kind: Kind, ids: seq<string>)
      ensures Warm(tenant, kind, ids) <==> forall id :: id in ids && Accepts(Key(tenant, kind, id)) ==> Key(tenant, kind, id) in memory.View().Keys
    {
      hide Accepts;
    }

    lemma WarmStays(before: set<Key>, tenant: string, kind: Kind, ids: seq<string>)
      requires before <= memory.View().Keys
      ensures (forall id :: id in ids && Accepts(Key(tenant, kind, id)) ==> Key(tenant, kind, id) in before) ==> Warm(tenant, kind, ids)
    {
      hide Accepts;
    }

    lemma OneMoreWarm(before: set<Key>, tenant: string, kind: Kind, ids: seq<string>, id: string)
      requires before <= memory.View().Keys && forall x :: x in ids && Accepts(Key(tenant, kind, x)) ==> Key(tenant, kind, x) in before
      requires Accepts(Key(tenant, kind, id)) ==> |names| == 1 || Key(tenant, kind, id) in memory.View()
      requires |names| == 1 ==> Accepts(Key(tenant, kind, id)) ==> Key(tenant, kind, id) in before
      ensures Warm(tenant, kind, ids + [id])
    {
      hide Accepts;
    }

    lemma ListedIsRegistered(i: nat, tenant: string, kind: Kind, r: seq<Descriptor>, ids: seq<string>)
      requires Valid() && i < |names|
      requires AreListed(View().layers[i], tenant, kind, r, ids)
      ensures |r| == |ids| && forall j :: 0 <= j < |r| ==> IsRegistered(Key(tenant, kind, ids[j]), r[j])
    {
      hide Accepts, KeyOf, Plain;
      forall j | 0 <= j < |r|
        ensures IsRegistered(Key(tenant, kind, ids[j]), r[j])
      {
        HeldIsRegistered(i, Key(tenant, kind, ids[j]));
      }
    }

    lemma MemoryIsWarm(tenant: string, kind: Kind, r: seq<Descriptor>, ids: seq<string>)
      requires AreListed(memory.View(), tenant, kind, r, ids)
      ensures Warm(tenant, kind, ids)
    {
      hide Accepts;
    }

    lemma OmittedIsInMemory(tenant: string, kind: Kind, r: seq<Descriptor>, ids: seq<string>)
      requires Valid() && owed == {} && AreListed(View().Last(), tenant, kind, r, ids)
      ensures forall x :: x in registered && Omitted(x, tenant, kind, ids) ==> KeyOf(x) in memory.View()
    {
      hide Accepts, KeyOf, Plain, PartOf;
      forall x | x in registered && Omitted(x, tenant, kind, ids)
        ensures KeyOf(x) in memory.View()
      {
        assert KeyOf(x) == Key(tenant, kind, KeyOf(x).id);
      }
    }

    // ---- the retry loop ----

    /** Tries one line, and lets others have a turn. */
    method TryLine(k: nat, line: nat, now: Instant, stamp: string) returns (ok: bool, ghost w1: seq<(nat, Item, bool)>)
      requires Valid() && k in wal.segments && k != wal.activeFile && line < |wal.segments[k]|
      modifies memory, `slower, `writes, wal, `owed, `registered, `reliable
      ensures Valid() && Served(old(View()), View())
      ensures k in wal.segments && k != wal.activeFile && wal.segments[k] == old(wal.segments)[k]
      ensures old(writes) <= w1 <= writes
      ensures var e := wal.segments[k][line];
              && (e.backend !in names ==> ok && w1 == old(writes))
              && (e.backend in names ==> exists i :: 0 <= i < |names| && names[i] == e.backend && w1 == old(writes) + [(i, e.item, ok)])
              && (ok && e.backend == View().LastName() ==> KeyOf(e.item) in View().Last())
    {
      hide Inv, Accepts, KeyOf, Plain, Served;
      SizesMatch();
      ghost var c0 := View();
      EntryIsOk(k, line);
      ok := ReplayWALEntry(wal.segments[k][line], stamp);
      w1 := writes;
      ghost var c1 := View();
      ReplayedServes(c0, c1);
      Callers(now, stamp);
      SizesMatch();
      ServedKeepsArrivals(c1, View(), k);
      ServedTransitive(c0, c1, View());
    }

    /** Tries every line of a sealed segment, each once and in order, with the layer it
        names, and succeeds if all of them went through; each line for the last layer has
        arrived there then. */
    method ReplaySegment(k: nat, now: Instant, stamp: string) returns (allOK: bool, ghost at: seq<nat>)
      requires Valid() && k in wal.segments && k != wal.activeFile
      modifies memory, `slower, `writes, wal, `owed, `registered, `reliable
      ensures Valid() && Served(old(View()), View())
      ensures k in wal.segments && k != wal.activeFile && wal.segments[k] == old(wal.segments)[k]
      ensures allOK ==> Delivered(View(), k)
      ensures old(writes) <= writes && LinesTried(wal.segments[k], names, writes, |old(writes)|, at, allOK)
    {
      hide Inv, Accepts, KeyOf, Plain, Served, LinesTried, Arrived, Delivered;
      SizesMatch();
      ServedSame(View());
      NoneArrived(wal.segments[k], View());
      allOK, at := true, [];
      NoLinesTried(names, writes, |writes|);
      ghost var lines := wal.segments[k];
      var line := 0;
      while line < |wal.segments[k]|
        invariant Valid() && Served(old(View()), View()) && View().Shaped() && View().names == names
        invariant k in wal.segments && k != wal.activeFile && wal.segments[k] == lines && line <= |lines|
        invariant allOK ==> Arrived(lines, line, View())
        invariant old(writes) <= writes && LinesTried(lines[..line], names, writes, |old(writes)|, at, allOK)
      {
        ghost var c0, w0, before := View(), writes, allOK;
        var ok;
        ghost var w1;
        ok, w1 := TryLine(k, line, now, stamp);
        SizesMatch();
        if !ok {
          allOK := false;
        }
        ServedKeepsArrivals(c0, View(), k);
        ServedTransitive(old(View()), c0, View());
        OneMoreArrived(lines, line, c0, View(), before, ok);
        LineTried(lines[..line], lines[line], names, w0, w1, writes, |old(writes)|, at, before, ok);
        assert lines[..line + 1] == lines[..line] + [lines[line]];
        at := at + [|w0|];
        line := line + 1;
      }
      assert lines[..line] == lines;
      if allOK {
        AllArrived(View(), k);
      }
    }

    /** One pass of the retry loop: seals the active segment, tries every line of every
        sealed one and deletes exactly those segments whose lines all went through.  No
        waiting write to the last layer is lost: it has arrived there, or its line is
        still in the log. */
    method ReplaySealed(now: Instant, stamp: string) returns (ghost at: map<nat, seq<nat>>, ghost through: set<nat>)
      requires Valid()
      modifies memory, `slower, `writes, wal, `owed, `registered, `reliable
      ensures Valid()
      ensures forall e :: old(wal.View()).Holds(e) && e.backend == View().LastName() ==>
                wal.View().Holds(e) || KeyOf(e.item) in View().Last()
      ensures at.Keys == old(wal.segments).Keys && PassedOver(old(wal.segments), wal.segments, names, writes, |old(writes)|, at, through)
    {
      hide Inv, Accepts, KeyOf, Plain, Grown, Delivered, Kept, PassedOver, LinesTried;
      SizesMatch();
      at, through := map[], {};
      NothingPassed(wal.View(), now, names, writes, |writes|);
      SealedKeeps(View(), now);
      wal.RotateSegment(now);
      ghost var before := View();
      KeptAtFirst(old(View().log), before, now);
      var rest := wal.segments.Keys - {wal.activeFile};
      while rest != {}
        invariant Valid() && View().Shaped() && Kept(before.log, View()) && before.log.active <= wal.activeFile
        invariant names == before.names
        invariant before.log == old(wal.View()).Rotated(now) && AheadOf(before.log, wal.View(), rest)
        invariant old(writes) <= writes && at.Keys + rest == before.log.segments.Keys - {before.log.active} && at.Keys !! rest
        invariant PassedOver(before.log.segments, wal.segments, names, writes, |old(writes)|, at, through)
        decreases rest
      {
        var k :| k in rest;
        ghost var mid, w0 := View(), writes;
        SizesMatch();
        var all;
        ghost var lines;
        all, lines := ReplaySegment(k, now, stamp);
        SizesMatch();
        KeptServed(before.log, mid, View());
        SegmentPassed(before.log, mid.log, wal.View(), rest, names, w0, writes, |old(writes)|, at, through, k, lines, all);
        at, through := at[k := lines], if all then through + {k} else through;
        if all {
          DroppedKeeps(View(), k);
          KeptDropped(before.log, View(), k);
          wal.Remove(k);
          SizesMatch();
        }
        rest := rest - {k};
      }
      KeptMeaning(old(View().log), before.log, View(), now);
      PassedAll(old(wal.View()), wal.segments, now, names, writes, |old(writes)|, at, through);
    }
  }

  /** Of the segments passed over each line was tried, and those are gone all of whose lines
      went through. */
  ghost predicate PassedOver(before: map<nat, seq<Entry>>, after: map<nat, seq<Entry>>, names: seq<string>, writes: seq<(nat, Item, bool)>, from: nat,
                             at: map<nat, seq<nat>>, through: set<nat>) {
    && at.Keys <= before.Keys && through <= at.Keys
    && forall k :: k in at ==> LinesTried(before[k], names, writes, from, at[k], k in through) && (k in after <==> k !in through)
  }

  /** The segments a pass still has before it are as they were. */
  ghost predicate AheadOf(before: Log<Entry>, l: Log<Entry>, rest: set<nat>) {
    before.active <= l.active && forall k :: k in rest ==> k in l.segments && k in before.segments && l.segments[k] == before.segments[k] && k < before.active
  }

  lemma NothingPassed(l: Log<Entry>, now: Instant, names: seq<string>, writes: seq<(nat, Item, bool)>, from: nat)
    requires l.Valid()
    ensures var r := l.Rotated(now);
            AheadOf(r, r, r.segments.Keys - {r.active}) && PassedOver(r.segments, r.segments, names, writes, from, map[], {})
  {
  }

  lemma PassedAll(l: Log<Entry>, after: map<nat, seq<Entry>>, now: Instant, names: seq<string>, writes: seq<(nat, Item, bool)>, from: nat,
                  at: map<nat, seq<nat>>, through: set<nat>)
    requires l.Valid() && at.Keys == l.Rotated(now).segments.Keys - {l.Rotated(now).active}
    requires PassedOver(l.Rotated(now).segments, after, names, writes, from, at, through)
    ensures at.Keys == l.segments.Keys && PassedOver(l.segments, after, names, writes, from, at, through)
  {
    hide LinesTried;
  }

  /** One more segment is passed over while others append. */
  lemma SegmentPassed(before: Log<Entry>, a: Log<Entry>, b: Log<Entry>, rest: set<nat>, names: seq<string>,
                      w0: seq<(nat, Item, bool)>, w1: seq<(nat, Item, bool)>, from: nat,
                      at: map<nat, seq<nat>>, through: set<nat>, k: nat, lines: seq<nat>, all: bool)
    requires a.Valid() && b.Valid() && Grown(a, b) && AheadOf(before, a, rest) && k in rest && k !in at
    requires forall j :: j in at ==> j < before.active
    requires PassedOver(before.segments, a.segments, names, w0, from, at, through) && from <= |w0| && w0 <= w1
    requires LinesTried(a.segments[k], names, w1, |w0|, lines, all)
    ensures AheadOf(before, b, rest)
    ensures var after := if all then b.segments - {k} else b.segments;
            && AheadOf(before, b.(segments := after), rest - {k})
            && PassedOver(before.segments, after, names, w1, from, at[k := lines], if all then through + {k} else through)
  {
    LinesTriedSince(a.segments[k], names, w1, from, |w0|, lines, all);
    hide LinesTried;
    forall j | j in at
      ensures LinesTried(before.segments[j], names, w1, from, at[j], j in through)
    {
      LinesTriedGrow(before.segments[j], names, w0, w1, from, at[j], j in through);
    }
  }

  lemma LinesTriedSince(lines: seq<Entry>, names: seq<string>, writes: seq<(nat, Item, bool)>, from: nat, later: nat, at: seq<nat>, all: bool)
    requires LinesTried(lines, names, writes, later, at, all) && from <= later
    ensures LinesTried(lines, names, writes, from, at, all)
  {
    forall j | 0 <= j < |lines| && lines[j].backend in names
      ensures TriedAt(lines[j], names, writes, from, at[j])
    {
      assert TriedAt(lines[j], names, writes, later, at[j]);
    }
  }

  /** The list is the tenant's part of the layer, each descriptor once. */
  ghost predicate AreListed(layer: Layer, tenant: string, kind: Kind, r: seq<Descriptor>, ids: seq<string>) {
    && Distinct(ids) && (forall id :: id in ids <==> Key(tenant, kind, id) in layer)
    && |r| == |ids| && forall i :: 0 <= i < |r| ==> r[i] == layer[Key(tenant, kind, ids[i])]
  }

  /** From a point on the item was written to the layer, whether that succeeded or not. */
  ghost predicate Tried(writes: seq<(nat, Item, bool)>, from: nat, i: nat, x: Item) {
    exists n :: from <= n < |writes| && writes[n].0 == i && writes[n].1 == x
  }

  ghost predicate TriedBefore(writes: seq<(nat, Item, bool)>, from: nat, i: nat, x: Item) {
    forall j :: 0 <= j < i ==> Tried(writes, from, j, x)
  }

  lemma TriedBeforeGrows(writes: seq<(nat, Item, bool)>, writes': seq<(nat, Item, bool)>, from: nat, i: nat)
    requires writes <= writes'
    ensures forall x :: TriedBefore(writes, from, i, x) ==> TriedBefore(writes', from, i, x)
  {
    hide Tried;
    TriedGrows(writes, writes', from);
  }

  lemma NothingTried(writes: seq<(nat, Item, bool)>, from: nat, x: Item)
    ensures TriedBefore(writes, from, 0, x)
  {
  }

  lemma TriedSince(writes: seq<(nat, Item, bool)>, from: nat, later: nat, i: nat, x: Item)
    requires TriedBefore(writes, later, i, x) && from <= later
    ensures TriedBefore(writes, from, i, x)
  {
    forall j | 0 <= j < i
      ensures Tried(writes, from, j, x)
    {
      assert Tried(writes, later, j, x);
    }
  }

  lemma TriedNext(writes: seq<(nat, Item, bool)>, writes': seq<(nat, Item, bool)>, from: nat, i: nat, x: Item, ok: bool)
    requires TriedBefore(writes, from, i, x) && from <= |writes| && writes <= writes'
    ensures TriedBefore(writes' + [(i, x, ok)], from, i + 1, x)
  {
    hide Tried;
    TriedGrows(writes, writes' + [(i, x, ok)], from);
    LastTried(writes', from, i, x, ok);
  }

  lemma LastTried(writes: seq<(nat, Item, bool)>, from: nat, i: nat, x: Item, ok: bool)
    requires from <= |writes|
    ensures Tried(writes + [(i, x, ok)], from, i, x)
  {
    assert (writes + [(i, x, ok)])[|writes|] == (i, x, ok);
  }

  /** The lookups of a key in the first layers, those that failed and those that did not. */
  ghost function Lookups(k: Key, n: nat, failed: set<nat>): seq<(nat, Key, bool)> {
    seq(n, j requires 0 <= j < n => (j, k, j !in failed))
  }

  lemma LookupsNext(k: Key, n: nat, failed: set<nat>)
    requires forall j :: j in failed ==> j < n
    ensures Lookups(k, 0, {}) == []
    ensures Lookups(k, n + 1, failed) == Lookups(k, n, failed) + [(n, k, true)]
    ensures Lookups(k, n + 1, failed + {n}) == Lookups(k, n, failed) + [(n, k, false)]
  {
  }

  lemma TriedGrows(writes: seq<(nat, Item, bool)>, writes': seq<(nat, Item, bool)>, from: nat)
    requires writes <= writes'
    ensures forall i, x :: Tried(writes, from, i, x) ==> Tried(writes', from, i, x)
  {
    forall i, x | Tried(writes, from, i, x)
      ensures Tried(writes', from, i, x)
    {
      var n :| from <= n < |writes| && writes[n].0 == i && writes[n].1 == x;
      assert writes'[n] == writes[n];
    }
  }

  /** Of the first lines those for the last layer have arrived there. */
  ghost predicate Arrived(lines: seq<Entry>, n: nat, c: Catalog)
    requires c.Shaped() && n <= |lines|
  {
    forall j :: 0 <= j < n && lines[j].backend == c.LastName() ==> KeyOf(lines[j].item) in c.Last()
  }

  lemma NoneArrived(lines: seq<Entry>, c: Catalog)
    requires c.Shaped()
    ensures Arrived(lines, 0, c)
  {
  }

  lemma OneMoreArrived(lines: seq<Entry>, n: nat, a: Catalog, b: Catalog, all: bool, ok: bool)
    requires a.Shaped() && b.Shaped() && n < |lines| && a.Last().Keys <= b.Last().Keys && a.names == b.names
    requires all ==> Arrived(lines, n, a)
    requires ok && lines[n].backend == b.LastName() ==> KeyOf(lines[n].item) in b.Last()
    ensures all && ok ==> Arrived(lines, n + 1, b)
  {
    hide KeyOf;
  }

  lemma AllArrived(c: Catalog, k: nat)
    requires c.Shaped() && k in c.log.segments && Arrived(c.log.segments[k], |c.log.segments[k]|, c)
    ensures Delivered(c, k)
  {
    hide KeyOf;
  }

  /** The line was tried at a point of the history, with the layer it names. */
  ghost predicate TriedAt(e: Entry, names: seq<string>, writes: seq<(nat, Item, bool)>, from: nat, n: nat) {
    from <= n < |writes| && writes[n].0 < |names| && names[writes[n].0] == e.backend && writes[n].1 == e.item
  }

  /** Each line for a layer that is there was tried, in order, and all of them went through
      or not. */
  ghost predicate LinesTried(lines: seq<Entry>, names: seq<string>, writes: seq<(nat, Item, bool)>, from: nat, at: seq<nat>, all: bool) {
    && |at| == |lines| && (forall i, j :: 0 <= i < j < |at| && lines[i].backend in names ==> at[i] < at[j])
    && (forall j :: 0 <= j < |at| ==> at[j] <= |writes|)
    && (forall j :: 0 <= j < |lines| && lines[j].backend in names ==> TriedAt(lines[j], names, writes, from, at[j]))
    && (all <==> forall j :: 0 <= j < |lines| && lines[j].backend in names ==> at[j] < |writes| && writes[at[j]].2)
  }

  lemma NoLinesTried(names: seq<string>, writes: seq<(nat, Item, bool)>, from: nat)
    ensures LinesTried([], names, writes, from, [], true)
  {
  }

  lemma LinesTriedGrow(lines: seq<Entry>, names: seq<string>, writes: seq<(nat, Item, bool)>, writes': seq<(nat, Item, bool)>, from: nat, at: seq<nat>, all: bool)
    requires LinesTried(lines, names, writes, from, at, all) && writes <= writes'
    ensures LinesTried(lines, names, writes', from, at, all)
  {
    forall j | 0 <= j < |lines| && lines[j].backend in names
      ensures TriedAt(lines[j], names, writes', from, at[j]) && writes'[at[j]] == writes[at[j]]
    {
      assert TriedAt(lines[j], names, writes, from, at[j]);
    }
  }

  lemma LineTried(lines: seq<Entry>, e: Entry, names: seq<string>, w0: seq<(nat, Item, bool)>, w1: seq<(nat, Item, bool)>, w2: seq<(nat, Item, bool)>,
                  from: nat, at: seq<nat>, all: bool, ok: bool)
    requires LinesTried(lines, names, w0, from, at, all) && from <= |w0| && w0 <= w1 <= w2
    requires e.backend !in names ==> ok && w1 == w0
    requires e.backend in names ==> exists i :: 0 <= i < |names| && names[i] == e.backend && w1 == w0 + [(i, e.item, ok)]
    ensures LinesTried(lines + [e], names, w2, from, at + [|w0|], all && ok)
  {
    LinesTriedGrow(lines, names, w0, w2, from, at, all);
    var more, at' := lines + [e], at + [|w0|];
    if e.backend in names {
      assert TriedAt(e, names, w1, from, |w0|) && w2[|w0|] == w1[|w0|];
    }
    forall j | 0 <= j < |lines| && lines[j].backend in names
      ensures at[j] < |w0|
    {
      assert TriedAt(lines[j], names, w0, from, at[j]);
    }
    forall j | 0 <= j < |more| && more[j].backend in names
      ensures TriedAt(more[j], names, w2, from, at'[j])
    {
      if j < |lines| { assert TriedAt(lines[j], names, w2, from, at[j]); }
    }
    assert all && ok ==> forall j :: 0 <= j < |more| && more[j].backend in names ==> w2[at'[j]].2;
    if !all {
      var j :| 0 <= j < |lines| && lines[j].backend in names && !(at[j] < |w2| && w2[at[j]].2);
      assert more[j] == lines[j] && at'[j] == at[j];
    }
    if !ok {
      assert more[|lines|] == e && at'[|lines|] == |w0|;
    }
  }

  /** Every segment is still there, or its lines for the last layer have arrived. */
  ghost predicate Kept(before: Log<Entry>, c: Catalog)
    requires c.Shaped()
  {
    forall k :: k in before.segments ==>
      || (k in c.log.segments && before.segments[k] <= c.log.segments[k])
      || forall e :: e in before.segments[k] && e.backend == c.LastName() ==> KeyOf(e.item) in c.Last()
  }

  lemma KeptAtFirst(l: Log<Entry>, c: Catalog, now: Instant)
    requires c.Shaped() && l.Valid() && c.log == l.Rotated(now)
    ensures Kept(c.log, c) && forall k :: k in c.log.segments && k != c.log.active ==> k < c.log.active
  {
  }

  lemma KeptServed(before: Log<Entry>, a: Catalog, b: Catalog)
    requires a.Shaped() && b.Shaped() && Kept(before, a) && Served(a, b)
    ensures Kept(before, b) && a.log.active <= b.log.active
    ensures forall k :: k in a.log.segments ==> k in b.log.segments
  {
    hide KeyOf;
  }

  lemma KeptDropped(before: Log<Entry>, c: Catalog, k: nat)
    requires c.Shaped() && Kept(before, c) && k in c.log.segments && k != c.log.active && Delivered(c, k)
    ensures Kept(before, Dropped(c, k))
  {
    hide KeyOf;
  }

  lemma KeptMeaning(l: Log<Entry>, before: Log<Entry>, c: Catalog, now: Instant)
    requires c.Shaped() && l.Valid() && before == l.Rotated(now) && Kept(before, c)
    ensures forall e :: l.Holds(e) && e.backend == c.LastName() ==> c.log.Holds(e) || KeyOf(e.item) in c.Last()
  {
    hide KeyOf;
    forall e | l.Holds(e) && e.backend == c.LastName() && KeyOf(e.item) !in c.Last()
      ensures c.log.Holds(e)
    {
      RotatedHolds(l, now, e);
      var k: nat, i: nat :| before.At(k, i, e);
      assert c.log.At(k, i, e);
    }
  }

  /** Of a lookup between two states: every layer was seen once, memory never fails, the
      last layer was seen with all it had, and only its failure spoils reliability. */
  ghost predicate SeenBy(seen: seq<Layer>, failed: set<nat>, a: Catalog, b: Catalog)
    requires a.Shaped()
  {
    && |seen| == |a.layers| && 0 !in failed && seen[0] == a.layers[0]
    && a.Last().Keys <= seen[|seen| - 1].Keys
    && b.reliable == (a.reliable && |seen| - 1 !in failed)
  }

  /** The first layers have been asked, and none has answered with the key. */
  ghost predicate SeenSoFar(seen: seq<Layer>, failed: set<nat>, a: Catalog, c: Catalog, i: nat, k: Key)
    requires a.Shaped() && c.Shaped() && c.names == a.names
  {
    && |seen| == i <= |a.layers| && 0 !in failed && (forall j :: j in failed ==> j < i)
    && (i > 0 ==> seen[0] == a.layers[0])
    && (forall j :: 0 <= j < i ==> j in failed || k !in seen[j])
    && c.layers[0] == a.layers[0] && a.Last().Keys <= c.Last().Keys
    && c.reliable == (a.reliable && |a.layers| - 1 !in failed)
    && (i == |a.layers| ==> seen[i - 1] == c.Last())
  }

  lemma NothingSeen(a: Catalog, k: Key)
    requires a.Shaped()
    ensures SeenSoFar([], {}, a, a, 0, k)
  {
  }

  lemma SeenStill(seen: seq<Layer>, failed: set<nat>, a: Catalog, b: Catalog, c: Catalog, i: nat, k: Key)
    requires a.Shaped() && b.Shaped() && c.Shaped() && b.names == a.names && c.names == a.names
    requires SeenSoFar(seen, failed, a, b, i, k) && Replayed(b, c) && i < |a.layers|
    ensures SeenSoFar(seen, failed, a, c, i, k)
  {
  }

  lemma ReadFailed(seen: seq<Layer>, failed: set<nat>, a: Catalog, c: Catalog, c': Catalog, i: nat, k: Key)
    requires a.Shaped() && c.Shaped() && c.names == a.names && SeenSoFar(seen, failed, a, c, i, k)
    requires 0 < i < |a.layers| && c' == c.(reliable := c.reliable && i < |a.layers| - 1)
    ensures SeenSoFar(seen + [c.layers[i]], failed + {i}, a, c', i + 1, k)
  {
  }

  lemma ReadMissed(seen: seq<Layer>, failed: set<nat>, a: Catalog, c: Catalog, i: nat, k: Key)
    requires a.Shaped() && c.Shaped() && c.names == a.names && SeenSoFar(seen, failed, a, c, i, k)
    requires i < |a.layers| && k !in c.layers[i]
    ensures SeenSoFar(seen + [c.layers[i]], failed, a, c, i + 1, k)
  {
  }

  lemma ReadFound(seen: seq<Layer>, failed: set<nat>, a: Catalog, c: Catalog, i: nat, k: Key)
    requires a.Shaped() && c.Shaped() && c.names == a.names && SeenSoFar(seen, failed, a, c, i, k)
    requires i < |a.layers| && k in c.layers[i]
    ensures SeenBy(seen + c.layers[i..], failed, a, c)
    ensures ReadThrough(seen + c.layers[i..], failed, k) == Some(c.layers[i][k])
    ensures forall j :: j in failed ==> j < i
    ensures i == 0 <==> k in c.layers[0]
  {
    var all := seen + c.layers[i..];
    assert forall j :: 0 <= j < |all| ==> all[j] == if j < i then seen[j] else c.layers[j];
    ReadFromFinds(all, failed, k, 0, i);
  }

  lemma NothingFound(seen: seq<Layer>, failed: set<nat>, a: Catalog, c: Catalog, k: Key)
    requires a.Shaped() && c.Shaped() && c.names == a.names && SeenSoFar(seen, failed, a, c, |a.layers|, k)
    ensures SeenBy(seen, failed, a, c) && ReadThrough(seen, failed, k) == None
    ensures |a.layers| - 1 !in failed ==> k !in c.Last()
  {
    MissedIff(seen, failed, k);
  }

  /** Memory always answers, and first. */
  lemma MemoryAnswers(seen: seq<Layer>, failed: set<nat>, k: Key)
    requires seen != [] && 0 !in failed
    ensures k in seen[0] ==> ReadThrough(seen, failed, k) == Some(seen[0][k])
  {
    if k in seen[0] {
      ReadFromFinds(seen, failed, k, 0, 0);
    }
  }

  predicate Omitted(x: Item, tenant: string, kind: Kind, ids: seq<string>) {
    Accepts(KeyOf(x)) && x.tenant == tenant && KeyOf(x).kind == kind && KeyOf(x).id !in ids
  }

  /** The tenant's part of a slower layer. */
  method ListLayer(layer: Layer, tenant: string, kind: Kind) returns (r: seq<Descriptor>, ghost ids: seq<string>)
    ensures Distinct(ids) && forall id :: id in ids <==> Key(tenant, kind, id) in layer
    ensures |r| == |ids| && forall i :: 0 <= i < |r| ==> r[i] == layer[Key(tenant, kind, ids[i])]
  {
    var m := map k | k in layer && k.tenant == tenant && k.kind == kind :: k.id := layer[k];
    r, ids := Values(m);
  }

  lemma ServedSame(c: Catalog)
    requires c.Shaped()
    ensures Served(c, c)
  {
  }

  lemma ServedTransitive(a: Catalog, b: Catalog, c: Catalog)
    requires Inv(a) && Inv(b) && Served(a, b) && Served(b, c)
    ensures Served(a, c)
  {
    hide Inv, Grown;
    assert a.log.Valid() && b.log.Valid() by { ShapedOf(a); ShapedOf(b); }
    GrownTransitive(a.log, b.log, c.log);
  }

  lemma ShapedOf(c: Catalog)
    requires Inv(c)
    ensures c.Shaped()
  {
  }

  lemma ReplayedServes(a: Catalog, b: Catalog)
    requires Replayed(a, b) && b.log == a.log
    ensures Served(a, b)
  {
  }

  /** What is through stays through while callers go on. */
  lemma ServedKeepsArrivals(a: Catalog, b: Catalog, k: nat)
    requires Inv(a) && Inv(b) && Served(a, b) && k in a.log.segments && k != a.log.active
    ensures k in b.log.segments && k != b.log.active && b.log.segments[k] == a.log.segments[k]
    ensures a.Last().Keys <= b.Last().Keys && b.names == a.names
  {
    hide Inv;
    ShapedOf(a);
    ShapedOf(b);
  }

  lemma LoggedGrows(a: Catalog, b: Catalog, e: Entry, size: nat, now: Instant)
    requires a.log.Valid() && exists rotate :: b == Logged(a, e, size, now, rotate)
    ensures Grown(a.log, b.log)
  {
    var rotate :| b == Logged(a, e, size, now, rotate);
    PutHolds(a.log, rotate, e, size, now, e);
  }
}
