/**
 The layered catalog as a value: what its layers and its repair log hold, what has been
 registered, and what every step of the chain keeps (internal/kernel/catalog_chain.go).

 `registered` is the history, each item as it was registered.  `owed` are the writes of
 registrations in progress that have neither been made nor logged yet.  `reliable` is
 lost when a read of the last layer fails, for then a registered key can look new, and
 when a registered key is registered with other contents.
 */
module CatalogState {
  import opened Prelude
  import opened Calendar
  import opened SegmentLog
  import opened CatalogTypes

  const MEMORY := "memory"

  datatype Entry = Entry(backend: string, item: Item)

  type Layer = map<Key, Descriptor>

  datatype Catalog = Catalog(
    names: seq<string>,
    layers: seq<Layer>,
    log: Log<Entry>,
    registered: set<Item>,
    owed: set<Entry>,
    reliable: bool)
  {
    ghost predicate Shaped() {
      && |names| == |layers| >= 1 && names[0] == MEMORY
      && (forall i, j :: 0 <= i < j < |names| ==> names[i] != names[j])
      && log.Valid()
    }

    function Last(): Layer
      requires layers != []
    {
      layers[|layers| - 1]
    }

    function LastName(): string
      requires names != []
    {
      names[|names| - 1]
    }
  }

  // ---- what every step keeps ----

  /** A layer holds nothing but registered items, each under its own key. */
  ghost predicate PartOf(layer: Layer, registered: set<Item>) {
    forall k :: k in layer ==> KeyOf(Item(k.tenant, layer[k])) == k && Plain(Item(k.tenant, layer[k])) in registered
  }

  ghost predicate EntryOk(names: seq<string>, registered: set<Item>, e: Entry) {
    e.backend in names && e.backend != MEMORY && Plain(e.item) in registered
  }

  ghost predicate LogOk(names: seq<string>, registered: set<Item>, log: Log<Entry>) {
    forall e :: log.Holds(e) ==> EntryOk(names, registered, e)
  }

  ghost predicate OwedOk(names: seq<string>, registered: set<Item>, owed: set<Entry>) {
    forall e :: e in owed ==> e.backend in names && Plain(e.item) in registered
  }

  /** A write of the key to the backend is still to be made. */
  ghost predicate Awaited(log: Log<Entry>, owed: set<Entry>, backend: string, k: Key) {
    exists e: Entry :: e.backend == backend && KeyOf(e.item) == k && (log.Holds(e) || e in owed)
  }

  /** Every registered key is in the last layer or a write of it there is to be made. */
  ghost predicate Repairable(c: Catalog)
    requires c.Shaped()
  {
    forall x :: x in c.registered && Accepts(KeyOf(x)) ==>
      KeyOf(x) in c.Last() || Awaited(c.log, c.owed, c.LastName(), KeyOf(x))
  }

  /** Every registered key is in memory or in the last layer, but for the one about to
      be written to memory. */
  ghost predicate Findable(c: Catalog)
    requires c.Shaped()
  {
    forall x :: x in c.registered && Accepts(KeyOf(x)) ==>
      KeyOf(x) in c.layers[0] || KeyOf(x) in c.Last() || exists e :: e in c.owed && e.backend == MEMORY && KeyOf(e.item) == KeyOf(x)
  }

  /** No key was registered twice with different contents. */
  ghost predicate WriteOnce(registered: set<Item>) {
    forall x, y :: x in registered && y in registered && KeyOf(x) == KeyOf(y) && Accepts(KeyOf(x)) ==> x == y
  }

  ghost predicate Inv(c: Catalog) {
    && c.Shaped()
    && (forall x :: x in c.registered ==> x == Plain(x))
    && (forall i :: 0 <= i < |c.layers| ==> PartOf(c.layers[i], c.registered))
    && LogOk(c.names, c.registered, c.log)
    && OwedOk(c.names, c.registered, c.owed)
    && Repairable(c)
    && Findable(c)
    && (c.reliable ==> WriteOnce(c.registered))
  }

  // ---- steps ----

  /** A registration begins: memory and the last layer are owed the item. */
  function Began(c: Catalog, x: Item): Catalog
    requires c.names != []
  {
    c.(registered := c.registered + {Plain(x)}, owed := c.owed + {Entry(MEMORY, x), Entry(c.LastName(), x)})
  }

  /** A layer stores the item, with a creation time and version of its own. */
  function Wrote(c: Catalog, i: nat, x: Item, stored: Descriptor): Catalog
    requires i < |c.layers|
  {
    c.(layers := c.layers[i := c.layers[i][KeyOf(x) := stored]])
  }

  function Settled(c: Catalog, e: Entry): Catalog {
    c.(owed := c.owed - {e})
  }

  /** An append to the log, with or without opening the next segment first. */
  function Logged(c: Catalog, e: Entry, size: nat, now: Instant, rotate: bool): Catalog
    requires c.log.Valid()
  {
    c.(log := (if rotate then c.log.Rotated(now) else c.log).Put(e, size), owed := c.owed - {e})
  }

  function Sealed(c: Catalog, now: Instant): Catalog { c.(log := c.log.Rotated(now)) }

  /** Every entry of the segment for the last layer has arrived there. */
  predicate Delivered(c: Catalog, k: nat)
    requires |c.names| == |c.layers| >= 1 && k in c.log.segments
  {
    forall i :: 0 <= i < |c.log.segments[k]| && c.log.segments[k][i].backend == c.LastName() ==>
      KeyOf(c.log.segments[k][i].item) in c.Last()
  }

  function Dropped(c: Catalog, k: nat): Catalog { c.(log := c.log.Deleted(k)) }

  function Expired(c: Catalog, i: nat, keys: set<Key>): Catalog
    requires i < |c.layers|
  {
    c.(layers := c.layers[i := c.layers[i] - keys])
  }

  // ---- each step keeps it ----

  /** The key is new, or what is registered under it is the same. */
  ghost predicate NoConflict(registered: set<Item>, x: Item) {
    Accepts(KeyOf(x)) ==> forall y :: y in registered && KeyOf(y) == KeyOf(x) ==> y == Plain(x)
  }

  /** Anything may be registered, and reads stay reliable if it does not conflict. */
  lemma BeganKeeps(c: Catalog, x: Item)
    requires Inv(c) && (c.reliable ==> NoConflict(c.registered, x))
    ensures Inv(Began(c, x))
  {
    hide KeyOf, Plain, Accepts, Findable;
    var c' := Began(c, x);
    assert Entry(MEMORY, x) in c'.owed && Entry(c.LastName(), x) in c'.owed;
    assert Findable(c') by {
      BeganFindable(c, x);
    }
    forall y | y in c'.registered && Accepts(KeyOf(y))
      ensures KeyOf(y) in c'.Last() || Awaited(c'.log, c'.owed, c'.LastName(), KeyOf(y))
    {
      if y in c.registered && KeyOf(y) !in c.Last() {
        var e: Entry :| e.backend == c.LastName() && KeyOf(e.item) == KeyOf(y) && (c.log.Holds(e) || e in c.owed);
      }
    }
    PlainTwice(x);
  }

  lemma BeganFindable(c: Catalog, x: Item)
    requires c.Shaped() && Findable(c)
    ensures Findable(Began(c, x))
  {
    hide KeyOf, Plain, Accepts;
    assert Entry(MEMORY, x) in Began(c, x).owed;
  }

  lemma PlainTwice(x: Item)
    ensures Plain(Plain(x)) == Plain(x)
  {
  }

  lemma WroteKeeps(c: Catalog, i: nat, x: Item, stored: Descriptor)
    requires Inv(c) && i < |c.layers| && Plain(x) in c.registered && Plain(Item(x.tenant, stored)) == Plain(x)
    ensures Inv(Wrote(c, i, x, stored))
  {
    hide KeyOf, Plain, Accepts, LogOk, OwedOk, WriteOnce;
    var c' := Wrote(c, i, x, stored);
    assert KeyOf(Plain(Item(x.tenant, stored))) == KeyOf(Plain(x)) == KeyOf(x);
    assert PartOf(c'.layers[i], c.registered);
    assert forall k :: k in c.Last() ==> k in c'.Last();
    assert forall k :: k in c.layers[0] ==> k in c'.layers[0];
  }

  /** The write just made is no longer owed. */
  lemma SettledKeeps(c: Catalog, i: nat, x: Item)
    requires Inv(c) && i < |c.layers|
    requires KeyOf(x) in c.layers[i] || (!Accepts(KeyOf(x)))
    ensures Inv(Settled(c, Entry(c.names[i], x)))
  {
    hide KeyOf, Plain, Accepts, PartOf, LogOk, WriteOnce;
    var e, c' := Entry(c.names[i], x), Settled(c, Entry(c.names[i], x));
    forall y | y in c'.registered && Accepts(KeyOf(y)) && KeyOf(y) !in c'.Last()
      ensures Awaited(c'.log, c'.owed, c'.LastName(), KeyOf(y))
    {
      var f: Entry :| f.backend == c.LastName() && KeyOf(f.item) == KeyOf(y) && (c.log.Holds(f) || f in c.owed);
      assert f != e;
    }
  }

  lemma LoggedKeeps(c: Catalog, e: Entry, size: nat, now: Instant, rotate: bool)
    requires Inv(c) && EntryOk(c.names, c.registered, e)
    ensures Inv(Logged(c, e, size, now, rotate))
  {
    hide KeyOf, Plain, Accepts, PartOf, WriteOnce, Awaited;
    var c' := Logged(c, e, size, now, rotate);
    forall f
      ensures c'.log.Holds(f) <==> c.log.Holds(f) || f == e
    {
      PutHolds(c.log, rotate, e, size, now, f);
    }
    AwaitedStill(c, c', e);
    assert Repairable(c');
    assert Findable(c');
  }

  lemma AwaitedStill(c: Catalog, c': Catalog, e: Entry)
    requires forall f :: c'.log.Holds(f) <==> c.log.Holds(f) || f == e
    requires c'.owed == c.owed - {e}
    ensures forall b, k :: Awaited(c.log, c.owed, b, k) ==> Awaited(c'.log, c'.owed, b, k)
  {
    hide KeyOf;
    forall b, k | Awaited(c.log, c.owed, b, k)
      ensures Awaited(c'.log, c'.owed, b, k)
    {
      var f: Entry :| f.backend == b && KeyOf(f.item) == k && (c.log.Holds(f) || f in c.owed);
      assert c'.log.Holds(f) || f in c'.owed;
    }
  }

  lemma SealedKeeps(c: Catalog, now: Instant)
    requires Inv(c)
    ensures Inv(Sealed(c, now))
  {
    hide KeyOf, Plain, Accepts, PartOf, WriteOnce;
    forall f
      ensures c.log.Rotated(now).Holds(f) <==> c.log.Holds(f)
    {
      RotatedHolds(c.log, now, f);
    }
  }

  lemma DroppedKeeps(c: Catalog, k: nat)
    requires Inv(c) && k in c.log.segments && k != c.log.active && Delivered(c, k)
    ensures Inv(Dropped(c, k))
  {
    hide KeyOf, Plain, Accepts, PartOf, WriteOnce, OwedOk;
    var c' := Dropped(c, k);
    forall f | c'.log.Holds(f)
      ensures c.log.Holds(f)
    {
      var s: nat, i: nat :| c'.log.At(s, i, f);
      assert c.log.At(s, i, f);
    }
    forall y | y in c'.registered && Accepts(KeyOf(y)) && KeyOf(y) !in c'.Last()
      ensures Awaited(c'.log, c'.owed, c'.LastName(), KeyOf(y))
    {
      var f: Entry :| f.backend == c.LastName() && KeyOf(f.item) == KeyOf(y) && (c.log.Holds(f) || f in c.owed);
      if c.log.Holds(f) {
        var s: nat, i: nat :| c.log.At(s, i, f);
        assert c'.log.At(s, i, f);
      }
    }
  }

  lemma ExpiredKeeps(c: Catalog, i: nat, keys: set<Key>)
    requires Inv(c) && 0 < i < |c.layers| - 1
    ensures Inv(Expired(c, i, keys))
  {
    hide KeyOf, Plain, Accepts, LogOk, WriteOnce, OwedOk;
    var c' := Expired(c, i, keys);
    assert c'.Last() == c.Last() && c'.layers[0] == c.layers[0];
  }

  lemma UnreliableKeeps(c: Catalog)
    requires Inv(c)
    ensures Inv(c.(reliable := false))
  {
    hide KeyOf, Plain, Accepts, PartOf, LogOk, OwedOk, WriteOnce;
  }

  // ---- what it means ----

  /** The catalog as a map: what is registered under a key. */
  ghost function MapAt(registered: set<Item>, k: Key): (r: Option<Item>)
    ensures r.Some? ==> r.value in registered && KeyOf(r.value) == k
    ensures r == None ==> forall x :: x in registered ==> KeyOf(x) != k
  {
    if exists x :: x in registered && KeyOf(x) == k
    then
      var x :| x in registered && KeyOf(x) == k;
      Some(x)
    else None
  }

  lemma MapAtOnly(registered: set<Item>, x: Item)
    requires WriteOnce(registered) && x in registered && Accepts(KeyOf(x))
    ensures MapAt(registered, KeyOf(x)) == Some(x)
  {
  }

  /** A registered item the last layer has not got is waiting for it in the log, once no
      registration is in progress; with reliable reads the waiting item is that very
      item. */
  lemma MissingIsLogged(c: Catalog, x: Item)
    requires Inv(c) && c.owed == {}
    requires x in c.registered && Accepts(KeyOf(x)) && KeyOf(x) !in c.Last()
    ensures exists e :: c.log.Holds(e) && e.backend == c.LastName() && KeyOf(e.item) == KeyOf(x)
                        && (c.reliable ==> Plain(e.item) == x)
  {
    hide KeyOf, Plain, Accepts, PartOf;
    var e: Entry :| e.backend == c.LastName() && KeyOf(e.item) == KeyOf(x) && (c.log.Holds(e) || e in c.owed);
    assert Plain(e.item) in c.registered && KeyOf(Plain(e.item)) == KeyOf(x);
  }

  lemma EmptyHoldsNothing<E>(log: Log<E>)
    requires log.Empty()
    ensures forall e :: !log.Holds(e)
  {
  }

  /** Repair is complete: with the log empty the last layer has exactly the registered
      keys, and with reliable reads exactly the registered items. */
  lemma RepairIsComplete(c: Catalog, k: Key)
    requires Inv(c) && c.owed == {} && c.log.Empty() && Accepts(k)
    ensures k in c.Last() <==> exists x :: x in c.registered && KeyOf(x) == k
    ensures c.reliable ==> forall x :: x in c.registered && KeyOf(x) == k ==> k in c.Last() && Plain(Item(k.tenant, c.Last()[k])) == x
  {
    hide KeyOf, Plain, Accepts, LogOk, OwedOk;
    EmptyHoldsNothing(c.log);
    forall x | x in c.registered && KeyOf(x) == k
      ensures k in c.Last()
    {
      assert !Awaited(c.log, c.owed, c.LastName(), k);
    }
    if k in c.Last() {
      var x := Plain(Item(k.tenant, c.Last()[k]));
      assert x in c.registered && KeyOf(x) == k;
    }
  }

  /** With reliable reads no two layers disagree about a key. */
  lemma LayersAgree(c: Catalog, i: nat, j: nat, k: Key)
    requires Inv(c) && c.reliable && Accepts(k)
    requires i < |c.layers| && j < |c.layers| && k in c.layers[i] && k in c.layers[j]
    ensures PlainDescriptor(c.layers[i][k]) == PlainDescriptor(c.layers[j][k])
  {
    var x, y := Plain(Item(k.tenant, c.layers[i][k])), Plain(Item(k.tenant, c.layers[j][k]));
    assert x in c.registered && y in c.registered && KeyOf(x) == KeyOf(y) == k;
  }

  // ---- reading through ----

  /** The lookup in a run of layers some of which fail to answer: the first that answers
      with the key. */
  function ReadFrom(layers: seq<Layer>, failed: set<nat>, k: Key, i: nat): Option<Descriptor>
    decreases |layers| - i
  {
    if i >= |layers| then None
    else if i !in failed && k in layers[i] then Some(layers[i][k])
    else ReadFrom(layers, failed, k, i + 1)
  }

  function ReadThrough(layers: seq<Layer>, failed: set<nat>, k: Key): Option<Descriptor> {
    ReadFrom(layers, failed, k, 0)
  }

  lemma {:induction false} ReadFromMisses(layers: seq<Layer>, failed: set<nat>, k: Key, i: nat)
    ensures ReadFrom(layers, failed, k, i) == None <==> forall j :: i <= j < |layers| && k in layers[j] ==> j in failed
    decreases |layers| - i
  {
    if i < |layers| {
      ReadFromMisses(layers, failed, k, i + 1);
    }
  }

  /** What is found is what the first answering layer has. */
  lemma {:induction false} ReadFromFinds(layers: seq<Layer>, failed: set<nat>, k: Key, i: nat, n: nat)
    requires i <= n < |layers| && n !in failed && k in layers[n]
    requires forall j :: i <= j < n ==> j in failed || k !in layers[j]
    ensures ReadFrom(layers, failed, k, i) == Some(layers[n][k])
    decreases n - i
  {
    if i < n {
      ReadFromFinds(layers, failed, k, i + 1, n);
    }
  }

  /** A lookup comes back empty exactly when every layer that has the key failed to
      answer. */
  lemma MissedIff(layers: seq<Layer>, failed: set<nat>, k: Key)
    ensures ReadThrough(layers, failed, k) == None <==> forall j :: 0 <= j < |layers| && k in layers[j] ==> j in failed
  {
    ReadFromMisses(layers, failed, k, 0);
  }

  /** A key that was registered is missed exactly when it is not in memory, the last layer
      fails, and so does every layer between that has it. */
  lemma TakenIsMissedIff(c: Catalog, failed: set<nat>, k: Key)
    requires Inv(c) && c.owed == {} && 0 !in failed
    requires Accepts(k) && MapAt(c.registered, k).Some?
    ensures ReadThrough(c.layers, failed, k) == None
            <==> && k !in c.layers[0] && |c.layers| - 1 in failed
                 && forall j :: 0 < j < |c.layers| - 1 && k in c.layers[j] ==> j in failed
  {
    hide Accepts, KeyOf, Plain, PartOf, LogOk, OwedOk;
    MissedIff(c.layers, failed, k);
    var x := MapAt(c.registered, k).value;
    assert k in c.layers[0] || k in c.Last();
  }

  /** A second registration that was let through because reads failed replaces what was
      registered in the last layer. */
  lemma FailedReadLosesARegistration(c: Catalog, failed: set<nat>, k: Key, x: Item)
    requires Inv(c) && c.reliable && c.owed == {} && 0 !in failed && ReadThrough(c.layers, failed, k) == None
    requires MapAt(c.registered, k).Some? && Accepts(k) && KeyOf(x) == k && x == Plain(x)
    requires x != MapAt(c.registered, k).value
    ensures var c' := Overwritten(c, x);
            && |c.layers| > 1 && |c.layers| - 1 in failed && k in c.Last()
            && Inv(c') && c'.owed == {} && !WriteOnce(c'.registered)
            && k in c'.Last() && PlainDescriptor(c'.Last()[k]) == x.descriptor != PlainDescriptor(c.Last()[k])
  {
    hide Accepts;
    TakenIsMissedIff(c, failed, k);
    var y := MapAt(c.registered, k).value;
    TakenIsStored(c, k);
    OverwriteKeeps(c, x);
    var c1 := Began(c.(reliable := false), x);
    assert y in c1.registered && x in c1.registered && KeyOf(y) == KeyOf(x);
    assert x.descriptor == PlainDescriptor(x.descriptor) && x.tenant == k.tenant;
  }

  /** A registration after a failed read, with memory and the last layer taking it. */
  function Overwritten(c: Catalog, x: Item): Catalog
    requires |c.names| == |c.layers| > 1
  {
    var last := |c.layers| - 1;
    var c1 := Settled(Wrote(Began(c.(reliable := false), x), 0, x, x.descriptor), Entry(MEMORY, x));
    Settled(Wrote(c1, last, x, x.descriptor), Entry(c.LastName(), x))
  }

  /** A taken key that is not in memory is in the last layer, as registered. */
  lemma TakenIsStored(c: Catalog, k: Key)
    requires Inv(c) && c.reliable && c.owed == {} && Accepts(k) && MapAt(c.registered, k).Some? && k !in c.layers[0]
    ensures k in c.Last() && MapAt(c.registered, k).value == Item(k.tenant, PlainDescriptor(c.Last()[k])) && |c.layers| > 1
  {
    hide Accepts;
    var y := MapAt(c.registered, k).value;
    assert k in c.layers[0] || k in c.Last();
    var z := Plain(Item(k.tenant, c.Last()[k]));
    assert z in c.registered && KeyOf(z) == k;
  }

  lemma OverwriteKeeps(c: Catalog, x: Item)
    requires Inv(c) && |c.layers| > 1 && x == Plain(x)
    ensures Inv(Overwritten(c, x))
  {
    hide Accepts, KeyOf, PartOf, LogOk, OwedOk, Repairable, Findable;
    var last := |c.layers| - 1;
    var c1 := Began(c.(reliable := false), x);
    UnreliableKeeps(c);
    BeganKeeps(c.(reliable := false), x);
    WroteKeeps(c1, 0, x, x.descriptor);
    SettledKeeps(Wrote(c1, 0, x, x.descriptor), 0, x);
    var c2 := Settled(Wrote(c1, 0, x, x.descriptor), Entry(MEMORY, x));
    WroteKeeps(c2, last, x, x.descriptor);
    SettledKeeps(Wrote(c2, last, x, x.descriptor), last, x);
  }
}
