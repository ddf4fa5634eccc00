/**
 The memory layer of the catalog (internal/kernel/tenant_catalog_memory.go): per tenant
 a map of services, of metrics and of plans.  What it promises is that of one map from
 keys to descriptors.
 */
module CatalogMemory {
  import opened Prelude
  import opened CatalogTypes

  type Table = map<string, map<string, Descriptor>>

  function Find(t: Table, tenant: string, id: string): Option<Descriptor> {
    if tenant in t && id in t[tenant] then Some(t[tenant][id]) else None
  }

  function Stamped(d: Descriptor, now: string): (s: Descriptor)
    ensures PlainDescriptor(s) == PlainDescriptor(d) && s.id == d.id && s.Kind() == d.Kind()
    ensures s.createdAt == if d.createdAt == "" then now else d.createdAt
  {
    match d
    case ServiceDescriptor(_, _, _, createdAt) => if createdAt == "" then ServiceDescriptor(d.id, d.name, d.description, now) else d
    case MetricDescriptor(_, _, _, _, _, createdAt) =>
      if createdAt == "" then MetricDescriptor(d.id, d.service, d.name, d.unit, d.description, now) else d
    case PlanDescriptor(_, _, _, _, _, version, _, createdAt) =>
      PlanDescriptor(d.id, d.service, d.name, d.rates, d.quotas, if version <= 0 then 1 else version, d.active,
           if createdAt == "" then now else createdAt)
  }

  class MemoryTenantCatalogStore {
    var services: Table
    var metrics: Table
    var plans: Table

    function TableOf(kind: Kind): Table
      reads this
    {
      match kind
      case ServiceKind => services
      case MetricKind => metrics
      case PlanKind => plans
    }

    ghost function Lookup(k: Key): Option<Descriptor>
      reads this
    {
      Find(TableOf(k.kind), k.tenant, k.id)
    }

    ghost function View(): (m: map<Key, Descriptor>)
      reads this
      ensures forall k :: k in m <==> Lookup(k).Some?
      ensures forall k :: k in m ==> Lookup(k) == Some(m[k])
    {
      var keys := (set t, i | t in services && i in services[t] :: Key(t, ServiceKind, i))
                  + (set t, i | t in metrics && i in metrics[t] :: Key(t, MetricKind, i))
                  + (set t, i | t in plans && i in plans[t] :: Key(t, PlanKind, i));
      map k | k in keys :: Lookup(k).value
    }

    constructor ()
      ensures View() == map[]
    {
      services, metrics, plans := map[], map[], map[];
      new;
      assert forall k :: Lookup(k) == None;
    }

    method RegisterService(tenant: string, d: Descriptor, now: string) returns (ok: bool)
      requires d.ServiceDescriptor?
      modifies this
      ensures ok == Accepts(KeyOf(Item(tenant, d)))
      ensures View() == if ok then old(View())[KeyOf(Item(tenant, d)) := Stamped(d, now)] else old(View())
    {
      hide Stamped;
      if tenant == "" || !ValidServiceId(d.id) {
        return false;
      }
      if tenant !in services {
        services := services[tenant := map[]];
      }
      services := services[tenant := services[tenant][d.id := Stamped(d, now)]];
      SameView(old(View()), KeyOf(Item(tenant, d)), Stamped(d, now));
      return true;
    }

    method RegisterMetric(tenant: string, d: Descriptor, now: string) returns (ok: bool)
      requires d.MetricDescriptor?
      modifies this
      ensures ok == Accepts(KeyOf(Item(tenant, d)))
      ensures View() == if ok then old(View())[KeyOf(Item(tenant, d)) := Stamped(d, now)] else old(View())
    {
      hide Stamped;
      if tenant == "" || !ValidMetricId(d.id) {
        return false;
      }
      if tenant !in metrics {
        metrics := metrics[tenant := map[]];
      }
      metrics := metrics[tenant := metrics[tenant][d.id := Stamped(d, now)]];
      SameView(old(View()), KeyOf(Item(tenant, d)), Stamped(d, now));
      return true;
    }

    method RegisterPlan(tenant: string, d: Descriptor, now: string) returns (ok: bool)
      requires d.PlanDescriptor?
      modifies this
      ensures ok == Accepts(KeyOf(Item(tenant, d)))
      ensures View() == if ok then old(View())[KeyOf(Item(tenant, d)) := Stamped(d, now)] else old(View())
    {
      hide Stamped;
      if tenant == "" || d.id == "" {
        return false;
      }
      if tenant !in plans {
        plans := plans[tenant := map[]];
      }
      plans := plans[tenant := plans[tenant][d.id := Stamped(d, now)]];
      SameView(old(View()), KeyOf(Item(tenant, d)), Stamped(d, now));
      return true;
    }

    lemma SameView(before: map<Key, Descriptor>, k: Key, d: Descriptor)
      requires forall j :: Lookup(j) == if j == k then Some(d) else if j in before then Some(before[j]) else None
      ensures View() == before[k := d]
    {
    }

    /** Stores the item under its key, in place of what was there, or refuses it. */
    method Register(x: Item, now: string) returns (ok: bool)
      modifies this
      ensures ok == Accepts(KeyOf(x))
      ensures View() == if ok then old(View())[KeyOf(x) := Stamped(x.descriptor, now)] else old(View())
    {
      hide Stamped, Accepts, KeyOf;
      match x.descriptor {
        case ServiceDescriptor(_, _, _, _) => ok := RegisterService(x.tenant, x.descriptor, now);
        case MetricDescriptor(_, _, _, _, _, _) => ok := RegisterMetric(x.tenant, x.descriptor, now);
        case PlanDescriptor(_, _, _, _, _, _, _, _) => ok := RegisterPlan(x.tenant, x.descriptor, now);
      }
      assert Item(x.tenant, x.descriptor) == x;
    }

    method Get(k: Key) returns (r: Option<Descriptor>)
      ensures r == if k in View() then Some(View()[k]) else None
    {
      var t := TableOf(k.kind);
      if k.tenant !in t || k.id !in t[k.tenant] {
        return None;
      }
      return Some(t[k.tenant][k.id]);
    }

    /** The tenant's descriptors of one kind, each once. */
    method List(tenant: string, kind: Kind) returns (r: seq<Descriptor>, ghost ids: seq<string>)
      ensures Distinct(ids) && forall id :: id in ids <==> Key(tenant, kind, id) in View()
      ensures |r| == |ids| && forall i :: 0 <= i < |r| ==> r[i] == View()[Key(tenant, kind, ids[i])]
    {
      var t := TableOf(kind);
      if tenant !in t {
        return [], [];
      }
      r, ids := Values(t[tenant]);
      assert forall id :: Key(tenant, kind, id) in View() <==> id in t[tenant];
      forall i | 0 <= i < |r|
        ensures r[i] == View()[Key(tenant, kind, ids[i])]
      {
        assert Lookup(Key(tenant, kind, ids[i])) == Some(t[tenant][ids[i]]);
      }
    }
  }

  method Values(m: map<string, Descriptor>) returns (r: seq<Descriptor>, ghost ids: seq<string>)
    ensures Lists(ids, m.Keys) && |r| == |ids|
    ensures forall i :: 0 <= i < |r| ==> ids[i] in m && r[i] == m[ids[i]]
  {
    r, ids := [], [];
    var rest := m.Keys;
    while rest != {}
      invariant rest <= m.Keys && |r| == |ids| && Lists(ids, m.Keys - rest)
      invariant forall i :: 0 <= i < |r| ==> ids[i] in m && r[i] == m[ids[i]]
      decreases rest
    {
      var id :| id in rest;
      r, ids, rest := r + [m[id]], ids + [id], rest - {id};
    }
    assert m.Keys - rest == m.Keys;
  }
}
