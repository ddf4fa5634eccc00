/**
 Tenant self-service on the catalog (internal/modules/tenant/service.go): registering
 services, metrics and plans with their validation, reference and conflict checks.
 */
module TenantService {
  import opened Prelude
  import opened Calendar
  import opened CatalogTypes
  import opened CatalogState
  import opened CatalogChain

  datatype Error = Invalid(field: string) | Conflict | Backend

  ghost predicate Exists(registered: set<Item>, k: Key) {
    exists y :: y in registered && KeyOf(y) == k
  }

  lemma NewIsNoConflict(registered: set<Item>, x: Item)
    requires MapAt(registered, KeyOf(x)) == None || !Accepts(KeyOf(x))
    ensures NoConflict(registered, x)
  {
  }

  /** What an item refers to is registered, and its quotas are not negative. */
  ghost predicate RefersOk(registered: set<Item>, tenant: string, d: Descriptor) {
    match d
    case ServiceDescriptor(_, _, _, _) => true
    case MetricDescriptor(_, service, _, _, _, _) => Exists(registered, Key(tenant, ServiceKind, service))
    case PlanDescriptor(_, service, _, rates, quotas, _, _, _) =>
      && Exists(registered, Key(tenant, ServiceKind, service))
      && (forall m :: m in rates ==> Exists(registered, Key(tenant, MetricKind, m)))
      && (forall m :: m in quotas ==> quotas[m] >= 0 && Exists(registered, Key(tenant, MetricKind, m)))
  }

  ghost predicate ReferencesHold(registered: set<Item>) {
    forall x :: x in registered ==> RefersOk(registered, x.tenant, x.descriptor)
  }

  /** References never dangle, because nothing is ever unregistered. */
  lemma ReferencesGrow(registered: set<Item>, x: Item)
    requires ReferencesHold(registered) && RefersOk(registered, x.tenant, x.descriptor)
    ensures ReferencesHold(registered + {Plain(x)})
  {
    hide KeyOf;
    var after := registered + {Plain(x)};
    forall y | y in after
      ensures RefersOk(after, y.tenant, y.descriptor)
    {
      assert RefersOk(registered, y.tenant, y.descriptor);
      forall k | Exists(registered, k)
        ensures Exists(after, k)
      {
        var z :| z in registered && KeyOf(z) == k;
        assert z in after;
      }
    }
  }

  /** Once the log is empty references hold inside the last layer itself: every metric's
      service is there, and every plan's service and metrics. */
  lemma ReferencesHoldAtRest(c: Catalog, k: Key)
    requires Inv(c) && c.owed == {} && c.log.Empty() && ReferencesHold(c.registered)
    requires k in c.Last()
    ensures match c.Last()[k]
            case ServiceDescriptor(_, _, _, _) => true
            case MetricDescriptor(_, service, _, _, _, _) => Accepts(Key(k.tenant, ServiceKind, service)) ==> Key(k.tenant, ServiceKind, service) in c.Last()
            case PlanDescriptor(_, service, _, rates, quotas, _, _, _) =>
              && (Accepts(Key(k.tenant, ServiceKind, service)) ==> Key(k.tenant, ServiceKind, service) in c.Last())
              && forall m :: (m in rates || m in quotas) && Accepts(Key(k.tenant, MetricKind, m)) ==> Key(k.tenant, MetricKind, m) in c.Last()
  {
    hide Accepts;
    var x := Plain(Item(k.tenant, c.Last()[k]));
    assert x in c.registered && RefersOk(c.registered, x.tenant, x.descriptor);
    forall j | Accepts(j) && Exists(c.registered, j)
      ensures j in c.Last()
    {
      RepairIsComplete(c, j);
    }
  }

  class Service {
    const catalog: CatalogChain
    var published: seq<Key>

    ghost predicate Valid()
      reads this, catalog, catalog.memory, catalog.wal
    {
      catalog.Valid() && catalog.owed == {} && ReferencesHold(catalog.registered)
    }

    constructor (catalog: CatalogChain)
      requires catalog.Valid() && catalog.owed == {} && ReferencesHold(catalog.registered)
      ensures Valid() && this.catalog == catalog && published == []
    {
      this.catalog, published := catalog, [];
    }

    /** The conflict check, the write, the announcement and the answer.  An item is
        registered exactly when every layer that had its key, as the check saw them,
        failed to answer: so with reliable reads exactly when its key was not taken. */
    method Persist(x: Item, size: nat, now: Instant, stamp: string)
      returns (r: Result<Descriptor, Error>, ghost seen: seq<Layer>, ghost failed: set<nat>)
      requires Valid() && RefersOk(catalog.registered, x.tenant, x.descriptor)
      modifies `published, catalog, catalog.memory, catalog.wal
      ensures Valid() && (catalog.reliable ==> old(catalog.reliable))
      ensures catalog.registered == old(catalog.registered) || catalog.registered == old(catalog.registered) + {Plain(x)}
      ensures Accepts(KeyOf(x)) ==> Answered(old(catalog.registered), catalog.registered, catalog.reliable, x, r)
      ensures r.Err? ==> !r.error.Invalid?
      ensures |seen| == |catalog.names| >= 1 && 0 !in failed && seen[0] == old(catalog.memory.View())
      ensures Accepts(KeyOf(x)) ==> (r.Ok? <==> forall i :: 0 <= i < |seen| && KeyOf(x) in seen[i] ==> i in failed)
      ensures exists n: nat :: n <= |seen| && old(catalog.asked) + Lookups(KeyOf(x), n, failed) <= catalog.asked && (r.Ok? ==> n == |seen|)
                               && forall j :: j in failed ==> j < n
      ensures Accepts(KeyOf(x)) && MapAt(old(catalog.registered), KeyOf(x)).Some? ==>
                KeyOf(x) in seen[0] || KeyOf(x) in seen[|seen| - 1]
      ensures Accepts(KeyOf(x)) ==> published == if r.Ok? then old(published) + [KeyOf(x)] else old(published)
    {
      hide CatalogState.Inv, Accepts, KeyOf, Plain, RefersOk, ReferencesHold, ReadThrough, NoConflict, Answered, Lookups;
      TakenIsHeld(KeyOf(x));
      var existing;
      existing, seen, failed := catalog.Get(KeyOf(x), now, stamp);
      ghost var n: nat :| n <= |catalog.names| && catalog.AskedAndFilled(old(catalog.asked), old(catalog.writes), n, KeyOf(x), failed, existing);
      MissedIff(seen, failed, KeyOf(x));
      if existing.Some? {
        r := Err(Conflict);
        TakenAnswer(x, existing.value);
        return;
      }
      r := Commit(x, size, now, stamp);
    }

    lemma TakenAnswer(x: Item, d: Descriptor)
      requires Valid() && catalog.IsRegistered(KeyOf(x), d)
      ensures Answered(catalog.registered, catalog.registered, catalog.reliable, x, Err(Conflict))
    {
      hide CatalogState.Inv, Accepts, Plain, ReferencesHold;
    }

    /** The rest, once the key was not found: the write, the announcement and the answer. */
    method Commit(x: Item, size: nat, now: Instant, stamp: string) returns (r: Result<Descriptor, Error>)
      requires Valid() && RefersOk(catalog.registered, x.tenant, x.descriptor)
      requires catalog.reliable && Accepts(KeyOf(x)) ==> MapAt(catalog.registered, KeyOf(x)) == None
      modifies `published, catalog, catalog.memory, catalog.wal
      ensures Valid() && catalog.registered == old(catalog.registered) + {Plain(x)} && (catalog.reliable ==> old(catalog.reliable))
      ensures old(catalog.asked) <= catalog.asked
      ensures r.Err? ==> !r.error.Invalid?
      ensures Accepts(KeyOf(x)) ==>
                && r.Ok? && Answered(old(catalog.registered), catalog.registered, catalog.reliable, x, r)
                && published == old(published) + [KeyOf(x)] && catalog.reliable == old(catalog.reliable)
    {
      hide CatalogState.Inv, Accepts, KeyOf, Plain, RefersOk, ReferencesHold, ReadThrough, NoConflict;
      ReferencesGrow(catalog.registered, x);
      if catalog.reliable { NewIsNoConflict(catalog.registered, x); }
      var err := catalog.Register(x, size, now, stamp);
      if err {
        return Err(Backend);
      }
      published := published + [KeyOf(x)];
      var d, seen, failed := catalog.Get(KeyOf(x), now, stamp);
      if d == None {
        return Err(Backend);
      }
      return Ok(d.value);
    }

    /** A taken key is in memory or in the last layer. */
    lemma TakenIsHeld(k: Key)
      requires Valid()
      ensures |catalog.names| == |catalog.slower| + 1 && catalog.View().Shaped()
      ensures Accepts(k) && MapAt(catalog.registered, k).Some? ==> k in catalog.memory.View() || k in catalog.View().Last()
    {
      hide Accepts, Plain, PartOf, LogOk, OwedOk, ReferencesHold;
      if Accepts(k) && MapAt(catalog.registered, k).Some? {
        assert MapAt(catalog.registered, k).value in catalog.registered;
      }
    }

    /** A lookup as the checks make it. */
    method Look(k: Key, now: Instant, stamp: string) returns (found: bool)
      requires Valid()
      modifies catalog, catalog.memory, catalog.wal
      ensures Valid() && catalog.registered == old(catalog.registered) && (catalog.reliable ==> old(catalog.reliable))
      ensures found ==> Exists(catalog.registered, k)
      ensures catalog.reliable && Accepts(k) ==> (found <==> Exists(catalog.registered, k))
    {
      hide CatalogState.Inv, Accepts, KeyOf, Plain, ReferencesHold;
      var d, seen, failed := catalog.Get(k, now, stamp);
      found := d.Some?;
      if found {
        assert KeyOf(Plain(Item(k.tenant, d.value))) == k;
      }
    }

    method RegisterService(tenant: string, d: Descriptor, size: nat, now: Instant, stamp: string) returns (r: Result<Descriptor, Error>)
      requires Valid() && d.ServiceDescriptor?
      modifies `published, catalog, catalog.memory, catalog.wal
      ensures Valid() && (catalog.reliable ==> old(catalog.reliable))
      ensures var field := ValidateService(WithName(d));
              if field.Some? then r == Err(Invalid(field.value)) && catalog.registered == old(catalog.registered) && published == old(published)
              else tenant != "" ==> Answered(old(catalog.registered), catalog.registered, catalog.reliable, Item(tenant, WithName(d)), r)
    {
      hide CatalogState.Inv, Plain, ReferencesHold;
      var named := WithName(d);
      var field := ValidateService(named);
      if field.Some? {
        return Err(Invalid(field.value));
      }
      ghost var seen, failed;
      r, seen, failed := Persist(Item(tenant, named), size, now, stamp);
    }

    /** A metric is registered only under a registered service. */
    method RegisterMetric(tenant: string, d: Descriptor, size: nat, now: Instant, stamp: string) returns (r: Result<Descriptor, Error>)
      requires Valid() && d.MetricDescriptor?
      modifies `published, catalog, catalog.memory, catalog.wal
      ensures Valid() && (catalog.reliable ==> old(catalog.reliable))
      ensures r.Err? && r.error.Invalid? ==> catalog.registered == old(catalog.registered) && published == old(published)
      ensures ValidateMetric(d).Some? ==> r == Err(Invalid(ValidateMetric(d).value))
      ensures ValidateMetric(d) == None && tenant != "" ==>
                if r == Err(Invalid("service_id")) then catalog.reliable ==> !Exists(old(catalog.registered), Key(tenant, ServiceKind, d.service))
                else Answered(old(catalog.registered), catalog.registered, catalog.reliable, Item(tenant, WithName(d)), r)
                     && Exists(old(catalog.registered), Key(tenant, ServiceKind, d.service))
    {
      hide CatalogState.Inv, Plain, ReferencesHold;
      var field := ValidateMetric(d);
      if field.Some? {
        return Err(Invalid(field.value));
      }
      var found := Look(Key(tenant, ServiceKind, d.service), now, stamp);
      if !found {
        return Err(Invalid("service_id"));
      }
      var unit := if d.unit == "" then "count" else d.unit;
      var named := WithName(d);
      assert named.MetricDescriptor?;
      ghost var seen, failed;
      r, seen, failed := Persist(Item(tenant, named.(unit := unit)), size, now, stamp);
    }

    /** A plan is registered only under a registered service, with rates and quotas for
        registered metrics and no negative quota. */
    method RegisterPlan(tenant: string, d: Descriptor, size: nat, now: Instant, stamp: string) returns (r: Result<Descriptor, Error>)
      requires Valid() && d.PlanDescriptor?
      modifies `published, catalog, catalog.memory, catalog.wal
      ensures Valid() && (catalog.reliable ==> old(catalog.reliable))
      ensures r.Err? && r.error.Invalid? ==> catalog.registered == old(catalog.registered) && published == old(published)
      ensures !(r.Err? && r.error.Invalid?) ==> d.id != "" && ValidServiceId(d.service) && RefersOk(old(catalog.registered), tenant, d)
      ensures tenant != "" && r.Err? && r.error.Invalid? && catalog.reliable ==> !PlanAcceptable(old(catalog.registered), tenant, d)
      ensures tenant != "" && !(r.Err? && r.error.Invalid?) ==>
                Answered(old(catalog.registered), catalog.registered, catalog.reliable, Item(tenant, PlanWithDefaults(d)), r)
    {
      hide CatalogState.Inv, Plain, ReferencesHold, KeyOf, Exists, RefersOk, Answered;
      PlanKeyKept(tenant, d);
      if d.id == "" {
        return Err(Invalid("plan_id"));
      }
      if !ValidServiceId(d.service) {
        return Err(Invalid("service_id"));
      }
      var found := Look(Key(tenant, ServiceKind, d.service), now, stamp);
      if !found {
        return Err(Invalid("service_id"));
      }
      var ratesFound := CheckMetrics(tenant, d.rates.Keys, now, stamp);
      if !ratesFound {
        return Err(Invalid("rates"));
      }
      var quotasFine := CheckQuotas(tenant, d.quotas, now, stamp);
      if !quotasFine {
        return Err(Invalid("included_quotas"));
      }
      ghost var seen, failed;
      r, seen, failed := Persist(Item(tenant, PlanWithDefaults(d)), size, now, stamp);
    }

    /** Every rated metric must be registered. */
    method CheckMetrics(tenant: string, ids: set<string>, now: Instant, stamp: string) returns (ok: bool)
      requires Valid()
      modifies catalog, catalog.memory, catalog.wal
      ensures Valid() && catalog.registered == old(catalog.registered) && (catalog.reliable ==> old(catalog.reliable))
      ensures ok ==> forall m :: m in ids ==> Exists(catalog.registered, Key(tenant, MetricKind, m))
      ensures !ok && tenant != "" && catalog.reliable ==>
                exists m :: m in ids && !(ValidMetricId(m) && Exists(catalog.registered, Key(tenant, MetricKind, m)))
    {
      hide CatalogState.Inv, ReferencesHold, Exists;
      var rest := ids;
      while rest != {}
        invariant rest <= ids && Valid() && catalog.registered == old(catalog.registered) && (catalog.reliable ==> old(catalog.reliable))
        invariant forall m :: m in ids - rest ==> Exists(catalog.registered, Key(tenant, MetricKind, m))
        decreases rest
      {
        var m :| m in rest;
        var found := Look(Key(tenant, MetricKind, m), now, stamp);
        if !found {
          return false;
        }
        rest := rest - {m};
      }
      return true;
    }

    /** Every quota must be non-negative and for a registered metric. */
    method CheckQuotas(tenant: string, quotas: map<string, int>, now: Instant, stamp: string) returns (ok: bool)
      requires Valid()
      modifies catalog, catalog.memory, catalog.wal
      ensures Valid() && catalog.registered == old(catalog.registered) && (catalog.reliable ==> old(catalog.reliable))
      ensures ok ==> forall m :: m in quotas ==> quotas[m] >= 0 && Exists(catalog.registered, Key(tenant, MetricKind, m))
      ensures !ok && tenant != "" && catalog.reliable ==>
                exists m :: m in quotas && !(quotas[m] >= 0 && ValidMetricId(m) && Exists(catalog.registered, Key(tenant, MetricKind, m)))
    {
      hide CatalogState.Inv, ReferencesHold, Exists;
      var rest := quotas.Keys;
      while rest != {}
        invariant rest <= quotas.Keys && Valid() && catalog.registered == old(catalog.registered) && (catalog.reliable ==> old(catalog.reliable))
        invariant forall m :: m in quotas.Keys - rest ==> quotas[m] >= 0 && Exists(catalog.registered, Key(tenant, MetricKind, m))
        decreases rest
      {
        var m :| m in rest;
        if quotas[m] < 0 {
          return false;
        }
        var found := Look(Key(tenant, MetricKind, m), now, stamp);
        if !found {
          return false;
        }
        rest := rest - {m};
      }
      return true;
    }
  }

  function WithName(d: Descriptor): (n: Descriptor)
    ensures n.MetricDescriptor? == d.MetricDescriptor? && n.PlanDescriptor? == d.PlanDescriptor? && n.Kind() == d.Kind() && n.(name := d.name) == d
    ensures n.name == if d.name == "" then d.id else d.name
  {
    match d
    case ServiceDescriptor(id, name, description, createdAt) => ServiceDescriptor(id, if name == "" then id else name, description, createdAt)
    case MetricDescriptor(id, service, name, unit, description, createdAt) =>
      MetricDescriptor(id, service, if name == "" then id else name, unit, description, createdAt)
    case PlanDescriptor(id, service, name, rates, quotas, version, active, createdAt) =>
      PlanDescriptor(id, service, if name == "" then id else name, rates, quotas, version, active, createdAt)
  }

  function PlanWithDefaults(d: Descriptor): (p: Descriptor)
    requires d.PlanDescriptor?
    ensures p.PlanDescriptor? && p.version >= 1 && p.active && (d.version >= 1 ==> p.version == d.version)
    ensures p.(version := d.version, active := d.active) == WithName(d)
  {
    var n := WithName(d);
    assert n.PlanDescriptor?;
    n.(version := if d.version <= 0 then 1 else d.version, active := true)
  }

  lemma PlanKeyKept(tenant: string, d: Descriptor)
    requires d.PlanDescriptor?
    ensures KeyOf(Item(tenant, PlanWithDefaults(d))) == Key(tenant, PlanKind, d.id)
    ensures Accepts(Key(tenant, PlanKind, d.id)) <==> tenant != "" && d.id != ""
    ensures forall registered :: RefersOk(registered, tenant, PlanWithDefaults(d)) <==> RefersOk(registered, tenant, d)
    ensures forall registered ::
              RefersOk(registered, tenant, d) <==>
              && Exists(registered, Key(tenant, ServiceKind, d.service))
              && (forall m :: m in d.rates ==> Exists(registered, Key(tenant, MetricKind, m)))
              && (forall m :: m in d.quotas ==> d.quotas[m] >= 0 && Exists(registered, Key(tenant, MetricKind, m)))
  {
  }

  ghost predicate PlanAcceptable(registered: set<Item>, tenant: string, d: Descriptor)
    requires d.PlanDescriptor?
  {
    && d.id != "" && ValidServiceId(d.service) && RefersOk(registered, tenant, d)
    && (forall m :: m in d.rates ==> ValidMetricId(m))
    && (forall m :: m in d.quotas ==> ValidMetricId(m))
  }

  /** The answer to a registration: a conflict only if the key was taken, otherwise the
      item as registered; with reliable reads a taken key is always a conflict. */
  ghost predicate Answered(before: set<Item>, after: set<Item>, reliable: bool, x: Item, r: Result<Descriptor, Error>) {
    match r
    case Ok(d) => after == before + {Plain(x)} && Plain(Item(x.tenant, d)) == Plain(x) && (reliable ==> MapAt(before, KeyOf(x)) == None)
    case Err(e) => e == Conflict && after == before && MapAt(before, KeyOf(x)).Some?
  }
}
