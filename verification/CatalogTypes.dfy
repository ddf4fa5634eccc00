/**
 Catalog descriptors, their keys and their validation (internal/kernel/types.go).

 A tenant's catalog holds services, metrics and plans; the three kinds share one
 descriptor type here because the chain treats them alike.
 */
module CatalogTypes {
  import opened Prelude
  import opened Text

  datatype Kind = ServiceKind | MetricKind | PlanKind

  datatype Key = Key(tenant: string, kind: Kind, id: string)

  datatype Descriptor =
    | ServiceDescriptor(id: string, name: string, description: string, createdAt: string)
    | MetricDescriptor(id: string, service: string, name: string, unit: string, description: string, createdAt: string)
    | PlanDescriptor(id: string, service: string, name: string, rates: map<string, real>, quotas: map<string, int>,
           version: int, active: bool, createdAt: string)
  {
    function Kind(): Kind {
      match this
      case ServiceDescriptor(_, _, _, _) => ServiceKind
      case MetricDescriptor(_, _, _, _, _, _) => MetricKind
      case PlanDescriptor(_, _, _, _, _, _, _, _) => PlanKind
    }
  }

  datatype Item = Item(tenant: string, descriptor: Descriptor)

  function KeyOf(x: Item): (k: Key)
    ensures k.tenant == x.tenant
  {
    Key(x.tenant, x.descriptor.Kind(), x.descriptor.id)
  }

  /** A descriptor up to its creation time; backends stamp that themselves, and count a
      plan without a version as version 1. */
  function PlainDescriptor(d: Descriptor): Descriptor {
    match d
    case ServiceDescriptor(id, name, description, _) => ServiceDescriptor(id, name, description, "")
    case MetricDescriptor(id, service, name, unit, description, _) => MetricDescriptor(id, service, name, unit, description, "")
    case PlanDescriptor(id, service, name, rates, quotas, version, active, _) =>
      PlanDescriptor(id, service, name, rates, quotas, if version <= 0 then 1 else version, active, "")
  }

  function Plain(x: Item): (p: Item)
    ensures KeyOf(p) == KeyOf(x)
  {
    x.(descriptor := PlainDescriptor(x.descriptor))
  }

  // ---- validation ----

  predicate AlphaNum(c: char) { 'a' <= c <= 'z' || '0' <= c <= '9' }

  predicate ValidServiceId(s: string) {
    && 0 < |s| <= 64
    && AlphaNum(s[0]) && AlphaNum(s[|s| - 1])
    && forall i :: 0 <= i < |s| ==> AlphaNum(s[i]) || s[i] == '_' || s[i] == '-'
  }

  /** The pattern of service ids: one letter or digit, or two of them with up to 62 letters,
      digits, hyphens and underscores between. */
  predicate Matches(s: string, a: char, mid: string, b: char) {
    && (s == [a] || (s == [a] + mid + [b] && |mid| <= 62))
    && ('a' <= a <= 'z' || '0' <= a <= '9') && ('a' <= b <= 'z' || '0' <= b <= '9')
    && forall i :: 0 <= i < |mid| ==> 'a' <= mid[i] <= 'z' || '0' <= mid[i] <= '9' || mid[i] == '_' || mid[i] == '-'
  }

  lemma ServiceIdPattern(s: string)
    ensures ValidServiceId(s) <==> exists a, mid, b :: Matches(s, a, mid, b)
  {
    if ValidServiceId(s) {
      if |s| == 1 {
        assert Matches(s, s[0], "", s[0]);
      } else {
        var mid := s[1..|s| - 1];
        assert s == [s[0]] + mid + [s[|s| - 1]];
        assert Matches(s, s[0], mid, s[|s| - 1]);
      }
    }
  }

  predicate ValidMetricId(s: string) { 0 < |s| <= 64 }

  /** What the memory layer takes: a tenant and an id of the right shape. */
  predicate Accepts(k: Key) {
    && k.tenant != ""
    && match k.kind
       case ServiceKind => ValidServiceId(k.id)
       case MetricKind => ValidMetricId(k.id)
       case PlanKind => k.id != ""
  }

  /** The field a service descriptor is rejected for, if any. */
  function ValidateService(d: Descriptor): Option<string>
    requires d.ServiceDescriptor?
  {
    var name := Trim(d.name);
    if !ValidServiceId(d.id) then Some("service_id")
    else if name == "" || |name| > 128 then Some("name")
    else if |d.description| > 512 then Some("description")
    else None
  }

  /** A service is accepted exactly with an id of that pattern, a name of up to 128
      characters that is not blank, and a description of up to 512. */
  lemma ServiceIsFine(d: Descriptor)
    requires d.ServiceDescriptor?
    ensures ValidateService(d) == None <==> ValidServiceId(d.id) && 1 <= |Trim(d.name)| <= 128 && |d.description| <= 512
    ensures ValidateService(d) == Some("service_id") <==> !ValidServiceId(d.id)
    ensures ValidateService(d) == Some("name") <==> ValidServiceId(d.id) && (Trim(d.name) == "" || |Trim(d.name)| > 128)
  {
    hide Trim, ValidServiceId;
  }

  function ValidateMetric(d: Descriptor): Option<string>
    requires d.MetricDescriptor?
  {
    if !ValidMetricId(d.id) then Some("metric_id")
    else if !ValidServiceId(d.service) then Some("service_id")
    else if |Trim(d.name)| > 128 then Some("name")
    else if |d.description| > 512 then Some("description")
    else if Trim(d.unit) == "" then Some("unit")
    else None
  }
  /** A metric is accepted exactly with an id of up to 64 characters, a service id, a name of
      up to 128 characters, a description of up to 512 and a unit that is not blank. */
  lemma MetricIsFine(d: Descriptor)
    requires d.MetricDescriptor?
    ensures ValidateMetric(d) == None <==>
            1 <= |d.id| <= 64 && ValidServiceId(d.service) && |Trim(d.name)| <= 128 && |d.description| <= 512 && Trim(d.unit) != ""
    ensures ValidateMetric(d) == Some("metric_id") <==> d.id == "" || |d.id| > 64
    ensures ValidateMetric(d) == Some("service_id") <==> 1 <= |d.id| <= 64 && !ValidServiceId(d.service)
  {
    hide Trim, ValidServiceId;
  }

  /** Two descriptors count as the same exactly if they agree on everything but the time of
      creation and on whether a version is missing or 1. */
  lemma PlainSameIff(d: Descriptor, e: Descriptor)
    ensures PlainDescriptor(d) == PlainDescriptor(e) <==>
            match d
            case ServiceDescriptor(_, _, _, _) => d == e.(createdAt := d.createdAt)
            case MetricDescriptor(_, _, _, _, _, _) => d == e.(createdAt := d.createdAt)
            case PlanDescriptor(_, _, _, _, _, v, _, _) =>
              e.PlanDescriptor? && d == e.(createdAt := d.createdAt, version := v) && (v == e.version || (v <= 1 && e.version <= 1))
  {
  }
}
