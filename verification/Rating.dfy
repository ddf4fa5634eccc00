/**
 Invoices from usage and a price schedule (internal/modules/billing/rating.go), with
 money and quantities as exact numbers.
 */
module Rating {
  import opened Prelude

  datatype Rate = Rate(unitPrice: real, unitQuantity: int, includedQuota: int)

  datatype Schedule = Schedule(currency: string, flatFee: real, rates: map<string, Rate>)

  /** A service's usage: the cycle total of each metric. */
  datatype ServiceUsage = ServiceUsage(serviceId: string, metrics: map<string, int>)

  datatype LineItem = LineItem(
    serviceId: string,
    metricId: string,
    description: string,
    quantity: int,
    billable: int,
    unitPrice: real,
    amount: real)

  datatype Invoice = Invoice(tenantKey: string, currency: string, lines: seq<LineItem>, subtotal: real, tax: real, total: real)

  function Billable(r: Rate, quantity: int): (b: nat)
    ensures b == 0 <==> quantity <= r.includedQuota
  {
    if quantity - r.includedQuota < 0 then 0 else quantity - r.includedQuota
  }

  function Unit(r: Rate): (u: int)
    ensures u > 0
  {
    if r.unitQuantity <= 0 then 1 else r.unitQuantity
  }

  function Charge(r: Rate, quantity: int): real {
    Billable(r, quantity) as real / Unit(r) as real * r.unitPrice
  }

  /** The price is per unit quantity, and per single unit where that is not positive: what
      exceeds the quota, times the price, is the charge times that quantity. */
  lemma ChargeIsExact(r: Rate, quantity: int)
    ensures var unit := if r.unitQuantity > 0 then r.unitQuantity else 1;
            Charge(r, quantity) * unit as real
            == if quantity > r.includedQuota then (quantity - r.includedQuota) as real * r.unitPrice else 0.0
  {
    var unit := if r.unitQuantity > 0 then r.unitQuantity else 1;
    var billable := if quantity > r.includedQuota then quantity - r.includedQuota else 0;
    ScaledBack(billable as real, unit as real, r.unitPrice);
  }

  lemma ScaledBack(x: real, u: real, p: real)
    requires u > 0.0
    ensures x / u * p * u == x * p
  {
    assert x / u * u == x;
    assert x / u * p * u == x / u * u * p;
  }

  function Used(metrics: map<string, int>, m: string): int {
    if m in metrics then metrics[m] else 0
  }

  function ChargeFor(rates: map<string, Rate>, m: string, quantity: int): real {
    if m in rates then Charge(rates[m], quantity) else 0.0
  }

  /** The charges for some metrics, in whatever order they are taken. */
  ghost function Due(rates: map<string, Rate>, metrics: map<string, int>, ids: set<string>): real {
    if ids == {} then 0.0
    else
      var m :| m in ids;
      ChargeFor(rates, m, Used(metrics, m)) + Due(rates, metrics, ids - {m})
  }

  lemma {:induction false} DuePick(rates: map<string, Rate>, metrics: map<string, int>, ids: set<string>, m: string)
    requires m in ids
    ensures Due(rates, metrics, ids) == ChargeFor(rates, m, Used(metrics, m)) + Due(rates, metrics, ids - {m})
    decreases ids
  {
    var first :| first in ids && Due(rates, metrics, ids) == ChargeFor(rates, first, Used(metrics, first)) + Due(rates, metrics, ids - {first});
    if first != m {
      DuePick(rates, metrics, ids - {first}, m);
      DuePick(rates, metrics, ids - {m}, first);
      assert ids - {first} - {m} == ids - {m} - {first};
    }
  }

  /** The charges for all services. */
  ghost function DueAll(rates: map<string, Rate>, services: seq<ServiceUsage>): real {
    if services == [] then 0.0
    else
      var n := |services| - 1;
      DueAll(rates, services[..n]) + Due(rates, services[n].metrics, services[n].metrics.Keys)
  }

  function SumOf(lines: seq<LineItem>): real {
    if lines == [] then 0.0 else SumOf(lines[..|lines| - 1]) + lines[|lines| - 1].amount
  }

  lemma SumAppend(lines: seq<LineItem>, line: LineItem)
    ensures SumOf(lines + [line]) == SumOf(lines) + line.amount
  {
    assert (lines + [line])[..|lines|] == lines;
  }

  // ---- prices a schedule should have ----

  predicate Fair(rates: map<string, Rate>) {
    forall m :: m in rates ==> rates[m].unitPrice >= 0.0 && rates[m].includedQuota >= 0
  }

  lemma QuotientGrows(a: nat, b: nat, u: int, p: real)
    requires a <= b && u > 0 && p >= 0.0
    ensures 0.0 <= a as real / u as real * p <= b as real / u as real * p
  {
    var x, y := a as real / u as real, b as real / u as real;
    assert 0.0 <= x <= y;
    ProductGrows(x, y, p);
  }

  lemma ProductGrows(x: real, y: real, p: real)
    requires 0.0 <= x <= y && p >= 0.0
    ensures 0.0 <= x * p <= y * p
  {
  }

  /** A charge is never negative, falls nowhere as usage rises, and is nothing within the
      quota. */
  lemma ChargeGrows(r: Rate, less: int, more: int)
    requires less <= more && r.unitPrice >= 0.0
    ensures 0.0 <= Charge(r, less) <= Charge(r, more)
    ensures less <= r.includedQuota ==> Charge(r, less) == 0.0
  {
    QuotientGrows(Billable(r, less), Billable(r, more), Unit(r), r.unitPrice);
  }

  /** Two usages charged apart, each with the quota, cost no more than charged together. */
  lemma ChargeMerged(r: Rate, a: int, b: int)
    requires a >= 0 && b >= 0 && r.unitPrice >= 0.0 && r.includedQuota >= 0
    ensures Charge(r, a) + Charge(r, b) <= Charge(r, a + b)
  {
    var x, y, z, u := Billable(r, a), Billable(r, b), Billable(r, a + b), Unit(r);
    assert x + y <= z;
    QuotientGrows(x + y, z, u, r.unitPrice);
    QuotientAdds(x, y, u, r.unitPrice);
  }

  lemma QuotientAdds(x: nat, y: nat, u: int, p: real)
    requires u > 0
    ensures (x + y) as real / u as real * p == x as real / u as real * p + y as real / u as real * p
  {
    var v := u as real;
    assert (x + y) as real == x as real + y as real;
    assert (x as real + y as real) / v == x as real / v + y as real / v;
  }

  // ---- over all metrics ----

  /** Metrics without usage add nothing. */
  lemma {:induction false} DueOnly(rates: map<string, Rate>, metrics: map<string, int>, ids: set<string>)
    requires Fair(rates) && metrics.Keys <= ids
    ensures Due(rates, metrics, ids) == Due(rates, metrics, metrics.Keys)
    decreases ids
  {
    if ids != metrics.Keys {
      var m :| m in ids && m !in metrics;
      DuePick(rates, metrics, ids, m);
      if m in rates { ChargeGrows(rates[m], 0, 0); }
      DueOnly(rates, metrics, ids - {m});
    }
  }

  lemma {:induction false} DueGrowsOver(rates: map<string, Rate>, less: map<string, int>, more: map<string, int>, ids: set<string>)
    requires Fair(rates) && forall m :: m in ids ==> Used(less, m) <= Used(more, m)
    ensures 0.0 <= Due(rates, less, ids) <= Due(rates, more, ids)
    decreases ids
  {
    if ids != {} {
      var m :| m in ids;
      DuePick(rates, less, ids, m);
      DuePick(rates, more, ids, m);
      if m in rates { ChargeGrows(rates[m], Used(less, m), Used(more, m)); }
      DueGrowsOver(rates, less, more, ids - {m});
    }
  }

  ghost predicate UsesNoMore(a: map<string, int>, b: map<string, int>) {
    forall m :: m in a || m in b ==> Used(a, m) <= Used(b, m)
  }

  /** What is due for a service never falls when its usage rises. */
  lemma DueGrows(rates: map<string, Rate>, less: map<string, int>, more: map<string, int>)
    requires Fair(rates) && UsesNoMore(less, more)
    ensures 0.0 <= Due(rates, less, less.Keys) <= Due(rates, more, more.Keys)
  {
    var ids := less.Keys + more.Keys;
    DueGrowsOver(rates, less, more, ids);
    DueOnly(rates, less, ids);
    DueOnly(rates, more, ids);
  }

  /** The invoice never falls when usage rises. */
  lemma {:induction false} DueAllGrows(rates: map<string, Rate>, less: seq<ServiceUsage>, more: seq<ServiceUsage>)
    requires Fair(rates) && |less| == |more|
    requires forall i :: 0 <= i < |less| ==> UsesNoMore(less[i].metrics, more[i].metrics)
    ensures 0.0 <= DueAll(rates, less) <= DueAll(rates, more)
  {
    if less != [] {
      var n := |less| - 1;
      DueAllGrows(rates, less[..n], more[..n]);
      DueGrows(rates, less[n].metrics, more[n].metrics);
    }
  }

  /** Usage within the quotas costs nothing. */
  lemma {:induction false} WithinQuotaIsFree(rates: map<string, Rate>, metrics: map<string, int>, ids: set<string>)
    requires forall m :: m in ids && m in rates ==> Used(metrics, m) <= rates[m].includedQuota
    ensures Due(rates, metrics, ids) == 0.0
    decreases ids
  {
    if ids != {} {
      var m :| m in ids;
      DuePick(rates, metrics, ids, m);
      WithinQuotaIsFree(rates, metrics, ids - {m});
    }
  }

  function Merged(a: map<string, int>, b: map<string, int>): map<string, int> {
    map m | m in a.Keys + b.Keys :: Used(a, m) + Used(b, m)
  }

  function MergedAll(services: seq<ServiceUsage>): map<string, int> {
    if services == [] then map[]
    else Merged(MergedAll(services[..|services| - 1]), services[|services| - 1].metrics)
  }

  lemma {:induction false} DueMergedOver(rates: map<string, Rate>, a: map<string, int>, b: map<string, int>, ids: set<string>)
    requires Fair(rates) && ids <= a.Keys + b.Keys
    requires forall m :: m in ids ==> Used(a, m) >= 0 && Used(b, m) >= 0
    ensures Due(rates, a, ids) + Due(rates, b, ids) <= Due(rates, Merged(a, b), ids)
    decreases ids
  {
    if ids != {} {
      var m :| m in ids;
      DuePick(rates, a, ids, m);
      DuePick(rates, b, ids, m);
      DuePick(rates, Merged(a, b), ids, m);
      if m in rates { ChargeMerged(rates[m], Used(a, m), Used(b, m)); }
      DueMergedOver(rates, a, b, ids - {m});
    }
  }

  ghost predicate NonNegative(metrics: map<string, int>) {
    forall m :: m in metrics ==> metrics[m] >= 0
  }

  /** Charging services separately never costs more than charging their usage together. */
  lemma {:induction false} SeparateCostsNoMore(rates: map<string, Rate>, services: seq<ServiceUsage>)
    requires Fair(rates) && forall i :: 0 <= i < |services| ==> NonNegative(services[i].metrics)
    ensures NonNegative(MergedAll(services))
    ensures DueAll(rates, services) <= Due(rates, MergedAll(services), MergedAll(services).Keys)
  {
    if services != [] {
      var n := |services| - 1;
      SeparateCostsNoMore(rates, services[..n]);
      var a, b := MergedAll(services[..n]), services[n].metrics;
      assert NonNegative(b);
      DueMergedOver(rates, a, b, a.Keys + b.Keys);
      DueOnly(rates, a, a.Keys + b.Keys);
      DueOnly(rates, b, a.Keys + b.Keys);
      assert Merged(a, b).Keys == a.Keys + b.Keys;
    }
  }

  // ---- the calculation ----

  function BaseLine(fee: real): LineItem { LineItem("", "", "Base Subscription Fee", 0, 0, 0.0, fee) }

  function LineFor(s: ServiceUsage, m: string, r: Rate): LineItem
    requires m in s.metrics
  {
    LineItem(s.serviceId, m, s.serviceId + " - " + m, s.metrics[m], Billable(r, s.metrics[m]), r.unitPrice, Charge(r, s.metrics[m]))
  }

  /** A line states what it is for and what it costs: its amount times the unit quantity is
      its billable quantity times the price. */
  predicate States(line: LineItem, service: string, metric: string, quantity: int, r: Rate) {
    && line.serviceId == service && line.metricId == metric && line.description == service + " - " + metric
    && line.quantity == quantity && line.unitPrice == r.unitPrice
    && line.billable == (if quantity > r.includedQuota then quantity - r.includedQuota else 0)
    && line.amount * (if r.unitQuantity > 0 then r.unitQuantity else 1) as real == line.billable as real * r.unitPrice
  }

  lemma LineStates(s: ServiceUsage, m: string, r: Rate)
    requires m in s.metrics
    ensures States(LineFor(s, m, r), s.serviceId, m, s.metrics[m], r)
  {
    hide Charge;
    ChargeIsExact(r, s.metrics[m]);
  }

  predicate StatesOrigin(line: LineItem, o: Origin, services: seq<ServiceUsage>, rates: map<string, Rate>) {
    Rated(services, rates, o) && States(line, services[o.0].serviceId, o.1, services[o.0].metrics[o.1], rates[o.1])
  }

  lemma LinesState(lines: seq<LineItem>, origins: seq<Origin>, services: seq<ServiceUsage>, rates: map<string, Rate>)
    requires LinesFrom(lines, origins, services, rates)
    ensures forall i :: 0 <= i < |lines| ==> StatesOrigin(lines[i], origins[i], services, rates)
  {
    hide LineFor, States;
    forall i | 0 <= i < |lines|
      ensures StatesOrigin(lines[i], origins[i], services, rates)
    {
      LineStates(services[origins[i].0], origins[i].1, rates[origins[i].1]);
    }
  }

  /** Where a line comes from: the service's position and the metric. */
  type Origin = (nat, string)

  predicate Rated(services: seq<ServiceUsage>, rates: map<string, Rate>, o: Origin) {
    o.0 < |services| && o.1 in services[o.0].metrics && o.1 in rates
  }

  ghost predicate LinesFrom(lines: seq<LineItem>, origins: seq<Origin>, services: seq<ServiceUsage>, rates: map<string, Rate>) {
    && |lines| == |origins| && Distinct(origins)
    && forall i :: 0 <= i < |lines| ==> Rated(services, rates, origins[i])
                                        && lines[i] == LineFor(services[origins[i].0], origins[i].1, rates[origins[i].1])
  }

  /** The origins are those rated metrics that come before a point of the calculation: of
      the services before the i-th, and of the i-th those not left in `rest`. */
  ghost predicate Covers(origins: seq<Origin>, services: seq<ServiceUsage>, rates: map<string, Rate>, i: nat, rest: set<string>) {
    forall j: nat, m: string :: (j, m) in origins <==> Rated(services, rates, (j, m)) && (j < i || (j == i && m !in rest))
  }

  lemma {:induction false} SumConcat(a: seq<LineItem>, b: seq<LineItem>)
    ensures SumOf(a + b) == SumOf(a) + SumOf(b)
  {
    if b == [] {
      assert a + b == a;
    } else {
      var n := |b| - 1;
      assert (a + b)[..|a + b| - 1] == a + b[..n];
      SumConcat(a, b[..n]);
    }
  }

  /** The lines and the charges of one more service. */
  method ChargeService(i: nat, services: seq<ServiceUsage>, rates: map<string, Rate>, before: seq<LineItem>, sum: real, ghost origins0: seq<Origin>)
    returns (lines: seq<LineItem>, subtotal: real, ghost origins: seq<Origin>)
    requires i < |services| && LinesFrom(before, origins0, services, rates)
    requires Covers(origins0, services, rates, i, services[i].metrics.Keys)
    ensures LinesFrom(lines, origins, services, rates) && Covers(origins, services, rates, i, {})
    ensures subtotal == sum + Due(rates, services[i].metrics, services[i].metrics.Keys)
    ensures SumOf(lines) == SumOf(before) + Due(rates, services[i].metrics, services[i].metrics.Keys)
  {
    hide Due, Charge, Billable;
    lines, subtotal, origins := before, sum, origins0;
    var service := services[i];
    ghost var all := Due(rates, service.metrics, service.metrics.Keys);
    var rest := service.metrics.Keys;
    while rest != {}
      invariant rest <= service.metrics.Keys
      invariant LinesFrom(lines, origins, services, rates) && Covers(origins, services, rates, i, rest)
      invariant subtotal == sum + all - Due(rates, service.metrics, rest)
      invariant SumOf(lines) == SumOf(before) + all - Due(rates, service.metrics, rest)
      decreases rest
    {
      var m :| m in rest;
      DuePick(rates, service.metrics, rest, m);
      rest := rest - {m};
      if m !in rates {
        continue;
      }
      var rate := rates[m];
      var line := LineFor(service, m, rate);
      SumAppend(lines, line);
      assert (i, m) !in origins;
      lines, origins := lines + [line], origins + [(i, m)];
      subtotal := subtotal + line.amount;
    }
    NothingDue(rates, service.metrics);
  }

  lemma NothingDue(rates: map<string, Rate>, metrics: map<string, int>)
    ensures Due(rates, metrics, {}) == 0.0
  {
  }

  /** The base fee's line, if there is one, and one for each origin. */
  ghost predicate Itemized(lines: seq<LineItem>, fee: real, origins: seq<Origin>, services: seq<ServiceUsage>, rates: map<string, Rate>) {
    var n := if fee > 0.0 then 1 else 0;
    && |lines| == n + |origins| && Distinct(origins)
    && (n == 1 ==> lines[0] == LineItem("", "", "Base Subscription Fee", 0, 0, 0.0, fee))
    && forall i :: 0 <= i < |origins| ==> StatesOrigin(lines[n + i], origins[i], services, rates)
  }

  lemma LinesItemize(lines: seq<LineItem>, fee: real, origins: seq<Origin>, services: seq<ServiceUsage>, rates: map<string, Rate>)
    requires LinesFrom(lines, origins, services, rates)
    ensures Itemized((if fee > 0.0 then [BaseLine(fee)] else []) + lines, fee, origins, services, rates)
  {
    LinesState(lines, origins, services, rates);
    hide StatesOrigin, LineFor;
  }

  lemma NothingItemized(services: seq<ServiceUsage>, rates: map<string, Rate>)
    ensures LinesFrom([], [], services, rates) && SumOf([]) == 0.0 && DueAll(rates, services[..0]) == 0.0
    ensures Covers([], services, rates, 0, if 0 < |services| then services[0].metrics.Keys else {})
  {
  }

  lemma OneMoreDue(rates: map<string, Rate>, services: seq<ServiceUsage>, i: nat)
    requires i < |services|
    ensures DueAll(rates, services[..i + 1]) == DueAll(rates, services[..i]) + Due(rates, services[i].metrics, services[i].metrics.Keys)
  {
    assert services[..i + 1][..i] == services[..i];
  }

  lemma NextCovered(origins: seq<Origin>, services: seq<ServiceUsage>, rates: map<string, Rate>, i: nat)
    requires i < |services| && Covers(origins, services, rates, i, {})
    ensures Covers(origins, services, rates, i + 1, if i + 1 < |services| then services[i + 1].metrics.Keys else {})
  {
  }

  lemma AllCovered(origins: seq<Origin>, services: seq<ServiceUsage>, rates: map<string, Rate>)
    requires Covers(origins, services, rates, |services|, {})
    ensures forall j: nat, m: string :: (j, m) in origins <==> Rated(services, rates, (j, m))
  {
  }

  lemma BaseSum(fee: real)
    ensures SumOf(if fee > 0.0 then [BaseLine(fee)] else []) == if fee > 0.0 then fee else 0.0
  {
    SumAppend([], BaseLine(fee));
    assert [] + [BaseLine(fee)] == [BaseLine(fee)];
  }

  /** An invoice: after the base fee, if there is one, exactly one line for each metric of
      each service that has a rate, stating its usage and what that costs; the subtotal is
      the fee and all charges. */
  method CalculateInvoice(tenantKey: string, services: seq<ServiceUsage>, schedule: Schedule)
    returns (inv: Invoice, ghost origins: seq<Origin>)
    ensures inv.tenantKey == tenantKey && inv.currency == schedule.currency && inv.tax == 0.0
    ensures inv.subtotal == schedule.flatFee + DueAll(schedule.rates, services) && inv.total == inv.subtotal
    ensures Itemized(inv.lines, schedule.flatFee, origins, services, schedule.rates)
    ensures forall j: nat, m: string :: (j, m) in origins <==> Rated(services, schedule.rates, (j, m))
    ensures SumOf(inv.lines) == inv.subtotal <==> schedule.flatFee >= 0.0
  {
    hide LineFor, Itemized, SumOf, LinesFrom, Covers, DueAll;
    NothingItemized(services, schedule.rates);
    var subtotal := schedule.flatFee;
    var base: seq<LineItem> := [];
    if schedule.flatFee > 0.0 {
      base := [BaseLine(schedule.flatFee)];
    }
    var lines: seq<LineItem> := [];
    origins := [];
    var i := 0;
    while i < |services|
      invariant i <= |services| && LinesFrom(lines, origins, services, schedule.rates)
      invariant Covers(origins, services, schedule.rates, i, if i < |services| then services[i].metrics.Keys else {})
      invariant subtotal == schedule.flatFee + DueAll(schedule.rates, services[..i])
      invariant SumOf(lines) == DueAll(schedule.rates, services[..i])
    {
      OneMoreDue(schedule.rates, services, i);
      lines, subtotal, origins := ChargeService(i, services, schedule.rates, lines, subtotal, origins);
      NextCovered(origins, services, schedule.rates, i);
      i := i + 1;
    }
    assert services[..i] == services;
    SumConcat(base, lines);
    BaseSum(schedule.flatFee);
    LinesItemize(lines, schedule.flatFee, origins, services, schedule.rates);
    AllCovered(origins, services, schedule.rates);
    inv := Invoice(tenantKey, schedule.currency, base + lines, subtotal, 0.0, subtotal + 0.0);
  }
}
