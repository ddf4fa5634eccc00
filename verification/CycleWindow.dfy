/**
 Billing cycles of a service subscription (internal/kernel/metering.go).

 The window of an instant is computed from the anchor with calendar arithmetic in
 the subscription's zone.  Monthly windows tile time exactly when the anchor's day
 of the month is at most 28, yearly windows exactly when the anchor is not a 29
 February.
 */
module CycleWindow {
  import opened Calendar

  const YEARLY := "recurring_yearly"

  datatype Subscription = Subscription(
    subscriptionId: string,
    tenantKey: string,
    serviceId: string,
    planId: string,
    chargeType: string,
    timezone: string,
    anchor: Instant,
    status: string)

  /** time.LoadLocation, with the known zones given as fixed offsets. */
  function Offset(zones: map<string, int>, name: string): int {
    if name in zones then zones[name] else 0
  }

  function MonthlyWindow(anchor: int, at: int): (int, int) {
    var months := FromLocal(at).month - FromLocal(anchor).month;
    var first := AddDate(anchor, 0, months);
    var start := if first > at then AddDate(anchor, 0, months - 1) else first;
    (start, AddDate(start, 0, 1))
  }

  function YearlyWindow(anchor: int, at: int): (int, int) {
    var years := FromLocal(at).Year() - FromLocal(anchor).Year();
    var first := AddDate(anchor, years, 0);
    var start := if first > at then AddDate(anchor, years - 1, 0) else first;
    (start, AddDate(start, 1, 0))
  }

  /** The cycle [start, end) of an instant; before the anchor it is empty. */
  function CurrentCycleWindow(s: Subscription, zones: map<string, int>, at: Instant): (Instant, Instant) {
    if at < s.anchor then (s.anchor, s.anchor)
    else
      var offset := Offset(zones, s.timezone);
      var w := if s.chargeType == YEARLY then YearlyWindow(s.anchor + offset, at + offset)
               else MonthlyWindow(s.anchor + offset, at + offset);
      (w.0 - offset, w.1 - offset)
  }

  /** The anchor's wall-clock reading in the subscription's zone. */
  function AnchorDate(s: Subscription, zones: map<string, int>): Civil {
    FromLocal(s.anchor + Offset(zones, s.timezone))
  }

  predicate Within(w: (int, int), at: int) { w.0 <= at < w.1 }

  ghost predicate Disjoint(v: (int, int), w: (int, int)) {
    v.1 <= w.0 || w.1 <= v.0
  }

  ghost predicate Fit(s: Subscription, zones: map<string, int>, t: Instant, u: Instant) {
    var v := CurrentCycleWindow(s, zones, t);
    var w := CurrentCycleWindow(s, zones, u);
    Within(v, t) && (v == w || Disjoint(v, w)) && CurrentCycleWindow(s, zones, v.1).0 == v.1
  }

  /** From the anchor on, windows contain their instants, any two are equal or
      disjoint, and each ends where the next begins. */
  ghost predicate Tiles(s: Subscription, zones: map<string, int>) {
    forall t, u :: s.anchor <= t && s.anchor <= u ==> Fit(s, zones, t, u)
  }

  // ---- monthly cycles ----

  /** An anchor on day 29 to 31 skips the short month, so the boundary it leaves in
      the month after lies `Carry` days in. */
  predicate CarriedPast(anchor: int, at: int) {
    var a := FromLocal(anchor);
    var t := FromLocal(at);
    DaysIn(t.month - 1) < a.day && at < Civil(t.month, a.day - DaysIn(t.month - 1), a.clock).ToLocal()
  }

  lemma CivilOrder(c: Civil, d: Civil)
    requires c.Valid() && d.Valid()
    ensures c.month < d.month ==> c.ToLocal() < d.ToLocal()
    ensures c.month == d.month && c.day < d.day ==> c.ToLocal() < d.ToLocal()
    ensures c.month == d.month && c.day == d.day ==> c.ToLocal() - d.ToLocal() == c.clock - d.clock
  {
    if c.month < d.month {
      MonthsAscend(c.month + 1, d.month);
      NextMonth(c.month);
    }
  }

  /** A window contains its instant exactly when the instant is not in the first days
      of a month into which the anchor's day was carried. */
  lemma MonthlyContainment(anchor: int, at: int)
    requires anchor <= at
    ensures Within(MonthlyWindow(anchor, at), at) <==> !CarriedPast(anchor, at)
    ensures at < MonthlyWindow(anchor, at).1
  {
    hide DaysIn, MonthStart, MonthOfDay, MonthFrom, AddDate, FromLocal, IsLeap, Civil.ToLocal;
    var a, t := FromLocal(anchor), FromLocal(at);
    var months := t.month - a.month;
    CivilOrder(a, t);
    CivilOrder(t, a);
    AddDateInRange(anchor, 0, months);
    AddDateInRange(anchor, 0, months - 1);
    var first := AddDate(anchor, 0, months);
    CivilOrder(t, FromLocal(first));
    var start := MonthlyWindow(anchor, at).0;
    if first > at && DaysIn(t.month - 1) < a.day {
      var carried := Civil(t.month, a.day - DaysIn(t.month - 1), a.clock);
      assert FromLocal(start) == carried && start == carried.ToLocal();
    }
    if first <= at && DaysIn(t.month - 1) < a.day {
      var carried := Civil(t.month, a.day - DaysIn(t.month - 1), a.clock);
      CivilOrder(carried, FromLocal(first));
    }
    var s := FromLocal(start);
    CivilOrder(s, t);
    CivilOrder(t, s);
    AddDateInRange(start, 0, 1);
    CivilOrder(t, FromLocal(AddDate(start, 0, 1)));
    NextMonth(t.month - 1);
  }

  /** The k-th monthly boundary. */
  function Boundary(anchor: int, k: int): int { AddDate(anchor, 0, k) }

  lemma BoundariesAscend(anchor: int, j: int, k: int)
    requires j < k
    requires FromLocal(anchor).day <= 28
    ensures Boundary(anchor, j) < Boundary(anchor, k)
  {
    MonthsAscend(FromLocal(anchor).month + j, FromLocal(anchor).month + k);
  }

  function MonthsSince(anchor: int, at: int): int {
    var months := FromLocal(at).month - FromLocal(anchor).month;
    if AddDate(anchor, 0, months) > at then months - 1 else months
  }

  /** With an anchor day of at most 28 the window of an instant is the cycle between
      the two boundaries around it. */
  lemma MonthlyWindowIsCycle(anchor: int, at: int)
    requires anchor <= at && FromLocal(anchor).day <= 28
    ensures var k := MonthsSince(anchor, at);
            0 <= k
            && MonthlyWindow(anchor, at) == (Boundary(anchor, k), Boundary(anchor, k + 1))
            && Boundary(anchor, k) <= at < Boundary(anchor, k + 1)
  {
    hide DaysIn, MonthStart, MonthOfDay, MonthFrom, AddDate, FromLocal, IsLeap, Civil.ToLocal;
    MonthlyContainment(anchor, at);
    var k := MonthsSince(anchor, at);
    AddDateTwice(anchor, 0, k, 0, 1);
    AddNothing(anchor);
    if k + 1 < 0 {
      BoundariesAscend(anchor, k + 1, 0);
    }
  }

  /** The same, the other way: any cycle is the window of each instant in it. */
  lemma CycleIsMonthlyWindow(anchor: int, k: nat, at: int)
    requires FromLocal(anchor).day <= 28
    requires Boundary(anchor, k) <= at < Boundary(anchor, k + 1)
    ensures anchor <= at
    ensures MonthlyWindow(anchor, at) == (Boundary(anchor, k), Boundary(anchor, k + 1))
  {
    hide DaysIn, MonthStart, MonthOfDay, MonthFrom, AddDate, FromLocal, IsLeap, Civil.ToLocal;
    AddNothing(anchor);
    if k > 0 { BoundariesAscend(anchor, 0, k); }
    MonthlyWindowIsCycle(anchor, at);
    var j := MonthsSince(anchor, at);
    if j + 1 < k {
      BoundariesAscend(anchor, j + 1, k);
    } else if k + 1 < j {
      BoundariesAscend(anchor, k + 1, j);
    }
  }

  lemma MonthlyTiles(s: Subscription, zones: map<string, int>)
    requires s.chargeType != YEARLY
    requires AnchorDate(s, zones).day <= 28
    ensures Tiles(s, zones)
  {
    hide Fit, AnchorDate;
    forall t, u | s.anchor <= t && s.anchor <= u
      ensures Fit(s, zones, t, u)
    {
      MonthlyFit(s, zones, t, u);
    }
  }

  lemma MonthlyFit(s: Subscription, zones: map<string, int>, t: Instant, u: Instant)
    requires s.chargeType != YEARLY && AnchorDate(s, zones).day <= 28
    requires s.anchor <= t && s.anchor <= u
    ensures Fit(s, zones, t, u)
  {
    hide DaysIn, MonthStart, MonthOfDay, MonthFrom, AddDate, FromLocal, IsLeap, Civil.ToLocal;
    var offset := Offset(zones, s.timezone);
    var anchor := s.anchor + offset;
    MonthlyWindowIsCycle(anchor, t + offset);
    MonthlyWindowIsCycle(anchor, u + offset);
    var j, k := MonthsSince(anchor, t + offset), MonthsSince(anchor, u + offset);
    if j + 1 < k {
      BoundariesAscend(anchor, j + 1, k);
    } else if k + 1 < j {
      BoundariesAscend(anchor, k + 1, j);
    }
    BoundariesAscend(anchor, j + 1, j + 2);
    CycleIsMonthlyWindow(anchor, j + 1, Boundary(anchor, j + 1));
    assert CurrentCycleWindow(s, zones, t) == (Boundary(anchor, j) - offset, Boundary(anchor, j + 1) - offset);
  }

  /** Non-leap years recur, so every anchor meets a February of 28 days. */
  function PlainYearAfter(year: int): (y: int)
    ensures year < y && !IsLeap(y)
  {
    if IsLeap(year + 1) then year + 2 else year + 1
  }

  lemma FebruaryAndMarch(year: int)
    ensures DaysIn(12 * year + 1) == (if IsLeap(year) then 29 else 28) && DaysIn(12 * year + 2) == 31
  {
    assert (12 * year + 1) / 12 == year && (12 * year + 1) % 12 == 1 && (12 * year + 2) % 12 == 2;
  }

  /** An anchor on day 29 to 31 leaves two overlapping windows in March of every
      non-leap year. */
  lemma LateAnchorOverlaps(anchor: int) returns (t: int, u: int)
    requires 28 < FromLocal(anchor).day
    ensures anchor <= t && anchor <= u
    ensures MonthlyWindow(anchor, t) != MonthlyWindow(anchor, u)
    ensures Within(MonthlyWindow(anchor, t), u) && Within(MonthlyWindow(anchor, u), u)
  {
    hide DaysIn, MonthStart, MonthOfDay, MonthFrom, AddDate, FromLocal, IsLeap, Civil.ToLocal;
    var a := FromLocal(anchor);
    var feb := 12 * PlainYearAfter(a.Year()) + 1;
    FebruaryAndMarch(feb / 12);
    var early := Civil(feb + 1, a.day - 28, a.clock);
    var late := Civil(feb + 1, a.day, a.clock);
    t, u := early.ToLocal(), late.ToLocal();
    FromLocalInverse(early);
    FromLocalInverse(late);
    CivilOrder(a, early);
    CivilOrder(early, late);
    NextMonth(feb);
    AddDateInRange(anchor, 0, feb + 1 - a.month);
    AddDateInRange(anchor, 0, feb - a.month);
    AddDateInRange(t, 0, 1);
    AddDateInRange(u, 0, 1);
    CivilOrder(late, FromLocal(AddDate(t, 0, 1)));
    CivilOrder(late, FromLocal(AddDate(u, 0, 1)));
  }

  /** Monthly and metered cycles tile time exactly for anchor days up to 28. */
  lemma MonthlyTilesIff(s: Subscription, zones: map<string, int>)
    requires s.chargeType != YEARLY
    ensures Tiles(s, zones) <==> AnchorDate(s, zones).day <= 28
  {
    hide DaysIn, MonthStart, MonthOfDay, MonthFrom, AddDate, FromLocal, IsLeap, Civil.ToLocal;
    if AnchorDate(s, zones).day <= 28 {
      MonthlyTiles(s, zones);
    } else {
      var offset := Offset(zones, s.timezone);
      var t, u := LateAnchorOverlaps(s.anchor + offset);
      assert !Fit(s, zones, t - offset, u - offset);
    }
  }

  // ---- yearly cycles ----

  predicate LeapDay(c: Civil) { c.month % 12 == 1 && c.day == 29 }

  /** Month lengths repeat every year, except February's. */
  lemma SameMonth(m: int, years: int)
    ensures (m + 12 * years) % 12 == m % 12 && (m + 12 * years) / 12 == m / 12 + years
    ensures m % 12 != 1 ==> DaysIn(m + 12 * years) == DaysIn(m)
  {
  }

  /** What adding years does to an anchor: only 29 February ever moves. */
  lemma AnniversaryDate(anchor: int, years: int)
    ensures var a := FromLocal(anchor);
            var m := a.month + 12 * years;
            FromLocal(AddDate(anchor, years, 0)) ==
              if LeapDay(a) && DaysIn(m) == 28 then Civil(m + 1, 1, a.clock) else Civil(m, a.day, a.clock)
  {
    var a := FromLocal(anchor);
    AddDateInRange(anchor, years, 0);
    SameMonth(a.month, years);
  }

  function YearsSince(anchor: int, at: int): int {
    var years := FromLocal(at).Year() - FromLocal(anchor).Year();
    if AddDate(anchor, years, 0) > at then years - 1 else years
  }

  /** The anniversary of a given number of years lies in its own calendar year. */
  lemma AnniversaryYear(anchor: int, years: int)
    ensures FromLocal(AddDate(anchor, years, 0)).Year() == FromLocal(anchor).Year() + years
  {
    AnniversaryDate(anchor, years);
    SameMonth(FromLocal(anchor).month, years);
  }

  lemma YearOrder(c: Civil, d: Civil)
    requires c.Valid() && d.Valid() && c.Year() < d.Year()
    ensures c.ToLocal() < d.ToLocal()
  {
    CivilOrder(c, d);
  }

  /** Every instant from the anchor on lies in its yearly window, 29 February included. */
  lemma YearlyContainment(anchor: int, at: int)
    requires anchor <= at
    ensures Within(YearlyWindow(anchor, at), at)
    ensures 0 <= YearsSince(anchor, at)
  {
    hide DaysIn, MonthStart, MonthOfDay, MonthFrom, AddDate, FromLocal, IsLeap, Civil.ToLocal;
    var a, t := FromLocal(anchor), FromLocal(at);
    var years := t.Year() - a.Year();
    var k := YearsSince(anchor, at);
    AnniversaryYear(anchor, years);
    AnniversaryYear(anchor, years - 1);
    var start := AddDate(anchor, k, 0);
    AnniversaryYear(start, 1);
    if k != years {
      YearOrder(FromLocal(start), t);
      AnniversaryDate(anchor, years - 1);
      AnniversaryDate(anchor, years);
      AnniversaryDate(start, 1);
      var end, first := FromLocal(AddDate(start, 1, 0)), FromLocal(AddDate(anchor, years, 0));
      CivilOrder(first, end);
    } else {
      YearOrder(t, FromLocal(AddDate(start, 1, 0)));
    }
    if k < 0 {
      AddNothing(anchor);
      if years < 0 { YearOrder(t, a); }
      assert false;
    }
  }

  lemma AnniversariesAscend(anchor: int, j: int, k: int)
    requires j < k
    ensures AddDate(anchor, j, 0) < AddDate(anchor, k, 0)
  {
    AnniversaryYear(anchor, j);
    AnniversaryYear(anchor, k);
    YearOrder(FromLocal(AddDate(anchor, j, 0)), FromLocal(AddDate(anchor, k, 0)));
  }

  lemma YearlyWindowIsCycle(anchor: int, at: int)
    requires anchor <= at && !LeapDay(FromLocal(anchor))
    ensures var k := YearsSince(anchor, at);
            YearlyWindow(anchor, at) == (AddDate(anchor, k, 0), AddDate(anchor, k + 1, 0))
  {
    var k := YearsSince(anchor, at);
    AnniversaryDate(anchor, k);
    AnniversaryDate(anchor, k + 1);
  }

  lemma YearlyTiles(s: Subscription, zones: map<string, int>)
    requires s.chargeType == YEARLY && !LeapDay(AnchorDate(s, zones))
    ensures Tiles(s, zones)
  {
    hide Fit, AnchorDate;
    forall t, u | s.anchor <= t && s.anchor <= u
      ensures Fit(s, zones, t, u)
    {
      YearlyFit(s, zones, t, u);
    }
  }

  lemma YearlyFit(s: Subscription, zones: map<string, int>, t: Instant, u: Instant)
    requires s.chargeType == YEARLY && !LeapDay(AnchorDate(s, zones))
    requires s.anchor <= t && s.anchor <= u
    ensures Fit(s, zones, t, u)
  {
    hide DaysIn, MonthStart, MonthOfDay, MonthFrom, AddDate, FromLocal, IsLeap, Civil.ToLocal;
    var offset := Offset(zones, s.timezone);
    var anchor := s.anchor + offset;
    YearlyContainment(anchor, t + offset);
    YearlyContainment(anchor, u + offset);
    YearlyWindowIsCycle(anchor, t + offset);
    YearlyWindowIsCycle(anchor, u + offset);
    var j, k := YearsSince(anchor, t + offset), YearsSince(anchor, u + offset);
    if j + 1 < k {
      AnniversariesAscend(anchor, j + 1, k);
    } else if k + 1 < j {
      AnniversariesAscend(anchor, k + 1, j);
    }
    var end := AddDate(anchor, j + 1, 0);
    AnniversaryYear(anchor, j + 1);
    YearlyWindowIsCycle(anchor, end);
  }

  lemma NotBothLeap(year: int)
    requires IsLeap(year)
    ensures !IsLeap(year - 1)
  {
  }

  /** A 29 February anchor leaves two overlapping windows in the next leap year. */
  lemma LeapDayOverlaps(anchor: int, leap: int) returns (t: int, u: int)
    requires LeapDay(FromLocal(anchor))
    requires FromLocal(anchor).Year() < leap - 1 && IsLeap(leap)
    ensures anchor <= t && anchor <= u
    ensures YearlyWindow(anchor, t) != YearlyWindow(anchor, u)
    ensures Within(YearlyWindow(anchor, t), u) && Within(YearlyWindow(anchor, u), u)
  {
    hide DaysIn, MonthStart, MonthOfDay, MonthFrom, AddDate, FromLocal, IsLeap, Civil.ToLocal;
    var a := FromLocal(anchor);
    var years := leap - a.Year();
    SameMonth(a.month, years);
    SameMonth(a.month, years - 1);
    NotBothLeap(leap);
    FebruaryAndMarch(leap);
    FebruaryAndMarch(leap - 1);
    assert a.month + 12 * years == 12 * leap + 1;
    AnniversaryDate(anchor, years);
    AnniversaryDate(anchor, years - 1);
    t, u := AddDate(anchor, years - 1, 0), AddDate(anchor, years, 0);
    YearOrder(a, FromLocal(t));
    YearOrder(FromLocal(t), FromLocal(u));
    AnniversaryYear(anchor, years);
    AnniversaryYear(anchor, years - 1);
    AnniversaryDate(t, 1);
    AnniversaryYear(u, 1);
    CivilOrder(FromLocal(u), FromLocal(AddDate(t, 1, 0)));
    YearOrder(FromLocal(u), FromLocal(AddDate(u, 1, 0)));
  }

  function LeapYearAfter(year: int): (y: int)
    ensures year + 1 < y && IsLeap(y)
  {
    400 * (year / 400) + 800
  }

  /** Yearly cycles tile time exactly for anchors other than 29 February. */
  lemma YearlyTilesIff(s: Subscription, zones: map<string, int>)
    requires s.chargeType == YEARLY
    ensures Tiles(s, zones) <==> !LeapDay(AnchorDate(s, zones))
  {
    hide DaysIn, MonthStart, MonthOfDay, MonthFrom, AddDate, FromLocal, IsLeap, Civil.ToLocal;
    if !LeapDay(AnchorDate(s, zones)) {
      YearlyTiles(s, zones);
    } else {
      var offset := Offset(zones, s.timezone);
      var anchor := s.anchor + offset;
      var t, u := LeapDayOverlaps(anchor, LeapYearAfter(FromLocal(anchor).Year()));
      assert !Fit(s, zones, t - offset, u - offset);
    }
  }

  // ---- both kinds of cycle ----

  /** When the code's window contains the instant it was asked about. */
  lemma WindowContains(s: Subscription, zones: map<string, int>, at: Instant)
    requires s.anchor <= at
    ensures var offset := Offset(zones, s.timezone);
            Within(CurrentCycleWindow(s, zones, at), at) <==>
              s.chargeType == YEARLY || !CarriedPast(s.anchor + offset, at + offset)
  {
    hide DaysIn, MonthStart, MonthOfDay, MonthFrom, AddDate, FromLocal, IsLeap, Civil.ToLocal;
    var offset := Offset(zones, s.timezone);
    if s.chargeType == YEARLY {
      YearlyContainment(s.anchor + offset, at + offset);
    } else {
      MonthlyContainment(s.anchor + offset, at + offset);
    }
  }

  // ---- the zone ----

  /** A window in a zone is the window that the wall clock there would have in UTC, for
      every anchor and charge; a zone that is not known counts as UTC. */
  lemma ZonedWindow(s: Subscription, zones: map<string, int>, offset: int, at: Instant)
    requires offset == if s.timezone in zones then zones[s.timezone] else 0
    ensures var w := CurrentCycleWindow(s, zones, at);
            (w.0 + offset, w.1 + offset) == CurrentCycleWindow(s.(anchor := s.anchor + offset), map[], at + offset)
  {
    hide MonthlyWindow, YearlyWindow;
  }

  /** Read in its zone, a monthly window begins and ends on the anchor's day and time of day
      in successive months, with the instant between. */
  lemma ZonedMonthly(s: Subscription, zones: map<string, int>, offset: int, at: Instant)
    requires offset == (if s.timezone in zones then zones[s.timezone] else 0) && s.chargeType != "recurring_yearly" && s.anchor <= at
    requires FromLocal(s.anchor + offset).day <= 28
    ensures var w := CurrentCycleWindow(s, zones, at);
            var a, first, last := FromLocal(s.anchor + offset), FromLocal(w.0 + offset), FromLocal(w.1 + offset);
            && first.day == last.day == a.day && first.clock == last.clock == a.clock
            && a.month <= first.month && last.month == first.month + 1
            && w.0 <= at < w.1
  {
    hide DaysIn, MonthStart, MonthOfDay, MonthFrom, AddDate, FromLocal, IsLeap, Civil.ToLocal, MonthlyWindow;
    var anchor := s.anchor + offset;
    MonthlyWindowIsCycle(anchor, at + offset);
    var k := MonthsSince(anchor, at + offset);
    AddDateInRange(anchor, 0, k);
    AddDateInRange(anchor, 0, k + 1);
  }

  /** A yearly one on the anchor's date and time of day in successive years. */
  lemma ZonedYearly(s: Subscription, zones: map<string, int>, offset: int, at: Instant)
    requires offset == (if s.timezone in zones then zones[s.timezone] else 0) && s.chargeType == "recurring_yearly" && s.anchor <= at
    requires !LeapDay(FromLocal(s.anchor + offset))
    ensures var w := CurrentCycleWindow(s, zones, at);
            var a, first, last := FromLocal(s.anchor + offset), FromLocal(w.0 + offset), FromLocal(w.1 + offset);
            && first.day == last.day == a.day && first.clock == last.clock == a.clock
            && a.month <= first.month && first.month % 12 == a.month % 12 && last.month == first.month + 12
            && w.0 <= at < w.1
  {
    hide DaysIn, MonthStart, MonthOfDay, MonthFrom, AddDate, FromLocal, IsLeap, Civil.ToLocal, YearlyWindow;
    var anchor := s.anchor + offset;
    YearlyWindowIsCycle(anchor, at + offset);
    YearlyContainment(anchor, at + offset);
    var k := YearsSince(anchor, at + offset);
    AnniversaryDate(anchor, k);
    AnniversaryDate(anchor, k + 1);
    SameMonth(FromLocal(anchor).month, k);
  }

  /** Before the anchor there is no cycle yet. */
  lemma NothingBeforeTheAnchor(s: Subscription, zones: map<string, int>, at: Instant)
    requires at < s.anchor
    ensures CurrentCycleWindow(s, zones, at) == (s.anchor, s.anchor)
  {
  }

  /** An instant the code places outside its own cycle: midnight of 2 March 2025
      under a monthly anchor of 31 January 2025. */
  lemma MonthEndAnchorMissesItsCycle(s: Subscription)
    requires s.chargeType == "metered" && s.anchor == Civil(12 * 2025, 31, 0).ToLocal()
    ensures !Within(CurrentCycleWindow(s, map[], Civil(12 * 2025 + 2, 2, 0).ToLocal()), Civil(12 * 2025 + 2, 2, 0).ToLocal())
  {
    hide MonthStart, MonthOfDay, MonthFrom, AddDate, FromLocal;
    FebruaryAndMarch(2025);
    var january, march := Civil(12 * 2025, 31, 0), Civil(12 * 2025 + 2, 2, 0);
    CivilOrder(january, march);
    FromLocalInverse(january);
    FromLocalInverse(march);
    CivilOrder(march, Civil(12 * 2025 + 2, 3, 0));
    WindowContains(s, map[], march.ToLocal());
  }

  /** The anchors whose cycles tile time. */
  predicate Regular(s: Subscription, zones: map<string, int>) {
    if s.chargeType == YEARLY then !LeapDay(AnchorDate(s, zones)) else AnchorDate(s, zones).day <= 28
  }

  /** The start of the k-th cycle after the anchor. */
  function CycleStart(s: Subscription, zones: map<string, int>, k: int): Instant {
    var offset := Offset(zones, s.timezone);
    (if s.chargeType == YEARLY then AddDate(s.anchor + offset, k, 0) else Boundary(s.anchor + offset, k)) - offset
  }

  lemma CycleStartsAscend(s: Subscription, zones: map<string, int>, j: int, k: int)
    requires Regular(s, zones) && j < k
    ensures CycleStart(s, zones, j) < CycleStart(s, zones, k)
  {
    hide DaysIn, MonthStart, MonthOfDay, MonthFrom, AddDate, FromLocal, IsLeap, Civil.ToLocal;
    var anchor := s.anchor + Offset(zones, s.timezone);
    if s.chargeType == YEARLY {
      AnniversariesAscend(anchor, j, k);
    } else {
      BoundariesAscend(anchor, j, k);
    }
  }

  /** Which cycle an instant falls in. */
  function CycleIndex(s: Subscription, zones: map<string, int>, at: Instant): int {
    var offset := Offset(zones, s.timezone);
    if s.chargeType == YEARLY then YearsSince(s.anchor + offset, at + offset)
    else MonthsSince(s.anchor + offset, at + offset)
  }

  /** The window of an instant is the numbered cycle around it. */
  lemma WindowIsCycle(s: Subscription, zones: map<string, int>, at: Instant)
    requires Regular(s, zones) && s.anchor <= at
    ensures var k := CycleIndex(s, zones, at);
            var w := (CycleStart(s, zones, k), CycleStart(s, zones, k + 1));
            0 <= k && CurrentCycleWindow(s, zones, at) == w && Within(w, at)
  {
    hide DaysIn, MonthStart, MonthOfDay, MonthFrom, AddDate, FromLocal, IsLeap, Civil.ToLocal;
    var offset := Offset(zones, s.timezone);
    if s.chargeType == YEARLY {
      YearlyWindowIsCycle(s.anchor + offset, at + offset);
      YearlyContainment(s.anchor + offset, at + offset);
    } else {
      MonthlyWindowIsCycle(s.anchor + offset, at + offset);
    }
  }

  /** Asking at the start of the k-th cycle gives the k-th cycle. */
  lemma CycleAtItsStart(s: Subscription, zones: map<string, int>, k: nat)
    requires Regular(s, zones)
    ensures CycleStart(s, zones, 0) == s.anchor
    ensures s.anchor <= CycleStart(s, zones, k)
    ensures CurrentCycleWindow(s, zones, CycleStart(s, zones, k)) ==
            (CycleStart(s, zones, k), CycleStart(s, zones, k + 1))
  {
    hide DaysIn, MonthStart, MonthOfDay, MonthFrom, AddDate, FromLocal, IsLeap, Civil.ToLocal, CycleIndex, CurrentCycleWindow;
    AddNothing(s.anchor + Offset(zones, s.timezone));
    if k > 0 {
      CycleStartsAscend(s, zones, 0, k);
    }
    var at := CycleStart(s, zones, k);
    WindowIsCycle(s, zones, at);
    var j := CycleIndex(s, zones, at);
    if j < k && j + 1 < k {
      CycleStartsAscend(s, zones, j + 1, k);
    } else if k < j {
      CycleStartsAscend(s, zones, k, j);
    }
  }

  /** No instant lies in two different windows. */
  ghost predicate NeverInTwo(s: Subscription, zones: map<string, int>) {
    forall t, u, x {:trigger Within(CurrentCycleWindow(s, zones, t), x), Within(CurrentCycleWindow(s, zones, u), x)} ::
      s.anchor <= t && s.anchor <= u
      && Within(CurrentCycleWindow(s, zones, t), x) && Within(CurrentCycleWindow(s, zones, u), x)
      ==> CurrentCycleWindow(s, zones, t) == CurrentCycleWindow(s, zones, u)
  }

  /** Usage can be billed under two different cycles exactly when the anchor is a month
      end (or a 29 February on a yearly charge). */
  lemma NeverInTwoIff(s: Subscription, zones: map<string, int>)
    ensures NeverInTwo(s, zones) <==> Regular(s, zones)
  {
    hide DaysIn, MonthStart, MonthOfDay, MonthFrom, AddDate, FromLocal, IsLeap, Civil.ToLocal;
    var offset := Offset(zones, s.timezone);
    if Regular(s, zones) {
      if s.chargeType == YEARLY { YearlyTiles(s, zones); } else { MonthlyTiles(s, zones); }
      forall t, u, x | s.anchor <= t && s.anchor <= u
                       && Within(CurrentCycleWindow(s, zones, t), x) && Within(CurrentCycleWindow(s, zones, u), x)
        ensures CurrentCycleWindow(s, zones, t) == CurrentCycleWindow(s, zones, u)
      {
        assert Fit(s, zones, t, u);
      }
    } else {
      var t, u;
      if s.chargeType == YEARLY {
        t, u := LeapDayOverlaps(s.anchor + offset, LeapYearAfter(AnchorDate(s, zones).Year()));
      } else {
        t, u := LateAnchorOverlaps(s.anchor + offset);
      }
      assert Within(CurrentCycleWindow(s, zones, t - offset), u - offset);
      assert Within(CurrentCycleWindow(s, zones, u - offset), u - offset);
    }
  }
}
