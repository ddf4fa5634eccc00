/**
 Subscription contracts, their lifecycle and entitlement checks
 (internal/modules/subscription/service.go).

 A contract's state is a string, as in the code; four strings are recognized.  When a
 store is attached every write of a contract is mirrored there, and a contract missing
 from the manager is reloaded from the mirror.
 */
module Subscription {
  import opened Prelude
  import opened Calendar
  import opened CycleWindow
  import opened MeteringMemory
  import opened Text

  const TRIAL := "trial"
  const ACTIVE := "active"
  const PAST_DUE := "past_due"
  const CANCELLED := "cancelled"

  const COMPLETION := "ai-completion"

  predicate IsValid(state: string) { state in {TRIAL, ACTIVE, PAST_DUE, CANCELLED} }

  predicate IsUsable(state: string) { state == ACTIVE || state == TRIAL }

  /** Recognizes a state whatever its case and the white space around it. */
  function ParseState(s: string): (r: Option<string>)
    ensures r == None <==> !IsValid(Lower(Trim(s)))
    ensures r.Some? ==> IsValid(r.value)
  {
    var state := Lower(Trim(s));
    if IsValid(state) then Some(state) else None
  }

  lemma ParsesItsOwnStates(state: string)
    ensures IsValid(state) <==> ParseState(state) == Some(state)
  {
    if IsValid(state) {
      assert TrimLeft(state) == state;
      assert TrimRight(state) == state;
      assert Lower(state) == state;
    }
  }

  /** Padding and case make no difference. */
  lemma ParseIgnoresPaddingAndCase(left: string, s: string, right: string)
    requires forall i :: 0 <= i < |left| ==> IsSpace(left[i])
    requires forall i :: 0 <= i < |right| ==> IsSpace(right[i])
    ensures ParseState(left + s + right) == ParseState(s)
    ensures ParseState(Lower(s)) == ParseState(s) == ParseState(Upper(s))
  {
    TrimPadded(left, s, right);
    TrimLower(s);
    LowerTwice(Trim(s));
    TrimLower(Upper(s));
    LowerUpper(s);
  }

  datatype Entitlement = Entitlement(metricId: string, allowed: bool, quota: int)

  datatype Plan = Plan(id: string, name: string, entitlements: map<string, Entitlement>)

  datatype Contract = Contract(
    subscriptionId: string,
    tenantKey: string,
    planId: string,
    state: string,
    anchor: Instant,
    timezone: string)

  // ---- the lifecycle ----

  /** The next state, or None where the event does not apply. */
  function Transition(current: string, rawEvent: string): Option<string> {
    var event := Lower(Trim(rawEvent));
    if current == TRIAL then
      if event == "activate" || event == "payment_succeeded" then Some(ACTIVE)
      else if event == "cancel" then Some(CANCELLED)
      else if event == "payment_failed" || event == "trial_expired" then Some(PAST_DUE)
      else None
    else if current == ACTIVE then
      if event == "payment_failed" then Some(PAST_DUE)
      else if event == "cancel" then Some(CANCELLED)
      else None
    else if current == PAST_DUE then
      if event == "payment_succeeded" || event == "activate" then Some(ACTIVE)
      else if event == "cancel" then Some(CANCELLED)
      else None
    else if current == CANCELLED then
      if event == "reactivate" || event == "activate" then Some(ACTIVE)
      else None
    else None
  }

  /** What a tenant's state may become: never trial again, and from cancelled only
      active. */
  predicate Follows(before: string, after: string) {
    && (IsValid(before) ==> IsValid(after))
    && (after == TRIAL ==> before == TRIAL)
    && (before == CANCELLED ==> after == CANCELLED || after == ACTIVE)
  }

  lemma TransitionFollows(current: string, event: string)
    requires Transition(current, event).Some?
    ensures IsValid(current) && Follows(current, Transition(current, event).value)
    ensures Transition(current, event).value != current && Transition(current, event).value != TRIAL
  {
  }

  /** Where events lead: to active from a trial, an unpaid or a cancelled contract, to past
      due from a trial or an active one, to cancelled from any but a cancelled one. */
  lemma TransitionMeaning(current: string, event: string)
    ensures var e, next := Lower(Trim(event)), Transition(current, event);
            && (next == Some("active") <==>
                  || (e == "activate" && current in {"trial", "past_due", "cancelled"})
                  || (e == "payment_succeeded" && current in {"trial", "past_due"})
                  || (e == "reactivate" && current == "cancelled"))
            && (next == Some("past_due") <==> (e == "payment_failed" && current in {"trial", "active"}) || (e == "trial_expired" && current == "trial"))
            && (next == Some("cancelled") <==> e == "cancel" && current in {"trial", "active", "past_due"})
            && (next.Some? ==> next.value in {"active", "past_due", "cancelled"})
  {
    hide Lower, Trim;
  }

  // ---- mirroring ----

  function ToKernelStatus(state: string): string {
    if state == ACTIVE || state == TRIAL then "active"
    else if state == PAST_DUE then "past_due"
    else if state == CANCELLED then "cancelled"
    else "active"
  }

  function FromKernelStatus(status: string): string {
    if status == "active" then ACTIVE
    else if status == "past_due" then PAST_DUE
    else if status == "cancelled" then CANCELLED
    else TRIAL
  }

  function Mirror(c: Contract): CycleWindow.Subscription {
    CycleWindow.Subscription(Trim(c.subscriptionId), Trim(c.tenantKey), COMPLETION, c.planId, "metered",
                             c.timezone, c.anchor, ToKernelStatus(c.state))
  }

  function Reloaded(s: CycleWindow.Subscription): Contract {
    Contract(s.subscriptionId, s.tenantKey, s.planId, FromKernelStatus(s.status), s.anchor, s.timezone)
  }

  /** The mirror of a contract, as the metering side bills it. */
  lemma MirrorMeaning(c: Contract)
    ensures var s := Mirror(c);
            && s.subscriptionId == Trim(c.subscriptionId) && s.tenantKey == Trim(c.tenantKey) && s.serviceId == "ai-completion"
            && s.planId == c.planId && s.chargeType == "metered" && s.timezone == c.timezone && s.anchor == c.anchor
            && (s.status == "past_due" <==> c.state == "past_due") && (s.status == "cancelled" <==> c.state == "cancelled")
            && s.status in {"active", "past_due", "cancelled"}
  {
  }

  /** What is reloaded has the subscription's terms, in the state its status names, or on
      trial if it names none. */
  lemma ReloadedMeaning(s: CycleWindow.Subscription)
    ensures var c := Reloaded(s);
            && c.subscriptionId == s.subscriptionId && c.tenantKey == s.tenantKey && c.planId == s.planId
            && c.anchor == s.anchor && c.timezone == s.timezone
            && c.state == if s.status in {"active", "past_due", "cancelled"} then s.status else "trial"
  {
  }

  // ---- the manager as a value ----

  datatype Subscriptions = Subscriptions(plans: map<string, Plan>, contracts: map<string, Contract>, store: Option<Store>)

  function StateOf(m: Subscriptions, tenant: string): string {
    if tenant in m.contracts then m.contracts[tenant].state else TRIAL
  }

  /** Stores a contract and mirrors it. */
  function Written(m: Subscriptions, tenant: string, c: Contract, now: Instant): Subscriptions {
    m.(contracts := m.contracts[tenant := c],
       store := if m.store.Some? then Some(Register(m.store.value, Mirror(c), now)) else None)
  }

  function Prepared(c: Contract, zones: set<string>, now: Instant): Contract {
    var tenant, plan := Trim(c.tenantKey), Trim(c.planId);
    Contract(
      if c.subscriptionId == "" then "sub_" + plan + "_" + tenant else c.subscriptionId,
      tenant, plan,
      if Trim(c.state) == "" then TRIAL else c.state,
      if c.anchor == ZERO_TIME then now else c.anchor,
      if c.timezone in zones && c.timezone != "" then c.timezone else "UTC")
  }

  /** A contract is kept as given, but for the white space around its tenant and plan, and
      for what is blank: it is then on trial, from now on, in UTC as is one whose time zone
      is unknown, with an id of its plan and tenant. */
  lemma PreparedMeaning(c: Contract, zones: set<string>, now: Instant)
    ensures var p := Prepared(c, zones, now);
            && p.tenantKey == Trim(c.tenantKey) && p.planId == Trim(c.planId)
            && p.state == (if Trim(c.state) == "" then "trial" else c.state)
            && p.anchor == (if c.anchor == 0 then now else c.anchor)
            && p.timezone == (if c.timezone == "" || c.timezone !in zones then "UTC" else c.timezone)
            && p.subscriptionId == (if c.subscriptionId == "" then "sub_" + p.planId + "_" + p.tenantKey else c.subscriptionId)
  {
    hide Trim;
  }

  function Created(m: Subscriptions, c: Contract, zones: set<string>, now: Instant): Subscriptions {
    var p := Prepared(c, zones, now);
    Written(m, p.tenantKey, p, now)
  }

  function Starter(tenant: string, state: string, now: Instant): Contract {
    Contract("sub_" + tenant, tenant, "starter", state, now, "UTC")
  }

  function WithState(m: Subscriptions, tenant: string, state: string, now: Instant): Subscriptions {
    Written(m, tenant,
            if tenant in m.contracts then m.contracts[tenant].(state := state) else Starter(tenant, state, now), now)
  }

  function Fired(m: Subscriptions, tenant: string, event: string, now: Instant): Subscriptions {
    var next := Transition(StateOf(m, Trim(tenant)), event);
    if next == None then m else WithState(m, Trim(tenant), next.value, now)
  }

  /** The mirror says what the contract says. */
  predicate Mirrored(c: Contract, s: Option<CycleWindow.Subscription>) {
    && s.Some? && s.value.planId == c.planId && s.value.anchor == c.anchor && s.value.timezone == c.timezone
    && s.value.tenantKey == c.tenantKey && s.value.status == ToKernelStatus(c.state)
  }

  /** A contract that a write can mirror exactly: under its own trimmed tenant, with an
      anchor and a time zone. */
  predicate Settled(c: Contract, tenant: string) {
    c.tenantKey == tenant == Trim(tenant) && c.anchor != ZERO_TIME && c.timezone != ""
  }

  /** The tenant's contract, if the manager has one, is settled and mirrored. */
  predicate InStepFor(m: Subscriptions, t: string) {
    t in m.contracts ==>
      && Settled(m.contracts[t], t)
      && (m.store.Some? && t != "" ==> Mirrored(m.contracts[t], Subscribed(m.store.value, t, COMPLETION)))
  }

  /** A write leaves its tenant in step exactly if the contract is settled, whatever the
      state before, and everybody else as they were. */
  lemma WrittenInStepIff(m: Subscriptions, tenant: string, c: Contract, now: Instant)
    ensures InStepFor(Written(m, tenant, c, now), tenant) <==> Settled(c, tenant)
    ensures Trim(c.tenantKey) == tenant ==> forall t :: t != tenant ==> (InStepFor(Written(m, tenant, c, now), t) <==> InStepFor(m, t))
  {
    hide Trim;
  }

  /** Creation puts its tenant in step from any state, and changes no other tenant's. */
  lemma CreatedInStep(m: Subscriptions, c: Contract, zones: set<string>, now: Instant)
    requires now != ZERO_TIME
    ensures InStepFor(Created(m, c, zones, now), Trim(c.tenantKey))
    ensures forall t :: t != Trim(c.tenantKey) ==> (InStepFor(Created(m, c, zones, now), t) <==> InStepFor(m, t))
  {
    hide Trim, InStepFor;
    TrimIdempotent(c.tenantKey);
    var p := Prepared(c, zones, now);
    WrittenInStepIff(m, p.tenantKey, p, now);
  }

  /** A state change puts its tenant in step exactly if the contract it changes, if there
      is one, is settled; the mirror need not have matched before. */
  lemma StateInStepIff(m: Subscriptions, tenant: string, state: string, now: Instant)
    requires now != ZERO_TIME && Trim(tenant) == tenant
    ensures InStepFor(WithState(m, tenant, state, now), tenant) <==> (tenant in m.contracts ==> Settled(m.contracts[tenant], tenant))
    ensures (tenant in m.contracts ==> Trim(m.contracts[tenant].tenantKey) == tenant) ==> forall t :: t != tenant ==> (InStepFor(WithState(m, tenant, state, now), t) <==> InStepFor(m, t))
  {
    hide Trim, InStepFor;
    WrittenInStepIff(m, tenant, if tenant in m.contracts then m.contracts[tenant].(state := state) else Starter(tenant, state, now), now);
  }

  /** The contract under one tenant's key does not name another. */
  predicate NamesNoOther(m: Subscriptions, tenant: string, other: string) {
    tenant in m.contracts && tenant != other ==> Trim(m.contracts[tenant].tenantKey) != other
  }

  /** So a tenant in step stays in step under every write of any tenant, as long as the
      contract written does not name it under another's key. */
  lemma WritesKeepInStep(m: Subscriptions, c: Contract, zones: set<string>, tenant: string, state: string, event: string, now: Instant, t: string)
    requires InStepFor(m, t) && NamesNoOther(m, Trim(tenant), t) && now != ZERO_TIME
    ensures InStepFor(Created(m, c, zones, now), t)
    ensures InStepFor(WithState(m, Trim(tenant), state, now), t)
    ensures InStepFor(Fired(m, tenant, event, now), t)
  {
    hide Trim, Transition, NamesNoOther;
    CreatedInStep(m, c, zones, now);
    forall s
      ensures InStepFor(WithState(m, Trim(tenant), s, now), t)
    {
      StateKeepsInStep(m, tenant, s, now, t);
    }
  }

  lemma StateKeepsInStep(m: Subscriptions, tenant: string, state: string, now: Instant, t: string)
    requires InStepFor(m, t) && NamesNoOther(m, Trim(tenant), t) && now != ZERO_TIME
    ensures InStepFor(WithState(m, Trim(tenant), state, now), t)
  {
    TrimIdempotent(tenant);
    hide Trim;
    var u := Trim(tenant);
    if t == u {
      StateInStepIff(m, u, state, now);
    } else {
      WriteElsewhere(m, u, if u in m.contracts then m.contracts[u].(state := state) else Starter(u, state, now), now, t);
    }
  }

  lemma WriteElsewhere(m: Subscriptions, tenant: string, c: Contract, now: Instant, t: string)
    requires InStepFor(m, t) && t != tenant && Trim(c.tenantKey) != t
    ensures InStepFor(Written(m, tenant, c, now), t)
  {
  }

  /** A reload puts its tenant in step exactly if what is reloaded is settled and says what
      the mirror says, in a status the manager knows. */
  lemma ReloadInStepIff(m: Subscriptions, tenant: string, service: string)
    requires Tidy(tenant) && m.store.Some? && Subscribed(m.store.value, tenant, service).Some?
    ensures var s, q := Subscribed(m.store.value, tenant, service).value, Subscribed(m.store.value, tenant, COMPLETION);
            InStepFor(m.(contracts := m.contracts[tenant := Reloaded(s)]), tenant)
            <==> && s.tenantKey == tenant && s.anchor != ZERO_TIME && s.timezone != ""
                 && q.Some? && q.value.tenantKey == tenant && q.value.planId == s.planId && q.value.anchor == s.anchor
                 && q.value.timezone == s.timezone && q.value.status == ToKernelStatus(FromKernelStatus(s.status))
    ensures var s := Subscribed(m.store.value, tenant, service).value;
            forall t :: t != tenant ==> (InStepFor(m.(contracts := m.contracts[tenant := Reloaded(s)]), t) <==> InStepFor(m, t))
  {
    hide Trim;
  }

  /** For the manager's own subscription: exactly if its tenant key is the tenant, its
      anchor and zone are set and its status is one of the three. */
  lemma OwnReloadInStepIff(m: Subscriptions, tenant: string)
    requires Tidy(tenant) && m.store.Some? && Subscribed(m.store.value, tenant, COMPLETION).Some?
    ensures var s := Subscribed(m.store.value, tenant, COMPLETION).value;
            InStepFor(m.(contracts := m.contracts[tenant := Reloaded(s)]), tenant)
            <==> s.tenantKey == tenant && s.anchor != ZERO_TIME && s.timezone != "" && s.status in {"active", "past_due", "cancelled"}
  {
    ReloadInStepIff(m, tenant, COMPLETION);
  }

  // ---- entitlement ----

  datatype Decision = Allowed | NotUsable | Disallowed | QuotaExceeded

  function Decide(plans: map<string, Plan>, c: Contract, metric: string, usage: int): Decision {
    if !IsUsable(c.state) then NotUsable
    else
      var plan := if c.planId in plans then Some(plans[c.planId])
                  else if "starter" in plans then Some(plans["starter"])
                  else None;
      if plan == None || metric !in plan.value.entitlements then Allowed
      else
        var e := plan.value.entitlements[metric];
        if !e.allowed then Disallowed
        else if e.quota > 0 && usage >= e.quota then QuotaExceeded
        else Allowed
  }

  /** What a check answers, by the plan in force: the contract's, or the starter plan where
      there is no such plan.  A metric the plan does not mention is allowed, a quota that is
      not positive is no limit. */
  ghost predicate Entitled(plans: map<string, Plan>, c: Contract, metric: string, usage: int, d: Decision) {
    var id := if c.planId in plans then c.planId else "starter";
    var named := id in plans && metric in plans[id].entitlements;
    && (d == NotUsable <==> c.state !in {"active", "trial"})
    && (c.state in {"active", "trial"} ==>
          && (d == Allowed <==> named ==> var e := plans[id].entitlements[metric]; e.allowed && (e.quota <= 0 || usage < e.quota))
          && (d == Disallowed <==> named && !plans[id].entitlements[metric].allowed)
          && (d == QuotaExceeded <==> named && var e := plans[id].entitlements[metric]; e.allowed && 0 < e.quota <= usage))
  }

  lemma DecidesEntitled(plans: map<string, Plan>, c: Contract, metric: string, usage: int, d: Decision)
    ensures Entitled(plans, c, metric, usage, d) <==> d == Decide(plans, c, metric, usage)
  {
  }

  /** The contract a check works with. */
  function InForce(m: Subscriptions, tenant: string): Contract {
    if tenant in m.contracts then m.contracts[tenant]
    else Contract("", tenant, "starter", TRIAL, ZERO_TIME, "")
  }

  /** Forgetting a contract and reloading it from its mirror changes no decision exactly
      when its state is one of the recognized ones, although trial comes back as active;
      an unrecognized state comes back as active too, and then it does. */
  lemma ReloadKeepsDecisionsIff(m: Subscriptions, tenant: string)
    requires InStepFor(m, tenant) && m.store.Some? && tenant != "" && tenant in m.contracts
    ensures var c := m.contracts[tenant];
            var r := Reloaded(Subscribed(m.store.value, tenant, COMPLETION).value);
            && (IsValid(c.state) <==> forall metric, usage :: Decide(m.plans, r, metric, usage) == Decide(m.plans, c, metric, usage))
            && r.tenantKey == c.tenantKey && r.planId == c.planId && r.anchor == c.anchor && r.timezone == c.timezone
            && r.state == (if c.state == PAST_DUE || c.state == CANCELLED then c.state else ACTIVE)
  {
    var c := m.contracts[tenant];
    var s := Subscribed(m.store.value, tenant, COMPLETION);
    assert Mirrored(c, s);
    if !IsValid(c.state) {
      assert Decide(m.plans, Reloaded(s.value), "", 0) != Decide(m.plans, c, "", 0);
    }
  }

  // ---- firing an event after a restart ----

  /** What is known of a tenant: the manager's contract, else the one in the store. */
  function Known(m: Subscriptions, tenant: string): Option<Contract> {
    if tenant in m.contracts then Some(m.contracts[tenant])
    else if m.store.Some? && Subscribed(m.store.value, tenant, COMPLETION).Some?
    then Some(Reloaded(Subscribed(m.store.value, tenant, COMPLETION).value))
    else None
  }

  /** The manager with the tenant's contract reloaded first. */
  function Loaded(m: Subscriptions, tenant: string): Subscriptions {
    if Known(m, tenant).Some? then m.(contracts := m.contracts[tenant := Known(m, tenant).value]) else m
  }

  /** The events that trial takes to another state than the stored one does: an expired
      trial for an active contract, and for a cancelled one every payment, expiry or
      reactivation. */
  predicate Misfires(state: string, event: string) {
    || (state == ACTIVE && event == "trial_expired")
    || (state == CANCELLED && event in {"payment_succeeded", "payment_failed", "trial_expired", "reactivate"})
  }

  /** The events that apply in trial. */
  predicate AppliesInTrial(event: string) {
    event in {"activate", "payment_succeeded", "cancel", "payment_failed", "trial_expired"}
  }

  /** The state an event leads to, if it leads anywhere. */
  function After(state: string, event: string): string {
    if Transition(state, event).Some? then Transition(state, event).value else state
  }

  lemma TrialDiffersIff(state: string, event: string)
    requires IsValid(state)
    ensures Transition(TRIAL, event).Some? <==> AppliesInTrial(Lower(Trim(event)))
    ensures (if Transition(TRIAL, event).Some? then Transition(TRIAL, event).value else state) == After(state, event)
            <==> !Misfires(state, Lower(Trim(event)))
  {
  }

  /** Firing does not reload a contract.  For a tenant known only to the store the outcome
      is as if it did, in state and plan, if and only if the event does not misfire and, if
      it applies in trial, the stored plan is the starter plan. */
  lemma FiringRespectsMirrorIff(m: Subscriptions, tenant: string, event: string, now: Instant)
    requires tenant !in m.contracts && Tidy(tenant) && Known(m, tenant).Some?
    ensures var c, w := Known(m, tenant).value, Lower(Trim(event));
            var fired, loaded := Known(Fired(m, tenant, event, now), tenant), Known(Fired(Loaded(m, tenant), tenant, event, now), tenant);
            && fired.Some? && loaded.Some? && loaded.value.state == After(c.state, event) && loaded.value.planId == c.planId
            && ((fired.value.state == loaded.value.state && fired.value.planId == loaded.value.planId)
                <==> !Misfires(c.state, w) && (AppliesInTrial(w) ==> c.planId == "starter"))
            && (AppliesInTrial(w) ==> fired.value == Starter(tenant, Transition(TRIAL, event).value, now))
  {
    hide Transition, Register, Mirror, Trim, Lower, Misfires, AppliesInTrial;
    var c := Known(m, tenant).value;
    StoredIsValid(m, tenant);
    TrialDiffersIff(c.state, event);
    assert tenant in Loaded(m, tenant).contracts;
  }

  lemma StoredIsValid(m: Subscriptions, tenant: string)
    requires tenant !in m.contracts && Known(m, tenant).Some?
    ensures IsValid(Known(m, tenant).value.state)
  {
  }

  /** So a cancelled tenant can become past due, on another plan. */
  lemma FiringForgetsTheMirror(m: Subscriptions, tenant: string, now: Instant)
    requires tenant !in m.contracts && Tidy(tenant) && Known(m, tenant).Some? && Known(m, tenant).value.state == CANCELLED
    ensures var m' := Fired(m, tenant, "payment_failed", now);
            !Follows(CANCELLED, StateOf(m', tenant)) && Known(m', tenant) == Some(Starter(tenant, PAST_DUE, now))
  {
    assert TrimLeft("payment_failed") == "payment_failed" && TrimRight("payment_failed") == "payment_failed";
    assert Lower("payment_failed") == "payment_failed";
    hide Register, Mirror;
  }

  // ---- the manager as the code has it ----

  class Manager {
    var plans: map<string, Plan>
    var contracts: map<string, Contract>
    const store: MemoryMeteringStore?

    ghost function View(): Subscriptions
      reads this, store
    {
      Subscriptions(plans, contracts, if store == null then None else Some(store.View()))
    }

    constructor (store: MemoryMeteringStore?)
      ensures this.store == store && contracts == map[] && plans.Keys == {"starter", "pro"}
      ensures plans["starter"] == Plan("starter", "Starter Tier", map["total_tokens" := Entitlement("total_tokens", true, 1000000)])
      ensures plans["pro"] == Plan("pro", "Pro Tier", map["total_tokens" := Entitlement("total_tokens", true, 10000000)])
      ensures forall t :: InStepFor(View(), t)
    {
      this.store, contracts := store, map[];
      plans := map["starter" := Plan("starter", "Starter Tier", map["total_tokens" := Entitlement("total_tokens", true, 1000000)]),
                   "pro" := Plan("pro", "Pro Tier", map["total_tokens" := Entitlement("total_tokens", true, 10000000)])];
    }

    method RegisterPlan(plan: Plan)
      modifies `plans
      ensures View() == old(View()).(plans := old(plans)[Trim(plan.id) := plan.(id := Trim(plan.id))])
    {
      var p := plan.(id := Trim(plan.id));
      plans := plans[p.id := p];
    }

    /** The mirror write the three operations below end with; a blank tenant or
        subscription id would make it panic. */
    method MirrorContract(c: Contract, now: Instant)
      requires store != null ==> Trim(c.tenantKey) != "" && Trim(c.subscriptionId) != ""
      modifies store
      ensures View() == old(View()).(store := if store == null then None else Some(Register(old(store.View()), Mirror(c), now)))
    {
      if store != null {
        store.RegisterServiceSubscription(Mirror(c), now);
      }
    }

    method CreateContract(contract: Contract, zones: set<string>, now: Instant) returns (c: Contract)
      requires store != null ==> Trim(contract.tenantKey) != "" && (contract.subscriptionId == "" || Trim(contract.subscriptionId) != "")
      modifies `contracts, store
      ensures c == Prepared(contract, zones, now) && View() == Created(old(View()), contract, zones, now)
    {
      hide Trim, Register, Mirror;
      TrimIdempotent(contract.tenantKey);
      c := contract.(tenantKey := Trim(contract.tenantKey), planId := Trim(contract.planId));
      if c.timezone != "" {
        if c.timezone !in zones {
          c := c.(timezone := "UTC");
        }
      } else {
        c := c.(timezone := "UTC");
      }
      if c.anchor == ZERO_TIME {
        c := c.(anchor := now);
      }
      if Trim(c.state) == "" {
        c := c.(state := TRIAL);
      }
      if c.subscriptionId == "" {
        c := c.(subscriptionId := "sub_" + c.planId + "_" + c.tenantKey);
        NotBlank(c.planId + "_" + c.tenantKey);
        assert c.subscriptionId == "sub_" + (c.planId + "_" + c.tenantKey);
      }
      contracts := contracts[c.tenantKey := c];
      MirrorContract(c, now);
    }

    /** The contract, reloaded from the store where the manager has none. */
    method GetContract(tenantKey: string) returns (r: Option<Contract>)
      modifies `contracts
      ensures var t := Trim(tenantKey);
              if t in old(contracts) then r == Some(old(contracts)[t]) && contracts == old(contracts)
              else if store == null || t !in store.subscriptions || store.subscriptions[t] == map[] then r == None && contracts == old(contracts)
              else r.Some? && contracts == old(contracts)[t := r.value]
                   && exists service :: Subscribed(store.View(), t, service).Some?
                                        && r.value == Reloaded(Subscribed(store.View(), t, service).value)
    {
      hide Reloaded;
      var t := Trim(tenantKey);
      if t in contracts {
        return Some(contracts[t]);
      }
      if store != null {
        var subs := store.GetServiceSubscriptions(t);
        if |subs| > 0 {
          assert subs[0] in subs;
          ghost var service :| Subscribed(store.View(), t, service) == Some(subs[0]);
          var c := Reloaded(subs[0]);
          contracts := contracts[t := c];
          assert Subscribed(store.View(), t, service) == Some(subs[0]);
          return Some(c);
        }
      }
      return None;
    }

    method SetState(tenantKey: string, state: string, now: Instant)
      requires store != null ==> Trim(tenantKey) != "" && (Trim(tenantKey) in contracts ==> Mirrorable(contracts[Trim(tenantKey)]))
      modifies `contracts, store
      ensures View() == WithState(old(View()), Trim(tenantKey), state, now)
      ensures var t := Trim(tenantKey);
              contracts == old(contracts)[t := if t in old(contracts) then old(contracts)[t].(state := state) else Contract("sub_" + t, t, "starter", state, now, "UTC")]
    {
      var t := Trim(tenantKey);
      var c: Contract;
      if t !in contracts {
        c := Starter(t, state, now);
        TrimIdempotent(tenantKey);
        NotBlank(t);
      } else {
        c := contracts[t].(state := state);
      }
      contracts := contracts[t := c];
      MirrorContract(c, now);
    }

    method FireTransition(tenantKey: string, event: string, now: Instant) returns (state: string, ok: bool)
      requires store != null ==> Trim(tenantKey) != "" && (Trim(tenantKey) in contracts ==> Mirrorable(contracts[Trim(tenantKey)]))
      modifies `contracts, store
      ensures View() == Fired(old(View()), tenantKey, event, now) && state == StateOf(View(), Trim(tenantKey))
      ensures ok <==> Transition(StateOf(old(View()), Trim(tenantKey)), event).Some?
      ensures !ok ==> View() == old(View())
      ensures ok ==> var t := Trim(tenantKey);
                     && Transition(if t in old(contracts) then old(contracts)[t].state else "trial", event) == Some(state)
                     && contracts == old(contracts)[t := if t in old(contracts) then old(contracts)[t].(state := state) else Contract("sub_" + t, t, "starter", state, now, "UTC")]
    {
      hide Transition;
      var t := Trim(tenantKey);
      var current := if t in contracts then contracts[t].state else TRIAL;
      var next := Transition(current, event);
      if next == None {
        return current, false;
      }
      var c: Contract;
      if t !in contracts {
        c := Starter(t, next.value, now);
        TrimIdempotent(tenantKey);
        NotBlank(t);
      } else {
        c := contracts[t].(state := next.value);
      }
      contracts := contracts[t := c];
      MirrorContract(c, now);
      return next.value, true;
    }

    /** Whether the tenant may use the metric, by the contract in force after a possible
        reload. */
    method CheckEntitlement(tenantKey: string, metricId: string, usage: int) returns (d: Decision)
      modifies `contracts
      ensures d == Decide(plans, InForce(View(), Trim(tenantKey)), Trim(metricId), usage)
      ensures Entitled(plans, InForce(View(), Trim(tenantKey)), Trim(metricId), usage, d)
      ensures Trim(tenantKey) !in contracts ==> Entitled(plans, Contract("", "", "starter", "trial", 0, ""), Trim(metricId), usage, d)
      ensures Trim(tenantKey) in old(contracts) || store == null || Trim(tenantKey) !in store.subscriptions || store.subscriptions[Trim(tenantKey)] == map[] ==>
                contracts == old(contracts)
      ensures Trim(tenantKey) !in old(contracts) && store != null && Trim(tenantKey) in store.subscriptions && store.subscriptions[Trim(tenantKey)] != map[] ==>
                exists service :: Subscribed(store.View(), Trim(tenantKey), service).Some?
                                  && InForce(View(), Trim(tenantKey)) == Reloaded(Subscribed(store.View(), Trim(tenantKey), service).value)
    {
      var t := Trim(tenantKey);
      TrimIdempotent(tenantKey);
      var found := GetContract(t);
      var c := if found == None then Contract("", t, "starter", TRIAL, ZERO_TIME, "") else found.value;
      if !IsUsable(c.state) {
        return NotUsable;
      }
      var plan := if c.planId in plans then Some(plans[c.planId]) else None;
      if plan == None {
        plan := if "starter" in plans then Some(plans["starter"]) else None;
      }
      if plan == None || Trim(metricId) !in plan.value.entitlements {
        return Allowed;
      }
      var e := plan.value.entitlements[Trim(metricId)];
      if !e.allowed {
        return Disallowed;
      }
      if e.quota > 0 && usage >= e.quota {
        return QuotaExceeded;
      }
      return Allowed;
    }
  }

  lemma ProIsTidy()
    ensures Trim("pro") == "pro" && Trim("") == ""
  {
    assert TrimLeft("pro") == "pro" && TrimRight("pro") == "pro";
  }

  /** A new manager lets a tenant it knows nothing of have a million tokens on trial, ten
      million on the professional plan, and every other metric without limit. */
  method EntitledFromTheStart(tenant: string, metric: string, usage: int, zones: set<string>, now: Instant) returns (onTrial: Decision, onPro: Decision)
    requires Tidy(metric)
    ensures onTrial == if metric == "total_tokens" && usage >= 1000000 then QuotaExceeded else Allowed
    ensures onPro == if metric == "total_tokens" && usage >= 10000000 then QuotaExceeded else Allowed
  {
    ProIsTidy();
    hide Decide, Trim, Register, Mirror;
    var m := new Manager(null);
    onTrial := m.CheckEntitlement(tenant, metric, usage);
    var c := m.CreateContract(Contract("", tenant, "pro", "", ZERO_TIME, ""), zones, now);
    TrimIdempotent(tenant);
    onPro := m.CheckEntitlement(tenant, metric, usage);
  }

  /** The manager forgets a tenant's contract, as a restart on the same store would. */
  method Forget(m: Manager, tenant: string)
    modifies m`contracts
    ensures m.contracts == old(m.contracts) - {tenant}
  {
    m.contracts := m.contracts - {tenant};
  }

  /** For a tenant with that one subscription a restart changes no entitlement decision. */
  method DecideAcrossRestart(m: Manager, tenant: string, metric: string, usage: int) returns (before: Decision, after: Decision)
    requires InStepFor(m.View(), tenant) && m.store != null && Tidy(tenant) && tenant in m.contracts && IsValid(m.contracts[tenant].state)
    requires tenant in m.store.subscriptions && m.store.subscriptions[tenant].Keys == {COMPLETION}
    modifies m`contracts
    ensures before == after
  {
    before := m.CheckEntitlement(tenant, metric, usage);
    ReloadKeepsDecisionsIff(m.View(), tenant);
    Forget(m, tenant);
    after := m.CheckEntitlement(tenant, metric, usage);
  }

  /** The mirror write takes this contract. */
  predicate Mirrorable(c: Contract) { Trim(c.tenantKey) != "" && Trim(c.subscriptionId) != "" }

  lemma NotBlank(rest: string)
    ensures Trim("sub_" + rest) != ""
  {
    var s := "sub_" + rest;
    assert s[0] == 's';
    assert TrimLeft(s) == s;
    TrimRightKeeps(s);
  }

  lemma {:induction false} TrimRightKeeps(s: string)
    requires s != [] && !IsSpace(s[0])
    ensures TrimRight(s) != []
  {
    if IsSpace(s[|s| - 1]) {
      TrimRightKeeps(s[..|s| - 1]);
    }
  }
}
