/**
 Payments and subscription states together: what payments, refunds, webhooks and events
 do to a tenant's contract over whole runs (internal/modules/payment/service.go with
 internal/modules/subscription/service.go).
 */
module Lifecycle {
  import opened Prelude
  import opened Calendar
  import opened MeteringMemory
  import opened Text
  import opened Subscription

  /** The contract a lookup may answer with: the manager's, else one reloaded from any of
      the tenant's subscriptions in the store. */
  ghost predicate FoundBy(m: Subscriptions, tenant: string, found: Option<Contract>) {
    if tenant in m.contracts then found == Some(m.contracts[tenant])
    else if m.store.Some? && exists service :: Subscribed(m.store.value, tenant, service).Some?
    then exists service :: Subscribed(m.store.value, tenant, service).Some? && found == Some(Reloaded(Subscribed(m.store.value, tenant, service).value))
    else found == None
  }

  /** A lookup keeps what it found. */
  function LookedUp(m: Subscriptions, tenant: string, found: Option<Contract>): Subscriptions {
    if found.Some? then m.(contracts := m.contracts[tenant := found.value]) else m
  }

  /** The contract a payment or webhook sets up. */
  function Activation(tenant: string, plan: string, now: Instant): Contract {
    Contract("sub_" + tenant, tenant, plan, ACTIVE, now, "UTC")
  }

  /** A successful payment: a new contract unless there is one on the same plan, which
      gets the event instead. */
  function AfterSuccess(m: Subscriptions, tenant: string, plan: string, found: Option<Contract>, zones: set<string>, now: Instant): Subscriptions {
    var m1 := LookedUp(m, tenant, found);
    if found == None || found.value.planId != plan then Created(m1, Activation(tenant, plan, now), zones, now)
    else Fired(m1, tenant, "payment_succeeded", now)
  }

  /** What a successful payment leaves a tenant with that had no contract on the plan: an
      active one on it, from now on in UTC. */
  lemma PaidSetsUp(m: Subscriptions, tenant: string, plan: string, found: Option<Contract>, zones: set<string>, now: Instant)
    requires Tidy(tenant) && Tidy(plan) && FoundBy(m, tenant, found) && (found == None || found.value.planId != plan) && now != ZERO_TIME
    ensures var m' := AfterSuccess(m, tenant, plan, found, zones, now);
            && m'.contracts == m.contracts[tenant := Contract("sub_" + tenant, tenant, plan, "active", now, "UTC")] && m'.plans == m.plans
            && (m.store.Some? ==> m'.store.Some? && Subscribed(m'.store.value, tenant, COMPLETION).Some?
                                  && Subscribed(m'.store.value, tenant, COMPLETION).value.planId == plan
                                  && Subscribed(m'.store.value, tenant, COMPLETION).value.status == "active")
  {
    ActivationKept(tenant, plan, zones, now);
    hide Trim, Prepared, Register, Mirror, Reloaded, Fired, FoundBy, Activation;
    var a := Activation(tenant, plan, now);
    assert AfterSuccess(m, tenant, plan, found, zones, now) == Written(LookedUp(m, tenant, found), tenant, a, now);
    MirrorOf(LookedUp(m, tenant, found), tenant, a, now);
  }

  /** What is written is mirrored. */
  lemma MirrorOf(m: Subscriptions, tenant: string, c: Contract, now: Instant)
    requires Tidy(tenant) && c.tenantKey == tenant
    ensures m.store.Some? ==>
              var m' := Written(m, tenant, c, now);
              && m'.store.Some? && Subscribed(m'.store.value, tenant, COMPLETION).Some?
              && Subscribed(m'.store.value, tenant, COMPLETION).value.planId == c.planId
              && Subscribed(m'.store.value, tenant, COMPLETION).value.status == ToKernelStatus(c.state)
  {
    hide Trim, Register, Mirror;
    if m.store.Some? {
      assert Mirror(c).tenantKey == tenant && Mirror(c).serviceId == COMPLETION by { MirrorMeaning(c); }
      assert Mirror(c).planId == c.planId && Mirror(c).status == ToKernelStatus(c.state) by { MirrorStatus(c); }
      RegisterMeaning(m.store.value, Mirror(c), now, tenant, COMPLETION);
    }
  }

  lemma MirrorStatus(c: Contract)
    ensures Mirror(c).planId == c.planId && Mirror(c).status == ToKernelStatus(c.state) && Mirror(c).status != ""
  {
    hide Trim;
  }

  lemma ActivationKept(tenant: string, plan: string, zones: set<string>, now: Instant)
    requires Tidy(tenant) && Tidy(plan) && now != ZERO_TIME
    ensures var a := Activation(tenant, plan, now);
            Prepared(a, zones, now) == a == Contract("sub_" + tenant, tenant, plan, "active", now, "UTC") && ToKernelStatus(a.state) == "active"
  {
    assert Trim(ACTIVE) == ACTIVE;
    hide Trim;
  }

  /** After a successful payment the tenant is active, except where the contract is on the
      very plan paid for and cancelled, or in a state that is not recognized: the payment
      is then taken and the state stays. */
  lemma PaidMeansActiveIff(m: Subscriptions, tenant: string, plan: string, found: Option<Contract>, zones: set<string>, now: Instant)
    requires Tidy(tenant) && Tidy(plan) && FoundBy(m, tenant, found)
    ensures var m' := AfterSuccess(m, tenant, plan, found, zones, now);
            StateOf(m', tenant) == ACTIVE <==> !(found.Some? && found.value.planId == plan && found.value.state !in {TRIAL, ACTIVE, PAST_DUE})
    ensures var m' := AfterSuccess(m, tenant, plan, found, zones, now);
            tenant in m'.contracts && m'.contracts[tenant].planId == plan
  {
    hide Reloaded, Fired, Created, Trim;
    SuccessFires(LookedUp(m, tenant, found), tenant, now);
    ActivationHolds(LookedUp(m, tenant, found), tenant, plan, zones, now);
  }

  lemma SuccessFires(m: Subscriptions, tenant: string, now: Instant)
    requires Tidy(tenant)
    ensures var state := StateOf(m, tenant);
            StateOf(Fired(m, tenant, "payment_succeeded", now), tenant) == if state == TRIAL || state == PAST_DUE then ACTIVE else state
    ensures tenant in m.contracts ==>
              var m' := Fired(m, tenant, "payment_succeeded", now);
              tenant in m'.contracts && m'.contracts[tenant].planId == m.contracts[tenant].planId
  {
    hide Trim, Lower, Register, Mirror;
    Words();
  }

  lemma ActivationHolds(m: Subscriptions, tenant: string, plan: string, zones: set<string>, now: Instant)
    requires Tidy(tenant) && Tidy(plan)
    ensures Cached(Created(m, Activation(tenant, plan, now), zones, now), tenant)
            == Some(Prepared(Activation(tenant, plan, now), zones, now))
    ensures Prepared(Activation(tenant, plan, now), zones, now).state == ACTIVE
    ensures Prepared(Activation(tenant, plan, now), zones, now).planId == plan
  {
    hide Register, Mirror;
    assert Trim(ACTIVE) == ACTIVE;
  }

  /** The event names are as they should be after trimming and lower-casing. */
  lemma Words()
    ensures Lower(Trim("payment_succeeded")) == "payment_succeeded"
    ensures Lower(Trim("payment_failed")) == "payment_failed"
    ensures Lower(Trim("cancel")) == "cancel"
  {
    assert TrimLeft("payment_succeeded") == "payment_succeeded" && TrimRight("payment_succeeded") == "payment_succeeded";
    assert TrimLeft("payment_failed") == "payment_failed" && TrimRight("payment_failed") == "payment_failed";
    assert TrimLeft("cancel") == "cancel" && TrimRight("cancel") == "cancel";
    assert Lower("payment_succeeded") == "payment_succeeded";
    assert Lower("payment_failed") == "payment_failed";
    assert Lower("cancel") == "cancel";
  }

  // ---- webhooks ----

  datatype Effect = NoEffect | ContractCreated | MovedTo(state: string) | Unsupported

  datatype WebhookKind = PaymentMade | PaymentMissed | Ended | Unknown

  function KindOf(event: string): WebhookKind {
    match event
    case "payment.succeeded" | "invoice.paid" | "subscription.renewed" => PaymentMade
    case "payment.failed" | "invoice.payment_failed" => PaymentMissed
    case "subscription.cancelled" => Ended
    case _ => Unknown
  }

  /** The six events a webhook may bring; anything else is not supported. */
  lemma KindMeaning(event: string)
    ensures KindOf(event) == PaymentMade <==> event in {"payment.succeeded", "invoice.paid", "subscription.renewed"}
    ensures KindOf(event) == PaymentMissed <==> event in {"payment.failed", "invoice.payment_failed"}
    ensures KindOf(event) == Ended <==> event == "subscription.cancelled"
  {
  }

  /** What a webhook does, by its event and plan. */
  function AfterWebhook(m: Subscriptions, tenant: string, event: string, plan: string, zones: set<string>, now: Instant): (Subscriptions, Effect) {
    match KindOf(event)
    case PaymentMade =>
      if plan != "" then (Created(m, Activation(tenant, plan, now), zones, now), ContractCreated)
      else FiredWithEffect(m, tenant, "payment_succeeded", now)
    case PaymentMissed => FiredWithEffect(m, tenant, "payment_failed", now)
    case Ended => FiredWithEffect(m, tenant, "cancel", now)
    case Unknown => (m, Unsupported)
  }

  function FiredWithEffect(m: Subscriptions, tenant: string, event: string, now: Instant): (Subscriptions, Effect) {
    var m' := Fired(m, tenant, event, now);
    (m', if Transition(StateOf(m, Trim(tenant)), event).Some? then MovedTo(StateOf(m', Trim(tenant))) else NoEffect)
  }

  /** What a webhook does: a payment made sets up an active contract on the plan it names,
      and without one is the event; a payment missed and an end are the events; any other
      does nothing. */
  lemma WebhookMeaning(m: Subscriptions, tenant: string, event: string, plan: string, zones: set<string>, now: Instant)
    requires Tidy(tenant)
    ensures var (m', effect) := AfterWebhook(m, tenant, event, plan, zones, now);
            if event in {"payment.succeeded", "invoice.paid", "subscription.renewed"} && plan != "" then
              && effect == ContractCreated && tenant in m'.contracts
              && m'.contracts[tenant].planId == Trim(plan) && m'.contracts[tenant].state == "active"
            else if event in {"payment.succeeded", "invoice.paid", "subscription.renewed", "payment.failed", "invoice.payment_failed", "subscription.cancelled"} then
              var name := if event in {"payment.failed", "invoice.payment_failed"} then "payment_failed"
                          else if event == "subscription.cancelled" then "cancel" else "payment_succeeded";
              var next := Transition(if tenant in m.contracts then m.contracts[tenant].state else "trial", name);
              && effect == (if next.Some? then MovedTo(next.value) else NoEffect)
              && (next == None ==> m' == m)
              && (next.Some? ==> tenant in m'.contracts && m'.contracts[tenant].state == next.value)
            else m' == m && effect == Unsupported
  {
    assert Trim(ACTIVE) == ACTIVE;
    KindMeaning(event);
    hide Trim, Transition, KindOf, Register, Mirror;
  }

  // ---- runs ----

  /** What happens to contracts: an event is fired, for a refund or a declined payment
      among others; a payment succeeds, after a lookup that may reload the contract; a
      webhook comes in; a lookup reloads a contract. */
  datatype Step =
    | Fire(tenant: string, event: string, at: Instant)
    | Success(tenant: string, plan: string, found: Option<Contract>, at: Instant)
    | Webhook(tenant: string, event: string, plan: string, at: Instant)
    | Lookup(tenant: string, found: Option<Contract>)

  function Cached(m: Subscriptions, tenant: string): Option<Contract> {
    if tenant in m.contracts then Some(m.contracts[tenant]) else None
  }

  ghost predicate Enabled(m: Subscriptions, s: Step) {
    match s
    case Fire(_, _, _) => true
    case Success(tenant, _, found, _) => Tidy(tenant) && FoundBy(m, tenant, found)
    case Webhook(tenant, _, _, _) => Tidy(tenant)
    case Lookup(tenant, found) => Trim(tenant) == tenant && FoundBy(m, tenant, found)
  }

  function Apply(m: Subscriptions, zones: set<string>, s: Step): Subscriptions {
    match s
    case Fire(tenant, event, at) => Fired(m, tenant, event, at)
    case Success(tenant, plan, found, at) => AfterSuccess(m, tenant, plan, found, zones, at)
    case Webhook(tenant, event, plan, at) => AfterWebhook(m, tenant, event, plan, zones, at).0
    case Lookup(tenant, found) => LookedUp(m, tenant, found)
  }

  /** A run of one process, which starts with no contracts and with any store. */
  ghost predicate Run(ms: seq<Subscriptions>, ss: seq<Step>, zones: set<string>) {
    && |ms| == |ss| + 1 && ms[0].contracts == map[]
    && forall k {:trigger ss[k]} :: 0 <= k < |ss| ==> Enabled(ms[k], ss[k]) && ms[k + 1] == Apply(ms[k], zones, ss[k])
  }

  /** Every step moves the state of every tenant as the lifecycle allows, and touches no
      contract but the step's own tenant's. */
  lemma StepFollows(m: Subscriptions, zones: set<string>, s: Step, tenant: string)
    requires Enabled(m, s)
    ensures Follows(StateOf(m, tenant), StateOf(Apply(m, zones, s), tenant))
    ensures tenant != Trim(s.tenant) ==> Cached(Apply(m, zones, s), tenant) == Cached(m, tenant)
  {
    hide Transition, Trim, Register, Mirror, Lower, KindOf, Fired, Created, Follows, FoundBy, LookedUp;
    TrimIdempotent(s.tenant);
    match s
    case Fire(t, event, at) =>
      FiredFollows(m, t, event, at, tenant);
    case Success(t, plan, found, at) =>
      var m1 := LookedUp(m, t, found);
      LookupFollows(m, t, found, tenant);
      FiredFollows(m1, t, "payment_succeeded", at, tenant);
      CreatedFollows(m1, t, plan, zones, at, tenant);
      FollowsFromLookup(m, t, found, tenant, StateOf(AfterSuccess(m, t, plan, found, zones, at), tenant));
    case Webhook(t, event, plan, at) =>
      CreatedFollows(m, t, plan, zones, at, tenant);
      FiredFollows(m, t, "payment_succeeded", at, tenant);
      FiredFollows(m, t, "payment_failed", at, tenant);
      FiredFollows(m, t, "cancel", at, tenant);
      NoChangeFollows(StateOf(m, tenant));
    case Lookup(t, found) =>
      LookupFollows(m, t, found, tenant);
  }

  lemma NoChangeFollows(state: string)
    ensures Follows(state, state)
  {
  }

  /** A reload replaces the trial a tenant without a contract is taken to be in. */
  lemma LookupFollows(m: Subscriptions, t: string, found: Option<Contract>, tenant: string)
    requires FoundBy(m, t, found)
    ensures Follows(StateOf(m, tenant), StateOf(LookedUp(m, t, found), tenant))
    ensures tenant != t ==> Cached(LookedUp(m, t, found), tenant) == Cached(m, tenant)
  {
  }

  /** What follows a looked-up state follows the state before the lookup. */
  lemma FollowsFromLookup(m: Subscriptions, t: string, found: Option<Contract>, tenant: string, after: string)
    requires FoundBy(m, t, found) && Follows(StateOf(LookedUp(m, t, found), tenant), after)
    ensures Follows(StateOf(m, tenant), after)
  {
  }

  lemma FiredFollows(m: Subscriptions, t: string, event: string, at: Instant, tenant: string)
    ensures Follows(StateOf(m, tenant), StateOf(Fired(m, t, event, at), tenant))
    ensures tenant != Trim(t) ==> Cached(Fired(m, t, event, at), tenant) == Cached(m, tenant)
  {
    hide Transition, Trim, Register, Mirror;
    if Transition(StateOf(m, Trim(t)), event).Some? {
      TransitionFollows(StateOf(m, Trim(t)), event);
    }
  }

  lemma CreatedFollows(m: Subscriptions, t: string, plan: string, zones: set<string>, at: Instant, tenant: string)
    requires Tidy(t)
    ensures Follows(StateOf(m, tenant), StateOf(Created(m, Activation(t, plan, at), zones, at), tenant))
    ensures tenant != t ==> Cached(Created(m, Activation(t, plan, at), zones, at), tenant) == Cached(m, tenant)
  {
    hide Register, Mirror;
    assert Trim(ACTIVE) == ACTIVE;
  }

  /** Over every run states stay valid, and a tenant that has left trial is never in trial
      again. */
  lemma {:induction false} TrialIsLeftForGood(ms: seq<Subscriptions>, ss: seq<Step>, zones: set<string>, i: nat, j: nat, tenant: string)
    requires Run(ms, ss, zones) && i <= j < |ms|
    ensures IsValid(StateOf(ms[j], tenant))
    ensures StateOf(ms[i], tenant) != TRIAL ==> StateOf(ms[j], tenant) != TRIAL
    decreases j
  {
    hide Apply, Enabled;
    if j > 0 {
      assert Enabled(ms[j - 1], ss[j - 1]) && ms[j] == Apply(ms[j - 1], zones, ss[j - 1]);
      StepFollows(ms[j - 1], zones, ss[j - 1], tenant);
      TrialIsLeftForGood(ms, ss, zones, if i < j then i else j - 1, j - 1, tenant);
    }
  }

  /** Over every run the first state after cancelled is active. */
  lemma {:induction false} CancelledThenActive(ms: seq<Subscriptions>, ss: seq<Step>, zones: set<string>, i: nat, j: nat, tenant: string)
    requires Run(ms, ss, zones) && i <= j < |ms|
    requires StateOf(ms[i], tenant) == CANCELLED && StateOf(ms[j], tenant) != CANCELLED
    ensures exists k :: i < k <= j && StateOf(ms[k], tenant) == ACTIVE
                        && forall n :: i <= n < k ==> StateOf(ms[n], tenant) == CANCELLED
    decreases j
  {
    hide Apply, Enabled;
    assert Enabled(ms[j - 1], ss[j - 1]) && ms[j] == Apply(ms[j - 1], zones, ss[j - 1]);
    StepFollows(ms[j - 1], zones, ss[j - 1], tenant);
    if forall n :: i <= n < j ==> StateOf(ms[n], tenant) == CANCELLED {
      assert StateOf(ms[j], tenant) == ACTIVE;
    } else {
      var n :| i <= n < j && StateOf(ms[n], tenant) != CANCELLED;
      CancelledThenActive(ms, ss, zones, i, n, tenant);
    }
  }

  /** Over every run a tenant no step is about keeps its contract. */
  lemma {:induction false} OthersUntouched(ms: seq<Subscriptions>, ss: seq<Step>, zones: set<string>, i: nat, j: nat, tenant: string)
    requires Run(ms, ss, zones) && i <= j < |ms|
    requires forall k {:trigger ss[k]} :: i <= k < j ==> Trim(ss[k].tenant) != tenant
    ensures Cached(ms[j], tenant) == Cached(ms[i], tenant)
    decreases j
  {
    hide Apply, Enabled;
    if i < j {
      assert Enabled(ms[j - 1], ss[j - 1]) && ms[j] == Apply(ms[j - 1], zones, ss[j - 1]);
      StepFollows(ms[j - 1], zones, ss[j - 1], tenant);
      OthersUntouched(ms, ss, zones, i, j - 1, tenant);
    }
  }

  // ---- mirrors over runs ----

  /** Contracts, in the manager and in the store, are under their own tenant's key. */
  ghost predicate Keyed(m: Subscriptions) {
    && (forall t :: t in m.contracts ==> m.contracts[t].tenantKey == t == Trim(t))
    && (m.store.Some? ==> forall t, service :: Subscribed(m.store.value, t, service).Some? ==> Subscribed(m.store.value, t, service).value.tenantKey == t)
  }

  predicate Timed(s: Step) { s.Lookup? || s.at != ZERO_TIME }

  lemma WrittenKeyed(m: Subscriptions, t: string, c: Contract, now: Instant)
    requires Keyed(m) && c.tenantKey == t == Trim(t)
    ensures Keyed(Written(m, t, c, now))
  {
    hide Trim;
    if m.store.Some? {
      forall u, service | Subscribed(Register(m.store.value, Mirror(c), now), u, service).Some?
        ensures Subscribed(Register(m.store.value, Mirror(c), now), u, service).value.tenantKey == u
      {
        assert (u == t && service == COMPLETION) || Subscribed(m.store.value, u, service).Some?;
      }
    }
  }

  lemma FiredKeyed(m: Subscriptions, t: string, event: string, now: Instant)
    requires Keyed(m)
    ensures Keyed(Fired(m, t, event, now))
  {
    TrimIdempotent(t);
    hide Trim, Transition, Written;
    var u := Trim(t);
    if Transition(StateOf(m, u), event).Some? {
      var next := Transition(StateOf(m, u), event).value;
      WrittenKeyed(m, u, if u in m.contracts then m.contracts[u].(state := next) else Starter(u, next, now), now);
    }
  }

  lemma CreatedKeyed(m: Subscriptions, t: string, plan: string, zones: set<string>, now: Instant)
    requires Keyed(m) && Tidy(t)
    ensures Keyed(Created(m, Activation(t, plan, now), zones, now))
  {
    hide Written;
    WrittenKeyed(m, t, Prepared(Activation(t, plan, now), zones, now), now);
  }

  lemma LookedUpKeyed(m: Subscriptions, t: string, found: Option<Contract>)
    requires Keyed(m) && FoundBy(m, t, found) && Trim(t) == t
    ensures Keyed(LookedUp(m, t, found))
  {
    hide Trim;
  }

  lemma StepKeyed(m: Subscriptions, zones: set<string>, s: Step)
    requires Keyed(m) && Enabled(m, s)
    ensures Keyed(Apply(m, zones, s))
  {
    hide Keyed, Fired, Created, LookedUp, FoundBy, KindOf;
    match s
    case Fire(t, event, at) => FiredKeyed(m, t, event, at);
    case Success(t, plan, found, at) =>
      LookedUpKeyed(m, t, found);
      FiredKeyed(LookedUp(m, t, found), t, "payment_succeeded", at);
      CreatedKeyed(LookedUp(m, t, found), t, plan, zones, at);
    case Webhook(t, event, plan, at) =>
      CreatedKeyed(m, t, plan, zones, at);
      FiredKeyed(m, t, "payment_succeeded", at);
      FiredKeyed(m, t, "payment_failed", at);
      FiredKeyed(m, t, "cancel", at);
    case Lookup(t, found) => LookedUpKeyed(m, t, found);
  }

  /** A tenant with a contract that is in step. */
  predicate HasInStep(m: Subscriptions, t: string) { t in m.contracts && InStepFor(m, t) }

  lemma FiredInStep(m: Subscriptions, t: string, event: string, now: Instant, tenant: string)
    requires Keyed(m) && HasInStep(m, tenant) && now != ZERO_TIME
    ensures HasInStep(Fired(m, t, event, now), tenant)
  {
    TrimIdempotent(t);
    hide Trim, Transition, InStepFor, Register, Mirror;
    assert NamesNoOther(m, Trim(t), tenant);
    WritesKeepInStep(m, Activation(t, "", now), {}, t, "", event, now, tenant);
  }

  lemma CreatedKeepsInStep(m: Subscriptions, t: string, plan: string, zones: set<string>, now: Instant, tenant: string)
    requires HasInStep(m, tenant) && now != ZERO_TIME
    ensures HasInStep(Created(m, Activation(t, plan, now), zones, now), tenant)
  {
    hide Trim, InStepFor, Register, Mirror;
    CreatedInStep(m, Activation(t, plan, now), zones, now);
  }

  lemma LookedUpInStep(m: Subscriptions, t: string, found: Option<Contract>, tenant: string)
    requires HasInStep(m, tenant) && FoundBy(m, t, found)
    ensures HasInStep(LookedUp(m, t, found), tenant)
  {
    hide Trim, Mirrored, Settled;
  }

  lemma StepInStep(m: Subscriptions, zones: set<string>, s: Step, tenant: string)
    requires Keyed(m) && Enabled(m, s) && Timed(s) && HasInStep(m, tenant)
    ensures HasInStep(Apply(m, zones, s), tenant)
  {
    hide Keyed, Fired, Created, LookedUp, FoundBy, KindOf, HasInStep, Trim;
    match s
    case Fire(t, event, at) => FiredInStep(m, t, event, at, tenant);
    case Success(t, plan, found, at) =>
      TidyIsTrimmed(t);
      LookedUpKeyed(m, t, found);
      LookedUpInStep(m, t, found, tenant);
      FiredInStep(LookedUp(m, t, found), t, "payment_succeeded", at, tenant);
      CreatedKeepsInStep(LookedUp(m, t, found), t, plan, zones, at, tenant);
    case Webhook(t, event, plan, at) =>
      CreatedKeepsInStep(m, t, plan, zones, at, tenant);
      FiredInStep(m, t, "payment_succeeded", at, tenant);
      FiredInStep(m, t, "payment_failed", at, tenant);
      FiredInStep(m, t, "cancel", at, tenant);
    case Lookup(t, found) => LookedUpInStep(m, t, found, tenant);
  }

  lemma TidyIsTrimmed(t: string)
    requires Tidy(t)
    ensures Trim(t) == t
  {
  }

  /** Over every run of a process whose store has each subscription under its own tenant,
      a contract once in step with its mirror stays in step, whatever happens to this
      tenant or to others. */
  lemma {:induction false} InStepForGood(ms: seq<Subscriptions>, ss: seq<Step>, zones: set<string>, i: nat, j: nat, tenant: string)
    requires Run(ms, ss, zones) && i <= j < |ms| && Keyed(ms[0]) && HasInStep(ms[i], tenant)
    requires forall k {:trigger ss[k]} :: 0 <= k < |ss| ==> Timed(ss[k])
    ensures Keyed(ms[j]) && HasInStep(ms[j], tenant)
    decreases j
  {
    hide Apply, Enabled, Keyed, HasInStep;
    KeyedForGood(ms, ss, zones, j);
    if i < j {
      assert Enabled(ms[j - 1], ss[j - 1]) && ms[j] == Apply(ms[j - 1], zones, ss[j - 1]);
      InStepForGood(ms, ss, zones, i, j - 1, tenant);
      StepInStep(ms[j - 1], zones, ss[j - 1], tenant);
    }
  }

  lemma {:induction false} KeyedForGood(ms: seq<Subscriptions>, ss: seq<Step>, zones: set<string>, n: nat)
    requires Run(ms, ss, zones) && n < |ms| && Keyed(ms[0])
    ensures Keyed(ms[n])
  {
    hide Apply, Enabled, Keyed;
    if n > 0 {
      assert Enabled(ms[n - 1], ss[n - 1]) && ms[n] == Apply(ms[n - 1], zones, ss[n - 1]);
      KeyedForGood(ms, ss, zones, n - 1);
      StepKeyed(ms[n - 1], zones, ss[n - 1]);
    }
  }
}
