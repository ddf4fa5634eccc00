/**
 The payment gateway in the code's own form (internal/modules/payment/service.go): an
 object holding checkout sessions and transactions, with the subscription manager it
 reports to.
 */
module PaymentGateway {
  import opened Prelude
  import opened Calendar
  import opened MeteringMemory
  import opened Text
  import opened PaymentLedger
  import Subs = Subscription
  import Life = Lifecycle

  class CheckoutSession {
    const id: string
    const tenantKey: string
    const planId: string
    const amount: int
    const currency: string
    const billingCycle: string
    var status: Status
    var paymentMethod: string
    const createdAt: Instant
    var updatedAt: Instant
    var errorReason: string

    function View(): Session
      reads this
    {
      Session(id, tenantKey, planId, amount, currency, billingCycle, status, paymentMethod, createdAt, updatedAt, errorReason)
    }

    constructor (s: Session)
      ensures View() == s
    {
      id, tenantKey, planId, amount, currency, billingCycle := s.id, s.tenantKey, s.planId, s.amount, s.currency, s.billingCycle;
      status, paymentMethod, createdAt, updatedAt, errorReason := s.status, s.paymentMethod, s.createdAt, s.updatedAt, s.errorReason;
    }
  }

  /** Every contract, in the manager or to be reloaded, can be mirrored again. */
  ghost predicate Ready(m: Subs.Subscriptions) {
    m.store.Some? ==>
      && (forall t :: t in m.contracts ==> Subs.Mirrorable(m.contracts[t]))
      && (forall t, service :: Subscribed(m.store.value, t, service).Some? ==>
            Subs.Mirrorable(Subs.Reloaded(Subscribed(m.store.value, t, service).value)))
  }

  lemma WrittenReady(m: Subs.Subscriptions, t: string, c: Subs.Contract, now: Instant)
    requires Ready(m) && Subs.Mirrorable(c)
    ensures Ready(Subs.Written(m, t, c, now))
  {
    hide Trim;
    TrimIdempotent(c.tenantKey);
    TrimIdempotent(c.subscriptionId);
    if m.store.Some? {
      forall u, service | Subscribed(Register(m.store.value, Subs.Mirror(c), now), u, service).Some?
        ensures Subs.Mirrorable(Subs.Reloaded(Subscribed(Register(m.store.value, Subs.Mirror(c), now), u, service).value))
      {
        assert Subscribed(m.store.value, u, service).Some? || (u == Trim(c.tenantKey) && service == Subs.COMPLETION);
      }
    }
  }

  lemma FiredReady(m: Subs.Subscriptions, t: string, event: string, now: Instant)
    requires Ready(m) && Trim(t) != ""
    ensures Ready(Subs.Fired(m, t, event, now))
  {
    hide Trim, Subs.Transition, Ready;
    var state := Subs.StateOf(m, Trim(t));
    if Subs.Transition(state, event).Some? && m.store.Some? {
      TrimIdempotent(t);
      Subs.NotBlank(Trim(t));
      var next := Subs.Transition(state, event).value;
      assert Trim(t) in m.contracts ==> Subs.Mirrorable(m.contracts[Trim(t)]) by { ContractsReady(m); }
      WrittenReady(m, Trim(t),
                   if Trim(t) in m.contracts then m.contracts[Trim(t)].(state := next) else Subs.Starter(Trim(t), next, now), now);
    } else if Subs.Transition(state, event).Some? {
      WithoutStoreReady(Subs.Fired(m, t, event, now));
    }
  }

  lemma ContractsReady(m: Subs.Subscriptions)
    requires Ready(m)
    ensures m.store.Some? ==> forall t :: t in m.contracts ==> Subs.Mirrorable(m.contracts[t])
  {
  }

  lemma WithoutStoreReady(m: Subs.Subscriptions)
    requires m.store == None
    ensures Ready(m)
  {
  }

  lemma CreatedReady(m: Subs.Subscriptions, t: string, plan: string, zones: set<string>, now: Instant)
    requires Ready(m) && Trim(t) != ""
    ensures Ready(Subs.Created(m, Life.Activation(t, plan, now), zones, now))
  {
    hide Ready;
    Subs.NotBlank(t);
    TrimIdempotent(t);
    var p := Subs.Prepared(Life.Activation(t, plan, now), zones, now);
    assert p.subscriptionId == "sub_" + t && p.tenantKey == Trim(t);
    WrittenReady(m, p.tenantKey, p, now);
  }

  lemma LookedUpReady(m: Subs.Subscriptions, t: string, found: Option<Subs.Contract>)
    requires Ready(m) && Life.FoundBy(m, t, found)
    ensures Ready(Life.LookedUp(m, t, found))
  {
    hide Subs.Reloaded, Subs.Mirrorable;
  }

  datatype RefundOutcome = IdRequired | TransactionNotFound | CannotRefund | RefundMade(tx: Transaction)

  class MockGateway {
    var sessions: map<string, CheckoutSession>
    var transactions: map<string, seq<Transaction>>
    const subManager: Subs.Manager

    ghost function View(): Ledger
      reads this, sessions.Values
    {
      Ledger(map id | id in sessions :: sessions[id].View(), transactions)
    }

    ghost predicate Valid()
      reads this, sessions.Values, subManager, subManager.store
    {
      && LedgerOk(View()) && NamesUnique(View()) && Ready(subManager.View())
      && forall a, b :: a in sessions && b in sessions && a != b ==> sessions[a] != sessions[b]
    }

    constructor (subManager: Subs.Manager)
      requires Ready(subManager.View())
      ensures Valid() && View() == PaymentLedger.EMPTY && this.subManager == subManager
    {
      this.subManager, sessions, transactions := subManager, map[], map[];
      new;
      EmptyOk();
    }

    /** Opens a checkout; a tenant and a plan are needed, and no negative amount. */
    method CreateCheckoutSession(r: Checkout, random: string, now: Instant) returns (session: Option<CheckoutSession>)
      requires Valid() && GenerateId("cs", random) !in sessions
      modifies `sessions
      ensures Valid() && View() == Opened(old(View()), r, random, now)
      ensures session.Some? <==> Trim(r.tenantKey) != "" && Trim(r.planId) != "" && r.amount >= 0
      ensures session.Some? ==> fresh(session.value) && session.value.View() == OpenedSession(r, random, now)
    {
      hide Trim, Upper, GenerateId, LedgerOk, NamesUnique, Unused, Ready, OpenedSession, Tidy;
      ghost var before := View();
      OpenedKeeps(before, r, random, now);
      SessionsHaveNoNames(before, Opened(before, r, random, now).sessions);
      if Trim(r.tenantKey) == "" || Trim(r.planId) == "" {
        return None;
      }
      if r.amount < 0 {
        return None;
      }
      var s := new CheckoutSession(OpenedSession(r, random, now));
      Keep(s);
      return Some(s);
    }

    method Keep(s: CheckoutSession)
      requires s.id !in sessions
      modifies `sessions
      ensures sessions == old(sessions)[s.id := s]
      ensures View() == old(View()).(sessions := old(View()).sessions[s.id := s.View()])
    {
      sessions := sessions[s.id := s];
    }

    /** Decides a payment and records it; the subscription follows once the books are
        closed. */
    method ProcessPayment(sessionId: string, p: Payment, zones: set<string>, txRandom: string, refRandom: string, now: Instant)
      returns (tx: Option<Transaction>, verdict: Verdict, ghost found: Option<Subs.Contract>)
      requires Valid() && Unused(View(), GenerateId("txn", txRandom)) && Unused(View(), GenerateId("ref", refRandom))
      modifies sessions.Values, `transactions, subManager`contracts, subManager.store
      ensures Valid() && View() == Processed(old(View()), sessionId, p, txRandom, refRandom, now)
      ensures Booked(old(View()), sessionId, p, verdict, tx, View(), now)
      ensures sessionId in old(sessions) ==>
                var tenant, plan, m := sessions[sessionId].tenantKey, sessions[sessionId].planId, old(subManager.View());
                match verdict
                case Paid => Life.FoundBy(m, tenant, found) && subManager.View() == Life.AfterSuccess(m, tenant, plan, found, zones, now)
                case Declined => subManager.View() == Subs.Fired(m, tenant, "payment_failed", now)
                case _ => subManager.View() == m
      ensures sessionId !in old(sessions) ==> subManager.View() == old(subManager.View())
    {
      hide Trim, LedgerOk, NamesUnique, Unused, Ready, GenerateId, Judge, Processed, AttemptMade, Answered, Records, Life.AfterSuccess, Life.FoundBy, Subs.Fired, Tidy;
      found := None;
      ProcessedIsBooked(View(), sessionId, p, txRandom, refRandom, now);
      tx, verdict := Decide(sessionId, p, txRandom, refRandom, now);
      ghost var books := View();
      if tx.Some? {
        found := Follow(verdict == Paid, sessions[sessionId].tenantKey, sessions[sessionId].planId, zones, now);
        assert View() == books;
      }
    }

    /** The subscription's part of a decided payment. */
    method Follow(paid: bool, tenant: string, plan: string, zones: set<string>, now: Instant) returns (ghost found: Option<Subs.Contract>)
      requires Ready(subManager.View()) && Tidy(tenant)
      modifies subManager`contracts, subManager.store
      ensures Ready(subManager.View())
      ensures paid ==> Life.FoundBy(old(subManager.View()), tenant, found)
                       && subManager.View() == Life.AfterSuccess(old(subManager.View()), tenant, plan, found, zones, now)
      ensures !paid ==> subManager.View() == Subs.Fired(old(subManager.View()), tenant, "payment_failed", now)
    {
      hide Trim, Ready, Life.AfterSuccess, Life.FoundBy, Subs.Fired;
      found := None;
      if paid {
        found := Activate(tenant, plan, zones, now);
      } else {
        var _, _ := FireFor(tenant, "payment_failed", now);
      }
    }

    /** The part of a payment under the gateway's lock: the verdict, the session and the
        record of the attempt. */
    method Decide(sessionId: string, p: Payment, txRandom: string, refRandom: string, now: Instant)
      returns (tx: Option<Transaction>, verdict: Verdict)
      requires Valid() && Unused(View(), GenerateId("txn", txRandom)) && Unused(View(), GenerateId("ref", refRandom))
      modifies sessions.Values, `transactions
      ensures Valid() && View() == Processed(old(View()), sessionId, p, txRandom, refRandom, now)
      ensures verdict == Judge(old(View()), sessionId, p)
      ensures tx == AttemptMade(old(View()), sessionId, p, txRandom, refRandom, now)
      ensures tx.Some? ==> sessionId in sessions && Tidy(sessions[sessionId].tenantKey) && Tidy(sessions[sessionId].planId)
    {
      hide Trim, LedgerOk, NamesUnique, Unused, Ready, Lower, Tidy, Supported, GenerateId, Attempt, Added;
      ghost var before := View();
      ProcessedKeeps(before, sessionId, p, txRandom, refRandom, now);
      ProcessedNamesUnique(before, sessionId, p, txRandom, refRandom, now);
      if sessionId !in sessions {
        return None, SessionNotFound;
      }
      var sess := sessions[sessionId];
      SessionKnown(before, sessionId);
      if sess.status == Succeeded || sess.status == Failed {
        return None, AlreadyDone;
      }
      var mode := Lower(Trim(p.mode));
      if !Supported(p.paymentMethod) {
        return None, UnsupportedMethod;
      }
      if mode == "challenge" && p.challengeCode != "123456" {
        Challenge(sessionId, p, now);
        return None, VerificationRequired;
      }
      if mode == "decline" {
        tx := Finish(sessionId, p, Failed, txRandom, refRandom, now);
        verdict := Declined;
      } else {
        tx := Finish(sessionId, p, Succeeded, txRandom, refRandom, now);
        verdict := Paid;
      }
    }

    /** Leaves the session open until a challenge is answered. */
    method Challenge(sessionId: string, p: Payment, now: Instant)
      requires sessionId in sessions && forall k :: k in sessions && k != sessionId ==> sessions[k] != sessions[sessionId]
      modifies sessions[sessionId]
      ensures var s' := old(sessions[sessionId].View()).(paymentMethod := p.paymentMethod, status := RequiresAction, updatedAt := now);
              View() == old(View()).(sessions := old(View()).sessions[sessionId := s'])
    {
      ghost var before := View();
      var sess := sessions[sessionId];
      sess.paymentMethod, sess.status, sess.updatedAt := p.paymentMethod, RequiresAction, now;
      OneSessionChanged(before, sessionId);
    }

    /** Finishes the session and records the attempt. */
    method Finish(sessionId: string, p: Payment, status: Status, txRandom: string, refRandom: string, now: Instant) returns (tx: Option<Transaction>)
      requires sessionId in sessions && forall k :: k in sessions && k != sessionId ==> sessions[k] != sessions[sessionId]
      modifies sessions[sessionId], `transactions
      ensures tx == Some(Attempt(old(sessions[sessionId].View()), p, status, txRandom, refRandom, now))
      ensures var s := old(sessions[sessionId].View());
              var s' := s.(paymentMethod := p.paymentMethod, status := status, updatedAt := now,
                           errorReason := if status == Failed then DECLINED else s.errorReason);
              View() == Added(old(View()).(sessions := old(View()).sessions[sessionId := s']), tx.value)
    {
      hide GenerateId;
      ghost var before := View();
      var sess := sessions[sessionId];
      var record := Transaction(GenerateId("txn", txRandom), sess.id, sess.tenantKey, sess.planId, sess.amount, sess.currency,
                                p.paymentMethod, status, GenerateId("ref", refRandom), now, "");
      sess.paymentMethod, sess.status, sess.updatedAt := p.paymentMethod, status, now;
      if status == Failed {
        sess.errorReason := DECLINED;
        record := record.(failureReason := sess.errorReason);
      }
      var list := if sess.tenantKey in transactions then transactions[sess.tenantKey] else [];
      transactions := transactions[sess.tenantKey := list + [record]];
      OneSessionChanged(before, sessionId);
      tx := Some(record);
    }

    /** All sessions but one are as before. */
    lemma OneSessionChanged(before: Ledger, id: string)
      requires before.sessions.Keys == sessions.Keys && id in sessions
      requires forall k :: k in sessions && k != id ==> sessions[k].View() == before.sessions[k]
      ensures View().sessions == before.sessions[id := sessions[id].View()]
    {
    }

    /** Tells the manager that an event happened to a tenant. */
    method FireFor(tenant: string, event: string, now: Instant) returns (state: string, ok: bool)
      requires Ready(subManager.View()) && Trim(tenant) != ""
      modifies subManager`contracts, subManager.store
      ensures Ready(subManager.View())
      ensures subManager.View() == Subs.Fired(old(subManager.View()), tenant, event, now)
      ensures state == Subs.StateOf(subManager.View(), Trim(tenant))
      ensures ok <==> Subs.Transition(Subs.StateOf(old(subManager.View()), Trim(tenant)), event).Some?
    {
      hide Trim, Ready, Subs.Fired, Subs.Transition;
      FiredReady(subManager.View(), tenant, event, now);
      ContractsReady(subManager.View());
      state, ok := subManager.FireTransition(tenant, event, now);
    }

    /** After a success: a new contract, or the event for the contract on the same plan. */
    method Activate(tenant: string, plan: string, zones: set<string>, now: Instant) returns (ghost found: Option<Subs.Contract>)
      requires Ready(subManager.View()) && Tidy(tenant)
      modifies subManager`contracts, subManager.store
      ensures Ready(subManager.View()) && Life.FoundBy(old(subManager.View()), tenant, found)
      ensures subManager.View() == Life.AfterSuccess(old(subManager.View()), tenant, plan, found, zones, now)
    {
      hide Trim, Ready, Subs.Fired, Subs.Created, Subs.Reloaded;
      ghost var before := subManager.View();
      var contract := subManager.GetContract(tenant);
      found := contract;
      assert subManager.View() == Life.LookedUp(before, tenant, found);
      LookedUpReady(before, tenant, found);
      if contract == None || contract.value.planId != plan {
        SetUp(tenant, plan, zones, now);
      } else {
        var _, _ := FireFor(tenant, "payment_succeeded", now);
      }
    }

    method SetUp(tenant: string, plan: string, zones: set<string>, now: Instant)
      requires Ready(subManager.View()) && Trim(tenant) != ""
      modifies subManager`contracts, subManager.store
      ensures Ready(subManager.View())
      ensures subManager.View() == Subs.Created(old(subManager.View()), Life.Activation(tenant, plan, now), zones, now)
    {
      hide Ready, Trim, Subs.Created;
      CreatedReady(subManager.View(), tenant, plan, zones, now);
      Subs.NotBlank(tenant);
      var _ := subManager.CreateContract(Life.Activation(tenant, plan, now), zones, now);
    }

    /** The transaction an identifier names, if any. */
    method FindTransaction(id: string) returns (at: Option<(string, nat)>)
      ensures at.Some? ==> NamedAt(View(), at.value.0, at.value.1, id)
      ensures at == None ==> Unused(View(), id)
    {
      var rest := transactions.Keys;
      while rest != {}
        invariant rest <= transactions.Keys
        invariant forall t, i :: t in transactions && t !in rest ==> !NamedAt(View(), t, i, id)
        decreases rest
      {
        var key :| key in rest;
        var i := 0;
        while i < |transactions[key]|
          invariant i <= |transactions[key]|
          invariant forall j :: 0 <= j < i ==> !Names(transactions[key][j], id)
        {
          if transactions[key][i].id == id || transactions[key][i].referenceId == id {
            return Some((key, i));
          }
          i := i + 1;
        }
        rest := rest - {key};
      }
      return None;
    }

    /** Refunds the transaction an identifier names, if it succeeded and was not refunded
        before, and reports a failed payment for its tenant. */
    method RefundPayment(transactionId: string, reason: string, txRandom: string, refRandom: string, now: Instant)
      returns (outcome: RefundOutcome, ghost at: (string, nat))
      requires Valid() && Unused(View(), GenerateId("ref_tx", txRandom)) && Unused(View(), GenerateId("ref", refRandom))
      modifies `transactions, subManager`contracts, subManager.store
      ensures Valid()
      ensures !outcome.RefundMade? ==> View() == old(View()) && subManager.View() == old(subManager.View())
      ensures outcome == IdRequired <==> Trim(transactionId) == ""
      ensures outcome == TransactionNotFound <==> Trim(transactionId) != "" && Unused(old(View()), Trim(transactionId))
      ensures outcome == CannotRefund || outcome.RefundMade? ==> NamedAt(old(View()), at.0, at.1, Trim(transactionId))
      ensures outcome == CannotRefund ==> old(transactions)[at.0][at.1].status != Succeeded
      ensures outcome.RefundMade? ==>
                && old(transactions)[at.0][at.1].status == Succeeded
                && outcome.tx == RefundRecord(old(transactions)[at.0][at.1], at.0, reason, txRandom, refRandom, now)
                && View() == RefundedAt(old(View()), at.0, at.1, reason, txRandom, refRandom, now)
                && subManager.View() == Subs.Fired(old(subManager.View()), at.0, "payment_failed", now)
    {
      hide Trim, LedgerOk, NamesUnique, Ready, GenerateId, Subs.Fired, Tidy, RefundedAt, RefundRecord, NamedAt, Unused;
      at := ("", 0);
      var id := Trim(transactionId);
      if id == "" {
        return IdRequired, at;
      }
      var position := FindTransaction(id);
      if position == None {
        return TransactionNotFound, at;
      }
      NamedIsUsed(View(), position.value.0, position.value.1, id);
      at := position.value;
      outcome := RefundFound(position.value.0, position.value.1, reason, txRandom, refRandom, now);
    }

    /** Refunds the transaction at a position, if it succeeded. */
    method RefundFound(key: string, i: nat, reason: string, txRandom: string, refRandom: string, now: Instant) returns (outcome: RefundOutcome)
      requires Valid() && key in transactions && i < |transactions[key]|
      requires Unused(View(), GenerateId("ref_tx", txRandom)) && Unused(View(), GenerateId("ref", refRandom))
      modifies `transactions, subManager`contracts, subManager.store
      ensures Valid() && (outcome == CannotRefund || outcome.RefundMade?)
      ensures outcome == CannotRefund <==> old(transactions)[key][i].status != Succeeded
      ensures outcome == CannotRefund ==> View() == old(View()) && subManager.View() == old(subManager.View())
      ensures outcome.RefundMade? ==>
                && outcome.tx == RefundRecord(old(transactions)[key][i], key, reason, txRandom, refRandom, now)
                && View() == RefundedAt(old(View()), key, i, reason, txRandom, refRandom, now)
                && subManager.View() == Subs.Fired(old(subManager.View()), key, "payment_failed", now)
    {
      hide Trim, LedgerOk, NamesUnique, Ready, GenerateId, Subs.Fired, Tidy, RefundedAt, RefundRecord, Unused;
      if transactions[key][i].status != Succeeded {
        return CannotRefund;
      }
      TenantKnown(View(), key, i);
      var refund := RefundAt(key, i, reason, txRandom, refRandom, now);
      ghost var after := View();
      var _, _ := FireFor(key, "payment_failed", now);
      assert View() == after;
      return RefundMade(refund);
    }

    /** Marks the payment and adds the refund record. */
    method RefundAt(key: string, i: nat, reason: string, txRandom: string, refRandom: string, now: Instant) returns (refund: Transaction)
      requires Valid() && key in transactions && i < |transactions[key]| && transactions[key][i].status == Succeeded
      requires Unused(View(), GenerateId("ref_tx", txRandom)) && Unused(View(), GenerateId("ref", refRandom))
      modifies `transactions
      ensures Valid() && refund == RefundRecord(old(transactions)[key][i], key, reason, txRandom, refRandom, now)
      ensures View() == RefundedAt(old(View()), key, i, reason, txRandom, refRandom, now)
    {
      hide LedgerOk, NamesUnique, Unused, Ready, GenerateId;
      ghost var before := View();
      RefundedKeeps(before, key, i, reason, txRandom, refRandom, now);
      RefundedNamesUnique(before, key, i, reason, txRandom, refRandom, now);
      var target := transactions[key][i];
      refund := RefundRecord(target, key, reason, txRandom, refRandom, now);
      transactions := transactions[key := transactions[key][i := target.(status := Refunded)] + [refund]];
      assert View() == RefundedAt(before, key, i, reason, txRandom, refRandom, now);
    }

    /** A provider's webhook: contracts change, the ledger does not. */
    method SimulateWebhook(tenantKey: string, rawEvent: string, plan: string, zones: set<string>, now: Instant) returns (effect: Option<Life.Effect>)
      requires Valid()
      modifies subManager`contracts, subManager.store
      ensures Valid() && View() == old(View())
      ensures effect == None <==> Trim(tenantKey) == "" || Trim(rawEvent) == ""
      ensures effect == None ==> subManager.View() == old(subManager.View())
      ensures effect.Some? ==>
                (subManager.View(), effect.value) == Life.AfterWebhook(old(subManager.View()), Trim(tenantKey), Trim(rawEvent), plan, zones, now)
    {
      hide Trim, LedgerOk, NamesUnique, Ready, Subs.Fired, Subs.Created, Subs.Transition, Life.KindOf;
      var tenant, event := Trim(tenantKey), Trim(rawEvent);
      TrimIdempotent(tenantKey);
      if tenant == "" || event == "" {
        return None;
      }
      var state, ok := "", false;
      match Life.KindOf(event) {
        case PaymentMade =>
          if plan != "" {
            SetUp(tenant, plan, zones, now);
            return Some(Life.ContractCreated);
          }
          state, ok := FireFor(tenant, "payment_succeeded", now);
        case PaymentMissed =>
          state, ok := FireFor(tenant, "payment_failed", now);
        case Ended =>
          state, ok := FireFor(tenant, "cancel", now);
        case Unknown =>
          return Some(Life.Unsupported);
      }
      return Some(if ok then Life.MovedTo(state) else Life.NoEffect);
    }
  }

  lemma NamedIsUsed(l: Ledger, tenant: string, i: nat, id: string)
    requires NamedAt(l, tenant, i, id)
    ensures !Unused(l, id) && tenant in l.transactions && i < |l.transactions[tenant]|
  {
  }

  lemma SessionKnown(l: Ledger, id: string)
    requires LedgerOk(l) && id in l.sessions
    ensures SessionOk(id, l.sessions[id])
  {
  }

  lemma TenantKnown(l: Ledger, tenant: string, i: nat)
    requires LedgerOk(l) && tenant in l.transactions && i < |l.transactions[tenant]|
    ensures Trim(tenant) != ""
  {
    hide Trim;
    assert Agrees(l.sessions, tenant, l.transactions[tenant][i]);
  }
}
