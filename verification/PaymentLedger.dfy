/**
 The payment ledger as a value (internal/modules/payment/service.go): checkout sessions
 and, per tenant, the transactions made from them, with money conserved over all runs.

 Generated identifiers are a prefix and a random part; the random part is an argument
 of each operation.
 */
module PaymentLedger {
  import opened Prelude
  import opened Calendar
  import opened Text

  datatype Status = Pending | RequiresAction | Succeeded | Failed | Cancelled | Refunded

  datatype Session = Session(
    id: string,
    tenantKey: string,
    planId: string,
    amount: int,
    currency: string,
    billingCycle: string,
    status: Status,
    paymentMethod: string,
    createdAt: Instant,
    updatedAt: Instant,
    errorReason: string)

  datatype Transaction = Transaction(
    id: string,
    sessionId: string,
    tenantKey: string,
    planId: string,
    amount: int,
    currency: string,
    paymentMethod: string,
    status: Status,
    referenceId: string,
    processedAt: Instant,
    failureReason: string)

  datatype Ledger = Ledger(sessions: map<string, Session>, transactions: map<string, seq<Transaction>>)

  const EMPTY := Ledger(map[], map[])

  predicate Finished(s: Session) { s.status == Succeeded || s.status == Failed }

  function GenerateId(prefix: string, random: string): (id: string)
    ensures |id| == |prefix| + 1 + |random| && prefix + "_" <= id
  {
    prefix + "_" + random
  }

  function TransactionsOf(l: Ledger, tenant: string): seq<Transaction> {
    if tenant in l.transactions then l.transactions[tenant] else []
  }

  function Added(l: Ledger, tx: Transaction): Ledger {
    l.(transactions := l.transactions[tx.tenantKey := TransactionsOf(l, tx.tenantKey) + [tx]])
  }

  // ---- operations ----

  datatype Checkout = Checkout(tenantKey: string, planId: string, amount: int, currency: string, billingCycle: string)

  /** A checkout needs a tenant, a plan and an amount that is not negative. */
  predicate Acceptable(r: Checkout) { Trim(r.tenantKey) != "" && Trim(r.planId) != "" && r.amount >= 0 }

  /** A pending session for what was asked for; the currency is in upper case, US dollars
      and monthly billing where none are given. */
  function OpenedSession(r: Checkout, random: string, now: Instant): (s: Session)
    ensures s.id == GenerateId("cs", random) && s.status == Pending && s.createdAt == s.updatedAt == now
    ensures s.tenantKey == Trim(r.tenantKey) && s.planId == Trim(r.planId) && s.amount == r.amount
    ensures if r.currency == "" then s.currency == "USD" else s.currency == Upper(r.currency)
    ensures if r.billingCycle == "" then s.billingCycle == "monthly" else s.billingCycle == r.billingCycle
  {
    Session(GenerateId("cs", random), Trim(r.tenantKey), Trim(r.planId), r.amount,
            Upper(if r.currency == "" then "USD" else r.currency),
            if r.billingCycle == "" then "monthly" else r.billingCycle,
            Pending, "", now, now, "")
  }

  function Opened(l: Ledger, r: Checkout, random: string, now: Instant): Ledger {
    if !Acceptable(r) then l
    else l.(sessions := l.sessions[GenerateId("cs", random) := OpenedSession(r, random, now)])
  }

  datatype Payment = Payment(paymentMethod: string, mode: string, challengeCode: string)

  datatype Verdict = SessionNotFound | AlreadyDone | UnsupportedMethod | VerificationRequired | Declined | Paid

  predicate Supported(paymentMethod: string) {
    paymentMethod in {"card", "bank_transfer", "digital_wallet", "crypto_token"}
  }

  function Judge(l: Ledger, sessionId: string, p: Payment): Verdict {
    var mode := Lower(Trim(p.mode));
    if sessionId !in l.sessions then SessionNotFound
    else if Finished(l.sessions[sessionId]) then AlreadyDone
    else if !Supported(p.paymentMethod) then UnsupportedMethod
    else if mode == "challenge" && p.challengeCode != "123456" then VerificationRequired
    else if mode == "decline" then Declined
    else Paid
  }

  /** What is answered to a payment for a session that is there: the method is checked
      first, then a challenge not met, then a decline asked for. */
  ghost predicate Answered(s: Session, p: Payment, v: Verdict) {
    var mode := Lower(Trim(p.mode));
    var known := p.paymentMethod in {"card", "bank_transfer", "digital_wallet", "crypto_token"};
    && v != SessionNotFound
    && (v == AlreadyDone <==> s.status == Succeeded || s.status == Failed)
    && (v != AlreadyDone ==>
          && (v == UnsupportedMethod <==> !known)
          && (v == VerificationRequired <==> known && mode == "challenge" && p.challengeCode != "123456")
          && (v == Declined <==> known && mode == "decline")
          && (v == Paid <==> known && mode != "decline" && (mode == "challenge" ==> p.challengeCode == "123456")))
  }

  lemma JudgedAs(l: Ledger, sessionId: string, p: Payment)
    ensures sessionId in l.sessions ==> Answered(l.sessions[sessionId], p, Judge(l, sessionId, p))
    ensures Judge(l, sessionId, p) == SessionNotFound <==> sessionId !in l.sessions
  {
  }

  /** A challenge can be met: a session left open for it is paid by a second attempt with
      the code, and is not paid by any number of attempts without it. */
  lemma ChallengeMet(l: Ledger, sessionId: string, p: Payment, txRandom: string, refRandom: string, now: Instant, q: Payment)
    requires sessionId in l.sessions && Judge(l, sessionId, p) == VerificationRequired
    requires q.paymentMethod == p.paymentMethod && Lower(Trim(q.mode)) == "challenge"
    ensures var l' := Processed(l, sessionId, p, txRandom, refRandom, now);
            && l'.transactions == l.transactions && l'.sessions[sessionId].status == RequiresAction
            && (Judge(l', sessionId, q) == Paid <==> q.challengeCode == "123456")
            && (Judge(l', sessionId, q) == VerificationRequired <==> q.challengeCode != "123456")
  {
  }

  const DECLINED := "decline_card_insufficient_funds"

  /** The record of a payment attempt that was decided. */
  function Attempt(s: Session, p: Payment, status: Status, txRandom: string, refRandom: string, now: Instant): Transaction {
    Transaction(GenerateId("txn", txRandom), s.id, s.tenantKey, s.planId, s.amount, s.currency, p.paymentMethod, status,
                GenerateId("ref", refRandom), now, if status == Failed then DECLINED else "")
  }

  function Processed(l: Ledger, sessionId: string, p: Payment, txRandom: string, refRandom: string, now: Instant): Ledger {
    match Judge(l, sessionId, p)
    case SessionNotFound => l
    case AlreadyDone => l
    case UnsupportedMethod => l
    case VerificationRequired =>
      var s := l.sessions[sessionId];
      l.(sessions := l.sessions[sessionId := s.(paymentMethod := p.paymentMethod, status := RequiresAction, updatedAt := now)])
    case Declined =>
      var s := l.sessions[sessionId];
      var s' := s.(paymentMethod := p.paymentMethod, status := Failed, errorReason := DECLINED, updatedAt := now);
      Added(l.(sessions := l.sessions[sessionId := s']), Attempt(s, p, Failed, txRandom, refRandom, now))
    case Paid =>
      var s := l.sessions[sessionId];
      var s' := s.(paymentMethod := p.paymentMethod, status := Succeeded, updatedAt := now);
      Added(l.(sessions := l.sessions[sessionId := s']), Attempt(s, p, Succeeded, txRandom, refRandom, now))
  }

  /** A decided payment leaves its session finished and its record saying what was to be
      paid, by whom, how, and with what outcome. */
  ghost predicate Records(s: Session, s': Session, p: Payment, paid: bool, tx: Transaction, now: Instant) {
    && tx.sessionId == s.id && tx.tenantKey == s.tenantKey && tx.planId == s.planId
    && tx.amount == s.amount && tx.currency == s.currency && tx.paymentMethod == p.paymentMethod && tx.processedAt == now
    && tx.status == (if paid then Succeeded else Failed)
    && tx.failureReason == (if paid then "" else "decline_card_insufficient_funds")
    && s'.status == tx.status && s'.paymentMethod == p.paymentMethod && s'.updatedAt == now
    && s'.errorReason == (if paid then s.errorReason else tx.failureReason)
    && s' == s.(status := s'.status, paymentMethod := s'.paymentMethod, updatedAt := s'.updatedAt, errorReason := s'.errorReason)
  }

  /** What a payment does to the books, by its verdict: the record is added to the tenant's,
      or the session waits for the challenge, or nothing changes. */
  ghost predicate Booked(l: Ledger, id: string, p: Payment, v: Verdict, tx: Option<Transaction>, l': Ledger, now: Instant) {
    && (v == SessionNotFound <==> id !in l.sessions)
    && (tx.Some? <==> v == Paid || v == Declined)
    && (v in {SessionNotFound, AlreadyDone, UnsupportedMethod} ==> l' == l)
    && (id in l.sessions ==>
          var s := l.sessions[id];
          && Answered(s, p, v)
          && (v == VerificationRequired ==>
                l' == l.(sessions := l.sessions[id := s.(paymentMethod := p.paymentMethod, status := RequiresAction, updatedAt := now)]))
          && (tx.Some? ==>
                && id in l'.sessions && Records(s, l'.sessions[id], p, v == Paid, tx.value, now)
                && l' == Ledger(l.sessions[id := l'.sessions[id]],
                                l.transactions[s.tenantKey := TransactionsOf(l, s.tenantKey) + [tx.value]])))
  }

  /** The record a payment makes, if it is decided. */
  function AttemptMade(l: Ledger, id: string, p: Payment, txRandom: string, refRandom: string, now: Instant): Option<Transaction> {
    match Judge(l, id, p)
    case Declined => Some(Attempt(l.sessions[id], p, Failed, txRandom, refRandom, now))
    case Paid => Some(Attempt(l.sessions[id], p, Succeeded, txRandom, refRandom, now))
    case _ => None
  }

  lemma ProcessedIsBooked(l: Ledger, id: string, p: Payment, txRandom: string, refRandom: string, now: Instant)
    ensures Booked(l, id, p, Judge(l, id, p), AttemptMade(l, id, p, txRandom, refRandom, now),
                   Processed(l, id, p, txRandom, refRandom, now), now)
  {
    hide Trim, Lower;
    JudgedAs(l, id, p);
  }

  predicate Names(tx: Transaction, id: string) { tx.id == id || tx.referenceId == id }

  /** The transaction at a position of a tenant's list carries the id. */
  predicate NamedAt(l: Ledger, tenant: string, i: nat, id: string) {
    tenant in l.transactions && i < |l.transactions[tenant]| && Names(l.transactions[tenant][i], id)
  }

  function RefundRecord(tx: Transaction, tenant: string, reason: string, txRandom: string, refRandom: string, now: Instant): Transaction {
    tx.(id := GenerateId("ref_tx", txRandom), tenantKey := tenant, status := Refunded, referenceId := GenerateId("ref", refRandom),
        processedAt := now, failureReason := reason)
  }

  /** The payment at a position is marked as refunded and a refund record is added. */
  function RefundedAt(l: Ledger, tenant: string, i: nat, reason: string, txRandom: string, refRandom: string, now: Instant): Ledger
    requires tenant in l.transactions && i < |l.transactions[tenant]|
  {
    var txs := l.transactions[tenant];
    l.(transactions := l.transactions[tenant :=
      txs[i := txs[i].(status := Refunded)] + [RefundRecord(txs[i], tenant, reason, txRandom, refRandom, now)]])
  }

  /** A refund marks the one payment and adds a record of the same money after it; nothing
      else of the books changes. */
  lemma RefundMeaning(l: Ledger, tenant: string, i: nat, reason: string, txRandom: string, refRandom: string, now: Instant)
    requires tenant in l.transactions && i < |l.transactions[tenant]|
    ensures var l', txs := RefundedAt(l, tenant, i, reason, txRandom, refRandom, now), l.transactions[tenant];
            && l'.sessions == l.sessions && l'.transactions.Keys == l.transactions.Keys
            && (forall t :: t in l.transactions && t != tenant ==> l'.transactions[t] == l.transactions[t])
            && |l'.transactions[tenant]| == |txs| + 1
            && (forall j :: 0 <= j < |txs| && j != i ==> l'.transactions[tenant][j] == txs[j])
            && l'.transactions[tenant][i] == txs[i].(status := Refunded)
            && var r := l'.transactions[tenant][|txs|];
            && "ref_tx_" <= r.id && "ref_" <= r.referenceId && r.tenantKey == tenant && r.status == Refunded
            && r.processedAt == now && r.failureReason == reason
            && r.amount == txs[i].amount && r.currency == txs[i].currency && r.sessionId == txs[i].sessionId
            && r.planId == txs[i].planId && r.paymentMethod == txs[i].paymentMethod
  {
  }

  // ---- tallies ----

  predicate IsRefund(tx: Transaction) { "ref_tx_" <= tx.id }

  /** What is counted or added up over transactions: payments made in a session, refund
      records of it, its payments marked refunded, and the money of succeeded payments
      and refund records. */
  datatype Weight = PaymentsIn(session: string) | RefundsOf(session: string) | RefundedIn(session: string) | Money

  function Weigh(w: Weight, tx: Transaction): int {
    match w
    case PaymentsIn(session) => if tx.sessionId == session && !IsRefund(tx) then 1 else 0
    case RefundsOf(session) => if tx.sessionId == session && IsRefund(tx) then 1 else 0
    case RefundedIn(session) => if tx.sessionId == session && !IsRefund(tx) && tx.status == Refunded then 1 else 0
    case Money => if tx.status == Succeeded || IsRefund(tx) then tx.amount else 0
  }

  function Tally(txs: seq<Transaction>, w: Weight): int {
    if txs == [] then 0 else Tally(txs[..|txs| - 1], w) + Weigh(w, txs[|txs| - 1])
  }

  lemma TallyAppend(txs: seq<Transaction>, tx: Transaction, w: Weight)
    ensures Tally(txs + [tx], w) == Tally(txs, w) + Weigh(w, tx)
  {
    assert (txs + [tx])[..|txs|] == txs;
  }

  lemma {:induction false} TallyUpdate(txs: seq<Transaction>, i: nat, tx: Transaction, w: Weight)
    requires i < |txs|
    ensures Tally(txs[i := tx], w) == Tally(txs, w) - Weigh(w, txs[i]) + Weigh(w, tx)
  {
    var n := |txs| - 1;
    if i == n {
      assert txs[i := tx][..n] == txs[..n];
    } else {
      assert txs[i := tx][..n] == txs[..n][i := tx];
      TallyUpdate(txs[..n], i, tx, w);
    }
  }

  lemma {:induction false} TallyZero(txs: seq<Transaction>, w: Weight)
    requires forall i :: 0 <= i < |txs| ==> Weigh(w, txs[i]) == 0
    ensures Tally(txs, w) == 0
  {
    if txs != [] {
      TallyZero(txs[..|txs| - 1], w);
    }
  }

  /** Of the payments in a session no more are marked refunded than were made. */
  lemma {:induction false} TallyBounds(txs: seq<Transaction>, session: string)
    ensures 0 <= Tally(txs, RefundedIn(session)) <= Tally(txs, PaymentsIn(session))
  {
    if txs != [] {
      TallyBounds(txs[..|txs| - 1], session);
    }
  }

  // ---- money of sessions ----

  function Worth(s: Session, tenant: string): int {
    if s.status == Succeeded && s.tenantKey == tenant then s.amount else 0
  }

  /** The amounts of the tenant's succeeded sessions among the given ids. */
  ghost function Total(sessions: map<string, Session>, ids: set<string>, tenant: string): int
    requires ids <= sessions.Keys
  {
    if ids == {} then 0
    else
      var id :| id in ids;
      Worth(sessions[id], tenant) + Total(sessions, ids - {id}, tenant)
  }

  lemma {:induction false} TotalPick(sessions: map<string, Session>, ids: set<string>, tenant: string, id: string)
    requires ids <= sessions.Keys && id in ids
    ensures Total(sessions, ids, tenant) == Worth(sessions[id], tenant) + Total(sessions, ids - {id}, tenant)
    decreases ids
  {
    var first :| first in ids && Total(sessions, ids, tenant) == Worth(sessions[first], tenant) + Total(sessions, ids - {first}, tenant);
    if first != id {
      TotalPick(sessions, ids - {first}, tenant, id);
      TotalPick(sessions, ids - {id}, tenant, first);
      assert ids - {first} - {id} == ids - {id} - {first};
    }
  }

  lemma {:induction false} TotalSame(a: map<string, Session>, b: map<string, Session>, ids: set<string>, tenant: string)
    requires ids <= a.Keys && ids <= b.Keys && forall id :: id in ids ==> a[id] == b[id]
    ensures Total(a, ids, tenant) == Total(b, ids, tenant)
    decreases ids
  {
    if ids != {} {
      var id :| id in ids;
      TotalPick(a, ids, tenant, id);
      TotalPick(b, ids, tenant, id);
      TotalSame(a, b, ids - {id}, tenant);
    }
  }

  /** Changing or adding one session changes the total by that session's worth. */
  lemma TotalChange(sessions: map<string, Session>, id: string, s: Session, tenant: string)
    ensures Total(sessions[id := s], sessions.Keys + {id}, tenant)
            == Total(sessions, sessions.Keys, tenant) + Worth(s, tenant) - if id in sessions then Worth(sessions[id], tenant) else 0
  {
    var after, rest := sessions[id := s], sessions.Keys - {id};
    TotalPick(after, sessions.Keys + {id}, tenant, id);
    assert sessions.Keys + {id} - {id} == rest;
    TotalSame(sessions, after, rest, tenant);
    if id in sessions {
      TotalPick(sessions, sessions.Keys, tenant, id);
    } else {
      assert rest == sessions.Keys;
    }
  }

  // ---- what every operation keeps ----

  /** A transaction agrees with its session, and its kind with its status. */
  predicate Agrees(sessions: map<string, Session>, tenant: string, tx: Transaction) {
    && tx.tenantKey == tenant && tx.sessionId in sessions
    && var s := sessions[tx.sessionId];
    && s.tenantKey == tenant && tx.planId == s.planId && tx.amount == s.amount && tx.currency == s.currency
    && s.status == (if tx.status == Failed then Failed else Succeeded)
    && tx.paymentMethod == s.paymentMethod
    && if IsRefund(tx) then tx.status == Refunded else tx.status == Succeeded || tx.status == Failed || tx.status == Refunded
  }

  ghost predicate AllAgree(sessions: map<string, Session>, tenant: string, txs: seq<Transaction>) {
    forall i :: 0 <= i < |txs| ==> Agrees(sessions, tenant, txs[i])
  }

  /** A finished session has exactly one payment, an unfinished one none; a payment is
      refunded once if it is marked refunded, and otherwise not at all. */
  ghost predicate Accounted(s: Session, txs: seq<Transaction>) {
    && Tally(txs, PaymentsIn(s.id)) == (if Finished(s) then 1 else 0)
    && Tally(txs, RefundsOf(s.id)) == Tally(txs, RefundedIn(s.id))
  }

  predicate SessionOk(id: string, s: Session) {
    s.id == id && Tidy(s.tenantKey) && Tidy(s.planId) && s.amount >= 0
  }

  ghost predicate LedgerOk(l: Ledger) {
    && (forall id :: id in l.sessions ==> SessionOk(id, l.sessions[id]))
    && (forall t :: t in l.transactions ==> AllAgree(l.sessions, t, l.transactions[t]))
    && (forall id :: id in l.sessions ==> Accounted(l.sessions[id], TransactionsOf(l, l.sessions[id].tenantKey)))
    && (forall t :: Conserved(l, t))
  }

  /** The tenant's succeeded sessions are worth its succeeded payments and its refunds. */
  ghost predicate Conserved(l: Ledger, tenant: string) {
    Total(l.sessions, l.sessions.Keys, tenant) == Tally(TransactionsOf(l, tenant), Money)
  }

  lemma OpenedKeeps(l: Ledger, r: Checkout, random: string, now: Instant)
    requires LedgerOk(l) && GenerateId("cs", random) !in l.sessions
    ensures LedgerOk(Opened(l, r, random, now))
  {
    hide Trim, Upper, GenerateId;
    if Acceptable(r) {
      var id := GenerateId("cs", random);
      TrimIdempotent(r.tenantKey);
      TrimIdempotent(r.planId);
      NewSessionKeeps(l, id, OpenedSession(r, random, now));
    }
  }

  lemma NewSessionKeeps(l: Ledger, id: string, s: Session)
    requires LedgerOk(l) && id !in l.sessions && SessionOk(id, s) && s.status == Pending
    ensures LedgerOk(l.(sessions := l.sessions[id := s]))
  {
    hide Tidy, IsRefund, Tally, Total;
    var l' := l.(sessions := l.sessions[id := s]);
    forall t
      ensures Conserved(l', t)
    {
      TotalChange(l.sessions, id, s, t);
      assert l'.sessions.Keys == l.sessions.Keys + {id};
      assert Conserved(l, t);
    }
    NoneForStranger(l, id, s.tenantKey);
  }

  /** No transaction refers to a session that does not exist. */
  lemma NoneForStranger(l: Ledger, id: string, tenant: string)
    requires LedgerOk(l) && id !in l.sessions
    ensures var txs := TransactionsOf(l, tenant);
            Tally(txs, PaymentsIn(id)) == Tally(txs, RefundsOf(id)) == Tally(txs, RefundedIn(id)) == 0
  {
    hide Tidy, IsRefund;
    var txs := TransactionsOf(l, tenant);
    assert forall i :: 0 <= i < |txs| ==> Agrees(l.sessions, tenant, txs[i]);
    TallyZero(txs, PaymentsIn(id));
    TallyZero(txs, RefundsOf(id));
    TallyZero(txs, RefundedIn(id));
  }

  /** No transaction refers to an unfinished session. */
  lemma NoneForUnfinished(l: Ledger, id: string)
    requires LedgerOk(l) && id in l.sessions && !Finished(l.sessions[id])
    ensures forall t, i :: t in l.transactions && 0 <= i < |l.transactions[t]| ==> l.transactions[t][i].sessionId != id
    ensures var txs := TransactionsOf(l, l.sessions[id].tenantKey);
            Tally(txs, PaymentsIn(id)) == Tally(txs, RefundsOf(id)) == Tally(txs, RefundedIn(id)) == 0
  {
    hide Tidy, IsRefund;
    forall t, i | t in l.transactions && 0 <= i < |l.transactions[t]|
      ensures l.transactions[t][i].sessionId != id
    {
      assert Agrees(l.sessions, t, l.transactions[t][i]);
    }
    var txs := TransactionsOf(l, l.sessions[id].tenantKey);
    TallyZero(txs, PaymentsIn(id));
    TallyZero(txs, RefundsOf(id));
    TallyZero(txs, RefundedIn(id));
  }

  lemma WaitingKeeps(l: Ledger, id: string, s: Session)
    requires LedgerOk(l) && id in l.sessions && !Finished(l.sessions[id]) && !Finished(s)
    requires s == l.sessions[id].(status := s.status, paymentMethod := s.paymentMethod, updatedAt := s.updatedAt)
    ensures LedgerOk(l.(sessions := l.sessions[id := s]))
  {
    hide Tidy, IsRefund;
    var l' := l.(sessions := l.sessions[id := s]);
    NoneForUnfinished(l, id);
    forall t
      ensures Conserved(l', t)
    {
      TotalChange(l.sessions, id, s, t);
      assert l'.sessions.Keys == l.sessions.Keys + {id};
      assert Conserved(l, t);
    }
    forall t | t in l'.transactions
      ensures AllAgree(l'.sessions, t, l'.transactions[t])
    {
      assert AllAgree(l.sessions, t, l.transactions[t]);
    }
  }

  /** A decided attempt finishes its session and is its one payment. */
  lemma DecidedKeeps(l: Ledger, id: string, s: Session, tx: Transaction)
    requires LedgerOk(l) && id in l.sessions && !Finished(l.sessions[id])
    requires s.status == tx.status && Finished(s)
    requires s == l.sessions[id].(status := s.status, paymentMethod := s.paymentMethod, updatedAt := s.updatedAt, errorReason := s.errorReason)
    requires !IsRefund(tx) && tx.sessionId == id && tx.tenantKey == s.tenantKey && tx.planId == s.planId
    requires tx.amount == s.amount && tx.currency == s.currency && tx.paymentMethod == s.paymentMethod
    ensures LedgerOk(Added(l.(sessions := l.sessions[id := s]), tx))
  {
    hide Tidy, IsRefund, Tally, Total;
    var l' := Added(l.(sessions := l.sessions[id := s]), tx);
    var txs := TransactionsOf(l, s.tenantKey);
    NoneForUnfinished(l, id);
    forall t
      ensures Conserved(l', t)
    {
      TotalChange(l.sessions, id, s, t);
      assert l'.sessions.Keys == l.sessions.Keys + {id};
      TallyAppend(txs, tx, Money);
      assert Conserved(l, t);
    }
    forall t | t in l'.transactions
      ensures AllAgree(l'.sessions, t, l'.transactions[t])
    {
      forall i | 0 <= i < |l'.transactions[t]|
        ensures Agrees(l'.sessions, t, l'.transactions[t][i])
      {
        if t in l.transactions && i < |l.transactions[t]| {
          assert Agrees(l.sessions, t, l.transactions[t][i]);
        }
      }
    }
    forall k | k in l'.sessions
      ensures Accounted(l'.sessions[k], TransactionsOf(l', l'.sessions[k].tenantKey))
    {
      TallyAppend(txs, tx, PaymentsIn(k));
      TallyAppend(txs, tx, RefundsOf(k));
      TallyAppend(txs, tx, RefundedIn(k));
      assert SessionOk(k, l.sessions[k]);
      if k != id {
        assert Accounted(l.sessions[k], TransactionsOf(l, l.sessions[k].tenantKey));
      }
    }
  }

  lemma ProcessedKeeps(l: Ledger, id: string, p: Payment, txRandom: string, refRandom: string, now: Instant)
    requires LedgerOk(l)
    ensures LedgerOk(Processed(l, id, p, txRandom, refRandom, now))
  {
    hide Judge, Trim, LedgerOk, IsRefund;
    match Judge(l, id, p)
    case SessionNotFound =>
    case AlreadyDone =>
    case UnsupportedMethod =>
    case VerificationRequired =>
      Judged(l, id, p);
      var s := l.sessions[id];
      WaitingKeeps(l, id, s.(paymentMethod := p.paymentMethod, status := RequiresAction, updatedAt := now));
    case Declined =>
      Judged(l, id, p);
      var s := l.sessions[id];
      var s' := s.(paymentMethod := p.paymentMethod, status := Failed, errorReason := DECLINED, updatedAt := now);
      AttemptIsNoRefund(s, p, Failed, txRandom, refRandom, now);
      DecidedKeeps(l, id, s', Attempt(s, p, Failed, txRandom, refRandom, now));
    case Paid =>
      Judged(l, id, p);
      var s := l.sessions[id];
      var s' := s.(paymentMethod := p.paymentMethod, status := Succeeded, updatedAt := now);
      AttemptIsNoRefund(s, p, Succeeded, txRandom, refRandom, now);
      DecidedKeeps(l, id, s', Attempt(s, p, Succeeded, txRandom, refRandom, now));
  }

  lemma AttemptIsNoRefund(s: Session, p: Payment, status: Status, txRandom: string, refRandom: string, now: Instant)
    ensures !IsRefund(Attempt(s, p, status, txRandom, refRandom, now))
  {
    assert "txn_"[0] == 't' && "ref_tx_"[0] == 'r';
  }

  lemma Judged(l: Ledger, id: string, p: Payment)
    requires LedgerOk(l) && (Judge(l, id, p).VerificationRequired? || Judge(l, id, p).Declined? || Judge(l, id, p).Paid?)
    ensures id in l.sessions && !Finished(l.sessions[id]) && l.sessions[id].id == id
  {
  }

  /** A refund moves the payment's money to the refund record. */
  lemma RefundedKeeps(l: Ledger, tenant: string, i: nat, reason: string, txRandom: string, refRandom: string, now: Instant)
    requires LedgerOk(l) && tenant in l.transactions && i < |l.transactions[tenant]|
    requires l.transactions[tenant][i].status == Succeeded
    ensures LedgerOk(RefundedAt(l, tenant, i, reason, txRandom, refRandom, now))
  {
    hide Tidy, Tally, Total;
    var l' := RefundedAt(l, tenant, i, reason, txRandom, refRandom, now);
    var txs := l.transactions[tenant];
    var marked, record := txs[i].(status := Refunded), RefundRecord(txs[i], tenant, reason, txRandom, refRandom, now);
    assert Agrees(l.sessions, tenant, txs[i]);
    assert IsRefund(record) && !IsRefund(marked);
    forall w
      ensures Tally(txs[i := marked] + [record], w) == Tally(txs, w) - Weigh(w, txs[i]) + Weigh(w, marked) + Weigh(w, record)
    {
      TallyUpdate(txs, i, marked, w);
      TallyAppend(txs[i := marked], record, w);
    }
    forall t
      ensures Conserved(l', t)
    {
      assert Conserved(l, t);
    }
    forall t | t in l'.transactions
      ensures AllAgree(l'.sessions, t, l'.transactions[t])
    {
      assert AllAgree(l.sessions, t, l.transactions[t]);
    }
    forall k | k in l'.sessions
      ensures Accounted(l'.sessions[k], TransactionsOf(l', l'.sessions[k].tenantKey))
    {
      assert Accounted(l.sessions[k], TransactionsOf(l, l.sessions[k].tenantKey));
    }
  }

  // ---- in plain words ----

  /** The transaction at a position is a payment made in the session, or a refund of it. */
  predicate PaysFor(tx: Transaction, session: string) { tx.sessionId == session && !IsRefund(tx) }

  predicate Refunds(tx: Transaction, session: string) { tx.sessionId == session && IsRefund(tx) }

  lemma {:induction false} TallyFinds(txs: seq<Transaction>, w: Weight)
    requires w.PaymentsIn? || w.RefundsOf?
    ensures Tally(txs, w) >= 0
    ensures Tally(txs, w) > 0 ==> exists i :: 0 <= i < |txs| && Weigh(w, txs[i]) == 1
    ensures Tally(txs, w) < 2 ==> forall i, j :: 0 <= i < j < |txs| ==> Weigh(w, txs[i]) == 0 || Weigh(w, txs[j]) == 0
    ensures Tally(txs, w) == 0 ==> forall i :: 0 <= i < |txs| ==> Weigh(w, txs[i]) == 0
  {
    hide IsRefund;
    if txs != [] {
      var n := |txs| - 1;
      TallyFinds(txs[..n], w);
      assert forall i :: 0 <= i < n ==> txs[..n][i] == txs[i];
      if Weigh(w, txs[n]) == 0 && Tally(txs, w) > 0 {
        var i :| 0 <= i < n && Weigh(w, txs[..n][i]) == 1;
        assert Weigh(w, txs[i]) == 1;
      }
    }
  }

  /** A finished session has one payment record, and an unfinished one has none. */
  lemma OnePaymentEach(l: Ledger, id: string)
    requires LedgerOk(l) && id in l.sessions
    ensures var txs := TransactionsOf(l, l.sessions[id].tenantKey);
            && (Finished(l.sessions[id]) <==> exists i :: 0 <= i < |txs| && PaysFor(txs[i], id))
            && forall i, j :: 0 <= i < j < |txs| ==> !(PaysFor(txs[i], id) && PaysFor(txs[j], id))
  {
    hide IsRefund, Tally;
    var txs := TransactionsOf(l, l.sessions[id].tenantKey);
    TallyFinds(txs, PaymentsIn(id));
    forall i | 0 <= i < |txs|
      ensures PaysFor(txs[i], id) <==> Weigh(PaymentsIn(id), txs[i]) == 1
    {
    }
  }

  /** A session is refunded at most once, and only if its payment is marked refunded. */
  lemma OneRefundEach(l: Ledger, id: string)
    requires LedgerOk(l) && id in l.sessions
    ensures var txs := TransactionsOf(l, l.sessions[id].tenantKey);
            && (forall i, j :: 0 <= i < j < |txs| ==> !(Refunds(txs[i], id) && Refunds(txs[j], id)))
            && (forall i, j :: 0 <= i < |txs| && 0 <= j < |txs| && Refunds(txs[i], id) && PaysFor(txs[j], id) ==> txs[j].status == Refunded)
  {
    hide IsRefund, Tally;
    var txs := TransactionsOf(l, l.sessions[id].tenantKey);
    TallyFinds(txs, RefundsOf(id));
    TallyBounds(txs, id);
    forall i | 0 <= i < |txs|
      ensures Refunds(txs[i], id) <==> Weigh(RefundsOf(id), txs[i]) == 1
    {
    }
    RefundMarks(l, id);
  }

  lemma RefundMarks(l: Ledger, id: string)
    requires LedgerOk(l) && id in l.sessions
    ensures var txs := TransactionsOf(l, l.sessions[id].tenantKey);
            forall i, j :: 0 <= i < |txs| && 0 <= j < |txs| && Refunds(txs[i], id) && PaysFor(txs[j], id) ==> txs[j].status == Refunded
  {
    hide IsRefund, Tally;
    var txs := TransactionsOf(l, l.sessions[id].tenantKey);
    forall i, j | 0 <= i < |txs| && 0 <= j < |txs| && Refunds(txs[i], id) && PaysFor(txs[j], id)
      ensures txs[j].status == Refunded
    {
      assert Weigh(RefundsOf(id), txs[i]) == 1;
      TallyFinds(txs, RefundsOf(id));
      TallyAtLeast(txs, id, j);
      assert Finished(l.sessions[id]) by { assert Agrees(l.sessions, l.sessions[id].tenantKey, txs[j]); }
    }
  }

  /** Were this payment not marked refunded, the marked ones would be fewer than the
      payments by one. */
  lemma {:induction false} TallyAtLeast(txs: seq<Transaction>, id: string, j: nat)
    requires j < |txs| && PaysFor(txs[j], id)
    ensures txs[j].status != Refunded ==> Tally(txs, RefundedIn(id)) + 1 <= Tally(txs, PaymentsIn(id))
  {
    hide IsRefund;
    var n := |txs| - 1;
    TallyBounds(txs[..n], id);
    if j < n {
      TallyAtLeast(txs[..n], id, j);
    }
  }

  // ---- identifiers ----

  /** An identifier names one transaction. */
  ghost predicate NamesUnique(l: Ledger) {
    forall t, i, u, j, id :: NamedAt(l, t, i, id) && NamedAt(l, u, j, id) ==> t == u && i == j
  }

  /** Nothing carries the identifier yet. */
  ghost predicate Unused(l: Ledger, id: string) {
    forall t, i :: !NamedAt(l, t, i, id)
  }

  lemma AddedNamesUnique(l: Ledger, tx: Transaction)
    requires NamesUnique(l) && Unused(l, tx.id) && Unused(l, tx.referenceId)
    ensures NamesUnique(Added(l, tx))
  {
    var l' := Added(l, tx);
    var n := |TransactionsOf(l, tx.tenantKey)|;
    forall t, i, u, j, id | NamedAt(l', t, i, id) && NamedAt(l', u, j, id)
      ensures t == u && i == j
    {
      assert (t == tx.tenantKey && i == n) || NamedAt(l, t, i, id);
      assert (u == tx.tenantKey && j == n) || NamedAt(l, u, j, id);
    }
  }

  lemma ProcessedNamesUnique(l: Ledger, id: string, p: Payment, txRandom: string, refRandom: string, now: Instant)
    requires NamesUnique(l) && Unused(l, GenerateId("txn", txRandom)) && Unused(l, GenerateId("ref", refRandom))
    ensures NamesUnique(Processed(l, id, p, txRandom, refRandom, now))
  {
    hide Judge, Added, NamesUnique, Unused;
    var verdict := Judge(l, id, p);
    if verdict.VerificationRequired? || verdict.Declined? || verdict.Paid? {
      JudgedThere(l, id, p);
      var s := l.sessions[id];
      forall sessions
        ensures NamesUnique(l.(sessions := sessions)) && Unused(l.(sessions := sessions), GenerateId("txn", txRandom))
                && Unused(l.(sessions := sessions), GenerateId("ref", refRandom))
      {
        SessionsHaveNoNames(l, sessions);
      }
      var method_ := p.paymentMethod;
      if verdict.Declined? {
        AddedNamesUnique(l.(sessions := l.sessions[id := s.(paymentMethod := method_, status := Failed, errorReason := DECLINED, updatedAt := now)]),
                         Attempt(s, p, Failed, txRandom, refRandom, now));
      }
      if verdict.Paid? {
        AddedNamesUnique(l.(sessions := l.sessions[id := s.(paymentMethod := method_, status := Succeeded, updatedAt := now)]),
                         Attempt(s, p, Succeeded, txRandom, refRandom, now));
      }
    }
  }

  lemma JudgedThere(l: Ledger, id: string, p: Payment)
    ensures Judge(l, id, p) != SessionNotFound <==> id in l.sessions
  {
  }

  lemma SessionsHaveNoNames(l: Ledger, sessions: map<string, Session>)
    ensures NamesUnique(l) ==> NamesUnique(l.(sessions := sessions))
    ensures forall id :: Unused(l, id) ==> Unused(l.(sessions := sessions), id)
  {
    assert forall t, i, id :: NamedAt(l.(sessions := sessions), t, i, id) <==> NamedAt(l, t, i, id);
  }

  lemma RefundedNamesUnique(l: Ledger, tenant: string, i: nat, reason: string, txRandom: string, refRandom: string, now: Instant)
    requires NamesUnique(l) && tenant in l.transactions && i < |l.transactions[tenant]|
    requires Unused(l, GenerateId("ref_tx", txRandom)) && Unused(l, GenerateId("ref", refRandom))
    ensures NamesUnique(RefundedAt(l, tenant, i, reason, txRandom, refRandom, now))
  {
    hide GenerateId;
    var l' := RefundedAt(l, tenant, i, reason, txRandom, refRandom, now);
    var n := |l.transactions[tenant]|;
    forall t, a, u, b, id | NamedAt(l', t, a, id) && NamedAt(l', u, b, id)
      ensures t == u && a == b
    {
      assert (t == tenant && a == n) || NamedAt(l, t, a, id);
      assert (u == tenant && b == n) || NamedAt(l, u, b, id);
    }
  }

  // ---- all runs ----

  datatype Operation =
    | Open(checkout: Checkout, random: string, at: Instant)
    | Pay(session: string, payment: Payment, txRandom: string, refRandom: string, at: Instant)
    | Refund(tenant: string, index: nat, reason: string, txRandom: string, refRandom: string, at: Instant)

  /** Identifiers are new, and a refund is of a succeeded transaction. */
  ghost predicate Enabled(l: Ledger, op: Operation) {
    match op
    case Open(_, random, _) => GenerateId("cs", random) !in l.sessions
    case Pay(_, _, txRandom, refRandom, _) => Unused(l, GenerateId("txn", txRandom)) && Unused(l, GenerateId("ref", refRandom))
    case Refund(tenant, i, _, txRandom, refRandom, _) =>
      && tenant in l.transactions && i < |l.transactions[tenant]| && l.transactions[tenant][i].status == Succeeded
      && Unused(l, GenerateId("ref_tx", txRandom)) && Unused(l, GenerateId("ref", refRandom))
  }

  ghost function Apply(l: Ledger, op: Operation): Ledger
    requires Enabled(l, op)
  {
    match op
    case Open(r, random, at) => Opened(l, r, random, at)
    case Pay(id, p, txRandom, refRandom, at) => Processed(l, id, p, txRandom, refRandom, at)
    case Refund(tenant, i, reason, txRandom, refRandom, at) => RefundedAt(l, tenant, i, reason, txRandom, refRandom, at)
  }

  /** A run from the empty ledger. */
  ghost predicate Run(ls: seq<Ledger>, ops: seq<Operation>) {
    && |ls| == |ops| + 1 && ls[0] == EMPTY
    && forall k {:trigger ops[k]} :: 0 <= k < |ops| ==> Enabled(ls[k], ops[k]) && ls[k + 1] == Apply(ls[k], ops[k])
  }

  /** At every point of every run the ledger is sound: per tenant money is conserved,
      each finished session has its one payment, and each payment is refunded at most
      once. */
  lemma {:induction false} ReachableOk(ls: seq<Ledger>, ops: seq<Operation>, n: nat)
    requires Run(ls, ops) && n < |ls|
    ensures LedgerOk(ls[n]) && NamesUnique(ls[n])
  {
    hide LedgerOk, NamesUnique, Unused, Opened, Processed, RefundedAt;
    if n == 0 {
      EmptyOk();
    } else {
      ReachableOk(ls, ops, n - 1);
      assert ls[n] == Apply(ls[n - 1], ops[n - 1]);
      ApplyKeeps(ls[n - 1], ops[n - 1]);
    }
  }

  lemma EmptyOk()
    ensures LedgerOk(EMPTY) && NamesUnique(EMPTY)
  {
  }

  lemma ApplyKeeps(l: Ledger, op: Operation)
    requires LedgerOk(l) && NamesUnique(l) && Enabled(l, op)
    ensures LedgerOk(Apply(l, op)) && NamesUnique(Apply(l, op))
  {
    hide LedgerOk, NamesUnique, Unused, Processed, RefundedAt;
    match op
    case Open(r, random, at) =>
      OpenedKeeps(l, r, random, at);
      SessionsHaveNoNames(l, Opened(l, r, random, at).sessions);
    case Pay(id, p, txRandom, refRandom, at) =>
      ProcessedKeeps(l, id, p, txRandom, refRandom, at);
      ProcessedNamesUnique(l, id, p, txRandom, refRandom, at);
    case Refund(tenant, i, reason, txRandom, refRandom, at) =>
      RefundedKeeps(l, tenant, i, reason, txRandom, refRandom, at);
      RefundedNamesUnique(l, tenant, i, reason, txRandom, refRandom, at);
  }

  /** A finished session is never touched again. */
  lemma {:induction false} FinishedStays(ls: seq<Ledger>, ops: seq<Operation>, m: nat, n: nat, id: string)
    requires Run(ls, ops) && m <= n < |ls|
    requires id in ls[m].sessions && Finished(ls[m].sessions[id])
    ensures id in ls[n].sessions && ls[n].sessions[id] == ls[m].sessions[id]
  {
    if m < n {
      FinishedStays(ls, ops, m, n - 1, id);
      assert ls[n] == Apply(ls[n - 1], ops[n - 1]);
      assert ops[n - 1].Open? ==> GenerateId("cs", ops[n - 1].random) !in ls[n - 1].sessions;
    }
  }
}
