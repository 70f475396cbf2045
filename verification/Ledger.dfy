/**
 * The balances replay the transactions: in every state each account's running totals equal what
 * its charges, refunds and payouts add up to.
 */
module Ledger {
  import opened Domain
  import opened Sums
  import opened Tally
  import opened Requests
  import F = Finance

  ghost predicate LinkedTx(terms: seq<Terms>, t: Transaction) {
    && t.amount > 0
    && (t.kind.Charge? || t.kind.Refund? || t.kind.CodCollection? ==> t.orderId.Some?)
    && (t.orderId.Some? ==> t.orderId.value < |terms| && t.currency == terms[t.orderId.value].currency)
    && (t.kind.Charge? ==> terms[t.orderId.value].payment.Online? && t.source.Some?)
    && (t.kind.Charge? ==> t.amount == terms[t.orderId.value].total)
  }

  ghost predicate LedgerAt(terms: seq<Terms>, txs: seq<Transaction>, balances: F.Balances, a: Account) {
    && (a in balances <==> ChargesTo(terms, txs, a) > 0)
    && (a in balances ==>
          var b := balances[a];
          && F.Storable(b)
          && b.totalEarned == Charged(terms, txs, a) - Refunded(terms, txs, a)
          && F.Holdings(b) == b.totalEarned - PaidOut(txs, a))
    && (a !in balances ==>
          Charged(terms, txs, a) == 0 && Refunded(terms, txs, a) == 0 && PaidOut(txs, a) == 0)
  }

  ghost predicate Balanced(terms: seq<Terms>, txs: seq<Transaction>, balances: F.Balances) {
    && (forall t :: 0 <= t < |txs| ==> LinkedTx(terms, txs[t]))
    && (forall o :: 0 <= o < |terms| ==> terms[o].subtotal >= 0)
    && (forall a :: LedgerAt(terms, txs, balances, a))
  }

  ghost predicate LedgerOk(s: State) { Balanced(TermsOf(s.orders), s.txs, s.balances) }

  /** A captured charge has a balance row to debit. */
  lemma CapturedHasRow(terms: seq<Terms>, txs: seq<Transaction>, balances: F.Balances, t: TxId)
    requires Balanced(terms, txs, balances) && t < |txs| && Captured(txs[t])
    ensures terms[txs[t].orderId.value].Payee() in balances
  {
    var a := terms[txs[t].orderId.value].Payee();
    assert LinkedTx(terms, txs[t]) && LedgerAt(terms, txs, balances, a);
    SumCovers(txs, CapturedTo(terms, a));
    assert CapturedTo(terms, a)(txs[t]) == 1;
  }

  // ── the writes ────────────────────────────────────────────────────────────

  lemma AppendPending(terms: seq<Terms>, txs: seq<Transaction>, balances: F.Balances, t: Transaction)
    requires Balanced(terms, txs, balances) && LinkedTx(terms, t)
    requires t.kind.CodCollection? || (t.kind.Charge? && t.status.Pending?)
    ensures Balanced(terms, txs + [t], balances)
  {
    TxAppended(terms, txs, t);
    forall a ensures LedgerAt(terms, txs + [t], balances, a) {
      assert LedgerAt(terms, txs, balances, a);
    }
  }

  lemma KeepCaptured(terms: seq<Terms>, txs: seq<Transaction>, balances: F.Balances, i: TxId, t: Transaction)
    requires Balanced(terms, txs, balances) && i < |txs|
    requires t == txs[i].(status := t.status, refundedBy := t.refundedBy)
    requires Captured(t) == Captured(txs[i])
    ensures Balanced(terms, txs[i := t], balances)
  {
    TxUpdated(terms, txs, i, t);
    assert LinkedTx(terms, txs[i]);
    var updated := txs[i := t];
    forall a ensures LedgerAt(terms, updated, balances, a) {
      assert LedgerAt(terms, txs, balances, a);
    }
  }

  lemma CaptureCredits(terms: seq<Terms>, txs: seq<Transaction>, balances: F.Balances, i: TxId)
    requires Balanced(terms, txs, balances) && i < |txs| && txs[i].kind.Charge? && txs[i].status.Pending?
    requires var o := txs[i].orderId.value;
             F.Credit(balances, terms[o].Payee(), terms[o].subtotal).Some?
    ensures var o := txs[i].orderId.value;
            Balanced(terms, txs[i := txs[i].(status := Succeeded)],
                     F.Credit(balances, terms[o].Payee(), terms[o].subtotal).value)
  {
    var t := txs[i].(status := Succeeded);
    var o := txs[i].orderId.value;
    var after := F.Credit(balances, terms[o].Payee(), terms[o].subtotal).value;
    TxUpdated(terms, txs, i, t);
    assert LinkedTx(terms, txs[i]);
    var updated := txs[i := t];
    forall a ensures LedgerAt(terms, updated, after, a) {
      assert LedgerAt(terms, txs, balances, a);
      SumCovers(txs, CapturedTo(terms, a));
    }
  }

  lemma RefundDebits(
    terms: seq<Terms>, txs: seq<Transaction>, balances: F.Balances, i: TxId, refund: Transaction)
    requires Balanced(terms, txs, balances) && i < |txs| && Captured(txs[i])
    requires refund.kind.Refund? && refund.orderId == txs[i].orderId && refund.currency == txs[i].currency
    requires refund.amount > 0
    requires F.Debit(balances, terms[txs[i].orderId.value].Payee(), refund.amount).Some?
    ensures Balanced(terms, (txs + [refund])[i := txs[i].(refundedBy := Some(|txs|))],
                     F.Debit(balances, terms[txs[i].orderId.value].Payee(), refund.amount).value)
  {
    var payee := terms[txs[i].orderId.value].Payee();
    var after := F.Debit(balances, payee, refund.amount).value;
    CapturedHasRow(terms, txs, balances, i);
    assert LinkedTx(terms, txs[i]);
    assert LedgerAt(terms, txs, balances, payee);
    F.DebitDrainsPendingFirst(balances, payee, refund.amount);
    TxAppended(terms, txs, refund);
    forall a ensures LedgerAt(terms, txs + [refund], after, a) {
      assert LedgerAt(terms, txs, balances, a);
    }
    KeepCaptured(terms, txs + [refund], after, i, txs[i].(refundedBy := Some(|txs|)));
  }

  lemma PayoutDeducts(terms: seq<Terms>, txs: seq<Transaction>, balances: F.Balances, payout: Transaction)
    requires Balanced(terms, txs, balances)
    requires payout.kind.Payout? && payout.orderId.None? && payout.source.Some? && payout.amount > 0
    requires var a := Account(payout.source.value, payout.currency);
             F.Payable(balances, a, payout.amount) && F.Payout(balances, a, payout.amount).Some?
    ensures var a := Account(payout.source.value, payout.currency);
            Balanced(terms, txs + [payout], F.Payout(balances, a, payout.amount).value)
  {
    var after := F.Payout(balances, Account(payout.source.value, payout.currency), payout.amount).value;
    TxAppended(terms, txs, payout);
    forall a ensures LedgerAt(terms, txs + [payout], after, a) {
      assert LedgerAt(terms, txs, balances, a);
    }
  }

  lemma SettleKeeps(terms: seq<Terms>, txs: seq<Transaction>, balances: F.Balances, account: Account, amount: int)
    requires Balanced(terms, txs, balances)
    requires F.Settle(balances, account, amount, COMMISSION).Some?
    ensures Balanced(terms, txs, F.Settle(balances, account, amount, COMMISSION).value)
  {
    var after := F.Settle(balances, account, amount, COMMISSION).value;
    if account in balances {
      F.SettleConserves(balances, account, amount, COMMISSION);
    }
    forall a ensures LedgerAt(terms, txs, after, a) {
      assert LedgerAt(terms, txs, balances, a);
    }
  }

  lemma NewOrderKeeps(terms: seq<Terms>, added: Terms, txs: seq<Transaction>, balances: F.Balances)
    requires Balanced(terms, txs, balances) && added.subtotal >= 0
    ensures Balanced(terms + [added], txs, balances)
  {
    forall t | 0 <= t < |txs| ensures LinkedTx(terms + [added], txs[t]) {
      assert LinkedTx(terms, txs[t]);
    }
    OrderAppended(terms, added, txs, []);
    forall a ensures LedgerAt(terms + [added], txs, balances, a) {
      assert LedgerAt(terms, txs, balances, a);
    }
  }

  // ── the requests ──────────────────────────────────────────────────────────

  lemma PlaceOrderLedger(s: State, cart: Cart, fees: Fees)
    requires LedgerOk(s)
    ensures LedgerOk(PlaceOrder(s, cart, fees).state)
  {
    var after := PlaceOrder(s, cart, fees);
    if after.reply.Ok? {
      var terms := Quote(cart, fees);
      TermsOfAppend(s.orders, after.state.orders[|s.orders|]);
      NewOrderKeeps(TermsOf(s.orders), terms, s.txs, s.balances);
      if terms.payment.Cod? {
        AppendPending(TermsOf(s.orders) + [terms], s.txs, s.balances, Collection(|s.orders|, terms));
      }
    }
  }

  lemma InitPaymentLedger(s: State, customerId: nat, o: OrderId, cached: Option<TxId>, up: bool)
    requires LedgerOk(s)
    ensures LedgerOk(InitPayment(s, customerId, o, cached, up).state)
  {
    var after := InitPayment(s, customerId, o, cached, up).state;
    if |after.txs| > |s.txs| {
      AppendPending(TermsOf(s.orders), s.txs, s.balances, after.txs[|s.txs|]);
    }
  }

  lemma HandleWebhookLedger(s: State, w: Webhook)
    requires LedgerOk(s)
    ensures LedgerOk(HandleWebhook(s, w).state)
  {
    var pending := PickPendingCharge(s.txs, w.orderId, w.hint);
    if HandleWebhook(s, w).reply == Ok(Processed(if pending.Some? then pending.value else 0)) && pending.Some? {
      if w.verdict.Success? {
        CaptureCredits(TermsOf(s.orders), s.txs, s.balances, pending.value);
        TermsOfUpdate(s.orders, w.orderId, s.orders[w.orderId].(status := Placed));
      } else {
        KeepCaptured(TermsOf(s.orders), s.txs, s.balances, pending.value, s.txs[pending.value].(status := Failed));
      }
    }
  }

  lemma RefundLedger(s: State, t: TxId, amount: Option<int>)
    requires LedgerOk(s)
    ensures LedgerOk(RefundPayment(s, t, amount).state)
  {
    var after := RefundPayment(s, t, amount);
    if after.reply.Ok? {
      assert LinkedTx(TermsOf(s.orders), s.txs[t]);
      RefundDebits(TermsOf(s.orders), s.txs, s.balances, t, after.state.txs[|s.txs|]);
    }
  }

  lemma PayoutLedger(s: State, account: Account, amount: int)
    requires LedgerOk(s)
    ensures LedgerOk(CreatePayout(s, account, amount).state)
  {
    var after := CreatePayout(s, account, amount);
    if after.reply.Ok? {
      PayoutDeducts(TermsOf(s.orders), s.txs, s.balances, after.state.txs[|s.txs|]);
    }
  }

  lemma SettleLedger(cfg: Config, s: State, d: DeliveryId)
    requires LedgerOk(s) && d < |s.deliveries| && s.deliveries[d].orderId < |s.orders|
    ensures LedgerOk(SettleAndDeliver(cfg, s, d).state)
  {
    var o := s.deliveries[d].orderId;
    if SettleAndDeliver(cfg, s, d).reply.Ok? {
      var terms := s.orders[o].terms;
      SettleKeeps(TermsOf(s.orders), s.txs, s.balances, terms.Payee(), terms.subtotal);
      var balances := F.Settle(s.balances, terms.Payee(), terms.subtotal, COMMISSION).value;
      var collection := FirstPendingCollection(s.txs, o, 0);
      if terms.payment.Cod? && collection.Some? {
        KeepCaptured(TermsOf(s.orders), s.txs, balances, collection.value,
                     s.txs[collection.value].(status := Succeeded));
      }
      TermsOfUpdate(s.orders, o, s.orders[o].(status := OrderStatus.Delivered));
    }
  }

  // ── what follows from the ledger ──────────────────────────────────────────

  /** Payouts and refunds together never exceed what the account's charges brought in. */
  lemma Solvent(s: State, a: Account)
    requires LedgerOk(s)
    ensures PaidOut(s.txs, a) >= 0 && Refunded(TermsOf(s.orders), s.txs, a) >= 0
    ensures PaidOut(s.txs, a) + Refunded(TermsOf(s.orders), s.txs, a) <= Charged(TermsOf(s.orders), s.txs, a)
  {
    assert LedgerAt(TermsOf(s.orders), s.txs, s.balances, a);
    assert forall t :: 0 <= t < |s.txs| ==> LinkedTx(TermsOf(s.orders), s.txs[t]);
    SumCovers(s.txs, PayoutAmountTo(a));
    SumCovers(s.txs, RefundAmountTo(TermsOf(s.orders), a));
  }

  /**
   * A refund meets a balance row, and it goes through exactly when the holdings cover it: the
   * CHECK on total_earned never decides, because payouts only ever shrink the holdings.
   */
  lemma RefundDecidedByHoldings(s: State, t: TxId, amount: Option<int>)
    requires LedgerOk(s) && t < |s.txs| && Captured(s.txs[t]) && !s.txs[t].IsRefunded()
    ensures var value := if amount.Some? then amount.value else s.txs[t].amount;
            var payee := s.orders[s.txs[t].orderId.value].terms.Payee();
            && s.txs[t].orderId.value < |s.orders|
            && payee in s.balances
            && (RefundPayment(s, t, amount).reply.Ok? <==>
                0 < value <= F.INT_MAX && value <= F.Holdings(s.balances[payee]))
  {
    var terms := TermsOf(s.orders);
    assert LinkedTx(terms, s.txs[t]);
    CapturedHasRow(terms, s.txs, s.balances, t);
    var payee := s.orders[s.txs[t].orderId.value].terms.Payee();
    assert LedgerAt(terms, s.txs, s.balances, payee);
    Solvent(s, payee);
    var value := if amount.Some? then amount.value else s.txs[t].amount;
    if value > 0 {
      F.DebitDrainsPendingFirst(s.balances, payee, value);
    }
  }

  /** Once the guard of a payout holds, no CHECK of the balance row can stop it. */
  lemma PayoutGuardSuffices(s: State, account: Account, amount: int)
    requires LedgerOk(s)
    ensures CreatePayout(s, account, amount).reply.Ok? <==>
            0 < amount && account in s.balances && amount <= s.balances[account].available
    ensures CreatePayout(s, account, amount).reply == Err(ConstraintViolated) ==> amount <= 0
  {
    assert LedgerAt(TermsOf(s.orders), s.txs, s.balances, account);
  }
}
