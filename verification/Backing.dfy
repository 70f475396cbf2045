/**
 * What stands behind a settlement. On an account without refunds and without delivered cash
 * orders, the pending balance is exactly what was charged and not yet settled, so every
 * settlement finds its money.
 */
module Backing {
  import opened Domain
  import opened Sums
  import opened Tally
  import opened Requests
  import opened Ledger
  import opened Fulfilment
  import F = Finance

  ghost predicate CardOnly(terms: seq<Terms>, txs: seq<Transaction>, ds: seq<Delivery>, a: Account) {
    RefundsTo(terms, txs, a) == 0 && CashSettled(terms, ds, a) == 0
  }

  ghost predicate BackedAt(
    terms: seq<Terms>, txs: seq<Transaction>, ds: seq<Delivery>, balances: F.Balances, a: Account)
  {
    && RefundsTo(terms, txs, a) >= 0
    && CashSettled(terms, ds, a) >= 0
    && (CardOnly(terms, txs, ds, a) ==>
          if a in balances then balances[a].pending == Charged(terms, txs, a) - Settled(terms, ds, a)
          else Charged(terms, txs, a) == 0 && Settled(terms, ds, a) == 0)
  }

  ghost predicate Backed(terms: seq<Terms>, txs: seq<Transaction>, ds: seq<Delivery>, balances: F.Balances) {
    && LinkedTxs(terms, txs)
    && LinkedDeliveries(terms, ds)
    && forall a :: BackedAt(terms, txs, ds, balances, a)
  }

  ghost predicate BackedOk(s: State) { Backed(TermsOf(s.orders), s.txs, s.deliveries, s.balances) }

  // ── the requests ──────────────────────────────────────────────────────────

  lemma NewOrderBacked(
    terms: seq<Terms>, added: Terms, txs: seq<Transaction>, ds: seq<Delivery>, balances: F.Balances)
    requires Backed(terms, txs, ds, balances)
    ensures Backed(terms + [added], txs, ds, balances)
  {
    var more := terms + [added];
    OrderAppended(terms, added, txs, ds);
    forall a ensures BackedAt(more, txs, ds, balances, a) {
      assert BackedAt(terms, txs, ds, balances, a);
    }
  }

  /** A cash collection or a charge, not yet paid. */
  lemma NewTxBacked(terms: seq<Terms>, txs: seq<Transaction>, ds: seq<Delivery>, balances: F.Balances, t: Transaction)
    requires Backed(terms, txs, ds, balances) && LinkedTxs(terms, [t])
    requires t.kind.CodCollection? || (t.kind.Charge? && t.status.Pending?)
    ensures Backed(terms, txs + [t], ds, balances)
  {
    assert [t][0] == t;
    TxAppended(terms, txs, t);
    forall a ensures BackedAt(terms, txs + [t], ds, balances, a) {
      assert BackedAt(terms, txs, ds, balances, a);
    }
  }

  lemma PlaceOrderBacked(s: State, cart: Cart, fees: Fees)
    requires BackedOk(s)
    ensures BackedOk(PlaceOrder(s, cart, fees).state)
  {
    var after := PlaceOrder(s, cart, fees).state;
    if |after.orders| > |s.orders| {
      var added := after.orders[|s.orders|];
      TermsOfAppend(s.orders, added);
      NewOrderBacked(TermsOf(s.orders), added.terms, s.txs, s.deliveries, s.balances);
      if |after.txs| > |s.txs| {
        NewTxBacked(TermsOf(after.orders), s.txs, s.deliveries, s.balances, after.txs[|s.txs|]);
      }
    }
  }

  lemma InitPaymentBacked(s: State, customerId: nat, o: OrderId, cached: Option<TxId>, up: bool)
    requires BackedOk(s)
    ensures BackedOk(InitPayment(s, customerId, o, cached, up).state)
  {
    var after := InitPayment(s, customerId, o, cached, up).state;
    if |after.txs| > |s.txs| {
      NewTxBacked(TermsOf(s.orders), s.txs, s.deliveries, s.balances, after.txs[|s.txs|]);
    }
  }

  lemma CaptureBacked(terms: seq<Terms>, txs: seq<Transaction>, ds: seq<Delivery>, balances: F.Balances, t: TxId)
    requires Backed(terms, txs, ds, balances) && t < |txs| && txs[t].kind.Charge? && txs[t].status.Pending?
    requires var o := txs[t].orderId;
             o.Some? && o.value < |terms| && F.Credit(balances, terms[o.value].Payee(), terms[o.value].subtotal).Some?
    ensures var order := terms[txs[t].orderId.value];
            Backed(terms, txs[t := txs[t].(status := Succeeded)], ds,
                   F.Credit(balances, order.Payee(), order.subtotal).value)
  {
    var order := terms[txs[t].orderId.value];
    var captured, credited := txs[t].(status := Succeeded), F.Credit(balances, order.Payee(), order.subtotal).value;
    TxUpdated(terms, txs, t, captured);
    var after := txs[t := captured];
    forall a ensures BackedAt(terms, after, ds, credited, a) {
      assert BackedAt(terms, txs, ds, balances, a);
    }
  }

  lemma FailureBacked(terms: seq<Terms>, txs: seq<Transaction>, ds: seq<Delivery>, balances: F.Balances, t: TxId)
    requires Backed(terms, txs, ds, balances) && t < |txs| && txs[t].kind.Charge? && txs[t].status.Pending?
    ensures Backed(terms, txs[t := txs[t].(status := Failed)], ds, balances)
  {
    var failed := txs[t].(status := Failed);
    TxUpdated(terms, txs, t, failed);
    var after := txs[t := failed];
    forall a ensures BackedAt(terms, after, ds, balances, a) {
      assert BackedAt(terms, txs, ds, balances, a);
    }
  }

  lemma HandleWebhookBacked(s: State, w: Webhook)
    requires BackedOk(s)
    ensures BackedOk(HandleWebhook(s, w).state)
  {
    var after := HandleWebhook(s, w).state;
    var pending := PickPendingCharge(s.txs, w.orderId, w.hint);
    if pending.Some? && after.txs != s.txs {
      TermsOfUpdate(s.orders, w.orderId, after.orders[w.orderId]);
      if w.verdict.Success? {
        CaptureBacked(TermsOf(s.orders), s.txs, s.deliveries, s.balances, pending.value);
      } else {
        FailureBacked(TermsOf(s.orders), s.txs, s.deliveries, s.balances, pending.value);
      }
    }
  }

  lemma RefundBacked(s: State, t: TxId, amount: Option<int>)
    requires BackedOk(s) && LedgerOk(s)
    ensures BackedOk(RefundPayment(s, t, amount).state)
  {
    var after := RefundPayment(s, t, amount);
    if after.reply.Ok? {
      var terms := TermsOf(s.orders);
      var refund := after.state.txs[|s.txs|];
      assert LinkedTx(terms, s.txs[t]);
      TxAppended(terms, s.txs, refund);
      TxUpdated(terms, s.txs + [refund], t, after.state.txs[t]);
      forall a ensures BackedAt(terms, after.state.txs, s.deliveries, after.state.balances, a) {
        assert BackedAt(terms, s.txs, s.deliveries, s.balances, a);
      }
    }
  }

  lemma PayoutBacked(s: State, account: Account, amount: int)
    requires BackedOk(s)
    ensures BackedOk(CreatePayout(s, account, amount).state)
  {
    var after := CreatePayout(s, account, amount);
    if after.reply.Ok? {
      var terms := TermsOf(s.orders);
      TxAppended(terms, s.txs, after.state.txs[|s.txs|]);
      forall a ensures BackedAt(terms, after.state.txs, s.deliveries, after.state.balances, a) {
        assert BackedAt(terms, s.txs, s.deliveries, s.balances, a);
      }
    }
  }

  lemma AssignBacked(s: State, o: OrderId, choice: Choice)
    requires BackedOk(s)
    ensures BackedOk(AssignDelivery(s, o, choice).state)
  {
    var after := AssignDelivery(s, o, choice);
    if after.reply.Ok? {
      var terms := TermsOf(s.orders);
      DeliveryAppended(terms, s.deliveries, after.state.deliveries[|s.deliveries|]);
      TermsOfUpdate(s.orders, o, after.state.orders[o]);
      forall a ensures BackedAt(terms, s.txs, after.state.deliveries, s.balances, a) {
        assert BackedAt(terms, s.txs, s.deliveries, s.balances, a);
      }
    }
  }

  lemma ReassignBacked(cfg: Config, s: State, o: OrderId, choice: Choice)
    requires BackedOk(s)
    ensures BackedOk(ReassignDelivery(cfg, s, o, choice).state)
  {
    var active := FindActiveDelivery(s.deliveries, o);
    if o < |s.orders| && s.orders[o].reassignments < cfg.maxReassignments && active.Some? {
      var terms := TermsOf(s.orders);
      var released := ReleaseDelivery(s, active.value);
      DeliveryUpdated(terms, s.deliveries, active.value, released.deliveries[active.value]);
      TermsOfUpdate(s.orders, o, released.orders[o]);
      forall a ensures BackedAt(terms, s.txs, released.deliveries, s.balances, a) {
        assert BackedAt(terms, s.txs, s.deliveries, s.balances, a);
      }
      AssignBacked(released, o, choice);
    }
  }

  /** A paid online order has a balance row. */
  lemma PaidOrderHasRow(s: State, o: OrderId)
    requires LedgerOk(s) && o < |s.orders| && HasCapturedCharge(s.txs, o)
    ensures s.orders[o].terms.Payee() in s.balances
  {
    var t :| 0 <= t < |s.txs| && s.txs[t].orderId == Some(o) && s.txs[t].kind.Charge? && s.txs[t].status.Succeeded?;
    CapturedHasRow(TermsOf(s.orders), s.txs, s.balances, t);
  }

  lemma CollectionBacked(s: State, o: OrderId, t: TxId, balances: F.Balances, ds: seq<Delivery>)
    requires Backed(TermsOf(s.orders), s.txs, ds, balances) && t < |s.txs| && IsPendingCollection(s.txs[t], o)
    ensures Backed(TermsOf(s.orders), s.txs[t := s.txs[t].(status := Succeeded)], ds, balances)
  {
    var terms := TermsOf(s.orders);
    var txs := s.txs[t := s.txs[t].(status := Succeeded)];
    TxUpdated(terms, s.txs, t, s.txs[t].(status := Succeeded));
    forall a ensures BackedAt(terms, txs, ds, balances, a) {
      assert BackedAt(terms, s.txs, ds, balances, a);
    }
  }

  lemma HandOverBacked(s: State, d: DeliveryId, row: Delivery)
    requires BackedOk(s) && LedgerOk(s) && d < |s.deliveries| && s.deliveries[d].status.Picked?
    requires row.orderId == s.deliveries[d].orderId && row.status.Delivered?
    requires SettlePayment(s, row.orderId).Ok?
    ensures Backed(TermsOf(s.orders), s.txs, s.deliveries[d := row], SettlePayment(s, row.orderId).value.balances)
  {
    var terms := TermsOf(s.orders);
    var o := row.orderId;
    var ds := s.deliveries[d := row];
    var balances := SettlePayment(s, o).value.balances;
    DeliveryUpdated(terms, s.deliveries, d, row);
    if s.orders[o].terms.payment.Online? {
      PaidOrderHasRow(s, o);
    }
    forall a ensures BackedAt(terms, s.txs, ds, balances, a) {
      assert BackedAt(terms, s.txs, s.deliveries, s.balances, a);
    }
  }

  lemma ProgressBacked(cfg: Config, s: State, d: DeliveryId, agent: AgentId, to: DeliveryStatus, reason: bool)
    requires BackedOk(s) && LedgerOk(s)
    ensures BackedOk(UpdateDeliveryStatus(cfg, s, d, agent, to, reason).state)
  {
    var after := UpdateDeliveryStatus(cfg, s, d, agent, to, reason);
    if after.reply.Ok? {
      var terms := TermsOf(s.orders);
      var o := s.deliveries[d].orderId;
      TermsOfUpdate(s.orders, o, after.state.orders[o]);
      if to.Delivered? {
        HandOverBacked(s, d, after.state.deliveries[d]);
        var collection := FirstPendingCollection(s.txs, o, 0);
        if s.orders[o].terms.payment.Cod? && collection.Some? {
          CollectionBacked(s, o, collection.value, after.state.balances, after.state.deliveries);
        }
      } else {
        DeliveryUpdated(terms, s.deliveries, d, after.state.deliveries[d]);
        forall a ensures BackedAt(terms, s.txs, after.state.deliveries, s.balances, a) {
          assert BackedAt(terms, s.txs, s.deliveries, s.balances, a);
        }
      }
    }
  }

  // ── the same totals, order by order ───────────────────────────────────────

  /** Subtotals of the account's first `n` orders, each taken `count` times. */
  ghost function Weighted(terms: seq<Terms>, a: Account, count: nat -> int, n: nat): int
    requires n <= |terms|
  {
    if n == 0 then 0
    else Weighted(terms, a, count, n - 1) + (if terms[n - 1].Payee() == a then terms[n - 1].subtotal * count(n - 1) else 0)
  }

  /** One more for order `j` adds its subtotal. */
  lemma {:induction false} WeightedBump(
    terms: seq<Terms>, a: Account, count: nat -> int, bumped: nat -> int, j: OrderId, step: int, n: nat)
    requires n <= |terms|
    requires forall i :: 0 <= i < n ==> bumped(i) == count(i) + (if i == j then step else 0)
    ensures Weighted(terms, a, bumped, n)
         == Weighted(terms, a, count, n)
          + (if j < n && terms[j].Payee() == a then terms[j].subtotal * step else 0)
  {
    if n > 0 {
      WeightedBump(terms, a, count, bumped, j, step, n - 1);
      if j == n - 1 {
        assert terms[j].subtotal * (count(j) + step) == terms[j].subtotal * count(j) + terms[j].subtotal * step;
      }
    }
  }

  ghost function ChargeCount(txs: seq<Transaction>): nat -> int { (o: nat) => Charges(txs, o) }

  ghost function DeliveryCount(ds: seq<Delivery>): nat -> int { (o: nat) => Deliveries(ds, o) }

  lemma {:induction false} WeightedZero(terms: seq<Terms>, a: Account, count: nat -> int, n: nat)
    requires n <= |terms| && forall i :: 0 <= i < n ==> count(i) == 0
    ensures Weighted(terms, a, count, n) == 0
  {
    if n > 0 {
      WeightedZero(terms, a, count, n - 1);
      assert terms[n - 1].subtotal * 0 == 0;
    }
  }

  lemma {:induction false} ChargedByOrder(terms: seq<Terms>, txs: seq<Transaction>, a: Account)
    requires LinkedTxs(terms, txs)
    ensures Charged(terms, txs, a) == Weighted(terms, a, ChargeCount(txs), |terms|)
  {
    if |txs| == 0 {
      WeightedZero(terms, a, ChargeCount(txs), |terms|);
    } else {
      var rest, last := txs[..|txs| - 1], txs[|txs| - 1];
      assert txs == rest + [last];
      ChargedByOrder(terms, rest, a);
      TxAppended(terms, rest, last);
      var o := if last.orderId.Some? then last.orderId.value else |terms|;
      WeightedBump(terms, a, ChargeCount(rest), ChargeCount(txs), o, if Captured(last) then 1 else 0, |terms|);
    }
  }

  lemma {:induction false} SettledByOrder(terms: seq<Terms>, ds: seq<Delivery>, a: Account)
    requires LinkedDeliveries(terms, ds)
    ensures Settled(terms, ds, a) == Weighted(terms, a, DeliveryCount(ds), |terms|)
  {
    if |ds| == 0 {
      WeightedZero(terms, a, DeliveryCount(ds), |terms|);
    } else {
      var rest, last := ds[..|ds| - 1], ds[|ds| - 1];
      assert ds == rest + [last];
      SettledByOrder(terms, rest, a);
      DeliveryAppended(terms, rest, last);
      WeightedBump(
        terms, a, DeliveryCount(rest), DeliveryCount(ds), last.orderId, if last.status.Delivered? then 1 else 0, |terms|);
    }
  }

  /** If no order of the account settled more than it was charged, the difference covers order `o`. */
  lemma {:induction false} WeightedGap(
    terms: seq<Terms>, a: Account, more: nat -> int, less: nat -> int, o: OrderId, n: nat)
    requires n <= |terms|
    requires forall i :: 0 <= i < n ==> terms[i].subtotal >= 0
    requires forall i :: 0 <= i < n && terms[i].Payee() == a ==> less(i) <= more(i)
    requires o < n && terms[o].Payee() == a ==> less(o) < more(o)
    ensures Weighted(terms, a, more, n) - Weighted(terms, a, less, n)
         >= (if o < n && terms[o].Payee() == a then terms[o].subtotal else 0)
  {
    if n > 0 {
      WeightedGap(terms, a, more, less, o, n - 1);
      if terms[n - 1].Payee() == a {
        var extra := more(n - 1) - less(n - 1);
        assert terms[n - 1].subtotal * more(n - 1)
            == terms[n - 1].subtotal * less(n - 1) + terms[n - 1].subtotal * extra;
        assert terms[n - 1].subtotal * extra >= (if o == n - 1 then terms[n - 1].subtotal else 0);
      }
    }
  }

  /** No cash order of a card-only account is delivered. */
  lemma CashUndelivered(terms: seq<Terms>, ds: seq<Delivery>, a: Account, o: OrderId)
    requires LinkedDeliveries(terms, ds) && CashSettled(terms, ds, a) == 0
    requires o < |terms| && terms[o].Payee() == a && terms[o].payment.Cod?
    ensures Deliveries(ds, o) == 0
  {
    SumCovers(ds, CashSettledTo(terms, a));
    forall d | 0 <= d < |ds| ensures DeliveredFor(o)(ds[d]) <= 0 {
      assert CashSettledTo(terms, a)(ds[d]) <= 0;
    }
    SumCovers(ds, DeliveredFor(o));
    if Deliveries(ds, o) > 0 {
      var d := SumWitness(ds, DeliveredFor(o));
    }
  }

  /**
   * On a card-only account the handover of a paid, picked-up online order never fails: its money
   * is still pending, and the CHECKs and the INT range hold after the move.
   */
  lemma SettlementNeverTrips(cfg: Config, s: State, d: DeliveryId)
    requires LedgerOk(s) && FulfilmentOk(cfg, s) && BackedOk(s)
    requires d < |s.deliveries| && s.deliveries[d].Active()
    requires var terms := s.orders[s.deliveries[d].orderId].terms;
             terms.payment.Online? && CardOnly(TermsOf(s.orders), s.txs, s.deliveries, terms.Payee())
    ensures SettlePayment(s, s.deliveries[d].orderId).Ok? <==> HasCapturedCharge(s.txs, s.deliveries[d].orderId)
  {
    var o := s.deliveries[d].orderId;
    var all := TermsOf(s.orders);
    var a := s.orders[o].terms.Payee();
    if HasCapturedCharge(s.txs, o) {
      PaidOrderHasRow(s, o);
      CapturedIffCounted(s.txs, o);
      ActiveCounts(s.deliveries, d);
      forall i | 0 <= i < |all| && all[i].Payee() == a
        ensures Deliveries(s.deliveries, i) <= Charges(s.txs, i)
        ensures i == o ==> Deliveries(s.deliveries, i) < Charges(s.txs, i)
      {
        assert OrderAt(cfg, s.orders, s.txs, s.deliveries, i);
        if all[i].payment.Cod? {
          CashUndelivered(all, s.deliveries, a, i);
          SumCovers(s.txs, CapturedFor(i));
        }
      }
      ChargedByOrder(all, s.txs, a);
      SettledByOrder(all, s.deliveries, a);
      WeightedGap(all, a, ChargeCount(s.txs), DeliveryCount(s.deliveries), o, |all|);
      assert BackedAt(all, s.txs, s.deliveries, s.balances, a);
      assert LedgerAt(all, s.txs, s.balances, a);
      Solvent(s, a);
    }
  }
}
