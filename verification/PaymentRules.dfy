/** What the payment requests promise, told from the tables alone: refusals, and everything they write. */
module PaymentRules {
  import opened Domain
  import opened Requests

  predicate StorableAmount(x: int) { 0 < x <= 2_147_483_647 }

  predicate FitsBalance(b: Balance) {
    0 <= b.pending <= 2_147_483_647 && 0 <= b.available <= 2_147_483_647 && 0 <= b.totalEarned <= 2_147_483_647
  }

  function BalanceOf(s: State, a: Account): Balance {
    if a in s.balances then s.balances[a] else Balance(0, 0, 0)
  }

  /** Only the balance of `a` is written. */
  ghost predicate OnlyBalance(s: State, after: State, a: Account, b: Balance) {
    && after.balances.Keys == s.balances.Keys + {a}
    && after.balances[a] == b
    && forall other :: other in s.balances && other != a ==> after.balances[other] == s.balances[other]
  }

  /** A charge of the order that waits for its webhook. */
  predicate Waiting(s: State, t: TxId, o: OrderId) {
    t < |s.txs| && s.txs[t].orderId == Some(o) && s.txs[t].kind == Charge && s.txs[t].status == TxStatus.Pending
  }

  predicate NoneWaiting(s: State, o: OrderId) { forall t :: 0 <= t < |s.txs| ==> !Waiting(s, t, o) }

  /** Row `t` gets the status, and no other row is touched. */
  ghost predicate OnlyStatus(s: State, after: State, t: TxId, status: TxStatus) {
    && |after.txs| == |s.txs|
    && forall i :: 0 <= i < |s.txs| ==> after.txs[i] == if i == t then s.txs[i].(status := status) else s.txs[i]
  }

  // ── charging ──────────────────────────────────────────────────────────────

  /** The customer of an unpaid online order gets the transaction of the live session, or a new pending charge over its total. */
  lemma InitiatedExactly(s: State, customerId: nat, o: OrderId, cached: Option<TxId>, up: bool)
    ensures var after := InitPayment(s, customerId, o, cached, up);
            if o >= |s.orders| then after == Outcome(s, Err(OrderNotFound))
            else
              var order := s.orders[o];
              if order.terms.customerId != customerId then after == Outcome(s, Err(Forbidden))
              else if order.terms.payment != PaymentMethod.Online || order.status != PendingPayment then
                after == Outcome(s, Err(OrderNotPayable))
              else if cached.Some? then after == Outcome(s, Ok(cached.value))
              else if !up then after == Outcome(s, Err(ProviderUnavailable))
              else if !StorableAmount(order.terms.total) then after == Outcome(s, Err(ConstraintViolated))
              else
                && after.reply == Ok(|s.txs|)
                && after.state == s.(txs := after.state.txs)
                && after.state.txs == s.txs + [Transaction(
                     Some(o), Charge, TxStatus.Pending, order.terms.total, order.terms.currency, Some(customerId), None, None)]
  {
  }

  // ── webhooks ──────────────────────────────────────────────────────────────

  /** Interim statuses, broken connections and known events leave everything as it was. */
  lemma WebhookIgnoredExactly(s: State, w: Webhook)
    ensures w.verdict == Interim ==> HandleWebhook(s, w) == Outcome(s, Ok(Ignored))
    ensures w.verdict != Interim && w.faulty ==> HandleWebhook(s, w) == Outcome(s, Err(DatabaseFault))
    ensures w.verdict != Interim && !w.faulty && w.eventId in s.events ==> HandleWebhook(s, w) == Outcome(s, Ok(Duplicate))
  {
  }

  predicate News(s: State, w: Webhook) { w.verdict != Interim && !w.faulty && w.eventId !in s.events }

  /** With no charge waiting, or no such order, a new event is recorded as unprocessed, and that is all. */
  lemma WebhookWithoutCharge(s: State, w: Webhook)
    requires News(s, w) && (NoneWaiting(s, w.orderId) || w.orderId >= |s.orders|)
    ensures HandleWebhook(s, w) == Outcome(s.(events := s.events[w.eventId := false]), Ok(NothingPending))
  {
    assert forall t :: 0 <= t < |s.txs| ==> (Waiting(s, t, w.orderId) <==> IsPendingCharge(s.txs[t], w.orderId));
  }

  /** A failed payment fails exactly one waiting charge of its order and touches no order, balance or announcement. */
  lemma FailureExactly(s: State, w: Webhook)
    requires News(s, w) && w.verdict == Failure && !NoneWaiting(s, w.orderId) && w.orderId < |s.orders|
    ensures var after := HandleWebhook(s, w);
            && after.reply.Ok? && after.reply.value.Processed?
            && var t := after.reply.value.txId;
            && Waiting(s, t, w.orderId) && (Waiting(s, w.hint, w.orderId) ==> t == w.hint)
            && OnlyStatus(s, after.state, t, Failed)
            && after.state == s.(txs := after.state.txs, events := s.events[w.eventId := true])
  {
    assert forall t :: 0 <= t < |s.txs| ==> (Waiting(s, t, w.orderId) <==> IsPendingCharge(s.txs[t], w.orderId));
  }

  /** The balance of the order's restaurant once the subtotal is credited. */
  function Credited(s: State, o: OrderId): Balance
    requires o < |s.orders|
  {
    var terms := s.orders[o].terms;
    var b := BalanceOf(s, Account(terms.restaurantId, terms.currency));
    Balance(b.pending + terms.subtotal, b.available, b.totalEarned + terms.subtotal)
  }

  /**
   * A successful payment captures exactly one waiting charge of its order, places the order, credits
   * its subtotal as pending and announces the capture with the total; if the credited balance does
   * not fit, nothing happens at all.
   */
  lemma SuccessExactly(s: State, w: Webhook)
    requires News(s, w) && w.verdict == Success && !NoneWaiting(s, w.orderId) && w.orderId < |s.orders|
    ensures var after := HandleWebhook(s, w);
            var terms := s.orders[w.orderId].terms;
            if !FitsBalance(Credited(s, w.orderId)) then after == Outcome(s, Err(ConstraintViolated))
            else
              && after.reply.Ok? && after.reply.value.Processed?
              && var t := after.reply.value.txId;
              && Waiting(s, t, w.orderId) && (Waiting(s, w.hint, w.orderId) ==> t == w.hint)
              && OnlyStatus(s, after.state, t, Succeeded)
              && OnlyBalance(s, after.state, Account(terms.restaurantId, terms.currency), Credited(s, w.orderId))
              && after.state.orders == s.orders[w.orderId := s.orders[w.orderId].(status := Placed)]
              && after.state.outbox == s.outbox + [PaymentCompleted(w.orderId, t, terms.total)]
              && after.state == s.(txs := after.state.txs, events := s.events[w.eventId := true], orders := after.state.orders,
                                   balances := after.state.balances, outbox := after.state.outbox)
  {
    assert forall t :: 0 <= t < |s.txs| ==> (Waiting(s, t, w.orderId) <==> IsPendingCharge(s.txs[t], w.orderId));
  }

  // ── refunds ───────────────────────────────────────────────────────────────

  /** The refusals that come before the refund is tried. */
  lemma RefundRefusedExactly(s: State, t: TxId, amount: Option<int>)
    ensures var after := RefundPayment(s, t, amount);
            && (after.reply.Err? ==> after.state == s)
            && (after.reply == Err(TransactionNotFound) <==> t >= |s.txs|)
            && (after.reply == Err(PaymentAlreadyCompleted) <==>
                t < |s.txs| && !(s.txs[t].kind == Charge && s.txs[t].status == Succeeded && s.txs[t].refundedBy == None))
  {
  }

  /** The balance after a debit: pending first, then available, and the earnings in full. */
  function Debited(b: Balance, amount: int): Balance {
    if amount <= b.pending then Balance(b.pending - amount, b.available, b.totalEarned - amount)
    else Balance(0, b.available - (amount - b.pending), b.totalEarned - amount)
  }

  /**
   * A successful refund appends a pending refund row over the amount, to the customer, marks the
   * charge as refunded by that row, and debits the restaurant; no other row changes.
   */
  lemma RefundIsRecorded(s: State, t: TxId, amount: Option<int>)
    requires RefundPayment(s, t, amount).reply.Ok?
    ensures var after := RefundPayment(s, t, amount);
            var r := |s.txs|;
            var value := if amount == None then s.txs[t].amount else amount.value;
            && t < r && s.txs[t].orderId.Some? && s.txs[t].orderId.value < |s.orders|
            && StorableAmount(value)
            && after.reply == Ok(r) && |after.state.txs| == r + 1
            && after.state.txs[r] ==
               Transaction(s.txs[t].orderId, Refund, TxStatus.Pending, value, s.txs[t].currency, None, s.txs[t].source, None)
            && after.state.txs[t] == s.txs[t].(refundedBy := Some(r))
            && (forall i :: 0 <= i < r && i != t ==> after.state.txs[i] == s.txs[i])
            && var payee := Account(s.orders[s.txs[t].orderId.value].terms.restaurantId, s.txs[t].currency);
            && (payee in s.balances && FitsBalance(s.balances[payee]) ==>
                  OnlyBalance(s, after.state, payee, Debited(s.balances[payee], value)))
            && (payee !in s.balances ==> after.state.balances == s.balances)
            && after.state == s.(txs := after.state.txs, balances := after.state.balances)
  {
  }

  // ── payouts ───────────────────────────────────────────────────────────────

  /** A payout takes the amount from available only, and appends its pending row. */
  lemma PayoutIsRecorded(s: State, a: Account, amount: int)
    ensures var after := CreatePayout(s, a, amount);
            && (after.reply.Err? ==> after.state == s)
            && (after.reply == Err(InsufficientBalance) <==> a !in s.balances || s.balances[a].available < amount)
            && (after.reply.Ok? ==>
                  && a in s.balances && StorableAmount(amount)
                  && after.reply == Ok(|s.txs|)
                  && OnlyBalance(s, after.state, a, s.balances[a].(available := s.balances[a].available - amount))
                  && after.state.txs == s.txs + [Transaction(
                       None, TxKind.Payout, TxStatus.Pending, amount, a.currency, Some(a.restaurantId), None, None)]
                  && after.state == s.(txs := after.state.txs, balances := after.state.balances))
  {
  }
}
