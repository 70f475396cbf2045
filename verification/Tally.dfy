/** Counts and totals that are read off the tables, and how one write changes them. */
module Tally {
  import opened Domain
  import opened Sums

  function TermsOf(orders: seq<Order>): (terms: seq<Terms>)
    ensures |terms| == |orders|
    ensures forall o :: 0 <= o < |orders| ==> terms[o] == orders[o].terms
  {
    seq(|orders|, o requires 0 <= o < |orders| => orders[o].terms)
  }

  lemma TermsOfUpdate(orders: seq<Order>, o: OrderId, order: Order)
    requires o < |orders| && order.terms == orders[o].terms
    ensures TermsOf(orders[o := order]) == TermsOf(orders)
  {
  }

  lemma TermsOfAppend(orders: seq<Order>, order: Order)
    ensures TermsOf(orders + [order]) == TermsOf(orders) + [order.terms]
  {
  }

  /** The row belongs to an order whose earnings go to `account`. */
  predicate Serves(terms: seq<Terms>, orderId: Option<OrderId>, account: Account) {
    orderId.Some? && orderId.value < |terms| && terms[orderId.value].Payee() == account
  }

  // ── transactions ──────────────────────────────────────────────────────────

  predicate Captured(t: Transaction) { t.kind.Charge? && t.status.Succeeded? }

  function CapturedFor(o: OrderId): Transaction -> int {
    (t: Transaction) => if Captured(t) && t.orderId == Some(o) then 1 else 0
  }

  function CapturedTo(terms: seq<Terms>, account: Account): Transaction -> int {
    (t: Transaction) => if Captured(t) && Serves(terms, t.orderId, account) then 1 else 0
  }

  function SubtotalTo(terms: seq<Terms>, account: Account): Transaction -> int {
    (t: Transaction) =>
      if Captured(t) && Serves(terms, t.orderId, account) then terms[t.orderId.value].subtotal else 0
  }

  function RefundTo(terms: seq<Terms>, account: Account): Transaction -> int {
    (t: Transaction) => if t.kind.Refund? && Serves(terms, t.orderId, account) then 1 else 0
  }

  function RefundAmountTo(terms: seq<Terms>, account: Account): Transaction -> int {
    (t: Transaction) => if t.kind.Refund? && Serves(terms, t.orderId, account) then t.amount else 0
  }

  function PayoutAmountTo(account: Account): Transaction -> int {
    (t: Transaction) =>
      if t.kind.Payout? && t.source == Some(account.restaurantId) && t.currency == account.currency
      then t.amount else 0
  }

  /** Succeeded charges of order `o`. */
  function Charges(txs: seq<Transaction>, o: OrderId): int { Sum(txs, CapturedFor(o)) }

  /** Succeeded charges whose order pays `account`. */
  function ChargesTo(terms: seq<Terms>, txs: seq<Transaction>, account: Account): int {
    Sum(txs, CapturedTo(terms, account))
  }

  /** Subtotals of the succeeded charges of `account`. */
  function Charged(terms: seq<Terms>, txs: seq<Transaction>, account: Account): int {
    Sum(txs, SubtotalTo(terms, account))
  }

  function RefundsTo(terms: seq<Terms>, txs: seq<Transaction>, account: Account): int {
    Sum(txs, RefundTo(terms, account))
  }

  function Refunded(terms: seq<Terms>, txs: seq<Transaction>, account: Account): int {
    Sum(txs, RefundAmountTo(terms, account))
  }

  function PaidOut(txs: seq<Transaction>, account: Account): int { Sum(txs, PayoutAmountTo(account)) }

  lemma TxAppended(terms: seq<Terms>, txs: seq<Transaction>, t: Transaction)
    ensures forall o :: Charges(txs + [t], o) == Charges(txs, o) + CapturedFor(o)(t)
    ensures forall a :: ChargesTo(terms, txs + [t], a) == ChargesTo(terms, txs, a) + CapturedTo(terms, a)(t)
    ensures forall a :: Charged(terms, txs + [t], a) == Charged(terms, txs, a) + SubtotalTo(terms, a)(t)
    ensures forall a :: RefundsTo(terms, txs + [t], a) == RefundsTo(terms, txs, a) + RefundTo(terms, a)(t)
    ensures forall a :: Refunded(terms, txs + [t], a) == Refunded(terms, txs, a) + RefundAmountTo(terms, a)(t)
    ensures forall a :: PaidOut(txs + [t], a) == PaidOut(txs, a) + PayoutAmountTo(a)(t)
  {
    forall o ensures Charges(txs + [t], o) == Charges(txs, o) + CapturedFor(o)(t) {
      SumAppend(txs, t, CapturedFor(o));
    }
    forall a
      ensures ChargesTo(terms, txs + [t], a) == ChargesTo(terms, txs, a) + CapturedTo(terms, a)(t)
      ensures Charged(terms, txs + [t], a) == Charged(terms, txs, a) + SubtotalTo(terms, a)(t)
      ensures RefundsTo(terms, txs + [t], a) == RefundsTo(terms, txs, a) + RefundTo(terms, a)(t)
      ensures Refunded(terms, txs + [t], a) == Refunded(terms, txs, a) + RefundAmountTo(terms, a)(t)
      ensures PaidOut(txs + [t], a) == PaidOut(txs, a) + PayoutAmountTo(a)(t)
    {
      SumAppend(txs, t, CapturedTo(terms, a));
      SumAppend(txs, t, SubtotalTo(terms, a));
      SumAppend(txs, t, RefundTo(terms, a));
      SumAppend(txs, t, RefundAmountTo(terms, a));
      SumAppend(txs, t, PayoutAmountTo(a));
    }
  }

  /** Replacing row `i` by one of the same kind, order and amount can only change what is captured. */
  lemma TxUpdated(terms: seq<Terms>, txs: seq<Transaction>, i: TxId, t: Transaction)
    requires i < |txs|
    requires t.kind == txs[i].kind && t.orderId == txs[i].orderId && t.amount == txs[i].amount
    requires t.currency == txs[i].currency && t.source == txs[i].source
    ensures forall o :: Charges(txs[i := t], o) == Charges(txs, o) - CapturedFor(o)(txs[i]) + CapturedFor(o)(t)
    ensures forall a :: ChargesTo(terms, txs[i := t], a)
                     == ChargesTo(terms, txs, a) - CapturedTo(terms, a)(txs[i]) + CapturedTo(terms, a)(t)
    ensures forall a :: Charged(terms, txs[i := t], a)
                     == Charged(terms, txs, a) - SubtotalTo(terms, a)(txs[i]) + SubtotalTo(terms, a)(t)
    ensures forall a :: RefundsTo(terms, txs[i := t], a) == RefundsTo(terms, txs, a)
    ensures forall a :: Refunded(terms, txs[i := t], a) == Refunded(terms, txs, a)
    ensures forall a :: PaidOut(txs[i := t], a) == PaidOut(txs, a)
  {
    forall o ensures Charges(txs[i := t], o) == Charges(txs, o) - CapturedFor(o)(txs[i]) + CapturedFor(o)(t) {
      SumUpdate(txs, i, t, CapturedFor(o));
    }
    forall a
      ensures ChargesTo(terms, txs[i := t], a)
           == ChargesTo(terms, txs, a) - CapturedTo(terms, a)(txs[i]) + CapturedTo(terms, a)(t)
      ensures Charged(terms, txs[i := t], a)
           == Charged(terms, txs, a) - SubtotalTo(terms, a)(txs[i]) + SubtotalTo(terms, a)(t)
      ensures RefundsTo(terms, txs[i := t], a) == RefundsTo(terms, txs, a)
      ensures Refunded(terms, txs[i := t], a) == Refunded(terms, txs, a)
      ensures PaidOut(txs[i := t], a) == PaidOut(txs, a)
    {
      SumUpdate(txs, i, t, CapturedTo(terms, a));
      SumUpdate(txs, i, t, SubtotalTo(terms, a));
      SumUpdate(txs, i, t, RefundTo(terms, a));
      SumUpdate(txs, i, t, RefundAmountTo(terms, a));
      SumUpdate(txs, i, t, PayoutAmountTo(a));
    }
  }

  // ── deliveries ────────────────────────────────────────────────────────────

  function ActiveFor(o: OrderId): Delivery -> int {
    (d: Delivery) => if d.orderId == o && d.Active() then 1 else 0
  }

  function DeliveredFor(o: OrderId): Delivery -> int {
    (d: Delivery) => if d.orderId == o && d.status.Delivered? then 1 else 0
  }

  function ReassignedFor(o: OrderId): Delivery -> int {
    (d: Delivery) => if d.orderId == o && d.status.Reassigned? then 1 else 0
  }

  function CarriedBy(agent: AgentId): Delivery -> int {
    (d: Delivery) => if d.agentId == agent && d.Active() then 1 else 0
  }

  function SettledTo(terms: seq<Terms>, account: Account): Delivery -> int {
    (d: Delivery) =>
      if d.status.Delivered? && Serves(terms, Some(d.orderId), account) then terms[d.orderId].subtotal else 0
  }

  function CashSettledTo(terms: seq<Terms>, account: Account): Delivery -> int {
    (d: Delivery) =>
      if d.status.Delivered? && Serves(terms, Some(d.orderId), account) && terms[d.orderId].payment.Cod?
      then 1 else 0
  }

  function ActiveDeliveries(ds: seq<Delivery>, o: OrderId): int { Sum(ds, ActiveFor(o)) }

  function Deliveries(ds: seq<Delivery>, o: OrderId): int { Sum(ds, DeliveredFor(o)) }

  function Reassignments(ds: seq<Delivery>, o: OrderId): int { Sum(ds, ReassignedFor(o)) }

  /** Deliveries the agent is on right now. */
  function Carried(ds: seq<Delivery>, agent: AgentId): int { Sum(ds, CarriedBy(agent)) }

  /** Subtotals of the delivered deliveries of `account`. */
  function Settled(terms: seq<Terms>, ds: seq<Delivery>, account: Account): int {
    Sum(ds, SettledTo(terms, account))
  }

  /** Delivered cash orders of `account`. */
  function CashSettled(terms: seq<Terms>, ds: seq<Delivery>, account: Account): int {
    Sum(ds, CashSettledTo(terms, account))
  }

  lemma DeliveryAppended(terms: seq<Terms>, ds: seq<Delivery>, d: Delivery)
    ensures forall o :: ActiveDeliveries(ds + [d], o) == ActiveDeliveries(ds, o) + ActiveFor(o)(d)
    ensures forall o :: Deliveries(ds + [d], o) == Deliveries(ds, o) + DeliveredFor(o)(d)
    ensures forall o :: Reassignments(ds + [d], o) == Reassignments(ds, o) + ReassignedFor(o)(d)
    ensures forall g :: Carried(ds + [d], g) == Carried(ds, g) + CarriedBy(g)(d)
    ensures forall a :: Settled(terms, ds + [d], a) == Settled(terms, ds, a) + SettledTo(terms, a)(d)
    ensures forall a :: CashSettled(terms, ds + [d], a) == CashSettled(terms, ds, a) + CashSettledTo(terms, a)(d)
  {
    forall o
      ensures ActiveDeliveries(ds + [d], o) == ActiveDeliveries(ds, o) + ActiveFor(o)(d)
      ensures Deliveries(ds + [d], o) == Deliveries(ds, o) + DeliveredFor(o)(d)
      ensures Reassignments(ds + [d], o) == Reassignments(ds, o) + ReassignedFor(o)(d)
      ensures Carried(ds + [d], o) == Carried(ds, o) + CarriedBy(o)(d)
    {
      SumAppend(ds, d, ActiveFor(o));
      SumAppend(ds, d, DeliveredFor(o));
      SumAppend(ds, d, ReassignedFor(o));
      SumAppend(ds, d, CarriedBy(o));
    }
    forall a
      ensures Settled(terms, ds + [d], a) == Settled(terms, ds, a) + SettledTo(terms, a)(d)
      ensures CashSettled(terms, ds + [d], a) == CashSettled(terms, ds, a) + CashSettledTo(terms, a)(d)
    {
      SumAppend(ds, d, SettledTo(terms, a));
      SumAppend(ds, d, CashSettledTo(terms, a));
    }
  }

  lemma DeliveryUpdated(terms: seq<Terms>, ds: seq<Delivery>, i: DeliveryId, d: Delivery)
    requires i < |ds|
    ensures forall o :: ActiveDeliveries(ds[i := d], o)
                     == ActiveDeliveries(ds, o) - ActiveFor(o)(ds[i]) + ActiveFor(o)(d)
    ensures forall o :: Deliveries(ds[i := d], o) == Deliveries(ds, o) - DeliveredFor(o)(ds[i]) + DeliveredFor(o)(d)
    ensures forall o :: Reassignments(ds[i := d], o)
                     == Reassignments(ds, o) - ReassignedFor(o)(ds[i]) + ReassignedFor(o)(d)
    ensures forall g :: Carried(ds[i := d], g) == Carried(ds, g) - CarriedBy(g)(ds[i]) + CarriedBy(g)(d)
    ensures forall a :: Settled(terms, ds[i := d], a)
                     == Settled(terms, ds, a) - SettledTo(terms, a)(ds[i]) + SettledTo(terms, a)(d)
    ensures forall a :: CashSettled(terms, ds[i := d], a)
                     == CashSettled(terms, ds, a) - CashSettledTo(terms, a)(ds[i]) + CashSettledTo(terms, a)(d)
  {
    forall o
      ensures ActiveDeliveries(ds[i := d], o) == ActiveDeliveries(ds, o) - ActiveFor(o)(ds[i]) + ActiveFor(o)(d)
      ensures Deliveries(ds[i := d], o) == Deliveries(ds, o) - DeliveredFor(o)(ds[i]) + DeliveredFor(o)(d)
      ensures Reassignments(ds[i := d], o) == Reassignments(ds, o) - ReassignedFor(o)(ds[i]) + ReassignedFor(o)(d)
      ensures Carried(ds[i := d], o) == Carried(ds, o) - CarriedBy(o)(ds[i]) + CarriedBy(o)(d)
    {
      SumUpdate(ds, i, d, ActiveFor(o));
      SumUpdate(ds, i, d, DeliveredFor(o));
      SumUpdate(ds, i, d, ReassignedFor(o));
      SumUpdate(ds, i, d, CarriedBy(o));
    }
    forall a
      ensures Settled(terms, ds[i := d], a)
           == Settled(terms, ds, a) - SettledTo(terms, a)(ds[i]) + SettledTo(terms, a)(d)
      ensures CashSettled(terms, ds[i := d], a)
           == CashSettled(terms, ds, a) - CashSettledTo(terms, a)(ds[i]) + CashSettledTo(terms, a)(d)
    {
      SumUpdate(ds, i, d, SettledTo(terms, a));
      SumUpdate(ds, i, d, CashSettledTo(terms, a));
    }
  }

  /** An active delivery of the order shows in the count, and two of them make it two. */
  lemma ActiveCounts(ds: seq<Delivery>, i: DeliveryId)
    requires i < |ds| && ds[i].Active()
    ensures ActiveDeliveries(ds, ds[i].orderId) >= 1
    ensures Carried(ds, ds[i].agentId) >= 1
  {
    SumCovers(ds, ActiveFor(ds[i].orderId));
    assert ActiveFor(ds[i].orderId)(ds[i]) == 1;
    SumCovers(ds, CarriedBy(ds[i].agentId));
    assert CarriedBy(ds[i].agentId)(ds[i]) == 1;
  }

  // ── outbox ────────────────────────────────────────────────────────────────

  function PlacedOn(o: OrderId): Event -> int { (e: Event) => if e == OrderPlaced(o) then 1 else 0 }

  function CompletedOn(o: OrderId): Event -> int {
    (e: Event) => if e.PaymentCompleted? && e.orderId == o then 1 else 0
  }

  function CompletedBy(t: TxId): Event -> int {
    (e: Event) => if e.PaymentCompleted? && e.txId == t then 1 else 0
  }

  function DeliveredOn(o: OrderId): Event -> int {
    (e: Event) => if e.OrderDelivered? && e.orderId == o then 1 else 0
  }

  function PlacedRows(outbox: seq<Event>, o: OrderId): int { Sum(outbox, PlacedOn(o)) }

  function CompletedRows(outbox: seq<Event>, o: OrderId): int { Sum(outbox, CompletedOn(o)) }

  function CompletedRowsOf(outbox: seq<Event>, t: TxId): int { Sum(outbox, CompletedBy(t)) }

  function DeliveredRows(outbox: seq<Event>, o: OrderId): int { Sum(outbox, DeliveredOn(o)) }

  lemma EventAppended(outbox: seq<Event>, e: Event)
    ensures forall o :: PlacedRows(outbox + [e], o) == PlacedRows(outbox, o) + PlacedOn(o)(e)
    ensures forall o :: CompletedRows(outbox + [e], o) == CompletedRows(outbox, o) + CompletedOn(o)(e)
    ensures forall t :: CompletedRowsOf(outbox + [e], t) == CompletedRowsOf(outbox, t) + CompletedBy(t)(e)
    ensures forall o :: DeliveredRows(outbox + [e], o) == DeliveredRows(outbox, o) + DeliveredOn(o)(e)
  {
    forall o: nat
      ensures PlacedRows(outbox + [e], o) == PlacedRows(outbox, o) + PlacedOn(o)(e)
      ensures CompletedRows(outbox + [e], o) == CompletedRows(outbox, o) + CompletedOn(o)(e)
      ensures CompletedRowsOf(outbox + [e], o) == CompletedRowsOf(outbox, o) + CompletedBy(o)(e)
      ensures DeliveredRows(outbox + [e], o) == DeliveredRows(outbox, o) + DeliveredOn(o)(e)
    {
      SumAppend(outbox, e, PlacedOn(o));
      SumAppend(outbox, e, CompletedOn(o));
      SumAppend(outbox, e, CompletedBy(o));
      SumAppend(outbox, e, DeliveredOn(o));
    }
  }

  lemma NoActiveCounts(ds: seq<Delivery>, o: OrderId)
    requires forall d :: 0 <= d < |ds| ==> !(ds[d].orderId == o && ds[d].Active())
    ensures ActiveDeliveries(ds, o) == 0
  {
    SumCovers(ds, ActiveFor(o));
    if ActiveDeliveries(ds, o) > 0 {
      var d := SumWitness(ds, ActiveFor(o));
    }
  }

  // ── a new order leaves every total alone ──────────────────────────────────

  ghost predicate LinkedTxs(terms: seq<Terms>, txs: seq<Transaction>) {
    forall t :: 0 <= t < |txs| && txs[t].orderId.Some? ==> txs[t].orderId.value < |terms|
  }

  ghost predicate LinkedDeliveries(terms: seq<Terms>, ds: seq<Delivery>) {
    forall d :: 0 <= d < |ds| ==> ds[d].orderId < |terms|
  }

  lemma OrderAppended(terms: seq<Terms>, added: Terms, txs: seq<Transaction>, ds: seq<Delivery>)
    requires LinkedTxs(terms, txs) && LinkedDeliveries(terms, ds)
    ensures forall a :: ChargesTo(terms + [added], txs, a) == ChargesTo(terms, txs, a)
    ensures forall a :: Charged(terms + [added], txs, a) == Charged(terms, txs, a)
    ensures forall a :: RefundsTo(terms + [added], txs, a) == RefundsTo(terms, txs, a)
    ensures forall a :: Refunded(terms + [added], txs, a) == Refunded(terms, txs, a)
    ensures forall a :: Settled(terms + [added], ds, a) == Settled(terms, ds, a)
    ensures forall a :: CashSettled(terms + [added], ds, a) == CashSettled(terms, ds, a)
  {
    var more := terms + [added];
    forall a
      ensures ChargesTo(more, txs, a) == ChargesTo(terms, txs, a)
      ensures Charged(more, txs, a) == Charged(terms, txs, a)
      ensures RefundsTo(more, txs, a) == RefundsTo(terms, txs, a)
      ensures Refunded(more, txs, a) == Refunded(terms, txs, a)
      ensures Settled(more, ds, a) == Settled(terms, ds, a)
      ensures CashSettled(more, ds, a) == CashSettled(terms, ds, a)
    {
      SumAgree(txs, CapturedTo(more, a), CapturedTo(terms, a));
      SumAgree(txs, SubtotalTo(more, a), SubtotalTo(terms, a));
      SumAgree(txs, RefundTo(more, a), RefundTo(terms, a));
      SumAgree(txs, RefundAmountTo(more, a), RefundAmountTo(terms, a));
      SumAgree(ds, SettledTo(more, a), SettledTo(terms, a));
      SumAgree(ds, CashSettledTo(more, a), CashSettledTo(terms, a));
    }
  }
}
