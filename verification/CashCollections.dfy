/** The cash of an order: one collection row from the start, collected exactly when the order is handed over. */
module CashCollections {
  import opened Domain
  import opened Sums
  import opened Tally
  import opened Requests
  import opened Fulfilment
  import opened Runs
  import opened Guarantees

  predicate IsCollection(t: Transaction, o: OrderId) { t.kind == CodCollection && t.orderId == Some(o) }

  function CollectionOf(o: OrderId): Transaction -> int {
    (t: Transaction) => if IsCollection(t, o) then 1 else 0
  }

  function CollectedOf(o: OrderId): Transaction -> int {
    (t: Transaction) => if IsCollection(t, o) && t.status == Succeeded then 1 else 0
  }

  /** Collection rows of the order, and how many of them are collected. */
  function Collections(txs: seq<Transaction>, o: OrderId): int { Sum(txs, CollectionOf(o)) }

  function Collected(txs: seq<Transaction>, o: OrderId): int { Sum(txs, CollectedOf(o)) }

  ghost predicate CashAt(orders: seq<Order>, txs: seq<Transaction>, ds: seq<Delivery>, o: OrderId) {
    if o < |orders| && orders[o].terms.payment == Cod then
      Collections(txs, o) == 1 && Collected(txs, o) == (if Deliveries(ds, o) > 0 then 1 else 0)
    else
      Collections(txs, o) == 0
  }

  /** Every collection row is over its order's total, and pending or succeeded. */
  ghost predicate CashRow(orders: seq<Order>, t: Transaction) {
    t.kind == CodCollection ==>
      && t.orderId.Some? && t.orderId.value < |orders|
      && t.amount == orders[t.orderId.value].terms.total
      && (t.status == TxStatus.Pending || t.status == Succeeded)
  }

  ghost predicate Cash(orders: seq<Order>, txs: seq<Transaction>, ds: seq<Delivery>) {
    && (forall t :: 0 <= t < |txs| ==> CashRow(orders, txs[t]))
    && (forall o :: CashAt(orders, txs, ds, o))
  }

  ghost predicate CashOk(s: State) { Cash(s.orders, s.txs, s.deliveries) }

  lemma CollectionsAppended(txs: seq<Transaction>, t: Transaction, o: OrderId)
    ensures Collections(txs + [t], o) == Collections(txs, o) + CollectionOf(o)(t)
    ensures Collected(txs + [t], o) == Collected(txs, o) + CollectedOf(o)(t)
  {
    SumAppend(txs, t, CollectionOf(o));
    SumAppend(txs, t, CollectedOf(o));
  }

  lemma CollectionsUpdated(txs: seq<Transaction>, i: TxId, t: Transaction, o: OrderId)
    requires i < |txs|
    ensures Collections(txs[i := t], o) == Collections(txs, o) - CollectionOf(o)(txs[i]) + CollectionOf(o)(t)
    ensures Collected(txs[i := t], o) == Collected(txs, o) - CollectedOf(o)(txs[i]) + CollectedOf(o)(t)
  {
    SumUpdate(txs, i, t, CollectionOf(o));
    SumUpdate(txs, i, t, CollectedOf(o));
  }

  // ── the writes ────────────────────────────────────────────────────────────

  /** Orders keep their terms, and no delivery is handed over. */
  lemma CashKept(
    orders: seq<Order>, txs: seq<Transaction>, ds: seq<Delivery>, orders': seq<Order>, ds': seq<Delivery>)
    requires Cash(orders, txs, ds) && TermsOf(orders') == TermsOf(orders)
    requires forall o :: Deliveries(ds', o) == Deliveries(ds, o)
    ensures Cash(orders', txs, ds')
  {
    assert |orders'| == |orders| && forall o :: 0 <= o < |orders| ==> orders'[o].terms == orders[o].terms by {
      assert forall o :: 0 <= o < |orders| ==> TermsOf(orders')[o] == TermsOf(orders)[o];
    }
    forall o ensures CashAt(orders', txs, ds', o) {
      assert CashAt(orders, txs, ds, o);
    }
    forall t | 0 <= t < |txs| ensures CashRow(orders', txs[t]) {
      assert CashRow(orders, txs[t]);
    }
  }

  /** A row that is no collection is appended. */
  lemma OtherAppended(orders: seq<Order>, txs: seq<Transaction>, ds: seq<Delivery>, t: Transaction)
    requires Cash(orders, txs, ds) && t.kind != CodCollection
    ensures Cash(orders, txs + [t], ds)
  {
    forall o ensures CashAt(orders, txs + [t], ds, o) {
      CollectionsAppended(txs, t, o);
      assert CashAt(orders, txs, ds, o);
    }
  }

  /** A row that is no collection is updated, and stays none. */
  lemma OtherUpdated(orders: seq<Order>, txs: seq<Transaction>, ds: seq<Delivery>, i: TxId, t: Transaction)
    requires Cash(orders, txs, ds) && i < |txs| && txs[i].kind != CodCollection && t.kind != CodCollection
    ensures Cash(orders, txs[i := t], ds)
  {
    var after := txs[i := t];
    forall o ensures CashAt(orders, after, ds, o) {
      CollectionsUpdated(txs, i, t, o);
      assert CashAt(orders, txs, ds, o);
    }
  }

  lemma NewOrder(cfg: Config, s: State, order: Order)
    requires CashOk(s) && FulfilmentOk(cfg, s)
    requires order.terms.payment == PaymentMethod.Online
    ensures Cash(s.orders + [order], s.txs, s.deliveries)
  {
    var orders := s.orders + [order];
    forall o ensures CashAt(orders, s.txs, s.deliveries, o) {
      assert CashAt(s.orders, s.txs, s.deliveries, o);
    }
    forall t | 0 <= t < |s.txs| ensures CashRow(orders, s.txs[t]) {
      assert CashRow(s.orders, s.txs[t]);
    }
  }

  lemma NewCashOrder(cfg: Config, s: State, order: Order, t: Transaction)
    requires CashOk(s) && FulfilmentOk(cfg, s)
    requires order.terms.payment == Cod && IsCollection(t, |s.orders|)
    requires t.status == TxStatus.Pending && t.amount == order.terms.total
    ensures Cash(s.orders + [order], s.txs + [t], s.deliveries)
  {
    var orders, txs := s.orders + [order], s.txs + [t];
    assert OrderAt(cfg, s.orders, s.txs, s.deliveries, |s.orders|);
    CollectedAmong(s.txs, |s.orders|);
    forall o ensures CashAt(orders, txs, s.deliveries, o) {
      CollectionsAppended(s.txs, t, o);
      assert CashAt(s.orders, s.txs, s.deliveries, o);
    }
    forall i | 0 <= i < |txs| ensures CashRow(orders, txs[i]) {
      if i < |s.txs| {
        assert CashRow(s.orders, s.txs[i]);
      }
    }
  }

  lemma {:induction false} CollectedAmong(txs: seq<Transaction>, o: OrderId)
    ensures 0 <= Collected(txs, o) <= Collections(txs, o)
  {
    if |txs| > 0 {
      CollectedAmong(txs[..|txs| - 1], o);
    }
  }

  /** An order is handed over: its pending collection, if it is a cash order's first handover, is collected. */
  lemma HandedOver(s: State, d: DeliveryId, row: Delivery, txs: seq<Transaction>)
    requires CashOk(s) && d < |s.deliveries| && s.deliveries[d].orderId < |s.orders|
    requires row.orderId == s.deliveries[d].orderId && row.status == DeliveryStatus.Delivered
    requires s.deliveries[d].status != DeliveryStatus.Delivered
    requires var o := row.orderId;
             var collection := FirstPendingCollection(s.txs, o, 0);
             txs == if s.orders[o].terms.payment == Cod && collection.Some?
                    then s.txs[collection.value := s.txs[collection.value].(status := Succeeded)]
                    else s.txs
    ensures Cash(s.orders, txs, s.deliveries[d := row])
  {
    var o := row.orderId;
    var ds := s.deliveries[d := row];
    var collection := FirstPendingCollection(s.txs, o, 0);
    DeliveryUpdated([], s.deliveries, d, row);
    DeliveriesCount(s.deliveries, o);
    if s.orders[o].terms.payment == Cod && collection.Some? {
      var t := collection.value;
      forall p ensures CashAt(s.orders, txs, ds, p) {
        assert CashAt(s.orders, s.txs, s.deliveries, p);
        CollectionsUpdated(s.txs, t, txs[t], p);
        if p == o {
          UncollectedWaits(s.txs, o, t);
        }
      }
      forall i | 0 <= i < |txs| ensures CashRow(s.orders, txs[i]) {
        assert CashRow(s.orders, s.txs[i]);
      }
    } else {
      forall p ensures CashAt(s.orders, txs, ds, p) {
        assert CashAt(s.orders, s.txs, s.deliveries, p);
        if p == o && s.orders[o].terms.payment == Cod {
          NothingPendingIsCollected(s, o);
        }
      }
    }
  }

  lemma DeliveriesCount(ds: seq<Delivery>, o: OrderId)
    ensures Deliveries(ds, o) >= 0
  {
    SumCovers(ds, DeliveredFor(o));
  }

  /** A single collection row that is still pending is not collected. */
  lemma UncollectedWaits(txs: seq<Transaction>, o: OrderId, t: TxId)
    requires Collections(txs, o) == 1 && t < |txs| && IsCollection(txs[t], o) && txs[t].status != Succeeded
    ensures Collected(txs, o) == 0
  {
    CollectedAmong(txs, o);
    if Collected(txs, o) > 0 {
      var u := SumWitness(txs, CollectedOf(o));
      assert CollectionOf(o)(txs[t]) == CollectionOf(o)(txs[u]) == 1;
      if t < u {
        SumCoversTwo(txs, t, u, CollectionOf(o));
      } else {
        SumCoversTwo(txs, u, t, CollectionOf(o));
      }
    }
  }

  lemma NothingPendingIsCollected(s: State, o: OrderId)
    requires CashOk(s) && o < |s.orders| && s.orders[o].terms.payment == Cod
    requires FirstPendingCollection(s.txs, o, 0).None?
    ensures Collected(s.txs, o) == 1
  {
    assert CashAt(s.orders, s.txs, s.deliveries, o);
    var t := SumWitness(s.txs, CollectionOf(o));
    assert CashRow(s.orders, s.txs[t]);
    SumCovers(s.txs, CollectedOf(o));
    assert CollectedOf(o)(s.txs[t]) == 1;
    CollectedAmong(s.txs, o);
  }

  // ── the requests ──────────────────────────────────────────────────────────

  lemma PlaceCash(cfg: Config, s: State, cart: Cart, fees: Fees)
    requires CashOk(s) && FulfilmentOk(cfg, s)
    ensures CashOk(PlaceOrder(s, cart, fees).state)
  {
    var after := PlaceOrder(s, cart, fees).state;
    if |after.orders| > |s.orders| {
      if cart.payment == Cod {
        NewCashOrder(cfg, s, after.orders[|s.orders|], after.txs[|s.txs|]);
      } else {
        NewOrder(cfg, s, after.orders[|s.orders|]);
      }
    }
  }

  lemma HookCash(s: State, w: Webhook)
    requires CashOk(s)
    ensures CashOk(HandleWebhook(s, w).state)
  {
    var after := HandleWebhook(s, w).state;
    var pending := PickPendingCharge(s.txs, w.orderId, w.hint);
    HookKeepsTerms(s, w);
    if pending.Some? && after.txs != s.txs {
      OtherUpdated(s.orders, s.txs, s.deliveries, pending.value, after.txs[pending.value]);
    }
    CashKept(s.orders, after.txs, s.deliveries, after.orders, s.deliveries);
  }

  lemma RefundCash(s: State, t: TxId, amount: Option<int>)
    requires CashOk(s)
    ensures CashOk(RefundPayment(s, t, amount).state)
  {
    var after := RefundPayment(s, t, amount);
    if after.reply.Ok? {
      var refund := after.state.txs[|s.txs|];
      OtherAppended(s.orders, s.txs, s.deliveries, refund);
      OtherUpdated(s.orders, s.txs + [refund], s.deliveries, t, after.state.txs[t]);
    }
  }

  lemma AssignCash(s: State, o: OrderId, choice: Choice)
    requires CashOk(s)
    ensures CashOk(AssignDelivery(s, o, choice).state)
  {
    var after := AssignDelivery(s, o, choice);
    if after.reply.Ok? {
      DeliveryAppended([], s.deliveries, after.state.deliveries[|s.deliveries|]);
      TermsOfUpdate(s.orders, o, after.state.orders[o]);
      CashKept(s.orders, s.txs, s.deliveries, after.state.orders, after.state.deliveries);
    }
  }

  lemma ReassignCash(cfg: Config, s: State, o: OrderId, choice: Choice)
    requires CashOk(s)
    ensures CashOk(ReassignDelivery(cfg, s, o, choice).state)
  {
    var active := FindActiveDelivery(s.deliveries, o);
    if o < |s.orders| && s.orders[o].reassignments < cfg.maxReassignments && active.Some? {
      var released := ReleaseDelivery(s, active.value);
      DeliveryUpdated([], s.deliveries, active.value, released.deliveries[active.value]);
      TermsOfUpdate(s.orders, o, released.orders[o]);
      CashKept(s.orders, s.txs, s.deliveries, released.orders, released.deliveries);
      AssignCash(released, o, choice);
    }
  }

  lemma ProgressCash(cfg: Config, s: State, d: DeliveryId, agent: AgentId, to: DeliveryStatus, reason: bool)
    requires CashOk(s)
    ensures CashOk(UpdateDeliveryStatus(cfg, s, d, agent, to, reason).state)
  {
    var after := UpdateDeliveryStatus(cfg, s, d, agent, to, reason);
    if after.reply.Ok? {
      var o := s.deliveries[d].orderId;
      TermsOfUpdate(s.orders, o, after.state.orders[o]);
      if to.Delivered? {
        HandedOver(s, d, after.state.deliveries[d], after.state.txs);
        CashKept(s.orders, after.state.txs, after.state.deliveries, after.state.orders, after.state.deliveries);
      } else {
        DeliveryUpdated([], s.deliveries, d, after.state.deliveries[d]);
        CashKept(s.orders, s.txs, s.deliveries, after.state.orders, after.state.deliveries);
      }
    }
  }

  lemma StepCash(cfg: Config, s: State, step: Step)
    requires CashOk(s) && FulfilmentOk(cfg, s)
    ensures CashOk(Apply(cfg, s, step))
  {
    var after := Apply(cfg, s, step);
    match step
    case Place(cart, fees) => PlaceCash(cfg, s, cart, fees);
    case Init(_, _, _, _) => if after.txs != s.txs { OtherAppended(s.orders, s.txs, s.deliveries, after.txs[|s.txs|]); }
    case Pay(_, _) => if after.txs != s.txs { OtherAppended(s.orders, s.txs, s.deliveries, after.txs[|s.txs|]); }
    case Hook(w) => HookCash(s, w);
    case Refund(t, amount) => RefundCash(s, t, amount);
    case Assign(o, choice) => AssignCash(s, o, choice);
    case Reassign(o, choice) => ReassignCash(cfg, s, o, choice);
    case Progress(d, agent, to, reason) => ProgressCash(cfg, s, d, agent, to, reason);
    case _ =>
      if OrdersOnly(step) {
        OrdersOnlyKeepsTerms(cfg, s, step);
        CashKept(s.orders, s.txs, s.deliveries, after.orders, s.deliveries);
      }
  }

  lemma {:induction false} RunKeepsCash(cfg: Config, steps: seq<Step>)
    ensures CashOk(Reached(cfg, steps))
  {
    if |steps| > 0 {
      var earlier := steps[..|steps| - 1];
      RunKeepsCash(cfg, earlier);
      RunKeepsInvariant(cfg, earlier);
      StepCash(cfg, Reached(cfg, earlier), steps[|steps| - 1]);
    }
  }

  /** Some delivery of the order was handed over. */
  predicate HandedOverOnce(s: State, o: OrderId) {
    exists d :: 0 <= d < |s.deliveries| && s.deliveries[d].orderId == o && s.deliveries[d].status == DeliveryStatus.Delivered
  }

  lemma DeliveriesExactly(s: State, o: OrderId)
    ensures Deliveries(s.deliveries, o) > 0 <==> HandedOverOnce(s, o)
  {
    SumCovers(s.deliveries, DeliveredFor(o));
    if Deliveries(s.deliveries, o) > 0 {
      var d := SumWitness(s.deliveries, DeliveredFor(o));
    }
    if HandedOverOnce(s, o) {
      var d :| 0 <= d < |s.deliveries| && s.deliveries[d].orderId == o && s.deliveries[d].status == DeliveryStatus.Delivered;
      assert DeliveredFor(o)(s.deliveries[d]) == 1;
    }
  }

  /**
   * In every run a cash order has exactly one collection row, over its total, and it is succeeded if
   * the order has been handed over and pending otherwise; an online order has none.
   */
  lemma CashIsCollectedExactly(cfg: Config, steps: seq<Step>, o: OrderId)
    requires o < |Reached(cfg, steps).orders|
    ensures var s := Reached(cfg, steps);
            if s.orders[o].terms.payment == PaymentMethod.Online
            then forall t :: 0 <= t < |s.txs| ==> !IsCollection(s.txs[t], o)
            else exists t :: 0 <= t < |s.txs| && OnlyCollection(s, o, t)
  {
    var s := Reached(cfg, steps);
    RunKeepsCash(cfg, steps);
    assert CashAt(s.orders, s.txs, s.deliveries, o);
    DeliveriesExactly(s, o);
    SumCovers(s.txs, CollectionOf(o));
    if s.orders[o].terms.payment == PaymentMethod.Online {
      forall t | 0 <= t < |s.txs| ensures !IsCollection(s.txs[t], o) {
        assert CollectionOf(o)(s.txs[t]) <= 0;
      }
    } else {
      var t := SumWitness(s.txs, CollectionOf(o));
      TheOnlyOne(s, o, t);
    }
  }

  /** Row `t` is the order's collection row, the only one, and as far along as the order. */
  ghost predicate OnlyCollection(s: State, o: OrderId, t: TxId)
    requires o < |s.orders| && t < |s.txs|
  {
    && IsCollection(s.txs[t], o)
    && s.txs[t].amount == s.orders[o].terms.total
    && s.txs[t].status == (if HandedOverOnce(s, o) then Succeeded else TxStatus.Pending)
    && forall u :: 0 <= u < |s.txs| && IsCollection(s.txs[u], o) ==> u == t
  }

  lemma TheOnlyOne(s: State, o: OrderId, t: TxId)
    requires CashOk(s) && o < |s.orders| && s.orders[o].terms.payment == Cod && t < |s.txs| && IsCollection(s.txs[t], o)
    ensures OnlyCollection(s, o, t)
  {
    assert CashAt(s.orders, s.txs, s.deliveries, o) && CashRow(s.orders, s.txs[t]);
    DeliveriesExactly(s, o);
    forall u | 0 <= u < |s.txs| && IsCollection(s.txs[u], o) ensures u == t {
      assert CollectionOf(o)(s.txs[u]) == CollectionOf(o)(s.txs[t]) == 1;
      if u < t {
        SumCoversTwo(s.txs, u, t, CollectionOf(o));
      } else if t < u {
        SumCoversTwo(s.txs, t, u, CollectionOf(o));
      }
    }
    if s.txs[t].status == Succeeded {
      SumCovers(s.txs, CollectedOf(o));
      assert CollectedOf(o)(s.txs[t]) == 1;
    } else {
      UncollectedWaits(s.txs, o, t);
    }
  }
}
