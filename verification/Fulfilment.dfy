/**
 * How the deliveries of an order, its charges and its status hang together: at most one delivery
 * is under way, and nothing is handed over that no charge backs.
 */
module Fulfilment {
  import opened Domain
  import opened Sums
  import opened Tally
  import opened Requests

  ghost predicate Closed(status: OrderStatus) { status.Delivered? || status.Cancelled? }

  ghost predicate OrderAt(cfg: Config, orders: seq<Order>, txs: seq<Transaction>, ds: seq<Delivery>, o: OrderId) {
    var charges, delivered := Charges(txs, o), Deliveries(ds, o);
    var active, reassigned := ActiveDeliveries(ds, o), Reassignments(ds, o);
    if o < |orders| then
      && active <= 1
      && reassigned == orders[o].reassignments <= cfg.maxReassignments
      && 0 <= delivered
      && (orders[o].terms.payment.Online? ==>
            && delivered <= charges
            // only a closed order may have used up its charges, and then nobody carries it
            && (delivered == 0 || delivered < charges || (active == 0 && Closed(orders[o].status))))
      && (orders[o].status.Delivered? ==> delivered > 0)
    else
      charges == delivered == active == reassigned == 0
  }

  ghost predicate Consistent(cfg: Config, orders: seq<Order>, txs: seq<Transaction>, ds: seq<Delivery>) {
    && (forall d :: 0 <= d < |ds| ==> ds[d].orderId < |orders|)
    && (forall o :: OrderAt(cfg, orders, txs, ds, o))
  }

  ghost predicate FulfilmentOk(cfg: Config, s: State) { Consistent(cfg, s.orders, s.txs, s.deliveries) }

  /** The charges the settlement looks for are the ones that are counted. */
  lemma CapturedIffCounted(txs: seq<Transaction>, o: OrderId)
    ensures HasCapturedCharge(txs, o) <==> Charges(txs, o) > 0
  {
    SumCovers(txs, CapturedFor(o));
    if Charges(txs, o) > 0 {
      var t := SumWitness(txs, CapturedFor(o));
    }
    if HasCapturedCharge(txs, o) {
      var t :| 0 <= t < |txs| && txs[t].orderId == Some(o) && txs[t].kind.Charge? && txs[t].status.Succeeded?;
      assert CapturedFor(o)(txs[t]) == 1;
    }
  }

  // ── the writes ────────────────────────────────────────────────────────────

  /** A status write that neither delivers the order nor reopens a closed one. */
  lemma StatusKeeps(
    cfg: Config, orders: seq<Order>, txs: seq<Transaction>, ds: seq<Delivery>, o: OrderId, order: Order)
    requires Consistent(cfg, orders, txs, ds) && o < |orders|
    requires order.terms == orders[o].terms && order.reassignments == orders[o].reassignments
    requires order.status.Delivered? ==> orders[o].status.Delivered?
    requires Closed(orders[o].status) ==> Closed(order.status)
    ensures Consistent(cfg, orders[o := order], txs, ds)
  {
    var after := orders[o := order];
    forall p ensures OrderAt(cfg, after, txs, ds, p) {
      assert OrderAt(cfg, orders, txs, ds, p);
    }
  }

  lemma ChargesKeep(
    cfg: Config, orders: seq<Order>, txs: seq<Transaction>, ds: seq<Delivery>, after: seq<Transaction>)
    requires Consistent(cfg, orders, txs, ds)
    requires forall o :: Charges(after, o) == Charges(txs, o)
    ensures Consistent(cfg, orders, after, ds)
  {
    forall p ensures OrderAt(cfg, orders, after, ds, p) {
      assert OrderAt(cfg, orders, txs, ds, p);
    }
  }

  // ── the requests ──────────────────────────────────────────────────────────

  lemma PlaceOrderFulfilment(cfg: Config, s: State, cart: Cart, fees: Fees)
    requires FulfilmentOk(cfg, s)
    ensures FulfilmentOk(cfg, PlaceOrder(s, cart, fees).state)
  {
    var after := PlaceOrder(s, cart, fees).state;
    if |after.orders| > |s.orders| {
      if |after.txs| > |s.txs| {
        TxAppended(TermsOf(s.orders), s.txs, after.txs[|s.txs|]);
      }
      forall p ensures OrderAt(cfg, after.orders, after.txs, after.deliveries, p) {
        assert OrderAt(cfg, s.orders, s.txs, s.deliveries, p);
      }
    }
  }

  lemma VoidOrderFulfilment(cfg: Config, s: State, o: OrderId)
    requires FulfilmentOk(cfg, s)
    ensures FulfilmentOk(cfg, VoidOrder(s, o))
  {
    if o < |s.orders| {
      StatusKeeps(cfg, s.orders, s.txs, s.deliveries, o, s.orders[o].(status := OrderStatus.Cancelled));
    }
  }

  lemma SweepFulfilment(cfg: Config, s: State, cutoff: nat)
    requires FulfilmentOk(cfg, s)
    ensures FulfilmentOk(cfg, SweepExpired(s, cutoff))
  {
    var after := SweepExpired(s, cutoff);
    forall p ensures OrderAt(cfg, after.orders, after.txs, after.deliveries, p) {
      assert OrderAt(cfg, s.orders, s.txs, s.deliveries, p);
    }
  }

  lemma UpdateStatusFulfilment(
    cfg: Config, s: State, o: OrderId, actor: nat, role: Role, to: OrderStatus, reason: bool)
    requires FulfilmentOk(cfg, s)
    ensures FulfilmentOk(cfg, UpdateStatus(s, o, actor, role, to, reason).state)
  {
    if UpdateStatus(s, o, actor, role, to, reason).reply.Ok? {
      StatusKeeps(cfg, s.orders, s.txs, s.deliveries, o,
                  s.orders[o].(status := to, accepted := s.orders[o].accepted || to.Accepted?));
    }
  }

  lemma ClaimFulfilment(cfg: Config, s: State, o: OrderId, agent: AgentId)
    requires FulfilmentOk(cfg, s)
    ensures FulfilmentOk(cfg, ClaimReadyOrder(s, o, agent).state)
  {
    if ClaimReadyOrder(s, o, agent).reply.Ok? {
      StatusKeeps(cfg, s.orders, s.txs, s.deliveries, o,
                  s.orders[o].(status := OrderStatus.Assigned, agentId := Some(agent)));
    }
  }

  lemma InitPaymentFulfilment(cfg: Config, s: State, customerId: nat, o: OrderId, cached: Option<TxId>, up: bool)
    requires FulfilmentOk(cfg, s)
    ensures FulfilmentOk(cfg, InitPayment(s, customerId, o, cached, up).state)
  {
    var after := InitPayment(s, customerId, o, cached, up).state;
    if |after.txs| > |s.txs| {
      TxAppended(TermsOf(s.orders), s.txs, after.txs[|s.txs|]);
      ChargesKeep(cfg, s.orders, s.txs, s.deliveries, after.txs);
    }
  }

  /** One more succeeded charge, and the order is placed, again or for the first time. */
  lemma Capture(cfg: Config, orders: seq<Order>, txs: seq<Transaction>, ds: seq<Delivery>, t: TxId, o: OrderId)
    requires Consistent(cfg, orders, txs, ds) && t < |txs| && IsPendingCharge(txs[t], o) && o < |orders|
    ensures Consistent(cfg, orders[o := orders[o].(status := Placed)], txs[t := txs[t].(status := Succeeded)], ds)
  {
    var after, captured := orders[o := orders[o].(status := Placed)], txs[t := txs[t].(status := Succeeded)];
    TxUpdated([], txs, t, captured[t]);
    forall p ensures OrderAt(cfg, after, captured, ds, p) {
      assert OrderAt(cfg, orders, txs, ds, p);
    }
  }

  lemma HandleWebhookFulfilment(cfg: Config, s: State, w: Webhook)
    requires FulfilmentOk(cfg, s)
    ensures FulfilmentOk(cfg, HandleWebhook(s, w).state)
  {
    var after := HandleWebhook(s, w).state;
    var pending := PickPendingCharge(s.txs, w.orderId, w.hint);
    if pending.Some? && after.txs != s.txs {
      var t := pending.value;
      if w.verdict.Success? {
        Capture(cfg, s.orders, s.txs, s.deliveries, t, w.orderId);
      } else {
        TxUpdated([], s.txs, t, after.txs[t]);
        ChargesKeep(cfg, s.orders, s.txs, s.deliveries, after.txs);
      }
    }
  }

  lemma RefundFulfilment(cfg: Config, s: State, t: TxId, amount: Option<int>)
    requires FulfilmentOk(cfg, s)
    ensures FulfilmentOk(cfg, RefundPayment(s, t, amount).state)
  {
    var after := RefundPayment(s, t, amount);
    if after.reply.Ok? {
      var refund := after.state.txs[|s.txs|];
      TxAppended(TermsOf(s.orders), s.txs, refund);
      TxUpdated(TermsOf(s.orders), s.txs + [refund], t, s.txs[t].(refundedBy := Some(|s.txs|)));
      ChargesKeep(cfg, s.orders, s.txs, s.deliveries, after.state.txs);
    }
  }

  lemma PayoutFulfilment(cfg: Config, s: State, account: Account, amount: int)
    requires FulfilmentOk(cfg, s)
    ensures FulfilmentOk(cfg, CreatePayout(s, account, amount).state)
  {
    var after := CreatePayout(s, account, amount);
    if after.reply.Ok? {
      TxAppended(TermsOf(s.orders), s.txs, after.state.txs[|s.txs|]);
      ChargesKeep(cfg, s.orders, s.txs, s.deliveries, after.state.txs);
    }
  }

  /** A ready order without an active delivery gets one. */
  lemma NewDelivery(
    cfg: Config, orders: seq<Order>, txs: seq<Transaction>, ds: seq<Delivery>, o: OrderId, agent: AgentId)
    requires Consistent(cfg, orders, txs, ds)
    requires o < |orders| && orders[o].status.Ready? && ActiveDeliveries(ds, o) == 0
    ensures Consistent(
              cfg, orders[o := orders[o].(status := OrderStatus.Assigned, agentId := Some(agent))], txs,
              ds + [Delivery(o, agent, DeliveryStatus.Assigned, None)])
  {
    var row := Delivery(o, agent, DeliveryStatus.Assigned, None);
    var after, rows := orders[o := orders[o].(status := OrderStatus.Assigned, agentId := Some(agent))], ds + [row];
    DeliveryAppended([], ds, row);
    forall p ensures OrderAt(cfg, after, txs, rows, p) {
      assert OrderAt(cfg, orders, txs, ds, p);
    }
  }

  lemma AssignFulfilment(cfg: Config, s: State, o: OrderId, choice: Choice)
    requires FulfilmentOk(cfg, s)
    ensures FulfilmentOk(cfg, AssignDelivery(s, o, choice).state)
  {
    var after := AssignDelivery(s, o, choice);
    if after.reply.Ok? {
      NoActiveCounts(s.deliveries, o);
      NewDelivery(cfg, s.orders, s.txs, s.deliveries, o, after.state.deliveries[|s.deliveries|].agentId);
    }
  }

  lemma ReleaseFulfilment(cfg: Config, s: State, d: DeliveryId)
    requires FulfilmentOk(cfg, s) && d < |s.deliveries| && s.deliveries[d].Active()
    requires s.orders[s.deliveries[d].orderId].reassignments < cfg.maxReassignments
    ensures FulfilmentOk(cfg, ReleaseDelivery(s, d))
  {
    var after := ReleaseDelivery(s, d);
    ActiveCounts(s.deliveries, d);
    DeliveryUpdated(TermsOf(s.orders), s.deliveries, d, after.deliveries[d]);
    forall p ensures OrderAt(cfg, after.orders, after.txs, after.deliveries, p) {
      assert OrderAt(cfg, s.orders, s.txs, s.deliveries, p);
    }
  }

  lemma ReassignFulfilment(cfg: Config, s: State, o: OrderId, choice: Choice)
    requires FulfilmentOk(cfg, s)
    ensures FulfilmentOk(cfg, ReassignDelivery(cfg, s, o, choice).state)
  {
    var active := FindActiveDelivery(s.deliveries, o);
    if o < |s.orders| && s.orders[o].reassignments < cfg.maxReassignments && active.Some? {
      ReleaseFulfilment(cfg, s, active.value);
      AssignFulfilment(cfg, ReleaseDelivery(s, active.value), o, choice);
    }
  }

  /** Handing over the active delivery of a paid order. */
  lemma HandOver(
    cfg: Config, orders: seq<Order>, txs: seq<Transaction>, ds: seq<Delivery>, d: DeliveryId, row: Delivery)
    requires Consistent(cfg, orders, txs, ds) && d < |ds| && ds[d].Active()
    requires orders[ds[d].orderId].terms.payment.Online? ==> Charges(txs, ds[d].orderId) > 0
    requires row.orderId == ds[d].orderId && row.status.Delivered?
    ensures var o := ds[d].orderId;
            Consistent(cfg, orders[o := orders[o].(status := OrderStatus.Delivered)], txs, ds[d := row])
  {
    var o := ds[d].orderId;
    var after, rows := orders[o := orders[o].(status := OrderStatus.Delivered)], ds[d := row];
    ActiveCounts(ds, d);
    DeliveryUpdated([], ds, d, row);
    forall p ensures OrderAt(cfg, after, txs, rows, p) {
      assert OrderAt(cfg, orders, txs, ds, p);
    }
  }

  lemma SettleFulfilment(cfg: Config, s: State, d: DeliveryId)
    requires FulfilmentOk(cfg, s) && d < |s.deliveries| && s.deliveries[d].status.Picked?
    ensures FulfilmentOk(cfg, SettleAndDeliver(cfg, s, d).state)
  {
    var after := SettleAndDeliver(cfg, s, d);
    var o := s.deliveries[d].orderId;
    if after.reply.Ok? {
      var collection := FirstPendingCollection(s.txs, o, 0);
      if s.orders[o].terms.payment.Cod? && collection.Some? {
        TxUpdated(TermsOf(s.orders), s.txs, collection.value, after.state.txs[collection.value]);
      }
      ChargesKeep(cfg, s.orders, s.txs, s.deliveries, after.state.txs);
      CapturedIffCounted(s.txs, o);
      HandOver(cfg, s.orders, after.state.txs, s.deliveries, d, after.state.deliveries[d]);
    }
  }

  /** The agent accepts, rejects or picks up; a pickup moves the order too. */
  lemma MoveOn(
    cfg: Config, orders: seq<Order>, txs: seq<Transaction>, ds: seq<Delivery>, d: DeliveryId, to: DeliveryStatus)
    requires Consistent(cfg, orders, txs, ds) && d < |ds| && ds[d].Active()
    requires to.Accepted? || to.Rejected? || to.Picked?
    ensures var o := ds[d].orderId;
            var moved := if to.Picked? then orders[o].(status := OrderStatus.Picked) else orders[o];
            Consistent(cfg, orders[o := moved], txs, ds[d := ds[d].(status := to)])
  {
    var o := ds[d].orderId;
    var moved := if to.Picked? then orders[o].(status := OrderStatus.Picked) else orders[o];
    var after, rows := orders[o := moved], ds[d := ds[d].(status := to)];
    ActiveCounts(ds, d);
    DeliveryUpdated([], ds, d, ds[d].(status := to));
    forall p ensures OrderAt(cfg, after, txs, rows, p) {
      assert OrderAt(cfg, orders, txs, ds, p);
    }
  }

  lemma ProgressFulfilment(
    cfg: Config, s: State, d: DeliveryId, agent: AgentId, to: DeliveryStatus, reason: bool)
    requires FulfilmentOk(cfg, s)
    ensures FulfilmentOk(cfg, UpdateDeliveryStatus(cfg, s, d, agent, to, reason).state)
  {
    var after := UpdateDeliveryStatus(cfg, s, d, agent, to, reason);
    if after.reply.Ok? {
      if to.Delivered? {
        SettleFulfilment(cfg, s, d);
      } else {
        MoveOn(cfg, s.orders, s.txs, s.deliveries, d, to);
        assert s.orders[s.deliveries[d].orderId := s.orders[s.deliveries[d].orderId]] == s.orders;
      }
    }
  }
}
