/** Without an admin's hand on the status, no online order moves before it is paid. */
module PaidFirst {
  import opened Domain
  import opened Tally
  import opened Requests
  import opened Fulfilment

  ghost predicate PaidAt(orders: seq<Order>, txs: seq<Transaction>, ds: seq<Delivery>, o: OrderId) {
    o < |orders| && orders[o].terms.payment.Online?
    && (!(orders[o].status.PendingPayment? || orders[o].status.Cancelled?) || ActiveDeliveries(ds, o) > 0)
    ==> Charges(txs, o) > 0
  }

  ghost predicate Paid(orders: seq<Order>, txs: seq<Transaction>, ds: seq<Delivery>) {
    forall o :: PaidAt(orders, txs, ds, o)
  }

  ghost predicate PaidOk(s: State) { Paid(s.orders, s.txs, s.deliveries) }

  lemma StatusKeepsPaid(orders: seq<Order>, txs: seq<Transaction>, ds: seq<Delivery>, o: OrderId, order: Order)
    requires Paid(orders, txs, ds) && o < |orders| && order.terms == orders[o].terms
    requires orders[o].status.PendingPayment? || orders[o].status.Cancelled? ==>
               order.status.PendingPayment? || order.status.Cancelled?
    ensures Paid(orders[o := order], txs, ds)
  {
    var after := orders[o := order];
    forall p ensures PaidAt(after, txs, ds, p) {
      assert PaidAt(orders, txs, ds, p);
    }
  }

  lemma TxsKeepPaid(orders: seq<Order>, txs: seq<Transaction>, ds: seq<Delivery>, after: seq<Transaction>)
    requires Paid(orders, txs, ds) && forall o :: Charges(after, o) >= Charges(txs, o)
    ensures Paid(orders, after, ds)
  {
    forall p ensures PaidAt(orders, after, ds, p) {
      assert PaidAt(orders, txs, ds, p);
    }
  }

  lemma PlaceOrderPaid(s: State, cart: Cart, fees: Fees)
    requires PaidOk(s) && forall d :: 0 <= d < |s.deliveries| ==> s.deliveries[d].orderId < |s.orders|
    ensures PaidOk(PlaceOrder(s, cart, fees).state)
  {
    var after := PlaceOrder(s, cart, fees).state;
    if |after.orders| > |s.orders| {
      NoActiveCounts(s.deliveries, |s.orders|);
      if |after.txs| > |s.txs| {
        TxAppended([], s.txs, after.txs[|s.txs|]);
      }
      forall p ensures PaidAt(after.orders, after.txs, after.deliveries, p) {
        assert PaidAt(s.orders, s.txs, s.deliveries, p);
      }
    }
  }

  lemma SweepPaid(s: State, cutoff: nat)
    requires PaidOk(s)
    ensures PaidOk(SweepExpired(s, cutoff))
  {
    var after := SweepExpired(s, cutoff);
    forall p ensures PaidAt(after.orders, after.txs, after.deliveries, p) {
      assert PaidAt(s.orders, s.txs, s.deliveries, p);
    }
  }

  lemma VoidOrderPaid(s: State, o: OrderId)
    requires PaidOk(s)
    ensures PaidOk(VoidOrder(s, o))
  {
    if o < |s.orders| {
      StatusKeepsPaid(s.orders, s.txs, s.deliveries, o, s.orders[o].(status := OrderStatus.Cancelled));
    }
  }

  lemma UpdateStatusPaid(s: State, o: OrderId, actor: nat, role: Role, to: OrderStatus, reason: bool)
    requires PaidOk(s) && !role.SystemAdmin?
    ensures PaidOk(UpdateStatus(s, o, actor, role, to, reason).state)
  {
    if UpdateStatus(s, o, actor, role, to, reason).reply.Ok? {
      StatusKeepsPaid(s.orders, s.txs, s.deliveries, o,
                      s.orders[o].(status := to, accepted := s.orders[o].accepted || to.Accepted?));
    }
  }

  lemma ClaimPaid(s: State, o: OrderId, agent: AgentId)
    requires PaidOk(s)
    ensures PaidOk(ClaimReadyOrder(s, o, agent).state)
  {
    if ClaimReadyOrder(s, o, agent).reply.Ok? {
      StatusKeepsPaid(s.orders, s.txs, s.deliveries, o,
                      s.orders[o].(status := OrderStatus.Assigned, agentId := Some(agent)));
    }
  }

  lemma InitPaymentPaid(s: State, customerId: nat, o: OrderId, cached: Option<TxId>, up: bool)
    requires PaidOk(s)
    ensures PaidOk(InitPayment(s, customerId, o, cached, up).state)
  {
    var after := InitPayment(s, customerId, o, cached, up).state;
    if |after.txs| > |s.txs| {
      TxAppended([], s.txs, after.txs[|s.txs|]);
      TxsKeepPaid(s.orders, s.txs, s.deliveries, after.txs);
    }
  }

  lemma HandleWebhookPaid(s: State, w: Webhook)
    requires PaidOk(s)
    ensures PaidOk(HandleWebhook(s, w).state)
  {
    var after := HandleWebhook(s, w).state;
    var pending := PickPendingCharge(s.txs, w.orderId, w.hint);
    if pending.Some? && after.txs != s.txs {
      TxUpdated([], s.txs, pending.value, after.txs[pending.value]);
      Sums.SumCovers(s.txs, CapturedFor(w.orderId));
      forall p ensures PaidAt(after.orders, after.txs, after.deliveries, p) {
        assert PaidAt(s.orders, s.txs, s.deliveries, p);
      }
    }
  }

  lemma RefundPaid(s: State, t: TxId, amount: Option<int>)
    requires PaidOk(s)
    ensures PaidOk(RefundPayment(s, t, amount).state)
  {
    var after := RefundPayment(s, t, amount);
    if after.reply.Ok? {
      var refund := after.state.txs[|s.txs|];
      TxAppended([], s.txs, refund);
      TxUpdated([], s.txs + [refund], t, after.state.txs[t]);
      TxsKeepPaid(s.orders, s.txs, s.deliveries, after.state.txs);
    }
  }

  lemma PayoutPaid(s: State, account: Account, amount: int)
    requires PaidOk(s)
    ensures PaidOk(CreatePayout(s, account, amount).state)
  {
    var after := CreatePayout(s, account, amount);
    if after.reply.Ok? {
      TxAppended([], s.txs, after.state.txs[|s.txs|]);
      TxsKeepPaid(s.orders, s.txs, s.deliveries, after.state.txs);
    }
  }

  lemma AssignPaid(s: State, o: OrderId, choice: Choice)
    requires PaidOk(s)
    ensures PaidOk(AssignDelivery(s, o, choice).state)
  {
    var after := AssignDelivery(s, o, choice);
    if after.reply.Ok? {
      DeliveryAppended([], s.deliveries, after.state.deliveries[|s.deliveries|]);
      forall p ensures PaidAt(after.state.orders, after.state.txs, after.state.deliveries, p) {
        assert PaidAt(s.orders, s.txs, s.deliveries, p);
      }
    }
  }

  lemma ReassignPaid(cfg: Config, s: State, o: OrderId, choice: Choice)
    requires PaidOk(s) && forall d :: 0 <= d < |s.deliveries| ==> s.deliveries[d].orderId < |s.orders|
    ensures PaidOk(ReassignDelivery(cfg, s, o, choice).state)
  {
    var active := FindActiveDelivery(s.deliveries, o);
    if o < |s.orders| && s.orders[o].reassignments < cfg.maxReassignments && active.Some? {
      var released := ReleaseDelivery(s, active.value);
      DeliveryUpdated([], s.deliveries, active.value, released.deliveries[active.value]);
      forall p ensures PaidAt(released.orders, released.txs, released.deliveries, p) {
        assert PaidAt(s.orders, s.txs, s.deliveries, p);
      }
      AssignPaid(released, o, choice);
    }
  }

  lemma ProgressPaid(cfg: Config, s: State, d: DeliveryId, agent: AgentId, to: DeliveryStatus, reason: bool)
    requires PaidOk(s)
    ensures PaidOk(UpdateDeliveryStatus(cfg, s, d, agent, to, reason).state)
  {
    var after := UpdateDeliveryStatus(cfg, s, d, agent, to, reason);
    if after.reply.Ok? {
      var o := s.deliveries[d].orderId;
      ActiveCounts(s.deliveries, d);
      DeliveryUpdated([], s.deliveries, d, after.state.deliveries[d]);
      var collection := FirstPendingCollection(s.txs, o, 0);
      if to.Delivered? && s.orders[o].terms.payment.Cod? && collection.Some? {
        TxUpdated([], s.txs, collection.value, after.state.txs[collection.value]);
      }
      forall p ensures PaidAt(after.state.orders, after.state.txs, after.state.deliveries, p) {
        assert PaidAt(s.orders, s.txs, s.deliveries, p);
      }
    }
  }
}
