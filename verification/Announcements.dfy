/** The outbox agrees with the tables: every fact that is announced is announced once. */
module Announcements {
  import opened Domain
  import opened Sums
  import opened Tally
  import opened Requests

  predicate IsCaptured(txs: seq<Transaction>, t: TxId) { t < |txs| && Captured(txs[t]) }

  ghost predicate AnnouncedAt(
    orders: nat, txs: seq<Transaction>, ds: seq<Delivery>, outbox: seq<Event>, o: OrderId)
  {
    && PlacedRows(outbox, o) == (if o < orders then 1 else 0)
    && CompletedRows(outbox, o) == Charges(txs, o)
    && DeliveredRows(outbox, o) == Deliveries(ds, o)
  }

  /** `orders` is the number of orders. */
  ghost predicate Announced(orders: nat, txs: seq<Transaction>, ds: seq<Delivery>, outbox: seq<Event>) {
    && (forall o :: AnnouncedAt(orders, txs, ds, outbox, o))
    && (forall t :: CompletedRowsOf(outbox, t) == (if IsCaptured(txs, t) then 1 else 0))
  }

  ghost predicate OutboxOk(s: State) { Announced(|s.orders|, s.txs, s.deliveries, s.outbox) }

  // ── the writes ────────────────────────────────────────────────────────────

  lemma TablesKeep(
    orders: nat, txs: seq<Transaction>, ds: seq<Delivery>, outbox: seq<Event>,
    txs': seq<Transaction>, ds': seq<Delivery>)
    requires Announced(orders, txs, ds, outbox)
    requires forall o :: Charges(txs', o) == Charges(txs, o) && Deliveries(ds', o) == Deliveries(ds, o)
    requires forall t :: IsCaptured(txs', t) == IsCaptured(txs, t)
    ensures Announced(orders, txs', ds', outbox)
  {
    forall o ensures AnnouncedAt(orders, txs', ds', outbox, o) {
      assert AnnouncedAt(orders, txs, ds, outbox, o);
    }
  }

  lemma AppendTx(orders: nat, txs: seq<Transaction>, ds: seq<Delivery>, outbox: seq<Event>, t: Transaction)
    requires Announced(orders, txs, ds, outbox) && !Captured(t)
    ensures Announced(orders, txs + [t], ds, outbox)
  {
    TxAppended([], txs, t);
    TablesKeep(orders, txs, ds, outbox, txs + [t], ds);
  }

  lemma UpdateTx(
    orders: nat, txs: seq<Transaction>, ds: seq<Delivery>, outbox: seq<Event>, i: TxId, t: Transaction)
    requires Announced(orders, txs, ds, outbox) && i < |txs|
    requires t == txs[i].(status := t.status, refundedBy := t.refundedBy) && Captured(t) == Captured(txs[i])
    ensures Announced(orders, txs[i := t], ds, outbox)
  {
    TxUpdated([], txs, i, t);
    TablesKeep(orders, txs, ds, outbox, txs[i := t], ds);
  }

  /** Rows that announce neither a placement, a payment nor a delivery. */
  lemma AppendNotice(orders: nat, txs: seq<Transaction>, ds: seq<Delivery>, outbox: seq<Event>, e: Event)
    requires Announced(orders, txs, ds, outbox) && (e.StatusChanged? || e.OrderCancelled?)
    ensures Announced(orders, txs, ds, outbox + [e])
  {
    EventAppended(outbox, e);
    forall o ensures AnnouncedAt(orders, txs, ds, outbox + [e], o) {
      assert AnnouncedAt(orders, txs, ds, outbox, o);
    }
  }

  // ── the requests ──────────────────────────────────────────────────────────

  lemma PlaceOrderOutbox(s: State, cart: Cart, fees: Fees)
    requires OutboxOk(s)
    ensures OutboxOk(PlaceOrder(s, cart, fees).state)
  {
    var after := PlaceOrder(s, cart, fees).state;
    if |after.orders| > |s.orders| {
      if |after.txs| > |s.txs| {
        AppendTx(|s.orders|, s.txs, s.deliveries, s.outbox, after.txs[|s.txs|]);
      }
      EventAppended(s.outbox, OrderPlaced(|s.orders|));
      forall o ensures AnnouncedAt(|after.orders|, after.txs, after.deliveries, after.outbox, o) {
        assert AnnouncedAt(|s.orders|, after.txs, s.deliveries, s.outbox, o);
      }
    }
  }

  lemma UpdateStatusOutbox(s: State, o: OrderId, actor: nat, role: Role, to: OrderStatus, reason: bool)
    requires OutboxOk(s)
    ensures OutboxOk(UpdateStatus(s, o, actor, role, to, reason).state)
  {
    if UpdateStatus(s, o, actor, role, to, reason).reply.Ok? {
      AppendNotice(|s.orders|, s.txs, s.deliveries, s.outbox, StatusChanged(o, to));
      AppendNotice(|s.orders|, s.txs, s.deliveries, s.outbox + [StatusChanged(o, to)], OrderCancelled(o));
    }
  }

  lemma InitPaymentOutbox(s: State, customerId: nat, o: OrderId, cached: Option<TxId>, up: bool)
    requires OutboxOk(s)
    ensures OutboxOk(InitPayment(s, customerId, o, cached, up).state)
  {
    var after := InitPayment(s, customerId, o, cached, up).state;
    if |after.txs| > |s.txs| {
      AppendTx(|s.orders|, s.txs, s.deliveries, s.outbox, after.txs[|s.txs|]);
    }
  }

  lemma HandleWebhookOutbox(s: State, w: Webhook)
    requires OutboxOk(s)
    ensures OutboxOk(HandleWebhook(s, w).state)
  {
    var after := HandleWebhook(s, w).state;
    var pending := PickPendingCharge(s.txs, w.orderId, w.hint);
    if pending.Some? && after.txs != s.txs {
      var t := pending.value;
      if w.verdict.Failure? {
        UpdateTx(|s.orders|, s.txs, s.deliveries, s.outbox, t, after.txs[t]);
      } else {
        TxUpdated([], s.txs, t, after.txs[t]);
        EventAppended(s.outbox, after.outbox[|s.outbox|]);
        forall o ensures AnnouncedAt(|after.orders|, after.txs, after.deliveries, after.outbox, o) {
          assert AnnouncedAt(|s.orders|, s.txs, s.deliveries, s.outbox, o);
        }
      }
    }
  }

  lemma RefundOutbox(s: State, t: TxId, amount: Option<int>)
    requires OutboxOk(s)
    ensures OutboxOk(RefundPayment(s, t, amount).state)
  {
    var after := RefundPayment(s, t, amount);
    if after.reply.Ok? {
      var refund := after.state.txs[|s.txs|];
      AppendTx(|s.orders|, s.txs, s.deliveries, s.outbox, refund);
      UpdateTx(|s.orders|, s.txs + [refund], s.deliveries, s.outbox, t, after.state.txs[t]);
    }
  }

  lemma PayoutOutbox(s: State, account: Account, amount: int)
    requires OutboxOk(s)
    ensures OutboxOk(CreatePayout(s, account, amount).state)
  {
    var after := CreatePayout(s, account, amount);
    if after.reply.Ok? {
      AppendTx(|s.orders|, s.txs, s.deliveries, s.outbox, after.state.txs[|s.txs|]);
    }
  }

  lemma AssignOutbox(s: State, o: OrderId, choice: Choice)
    requires OutboxOk(s)
    ensures OutboxOk(AssignDelivery(s, o, choice).state)
  {
    var after := AssignDelivery(s, o, choice);
    if after.reply.Ok? {
      DeliveryAppended([], s.deliveries, after.state.deliveries[|s.deliveries|]);
      TablesKeep(|s.orders|, s.txs, s.deliveries, s.outbox, s.txs, after.state.deliveries);
    }
  }

  lemma ReassignOutbox(cfg: Config, s: State, o: OrderId, choice: Choice)
    requires OutboxOk(s)
    requires forall d :: 0 <= d < |s.deliveries| ==> s.deliveries[d].orderId < |s.orders|
    ensures OutboxOk(ReassignDelivery(cfg, s, o, choice).state)
  {
    var active := FindActiveDelivery(s.deliveries, o);
    if o < |s.orders| && s.orders[o].reassignments < cfg.maxReassignments && active.Some? {
      var released := ReleaseDelivery(s, active.value);
      DeliveryUpdated([], s.deliveries, active.value, released.deliveries[active.value]);
      TablesKeep(|s.orders|, s.txs, s.deliveries, s.outbox, s.txs, released.deliveries);
      AssignOutbox(released, o, choice);
    }
  }

  lemma ProgressOutbox(cfg: Config, s: State, d: DeliveryId, agent: AgentId, to: DeliveryStatus, reason: bool)
    requires OutboxOk(s)
    ensures OutboxOk(UpdateDeliveryStatus(cfg, s, d, agent, to, reason).state)
  {
    var after := UpdateDeliveryStatus(cfg, s, d, agent, to, reason);
    if after.reply.Ok? {
      DeliveryUpdated([], s.deliveries, d, after.state.deliveries[d]);
      if to.Delivered? {
        var o := s.deliveries[d].orderId;
        var collection := FirstPendingCollection(s.txs, o, 0);
        if s.orders[o].terms.payment.Cod? && collection.Some? {
          UpdateTx(|s.orders|, s.txs, s.deliveries, s.outbox, collection.value, after.state.txs[collection.value]);
        }
        EventAppended(s.outbox, OrderDelivered(o, agent));
        forall p
          ensures AnnouncedAt(|s.orders|, after.state.txs, after.state.deliveries, after.state.outbox, p)
        {
          assert AnnouncedAt(|s.orders|, after.state.txs, s.deliveries, s.outbox, p);
        }
      } else {
        TablesKeep(|s.orders|, s.txs, s.deliveries, s.outbox, s.txs, after.state.deliveries);
      }
    }
  }
}
