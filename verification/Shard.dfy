/**
 * The shard as the services run it: every request is the sequence of statements its transaction
 * makes, rolled back when one raises, and ends in the state its specification in `Requests` names.
 */
module Shard {
  import opened Domain
  import R = Requests
  import F = Finance

  /** Ids of the orders the sweep selects. */
  function StaleFrom(orders: seq<Order>, cutoff: nat, from: nat): (ids: seq<OrderId>)
    requires from <= |orders|
    ensures forall o: nat :: o in ids <==> from <= o < |orders| && R.Stale(orders[o], cutoff)
    decreases |orders| - from
  {
    if from == |orders| then []
    else (if R.Stale(orders[from], cutoff) then [from] else []) + StaleFrom(orders, cutoff, from + 1)
  }

  /** What a status write may set besides the status: the acceptance stamp and the agent. */
  datatype Extra = Extra(accepted: bool, agentId: Option<AgentId>)

  const NOTHING_ELSE := Extra(false, None)

  function Written(order: Order, status: OrderStatus, extra: Extra): Order {
    order.(
      status := status,
      accepted := order.accepted || extra.accepted,
      agentId := if extra.agentId.Some? then extra.agentId else order.agentId)
  }

  class Shard {
    const cfg: Config
    // Postgres
    var orders: seq<Order>
    var txs: seq<Transaction>
    var events: map<EventId, bool>
    var balances: F.Balances
    var deliveries: seq<Delivery>
    var earnings: seq<Earning>
    var outbox: seq<Event>
    // Redis
    var busy: set<AgentId>
    var online: set<AgentId>

    function View(): State
      reads this
    {
      State(orders, txs, events, balances, deliveries, earnings, outbox, busy, online)
    }

    constructor (cfg: Config)
      ensures View() == EMPTY && this.cfg == cfg
    {
      this.cfg := cfg;
      orders, txs, events, balances := [], [], map[], map[];
      deliveries, earnings, outbox := [], [], [];
      busy, online := {}, {};
    }

    /** Undoes everything the transaction wrote; Redis is not part of it. */
    method Rollback(before: State)
      modifies this
      ensures View() == before.(busy := old(busy), online := old(online))
    {
      orders, txs, events, balances := before.orders, before.txs, before.events, before.balances;
      deliveries, earnings, outbox := before.deliveries, before.earnings, before.outbox;
    }

    // ── repositories ────────────────────────────────────────────────────────

    /** Writes the status whatever it was, and those columns of `extra` that are given. */
    method UpdateOrderStatus(o: OrderId, status: OrderStatus, extra: Extra)
      requires o < |orders|
      modifies this`orders
      ensures orders == old(orders)[o := Written(old(orders[o]), status, extra)]
    {
      var row := orders[o].(status := status);
      if extra.accepted {
        row := row.(accepted := true);
      }
      if extra.agentId.Some? {
        row := row.(agentId := extra.agentId);
      }
      orders := orders[o := row];
    }

    /** None when a CHECK raises. */
    method CreateTransaction(t: Transaction) returns (id: Option<TxId>)
      modifies this`txs
      ensures if R.Insertable(t) then id == Some(old(|txs|)) && txs == old(txs) + [t] else id.None? && txs == old(txs)
    {
      if !(0 < t.amount && t.amount <= F.INT_MAX) || (t.source.None? && t.destination.None?) {
        return None;
      }
      id := Some(|txs|);
      txs := txs + [t];
    }

    method UpdateTransaction(t: TxId, status: TxStatus, refundedBy: Option<TxId>)
      requires t < |txs|
      modifies this`txs
      ensures txs == old(txs)[t := old(txs[t]).(status := status, refundedBy := refundedBy)]
    {
      txs := txs[t := txs[t].(status := status, refundedBy := refundedBy)];
    }

    /** True when the event had not been seen. */
    method InsertWebhookEvent(eventId: EventId) returns (first: bool)
      modifies this`events
      ensures first <==> eventId !in old(events)
      ensures events == if first then old(events)[eventId := false] else old(events)
    {
      if eventId in events {
        return false;
      }
      events := events[eventId := false];
      first := true;
    }

    method MarkWebhookProcessed(eventId: EventId)
      requires eventId in events
      modifies this`events
      ensures events == old(events)[eventId := true]
    {
      events := events[eventId := true];
    }

    method WriteOutboxEvent(e: Event)
      modifies this`outbox
      ensures outbox == old(outbox) + [e]
    {
      outbox := outbox + [e];
    }

    method CreditBalance(account: Account, amount: int) returns (ok: bool)
      modifies this`balances
      ensures var credited := F.Credit(old(balances), account, amount);
              ok == credited.Some? && balances == if ok then credited.value else old(balances)
    {
      var row := if account in balances then balances[account] else Balance(0, 0, 0);
      var after := Balance(row.pending + amount, row.available, row.totalEarned + amount);
      ok := F.Storable(after);
      if ok {
        balances := balances[account := after];
      }
    }

    method DebitBalance(account: Account, amount: int) returns (ok: bool)
      modifies this`balances
      ensures var debited := F.Debit(old(balances), account, amount);
              ok == debited.Some? && balances == if ok then debited.value else old(balances)
    {
      if account !in balances {
        return true;
      }
      var row := balances[account];
      var pending := if row.pending - amount > 0 then row.pending - amount else 0;
      var overdraw := if amount - row.pending > 0 then amount - row.pending else 0;
      var after := Balance(pending, row.available - overdraw, row.totalEarned - amount);
      ok := F.Storable(after);
      if ok {
        balances := balances[account := after];
      }
    }

    method SettleBalance(account: Account, amount: int, commission: int) returns (ok: bool)
      modifies this`balances
      ensures var settled := F.Settle(old(balances), account, amount, commission);
              ok == settled.Some? && balances == if ok then settled.value else old(balances)
    {
      if account !in balances {
        return true;
      }
      var row := balances[account];
      var after := Balance(row.pending - amount, row.available + (amount - commission), row.totalEarned);
      ok := F.Storable(after);
      if ok {
        balances := balances[account := after];
      }
    }

    /** `updated` is false when no row matched, `ok` when a CHECK raised. */
    method PayoutFromAvailable(account: Account, amount: int) returns (updated: bool, ok: bool)
      modifies this`balances
      ensures updated == F.Payable(old(balances), account, amount)
      ensures updated ==>
                var paid := F.Payout(old(balances), account, amount);
                ok == paid.Some? && balances == if ok then paid.value else old(balances)
      ensures !updated ==> ok && balances == old(balances)
    {
      if account !in balances || balances[account].available < amount {
        return false, true;
      }
      var row := balances[account];
      var after := row.(available := row.available - amount);
      updated, ok := true, F.Storable(after);
      if ok {
        balances := balances[account := after];
      }
    }

    // ── orders ──────────────────────────────────────────────────────────────

    method PlaceOrder(cart: R.Cart, fees: R.Fees) returns (r: Result<OrderId>)
      modifies this
      ensures Outcome(View(), r) == R.PlaceOrder(old(View()), cart, fees)
    {
      if |cart.lines| == 0 {
        return Err(ValidationFailed);
      }
      if cart.addressOwner != cart.customerId {
        return Err(AddressNotFound);
      }
      if exists i :: 0 <= i < |cart.lines| && !R.InStock(cart.lines[i]) {
        return Err(OutOfStock);
      }
      if exists i :: 0 <= i < |cart.lines| && cart.lines[i].restaurantId != cart.lines[0].restaurantId {
        return Err(MixedRestaurants);
      }
      var terms := R.Quote(cart, fees);
      var before := View();
      if !R.Billable(terms, fees) {
        return Err(ConstraintViolated);
      }
      var o := |orders|;
      orders := orders + [Order(terms, if terms.payment.Online? then PendingPayment else Placed, false, None, 0)];
      if terms.payment.Cod? {
        var collection := CreateTransaction(R.Collection(o, terms));
        if collection.None? {
          Rollback(before);
          return Err(ConstraintViolated);
        }
      }
      WriteOutboxEvent(OrderPlaced(o));
      r := Ok(o);
    }

    /** Runs when the stock reservation of a committed order fails. */
    method VoidOrder(o: OrderId)
      modifies this
      ensures View() == R.VoidOrder(old(View()), o)
    {
      if o < |orders| {
        UpdateOrderStatus(o, OrderStatus.Cancelled, NOTHING_ELSE);
      }
    }

    method SweepExpired(cutoff: nat)
      modifies this
      ensures View() == R.SweepExpired(old(View()), cutoff)
    {
      var stale := StaleFrom(orders, cutoff, 0);
      for k := 0 to |stale|
        invariant View() == old(View()).(orders := orders) && |orders| == old(|orders|)
        invariant forall o: nat :: o < |orders| ==>
                    orders[o] == if o in stale[..k] then old(orders[o]).(status := OrderStatus.Cancelled)
                                 else old(orders[o])
      {
        assert stale[k] in stale;
        assert stale[..k + 1] == stale[..k] + [stale[k]];
        UpdateOrderStatus(stale[k], OrderStatus.Cancelled, NOTHING_ELSE);
      }
      assert stale[..|stale|] == stale;
      assert orders == R.SweepExpired(old(View()), cutoff).orders;
    }

    method UpdateStatus(o: OrderId, actor: nat, role: Role, to: OrderStatus, reason: bool)
      returns (r: Result<OrderStatus>)
      modifies this
      ensures Outcome(View(), r) == R.UpdateStatus(old(View()), o, actor, role, to, reason)
    {
      if !R.Requestable(to) {
        return Err(ValidationFailed);
      }
      if o >= |orders| {
        return Err(OrderNotFound);
      }
      var from := orders[o].status;
      if from.Delivered? || from.Rejected? || from.Cancelled? {
        return Err(OrderAlreadyFinalized);
      }
      if !role.SystemAdmin? {
        if role.Customer? {
          if orders[o].terms.customerId != actor {
            return Err(OrderAccessDenied);
          }
          if !((from.PendingPayment? || from.Placed?) && to.Cancelled?) {
            return Err(InvalidStatusTransition);
          }
          if from.Placed? && orders[o].accepted {
            return Err(CancellationWindowExpired);
          }
        } else if role.RestaurantUser? {
          if !R.RestaurantMay(from, to) {
            return Err(InvalidStatusTransition);
          }
        } else {
          return Err(InvalidStatusTransition);
        }
      }
      if (to.Rejected? || to.Cancelled?) && !reason {
        return Err(ReasonRequired);
      }
      UpdateOrderStatus(o, to, Extra(to.Accepted?, None));
      WriteOutboxEvent(StatusChanged(o, to));
      if to.Cancelled? {
        WriteOutboxEvent(OrderCancelled(o));
      }
      r := Ok(to);
    }

    method ClaimReadyOrder(o: OrderId, agent: AgentId) returns (r: Result<OrderId>)
      modifies this
      ensures Outcome(View(), r) == R.ClaimReadyOrder(old(View()), o, agent)
    {
      if o >= |orders| || !orders[o].status.Ready? || orders[o].agentId.Some? {
        return Err(OrderNotReady);
      }
      orders := orders[o := orders[o].(status := OrderStatus.Assigned, agentId := Some(agent))];
      busy := busy + {agent};
      r := Ok(o);
    }

    // ── payments ────────────────────────────────────────────────────────────

    method InitPayment(customerId: nat, o: OrderId, cached: Option<TxId>, providerUp: bool) returns (r: Result<TxId>)
      modifies this
      ensures Outcome(View(), r) == R.InitPayment(old(View()), customerId, o, cached, providerUp)
    {
      if o >= |orders| {
        return Err(OrderNotFound);
      }
      var order := orders[o];
      if order.terms.customerId != customerId {
        return Err(Forbidden);
      }
      if !order.terms.payment.Online? || !order.status.PendingPayment? {
        return Err(OrderNotPayable);
      }
      if cached.Some? {
        return Ok(cached.value);
      }
      if !providerUp {
        return Err(ProviderUnavailable);
      }
      var id := CreateTransaction(Transaction(
        Some(o), Charge, Pending, order.terms.total, order.terms.currency, Some(customerId), None, None));
      r := if id.Some? then Ok(id.value) else Err(ConstraintViolated);
    }

    /** The statements of a successful payment; false when the credit raised. */
    method CaptureCharge(t: TxId, o: OrderId) returns (ok: bool)
      requires t < |txs| && o < |orders|
      modifies this`txs, this`orders, this`balances, this`outbox
      ensures var terms := old(orders)[o].terms;
              var credited := F.Credit(old(balances), terms.Payee(), terms.subtotal);
              && ok == credited.Some?
              && (ok ==>
                    && txs == old(txs)[t := old(txs[t]).(status := Succeeded)]
                    && orders == old(orders)[o := old(orders[o]).(status := Placed)]
                    && balances == credited.value
                    && outbox == old(outbox) + [PaymentCompleted(o, t, terms.total)])
    {
      var terms := orders[o].terms;
      UpdateTransaction(t, Succeeded, txs[t].refundedBy);
      UpdateOrderStatus(o, Placed, NOTHING_ELSE);
      ok := CreditBalance(terms.Payee(), terms.subtotal);
      if ok {
        WriteOutboxEvent(PaymentCompleted(o, t, terms.total));
      }
    }

    method HandleWebhook(w: R.Webhook) returns (r: Result<R.Ack>)
      modifies this
      ensures Outcome(View(), r) == R.HandleWebhook(old(View()), w)
    {
      if w.verdict.Interim? {
        return Ok(R.Ignored);
      }
      var before := View();
      var first := InsertWebhookEvent(w.eventId);
      if w.faulty {
        Rollback(before);
        return Err(DatabaseFault);
      }
      if !first {
        Rollback(before);
        return Ok(R.Duplicate);
      }
      var pending := R.PickPendingCharge(txs, w.orderId, w.hint);
      if pending.None? || w.orderId >= |orders| {
        return Ok(R.NothingPending);
      }
      var ok := true;
      if w.verdict.Success? {
        ok := CaptureCharge(pending.value, w.orderId);
      } else {
        UpdateTransaction(pending.value, Failed, txs[pending.value].refundedBy);
      }
      if !ok {
        Rollback(before);
        return Err(ConstraintViolated);
      }
      MarkWebhookProcessed(w.eventId);
      assert events == before.events[w.eventId := true];
      r := Ok(R.Processed(pending.value));
    }

    method RefundPayment(t: TxId, amount: Option<int>) returns (r: Result<TxId>)
      modifies this
      ensures Outcome(View(), r) == R.RefundPayment(old(View()), t, amount)
    {
      if t >= |txs| {
        return Err(TransactionNotFound);
      }
      var tx := txs[t];
      if !tx.status.Succeeded? || !tx.kind.Charge? || tx.refundedBy.Some? {
        return Err(PaymentAlreadyCompleted);
      }
      if tx.orderId.None? {
        return Err(NoAssociatedOrder);
      }
      if tx.orderId.value >= |orders| {
        return Err(OrderNotFound);
      }
      var value := if amount.Some? then amount.value else tx.amount;
      var before := View();
      var refund := CreateTransaction(
        Transaction(tx.orderId, TxKind.Refund, Pending, value, tx.currency, None, tx.source, None));
      if refund.None? {
        Rollback(before);
        return Err(ConstraintViolated);
      }
      UpdateTransaction(t, txs[t].status, refund);
      var ok := DebitBalance(Account(orders[tx.orderId.value].terms.restaurantId, tx.currency), value);
      if !ok {
        Rollback(before);
        return Err(ConstraintViolated);
      }
      r := Ok(refund.value);
    }

    method CreatePayout(account: Account, amount: int) returns (r: Result<TxId>)
      modifies this
      ensures Outcome(View(), r) == R.CreatePayout(old(View()), account, amount)
    {
      var before := View();
      var updated, ok := PayoutFromAvailable(account, amount);
      if !updated {
        Rollback(before);
        return Err(InsufficientBalance);
      }
      if !ok {
        Rollback(before);
        return Err(ConstraintViolated);
      }
      var payout := CreateTransaction(Transaction(
        None, TxKind.Payout, Pending, amount, account.currency, Some(account.restaurantId), None, None));
      if payout.None? {
        Rollback(before);
        return Err(ConstraintViolated);
      }
      r := Ok(payout.value);
    }

    // ── deliveries ──────────────────────────────────────────────────────────

    /** Scans the geo result for the first agent that is online and not busy. */
    method AutoSelectAgent(agents: seq<AgentId>) returns (r: Option<AgentId>)
      ensures r == R.FirstFree(View(), agents)
    {
      for i := 0 to |agents|
        invariant R.FirstFree(View(), agents) == R.FirstFree(View(), agents[i..])
      {
        assert agents[i..][1..] == agents[i + 1..];
        if agents[i] in online && agents[i] !in busy {
          return Some(agents[i]);
        }
      }
      r := None;
    }

    method AssignDelivery(o: OrderId, choice: R.Choice) returns (r: Result<DeliveryId>)
      modifies this
      ensures Outcome(View(), r) == R.AssignDelivery(old(View()), o, choice)
    {
      if o >= |orders| {
        return Err(OrderNotFound);
      }
      if !orders[o].status.Ready? {
        return Err(OrderNotReady);
      }
      if R.FindActiveDelivery(deliveries, o).Some? {
        return Err(OrderAlreadyHasActiveDelivery);
      }
      var agent: AgentId;
      match choice {
        case Manual(named) =>
          if named !in online || named in busy {
            return Err(AgentInActiveDelivery);
          }
          agent := named;
        case Nearest(agents) =>
          var found := AutoSelectAgent(agents);
          if found.None? {
            return Err(NoEligibleAgents);
          }
          agent := found.value;
      }
      var d := |deliveries|;
      deliveries := deliveries + [Delivery(o, agent, DeliveryStatus.Assigned, None)];
      UpdateOrderStatus(o, OrderStatus.Assigned, Extra(false, Some(agent)));
      busy := busy + {agent};
      r := Ok(d);
    }

    method ReassignDelivery(o: OrderId, choice: R.Choice) returns (r: Result<DeliveryId>)
      modifies this
      ensures Outcome(View(), r) == R.ReassignDelivery(cfg, old(View()), o, choice)
    {
      if o >= |orders| {
        return Err(OrderNotFound);
      }
      if orders[o].reassignments >= cfg.maxReassignments {
        return Err(MaxReassignmentsReached);
      }
      var active := R.FindActiveDelivery(deliveries, o);
      if active.None? {
        return Err(NoActiveDelivery);
      }
      var d := active.value;
      deliveries := deliveries[d := deliveries[d].(status := Reassigned)];
      orders := orders[o := orders[o].(reassignments := orders[o].reassignments + 1)];
      busy := busy - {deliveries[d].agentId};
      assert View() == R.ReleaseDelivery(old(View()), d);
      r := AssignDelivery(o, choice);
    }

    /** Settles the payment inside the caller's transaction; the error is the one that rolls it back. */
    method SettleDelivery(o: OrderId) returns (r: Result<()>)
      requires o < |orders|
      modifies this`txs, this`balances
      ensures var settled := R.SettlePayment(old(View()), o);
              if settled.Ok? then r.Ok? && View() == settled.value else r == Err(settled.error)
    {
      var terms := orders[o].terms;
      if terms.payment.Cod? {
        var collection := R.FirstPendingCollection(txs, o, 0);
        if collection.Some? {
          UpdateTransaction(collection.value, Succeeded, txs[collection.value].refundedBy);
        }
      } else if !R.HasCapturedCharge(txs, o) {
        return Err(PaymentNotSettled);
      }
      var ok := SettleBalance(terms.Payee(), terms.subtotal, R.COMMISSION);
      r := if ok then Ok(()) else Err(ConstraintViolated);
    }

    /** False when the delivery already has its row. */
    method CreateAgentEarnings(e: Earning) returns (ok: bool)
      modifies this`earnings
      ensures ok == !R.HasEarning(old(earnings), e.deliveryId)
      ensures earnings == if ok then old(earnings) + [e] else old(earnings)
    {
      ok := !R.HasEarning(earnings, e.deliveryId);
      if ok {
        earnings := earnings + [e];
      }
    }

    method SettleAndDeliver(d: DeliveryId) returns (r: Result<DeliveryStatus>)
      requires d < |deliveries| && deliveries[d].orderId < |orders|
      modifies this
      ensures Outcome(View(), r) == R.SettleAndDeliver(cfg, old(View()), d)
    {
      var before := View();
      var agent, o := deliveries[d].agentId, deliveries[d].orderId;
      var terms := orders[o].terms;
      var earned := R.AgentEarning(cfg, terms.deliveryFee);
      var settled := SettleDelivery(o);
      if settled.Err? {
        Rollback(before);
        return Err(settled.error);
      }
      deliveries := deliveries[d := deliveries[d].(
        status := DeliveryStatus.Delivered, earning := if earned > 0 then Some(earned) else None)];
      UpdateOrderStatus(o, OrderStatus.Delivered, NOTHING_ELSE);
      if earned > 0 {
        var minted := CreateAgentEarnings(Earning(agent, o, d, earned, terms.currency));
        if !minted {
          Rollback(before);
          return Err(ConstraintViolated);
        }
      }
      WriteOutboxEvent(OrderDelivered(o, agent));
      busy := busy - {agent};
      r := Ok(DeliveryStatus.Delivered);
    }

    method UpdateDeliveryStatus(d: DeliveryId, agent: AgentId, to: DeliveryStatus, reason: bool)
      returns (r: Result<DeliveryStatus>)
      modifies this
      ensures Outcome(View(), r) == R.UpdateDeliveryStatus(cfg, old(View()), d, agent, to, reason)
    {
      if d >= |deliveries| {
        return Err(DeliveryNotFound);
      }
      var row := deliveries[d];
      if row.agentId != agent {
        return Err(DeliveryNotOwned);
      }
      if !R.AgentMay(row.status, to) {
        return Err(InvalidDeliveryTransition);
      }
      if to.Rejected? && !reason {
        return Err(ReasonRequired);
      }
      if row.orderId >= |orders| {
        return Err(OrderNotFound);
      }
      if to.Delivered? {
        r := SettleAndDeliver(d);
        return;
      }
      deliveries := deliveries[d := row.(status := to)];
      if to.Picked? {
        UpdateOrderStatus(row.orderId, OrderStatus.Picked, NOTHING_ELSE);
      }
      if to.Rejected? {
        busy := busy - {agent};
      }
      r := Ok(to);
    }

    // ── presence ────────────────────────────────────────────────────────────

    method GoOnline(agent: AgentId)
      modifies this
      ensures View() == R.GoOnline(old(View()), agent)
    {
      online := online + {agent};
    }

    method GoOffline(agent: AgentId) returns (r: Result<()>)
      modifies this
      ensures Outcome(View(), r) == R.GoOffline(old(View()), agent)
    {
      if agent in busy {
        return Err(AgentInActiveDelivery);
      }
      online := online - {agent};
      r := Ok(());
    }

    /** The presence key outlives its TTL. */
    method PresenceExpires(agent: AgentId)
      modifies this
      ensures View() == R.PresenceExpires(old(View()), agent)
    {
      online := online - {agent};
    }
  }
}
