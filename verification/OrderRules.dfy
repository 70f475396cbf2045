/** What the order requests promise, told from the tables alone: prices, edges, refusals and everything they write. */
module OrderRules {
  import opened Domain
  import opened Sums
  import opened Requests

  // ── prices ────────────────────────────────────────────────────────────────

  function LinePrice(line: Line): int { line.price * line.quantity }

  /** What the lines cost together. */
  function CartPrice(lines: seq<Line>): int { Sum(lines, LinePrice) }

  lemma {:induction false} SubtotalIsCartPrice(lines: seq<Line>)
    ensures Subtotal(lines) == CartPrice(lines)
  {
    if |lines| > 0 {
      SubtotalIsCartPrice(lines[..|lines| - 1]);
    }
  }

  predicate FitsInt(x: int) { 0 <= x <= 2_147_483_647 }

  /** The order is accepted for these lines, and the amounts fit their columns. */
  predicate Orderable(cart: Cart, fees: Fees) {
    var subtotal := CartPrice(cart.lines);
    var total := subtotal + fees.delivery + fees.service - fees.discount;
    && FitsInt(subtotal) && FitsInt(fees.delivery) && FitsInt(fees.service) && FitsInt(fees.discount)
    && FitsInt(total)
    && (cart.payment.Cod? ==> total > 0)
  }

  predicate AllInStock(lines: seq<Line>) {
    forall i :: 0 <= i < |lines| ==> lines[i].available && lines[i].quantity <= lines[i].stock
  }

  predicate OneRestaurant(lines: seq<Line>) {
    forall i, j :: 0 <= i < |lines| && 0 <= j < |lines| ==> lines[i].restaurantId == lines[j].restaurantId
  }

  /** When an order is placed, and which refusal comes first when it is not. */
  lemma PlacedExactly(s: State, cart: Cart, fees: Fees)
    ensures var after := PlaceOrder(s, cart, fees);
            && (after.reply.Err? ==> after.state == s)
            && after.reply == if cart.lines == [] then Err(ValidationFailed)
                              else if cart.addressOwner != cart.customerId then Err(AddressNotFound)
                              else if !AllInStock(cart.lines) then Err(OutOfStock)
                              else if !OneRestaurant(cart.lines) then Err(MixedRestaurants)
                              else if !Orderable(cart, fees) then Err(ConstraintViolated)
                              else Ok(|s.orders|)
  {
    SubtotalIsCartPrice(cart.lines);
    assert (exists i :: 0 <= i < |cart.lines| && !InStock(cart.lines[i])) <==> !AllInStock(cart.lines);
    if |cart.lines| > 0 {
      SameAsFirst(cart.lines);
    }
  }

  lemma SameAsFirst(lines: seq<Line>)
    requires |lines| > 0
    ensures OneRestaurant(lines) <==>
            !exists i :: 0 <= i < |lines| && lines[i].restaurantId != lines[0].restaurantId
  {
  }

  /**
   * The order costs what its lines cost, price times quantity, and the fees on top. It belongs to
   * the customer and the restaurant of the lines, waits for its payment if it is an online one, and
   * is placed at once with its collection row otherwise.
   */
  lemma OrderIsPriced(s: State, cart: Cart, fees: Fees)
    requires PlaceOrder(s, cart, fees).reply.Ok?
    ensures var after := PlaceOrder(s, cart, fees).state;
            var o := |s.orders|;
            && |after.orders| == o + 1 && after.orders[..o] == s.orders
            && var order := after.orders[o];
            && order.terms.subtotal == CartPrice(cart.lines)
            && order.terms.deliveryFee == fees.delivery
            && order.terms.total == CartPrice(cart.lines) + fees.delivery + fees.service - fees.discount
            && order.terms.customerId == cart.customerId
            && (forall i :: 0 <= i < |cart.lines| ==> order.terms.restaurantId == cart.lines[i].restaurantId)
            && order.terms.currency == cart.currency
            && order.terms.payment == cart.payment
            && order.terms.createdAt == cart.placedAt
            && (cart.payment.Online? ==> order.status.PendingPayment?)
            && (cart.payment.Cod? ==> order.status.Placed?)
            && !order.accepted && order.agentId == None && order.reassignments == 0
  {
    SubtotalIsCartPrice(cart.lines);
    SameAsFirst(cart.lines);
    assert PlaceOrder(s, cart, fees).state.orders[..|s.orders|] == s.orders;
  }

  /** And nothing else is written than the order, the collection row of a cash order, and one announcement. */
  lemma OrderIsRecorded(s: State, cart: Cart, fees: Fees)
    requires PlaceOrder(s, cart, fees).reply.Ok?
    ensures var after := PlaceOrder(s, cart, fees).state;
            var o := |s.orders|;
            var total := CartPrice(cart.lines) + fees.delivery + fees.service - fees.discount;
            && after == s.(orders := after.orders, txs := after.txs, outbox := after.outbox)
            && after.outbox == s.outbox + [OrderPlaced(o)]
            && after.txs == s.txs + if cart.payment.Online? then [] else
                 [Transaction(Some(o), CodCollection, TxStatus.Pending, total, cart.currency, Some(cart.customerId), None, None)]
  {
    SubtotalIsCartPrice(cart.lines);
  }

  /** Today there are no fees: an order costs its lines. */
  lemma TodayTotalsAreSubtotals(s: State, cart: Cart)
    requires PlaceOrder(s, cart, NO_FEES).reply.Ok?
    ensures var terms := PlaceOrder(s, cart, NO_FEES).state.orders[|s.orders|].terms;
            terms.total == terms.subtotal == CartPrice(cart.lines) && terms.deliveryFee == 0
  {
    OrderIsPriced(s, cart, NO_FEES);
  }

  // ── status updates ────────────────────────────────────────────────────────

  /** What the request may name. */
  const REQUESTABLE: set<OrderStatus> := {
    OrderStatus.Accepted, OrderStatus.Rejected, Preparing, Ready, OrderStatus.Cancelled}

  const FINAL: set<OrderStatus> := {OrderStatus.Delivered, OrderStatus.Rejected, OrderStatus.Cancelled}

  const NEED_REASON: set<OrderStatus> := {OrderStatus.Rejected, OrderStatus.Cancelled}

  const CUSTOMER_EDGES: set<(OrderStatus, OrderStatus)> := {
    (PendingPayment, OrderStatus.Cancelled), (Placed, OrderStatus.Cancelled)}

  const RESTAURANT_EDGES: set<(OrderStatus, OrderStatus)> := {
    (Placed, OrderStatus.Accepted), (Placed, OrderStatus.Rejected), (Placed, OrderStatus.Cancelled),
    (OrderStatus.Accepted, Preparing), (OrderStatus.Accepted, OrderStatus.Cancelled),
    (Preparing, Ready), (Preparing, OrderStatus.Cancelled)}

  /** The refusals, in the order in which they are found. */
  lemma UpdatedExactly(s: State, o: OrderId, actor: nat, role: Role, to: OrderStatus, reason: bool)
    ensures var after := UpdateStatus(s, o, actor, role, to, reason);
            && (after.reply.Err? ==> after.state == s)
            && (to !in REQUESTABLE ==> after.reply == Err(ValidationFailed))
            && (to in REQUESTABLE && o >= |s.orders| ==> after.reply == Err(OrderNotFound))
            && (to in REQUESTABLE && o < |s.orders| ==>
                  var order := s.orders[o];
                  after.reply ==
                  if order.status in FINAL then Err(OrderAlreadyFinalized)
                  else if role == Customer && order.terms.customerId != actor then Err(OrderAccessDenied)
                  else if role == Customer && (order.status, to) !in CUSTOMER_EDGES then Err(InvalidStatusTransition)
                  else if role == Customer && order.status == Placed && order.accepted then Err(CancellationWindowExpired)
                  else if role == RestaurantUser && (order.status, to) !in RESTAURANT_EDGES then Err(InvalidStatusTransition)
                  else if role == DeliveryAgent then Err(InvalidStatusTransition)
                  else if to in NEED_REASON && !reason then Err(ReasonRequired)
                  else Ok(to))
  {
  }

  /** A successful update writes the status, the stamp of an acceptance, and its announcements; nothing else. */
  lemma UpdateIsRecorded(s: State, o: OrderId, actor: nat, role: Role, to: OrderStatus, reason: bool)
    requires UpdateStatus(s, o, actor, role, to, reason).reply.Ok?
    ensures var after := UpdateStatus(s, o, actor, role, to, reason).state;
            && after == s.(orders := after.orders, outbox := after.outbox)
            && |after.orders| == |s.orders|
            && (forall p :: 0 <= p < |s.orders| && p != o ==> after.orders[p] == s.orders[p])
            && after.orders[o].status == to
            && (after.orders[o].accepted <==> s.orders[o].accepted || to == OrderStatus.Accepted)
            && after.orders[o] == s.orders[o].(status := after.orders[o].status, accepted := after.orders[o].accepted)
            && after.outbox == s.outbox + [StatusChanged(o, to)]
                             + if to == OrderStatus.Cancelled then [OrderCancelled(o)] else []
  {
    var after := UpdateStatus(s, o, actor, role, to, reason).state;
    if to == OrderStatus.Cancelled {
      assert after.outbox == s.outbox + [StatusChanged(o, to)] + [OrderCancelled(o)];
    } else {
      assert after.outbox == s.outbox + [StatusChanged(o, to)] + [];
    }
  }

  // ── cancellations and claims ──────────────────────────────────────────────

  /** The late cancellation, whatever the status, writes that and nothing else. */
  lemma VoidedExactly(s: State, o: OrderId)
    ensures var after := VoidOrder(s, o);
            && after == s.(orders := after.orders) && |after.orders| == |s.orders|
            && forall p :: 0 <= p < |s.orders| ==>
                 after.orders[p] == if p == o then s.orders[p].(status := OrderStatus.Cancelled) else s.orders[p]
  {
  }

  /** The sweep cancels exactly the orders that wait for their payment and were created before the cutoff. */
  lemma SweptExactly(s: State, cutoff: nat)
    ensures var after := SweepExpired(s, cutoff);
            && after == s.(orders := after.orders) && |after.orders| == |s.orders|
            && forall p :: 0 <= p < |s.orders| ==>
                 after.orders[p] ==
                 if s.orders[p].status == PendingPayment && s.orders[p].terms.createdAt < cutoff
                 then s.orders[p].(status := OrderStatus.Cancelled)
                 else s.orders[p]
  {
  }

  /** A claim goes through exactly for a ready order without an agent, and makes it the agent's. */
  lemma ClaimedExactly(s: State, o: OrderId, agent: AgentId)
    ensures var after := ClaimReadyOrder(s, o, agent);
            if o < |s.orders| && s.orders[o].status == Ready && s.orders[o].agentId == None
            then && after.reply == Ok(o)
                 && after.state == s.(orders := after.state.orders, busy := after.state.busy)
                 && after.state.busy == s.busy + {agent}
                 && |after.state.orders| == |s.orders|
                 && after.state.orders[o] == s.orders[o].(status := OrderStatus.Assigned, agentId := Some(agent))
                 && forall p :: 0 <= p < |s.orders| && p != o ==> after.state.orders[p] == s.orders[p]
            else after == Outcome(s, Err(OrderNotReady))
  {
  }
}
