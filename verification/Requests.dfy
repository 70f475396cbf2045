/**
 * Every request of the shard as a function of the tables: the branches and replies of the
 * services, one database transaction at a time. A transaction that raises leaves the tables as
 * they were.
 */
module Requests {
  import opened Domain
  import F = Finance

  // ── reads ─────────────────────────────────────────────────────────────────

  predicate IsPendingCharge(t: Transaction, o: OrderId) {
    t.orderId == Some(o) && t.kind.Charge? && t.status.Pending?
  }

  function FirstPendingCharge(txs: seq<Transaction>, o: OrderId, from: nat): (r: Option<TxId>)
    requires from <= |txs|
    ensures r.Some? ==> from <= r.value < |txs| && IsPendingCharge(txs[r.value], o)
    ensures r.None? ==> forall t :: from <= t < |txs| ==> !IsPendingCharge(txs[t], o)
    decreases |txs| - from
  {
    if from == |txs| then None
    else if IsPendingCharge(txs[from], o) then Some(from)
    else FirstPendingCharge(txs, o, from + 1)
  }

  /**
   * `findPendingPaymentByOrderId` reads `.first()` without an ORDER BY: with several pending
   * charges the database returns whichever it likes. `hint` is that choice.
   */
  function PickPendingCharge(txs: seq<Transaction>, o: OrderId, hint: TxId): (r: Option<TxId>)
    ensures r.Some? ==> r.value < |txs| && IsPendingCharge(txs[r.value], o)
    ensures r.None? ==> forall t :: 0 <= t < |txs| ==> !IsPendingCharge(txs[t], o)
    ensures hint < |txs| && IsPendingCharge(txs[hint], o) ==> r == Some(hint)
  {
    if hint < |txs| && IsPendingCharge(txs[hint], o) then Some(hint) else FirstPendingCharge(txs, o, 0)
  }

  predicate IsPendingCollection(t: Transaction, o: OrderId) {
    t.orderId == Some(o) && t.kind.CodCollection? && t.status.Pending?
  }

  function FirstPendingCollection(txs: seq<Transaction>, o: OrderId, from: nat): (r: Option<TxId>)
    requires from <= |txs|
    ensures r.Some? ==> from <= r.value < |txs| && IsPendingCollection(txs[r.value], o)
    ensures r.None? ==> forall t :: from <= t < |txs| ==> !IsPendingCollection(txs[t], o)
    decreases |txs| - from
  {
    if from == |txs| then None
    else if IsPendingCollection(txs[from], o) then Some(from)
    else FirstPendingCollection(txs, o, from + 1)
  }

  predicate HasCapturedCharge(txs: seq<Transaction>, o: OrderId) {
    exists t :: 0 <= t < |txs| && txs[t].orderId == Some(o) && txs[t].kind.Charge? && txs[t].status.Succeeded?
  }

  function FirstActive(ds: seq<Delivery>, o: OrderId, from: nat): (r: Option<DeliveryId>)
    requires from <= |ds|
    ensures r.Some? ==> from <= r.value < |ds| && ds[r.value].orderId == o && ds[r.value].Active()
    ensures r.None? ==> forall d :: from <= d < |ds| ==> !(ds[d].orderId == o && ds[d].Active())
    decreases |ds| - from
  {
    if from == |ds| then None
    else if ds[from].orderId == o && ds[from].Active() then Some(from)
    else FirstActive(ds, o, from + 1)
  }

  function FindActiveDelivery(ds: seq<Delivery>, o: OrderId): Option<DeliveryId> { FirstActive(ds, o, 0) }

  // ── writes ────────────────────────────────────────────────────────────────

  function WithStatus(s: State, o: OrderId, status: OrderStatus): State
    requires o < |s.orders|
  {
    s.(orders := s.orders[o := s.orders[o].(status := status)])
  }

  function WithTx(s: State, t: TxId, tx: Transaction): State
    requires t < |s.txs|
  {
    s.(txs := s.txs[t := tx])
  }

  function WithDelivery(s: State, d: DeliveryId, status: DeliveryStatus): State
    requires d < |s.deliveries|
  {
    s.(deliveries := s.deliveries[d := s.deliveries[d].(status := status)])
  }

  function Announce(s: State, e: Event): State { s.(outbox := s.outbox + [e]) }

  /** The CHECKs of `transactions`. */
  predicate Insertable(t: Transaction) {
    0 < t.amount <= F.INT_MAX && (t.source.Some? || t.destination.Some?)
  }

  // ── orders ────────────────────────────────────────────────────────────────

  /** One item of the request, joined with the product the core service returned for it. */
  datatype Line = Line(restaurantId: nat, price: int, quantity: nat, stock: int, available: bool)

  datatype Cart = Cart(
    customerId: nat,
    addressOwner: nat,
    currency: Currency,
    payment: PaymentMethod,
    lines: seq<Line>,
    placedAt: nat)

  datatype Fees = Fees(delivery: int, service: int, discount: int)

  /** The fees `placeOrder` charges today. */
  const NO_FEES := Fees(0, 0, 0)

  function Subtotal(lines: seq<Line>): int {
    if |lines| == 0 then 0
    else Subtotal(lines[..|lines| - 1]) + lines[|lines| - 1].price * lines[|lines| - 1].quantity
  }

  predicate InStock(line: Line) { line.available && line.stock >= line.quantity }

  function Quote(cart: Cart, fees: Fees): Terms
    requires |cart.lines| > 0
  {
    var subtotal := Subtotal(cart.lines);
    Terms(
      cart.customerId, cart.lines[0].restaurantId, cart.currency, cart.payment, subtotal, fees.delivery,
      subtotal + fees.delivery + fees.service - fees.discount, cart.placedAt)
  }

  /** The CHECKs of `orders`. */
  predicate Billable(terms: Terms, fees: Fees) {
    && 0 <= terms.subtotal <= F.INT_MAX
    && 0 <= fees.delivery <= F.INT_MAX
    && 0 <= fees.service <= F.INT_MAX
    && 0 <= fees.discount <= F.INT_MAX
    && 0 <= terms.total <= F.INT_MAX
  }

  function Collection(o: OrderId, terms: Terms): Transaction {
    Transaction(Some(o), CodCollection, Pending, terms.total, terms.currency, Some(terms.customerId), None, None)
  }

  function PlaceOrder(s: State, cart: Cart, fees: Fees): Outcome<OrderId> {
    if |cart.lines| == 0 then Outcome(s, Err(ValidationFailed))
    else if cart.addressOwner != cart.customerId then Outcome(s, Err(AddressNotFound))
    else if exists i :: 0 <= i < |cart.lines| && !InStock(cart.lines[i]) then Outcome(s, Err(OutOfStock))
    else if exists i :: 0 <= i < |cart.lines| && cart.lines[i].restaurantId != cart.lines[0].restaurantId then
      Outcome(s, Err(MixedRestaurants))
    else
      var terms := Quote(cart, fees);
      var o := |s.orders|;
      if !Billable(terms, fees) || (terms.payment.Cod? && !Insertable(Collection(o, terms))) then
        Outcome(s, Err(ConstraintViolated))
      else
        var status := if terms.payment.Online? then PendingPayment else Placed;
        var placed := s.(
          orders := s.orders + [Order(terms, status, false, None, 0)],
          txs := if terms.payment.Cod? then s.txs + [Collection(o, terms)] else s.txs);
        Outcome(Announce(placed, OrderPlaced(o)), Ok(o))
  }

  /** The reservation in the core service failed after the order was committed. */
  function VoidOrder(s: State, o: OrderId): State {
    if o < |s.orders| then WithStatus(s, o, OrderStatus.Cancelled) else s
  }

  predicate Stale(order: Order, cutoff: nat) {
    order.status.PendingPayment? && order.terms.createdAt < cutoff
  }

  /** Cancels every order that has waited for its payment since before `cutoff`. */
  function SweepExpired(s: State, cutoff: nat): State {
    s.(orders := seq(|s.orders|, o requires 0 <= o < |s.orders| =>
                       if Stale(s.orders[o], cutoff) then s.orders[o].(status := OrderStatus.Cancelled)
                       else s.orders[o]))
  }

  predicate Terminal(status: OrderStatus) { status.Delivered? || status.Rejected? || status.Cancelled? }

  /** The values the request body may name. */
  predicate Requestable(to: OrderStatus) {
    to.Accepted? || to.Rejected? || to.Preparing? || to.Ready? || to.Cancelled?
  }

  predicate CustomerMay(from: OrderStatus, to: OrderStatus) {
    (from.PendingPayment? || from.Placed?) && to.Cancelled?
  }

  predicate RestaurantMay(from: OrderStatus, to: OrderStatus) {
    match from
    case Placed => to.Accepted? || to.Rejected? || to.Cancelled?
    case Accepted => to.Preparing? || to.Cancelled?
    case Preparing => to.Ready? || to.Cancelled?
    case _ => false
  }

  function StatusRefusal(order: Order, actor: nat, role: Role, to: OrderStatus, reason: bool): Option<Error> {
    if Terminal(order.status) then Some(OrderAlreadyFinalized)
    else if role.Customer? && order.terms.customerId != actor then Some(OrderAccessDenied)
    else if role.Customer? && !CustomerMay(order.status, to) then Some(InvalidStatusTransition)
    else if role.Customer? && order.status.Placed? && order.accepted then Some(CancellationWindowExpired)
    else if role.RestaurantUser? && !RestaurantMay(order.status, to) then Some(InvalidStatusTransition)
    else if role.DeliveryAgent? then Some(InvalidStatusTransition)
    else if (to.Rejected? || to.Cancelled?) && !reason then Some(ReasonRequired)
    else None
  }

  function UpdateStatus(s: State, o: OrderId, actor: nat, role: Role, to: OrderStatus, reason: bool)
    : Outcome<OrderStatus>
  {
    if !Requestable(to) then Outcome(s, Err(ValidationFailed))
    else if o >= |s.orders| then Outcome(s, Err(OrderNotFound))
    else
      var order := s.orders[o];
      var refusal := StatusRefusal(order, actor, role, to, reason);
      if refusal.Some? then Outcome(s, Err(refusal.value))
      else
        var moved := order.(status := to, accepted := order.accepted || to.Accepted?);
        var written := Announce(s.(orders := s.orders[o := moved]), StatusChanged(o, to));
        Outcome(if to.Cancelled? then Announce(written, OrderCancelled(o)) else written, Ok(to))
  }

  /** The compare-and-set of the assignment service: only a ready order without an agent is claimed. */
  function ClaimReadyOrder(s: State, o: OrderId, agent: AgentId): Outcome<OrderId> {
    if o < |s.orders| && s.orders[o].status.Ready? && s.orders[o].agentId.None? then
      Outcome(
        s.(orders := s.orders[o := s.orders[o].(status := OrderStatus.Assigned, agentId := Some(agent))],
           busy := s.busy + {agent}),
        Ok(o))
    else
      Outcome(s, Err(OrderNotReady))
  }

  // ── payments ──────────────────────────────────────────────────────────────

  /** `cached` is the transaction of a live session found in the session cache. */
  function InitPayment(s: State, customerId: nat, o: OrderId, cached: Option<TxId>, providerUp: bool)
    : Outcome<TxId>
  {
    if o >= |s.orders| then Outcome(s, Err(OrderNotFound))
    else
      var order := s.orders[o];
      if order.terms.customerId != customerId then Outcome(s, Err(Forbidden))
      else if !order.terms.payment.Online? || !order.status.PendingPayment? then Outcome(s, Err(OrderNotPayable))
      else if cached.Some? then Outcome(s, Ok(cached.value))
      else if !providerUp then Outcome(s, Err(ProviderUnavailable))
      else
        var charge := Transaction(
          Some(o), Charge, Pending, order.terms.total, order.terms.currency, Some(customerId), None, None);
        if !Insertable(charge) then Outcome(s, Err(ConstraintViolated))
        else Outcome(s.(txs := s.txs + [charge]), Ok(|s.txs|))
  }

  datatype Verdict = Success | Failure | Interim

  /** `faulty`: the database connection fails before the transaction commits. */
  datatype Webhook = Webhook(eventId: EventId, orderId: OrderId, verdict: Verdict, hint: TxId, faulty: bool)

  datatype Ack = Ignored | Duplicate | NothingPending | Processed(txId: TxId)

  function HandleWebhook(s: State, w: Webhook): Outcome<Ack> {
    if w.verdict.Interim? then Outcome(s, Ok(Ignored))
    else if w.faulty then Outcome(s, Err(DatabaseFault))
    else if w.eventId in s.events then Outcome(s, Ok(Duplicate))
    else
      var pending := PickPendingCharge(s.txs, w.orderId, w.hint);
      if pending.None? || w.orderId >= |s.orders| then
        Outcome(s.(events := s.events[w.eventId := false]), Ok(NothingPending))
      else
        var t := pending.value;
        var seen := s.(events := s.events[w.eventId := true]);
        if w.verdict.Failure? then
          Outcome(WithTx(seen, t, s.txs[t].(status := Failed)), Ok(Processed(t)))
        else
          var terms := s.orders[w.orderId].terms;
          var credited := F.Credit(s.balances, terms.Payee(), terms.subtotal);
          if credited.None? then Outcome(s, Err(ConstraintViolated))
          else
            var paid := WithStatus(
              WithTx(seen, t, s.txs[t].(status := Succeeded)), w.orderId, Placed);
            Outcome(
              Announce(paid.(balances := credited.value), PaymentCompleted(w.orderId, t, terms.total)),
              Ok(Processed(t)))
  }

  /** `amount` is omitted for a full refund. */
  function RefundPayment(s: State, t: TxId, amount: Option<int>): Outcome<TxId> {
    if t >= |s.txs| then Outcome(s, Err(TransactionNotFound))
    else
      var tx := s.txs[t];
      if !(tx.status.Succeeded? && tx.kind.Charge?) || tx.IsRefunded() then Outcome(s, Err(PaymentAlreadyCompleted))
      else if tx.orderId.None? then Outcome(s, Err(NoAssociatedOrder))
      else if tx.orderId.value >= |s.orders| then Outcome(s, Err(OrderNotFound))
      else
        var refund := Transaction(
          tx.orderId, Refund, Pending, if amount.Some? then amount.value else tx.amount, tx.currency,
          None, tx.source, None);
        var payee := Account(s.orders[tx.orderId.value].terms.restaurantId, tx.currency);
        var debited := F.Debit(s.balances, payee, refund.amount);
        if !Insertable(refund) || debited.None? then Outcome(s, Err(ConstraintViolated))
        else
          var r := |s.txs|;
          Outcome(
            s.(txs := (s.txs + [refund])[t := tx.(refundedBy := Some(r))], balances := debited.value),
            Ok(r))
  }

  function CreatePayout(s: State, account: Account, amount: int): Outcome<TxId> {
    if !F.Payable(s.balances, account, amount) then Outcome(s, Err(InsufficientBalance))
    else
      var paid := F.Payout(s.balances, account, amount);
      var payout := Transaction(
        None, TxKind.Payout, Pending, amount, account.currency, Some(account.restaurantId), None, None);
      if paid.None? || !Insertable(payout) then Outcome(s, Err(ConstraintViolated))
      else Outcome(s.(txs := s.txs + [payout], balances := paid.value), Ok(|s.txs|))
  }

  // ── deliveries ────────────────────────────────────────────────────────────

  /** Either the agent an admin names, or the agents of a geo search, nearest first. */
  datatype Choice = Manual(agent: AgentId) | Nearest(agents: seq<AgentId>)

  predicate Free(s: State, agent: AgentId) { agent in s.online && agent !in s.busy }

  function FirstFree(s: State, agents: seq<AgentId>): (r: Option<AgentId>)
    ensures r.Some? ==>
              exists i :: 0 <= i < |agents| && agents[i] == r.value && Free(s, agents[i])
                          && forall j :: 0 <= j < i ==> !Free(s, agents[j])
    ensures r.None? ==> forall i :: 0 <= i < |agents| ==> !Free(s, agents[i])
  {
    if |agents| == 0 then None
    else if Free(s, agents[0]) then Some(agents[0])
    else
      var r := FirstFree(s, agents[1..]);
      assert forall i :: 0 < i < |agents| ==> agents[1..][i - 1] == agents[i];
      r
  }

  function SelectAgent(s: State, choice: Choice): Result<AgentId> {
    match choice
    case Manual(agent) => if Free(s, agent) then Ok(agent) else Err(AgentInActiveDelivery)
    case Nearest(agents) =>
      var r := FirstFree(s, agents);
      if r.Some? then Ok(r.value) else Err(NoEligibleAgents)
  }

  function AssignDelivery(s: State, o: OrderId, choice: Choice): Outcome<DeliveryId> {
    if o >= |s.orders| then Outcome(s, Err(OrderNotFound))
    else if !s.orders[o].status.Ready? then Outcome(s, Err(OrderNotReady))
    else if FindActiveDelivery(s.deliveries, o).Some? then Outcome(s, Err(OrderAlreadyHasActiveDelivery))
    else
      var agent := SelectAgent(s, choice);
      if agent.Err? then Outcome(s, Err(agent.error))
      else
        Outcome(
          s.(orders := s.orders[o := s.orders[o].(status := OrderStatus.Assigned, agentId := Some(agent.value))],
             deliveries := s.deliveries + [Delivery(o, agent.value, DeliveryStatus.Assigned, None)],
             busy := s.busy + {agent.value}),
          Ok(|s.deliveries|))
  }

  /** The first transaction of a reassignment, and the release of the old agent. */
  function ReleaseDelivery(s: State, d: DeliveryId): State
    requires d < |s.deliveries| && s.deliveries[d].orderId < |s.orders|
  {
    var o := s.deliveries[d].orderId;
    WithDelivery(s, d, Reassigned).(
      orders := s.orders[o := s.orders[o].(reassignments := s.orders[o].reassignments + 1)],
      busy := s.busy - {s.deliveries[d].agentId})
  }

  function ReassignDelivery(cfg: Config, s: State, o: OrderId, choice: Choice): Outcome<DeliveryId> {
    if o >= |s.orders| then Outcome(s, Err(OrderNotFound))
    else if s.orders[o].reassignments >= cfg.maxReassignments then Outcome(s, Err(MaxReassignmentsReached))
    else
      var active := FindActiveDelivery(s.deliveries, o);
      if active.None? then Outcome(s, Err(NoActiveDelivery))
      else AssignDelivery(ReleaseDelivery(s, active.value), o, choice)
  }

  function AgentEarning(cfg: Config, fee: int): int { fee * cfg.earningShareBps / BPS }

  /** The platform takes no commission yet. */
  const COMMISSION := 0

  /** `settleDelivery` and then the balance move; the error is the one that rolls the delivery back. */
  function SettlePayment(s: State, o: OrderId): Result<State>
    requires o < |s.orders|
  {
    var terms := s.orders[o].terms;
    var settled := F.Settle(s.balances, terms.Payee(), terms.subtotal, COMMISSION);
    if terms.payment.Cod? then
      var collection := FirstPendingCollection(s.txs, o, 0);
      var collected :=
        if collection.Some? then WithTx(s, collection.value, s.txs[collection.value].(status := Succeeded)) else s;
      if settled.Some? then Ok(collected.(balances := settled.value)) else Err(ConstraintViolated)
    else if !HasCapturedCharge(s.txs, o) then Err(PaymentNotSettled)
    else if settled.Some? then Ok(s.(balances := settled.value))
    else Err(ConstraintViolated)
  }

  predicate HasEarning(earnings: seq<Earning>, d: DeliveryId) {
    exists e :: 0 <= e < |earnings| && earnings[e].deliveryId == d
  }

  function SettleAndDeliver(cfg: Config, s: State, d: DeliveryId): Outcome<DeliveryStatus>
    requires d < |s.deliveries| && s.deliveries[d].orderId < |s.orders|
  {
    var row := s.deliveries[d];
    var o := row.orderId;
    var settled := SettlePayment(s, o);
    if settled.Err? then Outcome(s, Err(settled.error))
    else
      var terms := s.orders[o].terms;
      var earned := AgentEarning(cfg, terms.deliveryFee);
      // UNIQUE (delivery_id)
      if earned > 0 && HasEarning(s.earnings, d) then Outcome(s, Err(ConstraintViolated))
      else
        var delivered := row.(status := DeliveryStatus.Delivered, earning := if earned > 0 then Some(earned) else None);
        Outcome(
          WithStatus(settled.value, o, OrderStatus.Delivered).(
            deliveries := s.deliveries[d := delivered],
            earnings := if earned > 0
                        then s.earnings + [Earning(row.agentId, o, d, earned, terms.currency)]
                        else s.earnings,
            outbox := s.outbox + [OrderDelivered(o, row.agentId)],
            busy := s.busy - {row.agentId}),
          Ok(DeliveryStatus.Delivered))
  }

  predicate AgentMay(from: DeliveryStatus, to: DeliveryStatus) {
    match from
    case Assigned => to.Accepted? || to.Rejected?
    case Accepted => to.Picked?
    case Picked => to.Delivered?
    case _ => false
  }

  function UpdateDeliveryStatus(
    cfg: Config, s: State, d: DeliveryId, agent: AgentId, to: DeliveryStatus, reason: bool)
    : Outcome<DeliveryStatus>
  {
    if d >= |s.deliveries| then Outcome(s, Err(DeliveryNotFound))
    else
      var row := s.deliveries[d];
      if row.agentId != agent then Outcome(s, Err(DeliveryNotOwned))
      else if !AgentMay(row.status, to) then Outcome(s, Err(InvalidDeliveryTransition))
      else if to.Rejected? && !reason then Outcome(s, Err(ReasonRequired))
      else if row.orderId >= |s.orders| then Outcome(s, Err(OrderNotFound))
      else if to.Delivered? then SettleAndDeliver(cfg, s, d)
      else
        var moved := WithDelivery(s, d, to);
        Outcome(
          match to
          case Picked => WithStatus(moved, row.orderId, OrderStatus.Picked)
          case Rejected => moved.(busy := s.busy - {agent})
          case _ => moved,
          Ok(to))
  }

  // ── presence ──────────────────────────────────────────────────────────────

  function GoOnline(s: State, agent: AgentId): State { s.(online := s.online + {agent}) }

  function GoOffline(s: State, agent: AgentId): Outcome<()> {
    if agent in s.busy then Outcome(s, Err(AgentInActiveDelivery))
    else Outcome(s.(online := s.online - {agent}), Ok(()))
  }

  /** The presence key outlives its TTL. */
  function PresenceExpires(s: State, agent: AgentId): State { s.(online := s.online - {agent}) }
}
