/** What a step may do to an order: the webhooks that capture, and when a status moves. */
module Transitions {
  import opened Domain
  import opened Tally
  import opened Requests
  import opened Fulfilment
  import opened Runs
  import F = Finance

  /** The webhook captures a pending charge of order `o`. */
  predicate Captures(s: State, w: Webhook, o: OrderId)
    requires o < |s.orders|
  {
    && w.orderId == o && w.verdict.Success? && !w.faulty && w.eventId !in s.events
    && (exists t :: 0 <= t < |s.txs| && IsPendingCharge(s.txs[t], o))
    && F.Credit(s.balances, s.orders[o].terms.Payee(), s.orders[o].terms.subtotal).Some?
  }

  predicate StepCaptures(s: State, step: Step, o: OrderId)
    requires o < |s.orders|
  {
    step.Hook? && Captures(s, step.webhook, o)
  }

  /** The agent of an accepted delivery of order `o` picks it up. */
  predicate PicksUp(s: State, step: Step, o: OrderId) {
    && step.Progress? && step.move.Picked? && step.d < |s.deliveries|
    && var row := s.deliveries[step.d];
       row.orderId == o && row.agentId == step.agent && row.status.Accepted?
  }

  /** The agent of a picked-up delivery of order `o` hands it over, and the payment settles. */
  predicate HandsOver(cfg: Config, s: State, step: Step, o: OrderId) {
    && step.Progress? && step.move.Delivered? && step.d < |s.deliveries| && s.deliveries[step.d].orderId == o
    && UpdateDeliveryStatus(cfg, s, step.d, step.agent, step.move, step.reason).reply.Ok?
  }

  // ── charges ───────────────────────────────────────────────────────────────

  lemma HookCharges(s: State, w: Webhook, o: OrderId)
    requires o < |s.orders|
    ensures Charges(HandleWebhook(s, w).state.txs, o) == Charges(s.txs, o) + if Captures(s, w, o) then 1 else 0
  {
    var after := HandleWebhook(s, w).state;
    var pending := PickPendingCharge(s.txs, w.orderId, w.hint);
    if pending.Some? && after.txs != s.txs {
      TxUpdated([], s.txs, pending.value, after.txs[pending.value]);
    }
  }

  lemma RefundCharges(s: State, t: TxId, amount: Option<int>, o: OrderId)
    ensures Charges(RefundPayment(s, t, amount).state.txs, o) == Charges(s.txs, o)
  {
    var after := RefundPayment(s, t, amount);
    if after.reply.Ok? {
      var refund := after.state.txs[|s.txs|];
      TxAppended([], s.txs, refund);
      TxUpdated([], s.txs + [refund], t, after.state.txs[t]);
    }
  }

  lemma ProgressCharges(
    cfg: Config, s: State, d: DeliveryId, agent: AgentId, to: DeliveryStatus, reason: bool, o: OrderId)
    ensures Charges(UpdateDeliveryStatus(cfg, s, d, agent, to, reason).state.txs, o) == Charges(s.txs, o)
  {
    var after := UpdateDeliveryStatus(cfg, s, d, agent, to, reason).state;
    if after.txs != s.txs {
      var collection := FirstPendingCollection(s.txs, s.deliveries[d].orderId, 0);
      TxUpdated([], s.txs, collection.value, after.txs[collection.value]);
    }
  }

  lemma AppendedCharges(txs: seq<Transaction>, after: seq<Transaction>, o: OrderId)
    requires txs <= after && |after| <= |txs| + 1
    requires |txs| < |after| ==> !Captured(after[|txs|])
    ensures Charges(after, o) == Charges(txs, o)
  {
    if |txs| < |after| {
      assert after == txs + [after[|txs|]];
      TxAppended([], txs, after[|txs|]);
    } else {
      assert after == txs;
    }
  }

  /** Only a capturing webhook adds a succeeded charge to an order, one at a time, and nothing takes one away. */
  lemma StepCharges(cfg: Config, s: State, step: Step, o: OrderId)
    requires o < |s.orders|
    ensures Charges(Apply(cfg, s, step).txs, o) == Charges(s.txs, o) + if StepCaptures(s, step, o) then 1 else 0
  {
    match step
    case Hook(w) => HookCharges(s, w, o);
    case Refund(t, amount) => RefundCharges(s, t, amount, o);
    case Progress(d, agent, to, reason) => ProgressCharges(cfg, s, d, agent, to, reason, o);
    case _ => AppendedCharges(s.txs, Apply(cfg, s, step).txs, o);
  }

  // ── statuses ──────────────────────────────────────────────────────────────

  lemma HookStatus(s: State, w: Webhook, o: OrderId)
    requires o < |s.orders|
    ensures var after := HandleWebhook(s, w).state.orders;
            |after| == |s.orders| && after[o].status == if Captures(s, w, o) then Placed else s.orders[o].status
  {
  }

  lemma ProgressStatus(cfg: Config, s: State, step: Step, o: OrderId)
    requires o < |s.orders| && step.Progress?
    ensures var after := Apply(cfg, s, step).orders;
            && |after| == |s.orders|
            && after[o].status == if PicksUp(s, step, o) then OrderStatus.Picked
                                  else if HandsOver(cfg, s, step, o) then OrderStatus.Delivered
                                  else s.orders[o].status
  {
  }

  lemma AssignStatus(s: State, p: OrderId, choice: Choice, o: OrderId)
    requires o < |s.orders|
    ensures var after := AssignDelivery(s, p, choice).state.orders;
            |after| == |s.orders|
            && (after[o].status == s.orders[o].status || (p == o && s.orders[o].status.Ready? && after[o].status.Assigned?))
  {
  }

  lemma ReassignStatus(cfg: Config, s: State, p: OrderId, choice: Choice, o: OrderId)
    requires o < |s.orders|
    ensures var after := ReassignDelivery(cfg, s, p, choice).state.orders;
            |after| == |s.orders|
            && (after[o].status == s.orders[o].status || (p == o && s.orders[o].status.Ready? && after[o].status.Assigned?))
  {
    var active := FindActiveDelivery(s.deliveries, p);
    if p < |s.orders| && s.orders[p].reassignments < cfg.maxReassignments && active.Some? {
      AssignStatus(ReleaseDelivery(s, active.value), p, choice, o);
    }
  }

  /** The four requests that only write orders, and which of them write this one. */
  predicate Writes(s: State, step: Step, o: OrderId)
    requires o < |s.orders|
  {
    match step
    case Void(p) => p == o
    case Sweep(cutoff) => Stale(s.orders[o], cutoff)
    case Status(p, actor, role, to, reason) => p == o && UpdateStatus(s, o, actor, role, to, reason).reply.Ok?
    case Claim(p, _) => p == o && Claimable(s.orders[o])
    case _ => false
  }

  /** What a claim asks of the order. */
  predicate Claimable(order: Order) { order.status.Ready? && order.agentId.None? }

  function WrittenStatus(step: Step): OrderStatus
    requires OrdersOnly(step)
  {
    match step
    case Status(_, _, _, to, _) => to
    case Claim(_, _) => OrderStatus.Assigned
    case _ => OrderStatus.Cancelled
  }

  lemma OrdersOnlyStatus(cfg: Config, s: State, step: Step, o: OrderId)
    requires o < |s.orders| && OrdersOnly(step)
    ensures var after := Apply(cfg, s, step).orders;
            |after| == |s.orders| && after[o].status == if Writes(s, step, o) then WrittenStatus(step) else s.orders[o].status
  {
  }

  lemma OtherStatus(cfg: Config, s: State, step: Step, o: OrderId)
    requires o < |s.orders|
    requires step.Place? || step.Init? || step.Refund? || step.Pay? || step.Online? || step.Offline? || step.Expire?
    ensures var after := Apply(cfg, s, step).orders;
            |after| >= |s.orders| && after[o] == s.orders[o]
  {
  }

  /** The step assigns order `o`, which was ready. */
  predicate Assigns(cfg: Config, s: State, step: Step, o: OrderId)
    requires o < |s.orders|
  {
    && s.orders[o].status.Ready?
    && match step
       case Assign(p, choice) => p == o && AssignDelivery(s, o, choice).reply.Ok?
       case Reassign(p, choice) => p == o && ReassignDelivery(cfg, s, o, choice).reply.Ok?
       case _ => false
  }

  /** The status a step leaves an order in, whatever the step and whatever the status. */
  function StatusAfter(cfg: Config, s: State, step: Step, o: OrderId): OrderStatus
    requires o < |s.orders|
  {
    if StepCaptures(s, step, o) then Placed
    else if PicksUp(s, step, o) then OrderStatus.Picked
    else if HandsOver(cfg, s, step, o) then OrderStatus.Delivered
    else if OrdersOnly(step) && Writes(s, step, o) then WrittenStatus(step)
    else if Assigns(cfg, s, step, o) then OrderStatus.Assigned
    else s.orders[o].status
  }

  lemma AssignsStatus(cfg: Config, s: State, step: Step, o: OrderId)
    requires o < |s.orders| && (step.Assign? || step.Reassign?)
    ensures var after := Apply(cfg, s, step).orders;
            |after| == |s.orders| && after[o].status == if Assigns(cfg, s, step, o) then OrderStatus.Assigned else s.orders[o].status
  {
    if step.Reassign? {
      ReassignStatus(cfg, s, step.o, step.choice, o);
    } else {
      AssignStatus(s, step.o, step.choice, o);
    }
  }

  /** Every change of an order's status, and no other. */
  lemma StatusMovesExactly(cfg: Config, s: State, step: Step, o: OrderId)
    requires o < |s.orders|
    ensures o < |Apply(cfg, s, step).orders|
    ensures Apply(cfg, s, step).orders[o].status == StatusAfter(cfg, s, step, o)
  {
    match step
    case Hook(w) => HookStatus(s, w, o);
    case Progress(_, _, _, _) => ProgressStatus(cfg, s, step, o);
    case Assign(_, _) => AssignsStatus(cfg, s, step, o);
    case Reassign(_, _) => AssignsStatus(cfg, s, step, o);
    case _ =>
      if OrdersOnly(step) {
        OrdersOnlyStatus(cfg, s, step, o);
      } else {
        OtherStatus(cfg, s, step, o);
      }
  }

  lemma OnlyPlacingAddsOrders(cfg: Config, s: State, step: Step)
    requires !step.Place?
    ensures |Apply(cfg, s, step).orders| == |s.orders|
  {
  }
}
