/** What one might expect of the shard and does not get: runs that show it, and exactly when it holds. */
module Pitfalls {
  import opened Domain
  import opened Requests
  import opened Fulfilment
  import opened Runs
  import opened Lifecycle
  import opened Presence
  import opened Guarantees
  import opened Transitions
  import opened StrandedOrders

  // ── terminal orders ───────────────────────────────────────────────────────

  /**
   * Neither the webhook nor the pickup nor the handover nor the late cancellation looks at the
   * order's status. The first two revive a terminal order, the others replace one terminal status by
   * another, and no other request changes it.
   */
  lemma TerminalStaysExactly(cfg: Config, s: State, step: Step, o: OrderId)
    requires o < |s.orders| && Terminal(s.orders[o].status)
    ensures o < |Apply(cfg, s, step).orders|
    ensures !Terminal(Apply(cfg, s, step).orders[o].status) <==> StepCaptures(s, step, o) || PicksUp(s, step, o)
    ensures Apply(cfg, s, step).orders[o].status != s.orders[o].status <==>
            || StepCaptures(s, step, o)
            || PicksUp(s, step, o)
            || (HandsOver(cfg, s, step, o) && !s.orders[o].status.Delivered?)
            || (step == Void(o) && !s.orders[o].status.Cancelled?)
  {
    StatusMovesExactly(cfg, s, step, o);
  }

  const NOBODY: nat := 0
  const ALICE: nat := 1
  const BOB: nat := 2

  function OneLine(payment: PaymentMethod): Cart {
    Cart(ALICE, ALICE, EGP, payment, [Line(7, 100, 1, 1, true)], 0)
  }

  /** What `OneLine` is billed. */
  function Bill(payment: PaymentMethod): Terms { Terms(ALICE, 7, EGP, payment, 100, 0, 100, 0) }

  lemma OneLineBill(payment: PaymentMethod)
    ensures Quote(OneLine(payment), NO_FEES) == Bill(payment)
  {
    var lines := OneLine(payment).lines;
    assert lines[..0] == [];
    assert Subtotal(lines) == Subtotal([]) + 100;
  }

  lemma OneMore(cfg: Config, s: State, steps: seq<Step>, step: Step) returns (after: State, more: seq<Step>)
    requires s == Reached(cfg, steps)
    ensures after == Apply(cfg, s, step) == Reached(cfg, more) && more == steps + [step]
  {
    assert (steps + [step])[..|steps|] == steps;
    after, more := Apply(cfg, s, step), steps + [step];
  }

  /** A customer cancels before paying, the payment comes through all the same, and the order is placed. */
  lemma CancelledOrderIsPlaced(cfg: Config) returns (steps: seq<Step>)
    ensures var before := Reached(cfg, steps);
            var after := Apply(cfg, before, Hook(Webhook("paid", 0, Success, 0, false)));
            && |before.orders| == |after.orders| == 1
            && before.orders[0].status.Cancelled? && after.orders[0].status.Placed?
  {
    OneLineBill(PaymentMethod.Online);
    var s := EMPTY;
    s, steps := OneMore(cfg, s, [], Place(OneLine(PaymentMethod.Online), NO_FEES));
    assert s.orders == [Order(Bill(PaymentMethod.Online), PendingPayment, false, None, 0)];
    s, steps := OneMore(cfg, s, steps, Init(ALICE, 0, None, true));
    assert IsPendingCharge(s.txs[0], 0);
    s, steps := OneMore(cfg, s, steps, Status(0, ALICE, Customer, OrderStatus.Cancelled, true));
  }

  // ── reassignment ──────────────────────────────────────────────────────────

  /**
   * A reassignment commits the release of the old agent before it looks for a new one. The order
   * has a carrier afterwards exactly when it was ready and somebody was free; after an ordinary
   * assignment it is not ready, so it loses its delivery.
   */
  lemma ReassignKeepsCarrierOnlyIfReady(cfg: Config, steps: seq<Step>, o: OrderId, choice: Choice)
    requires var s := Reached(cfg, steps);
             o < |s.orders| && s.orders[o].reassignments < cfg.maxReassignments
             && FindActiveDelivery(s.deliveries, o).Some?
    ensures var s := Reached(cfg, steps);
            var d := FindActiveDelivery(s.deliveries, o).value;
            var after := ReassignDelivery(cfg, s, o, choice);
            && after.state.deliveries[d].status.Reassigned?
            && (FindActiveDelivery(after.state.deliveries, o).Some? <==>
                s.orders[o].status.Ready? && SelectAgent(ReleaseDelivery(s, d), choice).Ok?)
            && (!s.orders[o].status.Ready? ==> after.reply == Err(OrderNotReady))
  {
    var s := Reached(cfg, steps);
    RunKeepsInvariant(cfg, steps);
    var d := FindActiveDelivery(s.deliveries, o).value;
    var released := ReleaseDelivery(s, d);
    forall i | 0 <= i < |s.deliveries| && i != d
      ensures !(s.deliveries[i].orderId == o && s.deliveries[i].Active())
    {
      if s.deliveries[i].orderId == o && s.deliveries[i].Active() {
        OneActiveDelivery(cfg, steps, i, d);
      }
    }
    assert FindActiveDelivery(released.deliveries, o).None?;
    var after := AssignDelivery(released, o, choice);
    if after.reply.Ok? {
      var added := after.state.deliveries[|s.deliveries|];
      assert added.orderId == o && added.Active();
    }
  }

  /** A rejection leaves its order without a carrier. */
  lemma RejectionLeavesUncarried(cfg: Config, steps: seq<Step>, d: DeliveryId, agent: AgentId)
    requires UpdateDeliveryStatus(cfg, Reached(cfg, steps), d, agent, DeliveryStatus.Rejected, true).reply.Ok?
    ensures var s := Reached(cfg, steps);
            Uncarried(Apply(cfg, s, Progress(d, agent, DeliveryStatus.Rejected, true)), s.deliveries[d].orderId)
  {
    var s := Reached(cfg, steps);
    var o := s.deliveries[d].orderId;
    forall i | 0 <= i < |s.deliveries| && i != d
      ensures !(s.deliveries[i].orderId == o && s.deliveries[i].Active())
    {
      if s.deliveries[i].orderId == o && s.deliveries[i].Active() {
        OneActiveDelivery(cfg, steps, i, d);
      }
    }
  }

  /**
   * The reassignment a rejection triggers runs on its own, some time after the rejection. Unless
   * somebody has assigned the order meanwhile, it finds nothing to reassign.
   */
  lemma RejectionIsNotReassigned(
    cfg: Config, steps: seq<Step>, d: DeliveryId, agent: AgentId, more: seq<Step>, o: OrderId, agents: seq<AgentId>)
    requires UpdateDeliveryStatus(cfg, Reached(cfg, steps), d, agent, DeliveryStatus.Rejected, true).reply.Ok?
    requires o == Reached(cfg, steps).deliveries[d].orderId
    requires var rejected := steps + [Progress(d, agent, DeliveryStatus.Rejected, true)];
             forall n :: 0 <= n < |more| ==> !AssignedAt(cfg, rejected, more, o, n)
    ensures var s := Reached(cfg, steps + [Progress(d, agent, DeliveryStatus.Rejected, true)] + more);
            && o < |s.orders|
            && ReassignDelivery(cfg, s, o, Nearest(agents)) == Outcome(s,
                 Err(if s.orders[o].reassignments >= cfg.maxReassignments then MaxReassignmentsReached
                     else NoActiveDelivery))
  {
    var rejection := Progress(d, agent, DeliveryStatus.Rejected, true);
    var rejected := steps + [rejection];
    assert rejected[..|steps|] == steps;
    RejectionLeavesUncarried(cfg, steps, d, agent);
    UncarriedUntilAssigned(cfg, rejected, more, o);
    var s := Reached(cfg, rejected);
    assert d < |s.deliveries| && s.deliveries[d].orderId == o;
    RunKeepsInvariant(cfg, rejected);
    RowsSettleDown(cfg, s, more, d);
    RunInTurn(cfg, rejected, more);
    RunKeepsInvariant(cfg, rejected + more);
  }

  lemma {:induction false} RunInTurn(cfg: Config, steps: seq<Step>, more: seq<Step>)
    ensures Reached(cfg, steps + more) == Run(cfg, Reached(cfg, steps), more)
  {
    if |more| == 0 {
      assert steps + more == steps;
    } else {
      assert (steps + more)[..|steps + more| - 1] == steps + more[..|more| - 1];
      RunInTurn(cfg, steps, more[..|more| - 1]);
    }
  }

  // ── cash ──────────────────────────────────────────────────────────────────

  /** The paid card order 0 and the cash order 1 of one restaurant, both ready, and two agents. */
  function TwoOrders(): State {
    State(
      [Order(Bill(PaymentMethod.Online), Ready, false, None, 0), Order(Bill(Cod), Ready, false, None, 0)],
      [Transaction(Some(0), Charge, Succeeded, 100, EGP, Some(ALICE), None, None),
       Collection(1, Bill(Cod))],
      map["paid" := true],
      map[Account(7, EGP) := Balance(100, 0, 100)],
      [], [],
      [OrderPlaced(0), PaymentCompleted(0, 0, 100), OrderPlaced(1), StatusChanged(0, Ready), StatusChanged(1, Ready)],
      {}, {ALICE, BOB})
  }

  /** … and before that, the paid card order alone. */
  function CardPaid(): State {
    State(
      [Order(Bill(PaymentMethod.Online), Placed, false, None, 0)],
      [Transaction(Some(0), Charge, Succeeded, 100, EGP, Some(ALICE), None, None)],
      map["paid" := true],
      map[Account(7, EGP) := Balance(100, 0, 100)],
      [], [],
      [OrderPlaced(0), PaymentCompleted(0, 0, 100)],
      {}, {})
  }

  lemma CardPaidReached(cfg: Config) returns (steps: seq<Step>)
    ensures Reached(cfg, steps) == CardPaid()
  {
    OneLineBill(PaymentMethod.Online);
    var s := EMPTY;
    s, steps := OneMore(cfg, s, [], Place(OneLine(PaymentMethod.Online), NO_FEES));
    assert s.orders == [Order(Bill(PaymentMethod.Online), PendingPayment, false, None, 0)];
    s, steps := OneMore(cfg, s, steps, Init(ALICE, 0, None, true));
    assert s.txs == [Transaction(Some(0), Charge, Pending, 100, EGP, Some(ALICE), None, None)];
    assert IsPendingCharge(s.txs[0], 0);
    s, steps := OneMore(cfg, s, steps, Hook(Webhook("paid", 0, Success, 0, false)));
    assert s.outbox == CardPaid().outbox;
  }

  lemma TwoOrdersReached(cfg: Config) returns (steps: seq<Step>)
    ensures Reached(cfg, steps) == TwoOrders()
  {
    OneLineBill(Cod);
    steps := CardPaidReached(cfg);
    var s := CardPaid();
    s, steps := OneMore(cfg, s, steps, Place(OneLine(Cod), NO_FEES));
    assert s.orders == CardPaid().orders + [Order(Bill(Cod), Placed, false, None, 0)];
    s, steps := OneMore(cfg, s, steps, Status(0, NOBODY, SystemAdmin, Ready, true));
    s, steps := OneMore(cfg, s, steps, Status(1, NOBODY, SystemAdmin, Ready, true));
    s, steps := OneMore(cfg, s, steps, Step.Online(ALICE));
    s, steps := OneMore(cfg, s, steps, Step.Online(BOB));
    assert s.orders == TwoOrders().orders && s.txs == TwoOrders().txs && s.outbox == TwoOrders().outbox;
  }

  /** Assigned, accepted and picked up by the agent. */
  lemma CarriedBy(cfg: Config, s: State, steps: seq<Step>, o: OrderId, agent: AgentId)
    returns (after: State, more: seq<Step>)
    requires s == Reached(cfg, steps)
    requires o < |s.orders| && s.orders[o].status.Ready? && Free(s, agent)
    requires FindActiveDelivery(s.deliveries, o).None?
    ensures after == Reached(cfg, more)
    ensures after
         == s.(orders := s.orders[o := s.orders[o].(status := OrderStatus.Picked, agentId := Some(agent))],
               deliveries := s.deliveries + [Delivery(o, agent, DeliveryStatus.Picked, None)],
               busy := s.busy + {agent})
  {
    var d := |s.deliveries|;
    after, more := OneMore(cfg, s, steps, Assign(o, Manual(agent)));
    assert after.deliveries[d] == Delivery(o, agent, DeliveryStatus.Assigned, None);
    after, more := OneMore(cfg, after, more, Progress(d, agent, DeliveryStatus.Accepted, false));
    assert after.deliveries[d] == Delivery(o, agent, DeliveryStatus.Accepted, None);
    after, more := OneMore(cfg, after, more, Progress(d, agent, DeliveryStatus.Picked, false));
    assert after.deliveries == s.deliveries + [Delivery(o, agent, DeliveryStatus.Picked, None)];
    assert after.orders == s.orders[o := s.orders[o].(status := OrderStatus.Picked, agentId := Some(agent))];
  }

  /**
   * A run in which a paid and picked-up card order cannot be handed over: the cash order delivered
   * before it has moved the money it was waiting for.
   */
  lemma CashStopsCardHandover(cfg: Config) returns (steps: seq<Step>)
    ensures var s := Reached(cfg, steps);
            && |s.orders| == |s.deliveries| == 2 && s.deliveries[0] == Delivery(0, ALICE, DeliveryStatus.Picked, None)
            && s.orders[0].terms.payment.Online? && HasCapturedCharge(s.txs, 0)
            && UpdateDeliveryStatus(cfg, s, 0, ALICE, DeliveryStatus.Delivered, false) == Outcome(s, Err(ConstraintViolated))
  {
    var s;
    s, steps := CashDelivered(cfg);
    assert s.orders[0].terms == Bill(PaymentMethod.Online);
  }

  /** Alice carries the card order, and Bob has delivered the cash order. */
  lemma CashDelivered(cfg: Config) returns (s: State, steps: seq<Step>)
    ensures s == Reached(cfg, steps)
    ensures |s.orders| == |s.deliveries| == |s.txs| == 2
    ensures s.orders[0] == TwoOrders().orders[0].(status := OrderStatus.Picked, agentId := Some(ALICE))
    ensures s.deliveries[0] == Delivery(0, ALICE, DeliveryStatus.Picked, None)
    ensures s.txs[0] == TwoOrders().txs[0] && s.balances == map[Account(7, EGP) := Balance(0, 100, 100)]
  {
    steps := TwoOrdersReached(cfg);
    s := TwoOrders();
    s, steps := CarriedBy(cfg, s, steps, 0, ALICE);
    s, steps := CarriedBy(cfg, s, steps, 1, BOB);
    assert IsPendingCollection(s.txs[1], 1) && !IsPendingCollection(s.txs[0], 1);
    s, steps := OneMore(cfg, s, steps, Progress(1, BOB, DeliveryStatus.Delivered, false));
  }

  /** A run in which a reassignment takes an order's delivery away and gives it no other. */
  lemma ReassignmentStrands(cfg: Config) returns (steps: seq<Step>)
    requires cfg.maxReassignments > 0
    ensures var before, after := Reached(cfg, steps), Apply(cfg, Reached(cfg, steps), Reassign(0, Manual(BOB)));
            && |before.orders| == |after.orders| == 2
            && FindActiveDelivery(before.deliveries, 0).Some? && Free(before, BOB)
            && after.orders[0].status.Assigned? && FindActiveDelivery(after.deliveries, 0).None?
  {
    steps := TwoOrdersReached(cfg);
    var s := TwoOrders();
    s, steps := OneMore(cfg, s, steps, Assign(0, Manual(ALICE)));
    assert s.deliveries == [Delivery(0, ALICE, DeliveryStatus.Assigned, None)];
  }

  /** A run in which an admin cancels an order on its way, its agent picks it up, and the order is picked. */
  lemma CancelledOrderIsPicked(cfg: Config) returns (steps: seq<Step>)
    ensures var before, after := Reached(cfg, steps), Apply(cfg, Reached(cfg, steps), PickUp(0, ALICE));
            && |before.orders| == |after.orders| == 2
            && before.orders[0].status.Cancelled? && after.orders[0].status.Picked?
  {
    var s;
    s, steps := AcceptedByAlice(cfg);
    s, steps := OneMore(cfg, s, steps, Status(0, NOBODY, SystemAdmin, OrderStatus.Cancelled, true));
  }

  lemma AcceptedByAlice(cfg: Config) returns (s: State, steps: seq<Step>)
    ensures s == Reached(cfg, steps)
    ensures |s.orders| == 2 && s.orders[0].status.Assigned?
    ensures s.deliveries == [Delivery(0, ALICE, DeliveryStatus.Accepted, None)]
  {
    steps := TwoOrdersReached(cfg);
    s := TwoOrders();
    s, steps := OneMore(cfg, s, steps, Assign(0, Manual(ALICE)));
    assert s.deliveries == [Delivery(0, ALICE, DeliveryStatus.Assigned, None)];
    s, steps := OneMore(cfg, s, steps, Progress(0, ALICE, DeliveryStatus.Accepted, false));
  }

  function PickUp(d: DeliveryId, agent: AgentId): Step { Progress(d, agent, DeliveryStatus.Picked, false) }

  // ── claims ────────────────────────────────────────────────────────────────

  /** A run in which a claim leaves its agent busy and its order assigned, and nobody carries anything. */
  lemma ClaimStrandsAgent(cfg: Config) returns (steps: seq<Step>)
    ensures var s := Reached(cfg, steps);
            && |s.orders| == 2 && s.orders[0].status.Assigned? && s.orders[0].agentId == Some(ALICE)
            && ALICE in s.busy && s.deliveries == []
            && exists n :: StrandedAt(cfg, steps, ALICE, n)
  {
    steps := TwoOrdersReached(cfg);
    var s := TwoOrders();
    s, steps := OneMore(cfg, s, steps, Claim(0, ALICE));
    BusyMeansCarryingExactly(cfg, steps, ALICE);
  }

  // ── cancellations ─────────────────────────────────────────────────────────

  /** Only captures, refunds, payouts and handovers touch a balance. */
  predicate MovesMoney(step: Step) {
    || (step.Hook? && step.webhook.verdict.Success?)
    || step.Refund? || step.Pay?
    || (step.Progress? && step.move.Delivered?)
  }

  lemma ProgressKeepsMoney(cfg: Config, s: State, step: Step)
    requires step.Progress? && !step.move.Delivered?
    ensures Apply(cfg, s, step).balances == s.balances
  {
  }

  lemma HookKeepsMoney(s: State, w: Webhook)
    requires !w.verdict.Success?
    ensures HandleWebhook(s, w).state.balances == s.balances
  {
  }

  /** No cancellation moves money, nor does any other request but those four. */
  lemma MoneyStays(cfg: Config, s: State, step: Step)
    requires !MovesMoney(step)
    ensures Apply(cfg, s, step).balances == s.balances
    ensures OrdersOnly(step) ==> Apply(cfg, s, step).txs == s.txs
  {
    if step.Progress? {
      ProgressKeepsMoney(cfg, s, step);
    } else if step.Hook? {
      HookKeepsMoney(s, step.webhook);
    } else if OrdersOnly(step) {
      OrdersOnlyKeepsTerms(cfg, s, step);
    }
  }

  /** A run in which a customer cancels a paid order and is not refunded. */
  lemma CancelledOrderKeepsItsCharge(cfg: Config) returns (steps: seq<Step>)
    ensures var s := Reached(cfg, steps);
            && |s.orders| == |s.txs| == 1 && s.orders[0].status.Cancelled?
            && HasCapturedCharge(s.txs, 0) && !s.txs[0].IsRefunded()
            && s.balances == map[Account(7, EGP) := Balance(100, 0, 100)]
  {
    steps := CardPaidReached(cfg);
    var s := CardPaid();
    s, steps := OneMore(cfg, s, steps, Status(0, ALICE, Customer, OrderStatus.Cancelled, true));
    assert s.txs[0] == CardPaid().txs[0];
  }

  /** A run in which the sweep reads an unpaid order, the payment comes through, and the sweep cancels the order. */
  lemma SweepCancelsPaidOrder(cfg: Config) returns (steps: seq<Step>)
    ensures |steps| > 1
    ensures var read := Reached(cfg, steps[..|steps| - 1]);
            var s := Apply(cfg, Reached(cfg, steps), Void(0));
            && |read.orders| == |s.orders| == 1 && Stale(read.orders[0], 1)
            && s.orders[0].status.Cancelled? && HasCapturedCharge(s.txs, 0)
  {
    OneLineBill(PaymentMethod.Online);
    var place, init := Place(OneLine(PaymentMethod.Online), NO_FEES), Init(ALICE, 0, None, true);
    var s := EMPTY;
    s, steps := OneMore(cfg, s, [], place);
    assert s.orders == [Order(Bill(PaymentMethod.Online), PendingPayment, false, None, 0)];
    s, steps := OneMore(cfg, s, steps, init);
    assert s.txs == [Transaction(Some(0), Charge, Pending, 100, EGP, Some(ALICE), None, None)];
    assert IsPendingCharge(s.txs[0], 0);
    s, steps := OneMore(cfg, s, steps, Hook(Webhook("paid", 0, Success, 0, false)));
    assert s.txs == CardPaid().txs && s.txs[0].status.Succeeded?;
    assert steps[..|steps| - 1] == [place, init];
  }
}
