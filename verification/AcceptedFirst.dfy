/** Without an admin's hand on the status, nothing is prepared, carried or delivered that the restaurant has not accepted. */
module AcceptedFirst {
  import opened Domain
  import opened Requests
  import opened Fulfilment
  import opened Runs
  import opened Lifecycle
  import opened Transitions
  import opened Guarantees

  /** The statuses behind the restaurant's acceptance. */
  const BEHIND_ACCEPTANCE: set<OrderStatus> := {
    OrderStatus.Accepted, Preparing, Ready, OrderStatus.Assigned, OrderStatus.Picked, OrderStatus.Delivered}

  ghost predicate AcceptedOk(s: State) {
    && (forall o :: 0 <= o < |s.orders| && s.orders[o].status in BEHIND_ACCEPTANCE ==> s.orders[o].accepted)
    && (forall d :: 0 <= d < |s.deliveries| ==>
          s.deliveries[d].orderId < |s.orders| && s.orders[s.deliveries[d].orderId].accepted)
  }

  /** An acceptance is never taken back. */
  lemma AcceptanceStays(cfg: Config, s: State, step: Step, o: OrderId)
    requires o < |s.orders|
    ensures var after := Apply(cfg, s, step);
            o < |after.orders| && (s.orders[o].accepted ==> after.orders[o].accepted)
  {
    if step.Progress? || step.Hook? {
      PaymentAndProgressKeepAcceptance(cfg, s, step, o);
    } else if step.Reassign? {
      ReassignKeepsAcceptance(cfg, s, step.o, step.choice, o);
    }
  }

  lemma PaymentAndProgressKeepAcceptance(cfg: Config, s: State, step: Step, o: OrderId)
    requires o < |s.orders| && (step.Progress? || step.Hook?)
    ensures var after := Apply(cfg, s, step);
            o < |after.orders| && after.orders[o].accepted == s.orders[o].accepted
  {
  }

  lemma ReassignKeepsAcceptance(cfg: Config, s: State, p: OrderId, choice: Choice, o: OrderId)
    requires o < |s.orders|
    ensures var after := ReassignDelivery(cfg, s, p, choice).state;
            o < |after.orders| && after.orders[o].accepted == s.orders[o].accepted
  {
  }

  /** An update by anybody but an admin leads behind the acceptance by the acceptance only. */
  lemma UpdateAccepts(s: State, o: OrderId, actor: nat, role: Role, to: OrderStatus, reason: bool)
    requires AcceptedOk(s) && role != SystemAdmin && UpdateStatus(s, o, actor, role, to, reason).reply.Ok?
    ensures to in BEHIND_ACCEPTANCE ==> UpdateStatus(s, o, actor, role, to, reason).state.orders[o].accepted
  {
  }

  lemma StatusAccepted(cfg: Config, s: State, step: Step, o: OrderId)
    requires AcceptedOk(s) && !AdminOverride(step) && o < |s.orders|
    ensures var after := Apply(cfg, s, step);
            o < |after.orders| && (after.orders[o].status in BEHIND_ACCEPTANCE ==> after.orders[o].accepted)
  {
    StatusMovesExactly(cfg, s, step, o);
    AcceptanceStays(cfg, s, step, o);
    if step.Status? && step.o == o && UpdateStatus(s, o, step.actor, step.role, step.to, step.reason).reply.Ok? {
      UpdateAccepts(s, o, step.actor, step.role, step.to, step.reason);
    }
  }

  /** Rows keep their orders, and orders keep their acceptance. */
  ghost predicate Carried(s: State, after: State) {
    && |s.deliveries| <= |after.deliveries| <= |s.deliveries| + 1
    && (forall d :: 0 <= d < |s.deliveries| ==> after.deliveries[d].orderId == s.deliveries[d].orderId)
    && |s.orders| <= |after.orders|
    && forall o :: 0 <= o < |s.orders| && s.orders[o].accepted ==> after.orders[o].accepted
  }

  lemma StepCarries(cfg: Config, s: State, step: Step)
    requires FulfilmentOk(cfg, s)
    ensures Carried(s, Apply(cfg, s, step))
  {
    StepRows(cfg, s, step);
    if !step.Place? {
      OnlyPlacingAddsOrders(cfg, s, step);
    }
    forall o | 0 <= o < |s.orders| && s.orders[o].accepted ensures Apply(cfg, s, step).orders[o].accepted {
      AcceptanceStays(cfg, s, step, o);
    }
  }

  lemma DeliveriesAccepted(s: State, after: State)
    requires AcceptedOk(s) && Carried(s, after)
    requires |s.deliveries| < |after.deliveries| ==>
               var o := after.deliveries[|s.deliveries|].orderId; o < |after.orders| && after.orders[o].accepted
    ensures forall d :: 0 <= d < |after.deliveries| ==>
              after.deliveries[d].orderId < |after.orders| && after.orders[after.deliveries[d].orderId].accepted
  {
  }

  lemma NewRowAccepted(cfg: Config, s: State, step: Step)
    requires AcceptedOk(s) && FulfilmentOk(cfg, s) && |s.deliveries| < |Apply(cfg, s, step).deliveries|
    ensures var after := Apply(cfg, s, step);
            var o := after.deliveries[|s.deliveries|].orderId;
            o < |after.orders| && after.orders[o].accepted
  {
    NewRowIsReady(cfg, s, step);
    AcceptanceStays(cfg, s, step, Apply(cfg, s, step).deliveries[|s.deliveries|].orderId);
  }

  /** A delivery is created for a ready order. */
  lemma NewRowIsReady(cfg: Config, s: State, step: Step)
    requires FulfilmentOk(cfg, s) && |s.deliveries| < |Apply(cfg, s, step).deliveries|
    ensures var o := Apply(cfg, s, step).deliveries[|s.deliveries|].orderId;
            o < |s.orders| && s.orders[o].status == Ready
  {
    match step
    case Assign(o, choice) => AssignRows(s, o, choice);
    case Reassign(o, choice) =>
      var active := FindActiveDelivery(s.deliveries, o);
      if o < |s.orders| && s.orders[o].reassignments < cfg.maxReassignments && active.Some? {
        AssignRows(ReleaseDelivery(s, active.value), o, choice);
      }
    case _ => OthersAddNoRows(cfg, s, step);
  }

  lemma OthersAddNoRows(cfg: Config, s: State, step: Step)
    requires !step.Assign? && !step.Reassign?
    ensures |Apply(cfg, s, step).deliveries| == |s.deliveries|
  {
    if step.Progress? {
      ProgressRows(cfg, s, step.d, step.agent, step.move, step.reason);
    } else if OrdersOnly(step) {
      OrdersOnlyKeepsTerms(cfg, s, step);
    }
  }

  lemma StepAccepted(cfg: Config, s: State, step: Step)
    requires AcceptedOk(s) && FulfilmentOk(cfg, s) && !AdminOverride(step)
    ensures AcceptedOk(Apply(cfg, s, step))
  {
    var after := Apply(cfg, s, step);
    forall o | 0 <= o < |after.orders| && after.orders[o].status in BEHIND_ACCEPTANCE ensures after.orders[o].accepted {
      if o < |s.orders| {
        StatusAccepted(cfg, s, step, o);
      } else if step.Place? {
        NewOrdersWait(s, step.cart, step.fees);
      } else {
        OnlyPlacingAddsOrders(cfg, s, step);
      }
    }
    StepCarries(cfg, s, step);
    if |s.deliveries| < |after.deliveries| {
      NewRowAccepted(cfg, s, step);
    }
    DeliveriesAccepted(s, after);
  }

  lemma NewOrdersWait(s: State, cart: Cart, fees: Fees)
    ensures var after := PlaceOrder(s, cart, fees).state.orders;
            forall o :: |s.orders| <= o < |after| ==> after[o].status !in BEHIND_ACCEPTANCE
  {
  }

  /**
   * In every run without admin overrides, an order that is preparing, ready, assigned, picked or
   * delivered, or that has a delivery at all, has been accepted by its restaurant.
   */
  lemma {:induction false} NothingMovesUnaccepted(cfg: Config, steps: seq<Step>)
    requires forall i :: 0 <= i < |steps| ==> !AdminOverride(steps[i])
    ensures AcceptedOk(Reached(cfg, steps))
  {
    if |steps| > 0 {
      var earlier := steps[..|steps| - 1];
      NothingMovesUnaccepted(cfg, earlier);
      RunKeepsInvariant(cfg, earlier);
      StepAccepted(cfg, Reached(cfg, earlier), steps[|steps| - 1]);
    }
  }
}
