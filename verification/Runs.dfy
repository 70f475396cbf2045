/** Runs of the shard: any sequence of requests, jobs and expiries, each one atomic. */
module Runs {
  import opened Domain
  import opened Tally
  import opened Requests
  import opened Ledger
  import opened Fulfilment
  import opened Announcements
  import opened Earnings
  import opened Presence
  import opened PaidFirst
  import opened Backing

  datatype Step =
    | Place(cart: Cart, fees: Fees)
    | Void(o: OrderId)
    | Sweep(cutoff: nat)
    | Status(o: OrderId, actor: nat, role: Role, to: OrderStatus, reason: bool)
    | Claim(o: OrderId, agent: AgentId)
    | Init(customerId: nat, o: OrderId, cached: Option<TxId>, providerUp: bool)
    | Hook(webhook: Webhook)
    | Refund(t: TxId, refund: Option<int>)
    | Pay(account: Account, amount: int)
    | Assign(o: OrderId, choice: Choice)
    | Reassign(o: OrderId, choice: Choice)
    | Progress(d: DeliveryId, agent: AgentId, move: DeliveryStatus, reason: bool)
    | Online(agent: AgentId)
    | Offline(agent: AgentId)
    | Expire(agent: AgentId)

  function Apply(cfg: Config, s: State, step: Step): State {
    match step
    case Place(cart, fees) => PlaceOrder(s, cart, fees).state
    case Void(o) => VoidOrder(s, o)
    case Sweep(cutoff) => SweepExpired(s, cutoff)
    case Status(o, actor, role, to, reason) => UpdateStatus(s, o, actor, role, to, reason).state
    case Claim(o, agent) => ClaimReadyOrder(s, o, agent).state
    case Init(customerId, o, cached, up) => InitPayment(s, customerId, o, cached, up).state
    case Hook(w) => HandleWebhook(s, w).state
    case Refund(t, amount) => RefundPayment(s, t, amount).state
    case Pay(account, amount) => CreatePayout(s, account, amount).state
    case Assign(o, choice) => AssignDelivery(s, o, choice).state
    case Reassign(o, choice) => ReassignDelivery(cfg, s, o, choice).state
    case Progress(d, agent, to, reason) => UpdateDeliveryStatus(cfg, s, d, agent, to, reason).state
    case Online(agent) => GoOnline(s, agent)
    case Offline(agent) => GoOffline(s, agent).state
    case Expire(agent) => PresenceExpires(s, agent)
  }

  function Run(cfg: Config, s: State, steps: seq<Step>): State {
    if |steps| == 0 then s else Apply(cfg, Run(cfg, s, steps[..|steps| - 1]), steps[|steps| - 1])
  }

  // ── one step ──────────────────────────────────────────────────────────────

  /** These steps write nothing but the mutable columns of orders. */
  predicate OrdersOnly(step: Step) { step.Void? || step.Sweep? || step.Status? || step.Claim? }

  lemma OrdersOnlyKeepsTerms(cfg: Config, s: State, step: Step)
    requires OrdersOnly(step)
    ensures var after := Apply(cfg, s, step);
            && TermsOf(after.orders) == TermsOf(s.orders)
            && after.txs == s.txs && after.balances == s.balances
            && after.deliveries == s.deliveries && after.earnings == s.earnings
  {
  }

  lemma DeliveryKeepsTerms(cfg: Config, s: State, step: Step)
    requires step.Assign? || step.Reassign? || (step.Progress? && !step.move.Delivered?)
    ensures var after := Apply(cfg, s, step);
            TermsOf(after.orders) == TermsOf(s.orders) && after.txs == s.txs && after.balances == s.balances
  {
  }

  lemma HookKeepsTerms(s: State, w: Webhook)
    ensures TermsOf(HandleWebhook(s, w).state.orders) == TermsOf(s.orders)
    ensures HandleWebhook(s, w).state.deliveries == s.deliveries && HandleWebhook(s, w).state.earnings == s.earnings
  {
  }

  lemma StepLedger(cfg: Config, s: State, step: Step)
    requires LedgerOk(s) && FulfilmentOk(cfg, s)
    ensures LedgerOk(Apply(cfg, s, step))
  {
    match step
    case Place(cart, fees) => PlaceOrderLedger(s, cart, fees);
    case Void(_) => OrdersOnlyKeepsTerms(cfg, s, step);
    case Sweep(_) => OrdersOnlyKeepsTerms(cfg, s, step);
    case Status(_, _, _, _, _) => OrdersOnlyKeepsTerms(cfg, s, step);
    case Claim(_, _) => OrdersOnlyKeepsTerms(cfg, s, step);
    case Init(customerId, o, cached, up) => InitPaymentLedger(s, customerId, o, cached, up);
    case Hook(w) => HandleWebhookLedger(s, w);
    case Refund(t, amount) => RefundLedger(s, t, amount);
    case Pay(account, amount) => PayoutLedger(s, account, amount);
    case Assign(_, _) => DeliveryKeepsTerms(cfg, s, step);
    case Reassign(_, _) => DeliveryKeepsTerms(cfg, s, step);
    case Progress(d, _, to, _) =>
      if !to.Delivered? {
        DeliveryKeepsTerms(cfg, s, step);
      } else if d < |s.deliveries| {
        SettleLedger(cfg, s, d);
      }
    case Online(_) =>
    case Offline(_) =>
    case Expire(_) =>
  }

  lemma StepFulfilment(cfg: Config, s: State, step: Step)
    requires FulfilmentOk(cfg, s)
    ensures FulfilmentOk(cfg, Apply(cfg, s, step))
  {
    match step
    case Place(cart, fees) => PlaceOrderFulfilment(cfg, s, cart, fees);
    case Void(o) => VoidOrderFulfilment(cfg, s, o);
    case Sweep(cutoff) => SweepFulfilment(cfg, s, cutoff);
    case Status(o, actor, role, to, reason) => UpdateStatusFulfilment(cfg, s, o, actor, role, to, reason);
    case Claim(o, agent) => ClaimFulfilment(cfg, s, o, agent);
    case Init(customerId, o, cached, up) => InitPaymentFulfilment(cfg, s, customerId, o, cached, up);
    case Hook(w) => HandleWebhookFulfilment(cfg, s, w);
    case Refund(t, amount) => RefundFulfilment(cfg, s, t, amount);
    case Pay(account, amount) => PayoutFulfilment(cfg, s, account, amount);
    case Assign(o, choice) => AssignFulfilment(cfg, s, o, choice);
    case Reassign(o, choice) => ReassignFulfilment(cfg, s, o, choice);
    case Progress(d, agent, to, reason) => ProgressFulfilment(cfg, s, d, agent, to, reason);
    case Online(_) =>
    case Offline(_) =>
    case Expire(_) =>
  }

  lemma StepOutbox(cfg: Config, s: State, step: Step)
    requires OutboxOk(s) && FulfilmentOk(cfg, s)
    ensures OutboxOk(Apply(cfg, s, step))
  {
    match step
    case Place(cart, fees) => PlaceOrderOutbox(s, cart, fees);
    case Void(_) =>
    case Sweep(_) =>
    case Status(o, actor, role, to, reason) => UpdateStatusOutbox(s, o, actor, role, to, reason);
    case Claim(_, _) =>
    case Init(customerId, o, cached, up) => InitPaymentOutbox(s, customerId, o, cached, up);
    case Hook(w) => HandleWebhookOutbox(s, w);
    case Refund(t, amount) => RefundOutbox(s, t, amount);
    case Pay(account, amount) => PayoutOutbox(s, account, amount);
    case Assign(o, choice) => AssignOutbox(s, o, choice);
    case Reassign(o, choice) => ReassignOutbox(cfg, s, o, choice);
    case Progress(d, agent, to, reason) => ProgressOutbox(cfg, s, d, agent, to, reason);
    case Online(_) =>
    case Offline(_) =>
    case Expire(_) =>
  }

  /** These steps touch neither orders nor deliveries nor earnings. */
  lemma LedgerOnlyKeepsRows(cfg: Config, s: State, step: Step)
    requires step.Init? || step.Refund? || step.Pay? || step.Online? || step.Offline? || step.Expire?
    ensures var after := Apply(cfg, s, step);
            after.orders == s.orders && after.deliveries == s.deliveries && after.earnings == s.earnings
  {
  }

  lemma StepEarnings(cfg: Config, s: State, step: Step)
    requires EarningsOk(cfg, s)
    ensures EarningsOk(cfg, Apply(cfg, s, step))
  {
    match step
    case Place(cart, fees) => PlaceOrderEarnings(cfg, s, cart, fees);
    case Void(_) => OrdersOnlyKeepsTerms(cfg, s, step);
    case Sweep(_) => OrdersOnlyKeepsTerms(cfg, s, step);
    case Status(_, _, _, _, _) => OrdersOnlyKeepsTerms(cfg, s, step);
    case Claim(_, _) => OrdersOnlyKeepsTerms(cfg, s, step);
    case Hook(w) => HookKeepsTerms(s, w);
    case Assign(o, choice) => AssignEarnings(cfg, s, o, choice);
    case Reassign(o, choice) => ReassignEarnings(cfg, s, o, choice);
    case Progress(d, agent, to, reason) => ProgressEarnings(cfg, s, d, agent, to, reason);
    case _ => LedgerOnlyKeepsRows(cfg, s, step);
  }

  lemma StepBacked(cfg: Config, s: State, step: Step)
    requires BackedOk(s) && LedgerOk(s)
    ensures BackedOk(Apply(cfg, s, step))
  {
    match step
    case Place(cart, fees) => PlaceOrderBacked(s, cart, fees);
    case Void(_) => OrdersOnlyKeepsTerms(cfg, s, step);
    case Sweep(_) => OrdersOnlyKeepsTerms(cfg, s, step);
    case Status(_, _, _, _, _) => OrdersOnlyKeepsTerms(cfg, s, step);
    case Claim(_, _) => OrdersOnlyKeepsTerms(cfg, s, step);
    case Init(customerId, o, cached, up) => InitPaymentBacked(s, customerId, o, cached, up);
    case Hook(w) => HandleWebhookBacked(s, w);
    case Refund(t, amount) => RefundBacked(s, t, amount);
    case Pay(account, amount) => PayoutBacked(s, account, amount);
    case Assign(o, choice) => AssignBacked(s, o, choice);
    case Reassign(o, choice) => ReassignBacked(cfg, s, o, choice);
    case Progress(d, agent, to, reason) => ProgressBacked(cfg, s, d, agent, to, reason);
    case Online(_) =>
    case Offline(_) =>
    case Expire(_) =>
  }

  /** The stranded agents after the step. */
  function StrandedAfter(s: State, step: Step, stranded: set<AgentId>): set<AgentId> {
    if step.Claim? && Strands(s, step.o, step.agent) then stranded + {step.agent} else stranded
  }

  lemma StepBusy(cfg: Config, s: State, step: Step, stranded: set<AgentId>)
    requires BusyOk(s, stranded) && FulfilmentOk(cfg, s)
    ensures BusyOk(Apply(cfg, s, step), StrandedAfter(s, step, stranded))
  {
    match step
    case Claim(o, agent) => ClaimBusy(s, o, agent, stranded);
    case Assign(o, choice) => AssignBusy(s, o, choice, stranded);
    case Reassign(o, choice) => ReassignBusy(cfg, s, o, choice, stranded);
    case Progress(d, agent, to, reason) => ProgressBusy(cfg, s, d, agent, to, reason, stranded);
    case _ =>
  }

  predicate AdminOverride(step: Step) { step.Status? && step.role.SystemAdmin? }

  lemma StepPaid(cfg: Config, s: State, step: Step)
    requires PaidOk(s) && FulfilmentOk(cfg, s) && !AdminOverride(step)
    ensures PaidOk(Apply(cfg, s, step))
  {
    match step
    case Place(cart, fees) => PlaceOrderPaid(s, cart, fees);
    case Void(o) => VoidOrderPaid(s, o);
    case Sweep(cutoff) => SweepPaid(s, cutoff);
    case Status(o, actor, role, to, reason) => UpdateStatusPaid(s, o, actor, role, to, reason);
    case Claim(o, agent) => ClaimPaid(s, o, agent);
    case Init(customerId, o, cached, up) => InitPaymentPaid(s, customerId, o, cached, up);
    case Hook(w) => HandleWebhookPaid(s, w);
    case Refund(t, amount) => RefundPaid(s, t, amount);
    case Pay(account, amount) => PayoutPaid(s, account, amount);
    case Assign(o, choice) => AssignPaid(s, o, choice);
    case Reassign(o, choice) => ReassignPaid(cfg, s, o, choice);
    case Progress(d, agent, to, reason) => ProgressPaid(cfg, s, d, agent, to, reason);
    case Online(_) =>
    case Offline(_) =>
    case Expire(_) =>
  }

  // ── every run ─────────────────────────────────────────────────────────────

  ghost predicate Invariant(cfg: Config, s: State) {
    LedgerOk(s) && FulfilmentOk(cfg, s) && OutboxOk(s) && EarningsOk(cfg, s) && BackedOk(s)
  }

  lemma StepKeepsInvariant(cfg: Config, s: State, step: Step)
    requires Invariant(cfg, s)
    ensures Invariant(cfg, Apply(cfg, s, step))
  {
    StepLedger(cfg, s, step);
    StepFulfilment(cfg, s, step);
    StepOutbox(cfg, s, step);
    StepEarnings(cfg, s, step);
    StepBacked(cfg, s, step);
  }

  lemma {:induction false} RunKeepsInvariant(cfg: Config, steps: seq<Step>)
    ensures Invariant(cfg, Run(cfg, EMPTY, steps))
  {
    if |steps| > 0 {
      RunKeepsInvariant(cfg, steps[..|steps| - 1]);
      StepKeepsInvariant(cfg, Run(cfg, EMPTY, steps[..|steps| - 1]), steps[|steps| - 1]);
    }
  }

  /** The agents stranded by the claims of the run. */
  function Stranded(cfg: Config, steps: seq<Step>): set<AgentId> {
    if |steps| == 0 then {}
    else
      var earlier := steps[..|steps| - 1];
      StrandedAfter(Run(cfg, EMPTY, earlier), steps[|steps| - 1], Stranded(cfg, earlier))
  }

  lemma {:induction false} RunKeepsBusy(cfg: Config, steps: seq<Step>)
    ensures BusyOk(Run(cfg, EMPTY, steps), Stranded(cfg, steps))
  {
    if |steps| > 0 {
      var earlier := steps[..|steps| - 1];
      RunKeepsBusy(cfg, earlier);
      RunKeepsInvariant(cfg, earlier);
      StepBusy(cfg, Run(cfg, EMPTY, earlier), steps[|steps| - 1], Stranded(cfg, earlier));
    }
  }

  /** Step `n` of the run strands the agent. */
  ghost predicate StrandedAt(cfg: Config, steps: seq<Step>, agent: AgentId, n: nat) {
    n < |steps| && steps[n].Claim? && steps[n].agent == agent && Strands(Run(cfg, EMPTY, steps[..n]), steps[n].o, agent)
  }

  lemma StrandedMore(cfg: Config, steps: seq<Step>, agent: AgentId)
    requires |steps| > 0
    ensures var n := |steps| - 1;
            agent in Stranded(cfg, steps) <==> agent in Stranded(cfg, steps[..n]) || StrandedAt(cfg, steps, agent, n)
  {
  }

  /** Once stranded, always stranded. */
  lemma {:induction false} StrandedLasts(cfg: Config, steps: seq<Step>, agent: AgentId, n: nat)
    requires n <= |steps| && agent in Stranded(cfg, steps[..n])
    ensures agent in Stranded(cfg, steps)
  {
    if n == |steps| {
      assert steps[..n] == steps;
    } else {
      assert steps[..|steps| - 1][..n] == steps[..n];
      StrandedLasts(cfg, steps[..|steps| - 1], agent, n);
      StrandedMore(cfg, steps, agent);
    }
  }

  lemma {:induction false} StrandedSince(cfg: Config, steps: seq<Step>, agent: AgentId) returns (n: nat)
    requires agent in Stranded(cfg, steps)
    ensures StrandedAt(cfg, steps, agent, n)
  {
    var earlier := steps[..|steps| - 1];
    StrandedMore(cfg, steps, agent);
    n := |steps| - 1;
    if agent in Stranded(cfg, earlier) {
      n := StrandedSince(cfg, earlier, agent);
      assert earlier[..n] == steps[..n] && earlier[n] == steps[n];
    }
  }

  lemma StrandedExactly(cfg: Config, steps: seq<Step>, agent: AgentId)
    ensures agent in Stranded(cfg, steps) <==> exists n :: StrandedAt(cfg, steps, agent, n)
  {
    if agent in Stranded(cfg, steps) {
      var n := StrandedSince(cfg, steps, agent);
    }
    forall n: nat | StrandedAt(cfg, steps, agent, n) ensures agent in Stranded(cfg, steps) {
      assert steps[..n + 1][..n] == steps[..n];
      StrandedMore(cfg, steps[..n + 1], agent);
      StrandedLasts(cfg, steps, agent, n + 1);
    }
  }

  lemma {:induction false} RunKeepsPaid(cfg: Config, steps: seq<Step>)
    requires forall i :: 0 <= i < |steps| ==> !AdminOverride(steps[i])
    ensures PaidOk(Run(cfg, EMPTY, steps))
  {
    if |steps| > 0 {
      var earlier := steps[..|steps| - 1];
      RunKeepsPaid(cfg, earlier);
      RunKeepsInvariant(cfg, earlier);
      StepPaid(cfg, Run(cfg, EMPTY, earlier), steps[|steps| - 1]);
    }
  }

  // ── the sweep, write by write ─────────────────────────────────────────────

  function Voids(ids: seq<OrderId>): seq<Step> {
    seq(|ids|, i requires 0 <= i < |ids| => Void(ids[i]))
  }

  lemma {:induction false} RunOfVoids(cfg: Config, s: State, ids: seq<OrderId>)
    requires forall i :: 0 <= i < |ids| ==> ids[i] < |s.orders|
    ensures var after := Run(cfg, s, Voids(ids));
            && after == s.(orders := after.orders)
            && |after.orders| == |s.orders|
            && forall o :: 0 <= o < |s.orders| ==>
                 after.orders[o] == if o in ids then s.orders[o].(status := OrderStatus.Cancelled) else s.orders[o]
  {
    if |ids| > 0 {
      var rest, last := ids[..|ids| - 1], ids[|ids| - 1];
      assert Voids(ids)[..|ids| - 1] == Voids(rest);
      assert ids == rest + [last];
      RunOfVoids(cfg, s, rest);
    }
  }

  /**
   * The sweep writes row by row, after one read. Undisturbed, its writes add up to `SweepExpired`;
   * disturbed, each of them is still a `Void`, so every run theorem covers them wherever they fall.
   */
  lemma SweepIsVoids(cfg: Config, s: State, cutoff: nat, ids: seq<OrderId>)
    requires forall o: nat :: o in ids <==> o < |s.orders| && Stale(s.orders[o], cutoff)
    ensures Run(cfg, s, Voids(ids)) == SweepExpired(s, cutoff)
  {
    forall i | 0 <= i < |ids| ensures ids[i] < |s.orders| {
      assert ids[i] in ids;
    }
    RunOfVoids(cfg, s, ids);
    assert Run(cfg, s, Voids(ids)).orders == SweepExpired(s, cutoff).orders;
  }
}
