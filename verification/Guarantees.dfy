/** What every run of the shard guarantees, read off the invariants. */
module Guarantees {
  import opened Domain
  import opened Sums
  import opened Tally
  import opened Requests
  import opened Ledger
  import opened Fulfilment
  import opened Announcements
  import opened Earnings
  import opened Presence
  import opened PaidFirst
  import opened Backing
  import opened Runs
  import opened Lifecycle
  import F = Finance

  function Reached(cfg: Config, steps: seq<Step>): State { Run(cfg, EMPTY, steps) }

  // ── money ─────────────────────────────────────────────────────────────────

  /** The running totals are what a replay of the transactions computes. */
  lemma LedgerReplay(cfg: Config, steps: seq<Step>, a: Account)
    ensures var s := Reached(cfg, steps);
            var terms := TermsOf(s.orders);
            var b := if a in s.balances then s.balances[a] else Balance(0, 0, 0);
            && b.totalEarned == Charged(terms, s.txs, a) - Refunded(terms, s.txs, a)
            && b.pending + b.available == b.totalEarned - PaidOut(s.txs, a)
            && b.pending >= 0 && b.available >= 0 && b.totalEarned >= 0
            && (a in s.balances <==> ChargesTo(terms, s.txs, a) > 0)
  {
    var s := Reached(cfg, steps);
    RunKeepsInvariant(cfg, steps);
    assert LedgerAt(TermsOf(s.orders), s.txs, s.balances, a);
  }

  lemma Solvency(cfg: Config, steps: seq<Step>, a: Account)
    ensures var s := Reached(cfg, steps);
            && 0 <= PaidOut(s.txs, a)
            && 0 <= Refunded(TermsOf(s.orders), s.txs, a)
            && PaidOut(s.txs, a) + Refunded(TermsOf(s.orders), s.txs, a) <= Charged(TermsOf(s.orders), s.txs, a)
  {
    RunKeepsInvariant(cfg, steps);
    Solvent(Reached(cfg, steps), a);
  }

  /** A refund of a captured charge finds its row, and goes through exactly when the holdings cover it. */
  lemma RefundExactly(cfg: Config, steps: seq<Step>, t: TxId, amount: Option<int>)
    requires var s := Reached(cfg, steps); t < |s.txs| && Captured(s.txs[t]) && !s.txs[t].IsRefunded()
    ensures var s := Reached(cfg, steps);
            var value := if amount.Some? then amount.value else s.txs[t].amount;
            && s.txs[t].orderId.Some? && s.txs[t].orderId.value < |s.orders|
            && var payee := s.orders[s.txs[t].orderId.value].terms.Payee();
               && payee in s.balances
               && (RefundPayment(s, t, amount).reply.Ok? <==>
                   0 < value <= F.INT_MAX && value <= s.balances[payee].pending + s.balances[payee].available)
  {
    RunKeepsInvariant(cfg, steps);
    assert LinkedTx(TermsOf(Reached(cfg, steps).orders), Reached(cfg, steps).txs[t]);
    RefundDecidedByHoldings(Reached(cfg, steps), t, amount);
  }

  lemma PayoutExactly(cfg: Config, steps: seq<Step>, account: Account, amount: int)
    ensures var s := Reached(cfg, steps);
            CreatePayout(s, account, amount).reply.Ok? <==>
            0 < amount && account in s.balances && amount <= s.balances[account].available
  {
    RunKeepsInvariant(cfg, steps);
    PayoutGuardSuffices(Reached(cfg, steps), account, amount);
  }

  /**
   * When a handover goes through: an online order needs a succeeded charge, and an account with a
   * balance row needs the subtotal to be pending still. The INT range never matters.
   */
  lemma HandoverExactly(cfg: Config, steps: seq<Step>, d: DeliveryId)
    requires var s := Reached(cfg, steps); d < |s.deliveries| && s.deliveries[d].status.Picked?
    ensures var s := Reached(cfg, steps);
            && s.deliveries[d].orderId < |s.orders|
            && var terms := s.orders[s.deliveries[d].orderId].terms;
               UpdateDeliveryStatus(cfg, s, d, s.deliveries[d].agentId, DeliveryStatus.Delivered, false).reply.Ok? <==>
               && (terms.payment.Online? ==> HasCapturedCharge(s.txs, s.deliveries[d].orderId))
               && (terms.Payee() in s.balances ==> s.balances[terms.Payee()].pending >= terms.subtotal)
  {
    var s := Reached(cfg, steps);
    RunKeepsInvariant(cfg, steps);
    var a := s.orders[s.deliveries[d].orderId].terms.Payee();
    assert LedgerAt(TermsOf(s.orders), s.txs, s.balances, a);
    Solvent(s, a);
    UniqueNeverTrips(cfg, s, d);
    assert TermsOf(s.orders)[s.deliveries[d].orderId].subtotal >= 0;
  }

  /**
   * No online order has more handovers than succeeded charges, whatever admins do and however
   * often it is charged. So on an account without refunds and delivered cash orders the pending
   * balance is what was charged and not yet settled.
   */
  lemma SettlementsAreBacked(cfg: Config, steps: seq<Step>, o: OrderId, a: Account)
    ensures var s := Reached(cfg, steps);
            o < |s.orders| && s.orders[o].terms.payment.Online? ==> Deliveries(s.deliveries, o) <= Charges(s.txs, o)
    ensures var s := Reached(cfg, steps);
            var terms := TermsOf(s.orders);
            a in s.balances && RefundsTo(terms, s.txs, a) == 0 && CashSettled(terms, s.deliveries, a) == 0 ==>
              s.balances[a].pending == Charged(terms, s.txs, a) - Settled(terms, s.deliveries, a)
  {
    var s := Reached(cfg, steps);
    RunKeepsInvariant(cfg, steps);
    assert OrderAt(cfg, s.orders, s.txs, s.deliveries, o);
    assert BackedAt(TermsOf(s.orders), s.txs, s.deliveries, s.balances, a);
  }

  /** … and there the CHECK on the pending balance never fails a handover of an online order. */
  lemma CardHandoverNeverFails(cfg: Config, steps: seq<Step>, d: DeliveryId)
    requires var s := Reached(cfg, steps);
             && d < |s.deliveries| && s.deliveries[d].status.Picked? && s.deliveries[d].orderId < |s.orders|
             && var terms := s.orders[s.deliveries[d].orderId].terms;
                && terms.payment.Online?
                && RefundsTo(TermsOf(s.orders), s.txs, terms.Payee()) == 0
                && CashSettled(TermsOf(s.orders), s.deliveries, terms.Payee()) == 0
    ensures var s := Reached(cfg, steps);
            UpdateDeliveryStatus(cfg, s, d, s.deliveries[d].agentId, DeliveryStatus.Delivered, false).reply
            == if HasCapturedCharge(s.txs, s.deliveries[d].orderId) then Ok(DeliveryStatus.Delivered)
               else Err(PaymentNotSettled)
  {
    var s := Reached(cfg, steps);
    RunKeepsInvariant(cfg, steps);
    SettlementNeverTrips(cfg, s, d);
    UniqueNeverTrips(cfg, s, d);
  }

  /** Nothing is ever credited for cash: an account whose orders are all paid in cash has no balance. */
  lemma CashIsNeverCredited(cfg: Config, steps: seq<Step>, a: Account)
    requires var s := Reached(cfg, steps);
             forall o :: 0 <= o < |s.orders| && s.orders[o].terms.Payee() == a ==> s.orders[o].terms.payment.Cod?
    ensures a !in Reached(cfg, steps).balances
  {
    var s := Reached(cfg, steps);
    RunKeepsInvariant(cfg, steps);
    assert LedgerAt(TermsOf(s.orders), s.txs, s.balances, a);
    forall t | 0 <= t < |s.txs| ensures CapturedTo(TermsOf(s.orders), a)(s.txs[t]) <= 0 {
      assert LinkedTx(TermsOf(s.orders), s.txs[t]);
    }
    if ChargesTo(TermsOf(s.orders), s.txs, a) > 0 {
      var t := SumWitness(s.txs, CapturedTo(TermsOf(s.orders), a));
    }
  }

  // ── orders and deliveries ─────────────────────────────────────────────────

  /** Without admin overrides an online order that has moved on has been paid. */
  lemma NothingMovesUnpaid(cfg: Config, steps: seq<Step>, o: OrderId)
    requires forall i :: 0 <= i < |steps| ==> !AdminOverride(steps[i])
    ensures var s := Reached(cfg, steps);
            o < |s.orders| && s.orders[o].terms.payment.Online?
            && !s.orders[o].status.PendingPayment? && !s.orders[o].status.Cancelled?
            ==> HasCapturedCharge(s.txs, o)
  {
    var s := Reached(cfg, steps);
    RunKeepsPaid(cfg, steps);
    assert PaidAt(s.orders, s.txs, s.deliveries, o);
    CapturedIffCounted(s.txs, o);
  }

  /** Even with overrides, a delivered order was handed over, and an online one was paid. */
  lemma DeliveredMeansPaid(cfg: Config, steps: seq<Step>, o: OrderId)
    requires var s := Reached(cfg, steps); o < |s.orders| && s.orders[o].status.Delivered?
    ensures var s := Reached(cfg, steps);
            && (exists d :: 0 <= d < |s.deliveries| && s.deliveries[d].orderId == o && s.deliveries[d].status.Delivered?)
            && (s.orders[o].terms.payment.Online? ==> HasCapturedCharge(s.txs, o))
  {
    var s := Reached(cfg, steps);
    RunKeepsInvariant(cfg, steps);
    assert OrderAt(cfg, s.orders, s.txs, s.deliveries, o);
    CapturedIffCounted(s.txs, o);
    var d := SumWitness(s.deliveries, DeliveredFor(o));
  }

  lemma OneActiveDelivery(cfg: Config, steps: seq<Step>, i: DeliveryId, j: DeliveryId)
    requires var ds := Reached(cfg, steps).deliveries;
             i < |ds| && j < |ds| && ds[i].Active() && ds[j].Active() && ds[i].orderId == ds[j].orderId
    ensures i == j
  {
    var s := Reached(cfg, steps);
    RunKeepsInvariant(cfg, steps);
    var o := s.deliveries[i].orderId;
    assert OrderAt(cfg, s.orders, s.txs, s.deliveries, o);
    assert ActiveFor(o)(s.deliveries[i]) == ActiveFor(o)(s.deliveries[j]) == 1;
    if i < j {
      SumCoversTwo(s.deliveries, i, j, ActiveFor(o));
    } else if j < i {
      SumCoversTwo(s.deliveries, j, i, ActiveFor(o));
    }
  }

  lemma ReassignmentsAreCounted(cfg: Config, steps: seq<Step>, o: OrderId)
    requires o < |Reached(cfg, steps).orders|
    ensures var s := Reached(cfg, steps);
            Reassignments(s.deliveries, o) == s.orders[o].reassignments <= cfg.maxReassignments
  {
    var s := Reached(cfg, steps);
    RunKeepsInvariant(cfg, steps);
    assert OrderAt(cfg, s.orders, s.txs, s.deliveries, o);
  }

  /** In every run: whoever carries a delivery is busy, carries no other, and cannot go offline. */
  lemma CarryingMeansBusy(cfg: Config, steps: seq<Step>, i: DeliveryId)
    requires i < |Reached(cfg, steps).deliveries| && Reached(cfg, steps).deliveries[i].Active()
    ensures var s := Reached(cfg, steps);
            var agent := s.deliveries[i].agentId;
            && agent in s.busy
            && GoOffline(s, agent) == Outcome(s, Err(AgentInActiveDelivery))
            && forall j :: 0 <= j < |s.deliveries| && s.deliveries[j].Active() && s.deliveries[j].agentId == agent ==> j == i
  {
    var s := Reached(cfg, steps);
    var agent := s.deliveries[i].agentId;
    RunKeepsBusy(cfg, steps);
    CarriesIffCounted(s.deliveries, agent);
    assert Carries(s.deliveries, agent);
    forall j | 0 <= j < |s.deliveries| && s.deliveries[j].Active() && s.deliveries[j].agentId == agent ensures j == i {
      OneDeliveryEach(s, Stranded(cfg, steps), j, i);
    }
  }

  /** In every run: an agent is busy without carrying a delivery exactly when it once claimed an order while not busy. */
  lemma BusyMeansCarryingExactly(cfg: Config, steps: seq<Step>, agent: AgentId)
    ensures var s := Reached(cfg, steps);
            agent in s.busy && !Carries(s.deliveries, agent) <==> exists n :: StrandedAt(cfg, steps, agent, n)
  {
    RunKeepsBusy(cfg, steps);
    CarriesIffCounted(Reached(cfg, steps).deliveries, agent);
    StrandedExactly(cfg, steps, agent);
  }

  /** Busy with nothing to carry, and no delivery given since there were `rows` of them. */
  ghost predicate Idle(s: State, agent: AgentId, rows: nat) {
    && agent in s.busy && !Carries(s.deliveries, agent)
    && rows <= |s.deliveries|
    && forall d :: rows <= d < |s.deliveries| ==> s.deliveries[d].agentId != agent
  }

  lemma {:induction false} StrandedStaysIdle(cfg: Config, steps: seq<Step>, more: seq<Step>, agent: AgentId, rows: nat)
    requires Idle(Reached(cfg, steps), agent, rows)
    ensures Idle(Reached(cfg, steps + more), agent, rows)
  {
    if |more| == 0 {
      assert steps + more == steps;
    } else {
      var earlier, last := steps + more[..|more| - 1], more[|more| - 1];
      StrandedStaysIdle(cfg, steps, more[..|more| - 1], agent, rows);
      StrandedStays(cfg, earlier, last, agent, rows);
      assert steps + more == earlier + [last];
    }
  }

  /** From then on, whatever happens, it stays busy, gets no delivery, cannot be chosen and cannot go offline. */
  lemma StrandedForGood(cfg: Config, steps: seq<Step>, more: seq<Step>, agent: AgentId)
    requires var s := Reached(cfg, steps); agent in s.busy && !Carries(s.deliveries, agent)
    ensures var after := Reached(cfg, steps + more);
            && Idle(after, agent, |Reached(cfg, steps).deliveries|)
            && SelectAgent(after, Manual(agent)) == Err(AgentInActiveDelivery)
            && GoOffline(after, agent) == Outcome(after, Err(AgentInActiveDelivery))
  {
    StrandedStaysIdle(cfg, steps, more, agent, |Reached(cfg, steps).deliveries|);
  }

  lemma StrandedStays(cfg: Config, steps: seq<Step>, step: Step, agent: AgentId, rows: nat)
    requires Idle(Reached(cfg, steps), agent, rows)
    ensures Idle(Reached(cfg, steps + [step]), agent, rows)
  {
    var s := Reached(cfg, steps);
    assert (steps + [step])[..|steps|] == steps;
    BusyMeansCarryingExactly(cfg, steps, agent);
    StrandedExactly(cfg, steps, agent);
    StrandedMore(cfg, steps + [step], agent);
    StrandedExactly(cfg, steps + [step], agent);
    BusyMeansCarryingExactly(cfg, steps + [step], agent);
    RunKeepsInvariant(cfg, steps);
    NewRowIsCarried(cfg, s, step, agent, rows);
  }

  /** A delivery that a step adds is under way. */
  lemma NewRowIsCarried(cfg: Config, s: State, step: Step, agent: AgentId, rows: nat)
    requires FulfilmentOk(cfg, s) && Idle(s, agent, rows) && !Carries(Apply(cfg, s, step).deliveries, agent)
    ensures var after := Apply(cfg, s, step).deliveries;
            rows <= |after| && forall d :: rows <= d < |after| ==> after[d].agentId != agent
  {
    StepRows(cfg, s, step);
    var after := Apply(cfg, s, step).deliveries;
    forall d | rows <= d < |after| ensures after[d].agentId != agent {
      if d < |s.deliveries| {
        FollowsDown(s.deliveries[d], after[d]);
      } else {
        assert after[d].Active();
      }
    }
  }

  // ── announcements and earnings ────────────────────────────────────────────

  lemma OutboxAgrees(cfg: Config, steps: seq<Step>, o: OrderId, t: TxId)
    ensures var s := Reached(cfg, steps);
            && PlacedRows(s.outbox, o) == (if o < |s.orders| then 1 else 0)
            && CompletedRows(s.outbox, o) == Charges(s.txs, o)
            && CompletedRowsOf(s.outbox, t) == (if t < |s.txs| && Captured(s.txs[t]) then 1 else 0)
            && DeliveredRows(s.outbox, o) == Deliveries(s.deliveries, o)
  {
    var s := Reached(cfg, steps);
    RunKeepsInvariant(cfg, steps);
    assert AnnouncedAt(|s.orders|, s.txs, s.deliveries, s.outbox, o);
  }

  /** A delivery has an earnings row exactly when it was delivered and earns anything; then it has one. */
  lemma EarningsAreExact(cfg: Config, steps: seq<Step>, d: DeliveryId)
    requires d < |Reached(cfg, steps).deliveries|
    ensures var s := Reached(cfg, steps);
            var row := s.deliveries[d];
            && row.orderId < |s.orders|
            && var share := s.orders[row.orderId].terms.deliveryFee * cfg.earningShareBps / 10_000;
               && (HasEarning(s.earnings, d) <==> row.status.Delivered? && share > 0)
               && RowsOn(s.earnings, d) <= 1
               && (row.earning.Some? <==> HasEarning(s.earnings, d))
               && forall e :: 0 <= e < |s.earnings| && s.earnings[e].deliveryId == d ==>
                    s.earnings[e] == Earning(row.agentId, row.orderId, d, share, s.orders[row.orderId].terms.currency)
  {
    var s := Reached(cfg, steps);
    RunKeepsInvariant(cfg, steps);
    var terms := TermsOf(s.orders);
    assert s.deliveries[d].orderId < |terms|;
    assert RowsOn(s.earnings, d) == if Earns(cfg, terms, s.deliveries, d) then 1 else 0;
    if RowsOn(s.earnings, d) > 0 {
      var e := SumWitness(s.earnings, EarningOn(d));
    } else {
      UncountedIsAbsent(s.earnings, d);
    }
  }

  lemma EarningsWithinShare(cfg: Config, steps: seq<Step>, agent: AgentId)
    requires ValidConfig(cfg)
    ensures var s := Reached(cfg, steps);
            var fees := TripFees(TermsOf(s.orders), s.deliveries, agent);
            && 10_000 * Earned(s.earnings, agent) <= fees * cfg.earningShareBps
            && fees * cfg.earningShareBps - 9_999 * Trips(s.deliveries, agent) <= 10_000 * Earned(s.earnings, agent)
            && Earned(s.earnings, agent) <= fees
  {
    RunKeepsInvariant(cfg, steps);
    EarnedWithinShare(cfg, Reached(cfg, steps), agent);
  }
}
