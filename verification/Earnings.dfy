/** What the agents earn: one row per delivery that earns anything, and how close the totals come to the share. */
module Earnings {
  import opened Domain
  import opened Sums
  import opened Tally
  import opened Requests

  function EarningOn(d: DeliveryId): Earning -> int { (e: Earning) => if e.deliveryId == d then 1 else 0 }

  function EarningOf(agent: AgentId): Earning -> int { (e: Earning) => if e.agentId == agent then e.amount else 0 }

  function RowsOn(earnings: seq<Earning>, d: DeliveryId): int { Sum(earnings, EarningOn(d)) }

  /** Everything the agent has earned. */
  function Earned(earnings: seq<Earning>, agent: AgentId): int { Sum(earnings, EarningOf(agent)) }

  function FeeOf(terms: seq<Terms>, row: Delivery): int {
    if row.orderId < |terms| then terms[row.orderId].deliveryFee else 0
  }

  predicate DeliveredBy(agent: AgentId, row: Delivery) { row.agentId == agent && row.status.Delivered? }

  function FeeBy(terms: seq<Terms>, agent: AgentId): Delivery -> int {
    (row: Delivery) => if DeliveredBy(agent, row) then FeeOf(terms, row) else 0
  }

  function ShareBy(cfg: Config, terms: seq<Terms>, agent: AgentId): Delivery -> int {
    (row: Delivery) => if DeliveredBy(agent, row) then AgentEarning(cfg, FeeOf(terms, row)) else 0
  }

  function TripBy(agent: AgentId): Delivery -> int {
    (row: Delivery) => if DeliveredBy(agent, row) then 1 else 0
  }

  /** Delivery fees of the deliveries the agent completed. */
  function TripFees(terms: seq<Terms>, ds: seq<Delivery>, agent: AgentId): int { Sum(ds, FeeBy(terms, agent)) }

  function Shares(cfg: Config, terms: seq<Terms>, ds: seq<Delivery>, agent: AgentId): int {
    Sum(ds, ShareBy(cfg, terms, agent))
  }

  function Trips(ds: seq<Delivery>, agent: AgentId): int { Sum(ds, TripBy(agent)) }

  predicate Earns(cfg: Config, terms: seq<Terms>, ds: seq<Delivery>, d: DeliveryId) {
    d < |ds| && ds[d].status.Delivered? && AgentEarning(cfg, FeeOf(terms, ds[d])) > 0
  }

  /** The row that delivery `d` of `ds` must have. */
  function RowFor(cfg: Config, terms: seq<Terms>, ds: seq<Delivery>, d: DeliveryId): Earning
    requires d < |ds| && ds[d].orderId < |terms|
  {
    Earning(ds[d].agentId, ds[d].orderId, d, AgentEarning(cfg, FeeOf(terms, ds[d])), terms[ds[d].orderId].currency)
  }

  ghost predicate PaidFor(cfg: Config, terms: seq<Terms>, ds: seq<Delivery>, earnings: seq<Earning>) {
    && (forall o :: 0 <= o < |terms| ==> terms[o].deliveryFee >= 0)
    && (forall d :: 0 <= d < |ds| ==> ds[d].orderId < |terms|)
    // exactly one row for each delivery that earns, none for the others
    && (forall d :: RowsOn(earnings, d) == (if Earns(cfg, terms, ds, d) then 1 else 0))
    && (forall e :: 0 <= e < |earnings| ==>
          earnings[e].deliveryId < |ds| && earnings[e] == RowFor(cfg, terms, ds, earnings[e].deliveryId))
    // the copy on the delivery itself
    && (forall d :: 0 <= d < |ds| ==>
          ds[d].earning == if Earns(cfg, terms, ds, d) then Some(AgentEarning(cfg, FeeOf(terms, ds[d]))) else None)
    && (forall agent :: Earned(earnings, agent) == Shares(cfg, terms, ds, agent))
  }

  ghost predicate EarningsOk(cfg: Config, s: State) {
    PaidFor(cfg, TermsOf(s.orders), s.deliveries, s.earnings)
  }

  lemma UncountedIsAbsent(earnings: seq<Earning>, d: DeliveryId)
    requires RowsOn(earnings, d) == 0
    ensures !HasEarning(earnings, d)
  {
    SumCovers(earnings, EarningOn(d));
    assert forall e :: 0 <= e < |earnings| ==> EarningOn(d)(earnings[e]) <= 0;
  }

  // ── the requests ──────────────────────────────────────────────────────────

  lemma PlaceOrderEarnings(cfg: Config, s: State, cart: Cart, fees: Fees)
    requires EarningsOk(cfg, s)
    ensures EarningsOk(cfg, PlaceOrder(s, cart, fees).state)
  {
    var after := PlaceOrder(s, cart, fees).state;
    if |after.orders| > |s.orders| {
      var terms, more := TermsOf(s.orders), TermsOf(after.orders);
      TermsOfAppend(s.orders, after.orders[|s.orders|]);
      forall agent ensures Shares(cfg, more, s.deliveries, agent) == Shares(cfg, terms, s.deliveries, agent) {
        SumAgree(s.deliveries, ShareBy(cfg, more, agent), ShareBy(cfg, terms, agent));
      }
      assert forall d :: Earns(cfg, more, s.deliveries, d) == Earns(cfg, terms, s.deliveries, d);
    }
  }

  lemma AssignEarnings(cfg: Config, s: State, o: OrderId, choice: Choice)
    requires EarningsOk(cfg, s)
    ensures EarningsOk(cfg, AssignDelivery(s, o, choice).state)
  {
    var after := AssignDelivery(s, o, choice);
    if after.reply.Ok? {
      var terms := TermsOf(s.orders);
      var row := after.state.deliveries[|s.deliveries|];
      TermsOfUpdate(s.orders, o, after.state.orders[o]);
      forall agent
        ensures Shares(cfg, terms, s.deliveries + [row], agent) == Shares(cfg, terms, s.deliveries, agent)
      {
        SumAppend(s.deliveries, row, ShareBy(cfg, terms, agent));
      }
    }
  }

  /** Replacing a delivery that was not delivered by one that still is not. */
  lemma UndeliveredKeeps(
    cfg: Config, terms: seq<Terms>, ds: seq<Delivery>, earnings: seq<Earning>, d: DeliveryId, status: DeliveryStatus)
    requires PaidFor(cfg, terms, ds, earnings) && d < |ds|
    requires !ds[d].status.Delivered? && !status.Delivered?
    ensures PaidFor(cfg, terms, ds[d := ds[d].(status := status)], earnings)
  {
    var row := ds[d].(status := status);
    var after := ds[d := row];
    forall agent ensures Shares(cfg, terms, after, agent) == Shares(cfg, terms, ds, agent) {
      SumUpdate(ds, d, row, ShareBy(cfg, terms, agent));
    }
    assert forall i :: Earns(cfg, terms, after, i) == Earns(cfg, terms, ds, i);
    forall e | 0 <= e < |earnings| ensures earnings[e] == RowFor(cfg, terms, after, earnings[e].deliveryId) {
      assert earnings[e] == RowFor(cfg, terms, ds, earnings[e].deliveryId);
    }
  }

  lemma ReassignEarnings(cfg: Config, s: State, o: OrderId, choice: Choice)
    requires EarningsOk(cfg, s)
    ensures EarningsOk(cfg, ReassignDelivery(cfg, s, o, choice).state)
  {
    var active := FindActiveDelivery(s.deliveries, o);
    if o < |s.orders| && s.orders[o].reassignments < cfg.maxReassignments && active.Some? {
      var released := ReleaseDelivery(s, active.value);
      TermsOfUpdate(s.orders, o, released.orders[o]);
      UndeliveredKeeps(cfg, TermsOf(s.orders), s.deliveries, s.earnings, active.value, Reassigned);
      AssignEarnings(cfg, released, o, choice);
    }
  }

  /** What the appended row pays, if there is one. */
  lemma MintPays(
    cfg: Config, terms: seq<Terms>, ds: seq<Delivery>, earnings: seq<Earning>, d: DeliveryId, row: Delivery, agent: AgentId)
    requires PaidFor(cfg, terms, ds, earnings) && d < |ds| && !ds[d].status.Delivered?
    requires row.orderId == ds[d].orderId && row.agentId == ds[d].agentId && row.status == DeliveryStatus.Delivered
    ensures Earned(if Earns(cfg, terms, ds[d := row], d)
                   then earnings + [RowFor(cfg, terms, ds[d := row], d)] else earnings, agent)
         == Shares(cfg, terms, ds[d := row], agent)
  {
    SumUpdate(ds, d, row, ShareBy(cfg, terms, agent));
    SumAppend(earnings, RowFor(cfg, terms, ds[d := row], d), EarningOf(agent));
    assert Earned(earnings, agent) == Shares(cfg, terms, ds, agent);
    assert FeeOf(terms, row) >= 0 && AgentEarning(cfg, FeeOf(terms, row)) >= 0;
  }

  /** The delivery is marked, and its row appended when it earns anything. */
  lemma MintKeeps(
    cfg: Config, terms: seq<Terms>, ds: seq<Delivery>, earnings: seq<Earning>, d: DeliveryId, row: Delivery)
    requires PaidFor(cfg, terms, ds, earnings) && d < |ds| && !ds[d].status.Delivered?
    requires var earned := AgentEarning(cfg, FeeOf(terms, ds[d]));
             row == ds[d].(status := DeliveryStatus.Delivered, earning := if earned > 0 then Some(earned) else None)
    ensures PaidFor(cfg, terms, ds[d := row],
                    if Earns(cfg, terms, ds[d := row], d)
                    then earnings + [RowFor(cfg, terms, ds[d := row], d)] else earnings)
  {
    var after := ds[d := row];
    var minted := RowFor(cfg, terms, after, d);
    var rows := if Earns(cfg, terms, after, d) then earnings + [minted] else earnings;
    forall agent ensures Earned(rows, agent) == Shares(cfg, terms, after, agent) {
      MintPays(cfg, terms, ds, earnings, d, row, agent);
    }
    forall i ensures RowsOn(rows, i) == if Earns(cfg, terms, after, i) then 1 else 0 {
      SumAppend(earnings, minted, EarningOn(i));
      assert i != d ==> Earns(cfg, terms, after, i) == Earns(cfg, terms, ds, i);
    }
    forall e | 0 <= e < |earnings| ensures earnings[e] == RowFor(cfg, terms, after, earnings[e].deliveryId) {
      assert earnings[e] == RowFor(cfg, terms, ds, earnings[e].deliveryId);
    }
  }

  lemma ProgressEarnings(cfg: Config, s: State, d: DeliveryId, agent: AgentId, to: DeliveryStatus, reason: bool)
    requires EarningsOk(cfg, s)
    ensures EarningsOk(cfg, UpdateDeliveryStatus(cfg, s, d, agent, to, reason).state)
  {
    var after := UpdateDeliveryStatus(cfg, s, d, agent, to, reason);
    if after.reply.Ok? {
      var terms := TermsOf(s.orders);
      var o := s.deliveries[d].orderId;
      TermsOfUpdate(s.orders, o, after.state.orders[o]);
      if to.Delivered? {
        MintKeeps(cfg, terms, s.deliveries, s.earnings, d, after.state.deliveries[d]);
      } else {
        UndeliveredKeeps(cfg, terms, s.deliveries, s.earnings, d, to);
      }
    }
  }

  /** The UNIQUE constraint on the delivery never stops a handover. */
  lemma UniqueNeverTrips(cfg: Config, s: State, d: DeliveryId)
    requires EarningsOk(cfg, s) && d < |s.deliveries| && !s.deliveries[d].status.Delivered?
    ensures !HasEarning(s.earnings, d)
  {
    assert RowsOn(s.earnings, d) == 0;
    UncountedIsAbsent(s.earnings, d);
  }

  // ── the totals ────────────────────────────────────────────────────────────

  lemma ShareRounds(cfg: Config, fee: int)
    requires ValidConfig(cfg) && fee >= 0
    ensures fee * cfg.earningShareBps - (BPS - 1) <= BPS * AgentEarning(cfg, fee) <= fee * cfg.earningShareBps
    ensures AgentEarning(cfg, fee) <= fee
  {
    assert fee * cfg.earningShareBps <= fee * BPS;
  }

  lemma {:induction false} SharesBounded(cfg: Config, terms: seq<Terms>, ds: seq<Delivery>, agent: AgentId)
    requires ValidConfig(cfg)
    requires forall o :: 0 <= o < |terms| ==> terms[o].deliveryFee >= 0
    ensures BPS * Shares(cfg, terms, ds, agent) <= TripFees(terms, ds, agent) * cfg.earningShareBps
    ensures TripFees(terms, ds, agent) * cfg.earningShareBps - (BPS - 1) * Trips(ds, agent)
         <= BPS * Shares(cfg, terms, ds, agent)
    ensures Shares(cfg, terms, ds, agent) <= TripFees(terms, ds, agent)
  {
    if |ds| > 0 {
      var rest, last := ds[..|ds| - 1], ds[|ds| - 1];
      SharesBounded(cfg, terms, rest, agent);
      ShareRounds(cfg, FeeOf(terms, last));
      var fee := FeeBy(terms, agent)(last);
      assert TripFees(terms, ds, agent) * cfg.earningShareBps
          == TripFees(terms, rest, agent) * cfg.earningShareBps + fee * cfg.earningShareBps;
    }
  }

  /**
   * Over any number of deliveries an agent gets the configured share of the fees, less than one
   * minor unit short per delivery, and never more than the fees themselves.
   */
  lemma EarnedWithinShare(cfg: Config, s: State, agent: AgentId)
    requires ValidConfig(cfg) && EarningsOk(cfg, s)
    ensures var fees := TripFees(TermsOf(s.orders), s.deliveries, agent);
            && BPS * Earned(s.earnings, agent) <= fees * cfg.earningShareBps
            && fees * cfg.earningShareBps - (BPS - 1) * Trips(s.deliveries, agent) <= BPS * Earned(s.earnings, agent)
            && Earned(s.earnings, agent) <= fees
  {
    SharesBounded(cfg, TermsOf(s.orders), s.deliveries, agent);
  }
}
