/** What the delivery requests promise, told from the tables alone: refusals, and everything they write. */
module DeliveryRules {
  import opened Domain
  import opened Requests
  import P = PaymentRules

  const UNDER_WAY: set<DeliveryStatus> := {DeliveryStatus.Assigned, DeliveryStatus.Accepted, DeliveryStatus.Picked}

  /** Delivery `d` of the order is under way. */
  predicate UnderWay(s: State, d: DeliveryId, o: OrderId) {
    d < |s.deliveries| && s.deliveries[d].orderId == o && s.deliveries[d].status in UNDER_WAY
  }

  predicate NoneUnderWay(s: State, o: OrderId) { forall d :: 0 <= d < |s.deliveries| ==> !UnderWay(s, d, o) }

  predicate Available(s: State, agent: AgentId) { agent in s.online && agent !in s.busy }

  /** The first available agent of the list is in place `i`. */
  predicate NearestAt(s: State, agents: seq<AgentId>, i: nat) {
    i < |agents| && Available(s, agents[i]) && forall j :: 0 <= j < i ==> !Available(s, agents[j])
  }

  /** Only order `o` is written. */
  ghost predicate OnlyOrder(s: State, after: State, o: OrderId, order: Order) {
    && |after.orders| == |s.orders|
    && forall p :: 0 <= p < |s.orders| ==> after.orders[p] == if p == o then order else s.orders[p]
  }

  /** Only delivery `d` is written. */
  ghost predicate OnlyDelivery(s: State, after: State, d: DeliveryId, row: Delivery) {
    && |after.deliveries| == |s.deliveries|
    && forall i :: 0 <= i < |s.deliveries| ==> after.deliveries[i] == if i == d then row else s.deliveries[i]
  }

  lemma FoundExactly(s: State, o: OrderId)
    ensures FindActiveDelivery(s.deliveries, o).None? <==> NoneUnderWay(s, o)
    ensures FindActiveDelivery(s.deliveries, o).Some? ==> UnderWay(s, FindActiveDelivery(s.deliveries, o).value, o)
  {
    forall d | 0 <= d < |s.deliveries|
      ensures UnderWay(s, d, o) <==> s.deliveries[d].orderId == o && s.deliveries[d].Active()
    {
    }
  }

  // ── assignment ────────────────────────────────────────────────────────────

  /** What an assignment to `agent` writes. */
  ghost predicate AssignedTo(s: State, after: Outcome<DeliveryId>, o: OrderId, agent: AgentId)
    requires o < |s.orders|
  {
    && after.reply == Ok(|s.deliveries|)
    && OnlyOrder(s, after.state, o, s.orders[o].(status := OrderStatus.Assigned, agentId := Some(agent)))
    && after.state.deliveries == s.deliveries + [Delivery(o, agent, DeliveryStatus.Assigned, None)]
    && after.state.busy == s.busy + {agent}
    && after.state == s.(orders := after.state.orders, deliveries := after.state.deliveries, busy := after.state.busy)
  }

  /** A ready order without a delivery under way goes to the named agent if available, or to the nearest available one. */
  lemma AssignedExactly(s: State, o: OrderId, choice: Choice)
    ensures var after := AssignDelivery(s, o, choice);
            if o >= |s.orders| then after == Outcome(s, Err(OrderNotFound))
            else if s.orders[o].status != Ready then after == Outcome(s, Err(OrderNotReady))
            else if !NoneUnderWay(s, o) then after == Outcome(s, Err(OrderAlreadyHasActiveDelivery))
            else match choice
              case Manual(agent) =>
                if Available(s, agent) then AssignedTo(s, after, o, agent)
                else after == Outcome(s, Err(AgentInActiveDelivery))
              case Nearest(agents) =>
                && (forall i: nat :: NearestAt(s, agents, i) ==> AssignedTo(s, after, o, agents[i]))
                && ((forall i: nat :: !NearestAt(s, agents, i)) ==> after == Outcome(s, Err(NoEligibleAgents)))
  {
    FoundExactly(s, o);
    if choice.Nearest? {
      NearestFound(s, choice.agents);
    }
  }

  lemma NearestIsUnique(s: State, agents: seq<AgentId>, i: nat, k: nat)
    requires NearestAt(s, agents, i) && NearestAt(s, agents, k)
    ensures i == k
  {
  }

  lemma NearestFound(s: State, agents: seq<AgentId>)
    ensures forall i: nat :: NearestAt(s, agents, i) ==> FirstFree(s, agents) == Some(agents[i])
    ensures FirstFree(s, agents).Some? ==> exists i: nat :: NearestAt(s, agents, i)
  {
    var found := FirstFree(s, agents);
    if found.Some? {
      var i: nat :| i < |agents| && agents[i] == found.value && Free(s, agents[i])
                    && forall j :: 0 <= j < i ==> !Free(s, agents[j]);
      forall j | 0 <= j < i ensures !Available(s, agents[j]) {
        assert !Free(s, agents[j]);
      }
      assert NearestAt(s, agents, i);
      forall k: nat | NearestAt(s, agents, k) ensures found == Some(agents[k]) {
        NearestIsUnique(s, agents, i, k);
      }
    } else {
      forall i: nat | i < |agents| ensures !Available(s, agents[i]) {
        assert !Free(s, agents[i]);
      }
    }
  }

  // ── reassignment ──────────────────────────────────────────────────────────

  /** A reassignment is refused for want of the order, of attempts, or of a delivery under way. */
  lemma ReassignRefusedExactly(cfg: Config, s: State, o: OrderId, choice: Choice)
    ensures var after := ReassignDelivery(cfg, s, o, choice);
            && (o >= |s.orders| ==> after == Outcome(s, Err(OrderNotFound)))
            && (o < |s.orders| && s.orders[o].reassignments >= cfg.maxReassignments ==>
                  after == Outcome(s, Err(MaxReassignmentsReached)))
            && (o < |s.orders| && s.orders[o].reassignments < cfg.maxReassignments && NoneUnderWay(s, o) ==>
                  after == Outcome(s, Err(NoActiveDelivery)))
  {
    FoundExactly(s, o);
  }

  /** Otherwise the delivery under way is closed, counted and its agent freed, and then the order is assigned anew or not. */
  lemma ReassignReleases(cfg: Config, s: State, o: OrderId, choice: Choice, d: DeliveryId)
    requires o < |s.orders| && s.orders[o].reassignments < cfg.maxReassignments && UnderWay(s, d, o)
    requires forall i :: 0 <= i < |s.deliveries| && i != d ==> !UnderWay(s, i, o)
    ensures exists released ::
              && Released(s, released, o, d)
              && ReassignDelivery(cfg, s, o, choice) == AssignDelivery(released, o, choice)
  {
    FoundExactly(s, o);
    var released := ReleaseDelivery(s, d);
    assert FindActiveDelivery(s.deliveries, o) == Some(d);
    assert Released(s, released, o, d);
  }

  ghost predicate Released(s: State, after: State, o: OrderId, d: DeliveryId)
    requires o < |s.orders| && d < |s.deliveries|
  {
    && OnlyDelivery(s, after, d, s.deliveries[d].(status := DeliveryStatus.Reassigned))
    && OnlyOrder(s, after, o, s.orders[o].(reassignments := s.orders[o].reassignments + 1))
    && after.busy == s.busy - {s.deliveries[d].agentId}
    && after == s.(orders := after.orders, deliveries := after.deliveries, busy := after.busy)
  }

  // ── progress ──────────────────────────────────────────────────────────────

  /** What an agent may do with its delivery. */
  const AGENT_EDGES: set<(DeliveryStatus, DeliveryStatus)> := {
    (DeliveryStatus.Assigned, DeliveryStatus.Accepted), (DeliveryStatus.Assigned, DeliveryStatus.Rejected),
    (DeliveryStatus.Accepted, DeliveryStatus.Picked), (DeliveryStatus.Picked, DeliveryStatus.Delivered)}

  /** The guards of a move, in their order. */
  predicate MayMove(s: State, d: DeliveryId, agent: AgentId, to: DeliveryStatus, reason: bool) {
    && d < |s.deliveries| && s.deliveries[d].agentId == agent
    && (s.deliveries[d].status, to) in AGENT_EDGES
    && (to == DeliveryStatus.Rejected ==> reason)
    && s.deliveries[d].orderId < |s.orders|
  }

  lemma MoveRefusedExactly(
    cfg: Config, s: State, d: DeliveryId, agent: AgentId, to: DeliveryStatus, reason: bool)
    requires !MayMove(s, d, agent, to, reason)
    ensures UpdateDeliveryStatus(cfg, s, d, agent, to, reason) == Outcome(s, Err(
              if d >= |s.deliveries| then DeliveryNotFound
              else if s.deliveries[d].agentId != agent then DeliveryNotOwned
              else if (s.deliveries[d].status, to) !in AGENT_EDGES then InvalidDeliveryTransition
              else if to == DeliveryStatus.Rejected && !reason then ReasonRequired
              else OrderNotFound))
  {
  }

  /** Accepting, rejecting and picking up always work; a pickup moves the order, a rejection frees the agent. */
  lemma MovedExactly(cfg: Config, s: State, d: DeliveryId, agent: AgentId, to: DeliveryStatus, reason: bool)
    requires MayMove(s, d, agent, to, reason) && to != DeliveryStatus.Delivered
    ensures var after := UpdateDeliveryStatus(cfg, s, d, agent, to, reason);
            var o := s.deliveries[d].orderId;
            && after.reply == Ok(to)
            && OnlyDelivery(s, after.state, d, s.deliveries[d].(status := to))
            && OnlyOrder(s, after.state, o,
                 if to == DeliveryStatus.Picked then s.orders[o].(status := OrderStatus.Picked) else s.orders[o])
            && after.state.busy == (if to == DeliveryStatus.Rejected then s.busy - {agent} else s.busy)
            && after.state == s.(orders := after.state.orders, deliveries := after.state.deliveries, busy := after.state.busy)
  {
  }

  /** The restaurant's balance once the order's subtotal is settled. */
  function SettledBalance(b: Balance, subtotal: int): Balance {
    Balance(b.pending - subtotal, b.available + subtotal, b.totalEarned)
  }

  /**
   * A successful handover delivers delivery and order, moves the subtotal from pending to available
   * if the restaurant has a balance, pays the agent its share rounded down if that is positive,
   * announces it and frees the agent.
   */
  lemma HandoverIsRecorded(cfg: Config, s: State, d: DeliveryId, agent: AgentId)
    requires MayMove(s, d, agent, DeliveryStatus.Delivered, false)
    requires UpdateDeliveryStatus(cfg, s, d, agent, DeliveryStatus.Delivered, false).reply.Ok?
    ensures var after := UpdateDeliveryStatus(cfg, s, d, agent, DeliveryStatus.Delivered, false).state;
            var o := s.deliveries[d].orderId;
            var terms := s.orders[o].terms;
            var payee := Account(terms.restaurantId, terms.currency);
            var share := terms.deliveryFee * cfg.earningShareBps / 10_000;
            && OnlyOrder(s, after, o, s.orders[o].(status := OrderStatus.Delivered))
            && OnlyDelivery(s, after, d, s.deliveries[d].(status := DeliveryStatus.Delivered,
                                                         earning := if share > 0 then Some(share) else None))
            && (payee in s.balances ==>
                  P.OnlyBalance(s, after, payee, SettledBalance(s.balances[payee], terms.subtotal)))
            && (payee !in s.balances ==> after.balances == s.balances)
            && after.earnings == s.earnings + (if share > 0 then [Earning(agent, o, d, share, terms.currency)] else [])
            && after.outbox == s.outbox + [OrderDelivered(o, agent)]
            && after.busy == s.busy - {agent}
            && after.events == s.events && after.online == s.online
            && (terms.payment == PaymentMethod.Online ==> after.txs == s.txs)
  {
  }

  /** A handover changes nothing when it fails, and fails as unsettled exactly for an online order without a captured charge. */
  lemma HandoverRefused(cfg: Config, s: State, d: DeliveryId, agent: AgentId)
    requires MayMove(s, d, agent, DeliveryStatus.Delivered, false)
    ensures var after := UpdateDeliveryStatus(cfg, s, d, agent, DeliveryStatus.Delivered, false);
            var o := s.deliveries[d].orderId;
            && (after.reply.Err? ==> after.state == s)
            && (after.reply == Err(PaymentNotSettled) <==>
                && s.orders[o].terms.payment == PaymentMethod.Online
                && forall t :: 0 <= t < |s.txs| ==>
                     !(s.txs[t].orderId == Some(o) && s.txs[t].kind == Charge && s.txs[t].status == Succeeded))
  {
  }

  // ── presence ──────────────────────────────────────────────────────────────

  /** Going online always works; going offline exactly for agents that are not busy; expiry takes anyone offline. */
  lemma PresenceExactly(s: State, agent: AgentId)
    ensures GoOnline(s, agent) == s.(online := s.online + {agent})
    ensures GoOffline(s, agent) == if agent in s.busy then Outcome(s, Err(AgentInActiveDelivery))
                                   else Outcome(s.(online := s.online - {agent}), Ok(()))
    ensures PresenceExpires(s, agent) == s.(online := s.online - {agent})
  {
  }
}
