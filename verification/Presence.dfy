/**
 * The busy set: the agents that carry a delivery, and those stranded in it. An agent is stranded by
 * claiming an order while it is not busy, because a claim marks it busy and creates no delivery.
 */
module Presence {
  import opened Domain
  import opened Tally
  import opened Requests

  predicate Carries(ds: seq<Delivery>, agent: AgentId) {
    exists d :: 0 <= d < |ds| && ds[d].agentId == agent && ds[d].Active()
  }

  ghost predicate Coherent(ds: seq<Delivery>, busy: set<AgentId>, stranded: set<AgentId>) {
    && stranded <= busy
    && forall agent :: Carried(ds, agent) == (if agent in busy && agent !in stranded then 1 else 0)
  }

  ghost predicate BusyOk(s: State, stranded: set<AgentId>) { Coherent(s.deliveries, s.busy, stranded) }

  /** The claim goes through, and the agent was not busy. */
  predicate Strands(s: State, o: OrderId, agent: AgentId) {
    ClaimReadyOrder(s, o, agent).reply.Ok? && agent !in s.busy
  }

  lemma ClaimBusy(s: State, o: OrderId, agent: AgentId, stranded: set<AgentId>)
    requires BusyOk(s, stranded)
    ensures BusyOk(ClaimReadyOrder(s, o, agent).state, if Strands(s, o, agent) then stranded + {agent} else stranded)
  {
    var after := ClaimReadyOrder(s, o, agent).state;
    assert after.deliveries == s.deliveries;
    assert agent in s.busy ==> s.busy + {agent} == s.busy;
  }

  lemma AssignBusy(s: State, o: OrderId, choice: Choice, stranded: set<AgentId>)
    requires BusyOk(s, stranded)
    ensures BusyOk(AssignDelivery(s, o, choice).state, stranded)
  {
    var after := AssignDelivery(s, o, choice);
    if after.reply.Ok? {
      DeliveryAppended([], s.deliveries, after.state.deliveries[|s.deliveries|]);
    }
  }

  lemma ReassignBusy(cfg: Config, s: State, o: OrderId, choice: Choice, stranded: set<AgentId>)
    requires BusyOk(s, stranded)
    requires forall d :: 0 <= d < |s.deliveries| ==> s.deliveries[d].orderId < |s.orders|
    ensures BusyOk(ReassignDelivery(cfg, s, o, choice).state, stranded)
  {
    var active := FindActiveDelivery(s.deliveries, o);
    if o < |s.orders| && s.orders[o].reassignments < cfg.maxReassignments && active.Some? {
      var released := ReleaseDelivery(s, active.value);
      ActiveCounts(s.deliveries, active.value);
      DeliveryUpdated([], s.deliveries, active.value, released.deliveries[active.value]);
      AssignBusy(released, o, choice, stranded);
    }
  }

  lemma ProgressBusy(
    cfg: Config, s: State, d: DeliveryId, agent: AgentId, to: DeliveryStatus, reason: bool, stranded: set<AgentId>)
    requires BusyOk(s, stranded)
    ensures BusyOk(UpdateDeliveryStatus(cfg, s, d, agent, to, reason).state, stranded)
  {
    var after := UpdateDeliveryStatus(cfg, s, d, agent, to, reason);
    if after.reply.Ok? {
      ActiveCounts(s.deliveries, d);
      DeliveryUpdated([], s.deliveries, d, after.state.deliveries[d]);
    }
  }

  lemma CarriesIffCounted(ds: seq<Delivery>, agent: AgentId)
    ensures Carries(ds, agent) <==> Carried(ds, agent) > 0
  {
    if Carries(ds, agent) {
      var d :| 0 <= d < |ds| && ds[d].agentId == agent && ds[d].Active();
      ActiveCounts(ds, d);
    }
    if Carried(ds, agent) > 0 {
      var d := Sums.SumWitness(ds, CarriedBy(agent));
      assert ds[d].agentId == agent && ds[d].Active();
    }
  }

  /** Nobody carries two deliveries. */
  lemma OneDeliveryEach(s: State, stranded: set<AgentId>, i: DeliveryId, j: DeliveryId)
    requires BusyOk(s, stranded) && i < |s.deliveries| && j < |s.deliveries|
    requires s.deliveries[i].Active() && s.deliveries[j].Active() && s.deliveries[i].agentId == s.deliveries[j].agentId
    ensures i == j
  {
    var f := CarriedBy(s.deliveries[i].agentId);
    assert f(s.deliveries[i]) == f(s.deliveries[j]) == 1;
    assert Carried(s.deliveries, s.deliveries[i].agentId) <= 1;
    if i < j {
      Sums.SumCoversTwo(s.deliveries, i, j, f);
    } else if j < i {
      Sums.SumCoversTwo(s.deliveries, j, i, f);
    }
  }

  /** An agent can go offline exactly when it neither carries a delivery nor is stranded. */
  lemma OfflineExactly(s: State, stranded: set<AgentId>, agent: AgentId)
    requires BusyOk(s, stranded)
    ensures GoOffline(s, agent).reply.Ok? <==> !Carries(s.deliveries, agent) && agent !in stranded
    ensures GoOffline(s, agent).reply.Err? ==> GoOffline(s, agent).state == s
  {
    CarriesIffCounted(s.deliveries, agent);
  }
}
