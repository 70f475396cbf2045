/**
 * Orders that are assigned and that nobody carries. A claim leaves one behind, and so does a
 * reassignment that finds nobody; what brings them back is no part of the delivery flow.
 */
module StrandedOrders {
  import opened Domain
  import opened Tally
  import opened Requests
  import opened Fulfilment
  import opened Runs
  import opened Lifecycle
  import opened Transitions
  import opened Guarantees

  predicate Uncarried(s: State, o: OrderId) { FindActiveDelivery(s.deliveries, o).None? }

  predicate StrandedOrder(s: State, o: OrderId) {
    o < |s.orders| && s.orders[o].status.Assigned? && Uncarried(s, o)
  }

  // ── a claim leaves its order without any delivery ─────────────────────────

  /** An order without an agent never had a delivery. */
  ghost predicate UntouchedOk(s: State) {
    && (forall d :: 0 <= d < |s.deliveries| ==> s.deliveries[d].orderId < |s.orders|)
    && forall d :: 0 <= d < |s.deliveries| ==> s.orders[s.deliveries[d].orderId].agentId.Some?
  }

  lemma AssignUntouched(s: State, o: OrderId, choice: Choice)
    requires UntouchedOk(s)
    ensures UntouchedOk(AssignDelivery(s, o, choice).state)
  {
  }

  lemma ReassignUntouched(cfg: Config, s: State, o: OrderId, choice: Choice)
    requires UntouchedOk(s)
    ensures UntouchedOk(ReassignDelivery(cfg, s, o, choice).state)
  {
    var active := FindActiveDelivery(s.deliveries, o);
    if o < |s.orders| && s.orders[o].reassignments < cfg.maxReassignments && active.Some? {
      AssignUntouched(ReleaseDelivery(s, active.value), o, choice);
    }
  }

  lemma ProgressUntouched(
    cfg: Config, s: State, d: DeliveryId, agent: AgentId, to: DeliveryStatus, reason: bool)
    requires UntouchedOk(s)
    ensures UntouchedOk(UpdateDeliveryStatus(cfg, s, d, agent, to, reason).state)
  {
  }

  lemma HookUntouched(s: State, w: Webhook)
    requires UntouchedOk(s)
    ensures UntouchedOk(HandleWebhook(s, w).state)
  {
  }

  lemma OrdersOnlyUntouched(cfg: Config, s: State, step: Step)
    requires UntouchedOk(s) && OrdersOnly(step)
    ensures UntouchedOk(Apply(cfg, s, step))
  {
  }

  lemma StepUntouched(cfg: Config, s: State, step: Step)
    requires UntouchedOk(s)
    ensures UntouchedOk(Apply(cfg, s, step))
  {
    match step
    case Hook(w) => HookUntouched(s, w);
    case Assign(o, choice) => AssignUntouched(s, o, choice);
    case Reassign(o, choice) => ReassignUntouched(cfg, s, o, choice);
    case Progress(d, agent, to, reason) => ProgressUntouched(cfg, s, d, agent, to, reason);
    case _ => if OrdersOnly(step) { OrdersOnlyUntouched(cfg, s, step); }
  }

  lemma {:induction false} RunKeepsUntouched(cfg: Config, steps: seq<Step>)
    ensures UntouchedOk(Reached(cfg, steps))
  {
    if |steps| > 0 {
      RunKeepsUntouched(cfg, steps[..|steps| - 1]);
      StepUntouched(cfg, Reached(cfg, steps[..|steps| - 1]), steps[|steps| - 1]);
    }
  }

  /** Every claim that goes through leaves its order assigned to the agent, and without any delivery row at all. */
  lemma ClaimStrandsOrder(cfg: Config, steps: seq<Step>, o: OrderId, agent: AgentId)
    requires ClaimReadyOrder(Reached(cfg, steps), o, agent).reply.Ok?
    ensures var after := ClaimReadyOrder(Reached(cfg, steps), o, agent).state;
            && StrandedOrder(after, o) && after.orders[o].agentId == Some(agent)
            && forall d :: 0 <= d < |after.deliveries| ==> after.deliveries[d].orderId != o
  {
    RunKeepsUntouched(cfg, steps);
  }

  // ── what ends it ──────────────────────────────────────────────────────────

  lemma AssignCarries(s: State, p: OrderId, choice: Choice, o: OrderId)
    requires Uncarried(s, o)
    ensures var after := AssignDelivery(s, p, choice);
            Uncarried(after.state, o) <==> !(p == o && after.reply.Ok?)
  {
    var after := AssignDelivery(s, p, choice);
    if after.reply.Ok? {
      var row := after.state.deliveries[|s.deliveries|];
      assert row.orderId == p && row.Active();
    }
  }

  lemma ReassignCarries(cfg: Config, s: State, p: OrderId, choice: Choice, o: OrderId)
    requires Uncarried(s, o)
    ensures Uncarried(ReassignDelivery(cfg, s, p, choice).state, o)
  {
    var active := FindActiveDelivery(s.deliveries, p);
    if p < |s.orders| && s.orders[p].reassignments < cfg.maxReassignments && active.Some? {
      var released := ReleaseDelivery(s, active.value);
      assert Uncarried(released, o);
      AssignCarries(released, p, choice, o);
    }
  }

  lemma ProgressCarries(
    cfg: Config, s: State, d: DeliveryId, agent: AgentId, to: DeliveryStatus, reason: bool, o: OrderId)
    requires Uncarried(s, o)
    ensures Uncarried(UpdateDeliveryStatus(cfg, s, d, agent, to, reason).state, o)
  {
    var after := UpdateDeliveryStatus(cfg, s, d, agent, to, reason).state.deliveries;
    ProgressRows(cfg, s, d, agent, to, reason);
    forall i | 0 <= i < |after| ensures !(after[i].orderId == o && after[i].Active()) {
      FollowsDown(s.deliveries[i], after[i]);
    }
  }

  /** An order that nobody carries gets a carrier by an ordinary assignment, and by no other step. */
  lemma CarrierComesByAssignment(cfg: Config, s: State, step: Step, o: OrderId)
    requires Uncarried(s, o)
    ensures Uncarried(Apply(cfg, s, step), o) <==>
            !(step.Assign? && step.o == o && AssignDelivery(s, o, step.choice).reply.Ok?)
  {
    match step
    case Assign(p, choice) => AssignCarries(s, p, choice, o);
    case Reassign(p, choice) => ReassignCarries(cfg, s, p, choice, o);
    case Progress(d, agent, to, reason) => ProgressCarries(cfg, s, d, agent, to, reason, o);
    case _ => assert Apply(cfg, s, step).deliveries == s.deliveries;
  }

  /** An unconditional cancellation, a status update that succeeds, or a webhook that captures. */
  predicate Rescues(s: State, step: Step, o: OrderId)
    requires o < |s.orders|
  {
    || step == Void(o)
    || (step.Status? && step.o == o && UpdateStatus(s, o, step.actor, step.role, step.to, step.reason).reply.Ok?)
    || StepCaptures(s, step, o)
  }

  /** Those three end it, and nothing else does; of the status updates, only an admin's can. */
  lemma RescuedExactly(cfg: Config, s: State, step: Step, o: OrderId)
    requires StrandedOrder(s, o)
    ensures StrandedOrder(Apply(cfg, s, step), o) <==> !Rescues(s, step, o)
    ensures Rescues(s, step, o) && step.Status? ==> step.role.SystemAdmin?
  {
    StatusMovesExactly(cfg, s, step, o);
    CarrierComesByAssignment(cfg, s, step, o);
    if step.Progress? {
      NothingToProgress(cfg, s, step, o);
    }
  }

  lemma NothingToProgress(cfg: Config, s: State, step: Step, o: OrderId)
    requires Uncarried(s, o) && step.Progress?
    ensures !PicksUp(s, step, o) && !HandsOver(cfg, s, step, o)
  {
  }

  /** After `n` steps of `more` the order is stranded. */
  ghost predicate StrandedAfter(cfg: Config, steps: seq<Step>, more: seq<Step>, o: OrderId, n: nat) {
    n <= |more| && StrandedOrder(Reached(cfg, steps + more[..n]), o)
  }

  /** Step `n` of `more` rescues the order. */
  ghost predicate RescuedAt(cfg: Config, steps: seq<Step>, more: seq<Step>, o: OrderId, n: nat) {
    && n < |more| && o < |Reached(cfg, steps + more[..n]).orders|
    && Rescues(Reached(cfg, steps + more[..n]), more[n], o)
  }

  lemma OneStepOn(cfg: Config, steps: seq<Step>, more: seq<Step>, o: OrderId, n: nat)
    requires n < |more| && StrandedAfter(cfg, steps, more, o, n)
    ensures StrandedAfter(cfg, steps, more, o, n + 1) <==> !RescuedAt(cfg, steps, more, o, n)
  {
    var all := steps + more[..n + 1];
    assert all[..|all| - 1] == steps + more[..n] && all[|all| - 1] == more[n];
    RescuedExactly(cfg, Reached(cfg, steps + more[..n]), more[n], o);
  }

  lemma {:induction false} UnrescuedStays(cfg: Config, steps: seq<Step>, more: seq<Step>, o: OrderId, n: nat)
    requires StrandedOrder(Reached(cfg, steps), o) && n <= |more|
    requires forall i :: 0 <= i < n ==> !RescuedAt(cfg, steps, more, o, i)
    ensures StrandedAfter(cfg, steps, more, o, n)
  {
    if n == 0 {
      assert steps + more[..0] == steps;
    } else {
      UnrescuedStays(cfg, steps, more, o, n - 1);
      OneStepOn(cfg, steps, more, o, n - 1);
    }
  }

  /** Over any run: a stranded order is so all along exactly as long as no step rescues it. */
  lemma StrandedUntilRescued(cfg: Config, steps: seq<Step>, more: seq<Step>, o: OrderId)
    requires StrandedOrder(Reached(cfg, steps), o)
    ensures (forall n :: 0 <= n <= |more| ==> StrandedAfter(cfg, steps, more, o, n))
            <==> forall n :: 0 <= n < |more| ==> !RescuedAt(cfg, steps, more, o, n)
  {
    if forall n :: 0 <= n <= |more| ==> StrandedAfter(cfg, steps, more, o, n) {
      forall n | 0 <= n < |more| ensures !RescuedAt(cfg, steps, more, o, n) {
        assert StrandedAfter(cfg, steps, more, o, n + 1);
        OneStepOn(cfg, steps, more, o, n);
      }
    }
    if forall n :: 0 <= n < |more| ==> !RescuedAt(cfg, steps, more, o, n) {
      forall n | 0 <= n <= |more| ensures StrandedAfter(cfg, steps, more, o, n) {
        UnrescuedStays(cfg, steps, more, o, n);
      }
    }
  }

  /** Step `n` of `more` assigns the order. */
  ghost predicate AssignedAt(cfg: Config, steps: seq<Step>, more: seq<Step>, o: OrderId, n: nat) {
    && n < |more| && more[n].Assign? && more[n].o == o
    && AssignDelivery(Reached(cfg, steps + more[..n]), o, more[n].choice).reply.Ok?
  }

  /** Over any run: an order that nobody carries is not carried until it is assigned. */
  lemma {:induction false} UncarriedUntilAssigned(cfg: Config, steps: seq<Step>, more: seq<Step>, o: OrderId)
    requires Uncarried(Reached(cfg, steps), o)
    requires forall n :: 0 <= n < |more| ==> !AssignedAt(cfg, steps, more, o, n)
    ensures Uncarried(Reached(cfg, steps + more), o)
  {
    if |more| == 0 {
      assert steps + more == steps;
    } else {
      var earlier, last := more[..|more| - 1], more[|more| - 1];
      forall n | 0 <= n < |earlier| ensures !AssignedAt(cfg, steps, earlier, o, n) {
        assert earlier[..n] == more[..n];
        assert !AssignedAt(cfg, steps, more, o, n);
      }
      UncarriedUntilAssigned(cfg, steps, earlier, o);
      assert (steps + more)[..|steps + more| - 1] == steps + earlier;
      assert !AssignedAt(cfg, steps, more, o, |earlier|);
      CarrierComesByAssignment(cfg, Reached(cfg, steps + earlier), last, o);
    }
  }
}
