/** The life of a delivery row: a path down a finite graph, and then nothing. */
module Lifecycle {
  import opened Domain
  import opened Requests
  import opened Fulfilment
  import opened Runs

  predicate Edge(from: DeliveryStatus, to: DeliveryStatus) {
    match from
    case Assigned => to.Accepted? || to.Rejected? || to.Reassigned?
    case Accepted => to.Picked? || to.Reassigned?
    case Picked => to.Delivered? || to.Reassigned?
    case _ => false
  }

  function Rank(status: DeliveryStatus): nat {
    match status
    case Assigned => 3
    case Accepted => 2
    case Picked => 1
    case _ => 0
  }

  /** The row is untouched, or it has taken one edge; its order and its agent are for good. */
  ghost predicate Follows(before: Delivery, after: Delivery) {
    || after == before
    || (&& Edge(before.status, after.status)
        && after.orderId == before.orderId
        && after.agentId == before.agentId
        && (after.status.Delivered? || after.earning == before.earning))
  }

  /** A row that takes an edge goes down, and a finished row takes none. */
  lemma FollowsDown(before: Delivery, after: Delivery)
    requires Follows(before, after)
    ensures after.orderId == before.orderId && after.agentId == before.agentId
    ensures Rank(after.status) <= Rank(before.status)
    ensures after != before ==> Rank(after.status) < Rank(before.status)
    ensures !before.Active() ==> after == before
  {
  }

  lemma ProgressRows(cfg: Config, s: State, d: DeliveryId, agent: AgentId, to: DeliveryStatus, reason: bool)
    ensures var rows := UpdateDeliveryStatus(cfg, s, d, agent, to, reason).state.deliveries;
            |rows| == |s.deliveries| && forall i :: 0 <= i < |rows| ==> Follows(s.deliveries[i], rows[i])
  {
  }

  lemma AssignRows(s: State, o: OrderId, choice: Choice)
    ensures var rows := AssignDelivery(s, o, choice).state.deliveries;
            && |s.deliveries| <= |rows| <= |s.deliveries| + 1
            && (forall d :: 0 <= d < |s.deliveries| ==> rows[d] == s.deliveries[d])
            && (|s.deliveries| < |rows| ==> rows[|s.deliveries|].status.Assigned? && s.orders[o].status.Ready?)
  {
  }

  /** One step moves rows along edges only, and a row it adds is newly assigned. */
  lemma StepRows(cfg: Config, s: State, step: Step)
    requires FulfilmentOk(cfg, s)
    ensures var rows := Apply(cfg, s, step).deliveries;
            && |s.deliveries| <= |rows| <= |s.deliveries| + 1
            && (forall d :: 0 <= d < |s.deliveries| ==> Follows(s.deliveries[d], rows[d]))
            && (|s.deliveries| < |rows| ==> rows[|s.deliveries|].status.Assigned?)
  {
    match step
    case Assign(o, choice) => AssignRows(s, o, choice);
    case Reassign(o, choice) =>
      var active := FindActiveDelivery(s.deliveries, o);
      if o < |s.orders| && s.orders[o].reassignments < cfg.maxReassignments && active.Some? {
        AssignRows(ReleaseDelivery(s, active.value), o, choice);
      }
    case Progress(d, agent, to, reason) => ProgressRows(cfg, s, d, agent, to, reason);
    case _ =>
  }

  /** How many steps of the run change row `d`. */
  ghost function Changes(cfg: Config, s: State, steps: seq<Step>, d: DeliveryId): nat {
    if |steps| == 0 then 0
    else
      var earlier := Run(cfg, s, steps[..|steps| - 1]);
      var last := Run(cfg, s, steps);
      Changes(cfg, s, steps[..|steps| - 1], d)
      + (if d < |earlier.deliveries| && d < |last.deliveries| && earlier.deliveries[d] != last.deliveries[d] then 1 else 0)
  }

  /**
   * From any state on, a row is never removed, keeps its order and agent, and changes at most as
   * often as its rank drops: three times in all, and never once it is finished.
   */
  lemma {:induction false} RowsSettleDown(cfg: Config, s: State, steps: seq<Step>, d: DeliveryId)
    requires Invariant(cfg, s) && d < |s.deliveries|
    ensures Invariant(cfg, Run(cfg, s, steps))
    ensures var rows := Run(cfg, s, steps).deliveries;
            && d < |rows|
            && rows[d].orderId == s.deliveries[d].orderId
            && rows[d].agentId == s.deliveries[d].agentId
            && Changes(cfg, s, steps, d) + Rank(rows[d].status) <= Rank(s.deliveries[d].status) <= 3
            && (!s.deliveries[d].Active() ==> rows[d] == s.deliveries[d])
  {
    if |steps| > 0 {
      var earlier := steps[..|steps| - 1];
      RowsSettleDown(cfg, s, earlier, d);
      StepKeepsInvariant(cfg, Run(cfg, s, earlier), steps[|steps| - 1]);
      StepRows(cfg, Run(cfg, s, earlier), steps[|steps| - 1]);
      FollowsDown(Run(cfg, s, earlier).deliveries[d], Run(cfg, s, steps).deliveries[d]);
    }
  }
}
