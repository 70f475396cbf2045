/** The class `Shard` at work: the requests it serves are the steps of a run, so every theorem about runs is about it. */
module ShardRuns {
  import opened Domain
  import opened Runs
  import opened Guarantees
  import S = Shard

  /** One request, job or expiry. */
  method Serve(shard: S.Shard, step: Step)
    modifies shard
    ensures shard.View() == Apply(shard.cfg, old(shard.View()), step)
  {
    match step
    case Place(cart, fees) => var _ := shard.PlaceOrder(cart, fees);
    case Void(o) => shard.VoidOrder(o);
    case Sweep(cutoff) => shard.SweepExpired(cutoff);
    case Status(o, actor, role, to, reason) => var _ := shard.UpdateStatus(o, actor, role, to, reason);
    case Claim(o, agent) => var _ := shard.ClaimReadyOrder(o, agent);
    case Init(customerId, o, cached, up) => var _ := shard.InitPayment(customerId, o, cached, up);
    case Hook(w) => var _ := shard.HandleWebhook(w);
    case Refund(t, amount) => var _ := shard.RefundPayment(t, amount);
    case Pay(account, amount) => var _ := shard.CreatePayout(account, amount);
    case Assign(o, choice) => var _ := shard.AssignDelivery(o, choice);
    case Reassign(o, choice) => var _ := shard.ReassignDelivery(o, choice);
    case Progress(d, agent, to, reason) => var _ := shard.UpdateDeliveryStatus(d, agent, to, reason);
    case Online(agent) => shard.GoOnline(agent);
    case Offline(agent) => var _ := shard.GoOffline(agent);
    case Expire(agent) => shard.PresenceExpires(agent);
  }

  /** A shard that has served a run from the start is in the state the run reaches, with every invariant intact. */
  method ServeAll(cfg: Config, steps: seq<Step>) returns (shard: S.Shard)
    ensures fresh(shard) && shard.cfg == cfg
    ensures shard.View() == Reached(cfg, steps) && Invariant(cfg, shard.View())
  {
    shard := new S.Shard(cfg);
    for k := 0 to |steps|
      invariant fresh(shard) && shard.cfg == cfg && shard.View() == Reached(cfg, steps[..k])
    {
      assert steps[..k + 1][..k] == steps[..k];
      Serve(shard, steps[k]);
    }
    assert steps[..|steps|] == steps;
    RunKeepsInvariant(cfg, steps);
  }
}
