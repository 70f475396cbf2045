/** The payment sweep reads the stale orders and then cancels them one by one: when that hits a paid one. */
module Sweeps {
  import opened Domain
  import opened Tally
  import opened Requests
  import opened Fulfilment
  import opened Runs
  import opened Transitions
  import opened Guarantees

  // ── what the sweep may read is unpaid ─────────────────────────────────────

  ghost predicate UnpaidOk(s: State) {
    forall o :: 0 <= o < |s.orders| && s.orders[o].status.PendingPayment? ==> Charges(s.txs, o) == 0
  }

  lemma StepUnpaid(cfg: Config, s: State, step: Step)
    requires UnpaidOk(s) && FulfilmentOk(cfg, s)
    ensures UnpaidOk(Apply(cfg, s, step))
  {
    var after := Apply(cfg, s, step);
    forall o | 0 <= o < |after.orders| && after.orders[o].status.PendingPayment? ensures Charges(after.txs, o) == 0 {
      if o < |s.orders| {
        StatusMovesExactly(cfg, s, step, o);
        StepCharges(cfg, s, step, o);
      } else {
        NewOrderUncharged(cfg, s, step, o);
      }
    }
  }

  lemma NewOrderUncharged(cfg: Config, s: State, step: Step, o: OrderId)
    requires FulfilmentOk(cfg, s) && |s.orders| <= o < |Apply(cfg, s, step).orders|
    ensures Charges(Apply(cfg, s, step).txs, o) == 0
  {
    assert OrderAt(cfg, s.orders, s.txs, s.deliveries, o);
    if step.Place? {
      AppendedCharges(s.txs, PlaceOrder(s, step.cart, step.fees).state.txs, o);
    } else {
      OnlyPlacingAddsOrders(cfg, s, step);
    }
  }

  /** In every run, an order that waits for its payment has none. */
  lemma {:induction false} WaitingMeansUnpaid(cfg: Config, steps: seq<Step>)
    ensures UnpaidOk(Reached(cfg, steps))
  {
    if |steps| > 0 {
      var earlier := steps[..|steps| - 1];
      WaitingMeansUnpaid(cfg, earlier);
      RunKeepsInvariant(cfg, earlier);
      StepUnpaid(cfg, Reached(cfg, earlier), steps[|steps| - 1]);
    }
  }

  /** The sweep as one step, with nothing between read and writes, cancels unpaid orders only. */
  lemma UndisturbedSweepIsSafe(cfg: Config, steps: seq<Step>, cutoff: nat, o: OrderId)
    requires o < |Reached(cfg, steps).orders|
    requires SweepExpired(Reached(cfg, steps), cutoff).orders[o] != Reached(cfg, steps).orders[o]
    ensures !HasCapturedCharge(SweepExpired(Reached(cfg, steps), cutoff).txs, o)
  {
    WaitingMeansUnpaid(cfg, steps);
    CapturedIffCounted(Reached(cfg, steps).txs, o);
  }

  // ── from the read to the write ────────────────────────────────────────────

  /** Step `n` of the run captures a charge of order `o`. */
  ghost predicate CapturedAt(cfg: Config, steps: seq<Step>, o: OrderId, n: nat) {
    && n < |steps| && o < |Reached(cfg, steps[..n]).orders|
    && StepCaptures(Reached(cfg, steps[..n]), steps[n], o)
  }

  /** How many steps from number `k` on capture a charge of order `o`. */
  ghost function CapturesSince(cfg: Config, steps: seq<Step>, k: nat, o: OrderId): nat {
    if |steps| <= k then 0
    else CapturesSince(cfg, steps[..|steps| - 1], k, o) + if CapturedAt(cfg, steps, o, |steps| - 1) then 1 else 0
  }

  lemma CapturedInPart(cfg: Config, steps: seq<Step>, o: OrderId, n: nat)
    requires |steps| > 0 && n < |steps| - 1
    ensures CapturedAt(cfg, steps[..|steps| - 1], o, n) <==> CapturedAt(cfg, steps, o, n)
  {
    assert steps[..|steps| - 1][..n] == steps[..n];
  }

  lemma {:induction false} CapturedSince(cfg: Config, steps: seq<Step>, k: nat, o: OrderId) returns (n: nat)
    requires CapturesSince(cfg, steps, k, o) > 0
    ensures k <= n && CapturedAt(cfg, steps, o, n)
  {
    n := |steps| - 1;
    if !CapturedAt(cfg, steps, o, n) {
      n := CapturedSince(cfg, steps[..|steps| - 1], k, o);
      CapturedInPart(cfg, steps, o, n);
    }
  }

  lemma {:induction false} CaptureCounts(cfg: Config, steps: seq<Step>, k: nat, o: OrderId, n: nat)
    requires k <= n && CapturedAt(cfg, steps, o, n)
    ensures CapturesSince(cfg, steps, k, o) > 0
  {
    if n < |steps| - 1 {
      CapturedInPart(cfg, steps, o, n);
      CaptureCounts(cfg, steps[..|steps| - 1], k, o, n);
    }
  }

  lemma CapturesSinceExactly(cfg: Config, steps: seq<Step>, k: nat, o: OrderId)
    ensures CapturesSince(cfg, steps, k, o) > 0 <==> exists n :: k <= n && CapturedAt(cfg, steps, o, n)
  {
    if CapturesSince(cfg, steps, k, o) > 0 {
      var n := CapturedSince(cfg, steps, k, o);
    }
    forall n: nat | k <= n && CapturedAt(cfg, steps, o, n) ensures CapturesSince(cfg, steps, k, o) > 0 {
      CaptureCounts(cfg, steps, k, o, n);
    }
  }

  /** The succeeded charges of an order are those it had, and one for each capture since. */
  lemma {:induction false} ChargesSince(cfg: Config, steps: seq<Step>, k: nat, o: OrderId)
    requires k <= |steps| && o < |Reached(cfg, steps[..k]).orders|
    ensures o < |Reached(cfg, steps).orders|
    ensures Charges(Reached(cfg, steps).txs, o)
         == Charges(Reached(cfg, steps[..k]).txs, o) + CapturesSince(cfg, steps, k, o)
  {
    if k == |steps| {
      assert steps[..k] == steps;
    } else {
      var earlier, last := steps[..|steps| - 1], steps[|steps| - 1];
      assert earlier[..k] == steps[..k];
      ChargesSince(cfg, earlier, k, o);
      StatusMovesExactly(cfg, Reached(cfg, earlier), last, o);
      StepCharges(cfg, Reached(cfg, earlier), last, o);
    }
  }

  /**
   * The sweep reads a stale order after `k` steps and writes after all of them. It then cancels the
   * order in any case, and cancels a paid one if and only if a webhook captured a charge in between.
   */
  lemma SweepHitsPaidExactly(cfg: Config, steps: seq<Step>, k: nat, cutoff: nat, o: OrderId)
    requires k <= |steps|
    requires var read := Reached(cfg, steps[..k]); o < |read.orders| && Stale(read.orders[o], cutoff)
    ensures var written := Apply(cfg, Reached(cfg, steps), Void(o));
            && o < |written.orders| && written.orders[o].status.Cancelled?
            && (HasCapturedCharge(written.txs, o) <==> exists n :: k <= n && CapturedAt(cfg, steps, o, n))
  {
    WaitingMeansUnpaid(cfg, steps[..k]);
    ChargesSince(cfg, steps, k, o);
    CapturesSinceExactly(cfg, steps, k, o);
    CapturedIffCounted(Reached(cfg, steps).txs, o);
  }
}
