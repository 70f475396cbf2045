/** The life of a transaction row, and how refunds hang on charges, over every run. */
module TransactionLife {
  import opened Domain
  import opened Requests
  import opened Runs
  import opened Guarantees

  // ── one row ───────────────────────────────────────────────────────────────

  /** A charge is settled or failed by its webhook, a cash collection by the handover; nothing else ever moves. */
  predicate Edge(kind: TxKind, from: TxStatus, to: TxStatus) {
    (kind, from, to) in {
      (Charge, TxStatus.Pending, Succeeded), (Charge, TxStatus.Pending, Failed), (CodCollection, TxStatus.Pending, Succeeded)}
  }

  /** The row is untouched, moved along one edge, or is a captured charge that was marked as refunded. */
  ghost predicate Follows(before: Transaction, after: Transaction) {
    || after == before
    || (Edge(before.kind, before.status, after.status) && after == before.(status := after.status))
    || (&& before.kind == Charge && before.status == Succeeded && before.refundedBy == None
        && after.refundedBy != None && after == before.(refundedBy := after.refundedBy))
  }

  /** A row as it is inserted. */
  predicate Inserted(t: Transaction) { t.status == TxStatus.Pending && t.refundedBy == None && t.amount > 0 }

  lemma HookTxs(s: State, w: Webhook)
    ensures var after := HandleWebhook(s, w).state.txs;
            |after| == |s.txs| && forall t :: 0 <= t < |s.txs| ==> Follows(s.txs[t], after[t])
  {
  }

  lemma RefundTxs(s: State, t: TxId, amount: Option<int>)
    ensures var after := RefundPayment(s, t, amount).state.txs;
            && |s.txs| <= |after| <= |s.txs| + 1
            && (forall i :: 0 <= i < |s.txs| ==> Follows(s.txs[i], after[i]))
            && (|s.txs| < |after| ==> Inserted(after[|s.txs|]))
  {
  }

  lemma ProgressTxs(cfg: Config, s: State, d: DeliveryId, agent: AgentId, to: DeliveryStatus, reason: bool)
    ensures var after := UpdateDeliveryStatus(cfg, s, d, agent, to, reason).state.txs;
            |after| == |s.txs| && forall t :: 0 <= t < |s.txs| ==> Follows(s.txs[t], after[t])
  {
  }

  lemma PlaceTxs(s: State, cart: Cart, fees: Fees)
    ensures var after := PlaceOrder(s, cart, fees).state.txs;
            && s.txs <= after && |after| <= |s.txs| + 1
            && (|s.txs| < |after| ==> Inserted(after[|s.txs|]))
  {
  }

  /** Any step moves rows along edges only, and adds at most one, newly inserted. */
  lemma StepTxs(cfg: Config, s: State, step: Step)
    ensures var after := Apply(cfg, s, step).txs;
            && |s.txs| <= |after| <= |s.txs| + 1
            && (forall t :: 0 <= t < |s.txs| ==> Follows(s.txs[t], after[t]))
            && (|s.txs| < |after| ==> Inserted(after[|s.txs|]))
  {
    match step
    case Place(cart, fees) => PlaceTxs(s, cart, fees);
    case Hook(w) => HookTxs(s, w);
    case Refund(t, amount) => RefundTxs(s, t, amount);
    case Progress(d, agent, to, reason) => ProgressTxs(cfg, s, d, agent, to, reason);
    case _ =>
  }

  /** How often a row may still change. */
  function ChangesLeft(t: Transaction): nat {
    match t.kind
    case Charge =>
      if t.status == TxStatus.Pending then 2 else if t.status == Succeeded && t.refundedBy == None then 1 else 0
    case CodCollection => if t.status == TxStatus.Pending then 1 else 0
    case _ => 0
  }

  lemma FollowsDown(before: Transaction, after: Transaction)
    requires Follows(before, after)
    ensures after == before.(status := after.status, refundedBy := after.refundedBy)
    ensures before.status != TxStatus.Pending ==> after.status == before.status
    ensures before.refundedBy != None ==> after.refundedBy == before.refundedBy
    ensures ChangesLeft(after) <= ChangesLeft(before)
    ensures after != before && before.refundedBy == None ==> ChangesLeft(after) < ChangesLeft(before)
  {
  }

  /** How many steps of the run change row `t`. */
  ghost function Changes(cfg: Config, s: State, steps: seq<Step>, t: TxId): nat {
    if |steps| == 0 then 0
    else
      var earlier := Run(cfg, s, steps[..|steps| - 1]);
      var last := Run(cfg, s, steps);
      Changes(cfg, s, steps[..|steps| - 1], t)
      + (if t < |earlier.txs| && t < |last.txs| && earlier.txs[t] != last.txs[t] then 1 else 0)
  }

  /**
   * From any state on, a row is never removed and keeps its order, kind, amount and accounts. A
   * charge leaves pending at most once, for succeeded or failed, and never moves again; a charge is
   * marked as refunded at most once, by one row, for good. Payouts and refunds never change.
   */
  lemma {:induction false} RowsSettleDown(cfg: Config, s: State, steps: seq<Step>, t: TxId)
    requires t < |s.txs| && (s.txs[t].refundedBy != None ==> s.txs[t].kind == Charge && s.txs[t].status == Succeeded)
    ensures var after := Run(cfg, s, steps).txs;
            && t < |after|
            && after[t] == s.txs[t].(status := after[t].status, refundedBy := after[t].refundedBy)
            && (after[t].status != s.txs[t].status ==> Edge(s.txs[t].kind, s.txs[t].status, after[t].status))
            && (s.txs[t].refundedBy != None ==> after[t].refundedBy == s.txs[t].refundedBy)
            && (after[t].refundedBy != None ==> after[t].kind == Charge && after[t].status == Succeeded)
            && Changes(cfg, s, steps, t) + ChangesLeft(after[t]) <= ChangesLeft(s.txs[t]) <= 2
  {
    if |steps| > 0 {
      var earlier := steps[..|steps| - 1];
      RowsSettleDown(cfg, s, earlier, t);
      var before := Run(cfg, s, earlier);
      StepTxs(cfg, before, steps[|steps| - 1]);
      FollowsDown(before.txs[t], Run(cfg, s, steps).txs[t]);
    }
  }

  // ── refunds and their charges ─────────────────────────────────────────────

  /** Charge `t` is refunded by row `r`. */
  ghost predicate RefundsIt(txs: seq<Transaction>, t: TxId, r: TxId) {
    && t < r < |txs|
    && txs[t].refundedBy == Some(r)
    && txs[t].kind == Charge && txs[t].status == Succeeded
    && txs[r].kind == TxKind.Refund && txs[r].orderId == txs[t].orderId && txs[r].currency == txs[t].currency
    && txs[r].destination == txs[t].source
  }

  ghost predicate RefundsLinked(txs: seq<Transaction>) {
    && (forall t :: 0 <= t < |txs| && txs[t].refundedBy != None ==> RefundsIt(txs, t, txs[t].refundedBy.value))
    && (forall t, u, r :: RefundsIt(txs, t, r) && RefundsIt(txs, u, r) ==> t == u)
    && (forall r :: 0 <= r < |txs| && txs[r].kind == TxKind.Refund ==> exists t :: RefundsIt(txs, t, r))
  }

  lemma AppendLinked(txs: seq<Transaction>, x: Transaction)
    requires RefundsLinked(txs) && x.kind != TxKind.Refund && x.refundedBy == None
    ensures RefundsLinked(txs + [x])
  {
    var after := txs + [x];
    forall t | 0 <= t < |after| && after[t].refundedBy != None ensures RefundsIt(after, t, after[t].refundedBy.value) {
      assert RefundsIt(txs, t, txs[t].refundedBy.value);
    }
    forall r | 0 <= r < |after| && after[r].kind == TxKind.Refund ensures exists t :: RefundsIt(after, t, r) {
      var t :| RefundsIt(txs, t, r);
      assert RefundsIt(after, t, r);
    }
  }

  lemma StatusLinked(txs: seq<Transaction>, i: TxId, status: TxStatus)
    requires RefundsLinked(txs) && i < |txs| && txs[i].status != Succeeded
    ensures RefundsLinked(txs[i := txs[i].(status := status)])
  {
    var after := txs[i := txs[i].(status := status)];
    forall t | 0 <= t < |after| && after[t].refundedBy != None ensures RefundsIt(after, t, after[t].refundedBy.value) {
      assert RefundsIt(txs, t, txs[t].refundedBy.value);
    }
    forall r | 0 <= r < |after| && after[r].kind == TxKind.Refund ensures exists t :: RefundsIt(after, t, r) {
      var t :| RefundsIt(txs, t, r);
      assert RefundsIt(after, t, r);
    }
  }

  lemma RefundLinked(txs: seq<Transaction>, i: TxId, x: Transaction)
    requires RefundsLinked(txs) && i < |txs|
    requires txs[i].kind == Charge && txs[i].status == Succeeded && txs[i].refundedBy == None
    requires x.kind == TxKind.Refund && x.refundedBy == None && x.orderId == txs[i].orderId && x.currency == txs[i].currency
    requires x.destination == txs[i].source
    ensures RefundsLinked((txs + [x])[i := txs[i].(refundedBy := Some(|txs|))])
  {
    var after := (txs + [x])[i := txs[i].(refundedBy := Some(|txs|))];
    forall t | 0 <= t < |after| && after[t].refundedBy != None ensures RefundsIt(after, t, after[t].refundedBy.value) {
      if t != i {
        assert RefundsIt(txs, t, txs[t].refundedBy.value);
      }
    }
    forall r | 0 <= r < |after| && after[r].kind == TxKind.Refund ensures exists t :: RefundsIt(after, t, r) {
      if r == |txs| {
        assert RefundsIt(after, i, r);
      } else {
        var t :| RefundsIt(txs, t, r);
        assert RefundsIt(after, t, r);
      }
    }
  }

  lemma HookLinked(s: State, w: Webhook)
    requires RefundsLinked(s.txs)
    ensures RefundsLinked(HandleWebhook(s, w).state.txs)
  {
    var after := HandleWebhook(s, w).state;
    var pending := PickPendingCharge(s.txs, w.orderId, w.hint);
    if pending.Some? && after.txs != s.txs {
      StatusLinked(s.txs, pending.value, after.txs[pending.value].status);
    }
  }

  lemma ProgressLinked(cfg: Config, s: State, d: DeliveryId, agent: AgentId, to: DeliveryStatus, reason: bool)
    requires RefundsLinked(s.txs)
    ensures RefundsLinked(UpdateDeliveryStatus(cfg, s, d, agent, to, reason).state.txs)
  {
    var after := UpdateDeliveryStatus(cfg, s, d, agent, to, reason).state;
    if after.txs != s.txs {
      var collection := FirstPendingCollection(s.txs, s.deliveries[d].orderId, 0);
      StatusLinked(s.txs, collection.value, Succeeded);
    }
  }

  lemma StepLinked(cfg: Config, s: State, step: Step)
    requires RefundsLinked(s.txs)
    ensures RefundsLinked(Apply(cfg, s, step).txs)
  {
    var after := Apply(cfg, s, step);
    match step
    case Place(_, _) => if after.txs != s.txs { AppendLinked(s.txs, after.txs[|s.txs|]); }
    case Init(_, _, _, _) => if after.txs != s.txs { AppendLinked(s.txs, after.txs[|s.txs|]); }
    case Pay(_, _) => if after.txs != s.txs { AppendLinked(s.txs, after.txs[|s.txs|]); }
    case Hook(w) => HookLinked(s, w);
    case Refund(t, amount) => if after.txs != s.txs { RefundLinked(s.txs, t, after.txs[|s.txs|]); }
    case Progress(d, agent, to, reason) => ProgressLinked(cfg, s, d, agent, to, reason);
    case _ => assert after.txs == s.txs;
  }

  /**
   * In every run each refund row is named by exactly one charge, a captured one of its order, and
   * each charge names at most one refund.
   */
  lemma {:induction false} RefundsAreLinked(cfg: Config, steps: seq<Step>)
    ensures RefundsLinked(Reached(cfg, steps).txs)
  {
    if |steps| > 0 {
      RefundsAreLinked(cfg, steps[..|steps| - 1]);
      StepLinked(cfg, Reached(cfg, steps[..|steps| - 1]), steps[|steps| - 1]);
    }
  }

  lemma RefundMarksCharge(s: State, t: TxId, amount: Option<int>)
    requires RefundPayment(s, t, amount).reply.Ok?
    ensures var after := RefundPayment(s, t, amount);
            t < |after.state.txs| && after.state.txs[t].refundedBy == Some(|s.txs|) && after.reply == Ok(|s.txs|)
            && after.state.txs[t].kind == Charge && after.state.txs[t].status == Succeeded
  {
  }

  /** A charge is refunded once: whatever happens in between, a second refund is refused and changes nothing. */
  lemma SecondRefundRefused(
    cfg: Config, s: State, t: TxId, amount: Option<int>, more: seq<Step>, again: Option<int>)
    requires RefundPayment(s, t, amount).reply.Ok?
    ensures var later := Run(cfg, RefundPayment(s, t, amount).state, more);
            RefundPayment(later, t, again) == Outcome(later, Err(PaymentAlreadyCompleted))
  {
    RefundMarksCharge(s, t, amount);
    RowsSettleDown(cfg, RefundPayment(s, t, amount).state, more, t);
  }
}
