/** How often an order is offered, or searched for in vain, before the attempts counter stops it. */
module Broadcasts {
  import opened Sums
  import opened Assignment

  function InFlight(call: Call): int {
    if call.TickStart? || call.TickUnoffered? then 1 else Pledged(call) + Uncounted(call)
  }

  /** The tick has passed the check and may still try. */
  function Pledged(call: Call): int { if call.TickArmed? || call.TickFound? then 1 else 0 }

  /** The tick has tried, and not counted it yet. */
  function Uncounted(call: Call): int { if call.TickEmpty? || call.TickOffered? then 1 else 0 }

  /** Offers made and searches in vain. */
  function Tries(w: World): nat { |w.broadcasts| + w.fruitless }

  /** The tries that an action wipes from the count: the counter expires, or a tick dies before it counts. */
  function Forgets(w: World, action: Action): nat {
    match action
    case AttemptsExpire => w.keys.attempts
    case Die(i) => if i < |w.calls| && Uncounted(w.calls[i]) == 1 then 1 else 0
    case _ => 0
  }

  function Forgotten(limits: Limits, row: Row, actions: seq<Action>): nat {
    if |actions| == 0 then 0
    else
      var earlier := actions[..|actions| - 1];
      Forgotten(limits, row, earlier) + Forgets(After(limits, row, earlier), actions[|actions| - 1])
  }

  function Flying(w: World): int { Sum(w.calls, InFlight) }

  /** Never more than `ticks` ticks of the order are in flight. */
  ghost predicate Orderly(limits: Limits, row: Row, actions: seq<Action>, ticks: nat) {
    && Flying(After(limits, row, actions)) <= ticks
    && (|actions| > 0 ==> Orderly(limits, row, actions[..|actions| - 1], ticks))
  }

  /** The most tries that `ticks` ticks in flight can make. */
  function Cap(limits: Limits, ticks: nat): nat {
    if limits.maxAttempts == 0 || ticks == 0 then 0 else limits.maxAttempts + ticks - 1
  }

  // ── the bound ─────────────────────────────────────────────────────────────

  ghost predicate Limited(limits: Limits, ticks: nat, w: World, forgotten: nat) {
    && Tries(w) == w.keys.attempts + Sum(w.calls, Uncounted) + forgotten
    && Tries(w) + Sum(w.calls, Pledged) <= Cap(limits, ticks) + forgotten
  }

  lemma {:induction false} FlightCovers(calls: seq<Call>)
    ensures 0 <= Sum(calls, Pledged) && 0 <= Sum(calls, Uncounted)
    ensures Sum(calls, Pledged) + Sum(calls, Uncounted) <= Sum(calls, InFlight)
  {
    if |calls| > 0 {
      FlightCovers(calls[..|calls| - 1]);
    }
  }

  /** What a step of call `i` does to the counts. */
  lemma GoCounts(calls: seq<Call>, i: CallId, call: Call)
    requires i < |calls|
    ensures Sum(calls[i := call], Pledged) == Sum(calls, Pledged) - Pledged(calls[i]) + Pledged(call)
    ensures Sum(calls[i := call], Uncounted) == Sum(calls, Uncounted) - Uncounted(calls[i]) + Uncounted(call)
    ensures Sum(calls[i := call], InFlight) == Sum(calls, InFlight) - InFlight(calls[i]) + InFlight(call)
  {
    SumUpdate(calls, i, call, Pledged);
    SumUpdate(calls, i, call, Uncounted);
    SumUpdate(calls, i, call, InFlight);
  }

  /** A step of a call moves that call only. */
  lemma AdvanceMovesOne(limits: Limits, w: World, i: CallId, search: Search)
    requires i < |w.calls|
    ensures var after := AdvanceCall(limits, w, i, search);
            |after.calls| == |w.calls| && after.calls == w.calls[i := after.calls[i]]
  {
    var after := AdvanceCall(limits, w, i, search);
    if w.calls[i].Locked? || w.calls[i].Ended? {
      assert w.calls[i := w.calls[i]] == w.calls;
    }
  }

  /** What a call that is no tick does to the counts: nothing. */
  lemma OtherCallsCount(limits: Limits, w: World, i: CallId, search: Search)
    requires i < |w.calls| && InFlight(w.calls[i]) == 0
    ensures var after := AdvanceCall(limits, w, i, search);
            && i < |after.calls| && InFlight(after.calls[i]) == 0
            && after.keys.attempts == w.keys.attempts
            && after.broadcasts == w.broadcasts && after.fruitless == w.fruitless
  {
    var after := AdvanceCall(limits, w, i, search);
    match w.calls[i]
    case Locked(_, _) => assert after.calls[i].Locked? || after.calls[i].Updated? || after.calls[i].Lost?;
    case Updated(_, _) => assert after.calls[i].Won?;
    case Lost(_) => assert after.calls[i].Lost? || after.calls[i].Ended?;
    case _ =>
  }

  /** Tries are counted once, and only a tick that finds the counter below the maximum is pledged. */
  lemma AdvanceCounts(limits: Limits, w: World, i: CallId, search: Search)
    requires i < |w.calls|
    ensures var after := AdvanceCall(limits, w, i, search);
            && |after.calls| == |w.calls|
            && var call, before := after.calls[i], w.calls[i];
            && after.calls == w.calls[i := call]
            && Tries(after) - after.keys.attempts - Uncounted(call) == Tries(w) - w.keys.attempts - Uncounted(before)
            && (if call.TickArmed? && before.TickUnoffered?
                then Tries(after) == Tries(w) && w.keys.attempts < limits.maxAttempts
                else Tries(after) + Pledged(call) <= Tries(w) + Pledged(before))
  {
    AdvanceMovesOne(limits, w, i, search);
    if InFlight(w.calls[i]) == 0 {
      OtherCallsCount(limits, w, i, search);
    }
  }

  lemma AdvanceKeepsLimited(limits: Limits, ticks: nat, w: World, i: CallId, search: Search, forgotten: nat)
    requires Limited(limits, ticks, w, forgotten) && i < |w.calls|
    requires Flying(AdvanceCall(limits, w, i, search)) <= ticks
    ensures Limited(limits, ticks, AdvanceCall(limits, w, i, search), forgotten)
  {
    var after := AdvanceCall(limits, w, i, search);
    AdvanceCounts(limits, w, i, search);
    FlightCovers(w.calls);
    FlightCovers(after.calls);
    GoCounts(w.calls, i, after.calls[i]);
  }

  lemma ActKeepsLimited(limits: Limits, ticks: nat, w: World, action: Action, forgotten: nat)
    requires Limited(limits, ticks, w, forgotten) && Flying(Act(limits, w, action)) <= ticks
    ensures Limited(limits, ticks, Act(limits, w, action), forgotten + Forgets(w, action))
  {
    match action
    case Begin(call) =>
      SumAppend(w.calls, call, Pledged);
      SumAppend(w.calls, call, Uncounted);
    case Advance(i, search) =>
      if i < |w.calls| { AdvanceKeepsLimited(limits, ticks, w, i, search, forgotten); }
    case CommitFails(i) =>
      if i < |w.calls| { GoCounts(w.calls, i, Lost(1)); }
    case Die(i) =>
      if i < |w.calls| { GoCounts(w.calls, i, Ended); }
    case _ =>
  }

  /**
   * With at most `ticks` ticks in flight, an order is tried at most maxAttempts + ticks − 1 times,
   * not counting as many tries as were wiped from the counter.
   */
  lemma {:induction false} BroadcastsAreBounded(limits: Limits, row: Row, actions: seq<Action>, ticks: nat)
    requires Orderly(limits, row, actions, ticks)
    ensures Limited(limits, ticks, After(limits, row, actions), Forgotten(limits, row, actions))
    ensures Tries(After(limits, row, actions)) <= Cap(limits, ticks) + Forgotten(limits, row, actions)
  {
    FlightCovers(After(limits, row, actions).calls);
    if |actions| > 0 {
      var earlier, last := actions[..|actions| - 1], actions[|actions| - 1];
      BroadcastsAreBounded(limits, row, earlier, ticks);
      ActKeepsLimited(limits, ticks, After(limits, row, earlier), last, Forgotten(limits, row, earlier));
    }
  }

  function Expiries(actions: seq<Action>): nat {
    if |actions| == 0 then 0
    else Expiries(actions[..|actions| - 1]) + if actions[|actions| - 1].AttemptsExpire? then 1 else 0
  }

  /** Calls that died. */
  function Deaths(actions: seq<Action>): nat {
    if |actions| == 0 then 0
    else Deaths(actions[..|actions| - 1]) + if actions[|actions| - 1].Die? then 1 else 0
  }

  /** Each death wipes at most one try from the count, and each expiry at most the cap. */
  lemma {:induction false} ForgottenIsBounded(limits: Limits, row: Row, actions: seq<Action>, ticks: nat)
    requires Orderly(limits, row, actions, ticks)
    ensures Forgotten(limits, row, actions) <= Deaths(actions) + Expiries(actions) * Cap(limits, ticks)
  {
    if |actions| > 0 {
      var earlier := actions[..|actions| - 1];
      ForgottenIsBounded(limits, row, earlier, ticks);
      BroadcastsAreBounded(limits, row, earlier, ticks);
      FlightCovers(After(limits, row, earlier).calls);
      var cap := Cap(limits, ticks);
      assert (Expiries(earlier) + 1) * cap == Expiries(earlier) * cap + cap;
    }
  }

  // ── the bound is reached ──────────────────────────────────────────────────

  const NOTHING_FOUND := Search([], {})

  /** An orderly run that forgets nothing, and where it has led. */
  ghost predicate Leads(limits: Limits, row: Row, ticks: nat, actions: seq<Action>, w: World) {
    Orderly(limits, row, actions, ticks) && w == After(limits, row, actions)
  }

  lemma OneMoreAction(limits: Limits, row: Row, ticks: nat, actions: seq<Action>, w: World, action: Action)
    returns (more: seq<Action>, after: World)
    requires Leads(limits, row, ticks, actions, w) && Flying(Act(limits, w, action)) <= ticks
    ensures after == Act(limits, w, action) && Leads(limits, row, ticks, more, after)
    ensures Forgotten(limits, row, more) == Forgotten(limits, row, actions) + Forgets(w, action)
  {
    more, after := actions + [action], Act(limits, w, action);
    assert more[..|actions|] == actions;
  }

  lemma BeginTick(limits: Limits, row: Row, ticks: nat, actions: seq<Action>, w: World)
    returns (more: seq<Action>, after: World)
    requires Leads(limits, row, ticks, actions, w) && Flying(w) < ticks
    ensures Leads(limits, row, ticks, more, after) && Flying(after) == Flying(w) + 1
    ensures after == w.(calls := w.calls + [TickStart])
    ensures Forgotten(limits, row, more) == Forgotten(limits, row, actions)
  {
    SumAppend(w.calls, TickStart, InFlight);
    more, after := OneMoreAction(limits, row, ticks, actions, w, Begin(TickStart));
  }

  /** One await of a tick whose search finds nobody. */
  lemma AdvanceTick(limits: Limits, row: Row, ticks: nat, actions: seq<Action>, w: World, i: CallId)
    returns (more: seq<Action>, after: World)
    requires Leads(limits, row, ticks, actions, w) && i < |w.calls| && InFlight(w.calls[i]) == 1
    ensures after == AdvanceCall(limits, w, i, NOTHING_FOUND) && |after.calls| == |w.calls|
    ensures Leads(limits, row, ticks, more, after)
    ensures Flying(after) == Flying(w) - 1 + InFlight(after.calls[i])
    ensures Forgotten(limits, row, more) == Forgotten(limits, row, actions)
  {
    AdvanceMovesOne(limits, w, i, NOTHING_FOUND);
    GoCounts(w.calls, i, AdvanceCall(limits, w, i, NOTHING_FOUND).calls[i]);
    more, after := OneMoreAction(limits, row, ticks, actions, w, Advance(i, NOTHING_FOUND));
  }

  lemma StartAdvances(limits: Limits, w: World, i: CallId)
    requires i < |w.calls| && w.calls[i] == TickStart && w.keys.offer.None?
    ensures AdvanceCall(limits, w, i, NOTHING_FOUND) == w.(calls := w.calls[i := TickUnoffered])
  {
  }

  lemma UnofferedAdvances(limits: Limits, w: World, i: CallId)
    requires i < |w.calls| && w.calls[i] == TickUnoffered && w.keys.attempts < limits.maxAttempts
    ensures AdvanceCall(limits, w, i, NOTHING_FOUND) == w.(calls := w.calls[i := TickArmed])
  {
  }

  /** A tick that has seen no offer. */
  lemma SeeNoOffer(limits: Limits, row: Row, ticks: nat, actions: seq<Action>, w: World)
    returns (more: seq<Action>, after: World)
    requires Leads(limits, row, ticks, actions, w) && Flying(w) < ticks && w.keys.offer.None?
    ensures Leads(limits, row, ticks, more, after) && Flying(after) == Flying(w) + 1
    ensures after == w.(calls := w.calls + [TickUnoffered])
    ensures Forgotten(limits, row, more) == Forgotten(limits, row, actions)
  {
    var i := |w.calls|;
    var begun, started := BeginTick(limits, row, ticks, actions, w);
    StartAdvances(limits, started, i);
    more, after := AdvanceTick(limits, row, ticks, begun, started, i);
    assert (w.calls + [TickStart])[i := TickUnoffered] == w.calls + [TickUnoffered];
  }

  /** A tick that has read the counter. */
  lemma Arm(limits: Limits, row: Row, ticks: nat, actions: seq<Action>, w: World)
    returns (more: seq<Action>, after: World)
    requires Leads(limits, row, ticks, actions, w) && Flying(w) < ticks
    requires w.keys.offer.None? && w.keys.attempts < limits.maxAttempts
    ensures Leads(limits, row, ticks, more, after) && Flying(after) == Flying(w) + 1
    ensures after == w.(calls := w.calls + [TickArmed])
    ensures Forgotten(limits, row, more) == Forgotten(limits, row, actions)
  {
    var i := |w.calls|;
    var read, unoffered := SeeNoOffer(limits, row, ticks, actions, w);
    UnofferedAdvances(limits, unoffered, i);
    more, after := AdvanceTick(limits, row, ticks, read, unoffered, i);
    assert (w.calls + [TickUnoffered])[i := TickArmed] == w.calls + [TickArmed];
  }

  /** Its search finds nobody, and it counts the attempt. */
  lemma Spend(limits: Limits, row: Row, ticks: nat, actions: seq<Action>, w: World, i: CallId)
    returns (more: seq<Action>, after: World)
    requires Leads(limits, row, ticks, actions, w) && i < |w.calls| && w.calls[i].TickArmed?
    ensures Leads(limits, row, ticks, more, after) && Flying(after) == Flying(w) - 1
    ensures after == w.(calls := w.calls[i := Ended], fruitless := w.fruitless + 1,
                        keys := w.keys.(attempts := w.keys.attempts + 1))
    ensures Forgotten(limits, row, more) == Forgotten(limits, row, actions)
  {
    var actions1, w1 := AdvanceTick(limits, row, ticks, actions, w, i);
    assert w1.calls == w.calls[i := TickEmpty];
    assert w1 == w.(calls := w.calls[i := TickEmpty], fruitless := w.fruitless + 1);
    more, after := AdvanceTick(limits, row, ticks, actions1, w1, i);
    assert after.calls == w.calls[i := Ended];
  }

  /** `n` ticks one after the other, all in vain. */
  lemma {:induction false} VainTicks(limits: Limits, row: Row, ticks: nat, actions: seq<Action>, w: World, n: nat)
    returns (more: seq<Action>, after: World)
    requires Leads(limits, row, ticks, actions, w) && Flying(w) < ticks
    requires w.keys.offer.None? && w.keys.attempts + n <= limits.maxAttempts
    ensures Leads(limits, row, ticks, more, after) && Flying(after) == Flying(w)
    ensures after.keys == w.keys.(attempts := w.keys.attempts + n) && Tries(after) == Tries(w) + n
    ensures Forgotten(limits, row, more) == Forgotten(limits, row, actions)
    decreases n
  {
    more, after := actions, w;
    if n > 0 {
      more, after := VainTicks(limits, row, ticks, actions, w, n - 1);
      var i := |after.calls|;
      more, after := Arm(limits, row, ticks, more, after);
      more, after := Spend(limits, row, ticks, more, after, i);
    }
  }

  /** Armed call `i` and `n` more: all of them read the counter before any of them counts. */
  lemma {:induction false} Delayed(
      limits: Limits, row: Row, ticks: nat, actions: seq<Action>, w: World, i: CallId, n: nat)
    returns (more: seq<Action>, after: World)
    requires Leads(limits, row, ticks, actions, w) && Flying(w) + n <= ticks
    requires w.keys.offer.None? && w.keys.attempts < limits.maxAttempts
    requires i < |w.calls| && w.calls[i].TickArmed?
    ensures Leads(limits, row, ticks, more, after) && Tries(after) == Tries(w) + n + 1
    ensures Forgotten(limits, row, more) == Forgotten(limits, row, actions)
    ensures |after.calls| >= |w.calls| && forall j :: 0 <= j < |w.calls| && j != i ==> after.calls[j] == w.calls[j]
    decreases n
  {
    more, after := actions, w;
    if n > 0 {
      var next := |w.calls|;
      more, after := Arm(limits, row, ticks, actions, w);
      more, after := Delayed(limits, row, ticks, more, after, next, n - 1);
    }
    more, after := Spend(limits, row, ticks, more, after, i);
  }

  /** For any maximum and any number of ticks in flight, some run makes as many tries as the bound allows. */
  lemma BoundIsReached(limits: Limits, row: Row, ticks: nat) returns (actions: seq<Action>)
    ensures Orderly(limits, row, actions, ticks) && Forgotten(limits, row, actions) == 0
    ensures Tries(After(limits, row, actions)) == Cap(limits, ticks)
  {
    actions := [];
    var w := Fresh(row);
    if Cap(limits, ticks) > 0 {
      actions, w := VainTicks(limits, row, ticks, actions, w, limits.maxAttempts - 1);
      var i := |w.calls|;
      actions, w := Arm(limits, row, ticks, actions, w);
      actions, w := Delayed(limits, row, ticks, actions, w, i, ticks - 1);
    }
  }

  ghost predicate KeepsMaximum(limits: Limits, row: Row, actions: seq<Action>, ticks: nat) {
    Orderly(limits, row, actions, ticks) && Forgotten(limits, row, actions) == 0 ==>
      Tries(After(limits, row, actions)) <= limits.maxAttempts
  }

  /** The maximum is kept by every run that forgets nothing exactly when no two ticks are ever in flight. */
  lemma MaximumKeptExactly(limits: Limits, row: Row, ticks: nat)
    requires limits.maxAttempts > 0
    ensures (forall actions :: KeepsMaximum(limits, row, actions, ticks)) <==> ticks <= 1
  {
    if ticks <= 1 {
      forall actions ensures KeepsMaximum(limits, row, actions, ticks) {
        if Orderly(limits, row, actions, ticks) {
          BroadcastsAreBounded(limits, row, actions, ticks);
        }
      }
    } else {
      var actions := BoundIsReached(limits, row, ticks);
      assert !KeepsMaximum(limits, row, actions, ticks);
    }
  }

  /** A counter that expires lets even a single tick at a time try without end. */
  lemma {:induction false} ExpiryLiftsTheBound(limits: Limits, row: Row, n: nat)
    returns (actions: seq<Action>, w: World)
    requires limits.maxAttempts > 0
    ensures Leads(limits, row, 1, actions, w) && Flying(w) == 0 && w.keys.offer.None? && w.keys.attempts == 0
    ensures Tries(w) == n
  {
    actions, w := [], Fresh(row);
    if n > 0 {
      actions, w := ExpiryLiftsTheBound(limits, row, n - 1);
      actions, w := VainTicks(limits, row, 1, actions, w, 1);
      actions, w := OneMoreAction(limits, row, 1, actions, w, AttemptsExpire);
    }
  }
}
