/**
 * The offer/claim protocol of one order, cut at every await: any number of ticks, claims, admin
 * assignments and rejections interleave, keys expire at any time, and calls may die anywhere.
 */
module Assignment {
  import opened Domain
  import opened Sums
  import opened Codec

  /** `maxAttempts` broadcasts per order, `candidates` agents per broadcast. */
  datatype Limits = Limits(maxAttempts: nat, candidates: nat)

  datatype Row = Row(createdAt: nat, status: OrderStatus, agent: Option<AgentId>)

  function Taken(row: Row, agent: AgentId): Row { row.(status := OrderStatus.Assigned, agent := Some(agent)) }

  /** The order's row, and its three keys in Redis. */
  datatype Keys = Keys(row: Row, offer: Option<string>, claim: Option<AgentId>, attempts: nat)

  /** A geo result, nearest first, and the agents of it that were seen online and not busy. */
  datatype Search = Search(found: seq<AgentId>, eligible: set<AgentId>)

  /** The first `k` eligible agents. */
  function FirstEligible(found: seq<AgentId>, eligible: set<AgentId>, k: nat): (r: seq<AgentId>)
    ensures |r| <= k
    ensures forall a :: a in r ==> a in found && a in eligible
  {
    if k == 0 || |found| == 0 then []
    else if found[0] in eligible then [found[0]] + FirstEligible(found[1..], eligible, k - 1)
    else FirstEligible(found[1..], eligible, k)
  }

  function Candidates(limits: Limits, search: Search): seq<AgentId> {
    FirstEligible(search.found, search.eligible, limits.candidates)
  }

  /** How many of the first `n` agents found are eligible. */
  function EligibleAmong(found: seq<AgentId>, eligible: set<AgentId>, n: nat): nat
    requires n <= |found|
  {
    if n == 0 then 0 else EligibleAmong(found, eligible, n - 1) + (if found[n - 1] in eligible then 1 else 0)
  }

  lemma {:induction false} EligibleShift(found: seq<AgentId>, eligible: set<AgentId>, n: nat)
    requires n < |found|
    ensures EligibleAmong(found, eligible, n + 1)
         == (if found[0] in eligible then 1 else 0) + EligibleAmong(found[1..], eligible, n)
  {
    if n > 0 {
      EligibleShift(found, eligible, n - 1);
    }
  }

  /** An agent found in place `i` is a candidate exactly when it is eligible and fewer than `k` before it are. */
  lemma {:induction false} CandidateExactly(found: seq<AgentId>, eligible: set<AgentId>, k: nat, i: nat)
    requires i < |found| && forall p, q :: 0 <= p < q < |found| ==> found[p] != found[q]
    ensures found[i] in FirstEligible(found, eligible, k)
            <==> found[i] in eligible && EligibleAmong(found, eligible, i) < k
  {
    if k > 0 {
      if i == 0 {
        assert found[0] !in found[1..];
      } else {
        EligibleShift(found, eligible, i - 1);
        CandidateExactly(found[1..], eligible, if found[0] in eligible then k - 1 else k, i - 1);
        assert found[i] == found[1..][i - 1];
      }
    }
  }

  // ── calls ─────────────────────────────────────────────────────────────────

  type CallId = nat

  /** Where a call stands: what it is about to do next, and what it remembers. */
  datatype Call =
    | TickStart                                     // read the offer
    | TickUnoffered                                 // read the attempts
    | TickArmed                                     // search
    | TickFound(search: Search)                     // set the offer, if absent
    | TickEmpty                                     // count the attempt
    | TickOffered                                   // count the attempt
    | ClaimStart(agent: AgentId)                    // read the offer
    | ClaimListed(agent: AgentId)                   // set the claim, if absent
    | AdminStart(agent: AgentId)                    // set the claim, if absent
    | Locked(agent: AgentId, listed: bool)          // update the row, if ready and unassigned
    | Updated(agent: AgentId, listed: bool)         // commit
    | Lost(deletes: nat)                            // delete the claim, whosever it is
    | Won(agent: AgentId)                           // delete the offer
    | RejectStart(agent: AgentId)                   // read the offer
    | RejectRead(remaining: seq<AgentId>)           // delete the offer, or read its TTL
    | RejectRestore(remaining: seq<AgentId>)        // set the offer, if absent
    | Ended

  predicate Initial(call: Call) {
    call.TickStart? || call.ClaimStart? || call.AdminStart? || call.RejectStart?
  }

  /** A committed claim; `listed` tells claims of agents from those of admins. */
  datatype Win = Win(call: CallId, agent: AgentId, listed: bool)

  /**
   * The order and its keys, the holder of the row lock, every call ever made, and what happened
   * so far: broadcasts, offer texts stored, searches in vain and committed claims.
   */
  datatype World = World(
    keys: Keys,
    holder: Option<CallId>,
    calls: seq<Call>,
    broadcasts: seq<Search>,
    stored: seq<string>,
    fruitless: nat,
    wins: seq<Win>)

  datatype Action =
    | Begin(call: Call)
    | Advance(i: CallId, search: Search)   // the next await of call i; `search` is what it may find
    | CommitFails(i: CallId)
    | Die(i: CallId)                       // the call throws or its process stops
    | OfferExpires
    | ClaimExpires
    | AttemptsExpire
    | WriteRow(status: OrderStatus, agent: Option<AgentId>)  // any other request; no code clears the agent

  function Go(w: World, i: CallId, call: Call): World
    requires i < |w.calls|
  {
    w.(calls := w.calls[i := call])
  }

  function Offered(keys: Keys): seq<AgentId> { if keys.offer.Some? then SplitIds(keys.offer.value) else [] }

  function Without(ids: seq<AgentId>, agent: AgentId): (r: seq<AgentId>)
    ensures forall a :: a in r ==> a in ids
  {
    if |ids| == 0 then [] else (if ids[0] == agent then [] else [ids[0]]) + Without(ids[1..], agent)
  }

  function Claimable(row: Row): bool { row.status.Ready? && row.agent.None? }

  function SetOffer(w: World, text: string): World {
    w.(keys := w.keys.(offer := Some(text)), stored := w.stored + [text])
  }

  function AdvanceCall(limits: Limits, w: World, i: CallId, search: Search): World
    requires i < |w.calls|
  {
    match w.calls[i]
    case TickStart => Go(w, i, if w.keys.offer.Some? then Ended else TickUnoffered)
    case TickUnoffered => Go(w, i, if w.keys.attempts >= limits.maxAttempts then Ended else TickArmed)
    case TickArmed =>
      if Candidates(limits, search) == [] then Go(w, i, TickEmpty).(fruitless := w.fruitless + 1)
      else Go(w, i, TickFound(search))
    case TickFound(s) =>
      if w.keys.offer.Some? then Go(w, i, Ended)
      else
        SetOffer(Go(w, i, TickOffered), JoinIds(Candidates(limits, s))).(broadcasts := w.broadcasts + [s])
    case TickEmpty => Go(w, i, Ended).(keys := w.keys.(attempts := w.keys.attempts + 1))
    case TickOffered => Go(w, i, Ended).(keys := w.keys.(attempts := w.keys.attempts + 1))
    case ClaimStart(agent) => Go(w, i, if agent in Offered(w.keys) then ClaimListed(agent) else Ended)
    case ClaimListed(agent) =>
      if w.keys.claim.Some? then Go(w, i, Ended)
      else Go(w, i, Locked(agent, true)).(keys := w.keys.(claim := Some(agent)))
    case AdminStart(agent) =>
      if w.keys.claim.Some? then Go(w, i, Ended)
      else Go(w, i, Locked(agent, false)).(keys := w.keys.(claim := Some(agent)))
    case Locked(agent, listed) =>
      if w.holder.Some? then w  // waits for the row lock
      else if Claimable(w.keys.row) then Go(w, i, Updated(agent, listed)).(holder := Some(i))
      else Go(w, i, Lost(2))
    case Updated(agent, listed) =>
      Go(w, i, Won(agent)).(
        keys := w.keys.(row := Taken(w.keys.row, agent)),
        holder := None,
        wins := w.wins + [Win(i, agent, listed)])
    case Lost(deletes) =>
      Go(w, i, if deletes > 1 then Lost(deletes - 1) else Ended).(keys := w.keys.(claim := None))
    case Won(_) => Go(w, i, Ended).(keys := w.keys.(offer := None))
    case RejectStart(agent) =>
      Go(w, i, if agent in Offered(w.keys) then RejectRead(Without(Offered(w.keys), agent)) else Ended)
    case RejectRead(remaining) =>
      if remaining == [] then Go(w, i, Ended).(keys := w.keys.(offer := None)) else Go(w, i, RejectRestore(remaining))
    case RejectRestore(remaining) =>
      if w.keys.offer.Some? then Go(w, i, Ended) else SetOffer(Go(w, i, Ended), JoinIds(remaining))
    case Ended => w
  }

  function Act(limits: Limits, w: World, action: Action): World {
    match action
    case Begin(call) => if Initial(call) then w.(calls := w.calls + [call]) else w
    case Advance(i, search) => if i < |w.calls| then AdvanceCall(limits, w, i, search) else w
    case CommitFails(i) =>
      if i < |w.calls| && w.calls[i].Updated? then Go(w, i, Lost(1)).(holder := None) else w
    case Die(i) =>
      if i < |w.calls| then Go(w, i, Ended).(holder := if w.holder == Some(i) then None else w.holder) else w
    case OfferExpires => w.(keys := w.keys.(offer := None))
    case ClaimExpires => w.(keys := w.keys.(claim := None))
    case AttemptsExpire => w.(keys := w.keys.(attempts := 0))
    case WriteRow(status, agent) =>
      if w.holder.Some? then w
      else
        var row := w.keys.row.(status := status, agent := if agent.Some? then agent else w.keys.row.agent);
        w.(keys := w.keys.(row := row))
  }

  /** An order that has just become known to the protocol. */
  function Fresh(row: Row): World { World(Keys(row, None, None, 0), None, [], [], [], 0, []) }

  function After(limits: Limits, row: Row, actions: seq<Action>): World {
    if |actions| == 0 then Fresh(row)
    else Act(limits, After(limits, row, actions[..|actions| - 1]), actions[|actions| - 1])
  }

  // ── one winner ────────────────────────────────────────────────────────────

  ghost predicate Exclusive(w: World) {
    && |w.wins| <= 1
    && (|w.wins| > 0 ==> w.keys.row.agent.Some?)
    && (w.holder.Some? ==>
          && w.holder.value < |w.calls| && w.calls[w.holder.value].Updated?
          && Claimable(w.keys.row) && w.wins == [])
    && (forall i :: 0 <= i < |w.calls| && w.calls[i].Updated? ==> w.holder == Some(i))
  }

  /** A call that neither gains nor leaves the row lock. */
  lemma GoKeepsExclusive(w: World, i: CallId, call: Call, after: World)
    requires Exclusive(w) && i < |w.calls| && !w.calls[i].Updated? && !call.Updated?
    requires after.calls == w.calls[i := call] && after.holder == w.holder
    requires after.keys.row == w.keys.row && after.wins == w.wins
    ensures Exclusive(after)
  {
  }

  lemma LockKeepsExclusive(limits: Limits, w: World, i: CallId, search: Search)
    requires Exclusive(w) && i < |w.calls| && w.calls[i].Locked?
    ensures Exclusive(AdvanceCall(limits, w, i, search))
  {
  }

  lemma CommitKeepsExclusive(limits: Limits, w: World, i: CallId, search: Search)
    requires Exclusive(w) && i < |w.calls| && w.calls[i].Updated?
    ensures Exclusive(AdvanceCall(limits, w, i, search))
  {
  }

  lemma OthersLeaveTheRow(limits: Limits, w: World, i: CallId, search: Search)
    requires i < |w.calls| && !w.calls[i].Locked? && !w.calls[i].Updated?
    ensures var after := AdvanceCall(limits, w, i, search);
            && |after.calls| == |w.calls| && after.calls == w.calls[i := after.calls[i]] && !after.calls[i].Updated?
            && after.keys.row == w.keys.row && after.holder == w.holder && after.wins == w.wins
  {
    if w.calls[i].Ended? {
      assert w.calls[i := w.calls[i]] == w.calls;
    }
  }

  lemma AdvanceKeepsExclusive(limits: Limits, w: World, i: CallId, search: Search)
    requires Exclusive(w) && i < |w.calls|
    ensures Exclusive(AdvanceCall(limits, w, i, search))
  {
    if w.calls[i].Locked? {
      LockKeepsExclusive(limits, w, i, search);
    } else if w.calls[i].Updated? {
      CommitKeepsExclusive(limits, w, i, search);
    } else {
      var after := AdvanceCall(limits, w, i, search);
      OthersLeaveTheRow(limits, w, i, search);
      GoKeepsExclusive(w, i, after.calls[i], after);
    }
  }

  lemma ActKeepsExclusive(limits: Limits, w: World, action: Action)
    requires Exclusive(w)
    ensures Exclusive(Act(limits, w, action))
  {
    if action.Advance? && action.i < |w.calls| {
      AdvanceKeepsExclusive(limits, w, action.i, action.search);
    }
  }

  /**
   * Of all claims and admin assignments ever made for an order at most one commits, however they
   * interleave, whatever expires, and even if the order is made ready again.
   */
  lemma {:induction false} OneWinner(limits: Limits, row: Row, actions: seq<Action>)
    ensures Exclusive(After(limits, row, actions))
    ensures |After(limits, row, actions).wins| <= 1
  {
    if |actions| > 0 {
      OneWinner(limits, row, actions[..|actions| - 1]);
      ActKeepsExclusive(limits, After(limits, row, actions[..|actions| - 1]), actions[|actions| - 1]);
    }
  }

  // ── where offers come from ────────────────────────────────────────────────

  predicate Covers(limits: Limits, search: Search, ids: seq<AgentId>) {
    forall a :: a in ids ==> a in Candidates(limits, search)
  }

  /** All the agents were candidates of one broadcast. */
  ghost predicate Broadcasted(limits: Limits, broadcasts: seq<Search>, ids: seq<AgentId>) {
    exists b :: 0 <= b < |broadcasts| && Covers(limits, broadcasts[b], ids)
  }

  ghost predicate CallProven(limits: Limits, broadcasts: seq<Search>, call: Call) {
    match call
    case ClaimListed(agent) => Broadcasted(limits, broadcasts, [agent])
    case Locked(agent, listed) => listed ==> Broadcasted(limits, broadcasts, [agent])
    case Updated(agent, listed) => listed ==> Broadcasted(limits, broadcasts, [agent])
    case RejectRead(remaining) => Broadcasted(limits, broadcasts, remaining)
    case RejectRestore(remaining) => Broadcasted(limits, broadcasts, remaining)
    case _ => true
  }

  ghost predicate Proven(limits: Limits, w: World) {
    && (w.keys.offer.Some? ==> Broadcasted(limits, w.broadcasts, SplitIds(w.keys.offer.value)))
    && (forall t :: 0 <= t < |w.stored| ==> Broadcasted(limits, w.broadcasts, SplitIds(w.stored[t])))
    && (forall i :: 0 <= i < |w.calls| ==> CallProven(limits, w.broadcasts, w.calls[i]))
    && (forall n :: 0 <= n < |w.wins| && w.wins[n].listed ==> Broadcasted(limits, w.broadcasts, [w.wins[n].agent]))
  }

  lemma BroadcastedPart(limits: Limits, broadcasts: seq<Search>, ids: seq<AgentId>, part: seq<AgentId>)
    requires Broadcasted(limits, broadcasts, ids) && forall a :: a in part ==> a in ids
    ensures Broadcasted(limits, broadcasts, part)
  {
    var b :| 0 <= b < |broadcasts| && Covers(limits, broadcasts[b], ids);
    assert Covers(limits, broadcasts[b], part);
  }

  lemma BroadcastedLater(limits: Limits, broadcasts: seq<Search>, more: seq<Search>, ids: seq<AgentId>)
    requires Broadcasted(limits, broadcasts, ids)
    ensures Broadcasted(limits, broadcasts + more, ids)
  {
    var b :| 0 <= b < |broadcasts| && Covers(limits, broadcasts[b], ids);
    assert (broadcasts + more)[b] == broadcasts[b];
  }

  /** A new broadcast: everything proven stays proven, and so is the new offer. */
  lemma BroadcastProven(limits: Limits, w: World, i: CallId)
    requires Proven(limits, w) && i < |w.calls| && w.calls[i].TickFound? && w.keys.offer.None?
    ensures Proven(limits, AdvanceCall(limits, w, i, w.calls[i].search))
  {
    var s := w.calls[i].search;
    var after := AdvanceCall(limits, w, i, s);
    var ids := Candidates(limits, s);
    IdsRoundTrip(ids);
    assert Covers(limits, after.broadcasts[|w.broadcasts|], ids);
    forall t | 0 <= t < |after.stored| ensures Broadcasted(limits, after.broadcasts, SplitIds(after.stored[t])) {
      if t < |w.stored| {
        BroadcastedLater(limits, w.broadcasts, [s], SplitIds(w.stored[t]));
      }
    }
    forall j | 0 <= j < |after.calls| ensures CallProven(limits, after.broadcasts, after.calls[j]) {
      if j != i {
        assert CallProven(limits, w.broadcasts, w.calls[j]);
        match w.calls[j]
        case ClaimListed(agent) => BroadcastedLater(limits, w.broadcasts, [s], [agent]);
        case Locked(agent, listed) => if listed { BroadcastedLater(limits, w.broadcasts, [s], [agent]); }
        case Updated(agent, listed) => if listed { BroadcastedLater(limits, w.broadcasts, [s], [agent]); }
        case RejectRead(remaining) => BroadcastedLater(limits, w.broadcasts, [s], remaining);
        case RejectRestore(remaining) => BroadcastedLater(limits, w.broadcasts, [s], remaining);
        case _ =>
      }
    }
    forall n | 0 <= n < |after.wins| && after.wins[n].listed
      ensures Broadcasted(limits, after.broadcasts, [after.wins[n].agent])
    {
      BroadcastedLater(limits, w.broadcasts, [s], [w.wins[n].agent]);
    }
  }

  /** A step of one call that leaves the offers alone. */
  lemma GoProven(limits: Limits, w: World, i: CallId, call: Call, after: World)
    requires Proven(limits, w) && i < |w.calls| && CallProven(limits, w.broadcasts, call)
    requires after.calls == w.calls[i := call] && after.broadcasts == w.broadcasts && after.stored == w.stored
    requires after.keys.offer == w.keys.offer || after.keys.offer.None?
    requires after.wins == w.wins
    ensures Proven(limits, after)
  {
  }

  lemma RestoreProven(limits: Limits, w: World, i: CallId, search: Search)
    requires Proven(limits, w) && i < |w.calls| && w.calls[i].RejectRestore?
    ensures Proven(limits, AdvanceCall(limits, w, i, search))
  {
    var ids := w.calls[i].remaining;
    var after := AdvanceCall(limits, w, i, search);
    assert CallProven(limits, w.broadcasts, w.calls[i]);
    if w.keys.offer.Some? {
      GoProven(limits, w, i, Ended, after);
    } else {
      var gone := Go(w, i, Ended);
      GoProven(limits, w, i, Ended, gone);
      StoreProven(limits, gone, ids);
      assert after == SetOffer(gone, JoinIds(ids));
    }
  }

  /** An offer of agents that one broadcast listed may be stored. */
  lemma StoreProven(limits: Limits, w: World, ids: seq<AgentId>)
    requires Proven(limits, w) && Broadcasted(limits, w.broadcasts, ids)
    ensures Proven(limits, SetOffer(w, JoinIds(ids)))
  {
    var after := SetOffer(w, JoinIds(ids));
    IdsRoundTrip(ids);
    forall t | 0 <= t < |after.stored| ensures Broadcasted(limits, w.broadcasts, SplitIds(after.stored[t])) {
      if t < |w.stored| {
        assert after.stored[t] == w.stored[t];
      } else {
        assert after.stored[t] == JoinIds(ids);
      }
    }
  }

  lemma CommitProven(limits: Limits, w: World, i: CallId, search: Search)
    requires Proven(limits, w) && i < |w.calls| && w.calls[i].Updated?
    ensures Proven(limits, AdvanceCall(limits, w, i, search))
  {
    assert CallProven(limits, w.broadcasts, w.calls[i]);
  }

  lemma AdvanceKeepsProven(limits: Limits, w: World, i: CallId, search: Search)
    requires Proven(limits, w) && i < |w.calls|
    ensures Proven(limits, AdvanceCall(limits, w, i, search))
  {
    var before := w.calls[i];
    assert CallProven(limits, w.broadcasts, before);
    if before.TickFound? && w.keys.offer.None? {
      BroadcastProven(limits, w, i);
    } else if before.RejectRestore? {
      RestoreProven(limits, w, i, search);
    } else if before.Updated? {
      CommitProven(limits, w, i, search);
    } else {
      if before.ClaimStart? && before.agent in Offered(w.keys) {
        BroadcastedPart(limits, w.broadcasts, Offered(w.keys), [before.agent]);
      } else if before.RejectStart? && before.agent in Offered(w.keys) {
        BroadcastedPart(limits, w.broadcasts, Offered(w.keys), Without(Offered(w.keys), before.agent));
      }
      var after := AdvanceCall(limits, w, i, search);
      if after != w {
        GoProven(limits, w, i, after.calls[i], after);
      }
    }
  }

  lemma ActKeepsProven(limits: Limits, w: World, action: Action)
    requires Proven(limits, w)
    ensures Proven(limits, Act(limits, w, action))
  {
    var after := Act(limits, w, action);
    match action
    case Advance(i, search) => if i < |w.calls| { AdvanceKeepsProven(limits, w, i, search); }
    case CommitFails(i) => if after != w { GoProven(limits, w, i, Lost(1), after); }
    case Die(i) => if i < |w.calls| { GoProven(limits, w, i, Ended, after); }
    case _ =>
  }

  /**
   * Every offer text ever stored, put back by a rejection or not, lists candidates of one
   * broadcast only, and so every agent that won by a claim had been offered the order.
   */
  lemma {:induction false} OffersAreProven(limits: Limits, row: Row, actions: seq<Action>)
    ensures Proven(limits, After(limits, row, actions))
  {
    if |actions| > 0 {
      OffersAreProven(limits, row, actions[..|actions| - 1]);
      ActKeepsProven(limits, After(limits, row, actions[..|actions| - 1]), actions[|actions| - 1]);
    }
  }
}
