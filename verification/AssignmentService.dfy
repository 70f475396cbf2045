/** The assignment service without interruptions, and that its small steps add up to it. */
module AssignmentService {
  import opened Domain
  import opened Codec
  import opened Assignment
  import opened Oldest

  datatype TickResult = TickOfferMade | TickSkipped | TickExhausted | TickNoCandidates | TickFailed

  /** Where a try throws, if it does: before it has written, between the offer and the count, or after both. */
  datatype Fault = NoFault | BeforeWriting | BeforeCounting | AfterCounting

  datatype Answer = Done | OfferExpired | NotInCandidateList | OrderAlreadyClaimed | OrderNotInReadyState

  // ── one undisturbed call on the keys of its order ─────────────────────────

  function Counted(keys: Keys, fault: Fault): Keys {
    if fault.BeforeCounting? then keys else keys.(attempts := keys.attempts + 1)
  }

  function TryAssignAlone(limits: Limits, keys: Keys, search: Search, fault: Fault): (Keys, TickResult) {
    var candidates := Candidates(limits, search);
    if fault.BeforeWriting? then (keys, TickFailed)
    else if keys.offer.Some? then (keys, TickSkipped)
    else if keys.attempts >= limits.maxAttempts then (keys, TickExhausted)
    else if candidates == [] then (Counted(keys, fault), if fault.NoFault? then TickNoCandidates else TickFailed)
    else
      (Counted(keys.(offer := Some(JoinIds(candidates))), fault), if fault.NoFault? then TickOfferMade else TickFailed)
  }

  function AdminAssignAlone(keys: Keys, agent: AgentId): (Keys, Answer) {
    if keys.claim.Some? then (keys, OrderAlreadyClaimed)
    else if !Claimable(keys.row) then (keys, OrderNotInReadyState)
    else (keys.(row := Taken(keys.row, agent), claim := Some(agent), offer := None), Done)
  }

  function ClaimAlone(keys: Keys, agent: AgentId): (Keys, Answer) {
    if keys.offer.None? then (keys, OfferExpired)
    else if agent !in SplitIds(keys.offer.value) then (keys, NotInCandidateList)
    else AdminAssignAlone(keys, agent)
  }

  function RejectAlone(keys: Keys, agent: AgentId): (Keys, Answer) {
    if keys.offer.None? then (keys, OfferExpired)
    else if agent !in SplitIds(keys.offer.value) then (keys, NotInCandidateList)
    else if Without(SplitIds(keys.offer.value), agent) == [] then (keys.(offer := None), Done)
    else (keys, Done)
  }

  lemma {:induction false} WithoutNothing(ids: seq<AgentId>, agent: AgentId)
    ensures forall a :: a in Without(ids, agent) <==> a in ids && a != agent
    ensures Without(ids, agent) == [] <==> forall a :: a in ids ==> a == agent
  {
    if |ids| > 0 {
      WithoutNothing(ids[1..], agent);
      assert ids == [ids[0]] + ids[1..];
      assert Without(ids, agent) != [] ==> Without(ids, agent)[0] in Without(ids, agent);
    }
  }

  /** An undisturbed rejection takes the agent off the offer exactly when nobody else was on it. */
  lemma RejectTrimsExactly(keys: Keys, agent: AgentId)
    requires agent in Offered(keys)
    ensures var after := RejectAlone(keys, agent).0;
            && (agent !in Offered(after) <==> forall a :: a in Offered(keys) ==> a == agent)
            && (after == keys || after == keys.(offer := None))
  {
    WithoutNothing(Offered(keys), agent);
  }

  // ── what the calls promise ────────────────────────────────────────────────

  /**
   * A try offers the order to its candidates, and the offer reads back as exactly them, if it has no
   * offer, fewer tries than the maximum and somebody to offer to. It counts a try exactly when it
   * offers or searches in vain, and never touches row or claim.
   */
  lemma TriedExactly(limits: Limits, keys: Keys, search: Search)
    ensures var (after, result) := TryAssignAlone(limits, keys, search, NoFault);
            var candidates := Candidates(limits, search);
            && result == (if keys.offer.Some? then TickSkipped
                          else if keys.attempts >= limits.maxAttempts then TickExhausted
                          else if candidates == [] then TickNoCandidates
                          else TickOfferMade)
            && after.row == keys.row && after.claim == keys.claim
            && after.attempts == keys.attempts + (if result == TickOfferMade || result == TickNoCandidates then 1 else 0)
            && (result == TickOfferMade ==> after.offer.Some? && SplitIds(after.offer.value) == candidates)
            && (result != TickOfferMade ==> after.offer == keys.offer)
  {
    IdsRoundTrip(Candidates(limits, search));
  }

  /** A try that throws has written nothing, the offer without the count, or both. */
  lemma ThrownExactly(limits: Limits, keys: Keys, search: Search, fault: Fault)
    requires fault != NoFault
    ensures var (after, result) := TryAssignAlone(limits, keys, search, fault);
            var (meant, planned) := TryAssignAlone(limits, keys, search, NoFault);
            && (fault == BeforeWriting ==> after == keys && result == TickFailed)
            && (fault != BeforeWriting && (planned == TickSkipped || planned == TickExhausted) ==>
                  after == keys && result == planned)
            && (fault == BeforeCounting && (planned == TickOfferMade || planned == TickNoCandidates) ==>
                  after == meant.(attempts := keys.attempts) && result == TickFailed)
            && (fault == AfterCounting && (planned == TickOfferMade || planned == TickNoCandidates) ==>
                  after == meant && result == TickFailed)
  {
  }

  /** The agent is on the live offer. */
  predicate OnOffer(keys: Keys, agent: AgentId) { keys.offer.Some? && agent in SplitIds(keys.offer.value) }

  /** An admin takes an order that is not locked, ready and without an agent; the lock stays and the offer goes. */
  lemma AdminAssignedExactly(keys: Keys, agent: AgentId)
    ensures var (after, answer) := AdminAssignAlone(keys, agent);
            && answer == (if keys.claim.Some? then OrderAlreadyClaimed
                          else if keys.row.status != OrderStatus.Ready || keys.row.agent.Some? then OrderNotInReadyState
                          else Done)
            && (answer != Done ==> after == keys)
            && (answer == Done ==>
                  && after.row.status == OrderStatus.Assigned && after.row.agent == Some(agent)
                  && after.row.createdAt == keys.row.createdAt
                  && after.claim == Some(agent) && after.offer == None && after.attempts == keys.attempts)
  {
  }

  /** An agent does the same if it is on the live offer. */
  lemma ClaimedExactly(keys: Keys, agent: AgentId)
    ensures ClaimAlone(keys, agent) ==
            if keys.offer == None then (keys, OfferExpired)
            else if !OnOffer(keys, agent) then (keys, NotInCandidateList)
            else AdminAssignAlone(keys, agent)
  {
  }

  /** A rejection is answered like a claim's first half, and drops the offer only for the last agent on it. */
  lemma RejectedExactly(keys: Keys, agent: AgentId)
    ensures var (after, answer) := RejectAlone(keys, agent);
            && answer == (if keys.offer == None then OfferExpired
                          else if !OnOffer(keys, agent) then NotInCandidateList
                          else Done)
            && after == if OnOffer(keys, agent) && (forall a :: a in SplitIds(keys.offer.value) ==> a == agent)
                        then keys.(offer := None) else keys
  {
    if OnOffer(keys, agent) {
      var ids := SplitIds(keys.offer.value);
      WithoutNothing(ids, agent);
      assert Without(ids, agent) == [] <==> forall a :: a in ids ==> a == agent;
    }
  }

  /** Whoever gets the order, nobody gets it after that, until its row is written anew and the lock is gone. */
  lemma TakenIsTaken(keys: Keys, agent: AgentId, other: AgentId)
    requires AdminAssignAlone(keys, agent).1 == Done || ClaimAlone(keys, agent).1 == Done
    ensures var after := AdminAssignAlone(keys, agent).0;
            && AdminAssignAlone(after, other) == (after, OrderAlreadyClaimed)
            && ClaimAlone(after, other) == (after, OfferExpired)
            && AdminAssignAlone(after.(claim := None), other) == (after.(claim := None), OrderNotInReadyState)
  {
  }

  // ── the small steps add up ────────────────────────────────────────────────

  /** Call `i` makes `n` awaits in a row. */
  function Alone(limits: Limits, w: World, i: CallId, search: Search, n: nat): (after: World)
    requires i < |w.calls|
    ensures |after.calls| == |w.calls|
    decreases n
  {
    if n == 0 then w
    else
      var next := AdvanceCall(limits, w, i, search);
      assert |next.calls| == |w.calls|;
      Alone(limits, next, i, search, n - 1)
  }

  lemma {:induction false} EndedStays(limits: Limits, w: World, i: CallId, search: Search, n: nat)
    requires i < |w.calls| && w.calls[i].Ended?
    ensures Alone(limits, w, i, search, n) == w
    decreases n
  {
    if n > 0 {
      EndedStays(limits, w, i, search, n - 1);
    }
  }

  lemma OneAwait(limits: Limits, w: World, i: CallId, search: Search, n: nat)
    requires i < |w.calls| && n > 0
    ensures |AdvanceCall(limits, w, i, search).calls| == |w.calls|
    ensures Alone(limits, w, i, search, n) == Alone(limits, AdvanceCall(limits, w, i, search), i, search, n - 1)
  {
  }

  /** Left alone, a tick does what `TryAssignAlone` says. */
  lemma TickAddsUp(limits: Limits, w: World, search: Search, n: nat)
    requires n >= 5
    ensures var i := |w.calls|;
            var after := Alone(limits, w.(calls := w.calls + [TickStart]), i, search, n);
            after.calls[i].Ended? && after.keys == TryAssignAlone(limits, w.keys, search, NoFault).0
  {
    var i := |w.calls|;
    var w0 := w.(calls := w.calls + [TickStart]);
    OneAwait(limits, w0, i, search, n);
    var w1 := AdvanceCall(limits, w0, i, search);
    if w.keys.offer.Some? {
      EndedStays(limits, w1, i, search, n - 1);
    } else {
      TickUnofferedAddsUp(limits, w1, i, search, n - 1);
    }
  }

  lemma TickUnofferedAddsUp(limits: Limits, w: World, i: CallId, search: Search, n: nat)
    requires i < |w.calls| && w.calls[i].TickUnoffered? && w.keys.offer.None? && n >= 4
    ensures var after := Alone(limits, w, i, search, n);
            after.calls[i].Ended? && after.keys == TryAssignAlone(limits, w.keys, search, NoFault).0
  {
    OneAwait(limits, w, i, search, n);
    var w1 := AdvanceCall(limits, w, i, search);
    if w.keys.attempts >= limits.maxAttempts {
      EndedStays(limits, w1, i, search, n - 1);
    } else {
      OneAwait(limits, w1, i, search, n - 1);
      var w2 := AdvanceCall(limits, w1, i, search);
      OneAwait(limits, w2, i, search, n - 2);
      var w3 := AdvanceCall(limits, w2, i, search);
      if Candidates(limits, search) == [] {
        EndedStays(limits, w3, i, search, n - 3);
      } else {
        OneAwait(limits, w3, i, search, n - 3);
        EndedStays(limits, AdvanceCall(limits, w3, i, search), i, search, n - 4);
      }
    }
  }

  /** From the claim key on, claims and admin assignments do the same. */
  lemma LockedAddsUp(limits: Limits, w: World, i: CallId, search: Search, n: nat)
    requires i < |w.calls| && w.calls[i].Locked? && w.holder.None? && n >= 3
    ensures var after := Alone(limits, w, i, search, n);
            var (agent, listed) := (w.calls[i].agent, w.calls[i].listed);
            && after.calls[i].Ended? && after.holder.None?
            && if Claimable(w.keys.row)
               then after.keys == w.keys.(row := Taken(w.keys.row, agent), offer := None)
                 && after.wins == w.wins + [Win(i, agent, listed)]
               else after.keys == w.keys.(claim := None) && after.wins == w.wins
  {
    OneAwait(limits, w, i, search, n);
    var w1 := AdvanceCall(limits, w, i, search);
    OneAwait(limits, w1, i, search, n - 1);
    var w2 := AdvanceCall(limits, w1, i, search);
    OneAwait(limits, w2, i, search, n - 2);
    EndedStays(limits, AdvanceCall(limits, w2, i, search), i, search, n - 3);
  }

  lemma AdminAssignAddsUp(limits: Limits, w: World, agent: AgentId, search: Search, n: nat)
    requires w.holder.None? && n >= 4
    ensures var i := |w.calls|;
            var after := Alone(limits, w.(calls := w.calls + [AdminStart(agent)]), i, search, n);
            var (keys, answer) := AdminAssignAlone(w.keys, agent);
            && after.calls[i].Ended? && after.keys == keys && after.holder.None?
            && after.wins == if answer.Done? then w.wins + [Win(i, agent, false)] else w.wins
  {
    var i := |w.calls|;
    var w0 := w.(calls := w.calls + [AdminStart(agent)]);
    OneAwait(limits, w0, i, search, n);
    var w1 := AdvanceCall(limits, w0, i, search);
    if w.keys.claim.Some? {
      EndedStays(limits, w1, i, search, n - 1);
    } else {
      LockedAddsUp(limits, w1, i, search, n - 1);
    }
  }

  lemma ClaimAddsUp(limits: Limits, w: World, agent: AgentId, search: Search, n: nat)
    requires w.holder.None? && n >= 5
    ensures var i := |w.calls|;
            var after := Alone(limits, w.(calls := w.calls + [ClaimStart(agent)]), i, search, n);
            var (keys, answer) := ClaimAlone(w.keys, agent);
            && after.calls[i].Ended? && after.keys == keys && after.holder.None?
            && after.wins == if answer.Done? then w.wins + [Win(i, agent, true)] else w.wins
  {
    var i := |w.calls|;
    var w0 := w.(calls := w.calls + [ClaimStart(agent)]);
    OneAwait(limits, w0, i, search, n);
    var w1 := AdvanceCall(limits, w0, i, search);
    if agent !in Offered(w.keys) {
      EndedStays(limits, w1, i, search, n - 1);
    } else {
      OneAwait(limits, w1, i, search, n - 1);
      var w2 := AdvanceCall(limits, w1, i, search);
      if w.keys.claim.Some? {
        EndedStays(limits, w2, i, search, n - 2);
      } else {
        LockedAddsUp(limits, w2, i, search, n - 2);
      }
    }
  }

  /** From the offer it has read on, a rejection deletes the offer if nobody is left, and ends without a trace otherwise. */
  lemma RejectReadAddsUp(limits: Limits, w: World, i: CallId, search: Search, n: nat)
    requires i < |w.calls| && w.calls[i].RejectRead? && w.keys.offer.Some? && n >= 2
    ensures var after := Alone(limits, w, i, search, n);
            && after.calls[i].Ended?
            && after.keys == if w.calls[i].remaining == [] then w.keys.(offer := None) else w.keys
  {
    OneAwait(limits, w, i, search, n);
    var w1 := AdvanceCall(limits, w, i, search);
    if w.calls[i].remaining == [] {
      EndedStays(limits, w1, i, search, n - 1);
    } else {
      OneAwait(limits, w1, i, search, n - 1);
      EndedStays(limits, AdvanceCall(limits, w1, i, search), i, search, n - 2);
    }
  }

  lemma RejectAddsUp(limits: Limits, w: World, agent: AgentId, search: Search, n: nat)
    requires n >= 3
    ensures var i := |w.calls|;
            var after := Alone(limits, w.(calls := w.calls + [RejectStart(agent)]), i, search, n);
            after.calls[i].Ended? && after.keys == RejectAlone(w.keys, agent).0
  {
    var i := |w.calls|;
    var w0 := w.(calls := w.calls + [RejectStart(agent)]);
    var w1 := AdvanceCall(limits, w0, i, search);
    OneAwait(limits, w0, i, search, n);
    if agent !in Offered(w.keys) {
      EndedStays(limits, w1, i, search, n - 1);
    } else {
      RejectReadAddsUp(limits, w1, i, search, n - 1);
    }
  }

  // ── the service ───────────────────────────────────────────────────────────

  /** What the try of an order finds, and where it throws. */
  datatype Trial = Trial(found: seq<AgentId>, fault: Fault)

  type Region = OrderId -> Trial

  function Tried(limits: Limits, keys: Keys, trial: Trial, free: set<AgentId>): (Keys, TickResult) {
    TryAssignAlone(limits, keys, Search(trial.found, free), trial.fault)
  }

  /** The keys of every order, after the orders `ids` were tried in turn. */
  function Ticked(limits: Limits, keys: seq<Keys>, ids: seq<OrderId>, region: Region, free: set<AgentId>): (after: seq<Keys>)
    requires forall i :: 0 <= i < |ids| ==> ids[i] < |keys|
    ensures |after| == |keys|
  {
    if |ids| == 0 then keys
    else
      var o := ids[|ids| - 1];
      var earlier := Ticked(limits, keys, ids[..|ids| - 1], region, free);
      earlier[o := Tried(limits, earlier[o], region(o), free).0]
  }

  function OffersMade(limits: Limits, keys: seq<Keys>, ids: seq<OrderId>, region: Region, free: set<AgentId>): nat
    requires forall i :: 0 <= i < |ids| ==> ids[i] < |keys|
  {
    if |ids| == 0 then 0
    else
      var o := ids[|ids| - 1];
      var earlier := Ticked(limits, keys, ids[..|ids| - 1], region, free);
      OffersMade(limits, keys, ids[..|ids| - 1], region, free)
      + if Tried(limits, earlier[o], region(o), free).1.TickOfferMade? then 1 else 0
  }

  /** The orders of `ids` that had no offer, are below the maximum, have someone to offer to and whose try does not throw. */
  function Offerable(limits: Limits, keys: seq<Keys>, ids: seq<OrderId>, region: Region, free: set<AgentId>): set<OrderId>
    requires forall i :: 0 <= i < |ids| ==> ids[i] < |keys|
  {
    set o | o in ids && keys[o].offer.None? && keys[o].attempts < limits.maxAttempts && region(o).fault.NoFault?
            && Candidates(limits, Search(region(o).found, free)) != []
  }

  lemma TickedOneMore(
    limits: Limits, keys: seq<Keys>, ids: seq<OrderId>, o: OrderId, region: Region, free: set<AgentId>)
    requires o < |keys| && forall i :: 0 <= i < |ids| ==> ids[i] < |keys|
    ensures var before := Ticked(limits, keys, ids, region, free);
            var (after, result) := Tried(limits, before[o], region(o), free);
            && Ticked(limits, keys, ids + [o], region, free) == before[o := after]
            && OffersMade(limits, keys, ids + [o], region, free)
            == OffersMade(limits, keys, ids, region, free) + if result.TickOfferMade? then 1 else 0
  {
    assert (ids + [o])[..|ids|] == ids;
  }

  lemma {:induction false} TickedAt(
      limits: Limits, keys: seq<Keys>, ids: seq<OrderId>, region: Region, free: set<AgentId>, o: OrderId)
    requires Distinct(ids) && forall i :: 0 <= i < |ids| ==> ids[i] < |keys|
    requires o < |keys|
    ensures Ticked(limits, keys, ids, region, free)[o]
         == if o in ids then Tried(limits, keys[o], region(o), free).0 else keys[o]
  {
    if |ids| > 0 {
      var rest := ids[..|ids| - 1];
      assert ids == rest + [ids[|ids| - 1]];
      TickedAt(limits, keys, rest, region, free, o);
    }
  }

  lemma {:induction false} OffersMadeExactly(
      limits: Limits, keys: seq<Keys>, ids: seq<OrderId>, region: Region, free: set<AgentId>)
    requires Distinct(ids) && forall i :: 0 <= i < |ids| ==> ids[i] < |keys|
    ensures OffersMade(limits, keys, ids, region, free) == |Offerable(limits, keys, ids, region, free)|
  {
    if |ids| > 0 {
      var o := ids[|ids| - 1];
      var rest := ids[..|ids| - 1];
      assert ids == rest + [o] && o !in rest;
      OffersMadeExactly(limits, keys, rest, region, free);
      TickedOneMore(limits, keys, rest, o, region, free);
      TickedAt(limits, keys, rest, region, free, o);
      OfferableOneMore(limits, keys, rest, o, region, free);
    }
  }

  lemma OfferableOneMore(
    limits: Limits, keys: seq<Keys>, ids: seq<OrderId>, o: OrderId, region: Region, free: set<AgentId>)
    requires o < |keys| && o !in ids && forall i :: 0 <= i < |ids| ==> ids[i] < |keys|
    ensures |Offerable(limits, keys, ids + [o], region, free)|
         == |Offerable(limits, keys, ids, region, free)|
          + if Tried(limits, keys[o], region(o), free).1.TickOfferMade? then 1 else 0
  {
    var more := if Tried(limits, keys[o], region(o), free).1.TickOfferMade? then {o} else {};
    assert Offerable(limits, keys, ids + [o], region, free) == Offerable(limits, keys, ids, region, free) + more;
  }

  /** A tick touches no order outside its batch, tries each one in it from its own keys, and offers the offerable. */
  lemma TickedExactly(limits: Limits, keys: seq<Keys>, ids: seq<OrderId>, region: Region, free: set<AgentId>)
    requires Distinct(ids) && forall i :: 0 <= i < |ids| ==> ids[i] < |keys|
    ensures forall o :: 0 <= o < |keys| ==>
              Ticked(limits, keys, ids, region, free)[o]
              == if o in ids then Tried(limits, keys[o], region(o), free).0 else keys[o]
    ensures OffersMade(limits, keys, ids, region, free) == |Offerable(limits, keys, ids, region, free)|
  {
    forall o | 0 <= o < |keys|
      ensures Ticked(limits, keys, ids, region, free)[o]
           == if o in ids then Tried(limits, keys[o], region(o), free).0 else keys[o]
    {
      TickedAt(limits, keys, ids, region, free, o);
    }
    OffersMadeExactly(limits, keys, ids, region, free);
  }

  function CreatedAt(row: Row): nat { row.createdAt }

  function ClaimableIds(rows: seq<Row>): set<OrderId> { set o: nat | o < |rows| && Claimable(rows[o]) }

  /** WHERE status = 'ready' AND delivery_agent_id IS NULL ORDER BY created_at LIMIT n. */
  ghost predicate IsBatch(rows: seq<Row>, limit: nat, ids: seq<OrderId>) {
    Answers(Stamps(rows, CreatedAt), ClaimableIds(rows), limit, ids)
  }

  lemma BatchValid(rows: seq<Row>, limit: nat, ids: seq<OrderId>)
    requires IsBatch(rows, limit, ids)
    ensures Distinct(ids) && forall k :: 0 <= k < |ids| ==> ids[k] < |rows| && Claimable(rows[ids[k]])
  {
    forall k | 0 <= k < |ids| ensures ids[k] in ClaimableIds(rows) {
      assert ids[k] in Members(ids);
    }
  }

  /** An order that does not exist: like one that nobody can claim. */
  const NO_ROW := Row(0, OrderStatus.Cancelled, None)

  class AssignmentService {
    const limits: Limits
    // Postgres
    var rows: seq<Row>
    // Redis
    var offers: map<OrderId, string>
    var claims: map<OrderId, AgentId>
    var attempts: map<OrderId, nat>
    var busy: set<AgentId>
    var online: set<AgentId>

    constructor (limits: Limits)
      ensures this.limits == limits && rows == [] && offers == map[] && claims == map[] && attempts == map[]
    {
      this.limits := limits;
      rows, offers, claims, attempts, busy, online := [], map[], map[], map[], {}, {};
    }

    function KeysOf(o: OrderId): Keys
      reads this
    {
      Keys(
        if o < |rows| then rows[o] else NO_ROW,
        if o in offers then Some(offers[o]) else None,
        if o in claims then Some(claims[o]) else None,
        if o in attempts then attempts[o] else 0)
    }

    function AllKeys(): (keys: seq<Keys>)
      reads this
    {
      seq(|rows|, o requires 0 <= o < |rows| reads this => KeysOf(o))
    }

    /** The scan of the geo result. */
    method FindCandidates(found: seq<AgentId>) returns (result: seq<AgentId>)
      requires limits.candidates > 0
      ensures result == FirstEligible(found, online - busy, limits.candidates)
    {
      result := [];
      for i := 0 to |found|
        invariant |result| < limits.candidates
        invariant FirstEligible(found, online - busy, limits.candidates)
               == result + FirstEligible(found[i..], online - busy, limits.candidates - |result|)
      {
        assert found[i..][1..] == found[i + 1..];
        if found[i] in online && found[i] !in busy {
          result := result + [found[i]];
          if |result| >= limits.candidates {
            return;
          }
        }
      }
    }

    method Count(o: OrderId)
      modifies this`attempts
      ensures attempts == old(attempts)[o := (if o in old(attempts) then old(attempts)[o] else 0) + 1]
    {
      attempts := attempts[o := (if o in attempts then attempts[o] else 0) + 1];
    }

    method TryAssign(o: OrderId, trial: Trial) returns (r: TickResult)
      requires o < |rows| && limits.candidates > 0
      modifies this`offers, this`attempts
      ensures (KeysOf(o), r) == Tried(limits, old(KeysOf(o)), trial, online - busy)
      ensures AllKeys() == old(AllKeys())[o := KeysOf(o)]
    {
      if trial.fault.BeforeWriting? {
        return TickFailed;
      }
      if o in offers {
        return TickSkipped;
      }
      var tries := if o in attempts then attempts[o] else 0;
      if tries >= limits.maxAttempts {
        return TickExhausted;
      }
      var candidates := FindCandidates(trial.found);
      if |candidates| > 0 {
        offers := offers[o := JoinIds(candidates)];
      }
      if trial.fault.BeforeCounting? {
        return TickFailed;
      }
      Count(o);
      r := if trial.fault.AfterCounting? then TickFailed
           else if |candidates| > 0 then TickOfferMade
           else TickNoCandidates;
    }

    /** The loop of a tick: each order in turn is tried and counted; a try that throws counts as skipped. */
    method TryEach(ids: seq<OrderId>, region: Region) returns (offered: nat, skipped: nat)
      requires limits.candidates > 0 && forall i :: 0 <= i < |ids| ==> ids[i] < |rows|
      modifies this`offers, this`attempts
      ensures AllKeys() == Ticked(limits, old(AllKeys()), ids, region, online - busy)
      ensures offered == OffersMade(limits, old(AllKeys()), ids, region, online - busy)
      ensures offered + skipped == |ids|
    {
      ghost var before, free := AllKeys(), online - busy;
      offered, skipped := 0, 0;
      for k := 0 to |ids|
        invariant offered + skipped == k
        invariant AllKeys() == Ticked(limits, before, ids[..k], region, free)
        invariant offered == OffersMade(limits, before, ids[..k], region, free)
      {
        assert ids[..k + 1] == ids[..k] + [ids[k]];
        TickedOneMore(limits, before, ids[..k], ids[k], region, free);
        assert AllKeys()[ids[k]] == KeysOf(ids[k]);
        var result := TryAssign(ids[k], region(ids[k]));
        if result.TickOfferMade? {
          offered := offered + 1;
        } else {
          skipped := skipped + 1;
        }
      }
      assert ids[..|ids|] == ids;
    }

    method FindReadyUnassigned(limit: nat) returns (ids: seq<OrderId>)
      ensures IsBatch(rows, limit, ids)
    {
      ids := Select(Stamps(rows, CreatedAt), ClaimableIds(rows), limit);
    }

    /** One tick over the region; `ids` is what its query returned. */
    method TickRegion(batch: nat, region: Region)
      returns (processed: nat, offered: nat, skipped: nat, ghost ids: seq<OrderId>)
      requires limits.candidates > 0
      modifies this`offers, this`attempts
      ensures IsBatch(rows, batch, ids) && forall k :: 0 <= k < |ids| ==> ids[k] < |rows|
      ensures AllKeys() == Ticked(limits, old(AllKeys()), ids, region, online - busy)
      ensures offered == OffersMade(limits, old(AllKeys()), ids, region, online - busy)
      ensures processed == |ids| && skipped == processed - offered
    {
      var orders := FindReadyUnassigned(batch);
      ids := orders;
      BatchValid(rows, batch, ids);
      offered, skipped := TryEach(orders, region);
      processed := |orders|;
    }

    method AdminAssign(o: OrderId, agent: AgentId) returns (r: Answer)
      modifies this`rows, this`offers, this`claims, this`busy
      ensures |rows| == old(|rows|)
      ensures (KeysOf(o), r) == AdminAssignAlone(old(KeysOf(o)), agent)
      ensures forall p :: p != o ==> KeysOf(p) == old(KeysOf(p))
      ensures busy == if r.Done? then old(busy) + {agent} else old(busy)
    {
      if o in claims {
        return OrderAlreadyClaimed;
      }
      claims := claims[o := agent];
      if o >= |rows| || !rows[o].status.Ready? || rows[o].agent.Some? {
        claims := claims - {o};
        return OrderNotInReadyState;
      }
      rows := rows[o := Taken(rows[o], agent)];
      busy := busy + {agent};
      offers := offers - {o};
      r := Done;
    }

    method Claim(o: OrderId, agent: AgentId) returns (r: Answer)
      modifies this`rows, this`offers, this`claims, this`busy
      ensures |rows| == old(|rows|)
      ensures (KeysOf(o), r) == ClaimAlone(old(KeysOf(o)), agent)
      ensures forall p :: p != o ==> KeysOf(p) == old(KeysOf(p))
      ensures busy == if r.Done? then old(busy) + {agent} else old(busy)
    {
      if o !in offers {
        return OfferExpired;
      }
      if agent !in SplitIds(offers[o]) {
        return NotInCandidateList;
      }
      r := AdminAssign(o, agent);  // from here on claim and adminAssign are one text
    }

    method Reject(o: OrderId, agent: AgentId) returns (r: Answer)
      modifies this`offers
      ensures (KeysOf(o), r) == RejectAlone(old(KeysOf(o)), agent)
      ensures forall p :: p != o ==> KeysOf(p) == old(KeysOf(p))
    {
      if o !in offers {
        return OfferExpired;
      }
      var candidates := SplitIds(offers[o]);
      if agent !in candidates {
        return NotInCandidateList;
      }
      var remaining := Without(candidates, agent);
      if |remaining| == 0 {
        offers := offers - {o};
      }
      // otherwise SET … NX, which leaves the live offer as it is
      r := Done;
    }
  }
}
