/**
 * The outbox drainer: every tick publishes a batch of pending rows, oldest first, and counts the
 * failures; a row that failed five times is left as a dead letter.
 */
module OutboxDrain {
  import opened Domain
  import opened Sums
  import opened Oldest

  const MAX_ATTEMPTS: nat := 5

  /** A row's id is its position. Rows of one transaction may well share their stamp. */
  datatype Row = Row(event: Event, createdAt: nat, attempts: nat, dispatched: bool)

  /** What becomes of one attempt: the broker may refuse it, or `markDispatched` may raise after it. */
  datatype Fate = Published | Refused | MarkRaised

  type Weather = nat -> Fate

  predicate Pending(row: Row) { !row.dispatched && row.attempts < MAX_ATTEMPTS }

  predicate DeadLetter(row: Row) { !row.dispatched && row.attempts >= MAX_ATTEMPTS }

  function PendingIds(rows: seq<Row>): set<nat> { set x: nat | x < |rows| && Pending(rows[x]) }

  function CreatedAt(row: Row): nat { row.createdAt }

  /** WHERE dispatched_at IS NULL AND attempts < 5 ORDER BY created_at LIMIT n. */
  ghost predicate IsBatch(rows: seq<Row>, limit: nat, ids: seq<nat>) {
    Answers(Stamps(rows, CreatedAt), PendingIds(rows), limit, ids)
  }

  function Attempted(row: Row, fate: Fate): Row {
    match fate
    case Published => row.(dispatched := true)
    case _ => row.(attempts := row.attempts + 1)
  }

  /** An attempt dispatches the row or counts against it, and never both. */
  lemma AttemptedExactly(row: Row, fate: Fate)
    ensures var after := Attempted(row, fate);
            && after.event == row.event && after.createdAt == row.createdAt
            && after.dispatched == (row.dispatched || fate == Published)
            && after.attempts == row.attempts + (if fate == Published then 0 else 1)
  {
  }

  /** The rows after the listed attempts. */
  function Processed(rows: seq<Row>, ids: seq<nat>, weather: Weather): (after: seq<Row>)
    ensures |after| == |rows|
  {
    if |ids| == 0 then rows
    else
      var last := ids[|ids| - 1];
      var before := Processed(rows, ids[..|ids| - 1], weather);
      if last < |rows| then before[last := Attempted(before[last], weather(last))] else before
  }

  /** What the broker accepts of the listed attempts. */
  function SentOf(ids: seq<nat>, weather: Weather): seq<nat> {
    if |ids| == 0 then []
    else
      var last := ids[|ids| - 1];
      SentOf(ids[..|ids| - 1], weather) + (if weather(last).Refused? then [] else [last])
  }

  lemma AttemptMore(rows: seq<Row>, ids: seq<nat>, id: nat, weather: Weather)
    requires id < |rows|
    ensures var before := Processed(rows, ids, weather);
            Processed(rows, ids + [id], weather) == before[id := Attempted(before[id], weather(id))]
    ensures SentOf(ids + [id], weather) == SentOf(ids, weather) + (if weather(id).Refused? then [] else [id])
  {
    assert (ids + [id])[..|ids|] == ids;
  }

  lemma BatchValid(rows: seq<Row>, limit: nat, ids: seq<nat>)
    requires IsBatch(rows, limit, ids)
    ensures Distinct(ids) && forall k :: 0 <= k < |ids| ==> ids[k] < |rows| && Pending(rows[ids[k]])
    ensures |ids| > 0 <==> limit > 0 && exists i :: 0 <= i < |rows| && Pending(rows[i])
  {
    forall k | 0 <= k < |ids| ensures ids[k] in PendingIds(rows) {
      assert ids[k] in Members(ids);
    }
    if exists i :: 0 <= i < |rows| && Pending(rows[i]) {
      var i: nat :| i < |rows| && Pending(rows[i]);
      assert i in PendingIds(rows);
    } else {
      assert PendingIds(rows) == {};
    }
  }

  // ── the drainer ───────────────────────────────────────────────────────────

  class Outbox {
    var rows: seq<Row>
    /** What the broker has accepted, in order. */
    var published: seq<nat>

    constructor (rows: seq<Row>)
      ensures this.rows == rows && published == []
    {
      this.rows, published := rows, [];
    }

    method ClaimPendingBatch(limit: nat) returns (ids: seq<nat>)
      ensures IsBatch(rows, limit, ids)
    {
      ids := Select(Stamps(rows, CreatedAt), PendingIds(rows), limit);
    }

    method MarkDispatched(id: nat)
      requires id < |rows|
      modifies this`rows
      ensures rows == old(rows)[id := old(rows[id]).(dispatched := true)]
    {
      rows := rows[id := rows[id].(dispatched := true)];
    }

    method MarkFailed(id: nat)
      requires id < |rows|
      modifies this`rows
      ensures rows == old(rows)[id := old(rows[id]).(attempts := old(rows[id]).attempts + 1)]
    {
      rows := rows[id := rows[id].(attempts := rows[id].attempts + 1)];
    }

    /** `writeOutboxEvent`. */
    method Write(event: Event, now: nat)
      modifies this`rows
      ensures rows == old(rows) + [Row(event, now, 0, false)]
    {
      rows := rows + [Row(event, now, 0, false)];
    }

    /** One row of the batch: publish it, then mark it; whatever raises counts as a failure. */
    method Attempt(id: nat, fate: Fate)
      requires id < |rows|
      modifies this
      ensures rows == old(rows)[id := Attempted(old(rows)[id], fate)]
      ensures published == old(published) + (if fate.Refused? then [] else [id])
    {
      if fate.Refused? {
        MarkFailed(id);
      } else {
        published := published + [id];
        if fate.Published? {
          MarkDispatched(id);
        } else {
          MarkFailed(id);
        }
      }
    }

    /** The loop of a tick. */
    method AttemptAll(batch: seq<nat>, weather: Weather)
      requires Within(batch, |rows|)
      modifies this
      ensures rows == Processed(old(rows), batch, weather)
      ensures published == old(published) + SentOf(batch, weather)
    {
      ghost var table, sent := rows, published;
      for k := 0 to |batch|
        invariant rows == Processed(table, batch[..k], weather)
        invariant published == sent + SentOf(batch[..k], weather)
      {
        AttemptMore(table, batch[..k], batch[k], weather);
        assert batch[..k + 1] == batch[..k] + [batch[k]];
        Attempt(batch[k], weather(batch[k]));
      }
      assert batch[..|batch|] == batch;
    }

    /** One tick of the drain job; `batch` is what its query returned. */
    method Tick(limit: nat, weather: Weather) returns (batch: seq<nat>)
      modifies this
      ensures IsBatch(old(rows), limit, batch)
      ensures rows == Processed(old(rows), batch, weather)
      ensures published == old(published) + SentOf(batch, weather)
    {
      batch := ClaimPendingBatch(limit);
      BatchValid(rows, limit, batch);
      AttemptAll(batch, weather);
    }
  }

  // ── one tick ──────────────────────────────────────────────────────────────

  predicate Within(ids: seq<nat>, n: nat) { forall k :: 0 <= k < |ids| ==> ids[k] < n }

  lemma {:induction false} ProcessedAt(rows: seq<Row>, ids: seq<nat>, weather: Weather)
    requires Distinct(ids) && Within(ids, |rows|)
    ensures forall i: nat :: i < |rows| ==>
              Processed(rows, ids, weather)[i] == if i in ids then Attempted(rows[i], weather(i)) else rows[i]
  {
    if |ids| > 0 {
      var rest := ids[..|ids| - 1];
      ProcessedAt(rows, rest, weather);
      assert ids == rest + [ids[|ids| - 1]];
    }
  }

  /** The attempts that a pending row stamped up to `t` still has. */
  function Left(t: nat): Row -> int {
    (row: Row) => if Pending(row) && row.createdAt <= t then MAX_ATTEMPTS - row.attempts else 0
  }

  /** What is left to do for the rows stamped up to `t`. */
  function Work(rows: seq<Row>, t: nat): int { Sum(rows, Left(t)) }

  function DueIn(rows: seq<Row>, t: nat, ids: seq<nat>): nat
    requires Within(ids, |rows|)
  {
    if |ids| == 0 then 0
    else DueIn(rows, t, ids[..|ids| - 1]) + if rows[ids[|ids| - 1]].createdAt <= t then 1 else 0
  }

  lemma {:induction false} DueCounts(rows: seq<Row>, t: nat, ids: seq<nat>, k: nat)
    requires Within(ids, |rows|) && k < |ids| && rows[ids[k]].createdAt <= t
    ensures DueIn(rows, t, ids) > 0
  {
    if k < |ids| - 1 {
      DueCounts(rows, t, ids[..|ids| - 1], k);
    }
  }

  lemma {:induction false} WorkShrinks(rows: seq<Row>, t: nat, ids: seq<nat>, weather: Weather)
    requires Distinct(ids) && Within(ids, |rows|) && forall k :: 0 <= k < |ids| ==> Pending(rows[ids[k]])
    ensures Work(Processed(rows, ids, weather), t) <= Work(rows, t) - DueIn(rows, t, ids)
  {
    if |ids| > 0 {
      var rest, last := ids[..|ids| - 1], ids[|ids| - 1];
      WorkShrinks(rows, t, rest, weather);
      ProcessedAt(rows, rest, weather);
      var before := Processed(rows, rest, weather);
      assert before[last] == rows[last];
      SumUpdate(before, last, Attempted(before[last], weather(last)), Left(t));
    }
  }

  lemma {:induction false} SentAre(ids: seq<nat>, weather: Weather)
    ensures forall i :: i in SentOf(ids, weather) <==> i in ids && !weather(i).Refused?
  {
    if |ids| > 0 {
      SentAre(ids[..|ids| - 1], weather);
      assert ids == ids[..|ids| - 1] + [ids[|ids| - 1]];
    }
  }

  // ── any number of ticks, with rows written in between ─────────────────────

  datatype Progress = Progress(rows: seq<Row>, published: seq<nat>)

  /** The rows written since the tick before, what the query of this one returned, and what became of each attempt. */
  datatype Day = Day(added: seq<Row>, ids: seq<nat>, weather: Weather)

  /** The rows that the tick finds. */
  function Found(p: Progress, day: Day): seq<Row> { p.rows + day.added }

  function TickOnce(p: Progress, day: Day): Progress {
    Progress(Processed(Found(p, day), day.ids, day.weather), p.published + SentOf(day.ids, day.weather))
  }

  function Ticks(p: Progress, days: seq<Day>): Progress {
    if |days| == 0 then p else TickOnce(Ticks(p, days[..|days| - 1]), days[|days| - 1])
  }

  /** As `writeOutboxEvent` inserts it. */
  predicate Unsent(row: Row) { !row.dispatched && row.attempts == 0 }

  ghost predicate GoodDay(p: Progress, limit: nat, day: Day) {
    IsBatch(Found(p, day), limit, day.ids) && forall i :: 0 <= i < |day.added| ==> Unsent(day.added[i])
  }

  /** Every tick got a batch its query may return at that point, and only unsent rows were added. */
  ghost predicate Drained(p: Progress, limit: nat, days: seq<Day>) {
    |days| == 0
    || (&& Drained(p, limit, days[..|days| - 1])
        && GoodDay(Ticks(p, days[..|days| - 1]), limit, days[|days| - 1]))
  }

  /** Rows that appear from now on are stamped after `t`. */
  ghost predicate LaterThan(t: nat, days: seq<Day>) {
    forall k :: 0 <= k < |days| ==> AllLater(t, days[k].added)
  }

  ghost predicate AllLater(t: nat, rows: seq<Row>) { forall i :: 0 <= i < |rows| ==> rows[i].createdAt > t }

  /** Dispatched rows were published, and no row has failed more often than allowed. */
  ghost predicate Honest(p: Progress) {
    forall i :: 0 <= i < |p.rows| ==>
      (p.rows[i].dispatched ==> i in p.published) && p.rows[i].attempts <= MAX_ATTEMPTS
  }

  /** The rows are still there, with their events and stamps. */
  ghost predicate Kept(before: seq<Row>, after: seq<Row>) {
    && |before| <= |after|
    && forall i :: 0 <= i < |before| ==>
         after[i].event == before[i].event && after[i].createdAt == before[i].createdAt
  }

  lemma TickStaysHonest(p: Progress, limit: nat, day: Day)
    requires Honest(p) && GoodDay(p, limit, day)
    ensures Honest(TickOnce(p, day)) && Kept(p.rows, TickOnce(p, day).rows)
  {
    var rows := Found(p, day);
    BatchValid(rows, limit, day.ids);
    ProcessedAt(rows, day.ids, day.weather);
    SentAre(day.ids, day.weather);
    forall i | 0 <= i < |rows| ensures rows[i].dispatched ==> i in p.published {
      assert i < |p.rows| ==> rows[i] == p.rows[i];
      assert i >= |p.rows| ==> rows[i] == day.added[i - |p.rows|] && Unsent(day.added[i - |p.rows|]);
    }
    forall i | 0 <= i < |rows| ensures rows[i].attempts <= MAX_ATTEMPTS {
      assert i < |p.rows| ==> rows[i] == p.rows[i];
      assert i >= |p.rows| ==> rows[i] == day.added[i - |p.rows|] && Unsent(day.added[i - |p.rows|]);
    }
  }

  lemma {:induction false} LaterRowsAddNoWork(rows: seq<Row>, added: seq<Row>, t: nat)
    requires AllLater(t, added)
    ensures Work(rows + added, t) == Work(rows, t)
  {
    if |added| == 0 {
      assert rows + added == rows;
    } else {
      var fewer, last := added[..|added| - 1], added[|added| - 1];
      LaterRowsAddNoWork(rows, fewer, t);
      assert rows + added == rows + fewer + [last];
      SumAppend(rows + fewer, last, Left(t));
    }
  }

  /** The query takes the oldest first, so a batch serves a row stamped up to `t` as long as one is pending. */
  lemma BatchServesDue(rows: seq<Row>, t: nat, limit: nat, ids: seq<nat>, i: nat)
    requires limit > 0 && IsBatch(rows, limit, ids) && i < |rows| && Pending(rows[i]) && rows[i].createdAt <= t
    ensures Within(ids, |rows|) && DueIn(rows, t, ids) > 0
  {
    BatchValid(rows, limit, ids);
    assert i in PendingIds(rows);
    if i in ids {
      var k :| 0 <= k < |ids| && ids[k] == i;
      DueCounts(rows, t, ids, k);
    } else {
      assert ids[0] in Members(ids);
      DueCounts(rows, t, ids, 0);
    }
  }

  /** A tick that finds a row stamped up to `t` does some of the work that is left for such rows. */
  lemma TickProgress(p: Progress, t: nat, limit: nat, day: Day)
    requires Honest(p) && limit > 0 && GoodDay(p, limit, day) && AllLater(t, day.added)
    ensures var after := TickOnce(p, day);
            && Honest(after)
            && Kept(p.rows, after.rows)
            && 0 <= Work(after.rows, t) <= Work(p.rows, t)
            && (Work(p.rows, t) > 0 ==> Work(after.rows, t) < Work(p.rows, t))
  {
    var rows := Found(p, day);
    TickStaysHonest(p, limit, day);
    BatchValid(rows, limit, day.ids);
    LaterRowsAddNoWork(p.rows, day.added, t);
    WorkShrinks(rows, t, day.ids, day.weather);
    if Work(p.rows, t) > 0 {
      var i := SumWitness(rows, Left(t));
      BatchServesDue(rows, t, limit, day.ids, i);
    }
    SumCovers(TickOnce(p, day).rows, Left(t));
  }

  /** A tick with nothing written before it and nothing pending changes nothing. */
  lemma IdleTick(p: Progress, limit: nat, day: Day)
    requires GoodDay(p, limit, day) && day.added == [] && forall i :: 0 <= i < |p.rows| ==> !Pending(p.rows[i])
    ensures TickOnce(p, day) == p
  {
    assert Found(p, day) == p.rows;
    BatchValid(p.rows, limit, day.ids);
    assert p.published + [] == p.published;
  }

  lemma {:induction false} WorkRunsOut(p: Progress, t: nat, limit: nat, days: seq<Day>)
    requires Honest(p) && limit > 0 && Drained(p, limit, days) && LaterThan(t, days)
    ensures var after := Ticks(p, days);
            && Honest(after)
            && Kept(p.rows, after.rows)
            && (Work(after.rows, t) == 0 || 0 < Work(after.rows, t) <= Work(p.rows, t) - |days|)
  {
    SumCovers(p.rows, Left(t));
    if |days| > 0 {
      var earlier, today := days[..|days| - 1], days[|days| - 1];
      WorkRunsOut(p, t, limit, earlier);
      assert AllLater(t, today.added);
      TickProgress(Ticks(p, earlier), t, limit, today);
    }
  }

  /**
   * However the broker behaves, and whatever is written meanwhile with later stamps, no row is
   * lost, and after as many ticks as there are attempts left for the rows stamped up to `t`, each
   * of those has been published and dispatched or is a dead letter.
   */
  lemma EveryRowEnds(p: Progress, t: nat, limit: nat, days: seq<Day>, i: nat)
    requires Honest(p) && limit > 0 && Drained(p, limit, days) && LaterThan(t, days)
    requires i < |p.rows| && p.rows[i].createdAt <= t && |days| >= Work(p.rows, t)
    ensures var after := Ticks(p, days);
            && |p.rows| <= |after.rows|
            && after.rows[i].event == p.rows[i].event
            && ((after.rows[i].dispatched && i in after.published)
                || (DeadLetter(after.rows[i]) && after.rows[i].attempts == 5))
  {
    WorkRunsOut(p, t, limit, days);
    var after := Ticks(p, days);
    SumCovers(after.rows, Left(t));
    assert Left(t)(after.rows[i]) <= 0;
  }

  // ── days without failures ─────────────────────────────────────────────────

  ghost predicate Fair(weather: Weather) { forall i :: weather(i).Published? }

  lemma {:induction false} AllSent(ids: seq<nat>, weather: Weather)
    requires Fair(weather)
    ensures SentOf(ids, weather) == ids
  {
    if |ids| > 0 {
      AllSent(ids[..|ids| - 1], weather);
    }
  }

  lemma FairlyProcessed(rows: seq<Row>, ids: seq<nat>, weather: Weather)
    requires Fair(weather) && Distinct(ids) && Within(ids, |rows|)
    ensures Stamps(Processed(rows, ids, weather), CreatedAt) == Stamps(rows, CreatedAt)
    ensures PendingIds(Processed(rows, ids, weather)) == PendingIds(rows) - Members(ids)
  {
    ProcessedAt(rows, ids, weather);
    var after := Processed(rows, ids, weather);
    forall x: nat ensures x in PendingIds(after) <==> x in PendingIds(rows) && x !in Members(ids) {
      if x < |rows| && x in ids {
        assert after[x] == Attempted(rows[x], weather(x));
      }
    }
  }

  lemma FairTick(p: Progress, limit: nat, day: Day)
    requires Fair(day.weather) && GoodDay(p, limit, day)
    ensures var after := TickOnce(p, day);
            && after.published == p.published + day.ids
            && Stamps(after.rows, CreatedAt) == Stamps(Found(p, day), CreatedAt)
            && PendingIds(after.rows) == PendingIds(Found(p, day)) - Members(day.ids)
  {
    BatchValid(Found(p, day), limit, day.ids);
    FairlyProcessed(Found(p, day), day.ids, day.weather);
    AllSent(day.ids, day.weather);
  }

  /** `sent` went out since `start`, and the other pending rows are still to come. */
  ghost predicate SentSince(start: Progress, p: Progress, sent: seq<nat>) {
    && p.published == start.published + sent
    && Stamps(p.rows, CreatedAt) == Stamps(start.rows, CreatedAt)
    && PendingIds(p.rows) == PendingIds(start.rows) - Members(sent)
  }

  /** How many rows `days` ticks may publish. */
  function Quota(days: nat, limit: nat): nat { if days == 0 then 0 else Quota(days - 1, limit) + limit }

  lemma {:induction false} QuotaIsProduct(days: nat, limit: nat)
    ensures Quota(days, limit) == days * limit
  {
    if days > 0 {
      QuotaIsProduct(days - 1, limit);
      assert days * limit == (days - 1) * limit + limit;
    }
  }

  lemma SentMore(start: Progress, p: Progress, after: Progress, sent: seq<nat>, ids: seq<nat>)
    requires SentSince(start, p, sent)
    requires after.published == p.published + ids && Stamps(after.rows, CreatedAt) == Stamps(p.rows, CreatedAt)
    requires PendingIds(after.rows) == PendingIds(p.rows) - Members(ids)
    ensures SentSince(start, after, sent + ids)
  {
    MembersInTurn(sent, ids, PendingIds(start.rows));
    assert start.published + sent + ids == start.published + (sent + ids);
  }

  /** Nothing fails, and nothing is written. */
  ghost predicate QuietDay(day: Day) { Fair(day.weather) && day.added == [] }

  lemma {:induction false} FairDays(p: Progress, limit: nat, days: seq<Day>) returns (sent: seq<nat>)
    requires Drained(p, limit, days) && forall k :: 0 <= k < |days| ==> QuietDay(days[k])
    ensures SentSince(p, Ticks(p, days), sent) && IsBatch(p.rows, Quota(|days|, limit), sent)
  {
    if |days| == 0 {
      sent := [];
      assert p.published + [] == p.published;
    } else {
      var earlier, today := days[..|days| - 1], days[|days| - 1];
      sent := FairDays(p, limit, earlier);
      assert QuietDay(today);
      assert Found(Ticks(p, earlier), today) == Ticks(p, earlier).rows;
      FairTick(Ticks(p, earlier), limit, today);
      SentMore(p, Ticks(p, earlier), Ticks(p, days), sent, today.ids);
      AnswersInTurn(
        Stamps(p.rows, CreatedAt), PendingIds(p.rows), Quota(|earlier|, limit), sent, limit, today.ids);
      sent := sent + today.ids;
    }
  }

  /**
   * Without failures and new rows, any number of ticks together publish what one query with the
   * limits added up would return: that many pending rows in the order of their stamps, none of them
   * younger than one that is still to come.
   */
  lemma FairDaysAreFifo(p: Progress, limit: nat, days: seq<Day>)
    requires Drained(p, limit, days) && forall k :: 0 <= k < |days| ==> QuietDay(days[k])
    ensures exists sent :: SentSince(p, Ticks(p, days), sent) && IsBatch(p.rows, Quota(|days|, limit), sent)
    ensures Quota(|days|, limit) == |days| * limit
  {
    var sent := FairDays(p, limit, days);
    QuotaIsProduct(|days|, limit);
  }

  // ── … while rows are written ──────────────────────────────────────────────

  /** No written row is older than one that is already there. */
  ghost predicate InTurn(rows: seq<Row>, added: seq<Row>) {
    forall i, j :: 0 <= i < |rows| && 0 <= j < |added| ==> rows[i].createdAt <= added[j].createdAt
  }

  /** Nothing fails, and rows are written in the order of their stamps. */
  ghost predicate FairHistory(p: Progress, days: seq<Day>) {
    |days| == 0
    || (&& FairHistory(p, days[..|days| - 1])
        && Fair(days[|days| - 1].weather)
        && InTurn(Ticks(p, days[..|days| - 1]).rows, days[|days| - 1].added))
  }

  /** What went out did so in the order of the stamps, and nothing that is to come is older. */
  ghost predicate Fifo(start: Progress, p: Progress, sent: seq<nat>) {
    && p.published == start.published + sent
    && Distinct(sent) && InOrder(Stamps(p.rows, CreatedAt), sent)
    && (forall x, y :: x in Members(sent) && y in PendingIds(p.rows) ==> p.rows[x].createdAt <= p.rows[y].createdAt)
    && Members(sent) !! PendingIds(p.rows)
    // every row that was to be sent, or was written since, was sent or still is to be
    && (forall x :: x in PendingIds(start.rows) || |start.rows| <= x < |p.rows| ==> x in Members(sent) + PendingIds(p.rows))
  }

  /** What was sent stays before the rows that are added. */
  lemma AddedComeLater(start: Progress, p: Progress, sent: seq<nat>, added: seq<Row>)
    requires Fifo(start, p, sent) && InTurn(p.rows, added)
    requires forall i :: 0 <= i < |added| ==> Unsent(added[i])
    ensures Fifo(start, p.(rows := p.rows + added), sent)
  {
    var rows := p.rows + added;
    assert forall i :: 0 <= i < |sent| ==> sent[i] in Members(sent);
    forall x | x in Members(sent) ensures x < |p.rows| && rows[x] == p.rows[x] && x !in PendingIds(rows) {
      var i :| 0 <= i < |sent| && sent[i] == x;
      assert sent[i] < |Stamps(p.rows, CreatedAt)|;
    }
    forall x, y | x in Members(sent) && y in PendingIds(rows) ensures rows[x].createdAt <= rows[y].createdAt {
      if y < |p.rows| {
        assert y in PendingIds(p.rows);
      } else {
        assert rows[y] == added[y - |p.rows|];
      }
    }
    forall x | x in PendingIds(start.rows) || |start.rows| <= x < |rows| ensures x in Members(sent) + PendingIds(rows) {
      if x >= |p.rows| && x < |rows| {
        assert rows[x] == added[x - |p.rows|] && Unsent(added[x - |p.rows|]);
      }
    }
  }

  /** The next batch goes out after what was sent. */
  lemma BatchComesNext(start: Progress, p: Progress, sent: seq<nat>, limit: nat, ids: seq<nat>, after: Progress)
    requires Fifo(start, p, sent) && IsBatch(p.rows, limit, ids)
    requires after.published == p.published + ids
    requires Stamps(after.rows, CreatedAt) == Stamps(p.rows, CreatedAt)
    requires PendingIds(after.rows) == PendingIds(p.rows) - Members(ids)
    ensures Fifo(start, after, sent + ids)
  {
    var stamps := Stamps(p.rows, CreatedAt);
    forall x, y | x in Members(sent) && y in Members(ids) ensures stamps[x] <= stamps[y] {
      var i :| 0 <= i < |sent| && sent[i] == x;
    }
    InOrderInTurn(stamps, sent, ids);
    MembersInTurn(sent, ids, PendingIds(p.rows));
    assert start.published + sent + ids == start.published + (sent + ids);
    forall x, y | x in Members(sent + ids) && y in PendingIds(after.rows)
      ensures after.rows[x].createdAt <= after.rows[y].createdAt
    {
      assert x < |p.rows| && stamps[x] <= stamps[y];
    }
  }

  /** Without failures, rows go out in the order of their stamps also while new ones are written. */
  lemma {:induction false} FifoWhileWriting(p: Progress, limit: nat, days: seq<Day>) returns (sent: seq<nat>)
    requires Drained(p, limit, days) && FairHistory(p, days)
    ensures Fifo(p, Ticks(p, days), sent)
  {
    if |days| == 0 {
      sent := [];
      assert p.published + [] == p.published;
    } else {
      var earlier, today := days[..|days| - 1], days[|days| - 1];
      sent := FifoWhileWriting(p, limit, earlier);
      var before := Ticks(p, earlier);
      AddedComeLater(p, before, sent, today.added);
      FairTick(before, limit, today);
      BatchComesNext(p, before.(rows := Found(before, today)), sent, limit, today.ids, Ticks(p, days));
      sent := sent + today.ids;
    }
  }
}
