/** `ORDER BY created_at LIMIT n`: rows with the same stamp come in any order. */
module Oldest {
  import opened Sums

  /** The stamps of the rows of a table. */
  function Stamps<T(!new)>(rows: seq<T>, createdAt: T -> nat): (stamps: seq<nat>)
    ensures |stamps| == |rows| && forall i :: 0 <= i < |rows| ==> stamps[i] == createdAt(rows[i])
  {
    seq(|rows|, i requires 0 <= i < |rows| => createdAt(rows[i]))
  }

  predicate Distinct(ids: seq<nat>) { forall i, j :: 0 <= i < j < |ids| ==> ids[i] != ids[j] }

  predicate InOrder(stamps: seq<nat>, ids: seq<nat>) {
    && (forall i :: 0 <= i < |ids| ==> ids[i] < |stamps|)
    && forall i, j :: 0 <= i < j < |ids| ==> stamps[ids[i]] <= stamps[ids[j]]
  }

  function Members(ids: seq<nat>): set<nat> { set x | x in ids }

  /** `ids` is a possible answer of the query on the rows `wanted`. */
  ghost predicate Answers(stamps: seq<nat>, wanted: set<nat>, limit: nat, ids: seq<nat>) {
    && (forall x :: x in wanted ==> x < |stamps|)
    && Distinct(ids)
    && Members(ids) <= wanted
    && |ids| == Min(|wanted|, limit)
    && InOrder(stamps, ids)
    && (forall x, y :: x in Members(ids) && y in wanted - Members(ids) ==> stamps[x] <= stamps[y])
  }

  lemma {:induction false} MembersCount(ids: seq<nat>)
    requires Distinct(ids)
    ensures |Members(ids)| == |ids|
  {
    if |ids| > 0 {
      var rest, last := ids[..|ids| - 1], ids[|ids| - 1];
      MembersCount(rest);
      assert Members(ids) == Members(rest) + {last};
    }
  }

  lemma MembersInTurn(a: seq<nat>, b: seq<nat>, wanted: set<nat>)
    ensures Members(a + b) == Members(a) + Members(b)
    ensures wanted - Members(a + b) == wanted - Members(a) - Members(b)
  {
  }

  lemma InOrderInTurn(stamps: seq<nat>, a: seq<nat>, b: seq<nat>)
    requires Distinct(a) && InOrder(stamps, a) && Distinct(b) && InOrder(stamps, b) && Members(a) !! Members(b)
    requires forall x, y :: x in Members(a) && y in Members(b) ==> stamps[x] <= stamps[y]
    ensures Distinct(a + b) && InOrder(stamps, a + b)
  {
    assert forall i :: 0 <= i < |a| ==> a[i] in Members(a);
    assert forall i :: 0 <= i < |b| ==> b[i] in Members(b);
  }

  /** Two queries in a row, the second on what the first left, answer one query with both limits. */
  lemma AnswersInTurn(stamps: seq<nat>, wanted: set<nat>, n: nat, a: seq<nat>, m: nat, b: seq<nat>)
    requires Answers(stamps, wanted, n, a) && Answers(stamps, wanted - Members(a), m, b)
    ensures Answers(stamps, wanted, n + m, a + b)
  {
    MembersCount(a);
    assert |wanted - Members(a)| == |wanted| - |a|;
    InOrderInTurn(stamps, a, b);
    MembersInTurn(a, b, wanted);
  }

  /** The oldest of some rows. */
  lemma {:induction false} OldestExists(stamps: seq<nat>, left: set<nat>) returns (oldest: nat)
    requires left != {} && forall x :: x in left ==> x < |stamps|
    ensures oldest in left && forall y :: y in left ==> stamps[oldest] <= stamps[y]
    decreases |left|
  {
    oldest :| oldest in left;
    if left != {oldest} {
      var other := OldestExists(stamps, left - {oldest});
      if stamps[other] < stamps[oldest] {
        oldest := other;
      }
    }
  }

  /** `ids` are the oldest of `wanted` so far, and `left` is the rest. */
  ghost predicate Split(stamps: seq<nat>, wanted: set<nat>, ids: seq<nat>, left: set<nat>) {
    && (forall x :: x in wanted ==> x < |stamps|)
    && Distinct(ids) && InOrder(stamps, ids)
    && Members(ids) + left == wanted && Members(ids) !! left
    && forall x, y :: x in Members(ids) && y in left ==> stamps[x] <= stamps[y]
  }

  lemma SplitMore(stamps: seq<nat>, wanted: set<nat>, ids: seq<nat>, left: set<nat>, oldest: nat)
    requires Split(stamps, wanted, ids, left) && oldest in left && forall y :: y in left ==> stamps[oldest] <= stamps[y]
    ensures Split(stamps, wanted, ids + [oldest], left - {oldest})
  {
    assert Members(ids + [oldest]) == Members(ids) + {oldest};
    assert forall i :: 0 <= i < |ids| ==> ids[i] in Members(ids);
  }

  lemma SplitAnswers(stamps: seq<nat>, wanted: set<nat>, ids: seq<nat>, left: set<nat>, limit: nat)
    requires Split(stamps, wanted, ids, left) && |ids| <= limit && (|ids| == limit || left == {})
    ensures Answers(stamps, wanted, limit, ids)
  {
    MembersCount(ids);
    assert |wanted| == |Members(ids)| + |left|;
  }

  method Select(stamps: seq<nat>, wanted: set<nat>, limit: nat) returns (ids: seq<nat>)
    requires forall x :: x in wanted ==> x < |stamps|
    ensures Answers(stamps, wanted, limit, ids)
  {
    ids := [];
    var left := wanted;
    while |ids| < limit && left != {}
      invariant Split(stamps, wanted, ids, left) && |ids| <= limit
      decreases |left|
    {
      ghost var first := OldestExists(stamps, left);
      var oldest :| oldest in left && forall y :: y in left ==> stamps[oldest] <= stamps[y];
      SplitMore(stamps, wanted, ids, left, oldest);
      ids, left := ids + [oldest], left - {oldest};
    }
    SplitAnswers(stamps, wanted, ids, left, limit);
  }
}
