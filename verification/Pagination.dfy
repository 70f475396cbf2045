/** The exclusive cursor pager, and what a client sees that follows its cursors to the end. */
module Pagination {
  import opened Domain
  import opened Sums

  datatype SortOrder = Asc | Desc

  predicate Precedes(order: SortOrder, x: int, y: int) { if order.Asc? then x < y else x > y }

  /** Rows are known by their sort key; no two share one. */
  ghost predicate Sorted(order: SortOrder, rows: seq<int>) {
    forall i, j :: 0 <= i < j < |rows| ==> Precedes(order, rows[i], rows[j])
  }

  // ── one page ──────────────────────────────────────────────────────────────

  function Beyond(order: SortOrder, rows: seq<int>, cursor: int): seq<int> {
    if |rows| == 0 then []
    else (if Precedes(order, cursor, rows[0]) then [rows[0]] else []) + Beyond(order, rows[1..], cursor)
  }

  function Matching(order: SortOrder, rows: seq<int>, cursor: Option<int>): seq<int> {
    if cursor.Some? then Beyond(order, rows, cursor.value) else rows
  }

  function Take<T>(s: seq<T>, n: nat): seq<T> { if |s| <= n then s else s[..n] }

  /** WHERE key > cursor (or < when descending) ORDER BY key LIMIT limit + 1. */
  function Query(order: SortOrder, rows: seq<int>, cursor: Option<int>, limit: nat): (found: seq<int>)
    ensures |found| <= limit + 1
  {
    Take(Matching(order, rows, cursor), limit + 1)
  }

  datatype Page = Page(data: seq<int>, nextCursor: Option<int>)

  function BuildPage(rows: seq<int>, limit: nat): Page
    requires limit > 0
  {
    var data := Take(rows, limit);
    Page(data, if |rows| > limit then Some(data[|data| - 1]) else None)
  }

  function Fetch(order: SortOrder, rows: seq<int>, cursor: Option<int>, limit: nat): Page
    requires limit > 0
  {
    BuildPage(Query(order, rows, cursor, limit), limit)
  }

  lemma {:induction false} BeyondNone(order: SortOrder, rows: seq<int>, cursor: int)
    requires forall i :: 0 <= i < |rows| ==> !Precedes(order, cursor, rows[i])
    ensures Beyond(order, rows, cursor) == []
  {
    if |rows| > 0 {
      BeyondNone(order, rows[1..], cursor);
    }
  }

  lemma {:induction false} BeyondAll(order: SortOrder, rows: seq<int>, cursor: int)
    requires forall i :: 0 <= i < |rows| ==> Precedes(order, cursor, rows[i])
    ensures Beyond(order, rows, cursor) == rows
  {
    if |rows| > 0 {
      BeyondAll(order, rows[1..], cursor);
    }
  }

  lemma {:induction false} BeyondConcat(order: SortOrder, a: seq<int>, b: seq<int>, cursor: int)
    ensures Beyond(order, a + b, cursor) == Beyond(order, a, cursor) + Beyond(order, b, cursor)
  {
    if |a| == 0 {
      assert a + b == b;
    } else {
      assert (a + b)[1..] == a[1..] + b;
      BeyondConcat(order, a[1..], b, cursor);
    }
  }

  /** Past the key of a row come exactly the rows after it. */
  lemma BeyondRow(order: SortOrder, rows: seq<int>, i: nat)
    requires Sorted(order, rows) && i < |rows|
    ensures Beyond(order, rows, rows[i]) == rows[i + 1..]
  {
    assert rows == rows[..i + 1] + rows[i + 1..];
    BeyondConcat(order, rows[..i + 1], rows[i + 1..], rows[i]);
    BeyondNone(order, rows[..i + 1], rows[i]);
    BeyondAll(order, rows[i + 1..], rows[i]);
  }

  // ── the walk ──────────────────────────────────────────────────────────────

  /** What was added in front of the initial rows by the time of page number `k`. */
  type History = nat -> seq<int>

  /** Only rows that sort before all the initial ones are added, and none before the first page. */
  ghost predicate GrowsInFront(order: SortOrder, base: seq<int>, fronts: History) {
    fronts(0) == [] && forall k :: Sorted(order, fronts(k) + base)
  }

  /** The client asked for every page with the cursor of the page before. */
  ghost predicate Followed(order: SortOrder, base: seq<int>, fronts: History, limit: nat, pages: seq<Page>)
    requires limit > 0
  {
    forall k :: 0 <= k < |pages| ==> Asked(order, fronts(k) + base, limit, pages, k)
  }

  ghost predicate Asked(order: SortOrder, table: seq<int>, limit: nat, pages: seq<Page>, k: nat)
    requires limit > 0 && k < |pages|
  {
    && (k > 0 ==> pages[k - 1].nextCursor.Some?)
    && pages[k] == Fetch(order, table, if k == 0 then None else pages[k - 1].nextCursor, limit)
  }

  lemma BeyondFront(order: SortOrder, front: seq<int>, base: seq<int>, at: nat)
    requires 0 < at <= |base| && Sorted(order, front + base)
    ensures Beyond(order, front + base, base[at - 1]) == base[at..]
  {
    var table := front + base;
    BeyondRow(order, table, |front| + at - 1);
    assert table[|front| + at - 1] == base[at - 1] && table[|front| + at..] == base[at..];
  }

  /** The page fetched after row `at - 1` of the initial rows, whatever was added in front. */
  lemma PageAt(order: SortOrder, front: seq<int>, base: seq<int>, at: nat, limit: nat)
    requires limit > 0 && at <= |base| && Sorted(order, front + base) && (at == 0 ==> front == [])
    ensures Fetch(order, front + base, if at == 0 then None else Some(base[at - 1]), limit)
         == BuildPage(Take(base[at..], limit + 1), limit)
  {
    if at == 0 {
      assert front + base == base[0..];
    } else {
      BeyondFront(order, front, base, at);
    }
  }

  lemma NextPage(base: seq<int>, at: nat, limit: nat)
    requires limit > 0 && at <= |base|
    ensures var page := BuildPage(Take(base[at..], limit + 1), limit);
            if |base| - at > limit
            then page == Page(base[at..at + limit], Some(base[at + limit - 1]))
            else page == Page(base[at..], None)
  {
    assert |base| - at > limit ==> Take(Take(base[at..], limit + 1), limit) == base[at..at + limit];
  }

  /** The cursor that stands for "after the first `at` rows". */
  function CursorAt(base: seq<int>, at: nat): Option<int>
    requires at <= |base|
  {
    if at == 0 then None else Some(base[at - 1])
  }

  /** The rows `at` up to `at + limit`, as a page. */
  function Slice(base: seq<int>, at: nat, limit: nat): Page
    requires at <= |base|
  {
    if |base| - at > limit then Page(base[at..at + limit], CursorAt(base, at + limit)) else Page(base[at..], None)
  }

  /** The first row of page `k`. */
  function Offset(k: nat, limit: nat): nat { if k == 0 then 0 else Offset(k - 1, limit) + limit }

  lemma {:induction false} OffsetIsProduct(k: nat, limit: nat)
    ensures Offset(k, limit) == k * limit
  {
    if k > 0 {
      OffsetIsProduct(k - 1, limit);
      assert k * limit == (k - 1) * limit + limit;
    }
  }

  lemma FetchAt(order: SortOrder, front: seq<int>, base: seq<int>, at: nat, limit: nat)
    requires limit > 0 && at <= |base| && Sorted(order, front + base) && (at == 0 ==> front == [])
    ensures Fetch(order, front + base, CursorAt(base, at), limit) == Slice(base, at, limit)
  {
    PageAt(order, front, base, at, limit);
    NextPage(base, at, limit);
  }

  /** What the cursor of a slice says. */
  lemma SliceCursor(base: seq<int>, at: nat, limit: nat, next: nat)
    requires at <= |base| && Slice(base, at, limit).nextCursor.Some? && next == at + limit
    ensures next < |base| && Slice(base, at, limit).nextCursor == CursorAt(base, next)
  {
  }

  /** A page follows the slice before it. */
  lemma NextSlice(
    order: SortOrder, front: seq<int>, base: seq<int>, limit: nat, pages: seq<Page>, k: nat, at: nat, next: nat)
    requires limit > 0 && Sorted(order, front + base)
    requires 0 < k < |pages| && Asked(order, front + base, limit, pages, k)
    requires at <= |base| && pages[k - 1] == Slice(base, at, limit) && next == at + limit
    ensures next < |base| && pages[k] == Slice(base, next, limit)
  {
    SliceCursor(base, at, limit, next);
    FetchAt(order, front, base, next, limit);
  }

  /** Page `k` is the `k`-th slice of the initial rows; there is no page after the last slice. */
  lemma {:induction false} PageIsSlice(
    order: SortOrder, base: seq<int>, fronts: History, limit: nat, pages: seq<Page>, k: nat)
    requires limit > 0 && GrowsInFront(order, base, fronts) && Followed(order, base, fronts, limit, pages)
    requires k < |pages|
    ensures Offset(k, limit) <= |base| && (k > 0 ==> Offset(k, limit) < |base|)
    ensures pages[k] == Slice(base, Offset(k, limit), limit)
  {
    assert Asked(order, fronts(k) + base, limit, pages, k);
    if k == 0 {
      FetchAt(order, fronts(0), base, 0, limit);
    } else {
      PageIsSlice(order, base, fronts, limit, pages, k - 1);
      NextSlice(order, fronts(k), base, limit, pages, k, Offset(k - 1, limit), Offset(k, limit));
    }
  }

  function DataOf(pages: seq<Page>): seq<int> {
    if |pages| == 0 then [] else DataOf(pages[..|pages| - 1]) + pages[|pages| - 1].data
  }

  lemma FollowedPrefix(order: SortOrder, base: seq<int>, fronts: History, limit: nat, pages: seq<Page>)
    requires limit > 0 && |pages| > 0 && Followed(order, base, fronts, limit, pages)
    ensures Followed(order, base, fronts, limit, pages[..|pages| - 1])
  {
    var rest := pages[..|pages| - 1];
    forall k | 0 <= k < |rest| ensures Asked(order, fronts(k) + base, limit, rest, k) {
      assert Asked(order, fronts(k) + base, limit, pages, k);
    }
  }

  lemma PrefixGrows(base: seq<int>, at: nat, limit: nat)
    requires at <= |base|
    ensures base[..at] + Slice(base, at, limit).data == base[..Min(at + limit, |base|)]
  {
  }

  lemma {:induction false} DataIsPrefix(
    order: SortOrder, base: seq<int>, fronts: History, limit: nat, pages: seq<Page>)
    requires limit > 0 && GrowsInFront(order, base, fronts) && Followed(order, base, fronts, limit, pages)
    ensures DataOf(pages) == base[..Min(Offset(|pages|, limit), |base|)]
  {
    if |pages| > 0 {
      var last := |pages| - 1;
      FollowedPrefix(order, base, fronts, limit, pages);
      DataIsPrefix(order, base, fronts, limit, pages[..last]);
      PageIsSlice(order, base, fronts, limit, pages, last);
      PrefixGrows(base, Offset(last, limit), limit);
    }
  }

  ghost predicate Complete(pages: seq<Page>) { |pages| > 0 && pages[|pages| - 1].nextCursor.None? }

  /** `pages` is `n / limit` rounded up, and one for an empty table. */
  ghost predicate IsCeiling(pages: nat, n: nat, limit: nat) {
    pages > 0 && n <= pages * limit && (pages > 1 ==> (pages - 1) * limit < n)
  }

  lemma CompleteAt(order: SortOrder, base: seq<int>, fronts: History, limit: nat, pages: seq<Page>)
    requires limit > 0 && GrowsInFront(order, base, fronts) && Followed(order, base, fronts, limit, pages) && |pages| > 0
    ensures Complete(pages) <==> |base| <= Offset(|pages|, limit)
    ensures |pages| > 1 ==> Offset(|pages| - 1, limit) < |base|
  {
    PageIsSlice(order, base, fronts, limit, pages, |pages| - 1);
  }

  /**
   * Following the cursors ends exactly after ⌈n/limit⌉ pages (one for an empty table), and
   * together they are the initial rows, each once and in order, even while rows are added in
   * front of them.
   */
  lemma {:induction false} WalkSeesEveryRowOnce(order: SortOrder, base: seq<int>, fronts: History, limit: nat, pages: seq<Page>)
    requires limit > 0 && GrowsInFront(order, base, fronts) && Followed(order, base, fronts, limit, pages)
    ensures Complete(pages) <==> IsCeiling(|pages|, |base|, limit)
    ensures |pages| <= 1 || (|pages| - 1) * limit < |base|
    ensures Complete(pages) ==> DataOf(pages) == base
  {
    if |pages| > 0 {
      CompleteAt(order, base, fronts, limit, pages);
      DataIsPrefix(order, base, fronts, limit, pages);
      OffsetIsProduct(|pages| - 1, limit);
      OffsetIsProduct(|pages|, limit);
      assert base[..|base|] == base;
    }
  }

  /** In descending id order that covers every table that only gains larger ids. */
  lemma NewerIdsDoNotDisturb(base: seq<int>, newer: History, limit: nat, pages: seq<Page>)
    requires limit > 0 && Sorted(Desc, base) && newer(0) == []
    requires forall k :: Sorted(Desc, newer(k))
    requires forall k, i, j :: 0 <= i < |newer(k)| && 0 <= j < |base| ==> newer(k)[i] > base[j]
    requires Followed(Desc, base, newer, limit, pages) && Complete(pages)
    ensures DataOf(pages) == base
  {
    forall k ensures Sorted(Desc, newer(k) + base) {
    }
    WalkSeesEveryRowOnce(Desc, base, newer, limit, pages);
  }
}
