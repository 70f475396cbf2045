/** The pager behind a query string, whose limit need not be whole. */
module QueryString {
  import opened Domain
  import opened Pagination

  /** `raw` is None when the parameter is missing or no finite number. The limit need not be whole. */
  function ParseLimit(raw: Option<real>): (limit: real)
    ensures 0.0 < limit <= 100.0
    ensures raw.Some? && 0.0 < raw.value <= 100.0 ==> limit == raw.value
    ensures raw.Some? && raw.value > 100.0 ==> limit == 100.0
    ensures raw == None || raw.value <= 0.0 ==> limit == 20.0
  {
    if raw.Some? && raw.value > 0.0 then (if raw.value < 100.0 then raw.value else 100.0) else 20.0
  }

  /** Ascending only on request. */
  function ParseOrder(raw: string): (order: SortOrder)
    ensures order == Asc <==> raw == "asc"
  {
    if raw == "asc" then Asc else Desc
  }

  /** A page, or the TypeError of reading the key of a row that is not there. */
  datatype Reply = Shown(page: Page) | Thrown

  /** The query builder and `slice` both truncate; the comparison with the limit does not. */
  function Serve(order: SortOrder, rows: seq<int>, cursor: Option<int>, limit: real): Reply
    requires limit > 0.0
  {
    var found := Take(Matching(order, rows, cursor), (limit + 1.0).Floor);
    var data := Take(found, limit.Floor);
    if |found| as real <= limit then Shown(Page(data, None))
    else if data == [] then Thrown
    else Shown(Page(data, Some(data[|data| - 1])))
  }

  /** A fractional limit serves the pages of its whole part; below one, it throws as soon as there is a row. */
  lemma ServeExactly(order: SortOrder, rows: seq<int>, cursor: Option<int>, limit: real)
    requires limit > 0.0
    ensures Serve(order, rows, cursor, limit)
         == if limit >= 1.0 then Shown(Fetch(order, rows, cursor, limit.Floor))
            else if Matching(order, rows, cursor) == [] then Shown(Page([], None))
            else Thrown
  {
    assert (limit + 1.0).Floor == limit.Floor + 1;
  }

  /** The client got page `k` from the table as it then was, with the cursor of the page before. */
  ghost predicate ServedAt(order: SortOrder, table: seq<int>, limit: real, pages: seq<Page>, k: nat)
    requires limit > 0.0 && k < |pages|
  {
    && (k > 0 ==> pages[k - 1].nextCursor.Some?)
    && Serve(order, table, if k == 0 then None else pages[k - 1].nextCursor, limit) == Shown(pages[k])
  }

  /**
   * Whatever the query string says: the walk of the client ends after the pages of the limit's
   * whole part and shows the initial rows once, or the limit is below one and only an empty table
   * can be listed at all.
   */
  lemma AnyQueryWalks(
      rawLimit: Option<real>, rawOrder: string, base: seq<int>, fronts: History, pages: seq<Page>)
    requires var order := ParseOrder(rawOrder);
             && GrowsInFront(order, base, fronts)
             && forall k :: 0 <= k < |pages| ==> ServedAt(order, fronts(k) + base, ParseLimit(rawLimit), pages, k)
    ensures var limit := ParseLimit(rawLimit);
            if limit >= 1.0
            then (Complete(pages) <==> IsCeiling(|pages|, |base|, limit.Floor)) && (Complete(pages) ==> DataOf(pages) == base)
            else |pages| > 0 ==> base == []
  {
    var order, limit := ParseOrder(rawOrder), ParseLimit(rawLimit);
    forall k | 0 <= k < |pages| && limit >= 1.0 ensures Asked(order, fronts(k) + base, limit.Floor, pages, k) {
      assert ServedAt(order, fronts(k) + base, limit, pages, k);
      ServeExactly(order, fronts(k) + base, if k == 0 then None else pages[k - 1].nextCursor, limit);
    }
    if limit >= 1.0 {
      WalkSeesEveryRowOnce(order, base, fronts, limit.Floor, pages);
    } else if |pages| > 0 {
      assert ServedAt(order, fronts(0) + base, limit, pages, 0);
      ServeExactly(order, fronts(0) + base, None, limit);
    }
  }
}
