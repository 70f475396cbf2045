/**
 * The balance list pages by restaurant with an inclusive cursor, and a restaurant has one row per
 * currency. The walk ends exactly when no restaurant fills a page.
 */
module BalanceWalk {
  import opened Domain

  /** The restaurant ids of the rows, in the order of the query. */
  ghost predicate Ordered(rows: seq<nat>) { forall i, j :: 0 <= i <= j < |rows| ==> rows[i] <= rows[j] }

  /** Position of the first row with `restaurant_id >= cursor`. */
  function Start(rows: seq<nat>, cursor: nat): (i: nat)
    ensures i <= |rows|
    ensures forall j :: 0 <= j < i ==> rows[j] < cursor
    ensures i < |rows| ==> rows[i] >= cursor
  {
    if |rows| == 0 || rows[0] >= cursor then 0 else 1 + Start(rows[1..], cursor)
  }

  function StartOf(rows: seq<nat>, cursor: Option<nat>): nat {
    if cursor.Some? then Start(rows, cursor.value) else 0
  }

  datatype Page = Page(data: seq<nat>, nextCursor: Option<nat>)

  /** WHERE restaurant_id >= cursor ORDER BY restaurant_id LIMIT limit + 1, cut to `limit`. */
  function Fetch(rows: seq<nat>, cursor: Option<nat>, limit: nat): Page
    requires limit > 0
  {
    var found := rows[StartOf(rows, cursor)..];
    if |found| > limit then Page(found[..limit], Some(found[limit - 1])) else Page(found, None)
  }

  /** Following the cursors ends within `n` pages. */
  predicate EndsWithin(rows: seq<nat>, cursor: Option<nat>, limit: nat, n: nat)
    requires limit > 0
    decreases n
  {
    n > 0 &&
    var page := Fetch(rows, cursor, limit);
    page.nextCursor.None? || EndsWithin(rows, page.nextCursor, limit, n - 1)
  }

  /** Restaurant `r` fills a page and more rows follow: its own cursor leads back to itself. */
  predicate StuckAt(rows: seq<nat>, limit: nat, r: nat)
    requires limit > 0
  {
    Fetch(rows, Some(r), limit).nextCursor == Some(r)
  }

  /** Rows of restaurant `r`. */
  function RowsOf(rows: seq<nat>, r: nat): nat {
    if |rows| == 0 then 0 else (if rows[0] == r then 1 else 0) + RowsOf(rows[1..], r)
  }

  lemma {:induction false} RowsOfBlock(rows: seq<nat>, r: nat)
    requires Ordered(rows)
    ensures Start(rows, r) + RowsOf(rows, r) == Start(rows, r + 1)
    ensures RowsOf(rows, r) <= |rows|
  {
    if |rows| > 0 {
      RowsOfBlock(rows[1..], r);
    }
  }

  /** The rows of restaurant `r` fill a page, and more rows follow. */
  predicate FillsPage(rows: seq<nat>, limit: nat, r: nat) {
    RowsOf(rows, r) >= limit && |rows| - Start(rows, r) > limit
  }

  /** A cursor leads back to itself exactly when its rows fill the page and are not the last ones. */
  lemma StuckExactly(rows: seq<nat>, limit: nat, r: nat)
    requires limit > 0 && Ordered(rows)
    ensures StuckAt(rows, limit, r) <==> FillsPage(rows, limit, r)
  {
    RowsOfBlock(rows, r);
    var a := Start(rows, r);
    if |rows| - a > limit {
      assert rows[a..][limit - 1] == rows[a + limit - 1];
    }
  }

  /** The next cursor is a restaurant of this page, and its rows start inside it. */
  lemma NextStart(rows: seq<nat>, cursor: Option<nat>, limit: nat)
    requires limit > 0 && Ordered(rows) && Fetch(rows, cursor, limit).nextCursor.Some?
    ensures var a, c := StartOf(rows, cursor), Fetch(rows, cursor, limit).nextCursor.value;
            && a + limit < |rows| && c == rows[a + limit - 1]
            && a <= Start(rows, c) <= a + limit - 1
            && (Start(rows, c) == a ==> StuckAt(rows, limit, c))
            // the rows that come again are those of the boundary restaurant
            && forall i :: Start(rows, c) <= i < a + limit ==> rows[i] == c
  {
    var a, c := StartOf(rows, cursor), Fetch(rows, cursor, limit).nextCursor.value;
    assert rows[a..][limit - 1] == rows[a + limit - 1];
  }

  lemma {:induction false} EndsUnlessStuck(rows: seq<nat>, cursor: Option<nat>, limit: nat, n: nat)
    requires limit > 0 && Ordered(rows) && forall r :: !StuckAt(rows, limit, r)
    requires n > |rows| - StartOf(rows, cursor)
    ensures EndsWithin(rows, cursor, limit, n)
    decreases n
  {
    var page := Fetch(rows, cursor, limit);
    if page.nextCursor.Some? {
      NextStart(rows, cursor, limit);
      EndsUnlessStuck(rows, page.nextCursor, limit, n - 1);
    }
  }

  lemma {:induction false} NeverPassesStuck(rows: seq<nat>, cursor: Option<nat>, limit: nat, r: nat, n: nat)
    requires limit > 0 && Ordered(rows) && StuckAt(rows, limit, r) && StartOf(rows, cursor) <= Start(rows, r)
    ensures !EndsWithin(rows, cursor, limit, n)
    decreases n
  {
    if n > 0 {
      NextStart(rows, Some(r), limit);
      var page := Fetch(rows, cursor, limit);
      assert page.nextCursor.Some?;
      NextStart(rows, cursor, limit);
      NeverPassesStuck(rows, page.nextCursor, limit, r, n - 1);
    }
  }

  /** The walk ends exactly when no restaurant's rows fill a page with more rows to come. */
  lemma WalkEndsExactly(rows: seq<nat>, limit: nat)
    requires limit > 0 && Ordered(rows)
    ensures (exists n :: EndsWithin(rows, None, limit, n))
            <==> forall r :: !FillsPage(rows, limit, r)
  {
    forall r ensures StuckAt(rows, limit, r) <==> FillsPage(rows, limit, r) {
      StuckExactly(rows, limit, r);
    }
    if forall r :: !FillsPage(rows, limit, r) {
      EndsUnlessStuck(rows, None, limit, |rows| + 1);
      assert exists n :: EndsWithin(rows, None, limit, n);
    } else {
      var r :| FillsPage(rows, limit, r);
      forall n ensures !EndsWithin(rows, None, limit, n) {
        NeverPassesStuck(rows, None, limit, r, n);
      }
    }
  }

  /** One of the first `n` pages holds all rows of restaurant `r`. */
  predicate Shows(rows: seq<nat>, cursor: Option<nat>, limit: nat, n: nat, r: nat)
    requires limit > 0
    decreases n
  {
    n > 0 &&
    var a, page := StartOf(rows, cursor), Fetch(rows, cursor, limit);
    || (a <= Start(rows, r) && Start(rows, r + 1) <= a + |page.data|)
    || (page.nextCursor.Some? && Shows(rows, page.nextCursor, limit, n - 1, r))
  }

  /** A walk that ends has shown every restaurant's rows together on one page. */
  lemma {:induction false} ShowsEveryone(rows: seq<nat>, cursor: Option<nat>, limit: nat, n: nat, r: nat)
    requires limit > 0 && Ordered(rows) && EndsWithin(rows, cursor, limit, n)
    requires StartOf(rows, cursor) <= Start(rows, r)
    ensures Shows(rows, cursor, limit, n, r)
    decreases n
  {
    var a, page := StartOf(rows, cursor), Fetch(rows, cursor, limit);
    if page.nextCursor.Some? {
      NextStart(rows, cursor, limit);
      var c := page.nextCursor.value;
      if Start(rows, c) <= Start(rows, r) {
        ShowsEveryone(rows, page.nextCursor, limit, n - 1, r);
      } else {
        // the rows of r end where those of c begin, or before
        assert Start(rows, r + 1) <= Start(rows, c) by {
          var i := Start(rows, c);
          assert r < c;
        }
      }
    }
  }

  /** If every restaurant has fewer rows than a page, the walk ends and shows each one's rows together. */
  lemma {:induction false} WalkCoversEveryone(rows: seq<nat>, limit: nat, r: nat)
    requires limit > 0 && Ordered(rows) && forall q :: RowsOf(rows, q) < limit
    ensures EndsWithin(rows, None, limit, |rows| + 1)
    ensures Shows(rows, None, limit, |rows| + 1, r)
  {
    forall q ensures !StuckAt(rows, limit, q) {
      StuckExactly(rows, limit, q);
    }
    EndsUnlessStuck(rows, None, limit, |rows| + 1);
    ShowsEveryone(rows, None, limit, |rows| + 1, r);
  }
}
