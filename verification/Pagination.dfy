/** Listing messages by page, newest first, while other clients insert and update. */
module Pagination {
  import opened Relational
  import opened Sets

  type Rows = map<Id, Message>

  // ---- the order ---------------------------------------------------------------------------

  /** ORDER BY created_at DESC, id DESC */
  predicate Before(rows: Rows, a: Id, b: Id)
    requires a in rows && b in rows
  {
    rows[a].createdAt > rows[b].createdAt || (rows[a].createdAt == rows[b].createdAt && a > b)
  }

  predicate IsFirst(rows: Rows, m: Id) {
    m in rows && forall k | k in rows && k != m :: Before(rows, m, k)
  }

  lemma {:induction false} FirstExists(rows: Rows)
    requires rows != map[]
    ensures exists m :: IsFirst(rows, m)
    decreases |rows|
  {
    var k :| k in rows;
    var rest := rows - {k};
    assert rest.Keys == rows.Keys - {k};
    if rest == map[] {
      forall j | j in rows
        ensures j == k
      {
        assert j != k ==> j in rest.Keys;
      }
      assert IsFirst(rows, k);
    } else {
      FirstExists(rest);
      var first :| IsFirst(rest, first);
      var m := if Before(rows, first, k) then first else k;
      forall j | j in rows && j != m
        ensures Before(rows, m, j)
      {
        assert j != k ==> j in rest && (j != first ==> Before(rest, first, j));
      }
      assert IsFirst(rows, m);
    }
  }

  /** The whole table in order. */
  function Ordered(rows: Rows): seq<Id>
    decreases |rows|
  {
    if rows == map[] then []
    else
      FirstExists(rows);
      var m :| IsFirst(rows, m);
      assert (rows - {m}).Keys == rows.Keys - {m};
      [m] + Ordered(rows - {m})
  }

  /** OFFSET and LIMIT */
  function Page(rows: Rows, limit: nat, offset: nat): seq<Id> {
    var all := Ordered(rows);
    if offset >= |all| then [] else if offset + limit >= |all| then all[offset..] else all[offset..offset + limit]
  }

  /** How many rows come before a row. */
  function Ahead(rows: Rows, m: Id): set<Id>
    requires m in rows
  {
    set k | k in rows && Before(rows, k, m)
  }

  function Rank(rows: Rows, m: Id): nat
    requires m in rows
  {
    |Ahead(rows, m)|
  }

  /** The listing is its first row, and the listing of the rest. */
  lemma OrderedCuts(rows: Rows, first: Id)
    requires rows != map[] && first == Ordered(rows)[0]
    ensures IsFirst(rows, first) && Ordered(rows) == [first] + Ordered(rows - {first})
    ensures (rows - {first}).Keys == rows.Keys - {first} && |rows - {first}| == |rows| - 1
  {
    assert (rows - {first}).Keys == rows.Keys - {first};
  }

  lemma FirstRanks(rows: Rows, first: Id, m: Id)
    requires IsFirst(rows, first) && m in rows
    ensures m == first ==> Rank(rows, m) == 0
    ensures m != first ==> m in rows - {first} && Rank(rows, m) == Rank(rows - {first}, m) + 1
  {
    if m == first {
      assert Ahead(rows, m) == {};
    } else {
      var rest := rows - {first};
      assert Ahead(rows, m) == Ahead(rest, m) + {first};
    }
  }

  lemma {:induction false} LengthIsSize(rows: Rows)
    ensures |Ordered(rows)| == |rows|
    decreases |rows|
  {
    hide IsFirst;
    if rows != map[] {
      var first := Ordered(rows)[0];
      OrderedCuts(rows, first);
      LengthIsSize(rows - {first});
    }
  }

  /** The order is strict and total: every row stands in the listing at its rank. */
  lemma {:induction false} PlaceIsRank(rows: Rows, m: Id)
    requires m in rows
    ensures |Ordered(rows)| == |rows|
    ensures Rank(rows, m) < |rows| && Ordered(rows)[Rank(rows, m)] == m
    decreases |rows|
  {
    LengthIsSize(rows);
    var first := Ordered(rows)[0];
    OrderedCuts(rows, first);
    FirstRanks(rows, first, m);
    hide IsFirst, Rank, Ordered;
    if m != first {
      PlaceIsRank(rows - {first}, m);
    }
  }

  /** And the listing holds nothing else: what stands at a place is the row of that rank. */
  lemma {:induction false} RankIsPlace(rows: Rows, i: nat)
    requires i < |Ordered(rows)|
    ensures Ordered(rows)[i] in rows && Rank(rows, Ordered(rows)[i]) == i
    decreases |rows|
  {
    LengthIsSize(rows);
    var first := Ordered(rows)[0];
    OrderedCuts(rows, first);
    assert first in rows;
    if i > 0 {
      RankIsPlace(rows - {first}, i - 1);
    }
    FirstRanks(rows, first, Ordered(rows)[i]);
  }

  /** The listing has every row exactly once, newest first. */
  lemma OrderedLists(rows: Rows)
    ensures |Ordered(rows)| == |rows|
    ensures forall m :: m in rows <==> m in Ordered(rows)
    ensures forall i, j | 0 <= i < j < |Ordered(rows)| ::
              && Ordered(rows)[i] != Ordered(rows)[j]
              && Ordered(rows)[i] in rows && Ordered(rows)[j] in rows
              && var a, b := Ordered(rows)[i], Ordered(rows)[j];
                 rows[a].createdAt > rows[b].createdAt || (rows[a].createdAt == rows[b].createdAt && a > b)
  {
    LengthIsSize(rows);
    hide Rank, Ordered;
    forall m | m in rows
      ensures m in Ordered(rows)
    {
      PlaceIsRank(rows, m);
    }
    forall i | 0 <= i < |Ordered(rows)|
      ensures Ordered(rows)[i] in rows
    {
      RankIsPlace(rows, i);
    }
    forall i, j | 0 <= i < j < |Ordered(rows)|
      ensures var a, b := Ordered(rows)[i], Ordered(rows)[j]; a != b && a in rows && b in rows && Before(rows, a, b)
    {
      RankIsPlace(rows, i);
      RankIsPlace(rows, j);
      RankDecides(rows, Ordered(rows)[i], Ordered(rows)[j]);
    }
  }

  lemma RankDecides(rows: Rows, a: Id, b: Id)
    requires a in rows && b in rows && Rank(rows, a) < Rank(rows, b)
    ensures a != b && Before(rows, a, b)
  {
    if a != b && !Before(rows, a, b) {
      SubsetSize(Ahead(rows, b), Ahead(rows, a));
    }
  }

  // ---- a walk over the pages ---------------------------------------------------------------

  /** Inserts and updates: rows stay, and keep their creation time. */
  predicate Grown(rows: Rows, later: Rows) {
    forall m | m in rows :: m in later && later[m].createdAt == rows[m].createdAt
  }

  /** What one request for a page finds: the table when its rows are read, and when it is counted. */
  datatype Snapshot = Snapshot(rows: Rows, counted: Rows)

  predicate OnlyGrows(snaps: seq<Snapshot>) {
    && (forall k | 0 <= k < |snaps| :: Grown(snaps[k].rows, snaps[k].counted))
    && (forall k | 0 < k < |snaps| :: Grown(snaps[k - 1].counted, snaps[k].rows))
  }

  predicate Fixed(snaps: seq<Snapshot>, rows: Rows) {
    forall k | 0 <= k < |snaps| :: snaps[k] == Snapshot(rows, rows)
  }

  lemma RankGrows(rows: Rows, later: Rows, m: Id)
    requires Grown(rows, later) && m in rows
    ensures Rank(rows, m) <= Rank(later, m)
  {
    SubsetSize(Ahead(rows, m), Ahead(later, m));
  }

  lemma SizeGrows(rows: Rows, later: Rows)
    requires Grown(rows, later)
    ensures |rows| <= |later|
  {
    SubsetSize(rows.Keys, later.Keys);
  }

  /** A page has exactly the rows whose rank lies in it. */
  lemma OnPage(rows: Rows, limit: nat, offset: nat, m: Id)
    requires m in rows
    ensures m in Page(rows, limit, offset) <==> offset <= Rank(rows, m) < offset + limit
  {
    hide Ordered, Rank;
    PlaceIsRank(rows, m);
    var all, page, r := Ordered(rows), Page(rows, limit, offset), Rank(rows, m);
    assert forall i | 0 <= i < |page| :: page[i] == all[offset + i];
    if offset <= r < offset + limit {
      assert page[r - offset] == m;
    }
    forall i | 0 <= i < |page| && page[i] == m
      ensures r == offset + i
    {
      RankIsPlace(rows, offset + i);
    }
  }

  lemma PageIsOfRows(rows: Rows, limit: nat, offset: nat)
    ensures |Page(rows, limit, offset)| <= limit
    ensures forall m | m in Page(rows, limit, offset) :: m in rows
  {
    hide Ordered;
    OrderedLists(rows);
  }

  datatype Walked = Walked(listed: seq<Id>, ended: bool)

  /** The client's walk: ask for a page, keep what came, and go on until the offset has reached the
      total of the last answer. It may never catch up with the inserts, so `snaps` bounds how many
      answers it gets. */
  function WalkFrom(snaps: seq<Snapshot>, limit: nat, k: nat, offset: nat, listed: seq<Id>): Walked
    requires k <= |snaps|
    decreases |snaps| - k
  {
    if k == |snaps| then Walked(listed, false)
    else
      var more := listed + Page(snaps[k].rows, limit, offset);
      if offset + limit >= |snaps[k].counted| then Walked(more, true)
      else WalkFrom(snaps, limit, k + 1, offset + limit, more)
  }

  /** The first so many pages of a walk. */
  function Pages(snaps: seq<Snapshot>, limit: nat, n: nat): seq<Id>
    requires n <= |snaps|
  {
    if n == 0 then [] else Pages(snaps, limit, n - 1) + Page(snaps[n - 1].rows, limit, (n - 1) * limit)
  }

  /** The walk ends with the first page at which the offset has reached the total answered with it,
      and has listed the pages up to there. */
  lemma {:induction false} WalkEndsAt(snaps: seq<Snapshot>, limit: nat, n: nat, k: nat)
    requires k <= n <= |snaps|
    requires forall i | 0 <= i < n :: (i + 1) * limit < |snaps[i].counted|
    requires n < |snaps| ==> (n + 1) * limit >= |snaps[n].counted|
    ensures WalkFrom(snaps, limit, k, k * limit, Pages(snaps, limit, k)) ==
            if n < |snaps| then Walked(Pages(snaps, limit, n + 1), true) else Walked(Pages(snaps, limit, n), false)
    decreases n - k
  {
    hide Page;
    if k < n {
      WalkEndsAt(snaps, limit, n, k + 1);
    }
  }

  /** The loop that does it. */
  method Walk(snaps: seq<Snapshot>, limit: nat) returns (listed: seq<Id>, ended: bool)
    ensures Walked(listed, ended) == WalkFrom(snaps, limit, 0, 0, [])
  {
    listed, ended := [], false;
    var k: nat, offset: nat := 0, 0;
    while k < |snaps| && !ended
      invariant k <= |snaps|
      invariant WalkFrom(snaps, limit, 0, 0, []) ==
                if ended then Walked(listed, true) else WalkFrom(snaps, limit, k, offset, listed)
    {
      var page := Page(snaps[k].rows, limit, offset);
      var total := |snaps[k].counted|;
      listed := listed + page;
      offset := offset + limit;
      ended := offset >= total;
      k := k + 1;
    }
  }

  lemma {:induction false} WalkProgress(snaps: seq<Snapshot>, limit: nat, k: nat, offset: nat, listed: seq<Id>)
    requires OnlyGrows(snaps) && k <= |snaps|
    requires k < |snaps| ==> forall m | m in snaps[0].rows :: m in listed || Ranked(snaps[k].rows, m, offset)
    requires forall m | m in listed :: Seen(snaps, m)
    ensures var w := WalkFrom(snaps, limit, k, offset, listed);
            && (w.ended ==> snaps != [] && forall m | m in snaps[0].rows :: m in w.listed)
            && (forall m | m in w.listed :: Seen(snaps, m))
    decreases |snaps| - k
  {
    hide OnlyGrows, Page, Ranked;
    if k < |snaps| {
      PageProgress(snaps, limit, offset, k, listed);
      PageIsOfRows(snaps[k].rows, limit, offset);
      var more := listed + Page(snaps[k].rows, limit, offset);
      if offset + limit < |snaps[k].counted| {
        WalkProgress(snaps, limit, k + 1, offset + limit, more);
      }
    }
  }

  /** The row was in the table when some page was read. */
  predicate Seen(snaps: seq<Snapshot>, m: Id) {
    exists j | 0 <= j < |snaps| :: m in snaps[j].rows
  }

  /** While rows are only inserted and updated, a walk that ends has listed every message that was
      there when it began, and nothing that was never there. */
  lemma WalkSkipsNothing(snaps: seq<Snapshot>, limit: nat)
    requires OnlyGrows(snaps)
    ensures var w := WalkFrom(snaps, limit, 0, 0, []);
            && (w.ended ==> snaps != [] && forall m | m in snaps[0].rows :: m in w.listed)
            && (forall m | m in w.listed :: Seen(snaps, m))
  {
    WalkProgress(snaps, limit, 0, 0, []);
  }

  lemma {:induction false} FixedProgressWalks(
    snaps: seq<Snapshot>, limit: nat, rows: Rows, k: nat, offset: nat, listed: seq<Id>)
    requires Fixed(snaps, rows) && limit >= 1 && k < |snaps| && FixedProgress(rows, listed, false, offset)
    requires offset + Reach(|snaps| - k, limit) >= |rows|
    ensures WalkFrom(snaps, limit, k, offset, listed) == Walked(Ordered(rows), true)
    decreases |snaps| - k
  {
    FixedPage(rows, limit, offset, listed);
    assert snaps[k] == Snapshot(rows, rows);
    FixedEnds(rows, listed + Page(rows, limit, offset), offset + limit >= |rows|, offset + limit);
    hide Page, Ordered, FixedProgress, Fixed, Reach;
    OneFewer(|snaps| - k, limit);
    if offset + limit < |rows| {
      FixedProgressWalks(snaps, limit, rows, k + 1, offset + limit, listed + Page(rows, limit, offset));
    }
  }

  /** How many rows so many pages can hold. */
  function Reach(pages: nat, limit: nat): nat {
    pages * limit
  }

  lemma OneFewer(n: nat, limit: nat)
    requires n > 0
    ensures Reach(n, limit) == Reach(n - 1, limit) + limit
    ensures n == 1 ==> Reach(n, limit) == limit
  {
  }

  /** On a table that does not change a walk ends, and lists every row exactly once, in order. */
  lemma FixedWalk(snaps: seq<Snapshot>, limit: nat, rows: Rows)
    requires Fixed(snaps, rows) && snaps != [] && limit >= 1 && |snaps| * limit >= |rows|
    ensures WalkFrom(snaps, limit, 0, 0, []) == Walked(Ordered(rows), true)
  {
    FixedProgressWalks(snaps, limit, rows, 0, 0, []);
  }

  lemma FixedEnds(rows: Rows, listed: seq<Id>, ended: bool, offset: nat)
    requires FixedProgress(rows, listed, ended, offset)
    ensures (ended ==> listed == Ordered(rows)) && (!ended ==> offset == 0 || offset < |rows|)
  {
  }

  predicate Ranked(rows: Rows, m: Id, offset: nat) {
    m in rows && offset <= Rank(rows, m)
  }

  /** On a fixed table, what has been listed is the part of the order before the offset. */
  predicate FixedProgress(rows: Rows, listed: seq<Id>, ended: bool, offset: nat) {
    && (ended ==> listed == Ordered(rows))
    && (!ended ==> (offset == 0 && listed == []) || (offset < |rows| && listed == Page(rows, offset, 0)))
  }

  lemma FixedPage(rows: Rows, limit: nat, offset: nat, listed: seq<Id>)
    requires limit >= 1 && FixedProgress(rows, listed, false, offset)
    ensures FixedProgress(rows, listed + Page(rows, limit, offset), offset + limit >= |rows|, offset + limit)
  {
    LengthIsSize(rows);
    assert Ordered(rows)[..] == Ordered(rows);
  }

  /** A row not listed so far is on this page, or far enough behind to be on a later one; on the
      last page it has nowhere left to be. */
  lemma PageProgress(snaps: seq<Snapshot>, limit: nat, offset: nat, k: nat, listed: seq<Id>)
    requires OnlyGrows(snaps) && k < |snaps|
    requires forall m | m in snaps[0].rows :: m in listed || Ranked(snaps[k].rows, m, offset)
    ensures var now := listed + Page(snaps[k].rows, limit, offset);
            forall m | m in snaps[0].rows && m !in now ::
              && offset + limit < |snaps[k].counted|
              && (k + 1 < |snaps| ==> Ranked(snaps[k + 1].rows, m, offset + limit))
  {
    var now := listed + Page(snaps[k].rows, limit, offset);
    var rows, counted := snaps[k].rows, snaps[k].counted;
    forall m | m in snaps[0].rows && m !in now
      ensures offset + limit < |counted|
      ensures k + 1 < |snaps| ==> Ranked(snaps[k + 1].rows, m, offset + limit)
    {
      assert Ranked(rows, m, offset);
      OnPage(rows, limit, offset, m);
      PlaceIsRank(rows, m);
      SizeGrows(rows, counted);
      if k + 1 < |snaps| {
        var next := snaps[k + 1].rows;
        assert Grown(snaps[k].counted, next);
        RankGrows(rows, next, m);
      }
    }
  }

  // ---- what the conditions are for ---------------------------------------------------------

  /** With the pages in front of the offset read from one table and those behind it from another,
      the row is on none of them, or on two. */
  predicate Skipped(rows: Rows, later: Rows, offset: nat, m: Id) {
    m in later && m !in Page(rows, offset, 0) && m !in Page(later, |later|, offset)
  }

  predicate Repeated(rows: Rows, later: Rows, offset: nat, m: Id) {
    m in Page(rows, offset, 0) && m in Page(later, |later|, offset)
  }

  lemma RankBelowSize(rows: Rows, m: Id)
    requires m in rows
    ensures Rank(rows, m) < |rows|
  {
    PlaceIsRank(rows, m);
  }

  lemma FrontAndBack(rows: Rows, offset: nat, m: Id)
    requires m in rows
    ensures m in Page(rows, offset, 0) <==> Rank(rows, m) < offset
    ensures m in Page(rows, |rows|, offset) <==> offset <= Rank(rows, m)
  {
    OnPage(rows, offset, 0, m);
    OnPage(rows, |rows|, offset, m);
    RankBelowSize(rows, m);
  }

  /** One row more in front of a row raises its rank by one. */
  lemma RankWithout(rows: Rows, d: Id, m: Id)
    requires d in rows && m in rows && m != d
    ensures m in rows - {d}
    ensures Rank(rows, m) == Rank(rows - {d}, m) + if Before(rows, d, m) then 1 else 0
  {
    var left := rows - {d};
    if Before(rows, d, m) {
      assert Ahead(rows, m) == Ahead(left, m) + {d};
    } else {
      assert Ahead(rows, m) == Ahead(left, m);
    }
  }

  lemma BeforeIsRank(rows: Rows, a: Id, b: Id)
    requires a in rows && b in rows && a != b
    ensures Before(rows, a, b) <==> Rank(rows, a) < Rank(rows, b)
    ensures Rank(rows, a) != Rank(rows, b)
  {
    PlaceIsRank(rows, a);
    PlaceIsRank(rows, b);
    if Rank(rows, a) < Rank(rows, b) {
      RankDecides(rows, a, b);
    } else {
      RankDecides(rows, b, a);
    }
  }

  /** Deleting a row between two pages makes the walk skip exactly the row at the offset, if the
      deleted one was in front of it. */
  lemma SkippedExactly(rows: Rows, d: Id, offset: nat, m: Id)
    requires d in rows && m in rows
    ensures Skipped(rows, rows - {d}, offset, m) <==>
            m != d && Rank(rows, d) < offset && Rank(rows, m) == offset
  {
    hide Page, Rank, Before;
    if m != d {
      RankWithout(rows, d, m);
      BeforeIsRank(rows, d, m);
      FrontAndBack(rows, offset, m);
      FrontAndBack(rows - {d}, offset, m);
    }
  }

  /** So a delete makes a walk skip something iff the deleted row was on a page already read and
      there was a row left to read. */
  lemma DeleteSkipsExactly(rows: Rows, d: Id, offset: nat)
    requires d in rows
    ensures var left := rows - {d};
            (exists m :: Skipped(rows, left, offset, m)) <==> Rank(rows, d) < offset < |rows|
  {
    hide Page, Rank, Skipped, Ordered;
    forall m | Skipped(rows, rows - {d}, offset, m)
      ensures Rank(rows, d) < offset < |rows|
    {
      SkippedIsLeft(rows, rows - {d}, offset, m);
      SkippedExactly(rows, d, offset, m);
      RankBelowSize(rows, m);
    }
    if Rank(rows, d) < offset < |rows| {
      LengthIsSize(rows);
      RankIsPlace(rows, offset);
      SkippedExactly(rows, d, offset, Ordered(rows)[offset]);
    }
  }

  lemma SkippedIsLeft(rows: Rows, later: Rows, offset: nat, m: Id)
    requires Skipped(rows, later, offset, m)
    ensures m in later
  {
  }

  /** Inserting a row between two pages makes the walk repeat exactly the last row in front of the
      offset, if the new one comes before that. */
  lemma RepeatedExactly(rows: Rows, x: Id, row: Message, offset: nat, m: Id)
    requires x !in rows && m in rows
    ensures Repeated(rows, rows[x := row], offset, m) <==>
            Rank(rows[x := row], x) < offset && Rank(rows, m) + 1 == offset
  {
    var more := rows[x := row];
    assert more - {x} == rows;
    hide Page, Rank, Before;
    RankWithout(more, x, m);
    BeforeIsRank(more, x, m);
    FrontAndBack(rows, offset, m);
    FrontAndBack(more, offset, m);
  }

  lemma InsertRepeatsExactly(rows: Rows, x: Id, row: Message, offset: nat)
    requires x !in rows
    ensures var more := rows[x := row];
            (exists m :: Repeated(rows, more, offset, m)) <==> Rank(more, x) < offset <= |rows|
  {
    var more := rows[x := row];
    hide Page, Rank, Repeated, Ordered;
    forall m | Repeated(rows, more, offset, m)
      ensures Rank(more, x) < offset <= |rows|
    {
      RepeatedWasThere(rows, more, offset, m);
      RepeatedExactly(rows, x, row, offset, m);
      RankBelowSize(rows, m);
    }
    if Rank(more, x) < offset <= |rows| {
      LengthIsSize(rows);
      RankIsPlace(rows, offset - 1);
      RepeatedExactly(rows, x, row, offset, Ordered(rows)[offset - 1]);
    }
  }

  lemma RepeatedWasThere(rows: Rows, later: Rows, offset: nat, m: Id)
    requires Repeated(rows, later, offset, m)
    ensures m in rows
  {
    PageIsOfRows(rows, offset, 0);
  }

  /** Deleting the first row, for one, makes every later page miss the first row of page two. */
  lemma DeleteSkips(rows: Rows, limit: nat, offset: nat)
    requires 1 <= limit < |rows| && offset >= limit
    ensures var all := Ordered(rows);
            var left := rows - {all[0]};
            && |all| == |rows| && all[limit] in left
            && all[limit] !in Page(rows, limit, 0)
            && all[limit] !in Page(left, limit, offset)
  {
    hide Page, Rank, Ordered;
    LengthIsSize(rows);
    RankIsPlace(rows, 0);
    RankIsPlace(rows, limit);
    var d, m := Ordered(rows)[0], Ordered(rows)[limit];
    SkippedExactly(rows, d, limit, m);
    FrontAndBack(rows - {d}, limit, m);
    OnPage(rows - {d}, limit, offset, m);
  }

  /** And a newer row makes page two repeat the last row of page one. */
  lemma InsertRepeats(rows: Rows, limit: nat, x: Id, row: Message)
    requires 1 <= limit <= |rows| && x !in rows && IsFirst(rows[x := row], x)
    ensures var all := Ordered(rows);
            && |all| == |rows|
            && all[limit - 1] in Page(rows, limit, 0)
            && all[limit - 1] in Page(rows[x := row], |rows| + 1, limit)
  {
    var more := rows[x := row];
    hide Page, Rank, Ordered, IsFirst;
    NewestRank(rows, x, row);
    LengthIsSize(rows);
    RankIsPlace(rows, limit - 1);
    RepeatedExactly(rows, x, row, limit, Ordered(rows)[limit - 1]);
  }

  lemma NewestRank(rows: Rows, x: Id, row: Message)
    requires x !in rows && IsFirst(rows[x := row], x)
    ensures Rank(rows[x := row], x) == 0 && |rows[x := row]| == |rows| + 1
  {
    FirstRanks(rows[x := row], x, x);
    assert rows[x := row].Keys == rows.Keys + {x};
  }
}
