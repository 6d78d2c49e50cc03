/** Pages of the timeline and of the change log, and the client loops that
    follow their cursors to the end. */
module Paging {
  import opened Types

  function Clamp(n: int, low: int, high: int): int {
    if n < low then low else if n > high then high else n
  }

  // ----- the timeline ---------------------------------------------------------------------

  datatype Row = Row(createdMs: int, id: Id)

  /** The order of the listing: newest first, then by descending id. */
  predicate Precedes(a: Row, b: Row) {
    a.createdMs > b.createdMs || (a.createdMs == b.createdMs && a.id > b.id)
  }

  ghost predicate Ordered(rows: seq<Row>) {
    forall i, j :: 0 <= i < j < |rows| ==> Precedes(rows[i], rows[j])
  }

  /** The assets a filter lets through, by id. */
  type Assets = map<Id, int>

  predicate Shows(assets: Assets, row: Row) {
    row.id in assets && assets[row.id] == row.createdMs
  }

  predicate After(cursor: Option<Row>, row: Row) {
    cursor.None? || Precedes(cursor.value, row)
  }

  /** The whole filtered list, each asset once, in order. */
  ghost predicate Listing(assets: Assets, rows: seq<Row>) {
    Ordered(rows) && forall row :: row in rows <==> Shows(assets, row)
  }

  /** What the query selects: the first `n` rows after the cursor. */
  ghost predicate Selects(assets: Assets, cursor: Option<Row>, n: nat, rows: seq<Row>) {
    && Ordered(rows) && |rows| <= n
    && (forall row :: row in rows ==> Shows(assets, row) && After(cursor, row))
    && (forall row :: Shows(assets, row) && After(cursor, row) && row !in rows ==>
          |rows| == n && forall k :: 0 <= k < n ==> Precedes(rows[k], row))
  }

  lemma {:induction false} SameRowsSameOrder(a: seq<Row>, b: seq<Row>)
    requires Ordered(a) && Ordered(b) && forall row :: row in a <==> row in b
    ensures a == b
  {
    assert a != [] ==> a[0] in b;
    assert b != [] ==> b[0] in a;
    if a != [] {
      assert a[0] == b[0];
      assert a == [a[0]] + a[1..] && b == [b[0]] + b[1..];
      forall row ensures row in a[1..] <==> row in a && row != a[0] {
      }
      forall row ensures row in b[1..] <==> row in b && row != b[0] {
      }
      SameRowsSameOrder(a[1..], b[1..]);
    }
  }

  /** The listing is determined by the assets. */
  lemma ListingIsUnique(assets: Assets, a: seq<Row>, b: seq<Row>)
    requires Listing(assets, a) && Listing(assets, b)
    ensures a == b
  {
    SameRowsSameOrder(a, b);
  }

  /** ORDER BY ... LIMIT n, one row at a time. */
  method Query(assets: Assets, cursor: Option<Row>, n: nat) returns (rows: seq<Row>)
    ensures Selects(assets, cursor, n, rows)
  {
    rows := [];
    var rest := set id | id in assets && After(cursor, Row(assets[id], id)) :: Row(assets[id], id);
    while rest != {} && |rows| < n
      invariant Ordered(rows) && |rows| <= n
      invariant forall row :: row in rows ==> Shows(assets, row) && After(cursor, row)
      invariant forall row :: row in rest <==> Shows(assets, row) && After(cursor, row) && row !in rows
      invariant forall k, row :: 0 <= k < |rows| && row in rest ==> Precedes(rows[k], row)
      decreases |rest|
    {
      var first := First(rest);
      assert forall row :: row in rows + [first] <==> row in rows || row == first;
      rows := rows + [first];
      rest := rest - {first};
    }
  }

  method First(rows: set<Row>) returns (first: Row)
    requires rows != {}
    ensures first in rows && forall row :: row in rows && row != first ==> Precedes(first, row)
  {
    first :| first in rows;
    var rest := rows - {first};
    while rest != {}
      invariant rest <= rows && first in rows
      invariant forall row :: row in rows && row !in rest ==> row == first || Precedes(first, row)
      decreases |rest|
    {
      var row :| row in rest;
      rest := rest - {row};
      if Precedes(row, first) {
        first := row;
      }
    }
  }

  function Distance(a: int, b: int): int {
    if a < b then b - a else a - b
  }

  /** The size of a page: what is allowed that is nearest to what was asked for,
      or a default. */
  function PageSize(limit: Option<int>, standard: int, most: int): (size: int)
    requires 1 <= standard <= most
    ensures 1 <= size <= most
  {
    Clamp(if limit.Some? then limit.value else standard, 1, most)
  }

  lemma PageSizeIsNearest(limit: Option<int>, standard: int, most: int, n: int)
    requires 1 <= standard <= most && 1 <= n <= most
    ensures limit.None? ==> PageSize(limit, standard, most) == standard
    ensures limit.Some? ==> Distance(PageSize(limit, standard, most), limit.value) <= Distance(n, limit.value)
  {
  }

  /** By time and id alone: later assets come first, and of one time those of
      greater id. */
  ghost predicate NewestFirst(rows: seq<Row>) {
    (forall i, j :: 0 <= i < j < |rows| ==> rows[j].createdMs <= rows[i].createdMs)
    && forall i, j :: 0 <= i < j < |rows| && rows[i].createdMs == rows[j].createdMs ==> rows[j].id < rows[i].id
  }

  datatype TimelinePage = TimelinePage(items: seq<Row>, next: Option<Row>)

  /** `timeline`: one row more than the page is asked for, to know if there is
      another. */
  method Timeline(assets: Assets, cursor: Option<Row>, limit: Option<int>) returns (page: TimelinePage)
    ensures |page.items| <= PageSize(limit, 100, 250) && Selects(assets, cursor, |page.items|, page.items)
    ensures NewestFirst(page.items)
    ensures page.next.Some? ==> |page.items| == PageSize(limit, 100, 250)
    ensures page.next.Some? && limit.Some? && 1 <= limit.value <= 250 ==> |page.items| == limit.value
    ensures page.next.Some? && limit.None? ==> |page.items| == 100
    ensures page.next.Some? ==> page.items != [] && page.next.value == page.items[|page.items| - 1]
    ensures page.next.None? <==> forall row :: Shows(assets, row) && After(cursor, row) ==> row in page.items
  {
    var n := PageSize(limit, 100, 250);
    var rows := Query(assets, cursor, n + 1);
    var more := |rows| > n;
    var items := if more then rows[..n] else rows;
    if more {
      assert rows[n] in rows && rows[n] !in items;
      assert rows == items + [rows[n]];
      assert forall k :: 0 <= k < n ==> items[k] == rows[k];
      assert forall row :: row in rows <==> row in items || row == rows[n];
    }
    page := TimelinePage(items, if more then Some(items[n - 1]) else None);
  }

  /** The client's loop: whatever page sizes the server uses, it collects the
      whole listing, each asset once, and its check of the cursor never fails. */
  method FetchTimeline(assets: Assets, limits: nat -> Option<int>) returns (result: seq<Row>)
    ensures Listing(assets, result) && NewestFirst(result)
  {
    result := [];
    var cursor: Option<Row> := None;
    var turn := 0;
    var more := true;
    ghost var left := set id | id in assets :: Row(assets[id], id);
    while more
      invariant Ordered(result) && forall row :: row in result ==> Shows(assets, row)
      invariant cursor.None? ==> result == []
      invariant cursor.Some? ==> result != [] && cursor.value == result[|result| - 1]
      invariant forall row :: row in left <==> Shows(assets, row) && row !in result
      invariant forall row :: row in left <==> Shows(assets, row) && After(cursor, row)
      invariant !more ==> left == {}
      decreases more, |left|
    {
      var page := Timeline(assets, cursor, limits(turn));
      turn := turn + 1;
      ghost var was := left;
      left := set row | row in left && row !in page.items;
      PageTaken(assets, result, was, left, cursor, page);
      result := result + page.items;
      cursor := page.next;
      more := cursor.Some?;
      if !more {
        assert left == {};
        break;
      }
    }
  }

  /** What the client has, is left with, and turns to, after one page. */
  lemma PageTaken(assets: Assets, result: seq<Row>, was: set<Row>, left: set<Row>, cursor: Option<Row>,
                  page: TimelinePage)
    requires Ordered(result) && forall row :: row in result ==> Shows(assets, row)
    requires cursor.None? ==> result == []
    requires cursor.Some? ==> result != [] && cursor.value == result[|result| - 1]
    requires forall row :: row in was <==> Shows(assets, row) && row !in result
    requires forall row :: row in was <==> Shows(assets, row) && After(cursor, row)
    requires forall row :: row in left <==> row in was && row !in page.items
    requires Selects(assets, cursor, |page.items|, page.items)
    requires page.next.Some? ==> page.items != [] && page.next.value == page.items[|page.items| - 1]
    requires page.next.None? ==> forall row :: Shows(assets, row) && After(cursor, row) ==> row in page.items
    ensures Ordered(result + page.items)
    ensures forall row :: row in result + page.items <==> row in result || row in page.items
    ensures page.next.None? ==> left == {}
    ensures page.next.Some? ==> |left| < |was|
    ensures page.next.Some? ==> forall row :: row in left <==> Shows(assets, row) && After(page.next, row)
  {
    LastPrecedes(assets, result, cursor, page.items);
    if page.next.Some? {
      var last := page.next.value;
      assert last in page.items && After(cursor, last);
      assert last in was && last !in left;
      Fewer(left, was);
      forall row ensures row in left <==> Shows(assets, row) && After(page.next, row) {
        if row in page.items {
          var k :| 0 <= k < |page.items| && page.items[k] == row;
        }
      }
    }
  }

  lemma Fewer(a: set<Row>, b: set<Row>)
    requires a < b
    ensures |a| < |b|
  {
    assert b == a + (b - a);
  }

  /** A page after the cursor continues the order. */
  lemma LastPrecedes(assets: Assets, before: seq<Row>, cursor: Option<Row>, items: seq<Row>)
    requires Ordered(before) && Ordered(items)
    requires cursor.None? ==> before == []
    requires cursor.Some? ==> before != [] && cursor.value == before[|before| - 1]
    requires forall row :: row in items ==> After(cursor, row)
    ensures Ordered(before + items)
  {
    var all := before + items;
    forall i, j | 0 <= i < j < |all| ensures Precedes(all[i], all[j]) {
      if i < |before| <= j {
        assert all[j] in items && After(cursor, all[j]);
      }
    }
  }

  // ----- the change log ----------------------------------------------------------------------

  datatype Change = Change(sequence: int, entity: string, operation: string)

  /** Rows of an AUTOINCREMENT table: sequence numbers only grow. */
  ghost predicate LogOk(log: seq<Change>) {
    forall i, j :: 0 <= i < j < |log| ==> log[i].sequence < log[j].sequence
  }

  /** How many events a cursor has left behind. */
  function Passed(log: seq<Change>, cursor: int): (n: nat)
    ensures n <= |log|
  {
    if log == [] || log[0].sequence > cursor then 0 else 1 + Passed(log[1..], cursor)
  }

  lemma {:induction false} PassedSplits(log: seq<Change>, cursor: int, n: nat)
    requires LogOk(log) && n <= |log|
    requires forall i :: 0 <= i < n ==> log[i].sequence <= cursor
    requires n < |log| ==> log[n].sequence > cursor
    ensures Passed(log, cursor) == n
  {
    if n > 0 {
      PassedSplits(log[1..], cursor, n - 1);
    }
  }

  lemma {:induction false} PassedBelow(log: seq<Change>, cursor: int, i: nat)
    requires LogOk(log) && i < |log|
    ensures i < Passed(log, cursor) <==> log[i].sequence <= cursor
    decreases |log|
  {
    if log[0].sequence > cursor {
      assert i > 0 ==> log[0].sequence < log[i].sequence;
    } else if i > 0 {
      PassedBelow(log[1..], cursor, i - 1);
    }
  }

  datatype SyncPage = SyncPage(events: seq<Change>, next: int, more: bool)

  /** `sync_changes`: the events after a cursor, a page of them, and whether
      there are others. */
  method SyncChanges(log: seq<Change>, after: int, limit: Option<int>) returns (page: Option<SyncPage>)
    requires LogOk(log)
    ensures page.None? <==> after < 0
    ensures page.Some? && page.value.more && limit.Some? && 1 <= limit.value <= 1000 ==>
      |page.value.events| == limit.value
    ensures page.Some? && page.value.more && limit.None? ==> |page.value.events| == 250
    ensures page.Some? ==>
      page.value.next >= after && |page.value.events| <= PageSize(limit, 250, 1000)
      && Passed(log, after) <= Passed(log, page.value.next)
      && page.value.events == log[Passed(log, after)..Passed(log, page.value.next)]
      && (page.value.more <==> Passed(log, page.value.next) < |log|)
      && (page.value.more ==> |page.value.events| == PageSize(limit, 250, 1000))
      && page.value.next == (if page.value.events == [] then after
                             else page.value.events[|page.value.events| - 1].sequence)
  {
    if after < 0 {
      return None;
    }
    var n := PageSize(limit, 250, 1000);
    var start := 0;
    while start < |log| && log[start].sequence <= after
      invariant start <= |log| && forall i :: 0 <= i < start ==> log[i].sequence <= after
    {
      start := start + 1;
    }
    PassedSplits(log, after, start);
    var more := |log| - start > n;
    var end := if more then start + n else |log|;
    var events := log[start..end];
    var next := if events == [] then after else events[|events| - 1].sequence;
    if events != [] {
      assert log[end - 1].sequence == next;
    }
    PassedSplits(log, next, end);
    return Some(SyncPage(events, next, more));
  }

  /** The client's loop, with events appended between its requests: at turn `k`
      the server shows the first `visible(k)` of them. It delivers every event
      between its old cursor and its new one, once each and in order, and
      misses none that the last page could see. */
  method AdvanceSync(log: seq<Change>, visible: nat -> nat, limits: nat -> Option<int>, initial: nat)
    returns (sequence: nat, delivered: seq<Change>, turns: nat)
    requires LogOk(log)
    requires forall a: nat, b: nat :: a <= b ==> visible(a) <= visible(b) <= |log|
    ensures sequence >= initial && Passed(log, initial) <= Passed(log, sequence)
    ensures delivered == log[Passed(log, initial)..Passed(log, sequence)]
    ensures 0 < turns && visible(turns - 1) <= Passed(log, sequence)
  {
    hide LogOk, Passed;
    sequence, delivered, turns := initial, [], 0;
    var more := true;
    while more
      invariant sequence >= initial && Passed(log, initial) <= Passed(log, sequence)
      invariant delivered == log[Passed(log, initial)..Passed(log, sequence)]
      invariant !more ==> 0 < turns && visible(turns - 1) <= Passed(log, sequence)
      decreases more, |log| - Passed(log, sequence)
    {
      var page := SyncTurn(log, visible(turns), sequence, limits(turns));
      turns := turns + 1;
      delivered := delivered + page.events;
      sequence := page.next;
      more := page.more;
    }
  }

  /** One request, while the server shows the first `n` events. */
  method SyncTurn(log: seq<Change>, n: nat, after: nat, limit: Option<int>) returns (page: SyncPage)
    requires LogOk(log) && n <= |log|
    ensures page.next >= after && Passed(log, after) <= Passed(log, page.next)
    ensures page.events == log[Passed(log, after)..Passed(log, page.next)]
    ensures if page.more then Passed(log, after) < Passed(log, page.next) else n <= Passed(log, page.next)
  {
    var answer := SyncChanges(log[..n], after, limit);
    page := answer.value;
    NextIsPassed(log, n, after, page.next, page.events);
    PassedInPrefix(log, n, page.next);
  }

  /** What a cursor has passed of a prefix of the log. */
  lemma {:induction false} PassedInPrefix(log: seq<Change>, n: nat, cursor: int)
    requires LogOk(log) && n <= |log|
    ensures Passed(log[..n], cursor) == if Passed(log, cursor) < n then Passed(log, cursor) else n
    decreases |log|
  {
    if n > 0 && log[0].sequence <= cursor {
      PassedInPrefix(log[1..], n - 1, cursor);
      assert log[..n][1..] == log[1..][..n - 1];
    }
  }

  /** A new cursor is the last event of its page, so the whole log agrees on
      what it has passed. */
  lemma NextIsPassed(log: seq<Change>, n: nat, after: int, next: int, events: seq<Change>)
    requires LogOk(log) && n <= |log| && after <= next
    requires Passed(log[..n], after) <= Passed(log[..n], next)
    requires events == log[..n][Passed(log[..n], after)..Passed(log[..n], next)]
    requires if events == [] then next == after else next == events[|events| - 1].sequence
    ensures Passed(log, after) <= Passed(log, next)
    ensures events == log[Passed(log, after)..Passed(log, next)]
  {
    PassedInPrefix(log, n, after);
    PassedInPrefix(log, n, next);
    if events != [] {
      var end := Passed(log[..n], next);
      assert log[end - 1].sequence == next;
      PassedSplits(log, next, end);
    }
  }
}
