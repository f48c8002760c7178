/** Keyset paging (apps/server/src/pagination.ts, as listObjects of apps/server/src/graph/objects-repo.ts
    uses it) and the client loop that drains a list (collectAll, packages/cli/src/estate-reader.ts). */
module Pagination {
  import opened Wrappers

  // Stored times have microseconds; `id` is the position of the tiebreak column in its own order.
  datatype Row = Row(micros: int, id: int, body: string)

  /** What rows are ordered and cursors cut by: the time truncated to milliseconds, then the id. */
  datatype Key = Key(ms: int, id: int)

  function KeyOf(r: Row): Key { Key(r.micros / 1000, r.id) }

  predicate Less(a: Key, b: Key) {
    a.ms < b.ms || (a.ms == b.ms && a.id < b.id)
  }

  /** The order of a list: by the millisecond stored, then by id. */
  predicate Before(a: Row, b: Row) {
    a.micros / 1000 < b.micros / 1000 || (a.micros / 1000 == b.micros / 1000 && a.id < b.id)
  }

  lemma BeforeIsLess(a: Row, b: Row)
    ensures Before(a, b) <==> Less(KeyOf(a), KeyOf(b))
  {
  }

  predicate After(k: Key, cursor: Option<Key>) {
    cursor.Some? ==> Less(cursor.value, k)
  }

  predicate DistinctIds(table: seq<Row>) {
    forall i, j :: 0 <= i < j < |table| ==> table[i].id != table[j].id
  }

  predicate Ordered(rows: seq<Row>) {
    forall i, j :: 0 <= i < j < |rows| ==> Less(KeyOf(rows[i]), KeyOf(rows[j]))
  }

  predicate HasKey(rows: seq<Row>, k: Key) {
    exists r :: r in rows && KeyOf(r) == k
  }

  // ---- the query ---------------------------------------------------------------------------------------

  function Insert(r: Row, rows: seq<Row>): seq<Row> {
    if rows == [] || Less(KeyOf(r), KeyOf(rows[0])) then [r] + rows else [rows[0]] + Insert(r, rows[1..])
  }

  /** The rows after the cursor, ordered by key. */
  function Select(table: seq<Row>, cursor: Option<Key>): seq<Row> {
    if table == [] then []
    else
      var rest := Select(table[1..], cursor);
      if After(KeyOf(table[0]), cursor) then Insert(table[0], rest) else rest
  }

  lemma {:induction false} InsertMember(r: Row, rows: seq<Row>, x: Row)
    ensures x in Insert(r, rows) <==> x == r || x in rows
  {
    if rows != [] && !Less(KeyOf(r), KeyOf(rows[0])) {
      InsertMember(r, rows[1..], x);
      assert rows == [rows[0]] + rows[1..];
    }
  }

  lemma {:induction false} InsertOrdered(r: Row, rows: seq<Row>)
    requires Ordered(rows) && !HasKey(rows, KeyOf(r))
    ensures Ordered(Insert(r, rows))
  {
    if rows != [] && !Less(KeyOf(r), KeyOf(rows[0])) {
      assert rows[0] in rows;
      InsertOrdered(r, rows[1..]);
      var tail := Insert(r, rows[1..]);
      forall i | 0 <= i < |tail| ensures Less(KeyOf(rows[0]), KeyOf(tail[i])) {
        InsertMember(r, rows[1..], tail[i]);
      }
    }
  }

  lemma {:induction false} SelectMember(table: seq<Row>, cursor: Option<Key>, x: Row)
    ensures x in Select(table, cursor) <==> x in table && After(KeyOf(x), cursor)
  {
    if table != [] {
      SelectMember(table[1..], cursor, x);
      InsertMember(table[0], Select(table[1..], cursor), x);
    }
  }

  lemma {:induction false} SelectOrdered(table: seq<Row>, cursor: Option<Key>)
    requires DistinctIds(table)
    ensures Ordered(Select(table, cursor))
  {
    if table != [] {
      SelectOrdered(table[1..], cursor);
      forall x | x in Select(table[1..], cursor) ensures KeyOf(x) != KeyOf(table[0]) {
        SelectMember(table[1..], cursor, x);
      }
      InsertOrderedIf(table[0], Select(table[1..], cursor));
    }
  }

  lemma InsertOrderedIf(r: Row, rows: seq<Row>)
    requires Ordered(rows) && forall x :: x in rows ==> KeyOf(x) != KeyOf(r)
    ensures Ordered(Insert(r, rows))
  {
    InsertOrdered(r, rows);
  }

  // ---- one page ------------------------------------------------------------------------------------------

  datatype Page = Page(items: seq<Row>, next: Option<Key>)

  /** One row beyond the limit is asked for; it is dropped and says there is more. */
  function ListPage(table: seq<Row>, cursor: Option<Key>, limit: nat): Page
    requires limit >= 1
  {
    var all := Select(table, cursor);
    var rows := if |all| > limit + 1 then all[..limit + 1] else all;
    if |rows| > limit then Page(rows[..limit], Some(KeyOf(rows[limit - 1]))) else Page(rows, None)
  }

  /** A page is in order, comes after its cursor, and leaves out nothing up to where it ends. */
  lemma PageIsPrefix(table: seq<Row>, cursor: Option<Key>, limit: nat)
    requires limit >= 1 && DistinctIds(table)
    ensures var p := ListPage(table, cursor, limit);
            && Ordered(p.items)
            && (forall i, j :: 0 <= i < j < |p.items| ==> Before(p.items[i], p.items[j]))
            && (forall r, last :: r in p.items && cursor == Some(KeyOf(last)) ==> Before(last, r))
            && |p.items| <= limit
            && (forall r :: r in p.items ==> r in table && After(KeyOf(r), cursor))
            && (forall r :: r in table && After(KeyOf(r), cursor) && (p.next.Some? ==> !After(KeyOf(r), p.next)) ==>
              r in p.items)
            && (p.next.Some? ==> p.items != [] && p.next == Some(KeyOf(p.items[|p.items| - 1])))
  {
    hide ListPage, Select, Ordered, After;
    PageInOrder(table, cursor, limit);
    PageOfSelected(table, cursor, limit);
    SelectOrdered(table, cursor);
    var p, all := ListPage(table, cursor, limit), Select(table, cursor);
    PrefixOrdered(all, |p.items|);
    forall r | r in p.items ensures r in table && After(KeyOf(r), cursor) {
      assert r in all;
      SelectMember(table, cursor, r);
    }
    forall r | r in table && After(KeyOf(r), cursor) && (p.next.Some? ==> !After(KeyOf(r), p.next))
      ensures r in p.items
    {
      SelectMember(table, cursor, r);
      NotAfterPage(table, cursor, limit, r);
    }
  }

  lemma PageInOrder(table: seq<Row>, cursor: Option<Key>, limit: nat)
    requires limit >= 1 && DistinctIds(table)
    ensures var items := ListPage(table, cursor, limit).items;
      && |items| <= limit
      && (forall i, j :: 0 <= i < j < |items| ==> Before(items[i], items[j]))
      && (forall r, last :: r in items && cursor == Some(KeyOf(last)) ==> Before(last, r))
  {
    hide Select, Before, KeyOf, Less;
    var items := ListPage(table, cursor, limit).items;
    SelectOrdered(table, cursor);
    PageOfSelected(table, cursor, limit);
    forall i, j | 0 <= i < j < |items| ensures Before(items[i], items[j]) {
      BeforeIsLess(items[i], items[j]);
    }
    forall r, last | r in items && cursor == Some(KeyOf(last)) ensures Before(last, r) {
      assert r in Select(table, cursor);
      SelectMember(table, cursor, r);
      BeforeIsLess(last, r);
    }
  }

  lemma PageOfSelected(table: seq<Row>, cursor: Option<Key>, limit: nat)
    requires limit >= 1
    ensures var p, all := ListPage(table, cursor, limit), Select(table, cursor);
      && |p.items| <= |all| && p.items == all[..|p.items|]
      && (p.next.None? ==> p.items == all)
      && (p.next.Some? ==> p.items != [] && p.next == Some(KeyOf(p.items[|p.items| - 1])))
  {
  }

  lemma PrefixOrdered(rows: seq<Row>, n: nat)
    requires Ordered(rows) && n <= |rows|
    ensures Ordered(rows[..n])
  {
  }

  lemma NotAfterPage(table: seq<Row>, cursor: Option<Key>, limit: nat, r: Row)
    requires limit >= 1 && r in Select(table, cursor) && Ordered(Select(table, cursor))
    requires var p := ListPage(table, cursor, limit); p.next.Some? ==> !After(KeyOf(r), p.next)
    ensures r in ListPage(table, cursor, limit).items
  {
    hide ListPage, Select, Ordered, KeyOf, Less;
    PageOfSelected(table, cursor, limit);
    var p, all := ListPage(table, cursor, limit), Select(table, cursor);
    var i :| 0 <= i < |all| && all[i] == r;
    NotLater(all, |p.items|, i);
    assert i < |p.items| && p.items[i] == all[i];
  }

  lemma NotLater(rows: seq<Row>, n: nat, i: nat)
    requires Ordered(rows) && n <= |rows| && i < |rows|
    ensures n == |rows| || (n > 0 && !Less(KeyOf(rows[n - 1]), KeyOf(rows[i]))) ==> i < n
  {
  }

  // ---- the loop ------------------------------------------------------------------------------------------

  function CountAfter(table: seq<Row>, cursor: Option<Key>): nat {
    if table == [] then 0
    else (if After(KeyOf(table[0]), cursor) then 1 else 0) + CountAfter(table[1..], cursor)
  }

  lemma {:induction false} CountShrinks(table: seq<Row>, cursor: Option<Key>, next: Key)
    requires After(next, cursor)
    ensures CountAfter(table, Some(next)) <= CountAfter(table, cursor)
    ensures HasKey(table, next) ==> CountAfter(table, Some(next)) < CountAfter(table, cursor)
  {
    if table != [] {
      CountShrinks(table[1..], cursor, next);
      if HasKey(table, next) && KeyOf(table[0]) != next {
        var r :| r in table && KeyOf(r) == next;
        assert r in table[1..];
      }
    }
  }

  predicate InSome(tables: seq<seq<Row>>, r: Row) {
    exists t :: t in tables && r in t
  }

  predicate Throughout(tables: seq<seq<Row>>, k: Key) {
    forall t :: t in tables ==> HasKey(t, k)
  }

  /** What has been collected when `cursor` is where to go on: in order, ending there, nothing made up,
      and every key that is there throughout up to that point. */
  ghost predicate Collected(tables: seq<seq<Row>>, all: seq<Row>, cursor: Option<Key>) {
    && Ordered(all)
    && (all == [] <==> cursor.None?)
    && (cursor.Some? ==> KeyOf(all[|all| - 1]) == cursor.value)
    && (forall r :: r in all ==> InSome(tables, r))
    && (forall k :: Throughout(tables, k) && !After(k, cursor) ==> HasKey(all, k))
  }

  /** Page after page, each read from the table as it then is: `tables` lists its states, the last one
      standing from there on. The loop ends; every row comes once, in order; nothing is made up; and
      a row that is there throughout is never skipped. On a table that does not change this is the
      table, sorted. */
  method CollectAll(tables: seq<seq<Row>>, limit: nat) returns (all: seq<Row>)
    requires tables != [] && limit >= 1 && forall t :: t in tables ==> DistinctIds(t)
    ensures Ordered(all) && forall i, j :: 0 <= i < j < |all| ==> Before(all[i], all[j])
    ensures forall r :: r in all ==> InSome(tables, r)
    ensures forall k :: Throughout(tables, k) ==> HasKey(all, k)
    ensures |tables| == 1 ==> forall r :: r in all <==> r in tables[0]
  {
    all := [];
    var cursor: Option<Key> := None;
    var n := 0;
    while true
      invariant Collected(tables, all, cursor)
      decreases |tables| - n, CountAfter(tables[|tables| - 1], cursor)
    {
      var table := if n < |tables| then tables[n] else tables[|tables| - 1];
      var page := ListPage(table, cursor, limit);
      PageCollected(tables, table, all, cursor, limit);
      all := all + page.items;
      if page.next.None? {
        break;
      }
      PageAdvances(table, cursor, limit);
      cursor := page.next;
      n := if n < |tables| then n + 1 else n;
    }
    if |tables| == 1 {
      SameRows(all, tables);
    }
    InOrder(all);
  }

  lemma InOrder(rows: seq<Row>)
    requires Ordered(rows)
    ensures forall i, j :: 0 <= i < j < |rows| ==> Before(rows[i], rows[j])
  {
    forall i, j | 0 <= i < j < |rows| ensures Before(rows[i], rows[j]) {
      BeforeIsLess(rows[i], rows[j]);
    }
  }

  lemma PageAdvances(table: seq<Row>, cursor: Option<Key>, limit: nat)
    requires limit >= 1 && DistinctIds(table)
    ensures var p := ListPage(table, cursor, limit); p.next.Some? ==>
      CountAfter(table, p.next) < CountAfter(table, cursor)
  {
    PageIsPrefix(table, cursor, limit);
    var p := ListPage(table, cursor, limit);
    if p.next.Some? {
      assert p.items[|p.items| - 1] in p.items;
      CountShrinks(table, cursor, p.next.value);
    }
  }

  lemma PageCollected(tables: seq<seq<Row>>, table: seq<Row>, all: seq<Row>, cursor: Option<Key>, limit: nat)
    requires limit >= 1 && DistinctIds(table) && table in tables && Collected(tables, all, cursor)
    ensures var p := ListPage(table, cursor, limit);
            && Ordered(all + p.items)
            && (forall r :: r in all + p.items ==> InSome(tables, r))
            && (forall k :: Throughout(tables, k) && (p.next.Some? ==> !After(k, p.next)) ==> HasKey(all + p.items, k))
            && (p.next.Some? ==> Collected(tables, all + p.items, p.next))
  {
    var p := ListPage(table, cursor, limit);
    PageIsPrefix(table, cursor, limit);
    Joined(all, p, cursor);
    forall k | Throughout(tables, k) && (p.next.Some? ==> !After(k, p.next)) ensures HasKey(all + p.items, k) {
      Reached(all, table, p, cursor, k);
    }
  }

  lemma Joined(before: seq<Row>, page: Page, cursor: Option<Key>)
    requires Ordered(before) && Ordered(page.items)
    requires before == [] <==> cursor.None?
    requires cursor.Some? ==> KeyOf(before[|before| - 1]) == cursor.value
    requires forall r :: r in page.items ==> After(KeyOf(r), cursor)
    ensures Ordered(before + page.items)
  {
    var all := before + page.items;
    forall i, j | 0 <= i < j < |all| ensures Less(KeyOf(all[i]), KeyOf(all[j])) {
      if i < |before| <= j {
        assert all[j] in page.items;
        assert i == |before| - 1 || Less(KeyOf(all[i]), cursor.value);
      }
    }
  }

  lemma Reached(before: seq<Row>, table: seq<Row>, page: Page, cursor: Option<Key>, k: Key)
    requires HasKey(table, k)
    requires !After(k, cursor) ==> HasKey(before, k)
    requires forall r ::
      r in table && After(KeyOf(r), cursor) && (page.next.Some? ==> !After(KeyOf(r), page.next)) ==> r in page.items
    requires page.next.Some? ==> !After(k, page.next)
    ensures HasKey(before + page.items, k)
  {
    if After(k, cursor) {
      var r :| r in table && KeyOf(r) == k;
      assert r in before + page.items;
    } else {
      var r :| r in before && KeyOf(r) == k;
      assert r in before + page.items;
    }
  }

  lemma SameRows(all: seq<Row>, tables: seq<seq<Row>>)
    requires |tables| == 1 && DistinctIds(tables[0])
    requires forall r :: r in all ==> InSome(tables, r)
    requires forall k :: Throughout(tables, k) ==> HasKey(all, k)
    ensures forall r :: r in all <==> r in tables[0]
  {
    forall r | r in tables[0] ensures r in all {
      assert Throughout(tables, KeyOf(r));
      var s :| s in all && KeyOf(s) == KeyOf(r);
      assert InSome(tables, s);
    }
  }
}
