/**
 Listing traces over the index and the summaries still in memory, page by page, as if they were one sorted list.

 The index is a table of rows with one row per trace; trace ids are compared by a total order and are modelled as
 integers. `Reference` is the simple list; `List` is the reader, which fetches only part of the table, and then reads
 the rows of the traces in memory one by one, while transactions may commit in between.
 */
module TraceReader {
  import opened Options

  type TraceID = int
  datatype Kind = Flow | Mcp | ContextKind | StepKind
  datatype Outcome = Succeeded | Errored | Interrupted

  /** A trace summary, as far as listing looks at it. `text` is its search text. */
  datatype Row = Row(
    id: TraceID, start: int, revision: nat, kind: Kind, active: bool, outcome: Option<Outcome>, text: string)

  datatype Cursor = Cursor(start: int, id: TraceID)

  /** `outcome` is absent when not filtered on; it can also ask for traces without an outcome. */
  datatype Params = Params(
    kind: Option<Kind>, active: Option<bool>, outcome: Option<Option<Outcome>>, name: Option<string>,
    since: Option<int>, until: Option<int>, limit: int, cursor: Option<Cursor>)

  datatype Page = Page(traces: seq<Row>, cursor: Option<Cursor>)
  datatype Result = Listed(page: Page) | RangeError

  predicate PartAt(text: string, part: string, i: nat) {
    i + |part| <= |text| && text[i..i + |part|] == part
  }

  predicate Contains(text: string, part: string) {
    exists i: nat :: i <= |text| && PartAt(text, part, i)
  }

  predicate Matches(r: Row, p: Params) {
    && (p.kind.Some? ==> r.kind == p.kind.value)
    && (p.active.Some? ==> r.active == p.active.value)
    && (p.outcome.Some? ==> r.outcome == p.outcome.value)
    && (p.name.Some? ==> Contains(r.text, p.name.value))
    && (p.since.Some? ==> r.start >= p.since.value)
    && (p.until.Some? ==> r.start <= p.until.value)
  }

  predicate After(cursor: Option<Cursor>, r: Row) {
    cursor.Some? ==> r.start < cursor.value.start || (r.start == cursor.value.start && r.id < cursor.value.id)
  }

  predicate Selected(p: Params, r: Row) {
    Matches(r, p) && After(p.cursor, r)
  }

  /** The list order: newest start first, then greatest id. */
  predicate Before(a: Row, b: Row) {
    a.start > b.start || (a.start == b.start && a.id > b.id)
  }

  function Filter(rows: seq<Row>, p: Params): (r: seq<Row>)
    ensures forall x :: x in r <==> x in rows && Selected(p, x)
  {
    if rows == [] then []
    else (if Selected(p, rows[0]) then [rows[0]] else []) + Filter(rows[1..], p)
  }

  function Insert(sorted: seq<Row>, r: Row): (q: seq<Row>)
    ensures forall x :: x in q <==> x in sorted || x == r
  {
    if sorted == [] || Before(r, sorted[0]) then [r] + sorted
    else [sorted[0]] + Insert(sorted[1..], r)
  }

  function Sort(rows: seq<Row>): (q: seq<Row>)
    ensures forall x :: x in q <==> x in rows
  {
    if rows == [] then [] else Insert(Sort(rows[1..]), rows[0])
  }

  function Take(rows: seq<Row>, n: nat): seq<Row> {
    if n <= |rows| then rows[..n] else rows
  }

  function CursorOf(r: Row): Cursor {
    Cursor(r.start, r.id)
  }

  // ----- The index and the simple list

  /** The first `limit` selected rows of the table, in list order. */
  function IndexList(table: seq<Row>, p: Params, limit: nat): seq<Row> {
    Take(Sort(Filter(table, p)), limit)
  }

  function Get(table: seq<Row>, id: TraceID): (r: Option<Row>)
    ensures r.Some? ==> r.value in table && r.value.id == id
    ensures r.None? ==> forall x :: x in table ==> x.id != id
  {
    if table == [] then None
    else if table[0].id == id then Some(table[0])
    else Get(table[1..], id)
  }

  /** The first page of a list, with a cursor when more remain. */
  function PageOf(rows: seq<Row>, limit: nat): Page
    requires limit > 0
  {
    Page(Take(rows, limit), if |rows| > limit then Some(CursorOf(rows[limit - 1])) else None)
  }

  ghost predicate UniqueIDs(rows: seq<Row>) {
    forall i, j :: 0 <= i < j < |rows| ==> rows[i].id != rows[j].id
  }

  /** Equal revisions of a trace are the same summary. */
  ghost predicate Agreeing(table: seq<Row>, memory: seq<Row>) {
    forall r, m :: r in table && m in memory && r.id == m.id && r.revision == m.revision ==> r == m
  }

  /** What the recorder and its index owe the reader. */
  ghost predicate Consistent(table: seq<Row>, memory: seq<Row>) {
    UniqueIDs(table) && UniqueIDs(memory) && Agreeing(table, memory)
  }

  ghost predicate Newest(table: seq<Row>, memory: seq<Row>, r: Row) {
    (r in table || r in memory) && forall q :: (q in table || q in memory) && q.id == r.id ==> q.revision <= r.revision
  }

  ghost predicate Sorted(rows: seq<Row>) {
    forall i, j :: 0 <= i < j < |rows| ==> Before(rows[i], rows[j])
  }

  /** `all` is the sorted list of the newest revisions that are selected. */
  ghost predicate Lists(all: seq<Row>, table: seq<Row>, memory: seq<Row>, p: Params) {
    Sorted(all) && forall r :: r in all <==> Newest(table, memory, r) && Selected(p, r)
  }

  /** The whole list, without paging. `ReferenceExists` builds it, and `SortedSame` says there is only one. */
  ghost function Reference(table: seq<Row>, memory: seq<Row>, p: Params): (all: seq<Row>)
    requires Consistent(table, memory)
    ensures Lists(all, table, memory, p)
  {
    ReferenceExists(table, memory, p);
    var all :| Lists(all, table, memory, p);
    all
  }

  // ----- The reader

  /** Sets the entry of a trace, keeping its place, when it has none or an older revision. */
  function Put(entries: seq<Row>, r: Row): seq<Row> {
    if entries == [] then [r]
    else if entries[0].id == r.id then
      if r.revision > entries[0].revision then [r] + entries[1..] else entries
    else [entries[0]] + Put(entries[1..], r)
  }

  /** All of `rows` put in turn. */
  function PutAll(entries: seq<Row>, rows: seq<Row>): seq<Row> {
    if rows == [] then entries else Put(PutAll(entries, rows[..|rows| - 1]), rows[|rows| - 1])
  }

  function Found(rows: seq<Option<Row>>): seq<Row> {
    if rows == [] then []
    else Found(rows[..|rows| - 1]) + if rows[|rows| - 1].Some? then [rows[|rows| - 1].value] else []
  }

  // ----- Sorting

  /** Rows for the same trace are the same row. */
  ghost predicate OnePerID(rows: seq<Row>) {
    forall a, b :: a in rows && b in rows && a.id == b.id ==> a == b
  }

  lemma UniqueIsOnePerID(rows: seq<Row>)
    requires UniqueIDs(rows)
    ensures OnePerID(rows)
  {
  }

  lemma {:induction false} InsertSorts(sorted: seq<Row>, r: Row)
    requires Sorted(sorted) && forall x :: x in sorted ==> x.id != r.id
    ensures Sorted(Insert(sorted, r))
  {
    if sorted != [] && !Before(r, sorted[0]) {
      var tail := sorted[1..];
      assert forall x :: x in tail ==> x in sorted;
      InsertSorts(tail, r);
      forall x | x in Insert(tail, r) ensures Before(sorted[0], x) {
        if x in tail {
          var k :| 0 <= k < |tail| && tail[k] == x;
          assert x == sorted[k + 1];
        }
      }
    }
  }

  lemma {:induction false} SortSorts(rows: seq<Row>)
    requires UniqueIDs(rows)
    ensures Sorted(Sort(rows))
  {
    if rows != [] {
      HeadIsUnique(rows);
      SortSorts(rows[1..]);
      InsertSorts(Sort(rows[1..]), rows[0]);
    }
  }

  lemma HeadIsUnique(rows: seq<Row>)
    requires UniqueIDs(rows) && rows != []
    ensures UniqueIDs(rows[1..])
    ensures forall x :: x in rows[1..] ==> x.id != rows[0].id
  {
    forall x | x in rows[1..] ensures x.id != rows[0].id {
      var k :| 0 <= k < |rows[1..]| && rows[1..][k] == x;
      assert x == rows[k + 1];
    }
  }

  lemma {:induction false} FilterUnique(rows: seq<Row>, p: Params)
    requires UniqueIDs(rows)
    ensures UniqueIDs(Filter(rows, p))
  {
    if rows != [] {
      HeadIsUnique(rows);
      FilterUnique(rows[1..], p);
    }
  }

  lemma PrefixStep(part: seq<Row>, whole: seq<Row>, n: nat)
    requires Sorted(part) && Sorted(whole) && n < |whole| && n <= |part| && part[..n] == whole[..n]
    requires forall x :: x in part ==> x in whole
    requires whole[n] in part
    ensures n < |part| && part[n] == whole[n]
  {
    forall i | 0 <= i < n ensures part[i] != whole[n] && part[i] == whole[i] {
      assert part[..n][i] == whole[..n][i];
      assert Before(whole[i], whole[n]);
    }
    var j :| 0 <= j < |part| && part[j] == whole[n];
    assert part[n] in part;
    forall i | 0 <= i < n ensures whole[i] != part[n] { assert Before(part[i], part[n]); }
    var i :| 0 <= i < |whole| && whole[i] == part[n];
    assert j > n ==> Before(part[n], part[j]);
    assert i > n ==> Before(whole[n], whole[i]);
  }

  /** A sorted list inside another that holds its first `n` elements starts with them. */
  lemma {:induction false} SortedPrefix(part: seq<Row>, whole: seq<Row>, n: nat)
    requires Sorted(part) && Sorted(whole) && n <= |whole|
    requires forall x :: x in part ==> x in whole
    requires forall k :: 0 <= k < n ==> whole[k] in part
    ensures n <= |part| && part[..n] == whole[..n]
  {
    if n > 0 {
      SortedPrefix(part, whole, n - 1);
      PrefixStep(part, whole, n - 1);
      assert part[..n] == part[..n - 1] + [part[n - 1]] && whole[..n] == whole[..n - 1] + [whole[n - 1]];
    }
  }

  // ----- Counting

  ghost function IDs(rows: seq<Row>): set<TraceID> {
    set i | 0 <= i < |rows| :: rows[i].id
  }

  lemma {:induction false} CountIDs(rows: seq<Row>)
    ensures |IDs(rows)| <= |rows|
    ensures UniqueIDs(rows) ==> |IDs(rows)| == |rows|
  {
    if rows != [] {
      var last := |rows| - 1;
      CountIDs(rows[..last]);
      assert IDs(rows) == IDs(rows[..last]) + {rows[last].id};
    }
  }

  lemma CountWithin(rows: seq<Row>, a: seq<Row>, b: seq<Row>)
    requires Sorted(rows) && OnePerID(rows) && IDs(rows) <= IDs(a) + IDs(b)
    ensures |rows| <= |a| + |b|
  {
    forall i, j | 0 <= i < j < |rows| ensures rows[i].id != rows[j].id {
      assert Before(rows[i], rows[j]);
      assert rows[i] in rows && rows[j] in rows;
    }
    CountIDs(rows);
    CountIDs(a);
    CountIDs(b);
    CardinalityWithin(IDs(rows), IDs(a) + IDs(b));
  }

  lemma CardinalityWithin(small: set<TraceID>, big: set<TraceID>)
    requires small <= big
    ensures |small| <= |big|
  {
    assert big == small + (big - small);
  }

  // ----- The simple list

  /** The rows of `rows` that no row of `others` for the same trace beats. */
  function Unbeaten(rows: seq<Row>, others: seq<Row>, ties: bool): (r: seq<Row>)
    ensures forall x :: x in r <==> x in rows && !Beaten(x, others, ties)
  {
    if rows == [] then []
    else (if Beaten(rows[0], others, ties) then [] else [rows[0]]) + Unbeaten(rows[1..], others, ties)
  }

  predicate Beaten(x: Row, others: seq<Row>, ties: bool) {
    exists y :: y in others && y.id == x.id && (y.revision > x.revision || (ties && y.revision == x.revision))
  }

  lemma {:induction false} UnbeatenUnique(rows: seq<Row>, others: seq<Row>, ties: bool)
    requires UniqueIDs(rows)
    ensures UniqueIDs(Unbeaten(rows, others, ties))
  {
    if rows != [] {
      HeadIsUnique(rows);
      UnbeatenUnique(rows[1..], others, ties);
    }
  }

  lemma UniqueTogether(a: seq<Row>, b: seq<Row>)
    requires UniqueIDs(a) && UniqueIDs(b) && forall x, y :: x in a && y in b ==> x.id != y.id
    ensures UniqueIDs(a + b)
  {
    forall i, j | 0 <= i < j < |a + b| ensures (a + b)[i].id != (a + b)[j].id {
      if i < |a| <= j { assert a[i] in a && b[j - |a|] in b; }
    }
  }

  lemma UnbeatenAreNewest(table: seq<Row>, memory: seq<Row>, r: Row)
    requires Consistent(table, memory)
    ensures r in Unbeaten(table, memory, false) + Unbeaten(memory, table, true) <==> Newest(table, memory, r)
  {
    UniqueIsOnePerID(table);
    UniqueIsOnePerID(memory);
  }

  lemma ReferenceExists(table: seq<Row>, memory: seq<Row>, p: Params)
    requires Consistent(table, memory)
    ensures exists all :: Lists(all, table, memory, p)
  {
    var stored, kept := Unbeaten(table, memory, false), Unbeaten(memory, table, true);
    UnbeatenUnique(table, memory, false);
    UnbeatenUnique(memory, table, true);
    UniqueTogether(stored, kept);
    FilterUnique(stored + kept, p);
    SortSorts(Filter(stored + kept, p));
    forall r ensures r in stored + kept <==> Newest(table, memory, r) {
      UnbeatenAreNewest(table, memory, r);
    }
    assert Lists(Sort(Filter(stored + kept, p)), table, memory, p);
  }

  // ----- The merge of what was fetched

  /** `entries` has exactly one row for every trace seen, and it is a newest one among those seen. */
  ghost predicate Covers(entries: seq<Row>, seen: seq<Row>) {
    && UniqueIDs(entries)
    && (forall r :: r in entries ==> r in seen)
    && (forall q {:trigger Covered(entries, q)} :: q in seen ==> Covered(entries, q))
  }

  ghost predicate Covered(entries: seq<Row>, q: Row) {
    exists r :: r in entries && r.id == q.id && q.revision <= r.revision
  }

  lemma {:induction false} PutUnique(entries: seq<Row>, r: Row)
    requires UniqueIDs(entries)
    ensures UniqueIDs(Put(entries, r))
    ensures forall x :: x in Put(entries, r) ==> x in entries || x == r
  {
    if entries != [] {
      HeadIsUnique(entries);
      if entries[0].id == r.id {
        assert Put(entries, r)[1..] == entries[1..];
      } else {
        PutUnique(entries[1..], r);
        UniqueTogether([entries[0]], Put(entries[1..], r));
      }
    }
  }

  lemma CoveredMore(first: Row, rest: seq<Row>, x: Row)
    requires Covered(rest, x)
    ensures Covered([first] + rest, x)
  {
    var y :| y in rest && y.id == x.id && x.revision <= y.revision;
    assert y in [first] + rest;
  }

  lemma CoveredFirst(first: Row, rest: seq<Row>, x: Row)
    requires first.id == x.id && x.revision <= first.revision
    ensures Covered([first] + rest, x)
  {
    assert ([first] + rest)[0] == first;
  }

  lemma CoveredItself(rest: seq<Row>, x: Row)
    requires x in rest
    ensures Covered(rest, x)
  {
  }

  lemma {:induction false} PutCoversBoth(entries: seq<Row>, r: Row, x: Row)
    requires x in entries || x == r
    ensures Covered(Put(entries, r), x)
  {
    if entries == [] {
      CoveredFirst(r, [], x);
    } else {
      var tail := entries[1..];
      assert entries == [entries[0]] + tail;
      if entries[0].id == r.id {
        var newest := if r.revision > entries[0].revision then r else entries[0];
        assert Put(entries, r) == [newest] + tail;
        if x == entries[0] || x == r {
          CoveredFirst(newest, tail, x);
        } else {
          CoveredItself(tail, x);
          CoveredMore(newest, tail, x);
        }
      } else if x == entries[0] {
        CoveredFirst(entries[0], Put(tail, r), x);
      } else {
        PutCoversBoth(tail, r, x);
        CoveredMore(entries[0], Put(tail, r), x);
      }
    }
  }

  lemma CoveredAfter(entries: seq<Row>, r: Row, q: Row)
    requires Covered(entries, q)
    ensures Covered(Put(entries, r), q)
  {
    var x :| x in entries && x.id == q.id && q.revision <= x.revision;
    PutCoversBoth(entries, r, x);
    var y :| y in Put(entries, r) && y.id == x.id && x.revision <= y.revision;
  }

  lemma PutCovers(entries: seq<Row>, seen: seq<Row>, r: Row)
    requires Covers(entries, seen)
    ensures Covers(Put(entries, r), seen + [r])
  {
    PutUnique(entries, r);
    forall q | q in seen + [r] ensures Covered(Put(entries, r), q) {
      if q in seen {
        CoveredAfter(entries, r, q);
      } else {
        PutCoversBoth(entries, r, r);
      }
    }
  }

  lemma OneMoreSeen(seen: seq<Row>, front: seq<Row>, last: Row)
    ensures seen + front + [last] == seen + (front + [last])
  {
  }

  lemma PutLastCovers(entries: seq<Row>, seen: seq<Row>, front: seq<Row>, last: Row, put: seq<Row>, all: seq<Row>)
    requires put == PutAll(entries, front) && Covers(put, seen + front)
    requires all == seen + (front + [last])
    ensures Covers(PutAll(entries, front + [last]), all)
  {
    PutCovers(put, seen + front, last);
    OneMoreSeen(seen, front, last);
    PutAllLast(entries, front, last);
  }

  lemma {:induction false} PutAllCovers(entries: seq<Row>, seen: seq<Row>, rows: seq<Row>)
    requires Covers(entries, seen)
    ensures Covers(PutAll(entries, rows), seen + rows)
    decreases |rows|
  {
    if rows == [] {
      assert seen + rows == seen;
    } else {
      var front, last := rows[..|rows| - 1], rows[|rows| - 1];
      PutAllCovers(entries, seen, front);
      assert front + [last] == rows;
      PutLastCovers(entries, seen, front, last, PutAll(entries, front), seen + rows);
    }
  }

  lemma SortedTable(table: seq<Row>, p: Params)
    requires UniqueIDs(table)
    ensures Sorted(Sort(Filter(table, p))) && OnePerID(Sort(Filter(table, p)))
  {
    FilterUnique(table, p);
    SortSorts(Filter(table, p));
    UniqueIsOnePerID(table);
  }

  lemma SortedIsUnique(rows: seq<Row>)
    requires Sorted(rows) && OnePerID(rows)
    ensures UniqueIDs(rows)
  {
    forall i, j | 0 <= i < j < |rows| ensures rows[i].id != rows[j].id {
      assert Before(rows[i], rows[j]) && rows[i] in rows && rows[j] in rows;
    }
  }

  lemma CoversItself(rows: seq<Row>)
    requires UniqueIDs(rows)
    ensures Covers(rows, rows)
  {
    forall q | q in rows ensures Covered(rows, q) { CoveredItself(rows, q); }
  }

  lemma FetchedCovers(table: seq<Row>, p: Params, limit: nat, fetched: seq<Row>)
    requires UniqueIDs(table) && fetched == IndexList(table, p, limit)
    ensures Covers(fetched, fetched) && forall r :: r in fetched ==> r in table
  {
    SortedTable(table, p);
    SortedIsUnique(Sort(Filter(table, p)));
    CoversItself(fetched);
  }

  /** `now` is the table as it was, except that traces in memory may have gained newer rows. */
  ghost predicate Gained(table: seq<Row>, now: seq<Row>, memory: seq<Row>) {
    && (forall r :: r in table && r.id !in IDs(memory) ==> r in now)
    && (forall r :: r in now && r.id !in IDs(memory) ==> r in table)
    && (forall r {:trigger Kept(now, r)} :: r in table ==> Kept(now, r))
  }

  ghost predicate Kept(now: seq<Row>, r: Row) {
    exists n :: n in now && n.id == r.id && r.revision <= n.revision && (r.revision == n.revision ==> n == r)
  }

  /** Everything the reader has looked at once it has the page, the memory and its counterparts. */
  ghost predicate Looked(now: seq<Row>, memory: seq<Row>, fetched: seq<Row>, seen: seq<Row>) {
    && (forall x :: x in seen ==> x in now || x in memory || x in fetched)
    && (forall x :: x in fetched || x in memory ==> x in seen)
    && (forall r :: r in now && r.id in IDs(memory) ==> r in seen)
  }

  lemma KeptIfCovered(now: seq<Row>, entries: seq<Row>, r: Row)
    requires Kept(now, r) && r in entries && OnePerID(entries)
    requires forall n :: n in now && n.id == r.id ==> Covered(entries, n)
    ensures r in now
  {
    var n :| n in now && n.id == r.id && r.revision <= n.revision && (r.revision == n.revision ==> n == r);
    var y :| y in entries && y.id == n.id && n.revision <= y.revision;
    assert y == r;
  }

  /** A merged row is not one that its counterpart has replaced since the page was read. */
  lemma MergedIsCurrent(table: seq<Row>, now: seq<Row>, memory: seq<Row>, fetched: seq<Row>, entries: seq<Row>,
                        seen: seq<Row>, r: Row)
    requires Gained(table, now, memory) && Covers(entries, seen) && Looked(now, memory, fetched, seen)
    requires r in entries && forall x :: x in fetched ==> x in table
    ensures r in now || r in memory
  {
    UniqueIsOnePerID(entries);
    if r in table && r.id in IDs(memory) {
      assert Kept(now, r);
      forall n | n in now && n.id == r.id ensures Covered(entries, n) { assert n in seen; }
      KeptIfCovered(now, entries, r);
    }
  }

  lemma MergedIsNewest(table: seq<Row>, now: seq<Row>, memory: seq<Row>, fetched: seq<Row>, entries: seq<Row>,
                       seen: seq<Row>, r: Row)
    requires Consistent(now, memory) && Gained(table, now, memory)
    requires Covers(entries, seen) && Looked(now, memory, fetched, seen)
    requires r in entries && forall x :: x in fetched ==> x in table
    ensures Newest(now, memory, r)
  {
    MergedIsCurrent(table, now, memory, fetched, entries, seen, r);
    UniqueIsOnePerID(now);
    UniqueIsOnePerID(entries);
    forall q | (q in now || q in memory) && q.id == r.id ensures q.revision <= r.revision {
      if q in seen {
        assert Covered(entries, q);
      } else if r in memory {
        InIDs(memory, r);
      }
    }
  }

  lemma InIDs(rows: seq<Row>, r: Row)
    requires r in rows
    ensures r.id in IDs(rows)
  {
    var i :| 0 <= i < |rows| && rows[i] == r;
    assert rows[i].id in IDs(rows);
  }

  lemma NewestIsMerged(table: seq<Row>, now: seq<Row>, memory: seq<Row>, fetched: seq<Row>, entries: seq<Row>,
                       seen: seq<Row>, r: Row)
    requires Consistent(now, memory) && Gained(table, now, memory)
    requires Covers(entries, seen) && Looked(now, memory, fetched, seen)
    requires Newest(now, memory, r) && r in seen && forall x :: x in fetched ==> x in table
    ensures r in entries
  {
    assert Covered(entries, r);
    var x :| x in entries && x.id == r.id && r.revision <= x.revision;
    MergedIsNewest(table, now, memory, fetched, entries, seen, x);
    UniqueIsOnePerID(now);
    UniqueIsOnePerID(memory);
  }

  // ----- Why the fetched page is enough

  /** A row ahead of `all[k]` in the sorted table is ahead of it in the simple list, or memory knows its trace. */
  lemma EarlierIsListed(table: seq<Row>, now: seq<Row>, memory: seq<Row>, p: Params, all: seq<Row>, k: nat, q: Row)
    requires Consistent(now, memory) && Gained(table, now, memory) && Lists(all, now, memory, p)
    requires k < |all| && q in table && Selected(p, q) && Before(q, all[k])
    ensures q.id in IDs(all[..k]) + IDs(memory)
  {
    UniqueIsOnePerID(now);
    if q.id !in IDs(memory) {
      forall m | m in memory ensures m.id != q.id { InIDs(memory, m); }
      assert Newest(now, memory, q);
      var n :| 0 <= n < |all| && all[n] == q;
      assert n < k;
      assert all[..k][n] == q;
      InIDs(all[..k], q);
    }
  }

  /** A row of the simple list that memory does not have stands early enough in the table to be fetched. */
  lemma EarlyInTable(table: seq<Row>, now: seq<Row>, memory: seq<Row>, p: Params, all: seq<Row>, k: nat, limit: nat)
    requires UniqueIDs(table) && Consistent(now, memory) && Gained(table, now, memory) && Lists(all, now, memory, p)
    requires k < |all| && all[k] in table && limit > k + |memory|
    ensures all[k] in IndexList(table, p, limit)
  {
    var r := all[k];
    assert r in all;
    SortedTable(table, p);
    var sorted := Sort(Filter(table, p));
    var j :| 0 <= j < |sorted| && sorted[j] == r;
    EarlierAreFew(table, now, memory, p, all, k, sorted, j);
    assert Take(sorted, limit)[j] == r;
  }

  lemma EarlierAreFew(table: seq<Row>, now: seq<Row>, memory: seq<Row>, p: Params, all: seq<Row>, k: nat,
                      sorted: seq<Row>, j: nat)
    requires Consistent(now, memory) && Gained(table, now, memory) && Lists(all, now, memory, p)
    requires Sorted(sorted) && OnePerID(sorted) && forall x :: x in sorted <==> x in table && Selected(p, x)
    requires k < |all| && j < |sorted| && sorted[j] == all[k]
    ensures j <= k + |memory|
  {
    var earlier := sorted[..j];
    forall i | 0 <= i < j ensures earlier[i].id in IDs(all[..k]) + IDs(memory) {
      assert sorted[i] in sorted && Before(sorted[i], sorted[j]);
      EarlierIsListed(table, now, memory, p, all, k, sorted[i]);
    }
    assert forall x :: x in earlier ==> x in sorted;
    CountWithin(earlier, all[..k], memory);
  }

  /** Two sorted lists, one inside the other, that share what a page and one more element need. */
  lemma SamePages(part: seq<Row>, whole: seq<Row>, limit: nat)
    requires Sorted(part) && Sorted(whole) && limit > 0
    requires forall x :: x in part ==> x in whole
    requires forall k :: 0 <= k < |whole| && k <= limit ==> whole[k] in part
    ensures PageOf(part, limit) == PageOf(whole, limit)
  {
    var n := if |whole| <= limit + 1 then |whole| else limit + 1;
    SortedPrefix(part, whole, n);
    if |whole| <= limit {
      SortedPrefix(whole, part, |part|);
      assert part == whole;
    } else {
      SameStart(part, whole, limit);
    }
  }

  lemma SameStart(part: seq<Row>, whole: seq<Row>, limit: nat)
    requires 0 < limit < |part| && limit < |whole| && part[..limit + 1] == whole[..limit + 1]
    ensures PageOf(part, limit) == PageOf(whole, limit)
  {
    assert part[..limit] == part[..limit + 1][..limit] && whole[..limit] == whole[..limit + 1][..limit];
    assert part[limit - 1] == part[..limit][limit - 1] && whole[limit - 1] == whole[..limit][limit - 1];
  }

  /** What the reader sorts starts with the page it has to return and tells whether more remain. */
  lemma OrderedGivesPage(table: seq<Row>, now: seq<Row>, memory: seq<Row>, p: Params, all: seq<Row>,
                         fetched: seq<Row>, entries: seq<Row>, seen: seq<Row>)
    requires UniqueIDs(table) && Consistent(now, memory) && Gained(table, now, memory)
    requires Lists(all, now, memory, p) && p.limit > 0
    requires fetched == IndexList(table, p, p.limit + |memory| + 1)
    requires Covers(entries, seen) && Looked(now, memory, fetched, seen)
    ensures PageOf(Sort(Filter(entries, p)), p.limit) == PageOf(all, p.limit)
  {
    FetchedCovers(table, p, p.limit + |memory| + 1, fetched);
    FilterUnique(entries, p);
    SortSorts(Filter(entries, p));
    var ordered := Sort(Filter(entries, p));
    forall x | x in ordered ensures x in all {
      MergedIsNewest(table, now, memory, fetched, entries, seen, x);
    }
    forall k | 0 <= k < |all| && k <= p.limit ensures all[k] in ordered {
      assert all[k] in all;
      if all[k] !in memory && all[k].id !in IDs(memory) {
        EarlyInTable(table, now, memory, p, all, k, p.limit + |memory| + 1);
      }
      NewestIsMerged(table, now, memory, fetched, entries, seen, all[k]);
    }
    SamePages(ordered, all, p.limit);
  }

  // ----- The tables the reads of one call see

  /** Every trace of `before` is still there, unchanged or at a newer revision. */
  ghost predicate Grown(before: seq<Row>, after: seq<Row>) {
    forall r :: r in before ==>
      Get(after, r.id).Some?
      && var n := Get(after, r.id).value; r.revision <= n.revision && (r.revision == n.revision ==> n == r)
  }

  /** One table per trace in memory: its row is read from it, later than the page. */
  ghost predicate Steady(table: seq<Row>, later: seq<seq<Row>>, memory: seq<Row>) {
    && UniqueIDs(table) && UniqueIDs(memory) && |later| == |memory|
    && forall k :: 0 <= k < |later| ==> Grown(table, later[k]) && Agreeing(later[k], memory)
  }

  function Others(table: seq<Row>, memory: seq<Row>): (r: seq<Row>)
    ensures forall x :: x in r <==> x in table && Get(memory, x.id).None?
  {
    if table == [] then []
    else (if Get(memory, table[0].id).None? then [table[0]] else []) + Others(table[1..], memory)
  }

  ghost function Counterparts(later: seq<seq<Row>>, memory: seq<Row>): seq<Option<Row>>
    requires |later| == |memory|
  {
    seq(|memory|, k requires 0 <= k < |memory| => Get(later[k], memory[k].id))
  }

  /** The table as one call sees it: traces in memory as their own reads found them, the others as the page did. */
  ghost function SeenTable(table: seq<Row>, later: seq<seq<Row>>, memory: seq<Row>): seq<Row>
    requires |later| == |memory|
  {
    Others(table, memory) + Found(Counterparts(later, memory))
  }

  lemma GetIffIn(rows: seq<Row>, id: TraceID)
    ensures Get(rows, id).Some? <==> id in IDs(rows)
  {
    if Get(rows, id).Some? { InIDs(rows, Get(rows, id).value); }
  }

  lemma {:induction false} OthersUnique(table: seq<Row>, memory: seq<Row>)
    requires UniqueIDs(table)
    ensures UniqueIDs(Others(table, memory))
  {
    if table != [] {
      HeadIsUnique(table);
      OthersUnique(table[1..], memory);
    }
  }

  ghost predicate FoundFor(rows: seq<Option<Row>>, memory: seq<Row>) {
    |rows| == |memory| && forall k :: 0 <= k < |rows| && rows[k].Some? ==> rows[k].value.id == memory[k].id
  }

  lemma {:induction false} FoundIn(rows: seq<Option<Row>>, memory: seq<Row>, x: Row)
    requires FoundFor(rows, memory)
    ensures x in Found(rows) <==> exists k :: 0 <= k < |rows| && rows[k] == Some(x)
    decreases |rows|
  {
    if rows != [] {
      var last := |rows| - 1;
      FoundIn(rows[..last], memory[..last], x);
      assert Found(rows) == Found(rows[..last]) + (if rows[last].Some? then [rows[last].value] else []);
      if x in Found(rows[..last]) {
        var k :| 0 <= k < last && rows[..last][k] == Some(x);
        assert rows[k] == Some(x);
      }
      forall k | 0 <= k < last && rows[k] == Some(x) ensures x in Found(rows) {
        assert rows[..last][k] == Some(x);
      }
    }
  }

  lemma {:induction false} FoundUnique(rows: seq<Option<Row>>, memory: seq<Row>)
    requires FoundFor(rows, memory) && UniqueIDs(memory)
    ensures UniqueIDs(Found(rows))
    decreases |rows|
  {
    if rows != [] {
      var last := |rows| - 1;
      FoundUnique(rows[..last], memory[..last]);
      forall x | x in Found(rows[..last]) ensures x.id != memory[last].id {
        FoundIn(rows[..last], memory[..last], x);
        var k :| 0 <= k < last && rows[..last][k] == Some(x);
        assert rows[k] == Some(x) && memory[k].id == x.id;
      }
      if rows[last].Some? { UniqueTogether(Found(rows[..last]), [rows[last].value]); }
    }
  }

  /** A row read for a trace in memory is found again by its id. */
  lemma CounterpartOf(later: seq<seq<Row>>, memory: seq<Row>, x: Row)
    requires |later| == |memory| && x in Found(Counterparts(later, memory))
    ensures exists k :: 0 <= k < |memory| && x.id == memory[k].id && Get(later[k], memory[k].id) == Some(x)
  {
    FoundIn(Counterparts(later, memory), memory, x);
    var k :| 0 <= k < |memory| && Counterparts(later, memory)[k] == Some(x);
  }

  lemma SeenAgrees(table: seq<Row>, later: seq<seq<Row>>, memory: seq<Row>)
    requires Steady(table, later, memory)
    ensures Agreeing(SeenTable(table, later, memory), memory)
  {
    forall r, m | r in SeenTable(table, later, memory) && m in memory && r.id == m.id && r.revision == m.revision
      ensures r == m
    {
      if r in Found(Counterparts(later, memory)) {
        CounterpartOf(later, memory, r);
        var k :| 0 <= k < |memory| && r.id == memory[k].id && Get(later[k], memory[k].id) == Some(r);
        assert Agreeing(later[k], memory);
      }
    }
  }

  lemma SeenIsConsistent(table: seq<Row>, later: seq<seq<Row>>, memory: seq<Row>)
    requires Steady(table, later, memory)
    ensures Consistent(SeenTable(table, later, memory), memory)
  {
    var found := Found(Counterparts(later, memory));
    OthersUnique(table, memory);
    FoundUnique(Counterparts(later, memory), memory);
    forall x, y | x in Others(table, memory) && y in found ensures x.id != y.id {
      CounterpartOf(later, memory, y);
    }
    UniqueTogether(Others(table, memory), found);
    SeenAgrees(table, later, memory);
  }

  lemma SeenGained(table: seq<Row>, later: seq<seq<Row>>, memory: seq<Row>)
    requires Steady(table, later, memory)
    ensures Gained(table, SeenTable(table, later, memory), memory)
  {
    var found, now := Found(Counterparts(later, memory)), SeenTable(table, later, memory);
    forall r | r in table && r.id !in IDs(memory) ensures r in now { GetIffIn(memory, r.id); }
    forall r | r in now && r.id !in IDs(memory) ensures r in table {
      if r in found {
        CounterpartOf(later, memory, r);
      }
    }
    forall r | r in table ensures Kept(now, r) { SeenKeeps(table, later, memory, r); }
  }

  lemma CounterpartIn(later: seq<seq<Row>>, memory: seq<Row>, k: nat)
    requires |later| == |memory| && k < |memory| && Get(later[k], memory[k].id).Some?
    ensures Get(later[k], memory[k].id).value in Found(Counterparts(later, memory))
  {
    FoundIn(Counterparts(later, memory), memory, Get(later[k], memory[k].id).value);
    assert Counterparts(later, memory)[k] == Get(later[k], memory[k].id);
  }

  lemma KeptBy(now: seq<Row>, n: Row, r: Row)
    requires n in now && n.id == r.id && r.revision <= n.revision && (r.revision == n.revision ==> n == r)
    ensures Kept(now, r)
  {
  }

  lemma SeenKeeps(table: seq<Row>, later: seq<seq<Row>>, memory: seq<Row>, r: Row)
    requires Steady(table, later, memory) && r in table
    ensures Kept(SeenTable(table, later, memory), r)
  {
    if Get(memory, r.id).None? {
      KeptBy(SeenTable(table, later, memory), r, r);
    } else {
      var k :| 0 <= k < |memory| && memory[k] == Get(memory, r.id).value;
      assert Grown(table, later[k]);
      CounterpartIn(later, memory, k);
      KeptBy(SeenTable(table, later, memory), Get(later[k], r.id).value, r);
    }
  }

  /** What the traces in memory have in the table as seen is what was read for them. */
  ghost predicate ReadFor(now: seq<Row>, memory: seq<Row>, found: seq<Row>) {
    (forall r :: r in now && r.id in IDs(memory) ==> r in found) && forall x :: x in found ==> x in now
  }

  lemma SeenIsRead(table: seq<Row>, later: seq<seq<Row>>, memory: seq<Row>)
    requires |later| == |memory|
    ensures ReadFor(SeenTable(table, later, memory), memory, Found(Counterparts(later, memory)))
  {
    forall r | r in Others(table, memory) ensures r.id !in IDs(memory) { GetIffIn(memory, r.id); }
  }

  lemma LookedAtEnough(now: seq<Row>, memory: seq<Row>, stored: seq<Row>, found: seq<Row>)
    requires ReadFor(now, memory, found)
    ensures Looked(now, memory, stored, stored + memory + found)
  {
  }

  /** Without a commit in between, one call sees the table as it is. */
  lemma SeenUnchanged(table: seq<Row>, later: seq<seq<Row>>, memory: seq<Row>, p: Params)
    requires Steady(table, later, memory) && Consistent(table, memory)
    requires forall k :: 0 <= k < |memory| ==> Get(later[k], memory[k].id) == Get(table, memory[k].id)
    ensures Consistent(SeenTable(table, later, memory), memory)
    ensures Reference(SeenTable(table, later, memory), memory, p) == Reference(table, memory, p)
  {
    var now := SeenTable(table, later, memory);
    SeenIsConsistent(table, later, memory);
    forall x ensures x in now <==> x in table { SeenSame(table, later, memory, x); }
    SortedSame(Reference(now, memory, p), Reference(table, memory, p));
  }

  lemma SeenSame(table: seq<Row>, later: seq<seq<Row>>, memory: seq<Row>, x: Row)
    requires Steady(table, later, memory)
    requires forall k :: 0 <= k < |memory| ==> Get(later[k], memory[k].id) == Get(table, memory[k].id)
    ensures x in SeenTable(table, later, memory) <==> x in table
  {
    if x in Found(Counterparts(later, memory)) { CounterpartOf(later, memory, x); }
    if x in table && Get(memory, x.id).Some? { UnchangedIsSeen(table, later, memory, x); }
  }

  lemma GetUnique(table: seq<Row>, x: Row)
    requires UniqueIDs(table) && x in table
    ensures Get(table, x.id) == Some(x)
  {
    UniqueIsOnePerID(table);
  }

  lemma UnchangedIsSeen(table: seq<Row>, later: seq<seq<Row>>, memory: seq<Row>, x: Row)
    requires UniqueIDs(table) && |later| == |memory| && x in table && Get(memory, x.id).Some?
    requires forall k :: 0 <= k < |memory| ==> Get(later[k], memory[k].id) == Get(table, memory[k].id)
    ensures x in Found(Counterparts(later, memory))
  {
    var k :| 0 <= k < |memory| && memory[k] == Get(memory, x.id).value;
    GetUnique(table, x);
    CounterpartIn(later, memory, k);
  }

  // ----- The reader's own steps

  lemma PutAllLast(entries: seq<Row>, rows: seq<Row>, r: Row)
    ensures PutAll(entries, rows + [r]) == Put(PutAll(entries, rows), r)
  {
    assert (rows + [r])[..|rows|] == rows;
  }

  lemma FoundLast(rows: seq<Option<Row>>, r: Option<Row>)
    ensures Found(rows + [r]) == if r.Some? then Found(rows) + [r.value] else Found(rows)
  {
    assert Found(rows) + [] == Found(rows);
    assert (rows + [r])[..|rows|] == rows;
  }

  /** The index rows of the traces in memory, each read from the table as it is by then. */
  method ReadCounterparts(later: seq<seq<Row>>, memory: seq<Row>) returns (counterparts: seq<Option<Row>>)
    requires |later| == |memory|
    ensures counterparts == Counterparts(later, memory)
  {
    counterparts := [];
    for i := 0 to |memory|
      invariant |counterparts| == i
      invariant forall k :: 0 <= k < i ==> counterparts[k] == Get(later[k], memory[k].id)
    {
      counterparts := counterparts + [Get(later[i], memory[i].id)];
    }
  }

  method PutEach(entries: seq<Row>, rows: seq<Row>) returns (summaries: seq<Row>)
    ensures summaries == PutAll(entries, rows)
  {
    summaries := entries;
    for i := 0 to |rows|
      invariant summaries == PutAll(entries, rows[..i])
    {
      assert rows[..i] + [rows[i]] == rows[..i + 1];
      PutAllLast(entries, rows[..i], rows[i]);
      summaries := Put(summaries, rows[i]);
    }
    assert rows[..|rows|] == rows;
  }

  method PutFound(entries: seq<Row>, rows: seq<Option<Row>>) returns (summaries: seq<Row>)
    ensures summaries == PutAll(entries, Found(rows))
  {
    summaries := entries;
    for i := 0 to |rows|
      invariant summaries == PutAll(entries, Found(rows[..i]))
    {
      assert rows[..i] + [rows[i]] == rows[..i + 1];
      FoundLast(rows[..i], rows[i]);
      if rows[i].Some? {
        PutAllLast(entries, Found(rows[..i]), rows[i].value);
        summaries := Put(summaries, rows[i].value);
      }
    }
    assert rows[..|rows|] == rows;
  }

  /** Merges the page, the memory and its counterparts, keeping the newest row of each trace. */
  method Merge(memory: seq<Row>, stored: seq<Row>, counterparts: seq<Option<Row>>) returns (summaries: seq<Row>)
    ensures summaries == PutAll(PutAll(stored, memory), Found(counterparts))
  {
    summaries := PutEach(stored, memory);
    summaries := PutFound(summaries, counterparts);
  }

  /** The merge has one row for each trace looked at, at the newest revision seen. */
  method MergeNewest(memory: seq<Row>, stored: seq<Row>, counterparts: seq<Option<Row>>) returns (summaries: seq<Row>)
    requires Covers(stored, stored)
    ensures Covers(summaries, stored + memory + Found(counterparts))
  {
    summaries := Merge(memory, stored, counterparts);
    MergedCovers(stored, memory, Found(counterparts));
  }

  /**
   One page of the merged list. Fetching as many rows as the page and memory together hold, and one more, is
   enough for the page to be that of the simple list and for the cursor to be there exactly when more remain, even
   when transactions commit between the reads.
   */
  method List(table: seq<Row>, later: seq<seq<Row>>, memory: seq<Row>, p: Params) returns (result: Result)
    requires Steady(table, later, memory)
    ensures Consistent(SeenTable(table, later, memory), memory)
    ensures p.limit < 0 ==> result == RangeError
    ensures p.limit == 0 ==> result == Listed(Page([], None))
    ensures p.limit > 0 ==>
              result == Listed(PageOf(Reference(SeenTable(table, later, memory), memory, p), p.limit))
  {
    SeenIsConsistent(table, later, memory);
    if p.limit < 0 {
      return RangeError;
    }
    if p.limit == 0 {
      return Listed(Page([], None));
    }
    var stored := IndexList(table, p, p.limit + |memory| + 1);
    var counterparts := ReadCounterparts(later, memory);
    FetchedCovers(table, p, p.limit + |memory| + 1, stored);
    var summaries := MergeNewest(memory, stored, counterparts);
    SeenGained(table, later, memory);
    SeenIsRead(table, later, memory);
    MergedGivesPage(table, SeenTable(table, later, memory), memory, p, stored, Found(counterparts), summaries);
    return Listed(PageOf(Sort(Filter(summaries, p)), p.limit));
  }

  lemma MergedCovers(stored: seq<Row>, memory: seq<Row>, found: seq<Row>)
    requires Covers(stored, stored)
    ensures Covers(PutAll(PutAll(stored, memory), found), stored + memory + found)
  {
    PutAllCovers(stored, stored, memory);
    PutAllCovers(PutAll(stored, memory), stored + memory, found);
  }

  lemma MergedGivesPage(
    table: seq<Row>, now: seq<Row>, memory: seq<Row>, p: Params, stored: seq<Row>, found: seq<Row>, summaries: seq<Row>)
    requires UniqueIDs(table) && Consistent(now, memory) && Gained(table, now, memory) && ReadFor(now, memory, found)
    requires p.limit > 0 && stored == IndexList(table, p, p.limit + |memory| + 1)
    requires Covers(summaries, stored + memory + found)
    ensures PageOf(Sort(Filter(summaries, p)), p.limit) == PageOf(Reference(now, memory, p), p.limit)
  {
    LookedAtEnough(now, memory, stored, found);
    OrderedGivesPage(table, now, memory, p, Reference(now, memory, p), stored, summaries, stored + memory + found);
  }

  // ----- Following cursors

  lemma AfterIsLater(all: seq<Row>, n: nat, x: Row)
    requires Sorted(all) && 0 < n < |all|
    ensures x in all[n..] <==> x in all && Before(all[n - 1], x)
  {
    if x in all && Before(all[n - 1], x) {
      var i :| 0 <= i < |all| && all[i] == x;
      assert all[n..][i - n] == x;
    }
    if x in all[n..] {
      var i :| 0 <= i < |all[n..]| && all[n..][i] == x;
      assert all[n + i] == x;
    }
  }

  lemma SortedSame(a: seq<Row>, b: seq<Row>)
    requires Sorted(a) && Sorted(b) && forall x :: x in a <==> x in b
    ensures a == b
  {
    SortedPrefix(a, b, |b|);
    SortedPrefix(b, a, |a|);
  }

  /** The list after a cursor is what is left of the list once the page that gave the cursor is taken off. */
  lemma CursorSkipsPage(table: seq<Row>, memory: seq<Row>, p: Params, all: seq<Row>, rest: seq<Row>)
    requires 0 < p.limit < |all| && Lists(all, table, memory, p)
    requires Lists(rest, table, memory, p.(cursor := PageOf(all, p.limit).cursor))
    ensures rest == all[p.limit..]
  {
    var last := all[p.limit - 1];
    var p' := p.(cursor := Some(CursorOf(last)));
    assert last in all;
    forall x ensures x in rest <==> x in all[p.limit..] {
      AfterIsLater(all, p.limit, x);
      assert Selected(p', x) <==> Matches(x, p) && Before(last, x);
    }
    SortedSame(rest, all[p.limit..]);
  }

  /** The traces of this page and of all pages its cursors lead to. */
  ghost function AllPages(table: seq<Row>, memory: seq<Row>, p: Params): seq<Row>
    requires Consistent(table, memory) && p.limit > 0
    decreases |Reference(table, memory, p)|
  {
    var page := PageOf(Reference(table, memory, p), p.limit);
    if page.cursor.None? then page.traces
    else
      var p' := p.(cursor := page.cursor);
      CursorSkipsPage(table, memory, p, Reference(table, memory, p), Reference(table, memory, p'));
      page.traces + AllPages(table, memory, p')
  }

  /** Following the cursors over a fixed state visits every match exactly once, in list order. */
  lemma {:induction false} CursorsVisitEverythingOnce(table: seq<Row>, memory: seq<Row>, p: Params)
    requires Consistent(table, memory) && p.limit > 0
    ensures AllPages(table, memory, p) == Reference(table, memory, p)
    ensures Lists(AllPages(table, memory, p), table, memory, p)
    decreases |Reference(table, memory, p)|
  {
    var all := Reference(table, memory, p);
    if |all| > p.limit {
      var p' := p.(cursor := PageOf(all, p.limit).cursor);
      CursorSkipsPage(table, memory, p, all, Reference(table, memory, p'));
      CursorsVisitEverythingOnce(table, memory, p');
      assert all == all[..p.limit] + all[p.limit..];
    }
  }
}
