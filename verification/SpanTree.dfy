/**
 The trace view's span tree: nodes for the spans received, placeholders for the parents that are missing, intervals
 and bars. Times are integers.
 */
module SpanTree {
  import opened Options
  import opened Forest

  /** A span that has not ended has no end; its bar runs to now. */
  datatype Span = Span(id: ID, parent: Option<ID>, start: int, end: Option<int>)

  datatype Summary = Summary(rootID: ID, start: int, end: Option<int>, active: bool)

  datatype Node = Node(start: int, end: int, open: bool, placeholder: bool, children: seq<ID>)

  type Table = map<ID, Node>

  ghost predicate Unique(spans: seq<Span>) {
    forall i, j :: 0 <= i < j < |spans| ==> spans[i].id != spans[j].id
  }

  function SpanIDs(spans: seq<Span>): set<ID> {
    set i | 0 <= i < |spans| :: spans[i].id
  }

  function SpanNode(s: Span, now: int): Node {
    Node(s.start, s.end.GetOr(now), s.end.None?, false, [])
  }

  function SummaryNode(s: Summary, now: int): Node {
    Node(s.start, if s.active then now else s.end.GetOr(s.start), s.active, true, [])
  }

  /** The parent pointers of the spans. */
  function Parents(spans: seq<Span>): map<ID, ID> {
    if spans == [] then map[]
    else
      var s := spans[|spans| - 1];
      var before := Parents(spans[..|spans| - 1]);
      if s.parent.Some? then before[s.id := s.parent.value] else before
  }

  lemma {:induction false} ParentsAreSpans(spans: seq<Span>)
    ensures Parents(spans).Keys <= SpanIDs(spans)
    decreases |spans|
  {
    if spans != [] {
      var before := spans[..|spans| - 1];
      ParentsAreSpans(before);
      assert forall i :: 0 <= i < |before| ==> before[i] == spans[i];
      assert spans[|spans| - 1].id in SpanIDs(spans);
    }
  }

  // ----- Sorting by start

  function Insert(ids: seq<ID>, id: ID, t: Table): seq<ID>
    requires id in t && forall x :: x in ids ==> x in t
  {
    if ids == [] then [id]
    else if t[id].start < t[ids[|ids| - 1]].start then Insert(ids[..|ids| - 1], id, t) + [ids[|ids| - 1]]
    else ids + [id]
  }

  /** The stable sort of siblings by start. */
  function SortByStart(ids: seq<ID>, t: Table): (r: seq<ID>)
    requires forall x :: x in ids ==> x in t
    ensures forall x :: x in r <==> x in ids
  {
    if ids == [] then []
    else
      var rest := SortByStart(ids[..|ids| - 1], t);
      InsertMembers(rest, ids[|ids| - 1], t);
      assert ids == ids[..|ids| - 1] + [ids[|ids| - 1]];
      Insert(rest, ids[|ids| - 1], t)
  }

  lemma {:induction false} InsertMembers(ids: seq<ID>, id: ID, t: Table)
    requires id in t && forall x :: x in ids ==> x in t
    ensures forall x :: x in Insert(ids, id, t) <==> x in ids || x == id
    ensures multiset(Insert(ids, id, t)) == multiset(ids) + multiset{id}
    decreases |ids|
  {
    if ids != [] {
      var front, last := ids[..|ids| - 1], ids[|ids| - 1];
      assert ids == front + [last];
      InsertMembers(front, id, t);
    }
  }

  ghost predicate SortedByStart(ids: seq<ID>, t: Table) {
    && (forall x :: x in ids ==> x in t)
    && forall i, j :: 0 <= i < j < |ids| ==> t[ids[i]].start <= t[ids[j]].start
  }

  lemma SnocSorted(ids: seq<ID>, last: ID, t: Table)
    requires SortedByStart(ids, t) && last in t && forall x :: x in ids ==> t[x].start <= t[last].start
    ensures SortedByStart(ids + [last], t)
  {
    forall i | 0 <= i < |ids| ensures t[ids[i]].start <= t[last].start { assert ids[i] in ids; }
  }

  lemma LastIsLatest(ids: seq<ID>, t: Table)
    requires SortedByStart(ids, t) && ids != []
    ensures SortedByStart(ids[..|ids| - 1], t)
    ensures forall x :: x in ids ==> t[x].start <= t[ids[|ids| - 1]].start
  {
    forall x | x in ids ensures t[x].start <= t[ids[|ids| - 1]].start {
      var i :| 0 <= i < |ids| && ids[i] == x;
    }
  }

  lemma {:induction false} InsertSorted(ids: seq<ID>, id: ID, t: Table)
    requires id in t && SortedByStart(ids, t)
    ensures SortedByStart(Insert(ids, id, t), t)
    decreases |ids|
  {
    if ids != [] {
      LastIsLatest(ids, t);
      var front, last := ids[..|ids| - 1], ids[|ids| - 1];
      if t[id].start < t[last].start {
        InsertSorted(front, id, t);
        InsertMembers(front, id, t);
        SnocSorted(Insert(front, id, t), last, t);
      } else {
        SnocSorted(ids, id, t);
      }
    }
  }

  /** Sorting keeps every sibling, once each, and orders them. */
  lemma {:induction false} SortIsSorted(ids: seq<ID>, t: Table)
    requires forall x :: x in ids ==> x in t
    ensures SortedByStart(SortByStart(ids, t), t)
    ensures multiset(SortByStart(ids, t)) == multiset(ids)
    decreases |ids|
  {
    if ids != [] {
      var front, last := ids[..|ids| - 1], ids[|ids| - 1];
      assert ids == front + [last];
      SortIsSorted(front, t);
      InsertMembers(SortByStart(front, t), last, t);
      InsertSorted(SortByStart(front, t), last, t);
    }
  }

  lemma {:induction false} InsertAgrees(ids: seq<ID>, id: ID, t: Table, t': Table)
    requires id in t && forall x :: x in ids ==> x in t
    requires id in t' && forall x :: x in ids ==> x in t'
    requires forall x :: x in ids || x == id ==> t[x].start == t'[x].start
    ensures Insert(ids, id, t) == Insert(ids, id, t')
    decreases |ids|
  {
    if ids != [] {
      assert ids[|ids| - 1] in ids;
      assert forall x :: x in ids[..|ids| - 1] ==> x in ids;
      InsertAgrees(ids[..|ids| - 1], id, t, t');
    }
  }

  /** The order depends on the starts of the siblings alone. */
  lemma {:induction false} SortAgrees(ids: seq<ID>, t: Table, t': Table)
    requires (forall x :: x in ids ==> x in t) && (forall x :: x in ids ==> x in t')
    requires forall x :: x in ids ==> t[x].start == t'[x].start
    ensures SortByStart(ids, t) == SortByStart(ids, t')
    decreases |ids|
  {
    if ids != [] {
      var front := ids[..|ids| - 1];
      assert ids[|ids| - 1] in ids && forall x :: x in front ==> x in ids;
      SortAgrees(front, t, t');
      InsertAgrees(SortByStart(front, t), ids[|ids| - 1], t, t');
    }
  }

  // ----- Hulls

  function MinStart(ids: seq<ID>, t: Table): (r: int)
    requires ids != [] && forall x :: x in ids ==> x in t
    ensures forall x :: x in ids ==> r <= t[x].start
    ensures exists x :: x in ids && t[x].start == r
    decreases |ids|
  {
    var last := ids[|ids| - 1];
    assert ids == ids[..|ids| - 1] + [last] && last in ids;
    if |ids| == 1 then t[last].start
    else
      var rest := MinStart(ids[..|ids| - 1], t);
      if t[last].start < rest then t[last].start else rest
  }

  function MaxEnd(ids: seq<ID>, t: Table): (r: int)
    requires ids != [] && forall x :: x in ids ==> x in t
    ensures forall x :: x in ids ==> t[x].end <= r
    ensures exists x :: x in ids && t[x].end == r
    decreases |ids|
  {
    var last := ids[|ids| - 1];
    assert ids == ids[..|ids| - 1] + [last] && last in ids;
    if |ids| == 1 then t[last].end
    else
      var rest := MaxEnd(ids[..|ids| - 1], t);
      if t[last].end > rest then t[last].end else rest
  }

  predicate SomeOpen(ids: seq<ID>, t: Table)
    requires forall x :: x in ids ==> x in t
  {
    exists i :: 0 <= i < |ids| && t[ids[i]].open
  }

  /** The interval of a node is exactly the hull of its children's, and it is open while one of them is. */
  ghost predicate IsHull(n: Node, t: Table) {
    && (n.open <==> exists x :: x in n.children && x in t && t[x].open)
    && (forall x :: x in n.children ==> x in t && n.start <= t[x].start && t[x].end <= n.end)
    && (exists x :: x in n.children && x in t && t[x].start == n.start)
    && exists x :: x in n.children && x in t && t[x].end == n.end
  }

  // ----- Bars

  function Clamp(x: real): (r: real)
    ensures 0.0 <= r <= 1.0
  {
    if x < 0.0 then 0.0 else if x > 1.0 then 1.0 else x
  }

  datatype Bar = Bar(left: real, width: real)

  function BarPosition(n: Node, start: int, end: int): Bar {
    if end <= start then Bar(0.0, 0.0)
    else
      var span := (end - start) as real;
      var left := Clamp((n.start - start) as real / span);
      var end := Clamp((n.end - start) as real / span);
      Bar(left, if end < left then 0.0 else end - left)
  }

  /** A bar stays inside the track, and a node inside the interval gets its exact share of it. */
  lemma BarFits(n: Node, start: int, end: int)
    ensures var b := BarPosition(n, start, end); 0.0 <= b.left && 0.0 <= b.width && b.left + b.width <= 1.0
    ensures start < end && start <= n.start <= n.end <= end ==>
              var b := BarPosition(n, start, end);
              && b.left * (end - start) as real == (n.start - start) as real
              && b.width * (end - start) as real == (n.end - n.start) as real
  {
    if start < end && start <= n.start <= n.end <= end {
      var span := (end - start) as real;
      var a, c := (n.start - start) as real, (n.end - start) as real;
      Share(a, span);
      Share(c, span);
      ShareOrder(a, c, span);
    }
  }

  lemma Share(x: real, span: real)
    requires 0.0 <= x <= span && span > 0.0
    ensures 0.0 <= x / span <= 1.0 && (x / span) * span == x
  {
  }

  lemma ShareOrder(x: real, y: real, span: real)
    requires x <= y && span > 0.0
    ensures x / span <= y / span
  {
  }
}
