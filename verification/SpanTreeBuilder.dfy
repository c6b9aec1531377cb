/**
 Building the span tree in place: nodes are entered, linked to their parents, and refreshed from the roots down.
 */
module SpanTreeBuilder {
  import opened Options
  import opened Forest
  import opened SpanTree

  function Kids(t: Table): map<ID, seq<ID>> {
    map x | x in t :: t[x].children
  }

  // ----- Linking

  /** One more child under its parent, which gets a list if it had none. */
  lemma LinkStep(kids: map<ID, seq<ID>>, parent: map<ID, ID>, c: ID, p: ID)
    requires Linked(kids, parent) && c in kids && c !in parent
    ensures Linked(kids[p := (if p in kids then kids[p] else []) + [c]], parent[c := p])
  {
    var before := if p in kids then kids[p] else [];
    assert c !in before;
    assert forall x :: x in parent ==> parent[x] in kids;
  }

  /** The table with a span under its parent, which is entered as a placeholder if it is missing. */
  function LinkedTo(t: Table, s: Span): Table
    requires s.id in t && s.parent.Some?
  {
    var p := s.parent.value;
    var parent := if p in t then t[p] else Node(t[s.id].start, t[s.id].end, false, true, []);
    t[p := parent.(children := parent.children + [s.id])]
  }

  /** What a node of the table is: a span's, the summary's root, or a placeholder with children. */
  ghost predicate NodeAt(t: Table, spans: seq<Span>, summary: Option<Summary>, now: int, x: ID)
    requires x in t
  {
    if x in SpanIDs(spans) then
      exists i :: 0 <= i < |spans| && spans[i].id == x && t[x].(children := []) == SpanNode(spans[i], now)
    else if summary.Some? && x == summary.value.rootID then t[x].(children := []) == SummaryNode(summary.value, now)
    else t[x].placeholder && t[x].children != []
  }

  ghost predicate Filled(t: Table, spans: seq<Span>, summary: Option<Summary>, now: int) {
    && SpanIDs(spans) <= t.Keys
    && (summary.Some? ==> summary.value.rootID in t)
    && forall x :: x in t ==> NodeAt(t, spans, summary, now, x)
  }

  lemma LinkedToFilled(t: Table, spans: seq<Span>, summary: Option<Summary>, now: int, i: nat)
    requires Filled(t, spans, summary, now) && i < |spans| && spans[i].parent.Some?
    ensures spans[i].id in t && Filled(LinkedTo(t, spans[i]), spans, summary, now)
  {
    assert spans[i].id in SpanIDs(spans);
    var t' := LinkedTo(t, spans[i]);
    forall x | x in t' ensures NodeAt(t', spans, summary, now, x) {
      if x in t { assert NodeAt(t, spans, summary, now, x); }
    }
  }

  /** After `i` spans the links are the parent pointers of those spans. */
  lemma LinkedToLinks(t: Table, spans: seq<Span>, i: nat)
    requires Unique(spans) && i < |spans| && spans[i].id in t && Linked(Kids(t), Parents(spans[..i]))
    ensures spans[i].parent.Some? ==> Linked(Kids(LinkedTo(t, spans[i])), Parents(spans[..i + 1]))
    ensures spans[i].parent.None? ==> Linked(Kids(t), Parents(spans[..i + 1]))
    ensures Parents(spans[..i + 1]).Keys ==
            Parents(spans[..i]).Keys + (if spans[i].parent.Some? then {spans[i].id} else {})
  {
    var s := spans[i];
    assert spans[..i + 1][..i] == spans[..i];
    ParentsAreSpans(spans[..i]);
    if s.parent.Some? {
      var p, kids := s.parent.value, Kids(t);
      LinkStep(kids, Parents(spans[..i]), s.id, p);
      assert Kids(LinkedTo(t, s)) == kids[p := (if p in kids then kids[p] else []) + [s.id]];
    }
  }

  lemma FilledIsReady(t: Table, spans: seq<Span>, summary: Option<Summary>, now: int, root: Option<ID>)
    requires Filled(t, spans, summary, now) && Linked(Kids(t), Parents(spans))
    requires root == if summary.Some? then Some(summary.value.rootID) else None
    ensures Ready(t, Parents(spans), root)
  {
    ParentsAreSpans(spans);
    forall x | x in t ensures NodeAt(t, spans, summary, now, x) { }
    forall x | x in Parents(spans) ensures x in t && !t[x].placeholder {
      assert x in SpanIDs(spans);
      assert NodeAt(t, spans, summary, now, x);
    }
  }

  /** The table the refresh starts from: linked, and with children under every placeholder to be rewritten. */
  ghost predicate Ready(t: Table, parent: map<ID, ID>, root: Option<ID>) {
    && Linked(Kids(t), parent)
    && (forall x :: x in parent ==> x in t && !t[x].placeholder)
    && forall x :: x in t && t[x].placeholder && Some(x) != root ==> t[x].children != []
  }

  // ----- Refreshing

  predicate Rewrites(t: Table, root: Option<ID>, x: ID)
    requires x in t
  {
    t[x].placeholder && Some(x) != root
  }

  predicate Refreshable(t: Table, root: Option<ID>, x: ID) {
    x in t && (forall c :: c in t[x].children ==> c in t) && (Rewrites(t, root, x) ==> t[x].children != [])
  }

  /** A node after its turn: a rewritten placeholder takes the hull of its children, and the children are sorted. */
  function Refreshed(t: Table, root: Option<ID>, x: ID): Node
    requires Refreshable(t, root, x)
  {
    var n, sorted := t[x], SortByStart(t[x].children, t);
    if Rewrites(t, root, x) then
      Node(MinStart(n.children, t), MaxEnd(n.children, t), SomeOpen(n.children, t), true, sorted)
    else n.(children := sorted)
  }

  ghost function Applied(t: Table, root: Option<ID>, done: set<ID>): (r: Table)
    requires forall x :: x in t ==> Refreshable(t, root, x)
    ensures r.Keys == t.Keys
  {
    map x | x in t :: if x in done then Refreshed(t, root, x) else t[x]
  }

  lemma ReadyIsRefreshable(t: Table, parent: map<ID, ID>, root: Option<ID>)
    requires Ready(t, parent, root)
    ensures forall x :: x in t ==> Refreshable(t, root, x)
  {
    forall x | x in t ensures Refreshable(t, root, x) {
      forall c | c in t[x].children ensures c in t { assert c in Kids(t)[x]; }
    }
  }

  /** Children have parents, so they are no placeholders and keep their interval. */
  lemma ChildrenStand(t: Table, parent: map<ID, ID>, root: Option<ID>, done: set<ID>, x: ID)
    requires Ready(t, parent, root) && x in t && forall y :: y in t ==> Refreshable(t, root, y)
    ensures var a := Applied(t, root, done);
            forall c :: c in t[x].children ==>
              c in t && a[c].start == t[c].start && a[c].end == t[c].end && a[c].open == t[c].open
  {
    forall c | c in t[x].children ensures c in parent && !t[c].placeholder {
      assert c in Kids(t)[x];
    }
  }

  lemma HullSame(ids: seq<ID>, t: Table, a: Table)
    requires ids != [] && forall c :: c in ids ==> c in t && c in a
    requires forall c :: c in ids ==> a[c].start == t[c].start && a[c].end == t[c].end && a[c].open == t[c].open
    ensures MinStart(ids, a) == MinStart(ids, t) && MaxEnd(ids, a) == MaxEnd(ids, t)
    ensures SomeOpen(ids, a) == SomeOpen(ids, t)
  {
    assert forall i :: 0 <= i < |ids| ==> ids[i] in ids;
  }

  lemma RefreshedSame(t: Table, a: Table, root: Option<ID>, x: ID)
    requires Refreshable(t, root, x) && x in a && a[x] == t[x] && a.Keys == t.Keys
    requires forall c :: c in t[x].children ==>
               a[c].start == t[c].start && a[c].end == t[c].end && a[c].open == t[c].open
    ensures Refreshable(a, root, x) && Refreshed(a, root, x) == Refreshed(t, root, x)
  {
    var ids := t[x].children;
    SortAgrees(ids, t, a);
    if Rewrites(t, root, x) { HullSame(ids, t, a); }
  }

  /** Refreshing a node does not depend on which other nodes had their turn. */
  lemma RefreshAgrees(t: Table, parent: map<ID, ID>, root: Option<ID>, done: set<ID>, x: ID)
    requires Ready(t, parent, root) && x in t && x !in done
    requires forall y :: y in t ==> Refreshable(t, root, y)
    ensures Refreshable(Applied(t, root, done), root, x)
    ensures Refreshed(Applied(t, root, done), root, x) == Refreshed(t, root, x)
  {
    ChildrenStand(t, parent, root, done, x);
    RefreshedSame(t, Applied(t, root, done), root, x);
  }

  lemma AppliedOne(t: Table, parent: map<ID, ID>, root: Option<ID>, done: set<ID>, x: ID)
    requires Ready(t, parent, root) && x in t && x !in done
    requires forall y :: y in t ==> Refreshable(t, root, y)
    ensures Applied(t, root, done)[x := Refreshed(t, root, x)] == Applied(t, root, done + {x})
  {
  }

  lemma {:induction false} InsertDistinct(ids: seq<ID>, id: ID, t: Table)
    requires id in t && (forall x :: x in ids ==> x in t) && Distinct(ids) && id !in ids
    ensures Distinct(Insert(ids, id, t))
    decreases |ids|
  {
    InsertMembers(ids, id, t);
    if ids != [] {
      var front, last := ids[..|ids| - 1], ids[|ids| - 1];
      forall x | x in front ensures x in ids && x != last { var i :| 0 <= i < |front| && ids[i] == x; }
      InsertDistinct(front, id, t);
      InsertMembers(front, id, t);
      ConcatDistinct(Insert(front, id, t), [last]);
      ConcatDistinct(ids, [id]);
    }
  }

  lemma {:induction false} SortDistinct(ids: seq<ID>, t: Table)
    requires (forall x :: x in ids ==> x in t) && Distinct(ids)
    ensures Distinct(SortByStart(ids, t))
    decreases |ids|
  {
    if ids != [] {
      var front, last := ids[..|ids| - 1], ids[|ids| - 1];
      forall x | x in front ensures x in ids && x != last { var i :| 0 <= i < |front| && ids[i] == x; }
      SortDistinct(front, t);
      InsertDistinct(SortByStart(front, t), last, t);
    }
  }

  lemma SameMembersLinked(kids: map<ID, seq<ID>>, kids': map<ID, seq<ID>>, parent: map<ID, ID>)
    requires Linked(kids, parent) && kids'.Keys == kids.Keys
    requires forall p :: p in kids ==> Distinct(kids'[p]) && forall c :: c in kids'[p] <==> c in kids[p]
    ensures Linked(kids', parent)
  {
  }

  /** Refreshing moves siblings around but keeps the links. */
  lemma AppliedLinked(t: Table, parent: map<ID, ID>, root: Option<ID>, done: set<ID>)
    requires Ready(t, parent, root) && forall x :: x in t ==> Refreshable(t, root, x)
    ensures Linked(Kids(Applied(t, root, done)), parent)
  {
    var a := Applied(t, root, done);
    forall p | p in t
      ensures Distinct(a[p].children) && forall c :: c in a[p].children <==> c in t[p].children
    {
      assert Distinct(Kids(t)[p]);
      SortDistinct(t[p].children, t);
    }
    SameMembersLinked(Kids(t), Kids(a), parent);
  }

  /** A refreshed placeholder's interval and open flag are those of its children, taken together. */
  lemma HullOf(n: Node, ids: seq<ID>, sorted: seq<ID>, t: Table, a: Table)
    requires ids != [] && (forall c :: c in ids <==> c in sorted) && forall c :: c in ids ==> c in t && c in a
    requires forall c :: c in ids ==> a[c].start == t[c].start && a[c].end == t[c].end && a[c].open == t[c].open
    requires n == Node(MinStart(ids, t), MaxEnd(ids, t), SomeOpen(ids, t), true, sorted)
    ensures IsHull(n, a)
  {
    var c :| c in ids && t[c].start == MinStart(ids, t);
    var d :| d in ids && t[d].end == MaxEnd(ids, t);
    assert c in sorted && d in sorted;
    if n.open {
      var i :| 0 <= i < |ids| && t[ids[i]].open;
      assert ids[i] in ids && ids[i] in sorted;
    }
  }

  /** A refreshed placeholder covers exactly the hull of its children, and a refreshed node's children are sorted. */
  lemma AppliedShapes(t: Table, parent: map<ID, ID>, root: Option<ID>, done: set<ID>, x: ID)
    requires Ready(t, parent, root) && (forall y :: y in t ==> Refreshable(t, root, y)) && x in t && x in done
    ensures var a := Applied(t, root, done);
            (Rewrites(t, root, x) ==> IsHull(a[x], a)) && SortedByStart(a[x].children, a)
  {
    var a := Applied(t, root, done);
    var ids := t[x].children;
    ChildrenStand(t, parent, root, done, x);
    SortIsSorted(ids, t);
    var sorted := SortByStart(ids, t);
    forall i | 0 <= i < |sorted| ensures a[sorted[i]].start == t[sorted[i]].start { assert sorted[i] in sorted; }
    if Rewrites(t, root, x) { HullOf(a[x], ids, sorted, t, a); }
  }

  /** Every span's node shows the span's own interval. */
  ghost predicate Kept(t: Table, spans: seq<Span>, now: int) {
    forall i :: 0 <= i < |spans| ==>
      spans[i].id in t && t[spans[i].id].(children := []) == SpanNode(spans[i], now)
  }

  /** The summary's root is there, with the summary's own interval and open flag unless a span has its id. */
  ghost predicate RootKept(t: Table, spans: seq<Span>, summary: Option<Summary>, now: int) {
    summary.Some? ==>
      && summary.value.rootID in t
      && (summary.value.rootID !in SpanIDs(spans) ==>
            t[summary.value.rootID].(children := []) == SummaryNode(summary.value, now))
  }

  lemma AppliedKeepsRoot(
    t: Table, spans: seq<Span>, summary: Option<Summary>, now: int, root: Option<ID>, done: set<ID>)
    requires Filled(t, spans, summary, now) && forall x :: x in t ==> Refreshable(t, root, x)
    requires root == if summary.Some? then Some(summary.value.rootID) else None
    ensures RootKept(Applied(t, root, done), spans, summary, now)
  {
    if summary.Some? { assert NodeAt(t, spans, summary, now, summary.value.rootID); }
  }

  /** Every placeholder for a missing parent spans exactly its children. */
  ghost predicate HullsAround(t: Table, spans: seq<Span>, root: Option<ID>) {
    forall x :: x in t && x !in SpanIDs(spans) && Some(x) != root ==> t[x].placeholder && IsHull(t[x], t)
  }

  lemma AppliedKeeps(t: Table, spans: seq<Span>, summary: Option<Summary>, now: int, root: Option<ID>, done: set<ID>)
    requires Unique(spans) && Filled(t, spans, summary, now) && forall x :: x in t ==> Refreshable(t, root, x)
    ensures Kept(Applied(t, root, done), spans, now)
  {
    forall i | 0 <= i < |spans|
      ensures spans[i].id in t && t[spans[i].id].(children := []) == SpanNode(spans[i], now)
    {
      assert spans[i].id in SpanIDs(spans);
      assert NodeAt(t, spans, summary, now, spans[i].id);
    }
  }

  /** Missing parents have no parent themselves, so all of them are roots and get their turn. */
  lemma AppliedHulls(t: Table, spans: seq<Span>, summary: Option<Summary>, now: int, root: Option<ID>, done: set<ID>)
    requires Filled(t, spans, summary, now) && Ready(t, Parents(spans), root)
    requires root == if summary.Some? then Some(summary.value.rootID) else None
    requires forall x :: x in t ==> Refreshable(t, root, x)
    requires forall x :: x in t && x !in Parents(spans) ==> x in done
    ensures HullsAround(Applied(t, root, done), spans, root)
  {
    ParentsAreSpans(spans);
    forall x | x in t && x !in SpanIDs(spans) && Some(x) != root
      ensures Applied(t, root, done)[x].placeholder && IsHull(Applied(t, root, done)[x], Applied(t, root, done))
    {
      assert NodeAt(t, spans, summary, now, x);
      AppliedShapes(t, Parents(spans), root, done, x);
    }
  }

  lemma RootIsGrounded(parent: map<ID, ID>, r: ID)
    requires r !in parent
    ensures Grounded(parent, r)
  {
    assert Up(parent, r, 0) == Some(r);
    assert RootOf(parent, r, r);
  }

  /** What the whole refresh leaves behind, once every node below the roots had its turn. */
  lemma AppliedForest(t: Table, spans: seq<Span>, summary: Option<Summary>, now: int, root: Option<ID>, done: set<ID>)
    requires Unique(spans) && Filled(t, spans, summary, now) && Linked(Kids(t), Parents(spans))
    requires root == if summary.Some? then Some(summary.value.rootID) else None
    requires forall x :: x in t ==> Refreshable(t, root, x)
    requires forall x :: x in t && x !in Parents(spans) ==> x in done
    ensures var a := Applied(t, root, done);
            && a.Keys == t.Keys && Linked(Kids(a), Parents(spans))
            && Kept(a, spans, now) && RootKept(a, spans, summary, now) && HullsAround(a, spans, root)
            && forall x :: x in t && x in done ==> SortedByStart(a[x].children, a)
  {
    FilledIsReady(t, spans, summary, now, root);
    AppliedLinked(t, Parents(spans), root, done);
    AppliedKeeps(t, spans, summary, now, root, done);
    AppliedKeepsRoot(t, spans, summary, now, root, done);
    AppliedHulls(t, spans, summary, now, root, done);
    forall x | x in t && x in done ensures SortedByStart(Applied(t, root, done)[x].children, Applied(t, root, done)) {
      AppliedShapes(t, Parents(spans), root, done, x);
    }
  }

  // ----- The builder

  /** The nodes below some of the first `n` of a list of siblings, and the nodes done before. */
  ghost predicate Covers(kids: map<ID, seq<ID>>, parent: map<ID, ID>, path: set<ID>, ids: seq<ID>, n: nat,
                         before: set<ID>, covered: set<ID>)
    requires Linked(kids, parent) && n <= |ids|
    requires forall c :: c in ids ==> Path(parent, path, c) && c in kids
  {
    forall x :: x in covered <==>
      x in before || exists k :: 0 <= k < n && x in Preorder(kids, parent, path, ids[k])
  }

  lemma CoversAll(kids: map<ID, seq<ID>>, parent: map<ID, ID>, path: set<ID>, ids: seq<ID>,
                  before: set<ID>, covered: set<ID>)
    requires Linked(kids, parent)
    requires forall c :: c in ids ==> Path(parent, path, c) && c in kids
    requires Covers(kids, parent, path, ids, |ids|, before, covered)
    ensures forall x :: x in covered <==> x in before || x in PreorderAll(kids, parent, path, ids)
  {
    forall x ensures x in covered <==> x in before || x in PreorderAll(kids, parent, path, ids) {
      if x in PreorderAll(kids, parent, path, ids) {
        var c := InSome(kids, parent, path, ids, x);
        var k :| 0 <= k < |ids| && ids[k] == c;
      } else if k :| 0 <= k < |ids| && x in Preorder(kids, parent, path, ids[k]) {
        OneInAll(kids, parent, path, ids, ids[k], x);
      }
    }
  }

  lemma CoversNext(kids: map<ID, seq<ID>>, parent: map<ID, ID>, path: set<ID>, ids: seq<ID>, i: nat,
                   before: set<ID>, covered: set<ID>, covered': set<ID>)
    requires Linked(kids, parent) && i < |ids|
    requires forall c :: c in ids ==> Path(parent, path, c) && c in kids
    requires Covers(kids, parent, path, ids, i, before, covered)
    requires forall x :: x in covered' <==> x in covered || x in Preorder(kids, parent, path, ids[i])
    ensures Covers(kids, parent, path, ids, i + 1, before, covered')
  {
  }

  /** The next sibling's nodes have not had their turn. */
  lemma NextUncovered(kids: map<ID, seq<ID>>, parent: map<ID, ID>, path: set<ID>, ids: seq<ID>, i: nat,
                      before: set<ID>, covered: set<ID>)
    requires Linked(kids, parent) && Distinct(ids) && i < |ids|
    requires forall c :: c in ids ==> Path(parent, path, c) && c in kids
    requires Covers(kids, parent, path, ids, i, before, covered)
    requires forall x :: x in PreorderAll(kids, parent, path, ids) ==> x !in before
    ensures forall x :: x in Preorder(kids, parent, path, ids[i]) ==> x !in covered
  {
    forall x | x in Preorder(kids, parent, path, ids[i]) ensures x !in covered {
      OneInAll(kids, parent, path, ids, ids[i], x);
      forall k | 0 <= k < i ensures x !in Preorder(kids, parent, path, ids[k]) {
        SiblingsApart(kids, parent, path, ids[i], ids[k], x);
      }
    }
  }

  lemma NotBelowItself(kids: map<ID, seq<ID>>, parent: map<ID, ID>, path: set<ID>, id: ID)
    requires Linked(kids, parent) && Path(parent, path, id) && id in kids
    requires forall c :: c in kids[id] ==> Path(parent, path + {id}, c) && c in kids
    ensures id !in PreorderAll(kids, parent, path + {id}, kids[id])
    ensures forall x :: x in Preorder(kids, parent, path, id) <==>
              x == id || x in PreorderAll(kids, parent, path + {id}, kids[id])
  {
    if id in PreorderAll(kids, parent, path + {id}, kids[id]) {
      var c := InSome(kids, parent, path + {id}, kids[id], id);
      BelowIsDescendant(kids, parent, path + {id}, c, id);
    }
  }

  class TreeBuilder {
    const spans: seq<Span>
    const summary: Option<Summary>
    const now: int
    var nodes: Table
    // The ids in the order they were first entered.
    var order: seq<ID>
    var childIDs: set<ID>

    ghost predicate Valid()
      reads this
    {
      Distinct(order) && forall x :: x in order <==> x in nodes
    }

    function Root(): Option<ID> {
      if summary.Some? then Some(summary.value.rootID) else None
    }

    constructor (spans: seq<Span>, summary: Option<Summary>, now: int)
      ensures Valid() && this.spans == spans && this.summary == summary && this.now == now
      ensures nodes == map[] && childIDs == {}
    {
      this.spans, this.summary, this.now := spans, summary, now;
      nodes, order, childIDs := map[], [], {};
    }

    method Put(id: ID, node: Node)
      requires Valid()
      modifies `nodes, `order
      ensures Valid() && nodes == old(nodes)[id := node]
    {
      if id !in nodes {
        ConcatDistinct(order, [id]);
        order := order + [id];
      }
      nodes := nodes[id := node];
    }

    method AddSpans()
      requires Valid() && nodes == map[] && Unique(spans)
      modifies `nodes, `order
      ensures Valid() && nodes.Keys == SpanIDs(spans)
      ensures forall i :: 0 <= i < |spans| ==> nodes[spans[i].id] == SpanNode(spans[i], now)
    {
      var i := 0;
      while i < |spans|
        invariant i <= |spans| && Valid()
        invariant nodes.Keys == SpanIDs(spans[..i])
        invariant forall k :: 0 <= k < i ==> spans[k].id in nodes && nodes[spans[k].id] == SpanNode(spans[k], now)
      {
        assert SpanIDs(spans[..i + 1]) == SpanIDs(spans[..i]) + {spans[i].id} by {
          assert forall k :: 0 <= k < i ==> spans[..i + 1][k] == spans[..i][k];
          assert spans[..i + 1][i] == spans[i];
        }
        Put(spans[i].id, SpanNode(spans[i], now));
        i := i + 1;
      }
      assert spans[..i] == spans;
    }

    method AddSummary()
      requires Valid()
      modifies `nodes, `order
      ensures Valid()
      ensures nodes == if summary.Some? && summary.value.rootID !in old(nodes)
                       then old(nodes)[summary.value.rootID := SummaryNode(summary.value, now)] else old(nodes)
    {
      if summary.Some? && summary.value.rootID !in nodes {
        Put(summary.value.rootID, SummaryNode(summary.value, now));
      }
    }

    /** Puts a span under its parent, entering a placeholder if that is missing. */
    method LinkOne(s: Span)
      requires Valid() && s.id in nodes && s.parent.Some?
      modifies `nodes, `order, `childIDs
      ensures Valid() && childIDs == old(childIDs) + {s.id}
      ensures nodes == LinkedTo(old(nodes), s)
    {
      var p := s.parent.value;
      var parent := if p in nodes then nodes[p] else Node(nodes[s.id].start, nodes[s.id].end, false, true, []);
      Put(p, parent.(children := parent.children + [s.id]));
      childIDs := childIDs + {s.id};
    }

    /** Enters every span under its parent. */
    method LinkAll()
      requires Valid() && Unique(spans) && childIDs == {}
      requires Filled(nodes, spans, summary, now) && Linked(Kids(nodes), map[])
      modifies `nodes, `order, `childIDs
      ensures Valid() && Filled(nodes, spans, summary, now)
      ensures Linked(Kids(nodes), Parents(spans)) && childIDs == Parents(spans).Keys
    {
      var i := 0;
      while i < |spans|
        invariant i <= |spans| && Valid() && Filled(nodes, spans, summary, now)
        invariant Linked(Kids(nodes), Parents(spans[..i])) && childIDs == Parents(spans[..i]).Keys
      {
        assert spans[i].id in SpanIDs(spans);
        LinkedToLinks(nodes, spans, i);
        if spans[i].parent.Some? {
          LinkedToFilled(nodes, spans, summary, now, i);
          LinkOne(spans[i]);
        }
        i := i + 1;
      }
      assert spans[..i] == spans;
    }

    /** The nodes that are nobody's child, in order of entry. */
    method FindRoots() returns (roots: seq<ID>)
      requires Valid()
      ensures Distinct(roots) && forall x :: x in roots <==> x in nodes && x !in childIDs
    {
      roots := [];
      var i := 0;
      while i < |order|
        invariant i <= |order| && Distinct(roots)
        invariant forall x :: x in roots <==> x in order[..i] && x !in childIDs
      {
        if order[i] !in childIDs {
          assert order[i] !in order[..i];
          ConcatDistinct(roots, [order[i]]);
          roots := roots + [order[i]];
        }
        assert order[..i + 1] == order[..i] + [order[i]];
        i := i + 1;
      }
      assert order[..i] == order;
    }

    method RefreshOne(id: ID)
      requires Refreshable(nodes, Root(), id)
      modifies `nodes
      ensures nodes == old(nodes)[id := Refreshed(old(nodes), Root(), id)]
    {
      var n := nodes[id];
      var kids := n.children;
      if n.placeholder && Some(id) != Root() {
        n := Node(MinStart(kids, nodes), MaxEnd(kids, nodes), SomeOpen(kids, nodes), true, kids);
      }
      nodes := nodes[id := n.(children := SortByStart(kids, nodes))];
    }

    /**
     Refreshes a node after everything below it. `t` is the table before any refresh, `done` the nodes that had
     their turn, `path` the ancestors of the node.
     */
    method Refresh(id: ID, ghost t: Table, ghost parent: map<ID, ID>, ghost path: set<ID>, ghost done: set<ID>)
      returns (ghost done': set<ID>)
      requires Ready(t, parent, Root()) && forall x :: x in t ==> Refreshable(t, Root(), x)
      requires id in t && Path(parent, path, id) && nodes == Applied(t, Root(), done)
      requires forall x :: x in Preorder(Kids(t), parent, path, id) ==> x !in done
      modifies `nodes
      ensures nodes == Applied(t, Root(), done')
      ensures forall x :: x in done' <==> x in done || x in Preorder(Kids(t), parent, path, id)
      decreases |t.Keys - path|, 0
    {
      var kids := nodes[id].children;
      assert kids == t[id].children == Kids(t)[id];
      FewerLeft(t.Keys, path, id);
      forall c | c in kids ensures Path(parent, path + {id}, c) && c in t { ChildPath(Kids(t), parent, path, id, c); }
      ghost var below := PreorderAll(Kids(t), parent, path + {id}, kids);
      NotBelowItself(Kids(t), parent, path, id);
      done' := RefreshEach(kids, t, parent, path + {id}, done);
      RefreshAgrees(t, parent, Root(), done', id);
      AppliedOne(t, parent, Root(), done', id);
      RefreshOne(id);
      done' := done' + {id};
    }

    /** Refreshes a list of siblings, each with everything below it. */
    method RefreshEach(
      ids: seq<ID>, ghost t: Table, ghost parent: map<ID, ID>, ghost path: set<ID>, ghost done: set<ID>)
      returns (ghost done': set<ID>)
      requires Ready(t, parent, Root()) && forall x :: x in t ==> Refreshable(t, Root(), x)
      requires Distinct(ids) && forall c :: c in ids ==> Path(parent, path, c) && c in t
      requires nodes == Applied(t, Root(), done)
      requires forall x :: x in PreorderAll(Kids(t), parent, path, ids) ==> x !in done
      modifies `nodes
      ensures nodes == Applied(t, Root(), done')
      ensures forall x :: x in done' <==> x in done || x in PreorderAll(Kids(t), parent, path, ids)
      decreases |t.Keys - path|, 1
    {
      done' := done;
      var i := 0;
      while i < |ids|
        invariant i <= |ids| && nodes == Applied(t, Root(), done')
        invariant Covers(Kids(t), parent, path, ids, i, done, done')
      {
        ghost var covered := done';
        NextUncovered(Kids(t), parent, path, ids, i, done, covered);
        done' := Refresh(ids[i], t, parent, path, covered);
        CoversNext(Kids(t), parent, path, ids, i, done, covered, done');
        i := i + 1;
      }
      CoversAll(Kids(t), parent, path, ids, done, done');
    }

    /** The interval all bars are drawn in. */
    method Interval() returns (start: int, end: int)
      requires Valid()
      ensures start <= end
      ensures forall x :: x in nodes ==> start <= nodes[x].start && nodes[x].end <= end
      ensures nodes != map[] ==> exists x :: x in nodes && nodes[x].start == start
      ensures nodes != map[] && end != start ==> exists x :: x in nodes && nodes[x].end == end
      ensures nodes == map[] ==> start == end == now
    {
      if order == [] {
        assert nodes.Keys == {};
        return now, now;
      }
      assert order[0] in order && order[0] in nodes;
      start := MinStart(order, nodes);
      var last := MaxEnd(order, nodes);
      end := if last > start then last else start;
    }

    /** Enters all nodes and links them. */
    method Enter()
      requires Valid() && Unique(spans) && nodes == map[] && childIDs == {}
      modifies this
      ensures Valid() && childIDs == Parents(spans).Keys
      ensures Filled(nodes, spans, summary, now) && Linked(Kids(nodes), Parents(spans))
    {
      AddSpans();
      AddSummary();
      forall x | x in nodes ensures NodeAt(nodes, spans, summary, now, x) && nodes[x].children == [] { }
      LinkAll();
    }

    /** The recursion from the roots: exactly the nodes whose parent chain ends have their turn. */
    method RefreshBelow(roots: seq<ID>) returns (ghost done: set<ID>)
      requires Ready(nodes, Parents(spans), Root()) && forall x :: x in nodes ==> Refreshable(nodes, Root(), x)
      requires Distinct(roots) && forall r :: r in roots <==> r in nodes && r !in Parents(spans)
      modifies `nodes
      ensures nodes == Applied(old(nodes), Root(), done)
      ensures forall x :: x in done <==> x in old(nodes) && Grounded(Parents(spans), x)
    {
      ghost var t := nodes;
      EachGroundedNodeOnce(Kids(t), Parents(spans), roots);
      assert Applied(t, Root(), {}) == t;
      done := RefreshEach(roots, t, Parents(spans), {}, {});
    }

    /** Refreshes everything below the roots; nothing else is touched. */
    method RefreshForest(roots: seq<ID>)
      requires Filled(nodes, spans, summary, now) && Linked(Kids(nodes), Parents(spans)) && Unique(spans)
      requires Distinct(roots) && forall r :: r in roots <==> r in nodes && r !in Parents(spans)
      requires Valid()
      modifies `nodes
      ensures Valid()
      ensures nodes.Keys == old(nodes).Keys && Linked(Kids(nodes), Parents(spans))
      ensures Kept(nodes, spans, now) && HullsAround(nodes, spans, Root())
      ensures RootKept(nodes, spans, summary, now)
      ensures forall x :: x in nodes && Grounded(Parents(spans), x) ==> SortedByStart(nodes[x].children, nodes)
    {
      ghost var t := nodes;
      FilledIsReady(t, spans, summary, now, Root());
      ReadyIsRefreshable(t, Parents(spans), Root());
      ghost var done := RefreshBelow(roots);
      forall x | x in t && x !in Parents(spans) ensures x in done { RootIsGrounded(Parents(spans), x); }
      AppliedForest(t, spans, summary, now, Root(), done);
    }

    method SortRoots(found: seq<ID>) returns (roots: seq<ID>)
      requires Distinct(found) && forall r :: r in found ==> r in nodes
      ensures Distinct(roots) && SortedByStart(roots, nodes) && forall r :: r in roots <==> r in found
    {
      roots := SortByStart(found, nodes);
      SortIsSorted(found, nodes);
      SortDistinct(found, nodes);
    }

    /**
     The whole tree. Its links are the spans' parent pointers; the roots are the nodes nobody points from, in order
     of start; exactly the nodes whose parent chain ends are drawn, once each; span nodes keep their own interval,
     and so does the summary's root when no span has its id; each placeholder for a missing parent spans exactly its
     children and is open while one of them is; and the interval is that of all nodes together.
     */
    method Build() returns (roots: seq<ID>, start: int, end: int)
      requires Valid() && Unique(spans) && nodes == map[] && childIDs == {}
      modifies this
      ensures Linked(Kids(nodes), Parents(spans)) && Distinct(roots)
      ensures forall r :: r in roots <==> r in nodes && r !in Parents(spans)
      ensures SortedByStart(roots, nodes)
      ensures Distinct(Drawn(Kids(nodes), Parents(spans), roots))
      ensures forall x :: x in Drawn(Kids(nodes), Parents(spans), roots) <==>
                x in nodes && Grounded(Parents(spans), x)
      ensures forall x :: x in Drawn(Kids(nodes), Parents(spans), roots) ==> SortedByStart(nodes[x].children, nodes)
      ensures Kept(nodes, spans, now) && HullsAround(nodes, spans, Root())
      ensures RootKept(nodes, spans, summary, now)
      ensures forall x :: x in nodes ==> start <= nodes[x].start && nodes[x].end <= end
      ensures nodes != map[] ==> exists x :: x in nodes && nodes[x].start == start
      ensures nodes != map[] && end != start ==> exists x :: x in nodes && nodes[x].end == end
      ensures nodes == map[] ==> start == end == now
    {
      Enter();
      var found := FindRoots();
      RefreshForest(found);
      roots := SortRoots(found);
      EachGroundedNodeOnce(Kids(nodes), Parents(spans), roots);
      start, end := Interval();
    }
  }
}
