/**
 Parent pointers that may dangle or run in circles, and the forest that hangs below the nodes without a parent.
 */
module Forest {
  import opened Options

  type ID = string

  /** The children of each node, in some order, agree with the parent pointers, and every node has a list. */
  ghost predicate Linked(kids: map<ID, seq<ID>>, parent: map<ID, ID>) {
    && parent.Keys <= kids.Keys
    && (forall c :: c in parent ==> parent[c] in kids)
    && (forall p, c :: p in kids ==> (c in kids[p] <==> c in parent && parent[c] == p))
    && forall p :: p in kids ==> Distinct(kids[p])
  }

  ghost predicate Distinct(s: seq<ID>) {
    forall i, j :: 0 <= i < j < |s| ==> s[i] != s[j]
  }

  /** The ancestor `n` steps up, if the chain gets that far. */
  function Up(parent: map<ID, ID>, x: ID, n: nat): Option<ID>
    decreases n
  {
    if n == 0 then Some(x)
    else if x in parent then Up(parent, parent[x], n - 1)
    else None
  }

  ghost predicate IsAncestor(parent: map<ID, ID>, a: ID, x: ID) {
    exists n: nat :: Up(parent, x, n) == Some(a)
  }

  /** The path holds every proper ancestor of the node and of the path itself. */
  ghost predicate Path(parent: map<ID, ID>, path: set<ID>, id: ID) {
    id !in path && forall x :: (x in path || x == id) && x in parent ==> parent[x] in path
  }

  lemma ChildPath(kids: map<ID, seq<ID>>, parent: map<ID, ID>, path: set<ID>, id: ID, c: ID)
    requires Linked(kids, parent) && Path(parent, path, id) && id in kids && c in kids[id]
    ensures Path(parent, path + {id}, c) && c in kids
  {
    assert c in parent && parent[c] == id;
    assert c in path || c == id ==> id in path;
  }

  /**
   The nodes below one, itself first. It ends because a child is never on the path to its parent, even though the
   pointers may run in circles elsewhere.
   */
  ghost function Preorder(kids: map<ID, seq<ID>>, parent: map<ID, ID>, path: set<ID>, id: ID): seq<ID>
    requires Linked(kids, parent) && Path(parent, path, id) && id in kids
    decreases |kids.Keys - path|, 0
  {
    FewerLeft(kids.Keys, path, id);
    assert forall c :: c in kids[id] ==> Path(parent, path + {id}, c) && c in kids by {
      forall c | c in kids[id] { ChildPath(kids, parent, path, id, c); }
    }
    [id] + PreorderAll(kids, parent, path + {id}, kids[id])
  }

  ghost function PreorderAll(kids: map<ID, seq<ID>>, parent: map<ID, ID>, path: set<ID>, ids: seq<ID>): seq<ID>
    requires Linked(kids, parent)
    requires forall c :: c in ids ==> Path(parent, path, c) && c in kids
    decreases |kids.Keys - path|, 1, |ids|
  {
    if ids == [] then []
    else Preorder(kids, parent, path, ids[0]) + PreorderAll(kids, parent, path, ids[1..])
  }

  // ----- What is below a node

  lemma {:induction false} UpUp(parent: map<ID, ID>, x: ID, n: nat, m: nat)
    requires Up(parent, x, n).Some?
    ensures Up(parent, x, n + m) == Up(parent, Up(parent, x, n).value, m)
    decreases n
  {
    if n > 0 { UpUp(parent, parent[x], n - 1, m); }
  }

  /** All proper ancestors of a node are on its path. */
  lemma {:induction false} AncestorsOnPath(parent: map<ID, ID>, path: set<ID>, id: ID, x: ID, n: nat)
    requires Path(parent, path, id) && (x in path || x == id) && n > 0 && Up(parent, x, n).Some?
    ensures Up(parent, x, n).value in path
    decreases n
  {
    if n > 1 { AncestorsOnPath(parent, path, id, parent[x], n - 1); }
  }

  lemma {:induction false} BelowIsDescendant(kids: map<ID, seq<ID>>, parent: map<ID, ID>, path: set<ID>, id: ID, x: ID)
    requires Linked(kids, parent) && Path(parent, path, id) && id in kids
    requires x in Preorder(kids, parent, path, id)
    ensures IsAncestor(parent, id, x) && x !in path && x in kids
    decreases |kids.Keys - path|
  {
    if x == id {
      assert Up(parent, x, 0) == Some(id);
    } else {
      FewerLeft(kids.Keys, path, id);
      forall c | c in kids[id] ensures Path(parent, path + {id}, c) && c in kids {
        ChildPath(kids, parent, path, id, c);
      }
      var c := InSome(kids, parent, path + {id}, kids[id], x);
      BelowIsDescendant(kids, parent, path + {id}, c, x);
      var n: nat :| Up(parent, x, n) == Some(c);
      UpUp(parent, x, n, 1);
      assert Up(parent, c, 1) == Some(id);
    }
  }

  lemma {:induction false} InSome(kids: map<ID, seq<ID>>, parent: map<ID, ID>, path: set<ID>, ids: seq<ID>, x: ID)
    returns (c: ID)
    requires Linked(kids, parent)
    requires forall c :: c in ids ==> Path(parent, path, c) && c in kids
    requires x in PreorderAll(kids, parent, path, ids)
    ensures c in ids && x in Preorder(kids, parent, path, c)
    decreases |ids|
  {
    if x in Preorder(kids, parent, path, ids[0]) {
      c := ids[0];
    } else {
      c := InSome(kids, parent, path, ids[1..], x);
    }
  }

  lemma {:induction false} OneInAll(
    kids: map<ID, seq<ID>>, parent: map<ID, ID>, path: set<ID>, ids: seq<ID>, c: ID, x: ID)
    requires Linked(kids, parent)
    requires forall c :: c in ids ==> Path(parent, path, c) && c in kids
    requires c in ids && x in Preorder(kids, parent, path, c)
    ensures x in PreorderAll(kids, parent, path, ids)
    decreases |ids|
  {
    if c != ids[0] { OneInAll(kids, parent, path, ids[1..], c, x); }
  }

  lemma {:induction false} DescendantIsBelow(
    kids: map<ID, seq<ID>>, parent: map<ID, ID>, path: set<ID>, id: ID, x: ID, n: nat)
    requires Linked(kids, parent) && Path(parent, path, id) && id in kids
    requires Up(parent, x, n) == Some(id)
    ensures x in Preorder(kids, parent, path, id)
    decreases n
  {
    if n > 0 {
      FewerLeft(kids.Keys, path, id);
      forall c | c in kids[id] ensures Path(parent, path + {id}, c) && c in kids {
        ChildPath(kids, parent, path, id, c);
      }
      LastStep(parent, x, n);
      var c := Up(parent, x, n - 1).value;
      assert c in kids[id];
      DescendantIsBelow(kids, parent, path + {id}, c, x, n - 1);
      OneInAll(kids, parent, path + {id}, kids[id], c, x);
    }
  }

  lemma LastStep(parent: map<ID, ID>, x: ID, n: nat)
    requires n > 0 && Up(parent, x, n).Some?
    ensures Up(parent, x, n - 1).Some? && Up(parent, x, n - 1).value in parent
    ensures parent[Up(parent, x, n - 1).value] == Up(parent, x, n).value
  {
    Shorter(parent, x, n - 1, n);
    UpUp(parent, x, n - 1, 1);
    assert Up(parent, Up(parent, x, n - 1).value, 1).Some?;
  }

  lemma {:induction false} Shorter(parent: map<ID, ID>, x: ID, n: nat, m: nat)
    requires n <= m && Up(parent, x, m).Some?
    ensures Up(parent, x, n).Some?
    decreases n
  {
    if n > 0 { Shorter(parent, parent[x], n - 1, m - 1); }
  }

  lemma HigherIsOnPath(parent: map<ID, ID>, path: set<ID>, c: ID, d: ID, x: ID, n: nat, m: nat)
    requires Path(parent, path, c) && Up(parent, x, n) == Some(c) && Up(parent, x, m) == Some(d) && n < m
    ensures d in path
  {
    UpUp(parent, x, n, m - n);
    AncestorsOnPath(parent, path, c, c, m - n);
  }

  /** Two nodes whose paths are the same have nothing below them in common. */
  lemma SiblingsApart(kids: map<ID, seq<ID>>, parent: map<ID, ID>, path: set<ID>, c: ID, d: ID, x: ID)
    requires Linked(kids, parent) && Path(parent, path, c) && Path(parent, path, d) && c in kids && d in kids && c != d
    requires x in Preorder(kids, parent, path, c)
    ensures x !in Preorder(kids, parent, path, d)
  {
    if x in Preorder(kids, parent, path, d) {
      BelowIsDescendant(kids, parent, path, c, x);
      BelowIsDescendant(kids, parent, path, d, x);
      var n: nat :| Up(parent, x, n) == Some(c);
      var m: nat :| Up(parent, x, m) == Some(d);
      if n < m {
        HigherIsOnPath(parent, path, c, d, x, n, m);
      } else if m < n {
        HigherIsOnPath(parent, path, d, c, x, m, n);
      }
    }
  }

  lemma {:induction false} BelowAllDistinct(kids: map<ID, seq<ID>>, parent: map<ID, ID>, path: set<ID>, ids: seq<ID>)
    requires Linked(kids, parent) && Distinct(ids)
    requires forall c :: c in ids ==> Path(parent, path, c) && c in kids
    requires forall c :: c in ids ==> Distinct(Preorder(kids, parent, path, c))
    ensures Distinct(PreorderAll(kids, parent, path, ids))
    decreases |ids|
  {
    if ids != [] {
      BelowAllDistinct(kids, parent, path, ids[1..]);
      var first, rest := Preorder(kids, parent, path, ids[0]), PreorderAll(kids, parent, path, ids[1..]);
      forall x | x in first ensures x !in rest {
        if x in rest {
          var d := InSome(kids, parent, path, ids[1..], x);
          SiblingsApart(kids, parent, path, ids[0], d, x);
        }
      }
      ConcatDistinct(first, rest);
    }
  }

  lemma ConcatDistinct(a: seq<ID>, b: seq<ID>)
    requires Distinct(a) && Distinct(b) && forall x :: x in a ==> x !in b
    ensures Distinct(a + b)
  {
    forall i, j | 0 <= i < j < |a + b| ensures (a + b)[i] != (a + b)[j] {
      if i < |a| <= j { assert a[i] in a && b[j - |a|] in b; }
    }
  }

  /** No node is met twice below another. */
  lemma {:induction false} BelowDistinct(kids: map<ID, seq<ID>>, parent: map<ID, ID>, path: set<ID>, id: ID)
    requires Linked(kids, parent) && Path(parent, path, id) && id in kids
    ensures Distinct(Preorder(kids, parent, path, id))
    decreases |kids.Keys - path|
  {
    FewerLeft(kids.Keys, path, id);
    forall c | c in kids[id] ensures Path(parent, path + {id}, c) && c in kids { ChildPath(kids, parent, path, id, c); }
    forall c | c in kids[id] ensures Distinct(Preorder(kids, parent, path + {id}, c)) {
      BelowDistinct(kids, parent, path + {id}, c);
    }
    BelowAllDistinct(kids, parent, path + {id}, kids[id]);
    var rest := PreorderAll(kids, parent, path + {id}, kids[id]);
    forall x | x in rest ensures x != id {
      var c := InSome(kids, parent, path + {id}, kids[id], x);
      BelowIsDescendant(kids, parent, path + {id}, c, x);
    }
    ConcatDistinct([id], rest);
  }

  // ----- The whole forest

  /** The parent chain of a node ends at this root. */
  ghost predicate RootOf(parent: map<ID, ID>, r: ID, x: ID) {
    r !in parent && IsAncestor(parent, r, x)
  }

  /** The node's parent chain ends. */
  ghost predicate Grounded(parent: map<ID, ID>, x: ID) {
    exists r :: RootOf(parent, r, x)
  }

  lemma RootsAreUnique(parent: map<ID, ID>, r: ID, r': ID, x: ID)
    requires RootOf(parent, r, x) && RootOf(parent, r', x)
    ensures r == r'
  {
    var n: nat :| Up(parent, x, n) == Some(r);
    var m: nat :| Up(parent, x, m) == Some(r');
    if n < m { UpUp(parent, x, n, m - n); } else if m < n { UpUp(parent, x, m, n - m); }
  }

  /** The forest below a list of roots, in order. */
  ghost function Drawn(kids: map<ID, seq<ID>>, parent: map<ID, ID>, roots: seq<ID>): seq<ID>
    requires Linked(kids, parent) && forall r :: r in roots ==> r in kids && r !in parent
  {
    PreorderAll(kids, parent, {}, roots)
  }

  /** With all roots listed once, a node is drawn exactly if its parent chain ends, once, below its one root. */
  lemma EachGroundedNodeOnce(kids: map<ID, seq<ID>>, parent: map<ID, ID>, roots: seq<ID>)
    requires Linked(kids, parent) && Distinct(roots)
    requires forall r :: r in roots <==> r in kids && r !in parent
    ensures Distinct(Drawn(kids, parent, roots))
    ensures forall x :: x in Drawn(kids, parent, roots) <==> x in kids && Grounded(parent, x)
    ensures forall r, x :: r in roots ==> (x in Preorder(kids, parent, {}, r) <==> RootOf(parent, r, x))
  {
    forall r | r in roots ensures Distinct(Preorder(kids, parent, {}, r)) { BelowDistinct(kids, parent, {}, r); }
    BelowAllDistinct(kids, parent, {}, roots);
    forall r, x | r in roots ensures x in Preorder(kids, parent, {}, r) <==> RootOf(parent, r, x) {
      BelowRoot(kids, parent, r, x);
    }
    forall x ensures x in Drawn(kids, parent, roots) <==> x in kids && Grounded(parent, x) {
      if x in Drawn(kids, parent, roots) {
        var r := InSome(kids, parent, {}, roots, x);
        BelowIsDescendant(kids, parent, {}, r, x);
        assert RootOf(parent, r, x);
      } else if x in kids && Grounded(parent, x) {
        var r :| RootOf(parent, r, x);
        RootIsKnown(kids, parent, r, x);
        OneInAll(kids, parent, {}, roots, r, x);
      }
    }
  }

  lemma BelowRoot(kids: map<ID, seq<ID>>, parent: map<ID, ID>, r: ID, x: ID)
    requires Linked(kids, parent) && r in kids && r !in parent
    ensures x in Preorder(kids, parent, {}, r) <==> RootOf(parent, r, x)
  {
    if x in Preorder(kids, parent, {}, r) {
      BelowIsDescendant(kids, parent, {}, r, x);
    } else if RootOf(parent, r, x) {
      var n: nat :| Up(parent, x, n) == Some(r);
      DescendantIsBelow(kids, parent, {}, r, x, n);
    }
  }

  lemma RootIsKnown(kids: map<ID, seq<ID>>, parent: map<ID, ID>, r: ID, x: ID)
    requires Linked(kids, parent) && x in kids && RootOf(parent, r, x)
    ensures r in kids
  {
    var n: nat :| Up(parent, x, n) == Some(r);
    if n > 0 { LastStep(parent, x, n); }
  }

  /** A node on or below a circle has no root, and so is never drawn. */
  lemma {:induction false} CirclesHaveNoRoot(parent: map<ID, ID>, x: ID, k: nat, y: ID, n: nat, r: ID, m: nat)
    requires Up(parent, x, k) == Some(y) && Up(parent, y, n) == Some(y) && n > 0
    ensures !(r !in parent && Up(parent, x, m) == Some(r))
    decreases m
  {
    if m >= k + n {
      UpUp(parent, x, k, n);
      UpUp(parent, x, k + n, m - k - n);
      UpUp(parent, x, k, m - k - n);
      CirclesHaveNoRoot(parent, x, k, y, n, r, m - n);
    } else if m < k + n {
      UpUp(parent, x, k, n);
      if Up(parent, x, m) == Some(r) {
        UpUp(parent, x, m, k + n - m);
      }
    }
  }

  lemma {:induction false} DistinctFits(s: seq<ID>, all: set<ID>)
    requires Distinct(s) && forall x :: x in s ==> x in all
    ensures |s| <= |all|
    decreases |s|
  {
    if s != [] {
      var last := s[|s| - 1];
      forall x | x in s[..|s| - 1] ensures x in all - {last} {
        var i :| 0 <= i < |s| - 1 && s[i] == x;
      }
      DistinctFits(s[..|s| - 1], all - {last});
      assert |all - {last}| == |all| - 1;
    }
  }

  /** The first ancestors of a node, itself included. */
  ghost function Chain(parent: map<ID, ID>, x: ID, n: nat): (r: seq<ID>)
    requires forall m: nat :: m < n ==> Up(parent, x, m).Some?
    ensures |r| == n && forall m: nat :: m < n ==> r[m] == Up(parent, x, m).value
  {
    seq(n, m requires 0 <= m < n => Up(parent, x, m).value)
  }

  lemma {:induction false} AncestorsKnown(kids: map<ID, seq<ID>>, parent: map<ID, ID>, x: ID, n: nat)
    requires Linked(kids, parent) && x in kids && forall r :: !RootOf(parent, r, x)
    ensures Up(parent, x, n).Some? && Up(parent, x, n).value in kids
    decreases n
  {
    if n > 0 {
      AncestorsKnown(kids, parent, x, n - 1);
      var y := Up(parent, x, n - 1).value;
      assert !RootOf(parent, y, x);
      UpUp(parent, x, n - 1, 1);
      assert Up(parent, y, 1) == Some(parent[y]);
    }
  }

  /** Conversely every node without a root is on or below a circle. */
  lemma RootOrCircle(kids: map<ID, seq<ID>>, parent: map<ID, ID>, x: ID) returns (k: nat, y: ID, n: nat)
    requires Linked(kids, parent) && x in kids && forall r :: !RootOf(parent, r, x)
    ensures n > 0 && Up(parent, x, k) == Some(y) && Up(parent, y, n) == Some(y)
  {
    var size := |kids.Keys| + 1;
    forall m: nat ensures Up(parent, x, m).Some? && Up(parent, x, m).value in kids {
      AncestorsKnown(kids, parent, x, m);
    }
    var chain := Chain(parent, x, size);
    if Distinct(chain) { DistinctFits(chain, kids.Keys); }
    var i, j :| 0 <= i < j < size && chain[i] == chain[j];
    k, y, n := i, chain[i], j - i;
    UpUp(parent, x, i, j - i);
  }
}
