/**
 The traversal of a tool's input schema that looks for `x-mcp-header` annotations: which nodes it visits, in which
 order, and why it ends even when references are circular.
 */
module HeaderWalk {
  import opened Options
  import opened JsonPointer

  type Path = seq<string>

  // ----- References, and why the walk ends

  function OwnRef(fields: seq<Field>): Option<string> {
    match Get(fields, "$ref")
    case Some(Str(text)) => Some(text)
    case _ => None
  }

  /** Every reference some node of a value holds. */
  function Refs(j: Json): set<string> {
    match j
    case Arr(elements) => ElementRefs(elements)
    case Obj(fields) => (if OwnRef(fields).Some? then {OwnRef(fields).value} else {}) + FieldRefs(fields)
    case _ => {}
  }

  function ElementRefs(elements: seq<Json>): set<string> {
    if elements == [] then {} else Refs(elements[0]) + ElementRefs(elements[1..])
  }

  function FieldRefs(fields: seq<Field>): set<string> {
    if fields == [] then {} else Refs(fields[0].value) + FieldRefs(fields[1..])
  }

  /** A value inside another one: smaller, and holding none but its references. */
  ghost predicate IsPart(part: Json, whole: Json) {
    Size(part) < Size(whole) && Refs(part) <= Refs(whole)
  }

  lemma {:induction false} ElementRefsIn(elements: seq<Json>, i: nat)
    requires i < |elements|
    ensures Refs(elements[i]) <= ElementRefs(elements)
  {
    if i > 0 { ElementRefsIn(elements[1..], i - 1); }
  }

  lemma {:induction false} FieldRefsIn(fields: seq<Field>, i: nat)
    requires i < |fields|
    ensures Refs(fields[i].value) <= FieldRefs(fields)
  {
    if i > 0 { FieldRefsIn(fields[1..], i - 1); }
  }

  lemma ElementIsPart(elements: seq<Json>, i: nat)
    requires i < |elements|
    ensures IsPart(elements[i], Arr(elements))
  {
    ElementIsSmaller(elements, i);
    ElementRefsIn(elements, i);
  }

  lemma FieldIsPart(fields: seq<Field>, i: nat)
    requires i < |fields|
    ensures IsPart(fields[i].value, Obj(fields))
  {
    FieldIsSmaller(fields, i);
    FieldRefsIn(fields, i);
  }

  lemma MemberRefs(j: Json, token: string)
    ensures Member(j, token).Some? ==> Refs(Member(j, token).value) <= Refs(j)
  {
    if Member(j, token).Some? {
      match j
      case Obj(fields) =>
        var i :| 0 <= i < |fields| && fields[i].value == Get(fields, token).value;
        FieldIsPart(fields, i);
      case Arr(elements) =>
        if token != "length" {
          var i :| 0 <= i < |elements| && elements[i] == Element(elements, token, 0).value;
          ElementIsPart(elements, i);
        }
      case _ =>
    }
  }

  lemma {:induction false} FollowRefs(j: Json, tokens: seq<string>)
    ensures Follow(j, tokens).Some? ==> Refs(Follow(j, tokens).value) <= Refs(j)
    decreases |tokens|
  {
    if tokens != [] && Member(j, tokens[0]).Some? {
      MemberRefs(j, tokens[0]);
      FollowRefs(Member(j, tokens[0]).value, tokens[1..]);
    }
  }

  lemma ResolvedRefs(root: Json, ref: string)
    ensures Resolved(root, ref).Some? ==> Refs(Resolved(root, ref).value) <= Refs(root)
  {
    if IsLocal(ref) { FollowRefs(root, Decoded(Split(ref[2..], '/'))); }
  }

  // ----- The descent

  datatype Child = Child(node: Json, path: Path, inArray: bool)

  /** The branches of a composition keyword stay at the same path. */
  function Branches(v: Option<Json>, path: Path, inArray: bool): seq<Child> {
    match v
    case Some(Arr(elements)) => seq(|elements|, i requires 0 <= i < |elements| => Child(elements[i], path, inArray))
    case _ => []
  }

  /** Array element schemas: one schema, or a list of them. */
  function Items(v: Option<Json>, path: Path): seq<Child> {
    match v
    case Some(Obj(fields)) => [Child(Obj(fields), path, true)]
    case _ => Branches(v, path, true)
  }

  /** The entries of `properties` extend the path with their key; an array's keys are its indices. */
  function Properties(v: Option<Json>, path: Path, inArray: bool): seq<Child> {
    match v
    case Some(Obj(fields)) =>
      seq(|fields|, i requires 0 <= i < |fields| => Child(fields[i].value, path + [fields[i].key], inArray))
    case Some(Arr(elements)) =>
      seq(|elements|, i requires 0 <= i < |elements| => Child(elements[i], path + [DecimalText(i)], inArray))
    case _ => []
  }

  function Children(fields: seq<Field>, path: Path, inArray: bool): seq<Child> {
    Branches(Get(fields, "allOf"), path, inArray) + Branches(Get(fields, "anyOf"), path, inArray)
    + Branches(Get(fields, "oneOf"), path, inArray)
    + Items(Get(fields, "prefixItems"), path) + Items(Get(fields, "items"), path)
    + Properties(Get(fields, "properties"), path, inArray)
  }

  ghost predicate AllParts(children: seq<Child>, whole: Json) {
    forall i :: 0 <= i < |children| ==> IsPart(children[i].node, whole)
  }

  lemma KeywordParts(fields: seq<Field>, key: string, path: Path, inArray: bool)
    ensures AllParts(Branches(Get(fields, key), path, inArray), Obj(fields))
    ensures AllParts(Items(Get(fields, key), path), Obj(fields))
    ensures AllParts(Properties(Get(fields, key), path, inArray), Obj(fields))
  {
    if Get(fields, key).Some? {
      var v := Get(fields, key).value;
      var k :| 0 <= k < |fields| && fields[k].value == v;
      FieldIsPart(fields, k);
      match v
      case Arr(elements) =>
        forall i | 0 <= i < |elements| ensures IsPart(elements[i], v) { ElementIsPart(elements, i); }
      case Obj(members) =>
        forall i | 0 <= i < |members| ensures IsPart(members[i].value, v) { FieldIsPart(members, i); }
      case _ =>
    }
  }

  lemma PartsConcat(a: seq<Child>, b: seq<Child>, whole: Json)
    requires AllParts(a, whole) && AllParts(b, whole)
    ensures AllParts(a + b, whole)
  {
  }

  lemma ChildrenAreParts(fields: seq<Field>, path: Path, inArray: bool)
    ensures AllParts(Children(fields, path, inArray), Obj(fields))
  {
    var all := Branches(Get(fields, "allOf"), path, inArray);
    var any, one := Branches(Get(fields, "anyOf"), path, inArray), Branches(Get(fields, "oneOf"), path, inArray);
    var first, items := Items(Get(fields, "prefixItems"), path), Items(Get(fields, "items"), path);
    KeywordParts(fields, "allOf", path, inArray);
    KeywordParts(fields, "anyOf", path, inArray);
    PartsConcat(all, any, Obj(fields));
    KeywordParts(fields, "oneOf", path, inArray);
    PartsConcat(all + any, one, Obj(fields));
    KeywordParts(fields, "prefixItems", path, inArray);
    PartsConcat(all + any + one, first, Obj(fields));
    KeywordParts(fields, "items", path, inArray);
    PartsConcat(all + any + one + first, items, Obj(fields));
    KeywordParts(fields, "properties", path, inArray);
    PartsConcat(all + any + one + first + items, Properties(Get(fields, "properties"), path, inArray), Obj(fields));
  }

  // ----- The visits

  datatype Event =
    | Visit(path: Path, inArray: bool, fields: seq<Field>)
    | Circular(ref: string)
    | Unresolved(ref: string)

  /**
   Everything the walk meets below a node, in order. It ends on every schema: a reference leads on only while it
   is not on the stack, and otherwise the walk goes to smaller values.
   */
  ghost function Visits(root: Json, node: Json, path: Path, stack: set<string>, inArray: bool): seq<Event>
    requires Refs(node) <= Refs(root)
    decreases |Refs(root) - stack|, Size(node)
  {
    match node
    case Obj(fields) =>
      ChildrenAreParts(fields, path, inArray);
      [Visit(path, inArray, fields)] + RefVisits(root, node, path, stack, inArray)
      + VisitsAll(root, Children(fields, path, inArray), stack, Size(node))
    case _ => []
  }

  ghost function RefVisits(root: Json, node: Json, path: Path, stack: set<string>, inArray: bool): seq<Event>
    requires Refs(node) <= Refs(root) && node.Obj?
    decreases |Refs(root) - stack|, Size(node), 0
  {
    match OwnRef(node.fields)
    case None => []
    case Some(ref) =>
      if ref in stack then [Circular(ref)]
      else
        match Resolved(root, ref)
        case None => [Unresolved(ref)]
        case Some(target) =>
          ResolvedRefs(root, ref);
          FewerLeft(Refs(root), stack, ref);
          Visits(root, target, path, stack + {ref}, inArray)
  }

  ghost function VisitsAll(root: Json, children: seq<Child>, stack: set<string>, bound: nat): seq<Event>
    requires forall i :: 0 <= i < |children| ==>
               Size(children[i].node) < bound && Refs(children[i].node) <= Refs(root)
    decreases |Refs(root) - stack|, bound, 0, |children|
  {
    if children == [] then []
    else
      Visits(root, children[0].node, children[0].path, stack, children[0].inArray)
      + VisitsAll(root, children[1..], stack, bound)
  }

  // ----- The walk visits exactly what is reachable

  /** The visits of a child are among those of its siblings' list. */
  lemma {:induction false} ChildVisits(root: Json, children: seq<Child>, stack: set<string>, bound: nat, i: nat)
    requires forall k :: 0 <= k < |children| ==>
               Size(children[k].node) < bound && Refs(children[k].node) <= Refs(root)
    requires i < |children|
    ensures var c := children[i];
            forall e :: e in Visits(root, c.node, c.path, stack, c.inArray) ==>
                          e in VisitsAll(root, children, stack, bound)
    decreases |children|
  {
    if i > 0 { ChildVisits(root, children[1..], stack, bound, i - 1); }
  }

  /** An event of a list of children comes from one of them. */
  lemma {:induction false} FromChild(root: Json, children: seq<Child>, stack: set<string>, bound: nat, e: Event)
    returns (i: nat)
    requires forall k :: 0 <= k < |children| ==>
               Size(children[k].node) < bound && Refs(children[k].node) <= Refs(root)
    requires e in VisitsAll(root, children, stack, bound)
    ensures i < |children| && e in Visits(root, children[i].node, children[i].path, stack, children[i].inArray)
    decreases |children|
  {
    if e in Visits(root, children[0].node, children[0].path, stack, children[0].inArray) {
      i := 0;
    } else {
      var rest := children[1..];
      assert forall k :: 0 <= k < |rest| ==> rest[k] == children[k + 1];
      var k := FromChild(root, rest, stack, bound, e);
      i := k + 1;
    }
  }

  /** One step down from a node: to a child schema, or to the target of its own reference. */
  ghost predicate Descends(root: Json, from: Event, to: Event)
    requires from.Visit? && to.Visit?
  {
    || Child(Obj(to.fields), to.path, to.inArray) in Children(from.fields, from.path, from.inArray)
    || (OwnRef(from.fields).Some? && Resolved(root, OwnRef(from.fields).value) == Some(Obj(to.fields))
        && to.path == from.path && to.inArray == from.inArray)
  }

  ghost predicate NoCircle(events: seq<Event>) {
    forall e :: e in events ==> !e.Circular?
  }

  lemma ChildIsVisited(root: Json, children: seq<Child>, stack: set<string>, bound: nat, to: Event)
    requires forall k :: 0 <= k < |children| ==>
               Size(children[k].node) < bound && Refs(children[k].node) <= Refs(root)
    requires to.Visit? && Child(Obj(to.fields), to.path, to.inArray) in children
    ensures to in VisitsAll(root, children, stack, bound)
  {
    var i :| 0 <= i < |children| && children[i] == Child(Obj(to.fields), to.path, to.inArray);
    ChildVisits(root, children, stack, bound, i);
  }

  lemma TargetIsVisited(root: Json, node: Json, path: Path, stack: set<string>, inArray: bool, fields: seq<Field>)
    requires Refs(node) <= Refs(root) && node.Obj?
    requires NoCircle(RefVisits(root, node, path, stack, inArray))
    requires OwnRef(node.fields).Some? && Resolved(root, OwnRef(node.fields).value) == Some(Obj(fields))
    ensures Visit(path, inArray, fields) in RefVisits(root, node, path, stack, inArray)
  {
    var ref := OwnRef(node.fields).value;
    ResolvedRefs(root, ref);
    CircleIsSeen(root, node, path, stack, inArray);
  }

  lemma CircleIsSeen(root: Json, node: Json, path: Path, stack: set<string>, inArray: bool)
    requires Refs(node) <= Refs(root) && node.Obj? && OwnRef(node.fields).Some?
    ensures OwnRef(node.fields).value in stack ==> !NoCircle(RefVisits(root, node, path, stack, inArray))
  {
    if OwnRef(node.fields).value in stack {
      assert Circular(OwnRef(node.fields).value) in RefVisits(root, node, path, stack, inArray);
    }
  }

  /** The three parts of a node's visits. */
  lemma Parts(root: Json, fields: seq<Field>, path: Path, stack: set<string>, inArray: bool)
    returns (below: seq<Event>, children: seq<Child>, rest: seq<Event>)
    requires Refs(Obj(fields)) <= Refs(root)
    ensures below == RefVisits(root, Obj(fields), path, stack, inArray)
    ensures children == Children(fields, path, inArray) && AllParts(children, Obj(fields))
    ensures rest == VisitsAll(root, children, stack, Size(Obj(fields)))
    ensures Visits(root, Obj(fields), path, stack, inArray) == [Visit(path, inArray, fields)] + below + rest
  {
    children := Children(fields, path, inArray);
    ChildrenAreParts(fields, path, inArray);
    below := RefVisits(root, Obj(fields), path, stack, inArray);
    rest := VisitsAll(root, children, stack, Size(Obj(fields)));
  }

  /** What a node itself leads to is among its visits. */
  lemma OwnDescent(root: Json, fields: seq<Field>, path: Path, stack: set<string>, inArray: bool, to: Event)
    requires Refs(Obj(fields)) <= Refs(root)
    requires NoCircle(Visits(root, Obj(fields), path, stack, inArray))
    requires to.Visit? && Descends(root, Visit(path, inArray, fields), to)
    ensures to in Visits(root, Obj(fields), path, stack, inArray)
  {
    var below, children, rest := Parts(root, fields, path, stack, inArray);
    assert NoCircle(below) by { assert forall e :: e in below ==> e in [Visit(path, inArray, fields)] + below + rest; }
    if Child(Obj(to.fields), to.path, to.inArray) in children {
      ChildIsVisited(root, children, stack, Size(Obj(fields)), to);
    } else {
      TargetIsVisited(root, Obj(fields), path, stack, inArray, to.fields);
    }
  }

  /** In a walk that met no circular reference, whatever a visited node leads to is visited. */
  lemma {:induction false} VisitsClosed(root: Json, node: Json, path: Path, stack: set<string>, inArray: bool,
                                        from: Event, to: Event)
    requires Refs(node) <= Refs(root)
    requires NoCircle(Visits(root, node, path, stack, inArray))
    requires from in Visits(root, node, path, stack, inArray) && from.Visit? && to.Visit?
    requires Descends(root, from, to)
    ensures to in Visits(root, node, path, stack, inArray)
    decreases |Refs(root) - stack|, Size(node)
  {
    var fields := node.fields;
    var children := Children(fields, path, inArray);
    if from == Visit(path, inArray, fields) {
      OwnDescent(root, fields, path, stack, inArray, to);
    } else if from in RefVisits(root, node, path, stack, inArray) {
      var ref := OwnRef(fields).value;
      var target := Resolved(root, ref).value;
      ResolvedRefs(root, ref);
      FewerLeft(Refs(root), stack, ref);
      assert RefVisits(root, node, path, stack, inArray) == Visits(root, target, path, stack + {ref}, inArray);
      VisitsClosed(root, target, path, stack + {ref}, inArray, from, to);
    } else {
      ChildrenAreParts(fields, path, inArray);
      var i := FromChild(root, children, stack, Size(node), from);
      ChildVisits(root, children, stack, Size(node), i);
      VisitsClosed(root, children[i].node, children[i].path, stack, children[i].inArray, from, to);
    }
  }

  /** A chain of descents that begins at the schema itself. */
  ghost predicate Chain(root: Json, chain: seq<Event>) {
    && chain != []
    && (forall i :: 0 <= i < |chain| ==> chain[i].Visit?)
    && root.Obj? && chain[0] == Visit([], false, root.fields)
    && forall i :: 0 < i < |chain| ==> Descends(root, chain[i - 1], chain[i])
  }

  ghost function Walk(root: Json): seq<Event> {
    Visits(root, root, [], {}, false)
  }

  /** Every node a chain of descents leads to is visited, if the walk met no circular reference. */
  lemma {:induction false} ReachableIsVisited(root: Json, chain: seq<Event>)
    requires Chain(root, chain) && NoCircle(Walk(root))
    ensures chain[|chain| - 1] in Walk(root)
    decreases |chain|
  {
    if |chain| > 1 {
      var front := chain[..|chain| - 1];
      ReachableIsVisited(root, front);
      VisitsClosed(root, root, [], {}, false, front[|front| - 1], chain[|chain| - 1]);
    }
  }

  lemma LongerChain(root: Json, chain: seq<Event>, next: Event)
    requires Chain(root, chain) && next.Visit? && Descends(root, chain[|chain| - 1], next)
    ensures Chain(root, chain + [next])
  {
    var longer := chain + [next];
    forall i | 0 < i < |longer| ensures Descends(root, longer[i - 1], longer[i]) {
      if i < |chain| {
        assert Descends(root, chain[i - 1], chain[i]);
        assert longer[i - 1] == chain[i - 1] && longer[i] == chain[i];
      }
    }
  }

  lemma BelowRef(root: Json, last: Event, stack: set<string>, e: Event) returns (node: Json, stack': set<string>)
    requires last.Visit? && Refs(Obj(last.fields)) <= Refs(root) && e.Visit?
    requires e in RefVisits(root, Obj(last.fields), last.path, stack, last.inArray)
    ensures node.Obj? && Descends(root, last, Visit(last.path, last.inArray, node.fields))
    ensures Refs(node) <= Refs(root) && e in Visits(root, node, last.path, stack', last.inArray)
    ensures |Refs(root) - stack'| < |Refs(root) - stack|
  {
    var ref := OwnRef(last.fields).value;
    node := Resolved(root, ref).value;
    ResolvedRefs(root, ref);
    FewerLeft(Refs(root), stack, ref);
    stack' := stack + {ref};
    assert e in Visits(root, node, last.path, stack', last.inArray);
  }

  lemma BelowChild(root: Json, last: Event, children: seq<Child>, stack: set<string>, e: Event)
    returns (node: Json, next: Event)
    requires last.Visit? && children == Children(last.fields, last.path, last.inArray) && e.Visit?
    requires AllParts(children, Obj(last.fields)) && Refs(Obj(last.fields)) <= Refs(root)
    requires e in VisitsAll(root, children, stack, Size(Obj(last.fields)))
    ensures node.Obj? && next.Visit? && next.fields == node.fields && Descends(root, last, next)
    ensures Refs(node) <= Refs(root) && e in Visits(root, node, next.path, stack, next.inArray)
    ensures Size(node) < Size(Obj(last.fields))
  {
    var i := FromChild(root, children, stack, Size(Obj(last.fields)), e);
    var c := children[i];
    node := c.node;
    assert c in children && c.node.Obj? && IsPart(c.node, Obj(last.fields));
    next := Visit(c.path, c.inArray, c.node.fields);
    assert c == Child(Obj(next.fields), next.path, next.inArray);
  }

  /** Where an event below a node comes from: the target of its reference, or one of its children. */
  lemma Below(root: Json, last: Event, stack: set<string>, e: Event)
    returns (node: Json, next: Event, stack': set<string>)
    requires last.Visit? && Refs(Obj(last.fields)) <= Refs(root)
    requires e in Visits(root, Obj(last.fields), last.path, stack, last.inArray) && e.Visit? && e != last
    ensures node.Obj? && next.Visit? && next.fields == node.fields && Descends(root, last, next)
    ensures Refs(node) <= Refs(root) && e in Visits(root, node, next.path, stack', next.inArray)
    ensures |Refs(root) - stack'| < |Refs(root) - stack| || (stack' == stack && Size(node) < Size(Obj(last.fields)))
  {
    var below, children, rest := Parts(root, last.fields, last.path, stack, last.inArray);
    if e in below {
      node, stack' := BelowRef(root, last, stack, e);
      next := Visit(last.path, last.inArray, node.fields);
    } else {
      node, next := BelowChild(root, last, children, stack, e);
      stack' := stack;
    }
  }

  /** And every visited node is at the end of such a chain. */
  lemma {:induction false} VisitedIsReachable(root: Json, stack: set<string>, chain: seq<Event>, here: Event, e: Event)
    returns (longer: seq<Event>)
    requires Chain(root, chain) && chain[|chain| - 1] == here && here.Visit? && Refs(Obj(here.fields)) <= Refs(root)
    requires e in Visits(root, Obj(here.fields), here.path, stack, here.inArray) && e.Visit?
    ensures Chain(root, longer) && longer[|longer| - 1] == e
    decreases |Refs(root) - stack|, Size(Obj(here.fields))
  {
    if e == here {
      longer := chain;
    } else {
      var node, next, stack' := Below(root, here, stack, e);
      LongerChain(root, chain, next);
      assert node == Obj(next.fields);
      longer := VisitedIsReachable(root, stack', chain + [next], next, e);
    }
  }

  /** Without circular references the walk visits exactly the nodes that chains of descents lead to. */
  lemma WalkIsReachability(root: Json, e: Event)
    requires root.Obj? && NoCircle(Walk(root)) && e.Visit?
    ensures e in Walk(root) <==> exists chain :: Chain(root, chain) && chain[|chain| - 1] == e
  {
    if e in Walk(root) {
      var top := Visit([], false, root.fields);
      var chain := VisitedIsReachable(root, {}, [top], top, e);
    } else if exists chain :: Chain(root, chain) && chain[|chain| - 1] == e {
      var chain :| Chain(root, chain) && chain[|chain| - 1] == e;
      ReachableIsVisited(root, chain);
    }
  }
}
