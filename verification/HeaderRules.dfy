/**
 The rules for `x-mcp-header` annotations, kept while the walk goes on, and what a valid schema's result holds.
 */
module HeaderRules {
  import opened Options
  import opened JsonPointer
  import opened HeaderWalk

  // ----- What is judged

  const PRIMITIVE_TYPES: set<string> := {"boolean", "integer", "string"}

  predicate IsPrimitive(t: Json) {
    t.Str? && t.text in PRIMITIVE_TYPES
  }

  /** A primitive type, or a union whose members other than "null" are primitive, with at least one of those. */
  predicate Eligible(t: Option<Json>) {
    match t
    case Some(Str(text)) => text in PRIMITIVE_TYPES
    case Some(Arr(members)) =>
      && (exists i :: 0 <= i < |members| && members[i] != Str("null"))
      && forall i :: 0 <= i < |members| && members[i] != Str("null") ==> IsPrimitive(members[i])
    case _ => false
  }

  /** The token characters of RFC 9110, section 5.6.2. */
  predicate IsTchar(c: char) {
    'a' <= c <= 'z' || 'A' <= c <= 'Z' || '0' <= c <= '9' || c in "!#$%&'*+-.^_`|~"
  }

  predicate IsToken(name: string) {
    name != "" && forall i :: 0 <= i < |name| ==> IsTchar(name[i])
  }

  function LowerChar(c: char): char {
    if 'A' <= c <= 'Z' then c - 'A' + 'a' else c
  }

  function Lower(name: string): (r: string)
    ensures |r| == |name|
  {
    seq(|name|, i requires 0 <= i < |name| => LowerChar(name[i]))
  }

  function Dotted(path: Path): string {
    Join(path, '.')
  }

  predicate Named(e: Event) {
    e.Visit? && e.path != []
  }

  function Mark(e: Event): Option<Json>
    requires e.Visit?
  {
    Get(e.fields, "x-mcp-header")
  }

  function TypeOf(e: Event): Option<Json>
    requires e.Visit?
  {
    Get(e.fields, "type")
  }

  /** A wrapper of a reference without a type of its own waits for a node that declares one. */
  predicate Defers(e: Event)
    requires e.Visit?
  {
    Get(e.fields, "$ref").Some? && TypeOf(e).None?
  }

  // ----- The accumulated result

  datatype Annotation = Annotation(headerName: string, path: Path)

  datatype Problem =
    | InsideArray(at: string)
    | InvalidName(at: string)
    | Ineligible(name: string, at: string)
    | Conflicting(name: string, other: string, at: string)
    | Duplicate(name: string, at: string)
    | CircularRef(ref: string)
    | UnresolvedRef(ref: string)

  datatype State = State(annotations: seq<Annotation>, problems: seq<Problem>, seen: set<string>,
                         claimed: map<string, string>, pending: map<string, string>)

  const START := State([], [], {}, map[], map[])

  function Complain(s: State, p: Problem): State {
    s.(problems := s.problems + [p])
  }

  /** A type declared at a path settles a check deferred there. */
  function Settle(s: State, at: string, t: Option<Json>, inArray: bool): State {
    if inArray || t.None? || at !in s.pending then s
    else
      var s' := s.(pending := s.pending - {at});
      if Eligible(t) then s' else Complain(s', Ineligible(s.pending[at], at))
  }

  function Judge(s: State, e: Event): State
    requires Named(e)
  {
    var at := Dotted(e.path);
    match Mark(e)
    case None => s
    case Some(mark) =>
      if e.inArray then Complain(s, InsideArray(at))
      else if !mark.Str? || !IsToken(mark.text) then Complain(s, InvalidName(at))
      else if !Defers(e) && !Eligible(TypeOf(e)) then Complain(s, Ineligible(mark.text, at))
      else if at in s.claimed && s.claimed[at] == mark.text then s
      else if at in s.claimed then Complain(s, Conflicting(s.claimed[at], mark.text, at))
      else if Lower(mark.text) in s.seen then Complain(s, Duplicate(mark.text, at))
      else
        s.(seen := s.seen + {Lower(mark.text)}, claimed := s.claimed[at := mark.text],
           annotations := s.annotations + [Annotation(mark.text, e.path)],
           pending := if Defers(e) then s.pending[at := mark.text] else s.pending)
  }

  function Absorb(s: State, e: Event): State {
    match e
    case Circular(ref) => Complain(s, CircularRef(ref))
    case Unresolved(ref) => Complain(s, UnresolvedRef(ref))
    case Visit(path, inArray, fields) =>
      if path == [] then s else Judge(Settle(s, Dotted(path), TypeOf(e), inArray), e)
  }

  function AbsorbAll(s: State, events: seq<Event>): State
    decreases |events|
  {
    if events == [] then s else AbsorbAll(Absorb(s, events[0]), events[1..])
  }

  lemma {:induction false} AbsorbConcat(s: State, a: seq<Event>, b: seq<Event>)
    ensures AbsorbAll(s, a + b) == AbsorbAll(AbsorbAll(s, a), b)
    decreases |a|
  {
    if a == [] {
      assert a + b == b;
    } else {
      assert (a + b)[1..] == a[1..] + b;
      AbsorbConcat(Absorb(s, a[0]), a[1..], b);
    }
  }

  lemma AbsorbSnoc(s: State, events: seq<Event>)
    requires events != []
    ensures AbsorbAll(s, events) == Absorb(AbsorbAll(s, events[..|events| - 1]), events[|events| - 1])
  {
    var n := |events| - 1;
    assert events == events[..n] + [events[n]];
    AbsorbConcat(s, events[..n], [events[n]]);
  }

  // ----- The rules, without any accumulated state

  ghost predicate Marks(e: Event, at: string, name: string) {
    Named(e) && Dotted(e.path) == at && Mark(e) == Some(Str(name))
  }

  ghost predicate MarkedAs(events: seq<Event>, at: string, name: string) {
    exists e :: e in events && Marks(e, at, name)
  }

  /** A node outside arrays at this path declares a type. */
  predicate Types(e: Event, at: string) {
    Named(e) && Dotted(e.path) == at && !e.inArray && TypeOf(e).Some?
  }

  /** The first annotation at a path deferred its type check, and no node there declared a type since. */
  ghost predicate Deferred(events: seq<Event>, at: string) {
    if events == [] then false
    else
      var before, e := events[..|events| - 1], events[|events| - 1];
      || (Deferred(before, at) && !Types(e, at))
      || (Named(e) && Dotted(e.path) == at && Mark(e).Some? && Defers(e) && forall name :: !MarkedAs(before, at, name))
  }

  /** A named node's annotation is a token on an eligible or deferring node outside arrays, agreeing with all before. */
  ghost predicate GoodMark(before: seq<Event>, e: Event)
    requires Named(e) && Mark(e).Some?
  {
    var mark, at := Mark(e).value, Dotted(e.path);
    && !e.inArray
    && mark.Str? && IsToken(mark.text)
    && (Defers(e) || Eligible(TypeOf(e)))
    && forall at', name :: MarkedAs(before, at', name) ==>
         if at' == at then name == mark.text else Lower(name) != Lower(mark.text)
  }

  ghost predicate Fine(before: seq<Event>, e: Event) {
    e.Visit?
    && (Named(e) ==>
          && (Types(e, Dotted(e.path)) && Deferred(before, Dotted(e.path)) ==> Eligible(TypeOf(e)))
          && (Mark(e).Some? ==> GoodMark(before, e)))
  }

  ghost predicate AllFine(events: seq<Event>) {
    events == [] || (AllFine(events[..|events| - 1]) && Fine(events[..|events| - 1], events[|events| - 1]))
  }

  /** The rules a schema must meet, as a statement about the nodes the walk visits. */
  ghost predicate MeetsRules(events: seq<Event>) {
    AllFine(events) && forall at :: !Deferred(events, at)
  }

  // ----- The accumulated state says exactly that

  ghost predicate ClaimedAt(s: State, events: seq<Event>, at: string) {
    forall name :: MarkedAs(events, at, name) <==> at in s.claimed && s.claimed[at] == name
  }

  ghost predicate ClaimAt(s: State, events: seq<Event>, at: string) {
    && ClaimedAt(s, events, at)
    && (at in s.pending <==> Deferred(events, at))
    && (at in s.claimed ==> Lower(s.claimed[at]) in s.seen)
  }

  ghost predicate Result(s: State, i: nat)
    requires i < |s.annotations|
  {
    var a := s.annotations[i];
    && Dotted(a.path) in s.claimed && s.claimed[Dotted(a.path)] == a.headerName
    && forall j :: 0 <= j < i ==>
         Dotted(s.annotations[j].path) != Dotted(a.path)
         && Lower(s.annotations[j].headerName) != Lower(a.headerName)
  }

  ghost predicate Listed(s: State, at: string) {
    exists i :: 0 <= i < |s.annotations| && Dotted(s.annotations[i].path) == at
  }

  ghost predicate Exact(s: State, events: seq<Event>) {
    && s.problems == []
    && (forall at :: ClaimAt(s, events, at))
    && (forall low :: low in s.seen ==> exists at :: at in s.claimed && Lower(s.claimed[at]) == low)
    && (forall i: nat :: i < |s.annotations| ==> Result(s, i))
    && (forall at :: at in s.claimed ==> Listed(s, at))
  }

  lemma MarkedSnoc(before: seq<Event>, e: Event, at: string, name: string)
    ensures MarkedAs(before + [e], at, name) <==> MarkedAs(before, at, name) || Marks(e, at, name)
  {
    if Marks(e, at, name) { assert e in before + [e]; }
    if MarkedAs(before, at, name) {
      var d :| d in before && Marks(d, at, name);
      assert d in before + [e];
    }
  }

  lemma DeferredSnoc(before: seq<Event>, e: Event, at: string)
    ensures Deferred(before + [e], at) <==>
              || (Deferred(before, at) && !Types(e, at))
              || (Named(e) && Dotted(e.path) == at && Mark(e).Some? && Defers(e)
                  && forall name :: !MarkedAs(before, at, name))
  {
    assert (before + [e])[..|before + [e]| - 1] == before;
  }

  /** The state complains about an event exactly when the event breaks a rule. */
  lemma ComplainsIffNotFine(s: State, before: seq<Event>, e: Event)
    requires Exact(s, before)
    ensures Absorb(s, e).problems == [] <==> Fine(before, e)
  {
    if Named(e) {
      var at := Dotted(e.path);
      assert ClaimAt(s, before, at);
      if Mark(e).Some? && Mark(e).value.Str? {
        MarkIsGoodIff(s, before, e);
      }
    }
  }

  /** For a well-formed mark the two lookups decide agreement with every earlier annotation. */
  lemma MarkIsGoodIff(s: State, before: seq<Event>, e: Event)
    requires Exact(s, before) && Named(e) && Mark(e).Some? && Mark(e).value.Str?
    ensures var mark, at := Mark(e).value.text, Dotted(e.path);
            (if at in s.claimed then s.claimed[at] == mark else Lower(mark) !in s.seen) <==>
            forall at', name :: MarkedAs(before, at', name) ==>
              if at' == at then name == mark else Lower(name) != Lower(mark)
  {
    var mark, at := Mark(e).value.text, Dotted(e.path);
    assert ClaimAt(s, before, at);
    if at in s.claimed {
      assert MarkedAs(before, at, s.claimed[at]);
      forall at', name | MarkedAs(before, at', name) && s.claimed[at] == mark
        ensures if at' == at then name == mark else Lower(name) != Lower(mark)
      {
        assert ClaimAt(s, before, at');
        if at' != at { ClaimsDiffer(s, at, at'); }
      }
    } else {
      if Lower(mark) in s.seen {
        var at' :| at' in s.claimed && Lower(s.claimed[at']) == Lower(mark);
        assert ClaimAt(s, before, at');
        assert MarkedAs(before, at', s.claimed[at']);
      } else {
        forall at', name | MarkedAs(before, at', name)
          ensures if at' == at then name == mark else Lower(name) != Lower(mark)
        {
          assert ClaimAt(s, before, at');
        }
      }
    }
  }

  lemma ClaimsDiffer(s: State, at: string, at': string)
    requires forall i: nat :: i < |s.annotations| ==> Result(s, i)
    requires forall a :: a in s.claimed ==> Listed(s, a)
    requires at in s.claimed && at' in s.claimed && at != at'
    ensures Lower(s.claimed[at]) != Lower(s.claimed[at'])
  {
    assert Listed(s, at) && Listed(s, at');
    var i :| 0 <= i < |s.annotations| && Dotted(s.annotations[i].path) == at;
    var j :| 0 <= j < |s.annotations| && Dotted(s.annotations[j].path) == at';
    assert Result(s, i) && Result(s, j);
  }

  /** What an event that breaks no rule does. */
  function Accepted(s: State, e: Event): State {
    if !Named(e) then s
    else
      var at := Dotted(e.path);
      var s' := if Types(e, at) then s.(pending := s.pending - {at}) else s;
      if Mark(e).None? || !Mark(e).value.Str? || at in s.claimed then s'
      else
        var mark := Mark(e).value.text;
        s'.(seen := s.seen + {Lower(mark)}, claimed := s.claimed[at := mark],
            annotations := s.annotations + [Annotation(mark, e.path)],
            pending := if Defers(e) then s'.pending[at := mark] else s'.pending)
  }

  lemma FineIsAccepted(s: State, before: seq<Event>, e: Event)
    requires Exact(s, before) && Fine(before, e)
    ensures Absorb(s, e) == Accepted(s, e)
  {
    ComplainsIffNotFine(s, before, e);
    if Named(e) {
      var at := Dotted(e.path);
      assert ClaimAt(s, before, at);
      assert at !in s.pending ==> s.pending - {at} == s.pending;
    }
  }

  lemma MarksSnoc(before: seq<Event>, e: Event, at: string)
    ensures forall name :: MarkedAs(before + [e], at, name) <==> MarkedAs(before, at, name) || Marks(e, at, name)
  {
    forall name ensures MarkedAs(before + [e], at, name) <==> MarkedAs(before, at, name) || Marks(e, at, name) {
      MarkedSnoc(before, e, at, name);
    }
  }

  lemma ClaimedStep(s: State, before: seq<Event>, e: Event, at: string)
    requires Exact(s, before) && Fine(before, e)
    ensures ClaimedAt(Accepted(s, e), before + [e], at)
  {
    assert ClaimAt(s, before, at) && ClaimedAt(s, before, at);
    MarksSnoc(before, e, at);
    if Named(e) && Mark(e).Some? && at == Dotted(e.path) {
      assert GoodMark(before, e);
      assert at in s.claimed ==> MarkedAs(before, at, s.claimed[at]);
      assert forall name :: Marks(e, at, name) ==> name == Mark(e).value.text;
      assert Marks(e, at, Mark(e).value.text);
    } else {
      assert forall name :: !Marks(e, at, name);
      assert at in Accepted(s, e).claimed <==> at in s.claimed;
    }
  }

  lemma PendingStep(s: State, before: seq<Event>, e: Event, at: string)
    requires Exact(s, before) && Fine(before, e)
    ensures at in Accepted(s, e).pending <==> Deferred(before + [e], at)
  {
    assert ClaimAt(s, before, at);
    DeferredSnoc(before, e, at);
    assert at in s.claimed ==> MarkedAs(before, at, s.claimed[at]);
    if Named(e) && Mark(e).Some? { assert GoodMark(before, e); }
  }

  lemma ClaimStep(s: State, before: seq<Event>, e: Event, at: string)
    requires Exact(s, before) && Fine(before, e)
    ensures ClaimAt(Accepted(s, e), before + [e], at)
  {
    ClaimedStep(s, before, e, at);
    PendingStep(s, before, e, at);
    assert ClaimAt(s, before, at);
  }

  lemma ResultStep(s: State, before: seq<Event>, e: Event, i: nat)
    requires Exact(s, before) && Fine(before, e) && i < |Accepted(s, e).annotations|
    ensures Result(Accepted(s, e), i)
  {
    if i < |s.annotations| {
      assert Result(s, i);
    } else {
      MarkIsGoodIff(s, before, e);
      forall j | 0 <= j < |s.annotations|
        ensures Dotted(s.annotations[j].path) in s.claimed
                && s.claimed[Dotted(s.annotations[j].path)] == s.annotations[j].headerName
                && Lower(s.annotations[j].headerName) in s.seen
      {
        assert Result(s, j);
        assert ClaimAt(s, before, Dotted(s.annotations[j].path));
      }
    }
  }

  lemma ListedStep(s: State, e: Event, at: string)
    requires at in Accepted(s, e).claimed && (at in s.claimed ==> Listed(s, at))
    ensures Listed(Accepted(s, e), at)
  {
    var s' := Accepted(s, e);
    if at in s.claimed {
      var i :| 0 <= i < |s.annotations| && Dotted(s.annotations[i].path) == at;
      assert s'.annotations[i] == s.annotations[i];
    } else {
      assert Dotted(s'.annotations[|s.annotations|].path) == at;
    }
  }

  lemma SeenStep(s: State, e: Event, low: string)
    requires low in Accepted(s, e).seen
    requires low in s.seen ==> exists at :: at in s.claimed && Lower(s.claimed[at]) == low
    ensures exists at :: at in Accepted(s, e).claimed && Lower(Accepted(s, e).claimed[at]) == low
  {
    var s' := Accepted(s, e);
    if low in s.seen {
      var at :| at in s.claimed && Lower(s.claimed[at]) == low;
      assert at in s'.claimed && s'.claimed[at] == s.claimed[at];
    } else {
      assert Dotted(e.path) in s'.claimed && Lower(s'.claimed[Dotted(e.path)]) == low;
    }
  }

  lemma ExactStep(s: State, before: seq<Event>, e: Event)
    requires Exact(s, before) && Fine(before, e)
    ensures Exact(Absorb(s, e), before + [e])
  {
    var s' := Absorb(s, e);
    ComplainsIffNotFine(s, before, e);
    FineIsAccepted(s, before, e);
    forall at ensures ClaimAt(s', before + [e], at) { ClaimStep(s, before, e, at); }
    forall i: nat | i < |s'.annotations| ensures Result(s', i) { ResultStep(s, before, e, i); }
    forall at | at in s'.claimed ensures Listed(s', at) { ListedStep(s, e, at); }
    forall low | low in s'.seen ensures exists at :: at in s'.claimed && Lower(s'.claimed[at]) == low {
      SeenStep(s, e, low);
    }
  }

  /** After any list of events the state has complaints exactly if some rule was broken, and otherwise is exact. */
  lemma {:induction false} AbsorbedIsExact(events: seq<Event>)
    ensures AbsorbAll(START, events).problems == [] <==> AllFine(events)
    ensures AllFine(events) ==> Exact(AbsorbAll(START, events), events)
    decreases |events|
  {
    if events == [] {
      StartIsExact();
    } else {
      var n := |events| - 1;
      var s, before, e := AbsorbAll(START, events[..n]), events[..n], events[n];
      AbsorbedIsExact(before);
      AbsorbSnoc(START, events);
      if AllFine(before) {
        ComplainsIffNotFine(s, before, e);
        if Fine(before, e) {
          ExactStep(s, before, e);
          assert before + [e] == events;
        }
      } else {
        ComplaintsStay(s, e);
      }
    }
  }

  lemma StartIsExact()
    ensures Exact(START, [])
  {
    forall at ensures ClaimAt(START, [], at) { }
  }

  lemma ComplaintsStay(s: State, e: Event)
    requires s.problems != []
    ensures Absorb(s, e).problems != []
  {
  }

  // ----- The verdict

  predicate Valid(s: State) {
    s.problems == [] && s.pending == map[]
  }

  ghost function Collected(root: Json): State {
    AbsorbAll(START, Walk(root))
  }

  lemma NonePending(s: State, events: seq<Event>)
    requires forall at :: at in s.pending <==> Deferred(events, at)
    ensures s.pending == map[] <==> forall at :: !Deferred(events, at)
  {
    if s.pending != map[] {
      var at :| at in s.pending;
      assert Deferred(events, at);
    }
  }

  /** Whatever was visited, the outcome is valid exactly when the visits meet the rules. */
  lemma ValidIffRulesMet(events: seq<Event>)
    ensures Valid(AbsorbAll(START, events)) <==> MeetsRules(events)
  {
    var s := AbsorbAll(START, events);
    AbsorbedIsExact(events);
    if AllFine(events) {
      forall at ensures at in s.pending <==> Deferred(events, at) { assert ClaimAt(s, events, at); }
      NonePending(s, events);
    }
  }

  lemma {:induction false} FineAt(events: seq<Event>, k: nat)
    requires AllFine(events) && k < |events|
    ensures Fine(events[..k], events[k])
    decreases |events|
  {
    if k < |events| - 1 {
      var front := events[..|events| - 1];
      FineAt(front, k);
      assert front[..k] == events[..k];
    }
  }

  ghost predicate HasEligible(events: seq<Event>, at: string) {
    exists e :: e in events && Types(e, at) && Eligible(TypeOf(e))
  }

  /** A path with an annotation has a node outside arrays that declares an eligible type, or still waits for one. */
  lemma {:induction false} MarkedIsTypedOrDeferred(events: seq<Event>, at: string, name: string)
    requires AllFine(events) && MarkedAs(events, at, name)
    ensures HasEligible(events, at) || Deferred(events, at)
    decreases |events|
  {
    var before, e := events[..|events| - 1], events[|events| - 1];
    assert events == before + [e];
    DeferredSnoc(before, e, at);
    if n :| MarkedAs(before, at, n) {
      MarkedIsTypedOrDeferred(before, at, n);
      if HasEligible(before, at) {
        var d :| d in before && Types(d, at) && Eligible(TypeOf(d));
        assert d in events;
      } else if Types(e, at) {
        assert e in events && Eligible(TypeOf(e));
      }
    } else {
      MarkedSnoc(before, e, at, name);
      assert Marks(e, at, name);
      if !Defers(e) {
        assert e in events && Types(e, at);
      }
    }
  }

  // ----- What a valid result holds

  ghost function Annotations(events: seq<Event>): seq<Annotation> {
    AbsorbAll(START, events).annotations
  }

  ghost predicate ComesFrom(a: Annotation, events: seq<Event>) {
    exists e :: e in events && Named(e) && e.path == a.path && Mark(e) == Some(Str(a.headerName))
  }

  /** An event adds at most its own annotation. */
  lemma AbsorbAdds(s: State, e: Event)
    ensures var a := Absorb(s, e).annotations;
            || a == s.annotations
            || (Named(e) && Mark(e).Some? && Mark(e).value.Str?
                && a == s.annotations + [Annotation(Mark(e).value.text, e.path)])
  {
  }

  lemma {:induction false} AnnotationsComeFromNodes(events: seq<Event>, i: nat)
    requires i < |Annotations(events)|
    ensures ComesFrom(Annotations(events)[i], events)
    decreases |events|
  {
    if events != [] {
      var before, e := events[..|events| - 1], events[|events| - 1];
      AbsorbSnoc(START, events);
      var s := AbsorbAll(START, before);
      AbsorbAdds(s, e);
      if i < |s.annotations| {
        AnnotationsComeFromNodes(before, i);
        var d :| d in before && Named(d) && d.path == s.annotations[i].path
                 && Mark(d) == Some(Str(s.annotations[i].headerName));
        assert d in events;
      } else {
        assert e in events;
      }
    }
  }

  /** Two annotations have different names, ignoring case, and different dotted paths. */
  ghost predicate Apart(a: Annotation, b: Annotation) {
    Lower(a.headerName) != Lower(b.headerName) && Dotted(a.path) != Dotted(b.path)
  }

  /** Names are tokens, pairwise distinct whatever their case, and each dotted path is claimed once. */
  lemma NamesAreDistinctTokens(events: seq<Event>)
    requires MeetsRules(events)
    ensures var a := Annotations(events);
            && (forall i :: 0 <= i < |a| ==> IsToken(a[i].headerName))
            && forall i, j :: 0 <= i < j < |a| ==> Apart(a[i], a[j])
  {
    var s := AbsorbAll(START, events);
    AbsorbedIsExact(events);
    forall i | 0 <= i < |s.annotations| ensures IsToken(s.annotations[i].headerName) {
      AnnotationsComeFromNodes(events, i);
      var e :| e in events && Named(e) && e.path == s.annotations[i].path
               && Mark(e) == Some(Str(s.annotations[i].headerName));
      var k :| 0 <= k < |events| && events[k] == e;
      FineAt(events, k);
    }
    forall i, j | 0 <= i < j < |s.annotations| ensures Apart(s.annotations[i], s.annotations[j]) {
      assert Result(s, j);
    }
  }

  /** Each annotation was found on a visited node of its path, where some visited node outside arrays is primitive. */
  lemma AnnotationsAreTyped(events: seq<Event>, i: nat)
    requires MeetsRules(events) && i < |Annotations(events)|
    ensures ComesFrom(Annotations(events)[i], events)
    ensures HasEligible(events, Dotted(Annotations(events)[i].path))
  {
    var s := AbsorbAll(START, events);
    var at := Dotted(s.annotations[i].path);
    AbsorbedIsExact(events);
    AnnotationsComeFromNodes(events, i);
    assert Result(s, i);
    assert ClaimAt(s, events, at);
    MarkedIsTypedOrDeferred(events, at, s.claimed[at]);
  }

  /** The result has an annotation of this name for this dotted path. */
  ghost predicate HasEntry(a: seq<Annotation>, name: string, at: string) {
    exists i :: 0 <= i < |a| && a[i].headerName == name && Dotted(a[i].path) == at
  }

  /** No annotation met at a named node is missed: it is a name outside arrays, in the result for its dotted path. */
  lemma NoAnnotationIsMissed(events: seq<Event>, e: Event)
    requires AllFine(events) && e in events && Named(e) && Mark(e).Some?
    ensures !e.inArray && Mark(e).value.Str?
    ensures HasEntry(Annotations(events), Mark(e).value.text, Dotted(e.path))
  {
    var s := AbsorbAll(START, events);
    var at := Dotted(e.path);
    AbsorbedIsExact(events);
    var k :| 0 <= k < |events| && events[k] == e;
    FineAt(events, k);
    var name := Mark(e).value.text;
    assert Marks(e, at, name);
    assert MarkedAs(events, at, name);
    assert ClaimAt(s, events, at);
    assert Listed(s, at);
    var i :| 0 <= i < |s.annotations| && Dotted(s.annotations[i].path) == at;
    assert Result(s, i);
    assert s.annotations[i].headerName == name;
    assert HasEntry(s.annotations, name, at);
  }

  /** In particular, no reference of a valid schema is circular or leads nowhere. */
  lemma ReferencesResolve(events: seq<Event>, e: Event)
    requires AllFine(events) && e in events
    ensures e.Visit?
  {
    var k :| 0 <= k < |events| && events[k] == e;
    FineAt(events, k);
  }

  /** Hence every annotation a chain of descents leads to is in the result of a valid schema. */
  lemma ReachableAnnotationsAreCollected(root: Json, chain: seq<Event>)
    requires Valid(Collected(root)) && Chain(root, chain)
    requires var e := chain[|chain| - 1]; Named(e) && Mark(e).Some?
    ensures var e := chain[|chain| - 1];
            Mark(e).value.Str? && HasEntry(Annotations(Walk(root)), Mark(e).value.text, Dotted(e.path))
  {
    ValidIffRulesMet(Walk(root));
    forall e | e in Walk(root) ensures !e.Circular? { ReferencesResolve(Walk(root), e); }
    ReachableIsVisited(root, chain);
    NoAnnotationIsMissed(Walk(root), chain[|chain| - 1]);
  }

  ghost predicate Mirrored(a: seq<Annotation>, path: Path) {
    exists i :: 0 <= i < |a| && a[i].path == path
  }

  /** Two annotated nodes have different paths that read the same with dots. */
  ghost predicate Ambiguous(events: seq<Event>) {
    exists d, e :: d in events && e in events && Collide(d, e)
  }

  ghost predicate Collide(d: Event, e: Event) {
    Named(d) && Named(e) && Mark(d).Some? && Mark(e).Some? && d.path != e.path && Dotted(d.path) == Dotted(e.path)
  }

  ghost predicate AllMirrored(a: seq<Annotation>, events: seq<Event>) {
    forall e :: e in events && Named(e) && Mark(e).Some? ==> Mirrored(a, e.path)
  }

  lemma OnlyOneMirrored(a: seq<Annotation>, p: Path, q: Path)
    requires forall i, j :: 0 <= i < j < |a| ==> Apart(a[i], a[j])
    requires p != q && Dotted(p) == Dotted(q)
    ensures !(Mirrored(a, p) && Mirrored(a, q))
  {
    if Mirrored(a, p) {
      var i :| 0 <= i < |a| && a[i].path == p;
      forall j | 0 <= j < |a| ensures a[j].path != q {
        assert j < i ==> Apart(a[j], a[i]);
        assert i < j ==> Apart(a[i], a[j]);
      }
    }
  }

  /**
   The path of every annotated node is in a valid result exactly if no two of them differ only in where the dots
   are: of two such nodes only the first is mirrored.
   */
  lemma MirroredIffUnambiguous(events: seq<Event>)
    requires MeetsRules(events)
    ensures AllMirrored(Annotations(events), events) <==> !Ambiguous(events)
  {
    var a := Annotations(events);
    NamesAreDistinctTokens(events);
    if Ambiguous(events) {
      var d, e :| d in events && e in events && Collide(d, e);
      OnlyOneMirrored(a, d.path, e.path);
    } else {
      forall e | e in events && Named(e) && Mark(e).Some? ensures Mirrored(a, e.path) {
        NoAnnotationIsMissed(events, e);
        var i :| 0 <= i < |a| && a[i].headerName == Mark(e).value.text && Dotted(a[i].path) == Dotted(e.path);
        AnnotationsComeFromNodes(events, i);
        var d :| d in events && Named(d) && d.path == a[i].path && Mark(d) == Some(Str(a[i].headerName));
        assert !Collide(d, e);
      }
    }
  }

  /** Keys without dots never lead to such a pair. */
  lemma DotlessPathsDiffer(p: Path, q: Path)
    requires p != [] && q != [] && Dotted(p) == Dotted(q)
    requires (forall k :: k in p ==> '.' !in k) && (forall k :: k in q ==> '.' !in k)
    ensures p == q
  {
    SplitJoin(p, '.');
    SplitJoin(q, '.');
  }

  // ----- A valid schema of which a path is not mirrored

  const LEAF: seq<Field> := [Field("type", Str("string")), Field("x-mcp-header", Str("X-Id"))]

  function Nest(members: seq<Field>): seq<Field> {
    [Field("properties", Obj(members))]
  }

  /** A property `a.b`, and a property `b` inside `a`, with the same annotation. */
  const INNER: seq<Field> := Nest([Field("b", Obj(LEAF))])
  const OUTER: seq<Field> := Nest([Field("a.b", Obj(LEAF)), Field("a", Obj(INNER))])

  /** Of the keywords the walk looks at, there is at most `properties`. */
  ghost predicate OnlyProperties(fields: seq<Field>) {
    && Get(fields, "$ref").None? && Get(fields, "allOf").None? && Get(fields, "anyOf").None?
    && Get(fields, "oneOf").None? && Get(fields, "prefixItems").None? && Get(fields, "items").None?
  }

  lemma LeafFields()
    ensures OnlyProperties(LEAF) && Get(LEAF, "properties").None?
    ensures Get(LEAF, "type") == Some(Str("string")) && Get(LEAF, "x-mcp-header") == Some(Str("X-Id"))
  {
    assert "type"[0] != "$ref"[0];
    assert LEAF[1..] == [Field("x-mcp-header", Str("X-Id"))];
  }

  lemma NestFields(members: seq<Field>)
    ensures OnlyProperties(Nest(members)) && Get(Nest(members), "properties") == Some(Obj(members))
    ensures Get(Nest(members), "x-mcp-header").None? && Get(Nest(members), "type").None?
  {
    assert Nest(members)[1..] == [];
  }

  lemma PlainChildren(fields: seq<Field>, path: Path)
    requires OnlyProperties(fields)
    ensures Children(fields, path, false) == Properties(Get(fields, "properties"), path, false)
  {
  }

  lemma PlainVisits(root: Json, fields: seq<Field>, path: Path, children: seq<Child>)
    requires Refs(Obj(fields)) <= Refs(root) && OnlyProperties(fields)
    requires children == Properties(Get(fields, "properties"), path, false)
    ensures AllParts(children, Obj(fields))
    ensures Visits(root, Obj(fields), path, {}, false)
            == [Visit(path, false, fields)] + VisitsAll(root, children, {}, Size(Obj(fields)))
  {
    PlainChildren(fields, path);
    var below, all, rest := Parts(root, fields, path, {}, false);
    assert below == [];
  }

  lemma OneVisited(root: Json, c: Child, bound: nat)
    requires Size(c.node) < bound && Refs(c.node) <= Refs(root)
    ensures VisitsAll(root, [c], {}, bound) == Visits(root, c.node, c.path, {}, c.inArray)
  {
    assert [c][1..] == [];
  }

  lemma TwoVisited(root: Json, c: Child, d: Child, bound: nat)
    requires Size(c.node) < bound && Refs(c.node) <= Refs(root) && Size(d.node) < bound && Refs(d.node) <= Refs(root)
    ensures VisitsAll(root, [c, d], {}, bound)
            == Visits(root, c.node, c.path, {}, c.inArray) + Visits(root, d.node, d.path, {}, d.inArray)
  {
    assert [c, d][1..] == [d];
    OneVisited(root, d, bound);
  }

  lemma LeafVisits(root: Json, fields: seq<Field>, path: Path)
    requires Refs(Obj(fields)) <= Refs(root) && OnlyProperties(fields) && Get(fields, "properties").None?
    ensures Visits(root, Obj(fields), path, {}, false) == [Visit(path, false, fields)]
  {
    PlainVisits(root, fields, path, []);
  }

  /** The visits of a node with one property. */
  lemma NestVisits(root: Json, fields: seq<Field>, path: Path, c: Child)
    requires Refs(Obj(fields)) <= Refs(root) && OnlyProperties(fields)
    requires Properties(Get(fields, "properties"), path, false) == [c]
    ensures Refs(c.node) <= Refs(root)
    ensures Visits(root, Obj(fields), path, {}, false)
            == [Visit(path, false, fields)] + Visits(root, c.node, c.path, {}, c.inArray)
  {
    PlainVisits(root, fields, path, [c]);
    assert IsPart([c][0].node, Obj(fields));
    OneVisited(root, c, Size(Obj(fields)));
  }

  lemma NestTwoVisits(root: Json, fields: seq<Field>, path: Path, c: Child, d: Child)
    requires Refs(Obj(fields)) <= Refs(root) && OnlyProperties(fields)
    requires Properties(Get(fields, "properties"), path, false) == [c, d]
    ensures Refs(c.node) <= Refs(root) && Refs(d.node) <= Refs(root)
    ensures Visits(root, Obj(fields), path, {}, false)
            == [Visit(path, false, fields)]
               + (Visits(root, c.node, c.path, {}, c.inArray) + Visits(root, d.node, d.path, {}, d.inArray))
  {
    PlainVisits(root, fields, path, [c, d]);
    assert IsPart([c, d][0].node, Obj(fields)) && IsPart([c, d][1].node, Obj(fields));
    TwoVisited(root, c, d, Size(Obj(fields)));
  }

  /** A node with two properties, of which the second has one that is the same as the first. */
  lemma NestedVisits(root: Json, outer: seq<Field>, inner: seq<Field>, leaf: seq<Field>, p: Path, q: Path, r: Path)
    requires Refs(Obj(outer)) <= Refs(root) && OnlyProperties(outer) && OnlyProperties(inner) && OnlyProperties(leaf)
    requires Properties(Get(outer, "properties"), [], false)
             == [Child(Obj(leaf), p, false), Child(Obj(inner), q, false)]
    requires Properties(Get(inner, "properties"), q, false) == [Child(Obj(leaf), r, false)]
    requires Get(leaf, "properties").None?
    ensures Visits(root, Obj(outer), [], {}, false)
            == [Visit([], false, outer), Visit(p, false, leaf), Visit(q, false, inner), Visit(r, false, leaf)]
  {
    NestTwoVisits(root, outer, [], Child(Obj(leaf), p, false), Child(Obj(inner), q, false));
    NestVisits(root, inner, q, Child(Obj(leaf), r, false));
    LeafVisits(root, leaf, p);
    LeafVisits(root, leaf, r);
  }

  function ExampleVisits(): seq<Event> {
    [Visit([], false, OUTER), Visit(["a.b"], false, LEAF), Visit(["a"], false, INNER), Visit(["a", "b"], false, LEAF)]
  }

  lemma InnerChildren()
    ensures OnlyProperties(INNER)
    ensures Properties(Get(INNER, "properties"), ["a"], false) == [Child(Obj(LEAF), ["a", "b"], false)]
  {
    NestFields([Field("b", Obj(LEAF))]);
    assert ["a"] + ["b"] == ["a", "b"];
  }

  lemma OuterChildren()
    ensures OnlyProperties(OUTER)
    ensures Properties(Get(OUTER, "properties"), [], false)
            == [Child(Obj(LEAF), ["a.b"], false), Child(Obj(INNER), ["a"], false)]
  {
    NestFields([Field("a.b", Obj(LEAF)), Field("a", Obj(INNER))]);
    assert [] + ["a.b"] == ["a.b"] && [] + ["a"] == ["a"];
  }

  lemma ExampleWalk(root: Json, outer: seq<Field>)
    requires root == Obj(outer) && outer == OUTER
    ensures Walk(root) == ExampleVisits()
  {
    LeafFields();
    InnerChildren();
    OuterChildren();
    NestedVisits(root, outer, INNER, LEAF, ["a.b"], ["a"], ["a", "b"]);
  }

  lemma ExampleDots()
    ensures Dotted(["a.b"]) == "a.b" && Dotted(["a", "b"]) == "a.b" && Dotted(["a"]) == "a"
  {
    assert ["a", "b"][1..] == ["b"] && "a" + ['.'] + "b" == "a.b";
  }

  lemma ExampleAbsorbed()
    ensures var s := AbsorbAll(START, ExampleVisits());
            Valid(s) && s.annotations == [Annotation("X-Id", ["a.b"])]
  {
    var e := ExampleVisits();
    LeafFields();
    NestFields([Field("b", Obj(LEAF))]);
    ExampleDots();
    assert IsToken("X-Id");
    assert Eligible(Some(Str("string")));
    var s1 := Absorb(Absorb(START, e[0]), e[1]);
    assert s1 == State([Annotation("X-Id", ["a.b"])], [], {Lower("X-Id")}, map["a.b" := "X-Id"], map[]);
    assert Absorb(s1, e[2]) == s1 && Absorb(s1, e[3]) == s1;
    AbsorbConcat(START, e[..2], e[2..]);
  }

  lemma ExampleIsValid()
    ensures MeetsRules(ExampleVisits()) && Annotations(ExampleVisits()) == [Annotation("X-Id", ["a.b"])]
  {
    ExampleAbsorbed();
    ValidIffRulesMet(ExampleVisits());
  }

  lemma ExampleCollides()
    ensures Ambiguous(ExampleVisits())
  {
    var events := ExampleVisits();
    LeafFields();
    ExampleDots();
    assert |["a.b"]| != |["a", "b"]|;
    assert Collide(events[1], events[3]);
  }

  lemma OnlyFirstMirrored(events: seq<Event>, name: string, p: Path, q: Path)
    requires Annotations(events) == [Annotation(name, p)] && p != q
    ensures Mirrored(Annotations(events), p) && !Mirrored(Annotations(events), q)
  {
    assert Annotations(events)[0].path == p;
  }

  /** The schema is valid and two of its annotated nodes collide: the second path is not in the result. */
  lemma AmbiguousSchemaExists(root: Json)
    requires root == Obj(OUTER)
    ensures var events := Walk(root);
            && MeetsRules(events) && Ambiguous(events)
            && Visit(["a.b"], false, LEAF) in events && Visit(["a", "b"], false, LEAF) in events
            && Mirrored(Annotations(events), ["a.b"]) && !Mirrored(Annotations(events), ["a", "b"])
    ensures Get(LEAF, "x-mcp-header") == Some(Str("X-Id"))
  {
    ExampleWalk(root, root.fields);
    ExampleIsValid();
    ExampleCollides();
    LeafFields();
    assert |["a.b"]| != |["a", "b"]|;
    OnlyFirstMirrored(ExampleVisits(), "X-Id", ["a.b"], ["a", "b"]);
    assert ExampleVisits()[1] == Visit(["a.b"], false, LEAF) && ExampleVisits()[3] == Visit(["a", "b"], false, LEAF);
  }

  // ----- The collector

  class Collector {
    const root: Json
    var annotations: seq<Annotation>
    var problems: seq<Problem>
    var seen: set<string>
    var claimed: map<string, string>
    var pending: map<string, string>

    ghost function Fields(): State
      reads this
    {
      State(annotations, problems, seen, claimed, pending)
    }

    constructor (root: Json)
      ensures this.root == root && Fields() == START
    {
      this.root := root;
      annotations, problems, seen, claimed, pending := [], [], {}, map[], map[];
    }

    /** Visits a node: its own annotation, its reference, then its composition branches, items and properties. */
    method VisitNode(node: Json, path: Path, stack: set<string>, inArray: bool)
      requires Refs(node) <= Refs(root)
      modifies this
      ensures Fields() == AbsorbAll(old(Fields()), Visits(root, node, path, stack, inArray))
      decreases |Refs(root) - stack|, Size(node)
    {
      if !node.Obj? {
        return;
      }
      var fields := node.fields;
      ghost var start := Fields();
      ghost var below, children, rest := Parts(root, fields, path, stack, inArray);
      AbsorbConcat(start, [Visit(path, inArray, fields)] + below, rest);
      AbsorbConcat(start, [Visit(path, inArray, fields)], below);
      CheckSelf(path, inArray, fields);
      FollowRef(node, path, stack, inArray);
      VisitChildren(Children(fields, path, inArray), stack, Size(node));
    }

    /** The annotation a named node carries, after the type it declares settled what waits at its path. */
    method CheckSelf(path: Path, inArray: bool, fields: seq<Field>)
      modifies this
      ensures Fields() == Absorb(old(Fields()), Visit(path, inArray, fields))
    {
      if path == [] {
        return;
      }
      var at := Dotted(path);
      SettleDeferred(at, Get(fields, "type"), inArray);
      CheckMark(at, Visit(path, inArray, fields));
    }

    method SettleDeferred(at: string, t: Option<Json>, inArray: bool)
      modifies `pending, `problems
      ensures Fields() == Settle(old(Fields()), at, t, inArray)
    {
      if !inArray && t.Some? && at in pending {
        var name := pending[at];
        pending := pending - {at};
        if !Eligible(t) {
          problems := problems + [Ineligible(name, at)];
        }
      }
    }

    method CheckMark(at: string, e: Event)
      requires Named(e) && at == Dotted(e.path)
      modifies this
      ensures Fields() == Judge(old(Fields()), e)
    {
      var mark := Mark(e);
      if mark.None? {
        return;
      }
      var defers := Defers(e);
      if e.inArray {
        problems := problems + [InsideArray(at)];
      } else if !mark.value.Str? || !IsToken(mark.value.text) {
        problems := problems + [InvalidName(at)];
      } else if !defers && !Eligible(TypeOf(e)) {
        problems := problems + [Ineligible(mark.value.text, at)];
      } else if at in claimed && claimed[at] == mark.value.text {
        return;
      } else if at in claimed {
        problems := problems + [Conflicting(claimed[at], mark.value.text, at)];
      } else if Lower(mark.value.text) in seen {
        problems := problems + [Duplicate(mark.value.text, at)];
      } else {
        Claim(at, mark.value.text, e.path, defers);
      }
    }

    method Claim(at: string, name: string, path: Path, defers: bool)
      modifies `seen, `claimed, `annotations, `pending
      ensures Fields() == old(Fields()).(
                seen := old(seen) + {Lower(name)}, claimed := old(claimed)[at := name],
                annotations := old(annotations) + [Annotation(name, path)],
                pending := if defers then old(pending)[at := name] else old(pending))
    {
      seen := seen + {Lower(name)};
      claimed := claimed[at := name];
      annotations := annotations + [Annotation(name, path)];
      if defers {
        pending := pending[at := name];
      }
    }

    method FollowRef(node: Json, path: Path, stack: set<string>, inArray: bool)
      requires Refs(node) <= Refs(root) && node.Obj?
      modifies this
      ensures Fields() == AbsorbAll(old(Fields()), RefVisits(root, node, path, stack, inArray))
      decreases |Refs(root) - stack|, Size(node), 0
    {
      var ref := OwnRef(node.fields);
      if ref.None? {
        return;
      }
      if ref.value in stack {
        problems := problems + [CircularRef(ref.value)];
        return;
      }
      var target := Resolve(root, ref.value);
      if target.None? {
        problems := problems + [UnresolvedRef(ref.value)];
        return;
      }
      ResolvedRefs(root, ref.value);
      FewerLeft(Refs(root), stack, ref.value);
      VisitNode(target.value, path, stack + {ref.value}, inArray);
    }

    method VisitChildren(children: seq<Child>, stack: set<string>, bound: nat)
      requires forall i :: 0 <= i < |children| ==>
                 Size(children[i].node) < bound && Refs(children[i].node) <= Refs(root)
      modifies this
      ensures Fields() == AbsorbAll(old(Fields()), VisitsAll(root, children, stack, bound))
      decreases |Refs(root) - stack|, bound, 0, |children|
    {
      ghost var result := AbsorbAll(Fields(), VisitsAll(root, children, stack, bound));
      assert children[0..] == children;
      var i := 0;
      while i < |children|
        invariant i <= |children|
        invariant AbsorbAll(Fields(), VisitsAll(root, children[i..], stack, bound)) == result
      {
        var c := children[i];
        AbsorbConcat(Fields(), Visits(root, c.node, c.path, stack, c.inArray),
                     VisitsAll(root, children[i + 1..], stack, bound));
        assert children[i..][1..] == children[i + 1..];
        VisitNode(c.node, c.path, stack, c.inArray);
        i := i + 1;
      }
    }

    /** The whole collection: a schema is valid exactly if its nodes meet the rules, and only then has annotations. */
    method Collect() returns (valid: bool, found: seq<Annotation>)
      requires Fields() == START
      modifies this
      ensures valid <==> MeetsRules(Walk(root))
      ensures found == if valid then Annotations(Walk(root)) else []
      ensures valid <==> problems == []
    {
      VisitNode(root, [], {}, false);
      ValidIffRulesMet(Walk(root));
      ReportPending();
      valid := problems == [];
      found := if valid then annotations else [];
    }

    /** Whatever still waits for a type is reported. */
    method ReportPending()
      modifies `problems
      ensures problems == [] <==> Valid(old(Fields()))
    {
      var todo := pending.Keys;
      while todo != {}
        invariant todo <= pending.Keys
        invariant problems == [] <==> old(problems) == [] && todo == pending.Keys
        decreases |todo|
      {
        var at := AnyOf(todo);
        problems := problems + [Ineligible(pending[at], at)];
        todo := todo - {at};
      }
      assert pending.Keys == {} <==> pending == map[];
    }
  }
}
