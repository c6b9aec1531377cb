/**
 The trace view's merge of snapshots with live spans, calls and logs that arrive in any order and more than once.
 */
module TraceMerge {
  import opened Options

  type ID = string

  datatype Summary = Summary(traceID: ID, revision: nat, content: string)

  /** A span or a call: an open one has no end yet. */
  datatype Record = Record(id: ID, content: string, end: Option<int>)

  datatype Log = Log(id: ID, content: string)

  datatype State = State(summary: Option<Summary>, spans: map<ID, Record>, logs: map<ID, Log>, logsTruncated: bool,
                         calls: map<ID, Record>, callsTruncated: bool)

  const EMPTY := State(None, map[], map[], false, map[], false)

  datatype Snapshot = Snapshot(summary: Summary, spans: seq<Record>, logs: seq<Log>, logsTruncated: bool,
                               calls: seq<Record>, callsTruncated: bool)

  // ----- One piece at a time

  /** An ended record stands; anything else is replaced by what arrives. */
  function PutRecord(m: map<ID, Record>, r: Record): map<ID, Record> {
    if r.id in m && m[r.id].end.Some? && r.end.None? then m else m[r.id := r]
  }

  function Newer(current: Option<Summary>, s: Summary): Summary {
    if current.Some? && current.value.revision >= s.revision then current.value else s
  }

  /** The pieces everything the view receives consists of. */
  datatype Piece =
    | SpanPiece(record: Record)
    | CallPiece(record: Record)
    | LogPiece(log: Log)
    | HeadPiece(summary: Summary, logsTruncated: bool, callsTruncated: bool)

  function Apply(s: State, p: Piece): State {
    match p
    case SpanPiece(r) => s.(spans := PutRecord(s.spans, r))
    case CallPiece(r) => s.(calls := PutRecord(s.calls, r))
    case LogPiece(l) => if l.id in s.logs then s else s.(logs := s.logs[l.id := l])
    case HeadPiece(summary, logsTruncated, callsTruncated) =>
      s.(summary := Some(Newer(s.summary, summary)), logsTruncated := s.logsTruncated || logsTruncated,
         callsTruncated := s.callsTruncated || callsTruncated)
  }

  function ApplyAll(s: State, pieces: seq<Piece>): State
    decreases |pieces|
  {
    if pieces == [] then s else Apply(ApplyAll(s, pieces[..|pieces| - 1]), pieces[|pieces| - 1])
  }

  lemma {:induction false} ApplyConcat(s: State, a: seq<Piece>, b: seq<Piece>)
    ensures ApplyAll(s, a + b) == ApplyAll(ApplyAll(s, a), b)
    decreases |b|
  {
    if b == [] {
      assert a + b == a;
    } else {
      assert (a + b)[..|a + b| - 1] == a + b[..|b| - 1];
      ApplyConcat(s, a, b[..|b| - 1]);
    }
  }

  // ----- What a snapshot consists of

  function SpanPieces(records: seq<Record>): (r: seq<Piece>)
    ensures |r| == |records|
  {
    seq(|records|, i requires 0 <= i < |records| => SpanPiece(records[i]))
  }

  function CallPieces(records: seq<Record>): (r: seq<Piece>)
    ensures |r| == |records|
  {
    seq(|records|, i requires 0 <= i < |records| => CallPiece(records[i]))
  }

  function LogPieces(logs: seq<Log>): (r: seq<Piece>)
    ensures |r| == |logs|
  {
    seq(|logs|, i requires 0 <= i < |logs| => LogPiece(logs[i]))
  }

  function Pieces(x: Snapshot): seq<Piece> {
    [HeadPiece(x.summary, x.logsTruncated, x.callsTruncated)] + SpanPieces(x.spans) + LogPieces(x.logs)
    + CallPieces(x.calls)
  }

  /** Takes in a whole snapshot. */
  method ApplySnapshot(state: State, x: Snapshot) returns (next: State)
    ensures next == ApplyAll(state, Pieces(x))
  {
    var head := HeadPiece(x.summary, x.logsTruncated, x.callsTruncated);
    next := Apply(state, head);
    ghost var taken := [head];
    assert [head][..0] == [];
    for i := 0 to |x.spans|
      invariant taken == [head] + SpanPieces(x.spans)[..i] && next == ApplyAll(state, taken)
    {
      next, taken := Taken(state, next, taken, SpanPiece(x.spans[i]));
    }
    for i := 0 to |x.logs|
      invariant taken == [head] + SpanPieces(x.spans) + LogPieces(x.logs)[..i] && next == ApplyAll(state, taken)
    {
      next, taken := Taken(state, next, taken, LogPiece(x.logs[i]));
    }
    for i := 0 to |x.calls|
      invariant taken == [head] + SpanPieces(x.spans) + LogPieces(x.logs) + CallPieces(x.calls)[..i]
      invariant next == ApplyAll(state, taken)
    {
      next, taken := Taken(state, next, taken, CallPiece(x.calls[i]));
    }
    assert taken == Pieces(x);
  }

  /** Takes in one more piece. */
  method Taken(ghost start: State, state: State, ghost taken: seq<Piece>, p: Piece)
    returns (next: State, ghost taken': seq<Piece>)
    requires state == ApplyAll(start, taken)
    ensures taken' == taken + [p] && next == ApplyAll(start, taken')
  {
    next, taken' := Apply(state, p), taken + [p];
    assert taken'[..|taken'| - 1] == taken;
  }

  // ----- Order does not matter

  /** Equal revisions mean equal summaries; ended records and logs are unique per id. */
  ghost predicate Coherent(pieces: seq<Piece>) {
    forall p, q :: p in pieces && q in pieces ==> Agree(p, q)
  }

  ghost predicate Agree(p: Piece, q: Piece) {
    && (p.SpanPiece? && q.SpanPiece? ==> AgreeRecords(p.record, q.record))
    && (p.CallPiece? && q.CallPiece? ==> AgreeRecords(p.record, q.record))
    && (p.LogPiece? && q.LogPiece? && p.log.id == q.log.id ==> p == q)
    && (p.HeadPiece? && q.HeadPiece? && p.summary.revision == q.summary.revision ==> p.summary == q.summary)
  }

  ghost predicate AgreeRecords(r: Record, q: Record) {
    r.id == q.id && r.end.Some? && q.end.Some? ==> r == q
  }

  ghost predicate SameState(s: State, t: State) {
    && s.summary == t.summary && s.logs == t.logs
    && s.logsTruncated == t.logsTruncated && s.callsTruncated == t.callsTruncated
    && SameRecords(s.spans, t.spans) && SameRecords(s.calls, t.calls)
  }

  /** The same ids, the same ended records, and the same ids still open. */
  ghost predicate SameRecords(m: map<ID, Record>, n: map<ID, Record>) {
    && m.Keys == n.Keys
    && forall id :: id in m ==> (m[id].end.Some? <==> n[id].end.Some?) && (m[id].end.Some? ==> m[id] == n[id])
  }

  /** A merged record was received, and is ended exactly if an ended one was received. */
  ghost predicate RecordAt(m: map<ID, Record>, received: set<Record>, id: ID) {
    && (id in m <==> exists r :: r in received && r.id == id)
    && (id in m ==> m[id] in received && m[id].id == id)
    && (id in m ==> (m[id].end.Some? <==> exists r :: r in received && r.id == id && r.end.Some?))
  }

  ghost function Spans(pieces: seq<Piece>): set<Record> {
    set p | p in pieces && p.SpanPiece? :: p.record
  }

  ghost function CallsOf(pieces: seq<Piece>): set<Record> {
    set p | p in pieces && p.CallPiece? :: p.record
  }

  lemma PutKeeps(m: map<ID, Record>, received: set<Record>, r: Record)
    requires forall id :: RecordAt(m, received, id)
    ensures forall id :: RecordAt(PutRecord(m, r), received + {r}, id)
  {
    forall id ensures RecordAt(PutRecord(m, r), received + {r}, id) {
      assert RecordAt(m, received, id);
      assert r in received + {r};
    }
  }

  lemma {:induction false} RecordsReceived(pieces: seq<Piece>)
    ensures forall id :: RecordAt(ApplyAll(EMPTY, pieces).spans, Spans(pieces), id)
    ensures forall id :: RecordAt(ApplyAll(EMPTY, pieces).calls, CallsOf(pieces), id)
    decreases |pieces|
  {
    if pieces == [] {
      assert Spans(pieces) == {} && CallsOf(pieces) == {};
    } else {
      var before, p := pieces[..|pieces| - 1], pieces[|pieces| - 1];
      RecordsReceived(before);
      assert pieces == before + [p];
      assert Spans(pieces) == if p.SpanPiece? then Spans(before) + {p.record} else Spans(before);
      assert CallsOf(pieces) == if p.CallPiece? then CallsOf(before) + {p.record} else CallsOf(before);
      if p.SpanPiece? {
        PutKeeps(ApplyAll(EMPTY, before).spans, Spans(before), p.record);
      } else if p.CallPiece? {
        PutKeeps(ApplyAll(EMPTY, before).calls, CallsOf(before), p.record);
      }
    }
  }

  /** Two merges of the same received records agree on what has ended and what is open. */
  lemma SameReceived(m: map<ID, Record>, n: map<ID, Record>, received: set<Record>)
    requires forall id :: RecordAt(m, received, id)
    requires forall id :: RecordAt(n, received, id)
    requires forall r, q :: r in received && q in received ==> AgreeRecords(r, q)
    ensures SameRecords(m, n)
  {
    forall id
      ensures id in m <==> id in n
      ensures id in m ==> (m[id].end.Some? <==> n[id].end.Some?) && (m[id].end.Some? ==> m[id] == n[id])
    {
      assert RecordAt(m, received, id) && RecordAt(n, received, id);
    }
  }

  /** The summary is the newest received. */
  ghost predicate SummaryAt(s: State, pieces: seq<Piece>) {
    && (s.summary.None? ==> forall p :: p in pieces ==> !p.HeadPiece?)
    && (s.summary.Some? ==>
          && (exists p :: p in pieces && p.HeadPiece? && p.summary == s.summary.value)
          && forall p :: p in pieces && p.HeadPiece? ==> p.summary.revision <= s.summary.value.revision)
  }

  /** A flag is set if one received was. */
  ghost predicate FlagsAt(s: State, pieces: seq<Piece>) {
    && (s.logsTruncated <==> exists p :: p in pieces && p.HeadPiece? && p.logsTruncated)
    && (s.callsTruncated <==> exists p :: p in pieces && p.HeadPiece? && p.callsTruncated)
  }

  ghost predicate LogAt(s: State, pieces: seq<Piece>, id: ID) {
    && (id in s.logs <==> exists p :: p in pieces && p.LogPiece? && p.log.id == id)
    && (id in s.logs ==> LogPiece(s.logs[id]) in pieces && s.logs[id].id == id)
  }

  lemma SummaryStep(s: State, before: seq<Piece>, p: Piece)
    requires SummaryAt(s, before)
    ensures SummaryAt(Apply(s, p), before + [p])
  {
    assert p in before + [p];
    assert forall q :: q in before + [p] <==> q in before || q == p;
  }

  lemma FlagsStep(s: State, before: seq<Piece>, p: Piece)
    requires FlagsAt(s, before)
    ensures FlagsAt(Apply(s, p), before + [p])
  {
    assert p in before + [p];
    assert forall q :: q in before + [p] <==> q in before || q == p;
  }

  lemma ApplySnoc(s: State, before: seq<Piece>, p: Piece)
    ensures ApplyAll(s, before + [p]) == Apply(ApplyAll(s, before), p)
  {
    assert (before + [p])[..|before + [p]| - 1] == before;
  }

  lemma {:induction false} HeadReceived(pieces: seq<Piece>)
    ensures SummaryAt(ApplyAll(EMPTY, pieces), pieces) && FlagsAt(ApplyAll(EMPTY, pieces), pieces)
    decreases |pieces|
  {
    if pieces != [] {
      var before, p := pieces[..|pieces| - 1], pieces[|pieces| - 1];
      HeadReceived(before);
      var s := ApplyAll(EMPTY, before);
      SummaryStep(s, before, p);
      FlagsStep(s, before, p);
      ApplySnoc(EMPTY, before, p);
      assert before + [p] == pieces;
    }
  }

  lemma LogStep(s: State, before: seq<Piece>, p: Piece, id: ID)
    requires LogAt(s, before, id)
    ensures LogAt(Apply(s, p), before + [p], id)
  {
    assert p in before + [p];
    assert forall q :: q in before + [p] <==> q in before || q == p;
  }

  lemma {:induction false} LogsReceived(pieces: seq<Piece>, id: ID)
    ensures LogAt(ApplyAll(EMPTY, pieces), pieces, id)
    decreases |pieces|
  {
    if pieces != [] {
      var before, p := pieces[..|pieces| - 1], pieces[|pieces| - 1];
      LogsReceived(before, id);
      LogStep(ApplyAll(EMPTY, before), before, p, id);
      ApplySnoc(EMPTY, before, p);
      assert before + [p] == pieces;
    }
  }

  lemma SameHeads(a: seq<Piece>, b: seq<Piece>)
    requires Coherent(a) && forall p :: p in a <==> p in b
    ensures var s, t := ApplyAll(EMPTY, a), ApplyAll(EMPTY, b);
            s.summary == t.summary && s.logsTruncated == t.logsTruncated && s.callsTruncated == t.callsTruncated
  {
    HeadReceived(a);
    HeadReceived(b);
    var s, t := ApplyAll(EMPTY, a), ApplyAll(EMPTY, b);
    if s.summary.Some? {
      var p :| p in a && p.HeadPiece? && p.summary == s.summary.value;
      var q :| q in b && q.HeadPiece? && q.summary == t.summary.value;
      assert Agree(p, q);
    }
  }

  lemma SameLogs(a: seq<Piece>, b: seq<Piece>)
    requires Coherent(a) && forall p :: p in a <==> p in b
    ensures ApplyAll(EMPTY, a).logs == ApplyAll(EMPTY, b).logs
  {
    var s, t := ApplyAll(EMPTY, a), ApplyAll(EMPTY, b);
    forall id ensures id in s.logs <==> id in t.logs ensures id in s.logs ==> s.logs[id] == t.logs[id] {
      LogsReceived(a, id);
      LogsReceived(b, id);
      if id in s.logs {
        assert Agree(LogPiece(s.logs[id]), LogPiece(t.logs[id]));
      }
    }
  }

  lemma AgreeingRecords(pieces: seq<Piece>)
    requires Coherent(pieces)
    ensures forall r, q :: r in Spans(pieces) && q in Spans(pieces) ==> AgreeRecords(r, q)
    ensures forall r, q :: r in CallsOf(pieces) && q in CallsOf(pieces) ==> AgreeRecords(r, q)
  {
    forall r, q | r in Spans(pieces) && q in Spans(pieces) ensures AgreeRecords(r, q) {
      assert Agree(SpanPiece(r), SpanPiece(q));
    }
    forall r, q | r in CallsOf(pieces) && q in CallsOf(pieces) ensures AgreeRecords(r, q) {
      assert Agree(CallPiece(r), CallPiece(q));
    }
  }

  lemma SameSpansAndCalls(a: seq<Piece>, b: seq<Piece>)
    requires Coherent(a) && forall p :: p in a <==> p in b
    ensures SameRecords(ApplyAll(EMPTY, a).spans, ApplyAll(EMPTY, b).spans)
    ensures SameRecords(ApplyAll(EMPTY, a).calls, ApplyAll(EMPTY, b).calls)
  {
    RecordsReceived(a);
    RecordsReceived(b);
    AgreeingRecords(a);
    assert Spans(a) == Spans(b) && CallsOf(a) == CallsOf(b);
    SameReceived(ApplyAll(EMPTY, a).spans, ApplyAll(EMPTY, b).spans, Spans(a));
    SameReceived(ApplyAll(EMPTY, a).calls, ApplyAll(EMPTY, b).calls, CallsOf(a));
  }

  /**
   Whatever the order, and however often each was received, the same pieces merge to the same view; in particular
   a span that ended stays ended.
   */
  lemma MergeIsOrderIndependent(a: seq<Piece>, b: seq<Piece>)
    requires Coherent(a) && forall p :: p in a <==> p in b
    ensures SameState(ApplyAll(EMPTY, a), ApplyAll(EMPTY, b))
  {
    SameHeads(a, b);
    SameLogs(a, b);
    SameSpansAndCalls(a, b);
  }

  // ----- Snapshots and live pieces

  /** What the view receives: a live span, call, log or summary, or a whole snapshot. */
  datatype Arrival = Live(piece: Piece) | Whole(snapshot: Snapshot)

  function PiecesOf(x: Arrival): seq<Piece> {
    match x
    case Live(p) => [p]
    case Whole(snapshot) => Pieces(snapshot)
  }

  function Flattened(arrivals: seq<Arrival>): seq<Piece> {
    if arrivals == [] then [] else PiecesOf(arrivals[0]) + Flattened(arrivals[1..])
  }

  /** Takes in one arrival after the other. */
  function Receive(s: State, arrivals: seq<Arrival>): State
    decreases |arrivals|
  {
    if arrivals == [] then s
    else
      match arrivals[0]
      case Live(p) => Receive(Apply(s, p), arrivals[1..])
      case Whole(snapshot) => Receive(ApplyAll(s, Pieces(snapshot)), arrivals[1..])
  }

  lemma {:induction false} ReceiveIsApplyAll(s: State, arrivals: seq<Arrival>)
    ensures Receive(s, arrivals) == ApplyAll(s, Flattened(arrivals))
    decreases |arrivals|
  {
    if arrivals != [] {
      var first := PiecesOf(arrivals[0]);
      ApplyConcat(s, first, Flattened(arrivals[1..]));
      if arrivals[0].Live? {
        assert first[..0] == [];
        assert ApplyAll(s, first) == Apply(s, arrivals[0].piece);
      }
      ReceiveIsApplyAll(ApplyAll(s, first), arrivals[1..]);
    }
  }

  ghost predicate Brings(arrivals: seq<Arrival>, p: Piece) {
    exists x :: x in arrivals && p in PiecesOf(x)
  }

  lemma {:induction false} FlattenedHas(arrivals: seq<Arrival>, p: Piece)
    ensures p in Flattened(arrivals) <==> Brings(arrivals, p)
    decreases |arrivals|
  {
    if arrivals != [] {
      var x, rest := arrivals[0], arrivals[1..];
      FlattenedHas(rest, p);
      if Brings(arrivals, p) {
        var y :| y in arrivals && p in PiecesOf(y);
        assert y == x || y in rest;
      }
      assert forall y :: y in rest ==> y in arrivals;
      assert x in arrivals;
    }
  }

  /**
   Snapshots and live pieces may cross in any way and be repeated: from an empty view, the same arrivals in any order
   lead to the same view.
   */
  lemma ArrivalsOrderIndependent(a: seq<Arrival>, b: seq<Arrival>)
    requires Coherent(Flattened(a)) && forall x :: x in a <==> x in b
    ensures SameState(Receive(EMPTY, a), Receive(EMPTY, b))
  {
    forall p ensures p in Flattened(a) <==> p in Flattened(b) {
      FlattenedHas(a, p);
      FlattenedHas(b, p);
    }
    ReceiveIsApplyAll(EMPTY, a);
    ReceiveIsApplyAll(EMPTY, b);
    MergeIsOrderIndependent(Flattened(a), Flattened(b));
  }

  /** An ended record is never reopened, whatever arrives later. */
  lemma {:induction false} EndedStaysEnded(s: State, pieces: seq<Piece>, id: ID)
    requires id in s.spans && s.spans[id].end.Some?
    ensures id in ApplyAll(s, pieces).spans && ApplyAll(s, pieces).spans[id].end.Some?
    decreases |pieces|
  {
    if pieces != [] { EndedStaysEnded(s, pieces[..|pieces| - 1], id); }
  }

  // ----- The list of summaries

  function MergeOne(m: map<ID, Summary>, s: Summary): map<ID, Summary> {
    if s.traceID !in m || s.revision > m[s.traceID].revision then m[s.traceID := s] else m
  }

  function MergeAll(m: map<ID, Summary>, incoming: seq<Summary>): map<ID, Summary>
    decreases |incoming|
  {
    if incoming == [] then m else MergeOne(MergeAll(m, incoming[..|incoming| - 1]), incoming[|incoming| - 1])
  }

  method MergeSummaries(current: map<ID, Summary>, incoming: seq<Summary>) returns (next: map<ID, Summary>)
    ensures next == MergeAll(current, incoming)
  {
    next := current;
    for i := 0 to |incoming|
      invariant next == MergeAll(current, incoming[..i])
    {
      var summary := incoming[i];
      assert incoming[..i + 1][..i] == incoming[..i];
      if summary.traceID !in next || summary.revision > next[summary.traceID].revision {
        next := next[summary.traceID := summary];
      }
    }
    assert incoming[..|incoming|] == incoming;
  }

  ghost predicate Received(current: map<ID, Summary>, incoming: seq<Summary>, s: Summary) {
    s in incoming || (s.traceID in current && current[s.traceID] == s)
  }

  /** Each trace gets the newest summary there is for it. */
  ghost predicate NewestAt(m: map<ID, Summary>, current: map<ID, Summary>, incoming: seq<Summary>, id: ID) {
    && (id in m <==> exists s :: Received(current, incoming, s) && s.traceID == id)
    && (id in m ==>
          && m[id].traceID == id && Received(current, incoming, m[id])
          && forall s :: Received(current, incoming, s) && s.traceID == id ==> s.revision <= m[id].revision)
  }

  lemma {:induction false} MergedIsNewest(current: map<ID, Summary>, incoming: seq<Summary>, id: ID)
    requires forall t :: t in current ==> current[t].traceID == t
    ensures NewestAt(MergeAll(current, incoming), current, incoming, id)
    decreases |incoming|
  {
    if incoming == [] {
      assert id in current ==> Received(current, incoming, current[id]);
    } else {
      var before, s := incoming[..|incoming| - 1], incoming[|incoming| - 1];
      MergedIsNewest(current, before, id);
      assert incoming == before + [s];
      assert forall r :: Received(current, incoming, r) <==> Received(current, before, r) || r == s;
    }
  }

  /** Lists with the same summaries merge to the same map, in any order and with any repetition. */
  lemma SummariesOrderIndependent(current: map<ID, Summary>, a: seq<Summary>, b: seq<Summary>)
    requires forall t :: t in current ==> current[t].traceID == t
    requires forall s :: s in a <==> s in b
    requires forall s, t ::
      Received(current, a, s) && Received(current, a, t) && s.traceID == t.traceID && s.revision == t.revision ==>
        s == t
    ensures MergeAll(current, a) == MergeAll(current, b)
  {
    var m, n := MergeAll(current, a), MergeAll(current, b);
    forall id ensures id in m <==> id in n ensures id in m ==> m[id] == n[id] {
      MergedIsNewest(current, a, id);
      MergedIsNewest(current, b, id);
    }
  }

}
