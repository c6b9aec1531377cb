/**
 The write-behind summary cache of the local trace recorder, as a state and its atomic steps.

 One step is one synchronous stretch of the recorder: a change reported by a span or a dropped queue
 entry, one leg of an asynchronous index read, or one leg of an asynchronous commit. Reads and commits in
 flight are part of the state, so every interleaving of them with changes is a run of `Step`.
 */
module SummaryCache {
  import opened Options
  import H = Histories

  type TraceID = int
  type SpanID = int

  /** Traces remembered as having no root span. */
  const UNROOTED_LIMIT: nat := 1000

  datatype Outcome = Succeeded | Errored

  /** The fields of a trace summary the cache computes. Identity fields and attributes are not modelled. */
  datatype Summary = Summary(
    spanCount: nat, errorCount: nat, droppedCount: nat, revision: nat,
    active: bool, outcome: Option<Outcome>, segment: Option<SpanID>, endTime: Option<int>)

  const EMPTY := Summary(0, 0, 0, 0, false, None, None, None)

  /** What one span event or one dropped span entry does to the summary of its trace. */
  datatype Change =
    | RootStart(span: SpanID)
    | SpanEnd(root: bool, failed: bool, endTime: int)
    | DropSpan(root: bool)
    | Refresh

  predicate IsRoot(c: Change) {
    match c
    case RootStart(_) => true
    case SpanEnd(root, _, _) => root
    case DropSpan(root) => root
    case Refresh => true
  }

  /** The direct effect of a change: the simple thing the cache has to agree with. */
  function Apply(c: Change, s: Summary): Summary {
    var next := s.(revision := s.revision + 1);
    match c
    case RootStart(span) =>
      next.(active := true, outcome := None, segment := Some(span), endTime := None)
    case SpanEnd(root, failed, endTime) =>
      var counted := next.(spanCount := s.spanCount + 1,
                           errorCount := s.errorCount + if failed then 1 else 0);
      if root then
        counted.(active := false, segment := None,
                 outcome := Some(if failed then Errored else Succeeded), endTime := Some(endTime))
      else counted
    case DropSpan(_) => next.(droppedCount := s.droppedCount + 1)
    case Refresh => next
  }

  /** The direct effect of `n` dropped log entries. */
  function ApplyLogDrops(n: nat, s: Summary): Summary {
    s.(droppedCount := s.droppedCount + n, revision := s.revision + n)
  }

  // ----- State

  /** Where the index read of a pending trace stands: under way, answered, or waiting to be retried. */
  datatype Read = Loading(attempt: nat) | Loaded(row: Option<Summary>) | Waiting(attempt: nat)

  /** Changes to a trace whose index row is not known yet. */
  datatype Pending = Pending(
    summary: Option<Summary>, droppedLogs: nat, rootChanged: bool, hasRootStart: bool, read: Read)

  const FRESH := Pending(None, 0, false, false, Loading(0))

  /** The index lookup made for a trace whose delta was refused at the limit. */
  datatype Check = Checking | Checked(found: bool)

  /** A batch of summaries handed to a transaction. `written` says the transaction has committed. */
  datatype Flight = Flight(captured: map<TraceID, Summary>, written: bool, attempt: nat)

  datatype State = State(
    limit: nat, retries: nat,
    index: map<TraceID, Summary>,
    summaries: map<TraceID, Summary>,
    dirty: seq<TraceID>,
    pending: map<TraceID, Pending>,
    unrooted: seq<TraceID>,
    verifying: map<TraceID, Check>,
    flight: Option<Flight>,
    lost: nat)

  /** A recorder just constructed over an index that may already hold traces. */
  function Initial(limit: nat, retries: nat, index: map<TraceID, Summary>): State {
    State(limit, retries, index, map[], [], map[], [], map[], None, 0)
  }

  // ----- Steps

  function Remove(s: seq<TraceID>, t: TraceID): (r: seq<TraceID>)
    ensures |r| <= |s|
    ensures t in s ==> |r| < |s|
    ensures forall u :: u in r <==> u in s && u != t
  {
    if s == [] then []
    else (if s[0] == t then [] else [s[0]]) + Remove(s[1..], t)
  }

  /** A JavaScript set keeps insertion order, so adding a member again moves nothing. */
  function Add(s: seq<TraceID>, t: TraceID): seq<TraceID> {
    if t in s then s else s + [t]
  }

  function FirstInactive(dirty: seq<TraceID>, summaries: map<TraceID, Summary>): (r: Option<TraceID>)
    ensures r.Some? ==> r.value in dirty
  {
    if dirty == [] then None
    else if dirty[0] in summaries && summaries[dirty[0]].active then FirstInactive(dirty[1..], summaries)
    else Some(dirty[0])
  }

  function Evicted(s: State, t: TraceID): State {
    s.(dirty := Remove(s.dirty, t), summaries := s.summaries - {t}, lost := s.lost + 1)
  }

  /** Beyond the limit, the oldest dirty traces go that are not active. */
  function Evict(s: State): State
    decreases |s.dirty|
  {
    if |s.dirty| <= s.limit then s
    else
      match FirstInactive(s.dirty, s.summaries)
      case None => s
      case Some(oldest) => Evict(Evicted(s, oldest))
  }

  function Changed(s: State, t: TraceID, summary: Summary): State {
    Evict(s.(summaries := s.summaries[t := summary], dirty := Add(s.dirty, t)))
  }

  function MarkUnrooted(unrooted: seq<TraceID>, t: TraceID): seq<TraceID> {
    var all := Add(unrooted, t);
    if |all| > UNROOTED_LIMIT then all[1..] else all
  }

  function VerifyLoss(s: State, t: TraceID): State {
    if t in s.unrooted || t in s.verifying then s
    else if |s.verifying| >= s.limit then s.(lost := s.lost + 1)
    else s.(verifying := s.verifying[t := Checking])
  }

  /** A change or dropped log of a trace with no summary in memory has a pending record, or room for one. */
  predicate Deferred(s: State, t: TraceID) {
    t !in s.unrooted && (t in s.pending || |s.pending| < s.limit)
  }

  function DeltaOf(s: State, t: TraceID): Pending {
    if t in s.pending then s.pending[t] else FRESH
  }

  /** A change or dropped log without a pending record: expected of an unrooted trace, else lost or to be checked. */
  function Refused(s: State, t: TraceID, root: bool): State {
    if t in s.unrooted then s else if root then s.(lost := s.lost + 1) else VerifyLoss(s, t)
  }

  function Accumulate(p: Pending, c: Change): Pending {
    var next := Apply(c, p.summary.GetOr(EMPTY));
    p.(summary := Some(next),
       rootChanged := p.rootChanged || next.segment.Some? || next.endTime.Some?,
       hasRootStart := p.hasRootStart || (IsRoot(c) && next.segment.Some?))
  }

  function Update(s: State, t: TraceID, c: Change): State {
    if t in s.summaries then Changed(s, t, Apply(c, s.summaries[t]))
    else if Deferred(s, t) then s.(pending := s.pending[t := Accumulate(DeltaOf(s, t), c)])
    else Refused(s, t, IsRoot(c))
  }

  function DropLog(s: State, t: TraceID): State {
    if t in s.summaries then Changed(s, t, ApplyLogDrops(1, s.summaries[t]))
    else if Deferred(s, t) then
      var p := DeltaOf(s, t);
      s.(pending := s.pending[t := p.(droppedLogs := p.droppedLogs + 1)])
    else Refused(s, t, false)
  }

  /** The summary a pending delta amounts to over the row read for it, if the trace has one at all. */
  function Resolve(row: Option<Summary>, p: Pending): Option<Summary> {
    if row.None? && (!p.hasRootStart || p.summary.None?) then None
    else
      var local := p.summary.GetOr(EMPTY);
      var merged :=
        if row.None? then local
        else
          var kept := if p.rootChanged then local else row.value;
          kept.(spanCount := row.value.spanCount + local.spanCount,
                errorCount := row.value.errorCount + local.errorCount,
                droppedCount := row.value.droppedCount + local.droppedCount,
                revision := row.value.revision + local.revision);
      Some(ApplyLogDrops(p.droppedLogs, merged))
  }

  function Hydrated(s: State, t: TraceID, row: Option<Summary>): State
    requires t in s.pending
  {
    var s' := s.(pending := s.pending - {t});
    match Resolve(row, s.pending[t])
    case None => s'.(unrooted := MarkUnrooted(s.unrooted, t))
    case Some(summary) => Changed(s', t, summary)
  }

  predicate HeldDeltas(p: Pending) {
    p.summary.GetOr(EMPTY).spanCount > 0 || p.summary.GetOr(EMPTY).droppedCount > 0 || p.droppedLogs > 0
  }

  /** A failed read is retried while delays remain; after that the delta is given up and counted. */
  function ReadFailed(s: State, t: TraceID): State
    requires t in s.pending && s.pending[t].read.Loading?
  {
    var p := s.pending[t];
    if p.read.attempt < s.retries then s.(pending := s.pending[t := p.(read := Waiting(p.read.attempt))])
    else
      s.(pending := s.pending - {t}, lost := s.lost + if p.hasRootStart || HeldDeltas(p) then 1 else 0)
  }

  /** The revision-guarded upsert of the trace index. */
  function Upsert(index: map<TraceID, Summary>, rows: map<TraceID, Summary>): map<TraceID, Summary> {
    map t | t in index.Keys + rows.Keys ::
      if t in rows && (t !in index || index[t].revision < rows[t].revision) then rows[t] else index[t]
  }

  function Captured(s: State): map<TraceID, Summary> {
    map t | t in s.dirty && t in s.summaries :: s.summaries[t]
  }

  /** Whether the commit of `captured` stored the summary still in memory. */
  predicate UpToDate(s: State, captured: map<TraceID, Summary>, t: TraceID) {
    t in captured && t in s.summaries && s.summaries[t].revision == captured[t].revision
  }

  function Saved(s: State, captured: map<TraceID, Summary>): set<TraceID> {
    set t | t in captured && UpToDate(s, captured, t)
  }

  function Without(dirty: seq<TraceID>, gone: set<TraceID>): (r: seq<TraceID>)
    ensures forall t :: t in r <==> t in dirty && t !in gone
  {
    if dirty == [] then []
    else (if dirty[0] in gone then [] else [dirty[0]]) + Without(dirty[1..], gone)
  }

  lemma {:induction false} WithoutOneMore(dirty: seq<TraceID>, gone: set<TraceID>, t: TraceID)
    ensures Remove(Without(dirty, gone), t) == Without(dirty, gone + {t})
  {
    if dirty != [] {
      WithoutOneMore(dirty[1..], gone, t);
      var rest := Without(dirty[1..], gone);
      if dirty[0] in gone {
        assert Without(dirty, gone) == rest;
        assert Without(dirty, gone + {t}) == Without(dirty[1..], gone + {t});
      } else {
        assert ([dirty[0]] + rest)[1..] == rest;
      }
    }
  }

  lemma {:induction false} WithoutNone(dirty: seq<TraceID>)
    ensures Without(dirty, {}) == dirty
  {
    if dirty != [] { WithoutNone(dirty[1..]); }
  }

  /** What a committed batch saved of `these` is no longer dirty, nor in memory unless it is active. */
  function Forgetting(s: State, captured: map<TraceID, Summary>, these: set<TraceID>): State {
    var gone := Saved(s, captured) * these;
    s.(dirty := Without(s.dirty, gone),
       summaries := map t | t in s.summaries && !(t in gone && !captured[t].active) :: s.summaries[t])
  }

  lemma ForgettingNone(s: State, captured: map<TraceID, Summary>)
    ensures Forgetting(s, captured, {}) == s
  {
    WithoutNone(s.dirty);
    assert Saved(s, captured) * {} == {};
  }

  lemma SavedOneMore(s: State, captured: map<TraceID, Summary>, these: set<TraceID>, t: TraceID)
    ensures UpToDate(s, captured, t) ==> Saved(s, captured) * (these + {t}) == Saved(s, captured) * these + {t}
    ensures !UpToDate(s, captured, t) ==> Saved(s, captured) * (these + {t}) == Saved(s, captured) * these
  {
    assert t in Saved(s, captured) <==> UpToDate(s, captured, t);
  }

  lemma CleanOneMore(s: State, captured: map<TraceID, Summary>, these: set<TraceID>, t: TraceID)
    requires t in captured && t !in these
    ensures Forgetting(s, captured, these + {t}).dirty ==
              var dirty := Forgetting(s, captured, these).dirty;
              if UpToDate(s, captured, t) then Remove(dirty, t) else dirty
  {
    SavedOneMore(s, captured, these, t);
    WithoutOneMore(s.dirty, Saved(s, captured) * these, t);
  }

  /** Forgetting what a commit saved, one captured summary at a time. */
  lemma ForgettingOneMore(s: State, captured: map<TraceID, Summary>, these: set<TraceID>, t: TraceID)
    requires t in captured && t !in these
    ensures
      var s', s'' := Forgetting(s, captured, these), Forgetting(s, captured, these + {t});
      && UpToDate(s', captured, t) == UpToDate(s, captured, t)
      && s''.dirty == (if UpToDate(s, captured, t) then Remove(s'.dirty, t) else s'.dirty)
      && s''.summaries == (if UpToDate(s, captured, t) && !captured[t].active then s'.summaries - {t} else s'.summaries)
  {
    CleanOneMore(s, captured, these, t);
    SavedOneMore(s, captured, these, t);
  }

  function Acknowledged(s: State, captured: map<TraceID, Summary>): State {
    Forgetting(s, captured, captured.Keys).(flight := None)
  }

  datatype Event =
    | Report(trace: TraceID, change: Change)
    | LogDropped(trace: TraceID)
    | ReadAnswered(trace: TraceID)
    | ReadDelivered(trace: TraceID)
    | ReadRejected(trace: TraceID)
    | ReadRetried(trace: TraceID)
    | CheckAnswered(trace: TraceID)
    | CheckDelivered(trace: TraceID)
    | CheckRejected(trace: TraceID)
    | Capture
    | Commit
    | CommitDelivered
    | CommitRejected

  /** Whether the event can happen: its read, check or commit is outstanding at that point. */
  predicate Enabled(s: State, e: Event) {
    match e
    case Report(t, Refresh) => t in s.summaries || (t in s.pending && s.pending[t].summary.Some?)
    case Report(_, _) => true
    case LogDropped(_) => true
    case ReadAnswered(t) => t in s.pending && s.pending[t].read.Loading?
    case ReadDelivered(t) => t in s.pending && s.pending[t].read.Loaded?
    case ReadRejected(t) => t in s.pending && s.pending[t].read.Loading?
    case ReadRetried(t) => t in s.pending && s.pending[t].read.Waiting?
    case CheckAnswered(t) => t in s.verifying && s.verifying[t].Checking?
    case CheckDelivered(t) => t in s.verifying && s.verifying[t].Checked?
    case CheckRejected(t) => t in s.verifying && s.verifying[t].Checking?
    case Capture => s.flight.None?
    case Commit => s.flight.Some? && !s.flight.value.written
    case CommitDelivered => s.flight.Some? && s.flight.value.written
    case CommitRejected => s.flight.Some? && !s.flight.value.written
  }

  function Step(s: State, e: Event): State
    requires Enabled(s, e)
  {
    match e
    case Report(t, c) =>
      Update(if c.RootStart? then s.(unrooted := Remove(s.unrooted, t)) else s, t, c)
    case LogDropped(t) => DropLog(s, t)
    case ReadAnswered(t) =>
      s.(pending := s.pending[t := s.pending[t].(read := Loaded(Lookup(s.index, t)))])
    case ReadDelivered(t) => Hydrated(s, t, s.pending[t].read.row)
    case ReadRejected(t) => ReadFailed(s, t)
    case ReadRetried(t) =>
      var p := s.pending[t];
      s.(pending := s.pending[t := p.(read := Loading(p.read.attempt + 1))])
    case CheckAnswered(t) => s.(verifying := s.verifying[t := Checked(t in s.index)])
    case CheckDelivered(t) =>
      var s' := s.(verifying := s.verifying - {t});
      if s.verifying[t].found then s'.(lost := s.lost + 1)
      else s'.(unrooted := MarkUnrooted(s.unrooted, t))
    case CheckRejected(t) => s.(verifying := s.verifying - {t}, lost := s.lost + 1)
    case Capture => s.(flight := Some(Flight(Captured(s), false, 0)))
    case Commit =>
      var flight := s.flight.value;
      s.(index := Upsert(s.index, flight.captured), flight := Some(flight.(written := true)))
    case CommitDelivered => Acknowledged(s, s.flight.value.captured)
    case CommitRejected =>
      var flight := s.flight.value;
      s.(flight := if flight.attempt < s.retries then Some(flight.(attempt := flight.attempt + 1)) else None)
  }

  predicate Possible(s: State, events: seq<Event>)
    decreases |events|
  {
    events == [] || (Enabled(s, events[0]) && Possible(Step(s, events[0]), events[1..]))
  }

  function Run(s: State, events: seq<Event>): State
    requires Possible(s, events)
    decreases |events|
  {
    if events == [] then s else Run(Step(s, events[0]), events[1..])
  }

  /** The step of an event that can happen. */
  function Advance(s: State, e: Event): Option<State> {
    if Enabled(s, e) then Some(Step(s, e)) else None
  }

  lemma {:induction false} HistoryIsRun(s: State, events: seq<Event>, now: State)
    requires H.History(Advance, s, events, now)
    ensures Possible(s, events) && Run(s, events) == now
    decreases |events|
  {
    H.HistoryFirst(Advance, s, events, now);
    if events != [] { HistoryIsRun(Step(s, events[0]), events[1..], now); }
  }

  // ----- What the cache stands for

  /** The summary of a trace as memory and index together have it. */
  function View(s: State, t: TraceID): Option<Summary> {
    if t in s.summaries then Some(s.summaries[t])
    else if t in s.pending then Resolve(Lookup(s.index, t), s.pending[t])
    else Lookup(s.index, t)
  }

  /** The direct effect of an event on the summary of trace `t`. Reads and commits have none. */
  function Direct(e: Event, t: TraceID, summary: Summary): Summary {
    match e
    case Report(u, c) => if u == t then Apply(c, summary) else summary
    case LogDropped(u) => if u == t then ApplyLogDrops(1, summary) else summary
    case _ => summary
  }

  function DirectAll(events: seq<Event>, t: TraceID, summary: Summary): Summary
    decreases |events|
  {
    if events == [] then summary else DirectAll(events[1..], t, Direct(events[0], t, summary))
  }
}
