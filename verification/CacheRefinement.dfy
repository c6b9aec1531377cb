/**
 The write-behind cache agrees with the simple map from traces to summaries.

 `Coherent` is the invariant of every run that lost no summary. The main results are `RunKeepsCoherence`,
 `UpdateLandsExactlyWhenRecorded`, `RefinesExactlyIfRecorded`, `RootStartGivesSummary`,
 `LosslessRecorderRefinesDirectUpdates`, `NewTraceRefinesDirectUpdates` and `LateCheckForgetsRootedTrace`.
 */
module CacheRefinement {
  import opened Options
  import opened SummaryCache

  // ----- Invariant

  ghost predicate PendingOK(p: Pending) {
    var local := p.summary.GetOr(EMPTY);
    && (p.hasRootStart ==> p.rootChanged)
    && (p.rootChanged ==> p.summary.Some?)
    && (local.segment.Some? ==> p.hasRootStart)
    && (!p.rootChanged ==> local.segment.None? && local.endTime.None?)
    && (p.hasRootStart || HeldDeltas(p))
    && local.revision + p.droppedLogs > 0
  }

  ghost predicate InFlight(s: State, t: TraceID) {
    s.flight.Some? && t in s.flight.value.captured
  }

  ghost predicate Written(s: State, t: TraceID) {
    InFlight(s, t) && s.flight.value.written
  }

  /** What the cache knows about one trace fits what the index holds for it. */
  ghost predicate CoherentAt(s: State, t: TraceID) {
    && (t in s.pending ==>
          && t !in s.summaries
          && PendingOK(s.pending[t])
          && (s.pending[t].read.Loaded? ==> s.pending[t].read.row == Lookup(s.index, t)))
    && (t in s.dirty ==> t in s.summaries)
    && (t in s.summaries && t !in s.dirty ==>
          s.summaries[t].active && Lookup(s.index, t) == Some(s.summaries[t]))
    && (t in s.dirty && t in s.index && !Written(s, t) ==> s.index[t].revision < s.summaries[t].revision)
    && (InFlight(s, t) ==> t in s.dirty && FlightOK(s, t, s.flight.value))
  }

  ghost predicate FlightOK(s: State, t: TraceID, flight: Flight)
    requires t in flight.captured && (t in s.dirty ==> t in s.summaries)
  {
    var captured := flight.captured[t];
    t in s.dirty ==>
      && captured.revision <= s.summaries[t].revision
      && (captured.revision == s.summaries[t].revision ==> captured == s.summaries[t])
      && (if flight.written then Lookup(s.index, t) == Some(captured)
          else t in s.index ==> s.index[t].revision < captured.revision)
  }

  ghost predicate Coherent(s: State) {
    forall t: TraceID :: CoherentAt(s, t)
  }

  // ----- Losses

  lemma {:induction false} EvictLosses(s: State)
    ensures Evict(s).lost >= s.lost
    ensures Evict(s).lost == s.lost ==> Evict(s) == s
    decreases |s.dirty|
  {
    if |s.dirty| > s.limit && FirstInactive(s.dirty, s.summaries).Some? {
      var oldest := FirstInactive(s.dirty, s.summaries).value;
      EvictLosses(Evicted(s, oldest));
    }
  }

  lemma ChangedLosses(s: State, t: TraceID, summary: Summary)
    ensures Changed(s, t, summary).lost >= s.lost
    ensures Changed(s, t, summary).lost == s.lost ==>
              Changed(s, t, summary) == s.(summaries := s.summaries[t := summary], dirty := Add(s.dirty, t))
  {
    EvictLosses(s.(summaries := s.summaries[t := summary], dirty := Add(s.dirty, t)));
  }

  lemma UpdateLosses(s: State, t: TraceID, c: Change)
    ensures Update(s, t, c).lost >= s.lost
  {
    if t in s.summaries { ChangedLosses(s, t, Apply(c, s.summaries[t])); }
  }

  lemma LogDropLosses(s: State, t: TraceID)
    ensures DropLog(s, t).lost >= s.lost
  {
    if t in s.summaries { ChangedLosses(s, t, ApplyLogDrops(1, s.summaries[t])); }
  }

  lemma DeliveryLosses(s: State, t: TraceID, row: Option<Summary>)
    requires t in s.pending
    ensures Hydrated(s, t, row).lost >= s.lost
  {
    var resolved := Resolve(row, s.pending[t]);
    if resolved.Some? { ChangedLosses(s.(pending := s.pending - {t}), t, resolved.value); }
  }

  lemma LossesOnlyGrow(s: State, e: Event)
    requires Enabled(s, e)
    ensures Step(s, e).lost >= s.lost
  {
    match e
    case Report(t, c) =>
      UpdateLosses(if c.RootStart? then s.(unrooted := Remove(s.unrooted, t)) else s, t, c);
    case LogDropped(t) => LogDropLosses(s, t);
    case ReadDelivered(t) => DeliveryLosses(s, t, s.pending[t].read.row);
    case _ =>
  }

  lemma {:induction false} RunLossesOnlyGrow(s: State, events: seq<Event>)
    requires Possible(s, events)
    ensures Run(s, events).lost >= s.lost
    decreases |events|
  {
    if events != [] {
      LossesOnlyGrow(s, events[0]);
      RunLossesOnlyGrow(Step(s, events[0]), events[1..]);
    }
  }

  // ----- Each kind of step

  /** Storing a newer summary in memory, when nothing is evicted for it. */
  lemma ChangedKeeps(s: State, t: TraceID, summary: Summary)
    requires Coherent(s) && t !in s.pending
    requires t in s.summaries ==> s.summaries[t].revision < summary.revision
    requires t in s.index ==> s.index[t].revision < summary.revision
    requires Changed(s, t, summary).lost == s.lost
    ensures Coherent(Changed(s, t, summary))
    ensures View(Changed(s, t, summary), t) == Some(summary)
    ensures forall u :: u != t ==> View(Changed(s, t, summary), u) == View(s, u)
  {
    var s' := s.(summaries := s.summaries[t := summary], dirty := Add(s.dirty, t));
    ChangedLosses(s, t, summary);
    forall u: TraceID ensures CoherentAt(s', u) {
      assert CoherentAt(s, u);
    }
  }

  lemma IndexNotNewer(s: State, t: TraceID)
    requires Coherent(s) && t in s.summaries && t in s.index
    ensures s.index[t].revision <= s.summaries[t].revision
    ensures s.index[t].revision == s.summaries[t].revision ==> s.index[t] == s.summaries[t]
  {
    assert CoherentAt(s, t);
  }

  /** Accumulating into a delta is the same as applying to what the delta resolves to. */
  lemma AccumulateRefines(row: Option<Summary>, p: Pending, c: Change)
    requires p == FRESH || PendingOK(p)
    requires Resolve(row, p).Some?
    ensures Resolve(row, Accumulate(p, c)) == Some(Apply(c, Resolve(row, p).value))
  {
  }

  lemma AccumulateOK(p: Pending, c: Change)
    requires c != Refresh || p.summary.Some?
    requires p == FRESH || PendingOK(p)
    ensures PendingOK(Accumulate(p, c))
  {
  }

  ghost predicate Touches(e: Event, u: TraceID) {
    match e
    case Report(t, _) => t == u
    case LogDropped(t) => t == u
    case _ => false
  }

  /** The update of `u` reaches neither memory nor a pending delta. */
  ghost predicate Unrecorded(s: State, e: Event, u: TraceID) {
    && Touches(e, u)
    && u !in s.summaries
    && ((u in s.unrooted && !(e.Report? && e.change.RootStart?))
        || (u !in s.pending && |s.pending| >= s.limit))
  }

  ghost predicate Refines(s: State, e: Event, s': State) {
    && (forall u: TraceID :: View(s, u).Some? ==>
          View(s', u) == if Unrecorded(s, e, u) then View(s, u) else Some(Direct(e, u, View(s, u).value)))
    && (forall u: TraceID :: !Touches(e, u) ==> View(s', u) == View(s, u))
  }

  /** The pending delta of `t` is made or replaced. */
  lemma PendingKeeps(s: State, t: TraceID, p: Pending)
    requires Coherent(s) && t !in s.summaries && PendingOK(p)
    requires p.read.Loaded? ==> p.read.row == Lookup(s.index, t)
    ensures Coherent(s.(pending := s.pending[t := p]))
    ensures forall u :: u != t ==> View(s.(pending := s.pending[t := p]), u) == View(s, u)
  {
    var s' := s.(pending := s.pending[t := p]);
    forall u: TraceID ensures CoherentAt(s', u) {
      assert CoherentAt(s, u);
    }
  }

  /** Coherence and the views do not depend on the traces marked unrooted or being checked. */
  lemma BookkeepingKeeps(s: State, s': State)
    requires Coherent(s)
    requires s'.summaries == s.summaries && s'.dirty == s.dirty && s'.pending == s.pending
    requires s'.index == s.index && s'.flight == s.flight
    ensures Coherent(s')
    ensures forall u :: View(s', u) == View(s, u)
  {
    forall u: TraceID ensures CoherentAt(s', u) && View(s', u) == View(s, u) {
      assert CoherentAt(s, u);
    }
  }

  lemma InMemoryUpdateKeeps(s: State, t: TraceID, summary: Summary)
    requires Coherent(s) && t in s.summaries && s.summaries[t].revision < summary.revision
    requires Changed(s, t, summary).lost == s.lost
    ensures Coherent(Changed(s, t, summary))
    ensures View(Changed(s, t, summary), t) == Some(summary)
    ensures forall u :: u != t ==> View(Changed(s, t, summary), u) == View(s, u)
  {
    assert CoherentAt(s, t);
    if t in s.index { IndexNotNewer(s, t); }
    ChangedKeeps(s, t, summary);
  }

  lemma DeferredUpdateKeeps(s: State, t: TraceID, c: Change)
    requires Coherent(s) && Enabled(s, Report(t, c)) && t !in s.summaries && Deferred(s, t)
    ensures Update(s, t, c) == s.(pending := s.pending[t := Accumulate(DeltaOf(s, t), c)])
    ensures Coherent(Update(s, t, c))
    ensures View(s, t).Some? ==> View(Update(s, t, c), t) == Some(Apply(c, View(s, t).value))
    ensures forall u :: u != t ==> View(Update(s, t, c), u) == View(s, u)
  {
    assert CoherentAt(s, t);
    var p := DeltaOf(s, t);
    AccumulateOK(p, c);
    if View(s, t).Some? { AccumulateRefines(Lookup(s.index, t), p, c); }
    PendingKeeps(s, t, Accumulate(p, c));
  }

  lemma RefusedFrame(s: State, t: TraceID, root: bool)
    ensures Refused(s, t, root) == s.(verifying := Refused(s, t, root).verifying, lost := Refused(s, t, root).lost)
    ensures t !in s.unrooted && Refused(s, t, root).lost == s.lost ==> t in Refused(s, t, root).verifying
    ensures forall u :: u in s.verifying ==> u in Refused(s, t, root).verifying
  {
  }

  lemma UpdateKeeps(s: State, t: TraceID, c: Change)
    requires Coherent(s) && Enabled(s, Report(t, c)) && Update(s, t, c).lost == s.lost
    ensures Coherent(Update(s, t, c))
    ensures View(s, t).Some? && (t in s.summaries || Deferred(s, t)) ==>
              View(Update(s, t, c), t) == Some(Apply(c, View(s, t).value))
    ensures !(t in s.summaries || Deferred(s, t)) ==> View(Update(s, t, c), t) == View(s, t)
    ensures forall u :: u != t ==> View(Update(s, t, c), u) == View(s, u)
  {
    if t in s.summaries {
      InMemoryUpdateKeeps(s, t, Apply(c, s.summaries[t]));
    } else if Deferred(s, t) {
      DeferredUpdateKeeps(s, t, c);
    } else {
      RefusedFrame(s, t, IsRoot(c));
      BookkeepingKeeps(s, Update(s, t, c));
    }
  }

  lemma ReportKeeps(s: State, t: TraceID, c: Change)
    requires Coherent(s) && Enabled(s, Report(t, c)) && Step(s, Report(t, c)).lost == s.lost
    ensures Coherent(Step(s, Report(t, c)))
    ensures Refines(s, Report(t, c), Step(s, Report(t, c)))
  {
    var s0 := if c.RootStart? then s.(unrooted := Remove(s.unrooted, t)) else s;
    BookkeepingKeeps(s, s0);
    UpdateKeeps(s0, t, c);
  }

  lemma DeferredLogDropKeeps(s: State, t: TraceID)
    requires Coherent(s) && t !in s.summaries && Deferred(s, t)
    ensures Coherent(DropLog(s, t))
    ensures View(s, t).Some? ==> View(DropLog(s, t), t) == Some(ApplyLogDrops(1, View(s, t).value))
    ensures forall u :: u != t ==> View(DropLog(s, t), u) == View(s, u)
  {
    assert CoherentAt(s, t);
    var p := DeltaOf(s, t);
    PendingKeeps(s, t, p.(droppedLogs := p.droppedLogs + 1));
    assert DropLog(s, t) == s.(pending := s.pending[t := p.(droppedLogs := p.droppedLogs + 1)]);
  }

  lemma LogDropKeeps(s: State, t: TraceID)
    requires Coherent(s) && Step(s, LogDropped(t)).lost == s.lost
    ensures Coherent(Step(s, LogDropped(t)))
    ensures Refines(s, LogDropped(t), Step(s, LogDropped(t)))
  {
    if t in s.summaries {
      InMemoryUpdateKeeps(s, t, ApplyLogDrops(1, s.summaries[t]));
    } else if Deferred(s, t) {
      DeferredLogDropKeeps(s, t);
    } else {
      RefusedFrame(s, t, false);
      BookkeepingKeeps(s, DropLog(s, t));
    }
  }

  lemma DeliveryKeeps(s: State, t: TraceID)
    requires Coherent(s) && Enabled(s, ReadDelivered(t)) && Step(s, ReadDelivered(t)).lost == s.lost
    ensures Coherent(Step(s, ReadDelivered(t)))
    ensures forall u :: View(Step(s, ReadDelivered(t)), u) == View(s, u)
  {
    var s' := s.(pending := s.pending - {t});
    assert CoherentAt(s, t);
    forall u: TraceID ensures CoherentAt(s', u) {
      assert CoherentAt(s, u);
    }
    var resolved := Resolve(s.pending[t].read.row, s.pending[t]);
    if resolved.Some? {
      ChangedKeeps(s', t, resolved.value);
    } else {
      BookkeepingKeeps(s', Step(s, ReadDelivered(t)));
    }
  }

  /** Only the index read of a pending trace moves on. */
  lemma ReadMoves(s: State, t: TraceID, read: Read)
    requires Coherent(s) && t in s.pending && (read.Loaded? ==> read.row == Lookup(s.index, t))
    ensures Coherent(s.(pending := s.pending[t := s.pending[t].(read := read)]))
    ensures forall u :: View(s.(pending := s.pending[t := s.pending[t].(read := read)]), u) == View(s, u)
  {
    assert CoherentAt(s, t);
    PendingKeeps(s, t, s.pending[t].(read := read));
  }

  /** A failed read either waits for its retry or is given up and counted as a loss. */
  lemma RejectionKeeps(s: State, t: TraceID)
    requires Coherent(s) && Enabled(s, ReadRejected(t)) && Step(s, ReadRejected(t)).lost == s.lost
    ensures Coherent(Step(s, ReadRejected(t)))
    ensures forall u :: View(Step(s, ReadRejected(t)), u) == View(s, u)
  {
    assert CoherentAt(s, t);
    ReadMoves(s, t, Waiting(s.pending[t].read.attempt));
  }

  lemma CommitKeeps(s: State)
    requires Coherent(s) && Enabled(s, Commit)
    ensures Coherent(Step(s, Commit))
    ensures forall u :: View(Step(s, Commit), u) == View(s, u)
  {
    var s' := Step(s, Commit);
    forall u: TraceID ensures CoherentAt(s', u) && View(s', u) == View(s, u) {
      assert CoherentAt(s, u);
    }
  }

  lemma AcknowledgeKeeps(s: State)
    requires Coherent(s) && Enabled(s, CommitDelivered)
    ensures Coherent(Step(s, CommitDelivered))
    ensures forall u :: View(Step(s, CommitDelivered), u) == View(s, u)
  {
    var s' := Step(s, CommitDelivered);
    forall u: TraceID ensures CoherentAt(s', u) && View(s', u) == View(s, u) {
      assert CoherentAt(s, u);
    }
  }

  lemma CaptureKeeps(s: State)
    requires Coherent(s) && Enabled(s, Capture)
    ensures Coherent(Step(s, Capture))
    ensures forall u :: View(Step(s, Capture), u) == View(s, u)
  {
    var s' := Step(s, Capture);
    forall u: TraceID ensures CoherentAt(s', u) && View(s', u) == View(s, u) {
      assert CoherentAt(s, u);
    }
  }

  lemma CommitRejectionKeeps(s: State)
    requires Coherent(s) && Enabled(s, CommitRejected)
    ensures Coherent(Step(s, CommitRejected))
    ensures forall u :: View(Step(s, CommitRejected), u) == View(s, u)
  {
    var s' := Step(s, CommitRejected);
    forall u: TraceID ensures CoherentAt(s', u) && View(s', u) == View(s, u) {
      assert CoherentAt(s, u);
    }
  }

  /** One step that loses nothing keeps the cache coherent and acts as the direct update. */
  lemma StepKeeps(s: State, e: Event)
    requires Coherent(s) && Enabled(s, e) && Step(s, e).lost == s.lost
    ensures Coherent(Step(s, e))
    ensures Refines(s, e, Step(s, e))
  {
    match e
    case Report(t, c) => ReportKeeps(s, t, c);
    case LogDropped(t) => LogDropKeeps(s, t);
    case ReadAnswered(t) => ReadMoves(s, t, Loaded(Lookup(s.index, t)));
    case ReadDelivered(t) => DeliveryKeeps(s, t);
    case ReadRejected(t) => RejectionKeeps(s, t);
    case ReadRetried(t) => ReadMoves(s, t, Loading(s.pending[t].read.attempt + 1));
    case CheckAnswered(_) => BookkeepingKeeps(s, Step(s, e));
    case CheckDelivered(_) => BookkeepingKeeps(s, Step(s, e));
    case CheckRejected(_) =>
    case Capture => CaptureKeeps(s);
    case Commit => CommitKeeps(s);
    case CommitDelivered => AcknowledgeKeeps(s);
    case CommitRejected => CommitRejectionKeeps(s);
  }

  // ----- Whole runs

  /** Every run that counts no loss stays coherent. */
  lemma {:induction false} RunKeepsCoherence(s: State, events: seq<Event>)
    requires Coherent(s) && Possible(s, events) && Run(s, events).lost == s.lost
    ensures Coherent(Run(s, events))
    decreases |events|
  {
    if events != [] {
      LossesOnlyGrow(s, events[0]);
      RunLossesOnlyGrow(Step(s, events[0]), events[1..]);
      StepKeeps(s, events[0]);
      RunKeepsCoherence(Step(s, events[0]), events[1..]);
    }
  }

  /** The cache invariant in every state a new recorder reaches without counting a loss. */
  lemma ReachableCacheInvariant(limit: nat, retries: nat, index: map<TraceID, Summary>, events: seq<Event>)
    requires var s := Initial(limit, retries, index); Possible(s, events) && Run(s, events).lost == 0
    ensures
      var s := Run(Initial(limit, retries, index), events);
      && s.pending.Keys !! s.summaries.Keys
      && (forall t :: t in s.dirty ==> t in s.summaries)
      && (forall t :: t in s.summaries && t !in s.dirty ==>
                        s.summaries[t].active && t in s.index && s.index[t] == s.summaries[t])
      && (forall t :: t in s.dirty && t in s.index && !Written(s, t) ==>
                        s.index[t].revision < s.summaries[t].revision)
      && (forall t :: InFlight(s, t) ==>
                        t in s.summaries && s.flight.value.captured[t].revision <= s.summaries[t].revision)
      && (forall t :: t in s.summaries && t in s.index && s.index[t].revision == s.summaries[t].revision ==>
                        s.index[t] == s.summaries[t])
  {
    var s0 := Initial(limit, retries, index);
    assert Coherent(s0) by {
      forall t: TraceID ensures CoherentAt(s0, t) { }
    }
    RunKeepsCoherence(s0, events);
    var s := Run(s0, events);
    forall t | t in s.summaries && t !in s.dirty
      ensures s.summaries[t].active && t in s.index && s.index[t] == s.summaries[t]
    {
      assert CoherentAt(s, t);
    }
    forall t | t in s.dirty && t in s.index && !Written(s, t)
      ensures t in s.summaries && s.index[t].revision < s.summaries[t].revision
    {
      assert CoherentAt(s, t);
    }
    forall t | t in s.dirty ensures t in s.summaries { assert CoherentAt(s, t); }
    forall t | t in s.pending ensures t !in s.summaries { assert CoherentAt(s, t); }
    forall t | InFlight(s, t)
      ensures t in s.summaries && s.flight.value.captured[t].revision <= s.summaries[t].revision
    {
      assert CoherentAt(s, t);
    }
    forall t | t in s.summaries && t in s.index && s.index[t].revision == s.summaries[t].revision
      ensures s.index[t] == s.summaries[t]
    {
      IndexNotNewer(s, t);
    }
  }

  /**
   A change or dropped log of a trace that has a summary reaches it exactly when the trace is in memory, or
   is not remembered as unrooted and has, or can still get, a pending delta.
   */
  lemma UpdateLandsExactlyWhenRecorded(s: State, e: Event, t: TraceID)
    requires Coherent(s) && Enabled(s, e) && Touches(e, t) && View(s, t).Some?
    requires Step(s, e).lost == s.lost
    ensures View(Step(s, e), t) == Some(Direct(e, t, View(s, t).value))
            <==> t in s.summaries
                 || ((t !in s.unrooted || (e.Report? && e.change.RootStart?))
                     && (t in s.pending || |s.pending| < s.limit))
  {
    StepKeeps(s, e);
  }

  lemma FirstSummaryOfPending(p: Pending, c: Change)
    requires p == FRESH || PendingOK(p)
    requires !p.hasRootStart && Accumulate(p, c).hasRootStart
    ensures c.RootStart?
    ensures var v := ApplyLogDrops(p.droppedLogs, Accumulate(p, c).summary.value);
            v.active && v.segment == Some(c.span) && v.outcome.None? && v.endTime.None?
  {
  }

  lemma UpdateGivesFirstSummary(s: State, t: TraceID, c: Change)
    requires Coherent(s) && Enabled(s, Report(t, c)) && Update(s, t, c).lost == s.lost
    requires View(s, t).None? && View(Update(s, t, c), t).Some?
    ensures c.RootStart?
    ensures var v := View(Update(s, t, c), t).value;
            v.active && v.segment == Some(c.span) && v.outcome.None? && v.endTime.None?
  {
    assert CoherentAt(s, t);
    if Deferred(s, t) {
      DeferredUpdateKeeps(s, t, c);
      FirstSummaryOfPending(DeltaOf(s, t), c);
    } else {
      RefusedFrame(s, t, IsRoot(c));
    }
  }

  lemma LogDropGivesNoSummary(s: State, t: TraceID)
    requires Coherent(s) && DropLog(s, t).lost == s.lost && View(s, t).None?
    ensures View(DropLog(s, t), t).None?
  {
    if Deferred(s, t) {
      var p := DeltaOf(s, t);
      assert DropLog(s, t) == s.(pending := s.pending[t := p.(droppedLogs := p.droppedLogs + 1)]);
    } else {
      RefusedFrame(s, t, false);
    }
  }

  /** A trace gets its first summary from the start of its root, and shows that root as its open segment. */
  lemma OnlyRootStartGivesFirstSummary(s: State, e: Event, t: TraceID)
    requires Coherent(s) && Enabled(s, e) && Step(s, e).lost == s.lost
    requires View(s, t).None? && View(Step(s, e), t).Some?
    ensures e.Report? && e.trace == t && e.change.RootStart?
    ensures var v := View(Step(s, e), t).value;
            v.active && v.segment == Some(e.change.span) && v.outcome.None? && v.endTime.None?
  {
    StepKeeps(s, e);
    assert Touches(e, t);
    if e.Report? {
      var s0 := if e.change.RootStart? then s.(unrooted := Remove(s.unrooted, t)) else s;
      BookkeepingKeeps(s, s0);
      UpdateGivesFirstSummary(s0, t, e.change);
    } else {
      LogDropGivesNoSummary(s, t);
    }
  }

  /** What a trace shows once its root has started: the start on top of all that was held for it. */
  ghost function Rooted(s: State, t: TraceID, span: SpanID): Summary {
    if View(s, t).Some? then Apply(RootStart(span), View(s, t).value)
    else
      var held := DeltaOf(s, t);
      ApplyLogDrops(held.droppedLogs, Apply(RootStart(span), held.summary.GetOr(EMPTY)))
  }

  lemma DeferredRootStart(s: State, t: TraceID, span: SpanID)
    requires Coherent(s) && t !in s.summaries && Deferred(s, t) && View(s, t).None?
    ensures View(Update(s, t, RootStart(span)), t) == Some(Rooted(s, t, span))
  {
  }

  /** The start of a root always gives its trace a summary, unless it is itself counted as lost. */
  lemma RootStartGivesSummary(s: State, t: TraceID, span: SpanID)
    requires Coherent(s) && Step(s, Report(t, RootStart(span))).lost == s.lost
    ensures View(Step(s, Report(t, RootStart(span))), t) == Some(Rooted(s, t, span))
  {
    var s0 := s.(unrooted := Remove(s.unrooted, t));
    BookkeepingKeeps(s, s0);
    UpdateKeeps(s0, t, RootStart(span));
    if View(s, t).None? && Deferred(s0, t) { DeferredRootStart(s0, t, span); }
  }

  // ----- Whole runs: exactly when they agree with the direct updates

  /** How many changes and dropped logs of a trace a run does not record. */
  ghost function Missed(s: State, events: seq<Event>, t: TraceID): nat
    requires Possible(s, events)
    decreases |events|
  {
    if events == [] then 0
    else (if Unrecorded(s, events[0], t) then 1 else 0) + Missed(Step(s, events[0]), events[1..], t)
  }

  ghost function Touching(events: seq<Event>, t: TraceID): nat {
    if events == [] then 0 else (if Touches(events[0], t) then 1 else 0) + Touching(events[1..], t)
  }

  lemma {:induction false} DirectRevision(events: seq<Event>, t: TraceID, summary: Summary)
    ensures DirectAll(events, t, summary).revision == summary.revision + Touching(events, t)
    decreases |events|
  {
    if events != [] { DirectRevision(events[1..], t, Direct(events[0], t, summary)); }
  }

  lemma {:induction false} RunRevision(s: State, events: seq<Event>, t: TraceID)
    requires Coherent(s) && Possible(s, events) && Run(s, events).lost == s.lost && View(s, t).Some?
    ensures View(Run(s, events), t).Some?
    ensures View(Run(s, events), t).value.revision + Missed(s, events, t)
            == View(s, t).value.revision + Touching(events, t)
    decreases |events|
  {
    if events != [] {
      LossesOnlyGrow(s, events[0]);
      RunLossesOnlyGrow(Step(s, events[0]), events[1..]);
      StepKeeps(s, events[0]);
      RunRevision(Step(s, events[0]), events[1..], t);
    }
  }

  lemma {:induction false} RecordedRunRefines(s: State, events: seq<Event>, t: TraceID)
    requires Coherent(s) && Possible(s, events) && Run(s, events).lost == s.lost && View(s, t).Some?
    requires Missed(s, events, t) == 0
    ensures View(Run(s, events), t) == Some(DirectAll(events, t, View(s, t).value))
    decreases |events|
  {
    if events != [] {
      LossesOnlyGrow(s, events[0]);
      RunLossesOnlyGrow(Step(s, events[0]), events[1..]);
      StepKeeps(s, events[0]);
      RecordedRunRefines(Step(s, events[0]), events[1..], t);
    }
  }

  /**
   Over any run that counts no loss, late checks or not, a trace with a summary ends up with the direct result of
   its events if and only if each of them found the trace in memory, or a pending record or room for one.
   */
  lemma RefinesExactlyIfRecorded(s: State, events: seq<Event>, t: TraceID)
    requires Coherent(s) && Possible(s, events) && Run(s, events).lost == s.lost && View(s, t).Some?
    ensures View(Run(s, events), t) == Some(DirectAll(events, t, View(s, t).value)) <==> Missed(s, events, t) == 0
  {
    if Missed(s, events, t) == 0 {
      RecordedRunRefines(s, events, t);
    } else {
      RunRevision(s, events, t);
      DirectRevision(events, t, View(s, t).value);
    }
  }

  // ----- Whole runs in which every late check is in time

  /** An index check that found nothing is delivered while its trace still has no summary. */
  ghost predicate InTime(s: State, e: Event)
    requires Enabled(s, e)
  {
    e.CheckDelivered? && !s.verifying[e.trace].found ==> View(s, e.trace).None?
  }

  ghost predicate AllInTime(s: State, events: seq<Event>)
    requires Possible(s, events)
    decreases |events|
  {
    events == [] || (InTime(s, events[0]) && AllInTime(Step(s, events[0]), events[1..]))
  }

  ghost predicate UnrootedHaveNoView(s: State) {
    forall t: TraceID :: t in s.unrooted ==> View(s, t).None?
  }

  lemma UpdateFrame(s: State, t: TraceID, c: Change)
    requires Update(s, t, c).lost == s.lost
    ensures Update(s, t, c).unrooted == s.unrooted
    ensures forall u :: u in s.verifying ==> u in Update(s, t, c).verifying
  {
    if t in s.summaries { ChangedLosses(s, t, Apply(c, s.summaries[t])); }
  }

  lemma LogDropFrame(s: State, t: TraceID)
    requires DropLog(s, t).lost == s.lost
    ensures DropLog(s, t).unrooted == s.unrooted
    ensures forall u :: u in s.verifying ==> u in DropLog(s, t).verifying
  {
    if t in s.summaries { ChangedLosses(s, t, ApplyLogDrops(1, s.summaries[t])); }
  }

  lemma DeliveryUnrooted(s: State, u: TraceID, row: Option<Summary>, t: TraceID)
    requires u in s.pending && Hydrated(s, u, row).lost == s.lost
    ensures t in Hydrated(s, u, row).unrooted ==>
              t in s.unrooted || (t == u && Resolve(row, s.pending[u]).None?)
  {
    var resolved := Resolve(row, s.pending[u]);
    if resolved.Some? { ChangedLosses(s.(pending := s.pending - {u}), u, resolved.value); }
  }

  /** A trace becomes unrooted only while it has no summary; a root start takes the mark away. */
  lemma UnrootedStep(s: State, e: Event, t: TraceID)
    requires Coherent(s) && Enabled(s, e) && InTime(s, e) && Step(s, e).lost == s.lost
    requires t in Step(s, e).unrooted
    ensures t in s.unrooted || View(s, t).None?
    ensures !(e.Report? && e.trace == t && e.change.RootStart?)
  {
    match e
    case Report(u, c) => UpdateFrame(if c.RootStart? then s.(unrooted := Remove(s.unrooted, u)) else s, u, c);
    case LogDropped(u) => LogDropFrame(s, u);
    case ReadDelivered(u) =>
      assert CoherentAt(s, u);
      DeliveryUnrooted(s, u, s.pending[u].read.row, t);
    case _ =>
  }

  lemma UpdateChecks(s: State, t: TraceID, c: Change)
    requires Update(s, t, c).lost == s.lost
    requires t !in s.summaries && t !in s.unrooted && !Deferred(s, t)
    ensures t in Update(s, t, c).verifying
  {
    RefusedFrame(s, t, IsRoot(c));
  }

  lemma LogDropChecks(s: State, t: TraceID)
    requires DropLog(s, t).lost == s.lost
    requires t !in s.summaries && t !in s.unrooted && !Deferred(s, t)
    ensures t in DropLog(s, t).verifying
  {
    RefusedFrame(s, t, false);
  }

  lemma DeliveryChecks(s: State, t: TraceID, row: Option<Summary>)
    requires t in s.pending && Hydrated(s, t, row).lost == s.lost
    ensures Hydrated(s, t, row).verifying == s.verifying
  {
    var resolved := Resolve(row, s.pending[t]);
    if resolved.Some? { ChangedLosses(s.(pending := s.pending - {t}), t, resolved.value); }
  }

  lemma CheckingStep(s: State, e: Event, t: TraceID)
    requires Coherent(s) && Enabled(s, e) && InTime(s, e) && Step(s, e).lost == s.lost
    requires View(s, t).Some? && t !in s.unrooted
    ensures t in s.verifying || Unrecorded(s, e, t) ==> t in Step(s, e).verifying
  {
    match e
    case Report(u, c) =>
      var s0 := if c.RootStart? then s.(unrooted := Remove(s.unrooted, u)) else s;
      UpdateFrame(s0, u, c);
      if Unrecorded(s, e, t) { UpdateChecks(s0, t, c); }
    case LogDropped(u) =>
      LogDropFrame(s, u);
      if Unrecorded(s, e, t) { LogDropChecks(s, t); }
    case ReadDelivered(u) =>
      DeliveryChecks(s, u, s.pending[u].read.row);
    case _ =>
  }

  lemma StepKeepsUnrooted(s: State, e: Event)
    requires Coherent(s) && UnrootedHaveNoView(s) && Enabled(s, e) && InTime(s, e)
    requires Step(s, e).lost == s.lost
    ensures UnrootedHaveNoView(Step(s, e))
  {
    var s' := Step(s, e);
    StepKeeps(s, e);
    forall t: TraceID | t in s'.unrooted ensures View(s', t).None? {
      UnrootedStep(s, e, t);
      if View(s, t).None? && View(s', t).Some? { OnlyRootStartGivesFirstSummary(s, e, t); }
    }
  }

  /** A summary once there stays, and an update that is not recorded leaves the trace under check. */
  lemma RefusedTraceStaysUnderCheck(s: State, e: Event, t: TraceID)
    requires Coherent(s) && UnrootedHaveNoView(s) && Enabled(s, e) && InTime(s, e)
    requires Step(s, e).lost == s.lost && View(s, t).Some?
    ensures View(Step(s, e), t).Some?
    ensures t in s.verifying || Unrecorded(s, e, t) ==> t in Step(s, e).verifying
  {
    StepKeeps(s, e);
    CheckingStep(s, e, t);
  }

  lemma {:induction false} UnderCheckToTheEnd(s: State, events: seq<Event>, t: TraceID)
    requires Coherent(s) && UnrootedHaveNoView(s)
    requires Possible(s, events) && AllInTime(s, events) && Run(s, events).lost == s.lost
    requires View(s, t).Some? && t in s.verifying
    ensures t in Run(s, events).verifying
    decreases |events|
  {
    if events != [] {
      LossesOnlyGrow(s, events[0]);
      RunLossesOnlyGrow(Step(s, events[0]), events[1..]);
      StepKeeps(s, events[0]);
      StepKeepsUnrooted(s, events[0]);
      RefusedTraceStaysUnderCheck(s, events[0], t);
      UnderCheckToTheEnd(Step(s, events[0]), events[1..], t);
    }
  }

  /**
   The cache refines the plain map. Take any run, with reads, checks and commits interleaved in any way. If
   its empty-handed checks are delivered in time, no loss was counted and no check is still out, then every
   trace that had a summary has exactly what applying its events directly gives, limits hit or not.
   */
  lemma {:induction false} LosslessRunRefinesDirectUpdates(s: State, events: seq<Event>, t: TraceID)
    requires Coherent(s) && UnrootedHaveNoView(s)
    requires Possible(s, events) && AllInTime(s, events)
    requires Run(s, events).lost == s.lost && Run(s, events).verifying == map[]
    requires View(s, t).Some?
    ensures View(Run(s, events), t) == Some(DirectAll(events, t, View(s, t).value))
    decreases |events|
  {
    if events != [] {
      var s' := Step(s, events[0]);
      LossesOnlyGrow(s, events[0]);
      RunLossesOnlyGrow(s', events[1..]);
      StepKeeps(s, events[0]);
      StepKeepsUnrooted(s, events[0]);
      RefusedTraceStaysUnderCheck(s, events[0], t);
      if Unrecorded(s, events[0], t) {
        UnderCheckToTheEnd(s', events[1..], t);
      }
      LosslessRunRefinesDirectUpdates(s', events[1..], t);
    }
  }

  lemma {:induction false} RunKeepsUnrooted(s: State, events: seq<Event>)
    requires Coherent(s) && UnrootedHaveNoView(s)
    requires Possible(s, events) && AllInTime(s, events) && Run(s, events).lost == s.lost
    ensures UnrootedHaveNoView(Run(s, events))
    decreases |events|
  {
    if events != [] {
      LossesOnlyGrow(s, events[0]);
      RunLossesOnlyGrow(Step(s, events[0]), events[1..]);
      StepKeeps(s, events[0]);
      StepKeepsUnrooted(s, events[0]);
      RunKeepsUnrooted(Step(s, events[0]), events[1..]);
    }
  }

  lemma {:induction false} RunConcat(s: State, a: seq<Event>, b: seq<Event>)
    requires Possible(s, a + b)
    ensures Possible(s, a) && Possible(Run(s, a), b) && Run(s, a + b) == Run(Run(s, a), b)
    ensures AllInTime(s, a + b) <==> AllInTime(s, a) && AllInTime(Run(s, a), b)
    decreases |a|
  {
    if a == [] {
      assert a + b == b;
    } else {
      assert (a + b)[1..] == a[1..] + b;
      RunConcat(Step(s, a[0]), a[1..], b);
    }
  }

  lemma InitialCoherent(limit: nat, retries: nat, index: map<TraceID, Summary>)
    ensures Coherent(Initial(limit, retries, index)) && UnrootedHaveNoView(Initial(limit, retries, index))
  {
    var s := Initial(limit, retries, index);
    forall t: TraceID ensures CoherentAt(s, t) { }
  }

  /** The runs of a new recorder that the refinement speaks of: nothing late, nothing lost, nothing under check. */
  ghost predicate Faithful(s: State, events: seq<Event>) {
    Possible(s, events) && AllInTime(s, events) && Run(s, events).lost == s.lost && Run(s, events).verifying == map[]
  }

  /** The refinement from the construction of the recorder, for every trace the index already holds. */
  lemma IndexedTraceRefinesDirectUpdates(
    limit: nat, retries: nat, index: map<TraceID, Summary>, events: seq<Event>, t: TraceID)
    requires t in index && Faithful(Initial(limit, retries, index), events)
    ensures View(Run(Initial(limit, retries, index), events), t) == Some(DirectAll(events, t, index[t]))
  {
    InitialCoherent(limit, retries, index);
    LosslessRunRefinesDirectUpdates(Initial(limit, retries, index), events, t);
  }

  /** A run from a coherent state, cut where the root of a trace starts. */
  lemma RootedTraceRefinesDirectUpdates(s: State, before: seq<Event>, t: TraceID, span: SpanID, after: seq<Event>)
    requires Coherent(s) && UnrootedHaveNoView(s)
    requires Faithful(s, before + ([Report(t, RootStart(span))] + after))
    ensures Possible(s, before)
    ensures View(Run(s, before + ([Report(t, RootStart(span))] + after)), t)
            == Some(DirectAll(after, t, Rooted(Run(s, before), t, span)))
  {
    var start := Report(t, RootStart(span));
    RunConcat(s, before, [start] + after);
    var s1 := Run(s, before);
    assert ([start] + after)[1..] == after;
    var s2 := Step(s1, start);
    RunLossesOnlyGrow(s, before);
    LossesOnlyGrow(s1, start);
    RunLossesOnlyGrow(s2, after);
    RunKeepsCoherence(s, before);
    RunKeepsUnrooted(s, before);
    StepKeeps(s1, start);
    StepKeepsUnrooted(s1, start);
    RootStartGivesSummary(s1, t, span);
    LosslessRunRefinesDirectUpdates(s2, after, t);
  }

  /**
   The refinement from the construction of the recorder, for every trace whose root starts at any point of
   the run: from there on it shows what its events applied directly give.
   */
  lemma LosslessRecorderRefinesDirectUpdates(
    limit: nat, retries: nat, index: map<TraceID, Summary>, events: seq<Event>, i: nat, t: TraceID, span: SpanID)
    requires Faithful(Initial(limit, retries, index), events)
    requires i < |events| && events[i] == Report(t, RootStart(span))
    ensures Possible(Initial(limit, retries, index), events[..i])
    ensures var s := Initial(limit, retries, index);
            View(Run(s, events), t) == Some(DirectAll(events[i + 1..], t, Rooted(Run(s, events[..i]), t, span)))
  {
    InitialCoherent(limit, retries, index);
    assert events == events[..i] + ([events[i]] + events[i + 1..]);
    RootedTraceRefinesDirectUpdates(Initial(limit, retries, index), events[..i], t, span, events[i + 1..]);
  }

  /** The cache has never heard of the trace. */
  ghost predicate Unknown(s: State, t: TraceID) {
    && t !in s.summaries && t !in s.pending && t !in s.index && t !in s.dirty
    && (s.flight.Some? ==> t !in s.flight.value.captured)
  }

  lemma {:induction false} EvictKeepsUnknown(s: State, t: TraceID)
    requires Unknown(s, t)
    ensures Unknown(Evict(s), t)
    decreases |s.dirty|
  {
    if |s.dirty| > s.limit && FirstInactive(s.dirty, s.summaries).Some? {
      var oldest := FirstInactive(s.dirty, s.summaries).value;
      EvictKeepsUnknown(Evicted(s, oldest), t);
    }
  }

  lemma ChangedKeepsUnknown(s: State, u: TraceID, summary: Summary, t: TraceID)
    requires Unknown(s, t) && u != t
    ensures Unknown(Changed(s, u, summary), t)
  {
    EvictKeepsUnknown(s.(summaries := s.summaries[u := summary], dirty := Add(s.dirty, u)), t);
  }

  lemma ReportKeepsUnknown(s: State, u: TraceID, c: Change, t: TraceID)
    requires Unknown(s, t) && u != t
    ensures Unknown(Update(s, u, c), t)
  {
    if u in s.summaries {
      ChangedKeepsUnknown(s, u, Apply(c, s.summaries[u]), t);
    } else if !Deferred(s, u) {
      RefusedFrame(s, u, IsRoot(c));
    }
  }

  lemma LogDropKeepsUnknown(s: State, u: TraceID, t: TraceID)
    requires Unknown(s, t) && u != t
    ensures Unknown(DropLog(s, u), t)
  {
    if u in s.summaries {
      ChangedKeepsUnknown(s, u, ApplyLogDrops(1, s.summaries[u]), t);
    } else if !Deferred(s, u) {
      RefusedFrame(s, u, false);
    }
  }

  lemma DeliveryKeepsUnknown(s: State, u: TraceID, row: Option<Summary>, t: TraceID)
    requires Unknown(s, t) && u in s.pending
    ensures Unknown(Hydrated(s, u, row), t)
  {
    var resolved := Resolve(row, s.pending[u]);
    if resolved.Some? { ChangedKeepsUnknown(s.(pending := s.pending - {u}), u, resolved.value, t); }
  }

  lemma StepKeepsUnknown(s: State, e: Event, t: TraceID)
    requires Unknown(s, t) && Enabled(s, e) && !Touches(e, t)
    ensures Unknown(Step(s, e), t)
  {
    match e
    case Report(u, c) =>
      ReportKeepsUnknown(if c.RootStart? then s.(unrooted := Remove(s.unrooted, u)) else s, u, c, t);
    case LogDropped(u) => LogDropKeepsUnknown(s, u, t);
    case ReadDelivered(u) => DeliveryKeepsUnknown(s, u, s.pending[u].read.row, t);
    case _ =>
  }

  lemma {:induction false} RunKeepsUnknown(s: State, events: seq<Event>, t: TraceID)
    requires Unknown(s, t) && Possible(s, events) && forall e :: e in events ==> !Touches(e, t)
    ensures Unknown(Run(s, events), t)
    decreases |events|
  {
    if events != [] {
      StepKeepsUnknown(s, events[0], t);
      RunKeepsUnknown(Step(s, events[0]), events[1..], t);
    }
  }

  lemma {:induction false} DirectOfOthers(events: seq<Event>, more: seq<Event>, t: TraceID, summary: Summary)
    requires forall e :: e in events ==> !Touches(e, t)
    ensures DirectAll(events + more, t, summary) == DirectAll(more, t, summary)
    decreases |events|
  {
    if events == [] {
      assert events + more == more;
    } else {
      assert (events + more)[1..] == events[1..] + more;
      assert !Touches(events[0], t) && Direct(events[0], t, summary) == summary;
      DirectOfOthers(events[1..], more, t, summary);
    }
  }

  lemma RootedUnknown(s: State, t: TraceID, span: SpanID)
    requires Unknown(s, t)
    ensures Rooted(s, t, span) == ApplyLogDrops(0, Apply(RootStart(span), EMPTY))
  {
    assert View(s, t).None? && DeltaOf(s, t) == FRESH;
  }

  lemma DirectFromRoot(before: seq<Event>, t: TraceID, span: SpanID, after: seq<Event>)
    requires forall e :: e in before ==> !Touches(e, t)
    ensures DirectAll(before + ([Report(t, RootStart(span))] + after), t, EMPTY)
            == DirectAll(after, t, ApplyLogDrops(0, Apply(RootStart(span), EMPTY)))
  {
    DirectOfOthers(before, [Report(t, RootStart(span))] + after, t, EMPTY);
    assert ([Report(t, RootStart(span))] + after)[1..] == after;
  }

  lemma NewTraceFromRoot(s: State, before: seq<Event>, t: TraceID, span: SpanID, after: seq<Event>)
    requires Coherent(s) && UnrootedHaveNoView(s) && Unknown(s, t)
    requires Faithful(s, before + ([Report(t, RootStart(span))] + after))
    requires forall e :: e in before ==> !Touches(e, t)
    ensures var events := before + ([Report(t, RootStart(span))] + after);
            View(Run(s, events), t) == Some(DirectAll(events, t, EMPTY))
  {
    RootedTraceRefinesDirectUpdates(s, before, t, span, after);
    RunKeepsUnknown(s, before, t);
    RootedUnknown(Run(s, before), t, span);
    DirectFromRoot(before, t, span, after);
  }

  /** A trace that starts with its root shows what all of its events give, applied directly to nothing. */
  lemma NewTraceRefinesDirectUpdates(
    limit: nat, retries: nat, index: map<TraceID, Summary>, events: seq<Event>, i: nat, t: TraceID, span: SpanID)
    requires Faithful(Initial(limit, retries, index), events) && t !in index
    requires i < |events| && events[i] == Report(t, RootStart(span))
    requires forall e :: e in events[..i] ==> !Touches(e, t)
    ensures View(Run(Initial(limit, retries, index), events), t) == Some(DirectAll(events, t, EMPTY))
  {
    InitialCoherent(limit, retries, index);
    assert events[..i] + ([Report(t, RootStart(span))] + events[i + 1..]) == events;
    NewTraceFromRoot(Initial(limit, retries, index), events[..i], t, span, events[i + 1..]);
  }

  /** Once everything is written back, the index alone holds the direct result. */
  lemma WrittenBackIndexIsExact(s: State, events: seq<Event>, t: TraceID)
    requires Coherent(s) && UnrootedHaveNoView(s)
    requires Possible(s, events) && AllInTime(s, events)
    requires Run(s, events).lost == s.lost && Run(s, events).verifying == map[]
    requires Run(s, events).dirty == [] && Run(s, events).pending == map[]
    requires View(s, t).Some?
    ensures Lookup(Run(s, events).index, t) == Some(DirectAll(events, t, View(s, t).value))
  {
    LosslessRunRefinesDirectUpdates(s, events, t);
    RunKeepsCoherence(s, events);
    assert CoherentAt(Run(s, events), t);
  }

  // ----- The run the condition shuts out

  lemma RunFirst(s: State, e: Event, rest: seq<Event>)
    requires Enabled(s, e) && Possible(Step(s, e), rest)
    ensures Possible(s, [e] + rest) && Run(s, [e] + rest) == Run(Step(s, e), rest)
    ensures AllInTime(s, [e] + rest) <==> InTime(s, e) && AllInTime(Step(s, e), rest)
  {
    assert ([e] + rest)[1..] == rest;
  }

  /** Trace 2 loses a delta at the limit and is checked; then a slot frees and its root starts. */
  ghost function CheckedThenRooted(): State {
    State(1, 0, map[], map[1 := Summary(0, 0, 0, 1, true, None, Some(10), None)], [1],
          map[2 := Pending(Some(Summary(0, 0, 0, 1, true, None, Some(20), None)), 0, true, true, Loading(0))],
          [], map[2 := Checked(false)], None, 0)
  }

  /** Before that: trace 1 fills the only slot and the check of trace 2 has found no row. */
  ghost function CheckedAtTheLimit(): State {
    State(1, 0, map[], map[], [],
          map[1 := Pending(Some(Summary(0, 0, 0, 1, true, None, Some(10), None)), 0, true, true, Loading(0))],
          [], map[2 := Checked(false)], None, 0)
  }

  ghost const FILL := Report(1, RootStart(10))
  ghost const REFUSED := Report(2, SpanEnd(false, false, 5))
  ghost const ROOTED := Report(2, RootStart(20))

  lemma ReachesCheckedAtTheLimit(rest: seq<Event>)
    requires Possible(CheckedAtTheLimit(), rest) && AllInTime(CheckedAtTheLimit(), rest)
    ensures
      var s := Initial(1, 0, map[]);
      var events := [FILL] + ([REFUSED] + ([CheckAnswered(2)] + rest));
      Possible(s, events) && AllInTime(s, events) && Run(s, events) == Run(CheckedAtTheLimit(), rest)
  {
    var s0 := Initial(1, 0, map[]);
    var s1 := s0.(pending := CheckedAtTheLimit().pending);
    assert Step(s0, FILL) == s1;
    var s2 := s1.(verifying := map[2 := Checking]);
    assert Step(s1, REFUSED) == s2;
    assert Step(s2, CheckAnswered(2)) == CheckedAtTheLimit();
    RunFirst(s2, CheckAnswered(2), rest);
    RunFirst(s1, REFUSED, [CheckAnswered(2)] + rest);
    RunFirst(s0, FILL, [REFUSED] + ([CheckAnswered(2)] + rest));
  }

  /** Trace 1 is in memory, and trace 2 starts its root while its check is still to be delivered. */
  lemma RootStartsBeforeDelivery(s: State)
    requires s == CheckedAtTheLimit().(pending := map[], summaries := CheckedThenRooted().summaries, dirty := [1])
    ensures Step(s, ROOTED) == CheckedThenRooted()
  {
    assert s.pending[2 := CheckedThenRooted().pending[2]] == CheckedThenRooted().pending;
  }

  lemma ReachesCheckedThenRooted()
    ensures
      var s := CheckedAtTheLimit();
      var events := [ReadAnswered(1)] + ([ReadDelivered(1)] + [ROOTED]);
      Possible(s, events) && AllInTime(s, events) && Run(s, events) == CheckedThenRooted()
  {
    var s3 := CheckedAtTheLimit();
    var p1 := s3.pending[1];
    var s4 := s3.(pending := map[1 := p1.(read := Loaded(None))]);
    assert Step(s3, ReadAnswered(1)) == s4;
    var s5 := s4.(pending := map[], summaries := map[1 := p1.summary.value], dirty := [1]);
    assert Step(s4, ReadDelivered(1)) == s5 by {
      assert s4.pending - {1} == map[];
      assert s4.summaries[1 := p1.summary.value] == map[1 := p1.summary.value];
    }
    RootStartsBeforeDelivery(s5);
    RunFirst(s5, ROOTED, []);
    RunFirst(s4, ReadDelivered(1), [ROOTED]);
    RunFirst(s3, ReadAnswered(1), [ReadDelivered(1)] + [ROOTED]);
  }

  lemma CheckedThenRootedIsReachable()
    ensures exists events :: Possible(Initial(1, 0, map[]), events) && AllInTime(Initial(1, 0, map[]), events)
                             && Run(Initial(1, 0, map[]), events) == CheckedThenRooted()
  {
    ReachesCheckedThenRooted();
    ReachesCheckedAtTheLimit([ReadAnswered(1)] + ([ReadDelivered(1)] + [ROOTED]));
  }

  /**
   The late check loses an update for good: nothing is counted and nothing is outstanding, yet the end of a
   span of trace 2 is missing from its summary.
   */
  lemma LateCheckForgetsRootedTrace()
    ensures
      var s := CheckedThenRooted();
      var events := [CheckDelivered(2)] + [Report(2, SpanEnd(false, false, 6))];
      && Possible(s, events) && !AllInTime(s, events)
      && View(s, 2).Some?
      && Run(s, events).lost == 0 && Run(s, events).verifying == map[]
      && View(Run(s, events), 2) == View(s, 2)
      && View(Run(s, events), 2) != Some(DirectAll(events, 2, View(s, 2).value))
  {
    var s := CheckedThenRooted();
    var e1, e2 := CheckDelivered(2), Report(2, SpanEnd(false, false, 6));
    var s1 := s.(verifying := map[], unrooted := [2]);
    assert Step(s, e1) == s1 by {
      assert s.verifying - {2} == map[];
    }
    assert Step(s1, e2) == s1;
    RunFirst(s1, e2, []);
    RunFirst(s, e1, [e2]);
    assert ([e1] + [e2])[1..] == [e2];
    assert DirectAll([e2], 2, View(s, 2).value) == Apply(e2.change, View(s, 2).value);
  }
}
