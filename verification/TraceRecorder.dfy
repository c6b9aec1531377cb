/**
 The local trace recorder: one object whose methods are the synchronous stretches of the program.

 The index and the stored entries are durable; the other fields are the recorder's own. The ghost logs say
 which run of `SummaryCache` and of `TraceQueue` the object has gone through, so that every result about
 runs holds of every recorder.
 */
module TraceRecorder {
  import opened Options
  import H = Histories
  import C = SummaryCache
  import Q = TraceQueue
  import R = CacheRefinement

  class LocalTraceRecorder {
    const queueLimit: nat
    const flushBatchSize: nat
    const retries: nat
    const dirtySummaryLimit: nat
    ghost const initialIndex: map<C.TraceID, C.Summary>

    // Durable state
    var index: map<C.TraceID, C.Summary>
    var stored: seq<nat>

    // The recorder's fields
    var queue: seq<Q.Entry>
    var pushed: nat
    var summaries: map<C.TraceID, C.Summary>
    var dirty: seq<C.TraceID>
    var pending: map<C.TraceID, C.Pending>
    var unrooted: seq<C.TraceID>
    var verifying: map<C.TraceID, C.Check>
    var droppedCount: nat
    var lostSummaryCount: nat

    // The local variables of the drain under way, if any
    var flight: Option<C.Flight>
    var batch: Option<Q.Batch>

    // History
    ghost var dropped: seq<nat>
    ghost var raced: set<nat>
    ghost var cacheLog: seq<C.Event>
    ghost var queueLog: seq<Q.Event>

    ghost function Cache(): C.State
      reads this
    {
      C.State(dirtySummaryLimit, retries, index, summaries, dirty, pending, unrooted, verifying, flight,
              lostSummaryCount)
    }

    ghost function Queue(): Q.Queue
      reads this
    {
      Q.Queue(queueLimit, queue, pushed, stored, dropped, raced, batch)
    }

    ghost predicate CacheValid()
      reads this
    {
      H.History(C.Advance, C.Initial(dirtySummaryLimit, retries, initialIndex), cacheLog, Cache())
    }

    ghost predicate QueueValid()
      reads this
    {
      H.History(Q.Advance, Q.Empty(queueLimit), queueLog, Queue())
    }

    ghost predicate Valid()
      reads this
    {
      CacheValid() && QueueValid() && DrainOK()
    }

    /** The total of `info()` is kept up to date, and cache and queue speak of the same drain. */
    ghost predicate DrainOK()
      reads this
    {
      && droppedCount == |dropped|
      && flight.Some? == batch.Some?
      && (flight.Some? ==> flight.value.written == batch.value.written)
    }

    constructor (queueLimit: nat, flushBatchSize: nat, retries: nat, dirtySummaryLimit: nat,
                 index: map<C.TraceID, C.Summary>)
      ensures Valid() && cacheLog == [] && queueLog == []
      ensures Cache() == C.Initial(dirtySummaryLimit, retries, index) && Queue() == Q.Empty(queueLimit)
    {
      this.queueLimit, this.flushBatchSize := queueLimit, flushBatchSize;
      this.retries, this.dirtySummaryLimit := retries, dirtySummaryLimit;
      this.initialIndex, this.index := index, index;
      stored, queue, pushed := [], [], 0;
      summaries, dirty, pending, unrooted, verifying := map[], [], map[], [], map[];
      droppedCount, lostSummaryCount := 0, 0;
      flight, batch := None, None;
      dropped, raced, cacheLog, queueLog := [], {}, [], [];
      H.NoHistory(C.Advance, C.Initial(dirtySummaryLimit, retries, index));
      H.NoHistory(Q.Advance, Q.Empty(queueLimit));
    }

    // ----- Summaries

    method EvictOldest(oldest: C.TraceID)
      modifies `summaries, `dirty, `lostSummaryCount
      ensures Cache() == C.Evicted(old(Cache()), oldest)
    {
      dirty := C.Remove(dirty, oldest);
      summaries := summaries - {oldest};
      lostSummaryCount := lostSummaryCount + 1;
    }

    method Evict()
      modifies `summaries, `dirty, `lostSummaryCount
      ensures Cache() == C.Evict(old(Cache()))
    {
      ghost var evicted := C.Evict(Cache());
      while |dirty| > dirtySummaryLimit
        invariant C.Evict(Cache()) == evicted
        decreases |dirty|
      {
        var oldest := C.FirstInactive(dirty, summaries);
        if oldest.None? {
          break;
        }
        EvictOldest(oldest.value);
      }
    }

    method Changed(t: C.TraceID, summary: C.Summary)
      modifies `summaries, `dirty, `lostSummaryCount
      ensures Cache() == C.Changed(old(Cache()), t, summary)
    {
      summaries := summaries[t := summary];
      dirty := C.Add(dirty, t);
      Evict();
    }

    method MarkUnrooted(t: C.TraceID)
      modifies `unrooted
      ensures unrooted == C.MarkUnrooted(old(unrooted), t)
    {
      unrooted := C.Add(unrooted, t);
      if |unrooted| > C.UNROOTED_LIMIT {
        unrooted := unrooted[1..];
      }
    }

    method VerifyLoss(t: C.TraceID)
      modifies `verifying, `lostSummaryCount
      ensures Cache() == C.VerifyLoss(old(Cache()), t)
    {
      if t in unrooted || t in verifying {
        return;
      }
      if |verifying| >= dirtySummaryLimit {
        lostSummaryCount := lostSummaryCount + 1;
        return;
      }
      verifying := verifying[t := C.Checking];
    }

    /** Makes sure there is a pending record, unless the trace is unrooted or the limit is reached. */
    method GetPending(t: C.TraceID, root: bool) returns (found: bool)
      modifies `pending, `verifying, `lostSummaryCount
      ensures found == C.Deferred(old(Cache()), t)
      ensures found ==> Cache() == old(Cache()).(pending := old(pending)[t := C.DeltaOf(old(Cache()), t)])
      ensures !found ==> Cache() == C.Refused(old(Cache()), t, root)
    {
      if t in unrooted {
        return false;
      }
      if t !in pending {
        if |pending| >= dirtySummaryLimit {
          if !root {
            VerifyLoss(t);
            return false;
          }
          lostSummaryCount := lostSummaryCount + 1;
          return false;
        }
        pending := pending[t := C.FRESH];
      }
      return true;
    }

    method Update(t: C.TraceID, c: C.Change)
      modifies `summaries, `dirty, `pending, `verifying, `lostSummaryCount
      ensures Cache() == C.Update(old(Cache()), t, c)
    {
      if t in summaries {
        Changed(t, C.Apply(c, summaries[t]));
        return;
      }
      var found := GetPending(t, C.IsRoot(c));
      if found {
        pending := pending[t := C.Accumulate(pending[t], c)];
      }
    }

    method Report(t: C.TraceID, c: C.Change)
      requires C.Enabled(Cache(), C.Report(t, c))
      modifies `summaries, `dirty, `pending, `unrooted, `verifying, `lostSummaryCount
      ensures Cache() == C.Step(old(Cache()), C.Report(t, c))
    {
      if c.RootStart? {
        unrooted := C.Remove(unrooted, t);
      }
      Update(t, c);
    }

    method DropLog(t: C.TraceID)
      modifies `summaries, `dirty, `pending, `verifying, `lostSummaryCount
      ensures Cache() == C.Step(old(Cache()), C.LogDropped(t))
    {
      if t in summaries {
        Changed(t, C.ApplyLogDrops(1, summaries[t]));
        return;
      }
      var found := GetPending(t, false);
      if found {
        var p := pending[t];
        pending := pending[t := p.(droppedLogs := p.droppedLogs + 1)];
      }
    }

    // ----- Index reads and checks

    /** The index answers the read of a pending trace; the answer is not delivered yet. */
    method ReadAnswered(t: C.TraceID)
      requires C.Enabled(Cache(), C.ReadAnswered(t))
      modifies `pending
      ensures Cache() == C.Step(old(Cache()), C.ReadAnswered(t))
    {
      pending := pending[t := pending[t].(read := C.Loaded(Lookup(index, t)))];
    }

    /** The answer is delivered: the delta joins the row, or the trace turns out to have no root. */
    method ReadDelivered(t: C.TraceID)
      requires C.Enabled(Cache(), C.ReadDelivered(t))
      modifies `pending, `summaries, `dirty, `unrooted, `lostSummaryCount
      ensures Cache() == C.Step(old(Cache()), C.ReadDelivered(t))
    {
      var resolved := C.Resolve(pending[t].read.row, pending[t]);
      pending := pending - {t};
      match resolved {
        case None => MarkUnrooted(t);
        case Some(summary) => Changed(t, summary);
      }
    }

    method ReadRejected(t: C.TraceID)
      requires C.Enabled(Cache(), C.ReadRejected(t))
      modifies `pending, `lostSummaryCount
      ensures Cache() == C.Step(old(Cache()), C.ReadRejected(t))
    {
      var p := pending[t];
      if p.read.attempt < retries {
        pending := pending[t := p.(read := C.Waiting(p.read.attempt))];
      } else {
        pending := pending - {t};
        if p.hasRootStart || C.HeldDeltas(p) {
          lostSummaryCount := lostSummaryCount + 1;
        }
      }
    }

    method ReadRetried(t: C.TraceID)
      requires C.Enabled(Cache(), C.ReadRetried(t))
      modifies `pending
      ensures Cache() == C.Step(old(Cache()), C.ReadRetried(t))
    {
      pending := pending[t := pending[t].(read := C.Loading(pending[t].read.attempt + 1))];
    }

    method CheckAnswered(t: C.TraceID)
      requires C.Enabled(Cache(), C.CheckAnswered(t))
      modifies `verifying
      ensures Cache() == C.Step(old(Cache()), C.CheckAnswered(t))
    {
      verifying := verifying[t := C.Checked(t in index)];
    }

    method CheckDelivered(t: C.TraceID)
      requires C.Enabled(Cache(), C.CheckDelivered(t))
      modifies `verifying, `unrooted, `lostSummaryCount
      ensures Cache() == C.Step(old(Cache()), C.CheckDelivered(t))
    {
      if verifying[t].found {
        lostSummaryCount := lostSummaryCount + 1;
      } else {
        MarkUnrooted(t);
      }
      verifying := verifying - {t};
    }

    method CheckRejected(t: C.TraceID)
      requires C.Enabled(Cache(), C.CheckRejected(t))
      modifies `verifying, `lostSummaryCount
      ensures Cache() == C.Step(old(Cache()), C.CheckRejected(t))
    {
      lostSummaryCount := lostSummaryCount + 1;
      verifying := verifying - {t};
    }

    // ----- Batches

    method Capture(entries: seq<Q.Entry>, captured: map<C.TraceID, C.Summary>)
      requires flight.None? && batch.None? && captured == C.Captured(Cache())
      requires entries == if flushBatchSize <= |queue| then queue[..flushBatchSize] else queue
      modifies `flight, `batch
      ensures Cache() == C.Step(old(Cache()), C.Capture) && Queue() == Q.Step(old(Queue()), Q.Take(flushBatchSize))
    {
      flight := Some(C.Flight(captured, false, 0));
      batch := Some(Q.Batch(entries, false));
    }

    /** The revision-guarded upsert, row by row. */
    method Upsert(rows: map<C.TraceID, C.Summary>)
      modifies `index
      ensures index == C.Upsert(old(index), rows)
    {
      var todo: set<C.TraceID> := rows.Keys;
      assert rows - todo == map[];
      while todo != {}
        invariant todo <= rows.Keys
        invariant index == C.Upsert(old(index), rows - todo)
        decreases todo
      {
        var t := AnyOf(todo);
        if t !in index || index[t].revision < rows[t].revision {
          index := index[t := rows[t]];
        }
        todo := todo - {t};
      }
      assert todo == {} && rows - {} == rows;
    }

    method ForgetOne(t: C.TraceID, captured: map<C.TraceID, C.Summary>)
      requires t in captured
      modifies `summaries, `dirty
      ensures dirty == if C.UpToDate(old(Cache()), captured, t) then C.Remove(old(dirty), t) else old(dirty)
      ensures summaries == if C.UpToDate(old(Cache()), captured, t) && !captured[t].active
                           then old(summaries) - {t} else old(summaries)
    {
      if t in summaries && summaries[t].revision == captured[t].revision {
        dirty := C.Remove(dirty, t);
        if !captured[t].active {
          summaries := summaries - {t};
        }
      }
    }

    /** Forgets what the commit saved: what has changed since stays, and active summaries stay in memory. */
    method ForgetSaved(captured: map<C.TraceID, C.Summary>)
      modifies `summaries, `dirty
      ensures Cache() == C.Forgetting(old(Cache()), captured, captured.Keys)
    {
      ghost var s := Cache();
      var todo: set<C.TraceID> := captured.Keys;
      C.ForgettingNone(s, captured);
      assert captured.Keys - todo == {};
      while todo != {}
        invariant todo <= captured.Keys
        invariant Cache() == C.Forgetting(s, captured, captured.Keys - todo)
        decreases todo
      {
        var t := AnyOf(todo);
        C.ForgettingOneMore(s, captured, captured.Keys - todo, t);
        ForgetOne(t, captured);
        assert captured.Keys - (todo - {t}) == captured.Keys - todo + {t};
        todo := todo - {t};
      }
      assert captured.Keys - {} == captured.Keys;
    }

    // ----- The same steps with their history

    /** The step just taken from the state `before` enters the history. */
    ghost method Log(before: C.State, e: C.Event)
      requires H.History(C.Advance, C.Initial(dirtySummaryLimit, retries, initialIndex), cacheLog, before)
      requires C.Enabled(before, e) && Cache() == C.Step(before, e)
      modifies `cacheLog
      ensures CacheValid() && cacheLog == old(cacheLog) + [e]
    {
      H.HistoryGrows(C.Advance, C.Initial(dirtySummaryLimit, retries, initialIndex), cacheLog, before, e, Cache());
      cacheLog := cacheLog + [e];
    }

    ghost method LogQueue(before: Q.Queue, e: Q.Event)
      requires H.History(Q.Advance, Q.Empty(queueLimit), queueLog, before)
      requires Q.Enabled(before, e) && Queue() == Q.Step(before, e)
      modifies `queueLog
      ensures QueueValid() && queueLog == old(queueLog) + [e]
    {
      H.HistoryGrows(Q.Advance, Q.Empty(queueLimit), queueLog, before, e, Queue());
      queueLog := queueLog + [e];
    }

    /** An outstanding index read makes its next move. */
    method SettleRead(e: C.Event)
      requires Valid() && C.Enabled(Cache(), e)
      requires e.ReadAnswered? || e.ReadRejected? || e.ReadRetried?
      modifies `pending, `lostSummaryCount, `cacheLog
      ensures Valid() && cacheLog == old(cacheLog) + [e]
    {
      match e {
        case ReadAnswered(t) => ReadAnswered(t);
        case ReadRejected(t) => ReadRejected(t);
        case ReadRetried(t) => ReadRetried(t);
      }
      Log(old(Cache()), e);
    }

    method DeliverRead(t: C.TraceID)
      requires Valid() && C.Enabled(Cache(), C.ReadDelivered(t))
      modifies `pending, `summaries, `dirty, `unrooted, `lostSummaryCount, `cacheLog
      ensures Valid() && cacheLog == old(cacheLog) + [C.ReadDelivered(t)]
    {
      ReadDelivered(t);
      Log(old(Cache()), C.ReadDelivered(t));
    }

    /** An outstanding check of a refused delta makes its next move. */
    method SettleCheck(e: C.Event)
      requires Valid() && C.Enabled(Cache(), e)
      requires e.CheckAnswered? || e.CheckDelivered? || e.CheckRejected?
      modifies `verifying, `unrooted, `lostSummaryCount, `cacheLog
      ensures Valid() && cacheLog == old(cacheLog) + [e]
    {
      match e {
        case CheckAnswered(t) => CheckAnswered(t);
        case CheckDelivered(t) => CheckDelivered(t);
        case CheckRejected(t) => CheckRejected(t);
      }
      Log(old(Cache()), e);
    }

    /** A change, and its place in the history. */
    method Change(t: C.TraceID, c: C.Change)
      requires CacheValid() && C.Enabled(Cache(), C.Report(t, c))
      modifies `summaries, `dirty, `pending, `unrooted, `verifying, `lostSummaryCount, `cacheLog
      ensures CacheValid() && cacheLog == old(cacheLog) + [C.Report(t, c)]
    {
      Report(t, c);
      Log(old(Cache()), C.Report(t, c));
    }

    /** The change that counts a dropped entry in the summary of its trace. */
    ghost function DropEvent(e: Q.Entry): C.Event {
      match e.kind
      case Span(root) => C.Report(e.trace, C.DropSpan(root))
      case Log => C.LogDropped(e.trace)
    }

    ghost function DropEvents(entries: seq<Q.Entry>): seq<C.Event> {
      seq(|entries|, i requires 0 <= i < |entries| => DropEvent(entries[i]))
    }

    /** The entries beyond the queue limit, oldest first. */
    ghost function Overflow(entries: seq<Q.Entry>): seq<Q.Entry> {
      if |entries| > queueLimit then entries[..|entries| - queueLimit] else []
    }

    lemma OverflowFirst(entries: seq<Q.Entry>)
      requires |entries| > queueLimit
      ensures DropEvents(Overflow(entries)) == [DropEvent(entries[0])] + DropEvents(Overflow(entries[1..]))
    {
      assert Overflow(entries) == [entries[0]] + Overflow(entries[1..]);
    }

    method DropEntry(entry: Q.Entry)
      requires CacheValid()
      modifies `summaries, `dirty, `pending, `unrooted, `verifying, `lostSummaryCount, `cacheLog
      ensures CacheValid() && cacheLog == old(cacheLog) + [DropEvent(entry)]
    {
      match entry.kind {
        case Span(root) => Report(entry.trace, C.DropSpan(root));
        case Log => DropLog(entry.trace);
      }
      Log(old(Cache()), DropEvent(entry));
    }

    method Drop(entries: seq<Q.Entry>)
      requires CacheValid()
      modifies `droppedCount, `summaries, `dirty, `pending, `unrooted, `verifying, `lostSummaryCount, `cacheLog
      ensures CacheValid() && droppedCount == old(droppedCount) + |entries|
      ensures cacheLog == old(cacheLog) + DropEvents(entries)
    {
      droppedCount := droppedCount + |entries|;
      for i := 0 to |entries|
        invariant CacheValid() && droppedCount == old(droppedCount) + |entries|
        invariant cacheLog == old(cacheLog) + DropEvents(entries)[..i]
      {
        DropEntry(entries[i]);
      }
    }

    // ----- Spans and logs

    method OnStart(t: C.TraceID, span: C.SpanID, root: bool)
      requires Valid()
      modifies `summaries, `dirty, `pending, `unrooted, `verifying, `lostSummaryCount, `cacheLog
      ensures Valid()
      ensures cacheLog == old(cacheLog) + if root then [C.Report(t, C.RootStart(span))] else []
    {
      if root {
        Change(t, C.RootStart(span));
      }
    }

    method ShiftOldest() returns (oldest: Q.Entry)
      requires |queue| > 0
      modifies `queue, `dropped, `raced
      ensures oldest == old(queue)[0] && Queue() == Q.Shifted(old(Queue()))
    {
      oldest := queue[0];
      raced := raced + if batch.Some? && oldest in batch.value.entries then {oldest.number} else {};
      queue := queue[1..];
      dropped := dropped + [oldest.number];
    }

    method Shift()
      requires CacheValid() && droppedCount == |dropped| && |queue| > 0
      modifies `queue, `dropped, `raced, `droppedCount, `summaries, `dirty, `pending, `unrooted, `verifying,
               `lostSummaryCount, `cacheLog
      ensures CacheValid() && droppedCount == |dropped| && Queue() == Q.Shifted(old(Queue()))
      ensures cacheLog == old(cacheLog) + [DropEvent(old(queue)[0])]
    {
      var oldest := ShiftOldest();
      Drop([oldest]);
    }

    /** One round of the overflow loop: what is still to be dropped is dropped later. */
    method DropOldest()
      requires CacheValid() && droppedCount == |dropped| && |queue| > queueLimit
      modifies `queue, `dropped, `raced, `droppedCount, `summaries, `dirty, `pending, `unrooted, `verifying,
               `lostSummaryCount, `cacheLog
      ensures CacheValid() && droppedCount == |dropped| && |queue| < |old(queue)|
      ensures Q.Trimmed(Queue()) == Q.Trimmed(old(Queue()))
      ensures cacheLog + DropEvents(Overflow(queue)) == old(cacheLog) + DropEvents(Overflow(old(queue)))
    {
      OverflowFirst(queue);
      Shift();
    }

    /** Overflow: the oldest entries leave the queue and are counted, also in their summaries. */
    method ShiftOverflow()
      requires CacheValid() && droppedCount == |dropped|
      modifies `queue, `dropped, `raced, `droppedCount, `summaries, `dirty, `pending, `unrooted, `verifying,
               `lostSummaryCount, `cacheLog
      ensures CacheValid() && droppedCount == |dropped|
      ensures Queue() == Q.Trimmed(old(Queue()))
      ensures cacheLog == old(cacheLog) + DropEvents(Overflow(old(queue)))
    {
      ghost var log, trimmed := cacheLog + DropEvents(Overflow(queue)), Q.Trimmed(Queue());
      while |queue| > queueLimit
        invariant CacheValid() && droppedCount == |dropped|
        invariant Q.Trimmed(Queue()) == trimmed && cacheLog + DropEvents(Overflow(queue)) == log
      {
        DropOldest();
      }
    }

    method Append(t: C.TraceID, kind: Q.Kind)
      modifies `queue, `pushed
      ensures Queue() == Q.Appended(old(Queue()), t, kind)
    {
      queue := queue + [Q.Entry(pushed, t, kind)];
      pushed := pushed + 1;
    }

    /** After an entry was pushed: overflow is dropped, and a full batch is under way. */
    method CheckQueue(ghost before: Q.Queue, t: C.TraceID, kind: Q.Kind, renamed: seq<C.TraceID>)
      requires CacheValid() && DrainOK()
      requires H.History(Q.Advance, Q.Empty(queueLimit), queueLog, before) && Queue() == Q.Appended(before, t, kind)
      modifies this
      ensures Valid() && |queue| <= queueLimit
      ensures old(cacheLog) + DropEvents(Overflow(old(queue))) <= cacheLog
      ensures old(queueLog) + [Q.Push(t, kind)] <= queueLog
      ensures |queue| >= flushBatchSize > 0 ==> flight.Some?
    {
      ShiftOverflow();
      LogQueue(before, Q.Push(t, kind));
      if |queue| >= flushBatchSize {
        ForceFlush(renamed);
      }
    }

    method OnEnd(t: C.TraceID, root: bool, failed: bool, endTime: int, renamed: seq<C.TraceID>)
      requires Valid()
      modifies this
      ensures Valid() && |queue| <= queueLimit
      ensures old(cacheLog) + [C.Report(t, C.SpanEnd(root, failed, endTime))]
                + DropEvents(Overflow(old(queue) + [Q.Entry(old(pushed), t, Q.Span(root))])) <= cacheLog
      ensures old(queueLog) + [Q.Push(t, Q.Span(root))] <= queueLog
      ensures |queue| >= flushBatchSize > 0 ==> flight.Some?
    {
      Append(t, Q.Span(root));
      Change(t, C.SpanEnd(root, failed, endTime));
      CheckQueue(old(Queue()), t, Q.Span(root), renamed);
    }

    method OnLog(t: C.TraceID, renamed: seq<C.TraceID>)
      requires Valid()
      modifies this
      ensures Valid() && |queue| <= queueLimit
      ensures old(cacheLog) + DropEvents(Overflow(old(queue) + [Q.Entry(old(pushed), t, Q.Log)])) <= cacheLog
      ensures old(queueLog) + [Q.Push(t, Q.Log)] <= queueLog
      ensures |queue| >= flushBatchSize > 0 ==> flight.Some?
    {
      Append(t, Q.Log);
      CheckQueue(old(Queue()), t, Q.Log, renamed);
    }

    method RefreshRoot(t: C.TraceID)
      requires CacheValid()
      modifies `summaries, `dirty, `pending, `unrooted, `verifying, `lostSummaryCount, `cacheLog
      ensures CacheValid() && old(cacheLog) <= cacheLog
    {
      if t in summaries || (t in pending && pending[t].summary.Some?) {
        Change(t, C.Refresh);
      }
    }

    /** Re-reads the attributes of open roots; `renamed` are those whose attributes have changed. */
    method RefreshRoots(renamed: seq<C.TraceID>)
      requires CacheValid()
      modifies `summaries, `dirty, `pending, `unrooted, `verifying, `lostSummaryCount, `cacheLog
      ensures CacheValid() && old(cacheLog) <= cacheLog
    {
      for i := 0 to |renamed|
        invariant CacheValid() && old(cacheLog) <= cacheLog
      {
        RefreshRoot(renamed[i]);
      }
    }

    // ----- Draining

    method ForceFlush(renamed: seq<C.TraceID>)
      requires Valid()
      modifies `summaries, `dirty, `pending, `unrooted, `verifying, `lostSummaryCount, `flight, `batch,
               `cacheLog, `queueLog
      ensures Valid() && old(cacheLog) <= cacheLog && old(queueLog) <= queueLog
      ensures queue != [] && flushBatchSize > 0 ==> flight.Some?
    {
      RefreshRoots(renamed);
      if flight.None? {
        TakeBatch();
      }
    }

    /** The head of the drain loop: takes the next batch, or ends the drain when there is nothing to write. */
    method TakeBatch()
      requires Valid() && flight.None?
      modifies `flight, `batch, `cacheLog, `queueLog
      ensures Valid() && old(cacheLog) <= cacheLog && old(queueLog) <= queueLog
      ensures queue != [] && flushBatchSize > 0 ==> flight.Some?
      ensures flight.None? ==> forall t :: t in dirty ==> t !in summaries
    {
      var entries := if flushBatchSize <= |queue| then queue[..flushBatchSize] else queue;
      var captured := map t | t in dirty && t in summaries :: summaries[t];
      if entries == [] && captured == map[] {
        assert forall t :: t in dirty && t in summaries ==> t in captured;
        return;
      }
      Capture(entries, captured);
      Log(old(Cache()), C.Capture);
      LogQueue(old(Queue()), Q.Take(flushBatchSize));
    }

    /** The transaction of the batch commits: spans and logs are stored. */
    method StoreBatch()
      requires QueueValid() && batch.Some? && !batch.value.written
      modifies `stored, `batch, `queueLog
      ensures QueueValid() && queueLog == old(queueLog) + [Q.Store]
      ensures Queue() == Q.Step(old(Queue()), Q.Store)
    {
      stored := stored + Q.Numbers(batch.value.entries);
      batch := Some(batch.value.(written := true));
      LogQueue(old(Queue()), Q.Store);
    }

    /** In the same transaction the summaries are indexed. */
    method IndexSummaries()
      requires CacheValid() && flight.Some? && !flight.value.written
      modifies `index, `flight, `cacheLog
      ensures CacheValid() && cacheLog == old(cacheLog) + [C.Commit]
      ensures Cache() == C.Step(old(Cache()), C.Commit)
    {
      Upsert(flight.value.captured);
      flight := Some(flight.value.(written := true));
      Log(old(Cache()), C.Commit);
    }

    method TransactionCommitted()
      requires Valid() && flight.Some? && !flight.value.written
      modifies `index, `stored, `flight, `batch, `cacheLog, `queueLog
      ensures Valid() && flight.Some? && flight.value.written
      ensures cacheLog == old(cacheLog) + [C.Commit] && queueLog == old(queueLog) + [Q.Store]
    {
      StoreBatch();
      IndexSummaries();
    }

    /** The commit is delivered: the batch leaves the queue. */
    method RemoveBatch()
      requires QueueValid() && batch.Some? && batch.value.written
      modifies `queue, `batch, `queueLog
      ensures QueueValid() && queueLog == old(queueLog) + [Q.Finish]
      ensures Queue() == Q.Step(old(Queue()), Q.Finish)
    {
      queue := Q.Among(queue, batch.value.entries, false);
      batch := None;
      LogQueue(old(Queue()), Q.Finish);
    }

    /** What it saved is clean. */
    method ForgetFlight()
      requires CacheValid() && flight.Some? && flight.value.written
      modifies `summaries, `dirty, `flight, `cacheLog
      ensures CacheValid() && cacheLog == old(cacheLog) + [C.CommitDelivered]
      ensures Cache() == C.Step(old(Cache()), C.CommitDelivered)
    {
      ForgetSaved(flight.value.captured);
      flight := None;
      Log(old(Cache()), C.CommitDelivered);
    }

    /** The drain goes on with the next batch. */
    method TransactionDone()
      requires Valid() && flight.Some? && flight.value.written
      modifies `queue, `summaries, `dirty, `flight, `batch, `cacheLog, `queueLog
      ensures Valid()
      ensures old(cacheLog) + [C.CommitDelivered] <= cacheLog && old(queueLog) + [Q.Finish] <= queueLog
      ensures queue != [] && flushBatchSize > 0 ==> flight.Some?
      ensures flight.None? ==> forall t :: t in dirty ==> t !in summaries
    {
      RemoveBatch();
      ForgetFlight();
      TakeBatch();
    }

    /** What is left of the batch is dropped and counted. */
    method GiveUp()
      requires CacheValid() && droppedCount == |dropped| && batch.Some? && !batch.value.written
      modifies `queue, `batch, `dropped, `droppedCount, `summaries, `dirty, `pending, `unrooted, `verifying,
               `lostSummaryCount, `cacheLog
      ensures CacheValid() && droppedCount == |dropped| && Queue() == Q.Step(old(Queue()), Q.GiveUp)
      ensures cacheLog == old(cacheLog) + DropEvents(Q.Among(old(batch).value.entries, old(queue), true))
    {
      var queued := Q.Among(batch.value.entries, queue, true);
      Drop(queued);
      dropped := dropped + Q.Numbers(queued);
      queue := Q.Among(queue, batch.value.entries, false);
      batch := None;
    }

    /** The failed transaction waits for its next try, or there is none. */
    method EndAttempt()
      requires CacheValid() && flight.Some? && !flight.value.written
      modifies `flight, `cacheLog
      ensures CacheValid() && cacheLog == old(cacheLog) + [C.CommitRejected]
      ensures if old(flight).value.attempt < retries then flight.Some? && !flight.value.written else flight.None?
    {
      var attempt := flight.value.attempt;
      flight := if attempt < retries then Some(flight.value.(attempt := attempt + 1)) else None;
      Log(old(Cache()), C.CommitRejected);
    }

    /** The transaction fails: it is tried again while delays remain, else the batch is given up. */
    method TransactionFailed()
      requires Valid() && flight.Some? && !flight.value.written
      modifies `queue, `batch, `dropped, `droppedCount, `summaries, `dirty, `pending, `unrooted, `verifying,
               `lostSummaryCount, `flight, `cacheLog, `queueLog
      ensures Valid()
      ensures if old(flight).value.attempt < retries then
                && flight.Some? && queue == old(queue) && queueLog == old(queueLog)
                && cacheLog == old(cacheLog) + [C.CommitRejected]
              else
                && flight.None? && queueLog == old(queueLog) + [Q.GiveUp]
                && cacheLog == old(cacheLog) + DropEvents(Q.Among(old(batch).value.entries, old(queue), true))
                                 + [C.CommitRejected]
    {
      if flight.value.attempt >= retries {
        GiveUp();
        LogQueue(old(Queue()), Q.GiveUp);
      }
      EndAttempt();
    }

    // ----- What holds of every recorder

    /** The recorder as it was before the last events of its history. */
    ghost function CacheBefore(i: nat): C.State
      reads this
      requires i <= |cacheLog| && C.Possible(C.Initial(dirtySummaryLimit, retries, initialIndex), cacheLog[..i])
    {
      C.Run(C.Initial(dirtySummaryLimit, retries, initialIndex), cacheLog[..i])
    }

    /** No loss counted, no check out, and none that found nothing delivered late. */
    ghost predicate Lossless()
      reads this
    {
      var s := C.Initial(dirtySummaryLimit, retries, initialIndex);
      lostSummaryCount == 0 && verifying == map[] && C.Possible(s, cacheLog) && R.AllInTime(s, cacheLog)
    }

    /** A recorder whose `info()` shows no loss has, for every trace it found in the index, the direct result. */
    lemma IndexedTraceIsExact(t: C.TraceID)
      requires Valid() && Lossless() && t in initialIndex
      ensures C.View(Cache(), t) == Some(C.DirectAll(cacheLog, t, initialIndex[t]))
    {
      C.HistoryIsRun(C.Initial(dirtySummaryLimit, retries, initialIndex), cacheLog, Cache());
      R.IndexedTraceRefinesDirectUpdates(dirtySummaryLimit, retries, initialIndex, cacheLog, t);
    }

    /** And for every trace whose root it started, from any such start on. */
    lemma StartedTraceIsExact(i: nat, t: C.TraceID, span: C.SpanID)
      requires Valid() && Lossless()
      requires i < |cacheLog| && cacheLog[i] == C.Report(t, C.RootStart(span))
      ensures C.Possible(C.Initial(dirtySummaryLimit, retries, initialIndex), cacheLog[..i])
      ensures C.View(Cache(), t) == Some(C.DirectAll(cacheLog[i + 1..], t, R.Rooted(CacheBefore(i), t, span)))
    {
      C.HistoryIsRun(C.Initial(dirtySummaryLimit, retries, initialIndex), cacheLog, Cache());
      R.LosslessRecorderRefinesDirectUpdates(dirtySummaryLimit, retries, initialIndex, cacheLog, i, t, span);
    }

    /** A trace that is new to recorder and index and begins with its root shows the direct result of all it did. */
    lemma NewTraceIsExact(i: nat, t: C.TraceID, span: C.SpanID)
      requires Valid() && Lossless() && t !in initialIndex
      requires i < |cacheLog| && cacheLog[i] == C.Report(t, C.RootStart(span))
      requires forall e :: e in cacheLog[..i] ==> !R.Touches(e, t)
      ensures C.View(Cache(), t) == Some(C.DirectAll(cacheLog, t, C.EMPTY))
    {
      C.HistoryIsRun(C.Initial(dirtySummaryLimit, retries, initialIndex), cacheLog, Cache());
      R.NewTraceRefinesDirectUpdates(dirtySummaryLimit, retries, initialIndex, cacheLog, i, t, span);
    }

    /** `info()` counts every entry that is neither queued nor stored. */
    lemma DroppedCountCoversLosses()
      requires Valid()
      ensures Q.Accounted(Queue()) && Q.NoRepeats(dropped) && Q.Ascending(stored) && droppedCount == |dropped|
    {
      Q.HistoryIsRun(Q.Empty(queueLimit), queueLog, Queue());
      Q.NoSilentLoss(queueLimit, queueLog);
    }
  }
}
