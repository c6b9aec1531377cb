/**
 The bounded queue of spans and logs in front of the trace stores.

 Entries are numbered in push order. A batch in flight is a prefix of the queue when it is taken, but
 overflow can shift its entries out while its transaction is still under way.
 */
module TraceQueue {
  import opened Options
  import H = Histories

  datatype Kind = Span(root: bool) | Log
  datatype Entry = Entry(number: nat, trace: int, kind: Kind)
  datatype Batch = Batch(entries: seq<Entry>, written: bool)

  /**
   `stored` and `dropped` are the numbers of the entries stored and counted as dropped, in that order.
   `raced` has those that overflow shifted out while the batch holding them was in flight.
   */
  datatype Queue = Queue(
    limit: nat, entries: seq<Entry>, pushed: nat, stored: seq<nat>, dropped: seq<nat>, raced: set<nat>,
    batch: Option<Batch>)

  function Empty(limit: nat): Queue {
    Queue(limit, [], 0, [], [], {}, None)
  }

  function Numbers(entries: seq<Entry>): (r: seq<nat>)
    ensures |r| == |entries|
    ensures forall i :: 0 <= i < |r| ==> r[i] == entries[i].number
  {
    seq(|entries|, i requires 0 <= i < |entries| => entries[i].number)
  }

  /** The entries of `from` that are, or are not, in `batch`, in order. */
  function Among(from: seq<Entry>, batch: seq<Entry>, inside: bool): (r: seq<Entry>)
    ensures forall e :: e in r <==> e in from && (e in batch) == inside
  {
    if from == [] then []
    else (if (from[0] in batch) == inside then [from[0]] else []) + Among(from[1..], batch, inside)
  }

  function Shifted(q: Queue): Queue
    requires |q.entries| > 0
  {
    var oldest := q.entries[0];
    q.(entries := q.entries[1..], dropped := q.dropped + [oldest.number],
       raced := q.raced + if q.batch.Some? && oldest in q.batch.value.entries then {oldest.number} else {})
  }

  /** Overflow: the oldest entries go until the queue is within its limit. */
  function Trimmed(q: Queue): (r: Queue)
    ensures |r.entries| <= r.limit
    decreases |q.entries|
  {
    if |q.entries| <= q.limit then q else Trimmed(Shifted(q))
  }

  function Appended(q: Queue, trace: int, kind: Kind): Queue {
    q.(entries := q.entries + [Entry(q.pushed, trace, kind)], pushed := q.pushed + 1)
  }

  datatype Event =
    | Push(trace: int, kind: Kind)
    | Take(size: nat)
    | Store
    | Finish
    | GiveUp

  predicate Enabled(q: Queue, e: Event) {
    match e
    case Push(_, _) => true
    case Take(_) => q.batch.None?
    case Store => q.batch.Some? && !q.batch.value.written
    case Finish => q.batch.Some? && q.batch.value.written
    case GiveUp => q.batch.Some? && !q.batch.value.written
  }

  function Step(q: Queue, e: Event): Queue
    requires Enabled(q, e)
  {
    match e
    case Push(trace, kind) => Trimmed(Appended(q, trace, kind))
    case Take(size) =>
      q.(batch := Some(Batch(if size <= |q.entries| then q.entries[..size] else q.entries, false)))
    case Store =>
      q.(stored := q.stored + Numbers(q.batch.value.entries), batch := Some(q.batch.value.(written := true)))
    case Finish => q.(entries := Among(q.entries, q.batch.value.entries, false), batch := None)
    case GiveUp =>
      var batch := q.batch.value.entries;
      q.(entries := Among(q.entries, batch, false),
         dropped := q.dropped + Numbers(Among(batch, q.entries, true)), batch := None)
  }

  predicate Possible(q: Queue, events: seq<Event>)
    decreases |events|
  {
    events == [] || (Enabled(q, events[0]) && Possible(Step(q, events[0]), events[1..]))
  }

  function Run(q: Queue, events: seq<Event>): Queue
    requires Possible(q, events)
    decreases |events|
  {
    if events == [] then q else Run(Step(q, events[0]), events[1..])
  }

  /** The step of an event that can happen. */
  function Advance(s: Queue, e: Event): Option<Queue> {
    if Enabled(s, e) then Some(Step(s, e)) else None
  }

  lemma {:induction false} HistoryIsRun(s: Queue, events: seq<Event>, now: Queue)
    requires H.History(Advance, s, events, now)
    ensures Possible(s, events) && Run(s, events) == now
    decreases |events|
  {
    H.HistoryFirst(Advance, s, events, now);
    if events != [] { HistoryIsRun(Step(s, events[0]), events[1..], now); }
  }

  // ----- Invariant

  ghost predicate Ascending(s: seq<nat>) {
    forall i, j :: 0 <= i < j < |s| ==> s[i] < s[j]
  }

  ghost predicate InOrder(entries: seq<Entry>) {
    forall i, j :: 0 <= i < j < |entries| ==> entries[i].number < entries[j].number
  }

  ghost predicate NoRepeats(s: seq<nat>) {
    forall i, j :: 0 <= i < j < |s| ==> s[i] != s[j]
  }

  ghost predicate Queued(entries: seq<Entry>, n: nat) {
    exists e :: e in entries && e.number == n
  }

  /** Every number pushed is queued, stored or counted as dropped. */
  ghost predicate Accounted(q: Queue) {
    forall n: nat :: n < q.pushed ==> n in q.stored || n in q.dropped || Queued(q.entries, n)
  }

  ghost predicate BatchOK(q: Queue, b: Batch) {
    && InOrder(b.entries)
    && (forall x :: x in b.entries ==>
          x.number < q.pushed && (x in q.entries || (x.number in q.dropped && x.number in q.raced)))
    && (forall e, x :: e in q.entries && e !in b.entries && x in b.entries ==> x.number < e.number)
    && (forall n, e :: n in q.stored && e in q.entries && e !in b.entries ==> n < e.number)
    && (!b.written ==> forall n, x :: n in q.stored && x in b.entries ==> n < x.number)
    && (b.written ==> forall x :: x in b.entries ==> x.number in q.stored)
  }

  ghost predicate OnlyRacedTwice(q: Queue) {
    forall n :: n in q.stored && n in q.dropped ==> n in q.raced
  }

  ghost predicate StoredFirst(q: Queue) {
    forall n, e :: n in q.stored && e in q.entries ==> n < e.number
  }

  ghost predicate EntriesOK(q: Queue) {
    && InOrder(q.entries)
    && (forall e :: e in q.entries ==> e.number < q.pushed && e.number !in q.dropped)
  }

  ghost predicate HistoryOK(q: Queue) {
    && Ascending(q.stored)
    && NoRepeats(q.dropped)
    && (forall n :: n in q.stored || n in q.dropped ==> n < q.pushed)
    && OnlyRacedTwice(q)
  }

  ghost predicate Sound(q: Queue) {
    && EntriesOK(q)
    && HistoryOK(q)
    && Accounted(q)
    && (if q.batch.Some? then BatchOK(q, q.batch.value) else StoredFirst(q))
  }

  lemma {:induction false} TrimKeeps(q: Queue)
    requires Sound(q)
    ensures Sound(Trimmed(q)) && Trimmed(q).pushed == q.pushed && Trimmed(q).stored == q.stored
    decreases |q.entries|
  {
    if |q.entries| > q.limit {
      TrimKeeps(Shifted(q));
    }
  }

  lemma {:induction false} AmongInOrder(from: seq<Entry>, batch: seq<Entry>, inside: bool)
    requires InOrder(from)
    ensures InOrder(Among(from, batch, inside))
  {
    if from != [] {
      AmongInOrder(from[1..], batch, inside);
      var rest := Among(from[1..], batch, inside);
      forall j | 0 <= j < |rest| ensures from[0].number < rest[j].number {
        assert rest[j] in from[1..];
      }
    }
  }

  lemma StoreAscends(q: Queue)
    requires Sound(q) && Enabled(q, Store)
    ensures Ascending(Step(q, Store).stored)
  {
    var r := Step(q, Store);
    var b := q.batch.value.entries;
    forall i, j | 0 <= i < j < |r.stored| ensures r.stored[i] < r.stored[j] {
      if i < |q.stored| <= j {
        assert r.stored[i] in q.stored && b[j - |q.stored|] in b;
      }
    }
  }

  lemma StoreHistory(q: Queue)
    requires Sound(q) && Enabled(q, Store)
    ensures HistoryOK(Step(q, Store)) && Accounted(Step(q, Store)) && EntriesOK(Step(q, Store))
  {
    StoreAscends(q);
    var b := q.batch.value.entries;
    var r := Step(q, Store);
    forall n | n in r.stored && n in r.dropped ensures n in r.raced {
      if n !in q.stored {
        var i :| 0 <= i < |b| && b[i].number == n;
        assert b[i] in b;
      }
    }
  }

  lemma StoreKeeps(q: Queue)
    requires Sound(q) && Enabled(q, Store)
    ensures Sound(Step(q, Store))
  {
    StoreHistory(q);
  }

  lemma FinishKeeps(q: Queue)
    requires Sound(q) && Enabled(q, Finish)
    ensures Sound(Step(q, Finish))
  {
    AmongInOrder(q.entries, q.batch.value.entries, false);
    var r := Step(q, Finish);
    forall n: nat | n < r.pushed
      ensures n in r.stored || n in r.dropped || Queued(r.entries, n)
    {
      if n !in q.stored && n !in q.dropped {
        var e :| e in q.entries && e.number == n;
        assert e in r.entries;
      }
    }
  }

  lemma AppendNoRepeats(s: seq<nat>, more: seq<nat>)
    requires NoRepeats(s) && Ascending(more) && (forall n :: n in more ==> n !in s)
    ensures NoRepeats(s + more)
  {
    forall i, j | 0 <= i < j < |s + more| ensures (s + more)[i] != (s + more)[j] {
      if i < |s| <= j { assert s[i] in s && more[j - |s|] in more; }
    }
  }

  lemma GiveUpAccounts(q: Queue)
    requires Sound(q) && Enabled(q, GiveUp)
    ensures Accounted(Step(q, GiveUp))
  {
    var b := q.batch.value.entries;
    var gone := Among(b, q.entries, true);
    var r := Step(q, GiveUp);
    forall n: nat | n < r.pushed
      ensures n in r.stored || n in r.dropped || Queued(r.entries, n)
    {
      if n !in q.stored && n !in q.dropped {
        var e :| e in q.entries && e.number == n;
        if e in b { assert e in gone; } else { assert e in r.entries; }
      }
    }
  }

  lemma GiveUpEntries(q: Queue)
    requires Sound(q) && Enabled(q, GiveUp)
    ensures EntriesOK(Step(q, GiveUp)) && StoredFirst(Step(q, GiveUp))
  {
    var b := q.batch.value.entries;
    AmongInOrder(q.entries, b, false);
    var r := Step(q, GiveUp);
    forall e | e in r.entries ensures e.number < r.pushed && e.number !in r.dropped {
      assert e in q.entries && e !in b;
    }
  }

  lemma GiveUpHistory(q: Queue)
    requires Sound(q) && Enabled(q, GiveUp)
    ensures HistoryOK(Step(q, GiveUp))
  {
    var b := q.batch.value.entries;
    var gone := Among(b, q.entries, true);
    AmongInOrder(b, q.entries, true);
    forall n | n in Numbers(gone) ensures n !in q.dropped && n !in q.stored && n < q.pushed {
      var i :| 0 <= i < |gone| && gone[i].number == n;
      assert gone[i] in gone;
    }
    AppendNoRepeats(q.dropped, Numbers(gone));
  }

  lemma GiveUpKeeps(q: Queue)
    requires Sound(q) && Enabled(q, GiveUp)
    ensures Sound(Step(q, GiveUp))
  {
    GiveUpEntries(q);
    GiveUpHistory(q);
    GiveUpAccounts(q);
  }

  lemma PushKeeps(q: Queue, trace: int, kind: Kind)
    requires Sound(q)
    ensures Sound(Appended(q, trace, kind))
  {
  }

  lemma TakeKeeps(q: Queue, size: nat)
    requires Sound(q) && Enabled(q, Take(size))
    ensures Sound(Step(q, Take(size)))
  {
  }

  lemma StepKeeps(q: Queue, e: Event)
    requires Sound(q) && Enabled(q, e)
    ensures Sound(Step(q, e))
  {
    match e
    case Push(trace, kind) =>
      PushKeeps(q, trace, kind);
      TrimKeeps(Appended(q, trace, kind));
    case Take(size) => TakeKeeps(q, size);
    case Store => StoreKeeps(q);
    case Finish => FinishKeeps(q);
    case GiveUp => GiveUpKeeps(q);
  }

  lemma {:induction false} RunKeeps(q: Queue, events: seq<Event>)
    requires Sound(q) && Possible(q, events)
    ensures Sound(Run(q, events))
    decreases |events|
  {
    if events != [] {
      StepKeeps(q, events[0]);
      RunKeeps(Step(q, events[0]), events[1..]);
    }
  }

  /**
   No silent loss, whatever overflows or fails while a batch is in flight: every entry pushed is queued,
   stored or counted as dropped; each is counted at most once and stored at most once, and entries are stored
   in push order. Only an entry shifted out of a batch in flight can be both stored and counted.
   */
  lemma NoSilentLoss(limit: nat, events: seq<Event>)
    requires Possible(Empty(limit), events)
    ensures var q := Run(Empty(limit), events);
            && Accounted(q) && NoRepeats(q.dropped) && Ascending(q.stored)
            && (forall e :: e in q.entries ==> e.number !in q.dropped)
            && OnlyRacedTwice(q)
            && (q.batch.None? ==> forall e :: e in q.entries ==> e.number !in q.stored)
  {
    RunKeeps(Empty(limit), events);
  }

  lemma {:induction false} AmongIsShorter(from: seq<Entry>, batch: seq<Entry>, inside: bool)
    ensures |Among(from, batch, inside)| <= |from|
  {
    if from != [] { AmongIsShorter(from[1..], batch, inside); }
  }

  lemma {:induction false} TrimmedLimit(q: Queue)
    ensures Trimmed(q).limit == q.limit
    decreases |q.entries|
  {
    if |q.entries| > q.limit { TrimmedLimit(Shifted(q)); }
  }

  /** After every step of every run the queue is within its limit, also while a batch is in flight. */
  lemma {:induction false} AlwaysWithinLimit(q: Queue, events: seq<Event>)
    requires Possible(q, events) && |q.entries| <= q.limit
    ensures |Run(q, events).entries| <= q.limit && Run(q, events).limit == q.limit
    decreases |events|
  {
    if events != [] {
      var e := events[0];
      match e {
        case Push(trace, kind) => TrimmedLimit(Appended(q, trace, kind));
        case Finish => AmongIsShorter(q.entries, q.batch.value.entries, false);
        case GiveUp => AmongIsShorter(q.entries, q.batch.value.entries, false);
        case _ =>
      }
      AlwaysWithinLimit(Step(q, e), events[1..]);
    }
  }
}
