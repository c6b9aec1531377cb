/**
 The writer that serialises one subscriber's notification frames: bounded, one write at a time, failing once.
 Frames are numbered in the order they were accepted.
 */
module SubscriptionWriter {
  import opened Options
  import H = Histories

  type Notification = string

  datatype Error = Backpressure | WriteFailed(code: int) | Aborted(code: int)

  datatype Outcome = Written | Rejected(error: Error)

  datatype Frame = Frame(number: nat, notification: Notification)

  datatype Settlement = Settlement(number: nat, outcome: Outcome)

  datatype State = State(
    bound: nat, queue: seq<Frame>, inFlight: Option<Frame>, pending: int, failure: Option<Error>,
    // Whether the promise `flush` hands out is settled.
    idle: bool,
    // History: frames accepted, frames handed to the sink, the sink's answers in order, the frames' promises
    // settled, calls of the failure callback, and whether a write was rejected after the writer had failed.
    accepted: seq<Notification>, handed: seq<Notification>, results: seq<Outcome>, settled: seq<Settlement>,
    notified: nat, late: bool)

  function Initial(bound: nat): State {
    State(bound, [], None, 0, None, true, [], [], [], [], 0, false)
  }

  datatype Action = Enqueue(notification: Notification) | Succeed | Reject(code: int) | Abort(code: int)

  predicate Enabled(s: State, a: Action) {
    a.Succeed? || a.Reject? ==> s.inFlight.Some?
  }

  // ----- The steps

  function Drained(s: State): State {
    if s.inFlight.Some? || s.failure.Some? || s.queue == [] then s
    else
      s.(queue := s.queue[1..], inFlight := Some(s.queue[0]), handed := s.handed + [s.queue[0].notification])
  }

  function Rejections(queue: seq<Frame>, error: Error): (r: seq<Settlement>)
    ensures |r| == |queue|
    ensures forall i :: 0 <= i < |r| ==> r[i] == Settlement(queue[i].number, Rejected(error))
  {
    seq(|queue|, i requires 0 <= i < |queue| => Settlement(queue[i].number, Rejected(error)))
  }

  function Failed(s: State, error: Error, notify: bool): State {
    if s.failure.Some? then s
    else
      var pending := s.pending - |s.queue|;
      s.(failure := Some(error), queue := [], pending := pending, idle := s.idle || pending == 0,
         settled := s.settled + Rejections(s.queue, error), notified := s.notified + if notify then 1 else 0)
  }

  function Enqueued(s: State, notification: Notification): State {
    if s.failure.Some? then s
    else if s.pending >= s.bound then Failed(s, Backpressure, true)
    else
      Drained(s.(idle := s.idle && s.pending != 0, pending := s.pending + 1,
                 accepted := s.accepted + [notification],
                 queue := s.queue + [Frame(|s.accepted|, notification)]))
  }

  function Answered(s: State, outcome: Outcome): State
    requires s.inFlight.Some?
  {
    s.(inFlight := None, pending := s.pending - 1, results := s.results + [outcome],
       settled := s.settled + [Settlement(s.inFlight.value.number, outcome)])
  }

  function Step(s: State, a: Action): State
    requires Enabled(s, a)
  {
    match a
    case Enqueue(n) => Enqueued(s, n)
    case Succeed =>
      var s' := Answered(s, Written);
      Drained(s'.(idle := s'.idle || s'.pending == 0))
    case Reject(code) =>
      Failed(Answered(s, Rejected(WriteFailed(code))), WriteFailed(code), true).(late := s.late || s.failure.Some?)
    case Abort(code) => Failed(s, Aborted(code), false)
  }

  predicate Possible(s: State, actions: seq<Action>)
    decreases |actions|
  {
    actions == [] || (Enabled(s, actions[0]) && Possible(Step(s, actions[0]), actions[1..]))
  }

  function Run(s: State, actions: seq<Action>): State
    requires Possible(s, actions)
    decreases |actions|
  {
    if actions == [] then s else Run(Step(s, actions[0]), actions[1..])
  }

  /** The step of an action that can happen. */
  function Advance(s: State, a: Action): Option<State> {
    if Enabled(s, a) then Some(Step(s, a)) else None
  }

  lemma {:induction false} HistoryIsRun(s: State, log: seq<Action>, now: State)
    requires H.History(Advance, s, log, now)
    ensures Possible(s, log) && Run(s, log) == now
    decreases |log|
  {
    H.HistoryFirst(Advance, s, log, now);
    if log != [] { HistoryIsRun(Step(s, log[0]), log[1..], now); }
  }

  // ----- The invariant

  function InFlightCount(s: State): nat {
    if s.inFlight.Some? then 1 else 0
  }

  ghost predicate Counted(s: State) {
    && s.pending == |s.queue| + InFlightCount(s)
    && s.pending <= s.bound
    && |s.results| + InFlightCount(s) == |s.handed|
  }

  /** What was handed to the sink, then what waits, is what was accepted; a failed writer lets nothing wait. */
  ghost predicate Lined(s: State) {
    && (s.inFlight.Some? ==> s.inFlight.value.number == |s.handed| - 1)
    && |s.handed| <= |s.accepted| && s.handed == s.accepted[..|s.handed|]
    && (forall i :: 0 <= i < |s.queue| ==>
          |s.handed| + i < |s.accepted|
          && s.queue[i] == Frame(|s.handed| + i, s.accepted[|s.handed| + i]))
    && (s.failure.None? ==> |s.handed| + |s.queue| == |s.accepted|)
    && (s.failure.Some? ==> s.queue == [])
  }

  /** A frame waits only while a write is outstanding. */
  ghost predicate Busy(s: State) {
    s.queue == [] || s.inFlight.Some?
  }

  ghost predicate Waits(s: State, number: nat) {
    (s.inFlight.Some? && number == |s.handed| - 1) || |s.handed| <= number < |s.handed| + |s.queue|
  }

  ghost predicate IsSettled(s: State, number: nat) {
    exists i :: 0 <= i < |s.settled| && s.settled[i].number == number
  }

  ghost predicate SettlementAt(s: State, i: nat)
    requires i < |s.settled|
  {
    var n := s.settled[i].number;
    && n < |s.accepted|
    && !Waits(s, n)
    && (n < |s.handed| ==> n < |s.results| && s.settled[i].outcome == s.results[n])
    && (n >= |s.handed| ==> s.failure.Some? && s.settled[i].outcome == Rejected(s.failure.value))
    && forall j :: 0 <= j < i ==> s.settled[j].number != n
  }

  ghost predicate Settlements(s: State) {
    && (forall i: nat :: i < |s.settled| ==> SettlementAt(s, i))
    && (forall n: nat :: n < |s.accepted| && !Waits(s, n) ==> IsSettled(s, n))
  }

  ghost predicate Signals(s: State) {
    && s.notified == (if s.failure.Some? && !s.failure.value.Aborted? then 1 else 0)
    && (s.idle <==> s.pending == 0 && !s.late)
    && (s.late ==> s.failure.Some? && s.pending == 0)
    && (s.failure.None? ==> forall i :: 0 <= i < |s.results| ==> s.results[i].Written?)
  }

  ghost predicate Mid(s: State) {
    Counted(s) && Lined(s) && Settlements(s) && Signals(s)
  }

  ghost predicate Inv(s: State) {
    Mid(s) && Busy(s)
  }

  lemma DrainKeeps(s: State)
    requires Mid(s)
    ensures Inv(Drained(s))
  {
    var s' := Drained(s);
    forall i: nat | i < |s'.settled| ensures SettlementAt(s', i) { assert SettlementAt(s, i); }
    forall n: nat | n < |s'.accepted| && !Waits(s', n) ensures IsSettled(s', n) { assert IsSettled(s, n); }
  }

  lemma FailKeepsLines(s: State, error: Error, notify: bool)
    requires Counted(s) && Lined(s) && Settlements(s)
    ensures var s' := Failed(s, error, notify); Counted(s') && Lined(s') && Settlements(s')
  {
    if s.failure.None? {
      var s' := Failed(s, error, notify);
      forall i: nat | i < |s'.settled| ensures SettlementAt(s', i) {
        if i < |s.settled| { assert SettlementAt(s, i); }
        forall j | 0 <= j < |s.settled| && j < i ensures s.settled[j].number != s'.settled[i].number {
          assert SettlementAt(s, j);
        }
      }
      forall n: nat | n < |s'.accepted| && !Waits(s', n) ensures IsSettled(s', n) {
        if |s.handed| <= n {
          assert s'.settled[|s.settled| + n - |s.handed|].number == n;
        } else {
          assert IsSettled(s, n);
          var i :| 0 <= i < |s.settled| && s.settled[i].number == n;
          assert s'.settled[i].number == n;
        }
      }
    }
  }

  lemma EnqueueKeeps(s: State, notification: Notification)
    requires Inv(s)
    ensures Inv(Enqueued(s, notification))
  {
    if s.failure.None? && s.pending >= s.bound {
      FailKeepsLines(s, Backpressure, true);
    } else if s.failure.None? {
      var s' := s.(idle := s.idle && s.pending != 0, pending := s.pending + 1,
                   accepted := s.accepted + [notification],
                   queue := s.queue + [Frame(|s.accepted|, notification)]);
      forall i: nat | i < |s'.settled| ensures SettlementAt(s', i) { assert SettlementAt(s, i); }
      forall n: nat | n < |s'.accepted| && !Waits(s', n) ensures IsSettled(s', n) {
        assert !Waits(s, n) && n < |s.accepted|;
        assert IsSettled(s, n);
      }
      DrainKeeps(s');
    }
  }

  /** The state between a write's answer and what the writer does about it; its flush signal is not yet up to date. */
  lemma AnsweredLines(s: State, outcome: Outcome)
    requires Inv(s) && s.inFlight.Some?
    ensures var s' := Answered(s, outcome); Counted(s') && Lined(s') && Settlements(s')
  {
    var s' := Answered(s, outcome);
    forall i: nat | i < |s'.settled| ensures SettlementAt(s', i) {
      if i < |s.settled| { assert SettlementAt(s, i); }
      forall j | 0 <= j < |s.settled| && j < i ensures s.settled[j].number != s'.settled[i].number {
        assert SettlementAt(s, j);
      }
    }
    forall n: nat | n < |s'.accepted| && !Waits(s', n) ensures IsSettled(s', n) {
      if n == |s.handed| - 1 {
        assert s'.settled[|s.settled|].number == n;
      } else {
        assert IsSettled(s, n);
        var i :| 0 <= i < |s.settled| && s.settled[i].number == n;
        assert s'.settled[i].number == n;
      }
    }
  }

  lemma SucceedKeeps(s: State)
    requires Inv(s) && s.inFlight.Some?
    ensures Inv(Step(s, Succeed))
  {
    AnsweredLines(s, Written);
    var s1 := Answered(s, Written);
    var s2 := s1.(idle := s1.idle || s1.pending == 0);
    forall i: nat | i < |s2.settled| ensures SettlementAt(s2, i) { assert SettlementAt(s1, i); }
    forall n: nat | n < |s2.accepted| && !Waits(s2, n) ensures IsSettled(s2, n) { assert IsSettled(s1, n); }
    DrainKeeps(s2);
  }

  lemma RejectKeeps(s: State, code: int)
    requires Inv(s) && s.inFlight.Some?
    ensures Inv(Step(s, Reject(code)))
  {
    var outcome := Rejected(WriteFailed(code));
    AnsweredLines(s, outcome);
    var s1 := Answered(s, outcome);
    FailKeepsLines(s1, WriteFailed(code), true);
    var s2 := Failed(s1, WriteFailed(code), true);
    var s' := Step(s, Reject(code));
    forall i: nat | i < |s'.settled| ensures SettlementAt(s', i) { assert SettlementAt(s2, i); }
    forall n: nat | n < |s'.accepted| && !Waits(s', n) ensures IsSettled(s', n) { assert IsSettled(s2, n); }
  }

  lemma StepKeeps(s: State, a: Action)
    requires Inv(s) && Enabled(s, a)
    ensures Inv(Step(s, a))
  {
    match a
    case Enqueue(n) => EnqueueKeeps(s, n);
    case Succeed => SucceedKeeps(s);
    case Reject(code) => RejectKeeps(s, code);
    case Abort(code) => FailKeepsLines(s, Aborted(code), false);
  }

  lemma {:induction false} RunKeeps(s: State, actions: seq<Action>)
    requires Inv(s) && Possible(s, actions)
    ensures Inv(Run(s, actions))
    decreases |actions|
  {
    if actions != [] {
      StepKeeps(s, actions[0]);
      RunKeeps(Step(s, actions[0]), actions[1..]);
    }
  }

  ghost predicate Reaches(s: State, actions: seq<Action>) {
    Possible(Initial(s.bound), actions) && s == Run(Initial(s.bound), actions)
  }

  /** A state some run of a fresh writer leads to. */
  ghost predicate Reachable(s: State) {
    exists actions: seq<Action> :: Reaches(s, actions)
  }

  lemma ReachableInv(s: State)
    requires Reachable(s)
    ensures Inv(s)
  {
    var actions :| Reaches(s, actions);
    RunKeeps(Initial(s.bound), actions);
  }

  // ----- Order, bound and settlement

  /**
   The sink gets accepted frames in order; what is pending is the queue and the one outstanding write, within the
   bound; and a healthy writer with no write outstanding has handed over everything it accepted.
   */
  lemma FramesInOrderWithinBound(s: State)
    requires Reachable(s)
    ensures s.handed <= s.accepted
    ensures s.pending == |s.queue| + InFlightCount(s) <= s.bound
    ensures s.failure.None? && s.inFlight.None? ==> s.handed == s.accepted && s.queue == [] && s.pending == 0
  {
    ReachableInv(s);
  }

  /**
   Every accepted frame is still waiting or has settled exactly once: with the sink's own answer if the sink got
   it, and with the writer's failure if not.
   */
  lemma EachFrameSettlesOnce(s: State, n: nat)
    requires Reachable(s) && n < |s.accepted|
    ensures Waits(s, n) <==> !IsSettled(s, n)
    ensures forall i, j :: 0 <= i < j < |s.settled| ==> s.settled[i].number != s.settled[j].number
    ensures forall i :: 0 <= i < |s.settled| && s.settled[i].number == n ==>
              if n < |s.handed| then n < |s.results| && s.settled[i].outcome == s.results[n]
              else s.failure.Some? && s.settled[i].outcome == Rejected(s.failure.value)
  {
    ReachableInv(s);
    if IsSettled(s, n) {
      var i :| 0 <= i < |s.settled| && s.settled[i].number == n;
      assert SettlementAt(s, i);
    }
    forall i | 0 <= i < |s.settled| && s.settled[i].number == n
      ensures if n < |s.handed| then n < |s.results| && s.settled[i].outcome == s.results[n]
              else s.failure.Some? && s.settled[i].outcome == Rejected(s.failure.value)
    {
      assert SettlementAt(s, i);
    }
    forall i, j | 0 <= i < j < |s.settled| ensures s.settled[i].number != s.settled[j].number {
      assert SettlementAt(s, j);
    }
  }

  /** After its first failure a writer accepts nothing, hands nothing to the sink and reports nothing more. */
  lemma {:induction false} FailsOnce(s: State, later: seq<Action>)
    requires Inv(s) && s.failure.Some? && Possible(s, later)
    ensures var s' := Run(s, later);
            s'.failure == s.failure && s'.accepted == s.accepted && s'.handed == s.handed
            && s'.notified == s.notified <= 1
    decreases |later|
  {
    if later != [] {
      StepKeeps(s, later[0]);
      FailsOnce(Step(s, later[0]), later[1..]);
    }
  }

  // ----- Flush

  /** A settled flush means nothing is pending. */
  lemma FlushedMeansDrained(s: State)
    requires Reachable(s) && s.idle
    ensures s.pending == 0 && s.queue == [] && s.inFlight.None?
  {
    ReachableInv(s);
  }

  lemma {:induction false} LateStays(s: State, later: seq<Action>)
    requires Inv(s) && s.late && Possible(s, later)
    ensures !Run(s, later).idle
    decreases |later|
  {
    if later != [] {
      StepKeeps(s, later[0]);
      LateStays(Step(s, later[0]), later[1..]);
    }
  }

  /**
   The converse fails in one place. When the last pending write is rejected, flush settles exactly if the writer had
   not failed before; otherwise it never settles, whatever happens afterwards.
   */
  lemma FlushSettlesUnlessLate(s: State, code: int, later: seq<Action>)
    requires Reachable(s) && s.inFlight.Some? && Possible(Step(s, Reject(code)), later)
    ensures Step(s, Reject(code)).pending == 0
    ensures s.failure.None? ==> Step(s, Reject(code)).idle
    ensures s.failure.Some? ==> !Run(Step(s, Reject(code)), later).idle
  {
    ReachableInv(s);
    StepKeeps(s, Reject(code));
    if s.failure.Some? {
      LateStays(Step(s, Reject(code)), later);
    }
  }

  /** Without such a late rejection flush is settled whenever nothing is pending. */
  lemma DrainedMeansFlushed(s: State)
    requires Reachable(s) && s.pending == 0 && !s.late
    ensures s.idle
  {
    ReachableInv(s);
  }

  /** The failing run: one frame in flight, an abort, then the sink rejects that frame. */
  lemma FlushCanHang(bound: nat, n: Notification, reason: int, code: int, later: seq<Action>)
    requires bound > 0
    ensures var actions := [Enqueue(n), Abort(reason), Reject(code)];
            && Possible(Initial(bound), actions)
            && Run(Initial(bound), actions).pending == 0
            && (Possible(Run(Initial(bound), actions), later) ==> !Run(Run(Initial(bound), actions), later).idle)
  {
    var s1 := Step(Initial(bound), Enqueue(n));
    var s2 := Step(s1, Abort(reason));
    var s3 := Step(s2, Reject(code));
    assert s1.inFlight == Some(Frame(0, n)) && s1.queue == [];
    var actions := [Enqueue(n), Abort(reason), Reject(code)];
    assert actions[1..] == [Abort(reason), Reject(code)] && actions[1..][1..] == [Reject(code)];
    assert Enabled(s2, Reject(code)) && Possible(s3, []) && Run(s3, []) == s3;
    assert [Reject(code)][0] == Reject(code) && [Reject(code)][1..] == [];
    assert Possible(s2, [Reject(code)]) && Run(s2, [Reject(code)]) == s3;
    assert Possible(s1, actions[1..]) && Run(s1, actions[1..]) == s3;
    RunKeeps(Initial(bound), actions);
    if Possible(s3, later) {
      LateStays(s3, later);
    }
  }

  // ----- The writer as a class

  class Writer {
    const bound: nat
    var queue: seq<Frame>
    var inFlight: Option<Frame>
    var pending: int
    var failure: Option<Error>
    var idle: bool
    ghost var accepted: seq<Notification>
    ghost var handed: seq<Notification>
    ghost var results: seq<Outcome>
    ghost var settled: seq<Settlement>
    ghost var notified: nat
    ghost var late: bool
    ghost var log: seq<Action>
    // Numbers the frames.
    var count: nat

    ghost function Fields(): State
      reads this
    {
      State(bound, queue, inFlight, pending, failure, idle, accepted, handed, results, settled, notified, late)
    }

    /** Frames are numbered as they are accepted. */
    ghost predicate Numbered()
      reads this
    {
      count == |accepted|
    }

    /** The actions of the log have led from a new writer to this one. */
    ghost predicate Valid()
      reads this
    {
      Numbered() && H.History(Advance, Initial(bound), log, Fields())
    }

    constructor (bound: nat)
      ensures Valid() && log == [] && Fields() == Initial(bound)
    {
      this.bound := bound;
      queue, inFlight, pending, failure, idle, count := [], None, 0, None, true, 0;
      accepted, handed, results, settled, notified, late, log := [], [], [], [], 0, false, [];
      H.NoHistory(Advance, Initial(bound));
    }

    /** Accepts a frame, or says with which error it was refused. */
    method Accept(notification: Notification) returns (refused: Option<Error>)
      requires Numbered()
      modifies `queue, `inFlight, `pending, `failure, `idle, `count, `accepted, `handed, `results, `settled,
               `notified, `late
      ensures Numbered() && Fields() == Step(old(Fields()), Enqueue(notification))
      ensures refused == (if old(failure).Some? then old(failure)
                          else if old(pending) >= bound then Some(Backpressure) else None)
    {
      if failure.Some? {
        return failure;
      }
      if pending >= bound {
        Fail(Backpressure, true);
        return Some(Backpressure);
      }
      if pending == 0 {
        idle := false;
      }
      pending := pending + 1;
      queue := queue + [Frame(count, notification)];
      count := count + 1;
      accepted := accepted + [notification];
      Drain();
      return None;
    }

    method Drain()
      modifies `queue, `inFlight, `handed
      ensures Fields() == Drained(old(Fields()))
    {
      if inFlight.Some? || failure.Some? || queue == [] {
        return;
      }
      inFlight := Some(queue[0]);
      handed := handed + [queue[0].notification];
      queue := queue[1..];
    }

    method Fail(error: Error, notify: bool)
      modifies `queue, `pending, `failure, `idle, `settled, `notified
      ensures Fields() == Failed(old(Fields()), error, notify)
    {
      if failure.Some? {
        return;
      }
      failure := Some(error);
      var rejected := queue;
      queue := [];
      var i := 0;
      while i < |rejected|
        invariant i <= |rejected| && queue == [] && failure == Some(error)
        invariant idle == old(idle) && notified == old(notified)
        invariant pending == old(pending) - i
        invariant settled == old(settled) + Rejections(rejected[..i], error)
      {
        pending := pending - 1;
        settled := settled + [Settlement(rejected[i].number, Rejected(error))];
        i := i + 1;
      }
      assert rejected[..i] == rejected;
      if notify {
        notified := notified + 1;
      }
      if pending == 0 {
        idle := true;
      }
    }

    method OnWritten()
      requires Numbered() && Enabled(Fields(), Succeed)
      modifies `queue, `inFlight, `pending, `failure, `idle, `count, `accepted, `handed, `results, `settled,
               `notified, `late
      ensures Numbered() && Fields() == Step(old(Fields()), Succeed)
    {
      settled := settled + [Settlement(inFlight.value.number, Written)];
      results := results + [Written];
      inFlight := None;
      pending := pending - 1;
      if pending == 0 {
        idle := true;
      }
      Drain();
    }

    method OnWriteRejected(code: int)
      requires Numbered() && Enabled(Fields(), Reject(code))
      modifies `queue, `inFlight, `pending, `failure, `idle, `count, `accepted, `handed, `results, `settled,
               `notified, `late
      ensures Numbered() && Fields() == Step(old(Fields()), Reject(code))
    {
      late := late || failure.Some?;
      settled := settled + [Settlement(inFlight.value.number, Rejected(WriteFailed(code)))];
      results := results + [Rejected(WriteFailed(code))];
      inFlight := None;
      pending := pending - 1;
      Fail(WriteFailed(code), true);
    }

    method AbortWriter(reason: int)
      requires Numbered()
      modifies `queue, `inFlight, `pending, `failure, `idle, `count, `accepted, `handed, `results, `settled,
               `notified, `late
      ensures Numbered() && Fields() == Step(old(Fields()), Abort(reason))
    {
      Fail(Aborted(reason), false);
    }

    method Apply(a: Action)
      requires Numbered() && Enabled(Fields(), a)
      modifies `queue, `inFlight, `pending, `failure, `idle, `count, `accepted, `handed, `results, `settled,
               `notified, `late
      ensures Numbered() && Fields() == Step(old(Fields()), a)
    {
      match a
      case Enqueue(notification) =>
        var _ := Accept(notification);
      case Succeed => OnWritten();
      case Reject(code) => OnWriteRejected(code);
      case Abort(reason) => AbortWriter(reason);
    }

    /** Whatever can happen to the writer, with its place in the history. */
    method Handle(a: Action)
      requires Valid() && Enabled(Fields(), a)
      modifies this
      ensures Valid() && log == old(log) + [a] && Fields() == Step(old(Fields()), a)
    {
      Apply(a);
      H.HistoryGrows(Advance, Initial(bound), log, old(Fields()), a, Fields());
      log := log + [a];
    }

    /** Every writer hands frames over in the order it accepted them, within its bound, and settles each once. */
    lemma WritesInOrder()
      requires Valid()
      ensures handed <= accepted && pending <= bound
      ensures forall i, j :: 0 <= i < j < |settled| ==> settled[i].number != settled[j].number
    {
      HistoryIsRun(Initial(bound), log, Fields());
      assert Reaches(Fields(), log);
      ReachableInv(Fields());
      forall i: nat, j: nat | i < j < |settled| ensures settled[i].number != settled[j].number {
        assert SettlementAt(Fields(), j);
      }
    }
  }
}
