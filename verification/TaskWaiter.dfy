/**
 Several callers waiting for one task through a shared entry: pushes, reads, expiry and input requests interleave.
 Timestamps are integers. An entry that was released is not used by new callers.
 */
module TaskWaiter {
  import opened Options
  import H = Histories

  type Key = string

  datatype Status = Working | InputRequired(keys: seq<Key>) | Completed | Failed | Cancelled

  datatype Snapshot = Snapshot(time: int, status: Status, deadline: Option<int>)

  predicate IsTerminal(s: Snapshot) {
    s.status.Completed? || s.status.Failed? || s.status.Cancelled?
  }

  function InputsOf(latest: Option<Snapshot>): set<Key> {
    if latest.Some? && latest.value.status.InputRequired? then set k | k in latest.value.status.keys else {}
  }

  datatype Outcome = Terminal(snapshot: Snapshot) | InputError | Interrupted

  /**
   Where a waiter is: waiting for the acknowledgement, reading the task, asleep until the entry changes, woken,
   sleeping out a poll interval, or done.
   */
  datatype Phase = Acking | Getting | Sleeping | Woken(elapsed: bool) | Polling | Done(outcome: Outcome)

  datatype Waiter = Waiter(phase: Phase, accepted: bool, seen: nat, reported: Option<int>, reports: seq<int>)

  /** The promise chain that answers one dispatched input. */
  datatype Chain = Fulfilling | Updating | Rereading | Ended

  datatype State = State(
    latest: Option<Snapshot>, version: nat, active: bool, acknowledged: Option<bool>, inputError: bool,
    inputs: set<Key>, dispatched: set<Key>, inFlight: set<Key>, aborted: set<Key>, chains: map<Key, Chain>,
    waiters: seq<Waiter>, released: bool,
    // History: the inputs dispatched and the answers sent, in order.
    dispatches: seq<Key>, updates: seq<Key>)

  const INITIAL := State(None, 0, false, None, false, {}, {}, {}, {}, map[], [], false, [], [])

  datatype Action =
    | Acquire
    | AckFrame(accepted: bool)
    | StreamSettles
    | Push(snapshot: Snapshot)
    | AckSeen(waiter: nat)
    | Got(waiter: nat, snapshot: Snapshot)
    | Expire(waiter: nat)
    | PollElapsed(waiter: nat)
    | Continue(waiter: nat)
    | Leave(waiter: nat)
    | Fulfilled(key: Key)
    | UpdateDone(key: Key)
    | UpdateUnknown(key: Key)
    | Reread(key: Key, snapshot: Snapshot)
    | ChainFails(key: Key)

  predicate PhaseOf(s: State, w: nat, p: Phase) {
    w < |s.waiters| && s.waiters[w].phase == p
  }

  predicate ChainIs(s: State, k: Key, c: Chain) {
    k in s.chains && s.chains[k] == c
  }

  predicate Enabled(s: State, a: Action) {
    match a
    case Acquire => !s.released
    case AckSeen(w) => PhaseOf(s, w, Acking) && s.acknowledged.Some?
    case Got(w, _) => PhaseOf(s, w, Getting)
    case Expire(w) =>
      s.latest.Some? && s.latest.value.deadline.Some? && (PhaseOf(s, w, Sleeping) || PhaseOf(s, w, Polling))
    case PollElapsed(w) => PhaseOf(s, w, Polling)
    case Continue(w) => PhaseOf(s, w, Woken(true)) || PhaseOf(s, w, Woken(false))
    case Leave(w) => w < |s.waiters| && !s.waiters[w].phase.Done?
    case Fulfilled(k) => ChainIs(s, k, Fulfilling)
    case UpdateDone(k) => ChainIs(s, k, Updating)
    case UpdateUnknown(k) => ChainIs(s, k, Updating)
    case Reread(k, _) => ChainIs(s, k, Rereading) && !s.released
    case ChainFails(k) => k in s.chains && !s.chains[k].Ended?
    case _ => true
  }

  // ----- The steps

  function WakeAll(waiters: seq<Waiter>): (r: seq<Waiter>)
    ensures |r| == |waiters|
  {
    seq(|waiters|, i requires 0 <= i < |waiters| =>
      if waiters[i].phase.Sleeping? then waiters[i].(phase := Woken(false)) else waiters[i])
  }

  /** Every change of the entry wakes every sleeper. */
  function Wake(s: State): State {
    s.(version := s.version + 1, waiters := WakeAll(s.waiters))
  }

  predicate IsNews(s: State, snapshot: Snapshot) {
    s.latest.Some? ==>
      || snapshot.time > s.latest.value.time
      || (snapshot.time == s.latest.value.time && !IsTerminal(s.latest.value))
  }

  /** Takes in a snapshot unless it is stale, withdrawing the inputs in flight it no longer lists. */
  function Observe(s: State, snapshot: Snapshot): State {
    if !IsNews(s, snapshot) then s
    else
      var inputs := InputsOf(Some(snapshot));
      Wake(s.(latest := Some(snapshot), inputs := inputs,
              aborted := s.aborted + set k | k in s.inFlight && k !in inputs))
  }

  /** A waiter's status callback skips what is no newer than its last report. */
  function Notify(w: Waiter, time: int): Waiter {
    if w.reported.Some? && time <= w.reported.value then w
    else w.(reported := Some(time), reports := w.reports + [time])
  }

  function NotifyAll(waiters: seq<Waiter>, time: int): (r: seq<Waiter>)
    ensures |r| == |waiters|
  {
    seq(|waiters|, i requires 0 <= i < |waiters| =>
      if waiters[i].phase.Done? then waiters[i] else Notify(waiters[i], time))
  }

  function Pushed(s: State, snapshot: Snapshot): State {
    if !IsNews(s, snapshot) then s
    else
      var s' := Observe(s, snapshot);
      s'.(waiters := NotifyAll(s'.waiters, snapshot.time))
  }

  function SetWaiter(s: State, w: nat, waiter: Waiter): State
    requires w < |s.waiters|
  {
    s.(waiters := s.waiters[w := waiter])
  }

  predicate AllDone(waiters: seq<Waiter>) {
    forall i :: 0 <= i < |waiters| ==> waiters[i].phase.Done?
  }

  /** A waiter leaves; with the last one the entry is released. */
  function Finish(s: State, w: nat, outcome: Outcome): State
    requires w < |s.waiters|
  {
    var s' := SetWaiter(s, w, s.waiters[w].(phase := Done(outcome)));
    s'.(released := s.released || AllDone(s'.waiters))
  }

  /** Starts the handler of an input, unless it was dispatched before. */
  function DispatchNext(s: State, k: Key): State {
    if k in s.dispatched then s
    else s.(dispatched := s.dispatched + {k}, inFlight := s.inFlight + {k}, chains := s.chains[k := Fulfilling],
            dispatches := s.dispatches + [k])
  }

  /** Starts the handlers of the inputs not dispatched before, in some order. */
  function Dispatch(s: State, order: seq<Key>): (r: State)
    ensures r.waiters == s.waiters && r.latest == s.latest && r.version == s.version && r.inputs == s.inputs
    ensures r.released == s.released && r.active == s.active && r.inputError == s.inputError
    ensures r.aborted == s.aborted && r.updates == s.updates && r.acknowledged == s.acknowledged
    decreases |order|
  {
    if order == [] then s else Dispatch(DispatchNext(s, order[0]), order[1..])
  }

  /** The rest of one turn of a waiter's loop, from the snapshot it goes by. */
  function Act(s: State, w: nat, snapshot: Snapshot): (r: State)
    requires w < |s.waiters|
    ensures r.latest == s.latest
  {
    if IsTerminal(snapshot) then Finish(s, w, Terminal(snapshot))
    else if s.inputError then Finish(s, w, InputError)
    else
      var s' := if snapshot.status.InputRequired? then Dispatch(s, snapshot.status.keys) else s;
      var phase := if s.waiters[w].accepted && s.active then Sleeping else Polling;
      SetWaiter(s', w, s.waiters[w].(phase := phase, seen := s.version))
  }

  /** A read is looked at unless something newer crossed it. */
  predicate Looks(s: State, w: nat, snapshot: Snapshot)
    requires w < |s.waiters|
  {
    s.version == s.waiters[w].seen || s.latest.None? || snapshot.time > s.latest.value.time
  }

  /** A read is taken in unless something newer crossed it, and is then reported to the waiter that read. */
  function ReadTaken(s: State, w: nat, snapshot: Snapshot): (r: State)
    requires w < |s.waiters|
    ensures r.latest.Some? && (r.latest == s.latest || (IsNews(s, snapshot) && r.latest == Some(snapshot)))
    ensures |r.waiters| == |s.waiters|
  {
    if Looks(s, w, snapshot) && IsNews(s, snapshot) then
      var s' := Observe(s, snapshot);
      SetWaiter(s', w, Notify(s'.waiters[w], snapshot.time))
    else s
  }

  function AfterRead(s: State, w: nat, snapshot: Snapshot): (r: State)
    requires Enabled(s, Got(w, snapshot))
    ensures r.latest == s.latest || (IsNews(s, snapshot) && r.latest == Some(snapshot))
  {
    var s' := ReadTaken(s, w, snapshot);
    Act(s', w, if s'.latest.Some? then s'.latest.value else snapshot)
  }

  function Continued(s: State, w: nat): State
    requires Enabled(s, Continue(w))
  {
    if s.waiters[w].phase.elapsed || s.latest.None? then
      SetWaiter(s, w, s.waiters[w].(phase := Getting, seen := s.version))
    else Act(s, w, s.latest.value)
  }

  function SetChain(s: State, k: Key, c: Chain): State {
    s.(chains := s.chains[k := c])
  }

  /** The signal a handler was given is aborted. */
  predicate Withdrawn(s: State, k: Key) {
    s.released || k in s.aborted
  }

  function InputFailed(s: State, k: Key): State {
    var s' := SetChain(s.(inFlight := s.inFlight - {k}), k, Ended);
    if Withdrawn(s, k) then s' else Wake(s'.(inputError := true))
  }

  function Answered(s: State, k: Key): State {
    var s' := s.(inFlight := s.inFlight - {k});
    if Withdrawn(s, k) || k !in s.inputs then SetChain(s', k, Ended)
    else SetChain(s', k, Updating).(updates := s.updates + [k])
  }

  function Step(s: State, a: Action): State
    requires Enabled(s, a)
  {
    match a
    case Acquire => s.(waiters := s.waiters + [Waiter(Acking, false, 0, None, [])])
    case AckFrame(accepted) =>
      if s.acknowledged.Some? then s else s.(acknowledged := Some(accepted), active := accepted)
    case StreamSettles => Wake(s.(active := false, acknowledged := Some(s.acknowledged.GetOr(false))))
    case Push(snapshot) => Pushed(s, snapshot)
    case AckSeen(w) =>
      SetWaiter(s, w, s.waiters[w].(phase := Getting, accepted := s.acknowledged.value, seen := s.version))
    case Got(w, snapshot) => AfterRead(s, w, snapshot)
    case Expire(w) => SetWaiter(s, w, s.waiters[w].(phase := Woken(true)))
    case PollElapsed(w) => SetWaiter(s, w, s.waiters[w].(phase := Woken(true)))
    case Continue(w) => Continued(s, w)
    case Leave(w) => Finish(s, w, Interrupted)
    case Fulfilled(k) => Answered(s, k)
    case UpdateDone(k) => SetChain(s, k, Ended)
    case UpdateUnknown(k) => SetChain(s, k, Rereading)
    case Reread(k, snapshot) =>
      if k in InputsOf(Some(snapshot)) then InputFailed(s, k) else SetChain(Observe(s, snapshot), k, Ended)
    case ChainFails(k) => InputFailed(s, k)
  }

  predicate Possible(s: State, actions: seq<Action>)
    decreases |actions|
  {
    actions == [] || (Enabled(s, actions[0]) && Possible(Step(s, actions[0]), actions[1..]))
  }

  function Run(s: State, actions: seq<Action>): State
    requires Possible(s, actions)
    decreases |actions|
  {
    if actions == [] then s else Run(Step(s, actions[0]), actions[1..])
  }

  /** The step of an action that can happen. */
  function Advance(s: State, a: Action): Option<State> {
    if Enabled(s, a) then Some(Step(s, a)) else None
  }

  lemma {:induction false} HistoryIsRun(s: State, log: seq<Action>, now: State)
    requires H.History(Advance, s, log, now)
    ensures Possible(s, log) && Run(s, log) == now
    decreases |log|
  {
    H.HistoryFirst(Advance, s, log, now);
    if log != [] { HistoryIsRun(Step(s, log[0]), log[1..], now); }
  }

  // ----- The invariant

  ghost predicate Ascending(s: seq<int>) {
    forall i, j :: 0 <= i < j < |s| ==> s[i] < s[j]
  }

  ghost predicate Distinct(s: seq<Key>) {
    forall i, j :: 0 <= i < j < |s| ==> s[i] != s[j]
  }

  /** A sleeper has seen the entry as it is; what was reported increases and is no newer than the entry. */
  ghost predicate WaiterAt(s: State, i: nat)
    requires i < |s.waiters|
  {
    var w := s.waiters[i];
    && (w.phase.Sleeping? ==> w.seen == s.version && s.active && !s.inputError)
    && Ascending(w.reports)
    && (w.reported.None? <==> w.reports == [])
    && (w.reported.Some? ==> w.reported.value == w.reports[|w.reports| - 1]
                             && s.latest.Some? && w.reported.value <= s.latest.value.time)
    && (s.released ==> w.phase.Done?)
    && (w.phase.Done? && w.phase.outcome.Terminal? ==>
          var x := w.phase.outcome.snapshot;
          IsTerminal(x) && s.latest.Some? && (s.latest.value == x || s.latest.value.time > x.time))
  }

  ghost predicate KeyAt(s: State, k: Key) {
    && (k in s.chains <==> k in s.dispatched) && (k in s.dispatched <==> k in s.dispatches)
    && (k in s.inFlight <==> ChainIs(s, k, Fulfilling))
    && (k in s.aborted ==> k in s.dispatched)
    && (k in s.inFlight && k !in s.aborted ==> k in s.inputs)
    && (k in s.updates ==> k in s.chains && !s.chains[k].Fulfilling?)
  }

  ghost predicate Inputs(s: State) {
    && s.inputs == InputsOf(s.latest)
    && Distinct(s.dispatches) && Distinct(s.updates)
    && forall k :: KeyAt(s, k)
  }

  ghost predicate Waiters(s: State) {
    forall i: nat :: i < |s.waiters| ==> WaiterAt(s, i)
  }

  ghost predicate Inv(s: State) {
    Inputs(s) && Waiters(s) && (s.acknowledged.None? ==> !s.active)
  }

  lemma DistinctSnoc(s: seq<Key>, k: Key)
    requires Distinct(s) && k !in s
    ensures Distinct(s + [k])
  {
  }

  lemma ObserveKeeps(s: State, snapshot: Snapshot)
    requires Inv(s)
    ensures Inv(Observe(s, snapshot))
  {
    var s' := Observe(s, snapshot);
    forall k ensures KeyAt(s', k) { assert KeyAt(s, k); }
    forall i: nat | i < |s'.waiters| ensures WaiterAt(s', i) { assert WaiterAt(s, i); }
  }

  lemma PushKeeps(s: State, snapshot: Snapshot)
    requires Inv(s)
    ensures Inv(Pushed(s, snapshot))
  {
    if IsNews(s, snapshot) {
      ObserveKeeps(s, snapshot);
      var s1, s' := Observe(s, snapshot), Pushed(s, snapshot);
      forall k ensures KeyAt(s', k) { assert KeyAt(s1, k); }
      forall i: nat | i < |s'.waiters| ensures WaiterAt(s', i) { assert WaiterAt(s1, i); }
    }
  }

  lemma {:induction false} DispatchKeeps(s: State, order: seq<Key>)
    requires Inputs(s) && forall k :: k in order ==> k in s.inputs
    ensures Inputs(Dispatch(s, order))
    decreases |order|
  {
    if order != [] {
      var k := order[0];
      var s' := DispatchNext(s, k);
      assert KeyAt(s, k);
      if k !in s.dispatched { DistinctSnoc(s.dispatches, k); }
      forall u ensures KeyAt(s', u) { assert KeyAt(s, u); }
      DispatchKeeps(s', order[1..]);
    }
  }

  lemma FinishKeeps(s: State, w: nat, outcome: Outcome)
    requires Inv(s) && w < |s.waiters|
    requires outcome.Terminal? ==> IsTerminal(outcome.snapshot) && s.latest == Some(outcome.snapshot)
    ensures Inv(Finish(s, w, outcome))
  {
    var s' := Finish(s, w, outcome);
    forall k ensures KeyAt(s', k) { assert KeyAt(s, k); }
    forall i: nat | i < |s'.waiters| ensures WaiterAt(s', i) { assert WaiterAt(s, i); }
  }

  lemma ActKeeps(s: State, w: nat, snapshot: Snapshot)
    requires Inv(s) && w < |s.waiters| && s.latest == Some(snapshot) && !s.released
    ensures Inv(Act(s, w, snapshot))
  {
    if IsTerminal(snapshot) {
      FinishKeeps(s, w, Terminal(snapshot));
    } else if s.inputError {
      FinishKeeps(s, w, InputError);
    } else {
      var s1 := if snapshot.status.InputRequired? then Dispatch(s, snapshot.status.keys) else s;
      var s' := Act(s, w, snapshot);
      if snapshot.status.InputRequired? { DispatchKeeps(s, snapshot.status.keys); }
      forall k ensures KeyAt(s', k) { assert KeyAt(s1, k); }
      forall i: nat | i < |s'.waiters| ensures WaiterAt(s', i) { assert WaiterAt(s, i); }
    }
  }

  lemma NotifyKeeps(s: State, w: nat)
    requires Inv(s) && w < |s.waiters| && s.latest.Some?
    ensures Inv(SetWaiter(s, w, Notify(s.waiters[w], s.latest.value.time)))
  {
    var s' := SetWaiter(s, w, Notify(s.waiters[w], s.latest.value.time));
    forall k ensures KeyAt(s', k) { assert KeyAt(s, k); }
    forall i: nat | i < |s'.waiters| ensures WaiterAt(s', i) { assert WaiterAt(s, i); }
  }

  lemma ReadTakenKeeps(s: State, w: nat, snapshot: Snapshot)
    requires Inv(s) && w < |s.waiters| && !s.released
    ensures Inv(ReadTaken(s, w, snapshot))
  {
    ObserveKeeps(s, snapshot);
    if IsNews(s, snapshot) { NotifyKeeps(Observe(s, snapshot), w); }
  }

  lemma ReadKeeps(s: State, w: nat, snapshot: Snapshot)
    requires Inv(s) && Enabled(s, Got(w, snapshot))
    ensures Inv(AfterRead(s, w, snapshot))
  {
    assert WaiterAt(s, w);
    ReadTakenKeeps(s, w, snapshot);
    var s' := ReadTaken(s, w, snapshot);
    ActKeeps(s', w, s'.latest.value);
  }

  lemma MoveKeeps(s: State, w: nat, waiter: Waiter)
    requires Inv(s) && w < |s.waiters| && !s.released
    requires waiter.reported == s.waiters[w].reported && waiter.reports == s.waiters[w].reports
    requires waiter.phase.Getting? || waiter.phase.Woken?
    ensures Inv(SetWaiter(s, w, waiter))
  {
    var s' := SetWaiter(s, w, waiter);
    forall k ensures KeyAt(s', k) { assert KeyAt(s, k); }
    forall i: nat | i < |s'.waiters| ensures WaiterAt(s', i) { assert WaiterAt(s, i); }
  }

  lemma ContinueKeeps(s: State, w: nat)
    requires Inv(s) && Enabled(s, Continue(w))
    ensures Inv(Continued(s, w))
  {
    assert WaiterAt(s, w);
    if s.waiters[w].phase.elapsed || s.latest.None? {
      MoveKeeps(s, w, s.waiters[w].(phase := Getting, seen := s.version));
    } else {
      ActKeeps(s, w, s.latest.value);
    }
  }

  lemma FailedInputs(s: State, k: Key)
    requires Inv(s) && k in s.chains
    ensures Inputs(InputFailed(s, k))
  {
    var s' := InputFailed(s, k);
    forall u ensures KeyAt(s', u) { assert KeyAt(s, u); }
  }

  lemma FailedKeeps(s: State, k: Key)
    requires Inv(s) && k in s.chains
    ensures Inv(InputFailed(s, k))
  {
    FailedInputs(s, k);
    var s' := InputFailed(s, k);
    forall i: nat | i < |s'.waiters| ensures WaiterAt(s', i) { assert WaiterAt(s, i); }
  }

  lemma AnsweredInputs(s: State, k: Key)
    requires Inv(s) && ChainIs(s, k, Fulfilling)
    ensures Inputs(Answered(s, k))
  {
    var s' := Answered(s, k);
    assert KeyAt(s, k);
    DistinctSnoc(s.updates, k);
    forall u ensures KeyAt(s', u) { assert KeyAt(s, u); }
  }

  lemma AnsweredKeeps(s: State, k: Key)
    requires Inv(s) && ChainIs(s, k, Fulfilling)
    ensures Inv(Answered(s, k))
  {
    AnsweredInputs(s, k);
    var s' := Answered(s, k);
    forall i: nat | i < |s'.waiters| ensures WaiterAt(s', i) { assert WaiterAt(s, i); }
  }

  lemma ChainKeeps(s: State, k: Key, c: Chain)
    requires Inv(s) && k in s.chains && !s.chains[k].Fulfilling? && !c.Fulfilling?
    ensures Inv(SetChain(s, k, c))
  {
    var s' := SetChain(s, k, c);
    forall u ensures KeyAt(s', u) { assert KeyAt(s, u); }
    forall i: nat | i < |s'.waiters| ensures WaiterAt(s', i) { assert WaiterAt(s, i); }
  }

  lemma StreamKeeps(s: State, a: Action)
    requires Inv(s) && Enabled(s, a) && (a.Acquire? || a.AckFrame? || a.StreamSettles?)
    ensures Inv(Step(s, a))
  {
    var s' := Step(s, a);
    forall u ensures KeyAt(s', u) { assert KeyAt(s, u); }
    forall i: nat | i < |s'.waiters| ensures WaiterAt(s', i) { if i < |s.waiters| { assert WaiterAt(s, i); } }
  }

  lemma StepKeeps(s: State, a: Action)
    requires Inv(s) && Enabled(s, a)
    ensures Inv(Step(s, a))
  {
    match a
    case Push(snapshot) => PushKeeps(s, snapshot);
    case AckSeen(w) =>
      assert WaiterAt(s, w);
      MoveKeeps(s, w, s.waiters[w].(phase := Getting, accepted := s.acknowledged.value, seen := s.version));
    case Got(w, snapshot) => ReadKeeps(s, w, snapshot);
    case Expire(w) =>
      assert WaiterAt(s, w);
      MoveKeeps(s, w, s.waiters[w].(phase := Woken(true)));
    case PollElapsed(w) =>
      assert WaiterAt(s, w);
      MoveKeeps(s, w, s.waiters[w].(phase := Woken(true)));
    case Continue(w) => ContinueKeeps(s, w);
    case Leave(w) => FinishKeeps(s, w, Interrupted);
    case Fulfilled(k) => AnsweredKeeps(s, k);
    case UpdateDone(k) => ChainKeeps(s, k, Ended);
    case UpdateUnknown(k) => ChainKeeps(s, k, Rereading);
    case Reread(k, snapshot) =>
      if k in InputsOf(Some(snapshot)) {
        FailedKeeps(s, k);
      } else {
        ObserveKeeps(s, snapshot);
        ChainKeeps(Observe(s, snapshot), k, Ended);
      }
    case ChainFails(k) => FailedKeeps(s, k);
    case _ => StreamKeeps(s, a);
  }

  lemma {:induction false} RunKeeps(s: State, actions: seq<Action>)
    requires Inv(s) && Possible(s, actions)
    ensures Inv(Run(s, actions))
    decreases |actions|
  {
    if actions != [] {
      StepKeeps(s, actions[0]);
      RunKeeps(Step(s, actions[0]), actions[1..]);
    }
  }

  lemma InitialInv()
    ensures Inv(INITIAL)
  {
    forall k ensures KeyAt(INITIAL, k) { }
  }

  // ----- Snapshots and reports

  /** A later snapshot is the same or newer, and only a strictly newer one replaces a terminal one. */
  ghost predicate Advances(from: Option<Snapshot>, to: Option<Snapshot>) {
    from.Some? ==>
      && to.Some? && to.value.time >= from.value.time
      && (IsTerminal(from.value) ==> to == from || to.value.time > from.value.time)
  }

  lemma ObserveAdvances(s: State, snapshot: Snapshot)
    ensures Advances(s.latest, Observe(s, snapshot).latest)
  {
  }

  lemma ReadAdvances(s: State, w: nat, snapshot: Snapshot)
    requires Enabled(s, Got(w, snapshot))
    ensures Advances(s.latest, AfterRead(s, w, snapshot).latest)
  {
  }

  lemma StepAdvances(s: State, a: Action)
    requires Enabled(s, a)
    ensures Advances(s.latest, Step(s, a).latest)
  {
    match a
    case Push(snapshot) => ObserveAdvances(s, snapshot);
    case Got(w, snapshot) => ReadAdvances(s, w, snapshot);
    case Reread(_, snapshot) => ObserveAdvances(s, snapshot);
    case _ => assert Step(s, a).latest == s.latest;
  }

  /** Over any run the shared snapshot never goes back, whatever pushes and reads cross. */
  lemma {:induction false} LatestAdvances(s: State, actions: seq<Action>)
    requires Possible(s, actions)
    ensures Advances(s.latest, Run(s, actions).latest)
    decreases |actions|
  {
    if actions != [] {
      StepAdvances(s, actions[0]);
      LatestAdvances(Step(s, actions[0]), actions[1..]);
    }
  }

  /** Each waiter is told strictly newer statuses only, and what it returns was the shared snapshot. */
  lemma ReportsIncrease(actions: seq<Action>, i: nat)
    requires Possible(INITIAL, actions) && i < |Run(INITIAL, actions).waiters|
    ensures var s := Run(INITIAL, actions);
            var w := s.waiters[i];
            && Ascending(w.reports)
            && (forall k :: 0 <= k < |w.reports| ==> s.latest.Some? && w.reports[k] <= s.latest.value.time)
            && (w.phase.Done? && w.phase.outcome.Terminal? ==>
                  s.latest.Some? && IsTerminal(w.phase.outcome.snapshot)
                  && Advances(Some(w.phase.outcome.snapshot), s.latest))
  {
    InitialInv();
    RunKeeps(INITIAL, actions);
    assert WaiterAt(Run(INITIAL, actions), i);
  }

  /** A pushed status that is news is reported to every waiter still there, and leaves nobody asleep. */
  lemma NewsReachesEveryone(s: State, snapshot: Snapshot, i: nat)
    requires Inv(s) && IsNews(s, snapshot) && i < |s.waiters| && !s.waiters[i].phase.Done?
    ensures var s' := Step(s, Push(snapshot));
            && s'.latest == Some(snapshot) && s'.version > s.version
            && i < |s'.waiters| && s'.waiters[i].reported == Some(snapshot.time) && !s'.waiters[i].phase.Sleeping?
  {
    PushKeeps(s, snapshot);
    assert WaiterAt(s, i);
    assert WaiterAt(Step(s, Push(snapshot)), i);
  }

  lemma {:induction false} DispatchesAll(s: State, order: seq<Key>, k: Key)
    requires k in order || k in s.dispatched
    ensures k in Dispatch(s, order).dispatched
    decreases |order|
  {
    if order != [] {
      DispatchesAll(DispatchNext(s, order[0]), order[1..], k);
    }
  }

  /** A turn of a waiter's loop that does not read first: after a read, or woken by a change of the entry. */
  ghost predicate Turns(s: State, a: Action, w: nat) {
    match a
    case Got(u, _) => u == w
    case Continue(u) => u == w && PhaseOf(s, w, Woken(false)) && s.latest.Some?
    case _ => false
  }

  lemma ActGoesByLatest(s: State, w: nat, snapshot: Snapshot, k: Key)
    requires w < |s.waiters| && s.latest == Some(snapshot)
    ensures var s' := Act(s, w, snapshot);
            && w < |s'.waiters|
            && s'.waiters[w].phase == (if IsTerminal(snapshot) then Done(Terminal(snapshot))
                                       else if s.inputError then Done(InputError)
                                       else if s.waiters[w].accepted && s.active then Sleeping else Polling)
            && (k in InputsOf(s.latest) && !s.inputError ==> k in s'.dispatched)
  {
    if k in InputsOf(s.latest) { DispatchesAll(s, snapshot.status.keys, k); }
  }

  /**
   A turn goes by what is then the shared snapshot, whatever was read and whatever crossed the read: it ends the
   wait exactly on a terminal snapshot or a failed input, and otherwise leaves every listed input dispatched.
   */
  lemma TurnGoesByLatest(s: State, a: Action, w: nat, k: Key)
    requires Inv(s) && Enabled(s, a) && Turns(s, a, w)
    ensures var s' := Step(s, a);
            && s'.latest.Some? && w < |s'.waiters|
            && s'.waiters[w].phase == (if IsTerminal(s'.latest.value) then Done(Terminal(s'.latest.value))
                                       else if s.inputError then Done(InputError)
                                       else if s.waiters[w].accepted && s.active then Sleeping else Polling)
            && (k in InputsOf(s'.latest) && !s.inputError ==> k in s'.dispatched)
  {
    if a.Got? {
      var s' := ReadTaken(s, w, a.snapshot);
      ActGoesByLatest(s', w, s'.latest.value, k);
    } else {
      ActGoesByLatest(s, w, s.latest.value, k);
    }
  }

  /** Nobody sleeps through a change: a sleeper has seen the current version of a live, healthy entry. */
  lemma NoSleepThroughChange(actions: seq<Action>, i: nat)
    requires Possible(INITIAL, actions) && PhaseOf(Run(INITIAL, actions), i, Sleeping)
    ensures var s := Run(INITIAL, actions); s.waiters[i].seen == s.version && s.active && !s.inputError
  {
    InitialInv();
    RunKeeps(INITIAL, actions);
    assert WaiterAt(Run(INITIAL, actions), i);
  }

  // ----- Who is told what

  /** The waiter's last report is of the time the shared snapshot has. */
  ghost predicate UpToDate(s: State, i: nat) {
    i < |s.waiters| && s.latest.Some? && s.waiters[i].reported == Some(s.latest.value.time)
  }

  /** The step reports to the waiter: news is pushed while it is there, or its own read is taken in. */
  ghost predicate Told(s: State, a: Action, i: nat) {
    && i < |s.waiters|
    && match a
       case Push(snapshot) => IsNews(s, snapshot) && !s.waiters[i].phase.Done?
       case Got(w, snapshot) => w == i && Looks(s, w, snapshot) && IsNews(s, snapshot)
       case _ => false
  }

  lemma ActReports(s: State, w: nat, snapshot: Snapshot, i: nat)
    requires w < |s.waiters|
    ensures var s' := Act(s, w, snapshot);
            |s'.waiters| == |s.waiters| && (i < |s.waiters| ==> s'.waiters[i].reported == s.waiters[i].reported)
  {
  }

  lemma ReadReports(s: State, w: nat, snapshot: Snapshot, i: nat)
    requires Inv(s) && Enabled(s, Got(w, snapshot)) && i < |s.waiters|
    ensures var s' := AfterRead(s, w, snapshot);
            && |s'.waiters| == |s.waiters| && s'.latest == ReadTaken(s, w, snapshot).latest
            && s'.waiters[i].reported
               == if Told(s, Got(w, snapshot), i) then Some(snapshot.time) else s.waiters[i].reported
  {
    assert WaiterAt(s, i);
    var s' := ReadTaken(s, w, snapshot);
    ActReports(s', w, s'.latest.value, i);
  }

  lemma PushReports(s: State, snapshot: Snapshot, i: nat)
    requires Inv(s) && i < |s.waiters|
    ensures var s' := Pushed(s, snapshot);
            && |s'.waiters| == |s.waiters|
            && s'.waiters[i].reported
               == if Told(s, Push(snapshot), i) then Some(snapshot.time) else s.waiters[i].reported
  {
    assert WaiterAt(s, i);
  }

  lemma QuietReports(s: State, a: Action, i: nat)
    requires Enabled(s, a) && !a.Push? && !a.Got? && i < |s.waiters|
    ensures i < |Step(s, a).waiters| && Step(s, a).waiters[i].reported == s.waiters[i].reported
  {
    if a.Continue? && !s.waiters[a.waiter].phase.elapsed && s.latest.Some? {
      ActReports(s, a.waiter, s.latest.value, i);
    }
  }

  lemma StepReports(s: State, a: Action, i: nat)
    requires Inv(s) && Enabled(s, a) && i < |s.waiters|
    ensures i < |Step(s, a).waiters|
    ensures !Told(s, a, i) ==> Step(s, a).waiters[i].reported == s.waiters[i].reported
    ensures Told(s, a, i) ==> UpToDate(Step(s, a), i)
  {
    match a
    case Push(snapshot) => PushReports(s, snapshot, i);
    case Got(w, snapshot) => ReadReports(s, w, snapshot, i);
    case _ => QuietReports(s, a, i);
  }

  lemma AcquiredUntold(s: State, a: Action, i: nat)
    requires Enabled(s, a) && i >= |s.waiters|
    ensures !UpToDate(Step(s, a), i)
  {
    if a.Got? {
      ActReports(ReadTaken(s, a.waiter, a.snapshot), a.waiter, ReadTaken(s, a.waiter, a.snapshot).latest.value, i);
    } else if a.Continue? && !s.waiters[a.waiter].phase.elapsed && s.latest.Some? {
      ActReports(s, a.waiter, s.latest.value, i);
    }
  }

  lemma StepUpToDate(s: State, a: Action, i: nat)
    requires Inv(s) && Enabled(s, a)
    ensures UpToDate(Step(s, a), i)
            <==> Told(s, a, i) || (UpToDate(s, i) && Step(s, a).latest.value.time == s.latest.value.time)
  {
    StepAdvances(s, a);
    if i < |s.waiters| {
      assert WaiterAt(s, i);
      StepReports(s, a, i);
    } else {
      AcquiredUntold(s, a, i);
    }
  }

  /** Along the run the waiter is told a snapshot of this time. */
  ghost predicate ToldAt(s: State, actions: seq<Action>, i: nat, time: int)
    requires Possible(s, actions)
    decreases |actions|
  {
    actions != []
    && ((Told(s, actions[0], i) && Step(s, actions[0]).latest.value.time == time)
        || ToldAt(Step(s, actions[0]), actions[1..], i, time))
  }

  lemma {:induction false} UpToDateIffToldFrom(s: State, actions: seq<Action>, i: nat)
    requires Inv(s) && Possible(s, actions) && Run(s, actions).latest.Some?
    ensures var time := Run(s, actions).latest.value.time;
            UpToDate(Run(s, actions), i)
            <==> (UpToDate(s, i) && s.latest.value.time == time) || ToldAt(s, actions, i, time)
    decreases |actions|
  {
    if actions != [] {
      var s' := Step(s, actions[0]);
      StepKeeps(s, actions[0]);
      StepAdvances(s, actions[0]);
      LatestAdvances(s', actions[1..]);
      StepUpToDate(s, actions[0], i);
      UpToDateIffToldFrom(s', actions[1..], i);
    }
  }

  /**
   A waiter's last report is of the time the shared snapshot has if and only if it was told a snapshot of that time:
   it was there when that was pushed, or its own read was taken in. What another waiter's read brings it is not told.
   */
  lemma UpToDateIffTold(actions: seq<Action>, i: nat)
    requires Possible(INITIAL, actions) && Run(INITIAL, actions).latest.Some?
    ensures var s := Run(INITIAL, actions);
            UpToDate(s, i) <==> ToldAt(INITIAL, actions, i, s.latest.value.time)
  {
    InitialInv();
    UpToDateIffToldFrom(INITIAL, actions, i);
  }

  // ----- Inputs

  /** Each input is dispatched and answered at most once, and a handler still wanted serves a current input. */
  lemma InputsDispatchedOnce(actions: seq<Action>)
    requires Possible(INITIAL, actions)
    ensures var s := Run(INITIAL, actions);
            && Distinct(s.dispatches) && Distinct(s.updates)
            && (forall k :: k in s.updates ==> k in s.dispatches)
            && (forall k :: k in s.inFlight && k !in s.aborted ==> k in InputsOf(s.latest))
  {
    InitialInv();
    RunKeeps(INITIAL, actions);
    var s := Run(INITIAL, actions);
    forall k ensures k in s.updates ==> k in s.dispatches
             ensures k in s.inFlight && k !in s.aborted ==> k in InputsOf(s.latest)
    {
      assert KeyAt(s, k);
    }
  }

  /** What steps do to inputs dispatched before: only their own chains take them out of flight. */
  ghost predicate InputsKept(s: State, r: State) {
    && s.aborted <= r.aborted && s.dispatched <= r.dispatched && (s.released ==> r.released)
    && r.inFlight * s.dispatched <= s.inFlight && r.dispatched <= s.dispatched + r.inFlight
  }

  lemma {:induction false} DispatchFrame(s: State, order: seq<Key>)
    ensures InputsKept(s, Dispatch(s, order)) && s.inFlight <= Dispatch(s, order).inFlight
    decreases |order|
  {
    if order != [] {
      var next := DispatchNext(s, order[0]);
      assert InputsKept(s, next);
      DispatchFrame(next, order[1..]);
      forall k | k in Dispatch(s, order).inFlight && k in s.dispatched ensures k in s.inFlight {
        assert k in next.dispatched;
      }
    }
  }

  lemma ActFrame(s: State, w: nat, snapshot: Snapshot)
    requires w < |s.waiters|
    ensures InputsKept(s, Act(s, w, snapshot)) && Act(s, w, snapshot).aborted == s.aborted
    ensures Act(s, w, snapshot).updates == s.updates
  {
    if snapshot.status.InputRequired? { DispatchFrame(s, snapshot.status.keys); }
  }

  lemma ReadFrame(s: State, w: nat, snapshot: Snapshot)
    requires Enabled(s, Got(w, snapshot))
    ensures InputsKept(s, AfterRead(s, w, snapshot)) && AfterRead(s, w, snapshot).updates == s.updates
    ensures AfterRead(s, w, snapshot).aborted == ReadTaken(s, w, snapshot).aborted
  {
    var s' := ReadTaken(s, w, snapshot);
    assert InputsKept(s, s') && s'.dispatched == s.dispatched && s'.inFlight == s.inFlight;
    ActFrame(s', w, s'.latest.value);
  }

  lemma TurnFrame(s: State, w: nat)
    requires Enabled(s, Continue(w))
    ensures InputsKept(s, Continued(s, w)) && Continued(s, w).updates == s.updates
    ensures Continued(s, w).aborted == s.aborted && Continued(s, w).latest == s.latest
  {
    if !s.waiters[w].phase.elapsed && s.latest.Some? { ActFrame(s, w, s.latest.value); }
  }

  /** The only step that sends an answer is a handler that fulfils while its signal is not aborted. */
  ghost predicate Sends(s: State, a: Action, k: Key) {
    a == Fulfilled(k) && !Withdrawn(s, k)
  }

  lemma ChainFrame(s: State, k: Key)
    ensures InputsKept(s, InputFailed(s, k)) && InputFailed(s, k).updates == s.updates
    ensures InputsKept(s, Answered(s, k))
    ensures Answered(s, k).updates == if Withdrawn(s, k) || k !in s.inputs then s.updates else s.updates + [k]
  {
  }

  lemma SnapshotFrame(s: State, snapshot: Snapshot)
    ensures InputsKept(s, Observe(s, snapshot)) && Observe(s, snapshot).updates == s.updates
    ensures InputsKept(s, Pushed(s, snapshot)) && Pushed(s, snapshot).updates == s.updates
  {
  }

  lemma StepFrame(s: State, a: Action)
    requires Enabled(s, a)
    ensures InputsKept(s, Step(s, a))
    ensures Step(s, a).updates == s.updates
            || (a.Fulfilled? && Sends(s, a, a.key) && Step(s, a).updates == s.updates + [a.key])
  {
    match a
    case Push(snapshot) => SnapshotFrame(s, snapshot);
    case Got(w, snapshot) => ReadFrame(s, w, snapshot);
    case Continue(w) => TurnFrame(s, w);
    case Fulfilled(k) => ChainFrame(s, k);
    case Reread(k, snapshot) =>
      ChainFrame(s, k);
      SnapshotFrame(s, snapshot);
    case ChainFails(k) => ChainFrame(s, k);
    case _ =>
  }

  /** A handler whose input was withdrawn, or whose entry was released, before it answered never sends its answer. */
  lemma {:induction false} WithdrawnNeverAnswers(s: State, k: Key, actions: seq<Action>)
    requires Possible(s, actions) && k !in s.updates && Withdrawn(s, k)
    ensures k !in Run(s, actions).updates
    decreases |actions|
  {
    if actions != [] {
      StepFrame(s, actions[0]);
      WithdrawnNeverAnswers(Step(s, actions[0]), k, actions[1..]);
    }
  }

  /** A step that dispatches an input leaves it in flight, wanted and listed. */
  lemma DispatchedInFlight(s: State, a: Action, k: Key)
    requires Inv(s) && Enabled(s, a) && k !in s.dispatched && k in Step(s, a).dispatched
    ensures var s' := Step(s, a); k in s'.inFlight && k !in s'.aborted && k in InputsOf(s'.latest)
  {
    assert KeyAt(s, k);
    StepFrame(s, a);
    if a.Got? {
      ReadFrame(s, a.waiter, a.snapshot);
    } else if a.Continue? {
      TurnFrame(s, a.waiter);
    }
    StepKeeps(s, a);
    assert KeyAt(Step(s, a), k);
  }

  lemma ObserveAborts(s: State, snapshot: Snapshot, k: Key)
    requires Inv(s) && k in s.inFlight && k !in s.aborted
    ensures var s' := Observe(s, snapshot); k in s'.aborted <==> k !in InputsOf(s'.latest)
  {
    assert KeyAt(s, k);
  }

  lemma ReadAborts(s: State, w: nat, snapshot: Snapshot, k: Key)
    requires Inv(s) && Enabled(s, Got(w, snapshot)) && k in s.inFlight && k !in s.aborted
    ensures var s' := AfterRead(s, w, snapshot); k in s'.aborted <==> k !in InputsOf(s'.latest)
  {
    assert KeyAt(s, k);
    ObserveAborts(s, snapshot, k);
    ReadFrame(s, w, snapshot);
  }

  lemma SameSnapshot(s: State, a: Action)
    requires Enabled(s, a) && !a.Push? && !a.Got? && !a.Reread? && !a.Continue?
    ensures Step(s, a).latest == s.latest && Step(s, a).aborted == s.aborted
  {
    match a
    case Leave(w) => assert Finish(s, w, Interrupted).latest == s.latest;
    case Fulfilled(k) => assert Answered(s, k).aborted == s.aborted;
    case ChainFails(k) => assert InputFailed(s, k).aborted == s.aborted;
    case StreamSettles =>
    case _ =>
  }

  /** While its handler runs, an input is aborted by exactly the snapshots that do not list it, pushed or read. */
  lemma AbortedIffUnlisted(s: State, a: Action, k: Key)
    requires Inv(s) && Enabled(s, a) && k in s.inFlight && k !in s.aborted
    ensures k in Step(s, a).aborted <==> k !in InputsOf(Step(s, a).latest)
  {
    assert KeyAt(s, k);
    match a
    case Push(snapshot) => ObserveAborts(s, snapshot, k);
    case Got(w, snapshot) => ReadAborts(s, w, snapshot, k);
    case Continue(w) => TurnFrame(s, w);
    case Reread(_, snapshot) => ObserveAborts(s, snapshot, k);
    case _ => SameSnapshot(s, a);
  }

  /**
   A snapshot without an input in flight, pushed or read, withdraws it: listed again or not, its answer is never sent.
   */
  lemma UnlistedIsNeverAnswered(s: State, a: Action, k: Key, actions: seq<Action>)
    requires Inv(s) && Enabled(s, a) && k in s.inFlight && k in Step(s, a).inFlight
    requires k !in InputsOf(Step(s, a).latest) && Possible(Step(s, a), actions)
    ensures k !in Run(Step(s, a), actions).updates
  {
    if k !in s.aborted { AbortedIffUnlisted(s, a, k); }
    StepFrame(s, a);
    StepKeeps(s, a);
    assert KeyAt(Step(s, a), k);
    WithdrawnNeverAnswers(Step(s, a), k, actions);
  }

  /** An answer is sent exactly if the entry is not released and the input has not been aborted. */
  lemma AnswersUnlessWithdrawn(s: State, k: Key)
    requires Inv(s) && Enabled(s, Fulfilled(k))
    ensures k in Step(s, Fulfilled(k)).updates <==> !s.released && k !in s.aborted
  {
    assert KeyAt(s, k);
  }

  lemma SettledStep(s: State, a: Action, k: Key)
    requires Inv(s) && Enabled(s, a) && k in s.dispatched && k !in s.inFlight
    ensures k in Step(s, a).updates <==> k in s.updates
    ensures k in Step(s, a).dispatched && k !in Step(s, a).inFlight
  {
    assert KeyAt(s, k);
    StepFrame(s, a);
  }

  /** Once a handler has settled, whether its answer was sent never changes. */
  lemma {:induction false} AnswerIsFinal(s: State, k: Key, actions: seq<Action>)
    requires Inv(s) && Possible(s, actions) && k in s.dispatched && k !in s.inFlight
    ensures k in Run(s, actions).updates <==> k in s.updates
    decreases |actions|
  {
    if actions != [] {
      SettledStep(s, actions[0], k);
      StepKeeps(s, actions[0]);
      AnswerIsFinal(Step(s, actions[0]), k, actions[1..]);
    }
  }

  /** Every snapshot the entry has along the run lists the input. */
  ghost predicate ListedThroughout(s: State, actions: seq<Action>, k: Key)
    requires Possible(s, actions)
    decreases |actions|
  {
    k in InputsOf(s.latest) && (actions == [] || ListedThroughout(Step(s, actions[0]), actions[1..], k))
  }

  lemma {:induction false} InFlightBefore(s: State, actions: seq<Action>, k: Key)
    requires Inv(s) && Possible(s, actions) && k in s.dispatched && k in Run(s, actions).inFlight
    ensures k in s.inFlight
    decreases |actions|
  {
    if actions != [] {
      StepKeeps(s, actions[0]);
      StepFrame(s, actions[0]);
      InFlightBefore(Step(s, actions[0]), actions[1..], k);
    }
  }

  lemma {:induction false} WantedIffListed(s: State, actions: seq<Action>, k: Key)
    requires Inv(s) && Possible(s, actions) && k in s.inFlight && k in Run(s, actions).inFlight
    requires k in InputsOf(s.latest) || k in s.aborted
    ensures k !in Run(s, actions).aborted <==> k !in s.aborted && ListedThroughout(s, actions, k)
    decreases |actions|
  {
    if actions != [] {
      var s' := Step(s, actions[0]);
      StepKeeps(s, actions[0]);
      assert KeyAt(s, k);
      StepFrame(s, actions[0]);
      InFlightBefore(s', actions[1..], k);
      if k !in s.aborted { AbortedIffUnlisted(s, actions[0], k); }
      WantedIffListed(s', actions[1..], k);
    }
  }

  /**
   When the handler of an input fulfils, its answer is sent if and only if the entry has not been released and
   every snapshot since the input was dispatched has listed it. This then stays so, whatever follows.
   */
  lemma AnsweredIffListedThroughout(s: State, a: Action, actions: seq<Action>, k: Key, rest: seq<Action>)
    requires Inv(s) && Enabled(s, a) && k !in s.dispatched && k in Step(s, a).dispatched
    requires Possible(Step(s, a), actions) && Enabled(Run(Step(s, a), actions), Fulfilled(k))
    requires Possible(Step(Run(Step(s, a), actions), Fulfilled(k)), rest)
    ensures var s' := Run(Step(s, a), actions);
            k in Run(Step(s', Fulfilled(k)), rest).updates
            <==> !s'.released && ListedThroughout(Step(s, a), actions, k)
  {
    var s0 := Step(s, a);
    var s' := Run(s0, actions);
    DispatchedInFlight(s, a, k);
    StepKeeps(s, a);
    RunKeeps(s0, actions);
    assert KeyAt(s', k);
    WantedIffListed(s0, actions, k);
    AnswersUnlessWithdrawn(s', k);
    StepKeeps(s', Fulfilled(k));
    AnswerIsFinal(Step(s', Fulfilled(k)), k, rest);
  }

  // ----- The run that forgets a withdrawn input

  lemma RunFirst(s: State, a: Action, rest: seq<Action>)
    requires Enabled(s, a) && Possible(Step(s, a), rest)
    ensures Possible(s, [a] + rest) && Run(s, [a] + rest) == Run(Step(s, a), rest)
  {
    assert ([a] + rest)[1..] == rest;
  }

  function Asking(time: int, k: Key): Snapshot {
    Snapshot(time, InputRequired([k]), None)
  }

  /** One waiter has read that input `k` is required, and its handler is running. */
  function Asked(k: Key): State {
    State(Some(Asking(1, k)), 1, true, Some(true), false, {k}, {k}, {k}, {}, map[k := Fulfilling],
          [Waiter(Sleeping, true, 1, Some(1), [1])], false, [k], [])
  }

  /** Before that: the waiter is reading the task. */
  function Reading(): State {
    State(None, 0, true, Some(true), false, {}, {}, {}, {}, map[], [Waiter(Getting, true, 0, None, [])], false, [], [])
  }

  lemma ReachesReading(rest: seq<Action>)
    requires Possible(Reading(), rest)
    ensures var actions := [Acquire] + ([AckFrame(true)] + ([AckSeen(0)] + rest));
            Possible(INITIAL, actions) && Run(INITIAL, actions) == Run(Reading(), rest)
  {
    var s1 := INITIAL.(waiters := [Waiter(Acking, false, 0, None, [])]);
    assert Step(INITIAL, Acquire) == s1;
    var s2 := s1.(acknowledged := Some(true), active := true);
    assert Step(s1, AckFrame(true)) == s2;
    assert Step(s2, AckSeen(0)) == Reading();
    RunFirst(s2, AckSeen(0), rest);
    RunFirst(s1, AckFrame(true), [AckSeen(0)] + rest);
    RunFirst(INITIAL, Acquire, [AckFrame(true)] + ([AckSeen(0)] + rest));
  }

  lemma ReadAsks(k: Key)
    ensures Step(Reading(), Got(0, Asking(1, k))) == Asked(k)
  {
    var s, x := Reading(), Asking(1, k);
    var s' := s.(latest := Some(x), version := 1, inputs := {k}, waiters := [Waiter(Getting, true, 0, Some(1), [1])]);
    assert InputsOf(Some(x)) == {k};
    assert WakeAll(s.waiters) == s.waiters;
    assert Observe(s, x).aborted == {};
    assert Observe(s, x).inputs == {k};
    assert Observe(s, x) == s.(latest := Some(x), version := 1, inputs := {k});
    assert [] + [1] == [1];
    assert ReadTaken(s, 0, x) == s';
    assert Dispatch(s', [k]) == DispatchNext(s', k);
  }

  /** The input is withdrawn, asked for again, and then its handler fulfils. */
  function WithdrawnAndAskedAgain(k: Key): seq<Action> {
    [Push(Snapshot(2, Working, None))] + ([Push(Asking(3, k))] + [Fulfilled(k)])
  }

  function AskedAgain(k: Key): State {
    State(Some(Asking(3, k)), 3, true, Some(true), false, {k}, {k}, {}, {k}, map[k := Ended],
          [Waiter(Woken(false), true, 1, Some(3), [1, 2, 3])], false, [k], [])
  }

  lemma PushWakes(s: State, snapshot: Snapshot, reports: seq<int>)
    requires IsNews(s, snapshot) && |s.waiters| == 1 && (PhaseOf(s, 0, Sleeping) || PhaseOf(s, 0, Woken(false)))
    requires s.waiters[0].reports == reports
    requires s.waiters[0].reported.Some? && s.waiters[0].reported.value < snapshot.time
    ensures Pushed(s, snapshot).waiters
            == [s.waiters[0].(phase := Woken(false), reported := Some(snapshot.time),
                              reports := reports + [snapshot.time])]
  {
  }

  /** The input is withdrawn while its handler runs. */
  function Unasked(k: Key): State {
    Asked(k).(latest := Some(Snapshot(2, Working, None)), version := 2, inputs := {}, aborted := {k},
              waiters := [Waiter(Woken(false), true, 1, Some(2), [1, 2])])
  }

  lemma PushUnasks(k: Key)
    ensures Step(Asked(k), Push(Snapshot(2, Working, None))) == Unasked(k)
  {
    var s, x := Asked(k), Snapshot(2, Working, None);
    PushWakes(s, x, [1]);
    assert InputsOf(Some(x)) == {};
    assert Observe(s, x).aborted == {k};
    assert [1] + [2] == [1, 2];
  }

  lemma PushAsksAgain(k: Key)
    ensures Step(Unasked(k), Push(Asking(3, k))) == AskedAgain(k).(inFlight := {k}, chains := map[k := Fulfilling])
  {
    var s, x := Unasked(k), Asking(3, k);
    PushWakes(s, x, [1, 2]);
    assert [1, 2] + [3] == [1, 2, 3];
    assert InputsOf(Some(x)) == {k};
    assert Observe(s, x).aborted == {k};
  }

  lemma ReachesAskedAgain(k: Key)
    ensures Possible(Asked(k), WithdrawnAndAskedAgain(k)) && Run(Asked(k), WithdrawnAndAskedAgain(k)) == AskedAgain(k)
  {
    var s := AskedAgain(k).(inFlight := {k}, chains := map[k := Fulfilling]);
    PushUnasks(k);
    PushAsksAgain(k);
    assert Step(s, Fulfilled(k)) == AskedAgain(k);
    RunFirst(s, Fulfilled(k), []);
    RunFirst(Unasked(k), Push(Asking(3, k)), [Fulfilled(k)]);
    RunFirst(Asked(k), Push(Snapshot(2, Working, None)), [Push(Asking(3, k))] + [Fulfilled(k)]);
  }

  /** The whole run, from a new entry. */
  function ForgettingRun(k: Key): seq<Action> {
    [Acquire] + ([AckFrame(true)] + ([AckSeen(0)] + ([Got(0, Asking(1, k))] + WithdrawnAndAskedAgain(k))))
  }

  lemma ForgettingRunReaches(k: Key)
    ensures Possible(INITIAL, ForgettingRun(k)) && Run(INITIAL, ForgettingRun(k)) == AskedAgain(k)
  {
    ReadAsks(k);
    ReachesAskedAgain(k);
    RunFirst(Reading(), Got(0, Asking(1, k)), WithdrawnAndAskedAgain(k));
    ReachesReading([Got(0, Asking(1, k))] + WithdrawnAndAskedAgain(k));
  }

  lemma AskedAgainInv(k: Key)
    ensures Inv(AskedAgain(k))
  {
    forall u ensures KeyAt(AskedAgain(k), u) { }
  }

  lemma {:induction false} DispatchedForGood(s: State, k: Key, actions: seq<Action>)
    requires Inv(s) && Possible(s, actions) && k in s.dispatched
    ensures k in Run(s, actions).dispatches
    decreases |actions|
  {
    if actions == [] {
      assert KeyAt(s, k);
    } else {
      StepKeeps(s, actions[0]);
      StepFrame(s, actions[0]);
      DispatchedForGood(Step(s, actions[0]), k, actions[1..]);
    }
  }

  /**
   A withdrawn input is not asked for again: from a new entry, an input is dispatched, withdrawn and listed again,
   and its handler fulfils while it is listed; yet its answer is never sent and no other handler is started for it.
   */
  lemma WithdrawnInputIsForgotten(k: Key)
    ensures Possible(INITIAL, ForgettingRun(k)) && Run(INITIAL, ForgettingRun(k)) == AskedAgain(k)
    ensures Fulfilled(k) in ForgettingRun(k) && k in InputsOf(AskedAgain(k).latest) && !AskedAgain(k).released
    ensures forall rest :: Possible(AskedAgain(k), rest) ==>
              k !in Run(AskedAgain(k), rest).updates && Distinct(Run(AskedAgain(k), rest).dispatches)
              && k in Run(AskedAgain(k), rest).dispatches
  {
    ForgettingRunReaches(k);
    var s := AskedAgain(k);
    assert k in InputsOf(s.latest);
    AskedAgainInv(k);
    forall rest | Possible(s, rest)
      ensures k !in Run(s, rest).updates && Distinct(Run(s, rest).dispatches) && k in Run(s, rest).dispatches
    {
      AnswerIsFinal(s, k, rest);
      RunKeeps(s, rest);
      DispatchedForGood(s, k, rest);
    }
  }

  // ----- The run in which a waiter returns what it was never told

  const BUSY := Snapshot(1, Working, None)
  const FINISHED := Snapshot(2, Completed, None)

  /** Waiter 1 has read the task and sleeps; waiter 0 is reading it. */
  const ONE_READS := State(Some(BUSY), 1, true, Some(true), false, {}, {}, {}, {}, map[],
                           [Waiter(Getting, true, 1, None, []), Waiter(Sleeping, true, 1, Some(1), [1])], false, [], [])

  lemma ReachesOneReads(rest: seq<Action>)
    requires Possible(ONE_READS, rest)
    ensures var actions := [Acquire] + ([Acquire] + ([AckFrame(true)] + ([AckSeen(1)] + ([Got(1, BUSY)]
                             + ([AckSeen(0)] + rest)))));
            Possible(INITIAL, actions) && Run(INITIAL, actions) == Run(ONE_READS, rest)
  {
    var idle := Waiter(Acking, false, 0, None, []);
    var s1, s2 := INITIAL.(waiters := [idle]), INITIAL.(waiters := [idle, idle]);
    assert Step(INITIAL, Acquire) == s1;
    assert Step(s1, Acquire) == s2;
    var s3 := s2.(acknowledged := Some(true), active := true);
    assert Step(s2, AckFrame(true)) == s3;
    var s4 := s3.(waiters := [idle, Waiter(Getting, true, 0, None, [])]);
    assert Step(s3, AckSeen(1)) == s4;
    var s5 := ONE_READS.(waiters := [idle, Waiter(Sleeping, true, 1, Some(1), [1])]);
    FirstReadTaken(s4, idle);
    assert Step(s4, Got(1, BUSY)) == s5;
    assert Step(s5, AckSeen(0)) == ONE_READS;
    RunFirst(s5, AckSeen(0), rest);
    RunFirst(s4, Got(1, BUSY), [AckSeen(0)] + rest);
    RunFirst(s3, AckSeen(1), [Got(1, BUSY)] + ([AckSeen(0)] + rest));
    RunFirst(s2, AckFrame(true), [AckSeen(1)] + ([Got(1, BUSY)] + ([AckSeen(0)] + rest)));
    RunFirst(s1, Acquire, [AckFrame(true)] + ([AckSeen(1)] + ([Got(1, BUSY)] + ([AckSeen(0)] + rest))));
    RunFirst(INITIAL, Acquire,
             [Acquire] + ([AckFrame(true)] + ([AckSeen(1)] + ([Got(1, BUSY)] + ([AckSeen(0)] + rest)))));
  }

  lemma FirstReadTaken(s: State, idle: Waiter)
    requires idle == Waiter(Acking, false, 0, None, [])
    requires s == State(None, 0, true, Some(true), false, {}, {}, {}, {}, map[],
                        [idle, Waiter(Getting, true, 0, None, [])], false, [], [])
    ensures ReadTaken(s, 1, BUSY)
            == s.(latest := Some(BUSY), version := 1, waiters := [idle, Waiter(Getting, true, 0, Some(1), [1])])
  {
    assert WakeAll(s.waiters) == s.waiters;
    assert InputsOf(Some(BUSY)) == {};
    assert Observe(s, BUSY).aborted == {};
    assert [] + [1] == [1];
  }

  /** Waiter 0 has read that the task is finished and has left; waiter 1 is woken. */
  function OneLeft(): State {
    ONE_READS.(latest := Some(FINISHED), version := 2,
               waiters := [Waiter(Done(Terminal(FINISHED)), true, 1, Some(2), [2]),
                           Waiter(Woken(false), true, 1, Some(1), [1])])
  }

  lemma LastReadTaken()
    ensures Step(ONE_READS, Got(0, FINISHED)) == OneLeft()
  {
    var s := ONE_READS;
    var woken := [s.waiters[0], s.waiters[1].(phase := Woken(false))];
    assert WakeAll(s.waiters) == woken;
    assert InputsOf(Some(FINISHED)) == {};
    assert Observe(s, FINISHED).aborted == {};
    assert [] + [2] == [2];
    var taken := s.(latest := Some(FINISHED), version := 2,
                    waiters := [Waiter(Getting, true, 1, Some(2), [2]), Waiter(Woken(false), true, 1, Some(1), [1])]);
    assert ReadTaken(s, 0, FINISHED) == taken;
    assert taken.waiters[0 := OneLeft().waiters[0]] == OneLeft().waiters;
    assert !OneLeft().waiters[1].phase.Done?;
  }

  /** Both waiters have returned the result, and waiter 1 was last told that the task was working. */
  function BothLeft(): State {
    OneLeft().(waiters := [OneLeft().waiters[0], Waiter(Done(Terminal(FINISHED)), true, 1, Some(1), [1])],
               released := true)
  }

  function UntoldRun(): seq<Action> {
    [Acquire] + ([Acquire] + ([AckFrame(true)] + ([AckSeen(1)] + ([Got(1, BUSY)]
      + ([AckSeen(0)] + ([Got(0, FINISHED)] + [Continue(1)]))))))
  }

  lemma WokenLeaves()
    ensures Enabled(OneLeft(), Continue(1)) && Step(OneLeft(), Continue(1)) == BothLeft()
  {
    assert OneLeft().waiters[1 := BothLeft().waiters[1]] == BothLeft().waiters;
  }

  /** The read of one waiter ends the wait of another, which returns the result without having been told of it. */
  lemma ReturnsUntold()
    ensures Possible(INITIAL, UntoldRun()) && Run(INITIAL, UntoldRun()) == BothLeft()
    ensures !UpToDate(BothLeft(), 1) && UpToDate(BothLeft(), 0)
  {
    LastReadTaken();
    WokenLeaves();
    RunFirst(OneLeft(), Continue(1), []);
    RunFirst(ONE_READS, Got(0, FINISHED), [Continue(1)]);
    ReachesOneReads([Got(0, FINISHED)] + [Continue(1)]);
  }

  // ----- The entry as a class

  class Entry {
    var latest: Option<Snapshot>
    var version: nat
    var active: bool
    var acknowledged: Option<bool>
    var inputError: bool
    var inputs: set<Key>
    var dispatched: set<Key>
    var inFlight: set<Key>
    var aborted: set<Key>
    var chains: map<Key, Chain>
    var waiters: seq<Waiter>
    var released: bool
    ghost var dispatches: seq<Key>
    ghost var updates: seq<Key>
    ghost var log: seq<Action>

    ghost function Fields(): State
      reads this
    {
      State(latest, version, active, acknowledged, inputError, inputs, dispatched, inFlight, aborted, chains, waiters,
            released, dispatches, updates)
    }

    /** The actions of the log, from a new entry, have led to where it stands. */
    ghost predicate Valid()
      reads this
    {
      H.History(Advance, INITIAL, log, Fields())
    }

    constructor ()
      ensures Valid() && log == [] && Fields() == INITIAL
    {
      latest, version, active, acknowledged, inputError := None, 0, false, None, false;
      inputs, dispatched, inFlight, aborted, chains, waiters, released := {}, {}, {}, {}, map[], [], false;
      dispatches, updates, log := [], [], [];
      H.NoHistory(Advance, INITIAL);
    }

    method WakeSleepers()
      modifies `version, `waiters
      ensures Fields() == Wake(old(Fields()))
    {
      version := version + 1;
      var i := 0;
      while i < |waiters|
        invariant i <= |waiters| == |old(waiters)| && version == old(version) + 1
        invariant forall k :: 0 <= k < i ==> waiters[k] == WakeAll(old(waiters))[k]
        invariant forall k :: i <= k < |waiters| ==> waiters[k] == old(waiters)[k]
      {
        if waiters[i].phase.Sleeping? {
          waiters := waiters[i := waiters[i].(phase := Woken(false))];
        }
        i := i + 1;
      }
    }

    /** The inputs in flight that a new list of inputs no longer names. */
    method Unlisted(listed: set<Key>) returns (r: set<Key>)
      ensures r == set k | k in inFlight && k !in listed
    {
      r := {};
      var todo := inFlight;
      while todo != {}
        invariant todo <= inFlight
        invariant r == set k | k in inFlight - todo && k !in listed
        decreases |todo|
      {
        var k := AnyOf(todo);
        todo := todo - {k};
        if k !in listed {
          r := r + {k};
        }
      }
    }

    method TakeSnapshot(snapshot: Snapshot) returns (observed: bool)
      modifies `latest, `version, `inputs, `aborted, `waiters
      ensures observed == IsNews(old(Fields()), snapshot)
      ensures Fields() == Observe(old(Fields()), snapshot)
    {
      if latest.Some? {
        if snapshot.time < latest.value.time {
          return false;
        }
        if snapshot.time == latest.value.time && IsTerminal(latest.value) {
          return false;
        }
      }
      latest := Some(snapshot);
      inputs := if snapshot.status.InputRequired? then set k | k in snapshot.status.keys else {};
      var withdrawn := Unlisted(inputs);
      aborted := aborted + withdrawn;
      WakeSleepers();
      return true;
    }

    /** The status callbacks of the waiters that are still there. */
    method NotifyListeners(time: int)
      modifies `waiters
      ensures waiters == NotifyAll(old(waiters), time)
    {
      var i := 0;
      while i < |waiters|
        invariant i <= |waiters| == |old(waiters)|
        invariant forall k :: 0 <= k < i ==> waiters[k] == NotifyAll(old(waiters), time)[k]
        invariant forall k :: i <= k < |waiters| ==> waiters[k] == old(waiters)[k]
      {
        if !waiters[i].phase.Done? {
          waiters := waiters[i := Notify(waiters[i], time)];
        }
        i := i + 1;
      }
    }

    /** A pushed status that is news reaches every waiter. */
    method OnPush(snapshot: Snapshot)
      modifies `latest, `version, `inputs, `aborted, `waiters
      ensures Fields() == Step(old(Fields()), Push(snapshot))
    {
      var observed := TakeSnapshot(snapshot);
      if observed {
        NotifyListeners(snapshot.time);
      }
    }

    /** Starts the handlers of the inputs listed in this order, skipping those dispatched before. */
    method DispatchInputs(order: seq<Key>)
      modifies `dispatched, `inFlight, `chains, `dispatches
      ensures Fields() == Dispatch(old(Fields()), order)
    {
      var i := 0;
      while i < |order|
        invariant i <= |order|
        invariant Dispatch(Fields(), order[i..]) == Dispatch(old(Fields()), order)
      {
        assert order[i..][1..] == order[i + 1..];
        DispatchOne(order[i]);
        i := i + 1;
      }
    }

    method DispatchOne(k: Key)
      modifies `dispatched, `inFlight, `chains, `dispatches
      ensures Fields() == DispatchNext(old(Fields()), k)
    {
      if k in dispatched {
        return;
      }
      dispatched := dispatched + {k};
      inFlight := inFlight + {k};
      chains := chains[k := Fulfilling];
      dispatches := dispatches + [k];
    }

    /** The rest of a turn of a waiter's loop, from the snapshot it goes by. */
    method TakeTurn(w: nat, snapshot: Snapshot)
      requires w < |waiters|
      modifies `latest, `version, `inputs, `aborted, `waiters, `released, `dispatched, `inFlight, `chains, `dispatches
      ensures Fields() == Act(old(Fields()), w, snapshot)
    {
      if IsTerminal(snapshot) {
        LeaveWith(w, Terminal(snapshot));
      } else if inputError {
        LeaveWith(w, InputError);
      } else {
        if snapshot.status.InputRequired? {
          DispatchInputs(snapshot.status.keys);
        }
        var phase := if waiters[w].accepted && active then Sleeping else Polling;
        waiters := waiters[w := waiters[w].(phase := phase, seen := version)];
      }
    }

    method TakeRead(w: nat, snapshot: Snapshot)
      requires w < |waiters|
      modifies `latest, `version, `inputs, `aborted, `waiters
      ensures Fields() == ReadTaken(old(Fields()), w, snapshot)
    {
      if version == waiters[w].seen || latest.None? || snapshot.time > latest.value.time {
        var observed := TakeSnapshot(snapshot);
        if observed {
          waiters := waiters[w := Notify(waiters[w], snapshot.time)];
        }
      }
    }

    /** A read answered: it is taken in unless something newer crossed it, and the turn goes on from what is current. */
    method OnRead(w: nat, snapshot: Snapshot)
      requires Enabled(Fields(), Got(w, snapshot))
      modifies `latest, `version, `inputs, `aborted, `waiters, `released, `dispatched, `inFlight, `chains, `dispatches
      ensures Fields() == Step(old(Fields()), Got(w, snapshot))
    {
      TakeRead(w, snapshot);
      TakeTurn(w, if latest.Some? then latest.value else snapshot);
    }

    /** A waiter goes on after its sleep: it reads again, or goes by what the entry has. */
    method OnWoken(w: nat)
      requires Enabled(Fields(), Continue(w))
      modifies `latest, `version, `inputs, `aborted, `waiters, `released, `dispatched, `inFlight, `chains, `dispatches
      ensures Fields() == Step(old(Fields()), Continue(w))
    {
      if waiters[w].phase.elapsed || latest.None? {
        waiters := waiters[w := waiters[w].(phase := Getting, seen := version)];
      } else {
        TakeTurn(w, latest.value);
      }
    }

    method LeaveWith(w: nat, outcome: Outcome)
      requires w < |waiters|
      modifies `waiters, `released
      ensures Fields() == Finish(old(Fields()), w, outcome)
    {
      waiters := waiters[w := waiters[w].(phase := Done(outcome))];
      var i := 0;
      while i < |waiters| && waiters[i].phase.Done?
        invariant i <= |waiters| && waiters == old(waiters)[w := old(waiters)[w].(phase := Done(outcome))]
        invariant released == old(released)
        invariant forall k :: 0 <= k < i ==> waiters[k].phase.Done?
      {
        i := i + 1;
      }
      if i == |waiters| {
        released := true;
      }
    }

    method OnFulfilled(k: Key)
      requires Enabled(Fields(), Fulfilled(k))
      modifies `inFlight, `chains, `updates
      ensures Fields() == Step(old(Fields()), Fulfilled(k))
    {
      inFlight := inFlight - {k};
      if released || k in aborted || k !in inputs {
        chains := chains[k := Ended];
      } else {
        chains := chains[k := Updating];
        updates := updates + [k];
      }
    }

    method OnInputFailed(k: Key)
      requires k in chains
      modifies `inFlight, `chains, `inputError, `version, `waiters
      ensures Fields() == InputFailed(old(Fields()), k)
    {
      inFlight := inFlight - {k};
      chains := chains[k := Ended];
      if !released && k !in aborted {
        inputError := true;
        WakeSleepers();
      }
    }

    // ----- The rest of the actions, and their history

    /** The listen stream is acknowledged or refused, or its acknowledgement is given up; the first of these counts. */
    method OnAcknowledged(accepted: bool)
      modifies `acknowledged, `active
      ensures Fields() == Step(old(Fields()), AckFrame(accepted))
    {
      if acknowledged.None? {
        acknowledged, active := Some(accepted), accepted;
      }
    }

    method OnStreamSettled()
      modifies `acknowledged, `active, `version, `waiters
      ensures Fields() == Step(old(Fields()), StreamSettles)
    {
      active := false;
      acknowledged := Some(acknowledged.GetOr(false));
      WakeSleepers();
    }

    /** The input was unknown to the server, and the task has been read again for it. */
    method OnReread(k: Key, snapshot: Snapshot)
      requires k in chains
      modifies `inFlight, `chains, `inputError, `version, `waiters, `latest, `inputs, `aborted
      ensures Fields() == if k in InputsOf(Some(snapshot)) then InputFailed(old(Fields()), k)
                          else SetChain(Observe(old(Fields()), snapshot), k, Ended)
    {
      if k in InputsOf(Some(snapshot)) {
        OnInputFailed(k);
      } else {
        var _ := TakeSnapshot(snapshot);
        chains := chains[k := Ended];
      }
    }

    method SetPhase(w: nat, phase: Phase)
      requires w < |waiters|
      modifies `waiters
      ensures Fields() == SetWaiter(old(Fields()), w, old(waiters)[w].(phase := phase))
    {
      waiters := waiters[w := waiters[w].(phase := phase)];
    }

    method OnWaiter(w: nat, a: Action)
      requires Enabled(Fields(), a) && (a.AckSeen? || a.Got? || a.Expire? || a.PollElapsed? || a.Continue? || a.Leave?)
      requires w == a.waiter
      modifies `latest, `version, `inputs, `aborted, `waiters, `released, `dispatched, `inFlight, `chains, `dispatches
      ensures Fields() == Step(old(Fields()), a)
    {
      match a {
        case AckSeen(_) =>
          waiters := waiters[w := waiters[w].(phase := Getting, accepted := acknowledged.value, seen := version)];
        case Got(_, snapshot) => OnRead(w, snapshot);
        case Expire(_) => SetPhase(w, Woken(true));
        case PollElapsed(_) => SetPhase(w, Woken(true));
        case Continue(_) => OnWoken(w);
        case Leave(_) => LeaveWith(w, Interrupted);
      }
    }

    method OnChain(k: Key, a: Action)
      requires a.Fulfilled? || a.UpdateDone? || a.UpdateUnknown? || a.Reread? || a.ChainFails?
      requires Enabled(Fields(), a) && k == a.key
      modifies `inFlight, `chains, `updates, `inputError, `version, `waiters, `latest, `inputs, `aborted
      ensures Fields() == Step(old(Fields()), a)
    {
      match a {
        case Fulfilled(_) => OnFulfilled(k);
        case UpdateDone(_) => chains := chains[k := Ended];
        case UpdateUnknown(_) => chains := chains[k := Rereading];
        case Reread(_, snapshot) => OnReread(k, snapshot);
        case ChainFails(_) => OnInputFailed(k);
      }
    }

    method Apply(a: Action)
      requires Enabled(Fields(), a)
      modifies `latest, `version, `active, `acknowledged, `inputError, `inputs, `dispatched, `inFlight, `aborted,
               `chains, `waiters, `released, `dispatches, `updates
      ensures Fields() == Step(old(Fields()), a)
    {
      match a {
        case Acquire => waiters := waiters + [Waiter(Acking, false, 0, None, [])];
        case AckFrame(accepted) => OnAcknowledged(accepted);
        case StreamSettles => OnStreamSettled();
        case Push(snapshot) => OnPush(snapshot);
        case AckSeen(w) => OnWaiter(w, a);
        case Got(w, _) => OnWaiter(w, a);
        case Expire(w) => OnWaiter(w, a);
        case PollElapsed(w) => OnWaiter(w, a);
        case Continue(w) => OnWaiter(w, a);
        case Leave(w) => OnWaiter(w, a);
        case Fulfilled(k) => OnChain(k, a);
        case UpdateDone(k) => OnChain(k, a);
        case UpdateUnknown(k) => OnChain(k, a);
        case Reread(k, _) => OnChain(k, a);
        case ChainFails(k) => OnChain(k, a);
      }
    }

    /** Whatever can happen to the entry, with its place in the history. */
    method Handle(a: Action)
      requires Valid() && Enabled(Fields(), a)
      modifies this
      ensures Valid() && log == old(log) + [a] && Fields() == Step(old(Fields()), a)
    {
      Apply(a);
      H.HistoryGrows(Advance, INITIAL, log, old(Fields()), a, Fields());
      log := log + [a];
    }

    /** Every entry answers each input it dispatched at most once, and lets no waiter sleep through a change. */
    lemma AnswersOnceAndWakes(i: nat)
      requires Valid()
      ensures Distinct(dispatches) && Distinct(updates) && forall k :: k in updates ==> k in dispatches
      ensures PhaseOf(Fields(), i, Sleeping) ==> waiters[i].seen == version && active && !inputError
    {
      HistoryIsRun(INITIAL, log, Fields());
      InputsDispatchedOnce(log);
      if PhaseOf(Fields(), i, Sleeping) { NoSleepThroughChange(log, i); }
    }
  }
}
