/**
 The scheduler that bounds concurrent request handlers. Requests are numbered by the order in which their frames
 arrived; the number is history only, the scheduler itself knows requests by id.
 */
module RequestScheduler {
  import opened Options
  import H = Histories

  datatype RequestID = Number(number: int) | Text(text: string)

  datatype Entry = Entry(id: RequestID, arrival: nat)

  datatype State = State(
    maxConcurrent: nat, maxQueued: nat,
    queued: seq<Entry>, running: map<RequestID, nat>, detached: map<RequestID, nat>,
    // Arrivals whose signal is aborted.
    aborted: set<nat>,
    // History: the bound on arrivals so far, the accepted ones, those whose handler started, in order, and those
    // dropped from the queue.
    bound: nat, accepted: seq<nat>, started: seq<nat>, dropped: set<nat>)

  function Initial(maxConcurrent: nat, maxQueued: nat): State {
    State(maxConcurrent, maxQueued, [], map[], map[], {}, 0, [], [], {})
  }

  datatype Outcome = Started | Queued | Duplicate | Busy

  function Arrivals(queued: seq<Entry>): (r: seq<nat>)
    ensures |r| == |queued| && forall i :: 0 <= i < |queued| ==> r[i] == queued[i].arrival
  {
    seq(|queued|, i requires 0 <= i < |queued| => queued[i].arrival)
  }

  /** The position of an id in the queue, or the queue's length. */
  function Position(queued: seq<Entry>, id: RequestID): (k: nat)
    ensures k <= |queued|
    ensures k < |queued| ==> queued[k].id == id
    ensures forall i :: 0 <= i < k ==> queued[i].id != id
  {
    if queued == [] then 0 else if queued[0].id == id then 0 else 1 + Position(queued[1..], id)
  }

  predicate IsQueued(s: State, id: RequestID) {
    Position(s.queued, id) < |s.queued|
  }

  predicate InFlight(s: State, id: RequestID) {
    id in s.running || id in s.detached || IsQueued(s, id)
  }

  // ----- The steps

  function Verdict(s: State, id: RequestID): Outcome {
    if InFlight(s, id) then Duplicate
    else if |s.running| < s.maxConcurrent then Started
    else if |s.queued| >= s.maxQueued then Busy
    else Queued
  }

  function Scheduled(s: State, id: RequestID, arrival: nat): State {
    var s' := s.(bound := arrival + 1);
    match Verdict(s, id)
    case Started => s'.(running := s.running[id := arrival], accepted := s.accepted + [arrival],
                        started := s.started + [arrival])
    case Queued => s'.(queued := s.queued + [Entry(id, arrival)], accepted := s.accepted + [arrival])
    case _ => s'
  }

  function StartFirst(s: State): State
    requires s.queued != []
  {
    var e := s.queued[0];
    s.(queued := s.queued[1..], running := s.running[e.id := e.arrival], started := s.started + [e.arrival])
  }

  function Drained(s: State): State
    decreases |s.queued|
  {
    if |s.running| >= s.maxConcurrent || s.queued == [] then s else Drained(StartFirst(s))
  }

  function Reclaimed(s: State, id: RequestID): State {
    Drained(s.(running := s.running - {id}))
  }

  function Cancelled(s: State, id: RequestID): State {
    var k := Position(s.queued, id);
    if k < |s.queued| then
      var arrival := s.queued[k].arrival;
      s.(queued := s.queued[..k] + s.queued[k + 1..], aborted := s.aborted + {arrival},
         dropped := s.dropped + {arrival})
    else if id in s.running then s.(aborted := s.aborted + {s.running[id]})
    else if id in s.detached then s.(aborted := s.aborted + {s.detached[id]})
    else s
  }

  function Waiting(queued: seq<Entry>): set<nat> {
    set a | a in Arrivals(queued)
  }

  function AllAborted(s: State): State {
    s.(queued := [], aborted := s.aborted + Waiting(s.queued) + s.running.Values + s.detached.Values,
       dropped := s.dropped + Waiting(s.queued))
  }

  function Detached(s: State, id: RequestID): State {
    if id !in s.running then s
    else Drained(s.(running := s.running - {id}, detached := s.detached[id := s.running[id]]))
  }

  function Completed(s: State, id: RequestID): State {
    s.(detached := s.detached - {id})
  }

  datatype Action =
    | Schedule(id: RequestID, arrival: nat)
    | Reclaim(id: RequestID)
    | Cancel(id: RequestID)
    | AbortAll
    | Detach(id: RequestID)
    | Complete(id: RequestID)

  predicate Enabled(s: State, a: Action) {
    a.Schedule? ==> a.arrival >= s.bound
  }

  function Step(s: State, a: Action): State
    requires Enabled(s, a)
  {
    match a
    case Schedule(id, arrival) => Scheduled(s, id, arrival)
    case Reclaim(id) => Reclaimed(s, id)
    case Cancel(id) => Cancelled(s, id)
    case AbortAll => AllAborted(s)
    case Detach(id) => Detached(s, id)
    case Complete(id) => Completed(s, id)
  }

  predicate Possible(s: State, actions: seq<Action>)
    decreases |actions|
  {
    actions == [] || (Enabled(s, actions[0]) && Possible(Step(s, actions[0]), actions[1..]))
  }

  function Run(s: State, actions: seq<Action>): State
    requires Possible(s, actions)
    decreases |actions|
  {
    if actions == [] then s else Run(Step(s, actions[0]), actions[1..])
  }

  /** The step of an action that can happen. */
  function Advance(s: State, a: Action): Option<State> {
    if Enabled(s, a) then Some(Step(s, a)) else None
  }

  lemma {:induction false} HistoryIsRun(s: State, log: seq<Action>, now: State)
    requires H.History(Advance, s, log, now)
    ensures Possible(s, log) && Run(s, log) == now
    decreases |log|
  {
    H.HistoryFirst(Advance, s, log, now);
    if log != [] { HistoryIsRun(Step(s, log[0]), log[1..], now); }
  }

  // ----- The invariant

  ghost predicate Ascending(s: seq<nat>) {
    forall i, j :: 0 <= i < j < |s| ==> s[i] < s[j]
  }

  ghost predicate Distinct(queued: seq<Entry>) {
    forall i, j :: 0 <= i < j < |queued| ==> queued[i].id != queued[j].id
  }

  /** No id is in two of the scheduler's three records, nor twice in the queue. */
  ghost predicate Disjoint(s: State) {
    && Distinct(s.queued)
    && (forall e :: e in s.queued ==> e.id !in s.running && e.id !in s.detached)
    && s.running.Keys !! s.detached.Keys
  }

  /** The bounds that hold at all times, also half-way through a drain. */
  ghost predicate Bounded(s: State) {
    |s.running| <= s.maxConcurrent && |s.queued| <= s.maxQueued
  }

  /** A request waits only while every slot is taken. */
  ghost predicate Saturated(s: State) {
    s.queued != [] ==> |s.running| == s.maxConcurrent
  }

  /** A line of requests holds, in order, exactly the accepted ones that were not dropped. */
  ghost predicate InOrder(accepted: seq<nat>, dropped: set<nat>, line: seq<nat>, bound: nat) {
    && Ascending(accepted) && (forall a :: a in accepted || a in dropped ==> a < bound)
    && Ascending(line)
    && forall a :: a in line <==> a in accepted && a !in dropped
  }

  function Line(s: State): seq<nat> {
    s.started + Arrivals(s.queued)
  }

  /** Started requests come first, then the waiting ones. */
  ghost predicate Ordered(s: State) {
    InOrder(s.accepted, s.dropped, Line(s), s.bound)
  }

  lemma AcceptKeepsOrder(accepted: seq<nat>, dropped: set<nat>, line: seq<nat>, bound: nat, arrival: nat)
    requires InOrder(accepted, dropped, line, bound) && arrival >= bound
    ensures InOrder(accepted + [arrival], dropped, line + [arrival], arrival + 1)
  {
    forall i | 0 <= i < |line| ensures line[i] < bound { assert line[i] in line; }
    forall i | 0 <= i < |accepted| ensures accepted[i] < bound { assert accepted[i] in accepted; }
  }

  lemma WithoutOne(line: seq<nat>, at: nat, a: nat)
    requires Ascending(line) && at < |line|
    ensures Ascending(line[..at] + line[at + 1..])
    ensures a in line[..at] + line[at + 1..] <==> a in line && a != line[at]
  {
    var rest := line[..at] + line[at + 1..];
    if a in line && a != line[at] {
      var i :| 0 <= i < |line| && line[i] == a;
      assert rest[if i < at then i else i - 1] == a;
    }
  }

  lemma DropKeepsOrder(accepted: seq<nat>, dropped: set<nat>, line: seq<nat>, bound: nat, at: nat, rest: seq<nat>)
    requires InOrder(accepted, dropped, line, bound) && at < |line| && rest == line[..at] + line[at + 1..]
    ensures InOrder(accepted, dropped + {line[at]}, rest, bound)
  {
    assert line[at] in line;
    WithoutOne(line, at, 0);
    forall a ensures a in rest <==> a in line && a != line[at] { WithoutOne(line, at, a); }
  }

  lemma CutKeepsOrder(accepted: seq<nat>, dropped: set<nat>, front: seq<nat>, back: seq<nat>, bound: nat)
    requires InOrder(accepted, dropped, front + back, bound)
    ensures InOrder(accepted, dropped + (set a | a in back), front, bound)
  {
    var line := front + back;
    assert forall i :: 0 <= i < |front| ==> line[i] == front[i];
    forall i, j | 0 <= i < |front| && 0 <= j < |back| ensures front[i] < back[j] {
      assert line[|front| + j] == back[j];
    }
  }

  ghost predicate Mid(s: State) {
    Disjoint(s) && Bounded(s) && Ordered(s)
  }

  ghost predicate Inv(s: State) {
    Mid(s) && Saturated(s)
  }

  lemma StartFirstDisjoint(s: State)
    requires Disjoint(s) && s.queued != []
    ensures Disjoint(StartFirst(s)) && s.queued[0].id !in s.running
  {
    assert s.queued[0] in s.queued;
    forall e | e in s.queued[1..] ensures e in s.queued && e.id != s.queued[0].id {
      var i :| 0 <= i < |s.queued[1..]| && s.queued[1..][i] == e;
      assert s.queued[i + 1] == e;
    }
  }

  lemma StartFirstLine(s: State)
    requires s.queued != []
    ensures Line(StartFirst(s)) == Line(s)
  {
  }

  lemma StartFirstBounded(s: State)
    requires Bounded(s) && Disjoint(s) && s.queued != [] && |s.running| < s.maxConcurrent
    ensures Bounded(StartFirst(s))
  {
    StartFirstDisjoint(s);
    var e := s.queued[0];
    assert s.running[e.id := e.arrival].Keys == s.running.Keys + {e.id};
    assert |s.running[e.id := e.arrival]| == |s.running| + 1;
  }

  lemma StartFirstKeeps(s: State)
    requires Mid(s) && s.queued != [] && |s.running| < s.maxConcurrent
    ensures Mid(StartFirst(s))
  {
    StartFirstDisjoint(s);
    StartFirstLine(s);
    StartFirstBounded(s);
  }

  lemma {:induction false} DrainedKeeps(s: State)
    requires Mid(s)
    ensures Inv(Drained(s))
    decreases |s.queued|
  {
    if |s.running| < s.maxConcurrent && s.queued != [] {
      StartFirstKeeps(s);
      DrainedKeeps(StartFirst(s));
    }
  }

  lemma SmallerMap<K, V>(m: map<K, V>, k: K)
    ensures |m - {k}| <= |m|
  {
    assert (m - {k}).Keys == m.Keys - {k};
    assert |m.Keys - {k}| <= |m.Keys|;
  }

  lemma ScheduleOrder(s: State, id: RequestID, arrival: nat)
    requires Inv(s) && arrival >= s.bound
    ensures Ordered(Scheduled(s, id, arrival))
  {
    AcceptKeepsOrder(s.accepted, s.dropped, Line(s), s.bound, arrival);
    var s' := Scheduled(s, id, arrival);
    assert Verdict(s, id).Started? || Verdict(s, id).Queued? ==> Line(s') == Line(s) + [arrival];
  }

  lemma ScheduleDisjoint(s: State, id: RequestID, arrival: nat)
    requires Disjoint(s)
    ensures Disjoint(Scheduled(s, id, arrival))
  {
  }

  lemma ScheduleKeeps(s: State, id: RequestID, arrival: nat)
    requires Inv(s) && arrival >= s.bound
    ensures Inv(Scheduled(s, id, arrival))
  {
    ScheduleOrder(s, id, arrival);
    ScheduleDisjoint(s, id, arrival);
    if Verdict(s, id).Started? {
      assert s.running[id := arrival].Keys == s.running.Keys + {id};
      assert |s.running[id := arrival]| == |s.running| + 1;
    }
  }

  lemma LineWithout(started: seq<nat>, queued: seq<Entry>, k: nat)
    requires k < |queued|
    ensures var line, at := started + Arrivals(queued), |started| + k;
            started + Arrivals(queued[..k] + queued[k + 1..]) == line[..at] + line[at + 1..]
  {
  }

  lemma CancelOrder(s: State, id: RequestID)
    requires Ordered(s)
    ensures Ordered(Cancelled(s, id))
  {
    var k := Position(s.queued, id);
    if k < |s.queued| {
      LineWithout(s.started, s.queued, k);
      DropKeepsOrder(s.accepted, s.dropped, Line(s), s.bound, |s.started| + k, Line(Cancelled(s, id)));
      assert Line(s)[|s.started| + k] == s.queued[k].arrival;
    }
  }

  lemma RemovalKeepsDistinct(queued: seq<Entry>, k: nat)
    requires Distinct(queued) && k < |queued|
    ensures Distinct(queued[..k] + queued[k + 1..])
    ensures forall e :: e in queued[..k] + queued[k + 1..] ==> e in queued
  {
  }

  lemma CancelKeeps(s: State, id: RequestID)
    requires Inv(s)
    ensures Inv(Cancelled(s, id))
  {
    CancelOrder(s, id);
    var k := Position(s.queued, id);
    if k < |s.queued| {
      RemovalKeepsDistinct(s.queued, k);
    }
  }

  lemma AbortAllKeeps(s: State)
    requires Inv(s)
    ensures Inv(AllAborted(s))
  {
    CutKeepsOrder(s.accepted, s.dropped, s.started, Arrivals(s.queued), s.bound);
    assert Line(AllAborted(s)) == s.started;
  }

  lemma ReclaimKeeps(s: State, id: RequestID)
    requires Inv(s)
    ensures Inv(Reclaimed(s, id))
  {
    SmallerMap(s.running, id);
    DrainedKeeps(s.(running := s.running - {id}));
  }

  lemma DetachKeeps(s: State, id: RequestID)
    requires Inv(s)
    ensures Inv(Detached(s, id))
  {
    if id in s.running {
      SmallerMap(s.running, id);
      DrainedKeeps(s.(running := s.running - {id}, detached := s.detached[id := s.running[id]]));
    }
  }

  lemma CompleteKeeps(s: State, id: RequestID)
    requires Inv(s)
    ensures Inv(Completed(s, id))
  {
  }

  lemma ForgettingKeeps(s: State, gone: set<RequestID>)
    requires Inv(s)
    ensures Inv(s.(detached := s.detached - gone))
  {
  }

  lemma StepKeeps(s: State, a: Action)
    requires Inv(s) && Enabled(s, a)
    ensures Inv(Step(s, a))
  {
    match a
    case Schedule(id, arrival) =>
      assert Step(s, a) == Scheduled(s, id, arrival);
      ScheduleKeeps(s, id, arrival);
    case Reclaim(id) =>
      assert Step(s, a) == Reclaimed(s, id);
      ReclaimKeeps(s, id);
    case Cancel(id) =>
      assert Step(s, a) == Cancelled(s, id);
      CancelKeeps(s, id);
    case AbortAll =>
      assert Step(s, a) == AllAborted(s);
      AbortAllKeeps(s);
    case Detach(id) =>
      assert Step(s, a) == Detached(s, id);
      DetachKeeps(s, id);
    case Complete(id) =>
      assert Step(s, a) == Completed(s, id);
      CompleteKeeps(s, id);
  }

  lemma {:induction false} RunKeeps(s: State, actions: seq<Action>)
    requires Inv(s) && Possible(s, actions)
    ensures Inv(Run(s, actions))
    decreases |actions|
  {
    if actions != [] {
      StepKeeps(s, actions[0]);
      RunKeeps(Step(s, actions[0]), actions[1..]);
    }
  }

  lemma InitialInv(maxConcurrent: nat, maxQueued: nat)
    ensures Inv(Initial(maxConcurrent, maxQueued))
  {
  }

  ghost predicate Reaches(s: State, actions: seq<Action>) {
    var s0 := Initial(s.maxConcurrent, s.maxQueued);
    Possible(s0, actions) && s == Run(s0, actions)
  }

  /** A state some run of a fresh scheduler leads to. */
  ghost predicate Reachable(s: State) {
    exists actions: seq<Action> :: Reaches(s, actions)
  }

  lemma ReachableInv(s: State)
    requires Reachable(s)
    ensures Inv(s)
  {
    var actions :| Reaches(s, actions);
    InitialInv(s.maxConcurrent, s.maxQueued);
    RunKeeps(Initial(s.maxConcurrent, s.maxQueued), actions);
  }

  // ----- Order and bounds

  /** The bounds hold, an id has one place, and a request waits only while every slot is taken. */
  lemma SlotsAreBoundedAndUsed(s: State)
    requires Reachable(s)
    ensures |s.running| <= s.maxConcurrent && |s.queued| <= s.maxQueued
    ensures Disjoint(s)
    ensures s.queued != [] ==> |s.running| == s.maxConcurrent
  {
    ReachableInv(s);
  }

  lemma EarlierInLine(accepted: seq<nat>, dropped: set<nat>, started: seq<nat>, rest: seq<nat>, bound: nat,
                      i: nat, j: nat, k: nat)
    requires InOrder(accepted, dropped, started + rest, bound)
    requires i < j < |accepted| && k < |started| && started[k] == accepted[j]
    ensures accepted[i] in dropped <==> accepted[i] !in started
    ensures accepted[i] !in dropped ==> exists m: nat :: m < k && started[m] == accepted[i]
  {
    var line, a := started + rest, accepted[i];
    assert line[k] == accepted[j] && a < accepted[j];
    if a !in dropped {
      assert a in line;
      var m :| 0 <= m < |line| && line[m] == a;
      assert forall n :: k <= n < |line| ==> line[n] >= line[k];
      assert started[m] == a;
    } else {
      assert a !in line;
      assert a in started ==> a in line;
    }
  }

  /**
   Handlers start in the order their requests were accepted: when one has started, every request accepted before
   it has started too, earlier, or was dropped from the queue and never starts.
   */
  lemma StartedInAcceptanceOrder(s: State, i: nat, j: nat, k: nat)
    requires Reachable(s) && i < j < |s.accepted| && k < |s.started| && s.started[k] == s.accepted[j]
    ensures s.accepted[i] in s.dropped <==> s.accepted[i] !in s.started
    ensures s.accepted[i] !in s.dropped ==> exists m: nat :: m < k && s.started[m] == s.accepted[i]
  {
    ReachableInv(s);
    EarlierInLine(s.accepted, s.dropped, s.started, Arrivals(s.queued), s.bound, i, j, k);
  }

  lemma {:induction false} DrainKeepsSignals(s: State)
    ensures Drained(s).dropped == s.dropped && Drained(s).aborted == s.aborted
    ensures Drained(s).detached == s.detached && Drained(s).accepted == s.accepted && Drained(s).bound == s.bound
    decreases |s.queued|
  {
    if |s.running| < s.maxConcurrent && s.queued != [] {
      DrainKeepsSignals(StartFirst(s));
    }
  }

  lemma CancelGrows(s: State, id: RequestID)
    ensures s.dropped <= Cancelled(s, id).dropped && s.aborted <= Cancelled(s, id).aborted
  {
  }

  lemma ScheduleGrows(s: State, id: RequestID, arrival: nat)
    ensures Scheduled(s, id, arrival).dropped == s.dropped && Scheduled(s, id, arrival).aborted == s.aborted
  {
  }

  lemma StepGrows(s: State, a: Action)
    requires Enabled(s, a)
    ensures s.dropped <= Step(s, a).dropped && s.aborted <= Step(s, a).aborted
  {
    match a
    case Schedule(id, arrival) => ScheduleGrows(s, id, arrival);
    case Cancel(id) => CancelGrows(s, id);
    case Reclaim(id) => DrainKeepsSignals(s.(running := s.running - {id}));
    case Detach(id) =>
      if id in s.running {
        DrainKeepsSignals(s.(running := s.running - {id}, detached := s.detached[id := s.running[id]]));
      }
    case _ =>
  }

  lemma {:induction false} HistoryGrows(s: State, actions: seq<Action>)
    requires Possible(s, actions)
    ensures s.dropped <= Run(s, actions).dropped && s.aborted <= Run(s, actions).aborted
    decreases |actions|
  {
    if actions != [] {
      StepGrows(s, actions[0]);
      HistoryGrows(Step(s, actions[0]), actions[1..]);
    }
  }

  /** A request cancelled while it waited never starts, whatever happens afterwards. */
  lemma CancelledWaiterNeverStarts(s: State, k: nat, later: seq<Action>)
    requires Reachable(s) && k < |s.queued|
    requires var s' := Step(s, Cancel(s.queued[k].id)); Possible(s', later)
    ensures s.queued[k].arrival !in Run(Step(s, Cancel(s.queued[k].id)), later).started
  {
    ReachableInv(s);
    var a := s.queued[k].arrival;
    var s' := Step(s, Cancel(s.queued[k].id));
    assert Position(s.queued, s.queued[k].id) == k;
    StepKeeps(s, Cancel(s.queued[k].id));
    RunKeeps(s', later);
    HistoryGrows(s', later);
    var end := Run(s', later);
    assert a in end.started ==> a in Line(end);
  }

  // ----- The scheduler as a class

  class Scheduler {
    const maxConcurrent: nat
    const maxQueued: nat
    var queued: seq<Entry>
    var running: map<RequestID, nat>
    var detached: map<RequestID, nat>
    var aborted: set<nat>
    ghost var bound: nat
    ghost var accepted: seq<nat>
    ghost var started: seq<nat>
    ghost var dropped: set<nat>
    ghost var log: seq<Action>

    ghost function Fields(): State
      reads this
    {
      State(maxConcurrent, maxQueued, queued, running, detached, aborted, bound, accepted, started, dropped)
    }

    /** The actions of the log have led from a new scheduler to this one. */
    ghost predicate Valid()
      reads this
    {
      H.History(Advance, Initial(maxConcurrent, maxQueued), log, Fields())
    }

    constructor (maxConcurrent: nat, maxQueued: nat)
      ensures Valid() && log == [] && Fields() == Initial(maxConcurrent, maxQueued)
    {
      this.maxConcurrent, this.maxQueued := maxConcurrent, maxQueued;
      queued, running, detached, aborted := [], map[], map[], {};
      bound, accepted, started, dropped, log := 0, [], [], {}, [];
      H.NoHistory(Advance, Initial(maxConcurrent, maxQueued));
    }

    /** Looks an id up in the queue. */
    method Find(id: RequestID) returns (k: nat)
      ensures k == Position(queued, id)
    {
      k := 0;
      while k < |queued| && queued[k].id != id
        invariant k <= |queued|
        invariant Position(queued, id) == k + Position(queued[k..], id)
      {
        assert queued[k..][1..] == queued[k + 1..];
        k := k + 1;
      }
    }

    method Accept(id: RequestID, arrival: nat) returns (outcome: Outcome)
      requires arrival >= bound
      modifies `queued, `running, `bound, `accepted, `started
      ensures outcome == Verdict(old(Fields()), id)
      ensures Fields() == Step(old(Fields()), Schedule(id, arrival))
    {
      var k := Find(id);
      bound := arrival + 1;
      if id in running || k < |queued| || id in detached {
        return Duplicate;
      }
      if |running| < maxConcurrent {
        Start(id, arrival);
        accepted := accepted + [arrival];
        return Started;
      }
      if |queued| >= maxQueued {
        return Busy;
      }
      queued := queued + [Entry(id, arrival)];
      accepted := accepted + [arrival];
      return Queued;
    }

    method Start(id: RequestID, arrival: nat)
      modifies `running, `started
      ensures running == old(running)[id := arrival] && started == old(started) + [arrival]
    {
      running := running[id := arrival];
      started := started + [arrival];
    }

    method Drain()
      modifies `queued, `running, `started
      ensures Fields() == Drained(old(Fields()))
    {
      while |running| < maxConcurrent && queued != []
        invariant Drained(Fields()) == Drained(old(Fields()))
        decreases |queued|
      {
        StartNext();
      }
    }

    method StartNext()
      requires queued != [] && |running| < maxConcurrent
      modifies `queued, `running, `started
      ensures Fields() == StartFirst(old(Fields()))
    {
      var next := queued[0];
      queued := queued[1..];
      Start(next.id, next.arrival);
    }

    /** The handler of a started request settled. */
    method Finish(id: RequestID)
      modifies `queued, `running, `started
      ensures Fields() == Step(old(Fields()), Reclaim(id))
    {
      running := running - {id};
      Drain();
    }

    method CancelRequest(id: RequestID)
      modifies `queued, `aborted, `dropped
      ensures Fields() == Step(old(Fields()), Cancel(id))
    {
      var k := Find(id);
      if k < |queued| {
        var arrival := queued[k].arrival;
        queued := queued[..k] + queued[k + 1..];
        aborted := aborted + {arrival};
        dropped := dropped + {arrival};
      } else if id in running {
        aborted := aborted + {running[id]};
      } else if id in detached {
        aborted := aborted + {detached[id]};
      }
    }

    method AbortEverything()
      modifies `queued, `aborted, `dropped
      ensures Fields() == Step(old(Fields()), AbortAll)
    {
      var i := 0;
      while i < |queued|
        invariant i <= |queued| && queued == old(queued)
        invariant aborted == old(aborted) + Waiting(queued[..i])
        invariant dropped == old(dropped) + Waiting(queued[..i])
      {
        assert Arrivals(queued[..i + 1]) == Arrivals(queued[..i]) + [queued[i].arrival];
        assert Waiting(queued[..i + 1]) == Waiting(queued[..i]) + {queued[i].arrival};
        aborted := aborted + {queued[i].arrival};
        dropped := dropped + {queued[i].arrival};
        i := i + 1;
      }
      assert queued[..i] == queued;
      queued := [];
      aborted := aborted + running.Values + detached.Values;
    }

    method DetachRequest(id: RequestID)
      modifies `queued, `running, `detached, `started
      ensures Fields() == Step(old(Fields()), Detach(id))
    {
      if id !in running {
        return;
      }
      detached := detached[id := running[id]];
      running := running - {id};
      Drain();
    }

    method CompleteDetached(id: RequestID)
      modifies `detached
      ensures Fields() == Step(old(Fields()), Complete(id))
    {
      detached := detached - {id};
    }

    method Apply(a: Action)
      requires Enabled(Fields(), a)
      modifies `queued, `running, `detached, `aborted, `bound, `accepted, `started, `dropped
      ensures Fields() == Step(old(Fields()), a)
    {
      match a
      case Schedule(id, arrival) =>
        var _ := Accept(id, arrival);
      case Reclaim(id) => Finish(id);
      case Cancel(id) => CancelRequest(id);
      case AbortAll => AbortEverything();
      case Detach(id) => DetachRequest(id);
      case Complete(id) => CompleteDetached(id);
    }

    /** Whatever can happen to the scheduler, with its place in the history. */
    method Handle(a: Action)
      requires Valid() && Enabled(Fields(), a)
      modifies this
      ensures Valid() && log == old(log) + [a] && Fields() == Step(old(Fields()), a)
    {
      Apply(a);
      H.HistoryGrows(Advance, Initial(maxConcurrent, maxQueued), log, old(Fields()), a, Fields());
      log := log + [a];
    }

    /** Every scheduler keeps its bounds, and lets a request wait only while all its slots are taken. */
    lemma BoundedAndUsed()
      requires Valid()
      ensures |running| <= maxConcurrent && |queued| <= maxQueued && running.Keys !! detached.Keys
      ensures queued != [] ==> |running| == maxConcurrent
    {
      HistoryIsRun(Initial(maxConcurrent, maxQueued), log, Fields());
      assert Reaches(Fields(), log);
      SlotsAreBoundedAndUsed(Fields());
    }
  }
}
